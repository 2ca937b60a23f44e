/**
 * The JSON values the route handlers read from request bodies and from stored
 * documents, with the Python conversions the handlers apply to them:
 * truthiness (`not x`), numeric use (`x * y`, `x <= 0`), `float(x)`,
 * `str.lower()` and `ObjectId(x)`.
 */
module Json {
  import opened Options

  /** A scalar JSON value. Python's `True`/`False` take part in arithmetic as 1 and 0. */
  datatype JsonValue = JNull | JBool(b: bool) | JNum(n: real) | JStr(s: string)

  /** A request body or a stored document: field name to value. */
  type Object = map<string, JsonValue>

  /** Python truthiness: `None`, `False`, `0` and `""` are false, everything else is true. */
  predicate Truthy(v: JsonValue)
  {
    match v
    case JNull => false
    case JBool(b) => b
    case JNum(n) => n != 0.0
    case JStr(s) => s != ""
  }

  /** `data.get(key)` taken as a condition: the field is present and truthy. */
  predicate Given(data: Object, key: string)
  {
    key in data && Truthy(data[key])
  }

  /** The value of `v` in arithmetic, or None where Python raises a TypeError (null, strings). */
  function NumberOf(v: JsonValue): (r: Option<real>)
    ensures r.Some? <==> (v.JNum? || v.JBool?)
    ensures v.JNum? ==> r == Some(v.n)
  {
    match v
    case JNum(n) => Some(n)
    case JBool(b) => Some(if b then 1.0 else 0.0)
    case _ => None
  }

  // ---------------------------------------------------------------------------
  // Decimal digits

  predicate IsDigit(c: char) { '0' <= c <= '9' }

  predicate AllDigits(s: string) { forall i :: 0 <= i < |s| ==> IsDigit(s[i]) }

  /** The number a string of decimal digits denotes (leading zeros allowed). */
  function DigitsValue(s: string): (n: nat)
    requires AllDigits(s)
  {
    if |s| == 0 then 0
    else DigitsValue(s[..|s| - 1]) * 10 + (s[|s| - 1] as int - '0' as int)
  }

  /** `float(v)` for the values the model covers; None where Python raises. */
  function FloatOf(v: JsonValue): (r: Option<real>)
    ensures v.JNum? ==> r == Some(v.n)
    ensures v.JNull? ==> r.None?
    ensures v.JStr? && v.s == "" ==> r.None?
  {
    match v
    case JNum(n) => Some(n)
    case JBool(b) => Some(if b then 1.0 else 0.0)
    case JNull => None
    case JStr(s) => if s != "" && AllDigits(s) then Some(DigitsValue(s) as real) else None
  }

  // ---------------------------------------------------------------------------
  // str.lower()

  function LowerChar(c: char): char
  {
    if 'A' <= c <= 'Z' then (c as int - 'A' as int + 'a' as int) as char else c
  }

  /** `s.lower()` on ASCII letters; every other character is left as it is. */
  function Lower(s: string): (r: string)
    ensures |r| == |s|
  {
    if |s| == 0 then [] else Lower(s[..|s| - 1]) + [LowerChar(s[|s| - 1])]
  }

  /** `.lower()` maps every character through `LowerChar`. */
  lemma {:induction false} LowerAt(s: string, i: nat)
    requires i < |s|
    ensures Lower(s)[i] == LowerChar(s[i])
    decreases |s|
  {
    if i < |s| - 1 {
      LowerAt(s[..|s| - 1], i);
    }
  }

  /** A status compared after `.lower()` reads as "on" exactly for the four spellings of "on". */
  lemma LowerIsOn(s: string)
    ensures Lower(s) == "on" <==> s in {"on", "On", "oN", "ON"}
  {
    if Lower(s) == "on" {
      assert |s| == 2;
      LowerAt(s, 0);
      LowerAt(s, 1);
      assert LowerChar(s[0]) == 'o' && LowerChar(s[1]) == 'n';
      assert s[0] == 'o' || s[0] == 'O';
      assert s[1] == 'n' || s[1] == 'N';
      assert s == [s[0], s[1]];
    }
  }

  // ---------------------------------------------------------------------------
  // ObjectId(text): 24 hexadecimal digits

  type ObjectId = nat

  const ObjectIdLength: nat := 24

  predicate IsHexDigit(c: char) { '0' <= c <= '9' || 'a' <= c <= 'f' || 'A' <= c <= 'F' }

  function HexDigitValue(c: char): (d: nat)
    requires IsHexDigit(c)
    ensures d < 16
  {
    if '0' <= c <= '9' then c as int - '0' as int
    else if 'a' <= c <= 'f' then c as int - 'a' as int + 10
    else c as int - 'A' as int + 10
  }

  predicate AllHex(s: string) { forall i :: 0 <= i < |s| ==> IsHexDigit(s[i]) }

  function HexValue(s: string): nat
    requires AllHex(s)
  {
    if |s| == 0 then 0 else HexValue(s[..|s| - 1]) * 16 + HexDigitValue(s[|s| - 1])
  }

  /**
   * `ObjectId(v)`: a string of exactly 24 hexadecimal digits names an id;
   * anything else makes bson raise (InvalidId or TypeError).
   */
  function ParseObjectId(v: JsonValue): (r: Option<ObjectId>)
    ensures r.Some? <==> v.JStr? && |v.s| == ObjectIdLength && AllHex(v.s)
  {
    if v.JStr? && |v.s| == ObjectIdLength && AllHex(v.s) then Some(HexValue(v.s)) else None
  }

  function Pow16(k: nat): (p: nat)
    ensures p > 0
  {
    if k == 0 then 1 else 16 * Pow16(k - 1)
  }

  function HexChar(d: nat): (c: char)
    requires d < 16
    ensures IsHexDigit(c) && HexDigitValue(c) == d
  {
    if d < 10 then ('0' as int + d) as char else ('a' as int + d - 10) as char
  }

  /** `str(ObjectId)`: the id as lower-case hexadecimal, zero-padded to `width` digits. */
  function HexText(n: nat, width: nat): (s: string)
    ensures |s| == width && AllHex(s)
  {
    if width == 0 then [] else HexText(n / 16, width - 1) + [HexChar(n % 16)]
  }

  /** Reading back the text of an id that fits its width gives the id. */
  lemma {:induction false} HexTextRoundTrip(n: nat, width: nat)
    requires n < Pow16(width)
    ensures HexValue(HexText(n, width)) == n
  {
    if width > 0 {
      var s := HexText(n, width);
      assert s[..|s| - 1] == HexText(n / 16, width - 1);
      HexTextRoundTrip(n / 16, width - 1);
    }
  }

  /** Every id below 16^24, written with `str`, is accepted back by `ObjectId`. */
  lemma ObjectIdRoundTrip(id: ObjectId)
    requires id < Pow16(ObjectIdLength)
    ensures ParseObjectId(JStr(HexText(id, ObjectIdLength))) == Some(id)
  {
    HexTextRoundTrip(id, ObjectIdLength);
  }
}
