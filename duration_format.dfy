/**
 * `format_duration` of the on-duration summary route: whole seconds as
 * `HH:MM:SS`, each field written with Python's `:02` format, together with a
 * reader for that text that recovers the seconds.
 */
module DurationFormat {
  import opened Options
  import opened Json

  function DigitChar(d: nat): (c: char)
    requires d < 10
    ensures IsDigit(c) && c as int - '0' as int == d
  {
    ('0' as int + d) as char
  }

  /** `str(n)` for a natural number: decimal digits without leading zeros. */
  function NatText(n: nat): (s: string)
    ensures |s| >= 1 && AllDigits(s)
    ensures n < 10 <==> |s| == 1
    decreases n
  {
    if n < 10 then [DigitChar(n)] else NatText(n / 10) + [DigitChar(n % 10)]
  }

  /** `f"{n:02}"`: zero-padded to two characters; a negative number keeps its sign in front. */
  function Pad2(n: int): string
  {
    if n < 0 then "-" + NatText(-n)
    else if n < 10 then "0" + NatText(n)
    else NatText(n)
  }

  /** `format_duration`: `divmod` by 3600 and then by 60 (floor division, as Dafny's `/` and `%` for a positive divisor). */
  function FormatDuration(total: int): (text: string)
    ensures |text| >= 8
    ensures text[|text| - 3] == ':' && text[|text| - 6] == ':'
  {
    var hours, remainder := total / 3600, total % 3600;
    var minutes, seconds := remainder / 60, remainder % 60;
    TwoDigitsBelowSixty(minutes);
    TwoDigitsBelowSixty(seconds);
    PadPositive(hours);
    Pad2(hours) + ":" + Pad2(minutes) + ":" + Pad2(seconds)
  }

  lemma {:induction false} TwoDigitsBelowSixty(n: int)
    requires 0 <= n < 60
    ensures |Pad2(n)| == 2 && AllDigits(Pad2(n))
  {
  }

  lemma {:induction false} PadPositive(n: int)
    ensures |Pad2(n)| >= 2
    ensures n >= 0 ==> AllDigits(Pad2(n))
    ensures n < 0 ==> Pad2(n)[0] == '-' && AllDigits(Pad2(n)[1..])
  {
    if n < 0 {
      var digits := NatText(-n);
      assert Pad2(n) == "-" + digits;
      assert ("-" + digits)[1..] == digits;
    }
  }

  /** Read back an `HH:MM:SS` text: hours of any length (with an optional minus sign), then two-digit minutes and seconds. */
  function ParseDuration(text: string): (r: Option<int>)
  {
    if |text| < 8 || text[|text| - 3] != ':' || text[|text| - 6] != ':' then None
    else FieldsValue(HoursField(text), MinutesField(text), SecondsField(text))
  }

  /** The text before the second-to-last colon. */
  function HoursField(text: string): string
    requires |text| >= 6
  {
    text[..|text| - 6]
  }

  /** The two characters between the last two colons. */
  function MinutesField(text: string): string
    requires |text| >= 5
  {
    text[|text| - 5..|text| - 3]
  }

  /** The two characters after the last colon. */
  function SecondsField(text: string): string
    requires |text| >= 2
  {
    text[|text| - 2..]
  }

  /** The seconds that an hours, a minutes and a seconds field denote. */
  function FieldsValue(h: string, m: string, s: string): Option<int>
  {
    if !AllDigits(m) || !AllDigits(s) then None
    else if |h| > 1 && h[0] == '-' && AllDigits(h[1..]) then
      Some(0 - DigitsValue(h[1..]) * 3600 + DigitsValue(m) * 60 + DigitsValue(s))
    else if AllDigits(h) && |h| > 0 then
      Some(DigitsValue(h) * 3600 + DigitsValue(m) * 60 + DigitsValue(s))
    else None
  }

  lemma {:induction false} NatTextValue(n: nat)
    ensures DigitsValue(NatText(n)) == n
    decreases n
  {
    if n >= 10 {
      var s := NatText(n);
      assert s[..|s| - 1] == NatText(n / 10);
      NatTextValue(n / 10);
    }
  }

  lemma {:induction false} LeadingZeroValue(s: string)
    requires AllDigits(s)
    ensures AllDigits("0" + s) && DigitsValue("0" + s) == DigitsValue(s)
    decreases |s|
  {
    if |s| > 0 {
      var z := "0" + s;
      assert z[..|z| - 1] == "0" + s[..|s| - 1];
      LeadingZeroValue(s[..|s| - 1]);
    }
  }

  lemma {:induction false} Pad2ValueNonNegative(n: int)
    requires n >= 0
    ensures AllDigits(Pad2(n)) && DigitsValue(Pad2(n)) == n
  {
    NatTextValue(n);
    if n < 10 {
      LeadingZeroValue(NatText(n));
    }
  }

  lemma {:induction false} Pad2ValueNegative(n: int)
    requires n < 0
    ensures |Pad2(n)| > 1 && Pad2(n)[0] == '-' && AllDigits(Pad2(n)[1..])
    ensures DigitsValue(Pad2(n)[1..]) == -n
  {
    var digits := NatText(-n);
    assert Pad2(n) == "-" + digits;
    assert ("-" + digits)[1..] == digits;
    NatTextValue(-n);
  }

  /** The formatter's output splits back into its three fields at the two colons. */
  lemma {:induction false} SplitFields(h: string, m: string, s: string)
    requires |h| >= 2 && |m| == 2 && |s| == 2
    ensures var text := h + ":" + m + ":" + s;
      && |text| >= 8 && text[|text| - 3] == ':' && text[|text| - 6] == ':'
      && HoursField(text) == h && MinutesField(text) == m && SecondsField(text) == s
  {
  }

  lemma {:induction false} ReadFields(h: string, m: string, s: string)
    requires |h| >= 2 && |m| == 2 && |s| == 2
    ensures ParseDuration(h + ":" + m + ":" + s) == FieldsValue(h, m, s)
  {
    SplitFields(h, m, s);
  }

  lemma {:induction false} ParseSigned(h: string, m: string, s: string)
    requires |h| >= 2 && |m| == 2 && |s| == 2 && AllDigits(m) && AllDigits(s)
    requires h[0] == '-' && AllDigits(h[1..])
    ensures FieldsValue(h, m, s)
      == Some(0 - DigitsValue(h[1..]) * 3600 + DigitsValue(m) * 60 + DigitsValue(s))
  {
  }

  lemma {:induction false} ParseUnsigned(h: string, m: string, s: string)
    requires |h| >= 2 && |m| == 2 && |s| == 2 && AllDigits(m) && AllDigits(s)
    requires AllDigits(h)
    ensures FieldsValue(h, m, s)
      == Some(DigitsValue(h) * 3600 + DigitsValue(m) * 60 + DigitsValue(s))
  {
  }

  /** `divmod(total, 3600)` then `divmod(remainder, 60)` splits `total` exactly. */
  lemma {:induction false} DivModParts(total: int)
    ensures 0 <= (total % 3600) / 60 < 60 && 0 <= (total % 3600) % 60 < 60
    ensures (total / 3600) * 3600 + ((total % 3600) / 60) * 60 + (total % 3600) % 60 == total
  {
  }

  lemma {:induction false} FormatDurationText(total: int)
    ensures FormatDuration(total) == Pad2(total / 3600) + ":" + Pad2((total % 3600) / 60) + ":" + Pad2((total % 3600) % 60)
  {
  }

  /** The three padded fields, minutes and seconds below 60, read back as the seconds they denote. */
  lemma {:induction false} ReadPaddedFields(hours: int, minutes: int, seconds: int)
    requires 0 <= minutes < 60 && 0 <= seconds < 60
    ensures ParseDuration(Pad2(hours) + ":" + Pad2(minutes) + ":" + Pad2(seconds))
      == Some(hours * 3600 + minutes * 60 + seconds)
  {
    TwoDigitsBelowSixty(minutes);
    TwoDigitsBelowSixty(seconds);
    PadPositive(hours);
    Pad2ValueNonNegative(minutes);
    Pad2ValueNonNegative(seconds);
    ReadFields(Pad2(hours), Pad2(minutes), Pad2(seconds));
    if hours < 0 {
      Pad2ValueNegative(hours);
      ParseSigned(Pad2(hours), Pad2(minutes), Pad2(seconds));
    } else {
      Pad2ValueNonNegative(hours);
      ParseUnsigned(Pad2(hours), Pad2(minutes), Pad2(seconds));
    }
  }

  /**
   * Reading a formatted duration gives back the seconds it was made from:
   * the hours, minutes and seconds fields satisfy h * 3600 + m * 60 + s == total.
   */
  lemma {:induction false} FormatDurationRoundTrip(total: int)
    ensures ParseDuration(FormatDuration(total)) == Some(total)
  {
    DivModParts(total);
    FormatDurationText(total);
    ReadPaddedFields(total / 3600, (total % 3600) / 60, (total % 3600) % 60);
  }

  /** For a non-negative total the minutes and seconds are below 60 and every field has at least two digits. */
  lemma {:induction false} FormatDurationFields(total: int)
    requires total >= 0
    ensures var text := FormatDuration(total);
      && |HoursField(text)| >= 2 && AllDigits(HoursField(text))
      && AllDigits(MinutesField(text)) && AllDigits(SecondsField(text))
    ensures var text := FormatDuration(total);
      && DigitsValue(MinutesField(text)) < 60 && DigitsValue(SecondsField(text)) < 60
      && DigitsValue(HoursField(text)) * 3600 + DigitsValue(MinutesField(text)) * 60 + DigitsValue(SecondsField(text)) == total
  {
    var hours, remainder := total / 3600, total % 3600;
    var minutes, seconds := remainder / 60, remainder % 60;
    var text := FormatDuration(total);
    DivModParts(total);
    TwoDigitsBelowSixty(minutes);
    TwoDigitsBelowSixty(seconds);
    PadPositive(hours);
    assert text == Pad2(hours) + ":" + Pad2(minutes) + ":" + Pad2(seconds);
    SplitFields(Pad2(hours), Pad2(minutes), Pad2(seconds));
    Pad2ValueNonNegative(hours);
    Pad2ValueNonNegative(minutes);
    Pad2ValueNonNegative(seconds);
  }
}
