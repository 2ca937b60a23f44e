/**
 * Proleptic Gregorian dates as Python's `datetime` handles them (years 1 to
 * 9999), enough to evaluate the month-end expression of the monthly cost
 * route in routes/devices_routes.py.
 */
module Calendar {
  import opened Options

  datatype Date = Date(year: int, month: int, day: int)

  const MaxYear: int := 9999

  predicate IsLeapYear(y: int)
  {
    y % 4 == 0 && (y % 100 != 0 || y % 400 == 0)
  }

  function DaysInMonth(y: int, m: int): (n: int)
    requires 1 <= m <= 12
    ensures 28 <= n <= 31
  {
    if m == 2 then (if IsLeapYear(y) then 29 else 28)
    else if m == 4 || m == 6 || m == 9 || m == 11 then 30
    else 31
  }

  predicate ValidDate(d: Date)
  {
    1 <= d.year <= MaxYear && 1 <= d.month <= 12 && 1 <= d.day <= DaysInMonth(d.year, d.month)
  }

  /** `d + timedelta(days=1)`; None where Python raises OverflowError past 9999-12-31. */
  function NextDay(d: Date): (r: Option<Date>)
    requires ValidDate(d)
    ensures r.Some? ==> ValidDate(r.value)
  {
    if d.day < DaysInMonth(d.year, d.month) then Some(Date(d.year, d.month, d.day + 1))
    else if d.month < 12 then Some(Date(d.year, d.month + 1, 1))
    else if d.year < MaxYear then Some(Date(d.year + 1, 1, 1))
    else None
  }

  /** `d - timedelta(days=1)`; None before 0001-01-01. */
  function PrevDay(d: Date): (r: Option<Date>)
    requires ValidDate(d)
    ensures r.Some? ==> ValidDate(r.value)
  {
    if d.day > 1 then Some(Date(d.year, d.month, d.day - 1))
    else if d.month > 1 then Some(Date(d.year, d.month - 1, DaysInMonth(d.year, d.month - 1)))
    else if d.year > 1 then Some(Date(d.year - 1, 12, 31))
    else None
  }

  /** `d + timedelta(days=n)`. */
  function AddDays(d: Date, n: nat): (r: Option<Date>)
    requires ValidDate(d)
    ensures r.Some? ==> ValidDate(r.value)
    decreases n
  {
    if n == 0 then Some(d)
    else
      match NextDay(d)
      case None => None
      case Some(d') => AddDays(d', n - 1)
  }

  /** The 28th plus four days lands on day 1 to 4 of the next month, whatever the month's length. */
  lemma FourDaysAfterThe28th(y: int, m: int)
    requires 1 <= y <= MaxYear && 1 <= m <= 12
    ensures var (ny, nm) := if m < 12 then (y, m + 1) else (y + 1, 1);
      AddDays(Date(y, m, 28), 4)
        == if y == MaxYear && m == 12 then None else Some(Date(ny, nm, 32 - DaysInMonth(y, m)))
  {
    var n := DaysInMonth(y, m);
    var d := Date(y, m, 28);
    if y == MaxYear && m == 12 {
      assert AddDays(d, 4) == AddDays(Date(y, m, 29), 3) == AddDays(Date(y, m, 30), 2)
        == AddDays(Date(y, m, 31), 1) == None;
    } else if n == 28 {
      assert AddDays(Date(if m < 12 then y else y + 1, if m < 12 then m + 1 else 1, 1), 3)
        == AddDays(Date(if m < 12 then y else y + 1, if m < 12 then m + 1 else 1, 2), 2)
        == AddDays(Date(if m < 12 then y else y + 1, if m < 12 then m + 1 else 1, 3), 1);
    } else if n == 29 {
      assert AddDays(d, 4) == AddDays(Date(y, m, 29), 3);
      assert AddDays(Date(if m < 12 then y else y + 1, if m < 12 then m + 1 else 1, 1), 2)
        == AddDays(Date(if m < 12 then y else y + 1, if m < 12 then m + 1 else 1, 2), 1);
    } else if n == 30 {
      assert AddDays(d, 4) == AddDays(Date(y, m, 29), 3) == AddDays(Date(y, m, 30), 2);
    } else {
      assert AddDays(d, 4) == AddDays(Date(y, m, 29), 3) == AddDays(Date(y, m, 30), 2)
        == AddDays(Date(y, m, 31), 1);
    }
  }

  /**
   * `(start.replace(day=28) + timedelta(days=4)).replace(day=1) - timedelta(days=1)`
   * for the first day `start` of month `m` of year `y`: the last day of that
   * month. Python raises for December 9999, where the `+ 4 days` overflows.
   */
  function EndOfMonth(y: int, m: int): (r: Option<Date>)
    requires 1 <= y <= MaxYear && 1 <= m <= 12
    ensures r.Some? <==> !(y == MaxYear && m == 12)
    ensures r.Some? ==> r.value == Date(y, m, DaysInMonth(y, m))
  {
    FourDaysAfterThe28th(y, m);
    match AddDays(Date(y, m, 28), 4)
    case None => None
    case Some(later) => PrevDay(Date(later.year, later.month, 1))
  }
}
