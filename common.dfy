/**
 * Values shared by every part of the billing model: optional values, results of
 * operations that can fail, money and calendar dates.
 */
module Common {

  datatype Option<T> = None | Some(value: T)

  /** Outcome of an operation that may fail with a message (an exception or an error reply). */
  datatype Result<T> = Ok(value: T) | Err(msg: string)

  /** Money in integer cents: the source keeps every amount as a 2-place Decimal. */
  type Cents = int

  /** A calendar date (Python `date`); only `ValidDate` values are ever built by the model. */
  datatype Date = Date(year: int, month: int, day: int)

  predicate IsLeapYear(y: int)
  {
    y % 4 == 0 && (y % 100 != 0 || y % 400 == 0)
  }

  function DaysInMonth(year: int, month: int): (n: int)
    requires 1 <= month <= 12
    ensures 28 <= n <= 31
    ensures month == 2 ==> (n == 29 <==> IsLeapYear(year))
  {
    if month == 2 then (if IsLeapYear(year) then 29 else 28)
    else if month == 4 || month == 6 || month == 9 || month == 11 then 30
    else 31
  }

  predicate ValidDate(d: Date)
  {
    1 <= d.month <= 12 && 1 <= d.day <= DaysInMonth(d.year, d.month)
  }

  /** Python's `a < b` on dates. */
  predicate Before(a: Date, b: Date)
  {
    a.year < b.year
    || (a.year == b.year && a.month < b.month)
    || (a.year == b.year && a.month == b.month && a.day < b.day)
  }

  function NextDay(d: Date): (r: Date)
    requires ValidDate(d)
    ensures ValidDate(r) && Before(d, r)
  {
    if d.day < DaysInMonth(d.year, d.month) then Date(d.year, d.month, d.day + 1)
    else if d.month < 12 then Date(d.year, d.month + 1, 1)
    else Date(d.year + 1, 1, 1)
  }

  /** `d + timedelta(days=n)`. */
  function AddDays(d: Date, n: nat): (r: Date)
    requires ValidDate(d)
    ensures ValidDate(r)
    ensures n > 0 ==> Before(d, r)
    decreases n
  {
    if n == 0 then d
    else
      var r := AddDays(NextDay(d), n - 1);
      assert n - 1 > 0 ==> Before(NextDay(d), r);
      r
  }

  /** Months counted from year 0, so that month arithmetic is integer arithmetic. */
  function MonthIndex(year: int, month: int): int
  {
    year * 12 + (month - 1)
  }

  /** The (year, month) that is `k` months after (year, month); `k` may be negative. */
  function ShiftMonth(year: int, month: int, k: int): (r: (int, int))
    requires 1 <= month <= 12
    ensures 1 <= r.1 <= 12
    ensures MonthIndex(r.0, r.1) == MonthIndex(year, month) + k
  {
    var idx := MonthIndex(year, month) + k;
    (idx / 12, idx % 12 + 1)
  }

  /** A month index names exactly one (year, month). */
  lemma MonthIndexUnique(y1: int, m1: int, y2: int, m2: int)
    requires 1 <= m1 <= 12 && 1 <= m2 <= 12
    requires MonthIndex(y1, m1) == MonthIndex(y2, m2)
    ensures y1 == y2 && m1 == m2
  {
  }

  /** Shifting by `k` and then by `j` months is shifting by `k + j`. */
  lemma ShiftMonthAdd(year: int, month: int, k: int, j: int)
    requires 1 <= month <= 12
    ensures var r := ShiftMonth(year, month, k);
      ShiftMonth(r.0, r.1, j) == ShiftMonth(year, month, k + j)
  {
    var r := ShiftMonth(year, month, k);
    var a := ShiftMonth(r.0, r.1, j);
    var b := ShiftMonth(year, month, k + j);
    MonthIndexUnique(a.0, a.1, b.0, b.1);
  }

  /**
   * `d.replace(day=day)` on a date of (year, month), falling back to the month's last
   * day where `replace` raises ValueError (`+ relativedelta(day=31)`).
   */
  function DayInMonthOrLast(year: int, month: int, day: int): (r: Date)
    requires 1 <= month <= 12
    ensures ValidDate(r) && r.year == year && r.month == month
    ensures 1 <= day <= DaysInMonth(year, month) ==> r.day == day
    ensures !(1 <= day <= DaysInMonth(year, month)) ==> r.day == DaysInMonth(year, month)
  {
    if 1 <= day <= DaysInMonth(year, month) then Date(year, month, day)
    else Date(year, month, DaysInMonth(year, month))
  }
}
