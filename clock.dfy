/**
 * Naive date-times as Python's `datetime` module has them: the proleptic Gregorian calendar,
 * microsecond resolution, no time zone. An instant is a valid calendar date plus the
 * microseconds since midnight; `Micros` places it on one integer time line (day 0001-01-01
 * has ordinal 1, as `date.toordinal` has it), and every comparison and subtraction of
 * instants is defined through that line. A `timedelta` is an integer count of microseconds.
 *
 * Years are unbounded: the range check `MINYEAR <= year <= MAXYEAR` and the OverflowError
 * it raises are not modelled.
 */
module Clock {
  import opened Wrappers

  const MicrosPerSecond: int := 1_000_000
  const MicrosPerDay: int := 86_400_000_000

  datatype Date = Date(year: int, month: int, day: int)

  /** A date and the microseconds elapsed since its midnight. */
  datatype DateTime = DateTime(date: Date, micros: int)

  predicate IsLeap(y: int) {
    y % 4 == 0 && (y % 100 != 0 || y % 400 == 0)
  }

  function DaysInMonth(y: int, m: int): (n: int)
    ensures 28 <= n <= 31
  {
    if m == 2 then (if IsLeap(y) then 29 else 28)
    else if m == 4 || m == 6 || m == 9 || m == 11 then 30
    else 31
  }

  function DaysInYear(y: int): int {
    if IsLeap(y) then 366 else 365
  }

  predicate ValidDate(d: Date) {
    1 <= d.month <= 12 && 1 <= d.day <= DaysInMonth(d.year, d.month)
  }

  predicate ValidDateTime(t: DateTime) {
    ValidDate(t.date) && 0 <= t.micros < MicrosPerDay
  }

  type CivilDate = d: Date | ValidDate(d) witness Date(1970, 1, 1)

  type Instant = t: DateTime | ValidDateTime(t) witness DateTime(Date(1970, 1, 1), 0)

  /** Days in the years before `y`, counted from year 1. */
  function DaysBeforeYear(y: int): int
    decreases if y >= 1 then y - 1 else 1 - y
  {
    if y == 1 then 0
    else if y > 1 then DaysBeforeYear(y - 1) + DaysInYear(y - 1)
    else DaysBeforeYear(y + 1) - DaysInYear(y)
  }

  /** Days in the months of year `y` before month `m`. */
  function DaysBeforeMonth(y: int, m: int): int
    requires 1 <= m <= 13
  {
    if m == 1 then 0 else DaysBeforeMonth(y, m - 1) + DaysInMonth(y, m - 1)
  }

  /** `date.toordinal()`: 0001-01-01 is day 1. */
  function Ordinal(d: CivilDate): int {
    DaysBeforeYear(d.year) + DaysBeforeMonth(d.year, d.month) + d.day
  }

  /** The position of an instant on the microsecond time line. */
  function Micros(t: Instant): int {
    Ordinal(t.date) * MicrosPerDay + t.micros
  }

  predicate Before(a: Instant, b: Instant) {
    Micros(a) < Micros(b)
  }

  predicate AtMost(a: Instant, b: Instant) {
    Micros(a) <= Micros(b)
  }

  lemma DaysBeforeNextYear(y: int)
    ensures DaysBeforeYear(y + 1) == DaysBeforeYear(y) + DaysInYear(y)
  {
  }

  lemma DaysBeforeDecember(y: int)
    ensures DaysBeforeMonth(y, 12) + 31 == DaysInYear(y)
  {
    assert DaysBeforeMonth(y, 2) == 31;
    assert DaysBeforeMonth(y, 3) == DaysInMonth(y, 2) + 31;
    assert DaysBeforeMonth(y, 4) == DaysInMonth(y, 2) + 62;
    assert DaysBeforeMonth(y, 5) == DaysInMonth(y, 2) + 92;
    assert DaysBeforeMonth(y, 6) == DaysInMonth(y, 2) + 123;
    assert DaysBeforeMonth(y, 7) == DaysInMonth(y, 2) + 153;
    assert DaysBeforeMonth(y, 8) == DaysInMonth(y, 2) + 184;
    assert DaysBeforeMonth(y, 9) == DaysInMonth(y, 2) + 215;
    assert DaysBeforeMonth(y, 10) == DaysInMonth(y, 2) + 245;
    assert DaysBeforeMonth(y, 11) == DaysInMonth(y, 2) + 276;
    assert DaysBeforeMonth(y, 12) == DaysInMonth(y, 2) + 306;
  }

  /** The following calendar day. */
  function NextDay(d: CivilDate): (n: CivilDate)
    ensures Ordinal(n) == Ordinal(d) + 1
  {
    if d.day < DaysInMonth(d.year, d.month) then Date(d.year, d.month, d.day + 1)
    else if d.month < 12 then Date(d.year, d.month + 1, 1)
    else
      DaysBeforeNextYear(d.year);
      DaysBeforeDecember(d.year);
      Date(d.year + 1, 1, 1)
  }

  /** The preceding calendar day. */
  function PrevDay(d: CivilDate): (p: CivilDate)
    ensures Ordinal(p) + 1 == Ordinal(d)
  {
    if d.day > 1 then Date(d.year, d.month, d.day - 1)
    else if d.month > 1 then Date(d.year, d.month - 1, DaysInMonth(d.year, d.month - 1))
    else
      DaysBeforeNextYear(d.year - 1);
      DaysBeforeDecember(d.year - 1);
      Date(d.year - 1, 12, 31)
  }

  /** `d + timedelta(days=k)`, one day at a time. */
  function AddDays(d: CivilDate, k: int): (r: CivilDate)
    ensures Ordinal(r) == Ordinal(d) + k
    decreases if k >= 0 then k else -k
  {
    if k == 0 then d
    else if k > 0 then AddDays(NextDay(d), k - 1)
    else AddDays(PrevDay(d), k + 1)
  }

  /** `t + timedelta(microseconds=delta)`; `delta` may be negative. */
  function AddMicros(t: Instant, delta: int): (r: Instant)
    ensures Micros(r) == Micros(t) + delta
  {
    var total := t.micros + delta;
    DateTime(AddDays(t.date, total / MicrosPerDay), total % MicrosPerDay)
  }

  function Days(n: int): int {
    n * MicrosPerDay
  }

  function Hours(n: int): int {
    n * 3600 * MicrosPerSecond
  }

  function Minutes(n: int): int {
    n * 60 * MicrosPerSecond
  }

  /** The `days` attribute of the timedelta `a - b`. */
  function DeltaDays(a: Instant, b: Instant): int {
    (Micros(a) - Micros(b)) / MicrosPerDay
  }

  /** The `seconds` attribute of the timedelta `a - b`, in [0, 86400). */
  function DeltaSeconds(a: Instant, b: Instant): (s: int)
    ensures 0 <= s < 86_400
  {
    ((Micros(a) - Micros(b)) % MicrosPerDay) / MicrosPerSecond
  }

  /** `t.replace(year=year, month=month)`, which raises ValueError when the day of `t`
      does not exist in the new month. */
  function ReplaceYearMonth(t: Instant, year: int, month: int): (r: Result<Instant, string>)
    requires 1 <= month <= 12
    ensures r.Ok? <==> t.date.day <= DaysInMonth(year, month)
    ensures r.Ok? ==> r.value.date == Date(year, month, t.date.day) && r.value.micros == t.micros
    ensures r.Err? ==> r.error == "day is out of range for month"
  {
    if t.date.day <= DaysInMonth(year, month) then
      var replaced: Instant := DateTime(Date(year, month, t.date.day), t.micros);
      Ok(replaced)
    else Err("day is out of range for month")
  }
}
