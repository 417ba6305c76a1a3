/**
 * Python datetimes as calendar fields: a proleptic Gregorian date (years 1 to 9999, the range
 * of Python's datetime type) and a microsecond of the day.  `Ordinal` numbers the days the way
 * Python's date.toordinal() does (1 January of year 1 is day 1) and `Instant` turns a wall-clock
 * datetime into one integer, so that timedelta arithmetic and comparisons become integer facts.
 */
module Calendar {
  import opened Wrappers

  const MinYear := 1
  const MaxYear := 9999
  const SecondMicros := 1_000_000
  const MinuteMicros := 60 * SecondMicros
  const HourMicros := 60 * MinuteMicros
  const DayMicros := 24 * HourMicros
  /** 23:59:59.999999 as a microsecond of the day. */
  const LastMicro := DayMicros - 1

  predicate IsLeap(y: int) {
    y % 4 == 0 && (y % 100 != 0 || y % 400 == 0)
  }

  function DaysInYear(y: int): int {
    if IsLeap(y) then 366 else 365
  }

  /** The length of month m of year y; only February depends on the year. */
  function DaysInMonth(y: int, m: int): (r: int)
    requires 1 <= m <= 12
    ensures 28 <= r <= 31
    ensures r == 29 <==> m == 2 && IsLeap(y)
  {
    if m == 2 then (if IsLeap(y) then 29 else 28)
    else if m == 4 || m == 6 || m == 9 || m == 11 then 30
    else 31
  }

  /** Days in the months of year y that come before month m. */
  function DaysBeforeMonth(y: int, m: int): int
    requires 1 <= m <= 12
  {
    var common :=
      if m == 1 then 0 else if m == 2 then 31 else if m == 3 then 59 else if m == 4 then 90
      else if m == 5 then 120 else if m == 6 then 151 else if m == 7 then 181 else if m == 8 then 212
      else if m == 9 then 243 else if m == 10 then 273 else if m == 11 then 304 else 334;
    common + (if m > 2 && IsLeap(y) then 1 else 0)
  }

  /** Days in the years before year y, counting from year 1 (Python's _days_before_year). */
  function DaysBeforeYear(y: int): (r: int)
    requires y >= MinYear
    ensures r >= 0
    ensures y > MinYear ==> r >= 365
  {
    var p := y - 1;
    p * 365 + p / 4 - p / 100 + p / 400
  }

  /** The closed form counts one year at a time: year y adds its own length. */
  lemma DaysBeforeNextYear(y: int)
    requires y >= MinYear
    ensures DaysBeforeYear(y + 1) == DaysBeforeYear(y) + DaysInYear(y)
  {
    StepBy4(y);
    StepBy100(y);
    StepBy400(y);
    DivisorChain(y);
  }

  /** A multiple of 400 is a multiple of 100, and a multiple of 100 is a multiple of 4. */
  lemma DivisorChain(y: int)
    ensures y % 400 == 0 ==> y % 100 == 0
    ensures y % 100 == 0 ==> y % 4 == 0
  {
    if y % 400 == 0 {
      MultipleOf100(y, 4 * (y / 400));
    }
    if y % 100 == 0 {
      MultipleOf4(y, 25 * (y / 100));
    }
  }

  lemma MultipleOf100(y: int, q: int)
    requires y == 100 * q
    ensures y % 100 == 0
  {
  }

  lemma MultipleOf4(y: int, q: int)
    requires y == 4 * q
    ensures y % 4 == 0
  {
  }

  /** Going from y - 1 to y raises y / 4 (and y / 100, y / 400) exactly when it divides y. */
  lemma StepBy4(y: int)
    ensures y / 4 - (y - 1) / 4 == (if y % 4 == 0 then 1 else 0)
  {
  }

  lemma StepBy100(y: int)
    ensures y / 100 - (y - 1) / 100 == (if y % 100 == 0 then 1 else 0)
  {
  }

  lemma StepBy400(y: int)
    ensures y / 400 - (y - 1) / 400 == (if y % 400 == 0 then 1 else 0)
  {
  }

  datatype Date = Date(year: int, month: int, day: int) {
    predicate Valid() {
      MinYear <= year <= MaxYear && 1 <= month <= 12 && 1 <= day <= DaysInMonth(year, month)
    }
  }

  /** Python's date.toordinal(). */
  function Ordinal(d: Date): int
    requires d.Valid()
  {
    DaysBeforeYear(d.year) + DaysBeforeMonth(d.year, d.month) + d.day
  }

  /** A wall-clock datetime: a date and the microseconds elapsed since its midnight. */
  datatype DateTime = DateTime(date: Date, micro: int) {
    predicate Valid() {
      date.Valid() && 0 <= micro < DayMicros
    }
  }

  function Instant(t: DateTime): int
    requires t.Valid()
  {
    Ordinal(t.date) * DayMicros + t.micro
  }

  /** Python's datetime.min and datetime.max. */
  const MinDate := Date(MinYear, 1, 1)
  const MaxDate := Date(MaxYear, 12, 31)
  const MinDateTime := DateTime(MinDate, 0)
  const MaxDateTime := DateTime(MaxDate, LastMicro)

  function Midnight(d: Date): DateTime {
    DateTime(d, 0)
  }

  function EndOfDay(d: Date): DateTime {
    DateTime(d, LastMicro)
  }

  /** Python's date - timedelta(days=1); None where Python raises OverflowError. */
  function PrevDay(d: Date): (r: Option<Date>)
    requires d.Valid()
    ensures r.Some? <==> d != MinDate
    ensures r.Some? ==> r.value.Valid() && Ordinal(r.value) == Ordinal(d) - 1
  {
    if d.day > 1 then Some(Date(d.year, d.month, d.day - 1))
    else if d.month > 1 then Some(Date(d.year, d.month - 1, DaysInMonth(d.year, d.month - 1)))
    else if d.year > MinYear then DaysBeforeNextYear(d.year - 1); Some(Date(d.year - 1, 12, 31))
    else None
  }

  /** Python's date + timedelta(days=1); None where Python raises OverflowError. */
  function NextDay(d: Date): (r: Option<Date>)
    requires d.Valid()
    ensures r.Some? <==> d != MaxDate
    ensures r.Some? ==> r.value.Valid() && Ordinal(r.value) == Ordinal(d) + 1
  {
    if d.day < DaysInMonth(d.year, d.month) then Some(Date(d.year, d.month, d.day + 1))
    else if d.month < 12 then Some(Date(d.year, d.month + 1, 1))
    else if d.year < MaxYear then DaysBeforeNextYear(d.year); Some(Date(d.year + 1, 1, 1))
    else None
  }

  /** date.max.toordinal(). */
  const MaxOrdinal := 3652059

  /** Every valid date lies between day 1 and the ordinal of datetime.max's date. */
  lemma OrdinalBounds(d: Date)
    requires d.Valid()
    ensures 1 <= Ordinal(d) <= MaxOrdinal
    ensures Ordinal(d) == 1 <==> d == MinDate
    ensures Ordinal(d) == MaxOrdinal <==> d == MaxDate
  {
    assert DaysBeforeMonth(d.year, d.month) + d.day <= DaysInYear(d.year);
    DaysBeforeNextYear(d.year);
    DaysBeforeYearMonotone(d.year + 1, MaxYear + 1);
    if d.year < MaxYear {
      DaysBeforeYearMonotone(d.year + 1, MaxYear);
    }
  }

  lemma {:induction false} DaysBeforeYearMonotone(y1: int, y2: int)
    requires MinYear <= y1 <= y2
    ensures DaysBeforeYear(y1) <= DaysBeforeYear(y2)
    decreases y2 - y1
  {
    if y1 < y2 {
      DaysBeforeYearMonotone(y1, y2 - 1);
      DaysBeforeNextYear(y2 - 1);
    }
  }

  /**
   * Python compares datetimes field by field (year, month, day, then time of day); comparing
   * instants gives the same answer, so the model states every ordering through Instant.
   */
  predicate FieldsLessOrEqual(a: DateTime, b: DateTime) {
    || a.date.year < b.date.year
    || (a.date.year == b.date.year && a.date.month < b.date.month)
    || (a.date.year == b.date.year && a.date.month == b.date.month && a.date.day < b.date.day)
    || (a.date == b.date && a.micro <= b.micro)
  }

  lemma InstantOrderIsFieldOrder(a: DateTime, b: DateTime)
    requires a.Valid() && b.Valid()
    ensures Instant(a) <= Instant(b) <==> FieldsLessOrEqual(a, b)
  {
    DateOrder(a.date, b.date);
    DateOrder(b.date, a.date);
  }

  /** A date that comes earlier field by field has a smaller ordinal. */
  lemma DateOrder(d1: Date, d2: Date)
    requires d1.Valid() && d2.Valid()
    ensures d1.year < d2.year || (d1.year == d2.year && (d1.month < d2.month || (d1.month == d2.month && d1.day < d2.day)))
            ==> Ordinal(d1) < Ordinal(d2)
  {
    if d1.year < d2.year {
      assert DaysBeforeMonth(d1.year, d1.month) + d1.day <= DaysInYear(d1.year);
      DaysBeforeNextYear(d1.year);
      DaysBeforeYearMonotone(d1.year + 1, d2.year);
    } else if d1.year == d2.year && d1.month < d2.month {
      assert DaysBeforeMonth(d1.year, d1.month) + DaysInMonth(d1.year, d1.month) <= DaysBeforeMonth(d2.year, d2.month);
    }
  }

  /** Instants order datetimes by day first and by time of day within a day. */
  lemma InstantCompare(a: DateTime, b: DateTime)
    requires a.Valid() && b.Valid()
    ensures Ordinal(a.date) < Ordinal(b.date) ==> Instant(a) < Instant(b)
    ensures Ordinal(a.date) == Ordinal(b.date) ==> (Instant(a) <= Instant(b) <==> a.micro <= b.micro)
  {
    var k := Ordinal(b.date) - Ordinal(a.date);
    assert Ordinal(b.date) * DayMicros == Ordinal(a.date) * DayMicros + k * DayMicros;
    if k >= 1 {
      assert k * DayMicros >= DayMicros;
    }
  }

  /** The instants of datetime.min and datetime.max. */
  const MinInstant := DayMicros
  const MaxInstant := MaxOrdinal * DayMicros + LastMicro

  /** An instant Python can represent as a datetime. */
  predicate Representable(i: int) {
    MinInstant <= i <= MaxInstant
  }

  lemma ValidIsRepresentable(t: DateTime)
    requires t.Valid()
    ensures Representable(Instant(t))
  {
    OrdinalBounds(t.date);
    InstantBounds(Ordinal(t.date), t.micro);
  }

  lemma InstantBounds(o: int, m: int)
    requires 1 <= o <= MaxOrdinal && 0 <= m < DayMicros
    ensures MinInstant <= o * DayMicros + m <= MaxInstant
  {
  }

  /**
   * Python's t - timedelta(days=n), computed one day at a time: the time of day is kept and the
   * day ordinal drops by n; None where Python raises OverflowError.
   */
  function MinusDays(t: DateTime, n: nat): (r: Option<DateTime>)
    requires t.Valid()
    ensures r.Some? <==> Ordinal(t.date) > n
    ensures r.Some? ==> r.value.Valid() && r.value.micro == t.micro && Ordinal(r.value.date) == Ordinal(t.date) - n
    decreases n
  {
    if n == 0 then Some(t)
    else
      OrdinalBounds(t.date);
      match PrevDay(t.date)
      case None => None
      case Some(p) => MinusDays(DateTime(p, t.micro), n - 1)
  }

  /** Moving to the next or the previous day at the same time of day moves the instant by one day. */
  lemma InstantOfNeighbourDay(t: DateTime, d: Date, days: int)
    requires t.Valid() && d.Valid() && Ordinal(d) == Ordinal(t.date) + days
    ensures Instant(DateTime(d, t.micro)) == Instant(t) + days * DayMicros
  {
  }

  lemma BeyondRange(t: DateTime, delta: int)
    requires t.Valid()
    requires (t.date == MaxDate && t.micro + delta >= DayMicros) || (t.date == MinDate && t.micro + delta < 0)
    ensures !Representable(Instant(t) + delta)
  {
    if t.date == MaxDate {
      assert t == DateTime(MaxDate, t.micro);
      InstantOnLastDay(t.micro);
    } else {
      assert t == DateTime(MinDate, t.micro);
      InstantOnFirstDay(t.micro);
    }
  }

  /** The instants of the first and the last representable day. */
  lemma InstantOnFirstDay(m: int)
    requires 0 <= m < DayMicros
    ensures Instant(DateTime(MinDate, m)) == DayMicros + m
  {
  }

  lemma InstantOnLastDay(m: int)
    requires 0 <= m < DayMicros
    ensures Instant(DateTime(MaxDate, m)) == MaxOrdinal * DayMicros + m
  {
    var o := Ordinal(MaxDate);
    assert o == MaxOrdinal by {
      ExtremeOrdinals();
    }
    assert Instant(DateTime(MaxDate, m)) == o * DayMicros + m;
  }

  /** The ordinals of datetime.min's and datetime.max's dates. */
  lemma ExtremeOrdinals()
    ensures MinDate.Valid() && Ordinal(MinDate) == 1
    ensures MaxDate.Valid() && Ordinal(MaxDate) == MaxOrdinal
  {
    assert DaysInMonth(MaxYear, 12) == 31;
    assert DaysBeforeYear(MaxYear) == 3651694;
    assert DaysBeforeMonth(MaxYear, 12) == 334;
  }

  /**
   * The wall-clock datetime delta microseconds after t (before it when delta is negative), carried
   * into the date one day at a time; None exactly when Python's datetime range is left.
   */
  function ShiftMicros(t: DateTime, delta: int): (r: Option<DateTime>)
    requires t.Valid()
    ensures r.Some? <==> Representable(Instant(t) + delta)
    ensures r.Some? ==> r.value.Valid() && Instant(r.value) == Instant(t) + delta
    decreases if t.micro + delta >= 0 then t.micro + delta else DayMicros - (t.micro + delta)
  {
    var m := t.micro + delta;
    if 0 <= m < DayMicros then
      var r := DateTime(t.date, m);
      ValidIsRepresentable(r);
      Some(r)
    else if m >= DayMicros then
      if t.date == MaxDate then BeyondRange(t, delta); None
      else
        var n := NextDay(t.date).value;
        InstantOfNeighbourDay(t, n, 1);
        ShiftMicros(DateTime(n, t.micro), delta - DayMicros)
    else
      if t.date == MinDate then BeyondRange(t, delta); None
      else
        var p := PrevDay(t.date).value;
        InstantOfNeighbourDay(t, p, -1);
        ShiftMicros(DateTime(p, t.micro), delta + DayMicros)
  }
}
