/** The store's fixed-width UTC timestamps: comparing the strings, as SQL does,
    compares the instants to the millisecond. */
module Timestamps {
  import opened Basics

  datatype Time = Time(year: nat, month: nat, day: nat, hour: nat, minute: nat, second: nat, nano: nat)

  predicate Leap(year: nat) {
    year % 4 == 0 && (year % 100 != 0 || year % 400 == 0)
  }

  function DaysIn(year: nat, month: nat): nat {
    if month == 2 then (if Leap(year) then 29 else 28)
    else if month in {4, 6, 9, 11} then 30
    else 31
  }

  /** A four-digit year and a real date and time of day. */
  predicate Valid(t: Time) {
    && t.year <= 9999 && 1 <= t.month <= 12 && 1 <= t.day <= DaysIn(t.year, t.month)
    && t.hour < 24 && t.minute < 60 && t.second < 60 && t.nano < 1_000_000_000
  }

  // ---- instants ----

  function DaysBeforeYear(year: nat): nat {
    if year == 0 then 0 else DaysBeforeYear(year - 1) + (if Leap(year - 1) then 366 else 365)
  }

  function DaysBeforeMonth(year: nat, month: nat): nat {
    if month <= 1 then 0 else DaysBeforeMonth(year, month - 1) + DaysIn(year, month - 1)
  }

  function DayNumber(t: Time): int {
    DaysBeforeYear(t.year) + DaysBeforeMonth(t.year, t.month) + t.day - 1
  }

  function MilliOfDay(t: Time): int {
    ((t.hour * 60 + t.minute) * 60 + t.second) * 1000 + t.nano / 1_000_000
  }

  const DAY_MILLIS: int := 86_400_000

  /** Milliseconds since the start of year 0, fractions dropped. */
  function Millis(t: Time): int {
    DayNumber(t) * DAY_MILLIS + MilliOfDay(t)
  }

  /** Nanoseconds since the start of year 0. */
  function Nanos(t: Time): int {
    Millis(t) * 1_000_000 + t.nano % 1_000_000
  }

  lemma MillisOfNanos(t: Time, u: Time)
    ensures Millis(t) < Millis(u) ==> Nanos(t) < Nanos(u)
    ensures Millis(t) <= Millis(u) <== Nanos(t) <= Nanos(u)
  {
  }

  // ---- strings ----

  function Pow10(w: nat): (p: nat)
    ensures p > 0
  {
    if w == 0 then 1 else 10 * Pow10(w - 1)
  }

  /** w decimal digits, zero padded. */
  function Pad(n: nat, w: nat): (s: string)
    requires n < Pow10(w)
    ensures |s| == w
  {
    if w == 0 then [] else Pad(n / 10, w - 1) + [DigitChar(n % 10)]
  }

  datatype Field = Field(value: nat, width: nat, after: char)

  predicate Fits(fs: seq<Field>) {
    forall k :: 0 <= k < |fs| ==> fs[k].value < Pow10(fs[k].width)
  }

  function Render(fs: seq<Field>): string
    requires Fits(fs)
  {
    if fs == [] then [] else Pad(fs[0].value, fs[0].width) + [fs[0].after] + Render(fs[1..])
  }

  lemma Widths()
    ensures Pow10(2) == 100 && Pow10(3) == 1000 && Pow10(4) == 10000
  {
    assert Pow10(2) == 100;
  }

  function Fields(t: Time): (fs: seq<Field>)
    requires Valid(t)
    ensures Fits(fs)
  {
    Widths();
    [Field(t.year, 4, '-'), Field(t.month, 2, '-'), Field(t.day, 2, 'T'), Field(t.hour, 2, ':'),
     Field(t.minute, 2, ':'), Field(t.second, 2, '.'), Field(t.nano / 1_000_000, 3, 'Z')]
  }

  /** tsFormat, "2006-01-02T15:04:05.000Z". */
  function Format(t: Time): string
    requires Valid(t)
  {
    Render(Fields(t))
  }

  // ---- string order is field order ----

  lemma {:induction false} LessConcat(p: string, q: string, x: string, y: string)
    requires |p| == |q|
    ensures Less(p + x, q + y) <==> Less(p, q) || (p == q && Less(x, y))
  {
    if p == [] {
      assert p + x == x && q + y == y;
    } else {
      assert (p + x)[1..] == p[1..] + x && (q + y)[1..] == q[1..] + y;
      LessConcat(p[1..], q[1..], x, y);
    }
  }

  lemma {:induction false} PadOrder(a: nat, b: nat, w: nat)
    requires a < Pow10(w) && b < Pow10(w)
    ensures Less(Pad(a, w), Pad(b, w)) <==> a < b
    ensures Pad(a, w) == Pad(b, w) <==> a == b
  {
    if w == 0 {
    } else {
      PadOrder(a / 10, b / 10, w - 1);
      var x, y := [DigitChar(a % 10)], [DigitChar(b % 10)];
      LessConcat(Pad(a / 10, w - 1), Pad(b / 10, w - 1), x, y);
      assert Less(x, y) <==> a % 10 < b % 10;
      assert Pad(a, w)[..w - 1] == Pad(a / 10, w - 1) && Pad(b, w)[..w - 1] == Pad(b / 10, w - 1);
      assert Pad(a, w)[w - 1] == x[0] && Pad(b, w)[w - 1] == y[0];
    }
  }

  predicate SameLayout(fs: seq<Field>, gs: seq<Field>) {
    |fs| == |gs| && forall k :: 0 <= k < |fs| ==> fs[k].width == gs[k].width && fs[k].after == gs[k].after
  }

  predicate FieldsLess(fs: seq<Field>, gs: seq<Field>)
    requires |fs| == |gs|
  {
    fs != [] && (fs[0].value < gs[0].value || (fs[0].value == gs[0].value && FieldsLess(fs[1..], gs[1..])))
  }

  lemma {:induction false} RenderOrder(fs: seq<Field>, gs: seq<Field>)
    requires Fits(fs) && Fits(gs) && SameLayout(fs, gs)
    ensures Less(Render(fs), Render(gs)) <==> FieldsLess(fs, gs)
  {
    if fs == [] {
    } else {
      var a, b, w := fs[0].value, gs[0].value, fs[0].width;
      var sep := [fs[0].after];
      PadOrder(a, b, w);
      RenderOrder(fs[1..], gs[1..]);
      LessConcat(Pad(a, w) + sep, Pad(b, w) + sep, Render(fs[1..]), Render(gs[1..]));
      LessConcat(Pad(a, w), Pad(b, w), sep, sep);
      if Pad(a, w) + sep == Pad(b, w) + sep {
        assert (Pad(a, w) + sep)[..w] == (Pad(b, w) + sep)[..w];
      }
    }
  }

  // ---- field order is instant order ----

  lemma {:induction false} YearsGrow(y: nat, z: nat)
    requires y < z
    ensures DaysBeforeYear(y) + (if Leap(y) then 366 else 365) <= DaysBeforeYear(z)
  {
    if y < z - 1 {
      YearsGrow(y, z - 1);
    }
  }

  lemma {:induction false} MonthsGrow(year: nat, m: nat, n: nat)
    requires 1 <= m < n
    ensures DaysBeforeMonth(year, m) + DaysIn(year, m) <= DaysBeforeMonth(year, n)
  {
    if m < n - 1 {
      MonthsGrow(year, m, n - 1);
    }
  }

  lemma YearIsFull(year: nat)
    ensures DaysBeforeMonth(year, 13) == if Leap(year) then 366 else 365
  {
    var feb := DaysIn(year, 2);
    assert DaysBeforeMonth(year, 2) == 31;
    assert DaysBeforeMonth(year, 3) == 31 + feb;
    assert DaysBeforeMonth(year, 4) == 62 + feb;
    assert DaysBeforeMonth(year, 5) == 92 + feb;
    assert DaysBeforeMonth(year, 6) == 123 + feb;
    assert DaysBeforeMonth(year, 7) == 153 + feb;
    assert DaysBeforeMonth(year, 8) == 184 + feb;
    assert DaysBeforeMonth(year, 9) == 215 + feb;
    assert DaysBeforeMonth(year, 10) == 245 + feb;
    assert DaysBeforeMonth(year, 11) == 276 + feb;
    assert DaysBeforeMonth(year, 12) == 306 + feb;
  }

  lemma DayInYear(t: Time)
    requires Valid(t)
    ensures DaysBeforeYear(t.year) <= DayNumber(t) < DaysBeforeYear(t.year) + (if Leap(t.year) then 366 else 365)
  {
    MonthsGrow(t.year, t.month, 13);
    YearIsFull(t.year);
  }

  predicate DateBefore(t: Time, u: Time) {
    t.year < u.year || (t.year == u.year && (t.month < u.month || (t.month == u.month && t.day < u.day)))
  }

  lemma DatesGrow(t: Time, u: Time)
    requires Valid(t) && Valid(u) && DateBefore(t, u)
    ensures DayNumber(t) < DayNumber(u)
  {
    if t.year < u.year {
      DayInYear(t);
      DayInYear(u);
      YearsGrow(t.year, u.year);
    } else if t.month < u.month {
      MonthsGrow(t.year, t.month, u.month);
    }
  }

  lemma DayOrder(t: Time, u: Time)
    requires Valid(t) && Valid(u)
    ensures DateBefore(t, u) <==> DayNumber(t) < DayNumber(u)
    ensures t.year == u.year && t.month == u.month && t.day == u.day <==> DayNumber(t) == DayNumber(u)
  {
    if DateBefore(t, u) {
      DatesGrow(t, u);
    } else if DateBefore(u, t) {
      DatesGrow(u, t);
    }
  }

  predicate ClockBefore(t: Time, u: Time) {
    t.hour < u.hour || (t.hour == u.hour && (t.minute < u.minute || (t.minute == u.minute
      && (t.second < u.second || (t.second == u.second && t.nano / 1_000_000 < u.nano / 1_000_000)))))
  }

  lemma ClockOrder(t: Time, u: Time)
    requires Valid(t) && Valid(u)
    ensures ClockBefore(t, u) <==> MilliOfDay(t) < MilliOfDay(u)
    ensures 0 <= MilliOfDay(t) < DAY_MILLIS
  {
  }

  lemma MillisOrder(t: Time, u: Time)
    requires Valid(t) && Valid(u)
    ensures Millis(t) < Millis(u)
      <==> DayNumber(t) < DayNumber(u) || (DayNumber(t) == DayNumber(u) && MilliOfDay(t) < MilliOfDay(u))
  {
    ClockOrder(t, u);
    ClockOrder(u, t);
  }

  lemma FieldsOrder(t: Time, u: Time)
    requires Valid(t) && Valid(u)
    ensures FieldsLess(Fields(t), Fields(u))
      <==> DateBefore(t, u) || (t.year == u.year && t.month == u.month && t.day == u.day && ClockBefore(t, u))
  {
    var fs, gs := Fields(t), Fields(u);
    FieldsLessAt(fs, gs, 6);
    FieldsLessAt(fs, gs, 5);
    FieldsLessAt(fs, gs, 4);
    FieldsLessAt(fs, gs, 3);
    FieldsLessAt(fs, gs, 2);
    FieldsLessAt(fs, gs, 1);
    FieldsLessAt(fs, gs, 0);
    assert fs[0..] == fs && gs[0..] == gs;
    assert fs[7..] == [];
  }

  lemma FieldsLessAt(fs: seq<Field>, gs: seq<Field>, k: nat)
    requires |fs| == |gs| && k < |fs|
    ensures FieldsLess(fs[k..], gs[k..])
      <==> fs[k].value < gs[k].value || (fs[k].value == gs[k].value && FieldsLess(fs[k + 1..], gs[k + 1..]))
  {
    assert fs[k..][1..] == fs[k + 1..] && gs[k..][1..] == gs[k + 1..];
  }

  /** Comparing stored timestamps as text compares their instants to the millisecond. */
  lemma TextOrderIsTimeOrder(t: Time, u: Time)
    requires Valid(t) && Valid(u)
    ensures Less(Format(t), Format(u)) <==> Millis(t) < Millis(u)
  {
    RenderOrder(Fields(t), Fields(u));
    FieldsOrder(t, u);
    DayOrder(t, u);
    ClockOrder(t, u);
    MillisOrder(t, u);
  }

  // ---- the instant a retention ago ----

  /** The year a day falls in, looking from y on. */
  function YearOf(day: nat, y: nat): (r: nat)
    requires DaysBeforeYear(y) <= day
    ensures DaysBeforeYear(r) <= day < DaysBeforeYear(r + 1)
    decreases day - DaysBeforeYear(y)
  {
    if day < DaysBeforeYear(y + 1) then y else YearOf(day, y + 1)
  }

  /** The month a day of the year falls in, looking from m on. */
  function MonthOf(year: nat, day: nat, m: nat): (r: nat)
    requires 1 <= m <= 12 && DaysBeforeMonth(year, m) <= day < DaysBeforeMonth(year, 13)
    ensures 1 <= r <= 12 && DaysBeforeMonth(year, r) <= day < DaysBeforeMonth(year, r + 1)
    decreases 12 - m
  {
    if day < DaysBeforeMonth(year, m + 1) then m else MonthOf(year, day, m + 1)
  }

  const MILLI_NANOS: int := 1_000_000

  /** The time of day, on a date still to be set. */
  function ClockAt(milli: nat, rest: nat): (t: Time)
    requires milli < DAY_MILLIS && rest < MILLI_NANOS
    ensures t.hour < 24 && t.minute < 60 && t.second < 60 && t.nano < 1_000_000_000
    ensures MilliOfDay(t) == milli && t.nano % MILLI_NANOS == rest
  {
    var seconds := milli / 1000;
    var minutes := seconds / 60;
    Time(0, 1, 1, minutes / 60, minutes % 60, seconds % 60, milli % 1000 * MILLI_NANOS + rest)
  }

  /** The date of a day, at midnight. */
  function DateAt(day: nat): (t: Time)
    requires YearOf(day, 0) <= 9999
    ensures Valid(t) && DayNumber(t) == day
  {
    var year := YearOf(day, 0);
    YearIsFull(year);
    var inYear := day - DaysBeforeYear(year);
    var month := MonthOf(year, inYear, 1);
    Time(year, month, inYear - DaysBeforeMonth(year, month) + 1, 0, 0, 0, 0)
  }

  /** The instant lies in the years the text can write. */
  predicate Writable(nanos: int) {
    nanos >= 0 && YearOf(nanos / MILLI_NANOS / DAY_MILLIS, 0) <= 9999
  }

  function At(nanos: int): (t: Time)
    requires Writable(nanos)
    ensures Valid(t) && Nanos(t) == nanos
  {
    var millis := nanos / MILLI_NANOS;
    var date, clock := DateAt(millis / DAY_MILLIS), ClockAt(millis % DAY_MILLIS, nanos % MILLI_NANOS);
    date.(hour := clock.hour, minute := clock.minute, second := clock.second, nano := clock.nano)
  }

  /** Time.Add of a negative Duration. */
  function Ago(now: Time, retention: int): (t: Time)
    requires Writable(Nanos(now) - retention)
    ensures Valid(t) && Nanos(t) == Nanos(now) - retention
  {
    At(Nanos(now) - retention)
  }
}
