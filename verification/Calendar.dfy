/** Calendar arithmetic: Gregorian dates, Julian day numbers, weekdays and time differences. */
module Calendar {

  // ---- the Gregorian calendar ----

  predicate Leap(y: int) { y % 4 == 0 && (y % 100 != 0 || y % 400 == 0) }

  function MonthDays(y: int, m: int): int
    requires 1 <= m <= 12
  {
    if m == 2 then (if Leap(y) then 29 else 28)
    else if m == 4 || m == 6 || m == 9 || m == 11 then 30 else 31
  }

  datatype Date = Date(y: int, m: int, d: int)

  predicate Valid(t: Date) { t.y >= 1 && 1 <= t.m <= 12 && 1 <= t.d <= MonthDays(t.y, t.m) }

  function NextDay(t: Date): (r: Date)
    requires Valid(t)
    ensures Valid(r)
  {
    if t.d < MonthDays(t.y, t.m) then Date(t.y, t.m, t.d + 1)
    else if t.m < 12 then Date(t.y, t.m + 1, 1)
    else Date(t.y + 1, 1, 1)
  }

  // ---- the conversions, on whole days ----

  function DayNumber(y: int, m: int, d: int): int {
    var a := (14 - m) / 12;
    var y' := y + 4800 - a;
    var m' := m + 12 * a - 3;
    d + (153 * m' + 2) / 5 + 365 * y' + y' / 4 - y' / 100 + y' / 400 - 32045
  }

  function CenturyOf(j: int): int { (4 * j - 1) / 146097 }

  function DayOfCentury(j: int, c: int): int { (4 * j - 1 - 146097 * c) / 4 }

  function YearOf(d: int): int { (4 * d + 3) / 1461 }

  function DayOfYearOf(d: int, k: int): int { (4 * d + 3 - 1461 * k + 4) / 4 }

  function MonthOf(n: int): int { (5 * n - 3) / 153 }

  function DayOfMonth(n: int, m: int): int { (5 * n - 3 - 153 * m + 5) / 5 }

  function DateOf(jd: int): Date {
    var j := jd - 1721119;
    var c := CenturyOf(j);
    var d := DayOfCentury(j, c);
    var k := YearOf(d);
    var n := DayOfYearOf(d, k);
    var m := MonthOf(n);
    var day := DayOfMonth(n, m);
    if m < 10 then Date(100 * c + k, m + 3, day) else Date(100 * c + k + 1, m - 9, day)
  }

  const WEEKDAY := [6, 7, 1, 2, 3, 4, 5]

  /** Zeller's rule and the weekday table. */
  function Weekday(t: Date): int {
    var mon := if t.m > 2 then t.m else 12 + t.m;
    var year := if t.m > 2 then t.y else t.y - 1;
    var y, c := year % 100, year / 100;
    WEEKDAY[(t.d + 13 * (mon + 1) / 5 + y + y / 4 + c / 4 + 5 * c) % 7]
  }

  // ---- a year that starts in March ----

  /** A date by century, year of the century, month from March and day of the month. */
  datatype March = March(c: int, k: int, m: int, d: int)

  function ToMarch(t: Date): March {
    var year := if t.m > 2 then t.y else t.y - 1;
    March(year / 100, year % 100, if t.m > 2 then t.m - 3 else t.m + 9, t.d)
  }

  /** Days before month m of a year that starts in March. */
  function Before(m: int): int { (153 * m + 2) / 5 }

  function DayOfYear(s: March): int { s.d + Before(s.m) }

  lemma YearParts(y: int, c: int, k: int)
    requires y == 100 * c + k && 0 <= k < 100
    ensures y / 100 == c && y % 100 == k && y % 4 == k % 4 && (y % 400 == 0) == (k == 0 && c % 4 == 0)
  {
    assert y == 100 * (y / 100) + y % 100;
    assert y == 4 * (25 * c + k / 4) + k % 4;
    assert y == 400 * (c / 4) + (100 * (c % 4) + k);
  }

  lemma LeapByParts(y: int, c: int, k: int)
    requires y == 100 * c + k && 0 <= k < 100
    ensures Leap(y) == (k % 4 == 0 && (k != 0 || c % 4 == 0))
  {
    YearParts(y, c, k);
  }

  lemma LeapFebruary(t: Date)
    requires Valid(t) && t.m == 2 && t.d == 29
    ensures var s := ToMarch(t); s.k % 4 == 3 && (s.k == 99 ==> s.c % 4 == 3)
  {
    var s := ToMarch(t);
    if s.k == 99 { LeapByParts(t.y, s.c + 1, 0); } else { LeapByParts(t.y, s.c, s.k + 1); }
  }

  lemma MarchBounds(t: Date)
    requires Valid(t)
    ensures var s := ToMarch(t); var n := DayOfYear(s);
            && s.c >= 0 && 0 <= s.k < 100 && 0 <= s.m <= 11 && 1 <= n <= 366
            && (n == 366 ==> s.k % 4 == 3 && (s.k == 99 ==> s.c % 4 == 3))
            && Before(s.m) < n <= Before(s.m) + 31
            && (s.m < 11 ==> n <= Before(s.m + 1))
  {
    if t.m == 2 && t.d == 29 { LeapFebruary(t); }
    assert Before(0) == 0 && Before(1) == 31 && Before(2) == 61 && Before(3) == 92 && Before(4) == 122;
    assert Before(5) == 153 && Before(6) == 184 && Before(7) == 214 && Before(8) == 245 && Before(9) == 275;
    assert Before(10) == 306 && Before(11) == 337;
  }

  /** The day number, counted from the centuries down. */
  function CenturyDays(c: int): int { 36524 * c + c / 4 }

  function YearDays(k: int): int { 365 * k + k / 4 }

  lemma LeapCount(year: int)
    requires year >= 0
    ensures var c, k := year / 100, year % 100;
            year / 4 == 25 * c + k / 4 && year / 400 == c / 4
  {
    var c, k := year / 100, year % 100;
    assert year == 100 * c + k;
  }

  function Number(s: March): int { 1721119 + CenturyDays(s.c) + YearDays(s.k) + DayOfYear(s) }

  lemma YearsShifted(year: int)
    requires year >= 0
    ensures var c, k, y := year / 100, year % 100, year + 4800;
            y == 4800 + 100 * c + k && y / 4 == 1200 + 25 * c + k / 4 && y / 100 == 48 + c && y / 400 == 12 + c / 4
  {
    LeapCount(year);
  }

  lemma MonthShifted(m: int)
    requires 1 <= m <= 12
    ensures (14 - m) / 12 == if m > 2 then 0 else 1
  {
  }

  lemma DayNumberByCentury(t: Date)
    requires Valid(t)
    ensures DayNumber(t.y, t.m, t.d) == Number(ToMarch(t))
  {
    MonthShifted(t.m);
    YearsShifted(if t.m > 2 then t.y else t.y - 1);
  }

  // ---- the round trip ----

  lemma CenturyFound(c: int, n: int)
    requires 1 <= n <= 36525 && (n == 36525 ==> c % 4 == 3)
    ensures var j := CenturyDays(c) + n;
            CenturyOf(j) == c && DayOfCentury(j, c) == n - 1
  {
    var j := CenturyDays(c) + n;
    assert 4 * (c / 4) == c - c % 4;
    assert 4 * j - 1 == 146097 * c + (4 * n - 1 - c % 4);
    assert 0 <= 4 * n - 1 - c % 4 < 146097;
  }

  lemma YearFound(k: int, n: int)
    requires 1 <= n <= 366 && (n == 366 ==> k % 4 == 3)
    ensures var d := YearDays(k) + n - 1;
            YearOf(d) == k && DayOfYearOf(d, k) == n
  {
    var d := YearDays(k) + n - 1;
    assert 4 * (k / 4) == k - k % 4;
    assert 4 * d + 3 == 1461 * k + (4 * n - 1 - k % 4);
    assert 0 <= 4 * n - 1 - k % 4 < 1461;
  }

  lemma MonthFound(m: int, d: int)
    requires 0 <= m <= 11 && 1 <= d && d + Before(m) <= 366 && (m < 11 ==> d + Before(m) <= Before(m + 1))
    ensures var n := d + Before(m);
            MonthOf(n) == m && DayOfMonth(n, m) == d
  {
    var n := d + Before(m);
    assert 5 * Before(m) <= 153 * m + 2 < 5 * Before(m) + 5;
    assert 5 * Before(m + 1) <= 153 * (m + 1) + 2;
    assert 153 * m <= 5 * n - 3 < 153 * (m + 1);
  }

  lemma YearDaysBound(k: int, n: int)
    requires 0 <= k < 100 && 1 <= n <= 366 && (n == 366 ==> k % 4 == 3)
    ensures 1 <= YearDays(k) + n <= 36525 && (YearDays(k) + n == 36525 ==> k == 99 && n == 366)
  {
  }

  function FromMarch(s: March): Date {
    var year := 100 * s.c + s.k;
    if s.m < 10 then Date(year, s.m + 3, s.d) else Date(year + 1, s.m - 9, s.d)
  }

  lemma MarchRoundTrip(t: Date)
    requires Valid(t)
    ensures FromMarch(ToMarch(t)) == t
  {
    var year := if t.m > 2 then t.y else t.y - 1;
    assert year == 100 * (year / 100) + year % 100;
  }

  /** The parts that the conversion computes, put together. */
  lemma Assembled(s: March, j: int, d: int, n: int)
    requires Number(s) == j + 1721119 && CenturyOf(j) == s.c && DayOfCentury(j, s.c) == d
    requires YearOf(d) == s.k && DayOfYearOf(d, s.k) == n && MonthOf(n) == s.m && DayOfMonth(n, s.m) == s.d
    ensures DateOf(Number(s)) == FromMarch(s)
  {
    hide CenturyOf, DayOfCentury, YearOf, DayOfYearOf, MonthOf, DayOfMonth, Number;
  }

  lemma NumberParts(s: March)
    ensures Number(s) == CenturyDays(s.c) + (YearDays(s.k) + DayOfYear(s)) + 1721119 && DayOfYear(s) == s.d + Before(s.m)
  {
  }

  /** Converting a date to its day number and back gives the date. */
  lemma DateRoundTrip(t: Date)
    requires Valid(t)
    ensures DateOf(DayNumber(t.y, t.m, t.d)) == t
  {
    var s := ToMarch(t);
    MarchBounds(t);
    NumberParts(s);
    assert 1 <= s.d;
    hide *;
    var n := DayOfYear(s);
    DayNumberByCentury(t);
    MarchRoundTrip(t);
    YearDaysBound(s.k, n);
    CenturyFound(s.c, YearDays(s.k) + n);
    YearFound(s.k, n);
    MonthFound(s.m, s.d);
    Assembled(s, CenturyDays(s.c) + (YearDays(s.k) + n), YearDays(s.k) + n - 1, n);
  }

  // ---- consecutive days ----

  lemma MonthSteps(t: Date)
    requires Valid(t) && t.d == MonthDays(t.y, t.m) && t.m < 12 && t.m != 2
    ensures ToMarch(NextDay(t)) == ToMarch(t).(m := ToMarch(t).m + 1, d := 1)
    ensures Before(ToMarch(t).m + 1) == Before(ToMarch(t).m) + t.d
  {
  }

  lemma AfterFebruary(t: Date)
    requires Valid(t) && t.m == 2 && t.d == MonthDays(t.y, 2)
    ensures Number(ToMarch(NextDay(t))) == 1721119 + CenturyDays(t.y / 100) + YearDays(t.y % 100) + 1
  {
    assert Before(0) == 0;
  }

  lemma LastOfFebruary(t: Date, c: int, k: int)
    requires Valid(t) && t.m == 2 && t.y == 100 * c + k + 1 && 0 <= k < 100
    ensures Number(ToMarch(t)) == 1721119 + CenturyDays(c) + YearDays(k) + t.d + 337
  {
    YearParts(t.y - 1, c, k);
    assert Before(11) == 337;
  }

  /** The year after year k of century c, and how many days later it begins. */
  lemma YearEnds(c: int, k: int)
    requires 0 <= k < 100
    ensures var c', k' := if k == 99 then c + 1 else c, if k == 99 then 0 else k + 1;
            CenturyDays(c') + YearDays(k') == CenturyDays(c) + YearDays(k) + if LongYear(c, k) then 366 else 365
  {
  }

  /** Whether the February that ends it has 29 days. */
  predicate LongYear(c: int, k: int) { k % 4 == 3 && (k == 99 ==> c % 4 == 3) }

  lemma February(y: int, c: int, k: int)
    requires y == 100 * c + k + 1 && 0 <= k < 100
    ensures y / 100 == (if k == 99 then c + 1 else c) && y % 100 == (if k == 99 then 0 else k + 1)
    ensures MonthDays(y, 2) == if LongYear(c, k) then 29 else 28
  {
    if k == 99 {
      YearParts(y, c + 1, 0);
      LeapByParts(y, c + 1, 0);
    } else {
      YearParts(y, c, k + 1);
      LeapByParts(y, c, k + 1);
    }
  }

  lemma NextMarch(t: Date)
    requires Valid(t)
    ensures Number(ToMarch(NextDay(t))) == Number(ToMarch(t)) + 1
  {
    if t.d == MonthDays(t.y, t.m) {
      if t.m == 2 {
        hide *;
        var c, k := (t.y - 1) / 100, (t.y - 1) % 100;
        assert t.y == 100 * c + k + 1;
        AfterFebruary(t);
        LastOfFebruary(t, c, k);
        YearEnds(c, k);
        February(t.y, c, k);
      } else if t.m < 12 {
        MonthSteps(t);
      } else {
        assert Before(9) == 275 && Before(10) == 306;
      }
    }
  }

  /** The next civil date has the next day number, over month ends, leap days and centuries. */
  lemma NextDayNextNumber(t: Date)
    requires Valid(t)
    ensures var n := NextDay(t); DayNumber(n.y, n.m, n.d) == DayNumber(t.y, t.m, t.d) + 1
  {
    DayNumberByCentury(t);
    DayNumberByCentury(NextDay(t));
    NextMarch(t);
  }

  const FIRST := 1721426   // 1 January of year 1

  lemma {:induction false} DateExists(jd: int) returns (t: Date)
    requires jd >= FIRST
    ensures Valid(t) && DayNumber(t.y, t.m, t.d) == jd
    decreases jd
  {
    if jd == FIRST {
      t := Date(1, 1, 1);
    } else {
      var p := DateExists(jd - 1);
      NextDayNextNumber(p);
      t := NextDay(p);
    }
  }

  /** So every day number from year 1 on is that of exactly one date, the one it converts to. */
  lemma NumberRoundTrip(jd: int)
    requires jd >= FIRST
    ensures Valid(DateOf(jd)) && DayNumber(DateOf(jd).y, DateOf(jd).m, DateOf(jd).d) == jd
  {
    var t := DateExists(jd);
    DateRoundTrip(t);
  }

  // ---- weekdays ----

  lemma ZellerMonth(m: int)
    requires 0 <= m <= 11
    ensures 13 * (m + 4) / 5 + 28 * m == Before(m) + 10
  {
  }

  function Zeller(s: March): int { s.d + 13 * (s.m + 4) / 5 + s.k + s.k / 4 + s.c / 4 + 5 * s.c }

  lemma ZellerNumber(s: March)
    requires 0 <= s.m <= 11
    ensures Zeller(s) == Number(s) + 2 - 7 * (245873 + 5217 * s.c + 52 * s.k + 4 * s.m)
  {
    ZellerMonth(s.m);
  }

  lemma ModSeven(z: int, j: int, q: int)
    requires z == j + 2 - 7 * q
    ensures z % 7 == (j + 2) % 7
  {
  }

  /** The weekday is the day number modulo seven, Monday being 1. */
  lemma WeekdayAgrees(t: Date)
    requires Valid(t)
    ensures Weekday(t) == DayNumber(t.y, t.m, t.d) % 7 + 1
  {
    var s := ToMarch(t);
    DayNumberByCentury(t);
    ZellerNumber(s);
    ModSeven(Zeller(s), Number(s), 245873 + 5217 * s.c + 52 * s.k + 4 * s.m);
    WeekdayByZeller(t);
    TableLookup(Number(s));
  }

  lemma WeekdayByZeller(t: Date)
    requires Valid(t)
    ensures Weekday(t) == WEEKDAY[Zeller(ToMarch(t)) % 7]
  {
  }

  lemma TableLookup(j: int)
    ensures WEEKDAY[(j + 2) % 7] == j % 7 + 1
  {
  }

  // ---- with the time of day, on exact reals ----

  datatype Moment = Moment(date: Date, h: int, n: int, s: real)

  function ToJulian(t: Moment): real {
    DayNumber(t.date.y, t.date.m, t.date.d) as real +
    ((t.h as real - 12.0) / 24.0 + t.n as real / 1440.0 + t.s / 86400.0)
  }

  function FromJulian(jd: real): Moment {
    var j := (jd + 0.5).Floor;
    var f := (jd + 0.5 - j as real) * 24.0;
    var h := f.Floor;
    var g := (f - h as real) * 60.0;
    var n := g.Floor;
    Moment(DateOf(j), h, n, (g - n as real) * 60.0)
  }

  /** Date and time of day survive the conversion to a Julian date and back. */
  lemma MomentRoundTrip(t: Moment)
    requires Valid(t.date) && 0 <= t.h < 24 && 0 <= t.n < 60 && 0.0 <= t.s < 60.0
    ensures FromJulian(ToJulian(t)) == t
  {
    var day := DayNumber(t.date.y, t.date.m, t.date.d);
    var f := t.h as real / 24.0 + t.n as real / 1440.0 + t.s / 86400.0;
    assert ToJulian(t) + 0.5 == day as real + f;
    assert 0.0 <= f < 1.0;
    assert (day as real + f).Floor == day;
    assert f * 24.0 == t.h as real + (t.n as real / 60.0 + t.s / 3600.0);
    assert (f * 24.0).Floor == t.h;
    assert (t.n as real / 60.0 + t.s / 3600.0) * 60.0 == t.n as real + t.s / 60.0;
    assert (t.n as real + t.s / 60.0).Floor == t.n;
    DateRoundTrip(t.date);
  }

  /** The count is that of astronomers: 1 January 2000, and the day on which Unix time begins. */
  lemma KnownDays()
    ensures DayNumber(2000, 1, 1) == 2451545 && DayNumber(1970, 1, 1) == 2440588
    ensures DateOf(2451545) == Date(2000, 1, 1) && DateOf(2440588) == Date(1970, 1, 1)
  {
    hide DayNumber, DateOf;
    DateRoundTrip(Date(2000, 1, 1));
    DateRoundTrip(Date(1970, 1, 1));
    KnownNumbers();
  }

  lemma KnownNumbers()
    ensures DayNumber(2000, 1, 1) == 2451545 && DayNumber(1970, 1, 1) == 2440588
  {
    assert 6799 / 4 == 1699 && 6799 / 100 == 67 && 6799 / 400 == 16;
    assert 6769 / 4 == 1692 && 6769 / 100 == 67 && 6769 / 400 == 16;
  }

  /** Noon is where a Julian date is whole. */
  lemma NoonIsWhole(t: Moment)
    requires t.h == 12 && t.n == 0 && t.s == 0.0
    ensures ToJulian(t) == DayNumber(t.date.y, t.date.m, t.date.d) as real
  {
    hide DayNumber;
  }

  // ---- differences between instants ----

  function DiffDay(q1: nat, q2: nat, tzSeconds: int): int {
    (q2 + tzSeconds) / 86400 - (q1 + tzSeconds) / 86400
  }

  function DiffHour(q1: nat, q2: nat): int { q2 / 3600 - q1 / 3600 }

  function DiffMin(q1: nat, q2: nat): int { q2 / 60 - q1 / 60 }

  /** Local minutes decide every difference the fee engine takes, for a time zone of whole minutes. */
  lemma MinutesSuffice(q1: nat, q2: nat, tz: int)
    ensures var l1, l2 := (q1 + 60 * tz) / 60, (q2 + 60 * tz) / 60;
            && DiffMin(q1, q2) == l2 - l1
            && DiffDay(q1, q2, 60 * tz) == l2 / 1440 - l1 / 1440
            && DiffHour(q1, q2) == (l2 - tz) / 60 - (l1 - tz) / 60
  {
    MinuteOf(q1, tz);
    MinuteOf(q2, tz);
  }

  lemma MinuteOf(q: nat, tz: int)
    ensures var l := (q + 60 * tz) / 60;
            q / 60 == l - tz && (q + 60 * tz) / 86400 == l / 1440 && q / 3600 == (l - tz) / 60
  {
    var u := q + 60 * tz;
    assert u / 60 == q / 60 + tz;
    assert u == 60 * (u / 60) + u % 60;
    assert q == 60 * (q / 60) + q % 60;
  }
}
