/** Unix seconds as RFC 3339 dates, against the proleptic Gregorian calendar itself. */
module Civil {
  import opened Common

  datatype Date = Date(year: nat, month: nat, day: nat)

  // ---- the calendar ----

  predicate IsLeap(y: nat) { y % 4 == 0 && (y % 100 != 0 || y % 400 == 0) }

  function MonthLength(y: nat, m: nat): nat {
    if m == 2 then (if IsLeap(y) then 29 else 28)
    else if m == 4 || m == 6 || m == 9 || m == 11 then 30
    else 31
  }

  predicate IsDate(d: Date) { 1 <= d.month <= 12 && 1 <= d.day <= MonthLength(d.year, d.month) }

  function Successor(d: Date): Date {
    if d.day < MonthLength(d.year, d.month) then d.(day := d.day + 1)
    else if d.month < 12 then Date(d.year, d.month + 1, 1)
    else Date(d.year + 1, 1, 1)
  }

  const EPOCH := Date(1970, 1, 1)

  /** The date `n` days after the epoch, counted one day at a time. */
  function DaysAfterEpoch(n: nat): Date { if n == 0 then EPOCH else Successor(DaysAfterEpoch(n - 1)) }

  // ---- the conversion ----

  function YearOfEra(doe: nat): nat
    requires doe <= 146_096
  {
    (doe - doe / 1_460 + doe / 36_524 - doe / 146_096) / 365
  }

  function DayOfYear(doe: nat): int
    requires doe <= 146_096
  {
    var yoe := YearOfEra(doe);
    doe - (365 * yoe + yoe / 4 - yoe / 100)
  }

  /** The date of the `doy`-th day of the year that begins in March of `y`. */
  function FromMarch(y: nat, doy: nat): Date
    requires doy <= 365
  {
    var mp := (5 * doy + 2) / 153;
    var d := doy - (153 * mp + 2) / 5 + 1;
    var m := if mp < 10 then mp + 3 else mp - 9;
    Date(if m <= 2 then y + 1 else y, m, d)
  }

  function CivilFromDays(days: nat): Date {
    var z := days + 719_468;
    var era := z / 146_097;
    var doe := z - era * 146_097;
    DayOfYearBounds(doe);
    FromMarch(YearOfEra(doe) + era * 400, DayOfYear(doe))
  }

  // ---- years counted from March ----

  /** The days before the year that begins in March of `y`. */
  function YearStart(y: nat): nat { 365 * y + y / 4 - y / 100 + y / 400 }

  lemma YearLength(y: nat)
    ensures YearStart(y + 1) == YearStart(y) + 365 + if IsLeap(y + 1) then 1 else 0
  {
    Fourths(y);
    Hundredths(y);
    FourHundredths(y);
  }

  lemma Fourths(y: nat)
    ensures (y + 1) / 4 == y / 4 + if (y + 1) % 4 == 0 then 1 else 0
  {}

  lemma Hundredths(y: nat)
    ensures (y + 1) / 100 == y / 100 + if (y + 1) % 100 == 0 then 1 else 0
    ensures (y + 1) % 100 == 0 ==> (y + 1) % 4 == 0
  {}

  lemma FourHundredths(y: nat)
    ensures (y + 1) / 400 == y / 400 + if (y + 1) % 400 == 0 then 1 else 0
    ensures (y + 1) % 400 == 0 ==> (y + 1) % 100 == 0
  {}

  lemma YearIsOne(z: nat, a: nat, b: nat)
    requires YearStart(a) <= z < YearStart(a + 1) && YearStart(b) <= z < YearStart(b + 1)
    ensures a == b
  {}

  lemma AtLeastOnce(k: nat, m: nat)
    requires 1 <= m
    ensures k <= k * m
  {}

  lemma Quotient(k: nat, n: nat, r: nat)
    requires 0 < k && r < k
    ensures (k * n + r) / k == n
  {
    var x := k * n + r;
    var q := x / k;
    assert x == k * q + x % k;
    if q > n {
      assert k * (q - n) == r - x % k;
      AtLeastOnce(k, q - n);
    } else if q < n {
      assert k * (n - q) == x % k - r;
      AtLeastOnce(k, n - q);
    }
  }

  /** A day of the 400-year era by century, four-year cycle, year of the cycle and day of the year. */
  lemma EraFormula(b: nat, q: nat, j: nat, t: nat)
    requires b <= 3 && q <= 24 && j <= 3
    requires t <= 364 || (t == 365 && j == 3 && (q < 24 || b == 3))
    ensures var doe := 36_524 * b + 1_461 * q + 365 * j + t;
            doe <= 146_096 && YearOfEra(doe) == 100 * b + 4 * q + j && DayOfYear(doe) == t
  {
    var doe := 36_524 * b + 1_461 * q + 365 * j + t;
    var rest := 1_461 * q + 365 * j + t;
    assert rest <= 36_524 && (rest == 36_524 ==> b == 3 && q == 24 && j == 3 && t == 365);
    assert doe / 36_524 - doe / 146_096 == b by {
      if rest < 36_524 {
        Quotient(36_524, b, rest);
        assert doe < 146_096;
      }
    }
    var e := 24 * b + q + 365 * j + t;
    assert doe == 1_460 * (25 * b + q) + e;
    var over := if e >= 1_460 then 1 else 0;
    Quotient(1_460, 25 * b + q + over, e - 1_460 * over);
    assert doe / 1_460 == 25 * b + q + over;
    assert doe - doe / 1_460 + b == 365 * (100 * b + 4 * q + j) + (t - over);
    Quotient(365, 100 * b + 4 * q + j, t - over);
    var yoe := 100 * b + 4 * q + j;
    Quotient(4, 25 * b + q, j);
    Quotient(100, b, 4 * q + j);
  }

  /** Every day of the era has such a place. */
  lemma EraPlace(doe: nat) returns (b: nat, q: nat, j: nat, t: nat)
    requires doe <= 146_096
    ensures b <= 3 && q <= 24 && j <= 3 && (t <= 364 || (t == 365 && j == 3 && (q < 24 || b == 3)))
    ensures doe == 36_524 * b + 1_461 * q + 365 * j + t
  {
    b := if doe / 36_524 <= 3 then doe / 36_524 else 3;
    var r := doe - 36_524 * b;
    assert r < 36_524 || (b == 3 && r == 36_524);
    q := r / 1_461;
    var s := r - 1_461 * q;
    assert s <= 1_460;
    j := if s / 365 <= 3 then s / 365 else 3;
    t := s - 365 * j;
  }

  lemma DayOfYearBounds(doe: nat)
    requires doe <= 146_096
    ensures 0 <= DayOfYear(doe) <= 365 && YearOfEra(doe) <= 399
  {
    var b, q, j, t := EraPlace(doe);
    EraFormula(b, q, j, t);
  }

  lemma EraStart(era: nat, yoe: nat)
    requires yoe <= 400
    ensures YearStart(400 * era + yoe) == 146_097 * era + 365 * yoe + yoe / 4 - yoe / 100 + yoe / 400
  {
    assert (400 * era + yoe) / 4 == 100 * era + yoe / 4;
    assert (400 * era + yoe) / 100 == 4 * era + yoe / 100;
    assert (400 * era + yoe) / 400 == era + yoe / 400;
  }

  ghost predicate IsCivil(days: nat, d: Date) {
    forall u {:trigger Unfold(u)} :: Unfold(u) ==> d == CivilFromDays(days)
  }

  ghost predicate IsMarch(y: nat, doy: nat, d: Date) {
    forall u {:trigger Unfold(u)} :: Unfold(u) ==> doy <= 365 && d == FromMarch(y, doy)
  }

  lemma PlaceInYear(era: nat, doe: nat) returns (y: nat, doy: nat)
    requires doe <= 146_096
    ensures YearStart(y) <= 146_097 * era + doe < YearStart(y + 1) && doy == 146_097 * era + doe - YearStart(y) && doy <= 365
    ensures y == YearOfEra(doe) + era * 400 && doy == DayOfYear(doe)
  {
    var b, q, j, t := EraPlace(doe);
    EraFormula(b, q, j, t);
    var yoe := 100 * b + 4 * q + j;
    y, doy := 400 * era + yoe, t;
    EraStart(era, yoe);
    YearLength(y);
    LongYear(b, q, j, t, era);
  }

  /** Day `z` is the `doy`-th of March year `y`. */
  ghost predicate FallsIn(z: nat, y: nat, doy: nat) {
    forall u {:trigger Unfold(u)} :: Unfold(u) ==> YearStart(y) <= z < YearStart(y + 1) && doy == z - YearStart(y)
  }

  /** The conversion finds the March year the day falls in, and its place there. */
  lemma FindsTheYear(days: nat, d: Date) returns (y: nat, doy: nat)
    requires IsCivil(days, d)
    ensures FallsIn(days + 719_468, y, doy) && IsMarch(y, doy, d)
  {
    var z := days + 719_468;
    var era := z / 146_097;
    var doe := z - era * 146_097;
    y, doy := PlaceInYear(era, doe);
    assert Unfold(0);
  }

  lemma LongYear(b: nat, q: nat, j: nat, t: nat, era: nat)
    requires b <= 3 && q <= 24 && j <= 3 && (t <= 364 || (t == 365 && j == 3 && (q < 24 || b == 3)))
    ensures t < 365 + if IsLeap(400 * era + (100 * b + 4 * q + j) + 1) then 1 else 0
  {}

  // ---- the calendar, day by day ----

  function MonthStart(mp: nat): nat { (153 * mp + 2) / 5 }

  /** The months of a March year as the calendar has them, its last one aside. */
  lemma MonthTable(mp: nat)
    requires mp <= 10
    ensures MonthStart(mp + 1) - MonthStart(mp) ==
            if mp == 1 || mp == 3 || mp == 6 || mp == 8 then 30 else 31
    ensures MonthStart(0) == 0 && MonthStart(11) == 337 && MonthStart(12) == 367
  {}

  lemma MonthPlace(doy: nat, mp: nat)
    requires mp <= 11 && MonthStart(mp) <= doy < MonthStart(mp + 1)
    ensures (5 * doy + 2) / 153 == mp
  {}

  lemma MonthOf(doy: nat) returns (mp: nat)
    requires doy <= 365
    ensures mp <= 11 && MonthStart(mp) <= doy < MonthStart(mp + 1)
  {
    mp := (5 * doy + 2) / 153;
  }

  function MonthNumber(mp: nat): nat
    requires mp <= 11
  {
    if mp < 10 then mp + 3 else mp - 9
  }

  function CalendarYear(y: nat, mp: nat): nat { if mp < 10 then y else y + 1 }

  lemma InMonth(y: nat, doy: nat, mp: nat, d: Date)
    requires IsMarch(y, doy, d) && mp <= 11 && MonthStart(mp) <= doy < MonthStart(mp + 1) && doy <= 365
    ensures d == Date(CalendarYear(y, mp), MonthNumber(mp), doy - MonthStart(mp) + 1)
  {
    assert Unfold(0);
    MonthPlace(doy, mp);
  }

  lemma LastsAsLong(y: nat, mp: nat)
    requires mp <= 11
    ensures MonthLength(CalendarYear(y, mp), MonthNumber(mp)) ==
            if mp == 11 then (if IsLeap(y + 1) then 29 else 28) else MonthStart(mp + 1) - MonthStart(mp)
  {}

  ghost predicate InYear(y: nat, doy: nat) { doy < 365 + if IsLeap(y + 1) then 1 else 0 }

  /** The next day of a March year is the calendar's next day. */
  lemma NextDay(y: nat, doy: nat, d: Date, d': Date)
    requires InYear(y, doy) && InYear(y, doy + 1) && IsMarch(y, doy, d) && IsMarch(y, doy + 1, d')
    ensures IsDate(d) && d' == Successor(d)
  {
    MonthTable(0);
    var mp := MonthOf(doy);
    InMonth(y, doy, mp, d);
    LastsAsLong(y, mp);
    if doy + 1 < MonthStart(mp + 1) {
      InMonth(y, doy + 1, mp, d');
    } else {
      MonthTable(mp);
      InMonth(y, doy + 1, mp + 1, d');
    }
  }

  lemma LastDay(y: nat, doy: nat, d: Date, d': Date)
    requires InYear(y, doy) && !InYear(y, doy + 1) && IsMarch(y, doy, d) && IsMarch(y + 1, 0, d')
    ensures IsDate(d) && d' == Successor(d)
  {
    MonthTable(0);
    InMonth(y, doy, 11, d);
    InMonth(y + 1, 0, 0, d');
  }

  /** The next day falls in the same March year, or opens the next one. */
  lemma YearTurns(z: nat, y: nat, doy: nat, y': nat, doy': nat)
    requires FallsIn(z, y, doy) && FallsIn(z + 1, y', doy')
    ensures InYear(y, doy)
    ensures if InYear(y, doy + 1) then y' == y && doy' == doy + 1 else y' == y + 1 && doy' == 0
  {
    assert Unfold(0);
    YearLength(y);
    if InYear(y, doy + 1) {
      YearIsOne(z + 1, y, y');
    } else {
      YearLength(y + 1);
      YearIsOne(z + 1, y + 1, y');
    }
  }

  lemma NextInYear(z: nat, d: Date, d': Date, y: nat, doy: nat, y': nat, doy': nat)
    requires FallsIn(z, y, doy) && FallsIn(z + 1, y', doy') && IsMarch(y, doy, d) && IsMarch(y', doy', d')
    ensures IsDate(d) && d' == Successor(d)
  {
    YearTurns(z, y, doy, y', doy');
    if InYear(y, doy + 1) {
      NextDay(y, doy, d, d');
    } else {
      LastDay(y, doy, d, d');
    }
  }

  lemma NextCivil(days: nat, d: Date, d': Date)
    requires IsCivil(days, d) && IsCivil(days + 1, d')
    ensures IsDate(d) && d' == Successor(d)
  {
    var y, doy := FindsTheYear(days, d);
    var y', doy' := FindsTheYear(days + 1, d');
    NextInYear(days + 719_468, d, d', y, doy, y', doy');
  }

  lemma SomeDate(days: nat) returns (d: Date)
    ensures IsCivil(days, d)
  {
    d := CivilFromDays(days);
  }

  lemma CivilDate(days: nat) returns (d: Date)
    ensures IsCivil(days, d) && d == CivilFromDays(days)
  {
    d := CivilFromDays(days);
  }

  lemma FirstDay()
    ensures CivilFromDays(0) == EPOCH
  {
    assert 719_468 / 146_097 == 4 && 719_468 - 4 * 146_097 == 135_080;
    assert YearOfEra(135_080) == 369;
    assert DayOfYear(135_080) == 306;
    assert FromMarch(1_969, 306) == EPOCH;
  }

  lemma FirstDate(d: Date)
    requires IsCivil(0, d)
    ensures d == EPOCH
  {
    FirstDay();
    assert Unfold(0);
  }

  lemma {:induction false} CountedFromEpoch(days: nat, d: Date)
    requires IsCivil(days, d)
    ensures d == DaysAfterEpoch(days)
  {
    if days == 0 {
      FirstDate(d);
    } else {
      var before := SomeDate(days - 1);
      assert before == DaysAfterEpoch(days - 1) by {
        CountedFromEpoch(days - 1, before);
      }
      assert d == Successor(before) by {
        NextCivil(days - 1, before, d);
      }
    }
  }

  /**
   Every day count gives a valid date, the next count the calendar's next date, and the
   whole conversion is the calendar counted from the epoch.
   */
  lemma CivilIsTheCalendar(days: nat)
    ensures IsDate(CivilFromDays(days))
    ensures CivilFromDays(days + 1) == Successor(CivilFromDays(days))
    ensures CivilFromDays(days) == DaysAfterEpoch(days)
  {
    var d := CivilDate(days);
    var next := CivilDate(days + 1);
    NextCivil(days, d, next);
    CountedFromEpoch(days, d);
  }

  // ---- the instant ----

  predicate Before(a: Date, b: Date) {
    a.year < b.year || (a.year == b.year && (a.month < b.month || (a.month == b.month && a.day < b.day)))
  }

  lemma SuccessorIsLater(a: Date, d: Date)
    requires IsDate(d) && (a == d || Before(a, d))
    ensures Before(a, Successor(d))
  {}

  lemma {:induction false} LaterDates(a: nat, b: nat)
    requires a < b
    ensures IsDate(DaysAfterEpoch(b)) && Before(DaysAfterEpoch(a), DaysAfterEpoch(b))
    decreases b
  {
    if a < b - 1 {
      LaterDates(a, b - 1);
    } else if a > 0 {
      LaterDates(a - 1, a);
    }
    SuccessorIsLater(DaysAfterEpoch(a), DaysAfterEpoch(b - 1));
  }

  lemma OneDayPerDate(a: nat, b: nat)
    requires DaysAfterEpoch(a) == DaysAfterEpoch(b)
    ensures a == b
  {
    if a < b {
      LaterDates(a, b);
    } else if b < a {
      LaterDates(b, a);
    }
  }

  datatype Instant = Instant(date: Date, hour: nat, minute: nat, second: nat)

  function Fields(secs: nat): Instant {
    var rem := secs % 86_400;
    Instant(CivilFromDays(secs / 86_400), rem / 3_600, rem % 3_600 / 60, rem % 60)
  }

  /** The fields are a date and a time of day, and name one second only. */
  lemma FieldsNameOneSecond(a: nat, b: nat)
    ensures IsDate(Fields(a).date) && Fields(a).hour <= 23 && Fields(a).minute <= 59 && Fields(a).second <= 59
    ensures Fields(a) == Fields(b) ==> a == b
  {
    CivilIsTheCalendar(a / 86_400);
    CivilIsTheCalendar(b / 86_400);
    if Fields(a) == Fields(b) {
      OneDayPerDate(a / 86_400, b / 86_400);
      SameTime(a % 86_400, b % 86_400);
    }
  }

  lemma SameTime(a: nat, b: nat)
    requires a / 3_600 == b / 3_600 && a % 3_600 / 60 == b % 3_600 / 60 && a % 60 == b % 60
    ensures a == b
  {}

  // ---- the text ----

  function Digit(n: nat): char
    requires n < 10
  {
    '0' + n as char
  }

  function Digits(n: nat): string { if n < 10 then [Digit(n)] else Digits(n / 10) + [Digit(n % 10)] }

  function Padded(n: nat, width: nat): string {
    var s := Digits(n);
    if |s| < width then seq(width - |s|, _ => '0') + s else s
  }

  function Rfc3339(secs: nat): string {
    var f := Fields(secs);
    Padded(f.date.year, 4) + "-" + Padded(f.date.month, 2) + "-" + Padded(f.date.day, 2) + "T"
    + Padded(f.hour, 2) + ":" + Padded(f.minute, 2) + ":" + Padded(f.second, 2) + "Z"
  }

  function Value(s: string): int { if s == [] then 0 else 10 * Value(s[..|s| - 1]) + (s[|s| - 1] as int - '0' as int) }

  lemma {:induction false} DigitsValue(n: nat)
    ensures Value(Digits(n)) == n
  {
    if n < 10 {
      assert Digits(n)[..0] == [];
    } else {
      DigitsValue(n / 10);
      assert Digits(n)[..|Digits(n)| - 1] == Digits(n / 10);
    }
  }

  lemma {:induction false} ZerosAhead(k: nat, s: string)
    ensures Value(seq(k, _ => '0') + s) == Value(s)
    decreases k + |s|
  {
    var zeros := seq(k, _ => '0');
    if s != [] {
      assert (zeros + s)[..|zeros + s| - 1] == zeros + s[..|s| - 1];
      ZerosAhead(k, s[..|s| - 1]);
    } else if k > 0 {
      assert zeros + s == seq(k - 1, _ => '0') + ['0'];
      assert (zeros + s)[..k - 1] == seq(k - 1, _ => '0') + [];
      ZerosAhead(k - 1, []);
    }
  }

  lemma {:induction false} DigitsLength(n: nat)
    ensures |Digits(n)| >= 1
    ensures n < 100 ==> |Digits(n)| <= 2
    ensures n < 10_000 ==> |Digits(n)| <= 4
  {
    if n >= 10 {
      DigitsLength(n / 10);
      if 1_000 <= n < 10_000 {
        assert Digits(n / 10) == Digits(n / 100) + [Digit(n / 10 % 10)];
        assert |Digits(n / 100)| <= 2 by { DigitsLength(n / 100); }
      }
    }
  }

  ghost predicate AllDigits(s: string) { forall i :: 0 <= i < |s| ==> '0' <= s[i] <= '9' }

  lemma {:induction false} DigitsAreDigits(n: nat)
    ensures AllDigits(Digits(n))
  {
    if n >= 10 {
      DigitsAreDigits(n / 10);
    }
  }

  lemma PaddedDigits(n: nat, width: nat)
    ensures AllDigits(Padded(n, width))
  {
    DigitsAreDigits(n);
  }

  lemma PaddedValue(n: nat, width: nat)
    ensures Value(Padded(n, width)) == n
    ensures (width == 2 && n < 100) || (width == 4 && n < 10_000) ==> |Padded(n, width)| == width
  {
    DigitsValue(n);
    DigitsLength(n);
    if |Digits(n)| < width {
      ZerosAhead(width - |Digits(n)|, Digits(n));
    }
  }

  /** The shape of section 5.6 of RFC 3339: fixed separators, and digits everywhere else. */
  ghost predicate IsDateTime(s: string) {
    && |s| == 20 && s[4] == '-' && s[7] == '-' && s[10] == 'T' && s[13] == ':' && s[16] == ':' && s[19] == 'Z'
    && AllDigits(s[..4]) && AllDigits(s[5..7]) && AllDigits(s[8..10])
    && AllDigits(s[11..13]) && AllDigits(s[14..16]) && AllDigits(s[17..19])
  }

  /**
   Through year 9999 the text is the date-time form of section 5.6 of RFC 3339 and reads back
   to the fields.
   */
  lemma TextReadsBack(secs: nat)
    requires Fields(secs).date.year <= 9_999
    ensures var s, f := Rfc3339(secs), Fields(secs);
            && IsDateTime(s)
            && Value(s[..4]) == f.date.year && Value(s[5..7]) == f.date.month && Value(s[8..10]) == f.date.day
            && Value(s[11..13]) == f.hour && Value(s[14..16]) == f.minute && Value(s[17..19]) == f.second
  {
    var f := Fields(secs);
    FieldsNameOneSecond(secs, secs);
    FieldText(f.date.year, 4);
    FieldText(f.date.month, 2);
    FieldText(f.date.day, 2);
    FieldText(f.hour, 2);
    FieldText(f.minute, 2);
    FieldText(f.second, 2);
    TextParts(Padded(f.date.year, 4), Padded(f.date.month, 2), Padded(f.date.day, 2),
              Padded(f.hour, 2), Padded(f.minute, 2), Padded(f.second, 2));
  }

  lemma FieldText(n: nat, width: nat)
    requires (width == 2 && n < 100) || (width == 4 && n < 10_000)
    ensures Value(Padded(n, width)) == n && |Padded(n, width)| == width && AllDigits(Padded(n, width))
  {
    PaddedValue(n, width);
    PaddedDigits(n, width);
  }

  lemma TextParts(y: string, m: string, d: string, h: string, n: string, c: string)
    requires |y| == 4 && |m| == |d| == |h| == |n| == |c| == 2
    ensures var s := y + "-" + m + "-" + d + "T" + h + ":" + n + ":" + c + "Z";
            && |s| == 20 && s[4] == '-' && s[7] == '-' && s[10] == 'T' && s[13] == ':' && s[16] == ':' && s[19] == 'Z'
            && s[..4] == y && s[5..7] == m && s[8..10] == d && s[11..13] == h && s[14..16] == n && s[17..19] == c
  {
    var s := y + "-" + m + "-" + d + "T" + h + ":" + n + ":" + c + "Z";
    assert s[..4] == y;
    assert s[5] == m[0] && s[6] == m[1];
    assert s[8] == d[0] && s[9] == d[1];
    assert s[11] == h[0] && s[12] == h[1];
    assert s[14] == n[0] && s[15] == n[1];
    assert s[17] == c[0] && s[18] == c[1];
  }
}
