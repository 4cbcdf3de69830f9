/** The audit log's calendar: seconds since 1970 to proleptic Gregorian dates. */
module Calendar {

  datatype Date = Date(year: int, month: nat, day: nat)

  datatype Stamp = Stamp(date: Date, hour: nat, minute: nat, second: nat)

  // ---- The calendar itself ---------------------------------------------------------------------

  predicate Leap(y: int) {
    y % 4 == 0 && (y % 100 != 0 || y % 400 == 0)
  }

  function MonthLength(y: int, m: nat): nat {
    if m == 2 then (if Leap(y) then 29 else 28)
    else if m == 4 || m == 6 || m == 9 || m == 11 then 30
    else 31
  }

  predicate Valid(d: Date) {
    1 <= d.month <= 12 && 1 <= d.day <= MonthLength(d.year, d.month)
  }

  function NextDay(d: Date): Date {
    if d.day < MonthLength(d.year, d.month) then d.(day := d.day + 1)
    else if d.month < 12 then Date(d.year, d.month + 1, 1)
    else Date(d.year + 1, 1, 1)
  }

  /** The `n`-th day from 1 January 1970 on, counting one day at a time. */
  function DayAfterEpoch(n: nat): Date {
    if n == 0 then Date(1970, 1, 1) else NextDay(DayAfterEpoch(n - 1))
  }

  // ---- The printed stamp -----------------------------------------------------------------------------

  /** Years from 1 March, in 400-year eras: the arithmetic behind a printed date. */
  function YearOfEra(doe: nat): int {
    (doe - doe / 1_460 + doe / 36_524 - doe / 146_096) / 365
  }

  function DayOfYear(doe: nat): int {
    var yoe := YearOfEra(doe);
    doe - (365 * yoe + yoe / 4 - yoe / 100)
  }

  function MonthIndex(doy: int): int {
    (5 * doy + 2) / 153
  }

  function CivilDay(doy: int): int {
    doy - (153 * MonthIndex(doy) + 2) / 5 + 1
  }

  function CivilMonth(doy: int): int {
    if MonthIndex(doy) < 10 then MonthIndex(doy) + 3 else MonthIndex(doy) - 9
  }

  function CivilYear(era: int, doe: nat): int {
    var y := YearOfEra(doe) + era * 400;
    if CivilMonth(DayOfYear(doe)) <= 2 then y + 1 else y
  }

  // ---- A day of an era, in steps ---------------------------------------------------------------------------

  /** A day of a 400-year era as centuries, four-year spans, years and days from 1 March. */
  datatype Place = Place(century: nat, span: nat, year: nat, day: nat)

  predicate Fits(p: Place) {
    && p.century <= 3 && p.span <= 24 && p.year <= 3 && p.day <= 365
    && (p.day == 365 ==> p.year == 3 && (p.span < 24 || p.century == 3))
  }

  function DayOfEra(p: Place): nat {
    36_524 * p.century + 1_461 * p.span + 365 * p.year + p.day
  }

  function Within(value: nat, unit: nat, most: nat): nat
    requires unit > 0
  {
    if value / unit < most then value / unit else most
  }

  function PlaceOf(doe: nat): Place {
    var century := Within(doe, 36_524, 3);
    var rest := doe - 36_524 * century;
    var span := if rest < 0 then 0 else rest / 1_461;
    var left := if rest < 0 then 0 else rest % 1_461;
    var year := Within(left, 365, 3);
    Place(century, span, year, if left < 365 * year then 0 else left - 365 * year)
  }

  lemma PlaceFits(doe: nat)
    requires doe < 146_097
    ensures Fits(PlaceOf(doe)) && DayOfEra(PlaceOf(doe)) == doe
  {
    var century := Within(doe, 36_524, 3);
    var rest := doe - 36_524 * century;
    assert 0 <= rest <= 36_524;
    assert century < 3 ==> rest < 36_524;
    var left := rest % 1_461;
    assert rest == 1_461 * (rest / 1_461) + left;
  }

  /** The last day of an era, 29 February of its 400th year. */
  predicate LastOfEra(p: Place) {
    p == Place(3, 24, 3, 365)
  }

  function Spent(p: Place): nat {
    if 24 * p.century + p.span + 365 * p.year + p.day >= 1_460 then 1 else 0
  }

  lemma ByLeapCycle(p: Place)
    requires Fits(p)
    ensures DayOfEra(p) < 146_097 && DayOfEra(p) / 1_460 == 25 * p.century + p.span + Spent(p)
    ensures 0 <= p.day - Spent(p) < 365
  {
    var extra := 24 * p.century + p.span + 365 * p.year + p.day;
    assert DayOfEra(p) == 1_460 * (25 * p.century + p.span) + extra;
  }

  lemma ByCentury(p: Place)
    requires Fits(p)
    ensures DayOfEra(p) / 36_524 == p.century + (if LastOfEra(p) then 1 else 0)
  {}

  lemma ByEra(p: Place)
    requires Fits(p)
    ensures DayOfEra(p) / 146_096 == if LastOfEra(p) then 1 else 0
  {}

  lemma ByYear(years: nat, left: nat)
    requires left < 365
    ensures (365 * years + left) / 365 == years
  {}

  /** The quotients in the year formula, place by place. */
  lemma YearOfPlace(p: Place)
    requires Fits(p)
    ensures DayOfEra(p) < 146_097
    ensures YearOfEra(DayOfEra(p)) == 100 * p.century + 4 * p.span + p.year
    ensures DayOfYear(DayOfEra(p)) == p.day
  {
    var doe, years := DayOfEra(p), 100 * p.century + 4 * p.span + p.year;
    ByLeapCycle(p);
    ByCentury(p);
    ByEra(p);
    assert doe - doe / 1_460 + doe / 36_524 - doe / 146_096 == 365 * years + (p.day - Spent(p));
    ByYear(years, p.day - Spent(p));
    QuartersOf(p);
    hide LastOfEra, Spent;
  }

  lemma QuartersOf(p: Place)
    requires Fits(p)
    ensures (100 * p.century + 4 * p.span + p.year) / 4 == 25 * p.century + p.span
    ensures (100 * p.century + 4 * p.span + p.year) / 100 == p.century
  {}

  // ---- Days of a year from 1 March -----------------------------------------------------------------------------

  /** Month and day from the day of the year; only the last month, February, may have 29 days. */
  lemma MonthOfDay(doy: nat)
    requires doy <= 365
    ensures 0 <= MonthIndex(doy) <= 11 && 1 <= CivilDay(doy) && 1 <= CivilMonth(doy) <= 12
    ensures CivilMonth(doy) == 2 ==> CivilDay(doy) <= 29 && (CivilDay(doy) == 29 <==> doy == 365)
    ensures CivilMonth(doy) != 2 ==> forall y :: CivilDay(doy) <= MonthLength(y, CivilMonth(doy))
    ensures CivilMonth(doy) <= 2 <==> doy >= 306
  {
  }

  /** The date `days` after 1 January 1970. */
  function Civil(days: nat): Date {
    var z := days + 719_468;
    var era, doe := z / 146_097, z % 146_097;
    var doy := DayOfYear(doe);
    var month, day := CivilMonth(doy), CivilDay(doy);
    Date(CivilYear(era, doe), if month < 0 then 0 else month, if day < 0 then 0 else day)
  }

  /** The time stamp of `secs` seconds after the epoch. */
  function Iso8601(secs: nat): Stamp {
    var rem := secs % 86_400;
    Stamp(Civil(secs / 86_400), rem / 3_600, rem % 3_600 / 60, rem % 60)
  }

  // ---- Printed dates follow the calendar ------------------------------------------------------------------------

  function MarchYear(era: nat, p: Place): int {
    400 * era + 100 * p.century + 4 * p.span + p.year
  }

  /** The date of the `doy`-th day from 1 March of year `y`. */
  function DateInYear(y: int, doy: nat): Date
    requires doy <= 365
  {
    MonthOfDay(doy);
    Date(if doy >= 306 then y + 1 else y, CivilMonth(doy), CivilDay(doy))
  }

  lemma CivilOfPlace(days: nat, era: nat, p: Place)
    requires Fits(p) && days + 719_468 == 146_097 * era + DayOfEra(p)
    ensures Civil(days) == DateInYear(MarchYear(era, p), p.day)
  {
    YearOfPlace(p);
    assert (days + 719_468) / 146_097 == era && (days + 719_468) % 146_097 == DayOfEra(p);
    MonthOfDay(p.day);
    hide YearOfEra, DayOfYear, DayOfEra, MonthIndex, Fits;
  }

  predicate LongYear(p: Place) {
    p.year == 3 && (p.span < 24 || p.century == 3)
  }

  lemma ByFour(a: int, r: nat)
    ensures (100 * a + r) % 4 == r % 4
  {
    assert 100 * a + r == 4 * (25 * a) + r;
  }

  lemma ByHundred(a: int, r: nat)
    requires 1 <= r <= 100
    ensures (100 * a + r) % 100 == 0 <==> r == 100
  {}

  lemma ByFourHundred(era: nat, c: nat)
    requires 1 <= c <= 4
    ensures (400 * era + 100 * c) % 400 == 0 <==> c == 4
  {}

  lemma LongIsLeap(era: nat, p: Place)
    requires Fits(p)
    ensures LongYear(p) <==> Leap(MarchYear(era, p) + 1)
  {
    var a, r := 4 * era + p.century, 4 * p.span + p.year + 1;
    assert MarchYear(era, p) + 1 == 100 * a + r;
    ByFour(a, r);
    ByHundred(a, r);
    if r == 100 {
      ByFourHundred(era, p.century + 1);
      assert 100 * a + r == 400 * era + 100 * (p.century + 1);
    }
    assert r % 4 == 0 <==> p.year == 3;
    LeapIs(100 * a + r, r);
    hide Leap, MarchYear;
  }

  lemma LeapIs(y: int, r: nat)
    requires y % 4 == r % 4 && (y % 100 == 0 <==> r == 100)
    ensures Leap(y) <==> r % 4 == 0 && (r != 100 || y % 400 == 0)
  {}

  /** The place of the next day, and whether a new era begins. */
  function NextPlace(p: Place): (Place, bool) {
    if p.day < (if LongYear(p) then 365 else 364) then (p.(day := p.day + 1), false)
    else if p.year < 3 then (p.(year := p.year + 1, day := 0), false)
    else if p.span < 24 then (Place(p.century, p.span + 1, 0, 0), false)
    else if p.century < 3 then (Place(p.century + 1, 0, 0, 0), false)
    else (Place(0, 0, 0, 0), true)
  }

  /** The day count after one more day, a new era being worth 146,097 days. */
  lemma NextPlaceFits(p: Place)
    requires Fits(p)
    ensures var (next, carry) := NextPlace(p);
            Fits(next) && DayOfEra(p) + 1 == (if carry then 146_097 else 0) + DayOfEra(next)
  {}

  lemma NextPlaceYear(p: Place)
    requires Fits(p)
    ensures var (next, carry) := NextPlace(p);
            next.day == 0 ==> MarchYear(0, next) + (if carry then 400 else 0) == MarchYear(0, p) + 1
  {}

  lemma NextPlaceIs(era: nat, p: Place)
    requires Fits(p)
    ensures var (next, carry) := NextPlace(p);
            && Fits(next)
            && 146_097 * era + DayOfEra(p) + 1 == 146_097 * (if carry then era + 1 else era) + DayOfEra(next)
    ensures var (next, carry) := NextPlace(p);
            next.day == 0 ==> MarchYear(if carry then era + 1 else era, next) == MarchYear(era, p) + 1
  {
    hide *;
    NextPlaceFits(p);
    NextPlaceYear(p);
    var next, carry := NextPlace(p).0, NextPlace(p).1;
    FromEra(era, p);
    FromEra(if carry then era + 1 else era, next);
    if carry { EraLonger(era); }
  }

  lemma FromEra(era: nat, p: Place)
    ensures MarchYear(era, p) == 400 * era + MarchYear(0, p)
  {}

  lemma EraLonger(era: nat)
    ensures 146_097 * (era + 1) == 146_097 * era + 146_097 && 400 * (era + 1) == 400 * era + 400
  {}

  /** Within a year from March the date advances by one day. */
  lemma DayWithinYear(y: int, doy: nat)
    requires doy < 364 || (doy == 364 && Leap(y + 1))
    ensures NextDay(DateInYear(y, doy)) == DateInYear(y, doy + 1)
  {
    MonthOfDay(doy);
    MonthOfDay(doy + 1);
  }

  /** The last day of February is followed by 1 March. */
  lemma YearEnds(y: int, doy: nat)
    requires (doy == 364 && !Leap(y + 1)) || (doy == 365 && Leap(y + 1))
    ensures NextDay(DateInYear(y, doy)) == DateInYear(y + 1, 0)
  {}

  lemma LastDay(p: Place)
    requires Fits(p)
    ensures p.day <= (if LongYear(p) then 365 else 364)
    ensures var (next, carry) := NextPlace(p);
            next.day == 0 || (next.day == p.day + 1 && !carry && MarchYear(0, next) == MarchYear(0, p))
    ensures NextPlace(p).0.day == 0 <==> p.day == (if LongYear(p) then 365 else 364)
  {}

  lemma SameMarchYear(era: nat, p: Place, q: Place)
    requires MarchYear(0, p) == MarchYear(0, q)
    ensures MarchYear(era, p) == MarchYear(era, q)
  {}

  lemma Divided(z: nat)
    ensures z == 146_097 * (z / 146_097) + z % 146_097 && z % 146_097 < 146_097
  {}

  lemma ConsecutiveDays(days: nat)
    ensures Civil(days + 1) == NextDay(Civil(days))
  {
    hide *;
    var z := days + 719_468;
    Divided(z);
    var era, p := z / 146_097, PlaceOf(z % 146_097);
    PlaceFits(z % 146_097);
    CivilOfPlace(days, era, p);
    var next, carry := NextPlace(p).0, NextPlace(p).1;
    NextPlaceIs(era, p);
    CivilOfPlace(days + 1, if carry then era + 1 else era, next);
    LongIsLeap(era, p);
    LastDay(p);
    if next.day == 0 {
      YearEnds(MarchYear(era, p), p.day);
    } else {
      SameMarchYear(era, next, p);
      DayWithinYear(MarchYear(era, p), p.day);
    }
  }

  lemma Epoch()
    ensures Civil(0) == Date(1970, 1, 1)
  {
    CivilOfPlace(0, 4, Place(3, 17, 1, 306));
  }

  lemma NextIsValid(d: Date)
    requires Valid(d)
    ensures Valid(NextDay(d))
  {}

  lemma Counting(n: nat)
    ensures DayAfterEpoch(0) == Date(1970, 1, 1) && Valid(Date(1970, 1, 1))
    ensures DayAfterEpoch(n + 1) == NextDay(DayAfterEpoch(n))
  {}

  /** The date printed for any number of days is the one reached by counting that many days from the epoch. */
  lemma {:induction false} CivilIsCalendar(days: nat)
    ensures Civil(days) == DayAfterEpoch(days) && Valid(Civil(days))
  {
    hide *;
    if days == 0 {
      Epoch();
      Counting(0);
    } else {
      CivilIsCalendar(days - 1);
      ConsecutiveDays(days - 1);
      Counting(days - 1);
      NextIsValid(Civil(days - 1));
    }
  }

  predicate Earlier(a: Date, b: Date) {
    a.year < b.year || (a.year == b.year && (a.month < b.month || (a.month == b.month && a.day < b.day)))
  }

  lemma NextIsLater(a: Date, b: Date)
    requires Valid(b) && (a == b || Earlier(a, b))
    ensures Earlier(a, NextDay(b))
  {}

  /** Later days have later dates, so no two days share one. */
  lemma {:induction false} LaterIsLater(a: nat, b: nat)
    requires a < b
    ensures Earlier(Civil(a), Civil(b))
  {
    hide *;
    CivilIsCalendar(b - 1);
    ConsecutiveDays(b - 1);
    if a < b - 1 { LaterIsLater(a, b - 1); }
    NextIsLater(Civil(a), Civil(b - 1));
  }

  lemma StampIs(secs: nat)
    ensures var s := Iso8601(secs);
            && s.date == Civil(secs / 86_400) && s.hour < 24 && s.minute < 60 && s.second < 60
            && secs == 86_400 * (secs / 86_400) + 3_600 * s.hour + 60 * s.minute + s.second
  {
    hide Civil;
  }

  /** A stamp's date and time of day account for every second. */
  lemma StampIsExact(secs: nat)
    ensures var s := Iso8601(secs);
            && s.date == DayAfterEpoch(secs / 86_400) && Valid(s.date) && s.hour < 24 && s.minute < 60 && s.second < 60
            && secs == 86_400 * (secs / 86_400) + 3_600 * s.hour + 60 * s.minute + s.second
  {
    StampIs(secs);
    hide *;
    CivilIsCalendar(secs / 86_400);
  }
}
