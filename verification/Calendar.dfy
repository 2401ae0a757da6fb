/** Civil dates of the proleptic Gregorian calendar (libraries/cal/src/lib.rs). */
module Calendar {

  /** Integer division of the source: toward zero. */
  function TruncDiv(a: int, b: int): int
    requires b > 0
  {
    if a >= 0 then a / b else -(-a / b)
  }

  datatype Date = Date(year: int, month: int, day: int)

  predicate IsLeap(y: int) {
    (y % 4 == 0 && y % 100 != 0) || y % 400 == 0
  }

  /** Zero for a month that does not exist. */
  function DaysInMonth(y: int, m: int): int {
    if m in {1, 3, 5, 7, 8, 10, 12} then 31
    else if m in {4, 6, 9, 11} then 30
    else if m == 2 then (if IsLeap(y) then 29 else 28)
    else 0
  }

  predicate Valid(date: Date) {
    1 <= date.month <= 12 && 1 <= date.day <= DaysInMonth(date.year, date.month)
  }

  /** Days since 1970-01-01. */
  function DaysFromCivil(date: Date): int {
    var y := if date.month <= 2 then date.year - 1 else date.year;
    var era := TruncDiv(if y >= 0 then y else y - 399, 400);
    var yoe := y - era * 400;
    var mp := (date.month + 9) % 12;
    var doy := (153 * mp + 2) / 5 + date.day - 1;
    var doe := yoe * 365 + yoe / 4 - yoe / 100 + doy;
    era * 146097 + doe - 719468
  }

  function CivilFromDays(days: int): Date {
    var z := days + 719468;
    var era := TruncDiv(if z >= 0 then z else z - 146096, 146097);
    CivilInEra(era, z - era * 146097)
  }

  /** The date of day `doe` of a 400-year era. */
  function CivilInEra(era: int, doe: int): Date {
    var yoe := YearOfEra(doe);
    var y := yoe + era * 400;
    var doy := doe - (365 * yoe + yoe / 4 - yoe / 100);
    var mp := (5 * doy + 2) / 153;
    var d := doy - (153 * mp + 2) / 5 + 1;
    var m := if mp < 10 then mp + 3 else mp - 9;
    Date(if m <= 2 then y + 1 else y, m, d)
  }

  /** The year, counted from March, of a day of the 400-year era. */
  function YearOfEra(doe: int): int {
    (doe - doe / 1460 + doe / 36524 - doe / 146096) / 365
  }

  // ---------------------------------------------------------------- eras, years and months

  /** Shifting negative numbers makes the truncating division a floor. */
  lemma EraOfYears(y: int)
    ensures TruncDiv(if y >= 0 then y else y - 399, 400) == y / 400
  {
  }

  lemma EraOfDays(z: int)
    ensures TruncDiv(if z >= 0 then z else z - 146096, 146097) == z / 146097
  {
  }

  /** The first day of each March year of the era. */
  function YearStart(yoe: int): int {
    365 * yoe + yoe / 4 - yoe / 100
  }

  /** The first day after it; the last year of the era has the leap day of year 400. */
  function YearEnd(yoe: int): int {
    if yoe == 399 then 146097 else YearStart(yoe + 1)
  }

  lemma YearOfEraBounds(doe: int)
    requires 0 <= doe < 146097
    ensures 0 <= YearOfEra(doe) < 400
    ensures YearStart(YearOfEra(doe)) <= doe < YearEnd(YearOfEra(doe))
  {
    if doe < 146096 {
      YearInCentury(doe, doe / 36524);
    }
  }

  lemma YearInCentury(doe: int, c: int)
    requires 0 <= c < 4 && 36524 * c <= doe < 36524 * (c + 1)
    ensures 0 <= YearOfEra(doe) < 400
    ensures YearStart(YearOfEra(doe)) <= doe < YearEnd(YearOfEra(doe))
  {
    var r := doe - 36524 * c;
    var j := (r - (24 * c + r) / 1460) / 365;
    YearInQuad(r, c);
    assert doe / 1460 == 25 * c + (24 * c + r) / 1460;
    assert doe / 36524 == c && doe / 146096 == 0;
    assert YearOfEra(doe) == 100 * c + j;
    CenturyStart(c, j);
    CenturyStart(c, j + 1);
  }

  lemma YearInQuad(r: int, c: int)
    requires 0 <= c < 4 && 0 <= r < 36524
    ensures var j := (r - (24 * c + r) / 1460) / 365;
            0 <= j < 100 && 365 * j + j / 4 <= r && (j < 99 ==> r < 365 * (j + 1) + (j + 1) / 4)
  {
  }

  lemma CenturyStart(c: int, j: int)
    requires 0 <= c < 4 && 0 <= j <= 100
    ensures YearStart(100 * c + j) == 36524 * c + 365 * j + j / 4 - j / 100
  {
  }

  /** Years of the era do not overlap. */
  lemma YearUnique(doe: int, p: int)
    requires 0 <= p < 400 && YearStart(p) <= doe < YearEnd(p)
    ensures YearOfEra(doe) == p
  {
    YearSpan(p);
    YearOfEraBounds(doe);
    var q := YearOfEra(doe);
    if p < q {
      YearsIncrease(p, q);
    } else if q < p {
      YearsIncrease(q, p);
    }
  }

  lemma YearSpan(p: int)
    requires 0 <= p < 400
    ensures 0 <= YearStart(p) < YearEnd(p) <= 146097
    ensures YearEnd(p) - YearStart(p) == if IsLeap(p + 1) then 366 else 365
  {
    Step4(p);
    Step100(p);
    if p < 399 {
      assert (p + 1) % 400 != 0;
    }
  }

  lemma Step4(p: int)
    requires 0 <= p
    ensures (p + 1) / 4 == p / 4 + if (p + 1) % 4 == 0 then 1 else 0
  {
  }

  lemma Step100(p: int)
    requires 0 <= p
    ensures (p + 1) / 100 == p / 100 + if (p + 1) % 100 == 0 then 1 else 0
    ensures (p + 1) % 100 == 0 ==> (p + 1) % 4 == 0
  {
  }

  lemma YearsIncrease(p: int, q: int)
    requires 0 <= p < q < 400
    ensures YearEnd(p) <= YearStart(q)
  {
    assert q / 4 >= (p + 1) / 4 && q / 100 - (p + 1) / 100 <= q - (p + 1);
  }

  /** The first day of each month of a March year. */
  function MonthStart(mp: int): int {
    (153 * mp + 2) / 5
  }

  lemma MonthOfYear(doy: int)
    requires 0 <= doy < 366
    ensures var mp := (5 * doy + 2) / 153; 0 <= mp < 12 && MonthStart(mp) <= doy < MonthStart(mp + 1)
  {
  }

  lemma MonthUnique(doy: int, mp: int)
    requires 0 <= mp < 12 && MonthStart(mp) <= doy < MonthStart(mp + 1)
    ensures (5 * doy + 2) / 153 == mp
  {
  }

  /** March has index 0; January and February are the last two months. */
  function MonthOf(mp: int): int {
    if mp < 10 then mp + 3 else mp - 9
  }

  /** Every month of a March year but its last, February, has its usual length. */
  lemma MonthLength(mp: int, y: int)
    requires 0 <= mp < 11
    ensures MonthStart(mp + 1) - MonthStart(mp) == DaysInMonth(y, MonthOf(mp))
  {
    assert mp in {0, 1, 2, 3, 4, 5, 6, 7, 8, 9, 10};
  }

  // ---------------------------------------------------------------- both directions through the March calendar

  /** Day `doy` of year `yoe` of `era` in the calendar whose years start in March. */
  ghost predicate InMarchYear(yoe: int, doy: int) {
    0 <= yoe < 400 && 0 <= doy < YearEnd(yoe) - YearStart(yoe)
  }

  function FromMarch(era: int, yoe: int, doy: int): Date {
    var mp := (5 * doy + 2) / 153;
    var y := yoe + era * 400;
    Date(if MonthOf(mp) <= 2 then y + 1 else y, MonthOf(mp), doy - MonthStart(mp) + 1)
  }

  function MarchDays(era: int, yoe: int, doy: int): int {
    era * 146097 + YearStart(yoe) + doy - 719468
  }

  /** `CivilFromDays` in terms of the floor of the era. */
  lemma CivilByEra(days: int, era: int, yoe: int, doy: int)
    requires days == MarchDays(era, yoe, doy) && 0 <= YearStart(yoe) + doy < 146097
    requires YearOfEra(YearStart(yoe) + doy) == yoe
    ensures CivilFromDays(days) == FromMarch(era, yoe, doy)
  {
    EraOnly(days, era, YearStart(yoe) + doy);
    InEraIsMarch(era, yoe, doy);
  }

  lemma EraOnly(days: int, era: int, doe: int)
    requires days == era * 146097 + doe - 719468 && 0 <= doe < 146097
    ensures CivilFromDays(days) == CivilInEra(era, doe)
  {
    var z := days + 719468;
    EraOfDays(z);
    assert z / 146097 == era;
  }

  lemma InEraIsMarch(era: int, yoe: int, doy: int)
    requires YearOfEra(YearStart(yoe) + doy) == yoe
    ensures CivilInEra(era, YearStart(yoe) + doy) == FromMarch(era, yoe, doy)
  {
  }

  /** `DaysFromCivil` in terms of the floor of the era. */
  lemma DaysByEra(date: Date, era: int, yoe: int)
    requires (if date.month <= 2 then date.year - 1 else date.year) == era * 400 + yoe && 0 <= yoe < 400
    ensures DaysFromCivil(date) == MarchDays(era, yoe, MonthStart((date.month + 9) % 12) + date.day - 1)
  {
    var y := era * 400 + yoe;
    EraOfYears(y);
    assert y / 400 == era;
  }

  lemma CivilIsMarch(days: int) returns (era: int, yoe: int, doy: int)
    ensures InMarchYear(yoe, doy) && days == MarchDays(era, yoe, doy) && CivilFromDays(days) == FromMarch(era, yoe, doy)
  {
    var doe;
    era, doe := SplitEra(days);
    YearOfEraBounds(doe);
    yoe := YearOfEra(doe);
    doy := doe - YearStart(yoe);
    CivilByEra(days, era, yoe, doy);
  }

  lemma SplitEra(days: int) returns (era: int, doe: int)
    ensures 0 <= doe < 146097 && days == era * 146097 + doe - 719468
  {
    era, doe := (days + 719468) / 146097, (days + 719468) % 146097;
  }

  lemma CivilOfMarch(era: int, yoe: int, doy: int)
    requires InMarchYear(yoe, doy)
    ensures CivilFromDays(MarchDays(era, yoe, doy)) == FromMarch(era, yoe, doy)
  {
    YearSpan(yoe);
    YearUnique(YearStart(yoe) + doy, yoe);
    CivilByEra(MarchDays(era, yoe, doy), era, yoe, doy);
  }

  /** Leap years repeat every era. */
  lemma LeapInEra(era: int, yoe: int)
    ensures IsLeap(yoe + era * 400) <==> IsLeap(yoe)
  {
    Mod4(yoe + era * 400, yoe, 100 * era);
    Mod100(yoe + era * 400, yoe, 4 * era);
    Mod400(yoe + era * 400, yoe, era);
  }

  lemma Mod4(a: int, b: int, k: int)
    requires a == b + 4 * k
    ensures a % 4 == b % 4
  {
  }

  lemma Mod100(a: int, b: int, k: int)
    requires a == b + 100 * k
    ensures a % 100 == b % 100
  {
  }

  lemma Mod400(a: int, b: int, k: int)
    requires a == b + 400 * k
    ensures a % 400 == b % 400
  {
  }

  lemma MarchIsValid(era: int, yoe: int, doy: int)
    requires InMarchYear(yoe, doy)
    ensures Valid(FromMarch(era, yoe, doy))
  {
    var mp := (5 * doy + 2) / 153;
    YearSpan(yoe);
    MonthOfYear(doy);
    if mp < 11 {
      MonthLength(mp, FromMarch(era, yoe, doy).year);
    } else {
      LeapInEra(era, yoe + 1);
    }
  }

  lemma DaysOfMarch(era: int, yoe: int, doy: int)
    requires InMarchYear(yoe, doy)
    ensures DaysFromCivil(FromMarch(era, yoe, doy)) == MarchDays(era, yoe, doy)
  {
    var mp := (5 * doy + 2) / 153;
    YearSpan(yoe);
    MonthOfYear(doy);
    assert (MonthOf(mp) + 9) % 12 == mp;
    DaysByEra(FromMarch(era, yoe, doy), era, yoe);
  }

  lemma MarchOfDate(date: Date) returns (era: int, yoe: int, doy: int)
    requires Valid(date)
    ensures InMarchYear(yoe, doy) && date == FromMarch(era, yoe, doy)
  {
    var y := if date.month <= 2 then date.year - 1 else date.year;
    var mp := (date.month + 9) % 12;
    era, yoe, doy := y / 400, y % 400, MonthStart(mp) + date.day - 1;
    assert MonthOf(mp) == date.month && yoe + era * 400 == y;
    YearSpan(yoe);
    if mp < 11 {
      MonthLength(mp, date.year);
      assert doy < 337;
    } else {
      LeapInEra(era, yoe + 1);
    }
    MonthUnique(doy, mp);
  }

  // ---------------------------------------------------------------- the conversions

  /** Every day number is a valid date, and converting it back gives the day number. */
  lemma DaysRoundTrip(days: int)
    ensures Valid(CivilFromDays(days)) && DaysFromCivil(CivilFromDays(days)) == days
  {
    var era, yoe, doy := CivilIsMarch(days);
    MarchIsValid(era, yoe, doy);
    DaysOfMarch(era, yoe, doy);
  }

  /** Every valid date is recovered from its day number. */
  lemma DateRoundTrip(date: Date)
    requires Valid(date)
    ensures CivilFromDays(DaysFromCivil(date)) == date
  {
    var era, yoe, doy := MarchOfDate(date);
    DaysOfMarch(era, yoe, doy);
    CivilOfMarch(era, yoe, doy);
  }

  // ---------------------------------------------------------------- the calendar itself

  /** The day after. */
  function NextDay(date: Date): Date {
    if date.day < DaysInMonth(date.year, date.month) then date.(day := date.day + 1)
    else if date.month < 12 then Date(date.year, date.month + 1, 1)
    else Date(date.year + 1, 1, 1)
  }

  /** The March year of a date. */
  function MarchYear(date: Date): int {
    if date.month <= 2 then date.year - 1 else date.year
  }

  /** February closes its March year. */
  lemma FebruaryLength(era: int, yoe: int)
    requires 0 <= yoe < 400
    ensures MonthStart(11) + DaysInMonth(era * 400 + yoe + 1, 2) == YearEnd(yoe) - YearStart(yoe)
  {
    YearSpan(yoe);
    LeapInEra(era, yoe + 1);
  }

  lemma SameMonthCounts(date: Date)
    requires Valid(date) && date.day < DaysInMonth(date.year, date.month)
    ensures DaysFromCivil(date.(day := date.day + 1)) == DaysFromCivil(date) + 1
  {
    hide DaysFromCivil;
    var y := MarchYear(date);
    DaysByEra(date, y / 400, y % 400);
    DaysByEra(date.(day := date.day + 1), y / 400, y % 400);
  }

  /** From the last day of a month other than February to the first of the next, in the same March year. */
  lemma NextMonthCounts(date: Date, next: Date)
    requires Valid(date) && date.day == DaysInMonth(date.year, date.month) && date.month != 2
    requires next.day == 1 && MarchYear(next) == MarchYear(date) && (next.month + 9) % 12 == (date.month + 9) % 12 + 1
    ensures DaysFromCivil(next) == DaysFromCivil(date) + 1
  {
    hide DaysFromCivil, DaysInMonth, MonthStart;
    var y := MarchYear(date);
    MonthLength((date.month + 9) % 12, date.year);
    DaysByEra(date, y / 400, y % 400);
    DaysByEra(next, y / 400, y % 400);
  }

  /** From the last day of February to the first of March, in the next March year. */
  lemma MarchCounts(year: int)
    ensures DaysFromCivil(Date(year, 3, 1)) == DaysFromCivil(Date(year, 2, DaysInMonth(year, 2))) + 1
  {
    hide DaysFromCivil;
    var era, yoe := (year - 1) / 400, (year - 1) % 400;
    FebruaryLength(era, yoe);
    DaysByEra(Date(year, 2, DaysInMonth(year, 2)), era, yoe);
    MarchStarts(year, era, yoe);
  }

  lemma MarchStarts(year: int, era: int, yoe: int)
    requires year == era * 400 + yoe + 1 && 0 <= yoe < 400
    ensures DaysFromCivil(Date(year, 3, 1)) == era * 146097 + YearEnd(yoe) - 719468
  {
    hide DaysFromCivil;
    if yoe < 399 {
      DaysByEra(Date(year, 3, 1), era, yoe + 1);
    } else {
      DaysByEra(Date(year, 3, 1), era + 1, 0);
    }
  }

  /** Day numbers count days: the day after a date has the next number. */
  lemma NextDayCounts(date: Date)
    requires Valid(date)
    ensures Valid(NextDay(date)) && DaysFromCivil(NextDay(date)) == DaysFromCivil(date) + 1
  {
    if date.day < DaysInMonth(date.year, date.month) {
      SameMonthCounts(date);
    } else if date.month == 2 {
      MarchCounts(date.year);
    } else {
      NextMonthCounts(date, NextDay(date));
    }
  }

  lemma Epoch()
    ensures CivilFromDays(0) == Date(1970, 1, 1)
  {
    YearUnique(135080, 369);
    CivilByEra(0, 4, 369, 306);
  }

  /** From the epoch on, forwards and backwards, dates follow one another. */
  lemma CivilFollowsCalendar(days: int)
    ensures CivilFromDays(0) == Date(1970, 1, 1)
    ensures CivilFromDays(days + 1) == NextDay(CivilFromDays(days))
  {
    hide CivilFromDays, DaysFromCivil, NextDay, Valid;
    Epoch();
    DaysRoundTrip(days);
    NextDayCounts(CivilFromDays(days));
    DateRoundTrip(NextDay(CivilFromDays(days)));
  }

  /** Monday is 0; the epoch was a Thursday, and each day is followed by the next of the seven. */
  function Weekday(days: int): (r: int)
    ensures 0 <= r < 7
  {
    (days + 3) % 7
  }

  lemma WeekdaysFollow(days: int)
    ensures Weekday(0) == 3 && Weekday(days + 1) == if Weekday(days) == 6 then 0 else Weekday(days) + 1
  {
  }

  // ---------------------------------------------------------------- 64-bit arithmetic

  predicate FitsI64(x: int) {
    -0x8000_0000_0000_0000 <= x < 0x8000_0000_0000_0000
  }

  /** Every intermediate value of `civil_from_days` up to the era fits in 64 bits; the rest are small. */
  predicate CivilFits(days: int) {
    var z := days + 719468;
    var shifted := if z >= 0 then z else z - 146096;
    var era := TruncDiv(shifted, 146097);
    FitsI64(z) && FitsI64(shifted) && FitsI64(era * 146097) && FitsI64(z - era * 146097) && FitsI64(era * 400 + 400)
  }

  /** The conversion overflows on the last 719468 day numbers and on no other. */
  lemma CivilFitsIff(days: int)
    requires FitsI64(days)
    ensures CivilFits(days) <==> days < 0x8000_0000_0000_0000 - 719468
  {
    EraOfDays(days + 719468);
  }

  /** Every intermediate value of `days_from_civil` fits in 64 bits. */
  predicate DaysFit(date: Date) {
    var y := MarchYear(date);
    var shifted := if y >= 0 then y else y - 399;
    var era := TruncDiv(shifted, 400);
    var yoe := y - era * 400;
    var doe := YearStart(yoe) + (153 * ((date.month + 9) % 12) + 2) / 5 + date.day - 1;
    && FitsI64(y) && FitsI64(shifted) && FitsI64(era * 400) && FitsI64(yoe) && FitsI64(doe)
    && FitsI64(era * 146097) && FitsI64(era * 146097 + doe) && FitsI64(era * 146097 + doe - 719468)
  }

  /** For any month and day bytes: it overflows exactly when the number is too low, or among the last 719468. */
  lemma DaysFitNumbers(date: Date)
    requires FitsI64(date.year) && 0 <= date.month < 256 && 0 <= date.day < 256
    ensures DaysFit(date) <==> -0x8000_0000_0000_0000 <= DaysFromCivil(date) < 0x8000_0000_0000_0000 - 719468
  {
    assert -0x8000_0000_0000_0001 <= MarchYear(date) < 0x8000_0000_0000_0000;
    hide DaysFit, DaysFromCivil, YearStart, MonthStart, FitsI64;
    var y := MarchYear(date);
    var era, yoe := y / 400, y % 400;
    DaysByEra(date, era, yoe);
    DaysFitByEra(date, era, yoe);
    DayOfEraSmall(yoe, date.month, date.day);
    EraDays(y, era, YearStart(yoe) + MonthStart((date.month + 9) % 12) + date.day - 1);
  }

  lemma DaysFitByEra(date: Date, era: int, yoe: int)
    requires MarchYear(date) == era * 400 + yoe && 0 <= yoe < 400
    ensures var y, doe := MarchYear(date), YearStart(yoe) + MonthStart((date.month + 9) % 12) + date.day - 1;
            DaysFit(date) <==>
              && FitsI64(y) && FitsI64(if y >= 0 then y else y - 399) && FitsI64(era * 400)
              && FitsI64(yoe) && FitsI64(doe)
              && FitsI64(era * 146097) && FitsI64(era * 146097 + doe) && FitsI64(era * 146097 + doe - 719468)
  {
    EraOfYears(MarchYear(date));
    EraIs(MarchYear(date), era, yoe);
    hide FitsI64, YearStart;
  }

  lemma EraIs(y: int, era: int, yoe: int)
    requires y == era * 400 + yoe && 0 <= yoe < 400
    ensures y / 400 == era
  {
  }

  lemma DayOfEraSmall(yoe: int, month: int, day: int)
    requires 0 <= yoe < 400 && 0 <= day < 256
    ensures var doe := YearStart(yoe) + MonthStart((month + 9) % 12) + day - 1;
            -1 <= doe < 200000 && FitsI64(doe) && FitsI64(yoe)
  {
    YearOfEraSmall(yoe);
    hide YearStart;
    MonthSmall((month + 9) % 12);
  }

  lemma MonthSmall(mp: int)
    requires 0 <= mp < 12
    ensures 0 <= MonthStart(mp) <= 337
  {
  }

  lemma YearOfEraSmall(yoe: int)
    requires 0 <= yoe < 400
    ensures 0 <= YearStart(yoe) <= 146097
  {
  }

  /** Where the era and the day in it fit, in terms of the day number alone. */
  lemma EraDays(y: int, era: int, doe: int)
    requires era == y / 400 && -1 <= doe < 200000
    requires -0x8000_0000_0000_0001 <= y < 0x8000_0000_0000_0000
    ensures (&& FitsI64(y) && FitsI64(if y >= 0 then y else y - 399) && FitsI64(era * 400)
             && FitsI64(era * 146097) && FitsI64(era * 146097 + doe) && FitsI64(era * 146097 + doe - 719468)) <==>
            -0x8000_0000_0000_0000 <= era * 146097 + doe - 719468 < 0x8000_0000_0000_0000 - 719468
  {
  }

  ghost predicate Before(a: Date, b: Date) {
    || a.year < b.year
    || (a.year == b.year && a.month < b.month)
    || (a.year == b.year && a.month == b.month && a.day < b.day)
  }

  /** The first and the last date whose day number can be computed in 64 bits. */
  const FIRST_DATE := Date(-25252734927764585, 6, 7)
  const LAST_DATE := Date(25252734927766554, 9, 25)

  /** Later day numbers are later dates. */
  lemma {:induction false} CivilIncreases(m: int, n: int)
    requires m < n
    ensures Before(CivilFromDays(m), CivilFromDays(n))
    decreases n - m
  {
    hide CivilFromDays;
    CivilFollowsCalendar(n - 1);
    if m < n - 1 {
      CivilIncreases(m, n - 1);
    }
  }

  lemma FirstNumber()
    ensures DaysFromCivil(FIRST_DATE) == -0x8000_0000_0000_0000 && Valid(FIRST_DATE)
  {
    hide DaysFromCivil;
    DaysByEra(FIRST_DATE, -63131837319412, 215);
  }

  lemma LastNumber()
    ensures DaysFromCivil(LAST_DATE) == 0x8000_0000_0000_0000 - 719469 && Valid(LAST_DATE)
  {
    hide DaysFromCivil;
    DaysByEra(LAST_DATE, 63131837319416, 154);
  }

  lemma FirstAndLast()
    ensures CivilFromDays(-0x8000_0000_0000_0000) == FIRST_DATE
    ensures CivilFromDays(0x8000_0000_0000_0000 - 719469) == LAST_DATE
  {
    hide DaysFromCivil, CivilFromDays, Valid;
    FirstNumber();
    LastNumber();
    DateRoundTrip(FIRST_DATE);
    DateRoundTrip(LAST_DATE);
  }

  /** A valid date has its number computed without overflow exactly when it lies between the two. */
  lemma DaysFitIff(date: Date)
    requires Valid(date) && FitsI64(date.year)
    ensures DaysFit(date) <==> !Before(date, FIRST_DATE) && !Before(LAST_DATE, date)
  {
    var n := DaysFromCivil(date);
    DaysFitNumbers(date);
    DateRoundTrip(date);
    FirstAndLast();
    hide DaysFit, DaysFromCivil, CivilFromDays, Valid;
    if n != -0x8000_0000_0000_0000 {
      CivilIncreases(if n < -0x8000_0000_0000_0000 then n else -0x8000_0000_0000_0000,
                     if n < -0x8000_0000_0000_0000 then -0x8000_0000_0000_0000 else n);
    }
    if n != 0x8000_0000_0000_0000 - 719469 {
      CivilIncreases(if n < 0x8000_0000_0000_0000 - 719469 then n else 0x8000_0000_0000_0000 - 719469,
                     if n < 0x8000_0000_0000_0000 - 719469 then 0x8000_0000_0000_0000 - 719469 else n);
    }
  }

  /** The weekday overflows on the last three day numbers and on no other; never on the number of a date. */
  lemma WeekdayFitsIff(days: int)
    requires FitsI64(days)
    ensures FitsI64(days + 3) <==> days < 0x8000_0000_0000_0000 - 3
    ensures CivilFits(days) ==> FitsI64(days + 3)
  {
    CivilFitsIff(days);
  }
}
