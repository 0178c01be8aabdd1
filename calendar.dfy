/**
 * The proleptic Gregorian calendar over day numbers (days since 1970-01-01),
 * which the sales forecast uses to turn a date into its features
 * (`dt.dayofweek`, `dt.month`, `dt.year`, `dt.day`). The conversion is the
 * era-based one of Howard Hinnant's `civil_from_days`/`days_from_civil`:
 * an era is 400 years (146097 days) and a year is counted from 1 March, so
 * that the leap day falls at its end.
 */
module Calendar {

  datatype Date = Date(year: int, month: int, day: int)

  const DaysPerEra: int := 146097

  /** Day number of 0000-03-01, the start of era 0, counted from 1970-01-01 backwards. */
  const EraShift: int := 719468

  /** Year of the era (0..399) for day `doe` of the era (0..146096). */
  function YearOfEra(doe: int): (yoe: int)
    requires 0 <= doe < DaysPerEra
    ensures 0 <= yoe < 400
  {
    (doe - doe / 1460 + doe / 36524 - doe / 146096) / 365
  }

  /** First day of year-of-era `yoe` (a year starting 1 March), counted within the era. */
  function StartOfYear(yoe: int): int
  {
    365 * yoe + yoe / 4 - yoe / 100
  }

  /** Day of the March-based year (0..365) at which month `mp` (0 = March .. 11 = February) starts. */
  function StartOfMonth(mp: int): int
  {
    (153 * mp + 2) / 5
  }

  /** The civil date of day number `z`. */
  function CivilFromDays(z: int): (d: Date)
  {
    var z' := z + EraShift;
    var era := z' / DaysPerEra;
    CivilOfEraDay(era, z' - era * DaysPerEra)
  }

  /** The civil date of day `doe` of era `era`. */
  function CivilOfEraDay(era: int, doe: int): Date
    requires 0 <= doe < DaysPerEra
  {
    var yoe := YearOfEra(doe);
    var doy := doe - StartOfYear(yoe);
    var mp := (5 * doy + 2) / 153;
    var day := doy - StartOfMonth(mp) + 1;
    var month := CivilMonth(mp);
    Date(yoe + era * 400 + (if month <= 2 then 1 else 0), month, day)
  }

  /** The civil month (1..12) of March-based month `mp` (0 = March .. 11 = February). */
  function CivilMonth(mp: int): int
  {
    if mp < 10 then mp + 3 else mp - 9
  }

  /** The March-based month (0..11) of civil month `m`. */
  function MarchMonth(m: int): int
  {
    if m > 2 then m - 3 else m + 9
  }

  /** The day number of a civil date. */
  function DaysFromCivil(d: Date): int
  {
    var y := d.year - (if d.month <= 2 then 1 else 0);
    var era := y / 400;
    var yoe := y - era * 400;
    var mp := MarchMonth(d.month);
    var doy := StartOfMonth(mp) + d.day - 1;
    var doe := StartOfYear(yoe) + doy;
    era * DaysPerEra + doe - EraShift
  }

  /** Gregorian leap years: every fourth year, except the centuries not divisible by 400. */
  predicate IsLeapYear(y: int)
  {
    y % 4 == 0 && (y % 100 != 0 || y % 400 == 0)
  }

  /** The number of days of month `m` of year `y` in the Gregorian calendar. */
  function DaysInMonth(y: int, m: int): int
    requires 1 <= m <= 12
  {
    if m == 2 then (if IsLeapYear(y) then 29 else 28)
    else if m == 4 || m == 6 || m == 9 || m == 11 then 30
    else 31
  }

  /** A date of the Gregorian calendar: a month 1..12 and a day within that month. */
  predicate ValidDate(d: Date)
  {
    1 <= d.month <= 12 && 1 <= d.day <= DaysInMonth(d.year, d.month)
  }

  /** `dt.dayofweek`: Monday is 0 and Sunday 6; 1970-01-01 was a Thursday. */
  function DayOfWeek(z: int): (w: int)
    ensures 0 <= w < 7
  {
    (z + 3) % 7
  }

  /** Converting a day number to its date and back gives the same day number. */
  lemma CivilRoundTrip(z: int)
    ensures DaysFromCivil(CivilFromDays(z)) == z
  {
    var z' := z + EraShift;
    var era := z' / DaysPerEra;
    var doe := z' - era * DaysPerEra;
    assert 0 <= doe < DaysPerEra && era * DaysPerEra + doe == z';
    assert CivilFromDays(z) == CivilOfEraDay(era, doe);
    EraDayRoundTrip(era, doe);
  }

  /** Converting day `doe` of era `era` to its date and back gives its day number. */
  lemma EraDayRoundTrip(era: int, doe: int)
    requires 0 <= doe < DaysPerEra
    ensures DaysFromCivil(CivilOfEraDay(era, doe)) == era * DaysPerEra + doe - EraShift
  {
    var yoe := YearOfEra(doe);
    var doy := doe - StartOfYear(yoe);
    DayOfYearInRange(doe);
    var mp := (5 * doy + 2) / 153;
    MonthOfYearInRange(doy);
    var d := CivilOfEraDay(era, doe);
    assert d.month == if mp < 10 then mp + 3 else mp - 9;
    assert d.day == doy - StartOfMonth(mp) + 1;
    DaysFromCivilParts(d, era, yoe, mp, doy);
  }

  /** `DaysFromCivil` of a date given by its era, year of the era, March-based month and day of the year. */
  lemma DaysFromCivilParts(d: Date, era: int, yoe: int, mp: int, doy: int)
    requires 0 <= yoe < 400
    requires d.year - (if d.month <= 2 then 1 else 0) == yoe + era * 400
    requires (if d.month > 2 then d.month - 3 else d.month + 9) == mp
    requires StartOfMonth(mp) + d.day - 1 == doy
    ensures DaysFromCivil(d) == era * DaysPerEra + StartOfYear(yoe) + doy - EraShift
  {
    var y := d.year - (if d.month <= 2 then 1 else 0);
    assert y / 400 == era;
  }

  /** Day `doy` of a March-based year lies in one of its twelve months. */
  lemma MonthOfYearInRange(doy: int)
    requires 0 <= doy <= 365
    ensures 0 <= (5 * doy + 2) / 153 <= 11
    ensures 1 <= doy - StartOfMonth((5 * doy + 2) / 153) + 1 <= 31
  {
  }

  /**
   * The year of the era of a day given as century `c`, four-year block `q`
   * of the century, year `yy` of the block and day `doy` of that year: only
   * the last year of a block has a 366th day, and the last block of a
   * century has none unless the century is the era's last.
   */
  lemma YearOfEraOfBlock(c: int, q: int, yy: int, doy: int)
    requires 0 <= c <= 3 && 0 <= q <= 24 && 0 <= yy <= 3
    requires 0 <= doy <= 364 || (yy == 3 && doy == 365)
    requires q == 24 && c < 3 ==> (yy < 3 || doy < 365)
    ensures var doe := 36524 * c + 1461 * q + 365 * yy + doy;
      doe < DaysPerEra && YearOfEra(doe) == 100 * c + 4 * q + yy
  {
    var doe := 36524 * c + 1461 * q + 365 * yy + doy;
    var t := 24 * c + q + 365 * yy + doy;
    var b := if t >= 1460 then 1 else 0;
    assert doe == 1460 * (25 * c + q) + t;
    assert doe / 1460 == 25 * c + q + b;
    var last := c == 3 && q == 24 && yy == 3 && doy == 365;
    assert doe / 36524 == c + (if last then 1 else 0);
    assert doe / 146096 == (if last then 1 else 0);
    var n := doe - doe / 1460 + doe / 36524 - doe / 146096;
    assert n == 365 * (100 * c + 4 * q + yy) + doy - b;
  }

  /** Year `yoe` of an era is year `yy` of four-year block `q` of century `c`. */
  lemma YearParts(yoe: int) returns (c: int, q: int, yy: int)
    requires 0 <= yoe < 400
    ensures 0 <= c <= 3 && 0 <= q <= 24 && 0 <= yy <= 3
    ensures yoe == 100 * c + 4 * q + yy
  {
    c, q, yy := yoe / 100, (yoe % 100) / 4, yoe % 4;
  }

  /** Year `100c + 4q + yy` of the era starts after `c` centuries, `q` blocks and `yy` common years. */
  lemma StartOfBlockYear(c: int, q: int, yy: int)
    requires 0 <= c <= 3 && 0 <= q <= 24 && 0 <= yy <= 3
    ensures StartOfYear(100 * c + 4 * q + yy) == 36524 * c + 1461 * q + 365 * yy
  {
    var yoe := 100 * c + 4 * q + yy;
    assert yoe / 4 == 25 * c + q;
    assert yoe / 100 == c;
  }

  /** A year of the era is 365 or 366 days long: every day of the era falls on day 0..365 of its year. */
  lemma DayOfYearInRange(doe: int)
    requires 0 <= doe < DaysPerEra
    ensures 0 <= doe - StartOfYear(YearOfEra(doe)) <= 365
  {
    var c, q, yy, doy := EraDayParts(doe);
  }

  /**
   * Day `doe` of an era as century `c`, four-year block `q`, year `yy` of
   * the block and day `doy` of that March-based year.
   */
  lemma EraDayParts(doe: int) returns (c: int, q: int, yy: int, doy: int)
    requires 0 <= doe < DaysPerEra
    ensures 0 <= c <= 3 && 0 <= q <= 24 && 0 <= yy <= 3
    ensures 0 <= doy <= 364 || (yy == 3 && doy == 365)
    ensures q == 24 && c < 3 ==> (yy < 3 || doy < 365)
    ensures YearOfEra(doe) == 100 * c + 4 * q + yy
    ensures doe - StartOfYear(YearOfEra(doe)) == doy
  {
    c := if doe / 36524 > 3 then 3 else doe / 36524;
    var doc := doe - 36524 * c;
    q := doc / 1461;
    var dob := doc - 1461 * q;
    yy := if dob / 365 > 3 then 3 else dob / 365;
    doy := dob - 365 * yy;
    assert doe == 36524 * c + 1461 * q + 365 * yy + doy;
    YearOfEraOfBlock(c, q, yy, doy);
    var yoe := 100 * c + 4 * q + yy;
    assert YearOfEra(doe) == yoe;
    StartOfBlockYear(c, q, yy);
    assert StartOfYear(yoe) == 36524 * c + 1461 * q + 365 * yy;
  }

  /** Every date the conversion produces has a month 1..12 and a day 1..31. */
  lemma CivilInRange(z: int)
    ensures 1 <= CivilFromDays(z).month <= 12
    ensures 1 <= CivilFromDays(z).day <= 31
  {
    var z' := z + EraShift;
    var era := z' / DaysPerEra;
    var doe := z' - era * DaysPerEra;
    DayOfYearInRange(doe);
    MonthOfYearInRange(doe - StartOfYear(YearOfEra(doe)));
  }

  /**
   * The civil year in which March-based year `100c + 4q + yy` of era `era`
   * ends is a leap year exactly when that March-based year has a 366th day.
   */
  lemma LeapYearOfBlock(era: int, c: int, q: int, yy: int)
    requires 0 <= c <= 3 && 0 <= q <= 24 && 0 <= yy <= 3
    ensures IsLeapYear(100 * c + 4 * q + yy + era * 400 + 1) <==> yy == 3 && (q < 24 || c == 3)
  {
    var r := 100 * c + 4 * q + yy + 1;
    LeapYearOfEra(era, r);
    assert 100 * c + 4 * q + yy + era * 400 + 1 == r + era * 400;
    LeapYearInEra(c, q, yy);
  }

  /** Whether a year is a leap year repeats every era of 400 years. */
  lemma LeapYearOfEra(era: int, r: int)
    requires 1 <= r <= 400
    ensures IsLeapYear(r + era * 400) <==> IsLeapYear(r)
  {
    var y := r + era * 400;
    assert y == 4 * (100 * era) + r;
    ResidueMod4(100 * era, r);
    assert y == 100 * (4 * era) + r;
    ResidueMod100(4 * era, r);
    assert y == 400 * era + r;
    ResidueMod400(era, r);
  }

  lemma ResidueMod4(k: int, r: int)
    ensures (4 * k + r) % 4 == r % 4
  {
  }

  lemma ResidueMod100(k: int, r: int)
    ensures (100 * k + r) % 100 == r % 100
  {
  }

  lemma ResidueMod400(k: int, r: int)
    ensures (400 * k + r) % 400 == r % 400
  {
  }

  /** Year `100c + 4q + yy + 1` of an era is a leap year exactly when it ends a block that is not a century's last, or ends the era. */
  lemma LeapYearInEra(c: int, q: int, yy: int)
    requires 0 <= c <= 3 && 0 <= q <= 24 && 0 <= yy <= 3
    ensures IsLeapYear(100 * c + 4 * q + yy + 1) <==> yy == 3 && (q < 24 || c == 3)
  {
    var r := 100 * c + 4 * q + yy + 1;
    assert r == 4 * (25 * c + q) + yy + 1;
    assert r == 100 * c + (4 * q + yy + 1);
  }

  /**
   * Day `doy` of a March-based year is a day of its month: at least the 1st
   * and at most the month's Gregorian length, where February's 29th is day 365.
   */
  lemma DayWithinMonth(y: int, doy: int)
    requires 0 <= doy <= 365
    ensures var mp := (5 * doy + 2) / 153; var day := doy - StartOfMonth(mp) + 1;
      0 <= mp <= 11 && 1 <= day &&
      (mp < 11 ==> day <= DaysInMonth(y, CivilMonth(mp))) &&
      (mp == 11 ==> day <= 28 || doy == 365) &&
      (doy == 365 ==> mp == 11 && day == 29)
  {
  }

  /** The first `DaysInMonth` days after the start of March-based month `mp` belong to that month. */
  lemma MonthOfStart(mp: int, day: int)
    requires 0 <= mp <= 11
    requires 1 <= day <= (if mp == 11 then 29 else DaysInMonth(0, CivilMonth(mp)))
    ensures (5 * (StartOfMonth(mp) + day - 1) + 2) / 153 == mp
  {
  }

  /** Every date the conversion produces is a Gregorian date. */
  lemma CivilValid(z: int)
    ensures ValidDate(CivilFromDays(z))
  {
    var z' := z + EraShift;
    var era := z' / DaysPerEra;
    var doe := z' - era * DaysPerEra;
    assert CivilFromDays(z) == CivilOfEraDay(era, doe);
    EraDayValid(era, doe);
  }

  /** Every day of an era converts to a Gregorian date. */
  lemma EraDayValid(era: int, doe: int)
    requires 0 <= doe < DaysPerEra
    ensures ValidDate(CivilOfEraDay(era, doe))
  {
    var c, q, yy, doy := EraDayParts(doe);
    var d := CivilOfEraDay(era, doe);
    DayWithinMonth(d.year, doy);
    if doy == 365 {
      LeapYearOfBlock(era, c, q, yy);
      assert d.year == 100 * c + 4 * q + yy + era * 400 + 1;
    }
  }

  /** Converting a Gregorian date to its day number and back gives the same date. */
  lemma DaysCivilRoundTrip(d: Date)
    requires ValidDate(d)
    ensures CivilFromDays(DaysFromCivil(d)) == d
  {
    var era, doe := EraDayOfValidDate(d);
    EraDayOfEpochDay(era, doe);
  }

  /** A Gregorian date is day `doe` of era `era`. */
  lemma EraDayOfValidDate(d: Date) returns (era: int, doe: int)
    requires ValidDate(d)
    ensures 0 <= doe < DaysPerEra
    ensures DaysFromCivil(d) == era * DaysPerEra + doe - EraShift
    ensures CivilOfEraDay(era, doe) == d
  {
    var y := d.year - (if d.month <= 2 then 1 else 0);
    era := y / 400;
    var yoe := y - era * 400;
    var mp := MarchMonth(d.month);
    var doy := StartOfMonth(mp) + d.day - 1;
    DayOfDate(d);
    YearOfDay(era, yoe, doy);
    doe := StartOfYear(yoe) + doy;
    DaysFromCivilParts(d, era, yoe, mp, doy);
    EraDayOfDate(d, era, doe, yoe, mp, doy);
  }

  /** The day of the March-based year on which a Gregorian date falls, and its month. */
  lemma DayOfDate(d: Date)
    requires ValidDate(d)
    ensures var mp := MarchMonth(d.month); var doy := StartOfMonth(mp) + d.day - 1;
      0 <= doy <= 365 && (5 * doy + 2) / 153 == mp && CivilMonth(mp) == d.month &&
      (doy == 365 ==> d.month == 2 && IsLeapYear(d.year))
  {
    MonthOfStart(MarchMonth(d.month), d.day);
  }

  /** Day `doy` of year `yoe` of era `era`, where day 365 exists only before a leap day, lies in that year. */
  lemma YearOfDay(era: int, yoe: int, doy: int)
    requires 0 <= yoe < 400
    requires 0 <= doy <= 364 || (doy == 365 && IsLeapYear(yoe + era * 400 + 1))
    ensures 0 <= StartOfYear(yoe) + doy < DaysPerEra
    ensures YearOfEra(StartOfYear(yoe) + doy) == yoe
  {
    var c, q, yy := YearParts(yoe);
    StartOfBlockYear(c, q, yy);
    LeapYearOfBlock(era, c, q, yy);
    YearOfEraOfBlock(c, q, yy, doy);
  }

  /** Day `doe` of era `era` is, as a day number, in era `era`. */
  lemma EraDayOfEpochDay(era: int, doe: int)
    requires 0 <= doe < DaysPerEra
    ensures CivilFromDays(era * DaysPerEra + doe - EraShift) == CivilOfEraDay(era, doe)
  {
    var z' := era * DaysPerEra + doe;
    assert z' / DaysPerEra == era;
  }

  /** The date that day `doe` of era `era` decomposes into, given its year of the era, month and day of the year. */
  lemma EraDayOfDate(d: Date, era: int, doe: int, yoe: int, mp: int, doy: int)
    requires 0 <= doe < DaysPerEra
    requires YearOfEra(doe) == yoe && doe - StartOfYear(yoe) == doy
    requires (5 * doy + 2) / 153 == mp && StartOfMonth(mp) + d.day - 1 == doy
    requires CivilMonth(mp) == d.month
    requires yoe + era * 400 + (if d.month <= 2 then 1 else 0) == d.year
    ensures CivilOfEraDay(era, doe) == d
  {
  }

  /** The calendar day after a Gregorian date. */
  function NextDate(d: Date): (e: Date)
    requires ValidDate(d)
    ensures ValidDate(e)
  {
    if d.day < DaysInMonth(d.year, d.month) then Date(d.year, d.month, d.day + 1)
    else if d.month < 12 then Date(d.year, d.month + 1, 1)
    else Date(d.year + 1, 1, 1)
  }

  /** The day number after `z` is the calendar day after the date of `z`. */
  lemma NextDay(z: int)
    ensures ValidDate(CivilFromDays(z))
    ensures CivilFromDays(z + 1) == NextDate(CivilFromDays(z))
  {
    var d := CivilFromDays(z);
    CivilValid(z);
    CivilRoundTrip(z);
    var e := NextDate(d);
    DaysOfNextDate(d);
    DaysCivilRoundTrip(e);
    var n := DaysFromCivil(e);
    assert n == z + 1;
    assert CivilFromDays(n) == e;
  }

  /** The day number of the calendar day after `d` is one more than that of `d`. */
  lemma DaysOfNextDate(d: Date)
    requires ValidDate(d)
    ensures DaysFromCivil(NextDate(d)) == DaysFromCivil(d) + 1
  {
    var y := d.year - (if d.month <= 2 then 1 else 0);
    var era := y / 400;
    var yoe := y - era * 400;
    var mp := MarchMonth(d.month);
    var doy := StartOfMonth(mp) + d.day - 1;
    DaysFromCivilParts(d, era, yoe, mp, doy);
    var e := NextDate(d);
    if d.day < DaysInMonth(d.year, d.month) {
      assert e == Date(d.year, d.month, d.day + 1);
      DaysFromCivilParts(e, era, yoe, mp, doy + 1);
    } else if d.month == 2 {
      assert e == Date(d.year, 3, 1);
      var era', yoe' := YearLength(era, yoe);
      DaysFromCivilParts(e, era', yoe', 0, 0);
    } else {
      assert e == if d.month < 12 then Date(d.year, d.month + 1, 1) else Date(d.year + 1, 1, 1);
      MonthLength(mp);
      DaysFromCivilParts(e, era, yoe, mp + 1, StartOfMonth(mp + 1));
    }
  }

  /** Each March-based month but February ends where the next one starts. */
  lemma MonthLength(mp: int)
    requires 0 <= mp <= 10
    ensures StartOfMonth(mp + 1) == StartOfMonth(mp) + DaysInMonth(0, CivilMonth(mp))
  {
  }

  /**
   * March-based year `yoe` of era `era` has 366 days exactly when the civil
   * year it ends in is a leap year: the next March-based year, `yoe'` of era
   * `era'`, starts that many days later.
   */
  lemma YearLength(era: int, yoe: int) returns (era': int, yoe': int)
    requires 0 <= yoe < 400
    ensures 0 <= yoe' < 400 && yoe' + era' * 400 == yoe + era * 400 + 1
    ensures era' * DaysPerEra + StartOfYear(yoe')
      == era * DaysPerEra + StartOfYear(yoe) + 365 + (if IsLeapYear(yoe + era * 400 + 1) then 1 else 0)
  {
    var c, q, yy := YearParts(yoe);
    StartOfBlockYear(c, q, yy);
    LeapYearOfBlock(era, c, q, yy);
    if yoe == 399 {
      era', yoe' := era + 1, 0;
    } else if yy < 3 {
      era', yoe' := era, yoe + 1;
      StartOfBlockYear(c, q, yy + 1);
    } else if q < 24 {
      era', yoe' := era, yoe + 1;
      StartOfBlockYear(c, q + 1, 0);
    } else {
      era', yoe' := era, yoe + 1;
      StartOfBlockYear(c + 1, 0, 0);
    }
  }

  /** The day of week repeats every seven days and advances by one each day. */
  lemma DayOfWeekNext(z: int)
    ensures DayOfWeek(z + 1) == (DayOfWeek(z) + 1) % 7
    ensures DayOfWeek(z + 7) == DayOfWeek(z)
  {
  }

  /** The epoch: day 0 is Thursday 1970-01-01. */
  lemma Epoch()
    ensures CivilFromDays(0) == Date(1970, 1, 1)
    ensures DayOfWeek(0) == 3
  {
  }
}
