/** `Date.UTC(year, month, date)` as the flat forms call it on the three
    numbers of a `YYYY-MM-DD` input: the time value, in milliseconds, of
    that day's UTC midnight, computed by the day arithmetic of section
    21.4.1 of ECMA-262 (DayFromYear, MakeDay, MakeDate, TimeClip). */
module UtcDate {
  import opened Common
  import opened Text
  import opened FieldValidation

  const MsPerDay: int := 86_400_000

  /** The Gregorian leap-year rule. */
  predicate IsLeap(y: int)
  {
    y % 4 == 0 && (y % 100 != 0 || y % 400 == 0)
  }

  function DaysInYear(y: int): int
  {
    if IsLeap(y) then 366 else 365
  }

  /** DayFromYear: the day number of January 1st of year `y`, counted from
      January 1st 1970. Dafny's `/` by a positive divisor is the floor the
      standard's formula asks for. */
  function DayFromYear(y: int): int
  {
    365 * (y - 1970) + (y - 1969) / 4 - (y - 1901) / 100 + (y - 1601) / 400
  }

  /** Every year between 1970 and `y` contributes 365 or 366 days. */
  lemma DayFromYearBounds(y: int)
    ensures y >= 1970 ==> 365 * (y - 1970) <= DayFromYear(y) <= 366 * (y - 1970)
    ensures y <= 1970 ==> 366 * (y - 1970) <= DayFromYear(y) <= 365 * (y - 1970)
  {
  }

  /** The length of month `m` (0 for January). */
  function DaysInMonth(m: int, leap: bool): (n: int)
    requires 0 <= m < 12
    ensures 28 <= n <= 31
  {
    if m == 1 then (if leap then 29 else 28)
    else if m == 3 || m == 5 || m == 8 || m == 10 then 30
    else 31
  }

  /** The day of the year on which month `m` starts. */
  function MonthStart(m: int, leap: bool): (n: int)
    requires 0 <= m < 12
  {
    var starts := [0, 31, 59, 90, 120, 151, 181, 212, 243, 273, 304, 334];
    starts[m] + (if leap && m >= 2 then 1 else 0)
  }

  /** MakeDay on integral arguments: month numbers beyond 0..11 carry into
      the year, and the date is added to the start of the month. */
  function MakeDay(year: int, month: int, date: int): int
  {
    var ym := year + month / 12;
    var mn := month % 12;
    DayFromYear(ym) + MonthStart(mn, IsLeap(ym)) + date - 1
  }

  /** The year `Date.UTC` uses: an integral part from 0 to 99 means a year
      of the twentieth century. */
  function FullYear(y: real): (yr: int)
    ensures -1.0 < y < 100.0 ==> yr == 1900 + Truncate(y)
    ensures !(-1.0 < y < 100.0) ==> yr == Truncate(y)
  {
    var yi := Truncate(y);
    if 0 <= yi <= 99 then 1900 + yi else yi
  }

  /** `Date.UTC(year, month, date)`; `None` is `NaN`, which any `NaN`
      argument gives, as does a day too far from 1970 (TimeClip). */
  function DateUtc(year: JsNumber, month: JsNumber, date: JsNumber): (t: JsNumber)
    ensures t.Some? ==> year.Some? && month.Some? && date.Some?
    ensures t.Some? ==> t.value.Floor as real == t.value && t.value.Floor % MsPerDay == 0
    ensures t.Some? ==> -MaxTime as real <= t.value <= MaxTime as real
  {
    if year.None? || month.None? || date.None? then None
    else
      var ms := MakeDay(FullYear(year.value), Truncate(month.value), Truncate(date.value)) * MsPerDay;
      if ms < -MaxTime || ms > MaxTime then None else Some(ms as real)
  }

  /** The dates a calendar shows: a month from 0 to 11 and a day within
      it. */
  predicate IsCalendarDate(y: int, m: int, d: int)
  {
    0 <= m < 12 && 1 <= d <= DaysInMonth(m, IsLeap(y))
  }

  predicate LexLess(y: int, m: int, d: int, y': int, m': int, d': int)
  {
    y < y' || (y == y' && (m < m' || (m == m' && d < d')))
  }

  // ----- the day arithmetic against the calendar -----

  /** January 1st 1970 is day 0. */
  lemma EpochYear()
    ensures DayFromYear(1970) == 0 && !IsLeap(1970)
  {
    DivMod(1, 4, 0, 1);
    DivMod(69, 100, 0, 69);
    DivMod(369, 400, 0, 369);
    DivMod(1970, 4, 492, 2);
  }

  /** Rounding an integral number toward zero gives it back. */
  lemma TruncateIntegral(n: int)
    ensures Truncate(n as real) == n
  {
  }

  /** `Date.UTC` on integral arguments, the year outside 0..99: the time of
      that day's midnight, when TimeClip keeps it. */
  lemma DateUtcOfIntegers(y: int, m: int, d: int)
    requires !(0 <= y <= 99)
    requires -MaxTime <= MakeDay(y, m, d) * MsPerDay <= MaxTime
    ensures DateUtc(Some(y as real), Some(m as real), Some(d as real)) == Some((MakeDay(y, m, d) * MsPerDay) as real)
  {
    TruncateIntegral(y);
    TruncateIntegral(m);
    TruncateIntegral(d);
    assert FullYear(y as real) == y;
  }

  /** `n / k` and `n % k` are the quotient and remainder of any
      decomposition `n == k * q + r` with `0 <= r < k`. */
  lemma DivMod(n: int, k: int, q: int, r: int)
    requires k > 0 && n == k * q + r && 0 <= r < k
    ensures n / k == q && n % k == r
  {
    var q', r' := n / k, n % k;
    assert k * (q - q') == r' - r;
    SmallMultiple(k, q - q');
  }

  /** The only multiple of `k` strictly between `-k` and `k` is 0. */
  lemma SmallMultiple(k: int, t: int)
    requires k > 0 && -k < k * t < k
    ensures t == 0
  {
  }

  /** Going from `y - s - 1` to `y - s`, with `s` a multiple of `k`, passes
      a multiple of `k` exactly when `y` is one. */
  lemma Crossing(y: int, k: int, s: int)
    requires k > 0 && s % k == 0
    ensures (y - s) / k - (y - s - 1) / k == if y % k == 0 then 1 else 0
  {
    var q, r := y / k, y % k;
    var t := s / k;
    assert s == k * t;
    DivMod(y - s, k, q - t, r);
    if r == 0 {
      DivMod(y - s - 1, k, q - t - 1, k - 1);
    } else {
      DivMod(y - s - 1, k, q - t, r - 1);
    }
  }

  /** Consecutive years start a year's length apart: DayFromYear follows the
      leap-year rule. */
  lemma DayFromYearStep(y: int)
    ensures DayFromYear(y + 1) == DayFromYear(y) + DaysInYear(y)
  {
    Crossing(y, 4, 1968);
    Crossing(y, 100, 1900);
    Crossing(y, 400, 1600);
  }

  /** Within the year, MakeDay is the start of the year, of the month, and
      the date. */
  lemma MakeDayInYear(y: int, m: int, d: int)
    requires 0 <= m < 12
    ensures MakeDay(y, m, d) == DayFromYear(y) + MonthStart(m, IsLeap(y)) + d - 1
  {
    DivMod(m, 12, 0, m);
  }

  /** Years start in order, at least 365 days apart. */
  lemma {:induction false} DayFromYearGrows(y: int, y': int)
    requires y <= y'
    ensures DayFromYear(y) + 365 * (y' - y) <= DayFromYear(y')
    decreases y' - y
  {
    if y < y' {
      DayFromYearStep(y);
      DayFromYearGrows(y + 1, y');
    }
  }

  /** Consecutive months start a month's length apart, and the last month
      ends where the year does. */
  lemma MonthStartStep(m: int, leap: bool)
    requires 0 <= m < 12
    ensures m < 11 ==> MonthStart(m + 1, leap) == MonthStart(m, leap) + DaysInMonth(m, leap)
    ensures m == 11 ==> MonthStart(m, leap) + DaysInMonth(m, leap) == if leap then 366 else 365
  {
  }

  /** A later month of the same year starts after an earlier one ends. */
  lemma MonthsInOrder(m: int, m': int, leap: bool)
    requires 0 <= m < m' < 12
    ensures MonthStart(m, leap) + DaysInMonth(m, leap) <= MonthStart(m', leap)
  {
  }

  /** Month 12 is January of the next year, and so on. */
  lemma MonthsCarryIntoYears(y: int, m: int, d: int)
    ensures MakeDay(y, m + 12, d) == MakeDay(y + 1, m, d)
  {
    DivMod(m + 12, 12, m / 12 + 1, m % 12);
  }

  /** Any month number, negative or past 11, names the same day as its
      remainder in the year its quotient carries to. */
  lemma MonthsNormalize(y: int, m: int, d: int)
    ensures 0 <= m % 12 < 12
    ensures MakeDay(y, m, d) == MakeDay(y + m / 12, m % 12, d)
    ensures MakeDay(y, m, d) == DayFromYear(y + m / 12) + MonthStart(m % 12, IsLeap(y + m / 12)) + d - 1
  {
    MakeDayInYear(y + m / 12, m % 12, d);
  }

  /** The day after the last of a month is the first of the next. */
  lemma DaysCarryIntoMonths(y: int, m: int)
    requires 0 <= m < 12
    ensures m < 11 ==> MakeDay(y, m, DaysInMonth(m, IsLeap(y)) + 1) == MakeDay(y, m + 1, 1)
    ensures m == 11 ==> MakeDay(y, m, DaysInMonth(m, IsLeap(y)) + 1) == MakeDay(y + 1, 0, 1)
  {
    MakeDayInYear(y, m, DaysInMonth(m, IsLeap(y)) + 1);
    MonthStartStep(m, IsLeap(y));
    if m < 11 {
      MakeDayInYear(y, m + 1, 1);
    } else {
      MakeDayInYear(y + 1, 0, 1);
      DayFromYearStep(y);
    }
  }

  /** A calendar date lies within its year. */
  lemma WithinYear(y: int, m: int, d: int)
    requires IsCalendarDate(y, m, d)
    ensures DayFromYear(y) <= MakeDay(y, m, d) < DayFromYear(y + 1)
  {
    MakeDayInYear(y, m, d);
    if m < 11 {
      MonthsInOrder(m, 11, IsLeap(y));
    }
    MonthStartStep(11, IsLeap(y));
    DayFromYearStep(y);
  }

  /** Day numbers follow the calendar: one calendar date comes before
      another exactly when its day number is smaller, so distinct dates get
      distinct days. */
  lemma CalendarOrder(y: int, m: int, d: int, y': int, m': int, d': int)
    requires IsCalendarDate(y, m, d) && IsCalendarDate(y', m', d')
    ensures MakeDay(y, m, d) < MakeDay(y', m', d') <==> LexLess(y, m, d, y', m', d')
    ensures MakeDay(y, m, d) == MakeDay(y', m', d') <==> (y, m, d) == (y', m', d')
  {
    if LexLess(y, m, d, y', m', d') {
      EarlierDateEarlierDay(y, m, d, y', m', d');
    } else if LexLess(y', m', d', y, m, d) {
      EarlierDateEarlierDay(y', m', d', y, m, d);
    }
  }

  lemma EarlierDateEarlierDay(y: int, m: int, d: int, y': int, m': int, d': int)
    requires IsCalendarDate(y, m, d) && IsCalendarDate(y', m', d')
    requires LexLess(y, m, d, y', m', d')
    ensures MakeDay(y, m, d) < MakeDay(y', m', d')
  {
    if y < y' {
      WithinYear(y, m, d);
      WithinYear(y', m', d');
      DayFromYearGrows(y + 1, y');
    } else {
      MakeDayInYear(y, m, d);
      MakeDayInYear(y', m', d');
      if m < m' {
        MonthsInOrder(m, m', IsLeap(y));
      }
    }
  }

  /** Two-digit years: `Date.UTC(k, m, d)` is `Date.UTC(1900 + k, m, d)`. */
  lemma TwoDigitYears(k: int, month: JsNumber, date: JsNumber)
    requires 0 <= k <= 99
    ensures DateUtc(Some(k as real), month, date) == DateUtc(Some((1900 + k) as real), month, date)
  {
  }

  // ----- the `YYYY-MM-DD` input -----

  /** `Number` of the `i`th `-`-separated part; a missing part is
      `undefined`, whose number is `NaN`. */
  function PartNumber(parts: seq<string>, i: nat, env: Env): JsNumber
  {
    if i < |parts| then env.toNumber(parts[i]) else None
  }

  /** `m - 1` on a JavaScript number. */
  function MinusOne(x: JsNumber): (r: JsNumber)
    ensures r.Some? <==> x.Some?
    ensures r.Some? ==> r.value + 1.0 == x.value
  {
    match x
    case None => None
    case Some(v) => Some(v - 1.0)
  }

  /** `const [y, m, d] = raw.split('-').map(Number); Date.UTC(y, m - 1, d)`. */
  function InputDateUtc(raw: string, env: Env): (r: JsNumber)
    ensures r.Some? ==> |Split(raw, '-')| >= 3
    ensures r.Some? ==> r.value.Floor as real == r.value && r.value.Floor % MsPerDay == 0
    ensures r.Some? ==> -MaxTime as real <= r.value <= MaxTime as real
  {
    var parts := Split(raw, '-');
    DateUtc(PartNumber(parts, 0, env), MinusOne(PartNumber(parts, 1, env)), PartNumber(parts, 2, env))
  }

  /** An input whose three parts read as a calendar year, month (from 1)
      and day gives that day's UTC midnight, as long as it is within
      TimeClip's range; fewer than three parts give `NaN`. */
  lemma InputIsUtcMidnight(raw: string, env: Env, y: int, m: int, d: int)
    requires var parts := Split(raw, '-');
      |parts| >= 3 && env.toNumber(parts[0]) == Some(y as real)
      && env.toNumber(parts[1]) == Some(m as real) && env.toNumber(parts[2]) == Some(d as real)
    requires !(0 <= y <= 99) && IsCalendarDate(y, m - 1, d)
    requires -MaxTime <= MakeDay(y, m - 1, d) * MsPerDay <= MaxTime
    ensures InputDateUtc(raw, env) == Some((MakeDay(y, m - 1, d) * MsPerDay) as real)
  {
    InputParts(raw, env, y, m, d);
    DateUtcOfIntegers(y, m - 1, d);
  }

  /** The three numbers an input's parts read as. */
  lemma InputParts(raw: string, env: Env, y: int, m: int, d: int)
    requires var parts := Split(raw, '-');
      |parts| >= 3 && env.toNumber(parts[0]) == Some(y as real)
      && env.toNumber(parts[1]) == Some(m as real) && env.toNumber(parts[2]) == Some(d as real)
    ensures InputDateUtc(raw, env) == DateUtc(Some(y as real), Some((m - 1) as real), Some(d as real))
  {
    var parts := Split(raw, '-');
    assert MinusOne(PartNumber(parts, 1, env)) == Some((m - 1) as real);
  }

  lemma ShortInputIsNaN(raw: string, env: Env)
    requires |Split(raw, '-')| < 3
    ensures InputDateUtc(raw, env) == None
  {
  }
}
