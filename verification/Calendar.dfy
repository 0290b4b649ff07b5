/** Calendar months and the fiscal periods cut from them. Days are counted from
    the first day of year 0; a month is numbered 12 * year + month index. */
module Calendar {
  import opened Base
  import opened Journal

  predicate IsLeap(year: nat)
  {
    year % 4 == 0 && (year % 100 != 0 || year % 400 == 0)
  }

  function DaysIn(month: nat): nat
  {
    var m := month % 12;
    if m == 1 then if IsLeap(month / 12) then 29 else 28
    else if m == 3 || m == 5 || m == 8 || m == 10 then 30
    else 31
  }

  /** The day number of the first day of a month. */
  function MonthStart(month: nat): nat
  {
    if month == 0 then 0 else MonthStart(month - 1) + DaysIn(month - 1)
  }

  /** Date.UTC(year, month, day): months past December run into the next year, and
      day 0 is the last day of the month before. */
  function Utc(year: nat, month: nat, day: nat): int
  {
    MonthStart(12 * year + month) + day - 1
  }

  lemma {:induction false} MonthsInOrder(a: nat, b: nat)
    requires a < b
    ensures MonthStart(a) + DaysIn(a) <= MonthStart(b)
  {
    if a < b - 1 {
      MonthsInOrder(a, b - 1);
    }
  }

  lemma MonthDays(year: nat, i: nat)
    requires i < 12
    ensures DaysIn(12 * year + i) == if i == 1 then if IsLeap(year) then 29 else 28
                                     else if i == 3 || i == 5 || i == 8 || i == 10 then 30 else 31
  {
    assert (12 * year + i) % 12 == i && (12 * year + i) / 12 == year;
  }

  lemma FirstHalf(year: nat)
    ensures MonthStart(12 * year + 6) == MonthStart(12 * year) + if IsLeap(year) then 182 else 181
  {
    HalfYear(12 * year);
    MonthDays(year, 0);
    MonthDays(year, 1);
    MonthDays(year, 2);
    MonthDays(year, 3);
    MonthDays(year, 4);
    MonthDays(year, 5);
  }

  lemma SecondHalf(year: nat)
    ensures MonthStart(12 * year + 12) == MonthStart(12 * year + 6) + 184
  {
    HalfYear(12 * year + 6);
    MonthDays(year, 6);
    MonthDays(year, 7);
    MonthDays(year, 8);
    MonthDays(year, 9);
    MonthDays(year, 10);
    MonthDays(year, 11);
  }

  /** Twelve months make a year of 365 days, or 366 in a leap year. */
  lemma YearLength(year: nat)
    ensures MonthStart(12 * (year + 1)) == MonthStart(12 * year) + if IsLeap(year) then 366 else 365
  {
    FirstHalf(year);
    SecondHalf(year);
  }

  /** A year has 366 days exactly when it is divisible by 4 and not by 100, or by 400. */
  lemma LeapYears(year: nat)
    ensures MonthStart(12 * (year + 1)) - MonthStart(12 * year) in {365, 366}
    ensures MonthStart(12 * (year + 1)) - MonthStart(12 * year) == 366 <==>
      year % 4 == 0 && (year % 100 != 0 || year % 400 == 0)
  {
    YearLength(year);
  }

  /** Leap years before a year, in closed form: every fourth year, but not every hundredth,
      but every four hundredth. */
  function LeapsBefore(year: nat): int
  {
    (year + 3) / 4 - (year + 99) / 100 + (year + 399) / 400
  }

  lemma NextLeap(year: nat)
    ensures LeapsBefore(year + 1) == LeapsBefore(year) + if IsLeap(year) then 1 else 0
  {
    assert (year + 4) / 4 == (year + 3) / 4 + if year % 4 == 0 then 1 else 0;
    assert (year + 100) / 100 == (year + 99) / 100 + if year % 100 == 0 then 1 else 0;
    assert (year + 400) / 400 == (year + 399) / 400 + if year % 400 == 0 then 1 else 0;
  }

  lemma LeapsIn400(year: nat)
    ensures LeapsBefore(year + 400) == LeapsBefore(year) + 97
  {
    assert (year + 403) / 4 == (year + 3) / 4 + 100;
    assert (year + 499) / 100 == (year + 99) / 100 + 4;
    assert (year + 799) / 400 == (year + 399) / 400 + 1;
  }

  /** The first day of a year: 365 days for each year before it and one for each leap year. */
  lemma {:induction false} YearStart(year: nat)
    ensures MonthStart(12 * year) == 365 * year + LeapsBefore(year)
  {
    if year > 0 {
      YearStart(year - 1);
      YearLength(year - 1);
      NextLeap(year - 1);
    }
  }

  /** 400 years from any January are 146097 days. */
  lemma FourCenturies(year: nat)
    ensures MonthStart(12 * (year + 400)) == MonthStart(12 * year) + 146097
  {
    YearStart(year);
    YearStart(year + 400);
    LeapsIn400(year);
  }

  /** The first day of each month, counted from the first of January. */
  lemma {:induction false} MonthInYear(year: nat, i: nat)
    requires i < 12
    ensures MonthStart(12 * year + i) - MonthStart(12 * year)
         == [0, 31, 59, 90, 120, 151, 181, 212, 243, 273, 304, 334][i] + if i >= 2 && IsLeap(year) then 1 else 0
  {
    if i > 0 {
      MonthInYear(year, i - 1);
      MonthDays(year, i - 1);
    }
  }

  lemma HalfYear(m: nat)
    ensures MonthStart(m + 6)
         == MonthStart(m) + DaysIn(m) + DaysIn(m + 1) + DaysIn(m + 2) + DaysIn(m + 3) + DaysIn(m + 4) + DaysIn(m + 5)
  {
    QuarterLength(m);
    QuarterLength(m + 3);
  }

  lemma QuarterLength(m: nat)
    ensures MonthStart(m + 3) == MonthStart(m) + DaysIn(m) + DaysIn(m + 1) + DaysIn(m + 2)
  {
    assert MonthStart(m + 1) == MonthStart(m) + DaysIn(m);
    assert MonthStart(m + 2) == MonthStart(m + 1) + DaysIn(m + 1);
  }

  /** The first month at or after from that has not ended before the day. */
  function MonthFrom(day: int, from: nat): (m: nat)
    requires MonthStart(from) <= day
    ensures MonthStart(m) <= day < MonthStart(m + 1)
    decreases day - MonthStart(from)
  {
    if day < MonthStart(from + 1) then from else MonthFrom(day, from + 1)
  }

  /** The month a day lies in. */
  function MonthOf(day: nat): (m: nat)
    ensures MonthStart(m) <= day < MonthStart(m + 1)
  {
    MonthFrom(day, 0)
  }

  lemma MonthOfUnique(day: nat, m: nat)
    requires MonthStart(m) <= day < MonthStart(m + 1)
    ensures MonthOf(day) == m
  {
    var k := MonthOf(day);
    if k < m {
      MonthsInOrder(k, m);
    } else if m < k {
      MonthsInOrder(m, k);
    }
  }

  function YearOf(day: nat): nat
  {
    MonthOf(day) / 12
  }

  // ------------------------------------------------------------------ periods

  /** The open period made of one whole month. */
  function MonthPeriod(company: Id, month: nat): Period
  {
    Period(company, MonthStart(month), MonthStart(month + 1) - 1, Open)
  }

  /** Period i is the whole of month from + i, whatever its status. */
  predicate Tiles(periods: seq<Period>, company: Id, from: nat)
  {
    forall i :: 0 <= i < |periods| ==> periods[i].(status := Open) == MonthPeriod(company, from + i)
  }

  lemma StartsInOrder(a: nat, b: nat)
    requires a <= b
    ensures MonthStart(a) <= MonthStart(b)
  {
    if a < b {
      MonthsInOrder(a, b);
    }
  }

  /** A period that covers a date is the one of the date's month. */
  lemma CoveredMonth(periods: seq<Period>, company: Id, from: nat, date: nat, i: nat)
    requires Tiles(periods, company, from) && i < |periods| && Covers(periods[i], company, date)
    ensures MonthOf(date) == from + i && MonthStart(from) <= date < MonthStart(from + |periods|)
  {
    assert periods[i].(status := Open) == MonthPeriod(company, from + i);
    MonthOfUnique(date, from + i);
    StartsInOrder(from, from + i);
    StartsInOrder(from + i + 1, from + |periods|);
  }

  /** The periods tile an unbroken stretch of days: each covered date lies in exactly
      one of them, the period the ledger finds, and no other date is covered. */
  lemma ExactlyOnePeriod(periods: seq<Period>, company: Id, from: nat, date: nat)
    requires Tiles(periods, company, from)
    ensures MonthStart(from) <= date < MonthStart(from + |periods|) <==> FindPeriod(periods, company, date).Some?
    ensures forall i, j :: 0 <= i < |periods| && 0 <= j < |periods| ==>
      (Covers(periods[i], company, date) && Covers(periods[j], company, date) ==> i == j)
    ensures FindPeriod(periods, company, date).Some? ==>
      FindPeriod(periods, company, date).value == MonthOf(date) - from
  {
    forall i | 0 <= i < |periods| && Covers(periods[i], company, date)
      ensures i == MonthOf(date) - from && MonthStart(from) <= date < MonthStart(from + |periods|)
    {
      CoveredMonth(periods, company, from, date, i);
    }
    if MonthStart(from) <= date < MonthStart(from + |periods|) {
      var m := MonthOf(date);
      if m < from {
        StartsInOrder(m + 1, from);
      } else if m >= from + |periods| {
        StartsInOrder(from + |periods|, m);
      }
      assert Covers(periods[m - from], company, date);
    }
  }

  datatype FiscalYear = FiscalYear(first: int, last: int)

  /** The period the services create for a month: from its first day to day 0 of the next. */
  function NewPeriod(company: Id, year: nat, month: nat): (p: Period)
    ensures p == MonthPeriod(company, 12 * year + month)
  {
    Period(company, Utc(year, month, 1), Utc(year, month + 1, 0), Open)
  }

  /** The first monthly periods of a calendar year, all open. */
  function YearPeriods(company: Id, year: nat, months: nat): (r: seq<Period>)
    ensures |r| == months
    ensures forall i :: 0 <= i < months ==> r[i] == MonthPeriod(company, 12 * year + i)
  {
    if months == 0 then []
    else
      var before := YearPeriods(company, year, months - 1);
      before + [NewPeriod(company, year, months - 1)]
  }

  /** The year that starts last; findFirst with the start date descending. */
  function Latest(years: seq<FiscalYear>): (r: FiscalYear)
    requires years != []
    ensures r in years && forall y :: y in years ==> y.first <= r.first
  {
    if |years| == 1 then years[0]
    else
      var r := Latest(years[..|years| - 1]);
      var y := years[|years| - 1];
      assert years == years[..|years| - 1] + [y];
      if y.first > r.first then y else r
  }

  /** A calendar year, from January 1 to December 31. */
  function NewYear(year: nat): FiscalYear
  {
    FiscalYear(Utc(year, 0, 1), Utc(year, 11, 31))
  }

  /** A fiscal year covers exactly the days its twelve periods cover. */
  lemma YearIsItsMonths(company: Id, year: nat)
    ensures var months := YearPeriods(company, year, 12);
      NewYear(year).first == months[0].first && NewYear(year).last == months[11].last
    ensures NewYear(year).first == MonthStart(12 * year) && NewYear(year).last == MonthStart(12 * (year + 1)) - 1
  {
    MonthInYear(year, 11);
    MonthDays(year, 11);
  }

  predicate Consecutive(years: seq<FiscalYear>, from: nat)
  {
    forall i :: 0 <= i < |years| ==> years[i] == NewYear(from + i)
  }

  lemma YearsInOrder(a: nat, b: nat)
    requires a < b
    ensures NewYear(a).first < NewYear(b).first
  {
    MonthsInOrder(12 * a, 12 * b);
  }

  /** getUTCFullYear() of a fiscal year's start date. */
  function StartYear(y: FiscalYear): nat
  {
    if y.first < 0 then 0 else YearOf(y.first)
  }

  lemma StartYearOf(year: nat)
    ensures StartYear(NewYear(year)) == year
  {
    MonthOfUnique(MonthStart(12 * year), 12 * year);
  }

  predicate Rising(years: seq<FiscalYear>)
  {
    forall i, j :: 0 <= i < j < |years| ==> years[i].first < years[j].first
  }

  lemma LatestOfRising(years: seq<FiscalYear>)
    requires Rising(years) && years != []
    ensures Latest(years) == years[|years| - 1]
  {
    assert years[|years| - 1] in years;
  }

  lemma ConsecutiveRises(years: seq<FiscalYear>, from: nat)
    requires Consecutive(years, from)
    ensures Rising(years)
  {
    forall i, j | 0 <= i < j < |years|
      ensures years[i].first < years[j].first
    {
      YearsInOrder(from + i, from + j);
    }
  }

  /** The latest of consecutive years is the last one. */
  lemma LatestYear(years: seq<FiscalYear>, from: nat)
    requires Consecutive(years, from) && years != []
    ensures Latest(years) == NewYear(from + |years| - 1)
  {
    ConsecutiveRises(years, from);
    LatestOfRising(years);
  }

  lemma ConsecutiveExtend(years: seq<FiscalYear>, from: nat)
    requires Consecutive(years, from)
    ensures Consecutive(years + [NewYear(from + |years|)], from)
  {
  }

  /** A further year's periods extend the tiling without gap or overlap. */
  lemma TilesExtend(periods: seq<Period>, company: Id, from: nat, years: nat)
    requires Tiles(periods, company, 12 * from) && |periods| == 12 * years
    ensures Tiles(periods + YearPeriods(company, from + years, 12), company, 12 * from)
  {
    var more := YearPeriods(company, from + years, 12);
    forall i | 0 <= i < |periods + more|
      ensures (periods + more)[i].(status := Open) == MonthPeriod(company, 12 * from + i)
    {
      if i >= |periods| {
        assert 12 * (from + years) + (i - |periods|) == 12 * from + i;
      }
    }
  }

  /** What Valid() says of a calendar's tables. */
  ghost predicate Coherent(years: seq<FiscalYear>, periods: seq<Period>, company: Id, from: nat)
  {
    Consecutive(years, from) && |periods| == 12 * |years| && Tiles(periods, company, 12 * from)
  }

  lemma YearExtends(years: seq<FiscalYear>, periods: seq<Period>, company: Id, from: nat)
    requires Coherent(years, periods, company, from)
    ensures var year := from + |years|;
      Coherent(years + [NewYear(year)], periods + YearPeriods(company, year, 12), company, from)
  {
    TilesExtend(periods, company, from, |years|);
    ConsecutiveExtend(years, from);
  }

  /** One company's fiscal years and periods. */
  class FiscalCalendar {
    const company: Id
    var years: seq<FiscalYear>
    var periods: seq<Period>
    ghost var firstYear: nat

    /** Consecutive calendar years, cut into the months that tile them. */
    ghost predicate Valid()
      reads this
    {
      Coherent(years, periods, company, firstYear)
    }

    constructor (company: Id)
      ensures Valid() && years == [] && this.company == company
    {
      this.company := company;
      years, periods := [], [];
      firstYear := 0;
    }

    /** The year after the latest one, or the clock's year on an empty calendar. */
    method NextYear(clockYear: nat) returns (year: nat)
      requires Valid()
      ensures year == if years == [] then clockYear else firstYear + |years|
    {
      if years == [] {
        return clockYear;
      }
      LatestYear(years, firstYear);
      StartYearOf(firstYear + |years| - 1);
      year := StartYear(Latest(years)) + 1;
    }

    /** createNextFiscalYear(), and on an empty calendar the provisioning of the clock's year. */
    method CreateNextFiscalYear(clockYear: nat) returns (year: nat)
      requires Valid()
      modifies this
      ensures Valid()
      ensures firstYear == if old(years) == [] then clockYear else old(firstYear)
      ensures year == firstYear + |old(years)|
      ensures years == old(years) + [NewYear(year)]
      ensures periods == old(periods) + YearPeriods(company, year, 12)
    {
      year := NextYear(clockYear);
      if years == [] {
        firstYear := clockYear;
      }
      YearExtends(years, periods, company, firstYear);
      years := years + [NewYear(year)];
      AddMonths(year);
    }

    /** The month loop: one period per month. */
    method AddMonths(year: nat)
      modifies this`periods
      ensures periods == old(periods) + YearPeriods(company, year, 12)
    {
      var month := 0;
      while month < 12
        invariant month <= 12
        invariant periods == old(periods) + YearPeriods(company, year, month)
      {
        periods := periods + [NewPeriod(company, year, month)];
        month := month + 1;
      }
    }

    method SetPeriodStatus(i: nat, s: PeriodStatus) returns (r: Result<nat>)
      requires Valid()
      modifies this`periods
      ensures Valid()
      ensures if i < |old(periods)| then r == Ok(i) && periods == old(periods)[i := old(periods)[i].(status := s)]
              else r == Err(NotFound) && periods == old(periods)
    {
      if i >= |periods| {
        return Err(NotFound);
      }
      periods := periods[i := periods[i].(status := s)];
      r := Ok(i);
    }
  }
}
