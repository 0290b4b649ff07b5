/** Invoice totals, payroll totals and depreciation schedules: the loops that
    round amounts to cents before anything is posted. */
module Invoicing {
  import opened Base
  import opened Sums
  import opened Money

  /** One rate of a tax code: in effect from a day, until a day or for good. */
  datatype TaxRate = TaxRate(from: int, until: Option<int>, percent: real)

  predicate InEffect(r: TaxRate, date: int)
  {
    r.from <= date && (r.until.None? || date <= r.until.value)
  }

  /** The rate in effect that started last, if any; its first and its last day included. */
  function CurrentRate(rates: seq<TaxRate>, date: int): (r: Option<TaxRate>)
    ensures r.Some? ==> r.value in rates && r.value.from <= date
    ensures r.Some? && r.value.until.Some? ==> date <= r.value.until.value
    ensures forall x :: x in rates && x.from <= date && (x.until.Some? ==> date <= x.until.value) ==>
      r.Some? && x.from <= r.value.from
  {
    if rates == [] then None
    else
      var n := |rates| - 1;
      var best := CurrentRate(rates[..n], date);
      assert rates == rates[..n] + [rates[n]];
      if InEffect(rates[n], date) && (best.None? || best.value.from < rates[n].from) then Some(rates[n]) else best
  }

  /** Zero for no tax code, or a code without a rate in effect. */
  function RatePercent(rates: seq<TaxRate>, date: int): real
  {
    var r := CurrentRate(rates, date);
    if r.Some? then r.value.percent else 0.0
  }

  /** The percentage is that of a rate in effect on the date that no other one in effect
      starts after, and zero exactly when there is none or its percentage is zero. */
  lemma RateIs(rates: seq<TaxRate>, date: int)
    ensures if exists x :: x in rates && x.from <= date && (x.until.Some? ==> date <= x.until.value)
            then exists x :: && x in rates && x.from <= date && (x.until.Some? ==> date <= x.until.value)
                             && x.percent == RatePercent(rates, date)
                             && forall y :: y in rates && y.from <= date && (y.until.Some? ==> date <= y.until.value)
                                  ==> y.from <= x.from
            else RatePercent(rates, date) == 0.0
  {
    var r := CurrentRate(rates, date);
    if r.Some? {
      assert r.value in rates;
    }
  }

  /** An invoice line as submitted: quantity, unit price in cents, and the rates of its tax code. */
  datatype Item = Item(quantity: real, unitPrice: real, rates: seq<TaxRate>)

  function Gross(l: Item): real
  {
    l.quantity * l.unitPrice
  }

  function LineTotal(l: Item): Cents
  {
    HalfUp(Gross(l))
  }

  function TaxOn(amount: real, percent: real): real
  {
    amount * percent / 100.0
  }

  /** The tax on an amount already rounded to cents. */
  function TaxCents(exact: real, percent: real): Cents
  {
    HalfUp(TaxOn(HalfUp(exact) as real, percent))
  }

  function LineTax(l: Item, date: int): Cents
  {
    TaxCents(Gross(l), RatePercent(l.rates, date))
  }

  function LineTotals(): Item -> int
  {
    (l: Item) => LineTotal(l)
  }

  function LineTaxes(date: int): Item -> int
  {
    (l: Item) => LineTax(l, date)
  }

  /** What a line comes to before any rounding: its price and the tax on it. */
  function ExactLine(l: Item, date: int): real
  {
    l.quantity * l.unitPrice * (100.0 + RatePercent(l.rates, date)) / 100.0
  }

  function ExactLines(date: int): Item -> real
  {
    (l: Item) => ExactLine(l, date)
  }

  function RealSum<T>(s: seq<T>, f: T -> real): real
  {
    if s == [] then 0.0 else RealSum(s[..|s| - 1], f) + f(s[|s| - 1])
  }

  /** What the lines come to before any rounding. */
  function ExactTotal(lines: seq<Item>, date: int): real
  {
    RealSum(lines, ExactLines(date))
  }

  lemma TaxGap(a: real, b: real, percent: real)
    requires AbsReal(a - b) <= 0.5
    ensures AbsReal(TaxOn(a, percent) - TaxOn(b, percent)) <= AbsReal(percent) / 200.0
  {
    var d := a - b;
    assert TaxOn(a, percent) - TaxOn(b, percent) == d * percent / 100.0;
    ProductBound(d, percent);
  }

  lemma ProductBound(d: real, p: real)
    requires AbsReal(d) <= 0.5
    ensures AbsReal(d * p) <= AbsReal(p) / 2.0
  {
    if p >= 0.0 {
      assert -0.5 * p <= d * p <= 0.5 * p;
    } else {
      assert 0.5 * p <= d * p <= -0.5 * p;
    }
  }

  lemma AddGaps(a: real, x: real, b: real, u: real, v: real, room: real)
    requires AbsReal(a - x) <= 0.5 && AbsReal(b - u) <= 0.5 && AbsReal(u - v) <= room
    ensures AbsReal((a + b) - (x + v)) <= 1.0 + room
  {
  }

  /** Both amounts of a line, exactly: the line total is the price rounded to the cent, and
      the tax is the rate on that total rounded to the cent, halves upwards. */
  lemma LineIs(l: Item, date: int)
    ensures var (total, tax) := (LineTotal(l) as real, LineTax(l, date) as real);
      && total - 0.5 <= l.quantity * l.unitPrice < total + 0.5
      && 100.0 * tax - 50.0 <= total * RatePercent(l.rates, date) < 100.0 * tax + 50.0
  {
    HalfUpNearest(Gross(l));
    HalfUpNearest(TaxOn(LineTotal(l) as real, RatePercent(l.rates, date)));
  }

  /** Rounding an amount, then rounding the tax on the rounded amount. */
  lemma RoundedTaxGap(exact: real, percent: real)
    ensures AbsReal((HalfUp(exact) + TaxCents(exact, percent)) as real - exact * (100.0 + percent) / 100.0)
         <= 1.0 + AbsReal(percent) / 200.0
  {
    var total := HalfUp(exact) as real;
    HalfUpNearest(exact);
    HalfUpNearest(TaxOn(total, percent));
    TaxGap(total, exact, percent);
    AddGaps(total, exact, TaxCents(exact, percent) as real, TaxOn(total, percent), TaxOn(exact, percent),
            AbsReal(percent) / 200.0);
    assert exact * (100.0 + percent) / 100.0 == exact + TaxOn(exact, percent);
  }

  /** One line: rounded total plus rounded tax against the exact amount. */
  lemma LineGap(l: Item, date: int, r: real)
    requires AbsReal(RatePercent(l.rates, date)) <= r
    ensures AbsReal((LineTotal(l) + LineTax(l, date)) as real - ExactLine(l, date)) <= 1.0 + r / 200.0
  {
    RoundedTaxGap(Gross(l), RatePercent(l.rates, date));
  }

  /** n times the room one item has. */
  function Allowance(n: nat, room: real): (a: real)
    ensures a == n as real * room
  {
    if n == 0 then 0.0 else Allowance(n - 1, room) + room
  }

  predicate Near<T>(x: T, f: T -> int, h: T -> int, exact: T -> real, room: real)
  {
    AbsReal((f(x) + h(x)) as real - exact(x)) <= room
  }

  /** Two whole-cent parts that stay within some room of an exact amount item by
      item stay within that much room an item of the exact sum. */
  lemma {:induction false} SumGap<T>(s: seq<T>, f: T -> int, h: T -> int, exact: T -> real, room: real)
    requires forall i :: 0 <= i < |s| ==> Near(s[i], f, h, exact, room)
    ensures AbsReal((Sum(s, f) + Sum(s, h)) as real - RealSum(s, exact)) <= Allowance(|s|, room)
  {
    if s != [] {
      SumGap(s[..|s| - 1], f, h, exact, room);
      assert Near(s[|s| - 1], f, h, exact, room);
    }
  }

  predicate RatesWithin(lines: seq<Item>, date: int, r: real)
  {
    forall i :: 0 <= i < |lines| ==> AbsReal(RatePercent(lines[i].rates, date)) <= r
  }

  /** For any lines and rates, the total is within 1 + r/200 cents a line of the exact
      amount, where r is the largest rate. */
  lemma TotalGap(lines: seq<Item>, date: int, r: real)
    requires RatesWithin(lines, date, r)
    ensures AbsReal((Sum(lines, LineTotals()) + Sum(lines, LineTaxes(date))) as real - ExactTotal(lines, date))
         <= Allowance(|lines|, 1.0 + r / 200.0)
  {
    forall i | 0 <= i < |lines|
      ensures Near(lines[i], LineTotals(), LineTaxes(date), ExactLines(date), 1.0 + r / 200.0)
    {
      LineGap(lines[i], date, r);
    }
    SumGap(lines, LineTotals(), LineTaxes(date), ExactLines(date), 1.0 + r / 200.0);
  }

  /** Within that bound of the exact amount, whatever bound on the rates is chosen. */
  ghost predicate NearExact(lines: seq<Item>, date: int, total: Cents)
  {
    forall r: real :: RatesWithin(lines, date, r) ==>
      AbsReal(total as real - ExactTotal(lines, date)) <= Allowance(|lines|, 1.0 + r / 200.0)
  }

  lemma TotalNearExact(lines: seq<Item>, date: int)
    ensures NearExact(lines, date, Sum(lines, LineTotals()) + Sum(lines, LineTaxes(date)))
  {
    forall r: real | RatesWithin(lines, date, r)
      ensures AbsReal((Sum(lines, LineTotals()) + Sum(lines, LineTaxes(date))) as real - ExactTotal(lines, date))
           <= Allowance(|lines|, 1.0 + r / 200.0)
    {
      TotalGap(lines, date, r);
    }
  }

  /** The create() loop of both invoice services. The total is subtotal plus tax in
      whole cents, so what it posts balances exactly. */
  method InvoiceTotals(lines: seq<Item>, date: int)
    returns (subtotal: Cents, tax: Cents, total: Cents, lineTotals: seq<Cents>)
    ensures subtotal == Sum(lines, LineTotals()) && tax == Sum(lines, LineTaxes(date)) && total == subtotal + tax
    ensures |lineTotals| == |lines| && forall i :: 0 <= i < |lines| ==> lineTotals[i] == LineTotal(lines[i])
    ensures NearExact(lines, date, total)
  {
    subtotal, tax, lineTotals := 0, 0, [];
    var i := 0;
    while i < |lines|
      invariant i <= |lines| && |lineTotals| == i
      invariant subtotal == Sum(lines[..i], LineTotals()) && tax == Sum(lines[..i], LineTaxes(date))
      invariant forall j :: 0 <= j < i ==> lineTotals[j] == LineTotal(lines[j])
    {
      SumPrefix(lines, i, LineTotals());
      SumPrefix(lines, i, LineTaxes(date));
      var lineTotal := HalfUp(lines[i].quantity * lines[i].unitPrice);
      var rate := RatePercent(lines[i].rates, date);
      var lineTax := HalfUp(TaxOn(lineTotal as real, rate));
      assert lineTotal == LineTotal(lines[i]) && lineTax == LineTax(lines[i], date);
      subtotal := subtotal + lineTotal;
      tax := tax + lineTax;
      lineTotals := lineTotals + [lineTotal];
      i := i + 1;
    }
    assert lines[..i] == lines;
    total := subtotal + tax;
    TotalNearExact(lines, date);
  }

  // ------------------------------------------------------------------ payroll

  /** A salary structure of an employee, in effect from a day on. */
  datatype Structure = Structure(from: int, basic: Cents, allowances: Cents, deductions: Cents)

  /** The structure that started last by the end of the period, if any. */
  function CurrentStructure(structures: seq<Structure>, end: int): Option<Structure>
  {
    if structures == [] then None
    else
      var n := |structures| - 1;
      var best := CurrentStructure(structures[..n], end);
      if structures[n].from <= end && (best.None? || best.value.from < structures[n].from) then Some(structures[n])
      else best
  }

  /** It has started by then, no other one that has started by then starts later, and there
      is none exactly when none has started. */
  lemma {:induction false} StructureIs(structures: seq<Structure>, end: int)
    ensures var r := CurrentStructure(structures, end);
      && (r.Some? ==> r.value in structures && r.value.from <= end)
      && forall x :: x in structures && x.from <= end ==> r.Some? && x.from <= r.value.from
  {
    if structures != [] {
      var n := |structures| - 1;
      StructureIs(structures[..n], end);
      assert structures == structures[..n] + [structures[n]];
    }
  }

  datatype Slip = Slip(employee: nat, gross: Cents, deductions: Cents, net: Cents)

  function SlipFor(employee: nat, s: Structure): Slip
  {
    Slip(employee, s.basic + s.allowances, s.deductions, s.basic + s.allowances - s.deductions)
  }

  /** One payslip for each employee with a structure by the end of the period, in order. */
  function Slips(staff: seq<seq<Structure>>, end: int): seq<Slip>
  {
    if staff == [] then []
    else
      var n := |staff| - 1;
      var before, s := Slips(staff[..n], end), CurrentStructure(staff[n], end);
      if s.Some? then before + [SlipFor(n, s.value)] else before
  }

  function GrossPay(): Slip -> int
  {
    (s: Slip) => s.gross
  }

  function Deductions(): Slip -> int
  {
    (s: Slip) => s.deductions
  }

  function NetPay(): Slip -> int
  {
    (s: Slip) => s.net
  }

  /** Basic pay and allowances of an employee who has a structure by the end of the period. */
  function StaffGross(end: int): seq<Structure> -> int
  {
    (structures: seq<Structure>) =>
      match CurrentStructure(structures, end)
      case Some(s) => s.basic + s.allowances
      case None => 0
  }

  function StaffDeductions(end: int): seq<Structure> -> int
  {
    (structures: seq<Structure>) =>
      match CurrentStructure(structures, end)
      case Some(s) => s.deductions
      case None => 0
  }

  /** Somebody has a structure that starts by the end of the period. */
  ghost predicate AnyStructure(staff: seq<seq<Structure>>, end: int)
  {
    exists i :: 0 <= i < |staff| && exists s :: s in staff[i] && s.from <= end
  }

  /** There is no payslip exactly when nobody has a structure by the end of the period. */
  lemma {:induction false} SlipsNoneIff(staff: seq<seq<Structure>>, end: int)
    ensures Slips(staff, end) != [] <==> AnyStructure(staff, end)
  {
    if staff != [] {
      var n := |staff| - 1;
      SlipsNoneIff(staff[..n], end);
      var s := CurrentStructure(staff[n], end);
      StructureIs(staff[n], end);
      if s.Some? {
        assert s.value in staff[n];
      } else if AnyStructure(staff, end) {
        var i :| 0 <= i < |staff| && exists s :: s in staff[i] && s.from <= end;
        assert staff[..n][i] == staff[i];
      }
      if AnyStructure(staff[..n], end) {
        var i :| 0 <= i < n && exists s :: s in staff[..n][i] && s.from <= end;
        assert staff[i] == staff[..n][i];
      }
    }
  }

  /** The payslips add up to the pay, allowances and deductions of the employees who have a
      structure by the end of the period. */
  lemma {:induction false} SlipsTotal(staff: seq<seq<Structure>>, end: int)
    ensures Sum(Slips(staff, end), GrossPay()) == Sum(staff, StaffGross(end))
    ensures Sum(Slips(staff, end), Deductions()) == Sum(staff, StaffDeductions(end))
    ensures Sum(Slips(staff, end), NetPay()) == Sum(staff, StaffGross(end)) - Sum(staff, StaffDeductions(end))
  {
    if staff != [] {
      var n := |staff| - 1;
      SlipsTotal(staff[..n], end);
      var s := CurrentStructure(staff[n], end);
      if s.Some? {
        SlipAdds(Slips(staff[..n], end), SlipFor(n, s.value));
      }
    }
  }

  /** One more employee adds a payslip, or nothing. */
  lemma SlipsNext(staff: seq<seq<Structure>>, end: int, i: nat, s: Option<Structure>)
    requires i < |staff| && s == CurrentStructure(staff[i], end)
    ensures var before := Slips(staff[..i], end);
      Slips(staff[..i + 1], end) == if s.Some? then before + [SlipFor(i, s.value)] else before
  {
    assert staff[..i + 1][..i] == staff[..i];
  }

  lemma SlipAdds(slips: seq<Slip>, s: Slip)
    ensures Sum(slips + [s], GrossPay()) == Sum(slips, GrossPay()) + s.gross
    ensures Sum(slips + [s], Deductions()) == Sum(slips, Deductions()) + s.deductions
    ensures Sum(slips + [s], NetPay()) == Sum(slips, NetPay()) + s.net
  {
    SumAppend(slips, s, GrossPay());
    SumAppend(slips, s, Deductions());
    SumAppend(slips, s, NetPay());
  }

  /** The payroll run's loop: employees without a structure are skipped, a run without
      payslips is refused, and the totals are those of the structures in effect. */
  method PayrollTotals(staff: seq<seq<Structure>>, end: int) returns (r: Result<(seq<Slip>, Cents, Cents, Cents)>)
    ensures if AnyStructure(staff, end) then r.Ok? else r == Err(NothingToDo)
    ensures r.Ok? ==> r.value.0 == Slips(staff, end) && r.value.1 == Sum(staff, StaffGross(end))
    ensures r.Ok? ==> r.value.2 == Sum(staff, StaffDeductions(end)) && r.value.1 == r.value.3 + r.value.2
  {
    var slips: seq<Slip> := [];
    var gross, deductions, net := 0, 0, 0;
    var i := 0;
    while i < |staff|
      invariant i <= |staff| && slips == Slips(staff[..i], end)
      invariant gross == Sum(slips, GrossPay()) && deductions == Sum(slips, Deductions()) && net == Sum(slips, NetPay())
    {
      var structure := CurrentStructure(staff[i], end);
      SlipsNext(staff, end, i, structure);
      if structure.Some? {
        var s := SlipFor(i, structure.value);
        SlipAdds(slips, s);
        gross := gross + s.gross;
        deductions := deductions + s.deductions;
        net := net + s.net;
        slips := slips + [s];
      }
      i := i + 1;
    }
    assert staff[..i] == staff;
    SlipsTotal(staff, end);
    SlipsNoneIff(staff, end);
    r := if slips == [] then Err(NothingToDo) else Ok((slips, gross, deductions, net));
  }
}

/** Straight-line depreciation: one row per month, the last one taking what is left. */
module FixedAssets {
  import opened Base
  import opened Sums
  import opened Money
  import opened Journal
  import opened Calendar

  datatype Instalment = Instalment(periodNo: nat, date: int, amount: Cents)

  /** round2(amount / n): the nearest cent, halves towards positive infinity. */
  function Monthly(depreciable: Cents, n: nat): Cents
    requires n > 0
  {
    (2 * depreciable + n) / (2 * n)
  }

  lemma CastProduct(a: nat, b: int)
    ensures (a * b) as real == a as real * b as real
  {
  }

  lemma MonthlyIsHalfUp(depreciable: Cents, n: nat)
    requires n > 0
    ensures Monthly(depreciable, n) == HalfUp(depreciable as real / n as real)
  {
    var q := Monthly(depreciable, n);
    var x := depreciable as real / n as real;
    assert x * n as real == depreciable as real;
    assert 2 * n * q <= 2 * depreciable + n < 2 * n * q + 2 * n;
    FloorIs(x, n, q, depreciable);
  }

  lemma Shift(r: real, y: real, c: real)
    ensures r * (y + c) == r * y + r * c
  {
  }

  lemma FloorIs(x: real, n: nat, q: int, depreciable: Cents)
    requires n > 0 && x * n as real == depreciable as real
    requires 2 * n * q <= 2 * depreciable + n < 2 * n * q + 2 * n
    ensures (x + 0.5).Floor == q
  {
    var r, y := n as real, q as real;
    var nq := n * q;
    assert 2 * n * q == 2 * nq;
    CastProduct(n, q);
    Shift(r, x, 0.5);
    Shift(r, y, 1.0);
    assert r * x == depreciable as real;
    assert r * y == nq as real;
    Between(r, y, x + 0.5, y + 1.0);
  }

  lemma Between(k: real, a: real, b: real, c: real)
    requires k > 0.0 && k * a <= k * b < k * c
    ensures a <= b < c
  {
    if b < a {
      Scale(k, b, a);
    }
    if c < b {
      Scale(k, c, b);
    }
  }

  lemma Scale(k: real, a: real, b: real)
    requires k > 0.0 && a < b
    ensures k * a < k * b
  {
  }

  /** The last day of the i-th month counted from the month of acquisition. */
  function MonthEnd(acquired: nat, i: nat): int
  {
    Utc(YearOf(acquired), MonthOf(acquired) % 12 + i, 0)
  }

  function Amounts(): Instalment -> int
  {
    (r: Instalment) => r.amount
  }

  /** The monthly amount, except that the last one closes the sum. */
  function AmountAt(depreciable: Cents, n: nat, i: nat): Cents
    requires 1 <= i <= n
  {
    if i == n then depreciable - (n - 1) * Monthly(depreciable, n) else Monthly(depreciable, n)
  }

  /** Row i of n. */
  function RowAt(depreciable: Cents, n: nat, acquired: nat, i: nat): Instalment
    requires 1 <= i <= n
  {
    Instalment(i, MonthEnd(acquired, i), AmountAt(depreciable, n, i))
  }

  /** The create() loop. */
  method CreateSchedule(depreciable: Cents, n: nat, acquired: nat) returns (rows: seq<Instalment>)
    requires n >= 1
    ensures |rows| == n && forall i :: 1 <= i <= n ==> rows[i - 1] == RowAt(depreciable, n, acquired, i)
    ensures Sum(rows, Amounts()) == depreciable
  {
    var monthly := Monthly(depreciable, n);
    var accumulated := 0;
    rows := [];
    var i := 1;
    while i <= n
      invariant 1 <= i <= n + 1 && |rows| == i - 1
      invariant accumulated == Sum(rows, Amounts())
      invariant accumulated == if i <= n then (i - 1) * monthly else depreciable
      invariant forall j :: 1 <= j < i ==> rows[j - 1] == RowAt(depreciable, n, acquired, j)
    {
      var amount := if i == n then depreciable - accumulated else monthly;
      var row := Instalment(i, MonthEnd(acquired, i), amount);
      SumAppend(rows, row, Amounts());
      assert i < n ==> i * monthly == (i - 1) * monthly + monthly;
      accumulated := accumulated + amount;
      rows := rows + [row];
      i := i + 1;
    }
  }

  /** The last amount is within (n - 1)/2 cents of the exact monthly share, and so
      cannot be negative when the depreciable amount is at least n(n - 1)/2 cents. */
  lemma LastAmount(depreciable: Cents, n: nat)
    requires n >= 1
    ensures var last := AmountAt(depreciable, n, n);
      && 2 * Abs(n * last - depreciable) <= n * (n - 1)
      && (2 * depreciable >= n * (n - 1) ==> last >= 0)
  {
    var m := Monthly(depreciable, n);
    var last := depreciable - (n - 1) * m;
    MonthlyGap(depreciable, n);
    ScaledLast(depreciable, n, m);
    GapTimes(n - 1, depreciable - n * m, n);
    if 2 * depreciable >= n * (n - 1) && last < 0 {
      NegativeTimes(n, last);
    }
  }

  /** n times the last amount misses the depreciable amount by n - 1 times the rounding of one month. */
  lemma ScaledLast(depreciable: Cents, n: nat, m: int)
    ensures n * (depreciable - (n - 1) * m) - depreciable == (n - 1) * (depreciable - n * m)
  {
    var all := n * m;
    assert (n - 1) * m == all - m;
    assert n * (depreciable - (all - m)) == n * depreciable - n * all + n * m;
    assert (n - 1) * (depreciable - all) == n * (depreciable - all) - (depreciable - all);
    assert n * (depreciable - all) == n * depreciable - n * all;
  }

  lemma MonthlyGap(depreciable: Cents, n: nat)
    requires n > 0
    ensures 2 * Abs(depreciable - n * Monthly(depreciable, n)) <= n
  {
    var x, q := 2 * depreciable + n, Monthly(depreciable, n);
    assert x == 2 * n * q + x % (2 * n);
    assert 2 * n * q == 2 * (n * q);
  }

  lemma GapTimes(k: nat, gap: int, n: nat)
    requires 2 * Abs(gap) <= n
    ensures 2 * Abs(k * gap) <= n * k
  {
    assert Abs(k * gap) == k * Abs(gap);
    assert k * (2 * Abs(gap)) <= k * n;
  }

  lemma NegativeTimes(n: nat, x: int)
    requires n > 0 && x < 0
    ensures n * x < 0
  {
  }

  lemma NextMultiple(m: nat, a: int, b: int)
    requires a < b
    ensures m * a + m <= m * b
  {
    assert m * b == m * a + m * (b - a);
    assert m * (b - a) == m + m * (b - a - 1);
  }

  lemma QuotientIs(x: int, m: nat, q: int)
    requires m > 0 && m * q <= x < m * q + m
    ensures x / m == q
  {
    var p := x / m;
    assert x == m * p + x % m;
    if p < q {
      NextMultiple(m, p, q);
    } else if p > q {
      NextMultiple(m, q, p);
    }
  }

  /** The last amount in closed form, from the quotient and the remainder of the
      depreciable amount by the number of months. */
  lemma LastIs(depreciable: Cents, n: nat)
    requires n >= 1
    ensures var (q, r) := (depreciable / n, depreciable % n);
      AmountAt(depreciable, n, n) == if 2 * r < n then q + r else q + r - (n - 1)
  {
    var q, r := depreciable / n, depreciable % n;
    var m := if 2 * r < n then q else q + 1;
    assert depreciable == n * q + r;
    assert 2 * n * q == 2 * (n * q) && 2 * n * (q + 1) == 2 * (n * q) + 2 * n;
    QuotientIs(2 * depreciable + n, 2 * n, m);
    assert (n - 1) * q == n * q - q;
    assert (n - 1) * (q + 1) == n * q - q + (n - 1);
  }

  /** Exactly when the last row is not negative. */
  lemma LastNotNegativeIff(depreciable: Cents, n: nat)
    requires n >= 1
    ensures var (q, r) := (depreciable / n, depreciable % n);
      AmountAt(depreciable, n, n) >= 0 <==> (2 * r < n && q + r >= 0) || (2 * r >= n && q + r >= n - 1)
  {
    LastIs(depreciable, n);
  }

  /** 6 cents over 10 months fail that condition. */
  lemma LastAmountCanBeNegative()
    ensures AmountAt(6, 10, 10) == -3
  {
  }

  /** Row i falls on the last day of the i-th month, the month of acquisition being the first. */
  lemma MonthEndIsLastDay(acquired: nat, i: nat)
    requires i >= 1
    ensures MonthEnd(acquired, i) == MonthStart(MonthOf(acquired) + i) - 1
    ensures MonthEnd(acquired, i) >= 0 && MonthOf(MonthEnd(acquired, i)) == MonthOf(acquired) + i - 1
  {
    var a := MonthOf(acquired);
    assert 12 * (a / 12) + (a % 12 + i) == a + i;
    assert MonthStart(a + i) == MonthStart(a + i - 1) + DaysIn(a + i - 1);
    MonthOfUnique(MonthStart(a + i) - 1, a + i - 1);
  }

  /** The rows' dates are consecutive month-ends, so no two share an accounting period. */
  lemma RowsInDifferentPeriods(acquired: nat, i: nat, j: nat, periods: seq<Period>, company: Id, from: nat, p: nat)
    requires 1 <= i < j && Tiles(periods, company, from) && p < |periods|
    ensures MonthEnd(acquired, i) < MonthEnd(acquired, j)
    ensures !(Covers(periods[p], company, MonthEnd(acquired, i)) && Covers(periods[p], company, MonthEnd(acquired, j)))
  {
    MonthEndIsLastDay(acquired, i);
    MonthEndIsLastDay(acquired, j);
    MonthsInOrder(MonthOf(acquired) + i, MonthOf(acquired) + j);
    if Covers(periods[p], company, MonthEnd(acquired, i)) && Covers(periods[p], company, MonthEnd(acquired, j)) {
      CoveredMonth(periods, company, from, MonthEnd(acquired, i), p);
      CoveredMonth(periods, company, from, MonthEnd(acquired, j), p);
    }
  }
}
