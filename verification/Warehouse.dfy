/** The inventory service as an object that updates its two tables in place. */
module Inventory {
  import opened Base
  import opened Stock

  class InventoryService {
    var moves: seq<Move>
    var balances: map<Slot, Holding>

    function State(): Store
      reads this
    {
      Store(moves, balances)
    }

    constructor ()
      ensures Tracks(State()) && State() == Store([], map[])
    {
      moves, balances := [], map[];
    }

    method RecordStockIn(slot: Slot, quantity: int, unitCost: int) returns (r: Result<int>)
      requires Tracks(State())
      modifies this
      ensures Tracks(State())
      ensures var spec := StockIn(old(State()), slot, quantity, unitCost);
        if spec.Ok? then State() == spec.value && r == Ok(balances[slot].average)
        else State() == old(State()) && r == Err(spec.error)
    {
      if quantity <= 0 {
        return Err(NotPositive);
      }
      StockInTracks(State(), slot, quantity, unitCost);
      moves := moves + [Move(slot, In, quantity, unitCost)];
      var existing := HoldingOf(balances, slot);
      var newQty := existing.onHand + quantity;
      var value := existing.onHand * existing.average + quantity * unitCost;
      var newAvg := if newQty > 0 then RoundRatio(value, newQty) else 0;
      balances := balances[slot := Holding(newQty, newAvg)];
      r := Ok(newAvg);
    }

    method RecordStockOut(slot: Slot, quantity: int) returns (r: Result<int>)
      requires Tracks(State())
      modifies this
      ensures Tracks(State())
      ensures var spec := StockOut(old(State()), slot, quantity);
        if spec.Ok? then State() == spec.value.0 && r == Ok(spec.value.1)
        else State() == old(State()) && r == Err(spec.error)
    {
      if quantity <= 0 {
        return Err(NotPositive);
      }
      var balance := HoldingOf(balances, slot);
      if balance.onHand < quantity {
        return Err(InsufficientStock);
      }
      StockOutTracks(State(), slot, quantity);
      moves := moves + [Move(slot, Out, -quantity, balance.average)];
      balances := balances[slot := balance.(onHand := balance.onHand - quantity)];
      r := Ok(balance.average * quantity);
    }

    method RecordAdjustment(slot: Slot, system: int, counted: int) returns (value: int)
      modifies this
      ensures (State(), value) == Adjust(old(State()), slot, system, counted)
      ensures old(Tracks(State())) ==> (Tracks(State()) <==> slot in old(balances) || system == 0 || counted == system)
    {
      if Tracks(State()) {
        AdjustTracksIff(State(), slot, system, counted);
      }
      var delta := counted - system;
      if delta == 0 {
        return 0;
      }
      var balance := HoldingOf(balances, slot);
      moves := moves + [Move(slot, Adjustment, delta, balance.average)];
      if slot in balances {
        balances := balances[slot := balance.(onHand := balance.onHand + delta)];
      } else {
        balances := balances[slot := Holding(counted, balance.average)];
      }
      value := delta * balance.average;
    }
  }
}

/** A delivery draws its lines one by one, each checked against what the lines
    before it left. */
module Drawing {
  import opened Base
  import opened Sums
  import opened Stock

  datatype DrawLine = DrawLine(product: Id, quantity: int)

  /** The store and the total cost after drawing every line, or the first refusal. */
  function DrawAll(st: Store, warehouse: Id, lines: seq<DrawLine>): Result<(Store, int)>
  {
    if lines == [] then Ok((st, 0))
    else
      var before := DrawAll(st, warehouse, lines[..|lines| - 1]);
      var l := lines[|lines| - 1];
      if before.Err? then before
      else
        var out := StockOut(before.value.0, Slot(warehouse, l.product), l.quantity);
        if out.Err? then Err(out.error) else Ok((out.value.0, before.value.1 + out.value.1))
  }

  function WantedOf(product: Id): DrawLine -> int
  {
    (l: DrawLine) => if l.product == product then l.quantity else 0
  }

  /** What the lines ask for of one product, all together. */
  function Wanted(lines: seq<DrawLine>, product: Id): int
  {
    Sum(lines, WantedOf(product))
  }

  function CostOf(st: Store, warehouse: Id): DrawLine -> int
  {
    (l: DrawLine) => HoldingOf(st.balances, Slot(warehouse, l.product)).average * l.quantity
  }

  function OnHand(st: Store, warehouse: Id, product: Id): int
  {
    HoldingOf(st.balances, Slot(warehouse, product)).onHand
  }

  /** The moves a delivery records are worth minus its cost. */
  lemma {:induction false} DrawValue(st: Store, warehouse: Id, lines: seq<DrawLine>)
    requires DrawAll(st, warehouse, lines).Ok?
    ensures var (after, cost) := DrawAll(st, warehouse, lines).value;
      Sum(after.moves, IssuedValue()) == Sum(st.moves, IssuedValue()) - cost
  {
    if lines != [] {
      var l := lines[|lines| - 1];
      DrawValue(st, warehouse, lines[..|lines| - 1]);
      var before := DrawAll(st, warehouse, lines[..|lines| - 1]).value.0;
      var h := HoldingOf(before.balances, Slot(warehouse, l.product));
      SumAppend(before.moves, Move(Slot(warehouse, l.product), Out, -l.quantity, h.average), IssuedValue());
      NegatedCost(l.quantity, h.average);
    }
  }

  lemma NegatedCost(quantity: int, average: int)
    ensures -quantity * average == -(average * quantity)
  {
  }

  predicate Positive(lines: seq<DrawLine>)
  {
    forall i :: 0 <= i < |lines| ==> lines[i].quantity > 0
  }

  /** For each product it names, the whole delivery is in stock. */
  predicate InStock(st: Store, warehouse: Id, lines: seq<DrawLine>)
  {
    forall i :: 0 <= i < |lines| ==> Wanted(lines, lines[i].product) <= OnHand(st, warehouse, lines[i].product)
  }

  lemma {:induction false} DrawKeepsTracks(st: Store, warehouse: Id, lines: seq<DrawLine>)
    requires Tracks(st) && DrawAll(st, warehouse, lines).Ok?
    ensures Tracks(DrawAll(st, warehouse, lines).value.0)
  {
    if lines != [] {
      var l := lines[|lines| - 1];
      DrawKeepsTracks(st, warehouse, lines[..|lines| - 1]);
      StockOutTracks(DrawAll(st, warehouse, lines[..|lines| - 1]).value.0, Slot(warehouse, l.product), l.quantity);
    }
  }

  /** A successful draw lowers each on-hand by exactly what was asked, leaves every
      average alone, and costs the quantities at the averages from before. */
  lemma {:induction false} DrawEffect(st: Store, warehouse: Id, lines: seq<DrawLine>, slot: Slot)
    requires DrawAll(st, warehouse, lines).Ok?
    ensures var (after, cost) := DrawAll(st, warehouse, lines).value;
      && HoldingOf(after.balances, slot) == HoldingOf(st.balances, slot).(onHand :=
           HoldingOf(st.balances, slot).onHand - if slot.warehouse == warehouse then Wanted(lines, slot.product) else 0)
      && cost == Sum(lines, CostOf(st, warehouse))
  {
    if lines != [] {
      var n := |lines| - 1;
      var l := lines[n];
      DrawEffect(st, warehouse, lines[..n], slot);
      DrawEffect(st, warehouse, lines[..n], Slot(warehouse, l.product));
    }
  }

  /** The line-by-line check passes exactly when all quantities are positive and,
      product by product, the lines together do not exceed on-hand. */
  lemma {:induction false} DrawPassesIff(st: Store, warehouse: Id, lines: seq<DrawLine>)
    ensures DrawAll(st, warehouse, lines).Ok? <==> Positive(lines) && InStock(st, warehouse, lines)
  {
    if lines != [] {
      var n := |lines| - 1;
      var l := lines[n];
      var before := lines[..n];
      DrawPassesIff(st, warehouse, before);
      assert forall p :: Wanted(lines, p) == Wanted(before, p) + WantedOf(p)(l);
      if DrawAll(st, warehouse, before).Ok? {
        DrawEffect(st, warehouse, before, Slot(warehouse, l.product));
        forall i | 0 <= i < n && lines[i].product != l.product
          ensures Wanted(lines, lines[i].product) == Wanted(before, before[i].product)
        {
        }
      }
    }
  }

  lemma SameChecks(st: Store, warehouse: Id, a: seq<DrawLine>, b: seq<DrawLine>)
    requires multiset(a) == multiset(b) && DrawAll(st, warehouse, a).Ok?
    ensures DrawAll(st, warehouse, b).Ok?
  {
    DrawPassesIff(st, warehouse, a);
    DrawPassesIff(st, warehouse, b);
    forall j | 0 <= j < |b|
      ensures b[j].quantity > 0 && Wanted(b, b[j].product) <= OnHand(st, warehouse, b[j].product)
    {
      assert b[j] in multiset(a);
      var i :| 0 <= i < |a| && a[i] == b[j];
      SumPermutation(a, b, WantedOf(b[j].product));
    }
  }

  /** The order of the lines does not matter to the outcome, the cost or the stock left. */
  lemma DrawOrderIrrelevant(st: Store, warehouse: Id, a: seq<DrawLine>, b: seq<DrawLine>, slot: Slot)
    requires multiset(a) == multiset(b) && DrawAll(st, warehouse, a).Ok?
    ensures DrawAll(st, warehouse, b).Ok?
    ensures DrawAll(st, warehouse, a).value.1 == DrawAll(st, warehouse, b).value.1
    ensures HoldingOf(DrawAll(st, warehouse, a).value.0.balances, slot)
         == HoldingOf(DrawAll(st, warehouse, b).value.0.balances, slot)
  {
    SameChecks(st, warehouse, a, b);
    DrawEffect(st, warehouse, a, slot);
    DrawEffect(st, warehouse, b, slot);
    SumPermutation(a, b, CostOf(st, warehouse));
    SumPermutation(a, b, WantedOf(slot.product));
  }
}

/** A stock count remembers the on-hand it saw when it was created and applies the
    differences when it is posted. */
module Counting {
  import opened Base
  import opened Sums
  import opened Stock

  datatype CountLine = CountLine(product: Id, system: int, counted: int)

  /** What a user submits: product and counted quantity. */
  datatype Tally = Tally(product: Id, counted: int)

  /** The lines a count is created with: each records the on-hand at that moment. */
  function Snapshot(st: Store, warehouse: Id, tallies: seq<Tally>): (r: seq<CountLine>)
    ensures |r| == |tallies|
    ensures forall i :: 0 <= i < |r| ==>
      r[i] == CountLine(tallies[i].product, HoldingOf(st.balances, Slot(warehouse, tallies[i].product)).onHand,
                        tallies[i].counted)
  {
    if tallies == [] then []
    else
      var t := tallies[|tallies| - 1];
      Snapshot(st, warehouse, tallies[..|tallies| - 1])
        + [CountLine(t.product, HoldingOf(st.balances, Slot(warehouse, t.product)).onHand, t.counted)]
  }

  /** The store after the adjustments, with the value found and the value missing. */
  function ApplyCount(st: Store, warehouse: Id, lines: seq<CountLine>): (Store, int, int)
  {
    if lines == [] then (st, 0, 0)
    else
      var (before, up, down) := ApplyCount(st, warehouse, lines[..|lines| - 1]);
      var l := lines[|lines| - 1];
      var (after, value) := Adjust(before, Slot(warehouse, l.product), l.system, l.counted);
      if value > 0 then (after, up + value, down) else (after, up, down - value)
  }

  function Variance(product: Id): CountLine -> int
  {
    (l: CountLine) => if l.product == product then l.counted - l.system else 0
  }

  /** A product without a row was counted against a system quantity of zero. */
  predicate Sensible(balances: map<Slot, Holding>, warehouse: Id, lines: seq<CountLine>)
  {
    forall i :: 0 <= i < |lines| && Slot(warehouse, lines[i].product) !in balances ==> lines[i].system == 0
  }

  lemma CountNext(st: Store, warehouse: Id, lines: seq<CountLine>)
    requires lines != []
    ensures var l := lines[|lines| - 1];
      ApplyCount(st, warehouse, lines).0
        == Adjust(ApplyCount(st, warehouse, lines[..|lines| - 1]).0, Slot(warehouse, l.product), l.system, l.counted).0
  {
  }

  /** One adjustment of a row that exists, or that was counted against zero. */
  lemma AdjustHolding(st: Store, adjusted: Slot, system: int, counted: int, slot: Slot)
    requires adjusted in st.balances || system == 0
    ensures var after := Adjust(st, adjusted, system, counted).0;
      && st.balances.Keys <= after.balances.Keys
      && HoldingOf(after.balances, slot) == HoldingOf(st.balances, slot).(onHand :=
           HoldingOf(st.balances, slot).onHand + if slot == adjusted then counted - system else 0)
  {
  }

  lemma {:induction false} CountHolding(st: Store, warehouse: Id, lines: seq<CountLine>, slot: Slot)
    requires Sensible(st.balances, warehouse, lines)
    ensures var after := ApplyCount(st, warehouse, lines).0;
      && st.balances.Keys <= after.balances.Keys
      && HoldingOf(after.balances, slot) == HoldingOf(st.balances, slot).(onHand :=
           HoldingOf(st.balances, slot).onHand
           + if slot.warehouse == warehouse then Sum(lines, Variance(slot.product)) else 0)
  {
    if lines != [] {
      var n := |lines| - 1;
      var l := lines[n];
      CountHolding(st, warehouse, lines[..n], slot);
      CountNext(st, warehouse, lines);
      AdjustHolding(ApplyCount(st, warehouse, lines[..n]).0, Slot(warehouse, l.product), l.system, l.counted, slot);
    }
  }

  lemma {:induction false} CountTracks(st: Store, warehouse: Id, lines: seq<CountLine>)
    requires Tracks(st) && Sensible(st.balances, warehouse, lines)
    ensures Tracks(ApplyCount(st, warehouse, lines).0)
  {
    if lines != [] {
      var n := |lines| - 1;
      var l := lines[n];
      CountTracks(st, warehouse, lines[..n]);
      CountHolding(st, warehouse, lines[..n], Slot(warehouse, l.product));
      CountNext(st, warehouse, lines);
      AdjustTracksIff(ApplyCount(st, warehouse, lines[..n]).0, Slot(warehouse, l.product), l.system, l.counted);
    }
  }

  /** Posting a count keeps summary and log in step, changes each on-hand by the
      variances recorded for it, and leaves every average alone. */
  lemma CountEffect(st: Store, warehouse: Id, lines: seq<CountLine>, slot: Slot)
    requires Tracks(st) && Sensible(st.balances, warehouse, lines)
    ensures var after := ApplyCount(st, warehouse, lines).0;
      && Tracks(after) && st.balances.Keys <= after.balances.Keys
      && HoldingOf(after.balances, slot) == HoldingOf(st.balances, slot).(onHand :=
           HoldingOf(st.balances, slot).onHand
           + if slot.warehouse == warehouse then Sum(lines, Variance(slot.product)) else 0)
  {
    CountTracks(st, warehouse, lines);
    CountHolding(st, warehouse, lines, slot);
  }

  lemma AdjustValue(st: Store, slot: Slot, system: int, counted: int)
    ensures var (after, value) := Adjust(st, slot, system, counted);
      Sum(after.moves, IssuedValue()) == Sum(st.moves, IssuedValue()) + value
  {
    if counted != system {
      var delta, average := counted - system, HoldingOf(st.balances, slot).average;
      var m := Move(slot, Adjustment, delta, average);
      SumAppend(st.moves, m, IssuedValue());
      assert IssuedValue()(m) == delta * average == Adjust(st, slot, system, counted).1;
    }
  }

  /** What a count finds less what it misses is the value of the moves it records. */
  lemma {:induction false} CountValue(st: Store, warehouse: Id, lines: seq<CountLine>)
    ensures var (after, up, down) := ApplyCount(st, warehouse, lines);
      up >= 0 && down >= 0 && Sum(after.moves, IssuedValue()) == Sum(st.moves, IssuedValue()) + up - down
  {
    if lines != [] {
      var l := lines[|lines| - 1];
      CountValue(st, warehouse, lines[..|lines| - 1]);
      AdjustValue(ApplyCount(st, warehouse, lines[..|lines| - 1]).0, Slot(warehouse, l.product), l.system, l.counted);
    }
  }

  /** A line's variance valued at the average its product had before the count. */
  function VarianceValue(st: Store, warehouse: Id, l: CountLine): int
  {
    (l.counted - l.system) * HoldingOf(st.balances, Slot(warehouse, l.product)).average
  }

  function Found(st: Store, warehouse: Id): CountLine -> int
  {
    (l: CountLine) => if VarianceValue(st, warehouse, l) > 0 then VarianceValue(st, warehouse, l) else 0
  }

  function Missing(st: Store, warehouse: Id): CountLine -> int
  {
    (l: CountLine) => if VarianceValue(st, warehouse, l) < 0 then -VarianceValue(st, warehouse, l) else 0
  }

  lemma AdjustKeepsAverage(st: Store, slot: Slot, system: int, counted: int, x: Slot)
    ensures HoldingOf(Adjust(st, slot, system, counted).0.balances, x).average == HoldingOf(st.balances, x).average
  {
  }

  lemma {:induction false} CountKeepsAverages(st: Store, warehouse: Id, lines: seq<CountLine>, x: Slot)
    ensures HoldingOf(ApplyCount(st, warehouse, lines).0.balances, x).average == HoldingOf(st.balances, x).average
  {
    if lines != [] {
      var l := lines[|lines| - 1];
      CountKeepsAverages(st, warehouse, lines[..|lines| - 1], x);
      AdjustKeepsAverage(ApplyCount(st, warehouse, lines[..|lines| - 1]).0,
                         Slot(warehouse, l.product), l.system, l.counted, x);
    }
  }

  lemma AdjustValueIs(st: Store, before: Store, warehouse: Id, l: CountLine)
    requires var slot := Slot(warehouse, l.product);
      HoldingOf(before.balances, slot).average == HoldingOf(st.balances, slot).average
    ensures Adjust(before, Slot(warehouse, l.product), l.system, l.counted).1 == VarianceValue(st, warehouse, l)
  {
  }

  /** The increase is what was found and the decrease what is missing, line by line, at
      the averages from before the count. */
  lemma {:induction false} CountAmounts(st: Store, warehouse: Id, lines: seq<CountLine>)
    ensures var (_, up, down) := ApplyCount(st, warehouse, lines);
      up == Sum(lines, Found(st, warehouse)) && down == Sum(lines, Missing(st, warehouse))
  {
    if lines != [] {
      var l := lines[|lines| - 1];
      CountAmounts(st, warehouse, lines[..|lines| - 1]);
      CountKeepsAverages(st, warehouse, lines[..|lines| - 1], Slot(warehouse, l.product));
      AdjustValueIs(st, ApplyCount(st, warehouse, lines[..|lines| - 1]).0, warehouse, l);
    }
  }

  lemma {:induction false} SumPositiveIff<T>(s: seq<T>, f: T -> int)
    requires forall i :: 0 <= i < |s| ==> f(s[i]) >= 0
    ensures Sum(s, f) >= 0 && (Sum(s, f) > 0 <==> exists i :: 0 <= i < |s| && f(s[i]) > 0)
  {
    if s != [] {
      SumPositiveIff(s[..|s| - 1], f);
      if i :| 0 <= i < |s| && f(s[i]) > 0 {
        assert i < |s| - 1 ==> s[..|s| - 1][i] == s[i];
      }
      if Sum(s[..|s| - 1], f) > 0 {
        var i :| 0 <= i < |s| - 1 && f(s[..|s| - 1][i]) > 0;
        assert f(s[i]) > 0;
      }
    }
  }

  /** Both adjustment amounts are non-zero exactly when some line finds value and some
      other line misses value. */
  lemma BothSidesIff(st: Store, warehouse: Id, lines: seq<CountLine>)
    ensures var (_, up, down) := ApplyCount(st, warehouse, lines);
      && (up > 0 <==> exists i :: 0 <= i < |lines| && VarianceValue(st, warehouse, lines[i]) > 0)
      && (down > 0 <==> exists i :: 0 <= i < |lines| && VarianceValue(st, warehouse, lines[i]) < 0)
  {
    CountAmounts(st, warehouse, lines);
    SumPositiveIff(lines, Found(st, warehouse));
    SumPositiveIff(lines, Missing(st, warehouse));
    var f, m := Found(st, warehouse), Missing(st, warehouse);
    assert forall i :: 0 <= i < |lines| ==> (f(lines[i]) > 0 <==> VarianceValue(st, warehouse, lines[i]) > 0);
    assert forall i :: 0 <= i < |lines| ==> (m(lines[i]) > 0 <==> VarianceValue(st, warehouse, lines[i]) < 0);
  }

  predicate Distinct(lines: seq<CountLine>)
  {
    forall i, j :: 0 <= i < j < |lines| ==> lines[i].product != lines[j].product
  }

  lemma {:induction false} OneVariance(lines: seq<CountLine>, i: nat)
    requires Distinct(lines) && i < |lines|
    ensures Sum(lines, Variance(lines[i].product)) == lines[i].counted - lines[i].system
  {
    var n := |lines| - 1;
    if i == n {
      SumZero(lines[..n], Variance(lines[i].product));
    } else {
      OneVariance(lines[..n], i);
    }
  }

  lemma MovesBetween(was: Store, now: Store, slot: Slot)
    requires Tracks(was) && Tracks(now) && was.moves <= now.moves
    ensures HoldingOf(now.balances, slot).onHand
         == HoldingOf(was.balances, slot).onHand + Sum(now.moves[|was.moves|..], MovedQuantity(slot))
  {
    OnHandIsSum(was.moves, slot);
    OnHandIsSum(now.moves, slot);
    SumConcat(was.moves, now.moves[|was.moves|..], MovedQuantity(slot));
    assert now.moves == was.moves + now.moves[|was.moves|..];
  }

  /** Posted any time after it was created, a count of distinct products leaves each
      product at its counted quantity plus the net of all moves in between, whether
      or not a balance row existed. */
  lemma CountReconciles(created: Store, posted: Store, warehouse: Id, tallies: seq<Tally>, i: nat)
    requires Tracks(created) && Tracks(posted)
    requires created.moves <= posted.moves && created.balances.Keys <= posted.balances.Keys
    requires var lines := Snapshot(created, warehouse, tallies); i < |lines| && Distinct(lines)
    ensures var slot := Slot(warehouse, tallies[i].product);
      HoldingOf(ApplyCount(posted, warehouse, Snapshot(created, warehouse, tallies)).0.balances, slot).onHand
        == tallies[i].counted + Sum(posted.moves[|created.moves|..], MovedQuantity(slot))
  {
    var lines := Snapshot(created, warehouse, tallies);
    var slot := Slot(warehouse, tallies[i].product);
    CountEffect(posted, warehouse, lines, slot);
    OneVariance(lines, i);
    MovesBetween(created, posted, slot);
  }
}
