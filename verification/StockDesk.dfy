/** The services behind goods receipts, deliveries and stock counts, as an object
    that drives the inventory service and the accounting engine line by line. A
    transaction that is refused part-way puts back what it had changed. */
module StockDesk {
  import opened Base
  import opened Journal
  import opened GeneralLedger
  import opened Stock
  import opened Inventory
  import opened Drawing
  import opened Counting
  import opened StockLedger

  /** Once one line is refused, the whole receipt is refused with that error. */
  lemma {:induction false} ReceiveFails(st: Store, warehouse: Id, lines: seq<ReceiptLine>, n: nat)
    requires n <= |lines| && ReceiveAll(st, warehouse, lines[..n]).Err?
    ensures ReceiveAll(st, warehouse, lines) == ReceiveAll(st, warehouse, lines[..n])
  {
    if n < |lines| {
      assert lines[..|lines| - 1][..n] == lines[..n];
      ReceiveFails(st, warehouse, lines[..|lines| - 1], n);
    } else {
      assert lines[..n] == lines;
    }
  }

  lemma {:induction false} DrawFails(st: Store, warehouse: Id, lines: seq<DrawLine>, n: nat)
    requires n <= |lines| && DrawAll(st, warehouse, lines[..n]).Err?
    ensures DrawAll(st, warehouse, lines) == DrawAll(st, warehouse, lines[..n])
  {
    if n < |lines| {
      assert lines[..|lines| - 1][..n] == lines[..n];
      DrawFails(st, warehouse, lines[..|lines| - 1], n);
    } else {
      assert lines[..n] == lines;
    }
  }

  lemma DrawPrefix(st: Store, warehouse: Id, lines: seq<DrawLine>, k: nat)
    requires k < |lines| && DrawAll(st, warehouse, lines[..k]).Ok?
    ensures var (before, cost) := DrawAll(st, warehouse, lines[..k]).value;
      var out := StockOut(before, Slot(warehouse, lines[k].product), lines[k].quantity);
      DrawAll(st, warehouse, lines[..k + 1]) ==
        if out.Err? then Err(out.error) else Ok((out.value.0, cost + out.value.1))
  {
    assert lines[..k + 1][..k] == lines[..k];
  }

  lemma CountPrefix(st: Store, warehouse: Id, lines: seq<CountLine>, k: nat)
    requires k < |lines|
    ensures ApplyCount(st, warehouse, lines[..k + 1]) ==
      var (before, up, down) := ApplyCount(st, warehouse, lines[..k]);
      var (after, value) := Adjust(before, Slot(warehouse, lines[k].product), lines[k].system, lines[k].counted);
      if value > 0 then (after, up + value, down) else (after, up, down - value)
  {
    assert lines[..k + 1][..k] == lines[..k];
  }

  /** The document's index and the new state, or the error and no change at all. */
  ghost predicate Carries(spec: Result<World>, was: World, now: World, r: Result<nat>, i: nat)
  {
    if spec.Ok? then r == Ok(i) && now == spec.value else r == Err(spec.error) && now == was
  }

  class Desk {
    const company: Id
    const engine: Engine
    const inventory: InventoryService
    var receipts: seq<Receipt>
    var deliveries: seq<Delivery>
    var counts: seq<Count>

    function State(): World
      reads this, engine, inventory
    {
      World(inventory.State(), engine.State(), receipts, deliveries, counts)
    }

    ghost predicate Valid()
      reads this, engine, inventory
    {
      engine.Valid() && StockSound(State()) && DeliveriesNamed(company, State())
    }

    constructor (company: Id, engine: Engine, inventory: InventoryService)
      requires engine.Valid() && inventory.State() == Store([], map[])
      requires forall j :: 0 <= j < |engine.entries| ==> !FromDelivery(company, engine.entries[j])
      ensures Valid() && fresh(this) && this.company == company && this.engine == engine && this.inventory == inventory
      ensures State() == EMPTY_WORLD.(ledger := engine.State())
    {
      this.company, this.engine, this.inventory := company, engine, inventory;
      receipts, deliveries, counts := [], [], [];
    }

    /** What Valid() says of the tables is kept by every stock document's posting. */
    lemma Kept(was: World, c: DeskCommand)
      requires StockSound(was) && DeliveriesNamed(company, was) && !c.Books?
      requires StepDesk(engine.setup, company, was, c).Ok?
      ensures var now := StepDesk(engine.setup, company, was, c).value; StockSound(now) && DeliveriesNamed(company, now)
    {
      StepSound(engine.setup, company, was, c);
      StepNamed(engine.setup, company, was, c);
    }

    method CreateReceipt(warehouse: Id, items: seq<ReceiptLine>) returns (i: nat)
      requires Valid()
      modifies this
      ensures Valid() && i == |old(receipts)|
      ensures Ok(State()) == StepDesk(engine.setup, company, old(State()), NewReceipt(warehouse, items))
      ensures receipts == old(receipts) + [Receipt(warehouse, items, false)]
    {
      ghost var was := State();
      i := |receipts|;
      receipts := receipts + [Receipt(warehouse, items, false)];
      Kept(was, NewReceipt(warehouse, items));
    }

    method CreateDelivery(warehouse: Id, date: int, draws: seq<DrawLine>) returns (i: nat)
      requires Valid()
      modifies this
      ensures Valid() && i == |old(deliveries)|
      ensures Ok(State()) == StepDesk(engine.setup, company, old(State()), NewDelivery(warehouse, date, draws))
      ensures deliveries == old(deliveries) + [Delivery(warehouse, date, draws, false, None)]
    {
      ghost var was := State();
      i := |deliveries|;
      deliveries := deliveries + [Delivery(warehouse, date, draws, false, None)];
      Kept(was, NewDelivery(warehouse, date, draws));
    }

    /** The receipt's loop: blends every line in, or puts everything back. */
    method ReceiveLines(warehouse: Id, lines: seq<ReceiptLine>) returns (r: Result<nat>)
      requires Tracks(inventory.State())
      modifies inventory
      ensures Tracks(inventory.State())
      ensures var spec := ReceiveAll(old(inventory.State()), warehouse, lines);
        if spec.Ok? then r.Ok? && inventory.State() == spec.value
        else r == Err(spec.error) && inventory.State() == old(inventory.State())
    {
      var moves, balances := inventory.moves, inventory.balances;
      var k := 0;
      while k < |lines|
        invariant k <= |lines| && Tracks(inventory.State())
        invariant ReceiveAll(old(inventory.State()), warehouse, lines[..k]) == Ok(inventory.State())
      {
        assert lines[..k + 1][..k] == lines[..k];
        var average := inventory.RecordStockIn(Slot(warehouse, lines[k].product), lines[k].quantity, lines[k].unitCost);
        if average.Err? {
          ReceiveFails(old(inventory.State()), warehouse, lines, k + 1);
          inventory.moves, inventory.balances := moves, balances;
          return Err(average.error);
        }
        k := k + 1;
      }
      assert lines[..k] == lines;
      r := Ok(k);
    }

    method PostReceipt(i: nat) returns (r: Result<nat>)
      requires Valid()
      modifies this, inventory
      ensures Valid() && Carries(StockLedger.PostReceipt(old(State()), i), old(State()), State(), r, i)
      ensures r.Ok? <==> i < |old(receipts)| && !old(receipts)[i].posted && AllPositive(old(receipts)[i].lines)
      ensures r.Ok? ==>
        Records(old(inventory.moves), inventory.moves, old(receipts)[i].warehouse, old(receipts)[i].lines)
    {
      ReceiptPostsIff(State(), i);
      if i >= |receipts| {
        return Err(NotFound);
      }
      var receipt := receipts[i];
      if receipt.posted {
        return Err(WrongStatus);
      }
      ghost var was := State();
      var done := ReceiveLines(receipt.warehouse, receipt.lines);
      if done.Err? {
        return Err(done.error);
      }
      receipts := receipts[i := receipt.(posted := true)];
      Kept(was, DoReceive(i));
      r := Ok(i);
    }

    /** The delivery's loop: draws every line and adds up the cost, or puts everything back. */
    method DrawLines(warehouse: Id, lines: seq<DrawLine>) returns (r: Result<int>)
      requires Tracks(inventory.State())
      modifies inventory
      ensures Tracks(inventory.State())
      ensures var spec := DrawAll(old(inventory.State()), warehouse, lines);
        if spec.Ok? then r == Ok(spec.value.1) && inventory.State() == spec.value.0
        else r == Err(spec.error) && inventory.State() == old(inventory.State())
    {
      var moves, balances := inventory.moves, inventory.balances;
      var totalCost := 0;
      var k := 0;
      while k < |lines|
        invariant k <= |lines| && Tracks(inventory.State())
        invariant DrawAll(old(inventory.State()), warehouse, lines[..k]) == Ok((inventory.State(), totalCost))
      {
        DrawPrefix(old(inventory.State()), warehouse, lines, k);
        var cost := inventory.RecordStockOut(Slot(warehouse, lines[k].product), lines[k].quantity);
        if cost.Err? {
          DrawFails(old(inventory.State()), warehouse, lines, k + 1);
          inventory.moves, inventory.balances := moves, balances;
          return Err(cost.error);
        }
        totalCost := totalCost + cost.value;
        k := k + 1;
      }
      assert lines[..k] == lines;
      r := Ok(totalCost);
    }

    method PostDelivery(i: nat) returns (r: Result<nat>)
      requires Valid()
      modifies this, inventory, engine
      ensures Valid()
      ensures Carries(StockLedger.PostDelivery(engine.setup, company, old(State()), i), old(State()), State(), r, i)
    {
      if i >= |deliveries| {
        return Err(NotFound);
      }
      var delivery := deliveries[i];
      if delivery.posted {
        return Err(WrongStatus);
      }
      var moves, balances := inventory.moves, inventory.balances;
      ghost var was := State();
      var cost := DrawLines(delivery.warehouse, delivery.lines);
      if cost.Err? {
        return Err(cost.error);
      }
      var entry := engine.PostEvent(DeliveryEvent(company, delivery.date, i, cost.value));
      if entry.Err? {
        inventory.moves, inventory.balances := moves, balances;
        return Err(entry.error);
      }
      deliveries := deliveries[i := delivery.(posted := true, journal := Some(entry.value))];
      Kept(was, DoDeliver(i));
      r := Ok(i);
    }

    /** The lines record the on-hand of the moment the count is created. */
    method CreateCount(warehouse: Id, date: int, tallies: seq<Tally>) returns (i: nat)
      requires Valid()
      modifies this
      ensures Valid() && i == |old(counts)|
      ensures Ok(State()) == StepDesk(engine.setup, company, old(State()), NewCount(warehouse, date, tallies))
      ensures counts[..i] == old(counts) && |counts| == i + 1
      ensures counts[i].warehouse == warehouse && counts[i].date == date && !counts[i].posted
      ensures |counts[i].lines| == |tallies| && forall k :: 0 <= k < |tallies| ==>
        counts[i].lines[k] == CountLine(tallies[k].product,
          HoldingOf(inventory.balances, Slot(warehouse, tallies[k].product)).onHand, tallies[k].counted)
    {
      var lines: seq<CountLine> := [];
      var k := 0;
      while k < |tallies|
        invariant k <= |tallies| && lines == Snapshot(inventory.State(), warehouse, tallies[..k])
      {
        assert tallies[..k + 1][..k] == tallies[..k];
        var balance := HoldingOf(inventory.balances, Slot(warehouse, tallies[k].product));
        lines := lines + [CountLine(tallies[k].product, balance.onHand, tallies[k].counted)];
        k := k + 1;
      }
      assert tallies[..k] == tallies;
      i := |counts|;
      ghost var was := State();
      counts := counts + [Count(warehouse, date, lines, false)];
      Kept(was, NewCount(warehouse, date, tallies));
    }

    /** The count's loop: applies every variance and adds up what was found and missing. */
    method AdjustLines(warehouse: Id, lines: seq<CountLine>) returns (increaseAmount: int, decreaseAmount: int)
      modifies inventory
      ensures ApplyCount(old(inventory.State()), warehouse, lines)
           == (inventory.State(), increaseAmount, decreaseAmount)
    {
      increaseAmount, decreaseAmount := 0, 0;
      var k := 0;
      while k < |lines|
        invariant k <= |lines|
        invariant ApplyCount(old(inventory.State()), warehouse, lines[..k])
             == (inventory.State(), increaseAmount, decreaseAmount)
      {
        CountPrefix(old(inventory.State()), warehouse, lines, k);
        var value := inventory.RecordAdjustment(Slot(warehouse, lines[k].product), lines[k].system, lines[k].counted);
        if value > 0 {
          increaseAmount := increaseAmount + value;
        } else {
          decreaseAmount := decreaseAmount + -value;
        }
        k := k + 1;
      }
      assert lines[..k] == lines;
    }

    /** Posts what a count found and missed, when there is anything to post. */
    method PostVariance(date: int, i: nat, up: int, down: int) returns (r: Result<nat>)
      requires engine.Valid()
      modifies engine
      ensures engine.Valid()
      ensures var spec := VarianceLedger(engine.setup, company, old(engine.State()), date, i, up, down);
        if spec.Ok? then r.Ok? && engine.State() == spec.value
        else r == Err(spec.error) && engine.State() == old(engine.State())
    {
      r := Ok(i);
      if up > 0 || down > 0 {
        r := engine.PostEvent(CountEvent(company, date, i, up, down));
      }
    }

    method PostCount(i: nat) returns (r: Result<nat>)
      requires Valid()
      modifies this, inventory, engine
      ensures Valid()
      ensures Carries(StockLedger.PostCount(engine.setup, company, old(State()), i), old(State()), State(), r, i)
    {
      if i >= |counts| {
        return Err(NotFound);
      }
      var count := counts[i];
      if count.posted {
        return Err(WrongStatus);
      }
      var moves, balances := inventory.moves, inventory.balances;
      ghost var was := State();
      var increaseAmount, decreaseAmount := AdjustLines(count.warehouse, count.lines);
      var entry := PostVariance(count.date, i, increaseAmount, decreaseAmount);
      if entry.Err? {
        inventory.moves, inventory.balances := moves, balances;
        return Err(entry.error);
      }
      counts := counts[i := count.(posted := true)];
      assert StepDesk(engine.setup, company, was, DoCount(i)) == Ok(State());
      Kept(was, DoCount(i));
      r := Ok(i);
    }
  }
}
