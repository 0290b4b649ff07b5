/** Goods receipts, deliveries and stock counts of one company, posting to stock
    and to the general ledger, and what ties the two together. */
module StockLedger {
  import opened Base
  import opened Sums
  import opened Money
  import opened Journal
  import opened Consistency
  import opened Starter
  import opened Posting
  import opened Reports
  import opened Stock
  import opened Drawing
  import opened Counting

  datatype ReceiptLine = ReceiptLine(product: Id, quantity: int, unitCost: int)

  datatype Receipt = Receipt(warehouse: Id, lines: seq<ReceiptLine>, posted: bool)

  datatype Delivery = Delivery(warehouse: Id, date: int, lines: seq<DrawLine>, posted: bool, journal: Option<nat>)

  datatype Count = Count(warehouse: Id, date: int, lines: seq<CountLine>, posted: bool)

  datatype World = World(store: Store, ledger: Ledger, receipts: seq<Receipt>,
                         deliveries: seq<Delivery>, counts: seq<Count>)

  const EMPTY_WORLD := World(Store([], map[]), EMPTY_LEDGER, [], [], [])

  /** One cent in the 10^-8 units of stock values. */
  const CENT := 1_000_000

  function AsCents(value: int): real
  {
    value as real / CENT as real
  }

  // ------------------------------------------------------------ transactions

  function ReceiveAll(st: Store, warehouse: Id, lines: seq<ReceiptLine>): Result<Store>
  {
    if lines == [] then Ok(st)
    else
      var before := ReceiveAll(st, warehouse, lines[..|lines| - 1]);
      var l := lines[|lines| - 1];
      if before.Err? then before else StockIn(before.value, Slot(warehouse, l.product), l.quantity, l.unitCost)
  }

  function PostReceipt(w: World, i: nat): Result<World>
  {
    if i >= |w.receipts| then Err(NotFound)
    else if w.receipts[i].posted then Err(WrongStatus)
    else
      var st := ReceiveAll(w.store, w.receipts[i].warehouse, w.receipts[i].lines);
      if st.Err? then Err(st.error)
      else Ok(w.(store := st.value, receipts := w.receipts[i := w.receipts[i].(posted := true)]))
  }

  function DeliveryEvent(company: Id, date: int, doc: nat, cost: int): Event
  {
    Event(company, None, DeliveryPosted, date, doc, map[Cost := AsCents(cost)], map[], NO_DIMS)
  }

  /** Draws the stock, posts its total cost, and marks the delivery. */
  function PostDelivery(setup: Setup, company: Id, w: World, i: nat): Result<World>
  {
    if i >= |w.deliveries| then Err(NotFound)
    else if w.deliveries[i].posted then Err(WrongStatus)
    else
      var d := w.deliveries[i];
      var drawn := DrawAll(w.store, d.warehouse, d.lines);
      if drawn.Err? then Err(drawn.error)
      else
        var led := PostEvent(setup, w.ledger, DeliveryEvent(company, d.date, i, drawn.value.1));
        if led.Err? then Err(led.error)
        else Ok(w.(store := drawn.value.0, ledger := led.value,
                   deliveries := w.deliveries[i := d.(posted := true, journal := Some(|w.ledger.entries|))]))
  }

  function CountEvent(company: Id, date: int, doc: nat, up: int, down: int): Event
  {
    Event(company, None, InventoryAdjustmentPosted, date, doc,
          map[IncreaseAmount := AsCents(up), DecreaseAmount := AsCents(down)], map[], NO_DIMS)
  }

  function VarianceLedger(setup: Setup, company: Id, led: Ledger, date: int, doc: nat,
                          up: int, down: int): Result<Ledger>
  {
    if up > 0 || down > 0 then PostEvent(setup, led, CountEvent(company, date, doc, up, down)) else Ok(led)
  }

  /** Applies the variances; posts an entry only when some value was found or missing. */
  function PostCount(setup: Setup, company: Id, w: World, i: nat): Result<World>
  {
    if i >= |w.counts| then Err(NotFound)
    else if w.counts[i].posted then Err(WrongStatus)
    else
      var c := w.counts[i];
      var (st, up, down) := ApplyCount(w.store, c.warehouse, c.lines);
      var led := VarianceLedger(setup, company, w.ledger, c.date, i, up, down);
      if led.Err? then Err(led.error)
      else Ok(w.(store := st, ledger := led.value, counts := w.counts[i := c.(posted := true)]))
  }

  datatype DeskCommand =
    | NewReceipt(warehouse: Id, items: seq<ReceiptLine>)
    | DoReceive(i: nat)
    | NewDelivery(warehouse: Id, date: int, draws: seq<DrawLine>)
    | DoDeliver(i: nat)
    | NewCount(warehouse: Id, date: int, tallies: seq<Tally>)
    | DoCount(i: nat)
    | Books(c: Command)

  function StepDesk(setup: Setup, company: Id, w: World, c: DeskCommand): Result<World>
  {
    match c
    case NewReceipt(wh, items) => Ok(w.(receipts := w.receipts + [Receipt(wh, items, false)]))
    case DoReceive(i) => PostReceipt(w, i)
    case NewDelivery(wh, date, draws) => Ok(w.(deliveries := w.deliveries + [Delivery(wh, date, draws, false, None)]))
    case DoDeliver(i) => PostDelivery(setup, company, w, i)
    case NewCount(wh, date, tallies) =>
      Ok(w.(counts := w.counts + [Count(wh, date, Snapshot(w.store, wh, tallies), false)]))
    case DoCount(i) => PostCount(setup, company, w, i)
    case Books(b) =>
      var led := Step(setup, w.ledger, b);
      if led.Err? then Err(led.error) else Ok(w.(ledger := led.value))
  }

  /** A refused transaction is rolled back. */
  function Committed(w: World, r: Result<World>): World
  {
    if r.Ok? then r.value else w
  }

  function RunDesk(setup: Setup, company: Id, cs: seq<DeskCommand>): World
  {
    if cs == [] then EMPTY_WORLD
    else
      var w := RunDesk(setup, company, cs[..|cs| - 1]);
      Committed(w, StepDesk(setup, company, w, cs[|cs| - 1]))
  }

  // --------------------------------------------------------- the stock ledger

  /** Every move's slot has a balance row. */
  ghost predicate SlotsKnown(st: Store)
  {
    forall i :: 0 <= i < |st.moves| ==> st.moves[i].slot in st.balances
  }

  /** Moves are only appended and balance rows never removed. */
  ghost predicate Grew(was: Store, now: Store)
  {
    Tracks(now) && SlotsKnown(now) && was.moves <= now.moves && was.balances.Keys <= now.balances.Keys
  }

  lemma RecordKnown(st: Store, m: Move, h: Holding)
    requires SlotsKnown(st)
    ensures SlotsKnown(Store(st.moves + [m], st.balances[m.slot := h]))
  {
  }

  lemma ReceiptIssuesNothing(moves: seq<Move>, m: Move)
    requires m.kind == In
    ensures Sum(moves + [m], IssuedValue()) == Sum(moves, IssuedValue())
  {
    SumAppend(moves, m, IssuedValue());
  }

  lemma ReceiveOne(st: Store, slot: Slot, quantity: int, unitCost: int)
    requires Tracks(st) && SlotsKnown(st) && StockIn(st, slot, quantity, unitCost).Ok?
    ensures var after := StockIn(st, slot, quantity, unitCost).value;
      Grew(st, after) && Sum(after.moves, IssuedValue()) == Sum(st.moves, IssuedValue())
  {
    StockInTracks(st, slot, quantity, unitCost);
    RecordKnown(st, Move(slot, In, quantity, unitCost), Blend(HoldingOf(st.balances, slot), quantity, unitCost));
    ReceiptIssuesNothing(st.moves, Move(slot, In, quantity, unitCost));
  }

  lemma {:induction false} ReceiveGrows(st: Store, warehouse: Id, lines: seq<ReceiptLine>)
    requires Tracks(st) && SlotsKnown(st) && ReceiveAll(st, warehouse, lines).Ok?
    ensures Grew(st, ReceiveAll(st, warehouse, lines).value)
    ensures Sum(ReceiveAll(st, warehouse, lines).value.moves, IssuedValue()) == Sum(st.moves, IssuedValue())
  {
    if lines != [] {
      var l := lines[|lines| - 1];
      ReceiveGrows(st, warehouse, lines[..|lines| - 1]);
      ReceiveOne(ReceiveAll(st, warehouse, lines[..|lines| - 1]).value,
                 Slot(warehouse, l.product), l.quantity, l.unitCost);
    }
  }

  lemma {:induction false} DrawGrows(st: Store, warehouse: Id, lines: seq<DrawLine>)
    requires Tracks(st) && SlotsKnown(st) && DrawAll(st, warehouse, lines).Ok?
    ensures Grew(st, DrawAll(st, warehouse, lines).value.0)
  {
    DrawKeepsTracks(st, warehouse, lines);
    if lines != [] {
      DrawGrows(st, warehouse, lines[..|lines| - 1]);
    }
  }

  lemma {:induction false} CountSlots(st: Store, warehouse: Id, lines: seq<CountLine>)
    requires SlotsKnown(st)
    ensures var after := ApplyCount(st, warehouse, lines).0;
      SlotsKnown(after) && st.moves <= after.moves && st.balances.Keys <= after.balances.Keys
  {
    if lines != [] {
      CountSlots(st, warehouse, lines[..|lines| - 1]);
    }
  }

  // ---------------------------------------------------- receipts and their moves

  /** One move a line, in order, with the line's own product, quantity and unit cost. */
  predicate Records(was: seq<Move>, now: seq<Move>, warehouse: Id, lines: seq<ReceiptLine>)
  {
    && |now| == |was| + |lines| && now[..|was|] == was
    && forall i :: 0 <= i < |lines| ==>
         now[|was| + i] == Move(Slot(warehouse, lines[i].product), In, lines[i].quantity, lines[i].unitCost)
  }

  predicate AllPositive(lines: seq<ReceiptLine>)
  {
    forall i :: 0 <= i < |lines| ==> lines[i].quantity > 0
  }

  /** A receipt is taken in exactly when every quantity is positive, and then records exactly
      the moves its lines ask for. */
  lemma {:induction false} ReceiveMoves(st: Store, warehouse: Id, lines: seq<ReceiptLine>)
    ensures ReceiveAll(st, warehouse, lines).Ok? <==> AllPositive(lines)
    ensures ReceiveAll(st, warehouse, lines).Ok? ==>
      Records(st.moves, ReceiveAll(st, warehouse, lines).value.moves, warehouse, lines)
  {
    if lines != [] {
      var n := |lines| - 1;
      ReceiveMoves(st, warehouse, lines[..n]);
      assert lines == lines[..n] + [lines[n]];
    }
  }

  function LineCost(): ReceiptLine -> int
  {
    (l: ReceiptLine) => l.quantity * l.unitCost
  }

  lemma {:induction false} ReceiveCost(st: Store, warehouse: Id, lines: seq<ReceiptLine>)
    requires ReceiveAll(st, warehouse, lines).Ok?
    ensures Sum(ReceiveAll(st, warehouse, lines).value.moves, ReceivedValue())
         == Sum(st.moves, ReceivedValue()) + Sum(lines, LineCost())
  {
    if lines != [] {
      var n := |lines| - 1;
      ReceiveCost(st, warehouse, lines[..n]);
      SumAppend(ReceiveAll(st, warehouse, lines[..n]).value.moves,
                Move(Slot(warehouse, lines[n].product), In, lines[n].quantity, lines[n].unitCost), ReceivedValue());
    }
  }

  lemma {:induction false} DrawReceives(st: Store, warehouse: Id, lines: seq<DrawLine>)
    requires DrawAll(st, warehouse, lines).Ok?
    ensures Sum(DrawAll(st, warehouse, lines).value.0.moves, ReceivedValue()) == Sum(st.moves, ReceivedValue())
  {
    if lines != [] {
      var l := lines[|lines| - 1];
      DrawReceives(st, warehouse, lines[..|lines| - 1]);
      var before := DrawAll(st, warehouse, lines[..|lines| - 1]).value.0;
      var h := HoldingOf(before.balances, Slot(warehouse, l.product));
      SumAppend(before.moves, Move(Slot(warehouse, l.product), Out, -l.quantity, h.average), ReceivedValue());
    }
  }

  lemma AdjustReceives(st: Store, slot: Slot, system: int, counted: int)
    ensures Sum(Adjust(st, slot, system, counted).0.moves, ReceivedValue()) == Sum(st.moves, ReceivedValue())
  {
    var average := HoldingOf(st.balances, slot).average;
    SumAppend(st.moves, Move(slot, Adjustment, counted - system, average), ReceivedValue());
  }

  lemma {:induction false} CountReceives(st: Store, warehouse: Id, lines: seq<CountLine>)
    ensures Sum(ApplyCount(st, warehouse, lines).0.moves, ReceivedValue()) == Sum(st.moves, ReceivedValue())
  {
    if lines != [] {
      var l := lines[|lines| - 1];
      CountReceives(st, warehouse, lines[..|lines| - 1]);
      var before := ApplyCount(st, warehouse, lines[..|lines| - 1]).0;
      AdjustReceives(before, Slot(warehouse, l.product), l.system, l.counted);
    }
  }

  function ReceiptCost(): Receipt -> int
  {
    (r: Receipt) => if r.posted then Sum(r.lines, LineCost()) else 0
  }

  /** The cost of all goods received, as the lines of the posted receipts say. */
  ghost function GoodsReceived(w: World): int
  {
    Sum(w.receipts, ReceiptCost())
  }

  lemma StepReceived(setup: Setup, company: Id, w: World, c: DeskCommand)
    requires Sum(w.store.moves, ReceivedValue()) == GoodsReceived(w) && StepDesk(setup, company, w, c).Ok?
    ensures var now := StepDesk(setup, company, w, c).value;
      Sum(now.store.moves, ReceivedValue()) == GoodsReceived(now)
  {
    match c {
      case NewReceipt(wh, items) => SumAppend(w.receipts, Receipt(wh, items, false), ReceiptCost());
      case DoReceive(i) =>
        ReceiveCost(w.store, w.receipts[i].warehouse, w.receipts[i].lines);
        SumUpdate(w.receipts, i, w.receipts[i].(posted := true), ReceiptCost());
      case DoDeliver(i) => DrawReceives(w.store, w.deliveries[i].warehouse, w.deliveries[i].lines);
      case DoCount(i) => CountReceives(w.store, w.counts[i].warehouse, w.counts[i].lines);
      case _ =>
    }
  }

  /** In every run the receipt moves are worth exactly what the lines of the posted receipts
      cost: quantity times unit cost, line by line. */
  lemma {:induction false} RunReceived(setup: Setup, company: Id, cs: seq<DeskCommand>)
    ensures var w := RunDesk(setup, company, cs);
      Sum(w.store.moves, ReceivedValue()) == Sum(w.receipts, ReceiptCost())
  {
    if cs != [] {
      var w := RunDesk(setup, company, cs[..|cs| - 1]);
      RunReceived(setup, company, cs[..|cs| - 1]);
      if StepDesk(setup, company, w, cs[|cs| - 1]).Ok? {
        StepReceived(setup, company, w, cs[|cs| - 1]);
      }
    }
  }

  ghost predicate CountsSensible(w: World)
  {
    forall i :: 0 <= i < |w.counts| ==> Sensible(w.store.balances, w.counts[i].warehouse, w.counts[i].lines)
  }

  /** What holds of the stock side in every run, whatever happens to the ledger. */
  ghost predicate StockSound(w: World)
  {
    Tracks(w.store) && SlotsKnown(w.store) && CountsSensible(w)
  }

  /** A count keeps its warehouse and the lines it was created with. */
  predicate CountsKept(was: World, now: World)
  {
    |was.counts| <= |now.counts| && forall i :: 0 <= i < |was.counts| ==>
      now.counts[i].warehouse == was.counts[i].warehouse && now.counts[i].lines == was.counts[i].lines
  }

  lemma SensibleGrows(was: World, now: World)
    requires CountsSensible(was) && was.store.balances.Keys <= now.store.balances.Keys
    requires CountsKept(was, now) && |was.counts| == |now.counts|
    ensures CountsSensible(now)
  {
    forall i | 0 <= i < |now.counts|
      ensures Sensible(now.store.balances, now.counts[i].warehouse, now.counts[i].lines)
    {
      assert Sensible(was.store.balances, was.counts[i].warehouse, was.counts[i].lines);
    }
  }

  lemma CountGrows(st: Store, warehouse: Id, lines: seq<CountLine>)
    requires Tracks(st) && SlotsKnown(st) && Sensible(st.balances, warehouse, lines)
    ensures Grew(st, ApplyCount(st, warehouse, lines).0)
  {
    CountEffect(st, warehouse, lines, Slot("", ""));
    CountSlots(st, warehouse, lines);
  }

  /** Posting any stock document keeps the stock side sound and only adds to it. */
  lemma PostingSound(setup: Setup, company: Id, w: World, c: DeskCommand)
    requires StockSound(w) && StepDesk(setup, company, w, c).Ok? && (c.DoReceive? || c.DoDeliver? || c.DoCount?)
    ensures var now := StepDesk(setup, company, w, c).value;
      StockSound(now) && Grew(w.store, now.store) && CountsKept(w, now)
  {
    var now := StepDesk(setup, company, w, c).value;
    match c {
      case DoReceive(i) => ReceiveGrows(w.store, w.receipts[i].warehouse, w.receipts[i].lines);
      case DoDeliver(i) => DrawGrows(w.store, w.deliveries[i].warehouse, w.deliveries[i].lines);
      case DoCount(i) =>
        assert Sensible(w.store.balances, w.counts[i].warehouse, w.counts[i].lines);
        CountGrows(w.store, w.counts[i].warehouse, w.counts[i].lines);
      case _ =>
    }
    SensibleGrows(w, now);
  }

  lemma StepSound(setup: Setup, company: Id, w: World, c: DeskCommand)
    requires StockSound(w) && StepDesk(setup, company, w, c).Ok?
    ensures var now := StepDesk(setup, company, w, c).value;
      StockSound(now) && Grew(w.store, now.store) && CountsKept(w, now)
  {
    if c.DoReceive? || c.DoDeliver? || c.DoCount? {
      PostingSound(setup, company, w, c);
    }
  }

  /** In every run, between any two of its states. */
  lemma {:induction false} RunSound(setup: Setup, company: Id, cs: seq<DeskCommand>, n: nat)
    requires n <= |cs|
    ensures var (was, now) := (RunDesk(setup, company, cs[..n]), RunDesk(setup, company, cs));
      StockSound(was) && StockSound(now) && Grew(was.store, now.store) && CountsKept(was, now)
    decreases |cs|
  {
    if n < |cs| {
      var before := cs[..|cs| - 1];
      RunSound(setup, company, before, n);
      assert before[..n] == cs[..n];
      if StepDesk(setup, company, RunDesk(setup, company, before), cs[|cs| - 1]).Ok? {
        StepSound(setup, company, RunDesk(setup, company, before), cs[|cs| - 1]);
      }
    } else {
      assert cs[..n] == cs;
      if cs != [] {
        RunSound(setup, company, cs[..|cs| - 1], |cs| - 1);
        if StepDesk(setup, company, RunDesk(setup, company, cs[..|cs| - 1]), cs[|cs| - 1]).Ok? {
          StepSound(setup, company, RunDesk(setup, company, cs[..|cs| - 1]), cs[|cs| - 1]);
        }
      }
    }
  }

  /** From its creation on, a count is in the desk with the lines it was created with. */
  lemma CountStays(setup: Setup, company: Id, cs: seq<DeskCommand>, n: nat)
    requires n < |cs| && cs[n].NewCount?
    ensures var was, now := RunDesk(setup, company, cs[..n]), RunDesk(setup, company, cs);
      && |was.counts| < |now.counts| && now.counts[|was.counts|].warehouse == cs[n].warehouse
      && now.counts[|was.counts|].lines == Snapshot(was.store, cs[n].warehouse, cs[n].tallies)
  {
    RunSound(setup, company, cs, n + 1);
    assert cs[..n + 1][..n] == cs[..n];
    var next := RunDesk(setup, company, cs[..n + 1]);
    assert next == StepDesk(setup, company, RunDesk(setup, company, cs[..n]), cs[n]).value;
  }

  predicate DistinctTallies(tallies: seq<Tally>)
  {
    forall j, k :: 0 <= j < k < |tallies| ==> tallies[j].product != tallies[k].product
  }

  /** In every run: a count of distinct products, created by command n and posted any
      time later, leaves each product at its counted quantity plus the net of all moves
      in between. */
  lemma CountReconcilesInRun(setup: Setup, company: Id, cs: seq<DeskCommand>, n: nat, i: nat)
    requires n < |cs| && cs[n].NewCount? && i < |cs[n].tallies| && DistinctTallies(cs[n].tallies)
    requires PostCount(setup, company, RunDesk(setup, company, cs), |RunDesk(setup, company, cs[..n]).counts|).Ok?
    ensures var was, now := RunDesk(setup, company, cs[..n]), RunDesk(setup, company, cs);
      var slot := Slot(cs[n].warehouse, cs[n].tallies[i].product);
      && was.store.moves <= now.store.moves
      && HoldingOf(PostCount(setup, company, now, |was.counts|).value.store.balances, slot).onHand
           == cs[n].tallies[i].counted + Sum(now.store.moves[|was.store.moves|..], MovedQuantity(slot))
  {
    var was, now := RunDesk(setup, company, cs[..n]), RunDesk(setup, company, cs);
    CountStays(setup, company, cs, n);
    RunSound(setup, company, cs, n);
    CountReconciles(was.store, now.store, cs[n].warehouse, cs[n].tallies, i);
  }

  // ------------------------------------------------------------ ledger effects

  /** A stock value as the ledger stores it. */
  function Booked(value: int): Cents
  {
    ToColumn(AsCents(value))
  }

  /** Booking a value moves it by at most half a cent. */
  lemma BookedNearest(value: int)
    ensures 2 * Abs(value - CENT * Booked(value)) <= CENT
  {
    ToColumnNearest(AsCents(value));
    assert AsCents(value) * 1000000.0 == value as real;
  }

  function InventoryAccounts(setup: Setup, company: Id): Key -> bool
  {
    On(TaggedWith(setup, company, Journal.Inventory))
  }

  /** What the posted and reversed lines leave on Inventory-tagged accounts. */
  function InventoryNet(setup: Setup, company: Id, entries: seq<Entry>): Cents
  {
    Sum(entries, NetPart(InventoryAccounts(setup, company)))
  }

  lemma DeliveryEntryNet(setup: Setup, company: Id, led: Ledger, date: int, doc: nat, cost: int)
    requires UsesStarterRules(setup, company) && EventEntry(setup, led, DeliveryEvent(company, date, doc, cost)).Ok?
    ensures Net(EventEntry(setup, led, DeliveryEvent(company, date, doc, cost)).value,
                InventoryAccounts(setup, company)) == -Booked(cost)
  {
    var e := DeliveryEvent(company, date, doc, cost);
    EventControlNet(setup, led, e, Journal.Inventory);
    ControlSum(e, StarterLines(DeliveryPosted), Journal.Inventory);
  }

  lemma CountEntryNet(setup: Setup, company: Id, led: Ledger, date: int, doc: nat, up: int, down: int)
    requires UsesStarterRules(setup, company) && EventEntry(setup, led, CountEvent(company, date, doc, up, down)).Ok?
    ensures Net(EventEntry(setup, led, CountEvent(company, date, doc, up, down)).value,
                InventoryAccounts(setup, company)) == Booked(up) - Booked(down)
  {
    var e := CountEvent(company, date, doc, up, down);
    EventControlNet(setup, led, e, Journal.Inventory);
    ControlSum(e, StarterLines(InventoryAdjustmentPosted), Journal.Inventory);
  }

  // ------------------------------------------------------ posted exactly when, and what

  /** A goods receipt is posted exactly when it is a draft with positive quantities; it
      posts nothing to the ledger. */
  lemma ReceiptPostsIff(w: World, i: nat)
    ensures PostReceipt(w, i).Ok? <==>
      i < |w.receipts| && !w.receipts[i].posted && AllPositive(w.receipts[i].lines)
    ensures PostReceipt(w, i).Ok? ==>
      var (receipt, now) := (w.receipts[i], PostReceipt(w, i).value);
      && Records(w.store.moves, now.store.moves, receipt.warehouse, receipt.lines)
      && now.ledger == w.ledger && now.receipts == w.receipts[i := receipt.(posted := true)]
  {
    if i < |w.receipts| {
      ReceiveMoves(w.store, w.receipts[i].warehouse, w.receipts[i].lines);
    }
  }

  /** Accounts for both lines of a stock entry. */
  predicate StockAccounts(setup: Setup, company: Id)
  {
    FindControl(setup.chart, company, Cogs).Some? && FindControl(setup.chart, company, Journal.Inventory).Some?
  }

  /** What the books must offer a stock document. */
  predicate StockAllowed(setup: Setup, company: Id, periods: seq<Period>, kind: EventType, date: int, value: bool)
  {
    (company, kind) in setup.rules && OpenOn(periods, company, date) && (value ==> StockAccounts(setup, company))
  }

  lemma DeliveryEntryIff(setup: Setup, company: Id, led: Ledger, date: int, doc: nat, cost: int)
    requires UsesStarterRules(setup, company)
    ensures EventEntry(setup, led, DeliveryEvent(company, date, doc, cost)).Ok? <==>
      StockAllowed(setup, company, led.periods, DeliveryPosted, date, cost != 0)
  {
    var e := DeliveryEvent(company, date, doc, cost);
    var ls := StarterLines(DeliveryPosted);
    EventPostsIff(setup, led, e);
    RawTwo(e, ls[0], ls[1]);
    assert ls == [ls[0], ls[1]];
    assert AmountOf(e, Cost) != 0.0 <==> cost != 0;
    assert Resolved(setup, e, ls[0]) && Resolved(setup, e, ls[1]) <==> (cost != 0 ==> StockAccounts(setup, company));
  }

  /** A delivery is posted exactly when it is a draft with positive quantities, every product
      is in stock for all its lines together, and the books allow its entry. Its entry is on
      its date, and debits cost of goods sold and credits Inventory for its rounded cost. */
  lemma DeliveryPostsIff(setup: Setup, company: Id, w: World, i: nat, control: Control)
    requires UsesStarterRules(setup, company)
    ensures PostDelivery(setup, company, w, i).Ok? <==>
      && i < |w.deliveries| && !w.deliveries[i].posted
      && var d := w.deliveries[i];
        && Positive(d.lines) && InStock(w.store, d.warehouse, d.lines)
        && StockAllowed(setup, company, w.ledger.periods, DeliveryPosted, d.date,
                        Sum(d.lines, CostOf(w.store, d.warehouse)) != 0)
    ensures PostDelivery(setup, company, w, i).Ok? ==>
      var (d, now) := (w.deliveries[i], PostDelivery(setup, company, w, i).value.ledger.entries);
      && |now| == |w.ledger.entries| + 1 && now[|w.ledger.entries|].date == d.date
      && var booked := Booked(Sum(d.lines, CostOf(w.store, d.warehouse)));
        Net(now[|w.ledger.entries|], On(TaggedWith(setup, company, control)))
          == if control == Cogs then booked else if control == Journal.Inventory then -booked else 0
  {
    if i < |w.deliveries| {
      var d := w.deliveries[i];
      DrawPassesIff(w.store, d.warehouse, d.lines);
      if DrawAll(w.store, d.warehouse, d.lines).Ok? {
        DrawEffect(w.store, d.warehouse, d.lines, Slot("", ""));
        var cost := DrawAll(w.store, d.warehouse, d.lines).value.1;
        DeliveryEntryIff(setup, company, w.ledger, d.date, i, cost);
        if PostDelivery(setup, company, w, i).Ok? {
          DeliveryBooks(setup, company, w.ledger, d.date, i, cost, control);
        }
      }
    }
  }

  lemma DeliveryBooks(setup: Setup, company: Id, led: Ledger, date: int, doc: nat, cost: int, control: Control)
    requires UsesStarterRules(setup, company) && EventEntry(setup, led, DeliveryEvent(company, date, doc, cost)).Ok?
    ensures var entry := EventEntry(setup, led, DeliveryEvent(company, date, doc, cost)).value;
      && entry.date == date
      && Net(entry, On(TaggedWith(setup, company, control)))
           == if control == Cogs then Booked(cost) else if control == Journal.Inventory then -Booked(cost) else 0
  {
    var e := DeliveryEvent(company, date, doc, cost);
    EventControlNet(setup, led, e, control);
    ControlSum(e, StarterLines(DeliveryPosted), control);
  }

  lemma CountEntryIff(setup: Setup, company: Id, led: Ledger, date: int, doc: nat, up: int, down: int)
    requires UsesStarterRules(setup, company)
    ensures EventEntry(setup, led, CountEvent(company, date, doc, up, down)).Ok? <==>
      StockAllowed(setup, company, led.periods, InventoryAdjustmentPosted, date, up != 0 || down != 0)
  {
    var e := CountEvent(company, date, doc, up, down);
    var ls := StarterLines(InventoryAdjustmentPosted);
    EventPostsIff(setup, led, e);
    RawTwo(e, ls[0], ls[1]);
    assert ls[..2] == [ls[0], ls[1]] && ls[..3][..2] == ls[..2] && ls[..4] == ls;
    assert RawNet(e, ls[..3]) == RawNet(e, ls[..2]) + AmountOf(e, DecreaseAmount);
    assert RawNet(e, ls) == RawNet(e, ls[..3]) - AmountOf(e, DecreaseAmount);
    assert AmountOf(e, IncreaseAmount) != 0.0 <==> up != 0;
    assert AmountOf(e, DecreaseAmount) != 0.0 <==> down != 0;
    assert Resolved(setup, e, ls[0]) && Resolved(setup, e, ls[1]) <==> (up != 0 ==> StockAccounts(setup, company));
    assert Resolved(setup, e, ls[2]) && Resolved(setup, e, ls[3]) <==> (down != 0 ==> StockAccounts(setup, company));
  }

  /** A line that cannot be drawn once the lines before it have been. */
  predicate Stops(st: Store, warehouse: Id, lines: seq<DrawLine>, k: nat, error: Error)
    requires k < |lines|
  {
    && DrawAll(st, warehouse, lines[..k]).Ok?
    && var onHand := HoldingOf(DrawAll(st, warehouse, lines[..k]).value.0.balances,
                               Slot(warehouse, lines[k].product)).onHand;
      if lines[k].quantity <= 0 then error == NotPositive
      else onHand < lines[k].quantity && error == InsufficientStock
  }

  lemma {:induction false} DrawStops(st: Store, warehouse: Id, lines: seq<DrawLine>)
    requires DrawAll(st, warehouse, lines).Err?
    ensures exists k :: 0 <= k < |lines| && Stops(st, warehouse, lines, k, DrawAll(st, warehouse, lines).error)
  {
    var n := |lines| - 1;
    if DrawAll(st, warehouse, lines[..n]).Err? {
      DrawStops(st, warehouse, lines[..n]);
      var k :| 0 <= k < n && Stops(st, warehouse, lines[..n], k, DrawAll(st, warehouse, lines).error);
      assert lines[..n][..k] == lines[..k];
      assert Stops(st, warehouse, lines, k, DrawAll(st, warehouse, lines).error);
    } else {
      assert Stops(st, warehouse, lines, n, DrawAll(st, warehouse, lines).error);
    }
  }

  lemma {:induction false} ReceiptError(st: Store, warehouse: Id, lines: seq<ReceiptLine>)
    requires ReceiveAll(st, warehouse, lines).Err?
    ensures ReceiveAll(st, warehouse, lines).error == NotPositive
  {
    if ReceiveAll(st, warehouse, lines[..|lines| - 1]).Err? {
      ReceiptError(st, warehouse, lines[..|lines| - 1]);
    }
  }

  /** The reason a stock document is refused: it is not there, else it has been posted; a
      receipt else has a quantity that is not positive; a delivery else has a first line that
      is not positive or not in stock. */
  lemma StockRefusal(setup: Setup, company: Id, w: World, i: nat)
    ensures PostReceipt(w, i).Err? ==>
      PostReceipt(w, i).error ==
        if i >= |w.receipts| then NotFound else if w.receipts[i].posted then WrongStatus else NotPositive
    ensures PostDelivery(setup, company, w, i).Err? ==>
      var error := PostDelivery(setup, company, w, i).error;
      if i >= |w.deliveries| then error == NotFound
      else if w.deliveries[i].posted then error == WrongStatus
      else
        var d := w.deliveries[i];
        DrawAll(w.store, d.warehouse, d.lines).Ok?
        || exists k :: 0 <= k < |d.lines| && Stops(w.store, d.warehouse, d.lines, k, error)
    ensures PostCount(setup, company, w, i).Err? && (i >= |w.counts| || w.counts[i].posted) ==>
      PostCount(setup, company, w, i).error == if i >= |w.counts| then NotFound else WrongStatus
  {
    if i < |w.receipts| && ReceiveAll(w.store, w.receipts[i].warehouse, w.receipts[i].lines).Err? {
      ReceiptError(w.store, w.receipts[i].warehouse, w.receipts[i].lines);
    }
    if i < |w.deliveries| && DrawAll(w.store, w.deliveries[i].warehouse, w.deliveries[i].lines).Err? {
      DrawStops(w.store, w.deliveries[i].warehouse, w.deliveries[i].lines);
    }
  }

  /** A count finds or misses something. */
  ghost predicate MovesValue(st: Store, c: Count)
  {
    exists k :: 0 <= k < |c.lines| && VarianceValue(st, c.warehouse, c.lines[k]) != 0
  }

  lemma MovesValueIff(st: Store, c: Count)
    ensures var (_, up, down) := ApplyCount(st, c.warehouse, c.lines);
      up >= 0 && down >= 0 && (MovesValue(st, c) <==> up > 0 || down > 0)
  {
    BothSidesIff(st, c.warehouse, c.lines);
    CountValue(st, c.warehouse, c.lines);
  }

  /** A stock count is posted exactly when it is a draft and, if it moves any value, the books
      allow its entry. */
  lemma CountPostsIff(setup: Setup, company: Id, w: World, i: nat)
    requires UsesStarterRules(setup, company)
    ensures PostCount(setup, company, w, i).Ok? <==>
      && i < |w.counts| && !w.counts[i].posted
      && (MovesValue(w.store, w.counts[i]) ==>
            StockAllowed(setup, company, w.ledger.periods, InventoryAdjustmentPosted, w.counts[i].date, true))
  {
    if i < |w.counts| {
      var c := w.counts[i];
      var (st, up, down) := ApplyCount(w.store, c.warehouse, c.lines);
      MovesValueIff(w.store, c);
      CountEntryIff(setup, company, w.ledger, c.date, i, up, down);
    }
  }

  lemma CountEventBooks(setup: Setup, company: Id, led: Ledger, date: int, doc: nat, up: int, down: int,
                        control: Control)
    requires UsesStarterRules(setup, company) && EventEntry(setup, led, CountEvent(company, date, doc, up, down)).Ok?
    ensures var entry := EventEntry(setup, led, CountEvent(company, date, doc, up, down)).value;
      && entry.date == date
      && Net(entry, On(TaggedWith(setup, company, control)))
           == if control == Journal.Inventory then Booked(up) - Booked(down)
              else if control == Cogs then Booked(down) - Booked(up) else 0
  {
    var e := CountEvent(company, date, doc, up, down);
    EventControlNet(setup, led, e, control);
    ControlSum(e, StarterLines(InventoryAdjustmentPosted), control);
  }

  /** A posted count adds an entry exactly when it moves value. The entry is on its date, and
      moves Inventory by what was found less what is missing, each rounded, and cost of goods
      sold the other way. */
  lemma CountBooks(setup: Setup, company: Id, w: World, i: nat, control: Control)
    requires UsesStarterRules(setup, company) && PostCount(setup, company, w, i).Ok?
    ensures var (was, now) := (w.ledger.entries, PostCount(setup, company, w, i).value.ledger.entries);
      var c := w.counts[i];
      var (found, missing) := (Sum(c.lines, Found(w.store, c.warehouse)), Sum(c.lines, Missing(w.store, c.warehouse)));
      var gain := Booked(found) - Booked(missing);
      if MovesValue(w.store, c)
      then
        && |now| == |was| + 1 && now[|was|].date == c.date
        && Net(now[|was|], On(TaggedWith(setup, company, control)))
             == if control == Journal.Inventory then gain else if control == Cogs then -gain else 0
      else now == was
  {
    var c := w.counts[i];
    var (st, up, down) := ApplyCount(w.store, c.warehouse, c.lines);
    MovesValueIff(w.store, c);
    CountAmounts(w.store, c.warehouse, c.lines);
    if up > 0 || down > 0 {
      CountEventBooks(setup, company, w.ledger, c.date, i, up, down, control);
    }
  }

  /** No line of the entry touches the accounts selected by p. */
  predicate Off(e: Entry, p: Key -> bool)
  {
    forall i :: 0 <= i < |e.lines| ==> !p(KeyOf(e.head, e.lines[i]))
  }

  lemma OffNet(e: Entry, p: Key -> bool)
    requires Off(e, p)
    ensures Net(e, p) == 0
  {
    SumZero(e.lines, LinePart(e.head, p, Debit));
    SumZero(e.lines, LinePart(e.head, p, Credit));
  }

  /** An event that is none of the company's stock documents: any event of another
      company, or one of an office document that does not name an Inventory account. */
  predicate Elsewhere(setup: Setup, company: Id, e: Event)
  {
    e.company == company ==> !OfStock(e.kind) && OverridesOff(setup, e, Journal.Inventory)
  }

  /** Manual and reversing entries keep off the Inventory-tagged accounts; events are
      those of other services. */
  predicate Spares(setup: Setup, company: Id, led: Ledger, c: Command)
  {
    match c
    case DoEvent(e) => Elsewhere(setup, company, e)
    case DoPost(id) => id < |led.entries| ==> Off(led.entries[id], InventoryAccounts(setup, company))
    case DoReverse(id, date) =>
      var entry := ReversalEntry(led, id, date);
      entry.Ok? ==> Off(entry.value, InventoryAccounts(setup, company))
    case _ => true
  }

  /** No starter rule but those of stock documents names the Inventory tag. */
  lemma ElsewhereOff(setup: Setup, company: Id, e: Event)
    requires Elsewhere(setup, company, e)
    ensures EventOff(setup, company, e, Journal.Inventory)
  {
  }

  lemma StatusNet(entries: seq<Entry>, id: nat, to: Status, p: Key -> bool)
    requires id < |entries| && !(Counted(entries[id].status) && !Counted(to))
    ensures Sum(entries[id := entries[id].(status := to)], NetPart(p))
         == Sum(entries, NetPart(p)) + if Counted(to) && !Counted(entries[id].status) then Net(entries[id], p) else 0
  {
    SumUpdate(entries, id, entries[id].(status := to), NetPart(p));
  }

  lemma SparedAppend(entries: seq<Entry>, e: Entry, p: Key -> bool)
    requires Counted(e.status) ==> Net(e, p) == 0
    ensures Sum(entries + [e], NetPart(p)) == Sum(entries, NetPart(p))
  {
    SumAppend(entries, e, NetPart(p));
  }

  lemma SparedReversal(led: Ledger, id: nat, date: int, p: Key -> bool)
    requires Reverse(led, id, date).Ok? && Off(ReversalEntry(led, id, date).value, p)
    ensures Sum(Reverse(led, id, date).value.entries, NetPart(p)) == Sum(led.entries, NetPart(p))
  {
    var r := ReversalEntry(led, id, date).value;
    OffNet(r, p);
    SparedAppend(led.entries, r, p);
    StatusNet(led.entries + [r], id, Reversed, p);
  }

  lemma SparedNet(setup: Setup, company: Id, led: Ledger, c: Command)
    requires UsesStarterRules(setup, company) && Step(setup, led, c).Ok? && Spares(setup, company, led, c)
    ensures InventoryNet(setup, company, Step(setup, led, c).value.entries) == InventoryNet(setup, company, led.entries)
  {
    var p := InventoryAccounts(setup, company);
    match c {
      case DoEvent(e) =>
        ElsewhereOff(setup, company, e);
        EventOffNet(setup, led, e, company, Journal.Inventory);
        SparedAppend(led.entries, EventEntry(setup, led, e).value, p);
      case DoManual(m) => SparedAppend(led.entries, DraftEntry(setup, led, m).value, p);
      case DoSubmit(id) => StatusNet(led.entries, id, Submitted, p);
      case DoApprove(id) => StatusNet(led.entries, id, Approved, p);
      case DoPost(id) =>
        OffNet(led.entries[id], p);
        StatusNet(led.entries, id, Posted, p);
      case DoReverse(id, date) => SparedReversal(led, id, date, p);
      case DoSetPeriod(_, _) =>
      case DoAddPeriods(_) =>
    }
  }

  // ------------------------------------------------------------ the invariant

  function DeliveryPostings(): Delivery -> int
  {
    (d: Delivery) => if d.posted then 1 else 0
  }

  function CountPostings(): Count -> int
  {
    (c: Count) => if c.posted then 1 else 0
  }

  /** Cents of rounding allowed so far: half of one per delivery, one per count. Doubled. */
  function RoundingRoom(w: World): int
  {
    CENT * (Sum(w.deliveries, DeliveryPostings()) + 2 * Sum(w.counts, CountPostings()))
  }

  function IssueGap(setup: Setup, company: Id, w: World): int
  {
    Sum(w.store.moves, IssuedValue()) - CENT * InventoryNet(setup, company, w.ledger.entries)
  }

  ghost predicate Tied(setup: Setup, company: Id, w: World)
  {
    && StockSound(w)
    && Consistent(w.ledger)
    && 2 * Abs(IssueGap(setup, company, w)) <= RoundingRoom(w)
  }

  lemma ReceiptTied(setup: Setup, company: Id, w: World, i: nat)
    requires Tied(setup, company, w) && PostReceipt(w, i).Ok?
    ensures Tied(setup, company, PostReceipt(w, i).value)
  {
    ReceiveGrows(w.store, w.receipts[i].warehouse, w.receipts[i].lines);
    StepSound(setup, company, w, DoReceive(i));
  }

  lemma DeliveryGap(setup: Setup, company: Id, w: World, i: nat)
    requires UsesStarterRules(setup, company) && PostDelivery(setup, company, w, i).Ok?
    ensures var now := PostDelivery(setup, company, w, i).value;
      && 2 * Abs(IssueGap(setup, company, now) - IssueGap(setup, company, w)) <= CENT
      && RoundingRoom(now) == RoundingRoom(w) + CENT
  {
    var d := w.deliveries[i];
    var (st, cost) := DrawAll(w.store, d.warehouse, d.lines).value;
    var entry := EventEntry(setup, w.ledger, DeliveryEvent(company, d.date, i, cost)).value;
    DrawValue(w.store, d.warehouse, d.lines);
    DeliveryEntryNet(setup, company, w.ledger, d.date, i, cost);
    SumAppend(w.ledger.entries, entry, NetPart(InventoryAccounts(setup, company)));
    BookedNearest(cost);
    SumUpdate(w.deliveries, i, d.(posted := true, journal := Some(|w.ledger.entries|)), DeliveryPostings());
  }

  lemma DeliveryTied(setup: Setup, company: Id, w: World, i: nat)
    requires UsesStarterRules(setup, company) && Tied(setup, company, w) && PostDelivery(setup, company, w, i).Ok?
    ensures Tied(setup, company, PostDelivery(setup, company, w, i).value)
  {
    var d := w.deliveries[i];
    DeliveryGap(setup, company, w, i);
    StepSound(setup, company, w, DoDeliver(i));
    var cost := DrawAll(w.store, d.warehouse, d.lines).value.1;
    StepConsistent(setup, w.ledger, DoEvent(DeliveryEvent(company, d.date, i, cost)));
  }

  lemma CountGap(setup: Setup, company: Id, w: World, i: nat)
    requires UsesStarterRules(setup, company) && PostCount(setup, company, w, i).Ok?
    ensures var now := PostCount(setup, company, w, i).value;
      && 2 * Abs(IssueGap(setup, company, now) - IssueGap(setup, company, w)) <= 2 * CENT
      && RoundingRoom(now) == RoundingRoom(w) + 2 * CENT
  {
    var c := w.counts[i];
    var (st, up, down) := ApplyCount(w.store, c.warehouse, c.lines);
    CountValue(w.store, c.warehouse, c.lines);
    CountInventoryNet(setup, company, w, i);
    BookedNearest(up);
    BookedNearest(down);
    SumUpdate(w.counts, i, c.(posted := true), CountPostings());
  }

  /** What posting a count adds to the Inventory accounts, nothing when it posts no entry. */
  lemma CountInventoryNet(setup: Setup, company: Id, w: World, i: nat)
    requires UsesStarterRules(setup, company) && PostCount(setup, company, w, i).Ok?
    ensures var (st, up, down) := ApplyCount(w.store, w.counts[i].warehouse, w.counts[i].lines);
      InventoryNet(setup, company, PostCount(setup, company, w, i).value.ledger.entries)
        == InventoryNet(setup, company, w.ledger.entries) + Booked(up) - Booked(down)
  {
    var c := w.counts[i];
    var (st, up, down) := ApplyCount(w.store, c.warehouse, c.lines);
    CountValue(w.store, c.warehouse, c.lines);
    if up > 0 || down > 0 {
      var entry := EventEntry(setup, w.ledger, CountEvent(company, c.date, i, up, down)).value;
      CountEntryNet(setup, company, w.ledger, c.date, i, up, down);
      SumAppend(w.ledger.entries, entry, NetPart(InventoryAccounts(setup, company)));
    } else {
      BookedNearest(0);
    }
  }

  lemma CountTied(setup: Setup, company: Id, w: World, i: nat)
    requires UsesStarterRules(setup, company) && Tied(setup, company, w) && PostCount(setup, company, w, i).Ok?
    ensures Tied(setup, company, PostCount(setup, company, w, i).value)
  {
    CountGap(setup, company, w, i);
    StepSound(setup, company, w, DoCount(i));
    CountLedger(setup, company, w, i);
  }

  lemma CountLedger(setup: Setup, company: Id, w: World, i: nat)
    requires Consistent(w.ledger) && PostCount(setup, company, w, i).Ok?
    ensures Consistent(PostCount(setup, company, w, i).value.ledger)
  {
    var c := w.counts[i];
    var (st, up, down) := ApplyCount(w.store, c.warehouse, c.lines);
    if up > 0 || down > 0 {
      StepConsistent(setup, w.ledger, DoEvent(CountEvent(company, c.date, i, up, down)));
    }
  }

  lemma NewDocumentTied(setup: Setup, company: Id, w: World, c: DeskCommand)
    requires Tied(setup, company, w) && (c.NewReceipt? || c.NewDelivery? || c.NewCount?)
    ensures Tied(setup, company, StepDesk(setup, company, w, c).value)
  {
    StepSound(setup, company, w, c);
    match c {
      case NewReceipt(_, _) =>
      case NewDelivery(wh, date, draws) =>
        SumAppend(w.deliveries, Delivery(wh, date, draws, false, None), DeliveryPostings());
      case NewCount(wh, date, tallies) =>
        SumAppend(w.counts, Count(wh, date, Snapshot(w.store, wh, tallies), false), CountPostings());
      case _ =>
    }
  }

  predicate Quiet(setup: Setup, company: Id, w: World, c: DeskCommand)
  {
    c.Books? ==> Spares(setup, company, w.ledger, c.c)
  }

  lemma StepTied(setup: Setup, company: Id, w: World, c: DeskCommand)
    requires UsesStarterRules(setup, company) && Tied(setup, company, w) && Quiet(setup, company, w, c)
    requires StepDesk(setup, company, w, c).Ok?
    ensures Tied(setup, company, StepDesk(setup, company, w, c).value)
  {
    match c {
      case DoReceive(i) => ReceiptTied(setup, company, w, i);
      case DoDeliver(i) => DeliveryTied(setup, company, w, i);
      case DoCount(i) => CountTied(setup, company, w, i);
      case Books(b) =>
        StepConsistent(setup, w.ledger, b);
        StepSound(setup, company, w, c);
        SparedNet(setup, company, w.ledger, b);
      case _ => NewDocumentTied(setup, company, w, c);
    }
  }

  /** Every prefix of the run meets Quiet. */
  ghost predicate QuietRun(setup: Setup, company: Id, cs: seq<DeskCommand>)
  {
    forall n :: 0 <= n < |cs| ==> Quiet(setup, company, RunDesk(setup, company, cs[..n]), cs[n])
  }

  lemma {:induction false} RunTied(setup: Setup, company: Id, cs: seq<DeskCommand>)
    requires UsesStarterRules(setup, company) && QuietRun(setup, company, cs)
    ensures Tied(setup, company, RunDesk(setup, company, cs))
  {
    if cs == [] {
      EmptyConsistent();
    } else {
      var before := cs[..|cs| - 1];
      assert forall n :: 0 <= n < |before| ==> before[..n] == cs[..n];
      RunTied(setup, company, before);
      if StepDesk(setup, company, RunDesk(setup, company, before), cs[|cs| - 1]).Ok? {
        StepTied(setup, company, RunDesk(setup, company, before), cs[|cs| - 1]);
      }
    }
  }

  // ------------------------------------------------------------ the tie-out

  function ValueAt(st: Store): Slot -> int
  {
    (x: Slot) => Valuation(HoldingOf(st.balances, x))
  }

  function MovesAt(moves: seq<Move>): Slot -> int
  {
    (x: Slot) => Sum(moves, MovedValue(x))
  }

  function MoveAt(m: Move): Slot -> int
  {
    (x: Slot) => MovedValue(x)(m)
  }

  function ForgottenAt(moves: seq<Move>): Slot -> int
  {
    (x: Slot) => Forgotten(moves, x)
  }

  function LevelsAt(moves: seq<Move>): Slot -> int
  {
    (x: Slot) => ReceivedLevels(moves, x)
  }

  function GapAt(st: Store): Slot -> int
  {
    (x: Slot) => 2 * (Valuation(HoldingOf(st.balances, x)) - Sum(st.moves, MovedValue(x)) + Forgotten(st.moves, x))
  }

  /** Splitting the moves over their slots loses and repeats nothing. */
  lemma {:induction false} SplitMoves(slots: set<Slot>, moves: seq<Move>)
    requires forall i :: 0 <= i < |moves| ==> moves[i].slot in slots
    ensures SumOver(slots, MovesAt(moves)) == Sum(moves, MoveValue())
  {
    if moves == [] {
      SumOverZero(slots, MovesAt(moves));
    } else {
      var n := |moves| - 1;
      SplitMoves(slots, moves[..n]);
      SumOverPlus(slots, MovesAt(moves[..n]), MoveAt(moves[n]), MovesAt(moves));
      SumOverPoint(slots, MoveAt(moves[n]), moves[n].slot);
    }
  }

  /** Total stock valuation against the value of all moves, over all slots at once. */
  lemma TotalDrift(st: Store)
    requires Tracks(st) && SlotsKnown(st)
    ensures var slots := st.balances.Keys;
      2 * Abs(SumOver(slots, ValueAt(st)) - Sum(st.moves, MoveValue()) + SumOver(slots, ForgottenAt(st.moves)))
        <= SumOver(slots, LevelsAt(st.moves))
  {
    var slots := st.balances.Keys;
    forall x | x in slots
      ensures Abs(GapAt(st)(x)) <= LevelsAt(st.moves)(x)
    {
      ValuationDrift(st.moves, x);
    }
    SumOverBound(slots, GapAt(st), LevelsAt(st.moves));
    SumOverTwice(slots, ValueAt(st), MovesAt(st.moves), ForgottenAt(st.moves), GapAt(st));
    SplitMoves(slots, st.moves);
  }

  /** The Inventory control balance as the summary rows report it. */
  ghost function InventoryBalance(setup: Setup, company: Id, led: Ledger): Cents
  {
    SumOver(RowsWhere(led.rows, InventoryAccounts(setup, company)), NetAmount(led.rows))
  }

  ghost function StockValue(w: World): int
  {
    SumOver(w.store.balances.Keys, ValueAt(w.store))
  }

  ghost function ForgottenTotal(w: World): int
  {
    SumOver(w.store.balances.Keys, ForgottenAt(w.store.moves))
  }

  /** The sum, over all slots and receipts, of the on-hand just after the receipt. */
  ghost function LevelsTotal(w: World): int
  {
    SumOver(w.store.balances.Keys, LevelsAt(w.store.moves))
  }

  /** Total stock valuation less the Inventory control balance is the cost of all goods
      received, within the averaging bound plus half a cent for each delivery and one
      cent for each stock count. forgotten is what negative stock made averages drop. */
  ghost predicate StockTies(setup: Setup, company: Id, w: World, forgotten: int)
  {
    2 * Abs(StockValue(w) - CENT * InventoryBalance(setup, company, w.ledger) - (GoodsReceived(w) - forgotten))
      <= LevelsTotal(w) + RoundingRoom(w)
  }

  lemma TiedBound(setup: Setup, company: Id, w: World)
    requires Tied(setup, company, w) && Sum(w.store.moves, ReceivedValue()) == GoodsReceived(w)
    ensures StockTies(setup, company, w, ForgottenTotal(w))
  {
    TotalDrift(w.store);
    SummaryNet(w.ledger.entries, w.ledger.rows, InventoryAccounts(setup, company));
    SumPlus(w.store.moves, ReceivedValue(), IssuedValue(), MoveValue());
  }

  /** The tie-out holds in every run whose manual and reversing entries keep off the
      Inventory accounts, whatever documents other services and companies post. */
  lemma StockTiesToLedger(setup: Setup, company: Id, cs: seq<DeskCommand>)
    requires UsesStarterRules(setup, company) && QuietRun(setup, company, cs)
    ensures StockTies(setup, company, RunDesk(setup, company, cs), ForgottenTotal(RunDesk(setup, company, cs)))
  {
    RunTied(setup, company, cs);
    RunReceived(setup, company, cs);
    TiedBound(setup, company, RunDesk(setup, company, cs));
  }

  ghost predicate NowhereNegative(st: Store)
  {
    forall x :: x in st.balances ==> NeverNegative(st.moves, x)
  }

  lemma NoneForgotten(w: World)
    requires Tracks(w.store) && NowhereNegative(w.store)
    ensures ForgottenTotal(w) == 0
  {
    forall x | x in w.store.balances.Keys
      ensures ForgottenAt(w.store.moves)(x) == 0
    {
      NothingForgotten(w.store.moves, x);
    }
    SumOverZero(w.store.balances.Keys, ForgottenAt(w.store.moves));
  }

  /** ... and if no slot's on-hand ever went below zero, nothing was forgotten. */
  lemma StockTiesWhileNonNegative(setup: Setup, company: Id, cs: seq<DeskCommand>)
    requires UsesStarterRules(setup, company) && QuietRun(setup, company, cs)
    requires NowhereNegative(RunDesk(setup, company, cs).store)
    ensures StockTies(setup, company, RunDesk(setup, company, cs), 0)
  {
    StockTiesToLedger(setup, company, cs);
    RunTied(setup, company, cs);
    NoneForgotten(RunDesk(setup, company, cs));
  }

  // ------------------------------------------------------- both sides of a count

  const TWO_RECEIVED := [ReceiptLine("a", 50_000, 30_000), ReceiptLine("b", 50_000, 40_000)]

  /** Receive five units of a at 3.00 and of b at 4.00, then count six of a and four of b. */
  function FoundAndMissing(warehouse: Id): seq<DeskCommand>
  {
    [NewReceipt(warehouse, TWO_RECEIVED), DoReceive(0),
     NewCount(warehouse, 0, [Tally("a", 60_000), Tally("b", 40_000)])]
  }

  lemma TwoReceived(warehouse: Id)
    ensures var st := ReceiveAll(Store([], map[]), warehouse, TWO_RECEIVED);
      && st.Ok?
      && HoldingOf(st.value.balances, Slot(warehouse, "a")) == Holding(50_000, 30_000)
      && HoldingOf(st.value.balances, Slot(warehouse, "b")) == Holding(50_000, 40_000)
  {
    var lines := TWO_RECEIVED;
    assert lines[..1] == [lines[0]] && lines[..1][..0] == [];
    var one := StockIn(Store([], map[]), Slot(warehouse, "a"), 50_000, 30_000);
    assert ReceiveAll(Store([], map[]), warehouse, lines[..1]) == one;
  }

  lemma RunThree(setup: Setup, company: Id, a: DeskCommand, b: DeskCommand, c: DeskCommand)
    ensures var first := Committed(EMPTY_WORLD, StepDesk(setup, company, EMPTY_WORLD, a));
      var second := Committed(first, StepDesk(setup, company, first, b));
      RunDesk(setup, company, [a, b, c]) == Committed(second, StepDesk(setup, company, second, c))
  {
    assert [a, b, c][..2] == [a, b] && [a, b][..1] == [a] && [a][..0] == [];
    assert RunDesk(setup, company, [a]) == Committed(EMPTY_WORLD, StepDesk(setup, company, EMPTY_WORLD, a));
  }

  lemma TwoCounted(setup: Setup, company: Id, warehouse: Id)
    ensures var w := RunDesk(setup, company, FoundAndMissing(warehouse));
      && HoldingOf(w.store.balances, Slot(warehouse, "a")) == Holding(50_000, 30_000)
      && HoldingOf(w.store.balances, Slot(warehouse, "b")) == Holding(50_000, 40_000)
      && w.counts == [Count(warehouse, 0, [CountLine("a", 50_000, 60_000), CountLine("b", 50_000, 40_000)], false)]
  {
    var cs := FoundAndMissing(warehouse);
    RunThree(setup, company, cs[0], cs[1], cs[2]);
    assert cs == [cs[0], cs[1], cs[2]];
    TwoReceived(warehouse);
    var st := ReceiveAll(Store([], map[]), warehouse, TWO_RECEIVED).value;
    var tallies := [Tally("a", 60_000), Tally("b", 40_000)];
    assert Snapshot(st, warehouse, tallies) == [CountLine("a", 50_000, 60_000), CountLine("b", 50_000, 40_000)];
  }

  /** In that run the count finds 3.00 and misses 4.00: both sides of its entry are non-zero. */
  lemma BothSidesExample(setup: Setup, company: Id, warehouse: Id)
    ensures var w := RunDesk(setup, company, FoundAndMissing(warehouse));
      && |w.counts| == 1
      && var (_, up, down) := ApplyCount(w.store, warehouse, w.counts[0].lines);
        Booked(up) == 300 && Booked(down) == 400
  {
    var w := RunDesk(setup, company, FoundAndMissing(warehouse));
    TwoCounted(setup, company, warehouse);
    var a, b := CountLine("a", 50_000, 60_000), CountLine("b", 50_000, 40_000);
    CountAmounts(w.store, warehouse, [a, b]);
    SumOfTwo(a, b, Found(w.store, warehouse));
    SumOfTwo(a, b, Missing(w.store, warehouse));
    assert AsCents(300_000_000) == 300 as real && AsCents(400_000_000) == 400 as real;
    ToColumnWhole(300);
    ToColumnWhole(400);
  }

  // ------------------------------------------------- deliveries and their entries

  predicate FromDelivery(company: Id, e: Entry)
  {
    e.origin.Document? && e.origin.event == DeliveryPosted && e.head.company == company && e.reversalOf.None?
  }

  predicate Delivers(company: Id, w: World, j: nat, i: nat)
  {
    && i < |w.deliveries| && j < |w.ledger.entries|
    && FromDelivery(company, w.ledger.entries[j]) && w.ledger.entries[j].origin.doc == i
    && Counted(w.ledger.entries[j].status)
  }

  /** A delivery is posted exactly when it names an entry; that entry is its own; and no
      other entry but a reversal is. */
  ghost predicate DeliveriesNamed(company: Id, w: World)
  {
    && (forall i :: 0 <= i < |w.deliveries| ==> (w.deliveries[i].posted <==> w.deliveries[i].journal.Some?))
    && (forall i :: 0 <= i < |w.deliveries| && w.deliveries[i].journal.Some? ==>
          Delivers(company, w, w.deliveries[i].journal.value, i))
    && (forall j :: 0 <= j < |w.ledger.entries| && FromDelivery(company, w.ledger.entries[j]) ==>
          && Delivers(company, w, j, w.ledger.entries[j].origin.doc)
          && w.deliveries[w.ledger.entries[j].origin.doc].journal == Some(j))
  }

  /** Only deliveries post delivery entries of the company. */
  predicate NoStrayDelivery(company: Id, c: DeskCommand)
  {
    c.Books? && c.c.DoEvent? ==> c.c.event.company != company || c.c.event.kind != DeliveryPosted
  }

  /** Entries stay in place and delivery rows are only added. */
  lemma NamedGrows(company: Id, was: World, now: World)
    requires DeliveriesNamed(company, was) && Extends(was.ledger.entries, now.ledger.entries)
    requires |was.deliveries| <= |now.deliveries|
    requires forall i :: 0 <= i < |was.deliveries| ==> now.deliveries[i] == was.deliveries[i]
    requires forall i :: |was.deliveries| <= i < |now.deliveries| ==>
      !now.deliveries[i].posted && now.deliveries[i].journal.None?
    requires forall j :: |was.ledger.entries| <= j < |now.ledger.entries| ==>
      !FromDelivery(company, now.ledger.entries[j])
    ensures DeliveriesNamed(company, now)
  {
    forall i | 0 <= i < |now.deliveries| && now.deliveries[i].journal.Some?
      ensures Delivers(company, now, now.deliveries[i].journal.value, i)
    {
      assert Delivers(company, was, was.deliveries[i].journal.value, i);
    }
    forall j | 0 <= j < |now.ledger.entries| && FromDelivery(company, now.ledger.entries[j])
      ensures Delivers(company, now, j, now.ledger.entries[j].origin.doc)
      ensures now.deliveries[now.ledger.entries[j].origin.doc].journal == Some(j)
    {
      assert FromDelivery(company, was.ledger.entries[j]);
      assert Delivers(company, was, j, was.ledger.entries[j].origin.doc);
    }
  }

  lemma DeliveryNamed(setup: Setup, company: Id, w: World, i: nat)
    requires DeliveriesNamed(company, w) && PostDelivery(setup, company, w, i).Ok?
    ensures DeliveriesNamed(company, PostDelivery(setup, company, w, i).value)
  {
    var now := PostDelivery(setup, company, w, i).value;
    var n := |w.ledger.entries|;
    assert now.ledger.entries[..n] == w.ledger.entries;
    forall x | 0 <= x < |now.deliveries| && now.deliveries[x].journal.Some?
      ensures Delivers(company, now, now.deliveries[x].journal.value, x)
    {
      assert x != i ==> Delivers(company, w, w.deliveries[x].journal.value, x);
    }
    forall j | 0 <= j < |now.ledger.entries| && FromDelivery(company, now.ledger.entries[j])
      ensures Delivers(company, now, j, now.ledger.entries[j].origin.doc)
      ensures now.deliveries[now.ledger.entries[j].origin.doc].journal == Some(j)
    {
      assert j < n ==> Delivers(company, w, j, w.ledger.entries[j].origin.doc) && w.deliveries[i].journal.None?;
    }
  }

  lemma CountNamed(setup: Setup, company: Id, w: World, i: nat)
    requires DeliveriesNamed(company, w) && PostCount(setup, company, w, i).Ok?
    ensures DeliveriesNamed(company, PostCount(setup, company, w, i).value)
  {
    NamedGrows(company, w, PostCount(setup, company, w, i).value);
  }

  lemma BooksNamed(setup: Setup, company: Id, w: World, c: Command)
    requires DeliveriesNamed(company, w) && NoStrayDelivery(company, Books(c)) && Step(setup, w.ledger, c).Ok?
    ensures DeliveriesNamed(company, w.(ledger := Step(setup, w.ledger, c).value))
  {
    StepExtends(setup, w.ledger, c);
    NamedGrows(company, w, w.(ledger := Step(setup, w.ledger, c).value));
  }

  lemma StepNamed(setup: Setup, company: Id, w: World, c: DeskCommand)
    requires DeliveriesNamed(company, w) && NoStrayDelivery(company, c) && StepDesk(setup, company, w, c).Ok?
    ensures DeliveriesNamed(company, StepDesk(setup, company, w, c).value)
  {
    match c {
      case DoDeliver(i) => DeliveryNamed(setup, company, w, i);
      case DoCount(i) => CountNamed(setup, company, w, i);
      case Books(b) => BooksNamed(setup, company, w, b);
      case _ => NamedGrows(company, w, StepDesk(setup, company, w, c).value);
    }
  }

  /** In every serial run a delivery is posted exactly when it names an entry, and
      exactly that entry, reversals apart, carries it as its source. */
  lemma {:induction false} RunNamed(setup: Setup, company: Id, cs: seq<DeskCommand>)
    requires forall n :: 0 <= n < |cs| ==> NoStrayDelivery(company, cs[n])
    ensures DeliveriesNamed(company, RunDesk(setup, company, cs))
  {
    if cs != [] {
      RunNamed(setup, company, cs[..|cs| - 1]);
      if StepDesk(setup, company, RunDesk(setup, company, cs[..|cs| - 1]), cs[|cs| - 1]).Ok? {
        StepNamed(setup, company, RunDesk(setup, company, cs[..|cs| - 1]), cs[|cs| - 1]);
      }
    }
  }
}
