/** Receivables and payables: what the documents of one trade leave on its control
    accounts is exactly what its open items say. */
module TieOut {
  import opened Base
  import opened Sums
  import opened Money
  import opened Journal
  import opened Consistency
  import opened Starter
  import opened Posting
  import opened Balance
  import opened Reports
  import opened Subledger

  function ControlOf(trade: Trade): Control
  {
    if trade == Sales then AR else AP
  }

  /** Receivables are a debit balance, payables a credit balance. */
  function Sign(trade: Trade): int
  {
    if trade == Sales then 1 else -1
  }

  function ControlAccounts(setup: Setup, company: Id, trade: Trade): Key -> bool
  {
    On(TaggedWith(setup, company, ControlOf(trade)))
  }

  predicate OfTrade(kind: EventType, trade: Trade)
  {
    match kind
    case SalesInvoicePosted => trade == Sales
    case CustomerReceiptPosted => trade == Sales
    case CreditNotePosted => trade == Sales
    case PurchaseInvoicePosted => trade == Purchases
    case SupplierPaymentPosted => trade == Purchases
    case DebitNotePosted => trade == Purchases
    case _ => false
  }

  predicate FromTrade(company: Id, e: Entry, trade: Trade)
  {
    Counted(e.status) && Original(company, e) && OfTrade(e.origin.event, trade)
  }

  /** What the entries posted by the documents of a trade leave on its control accounts. */
  function TradeNet(setup: Setup, company: Id, trade: Trade): Entry -> int
  {
    (e: Entry) => if FromTrade(company, e, trade) then Net(e, ControlAccounts(setup, company, trade)) else 0
  }

  /** Posted invoice totals, less what was paid on any invoice, less posted notes without an invoice. */
  function OpenItem(trade: Trade): Record -> int
  {
    (r: Record) =>
      match r.doc
      case Invoice(t, _, _, _, _, total, paid) =>
        if t != trade then 0 else (if r.status == Posted then total else 0) - paid
      case Note(t, _, _, None, amount) => if t == trade && r.status == Posted then -amount else 0
      case _ => 0
  }

  // ----------------------------------------------------------- sound documents

  /** Totals add up and what a document refers to exists. */
  predicate WellFormed(docs: seq<Record>, doc: Doc)
  {
    match doc
    case Invoice(_, _, _, subtotal, tax, total, _) => total == subtotal + tax
    case Settlement(trade, _, _, _, allocations, amount) =>
      && amount == Sum(allocations, AllocatedAmount())
      && (forall k :: 0 <= k < |allocations| ==> IsInvoice(docs, allocations[k].invoice, trade))
    case Note(trade, _, _, invoice, _) => invoice.Some? ==> IsInvoice(docs, invoice.value, trade)
    case PayrollRun(_, gross, deductions, net) => gross == net + deductions
    case _ => true
  }

  ghost predicate AllWellFormed(docs: seq<Record>)
  {
    forall i :: 0 <= i < |docs| ==> WellFormed(docs, docs[i].doc)
  }

  predicate SoundDoc(setup: Setup, company: Id, docs: seq<Record>, doc: Doc)
  {
    WellFormed(docs, doc) && (doc.Settlement? ==> OffControls(setup, company, doc.bank))
  }

  /** A bank's ledger account is not itself tagged as receivables or payables. */
  predicate OffControls(setup: Setup, company: Id, account: nat)
  {
    !TaggedWith(setup, company, AR)(account) && !TaggedWith(setup, company, AP)(account)
  }

  ghost predicate SoundDocs(setup: Setup, company: Id, docs: seq<Record>)
  {
    forall i :: 0 <= i < |docs| ==> SoundDoc(setup, company, docs, docs[i].doc)
  }

  /** The only assumption on commands: settlements go through such bank accounts, and
      only office documents post the company's office events. */
  predicate Careful(setup: Setup, company: Id, c: OfficeCommand)
  {
    && NoStray(company, c)
    && (c.NewSettlement? ==> OffControls(setup, company, c.bank))
  }

  /** Row by row, documents keep their kind, trade and amounts. */
  ghost predicate SameShape(was: seq<Record>, now: seq<Record>)
  {
    |was| <= |now| && forall i :: 0 <= i < |was| ==> SameContent(was[i].doc, now[i].doc)
  }

  /** Documents outlast every transaction of the office. */
  lemma OfficeShape(setup: Setup, company: Id, o: Office, c: OfficeCommand)
    requires StepOffice(setup, company, o, c).Ok?
    ensures SameShape(o.docs, StepOffice(setup, company, o, c).value.docs)
  {
    var now := StepOffice(setup, company, o, c).value;
    forall x | 0 <= x < |o.docs|
      ensures x < |now.docs| && SameContent(o.docs[x].doc, now.docs[x].doc)
    {
      DocumentsEvolve(setup, company, o, c, x);
    }
    if o.docs != [] {
      DocumentsEvolve(setup, company, o, c, |o.docs| - 1);
    }
  }

  /** Entries are only added, and nothing but a status ever changes. */
  ghost predicate Lasting(was: seq<Entry>, now: seq<Entry>)
  {
    |was| <= |now| && forall i :: 0 <= i < |was| ==> now[i] == was[i].(status := now[i].status)
  }

  lemma {:induction false} SeveralLasting(setup: Setup, company: Id, o: Office, order: seq<nat>)
    requires PostSeveral(setup, company, o, order).Ok?
    ensures Lasting(o.ledger.entries, PostSeveral(setup, company, o, order).value.ledger.entries)
  {
    if order != [] {
      SeveralLasting(setup, company, o, order[..|order| - 1]);
    }
  }

  /** Entries and documents outlast every transaction of the office. */
  lemma OfficeLasting(setup: Setup, company: Id, o: Office, c: OfficeCommand)
    requires StepOffice(setup, company, o, c).Ok?
    ensures var now := StepOffice(setup, company, o, c).value;
      Lasting(o.ledger.entries, now.ledger.entries) && SameShape(o.docs, now.docs)
  {
    match c {
      case RunDepreciation(asOf, order) => SeveralLasting(setup, company, o, order);
      case Books(b) => StepExtends(setup, o.ledger, b);
      case _ =>
    }
    OfficeShape(setup, company, o, c);
  }

  lemma WellFormedStays(docs: seq<Record>, now: seq<Record>, doc: Doc, later: Doc)
    requires WellFormed(docs, doc) && SameShape(docs, now) && SameContent(doc, later)
    ensures WellFormed(now, later)
  {
  }

  /** Every transaction keeps all documents well formed, and creates only such ones. */
  lemma StepWellFormed(setup: Setup, company: Id, o: Office, c: OfficeCommand)
    requires AllWellFormed(o.docs) && StepOffice(setup, company, o, c).Ok?
    ensures AllWellFormed(StepOffice(setup, company, o, c).value.docs)
  {
    var now := StepOffice(setup, company, o, c).value.docs;
    OfficeShape(setup, company, o, c);
    NewWellFormed(setup, company, o, c);
    forall i | 0 <= i < |now|
      ensures WellFormed(now, now[i].doc)
    {
      var doc := if i < |o.docs| then o.docs[i].doc else now[i].doc;
      assert WellFormed(o.docs, doc);
      WellFormedStays(o.docs, now, doc, now[i].doc);
    }
  }

  lemma {:induction false} SeveralLength(setup: Setup, company: Id, o: Office, order: seq<nat>)
    requires PostSeveral(setup, company, o, order).Ok?
    ensures |PostSeveral(setup, company, o, order).value.docs| == |o.docs|
  {
    if order != [] {
      SeveralLength(setup, company, o, order[..|order| - 1]);
    }
  }

  lemma NewWellFormed(setup: Setup, company: Id, o: Office, c: OfficeCommand)
    requires StepOffice(setup, company, o, c).Ok?
    ensures var now := StepOffice(setup, company, o, c).value.docs;
      forall i :: |o.docs| <= i < |now| ==> WellFormed(o.docs, now[i].doc)
  {
    if c.RunDepreciation? {
      SeveralLength(setup, company, o, c.order);
    }
  }

  lemma SoundGrows(setup: Setup, company: Id, was: seq<Record>, now: seq<Record>)
    requires SoundDocs(setup, company, was) && SameShape(was, now)
    requires forall i :: |was| <= i < |now| ==> SoundDoc(setup, company, was, now[i].doc)
    ensures SoundDocs(setup, company, now)
  {
    forall i | 0 <= i < |now|
      ensures SoundDoc(setup, company, now, now[i].doc)
    {
      var d := if i < |was| then was[i].doc else now[i].doc;
      assert SoundDoc(setup, company, was, d);
    }
  }

  lemma PostShape(setup: Setup, company: Id, o: Office, i: nat)
    requires PostDoc(setup, company, o, i).Ok?
    ensures var now := PostDoc(setup, company, o, i).value;
      SameShape(o.docs, now.docs) && |now.docs| == |o.docs|
  {
    PayForKeeps(o.docs, o.docs[i].doc);
  }

  // -------------------------------------------------------------- one posting

  function Owed(doc: Doc): Cents
  {
    match doc
    case Invoice(_, _, _, _, _, total, _) => total
    case Settlement(_, _, _, _, _, amount) => -amount
    case Note(_, _, _, _, amount) => -amount
    case _ => 0
  }

  predicate IsTradeDoc(doc: Doc, trade: Trade)
  {
    (doc.Invoice? || doc.Settlement? || doc.Note?) && doc.trade == trade
  }

  lemma TradeKinds(doc: Doc, trade: Trade)
    ensures OfTrade(KindOf(doc), trade) <==> IsTradeDoc(doc, trade)
  {
  }

  lemma StoredWhole(e: Event, source: AmountKey, n: int)
    requires AmountOf(e, source) == n as real
    ensures Stored(e, source) == n
  {
    ToColumnWhole(n);
  }

  /** What the rule of a document's kind does to the control account of its trade. */
  lemma RuleOwes(company: Id, i: nat, doc: Doc, trade: Trade)
    requires IsTradeDoc(doc, trade)
    ensures var e := EventOf(company, i, doc);
      Sign(trade) * Sum(StarterLines(e.kind), ControlAmount(e, ControlOf(trade))) == Owed(doc)
  {
    var e := EventOf(company, i, doc);
    ControlSum(e, StarterLines(e.kind), ControlOf(trade));
    match doc {
      case Invoice(_, _, _, _, _, total, _) => StoredWhole(e, Total, total);
      case Settlement(_, _, _, _, _, amount) => StoredWhole(e, Amount, amount);
      case Note(_, _, _, _, amount) => StoredWhole(e, Amount, amount);
      case _ =>
    }
  }

  /** Posting a document moves the control accounts of its trade by what it owes. */
  lemma PostingNet(setup: Setup, company: Id, o: Office, i: nat, trade: Trade)
    requires UsesStarterRules(setup, company) && i < |o.docs| && SoundDoc(setup, company, o.docs, o.docs[i].doc)
    requires EntryOf(setup, company, o, i).Ok? && IsTradeDoc(o.docs[i].doc, trade)
    ensures Sign(trade) * Net(EntryOf(setup, company, o, i).value, ControlAccounts(setup, company, trade))
         == Owed(o.docs[i].doc)
  {
    EventControlNet(setup, o.ledger, EventOf(company, i, o.docs[i].doc), ControlOf(trade));
    RuleOwes(company, i, o.docs[i].doc, trade);
  }

  lemma {:induction false} PayAllOpen(docs: seq<Record>, allocations: seq<Allocation>, payer: Trade, trade: Trade)
    requires forall k :: 0 <= k < |allocations| ==> IsInvoice(docs, allocations[k].invoice, payer)
    ensures Sum(PayAll(docs, allocations), OpenItem(trade))
         == Sum(docs, OpenItem(trade)) - if payer == trade then Sum(allocations, AllocatedAmount()) else 0
  {
    if allocations != [] {
      var n := |allocations| - 1;
      PayAllOpen(docs, allocations[..n], payer, trade);
      PayAllKeeps(docs, allocations[..n]);
      PayOpen(PayAll(docs, allocations[..n]), allocations[n].invoice, allocations[n].amount, payer, trade);
    }
  }

  lemma PayOpen(docs: seq<Record>, i: nat, amount: Cents, payer: Trade, trade: Trade)
    requires IsInvoice(docs, i, payer)
    ensures Sum(Pay(docs, i, amount), OpenItem(trade))
         == Sum(docs, OpenItem(trade)) - if payer == trade then amount else 0
  {
    SumUpdate(docs, i, Pay(docs, i, amount)[i], OpenItem(trade));
  }

  /** What posting a document pays off right away: its allocations, or its invoice. */
  function PaidOff(doc: Doc, trade: Trade): Cents
  {
    match doc
    case Settlement(t, _, _, _, _, amount) => if t == trade then amount else 0
    case Note(t, _, _, Some(_), amount) => if t == trade then amount else 0
    case _ => 0
  }

  lemma PayForOpen(setup: Setup, company: Id, docs: seq<Record>, doc: Doc, trade: Trade)
    requires SoundDoc(setup, company, docs, doc)
    ensures Sum(PayFor(docs, doc), OpenItem(trade)) == Sum(docs, OpenItem(trade)) - PaidOff(doc, trade)
  {
    match doc {
      case Settlement(t, _, _, _, allocations, _) => PayAllOpen(docs, allocations, t, trade);
      case Note(t, _, _, invoice, amount) =>
        if invoice.Some? {
          PayOpen(docs, invoice.value, amount, t, trade);
        }
      case _ =>
    }
  }

  /** Marking a record as posted turns its document into an open item. */
  lemma MarkOpen(r: Record, journal: nat, trade: Trade)
    requires r.status != Posted
    ensures OpenItem(trade)(r.(status := Posted, journal := Some(journal))) - OpenItem(trade)(r) - PaidOff(r.doc, trade)
         == if IsTradeDoc(r.doc, trade) then Owed(r.doc) else 0
  {
  }

  lemma PostOpen(setup: Setup, company: Id, o: Office, i: nat, trade: Trade)
    requires i < |o.docs| && SoundDoc(setup, company, o.docs, o.docs[i].doc)
    requires PostDoc(setup, company, o, i).Ok?
    ensures Sum(PostDoc(setup, company, o, i).value.docs, OpenItem(trade))
         == Sum(o.docs, OpenItem(trade)) + if IsTradeDoc(o.docs[i].doc, trade) then Owed(o.docs[i].doc) else 0
  {
    var doc := o.docs[i].doc;
    var paid := PayFor(o.docs, doc);
    PayForOpen(setup, company, o.docs, doc, trade);
    PayForKeeps(o.docs, doc);
    SumUpdate(paid, i, paid[i].(status := Posted, journal := Some(|o.ledger.entries|)), OpenItem(trade));
    MarkOpen(paid[i], |o.ledger.entries|, trade);
  }

  // ---------------------------------------------------------------- every run

  ghost predicate Ties(setup: Setup, company: Id, o: Office, trade: Trade)
  {
    Sign(trade) * Sum(o.ledger.entries, TradeNet(setup, company, trade)) == Sum(o.docs, OpenItem(trade))
  }

  ghost predicate Settled(setup: Setup, company: Id, o: Office)
  {
    SoundDocs(setup, company, o.docs) && Ties(setup, company, o, Sales) && Ties(setup, company, o, Purchases)
  }

  lemma PostedTrade(setup: Setup, company: Id, o: Office, i: nat, trade: Trade)
    requires UsesStarterRules(setup, company) && i < |o.docs| && SoundDoc(setup, company, o.docs, o.docs[i].doc)
    requires EntryOf(setup, company, o, i).Ok?
    ensures Sign(trade) * TradeNet(setup, company, trade)(EntryOf(setup, company, o, i).value)
         == if IsTradeDoc(o.docs[i].doc, trade) then Owed(o.docs[i].doc) else 0
  {
    TradeKinds(o.docs[i].doc, trade);
    if IsTradeDoc(o.docs[i].doc, trade) {
      PostingNet(setup, company, o, i, trade);
    }
  }

  lemma SignedSum(trade: Trade, a: int, b: int)
    ensures Sign(trade) * (a + b) == Sign(trade) * a + Sign(trade) * b
  {
  }

  lemma PostTies(setup: Setup, company: Id, o: Office, i: nat, trade: Trade)
    requires UsesStarterRules(setup, company) && SoundDocs(setup, company, o.docs) && Ties(setup, company, o, trade)
    requires PostDoc(setup, company, o, i).Ok?
    ensures Ties(setup, company, PostDoc(setup, company, o, i).value, trade)
  {
    var e := EntryOf(setup, company, o, i).value;
    var f := TradeNet(setup, company, trade);
    assert PostDoc(setup, company, o, i).value.ledger.entries == o.ledger.entries + [e];
    assert SoundDoc(setup, company, o.docs, o.docs[i].doc);
    SumAppend(o.ledger.entries, e, f);
    SignedSum(trade, Sum(o.ledger.entries, f), f(e));
    PostedTrade(setup, company, o, i, trade);
    PostOpen(setup, company, o, i, trade);
  }

  lemma PostSettled(setup: Setup, company: Id, o: Office, i: nat)
    requires UsesStarterRules(setup, company) && Settled(setup, company, o) && PostDoc(setup, company, o, i).Ok?
    ensures Settled(setup, company, PostDoc(setup, company, o, i).value)
  {
    PostShape(setup, company, o, i);
    SoundGrows(setup, company, o.docs, PostDoc(setup, company, o, i).value.docs);
    PostTies(setup, company, o, i, Sales);
    PostTies(setup, company, o, i, Purchases);
  }

  lemma {:induction false} SeveralSettled(setup: Setup, company: Id, o: Office, order: seq<nat>)
    requires UsesStarterRules(setup, company) && Settled(setup, company, o) && PostSeveral(setup, company, o, order).Ok?
    ensures Settled(setup, company, PostSeveral(setup, company, o, order).value)
  {
    if order != [] {
      SeveralSettled(setup, company, o, order[..|order| - 1]);
      PostSettled(setup, company, PostSeveral(setup, company, o, order[..|order| - 1]).value, order[|order| - 1]);
    }
  }

  lemma NewDocSettled(setup: Setup, company: Id, o: Office, doc: Doc)
    requires Settled(setup, company, o) && SoundDoc(setup, company, o.docs, doc)
    requires doc.Invoice? ==> doc.paid == 0
    ensures Settled(setup, company, Add(o, doc))
  {
    SoundGrows(setup, company, o.docs, Add(o, doc).docs);
    SumAppend(o.docs, Record(doc, Draft, None), OpenItem(Sales));
    SumAppend(o.docs, Record(doc, Draft, None), OpenItem(Purchases));
  }

  lemma AdvanceSettled(setup: Setup, company: Id, o: Office, i: nat, from: Status, to: Status)
    requires Settled(setup, company, o) && Advance(o, i, from, to).Ok? && from != Posted && to != Posted
    ensures Settled(setup, company, Advance(o, i, from, to).value)
  {
    SoundGrows(setup, company, o.docs, Advance(o, i, from, to).value.docs);
    SumUpdate(o.docs, i, o.docs[i].(status := to), OpenItem(Sales));
    SumUpdate(o.docs, i, o.docs[i].(status := to), OpenItem(Purchases));
  }

  lemma StatusTrade(setup: Setup, company: Id, entries: seq<Entry>, id: nat, to: Status, trade: Trade)
    requires id < |entries| && (Original(company, entries[id]) ==> (Counted(entries[id].status) <==> Counted(to)))
    ensures Sum(entries[id := entries[id].(status := to)], TradeNet(setup, company, trade))
         == Sum(entries, TradeNet(setup, company, trade))
  {
    SumUpdate(entries, id, entries[id].(status := to), TradeNet(setup, company, trade));
  }

  lemma AppendTrade(setup: Setup, company: Id, entries: seq<Entry>, e: Entry, trade: Trade)
    requires !Original(company, e)
    ensures Sum(entries + [e], TradeNet(setup, company, trade)) == Sum(entries, TradeNet(setup, company, trade))
  {
    SumAppend(entries, e, TradeNet(setup, company, trade));
  }

  lemma ReversalTrade(setup: Setup, company: Id, led: Ledger, id: nat, date: int, trade: Trade)
    requires Reverse(led, id, date).Ok?
    ensures Sum(Reverse(led, id, date).value.entries, TradeNet(setup, company, trade))
         == Sum(led.entries, TradeNet(setup, company, trade))
  {
    var r := ReversalEntry(led, id, date).value;
    AppendTrade(setup, company, led.entries, r, trade);
    StatusTrade(setup, company, led.entries + [r], id, Reversed, trade);
  }

  lemma OriginalsCount(company: Id, o: Office)
    requires Named(company, o)
    ensures forall j :: 0 <= j < |o.ledger.entries| && Original(company, o.ledger.entries[j]) ==>
      Counted(o.ledger.entries[j].status)
  {
    forall j | 0 <= j < |o.ledger.entries| && Original(company, o.ledger.entries[j])
      ensures Counted(o.ledger.entries[j].status)
    {
      assert Sources(company, o, j, o.ledger.entries[j].origin.doc);
    }
  }

  /** Documents post their entries at once, so manual steps and reversals leave their effect alone. */
  lemma BooksTrade(setup: Setup, company: Id, o: Office, c: Command, trade: Trade)
    requires Named(company, o) && Step(setup, o.ledger, c).Ok? && NoStray(company, Books(c))
    ensures Sum(Step(setup, o.ledger, c).value.entries, TradeNet(setup, company, trade))
         == Sum(o.ledger.entries, TradeNet(setup, company, trade))
  {
    var es := o.ledger.entries;
    OriginalsCount(company, o);
    match c {
      case DoEvent(e) => AppendTrade(setup, company, es, EventEntry(setup, o.ledger, e).value, trade);
      case DoManual(m) => AppendTrade(setup, company, es, DraftEntry(setup, o.ledger, m).value, trade);
      case DoSubmit(id) => StatusTrade(setup, company, es, id, Submitted, trade);
      case DoApprove(id) => StatusTrade(setup, company, es, id, Approved, trade);
      case DoPost(id) => StatusTrade(setup, company, es, id, Posted, trade);
      case DoReverse(id, date) => ReversalTrade(setup, company, o.ledger, id, date, trade);
      case DoSetPeriod(_, _) =>
      case DoAddPeriods(_) =>
    }
  }

  lemma CreationSettled(setup: Setup, company: Id, o: Office, c: OfficeCommand)
    requires Settled(setup, company, o) && Careful(setup, company, c) && StepOffice(setup, company, o, c).Ok?
    requires c.AddInvoice? || c.NewSettlement? || c.NewNote? || c.NewPayroll? || c.NewSchedule?
    ensures Settled(setup, company, StepOffice(setup, company, o, c).value)
  {
    var now := StepOffice(setup, company, o, c).value;
    var doc := now.docs[|o.docs|].doc;
    assert now == Add(o, doc);
    NewDocSettled(setup, company, o, doc);
  }

  lemma StepSettled(setup: Setup, company: Id, o: Office, c: OfficeCommand)
    requires UsesStarterRules(setup, company) && Named(company, o) && Settled(setup, company, o)
    requires Careful(setup, company, c)
    requires StepOffice(setup, company, o, c).Ok?
    ensures Settled(setup, company, StepOffice(setup, company, o, c).value)
  {
    match c {
      case SubmitInvoice(i) => AdvanceSettled(setup, company, o, i, Draft, Submitted);
      case ApproveInvoice(i) => AdvanceSettled(setup, company, o, i, Submitted, Approved);
      case ApprovePayroll(i) => AdvanceSettled(setup, company, o, i, Draft, Approved);
      case DoPostDoc(i) => PostSettled(setup, company, o, i);
      case RunDepreciation(asOf, order) => SeveralSettled(setup, company, o, order);
      case Books(b) =>
        BooksTrade(setup, company, o, b, Sales);
        BooksTrade(setup, company, o, b, Purchases);
      case _ => CreationSettled(setup, company, o, c);
    }
  }

  /** In every serial run, for receivables and for payables: the balance the
      documents of the trade leave on its control accounts equals posted invoice
      totals, less what was paid on all invoices, less posted notes without one. */
  lemma {:induction false} RunSettled(setup: Setup, company: Id, cs: seq<OfficeCommand>)
    requires UsesStarterRules(setup, company) && forall n :: 0 <= n < |cs| ==> Careful(setup, company, cs[n])
    ensures Settled(setup, company, RunOffice(setup, company, cs))
  {
    if cs != [] {
      var before := cs[..|cs| - 1];
      RunSettled(setup, company, before);
      RunNamed(setup, company, before);
      if StepOffice(setup, company, RunOffice(setup, company, before), cs[|cs| - 1]).Ok? {
        StepSettled(setup, company, RunOffice(setup, company, before), cs[|cs| - 1]);
      }
    }
  }

  // -------------------------------------------------------- exactly balanced

  /** Every event a sound document hands to the engine adds up, so its entry balances to the cent. */
  lemma DocumentsBalance(setup: Setup, company: Id, o: Office, i: nat)
    requires UsesStarterRules(setup, company) && i < |o.docs| && SoundDoc(setup, company, o.docs, o.docs[i].doc)
    requires EntryOf(setup, company, o, i).Ok?
    ensures Imbalance(EntryOf(setup, company, o, i).value) == 0
  {
    var doc := o.docs[i].doc;
    var e := EventOf(company, i, doc);
    EventBalancedIff(setup, o.ledger, e);
    match doc {
      case Invoice(_, _, _, subtotal, tax, total, _) =>
        StoredWhole(e, Total, total);
        StoredWhole(e, Subtotal, subtotal);
        StoredWhole(e, TaxAmount, tax);
      case PayrollRun(_, gross, deductions, net) =>
        StoredWhole(e, TotalGross, gross);
        StoredWhole(e, TotalNet, net);
        StoredWhole(e, TotalDeductions, deductions);
      case _ =>
    }
  }

  // ------------------------------------------------ the ledger of an office

  lemma {:induction false} RunFromConcat(setup: Setup, start: Ledger, a: seq<Command>, b: seq<Command>)
    ensures RunFrom(setup, start, a + b) == RunFrom(setup, RunFrom(setup, start, a), b)
  {
    if b == [] {
      assert a + b == a;
    } else {
      assert (a + b)[..|a + b| - 1] == a + b[..|b| - 1];
      RunFromConcat(setup, start, a, b[..|b| - 1]);
    }
  }

  ghost predicate AllSound(company: Id, ls: seq<Command>, whole: bool)
  {
    forall i :: 0 <= i < |ls| ==> Sound(ls[i], company, whole)
  }

  lemma OneCommand(setup: Setup, start: Ledger, c: Command)
    ensures RunFrom(setup, start, [c]) == Commit(start, Step(setup, start, c))
  {
    assert [c][..0] == [];
  }

  lemma PostingCommand(setup: Setup, company: Id, o: Office, i: nat) returns (c: Command)
    requires UsesStarterRules(setup, company) && SoundDocs(setup, company, o.docs) && PostDoc(setup, company, o, i).Ok?
    ensures Sound(c, company, true) && Sound(c, company, false)
    ensures PostDoc(setup, company, o, i).value.ledger == RunFrom(setup, o.ledger, [c])
  {
    c := DoEvent(EventOf(company, i, o.docs[i].doc));
    assert SoundDoc(setup, company, o.docs, o.docs[i].doc);
    DocumentsBalance(setup, company, o, i);
    EventBalancedIff(setup, o.ledger, c.event);
    OneCommand(setup, o.ledger, c);
  }

  lemma {:induction false} SeveralCommands(setup: Setup, company: Id, o: Office, order: seq<nat>)
    returns (ls: seq<Command>)
    requires UsesStarterRules(setup, company) && Settled(setup, company, o) && PostSeveral(setup, company, o, order).Ok?
    ensures AllSound(company, ls, true) && AllSound(company, ls, false)
    ensures PostSeveral(setup, company, o, order).value.ledger == RunFrom(setup, o.ledger, ls)
  {
    if order == [] {
      ls := [];
    } else {
      var before := order[..|order| - 1];
      var mid := PostSeveral(setup, company, o, before).value;
      SeveralSettled(setup, company, o, before);
      var first := SeveralCommands(setup, company, o, before);
      var c := PostingCommand(setup, company, mid, order[|order| - 1]);
      ls := first + [c];
      RunFromConcat(setup, o.ledger, first, [c]);
    }
  }

  /** The company's manual entries are in whole cents. */
  predicate WholeManual(company: Id, c: OfficeCommand)
  {
    c.Books? && c.c.DoManual? && c.c.manual.company == company ==>
      forall i :: 0 <= i < |c.c.manual.lines| ==> WholeCents(c.c.manual.lines[i])
  }

  lemma StepCommands(setup: Setup, company: Id, o: Office, c: OfficeCommand, whole: bool) returns (ls: seq<Command>)
    requires UsesStarterRules(setup, company) && Settled(setup, company, o)
    requires Careful(setup, company, c) && (whole ==> WholeManual(company, c)) && StepOffice(setup, company, o, c).Ok?
    ensures AllSound(company, ls, whole)
    ensures StepOffice(setup, company, o, c).value.ledger == RunFrom(setup, o.ledger, ls)
  {
    ls := [];
    match c {
      case DoPostDoc(i) =>
        var p := PostingCommand(setup, company, o, i);
        ls := [p];
      case RunDepreciation(asOf, order) => ls := SeveralCommands(setup, company, o, order);
      case Books(b) =>
        OneCommand(setup, o.ledger, b);
        ls := [b];
      case _ =>
    }
  }

  /** The ledger of any run of documents is the ledger of a run of sound ledger
      commands, so everything proved of those holds of it. */
  lemma {:induction false} LedgerRun(setup: Setup, company: Id, cs: seq<OfficeCommand>, whole: bool)
    returns (ls: seq<Command>)
    requires UsesStarterRules(setup, company)
    requires forall n :: 0 <= n < |cs| ==> Careful(setup, company, cs[n]) && (whole ==> WholeManual(company, cs[n]))
    ensures AllSound(company, ls, whole) && RunOffice(setup, company, cs).ledger == Run(setup, ls)
  {
    if cs == [] {
      ls := [];
    } else {
      var before := cs[..|cs| - 1];
      var o := RunOffice(setup, company, before);
      ls := LedgerRun(setup, company, before, whole);
      RunSettled(setup, company, before);
      if StepOffice(setup, company, o, cs[|cs| - 1]).Ok? {
        var more := StepCommands(setup, company, o, cs[|cs| - 1], whole);
        RunFromConcat(setup, EMPTY_LEDGER, ls, more);
        ls := ls + more;
      }
    }
  }

  /** The trial balance of any run of documents sums to at most one cent for each
      reported manual entry or reversal of one. */
  lemma OfficeTrialBalance(setup: Setup, company: Id, cs: seq<OfficeCommand>, asOf: int)
    requires UsesStarterRules(setup, company)
    requires forall n :: 0 <= n < |cs| ==> Careful(setup, company, cs[n]) && WholeManual(company, cs[n])
    ensures var led := RunOffice(setup, company, cs).ledger;
      Abs(GrandTotal(TrialBalance(setup, led, company, asOf)))
        <= Sum(led.entries, ManualCount(led.periods, company, asOf))
  {
    var ls := LedgerRun(setup, company, cs, true);
    GrandTotalBound(setup, ls, company, asOf);
  }

  // ------------------------------------------- the control balance of a report

  /** The company's depreciation accounts are not tagged as receivables or payables. */
  predicate ScheduleOff(setup: Setup, company: Id, doc: Doc)
  {
    doc.Schedule? ==> OffControls(setup, company, doc.expense) && OffControls(setup, company, doc.accumulated)
  }

  predicate SparesControls(setup: Setup, company: Id, c: OfficeCommand)
  {
    Careful(setup, company, c)
    && (c.NewSchedule? ==> OffControls(setup, company, c.expense) && OffControls(setup, company, c.accumulated))
  }

  /** An entry some document posted, other than one of the trade, is off its control accounts. */
  ghost predicate EntryOff(setup: Setup, company: Id, trade: Trade, e: Entry)
  {
    e.origin.Document? && e.reversalOf.None? && !(e.head.company == company && OfTrade(e.origin.event, trade)) ==>
      Net(e, ControlAccounts(setup, company, trade)) == 0
  }

  ghost predicate OfficeOff(setup: Setup, company: Id, trade: Trade, o: Office)
  {
    && (forall i :: 0 <= i < |o.docs| ==> ScheduleOff(setup, company, o.docs[i].doc))
    && (forall j :: 0 <= j < |o.ledger.entries| ==> EntryOff(setup, company, trade, o.ledger.entries[j]))
  }

  /** No rule of another document names the control account of a trade. */
  lemma OtherRulesOff(setup: Setup, company: Id, i: nat, docs: seq<Record>, doc: Doc, trade: Trade)
    requires SoundDoc(setup, company, docs, doc) && ScheduleOff(setup, company, doc) && !IsTradeDoc(doc, trade)
    ensures EventOff(setup, company, EventOf(company, i, doc), ControlOf(trade))
  {
  }

  lemma PostedOff(setup: Setup, company: Id, o: Office, i: nat, trade: Trade)
    requires UsesStarterRules(setup, company) && i < |o.docs| && EntryOf(setup, company, o, i).Ok?
    requires SoundDoc(setup, company, o.docs, o.docs[i].doc) && ScheduleOff(setup, company, o.docs[i].doc)
    ensures EntryOff(setup, company, trade, EntryOf(setup, company, o, i).value)
  {
    TradeKinds(o.docs[i].doc, trade);
    if !IsTradeDoc(o.docs[i].doc, trade) {
      OtherRulesOff(setup, company, i, o.docs, o.docs[i].doc, trade);
      EventOffNet(setup, o.ledger, EventOf(company, i, o.docs[i].doc), company, ControlOf(trade));
    }
  }

  /** Stock documents and other companies leave the control accounts alone. */
  lemma ForeignOff(setup: Setup, company: Id, led: Ledger, e: Event, trade: Trade)
    requires UsesStarterRules(setup, company) && Foreign(company, e) && EventEntry(setup, led, e).Ok?
    ensures EntryOff(setup, company, trade, EventEntry(setup, led, e).value)
  {
    assert EventOff(setup, company, e, ControlOf(trade));
    EventOffNet(setup, led, e, company, ControlOf(trade));
  }

  /** Entries only change status and the new ones are off; documents keep their accounts. */
  lemma OffGrows(setup: Setup, company: Id, trade: Trade, was: Office, now: Office)
    requires OfficeOff(setup, company, trade, was) && SameShape(was.docs, now.docs)
    requires forall i :: |was.docs| <= i < |now.docs| ==> ScheduleOff(setup, company, now.docs[i].doc)
    requires |was.ledger.entries| <= |now.ledger.entries|
    requires forall j :: 0 <= j < |was.ledger.entries| ==>
      now.ledger.entries[j] == was.ledger.entries[j].(status := now.ledger.entries[j].status)
    requires forall j :: |was.ledger.entries| <= j < |now.ledger.entries| ==>
      EntryOff(setup, company, trade, now.ledger.entries[j])
    ensures OfficeOff(setup, company, trade, now)
  {
    forall i | 0 <= i < |now.docs|
      ensures ScheduleOff(setup, company, now.docs[i].doc)
    {
      assert i < |was.docs| ==> ScheduleOff(setup, company, was.docs[i].doc);
    }
    forall j | 0 <= j < |now.ledger.entries|
      ensures EntryOff(setup, company, trade, now.ledger.entries[j])
    {
      assert j < |was.ledger.entries| ==> EntryOff(setup, company, trade, was.ledger.entries[j]);
    }
  }

  lemma PostOff(setup: Setup, company: Id, o: Office, i: nat, trade: Trade)
    requires UsesStarterRules(setup, company) && SoundDocs(setup, company, o.docs)
    requires OfficeOff(setup, company, trade, o)
    requires PostDoc(setup, company, o, i).Ok?
    ensures OfficeOff(setup, company, trade, PostDoc(setup, company, o, i).value)
  {
    assert SoundDoc(setup, company, o.docs, o.docs[i].doc) && ScheduleOff(setup, company, o.docs[i].doc);
    PostShape(setup, company, o, i);
    PostedOff(setup, company, o, i, trade);
    OffGrows(setup, company, trade, o, PostDoc(setup, company, o, i).value);
  }

  lemma {:induction false} SeveralOff(setup: Setup, company: Id, o: Office, order: seq<nat>, trade: Trade)
    requires UsesStarterRules(setup, company) && Settled(setup, company, o) && OfficeOff(setup, company, trade, o)
    requires PostSeveral(setup, company, o, order).Ok?
    ensures OfficeOff(setup, company, trade, PostSeveral(setup, company, o, order).value)
  {
    if order != [] {
      var before := order[..|order| - 1];
      SeveralOff(setup, company, o, before, trade);
      SeveralSettled(setup, company, o, before);
      PostOff(setup, company, PostSeveral(setup, company, o, before).value, order[|order| - 1], trade);
    }
  }

  lemma BooksOff(setup: Setup, company: Id, o: Office, c: Command, trade: Trade)
    requires UsesStarterRules(setup, company) && OfficeOff(setup, company, trade, o)
    requires NoStray(company, Books(c)) && Step(setup, o.ledger, c).Ok?
    ensures OfficeOff(setup, company, trade, o.(ledger := Step(setup, o.ledger, c).value))
  {
    StepExtends(setup, o.ledger, c);
    if c.DoEvent? {
      ForeignOff(setup, company, o.ledger, c.event, trade);
    }
    OffGrows(setup, company, trade, o, o.(ledger := Step(setup, o.ledger, c).value));
  }

  lemma CreationOff(setup: Setup, company: Id, o: Office, c: OfficeCommand, trade: Trade)
    requires OfficeOff(setup, company, trade, o) && SparesControls(setup, company, c)
    requires StepOffice(setup, company, o, c).Ok?
    requires !c.DoPostDoc? && !c.RunDepreciation? && !c.Books?
    ensures OfficeOff(setup, company, trade, StepOffice(setup, company, o, c).value)
  {
    OffGrows(setup, company, trade, o, StepOffice(setup, company, o, c).value);
  }

  lemma StepOff(setup: Setup, company: Id, o: Office, c: OfficeCommand, trade: Trade)
    requires UsesStarterRules(setup, company) && Settled(setup, company, o) && OfficeOff(setup, company, trade, o)
    requires SparesControls(setup, company, c) && StepOffice(setup, company, o, c).Ok?
    ensures OfficeOff(setup, company, trade, StepOffice(setup, company, o, c).value)
  {
    match c {
      case DoPostDoc(i) => PostOff(setup, company, o, i, trade);
      case RunDepreciation(asOf, order) => SeveralOff(setup, company, o, order, trade);
      case Books(b) => BooksOff(setup, company, o, b, trade);
      case _ => CreationOff(setup, company, o, c, trade);
    }
  }

  /** In every serial run the documents of other trades, of stock and of other companies
      leave the control accounts of a trade alone. */
  lemma {:induction false} RunOff(setup: Setup, company: Id, cs: seq<OfficeCommand>, trade: Trade)
    requires UsesStarterRules(setup, company) && forall n :: 0 <= n < |cs| ==> SparesControls(setup, company, cs[n])
    ensures OfficeOff(setup, company, trade, RunOffice(setup, company, cs))
  {
    if cs != [] {
      var before := cs[..|cs| - 1];
      RunOff(setup, company, before, trade);
      RunSettled(setup, company, before);
      if StepOffice(setup, company, RunOffice(setup, company, before), cs[|cs| - 1]).Ok? {
        StepOff(setup, company, RunOffice(setup, company, before), cs[|cs| - 1], trade);
      }
    }
  }

  predicate ByHand(e: Entry)
  {
    Counted(e.status) && (e.origin.Manual? || e.reversalOf.Some?)
  }

  /** Manual entries and reversals net to nothing on the control accounts of the trade. */
  ghost predicate HandsOff(setup: Setup, company: Id, entries: seq<Entry>, trade: Trade)
  {
    forall j :: 0 <= j < |entries| && ByHand(entries[j]) ==>
      Net(entries[j], ControlAccounts(setup, company, trade)) == 0
  }

  /** Then every entry moves those accounts exactly as the trade's documents do. */
  lemma OnlyTradeMoves(setup: Setup, company: Id, cs: seq<OfficeCommand>, trade: Trade, j: nat)
    requires UsesStarterRules(setup, company) && forall n :: 0 <= n < |cs| ==> SparesControls(setup, company, cs[n])
    requires HandsOff(setup, company, RunOffice(setup, company, cs).ledger.entries, trade)
    requires j < |RunOffice(setup, company, cs).ledger.entries|
    ensures var e := RunOffice(setup, company, cs).ledger.entries[j];
      NetPart(ControlAccounts(setup, company, trade))(e) == TradeNet(setup, company, trade)(e)
  {
    RunOff(setup, company, cs, trade);
    assert EntryOff(setup, company, trade, RunOffice(setup, company, cs).ledger.entries[j]);
  }

  /** When no manual entry or reversal moves the control accounts, their balance in the
      summary rows is the open items, to the cent. */
  lemma ControlBalanceIsOpenItems(setup: Setup, company: Id, cs: seq<OfficeCommand>, trade: Trade)
    requires UsesStarterRules(setup, company) && forall n :: 0 <= n < |cs| ==> SparesControls(setup, company, cs[n])
    requires HandsOff(setup, company, RunOffice(setup, company, cs).ledger.entries, trade)
    ensures var o := RunOffice(setup, company, cs);
      Sign(trade) * SumOver(RowsWhere(o.ledger.rows, ControlAccounts(setup, company, trade)), NetAmount(o.ledger.rows))
        == Sum(o.docs, OpenItem(trade))
  {
    var o := RunOffice(setup, company, cs);
    RunSettled(setup, company, cs);
    var ls := LedgerRun(setup, company, cs, false);
    RunConsistent(setup, ls);
    var p := ControlAccounts(setup, company, trade);
    SummaryNet(o.ledger.entries, o.ledger.rows, p);
    forall j | 0 <= j < |o.ledger.entries|
      ensures NetPart(p)(o.ledger.entries[j]) == TradeNet(setup, company, trade)(o.ledger.entries[j])
    {
      OnlyTradeMoves(setup, company, cs, trade, j);
    }
    SumEqual(o.ledger.entries, NetPart(p), TradeNet(setup, company, trade));
  }
}
