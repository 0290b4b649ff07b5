/** What posting a document does to its company's books and to the invoices it pays,
    exactly when it is posted, and what every posted document's entry says in every run. */
module Effects {
  import opened Base
  import opened Sums
  import opened Money
  import opened Journal
  import opened Consistency
  import opened Starter
  import opened Posting
  import opened Subledger
  import opened TieOut

  // ----------------------------------------------------- account by account

  /** What a document debits less credits on the accounts of a control tag it names. */
  function ByRule(doc: Doc, control: Control): Cents
  {
    match doc
    case Invoice(Sales, _, _, subtotal, tax, total, _) =>
      if control == AR then total
      else if control == SalesRevenue then -subtotal
      else if control == TaxOutput then -tax else 0
    case Invoice(Purchases, _, _, subtotal, tax, total, _) =>
      if control == AP then -total
      else if control == PurchaseExpense then subtotal
      else if control == TaxInput then tax else 0
    case Settlement(Sales, _, _, _, _, amount) => if control == AR then -amount else 0
    case Settlement(Purchases, _, _, _, _, amount) => if control == AP then amount else 0
    case Note(Sales, _, _, _, amount) =>
      if control == AR then -amount else if control == SalesRevenue then amount else 0
    case Note(Purchases, _, _, _, amount) =>
      if control == AP then amount else if control == PurchaseExpense then -amount else 0
    case PayrollRun(_, gross, deductions, net) =>
      if control == SalaryExpense then gross
      else if control == SalaryPayable then -net
      else if control == StatutoryPayable then -deductions else 0
    case Schedule(_, _, _, _) => 0
  }

  /** What it debits less credits on those of the accounts in q that it chooses itself. */
  function ByChoice(doc: Doc, q: nat -> bool): Cents
  {
    match doc
    case Settlement(Sales, _, _, bank, _, amount) => if q(bank) then amount else 0
    case Settlement(Purchases, _, _, bank, _, amount) => if q(bank) then -amount else 0
    case Schedule(_, amount, expense, accumulated) =>
      (if q(expense) then amount else 0) - if q(accumulated) then amount else 0
    case _ => 0
  }

  /** What a rule line moves on the accounts in q, control of which they carry. */
  function PartOn(e: Event, l: RuleLine, control: Control, q: nat -> bool): Cents
  {
    var amount := if l.side == Debit then Stored(e, l.source) else -Stored(e, l.source);
    match l.resolver
    case ByControl(c) => if c == control then amount else 0
    case ByOverride(key) => if key in e.overrides && q(e.overrides[key]) then amount else 0
    case Malformed => 0
  }

  lemma SignedIsPart(setup: Setup, e: Event, l: RuleLine, control: Control)
    requires Resolved(setup, e, l)
    ensures var q := TaggedWith(setup, e.company, control); Signed(setup, e, q)(l) == PartOn(e, l, control, q)
  {
    ZeroColumn();
    ResolvesIff(setup, e.company, l.resolver, e.overrides);
  }

  /** What a rule moves on those accounts. */
  function Parts(e: Event, ls: seq<RuleLine>, control: Control, q: nat -> bool): Cents
    requires 2 <= |ls| <= 4
  {
    PartOn(e, ls[0], control, q) + PartOn(e, ls[1], control, q)
    + (if |ls| > 2 then PartOn(e, ls[2], control, q) else 0)
    + if |ls| > 3 then PartOn(e, ls[3], control, q) else 0
  }

  lemma SumIsParts(setup: Setup, e: Event, ls: seq<RuleLine>, control: Control)
    requires 2 <= |ls| <= 4 && forall i :: 0 <= i < |ls| ==> Resolved(setup, e, ls[i])
    ensures var q := TaggedWith(setup, e.company, control); Sum(ls, Signed(setup, e, q)) == Parts(e, ls, control, q)
  {
    var q := TaggedWith(setup, e.company, control);
    forall i | 0 <= i < |ls|
      ensures Signed(setup, e, q)(ls[i]) == PartOn(e, ls[i], control, q)
    {
      SignedIsPart(setup, e, ls[i], control);
    }
    SumOfLines(ls, Signed(setup, e, q));
  }

  lemma EventParts(setup: Setup, led: Ledger, e: Event, ls: seq<RuleLine>, control: Control)
    requires EventEntry(setup, led, e).Ok? && setup.rules[(e.company, e.kind)].lines == ls && 2 <= |ls| <= 4
    ensures var q := TaggedWith(setup, e.company, control);
      Net(EventEntry(setup, led, e).value, On(q)) == Parts(e, ls, control, q)
  {
    RuleNet(setup, e, ls, EventEntry(setup, led, e).value.head, TaggedWith(setup, e.company, control));
    BuildsIff(setup, e, ls);
    SumIsParts(setup, e, ls, control);
  }

  /** The amounts a document hands over are stored as they are. */
  lemma StoredAmounts(company: Id, i: nat, doc: Doc)
    ensures var e := EventOf(company, i, doc);
      match doc
      case Invoice(_, _, _, subtotal, tax, total, _) =>
        Stored(e, Subtotal) == subtotal && Stored(e, TaxAmount) == tax && Stored(e, Total) == total
      case PayrollRun(_, gross, deductions, net) =>
        Stored(e, TotalGross) == gross && Stored(e, TotalDeductions) == deductions && Stored(e, TotalNet) == net
      case _ => Stored(e, Amount) == doc.amount
  {
    var e := EventOf(company, i, doc);
    match doc {
      case Invoice(_, _, _, subtotal, tax, total, _) =>
        StoredWhole(e, Subtotal, subtotal);
        StoredWhole(e, TaxAmount, tax);
        StoredWhole(e, Total, total);
      case PayrollRun(_, gross, deductions, net) =>
        StoredWhole(e, TotalGross, gross);
        StoredWhole(e, TotalDeductions, deductions);
        StoredWhole(e, TotalNet, net);
      case _ => StoredWhole(e, Amount, doc.amount);
    }
  }

  lemma InvoiceBooks(company: Id, i: nat, doc: Doc, control: Control, q: nat -> bool)
    requires doc.Invoice?
    ensures Parts(EventOf(company, i, doc), StarterLines(KindOf(doc)), control, q) == ByRule(doc, control)
  {
    StoredAmounts(company, i, doc);
  }

  lemma SettlementBooks(company: Id, i: nat, doc: Doc, control: Control, q: nat -> bool)
    requires doc.Settlement?
    ensures var ls := StarterLines(KindOf(doc));
      Parts(EventOf(company, i, doc), ls, control, q) == ByRule(doc, control) + ByChoice(doc, q)
  {
    StoredAmounts(company, i, doc);
  }

  lemma NoteBooks(company: Id, i: nat, doc: Doc, control: Control, q: nat -> bool)
    requires doc.Note?
    ensures Parts(EventOf(company, i, doc), StarterLines(KindOf(doc)), control, q) == ByRule(doc, control)
  {
    StoredAmounts(company, i, doc);
  }

  lemma PayrollBooks(company: Id, i: nat, doc: Doc, control: Control, q: nat -> bool)
    requires doc.PayrollRun?
    ensures Parts(EventOf(company, i, doc), StarterLines(KindOf(doc)), control, q) == ByRule(doc, control)
  {
    StoredAmounts(company, i, doc);
  }

  lemma ScheduleBooks(company: Id, i: nat, doc: Doc, control: Control, q: nat -> bool)
    requires doc.Schedule?
    ensures Parts(EventOf(company, i, doc), StarterLines(KindOf(doc)), control, q) == ByChoice(doc, q)
  {
    StoredAmounts(company, i, doc);
  }

  /** The net effect of every kind of document on every control tag: what its rule names,
      and the accounts the document chooses itself when they carry the tag. */
  lemma DocumentNet(setup: Setup, company: Id, led: Ledger, i: nat, doc: Doc, control: Control)
    requires UsesStarterRules(setup, company) && EventEntry(setup, led, EventOf(company, i, doc)).Ok?
    ensures var q := TaggedWith(setup, company, control);
      Net(EventEntry(setup, led, EventOf(company, i, doc)).value, On(q)) == ByRule(doc, control) + ByChoice(doc, q)
  {
    var q := TaggedWith(setup, company, control);
    EventParts(setup, led, EventOf(company, i, doc), StarterLines(KindOf(doc)), control);
    if doc.Invoice? {
      InvoiceBooks(company, i, doc, control, q);
    } else if doc.Settlement? {
      SettlementBooks(company, i, doc, control, q);
    } else if doc.Note? {
      NoteBooks(company, i, doc, control, q);
    } else if doc.PayrollRun? {
      PayrollBooks(company, i, doc, control, q);
    } else {
      ScheduleBooks(company, i, doc, control, q);
    }
  }

  lemma SignedOwn(setup: Setup, e: Event, l: RuleLine, q: nat -> bool)
    requires l.resolver.ByOverride? && l.resolver.key in e.overrides && Resolved(setup, e, l)
    ensures Signed(setup, e, q)(l) == if q(e.overrides[l.resolver.key]) then SignedAmount(e)(l) else 0
  {
    ZeroColumn();
    ResolvesIff(setup, e.company, l.resolver, e.overrides);
  }

  /** Two lines on accounts the event names itself. */
  lemma OwnSum(setup: Setup, e: Event, ls: seq<RuleLine>, q: nat -> bool)
    requires |ls| == 2 && forall k :: 0 <= k < 2 ==>
      ls[k].resolver.ByOverride? && ls[k].resolver.key in e.overrides && Resolved(setup, e, ls[k])
    ensures Sum(ls, Signed(setup, e, q))
         == (if q(e.overrides[ls[0].resolver.key]) then SignedAmount(e)(ls[0]) else 0)
            + if q(e.overrides[ls[1].resolver.key]) then SignedAmount(e)(ls[1]) else 0
  {
    SignedOwn(setup, e, ls[0], q);
    SignedOwn(setup, e, ls[1], q);
    assert ls == [ls[0], ls[1]];
    SumOfTwo(ls[0], ls[1], Signed(setup, e, q));
  }

  lemma OwnNet(setup: Setup, led: Ledger, e: Event, ls: seq<RuleLine>, q: nat -> bool)
    requires EventEntry(setup, led, e).Ok? && setup.rules[(e.company, e.kind)].lines == ls && |ls| == 2
    requires forall k :: 0 <= k < 2 ==> ls[k].resolver.ByOverride? && ls[k].resolver.key in e.overrides
    ensures Net(EventEntry(setup, led, e).value, On(q))
         == (if q(e.overrides[ls[0].resolver.key]) then SignedAmount(e)(ls[0]) else 0)
            + if q(e.overrides[ls[1].resolver.key]) then SignedAmount(e)(ls[1]) else 0
  {
    RuleNet(setup, e, ls, EventEntry(setup, led, e).value.head, q);
    BuildsIff(setup, e, ls);
    OwnSum(setup, e, ls, q);
  }

  /** Depreciation on any set of accounts: onto the expense, off the accumulated account. */
  lemma ScheduleNet(setup: Setup, company: Id, led: Ledger, i: nat, doc: Doc, q: nat -> bool)
    requires doc.Schedule? && UsesStarterRules(setup, company)
    requires EventEntry(setup, led, EventOf(company, i, doc)).Ok?
    ensures Net(EventEntry(setup, led, EventOf(company, i, doc)).value, On(q)) == ByChoice(doc, q)
  {
    OwnNet(setup, led, EventOf(company, i, doc), StarterLines(AssetDepreciationPosted), q);
    StoredAmounts(company, i, doc);
  }

  // ------------------------------------------------ in every run, entry by entry

  /** The dimensions a document's lines carry: its customer or supplier, and nothing else. */
  function PartyOf(doc: Doc): Dims
  {
    var traded := doc.Invoice? || doc.Settlement? || doc.Note?;
    Dims(None, None, None, None, if traded && doc.trade == Sales then Some(doc.party) else None,
         if traded && doc.trade == Purchases then Some(doc.party) else None, None)
  }

  /** An entry that says what the document says: its company, its date, its party, and what
      it books on the accounts of every control tag. */
  ghost predicate Tells(setup: Setup, company: Id, doc: Doc, e: Entry)
  {
    && e.head.company == company && e.head.branch == None && e.date == doc.date
    && (forall k :: 0 <= k < |e.lines| ==> e.lines[k].dims == PartyOf(doc))
    && forall control: Control ::
         var q := TaggedWith(setup, company, control); Net(e, On(q)) == ByRule(doc, control) + ByChoice(doc, q)
  }

  ghost predicate Told(setup: Setup, company: Id, o: Office)
  {
    forall x :: 0 <= x < |o.docs| && o.docs[x].journal.Some? ==>
      o.docs[x].journal.value < |o.ledger.entries|
      && Tells(setup, company, o.docs[x].doc, o.ledger.entries[o.docs[x].journal.value])
  }

  lemma EntryTells(setup: Setup, company: Id, o: Office, i: nat)
    requires UsesStarterRules(setup, company) && i < |o.docs| && EntryOf(setup, company, o, i).Ok?
    ensures Tells(setup, company, o.docs[i].doc, EntryOf(setup, company, o, i).value)
  {
    EventEntryIs(setup, o.ledger, EventOf(company, i, o.docs[i].doc));
    forall control: Control
      ensures var q := TaggedWith(setup, company, control);
        Net(EntryOf(setup, company, o, i).value, On(q)) == ByRule(o.docs[i].doc, control) + ByChoice(o.docs[i].doc, q)
    {
      DocumentNet(setup, company, o.ledger, i, o.docs[i].doc, control);
    }
  }

  /** A later status of the entry or later payments of the document make no difference. */
  lemma TellsLasts(setup: Setup, company: Id, doc: Doc, e: Entry, later: Doc, now: Entry)
    requires Tells(setup, company, doc, e) && SameContent(doc, later) && now == e.(status := now.status)
    ensures Tells(setup, company, later, now)
  {
    forall control: Control
      ensures var q := TaggedWith(setup, company, control);
        Net(now, On(q)) == ByRule(later, control) + ByChoice(later, q)
    {
      var q := TaggedWith(setup, company, control);
      assert Net(e, On(q)) == ByRule(doc, control) + ByChoice(doc, q);
    }
  }

  lemma ToldGrows(setup: Setup, company: Id, was: Office, now: Office)
    requires Told(setup, company, was)
    requires Lasting(was.ledger.entries, now.ledger.entries) && SameShape(was.docs, now.docs)
    requires forall x :: 0 <= x < |now.docs| && now.docs[x].journal.Some? ==>
      (x < |was.docs| && now.docs[x].journal == was.docs[x].journal)
      || (now.docs[x].journal.value < |now.ledger.entries|
          && Tells(setup, company, now.docs[x].doc, now.ledger.entries[now.docs[x].journal.value]))
    ensures Told(setup, company, now)
  {
    forall x | 0 <= x < |now.docs| && now.docs[x].journal.Some?
      ensures now.docs[x].journal.value < |now.ledger.entries|
      ensures Tells(setup, company, now.docs[x].doc, now.ledger.entries[now.docs[x].journal.value])
    {
      if x < |was.docs| && now.docs[x].journal == was.docs[x].journal {
        var j := was.docs[x].journal.value;
        TellsLasts(setup, company, was.docs[x].doc, was.ledger.entries[j], now.docs[x].doc, now.ledger.entries[j]);
      }
    }
  }

  lemma PostTold(setup: Setup, company: Id, o: Office, i: nat)
    requires UsesStarterRules(setup, company) && Told(setup, company, o) && PostDoc(setup, company, o, i).Ok?
    ensures Told(setup, company, PostDoc(setup, company, o, i).value)
  {
    var now := PostDoc(setup, company, o, i).value;
    var e := EntryOf(setup, company, o, i).value;
    PayForKeeps(o.docs, o.docs[i].doc);
    PostShape(setup, company, o, i);
    EntryTells(setup, company, o, i);
    TellsLasts(setup, company, o.docs[i].doc, e, now.docs[i].doc, e);
    ToldGrows(setup, company, o, now);
  }

  lemma {:induction false} SeveralTold(setup: Setup, company: Id, o: Office, order: seq<nat>)
    requires UsesStarterRules(setup, company) && Told(setup, company, o) && PostSeveral(setup, company, o, order).Ok?
    ensures Told(setup, company, PostSeveral(setup, company, o, order).value)
  {
    if order != [] {
      var before := order[..|order| - 1];
      SeveralTold(setup, company, o, before);
      PostTold(setup, company, PostSeveral(setup, company, o, before).value, order[|order| - 1]);
    }
  }

  lemma StepTold(setup: Setup, company: Id, o: Office, c: OfficeCommand)
    requires UsesStarterRules(setup, company) && Told(setup, company, o) && StepOffice(setup, company, o, c).Ok?
    ensures Told(setup, company, StepOffice(setup, company, o, c).value)
  {
    match c {
      case DoPostDoc(i) => PostTold(setup, company, o, i);
      case RunDepreciation(_, order) => SeveralTold(setup, company, o, order);
      case _ =>
        OfficeLasting(setup, company, o, c);
        ToldGrows(setup, company, o, StepOffice(setup, company, o, c).value);
    }
  }

  /** In every serial run, whatever else is booked, reversed or paid: the entry a posted
      document names is on the document's date, carries its party on every line, and moves
      the accounts of every control tag by exactly the document's own amounts. */
  lemma {:induction false} RunTold(setup: Setup, company: Id, cs: seq<OfficeCommand>)
    requires UsesStarterRules(setup, company)
    ensures Told(setup, company, RunOffice(setup, company, cs))
  {
    if cs != [] {
      var o := RunOffice(setup, company, cs[..|cs| - 1]);
      RunTold(setup, company, cs[..|cs| - 1]);
      if StepOffice(setup, company, o, cs[|cs| - 1]).Ok? {
        StepTold(setup, company, o, cs[|cs| - 1]);
      }
    }
  }

  // ------------------------------------------------------------ posted exactly when

  predicate Has(setup: Setup, company: Id, control: Control)
  {
    FindControl(setup.chart, company, control).Some?
  }

  predicate Owned(setup: Setup, company: Id, account: nat)
  {
    account < |setup.chart| && setup.chart[account].company == company
  }

  /** An account of the company for every amount of the document that is not zero. */
  predicate AccountsThere(setup: Setup, company: Id, doc: Doc)
  {
    match doc
    case Invoice(trade, _, _, subtotal, tax, total, _) =>
      && (total != 0 ==> Has(setup, company, ControlOf(trade)))
      && (subtotal != 0 ==> Has(setup, company, if trade == Sales then SalesRevenue else PurchaseExpense))
      && (tax != 0 ==> Has(setup, company, if trade == Sales then TaxOutput else TaxInput))
    case Settlement(trade, _, _, bank, _, amount) =>
      amount != 0 ==> Has(setup, company, ControlOf(trade)) && Owned(setup, company, bank)
    case Note(trade, _, _, _, amount) =>
      amount != 0 ==> Has(setup, company, ControlOf(trade))
                      && Has(setup, company, if trade == Sales then SalesRevenue else PurchaseExpense)
    case PayrollRun(_, gross, deductions, net) =>
      && (gross != 0 ==> Has(setup, company, SalaryExpense))
      && (net != 0 ==> Has(setup, company, SalaryPayable))
      && (deductions != 0 ==> Has(setup, company, StatutoryPayable))
    case Schedule(_, amount, expense, accumulated) =>
      amount != 0 ==> Owned(setup, company, expense) && Owned(setup, company, accumulated)
  }

  /** The amounts of a well-formed document add up before any rounding. */
  lemma DocumentAddsUp(company: Id, i: nat, docs: seq<Record>, doc: Doc)
    requires WellFormed(docs, doc)
    ensures RawNet(EventOf(company, i, doc), StarterLines(KindOf(doc))) == 0.0
  {
    var e := EventOf(company, i, doc);
    var ls := StarterLines(KindOf(doc));
    if doc.Invoice? || doc.PayrollRun? {
      assert ls == [ls[0], ls[1], ls[2]];
      RawThree(e, ls[0], ls[1], ls[2]);
    } else {
      assert ls == [ls[0], ls[1]];
      RawTwo(e, ls[0], ls[1]);
    }
  }

  lemma TradeResolves(setup: Setup, company: Id, i: nat, doc: Doc)
    requires doc.Invoice? || doc.Note?
    ensures var e := EventOf(company, i, doc);
      (forall k :: 0 <= k < |StarterLines(e.kind)| ==> Resolved(setup, e, StarterLines(e.kind)[k]))
        <==> AccountsThere(setup, company, doc)
  {
    var e := EventOf(company, i, doc);
    var ls := StarterLines(e.kind);
    assert Resolved(setup, e, ls[0]) && Resolved(setup, e, ls[1]) && (|ls| > 2 ==> Resolved(setup, e, ls[2]))
      <==> AccountsThere(setup, company, doc);
  }

  lemma OtherResolves(setup: Setup, company: Id, i: nat, doc: Doc)
    requires !doc.Invoice? && !doc.Note?
    ensures var e := EventOf(company, i, doc);
      (forall k :: 0 <= k < |StarterLines(e.kind)| ==> Resolved(setup, e, StarterLines(e.kind)[k]))
        <==> AccountsThere(setup, company, doc)
  {
    var e := EventOf(company, i, doc);
    var ls := StarterLines(e.kind);
    assert Resolved(setup, e, ls[0]) && Resolved(setup, e, ls[1]) && (|ls| > 2 ==> Resolved(setup, e, ls[2]))
      <==> AccountsThere(setup, company, doc);
  }

  /** What the books must offer a document: a rule, an open period on its date, its accounts. */
  predicate BooksAllow(setup: Setup, company: Id, periods: seq<Period>, doc: Doc)
  {
    (company, KindOf(doc)) in setup.rules && OpenOn(periods, company, doc.date) && AccountsThere(setup, company, doc)
  }

  /** An approved invoice or payroll run, or a draft of a kind that needs no approval, that
      the books allow. */
  predicate Postable(setup: Setup, company: Id, o: Office, i: nat)
  {
    && i < |o.docs|
    && o.docs[i].status == (if o.docs[i].doc.Invoice? || o.docs[i].doc.PayrollRun? then Approved else Draft)
    && BooksAllow(setup, company, o.ledger.periods, o.docs[i].doc)
  }

  /** A document is posted exactly when it is approved, or a draft for the kinds that need
      no approval, and the books allow it; its own amounts never stand in the way. */
  lemma DocumentPostsIff(setup: Setup, company: Id, o: Office, i: nat)
    requires UsesStarterRules(setup, company) && AllWellFormed(o.docs)
    ensures PostDoc(setup, company, o, i).Ok? <==> Postable(setup, company, o, i)
  {
    if i < |o.docs| {
      var doc := o.docs[i].doc;
      EventPostsIff(setup, o.ledger, EventOf(company, i, doc));
      DocumentAddsUp(company, i, o.docs, doc);
      if doc.Invoice? || doc.Note? {
        TradeResolves(setup, company, i, doc);
      } else {
        OtherResolves(setup, company, i, doc);
      }
    }
  }

  /** A posting is refused because the document is not there, else because of its status,
      else for the engine's reason. */
  lemma DocumentRefusal(setup: Setup, company: Id, o: Office, i: nat)
    requires PostDoc(setup, company, o, i).Err?
    ensures var error := PostDoc(setup, company, o, i).error;
      if i >= |o.docs| then error == NotFound
      else if o.docs[i].status != (if o.docs[i].doc.Invoice? || o.docs[i].doc.PayrollRun? then Approved else Draft)
      then error == WrongStatus
      else EntryOf(setup, company, o, i) == Err(error)
  {
  }

  // ------------------------------------------------------------------ depreciation

  /** Row x once a batch that holds it has been posted, from entry n on. */
  predicate PostedIn(order: seq<nat>, n: nat, was: Record, now: Record, x: nat)
  {
    if x in order
    then exists k :: 0 <= k < |order| && order[k] == x && now == was.(status := Posted, journal := Some(n + k))
    else now == was
  }

  predicate DistinctSchedules(docs: seq<Record>, order: seq<nat>)
  {
    && (forall k :: 0 <= k < |order| ==> order[k] < |docs| && docs[order[k]].doc.Schedule?)
    && (forall k, l :: 0 <= k < l < |order| ==> order[k] != order[l])
  }

  lemma SchedulePosts(setup: Setup, company: Id, o: Office, i: nat)
    requires i < |o.docs| && o.docs[i].doc.Schedule? && PostDoc(setup, company, o, i).Ok?
    ensures var now := PostDoc(setup, company, o, i).value;
      && now.docs == o.docs[i := o.docs[i].(status := Posted, journal := Some(|o.ledger.entries|))]
      && |now.ledger.entries| == |o.ledger.entries| + 1 && now.ledger.periods == o.ledger.periods
  {
  }

  lemma PostedInGrows(order: seq<nat>, i: nat, n: nat, was: Record, mid: Record, now: Record, x: nat)
    requires i !in order && PostedIn(order, n, was, mid, x)
    requires now == if x == i then mid.(status := Posted, journal := Some(n + |order|)) else mid
    ensures PostedIn(order + [i], n, was, now, x)
  {
    var longer := order + [i];
    assert x in longer <==> x in order || x == i;
    if x == i {
      assert longer[|order|] == x;
    } else if x in order {
      var k :| 0 <= k < |order| && order[k] == x && mid == was.(status := Posted, journal := Some(n + k));
      assert longer[k] == x;
    }
  }

  /** The batch marks exactly its own rows, with one entry each, and pays nothing. */
  ghost predicate Batch(order: seq<nat>, was: Office, now: Office)
  {
    && |now.docs| == |was.docs| && |now.ledger.entries| == |was.ledger.entries| + |order|
    && now.ledger.periods == was.ledger.periods
    && forall x :: 0 <= x < |was.docs| ==> PostedIn(order, |was.ledger.entries|, was.docs[x], now.docs[x], x)
  }

  lemma BatchGrows(setup: Setup, company: Id, order: seq<nat>, i: nat, was: Office, mid: Office)
    requires Batch(order, was, mid) && i < |was.docs| && i !in order && was.docs[i].doc.Schedule?
    requires PostDoc(setup, company, mid, i).Ok?
    ensures Batch(order + [i], was, PostDoc(setup, company, mid, i).value)
  {
    var now := PostDoc(setup, company, mid, i).value;
    assert PostedIn(order, |was.ledger.entries|, was.docs[i], mid.docs[i], i);
    SchedulePosts(setup, company, mid, i);
    forall x | 0 <= x < |was.docs|
      ensures PostedIn(order + [i], |was.ledger.entries|, was.docs[x], now.docs[x], x)
    {
      PostedInGrows(order, i, |was.ledger.entries|, was.docs[x], mid.docs[x], now.docs[x], x);
    }
  }

  lemma DistinctNext(docs: seq<Record>, before: seq<nat>, i: nat)
    requires DistinctSchedules(docs, before + [i])
    ensures DistinctSchedules(docs, before) && i !in before && i < |docs| && docs[i].doc.Schedule?
  {
    var order := before + [i];
    assert order[|before|] == i && forall k :: 0 <= k < |before| ==> order[k] == before[k];
  }

  lemma SeveralIff(setup: Setup, company: Id, o: Office, before: seq<nat>, i: nat)
    ensures PostSeveral(setup, company, o, before + [i])
         == if PostSeveral(setup, company, o, before).Err? then PostSeveral(setup, company, o, before)
            else PostDoc(setup, company, PostSeveral(setup, company, o, before).value, i)
  {
    assert (before + [i])[..|before|] == before;
  }

  lemma {:induction false} BatchPosts(setup: Setup, company: Id, o: Office, order: seq<nat>)
    requires DistinctSchedules(o.docs, order) && PostSeveral(setup, company, o, order).Ok?
    ensures Batch(order, o, PostSeveral(setup, company, o, order).value)
  {
    if order != [] {
      var before, i := order[..|order| - 1], order[|order| - 1];
      assert order == before + [i];
      DistinctNext(o.docs, before, i);
      SeveralIff(setup, company, o, before, i);
      BatchPosts(setup, company, o, before);
      BatchGrows(setup, company, before, i, o, PostSeveral(setup, company, o, before).value);
    }
  }

  /** A pending schedule that is due by a date. */
  predicate Pending(r: Record, asOf: int)
  {
    r.doc.Schedule? && r.status == Draft && r.doc.date <= asOf
  }

  /** A depreciation run posts exactly the draft schedules dated on or before the date, each
      with an entry of its own, and touches no other document. */
  lemma DepreciationPosts(setup: Setup, company: Id, o: Office, asOf: int, order: seq<nat>, x: nat)
    requires StepOffice(setup, company, o, RunDepreciation(asOf, order)).Ok? && x < |o.docs|
    ensures var now := StepOffice(setup, company, o, RunDepreciation(asOf, order)).value;
      && |now.docs| == |o.docs| && |now.ledger.entries| == |o.ledger.entries| + |order|
      && if Pending(o.docs[x], asOf)
         then exists k :: 0 <= k < |order| && order[k] == x
                && now.docs[x] == o.docs[x].(status := Posted, journal := Some(|o.ledger.entries| + k))
         else now.docs[x] == o.docs[x]
  {
    BatchPosts(setup, company, o, order);
    var now := StepOffice(setup, company, o, RunDepreciation(asOf, order)).value;
    assert PostedIn(order, |o.ledger.entries|, o.docs[x], now.docs[x], x);
    assert Due(o.docs, x, asOf) <==> Pending(o.docs[x], asOf);
  }

  lemma {:induction false} SeveralWellFormed(setup: Setup, company: Id, o: Office, order: seq<nat>)
    requires AllWellFormed(o.docs) && PostSeveral(setup, company, o, order).Ok?
    ensures AllWellFormed(PostSeveral(setup, company, o, order).value.docs)
  {
    if order != [] {
      var before := order[..|order| - 1];
      SeveralWellFormed(setup, company, o, before);
      var mid := PostSeveral(setup, company, o, before).value;
      var now := PostSeveral(setup, company, o, order).value;
      PostShape(setup, company, mid, order[|order| - 1]);
      forall x | 0 <= x < |now.docs|
        ensures WellFormed(now.docs, now.docs[x].doc)
      {
        WellFormedStays(mid.docs, now.docs, mid.docs[x].doc, now.docs[x].doc);
      }
    }
  }

  lemma NextPostsIff(setup: Setup, company: Id, o: Office, before: seq<nat>, i: nat)
    requires UsesStarterRules(setup, company) && AllWellFormed(o.docs) && DistinctSchedules(o.docs, before)
    requires i < |o.docs| && i !in before && o.docs[i].doc.Schedule? && o.docs[i].status == Draft
    requires PostSeveral(setup, company, o, before).Ok?
    ensures PostDoc(setup, company, PostSeveral(setup, company, o, before).value, i).Ok?
      <==> BooksAllow(setup, company, o.ledger.periods, o.docs[i].doc)
  {
    var mid := PostSeveral(setup, company, o, before).value;
    BatchPosts(setup, company, o, before);
    assert PostedIn(before, |o.ledger.entries|, o.docs[i], mid.docs[i], i);
    SeveralWellFormed(setup, company, o, before);
    DocumentPostsIff(setup, company, mid, i);
  }

  ghost predicate BooksAllowAll(setup: Setup, company: Id, o: Office, order: seq<nat>)
  {
    forall k :: 0 <= k < |order| && order[k] < |o.docs| ==>
      BooksAllow(setup, company, o.ledger.periods, o.docs[order[k]].doc)
  }

  lemma AllowsNext(setup: Setup, company: Id, o: Office, before: seq<nat>, i: nat)
    requires i < |o.docs|
    ensures BooksAllowAll(setup, company, o, before + [i]) <==>
      BooksAllowAll(setup, company, o, before) && BooksAllow(setup, company, o.ledger.periods, o.docs[i].doc)
  {
    var order := before + [i];
    assert order[|before|] == i && forall k :: 0 <= k < |before| ==> order[k] == before[k];
  }

  lemma {:induction false} BatchPostsIff(setup: Setup, company: Id, o: Office, order: seq<nat>)
    requires UsesStarterRules(setup, company) && AllWellFormed(o.docs) && DistinctSchedules(o.docs, order)
    requires forall k :: 0 <= k < |order| ==> o.docs[order[k]].status == Draft
    ensures PostSeveral(setup, company, o, order).Ok? <==> BooksAllowAll(setup, company, o, order)
  {
    if order != [] {
      var before, i := order[..|order| - 1], order[|order| - 1];
      assert order == before + [i];
      DistinctNext(o.docs, before, i);
      BatchPostsIff(setup, company, o, before);
      SeveralIff(setup, company, o, before, i);
      AllowsNext(setup, company, o, before, i);
      if PostSeveral(setup, company, o, before).Ok? {
        NextPostsIff(setup, company, o, before, i);
      }
    }
  }

  /** A depreciation run is accepted exactly when something is due and the books allow every
      due schedule; one that they refuse stops them all. */
  lemma DepreciationIff(setup: Setup, company: Id, o: Office, asOf: int, order: seq<nat>)
    requires UsesStarterRules(setup, company) && AllWellFormed(o.docs) && DueInOrder(o.docs, order, asOf)
    ensures StepOffice(setup, company, o, RunDepreciation(asOf, order)).Ok? <==>
      && (exists x :: 0 <= x < |o.docs| && Pending(o.docs[x], asOf))
      && (forall x :: 0 <= x < |o.docs| && Pending(o.docs[x], asOf) ==>
            BooksAllow(setup, company, o.ledger.periods, o.docs[x].doc))
  {
    BatchPostsIff(setup, company, o, order);
    assert forall k :: 0 <= k < |order| ==> Due(o.docs, order[k], asOf) && Pending(o.docs[order[k]], asOf);
    forall x | 0 <= x < |o.docs| && Pending(o.docs[x], asOf)
      ensures x in order
    {
      assert Due(o.docs, x, asOf);
    }
  }

  // ------------------------------------------------------------- who has been paid

  /** What a posted settlement or note pays on invoice x. */
  function PaysOn(x: nat): Record -> int
  {
    (r: Record) =>
      if r.status != Posted then 0
      else match r.doc
        case Settlement(_, _, _, _, allocations, _) => Sum(allocations, To(x))
        case Note(_, _, _, Some(invoice), amount) => if invoice == x then amount else 0
        case _ => 0
  }

  ghost predicate PaidUp(docs: seq<Record>)
  {
    forall x :: 0 <= x < |docs| && docs[x].doc.Invoice? ==> docs[x].doc.paid == Sum(docs, PaysOn(x))
  }

  lemma PostPays(setup: Setup, company: Id, o: Office, i: nat, x: nat)
    requires PostDoc(setup, company, o, i).Ok? && x < |o.docs| && o.docs[x].doc.Invoice?
    ensures var now := PostDoc(setup, company, o, i).value;
      && now.docs[x].doc.Invoice?
      && now.docs[x].doc.paid == o.docs[x].doc.paid + PaysOn(x)(now.docs[i])
      && Sum(now.docs, PaysOn(x)) == Sum(o.docs, PaysOn(x)) + PaysOn(x)(now.docs[i])
  {
    var doc := o.docs[i].doc;
    var paid := PayFor(o.docs, doc);
    PayForKeeps(o.docs, doc);
    SumPointwise(o.docs, paid, PaysOn(x));
    SumUpdate(paid, i, paid[i].(status := Posted, journal := Some(|o.ledger.entries|)), PaysOn(x));
    if doc.Settlement? {
      PayAllPaid(o.docs, doc.allocations, x);
    }
  }

  /** Posting pays each invoice what the document assigns to it, and is refused exactly when
      the document is not postable. */
  lemma PostOutcome(setup: Setup, company: Id, o: Office, i: nat)
    requires AllWellFormed(o.docs)
    ensures UsesStarterRules(setup, company) ==>
      (PostDoc(setup, company, o, i).Ok? <==> Postable(setup, company, o, i))
    ensures PostDoc(setup, company, o, i).Ok? ==>
      var now := PostDoc(setup, company, o, i).value;
      i < |now.docs| == |o.docs| && forall x :: 0 <= x < |o.docs| && o.docs[x].doc.Invoice? ==>
        now.docs[x].doc.Invoice? && now.docs[x].doc.paid == o.docs[x].doc.paid + PaysOn(x)(now.docs[i])
  {
    if UsesStarterRules(setup, company) {
      DocumentPostsIff(setup, company, o, i);
    }
    if PostDoc(setup, company, o, i).Ok? {
      forall x | 0 <= x < |o.docs| && o.docs[x].doc.Invoice?
        ensures var now := PostDoc(setup, company, o, i).value.docs;
          now[x].doc.Invoice? && now[x].doc.paid == o.docs[x].doc.paid + PaysOn(x)(now[i])
      {
        PostPays(setup, company, o, i, x);
      }
    }
  }

  lemma PostPaidUp(setup: Setup, company: Id, o: Office, i: nat)
    requires PaidUp(o.docs) && PostDoc(setup, company, o, i).Ok?
    ensures PaidUp(PostDoc(setup, company, o, i).value.docs)
  {
    var now := PostDoc(setup, company, o, i).value;
    PostShape(setup, company, o, i);
    forall x | 0 <= x < |now.docs| && now.docs[x].doc.Invoice?
      ensures now.docs[x].doc.paid == Sum(now.docs, PaysOn(x))
    {
      PostPays(setup, company, o, i, x);
    }
  }

  lemma {:induction false} SeveralPaidUp(setup: Setup, company: Id, o: Office, order: seq<nat>)
    requires PaidUp(o.docs) && PostSeveral(setup, company, o, order).Ok?
    ensures PaidUp(PostSeveral(setup, company, o, order).value.docs)
  {
    if order != [] {
      SeveralPaidUp(setup, company, o, order[..|order| - 1]);
      PostPaidUp(setup, company, PostSeveral(setup, company, o, order[..|order| - 1]).value, order[|order| - 1]);
    }
  }

  /** Nothing filed so far names an invoice that does not exist yet. */
  lemma NothingPaysYet(docs: seq<Record>)
    requires AllWellFormed(docs)
    ensures Sum(docs, PaysOn(|docs|)) == 0
  {
    forall i | 0 <= i < |docs|
      ensures PaysOn(|docs|)(docs[i]) == 0
    {
      assert WellFormed(docs, docs[i].doc);
      if docs[i].doc.Settlement? {
        SumZero(docs[i].doc.allocations, To(|docs|));
      }
    }
    SumZero(docs, PaysOn(|docs|));
  }

  lemma NewPaidUp(o: Office, doc: Doc)
    requires AllWellFormed(o.docs) && PaidUp(o.docs) && (doc.Invoice? ==> doc.paid == 0)
    ensures PaidUp(Add(o, doc).docs)
  {
    NothingPaysYet(o.docs);
    forall x | 0 <= x <= |o.docs| && Add(o, doc).docs[x].doc.Invoice?
      ensures Add(o, doc).docs[x].doc.paid == Sum(Add(o, doc).docs, PaysOn(x))
    {
      SumAppend(o.docs, Record(doc, Draft, None), PaysOn(x));
    }
  }

  lemma AdvancePaidUp(docs: seq<Record>, i: nat, to: Status)
    requires PaidUp(docs) && i < |docs| && docs[i].status != Posted && to != Posted
    ensures PaidUp(docs[i := docs[i].(status := to)])
  {
    var now := docs[i := docs[i].(status := to)];
    forall x | 0 <= x < |now| && now[x].doc.Invoice?
      ensures now[x].doc.paid == Sum(now, PaysOn(x))
    {
      SumUpdate(docs, i, docs[i].(status := to), PaysOn(x));
    }
  }

  lemma StepPaidUp(setup: Setup, company: Id, o: Office, c: OfficeCommand)
    requires AllWellFormed(o.docs) && PaidUp(o.docs) && StepOffice(setup, company, o, c).Ok?
    ensures PaidUp(StepOffice(setup, company, o, c).value.docs)
  {
    match c {
      case SubmitInvoice(i) => AdvancePaidUp(o.docs, i, Submitted);
      case ApproveInvoice(i) => AdvancePaidUp(o.docs, i, Approved);
      case ApprovePayroll(i) => AdvancePaidUp(o.docs, i, Approved);
      case DoPostDoc(i) => PostPaidUp(setup, company, o, i);
      case RunDepreciation(_, order) => SeveralPaidUp(setup, company, o, order);
      case Books(_) =>
      case _ =>
        var now := StepOffice(setup, company, o, c).value;
        NewPaidUp(o, now.docs[|o.docs|].doc);
    }
  }

  /** In every serial run, without any assumption: what is recorded as paid on an invoice
      is the sum of the posted allocations to it and of the posted notes that name it. */
  lemma {:induction false} RunPaid(setup: Setup, company: Id, cs: seq<OfficeCommand>)
    ensures var docs := RunOffice(setup, company, cs).docs;
      && AllWellFormed(docs)
      && forall x :: 0 <= x < |docs| && docs[x].doc.Invoice? ==> docs[x].doc.paid == Sum(docs, PaysOn(x))
  {
    if cs != [] {
      var o := RunOffice(setup, company, cs[..|cs| - 1]);
      RunPaid(setup, company, cs[..|cs| - 1]);
      assert PaidUp(o.docs);
      if StepOffice(setup, company, o, cs[|cs| - 1]).Ok? {
        StepWellFormed(setup, company, o, cs[|cs| - 1]);
        StepPaidUp(setup, company, o, cs[|cs| - 1]);
      }
    }
  }
}
