/** Business documents of one company and the entries they post. Sales and
    purchasing mirror each other, so a Trade tells the two apart. */
module Subledger {
  import opened Base
  import opened Sums
  import opened Money
  import opened Journal
  import opened Consistency
  import opened Starter
  import opened Posting
  import opened Balance

  datatype Trade = Sales | Purchases

  datatype Allocation = Allocation(invoice: nat, amount: Cents)

  /** Receipts and payments are settlements; credit and debit notes are notes. */
  datatype Doc =
    | Invoice(trade: Trade, date: int, party: Id, subtotal: Cents, tax: Cents, total: Cents, paid: Cents)
    | Settlement(trade: Trade, date: int, party: Id, bank: nat, allocations: seq<Allocation>, amount: Cents)
    | Note(trade: Trade, date: int, party: Id, invoice: Option<nat>, amount: Cents)
    | PayrollRun(date: int, gross: Cents, deductions: Cents, net: Cents)
    | Schedule(date: int, amount: Cents, expense: nat, accumulated: nat)

  /** A document row: its content, its status and the entry it posted. */
  datatype Record = Record(doc: Doc, status: Status, journal: Option<nat>)

  datatype Office = Office(docs: seq<Record>, ledger: Ledger)

  const EMPTY_OFFICE := Office([], EMPTY_LEDGER)

  // ----------------------------------------------------------------- creating

  function AllocatedAmount(): Allocation -> int
  {
    (a: Allocation) => a.amount
  }

  predicate IsInvoice(docs: seq<Record>, i: nat, trade: Trade)
  {
    i < |docs| && docs[i].doc.Invoice? && docs[i].doc.trade == trade
  }

  function Add(o: Office, doc: Doc): Office
  {
    o.(docs := o.docs + [Record(doc, Draft, None)])
  }

  function AddSettlement(o: Office, trade: Trade, date: int, party: Id, bank: nat,
                         allocations: seq<Allocation>): Result<Office>
  {
    var amount := Sum(allocations, AllocatedAmount());
    if amount <= 0 then Err(NotPositive)
    else if exists k :: 0 <= k < |allocations| && !IsInvoice(o.docs, allocations[k].invoice, trade) then Err(NotFound)
    else Ok(Add(o, Settlement(trade, date, party, bank, allocations, amount)))
  }

  function AddNote(o: Office, trade: Trade, date: int, party: Id, invoice: Option<nat>, amount: Cents): Result<Office>
  {
    if invoice.Some? && !IsInvoice(o.docs, invoice.value, trade) then Err(NotFound)
    else Ok(Add(o, Note(trade, date, party, invoice, amount)))
  }

  // ------------------------------------------------------------------ posting

  function KindOf(doc: Doc): EventType
  {
    match doc
    case Invoice(t, _, _, _, _, _, _) => if t == Sales then SalesInvoicePosted else PurchaseInvoicePosted
    case Settlement(t, _, _, _, _, _) => if t == Sales then CustomerReceiptPosted else SupplierPaymentPosted
    case Note(t, _, _, _, _) => if t == Sales then CreditNotePosted else DebitNotePosted
    case PayrollRun(_, _, _, _) => PayrollRunPosted
    case Schedule(_, _, _, _) => AssetDepreciationPosted
  }

  function PartyDims(trade: Trade, party: Id): Dims
  {
    if trade == Sales then NO_DIMS.(customer := Some(party)) else NO_DIMS.(supplier := Some(party))
  }

  /** The amounts a document hands to the engine. */
  function AmountsOf(doc: Doc): map<AmountKey, real>
  {
    match doc
    case Invoice(_, _, _, subtotal, tax, total, _) =>
      map[Subtotal := subtotal as real, TaxAmount := tax as real, Total := total as real]
    case Settlement(_, _, _, _, _, amount) => map[Amount := amount as real]
    case Note(_, _, _, _, amount) => map[Amount := amount as real]
    case PayrollRun(_, gross, deductions, net) =>
      map[TotalGross := gross as real, TotalNet := net as real, TotalDeductions := deductions as real]
    case Schedule(_, amount, _, _) => map[Amount := amount as real]
  }

  function OverridesOf(doc: Doc): map<OverrideKey, nat>
  {
    match doc
    case Settlement(_, _, _, bank, _, _) => map[BankAccount := bank]
    case Schedule(_, _, expense, accumulated) =>
      map[DepreciationExpense := expense, AccumulatedDepreciation := accumulated]
    case _ => map[]
  }

  function EventOf(company: Id, i: nat, doc: Doc): Event
  {
    Event(company, None, KindOf(doc), doc.date, i, AmountsOf(doc), OverridesOf(doc),
          if doc.Invoice? || doc.Settlement? || doc.Note? then PartyDims(doc.trade, doc.party) else NO_DIMS)
  }

  /** Invoices and payroll runs must be approved first; the others post from draft. */
  function PostableFrom(doc: Doc): Status
  {
    if doc.Invoice? || doc.PayrollRun? then Approved else Draft
  }

  function Pay(docs: seq<Record>, i: nat, amount: Cents): seq<Record>
  {
    if i < |docs| && docs[i].doc.Invoice?
    then docs[i := docs[i].(doc := docs[i].doc.(paid := docs[i].doc.paid + amount))]
    else docs
  }

  /** amountPaid after the first allocations, one increment each. */
  function PayAll(docs: seq<Record>, allocations: seq<Allocation>): (r: seq<Record>)
    ensures |r| == |docs|
  {
    if allocations == [] then docs
    else
      var a := allocations[|allocations| - 1];
      Pay(PayAll(docs, allocations[..|allocations| - 1]), a.invoice, a.amount)
  }

  function PayFor(docs: seq<Record>, doc: Doc): (r: seq<Record>)
    ensures |r| == |docs|
  {
    match doc
    case Settlement(_, _, _, _, allocations, _) => PayAll(docs, allocations)
    case Note(_, _, _, Some(invoice), amount) => Pay(docs, invoice, amount)
    case _ => docs
  }

  function PostDoc(setup: Setup, company: Id, o: Office, i: nat): Result<Office>
  {
    if i >= |o.docs| then Err(NotFound)
    else if o.docs[i].status != PostableFrom(o.docs[i].doc) then Err(WrongStatus)
    else
      var led := PostEvent(setup, o.ledger, EventOf(company, i, o.docs[i].doc));
      if led.Err? then Err(led.error)
      else
        var paid := PayFor(o.docs, o.docs[i].doc);
        Ok(Office(paid[i := paid[i].(status := Posted, journal := Some(|o.ledger.entries|))], led.value))
  }

  function Advance(o: Office, i: nat, from: Status, to: Status): Result<Office>
  {
    if i >= |o.docs| then Err(NotFound)
    else if o.docs[i].status != from then Err(WrongStatus)
    else Ok(o.(docs := o.docs[i := o.docs[i].(status := to)]))
  }

  /** Posts several documents in one transaction: all of them or none. */
  function PostSeveral(setup: Setup, company: Id, o: Office, order: seq<nat>): Result<Office>
  {
    if order == [] then Ok(o)
    else
      var before := PostSeveral(setup, company, o, order[..|order| - 1]);
      if before.Err? then before else PostDoc(setup, company, before.value, order[|order| - 1])
  }

  predicate Due(docs: seq<Record>, i: nat, asOf: int)
  {
    i < |docs| && docs[i].doc.Schedule? && docs[i].status == Draft && docs[i].doc.date <= asOf
  }

  /** Exactly the pending schedules due by a date, each once, earliest first. */
  predicate DueInOrder(docs: seq<Record>, order: seq<nat>, asOf: int)
  {
    && (forall k :: 0 <= k < |order| ==> Due(docs, order[k], asOf))
    && (forall i :: 0 <= i < |docs| && Due(docs, i, asOf) ==> i in order)
    && (forall k, l :: 0 <= k < l < |order| ==>
          order[k] != order[l] && docs[order[k]].doc.date <= docs[order[l]].doc.date)
  }

  datatype OfficeCommand =
    | AddInvoice(trade: Trade, date: int, party: Id, subtotal: Cents, tax: Cents)
    | NewSettlement(trade: Trade, date: int, party: Id, bank: nat, allocations: seq<Allocation>)
    | NewNote(trade: Trade, date: int, party: Id, invoice: Option<nat>, amount: Cents)
    | NewPayroll(date: int, gross: Cents, deductions: Cents)
    | NewSchedule(date: int, amount: Cents, expense: nat, accumulated: nat)
    | SubmitInvoice(i: nat)
    | ApproveInvoice(i: nat)
    | ApprovePayroll(i: nat)
    | DoPostDoc(i: nat)
    | RunDepreciation(asOf: int, order: seq<nat>)
    | Books(c: Command)

  predicate IsInvoiceDoc(o: Office, i: nat)
  {
    i < |o.docs| && o.docs[i].doc.Invoice?
  }

  function StepOffice(setup: Setup, company: Id, o: Office, c: OfficeCommand): Result<Office>
  {
    match c
    case AddInvoice(trade, date, party, subtotal, tax) =>
      Ok(Add(o, Invoice(trade, date, party, subtotal, tax, subtotal + tax, 0)))
    case NewSettlement(trade, date, party, bank, allocations) => AddSettlement(o, trade, date, party, bank, allocations)
    case NewNote(trade, date, party, invoice, amount) => AddNote(o, trade, date, party, invoice, amount)
    case NewPayroll(date, gross, deductions) => Ok(Add(o, PayrollRun(date, gross, deductions, gross - deductions)))
    case NewSchedule(date, amount, expense, accumulated) => Ok(Add(o, Schedule(date, amount, expense, accumulated)))
    case SubmitInvoice(i) => if !IsInvoiceDoc(o, i) then Err(NotFound) else Advance(o, i, Draft, Submitted)
    case ApproveInvoice(i) => if !IsInvoiceDoc(o, i) then Err(NotFound) else Advance(o, i, Submitted, Approved)
    case ApprovePayroll(i) =>
      if i >= |o.docs| || !o.docs[i].doc.PayrollRun? then Err(NotFound) else Advance(o, i, Draft, Approved)
    case DoPostDoc(i) =>
      if i < |o.docs| && o.docs[i].doc.Schedule? then Err(NotFound) else PostDoc(setup, company, o, i)
    case RunDepreciation(asOf, order) =>
      if order == [] || !DueInOrder(o.docs, order, asOf) then Err(NothingToDo)
      else PostSeveral(setup, company, o, order)
    case Books(b) =>
      var led := Step(setup, o.ledger, b);
      if led.Err? then Err(led.error) else Ok(o.(ledger := led.value))
  }

  function RunOffice(setup: Setup, company: Id, cs: seq<OfficeCommand>): Office
  {
    if cs == [] then EMPTY_OFFICE
    else
      var o := RunOffice(setup, company, cs[..|cs| - 1]);
      var r := StepOffice(setup, company, o, cs[|cs| - 1]);
      if r.Ok? then r.value else o
  }

  // --------------------------------------------------- documents and entries

  function EntryOf(setup: Setup, company: Id, o: Office, i: nat): Result<Entry>
    requires i < |o.docs|
  {
    EventEntry(setup, o.ledger, EventOf(company, i, o.docs[i].doc))
  }

  /** A document is posted exactly when it names an entry; that entry carries it as
      its source; and no other entry but a reversal does. */
  ghost predicate Named(company: Id, o: Office)
  {
    && (forall i :: 0 <= i < |o.docs| ==> (o.docs[i].status == Posted <==> o.docs[i].journal.Some?))
    && (forall i :: 0 <= i < |o.docs| && o.docs[i].journal.Some? ==> Sources(company, o, o.docs[i].journal.value, i))
    && (forall j :: 0 <= j < |o.ledger.entries| && Original(company, o.ledger.entries[j]) ==>
          && Sources(company, o, j, o.ledger.entries[j].origin.doc)
          && o.docs[o.ledger.entries[j].origin.doc].journal == Some(j))
  }

  /** Made by an office document of the company, and not a reversal. */
  predicate Original(company: Id, e: Entry)
  {
    e.origin.Document? && !OfStock(e.origin.event) && e.head.company == company && e.reversalOf.None?
  }

  predicate Sources(company: Id, o: Office, j: nat, i: nat)
  {
    && i < |o.docs| && j < |o.ledger.entries|
    && o.ledger.entries[j].origin == Document(KindOf(o.docs[i].doc), i)
    && Original(company, o.ledger.entries[j]) && Counted(o.ledger.entries[j].status)
  }

  /** What paying never touches. */
  predicate SameButPaid(a: Record, b: Record)
  {
    a.status == b.status && a.journal == b.journal
    && if a.doc.Invoice? then b.doc.Invoice? && b.doc == a.doc.(paid := b.doc.paid) else b.doc == a.doc
  }

  lemma {:induction false} PayAllKeeps(docs: seq<Record>, allocations: seq<Allocation>)
    ensures forall i :: 0 <= i < |docs| ==> SameButPaid(docs[i], PayAll(docs, allocations)[i])
  {
    if allocations != [] {
      PayAllKeeps(docs, allocations[..|allocations| - 1]);
    }
  }

  /** What an allocation assigns to invoice x. */
  function To(x: nat): Allocation -> int
  {
    (a: Allocation) => if a.invoice == x then a.amount else 0
  }

  /** Every invoice is paid by exactly the allocations that name it. */
  lemma {:induction false} PayAllPaid(docs: seq<Record>, allocations: seq<Allocation>, x: nat)
    requires x < |docs| && docs[x].doc.Invoice?
    ensures var now := PayAll(docs, allocations)[x];
      now.doc.Invoice? && now.doc.paid == docs[x].doc.paid + Sum(allocations, To(x))
  {
    if allocations != [] {
      PayAllPaid(docs, allocations[..|allocations| - 1], x);
    }
  }

  lemma PayForKeeps(docs: seq<Record>, doc: Doc)
    ensures forall i :: 0 <= i < |docs| ==> SameButPaid(docs[i], PayFor(docs, doc)[i])
  {
    if doc.Settlement? {
      PayAllKeeps(docs, doc.allocations);
    }
  }

  lemma SameKind(a: Record, b: Record)
    requires SameButPaid(a, b)
    ensures KindOf(a.doc) == KindOf(b.doc)
  {
  }

  lemma PostNamed(setup: Setup, company: Id, o: Office, i: nat)
    requires Named(company, o) && PostDoc(setup, company, o, i).Ok?
    ensures Named(company, PostDoc(setup, company, o, i).value)
  {
    var now := PostDoc(setup, company, o, i).value;
    PayForKeeps(o.docs, o.docs[i].doc);
    forall x | 0 <= x < |o.docs|
      ensures KindOf(now.docs[x].doc) == KindOf(o.docs[x].doc)
    {
      SameKind(o.docs[x], PayFor(o.docs, o.docs[i].doc)[x]);
    }
    assert now.ledger.entries[..|o.ledger.entries|] == o.ledger.entries;
    forall x | 0 <= x < |now.docs| && now.docs[x].journal.Some?
      ensures Sources(company, now, now.docs[x].journal.value, x)
    {
      if x != i {
        assert Sources(company, o, o.docs[x].journal.value, x);
      }
    }
    forall j | 0 <= j < |now.ledger.entries| && Original(company, now.ledger.entries[j])
      ensures Sources(company, now, j, now.ledger.entries[j].origin.doc)
      ensures now.docs[now.ledger.entries[j].origin.doc].journal == Some(j)
    {
      if j < |o.ledger.entries| {
        assert Sources(company, o, j, o.ledger.entries[j].origin.doc);
        assert o.docs[i].journal.None?;
      }
    }
  }

  lemma {:induction false} SeveralNamed(setup: Setup, company: Id, o: Office, order: seq<nat>)
    requires Named(company, o) && PostSeveral(setup, company, o, order).Ok?
    ensures Named(company, PostSeveral(setup, company, o, order).value)
  {
    if order != [] {
      SeveralNamed(setup, company, o, order[..|order| - 1]);
      PostNamed(setup, company, PostSeveral(setup, company, o, order[..|order| - 1]).value, order[|order| - 1]);
    }
  }

  /** An event no office document of the company posts: a stock document's, or another company's. */
  predicate Foreign(company: Id, e: Event)
  {
    e.company == company ==> OfStock(e.kind)
  }

  predicate NoStray(company: Id, c: OfficeCommand)
  {
    c.Books? && c.c.DoEvent? ==> Foreign(company, c.c.event)
  }

  /** Foreign events and all other ledger commands leave every document's entry in place. */
  lemma BooksNamed(setup: Setup, company: Id, o: Office, c: Command)
    requires Named(company, o) && Step(setup, o.ledger, c).Ok? && NoStray(company, Books(c))
    ensures Named(company, o.(ledger := Step(setup, o.ledger, c).value))
  {
    var now := o.(ledger := Step(setup, o.ledger, c).value);
    StepExtends(setup, o.ledger, c);
    forall x | 0 <= x < |now.docs| && now.docs[x].journal.Some?
      ensures Sources(company, now, now.docs[x].journal.value, x)
    {
      assert Sources(company, o, o.docs[x].journal.value, x);
    }
    forall j | 0 <= j < |now.ledger.entries| && Original(company, now.ledger.entries[j])
      ensures Sources(company, now, j, now.ledger.entries[j].origin.doc)
      ensures now.docs[now.ledger.entries[j].origin.doc].journal == Some(j)
    {
      assert j < |o.ledger.entries|;
      assert Original(company, o.ledger.entries[j]);
      assert Sources(company, o, j, o.ledger.entries[j].origin.doc);
    }
  }

  lemma NewDocNamed(company: Id, o: Office, doc: Doc)
    requires Named(company, o)
    ensures Named(company, Add(o, doc))
  {
    var now := Add(o, doc);
    forall x | 0 <= x < |now.docs| && now.docs[x].journal.Some?
      ensures Sources(company, now, now.docs[x].journal.value, x)
    {
      assert Sources(company, o, o.docs[x].journal.value, x);
    }
    forall j | 0 <= j < |now.ledger.entries| && Original(company, now.ledger.entries[j])
      ensures Sources(company, now, j, now.ledger.entries[j].origin.doc)
      ensures now.docs[now.ledger.entries[j].origin.doc].journal == Some(j)
    {
      assert Sources(company, o, j, o.ledger.entries[j].origin.doc);
    }
  }

  lemma AdvanceNamed(company: Id, o: Office, i: nat, from: Status, to: Status)
    requires Named(company, o) && Advance(o, i, from, to).Ok? && from != Posted && to != Posted
    ensures Named(company, Advance(o, i, from, to).value)
  {
    var now := Advance(o, i, from, to).value;
    forall x | 0 <= x < |now.docs| && now.docs[x].journal.Some?
      ensures Sources(company, now, now.docs[x].journal.value, x)
    {
      assert Sources(company, o, o.docs[x].journal.value, x);
    }
    forall j | 0 <= j < |now.ledger.entries| && Original(company, now.ledger.entries[j])
      ensures Sources(company, now, j, now.ledger.entries[j].origin.doc)
      ensures now.docs[now.ledger.entries[j].origin.doc].journal == Some(j)
    {
      assert Sources(company, o, j, o.ledger.entries[j].origin.doc);
    }
  }

  lemma StepNamed(setup: Setup, company: Id, o: Office, c: OfficeCommand)
    requires Named(company, o) && StepOffice(setup, company, o, c).Ok? && NoStray(company, c)
    ensures Named(company, StepOffice(setup, company, o, c).value)
  {
    match c {
      case AddInvoice(trade, date, party, subtotal, tax) =>
        NewDocNamed(company, o, Invoice(trade, date, party, subtotal, tax, subtotal + tax, 0));
      case NewSettlement(trade, date, party, bank, allocations) =>
        NewDocNamed(company, o, Settlement(trade, date, party, bank, allocations, Sum(allocations, AllocatedAmount())));
      case NewNote(trade, date, party, invoice, amount) =>
        NewDocNamed(company, o, Note(trade, date, party, invoice, amount));
      case NewPayroll(date, gross, deductions) =>
        NewDocNamed(company, o, PayrollRun(date, gross, deductions, gross - deductions));
      case NewSchedule(date, amount, expense, accumulated) =>
        NewDocNamed(company, o, Schedule(date, amount, expense, accumulated));
      case SubmitInvoice(i) => AdvanceNamed(company, o, i, Draft, Submitted);
      case ApproveInvoice(i) => AdvanceNamed(company, o, i, Submitted, Approved);
      case ApprovePayroll(i) => AdvanceNamed(company, o, i, Draft, Approved);
      case DoPostDoc(i) => PostNamed(setup, company, o, i);
      case RunDepreciation(asOf, order) => SeveralNamed(setup, company, o, order);
      case Books(b) => BooksNamed(setup, company, o, b);
    }
  }

  /** Only office documents post the company's office events. */
  predicate NoStrayEvents(company: Id, cs: seq<OfficeCommand>)
  {
    forall n :: 0 <= n < |cs| ==> NoStray(company, cs[n])
  }

  /** In every serial run a document is posted exactly when it names an entry, and
      exactly one entry that is not a reversal carries it as its source. */
  lemma {:induction false} RunNamed(setup: Setup, company: Id, cs: seq<OfficeCommand>)
    requires NoStrayEvents(company, cs)
    ensures Named(company, RunOffice(setup, company, cs))
  {
    if cs != [] {
      var before := cs[..|cs| - 1];
      RunNamed(setup, company, before);
      if StepOffice(setup, company, RunOffice(setup, company, before), cs[|cs| - 1]).Ok? {
        StepNamed(setup, company, RunOffice(setup, company, before), cs[|cs| - 1]);
      }
    }
  }

  lemma PostedExactlyOnce(setup: Setup, company: Id, cs: seq<OfficeCommand>, i: nat)
    requires NoStrayEvents(company, cs) && i < |RunOffice(setup, company, cs).docs|
    ensures var o := RunOffice(setup, company, cs);
      && (o.docs[i].status == Posted <==> o.docs[i].journal.Some?)
      && (forall j :: 0 <= j < |o.ledger.entries| ==>
            (Original(company, o.ledger.entries[j]) && o.ledger.entries[j].origin.doc == i
             <==> o.docs[i].journal == Some(j)))
  {
    RunNamed(setup, company, cs);
    var o := RunOffice(setup, company, cs);
    forall j | 0 <= j < |o.ledger.entries|
      ensures Original(company, o.ledger.entries[j]) && o.ledger.entries[j].origin.doc == i <==>
        o.docs[i].journal == Some(j)
    {
      if o.docs[i].journal == Some(j) {
        assert Sources(company, o, j, i);
      }
    }
  }

  // ------------------------------------------------------------- the workflow

  /** The content of a document, which only payments of an invoice may change. */
  predicate SameContent(a: Doc, b: Doc)
  {
    if a.Invoice? then b.Invoice? && b == a.(paid := b.paid) else b == a
  }

  /** One step forward on the path of its kind: invoices are submitted, approved and
      posted, payroll runs approved and posted, everything else posted from draft. */
  predicate Follows(doc: Doc, from: Status, to: Status)
  {
    match doc
    case Invoice(_, _, _, _, _, _, _) =>
      (from == Draft && to == Submitted) || (from == Submitted && to == Approved) || (from == Approved && to == Posted)
    case PayrollRun(_, _, _, _) => (from == Draft && to == Approved) || (from == Approved && to == Posted)
    case _ => from == Draft && to == Posted
  }

  predicate Evolves(a: Record, b: Record)
  {
    && SameContent(a.doc, b.doc)
    && (b.status == a.status || Follows(a.doc, a.status, b.status))
    && (b.journal == a.journal || (a.status != Posted && b.status == Posted))
  }

  /** Untouched but for payments, or posted from where its kind is posted. */
  predicate KeptOrPosted(a: Record, b: Record)
  {
    && SameContent(a.doc, b.doc)
    && ((b.status == a.status && b.journal == a.journal) || (a.status == PostableFrom(a.doc) && b.status == Posted))
  }

  lemma PostKeepsOthers(setup: Setup, company: Id, o: Office, i: nat, x: nat)
    requires PostDoc(setup, company, o, i).Ok? && x < |o.docs|
    ensures KeptOrPosted(o.docs[x], PostDoc(setup, company, o, i).value.docs[x])
  {
    PayForKeeps(o.docs, o.docs[i].doc);
  }

  lemma {:induction false} SeveralKeepOthers(setup: Setup, company: Id, o: Office, order: seq<nat>, x: nat)
    requires PostSeveral(setup, company, o, order).Ok? && x < |o.docs|
    ensures var now := PostSeveral(setup, company, o, order).value;
      |now.docs| == |o.docs| && KeptOrPosted(o.docs[x], now.docs[x])
  {
    if order != [] {
      var before := order[..|order| - 1];
      SeveralKeepOthers(setup, company, o, before, x);
      PostKeepsOthers(setup, company, PostSeveral(setup, company, o, before).value, order[|order| - 1], x);
    }
  }

  /** No transaction changes a document but for what was paid on an invoice; its status
      follows the path of its kind, and a posted document keeps its entry for good. */
  lemma DocumentsEvolve(setup: Setup, company: Id, o: Office, c: OfficeCommand, x: nat)
    requires StepOffice(setup, company, o, c).Ok? && x < |o.docs|
    ensures var now := StepOffice(setup, company, o, c).value; x < |now.docs| && Evolves(o.docs[x], now.docs[x])
  {
    match c {
      case DoPostDoc(i) => PostKeepsOthers(setup, company, o, i, x);
      case RunDepreciation(_, order) => SeveralKeepOthers(setup, company, o, order, x);
      case _ =>
    }
  }
}
