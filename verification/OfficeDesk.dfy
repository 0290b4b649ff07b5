/** The document services as an object: invoices, receipts, payments, notes, payroll
    runs and depreciation, driving the accounting engine and their own rows in place,
    proved against the transactions of module Subledger. */
module OfficeDesk {
  import opened Base
  import opened Sums
  import opened Money
  import opened Journal
  import opened GeneralLedger
  import opened Starter
  import opened Subledger
  import opened TieOut
  import opened Effects
  import opened Invoicing
  import opened Calendar
  import opened FixedAssets

  /** Once one document cannot be posted, the whole batch fails with that error. */
  lemma {:induction false} SeveralFails(setup: Setup, company: Id, o: Office, order: seq<nat>, n: nat)
    requires n <= |order| && PostSeveral(setup, company, o, order[..n]).Err?
    ensures PostSeveral(setup, company, o, order) == PostSeveral(setup, company, o, order[..n])
  {
    if n < |order| {
      assert order[..|order| - 1][..n] == order[..n];
      SeveralFails(setup, company, o, order[..|order| - 1], n);
    } else {
      assert order[..n] == order;
    }
  }

  /** The schedule rows of an asset, filed as one document each. */
  function AddSchedules(o: Office, rows: seq<Instalment>, expense: nat, accumulated: nat): Office
  {
    if rows == [] then o
    else
      var r := rows[|rows| - 1];
      Add(AddSchedules(o, rows[..|rows| - 1], expense, accumulated), Schedule(r.date, r.amount, expense, accumulated))
  }

  /** One draft a row, in order, on the asset's own accounts. */
  lemma {:induction false} SchedulesAre(o: Office, rows: seq<Instalment>, expense: nat, accumulated: nat, k: nat)
    ensures AddSchedules(o, rows, expense, accumulated).ledger == o.ledger
    ensures var (n, docs) := (|o.docs|, AddSchedules(o, rows, expense, accumulated).docs);
      && |docs| == n + |rows| && docs[..n] == o.docs
      && (k < |rows| ==>
            docs[n + k] == Record(Schedule(rows[k].date, rows[k].amount, expense, accumulated), Draft, None))
  {
    if rows != [] {
      SchedulesAre(o, rows[..|rows| - 1], expense, accumulated, k);
    }
  }

  lemma SeveralNext(setup: Setup, company: Id, o: Office, order: seq<nat>, k: nat)
    requires k < |order| && PostSeveral(setup, company, o, order[..k]).Ok?
    ensures PostSeveral(setup, company, o, order[..k + 1])
         == PostDoc(setup, company, PostSeveral(setup, company, o, order[..k]).value, order[k])
  {
    assert order[..k + 1][..k] == order[..k];
  }

  /** Every document names its entry and the other way round, and refers to what exists. */
  ghost predicate Sane(company: Id, o: Office)
  {
    Named(company, o) && AllWellFormed(o.docs)
  }

  /** Receivables and payables that tied out still do. */
  ghost predicate TieKept(setup: Setup, company: Id, was: Office, now: Office)
  {
    UsesStarterRules(setup, company) && Settled(setup, company, was) ==> Settled(setup, company, now)
  }

  lemma StepSane(setup: Setup, company: Id, o: Office, c: OfficeCommand)
    requires Sane(company, o) && NoStray(company, c) && StepOffice(setup, company, o, c).Ok?
    ensures Sane(company, StepOffice(setup, company, o, c).value)
    ensures Careful(setup, company, c) ==> TieKept(setup, company, o, StepOffice(setup, company, o, c).value)
  {
    StepNamed(setup, company, o, c);
    StepWellFormed(setup, company, o, c);
    if Careful(setup, company, c) && UsesStarterRules(setup, company) && Settled(setup, company, o) {
      StepSettled(setup, company, o, c);
    }
  }

  lemma PostSane(setup: Setup, company: Id, o: Office, i: nat)
    requires Sane(company, o) && PostDoc(setup, company, o, i).Ok?
    ensures Sane(company, PostDoc(setup, company, o, i).value)
    ensures TieKept(setup, company, o, PostDoc(setup, company, o, i).value)
  {
    var now := PostDoc(setup, company, o, i).value;
    PostNamed(setup, company, o, i);
    PostShape(setup, company, o, i);
    forall x | 0 <= x < |now.docs|
      ensures WellFormed(now.docs, now.docs[x].doc)
    {
      assert WellFormed(o.docs, o.docs[x].doc);
      WellFormedStays(o.docs, now.docs, o.docs[x].doc, now.docs[x].doc);
    }
    if UsesStarterRules(setup, company) && Settled(setup, company, o) {
      PostSettled(setup, company, o, i);
    }
  }

  ghost predicate OwesTheSame(was: seq<Record>, now: seq<Record>)
  {
    forall trade: Trade :: Sum(now, OpenItem(trade)) == Sum(was, OpenItem(trade))
  }

  /** A draft owes nothing yet. */
  lemma DraftOwesNothing(docs: seq<Record>, doc: Doc)
    requires doc.Invoice? ==> doc.paid == 0
    ensures OwesTheSame(docs, docs + [Record(doc, Draft, None)])
  {
    forall trade: Trade
      ensures Sum(docs + [Record(doc, Draft, None)], OpenItem(trade)) == Sum(docs, OpenItem(trade))
    {
      SumAppend(docs, Record(doc, Draft, None), OpenItem(trade));
    }
  }

  /** Moving through the workflow before posting owes nothing more. */
  lemma WorkflowOwesNothing(docs: seq<Record>, i: nat, to: Status)
    requires i < |docs| && docs[i].status != Posted && to != Posted
    ensures OwesTheSame(docs, docs[i := docs[i].(status := to)])
  {
    forall trade: Trade
      ensures Sum(docs[i := docs[i].(status := to)], OpenItem(trade)) == Sum(docs, OpenItem(trade))
    {
      SumUpdate(docs, i, docs[i].(status := to), OpenItem(trade));
    }
  }

  /** The new state, or the error and no change at all. */
  ghost predicate Settles(spec: Result<Office>, was: Office, now: Office, r: Result<nat>)
  {
    if spec.Ok? then r.Ok? && now == spec.value else r == Err(spec.error) && now == was
  }

  class Desk {
    const company: Id
    const engine: Engine
    var docs: seq<Record>

    function State(): Office
      reads this, engine
    {
      Office(docs, engine.State())
    }

    ghost predicate Valid()
      reads this, engine
    {
      engine.Valid() && Sane(company, State())
    }

    constructor (company: Id, engine: Engine)
      requires engine.Valid() && forall j :: 0 <= j < |engine.entries| ==> !Original(company, engine.entries[j])
      ensures Valid() && this.company == company && this.engine == engine
      ensures State() == EMPTY_OFFICE.(ledger := engine.State())
    {
      this.company, this.engine := company, engine;
      docs := [];
    }

    /** Files a new document as a draft; c is the command that creates it. */
    method AddDraft(doc: Doc, ghost c: OfficeCommand) returns (i: nat)
      requires Valid() && Careful(engine.setup, company, c)
      requires StepOffice(engine.setup, company, State(), c) == Ok(Add(State(), doc))
      modifies this`docs
      ensures Valid() && TieKept(engine.setup, company, old(State()), State())
      ensures i == |old(docs)| && State() == Add(old(State()), doc)
    {
      ghost var was := State();
      i := |docs|;
      docs := docs + [Record(doc, Draft, None)];
      StepSane(engine.setup, company, was, c);
    }

    /** create() of both invoice services, from the submitted lines to the stored row. */
    method CreateInvoice(trade: Trade, date: int, party: Id, lines: seq<Item>) returns (i: nat)
      requires Valid()
      modifies this`docs
      ensures Valid() && TieKept(engine.setup, company, old(State()), State())
      ensures i == |old(docs)|
      ensures Ok(State()) == StepOffice(engine.setup, company, old(State()),
                AddInvoice(trade, date, party, Sum(lines, LineTotals()), Sum(lines, LineTaxes(date))))
      ensures docs[..i] == old(docs) && |docs| == i + 1 && docs[i].status == Draft && docs[i].journal == None
      ensures var (subtotal, tax) := (Sum(lines, LineTotals()), Sum(lines, LineTaxes(date)));
        docs[i].doc == Invoice(trade, date, party, subtotal, tax, subtotal + tax, 0)
      ensures NearExact(lines, date, docs[i].doc.total)
    {
      var subtotal, tax, total, _ := InvoiceTotals(lines, date);
      i := AddDraft(Invoice(trade, date, party, subtotal, tax, total, 0),
                    AddInvoice(trade, date, party, subtotal, tax));
    }

    /** create() of receipts and payments: the allocations must add up to something positive. */
    method CreateSettlement(trade: Trade, date: int, party: Id, bank: nat, allocations: seq<Allocation>)
      returns (r: Result<nat>)
      requires Valid()
      modifies this`docs
      ensures Valid()
      ensures OffControls(engine.setup, company, bank) ==> TieKept(engine.setup, company, old(State()), State())
      ensures Settles(AddSettlement(old(State()), trade, date, party, bank, allocations), old(State()), State(), r)
      ensures r.Ok? ==> r == Ok(|old(docs)|)
      ensures r.Ok? <==> Sum(allocations, AllocatedAmount()) > 0
                         && forall k :: 0 <= k < |allocations| ==> IsInvoice(old(docs), allocations[k].invoice, trade)
      ensures r.Err? ==> r.error == if Sum(allocations, AllocatedAmount()) <= 0 then NotPositive else NotFound
      ensures r.Ok? ==> docs == old(docs) + [Record(Settlement(trade, date, party, bank, allocations,
                                                               Sum(allocations, AllocatedAmount())), Draft, None)]
    {
      ghost var was := State();
      var amount := SumAllocations(allocations);
      if amount <= 0 {
        return Err(NotPositive);
      }
      var k := 0;
      while k < |allocations|
        invariant k <= |allocations| && State() == was
        invariant forall l :: 0 <= l < k ==> IsInvoice(docs, allocations[l].invoice, trade)
      {
        if !IsInvoice(docs, allocations[k].invoice, trade) {
          return Err(NotFound);
        }
        k := k + 1;
      }
      r := Ok(|docs|);
      docs := docs + [Record(Settlement(trade, date, party, bank, allocations, amount), Draft, None)];
      StepSane(engine.setup, company, was, NewSettlement(trade, date, party, bank, allocations));
    }

    method SumAllocations(allocations: seq<Allocation>) returns (amount: Cents)
      ensures amount == Sum(allocations, AllocatedAmount())
    {
      amount := 0;
      var k := 0;
      while k < |allocations|
        invariant k <= |allocations| && amount == Sum(allocations[..k], AllocatedAmount())
      {
        SumPrefix(allocations, k, AllocatedAmount());
        amount := amount + allocations[k].amount;
        k := k + 1;
      }
      assert allocations[..k] == allocations;
    }

    /** create() of both note services: refused exactly when it names an invoice that does
        not exist; a draft note changes neither what is owed nor the journal. */
    method CreateNote(trade: Trade, date: int, party: Id, invoice: Option<nat>, amount: Cents) returns (r: Result<nat>)
      requires Valid()
      modifies this`docs
      ensures Valid() && TieKept(engine.setup, company, old(State()), State())
      ensures OwesTheSame(old(docs), docs)
      ensures r.Ok? <==> invoice.None? || IsInvoice(old(docs), invoice.value, trade)
      ensures r.Ok? ==> r.value == |old(docs)|
      ensures r.Ok? ==> docs == old(docs) + [Record(Note(trade, date, party, invoice, amount), Draft, None)]
      ensures r.Err? ==> r == Err(NotFound) && docs == old(docs)
    {
      if invoice.Some? && !IsInvoice(docs, invoice.value, trade) {
        return Err(NotFound);
      }
      ghost var was := State();
      r := Ok(|docs|);
      docs := docs + [Record(Note(trade, date, party, invoice, amount), Draft, None)];
      StepSane(engine.setup, company, was, NewNote(trade, date, party, invoice, amount));
      DraftOwesNothing(was.docs, Note(trade, date, party, invoice, amount));
    }

    /** create() of payroll runs, dated at the end of the period: refused when nobody has a
        salary structure by then. */
    method CreatePayroll(end: int, staff: seq<seq<Structure>>) returns (r: Result<nat>)
      requires Valid()
      modifies this`docs
      ensures Valid() && TieKept(engine.setup, company, old(State()), State())
      ensures r.Ok? <==> AnyStructure(staff, end)
      ensures r.Err? ==> r == Err(NothingToDo) && State() == old(State())
      ensures r.Ok? ==>
        var (gross, deductions) := (Sum(staff, StaffGross(end)), Sum(staff, StaffDeductions(end)));
        docs == old(docs) + [Record(PayrollRun(end, gross, deductions, gross - deductions), Draft, None)]
    {
      var totals := PayrollTotals(staff, end);
      if totals.Err? {
        return Err(NothingToDo);
      }
      var (_, gross, deductions, net) := totals.value;
      var i := AddDraft(PayrollRun(end, gross, deductions, net), NewPayroll(end, gross, deductions));
      r := Ok(i);
    }

    /** create() of fixed assets: the whole schedule is generated up front. */
    method CreateAsset(depreciable: Cents, months: nat, acquired: nat, expense: nat, accumulated: nat)
      returns (rows: seq<Instalment>)
      requires Valid() && months >= 1
      modifies this`docs
      ensures Valid() && TieKept(engine.setup, company, old(State()), State())
      ensures |rows| == months && forall i :: 1 <= i <= months ==>
        rows[i - 1] == RowAt(depreciable, months, acquired, i)
      ensures State() == AddSchedules(old(State()), rows, expense, accumulated)
      ensures |docs| == |old(docs)| + |rows| && docs[..|old(docs)|] == old(docs)
      ensures forall k :: 0 <= k < |rows| ==>
        docs[|old(docs)| + k] == Record(Schedule(rows[k].date, rows[k].amount, expense, accumulated), Draft, None)
    {
      ghost var start := State();
      rows := CreateSchedule(depreciable, months, acquired);
      var k := 0;
      while k < |rows|
        invariant k <= |rows| && Valid() && TieKept(engine.setup, company, start, State())
        invariant State() == AddSchedules(start, rows[..k], expense, accumulated)
      {
        ghost var was := State();
        assert rows[..k + 1][..k] == rows[..k];
        docs := docs + [Record(Schedule(rows[k].date, rows[k].amount, expense, accumulated), Draft, None)];
        StepSane(engine.setup, company, was, NewSchedule(rows[k].date, rows[k].amount, expense, accumulated));
        k := k + 1;
      }
      assert rows[..k] == rows;
      forall l | 0 <= l <= |rows|
        ensures |docs| == |start.docs| + |rows| && docs[..|start.docs|] == start.docs
        ensures l < |rows| ==>
          docs[|start.docs| + l] == Record(Schedule(rows[l].date, rows[l].amount, expense, accumulated), Draft, None)
      {
        SchedulesAre(start, rows, expense, accumulated, l);
      }
    }

    /** transition() of the invoice services: submit and approve. It succeeds exactly for an
        invoice in the expected status, and before posting it changes neither what is owed
        nor the journal. */
    method Transition(i: nat, from: Status, to: Status) returns (r: Result<nat>)
      requires Valid()
      requires (from == Draft && to == Submitted) || (from == Submitted && to == Approved)
      modifies this`docs
      ensures Valid() && TieKept(engine.setup, company, old(State()), State())
      ensures OwesTheSame(old(docs), docs)
      ensures r.Ok? <==> IsInvoiceDoc(old(State()), i) && old(docs)[i].status == from
      ensures if r.Ok? then docs == old(docs)[i := old(docs)[i].(status := to)] && Evolves(old(docs)[i], docs[i])
              else docs == old(docs) && r.error == if IsInvoiceDoc(old(State()), i) then WrongStatus else NotFound
    {
      if i >= |docs| || !docs[i].doc.Invoice? {
        return Err(NotFound);
      }
      if docs[i].status != from {
        return Err(WrongStatus);
      }
      ghost var was := State();
      docs := docs[i := docs[i].(status := to)];
      r := Ok(i);
      StepSane(engine.setup, company, was, if from == Draft then SubmitInvoice(i) else ApproveInvoice(i));
      WorkflowOwesNothing(was.docs, i, to);
    }

    /** approve() of payroll runs. */
    method ApprovePayroll(i: nat) returns (r: Result<nat>)
      requires Valid()
      modifies this`docs
      ensures Valid() && TieKept(engine.setup, company, old(State()), State())
      ensures OwesTheSame(old(docs), docs)
      ensures r.Ok? <==> i < |old(docs)| && old(docs)[i].doc.PayrollRun? && old(docs)[i].status == Draft
      ensures if r.Ok? then docs == old(docs)[i := old(docs)[i].(status := Approved)] && Evolves(old(docs)[i], docs[i])
              else docs == old(docs)
    {
      if i >= |docs| || !docs[i].doc.PayrollRun? {
        return Err(NotFound);
      }
      if docs[i].status != Draft {
        return Err(WrongStatus);
      }
      ghost var was := State();
      docs := docs[i := docs[i].(status := Approved)];
      r := Ok(i);
      StepSane(engine.setup, company, was, OfficeCommand.ApprovePayroll(i));
      WorkflowOwesNothing(was.docs, i, Approved);
    }

    /** amountPaid of one invoice is incremented; anything else has no such column. */
    method IncrementPaid(i: nat, amount: Cents)
      modifies this`docs
      ensures docs == Pay(old(docs), i, amount)
    {
      if i < |docs| && docs[i].doc.Invoice? {
        docs := docs[i := docs[i].(doc := docs[i].doc.(paid := docs[i].doc.paid + amount))];
      }
    }

    /** The allocation loop of receipts and payments. */
    method PayAllocations(allocations: seq<Allocation>)
      modifies this`docs
      ensures docs == PayAll(old(docs), allocations)
      ensures forall x :: 0 <= x < |docs| && old(docs)[x].doc.Invoice? ==>
        docs[x].doc.Invoice? && docs[x].doc.paid == old(docs)[x].doc.paid + Sum(allocations, To(x))
    {
      var k := 0;
      while k < |allocations|
        invariant k <= |allocations| && docs == PayAll(old(docs), allocations[..k])
      {
        assert allocations[..k + 1][..k] == allocations[..k];
        IncrementPaid(allocations[k].invoice, allocations[k].amount);
        k := k + 1;
      }
      assert allocations[..k] == allocations;
      forall x | 0 <= x < |docs| && old(docs)[x].doc.Invoice?
        ensures docs[x].doc.Invoice? && docs[x].doc.paid == old(docs)[x].doc.paid + Sum(allocations, To(x))
      {
        PayAllPaid(old(docs), allocations, x);
      }
    }

    /** post() of every document service: the entry first, then what it pays off,
        then the document's own row. */
    method Post(i: nat) returns (r: Result<nat>)
      requires Valid()
      modifies this`docs, engine
      ensures Valid() && TieKept(engine.setup, company, old(State()), State())
      ensures Settles(PostDoc(engine.setup, company, old(State()), i), old(State()), State(), r)
      ensures r.Ok? ==> r == Ok(|old(engine.entries)|)
      ensures UsesStarterRules(engine.setup, company) ==>
        (r.Ok? <==> Postable(engine.setup, company, old(State()), i))
      ensures r.Ok? ==> forall x :: 0 <= x < |docs| && old(docs)[x].doc.Invoice? ==>
        docs[x].doc.Invoice? && docs[x].doc.paid == old(docs)[x].doc.paid + PaysOn(x)(docs[i])
    {
      PostOutcome(engine.setup, company, State(), i);
      if i >= |docs| {
        return Err(NotFound);
      }
      var doc := docs[i].doc;
      if docs[i].status != PostableFrom(doc) {
        return Err(WrongStatus);
      }
      ghost var was := State();
      r := engine.PostEvent(EventOf(company, i, doc));
      if r.Err? {
        return r;
      }
      if doc.Settlement? {
        PayAllocations(doc.allocations);
      } else if doc.Note? && doc.invoice.Some? {
        IncrementPaid(doc.invoice.value, doc.amount);
      }
      docs := docs[i := docs[i].(status := Posted, journal := Some(r.value))];
      assert PostDoc(engine.setup, company, was, i) == Ok(State());
      PostSane(engine.setup, company, was, i);
    }

    /** What a rolled-back transaction leaves: the state it started from. */
    method Restore(was: Office)
      modifies this`docs, engine
      ensures State() == was
    {
      docs := was.docs;
      engine.entries, engine.rows := was.ledger.entries, was.ledger.rows;
      engine.periods, engine.numbers := was.ledger.periods, was.ledger.numbers;
    }

    /** Posts the documents in order; one refused posting puts everything back. */
    method PostInOrder(order: seq<nat>) returns (r: Result<nat>)
      requires Valid()
      modifies this`docs, engine
      ensures Valid() && TieKept(engine.setup, company, old(State()), State())
      ensures Settles(PostSeveral(engine.setup, company, old(State()), order), old(State()), State(), r)
    {
      var was := State();
      var k := 0;
      while k < |order|
        invariant k <= |order| && Valid() && TieKept(engine.setup, company, was, State())
        invariant PostSeveral(engine.setup, company, was, order[..k]) == Ok(State())
      {
        SeveralNext(engine.setup, company, was, order, k);
        var posted := Post(order[k]);
        if posted.Err? {
          SeveralFails(engine.setup, company, was, order, k + 1);
          Restore(was);
          return Err(posted.error);
        }
        k := k + 1;
      }
      assert order[..k] == order;
      r := Ok(k);
    }

    /** runDepreciation(): order is what the query for pending schedules due by a date returns. */
    method RunDepreciation(asOf: int, order: seq<nat>) returns (r: Result<nat>)
      requires Valid() && DueInOrder(docs, order, asOf)
      modifies this`docs, engine
      ensures Valid() && TieKept(engine.setup, company, old(State()), State())
      ensures Settles(StepOffice(engine.setup, company, old(State()), OfficeCommand.RunDepreciation(asOf, order)),
                      old(State()), State(), r)
    {
      if order == [] {
        return Err(NothingToDo);
      }
      r := PostInOrder(order);
    }
  }
}
