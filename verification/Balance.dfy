/** How far an entry, and so the whole ledger, can be from balancing. */
module Balance {
  import opened Base
  import opened Sums
  import opened Money
  import opened Journal
  import opened Consistency
  import opened Chains
  import opened Starter
  import opened Posting

  // ----------------------------------------------------- entries from events

  /** The relation between its stored amounts that the document behind an event guarantees. */
  predicate ExactAmounts(e: Event)
  {
    match e.kind
    case SalesInvoicePosted => Stored(e, Total) == Stored(e, Subtotal) + Stored(e, TaxAmount)
    case PurchaseInvoicePosted => Stored(e, Total) == Stored(e, Subtotal) + Stored(e, TaxAmount)
    case PayrollRunPosted => Stored(e, TotalGross) == Stored(e, TotalNet) + Stored(e, TotalDeductions)
    case _ => true
  }

  lemma EventImbalance(setup: Setup, led: Ledger, e: Event)
    requires UsesStarterRules(setup, e.company) && EventEntry(setup, led, e).Ok?
    ensures Imbalance(EventEntry(setup, led, e).value) == Sum(StarterLines(e.kind), SignedAmount(e))
  {
    EventNet(setup, led, e, Anything());
    BuildsIff(setup, e, StarterLines(e.kind));
    ZeroColumn();
    SumEqual(StarterLines(e.kind), Signed(setup, e, Anything()), SignedAmount(e));
  }

  lemma StarterSum(e: Event)
    ensures Sum(StarterLines(e.kind), SignedAmount(e)) == 0 <==> ExactAmounts(e)
  {
    SumOfLines(StarterLines(e.kind), SignedAmount(e));
  }

  /** An entry made by a starter rule balances to the cent exactly when the stored
      document amounts add up; skipping zero amounts never unbalances it. */
  lemma EventBalancedIff(setup: Setup, led: Ledger, e: Event)
    requires UsesStarterRules(setup, e.company) && EventEntry(setup, led, e).Ok?
    ensures Imbalance(EventEntry(setup, led, e).value) == 0 <==> ExactAmounts(e)
  {
    EventImbalance(setup, led, e);
    StarterSum(e);
  }

  // ---------------------------------------------------------- manual entries

  predicate OneSided(l: RawLine)
  {
    l.debit == 0.0 || l.credit == 0.0
  }

  predicate WholeCents(l: RawLine)
  {
    l.debit == l.debit.Floor as real && l.credit == l.credit.Floor as real
  }

  /** Rounding moves an entry's balance by at most half a cent per line, and not at all on whole cents. */
  lemma {:induction false} StoringDrift(h: Head, lines: seq<RawLine>)
    requires forall i :: 0 <= i < |lines| ==> OneSided(lines[i])
    ensures AbsReal(NetOf(h, StoreLines(lines), On(Anything())) as real
                    - (RawTotal(lines, Debit) - RawTotal(lines, Credit))) <= |lines| as real / 2.0
    ensures (forall i :: 0 <= i < |lines| ==> WholeCents(lines[i])) ==>
      NetOf(h, StoreLines(lines), On(Anything())) as real == RawTotal(lines, Debit) - RawTotal(lines, Credit)
  {
    if lines != [] {
      var n := |lines| - 1;
      var l := lines[n];
      StoringDrift(h, lines[..n]);
      NetOfAppend(h, StoreLines(lines[..n]), Store(l), Anything());
      StoreDrift(l);
    }
  }

  lemma StoreDrift(l: RawLine)
    requires OneSided(l)
    ensures AbsReal((Store(l).debit - Store(l).credit) as real - (l.debit - l.credit)) <= 0.5
    ensures WholeCents(l) ==> (Store(l).debit - Store(l).credit) as real == l.debit - l.credit
  {
    ToColumnNearest(l.debit);
    ToColumnNearest(l.credit);
    ZeroColumn();
    ToColumnWhole(l.debit.Floor);
    ToColumnWhole(l.credit.Floor);
  }

  /** A manual entry that passes the checks is at most one cent plus half a cent
      per line from balancing once stored, and at most one cent if its amounts
      were whole cents. Then it balances exactly when its amounts did. */
  lemma DraftImbalance(setup: Setup, led: Ledger, m: ManualEntry)
    requires DraftEntry(setup, led, m).Ok?
    ensures var e := DraftEntry(setup, led, m).value;
      && 2 * Abs(Imbalance(e)) <= 2 + |e.lines|
      && ((forall i :: 0 <= i < |m.lines| ==> WholeCents(m.lines[i])) ==>
            Abs(Imbalance(e)) <= 1 && (Imbalance(e) == 0 <==> RawTotal(m.lines, Debit) == RawTotal(m.lines, Credit)))
  {
    var e := DraftEntry(setup, led, m).value;
    StoringDrift(e.head, m.lines);
    WholeBound(Imbalance(e), |e.lines|, RawTotal(m.lines, Debit) - RawTotal(m.lines, Credit));
  }

  lemma TwoRaw(a: RawLine, b: RawLine, s: Side)
    ensures RawTotal([a, b], s) == if s == Debit then a.debit + b.debit else a.credit + b.credit
  {
    assert [a, b][..1] == [a] && [a][..0] == [];
    assert RawTotal([a], s) == RawTotal([], s) + if s == Debit then a.debit else a.credit;
  }

  /** 1.01 debited against 1.00 credited. */
  function OffByOneCent(company: Id, date: int): ManualEntry
  {
    ManualEntry(company, date, [RawLine(1, 0, 101.0, 0.0, NO_DIMS), RawLine(2, 1, 0.0, 100.0, NO_DIMS)])
  }

  /** On any chart with two accounts and any covered date that entry is accepted, one cent off. */
  lemma OneCentAccepted(setup: Setup, led: Ledger, company: Id, date: int)
    requires |setup.chart| >= 2 && FindPeriod(led.periods, company, date).Some?
    ensures var e := DraftEntry(setup, led, OffByOneCent(company, date)); e.Ok? && Imbalance(e.value) == 1
  {
    var lines := OffByOneCent(company, date).lines;
    TwoRaw(lines[0], lines[1], Debit);
    TwoRaw(lines[0], lines[1], Credit);
    assert DraftEntry(setup, led, OffByOneCent(company, date)).Ok?;
    StoringDrift(DraftEntry(setup, led, OffByOneCent(company, date)).value.head, lines);
    assert 101.0.Floor == 101 && 100.0.Floor == 100;
  }

  lemma WholeBound(stored: int, n: nat, raw: real)
    requires AbsReal(raw) <= 1.0 && AbsReal(stored as real - raw) <= n as real / 2.0
    ensures 2 * Abs(stored) <= 2 + n && (stored as real == raw ==> Abs(stored) <= 1)
  {
    assert -(n as real) / 2.0 - 1.0 <= stored as real <= n as real / 2.0 + 1.0;
    assert (2 * stored) as real <= (n + 2) as real && (-2 * stored) as real <= (n + 2) as real;
  }

  // ---------------------------------------------------------- the whole ledger

  /** Twice the imbalance an entry may carry: none for documents. */
  function Allowance(e: Entry, whole: bool): nat
  {
    if e.origin.Document? then 0 else if whole then 2 else 2 + |e.lines|
  }

  ghost predicate Fair(entries: seq<Entry>, company: Id, whole: bool)
  {
    forall i :: 0 <= i < |entries| && entries[i].head.company == company ==>
      2 * Abs(Imbalance(entries[i])) <= Allowance(entries[i], whole)
  }

  /** The commands a company's documents and careful users issue; other companies may issue any. */
  predicate Sound(c: Command, company: Id, whole: bool)
  {
    match c
    case DoEvent(e) => e.company == company ==> ExactAmounts(e)
    case DoManual(m) => whole && m.company == company ==> forall i :: 0 <= i < |m.lines| ==> WholeCents(m.lines[i])
    case _ => true
  }

  lemma MirrorImbalance(e: Entry, r: Entry)
    requires r.lines == Mirror(e.lines)
    ensures Imbalance(r) == -Imbalance(e)
  {
    MirrorTotal(e.lines, e.head, r.head, On(Anything()), Debit);
    MirrorTotal(e.lines, e.head, r.head, On(Anything()), Credit);
  }

  lemma AppendFair(led: Ledger, e: Entry, company: Id, whole: bool)
    requires Fair(led.entries, company, whole)
    requires e.head.company == company ==> 2 * Abs(Imbalance(e)) <= Allowance(e, whole)
    ensures Fair(Append(led, e).entries, company, whole)
  {
  }

  lemma StatusFair(led: Ledger, id: nat, to: Status, company: Id, whole: bool)
    requires Fair(led.entries, company, whole) && id < |led.entries|
    ensures Fair(SetStatus(led, id, to).entries, company, whole)
  {
    var es := SetStatus(led, id, to).entries;
    forall i | 0 <= i < |es|
      ensures Imbalance(es[i]) == Imbalance(led.entries[i])
      ensures Allowance(es[i], whole) == Allowance(led.entries[i], whole)
    {
    }
  }

  lemma ReverseFair(led: Ledger, id: nat, date: int, company: Id, whole: bool)
    requires Fair(led.entries, company, whole) && Reverse(led, id, date).Ok?
    ensures Fair(Reverse(led, id, date).value.entries, company, whole)
  {
    var r := ReversalEntry(led, id, date).value;
    MirrorImbalance(led.entries[id], r);
    AppendFair(led, r, company, whole);
    StatusFair(Append(led, r), id, Reversed, company, whole);
  }

  lemma StepFair(setup: Setup, led: Ledger, c: Command, company: Id, whole: bool)
    requires UsesStarterRules(setup, company) && Fair(led.entries, company, whole) && Sound(c, company, whole)
    requires Step(setup, led, c).Ok?
    ensures Fair(Step(setup, led, c).value.entries, company, whole)
  {
    match c {
      case DoEvent(e) =>
        if e.company == company {
          EventBalancedIff(setup, led, e);
        }
        AppendFair(led, EventEntry(setup, led, e).value, company, whole);
      case DoManual(m) =>
        DraftImbalance(setup, led, m);
        AppendFair(led, DraftEntry(setup, led, m).value, company, whole);
      case DoReverse(id, date) => ReverseFair(led, id, date, company, whole);
      case DoSubmit(id) => StatusFair(led, id, Submitted, company, whole);
      case DoApprove(id) => StatusFair(led, id, Approved, company, whole);
      case DoPost(id) => StatusFair(led, id, Posted, company, whole);
      case DoSetPeriod(p, s) =>
      case DoAddPeriods(ps) =>
    }
  }

  lemma {:induction false} RunFair(setup: Setup, cs: seq<Command>, company: Id, whole: bool)
    requires UsesStarterRules(setup, company) && forall i :: 0 <= i < |cs| ==> Sound(cs[i], company, whole)
    ensures Fair(Run(setup, cs).entries, company, whole)
  {
    if cs != [] {
      var led := Run(setup, cs[..|cs| - 1]);
      RunFair(setup, cs[..|cs| - 1], company, whole);
      if Step(setup, led, cs[|cs| - 1]).Ok? {
        StepFair(setup, led, cs[|cs| - 1], company, whole);
      }
    }
  }
}
