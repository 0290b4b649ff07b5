/** What every transaction keeps: the summary rows agree with the raw lines, the
    reversal links form disjoint chains, and entry numbers are issued in order. */
module Consistency {
  import opened Base
  import opened Sums
  import opened Money
  import opened Journal

  // ------------------------------------------------------------ invariants

  /** Each summary row holds exactly the sum of the counted lines with its key. */
  ghost predicate Agrees(entries: seq<Entry>, rows: map<Key, Row>)
  {
    forall k: Key, s: Side :: RowPart(rows, k, s) == JournalTotal(entries, Only(k), s)
  }

  ghost predicate HasRows(e: Entry, rows: map<Key, Row>)
  {
    forall i :: 0 <= i < |e.lines| ==> KeyOf(e.head, e.lines[i]) in rows
  }

  /** No counted line is without its row. */
  ghost predicate RowsCover(entries: seq<Entry>, rows: map<Key, Row>)
  {
    forall j :: 0 <= j < |entries| && Counted(entries[j].status) ==> HasRows(entries[j], rows)
  }

  /** Entry i is the reversal of entry j: later, posted, same head up to the period, lines mirrored. */
  predicate Reverses(entries: seq<Entry>, i: nat, j: nat)
  {
    j < i < |entries| && entries[i].reversalOf == Some(j)
    && Counted(entries[i].status) && entries[j].status == Reversed
    && entries[i].head == entries[j].head.(period := entries[i].head.period)
    && entries[i].origin == entries[j].origin
    && entries[i].lines == Mirror(entries[j].lines)
  }

  ghost predicate LinksHold(entries: seq<Entry>)
  {
    forall i :: 0 <= i < |entries| && entries[i].reversalOf.Some? ==> Reverses(entries, i, entries[i].reversalOf.value)
  }

  ghost predicate LinksUnique(entries: seq<Entry>)
  {
    forall i, j :: 0 <= i < j < |entries| && entries[i].reversalOf.Some? ==>
      entries[i].reversalOf != entries[j].reversalOf
  }

  ghost predicate LinksComplete(entries: seq<Entry>)
  {
    forall j :: 0 <= j < |entries| && entries[j].status == Reversed ==> exists i :: Reverses(entries, i, j)
  }

  ghost predicate Linked(entries: seq<Entry>)
  {
    LinksHold(entries) && LinksUnique(entries) && LinksComplete(entries)
  }

  /** Numbers of one company rise in the order of creation and stay below its next number. */
  ghost predicate Numbered(led: Ledger)
  {
    && (forall i :: 0 <= i < |led.entries| ==>
          led.entries[i].number < NextNumber(led.numbers, led.entries[i].head.company))
    && (forall i, j :: 0 <= i < j < |led.entries| && led.entries[i].head.company == led.entries[j].head.company
          ==> led.entries[i].number < led.entries[j].number)
  }

  /** An entry is filed in a period of its company that covers its own date. */
  predicate Placed(led: Ledger, e: Entry)
  {
    e.head.period < |led.periods| && Covers(led.periods[e.head.period], e.head.company, e.date)
  }

  ghost predicate Ordered(led: Ledger)
  {
    Numbered(led) && forall i :: 0 <= i < |led.entries| ==> Placed(led, led.entries[i])
  }

  ghost predicate Consistent(led: Ledger)
  {
    && Agrees(led.entries, led.rows)
    && RowsCover(led.entries, led.rows)
    && Linked(led.entries)
    && Ordered(led)
  }

  // -------------------------------------------------- the rows, incrementally

  lemma {:induction false} ApplyLinesAdds(rows: map<Key, Row>, h: Head, lines: seq<Line>, n: nat, k: Key, s: Side)
    requires n <= |lines|
    ensures RowPart(ApplyLines(rows, h, lines, n), k, s)
         == RowPart(rows, k, s) + Sum(lines[..n], LinePart(h, Only(k), s))
  {
    if n > 0 {
      ApplyLinesAdds(rows, h, lines, n - 1, k, s);
      SumPrefix(lines, n - 1, LinePart(h, Only(k), s));
    }
  }

  lemma {:induction false} ApplyLinesKeys(rows: map<Key, Row>, h: Head, lines: seq<Line>, n: nat)
    requires n <= |lines|
    ensures rows.Keys <= ApplyLines(rows, h, lines, n).Keys
    ensures forall i :: 0 <= i < n ==> KeyOf(h, lines[i]) in ApplyLines(rows, h, lines, n)
  {
    if n > 0 {
      ApplyLinesKeys(rows, h, lines, n - 1);
    }
  }

  lemma CountInAdds(rows: map<Key, Row>, e: Entry, k: Key, s: Side)
    ensures RowPart(CountIn(rows, e), k, s) == RowPart(rows, k, s) + LinesTotal(e, Only(k), s)
  {
    ApplyLinesAdds(rows, e.head, e.lines, |e.lines|, k, s);
    assert e.lines[..|e.lines|] == e.lines;
  }

  /** Appending an entry moves rows and raw totals together. */
  lemma AppendAgrees(led: Ledger, e: Entry)
    requires Agrees(led.entries, led.rows) && RowsCover(led.entries, led.rows)
    ensures Agrees(Append(led, e).entries, Append(led, e).rows)
    ensures RowsCover(Append(led, e).entries, Append(led, e).rows)
  {
    forall k: Key, s: Side
      ensures RowPart(Append(led, e).rows, k, s) == JournalTotal(led.entries + [e], Only(k), s)
    {
      SumAppend(led.entries, e, EntryPart(Only(k), s));
      CountInAdds(led.rows, e, k, s);
      assert RowPart(led.rows, k, s) == JournalTotal(led.entries, Only(k), s);
    }
    ApplyLinesKeys(led.rows, e.head, e.lines, |e.lines|);
  }

  /** Changing a status moves the raw totals by the lines only when it starts to count. */
  lemma StatusTotal(entries: seq<Entry>, id: nat, to: Status, p: Key -> bool, s: Side)
    requires id < |entries| && !(Counted(entries[id].status) && !Counted(to))
    ensures JournalTotal(entries[id := entries[id].(status := to)], p, s)
         == JournalTotal(entries, p, s)
            + if Counted(to) && !Counted(entries[id].status) then LinesTotal(entries[id], p, s) else 0
  {
    SumUpdate(entries, id, entries[id].(status := to), EntryPart(p, s));
  }

  lemma StatusAgrees(entries: seq<Entry>, rows: map<Key, Row>, id: nat, to: Status)
    requires id < |entries| && Agrees(entries, rows) && RowsCover(entries, rows)
    requires Counted(entries[id].status) <==> Counted(to)
    ensures Agrees(entries[id := entries[id].(status := to)], rows)
    ensures RowsCover(entries[id := entries[id].(status := to)], rows)
  {
    forall k: Key, s: Side
      ensures RowPart(rows, k, s) == JournalTotal(entries[id := entries[id].(status := to)], Only(k), s)
    {
      StatusTotal(entries, id, to, Only(k), s);
      assert RowPart(rows, k, s) == JournalTotal(entries, Only(k), s);
    }
  }

  lemma PostingAgrees(entries: seq<Entry>, rows: map<Key, Row>, id: nat)
    requires id < |entries| && Agrees(entries, rows) && RowsCover(entries, rows)
    requires !Counted(entries[id].status)
    ensures Agrees(entries[id := entries[id].(status := Posted)], CountIn(rows, entries[id]))
    ensures RowsCover(entries[id := entries[id].(status := Posted)], CountIn(rows, entries[id]))
  {
    var e := entries[id];
    forall k: Key, s: Side
      ensures RowPart(CountIn(rows, e), k, s) == JournalTotal(entries[id := e.(status := Posted)], Only(k), s)
    {
      StatusTotal(entries, id, Posted, Only(k), s);
      CountInAdds(rows, e, k, s);
      assert RowPart(rows, k, s) == JournalTotal(entries, Only(k), s);
    }
    ApplyLinesKeys(rows, e.head, e.lines, |e.lines|);
  }

  // --------------------------------------------------------------- the links

  lemma AppendLinked(entries: seq<Entry>, e: Entry)
    requires Linked(entries) && e.reversalOf.None? && e.status != Reversed
    ensures Linked(entries + [e])
  {
    var es := entries + [e];
    forall j | 0 <= j < |es| && es[j].status == Reversed
      ensures exists i :: Reverses(es, i, j)
    {
      var i :| Reverses(entries, i, j);
      assert Reverses(es, i, j);
    }
    forall i | 0 <= i < |es| && es[i].reversalOf.Some?
      ensures Reverses(es, i, es[i].reversalOf.value)
    {
      assert Reverses(entries, i, entries[i].reversalOf.value);
    }
  }

  /** A status change that neither enters nor leaves the counted statuses' meaning keeps the links. */
  lemma StatusLinked(entries: seq<Entry>, id: nat, to: Status)
    requires id < |entries| && Linked(entries)
    requires !Counted(entries[id].status) && to != Reversed
    ensures Linked(entries[id := entries[id].(status := to)])
  {
    var es := entries[id := entries[id].(status := to)];
    forall i | 0 <= i < |es| && es[i].reversalOf.Some?
      ensures Reverses(es, i, es[i].reversalOf.value)
    {
      assert Reverses(entries, i, entries[i].reversalOf.value);
    }
    forall j | 0 <= j < |es| && es[j].status == Reversed
      ensures exists i :: Reverses(es, i, j)
    {
      var i :| Reverses(entries, i, j);
      assert Reverses(es, i, j);
    }
  }

  /** entries with the mirror entry r appended and its original marked. */
  function Reversing(entries: seq<Entry>, id: nat, r: Entry): seq<Entry>
    requires id < |entries|
  {
    (entries + [r])[id := entries[id].(status := Reversed)]
  }

  predicate Cancels(entries: seq<Entry>, id: nat, r: Entry)
  {
    && id < |entries| && entries[id].status == Posted
    && r.reversalOf == Some(id) && r.status == Posted && r.origin == entries[id].origin
    && r.head == entries[id].head.(period := r.head.period) && r.lines == Mirror(entries[id].lines)
  }

  lemma OldLinkStays(entries: seq<Entry>, id: nat, r: Entry, i: nat, j: nat)
    requires Cancels(entries, id, r) && Reverses(entries, i, j)
    ensures j != id && Reversing(entries, id, r)[i].reversalOf == Some(j) && Reverses(Reversing(entries, id, r), i, j)
  {
  }

  lemma NewLinkComplete(entries: seq<Entry>, id: nat, r: Entry)
    requires Cancels(entries, id, r) && LinksComplete(entries)
    ensures LinksComplete(Reversing(entries, id, r))
  {
    var es := Reversing(entries, id, r);
    assert Reverses(es, |entries|, id);
    forall j | 0 <= j < |es| && es[j].status == Reversed
      ensures exists i :: Reverses(es, i, j)
    {
      if j != id {
        var i :| Reverses(entries, i, j);
        OldLinkStays(entries, id, r, i, j);
      }
    }
  }

  lemma NewLinkHolds(entries: seq<Entry>, id: nat, r: Entry)
    requires Cancels(entries, id, r) && LinksHold(entries)
    ensures LinksHold(Reversing(entries, id, r))
    ensures forall i :: 0 <= i < |entries| ==> entries[i].reversalOf != Some(id)
  {
    assert Reverses(Reversing(entries, id, r), |entries|, id);
    forall i | 0 <= i < |entries| && entries[i].reversalOf.Some?
      ensures entries[i].reversalOf != Some(id) && Reverses(Reversing(entries, id, r), i, entries[i].reversalOf.value)
    {
      OldLinkStays(entries, id, r, i, entries[i].reversalOf.value);
    }
  }

  /** Appending a mirror entry and marking its original keeps the links. */
  lemma ReversalLinked(entries: seq<Entry>, id: nat, r: Entry)
    requires Cancels(entries, id, r) && Linked(entries)
    ensures Linked(Reversing(entries, id, r))
  {
    NewLinkHolds(entries, id, r);
    NewLinkComplete(entries, id, r);
  }

  // ---------------------------------------------------------------- history

  function Rank(s: Status): nat
  {
    match s case Draft => 0 case Submitted => 1 case Approved => 2 case Posted => 3 case Reversed => 4
  }

  /** Nothing of an existing entry ever changes but its status, and that by at most one step forward. */
  ghost predicate Extends(was: seq<Entry>, now: seq<Entry>)
  {
    |was| <= |now|
    && forall i :: 0 <= i < |was| ==> && now[i] == was[i].(status := now[i].status)
                                      && Rank(was[i].status) <= Rank(now[i].status) <= Rank(was[i].status) + 1
  }

  /** Lines, amounts and dates are immutable; statuses only move forward, one at a time. */
  lemma StepExtends(setup: Setup, led: Ledger, c: Command)
    requires Step(setup, led, c).Ok?
    ensures Extends(led.entries, Step(setup, led, c).value.entries)
  {
    match c {
      case DoEvent(e) =>
      case DoManual(m) =>
      case DoSubmit(id) =>
      case DoApprove(id) =>
      case DoPost(id) =>
      case DoReverse(id, date) =>
      case DoSetPeriod(p, s) =>
      case DoAddPeriods(ps) =>
    }
  }

  /** Over any stretch of a run: entries stay, in place, with their lines, amounts and
      dates, and statuses never move back. */
  lemma {:induction false} RunKeepsHistory(setup: Setup, start: Ledger, cs: seq<Command>)
    ensures var was, now := start.entries, RunFrom(setup, start, cs).entries;
      && |was| <= |now|
      && forall i :: 0 <= i < |was| ==>
           now[i] == was[i].(status := now[i].status) && Rank(was[i].status) <= Rank(now[i].status)
  {
    if cs != [] {
      var led := RunFrom(setup, start, cs[..|cs| - 1]);
      RunKeepsHistory(setup, start, cs[..|cs| - 1]);
      if Step(setup, led, cs[|cs| - 1]).Ok? {
        StepExtends(setup, led, cs[|cs| - 1]);
      }
    }
  }

  // ------------------------------------------------------- each transaction

  lemma AppendOrdered(led: Ledger, e: Entry)
    requires Ordered(led) && Placed(led, e) && e.number == NextNumber(led.numbers, e.head.company)
    ensures Ordered(Append(led, e))
  {
  }

  lemma StatusOrdered(led: Ledger, id: nat, to: Status)
    requires Ordered(led) && id < |led.entries|
    ensures Ordered(SetStatus(led, id, to))
  {
    var es := SetStatus(led, id, to).entries;
    assert forall i :: 0 <= i < |es| ==> es[i].head == led.entries[i].head && es[i].number == led.entries[i].number;
  }

  lemma AppendConsistent(led: Ledger, e: Entry)
    requires Consistent(led) && Placed(led, e)
    requires e.number == NextNumber(led.numbers, e.head.company) && e.reversalOf.None? && e.status != Reversed
    ensures Consistent(Append(led, e))
  {
    AppendAgrees(led, e);
    AppendLinked(led.entries, e);
    AppendOrdered(led, e);
  }

  lemma TransitionConsistent(led: Ledger, id: nat, to: Status)
    requires Consistent(led) && id < |led.entries| && !Counted(led.entries[id].status) && !Counted(to)
    ensures Consistent(SetStatus(led, id, to))
  {
    StatusAgrees(led.entries, led.rows, id, to);
    StatusLinked(led.entries, id, to);
    StatusOrdered(led, id, to);
  }

  lemma PostConsistent(led: Ledger, id: nat)
    requires Consistent(led) && PostManual(led, id).Ok?
    ensures Consistent(PostManual(led, id).value)
  {
    PostingAgrees(led.entries, led.rows, id);
    StatusLinked(led.entries, id, Posted);
    StatusOrdered(led, id, Posted);
  }

  lemma ReverseConsistent(led: Ledger, id: nat, date: int)
    requires Consistent(led) && Reverse(led, id, date).Ok?
    ensures Consistent(Reverse(led, id, date).value)
  {
    var r := ReversalEntry(led, id, date).value;
    var mid := Append(led, r);
    AppendAgrees(led, r);
    assert Placed(led, led.entries[id]);
    AppendOrdered(led, r);
    StatusOrdered(mid, id, Reversed);
    assert mid.entries[id] == led.entries[id];
    StatusAgrees(mid.entries, mid.rows, id, Reversed);
    ReversalLinked(led.entries, id, r);
  }

  lemma PeriodsConsistent(led: Ledger, ps: seq<Period>)
    requires Consistent(led) && |ps| >= |led.periods|
    requires forall i :: 0 <= i < |led.periods| ==> ps[i] == led.periods[i].(status := ps[i].status)
    ensures Consistent(led.(periods := ps))
  {
    forall i | 0 <= i < |led.entries|
      ensures Placed(led.(periods := ps), led.entries[i])
    {
      assert Placed(led, led.entries[i]);
    }
  }

  /** Every transaction keeps the ledger consistent. */
  lemma StepConsistent(setup: Setup, led: Ledger, c: Command)
    requires Consistent(led) && Step(setup, led, c).Ok?
    ensures Consistent(Step(setup, led, c).value)
  {
    match c {
      case DoEvent(e) => AppendConsistent(led, EventEntry(setup, led, e).value);
      case DoManual(m) => AppendConsistent(led, DraftEntry(setup, led, m).value);
      case DoSubmit(id) => TransitionConsistent(led, id, Submitted);
      case DoApprove(id) => TransitionConsistent(led, id, Approved);
      case DoPost(id) => PostConsistent(led, id);
      case DoReverse(id, date) => ReverseConsistent(led, id, date);
      case DoSetPeriod(p, s) => PeriodsConsistent(led, SetPeriodStatus(led, p, s).value.periods);
      case DoAddPeriods(ps) => PeriodsConsistent(led, led.periods + ps);
    }
  }

  lemma EmptyConsistent()
    ensures Consistent(EMPTY_LEDGER)
  {
  }

  lemma {:induction false} RunFromConsistent(setup: Setup, start: Ledger, cs: seq<Command>)
    requires Consistent(start)
    ensures Consistent(RunFrom(setup, start, cs))
  {
    if cs != [] {
      var led := RunFrom(setup, start, cs[..|cs| - 1]);
      RunFromConsistent(setup, start, cs[..|cs| - 1]);
      if Step(setup, led, cs[|cs| - 1]).Ok? {
        StepConsistent(setup, led, cs[|cs| - 1]);
      }
    }
  }

  /** In every state a serial run can reach, each summary row equals the sum of the
      posted and reversed lines with its key, and the reversal links are sound. */
  lemma RunConsistent(setup: Setup, cs: seq<Command>)
    ensures Consistent(Run(setup, cs))
  {
    EmptyConsistent();
    RunFromConsistent(setup, EMPTY_LEDGER, cs);
  }
}
