/** The accounting engine and the manual-entry service as an object that updates
    its tables in place, proved against the transactions of module Journal. */
module GeneralLedger {
  import opened Base
  import opened Money
  import opened Journal
  import opened Consistency
  import opened Numbering
  import opened Transactions

  /** How a method's result and new state relate to the transaction it implements:
      the new entry's id and the new ledger, or the error and no change at all. */
  ghost predicate Implements(spec: Result<Ledger>, was: Ledger, now: Ledger, r: Result<nat>, id: nat)
  {
    if spec.Ok? then r == Ok(id) && now == spec.value else r == Err(spec.error) && now == was
  }

  /** Once one rule line fails to resolve, the whole event fails with that error. */
  lemma {:induction false} BuildLinesFails(setup: Setup, e: Event, lines: seq<RuleLine>, n: nat)
    requires n <= |lines| && BuildLines(setup, e, lines[..n]).Err?
    ensures BuildLines(setup, e, lines) == BuildLines(setup, e, lines[..n])
  {
    if n < |lines| {
      assert lines[..|lines| - 1][..n] == lines[..n];
      BuildLinesFails(setup, e, lines[..|lines| - 1], n);
    } else {
      assert lines[..n] == lines;
    }
  }

  class Engine {
    const setup: Setup
    var entries: seq<Entry>
    var rows: map<Key, Row>
    var periods: seq<Period>
    var numbers: map<Id, nat>

    function State(): Ledger
      reads this
    {
      Ledger(entries, rows, periods, numbers)
    }

    ghost predicate Valid()
      reads this
    {
      Consistent(State())
    }

    constructor (setup: Setup)
      ensures Valid() && State() == EMPTY_LEDGER && this.setup == setup
    {
      this.setup := setup;
      entries, rows, periods, numbers := [], map[], [], map[];
      new;
      EmptyConsistent();
    }

    method UpdateGlBalance(k: Key, l: Line)
      modifies this`rows
      ensures rows == AddToRow(old(rows), k, l)
    {
      if k in rows {
        rows := rows[k := Row(rows[k].debitTotal + l.debit, rows[k].creditTotal + l.credit)];
      } else {
        rows := rows[k := Row(l.debit, l.credit)];
      }
    }

    /** Adds an entry's lines to the summary one row at a time. */
    method CountEntry(e: Entry)
      modifies this`rows
      ensures rows == CountIn(old(rows), e)
      ensures forall k: Key, s: Side ::
        RowPart(rows, k, s) == RowPart(old(rows), k, s) + EntryOn(k, s)(e.(status := Posted))
    {
      var i := 0;
      while i < |e.lines|
        invariant i <= |e.lines|
        invariant rows == ApplyLines(old(rows), e.head, e.lines, i)
      {
        UpdateGlBalance(KeyOf(e.head, e.lines[i]), e.lines[i]);
        i := i + 1;
      }
      forall k: Key, s: Side
        ensures RowPart(rows, k, s) == RowPart(old(rows), k, s) + EntryOn(k, s)(e.(status := Posted))
      {
        CountInIsFields(old(rows), e, k, s);
      }
    }

    /** The loop over the rule's lines: resolves an account for each non-zero amount. */
    method CollectLines(e: Event, lines: seq<RuleLine>) returns (r: Result<seq<RawLine>>)
      ensures r == BuildLines(setup, e, lines)
    {
      var inputs: seq<RawLine> := [];
      var i := 0;
      while i < |lines|
        invariant i <= |lines|
        invariant BuildLines(setup, e, lines[..i]) == Ok(inputs)
      {
        var line := lines[i];
        assert lines[..i + 1][..i] == lines[..i];
        var amount := AmountOf(e, line.source);
        if amount != 0.0 {
          var account := Resolve(setup, e.company, line.resolver, e.overrides);
          if account.Err? {
            BuildLinesFails(setup, e, lines, i + 1);
            return Err(account.error);
          }
          inputs := inputs + [RawLine(line.lineNo, account.value,
                                      if line.side == Debit then amount else 0.0,
                                      if line.side == Credit then amount else 0.0, e.dims)];
        }
        i := i + 1;
      }
      assert lines[..i] == lines;
      r := Ok(inputs);
    }

    method PostEvent(e: Event) returns (r: Result<nat>)
      requires Valid()
      modifies this
      ensures Valid()
      ensures Implements(Journal.PostEvent(setup, old(State()), e), old(State()), State(), r, |old(entries)|)
    {
      if (e.company, e.kind) !in setup.rules || !setup.rules[(e.company, e.kind)].active {
        return Err(NoActiveRule);
      }
      var rule := setup.rules[(e.company, e.kind)];
      var period := FindPeriod(periods, e.company, e.date);
      if period.None? {
        return Err(NoPeriod);
      }
      if periods[period.value].status != Open {
        return Err(PeriodNotOpen);
      }
      var inputs := CollectLines(e, rule.lines);
      if inputs.Err? {
        return Err(inputs.error);
      }
      if !WithinTolerance(inputs.value) {
        return Err(Unbalanced);
      }
      ghost var was := State();
      var number: nat;
      number, numbers := Issue(numbers, e.company);
      var entry := Entry(Head(e.company, period.value, e.branch), number, e.date, Posted, None,
                         Document(e.kind, e.doc), StoreLines(inputs.value));
      r := Ok(|entries|);
      entries := entries + [entry];
      CountEntry(entry);
      assert State() == Append(was, entry);
      StepConsistent(setup, was, DoEvent(e));
    }

    method CreateManual(m: ManualEntry) returns (r: Result<nat>)
      requires Valid()
      modifies this
      ensures Valid()
      ensures Implements(Journal.CreateManual(setup, old(State()), m), old(State()), State(), r, |old(entries)|)
    {
      var entry := DraftEntry(setup, State(), m);
      if entry.Err? {
        return Err(entry.error);
      }
      ghost var was := State();
      var number: nat;
      number, numbers := Issue(numbers, m.company);
      r := Ok(|entries|);
      entries := entries + [entry.value];
      assert State() == Append(was, entry.value);
      StepConsistent(setup, was, DoManual(m));
    }

    /** submit() and approve(): the manual workflow before posting. */
    method Transition(id: nat, from: Status, to: Status) returns (r: Result<nat>)
      requires Valid()
      requires (from == Draft && to == Submitted) || (from == Submitted && to == Approved)
      modifies this
      ensures Valid()
      ensures Implements(Journal.Transition(old(State()), id, from, to), old(State()), State(), r, id)
    {
      if id >= |entries| {
        return Err(NotFound);
      }
      if entries[id].status != from {
        return Err(WrongStatus);
      }
      ghost var was := State();
      entries := entries[id := entries[id].(status := to)];
      r := Ok(id);
      TransitionConsistent(was, id, to);
    }

    method Post(id: nat) returns (r: Result<nat>)
      requires Valid()
      modifies this
      ensures Valid()
      ensures Implements(PostManual(old(State()), id), old(State()), State(), r, id)
    {
      if id >= |entries| {
        return Err(NotFound);
      }
      var entry := entries[id];
      if entry.status != Approved {
        return Err(WrongStatus);
      }
      if entry.head.period >= |periods| || periods[entry.head.period].status != Open {
        return Err(PeriodNotOpen);
      }
      ghost var was := State();
      entries := entries[id := entry.(status := Posted)];
      CountEntry(entry);
      r := Ok(id);
      PostConsistent(was, id);
    }

    method Reverse(id: nat, date: int) returns (r: Result<nat>)
      requires Valid()
      modifies this
      ensures Valid()
      ensures Implements(Journal.Reverse(old(State()), id, date), old(State()), State(), r, |old(entries)|)
      ensures r.Ok? <==> id < |old(entries)| && old(entries)[id].status == Posted
                         && OpenOn(old(periods), old(entries)[id].head.company, date)
      ensures r.Ok? ==> |entries| == |old(entries)| + 1 && entries[r.value].date == date
                        && Placed(State(), entries[r.value])
    {
      if id >= |entries| {
        return Err(NotFound);
      }
      var original := entries[id];
      if original.status != Posted {
        return Err(WrongStatus);
      }
      var period := FindPeriod(periods, original.head.company, date);
      if period.None? || periods[period.value].status != Open {
        return Err(PeriodNotOpen);
      }
      ghost var was := State();
      ReversesIff(was, id, date);
      var number: nat;
      number, numbers := Issue(numbers, original.head.company);
      var reversal := Entry(original.head.(period := period.value), number, date, Posted, Some(id),
                            original.origin, Mirror(original.lines));
      r := Ok(|entries|);
      entries := entries + [reversal];
      entries := entries[id := original.(status := Reversed)];
      CountEntry(reversal);
      assert State() == SetStatus(Append(was, reversal), id, Reversed);
      ReverseConsistent(was, id, date);
    }

    method SetPeriodStatus(period: nat, s: PeriodStatus) returns (r: Result<nat>)
      requires Valid()
      modifies this`periods
      ensures Valid()
      ensures Implements(Journal.SetPeriodStatus(old(State()), period, s), old(State()), State(), r, period)
    {
      if period >= |periods| {
        return Err(NotFound);
      }
      ghost var was := State();
      periods := periods[period := periods[period].(status := s)];
      r := Ok(period);
      PeriodsConsistent(was, periods);
    }

    method AddPeriods(ps: seq<Period>)
      requires Valid()
      modifies this`periods
      ensures Valid() && Ok(State()) == Step(setup, old(State()), DoAddPeriods(ps))
    {
      ghost var was := State();
      periods := periods + ps;
      PeriodsConsistent(was, periods);
    }
  }
}
