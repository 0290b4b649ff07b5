/** Every ledger transaction on the fields of the rows it reads and writes: exactly
    when it is accepted, what it files, and what the summary rows then hold. */
module Transactions {
  import opened Base
  import opened Sums
  import opened Money
  import opened Journal
  import opened Consistency
  import opened Starter
  import opened Posting

  // ------------------------------------------------- the rows, field by field

  /** A dimension of a summary row: an id, or the empty string for none. */
  predicate Names(x: Option<Id>, id: Id)
  {
    x == Some(id) || (x.None? && id == "")
  }

  /** What a line adds to one side of a row with these account and dimensions. */
  function LineOn(account: nat, department: Id, costCentre: Id, profitCentre: Id, s: Side): Line -> int
  {
    (l: Line) =>
      if l.account == account && Names(l.dims.department, department) && Names(l.dims.costCentre, costCentre)
         && Names(l.dims.profitCentre, profitCentre)
      then if s == Debit then l.debit else l.credit
      else 0
  }

  /** What a posted or reversed entry adds to one side of a row. */
  function EntryOn(k: Key, s: Side): Entry -> int
  {
    (e: Entry) =>
      if (e.status == Posted || e.status == Reversed)
         && e.head.company == k.company && e.head.period == k.period && Names(e.head.branch, k.branch)
      then Sum(e.lines, LineOn(k.account, k.department, k.costCentre, k.profitCentre, s))
      else 0
  }

  lemma LinePartIsFields(h: Head, k: Key, s: Side, l: Line)
    ensures LinePart(h, Only(k), s)(l)
         == if h.company == k.company && h.period == k.period && Names(h.branch, k.branch)
            then LineOn(k.account, k.department, k.costCentre, k.profitCentre, s)(l) else 0
  {
    assert Only(k)(KeyOf(h, l)) <==>
      && h.company == k.company && h.period == k.period && Names(h.branch, k.branch) && l.account == k.account
      && Names(l.dims.department, k.department) && Names(l.dims.costCentre, k.costCentre)
      && Names(l.dims.profitCentre, k.profitCentre);
  }

  lemma EntryPartIsFields(k: Key, s: Side, e: Entry)
    ensures EntryPart(Only(k), s)(e) == EntryOn(k, s)(e)
  {
    var f, g := LinePart(e.head, Only(k), s), LineOn(k.account, k.department, k.costCentre, k.profitCentre, s);
    forall i | 0 <= i < |e.lines|
      ensures f(e.lines[i])
           == if e.head.company == k.company && e.head.period == k.period && Names(e.head.branch, k.branch)
              then g(e.lines[i]) else 0
    {
      LinePartIsFields(e.head, k, s, e.lines[i]);
    }
    if e.head.company == k.company && e.head.period == k.period && Names(e.head.branch, k.branch) {
      SumEqual(e.lines, f, g);
    } else {
      SumZero(e.lines, f);
    }
  }

  /** The total of a key is the sum over the lines with those fields. */
  lemma KeyTotalIsFields(entries: seq<Entry>, k: Key, s: Side)
    ensures JournalTotal(entries, Only(k), s) == Sum(entries, EntryOn(k, s))
  {
    forall i | 0 <= i < |entries|
      ensures EntryPart(Only(k), s)(entries[i]) == EntryOn(k, s)(entries[i])
    {
      EntryPartIsFields(k, s, entries[i]);
    }
    SumEqual(entries, EntryPart(Only(k), s), EntryOn(k, s));
  }

  lemma RowIsFields(entries: seq<Entry>, rows: map<Key, Row>, k: Key)
    requires Agrees(entries, rows)
    ensures var debits, credits := Sum(entries, EntryOn(k, Debit)), Sum(entries, EntryOn(k, Credit));
      if k in rows then rows[k].debitTotal == debits && rows[k].creditTotal == credits else debits == 0 == credits
  {
    KeyTotalIsFields(entries, k, Debit);
    KeyTotalIsFields(entries, k, Credit);
    assert RowPart(rows, k, Debit) == JournalTotal(entries, Only(k), Debit);
    assert RowPart(rows, k, Credit) == JournalTotal(entries, Only(k), Credit);
  }

  /** In every run: the row of a company, period, account, branch, department, cost centre
      and profit centre holds the debits and the credits of the posted and reversed
      entries' lines with exactly those fields, and there is no row only if there are none. */
  lemma RunRowsAreLines(setup: Setup, cs: seq<Command>, k: Key)
    ensures var led := Run(setup, cs);
      var debits, credits := Sum(led.entries, EntryOn(k, Debit)), Sum(led.entries, EntryOn(k, Credit));
      if k in led.rows then led.rows[k].debitTotal == debits && led.rows[k].creditTotal == credits
      else debits == 0 == credits
  {
    RunConsistent(setup, cs);
    RowIsFields(Run(setup, cs).entries, Run(setup, cs).rows, k);
  }

  /** Counting an entry adds each of its lines to the row with the line's own fields. */
  lemma CountInIsFields(rows: map<Key, Row>, e: Entry, k: Key, s: Side)
    ensures RowPart(CountIn(rows, e), k, s) == RowPart(rows, k, s) + EntryOn(k, s)(e.(status := Posted))
  {
    CountInAdds(rows, e, k, s);
    EntryPartIsFields(k, s, e.(status := Posted));
  }

  // ------------------------------------------------------ dates and numbers

  /** In every run every entry, drafts and reversals included, lies in a period of its own
      company that covers the entry's own date. */
  lemma RunDated(setup: Setup, cs: seq<Command>, i: nat)
    requires i < |Run(setup, cs).entries|
    ensures var led := Run(setup, cs);
      var e := led.entries[i];
      && e.head.period < |led.periods| && led.periods[e.head.period].company == e.head.company
      && led.periods[e.head.period].first <= e.date <= led.periods[e.head.period].last
  {
    RunConsistent(setup, cs);
    assert Placed(Run(setup, cs), Run(setup, cs).entries[i]);
  }

  function OfCompany(company: Id): Entry -> int
  {
    (e: Entry) => if e.head.company == company then 1 else 0
  }

  /** The next number of a company is one more than its entries. */
  ghost predicate CountsEntries(led: Ledger, company: Id)
  {
    && NextNumber(led.numbers, company) == 1 + Sum(led.entries, OfCompany(company))
    && forall i :: 0 <= i < |led.entries| && led.entries[i].head.company == company ==>
         led.entries[i].number == 1 + Sum(led.entries[..i], OfCompany(company))
  }

  lemma AppendCounts(led: Ledger, e: Entry, company: Id)
    requires CountsEntries(led, company) && e.number == NextNumber(led.numbers, e.head.company)
    ensures CountsEntries(Append(led, e), company)
  {
    SumAppend(led.entries, e, OfCompany(company));
    forall i | 0 <= i < |led.entries + [e]|
      ensures (led.entries + [e])[..i] == if i < |led.entries| then led.entries[..i] else led.entries
    {
    }
  }

  lemma StatusCounts(led: Ledger, id: nat, to: Status, company: Id)
    requires CountsEntries(led, company) && id < |led.entries|
    ensures CountsEntries(SetStatus(led, id, to), company)
  {
    var e, now := led.entries[id].(status := to), SetStatus(led, id, to).entries;
    SumUpdate(led.entries, id, e, OfCompany(company));
    forall i | 0 <= i < |now|
      ensures Sum(now[..i], OfCompany(company)) == Sum(led.entries[..i], OfCompany(company))
    {
      if id < i {
        assert now[..i] == led.entries[..i][id := e];
        SumUpdate(led.entries[..i], id, e, OfCompany(company));
      } else {
        assert now[..i] == led.entries[..i];
      }
    }
  }

  lemma ReversalCounts(led: Ledger, id: nat, date: int, company: Id)
    requires CountsEntries(led, company) && Reverse(led, id, date).Ok?
    ensures CountsEntries(Reverse(led, id, date).value, company)
  {
    var r := ReversalEntry(led, id, date).value;
    AppendCounts(led, r, company);
    StatusCounts(Append(led, r), id, Reversed, company);
  }

  lemma WorkflowCounts(setup: Setup, led: Ledger, c: Command, company: Id)
    requires CountsEntries(led, company) && Step(setup, led, c).Ok? && (c.DoSubmit? || c.DoApprove? || c.DoPost?)
    ensures CountsEntries(Step(setup, led, c).value, company)
  {
    StatusCounts(led, c.id, Step(setup, led, c).value.entries[c.id].status, company);
  }

  lemma EventCounts(setup: Setup, led: Ledger, e: Event, company: Id)
    requires CountsEntries(led, company) && PostEvent(setup, led, e).Ok?
    ensures CountsEntries(PostEvent(setup, led, e).value, company)
  {
    AppendCounts(led, EventEntry(setup, led, e).value, company);
  }

  lemma ManualCounts(setup: Setup, led: Ledger, m: ManualEntry, company: Id)
    requires CountsEntries(led, company) && CreateManual(setup, led, m).Ok?
    ensures CountsEntries(CreateManual(setup, led, m).value, company)
  {
    AppendCounts(led, DraftEntry(setup, led, m).value, company);
  }

  lemma StepCounts(setup: Setup, led: Ledger, c: Command, company: Id)
    requires CountsEntries(led, company) && Step(setup, led, c).Ok?
    ensures CountsEntries(Step(setup, led, c).value, company)
  {
    match c {
      case DoEvent(e) => EventCounts(setup, led, e, company);
      case DoManual(m) => ManualCounts(setup, led, m, company);
      case DoReverse(id, date) => ReversalCounts(led, id, date, company);
      case DoSetPeriod(_, _) =>
      case DoAddPeriods(_) =>
      case _ => WorkflowCounts(setup, led, c, company);
    }
  }

  lemma {:induction false} RunCounts(setup: Setup, cs: seq<Command>, company: Id)
    ensures CountsEntries(Run(setup, cs), company)
  {
    if cs != [] {
      var led := Run(setup, cs[..|cs| - 1]);
      RunCounts(setup, cs[..|cs| - 1], company);
      if Step(setup, led, cs[|cs| - 1]).Ok? {
        StepCounts(setup, led, cs[|cs| - 1], company);
      }
    }
  }

  /** In every run the entries of a company are numbered 1, 2, 3, ... in the order of their
      creation: an entry's number is one more than its company's entries before it. */
  lemma RunNumbers(setup: Setup, cs: seq<Command>, i: nat)
    requires i < |Run(setup, cs).entries|
    ensures var es := Run(setup, cs).entries;
      es[i].number == 1 + Sum(es[..i], OfCompany(es[i].head.company))
  {
    RunCounts(setup, cs, Run(setup, cs).entries[i].head.company);
  }

  // --------------------------------------------- accepted exactly when, and what then

  /** Only entry id changes, and only its status; entry n is new. */
  predicate AddsAndMarks(was: seq<Entry>, now: seq<Entry>, id: nat, to: Status)
  {
    && |now| == |was| + 1 && id < |was| && now[id] == was[id].(status := to)
    && forall i :: 0 <= i < |was| && i != id ==> now[i] == was[i]
  }

  /** A reversal is accepted exactly when the entry is there, is posted, and the date of the
      reversal lies in an open period of its company. It files the mirror of the entry on
      that date, in an open period that covers that date. */
  lemma ReversesIff(led: Ledger, id: nat, date: int)
    ensures Reverse(led, id, date).Ok? <==>
      id < |led.entries| && led.entries[id].status == Posted
      && OpenOn(led.periods, led.entries[id].head.company, date)
    ensures Reverse(led, id, date).Ok? ==>
      var was, now := led.entries[id], Reverse(led, id, date).value;
      && AddsAndMarks(led.entries, now.entries, id, Reversed) && now.periods == led.periods
      && var r := now.entries[|led.entries|];
        && r.date == date && r.status == Posted && r.reversalOf == Some(id) && r.origin == was.origin
        && r.head.company == was.head.company && r.head.branch == was.head.branch
        && r.number == NextNumber(led.numbers, was.head.company)
        && r.head.period < |led.periods| && led.periods[r.head.period].status == Open
        && led.periods[r.head.period].company == was.head.company
        && led.periods[r.head.period].first <= date <= led.periods[r.head.period].last
        && |r.lines| == |was.lines|
        && forall i :: 0 <= i < |r.lines| ==>
             r.lines[i] == was.lines[i].(debit := was.lines[i].credit, credit := was.lines[i].debit)
  {
  }

  /** A manual entry is posted exactly when it is approved and its own period is open; it
      starts to count then, and nothing else about it or any other entry changes. */
  lemma PostsIff(led: Ledger, id: nat, k: Key)
    requires Consistent(led)
    ensures PostManual(led, id).Ok? <==>
      id < |led.entries| && led.entries[id].status == Approved
      && led.periods[led.entries[id].head.period].status == Open
    ensures PostManual(led, id).Ok? ==>
      var now := PostManual(led, id).value;
      && now.entries == led.entries[id := led.entries[id].(status := Posted)]
      && now.periods == led.periods && now.numbers == led.numbers
      && RowPart(now.rows, k, Debit) == RowPart(led.rows, k, Debit) + EntryOn(k, Debit)(now.entries[id])
      && RowPart(now.rows, k, Credit) == RowPart(led.rows, k, Credit) + EntryOn(k, Credit)(now.entries[id])
  {
    assert forall i :: 0 <= i < |led.entries| ==> Placed(led, led.entries[i]);
    if PostManual(led, id).Ok? {
      CountInIsFields(led.rows, led.entries[id], k, Debit);
      CountInIsFields(led.rows, led.entries[id], k, Credit);
    }
  }

  /** Submitting takes a draft, approving a submitted entry, and nothing else, one step on. */
  lemma WorkflowIff(setup: Setup, led: Ledger, id: nat)
    ensures Step(setup, led, DoSubmit(id)).Ok? <==> id < |led.entries| && led.entries[id].status == Draft
    ensures Step(setup, led, DoApprove(id)).Ok? <==> id < |led.entries| && led.entries[id].status == Submitted
    ensures Step(setup, led, DoSubmit(id)).Ok? ==>
      Step(setup, led, DoSubmit(id)).value == led.(entries := led.entries[id := led.entries[id].(status := Submitted)])
    ensures Step(setup, led, DoApprove(id)).Ok? ==>
      Step(setup, led, DoApprove(id)).value == led.(entries := led.entries[id := led.entries[id].(status := Approved)])
  {
  }

  /** What a manual request must meet, amount by amount. */
  predicate Acceptable(setup: Setup, lines: seq<RawLine>)
  {
    && (forall i :: 0 <= i < |lines| ==> lines[i].debit >= 0.0 && lines[i].credit >= 0.0)
    && (forall i :: 0 <= i < |lines| ==> lines[i].debit == 0.0 || lines[i].credit == 0.0)
    && (forall i :: 0 <= i < |lines| ==> lines[i].account < |setup.chart|)
    && -1.0 <= RawTotal(lines, Debit) - RawTotal(lines, Credit) <= 1.0
  }

  /** A manual entry is filed exactly when its amounts are non-negative, one-sided and at
      most a cent apart, its accounts exist and some period covers its date, open or not.
      It is a draft on that date, with one line a request line, and counts nothing. */
  lemma DraftsIff(setup: Setup, led: Ledger, m: ManualEntry)
    ensures CreateManual(setup, led, m).Ok? <==>
      Acceptable(setup, m.lines) && FindPeriod(led.periods, m.company, m.date).Some?
    ensures CreateManual(setup, led, m).Ok? ==>
      var now := CreateManual(setup, led, m).value;
      && |now.entries| == |led.entries| + 1 && now.entries[..|led.entries|] == led.entries
      && now.rows == led.rows && now.periods == led.periods
      && var e := now.entries[|led.entries|];
        && e.head.company == m.company && e.head.branch == None && e.date == m.date && e.status == Draft
        && e.reversalOf == None && e.origin == Manual
        && led.periods[e.head.period].company == m.company
        && led.periods[e.head.period].first <= m.date <= led.periods[e.head.period].last
        && |e.lines| == |m.lines|
        && forall i :: 0 <= i < |m.lines| ==>
             e.lines[i] == Line(m.lines[i].lineNo, m.lines[i].account, ToColumn(m.lines[i].debit),
                                ToColumn(m.lines[i].credit), m.lines[i].dims)
  {
  }

  /** Setting a period's status takes exactly a period that is there and changes nothing else
      of it; new periods go after the existing ones. */
  lemma PeriodsIff(setup: Setup, led: Ledger, period: nat, s: PeriodStatus, more: seq<Period>)
    ensures Step(setup, led, DoSetPeriod(period, s)).Ok? <==> period < |led.periods|
    ensures Step(setup, led, DoSetPeriod(period, s)).Ok? ==>
      Step(setup, led, DoSetPeriod(period, s)).value
        == led.(periods := led.periods[period := led.periods[period].(status := s)])
    ensures Step(setup, led, DoAddPeriods(more)) == Ok(led.(periods := led.periods + more))
  {
  }

  // -------------------------------------------------------- which refusal comes first

  /** Line i has an amount but no account, and is the first such. */
  predicate FirstMissing(setup: Setup, e: Event, lines: seq<RuleLine>, i: nat, error: Error)
    requires i < |lines|
  {
    && AmountOf(e, lines[i].source) != 0.0
    && Resolve(setup, e.company, lines[i].resolver, e.overrides) == Err(error)
    && forall j :: 0 <= j < i ==> Resolved(setup, e, lines[j])
  }

  /** The first rule line with an amount but no account stops the event with its error. */
  lemma {:induction false} FirstUnresolved(setup: Setup, e: Event, lines: seq<RuleLine>)
    requires BuildLines(setup, e, lines).Err?
    ensures var error := BuildLines(setup, e, lines).error;
      exists i :: 0 <= i < |lines| && FirstMissing(setup, e, lines, i, error)
  {
    var n := |lines| - 1;
    if BuildLines(setup, e, lines[..n]).Err? {
      FirstUnresolved(setup, e, lines[..n]);
      var error := BuildLines(setup, e, lines).error;
      var i :| 0 <= i < n && FirstMissing(setup, e, lines[..n], i, error);
      assert forall j :: 0 <= j < i ==> lines[..n][j] == lines[j];
      assert FirstMissing(setup, e, lines, i, error);
    } else {
      BuildsIff(setup, e, lines[..n]);
      assert forall j :: 0 <= j < n ==> Resolved(setup, e, lines[..n][j]) && lines[..n][j] == lines[j];
      assert FirstMissing(setup, e, lines, n, BuildLines(setup, e, lines).error);
    }
  }

  /** The reason an event is refused, in the order of the checks: no active rule, no period
      on its date, a period that is not open, an account that is missing, or no balance. */
  lemma EventRefusal(setup: Setup, led: Ledger, e: Event)
    requires PostEvent(setup, led, e).Err?
    ensures var (key, error) := ((e.company, e.kind), PostEvent(setup, led, e).error);
      if key !in setup.rules || !setup.rules[key].active then error == NoActiveRule
      else if FindPeriod(led.periods, e.company, e.date).None? then error == NoPeriod
      else if !OpenOn(led.periods, e.company, e.date) then error == PeriodNotOpen
      else if exists i :: 0 <= i < |setup.rules[key].lines| && !Resolved(setup, e, setup.rules[key].lines[i])
      then exists i :: 0 <= i < |setup.rules[key].lines| && FirstMissing(setup, e, setup.rules[key].lines, i, error)
      else error == Unbalanced && AbsReal(RawNet(e, setup.rules[key].lines)) > 1.0
  {
    var key := (e.company, e.kind);
    if key in setup.rules {
      BuildsIff(setup, e, setup.rules[key].lines);
      if BuildLines(setup, e, setup.rules[key].lines).Ok? {
        BuiltRawNet(setup, e, setup.rules[key].lines);
      } else {
        FirstUnresolved(setup, e, setup.rules[key].lines);
      }
    }
  }

  predicate AnyNegative(lines: seq<RawLine>)
  {
    exists i :: 0 <= i < |lines| && (lines[i].debit < 0.0 || lines[i].credit < 0.0)
  }

  predicate AnyTwoSided(lines: seq<RawLine>)
  {
    exists i :: 0 <= i < |lines| && lines[i].debit > 0.0 && lines[i].credit > 0.0
  }

  /** The reason a manual request is refused, in the order of the checks. */
  lemma DraftRefusal(setup: Setup, led: Ledger, m: ManualEntry)
    requires CreateManual(setup, led, m).Err?
    ensures var error := CreateManual(setup, led, m).error;
      if AnyNegative(m.lines) then error == NegativeAmount
      else if AbsReal(RawTotal(m.lines, Debit) - RawTotal(m.lines, Credit)) > 1.0 then error == Unbalanced
      else if AnyTwoSided(m.lines) then error == TwoSidedLine
      else if FindPeriod(led.periods, m.company, m.date).None? then error == NoPeriod
      else error == UnknownAccount
  {
  }

  /** A posting or a reversal is refused because the entry is missing, else because of its
      status, else because of the period. */
  lemma EntryRefusal(led: Ledger, id: nat, date: int)
    ensures PostManual(led, id).Err? ==>
      PostManual(led, id).error ==
        if id >= |led.entries| then NotFound
        else if led.entries[id].status != Approved then WrongStatus else PeriodNotOpen
    ensures Reverse(led, id, date).Err? ==>
      Reverse(led, id, date).error ==
        if id >= |led.entries| then NotFound
        else if led.entries[id].status != Posted then WrongStatus else PeriodNotOpen
  {
  }
}
