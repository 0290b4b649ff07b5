/** The control-account figures of the management dashboard. */
module ManagementInfo {
  import opened Base
  import opened Sums
  import opened Money
  import opened Journal
  import opened Consistency
  import opened Starter
  import opened Posting
  import opened Reports
  import opened Subledger
  import opened TieOut

  /** Rows of a company, in periods ending by a date, on accounts with a control tag. */
  function ChosenTag(setup: Setup, periods: seq<Period>, company: Id, asOf: int, control: Control): Key -> bool
  {
    (k: Key) => Chosen(setup, periods, company, asOf)(k) && setup.chart[k.account].control == Some(control)
  }

  datatype ControlRow = ControlRow(control: Control, debitTotal: Cents, creditTotal: Cents)

  ghost function TagTotal(setup: Setup, led: Ledger, company: Id, asOf: int, control: Control, s: Side): Cents
  {
    SumOver(RowsWhere(led.rows, ChosenTag(setup, led.periods, company, asOf, control)), RowAmount(led.rows, s))
  }

  predicate Lists(rows: seq<ControlRow>, control: Control)
  {
    exists i :: 0 <= i < |rows| && rows[i].control == control
  }

  /** What the grouped query returns: one row for each tag that has summary rows. */
  ghost predicate Grouped(setup: Setup, led: Ledger, company: Id, asOf: int, rows: seq<ControlRow>)
  {
    && (forall i, j :: 0 <= i < j < |rows| ==> rows[i].control != rows[j].control)
    && (forall i :: 0 <= i < |rows| ==>
          rows[i] == ControlRow(rows[i].control, TagTotal(setup, led, company, asOf, rows[i].control, Debit),
                                TagTotal(setup, led, company, asOf, rows[i].control, Credit)))
    && (forall c: Control ::
          RowsWhere(led.rows, ChosenTag(setup, led.periods, company, asOf, c)) != {} ==> Lists(rows, c))
  }

  /** map.get(control) ?? 0 */
  function Get(m: map<Control, Cents>, control: Control): Cents
  {
    if control in m then m[control] else 0
  }

  /** The debit and credit totals of a tag differ by what the raw lines net to. */
  lemma TagNet(setup: Setup, led: Ledger, company: Id, asOf: int, control: Control)
    requires Consistent(led)
    ensures TagTotal(setup, led, company, asOf, control, Debit) - TagTotal(setup, led, company, asOf, control, Credit)
         == Sum(led.entries, NetPart(ChosenTag(setup, led.periods, company, asOf, control)))
  {
    var p := ChosenTag(setup, led.periods, company, asOf, control);
    SummaryTotal(led.entries, led.rows, p, Debit);
    SummaryTotal(led.entries, led.rows, p, Credit);
    JournalNet(led.entries, p);
  }

  function OfTag(control: Control): Account -> bool
  {
    (a: Account) => a.control == Some(control)
  }

  /** ... and the raw lines are those on accounts with the tag, in the company's periods that
      end on or before the date. */
  lemma TagIsLines(setup: Setup, led: Ledger, company: Id, asOf: int, control: Control)
    requires Consistent(led)
    ensures Sum(led.entries, NetPart(ChosenTag(setup, led.periods, company, asOf, control)))
         == LinesBalance(setup, led, company, asOf, OfTag(control))
  {
    var p := ChosenTag(setup, led.periods, company, asOf, control);
    var q := ChosenAccounts(setup, led.periods, company, asOf, OfTag(control));
    SummaryNet(led.entries, led.rows, p);
    SummaryNet(led.entries, led.rows, q);
    assert forall k :: p(k) <==> q(k);
    assert RowsWhere(led.rows, p) == RowsWhere(led.rows, q);
    JournalNet(led.entries, q);
    SelectedTotal(setup, led, company, asOf, OfTag(control), Debit);
    SelectedTotal(setup, led, company, asOf, OfTag(control), Credit);
  }

  /** controlBalances(): every figure read from the map, present or defaulted to zero,
      is the net of the posted and reversed lines on the accounts with that tag. */
  method ControlBalances(setup: Setup, led: Ledger, company: Id, asOf: int, rows: seq<ControlRow>)
    returns (m: map<Control, Cents>)
    requires Consistent(led) && Grouped(setup, led, company, asOf, rows)
    ensures forall c: Control :: Get(m, c) == LinesBalance(setup, led, company, asOf, OfTag(c))
  {
    m := map[];
    var i := 0;
    while i < |rows|
      invariant i <= |rows|
      invariant forall c :: c in m ==> Lists(rows[..i], c)
      invariant forall j :: 0 <= j < i ==>
        rows[j].control in m && m[rows[j].control] == rows[j].debitTotal - rows[j].creditTotal
    {
      m := m[rows[i].control := rows[i].debitTotal - rows[i].creditTotal];
      assert rows[..i + 1][i] == rows[i];
      assert forall c :: Lists(rows[..i], c) ==> Lists(rows[..i + 1], c) by {
        forall c | Lists(rows[..i], c)
          ensures Lists(rows[..i + 1], c)
        {
          var j :| 0 <= j < i && rows[..i][j].control == c;
          assert rows[..i + 1][j].control == c;
        }
      }
      i := i + 1;
    }
    forall c: Control
      ensures Get(m, c) == LinesBalance(setup, led, company, asOf, OfTag(c))
    {
      TagNet(setup, led, company, asOf, c);
      TagIsLines(setup, led, company, asOf, c);
    }
  }

  predicate OwnLines(setup: Setup, e: Entry)
  {
    forall i :: 0 <= i < |e.lines| ==>
      e.lines[i].account < |setup.chart| && setup.chart[e.lines[i].account].company == e.head.company
  }

  ghost predicate DocumentsOwn(setup: Setup, entries: seq<Entry>)
  {
    forall j :: 0 <= j < |entries| && entries[j].origin.Document? ==> OwnLines(setup, entries[j])
  }

  ghost predicate ManualOwn(setup: Setup, entries: seq<Entry>)
  {
    forall j :: 0 <= j < |entries| && entries[j].origin.Manual? ==> OwnLines(setup, entries[j])
  }

  lemma StepOwn(setup: Setup, led: Ledger, c: Command)
    requires DocumentsOwn(setup, led.entries) && Step(setup, led, c).Ok?
    ensures DocumentsOwn(setup, Step(setup, led, c).value.entries)
  {
    var now := Step(setup, led, c).value.entries;
    StepExtends(setup, led, c);
    forall j | 0 <= j < |now| && now[j].origin.Document?
      ensures OwnLines(setup, now[j])
    {
      if j < |led.entries| {
        assert OwnLines(setup, led.entries[j]);
      } else if c.DoReverse? {
        assert OwnLines(setup, led.entries[c.id]);
      }
    }
  }

  /** An entry posted for a document, or reversing one, is on accounts of its own company. */
  lemma {:induction false} RunOwn(setup: Setup, cs: seq<Command>)
    ensures DocumentsOwn(setup, Run(setup, cs).entries)
  {
    if cs != [] {
      RunOwn(setup, cs[..|cs| - 1]);
      if Step(setup, Run(setup, cs[..|cs| - 1]), cs[|cs| - 1]).Ok? {
        StepOwn(setup, Run(setup, cs[..|cs| - 1]), cs[|cs| - 1]);
      }
    }
  }

  lemma SameNet(e: Entry, p: Key -> bool, q: Key -> bool)
    requires forall i :: 0 <= i < |e.lines| ==> p(KeyOf(e.head, e.lines[i])) == q(KeyOf(e.head, e.lines[i]))
    ensures Net(e, p) == Net(e, q)
  {
    SumEqual(e.lines, LinePart(e.head, p, Debit), LinePart(e.head, q, Debit));
    SumEqual(e.lines, LinePart(e.head, p, Credit), LinePart(e.head, q, Credit));
  }

  /** The dashboard's receivables and payables are the open items, to the cent: once
      every period of the company has ended, and when manual entries keep to their company's accounts
      and neither they nor reversals move the control accounts. */
  lemma DashboardIsOpenItems(setup: Setup, company: Id, cs: seq<OfficeCommand>, trade: Trade, asOf: int)
    requires UsesStarterRules(setup, company) && forall n :: 0 <= n < |cs| ==> SparesControls(setup, company, cs[n])
    requires var led := RunOffice(setup, company, cs).ledger;
      && HandsOff(setup, company, led.entries, trade)
      && ManualOwn(setup, led.entries)
      && forall p :: 0 <= p < |led.periods| && led.periods[p].company == company ==> led.periods[p].last <= asOf
    ensures var o := RunOffice(setup, company, cs);
      Sign(trade) * Sum(o.ledger.entries, NetPart(ChosenTag(setup, o.ledger.periods, company, asOf, ControlOf(trade))))
        == Sum(o.docs, OpenItem(trade))
  {
    var o := RunOffice(setup, company, cs);
    var ls := LedgerRun(setup, company, cs, false);
    RunConsistent(setup, ls);
    RunOwn(setup, ls);
    RunSettled(setup, company, cs);
    var p := ChosenTag(setup, o.ledger.periods, company, asOf, ControlOf(trade));
    forall j | 0 <= j < |o.ledger.entries|
      ensures NetPart(p)(o.ledger.entries[j]) == TradeNet(setup, company, trade)(o.ledger.entries[j])
    {
      var e := o.ledger.entries[j];
      assert Placed(o.ledger, e) && OwnLines(setup, e);
      SameControlNet(setup, o.ledger, company, asOf, trade, e);
      OnlyTradeMoves(setup, company, cs, trade, j);
    }
    SumEqual(o.ledger.entries, NetPart(p), TradeNet(setup, company, trade));
  }

  lemma SameControlNet(setup: Setup, led: Ledger, company: Id, asOf: int, trade: Trade, e: Entry)
    requires Placed(led, e) && OwnLines(setup, e)
    requires e.head.company == company ==> led.periods[e.head.period].last <= asOf
    ensures Net(e, ChosenTag(setup, led.periods, company, asOf, ControlOf(trade)))
         == Net(e, ControlAccounts(setup, company, trade))
  {
    var p, q := ChosenTag(setup, led.periods, company, asOf, ControlOf(trade)), ControlAccounts(setup, company, trade);
    forall i | 0 <= i < |e.lines|
      ensures p(KeyOf(e.head, e.lines[i])) == q(KeyOf(e.head, e.lines[i]))
    {
      SameSelection(setup, led, company, asOf, trade, e, e.lines[i]);
    }
    SameNet(e, p, q);
  }

  lemma SameSelection(setup: Setup, led: Ledger, company: Id, asOf: int, trade: Trade, e: Entry, l: Line)
    requires Placed(led, e) && l.account < |setup.chart| && setup.chart[l.account].company == e.head.company
    requires e.head.company == company ==> led.periods[e.head.period].last <= asOf
    ensures ChosenTag(setup, led.periods, company, asOf, ControlOf(trade))(KeyOf(e.head, l))
        <==> ControlAccounts(setup, company, trade)(KeyOf(e.head, l))
  {
    var k := KeyOf(e.head, l);
    assert Chosen(setup, led.periods, company, asOf)(k) <==> k.company == company;
    assert TaggedWith(setup, company, ControlOf(trade))(l.account) <==>
      setup.chart[l.account].company == company && setup.chart[l.account].control == Some(ControlOf(trade));
  }
}
