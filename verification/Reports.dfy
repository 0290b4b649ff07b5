/** The reports read only the summary rows. They say what the raw lines say, and
    the balance sheet balances exactly when the trial balance sums to zero, apart
    from accounts whose type and P&L tag disagree. */
module Reports {
  import opened Base
  import opened Sums
  import opened Money
  import opened Journal
  import opened Consistency
  import opened Starter
  import opened Posting
  import opened Balance

  // ------------------------------------------------- summary rows, added up

  function RowAmount(rows: map<Key, Row>, s: Side): Key -> int
  {
    (k: Key) => RowPart(rows, k, s)
  }

  ghost function RowsWhere(rows: map<Key, Row>, p: Key -> bool): set<Key>
  {
    set k | k in rows && p(k)
  }

  function KeyTotal(entries: seq<Entry>, s: Side): Key -> int
  {
    (k: Key) => JournalTotal(entries, Only(k), s)
  }

  function KeyEntry(e: Entry, s: Side): Key -> int
  {
    (k: Key) => EntryPart(Only(k), s)(e)
  }

  function KeyLines(h: Head, lines: seq<Line>, s: Side): Key -> int
  {
    (k: Key) => Sum(lines, LinePart(h, Only(k), s))
  }

  function KeyLine(h: Head, l: Line, s: Side): Key -> int
  {
    (k: Key) => LinePart(h, Only(k), s)(l)
  }

  /** Splitting an entry's lines over the keys of ks loses and repeats nothing. */
  lemma {:induction false} SplitLines(ks: set<Key>, h: Head, lines: seq<Line>, p: Key -> bool, s: Side)
    requires forall k :: k in ks ==> p(k)
    requires forall i :: 0 <= i < |lines| && p(KeyOf(h, lines[i])) ==> KeyOf(h, lines[i]) in ks
    ensures SumOver(ks, KeyLines(h, lines, s)) == Sum(lines, LinePart(h, p, s))
  {
    if lines == [] {
      SumOverZero(ks, KeyLines(h, lines, s));
    } else {
      var n := |lines| - 1;
      SplitLines(ks, h, lines[..n], p, s);
      SumOverPlus(ks, KeyLines(h, lines[..n], s), KeyLine(h, lines[n], s), KeyLines(h, lines, s));
      SumOverPoint(ks, KeyLine(h, lines[n], s), KeyOf(h, lines[n]));
    }
  }

  lemma SplitEntry(ks: set<Key>, e: Entry, p: Key -> bool, s: Side)
    requires forall k :: k in ks ==> p(k)
    requires forall i :: 0 <= i < |e.lines| && p(KeyOf(e.head, e.lines[i])) && Counted(e.status) ==>
      KeyOf(e.head, e.lines[i]) in ks
    ensures SumOver(ks, KeyEntry(e, s)) == EntryPart(p, s)(e)
  {
    if Counted(e.status) {
      SplitLines(ks, e.head, e.lines, p, s);
      forall k | k in ks
        ensures KeyEntry(e, s)(k) == KeyLines(e.head, e.lines, s)(k)
      {
        assert EntryPart(Only(k), s)(e) == LinesTotal(e, Only(k), s);
      }
      SumOverEqual(ks, KeyEntry(e, s), KeyLines(e.head, e.lines, s));
    } else {
      forall k | k in ks
        ensures KeyEntry(e, s)(k) == 0
      {
        assert EntryPart(Only(k), s)(e) == 0;
      }
      SumOverZero(ks, KeyEntry(e, s));
    }
  }

  lemma {:induction false} SplitJournal(ks: set<Key>, entries: seq<Entry>, p: Key -> bool, s: Side)
    requires forall k :: k in ks ==> p(k)
    requires forall j, i ::
      0 <= j < |entries| && Counted(entries[j].status) && 0 <= i < |entries[j].lines| ==>
        p(KeyOf(entries[j].head, entries[j].lines[i])) ==> KeyOf(entries[j].head, entries[j].lines[i]) in ks
    ensures SumOver(ks, KeyTotal(entries, s)) == JournalTotal(entries, p, s)
  {
    if entries == [] {
      SumOverZero(ks, KeyTotal(entries, s));
    } else {
      var n := |entries| - 1;
      SplitJournal(ks, entries[..n], p, s);
      SplitEntry(ks, entries[n], p, s);
      SumOverPlus(ks, KeyTotal(entries[..n], s), KeyEntry(entries[n], s), KeyTotal(entries, s));
    }
  }

  /** Any selection of summary rows adds up to the counted lines with those keys. */
  lemma SummaryTotal(entries: seq<Entry>, rows: map<Key, Row>, p: Key -> bool, s: Side)
    requires Agrees(entries, rows) && RowsCover(entries, rows)
    ensures SumOver(RowsWhere(rows, p), RowAmount(rows, s)) == JournalTotal(entries, p, s)
  {
    var ks := RowsWhere(rows, p);
    forall j, i | 0 <= j < |entries| && Counted(entries[j].status) && 0 <= i < |entries[j].lines|
      && p(KeyOf(entries[j].head, entries[j].lines[i]))
      ensures KeyOf(entries[j].head, entries[j].lines[i]) in ks
    {
      assert HasRows(entries[j], rows);
    }
    SplitJournal(ks, entries, p, s);
    SumOverEqual(ks, RowAmount(rows, s), KeyTotal(entries, s));
  }

  // ------------------------------------------------------------ trial balance

  /** The account columns a report groups by. */
  datatype Info = Info(code: string, name: string, kind: AccountType, mis: Option<Mis>)

  function AccountInfo(a: Account): Info
  {
    Info(a.code, a.name, a.kind, a.mis)
  }

  function InfoOf(setup: Setup): Key -> Info
  {
    (k: Key) => if k.account < |setup.chart| then AccountInfo(setup.chart[k.account]) else Info("", "", Asset, None)
  }

  predicate EndsBy(periods: seq<Period>, period: nat, asOf: int)
  {
    period < |periods| && periods[period].last <= asOf
  }

  /** Rows of one company in periods that end by a date, joined to their account. */
  function Chosen(setup: Setup, periods: seq<Period>, company: Id, asOf: int): Key -> bool
  {
    (k: Key) => k.company == company && k.account < |setup.chart| && EndsBy(periods, k.period, asOf)
  }

  /** ... and of one account group. */
  function ChosenInfo(setup: Setup, periods: seq<Period>, company: Id, asOf: int, g: Info): Key -> bool
  {
    (k: Key) => Chosen(setup, periods, company, asOf)(k) && InfoOf(setup)(k) == g
  }

  ghost function ReportRows(setup: Setup, led: Ledger, company: Id, asOf: int): set<Key>
  {
    RowsWhere(led.rows, Chosen(setup, led.periods, company, asOf))
  }

  ghost function TrialBalance(setup: Setup, led: Ledger, company: Id, asOf: int): map<Info, Row>
  {
    var ks := ReportRows(setup, led, company, asOf);
    map g | g in (set k | k in ks :: InfoOf(setup)(k)) ::
      Row(GroupSum(ks, RowAmount(led.rows, Debit), InfoOf(setup))(g),
          GroupSum(ks, RowAmount(led.rows, Credit), InfoOf(setup))(g))
  }

  ghost function Cell(tb: map<Info, Row>, g: Info, s: Side): Cents
  {
    if g !in tb then 0 else if s == Debit then tb[g].debitTotal else tb[g].creditTotal
  }

  /** Every figure of the trial balance equals the figure recomputed from the raw
      posted and reversed lines, and an account it leaves out has none. */
  lemma TrialBalanceIsRaw(setup: Setup, led: Ledger, company: Id, asOf: int, g: Info, s: Side)
    requires Consistent(led)
    ensures Cell(TrialBalance(setup, led, company, asOf), g, s)
         == JournalTotal(led.entries, ChosenInfo(setup, led.periods, company, asOf, g), s)
  {
    var ks := ReportRows(setup, led, company, asOf);
    var p := ChosenInfo(setup, led.periods, company, asOf, g);
    SummaryTotal(led.entries, led.rows, p, s);
    assert RowsWhere(led.rows, p) == Group(ks, InfoOf(setup), g);
    if g !in TrialBalance(setup, led, company, asOf) {
      assert RowsWhere(led.rows, p) == {};
    }
  }

  /** A line's amount on one side, if its account is one of those selected. */
  function SelectedLine(setup: Setup, sel: Account -> bool, s: Side): Line -> int
  {
    (l: Line) =>
      if l.account < |setup.chart| && sel(setup.chart[l.account]) then if s == Debit then l.debit else l.credit
      else 0
  }

  /** What a posted or reversed entry of the company, in a period that ends by the date, has
      on the selected accounts. */
  function SelectedEntry(setup: Setup, periods: seq<Period>, company: Id, asOf: int,
                         sel: Account -> bool, s: Side): Entry -> int
  {
    (e: Entry) =>
      if (e.status == Posted || e.status == Reversed) && e.head.company == company
         && e.head.period < |periods| && periods[e.head.period].last <= asOf
      then Sum(e.lines, SelectedLine(setup, sel, s))
      else 0
  }

  /** The summary rows of the selected accounts in a report. */
  function ChosenAccounts(setup: Setup, periods: seq<Period>, company: Id, asOf: int, sel: Account -> bool): Key -> bool
  {
    (k: Key) => Chosen(setup, periods, company, asOf)(k) && sel(setup.chart[k.account])
  }

  lemma SelectedPart(setup: Setup, periods: seq<Period>, company: Id, asOf: int, sel: Account -> bool, s: Side,
                     e: Entry)
    ensures EntryPart(ChosenAccounts(setup, periods, company, asOf, sel), s)(e)
         == SelectedEntry(setup, periods, company, asOf, sel, s)(e)
  {
    var p := ChosenAccounts(setup, periods, company, asOf, sel);
    var within := e.head.company == company && e.head.period < |periods| && periods[e.head.period].last <= asOf;
    forall i | 0 <= i < |e.lines|
      ensures LinePart(e.head, p, s)(e.lines[i]) == if within then SelectedLine(setup, sel, s)(e.lines[i]) else 0
    {
      var k := KeyOf(e.head, e.lines[i]);
      assert k.company == e.head.company && k.period == e.head.period && k.account == e.lines[i].account;
      assert p(k) <==> within && k.account < |setup.chart| && sel(setup.chart[k.account]);
    }
    if within {
      SumEqual(e.lines, LinePart(e.head, p, s), SelectedLine(setup, sel, s));
    } else {
      SumZero(e.lines, LinePart(e.head, p, s));
    }
  }

  lemma SelectedTotal(setup: Setup, led: Ledger, company: Id, asOf: int, sel: Account -> bool, s: Side)
    ensures JournalTotal(led.entries, ChosenAccounts(setup, led.periods, company, asOf, sel), s)
         == Sum(led.entries, SelectedEntry(setup, led.periods, company, asOf, sel, s))
  {
    var p := ChosenAccounts(setup, led.periods, company, asOf, sel);
    forall i | 0 <= i < |led.entries|
      ensures EntryPart(p, s)(led.entries[i])
           == SelectedEntry(setup, led.periods, company, asOf, sel, s)(led.entries[i])
    {
      SelectedPart(setup, led.periods, company, asOf, sel, s, led.entries[i]);
    }
    SumEqual(led.entries, EntryPart(p, s), SelectedEntry(setup, led.periods, company, asOf, sel, s));
  }

  /** The accounts a line of the trial balance stands for. */
  function Listed(g: Info): Account -> bool
  {
    (a: Account) => a.code == g.code && a.name == g.name && a.kind == g.kind && a.mis == g.mis
  }

  /** Every figure of the trial balance is the sum over the posted and reversed lines on
      accounts with that code, name, type and category, in the company's periods that end
      on or before the date. */
  lemma FigureIsLines(setup: Setup, led: Ledger, company: Id, asOf: int, g: Info, s: Side)
    requires Consistent(led)
    ensures Cell(TrialBalance(setup, led, company, asOf), g, s)
         == Sum(led.entries, SelectedEntry(setup, led.periods, company, asOf, Listed(g), s))
  {
    var p := ChosenInfo(setup, led.periods, company, asOf, g);
    var q := ChosenAccounts(setup, led.periods, company, asOf, Listed(g));
    TrialBalanceIsRaw(setup, led, company, asOf, g, s);
    SelectedTotal(setup, led, company, asOf, Listed(g), s);
    SummaryTotal(led.entries, led.rows, p, s);
    SummaryTotal(led.entries, led.rows, q, s);
    assert forall k :: p(k) <==> q(k);
    assert RowsWhere(led.rows, p) == RowsWhere(led.rows, q);
  }

  function BalanceOf(tb: map<Info, Row>): Info -> int
  {
    (g: Info) => if g in tb then tb[g].debitTotal - tb[g].creditTotal else 0
  }

  /** The sum of the balance column. */
  ghost function GrandTotal(tb: map<Info, Row>): Cents
  {
    SumOver(tb.Keys, BalanceOf(tb))
  }

  function NetPart(p: Key -> bool): Entry -> int
  {
    (e: Entry) => if Counted(e.status) then Net(e, p) else 0
  }

  function NetAmount(rows: map<Key, Row>): Key -> int
  {
    (k: Key) => RowPart(rows, k, Debit) - RowPart(rows, k, Credit)
  }

  lemma JournalNet(entries: seq<Entry>, p: Key -> bool)
    ensures Sum(entries, NetPart(p)) == JournalTotal(entries, p, Debit) - JournalTotal(entries, p, Credit)
  {
    SumPlus(entries, NetPart(p), EntryPart(p, Credit), EntryPart(p, Debit));
  }

  lemma SummaryNet(entries: seq<Entry>, rows: map<Key, Row>, p: Key -> bool)
    requires Agrees(entries, rows) && RowsCover(entries, rows)
    ensures SumOver(RowsWhere(rows, p), NetAmount(rows)) == Sum(entries, NetPart(p))
  {
    var ks := RowsWhere(rows, p);
    SummaryTotal(entries, rows, p, Debit);
    SummaryTotal(entries, rows, p, Credit);
    JournalNet(entries, p);
    SumOverPlus(ks, NetAmount(rows), RowAmount(rows, Credit), RowAmount(rows, Debit));
  }

  lemma GroupNet(ks: set<Key>, rows: map<Key, Row>, info: Key -> Info, g: Info)
    ensures GroupSum(ks, NetAmount(rows), info)(g)
         == GroupSum(ks, RowAmount(rows, Debit), info)(g) - GroupSum(ks, RowAmount(rows, Credit), info)(g)
  {
    SumOverPlus(Group(ks, info, g), NetAmount(rows), RowAmount(rows, Credit), RowAmount(rows, Debit));
  }

  lemma BalanceIsGroup(setup: Setup, led: Ledger, company: Id, asOf: int, g: Info)
    requires g in TrialBalance(setup, led, company, asOf)
    ensures BalanceOf(TrialBalance(setup, led, company, asOf))(g)
         == GroupSum(ReportRows(setup, led, company, asOf), NetAmount(led.rows), InfoOf(setup))(g)
  {
    GroupNet(ReportRows(setup, led, company, asOf), led.rows, InfoOf(setup), g);
  }

  /** Adding up the balance column is adding up the report's rows. */
  lemma GrandTotalIsRows(setup: Setup, led: Ledger, company: Id, asOf: int)
    ensures GrandTotal(TrialBalance(setup, led, company, asOf))
         == SumOver(ReportRows(setup, led, company, asOf), NetAmount(led.rows))
  {
    var ks := ReportRows(setup, led, company, asOf);
    var tb := TrialBalance(setup, led, company, asOf);
    forall g | g in tb.Keys
      ensures BalanceOf(tb)(g) == GroupSum(ks, NetAmount(led.rows), InfoOf(setup))(g)
    {
      BalanceIsGroup(setup, led, company, asOf, g);
    }
    SumOverEqual(tb.Keys, BalanceOf(tb), GroupSum(ks, NetAmount(led.rows), InfoOf(setup)));
    SumOverRegroup(ks, NetAmount(led.rows), InfoOf(setup), tb.Keys);
  }

  lemma GrandTotalIsRaw(setup: Setup, led: Ledger, company: Id, asOf: int)
    requires Consistent(led)
    ensures GrandTotal(TrialBalance(setup, led, company, asOf))
         == Sum(led.entries, NetPart(Chosen(setup, led.periods, company, asOf)))
  {
    GrandTotalIsRows(setup, led, company, asOf);
    SummaryNet(led.entries, led.rows, Chosen(setup, led.periods, company, asOf));
  }

  // ------------------------------------------------------------ balance sheet

  predicate OnSheet(g: Info)
  {
    g.kind == Asset || g.kind == Liability || g.kind == Equity
  }

  predicate InProfit(g: Info)
  {
    g.mis == Some(Revenue) || g.mis == Some(CostOfGoods) || g.mis == Some(Opex)
  }

  ghost function OfKind(tb: map<Info, Row>, kind: AccountType): set<Info>
  {
    set g | g in tb && g.kind == kind
  }

  ghost function OfMis(tb: map<Info, Row>, mis: Mis): set<Info>
  {
    set g | g in tb && g.mis == Some(mis)
  }

  ghost function Untagged(tb: map<Info, Row>): set<Info>
  {
    set g | g in tb && !OnSheet(g) && !InProfit(g)
  }

  ghost function DoublyTagged(tb: map<Info, Row>): set<Info>
  {
    set g | g in tb && OnSheet(g) && InProfit(g)
  }

  ghost function TotalOf(tb: map<Info, Row>, gs: set<Info>): Cents
  {
    SumOver(gs, BalanceOf(tb))
  }

  /** Revenue is credit less debit, the two cost groups debit less credit. */
  ghost function NetProfit(tb: map<Info, Row>): Cents
  {
    -TotalOf(tb, OfMis(tb, Revenue)) - TotalOf(tb, OfMis(tb, CostOfGoods)) - TotalOf(tb, OfMis(tb, Opex))
  }

  datatype Sheet = Sheet(totalAssets: Cents, totalLiabilities: Cents, totalEquity: Cents, balanced: bool)

  /** Liabilities and equity read credit less debit; equity includes the current earnings. */
  ghost function BalanceSheet(tb: map<Info, Row>): Sheet
  {
    var assets := TotalOf(tb, OfKind(tb, Asset));
    var liabilities := -TotalOf(tb, OfKind(tb, Liability));
    var equity := -TotalOf(tb, OfKind(tb, Equity)) + NetProfit(tb);
    Sheet(assets, liabilities, equity, Abs(assets - (liabilities + equity)) < 1)
  }

  /** Debits less credits of the reported lines on the selected accounts. */
  function LinesBalance(setup: Setup, led: Ledger, company: Id, asOf: int, sel: Account -> bool): Cents
  {
    Sum(led.entries, SelectedEntry(setup, led.periods, company, asOf, sel, Debit))
    - Sum(led.entries, SelectedEntry(setup, led.periods, company, asOf, sel, Credit))
  }

  /** A group of trial balance lines that select is what the lines on its accounts come to. */
  lemma GroupIsLines(setup: Setup, led: Ledger, company: Id, asOf: int, gs: set<Info>, sel: Account -> bool)
    requires Consistent(led)
    requires var ks := ReportRows(setup, led, company, asOf);
      && (forall k :: k in ks && sel(setup.chart[k.account]) ==> InfoOf(setup)(k) in gs)
      && (forall k :: k in ks && InfoOf(setup)(k) in gs ==> sel(setup.chart[k.account]))
    requires gs <= TrialBalance(setup, led, company, asOf).Keys
    ensures TotalOf(TrialBalance(setup, led, company, asOf), gs) == LinesBalance(setup, led, company, asOf, sel)
  {
    var p := ChosenAccounts(setup, led.periods, company, asOf, sel);
    var ks, part := ReportRows(setup, led, company, asOf), RowsWhere(led.rows, p);
    var tb, info := TrialBalance(setup, led, company, asOf), InfoOf(setup);
    forall g | g in gs
      ensures BalanceOf(tb)(g) == GroupSum(part, NetAmount(led.rows), info)(g)
    {
      BalanceIsGroup(setup, led, company, asOf, g);
      assert Group(ks, info, g) == Group(part, info, g);
    }
    SumOverEqual(gs, BalanceOf(tb), GroupSum(part, NetAmount(led.rows), info));
    SumOverRegroup(part, NetAmount(led.rows), info, gs);
    SummaryNet(led.entries, led.rows, p);
    JournalNet(led.entries, p);
    SelectedTotal(setup, led, company, asOf, sel, Debit);
    SelectedTotal(setup, led, company, asOf, sel, Credit);
  }

  function OfType(kind: AccountType): Account -> bool
  {
    (a: Account) => a.kind == kind
  }

  function OfCategory(mis: Mis): Account -> bool
  {
    (a: Account) => a.mis == Some(mis)
  }

  lemma KindIsLines(setup: Setup, led: Ledger, company: Id, asOf: int, kind: AccountType)
    requires Consistent(led)
    ensures var tb := TrialBalance(setup, led, company, asOf);
      TotalOf(tb, OfKind(tb, kind)) == LinesBalance(setup, led, company, asOf, OfType(kind))
  {
    var tb := TrialBalance(setup, led, company, asOf);
    GroupIsLines(setup, led, company, asOf, OfKind(tb, kind), OfType(kind));
  }

  lemma MisIsLines(setup: Setup, led: Ledger, company: Id, asOf: int, mis: Mis)
    requires Consistent(led)
    ensures var tb := TrialBalance(setup, led, company, asOf);
      TotalOf(tb, OfMis(tb, mis)) == LinesBalance(setup, led, company, asOf, OfCategory(mis))
  {
    var tb := TrialBalance(setup, led, company, asOf);
    GroupIsLines(setup, led, company, asOf, OfMis(tb, mis), OfCategory(mis));
  }

  /** Each total of the balance sheet from the raw lines: assets are debits less credits on
      asset accounts, liabilities and equity credits less debits on theirs, and equity takes
      in revenue less cost of goods sold less operating expense. */
  lemma SheetIsLines(setup: Setup, led: Ledger, company: Id, asOf: int)
    requires Consistent(led)
    ensures var sheet := BalanceSheet(TrialBalance(setup, led, company, asOf));
      var revenue := -LinesBalance(setup, led, company, asOf, OfCategory(Revenue));
      var costs := LinesBalance(setup, led, company, asOf, OfCategory(CostOfGoods))
                   + LinesBalance(setup, led, company, asOf, OfCategory(Opex));
      && sheet.totalAssets == LinesBalance(setup, led, company, asOf, OfType(Asset))
      && sheet.totalLiabilities == -LinesBalance(setup, led, company, asOf, OfType(Liability))
      && sheet.totalEquity == -LinesBalance(setup, led, company, asOf, OfType(Equity)) + revenue - costs
      && (sheet.balanced <==> sheet.totalAssets == sheet.totalLiabilities + sheet.totalEquity)
  {
    KindIsLines(setup, led, company, asOf, Asset);
    KindIsLines(setup, led, company, asOf, Liability);
    KindIsLines(setup, led, company, asOf, Equity);
    MisIsLines(setup, led, company, asOf, Revenue);
    MisIsLines(setup, led, company, asOf, CostOfGoods);
    MisIsLines(setup, led, company, asOf, Opex);
  }

  lemma Split(tb: map<Info, Row>, a: set<Info>, b: set<Info>, both: set<Info>)
    requires a !! b && both == a + b
    ensures TotalOf(tb, both) == TotalOf(tb, a) + TotalOf(tb, b)
  {
    SumOverDisjoint(a, b, BalanceOf(tb));
  }

  /** Income and expense accounts that carry a P&L tag. */
  ghost function TaggedNominal(tb: map<Info, Row>): set<Info>
  {
    set g | g in tb && !OnSheet(g) && InProfit(g)
  }

  lemma SheetSide(tb: map<Info, Row>)
    ensures GrandTotal(tb) == TotalOf(tb, OfKind(tb, Asset)) + TotalOf(tb, OfKind(tb, Liability))
      + TotalOf(tb, OfKind(tb, Equity)) + TotalOf(tb, TaggedNominal(tb)) + TotalOf(tb, Untagged(tb))
  {
    var a, l, e := OfKind(tb, Asset), OfKind(tb, Liability), OfKind(tb, Equity);
    Split(tb, a, l, a + l);
    Split(tb, a + l, e, a + l + e);
    Split(tb, a + l + e, TaggedNominal(tb), a + l + e + TaggedNominal(tb));
    Split(tb, a + l + e + TaggedNominal(tb), Untagged(tb), tb.Keys);
  }

  lemma ProfitSide(tb: map<Info, Row>)
    ensures -NetProfit(tb) == TotalOf(tb, TaggedNominal(tb)) + TotalOf(tb, DoublyTagged(tb))
  {
    var r, c, o := OfMis(tb, Revenue), OfMis(tb, CostOfGoods), OfMis(tb, Opex);
    Split(tb, r, c, r + c);
    Split(tb, r + c, o, r + c + o);
    Split(tb, TaggedNominal(tb), DoublyTagged(tb), r + c + o);
  }

  /** For any chart of accounts: what is missing from the balance sheet equation is
      the trial balance total, less income and expense accounts without a P&L tag,
      plus balance-sheet accounts that carry one. */
  lemma SheetEquation(tb: map<Info, Row>)
    ensures var s := BalanceSheet(tb);
      s.totalAssets - (s.totalLiabilities + s.totalEquity)
        == GrandTotal(tb) - TotalOf(tb, Untagged(tb)) + TotalOf(tb, DoublyTagged(tb))
  {
    SheetSide(tb);
    ProfitSide(tb);
  }

  /** The `balanced` flag, exactly. */
  lemma BalancedIff(tb: map<Info, Row>)
    ensures BalanceSheet(tb).balanced
      <==> GrandTotal(tb) == TotalOf(tb, Untagged(tb)) - TotalOf(tb, DoublyTagged(tb))
  {
    SheetEquation(tb);
  }

  /** Every account either belongs on the sheet or carries a P&L tag, never both or neither. */
  predicate TagsAgree(chart: seq<Account>)
  {
    forall a :: 0 <= a < |chart| ==> (OnSheet(AccountInfo(chart[a])) <==> !InProfit(AccountInfo(chart[a])))
  }

  /** The chart table after any number of companies have been provisioned. */
  function ProvisionedChart(companies: seq<Id>): seq<Account>
  {
    if companies == [] then []
    else ProvisionedChart(companies[..|companies| - 1]) + StarterChart(companies[|companies| - 1])
  }

  lemma StarterTags(company: Id)
    ensures TagsAgree(StarterChart(company))
  {
  }

  /** Provisioning any number of companies leaves kinds and P&L tags in agreement. */
  lemma {:induction false} ProvisionedTagsAgree(companies: seq<Id>)
    ensures TagsAgree(ProvisionedChart(companies))
  {
    if companies != [] {
      var n := |companies| - 1;
      var before, last := ProvisionedChart(companies[..n]), StarterChart(companies[n]);
      ProvisionedTagsAgree(companies[..n]);
      StarterTags(companies[n]);
      forall a | 0 <= a < |before + last|
        ensures OnSheet(AccountInfo((before + last)[a])) <==> !InProfit(AccountInfo((before + last)[a]))
      {
        assert (before + last)[a] == if a < |before| then before[a] else last[a - |before|];
      }
    }
  }

  /** When kinds and tags agree, as on every provisioned chart, the sheet balances
      exactly when the trial balance sums to zero. */
  lemma BalancesIffZero(setup: Setup, led: Ledger, company: Id, asOf: int)
    requires TagsAgree(setup.chart)
    ensures var tb := TrialBalance(setup, led, company, asOf);
      BalanceSheet(tb).balanced <==> GrandTotal(tb) == 0
  {
    var tb := TrialBalance(setup, led, company, asOf);
    forall g | g in tb
      ensures OnSheet(g) <==> !InProfit(g)
    {
      var k :| k in ReportRows(setup, led, company, asOf) && InfoOf(setup)(k) == g;
    }
    assert Untagged(tb) == {} && DoublyTagged(tb) == {};
    BalancedIff(tb);
  }

  // -------------------------------------------- how far the total can be off

  /** Every line names an account of the chart. */
  predicate Charted(setup: Setup, e: Entry)
  {
    forall i :: 0 <= i < |e.lines| ==> e.lines[i].account < |setup.chart|
  }

  ghost predicate AllCharted(setup: Setup, entries: seq<Entry>)
  {
    forall j :: 0 <= j < |entries| ==> Charted(setup, entries[j])
  }

  lemma ReversalCharted(setup: Setup, led: Ledger, id: nat, date: int)
    requires AllCharted(setup, led.entries) && Reverse(led, id, date).Ok?
    ensures AllCharted(setup, Reverse(led, id, date).value.entries)
  {
    assert Charted(setup, led.entries[id]);
    assert Charted(setup, ReversalEntry(led, id, date).value);
  }

  lemma StepCharted(setup: Setup, led: Ledger, c: Command)
    requires AllCharted(setup, led.entries) && Step(setup, led, c).Ok?
    ensures AllCharted(setup, Step(setup, led, c).value.entries)
  {
    match c {
      case DoEvent(e) => assert Charted(setup, EventEntry(setup, led, e).value);
      case DoManual(m) => assert Charted(setup, DraftEntry(setup, led, m).value);
      case DoReverse(id, date) => ReversalCharted(setup, led, id, date);
      case DoSubmit(id) =>
      case DoApprove(id) =>
      case DoPost(id) =>
      case DoSetPeriod(p, s) =>
      case DoAddPeriods(ps) =>
    }
  }

  lemma {:induction false} RunCharted(setup: Setup, cs: seq<Command>)
    ensures AllCharted(setup, Run(setup, cs).entries)
  {
    if cs != [] {
      var led := Run(setup, cs[..|cs| - 1]);
      RunCharted(setup, cs[..|cs| - 1]);
      if Step(setup, led, cs[|cs| - 1]).Ok? {
        StepCharted(setup, led, cs[|cs| - 1]);
      }
    }
  }

  predicate Reported(periods: seq<Period>, e: Entry, company: Id, asOf: int)
  {
    Counted(e.status) && e.head.company == company && EndsBy(periods, e.head.period, asOf)
  }

  /** An entry is in a report with all of its lines or with none. */
  lemma ReportedNet(setup: Setup, periods: seq<Period>, e: Entry, company: Id, asOf: int)
    requires Charted(setup, e)
    ensures NetPart(Chosen(setup, periods, company, asOf))(e)
         == if Reported(periods, e, company, asOf) then Imbalance(e) else 0
  {
    var p := Chosen(setup, periods, company, asOf);
    forall i | 0 <= i < |e.lines|
      ensures p(KeyOf(e.head, e.lines[i])) == (e.head.company == company && EndsBy(periods, e.head.period, asOf))
      ensures On(Anything())(KeyOf(e.head, e.lines[i]))
    {
    }
    forall s: Side
      ensures LinesTotal(e, p, s) == if e.head.company == company && EndsBy(periods, e.head.period, asOf)
                                     then LinesTotal(e, On(Anything()), s) else 0
    {
      if e.head.company == company && EndsBy(periods, e.head.period, asOf) {
        SumEqual(e.lines, LinePart(e.head, p, s), LinePart(e.head, On(Anything()), s));
      } else {
        SumZero(e.lines, LinePart(e.head, p, s));
      }
    }
  }

  /** Counts the reported manual entries and reversals of manual entries. */
  function ManualCount(periods: seq<Period>, company: Id, asOf: int): Entry -> int
  {
    (e: Entry) => if Reported(periods, e, company, asOf) && e.origin == Manual then 1 else 0
  }

  /** With whole-cent inputs the trial balance is off by at most one cent for each
      manual entry or reversal of one that it includes; entries made by the
      starter rules, and their reversals, contribute nothing. */
  lemma GrandTotalBound(setup: Setup, cs: seq<Command>, company: Id, asOf: int)
    requires UsesStarterRules(setup, company) && forall i :: 0 <= i < |cs| ==> Sound(cs[i], company, true)
    ensures var led := Run(setup, cs);
      Abs(GrandTotal(TrialBalance(setup, led, company, asOf)))
        <= Sum(led.entries, ManualCount(led.periods, company, asOf))
  {
    var led := Run(setup, cs);
    RunConsistent(setup, cs);
    RunFair(setup, cs, company, true);
    RunCharted(setup, cs);
    GrandTotalIsRaw(setup, led, company, asOf);
    var p := Chosen(setup, led.periods, company, asOf);
    forall i | 0 <= i < |led.entries|
      ensures Abs(NetPart(p)(led.entries[i])) <= ManualCount(led.periods, company, asOf)(led.entries[i])
    {
      assert Charted(setup, led.entries[i]);
      ReportedNet(setup, led.periods, led.entries[i], company, asOf);
    }
    SumBound(led.entries, NetPart(p), ManualCount(led.periods, company, asOf));
  }

  /** With starter-rule postings and their reversals only, the company's balance sheet balances. */
  lemma DocumentsOnlyBalance(setup: Setup, cs: seq<Command>, company: Id, asOf: int)
    requires UsesStarterRules(setup, company) && TagsAgree(setup.chart)
    requires forall i :: 0 <= i < |cs| ==> Sound(cs[i], company, true)
    requires var led := Run(setup, cs);
      forall i :: 0 <= i < |led.entries| && Reported(led.periods, led.entries[i], company, asOf) ==>
        led.entries[i].origin.Document?
    ensures BalanceSheet(TrialBalance(setup, Run(setup, cs), company, asOf)).balanced
  {
    var led := Run(setup, cs);
    GrandTotalBound(setup, cs, company, asOf);
    SumZero(led.entries, ManualCount(led.periods, company, asOf));
    BalancesIffZero(setup, led, company, asOf);
  }

  // -------------------------------------------------------- closed periods

  predicate Shut(periods: seq<Period>, period: nat)
  {
    period < |periods| && periods[period].status != Open
  }

  lemma OffKey(e: Entry, k: Key, s: Side)
    requires e.head.period != k.period
    ensures LinesTotal(e, Only(k), s) == 0
  {
    forall i | 0 <= i < |e.lines|
      ensures LinePart(e.head, Only(k), s)(e.lines[i]) == 0
    {
      assert KeyOf(e.head, e.lines[i]) != k;
    }
    SumZero(e.lines, LinePart(e.head, Only(k), s));
  }

  /** No transaction changes a row of a period that is not open. */
  lemma ShutRowsFrozen(setup: Setup, led: Ledger, c: Command, k: Key, s: Side)
    requires Step(setup, led, c).Ok? && Shut(led.periods, k.period)
    ensures RowPart(Step(setup, led, c).value.rows, k, s) == RowPart(led.rows, k, s)
  {
    match c {
      case DoEvent(e) =>
        var entry := EventEntry(setup, led, e).value;
        CountInAdds(led.rows, entry, k, s);
        OffKey(entry, k, s);
      case DoPost(id) =>
        CountInAdds(led.rows, led.entries[id], k, s);
        OffKey(led.entries[id], k, s);
      case DoReverse(id, date) =>
        var entry := ReversalEntry(led, id, date).value;
        CountInAdds(led.rows, entry, k, s);
        OffKey(entry, k, s);
      case DoManual(m) =>
      case DoSubmit(id) =>
      case DoApprove(id) =>
      case DoSetPeriod(p, st) =>
      case DoAddPeriods(ps) =>
    }
  }

  /** Every period of the company that ends by the date is closed or locked. */
  predicate AllShut(periods: seq<Period>, company: Id, asOf: int)
  {
    forall i :: 0 <= i < |periods| && periods[i].company == company && periods[i].last <= asOf ==>
      periods[i].status != Open
  }

  ghost function Figure(setup: Setup, led: Ledger, company: Id, asOf: int, g: Info, s: Side): Cents
  {
    Cell(TrialBalance(setup, led, company, asOf), g, s)
  }

  lemma Unreported(setup: Setup, periods: seq<Period>, e: Entry, company: Id, asOf: int, g: Info, s: Side)
    requires !(e.head.company == company && EndsBy(periods, e.head.period, asOf))
    ensures LinesTotal(e, ChosenInfo(setup, periods, company, asOf, g), s) == 0
  {
    var p := ChosenInfo(setup, periods, company, asOf, g);
    forall i | 0 <= i < |e.lines|
      ensures !p(KeyOf(e.head, e.lines[i]))
    {
      assert !Chosen(setup, periods, company, asOf)(KeyOf(e.head, e.lines[i]));
    }
    SumZero(e.lines, LinePart(e.head, p, s));
  }

  /** Changing the status of periods, or adding new ones, moves no existing figure. */
  lemma NewPeriodsNoMatter(setup: Setup, led: Ledger, now: seq<Period>, company: Id, asOf: int, g: Info, s: Side)
    requires Ordered(led) && |led.periods| <= |now|
    requires forall i :: 0 <= i < |led.periods| ==> now[i].last == led.periods[i].last
    ensures JournalTotal(led.entries, ChosenInfo(setup, now, company, asOf, g), s)
         == JournalTotal(led.entries, ChosenInfo(setup, led.periods, company, asOf, g), s)
  {
    var p, q := ChosenInfo(setup, led.periods, company, asOf, g), ChosenInfo(setup, now, company, asOf, g);
    forall j | 0 <= j < |led.entries|
      ensures EntryPart(p, s)(led.entries[j]) == EntryPart(q, s)(led.entries[j])
    {
      var e := led.entries[j];
      assert Placed(led, e);
      forall i | 0 <= i < |e.lines|
        ensures p(KeyOf(e.head, e.lines[i])) == q(KeyOf(e.head, e.lines[i]))
      {
        var k := KeyOf(e.head, e.lines[i]);
        assert Chosen(setup, led.periods, company, asOf)(k) == Chosen(setup, now, company, asOf)(k);
      }
      SumEqual(e.lines, LinePart(e.head, p, s), LinePart(e.head, q, s));
    }
    SumEqual(led.entries, EntryPart(p, s), EntryPart(q, s));
  }

  /** An entry that does not count yet, or counts in an open period, is in no report of shut periods. */
  lemma AppendKeepsRaw(setup: Setup, led: Ledger, e: Entry, company: Id, asOf: int, g: Info, s: Side)
    requires Placed(led, e) && AllShut(led.periods, company, asOf)
    requires Counted(e.status) ==> led.periods[e.head.period].status == Open
    ensures var p := ChosenInfo(setup, led.periods, company, asOf, g);
      JournalTotal(led.entries + [e], p, s) == JournalTotal(led.entries, p, s)
  {
    SumAppend(led.entries, e, EntryPart(ChosenInfo(setup, led.periods, company, asOf, g), s));
    if Counted(e.status) {
      Unreported(setup, led.periods, e, company, asOf, g, s);
    }
  }

  lemma PostKeepsRaw(setup: Setup, led: Ledger, id: nat, company: Id, asOf: int, g: Info, s: Side)
    requires Ordered(led) && PostManual(led, id).Ok? && AllShut(led.periods, company, asOf)
    ensures var p := ChosenInfo(setup, led.periods, company, asOf, g);
      JournalTotal(SetStatus(led, id, Posted).entries, p, s) == JournalTotal(led.entries, p, s)
  {
    assert Placed(led, led.entries[id]);
    Unreported(setup, led.periods, led.entries[id], company, asOf, g, s);
    StatusTotal(led.entries, id, Posted, ChosenInfo(setup, led.periods, company, asOf, g), s);
  }

  lemma ReversalKeepsRaw(setup: Setup, led: Ledger, id: nat, date: int, company: Id, asOf: int, g: Info, s: Side)
    requires Ordered(led) && Reverse(led, id, date).Ok? && AllShut(led.periods, company, asOf)
    ensures var p := ChosenInfo(setup, led.periods, company, asOf, g);
      JournalTotal(Reverse(led, id, date).value.entries, p, s) == JournalTotal(led.entries, p, s)
  {
    var r := ReversalEntry(led, id, date).value;
    AppendKeepsRaw(setup, led, r, company, asOf, g, s);
    StatusTotal(led.entries + [r], id, Reversed, ChosenInfo(setup, led.periods, company, asOf, g), s);
  }

  /** Events, drafts, workflow steps, postings and reversals. */
  lemma EntryStepKeepsRaw(setup: Setup, led: Ledger, c: Command, company: Id, asOf: int, g: Info, s: Side)
    requires Ordered(led) && Step(setup, led, c).Ok? && AllShut(led.periods, company, asOf)
    requires !c.DoSetPeriod? && !c.DoAddPeriods?
    ensures var p := ChosenInfo(setup, led.periods, company, asOf, g);
      JournalTotal(Step(setup, led, c).value.entries, p, s) == JournalTotal(led.entries, p, s)
  {
    var p := ChosenInfo(setup, led.periods, company, asOf, g);
    match c {
      case DoEvent(e) => AppendKeepsRaw(setup, led, EventEntry(setup, led, e).value, company, asOf, g, s);
      case DoManual(m) => AppendKeepsRaw(setup, led, DraftEntry(setup, led, m).value, company, asOf, g, s);
      case DoPost(id) => PostKeepsRaw(setup, led, id, company, asOf, g, s);
      case DoReverse(id, date) => ReversalKeepsRaw(setup, led, id, date, company, asOf, g, s);
      case DoSubmit(id) => StatusTotal(led.entries, id, Submitted, p, s);
      case DoApprove(id) => StatusTotal(led.entries, id, Approved, p, s);
      case _ =>
    }
  }

  lemma StepKeepsRaw(setup: Setup, led: Ledger, c: Command, company: Id, asOf: int, g: Info, s: Side)
    requires Ordered(led) && Step(setup, led, c).Ok? && AllShut(led.periods, company, asOf)
    ensures var now := Step(setup, led, c).value;
      JournalTotal(now.entries, ChosenInfo(setup, now.periods, company, asOf, g), s)
        == JournalTotal(led.entries, ChosenInfo(setup, led.periods, company, asOf, g), s)
  {
    if c.DoSetPeriod? || c.DoAddPeriods? {
      NewPeriodsNoMatter(setup, led, Step(setup, led, c).value.periods, company, asOf, g, s);
    } else {
      EntryStepKeepsRaw(setup, led, c, company, asOf, g, s);
    }
  }

  lemma StepKeepsFigure(setup: Setup, led: Ledger, c: Command, company: Id, asOf: int, g: Info, s: Side)
    requires Consistent(led) && Step(setup, led, c).Ok? && AllShut(led.periods, company, asOf)
    ensures Figure(setup, Step(setup, led, c).value, company, asOf, g, s) == Figure(setup, led, company, asOf, g, s)
  {
    StepConsistent(setup, led, c);
    StepKeepsRaw(setup, led, c, company, asOf, g, s);
    TrialBalanceIsRaw(setup, led, company, asOf, g, s);
    TrialBalanceIsRaw(setup, Step(setup, led, c).value, company, asOf, g, s);
  }

  /** While every period that ends by a date stays closed or locked, no figure of
      the trial balance as of that date ever changes. */
  lemma {:induction false} ClosedTrialBalanceFixed(setup: Setup, start: Ledger, cs: seq<Command>,
                                                   company: Id, asOf: int, g: Info, s: Side)
    requires Consistent(start)
    requires forall n :: 0 <= n <= |cs| ==> AllShut(RunFrom(setup, start, cs[..n]).periods, company, asOf)
    ensures Figure(setup, RunFrom(setup, start, cs), company, asOf, g, s) == Figure(setup, start, company, asOf, g, s)
  {
    if cs != [] {
      var before := cs[..|cs| - 1];
      assert forall n :: 0 <= n <= |before| ==> before[..n] == cs[..n];
      ClosedTrialBalanceFixed(setup, start, before, company, asOf, g, s);
      RunFromConsistent(setup, start, before);
      var led := RunFrom(setup, start, before);
      assert AllShut(RunFrom(setup, start, cs[..|cs| - 1]).periods, company, asOf);
      if Step(setup, led, cs[|cs| - 1]).Ok? {
        StepKeepsFigure(setup, led, cs[|cs| - 1], company, asOf, g, s);
      }
    }
  }
}
