/** The chart of accounts and posting rules every new company is given. */
module Starter {
  import opened Base
  import opened Journal

  function StarterChart(company: Id): seq<Account>
  {
    [ Account(company, "1100", "Accounts Receivable", Asset, Some(AR), Some(OtherMis("AR")), true),
      Account(company, "1200", "Inventory", Asset, Some(Inventory), Some(OtherMis("INVENTORY")), true),
      Account(company, "1300", "Input Tax Receivable", Asset, Some(TaxInput), None, true),
      Account(company, "1500", "Accumulated Depreciation", Asset, None, Some(OtherMis("ASSET")), true),
      Account(company, "1900", "Bank \U{2014} Default", Asset, Some(Bank), Some(OtherMis("CASH")), true),
      Account(company, "2100", "Accounts Payable", Liability, Some(AP), Some(OtherMis("AP")), true),
      Account(company, "2200", "Output Tax Payable", Liability, Some(TaxOutput), None, true),
      Account(company, "2300", "Salary Payable", Liability, Some(SalaryPayable), None, true),
      Account(company, "2400", "Statutory Payable", Liability, Some(StatutoryPayable), None, true),
      Account(company, "3000", "Owner's Equity / Retained Earnings", Equity, None, Some(OtherMis("EQUITY")), true),
      Account(company, "4000", "Sales Revenue", Income, Some(SalesRevenue), Some(Revenue), true),
      Account(company, "5000", "Cost of Goods Sold", Expense, Some(Cogs), Some(CostOfGoods), true),
      Account(company, "5100", "General Purchases / Expense", Expense, Some(PurchaseExpense), Some(Opex), true),
      Account(company, "6000", "Salary Expense", Expense, Some(SalaryExpense), Some(Opex), true),
      Account(company, "6100", "Depreciation Expense", Expense, None, Some(Opex), true) ]
  }

  function StarterLines(kind: EventType): seq<RuleLine>
  {
    match kind
    case SalesInvoicePosted =>
      [ RuleLine(1, Debit, ByControl(AR), Total),
        RuleLine(2, Credit, ByControl(SalesRevenue), Subtotal),
        RuleLine(3, Credit, ByControl(TaxOutput), TaxAmount) ]
    case PurchaseInvoicePosted =>
      [ RuleLine(1, Debit, ByControl(PurchaseExpense), Subtotal),
        RuleLine(2, Debit, ByControl(TaxInput), TaxAmount),
        RuleLine(3, Credit, ByControl(AP), Total) ]
    case CustomerReceiptPosted =>
      [ RuleLine(1, Debit, ByOverride(BankAccount), Amount),
        RuleLine(2, Credit, ByControl(AR), Amount) ]
    case SupplierPaymentPosted =>
      [ RuleLine(1, Debit, ByControl(AP), Amount),
        RuleLine(2, Credit, ByOverride(BankAccount), Amount) ]
    case CreditNotePosted =>
      [ RuleLine(1, Debit, ByControl(SalesRevenue), Amount),
        RuleLine(2, Credit, ByControl(AR), Amount) ]
    case DebitNotePosted =>
      [ RuleLine(1, Debit, ByControl(AP), Amount),
        RuleLine(2, Credit, ByControl(PurchaseExpense), Amount) ]
    case DeliveryPosted =>
      [ RuleLine(1, Debit, ByControl(Cogs), Cost),
        RuleLine(2, Credit, ByControl(Inventory), Cost) ]
    case PayrollRunPosted =>
      [ RuleLine(1, Debit, ByControl(SalaryExpense), TotalGross),
        RuleLine(2, Credit, ByControl(SalaryPayable), TotalNet),
        RuleLine(3, Credit, ByControl(StatutoryPayable), TotalDeductions) ]
    case AssetDepreciationPosted =>
      [ RuleLine(1, Debit, ByOverride(DepreciationExpense), Amount),
        RuleLine(2, Credit, ByOverride(AccumulatedDepreciation), Amount) ]
    case InventoryAdjustmentPosted =>
      [ RuleLine(1, Debit, ByControl(Inventory), IncreaseAmount),
        RuleLine(2, Credit, ByControl(Cogs), IncreaseAmount),
        RuleLine(3, Debit, ByControl(Cogs), DecreaseAmount),
        RuleLine(4, Credit, ByControl(Inventory), DecreaseAmount) ]
  }

  /** The company posts by the starter rules; nothing edits them after provisioning. */
  predicate UsesStarterRules(setup: Setup, company: Id)
  {
    forall kind: EventType :: (company, kind) in setup.rules ==>
      setup.rules[(company, kind)] == Rule(true, StarterLines(kind))
  }

  /** The event types in the order of the rule table. */
  const STARTER_KINDS := [ SalesInvoicePosted, PurchaseInvoicePosted, CustomerReceiptPosted, SupplierPaymentPosted,
                          CreditNotePosted, DebitNotePosted, DeliveryPosted, PayrollRunPosted,
                          AssetDepreciationPosted, InventoryAdjustmentPosted ]

  lemma EveryKindListed(kind: EventType)
    ensures kind in STARTER_KINDS
  {
    match kind {
      case SalesInvoicePosted => assert STARTER_KINDS[0] == kind;
      case PurchaseInvoicePosted => assert STARTER_KINDS[1] == kind;
      case CustomerReceiptPosted => assert STARTER_KINDS[2] == kind;
      case SupplierPaymentPosted => assert STARTER_KINDS[3] == kind;
      case CreditNotePosted => assert STARTER_KINDS[4] == kind;
      case DebitNotePosted => assert STARTER_KINDS[5] == kind;
      case DeliveryPosted => assert STARTER_KINDS[6] == kind;
      case PayrollRunPosted => assert STARTER_KINDS[7] == kind;
      case AssetDepreciationPosted => assert STARTER_KINDS[8] == kind;
      case InventoryAdjustmentPosted => assert STARTER_KINDS[9] == kind;
    }
  }

  /** The type of the account that carries a control tag. */
  function KindFor(control: Control): AccountType
  {
    match control
    case AR => Asset
    case Bank => Asset
    case Inventory => Asset
    case TaxInput => Asset
    case AP => Liability
    case TaxOutput => Liability
    case SalaryPayable => Liability
    case StatutoryPayable => Liability
    case SalesRevenue => Income
    case _ => Expense
  }

  /** The account's profit-and-loss category, for income and expense accounts. */
  predicate CategoryFits(a: Account)
  {
    match a.kind
    case Income => a.mis == Some(Revenue)
    case Expense => a.mis == Some(if a.control == Some(Cogs) then CostOfGoods else Opex)
    case _ => a.mis != Some(Revenue) && a.mis != Some(CostOfGoods) && a.mis != Some(Opex)
  }

  /** The starter accounts are the company's and active, each tag is on an account of its
      type, and every account has the category of its type. */
  lemma StarterAccountIs(company: Id, i: nat)
    requires i < |StarterChart(company)|
    ensures var a := StarterChart(company)[i];
      && a.company == company && a.active && CategoryFits(a)
      && (a.control.Some? ==> a.kind == KindFor(a.control.value))
  {
  }

  /** provision(): a new company gets the starter accounts and one active starter rule
      for every event type, and no other company's rule changes. */
  method Provision(setup: Setup, company: Id) returns (r: Setup)
    ensures r.chart == setup.chart + StarterChart(company)
    ensures forall kind: EventType ::
      (company, kind) in r.rules && r.rules[(company, kind)] == Rule(true, StarterLines(kind))
    ensures forall key: (Id, EventType) :: key.0 != company ==>
      (key in r.rules <==> key in setup.rules) && (key in r.rules ==> r.rules[key] == setup.rules[key])
  {
    r := setup;
    var accounts := StarterChart(company);
    var i := 0;
    while i < |accounts|
      invariant i <= |accounts| && r == setup.(chart := setup.chart + accounts[..i])
    {
      assert accounts[..i + 1] == accounts[..i] + [accounts[i]];
      r := r.(chart := r.chart + [accounts[i]]);
      i := i + 1;
    }
    assert accounts[..i] == accounts;
    i := 0;
    while i < |STARTER_KINDS|
      invariant i <= |STARTER_KINDS| && r.chart == setup.chart + accounts
      invariant forall j :: 0 <= j < i ==>
        var key := (company, STARTER_KINDS[j]);
          key in r.rules && r.rules[key] == Rule(true, StarterLines(STARTER_KINDS[j]))
      invariant forall key: (Id, EventType) :: key.0 != company ==>
        (key in r.rules <==> key in setup.rules) && (key in r.rules ==> r.rules[key] == setup.rules[key])
    {
      r := r.(rules := r.rules[(company, STARTER_KINDS[i]) := Rule(true, StarterLines(STARTER_KINDS[i]))]);
      i := i + 1;
    }
    forall kind: EventType
      ensures (company, kind) in r.rules && r.rules[(company, kind)] == Rule(true, StarterLines(kind))
    {
      EveryKindListed(kind);
    }
  }

  /** On the starter accounts every control tag a starter rule names finds an account. */
  lemma StarterRulesResolve(chart: seq<Account>, company: Id, kind: EventType, i: nat)
    requires i < |StarterLines(kind)| && StarterLines(kind)[i].resolver.ByControl?
    ensures FindControl(chart + StarterChart(company), company, StarterLines(kind)[i].resolver.control).Some?
  {
    var control := StarterLines(kind)[i].resolver.control;
    var accounts := StarterChart(company);
    var k := match control {
      case AR => 0 case Inventory => 1 case TaxInput => 2 case AP => 5 case TaxOutput => 6
      case SalaryPayable => 7 case StatutoryPayable => 8 case SalesRevenue => 10 case Cogs => 11
      case PurchaseExpense => 12 case _ => 13
    };
    assert Tagged(accounts[k], company, control);
    assert (chart + accounts)[|chart| + k] == accounts[k];
  }
}

/** What a posting rule makes of an event's amounts, account by account, and
    why entries made by the starter rules balance to the cent. */
module Posting {
  import opened Base
  import opened Sums
  import opened Money
  import opened Journal
  import opened Starter

  /** Selects the rows of some accounts. */
  function On(q: nat -> bool): Key -> bool
  {
    (k: Key) => q(k.account)
  }

  function Anything(): nat -> bool
  {
    (a: nat) => true
  }

  /** Debits less credits over a whole entry. */
  function Imbalance(e: Entry): Cents
  {
    Net(e, On(Anything()))
  }

  /** What a rule line adds to the accounts in q: its stored amount, signed by its side. */
  function Signed(setup: Setup, e: Event, q: nat -> bool): RuleLine -> int
  {
    (l: RuleLine) =>
      var account := Resolve(setup, e.company, l.resolver, e.overrides);
      if account.Err? || !q(account.value) then 0
      else if l.side == Debit then ToColumn(AmountOf(e, l.source)) else -ToColumn(AmountOf(e, l.source))
  }

  function NetOf(h: Head, lines: seq<Line>, p: Key -> bool): Cents
  {
    Sum(lines, LinePart(h, p, Debit)) - Sum(lines, LinePart(h, p, Credit))
  }

  lemma ZeroColumn()
    ensures ToColumn(0.0) == 0
  {
    ToColumnWhole(0);
  }

  lemma NetOfAppend(h: Head, lines: seq<Line>, l: Line, q: nat -> bool)
    ensures NetOf(h, lines + [l], On(q)) == NetOf(h, lines, On(q)) + if q(l.account) then l.debit - l.credit else 0
  {
    SumAppend(lines, l, LinePart(h, On(q), Debit));
    SumAppend(lines, l, LinePart(h, On(q), Credit));
    assert On(q)(KeyOf(h, l)) == q(l.account);
  }

  /** The net effect of a rule on any set of accounts, line by line. Skipping the
      lines with a zero amount makes no difference. */
  lemma {:induction false} RuleNet(setup: Setup, e: Event, lines: seq<RuleLine>, h: Head, q: nat -> bool)
    requires BuildLines(setup, e, lines).Ok?
    ensures NetOf(h, StoreLines(BuildLines(setup, e, lines).value), On(q)) == Sum(lines, Signed(setup, e, q))
  {
    if lines != [] {
      var n := |lines| - 1;
      RuleNet(setup, e, lines[..n], h, q);
      ZeroColumn();
      var done := BuildLines(setup, e, lines[..n]).value;
      var amount := AmountOf(e, lines[n].source);
      if amount != 0.0 {
        var account := Resolve(setup, e.company, lines[n].resolver, e.overrides).value;
        var last := RawLine(lines[n].lineNo, account, if lines[n].side == Debit then amount else 0.0,
                            if lines[n].side == Credit then amount else 0.0, e.dims);
        assert BuildLines(setup, e, lines).value == done + [last];
        assert (done + [last])[..|done|] == done;
        NetOfAppend(h, StoreLines(done), Store(last), q);
      }
    }
  }

  lemma EventNet(setup: Setup, led: Ledger, e: Event, q: nat -> bool)
    requires UsesStarterRules(setup, e.company) && EventEntry(setup, led, e).Ok?
    ensures Net(EventEntry(setup, led, e).value, On(q)) == Sum(StarterLines(e.kind), Signed(setup, e, q))
  {
    RuleNet(setup, e, StarterLines(e.kind), EventEntry(setup, led, e).value.head, q);
  }

  function Stored(e: Event, source: AmountKey): Cents
  {
    ToColumn(AmountOf(e, source))
  }

  function SignedAmount(e: Event): RuleLine -> int
  {
    (l: RuleLine) => if l.side == Debit then Stored(e, l.source) else -Stored(e, l.source)
  }

  predicate Resolved(setup: Setup, e: Event, l: RuleLine)
  {
    AmountOf(e, l.source) == 0.0 || Resolve(setup, e.company, l.resolver, e.overrides).Ok?
  }

  /** A rule builds its lines exactly when every account it needs resolves. */
  lemma {:induction false} BuildsIff(setup: Setup, e: Event, lines: seq<RuleLine>)
    ensures BuildLines(setup, e, lines).Ok? <==> forall i :: 0 <= i < |lines| ==> Resolved(setup, e, lines[i])
  {
    if lines != [] {
      BuildsIff(setup, e, lines[..|lines| - 1]);
      assert lines == lines[..|lines| - 1] + [lines[|lines| - 1]];
    }
  }

  /** Debits less credits of a rule before anything is rounded. */
  function RawNet(e: Event, lines: seq<RuleLine>): real
  {
    if lines == [] then 0.0
    else
      var l := lines[|lines| - 1];
      RawNet(e, lines[..|lines| - 1]) + if l.side == Debit then AmountOf(e, l.source) else -AmountOf(e, l.source)
  }

  function RawPart(e: Event, l: RuleLine): real
  {
    if l.side == Debit then AmountOf(e, l.source) else -AmountOf(e, l.source)
  }

  lemma RawTwo(e: Event, a: RuleLine, b: RuleLine)
    ensures RawNet(e, [a, b]) == RawPart(e, a) + RawPart(e, b)
  {
    assert [a, b][..1] == [a] && [a][..0] == [];
    assert RawNet(e, [a]) == RawNet(e, []) + RawPart(e, a);
  }

  lemma RawThree(e: Event, a: RuleLine, b: RuleLine, c: RuleLine)
    ensures RawNet(e, [a, b, c]) == RawPart(e, a) + RawPart(e, b) + RawPart(e, c)
  {
    assert [a, b, c][..2] == [a, b];
    RawTwo(e, a, b);
  }

  lemma {:induction false} BuiltRawNet(setup: Setup, e: Event, lines: seq<RuleLine>)
    requires BuildLines(setup, e, lines).Ok?
    ensures var raw := BuildLines(setup, e, lines).value;
      RawTotal(raw, Debit) - RawTotal(raw, Credit) == RawNet(e, lines)
  {
    if lines != [] {
      BuiltRawNet(setup, e, lines[..|lines| - 1]);
    }
  }

  /** Exactly when the engine accepts an event: rule, open period, accounts, balance. */
  lemma EventPostsIff(setup: Setup, led: Ledger, e: Event)
    requires UsesStarterRules(setup, e.company)
    ensures EventEntry(setup, led, e).Ok? <==>
      && (e.company, e.kind) in setup.rules
      && OpenOn(led.periods, e.company, e.date)
      && (forall i :: 0 <= i < |StarterLines(e.kind)| ==> Resolved(setup, e, StarterLines(e.kind)[i]))
      && AbsReal(RawNet(e, StarterLines(e.kind))) <= 1.0
  {
    BuildsIff(setup, e, StarterLines(e.kind));
    if BuildLines(setup, e, StarterLines(e.kind)).Ok? {
      BuiltRawNet(setup, e, StarterLines(e.kind));
    }
  }

  /** Which account a resolver stands for: an active account of the company with the tag,
      if there is one; the account the event names, if it is the company's; else none. */
  lemma ResolvesIff(setup: Setup, company: Id, resolver: Resolver, overrides: map<OverrideKey, nat>)
    ensures var r := Resolve(setup, company, resolver, overrides);
      match resolver
      case ByControl(c) =>
        && (r.Ok? <==> exists a :: 0 <= a < |setup.chart| && setup.chart[a].company == company
                                   && setup.chart[a].control == Some(c) && setup.chart[a].active)
        && (r.Ok? ==> setup.chart[r.value].control == Some(c) && setup.chart[r.value].active)
      case ByOverride(key) =>
        && (r.Ok? <==> key in overrides && overrides[key] < |setup.chart|
                       && setup.chart[overrides[key]].company == company)
        && (r.Ok? ==> r.value == overrides[key])
      case Malformed => r.Err?
  {
  }

  /** How many rule lines have an amount. */
  function Kept(e: Event, lines: seq<RuleLine>): nat
  {
    if lines == [] then 0
    else Kept(e, lines[..|lines| - 1]) + if AmountOf(e, lines[|lines| - 1].source) != 0.0 then 1 else 0
  }

  /** The stored line of a rule line: its number, its account, its amount on its side, and
      the event's dimensions. */
  predicate Writes(setup: Setup, e: Event, rule: RuleLine, l: Line)
  {
    && rule.source in e.amounts && l.lineNo == rule.lineNo && l.dims == e.dims
    && Resolve(setup, e.company, rule.resolver, e.overrides) == Ok(l.account)
    && l.debit == (if rule.side == Debit then ToColumn(e.amounts[rule.source]) else 0)
    && l.credit == if rule.side == Credit then ToColumn(e.amounts[rule.source]) else 0
  }

  /** One more rule line adds its line, or nothing when it has no amount. */
  lemma BuiltNext(setup: Setup, e: Event, lines: seq<RuleLine>)
    requires lines != [] && BuildLines(setup, e, lines).Ok?
    ensures var (n, rule) := (|lines| - 1, lines[|lines| - 1]);
      && BuildLines(setup, e, lines[..n]).Ok?
      && var before, now := BuildLines(setup, e, lines[..n]).value, BuildLines(setup, e, lines).value;
        if AmountOf(e, rule.source) == 0.0 then now == before
        else |now| == |before| + 1 && now[..|before|] == before && Writes(setup, e, rule, Store(now[|before|]))
  {
    ZeroColumn();
  }

  lemma {:induction false} BuiltCount(setup: Setup, e: Event, lines: seq<RuleLine>)
    requires BuildLines(setup, e, lines).Ok?
    ensures |BuildLines(setup, e, lines).value| == Kept(e, lines)
  {
    if lines != [] {
      BuiltNext(setup, e, lines);
      BuiltCount(setup, e, lines[..|lines| - 1]);
    }
  }

  lemma {:induction false} BuiltLine(setup: Setup, e: Event, lines: seq<RuleLine>, i: nat)
    requires BuildLines(setup, e, lines).Ok? && i < |lines| && AmountOf(e, lines[i].source) != 0.0
    ensures var raw := BuildLines(setup, e, lines).value;
      Kept(e, lines[..i]) < |raw| && Writes(setup, e, lines[i], Store(raw[Kept(e, lines[..i])]))
  {
    var n := |lines| - 1;
    BuiltNext(setup, e, lines);
    var before := BuildLines(setup, e, lines[..n]).value;
    if i < n {
      assert lines[..n][..i] == lines[..i];
      BuiltLine(setup, e, lines[..n], i);
      assert BuildLines(setup, e, lines).value[..|before|] == before;
    } else {
      BuiltCount(setup, e, lines[..n]);
    }
  }

  /** An accepted event becomes one posted entry on its date, in an open period that covers
      that date, with one line for each rule line with an amount, in rule order. */
  lemma EventEntryIs(setup: Setup, led: Ledger, e: Event)
    requires EventEntry(setup, led, e).Ok?
    ensures (e.company, e.kind) in setup.rules
    ensures var (lines, entry) := (setup.rules[(e.company, e.kind)].lines, EventEntry(setup, led, e).value);
      && entry.date == e.date && entry.status == Posted && entry.reversalOf == None
      && entry.origin == Document(e.kind, e.doc)
      && entry.head.company == e.company && entry.head.branch == e.branch
      && entry.head.period < |led.periods| && led.periods[entry.head.period].status == Open
      && led.periods[entry.head.period].company == e.company
      && led.periods[entry.head.period].first <= e.date <= led.periods[entry.head.period].last
      && |entry.lines| == Kept(e, lines)
      && forall i :: 0 <= i < |lines| && AmountOf(e, lines[i].source) != 0.0 ==>
           Kept(e, lines[..i]) < |entry.lines| && Writes(setup, e, lines[i], entry.lines[Kept(e, lines[..i])])
    ensures var entry := EventEntry(setup, led, e).value;
      forall k :: 0 <= k < |entry.lines| ==> entry.lines[k].dims == e.dims
  {
    var lines := setup.rules[(e.company, e.kind)].lines;
    BuiltCount(setup, e, lines);
    forall i | 0 <= i < |lines| && AmountOf(e, lines[i].source) != 0.0
      ensures var stored := StoreLines(BuildLines(setup, e, lines).value);
        Kept(e, lines[..i]) < |stored| && Writes(setup, e, lines[i], stored[Kept(e, lines[..i])])
    {
      BuiltLine(setup, e, lines, i);
    }
  }

  // ------------------------------------------------------- control accounts

  /** The company's accounts that carry a control tag, active or not. */
  function TaggedWith(setup: Setup, company: Id, control: Control): nat -> bool
  {
    (a: nat) => a < |setup.chart| && setup.chart[a].company == company && setup.chart[a].control == Some(control)
  }

  function ControlAmount(e: Event, control: Control): RuleLine -> int
  {
    (l: RuleLine) => if l.resolver == ByControl(control) then SignedAmount(e)(l) else 0
  }

  function ControlPart(e: Event, l: RuleLine, control: Control): Cents
  {
    if l.resolver != ByControl(control) then 0
    else if l.side == Debit then Stored(e, l.source)
    else -Stored(e, l.source)
  }

  lemma ControlAmountOf(e: Event, l: RuleLine, control: Control)
    ensures ControlAmount(e, control)(l) == ControlPart(e, l, control)
  {
    assert SignedAmount(e)(l) == if l.side == Debit then Stored(e, l.source) else -Stored(e, l.source);
  }

  /** The accounts an event names itself do not carry the tag. */
  predicate OverridesOff(setup: Setup, e: Event, control: Control)
  {
    forall key :: key in e.overrides ==> !TaggedWith(setup, e.company, control)(e.overrides[key])
  }

  lemma SignedIsControl(setup: Setup, e: Event, l: RuleLine, control: Control)
    requires OverridesOff(setup, e, control)
    requires Resolved(setup, e, l)
    ensures Signed(setup, e, TaggedWith(setup, e.company, control))(l) == ControlAmount(e, control)(l)
  {
    ZeroColumn();
    var r := Resolve(setup, e.company, l.resolver, e.overrides);
    assert SignedAmount(e)(l) == if l.side == Debit then Stored(e, l.source) else -Stored(e, l.source);
    match l.resolver {
      case ByControl(c) =>
        if r.Ok? {
          assert Tagged(setup.chart[r.value], e.company, c);
          assert TaggedWith(setup, e.company, control)(r.value) == (c == control);
        } else {
          assert Stored(e, l.source) == 0;
        }
      case ByOverride(key) =>
      case Malformed =>
    }
  }

  /** An event moves the accounts with a control tag by exactly its rule lines with that tag. */
  lemma EventControlNet(setup: Setup, led: Ledger, e: Event, control: Control)
    requires UsesStarterRules(setup, e.company) && EventEntry(setup, led, e).Ok? && OverridesOff(setup, e, control)
    ensures Net(EventEntry(setup, led, e).value, On(TaggedWith(setup, e.company, control)))
         == Sum(StarterLines(e.kind), ControlAmount(e, control))
  {
    var q := TaggedWith(setup, e.company, control);
    EventNet(setup, led, e, q);
    BuildsIff(setup, e, StarterLines(e.kind));
    forall i | 0 <= i < |StarterLines(e.kind)|
      ensures Signed(setup, e, q)(StarterLines(e.kind)[i]) == ControlAmount(e, control)(StarterLines(e.kind)[i])
    {
      SignedIsControl(setup, e, StarterLines(e.kind)[i], control);
    }
    SumEqual(StarterLines(e.kind), Signed(setup, e, q), ControlAmount(e, control));
  }

  /** A rule line that cannot touch the accounts of a control tag. */
  predicate LineOff(setup: Setup, company: Id, e: Event, l: RuleLine, control: Control)
  {
    match l.resolver
    case ByControl(c) => c != control
    case ByOverride(key) => key in e.overrides ==> !TaggedWith(setup, company, control)(e.overrides[key])
    case Malformed => true
  }

  /** For the company's own events; another company's cannot reach its accounts. */
  predicate EventOff(setup: Setup, company: Id, e: Event, control: Control)
  {
    e.company == company ==> forall i :: 0 <= i < |StarterLines(e.kind)| ==>
      LineOff(setup, company, e, StarterLines(e.kind)[i], control)
  }

  lemma SignedOff(setup: Setup, company: Id, e: Event, l: RuleLine, control: Control)
    requires e.company == company ==> LineOff(setup, company, e, l, control)
    ensures Signed(setup, e, TaggedWith(setup, company, control))(l) == 0
  {
    var r := Resolve(setup, e.company, l.resolver, e.overrides);
    if r.Ok? && e.company == company {
      match l.resolver {
        case ByControl(c) => assert Tagged(setup.chart[r.value], e.company, c);
        case ByOverride(key) =>
        case Malformed =>
      }
      assert !TaggedWith(setup, company, control)(r.value);
    }
  }

  /** An event whose rule does not name a control tag leaves the tagged accounts alone,
      and so does every event of another company, whatever its rules. */
  lemma EventOffNet(setup: Setup, led: Ledger, e: Event, company: Id, control: Control)
    requires UsesStarterRules(setup, company) && EventOff(setup, company, e, control) && EventEntry(setup, led, e).Ok?
    ensures Net(EventEntry(setup, led, e).value, On(TaggedWith(setup, company, control))) == 0
  {
    var q := TaggedWith(setup, company, control);
    var lines := setup.rules[(e.company, e.kind)].lines;
    RuleNet(setup, e, lines, EventEntry(setup, led, e).value.head, q);
    forall i | 0 <= i < |lines|
      ensures Signed(setup, e, q)(lines[i]) == 0
    {
      SignedOff(setup, company, e, lines[i], control);
    }
    SumZero(lines, Signed(setup, e, q));
  }

  lemma SumOfLines(ls: seq<RuleLine>, f: RuleLine -> int)
    requires 2 <= |ls| <= 4
    ensures Sum(ls, f) == f(ls[0]) + f(ls[1]) + (if |ls| > 2 then f(ls[2]) else 0) + if |ls| > 3 then f(ls[3]) else 0
  {
    if |ls| == 2 {
      assert ls == [ls[0], ls[1]];
      SumOfTwo(ls[0], ls[1], f);
    } else if |ls| == 3 {
      assert ls == [ls[0], ls[1], ls[2]];
      SumOfThree(ls[0], ls[1], ls[2], f);
    } else {
      assert ls == [ls[0], ls[1], ls[2], ls[3]];
      SumOfFour(ls[0], ls[1], ls[2], ls[3], f);
    }
  }

  lemma ControlSum(e: Event, ls: seq<RuleLine>, control: Control)
    requires 2 <= |ls| <= 4
    ensures Sum(ls, ControlAmount(e, control))
         == ControlPart(e, ls[0], control) + ControlPart(e, ls[1], control)
            + (if |ls| > 2 then ControlPart(e, ls[2], control) else 0)
            + (if |ls| > 3 then ControlPart(e, ls[3], control) else 0)
  {
    SumOfLines(ls, ControlAmount(e, control));
    forall i | 0 <= i < |ls|
      ensures ControlAmount(e, control)(ls[i]) == ControlPart(e, ls[i], control)
    {
      ControlAmountOf(e, ls[i], control);
    }
  }
}
