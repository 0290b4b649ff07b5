/** Vocabulary shared by every module: optional values and the outcomes of one
    database transaction, which either commits or leaves everything unchanged. */
module Base {
  type Id = string

  datatype Option<+T> = None | Some(value: T)

  datatype Error =
    | NoActiveRule
    | NoPeriod
    | PeriodNotOpen
    | NoControlAccount
    | MissingOverride
    | ForeignOverride
    | UnknownResolver
    | Unbalanced
    | TwoSidedLine
    | NegativeAmount
    | UnknownAccount
    | NotFound
    | WrongStatus
    | Immutable
    | NotPositive
    | InsufficientStock
    | NothingToDo

  datatype Result<+T> = Ok(value: T) | Err(error: Error)
}

/** The journal, the row-per-key summary kept beside it, and the transactions
    that change them, as functions from one ledger state to the next. Entries,
    accounts and periods are named by their index in the table that holds them. */
module Journal {
  import opened Base
  import opened Sums
  import opened Money

  // ---------------------------------------------------------------- set-up

  datatype AccountType = Asset | Liability | Equity | Income | Expense

  datatype Control =
    | AR | AP | Bank | Inventory | TaxInput | TaxOutput | SalaryPayable | StatutoryPayable
    | SalesRevenue | Cogs | PurchaseExpense | SalaryExpense | OtherControl(tag: string)

  datatype Mis = Revenue | CostOfGoods | Opex | OtherMis(tag: string)

  datatype Account = Account(company: Id, code: string, name: string, kind: AccountType,
                             control: Option<Control>, mis: Option<Mis>, active: bool)

  datatype EventType =
    | SalesInvoicePosted | PurchaseInvoicePosted | CustomerReceiptPosted | SupplierPaymentPosted
    | CreditNotePosted | DebitNotePosted | DeliveryPosted | PayrollRunPosted
    | AssetDepreciationPosted | InventoryAdjustmentPosted

  /** The events of stock documents; every other kind is posted by an office document. */
  predicate OfStock(kind: EventType)
  {
    kind == DeliveryPosted || kind == InventoryAdjustmentPosted
  }

  datatype Side = Debit | Credit

  datatype OverrideKey = BankAccount | DepreciationExpense | AccumulatedDepreciation

  /** An account_resolver string, parsed: CONTROL:x, OVERRIDE:x, or neither. */
  datatype Resolver = ByControl(control: Control) | ByOverride(key: OverrideKey) | Malformed

  datatype AmountKey =
    | Total | Subtotal | TaxAmount | Amount | Cost | TotalGross | TotalNet | TotalDeductions
    | IncreaseAmount | DecreaseAmount

  datatype RuleLine = RuleLine(lineNo: int, side: Side, resolver: Resolver, source: AmountKey)

  datatype Rule = Rule(active: bool, lines: seq<RuleLine>)

  datatype Setup = Setup(chart: seq<Account>, rules: map<(Id, EventType), Rule>)

  // ----------------------------------------------------------------- state

  datatype Dims = Dims(department: Option<Id>, costCentre: Option<Id>, profitCentre: Option<Id>,
                       project: Option<Id>, customer: Option<Id>, supplier: Option<Id>, taxCode: Option<Id>)

  const NO_DIMS := Dims(None, None, None, None, None, None, None)

  datatype Line = Line(lineNo: int, account: nat, debit: Cents, credit: Cents, dims: Dims)

  datatype Status = Draft | Submitted | Approved | Posted | Reversed

  /** What an entry records about where it came from; a reversal copies it. */
  datatype Origin = Manual | Document(event: EventType, doc: nat)

  /** The part of an entry that enters the key of each of its balance rows. */
  datatype Head = Head(company: Id, period: nat, branch: Option<Id>)

  datatype Entry = Entry(head: Head, number: nat, date: int, status: Status,
                         reversalOf: Option<nat>, origin: Origin, lines: seq<Line>)

  datatype PeriodStatus = Open | Closed | Locked

  datatype Period = Period(company: Id, first: int, last: int, status: PeriodStatus)

  /** gl_balance_key: an absent dimension is the empty string, never a null. */
  datatype Key = Key(company: Id, period: nat, account: nat, branch: Id,
                     department: Id, costCentre: Id, profitCentre: Id)

  datatype Row = Row(debitTotal: Cents, creditTotal: Cents)

  datatype Ledger = Ledger(entries: seq<Entry>, rows: map<Key, Row>, periods: seq<Period>,
                           numbers: map<Id, nat>)

  const EMPTY_LEDGER := Ledger([], map[], [], map[])

  // ------------------------------------------------------------ vocabulary

  function OrEmpty(x: Option<Id>): Id
  {
    if x.Some? then x.value else ""
  }

  function KeyOf(h: Head, l: Line): Key
  {
    Key(h.company, h.period, l.account, OrEmpty(h.branch), OrEmpty(l.dims.department),
        OrEmpty(l.dims.costCentre), OrEmpty(l.dims.profitCentre))
  }

  /** Draft, submitted and approved entries are not part of the ledger yet. */
  predicate Counted(s: Status)
  {
    s == Posted || s == Reversed
  }

  function Part(l: Line, s: Side): Cents
  {
    if s == Debit then l.debit else l.credit
  }

  function RowPart(rows: map<Key, Row>, k: Key, s: Side): Cents
  {
    if k !in rows then 0 else if s == Debit then rows[k].debitTotal else rows[k].creditTotal
  }

  /** The predicate that selects one key. */
  function Only(k: Key): Key -> bool
  {
    (x: Key) => x == k
  }

  /** What a line adds to side s of the rows selected by p. */
  function LinePart(h: Head, p: Key -> bool, s: Side): Line -> int
  {
    (l: Line) => if p(KeyOf(h, l)) then Part(l, s) else 0
  }

  function LinesTotal(e: Entry, p: Key -> bool, s: Side): Cents
  {
    Sum(e.lines, LinePart(e.head, p, s))
  }

  /** Debits less credits on the rows selected by p. */
  function Net(e: Entry, p: Key -> bool): Cents
  {
    LinesTotal(e, p, Debit) - LinesTotal(e, p, Credit)
  }

  function EntryPart(p: Key -> bool, s: Side): Entry -> int
  {
    (e: Entry) => if Counted(e.status) then LinesTotal(e, p, s) else 0
  }

  /** The total recomputed from the raw lines of posted and reversed entries. */
  function JournalTotal(entries: seq<Entry>, p: Key -> bool, s: Side): Cents
  {
    Sum(entries, EntryPart(p, s))
  }

  /** reject_edit_of_posted_journal_entry(): which status updates the database accepts. */
  predicate TriggerAccepts(was: Status, becomes: Status)
  {
    if was == Posted && becomes == Reversed then true
    else !(was == Posted || was == Reversed)
  }

  predicate Covers(p: Period, company: Id, date: int)
  {
    p.company == company && p.first <= date <= p.last
  }

  function FindPeriod(periods: seq<Period>, company: Id, date: int): (r: Option<nat>)
    ensures r.Some? ==> r.value < |periods| && periods[r.value].company == company
    ensures r.Some? ==> periods[r.value].first <= date <= periods[r.value].last
    ensures r.None? ==> forall i :: 0 <= i < |periods| ==>
      !(periods[i].company == company && periods[i].first <= date <= periods[i].last)
  {
    if periods == [] then None
    else
      var n := |periods| - 1;
      var r := FindPeriod(periods[..n], company, date);
      if r.Some? then r else if Covers(periods[n], company, date) then Some(n) else None
  }

  /** A date lies in a period, and the one found is open. */
  predicate OpenOn(periods: seq<Period>, company: Id, date: int)
  {
    var period := FindPeriod(periods, company, date);
    period.Some? && periods[period.value].status == Open
  }

  predicate Tagged(a: Account, company: Id, control: Control)
  {
    a.company == company && a.control == Some(control) && a.active
  }

  function FindControl(chart: seq<Account>, company: Id, control: Control): (r: Option<nat>)
    ensures r.Some? ==> r.value < |chart| && chart[r.value].company == company
    ensures r.Some? ==> chart[r.value].control == Some(control) && chart[r.value].active
    ensures r.None? ==> forall i :: 0 <= i < |chart| ==>
      !(chart[i].company == company && chart[i].control == Some(control) && chart[i].active)
  {
    if chart == [] then None
    else
      var n := |chart| - 1;
      var r := FindControl(chart[..n], company, control);
      if r.Some? then r else if Tagged(chart[n], company, control) then Some(n) else None
  }

  function NextNumber(numbers: map<Id, nat>, company: Id): nat
  {
    if company in numbers then numbers[company] else 1
  }

  // ------------------------------------------------------- building entries

  datatype Event = Event(company: Id, branch: Option<Id>, kind: EventType, date: int, doc: nat,
                         amounts: map<AmountKey, real>, overrides: map<OverrideKey, nat>, dims: Dims)

  /** A line before its amounts are rounded by the columns that store them. */
  datatype RawLine = RawLine(lineNo: int, account: nat, debit: real, credit: real, dims: Dims)

  datatype ManualEntry = ManualEntry(company: Id, date: int, lines: seq<RawLine>)

  function Resolve(setup: Setup, company: Id, resolver: Resolver,
                   overrides: map<OverrideKey, nat>): (r: Result<nat>)
    ensures r.Ok? ==> r.value < |setup.chart| && setup.chart[r.value].company == company
  {
    match resolver
    case ByControl(c) =>
      var found := FindControl(setup.chart, company, c);
      if found.Some? then Ok(found.value) else Err(NoControlAccount)
    case ByOverride(key) =>
      if key !in overrides then Err(MissingOverride)
      else if overrides[key] < |setup.chart| && setup.chart[overrides[key]].company == company
      then Ok(overrides[key])
      else Err(ForeignOverride)
    case Malformed => Err(UnknownResolver)
  }

  function AmountOf(e: Event, source: AmountKey): real
  {
    if source in e.amounts then e.amounts[source] else 0.0
  }

  /** One raw line per rule line with a non-zero amount, in rule order. */
  function BuildLines(setup: Setup, e: Event, lines: seq<RuleLine>): (r: Result<seq<RawLine>>)
    ensures r.Ok? ==> forall i :: 0 <= i < |r.value| ==>
      r.value[i].account < |setup.chart| && setup.chart[r.value[i].account].company == e.company
      && r.value[i].dims == e.dims
  {
    if lines == [] then Ok([])
    else
      var n := |lines| - 1;
      var done := BuildLines(setup, e, lines[..n]);
      var amount := AmountOf(e, lines[n].source);
      if done.Err? || amount == 0.0 then done
      else
        var account := Resolve(setup, e.company, lines[n].resolver, e.overrides);
        if account.Err? then Err(account.error)
        else Ok(done.value + [RawLine(lines[n].lineNo, account.value,
                                      if lines[n].side == Debit then amount else 0.0,
                                      if lines[n].side == Credit then amount else 0.0, e.dims)])
  }

  function RawTotal(lines: seq<RawLine>, s: Side): real
  {
    if lines == [] then 0.0
    else
      var l := lines[|lines| - 1];
      RawTotal(lines[..|lines| - 1], s) + (if s == Debit then l.debit else l.credit)
  }

  /** The check both writers make before rounding: at most one cent apart. */
  predicate WithinTolerance(lines: seq<RawLine>)
  {
    AbsReal(RawTotal(lines, Debit) - RawTotal(lines, Credit)) <= 1.0
  }

  function Store(l: RawLine): Line
  {
    Line(l.lineNo, l.account, ToColumn(l.debit), ToColumn(l.credit), l.dims)
  }

  function StoreLines(lines: seq<RawLine>): (r: seq<Line>)
    ensures |r| == |lines|
    ensures forall i :: 0 <= i < |r| ==> r[i] == Store(lines[i])
  {
    if lines == [] then [] else StoreLines(lines[..|lines| - 1]) + [Store(lines[|lines| - 1])]
  }

  /** The posted entry an event produces, or the reason it is refused. */
  function EventEntry(setup: Setup, led: Ledger, e: Event): Result<Entry>
  {
    if (e.company, e.kind) !in setup.rules || !setup.rules[(e.company, e.kind)].active then
      Err(NoActiveRule)
    else
      var period := FindPeriod(led.periods, e.company, e.date);
      if period.None? then Err(NoPeriod)
      else if led.periods[period.value].status != Open then Err(PeriodNotOpen)
      else
        var raw := BuildLines(setup, e, setup.rules[(e.company, e.kind)].lines);
        if raw.Err? then Err(raw.error)
        else if !WithinTolerance(raw.value) then Err(Unbalanced)
        else Ok(Entry(Head(e.company, period.value, e.branch), NextNumber(led.numbers, e.company),
                      e.date, Posted, None, Document(e.kind, e.doc), StoreLines(raw.value)))
  }

  /** The draft entry a manual request produces; the period need not be open yet. */
  function DraftEntry(setup: Setup, led: Ledger, m: ManualEntry): Result<Entry>
  {
    if exists i :: 0 <= i < |m.lines| && (m.lines[i].debit < 0.0 || m.lines[i].credit < 0.0) then
      Err(NegativeAmount)
    else if !WithinTolerance(m.lines) then Err(Unbalanced)
    else if exists i :: 0 <= i < |m.lines| && m.lines[i].debit > 0.0 && m.lines[i].credit > 0.0 then
      Err(TwoSidedLine)
    else
      var period := FindPeriod(led.periods, m.company, m.date);
      if period.None? then Err(NoPeriod)
      else if exists i :: 0 <= i < |m.lines| && m.lines[i].account >= |setup.chart| then
        Err(UnknownAccount)
      else Ok(Entry(Head(m.company, period.value, None), NextNumber(led.numbers, m.company),
                    m.date, Draft, None, Manual, StoreLines(m.lines)))
  }

  function Mirror(lines: seq<Line>): (r: seq<Line>)
    ensures |r| == |lines|
    ensures forall i :: 0 <= i < |r| ==> r[i] == lines[i].(debit := lines[i].credit, credit := lines[i].debit)
  {
    if lines == [] then []
    else
      var l := lines[|lines| - 1];
      Mirror(lines[..|lines| - 1]) + [l.(debit := l.credit, credit := l.debit)]
  }

  /** The mirror entry that cancels entry id, posted into the period of date. */
  function ReversalEntry(led: Ledger, id: nat, date: int): Result<Entry>
  {
    if id >= |led.entries| then Err(NotFound)
    else
      var original := led.entries[id];
      if original.status != Posted then Err(WrongStatus)
      else
        var period := FindPeriod(led.periods, original.head.company, date);
        if period.None? || led.periods[period.value].status != Open then Err(PeriodNotOpen)
        else Ok(Entry(original.head.(period := period.value), NextNumber(led.numbers, original.head.company),
                      date, Posted, Some(id), original.origin, Mirror(original.lines)))
  }

  // ---------------------------------------------------------- transactions

  /** updateGlBalance(): create the row, or increment both of its totals. */
  function AddToRow(rows: map<Key, Row>, k: Key, l: Line): map<Key, Row>
  {
    rows[k := Row(RowPart(rows, k, Debit) + l.debit, RowPart(rows, k, Credit) + l.credit)]
  }

  /** The rows after the first n lines of an entry have been added one by one. */
  function ApplyLines(rows: map<Key, Row>, h: Head, lines: seq<Line>, n: nat): map<Key, Row>
    requires n <= |lines|
  {
    if n == 0 then rows
    else AddToRow(ApplyLines(rows, h, lines, n - 1), KeyOf(h, lines[n - 1]), lines[n - 1])
  }

  function CountIn(rows: map<Key, Row>, e: Entry): map<Key, Row>
  {
    ApplyLines(rows, e.head, e.lines, |e.lines|)
  }

  function Append(led: Ledger, e: Entry): Ledger
  {
    led.(entries := led.entries + [e],
         rows := if Counted(e.status) then CountIn(led.rows, e) else led.rows,
         numbers := led.numbers[e.head.company := e.number + 1])
  }

  function SetStatus(led: Ledger, id: nat, s: Status): Ledger
    requires id < |led.entries|
  {
    led.(entries := led.entries[id := led.entries[id].(status := s)])
  }

  function PostEvent(setup: Setup, led: Ledger, e: Event): Result<Ledger>
  {
    var entry := EventEntry(setup, led, e);
    if entry.Err? then Err(entry.error) else Ok(Append(led, entry.value))
  }

  function CreateManual(setup: Setup, led: Ledger, m: ManualEntry): Result<Ledger>
  {
    var entry := DraftEntry(setup, led, m);
    if entry.Err? then Err(entry.error) else Ok(Append(led, entry.value))
  }

  function Transition(led: Ledger, id: nat, from: Status, to: Status): Result<Ledger>
  {
    if id >= |led.entries| then Err(NotFound)
    else if led.entries[id].status != from then Err(WrongStatus)
    else if !TriggerAccepts(led.entries[id].status, to) then Err(Immutable)
    else Ok(SetStatus(led, id, to))
  }

  function PostManual(led: Ledger, id: nat): Result<Ledger>
  {
    if id >= |led.entries| then Err(NotFound)
    else
      var e := led.entries[id];
      if e.status != Approved then Err(WrongStatus)
      else if e.head.period >= |led.periods| || led.periods[e.head.period].status != Open then Err(PeriodNotOpen)
      else if !TriggerAccepts(e.status, Posted) then Err(Immutable)
      else Ok(SetStatus(led, id, Posted).(rows := CountIn(led.rows, e)))
  }

  function Reverse(led: Ledger, id: nat, date: int): Result<Ledger>
  {
    var reversal := ReversalEntry(led, id, date);
    if reversal.Err? then Err(reversal.error)
    else if !TriggerAccepts(led.entries[id].status, Reversed) then Err(Immutable)
    else Ok(SetStatus(Append(led, reversal.value), id, Reversed))
  }

  function SetPeriodStatus(led: Ledger, period: nat, s: PeriodStatus): Result<Ledger>
  {
    if period >= |led.periods| then Err(NotFound)
    else Ok(led.(periods := led.periods[period := led.periods[period].(status := s)]))
  }

  datatype Command =
    | DoEvent(event: Event)
    | DoManual(manual: ManualEntry)
    | DoSubmit(id: nat)
    | DoApprove(id: nat)
    | DoPost(id: nat)
    | DoReverse(id: nat, date: int)
    | DoSetPeriod(period: nat, status: PeriodStatus)
    | DoAddPeriods(periods: seq<Period>)

  function Step(setup: Setup, led: Ledger, c: Command): Result<Ledger>
  {
    match c
    case DoEvent(e) => PostEvent(setup, led, e)
    case DoManual(m) => CreateManual(setup, led, m)
    case DoSubmit(id) => Transition(led, id, Draft, Submitted)
    case DoApprove(id) => Transition(led, id, Submitted, Approved)
    case DoPost(id) => PostManual(led, id)
    case DoReverse(id, date) => Reverse(led, id, date)
    case DoSetPeriod(p, s) => SetPeriodStatus(led, p, s)
    case DoAddPeriods(ps) => Ok(led.(periods := led.periods + ps))
  }

  /** A refused transaction is rolled back: the ledger stays as it was. */
  function Commit(led: Ledger, r: Result<Ledger>): Ledger
  {
    if r.Ok? then r.value else led
  }

  /** A serial run from a given state, last command outermost. */
  function RunFrom(setup: Setup, start: Ledger, cs: seq<Command>): Ledger
  {
    if cs == [] then start
    else
      var led := RunFrom(setup, start, cs[..|cs| - 1]);
      Commit(led, Step(setup, led, cs[|cs| - 1]))
  }

  function Run(setup: Setup, cs: seq<Command>): Ledger
  {
    RunFrom(setup, EMPTY_LEDGER, cs)
  }
}
