/** Bank reconciliation: which open invoice a statement line is matched with, and
    what approving and ignoring lines does to the line and to the books. */
module Banking {
  import opened Base
  import opened Sums
  import opened Money
  import opened Journal
  import opened Consistency
  import opened Starter
  import opened Posting
  import opened Subledger
  import opened TieOut

  // ---------------------------------------------------------------- matching

  const AMOUNT_MATCH_WEIGHT := 70
  const NAME_MATCH_WEIGHT := 30

  /** How well an invoice explains a payment of some amount. named holds the parties
      whose name the line's description mentions. Zero when it is not a candidate. */
  function Score(r: Record, trade: Trade, amount: Cents, named: set<Id>): nat
  {
    if !r.doc.Invoice? || r.doc.trade != trade || r.status != Posted || r.doc.total - r.doc.paid <= 0 then 0
    else
      (if Abs(r.doc.total - r.doc.paid - amount) < 1 then AMOUNT_MATCH_WEIGHT else 0)
      + if r.doc.party in named then NAME_MATCH_WEIGHT else 0
  }

  /** The first of the invoices with the highest score, if any scores at all. */
  function BestMatch(docs: seq<Record>, trade: Trade, amount: Cents, named: set<Id>): (r: Option<nat>)
    ensures r.Some? ==> r.value < |docs| && Score(docs[r.value], trade, amount, named) > 0
    ensures r.Some? ==> forall i :: 0 <= i < |docs| ==>
      Score(docs[i], trade, amount, named) <= Score(docs[r.value], trade, amount, named)
    ensures r.Some? ==> forall i :: 0 <= i < r.value ==>
      Score(docs[i], trade, amount, named) < Score(docs[r.value], trade, amount, named)
    ensures r.None? ==> forall i :: 0 <= i < |docs| ==> Score(docs[i], trade, amount, named) == 0
  {
    if docs == [] then None
    else
      var n := |docs| - 1;
      var best := BestMatch(docs[..n], trade, amount, named);
      var score := Score(docs[n], trade, amount, named);
      if score > 0 && (best.None? || score > Score(docs[best.value], trade, amount, named)) then Some(n) else best
  }

  datatype Suggestion = Suggestion(trade: Trade, party: Id, invoice: nat, score: nat)

  function Candidate(docs: seq<Record>, trade: Trade, amount: Cents, named: set<Id>): Option<Suggestion>
  {
    var best := BestMatch(docs, trade, amount, named);
    if best.None? then None
    else Some(Suggestion(trade, docs[best.value].doc.party, best.value, Score(docs[best.value], trade, amount, named)))
  }

  /** One more invoice replaces the candidate only with a strictly higher score. */
  lemma CandidateNext(docs: seq<Record>, i: nat, trade: Trade, amount: Cents, named: set<Id>)
    requires i < |docs|
    ensures var (was, score) := (Candidate(docs[..i], trade, amount, named), Score(docs[i], trade, amount, named));
      Candidate(docs[..i + 1], trade, amount, named) ==
        if score > 0 && (was.None? || score > was.value.score)
        then Some(Suggestion(trade, docs[i].doc.party, i, score)) else was
  {
    assert docs[..i + 1][..i] == docs[..i];
  }

  /** Money in may settle a sales invoice, money out a supplier invoice, nothing neither. */
  function Suggest(docs: seq<Record>, amount: Cents, named: set<Id>): (r: Option<Suggestion>)
    ensures r.Some? ==> Sign(r.value.trade) * amount > 0 && IsInvoice(docs, r.value.invoice, r.value.trade)
  {
    if amount > 0 then Candidate(docs, Sales, amount, named)
    else if amount < 0 then Candidate(docs, Purchases, -amount, named)
    else None
  }

  /** What is still to be paid on a posted invoice of a trade. */
  function Outstanding(r: Record, trade: Trade): Cents
  {
    if r.doc.Invoice? && r.doc.trade == trade && r.status == Posted then r.doc.total - r.doc.paid else 0
  }

  /** The invoice could explain the line: something is outstanding on it, either exactly the
      line's amount or, on an invoice of a party the description mentions, any amount. */
  predicate Explains(r: Record, amount: Cents, named: set<Id>)
  {
    var trade := if amount > 0 then Sales else Purchases;
    var paid := if amount > 0 then amount else -amount;
    Outstanding(r, trade) > 0 && (Outstanding(r, trade) == paid || r.doc.party in named)
  }

  /** A line gets a suggestion exactly when some invoice explains it: a sales invoice for
      money in, a supplier invoice for money out. */
  lemma SuggestedIff(docs: seq<Record>, amount: Cents, named: set<Id>)
    ensures Suggest(docs, amount, named).Some? <==>
      amount != 0 && exists i :: 0 <= i < |docs| && Explains(docs[i], amount, named)
  {
    if amount != 0 {
      var trade, paid := if amount > 0 then Sales else Purchases, if amount > 0 then amount else -amount;
      assert forall i :: 0 <= i < |docs| ==>
        (Score(docs[i], trade, paid, named) > 0 <==> Explains(docs[i], amount, named));
      var best := BestMatch(docs, trade, paid, named);
      assert best.Some? ==> Explains(docs[best.value], amount, named);
    }
  }

  /** The suggested invoice explains the line and names its own party. The score is 70 for
      the exact amount and 30 for a mentioned party; an invoice with the exact amount comes
      before any other, and one that has both before all. */
  lemma SuggestionIs(docs: seq<Record>, amount: Cents, named: set<Id>, i: nat)
    requires Suggest(docs, amount, named).Some? && i < |docs| && Explains(docs[i], amount, named)
    ensures var s := Suggest(docs, amount, named).value;
      s.invoice < |docs| && Explains(docs[s.invoice], amount, named)
    ensures var s := Suggest(docs, amount, named).value;
      var (trade, paid) := (if amount > 0 then Sales else Purchases, if amount > 0 then amount else -amount);
      var best := docs[s.invoice];
      && s.trade == trade && s.party == best.doc.party
      && s.score == (if Outstanding(best, trade) == paid then 70 else 0) + (if best.doc.party in named then 30 else 0)
      && (Outstanding(docs[i], trade) == paid ==> Outstanding(best, trade) == paid)
      && (Outstanding(docs[i], trade) == paid && docs[i].doc.party in named ==> best.doc.party in named)
  {
    var trade, paid := if amount > 0 then Sales else Purchases, if amount > 0 then amount else -amount;
    var best := BestMatch(docs, trade, paid, named);
    assert Score(docs[i], trade, paid, named) <= Score(docs[best.value], trade, paid, named);
  }

  // ------------------------------------------------------------------- lines

  datatype LineStatus = Unmatched | Suggested | Reconciled | Ignored

  /** A statement line; bank is the ledger account of the statement's bank account. */
  datatype BankLine = BankLine(bank: nat, date: int, amount: Cents, status: LineStatus,
                               suggestion: Option<Suggestion>, matched: Option<nat>)

  datatype Input = Input(date: int, amount: Cents, named: set<Id>)

  datatype Book = Book(office: Office, lines: seq<BankLine>)

  const EMPTY_BOOK := Book(EMPTY_OFFICE, [])

  function Imported(docs: seq<Record>, bank: nat, input: Input): BankLine
  {
    var s := Suggest(docs, input.amount, input.named);
    BankLine(bank, input.date, input.amount, if s.Some? then Suggested else Unmatched, s, None)
  }

  function ImportAll(docs: seq<Record>, bank: nat, inputs: seq<Input>): (r: seq<BankLine>)
    ensures |r| == |inputs| && forall i :: 0 <= i < |r| ==> r[i] == Imported(docs, bank, inputs[i])
  {
    if inputs == [] then []
    else ImportAll(docs, bank, inputs[..|inputs| - 1]) + [Imported(docs, bank, inputs[|inputs| - 1])]
  }

  /** A stored line: the statement's account, date and amount, and its suggestion if any. */
  predicate Stores(line: BankLine, docs: seq<Record>, bank: nat, input: Input)
  {
    && line.bank == bank && line.date == input.date && line.amount == input.amount && line.matched == None
    && line.suggestion == Suggest(docs, input.amount, input.named)
    && line.status == if line.suggestion.Some? then Suggested else Unmatched
  }

  lemma ImportStores(docs: seq<Record>, bank: nat, inputs: seq<Input>)
    ensures forall i :: 0 <= i < |inputs| ==> Stores(ImportAll(docs, bank, inputs)[i], docs, bank, inputs[i])
  {
  }

  /** The settlement approveMatch() creates for a line as it read it. */
  function Created(b: Book, line: BankLine): Result<Office>
    requires line.suggestion.Some?
  {
    var s := line.suggestion.value;
    var only := Allocation(s.invoice, Sign(s.trade) * line.amount);
    AddSettlement(b.office, s.trade, line.date, s.party, line.bank, [only])
  }

  /** The rest of approveMatch() once the line has been read: three transactions, each
      committed on its own. A settlement that cannot be posted stays behind as a draft. */
  function Finish(setup: Setup, company: Id, b: Book, k: nat, line: BankLine): (Result<nat>, Book)
    requires k < |b.lines| && line.suggestion.Some?
  {
    var created := Created(b, line);
    if created.Err? then (Err(created.error), b)
    else
      var posted := PostDoc(setup, company, created.value, |b.office.docs|);
      if posted.Err? then (Err(posted.error), b.(office := created.value))
      else
        var journal := posted.value.docs[|b.office.docs|].journal;
        (Ok(k), Book(posted.value, b.lines[k := b.lines[k].(status := Reconciled, matched := journal)]))
  }

  function Approve(setup: Setup, company: Id, b: Book, k: nat): (Result<nat>, Book)
  {
    if k >= |b.lines| then (Err(NotFound), b)
    else if b.lines[k].status != Suggested || b.lines[k].suggestion.None? then (Err(WrongStatus), b)
    else Finish(setup, company, b, k, b.lines[k])
  }

  datatype BankCommand =
    | Import(bank: nat, inputs: seq<Input>)
    | ApproveMatch(k: nat)
    | IgnoreLine(k: nat)
    | InOffice(c: OfficeCommand)

  function StepBank(setup: Setup, company: Id, b: Book, c: BankCommand): (Result<nat>, Book)
  {
    match c
    case Import(bank, inputs) => (Ok(|b.lines|), b.(lines := b.lines + ImportAll(b.office.docs, bank, inputs)))
    case ApproveMatch(k) => Approve(setup, company, b, k)
    case IgnoreLine(k) =>
      if k >= |b.lines| then (Err(NotFound), b)
      else (Ok(k), b.(lines := b.lines[k := b.lines[k].(status := Ignored)]))
    case InOffice(oc) =>
      var o := StepOffice(setup, company, b.office, oc);
      if o.Err? then (Err(o.error), b) else (Ok(0), b.(office := o.value))
  }

  function RunBank(setup: Setup, company: Id, cs: seq<BankCommand>): Book
  {
    if cs == [] then EMPTY_BOOK
    else StepBank(setup, company, RunBank(setup, company, cs[..|cs| - 1]), cs[|cs| - 1]).1
  }

  // ------------------------------------------------------ what a settlement moves

  function Exactly(account: nat): nat -> bool
  {
    (a: nat) => a == account
  }

  /** The movement of one account that is neither receivables nor payables. */
  predicate Moves(e: Entry, line: BankLine, account: nat)
  {
    Net(e, On(Exactly(account))) == if line.bank == account then line.amount else 0
  }

  function SignedStored(e: Event, l: RuleLine): Cents
  {
    if l.side == Debit then Stored(e, l.source) else -Stored(e, l.source)
  }

  /** The bank line of a settlement moves the bank account the settlement names. */
  lemma SignedBank(setup: Setup, e: Event, l: RuleLine, account: nat)
    requires l.resolver == ByOverride(BankAccount) && BankAccount in e.overrides
    requires Resolve(setup, e.company, l.resolver, e.overrides).Ok?
    ensures Signed(setup, e, Exactly(account))(l)
         == if e.overrides[BankAccount] == account then SignedStored(e, l) else 0
  {
  }

  /** A control line never moves an account without its tag. */
  lemma SignedControl(setup: Setup, e: Event, l: RuleLine, control: Control, account: nat)
    requires l.resolver == ByControl(control) && !TaggedWith(setup, e.company, control)(account)
    ensures Signed(setup, e, Exactly(account))(l) == 0
  {
    var r := Resolve(setup, e.company, l.resolver, e.overrides);
    if r.Ok? {
      assert Tagged(setup.chart[r.value], e.company, control);
    }
  }

  predicate BankResolves(setup: Setup, e: Event)
  {
    Resolve(setup, e.company, ByOverride(BankAccount), e.overrides).Ok?
  }

  /** The two rule lines of a settlement. */
  lemma SettlementLines(setup: Setup, company: Id, i: nat, doc: Doc, account: nat)
    requires doc.Settlement? && OffControls(setup, company, account)
    requires BankResolves(setup, EventOf(company, i, doc))
    ensures var e := EventOf(company, i, doc);
      Sum(StarterLines(e.kind), Signed(setup, e, Exactly(account)))
        == if doc.bank == account then Sign(doc.trade) * Stored(e, Amount) else 0
  {
    var e := EventOf(company, i, doc);
    var ls := StarterLines(e.kind);
    SumOfLines(ls, Signed(setup, e, Exactly(account)));
    if doc.trade == Sales {
      SignedBank(setup, e, ls[0], account);
      SignedControl(setup, e, ls[1], AR, account);
    } else {
      SignedControl(setup, e, ls[0], AP, account);
      SignedBank(setup, e, ls[1], account);
    }
  }

  lemma SettlementResolves(setup: Setup, company: Id, i: nat, doc: Doc)
    requires doc.Settlement? && doc.amount > 0
    requires BuildLines(setup, EventOf(company, i, doc), StarterLines(KindOf(doc))).Ok?
    ensures BankResolves(setup, EventOf(company, i, doc))
  {
    var e := EventOf(company, i, doc);
    BuildsIff(setup, e, StarterLines(e.kind));
    assert AmountOf(e, Amount) == doc.amount as real;
    assert Resolved(setup, e, StarterLines(e.kind)[0]) && Resolved(setup, e, StarterLines(e.kind)[1]);
  }

  /** A posted settlement moves its own bank account by its amount, in for a receipt
      and out for a payment, and no other account outside receivables and payables. */
  lemma SettlementNet(setup: Setup, company: Id, o: Office, i: nat, account: nat)
    requires UsesStarterRules(setup, company) && i < |o.docs| && o.docs[i].doc.Settlement? && o.docs[i].doc.amount > 0
    requires EntryOf(setup, company, o, i).Ok? && OffControls(setup, company, account)
    ensures Net(EntryOf(setup, company, o, i).value, On(Exactly(account)))
         == if o.docs[i].doc.bank == account then Sign(o.docs[i].doc.trade) * o.docs[i].doc.amount else 0
  {
    var doc := o.docs[i].doc;
    var e := EventOf(company, i, doc);
    EventNet(setup, o.ledger, e, Exactly(account));
    SettlementResolves(setup, company, i, doc);
    SettlementLines(setup, company, i, doc, account);
    StoredWhole(e, Amount, doc.amount);
  }

  // -------------------------------------------------- when a settlement is posted

  /** What posting the settlement of a line asks of the books: an active rule, an open
      period on its date, a control account of the trade, and a bank account of the company. */
  predicate WillPost(setup: Setup, company: Id, periods: seq<Period>, doc: Doc)
    requires doc.Settlement?
  {
    && (company, KindOf(doc)) in setup.rules
    && OpenOn(periods, company, doc.date)
    && FindControl(setup.chart, company, ControlOf(doc.trade)).Some?
    && doc.bank < |setup.chart| && setup.chart[doc.bank].company == company
  }

  /** A draft settlement is posted exactly when the books allow it; nothing else matters. */
  lemma SettlementPostsIff(setup: Setup, company: Id, o: Office, i: nat)
    requires UsesStarterRules(setup, company) && i < |o.docs| && o.docs[i].doc.Settlement?
    requires o.docs[i].doc.amount > 0 && o.docs[i].status == Draft
    ensures PostDoc(setup, company, o, i).Ok? <==> WillPost(setup, company, o.ledger.periods, o.docs[i].doc)
  {
    var doc := o.docs[i].doc;
    var e := EventOf(company, i, doc);
    var ls := StarterLines(e.kind);
    EventPostsIff(setup, o.ledger, e);
    RawTwo(e, ls[0], ls[1]);
    assert ls == [ls[0], ls[1]];
    assert AmountOf(e, Amount) != 0.0;
    assert Resolved(setup, e, ls[0]) && Resolved(setup, e, ls[1]) <==>
      && FindControl(setup.chart, company, ControlOf(doc.trade)).Some?
      && doc.bank < |setup.chart| && setup.chart[doc.bank].company == company;
  }

  // ------------------------------------------------------------------ every run

  /** What a line's fields say about it, and that the invoice it suggests exists. */
  predicate LineSound(docs: seq<Record>, line: BankLine)
  {
    && (line.suggestion.Some? ==>
          && Sign(line.suggestion.value.trade) * line.amount > 0
          && IsInvoice(docs, line.suggestion.value.invoice, line.suggestion.value.trade))
    && (line.status == Suggested ==> line.suggestion.Some?)
    && (line.status == Suggested || line.status == Unmatched ==> line.matched.None?)
    && (line.status == Reconciled ==> line.matched.Some?)
  }

  /** The matched entry exists, and on every account outside receivables and payables
      it moves the line's amount on the line's own bank account and nothing elsewhere. */
  ghost predicate Booked(setup: Setup, company: Id, entries: seq<Entry>, line: BankLine)
  {
    line.matched.Some? ==>
      && line.matched.value < |entries|
      && forall a :: OffControls(setup, company, a) ==> Moves(entries[line.matched.value], line, a)
  }

  ghost predicate LinesSound(setup: Setup, company: Id, b: Book)
  {
    && (forall k :: 0 <= k < |b.lines| ==> LineSound(b.office.docs, b.lines[k]))
    && (forall k :: 0 <= k < |b.lines| ==> Booked(setup, company, b.office.ledger.entries, b.lines[k]))
    && (forall k, l :: 0 <= k < l < |b.lines| && b.lines[k].matched.Some? ==> b.lines[k].matched != b.lines[l].matched)
  }

  lemma BookedLasts(setup: Setup, company: Id, was: seq<Entry>, now: seq<Entry>, line: BankLine)
    requires Booked(setup, company, was, line) && Lasting(was, now)
    ensures Booked(setup, company, now, line)
  {
    if line.matched.Some? {
      var j := line.matched.value;
      forall a | OffControls(setup, company, a)
        ensures Moves(now[j], line, a)
      {
        assert Moves(was[j], line, a);
        assert now[j] == was[j].(status := now[j].status);
      }
    }
  }

  lemma LinesLast(setup: Setup, company: Id, b: Book, o: Office)
    requires LinesSound(setup, company, b)
    requires Lasting(b.office.ledger.entries, o.ledger.entries) && SameShape(b.office.docs, o.docs)
    ensures LinesSound(setup, company, b.(office := o))
  {
    forall k | 0 <= k < |b.lines|
      ensures Booked(setup, company, o.ledger.entries, b.lines[k]) && LineSound(o.docs, b.lines[k])
    {
      assert LineSound(b.office.docs, b.lines[k]);
      BookedLasts(setup, company, b.office.ledger.entries, o.ledger.entries, b.lines[k]);
    }
  }

  lemma ImportSound(setup: Setup, company: Id, b: Book, bank: nat, inputs: seq<Input>)
    requires LinesSound(setup, company, b)
    ensures LinesSound(setup, company, b.(lines := b.lines + ImportAll(b.office.docs, bank, inputs)))
  {
  }

  /** The document an approval creates for a line. */
  function SettlementFor(line: BankLine): Doc
    requires line.suggestion.Some?
  {
    var s := line.suggestion.value;
    var amount := Sign(s.trade) * line.amount;
    Settlement(s.trade, line.date, s.party, line.bank, [Allocation(s.invoice, amount)], amount)
  }

  lemma CreatedIs(b: Book, line: BankLine)
    requires line.suggestion.Some?
    ensures Created(b, line).Ok? ==>
      Created(b, line).value == Add(b.office, SettlementFor(line)) && SettlementFor(line).amount > 0
    ensures LineSound(b.office.docs, line) ==> Created(b, line).Ok?
  {
    var s := line.suggestion.value;
    var only := Allocation(s.invoice, Sign(s.trade) * line.amount);
    assert [only][..0] == [];
    assert Sum([only], AllocatedAmount()) == only.amount;
  }

  /** Whenever the settlement of a line is posted, its entry moves the line's amount. */
  lemma PostedMoves(setup: Setup, company: Id, o: Office, i: nat, line: BankLine, account: nat)
    requires UsesStarterRules(setup, company) && OffControls(setup, company, account) && line.suggestion.Some?
    requires i < |o.docs| && o.docs[i].doc == SettlementFor(line) && SettlementFor(line).amount > 0
    requires EntryOf(setup, company, o, i).Ok?
    ensures Moves(EntryOf(setup, company, o, i).value, line, account)
  {
    SettlementNet(setup, company, o, i, account);
    SignTwice(line.suggestion.value.trade, line.amount);
  }

  lemma SignTwice(trade: Trade, n: int)
    ensures Sign(trade) * (Sign(trade) * n) == n
  {
  }

  /** A completed approval adds one entry, booked for the line's amount on its bank account. */
  lemma FinishBooks(setup: Setup, company: Id, b: Book, k: nat, line: BankLine)
    requires UsesStarterRules(setup, company) && k < |b.lines| && line.suggestion.Some?
    requires Finish(setup, company, b, k, line).0.Ok?
    ensures var now := Finish(setup, company, b, k, line).1;
      && |now.office.ledger.entries| == |b.office.ledger.entries| + 1
      && now.office.ledger.entries[..|b.office.ledger.entries|] == b.office.ledger.entries
      && now.office.ledger.periods == b.office.ledger.periods
      && now.lines == b.lines[k := b.lines[k].(status := Reconciled, matched := Some(|b.office.ledger.entries|))]
      && forall a :: OffControls(setup, company, a) ==>
        Moves(now.office.ledger.entries[|b.office.ledger.entries|], line, a)
  {
    var i := |b.office.docs|;
    CreatedIs(b, line);
    var o := Add(b.office, SettlementFor(line));
    var e := EntryOf(setup, company, o, i).value;
    assert PostDoc(setup, company, o, i).value.ledger.entries == b.office.ledger.entries + [e];
    forall a | OffControls(setup, company, a)
      ensures Moves(e, line, a)
    {
      PostedMoves(setup, company, o, i, line, a);
    }
  }

  /** A completed approval posts a settlement with the line's date, bank account and amount,
      for the suggested party, all of it allocated to the suggested invoice. */
  lemma ApprovalFiles(setup: Setup, company: Id, b: Book, k: nat)
    requires Approve(setup, company, b, k).0.Ok?
    ensures k < |b.lines| && b.lines[k].status == Suggested && b.lines[k].suggestion.Some?
    ensures var (line, now) := (b.lines[k], Approve(setup, company, b, k).1);
      var s := line.suggestion.value;
      var amount := if s.trade == Sales then line.amount else -line.amount;
      var (docs, n) := (now.office.docs, |b.office.docs|);
      && |docs| == n + 1
      && docs[n] == Record(Settlement(s.trade, line.date, s.party, line.bank, [Allocation(s.invoice, amount)], amount),
                           Posted, Some(|b.office.ledger.entries|))
      && now.lines == b.lines[k := line.(status := Reconciled, matched := Some(|b.office.ledger.entries|))]
  {
    var line := b.lines[k];
    CreatedIs(b, line);
    PayForKeeps(Created(b, line).value.docs, SettlementFor(line));
  }

  lemma FinishShape(setup: Setup, company: Id, b: Book, k: nat, line: BankLine)
    requires k < |b.lines| && line.suggestion.Some?
    ensures SameShape(b.office.docs, Finish(setup, company, b, k, line).1.office.docs)
  {
    CreatedIs(b, line);
    if Created(b, line).Ok? && PostDoc(setup, company, Created(b, line).value, |b.office.docs|).Ok? {
      PostShape(setup, company, Created(b, line).value, |b.office.docs|);
      var docs := Finish(setup, company, b, k, line).1.office.docs;
      forall i | 0 <= i < |b.office.docs|
        ensures SameContent(b.office.docs[i].doc, docs[i].doc)
      {
        assert SameContent(Created(b, line).value.docs[i].doc, docs[i].doc);
      }
    }
  }

  /** An approval of a line, read at any earlier time, completes exactly when the books
      allow its settlement; otherwise the settlement stays behind as a draft, and nothing
      else changes. */
  lemma FinishIff(setup: Setup, company: Id, b: Book, k: nat, line: BankLine)
    requires UsesStarterRules(setup, company) && k < |b.lines| && line.suggestion.Some?
    requires LineSound(b.office.docs, line)
    ensures Finish(setup, company, b, k, line).0.Ok? <==>
      WillPost(setup, company, b.office.ledger.periods, SettlementFor(line))
    ensures Finish(setup, company, b, k, line).0.Err? ==>
      Finish(setup, company, b, k, line).1 == b.(office := Add(b.office, SettlementFor(line)))
  {
    CreatedIs(b, line);
    SettlementPostsIff(setup, company, Add(b.office, SettlementFor(line)), |b.office.docs|);
  }

  lemma ApproveSound(setup: Setup, company: Id, b: Book, k: nat)
    requires UsesStarterRules(setup, company) && LinesSound(setup, company, b)
    ensures LinesSound(setup, company, Approve(setup, company, b, k).1)
  {
    if k < |b.lines| && b.lines[k].status == Suggested {
      assert LineSound(b.office.docs, b.lines[k]);
      var now := Approve(setup, company, b, k).1;
      FinishShape(setup, company, b, k, b.lines[k]);
      FinishIff(setup, company, b, k, b.lines[k]);
      if Approve(setup, company, b, k).0.Ok? {
        FinishBooks(setup, company, b, k, b.lines[k]);
        LinesLast(setup, company, b, now.office);
        MatchSound(setup, company, b, b.(office := now.office), k);
      } else {
        LinesLast(setup, company, b, now.office);
      }
    }
  }

  /** Marking a line with an entry booked for it, which no other line can name yet. */
  lemma MatchSound(setup: Setup, company: Id, was: Book, b: Book, k: nat)
    requires LinesSound(setup, company, was) && LinesSound(setup, company, b) && b.lines == was.lines && k < |b.lines|
    requires |was.office.ledger.entries| < |b.office.ledger.entries|
    requires forall a :: OffControls(setup, company, a) ==>
      Moves(b.office.ledger.entries[|was.office.ledger.entries|], b.lines[k], a)
    ensures var matched := b.lines[k].(status := Reconciled, matched := Some(|was.office.ledger.entries|));
      LinesSound(setup, company, b.(lines := b.lines[k := matched]))
  {
    var n := |was.office.ledger.entries|;
    var matched := b.lines[k].(status := Reconciled, matched := Some(n));
    forall a | OffControls(setup, company, a)
      ensures Moves(b.office.ledger.entries[n], matched, a)
    {
      assert Moves(b.office.ledger.entries[n], b.lines[k], a);
    }
    forall l | 0 <= l < |b.lines|
      ensures b.lines[l].matched != Some(n)
    {
      assert Booked(setup, company, was.office.ledger.entries, was.lines[l]);
    }
  }

  /** Ignoring changes the status alone: a reconciled line keeps its entry. */
  lemma IgnoreSound(setup: Setup, company: Id, b: Book, k: nat)
    requires LinesSound(setup, company, b)
    ensures LinesSound(setup, company, StepBank(setup, company, b, IgnoreLine(k)).1)
  {
    if k < |b.lines| {
      var line := b.lines[k].(status := Ignored);
      assert LineSound(b.office.docs, b.lines[k]);
      assert Booked(setup, company, b.office.ledger.entries, b.lines[k]);
      if line.matched.Some? {
        forall a | OffControls(setup, company, a)
          ensures Moves(b.office.ledger.entries[line.matched.value], line, a)
        {
          assert Moves(b.office.ledger.entries[line.matched.value], b.lines[k], a);
        }
      }
    }
  }

  lemma StepSound(setup: Setup, company: Id, b: Book, c: BankCommand)
    requires UsesStarterRules(setup, company) && LinesSound(setup, company, b)
    ensures LinesSound(setup, company, StepBank(setup, company, b, c).1)
  {
    match c {
      case Import(bank, inputs) => ImportSound(setup, company, b, bank, inputs);
      case ApproveMatch(k) => ApproveSound(setup, company, b, k);
      case IgnoreLine(k) => IgnoreSound(setup, company, b, k);
      case InOffice(oc) =>
        if StepOffice(setup, company, b.office, oc).Ok? {
          OfficeLasting(setup, company, b.office, oc);
          LinesLast(setup, company, b, StepOffice(setup, company, b.office, oc).value);
        }
    }
  }

  /** In every run the lines are sound and no two of them name the same entry. */
  lemma {:induction false} RunSound(setup: Setup, company: Id, cs: seq<BankCommand>)
    requires UsesStarterRules(setup, company)
    ensures LinesSound(setup, company, RunBank(setup, company, cs))
  {
    if cs != [] {
      RunSound(setup, company, cs[..|cs| - 1]);
      StepSound(setup, company, RunBank(setup, company, cs[..|cs| - 1]), cs[|cs| - 1]);
    }
  }

  /** What the entries matched to lines move on an account. */
  function Movement(entries: seq<Entry>, account: nat): BankLine -> int
  {
    (l: BankLine) =>
      if l.matched.Some? && l.matched.value < |entries| then Net(entries[l.matched.value], On(Exactly(account))) else 0
  }

  /** The amount of a matched line of the account, ignored since or not. */
  function MatchedAmount(account: nat): BankLine -> int
  {
    (l: BankLine) => if l.matched.Some? && l.bank == account then l.amount else 0
  }

  lemma SoundMovement(setup: Setup, company: Id, b: Book, account: nat)
    requires LinesSound(setup, company, b) && OffControls(setup, company, account)
    ensures Sum(b.lines, Movement(b.office.ledger.entries, account)) == Sum(b.lines, MatchedAmount(account))
  {
    forall k | 0 <= k < |b.lines|
      ensures Movement(b.office.ledger.entries, account)(b.lines[k]) == MatchedAmount(account)(b.lines[k])
    {
      assert Booked(setup, company, b.office.ledger.entries, b.lines[k]);
      if b.lines[k].matched.Some? {
        assert Moves(b.office.ledger.entries[b.lines[k].matched.value], b.lines[k], account);
      }
    }
    SumEqual(b.lines, Movement(b.office.ledger.entries, account), MatchedAmount(account));
  }

  /** In every run: the matched entries' net movement of a bank account is the sum of the
      signed amounts of the account's matched lines. */
  lemma MatchedMovement(setup: Setup, company: Id, cs: seq<BankCommand>, account: nat)
    requires UsesStarterRules(setup, company) && OffControls(setup, company, account)
    ensures var b := RunBank(setup, company, cs);
      Sum(b.lines, Movement(b.office.ledger.entries, account)) == Sum(b.lines, MatchedAmount(account))
  {
    RunSound(setup, company, cs);
    SoundMovement(setup, company, RunBank(setup, company, cs), account);
  }

  /** How often line k was approved with success in a run. */
  function Approvals(setup: Setup, company: Id, cs: seq<BankCommand>, k: nat): nat
  {
    if cs == [] then 0
    else
      var b := RunBank(setup, company, cs[..|cs| - 1]);
      Approvals(setup, company, cs[..|cs| - 1], k)
        + if cs[|cs| - 1] == ApproveMatch(k) && Approve(setup, company, b, k).0.Ok? then 1 else 0
  }

  predicate IsMatched(b: Book, k: nat)
  {
    k < |b.lines| && b.lines[k].matched.Some?
  }

  /** One step matches a line exactly when it approves it, and the line was not matched before. */
  lemma StepMatches(setup: Setup, company: Id, b: Book, c: BankCommand, k: nat)
    requires UsesStarterRules(setup, company) && LinesSound(setup, company, b)
    ensures var approved := c == ApproveMatch(k) && Approve(setup, company, b, k).0.Ok?;
      && (IsMatched(StepBank(setup, company, b, c).1, k) <==> IsMatched(b, k) || approved)
      && !(IsMatched(b, k) && approved)
  {
    assert k < |b.lines| ==> LineSound(b.office.docs, b.lines[k]);
    if c.ApproveMatch? && Approve(setup, company, b, c.k).0.Ok? {
      FinishBooks(setup, company, b, c.k, b.lines[c.k]);
    }
  }

  /** A line's bank account, date, amount and suggestion never change, and an entry once
      matched stays matched, whatever is approved, ignored or posted later. */
  lemma MatchIsFinal(setup: Setup, company: Id, b: Book, c: BankCommand, k: nat)
    requires UsesStarterRules(setup, company) && LinesSound(setup, company, b) && k < |b.lines|
    ensures var now := StepBank(setup, company, b, c).1.lines;
      && k < |now| && now[k] == b.lines[k].(status := now[k].status, matched := now[k].matched)
      && (b.lines[k].matched.Some? ==> now[k].matched == b.lines[k].matched)
  {
    assert LineSound(b.office.docs, b.lines[k]);
    if c.ApproveMatch? && Approve(setup, company, b, c.k).0.Ok? {
      FinishBooks(setup, company, b, c.k, b.lines[c.k]);
    }
  }

  /** A line is approved at most once, and exactly when it names an entry. */
  lemma {:induction false} ApprovedOnce(setup: Setup, company: Id, cs: seq<BankCommand>, k: nat)
    requires UsesStarterRules(setup, company)
    ensures Approvals(setup, company, cs, k) == if IsMatched(RunBank(setup, company, cs), k) then 1 else 0
  {
    if cs != [] {
      var b := RunBank(setup, company, cs[..|cs| - 1]);
      ApprovedOnce(setup, company, cs[..|cs| - 1], k);
      RunSound(setup, company, cs[..|cs| - 1]);
      StepMatches(setup, company, b, cs[|cs| - 1], k);
    }
  }

  // -------------------------------------------------------- where approval has gaps

  /** Approving a suggested line strands a draft settlement exactly when the books do
      not allow it to be posted, and changes nothing else then. */
  lemma ApprovalStrandsIff(setup: Setup, company: Id, b: Book, k: nat)
    requires UsesStarterRules(setup, company) && LinesSound(setup, company, b)
    requires k < |b.lines| && b.lines[k].status == Suggested
    ensures b.lines[k].suggestion.Some?
    ensures var stranded := b.(office := Add(b.office, SettlementFor(b.lines[k])));
      && (Approve(setup, company, b, k).1 == stranded <==>
            !WillPost(setup, company, b.office.ledger.periods, SettlementFor(b.lines[k])))
      && (Approve(setup, company, b, k).0.Err? <==> Approve(setup, company, b, k).1 == stranded)
  {
    assert LineSound(b.office.docs, b.lines[k]);
    FinishIff(setup, company, b, k, b.lines[k]);
    if Approve(setup, company, b, k).0.Ok? {
      FinishBooks(setup, company, b, k, b.lines[k]);
    }
  }

  /** Such a draft can be posted on its own exactly when the books allow it by then, and
      moves the bank account by the line's amount without being matched to the line. */
  lemma StrandedDraftBooks(setup: Setup, company: Id, later: Office, i: nat, line: BankLine, account: nat)
    requires UsesStarterRules(setup, company) && OffControls(setup, company, account) && line.suggestion.Some?
    requires i < |later.docs| && later.docs[i] == Record(SettlementFor(line), Draft, None)
    requires Sign(line.suggestion.value.trade) * line.amount > 0
    ensures PostDoc(setup, company, later, i).Ok? <==>
      WillPost(setup, company, later.ledger.periods, SettlementFor(line))
    ensures PostDoc(setup, company, later, i).Ok? ==>
      Moves(PostDoc(setup, company, later, i).value.ledger.entries[|later.ledger.entries|], line, account)
  {
    SettlementPostsIff(setup, company, later, i);
    if PostDoc(setup, company, later, i).Ok? {
      PostedMoves(setup, company, later, i, line, account);
    }
  }

  /** Between reading the line and marking it, approval checks nothing again: one that
      read the line before another ran books the amount a second time exactly when the
      other did, and the line then names only the second entry. */
  lemma StaleApprovalBooksTwice(setup: Setup, company: Id, b: Book, k: nat, account: nat)
    requires UsesStarterRules(setup, company) && LinesSound(setup, company, b) && OffControls(setup, company, account)
    requires k < |b.lines| && b.lines[k].status == Suggested
    ensures b.lines[k].suggestion.Some?
    ensures var first := Approve(setup, company, b, k);
      var second := Finish(setup, company, first.1, k, b.lines[k]);
      && (second.0.Ok? <==> first.0.Ok?)
      && (second.0.Ok? ==>
            var n, entries := |b.office.ledger.entries|, second.1.office.ledger.entries;
            && |entries| == n + 2 && second.1.lines[k].matched == Some(n + 1)
            && Moves(entries[n], b.lines[k], account) && Moves(entries[n + 1], b.lines[k], account))
  {
    var n, line := |b.office.ledger.entries|, b.lines[k];
    assert LineSound(b.office.docs, line);
    var first := Approve(setup, company, b, k);
    FinishIff(setup, company, b, k, line);
    FinishShape(setup, company, b, k, line);
    assert LineSound(first.1.office.docs, line);
    FinishIff(setup, company, first.1, k, line);
    if first.0.Ok? {
      FinishBooks(setup, company, b, k, line);
      FinishBooks(setup, company, first.1, k, line);
      var entries := Finish(setup, company, first.1, k, line).1.office.ledger.entries;
      assert entries[n] == entries[..n + 1][n];
    }
  }
}
