/** A small company on the starter set-up, taken by commands to a bank line that can be
    approved, and the two ways its approval goes wrong. */
module BankingExample {
  import opened Base
  import opened Sums
  import opened Money
  import opened Journal
  import opened Starter
  import opened Posting
  import opened Subledger
  import opened TieOut
  import opened Banking

  const COMPANY: Id := "acme"

  /** Index of "Bank — Default" in the starter chart. */
  const BANK: nat := 4

  /** The starter rules for sales and receipts, their control accounts, and a bank account. */
  predicate Ready(setup: Setup)
  {
    && UsesStarterRules(setup, COMPANY)
    && (COMPANY, SalesInvoicePosted) in setup.rules && (COMPANY, CustomerReceiptPosted) in setup.rules
    && FindControl(setup.chart, COMPANY, AR).Some? && FindControl(setup.chart, COMPANY, SalesRevenue).Some?
    && BANK < |setup.chart| && setup.chart[BANK].company == COMPANY && OffControls(setup, COMPANY, BANK)
  }

  lemma StarterBank()
    ensures var chart := StarterChart(COMPANY);
      BANK < |chart| && chart[BANK].company == COMPANY && chart[BANK].control == Some(Journal.Bank)
  {
  }

  lemma StarterControl(control: Control)
    requires control == AR || control == SalesRevenue
    ensures FindControl(StarterChart(COMPANY), COMPANY, control).Some?
  {
    assert [] + StarterChart(COMPANY) == StarterChart(COMPANY);
    StarterRulesResolve([], COMPANY, SalesInvoicePosted, if control == AR then 0 else 1);
  }

  /** A company provisioned first is ready. */
  lemma ProvisionedIsReady(setup: Setup)
    requires setup.chart == StarterChart(COMPANY)
    requires forall kind: EventType ::
      (COMPANY, kind) in setup.rules && setup.rules[(COMPANY, kind)] == Rule(true, StarterLines(kind))
    ensures Ready(setup)
  {
    StarterBank();
    StarterControl(AR);
    StarterControl(SalesRevenue);
  }

  const JANUARY := Period(COMPANY, 0, 30, Open)

  const SALE := Invoice(Sales, 3, "customer", 100, 0, 100, 0)

  /** Open January, bill one customer 1.00, and import a statement with 1.00 received. */
  const SELL := [InOffice(Books(DoAddPeriods([JANUARY]))), InOffice(AddInvoice(Sales, 3, "customer", 100, 0)),
                 InOffice(SubmitInvoice(0)), InOffice(ApproveInvoice(0)), InOffice(DoPostDoc(0))]

  const LINE := BankLine(BANK, 5, 100, Suggested, Some(Suggestion(Sales, "customer", 0, 70)), None)

  lemma Then(setup: Setup, cs: seq<BankCommand>, c: BankCommand)
    ensures RunBank(setup, COMPANY, cs + [c]) == StepBank(setup, COMPANY, RunBank(setup, COMPANY, cs), c).1
  {
    assert (cs + [c])[..|cs|] == cs;
  }

  lemma SaleRule(e: Event)
    requires e.kind == SalesInvoicePosted
    requires AmountOf(e, Total) == 100.0 && AmountOf(e, Subtotal) == 100.0 && AmountOf(e, TaxAmount) == 0.0
    ensures RawNet(e, StarterLines(e.kind)) == 0.0
  {
    var ls := StarterLines(e.kind);
    assert ls[..2] == [ls[0], ls[1]] && ls[..2][..1] == [ls[0]] && [ls[0]][..0] == [];
    assert RawNet(e, ls) == RawNet(e, ls[..2]) - AmountOf(e, TaxAmount);
    assert RawNet(e, ls[..2]) == RawNet(e, [ls[0]]) - AmountOf(e, Subtotal);
    assert RawNet(e, [ls[0]]) == RawNet(e, []) + AmountOf(e, Total);
  }

  /** The approved sale can be posted. */
  lemma SalePosts(setup: Setup, led: Ledger)
    requires Ready(setup) && led.periods == [JANUARY]
    ensures EventEntry(setup, led, EventOf(COMPANY, 0, SALE)).Ok?
  {
    var e := EventOf(COMPANY, 0, SALE);
    EventPostsIff(setup, led, e);
    assert Covers(led.periods[0], COMPANY, e.date);
    SaleRule(e);
  }

  lemma SaleDrafted(setup: Setup)
    requires Ready(setup)
    ensures RunBank(setup, COMPANY, SELL[..2])
         == Book(Office([Record(SALE, Draft, None)], EMPTY_LEDGER.(periods := [JANUARY])), [])
  {
    Then(setup, [], SELL[0]);
    Then(setup, [SELL[0]], SELL[1]);
    assert [] + [SELL[0]] == [SELL[0]] && SELL[..2] == [SELL[0]] + [SELL[1]];
  }

  lemma SaleApproved(setup: Setup)
    requires Ready(setup)
    ensures RunBank(setup, COMPANY, SELL[..4])
         == Book(Office([Record(SALE, Approved, None)], EMPTY_LEDGER.(periods := [JANUARY])), [])
  {
    SaleDrafted(setup);
    Then(setup, SELL[..2], SELL[2]);
    Then(setup, SELL[..3], SELL[3]);
    assert SELL[..3] == SELL[..2] + [SELL[2]] && SELL[..4] == SELL[..3] + [SELL[3]];
  }

  lemma SalePosted(setup: Setup)
    requires Ready(setup)
    ensures var b := RunBank(setup, COMPANY, SELL);
      && b.lines == [] && b.office.docs == [Record(SALE, Posted, Some(0))] && b.office.ledger.periods == [JANUARY]
  {
    SaleApproved(setup);
    Then(setup, SELL[..4], SELL[4]);
    assert SELL == SELL[..4] + [SELL[4]];
    SalePosts(setup, EMPTY_LEDGER.(periods := [JANUARY]));
  }

  const IMPORTED := SELL + [Import(BANK, [Input(5, 100, {})])]

  /** The statement line is suggested for the invoice, on the amount alone. */
  lemma Matched(setup: Setup)
    requires Ready(setup)
    ensures var b := RunBank(setup, COMPANY, IMPORTED);
      && b.lines == [LINE] && b.office.docs == [Record(SALE, Posted, Some(0))] && b.office.ledger.periods == [JANUARY]
  {
    SalePosted(setup);
    Then(setup, SELL, Import(BANK, [Input(5, 100, {})]));
    var docs := [Record(SALE, Posted, Some(0))];
    assert Score(docs[0], Sales, 100, {}) == 70;
    assert BestMatch(docs, Sales, 100, {}) == Some(0);
  }

  /** The receipt for the line can be posted while January is open, and not once it is closed. */
  lemma ReceiptPostsIff(setup: Setup, periods: seq<Period>)
    requires Ready(setup) && |periods| == 1 && periods[0].(status := Open) == JANUARY
    ensures WillPost(setup, COMPANY, periods, SettlementFor(LINE)) <==> periods[0].status == Open
  {
    assert Covers(periods[0], COMPANY, 5);
  }

  /** In that book two approvals that both read the line first book the 1.00 twice. */
  lemma BookedTwice(setup: Setup)
    requires Ready(setup)
    ensures var b := RunBank(setup, COMPANY, IMPORTED);
      && b.lines == [LINE] && Approve(setup, COMPANY, b, 0).0.Ok?
      && Finish(setup, COMPANY, Approve(setup, COMPANY, b, 0).1, 0, LINE).0.Ok?
  {
    var b := RunBank(setup, COMPANY, IMPORTED);
    Matched(setup);
    RunSound(setup, COMPANY, IMPORTED);
    ReceiptPostsIff(setup, b.office.ledger.periods);
    ApprovalStrandsIff(setup, COMPANY, b, 0);
    StaleApprovalBooksTwice(setup, COMPANY, b, 0, BANK);
  }

  const CLOSED := IMPORTED + [InOffice(Books(DoSetPeriod(0, Closed)))]

  lemma CloseFirst(setup: Setup, b: Book)
    requires b.office.ledger.periods == [JANUARY]
    ensures var now := StepBank(setup, COMPANY, b, InOffice(Books(DoSetPeriod(0, Closed)))).1;
      now.lines == b.lines && now.office.ledger.periods == [JANUARY.(status := Closed)]
  {
  }

  lemma ClosedBook(setup: Setup)
    requires Ready(setup)
    ensures var b := RunBank(setup, COMPANY, CLOSED);
      b.lines == [LINE] && b.office.ledger.periods == [JANUARY.(status := Closed)]
  {
    Matched(setup);
    var b := RunBank(setup, COMPANY, IMPORTED);
    Then(setup, IMPORTED, InOffice(Books(DoSetPeriod(0, Closed))));
    CloseFirst(setup, b);
  }

  /** Once January is closed, approving the line strands a draft receipt. */
  lemma DraftStranded(setup: Setup)
    requires Ready(setup)
    ensures var b := RunBank(setup, COMPANY, CLOSED);
      && b.lines == [LINE] && Approve(setup, COMPANY, b, 0).0.Err?
      && Approve(setup, COMPANY, b, 0).1 == b.(office := Add(b.office, SettlementFor(LINE)))
  {
    var b := RunBank(setup, COMPANY, CLOSED);
    ClosedBook(setup);
    RunSound(setup, COMPANY, CLOSED);
    ReceiptPostsIff(setup, b.office.ledger.periods);
    ApprovalStrandsIff(setup, COMPANY, b, 0);
  }
}
