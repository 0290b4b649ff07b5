/** The matching engine and the bank statement service in the form the program gives
    them: loops over invoices and lines, and lines updated in place. */
module BankDesk {
  import opened Base
  import opened Sums
  import opened Money
  import opened Journal
  import opened GeneralLedger
  import opened Starter
  import opened Subledger
  import opened TieOut
  import opened Banking
  import OfficeDesk

  /** The loop of suggestReceipt() and suggestPayment(): a strictly better score replaces
      the best so far. */
  method FindMatch(docs: seq<Record>, trade: Trade, amount: Cents, named: set<Id>) returns (s: Option<Suggestion>)
    ensures s == Candidate(docs, trade, amount, named)
  {
    s := None;
    var i := 0;
    while i < |docs|
      invariant i <= |docs| && s == Candidate(docs[..i], trade, amount, named)
    {
      CandidateNext(docs, i, trade, amount, named);
      var r := docs[i];
      if r.doc.Invoice? && r.doc.trade == trade && r.status == Posted {
        var outstanding := r.doc.total - r.doc.paid;
        if outstanding > 0 {
          var score := 0;
          if -1 < outstanding - amount < 1 {
            score := score + AMOUNT_MATCH_WEIGHT;
          }
          if r.doc.party in named {
            score := score + NAME_MATCH_WEIGHT;
          }
          if score > 0 && (s.None? || score > s.value.score) {
            s := Some(Suggestion(trade, r.doc.party, i, score));
          }
        }
      }
      i := i + 1;
    }
    assert docs[..i] == docs;
  }

  /** suggest(): the sign of the amount decides which invoices are looked at. */
  method FindSuggestion(docs: seq<Record>, amount: Cents, named: set<Id>) returns (s: Option<Suggestion>)
    ensures s == Suggest(docs, amount, named)
  {
    if amount > 0 {
      s := FindMatch(docs, Sales, amount, named);
    } else if amount < 0 {
      s := FindMatch(docs, Purchases, -amount, named);
    } else {
      s := None;
    }
  }

  /** Ignoring a line leaves what its account counts as matched. */
  lemma IgnoredStaysMatched(lines: seq<BankLine>, k: nat, account: nat)
    requires k < |lines|
    ensures Sum(lines[k := lines[k].(status := Ignored)], MatchedAmount(account)) == Sum(lines, MatchedAmount(account))
  {
    SumUpdate(lines, k, lines[k].(status := Ignored), MatchedAmount(account));
  }

  class BankStatements {
    const office: OfficeDesk.Desk
    var lines: seq<BankLine>

    function State(): Book
      reads this, office, office.engine
    {
      Book(office.State(), lines)
    }

    ghost predicate Valid()
      reads this, office, office.engine
    {
      && office.Valid() && UsesStarterRules(office.engine.setup, office.company)
      && LinesSound(office.engine.setup, office.company, State())
    }

    constructor (office: OfficeDesk.Desk)
      requires office.Valid() && UsesStarterRules(office.engine.setup, office.company)
      ensures Valid() && this.office == office && State() == Book(office.State(), [])
    {
      this.office := office;
      lines := [];
    }

    /** The loop of import(): every line is stored as unmatched, then marked when it has a
        suggestion. */
    method StoreLines(bank: nat, inputs: seq<Input>)
      modifies this`lines
      ensures lines == old(lines) + ImportAll(office.docs, bank, inputs)
    {
      var i := 0;
      while i < |inputs|
        invariant i <= |inputs| && lines == old(lines) + ImportAll(office.docs, bank, inputs[..i])
      {
        assert inputs[..i + 1][..i] == inputs[..i];
        var input := inputs[i];
        var line := BankLine(bank, input.date, input.amount, Unmatched, None, None);
        var s := FindSuggestion(office.docs, input.amount, input.named);
        if s.Some? {
          line := line.(status := Suggested, suggestion := s);
        }
        lines := lines + [line];
        i := i + 1;
      }
      assert inputs[..i] == inputs;
    }

    method Import(bank: nat, inputs: seq<Input>)
      requires Valid()
      modifies this`lines
      ensures Valid()
      ensures State() == StepBank(office.engine.setup, office.company, old(State()), BankCommand.Import(bank, inputs)).1
      ensures |lines| == |old(lines)| + |inputs| && lines[..|old(lines)|] == old(lines)
      ensures forall i :: 0 <= i < |inputs| ==> Stores(lines[|old(lines)| + i], office.docs, bank, inputs[i])
    {
      ImportSound(office.engine.setup, office.company, State(), bank, inputs);
      ImportStores(office.docs, bank, inputs);
      StoreLines(bank, inputs);
    }

    /** approveMatch(): reads the line, then creates and posts a settlement, then marks the line. */
    method ApproveMatch(k: nat) returns (r: Result<nat>)
      requires Valid()
      modifies this`lines, office`docs, office.engine
      ensures Valid()
      ensures (r, State()) == Approve(office.engine.setup, office.company, old(State()), k)
    {
      ghost var was := State();
      r := Complete(k);
      ApproveSound(office.engine.setup, office.company, was, k);
    }

    method Complete(k: nat) returns (r: Result<nat>)
      requires office.Valid()
      modifies this`lines, office`docs, office.engine
      ensures office.Valid()
      ensures (r, State()) == Approve(office.engine.setup, office.company, old(State()), k)
    {
      if k >= |lines| {
        return Err(NotFound);
      }
      var line := lines[k];
      if line.status != Suggested || line.suggestion.None? {
        return Err(WrongStatus);
      }
      var s := line.suggestion.value;
      ghost var was := State();
      var amount := if s.trade == Sales then line.amount else -line.amount;
      var created := office.CreateSettlement(s.trade, line.date, s.party, line.bank, [Allocation(s.invoice, amount)]);
      if created.Err? {
        return created;
      }
      assert Created(was, line) == Ok(office.State());
      var posted := office.Post(created.value);
      if posted.Err? {
        return posted;
      }
      lines := lines[k := lines[k].(status := Reconciled, matched := Some(posted.value))];
      r := Ok(k);
    }

    /** ignoreLine(): from any status. What the entries matched to lines move on any bank
        account, and what those lines add up to, stays as it was. */
    method IgnoreLine(k: nat) returns (r: Result<nat>)
      requires Valid()
      modifies this`lines
      ensures Valid()
      ensures r == if k < |old(lines)| then Ok(k) else Err(NotFound)
      ensures lines == if k < |old(lines)| then old(lines)[k := old(lines)[k].(status := Ignored)] else old(lines)
      ensures forall account: nat :: Sum(lines, MatchedAmount(account)) == Sum(old(lines), MatchedAmount(account))
      ensures forall account: nat :: OffControls(office.engine.setup, office.company, account) ==>
        Sum(lines, Movement(office.engine.entries, account)) == Sum(old(lines), MatchedAmount(account))
    {
      ghost var was := State();
      if k < |lines| {
        lines := lines[k := lines[k].(status := Ignored)];
        r := Ok(k);
      } else {
        r := Err(NotFound);
      }
      IgnoreSound(office.engine.setup, office.company, was, k);
      forall account: nat
        ensures Sum(lines, MatchedAmount(account)) == Sum(was.lines, MatchedAmount(account))
      {
        if k < |was.lines| {
          IgnoredStaysMatched(was.lines, k, account);
        }
      }
      forall account: nat | OffControls(office.engine.setup, office.company, account)
        ensures Sum(lines, Movement(office.engine.entries, account)) == Sum(was.lines, MatchedAmount(account))
      {
        SoundMovement(office.engine.setup, office.company, State(), account);
      }
    }
  }
}
