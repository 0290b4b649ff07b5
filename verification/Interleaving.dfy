/** Concurrent journal transactions under read-committed isolation. Every
    transaction is split into the database operations it performs: a plain read
    of committed data, the status update that takes the entry's row lock and
    fires the trigger on the row as it is then, one locked increment per line,
    and commit or abort. A run is any sequence of such operations by any number
    of transactions; an operation that has to wait for a lock does nothing. */
module Interleaving {
  import opened Base
  import opened Sums
  import opened Money
  import opened Journal
  import opened Consistency
  import opened Transactions

  datatype Job =
    | Move(id: nat, from: Status, to: Status)
    | PostJob(id: nat)
    | ReverseJob(id: nat, period: nat, number: nat, date: int)
    | Insert(entry: Entry)

  datatype Phase = Started | Ready | Updated

  /** entry: whose lines are being counted; done: how many are; pending: the
      rows this transaction has locked, with the values it will commit. */
  datatype Tx = Tx(job: Job, phase: Phase, entry: Entry, done: nat, pending: map<Key, Row>)

  datatype Db = Db(entries: seq<Entry>, rows: map<Key, Row>, txs: map<nat, Tx>)

  datatype Op =
    | Begin(t: nat, job: Job)
    | Read(t: nat)
    | Update(t: nat)
    | Increment(t: nat)
    | CommitTx(t: nat)
    | Abort(t: nat)

  /** Stands for the entry a transaction has not read yet. */
  const UNREAD := Entry(Head("", 0, None), 0, 0, Draft, None, Manual, [])

  const EMPTY_DB := Db([], map[], map[])

  /** The transactions the services start: submit, approve, post, reverse, and
      the insertion of a draft or of an engine entry that is posted at once. */
  predicate Allowed(job: Job)
  {
    match job
    case Move(_, from, to) => (from == Draft && to == Submitted) || (from == Submitted && to == Approved)
    case PostJob(_) => true
    case ReverseJob(_, _, _, _) => true
    case Insert(e) => e.reversalOf.None? && (e.status == Draft || e.status == Posted)
  }

  function Target(job: Job): Option<nat>
  {
    if job.Insert? then None else Some(job.id)
  }

  function Expected(job: Job): Status
    requires !job.Insert?
  {
    match job case Move(_, from, _) => from case PostJob(_) => Approved case ReverseJob(_, _, _, _) => Posted
  }

  function NewStatus(job: Job): Status
    requires !job.Insert?
  {
    match job case Move(_, _, to) => to case PostJob(_) => Posted case ReverseJob(_, _, _, _) => Reversed
  }

  /** The lines a transaction still has to bring into the summary, in order. */
  function Counting(tx: Tx): seq<Line>
  {
    match tx.job
    case Move(_, _, _) => []
    case Insert(e) => if e.status == Posted then tx.entry.lines else []
    case _ => tx.entry.lines
  }

  function MirrorOf(e: Entry, job: Job): Entry
    requires job.ReverseJob?
  {
    Entry(e.head.(period := job.period), job.number, job.date, Posted, Some(job.id), e.origin, Mirror(e.lines))
  }

  function Snapshot(e: Entry, job: Job): Entry
  {
    if job.ReverseJob? then MirrorOf(e, job) else e
  }

  /** No other transaction has updated the same entry and not finished yet. */
  ghost predicate EntryFree(db: Db, t: nat, id: nat)
  {
    forall u :: u in db.txs && u != t && db.txs[u].phase == Updated ==> Target(db.txs[u].job) != Some(id)
  }

  /** No other transaction has incremented the same row and not finished yet. */
  ghost predicate RowFree(db: Db, t: nat, k: Key)
  {
    forall u :: u in db.txs && u != t ==> k !in db.txs[u].pending
  }

  function CommitEntries(entries: seq<Entry>, tx: Tx): seq<Entry>
  {
    match tx.job
    case Insert(e) => entries + [e]
    case ReverseJob(id, _, _, _) =>
      if id < |entries| then Reversing(entries, id, tx.entry) else entries
    case _ =>
      if tx.job.id < |entries| then entries[tx.job.id := entries[tx.job.id].(status := NewStatus(tx.job))] else entries
  }

  function IncrementTx(db: Db, tx: Tx): Tx
    requires tx.done < |Counting(tx)|
  {
    var l := Counting(tx)[tx.done];
    var k := KeyOf(tx.entry.head, l);
    var base := if k in tx.pending then tx.pending else db.rows;
    tx.(done := tx.done + 1,
        pending := tx.pending[k := Row(RowPart(base, k, Debit) + l.debit, RowPart(base, k, Credit) + l.credit)])
  }

  /** One operation. accepts is the trigger that decides each status update. */
  ghost function Apply(accepts: (Status, Status) -> bool, db: Db, op: Op): Db
  {
    if op.Begin? then
      if op.t in db.txs || !Allowed(op.job) then db
      else if op.job.Insert? then db.(txs := db.txs[op.t := Tx(op.job, Updated, op.job.entry, 0, map[])])
      else db.(txs := db.txs[op.t := Tx(op.job, Started, UNREAD, 0, map[])])
    else if op.t !in db.txs then db
    else
      var tx := db.txs[op.t];
      match op
      case Read(t) =>
        if tx.phase != Started || tx.job.Insert? then db
        else if tx.job.id < |db.entries| && db.entries[tx.job.id].status == Expected(tx.job) then
          db.(txs := db.txs[t := tx.(phase := Ready, entry := Snapshot(db.entries[tx.job.id], tx.job))])
        else db.(txs := db.txs - {t})
      case Update(t) =>
        if tx.phase != Ready || tx.job.Insert? || tx.job.id >= |db.entries| || !EntryFree(db, t, tx.job.id) then db
        else if accepts(db.entries[tx.job.id].status, NewStatus(tx.job)) then
          db.(txs := db.txs[t := tx.(phase := Updated)])
        else db.(txs := db.txs - {t})
      case Increment(t) =>
        if tx.phase != Updated || tx.done >= |Counting(tx)|
           || !RowFree(db, t, KeyOf(tx.entry.head, Counting(tx)[tx.done])) then db
        else db.(txs := db.txs[t := IncrementTx(db, tx)])
      case CommitTx(t) =>
        if tx.phase != Updated || tx.done != |Counting(tx)| then db
        else Db(CommitEntries(db.entries, tx), db.rows + tx.pending, db.txs - {t})
      case Abort(t) => db.(txs := db.txs - {t})
      case _ => db
  }

  ghost function RunOps(accepts: (Status, Status) -> bool, ops: seq<Op>): Db
  {
    if ops == [] then EMPTY_DB
    else Apply(accepts, RunOps(accepts, ops[..|ops| - 1]), ops[|ops| - 1])
  }

  /** The trigger of the final migration, as a first-class decision. */
  function Trigger(): (Status, Status) -> bool
  {
    (was: Status, becomes: Status) => TriggerAccepts(was, becomes)
  }

  // -------------------------------------------------------------- invariants

  /** What a transaction has read and updated is still true of the committed data. */
  predicate TargetOk(entries: seq<Entry>, tx: Tx)
  {
    && Allowed(tx.job)
    && (tx.job.Insert? ==> tx.phase == Updated && tx.entry == tx.job.entry)
    && (!tx.job.Insert? && tx.phase != Started ==>
          && tx.job.id < |entries|
          && (var e := entries[tx.job.id];
              && (tx.job.PostJob? ==> tx.entry.head == e.head && tx.entry.lines == e.lines)
              && (tx.job.ReverseJob? ==> Counted(e.status) && tx.entry == MirrorOf(e, tx.job))
              && (tx.phase == Updated ==> if tx.job.ReverseJob? then e.status == Posted else !Counted(e.status))))
  }

  /** A locked row holds the committed value plus this transaction's increments so far. */
  ghost predicate PendingOk(rows: map<Key, Row>, tx: Tx)
  {
    && tx.done <= |Counting(tx)|
    && (tx.phase != Updated ==> tx.done == 0 && tx.pending == map[])
    && (forall i :: 0 <= i < tx.done ==> KeyOf(tx.entry.head, Counting(tx)[i]) in tx.pending)
    && (forall k, s :: k in tx.pending ==>
          RowPart(tx.pending, k, s)
            == RowPart(rows, k, s) + Sum(Counting(tx)[..tx.done], LinePart(tx.entry.head, Only(k), s)))
  }

  ghost predicate Isolated(txs: map<nat, Tx>)
  {
    forall t, u :: t in txs && u in txs && t != u ==>
      && txs[t].pending.Keys !! txs[u].pending.Keys
      && (txs[t].phase == Updated && txs[u].phase == Updated && !txs[t].job.Insert? ==>
            Target(txs[t].job) != Target(txs[u].job))
  }

  ghost predicate Safe(db: Db)
  {
    && Agrees(db.entries, db.rows)
    && RowsCover(db.entries, db.rows)
    && Linked(db.entries)
    && Isolated(db.txs)
    && (forall t :: t in db.txs ==> TargetOk(db.entries, db.txs[t]) && PendingOk(db.rows, db.txs[t]))
  }

  // ------------------------------------------------------------------ commit

  /** Committing the locked rows adds exactly the transaction's lines to the summary. */
  lemma PendingAdds(rows: map<Key, Row>, tx: Tx, k: Key, s: Side)
    requires PendingOk(rows, tx) && tx.done == |Counting(tx)|
    ensures RowPart(rows + tx.pending, k, s)
         == RowPart(rows, k, s) + Sum(Counting(tx), LinePart(tx.entry.head, Only(k), s))
  {
    assert Counting(tx)[..tx.done] == Counting(tx);
    if k !in tx.pending {
      SumZero(Counting(tx), LinePart(tx.entry.head, Only(k), s));
    }
  }

  lemma ReversalTotal(entries: seq<Entry>, id: nat, r: Entry, p: Key -> bool, s: Side)
    requires id < |entries| && entries[id].status == Posted && r.status == Posted
    ensures JournalTotal(Reversing(entries, id, r), p, s)
         == JournalTotal(entries, p, s) + LinesTotal(r, p, s)
  {
    SumAppend(entries, r, EntryPart(p, s));
    StatusTotal(entries + [r], id, Reversed, p, s);
  }

  /** ... and the committed entries gain exactly the same lines. */
  lemma CommittedTotal(entries: seq<Entry>, tx: Tx, p: Key -> bool, s: Side)
    requires TargetOk(entries, tx) && tx.phase == Updated
    ensures JournalTotal(CommitEntries(entries, tx), p, s)
         == JournalTotal(entries, p, s) + Sum(Counting(tx), LinePart(tx.entry.head, p, s))
  {
    match tx.job {
      case Insert(e) =>
        SumAppend(entries, e, EntryPart(p, s));
      case ReverseJob(id, _, _, _) => ReversalTotal(entries, id, tx.entry, p, s);
      case Move(id, _, to) =>
        StatusTotal(entries, id, to, p, s);
      case PostJob(id) =>
        StatusTotal(entries, id, Posted, p, s);
    }
  }

  lemma CommitLinked(entries: seq<Entry>, tx: Tx)
    requires Linked(entries) && TargetOk(entries, tx) && tx.phase == Updated
    ensures Linked(CommitEntries(entries, tx))
  {
    match tx.job {
      case Insert(e) => AppendLinked(entries, e);
      case ReverseJob(id, _, _, _) => ReversalLinked(entries, id, tx.entry);
      case Move(id, _, to) => StatusLinked(entries, id, to);
      case PostJob(id) => StatusLinked(entries, id, Posted);
    }
  }

  lemma CommitCovers(entries: seq<Entry>, rows: map<Key, Row>, tx: Tx)
    requires RowsCover(entries, rows) && TargetOk(entries, tx) && tx.phase == Updated
    requires PendingOk(rows, tx) && tx.done == |Counting(tx)|
    ensures RowsCover(CommitEntries(entries, tx), rows + tx.pending)
  {
    var es := CommitEntries(entries, tx);
    forall j | 0 <= j < |es| && Counted(es[j].status)
      ensures HasRows(es[j], rows + tx.pending)
    {
      if j < |entries| && Counted(entries[j].status) {
        assert HasRows(entries[j], rows);
      } else {
        assert es[j].head == tx.entry.head && es[j].lines == Counting(tx);
      }
    }
  }

  lemma CommitAgrees(db: Db, tx: Tx)
    requires Agrees(db.entries, db.rows) && TargetOk(db.entries, tx) && tx.phase == Updated
    requires PendingOk(db.rows, tx) && tx.done == |Counting(tx)|
    ensures Agrees(CommitEntries(db.entries, tx), db.rows + tx.pending)
  {
    forall k: Key, s: Side
      ensures RowPart(db.rows + tx.pending, k, s) == JournalTotal(CommitEntries(db.entries, tx), Only(k), s)
    {
      PendingAdds(db.rows, tx, k, s);
      CommittedTotal(db.entries, tx, Only(k), s);
      assert RowPart(db.rows, k, s) == JournalTotal(db.entries, Only(k), s);
    }
  }

  /** A commit does not disturb what any other transaction relies on. */
  lemma CommitSparesTarget(db: Db, t: nat, u: nat)
    requires Safe(db) && t in db.txs && u in db.txs && t != u && db.txs[t].phase == Updated
    ensures TargetOk(CommitEntries(db.entries, db.txs[t]), db.txs[u])
  {
    assert TargetOk(db.entries, db.txs[t]) && TargetOk(db.entries, db.txs[u]);
  }

  lemma CommitSparesRows(rows: map<Key, Row>, pending: map<Key, Row>, ux: Tx)
    requires PendingOk(rows, ux) && pending.Keys !! ux.pending.Keys
    ensures PendingOk(rows + pending, ux)
  {
    forall k, s | k in ux.pending
      ensures RowPart(rows + pending, k, s) == RowPart(rows, k, s)
    {
      assert k !in pending;
    }
  }

  lemma CommitSafe(db: Db, t: nat)
    requires Safe(db) && t in db.txs && db.txs[t].phase == Updated && db.txs[t].done == |Counting(db.txs[t])|
    ensures Safe(Db(CommitEntries(db.entries, db.txs[t]), db.rows + db.txs[t].pending, db.txs - {t}))
  {
    var tx := db.txs[t];
    CommitAgrees(db, tx);
    CommitCovers(db.entries, db.rows, tx);
    CommitLinked(db.entries, tx);
    forall u | u in db.txs && u != t
      ensures TargetOk(CommitEntries(db.entries, tx), db.txs[u])
      ensures PendingOk(db.rows + tx.pending, db.txs[u])
    {
      CommitSparesTarget(db, t, u);
      CommitSparesRows(db.rows, tx.pending, db.txs[u]);
    }
  }

  // -------------------------------------------------------- other operations

  lemma IncrementOk(db: Db, tx: Tx)
    requires PendingOk(db.rows, tx) && tx.phase == Updated && tx.done < |Counting(tx)|
    ensures PendingOk(db.rows, IncrementTx(db, tx))
  {
    var tx2 := IncrementTx(db, tx);
    var c := Counting(tx);
    var l := c[tx.done];
    forall k, s | k in tx2.pending
      ensures RowPart(tx2.pending, k, s)
           == RowPart(db.rows, k, s) + Sum(c[..tx2.done], LinePart(tx.entry.head, Only(k), s))
    {
      SumPrefix(c, tx.done, LinePart(tx.entry.head, Only(k), s));
      if k !in tx.pending {
        SumZero(c[..tx.done], LinePart(tx.entry.head, Only(k), s));
      }
    }
  }

  /** Replacing one transaction by a sound, still isolated one keeps the state safe. */
  lemma ReplaceSafe(db: Db, t: nat, tx: Tx)
    requires Safe(db) && TargetOk(db.entries, tx) && PendingOk(db.rows, tx)
    requires forall u :: u in db.txs && u != t ==>
      && tx.pending.Keys !! db.txs[u].pending.Keys
      && (tx.phase == Updated && db.txs[u].phase == Updated && !tx.job.Insert? ==>
            Target(tx.job) != Target(db.txs[u].job))
    ensures Safe(db.(txs := db.txs[t := tx]))
  {
  }

  lemma RemoveSafe(db: Db, t: nat)
    requires Safe(db)
    ensures Safe(db.(txs := db.txs - {t}))
  {
  }

  lemma ReadSafe(db: Db, t: nat)
    requires Safe(db) && t in db.txs
    ensures Safe(Apply(Trigger(), db, Read(t)))
  {
    var tx := db.txs[t];
    assert TargetOk(db.entries, tx) && PendingOk(db.rows, tx);
    if tx.phase == Started && !tx.job.Insert? {
      if tx.job.id < |db.entries| && db.entries[tx.job.id].status == Expected(tx.job) {
        ReplaceSafe(db, t, tx.(phase := Ready, entry := Snapshot(db.entries[tx.job.id], tx.job)));
      } else {
        RemoveSafe(db, t);
      }
    }
  }

  lemma UpdateSafe(db: Db, t: nat)
    requires Safe(db) && t in db.txs
    ensures Safe(Apply(Trigger(), db, Update(t)))
  {
    var tx := db.txs[t];
    assert TargetOk(db.entries, tx) && PendingOk(db.rows, tx);
    if tx.phase == Ready && !tx.job.Insert? && EntryFree(db, t, tx.job.id) {
      if TriggerAccepts(db.entries[tx.job.id].status, NewStatus(tx.job)) {
        ReplaceSafe(db, t, tx.(phase := Updated));
      } else {
        RemoveSafe(db, t);
      }
    }
  }

  lemma IncrementSafe(db: Db, t: nat)
    requires Safe(db) && t in db.txs
    ensures Safe(Apply(Trigger(), db, Increment(t)))
  {
    var tx := db.txs[t];
    if Apply(Trigger(), db, Increment(t)) != db {
      assert TargetOk(db.entries, tx) && PendingOk(db.rows, tx);
      IncrementOk(db, tx);
      ReplaceSafe(db, t, IncrementTx(db, tx));
    }
  }

  /** Every operation, in whatever order operations arrive, keeps the state safe. */
  lemma ApplySafe(db: Db, op: Op)
    requires Safe(db)
    ensures Safe(Apply(Trigger(), db, op))
  {
    var db2 := Apply(Trigger(), db, op);
    if op.Begin? {
      if db2 != db {
        ReplaceSafe(db, op.t, db2.txs[op.t]);
      }
    } else if op.t in db.txs {
      match op {
        case Begin(_, _) =>
        case Read(t) => ReadSafe(db, t);
        case Update(t) => UpdateSafe(db, t);
        case Increment(t) => IncrementSafe(db, t);
        case CommitTx(t) =>
          if db.txs[t].phase == Updated && db.txs[t].done == |Counting(db.txs[t])| {
            CommitSafe(db, t);
          }
        case Abort(t) => RemoveSafe(db, t);
      }
    }
  }

  lemma {:induction false} RunSafe(ops: seq<Op>)
    ensures Safe(RunOps(Trigger(), ops))
  {
    if ops != [] {
      RunSafe(ops[..|ops| - 1]);
      ApplySafe(RunOps(Trigger(), ops[..|ops| - 1]), ops[|ops| - 1]);
    }
  }

  // ---------------------------------------------------------------- theorems

  /** In every interleaving an entry has at most one committed reversal, and it
      has one exactly when its status says so. */
  lemma ReversedAtMostOnce(ops: seq<Op>)
    ensures var es := RunOps(Trigger(), ops).entries;
      && (forall i, j :: 0 <= i < j < |es| && es[i].reversalOf.Some? ==> es[i].reversalOf != es[j].reversalOf)
      && (forall j :: 0 <= j < |es| ==> (es[j].status == Reversed <==> exists i :: Reverses(es, i, j)))
  {
    RunSafe(ops);
  }

  /** In every interleaving the committed summary holds each counted line exactly once, in
      the row with the line's own company, period, account and dimensions. */
  lemma CountedExactlyOnce(ops: seq<Op>, k: Key)
    ensures var db := RunOps(Trigger(), ops);
      var debits, credits := Sum(db.entries, EntryOn(k, Debit)), Sum(db.entries, EntryOn(k, Credit));
      if k in db.rows then db.rows[k].debitTotal == debits && db.rows[k].creditTotal == credits
      else debits == 0 == credits
  {
    RunSafe(ops);
    RowIsFields(RunOps(Trigger(), ops).entries, RunOps(Trigger(), ops).rows, k);
  }

  /** Committed history: no operation changes an entry except its status, and a
      posted or reversed entry can only go from posted to reversed. */
  lemma HistoryIsKept(ops: seq<Op>, op: Op, i: nat)
    requires i < |RunOps(Trigger(), ops).entries|
    ensures var was, now := RunOps(Trigger(), ops).entries, Apply(Trigger(), RunOps(Trigger(), ops), op).entries;
      && i < |now| && now[i] == was[i].(status := now[i].status)
      && (Counted(was[i].status) ==>
            now[i].status == was[i].status || (was[i].status == Posted && now[i].status == Reversed))
  {
    RunSafe(ops);
    var db := RunOps(Trigger(), ops);
    if op.CommitTx? && op.t in db.txs {
      assert TargetOk(db.entries, db.txs[op.t]);
    }
  }

  /** A workflow step commits one step forward exactly when nobody has moved the
      entry since it was read; otherwise it silently overwrites their status. */
  lemma MoveIsForwardIff(ops: seq<Op>, t: nat)
    requires var db := RunOps(Trigger(), ops); t in db.txs && db.txs[t].job.Move? && db.txs[t].phase == Updated
    ensures var db := RunOps(Trigger(), ops);
      var job := db.txs[t].job;
      var now := Apply(Trigger(), db, CommitTx(t)).entries;
      && job.id < |db.entries| == |now| && now[job.id].status == job.to
      && (Rank(now[job.id].status) == Rank(db.entries[job.id].status) + 1 <==> db.entries[job.id].status == job.from)
  {
    RunSafe(ops);
    var db := RunOps(Trigger(), ops);
    assert TargetOk(db.entries, db.txs[t]) && PendingOk(db.rows, db.txs[t]);
  }

  /** A post commits one step forward exactly when it finds its entry still approved;
      the trigger lets it through from every status before posting. */
  lemma PostIsForwardIff(ops: seq<Op>, t: nat)
    requires var db := RunOps(Trigger(), ops);
      t in db.txs && db.txs[t].job.PostJob? && db.txs[t].phase == Updated && db.txs[t].done == |Counting(db.txs[t])|
    ensures var db := RunOps(Trigger(), ops);
      var id := db.txs[t].job.id;
      var now := Apply(Trigger(), db, CommitTx(t)).entries;
      && id < |db.entries| == |now| && now[id] == db.entries[id].(status := Posted)
      && !Counted(db.entries[id].status)
      && (Rank(now[id].status) == Rank(db.entries[id].status) + 1 <==> db.entries[id].status == Approved)
  {
    RunSafe(ops);
    var db := RunOps(Trigger(), ops);
    assert TargetOk(db.entries, db.txs[t]) && PendingOk(db.rows, db.txs[t]);
  }

  /** A committed reversal is the mirror of its entry as committed, in the period, with the
      number and on the date the transaction was given, and marks that entry alone. */
  lemma ReversalCommits(ops: seq<Op>, t: nat)
    requires var db := RunOps(Trigger(), ops);
      t in db.txs && db.txs[t].job.ReverseJob? && db.txs[t].phase == Updated && db.txs[t].done == |Counting(db.txs[t])|
    ensures var db := RunOps(Trigger(), ops);
      var (job, now) := (db.txs[t].job, Apply(Trigger(), db, CommitTx(t)));
      && AddsAndMarks(db.entries, now.entries, job.id, Reversed) && t !in now.txs
      && var (was, r) := (db.entries[job.id], now.entries[|db.entries|]);
        && was.status == Posted
        && r.head == Head(was.head.company, job.period, was.head.branch) && r.number == job.number && r.date == job.date
        && r.status == Posted && r.reversalOf == Some(job.id) && r.origin == was.origin
        && |r.lines| == |was.lines|
        && forall i :: 0 <= i < |r.lines| ==>
             r.lines[i] == was.lines[i].(debit := was.lines[i].credit, credit := was.lines[i].debit)
  {
    RunSafe(ops);
    var db := RunOps(Trigger(), ops);
    assert TargetOk(db.entries, db.txs[t]) && PendingOk(db.rows, db.txs[t]);
  }

  /** A transaction goes on after its read exactly when it finds the entry in the status its
      step starts from, and ends there otherwise. */
  lemma ReadIff(accepts: (Status, Status) -> bool, db: Db, t: nat)
    requires t in db.txs && db.txs[t].phase == Started && !db.txs[t].job.Insert?
    ensures var (job, now) := (db.txs[t].job, Apply(accepts, db, Read(t)));
      var start := if job.Move? then job.from else if job.PostJob? then Approved else Posted;
      && now.entries == db.entries && now.rows == db.rows
      && (t in now.txs <==> job.id < |db.entries| && db.entries[job.id].status == start)
      && (t in now.txs ==> now.txs[t].phase == Ready && now.txs[t].job == job)
  {
  }

  /** Its update waits for every other transaction that has updated the entry and not ended,
      and then goes through exactly when the trigger accepts the status as it is by then. */
  lemma UpdateIff(accepts: (Status, Status) -> bool, db: Db, t: nat)
    requires t in db.txs && db.txs[t].phase == Ready && !db.txs[t].job.Insert? && db.txs[t].job.id < |db.entries|
    ensures var (job, now) := (db.txs[t].job, Apply(accepts, db, Update(t)));
      var becomes := if job.Move? then job.to else if job.PostJob? then Posted else Reversed;
      if exists u :: u in db.txs && u != t && db.txs[u].phase == Updated && !db.txs[u].job.Insert?
                     && db.txs[u].job.id == job.id
      then now == db
      else
        && now.entries == db.entries && now.rows == db.rows
        && (t in now.txs <==> accepts(db.entries[job.id].status, becomes))
        && (t in now.txs ==> now.txs[t].phase == Updated)
  {
    if u :| u in db.txs && u != t && db.txs[u].phase == Updated && !db.txs[u].job.Insert?
            && db.txs[u].job.id == db.txs[t].job.id {
      assert !EntryFree(db, t, db.txs[t].job.id);
    }
  }

  /** A transaction commits exactly when it has updated its entry and counted all its lines. */
  lemma CommitIff(accepts: (Status, Status) -> bool, db: Db, t: nat)
    requires t in db.txs
    ensures t !in Apply(accepts, db, CommitTx(t)).txs <==>
      db.txs[t].phase == Updated && db.txs[t].done == |Counting(db.txs[t])|
    ensures t in Apply(accepts, db, CommitTx(t)).txs ==> Apply(accepts, db, CommitTx(t)) == db
  {
  }

  // --------------------------------------------------------------- witnesses

  lemma Then(accepts: (Status, Status) -> bool, ops: seq<Op>, op: Op)
    ensures RunOps(accepts, ops + [op]) == Apply(accepts, RunOps(accepts, ops), op)
  {
    assert (ops + [op])[..|ops|] == ops;
  }

  function Always(): (Status, Status) -> bool
  {
    (was: Status, becomes: Status) => true
  }

  const BLANK_ENTRY := Entry(Head("", 0, None), 0, 0, Posted, None, Manual, [])

  /** Two reversals that both read the entry while it was posted: t has updated it and not committed. */
  lemma BothRead(accepts: (Status, Status) -> bool) returns (ops: seq<Op>)
    requires accepts(Posted, Reversed)
    ensures var db := RunOps(accepts, ops);
      && db.entries == [BLANK_ENTRY] && 1 in db.txs && 2 in db.txs && db.txs.Keys == {1, 2} && db.rows == map[]
      && db.txs[1] == Tx(ReverseJob(0, 0, 1, 0), Updated, MirrorOf(BLANK_ENTRY, ReverseJob(0, 0, 1, 0)), 0, map[])
      && db.txs[2] == Tx(ReverseJob(0, 0, 2, 0), Ready, MirrorOf(BLANK_ENTRY, ReverseJob(0, 0, 2, 0)), 0, map[])
  {
    var a := Insert(BLANK_ENTRY);
    var o1 := [Begin(0, a)];
    Then(accepts, [], Begin(0, a));
    assert [] + [Begin(0, a)] == o1;
    Then(accepts, o1, CommitTx(0));
    var o2 := o1 + [CommitTx(0)];
    assert RunOps(accepts, o2) == Db([BLANK_ENTRY], map[], map[]);
    Then(accepts, o2, Begin(1, ReverseJob(0, 0, 1, 0)));
    var o3 := o2 + [Begin(1, ReverseJob(0, 0, 1, 0))];
    Then(accepts, o3, Read(1));
    var o4 := o3 + [Read(1)];
    Then(accepts, o4, Begin(2, ReverseJob(0, 0, 2, 0)));
    var o5 := o4 + [Begin(2, ReverseJob(0, 0, 2, 0))];
    Then(accepts, o5, Read(2));
    var o6 := o5 + [Read(2)];
    Then(accepts, o6, Update(1));
    ops := o6 + [Update(1)];
  }

  /** The status check in the service alone is not enough: with a trigger that
      accepts everything, one entry can end up with two committed reversals. */
  lemma DoubleReversalWithoutTrigger() returns (ops: seq<Op>)
    ensures var es := RunOps(Always(), ops).entries;
      |es| == 3 && es[1].reversalOf == Some(0) && es[2].reversalOf == Some(0)
  {
    var o := BothRead(Always());
    Then(Always(), o, CommitTx(1));
    var o1 := o + [CommitTx(1)];
    Then(Always(), o1, Update(2));
    var o2 := o1 + [Update(2)];
    Then(Always(), o2, CommitTx(2));
    ops := o2 + [CommitTx(2)];
  }

  /** With the real trigger the same interleaving ends with the second one aborted. */
  lemma SecondReversalAborts() returns (ops: seq<Op>)
    ensures var db := RunOps(Trigger(), ops);
      |db.entries| == 2 && db.entries[1].reversalOf == Some(0) && db.txs == map[]
  {
    var o := BothRead(Trigger());
    Then(Trigger(), o, CommitTx(1));
    var o1 := o + [CommitTx(1)];
    Then(Trigger(), o1, Update(2));
    ops := o1 + [Update(2)];
  }

  lemma BeginDraft(draft: Entry)
    requires draft.status == Draft && draft.reversalOf.None?
    ensures RunOps(Trigger(), [Begin(0, Insert(draft))])
         == Db([], map[], map[0 := Tx(Insert(draft), Updated, draft, 0, map[])])
  {
    Then(Trigger(), [], Begin(0, Insert(draft)));
    assert [] + [Begin(0, Insert(draft))] == [Begin(0, Insert(draft))];
  }

  lemma CommitDraft(draft: Entry)
    requires draft.status == Draft
    ensures Apply(Trigger(), Db([], map[], map[0 := Tx(Insert(draft), Updated, draft, 0, map[])]), CommitTx(0))
         == Db([draft], map[], map[])
  {
  }

  lemma OneDraft() returns (ops: seq<Op>)
    ensures RunOps(Trigger(), ops) == Db([BLANK_ENTRY.(status := Draft)], map[], map[])
  {
    var draft := BLANK_ENTRY.(status := Draft);
    BeginDraft(draft);
    CommitDraft(draft);
    ops := [Begin(0, Insert(draft))];
    Then(Trigger(), ops, CommitTx(0));
    ops := ops + [CommitTx(0)];
  }

  /** A draft, and a submit that has read it and not updated it yet. */
  lemma SubmitRead() returns (ops: seq<Op>)
    ensures var db := RunOps(Trigger(), ops);
      && db.entries == [BLANK_ENTRY.(status := Draft)]
      && db.txs == map[1 := Tx(Move(0, Draft, Submitted), Ready, BLANK_ENTRY.(status := Draft), 0, map[])]
  {
    var o1 := OneDraft();
    ops := ReadyMove(o1, 1, Move(0, Draft, Submitted));
  }

  /** A submit that read the draft overwrites whatever workflow status the entry has by now. */
  lemma StaleSubmit(db: Db)
    requires |db.entries| == 1 && db.entries[0].status == Approved && 1 in db.txs
    requires db.txs[1].job == Move(0, Draft, Submitted) && db.txs[1].phase == Ready && db.txs[1].done == 0
    requires forall u :: u in db.txs ==> db.txs[u].phase != Updated
    ensures var now := Apply(Trigger(), Apply(Trigger(), db, Update(1)), CommitTx(1));
      now.entries == [db.entries[0].(status := Submitted)] && now.txs == db.txs - {1}
  {
    var mid := Apply(Trigger(), db, Update(1));
    assert mid == db.(txs := db.txs[1 := db.txs[1].(phase := Updated)]);
  }

  /** An approved entry, and the submit that read it as a draft. */
  lemma ApprovedMeanwhile() returns (ops: seq<Op>)
    ensures var db := RunOps(Trigger(), ops);
      && db.entries == [BLANK_ENTRY.(status := Approved)]
      && db.txs == map[1 := Tx(Move(0, Draft, Submitted), Ready, BLANK_ENTRY.(status := Draft), 0, map[])]
  {
    var o3 := SubmitRead();
    var o4 := RunMove(o3, 2, Move(0, Draft, Submitted));
    ops := RunMove(o4, 3, Move(0, Submitted, Approved));
  }

  /** Before posting there is no such protection: a stale submit can take an
      approved entry back to submitted. */
  lemma StaleSubmitMovesBack() returns (ops: seq<Op>)
    ensures RunOps(Trigger(), ops).entries == [BLANK_ENTRY.(status := Approved)]
    ensures RunOps(Trigger(), ops + [Update(1)] + [CommitTx(1)]).entries == [BLANK_ENTRY.(status := Submitted)]
  {
    ops := ApprovedMeanwhile();
    StaleSubmit(RunOps(Trigger(), ops));
    Then(Trigger(), ops, Update(1));
    Then(Trigger(), ops + [Update(1)], CommitTx(1));
  }

  lemma ReadyPost(ops: seq<Op>, t: nat) returns (r: seq<Op>)
    requires var db := RunOps(Trigger(), ops); t !in db.txs && |db.entries| == 1 && db.entries[0].status == Approved
    ensures var was := RunOps(Trigger(), ops);
      RunOps(Trigger(), r) == was.(txs := was.txs[t := Tx(PostJob(0), Ready, was.entries[0], 0, map[])])
  {
    Then(Trigger(), ops, Begin(t, PostJob(0)));
    var o1 := ops + [Begin(t, PostJob(0))];
    Then(Trigger(), o1, Read(t));
    r := o1 + [Read(t)];
    var was := RunOps(Trigger(), ops);
    assert RunOps(Trigger(), r).txs == was.txs[t := Tx(PostJob(0), Ready, was.entries[0], 0, map[])];
  }

  /** A post that read the approved entry posts it from whatever status it has by now. */
  lemma StalePost(db: Db, e: Entry)
    requires |db.entries| == 1 && db.entries[0].status == Submitted && e.lines == []
    requires db.txs == map[4 := Tx(PostJob(0), Ready, e, 0, map[])]
    ensures Apply(Trigger(), Apply(Trigger(), db, Update(4)), CommitTx(4)).entries == [db.entries[0].(status := Posted)]
  {
    var mid := Apply(Trigger(), db, Update(4));
    assert mid == db.(txs := map[4 := Tx(PostJob(0), Updated, e, 0, map[])]);
  }

  /** So an entry can be posted that is only submitted, when the submit that took it back
      commits between the post's read and its update. */
  lemma StalePostSkipsApproval() returns (ops: seq<Op>)
    ensures RunOps(Trigger(), ops).entries == [BLANK_ENTRY.(status := Submitted)]
    ensures RunOps(Trigger(), ops + [Update(4)] + [CommitTx(4)]).entries == [BLANK_ENTRY.(status := Posted)]
  {
    var o5 := ApprovedMeanwhile();
    var o6 := ReadyPost(o5, 4);
    StaleSubmit(RunOps(Trigger(), o6));
    Then(Trigger(), o6, Update(1));
    Then(Trigger(), o6 + [Update(1)], CommitTx(1));
    ops := o6 + [Update(1)] + [CommitTx(1)];
    var e := BLANK_ENTRY.(status := Approved);
    assert RunOps(Trigger(), ops).txs == map[4 := Tx(PostJob(0), Ready, e, 0, map[])];
    StalePost(RunOps(Trigger(), ops), e);
    Then(Trigger(), ops, Update(4));
    Then(Trigger(), ops + [Update(4)], CommitTx(4));
  }

  lemma ReadyMove(ops: seq<Op>, t: nat, job: Job) returns (r: seq<Op>)
    requires job.Move? && Allowed(job)
    requires var db := RunOps(Trigger(), ops);
      t !in db.txs && |db.entries| == 1 && job.id == 0 && db.entries[0].status == job.from
    ensures var was := RunOps(Trigger(), ops);
      RunOps(Trigger(), r) == was.(txs := was.txs[t := Tx(job, Ready, was.entries[0], 0, map[])])
  {
    Then(Trigger(), ops, Begin(t, job));
    var o1 := ops + [Begin(t, job)];
    Then(Trigger(), o1, Read(t));
    r := o1 + [Read(t)];
    var was := RunOps(Trigger(), ops);
    assert RunOps(Trigger(), r).txs == was.txs[t := Tx(job, Ready, was.entries[0], 0, map[])];
  }

  /** A workflow step run from begin to commit with no other update in progress. */
  lemma RunMove(ops: seq<Op>, t: nat, job: Job) returns (r: seq<Op>)
    requires job.Move? && Allowed(job)
    requires var db := RunOps(Trigger(), ops);
      && t !in db.txs && |db.entries| == 1 && job.id == 0 && db.entries[0].status == job.from
      && forall u :: u in db.txs ==> db.txs[u].phase != Updated
    ensures var was, now := RunOps(Trigger(), ops), RunOps(Trigger(), r);
      now.entries == [was.entries[0].(status := job.to)] && now.txs == was.txs
  {
    var was := RunOps(Trigger(), ops);
    var o2 := ReadyMove(ops, t, job);
    Then(Trigger(), o2, Update(t));
    var o3 := o2 + [Update(t)];
    Then(Trigger(), o3, CommitTx(t));
    r := o3 + [CommitTx(t)];
    assert was.txs[t := Tx(job, Updated, was.entries[0], 0, map[])] - {t} == was.txs;
  }
}
