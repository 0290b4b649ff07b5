/** Document numbering: the row-locked counter, any interleaving of the
    transactions that use it, and the rendered numbers. */
module Numbering {
  import opened Base

  // ------------------------------------------------------------- rendering

  function Digit(d: nat): char
    requires d < 10
  {
    ['0', '1', '2', '3', '4', '5', '6', '7', '8', '9'][d]
  }

  /** n in decimal, without leading zeros. */
  function Decimal(n: nat): string
  {
    if n < 10 then [Digit(n)] else Decimal(n / 10) + [Digit(n % 10)]
  }

  function Zeros(n: nat): string
  {
    if n == 0 then "" else Zeros(n - 1) + "0"
  }

  /** padStart(6, '0'): at least six digits, more when the number needs them. */
  function Padded(n: nat): string
  {
    var s := Decimal(n);
    if |s| < 6 then Zeros(6 - |s|) + s else s
  }

  function Render(prefix: string, n: nat): string
  {
    prefix + Padded(n)
  }

  function DigitValue(c: char): nat
  {
    if '0' <= c <= '9' then c as int - '0' as int else 0
  }

  /** Reads a decimal string back. */
  function Value(s: string): nat
  {
    if s == "" then 0 else 10 * Value(s[..|s| - 1]) + DigitValue(s[|s| - 1])
  }

  lemma {:induction false} ValueOfDecimal(n: nat)
    ensures Value(Decimal(n)) == n
  {
    if n >= 10 {
      ValueOfDecimal(n / 10);
      var s := Decimal(n);
      assert s[..|s| - 1] == Decimal(n / 10);
    }
  }

  lemma {:induction false} LeadingZeros(z: nat, s: string)
    ensures Value(Zeros(z) + s) == Value(s)
  {
    if s == "" {
      assert Zeros(z) + s == Zeros(z);
      if z > 0 {
        LeadingZeros(z - 1, "");
        assert Zeros(z - 1) + "" == Zeros(z - 1);
        assert Zeros(z)[..|Zeros(z)| - 1] == Zeros(z - 1);
      }
    } else {
      var t := Zeros(z) + s;
      assert t[..|t| - 1] == Zeros(z) + s[..|s| - 1];
      LeadingZeros(z, s[..|s| - 1]);
    }
  }

  /** Reading a padded number gives the number back. */
  lemma ValueOfPadded(n: nat)
    ensures Value(Padded(n)) == n
  {
    ValueOfDecimal(n);
    if |Decimal(n)| < 6 {
      LeadingZeros(6 - |Decimal(n)|, Decimal(n));
    }
  }

  /** Different numbers of one document type are rendered differently, past six digits too. */
  lemma RenderInjective(prefix: string, m: nat, n: nat)
    ensures Render(prefix, m) == Render(prefix, n) <==> m == n
  {
    ValueOfPadded(m);
    ValueOfPadded(n);
    assert Render(prefix, m)[|prefix|..] == Padded(m);
    assert Render(prefix, n)[|prefix|..] == Padded(n);
  }

  function Pow10(k: nat): nat
  {
    if k == 0 then 1 else 10 * Pow10(k - 1)
  }

  predicate AllDigits(s: string)
  {
    forall i :: 0 <= i < |s| ==> '0' <= s[i] <= '9'
  }

  /** As many digits as the number needs, the first of them not zero. */
  lemma {:induction false} DecimalDigits(n: nat, k: nat)
    requires k >= 1
    ensures |Decimal(n)| <= k <==> n < Pow10(k)
    ensures AllDigits(Decimal(n)) && |Decimal(n)| >= 1 && (n > 0 ==> Decimal(n)[0] != '0')
  {
    if n >= 10 {
      DecimalDigits(n / 10, if k == 1 then 1 else k - 1);
      assert n < 10 * Pow10(k - 1) <==> n / 10 < Pow10(k - 1);
    } else {
      assert Pow10(k) == 10 * Pow10(k - 1);
      PowPositive(k - 1);
    }
  }

  lemma {:induction false} PowPositive(k: nat)
    ensures Pow10(k) >= 1
  {
    if k > 0 {
      PowPositive(k - 1);
    }
  }

  lemma {:induction false} ZerosAre(n: nat)
    ensures |Zeros(n)| == n && forall i :: 0 <= i < n ==> Zeros(n)[i] == '0'
  {
    if n > 0 {
      ZerosAre(n - 1);
    }
  }

  lemma MillionIs()
    ensures Pow10(6) == 1_000_000
  {
    assert Pow10(1) == 10 && Pow10(2) == 100;
    assert Pow10(3) == 1_000 && Pow10(4) == 10_000;
    assert Pow10(5) == 100_000;
  }

  lemma DigitsConcat(a: string, b: string)
    requires AllDigits(a) && AllDigits(b)
    ensures AllDigits(a + b)
  {
  }

  lemma PaddedDigits(n: nat)
    requires AllDigits(Decimal(n)) && (n > 0 ==> Decimal(n)[0] != '0') && |Decimal(n)| >= 1
    ensures AllDigits(Padded(n))
    ensures if |Decimal(n)| <= 6 then |Padded(n)| == 6 else |Padded(n)| > 6 && Padded(n) == Decimal(n)
  {
    var s := Decimal(n);
    if |s| < 6 {
      ZerosAre(6 - |s|);
      DigitsConcat(Zeros(6 - |s|), s);
    }
  }

  /** A rendered number is the prefix and decimal digits that read back as the number:
      exactly six of them below a million, and more without a leading zero from there on. */
  lemma RenderIs(prefix: string, n: nat)
    ensures Render(prefix, n) == prefix + Padded(n) && AllDigits(Padded(n)) && Value(Padded(n)) == n
    ensures if n < 1_000_000 then |Padded(n)| == 6 else |Padded(n)| > 6 && Padded(n)[0] != '0'
  {
    ValueOfPadded(n);
    DecimalDigits(n, 6);
    MillionIs();
    PaddedDigits(n);
  }

  // --------------------------------------------------------- the counter row

  /** One row of document_number_sequences. */
  datatype Series = Series(company: Id, docType: string)

  /** Issues the number a row holds and advances the row; a missing row is created
      with its first number already used. */
  method Issue<K(==)>(next: map<K, nat>, k: K) returns (n: nat, after: map<K, nat>)
    ensures n == (if k in next then next[k] else 1) && after == next[k := n + 1]
  {
    if k !in next {
      n := 1;
      after := next[k := 2];
    } else {
      n := next[k];
      after := next[k := next[k] + 1];
    }
  }

  class NumberingService {
    var next: map<Series, nat>

    constructor ()
      ensures next == map[]
    {
      next := map[];
    }

    /** next(): the issued number, rendered with the prefix. */
    method Next(s: Series, prefix: string) returns (number: string)
      modifies this
      ensures var n := if s in old(next) then old(next)[s] else 1;
        number == Render(prefix, n) && next == old(next)[s := n + 1]
    {
      var value: nat;
      value, next := Issue(next, s);
      number := Render(prefix, value);
    }
  }

  // ---------------------------------------------------- interleaved issuing

  /** A transaction: the committed rows it has locked and the rows it has created, with
      the values it will commit, and the numbers it has taken, in order. */
  datatype Tx = Tx(locked: map<Series, nat>, made: map<Series, nat>, taken: seq<(Series, nat)>)

  /** rows: committed next numbers; issued: numbers held by committed transactions. */
  datatype Db = Db(rows: map<Series, nat>, issued: seq<(Series, nat)>, txs: map<nat, Tx>)

  datatype Op = Begin(t: nat) | Take(t: nat, series: Series) | Commit(t: nat) | Abort(t: nat)

  const EMPTY_TX := Tx(map[], map[], [])

  const NO_DOCUMENTS := Db(map[], [], map[])

  /** SELECT ... FOR UPDATE waits while another transaction holds the row. Rows that
      others have created and not committed are not seen, so nobody waits for them. */
  ghost predicate Free(db: Db, t: nat, s: Series)
  {
    forall u :: u in db.txs && u != t ==> s !in db.txs[u].locked
  }

  /** The number comes from the row this transaction created, else from the committed
      row it locks, else from the row it creates now. */
  function TakeFrom(rows: map<Series, nat>, tx: Tx, s: Series): Tx
  {
    if s in tx.made then Tx(tx.locked, tx.made[s := tx.made[s] + 1], tx.taken + [(s, tx.made[s])])
    else if s in rows then
      var n := if s in tx.locked then tx.locked[s] else rows[s];
      Tx(tx.locked[s := n + 1], tx.made, tx.taken + [(s, n)])
    else Tx(tx.locked, tx.made[s := 2], tx.taken + [(s, 1)])
  }

  /** Every numbered table has a unique (company, number) index, and the numbered row is
      inserted by the transaction that took the number. */
  predicate Clashes(db: Db, tx: Tx)
  {
    exists i :: 0 <= i < |tx.taken| && tx.taken[i] in db.issued
  }

  /** Any number of transactions, any interleaving. A Take that has to wait does nothing;
      a transaction whose numbers clash with committed ones is rolled back. */
  ghost function Apply(db: Db, op: Op): Db
  {
    match op
    case Begin(t) => if t in db.txs then db else db.(txs := db.txs[t := EMPTY_TX])
    case Take(t, s) =>
      if t !in db.txs || (s !in db.txs[t].made && s in db.rows && !Free(db, t, s)) then db
      else db.(txs := db.txs[t := TakeFrom(db.rows, db.txs[t], s)])
    case Commit(t) =>
      if t !in db.txs then db
      else if Clashes(db, db.txs[t]) then db.(txs := db.txs - {t})
      else Db(db.rows + db.txs[t].locked + db.txs[t].made, db.issued + db.txs[t].taken, db.txs - {t})
    case Abort(t) => db.(txs := db.txs - {t})
  }

  /** A run from a company without any document. */
  ghost function RunOps(ops: seq<Op>): Db
  {
    if ops == [] then NO_DOCUMENTS else Apply(RunOps(ops[..|ops| - 1]), ops[|ops| - 1])
  }

  /** The numbers of one series, in the order they were issued. */
  function NumbersOf(issued: seq<(Series, nat)>, s: Series): seq<nat>
  {
    if issued == [] then []
    else
      var rest := NumbersOf(issued[..|issued| - 1], s);
      var last := issued[|issued| - 1];
      if last.0 == s then rest + [last.1] else rest
  }

  /** from, from + 1, ..., to - 1. */
  function UpTo(from: nat, to: nat): seq<nat>
    requires from <= to
  {
    if from == to then [] else UpTo(from, to - 1) + [to - 1]
  }

  lemma {:induction false} NumbersConcat(a: seq<(Series, nat)>, b: seq<(Series, nat)>, s: Series)
    ensures NumbersOf(a + b, s) == NumbersOf(a, s) + NumbersOf(b, s)
  {
    if b == [] {
      assert a + b == a;
    } else {
      assert (a + b)[..|a + b| - 1] == a + b[..|b| - 1];
      NumbersConcat(a, b[..|b| - 1], s);
    }
  }

  lemma {:induction false} UpToConcat(a: nat, b: nat, c: nat)
    requires a <= b <= c
    ensures UpTo(a, c) == UpTo(a, b) + UpTo(b, c)
  {
    if b < c {
      UpToConcat(a, b, c - 1);
    }
  }

  lemma {:induction false} NumberIn(issued: seq<(Series, nat)>, s: Series, n: nat)
    ensures (s, n) in issued <==> n in NumbersOf(issued, s)
  {
    if issued != [] {
      var before := issued[..|issued| - 1];
      NumberIn(before, s, n);
      assert issued == before + [issued[|issued| - 1]];
    }
  }

  lemma {:induction false} InUpTo(from: nat, to: nat, n: nat)
    requires from <= to
    ensures n in UpTo(from, to) <==> from <= n < to
  {
    if from < to {
      InUpTo(from, to - 1, n);
    }
  }

  /** The numbers of a series that committed transactions hold. */
  predicate RowOk(db: Db, s: Series)
  {
    if s in db.rows then db.rows[s] >= 2 && NumbersOf(db.issued, s) == UpTo(1, db.rows[s])
    else NumbersOf(db.issued, s) == []
  }

  /** A transaction that created the row has taken the series from 1; one that locked
      the committed row continues it from there. */
  predicate TxOk(rows: map<Series, nat>, tx: Tx, s: Series)
  {
    if s in tx.made then s !in tx.locked && tx.made[s] >= 2 && NumbersOf(tx.taken, s) == UpTo(1, tx.made[s])
    else if s in tx.locked then
      s in rows && rows[s] <= tx.locked[s] && NumbersOf(tx.taken, s) == UpTo(rows[s], tx.locked[s])
    else NumbersOf(tx.taken, s) == []
  }

  /** At most one transaction holds the row of a series. */
  ghost predicate Exclusive(txs: map<nat, Tx>, s: Series)
  {
    forall t, u :: t in txs && u in txs && s in txs[t].locked && s in txs[u].locked ==> t == u
  }

  ghost predicate Gapless(db: Db, s: Series)
  {
    RowOk(db, s) && Exclusive(db.txs, s) && forall t :: t in db.txs ==> TxOk(db.rows, db.txs[t], s)
  }

  /** A Take adds the number it takes to its own series and nothing to any other. */
  lemma TakeNumbers(rows: map<Series, nat>, tx: Tx, taken: Series, s: Series)
    ensures var after := TakeFrom(rows, tx, taken);
      NumbersOf(after.taken, s) ==
        if s == taken then NumbersOf(tx.taken, s) + [after.taken[|tx.taken|].1] else NumbersOf(tx.taken, s)
  {
    var after := TakeFrom(rows, tx, taken);
    assert after.taken[..|after.taken| - 1] == tx.taken;
  }

  lemma TakeTxOk(rows: map<Series, nat>, tx: Tx, taken: Series, s: Series)
    requires TxOk(rows, tx, s)
    ensures TxOk(rows, TakeFrom(rows, tx, taken), s)
  {
    var after := TakeFrom(rows, tx, taken);
    TakeNumbers(rows, tx, taken, s);
    if taken == s {
      var n := after.taken[|tx.taken|].1;
      if s in after.made {
        assert UpTo(1, n + 1) == UpTo(1, n) + [n];
      } else {
        assert UpTo(rows[s], n + 1) == UpTo(rows[s], n) + [n];
      }
    }
  }

  lemma TakeGapless(db: Db, t: nat, taken: Series, s: Series)
    requires Gapless(db, s)
    ensures Gapless(Apply(db, Take(t, taken)), s)
  {
    if Apply(db, Take(t, taken)) != db {
      TakeTxOk(db.rows, db.txs[t], taken, s);
    }
  }

  /** A transaction that created a row somebody else has committed since holds number 1 of
      the series, and so does somebody else. */
  lemma MadeClashes(db: Db, t: nat, s: Series)
    requires Gapless(db, s) && t in db.txs && s in db.txs[t].made && s in db.rows
    ensures Clashes(db, db.txs[t])
  {
    var tx := db.txs[t];
    assert TxOk(db.rows, tx, s);
    InUpTo(1, tx.made[s], 1);
    InUpTo(1, db.rows[s], 1);
    NumberIn(tx.taken, s, 1);
    NumberIn(db.issued, s, 1);
    var i :| 0 <= i < |tx.taken| && tx.taken[i] == (s, 1);
  }

  lemma CommitRow(db: Db, t: nat, s: Series)
    requires Gapless(db, s) && t in db.txs && !Clashes(db, db.txs[t])
    ensures RowOk(Apply(db, Commit(t)), s)
    ensures s in db.txs[t].made ==> s !in db.rows
  {
    var tx := db.txs[t];
    assert TxOk(db.rows, tx, s);
    NumbersConcat(db.issued, tx.taken, s);
    if s in tx.made {
      if s in db.rows {
        MadeClashes(db, t, s);
      }
    } else if s in tx.locked {
      UpToConcat(1, db.rows[s], tx.locked[s]);
    }
  }

  lemma CommitGapless(db: Db, t: nat, s: Series)
    requires Gapless(db, s) && t in db.txs
    ensures Gapless(Apply(db, Commit(t)), s)
  {
    if !Clashes(db, db.txs[t]) {
      var tx, after := db.txs[t], Apply(db, Commit(t));
      CommitRow(db, t, s);
      forall u | u in after.txs
        ensures TxOk(after.rows, after.txs[u], s)
      {
        assert TxOk(db.rows, db.txs[u], s) && TxOk(db.rows, tx, s);
      }
    }
  }

  lemma ApplyGapless(db: Db, op: Op, s: Series)
    requires Gapless(db, s)
    ensures Gapless(Apply(db, op), s)
  {
    match op {
      case Begin(t) =>
      case Take(t, taken) => TakeGapless(db, t, taken, s);
      case Commit(t) =>
        if t in db.txs {
          CommitGapless(db, t, s);
        }
      case Abort(t) =>
    }
  }

  lemma {:induction false} RunGapless(ops: seq<Op>, s: Series)
    ensures Gapless(RunOps(ops), s)
  {
    if ops != [] {
      RunGapless(ops[..|ops| - 1], s);
      ApplyGapless(RunOps(ops[..|ops| - 1]), ops[|ops| - 1], s);
    }
  }

  /** From a company without documents, under every interleaving with aborts: either no
      number of a series is committed, or the numbers held by committed transactions are
      exactly 1, 2, ..., next - 1, in commit order, with no gap and no duplicate. */
  lemma IssuedExactly(ops: seq<Op>, s: Series)
    ensures var db := RunOps(ops);
      if s in db.rows then db.rows[s] >= 2 && NumbersOf(db.issued, s) == UpTo(1, db.rows[s])
      else NumbersOf(db.issued, s) == []
  {
    RunGapless(ops, s);
  }

  /** Exactly when a commit is refused by a unique index: the transaction created a
      sequence row that another one has created and committed first. */
  lemma ClashIff(ops: seq<Op>, t: nat)
    requires t in RunOps(ops).txs
    ensures var db := RunOps(ops);
      Clashes(db, db.txs[t]) <==> exists s :: s in db.txs[t].made && s in db.rows
  {
    var db := RunOps(ops);
    var tx := db.txs[t];
    if s :| s in tx.made && s in db.rows {
      RunGapless(ops, s);
      MadeClashes(db, t, s);
    }
    if Clashes(db, tx) {
      var i :| 0 <= i < |tx.taken| && tx.taken[i] in db.issued;
      var (s, n) := tx.taken[i];
      RunGapless(ops, s);
      ClashMade(db, t, s, n);
    }
  }

  lemma ClashMade(db: Db, t: nat, s: Series, n: nat)
    requires Gapless(db, s) && t in db.txs && (s, n) in db.txs[t].taken && (s, n) in db.issued
    ensures s in db.txs[t].made && s in db.rows
  {
    var tx := db.txs[t];
    assert TxOk(db.rows, tx, s);
    NumberIn(tx.taken, s, n);
    NumberIn(db.issued, s, n);
    if s in db.rows {
      InUpTo(1, db.rows[s], n);
      if s in tx.locked {
        InUpTo(db.rows[s], tx.locked[s], n);
      }
    }
  }

  lemma UpToLast(from: nat, to: nat)
    requires from <= to
    ensures UpTo(from, to) == [] <==> from == to
    ensures from < to ==> UpTo(from, to)[|UpTo(from, to)| - 1] == to - 1
  {
  }

  /** The next number of a series for a transaction. */
  function NextOf(db: Db, tx: Tx, s: Series): nat
  {
    if s in tx.made then tx.made[s]
    else if s in db.rows then if s in tx.locked then tx.locked[s] else db.rows[s]
    else 1
  }

  /** A transaction continues its own numbers, or starts from the committed row, or from 1. */
  lemma OwnNumbers(db: Db, t: nat, s: Series)
    requires Gapless(db, s) && t in db.txs
    ensures var (tx, own) := (db.txs[t], NumbersOf(db.txs[t].taken, s));
      if own == []
      then s !in tx.made && NextOf(db, tx, s) == if s in db.rows then db.rows[s] else 1
      else NextOf(db, tx, s) == own[|own| - 1] + 1 && (s in tx.made || (s in tx.locked && Free(db, t, s)))
  {
    var tx := db.txs[t];
    assert TxOk(db.rows, tx, s);
    if s in tx.made {
      UpToLast(1, tx.made[s]);
    } else if s in tx.locked {
      UpToLast(db.rows[s], tx.locked[s]);
    }
  }

  lemma TakenIs(db: Db, t: nat, s: Series)
    requires t in db.txs
    ensures var (tx, now) := (db.txs[t], Apply(db, Take(t, s)));
      if s !in tx.made && s in db.rows && !Free(db, t, s) then now == db
      else t in now.txs && now.txs[t].taken == tx.taken + [(s, NextOf(db, tx, s))]
  {
  }

  /** A Take waits exactly while another transaction holds the committed row it needs. Else
      it takes one number: one more than the last it took itself, or the committed next
      number, or 1 for a series without any. */
  lemma TakeIssues(ops: seq<Op>, t: nat, s: Series)
    requires t in RunOps(ops).txs
    ensures var (db, now) := (RunOps(ops), Apply(RunOps(ops), Take(t, s)));
      var (tx, own) := (db.txs[t], NumbersOf(db.txs[t].taken, s));
      if own == [] && s in db.rows && exists u :: u in db.txs && u != t && s in db.txs[u].locked
      then now == db
      else
        var n := if own != [] then own[|own| - 1] + 1 else if s in db.rows then db.rows[s] else 1;
        t in now.txs && now.txs[t].taken == tx.taken + [(s, n)]
  {
    RunGapless(ops, s);
    OwnNumbers(RunOps(ops), t, s);
    TakenIs(RunOps(ops), t, s);
  }

  /** Two transactions that both created the row of a series: once the first commits,
      the second is rolled back whole when it tries to, and issues nothing. */
  lemma SecondCreatorAborts(ops: seq<Op>, t: nat, u: nat, s: Series)
    requires var db := RunOps(ops); t in db.txs && u in db.txs && t != u && s in db.txs[t].made && s in db.txs[u].made
    requires !Clashes(RunOps(ops), RunOps(ops).txs[t])
    ensures var first := Apply(RunOps(ops), Commit(t));
      s in first.rows && Apply(first, Commit(u)) == first.(txs := first.txs - {u})
  {
    RunGapless(ops, s);
    CommitGapless(RunOps(ops), t, s);
    MadeClashes(Apply(RunOps(ops), Commit(t)), u, s);
  }
}
