/** Reversal chains: an entry, its reversal, the reversal of that, and so on. */
module Chains {
  import opened Base
  import opened Sums
  import opened Money
  import opened Journal
  import opened Consistency

  /** The one entry that reverses entry j. */
  ghost function NextOf(entries: seq<Entry>, j: nat): (i: nat)
    requires Linked(entries) && j < |entries| && entries[j].status == Reversed
    ensures Reverses(entries, i, j)
  {
    var i :| Reverses(entries, i, j);
    i
  }

  /** Entry j and everything that reverses it, directly or through others. */
  ghost function Chain(entries: seq<Entry>, j: nat): (c: seq<nat>)
    requires Linked(entries) && j < |entries| && Counted(entries[j].status)
    ensures |c| >= 1 && c[0] == j
    decreases |entries| - j
  {
    if entries[j].status == Posted then [j] else [j] + Chain(entries, NextOf(entries, j))
  }

  /** The entry a chain starts from: the one that reverses nothing. */
  ghost function Root(entries: seq<Entry>, i: nat): (r: nat)
    requires Linked(entries) && i < |entries|
    ensures r <= i && entries[r].reversalOf.None?
    ensures Counted(entries[i].status) ==> Counted(entries[r].status)
    decreases i
  {
    if entries[i].reversalOf.None? then i
    else
      assert Reverses(entries, i, entries[i].reversalOf.value);
      Root(entries, entries[i].reversalOf.value)
  }

  /** Chains are acyclic and linear: indices rise, each member reverses the one
      before it, every member but the last is reversed, and the last is posted. */
  ghost predicate WellShaped(entries: seq<Entry>, c: seq<nat>)
  {
    && |c| >= 1
    && (forall t :: 0 <= t < |c| ==> c[t] < |entries|)
    && (forall t :: 0 < t < |c| ==> Reverses(entries, c[t], c[t - 1]))
    && (forall t :: 0 <= t < |c| - 1 ==> entries[c[t]].status == Reversed)
    && entries[c[|c| - 1]].status == Posted
  }

  lemma ShapedAbove(entries: seq<Entry>, j: nat, c: seq<nat>)
    requires WellShaped(entries, c) && Reverses(entries, c[0], j)
    ensures WellShaped(entries, [j] + c)
  {
    var d := [j] + c;
    forall t | 0 < t < |d|
      ensures d[t] < |entries| && Reverses(entries, d[t], d[t - 1])
    {
      assert d[t] == c[t - 1];
      if t > 1 {
        assert Reverses(entries, c[t - 1], c[t - 2]);
      }
    }
  }

  lemma {:induction false} ChainWellShaped(entries: seq<Entry>, j: nat)
    requires Linked(entries) && j < |entries| && Counted(entries[j].status)
    ensures WellShaped(entries, Chain(entries, j))
    decreases |entries| - j
  {
    if entries[j].status == Reversed {
      var next := NextOf(entries, j);
      ChainWellShaped(entries, next);
      ShapedAbove(entries, j, Chain(entries, next));
    }
  }

  lemma {:induction false} ChainSharesRoot(entries: seq<Entry>, j: nat, x: nat)
    requires Linked(entries) && j < |entries| && Counted(entries[j].status) && x in Chain(entries, j)
    ensures x < |entries| && Root(entries, x) == Root(entries, j)
    decreases |entries| - j
  {
    if x != j {
      ChainSharesRoot(entries, NextOf(entries, j), x);
    }
  }

  lemma {:induction false} ChainClosed(entries: seq<Entry>, r: nat, j: nat)
    requires Linked(entries) && r < |entries| && Counted(entries[r].status)
    requires j in Chain(entries, r) && j < |entries| && entries[j].status == Reversed
    ensures NextOf(entries, j) in Chain(entries, r)
    decreases |entries| - r
  {
    if j == r {
      assert Chain(entries, r)[1] == NextOf(entries, j);
    } else {
      ChainClosed(entries, NextOf(entries, r), j);
    }
  }

  lemma {:induction false} InOwnRootChain(entries: seq<Entry>, i: nat)
    requires Linked(entries) && i < |entries| && Counted(entries[i].status)
    ensures i in Chain(entries, Root(entries, i))
    decreases i
  {
    if entries[i].reversalOf.Some? {
      var j := entries[i].reversalOf.value;
      assert Reverses(entries, i, j);
      InOwnRootChain(entries, j);
      ChainClosed(entries, Root(entries, j), j);
      var n := NextOf(entries, j);
      assert n == i;
    }
  }

  /** The chains of the entries that reverse nothing partition the counted
      entries: each counted entry lies in the chain of exactly one of them. */
  lemma ChainsPartition(entries: seq<Entry>, i: nat, r: nat)
    requires Linked(entries) && i < |entries| && Counted(entries[i].status)
    requires r < |entries| && entries[r].reversalOf.None? && Counted(entries[r].status)
    ensures i in Chain(entries, r) <==> r == Root(entries, i)
  {
    InOwnRootChain(entries, i);
    if i in Chain(entries, r) {
      ChainSharesRoot(entries, r, i);
    }
  }

  // --------------------------------------------------------------- net effect

  /** Keys that agree with k on company, account and dimensions, in whatever period. */
  function Anywhere(k: Key): Key -> bool
  {
    (x: Key) => x.(period := k.period) == k
  }

  function NetAt(entries: seq<Entry>, p: Key -> bool): nat -> int
  {
    (i: nat) => if i < |entries| then Net(entries[i], p) else 0
  }

  function Other(s: Side): Side
  {
    if s == Debit then Credit else Debit
  }

  lemma {:induction false} MirrorTotal(lines: seq<Line>, h: Head, h2: Head, p: Key -> bool, s: Side)
    requires forall i :: 0 <= i < |lines| ==> p(KeyOf(h, lines[i])) == p(KeyOf(h2, Mirror(lines)[i]))
    ensures Sum(Mirror(lines), LinePart(h2, p, s)) == Sum(lines, LinePart(h, p, Other(s)))
  {
    if lines != [] {
      var n := |lines| - 1;
      assert Mirror(lines)[..n] == Mirror(lines[..n]);
      MirrorTotal(lines[..n], h, h2, p, s);
    }
  }

  /** A reversal cancels its original on every account and dimension. */
  lemma MirrorCancels(entries: seq<Entry>, i: nat, j: nat, k: Key)
    requires Reverses(entries, i, j)
    ensures Net(entries[i], Anywhere(k)) == -Net(entries[j], Anywhere(k))
  {
    MirrorTotal(entries[j].lines, entries[j].head, entries[i].head, Anywhere(k), Debit);
    MirrorTotal(entries[j].lines, entries[j].head, entries[i].head, Anywhere(k), Credit);
  }

  lemma CancelsAt(entries: seq<Entry>, i: nat, j: nat, k: Key)
    requires Reverses(entries, i, j)
    ensures NetAt(entries, Anywhere(k))(i) == -NetAt(entries, Anywhere(k))(j)
  {
    MirrorCancels(entries, i, j, k);
  }

  function OddPart(n: nat, x: Cents): Cents
  {
    if n % 2 == 1 then x else 0
  }

  /** A figure that flips its sign at every step sums to its first value over an odd
      number of steps, and to zero over an even number. */
  lemma {:induction false} Alternating(c: seq<nat>, f: nat -> int)
    requires |c| >= 1 && forall t :: 0 < t < |c| ==> f(c[t]) == -f(c[t - 1])
    ensures Sum(c, f) == OddPart(|c|, f(c[0]))
    ensures f(c[|c| - 1]) == if |c| % 2 == 1 then f(c[0]) else -f(c[0])
  {
    var n := |c| - 1;
    if n == 0 {
      assert c[..n] == [];
    } else {
      Alternating(c[..n], f);
      assert f(c[n]) == -f(c[n - 1]);
    }
  }

  /** Summed over all periods, a chain of odd length has its first entry's effect
      on each account and dimension, and a chain of even length has none. */
  lemma ChainNet(entries: seq<Entry>, j: nat, k: Key)
    requires Linked(entries) && j < |entries| && Counted(entries[j].status)
    ensures Sum(Chain(entries, j), NetAt(entries, Anywhere(k)))
         == OddPart(|Chain(entries, j)|, Net(entries[j], Anywhere(k)))
  {
    var c, f := Chain(entries, j), NetAt(entries, Anywhere(k));
    ChainWellShaped(entries, j);
    forall t | 0 < t < |c|
      ensures f(c[t]) == -f(c[t - 1])
    {
      CancelsAt(entries, c[t], c[t - 1], k);
    }
    Alternating(c, f);
  }
}
