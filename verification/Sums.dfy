/** Finite integer sums over sequences and over sets, and the laws the ledger
    and stock proofs need: how a sum reacts to an append, an in-place update, a
    reordering, a regrouping, or a pointwise bound. */
module Sums {

  function Abs(x: int): (a: nat)
    ensures a == x || a == -x
  {
    if x < 0 then -x else x
  }

  /** Sum of f over the elements of s, last element outermost. */
  function Sum<T>(s: seq<T>, f: T -> int): int
  {
    if s == [] then 0 else Sum(s[..|s| - 1], f) + f(s[|s| - 1])
  }

  lemma SumAppend<T>(s: seq<T>, x: T, f: T -> int)
    ensures Sum(s + [x], f) == Sum(s, f) + f(x)
  {
    assert (s + [x])[..|s|] == s;
  }

  lemma {:induction false} SumConcat<T>(s: seq<T>, t: seq<T>, f: T -> int)
    ensures Sum(s + t, f) == Sum(s, f) + Sum(t, f)
  {
    if t == [] {
      assert s + t == s;
    } else {
      var n := |t| - 1;
      assert (s + t)[..|s + t| - 1] == s + t[..n];
      SumConcat(s, t[..n], f);
    }
  }

  /** Replacing one element replaces exactly its contribution. */
  lemma {:induction false} SumUpdate<T>(s: seq<T>, i: nat, x: T, f: T -> int)
    requires i < |s|
    ensures Sum(s[i := x], f) == Sum(s, f) - f(s[i]) + f(x)
  {
    var n := |s| - 1;
    if i == n {
      assert s[i := x][..n] == s[..n];
    } else {
      assert s[i := x][..n] == s[..n][i := x];
      SumUpdate(s[..n], i, x, f);
    }
  }

  lemma {:induction false} SumEqual<T>(s: seq<T>, f: T -> int, g: T -> int)
    requires forall i :: 0 <= i < |s| ==> f(s[i]) == g(s[i])
    ensures Sum(s, f) == Sum(s, g)
  {
    if s != [] {
      SumEqual(s[..|s| - 1], f, g);
    }
  }

  /** Two sequences whose elements contribute the same, place by place, have the same sum. */
  lemma {:induction false} SumPointwise<T>(s: seq<T>, t: seq<T>, f: T -> int)
    requires |s| == |t| && forall i :: 0 <= i < |s| ==> f(s[i]) == f(t[i])
    ensures Sum(s, f) == Sum(t, f)
  {
    if s != [] {
      SumPointwise(s[..|s| - 1], t[..|t| - 1], f);
    }
  }

  lemma {:induction false} SumPlus<T>(s: seq<T>, f: T -> int, g: T -> int, h: T -> int)
    requires forall i :: 0 <= i < |s| ==> h(s[i]) == f(s[i]) + g(s[i])
    ensures Sum(s, h) == Sum(s, f) + Sum(s, g)
  {
    if s != [] {
      SumPlus(s[..|s| - 1], f, g, h);
    }
  }

  lemma {:induction false} SumZero<T>(s: seq<T>, f: T -> int)
    requires forall i :: 0 <= i < |s| ==> f(s[i]) == 0
    ensures Sum(s, f) == 0
  {
    if s != [] {
      SumZero(s[..|s| - 1], f);
    }
  }

  /** A pointwise bound on magnitudes bounds the magnitude of the sum. */
  lemma {:induction false} SumBound<T>(s: seq<T>, f: T -> int, b: T -> int)
    requires forall i :: 0 <= i < |s| ==> Abs(f(s[i])) <= b(s[i])
    ensures Abs(Sum(s, f)) <= Sum(s, b)
  {
    if s != [] {
      SumBound(s[..|s| - 1], f, b);
    }
  }

  lemma {:induction false} SumPrefix<T>(s: seq<T>, n: nat, f: T -> int)
    requires n < |s|
    ensures Sum(s[..n + 1], f) == Sum(s[..n], f) + f(s[n])
  {
    assert s[..n + 1][..n] == s[..n];
  }

  /** Dropping the element at i drops its contribution. */
  lemma SumDrop<T>(s: seq<T>, i: nat, f: T -> int)
    requires i < |s|
    ensures Sum(s, f) == f(s[i]) + Sum(s[..i] + s[i + 1..], f)
  {
    SumConcat(s[..i], s[i + 1..], f);
    SumConcat(s[..i + 1], s[i + 1..], f);
    SumPrefix(s, i, f);
    assert s == s[..i + 1] + s[i + 1..];
  }

  /** A sum does not depend on the order of its elements. */
  lemma {:induction false} SumPermutation<T>(s: seq<T>, t: seq<T>, f: T -> int)
    requires multiset(s) == multiset(t)
    ensures Sum(s, f) == Sum(t, f)
    decreases |s|
  {
    if s == [] {
      assert |multiset(t)| == 0;
    } else {
      var n := |s| - 1;
      var x := s[n];
      assert x in multiset(t);
      var i :| 0 <= i < |t| && t[i] == x;
      var u := t[..i] + t[i + 1..];
      assert s == s[..n] + [x];
      assert t == t[..i] + [x] + t[i + 1..];
      assert multiset(s[..n]) == multiset(s) - multiset{x};
      assert multiset(u) == multiset(t) - multiset{x};
      SumPermutation(s[..n], u, f);
      SumDrop(t, i, f);
    }
  }

  /** Sum of f over a finite set. */
  ghost function SumOver<T>(s: set<T>, f: T -> int): int
  {
    if s == {} then 0 else var x :| x in s; f(x) + SumOver(s - {x}, f)
  }

  /** Any element may be taken out first. */
  lemma {:induction false} SumOverRemove<T>(s: set<T>, f: T -> int, x: T)
    requires x in s
    ensures SumOver(s, f) == f(x) + SumOver(s - {x}, f)
    decreases s
  {
    var y :| y in s && SumOver(s, f) == f(y) + SumOver(s - {y}, f);
    if y != x {
      SumOverRemove(s - {y}, f, x);
      SumOverRemove(s - {x}, f, y);
      assert s - {y} - {x} == s - {x} - {y};
    }
  }

  lemma SumOverAdd<T>(s: set<T>, f: T -> int, x: T)
    requires x !in s
    ensures SumOver(s + {x}, f) == f(x) + SumOver(s, f)
  {
    SumOverRemove(s + {x}, f, x);
    assert s + {x} - {x} == s;
  }

  lemma {:induction false} SumOverEqual<T>(s: set<T>, f: T -> int, g: T -> int)
    requires forall x :: x in s ==> f(x) == g(x)
    ensures SumOver(s, f) == SumOver(s, g)
    decreases s
  {
    if s != {} {
      var x :| x in s;
      SumOverRemove(s, f, x);
      SumOverRemove(s, g, x);
      SumOverEqual(s - {x}, f, g);
    }
  }

  lemma {:induction false} SumOverPlus<T>(s: set<T>, f: T -> int, g: T -> int, h: T -> int)
    requires forall x :: x in s ==> h(x) == f(x) + g(x)
    ensures SumOver(s, h) == SumOver(s, f) + SumOver(s, g)
    decreases s
  {
    if s != {} {
      var x :| x in s;
      SumOverRemove(s, f, x);
      SumOverRemove(s, g, x);
      SumOverRemove(s, h, x);
      SumOverPlus(s - {x}, f, g, h);
    }
  }

  lemma {:induction false} SumOverZero<T>(s: set<T>, f: T -> int)
    requires forall x :: x in s ==> f(x) == 0
    ensures SumOver(s, f) == 0
    decreases s
  {
    if s != {} {
      var x :| x in s;
      SumOverRemove(s, f, x);
      SumOverZero(s - {x}, f);
    }
  }

  lemma {:induction false} SumOverBound<T>(s: set<T>, f: T -> int, b: T -> int)
    requires forall x :: x in s ==> Abs(f(x)) <= b(x)
    ensures Abs(SumOver(s, f)) <= SumOver(s, b)
    decreases s
  {
    if s != {} {
      var x :| x in s;
      SumOverRemove(s, f, x);
      SumOverRemove(s, b, x);
      SumOverBound(s - {x}, f, b);
    }
  }

  lemma {:induction false} SumOverTwice<T>(s: set<T>, f: T -> int, g: T -> int, k: T -> int, h: T -> int)
    requires forall x :: x in s ==> h(x) == 2 * (f(x) - g(x) + k(x))
    ensures SumOver(s, h) == 2 * (SumOver(s, f) - SumOver(s, g) + SumOver(s, k))
    decreases s
  {
    if s != {} {
      var x :| x in s;
      SumOverRemove(s, f, x);
      SumOverRemove(s, g, x);
      SumOverRemove(s, k, x);
      SumOverRemove(s, h, x);
      SumOverTwice(s - {x}, f, g, k, h);
    }
  }

  /** A function that is zero off x sums to its value at x. */
  lemma SumOverPoint<T>(s: set<T>, f: T -> int, x: T)
    requires forall y :: y in s && y != x ==> f(y) == 0
    ensures SumOver(s, f) == if x in s then f(x) else 0
  {
    if x in s {
      SumOverRemove(s, f, x);
      SumOverZero(s - {x}, f);
    } else {
      SumOverZero(s, f);
    }
  }

  lemma {:induction false} SumOverDisjoint<T>(s: set<T>, t: set<T>, f: T -> int)
    requires s !! t
    ensures SumOver(s + t, f) == SumOver(s, f) + SumOver(t, f)
    decreases t
  {
    if t == {} {
      assert s + t == s;
    } else {
      var x :| x in t;
      SumOverRemove(t, f, x);
      SumOverDisjoint(s, t - {x}, f);
      SumOverAdd(s + (t - {x}), f, x);
      assert s + t == s + (t - {x}) + {x};
    }
  }

  ghost function Group<T, G>(s: set<T>, key: T -> G, g: G): set<T>
  {
    set x | x in s && key(x) == g
  }

  /** The sum over one group of a partition of s by key. */
  ghost function GroupSum<T, G>(s: set<T>, f: T -> int, key: T -> G): G -> int
  {
    (g: G) => SumOver(Group(s, key, g), f)
  }

  /** Grouping first and adding the groups up afterwards gives the same total. */
  lemma {:induction false} SumOverRegroup<T, G>(s: set<T>, f: T -> int, key: T -> G, gs: set<G>)
    requires forall x :: x in s ==> key(x) in gs
    ensures SumOver(gs, GroupSum(s, f, key)) == SumOver(s, f)
    decreases gs
  {
    if gs == {} {
      assert s == {};
    } else {
      var g :| g in gs;
      var part := Group(s, key, g);
      SumOverRemove(gs, GroupSum(s, f, key), g);
      SumOverRegroup(s - part, f, key, gs - {g});
      forall h | h in gs - {g}
        ensures GroupSum(s, f, key)(h) == GroupSum(s - part, f, key)(h)
      {
        assert Group(s, key, h) == Group(s - part, key, h);
      }
      SumOverEqual(gs - {g}, GroupSum(s, f, key), GroupSum(s - part, f, key));
      SumOverDisjoint(part, s - part, f);
      assert part + (s - part) == s;
    }
  }

  lemma SumOfTwo<T>(a: T, b: T, f: T -> int)
    ensures Sum([a, b], f) == f(a) + f(b)
  {
    assert [] + [a] == [a] && [a] + [b] == [a, b];
    SumAppend([], a, f);
    SumAppend([a], b, f);
  }

  lemma SumOfThree<T>(a: T, b: T, c: T, f: T -> int)
    ensures Sum([a, b, c], f) == f(a) + f(b) + f(c)
  {
    assert [a, b, c][..2] == [a, b];
    SumOfTwo(a, b, f);
  }

  lemma SumOfFour<T>(a: T, b: T, c: T, d: T, f: T -> int)
    ensures Sum([a, b, c, d], f) == f(a) + f(b) + f(c) + f(d)
  {
    assert [a, b, c, d][..3] == [a, b, c];
    SumOfThree(a, b, c, f);
  }
}
