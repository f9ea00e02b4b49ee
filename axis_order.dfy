/**
 * The axis order that `_adjust_tensors_to_plot` computes from a tensor's shape:
 * `torch.argsort(torch.tensor(shape))` followed by `reverse()`.
 *
 * `torch.argsort` does not promise an order for equal extents. The model fixes
 * one: a stable ascending argsort (equal extents keep the order of their axes),
 * so that after the reversal equal extents appear in decreasing axis order.
 */
module AxisOrder {
  import opened Arith

  predicate InBounds(p: seq<nat>, n: nat)
  {
    forall i :: 0 <= i < |p| ==> p[i] < n
  }

  /**
   * `p` lists each of the axes 0..n-1 exactly once: it has n entries, all
   * axes, and every axis is among them (so none can repeat).
   */
  predicate IsPermutation(p: seq<nat>, n: nat)
  {
    |p| == n && InBounds(p, n) && forall a: nat :: a < n ==> a in p
  }

  /** The entries of `s` at the positions `p` lists, in that order. */
  function Pick(s: seq<nat>, p: seq<nat>): (r: seq<nat>)
    requires InBounds(p, |s|)
    ensures |r| == |p|
    ensures forall k :: 0 <= k < |p| ==> r[k] == s[p[k]]
  {
    if p == [] then [] else [s[p[0]]] + Pick(s, p[1..])
  }

  /** `list.reverse()`: entry i is the i-th entry from the end. */
  function Reverse(p: seq<nat>): (r: seq<nat>)
    ensures |r| == |p|
    ensures forall i :: 0 <= i < |p| ==> r[i] == p[|p| - 1 - i]
  {
    seq(|p|, i requires 0 <= i < |p| => p[|p| - 1 - i])
  }

  lemma {:induction false} ReverseMultiset(p: seq<nat>)
    ensures multiset(Reverse(p)) == multiset(p)
  {
    if p != [] {
      var q := p[..|p| - 1];
      ReverseMultiset(q);
      assert Reverse(p) == [p[|p| - 1]] + Reverse(q);
      assert p == q + [p[|p| - 1]];
    }
  }

  lemma PickReverse(s: seq<nat>, p: seq<nat>)
    requires InBounds(p, |s|)
    ensures InBounds(Reverse(p), |s|)
    ensures Pick(s, Reverse(p)) == Reverse(Pick(s, p))
  {
  }

  /**
   * Inserts axis `x` into `p`, which is ordered by extent, in front of the
   * first axis whose extent is strictly larger: among equal extents the
   * axis inserted last comes last.
   */
  function InsertAscending(p: seq<nat>, x: nat, s: seq<nat>): (r: seq<nat>)
    requires x < |s| && InBounds(p, |s|)
    ensures |r| == |p| + 1 && InBounds(r, |s|)
  {
    if p == [] then [x]
    else if s[x] < s[p[0]] then [x] + p
    else
      assert p == [p[0]] + p[1..];
      [p[0]] + InsertAscending(p[1..], x, s)
  }

  /** The stable ascending argsort of the first `n` extents of `s`. */
  function ArgSortPrefix(s: seq<nat>, n: nat): (r: seq<nat>)
    requires n <= |s|
    ensures |r| == n && InBounds(r, |s|)
  {
    if n == 0 then [] else InsertAscending(ArgSortPrefix(s, n - 1), n - 1, s)
  }

  lemma {:induction false} InsertAscendingMembers(p: seq<nat>, x: nat, s: seq<nat>)
    requires x < |s| && InBounds(p, |s|)
    ensures forall a :: a in InsertAscending(p, x, s) <==> a in p || a == x
  {
    if p != [] && !(s[x] < s[p[0]]) {
      InsertAscendingMembers(p[1..], x, s);
      assert p == [p[0]] + p[1..];
    }
  }

  lemma {:induction false} ArgSortPrefixPermutation(s: seq<nat>, n: nat)
    requires n <= |s|
    ensures IsPermutation(ArgSortPrefix(s, n), n)
  {
    if n > 0 {
      var p := ArgSortPrefix(s, n - 1);
      ArgSortPrefixPermutation(s, n - 1);
      InsertAscendingMembers(p, n - 1, s);
      InsertAscendingBounds(p, n - 1, s, n);
    }
  }

  lemma InsertAscendingBounds(p: seq<nat>, x: nat, s: seq<nat>, n: nat)
    requires x < |s| && InBounds(p, |s|)
    requires InBounds(p, n) && x < n
    ensures InBounds(InsertAscending(p, x, s), n)
  {
    var r := InsertAscending(p, x, s);
    InsertAscendingMembers(p, x, s);
    forall i | 0 <= i < |r| ensures r[i] < n {
      assert r[i] in r;
      if r[i] != x {
        var k :| 0 <= k < |p| && p[k] == r[i];
      }
    }
  }

  /**
   * `torch.argsort(torch.tensor(s))`, with ties kept in axis order: every axis
   * once, by ascending extent.
   */
  function ArgSort(s: seq<nat>): (q: seq<nat>)
    ensures IsPermutation(q, |s|)
    ensures AscendingStable(q, s)
  {
    ArgSortPrefixPermutation(s, |s|);
    ArgSortPrefixSorted(s, |s|);
    ArgSortPrefix(s, |s|)
  }

  /** The permutation passed to `tensor.permute` (visualiser.py:394-396). */
  function DescendingAxes(s: seq<nat>): (p: seq<nat>)
    ensures |p| == |s| && InBounds(p, |s|)
  {
    Reverse(ArgSort(s))
  }

  /** Axis `a` comes before axis `b` in the stable ascending order of extents `s`. */
  predicate Before(s: seq<nat>, a: nat, b: nat)
    requires a < |s| && b < |s|
  {
    s[a] < s[b] || (s[a] == s[b] && a < b)
  }

  /** Consecutive axes of `p` are in the stable ascending order of extents. */
  predicate AscendingStable(p: seq<nat>, s: seq<nat>)
    requires InBounds(p, |s|)
  {
    forall i :: 0 <= i < |p| - 1 ==> Before(s, p[i], p[i + 1])
  }

  predicate NonIncreasing(e: seq<nat>)
  {
    forall i, j :: 0 <= i < j < |e| ==> e[i] >= e[j]
  }

  lemma {:induction false} InsertAscendingSorted(p: seq<nat>, x: nat, s: seq<nat>)
    requires x < |s| && InBounds(p, |s|)
    requires AscendingStable(p, s)
    requires forall i :: 0 <= i < |p| ==> p[i] < x
    ensures AscendingStable(InsertAscending(p, x, s), s)
  {
    if p != [] && !(s[x] < s[p[0]]) {
      var tail := p[1..];
      InsertAscendingSorted(tail, x, s);
      var rest := InsertAscending(tail, x, s);
      assert rest[0] == x || rest[0] == p[1];
      assert Before(s, p[0], rest[0]);
    }
  }

  lemma {:induction false} ArgSortPrefixSorted(s: seq<nat>, n: nat)
    requires n <= |s|
    ensures AscendingStable(ArgSortPrefix(s, n), s)
  {
    if n > 0 {
      var p := ArgSortPrefix(s, n - 1);
      ArgSortPrefixSorted(s, n - 1);
      ArgSortPrefixPermutation(s, n - 1);
      InsertAscendingSorted(p, n - 1, s);
    }
  }

  lemma {:induction false} PickInsert(p: seq<nat>, x: nat, s: seq<nat>)
    requires x < |s| && InBounds(p, |s|)
    ensures multiset(Pick(s, InsertAscending(p, x, s))) == multiset(Pick(s, p)) + multiset{s[x]}
  {
    if p != [] && !(s[x] < s[p[0]]) {
      var tail := p[1..];
      PickInsert(tail, x, s);
      var rest := InsertAscending(tail, x, s);
      assert ([p[0]] + rest)[1..] == rest;
    }
  }

  lemma {:induction false} PickArgSortPrefix(s: seq<nat>, n: nat)
    requires n <= |s|
    ensures multiset(Pick(s, ArgSortPrefix(s, n))) == multiset(s[..n])
  {
    if n > 0 {
      var p := ArgSortPrefix(s, n - 1);
      calc {
        multiset(Pick(s, ArgSortPrefix(s, n)));
        multiset(Pick(s, InsertAscending(p, n - 1, s)));
        { PickInsert(p, n - 1, s); }
        multiset(Pick(s, p)) + multiset{s[n - 1]};
        { PickArgSortPrefix(s, n - 1); }
        multiset(s[..n - 1]) + multiset{s[n - 1]};
        multiset(s[..n - 1] + [s[n - 1]]);
        { assert s[..n] == s[..n - 1] + [s[n - 1]]; }
        multiset(s[..n]);
      }
    }
  }

  lemma ReversePermutation(p: seq<nat>, n: nat)
    requires IsPermutation(p, n)
    ensures IsPermutation(Reverse(p), n)
  {
    var r := Reverse(p);
    forall a: nat | a < n ensures a in r {
      assert a in p;
      var k :| 0 <= k < |p| && p[k] == a;
      assert r[|p| - 1 - k] == a;
    }
  }

  lemma DescendingAxesPermutation(s: seq<nat>)
    ensures IsPermutation(DescendingAxes(s), |s|)
  {
    ArgSortPrefixPermutation(s, |s|);
    ReversePermutation(ArgSort(s), |s|);
  }

  lemma DescendingExtentsMultiset(s: seq<nat>)
    ensures multiset(Pick(s, DescendingAxes(s))) == multiset(s)
  {
    var q := ArgSort(s);
    PickReverse(s, q);
    ReverseMultiset(Pick(s, q));
    PickArgSortPrefix(s, |s|);
    assert s[..|s|] == s;
  }

  lemma DescendingExtentsOrdered(s: seq<nat>)
    ensures NonIncreasing(Pick(s, DescendingAxes(s)))
  {
    var q := ArgSort(s);
    ArgSortPrefixSorted(s, |s|);
    var e := Pick(s, DescendingAxes(s));
    forall i | 0 <= i < |e| - 1 ensures e[i] >= e[i + 1] {
      assert Before(s, q[|s| - 2 - i], q[|s| - 1 - i]);
    }
    AdjacentNonIncreasing(e);
  }

  /**
   * The argsort-then-reverse order lists every axis once, keeps the multiset
   * of extents, and leaves the extents in non-increasing order: the largest
   * axis first, the smallest last.
   */
  lemma DescendingAxesCorrect(s: seq<nat>)
    ensures IsPermutation(DescendingAxes(s), |s|)
    ensures multiset(Pick(s, DescendingAxes(s))) == multiset(s)
    ensures NonIncreasing(Pick(s, DescendingAxes(s)))
  {
    DescendingAxesPermutation(s);
    DescendingExtentsMultiset(s);
    DescendingExtentsOrdered(s);
  }

  lemma AdjacentNonIncreasing(e: seq<nat>)
    requires forall i :: 0 <= i < |e| - 1 ==> e[i] >= e[i + 1]
    ensures NonIncreasing(e)
  {
    forall i, j | 0 <= i < j < |e| ensures e[i] >= e[j] {
      var k := i;
      while k < j
        invariant i <= k <= j
        invariant e[i] >= e[k]
      {
        k := k + 1;
      }
    }
  }

  /** After reordering, the last extent is the smallest of all the extents. */
  lemma SmallestLast(s: seq<nat>, k: nat)
    requires k < |s|
    ensures |Pick(s, DescendingAxes(s))| == |s|
    ensures Pick(s, DescendingAxes(s))[|s| - 1] <= s[k]
  {
    DescendingAxesCorrect(s);
    var e := Pick(s, DescendingAxes(s));
    assert s[k] in multiset(s);
    assert s[k] in multiset(e);
    var j :| 0 <= j < |e| && e[j] == s[k];
  }

  // ---------------------------------------------------------------------------
  // Two and three extents, the cases the image normaliser meets

  lemma MultisetOfTwo(e: seq<nat>)
    requires |e| == 2
    ensures multiset(e) == multiset{e[0], e[1]}
  {
    assert e == [e[0], e[1]];
  }

  lemma MultisetOfThree(e: seq<nat>)
    requires |e| == 3
    ensures multiset(e) == multiset{e[0], e[1], e[2]}
  {
    assert e == [e[0], e[1], e[2]];
  }

  lemma OrderedTwo(e: seq<nat>, u: seq<nat>)
    requires |e| == 2 && |u| == 2 && multiset(e) == multiset(u) && NonIncreasing(e)
    ensures e[0] >= e[1] && multiset{e[0], e[1]} == multiset{u[0], u[1]}
  {
    MultisetOfTwo(e);
    MultisetOfTwo(u);
  }

  lemma OrderedThree(e: seq<nat>, u: seq<nat>)
    requires |e| == 3 && |u| == 3 && multiset(e) == multiset(u) && NonIncreasing(e)
    ensures e[0] >= e[1] >= e[2] && multiset{e[0], e[1], e[2]} == multiset{u[0], u[1], u[2]}
  {
    MultisetOfThree(e);
    MultisetOfThree(u);
  }

  /** Two extents in descending order: the larger first, the same pair of values. */
  lemma DescendingOfTwo(u: seq<nat>)
    requires |u| == 2
    ensures var e := Pick(u, DescendingAxes(u));
      |e| == 2 && e[0] >= e[1] && multiset{e[0], e[1]} == multiset{u[0], u[1]}
  {
    DescendingExtentsMultiset(u);
    DescendingExtentsOrdered(u);
    OrderedTwo(Pick(u, DescendingAxes(u)), u);
  }

  /** Three extents in descending order: the same three values, largest first. */
  lemma DescendingOfThree(u: seq<nat>)
    requires |u| == 3
    ensures var e := Pick(u, DescendingAxes(u));
      |e| == 3 && e[0] >= e[1] >= e[2] && multiset{e[0], e[1], e[2]} == multiset{u[0], u[1], u[2]}
  {
    DescendingExtentsMultiset(u);
    DescendingExtentsOrdered(u);
    OrderedThree(Pick(u, DescendingAxes(u)), u);
  }

  /** Of three values sorted largest first, the last is the smallest. */
  lemma SortedThreeSmallest(a: nat, b: nat, c: nat, x: nat, y: nat, z: nat)
    requires multiset{a, b, c} == multiset{x, y, z} && a >= b >= c
    ensures c == Min(x, Min(y, z))
  {
    assert x in multiset{a, b, c} && y in multiset{a, b, c} && z in multiset{a, b, c};
    assert c in multiset{x, y, z};
  }

  /** Three values sorted largest first, when the first of the originals is the smallest. */
  lemma SortedThreeFirstSmallest(a: nat, b: nat, c: nat, x: nat, y: nat, z: nat)
    requires multiset{a, b, c} == multiset{x, y, z}
    requires a >= b >= c && x <= y && x <= z
    ensures c == x && a == Max(y, z) && b == Min(y, z)
  {
    assert c == x by {
      assert x in multiset{a, b, c};
      assert c in multiset{x, y, z};
    }
    assert multiset{a, b} == multiset{y, z} by {
      assert multiset{a, b, c} == multiset{a, b} + multiset{c};
      assert multiset{x, y, z} == multiset{y, z} + multiset{x};
    }
    assert y in multiset{a, b} && z in multiset{a, b};
    assert a in multiset{y, z} && b in multiset{y, z};
  }

  /** The descending order of three extents of which the first is the smallest. */
  lemma OrderOfThree(u: seq<nat>)
    requires |u| == 3 && u[0] <= u[1] && u[0] <= u[2]
    ensures Pick(u, DescendingAxes(u)) == [Max(u[1], u[2]), Min(u[1], u[2]), u[0]]
  {
    DescendingOfThree(u);
    var e := Pick(u, DescendingAxes(u));
    SortedThreeFirstSmallest(e[0], e[1], e[2], u[0], u[1], u[2]);
  }
}
