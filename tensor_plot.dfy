/**
 * `Visualiser._adjust_tensors_to_plot` (gdeep/visualisation/visualiser.py:386-405):
 * coerce an attribution or input tensor into a height x width x channel image.
 *
 * A tensor is its shape and the entry at each index; entries at indices outside
 * the shape mean nothing. Every step of the source that torch can reject is a
 * step that returns `None` here, so the normaliser is total.
 */
module TensorPlot {
  import opened Wrappers
  import opened Arith
  import opened AxisOrder

  datatype Tensor<T> = Tensor(shape: seq<nat>, at: seq<nat> -> T)

  /** `idx` addresses an entry of a tensor of this shape. */
  predicate IsIndex(shape: seq<nat>, idx: seq<nat>)
  {
    |idx| == |shape| && forall k :: 0 <= k < |idx| ==> idx[k] < shape[k]
  }

  // ---------------------------------------------------------------------------
  // permute

  /** Where axis `a` is listed in `p` (|p| when it is not). */
  function Pos(p: seq<nat>, a: nat): (k: nat)
    ensures a in p ==> k < |p| && p[k] == a
  {
    if p == [] || p[0] == a then 0 else 1 + Pos(p[1..], a)
  }

  /**
   * The source index read by entry `idx` of `permute(p)`: result axis k is
   * source axis p[k], so source axis a is read from result axis Pos(p, a).
   */
  function Scatter(p: seq<nat>, idx: seq<nat>): seq<nat>
  {
    seq(|p|, a requires 0 <= a < |p| => if Pos(p, a) < |idx| then idx[Pos(p, a)] else 0)
  }

  /** `t.permute(*p)`: result axis k has the extent of source axis p[k]. */
  function Permute<T>(t: Tensor<T>, p: seq<nat>): (r: Tensor<T>)
    requires IsPermutation(p, |t.shape|)
    ensures |r.shape| == |t.shape|
    ensures forall k :: 0 <= k < |p| ==> r.shape[k] == t.shape[p[k]]
  {
    Tensor(Pick(t.shape, p), idx => t.at(Scatter(p, idx)))
  }

  lemma ScatterPick(p: seq<nat>, j: seq<nat>)
    requires IsPermutation(p, |j|)
    ensures Scatter(p, Pick(j, p)) == j
  {
    var g := Pick(j, p);
    forall a | 0 <= a < |j| ensures Scatter(p, g)[a] == j[a] {
      assert a in p;
    }
  }

  /**
   * `permute(p)` moves the entry at source index j to the index that lists
   * j's coordinates in the order p gives, and that index lies in the result.
   */
  lemma PermuteMovesEntries<T>(t: Tensor<T>, p: seq<nat>, j: seq<nat>)
    requires IsPermutation(p, |t.shape|) && IsIndex(t.shape, j)
    ensures IsIndex(Permute(t, p).shape, Pick(j, p))
    ensures Permute(t, p).at(Pick(j, p)) == t.at(j)
  {
    ScatterPick(p, j);
  }

  /** Every entry of `permute(p)` is an entry of the source. */
  lemma PermuteReadsEntries<T>(t: Tensor<T>, p: seq<nat>, idx: seq<nat>)
    requires IsPermutation(p, |t.shape|) && IsIndex(Permute(t, p).shape, idx)
    ensures IsIndex(t.shape, Scatter(p, idx))
  {
    forall a | 0 <= a < |t.shape| ensures Scatter(p, idx)[a] < t.shape[a] {
      assert a in p;
    }
  }

  lemma SwapIsPermutation()
    ensures IsPermutation([1, 0, 2], 3)
  {
    var p: seq<nat> := [1, 0, 2];
    forall a: nat | a < 3 ensures a in p {
      assert p[Pos(p, a)] == a;
    }
  }

  /** `permute(1, 0, 2)` (line 405): the first two extents trade places. */
  function Swap<T>(w: Tensor<T>): (r: Tensor<T>)
    requires |w.shape| == 3
    ensures r.shape == [w.shape[1], w.shape[0], w.shape[2]]
  {
    SwapIsPermutation();
    Permute(w, [1, 0, 2])
  }

  /** `permute(1, 0, 2)` on a 3-axis tensor swaps its first two axes. */
  lemma SwapEntries<T>(w: Tensor<T>, i: nat, j: nat, k: nat)
    requires |w.shape| == 3
    ensures Swap(w).shape == [w.shape[1], w.shape[0], w.shape[2]]
    ensures Swap(w).at([i, j, k]) == w.at([j, i, k])
  {
    SwapIsPermutation();
    var p: seq<nat> := [1, 0, 2];
    assert Pos(p, 0) == 1 && Pos(p, 1) == 0 && Pos(p, 2) == 2;
    assert Scatter(p, [i, j, k]) == [j, i, k];
  }

  // ---------------------------------------------------------------------------
  // The four steps of the normaliser, on shapes and on tensors

  /** Lines 390-393: `tensor[0]` for 4 axes, `tensor[0, :, :, :, 0]` for more. */
  function ReduceShape(s: seq<nat>): (r: Option<seq<nat>>)
    ensures r.None? <==> (|s| >= 4 && s[0] == 0) || (|s| > 4 && s[4] == 0)
    ensures r.Some? ==> |r.value| == (if |s| > 4 then |s| - 2 else if |s| == 4 then 3 else |s|)
    ensures r.Some? && |s| > 4 ==> forall k :: 0 <= k < |r.value| ==> r.value[k] == s[if k < 3 then k + 1 else k + 2]
    ensures r.Some? && |s| == 4 ==> r.value == s[1..]
    ensures |s| < 4 ==> r == Some(s)
  {
    if |s| == 4 then (if s[0] == 0 then None else Some(s[1..]))
    else if |s| > 4 then (if s[0] == 0 || s[4] == 0 then None else Some(s[1..4] + s[5..]))
    else Some(s)
  }

  /** The source index of entry `idx` of `tensor[0, :, :, :, 0]`. */
  function Lift5(idx: seq<nat>): seq<nat>
  {
    if |idx| < 3 then [0] + idx + [0] else [0] + idx[..3] + [0] + idx[3..]
  }

  function Reduce<T>(t: Tensor<T>): (r: Option<Tensor<T>>)
    ensures r.Some? == ReduceShape(t.shape).Some?
    ensures r.Some? ==> r.value.shape == ReduceShape(t.shape).value
  {
    var s := t.shape;
    if |s| == 4 then
      if s[0] == 0 then None else Some(Tensor(s[1..], idx => t.at([0] + idx)))
    else if |s| > 4 then
      if s[0] == 0 || s[4] == 0 then None else Some(Tensor(s[1..4] + s[5..], idx => t.at(Lift5(idx))))
    else Some(t)
  }

  /**
   * Lines 399-404 on the shape: a last extent of 2 becomes 3 (through a zero
   * tensor of shape (s0, s1, 3)), any other is cut to at most 4 by `[:, :, :4]`.
   */
  function FitChannelsShape(s: seq<nat>): (r: Option<seq<nat>>)
    ensures r.Some? ==> |r.value| == 3 && r.value[2] != 2 && r.value[2] <= 4
  {
    if |s| == 0 then None
    else if s[|s| - 1] == 2 then
      if |s| == 3 then Some([s[0], s[1], 3])
      else if |s| == 2 && (s[0] == 1 || s[0] == 2) then Some([s[0], 2, 3])
      else None
    else if |s| == 3 then Some([s[0], s[1], Min(s[2], 4)])
    else None
  }

  /**
   * Lines 399-404 on the entries. `temporary[:, :, :2] = tensor` copies a
   * 3-axis tensor into the first two channels; a 2-axis tensor of shape
   * (s0, 2) is broadcast over the new leading axis, which torch accepts only
   * when s0 is 1 or 2. The slice `[:, :, :4]` needs at least 3 axes; with
   * more than 3 the final `permute(1, 0, 2)` (line 405) fails, so those
   * tensors are rejected here.
   */
  function FitChannels<T>(t: Tensor<T>, zero: T): (r: Option<Tensor<T>>)
    ensures r.Some? == FitChannelsShape(t.shape).Some?
    ensures r.Some? ==> r.value.shape == FitChannelsShape(t.shape).value
  {
    var s := t.shape;
    if |s| == 0 then None
    else if s[|s| - 1] == 2 then
      if |s| == 3 then
        Some(Tensor([s[0], s[1], 3], idx => if |idx| == 3 && idx[2] < 2 then t.at(idx) else zero))
      else if |s| == 2 && (s[0] == 1 || s[0] == 2) then
        Some(Tensor([s[0], 2, 3],
          idx => if |idx| == 3 && idx[2] < 2 then t.at([if s[0] == 1 then 0 else idx[1], idx[2]]) else zero))
      else None
    else if |s| == 3 then Some(Tensor([s[0], s[1], Min(s[2], 4)], t.at))
    else None
  }

  /** The whole normaliser on shapes: an image has 3 axes and at most 4 channels, never 2. */
  function AdjustShape(s: seq<nat>): (r: Option<seq<nat>>)
    ensures r.Some? ==> ReduceShape(s).Some? && |r.value| == 3 && r.value[2] != 2 && r.value[2] <= 4
  {
    match ReduceShape(s)
    case None => None
    case Some(u) =>
      match FitChannelsShape(Pick(u, DescendingAxes(u)))
      case None => None
      case Some(w) => Some([w[1], w[0], w[2]])
  }

  /** `_adjust_tensors_to_plot(t)`, `None` where torch raises. */
  function Adjust<T>(t: Tensor<T>, zero: T): (r: Option<Tensor<T>>)
    ensures r.Some? == AdjustShape(t.shape).Some?
    ensures r.Some? ==> r.value.shape == AdjustShape(t.shape).value
  {
    match Reduce(t)
    case None => None
    case Some(u) =>
      DescendingAxesPermutation(u.shape);
      var v := Permute(u, DescendingAxes(u.shape));
      match FitChannels(v, zero)
      case None => None
      case Some(w) =>
        SwapEntries(w, 0, 0, 0);
        Some(Swap(w))
  }

  // ---------------------------------------------------------------------------
  // Properties

  /** An index of `s[1..]` with 0 in front is an index of `s`. */
  lemma IndexAfterFirst(s: seq<nat>, idx: seq<nat>)
    requires |s| >= 1 && s[0] > 0 && IsIndex(s[1..], idx)
    ensures IsIndex(s, [0] + idx)
  {
    var j := [0] + idx;
    assert forall k :: 1 <= k < |j| ==> j[k] == idx[k - 1] < s[k];
  }

  /** An index of `s[1..4]` with 0 around it is an index of a 5-axis `s`. */
  lemma IndexInsideFive(s: seq<nat>, idx: seq<nat>)
    requires |s| == 5 && s[0] > 0 && s[4] > 0 && IsIndex(s[1..4], idx)
    ensures IsIndex(s, [0] + idx + [0])
  {
    var j := [0] + idx + [0];
    assert forall k :: 1 <= k < 4 ==> j[k] == idx[k - 1] < s[k];
  }

  /** Reducing the rank keeps the remaining entries unchanged. */
  lemma ReduceEntries<T>(t: Tensor<T>, idx: seq<nat>)
    requires Reduce(t).Some? && IsIndex(Reduce(t).value.shape, idx)
    ensures |t.shape| < 4 ==> Reduce(t).value.shape == t.shape && Reduce(t).value.at(idx) == t.at(idx)
    ensures |t.shape| == 4 ==> |idx| == 3 && IsIndex(t.shape, [0] + idx) && Reduce(t).value.at(idx) == t.at([0] + idx)
    ensures |t.shape| == 5 ==> |idx| == 3 && IsIndex(t.shape, [0] + idx + [0]) && Reduce(t).value.at(idx) == t.at([0] + idx + [0])
  {
    var s := t.shape;
    if |s| == 4 {
      assert Reduce(t) == Some(Tensor(s[1..], i => t.at([0] + i)));
      IndexAfterFirst(s, idx);
    } else if |s| == 5 {
      assert Reduce(t) == Some(Tensor(s[1..4] + s[5..], i => t.at(Lift5(i))));
      assert s[1..4] + s[5..] == s[1..4];
      assert Lift5(idx) == [0] + idx + [0] by {
        assert idx[..3] == idx && idx[3..] == [];
      }
      IndexInsideFive(s, idx);
    }
  }

  /** A tensor of rank 3, a rank-4 one with a first entry or a rank-5 one with a first and last entry reduces to 3 axes. */
  lemma ReduceToThreeAxes(s: seq<nat>)
    requires |s| == 3 || (|s| == 4 && s[0] > 0) || (|s| == 5 && s[0] > 0 && s[4] > 0)
    ensures ReduceShape(s).Some? && |ReduceShape(s).value| == 3
  {
  }

  /** With the last extent 2, channels 0 and 1 are those of the input and channel 2 is zero. */
  lemma FitChannelsPads<T>(t: Tensor<T>, zero: T, idx: seq<nat>)
    requires |t.shape| == 3 && t.shape[2] == 2
    requires FitChannels(t, zero).Some? && IsIndex(FitChannels(t, zero).value.shape, idx)
    ensures FitChannels(t, zero).value.shape[2] == 3
    ensures idx[2] < 2 ==> IsIndex(t.shape, idx) && FitChannels(t, zero).value.at(idx) == t.at(idx)
    ensures idx[2] == 2 ==> FitChannels(t, zero).value.at(idx) == zero
  {
  }

  /** Otherwise at most 4 channels are kept, unchanged. */
  lemma FitChannelsTruncates<T>(t: Tensor<T>, zero: T, idx: seq<nat>)
    requires |t.shape| == 3 && t.shape[2] != 2
    requires FitChannels(t, zero).Some? && IsIndex(FitChannels(t, zero).value.shape, idx)
    ensures FitChannels(t, zero).value.shape[2] == Min(t.shape[2], 4)
    ensures IsIndex(t.shape, idx) && FitChannels(t, zero).value.at(idx) == t.at(idx)
  {
  }

  /** Of a pair in descending order, only (2, 2) passes the broadcast at line 401. */
  lemma BroadcastablePair(a: nat, b: nat, x: nat, y: nat)
    requires multiset{a, b} == multiset{x, y} && a >= b
    ensures (b == 2 && (a == 1 || a == 2)) <==> (x == 2 && y == 2)
  {
    assert a in multiset{x, y} && b in multiset{x, y};
    assert x in multiset{a, b} && y in multiset{a, b};
  }

  /**
   * The normaliser succeeds exactly on 3-axis tensors, 4-axis tensors with a
   * first entry along axis 0, 5-axis tensors with a first entry along axes 0
   * and 4, and the 2 x 2 matrix, which torch broadcasts into the zero tensor.
   */
  lemma AdjustSucceeds(s: seq<nat>)
    ensures AdjustShape(s).Some? <==>
      |s| == 3 || (|s| == 4 && s[0] > 0) || (|s| == 5 && s[0] > 0 && s[4] > 0) || s == [2, 2]
  {
    match ReduceShape(s)
    case None =>
    case Some(u) =>
      if |u| == 2 {
        assert u == s;
        assert s == [2, 2] <==> s[0] == 2 && s[1] == 2;
        DescendingOfTwo(u);
        var e := Pick(u, DescendingAxes(u));
        BroadcastablePair(e[0], e[1], u[0], u[1]);
      }
  }

  /**
   * On a tensor that reduces to 3 axes, with e the extents in the order
   * chosen at lines 394-396 (the reduced extents, largest first): the image
   * has the two largest extents swapped, then 3 channels when the smallest
   * extent is 2 and at most 4 otherwise.
   */
  lemma AdjustShapeOfThreeAxes(s: seq<nat>)
    requires |s| == 3 || (|s| == 4 && s[0] > 0) || (|s| == 5 && s[0] > 0 && s[4] > 0)
    ensures ReduceShape(s).Some? && |ReduceShape(s).value| == 3
    ensures var u := ReduceShape(s).value;
            var e := Pick(u, DescendingAxes(u));
            && multiset{e[0], e[1], e[2]} == multiset{u[0], u[1], u[2]}
            && e[0] >= e[1] >= e[2]
            && AdjustShape(s) == Some([e[1], e[0], if e[2] == 2 then 3 else Min(e[2], 4)])
  {
    DescendingOfThree(ReduceShape(s).value);
  }

  /**
   * Every entry of the reduced tensor whose position after reordering falls
   * in a kept channel appears in the image, with the first two coordinates
   * of that position swapped.
   */
  lemma AdjustKeepsEntries<T>(t: Tensor<T>, zero: T, j: seq<nat>)
    requires |t.shape| == 3 || (|t.shape| == 4 && t.shape[0] > 0) || (|t.shape| == 5 && t.shape[0] > 0 && t.shape[4] > 0)
    requires Reduce(t).Some? && IsIndex(Reduce(t).value.shape, j)
    ensures Adjust(t, zero).Some?
    ensures var p := DescendingAxes(Reduce(t).value.shape);
            InBounds(p, |j|) &&
            var g := Pick(j, p);
            g[2] < 4 ==>
              IsIndex(Adjust(t, zero).value.shape, [g[1], g[0], g[2]]) &&
              Adjust(t, zero).value.at([g[1], g[0], g[2]]) == Reduce(t).value.at(j)
  {
    AdjustSucceeds(t.shape);
    var u := Reduce(t).value;
    var p := DescendingAxes(u.shape);
    DescendingAxesPermutation(u.shape);
    var v := Permute(u, p);
    PermuteMovesEntries(u, p, j);
    assert Adjust(t, zero) == Some(Swap(FitChannels(v, zero).value));
    var g := Pick(j, p);
    if g[2] < 4 {
      FitAndSwapKeep(v, zero, g);
    }
  }

  /** The last two steps keep every entry of a kept channel, first two coordinates swapped. */
  lemma FitAndSwapKeep<T>(v: Tensor<T>, zero: T, g: seq<nat>)
    requires |v.shape| == 3 && FitChannels(v, zero).Some? && IsIndex(v.shape, g) && g[2] < 4
    ensures var w := FitChannels(v, zero).value;
            IsIndex(Swap(w).shape, [g[1], g[0], g[2]]) && Swap(w).at([g[1], g[0], g[2]]) == v.at(g)
  {
    var w := FitChannels(v, zero).value;
    if v.shape[2] == 2 {
      FitChannelsPads(v, zero, g);
    } else {
      FitChannelsTruncates(v, zero, g);
    }
    SwapEntries(w, g[1], g[0], g[2]);
    assert g == [g[0], g[1], g[2]];
  }

  /** When the smallest reduced extent is 2, channel 2 of the image is zero everywhere. */
  lemma AdjustPadsZero<T>(t: Tensor<T>, zero: T, i: nat, j: nat)
    requires Reduce(t).Some?
    requires var u := Reduce(t).value.shape; |u| == 3 && Min(u[0], Min(u[1], u[2])) == 2
    ensures Adjust(t, zero).Some?
    ensures Adjust(t, zero).value.shape[2] == 3
    ensures Adjust(t, zero).value.at([i, j, 2]) == zero
  {
    var u := Reduce(t).value;
    var p := DescendingAxes(u.shape);
    DescendingAxesPermutation(u.shape);
    DescendingOfThree(u.shape);
    var e := Pick(u.shape, p);
    SortedThreeSmallest(e[0], e[1], e[2], u.shape[0], u.shape[1], u.shape[2]);
    var v := Permute(u, p);
    assert v.shape == e && e[2] == 2;
    var w := FitChannels(v, zero).value;
    assert Adjust(t, zero) == Some(Swap(w));
    SwapEntries(w, i, j, 2);
  }

  /** A (B, 5, H, W) input with H, W >= 5 becomes a min(H,W) x max(H,W) image of 4 channels. */
  lemma FiveChannelsBecomeFour(b: nat, h: nat, w: nat)
    requires b >= 1 && h >= 5 && w >= 5
    ensures AdjustShape([b, 5, h, w]) == Some([Min(h, w), Max(h, w), 4])
  {
    var u := [5, h, w];
    assert ReduceShape([b, 5, h, w]) == Some(u);
    OrderOfThree(u);
  }

  /** A (B, 2, H, W) input with H, W >= 2 becomes a min(H,W) x max(H,W) image of 3 channels. */
  lemma TwoChannelsBecomeThree(b: nat, h: nat, w: nat)
    requires b >= 1 && h >= 2 && w >= 2
    ensures AdjustShape([b, 2, h, w]) == Some([Min(h, w), Max(h, w), 3])
  {
    var u := [2, h, w];
    assert ReduceShape([b, 2, h, w]) == Some(u);
    OrderOfThree(u);
  }
}
