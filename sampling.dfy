/**
 * The sample-selection loops of `plot_data_model`, `plot_activations` and
 * `plot_persistence_diagrams` (gdeep/visualisation/visualiser.py:51-68,
 * 105-109, 133-136).
 *
 * A data loader is the sequence of its batches in iteration order. Every loop
 * reads only element 0 of a batch's inputs and labels, so a batch is that pair.
 */
module Sampling {
  import opened Wrappers
  import opened Arith

  /** Element 0 of a batch's inputs and of its labels (the target). */
  datatype Batch<X, L> = Batch(input: X, target: L)

  /** The dataset overview stops after this many batches (line 66). */
  const DatasetLimit: nat := 1000

  /** The activation loops stop after the batch with this index (lines 108, 135). */
  const LastActivationBatch: nat := 100

  /** Recorded for a label whose `.item()` raises `ValueError` (line 65). */
  const LabelFallback: string := "Label not available"

  /** The first inputs of the batches, in loader order. */
  function Inputs<X, L>(bs: seq<Batch<X, L>>): (r: seq<X>)
    ensures |r| == |bs|
    ensures forall k :: 0 <= k < |bs| ==> r[k] == bs[k].input
  {
    if bs == [] then [] else Inputs(bs[..|bs| - 1]) + [bs[|bs| - 1].input]
  }

  /** The first labels of the batches, in loader order. */
  function Labels<X, L>(bs: seq<Batch<X, L>>): (r: seq<L>)
    ensures |r| == |bs|
    ensures forall k :: 0 <= k < |bs| ==> r[k] == bs[k].target
  {
    if bs == [] then [] else Labels(bs[..|bs| - 1]) + [bs[|bs| - 1].target]
  }

  /**
   * `str(lab[0].item())`, where `toText` is the label's scalar conversion:
   * `None` when `.item()` raises `ValueError`.
   */
  function LabelText<L>(toText: L -> Option<string>, l: L): (r: string)
    ensures toText(l).Some? ==> r == toText(l).value
    ensures r == LabelFallback <==> toText(l) in {None, Some(LabelFallback)}
  {
    match toText(l)
    case Some(text) => text
    case None => LabelFallback
  }

  /** The label texts of the batches, in loader order. */
  function LabelTexts<X, L>(bs: seq<Batch<X, L>>, toText: L -> Option<string>): (r: seq<string>)
    ensures |r| == |bs|
    ensures forall k :: 0 <= k < |bs| ==> r[k] == LabelText(toText, bs[k].target)
  {
    if bs == [] then [] else LabelTexts(bs[..|bs| - 1], toText) + [LabelText(toText, bs[|bs| - 1].target)]
  }

  /**
   * Lines 55-68 after the first batch was taken for the graph: element 0 of
   * each remaining batch is collected with its label text, and the loop
   * breaks once 1000 have been collected.
   */
  method CollectDatasetSamples<X, L>(rest: seq<Batch<X, L>>, toText: L -> Option<string>)
    returns (features: seq<X>, labels: seq<string>)
    ensures |features| == |labels| == Min(DatasetLimit, |rest|)
    ensures features == Inputs(rest[..|features|])
    ensures labels == LabelTexts(rest[..|features|], toText)
  {
    features := [];
    labels := [];
    var index := 0;
    var i := 0;
    while i < |rest|
      invariant 0 <= i <= |rest| && index == i && i < DatasetLimit
      invariant features == Inputs(rest[..i])
      invariant labels == LabelTexts(rest[..i], toText)
    {
      index := index + 1;
      features := features + [rest[i].input];
      labels := labels + [LabelText(toText, rest[i].target)];
      assert rest[..i + 1][..i] == rest[..i];
      i := i + 1;
      if index == DatasetLimit {
        break;
      }
    }
  }

  /**
   * Lines 103-109 (and 132-136, which keep only the inputs): element 0 of
   * batches j = 0, 1, ... is collected, breaking after j = 100 has been
   * appended.
   */
  method CollectFirstSamples<X, L>(loader: seq<Batch<X, L>>) returns (inputs: seq<X>, labels: seq<L>)
    ensures |inputs| == |labels| == Min(LastActivationBatch + 1, |loader|)
    ensures inputs == Inputs(loader[..|inputs|])
    ensures labels == Labels(loader[..|inputs|])
  {
    inputs := [];
    labels := [];
    var j := 0;
    while j < |loader|
      invariant 0 <= j <= |loader| && j <= LastActivationBatch
      invariant inputs == Inputs(loader[..j])
      invariant labels == Labels(loader[..j])
    {
      labels := labels + [loader[j].target];
      inputs := inputs + [loader[j].input];
      assert loader[..j + 1][..j] == loader[..j];
      if j == LastActivationBatch {
        j := j + 1;
        break;
      }
      j := j + 1;
    }
  }

  /**
   * A label whose conversion fails is recorded as the fallback text, and any
   * other label keeps its own text; both lists have one entry per batch.
   */
  lemma LabelTextsFallback<X, L>(bs: seq<Batch<X, L>>, toText: L -> Option<string>, k: nat)
    requires k < |bs|
    ensures |LabelTexts(bs, toText)| == |Inputs(bs)| == |bs|
    ensures toText(bs[k].target).None? ==> LabelTexts(bs, toText)[k] == LabelFallback
    ensures toText(bs[k].target).Some? ==> LabelTexts(bs, toText)[k] == toText(bs[k].target).value
  {
  }

  /** A failing conversion changes only its own entry of the label texts. */
  lemma LabelFailureIsLocal<X, L>(bs: seq<Batch<X, L>>, toText: L -> Option<string>, k: nat, b: Batch<X, L>)
    requires k < |bs|
    ensures LabelTexts(bs[k := b], toText) == LabelTexts(bs, toText)[k := LabelText(toText, b.target)]
  {
  }
}
