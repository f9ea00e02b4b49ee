/**
 * The `Visualiser` of gdeep/visualisation/visualiser.py: its dataset overview,
 * its per-layer activation embeddings, and the persistence-diagram cache that
 * `plot_persistence_diagrams` and `betti_plot_layers` share.
 *
 * The pipeline it reads is a value: the first data loader as its batches, the
 * loader's underlying dataset, and the model-dependent steps (scalar
 * conversion of a label, activation extraction, persistence diagrams) as
 * functions. The writer is the one mutable object besides the visualiser.
 */
module Visualisation {
  import opened Wrappers
  import opened Arith
  import opened Sampling
  import opened Dashboard

  datatype Pipe<!X, !L, !A, D> = Pipe(
    loader: seq<Batch<X, L>>,        // `self.pipe.dataloaders[0]`, in iteration order
    data: seq<X>,                    // `self.pipe.dataloaders[0].dataset.data`
    sampleRank: nat,                 // number of axes of one sample `img[0]`
    labelText: L -> Option<string>,  // `str(lab[0].item())`, None where `.item()` raises ValueError
    activations: seq<X> -> seq<A>,   // `ModelExtractor.get_activations`: one activation per layer
    rows: A -> nat,                  // `act.shape[0]`
    diagrams: seq<A> -> seq<D>)      // `persistence_diagrams_of_activations`

  /** The exceptions the modelled code raises on its own inputs. */
  datatype Failure =
    | StopIteration   // `next` on an empty loader (line 52)
    | EmptyConcat     // `torch.cat` of an empty list (line 69)
    | ZeroDimConcat   // `torch.cat` of zero-dimensional samples (line 69)
    | EmptyStack      // `torch.stack` of an empty list (lines 110, 137, 147)

  datatype Outcome = Done | Raised(failure: Failure)

  /** `dataset.data[:100]`, the inputs of `betti_plot_layers` (line 218). */
  const DataLimit: nat := 100

  // ---------------------------------------------------------------------------
  // What the methods compute, as functions of the pipeline

  /** The batches after the first that feed the dataset overview. */
  function DatasetSample<X, L, A, D>(p: Pipe<X, L, A, D>): (r: seq<Batch<X, L>>)
    requires |p.loader| >= 1
    ensures |r| == Min(DatasetLimit, |p.loader| - 1)
    ensures forall k :: 0 <= k < |r| ==> r[k] == p.loader[k + 1]
  {
    p.loader[1..][..Min(DatasetLimit, |p.loader| - 1)]
  }

  /** Lines 70-94: a grid image for samples of 3 or more axes, then the embedding. */
  function DatasetRecords<X, L, A, D>(p: Pipe<X, L, A, D>): (r: seq<Record<L>>)
    requires |p.loader| >= 1
    ensures |r| == (if p.sampleRank >= 3 then 2 else 1)
    ensures r[|r| - 1].Embedding? && r[|r| - 1].rows == Min(DatasetLimit, |p.loader| - 1)
    ensures r[|r| - 1].withImages == (p.sampleRank >= 3)
  {
    var sample := DatasetSample(p);
    var texts := LabelTexts(sample, p.labelText);
    var images := p.sampleRank >= 3;
    (if images then [Image("dataset", 0)] else []) + [Embedding("dataset", |texts|, Texts(texts), images, 0)]
  }

  /** The inputs of batches 0..100 (lines 103-109, 132-136). */
  function ActivationInputs<X, L, A, D>(p: Pipe<X, L, A, D>): (r: seq<X>)
    ensures |r| == Min(LastActivationBatch + 1, |p.loader|)
    ensures forall k :: 0 <= k < |r| ==> r[k] == p.loader[k].input
  {
    Inputs(p.loader[..Min(LastActivationBatch + 1, |p.loader|)])
  }

  /** Their labels. */
  function ActivationLabels<X, L, A, D>(p: Pipe<X, L, A, D>): (r: seq<L>)
    ensures |r| == Min(LastActivationBatch + 1, |p.loader|)
    ensures forall k :: 0 <= k < |r| ==> r[k] == p.loader[k].target
  {
    Labels(p.loader[..Min(LastActivationBatch + 1, |p.loader|)])
  }

  /** The rows `act.shape[0]` of each layer's activation. */
  function LayerRows<X, L, A, D>(p: Pipe<X, L, A, D>): (r: seq<nat>)
    ensures var acts := p.activations(ActivationInputs(p));
      |r| == |acts| && forall k :: 0 <= k < |r| ==> r[k] == p.rows(acts[k])
  {
    RowsOf(p, p.activations(ActivationInputs(p)))
  }

  /** Layer by layer, the rows of each activation. */
  function RowsOf<X, L, A, D>(p: Pipe<X, L, A, D>, acts: seq<A>): (r: seq<nat>)
    ensures |r| == |acts|
    ensures forall k :: 0 <= k < |r| ==> r[k] == p.rows(acts[k])
  {
    var rows := seq(|acts|, i requires 0 <= i < |acts| => p.rows(acts[i]) as int);
    assert forall k :: 0 <= k < |acts| ==> rows[k] == p.rows(acts[k]) >= 0;
    rows
  }

  /** The diagrams `plot_persistence_diagrams` caches (lines 132-141). */
  function LoaderDiagrams<X, L, A, D>(p: Pipe<X, L, A, D>): (r: seq<D>)
    ensures var n := Min(LastActivationBatch + 1, |p.loader|);
      r == p.diagrams(p.activations(seq(n, k requires 0 <= k < n => p.loader[k].input)))
  {
    var n := Min(LastActivationBatch + 1, |p.loader|);
    assert ActivationInputs(p) == seq(n, k requires 0 <= k < n => p.loader[k].input);
    p.diagrams(p.activations(ActivationInputs(p)))
  }

  /** The diagrams `betti_plot_layers` caches (lines 217-223). */
  function DataDiagrams<X, L, A, D>(p: Pipe<X, L, A, D>): (r: seq<D>)
    ensures |p.data| <= DataLimit ==> r == p.diagrams(p.activations(p.data))
    ensures |p.data| > DataLimit ==> r == p.diagrams(p.activations(p.data[..DataLimit]))
  {
    assert |p.data| <= DataLimit ==> p.data[..Min(DataLimit, |p.data|)] == p.data;
    p.diagrams(p.activations(p.data[..Min(DataLimit, |p.data|)]))
  }

  /** Lines 149-152: the stacked diagram images, then a flush. */
  function PersistenceRecords<L>(count: nat): (r: seq<Record<L>>)
    ensures |r| == 2 && r[1] == Flush
    ensures r[0].Images? && r[0].tag == "persistence_diagrams_of_activations" && r[0].count == count
  {
    [Images("persistence_diagrams_of_activations", count), Flush]
  }

  /** Lines 214-215: any given list of homology dimensions is replaced by [0, 1]. */
  function HomologyDimensions(h: Option<seq<int>>): (r: Option<seq<int>>)
    ensures r.None? <==> h.None?
    ensures h.Some? ==> r == Some([0, 1])
  {
    if h.Some? then Some([0, 1]) else None
  }

  // ---------------------------------------------------------------------------
  // Properties of those functions

  /**
   * The overview skips the batch used for the graph and embeds element 0 of
   * the next min(1000, batches - 1) batches, one row and one label text per
   * batch, in loader order; the grid image is sent exactly when a sample has
   * at least 3 axes.
   */
  lemma DatasetOverview<X, L, A, D>(p: Pipe<X, L, A, D>)
    requires |p.loader| >= 1
    ensures var r := DatasetRecords(p);
      var e := r[|r| - 1];
      && (|r| == 2 <==> p.sampleRank >= 3)
      && (|r| == 2 ==> r[0] == Image("dataset", 0))
      && e.Embedding? && e.tag == "dataset" && e.step == 0 && e.metadata.Texts?
      && e.withImages == (p.sampleRank >= 3)
      && e.rows == |e.metadata.texts| == Min(DatasetLimit, |p.loader| - 1)
      && forall k :: 0 <= k < e.rows ==> e.metadata.texts[k] == LabelText(p.labelText, p.loader[k + 1].target)
  {
  }

  /** The first batch reaches only the graph: replacing it changes nothing in the overview. */
  lemma FirstBatchOnlyForGraph<X, L, A, D>(p: Pipe<X, L, A, D>, b: Batch<X, L>)
    requires |p.loader| >= 1
    ensures DatasetRecords(p.(loader := [b] + p.loader[1..])) == DatasetRecords(p)
  {
    assert ([b] + p.loader[1..])[1..] == p.loader[1..];
  }

  /** At most 101 batches feed the activations, the first ones, in loader order. */
  lemma ActivationSample<X, L, A, D>(p: Pipe<X, L, A, D>)
    ensures |ActivationInputs(p)| == |ActivationLabels(p)| == Min(LastActivationBatch + 1, |p.loader|) <= 101
    ensures forall k :: 0 <= k < |ActivationInputs(p)| ==>
      ActivationInputs(p)[k] == p.loader[k].input && ActivationLabels(p)[k] == p.loader[k].target
  {
  }

  /** Batches after the 101st have no influence on the activation plots. */
  lemma ActivationsIgnoreLaterBatches<X, L, A, D>(p: Pipe<X, L, A, D>, later: seq<Batch<X, L>>)
    requires |p.loader| >= LastActivationBatch + 1
    ensures ActivationInputs(p.(loader := p.loader + later)) == ActivationInputs(p)
    ensures LoaderDiagrams(p.(loader := p.loader + later)) == LoaderDiagrams(p)
  {
    assert (p.loader + later)[..LastActivationBatch + 1] == p.loader[..LastActivationBatch + 1];
  }

  /**
   * The override ignores the contents of the list it is given, and applying
   * it twice changes nothing more.
   */
  lemma HomologyOverride(h: Option<seq<int>>, g: seq<int>)
    ensures h.Some? ==> HomologyDimensions(h) == HomologyDimensions(Some(g))
    ensures HomologyDimensions(HomologyDimensions(h)) == HomologyDimensions(h)
  {
  }

  // ---------------------------------------------------------------------------
  // The visualiser

  class Visualiser<X, L, A, D> {
    const pipe: Pipe<X, L, A, D>
    const writer: Writer<L>
    /** `self.persistence_diagrams`; `None` until one of the two plots fills it. */
    var persistenceDiagrams: Option<seq<D>>
    /** How many times activations have been extracted from the model. */
    ghost var extractions: nat

    /** A filled cache holds the diagrams of one of the two input selections, extracted at least once. */
    ghost predicate Valid()
      reads this
    {
      match persistenceDiagrams
      case None => true
      case Some(d) => extractions >= 1 && (d == LoaderDiagrams(pipe) || d == DataDiagrams(pipe))
    }

    /** Line 41-43. */
    constructor(pipe: Pipe<X, L, A, D>, writer: Writer<L>)
      ensures this.pipe == pipe && this.writer == writer
      ensures persistenceDiagrams == None && extractions == 0
      ensures Valid()
    {
      this.pipe := pipe;
      this.writer := writer;
      persistenceDiagrams := None;
      extractions := 0;
    }

    /** Lines 45-96. */
    method PlotDataModel() returns (outcome: Outcome)
      modifies writer
      ensures |pipe.loader| == 0 ==> outcome == Raised(StopIteration) && writer.log == old(writer.log)
      ensures |pipe.loader| == 1 ==> outcome == Raised(EmptyConcat) && writer.log == old(writer.log) + [Graph]
      ensures |pipe.loader| >= 2 && pipe.sampleRank == 0 ==>
        outcome == Raised(ZeroDimConcat) && writer.log == old(writer.log) + [Graph]
      ensures |pipe.loader| >= 2 && pipe.sampleRank >= 1 ==>
        outcome == Done && writer.log == old(writer.log) + [Graph] + DatasetRecords(pipe) + [Flush]
    {
      if |pipe.loader| == 0 {
        return Raised(StopIteration);
      }
      writer.Add(Graph);
      var features, labels := CollectDatasetSamples(pipe.loader[1..], pipe.labelText);
      var maxNumber := Min(DatasetLimit, |labels|);
      if features == [] {
        return Raised(EmptyConcat);
      }
      if pipe.sampleRank == 0 {
        return Raised(ZeroDimConcat);
      }
      if pipe.sampleRank >= 3 {
        writer.Add(Image("dataset", 0));
        writer.Add(Embedding("dataset", maxNumber, Texts(labels), true, 0));
      } else {
        writer.Add(Embedding("dataset", maxNumber, Texts(labels), false, 0));
      }
      writer.Add(Flush);
      outcome := Done;
    }

    /** Lines 98-125. */
    method PlotActivations() returns (outcome: Outcome)
      requires Valid()
      modifies this, writer
      ensures Valid() && persistenceDiagrams == old(persistenceDiagrams)
      ensures |pipe.loader| == 0 ==>
        outcome == Raised(EmptyStack) && extractions == old(extractions) && writer.log == old(writer.log)
      ensures |pipe.loader| > 0 ==>
        && outcome == Done && extractions == old(extractions) + 1
        && writer.log == old(writer.log) + LayerRecords(LayerRows(pipe), ActivationLabels(pipe))
    {
      var inputs, labels := CollectFirstSamples(pipe.loader);
      if inputs == [] {
        return Raised(EmptyStack);
      }
      var acts := pipe.activations(inputs);
      extractions := extractions + 1;
      assert inputs == ActivationInputs(pipe);
      SendLayers(acts, labels);
      outcome := Done;
    }

    /** Lines 116-125: one embedding and one flush per layer, in layer order. */
    method SendLayers(acts: seq<A>, labels: seq<L>)
      modifies writer
      ensures writer.log == old(writer.log) + LayerRecords(RowsOf(pipe, acts), labels)
    {
      ghost var rows := RowsOf(pipe, acts);
      ghost var log0 := writer.log;
      var i := 0;
      while i < |acts|
        invariant 0 <= i <= |acts| == |rows|
        invariant writer.log == log0 + LayerRecords(rows[..i], labels)
      {
        var length := pipe.rows(acts[i]);
        var embedding := Embedding(ActivationTag(i), length, Values(labels), false, 0);
        ghost var before := writer.log;
        writer.Add(embedding);
        writer.Add(Flush);
        LayerRecordsAppend(log0, before, rows, labels, i, embedding);
        i := i + 1;
      }
      assert rows[..i] == rows;
    }

    /** Lines 127-152. */
    method PlotPersistenceDiagrams() returns (outcome: Outcome)
      requires Valid()
      modifies this, writer
      ensures Valid()
      ensures old(persistenceDiagrams).Some? ==>
        persistenceDiagrams == old(persistenceDiagrams) && extractions == old(extractions)
      ensures old(persistenceDiagrams).None? && |pipe.loader| == 0 ==>
        && persistenceDiagrams == None && extractions == old(extractions)
        && outcome == Raised(EmptyStack) && writer.log == old(writer.log)
      ensures old(persistenceDiagrams).None? && |pipe.loader| > 0 ==>
        persistenceDiagrams == Some(LoaderDiagrams(pipe)) && extractions == old(extractions) + 1
      ensures persistenceDiagrams.Some? && persistenceDiagrams.value == [] ==>
        outcome == Raised(EmptyStack) && writer.log == old(writer.log)
      ensures persistenceDiagrams.Some? && persistenceDiagrams.value != [] ==>
        outcome == Done && writer.log == old(writer.log) + PersistenceRecords(|persistenceDiagrams.value|)
    {
      if persistenceDiagrams.None? {
        var inputs, _ := CollectFirstSamples(pipe.loader);
        if inputs == [] {
          return Raised(EmptyStack);
        }
        var activ := pipe.activations(inputs);
        extractions := extractions + 1;
        persistenceDiagrams := Some(pipe.diagrams(activ));
      }
      var count := |persistenceDiagrams.value|;
      if count == 0 {
        return Raised(EmptyStack);
      }
      writer.Add(Images("persistence_diagrams_of_activations", count));
      writer.Add(Flush);
      outcome := Done;
    }

    /**
     * Lines 192-232 up to the plotting: returns the homology dimensions and
     * the diagrams handed to the Betti-curve plot.
     */
    method BettiPlotLayers(homologyDimension: Option<seq<int>>) returns (dims: Option<seq<int>>, plotted: seq<D>)
      requires Valid()
      modifies this
      ensures Valid()
      ensures dims == HomologyDimensions(homologyDimension)
      ensures old(persistenceDiagrams).Some? ==>
        persistenceDiagrams == old(persistenceDiagrams) && extractions == old(extractions)
      ensures old(persistenceDiagrams).None? ==>
        persistenceDiagrams == Some(DataDiagrams(pipe)) && extractions == old(extractions) + 1
      ensures persistenceDiagrams == Some(plotted)
    {
      dims := homologyDimension;
      if dims.Some? {
        dims := Some([0, 1]);
      }
      if persistenceDiagrams.None? {
        var inputs := pipe.data[..Min(DataLimit, |pipe.data|)];
        extractions := extractions + 1;
        persistenceDiagrams := Some(pipe.diagrams(pipe.activations(inputs)));
      }
      plotted := persistenceDiagrams.value;
    }
  }

  /**
   * Once the cache is filled, further diagram and Betti plots reuse it: a
   * persistence plot followed by any number of Betti plots extracts
   * activations at most once.
   */
  method PlotDiagramsThenBetti<X, L, A, D>(v: Visualiser<X, L, A, D>, h: Option<seq<int>>, times: nat)
    returns (outcome: Outcome)
    requires v.Valid() && |v.pipe.loader| > 0
    modifies v, v.writer
    ensures v.Valid()
    ensures v.persistenceDiagrams.Some?
    ensures old(v.persistenceDiagrams).None? ==>
      v.persistenceDiagrams == Some(LoaderDiagrams(v.pipe)) && v.extractions == old(v.extractions) + 1
    ensures old(v.persistenceDiagrams).Some? ==>
      v.persistenceDiagrams == old(v.persistenceDiagrams) && v.extractions == old(v.extractions)
  {
    outcome := v.PlotPersistenceDiagrams();
    ghost var filled := v.persistenceDiagrams;
    ghost var count := v.extractions;
    var n := 0;
    while n < times
      invariant v.Valid() && v.persistenceDiagrams == filled && v.extractions == count
    {
      var _, _ := v.BettiPlotLayers(h);
      n := n + 1;
    }
  }
}
