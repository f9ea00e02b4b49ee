# A verified model of giotto-deep's `Visualiser`

`gdeep/visualisation/visualiser.py` connects a training pipeline to a TensorBoard
writer. Most of that file calls plotting and topology libraries. This project
models the deterministic logic the file contains itself, and proves what that
logic promises:

- **The image normaliser `_adjust_tensors_to_plot`** (`TensorPlot`, `AxisOrder`).
  It takes a tensor and returns a height × width × channel image. The steps are:
  1. drop the batch axis (and, for 5 or more axes, axis 4);
  2. order the axes by non-increasing extent (argsort, then reverse);
  3. pad a 2-channel last axis to 3 with zeros, or otherwise cut it to at most 4;
  4. swap the first two axes.

  A tensor is its shape plus the entry at each index, so every rank has one
  type. The normaliser gives `None` wherever torch would raise. It is modelled
  twice:
  - on shapes (`AdjustShape`);
  - on entries (`Adjust`), with a distinguished `zero` for the padding.
- **The sample-selection loops** (`Sampling`). `plot_data_model` uses the first
  batch for the graph. It then collects element 0 of up to 1000 further
  batches, each with a label text; a label whose scalar conversion fails gets
  `"Label not available"`. `plot_activations` and `plot_persistence_diagrams`
  collect element 0 of batches 0 to 100.
- **The visualiser and its persistence-diagram cache** (`Visualisation`,
  `Dashboard`).
  - `Visualiser` is a class. `persistenceDiagrams` is an `Option` field. A ghost
    counter counts activation extractions.
  - The writer is a class whose log is an append-only sequence of records.
  - `plot_persistence_diagrams` and `betti_plot_layers` fill the cache lazily.
    Neither ever empties it.
  - Each method states the whole new state: log, cache and counter, including
    every path that raises.
  - `Valid()` is preserved by every method: a filled cache holds the diagrams of
    one of the two input selections.
- **The homology-dimension override of `betti_plot_layers`**. The model keeps the
  code as written: any list the caller passes becomes `[0, 1]`, and `None`
  stays `None`.

The loader and the dataset come from the pipeline (`self.pipe`). The label
conversion is torch's `.item()`. Activation extraction is `ModelExtractor` from
`gdeep.models`. The diagram computation is `persistence_diagrams_of_activations`
from `gdeep.visualisation`. All of these are external to this file; the model
receives them as values and functions in `Pipe`.

Three behaviours of the code may be unexpected. The model follows the code in each:
- an empty loader makes `plot_data_model` raise `StopIteration` at line 52;
- a one-batch loader makes it raise in `torch.cat` at line 69, after the graph
  was already written;
- the dataset embedding has min(1000, batches − 1) rows.

`torch.argsort` does not promise an order for equal extents. The model fixes
one: a stable ascending sort, so equal extents come out in decreasing axis
order after the reversal. Three members depend on that rule:
`AxisOrder.ArgSort` and `AxisOrder.ArgSortPrefixSorted` state it, and
`TensorPlot.AdjustKeepsEntries` places each entry where the fixed order puts it. When extents are equal,
another tie order would put those entries elsewhere. The other normaliser
properties speak only of extents, so they hold whatever the tie order.

## Model

| member | source | states |
|---|---|---|
| AxisOrder.ArgSort | gdeep/visualisation/visualiser.py:394 | the argsort lists every axis exactly once, by ascending extent, with equal extents in axis order |
| AxisOrder.Reverse | gdeep/visualisation/visualiser.py:395 | `list.reverse()`: same length, entry i is the input's i-th entry counted from the end |
| AxisOrder.DescendingAxes | gdeep/visualisation/visualiser.py:394-395 | the argsort-then-reverse order has one entry per axis, each an axis of the tensor |
| AxisOrder.ArgSortPrefixSorted | gdeep/visualisation/visualiser.py:394 | the argsort lists axes by ascending extent, with equal extents in axis order |
| AxisOrder.DescendingAxesPermutation | gdeep/visualisation/visualiser.py:394-396 | the order passed to `permute` lists every axis exactly once |
| AxisOrder.DescendingExtentsMultiset | gdeep/visualisation/visualiser.py:394-396 | reordering keeps the multiset of extents |
| AxisOrder.DescendingExtentsOrdered | gdeep/visualisation/visualiser.py:394-396 | after reordering, the extents do not increase |
| AxisOrder.DescendingAxesCorrect | gdeep/visualisation/visualiser.py:394-396 | the three facts together: a permutation of axes, the same extents, non-increasing |
| AxisOrder.SmallestLast | gdeep/visualisation/visualiser.py:394-396 | the last extent after reordering is no larger than any extent of the tensor |
| AxisOrder.DescendingOfTwo | gdeep/visualisation/visualiser.py:394-396 | for two axes: the larger extent first, the same pair of values |
| AxisOrder.DescendingOfThree | gdeep/visualisation/visualiser.py:394-396 | for three axes: the same three values, largest first |
| AxisOrder.OrderOfThree | gdeep/visualisation/visualiser.py:394-396 | three extents whose first is the smallest end up as (max, min) of the other two, then the first |
| TensorPlot.Permute | gdeep/visualisation/visualiser.py:396 | `permute(*p)` keeps the rank, and result axis k has the extent of source axis p[k] |
| TensorPlot.Swap | gdeep/visualisation/visualiser.py:405 | `permute(1, 0, 2)` trades the first two extents and keeps the third |
| TensorPlot.ReduceShape | gdeep/visualisation/visualiser.py:390-393 | raises exactly when 4+ axes have an empty axis 0, or 5+ an empty axis 4; otherwise the rank drops by 1 for 4 axes and by 2 for 5 or more, keeping extents 1-3 and 5 onward; a 4-axis shape becomes exactly its extents 1-3, and a shorter one is unchanged |
| TensorPlot.PermuteMovesEntries | gdeep/visualisation/visualiser.py:396 | `permute(p)` moves the entry at index j to the index listing j's coordinates in order p, which lies in the result |
| TensorPlot.PermuteReadsEntries | gdeep/visualisation/visualiser.py:396 | every index of the permuted tensor reads an index of the source |
| TensorPlot.SwapEntries | gdeep/visualisation/visualiser.py:405 | `permute(1, 0, 2)` gives shape (s1, s0, s2) and output[i][j][k] = input[j][i][k] |
| TensorPlot.Reduce | gdeep/visualisation/visualiser.py:390-393 | a 4-axis tensor loses axis 0, a longer one axes 0 and 4, and an empty indexed axis raises |
| TensorPlot.ReduceEntries | gdeep/visualisation/visualiser.py:390-393 | the reduced tensor is `t`, `t[0]` or `t[0, :, :, :, 0]`, entry for entry |
| TensorPlot.ReduceToThreeAxes | gdeep/visualisation/visualiser.py:390-393 | inputs of 3 axes, 4 with axis 0 non-empty, or 5 with axes 0 and 4 non-empty reduce to 3 axes |
| TensorPlot.FitChannelsShape | gdeep/visualisation/visualiser.py:399-404 | when the channel step succeeds, the result has 3 axes and at most 4 channels, never 2 |
| TensorPlot.FitChannels | gdeep/visualisation/visualiser.py:399-404 | on tensors, the channel step succeeds exactly when the shape-level step does, with that shape |
| TensorPlot.FitChannelsPads | gdeep/visualisation/visualiser.py:399-402 | a last extent of 2 becomes 3: channels 0 and 1 are the input's, channel 2 is zero |
| TensorPlot.FitChannelsTruncates | gdeep/visualisation/visualiser.py:403-404 | otherwise min(extent, 4) channels are kept, unchanged |
| TensorPlot.BroadcastablePair | gdeep/visualisation/visualiser.py:401 | of two extents in descending order, only (2, 2) can be broadcast into the zero tensor |
| TensorPlot.AdjustShape | gdeep/visualisation/visualiser.py:386-405 | on shapes: a successful normaliser passed the reduction and gives 3 axes with at most 4 channels, never 2 |
| TensorPlot.Adjust | gdeep/visualisation/visualiser.py:386-405 | the normaliser on tensors succeeds exactly when it does on shapes, with that shape |
| TensorPlot.AdjustSucceeds | gdeep/visualisation/visualiser.py:386-405 | success iff: 3 axes; 4 axes with axis 0 non-empty; 5 axes with axes 0 and 4 non-empty; or shape (2, 2) |
| TensorPlot.AdjustShapeOfThreeAxes | gdeep/visualisation/visualiser.py:386-405 | image shape is (e1, e0, 3 if e2 = 2 else min(e2, 4)), where e is the reduced extents sorted largest first |
| TensorPlot.AdjustKeepsEntries | gdeep/visualisation/visualiser.py:386-405 | every reduced entry in a kept channel appears in the image, moved by the reordering and the swap |
| TensorPlot.FitAndSwapKeep | gdeep/visualisation/visualiser.py:399-405 | padding or cutting, then swapping, keeps each kept entry with its first two coordinates swapped |
| TensorPlot.AdjustPadsZero | gdeep/visualisation/visualiser.py:399-405 | if the smallest reduced extent is 2, the image has 3 channels and channel 2 is zero everywhere |
| TensorPlot.FiveChannelsBecomeFour | gdeep/visualisation/visualiser.py:386-405 | a (B, 5, H, W) input with H, W ≥ 5 gives a min(H,W) × max(H,W) image of 4 channels |
| TensorPlot.TwoChannelsBecomeThree | gdeep/visualisation/visualiser.py:386-405 | a (B, 2, H, W) input with H, W ≥ 2 gives a min(H,W) × max(H,W) image of 3 channels |
| Sampling.Inputs | gdeep/visualisation/visualiser.py:61 | one first input per batch, in loader order |
| Sampling.Labels | gdeep/visualisation/visualiser.py:106 | one first label per batch, in loader order |
| Sampling.LabelText | gdeep/visualisation/visualiser.py:62-65 | a label that converts keeps its text; the result is "Label not available" exactly when the conversion fails or yields that text |
| Sampling.LabelTexts | gdeep/visualisation/visualiser.py:62-65 | one label text per batch, in loader order |
| Sampling.CollectDatasetSamples | gdeep/visualisation/visualiser.py:55-68 | collects exactly min(1000, batches) features and as many label texts, each batch's in loader order |
| Sampling.CollectFirstSamples | gdeep/visualisation/visualiser.py:103-109 | collects element 0 of the first min(101, batches) batches (j = 0..100), inputs and labels in loader order |
| Sampling.LabelTextsFallback | gdeep/visualisation/visualiser.py:62-65 | a failed conversion is recorded as "Label not available"; any other label keeps its text; label and feature lists have equal length |
| Sampling.LabelFailureIsLocal | gdeep/visualisation/visualiser.py:62-65 | changing one batch's label changes only that entry of the label texts |
| Dashboard.Writer.Add | gdeep/visualisation/visualiser.py:79 | writing a record appends it to the log and changes nothing else |
| Dashboard.Decimal | gdeep/visualisation/visualiser.py:122 | `str(i)` is a non-empty string of digits with no leading zero |
| Dashboard.DecimalRoundTrip | gdeep/visualisation/visualiser.py:122 | reading the digits of `str(i)` back gives i |
| Dashboard.DecimalInjective | gdeep/visualisation/visualiser.py:122 | different layer numbers have different decimal forms |
| Dashboard.ActivationTag | gdeep/visualisation/visualiser.py:122 | the tag starts with "activations_" and the rest reads back as the layer number |
| Dashboard.ActivationTagInjective | gdeep/visualisation/visualiser.py:122 | different layers get different `"activations_" + str(i)` tags |
| Dashboard.LayerRecords | gdeep/visualisation/visualiser.py:116-125 | two records per layer, the last a flush |
| Dashboard.LayerRecordsShape | gdeep/visualisation/visualiser.py:116-125 | for each layer i in order: its embedding (tag i, that layer's rows, the labels) at record 2i, a flush at 2i+1 |
| Dashboard.LayerRecordAt | gdeep/visualisation/visualiser.py:116-125 | for one layer i: its embedding (tag i, that layer's rows, the labels) is record 2i and the flush is record 2i+1 |
| Dashboard.LayerRecordsAppend | gdeep/visualisation/visualiser.py:116-125 | appending layer i's embedding and then a flush to the records of layers 0..i-1 gives the records of layers 0..i |
| Dashboard.LayerTagsDistinct | gdeep/visualisation/visualiser.py:116-125 | no two layers' embeddings share a tag |
| Visualisation.DatasetSample | gdeep/visualisation/visualiser.py:57-68 | the overview uses batches 1 to min(1000, batches − 1), in order |
| Visualisation.DatasetRecords | gdeep/visualisation/visualiser.py:70-94 | two records for samples of ≥3 axes, one otherwise; last an embedding of min(1000, batches − 1) rows, with label images exactly for samples of ≥3 axes |
| Visualisation.DatasetOverview | gdeep/visualisation/visualiser.py:55-94 | grid image iff samples have ≥3 axes; embedding "dataset" with label images iff samples have ≥3 axes, min(1000, batches − 1) rows and as many label texts, taken from batches 1, 2, … |
| Visualisation.FirstBatchOnlyForGraph | gdeep/visualisation/visualiser.py:51-59 | the first batch has no effect on the overview records |
| Visualisation.ActivationInputs | gdeep/visualisation/visualiser.py:103-109 | min(101, batches) inputs, entry k being element 0 of batch k |
| Visualisation.ActivationLabels | gdeep/visualisation/visualiser.py:103-109 | min(101, batches) labels, entry k being element 0 of batch k's labels |
| Visualisation.RowsOf | gdeep/visualisation/visualiser.py:118 | one row count per layer, entry k being `act.shape[0]` of layer k |
| Visualisation.LayerRows | gdeep/visualisation/visualiser.py:114-118 | one row count per layer of the activations of the sampled inputs, in layer order |
| Visualisation.PersistenceRecords | gdeep/visualisation/visualiser.py:149-152 | two records: the stack of all diagram images under tag "persistence_diagrams_of_activations", then a flush |
| Visualisation.ActivationSample | gdeep/visualisation/visualiser.py:105-109 | at most 101 inputs and labels are used for activations: those of the first batches, in order |
| Visualisation.ActivationsIgnoreLaterBatches | gdeep/visualisation/visualiser.py:133-141 | batches after the 101st change neither the activation inputs nor the cached diagrams |
| Visualisation.HomologyDimensions | gdeep/visualisation/visualiser.py:214-215 | `None` stays `None`, and any list becomes [0, 1] |
| Visualisation.HomologyOverride | gdeep/visualisation/visualiser.py:214-215 | the list's contents never matter |
| Visualisation.LoaderDiagrams | gdeep/visualisation/visualiser.py:132-141 | the cached diagrams are those of the activations of element 0 of batches 0 to min(100, batches − 1) |
| Visualisation.DataDiagrams | gdeep/visualisation/visualiser.py:217-223 | the cached diagrams are those of the activations of `data[:100]`: all the data when there are at most 100 rows, the first 100 otherwise |
| Visualisation.Visualiser.constructor | gdeep/visualisation/visualiser.py:41-43 | a new visualiser has an empty cache and no extractions |
| Visualisation.Visualiser.PlotDataModel | gdeep/visualisation/visualiser.py:45-96 | log and outcome for an empty loader, a one-batch loader, zero-axis samples, and the normal path |
| Visualisation.Visualiser.PlotActivations | gdeep/visualisation/visualiser.py:98-125 | empty loader raises, nothing written; otherwise one extraction and each layer's records in order; cache untouched |
| Visualisation.Visualiser.PlotPersistenceDiagrams | gdeep/visualisation/visualiser.py:127-152 | a filled cache is reused with no extraction; an empty one is filled from batches 0..100 with one extraction; no diagrams raises, otherwise one image record and a flush |
| Visualisation.Visualiser.SendLayers | gdeep/visualisation/visualiser.py:116-125 | writes, in layer order, one embedding and one flush per layer; nothing else in the log changes |
| Visualisation.Visualiser.BettiPlotLayers | gdeep/visualisation/visualiser.py:192-225 | dims are the override's; a filled cache is reused with no extraction; an empty one is filled from `data[:100]` with one extraction |
| Visualisation.PlotDiagramsThenBetti | gdeep/visualisation/visualiser.py:216-223 | a diagram plot followed by any number of Betti plots extracts activations at most once, and leaves the cache filled and unchanged after the first fill |

## Left out

- `plot_decision_boundary`, `plot_interpreter_text`, `plot_interpreter_image`,
  `plot_feature_importance` and `plot_attribution` are not modelled. Each one
  calls plotting, screenshot or compactification libraries, or uses random
  colours and floating-point normalisation.
- The rendering steps are left out: `make_grid`, `plot_diagram`,
  `plotly2tensor`, `BettiCurve`, `plot_betti_surfaces` and `show()`. A record
  keeps only its tag, step, row count, metadata and whether label images went
  with it.
- Visualisation.Visualiser.PlotPersistenceDiagrams: the record keeps only the
  number of stacked diagram images, not their pixels.
- `ModelExtractor.get_activations` and `persistence_diagrams_of_activations` are
  not modelled. Both are foreign computations, given as functions in `Pipe`.
  Their own failures are outside the model.
- Casting to `example.dtype` and placement on `DEVICE` are left out. Neither
  changes which samples are chosen or what is recorded.
- Exceptions that tensors of mismatched sample shapes raise in `torch.cat` or
  `torch.stack` are left out. So are the writer's own checks, such as the
  metadata length matching the embedding rows.
- Reshapes of samples with a zero extent are not modelled (`view` and
  `reshape` with -1 cannot infer a size there).
- A label conversion that raises anything other than `ValueError` is not
  modelled.
- A batch is element 0 of its inputs and labels. An empty batch, where `img[0]`
  raises, cannot be represented.
- The loader is a fixed sequence, so shuffling between iterations is left out.
- The network is fixed for the visualiser's lifetime: `Pipe` is a constant
  value, and `activations` is one fixed function. Training between calls is
  not modelled. In the code, that makes the cache filled at lines 141 and 221
  hold diagrams of an earlier network, because nothing refreshes it.
  `Visualiser.Valid()` holds only because the network never changes.
- The progress messages that `plot_activations` prints at lines 115 and 117 are
  left out, because console output is not modelled.
- Sampling.CollectFirstSamples: `plot_persistence_diagrams` runs its own copy of
  this loop at lines 133-136 and keeps only the inputs. The model runs the
  shared loop there and drops the labels.
- TensorPlot.Adjust: the tie order of `torch.argsort` is fixed as the stable
  one, as described above.
- TensorPlot.AdjustKeepsEntries: where an entry lands depends on that fixed tie
  order whenever extents are equal. For example, for a (3, 3, 3) input the
  descending order is [2, 1, 0], so the lemma puts entry [a, b, c] at [b, c, a].
  An argsort returning [2, 1, 0], which reverses to [0, 1, 2], would put it at
  [b, a, c] instead.
- TensorPlot.Adjust: entries that the broadcast at line 401 writes for a (2, 2)
  matrix are modelled, but no lemma besides `AdjustSucceeds` is stated about
  that case.
- TensorPlot.Adjust: the result is not converted to a NumPy array on the CPU.
- The normaliser has no precondition on rank or on extents. Every rank is
  accepted, and `None` marks the ranks where torch raises. The two largest
  extents always cover the channel extent, because the axes are sorted first.
