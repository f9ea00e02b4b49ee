/**
 * The dashboard writer (`self.pipe.writer`) as an append-only log of the
 * records the visualiser sends it, and the tags the visualiser gives them.
 */
module Dashboard {

  /** What an embedding's `metadata` holds: label texts, or the label values themselves. */
  datatype Metadata<L> = Texts(texts: seq<string>) | Values(values: seq<L>)

  datatype Record<L> =
    | Graph                                        // `add_graph(model, images)`
    | Image(tag: string, step: nat)                // `add_image(tag, grid, step)`
    | Embedding(tag: string, rows: nat, metadata: Metadata<L>, withImages: bool, step: nat)
                                                   // `add_embedding(mat, metadata, label_img?, tag, step)`, mat with `rows` rows
    | Images(tag: string, count: nat)              // `add_images(tag, stack of count images)`
    | Flush                                        // `flush()`

  class Writer<L> {
    var log: seq<Record<L>>

    constructor()
      ensures log == []
    {
      log := [];
    }

    method Add(r: Record<L>)
      modifies this
      ensures log == old(log) + [r]
    {
      log := log + [r];
    }
  }

  // ---------------------------------------------------------------------------
  // `str(i)` for the layer tags

  function Digit(d: nat): char
    requires d < 10
  {
    "0123456789"[d]
  }

  function DigitValue(c: char): nat
  {
    if '0' <= c <= '9' then (c as int - '0' as int) as nat else 0
  }

  /** `str(n)`: the decimal digits of n, most significant first, no leading zero. */
  function Decimal(n: nat): (r: string)
    ensures 1 <= |r|
    ensures forall k :: 0 <= k < |r| ==> '0' <= r[k] <= '9'
    ensures |r| > 1 ==> r[0] != '0'
  {
    if n < 10 then [Digit(n)] else Decimal(n / 10) + [Digit(n % 10)]
  }

  /** The number a string of decimal digits denotes. */
  function DecimalValue(s: string): nat
  {
    if s == [] then 0 else 10 * DecimalValue(s[..|s| - 1]) + DigitValue(s[|s| - 1])
  }

  /** Reading back `str(n)` gives n. */
  lemma {:induction false} DecimalRoundTrip(n: nat)
    ensures DecimalValue(Decimal(n)) == n
  {
    var r := Decimal(n);
    if n < 10 {
      assert r[..0] == [];
    } else {
      DecimalRoundTrip(n / 10);
      assert r[..|r| - 1] == Decimal(n / 10);
    }
  }

  /** Distinct layer numbers have distinct decimal forms. */
  lemma DecimalInjective(a: nat, b: nat)
    requires Decimal(a) == Decimal(b)
    ensures a == b
  {
    DecimalRoundTrip(a);
    DecimalRoundTrip(b);
  }

  /** What every layer tag starts with (line 122). */
  const ActivationPrefix: string := "activations_"

  /** The tag `"activations_" + str(i)` of layer i (line 122): the prefix, then digits reading back as i. */
  function ActivationTag(i: nat): (r: string)
    ensures |r| > |ActivationPrefix| && r[..|ActivationPrefix|] == ActivationPrefix
    ensures DecimalValue(r[|ActivationPrefix|..]) == i
  {
    DecimalRoundTrip(i);
    assert (ActivationPrefix + Decimal(i))[|ActivationPrefix|..] == Decimal(i);
    ActivationPrefix + Decimal(i)
  }

  /** Distinct layers get distinct tags. */
  lemma ActivationTagInjective(a: nat, b: nat)
    requires ActivationTag(a) == ActivationTag(b)
    ensures a == b
  {
    assert Decimal(a) == ActivationTag(a)[|ActivationPrefix|..];
    assert Decimal(b) == ActivationTag(b)[|ActivationPrefix|..];
    DecimalInjective(a, b);
  }

  /**
   * Lines 116-125: per layer an embedding of its activation rows, tagged with
   * the layer number, then a flush.
   */
  function LayerRecords<L>(rows: seq<nat>, labels: seq<L>): (r: seq<Record<L>>)
    ensures |r| == 2 * |rows|
    ensures r != [] ==> r[|r| - 1] == Flush
  {
    if rows == [] then []
    else
      var last := |rows| - 1;
      LayerRecords(rows[..last], labels) + [Embedding(ActivationTag(last), rows[last], Values(labels), false, 0), Flush]
  }

  /** Layer i's records follow those of the layers before it. */
  lemma LayerRecordsStep<L>(rows: seq<nat>, labels: seq<L>, i: nat)
    requires i < |rows|
    ensures LayerRecords(rows[..i + 1], labels)
      == LayerRecords(rows[..i], labels) + [Embedding(ActivationTag(i), rows[i], Values(labels), false, 0), Flush]
  {
    assert rows[..i + 1][..i] == rows[..i];
  }

  /** Appending layer i's embedding and flush to a log of the layers before it gives the log of layers 0..i. */
  lemma LayerRecordsAppend<L>(log0: seq<Record<L>>, log: seq<Record<L>>, rows: seq<nat>, labels: seq<L>, i: nat, e: Record<L>)
    requires i < |rows|
    requires log == log0 + LayerRecords(rows[..i], labels)
    requires e == Embedding(ActivationTag(i), rows[i], Values(labels), false, 0)
    ensures log + [e] + [Flush] == log0 + LayerRecords(rows[..i + 1], labels)
  {
    LayerRecordsStep(rows, labels, i);
  }

  /** Record 2i is layer i's embedding, record 2i+1 the flush after it, for one layer i. */
  lemma {:induction false} LayerRecordAt<L>(rows: seq<nat>, labels: seq<L>, i: nat)
    requires i < |rows|
    ensures LayerRecords(rows, labels)[2 * i] == Embedding(ActivationTag(i), rows[i], Values(labels), false, 0)
    ensures LayerRecords(rows, labels)[2 * i + 1] == Flush
    decreases |rows|
  {
    var last := |rows| - 1;
    var init := rows[..last];
    var front := LayerRecords(init, labels);
    var e := Embedding(ActivationTag(last), rows[last], Values(labels), false, 0);
    assert LayerRecords(rows, labels) == front + [e, Flush];
    if i < last {
      LayerRecordAt(init, labels, i);
      assert init[i] == rows[i];
    }
  }

  /** Record 2i is layer i's embedding, record 2i+1 the flush after it. */
  lemma LayerRecordsShape<L>(rows: seq<nat>, labels: seq<L>)
    ensures forall i :: 0 <= i < |rows| ==>
      LayerRecords(rows, labels)[2 * i] == Embedding(ActivationTag(i), rows[i], Values(labels), false, 0)
    ensures forall i :: 0 <= i < |rows| ==> LayerRecords(rows, labels)[2 * i + 1] == Flush
  {
    forall i | 0 <= i < |rows|
      ensures LayerRecords(rows, labels)[2 * i] == Embedding(ActivationTag(i), rows[i], Values(labels), false, 0)
      ensures LayerRecords(rows, labels)[2 * i + 1] == Flush
    {
      LayerRecordAt(rows, labels, i);
    }
  }

  /** No two layers' embeddings share a tag. */
  lemma LayerTagsDistinct<L>(rows: seq<nat>, labels: seq<L>, i: nat, j: nat)
    requires i < |rows| && j < |rows| && i != j
    ensures |LayerRecords(rows, labels)| == 2 * |rows|
    ensures LayerRecords(rows, labels)[2 * i].Embedding? && LayerRecords(rows, labels)[2 * j].Embedding?
    ensures LayerRecords(rows, labels)[2 * i].tag != LayerRecords(rows, labels)[2 * j].tag
  {
    LayerRecordsShape(rows, labels);
    if ActivationTag(i) == ActivationTag(j) {
      ActivationTagInjective(i, j);
    }
  }
}
