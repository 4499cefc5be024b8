/** Embedding of chunk texts and construction of vector-store points
    (`backend/app/services/embedding_service.py`). The embedding endpoint is a
    parameter `embed`: one call per text, failing with an error message or
    returning a vector. */
module Embedding {
  import opened Wrappers
  import opened Records
  import opened Chunking

  const DefaultBatchSize: int := 10

  /** Every text has an embedding. */
  predicate AllEmbed(embed: string -> Result<Vector, string>, texts: seq<string>) {
    forall k | 0 <= k < |texts| :: embed(texts[k]).Ok?
  }

  /** `vs` are the embeddings of `texts`, one per text, in order. */
  predicate EmbeddingsOf(embed: string -> Result<Vector, string>, texts: seq<string>, vs: seq<Vector>) {
    |vs| == |texts| && forall k | 0 <= k < |texts| :: embed(texts[k]) == Ok(vs[k])
  }

  /** The calls made were those for the texts up to and including the first
      text without an embedding, and `e` is that call's error. */
  predicate Stopped(embed: string -> Result<Vector, string>, texts: seq<string>, calls: seq<string>, e: string) {
    1 <= |calls| <= |texts| && calls == texts[..|calls|]
    && (forall k | 0 <= k < |calls| - 1 :: embed(texts[k]).Ok?)
    && embed(texts[|calls| - 1]) == Err(e)
  }

  /** `_generate_batch_embeddings`: one call per text, in order, stopping at
      the first failure. `calls` are the texts sent to the endpoint. */
  method BatchEmbeddings(embed: string -> Result<Vector, string>, texts: seq<string>)
    returns (r: Result<seq<Vector>, string>, calls: seq<string>)
    ensures r.Ok? ==> EmbeddingsOf(embed, texts, r.value) && calls == texts
    ensures r.Err? ==> Stopped(embed, texts, calls, r.error)
  {
    var embeddings: seq<Vector> := [];
    calls := [];
    var i := 0;
    while i < |texts|
      invariant 0 <= i <= |texts| && calls == texts[..i]
      invariant EmbeddingsOf(embed, texts[..i], embeddings)
    {
      var e := embed(texts[i]);
      calls := calls + [texts[i]];
      assert calls == texts[..i + 1];
      if e.Err? {
        return Err(e.error), calls;
      }
      embeddings := embeddings + [e.value];
      i := i + 1;
    }
    assert texts[..i] == texts;
    r := Ok(embeddings);
  }

  /** A failure stops every embedding: `Stopped` rules out that all texts
      have one. */
  lemma StoppedNotAll(embed: string -> Result<Vector, string>, texts: seq<string>, calls: seq<string>, e: string)
    requires Stopped(embed, texts, calls, e)
    ensures !AllEmbed(embed, texts)
  {
    assert !embed(texts[|calls| - 1]).Ok?;
  }

  /** The consecutive slices of `batch_size` texts that `generate_embeddings`
      hands on, the last one possibly shorter. */
  function Slices(texts: seq<string>, size: int): seq<seq<string>>
    requires size > 0
    decreases |texts|
  {
    if texts == [] then []
    else
      var n := if size < |texts| then size else |texts|;
      [texts[..n]] + Slices(texts[n..], size)
  }

  function Concat(batches: seq<seq<string>>): seq<string>
    decreases |batches|
  {
    if batches == [] then [] else batches[0] + Concat(batches[1..])
  }

  /** Slicing into batches loses nothing: the slices put back together are
      the texts. */
  lemma {:induction false} SlicesConcat(texts: seq<string>, size: int)
    requires size > 0
    ensures Concat(Slices(texts, size)) == texts
    decreases |texts|
  {
    if texts != [] {
      var n := if size < |texts| then size else |texts|;
      SlicesConcat(texts[n..], size);
      assert Slices(texts, size)[1..] == Slices(texts[n..], size);
      assert texts == texts[..n] + texts[n..];
    }
  }

  /** No slice is empty and all but the last have `size` texts. */
  predicate FullSlices(b: seq<seq<string>>, size: int) {
    forall k | 0 <= k < |b| :: 1 <= |b[k]| <= size && (k < |b| - 1 ==> |b[k]| == size)
  }

  lemma {:induction false} SlicesSizes(texts: seq<string>, size: int)
    requires size > 0
    ensures FullSlices(Slices(texts, size), size)
    decreases |texts|
  {
    if texts != [] {
      var n := if size < |texts| then size else |texts|;
      SlicesSizes(texts[n..], size);
      var b := Slices(texts, size);
      var rest := Slices(texts[n..], size);
      assert b[1..] == rest;
      forall k | 1 <= k < |b| ensures 1 <= |b[k]| <= size && (k < |b| - 1 ==> |b[k]| == size) {
        assert b[k] == rest[k - 1];
      }
    }
  }

  /** There are ceil(n / size) slices: no texts give none, and otherwise the
      slices, `size` texts each save the last, just cover the texts. */
  lemma {:induction false} SlicesBound(texts: seq<string>, size: int)
    requires size > 0
    ensures var m := |Slices(texts, size)|;
      (|texts| == 0 ==> m == 0) && (|texts| > 0 ==> (m - 1) * size < |texts| <= m * size)
    decreases |texts|
  {
    if texts != [] {
      var n := if size < |texts| then size else |texts|;
      SlicesBound(texts[n..], size);
      var m := |Slices(texts, size)|;
      var m' := |Slices(texts[n..], size)|;
      assert m == m' + 1;
      if texts[n..] != [] {
        assert (m - 1) * size == (m' - 1) * size + size;
        assert m * size == m' * size + size;
      }
    }
  }

  /** The number of slices is `(n + size - 1) / size`. */
  lemma SliceCount(texts: seq<string>, size: int)
    requires size > 0
    ensures |Slices(texts, size)| == (|texts| + size - 1) / size
  {
    SlicesBound(texts, size);
    var m := |Slices(texts, size)|;
    var n := |texts|;
    if n == 0 {
      assert (size - 1) / size == 0;
    } else {
      QuotientOf(n + size - 1, size, m);
    }
  }

  lemma QuotientOf(a: int, b: int, q: int)
    requires b > 0 && q * b <= a < q * b + b
    ensures a / b == q
  {
    var d := a / b - q;
    assert d * b == (a / b) * b - q * b;
    assert d * b == (a - q * b) - a % b;
    if d >= 1 {
      NonNegProduct(d - 1, b);
    } else if d <= -1 {
      NonNegProduct(-d - 1, b);
    }
  }

  lemma NonNegProduct(x: int, y: int)
    requires x >= 0 && y >= 0
    ensures x * y >= 0
  {
  }

  lemma SlicesStep(texts: seq<string>, size: int, i: int, j: int)
    requires size > 0 && 0 <= i < |texts| && j == (if i + size < |texts| then i + size else |texts|)
    ensures Slices(texts[i..], size) == [texts[i..j]] + Slices(texts[j..], size)
  {
    assert texts[i..][..j - i] == texts[i..j];
    assert texts[i..][j - i..] == texts[j..];
  }

  /** `generate_embeddings(texts, batch_size)`: the texts in consecutive
      slices of `batch_size`, each embedded in turn, stopping at the first
      failure. `batches` are the slices handed to `_generate_batch_embeddings`.
      A step of 0 makes `range` raise; a negative step makes it empty. */
  method GenerateEmbeddings(embed: string -> Result<Vector, string>, texts: seq<string>, batchSize: int)
    returns (r: Result<seq<Vector>, string>, calls: seq<string>, batches: seq<seq<string>>)
    ensures batchSize == 0 ==> r == Err(RangeStepZero) && calls == [] && batches == []
    ensures batchSize < 0 ==> r == Ok([]) && calls == [] && batches == []
    ensures batchSize > 0 ==> batches <= Slices(texts, batchSize)
    ensures batchSize > 0 && r.Ok? ==> EmbeddingsOf(embed, texts, r.value) && calls == texts
                                       && batches == Slices(texts, batchSize)
    ensures batchSize > 0 && r.Err? ==> Stopped(embed, texts, calls, r.error)
  {
    calls := [];
    batches := [];
    if batchSize == 0 {
      return Err(RangeStepZero), calls, batches;
    }
    if batchSize < 0 {
      return Ok([]), calls, batches;
    }
    var embeddings: seq<Vector> := [];
    var i := 0;
    while i < |texts|
      invariant 0 <= i <= |texts| && calls == texts[..i]
      invariant EmbeddingsOf(embed, texts[..i], embeddings)
      invariant batches + Slices(texts[i..], batchSize) == Slices(texts, batchSize)
    {
      var j := if i + batchSize < |texts| then i + batchSize else |texts|;
      var batch := texts[i..j];
      SlicesStep(texts, batchSize, i, j);
      var res, sent := BatchEmbeddings(embed, batch);
      batches := batches + [batch];
      assert batches + Slices(texts[j..], batchSize) == Slices(texts, batchSize);
      if res.Err? {
        StoppedInBatch(embed, texts, i, j, embeddings, sent, res.error);
        calls := calls + sent;
        return Err(res.error), calls, batches;
      }
      JoinBatch(embed, texts, i, j, embeddings, res.value);
      calls := calls + sent;
      assert calls == texts[..j];
      embeddings := embeddings + res.value;
      i := j;
    }
    assert texts[..i] == texts;
    assert texts[i..] == [];
    r := Ok(embeddings);
  }

  const RangeStepZero: string := "range() arg 3 must not be zero"

  lemma JoinBatch(embed: string -> Result<Vector, string>, texts: seq<string>, i: int, j: int, vs: seq<Vector>, ws: seq<Vector>)
    requires 0 <= i <= j <= |texts|
    requires EmbeddingsOf(embed, texts[..i], vs) && EmbeddingsOf(embed, texts[i..j], ws)
    ensures EmbeddingsOf(embed, texts[..j], vs + ws)
  {
    forall k | 0 <= k < j ensures embed(texts[..j][k]) == Ok((vs + ws)[k]) {
      if k < i {
        assert texts[..j][k] == texts[..i][k];
      } else {
        assert texts[..j][k] == texts[i..j][k - i];
      }
    }
  }

  lemma StoppedInBatch(embed: string -> Result<Vector, string>, texts: seq<string>, i: int, j: int,
                       vs: seq<Vector>, sent: seq<string>, e: string)
    requires 0 <= i <= j <= |texts|
    requires EmbeddingsOf(embed, texts[..i], vs)
    requires Stopped(embed, texts[i..j], sent, e)
    ensures Stopped(embed, texts, texts[..i] + sent, e)
  {
    var calls := texts[..i] + sent;
    assert calls == texts[..i + |sent|];
    forall k | 0 <= k < |calls| - 1 ensures embed(texts[k]).Ok? {
      if k < i {
        assert texts[..i][k] == texts[k];
      } else {
        assert texts[i..j][k - i] == texts[k];
      }
    }
    assert texts[i..j][|sent| - 1] == texts[|calls| - 1];
  }

  /** The payload of a point. */
  datatype Payload = Payload(text: string, docId: string, chunkIndex: Value, metadata: Metadata)

  /** A vector-store point: its id, its vector and its payload. */
  datatype Point = Point(id: string, vector: Vector, payload: Payload)

  /** `chunk["metadata"].get("chunk_index", i)`. */
  function ChunkIndex(metadata: Metadata, i: nat): Value {
    if "chunk_index" in metadata then metadata["chunk_index"] else Int(i)
  }

  function Texts(chunks: seq<Chunk>): (r: seq<string>)
    ensures |r| == |chunks| && forall k | 0 <= k < |chunks| :: r[k] == chunks[k].text
  {
    seq(|chunks|, k requires 0 <= k < |chunks| => chunks[k].text)
  }

  /** `create_qdrant_points(doc_id, chunks)`: the chunk texts are embedded in
      slices of 10; any failure raises and no point is built. Otherwise point
      `k` has the `k`-th fresh id `uuid(k)`, the embedding of chunk `k`'s text
      and a payload with that text, `doc_id`, the chunk's `chunk_index`
      (position `k` when the metadata lacks one) and its metadata. */
  method CreatePoints(embed: string -> Result<Vector, string>, docId: string, chunks: seq<Chunk>, uuid: nat -> string)
    returns (r: Result<seq<Point>, string>, calls: seq<string>)
    ensures r.Ok? <==> AllEmbed(embed, Texts(chunks))
    ensures r.Err? ==> Stopped(embed, Texts(chunks), calls, r.error)
    ensures r.Ok? ==> calls == Texts(chunks) && |r.value| == |chunks|
    ensures r.Ok? ==> forall k | 0 <= k < |chunks| ::
      r.value[k] == Point(uuid(k), embed(chunks[k].text).value,
                          Payload(chunks[k].text, docId, ChunkIndex(chunks[k].metadata, k), chunks[k].metadata))
    ensures r.Ok? ==> BuiltPoints(embed, docId, chunks, uuid, r.value)
  {
    var texts := Texts(chunks);
    var embeddings, sent, batches := GenerateEmbeddings(embed, texts, DefaultBatchSize);
    calls := sent;
    if embeddings.Err? {
      StoppedNotAll(embed, texts, calls, embeddings.error);
      return Err(embeddings.error), calls;
    }
    var vs := embeddings.value;
    var points: seq<Point> := [];
    var i := 0;
    while i < |chunks|
      invariant 0 <= i <= |chunks| && |points| == i
      invariant forall k | 0 <= k < i ::
        points[k] == Point(uuid(k), vs[k], Payload(chunks[k].text, docId, ChunkIndex(chunks[k].metadata, k), chunks[k].metadata))
    {
      points := points + [Point(uuid(i), vs[i], Payload(chunks[i].text, docId, ChunkIndex(chunks[i].metadata, i), chunks[i].metadata))];
      i := i + 1;
    }
    r := Ok(points);
  }

  /** The points `create_qdrant_points` builds for `chunks`: point `k` has
      the `k`-th fresh id, the `k`-th embedding and the payload of chunk `k`. */
  predicate BuiltPoints(embed: string -> Result<Vector, string>, docId: string, chunks: seq<Chunk>, uuid: nat -> string, points: seq<Point>)
  {
    |points| == |chunks|
    && forall k | 0 <= k < |chunks| ::
         embed(chunks[k].text).Ok?
         && points[k] == Point(uuid(k), embed(chunks[k].text).value,
                               Payload(chunks[k].text, docId, ChunkIndex(chunks[k].metadata, k), chunks[k].metadata))
  }

  /** Fresh ids make distinct points: when `uuid` never repeats, no two
      points built by `create_qdrant_points` share an id. */
  lemma PointIdsDistinct(embed: string -> Result<Vector, string>, docId: string, chunks: seq<Chunk>, uuid: nat -> string, points: seq<Point>)
    requires forall a: nat, b: nat | a != b :: uuid(a) != uuid(b)
    requires BuiltPoints(embed, docId, chunks, uuid, points)
    ensures forall a, b | 0 <= a < b < |points| :: points[a].id != points[b].id
  {
    forall a, b | 0 <= a < b < |points| ensures points[a].id != points[b].id {
      assert points[a].id == uuid(a) && points[b].id == uuid(b);
    }
  }
}
