/** Chunking of extracted text (`backend/app/services/chunking.py`). The
    recursive character splitter is a parameter `split`: the model says how its
    pieces become records, not how it cuts the text. */
module Chunking {
  import opened Text
  import opened Records

  /** A chunk record: `{"text": ..., "metadata": ...}`. */
  datatype Chunk = Chunk(text: string, metadata: Metadata)

  /** A page handed to `chunk_with_page_numbers`: its number and its text. */
  datatype Page = Page(number: int, text: string)

  /** The metadata of the `i`-th of `n` pieces of a document: a copy of the
      document's metadata with the three chunk keys set. */
  function PieceMetadata(metadata: Metadata, i: nat, piece: string, n: nat): Metadata {
    metadata["chunk_index" := Int(i)]["chunk_size" := Int(|piece|)]["total_chunks" := Int(n)]
  }

  predicate IsChunkKey(key: string) {
    key == "chunk_index" || key == "chunk_size" || key == "total_chunks"
  }

  /** The document's keys are all kept, with their values unless they are one
      of the three chunk keys, which take the piece's position, length and the
      number of pieces; no other key appears. */
  lemma PieceMetadataSpec(metadata: Metadata, i: nat, piece: string, n: nat)
    ensures var m := PieceMetadata(metadata, i, piece, n);
      (forall key :: key in m <==> key in metadata || IsChunkKey(key))
      && (forall key | key in metadata && !IsChunkKey(key) :: m[key] == metadata[key])
      && m["chunk_index"] == Int(i) && m["chunk_size"] == Int(|piece|) && m["total_chunks"] == Int(n)
  {
  }

  /** `chunk_document`: one record per piece of `split(text)`, in order, with
      the piece as text and the piece's metadata; `metadata` itself is a value
      and is not changed. */
  method ChunkDocument(split: string -> seq<string>, text: string, metadata: Metadata) returns (r: seq<Chunk>)
    ensures |r| == |split(text)|
    ensures forall i | 0 <= i < |r| ::
      r[i] == Chunk(split(text)[i], PieceMetadata(metadata, i, split(text)[i], |split(text)|))
  {
    var pieces := split(text);
    r := [];
    var i := 0;
    while i < |pieces|
      invariant 0 <= i <= |pieces| && |r| == i
      invariant forall j | 0 <= j < i :: r[j] == Chunk(pieces[j], PieceMetadata(metadata, j, pieces[j], |pieces|))
    {
      r := r + [Chunk(pieces[i], PieceMetadata(metadata, i, pieces[i], |pieces|))];
      i := i + 1;
    }
  }

  /** The metadata of a piece of page `p` numbered `index` across the document. */
  function PageMetadata(docId: string, filename: string, p: Page, index: nat, piece: string): Metadata {
    map["doc_id" := Str(docId), "filename" := Str(filename), "page_number" := Int(p.number),
        "chunk_index" := Int(index), "chunk_size" := Int(|piece|)]
  }

  /** The records of one page whose first piece gets document-wide index `start`. */
  function PageRecords(docId: string, filename: string, p: Page, pieces: seq<string>, start: nat): (r: seq<Chunk>)
    ensures |r| == |pieces|
  {
    seq(|pieces|, j requires 0 <= j < |pieces| => Chunk(pieces[j], PageMetadata(docId, filename, p, start + j, pieces[j])))
  }

  /** What `chunk_with_page_numbers` returns for `pages`: blank pages give
      nothing, every other page gives the records of its pieces, numbered on
      from the records of the pages before it. */
  function PagedChunks(split: string -> seq<string>, pages: seq<Page>, docId: string, filename: string): seq<Chunk>
    decreases |pages|
  {
    if pages == [] then []
    else
      var init := PagedChunks(split, pages[..|pages| - 1], docId, filename);
      var p := pages[|pages| - 1];
      if IsBlank(p.text) then init
      else init + PageRecords(docId, filename, p, split(p.text), |init|)
  }

  /** `chunk_with_page_numbers`: the loop over pages with the running
      `global_chunk_index`. */
  method ChunkWithPageNumbers(split: string -> seq<string>, pages: seq<Page>, docId: string, filename: string)
    returns (r: seq<Chunk>)
    ensures r == PagedChunks(split, pages, docId, filename)
  {
    r := [];
    var i := 0;
    while i < |pages|
      invariant 0 <= i <= |pages|
      invariant r == PagedChunks(split, pages[..i], docId, filename)
    {
      var p := pages[i];
      PagedChunksSnoc(split, pages, docId, filename, i);
      if !IsBlank(p.text) {
        r := AppendPageRecords(r, docId, filename, p, split(p.text));
      }
      i := i + 1;
    }
    assert pages[..i] == pages;
  }

  /** The inner loop of `chunk_with_page_numbers`: the records of one page's
      pieces appended to `r0`; `index` plays `global_chunk_index`, which equals
      the number of records so far. */
  method AppendPageRecords(r0: seq<Chunk>, docId: string, filename: string, p: Page, pieces: seq<string>)
    returns (r: seq<Chunk>)
    ensures r == r0 + PageRecords(docId, filename, p, pieces, |r0|)
  {
    r := r0;
    var index := |r0|;
    var j := 0;
    while j < |pieces|
      invariant 0 <= j <= |pieces| && index == |r0| + j && |r| == index
      invariant r == r0 + PageRecords(docId, filename, p, pieces[..j], |r0|)
    {
      PageRecordsSnoc(docId, filename, p, pieces, |r0|, j);
      r := r + [Chunk(pieces[j], PageMetadata(docId, filename, p, index, pieces[j]))];
      index := index + 1;
      j := j + 1;
    }
    assert pieces[..j] == pieces;
  }

  lemma PagedChunksSnoc(split: string -> seq<string>, pages: seq<Page>, docId: string, filename: string, i: nat)
    requires i < |pages|
    ensures var init := PagedChunks(split, pages[..i], docId, filename);
      PagedChunks(split, pages[..i + 1], docId, filename)
      == if IsBlank(pages[i].text) then init
         else init + PageRecords(docId, filename, pages[i], split(pages[i].text), |init|)
  {
    assert pages[..i + 1][..i] == pages[..i];
  }

  lemma PageRecordsSnoc(docId: string, filename: string, p: Page, pieces: seq<string>, start: nat, j: nat)
    requires j < |pieces|
    ensures PageRecords(docId, filename, p, pieces[..j + 1], start)
         == PageRecords(docId, filename, p, pieces[..j], start)
            + [Chunk(pieces[j], PageMetadata(docId, filename, p, start + j, pieces[j]))]
  {
  }

  /** The number of pieces of the pages that are not blank. */
  function PieceTotal(split: string -> seq<string>, pages: seq<Page>): nat
    decreases |pages|
  {
    if pages == [] then 0
    else
      var p := pages[|pages| - 1];
      PieceTotal(split, pages[..|pages| - 1]) + (if IsBlank(p.text) then 0 else |split(p.text)|)
  }

  /** `c`, at position `k` of the output, is a piece of page `pages[i]`, a
      page that is not blank, and carries that page's number, the given
      document id and file name, `k` as `chunk_index` and its length. */
  predicate FromPage(split: string -> seq<string>, pages: seq<Page>, docId: string, filename: string, k: nat, c: Chunk, i: int) {
    0 <= i < |pages| && !IsBlank(pages[i].text) && c.text in split(pages[i].text)
    && c.metadata == PageMetadata(docId, filename, pages[i], k, c.text)
  }

  predicate FromSomePage(split: string -> seq<string>, pages: seq<Page>, docId: string, filename: string, k: nat, c: Chunk) {
    exists i | 0 <= i < |pages| :: FromPage(split, pages, docId, filename, k, c, i)
  }

  predicate AllFromPages(split: string -> seq<string>, pages: seq<Page>, docId: string, filename: string, r: seq<Chunk>) {
    forall k | 0 <= k < |r| :: FromSomePage(split, pages, docId, filename, k, r[k])
  }

  /** Every record of `chunk_with_page_numbers` comes from a page that is not
      blank (see `FromPage`), and there are as many records as the non-blank
      pages have pieces. */
  lemma {:induction false} PagedChunksSpec(split: string -> seq<string>, pages: seq<Page>, docId: string, filename: string)
    ensures |PagedChunks(split, pages, docId, filename)| == PieceTotal(split, pages)
    ensures AllFromPages(split, pages, docId, filename, PagedChunks(split, pages, docId, filename))
    decreases |pages|
  {
    if pages != [] {
      var front := pages[..|pages| - 1];
      var p := pages[|pages| - 1];
      PagedChunksSpec(split, front, docId, filename);
      var init := PagedChunks(split, front, docId, filename);
      var r := PagedChunks(split, pages, docId, filename);
      assert r == if IsBlank(p.text) then init else init + PageRecords(docId, filename, p, split(p.text), |init|);
      forall k: nat | k < |r|
        ensures FromSomePage(split, pages, docId, filename, k, r[k])
      {
        if k < |init| {
          assert r[k] == init[k];
          FromFrontPage(split, pages, docId, filename, init, k, init[k]);
        } else {
          assert r[k].text == split(p.text)[k - |init|];
          assert FromPage(split, pages, docId, filename, k, r[k], |pages| - 1);
          assert FromSomePage(split, pages, docId, filename, k, r[k]);
        }
      }
      assert AllFromPages(split, pages, docId, filename, r);
    } else {
      assert PagedChunks(split, pages, docId, filename) == [];
    }
  }

  lemma FromFrontPage(split: string -> seq<string>, pages: seq<Page>, docId: string, filename: string, r: seq<Chunk>, k: nat, c: Chunk)
    requires pages != []
    requires AllFromPages(split, pages[..|pages| - 1], docId, filename, r)
    requires k < |r| && r[k] == c
    ensures FromSomePage(split, pages, docId, filename, k, c)
  {
    var front := pages[..|pages| - 1];
    assert FromSomePage(split, front, docId, filename, k, r[k]);
    var i :| 0 <= i < |front| && FromPage(split, front, docId, filename, k, c, i);
    assert pages[i] == front[i];
    assert FromPage(split, pages, docId, filename, k, c, i);
  }

  /** Pages that are all blank (or no pages) give no record. */
  lemma {:induction false} BlankPagesGiveNothing(split: string -> seq<string>, pages: seq<Page>, docId: string, filename: string)
    requires forall i | 0 <= i < |pages| :: IsBlank(pages[i].text)
    ensures PagedChunks(split, pages, docId, filename) == []
    decreases |pages|
  {
    if pages != [] {
      BlankPagesGiveNothing(split, pages[..|pages| - 1], docId, filename);
    }
  }
}
