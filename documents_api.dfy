/** The document routes (`backend/app/api/routes/documents.py`) as transitions
    over the two stores: the metadata table (`DocumentStore.Store`) and the
    vector index, of which the model keeps only the requests sent to it and
    takes its answers as parameters. */
module DocumentsApi {
  import opened Wrappers
  import opened Text
  import opened Records
  import opened Chunking
  import opened Embedding
  import opened DocumentProcessor
  import opened DocumentStore

  /** What a route returns: a body, or an `HTTPException`. */
  datatype Outcome<+T> = Done(value: T) | HttpError(status: int, detail: string)

  /** `DocumentResponse`. */
  datatype DocumentResponse = DocumentResponse(
    id: string, filename: string, fileType: string, fileSize: int,
    uploadedAt: string, chunkCount: int, status: string)

  /** `DeleteResponse`. */
  datatype DeleteResponse = DeleteResponse(success: bool, message: string)

  /** An uploaded file: its name and its bytes. */
  datatype UploadFile = UploadFile(filename: string, content: seq<byte>)

  /** The collaborators the routes call: the decoders, the text splitter, the
      embedding endpoint, the fresh point ids, and the vector index's answers
      (whether an upsert or a delete succeeds, and how many points a scroll
      finds for a document). */
  datatype Services = Services(
    ex: Extractors, split: string -> seq<string>, embed: string -> Result<Vector, string>,
    uuid: nat -> string, upsertOk: bool, deleteOk: string -> bool, found: string -> nat)

  // ------------------------------------------------------------ vector index

  /** A request sent to the vector index. */
  datatype VectorRequest = Upsert(points: seq<Point>) | DeleteByDoc(docId: string)

  /** The vector index as the routes see it: every write they send, in order. */
  class VectorIndex {
    var requests: seq<VectorRequest>

    constructor()
      ensures requests == []
    {
      requests := [];
    }

    /** `upsert_points`: `answer` is whether the index accepted the points. */
    method UpsertPoints(points: seq<Point>, answer: bool) returns (ok: bool)
      modifies this
      ensures requests == old(requests) + [Upsert(points)]
      ensures ok == answer
    {
      requests := requests + [Upsert(points)];
      ok := answer;
    }

    /** `delete_document`: deletes the points whose payload has that `doc_id`. */
    method DeleteDocument(docId: string, answer: bool) returns (ok: bool)
      modifies this
      ensures requests == old(requests) + [DeleteByDoc(docId)]
      ensures ok == answer
    {
      requests := requests + [DeleteByDoc(docId)];
      ok := answer;
    }
  }

  /** The scroll in `get_document_chunks` asks for at most this many points. */
  const ScrollLimit: nat := 10000

  /** `len(get_document_chunks(doc_id))` when the index holds `found` points
      for the document: one page of the scroll. */
  function ChunkCount(found: nat): (n: nat)
    ensures n <= ScrollLimit
    ensures found <= ScrollLimit ==> n == found
    ensures found > ScrollLimit ==> n == ScrollLimit
  {
    if found > ScrollLimit then ScrollLimit else found
  }

  // ------------------------------------------------------------------ upload

  /** The first three steps of `upload_document`: the file type, the size
      check and the text extraction, each of which can raise. */
  function Prepare(file: UploadFile, ex: Extractors): Result<(string, string), Failure> {
    match GetFileType(file.filename)
    case Err(e) => Err(e)
    case Ok(fileType) =>
      match ValidateFileSize(|file.content|)
      case Err(e) => Err(e)
      case Ok(_) =>
        match TextOutcome(file.content, fileType, ex)
        case Err(e) => Err(e)
        case Ok(text) => Ok((fileType, text))
  }

  /** A `ValueError` becomes a 400 with its message; anything else a 500. */
  function Rejected<T>(f: Failure): (r: Outcome<T>)
    ensures f.ValueError? ==> r == HttpError(400, f.msg)
    ensures f.OtherError? ==> r == HttpError(500, InternalError(f.msg))
  {
    if f.ValueError? then HttpError(400, f.msg) else HttpError(500, InternalError(f.msg))
  }

  function InternalError(msg: string): string {
    "Internal server error: " + msg
  }

  /** The `HTTPException(500)` for a refused upsert, caught again by the
      route's own `except Exception` and re-wrapped with its `str()`. */
  const StoreFailed: string := InternalError("500: Failed to store document in vector database")

  /** The metadata handed to the chunker. */
  function UploadMetadata(docId: string, filename: string, fileType: string, now: string, size: int): Metadata {
    map["doc_id" := Str(docId), "filename" := Str(filename), "file_type" := Str(fileType),
        "uploaded_at" := Str(now), "file_size" := Int(size)]
  }

  /** The row written after a successful upsert. */
  function UploadRow(docId: string, filename: string, fileType: string, size: int, now: string, chunks: int): NewDocument {
    NewDocument(docId, filename, fileType, size, now, chunks, "completed",
                Some(map["doc_id" := Str(docId), "file_type" := Str(fileType)]))
  }

  /** Point `k` of an upload: the embedding of the `k`-th piece, with the
      piece's position as `chunk_index`. */
  predicate UploadPoint(sv: Services, docId: string, meta: Metadata, pieces: seq<string>, k: nat, p: Point)
    requires k < |pieces|
  {
    sv.embed(pieces[k]).Ok? &&
    p == Point(sv.uuid(k), sv.embed(pieces[k]).value,
               Payload(pieces[k], docId, Int(k), PieceMetadata(meta, k, pieces[k], |pieces|)))
  }

  predicate UploadPoints(sv: Services, docId: string, meta: Metadata, pieces: seq<string>, points: seq<Point>) {
    |points| == |pieces| && forall k | 0 <= k < |points| :: UploadPoint(sv, docId, meta, pieces, k, points[k])
  }

  /** `upload_document` with fresh id `docId` and timestamp `now`; `addFault`
      is whether the row insertion raises inside `add_document`.
      - a failure in the first three steps sends nothing to either store;
      - an embedding failure is a 500 and sends nothing to either store;
      - otherwise exactly one upsert is sent, with one point per piece;
        a refused upsert is a 500 and writes no row;
      - an accepted upsert answers 201 whether or not the row was written. */
  method UploadDocument(file: UploadFile, sv: Services, docId: string, now: string, addFault: bool,
                        store: Store, index: VectorIndex)
    returns (r: Outcome<DocumentResponse>, points: seq<Point>)
    requires store.Valid()
    modifies store, index
    ensures store.Valid()
    ensures Prepare(file, sv.ex).Err? ==>
      r == Rejected(Prepare(file, sv.ex).error) && store.rows == old(store.rows) && index.requests == old(index.requests)
    ensures Prepare(file, sv.ex).Ok? && !AllEmbed(sv.embed, sv.split(Prepare(file, sv.ex).value.1)) ==>
      r.HttpError? && r.status == 500 && StartsWith(r.detail, InternalError(""))
      && store.rows == old(store.rows) && index.requests == old(index.requests)
    ensures Prepare(file, sv.ex).Ok? && AllEmbed(sv.embed, sv.split(Prepare(file, sv.ex).value.1)) ==>
      var (fileType, text) := Prepare(file, sv.ex).value;
      var pieces := sv.split(text);
      UploadPoints(sv, docId, UploadMetadata(docId, file.filename, fileType, now, |file.content|), pieces, points)
      && index.requests == old(index.requests) + [Upsert(points)]
      && (!sv.upsertOk ==> r == HttpError(500, StoreFailed) && store.rows == old(store.rows))
      && (sv.upsertOk ==>
            r == Done(DocumentResponse(docId, file.filename, fileType, |file.content|, now, |pieces|, "completed"))
            && store.rows == if addFault || docId in old(store.rows) then old(store.rows)
                             else old(store.rows)[docId := RowOf(UploadRow(docId, file.filename, fileType, |file.content|, now, |pieces|))])
  {
    points := [];
    var fileType := GetFileType(file.filename);
    if fileType.Err? {
      return Rejected(fileType.error), points;
    }
    var size := ValidateFileSize(|file.content|);
    if size.Err? {
      return Rejected(size.error), points;
    }
    var text := ExtractText(file.content, file.filename, fileType.value, sv.ex);
    if text.Err? {
      return Rejected(text.error), points;
    }
    var meta := UploadMetadata(docId, file.filename, fileType.value, now, |file.content|);
    var chunks := ChunkDocument(sv.split, text.value, meta);
    var made, calls := CreatePoints(sv.embed, docId, chunks, sv.uuid);
    assert Texts(chunks) == sv.split(text.value);
    if made.Err? {
      return HttpError(500, InternalError(made.error)), points;
    }
    points := made.value;
    UploadPointsOf(sv, docId, meta, text.value, chunks, points);
    var success := index.UpsertPoints(points, sv.upsertOk);
    if !success {
      return HttpError(500, StoreFailed), points;
    }
    var row := UploadRow(docId, file.filename, fileType.value, |file.content|, now, |chunks|);
    var added := store.AddDocument(row, addFault);
    r := Done(DocumentResponse(docId, file.filename, fileType.value, |file.content|, now, |chunks|, "completed"));
  }

  /** The points `create_qdrant_points` builds from the chunker's records. */
  lemma UploadPointsOf(sv: Services, docId: string, meta: Metadata, text: string, chunks: seq<Chunk>, points: seq<Point>)
    requires |chunks| == |sv.split(text)|
    requires forall i | 0 <= i < |chunks| ::
      chunks[i] == Chunk(sv.split(text)[i], PieceMetadata(meta, i, sv.split(text)[i], |sv.split(text)|))
    requires |points| == |chunks|
    requires forall k | 0 <= k < |chunks| ::
      (sv.embed(chunks[k].text).Ok? &&
       points[k] == Point(sv.uuid(k), sv.embed(chunks[k].text).value,
                          Payload(chunks[k].text, docId, ChunkIndex(chunks[k].metadata, k), chunks[k].metadata)))
    ensures UploadPoints(sv, docId, meta, sv.split(text), points)
  {
    forall k | 0 <= k < |points| ensures UploadPoint(sv, docId, meta, sv.split(text), k, points[k]) {
      PieceMetadataSpec(meta, k, sv.split(text)[k], |sv.split(text)|);
    }
  }

  /** The type and size checks come first: an unsupported extension or an
      oversized file is a 400 whatever the content. */
  lemma UploadChecksFirst(file: UploadFile, ex: Extractors)
    ensures GetFileType(file.filename).Err? ==> Rejected<DocumentResponse>(Prepare(file, ex).error).status == 400
    ensures GetFileType(file.filename).Ok? && |file.content| > Config.MaxFileSize ==>
      Prepare(file, ex) == Err(ValueError(TooLarge))
    ensures Prepare(file, ex).Ok? ==>
      Prepare(file, ex).value.0 in SupportedTypes && |file.content| <= Config.MaxFileSize
  {
  }

  // ------------------------------------------------------------------- reads

  function Response(row: Row): DocumentResponse {
    DocumentResponse(row.id, row.filename, row.fileType, row.fileSize, row.uploadedAt, row.chunkCount, row.status)
  }

  /** `list_documents`: the rows newest first, as responses. */
  method ListDocuments(store: Store, fault: bool) returns (r: seq<DocumentResponse>)
    requires store.Valid()
    ensures fault ==> r == []
    ensures !fault ==> |r| == |store.rows| && forall id | id in store.rows :: Response(store.rows[id]) in r
    ensures forall x | x in r :: exists id | id in store.rows :: x == Response(store.rows[id])
    ensures forall i, j | 0 <= i < j < |r| :: NotBefore(r[i].uploadedAt, r[j].uploadedAt)
  {
    var docs := store.GetAllDocuments(fault);
    r := Responses(docs);
    if !fault {
      ResponsesCover(store.rows, docs);
    }
    ResponsesFromRows(store.rows, docs);
  }

  function Responses(docs: seq<Row>): (r: seq<DocumentResponse>)
    ensures |r| == |docs| && forall k | 0 <= k < |docs| :: r[k] == Response(docs[k])
  {
    seq(|docs|, k requires 0 <= k < |docs| => Response(docs[k]))
  }

  /** Every row of the table appears in the listing's responses. */
  lemma ResponsesCover(rows: map<string, Row>, docs: seq<Row>)
    requires forall id | id in rows :: rows[id] in docs
    ensures forall id | id in rows :: Response(rows[id]) in Responses(docs)
  {
    var r := Responses(docs);
    forall id | id in rows ensures Response(rows[id]) in r {
      var k :| 0 <= k < |docs| && docs[k] == rows[id];
      assert r[k] == Response(rows[id]);
    }
  }

  /** Every response of the listing is a row of the table. */
  lemma ResponsesFromRows(rows: map<string, Row>, docs: seq<Row>)
    requires forall k | 0 <= k < |docs| :: docs[k].id in rows && docs[k] == rows[docs[k].id]
    ensures forall x | x in Responses(docs) :: exists id | id in rows :: x == Response(rows[id])
  {
    var r := Responses(docs);
    forall x | x in r ensures exists id | id in rows :: x == Response(rows[id]) {
      var k :| 0 <= k < |r| && r[k] == x;
      assert docs[k].id in rows;
    }
  }

  /** `get_document`: 404 without a row; otherwise the row with its
      `chunk_count` replaced by what one scroll of the index finds. Neither
      store changes. */
  method GetDocument(docId: string, sv: Services, fault: bool, store: Store) returns (r: Outcome<DocumentResponse>)
    ensures store.GetDocument(docId, fault).None? ==> r == HttpError(404, "Document not found")
    ensures store.GetDocument(docId, fault).Some? ==>
      r == Done(Response(store.rows[docId]).(chunkCount := ChunkCount(sv.found(docId))))
  {
    var info := store.GetDocument(docId, fault);
    if info.None? {
      return HttpError(404, "Document not found");
    }
    var count := ChunkCount(sv.found(docId));
    r := Done(Response(info.value).(chunkCount := count));
  }

  // ----------------------------------------------------------------- deletes

  function DeletedMessage(filename: string): string {
    "Document '" + filename + "' deleted successfully"
  }

  const VectorDeleteFailed: string := "Failed to delete document from vector database"

  /** `delete_document`: 404 without a row, and nothing is sent; otherwise
      one vector delete is sent first. If the index refuses, the row stays
      and the answer is a 500; if it accepts, the row is removed (unless the
      table raises, which the route ignores) and the message names the file. */
  method DeleteDocument(docId: string, sv: Services, getFault: bool, delFault: bool, store: Store, index: VectorIndex)
    returns (r: Outcome<DeleteResponse>)
    requires store.Valid()
    modifies store, index
    ensures store.Valid()
    ensures old(store.GetDocument(docId, getFault)).None? ==>
      r == HttpError(404, "Document not found") && store.rows == old(store.rows) && index.requests == old(index.requests)
    ensures old(store.GetDocument(docId, getFault)).Some? ==> index.requests == old(index.requests) + [DeleteByDoc(docId)]
    ensures old(store.GetDocument(docId, getFault)).Some? && !sv.deleteOk(docId) ==>
      r == HttpError(500, VectorDeleteFailed) && store.rows == old(store.rows)
    ensures old(store.GetDocument(docId, getFault)).Some? && sv.deleteOk(docId) ==>
      r == Done(DeleteResponse(true, DeletedMessage(old(store.rows)[docId].filename)))
      && store.rows == if delFault then old(store.rows) else old(store.rows) - {docId}
  {
    var info := store.GetDocument(docId, getFault);
    if info.None? {
      return HttpError(404, "Document not found");
    }
    var success := index.DeleteDocument(docId, sv.deleteOk(docId));
    if !success {
      return HttpError(500, VectorDeleteFailed);
    }
    var removed := store.DeleteDocument(docId, delFault);
    r := Done(DeleteResponse(true, DeletedMessage(info.value.filename)));
  }

  /** One vector delete per listed row, in listing order. */
  function DeleteRequests(docs: seq<Row>): (q: seq<VectorRequest>)
    ensures |q| == |docs|
  {
    seq(|docs|, k requires 0 <= k < |docs| => DeleteByDoc(docs[k].id))
  }

  lemma DeleteRequestsSnoc(docs: seq<Row>, i: nat)
    requires i < |docs|
    ensures DeleteRequests(docs[..i + 1]) == DeleteRequests(docs[..i]) + [DeleteByDoc(docs[i].id)]
  {
    assert docs[..i + 1][..i] == docs[..i];
  }

  function DeletedAllMessage(count: nat): string {
    "Successfully deleted " + NatToString(count) + " documents"
  }

  /** `delete_all_documents`: lists the rows, sends one vector delete per
      listed row (ignoring the answers), then empties the table (ignoring its
      failure); the message counts the listed rows. */
  method DeleteAllDocuments(sv: Services, listFault: bool, clearFault: bool, store: Store, index: VectorIndex)
    returns (r: DeleteResponse, docs: seq<Row>)
    requires store.Valid()
    modifies store, index
    ensures store.Valid()
    ensures listFault ==> docs == []
    ensures !listFault ==> |docs| == |old(store.rows)| && forall id | id in old(store.rows) :: old(store.rows)[id] in docs
    ensures index.requests == old(index.requests) + DeleteRequests(docs)
    ensures store.rows == if clearFault then old(store.rows) else map[]
    ensures r == DeleteResponse(true, DeletedAllMessage(|docs|))
  {
    docs := store.GetAllDocuments(listFault);
    var i := 0;
    while i < |docs|
      invariant 0 <= i <= |docs|
      invariant index.requests == old(index.requests) + DeleteRequests(docs[..i])
      invariant store.rows == old(store.rows)
    {
      var ignored := index.DeleteDocument(docs[i].id, sv.deleteOk(docs[i].id));
      DeleteRequestsSnoc(docs, i);
      i := i + 1;
    }
    assert docs[..i] == docs;
    var cleared := store.DeleteAllDocuments(clearFault);
    r := DeleteResponse(true, DeletedAllMessage(|docs|));
  }

  /** Every listed document gets its vector delete. */
  lemma DeleteRequestsCover(docs: seq<Row>, id: string)
    requires exists k | 0 <= k < |docs| :: docs[k].id == id
    ensures DeleteByDoc(id) in DeleteRequests(docs)
  {
    var k :| 0 <= k < |docs| && docs[k].id == id;
    assert DeleteRequests(docs)[k] == DeleteByDoc(id);
  }
}
