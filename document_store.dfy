/** The document metadata table (`backend/app/core/document_store.py`): a
    SQLite table whose PRIMARY KEY is `id`, modelled as a map from id to row.
    Whether a database call raises is a parameter `fault` of each operation;
    every such failure is turned into `False`, `[]`, `None` or `0`. */
module DocumentStore {
  import opened Wrappers
  import opened Records

  /** A row of the `documents` table, with its metadata already decoded. */
  datatype Row = Row(
    id: string, filename: string, fileType: string, fileSize: int,
    uploadedAt: string, chunkCount: int, status: string, metadata: Metadata)

  /** The dictionary handed to `add_document`; its "metadata" key may be absent. */
  datatype NewDocument = NewDocument(
    id: string, filename: string, fileType: string, fileSize: int,
    uploadedAt: string, chunkCount: int, status: string, metadata: Option<Metadata>)

  /** The row `add_document` inserts: metadata defaults to `{}`. */
  function RowOf(d: NewDocument): Row {
    Row(d.id, d.filename, d.fileType, d.fileSize, d.uploadedAt, d.chunkCount, d.status,
        if d.metadata.Some? then d.metadata.value else map[])
  }

  // ------------------------------------------------- the order of timestamps

  /** SQLite's comparison of TEXT values: lexicographic on character codes. */
  predicate TextLess(a: string, b: string)
    decreases |a|
  {
    if a == [] then b != []
    else if b == [] then false
    else if a[0] != b[0] then a[0] < b[0]
    else TextLess(a[1..], b[1..])
  }

  lemma {:induction false} TextLessIrreflexive(a: string)
    ensures !TextLess(a, a)
    decreases |a|
  {
    if a != [] {
      TextLessIrreflexive(a[1..]);
    }
  }

  lemma {:induction false} TextLessTransitive(a: string, b: string, c: string)
    requires TextLess(a, b) && TextLess(b, c)
    ensures TextLess(a, c)
    decreases |a|
  {
    if a != [] && b != [] && c != [] && a[0] == b[0] && b[0] == c[0] {
      TextLessTransitive(a[1..], b[1..], c[1..]);
    }
  }

  lemma {:induction false} TextLessTotal(a: string, b: string)
    requires a != b
    ensures TextLess(a, b) || TextLess(b, a)
    decreases |a|
  {
    if a != [] && b != [] && a[0] == b[0] {
      assert a == [a[0]] + a[1..] && b == [b[0]] + b[1..];
      TextLessTotal(a[1..], b[1..]);
    }
  }

  /** Not after: `a` sorts at or above `b` in `ORDER BY uploaded_at DESC`. */
  predicate NotBefore(a: string, b: string) {
    !TextLess(a, b)
  }

  lemma NotBeforeTransitive(a: string, b: string, c: string)
    requires NotBefore(a, b) && NotBefore(b, c)
    ensures NotBefore(a, c)
  {
    if TextLess(a, c) {
      if a == b {
      } else if b == c {
      } else {
        TextLessTotal(a, b);
        TextLessTotal(b, c);
        TextLessTransitive(b, a, c);
      }
    }
  }

  /** Newest first. */
  predicate Descending(s: seq<Row>) {
    forall i, j | 0 <= i < j < |s| :: NotBefore(s[i].uploadedAt, s[j].uploadedAt)
  }

  /** `r` placed after every row not older than it. */
  function InsertDescending(s: seq<Row>, r: Row): (t: seq<Row>)
    ensures |t| == |s| + 1
    decreases |s|
  {
    if s == [] then [r]
    else if TextLess(s[0].uploadedAt, r.uploadedAt) then [r] + s
    else [s[0]] + InsertDescending(s[1..], r)
  }

  /** Inserting keeps the rows newest first and adds exactly `r`. */
  lemma {:induction false} InsertDescendingSpec(s: seq<Row>, r: Row)
    requires Descending(s)
    ensures Descending(InsertDescending(s, r))
    ensures forall x :: x in InsertDescending(s, r) <==> x in s || x == r
    decreases |s|
  {
    if s != [] {
      var t := InsertDescending(s, r);
      if TextLess(s[0].uploadedAt, r.uploadedAt) {
        forall j | 1 <= j < |t| ensures NotBefore(r.uploadedAt, t[j].uploadedAt) {
          assert t[j] == s[j - 1];
          if j > 1 {
            NotBeforeTransitive(r.uploadedAt, s[0].uploadedAt, s[j - 1].uploadedAt) by {
              TextLessIrreflexive(r.uploadedAt);
              if TextLess(r.uploadedAt, s[0].uploadedAt) {
                TextLessTransitive(r.uploadedAt, s[0].uploadedAt, r.uploadedAt);
              }
            }
          } else {
            TextLessIrreflexive(r.uploadedAt);
            if TextLess(r.uploadedAt, s[0].uploadedAt) {
              TextLessTransitive(r.uploadedAt, s[0].uploadedAt, r.uploadedAt);
            }
          }
        }
      } else {
        var rest := InsertDescending(s[1..], r);
        InsertDescendingSpec(s[1..], r);
        forall j | 1 <= j < |t| ensures NotBefore(s[0].uploadedAt, t[j].uploadedAt) {
          assert t[j] == rest[j - 1];
          assert t[j] in s[1..] || t[j] == r;
        }
      }
    }
  }

  // ---------------------------------------------------------------- the table

  class Store {
    /** The rows of the `documents` table, by id. */
    var rows: map<string, Row>

    /** Every row sits under its own id. */
    predicate Valid()
      reads this
    {
      forall id | id in rows :: rows[id].id == id
    }

    /** `DocumentStore(db_path)`: `CREATE TABLE IF NOT EXISTS` keeps the rows
        already in the database file. */
    constructor(existing: map<string, Row>)
      requires forall id | id in existing :: existing[id].id == id
      ensures rows == existing && Valid()
    {
      rows := existing;
    }

    /** `add_document`: the INSERT fails on a taken id (PRIMARY KEY) or a
        database error, and then nothing changes. */
    method AddDocument(d: NewDocument, fault: bool) returns (ok: bool)
      requires Valid()
      modifies this
      ensures Valid()
      ensures ok <==> !fault && d.id !in old(rows)
      ensures ok ==> rows == old(rows)[d.id := RowOf(d)]
      ensures !ok ==> rows == old(rows)
    {
      if fault || d.id in rows {
        return false;
      }
      rows := rows[d.id := RowOf(d)];
      ok := true;
    }

    /** `get_all_documents`: every row, newest first (`ORDER BY uploaded_at
        DESC`); rows with equal timestamps come in an order the model leaves
        open. */
    method GetAllDocuments(fault: bool) returns (docs: seq<Row>)
      requires Valid()
      ensures fault ==> docs == []
      ensures !fault ==> Descending(docs) && |docs| == |rows|
      ensures !fault ==> forall id | id in rows :: rows[id] in docs
      ensures forall k | 0 <= k < |docs| :: docs[k].id in rows && docs[k] == rows[docs[k].id]
    {
      docs := [];
      if fault {
        return;
      }
      var remaining := rows.Keys;
      while remaining != {}
        invariant remaining <= rows.Keys
        invariant Descending(docs)
        invariant forall x | x in docs :: x.id in rows && x == rows[x.id] && x.id !in remaining
        invariant forall id | id in rows && id !in remaining :: rows[id] in docs
        invariant |docs| + |remaining| == |rows|
        decreases |remaining|
      {
        var id :| id in remaining;
        InsertDescendingSpec(docs, rows[id]);
        docs := InsertDescending(docs, rows[id]);
        remaining := remaining - {id};
      }
      assert rows.Keys == rows.Keys - remaining;
      forall k | 0 <= k < |docs| ensures docs[k].id in rows && docs[k] == rows[docs[k].id] {
        assert docs[k] in docs;
      }
    }

    /** `get_document`: the row with that id, if there is one. */
    function GetDocument(id: string, fault: bool): (r: Option<Row>)
      reads this
      ensures r.Some? <==> !fault && id in rows
      ensures r.Some? ==> r.value == rows[id]
    {
      if fault || id !in rows then None else Some(rows[id])
    }

    /** `delete_document`: removes that row only; an absent id is no error. */
    method DeleteDocument(id: string, fault: bool) returns (ok: bool)
      requires Valid()
      modifies this
      ensures Valid()
      ensures ok == !fault
      ensures ok ==> rows == old(rows) - {id}
      ensures !ok ==> rows == old(rows)
    {
      if fault {
        return false;
      }
      rows := rows - {id};
      ok := true;
    }

    /** `delete_all_documents`. */
    method DeleteAllDocuments(fault: bool) returns (ok: bool)
      requires Valid()
      modifies this
      ensures Valid()
      ensures ok == !fault
      ensures ok ==> rows == map[]
      ensures !ok ==> rows == old(rows)
    {
      if fault {
        return false;
      }
      rows := map[];
      ok := true;
    }

    /** `update_chunk_count`: only the matching row's `chunk_count` changes;
        an absent id is no error. */
    method UpdateChunkCount(id: string, count: int, fault: bool) returns (ok: bool)
      requires Valid()
      modifies this
      ensures Valid()
      ensures ok == !fault
      ensures ok && id in old(rows) ==> rows == old(rows)[id := old(rows)[id].(chunkCount := count)]
      ensures !ok || id !in old(rows) ==> rows == old(rows)
    {
      if fault || id !in rows {
        return !fault;
      }
      rows := rows[id := rows[id].(chunkCount := count)];
      ok := true;
    }

    /** `get_document_count`. */
    function GetDocumentCount(fault: bool): (n: nat)
      reads this
      ensures fault ==> n == 0
      ensures !fault ==> n == |rows|
    {
      if fault then 0 else |rows|
    }
  }

  /** What `get_document` returns right after a successful `add_document`:
      the same fields, with metadata `{}` when none was given. */
  method AddThenGet(store: Store, d: NewDocument) returns (ok: bool, got: Option<Row>)
    requires store.Valid()
    modifies store
    ensures ok <==> d.id !in old(store.rows)
    ensures ok ==> got == Some(Row(d.id, d.filename, d.fileType, d.fileSize, d.uploadedAt, d.chunkCount, d.status,
                                   if d.metadata.Some? then d.metadata.value else map[]))
  {
    ok := store.AddDocument(d, false);
    got := store.GetDocument(d.id, false);
  }
}
