/** The rows the worker reads and writes, and the database that holds them.
    The tables are sequences of rows; inserts append, updates rewrite matching
    rows. The database enforces the constraints the worker can trip over: the
    documents primary key and the chunks-to-documents foreign key. Any other
    failure of a statement is an injected fault carrying its error message. */
module Schema {
  import opened Common

  /** A chat message as the request body carries it. */
  datatype Message = Message(role: string, content: string)

  /** The `documents.status` column: `processing`, `completed` or `error`. */
  datatype DocStatus = Processing | Completed | Error

  datatype DocumentRow = DocumentRow(
    id: string,
    userId: string,
    name: string,
    mediaType: string,
    size: nat,
    status: DocStatus,
    uploadedAt: int,
    processedAt: Option<int>,
    metadata: Option<string>)

  type Embedding = seq<real>

  /** The `metadata: { sentence_range: [first, last] }` object of a chunk. */
  datatype SentenceRange = SentenceRange(first: nat, last: nat)

  /** A row of the `chunks` table, in the shape the ingestion route writes. */
  datatype ChunkRow = ChunkRow(
    id: string,
    documentId: string,
    content: string,
    tokenCount: nat,
    page: nat,
    start: nat,
    end: nat,
    metadata: SentenceRange,
    embedding: Option<Embedding>)

  /** A row of `usage_logs`; `timestamp` is the insert time the database stamps. */
  datatype UsageRow = UsageRow(
    userId: string,
    provider: string,
    model: string,
    promptTokens: int,
    completionTokens: int,
    totalTokens: int,
    ms: int,
    costUsd: real,
    sessionId: Option<string>,
    timestamp: int)

  /** A row of `quotas`. */
  datatype QuotaRow = QuotaRow(userId: string, tokensLimit: int, costLimit: real, requestsLimit: int)

  const DuplicateKeyError := "duplicate key value violates unique constraint \"documents_pkey\""
  const ForeignKeyError := "insert or update on table \"chunks\" violates foreign key constraint"

  predicate HasDocument(docs: seq<DocumentRow>, id: string)
  {
    exists i :: 0 <= i < |docs| && docs[i].id == id
  }

  predicate DistinctIds(docs: seq<DocumentRow>)
  {
    forall i, j :: 0 <= i < j < |docs| ==> docs[i].id != docs[j].id
  }

  /** Every chunk points at a stored document (the `chunks.document_id` foreign key). */
  predicate ChunksReferenceDocuments(docs: seq<DocumentRow>, chunks: seq<ChunkRow>)
  {
    forall k :: 0 <= k < |chunks| ==> HasDocument(docs, chunks[k].documentId)
  }

  /** The error, if any, of inserting `row` into `docs`. */
  function DocumentInsertError(docs: seq<DocumentRow>, row: DocumentRow, fault: Option<string>): Option<string>
  {
    if fault.Some? then fault
    else if HasDocument(docs, row.id) then Some(DuplicateKeyError)
    else None
  }

  /** The error, if any, of inserting `rows` into the chunks table next to `docs`. */
  function ChunksInsertError(docs: seq<DocumentRow>, rows: seq<ChunkRow>, fault: Option<string>): Option<string>
  {
    if fault.Some? then fault
    else if !ChunksReferenceDocuments(docs, rows) then Some(ForeignKeyError)
    else None
  }

  /** `UPDATE documents SET status = 'completed', processed_at = at WHERE id = id`. */
  function MarkCompleted(docs: seq<DocumentRow>, id: string, at: int): (r: seq<DocumentRow>)
    ensures |r| == |docs|
    ensures forall i :: 0 <= i < |docs| ==> r[i].id == docs[i].id
    ensures forall i :: 0 <= i < |docs| && docs[i].id != id ==> r[i] == docs[i]
    ensures forall i :: 0 <= i < |docs| && docs[i].id == id ==>
      r[i] == docs[i].(status := Completed, processedAt := Some(at))
  {
    seq(|docs|, i requires 0 <= i < |docs| =>
      if docs[i].id == id then docs[i].(status := Completed, processedAt := Some(at)) else docs[i])
  }

  class Database {
    var documents: seq<DocumentRow>
    var chunks: seq<ChunkRow>
    var usageLogs: seq<UsageRow>
    var quotas: seq<QuotaRow>

    /** Every document id is unique and every chunk belongs to a stored document. */
    ghost predicate Valid()
      reads this
    {
      && DistinctIds(documents)
      && ChunksReferenceDocuments(documents, chunks)
    }

    constructor ()
      ensures Valid()
      ensures documents == [] && chunks == [] && usageLogs == [] && quotas == []
    {
      documents, chunks, usageLogs, quotas := [], [], [], [];
    }

    /** `INSERT INTO documents`; fails on a fault or on a duplicate id. */
    method InsertDocument(row: DocumentRow, fault: Option<string>) returns (err: Option<string>)
      requires Valid()
      modifies this
      ensures Valid()
      ensures err == DocumentInsertError(old(documents), row, fault)
      ensures documents == if err.None? then old(documents) + [row] else old(documents)
      ensures chunks == old(chunks) && usageLogs == old(usageLogs) && quotas == old(quotas)
    {
      if fault.Some? {
        err := fault;
      } else if HasDocument(documents, row.id) {
        err := Some(DuplicateKeyError);
      } else {
        err := None;
        var before := documents;
        documents := documents + [row];
        forall k | 0 <= k < |chunks| ensures HasDocument(documents, chunks[k].documentId) {
          var i :| 0 <= i < |before| && before[i].id == chunks[k].documentId;
          assert documents[i] == before[i];
        }
      }
    }

    /** One multi-row `INSERT INTO chunks`; all rows or none. */
    method InsertChunks(rows: seq<ChunkRow>, fault: Option<string>) returns (err: Option<string>)
      requires Valid()
      modifies this
      ensures Valid()
      ensures err == ChunksInsertError(documents, rows, fault)
      ensures chunks == if err.None? then old(chunks) + rows else old(chunks)
      ensures documents == old(documents) && usageLogs == old(usageLogs) && quotas == old(quotas)
    {
      if fault.Some? {
        err := fault;
      } else if !ChunksReferenceDocuments(documents, rows) {
        err := Some(ForeignKeyError);
      } else {
        err := None;
        chunks := chunks + rows;
      }
    }

    /** The status update that finishes an ingestion. */
    method SetCompleted(id: string, at: int, fault: Option<string>) returns (err: Option<string>)
      requires Valid()
      modifies this
      ensures Valid()
      ensures err == fault
      ensures documents == if err.None? then MarkCompleted(old(documents), id, at) else old(documents)
      ensures chunks == old(chunks) && usageLogs == old(usageLogs) && quotas == old(quotas)
    {
      err := fault;
      if fault.None? {
        var before := documents;
        assert forall k :: 0 <= k < |chunks| ==> HasDocument(before, chunks[k].documentId);
        documents := MarkCompleted(documents, id, at);
        forall k | 0 <= k < |chunks| ensures HasDocument(documents, chunks[k].documentId) {
          assert HasDocument(before, chunks[k].documentId);
          var i :| 0 <= i < |before| && before[i].id == chunks[k].documentId;
          assert documents[i].id == before[i].id;
        }
      }
    }

    /** `INSERT INTO usage_logs`. */
    method InsertUsage(row: UsageRow, fault: Option<string>) returns (err: Option<string>)
      requires Valid()
      modifies this
      ensures Valid()
      ensures err == fault
      ensures usageLogs == if err.None? then old(usageLogs) + [row] else old(usageLogs)
      ensures documents == old(documents) && chunks == old(chunks) && quotas == old(quotas)
    {
      err := fault;
      if fault.None? {
        usageLogs := usageLogs + [row];
      }
    }
  }
}
