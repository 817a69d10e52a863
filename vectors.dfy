/**
 * The vector use case (internal/usecase/vector_usecase.go): ingesting a
 * reference document into the vector index, and the similarity search the
 * evaluation pipeline uses. The PDF service, the embedding service and the
 * vector repository's search are collaborators; the stored rows are an
 * in-memory sequence.
 */
module Vectors {
  import opened Errors
  import opened GoStrings
  import opened Domain
  import opened Chunking

  /**
   * The collaborators: PDFService.ExtractText, the embedding service's
   * single and batch calls, VectorRepository.SearchSimilar, and what
   * VectorRepository.Create returns for a row.
   */
  datatype Services = Services(
    extract: string -> Result<string>,
    embed: seq<byte> -> Result<Embedding>,
    embedBatch: seq<string> -> Result<seq<Embedding>>,
    search: (Embedding, DocumentType, int) -> Result<seq<VectorDocument>>,
    storeError: VectorDocument -> Option<Error>)

  /** The rows of the vector_documents table. */
  class VectorStore {
    var rows: seq<VectorDocument>

    constructor ()
      ensures rows == []
    {
      rows := [];
    }

    /** VectorRepository.Create: the row is appended unless the database refuses it, whose error is then wrapped. */
    method Create(doc: VectorDocument, fault: Option<Error>) returns (err: Option<Error>)
      modifies this
      ensures fault.None? ==> rows == old(rows) + [doc] && err == None
      ensures fault.Some? ==> rows == old(rows) && err == Some(Wrap("failed to create vector documents", fault.value))
    {
      if fault.Some? {
        return Some(Wrap("failed to create vector documents", fault.value));
      }
      rows := rows + [doc];
      return None;
    }
  }

  /** The number a string of decimal digits denotes, read most significant digit first. */
  function DigitsValue(s: string): int
  {
    if s == [] then 0 else DigitsValue(s[..|s| - 1]) * 10 + (s[|s| - 1] as int - '0' as int)
  }

  /** The decimal digits of n, as fmt's %d writes them: they denote n, with no leading zero. */
  function Decimal(n: nat): (s: string)
    ensures s != []
    ensures forall i :: 0 <= i < |s| ==> '0' <= s[i] <= '9'
    ensures DigitsValue(s) == n
    ensures n >= 10 ==> s[0] != '0'
  {
    if n < 10 then [('0' as int + n) as char] else Decimal(n / 10) + [('0' as int + n % 10) as char]
  }

  /**
   * The metadata stored with a chunk: the caller's entries, then chunk_index
   * and chunk_length (the content's length in bytes), which override
   * entries of the same name.
   */
  function ChunkMetadata(metadata: Metadata, c: TextChunk): Metadata
  {
    metadata["chunk_index" := MetaInt(c.index)]["chunk_length" := MetaInt(ByteLen(c.content))]
  }

  /** The contents of the chunks, in order. */
  function Contents(chunks: seq<TextChunk>): (r: seq<string>)
    ensures |r| == |chunks| && forall i :: 0 <= i < |r| ==> r[i] == chunks[i].content
  {
    seq(|chunks|, i requires 0 <= i < |chunks| => chunks[i].content)
  }

  /** The rows IngestDocument tries to store: chunk i with embedding i and its metadata. */
  function ChunkDocs(chunks: seq<TextChunk>, embeddings: seq<Embedding>, docType: DocumentType, metadata: Metadata)
    : (docs: seq<VectorDocument>)
    requires |embeddings| == |chunks|
    ensures |docs| == |chunks|
    ensures forall i :: 0 <= i < |docs| ==>
              docs[i] == VectorDocument(docType, chunks[i].content, embeddings[i], ChunkMetadata(metadata, chunks[i]))
  {
    seq(|chunks|, i requires 0 <= i < |chunks| =>
      VectorDocument(docType, chunks[i].content, embeddings[i], ChunkMetadata(metadata, chunks[i])))
  }

  /** The rows the database accepts, in the order they were offered. */
  function Stored(s: Services, docs: seq<VectorDocument>): (r: seq<VectorDocument>)
    ensures |r| <= |docs|
  {
    if docs == [] then []
    else
      var last := docs[|docs| - 1];
      Stored(s, docs[..|docs| - 1]) + (if s.storeError(last).None? then [last] else [])
  }

  /**
   * What IngestDocument does before it stores anything: the rows to offer,
   * or the error that stops it (no text, no chunks, a failed embedding
   * call, or a count mismatch).
   */
  function IngestPlan(s: Services, filePath: string, docType: DocumentType, metadata: Metadata): Result<seq<VectorDocument>>
  {
    var text := s.extract(filePath);
    if text.Err? then Err(Wrap("failed to extract text", text.error))
    else if text.value == [] then Err(Message("no text extracted from document"))
    else RowsPlan(s, ChunksOf(Groups(Sentences(text.value), 1000)), docType, metadata)
  }

  /** The second half of IngestPlan, once the text has been chunked. */
  function RowsPlan(s: Services, chunks: seq<TextChunk>, docType: DocumentType, metadata: Metadata): Result<seq<VectorDocument>>
  {
    if chunks == [] then Err(Message("no chunks created from text"))
    else
      var embeddings := s.embedBatch(Contents(chunks));
      if embeddings.Err? then Err(Wrap("failed to generate batch embeddings", embeddings.error))
      else if |embeddings.value| != |chunks| then
        Err(Message("embeddings count mismatch: got " + Decimal(|embeddings.value|) + ", expected " + Decimal(|chunks|)))
      else Ok(ChunkDocs(chunks, embeddings.value, docType, metadata))
  }

  /**
   * IngestDocument: on an early error nothing is stored; otherwise every
   * row is offered in order, the accepted ones are appended, and the call
   * fails only when none was accepted.
   */
  method IngestDocument(s: Services, store: VectorStore, filePath: string, docType: DocumentType, metadata: Metadata)
    returns (err: Option<Error>)
    modifies store
    ensures IngestPlan(s, filePath, docType, metadata).Err? ==>
              err == Some(IngestPlan(s, filePath, docType, metadata).error) && store.rows == old(store.rows)
    ensures IngestPlan(s, filePath, docType, metadata).Ok? ==>
              var stored := Stored(s, IngestPlan(s, filePath, docType, metadata).value);
              && store.rows == old(store.rows) + stored
              && err == if stored == [] then Some(Message("failed to store any chunks")) else None
  {
    var text := s.extract(filePath);
    if text.Err? {
      return Some(Wrap("failed to extract text", text.error));
    }
    if text.value == [] {
      return Some(Message("no text extracted from document"));
    }
    var chunks := ChunkBySentence(text.value, 1000);
    err := StoreRows(s, store, chunks, docType, metadata);
  }

  /** IngestDocument from the chunks on: embed them all in one call, check the count, store the rows. */
  method StoreRows(s: Services, store: VectorStore, chunks: seq<TextChunk>, docType: DocumentType, metadata: Metadata)
    returns (err: Option<Error>)
    modifies store
    ensures RowsPlan(s, chunks, docType, metadata).Err? ==>
              err == Some(RowsPlan(s, chunks, docType, metadata).error) && store.rows == old(store.rows)
    ensures RowsPlan(s, chunks, docType, metadata).Ok? ==>
              var stored := Stored(s, RowsPlan(s, chunks, docType, metadata).value);
              && store.rows == old(store.rows) + stored
              && err == if stored == [] then Some(Message("failed to store any chunks")) else None
  {
    if |chunks| == 0 {
      return Some(Message("no chunks created from text"));
    }
    var chunkContents := CollectContents(chunks);
    var embeddings := s.embedBatch(chunkContents);
    if embeddings.Err? {
      return Some(Wrap("failed to generate batch embeddings", embeddings.error));
    }
    if |embeddings.value| != |chunks| {
      return Some(Message("embeddings count mismatch: got " + Decimal(|embeddings.value|) + ", expected " + Decimal(|chunks|)));
    }
    var successCount := StoreChunks(s, store, chunks, embeddings.value, docType, metadata);
    if successCount == 0 {
      return Some(Message("failed to store any chunks"));
    }
    return None;
  }

  /** The loop that gathers the chunk contents for the batch embedding call. */
  method CollectContents(chunks: seq<TextChunk>) returns (chunkContents: seq<string>)
    ensures chunkContents == Contents(chunks)
  {
    chunkContents := seq(|chunks|, _ => []);
    for i := 0 to |chunks|
      invariant |chunkContents| == |chunks|
      invariant forall j :: 0 <= j < i ==> chunkContents[j] == chunks[j].content
    {
      chunkContents := chunkContents[i := chunks[i].content];
    }
  }

  /** The store loop of IngestDocument: offer chunk i with embedding i, skip a refused row, count the stored ones. */
  method StoreChunks(s: Services, store: VectorStore, chunks: seq<TextChunk>, embeddings: seq<Embedding>,
                     docType: DocumentType, metadata: Metadata)
    returns (successCount: nat)
    requires |embeddings| == |chunks|
    modifies store
    ensures store.rows == old(store.rows) + Stored(s, ChunkDocs(chunks, embeddings, docType, metadata))
    ensures successCount == |Stored(s, ChunkDocs(chunks, embeddings, docType, metadata))|
  {
    ghost var docs := ChunkDocs(chunks, embeddings, docType, metadata);
    successCount := 0;
    for i := 0 to |chunks|
      invariant store.rows == old(store.rows) + Stored(s, docs[..i])
      invariant successCount == |Stored(s, docs[..i])|
    {
      assert docs[i] == VectorDocument(docType, chunks[i].content, embeddings[i], ChunkMetadata(metadata, chunks[i]));
      var stored := StoreChunk(s, store, chunks[i], embeddings[i], docType, metadata);
      StoredSnoc(s, docs, i);
      if stored {
        successCount := successCount + 1;
      }
    }
    assert docs[..|chunks|] == docs;
  }

  /**
   * One turn of the store loop: the chunk's metadata is a copy of the
   * caller's with chunk_index and chunk_length set, and the row is offered
   * to the database; a refused row is skipped.
   */
  method StoreChunk(s: Services, store: VectorStore, chunk: TextChunk, embedding: Embedding,
                    docType: DocumentType, metadata: Metadata)
    returns (stored: bool)
    modifies store
    ensures var doc := VectorDocument(docType, chunk.content, embedding, ChunkMetadata(metadata, chunk));
            && stored == s.storeError(doc).None?
            && store.rows == old(store.rows) + (if stored then [doc] else [])
  {
    var chunkMetadata := metadata;
    chunkMetadata := chunkMetadata["chunk_index" := MetaInt(chunk.index)];
    chunkMetadata := chunkMetadata["chunk_length" := MetaInt(ByteLen(chunk.content))];
    var vectorDoc := VectorDocument(docType, chunk.content, embedding, chunkMetadata);
    var e := store.Create(vectorDoc, s.storeError(vectorDoc));
    stored := e.None?;
  }

  /** One more row offered: it is kept exactly when the database accepts it. */
  lemma StoredSnoc(s: Services, docs: seq<VectorDocument>, i: int)
    requires 0 <= i < |docs|
    ensures Stored(s, docs[..i + 1]) == Stored(s, docs[..i]) + (if s.storeError(docs[i]).None? then [docs[i]] else [])
  {
    assert docs[..i + 1][..i] == docs[..i];
  }

  /** Every row offered is kept exactly when the database refuses none of them. */
  lemma {:induction false} StoredAll(s: Services, docs: seq<VectorDocument>)
    ensures Stored(s, docs) == docs <==> forall i :: 0 <= i < |docs| ==> s.storeError(docs[i]).None?
    decreases |docs|
  {
    if docs != [] {
      var front, last := docs[..|docs| - 1], docs[|docs| - 1];
      StoredAll(s, front);
      assert docs == front + [last];
      assert (forall i :: 0 <= i < |docs| ==> s.storeError(docs[i]).None?) <==>
             (forall i :: 0 <= i < |front| ==> s.storeError(front[i]).None?) && s.storeError(last).None?;
      if s.storeError(last).None? {
        assert Stored(s, docs) == Stored(s, front) + [last];
        if Stored(s, docs) == docs {
          assert Stored(s, front) == Stored(s, docs)[..|front|] == front;
        }
      } else {
        assert |Stored(s, docs)| <= |front| < |docs|;
      }
    }
  }

  /** No row is kept exactly when the database refuses every one of them. */
  lemma {:induction false} StoredNone(s: Services, docs: seq<VectorDocument>)
    ensures Stored(s, docs) == [] <==> forall i :: 0 <= i < |docs| ==> s.storeError(docs[i]).Some?
    decreases |docs|
  {
    if docs != [] {
      var front, last := docs[..|docs| - 1], docs[|docs| - 1];
      StoredNone(s, front);
      assert (forall i :: 0 <= i < |docs| ==> s.storeError(docs[i]).Some?) <==>
             (forall i :: 0 <= i < |front| ==> s.storeError(front[i]).Some?) && s.storeError(last).Some?;
      if s.storeError(last).None? {
        assert |Stored(s, docs)| == |Stored(s, front)| + 1;
      } else {
        assert Stored(s, docs) == Stored(s, front);
      }
    }
  }

  /**
   * Row i of a successful RowsPlan holds chunk i's content and embedding i,
   * and its metadata is the caller's with chunk_index set to the chunk's
   * index and chunk_length to the content's byte length.
   */
  lemma RowsPlanRow(s: Services, chunks: seq<TextChunk>, docType: DocumentType, metadata: Metadata, i: int)
    requires RowsPlan(s, chunks, docType, metadata).Ok?
    requires 0 <= i < |RowsPlan(s, chunks, docType, metadata).value|
    ensures i < |chunks|
    ensures var d := RowsPlan(s, chunks, docType, metadata).value[i];
            && d.docType == docType && d.content == chunks[i].content
            && d.metadata.Keys == metadata.Keys + {"chunk_index", "chunk_length"}
            && d.metadata["chunk_index"] == MetaInt(chunks[i].index)
            && d.metadata["chunk_length"] == MetaInt(ByteLen(d.content))
            && forall k :: k in metadata && k != "chunk_index" && k != "chunk_length" ==> d.metadata[k] == metadata[k]
  {
    var embeddings := s.embedBatch(Contents(chunks)).value;
    var d := ChunkDocs(chunks, embeddings, docType, metadata)[i];
    assert d.metadata == ChunkMetadata(metadata, chunks[i]);
  }

  /**
   * The rows IngestDocument offers come from ChunkBySentence(text, 1000):
   * row i holds chunk i's content, non-empty and trimmed, and its metadata
   * records chunk_index i and the content's byte length.
   */
  lemma IngestRows(s: Services, filePath: string, docType: DocumentType, metadata: Metadata, i: int)
    requires IngestPlan(s, filePath, docType, metadata).Ok?
    requires 0 <= i < |IngestPlan(s, filePath, docType, metadata).value|
    ensures var d := IngestPlan(s, filePath, docType, metadata).value[i];
            && d.docType == docType && d.content != [] && Trimmed(d.content)
            && d.metadata.Keys == metadata.Keys + {"chunk_index", "chunk_length"}
            && d.metadata["chunk_index"] == MetaInt(i)
            && d.metadata["chunk_length"] == MetaInt(ByteLen(d.content))
            && forall k :: k in metadata && k != "chunk_index" && k != "chunk_length" ==> d.metadata[k] == metadata[k]
  {
    var text := s.extract(filePath).value;
    var chunks := ChunksOf(Groups(Sentences(text), 1000));
    assert IngestPlan(s, filePath, docType, metadata) == RowsPlan(s, chunks, docType, metadata);
    RowsPlanRow(s, chunks, docType, metadata, i);
    ChunkBySentenceShape(text, 1000, i);
  }

  /** SearchSimilar: embed the query, then search with the same type and limit; either error is passed on, wrapped. */
  function SearchSimilar(s: Services, query: seq<byte>, docType: DocumentType, topK: int): (r: Result<seq<VectorDocument>>)
    ensures r.Ok? <==> s.embed(query).Ok? && s.search(s.embed(query).value, docType, topK).Ok?
    ensures r.Ok? ==> r.value == s.search(s.embed(query).value, docType, topK).value
    ensures s.embed(query).Err? ==> Unwrap(r.error) == Some(s.embed(query).error)
    ensures s.embed(query).Ok? && r.Err? ==> Unwrap(r.error) == Some(s.search(s.embed(query).value, docType, topK).error)
  {
    var queryEmbedding := s.embed(query);
    if queryEmbedding.Err? then Err(Wrap("failed to generate query embedding", queryEmbedding.error))
    else
      var docs := s.search(queryEmbedding.value, docType, topK);
      if docs.Err? then Err(Wrap("failed to search similar documents", docs.error))
      else Ok(docs.value)
  }
}
