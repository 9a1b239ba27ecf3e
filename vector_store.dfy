/** The vector store: chunks kept as records keyed by id in an abstract collection, and the
    formatting of the engine's nearest-neighbour answers. */
module VectorStore {
  import opened Common
  import Config
  import opened DocumentProcessor

  /** A stored record: the chunk's content and its metadata dictionary. */
  datatype Entry = Entry(document: string, metadata: Metadata)

  type Collection = map<string, Entry>

  // ---------------------------------------------------------------------------
  // Record ids

  /** The id format: filename, an underscore, the chunk number. */
  function RecordId(filename: string, chunkId: nat): string {
    filename + "_" + NatToString(chunkId)
  }

  /** The filename part of a chunk's id: its metadata's filename rendered as text, or "unknown". */
  function ChunkFilename(c: DocumentChunk): string {
    Render(Get(MetadataDict(c), "filename", VStr("unknown")))
  }

  function ChunkRecordId(c: DocumentChunk): string {
    RecordId(ChunkFilename(c), c.chunkId)
  }

  /** The number is printed without underscores, so the last underscore of an id separates the
      filename from the chunk number: an id names exactly one (filename, chunk) pair. */
  lemma RecordIdInjective(f1: string, n1: nat, f2: string, n2: nat)
    ensures RecordId(f1, n1) == RecordId(f2, n2) <==> f1 == f2 && n1 == n2
  {
    if RecordId(f1, n1) == RecordId(f2, n2) {
      var id := RecordId(f1, n1);
      RFindAt(id, '_', |f1|);
      RFindAt(id, '_', |f2|);
      assert id[..|f1|] == f1 && id[..|f2|] == f2;
      assert id[|f1| + 1..] == NatToString(n1) && id[|f2| + 1..] == NatToString(n2);
      NatToStringInjective(n1, n2);
    }
  }

  /** The chunk keys do not shadow the document's filename. */
  lemma ChunkFilenameOfDocument(c: DocumentChunk)
    ensures ChunkFilename(c) == Render(Get(c.documentMetadata, "filename", VStr("unknown")))
  {
    DictFacts(c);
    assert "filename"[0] != "chunk_id"[0] && "filename"[0] != "start_char"[0] && "filename"[0] != "end_char"[0];
  }

  /** Chunks with different numbers get different ids, whatever their filenames. */
  lemma DistinctChunkIds(a: DocumentChunk, b: DocumentChunk)
    requires a.chunkId != b.chunkId
    ensures ChunkRecordId(a) != ChunkRecordId(b)
  {
    RecordIdInjective(ChunkFilename(a), a.chunkId, ChunkFilename(b), b.chunkId);
  }

  /** The chunks of one document are numbered 0, 1, 2, ..., so their ids are pairwise distinct. */
  lemma DocumentIdsDistinct(text: string, metadata: Metadata, chunkSize: int, chunkOverlap: int, i: nat, j: nat)
    requires Advances(chunkSize, chunkOverlap)
    requires i < j < |Chunks(text, metadata, chunkSize, chunkOverlap)|
    ensures var r := Chunks(text, metadata, chunkSize, chunkOverlap);
      ChunkRecordId(r[i]) != ChunkRecordId(r[j])
  {
    ChunksWellFormed(text, metadata, chunkSize, chunkOverlap);
    var r := Chunks(text, metadata, chunkSize, chunkOverlap);
    DistinctChunkIds(r[i], r[j]);
  }

  // ---------------------------------------------------------------------------
  // Adding chunks

  /** The parallel lists handed to the collection: ids, contents and metadata dictionaries,
      in chunk order. */
  method PrepareBatch(chunks: seq<DocumentChunk>) returns (ids: seq<string>, documents: seq<string>, metadatas: seq<Metadata>)
    ensures |ids| == |chunks| && |documents| == |chunks| && |metadatas| == |chunks|
    ensures forall i | 0 <= i < |chunks| ::
      && ids[i] == ChunkRecordId(chunks[i])
      && documents[i] == chunks[i].content
      && metadatas[i] == MetadataDict(chunks[i])
  {
    ids, documents, metadatas := [], [], [];
    for i := 0 to |chunks|
      invariant |ids| == i && |documents| == i && |metadatas| == i
      invariant forall k | 0 <= k < i ::
        && ids[k] == ChunkRecordId(chunks[k])
        && documents[k] == chunks[k].content
        && metadatas[k] == MetadataDict(chunks[k])
    {
      var chunk := chunks[i];
      var chunkId := RecordId(Render(Get(MetadataDict(chunk), "filename", VStr("unknown"))), chunk.chunkId);
      ids := ids + [chunkId];
      documents := documents + [chunk.content];
      metadatas := metadatas + [MetadataDict(chunk)];
    }
  }

  /** The collection's add on parallel lists: an id already present keeps its record. */
  function InsertAll(m: Collection, ids: seq<string>, documents: seq<string>, metadatas: seq<Metadata>): Collection
    requires |ids| == |documents| == |metadatas|
    decreases |ids|
  {
    if ids == [] then m
    else
      var m' := if ids[0] in m then m else m[ids[0] := Entry(documents[0], metadatas[0])];
      InsertAll(m', ids[1..], documents[1..], metadatas[1..])
  }

  /** The collection after adding the chunks one by one. */
  function AddChunks(m: Collection, chunks: seq<DocumentChunk>): Collection
    decreases |chunks|
  {
    if chunks == [] then m
    else
      var c := chunks[0];
      var id := ChunkRecordId(c);
      AddChunks(if id in m then m else m[id := Entry(c.content, MetadataDict(c))], chunks[1..])
  }

  /** The parallel lists of PrepareBatch add exactly what AddChunks adds. */
  lemma {:induction false} InsertAllOfBatch(m: Collection, chunks: seq<DocumentChunk>, ids: seq<string>,
                                           documents: seq<string>, metadatas: seq<Metadata>)
    requires |ids| == |chunks| && |documents| == |chunks| && |metadatas| == |chunks|
    requires forall i | 0 <= i < |chunks| ::
      && ids[i] == ChunkRecordId(chunks[i])
      && documents[i] == chunks[i].content
      && metadatas[i] == MetadataDict(chunks[i])
    ensures InsertAll(m, ids, documents, metadatas) == AddChunks(m, chunks)
    decreases |chunks|
  {
    if chunks != [] {
      var m' := if ids[0] in m then m else m[ids[0] := Entry(documents[0], metadatas[0])];
      InsertAllOfBatch(m', chunks[1..], ids[1..], documents[1..], metadatas[1..]);
    }
  }

  /** Adding keeps every record already present and introduces exactly the chunks' ids. */
  lemma {:induction false} AddChunksKeeps(m: Collection, chunks: seq<DocumentChunk>)
    ensures forall id | id in m :: id in AddChunks(m, chunks) && AddChunks(m, chunks)[id] == m[id]
    ensures forall id :: id in AddChunks(m, chunks) <==>
      id in m || exists i | 0 <= i < |chunks| :: ChunkRecordId(chunks[i]) == id
    decreases |chunks|
  {
    if chunks != [] {
      var c := chunks[0];
      var id0 := ChunkRecordId(c);
      var m' := if id0 in m then m else m[id0 := Entry(c.content, MetadataDict(c))];
      AddChunksKeeps(m', chunks[1..]);
      forall id
        ensures id in AddChunks(m, chunks) <==> id in m || exists i | 0 <= i < |chunks| :: ChunkRecordId(chunks[i]) == id
      {
        if exists i | 0 <= i < |chunks[1..]| :: ChunkRecordId(chunks[1..][i]) == id {
          var i :| 0 <= i < |chunks[1..]| && ChunkRecordId(chunks[1..][i]) == id;
          assert ChunkRecordId(chunks[i + 1]) == id;
        }
        if exists i | 0 <= i < |chunks| :: ChunkRecordId(chunks[i]) == id {
          var i :| 0 <= i < |chunks| && ChunkRecordId(chunks[i]) == id;
          if i > 0 {
            assert ChunkRecordId(chunks[1..][i - 1]) == id;
          }
        }
      }
    }
  }

  /** Ids pairwise distinct and none already stored: every chunk is stored under its id and the
      collection grows by the number of chunks. */
  predicate FreshBatch(m: Collection, chunks: seq<DocumentChunk>) {
    && (forall i | 0 <= i < |chunks| :: ChunkRecordId(chunks[i]) !in m)
    && (forall i, j | 0 <= i < j < |chunks| :: ChunkRecordId(chunks[i]) != ChunkRecordId(chunks[j]))
  }

  lemma {:induction false} AddChunksFresh(m: Collection, chunks: seq<DocumentChunk>)
    requires FreshBatch(m, chunks)
    ensures |AddChunks(m, chunks)| == |m| + |chunks|
    ensures forall i | 0 <= i < |chunks| ::
      ChunkRecordId(chunks[i]) in AddChunks(m, chunks)
      && AddChunks(m, chunks)[ChunkRecordId(chunks[i])] == Entry(chunks[i].content, MetadataDict(chunks[i]))
    decreases |chunks|
  {
    if chunks != [] {
      var c := chunks[0];
      var id0 := ChunkRecordId(c);
      var m' := m[id0 := Entry(c.content, MetadataDict(c))];
      assert FreshBatch(m', chunks[1..]) by {
        forall i | 0 <= i < |chunks[1..]|
          ensures ChunkRecordId(chunks[1..][i]) !in m'
        {
          assert ChunkRecordId(chunks[1..][i]) == ChunkRecordId(chunks[i + 1]) != id0;
        }
        forall i, j | 0 <= i < j < |chunks[1..]|
          ensures ChunkRecordId(chunks[1..][i]) != ChunkRecordId(chunks[1..][j])
        {
          assert chunks[1..][i] == chunks[i + 1] && chunks[1..][j] == chunks[j + 1];
        }
      }
      AddChunksFresh(m', chunks[1..]);
      AddChunksKeeps(m', chunks[1..]);
      forall i | 0 <= i < |chunks|
        ensures ChunkRecordId(chunks[i]) in AddChunks(m, chunks)
          && AddChunks(m, chunks)[ChunkRecordId(chunks[i])] == Entry(chunks[i].content, MetadataDict(chunks[i]))
      {
        if i > 0 {
          assert chunks[1..][i - 1] == chunks[i];
        }
      }
    }
  }

  // ---------------------------------------------------------------------------
  // Search results

  /** The engine's answer for one query embedding: parallel lists, one per query. */
  datatype QueryResult = QueryResult(documents: seq<seq<string>>, metadatas: seq<seq<Metadata>>, distances: seq<seq<real>>)

  datatype SearchHit = SearchHit(content: string, metadata: Metadata, score: real)

  /** The nearest-neighbour search: the collection, the query, n_results and the where filter. */
  type Engine = (Collection, string, int, Option<Metadata>) -> Result<QueryResult>

  /** results[key][0], with no list for a missing first query. */
  function First<T>(lists: seq<seq<T>>): seq<T> {
    if lists == [] then [] else lists[0]
  }

  /** The similarity of a distance. */
  function Score(distance: real): real
    requires distance != -1.0
  {
    1.0 / (1.0 + distance)
  }

  /** For a non-negative distance the score lies in (0, 1] and is 1 exactly at distance 0. */
  lemma ScoreRange(d: real)
    requires d >= 0.0
    ensures 0.0 < Score(d) <= 1.0
    ensures Score(d) == 1.0 <==> d == 0.0
  {
    assert Score(d) * (1.0 + d) == 1.0;
  }

  /** A larger distance gives a strictly smaller score. */
  lemma ScoreDecreasing(d1: real, d2: real)
    requires 0.0 <= d1 < d2
    ensures Score(d1) > Score(d2)
  {
    var s1, s2 := Score(d1), Score(d2);
    assert s1 * (1.0 + d1) == 1.0 && s2 * (1.0 + d2) == 1.0;
    ScoreRange(d1);
    assert s1 * (1.0 + d2) == s1 * (1.0 + d1) + s1 * (d2 - d1);
    assert s1 * (d2 - d1) > 0.0;
    assert s1 * (1.0 + d2) > s2 * (1.0 + d2);
  }

  /** The results from index i on: each index reads its distance (an IndexError when the
      distance list is short), converts it (dividing by zero at -1), then reads its metadata. */
  function HitsFrom(r: QueryResult, i: nat): Result<seq<SearchHit>>
    requires i <= |First(r.documents)|
    decreases |First(r.documents)| - i
  {
    var docs, metas, dists := First(r.documents), First(r.metadatas), First(r.distances);
    if i == |docs| then Success([])
    else if i >= |dists| then Failure(IndexError)
    else if dists[i] == -1.0 then Failure(ZeroDivisionError)
    else if i >= |metas| then Failure(IndexError)
    else
      match HitsFrom(r, i + 1)
      case Failure(e) => Failure(e)
      case Success(rest) => Success([SearchHit(docs[i], metas[i], Score(dists[i]))] + rest)
  }

  function Hits(r: QueryResult): Result<seq<SearchHit>> {
    HitsFrom(r, 0)
  }

  /** From index i on, every document has a distance and a metadata, and no distance is -1. */
  predicate Aligned(r: QueryResult, i: nat) {
    var docs, metas, dists := First(r.documents), First(r.metadatas), First(r.distances);
    i >= |docs| || (|docs| <= |dists| && |docs| <= |metas| && forall j | i <= j < |docs| :: dists[j] != -1.0)
  }

  /** Formatting succeeds exactly when the lists line up, and then gives one hit per document, in
      the engine's order, pairing content, metadata and distance of the same index. */
  lemma {:induction false} HitsFromShape(r: QueryResult, i: nat)
    requires i <= |First(r.documents)|
    ensures HitsFrom(r, i).Success? <==> Aligned(r, i)
    ensures HitsFrom(r, i).Failure? ==> HitsFrom(r, i).error in {IndexError, ZeroDivisionError}
    ensures HitsFrom(r, i).Success? ==>
      var hits, docs := HitsFrom(r, i).value, First(r.documents);
      && |hits| == |docs| - i
      && forall j | i <= j < |docs| ::
           && j < |First(r.metadatas)| && j < |First(r.distances)| && First(r.distances)[j] != -1.0
           && hits[j - i] == SearchHit(docs[j], First(r.metadatas)[j], Score(First(r.distances)[j]))
    decreases |First(r.documents)| - i
  {
    if i < |First(r.documents)| {
      var metas, dists := First(r.metadatas), First(r.distances);
      assert Aligned(r, i) <==> i < |dists| && i < |metas| && dists[i] != -1.0 && Aligned(r, i + 1);
      HitsFromShape(r, i + 1);
    }
  }

  lemma HitsShape(r: QueryResult)
    ensures Hits(r).Success? <==> Aligned(r, 0)
    ensures Hits(r).Failure? ==> Hits(r).error in {IndexError, ZeroDivisionError}
    ensures Hits(r).Success? ==>
      var hits, docs := Hits(r).value, First(r.documents);
      && |hits| == |docs|
      && forall j | 0 <= j < |docs| ::
           && j < |First(r.metadatas)| && j < |First(r.distances)| && First(r.distances)[j] != -1.0
           && hits[j] == SearchHit(docs[j], First(r.metadatas)[j], Score(First(r.distances)[j]))
  {
    HitsFromShape(r, 0);
  }

  /** No documents gives no results, even when the other lists are missing. */
  lemma EmptyAnswerNoHits(r: QueryResult)
    requires r.documents == [] || r.documents[0] == []
    ensures Hits(r) == Success([])
  {
  }

  /** Distances the engine returns in ascending order give scores in non-increasing order. */
  lemma AscendingDistancesRankedScores(r: QueryResult)
    requires Hits(r).Success?
    requires forall j | 0 <= j < |First(r.distances)| :: First(r.distances)[j] >= 0.0
    requires forall j, k | 0 <= j < k < |First(r.distances)| :: First(r.distances)[j] <= First(r.distances)[k]
    ensures forall j, k | 0 <= j < k < |Hits(r).value| :: Hits(r).value[j].score >= Hits(r).value[k].score
  {
    HitsShape(r);
    var hits, dists := Hits(r).value, First(r.distances);
    if |hits| > 0 {
      assert |hits| - 1 < |dists|;
    }
    forall j, k | 0 <= j < k < |hits|
      ensures hits[j].score >= hits[k].score
    {
      if dists[j] < dists[k] {
        ScoreDecreasing(dists[j], dists[k]);
      }
    }
  }

  /** `x + r` inside a result: an error stays an error. */
  function Prefixed(acc: seq<SearchHit>, r: Result<seq<SearchHit>>): Result<seq<SearchHit>> {
    match r
    case Failure(e) => Failure(e)
    case Success(rest) => Success(acc + rest)
  }

  /** The formatting loop of search. */
  method FormatResults(r: QueryResult) returns (formatted: Result<seq<SearchHit>>)
    ensures formatted == Hits(r)
  {
    var hits: seq<SearchHit> := [];
    if r.documents != [] && r.documents[0] != [] {
      var docs := r.documents[0];
      assert First(r.documents) == docs;
      assert Prefixed([], HitsFrom(r, 0)) == Hits(r) by {
        match HitsFrom(r, 0)
        case Failure(e) =>
        case Success(rest) => assert [] + rest == rest;
      }
      for i := 0 to |docs|
        invariant Prefixed(hits, HitsFrom(r, i)) == Hits(r)
      {
        if r.distances == [] || i >= |r.distances[0]| {
          return Failure(IndexError);
        }
        var distance := r.distances[0][i];
        if distance == -1.0 {
          return Failure(ZeroDivisionError);
        }
        var similarity := 1.0 / (1.0 + distance);
        if r.metadatas == [] || i >= |r.metadatas[0]| {
          return Failure(IndexError);
        }
        assert HitsFrom(r, i) == Prefixed([SearchHit(docs[i], r.metadatas[0][i], similarity)], HitsFrom(r, i + 1));
        match HitsFrom(r, i + 1)
        case Failure(e) =>
        case Success(rest) =>
          AppendAssociative(hits, [SearchHit(docs[i], r.metadatas[0][i], similarity)], rest);
        hits := hits + [SearchHit(docs[i], r.metadatas[0][i], similarity)];
      }
      assert HitsFrom(r, |docs|) == Success([]);
      assert hits + [] == hits;
    }
    else {
      assert First(r.documents) == [];
    }
    formatted := Success(hits);
  }

  // ---------------------------------------------------------------------------
  // The store

  predicate FromFile(e: Entry, filename: string) {
    "filename" in e.metadata && e.metadata["filename"] == VStr(filename)
  }

  /** The ids of the records whose filename metadata is the given name. */
  function MatchingIds(m: Collection, filename: string): set<string> {
    set id | id in m && FromFile(m[id], filename)
  }

  /** The collection's delete by ids. */
  function RemoveIds(m: Collection, ids: set<string>): Collection {
    map id | id in m && id !in ids :: m[id]
  }

  /** Deleting the matching ids leaves exactly the records of the other files, and the collection
      shrinks by the number deleted. */
  lemma DeleteMatching(m: Collection, filename: string)
    ensures var r := RemoveIds(m, MatchingIds(m, filename));
      && (forall id :: id in r <==> id in m && !FromFile(m[id], filename))
      && (forall id | id in r :: r[id] == m[id])
      && |r| + |MatchingIds(m, filename)| == |m|
  {
    var ids := MatchingIds(m, filename);
    var r := RemoveIds(m, ids);
    assert r.Keys == m.Keys - ids;
    assert ids <= m.Keys;
    assert m.Keys == r.Keys + ids && r.Keys !! ids;
  }

  datatype Stats = Stats(collectionName: string, totalChunks: nat, persistDirectory: string)

  class Store {
    var records: Collection
    const collectionName: string
    const persistDirectory: string

    /** Opens the configured collection with whatever it already holds. */
    constructor (existing: Collection)
      ensures records == existing
      ensures collectionName == Config.ChromaCollectionName && persistDirectory == Config.ChromaPersistDirectory
    {
      records := existing;
      collectionName := Config.ChromaCollectionName;
      persistDirectory := Config.ChromaPersistDirectory;
    }

    /** add_documents: nothing for no chunks, otherwise one batch add; the count is the number of
        chunks given. `addError` is the text of the exception the embedding call or the collection's
        add raises, if either does; it is never consulted for no chunks, and a failed add stores
        nothing. */
    method AddDocuments(chunks: seq<DocumentChunk>, addError: Option<string>) returns (r: Result<nat>)
      modifies this
      ensures chunks == [] ==> r == Success(0) && records == old(records)
      ensures chunks != [] && addError.Some? ==> r == Failure(BackendError(addError.value)) && records == old(records)
      ensures chunks != [] && addError.None? ==> r == Success(|chunks|) && records == AddChunks(old(records), chunks)
    {
      if chunks == [] {
        return Success(0);
      }
      var ids, documents, metadatas := PrepareBatch(chunks);
      if addError.Some? {
        return Failure(BackendError(addError.value));
      }
      InsertAllOfBatch(records, chunks, ids, documents, metadatas);
      records := InsertAll(records, ids, documents, metadatas);
      return Success(|chunks|);
    }

    /** search: top_k defaults only when absent; the engine's failure propagates. */
    method Search(query: string, topK: Option<int>, filter: Option<Metadata>, engine: Engine)
      returns (r: Result<seq<SearchHit>>)
      ensures var k := if topK.Some? then topK.value else Config.TopKResults;
        r == match engine(records, query, k, filter)
             case Failure(e) => Failure(e)
             case Success(answer) => Hits(answer)
    {
      var k := if topK.Some? then topK.value else Config.TopKResults;
      var results := engine(records, query, k, filter);
      if results.Failure? {
        return Failure(results.error);
      }
      r := FormatResults(results.value);
    }

    /** delete_by_filename: the number of records of that file, which are all removed. */
    method DeleteByFilename(filename: string) returns (deleted: nat)
      modifies this
      ensures deleted == |MatchingIds(old(records), filename)|
      ensures records == RemoveIds(old(records), MatchingIds(old(records), filename))
    {
      var ids := MatchingIds(records, filename);
      if ids != {} {
        records := RemoveIds(records, ids);
        return |ids|;
      }
      assert RemoveIds(records, ids) == records;
      return 0;
    }

    /** get_collection_stats: total_chunks is the collection's count. `countError` is the text of
        the collection's count failing, if it does; that error propagates. */
    method GetCollectionStats(countError: Option<string>) returns (r: Result<Stats>)
      ensures countError.Some? <==> r.Failure?
      ensures countError.Some? ==> r.error == BackendError(countError.value)
      ensures r.Success? ==> r.value.totalChunks == |records|
      ensures r.Success? ==> r.value.collectionName == collectionName && r.value.persistDirectory == persistDirectory
    {
      if countError.Some? {
        return Failure(BackendError(countError.value));
      }
      r := Success(Stats(collectionName, |records|, persistDirectory));
    }

    /** reset_collection: the collection is dropped and created empty. */
    method ResetCollection()
      modifies this
      ensures records == map[]
    {
      records := map[];
    }
  }
}
