/** The Chroma-backed store of book passages: `add_documents` turns the processed chunks into the
    three parallel lists Chroma stores (texts, ids "chunk_<n>", metadatas), and `_format_results`
    turns a query reply back into one dict per hit, with `similarity = 1 - distance`.

    The collection is a class whose records the store appends to. The sentence embedder and the
    nearest-neighbour query are parameters: the embedder takes the texts and gives their vectors
    (or raises), and the query takes the question and the number of results and gives Chroma's
    reply (or raises). */
module VectorStore {
  import opened Wrappers
  import opened Json
  import Decimal

  /** A chunk as Chroma keeps it: its id, its text and its metadata. */
  datatype Record = Record(id: string, document: Value, metadata: Value)

  /** The three lists `add_documents` hands to `collection.add`. */
  datatype Batch = Batch(ids: seq<string>, documents: seq<Value>, metadatas: seq<Value>)

  predicate Parallel(b: Batch) {
    |b.ids| == |b.documents| == |b.metadatas|
  }

  /** The records a batch adds, one per index of its lists. */
  function Records(b: Batch): seq<Record>
    requires Parallel(b)
  {
    seq(|b.ids|, i requires 0 <= i < |b.ids| => Record(b.ids[i], b.documents[i], b.metadatas[i]))
  }

  /** A Chroma collection: the records added to it, in the order they were added. */
  class Collection {
    var records: seq<Record>

    /** A collection that `get_or_create_collection` has just created. */
    constructor ()
      ensures records == []
    {
      records := [];
    }

    /** `collection.count()`. */
    function Count(): nat
      reads this
    {
      |records|
    }

    /** `collection.add(...)`: the batch's records go after the ones already stored. */
    method Add(b: Batch)
      requires Parallel(b)
      modifies this
      ensures records == old(records) + Records(b)
      ensures Count() == old(Count()) + |b.ids|
    {
      records := records + Records(b);
    }
  }

  /** `self.embedder.encode(texts)`. */
  type Embedder = seq<Value> -> Result<seq<seq<real>>>

  /** `collection.query(query_embeddings=..., n_results=..., include=[...])`, the query text
      already embedded. */
  type Query = (string, int) -> Result<QueryResult>

  /** The part of a Chroma query reply the store reads: one row per query embedding. */
  datatype QueryResult = QueryResult(documents: seq<seq<Value>>, metadatas: seq<seq<Value>>, distances: seq<seq<real>>)

  /** `chunk['text']`. */
  function TextOf(chunk: Value): Result<Value> {
    Subscript(chunk, "text")
  }

  /** `chunk['metadata']`. */
  function MetadataOf(chunk: Value): Result<Value> {
    Subscript(chunk, "metadata")
  }

  /** `f"chunk_{chunk['chunk_id']}"`. */
  function ChunkId(chunk: Value): Result<string> {
    var n :- Subscript(chunk, "chunk_id");
    Ok("chunk_" + ToStr(n))
  }

  /** What `add_documents(chunks)` computes before it calls `collection.add`: the texts (which it
      also embeds), the ids and the metadatas, each list raising on the first chunk that lacks its
      key. */
  function Shape(chunks: seq<Value>, embed: Embedder): Result<Batch> {
    var texts :- MapResult(chunks, TextOf);
    var _ :- embed(texts);
    var ids :- MapResult(chunks, ChunkId);
    var metadatas :- MapResult(chunks, MetadataOf);
    Ok(Batch(ids, texts, metadatas))
  }

  /** `VectorStore`: the collection it is connected to. */
  class Store {
    const collectionName: string
    const host: string
    const port: int
    const collection: Collection

    /** `VectorStore(collection_name, chroma_host, chroma_port)` on the collection that
        `get_or_create_collection` gives. */
    constructor (collectionName: string, host: string, port: int, collection: Collection)
      ensures this.collectionName == collectionName && this.host == host && this.port == port
      ensures this.collection == collection
    {
      this.collectionName := collectionName;
      this.host := host;
      this.port := port;
      this.collection := collection;
    }

    /** `add_documents(chunks)`: the chunks' records are appended, or, when shaping or embedding
        raises, nothing is stored. */
    method AddDocuments(chunks: seq<Value>, embed: Embedder) returns (r: Result<()>)
      modifies collection
      ensures r.Ok? <==> Shape(chunks, embed).Ok?
      ensures r.Err? ==> r.error == Shape(chunks, embed).error && collection.records == old(collection.records)
      ensures r.Ok? ==> Parallel(Shape(chunks, embed).value)
      ensures r.Ok? ==> collection.records == old(collection.records) + Records(Shape(chunks, embed).value)
    {
      var b := Shape(chunks, embed);
      if b.Err? {
        return Err(b.error);
      }
      ShapeParallel(chunks, embed);
      collection.Add(b.value);
      return Ok(());
    }

    /** `search(query, n_results)`: the query reply in the shape `_format_results` gives it. */
    method Search(query: string, nResults: int, chroma: Query) returns (r: Result<seq<Value>>)
      ensures r == SearchResults(chroma, query, nResults)
    {
      var reply := chroma(query, nResults);
      if reply.Err? {
        return Err(reply.error);
      }
      r := FormatResults(reply.value);
    }
  }

  /** What `search(query, n_results)` returns. */
  function SearchResults(chroma: Query, query: string, nResults: int): Result<seq<Value>> {
    var reply :- chroma(query, nResults);
    Reshaped(reply)
  }

  /** Every list the hit at index `i` reads has an element at `i`. */
  predicate Covers(r: QueryResult, i: nat) {
    r.documents != [] && r.metadatas != [] && r.distances != [] &&
    i < |r.documents[0]| && i < |r.metadatas[0]| && i < |r.distances[0]|
  }

  /** The dict `_format_results` builds for one hit. */
  function Hit(text: Value, metadata: Value, distance: real): Value {
    Dict([("text", text), ("metadata", metadata), ("similarity", Float(1.0 - distance))])
  }

  function HitAt(r: QueryResult, i: nat): Value
    requires Covers(r, i)
  {
    Hit(r.documents[0][i], r.metadatas[0][i], r.distances[0][i])
  }

  const IndexError: string := "list index out of range"

  /** What `_format_results(results)` returns: one hit per document of the first row, or
      IndexError when the reply has no row or a shorter metadata or distance row. */
  function Reshaped(r: QueryResult): Result<seq<Value>> {
    if r.documents == [] then Err(IndexError)
    else
      var n := |r.documents[0]|;
      if n > 0 && !Covers(r, n - 1) then Err(IndexError)
      else Ok(seq(n, i requires 0 <= i < n => HitAt(r, i)))
  }

  /** The loop of `_format_results`, which appends one dict per index. */
  method FormatResults(results: QueryResult) returns (r: Result<seq<Value>>)
    ensures r == Reshaped(results)
  {
    if results.documents == [] {
      return Err(IndexError);
    }
    var n := |results.documents[0]|;
    var formatted: seq<Value> := [];
    var i := 0;
    while i < n
      invariant 0 <= i <= n
      invariant i > 0 ==> Covers(results, i - 1)
      invariant |formatted| == i
      invariant forall k :: 0 <= k < i ==> Covers(results, k) && formatted[k] == HitAt(results, k)
    {
      if results.metadatas == [] || results.distances == [] ||
         i >= |results.metadatas[0]| || i >= |results.distances[0]| {
        return Err(IndexError);
      }
      formatted := formatted + [HitAt(results, i)];
      i := i + 1;
    }
    assert formatted == seq(n, k requires 0 <= k < n => HitAt(results, k));
    return Ok(formatted);
  }

  /** The reply gives hits exactly when it has a row and its metadata and distance rows are at
      least as long as its document row; then there is one hit per document. */
  lemma ReshapedLength(r: QueryResult)
    ensures Reshaped(r).Ok? <==>
      r.documents != [] && (r.documents[0] == [] || Covers(r, |r.documents[0]| - 1))
    ensures Reshaped(r).Ok? ==> |Reshaped(r).value| == |r.documents[0]|
  {
  }

  /** Hit `i` pairs the document, the metadata and the distance at index `i`. */
  lemma ReshapedEntry(r: QueryResult, i: nat)
    requires Reshaped(r).Ok? && i < |Reshaped(r).value|
    ensures Covers(r, i)
    ensures var hit := Reshaped(r).value[i];
      hit.Dict? &&
      Lookup(hit.entries, "text") == Some(r.documents[0][i]) &&
      Lookup(hit.entries, "metadata") == Some(r.metadatas[0][i]) &&
      Lookup(hit.entries, "similarity") == Some(Float(1.0 - r.distances[0][i]))
  {
    HitFields(r.documents[0][i], r.metadatas[0][i], r.distances[0][i]);
  }

  /** A hit is a dict of exactly three entries, "text", "metadata" and "similarity" in that order,
      holding the document, its metadata and `1 - distance`. */
  lemma HitFields(text: Value, metadata: Value, distance: real)
    ensures var hit := Hit(text, metadata, distance);
      hit.Dict? && |hit.entries| == 3 &&
      hit.entries[0].0 == "text" && hit.entries[1].0 == "metadata" && hit.entries[2].0 == "similarity"
    ensures var hit := Hit(text, metadata, distance);
      forall key :: HasKey(hit.entries, key) <==> key == "text" || key == "metadata" || key == "similarity"
    ensures var hit := Hit(text, metadata, distance);
      Lookup(hit.entries, "text") == Some(text) &&
      Lookup(hit.entries, "metadata") == Some(metadata) &&
      Lookup(hit.entries, "similarity") == Some(Float(1.0 - distance))
  {
    var es := Hit(text, metadata, distance).entries;
    assert es[0].0 == "text" && es[1].0 != "text" && es[2].0 != "text";
    assert es[1].0 == "metadata" && es[0].0 != "metadata";
    assert es[2].0 == "similarity" && es[0].0 != "similarity" && es[1].0 != "similarity";
    assert Lookup(es, "similarity") == Lookup(es[1..], "similarity") == Lookup(es[1..][1..], "similarity");
  }

  /** Nearer hits are more similar: a distance no larger gives a similarity no smaller, a strictly
      smaller distance a strictly higher similarity, and distance 0 gives similarity 1. */
  lemma SimilarityOrder(r: QueryResult, i: nat, j: nat)
    requires Reshaped(r).Ok? && i < |Reshaped(r).value| && j < |Reshaped(r).value|
    requires r.distances[0][i] <= r.distances[0][j]
    ensures Reshaped(r).value[i].entries[2].1.f >= Reshaped(r).value[j].entries[2].1.f
    ensures r.distances[0][i] < r.distances[0][j] ==>
      Reshaped(r).value[i].entries[2].1.f > Reshaped(r).value[j].entries[2].1.f
    ensures r.distances[0][i] == 0.0 ==> Reshaped(r).value[i].entries[2].1 == Float(1.0)
  {
    ReshapedLength(r);
  }

  /** The texts, ids and metadatas line up with the chunks, index by index. */
  lemma ShapeParallel(chunks: seq<Value>, embed: Embedder)
    requires Shape(chunks, embed).Ok?
    ensures var b := Shape(chunks, embed).value;
      Parallel(b) && |b.ids| == |chunks| &&
      forall i :: 0 <= i < |chunks| ==>
        Subscript(chunks[i], "text") == Ok(b.documents[i]) &&
        ChunkId(chunks[i]) == Ok(b.ids[i]) &&
        Subscript(chunks[i], "metadata") == Ok(b.metadatas[i])
  {
  }

  /** Shaping succeeds exactly when every chunk is a dict holding "text", "chunk_id" and
      "metadata" and the embedder accepts the texts. */
  lemma ShapeOkIff(chunks: seq<Value>, embed: Embedder)
    ensures Shape(chunks, embed).Ok? <==>
      (forall i :: 0 <= i < |chunks| ==>
         chunks[i].Dict? && HasKey(chunks[i].entries, "text") &&
         HasKey(chunks[i].entries, "chunk_id") && HasKey(chunks[i].entries, "metadata")) &&
      embed(MapResult(chunks, TextOf).value).Ok?
  {
    var texts, ids, metas := MapResult(chunks, TextOf), MapResult(chunks, ChunkId), MapResult(chunks, MetadataOf);
    forall i | 0 <= i < |chunks| {
      ChunkKeysOk(chunks[i]);
    }
    assert Shape(chunks, embed).Ok? <==> texts.Ok? && embed(texts.value).Ok? && ids.Ok? && metas.Ok?;
  }

  /** Each of the three lookups on a chunk succeeds exactly when the chunk is a dict with that key. */
  lemma ChunkKeysOk(c: Value)
    ensures TextOf(c).Ok? <==> c.Dict? && HasKey(c.entries, "text")
    ensures ChunkId(c).Ok? <==> c.Dict? && HasKey(c.entries, "chunk_id")
    ensures MetadataOf(c).Ok? <==> c.Dict? && HasKey(c.entries, "metadata")
  {
  }

  /** Chunks with distinct integer ids get distinct Chroma ids. */
  lemma ChunkIdInjective(c: Value, d: Value, a: int, b: int)
    requires Subscript(c, "chunk_id") == Ok(Int(a)) && Subscript(d, "chunk_id") == Ok(Int(b))
    requires a != b
    ensures ChunkId(c).Ok? && ChunkId(d).Ok? && ChunkId(c) != ChunkId(d)
  {
    Decimal.IntToStringInjective(a, b);
    PrefixCancel("chunk_", Decimal.IntToString(a), Decimal.IntToString(b));
  }

  lemma PrefixCancel(p: string, a: string, b: string)
    ensures p + a == p + b ==> a == b
  {
    if p + a == p + b {
      assert a == (p + a)[|p|..];
      assert b == (p + b)[|p|..];
    }
  }
}
