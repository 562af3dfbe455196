/** `DocumentProcessor`: the book is read, cut into overlapping chunks by LangChain's
    `RecursiveCharacterTextSplitter`, and each chunk is numbered in order. Reading the file and
    the splitter are parameters. */
module DocumentProcessor {
  import opened Wrappers
  import opened Json
  import Decimal
  import VectorStore

  /** The splitter's settings: at most `chunkSize` characters per chunk, `chunkOverlap` shared
      between neighbours, split first at paragraph breaks, then line breaks, sentence ends and
      spaces. */
  datatype Processor = Processor(chunkSize: int, chunkOverlap: int, separators: seq<string>)

  /** `DocumentProcessor()` with its default settings. */
  function NewProcessor(): Processor
  {
    Processor(1000, 200, ["\n\n", "\n", ". ", " "])
  }

  /** `open(file_path, 'r', encoding='utf-8').read()`. */
  type FileReader = string -> Result<string>

  /** `self.text_splitter.split_text(text)`. */
  type Splitter = (Processor, string) -> seq<string>

  /** `_extract_metadata(chunk)`, whose body is `pass`. */
  function ExtractMetadata(chunk: string): Value {
    Null
  }

  /** The dict the loop appends for chunk number `i`. */
  function ChunkDict(text: string, i: int): Value {
    Dict([("text", Str(text)), ("chunk_id", Int(i)), ("metadata", ExtractMetadata(text))])
  }

  /** The chunks in splitter order, each numbered by its position. */
  function Numbered(chunks: seq<string>): seq<Value> {
    seq(|chunks|, i requires 0 <= i < |chunks| => ChunkDict(chunks[i], i))
  }

  /** What `load_and_process_document(file_path)` returns. */
  function Processed(p: Processor, read: FileReader, split: Splitter, path: string): Result<seq<Value>> {
    var text :- read(path);
    Ok(Numbered(split(p, text)))
  }

  /** `load_and_process_document(file_path)`, with its `enumerate` loop. */
  method LoadAndProcess(p: Processor, read: FileReader, split: Splitter, path: string) returns (r: Result<seq<Value>>)
    ensures r == Processed(p, read, split, path)
  {
    var text := read(path);
    if text.Err? {
      return Err(text.error);
    }
    var chunks := split(p, text.value);
    var processed: seq<Value> := [];
    var i := 0;
    while i < |chunks|
      invariant 0 <= i <= |chunks|
      invariant processed == Numbered(chunks[..i])
    {
      assert chunks[..i + 1][..i] == chunks[..i];
      processed := processed + [ChunkDict(chunks[i], i)];
      i := i + 1;
    }
    assert chunks[..i] == chunks;
    return Ok(processed);
  }

  /** The three keys of a chunk's dict hold its text, its number and `None`. */
  lemma ChunkFields(text: string, i: int)
    ensures Subscript(ChunkDict(text, i), "text") == Ok(Str(text))
    ensures Subscript(ChunkDict(text, i), "chunk_id") == Ok(Int(i))
    ensures Subscript(ChunkDict(text, i), "metadata") == Ok(Null)
  {
    var es := ChunkDict(text, i).entries;
    assert es[0].0 == "text";
    assert es[1].0 == "chunk_id" && es[0].0 != "chunk_id";
    assert es[2].0 == "metadata" && es[0].0 != "metadata" && es[1].0 != "metadata";
    assert Lookup(es, "chunk_id") == Lookup(es[1..], "chunk_id");
    assert Lookup(es, "metadata") == Lookup(es[1..], "metadata") == Lookup(es[1..][1..], "metadata");
  }

  /** One entry per splitter chunk, in splitter order: entry `i` holds chunk `i` unchanged, the
      number `i`, and no metadata. */
  lemma NumberedEntries(chunks: seq<string>)
    ensures |Numbered(chunks)| == |chunks|
    ensures forall i :: 0 <= i < |chunks| ==>
      Subscript(Numbered(chunks)[i], "text") == Ok(Str(chunks[i])) &&
      Subscript(Numbered(chunks)[i], "chunk_id") == Ok(Int(i)) &&
      Subscript(Numbered(chunks)[i], "metadata") == Ok(Null)
  {
    forall i | 0 <= i < |chunks|
      ensures Subscript(Numbered(chunks)[i], "text") == Ok(Str(chunks[i]))
      ensures Subscript(Numbered(chunks)[i], "chunk_id") == Ok(Int(i))
      ensures Subscript(Numbered(chunks)[i], "metadata") == Ok(Null)
    {
      ChunkFields(chunks[i], i);
    }
  }

  /** The numbers are 0, 1, ..., n-1, so the Chroma ids the store derives from them are distinct. */
  lemma IdsDistinct(chunks: seq<string>, i: nat, j: nat)
    requires i < j < |chunks|
    ensures VectorStore.ChunkId(Numbered(chunks)[i]).Ok?
    ensures VectorStore.ChunkId(Numbered(chunks)[i]) != VectorStore.ChunkId(Numbered(chunks)[j])
  {
    ChunkFields(chunks[i], i);
    ChunkFields(chunks[j], j);
    VectorStore.ChunkIdInjective(Numbered(chunks)[i], Numbered(chunks)[j], i, j);
  }

  lemma TextsOfNumbered(chunks: seq<string>)
    ensures MapResult(Numbered(chunks), VectorStore.TextOf) == Ok(Strs(chunks))
  {
    NumberedEntries(chunks);
    var r := MapResult(Numbered(chunks), VectorStore.TextOf);
    assert r.value == Strs(chunks);
  }

  lemma IdsOfNumbered(chunks: seq<string>)
    ensures var r := MapResult(Numbered(chunks), VectorStore.ChunkId);
      r.Ok? && |r.value| == |chunks| &&
      forall i :: 0 <= i < |chunks| ==> r.value[i] == "chunk_" + Decimal.IntToString(i)
  {
    var xs := Numbered(chunks);
    forall i | 0 <= i < |xs|
      ensures VectorStore.ChunkId(xs[i]) == Ok("chunk_" + Decimal.IntToString(i))
    {
      ChunkIdOfDict(chunks[i], i);
    }
  }

  lemma ChunkIdOfDict(text: string, i: int)
    ensures VectorStore.ChunkId(ChunkDict(text, i)) == Ok("chunk_" + Decimal.IntToString(i))
  {
    ChunkFields(text, i);
    assert ToStr(Int(i)) == Decimal.IntToString(i);
  }

  lemma MetadataOfNumbered(chunks: seq<string>)
    ensures var r := MapResult(Numbered(chunks), VectorStore.MetadataOf);
      r.Ok? && |r.value| == |chunks| && forall i :: 0 <= i < |chunks| ==> r.value[i] == Null
  {
    NumberedEntries(chunks);
  }

  /** The store accepts what the processor produces: shaping fails only when the embedder does,
      and the batch holds the chunk texts with ids "chunk_0", "chunk_1", ... in order. */
  lemma ShapeOfNumbered(chunks: seq<string>, embed: VectorStore.Embedder)
    ensures VectorStore.Shape(Numbered(chunks), embed).Ok? <==> embed(Strs(chunks)).Ok?
    ensures VectorStore.Shape(Numbered(chunks), embed).Ok? ==>
      var b := VectorStore.Shape(Numbered(chunks), embed).value;
      |b.ids| == |chunks| && b.documents == Strs(chunks) &&
      forall i :: 0 <= i < |chunks| ==> b.ids[i] == "chunk_" + Decimal.IntToString(i) && b.metadatas[i] == Null
  {
    TextsOfNumbered(chunks);
    IdsOfNumbered(chunks);
    MetadataOfNumbered(chunks);
  }
}
