/**
 * The RAG loader over a local directory of model documentation: reading the
 * markdown files, cutting them into chunks with ids, writing the chunks to
 * the vector collection in batches of 100, and the command-line dispatch.
 * The sentence splitter, the file system and the collection's embedding
 * and querying are outside the model: the splitter is a function given as
 * input, the directory is a value, and the collection keeps only what is
 * added to it.
 */
module RagLocal {
  import opened Wrappers
  import opened Strings
  import opened Collections

  /** A markdown document: `{"model_name": …, "content": …}`. */
  datatype MdFile = MdFile(modelName: string, content: string)

  /**
   * `chunked_files`: three parallel lists; a metadata entry
   * `{"model_name": name}` is represented by the name.
   */
  datatype Chunked = Chunked(chunkIds: seq<string>, chunks: seq<string>, metadata: seq<string>)

  /** `SentenceSplitter(chunk_size, chunk_overlap).split_text`, for fixed sizes. */
  type Splitter = string -> seq<string>

  /** The id of the `i`-th chunk (from 0) of a document. */
  function ChunkId(modelName: string, i: nat): string
  {
    modelName + "_" + NatToString(i)
  }

  /** A chunk id names its document and its position: no two (name, position) pairs share one. */
  lemma ChunkIdInjective(m1: string, i1: nat, m2: string, i2: nat)
    requires ChunkId(m1, i1) == ChunkId(m2, i2)
    ensures m1 == m2 && i1 == i2
  {
    var d1, d2 := NatToString(i1), NatToString(i2);
    assert '_' !in d1 && '_' !in d2;
    AfterLastSuffix(m1, '_', d1);
    AfterLastSuffix(m2, '_', d2);
    NatToStringInjective(i1, i2);
    var id := ChunkId(m1, i1);
    assert m1 == id[..|m1|] && m2 == id[..|m2|];
  }

  // ------------------------------------------------------------- ingest

  /** A file the recursive `.md` glob finds: its path and its text, or None when reading fails. */
  datatype FoundFile = FoundFile(path: string, text: Option<string>)

  /** What the input path is. */
  datatype InputPath = Missing | NotDirectory | Directory(files: seq<FoundFile>)

  datatype IngestResult =
    | Ingested(files: seq<MdFile>)
    | FileNotFound(message: string)
    | NotADirectory(message: string)

  /** The model name of a file: its last path segment, cut at the first ".". */
  function ModelNameOf(path: string): (r: string)
    ensures '.' !in r && '/' !in r
    ensures EndsWith(path, AfterLast(path, '/')) && StartsWith(AfterLast(path, '/'), r)
  {
    BeforeFirst(AfterLast(path, '/'), '.')
  }

  /**
   * The model name drops the directories and everything from the first
   * ".", so two different files can share one: `x/a.md` and `a.1.md` are
   * both "a", and their first chunks get the same id.
   */
  lemma SameNameDifferentFiles()
    ensures ModelNameOf("x/a.md") == ModelNameOf("a.1.md") == "a"
    ensures ChunkId(ModelNameOf("x/a.md"), 0) == ChunkId(ModelNameOf("a.1.md"), 0)
  {
    var p1, p2 := "x/a.md", "a.1.md";
    AfterLastAt(p1, '/', 1);
    assert p1[2..] == "a.md";
    assert BeforeFirst("a.md", '.') == "a" by { assert "a.md"[1..][0] == '.'; }
    AfterLastNone(p2, '/');
    assert BeforeFirst(p2, '.') == "a" by { assert p2[1..][0] == '.'; }
  }

  /** The document a found file yields: its text under its derived model name, if it could be read. */
  function Readable(f: FoundFile): Option<MdFile>
  {
    if f.text.Some? then Some(MdFile(ModelNameOf(f.path), f.text.value)) else None
  }

  /** The readable files, in glob order, each under its derived model name. */
  function ReadableFiles(found: seq<FoundFile>): seq<MdFile>
  {
    FilterMap(found, Readable)
  }

  /**
   * A file is ingested exactly when it can be read: every readable file is
   * there under its derived name, and every ingested document comes from a
   * readable file.
   */
  lemma ReadableFilesSpec(found: seq<FoundFile>)
    ensures |ReadableFiles(found)| <= |found|
    ensures forall f :: f in found && f.text.Some? ==> MdFile(ModelNameOf(f.path), f.text.value) in ReadableFiles(found)
    ensures forall m :: m in ReadableFiles(found) ==>
      exists f :: f in found && f.text == Some(m.content) && m.modelName == ModelNameOf(f.path)
  {
    FilterMapSound(found, Readable);
    forall m | m in ReadableFiles(found)
      ensures exists f :: f in found && f.text == Some(m.content) && m.modelName == ModelNameOf(f.path)
    {
      var f :| f in found && Readable(f) == Some(m);
    }
  }

  /** `ingest_md_data`: the path checks, then the loop over the glob's files. */
  method IngestMdData(inputDataPath: string, input: InputPath) returns (r: IngestResult)
    ensures input.Missing? ==> r == FileNotFound("Input path " + inputDataPath + " does not exist")
    ensures input.NotDirectory? ==> r == NotADirectory("Input path " + inputDataPath + " is not a directory")
    ensures input.Directory? ==> r == Ingested(ReadableFiles(input.files))
  {
    if input.Missing? {
      return FileNotFound("Input path " + inputDataPath + " does not exist");
    }
    if input.NotDirectory? {
      return NotADirectory("Input path " + inputDataPath + " is not a directory");
    }
    var found := input.files;
    var mdFiles: seq<MdFile> := [];
    for i := 0 to |found|
      invariant mdFiles == ReadableFiles(found[..i])
    {
      assert found[..i + 1] == found[..i] + [found[i]];
      FilterMapSnoc(found[..i], found[i], Readable);
      if found[i].text.Some? {
        mdFiles := mdFiles + [MdFile(ModelNameOf(found[i].path), found[i].text.value)];
      }
    }
    assert found[..|found|] == found;
    r := Ingested(mdFiles);
  }

  // -------------------------------------------------------------- chunks

  /** The chunk lists one document contributes. */
  function FileChunks(f: MdFile, split: Splitter): Chunked
  {
    var cs := split(f.content);
    Chunked(seq(|cs|, i requires 0 <= i < |cs| => ChunkId(f.modelName, i)), cs,
      seq(|cs|, i requires 0 <= i < |cs| => f.modelName))
  }

  function Append(a: Chunked, b: Chunked): Chunked
  {
    Chunked(a.chunkIds + b.chunkIds, a.chunks + b.chunks, a.metadata + b.metadata)
  }

  /** The chunk lists of all documents, document by document. */
  function ChunkAll(files: seq<MdFile>, split: Splitter): (r: Chunked)
    ensures |r.chunkIds| == |r.chunks| == |r.metadata|
    decreases |files|
  {
    if files == [] then Chunked([], [], [])
    else Append(ChunkAll(files[..|files| - 1], split), FileChunks(files[|files| - 1], split))
  }

  /** The total number of chunks the splitter makes of the documents. */
  function ChunkCount(files: seq<MdFile>, split: Splitter): nat
    decreases |files|
  {
    if files == [] then 0 else ChunkCount(files[..|files| - 1], split) + |split(files[|files| - 1].content)|
  }

  /** `chunk_md_data`: the nested loop appending to the three lists. */
  method ChunkMdData(mdFiles: seq<MdFile>, split: Splitter) returns (chunked: Chunked)
    ensures chunked == ChunkAll(mdFiles, split)
  {
    chunked := Chunked([], [], []);
    for k := 0 to |mdFiles|
      invariant chunked == ChunkAll(mdFiles[..k], split)
    {
      assert mdFiles[..k + 1][..k] == mdFiles[..k];
      var before := chunked;
      var modelName := mdFiles[k].modelName;
      var chunks := split(mdFiles[k].content);
      for i := 0 to |chunks|
        invariant chunked.chunkIds == before.chunkIds + seq(i, j requires 0 <= j < i => ChunkId(modelName, j))
        invariant chunked.chunks == before.chunks + chunks[..i]
        invariant chunked.metadata == before.metadata + seq(i, j requires 0 <= j < i => modelName)
      {
        chunked := Chunked(chunked.chunkIds + [ChunkId(modelName, i)], chunked.chunks + [chunks[i]],
          chunked.metadata + [modelName]);
      }
      assert chunks[..|chunks|] == chunks;
      assert chunked == Append(before, FileChunks(mdFiles[k], split));
    }
    assert mdFiles[..|mdFiles|] == mdFiles;
  }

  /** Some document's chunk id: the name of one of `files` and a position in its chunks. */
  ghost predicate IdFrom(files: seq<MdFile>, split: Splitter, id: string)
  {
    exists k, i :: 0 <= k < |files| && 0 <= i < |split(files[k].content)| && id == ChunkId(files[k].modelName, i)
  }

  /**
   * The three lists stay parallel and hold one entry per chunk; each chunk
   * id is its document's name and its position; and when the documents'
   * names are distinct, so are all chunk ids.
   */
  lemma {:induction false} ChunkAllSpec(files: seq<MdFile>, split: Splitter)
    ensures var r := ChunkAll(files, split);
      && |r.chunkIds| == ChunkCount(files, split)
      && (forall id :: id in r.chunkIds ==> IdFrom(files, split, id))
      && ((forall a, b :: 0 <= a < b < |files| ==> files[a].modelName != files[b].modelName) ==>
            forall p, q :: 0 <= p < q < |r.chunkIds| ==> r.chunkIds[p] != r.chunkIds[q])
    decreases |files|
  {
    if files != [] {
      var init := files[..|files| - 1];
      var last := files[|files| - 1];
      ChunkAllSpec(init, split);
      var a := ChunkAll(init, split);
      var b := FileChunks(last, split);
      var r := ChunkAll(files, split);
      assert r.chunkIds == a.chunkIds + b.chunkIds;
      forall id | id in r.chunkIds ensures IdFrom(files, split, id) {
        if id in a.chunkIds {
          var k, i :| 0 <= k < |init| && 0 <= i < |split(init[k].content)| && id == ChunkId(init[k].modelName, i);
          assert files[k] == init[k];
        } else {
          var i :| 0 <= i < |b.chunkIds| && b.chunkIds[i] == id;
          assert files[|files| - 1] == last;
        }
      }
      if forall x, y :: 0 <= x < y < |files| ==> files[x].modelName != files[y].modelName {
        forall p, q | 0 <= p < q < |r.chunkIds| ensures r.chunkIds[p] != r.chunkIds[q] {
          if q >= |a.chunkIds| {
            var j := q - |a.chunkIds|;
            assert r.chunkIds[q] == ChunkId(last.modelName, j);
            if p >= |a.chunkIds| {
              var i := p - |a.chunkIds|;
              assert r.chunkIds[p] == ChunkId(last.modelName, i);
              if r.chunkIds[p] == r.chunkIds[q] {
                ChunkIdInjective(last.modelName, i, last.modelName, j);
              }
            } else {
              assert r.chunkIds[p] in a.chunkIds;
              var k, i :| 0 <= k < |init| && 0 <= i < |split(init[k].content)| && r.chunkIds[p] == ChunkId(init[k].modelName, i);
              assert init[k].modelName == files[k].modelName != last.modelName;
              if r.chunkIds[p] == r.chunkIds[q] {
                ChunkIdInjective(init[k].modelName, i, last.modelName, j);
              }
            }
          } else {
            assert r.chunkIds[p] == a.chunkIds[p] && r.chunkIds[q] == a.chunkIds[q];
          }
        }
      }
    }
  }

  // ------------------------------------------------------------- batches

  /** Python's `s[i:j]` for `0 <= i`: both ends clipped to the length. */
  function Slice<T>(s: seq<T>, i: nat, j: nat): seq<T>
  {
    var hi := if j < |s| then j else |s|;
    var lo := if i < hi then i else hi;
    s[lo..hi]
  }

  /** The vector collection, reduced to the three lists it was given. */
  class Collection {
    var ids: seq<string>
    var documents: seq<string>
    var metadatas: seq<string>

    /** A collection as `create_db_collection` leaves it: new and empty. */
    constructor ()
      ensures ids == [] && documents == [] && metadatas == []
    {
      ids, documents, metadatas := [], [], [];
    }

    /** `collection.add`: the batch is appended. */
    method Add(newIds: seq<string>, newDocuments: seq<string>, newMetadatas: seq<string>)
      modifies this
      ensures ids == old(ids) + newIds
      ensures documents == old(documents) + newDocuments
      ensures metadatas == old(metadatas) + newMetadatas
    {
      ids := ids + newIds;
      documents := documents + newDocuments;
      metadatas := metadatas + newMetadatas;
    }
  }

  const BatchSize := 100

  /** The batch bounds `[i, min(i + 100, total))` for i = from, from + 100, … below total. */
  function BatchesFrom(from: nat, total: nat): seq<(nat, nat)>
    decreases total - from
  {
    if from >= total then []
    else [(from, if from + BatchSize < total then from + BatchSize else total)] + BatchesFrom(from + BatchSize, total)
  }

  function Batches(total: nat): seq<(nat, nat)>
  {
    BatchesFrom(0, total)
  }

  /**
   * The batches partition `[from, total)` in order: each is non-empty and
   * at most 100 long, the first starts at `from`, each starts where the
   * previous ended, and the last ends at `total`.
   */
  lemma {:induction false} BatchesPartition(from: nat, total: nat)
    ensures var bs := BatchesFrom(from, total);
      && (from < total <==> bs != [])
      && (forall k :: 0 <= k < |bs| ==> bs[k].0 < bs[k].1 <= bs[k].0 + BatchSize && bs[k].1 <= total)
      && (bs != [] ==> bs[0].0 == from && bs[|bs| - 1].1 == total)
      && (forall k :: 0 < k < |bs| ==> bs[k].0 == bs[k - 1].1)
    decreases total - from
  {
    if from < total {
      BatchesPartition(from + BatchSize, total);
      var bs := BatchesFrom(from, total);
      assert bs[1..] == BatchesFrom(from + BatchSize, total);
    }
  }

  /** Appending consecutive slices gives the slice over their union. */
  lemma SliceJoin<T>(s: seq<T>, i: nat, j: nat, k: nat)
    requires i <= j <= k
    ensures Slice(s, 0, j) + Slice(s, j, k) == Slice(s, 0, k)
  {
  }

  /**
   * `populate_db_collection`: the loop over the batches; the collection
   * receives the chunk lists, cut to the number of ids, in order.
   */
  method PopulateDbCollection(collection: Collection, chunked: Chunked) returns (batches: seq<(nat, nat)>)
    modifies collection
    ensures batches == Batches(|chunked.chunkIds|)
    ensures collection.ids == old(collection.ids) + chunked.chunkIds
    ensures collection.documents == old(collection.documents) + Slice(chunked.chunks, 0, |chunked.chunkIds|)
    ensures collection.metadatas == old(collection.metadatas) + Slice(chunked.metadata, 0, |chunked.chunkIds|)
  {
    var total := |chunked.chunkIds|;
    ghost var ids0, documents0, metadatas0 := collection.ids, collection.documents, collection.metadatas;
    var i, done := 0, 0;
    batches := [];
    while i < total
      invariant done == (if i < total then i else total)
      invariant batches + BatchesFrom(i, total) == Batches(total)
      invariant Filled(collection, chunked, done, ids0, documents0, metadatas0)
      decreases total - i
    {
      batches, done := NextBatch(collection, chunked, i, batches, ids0, documents0, metadatas0);
      i := i + BatchSize;
    }
    assert BatchesFrom(i, total) == [];
    assert batches + [] == batches;
    assert done == total && Slice(chunked.chunkIds, 0, total) == chunked.chunkIds;
    assert Filled(collection, chunked, total, ids0, documents0, metadatas0);
  }

  /** One turn of the batch loop: the batch starting at `i` is added and recorded. */
  method NextBatch(collection: Collection, chunked: Chunked, i: nat, batches: seq<(nat, nat)>,
                   ghost ids0: seq<string>, ghost documents0: seq<string>, ghost metadatas0: seq<string>)
    returns (batches': seq<(nat, nat)>, batchEnd: nat)
    requires i < |chunked.chunkIds| && batches + BatchesFrom(i, |chunked.chunkIds|) == Batches(|chunked.chunkIds|)
    requires Filled(collection, chunked, i, ids0, documents0, metadatas0)
    modifies collection
    ensures batchEnd == if i + BatchSize < |chunked.chunkIds| then i + BatchSize else |chunked.chunkIds|
    ensures batches' + BatchesFrom(i + BatchSize, |chunked.chunkIds|) == Batches(|chunked.chunkIds|)
    ensures Filled(collection, chunked, batchEnd, ids0, documents0, metadatas0)
  {
    var total := |chunked.chunkIds|;
    batchEnd := if i + BatchSize < total then i + BatchSize else total;
    BatchStep(batches, i, total);
    AddBatch(collection, chunked, i, batchEnd, ids0, documents0, metadatas0);
    batches' := batches + [(i, batchEnd)];
  }

  /** One turn of the batch loop: the batch starting at `i` moves from the remaining batches to the done ones. */
  lemma BatchStep(batches: seq<(nat, nat)>, i: nat, total: nat)
    requires i < total && batches + BatchesFrom(i, total) == Batches(total)
    ensures (batches + [(i, if i + BatchSize < total then i + BatchSize else total)]) + BatchesFrom(i + BatchSize, total)
      == Batches(total)
  {
    var batchEnd := if i + BatchSize < total then i + BatchSize else total;
    assert BatchesFrom(i, total) == [(i, batchEnd)] + BatchesFrom(i + BatchSize, total);
    assert (batches + [(i, batchEnd)]) + BatchesFrom(i + BatchSize, total) == batches + BatchesFrom(i, total);
  }

  /** The collection holds its first contents followed by the first `n` entries of each list. */
  predicate Filled(collection: Collection, chunked: Chunked, n: nat,
                   ids0: seq<string>, documents0: seq<string>, metadatas0: seq<string>)
    reads collection
  {
    && collection.ids == ids0 + Slice(chunked.chunkIds, 0, n)
    && collection.documents == documents0 + Slice(chunked.chunks, 0, n)
    && collection.metadatas == metadatas0 + Slice(chunked.metadata, 0, n)
  }

  /** One `collection.add` call of the batch loop: entries `[i, batchEnd)` of each list. */
  method AddBatch(collection: Collection, chunked: Chunked, i: nat, batchEnd: nat,
                  ghost ids0: seq<string>, ghost documents0: seq<string>, ghost metadatas0: seq<string>)
    requires i <= batchEnd && Filled(collection, chunked, i, ids0, documents0, metadatas0)
    modifies collection
    ensures Filled(collection, chunked, batchEnd, ids0, documents0, metadatas0)
  {
    var newIds, newDocuments, newMetadatas :=
      Slice(chunked.chunkIds, i, batchEnd), Slice(chunked.chunks, i, batchEnd), Slice(chunked.metadata, i, batchEnd);
    ExtendFilled(ids0, chunked.chunkIds, i, batchEnd, collection.ids);
    ExtendFilled(documents0, chunked.chunks, i, batchEnd, collection.documents);
    ExtendFilled(metadatas0, chunked.metadata, i, batchEnd, collection.metadatas);
    collection.Add(newIds, newDocuments, newMetadatas);
  }

  /** A list holding its first contents and `s` up to `i` holds `s` up to `j` once `s[i..j]` is appended. */
  lemma ExtendFilled<T>(start: seq<T>, s: seq<T>, i: nat, j: nat, current: seq<T>)
    requires i <= j && current == start + Slice(s, 0, i)
    ensures current + Slice(s, i, j) == start + Slice(s, 0, j)
  {
    SliceJoin(s, 0, i, j);
    assert (start + Slice(s, 0, i)) + Slice(s, i, j) == start + (Slice(s, 0, i) + Slice(s, i, j));
  }

  /**
   * `init_database`: ingest, chunk, a new collection, populate. On a path
   * error nothing is created and the error is passed on.
   */
  method InitDatabase(inputDataPath: string, input: InputPath, split: Splitter)
    returns (r: IngestResult, collection: Collection?)
    ensures r.Ingested? <==> input.Directory?
    ensures collection == null <==> !r.Ingested?
    ensures collection != null ==> (fresh(collection)
      && collection.ids == ChunkAll(r.files, split).chunkIds
      && collection.documents == ChunkAll(r.files, split).chunks
      && collection.metadatas == ChunkAll(r.files, split).metadata)
  {
    r := IngestMdData(inputDataPath, input);
    if !r.Ingested? {
      return r, null;
    }
    var chunked := ChunkMdData(r.files, split);
    collection := new Collection();
    var _ := PopulateDbCollection(collection, chunked);
    assert Slice(chunked.chunks, 0, |chunked.chunkIds|) == chunked.chunks;
    assert Slice(chunked.metadata, 0, |chunked.chunkIds|) == chunked.metadata;
  }

  // ------------------------------------------------------------ dispatch

  /** What `main` does. */
  datatype Action =
    | Initialise(inputDataPath: string, collectionName: string)
    | Query(query: string, collectionName: string)
    | LogError(message: string)

  /**
   * `main`: initialisation wins over a query; initialisation without an
   * input path, or neither option, only logs an error.
   */
  function MainAction(initDb: bool, inputDataPath: string, collectionName: string, query: Option<string>): (a: Action)
    ensures a.Initialise? <==> initDb && inputDataPath != ""
    ensures a.Query? <==> !initDb && query.Some? && query.value != ""
    ensures a.LogError? <==> (initDb && inputDataPath == "") || (!initDb && (query.None? || query.value == ""))
    ensures a.Initialise? ==> a == Initialise(inputDataPath, collectionName)
    ensures a.Query? ==> a == Query(query.value, collectionName)
  {
    if initDb then
      if inputDataPath == "" then LogError("input_data_path is required for database initialisation")
      else Initialise(inputDataPath, collectionName)
    else if query.Some? && query.value != "" then Query(query.value, collectionName)
    else LogError("Please specify either --init_db or --query")
  }
}
