/**
 * The agent-side RAG loader: the same chunking and batching as the local
 * loader, but the documents come from a storage bucket, and the tool entry
 * point logs every failure instead of raising. The bucket listing is given
 * as a value: the blobs under the prefix, or the message of the exception
 * that accessing the bucket raised.
 */
module RagBucket {
  import opened Wrappers
  import opened Strings
  import opened RagLocal

  /** A blob under the prefix: its full name and its text, or None when the download fails. */
  datatype Blob = Blob(name: string, text: Option<string>)

  /** Listing the bucket: the blobs, or the message of the exception raised. */
  datatype BucketListing = Listed(blobs: seq<Blob>) | ListingFailed(message: string)

  /** The downloadable markdown blobs, in listing order, named by their full blob names. */
  function MarkdownBlobs(blobs: seq<Blob>): (r: seq<MdFile>)
    ensures |r| <= |blobs|
    decreases |blobs|
  {
    if blobs == [] then []
    else
      var last := blobs[|blobs| - 1];
      MarkdownBlobs(blobs[..|blobs| - 1])
      + (if EndsWith(last.name, ".md") && last.text.Some? then [MdFile(last.name, last.text.value)] else [])
  }

  /**
   * Exactly the downloadable blobs whose names end in ".md" are read, each
   * under its full name; when the blob names are distinct, so are the
   * documents' names.
   */
  lemma {:induction false} MarkdownBlobsSpec(blobs: seq<Blob>)
    ensures forall b :: b in blobs && EndsWith(b.name, ".md") && b.text.Some? ==>
      MdFile(b.name, b.text.value) in MarkdownBlobs(blobs)
    ensures forall m :: m in MarkdownBlobs(blobs) ==>
      EndsWith(m.modelName, ".md") && Blob(m.modelName, Some(m.content)) in blobs
    ensures (forall i, j :: 0 <= i < j < |blobs| ==> blobs[i].name != blobs[j].name) ==>
      forall i, j :: 0 <= i < j < |MarkdownBlobs(blobs)| ==>
        MarkdownBlobs(blobs)[i].modelName != MarkdownBlobs(blobs)[j].modelName
    decreases |blobs|
  {
    if blobs != [] {
      var init := blobs[..|blobs| - 1];
      var last := blobs[|blobs| - 1];
      MarkdownBlobsSpec(init);
      assert blobs == init + [last];
      var r := MarkdownBlobs(blobs);
      var a := MarkdownBlobs(init);
      if forall i, j :: 0 <= i < j < |blobs| ==> blobs[i].name != blobs[j].name {
        forall i, j | 0 <= i < j < |r| ensures r[i].modelName != r[j].modelName {
          if j >= |a| {
            assert r[j].modelName == last.name;
            assert r[i] == a[i] && r[i] in a;
            var k :| 0 <= k < |init| && init[k] == Blob(r[i].modelName, Some(r[i].content));
            assert blobs[k].name != blobs[|blobs| - 1].name;
          } else {
            assert r[i] == a[i] && r[j] == a[j];
            assert forall x, y :: 0 <= x < y < |init| ==> init[x].name != init[y].name by {
              forall x, y | 0 <= x < y < |init| ensures init[x].name != init[y].name {
                assert init[x] == blobs[x] && init[y] == blobs[y];
              }
            }
          }
        }
      }
    }
  }

  datatype BucketIngest = Downloaded(files: seq<MdFile>) | AccessFailed(message: string)

  /** `ingest_md_data`: a failed bucket access is passed on; otherwise the loop over the blobs. */
  method IngestMdData(listing: BucketListing) returns (r: BucketIngest)
    ensures listing.ListingFailed? ==> r == AccessFailed(listing.message)
    ensures listing.Listed? ==> r == Downloaded(MarkdownBlobs(listing.blobs))
  {
    if listing.ListingFailed? {
      return AccessFailed(listing.message);
    }
    var blobs := listing.blobs;
    var mdFiles: seq<MdFile> := [];
    for i := 0 to |blobs|
      invariant mdFiles == MarkdownBlobs(blobs[..i])
    {
      assert blobs[..i + 1][..i] == blobs[..i];
      if EndsWith(blobs[i].name, ".md") && blobs[i].text.Some? {
        mdFiles := mdFiles + [MdFile(blobs[i].name, blobs[i].text.value)];
      }
    }
    assert blobs[..|blobs|] == blobs;
    r := Downloaded(mdFiles);
  }

  /** What the `search_model_doc` tool does. */
  datatype ToolOutcome =
    | Initialised(collectionName: string, chunked: Chunked)
    | Queried(query: string, collectionName: string)
    | Logged(message: string)

  /**
   * `search_model_doc`: initialisation needs a bucket name and a prefix; an
   * initialisation error is logged and the tool returns; otherwise a query
   * runs, or an error is logged. No branch raises.
   */
  function SearchModelDoc(initDb: bool, bucketName: string, prefix: string, collectionName: string,
                          query: Option<string>, listing: BucketListing, split: Splitter): (r: ToolOutcome)
    ensures r.Initialised? <==> initDb && bucketName != "" && prefix != "" && listing.Listed?
    ensures r.Initialised? ==> r == Initialised(collectionName, ChunkAll(MarkdownBlobs(listing.blobs), split))
    ensures r.Queried? <==> !initDb && query.Some? && query.value != ""
    ensures r.Queried? ==> r == Queried(query.value, collectionName)
    ensures initDb && (bucketName == "" || prefix == "") ==>
      r == Logged("bucket_name and prefix are required for database initialisation")
    ensures initDb && bucketName != "" && prefix != "" && listing.ListingFailed? ==>
      r == Logged("Error accessing GCP bucket: " + listing.message)
  {
    if initDb then
      if bucketName == "" || prefix == "" then
        Logged("bucket_name and prefix are required for database initialisation")
      else if listing.ListingFailed? then
        Logged("Error accessing GCP bucket: " + listing.message)
      else
        Initialised(collectionName, ChunkAll(MarkdownBlobs(listing.blobs), split))
    else if query.Some? && query.value != "" then Queried(query.value, collectionName)
    else Logged("Please specify either --init_db or --query")
  }

  /**
   * Chunk ids of an initialised collection are distinct whenever blob names
   * are, since each document is named by its full blob name.
   */
  lemma InitialisedIdsDistinct(blobs: seq<Blob>, split: Splitter)
    requires forall i, j :: 0 <= i < j < |blobs| ==> blobs[i].name != blobs[j].name
    ensures var ids := ChunkAll(MarkdownBlobs(blobs), split).chunkIds;
      forall p, q :: 0 <= p < q < |ids| ==> ids[p] != ids[q]
  {
    MarkdownBlobsSpec(blobs);
    ChunkAllSpec(MarkdownBlobs(blobs), split);
  }
}
