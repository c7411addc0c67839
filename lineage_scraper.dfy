// The pipeline driver (model-lineage/lineage_scraper.py): the scrape stage
// with its dataset merge and shared timestamp, the build stage's checks on the
// loaded snapshots, the load stage, and the choice of stages from the flags.

module LineagePipeline {
  import opened Wrappers
  import opened Json
  import opened Collections
  import opened Strings
  import Scraper = HuggingFaceScraper
  import Builder = GraphBuilder
  import Store = Neo4jStore
  import Snapshots = DataStore
  import GraphModels

  // ------------------------------------------------------- dataset merge

  /** `d["dataset_id"]`. */
  function IdOf(d: Record): Value
  {
    Get(d, "dataset_id", Null)
  }

  /** `{d["dataset_id"]: d for d in datasets}`, holding positions: a later record with the same id wins. */
  function IndexById(ds: seq<Record>): map<Value, nat>
  {
    LastIndex(ds, IdOf)
  }

  /** The index holds every id once, at the last record carrying it. */
  lemma IndexByIdSpec(ds: seq<Record>)
    ensures forall k :: k in IndexById(ds) <==> exists i :: 0 <= i < |ds| && IdOf(ds[i]) == k
    ensures forall k :: k in IndexById(ds) ==>
      && IndexById(ds)[k] < |ds|
      && IdOf(ds[IndexById(ds)[k]]) == k
      && forall j :: IndexById(ds)[k] < j < |ds| ==> IdOf(ds[j]) != k
  {
    LastIndexSpec(ds, IdOf);
  }

  /** One scraped record: appended under an unseen id, otherwise merged into the indexed record with `update`. */
  function MergeStep(cur: seq<Record>, index: map<Value, nat>, d: Record): seq<Record>
  {
    var k := IdOf(d);
    if k !in index then cur + [d]
    else if index[k] < |cur| then cur[index[k] := cur[index[k]] + d]
    else cur
  }

  function MergeInto(datasets: seq<Record>, index: map<Value, nat>, scraped: seq<Record>): seq<Record>
  {
    if scraped == [] then datasets
    else MergeStep(MergeInto(datasets, index, scraped[..|scraped| - 1]), index, scraped[|scraped| - 1])
  }

  /** The merge of `scrape_models`: the tag-derived list with the scraped records folded in. */
  function MergeScraped(datasets: seq<Record>, scraped: seq<Record>): seq<Record>
  {
    MergeInto(datasets, IndexById(datasets), scraped)
  }

  /** The scraped records whose id the tag-derived list does not hold. */
  function Unseen(datasets: seq<Record>, scraped: seq<Record>): seq<Record>
  {
    FilterMap(scraped, (d: Record) => if IdOf(d) in IndexById(datasets) then None else Some(d))
  }

  /**
   * The merge keeps every tag-derived record at its position and under its
   * id, and appends exactly the records with an unseen id in scraped order.
   */
  lemma {:induction false} MergeShape(datasets: seq<Record>, scraped: seq<Record>)
    ensures var r := MergeScraped(datasets, scraped);
      && |datasets| <= |r|
      && r[|datasets|..] == Unseen(datasets, scraped)
      && (forall i :: 0 <= i < |datasets| ==> IdOf(r[i]) == IdOf(datasets[i]))
  {
    IndexByIdSpec(datasets);
    var index := IndexById(datasets);
    if scraped != [] {
      var init := scraped[..|scraped| - 1];
      var d := scraped[|scraped| - 1];
      MergeShape(datasets, init);
      var prev := MergeScraped(datasets, init);
      var r := MergeScraped(datasets, scraped);
      var k := IdOf(d);
      var keep := (x: Record) => if IdOf(x) in index then None else Some(x);
      assert scraped == init + [d];
      FilterMapSnoc(init, d, keep);
      if k !in index {
        assert r == prev + [d];
        assert r[|datasets|..] == prev[|datasets|..] + [d];
      } else {
        var p := index[k];
        assert r == prev[p := prev[p] + d];
        assert IdOf(prev[p]) == k;
        assert r[|datasets|..] == prev[|datasets|..];
        assert IdOf(r[p]) == k;
      }
    }
  }

  /** A tag-derived record that no scraped record names comes through the merge untouched. */
  lemma {:induction false} MergeUntouched(datasets: seq<Record>, scraped: seq<Record>, i: nat)
    requires i < |datasets| && forall j :: 0 <= j < |scraped| ==> IdOf(scraped[j]) != IdOf(datasets[i])
    ensures i < |MergeScraped(datasets, scraped)| && MergeScraped(datasets, scraped)[i] == datasets[i]
  {
    MergeShape(datasets, scraped);
    if scraped != [] {
      var init := scraped[..|scraped| - 1];
      assert forall j :: 0 <= j < |init| ==> init[j] == scraped[j];
      MergeUntouched(datasets, init, i);
      IndexByIdSpec(datasets);
      MergeShape(datasets, init);
    }
  }

  /** A scraped record whose id is known ends up with all its fields in the record the index points at. */
  lemma {:induction false} MergeUpdatesLast(datasets: seq<Record>, scraped: seq<Record>)
    requires scraped != [] && IdOf(scraped[|scraped| - 1]) in IndexById(datasets)
    ensures var r := MergeScraped(datasets, scraped);
      var d := scraped[|scraped| - 1];
      var p := IndexById(datasets)[IdOf(d)];
      && p < |datasets| <= |r|
      && forall key :: key in d ==> key in r[p] && r[p][key] == d[key]
  {
    IndexByIdSpec(datasets);
    MergeShape(datasets, scraped[..|scraped| - 1]);
  }

  /** `dataset_dict`, built by the dict comprehension. */
  method BuildIndex(ds: seq<Record>) returns (index: map<Value, nat>)
    ensures index == IndexById(ds)
  {
    index := map[];
    for i := 0 to |ds|
      invariant index == IndexById(ds[..i])
    {
      assert ds[..i + 1][..i] == ds[..i];
      index := index[IdOf(ds[i]) := i];
    }
    assert ds[..|ds|] == ds;
  }

  /** The merge loop of `scrape_models`: `datasets.append` or `dataset_dict[id].update` in place. */
  method MergeScrapedDatasets(datasets: seq<Record>, scraped: seq<Record>) returns (merged: seq<Record>)
    ensures merged == MergeScraped(datasets, scraped)
  {
    var index := BuildIndex(datasets);
    merged := datasets;
    for j := 0 to |scraped|
      invariant merged == MergeInto(datasets, index, scraped[..j])
    {
      assert scraped[..j + 1][..j] == scraped[..j];
      var d := scraped[j];
      var k := IdOf(d);
      if k !in index {
        merged := merged + [d];
      } else if index[k] < |merged| {
        merged := merged[index[k] := merged[index[k]] + d];
      }
    }
    assert scraped[..|scraped|] == scraped;
  }

  // ---------------------------------------------------------- scrape stage

  /** Every tag-derived stub carries a string id. */
  lemma {:induction false} StubIdsAreStrings(listing: seq<Scraper.ListedModel>)
    ensures forall d :: d in Scraper.AllStubs(listing) ==> IdOf(d).Str?
  {
    if listing != [] {
      StubIdsAreStrings(listing[..|listing| - 1]);
      Scraper.StubsKeyed(listing[|listing| - 1]);
    }
  }

  /** The string ids of a list of records. */
  ghost function IdSet(ds: seq<Record>): set<string>
  {
    set i | 0 <= i < |ds| && IdOf(ds[i]).Str? :: IdOf(ds[i]).s
  }

  /** `ids` lists each string id of `ds` once, in some order. */
  ghost predicate ListsIds(ds: seq<Record>, ids: seq<string>)
  {
    && Snapshots.Distinct(ids)
    && forall id :: id in ids <==> exists i :: 0 <= i < |ds| && IdOf(ds[i]) == Str(id)
  }

  /** `list(set(d["dataset_id"] for d in datasets))`: each id once, in the set's arbitrary order. */
  method DistinctIds(ds: seq<Record>) returns (ids: seq<string>)
    ensures ListsIds(ds, ids)
  {
    var all := set i | 0 <= i < |ds| && IdOf(ds[i]).Str? :: IdOf(ds[i]).s;
    ids := Snapshots.Enumerate(all);
    forall id | id in all ensures exists i :: 0 <= i < |ds| && IdOf(ds[i]) == Str(id) {
      var i :| 0 <= i < |ds| && IdOf(ds[i]).Str? && IdOf(ds[i]).s == id;
    }
  }

  /** The metadata record saved by the scrape stage; the counts are taken before filtering. */
  function ScrapeSummary(models: seq<Record>, datasets: seq<Record>, relationships: seq<Record>, ts: string): Record
  {
    map["total_models" := Int(|models|), "total_datasets" := Int(|datasets|),
      "total_relationships" := Int(|relationships|), "scrape_timestamp" := Str(ts)]
  }

  /** The tag-derived dataset list of the model crawl. */
  function TagDatasets(listing: seq<Scraper.ListedModel>): seq<Record>
  {
    FirstByKey(Scraper.AllStubs(listing), Scraper.DatasetKey, {})
  }

  /** `ids` lists each tag-derived dataset id once, in some order. */
  ghost predicate CrawlOrder(listing: seq<Scraper.ListedModel>, ids: seq<string>)
  {
    ListsIds(TagDatasets(listing), ids)
  }

  /** The datasets `scrape_models` returns when the dataset crawl visits `ids` in this order. */
  function CrawledDatasets(listing: seq<Scraper.ListedModel>, lookup: map<string, Scraper.DatasetFetch>,
                           ids: seq<string>): seq<Record>
  {
    MergeScraped(TagDatasets(listing), Scraper.ScrapedRecords(lookup, ids))
  }

  /** The relationships `scrape_models` returns: the model edges, then the dataset-card edges. */
  function CrawledEdges(listing: seq<Scraper.ListedModel>, lookup: map<string, Scraper.DatasetFetch>,
                        ids: seq<string>): seq<Record>
  {
    Scraper.AllEdges(listing) + Scraper.AllDatasetEdges(lookup, ids)
  }

  /**
   * The crawl half of `scrape_models`: the model crawl, then, when it found
   * any dataset ids, the dataset crawl merged into the tag-derived list.
   */
  method CrawlHub(listing: seq<Scraper.ListedModel>, lookup: map<string, Scraper.DatasetFetch>)
    returns (models: seq<Record>, datasets: seq<Record>, relationships: seq<Record>)
    ensures models == FilterMap(listing, Scraper.ModelRecordOf)
    ensures exists ids :: && CrawlOrder(listing, ids)
                          && datasets == CrawledDatasets(listing, lookup, ids)
                          && relationships == CrawledEdges(listing, lookup, ids)
    ensures var stubs := TagDatasets(listing);
      && |stubs| <= |datasets|
      && forall i :: 0 <= i < |stubs| ==> IdOf(datasets[i]) == IdOf(stubs[i])
    ensures Scraper.AllEdges(listing) <= relationships
  {
    models, datasets, relationships := Scraper.ScrapeAllModels(listing);
    var datasetIds := DistinctIds(datasets);
    assert CrawlOrder(listing, datasetIds);
    if datasetIds != [] {
      var scraped, datasetRels := Scraper.ScrapeDatasets(datasetIds, None, lookup);
      MergeShape(datasets, scraped);
      datasets := MergeScrapedDatasets(datasets, scraped);
      relationships := relationships + datasetRels;
    } else {
      assert Scraper.ScrapedRecords(lookup, datasetIds) == [];
      assert Scraper.AllDatasetEdges(lookup, datasetIds) == [];
      assert relationships + [] == relationships;
    }
    assert datasets == CrawledDatasets(listing, lookup, datasetIds);
  }

  /** `raw` with the file `name` of `sub` written (the directory created when missing). */
  function Put(raw: map<string, Snapshots.Dir>, sub: string, name: string, content: Value, mtime: int)
    : map<string, Snapshots.Dir>
  {
    raw[sub := (if sub in raw then raw[sub] else map[])[name := Snapshots.FileEntry(mtime, content)]]
  }

  /** The store after the four saves of `scrape_models` under timestamp `ts`. */
  function SavedSnapshots(raw: map<string, Snapshots.Dir>, models: seq<Record>, datasets: seq<Record>,
                          relationships: seq<Record>, ts: string, mtime: int): map<string, Snapshots.Dir>
  {
    var r1 := Put(raw, "models", Snapshots.SnapshotName("models", ts), List(Snapshots.RecordValues(models)), mtime);
    var r2 := Put(r1, "datasets", Snapshots.SnapshotName("datasets", ts), List(Snapshots.RecordValues(datasets)), mtime);
    var r3 := Put(r2, "relationships", Snapshots.SnapshotName("relationships", ts),
                  List(Snapshots.RecordValues(Snapshots.FilterRelationships(relationships, None))), mtime);
    Put(r3, "metadata", Snapshots.SnapshotName("scrape_metadata", ts),
        Dict(ScrapeSummary(models, datasets, relationships, ts)["timestamp" := Str(ts)]), mtime)
  }

  /**
   * After the saves each of the four snapshots is in its directory with its
   * records (relationships only of an allowed type), and the metadata counts
   * the unfiltered lists.
   */
  lemma SavedSnapshotsContents(raw: map<string, Snapshots.Dir>, models: seq<Record>, datasets: seq<Record>,
                               relationships: seq<Record>, ts: string, mtime: int)
    ensures var r := SavedSnapshots(raw, models, datasets, relationships, ts, mtime);
      && r["models"][Snapshots.SnapshotName("models", ts)]
           == Snapshots.FileEntry(mtime, List(Snapshots.RecordValues(models)))
      && r["datasets"][Snapshots.SnapshotName("datasets", ts)]
           == Snapshots.FileEntry(mtime, List(Snapshots.RecordValues(datasets)))
      && r["relationships"][Snapshots.SnapshotName("relationships", ts)]
           == Snapshots.FileEntry(mtime, List(Snapshots.RecordValues(Snapshots.FilterRelationships(relationships, None))))
      && r["metadata"][Snapshots.SnapshotName("scrape_metadata", ts)].content.Dict?
      && r["metadata"][Snapshots.SnapshotName("scrape_metadata", ts)].content.fields["total_models"] == Int(|models|)
      && r["metadata"][Snapshots.SnapshotName("scrape_metadata", ts)].content.fields["total_relationships"]
           == Int(|relationships|)
  {
  }

  /** The saves add four files and overwrite no other file of the store. */
  lemma SavedSnapshotsKeep(raw: map<string, Snapshots.Dir>, models: seq<Record>, datasets: seq<Record>,
                           relationships: seq<Record>, ts: string, mtime: int)
    ensures var r := SavedSnapshots(raw, models, datasets, relationships, ts, mtime);
      forall sub, n :: sub in raw && n in raw[sub] ==>
        && sub in r && n in r[sub]
        && (r[sub][n] == raw[sub][n] || n == Snapshots.SnapshotName("models", ts)
            || n == Snapshots.SnapshotName("datasets", ts) || n == Snapshots.SnapshotName("relationships", ts)
            || n == Snapshots.SnapshotName("scrape_metadata", ts))
  {
  }

  /** The four saves of `scrape_models`, all under the one timestamp `ts`. */
  method SaveSnapshots(store: Snapshots.DVCDataStore, models: seq<Record>, datasets: seq<Record>,
                       relationships: seq<Record>, ts: string, now: Snapshots.DateTime, mtime: int)
    returns (modelsPath: string, datasetsPath: string, relationshipsPath: string, metadataPath: string)
    requires Snapshots.ValidDateTime(now)
    modifies store
    ensures modelsPath == store.rawPath + "/models/" + Snapshots.SnapshotName("models", ts)
    ensures datasetsPath == store.rawPath + "/datasets/" + Snapshots.SnapshotName("datasets", ts)
    ensures relationshipsPath == store.rawPath + "/relationships/" + Snapshots.SnapshotName("relationships", ts)
    ensures metadataPath == store.rawPath + "/metadata/" + Snapshots.SnapshotName("scrape_metadata", ts)
    ensures store.raw == SavedSnapshots(old(store.raw), models, datasets, relationships, ts, mtime)
  {
    modelsPath := store.SaveScrapedModels(Snapshots.RecordValues(models), Some(ts), now, mtime);
    datasetsPath := store.SaveScrapedDatasets(Snapshots.RecordValues(datasets), Some(ts), now, mtime);
    relationshipsPath := store.SaveRelationships(relationships, Some(ts), now, mtime);
    var stamped;
    metadataPath, stamped := store.SaveMetadata(ScrapeSummary(models, datasets, relationships, ts), Some(ts), now, mtime);
  }

  /** `cleanup_old_files` run for the models, datasets, relationships and metadata snapshots, in this order. */
  ghost predicate Pruned(before: map<string, Snapshots.Dir>, after: map<string, Snapshots.Dir>, keep: int,
                         undeletable: set<string>)
  {
    exists r1, r2, r3 ::
      && Snapshots.CleanedUp(before, r1, keep, "models", undeletable)
      && Snapshots.CleanedUp(r1, r2, keep, "datasets", undeletable)
      && Snapshots.CleanedUp(r2, r3, keep, "relationships", undeletable)
      && Snapshots.CleanedUp(r3, after, keep, "metadata", undeletable)
  }

  /** Pruning to a count of zero or less deletes nothing. */
  lemma PrunedNothing(before: map<string, Snapshots.Dir>, after: map<string, Snapshots.Dir>, keep: int,
                      undeletable: set<string>)
    requires keep <= 0 && Pruned(before, after, keep, undeletable)
    ensures after == before
  {
  }

  /** `cleanup_old_files` for each snapshot type, in this order. */
  method PruneSnapshots(store: Snapshots.DVCDataStore, keep: int, undeletable: set<string>)
    modifies store
    ensures Pruned(old(store.raw), store.raw, keep, undeletable)
  {
    store.CleanupOldFiles(keep, "models", undeletable);
    ghost var r1 := store.raw;
    store.CleanupOldFiles(keep, "datasets", undeletable);
    ghost var r2 := store.raw;
    store.CleanupOldFiles(keep, "relationships", undeletable);
    ghost var r3 := store.raw;
    store.CleanupOldFiles(keep, "metadata", undeletable);
  }

  /**
   * The store after `scrape_models`, its dataset crawl visiting `ids`: the
   * four snapshots of the crawl saved under `ts`, then pruned when a count
   * to keep is given.
   */
  ghost predicate Scraped(before: map<string, Snapshots.Dir>, after: map<string, Snapshots.Dir>,
                          listing: seq<Scraper.ListedModel>, lookup: map<string, Scraper.DatasetFetch>,
                          ids: seq<string>, ts: string, mtime: int, keepLatest: Option<int>, undeletable: set<string>)
  {
    var saved := SavedSnapshots(before, FilterMap(listing, Scraper.ModelRecordOf), CrawledDatasets(listing, lookup, ids),
                                CrawledEdges(listing, lookup, ids), ts, mtime);
    if keepLatest.None? then after == saved else Pruned(saved, after, keepLatest.value, undeletable)
  }

  /** The store after `scrape_models`, for some order of the dataset crawl. */
  ghost predicate ScrapedStore(before: map<string, Snapshots.Dir>, after: map<string, Snapshots.Dir>,
                               listing: seq<Scraper.ListedModel>, lookup: map<string, Scraper.DatasetFetch>,
                               ts: string, mtime: int, keepLatest: Option<int>, undeletable: set<string>)
  {
    exists ids :: CrawlOrder(listing, ids) && Scraped(before, after, listing, lookup, ids, ts, mtime, keepLatest, undeletable)
  }

  /**
   * `scrape_models`: crawls the Hub, saves the four snapshots under one
   * timestamp taken from the clock reading `now`, and prunes old snapshots
   * only when `keepLatest` is given.
   */
  method ScrapeModels(store: Snapshots.DVCDataStore, listing: seq<Scraper.ListedModel>,
                      lookup: map<string, Scraper.DatasetFetch>, keepLatest: Option<int>,
                      now: Snapshots.DateTime, mtime: int, undeletable: set<string>)
    returns (modelsPath: string, datasetsPath: string, relationshipsPath: string, metadataPath: string)
    requires Snapshots.ValidDateTime(now)
    modifies store
    ensures var ts := Snapshots.FormatTimestamp(now);
      && modelsPath == store.rawPath + "/models/" + Snapshots.SnapshotName("models", ts)
      && datasetsPath == store.rawPath + "/datasets/" + Snapshots.SnapshotName("datasets", ts)
      && relationshipsPath == store.rawPath + "/relationships/" + Snapshots.SnapshotName("relationships", ts)
      && metadataPath == store.rawPath + "/metadata/" + Snapshots.SnapshotName("scrape_metadata", ts)
    ensures ScrapedStore(old(store.raw), store.raw, listing, lookup, Snapshots.FormatTimestamp(now),
                         mtime, keepLatest, undeletable)
  {
    var models, datasets, relationships := CrawlHub(listing, lookup);
    ghost var ids :| && CrawlOrder(listing, ids)
                     && datasets == CrawledDatasets(listing, lookup, ids)
                     && relationships == CrawledEdges(listing, lookup, ids);
    var ts := Snapshots.FormatTimestamp(now);
    modelsPath, datasetsPath, relationshipsPath, metadataPath :=
      SaveSnapshots(store, models, datasets, relationships, ts, now, mtime);
    if keepLatest.Some? {
      PruneSnapshots(store, keepLatest.value, undeletable);
    }
    assert Scraped(old(store.raw), store.raw, listing, lookup, ids, ts, mtime, keepLatest, undeletable);
  }

  // ----------------------------------------------------------- build stage

  datatype StageError =
    | NoModels              // "No models found. Run --scrape first."
    | SnapshotNotList       // a snapshot whose JSON is not an array
    | BuildFailed(cause: Builder.BuildError)

  datatype Outcome<T> = Done(value: T) | Failed(error: StageError)

  /** The relationship snapshot as `build_graph` passes it on: missing or falsy becomes `[]`. */
  function RelationshipItems(relationships: Option<Value>): Option<seq<Value>>
  {
    if relationships.None? || !Truthy(relationships.value) then Some([])
    else if relationships.value.List? then Some(relationships.value.items)
    else None
  }

  /** The snapshots `build_graph` can build from: a non-empty model list and a relationship list the builder accepts. */
  predicate Buildable(models: Option<Value>, relationships: Option<Value>)
  {
    && models.Some? && Truthy(models.value) && models.value.List?
    && RelationshipItems(relationships).Some?
    && !Builder.BuildFails(models.value.items, RelationshipItems(relationships).value, None)
  }

  /** The graph `build_graph` builds: the model records, the datasets inferred from the edges, the edges. */
  function Built(models: Option<Value>, relationships: Option<Value>): GraphModels.GraphData
    requires Buildable(models, relationships)
  {
    var rels := RelationshipItems(relationships).value;
    GraphModels.GraphData(FilterMap(models.value.items, Builder.ModelFromValue),
                          Builder.Stubs(Builder.InferredIds(rels)),
                          FilterMap(rels, Builder.RelationshipFromValue), None)
  }

  /**
   * `build_graph` on the loaded snapshots: no models (missing or empty) is an
   * error; the builder gets no dataset list, so the datasets are always the
   * stubs inferred from the relationships.
   */
  method BuildGraphFrom(models: Option<Value>, relationships: Option<Value>) returns (r: Outcome<GraphModels.GraphData>)
    ensures models.None? || !Truthy(models.value) ==> r == Failed(NoModels)
    ensures r.Done? ==> (models.Some? && models.value.List? && models.value.items != []
      && RelationshipItems(relationships).Some?)
    ensures r.Done? ==>
      var rels := RelationshipItems(relationships).value;
      && !Builder.BuildFails(models.value.items, rels, None)
      && r.value.models == FilterMap(models.value.items, Builder.ModelFromValue)
      && r.value.datasets == Builder.Stubs(Builder.InferredIds(rels))
      && r.value.relationships == FilterMap(rels, Builder.RelationshipFromValue)
    ensures models.Some? && models.value.List? && models.value.items != [] && RelationshipItems(relationships).Some?
      ==> (r.Done? <==> !Builder.BuildFails(models.value.items, RelationshipItems(relationships).value, None))
    ensures r.Done? <==> Buildable(models, relationships)
    ensures r.Done? ==> r.value == Built(models, relationships)
  {
    if models.None? || !Truthy(models.value) {
      return Failed(NoModels);
    }
    var rels := RelationshipItems(relationships);
    if !models.value.List? || rels.None? {
      return Failed(SnapshotNotList);
    }
    var built := Builder.BuildFromData(models.value.items, rels.value, None);
    if built.Err? {
      return Failed(BuildFailed(built.error));
    }
    r := Done(built.value);
  }

  /** `build_graph`: loads the latest snapshots of the store and builds from them. */
  method BuildGraph(store: Snapshots.DVCDataStore) returns (r: Outcome<GraphModels.GraphData>)
    ensures "models" !in store.raw || Snapshots.Matching(store.raw["models"], "models_") == {} ==> r == Failed(NoModels)
    ensures r.Done? ==> exists n ::
      && n in Snapshots.Matching(store.raw["models"], "models_")
      && (forall m :: m in Snapshots.Matching(store.raw["models"], "models_") ==> m == n || LexLess(m, n))
      && store.raw["models"][n].content.List?
      && r.value.models == FilterMap(store.raw["models"][n].content.items, Builder.ModelFromValue)
    ensures exists mc, rc ::
      && Snapshots.IsLatest(store.raw, "models", "models_", mc)
      && Snapshots.IsLatest(store.raw, "relationships", "relationships_", rc)
      && (r.Done? <==> Buildable(mc, rc))
      && (r.Done? ==> r.value == Built(mc, rc))
  {
    var models := store.LoadLatestModels();
    var relationships := store.LoadLatestRelationships();
    r := BuildGraphFrom(models, relationships);
  }

  // ------------------------------------------------------------ load stage

  /**
   * `load_to_neo4j` against a database holding `database`: cleared first
   * only when asked, then loaded; the client is closed in every case.
   */
  method LoadToNeo4j(database: Store.Graph, data: GraphModels.GraphData, clearExisting: bool)
    returns (client: Store.Neo4jClient, stats: Store.Statistics)
    ensures client.graph == Store.LoadGraph(if clearExisting then Store.EmptyGraph else database, data)
    ensures !client.connected
    ensures stats.modelCount == Store.CountLabel(client.graph, Store.ModelLabel)
    ensures stats.datasetCount == Store.CountLabel(client.graph, Store.DatasetLabel)
    ensures stats.relationshipCount == |client.graph.edges|
  {
    client := new Store.Neo4jClient(database);
    if clearExisting {
      client.ClearDatabase();
    }
    client.LoadGraphData(data);
    stats := client.GetStatistics();
    client.Close();
  }

  // -------------------------------------------------------- stage choice

  /** The command-line flags of `main`. */
  datatype Args = Args(scrape: bool, buildGraph: bool, loadNeo4j: bool, clear: bool, commit: bool, full: bool,
                       limit: Option<int>, keepLatest: Option<int>, message: Option<string>)

  datatype Stage = ScrapeStage | BuildStage | LoadStage | CommitStage

  function Rank(s: Stage): nat
  {
    match s
    case ScrapeStage => 0
    case BuildStage => 1
    case LoadStage => 2
    case CommitStage => 3
  }

  /** `--full` turns every stage flag on. */
  function WithFull(a: Args): (r: Args)
    ensures r.full ==> r.scrape && r.buildGraph && r.loadNeo4j && r.commit
    ensures r.clear == a.clear && r.limit == a.limit && r.keepLatest == a.keepLatest && r.message == a.message
    ensures !a.full ==> r == a
  {
    if a.full then a.(scrape := true, buildGraph := true, loadNeo4j := true, commit := true) else a
  }

  /** A stage when its flag is on. */
  function When(on: bool, s: Stage): seq<Stage>
  {
    if on then [s] else []
  }

  /** The stages `main` runs, in order; the graph is built whenever it is to be loaded. */
  function PlannedStages(args: Args): seq<Stage>
  {
    var a := WithFull(args);
    if !(a.scrape || a.buildGraph || a.loadNeo4j || a.commit) then []
    else
      When(a.scrape, ScrapeStage) + When(a.buildGraph || a.loadNeo4j, BuildStage)
      + When(a.loadNeo4j, LoadStage) + When(a.commit, CommitStage)
  }

  /**
   * A stage is planned exactly when its flag is on (building also when
   * loading), nothing runs without a flag, the stages keep pipeline order,
   * and `--full` plans all four.
   */
  lemma PlannedStagesSpec(args: Args)
    ensures var r := PlannedStages(args);
      var a := WithFull(args);
      && (r == [] <==> !(a.scrape || a.buildGraph || a.loadNeo4j || a.commit))
      && (ScrapeStage in r <==> a.scrape)
      && (BuildStage in r <==> a.buildGraph || a.loadNeo4j)
      && (LoadStage in r <==> a.loadNeo4j)
      && (CommitStage in r <==> a.commit)
      && (args.full ==> r == [ScrapeStage, BuildStage, LoadStage, CommitStage])
  {
  }

  /** Stages in strictly increasing pipeline order. */
  predicate InOrder(r: seq<Stage>)
  {
    forall i, j :: 0 <= i < j < |r| ==> Rank(r[i]) < Rank(r[j])
  }

  /** Appending a later stage keeps the order. */
  lemma AppendLater(r: seq<Stage>, on: bool, s: Stage)
    requires InOrder(r) && forall x :: x in r ==> Rank(x) < Rank(s)
    ensures InOrder(r + When(on, s))
  {
    if on {
      forall i, j | 0 <= i < j < |r| + 1 ensures Rank((r + [s])[i]) < Rank((r + [s])[j]) {
        if j == |r| {
          assert (r + [s])[i] == r[i] && r[i] in r;
        }
      }
    } else {
      assert r + [] == r;
    }
  }

  /** The planned stages keep pipeline order. */
  lemma PlannedStagesOrdered(args: Args)
    ensures InOrder(PlannedStages(args))
  {
    var a := WithFull(args);
    var p := When(a.scrape, ScrapeStage);
    var q := p + When(a.buildGraph || a.loadNeo4j, BuildStage);
    var u := q + When(a.loadNeo4j, LoadStage);
    AppendLater(p, a.buildGraph || a.loadNeo4j, BuildStage);
    AppendLater(q, a.loadNeo4j, LoadStage);
    AppendLater(u, a.commit, CommitStage);
  }

  /** `commit_data`'s message: the given one, or one naming the clock reading `nowIso`. */
  function CommitMessage(message: Option<string>, nowIso: string): (r: string)
    ensures message.Some? ==> r == message.value
    ensures message.None? ==> StartsWith(r, "Lineage data update: ") && EndsWith(r, nowIso)
  {
    if message.Some? then message.value else "Lineage data update: " + nowIso
  }

  /**
   * `main` after argument parsing: the selected stages in order, stopping at
   * the first failure. `ran` lists the stages that completed, `loaded` the
   * database after the load stage, `message` the commit message handed to
   * version control.
   */
  method RunPipeline(args: Args, store: Snapshots.DVCDataStore, listing: seq<Scraper.ListedModel>,
                     lookup: map<string, Scraper.DatasetFetch>, database: Store.Graph,
                     now: Snapshots.DateTime, nowIso: string, mtime: int, undeletable: set<string>)
    returns (ran: seq<Stage>, error: Option<StageError>, loaded: Option<Store.Graph>, message: Option<string>)
    requires Snapshots.ValidDateTime(now)
    modifies store
    ensures ran <= PlannedStages(args)
    ensures error.None? <==> ran == PlannedStages(args)
    ensures PlannedStages(args) == [] ==> store.raw == old(store.raw)
    ensures loaded.Some? <==> LoadStage in ran
    ensures message.Some? <==> CommitStage in ran
    ensures message.Some? ==> message.value == CommitMessage(args.message, nowIso)
    ensures !WithFull(args).scrape ==> store.raw == old(store.raw)
    ensures WithFull(args).scrape ==>
      ScrapedStore(old(store.raw), store.raw, listing, lookup, Snapshots.FormatTimestamp(now),
                   mtime, WithFull(args).keepLatest, undeletable)
    ensures error.Some? ==> ran == When(WithFull(args).scrape, ScrapeStage)
    ensures BuildStage in PlannedStages(args) ==>
      BuiltAndLoaded(store.raw, database, WithFull(args).loadNeo4j, WithFull(args).clear, error, loaded)
  {
    var a := WithFull(args);
    ran, error, loaded, message := [], None, None, None;
    if !(a.scrape || a.buildGraph || a.loadNeo4j || a.commit) {
      return;
    }
    if a.scrape {
      RunScrape(store, listing, lookup, a.keepLatest, now, mtime, undeletable);
    }
    var later;
    later, error, loaded, message := RunLaterStages(a, store, database, nowIso);
    ran := When(a.scrape, ScrapeStage) + later;
    RanStages(args, later, error.None?);
    PlannedStagesSpec(args);
  }

  /** The stages run are the scrape when planned followed by the later stages that completed. */
  lemma RanStages(args: Args, later: seq<Stage>, completed: bool)
    requires var a := WithFull(args);
      && (a.scrape || a.buildGraph || a.loadNeo4j || a.commit)
      && (completed ==> later == When(a.buildGraph || a.loadNeo4j, BuildStage) + When(a.loadNeo4j, LoadStage)
                                 + When(a.commit, CommitStage))
      && (!completed ==> later == [] && (a.buildGraph || a.loadNeo4j))
    ensures var ran := When(WithFull(args).scrape, ScrapeStage) + later;
      && ran <= PlannedStages(args)
      && (completed <==> ran == PlannedStages(args))
      && (LoadStage in ran <==> LoadStage in later)
      && (CommitStage in ran <==> CommitStage in later)
  {
    var a := WithFull(args);
    var s := When(a.scrape, ScrapeStage);
    var b := When(a.buildGraph || a.loadNeo4j, BuildStage);
    var l := When(a.loadNeo4j, LoadStage);
    var c := When(a.commit, CommitStage);
    assert PlannedStages(args) == s + b + l + c;
    assert LoadStage !in s && CommitStage !in s;
    if completed {
      assert s + later == s + b + l + c;
    } else {
      assert s + later == s;
      assert s <= s + b + l + c && |s| < |s + b + l + c|;
    }
  }

  /** Stages 2 to 4 of `main` once the scrape has run: they read the store and never write it. */
  method RunLaterStages(a: Args, store: Snapshots.DVCDataStore, database: Store.Graph, nowIso: string)
    returns (done: seq<Stage>, error: Option<StageError>, loaded: Option<Store.Graph>, message: Option<string>)
    ensures error.None? ==> done == When(a.buildGraph || a.loadNeo4j, BuildStage) + When(a.loadNeo4j, LoadStage)
                                    + When(a.commit, CommitStage)
    ensures error.Some? ==> done == [] && (a.buildGraph || a.loadNeo4j)
    ensures loaded.Some? <==> LoadStage in done
    ensures message.Some? <==> CommitStage in done
    ensures message.Some? ==> message.value == CommitMessage(a.message, nowIso)
    ensures a.buildGraph || a.loadNeo4j ==> BuiltAndLoaded(store.raw, database, a.loadNeo4j, a.clear, error, loaded)
  {
    done, error, loaded, message := [], None, None, None;
    if a.buildGraph || a.loadNeo4j {
      done, error, loaded := RunBuildAndLoad(store, database, a.loadNeo4j, a.clear);
      if error.Some? {
        return;
      }
    }
    if a.commit {
      message := Some(CommitMessage(a.message, nowIso));
      done := done + [CommitStage];
    }
  }

  /**
   * The outcome of building from the latest snapshots of `raw` and, when
   * asked, loading: an error exactly when the snapshots are not buildable,
   * otherwise the database after loading the built graph.
   */
  ghost predicate BuiltAndLoaded(raw: map<string, Snapshots.Dir>, database: Store.Graph, load: bool, clearExisting: bool,
                                 error: Option<StageError>, loaded: Option<Store.Graph>)
  {
    exists mc, rc ::
      && Snapshots.IsLatest(raw, "models", "models_", mc)
      && Snapshots.IsLatest(raw, "relationships", "relationships_", rc)
      && (error.None? <==> Buildable(mc, rc))
      && (error.None? && load ==>
            loaded == Some(Store.LoadGraph(if clearExisting then Store.EmptyGraph else database, Built(mc, rc))))
  }

  /** Stages 2 and 3 as `main` runs them: building, then loading when asked; a failed build stops both. */
  method RunBuildAndLoad(store: Snapshots.DVCDataStore, database: Store.Graph, load: bool, clearExisting: bool)
    returns (done: seq<Stage>, error: Option<StageError>, loaded: Option<Store.Graph>)
    ensures error.None? ==> done == [BuildStage] + When(load, LoadStage)
    ensures error.Some? ==> done == [] && loaded.None?
    ensures loaded.Some? <==> error.None? && load
    ensures BuiltAndLoaded(store.raw, database, load, clearExisting, error, loaded)
  {
    done, error, loaded := [], None, None;
    var built := BuildGraph(store);
    if built.Failed? {
      return [], Some(built.error), None;
    }
    done := [BuildStage];
    if load {
      var graph := RunLoad(database, built.value, clearExisting);
      loaded := Some(graph);
      done := done + [LoadStage];
    }
  }

  /** Stage 3 as `main` runs it: the database after loading, the statistics unused. */
  method RunLoad(database: Store.Graph, data: GraphModels.GraphData, clearExisting: bool) returns (graph: Store.Graph)
    ensures graph == Store.LoadGraph(if clearExisting then Store.EmptyGraph else database, data)
  {
    var client, _ := LoadToNeo4j(database, data, clearExisting);
    graph := client.graph;
  }

  /** Stage 1 as `main` runs it, the paths it returns unused. */
  method RunScrape(store: Snapshots.DVCDataStore, listing: seq<Scraper.ListedModel>,
                   lookup: map<string, Scraper.DatasetFetch>, keepLatest: Option<int>,
                   now: Snapshots.DateTime, mtime: int, undeletable: set<string>)
    requires Snapshots.ValidDateTime(now)
    modifies store
    ensures ScrapedStore(old(store.raw), store.raw, listing, lookup, Snapshots.FormatTimestamp(now),
                         mtime, keepLatest, undeletable)
  {
    var _, _, _, _ := ScrapeModels(store, listing, lookup, keepLatest, now, mtime, undeletable);
  }
}
