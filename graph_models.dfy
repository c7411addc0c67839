/**
 * The graph's node and edge records (model-lineage/graph/models.py) and the
 * validation that turns a loose dictionary into one of them. Validation
 * follows the declared field types: required strings must be strings,
 * optional fields may be absent or None, list fields default to `[]`,
 * `private` defaults to false, and keys the record does not declare are
 * ignored.
 */
module GraphModels {
  import opened Wrappers
  import opened Json

  datatype ModelNode = ModelNode(
    modelId: string,
    author: Option<string>,
    downloads: Option<int>,
    likes: Option<int>,
    tags: seq<string>,
    libraryName: Option<string>,
    pipelineTag: Option<string>,
    private: bool,
    url: string,
    createdAt: Option<string>,
    updatedAt: Option<string>)

  datatype DatasetNode = DatasetNode(
    datasetId: string,
    author: Option<string>,
    downloads: Option<int>,
    tags: seq<string>)

  datatype Relationship = Relationship(
    source: string,
    target: string,
    relationshipType: string,
    sourceType: string,
    targetType: string,
    metadata: Option<map<string, Value>>)

  datatype GraphData = GraphData(
    models: seq<ModelNode>,
    datasets: seq<DatasetNode>,
    relationships: seq<Relationship>,
    metadata: Option<map<string, Value>>)

  // Field validators. An outer `None` is a validation error.

  function RequiredStr(d: Record, k: string): Option<string>
  {
    if k in d && d[k].Str? then Some(d[k].s) else None
  }

  function OptionalStr(d: Record, k: string): Option<Option<string>>
  {
    if k !in d || d[k].Null? then Some(None)
    else if d[k].Str? then Some(Some(d[k].s))
    else None
  }

  function OptionalInt(d: Record, k: string): Option<Option<int>>
  {
    if k !in d || d[k].Null? then Some(None)
    else if d[k].Int? then Some(Some(d[k].i))
    else None
  }

  function OptionalDict(d: Record, k: string): Option<Option<map<string, Value>>>
  {
    if k !in d || d[k].Null? then Some(None)
    else if d[k].Dict? then Some(Some(d[k].fields))
    else None
  }

  /** Every validator reads a present key's value only, so two records agreeing there validate alike. */
  lemma SameField(d: Record, e: Record, k: string)
    requires k in d && k in e && d[k] == e[k]
    ensures RequiredStr(d, k) == RequiredStr(e, k) && OptionalStr(d, k) == OptionalStr(e, k)
    ensures OptionalInt(d, k) == OptionalInt(e, k) && StrListField(d, k) == StrListField(e, k)
  {
  }

  /** The strings of a list value whose items are all strings. */
  function StrItems(v: Value): (r: Option<seq<string>>)
    ensures r.Some? ==> v == StrList(r.value)
  {
    if v.List? && forall i :: 0 <= i < |v.items| ==> v.items[i].Str? then
      var r := seq(|v.items|, i requires 0 <= i < |v.items| => v.items[i].s);
      assert v.items == StrList(r).items;
      Some(r)
    else None
  }

  /** A `List[str] = []` field: absent means empty; `None` is rejected. */
  function StrListField(d: Record, k: string): Option<seq<string>>
  {
    if k !in d then Some([]) else StrItems(d[k])
  }

  /** A `bool = default` field: absent means the default; `None` is rejected. */
  function BoolField(d: Record, k: string, default: bool): Option<bool>
  {
    if k !in d then Some(default) else if d[k].Bool? then Some(d[k].b) else None
  }

  /** `ModelNode(**d)`: the node, or `None` where validation raises. */
  function ParseModelNode(d: Record): (r: Option<ModelNode>)
    ensures r.Some? ==> "model_id" in d && d["model_id"] == Str(r.value.modelId) && "url" in d && d["url"] == Str(r.value.url)
    ensures r.Some? && "tags" !in d ==> r.value.tags == []
    ensures r.Some? && "private" !in d ==> !r.value.private
    ensures ("model_id" !in d || "url" !in d) ==> r.None?
  {
    var id := RequiredStr(d, "model_id");
    var url := RequiredStr(d, "url");
    var author := OptionalStr(d, "author");
    var downloads := OptionalInt(d, "downloads");
    var likes := OptionalInt(d, "likes");
    var tags := StrListField(d, "tags");
    var library := OptionalStr(d, "library_name");
    var pipeline := OptionalStr(d, "pipeline_tag");
    var priv := BoolField(d, "private", false);
    var created := OptionalStr(d, "created_at");
    var updated := OptionalStr(d, "updated_at");
    if id.Some? && url.Some? && author.Some? && downloads.Some? && likes.Some? && tags.Some?
      && library.Some? && pipeline.Some? && priv.Some? && created.Some? && updated.Some?
    then
      Some(ModelNode(id.value, author.value, downloads.value, likes.value, tags.value,
        library.value, pipeline.value, priv.value, url.value, created.value, updated.value))
    else None
  }

  /** `DatasetNode(**d)`. */
  function ParseDatasetNode(d: Record): (r: Option<DatasetNode>)
    ensures r.Some? ==> "dataset_id" in d && d["dataset_id"] == Str(r.value.datasetId)
    ensures r.Some? && "tags" !in d ==> r.value.tags == []
    ensures "dataset_id" !in d ==> r.None?
  {
    var id := RequiredStr(d, "dataset_id");
    var author := OptionalStr(d, "author");
    var downloads := OptionalInt(d, "downloads");
    var tags := StrListField(d, "tags");
    if id.Some? && author.Some? && downloads.Some? && tags.Some? then
      Some(DatasetNode(id.value, author.value, downloads.value, tags.value))
    else None
  }

  /** `Relationship(**d)`. */
  function ParseRelationship(d: Record): (r: Option<Relationship>)
    ensures r.Some? ==> "source" in d && d["source"] == Str(r.value.source) && "target" in d && d["target"] == Str(r.value.target)
    ensures r.Some? ==> "relationship_type" in d && d["relationship_type"] == Str(r.value.relationshipType)
    ensures r.Some? ==> "source_type" in d && d["source_type"] == Str(r.value.sourceType) && "target_type" in d && d["target_type"] == Str(r.value.targetType)
    ensures r.Some? && "metadata" !in d ==> r.value.metadata.None?
  {
    var source := RequiredStr(d, "source");
    var target := RequiredStr(d, "target");
    var relType := RequiredStr(d, "relationship_type");
    var sourceType := RequiredStr(d, "source_type");
    var targetType := RequiredStr(d, "target_type");
    var metadata := OptionalDict(d, "metadata");
    if source.Some? && target.Some? && relType.Some? && sourceType.Some? && targetType.Some?
      && metadata.Some?
    then
      Some(Relationship(source.value, target.value, relType.value, sourceType.value,
        targetType.value, metadata.value))
    else None
  }

  /** `model.model_dump()`: the node as a dictionary with every declared field. */
  function DumpModelNode(m: ModelNode): Record
  {
    map[
      "model_id" := Str(m.modelId), "author" := OptStr(m.author),
      "downloads" := OptInt(m.downloads), "likes" := OptInt(m.likes),
      "tags" := StrList(m.tags), "library_name" := OptStr(m.libraryName),
      "pipeline_tag" := OptStr(m.pipelineTag), "private" := Bool(m.private),
      "url" := Str(m.url), "created_at" := OptStr(m.createdAt),
      "updated_at" := OptStr(m.updatedAt)]
  }

  /** `dataset.model_dump()`. */
  function DumpDatasetNode(n: DatasetNode): Record
  {
    map["dataset_id" := Str(n.datasetId), "author" := OptStr(n.author),
      "downloads" := OptInt(n.downloads), "tags" := StrList(n.tags)]
  }

  lemma StrItemsOfStrList(xs: seq<string>)
    ensures StrItems(StrList(xs)) == Some(xs)
  {
    var v := StrList(xs);
    assert forall i :: 0 <= i < |v.items| ==> v.items[i].Str?;
    var r := seq(|v.items|, i requires 0 <= i < |v.items| => v.items[i].s);
    assert r == xs;
  }

  /** Validating a dumped model node gives the node back. */
  lemma ModelNodeRoundTrip(m: ModelNode)
    ensures ParseModelNode(DumpModelNode(m)) == Some(m)
  {
    DumpedIdentity(m);
    DumpedCounts(m);
    DumpedDescriptors(m);
  }

  lemma DumpedIdentity(m: ModelNode)
    ensures var d := DumpModelNode(m);
      && RequiredStr(d, "model_id") == Some(m.modelId) && RequiredStr(d, "url") == Some(m.url)
      && OptionalStr(d, "author") == Some(m.author)
      && OptionalStr(d, "created_at") == Some(m.createdAt) && OptionalStr(d, "updated_at") == Some(m.updatedAt)
  {
  }

  lemma DumpedCounts(m: ModelNode)
    ensures var d := DumpModelNode(m);
      && OptionalInt(d, "downloads") == Some(m.downloads) && OptionalInt(d, "likes") == Some(m.likes)
      && BoolField(d, "private", false) == Some(m.private)
  {
  }

  lemma DumpedDescriptors(m: ModelNode)
    ensures var d := DumpModelNode(m);
      && StrListField(d, "tags") == Some(m.tags)
      && OptionalStr(d, "library_name") == Some(m.libraryName)
      && OptionalStr(d, "pipeline_tag") == Some(m.pipelineTag)
  {
    StrItemsOfStrList(m.tags);
  }

  /** Validating a dumped dataset node gives the node back. */
  lemma DatasetNodeRoundTrip(n: DatasetNode)
    ensures ParseDatasetNode(DumpDatasetNode(n)) == Some(n)
  {
    StrItemsOfStrList(n.tags);
  }

  /** The keys `ModelNode` declares; any other key is ignored by validation. */
  const ModelNodeFields: set<string> :=
    {"model_id", "author", "downloads", "likes", "tags", "library_name", "pipeline_tag",
     "private", "url", "created_at", "updated_at"}

  /** Extra keys, such as the scraper's `sha`, do not affect model validation. */
  lemma ModelNodeIgnoresExtraKeys(d: Record, k: string, v: Value)
    requires k !in ModelNodeFields
    ensures ParseModelNode(d[k := v]) == ParseModelNode(d)
  {
    var e := d[k := v];
    assert forall f :: f in ModelNodeFields ==> (f in e <==> f in d) && (f in d ==> e[f] == d[f]);
  }

  /** The smallest valid model record: only the two required keys. */
  lemma ModelNodeDefaults(id: string, url: string)
    ensures ParseModelNode(map["model_id" := Str(id), "url" := Str(url)])
      == Some(ModelNode(id, None, None, None, [], None, None, false, url, None, None))
  {
  }
}
