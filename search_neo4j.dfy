// The lineage search tools of the backend
// (backend/routers/search/utils/search_neo4j.py): validating node property
// maps into model and dataset entities, the node listings, and the lineage
// subgraph query with its truncation and its write to the request state.
// The database answers are inputs: a list of node property maps for the
// listings, a list of result rows for the subgraph query.

module SearchNeo4j {
  import opened Wrappers
  import opened Json
  import opened Collections
  import GraphModels
  import ToolState

  datatype HFModel = HFModel(
    modelId: string,
    downloads: Option<int>,
    pipelineTag: Option<string>,
    createdAt: Option<string>,
    libraryName: Option<string>,
    url: Option<string>,
    likes: Option<int>,
    tags: seq<string>)

  datatype HFDataset = HFDataset(datasetId: string, tags: seq<string>)

  /** `HFModel | HFDataset`. */
  datatype Entity = ModelEntity(model: HFModel) | DatasetEntity(dataset: HFDataset)

  datatype HFRelationship = HFRelationship(source: Entity, relationship: string, target: Entity)

  datatype HFGraphData = HFGraphData(nodes: seq<Entity>, relationships: seq<HFRelationship>)

  /** Why building an entity raises: pydantic validation, or neither id key present. */
  datatype EntityError = ValidationFailed | UnknownEntityType | MissingRelationships

  datatype Result<T> = Ok(value: T) | Err(error: EntityError)

  // ---------------------------------------------------------- validation

  /** `HFModel(**d)`; keys it does not declare are ignored. */
  function ParseHFModel(d: Record): (r: Option<HFModel>)
    ensures r.Some? ==> "model_id" in d && d["model_id"] == Str(r.value.modelId)
    ensures r.Some? && "tags" !in d ==> r.value.tags == []
    ensures "model_id" !in d ==> r.None?
  {
    var id := GraphModels.RequiredStr(d, "model_id");
    var downloads := GraphModels.OptionalInt(d, "downloads");
    var pipeline := GraphModels.OptionalStr(d, "pipeline_tag");
    var created := GraphModels.OptionalStr(d, "created_at");
    var library := GraphModels.OptionalStr(d, "library_name");
    var url := GraphModels.OptionalStr(d, "url");
    var likes := GraphModels.OptionalInt(d, "likes");
    var tags := GraphModels.StrListField(d, "tags");
    if id.Some? && downloads.Some? && pipeline.Some? && created.Some? && library.Some? && url.Some?
      && likes.Some? && tags.Some?
    then Some(HFModel(id.value, downloads.value, pipeline.value, created.value, library.value, url.value,
      likes.value, tags.value))
    else None
  }

  /** `HFDataset(**d)`. */
  function ParseHFDataset(d: Record): (r: Option<HFDataset>)
    ensures r.Some? ==> "dataset_id" in d && d["dataset_id"] == Str(r.value.datasetId)
    ensures r.Some? && "tags" !in d ==> r.value.tags == []
    ensures "dataset_id" !in d ==> r.None?
  {
    var id := GraphModels.RequiredStr(d, "dataset_id");
    var tags := GraphModels.StrListField(d, "tags");
    if id.Some? && tags.Some? then Some(HFDataset(id.value, tags.value)) else None
  }

  /** What the search side sees of a model node the lineage pipeline wrote. */
  function ModelView(m: GraphModels.ModelNode): HFModel
  {
    HFModel(m.modelId, m.downloads, m.pipelineTag, m.createdAt, m.libraryName, Some(m.url), m.likes, m.tags)
  }

  /**
   * Every Model node the pipeline's store holds parses: a property map that
   * carries at least the values `create_model_node` wrote validates into the
   * model's view, whatever other keys it has.
   */
  lemma StoredModelParses(m: GraphModels.ModelNode, d: Record)
    requires forall k :: k in GraphModels.DumpModelNode(m) ==> k in d && d[k] == GraphModels.DumpModelNode(m)[k]
    ensures ParseHFModel(d) == Some(ModelView(m))
  {
    var dump := GraphModels.DumpModelNode(m);
    assert "model_id" in dump && "downloads" in dump && "pipeline_tag" in dump && "created_at" in dump;
    assert "library_name" in dump && "url" in dump && "likes" in dump && "tags" in dump;
    SameModelFields(d, dump);
    DumpedModelParses(m);
  }

  /** Both records hold key `k`, with the same value. */
  predicate Agree(d: Record, e: Record, k: string)
  {
    k in d && k in e && d[k] == e[k]
  }

  /** `HFModel` reads only its eight declared keys. */
  lemma SameModelFields(d: Record, e: Record)
    requires Agree(d, e, "model_id") && Agree(d, e, "downloads") && Agree(d, e, "pipeline_tag")
    requires Agree(d, e, "created_at") && Agree(d, e, "library_name") && Agree(d, e, "url")
    requires Agree(d, e, "likes") && Agree(d, e, "tags")
    ensures ParseHFModel(d) == ParseHFModel(e)
  {
    GraphModels.SameField(d, e, "model_id");
    GraphModels.SameField(d, e, "downloads");
    GraphModels.SameField(d, e, "pipeline_tag");
    GraphModels.SameField(d, e, "created_at");
    GraphModels.SameField(d, e, "library_name");
    GraphModels.SameField(d, e, "url");
    GraphModels.SameField(d, e, "likes");
    GraphModels.SameField(d, e, "tags");
  }

  /** A dumped model node itself validates into the model's view. */
  lemma DumpedModelParses(m: GraphModels.ModelNode)
    ensures ParseHFModel(GraphModels.DumpModelNode(m)) == Some(ModelView(m))
  {
    GraphModels.DumpedIdentity(m);
    GraphModels.DumpedCounts(m);
    GraphModels.DumpedDescriptors(m);
  }

  /** The same for Dataset nodes, which the search side reads only by id and tags. */
  lemma StoredDatasetParses(n: GraphModels.DatasetNode, d: Record)
    requires forall k :: k in GraphModels.DumpDatasetNode(n) ==> k in d && d[k] == GraphModels.DumpDatasetNode(n)[k]
    ensures ParseHFDataset(d) == Some(HFDataset(n.datasetId, n.tags))
  {
    var dump := GraphModels.DumpDatasetNode(n);
    assert "dataset_id" in dump && "tags" in dump;
    GraphModels.StrItemsOfStrList(n.tags);
  }

  datatype EntityKind = ModelKind | DatasetKind

  /** `_parse_node`: the entity, or `None` in place of the validation error. */
  function ParseNode(d: Record, kind: EntityKind): (r: Option<Entity>)
    ensures kind == ModelKind ==> (r.Some? <==> ParseHFModel(d).Some?) && (r.Some? ==> r.value == ModelEntity(ParseHFModel(d).value))
    ensures kind == DatasetKind ==> (r.Some? <==> ParseHFDataset(d).Some?) && (r.Some? ==> r.value == DatasetEntity(ParseHFDataset(d).value))
  {
    match kind
    case ModelKind => if ParseHFModel(d).Some? then Some(ModelEntity(ParseHFModel(d).value)) else None
    case DatasetKind => if ParseHFDataset(d).Some? then Some(DatasetEntity(ParseHFDataset(d).value)) else None
  }

  function ParseModelNode(d: Record): Option<Entity> { ParseNode(d, ModelKind) }

  function ParseDatasetNode(d: Record): Option<Entity> { ParseNode(d, DatasetKind) }

  /** `search_models` over the rows the listing query returned: the nodes that validate, in order. */
  function SearchModels(rows: seq<Record>): (r: seq<Entity>)
    ensures |r| <= |rows|
    ensures forall e :: e in r ==> e.ModelEntity? && exists d :: d in rows && ParseHFModel(d) == Some(e.model)
    ensures forall d :: d in rows && ParseHFModel(d).Some? ==> ModelEntity(ParseHFModel(d).value) in r
  {
    FilterMapSound(rows, ParseModelNode);
    FilterMap(rows, ParseModelNode)
  }

  /** `search_datasets`: the same over Dataset nodes. */
  function SearchDatasets(rows: seq<Record>): (r: seq<Entity>)
    ensures |r| <= |rows|
    ensures forall e :: e in r ==> e.DatasetEntity? && exists d :: d in rows && ParseHFDataset(d) == Some(e.dataset)
    ensures forall d :: d in rows && ParseHFDataset(d).Some? ==> DatasetEntity(ParseHFDataset(d).value) in r
  {
    FilterMapSound(rows, ParseDatasetNode);
    FilterMap(rows, ParseDatasetNode)
  }

  /**
   * Both searches keep the database's row order: the result for rows `a`
   * followed by rows `b` is the result for `a` followed by that for `b`, and
   * one row yields its entity exactly when it validates.
   */
  lemma SearchKeepsRowOrder(a: seq<Record>, b: seq<Record>, d: Record)
    ensures SearchModels(a + b) == SearchModels(a) + SearchModels(b)
    ensures SearchDatasets(a + b) == SearchDatasets(a) + SearchDatasets(b)
    ensures SearchModels([d]) == if ParseHFModel(d).Some? then [ModelEntity(ParseHFModel(d).value)] else []
    ensures SearchDatasets([d]) == if ParseHFDataset(d).Some? then [DatasetEntity(ParseHFDataset(d).value)] else []
  {
    FilterMapAppend(a, b, ParseModelNode);
    FilterMapAppend(a, b, ParseDatasetNode);
    FilterMapSnoc([], d, ParseModelNode);
    FilterMapSnoc([], d, ParseDatasetNode);
    assert [] + [d] == [d];
  }

  /** `_make_entity`: a `model_id` key decides first, then `dataset_id`; otherwise it raises. */
  function MakeEntity(d: Record): (r: Result<Entity>)
    ensures "model_id" in d ==> (r.Ok? <==> ParseHFModel(d).Some?) && (r.Ok? ==> r.value == ModelEntity(ParseHFModel(d).value))
    ensures "model_id" !in d && "dataset_id" in d ==>
      (r.Ok? <==> ParseHFDataset(d).Some?) && (r.Ok? ==> r.value == DatasetEntity(ParseHFDataset(d).value))
    ensures "model_id" !in d && "dataset_id" !in d ==> r == Err(UnknownEntityType)
  {
    if "model_id" in d then
      (if ParseHFModel(d).Some? then Ok(ModelEntity(ParseHFModel(d).value)) else Err(ValidationFailed))
    else if "dataset_id" in d then
      (if ParseHFDataset(d).Some? then Ok(DatasetEntity(ParseHFDataset(d).value)) else Err(ValidationFailed))
    else Err(UnknownEntityType)
  }

  // --------------------------------------------------------- subgraph query

  /** A node as the driver hands it over: already an entity, or a property map. */
  datatype NodeData = AsEntity(entity: Entity) | AsDict(props: Record)

  datatype Triple = Triple(source: NodeData, relType: string, target: NodeData)

  /** The first result row: `nodes` may be absent, `relationships` is read without a default. */
  datatype QueryRow = QueryRow(nodes: Option<seq<NodeData>>, relationships: Option<seq<Triple>>)

  /** `_ensure_entity`. */
  function EnsureEntity(n: NodeData): Result<Entity>
  {
    match n
    case AsEntity(e) => Ok(e)
    case AsDict(d) => MakeEntity(d)
  }

  /** The list comprehension over nodes: the first failure raises. */
  function ConvertNodes(ns: seq<NodeData>): (r: Result<seq<Entity>>)
    ensures r.Ok? <==> forall i :: 0 <= i < |ns| ==> EnsureEntity(ns[i]).Ok?
    ensures r.Ok? ==> |r.value| == |ns| && forall i :: 0 <= i < |ns| ==> EnsureEntity(ns[i]) == Ok(r.value[i])
  {
    if ns == [] then Ok([])
    else
      var first := EnsureEntity(ns[0]);
      var rest := ConvertNodes(ns[1..]);
      if first.Err? then Err(first.error)
      else if rest.Err? then
        Err(rest.error)
      else
        Ok([first.value] + rest.value)
  }

  function ConvertTriple(t: Triple): Result<HFRelationship>
  {
    var s := EnsureEntity(t.source);
    if s.Err? then Err(s.error)
    else
      var g := EnsureEntity(t.target);
      if g.Err? then Err(g.error) else Ok(HFRelationship(s.value, t.relType, g.value))
  }

  /** The relationship comprehension: every triple is converted, source before target. */
  function ConvertTriples(ts: seq<Triple>): (r: Result<seq<HFRelationship>>)
    ensures r.Ok? <==> forall i :: 0 <= i < |ts| ==> ConvertTriple(ts[i]).Ok?
    ensures r.Ok? ==> |r.value| == |ts| && forall i :: 0 <= i < |ts| ==> ConvertTriple(ts[i]) == Ok(r.value[i])
  {
    if ts == [] then Ok([])
    else
      var first := ConvertTriple(ts[0]);
      var rest := ConvertTriples(ts[1..]);
      if first.Err? then Err(first.error)
      else if rest.Err? then
        Err(rest.error)
      else
        Ok([first.value] + rest.value)
  }

  const MaxCount: nat := 10

  /** `xs[:MAX_COUNT]`. */
  function Limit<T>(xs: seq<T>): (r: seq<T>)
    ensures |r| == if |xs| < MaxCount then |xs| else MaxCount
    ensures r <= xs
  {
    if |xs| <= MaxCount then xs else xs[..MaxCount]
  }

  /**
   * `search_query`'s answer for the rows the subgraph query returned: empty
   * for no rows; otherwise the first ten converted nodes and, cut separately,
   * the first ten converted relationships. Every node and every relationship
   * is converted before the cut, so any failure raises.
   */
  function SearchQueryResult(rows: seq<QueryRow>): (r: Result<HFGraphData>)
    ensures rows == [] ==> r == Ok(HFGraphData([], []))
    ensures rows != [] && rows[0].relationships.None? ==> r.Err?
    ensures rows != [] && r.Ok? ==>
      var nodes := rows[0].nodes.GetOr([]);
      var triples := rows[0].relationships.value;
      && |r.value.nodes| == (if |nodes| < MaxCount then |nodes| else MaxCount)
      && (forall i :: 0 <= i < |r.value.nodes| ==> EnsureEntity(nodes[i]) == Ok(r.value.nodes[i]))
      && |r.value.relationships| == (if |triples| < MaxCount then |triples| else MaxCount)
      && (forall i :: 0 <= i < |r.value.relationships| ==> ConvertTriple(triples[i]) == Ok(r.value.relationships[i]))
    ensures rows != [] && rows[0].relationships.Some? ==>
      (r.Ok? <==> ConvertNodes(rows[0].nodes.GetOr([])).Ok? && ConvertTriples(rows[0].relationships.value).Ok?)
  {
    if rows == [] then Ok(HFGraphData([], []))
    else
      var nodes := ConvertNodes(rows[0].nodes.GetOr([]));
      if nodes.Err? then Err(nodes.error)
      else if rows[0].relationships.None? then Err(MissingRelationships)
      else
        var rels := ConvertTriples(rows[0].relationships.value);
        if rels.Err? then Err(rels.error)
        else Ok(HFGraphData(Limit(nodes.value), Limit(rels.value)))
  }

  /**
   * The node and relationship cuts are independent: a relationship among
   * the first ten can reach a node that is not among the first ten nodes.
   */
  lemma TruncationIsIndependent(m: HFModel)
    ensures var hub := AsEntity(ModelEntity(m));
      var far := AsEntity(ModelEntity(m.(modelId := m.modelId + "-far")));
      var r := SearchQueryResult([QueryRow(Some(seq(11, _ => hub) + [far]), Some([Triple(hub, "FINETUNED", far)]))]);
      && r.Ok?
      && ModelEntity(m.(modelId := m.modelId + "-far")) !in r.value.nodes
      && r.value.relationships[0].target == ModelEntity(m.(modelId := m.modelId + "-far"))
  {
    var hub := AsEntity(ModelEntity(m));
    var farModel := ModelEntity(m.(modelId := m.modelId + "-far"));
    var nodes := seq(11, _ => hub) + [AsEntity(farModel)];
    var r := SearchQueryResult([QueryRow(Some(nodes), Some([Triple(hub, "FINETUNED", AsEntity(farModel))]))]);
    assert forall i :: 0 <= i < |nodes| ==> EnsureEntity(nodes[i]).Ok?;
    assert ConvertTriple(Triple(hub, "FINETUNED", AsEntity(farModel))).Ok?;
    assert |m.modelId + "-far"| != |m.modelId|;
    assert forall i :: 0 <= i < |r.value.nodes| ==> r.value.nodes[i] == ModelEntity(m);
  }

  /**
   * `search_query`: the answer above; on the non-empty path a successful
   * answer is also stored under "search_neo4j" in the current request.
   */
  method SearchQuery(ctx: ToolState.ToolContext<HFGraphData>, rows: seq<QueryRow>) returns (r: Result<HFGraphData>)
    modifies if ctx.current.Some? then {ctx.current.value} else {}
    ensures r == SearchQueryResult(rows)
    ensures ctx.current == old(ctx.current)
    ensures rows != [] && r.Ok? && ctx.current.Some? ==>
      ToolState.Stored(ctx.current.value, "search_neo4j") == Some(r.value)
    ensures (rows == [] || r.Err?) && ctx.current.Some? ==>
      ctx.current.value.toolResults == old(ctx.current.value.toolResults)
  {
    r := SearchQueryResult(rows);
    if rows != [] && r.Ok? {
      ctx.SetToolResult("search_neo4j", r.value);
    }
  }
}
