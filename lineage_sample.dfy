// The lineage lookup script (search_neo4j_sample.py): converting the rows of
// its graph queries into the pipeline's record types, merging and
// de-duplicating them into one GraphData, and picking out the input model's
// children and ancestors for display. The database answers are inputs; the
// dataset answer is a function of the set of model ids it is asked about.

module LineageSample {
  import opened Wrappers
  import opened Json
  import opened Strings
  import opened Collections
  import opened GraphModels

  datatype SampleError =
    | ModelNotFound        // "Model '<id>' not found in the database"
    | MissingColumn        // `record["..."]` on an absent column
    | InvalidRecord        // pydantic validation of the constructed record fails

  datatype Result<T> = Ok(value: T) | Err(error: SampleError)

  /** The rows the model-side queries return, in the order the script issues them. */
  datatype Answers = Answers(
    found: bool,
    input: Option<Record>,
    children: seq<Record>,
    childEdges: seq<Record>,
    ancestors: seq<Record>,
    parentEdges: seq<Record>)

  /** The two dataset queries' rows for one set of model ids. */
  datatype DatasetAnswer = DatasetAnswer(datasets: seq<Record>, edges: seq<Record>)

  // ------------------------------------------------------- row conversion

  /** `record.get("tags") or []`. */
  function TagsOr(r: Record): Value
  {
    if Truthy(Get(r, "tags", Null)) then r["tags"] else List([])
  }

  /** The keyword arguments the script passes to `ModelNode(...)` for a model row. */
  function ModelArgs(r: Record): Record
    requires "model_id" in r
  {
    map["model_id" := r["model_id"], "author" := Get(r, "author", Null),
      "downloads" := Get(r, "downloads", Null), "likes" := Get(r, "likes", Null),
      "tags" := TagsOr(r), "library_name" := Get(r, "library_name", Null),
      "pipeline_tag" := Get(r, "pipeline_tag", Null), "private" := Get(r, "private", Bool(false)),
      "url" := Get(r, "url", Str("")), "created_at" := Get(r, "created_at", Null),
      "updated_at" := Get(r, "updated_at", Null)]
  }

  /** A model row as a `ModelNode`; a `null` url or private column fails validation. */
  function ModelOfRow(r: Record): Result<ModelNode>
  {
    if "model_id" !in r then Err(MissingColumn)
    else
      var node := ParseModelNode(ModelArgs(r));
      if node.Some? then Ok(node.value) else Err(InvalidRecord)
  }

  /**
   * A converted model row keeps the row's id; a row without the id column
   * fails; a missing url column becomes the empty url, while a null one (what
   * Neo4j returns for a node without the property) fails validation; a
   * missing or empty tags column gives the empty tag list.
   */
  lemma ModelOfRowSpec(r: Record)
    ensures var m := ModelOfRow(r);
      && (m.Ok? ==> "model_id" in r && Str(m.value.modelId) == r["model_id"])
      && ("model_id" !in r ==> m == Err(MissingColumn))
      && (m.Ok? && "url" !in r ==> m.value.url == "")
      && ("model_id" in r && "url" in r && r["url"] == Null ==> m == Err(InvalidRecord))
      && (m.Ok? && !Truthy(Get(r, "tags", Null)) ==> m.value.tags == [])
  {
    if "model_id" in r {
      var args := ModelArgs(r);
      assert "model_id"[0] == 'm' && "url"[0] == 'u' && "tags"[0] == 't';
      assert args["model_id"] == r["model_id"] && args["url"] == Get(r, "url", Str("")) && args["tags"] == TagsOr(r);
    }
  }

  function DatasetOfRow(r: Record): (d: Result<DatasetNode>)
    ensures d.Ok? ==> "dataset_id" in r && Str(d.value.datasetId) == r["dataset_id"]
    ensures "dataset_id" !in r ==> d == Err(MissingColumn)
  {
    if "dataset_id" !in r then Err(MissingColumn)
    else
      var args := map["dataset_id" := r["dataset_id"], "author" := Get(r, "author", Null),
        "downloads" := Get(r, "downloads", Null), "tags" := TagsOr(r)];
      var node := ParseDatasetNode(args);
      if node.Some? then Ok(node.value) else Err(InvalidRecord)
  }

  /** An edge row; model-to-model edge types come back upper-case and are lowercased. */
  function EdgeOfRow(r: Record, lowerType: bool): (e: Result<Relationship>)
    ensures e.Ok? ==> "source" in r && "target" in r && "relationship_type" in r
    ensures e.Ok? ==> Str(e.value.source) == r["source"] && Str(e.value.target) == r["target"]
    ensures e.Ok? ==> (r["relationship_type"].Str?
      && e.value.relationshipType == (if lowerType then Lower(r["relationship_type"].s) else r["relationship_type"].s))
    ensures e.Ok? ==> e.value.metadata.None?
  {
    if !("source" in r && "target" in r && "relationship_type" in r && "source_type" in r && "target_type" in r)
    then Err(MissingColumn)
    else if lowerType && !r["relationship_type"].Str? then Err(InvalidRecord)
    else
      var relType := if lowerType then Str(Lower(r["relationship_type"].s)) else r["relationship_type"];
      var args := map["source" := r["source"], "target" := r["target"], "relationship_type" := relType,
        "source_type" := r["source_type"], "target_type" := r["target_type"]];
      var rel := ParseRelationship(args);
      if rel.Some? then Ok(rel.value) else Err(InvalidRecord)
  }

  /** A list comprehension over rows: the first row that fails raises. */
  function ConvertModels(rows: seq<Record>): (r: Result<seq<ModelNode>>)
    ensures r.Ok? <==> forall i :: 0 <= i < |rows| ==> ModelOfRow(rows[i]).Ok?
    ensures r.Ok? ==> |r.value| == |rows| && forall i :: 0 <= i < |rows| ==> ModelOfRow(rows[i]) == Ok(r.value[i])
  {
    if rows == [] then Ok([])
    else
      var first := ModelOfRow(rows[0]);
      var rest := ConvertModels(rows[1..]);
      if first.Err? then Err(first.error)
      else if rest.Err? then Err(rest.error)
      else Ok([first.value] + rest.value)
  }

  function ConvertDatasets(rows: seq<Record>): (r: Result<seq<DatasetNode>>)
    ensures r.Ok? <==> forall i :: 0 <= i < |rows| ==> DatasetOfRow(rows[i]).Ok?
    ensures r.Ok? ==> |r.value| == |rows| && forall i :: 0 <= i < |rows| ==> DatasetOfRow(rows[i]) == Ok(r.value[i])
  {
    if rows == [] then Ok([])
    else
      var first := DatasetOfRow(rows[0]);
      var rest := ConvertDatasets(rows[1..]);
      if first.Err? then Err(first.error)
      else if rest.Err? then Err(rest.error)
      else Ok([first.value] + rest.value)
  }

  function ConvertEdges(rows: seq<Record>, lowerType: bool): (r: Result<seq<Relationship>>)
    ensures r.Ok? <==> forall i :: 0 <= i < |rows| ==> EdgeOfRow(rows[i], lowerType).Ok?
    ensures r.Ok? ==> |r.value| == |rows| && forall i :: 0 <= i < |rows| ==> EdgeOfRow(rows[i], lowerType) == Ok(r.value[i])
  {
    if rows == [] then Ok([])
    else
      var first := EdgeOfRow(rows[0], lowerType);
      var rest := ConvertEdges(rows[1..], lowerType);
      if first.Err? then Err(first.error)
      else if rest.Err? then Err(rest.error)
      else Ok([first.value] + rest.value)
  }

  // ------------------------------------------------------ de-duplication

  function ModelId(m: ModelNode): string { m.modelId }

  /** The identity of an edge for de-duplication: (source, target, type). */
  function EdgeKey(r: Relationship): (string, string, string) { (r.source, r.target, r.relationshipType) }

  /** The first model for each id, in order. */
  method DedupModels(all: seq<ModelNode>) returns (unique: seq<ModelNode>)
    ensures unique == FirstByKey(all, ModelId, {})
  {
    var seen: set<string> := {};
    unique := [];
    for i := 0 to |all|
      invariant unique == FirstByKey(all[..i], ModelId, {})
      invariant seen == Keys(unique, ModelId)
    {
      assert all[..i + 1] == all[..i] + [all[i]];
      FirstByKeyPush(all[..i], all[i], ModelId, unique, seen);
      if all[i].modelId !in seen {
        seen := seen + {all[i].modelId};
        unique := unique + [all[i]];
      }
    }
    assert all[..|all|] == all;
  }

  /** The first relationship for each (source, target, type), in order. */
  method DedupRelationships(all: seq<Relationship>) returns (unique: seq<Relationship>)
    ensures unique == FirstByKey(all, EdgeKey, {})
  {
    var seen: set<(string, string, string)> := {};
    unique := [];
    for i := 0 to |all|
      invariant unique == FirstByKey(all[..i], EdgeKey, {})
      invariant seen == Keys(unique, EdgeKey)
    {
      assert all[..i + 1] == all[..i] + [all[i]];
      FirstByKeyPush(all[..i], all[i], EdgeKey, unique, seen);
      var key := (all[i].source, all[i].target, all[i].relationshipType);
      assert key == EdgeKey(all[i]);
      if key !in seen {
        seen := seen + {key};
        unique := unique + [all[i]];
      }
    }
    assert all[..|all|] == all;
  }

  // ------------------------------------------------------------ the search

  /** `model_ids_to_search`: the input id and every ancestor's id. */
  function IdsToSearch(modelId: string, ancestors: seq<ModelNode>): set<string>
  {
    {modelId} + set a | a in ancestors :: a.modelId
  }

  /** The summary `search_model_lineage` attaches; the counts are taken before de-duplication. */
  function LineageMetadata(modelId: string, children: seq<ModelNode>, ancestors: seq<ModelNode>,
                           datasets: seq<DatasetNode>): map<string, Value>
  {
    map["input_model_id" := Str(modelId), "num_child_models" := Int(|children|),
      "num_ancestors" := Int(|ancestors|), "num_datasets" := Int(|datasets|),
      "is_base_model" := Bool(|ancestors| == 0)]
  }

  /** The input model's row as a `ModelNode`, `None` when no row came back. */
  function InputModel(input: Option<Record>): Result<Option<ModelNode>>
  {
    if input.None? then Ok(None)
    else
      var m := ModelOfRow(input.value);
      if m.Err? then Err(m.error) else Ok(Some(m.value))
  }

  /** Every row the search converts passes validation, the dataset rows being those asked about the input and its ancestors. */
  predicate Converted(modelId: string, answers: Answers, datasetQuery: set<string> -> DatasetAnswer)
  {
    && InputModel(answers.input).Ok?
    && ConvertModels(answers.children).Ok? && ConvertEdges(answers.childEdges, true).Ok?
    && ConvertModels(answers.ancestors).Ok? && ConvertEdges(answers.parentEdges, true).Ok?
    && var asked := datasetQuery(IdsToSearch(modelId, ConvertModels(answers.ancestors).value));
       ConvertDatasets(asked.datasets).Ok? && ConvertEdges(asked.edges, false).Ok?
  }

  /** The models before de-duplication: the input model (when its row came back), then children, then ancestors. */
  function AllModels(input: Option<ModelNode>, children: seq<ModelNode>, ancestors: seq<ModelNode>): seq<ModelNode>
  {
    (if input.Some? then [input.value] else []) + children + ancestors
  }

  /**
   * De-duplicating the models keeps one node per id, keeps only nodes that
   * came back, and loses no child's or ancestor's id.
   */
  lemma DedupKeepsEveryId(input: Option<ModelNode>, children: seq<ModelNode>, ancestors: seq<ModelNode>)
    ensures var models := FirstByKey(AllModels(input, children, ancestors), ModelId, {});
      && KeysDistinct(models, ModelId)
      && (forall m :: m in models ==> m in children || m in ancestors || (input.Some? && m == input.value))
      && (forall m :: m in children || m in ancestors ==> exists u :: u in models && u.modelId == m.modelId)
  {
    var all := AllModels(input, children, ancestors);
    var models := FirstByKey(all, ModelId, {});
    FirstByKeyFresh(all, ModelId);
    forall m | m in children || m in ancestors
      ensures exists u :: u in models && u.modelId == m.modelId
    {
      assert m in all;
      assert ModelId(m) in Keys(all, ModelId);
      assert ModelId(m) in Keys(models, ModelId);
    }
  }

  /**
   * `search_model_lineage`: an unknown id raises; otherwise the converted
   * rows, models and relationships de-duplicated keeping first occurrences,
   * the datasets asked for the input model and its ancestors, and the
   * summary.
   */
  method SearchModelLineage(modelId: string, answers: Answers, datasetQuery: set<string> -> DatasetAnswer)
    returns (r: Result<GraphData>)
    ensures !answers.found ==> r == Err(ModelNotFound)
    ensures r.Ok? <==> answers.found && Converted(modelId, answers, datasetQuery)
    ensures r.Ok? ==>
      var children := ConvertModels(answers.children).value;
      var ancestors := ConvertModels(answers.ancestors).value;
      var asked := datasetQuery(IdsToSearch(modelId, ancestors));
      && r.value.models == FirstByKey(AllModels(InputModel(answers.input).value, children, ancestors), ModelId, {})
      && r.value.relationships == FirstByKey(ConvertEdges(answers.childEdges, true).value
           + ConvertEdges(answers.parentEdges, true).value + ConvertEdges(asked.edges, false).value, EdgeKey, {})
      && r.value.datasets == ConvertDatasets(asked.datasets).value
      && r.value.metadata == Some(LineageMetadata(modelId, children, ancestors, r.value.datasets))
    ensures r.Ok? ==>
      var children := ConvertModels(answers.children).value;
      var ancestors := ConvertModels(answers.ancestors).value;
      && KeysDistinct(r.value.models, ModelId)
      && KeysDistinct(r.value.relationships, EdgeKey)
      && (forall m :: m in r.value.models ==> m in children || m in ancestors || (answers.input.Some? && ModelOfRow(answers.input.value) == Ok(m)))
      && (forall m :: m in children || m in ancestors ==> exists u :: u in r.value.models && u.modelId == m.modelId)
  {
    if !answers.found {
      return Err(ModelNotFound);
    }
    var input: Option<ModelNode> := None;
    if answers.input.Some? {
      var m := ModelOfRow(answers.input.value);
      if m.Err? {
        return Err(m.error);
      }
      input := Some(m.value);
    }
    var children := ConvertModels(answers.children);
    if children.Err? {
      return Err(children.error);
    }
    var childEdges := ConvertEdges(answers.childEdges, true);
    if childEdges.Err? {
      return Err(childEdges.error);
    }
    var ancestors := ConvertModels(answers.ancestors);
    if ancestors.Err? {
      return Err(ancestors.error);
    }
    var parentEdges := ConvertEdges(answers.parentEdges, true);
    if parentEdges.Err? {
      return Err(parentEdges.error);
    }
    var asked := datasetQuery(IdsToSearch(modelId, ancestors.value));
    var datasets := ConvertDatasets(asked.datasets);
    if datasets.Err? {
      return Err(datasets.error);
    }
    var datasetEdges := ConvertEdges(asked.edges, false);
    if datasetEdges.Err? {
      return Err(datasetEdges.error);
    }
    var all := AllModels(input, children.value, ancestors.value);
    var models := DedupModels(all);
    var rels := DedupRelationships(childEdges.value + parentEdges.value + datasetEdges.value);
    DedupKeepsEveryId(input, children.value, ancestors.value);
    FirstByKeyFresh(childEdges.value + parentEdges.value + datasetEdges.value, EdgeKey);
    r := Ok(GraphData(models, datasets.value, rels,
      Some(LineageMetadata(modelId, children.value, ancestors.value, datasets.value))));
  }

  // ------------------------------------------------------------- display

  /** `summary.get("input_model_id", "")` of a result. */
  function InputIdOf(results: GraphData): Value
  {
    Get(results.metadata.GetOr(map[]), "input_model_id", Str(""))
  }

  /** Sources of model edges into the input model. */
  function ChildIds(results: GraphData): set<string>
  {
    set e | e in results.relationships && Str(e.target) == InputIdOf(results) && e.sourceType == "model" :: e.source
  }

  /** Targets of model edges out of the input model. */
  function AncestorIds(results: GraphData): set<string>
  {
    set e | e in results.relationships && Str(e.source) == InputIdOf(results) && e.targetType == "model" :: e.target
  }

  /**
   * What the three edge queries return: model-to-model edges of the lineage
   * types (never `trained_on`), and `trained_on` edges out of models.
   */
  predicate QueryShaped(childEdges: seq<Relationship>, parentEdges: seq<Relationship>, datasetEdges: seq<Relationship>)
  {
    && (forall e :: e in childEdges + parentEdges ==>
          e.sourceType == "model" && e.targetType == "model" && e.relationshipType != "trained_on")
    && (forall e :: e in datasetEdges ==> e.sourceType == "model" && e.relationshipType == "trained_on")
  }

  /**
   * On a search result the displayed ids come from the converted edge rows:
   * every child-edge row names a displayed child, every parent-edge row
   * leaving the input a displayed ancestor, and each displayed ancestor is
   * the target of a row leaving the input itself, so an ancestor further up
   * than a parent is not listed as one.
   */
  lemma DisplayedIdsOfSearch(modelId: string, childEdges: seq<Relationship>, parentEdges: seq<Relationship>,
                             datasetEdges: seq<Relationship>, results: GraphData)
    requires InputIdOf(results) == Str(modelId)
    requires QueryShaped(childEdges, parentEdges, datasetEdges)
    requires results.relationships == FirstByKey(childEdges + parentEdges + datasetEdges, EdgeKey, {})
    ensures forall e :: e in childEdges && e.target == modelId ==> e.source in ChildIds(results)
    ensures forall e :: e in parentEdges && e.source == modelId ==> e.target in AncestorIds(results)
    ensures forall id :: id in AncestorIds(results) ==> exists e ::
      && e in childEdges + parentEdges + datasetEdges
      && e.source == modelId && e.targetType == "model" && e.target == id
  {
    var all := childEdges + parentEdges + datasetEdges;
    FirstByKeyFresh(all, EdgeKey);
    forall e | e in childEdges && e.target == modelId
      ensures e.source in ChildIds(results)
    {
      var u := Survivor(all, e, results.relationships);
      assert u in all;
    }
    forall e | e in parentEdges && e.source == modelId
      ensures e.target in AncestorIds(results)
    {
      var u := Survivor(all, e, results.relationships);
      assert u in all && e in childEdges + parentEdges;
    }
  }

  /** A model node carrying only its id. */
  function Bare(id: string): ModelNode
  {
    ModelNode(id, None, None, None, [], None, None, false, "", None, None)
  }

  /**
   * Searching from `a` in the chain a -> b -> c counts two ancestors, but
   * only the parent `b` is displayed as one.
   */
  lemma GrandparentNotDisplayed()
    ensures var ab := Relationship("a", "b", "based_on", "model", "model", None);
      var bc := Relationship("b", "c", "based_on", "model", "model", None);
      var results := GraphData([Bare("a"), Bare("b"), Bare("c")], [], [ab, bc],
                               Some(LineageMetadata("a", [], [Bare("b"), Bare("c")], [])));
      && results.metadata.value["num_ancestors"] == Int(2)
      && DisplayedAncestors(results) == [Bare("b")]
  {
    var ab := Relationship("a", "b", "based_on", "model", "model", None);
    var bc := Relationship("b", "c", "based_on", "model", "model", None);
    var results := GraphData([Bare("a"), Bare("b"), Bare("c")], [], [ab, bc],
                             Some(LineageMetadata("a", [], [Bare("b"), Bare("c")], [])));
    assert InputIdOf(results) == Str("a");
    var ids := AncestorIds(results);
    assert "b" in ids by { assert ab in results.relationships; }
    forall x | x in ids
      ensures x == "b"
    {
      var e :| e in results.relationships && Str(e.source) == Str("a") && e.targetType == "model" && e.target == x;
      assert e == ab || e == bc;
      assert "b"[0] != "a"[0];
    }
    assert ids == {"b"};
    assert "a"[0] != "b"[0] && "c"[0] != "b"[0];
    assert FilterMap([Bare("c")], InSet(ids)) == [];
    assert FilterMap([Bare("b"), Bare("c")], InSet(ids)) == [Bare("b")];
  }

  /** The edge that de-duplication kept for the key of `e`. */
  lemma Survivor(all: seq<Relationship>, e: Relationship, kept: seq<Relationship>) returns (u: Relationship)
    requires e in all && kept == FirstByKey(all, EdgeKey, {})
    ensures u in kept && u in all && EdgeKey(u) == EdgeKey(e)
  {
    FirstByKeyFresh(all, EdgeKey);
    assert EdgeKey(e) in Keys(all, EdgeKey);
    assert EdgeKey(e) in Keys(kept, EdgeKey);
    u :| u in kept && EdgeKey(u) == EdgeKey(e);
  }

  function InSet(ids: set<string>): ModelNode -> Option<ModelNode>
  {
    (m: ModelNode) => if m.modelId in ids then Some(m) else None
  }

  /**
   * The children and ancestors `print_lineage_results` lists: the result's
   * models whose id is in the respective id set, in model order.
   */
  function DisplayedChildren(results: GraphData): (r: seq<ModelNode>)
    ensures forall m :: m in r <==> m in results.models && m.modelId in ChildIds(results)
  {
    FilterMapSound(results.models, InSet(ChildIds(results)));
    FilterMap(results.models, InSet(ChildIds(results)))
  }

  function DisplayedAncestors(results: GraphData): (r: seq<ModelNode>)
    ensures forall m :: m in r <==> m in results.models && m.modelId in AncestorIds(results)
  {
    FilterMapSound(results.models, InSet(AncestorIds(results)));
    FilterMap(results.models, InSet(AncestorIds(results)))
  }

  /** `next((m for m in models if m.model_id == input_id), None)`. */
  function DisplayedInput(results: GraphData): (r: Option<ModelNode>)
    ensures r.Some? ==> exists i :: && 0 <= i < |results.models| && r.value == results.models[i]
                                    && Str(results.models[i].modelId) == InputIdOf(results)
                                    && forall j :: 0 <= j < i ==> Str(results.models[j].modelId) != InputIdOf(results)
    ensures r.None? ==> forall m :: m in results.models ==> Str(m.modelId) != InputIdOf(results)
  {
    FirstMatch(results.models, InputIdOf(results))
  }

  /** The first model whose id is `id`. */
  function FirstMatch(models: seq<ModelNode>, id: Value): (r: Option<ModelNode>)
    ensures r.Some? ==> exists i :: && 0 <= i < |models| && r.value == models[i] && Str(models[i].modelId) == id
                                    && forall j :: 0 <= j < i ==> Str(models[j].modelId) != id
    ensures r.None? ==> forall m :: m in models ==> Str(m.modelId) != id
  {
    if models == [] then None
    else if Str(models[0].modelId) == id then Some(models[0])
    else FirstMatch(models[1..], id)
  }
}
