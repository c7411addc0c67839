/**
 * LineageGraphBuilder.build_from_data (model-lineage/graph/builder.py):
 * turns scraped dictionaries into validated graph records. Records that
 * fail validation are skipped; an entry that is not a dictionary at all
 * makes the build raise (its error handler calls `.get` on it). When no
 * dataset records are supplied, one stub node is inferred for every
 * distinct target of a `dataset`-typed relationship.
 */
module GraphBuilder {
  import opened Wrappers
  import opened Json
  import opened GraphModels
  import opened Collections

  datatype BuildError =
    | ModelEntryNotDict
    | DatasetEntryNotDict
    | DatasetInferenceFailed  // a non-dictionary entry, or a dataset target that is missing or not a string

  datatype Result<T> = Ok(value: T) | Err(error: BuildError)

  function ModelFromValue(v: Value): Option<ModelNode>
  {
    if v.Dict? then ParseModelNode(v.fields) else None
  }

  function DatasetFromValue(v: Value): Option<DatasetNode>
  {
    if v.Dict? then ParseDatasetNode(v.fields) else None
  }

  function RelationshipFromValue(v: Value): Option<Relationship>
  {
    if v.Dict? then ParseRelationship(v.fields) else None
  }

  predicate AllDicts(xs: seq<Value>)
  {
    forall i :: 0 <= i < |xs| ==> xs[i].Dict?
  }

  /** `rel.get("target_type") == "dataset"`. */
  predicate TargetsDataset(d: Record)
  {
    Get(d, "target_type", Null) == Str("dataset")
  }

  /** An entry inference can read: a dictionary, with a string target when it is dataset-typed. */
  predicate Inferable(rel: Value)
  {
    rel.Dict? && (TargetsDataset(rel.fields) ==> GetStr(rel.fields, "target").Some?)
  }

  /** Inference succeeds: every entry is a dictionary and every dataset-typed one has a string target. */
  predicate InferenceSucceeds(rels: seq<Value>)
  {
    forall i :: 0 <= i < |rels| ==> Inferable(rels[i])
  }

  /** The target of a dataset-typed relationship entry. */
  function DatasetTarget(v: Value): Option<string>
  {
    if v.Dict? && TargetsDataset(v.fields) then GetStr(v.fields, "target") else None
  }

  function Identity(s: string): string
  {
    s
  }

  function Stub(id: string): DatasetNode
  {
    DatasetNode(id, None, None, [])
  }

  /** The ids of the inferred dataset stubs: each distinct dataset target once. */
  function InferredIds(rels: seq<Value>): seq<string>
  {
    FirstByKey(FilterMap(rels, DatasetTarget), Identity, {})
  }

  function Stubs(ids: seq<string>): (r: seq<DatasetNode>)
    ensures |r| == |ids|
    ensures forall k :: 0 <= k < |ids| ==> r[k] == Stub(ids[k])
  {
    seq(|ids|, k requires 0 <= k < |ids| => Stub(ids[k]))
  }

  /** Python truthiness of the optional dataset list. */
  predicate HasDatasets(datasets: Option<seq<Value>>)
  {
    datasets.Some? && datasets.value != []
  }

  /** When the build raises. */
  predicate BuildFails(models: seq<Value>, rels: seq<Value>, datasets: Option<seq<Value>>)
  {
    !AllDicts(models)
    || (HasDatasets(datasets) && !AllDicts(datasets.value))
    || (!HasDatasets(datasets) && !InferenceSucceeds(rels))
  }

  /**
   * The inferred stubs are exactly the distinct dataset targets, each once,
   * as bare nodes with no author, downloads or tags.
   */
  lemma InferredStubsSpec(rels: seq<Value>)
    ensures forall i, j :: 0 <= i < j < |InferredIds(rels)| ==> InferredIds(rels)[i] != InferredIds(rels)[j]
    ensures forall t :: t in InferredIds(rels) <==>
      exists i :: 0 <= i < |rels| && DatasetTarget(rels[i]) == Some(t)
    ensures forall n :: n in Stubs(InferredIds(rels)) ==>
      n.author.None? && n.downloads.None? && n.tags == []
  {
    var targets := FilterMap(rels, DatasetTarget);
    FirstByKeySpec(targets, Identity, {});
    FilterMapSound(rels, DatasetTarget);
    var ids := InferredIds(rels);
    assert Keys(ids, Identity) == Keys(targets, Identity);
    forall t ensures t in ids <==> exists i :: 0 <= i < |rels| && DatasetTarget(rels[i]) == Some(t) {
      if t in ids {
        assert Identity(t) in Keys(targets, Identity);
        var x :| x in targets && Identity(x) == t;
        var v :| v in rels && DatasetTarget(v) == Some(x);
        var i :| 0 <= i < |rels| && rels[i] == v;
      }
      if exists i :: 0 <= i < |rels| && DatasetTarget(rels[i]) == Some(t) {
        var i :| 0 <= i < |rels| && DatasetTarget(rels[i]) == Some(t);
        assert t in targets;
        assert Identity(t) in Keys(ids, Identity);
        var y :| y in ids && Identity(y) == t;
      }
    }
  }

  /** The model loop: validate each entry, skip failures, raise on a non-dictionary. */
  method ConvertModels(models: seq<Value>) returns (nodes: Option<seq<ModelNode>>)
    ensures nodes.None? <==> !AllDicts(models)
    ensures nodes.Some? ==> nodes.value == FilterMap(models, ModelFromValue)
  {
    var acc: seq<ModelNode> := [];
    var i := 0;
    while i < |models|
      invariant 0 <= i <= |models|
      invariant AllDicts(models[..i])
      invariant acc == FilterMap(models[..i], ModelFromValue)
    {
      if !models[i].Dict? {
        return None;
      }
      var node := ParseModelNode(models[i].fields);
      if node.Some? {
        acc := acc + [node.value];
      }
      FilterMapSnoc(models[..i], models[i], ModelFromValue);
      assert models[..i + 1] == models[..i] + [models[i]];
      i := i + 1;
    }
    assert models[..i] == models;
    return Some(acc);
  }

  /** The dataset loop, used when dataset records are supplied. */
  method ConvertDatasets(ds: seq<Value>) returns (nodes: Option<seq<DatasetNode>>)
    ensures nodes.None? <==> !AllDicts(ds)
    ensures nodes.Some? ==> nodes.value == FilterMap(ds, DatasetFromValue)
  {
    var acc: seq<DatasetNode> := [];
    var j := 0;
    while j < |ds|
      invariant 0 <= j <= |ds|
      invariant AllDicts(ds[..j])
      invariant acc == FilterMap(ds[..j], DatasetFromValue)
    {
      if !ds[j].Dict? {
        return None;
      }
      var node := ParseDatasetNode(ds[j].fields);
      if node.Some? {
        acc := acc + [node.value];
      }
      FilterMapSnoc(ds[..j], ds[j], DatasetFromValue);
      assert ds[..j + 1] == ds[..j] + [ds[j]];
      j := j + 1;
    }
    assert ds[..j] == ds;
    return Some(acc);
  }

  /** Dataset inference: the distinct dataset targets, then one stub each. */
  method InferDatasets(relationships: seq<Value>) returns (nodes: Option<seq<DatasetNode>>)
    ensures nodes.None? <==> !InferenceSucceeds(relationships)
    ensures nodes.Some? ==> nodes.value == Stubs(InferredIds(relationships))
  {
    var ids := DistinctTargets(relationships);
    if ids.None? {
      return None;
    }
    var acc: seq<DatasetNode> := [];
    var k := 0;
    while k < |ids.value|
      invariant 0 <= k <= |ids.value|
      invariant acc == Stubs(ids.value[..k])
    {
      acc := acc + [Stub(ids.value[k])];
      k := k + 1;
    }
    assert ids.value[..k] == ids.value;
    return Some(acc);
  }

  /** The first loop of the inference: each dataset target once, in order of first appearance. */
  method DistinctTargets(relationships: seq<Value>) returns (ids: Option<seq<string>>)
    ensures ids.None? <==> !InferenceSucceeds(relationships)
    ensures ids.Some? ==> ids.value == InferredIds(relationships)
  {
    var found: seq<string> := [];
    var seen: set<string> := {};
    var j := 0;
    while j < |relationships|
      invariant 0 <= j <= |relationships|
      invariant InferenceSucceeds(relationships[..j])
      invariant found == InferredIds(relationships[..j])
      invariant seen == Keys(found, Identity)
    {
      var rel := relationships[j];
      if !rel.Dict? {
        return None;
      }
      var target: Option<string> := None;
      if TargetsDataset(rel.fields) {
        target := GetStr(rel.fields, "target");
        if target.None? {
          return None;
        }
      }
      TargetStep(relationships, j, found, seen);
      if target.Some? && target.value !in seen {
        found := found + [target.value];
        seen := seen + {target.value};
      }
      j := j + 1;
    }
    assert relationships[..j] == relationships;
    return Some(found);
  }

  /** What the inference loop does with entry `j`. */
  lemma TargetStep(rels: seq<Value>, j: nat, found: seq<string>, seen: set<string>)
    requires j < |rels| && found == InferredIds(rels[..j]) && seen == Keys(found, Identity)
    ensures InferenceSucceeds(rels[..j + 1]) <==> InferenceSucceeds(rels[..j]) && Inferable(rels[j])
    ensures var t := DatasetTarget(rels[j]);
      && (t.None? ==> InferredIds(rels[..j + 1]) == found)
      && (t.Some? ==> InferredIds(rels[..j + 1]) == found + (if t.value in seen then [] else [t.value]))
      && (t.Some? ==> Keys(found + [t.value], Identity) == seen + {t.value})
  {
    assert rels[..j + 1] == rels[..j] + [rels[j]];
    FilterMapSnoc(rels[..j], rels[j], DatasetTarget);
    var t := DatasetTarget(rels[j]);
    if t.Some? {
      FirstByKeyPush(FilterMap(rels[..j], DatasetTarget), t.value, Identity, found, seen);
    } else {
      assert FilterMap(rels[..j + 1], DatasetTarget) == FilterMap(rels[..j], DatasetTarget);
    }
    assert forall i :: 0 <= i < j ==> rels[..j + 1][i] == rels[..j][i];
  }

  /** The relationship loop: invalid entries (including non-dictionaries) are skipped. */
  method ConvertRelationships(relationships: seq<Value>) returns (rels: seq<Relationship>)
    ensures rels == FilterMap(relationships, RelationshipFromValue)
  {
    rels := [];
    var m := 0;
    while m < |relationships|
      invariant 0 <= m <= |relationships|
      invariant rels == FilterMap(relationships[..m], RelationshipFromValue)
    {
      var rel := RelationshipFromValue(relationships[m]);
      if rel.Some? {
        rels := rels + [rel.value];
      }
      FilterMapSnoc(relationships[..m], relationships[m], RelationshipFromValue);
      assert relationships[..m + 1] == relationships[..m] + [relationships[m]];
      m := m + 1;
    }
    assert relationships[..m] == relationships;
  }

  /**
   * The validation loops keep exactly the valid records: never more than
   * were given, each from an input entry, and no valid entry lost.
   */
  lemma ValidRecordsKept(models: seq<Value>, relationships: seq<Value>)
    ensures |FilterMap(models, ModelFromValue)| <= |models|
    ensures |FilterMap(relationships, RelationshipFromValue)| <= |relationships|
    ensures forall m :: m in FilterMap(models, ModelFromValue) <==> exists v :: v in models && ModelFromValue(v) == Some(m)
    ensures forall e :: e in FilterMap(relationships, RelationshipFromValue) <==>
      exists v :: v in relationships && RelationshipFromValue(v) == Some(e)
  {
    FilterMapSound(models, ModelFromValue);
    FilterMapSound(relationships, RelationshipFromValue);
  }

  /** `build_from_data(models, relationships, datasets)`. */
  method BuildFromData(models: seq<Value>, relationships: seq<Value>, datasets: Option<seq<Value>>)
    returns (r: Result<GraphData>)
    ensures r.Err? <==> BuildFails(models, relationships, datasets)
    ensures r.Ok? ==> r.value.models == FilterMap(models, ModelFromValue)
    ensures r.Ok? ==> r.value.relationships == FilterMap(relationships, RelationshipFromValue)
    ensures r.Ok? && HasDatasets(datasets) ==>
      r.value.datasets == FilterMap(datasets.value, DatasetFromValue)
    ensures r.Ok? && !HasDatasets(datasets) ==> r.value.datasets == Stubs(InferredIds(relationships))
    ensures r.Ok? ==> r.value.metadata.None?
  {
    var modelNodes := ConvertModels(models);
    if modelNodes.None? {
      return Err(ModelEntryNotDict);
    }
    var datasetNodes: Option<seq<DatasetNode>>;
    if HasDatasets(datasets) {
      datasetNodes := ConvertDatasets(datasets.value);
      if datasetNodes.None? {
        return Err(DatasetEntryNotDict);
      }
    } else {
      datasetNodes := InferDatasets(relationships);
      if datasetNodes.None? {
        return Err(DatasetInferenceFailed);
      }
    }
    var rels := ConvertRelationships(relationships);
    r := Ok(GraphData(modelNodes.value, datasetNodes.value, rels, None));
  }
}
