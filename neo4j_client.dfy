/**
 * The property-graph store behind the lineage graph
 * (model-lineage/graph/neo4j_client.py). The database is modelled as an
 * abstract graph: nodes keyed by (label, id), edges keyed by
 * (source node, TYPE, target node), each carrying a property record. The
 * Cypher each method sends is modelled by its effect on that graph.
 */
module Neo4jStore {
  import opened Wrappers
  import opened Json
  import opened Strings
  import opened GraphModels
  import opened Collections

  datatype Label = ModelLabel | DatasetLabel
  datatype NodeKey = NodeKey(nodeLabel: Label, id: string)
  datatype EdgeKey = EdgeKey(source: NodeKey, relType: string, target: NodeKey)
  datatype Graph = Graph(nodes: map<NodeKey, Record>, edges: map<EdgeKey, Record>)

  const EmptyGraph := Graph(map[], map[])

  /** Every edge joins two nodes of the graph. */
  ghost predicate EdgesWellFormed(g: Graph)
  {
    forall e :: e in g.edges ==> e.source in g.nodes && e.target in g.nodes
  }

  /** `MERGE … SET`: find or create the keyed entry, then overwrite the listed properties. */
  function MergeSet<K>(entries: map<K, Record>, key: K, props: Record): map<K, Record>
  {
    entries[key := (if key in entries then entries[key] else map[]) + props]
  }

  // ------------------------------------------------------------- nodes

  function ModelKey(m: ModelNode): NodeKey
  {
    NodeKey(ModelLabel, m.modelId)
  }

  function DatasetKey(d: DatasetNode): NodeKey
  {
    NodeKey(DatasetLabel, d.datasetId)
  }

  /** `create_model_node`: exactly one Model node with the id; edges are untouched. */
  function MergeModel(g: Graph, m: ModelNode): (r: Graph)
    ensures r.nodes.Keys == g.nodes.Keys + {ModelKey(m)}
    ensures r.edges == g.edges
  {
    g.(nodes := MergeSet(g.nodes, ModelKey(m), DumpModelNode(m)))
  }

  /** The merged Model node carries every value of the model; every other node is unchanged. */
  lemma MergeModelValues(g: Graph, m: ModelNode)
    ensures var r := MergeModel(g, m);
      && (forall k :: k in DumpModelNode(m) ==> k in r.nodes[ModelKey(m)] && r.nodes[ModelKey(m)][k] == DumpModelNode(m)[k])
      && (forall n :: n in g.nodes && n != ModelKey(m) ==> r.nodes[n] == g.nodes[n])
  {
  }

  /** `create_dataset_node`: exactly one Dataset node with the id; edges are untouched. */
  function MergeDataset(g: Graph, d: DatasetNode): (r: Graph)
    ensures r.nodes.Keys == g.nodes.Keys + {DatasetKey(d)}
    ensures r.edges == g.edges
  {
    g.(nodes := MergeSet(g.nodes, DatasetKey(d), DumpDatasetNode(d)))
  }

  /** The merged Dataset node carries every value of the dataset; every other node is unchanged. */
  lemma MergeDatasetValues(g: Graph, d: DatasetNode)
    ensures var r := MergeDataset(g, d);
      && (forall k :: k in DumpDatasetNode(d) ==> k in r.nodes[DatasetKey(d)] && r.nodes[DatasetKey(d)][k] == DumpDatasetNode(d)[k])
      && (forall n :: n in g.nodes && n != DatasetKey(d) ==> r.nodes[n] == g.nodes[n])
  {
  }

  /** Overwriting with the same keys: the later write replaces all of the earlier one. */
  lemma MergeSetLastWins<K>(entries: map<K, Record>, key: K, first: Record, second: Record)
    requires first.Keys <= second.Keys
    ensures MergeSet(MergeSet(entries, key, first), key, second) == MergeSet(entries, key, second)
  {
    var base := if key in entries then entries[key] else map[];
    assert (base + first) + second == base + second;
  }

  /** A second write of a model with the same id overwrites every value of the first; writing twice is writing once. */
  lemma MergeModelLastWins(g: Graph, m1: ModelNode, m2: ModelNode)
    requires m1.modelId == m2.modelId
    ensures MergeModel(MergeModel(g, m1), m2) == MergeModel(g, m2)
    ensures MergeModel(MergeModel(g, m2), m2) == MergeModel(g, m2)
  {
    MergeSetLastWins(g.nodes, ModelKey(m2), DumpModelNode(m1), DumpModelNode(m2));
    MergeSetLastWins(g.nodes, ModelKey(m2), DumpModelNode(m2), DumpModelNode(m2));
  }

  /** The same for datasets. */
  lemma MergeDatasetLastWins(g: Graph, d1: DatasetNode, d2: DatasetNode)
    requires d1.datasetId == d2.datasetId
    ensures MergeDataset(MergeDataset(g, d1), d2) == MergeDataset(g, d2)
    ensures MergeDataset(MergeDataset(g, d2), d2) == MergeDataset(g, d2)
  {
    MergeSetLastWins(g.nodes, DatasetKey(d2), DumpDatasetNode(d1), DumpDatasetNode(d2));
    MergeSetLastWins(g.nodes, DatasetKey(d2), DumpDatasetNode(d2), DumpDatasetNode(d2));
  }

  // ------------------------------------------------------------- edges

  /** A type field of "model" selects the Model label; anything else selects Dataset. */
  function LabelOf(nodeType: string): Label
  {
    if nodeType == "model" then ModelLabel else DatasetLabel
  }

  /** An unquoted Cypher name: a letter or '_' followed by letters, digits and '_'. */
  predicate IsCypherName(s: string)
  {
    s != [] && !IsDigit(s[0]) && forall i :: 0 <= i < |s| ==> IsWordChar(s[i])
  }

  function Metadata(rel: Relationship): map<string, Value>
  {
    rel.metadata.GetOr(map[])
  }

  /** The query text parses: the upper-cased type and every metadata key are plain names. */
  predicate QueryParses(rel: Relationship)
  {
    IsCypherName(Upper(rel.relationshipType)) && forall k :: k in Metadata(rel) ==> IsCypherName(k)
  }

  /** A value Neo4j can hold as a property: a scalar, null, or a list of scalars of one kind. */
  predicate IsPropertyValue(v: Value)
  {
    match v
    case Dict(_) => false
    case List(items) =>
      (forall i :: 0 <= i < |items| ==> items[i].Bool?)
      || (forall i :: 0 <= i < |items| ==> items[i].Int?)
      || (forall i :: 0 <= i < |items| ==> items[i].Str?)
    case _ => true
  }

  /** The query parameters: source and target, then the metadata spread over them. */
  function Params(rel: Relationship): Record
  {
    map["source" := Str(rel.source), "target" := Str(rel.target)] + Metadata(rel)
  }

  /** The node a parameter selects; a non-string parameter matches no node. */
  function Endpoint(params: Record, name: string, nodeType: string): Option<NodeKey>
  {
    if name in params && params[name].Str? then Some(NodeKey(LabelOf(nodeType), params[name].s)) else None
  }

  /** The edge the query would merge, when both parameters name nodes. */
  function EdgeOf(rel: Relationship): Option<EdgeKey>
  {
    var src := Endpoint(Params(rel), "source", rel.sourceType);
    var tgt := Endpoint(Params(rel), "target", rel.targetType);
    if src.Some? && tgt.Some? then Some(EdgeKey(src.value, Upper(rel.relationshipType), tgt.value)) else None
  }

  /** Both MATCH clauses find their node. */
  predicate EndpointsExist(g: Graph, rel: Relationship)
  {
    EdgeOf(rel).Some? && EdgeOf(rel).value.source in g.nodes && EdgeOf(rel).value.target in g.nodes
  }

  /**
   * `create_relationship`: `None` when the query raises. A query that does
   * not parse always raises; with an endpoint missing it matches no row and
   * changes nothing; otherwise it merges the edge and sets every metadata
   * key on it, raising when a metadata value cannot be a property.
   */
  function ApplyRelationship(g: Graph, rel: Relationship): (r: Option<Graph>)
    ensures !QueryParses(rel) ==> r.None?
    ensures QueryParses(rel) && !EndpointsExist(g, rel) ==> r == Some(g)
    ensures r.Some? ==> r.value.nodes == g.nodes
    ensures r.Some? && EndpointsExist(g, rel) ==> r.value.edges.Keys == g.edges.Keys + {EdgeOf(rel).value}
    ensures r.Some? && EndpointsExist(g, rel) ==>
      forall k :: k in Metadata(rel) ==>
        && k in r.value.edges[EdgeOf(rel).value]
        && r.value.edges[EdgeOf(rel).value][k] == Metadata(rel)[k]
    ensures r.Some? ==> forall e :: e in g.edges && (EdgeOf(rel).None? || e != EdgeOf(rel).value) ==>
      e in r.value.edges && r.value.edges[e] == g.edges[e]
  {
    if !QueryParses(rel) then None
    else if !EndpointsExist(g, rel) then Some(g)
    else if exists k :: k in Metadata(rel) && !IsPropertyValue(Metadata(rel)[k]) then None
    else Some(g.(edges := MergeSet(g.edges, EdgeOf(rel).value, Metadata(rel))))
  }

  /** The merged edge has the upper-cased type, and each end's label follows its type field. */
  lemma EdgeShape(g: Graph, rel: Relationship)
    requires ApplyRelationship(g, rel).Some? && EndpointsExist(g, rel)
    ensures EdgeOf(rel).value.relType == Upper(rel.relationshipType)
    ensures EdgeOf(rel).value.source.nodeLabel == (if rel.sourceType == "model" then ModelLabel else DatasetLabel)
    ensures EdgeOf(rel).value.target.nodeLabel == (if rel.targetType == "model" then ModelLabel else DatasetLabel)
    ensures "source" !in Metadata(rel) ==> EdgeOf(rel).value.source.id == rel.source
    ensures "target" !in Metadata(rel) ==> EdgeOf(rel).value.target.id == rel.target
  {
  }

  /** Re-asserting an edge that was just merged changes nothing: at most one edge per type and ordered pair. */
  lemma ReassertEdge(g: Graph, rel: Relationship)
    requires ApplyRelationship(g, rel).Some?
    ensures ApplyRelationship(ApplyRelationship(g, rel).value, rel) == ApplyRelationship(g, rel)
    ensures |ApplyRelationship(ApplyRelationship(g, rel).value, rel).value.edges| == |ApplyRelationship(g, rel).value.edges|
  {
    var h := ApplyRelationship(g, rel).value;
    if EndpointsExist(g, rel) {
      assert EndpointsExist(h, rel);
      MergeSetLastWins(g.edges, EdgeOf(rel).value, Metadata(rel), Metadata(rel));
    }
  }

  /** No operation leaves an edge dangling. */
  lemma OperationsKeepEdgesWellFormed(g: Graph, m: ModelNode, d: DatasetNode, rel: Relationship)
    requires EdgesWellFormed(g)
    ensures EdgesWellFormed(MergeModel(g, m)) && EdgesWellFormed(MergeDataset(g, d))
    ensures ApplyRelationship(g, rel).Some? ==> EdgesWellFormed(ApplyRelationship(g, rel).value)
  {
  }

  // --------------------------------------------------------- load_graph

  function MergeModels(g: Graph, models: seq<ModelNode>): Graph
  {
    if models == [] then g else MergeModel(MergeModels(g, models[..|models| - 1]), models[|models| - 1])
  }

  function MergeDatasets(g: Graph, datasets: seq<DatasetNode>): Graph
  {
    if datasets == [] then g else MergeDataset(MergeDatasets(g, datasets[..|datasets| - 1]), datasets[|datasets| - 1])
  }

  /** The relationships in order; one whose query raises is skipped and the rest are still applied. */
  function ApplyRelationships(g: Graph, rels: seq<Relationship>): Graph
  {
    if rels == [] then g
    else
      var h := ApplyRelationships(g, rels[..|rels| - 1]);
      ApplyRelationship(h, rels[|rels| - 1]).GetOr(h)
  }

  /** `load_graph`: all models, then all datasets, then all relationships. */
  function LoadGraph(g: Graph, data: GraphData): Graph
  {
    ApplyRelationships(MergeDatasets(MergeModels(g, data.models), data.datasets), data.relationships)
  }

  lemma {:induction false} MergeModelsNodes(g: Graph, models: seq<ModelNode>)
    ensures MergeModels(g, models).nodes.Keys == g.nodes.Keys + Keys(models, ModelKey)
    ensures MergeModels(g, models).edges == g.edges
  {
    if models != [] {
      var init := models[..|models| - 1];
      MergeModelsNodes(g, init);
      assert models == init + [models[|models| - 1]];
      KeysSnoc(init, models[|models| - 1], ModelKey);
    }
  }

  lemma {:induction false} MergeDatasetsNodes(g: Graph, datasets: seq<DatasetNode>)
    ensures MergeDatasets(g, datasets).nodes.Keys == g.nodes.Keys + Keys(datasets, DatasetKey)
    ensures MergeDatasets(g, datasets).edges == g.edges
  {
    if datasets != [] {
      var init := datasets[..|datasets| - 1];
      MergeDatasetsNodes(g, init);
      assert datasets == init + [datasets[|datasets| - 1]];
      KeysSnoc(init, datasets[|datasets| - 1], DatasetKey);
    }
  }

  lemma {:induction false} ApplyRelationshipsKeepsNodes(g: Graph, rels: seq<Relationship>)
    ensures ApplyRelationships(g, rels).nodes == g.nodes
    ensures EdgesWellFormed(g) ==> EdgesWellFormed(ApplyRelationships(g, rels))
  {
    if rels != [] {
      ApplyRelationshipsKeepsNodes(g, rels[..|rels| - 1]);
    }
  }

  /**
   * After a load the graph holds a node for every model and every dataset
   * of the data and no other new node, and relationships never add or
   * remove nodes, so no edge dangles.
   */
  lemma LoadGraphNodes(g: Graph, data: GraphData)
    requires EdgesWellFormed(g)
    ensures LoadGraph(g, data).nodes.Keys ==
      g.nodes.Keys + Keys(data.models, ModelKey) + Keys(data.datasets, DatasetKey)
    ensures EdgesWellFormed(LoadGraph(g, data))
  {
    var afterModels := MergeModels(g, data.models);
    var afterDatasets := MergeDatasets(afterModels, data.datasets);
    MergeModelsNodes(g, data.models);
    MergeDatasetsNodes(afterModels, data.datasets);
    ApplyRelationshipsKeepsNodes(afterDatasets, data.relationships);
  }

  /** A relationship whose query raises leaves the graph as the earlier ones made it. */
  lemma FailedRelationshipSkipped(g: Graph, rels: seq<Relationship>, rel: Relationship)
    requires ApplyRelationship(ApplyRelationships(g, rels), rel).None?
    ensures ApplyRelationships(g, rels + [rel]) == ApplyRelationships(g, rels)
  {
    assert (rels + [rel])[..|rels|] == rels;
  }

  // --------------------------------------------------------- statistics

  function CountLabel(g: Graph, l: Label): nat
  {
    |set n | n in g.nodes && n.nodeLabel == l|
  }

  function EdgeTypes(g: Graph): set<string>
  {
    set e | e in g.edges :: e.relType
  }

  function TypeCount(g: Graph, t: string): nat
  {
    |set e | e in g.edges && e.relType == t|
  }

  datatype TypeRow = TypeRow(relType: string, count: nat)

  datatype Statistics = Statistics(modelCount: nat, datasetCount: nat, relationshipCount: nat, relationshipTypes: seq<TypeRow>)

  predicate CountsDescending(rows: seq<TypeRow>)
  {
    forall i, j :: 0 <= i < j < |rows| ==> rows[i].count >= rows[j].count
  }

  predicate TypesDistinct(rows: seq<TypeRow>)
  {
    forall i, j :: 0 <= i < j < |rows| ==> rows[i].relType != rows[j].relType
  }

  function RowTypes(rows: seq<TypeRow>): set<string>
  {
    set i | 0 <= i < |rows| :: rows[i].relType
  }

  lemma ConsRowTypes(row: TypeRow, rows: seq<TypeRow>)
    ensures RowTypes([row] + rows) == {row.relType} + RowTypes(rows)
  {
    var r := [row] + rows;
    forall u | u in RowTypes(r) ensures u in {row.relType} + RowTypes(rows) {
      var i :| 0 <= i < |r| && r[i].relType == u;
      if i > 0 {
        assert rows[i - 1].relType == u;
      }
    }
    forall u | u in RowTypes(rows) ensures u in RowTypes(r) {
      var i :| 0 <= i < |rows| && rows[i].relType == u;
      assert r[i + 1].relType == u;
    }
    assert r[0].relType == row.relType;
  }

  /** A row in front of rows with no larger count and none of its type keeps the order and the distinctness. */
  lemma ConsRow(head: TypeRow, rest: seq<TypeRow>)
    requires CountsDescending(rest) && TypesDistinct(rest)
    requires forall j :: 0 <= j < |rest| ==> rest[j].count <= head.count
    requires head.relType !in RowTypes(rest)
    ensures CountsDescending([head] + rest) && TypesDistinct([head] + rest)
    ensures RowTypes([head] + rest) == {head.relType} + RowTypes(rest)
  {
    var r := [head] + rest;
    assert forall j :: 1 <= j < |r| ==> r[j] == rest[j - 1];
    assert forall j :: 0 <= j < |rest| ==> rest[j].relType in RowTypes(rest);
    ConsRowTypes(head, rest);
  }

  /** Places `row` before the first row with a smaller-or-equal count. */
  function InsertDescending(rows: seq<TypeRow>, row: TypeRow): (r: seq<TypeRow>)
    requires CountsDescending(rows) && TypesDistinct(rows)
    requires row.relType !in RowTypes(rows)
    ensures |r| == |rows| + 1
    ensures forall x :: x in r <==> x in rows || x == row
    ensures RowTypes(r) == RowTypes(rows) + {row.relType}
    ensures CountsDescending(r) && TypesDistinct(r)
    decreases |rows|, 1
  {
    if rows == [] || row.count >= rows[0].count then
      ConsRow(row, rows);
      [row] + rows
    else
      InsertDescendingAfterHead(rows, row)
  }

  function InsertDescendingAfterHead(rows: seq<TypeRow>, row: TypeRow): (r: seq<TypeRow>)
    requires CountsDescending(rows) && TypesDistinct(rows)
    requires row.relType !in RowTypes(rows)
    requires rows != [] && row.count < rows[0].count
    ensures |r| == |rows| + 1
    ensures forall x :: x in r <==> x in rows || x == row
    ensures RowTypes(r) == RowTypes(rows) + {row.relType}
    ensures CountsDescending(r) && TypesDistinct(r)
    decreases |rows|, 0
  {
    var tail := rows[1..];
    ConsRowTypes(rows[0], tail);
    assert rows == [rows[0]] + tail;
    assert rows[0].relType !in RowTypes(tail) by {
      forall i | 0 <= i < |tail| ensures tail[i].relType != rows[0].relType {
        assert tail[i] == rows[i + 1];
      }
    }
    var rest := InsertDescending(tail, row);
    assert forall j :: 0 <= j < |rest| ==> rest[j].count <= rows[0].count by {
      forall j | 0 <= j < |rest| ensures rest[j].count <= rows[0].count {
        assert rest[j] in rest;
        if rest[j] != row {
          var k :| 0 <= k < |tail| && tail[k] == rest[j];
          assert tail[k] == rows[k + 1];
        }
      }
    }
    assert row.relType != rows[0].relType;
    ConsRow(rows[0], rest);
    [rows[0]] + rest
  }

  /** The per-type counts of `g`, one row per type, in descending order of count. */
  method TypeCounts(g: Graph) returns (rows: seq<TypeRow>)
    ensures CountsDescending(rows) && TypesDistinct(rows)
    ensures RowTypes(rows) == EdgeTypes(g)
    ensures forall i :: 0 <= i < |rows| ==> rows[i].count == TypeCount(g, rows[i].relType)
  {
    var remaining := EdgeTypes(g);
    rows := [];
    while remaining != {}
      invariant remaining <= EdgeTypes(g)
      invariant CountsDescending(rows) && TypesDistinct(rows)
      invariant RowTypes(rows) == EdgeTypes(g) - remaining
      invariant forall i :: 0 <= i < |rows| ==> rows[i].count == TypeCount(g, rows[i].relType)
      decreases |remaining|
    {
      var t :| t in remaining;
      var row := TypeRow(t, TypeCount(g, t));
      var next := InsertDescending(rows, row);
      assert forall i :: 0 <= i < |next| ==> next[i] in next;
      rows := next;
      remaining := remaining - {t};
    }
  }

  // ------------------------------------------------------------ the client

  /** `Neo4jClient`: a connection to one graph database. */
  class Neo4jClient {
    var graph: Graph
    var connected: bool

    /** Connecting to a database holding `initial`. */
    constructor(initial: Graph)
      ensures graph == initial && connected
    {
      graph := initial;
      connected := true;
    }

    /** `close`. */
    method Close()
      modifies this
      ensures graph == old(graph) && !connected
    {
      connected := false;
    }

    /** `clear_database`: `DETACH DELETE` of every node leaves no node and no edge. */
    method ClearDatabase()
      modifies this
      ensures graph == EmptyGraph && connected == old(connected)
      ensures CountLabel(graph, ModelLabel) == 0 && CountLabel(graph, DatasetLabel) == 0 && |graph.edges| == 0
    {
      graph := EmptyGraph;
    }

    method CreateModelNode(m: ModelNode)
      modifies this
      ensures graph == MergeModel(old(graph), m) && connected == old(connected)
    {
      graph := MergeModel(graph, m);
    }

    method CreateDatasetNode(d: DatasetNode)
      modifies this
      ensures graph == MergeDataset(old(graph), d) && connected == old(connected)
    {
      graph := MergeDataset(graph, d);
    }

    /** `create_relationship`; `raised` reports the exception the query throws. */
    method CreateRelationship(rel: Relationship) returns (raised: bool)
      modifies this
      ensures raised <==> ApplyRelationship(old(graph), rel).None?
      ensures graph == ApplyRelationship(old(graph), rel).GetOr(old(graph)) && connected == old(connected)
    {
      var r := ApplyRelationship(graph, rel);
      raised := r.None?;
      if r.Some? {
        graph := r.value;
      }
    }

    /** `load_graph`: models, then datasets, then relationships. */
    method LoadGraphData(data: GraphData)
      modifies this
      ensures graph == LoadGraph(old(graph), data) && connected == old(connected)
    {
      CreateModelNodes(data.models);
      CreateDatasetNodes(data.datasets);
      CreateRelationships(data.relationships);
    }

    method CreateModelNodes(models: seq<ModelNode>)
      modifies this
      ensures graph == MergeModels(old(graph), models) && connected == old(connected)
    {
      var i := 0;
      while i < |models|
        invariant 0 <= i <= |models|
        invariant graph == MergeModels(old(graph), models[..i]) && connected == old(connected)
      {
        assert models[..i + 1][..i] == models[..i];
        CreateModelNode(models[i]);
        i := i + 1;
      }
      assert models[..i] == models;
    }

    method CreateDatasetNodes(datasets: seq<DatasetNode>)
      modifies this
      ensures graph == MergeDatasets(old(graph), datasets) && connected == old(connected)
    {
      var i := 0;
      while i < |datasets|
        invariant 0 <= i <= |datasets|
        invariant graph == MergeDatasets(old(graph), datasets[..i]) && connected == old(connected)
      {
        assert datasets[..i + 1][..i] == datasets[..i];
        CreateDatasetNode(datasets[i]);
        i := i + 1;
      }
      assert datasets[..i] == datasets;
    }

    /** The relationship loop: each failure is caught and logged, and the loop goes on. */
    method CreateRelationships(rels: seq<Relationship>)
      modifies this
      ensures graph == ApplyRelationships(old(graph), rels) && connected == old(connected)
    {
      var i := 0;
      while i < |rels|
        invariant 0 <= i <= |rels|
        invariant graph == ApplyRelationships(old(graph), rels[..i]) && connected == old(connected)
      {
        assert rels[..i + 1][..i] == rels[..i];
        var raised := CreateRelationship(rels[i]);
        i := i + 1;
      }
      assert rels[..i] == rels;
    }

    /** `get_statistics`. */
    method GetStatistics() returns (stats: Statistics)
      ensures stats.modelCount == CountLabel(graph, ModelLabel)
      ensures stats.datasetCount == CountLabel(graph, DatasetLabel)
      ensures stats.relationshipCount == |graph.edges|
      ensures CountsDescending(stats.relationshipTypes) && TypesDistinct(stats.relationshipTypes)
      ensures RowTypes(stats.relationshipTypes) == EdgeTypes(graph)
      ensures forall i :: 0 <= i < |stats.relationshipTypes| ==>
        stats.relationshipTypes[i].count == TypeCount(graph, stats.relationshipTypes[i].relType)
    {
      var rows := TypeCounts(graph);
      stats := Statistics(CountLabel(graph, ModelLabel), CountLabel(graph, DatasetLabel), |graph.edges|, rows);
    }
  }
}
