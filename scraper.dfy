/**
 * The Hugging Face crawler (model-lineage/scrapers/huggingface_scraper.py):
 * the relationship classifier, the base-model lookup, the `dataset:` tag
 * extractor, the dataset-card scan and the two crawl loops. The Hub API,
 * model cards, the sibling listing and dataset pages are inputs.
 */
module HuggingFaceScraper {
  import opened Wrappers
  import opened Json
  import opened Strings
  import opened Collections
  import GraphModels

  // ---------------------------------------------------------------- inputs

  /** A timestamp attribute: a datetime, or an object whose `isoformat()` raises. */
  datatype Stamp = Datetime(iso: string) | Unformattable

  /** The fields of a Hub `ModelInfo` the crawler reads. */
  datatype ModelInfo = ModelInfo(
    id: string,
    author: Option<string>,
    downloads: Option<int>,
    likes: Option<int>,
    tags: Option<seq<string>>,
    libraryName: Option<string>,
    pipelineTag: Option<string>,
    private: Option<bool>,
    sha: Option<string>,
    createdAt: Option<Stamp>,
    updatedAt: Option<Stamp>)

  /** The sibling-listing request: a response (whose body may fail to decode) or a raised request. */
  datatype SiblingResponse = Response(status: int, body: Option<Value>) | RequestFailed

  /**
   * One entry of the model listing with what the crawler fetches for it: the
   * card metadata (`None` when loading the card raises) and the sibling
   * listing of its base model.
   */
  datatype ListedModel = ListedModel(info: ModelInfo, card: Option<Record>, siblings: SiblingResponse)

  // ------------------------------------------------------------ records

  const HubUrl := "https://huggingface.co/"

  /** `_create_relationship(source, target, relationship_type, source_type, target_type)`. */
  function MakeRelationship(source: Value, target: string, relType: string, sourceType: string, targetType: string): Record
  {
    map["source" := source, "target" := Str(target), "relationship_type" := Str(relType),
      "source_type" := Str(sourceType), "target_type" := Str(targetType)]
  }

  /** A timestamp field: `None` when `isoformat()` raises. */
  function IsoField(s: Option<Stamp>): Option<Value>
  {
    if s.None? then Some(Null)
    else if s.value.Datetime? then Some(Str(s.value.iso))
    else None
  }

  function OptBool(b: Option<bool>): Value
  {
    if b.Some? then Bool(b.value) else Null
  }

  /** The `isoformat()` text of a formattable timestamp, `None` for a missing one. */
  function IsoText(s: Option<Stamp>): Option<string>
  {
    if s.Some? && s.value.Datetime? then Some(s.value.iso) else None
  }

  function TagsOf(info: ModelInfo): seq<string>
  {
    info.tags.GetOr([])
  }

  /** `_extract_model_info`: the model record, or `None` where the extraction raises. */
  function ExtractModelInfo(info: ModelInfo): (r: Option<Record>)
    ensures r.Some? <==> IsoField(info.createdAt).Some? && IsoField(info.updatedAt).Some?
    ensures r.Some? ==> Get(r.value, "model_id", Null) == Str(info.id)
    ensures r.Some? ==> Get(r.value, "url", Null) == Str(HubUrl + info.id)
    ensures r.Some? ==> Get(r.value, "tags", Null) == StrList(TagsOf(info))
    ensures r.Some? ==>
      && Get(r.value, "author", Null) == OptStr(info.author)
      && Get(r.value, "downloads", Null) == OptInt(info.downloads)
      && Get(r.value, "likes", Null) == OptInt(info.likes)
      && Get(r.value, "library_name", Null) == OptStr(info.libraryName)
      && Get(r.value, "pipeline_tag", Null) == OptStr(info.pipelineTag)
      && Get(r.value, "private", Null) == OptBool(info.private)
      && Get(r.value, "sha", Null) == OptStr(info.sha)
    ensures r.Some? ==>
      && Get(r.value, "created_at", Str("")) == OptStr(IsoText(info.createdAt))
      && Get(r.value, "updated_at", Str("")) == OptStr(IsoText(info.updatedAt))
  {
    var created := IsoField(info.createdAt);
    var updated := IsoField(info.updatedAt);
    if created.None? || updated.None? then None
    else Some(map[
      "model_id" := Str(info.id), "author" := OptStr(info.author),
      "downloads" := OptInt(info.downloads), "likes" := OptInt(info.likes),
      "tags" := StrList(TagsOf(info)), "library_name" := OptStr(info.libraryName),
      "pipeline_tag" := OptStr(info.pipelineTag), "private" := OptBool(info.private),
      "sha" := OptStr(info.sha), "created_at" := created.value,
      "updated_at" := updated.value, "url" := Str(HubUrl + info.id)])
  }

  /**
   * A scraped model record is what the graph builder validates as a
   * `ModelNode`: every field the node declares comes back as the Hub
   * reported it, and the extra `sha` key is ignored. A model whose `private`
   * attribute is missing is rejected, because the node's `private` is a
   * plain `bool`.
   */
  lemma ScrapedModelValidates(info: ModelInfo)
    requires ExtractModelInfo(info).Some?
    ensures info.private.Some? ==>
      var node := GraphModels.ModelNode(info.id, info.author, info.downloads, info.likes, TagsOf(info),
        info.libraryName, info.pipelineTag, info.private.value, HubUrl + info.id,
        IsoText(info.createdAt), IsoText(info.updatedAt));
      GraphModels.ParseModelNode(ExtractModelInfo(info).value) == Some(node)
    ensures info.private.None? ==> GraphModels.ParseModelNode(ExtractModelInfo(info).value).None?
  {
    ScrapedFieldsParse(info);
  }

  /** Each field parser of `ModelNode` reads back the value the scraper stored. */
  lemma ScrapedFieldsParse(info: ModelInfo)
    requires ExtractModelInfo(info).Some?
    ensures var d := ExtractModelInfo(info).value;
      && GraphModels.RequiredStr(d, "model_id") == Some(info.id)
      && GraphModels.RequiredStr(d, "url") == Some(HubUrl + info.id)
      && GraphModels.OptionalStr(d, "author") == Some(info.author)
      && GraphModels.OptionalInt(d, "downloads") == Some(info.downloads)
      && GraphModels.OptionalInt(d, "likes") == Some(info.likes)
      && GraphModels.StrListField(d, "tags") == Some(TagsOf(info))
      && GraphModels.OptionalStr(d, "library_name") == Some(info.libraryName)
      && GraphModels.OptionalStr(d, "pipeline_tag") == Some(info.pipelineTag)
      && GraphModels.OptionalStr(d, "created_at") == Some(IsoText(info.createdAt))
      && GraphModels.OptionalStr(d, "updated_at") == Some(IsoText(info.updatedAt))
      && GraphModels.BoolField(d, "private", false) == (if info.private.Some? then Some(info.private.value) else None)
  {
    var d := ExtractModelInfo(info).value;
    GraphModels.StrItemsOfStrList(TagsOf(info));
    assert GraphModels.RequiredStr(d, "model_id") == Some(info.id);
    assert GraphModels.RequiredStr(d, "url") == Some(HubUrl + info.id);
    assert GraphModels.OptionalStr(d, "author") == Some(info.author);
    assert GraphModels.OptionalInt(d, "downloads") == Some(info.downloads);
    assert GraphModels.OptionalInt(d, "likes") == Some(info.likes);
    assert GraphModels.StrListField(d, "tags") == Some(TagsOf(info));
    assert GraphModels.OptionalStr(d, "library_name") == Some(info.libraryName);
    assert GraphModels.OptionalStr(d, "pipeline_tag") == Some(info.pipelineTag);
    assert GraphModels.OptionalStr(d, "created_at") == Some(IsoText(info.createdAt));
    assert GraphModels.OptionalStr(d, "updated_at") == Some(IsoText(info.updatedAt));
  }

  // ------------------------------------------------ name-pattern cascade

  const QuantPatterns: seq<string> := ["-8bit", "-4bit", "-gguf", "-gptq", "-awq", "-fp8", "-fp4", "-quantized"]
  const AdapterPatterns: seq<string> := ["-adapter", "-lora", "-peft", "-adapterhub"]
  const MergePatterns: seq<string> := ["-merge", "-merged", "-soup"]

  /** `any(p in name for p in patterns)`. */
  predicate AnyIn(name: string, patterns: seq<string>)
  {
    exists k | 0 <= k < |patterns| :: Contains(name, patterns[k])
  }

  /** `_infer_relationship_type_from_name`: the first pattern group that matches decides. */
  function InferRelationshipTypeFromName(modelId: string, baseModel: string): (r: Option<string>)
    ensures AnyIn(Lower(modelId), QuantPatterns) ==> r == Some("quantizations")
    ensures r == Some("finetuned") ==> baseModel != [] && baseModel != modelId
    ensures r.None? ==> baseModel == [] || baseModel == modelId
    ensures r.None? || r.value in {"quantizations", "adapters", "merges", "finetuned"}
  {
    var name := Lower(modelId);
    if AnyIn(name, QuantPatterns) then Some("quantizations")
    else if AnyIn(name, AdapterPatterns) then Some("adapters")
    else if AnyIn(name, MergePatterns) then Some("merges")
    else if baseModel != [] && baseModel != modelId then Some("finetuned")
    else None
  }

  /** The cascade as an ordered table of (patterns, label) strategies. */
  const Cascade: seq<(seq<string>, string)> :=
    [(QuantPatterns, "quantizations"), (AdapterPatterns, "adapters"), (MergePatterns, "merges")]

  /** The label of the first strategy in `table` whose patterns match `name`. */
  function FirstMatchingLabel(name: string, table: seq<(seq<string>, string)>): Option<string>
  {
    if table == [] then None
    else if AnyIn(name, table[0].0) then Some(table[0].1)
    else FirstMatchingLabel(name, table[1..])
  }

  /**
   * The if-chain agrees with the ordered strategy table: the first group that
   * matches wins, and only when none does is the base model compared.
   */
  lemma InferIsFirstMatchingStrategy(modelId: string, baseModel: string)
    ensures InferRelationshipTypeFromName(modelId, baseModel) ==
      if FirstMatchingLabel(Lower(modelId), Cascade).Some? then FirstMatchingLabel(Lower(modelId), Cascade)
      else if baseModel != [] && baseModel != modelId then Some("finetuned") else None
  {
    var name := Lower(modelId);
    var t1 := Cascade[1..];
    var t2 := t1[1..];
    assert t1 == [(AdapterPatterns, "adapters"), (MergePatterns, "merges")];
    assert t2 == [(MergePatterns, "merges")];
    assert t2[1..] == [];
    assert FirstMatchingLabel(name, t2) == if AnyIn(name, MergePatterns) then Some("merges") else None;
    assert FirstMatchingLabel(name, t1) ==
      if AnyIn(name, AdapterPatterns) then Some("adapters") else FirstMatchingLabel(name, t2);
    assert FirstMatchingLabel(name, Cascade) ==
      if AnyIn(name, QuantPatterns) then Some("quantizations") else FirstMatchingLabel(name, t1);
  }

  /** A pattern starting with '-' cannot occur where no '-' is followed by its second character. */
  lemma NotContainsDashPattern(s: string, p: string)
    requires |p| >= 2 && p[0] == '-'
    requires forall i :: 0 <= i < |s| - 1 && s[i] == '-' ==> s[i + 1] != p[1]
    ensures !Contains(s, p)
  {
    forall i | 0 <= i <= |s| - |p|
      ensures !OccursAt(s, p, i)
    {
      assert s[i..i + |p|][0] == s[i] && s[i..i + |p|][1] == s[i + 1];
    }
  }

  /** No pattern of the group occurs in `name`, shown pattern by pattern. */
  lemma NoDashPatternOf(name: string, patterns: seq<string>)
    requires forall k :: 0 <= k < |patterns| ==> |patterns[k]| >= 2 && patterns[k][0] == '-'
    requires forall k, i :: 0 <= k < |patterns| && 0 <= i < |name| - 1 && name[i] == '-' ==> name[i + 1] != patterns[k][1]
    ensures !AnyIn(name, patterns)
  {
    forall k | 0 <= k < |patterns|
      ensures !Contains(name, patterns[k])
    {
      NotContainsDashPattern(name, patterns[k]);
    }
  }

  /** A quantization suffix gives "quantizations". */
  lemma InferQuantizationExample()
    ensures InferRelationshipTypeFromName("base-model-4bit", "base-model") == Some("quantizations")
  {
    assert Lower("base-model-4bit") == "base-model-4bit";
    assert OccursAt("base-model-4bit", QuantPatterns[1], 10);
  }

  /** The suffix test comes before the self-reference test. */
  lemma InferQuantizationOfItself()
    ensures InferRelationshipTypeFromName("x-4bit", "x-4bit") == Some("quantizations")
  {
    assert Lower("x-4bit") == "x-4bit";
    assert OccursAt("x-4bit", QuantPatterns[1], 1);
  }

  /** An adapter suffix gives "adapters". */
  lemma InferAdapterExample()
    ensures InferRelationshipTypeFromName("base-model-lora", "base-model") == Some("adapters")
  {
    var name := "base-model-lora";
    assert Lower(name) == name;
    assert forall i :: 0 <= i < |name| - 1 && name[i] == '-' ==> name[i + 1] in {'m', 'l'};
    NoDashPatternOf(name, QuantPatterns);
    assert OccursAt(name, AdapterPatterns[1], 10);
  }

  /** A merge suffix gives "merges". */
  lemma InferMergeExample()
    ensures InferRelationshipTypeFromName("base-model-merge", "base-model") == Some("merges")
  {
    var name := "base-model-merge";
    assert Lower(name) == name;
    assert forall i :: 0 <= i < |name| - 1 && name[i] == '-' ==> name[i + 1] == 'm';
    NoDashPatternOf(name, QuantPatterns);
    NoDashPatternOf(name, AdapterPatterns);
    assert OccursAt(name, MergePatterns[0], 10);
  }

  /** A derived name with no known suffix gives "finetuned". */
  lemma InferFinetunedExample()
    ensures InferRelationshipTypeFromName("org/custom", "base-model") == Some("finetuned")
  {
    var plain := "org/custom";
    assert Lower(plain) == plain;
    assert forall i :: 0 <= i < |plain| ==> plain[i] != '-';
    NoDashPatternOf(plain, QuantPatterns);
    NoDashPatternOf(plain, AdapterPatterns);
    NoDashPatternOf(plain, MergePatterns);
  }

  // ----------------------------------------------------- sibling listing

  const Categories: seq<string> := ["finetuned", "adapters", "merges", "quantizations"]

  /** `sibling.get("id") if isinstance(sibling, dict) else sibling`. */
  function SiblingId(sibling: Value): Value
  {
    if sibling.Dict? then Get(sibling.fields, "id", Null) else sibling
  }

  /** The listing's `category` entry is a list holding `modelId`. */
  predicate ListsModel(listing: Record, category: string, modelId: string)
  {
    category in listing && listing[category].List?
    && exists k | 0 <= k < |listing[category].items| :: SiblingId(listing[category].items[k]) == Str(modelId)
  }

  /** The first of `cats` whose listing holds `modelId`. */
  function FirstListingCategory(listing: Record, modelId: string, cats: seq<string>): (r: Option<string>)
    ensures r.Some? ==>
      exists k ::
        && 0 <= k < |cats| && cats[k] == r.value
        && ListsModel(listing, cats[k], modelId)
        && forall j :: 0 <= j < k ==> !ListsModel(listing, cats[j], modelId)
    ensures r.None? <==> forall k :: 0 <= k < |cats| ==> !ListsModel(listing, cats[k], modelId)
  {
    if cats == [] then None
    else if ListsModel(listing, cats[0], modelId) then Some(cats[0])
    else
      var r := FirstListingCategory(listing, modelId, cats[1..]);
      assert forall k :: 1 <= k < |cats| ==> cats[k] == cats[1..][k - 1];
      r
  }

  /** The category the sibling listing gives, when it is a 200 response with a dictionary body. */
  function ListedCategory(modelId: string, resp: SiblingResponse): Option<string>
  {
    if resp.Response? && resp.status == 200 && resp.body.Some? && resp.body.value.Dict? then
      FirstListingCategory(resp.body.value.fields, modelId, Categories)
    else None
  }

  /**
   * `_get_relationship_type_from_tree`: the listing decides when it lists the
   * model; otherwise (other status, undecodable or non-dictionary body, raised
   * request, no match) the name cascade does.
   */
  function GetRelationshipTypeFromTree(modelId: string, baseModel: string, resp: SiblingResponse): (r: Option<string>)
    ensures ListedCategory(modelId, resp).Some? ==> r == ListedCategory(modelId, resp)
    ensures ListedCategory(modelId, resp).None? ==> r == InferRelationshipTypeFromName(modelId, baseModel)
    ensures r.Some? ==> r.value in Categories
  {
    var listed := ListedCategory(modelId, resp);
    if listed.Some? then listed else InferRelationshipTypeFromName(modelId, baseModel)
  }

  /** A listing that holds the model under "finetuned" wins over any name pattern. */
  lemma ListingBeatsNamePatterns(modelId: string, baseModel: string, listing: Record)
    requires ListsModel(listing, "finetuned", modelId)
    ensures GetRelationshipTypeFromTree(modelId, baseModel, Response(200, Some(Dict(listing)))) == Some("finetuned")
  {
  }

  // ---------------------------------------------------------- base model

  predicate AuthorTruthy(author: Option<string>)
  {
    author.Some? && author.value != []
  }

  /** `card_data.get("base_model") or card_data.get("base_model_name") or card_data.get("base_model_config")`. */
  function FirstTruthyBase(card: Record): Value
  {
    var a := Get(card, "base_model", Null);
    if Truthy(a) then a
    else
      var b := Get(card, "base_model_name", Null);
      if Truthy(b) then b else Get(card, "base_model_config", Null)
  }

  /** The base-model string before normalisation: a list gives its first element; it must be a non-empty string. */
  function BaseCandidate(card: Record): (r: Option<string>)
    ensures r.Some? ==> r.value != []
    ensures var v := FirstTruthyBase(card);
      r.Some? ==> v == Str(r.value) || (v.List? && v.items != [] && v.items[0] == Str(r.value))
    ensures var v := FirstTruthyBase(card);
      v.Str? && v.s != [] ==> r == Some(v.s)
    ensures var v := FirstTruthyBase(card);
      v.List? && v.items != [] && v.items[0].Str? && v.items[0].s != [] ==> r == Some(v.items[0].s)
  {
    var v := FirstTruthyBase(card);
    if !Truthy(v) then None
    else
      var w := if v.List? then v.items[0] else v;
      if w.Str? && w.s != [] then Some(w.s) else None
  }

  /** `_get_base_model_from_card`: the candidate, prefixed with "author/" when it has no owner. */
  function GetBaseModelFromCard(author: Option<string>, card: Option<Record>): (r: Option<string>)
    ensures card.None? ==> r.None?
    ensures r.Some? ==> r.value != []
    ensures r.Some? && AuthorTruthy(author) ==> '/' in r.value
    ensures card.Some? ==> (r.None? <==> BaseCandidate(card.value).None?)
    ensures card.Some? && BaseCandidate(card.value).Some? && '/' in BaseCandidate(card.value).value ==>
      r == BaseCandidate(card.value)
    ensures card.Some? && BaseCandidate(card.value).Some? && '/' !in BaseCandidate(card.value).value ==>
      var b := BaseCandidate(card.value).value;
      r == Some(if AuthorTruthy(author) then author.value + "/" + b else b)
  {
    if card.None? then None
    else match BaseCandidate(card.value)
      case None => None
      case Some(b) =>
        if '/' !in b && AuthorTruthy(author) then
          assert (author.value + "/" + b)[|author.value|] == '/';
          Some(author.value + "/" + b)
        else Some(b)
  }

  /** A truthy `base_model` decides alone; the other two keys are only fall-backs. */
  lemma BaseModelKeyPriority(author: Option<string>, card: Record)
    requires "base_model" in card && Truthy(card["base_model"])
    ensures GetBaseModelFromCard(author, Some(card))
      == GetBaseModelFromCard(author, Some(map["base_model" := card["base_model"]]))
  {
  }

  /** Examples: an owned id is kept, a bare one is qualified, an empty list gives nothing. */
  lemma BaseModelExamples()
    ensures GetBaseModelFromCard(Some("author"), Some(map["base_model" := Str("base/model")])) == Some("base/model")
    ensures GetBaseModelFromCard(Some("author"), Some(map["base_model" := List([Str("base")])])) == Some("author/base")
    ensures GetBaseModelFromCard(Some("author"), Some(map["base_model" := List([])])) == None
  {
    assert "base/model"[4] == '/';
    assert '/' !in "base";
    var listed := map["base_model" := List([Str("base")])];
    assert FirstTruthyBase(listed) == List([Str("base")]);
    assert BaseCandidate(listed) == Some("base");
    assert "author" + "/" + "base" == "author/base";
  }

  /** `_extract_relationships`: at most one edge, from the model to its base. */
  function ExtractRelationships(lm: ListedModel): (r: seq<Record>)
    ensures |r| <= 1
    ensures |r| == 1 <==> (GetBaseModelFromCard(lm.info.author, lm.card).Some?
      && GetRelationshipTypeFromTree(lm.info.id, GetBaseModelFromCard(lm.info.author, lm.card).value, lm.siblings).Some?)
    ensures |r| == 1 ==> (Get(r[0], "source", Null) == Str(lm.info.id)
      && Get(r[0], "target", Null) == Str(GetBaseModelFromCard(lm.info.author, lm.card).value)
      && Get(r[0], "source_type", Null) == Str("model") && Get(r[0], "target_type", Null) == Str("model")
      && Get(r[0], "relationship_type", Null).Str? && Get(r[0], "relationship_type", Null).s in Categories)
    ensures |r| == 1 ==>
      var base := GetBaseModelFromCard(lm.info.author, lm.card).value;
      Get(r[0], "relationship_type", Null) == Str(GetRelationshipTypeFromTree(lm.info.id, base, lm.siblings).value)
  {
    var base := GetBaseModelFromCard(lm.info.author, lm.card);
    if base.Some? then
      var relType := GetRelationshipTypeFromTree(lm.info.id, base.value, lm.siblings);
      if relType.Some? then [MakeRelationship(Str(lm.info.id), base.value, relType.value, "model", "model")]
      else []
    else []
  }

  // --------------------------------------------------------- dataset tags

  const DatasetPrefix := "dataset:"

  /** The dataset id of a tag: every "dataset:" removed, then stripped; empty ids are dropped. */
  function DatasetIdOfTag(tag: string): (r: Option<string>)
    ensures r.Some? ==> (StartsWith(tag, DatasetPrefix) && r.value != []
      && !IsSpace(r.value[0]) && !IsSpace(r.value[|r.value| - 1]))
  {
    if StartsWith(tag, DatasetPrefix) then
      var id := Strip(ReplaceAll(tag, DatasetPrefix, ""));
      if id != [] then Some(id) else None
    else None
  }

  function DatasetIds(tags: seq<string>): seq<string>
  {
    FilterMap(tags, DatasetIdOfTag)
  }

  /** The stub record for a tag-derived dataset. */
  function DatasetStub(id: string): Record
  {
    map["dataset_id" := Str(id),
      "author" := if '/' in id then Str(BeforeFirst(id, '/')) else Null,
      "downloads" := Null, "tags" := List([])]
  }

  function TrainedOn(source: Value, datasetId: string): Record
  {
    MakeRelationship(source, datasetId, "trained_on", "model", "dataset")
  }

  /** One "trained_on" edge from the model to each dataset id, in order. */
  function TagEdges(modelId: string, ids: seq<string>): seq<Record>
  {
    if ids == [] then [] else TagEdges(modelId, ids[..|ids| - 1]) + [TrainedOn(Str(modelId), ids[|ids| - 1])]
  }

  /** One stub per dataset id, in order. */
  function TagStubs(ids: seq<string>): seq<Record>
  {
    if ids == [] then [] else TagStubs(ids[..|ids| - 1]) + [DatasetStub(ids[|ids| - 1])]
  }

  /** Edge `k` and stub `k` both belong to dataset id `k`. */
  lemma {:induction false} TagEdgesSpec(modelId: string, ids: seq<string>)
    ensures |TagEdges(modelId, ids)| == |TagStubs(ids)| == |ids|
    ensures forall k :: 0 <= k < |ids| ==>
      TagEdges(modelId, ids)[k] == TrainedOn(Str(modelId), ids[k]) && TagStubs(ids)[k] == DatasetStub(ids[k])
  {
    if ids != [] {
      var init := ids[..|ids| - 1];
      TagEdgesSpec(modelId, init);
      assert ids == init + [ids[|ids| - 1]];
      TagSnoc(modelId, init, ids[|ids| - 1]);
    }
  }

  /** What one more tag adds to the edges and the stubs. */
  lemma TagStep(modelId: string, tags: seq<string>, i: nat)
    requires i < |tags|
    ensures var id := DatasetIdOfTag(tags[i]);
      && TagEdges(modelId, DatasetIds(tags[..i + 1]))
         == TagEdges(modelId, DatasetIds(tags[..i])) + (if id.Some? then [TrainedOn(Str(modelId), id.value)] else [])
      && TagStubs(DatasetIds(tags[..i + 1]))
         == TagStubs(DatasetIds(tags[..i])) + (if id.Some? then [DatasetStub(id.value)] else [])
  {
    FilterMapSnoc(tags[..i], tags[i], DatasetIdOfTag);
    assert tags[..i + 1] == tags[..i] + [tags[i]];
    var id := DatasetIdOfTag(tags[i]);
    if id.Some? {
      TagSnoc(modelId, DatasetIds(tags[..i]), id.value);
    } else {
      assert DatasetIds(tags[..i + 1]) == DatasetIds(tags[..i]);
    }
  }

  lemma TagSnoc(modelId: string, ids: seq<string>, id: string)
    ensures TagEdges(modelId, ids + [id]) == TagEdges(modelId, ids) + [TrainedOn(Str(modelId), id)]
    ensures TagStubs(ids + [id]) == TagStubs(ids) + [DatasetStub(id)]
  {
    assert (ids + [id])[..|ids|] == ids;
  }

  /** Every stub a model contributes is keyed by a string id. */
  lemma StubsKeyed(lm: ListedModel)
    ensures forall d :: d in StubsOf(lm) ==> DatasetKey(d).Str?
  {
    TagStubsKeyed(DatasetIds(TagsOf(lm.info)));
  }

  lemma {:induction false} TagStubsKeyed(ids: seq<string>)
    ensures forall d :: d in TagStubs(ids) ==> DatasetKey(d).Str?
  {
    if ids != [] {
      TagStubsKeyed(ids[..|ids| - 1]);
      var stub := DatasetStub(ids[|ids| - 1]);
      assert "dataset_id"[0] == 'd' && "author"[0] == 'a' && "downloads"[1] == 'o' && "tags"[0] == 't';
      assert "dataset_id" in stub && stub["dataset_id"] == Str(ids[|ids| - 1]);
    }
  }

  /** `_extract_dataset_relationships_from_model`: one edge and one stub per usable tag, in tag order. */
  method ExtractDatasetRelationships(modelId: string, tags: seq<string>)
    returns (relationships: seq<Record>, datasets: seq<Record>)
    ensures relationships == TagEdges(modelId, DatasetIds(tags))
    ensures datasets == TagStubs(DatasetIds(tags))
  {
    relationships, datasets := [], [];
    var i := 0;
    while i < |tags|
      invariant 0 <= i <= |tags|
      invariant relationships == TagEdges(modelId, DatasetIds(tags[..i]))
      invariant datasets == TagStubs(DatasetIds(tags[..i]))
    {
      TagStep(modelId, tags, i);
      var id := DatasetIdOfTag(tags[i]);
      if id.Some? {
        relationships := relationships + [TrainedOn(Str(modelId), id.value)];
        datasets := datasets + [DatasetStub(id.value)];
      }
      i := i + 1;
    }
    assert tags[..i] == tags;
  }

  /** A string with no space at either end is its own strip. */
  lemma StripUnpadded(s: string)
    requires s != [] && !IsSpace(s[0]) && !IsSpace(s[|s| - 1])
    ensures Strip(s) == s
  {
    assert TrimLeft(s) == s;
    assert TrimRight(s) == s;
  }

  /** A tag "dataset:<id>" gives back `id` when `id` is non-empty, unpadded and holds no second prefix. */
  lemma DatasetTagRoundTrip(id: string)
    requires id != [] && !IsSpace(id[0]) && !IsSpace(id[|id| - 1])
    requires !Contains(id, DatasetPrefix)
    ensures DatasetIdOfTag(DatasetPrefix + id) == Some(id)
  {
    var tag := DatasetPrefix + id;
    assert tag[..|DatasetPrefix|] == DatasetPrefix && tag[|DatasetPrefix|..] == id;
    ReplaceAllAbsent(id, DatasetPrefix, "");
    assert ReplaceAll(tag, DatasetPrefix, "") == id;
    StripUnpadded(id);
  }

  /** The stub of "owner/name" is authored by `owner`; an id without '/' has no author. */
  lemma DatasetStubAuthor(owner: string, name: string)
    requires '/' !in owner
    ensures DatasetStub(owner + "/" + name)["author"] == Str(owner)
    ensures '/' !in owner + name ==> DatasetStub(owner + name)["author"] == Null
  {
    var id := owner + "/" + name;
    var r := BeforeFirst(id, '/');
    assert id[|owner|] == '/';
    assert r == id[..|owner|] == owner;
  }

  /** Tags without the prefix name no dataset. */
  lemma DatasetTagOtherExample()
    ensures DatasetIdOfTag("license:mit") == None
  {
    assert "license:mit"[0] != DatasetPrefix[0];
  }

  // ------------------------------------------------------ the model crawl

  function ModelRecordOf(lm: ListedModel): Option<Record>
  {
    ExtractModelInfo(lm.info)
  }

  /** Edges contributed by one listed model (none when its record cannot be extracted). */
  function EdgesOf(lm: ListedModel): seq<Record>
  {
    var ids := DatasetIds(TagsOf(lm.info));
    if ExtractModelInfo(lm.info).None? then []
    else ExtractRelationships(lm) + TagEdges(lm.info.id, ids)
  }

  /** Stubs contributed by one listed model, before de-duplication. */
  function StubsOf(lm: ListedModel): seq<Record>
  {
    var ids := DatasetIds(TagsOf(lm.info));
    if ExtractModelInfo(lm.info).None? then []
    else TagStubs(ids)
  }

  function AllEdges(listing: seq<ListedModel>): seq<Record>
  {
    if listing == [] then [] else AllEdges(listing[..|listing| - 1]) + EdgesOf(listing[|listing| - 1])
  }

  function AllStubs(listing: seq<ListedModel>): seq<Record>
  {
    if listing == [] then [] else AllStubs(listing[..|listing| - 1]) + StubsOf(listing[|listing| - 1])
  }

  /** `dataset["dataset_id"]`. */
  function DatasetKey(d: Record): Value
  {
    Get(d, "dataset_id", Null)
  }

  /** Appends the stubs whose ids are not yet seen, keeping the first stub per id. */
  method AddNewStubs(datasets: seq<Record>, seen: set<Value>, ghost prior: seq<Record>, stubs: seq<Record>)
    returns (datasets': seq<Record>, seen': set<Value>)
    requires datasets == FirstByKey(prior, DatasetKey, {}) && seen == Keys(datasets, DatasetKey)
    ensures datasets' == FirstByKey(prior + stubs, DatasetKey, {})
    ensures seen' == Keys(datasets', DatasetKey)
  {
    datasets', seen' := datasets, seen;
    var k := 0;
    assert prior + stubs[..0] == prior;
    while k < |stubs|
      invariant 0 <= k <= |stubs|
      invariant datasets' == FirstByKey(prior + stubs[..k], DatasetKey, {})
      invariant seen' == Keys(datasets', DatasetKey)
    {
      var d := stubs[k];
      FirstByKeyStep(prior, stubs, k, DatasetKey, datasets', seen');
      if DatasetKey(d) !in seen' {
        datasets' := datasets' + [d];
        seen' := seen' + {DatasetKey(d)};
      }
      k := k + 1;
    }
    assert stubs[..k] == stubs;
  }

  /** The crawl's per-model body; `data` is `None` when the model is skipped. */
  method ProcessModel(lm: ListedModel, datasets: seq<Record>, seen: set<Value>, ghost prior: seq<Record>)
    returns (data: Option<Record>, edges: seq<Record>, datasets': seq<Record>, seen': set<Value>)
    requires datasets == FirstByKey(prior, DatasetKey, {}) && seen == Keys(datasets, DatasetKey)
    ensures data == ModelRecordOf(lm) && edges == EdgesOf(lm)
    ensures datasets' == FirstByKey(prior + StubsOf(lm), DatasetKey, {})
    ensures seen' == Keys(datasets', DatasetKey)
  {
    data := ExtractModelInfo(lm.info);
    if data.None? {
      edges, datasets', seen' := [], datasets, seen;
      assert prior + StubsOf(lm) == prior;
      return;
    }
    var modelRels := ExtractRelationships(lm);
    var datasetRels, newDatasets := ExtractDatasetRelationships(lm.info.id, TagsOf(lm.info));
    edges := modelRels + datasetRels;
    datasets', seen' := AddNewStubs(datasets, seen, prior, newDatasets);
  }

  /**
   * `scrape_all_models` over a listing already fetched: every extractable
   * model's record in order, all its edges (not de-duplicated), and the
   * tag-derived dataset stubs with the first stub per id kept.
   */
  method ScrapeAllModels(listing: seq<ListedModel>)
    returns (models: seq<Record>, datasets: seq<Record>, relationships: seq<Record>)
    ensures models == FilterMap(listing, ModelRecordOf)
    ensures relationships == AllEdges(listing)
    ensures datasets == FirstByKey(AllStubs(listing), DatasetKey, {})
  {
    models, datasets, relationships := [], [], [];
    var seen: set<Value> := {};
    var i := 0;
    while i < |listing|
      invariant 0 <= i <= |listing|
      invariant models == FilterMap(listing[..i], ModelRecordOf)
      invariant relationships == AllEdges(listing[..i])
      invariant datasets == FirstByKey(AllStubs(listing[..i]), DatasetKey, {})
      invariant seen == Keys(datasets, DatasetKey)
    {
      var lm := listing[i];
      assert listing[..i + 1] == listing[..i] + [lm];
      assert listing[..i + 1][..i] == listing[..i];
      FilterMapSnoc(listing[..i], lm, ModelRecordOf);
      var data, edges;
      data, edges, datasets, seen := ProcessModel(lm, datasets, seen, AllStubs(listing[..i]));
      if data.Some? {
        models := models + [data.value];
      }
      relationships := relationships + edges;
      i := i + 1;
    }
    assert listing[..i] == listing;
  }

  /** The crawl's dataset list never holds two records with the same id, and loses no id. */
  lemma CrawlDatasetsDistinct(listing: seq<ListedModel>)
    ensures KeysDistinct(FirstByKey(AllStubs(listing), DatasetKey, {}), DatasetKey)
    ensures Keys(FirstByKey(AllStubs(listing), DatasetKey, {}), DatasetKey) == Keys(AllStubs(listing), DatasetKey)
  {
    FirstByKeyFresh(AllStubs(listing), DatasetKey);
  }

  /** A model whose record cannot be extracted contributes nothing, and the crawl goes on. */
  lemma {:induction false} SkippedModelContributesNothing(listing: seq<ListedModel>, lm: ListedModel)
    requires ExtractModelInfo(lm.info).None?
    ensures FilterMap(listing + [lm], ModelRecordOf) == FilterMap(listing, ModelRecordOf)
    ensures AllEdges(listing + [lm]) == AllEdges(listing)
    ensures AllStubs(listing + [lm]) == AllStubs(listing)
  {
    FilterMapSnoc(listing, lm, ModelRecordOf);
    assert (listing + [lm])[..|listing|] == listing;
  }

  // ---------------------------------------------------- dataset-card scan

  /** A heading of the dataset page and the link targets of the container beside it. */
  datatype Heading = Heading(text: Option<string>, hrefs: seq<string>)

  /** An `application/json` script tag: decoded JSON, undecodable text, or no text at all. */
  datatype Script = Decoded(v: Value) | Undecodable | NoText

  /** The parts of a dataset page the card scan reads. */
  datatype DatasetPage = DatasetPage(headings: seq<Heading>, scripts: seq<Script>)

  /** The heading filter: its text mentions a model and training or fine-tuning. */
  predicate MentionsTrainedModels(text: Option<string>)
  {
    text.Some? && text.value != []
    && var t := Lower(text.value);
    Contains(t, "model") && (Contains(t, "train") || Contains(t, "fine-tun") || Contains(t, "finetun"))
  }

  /** `re.search(r"/models/([^/]+/[^/]+)", href)` tried at one position. */
  function ModelPathAt(href: string, i: nat): Option<string>
  {
    if i + 8 <= |href| && href[i..i + 8] == "/models/" then
      var rest := href[i + 8..];
      var owner := BeforeFirst(rest, '/');
      if owner != [] && |owner| < |rest| then
        var name := BeforeFirst(rest[|owner| + 1..], '/');
        if name != [] then Some(owner + "/" + name) else None
      else None
    else None
  }

  function ModelPathFrom(href: string, i: nat): Option<string>
    decreases |href| - i
  {
    if i >= |href| then None
    else if ModelPathAt(href, i).Some? then ModelPathAt(href, i)
    else ModelPathFrom(href, i + 1)
  }

  /** The model id a link points to: "owner/name" after the leftmost usable "/models/". */
  function ModelIdFromHref(href: string): (r: Option<string>)
    ensures r.Some? ==>
      exists k ::
        && 0 < k < |r.value| - 1 && r.value[k] == '/'
        && '/' !in r.value[..k] && '/' !in r.value[k + 1..]
    ensures r.Some? ==> Contains(href, "/models/" + r.value)
    ensures r.None? <==> forall i :: 0 <= i < |href| ==> ModelPathAt(href, i).None?
    ensures r.Some? ==> exists i ::
      && 0 <= i < |href| && ModelPathAt(href, i) == r
      && forall j :: 0 <= j < i ==> ModelPathAt(href, j).None?
  {
    var r := ModelPathFrom(href, 0);
    ModelPathFromLeftmost(href, 0);
    if r.Some? then
      ModelPathFromSound(href, 0);
      r
    else r
  }

  /** The scan from `i` finds the leftmost position at or after `i` where the pattern matches, and fails only when none does. */
  lemma {:induction false} ModelPathFromLeftmost(href: string, i: nat)
    ensures ModelPathFrom(href, i).None? <==> forall j :: i <= j < |href| ==> ModelPathAt(href, j).None?
    ensures ModelPathFrom(href, i).Some? ==> exists j ::
      && i <= j < |href| && ModelPathAt(href, j) == ModelPathFrom(href, i)
      && forall m :: i <= m < j ==> ModelPathAt(href, m).None?
    decreases |href| - i
  {
    if i >= |href| {
      assert ModelPathFrom(href, i).None?;
    } else if ModelPathAt(href, i).Some? {
      assert ModelPathFrom(href, i) == ModelPathAt(href, i);
      assert i <= i < |href| && ModelPathAt(href, i) == ModelPathFrom(href, i);
    } else {
      assert ModelPathFrom(href, i) == ModelPathFrom(href, i + 1);
      ModelPathFromLeftmost(href, i + 1);
      if ModelPathFrom(href, i + 1).Some? {
        var j :| i + 1 <= j < |href| && ModelPathAt(href, j) == ModelPathFrom(href, i + 1)
          && forall m :: i + 1 <= m < j ==> ModelPathAt(href, m).None?;
        assert forall m :: i <= m < j ==> ModelPathAt(href, m).None?;
      } else {
        assert forall j :: i <= j < |href| ==> ModelPathAt(href, j).None?;
      }
    }
  }

  lemma {:induction false} ModelPathFromSound(href: string, i: nat)
    requires ModelPathFrom(href, i).Some?
    ensures var p := ModelPathFrom(href, i).value;
      (exists k :: 0 < k < |p| - 1 && p[k] == '/' && '/' !in p[..k] && '/' !in p[k + 1..])
      && Contains(href, "/models/" + p)
    decreases |href| - i
  {
    if ModelPathAt(href, i).Some? {
      ModelPathAtSound(href, i);
    } else {
      ModelPathFromSound(href, i + 1);
    }
  }

  /** A match at one position is "owner/name" with one slash, and follows "/models/" there. */
  lemma ModelPathAtSound(href: string, i: nat)
    requires ModelPathAt(href, i).Some?
    ensures var p := ModelPathAt(href, i).value;
      (exists k :: 0 < k < |p| - 1 && p[k] == '/' && '/' !in p[..k] && '/' !in p[k + 1..])
      && OccursAt(href, "/models/" + p, i)
  {
    var rest := href[i + 8..];
    var owner := BeforeFirst(rest, '/');
    var name := BeforeFirst(rest[|owner| + 1..], '/');
    var p := owner + "/" + name;
    assert ModelPathAt(href, i).value == p;
    assert p[|owner|] == '/' && p[..|owner|] == owner && p[|owner| + 1..] == name;
    assert 0 < |owner| < |p| - 1 && '/' !in p[..|owner|] && '/' !in p[|owner| + 1..];
    assert StartsWith(rest[|owner|..], "/");
    PrefixConcat(rest, owner, "/");
    assert rest[|owner + "/"|..] == rest[|owner| + 1..];
    PrefixConcat(rest, owner + "/", name);
    assert StartsWith(href[i..], "/models/") && href[i..][8..] == rest;
    PrefixConcat(href[i..], "/models/", p);
    assert href[i..i + |"/models/" + p|] == href[i..][..|"/models/" + p|];
  }

  /** Edges from a heading's links: one per link that names a model. */
  function HeadingEdges(datasetId: string, hrefs: seq<string>): seq<Record>
  {
    if hrefs == [] then []
    else
      var m := ModelIdFromHref(hrefs[0]);
      (if m.Some? then [TrainedOn(Str(m.value), datasetId)] else []) + HeadingEdges(datasetId, hrefs[1..])
  }

  function AllHeadingEdges(datasetId: string, headings: seq<Heading>): seq<Record>
  {
    if headings == [] then []
    else
      (if MentionsTrainedModels(headings[0].text) then HeadingEdges(datasetId, headings[0].hrefs) else [])
      + AllHeadingEdges(datasetId, headings[1..])
  }

  /** Edges from one decoded script: each dictionary with an "id" under "models". */
  function ScriptModelEdges(datasetId: string, models: seq<Value>): seq<Record>
  {
    if models == [] then []
    else
      (if models[0].Dict? && "id" in models[0].fields then [TrainedOn(models[0].fields["id"], datasetId)] else [])
      + ScriptModelEdges(datasetId, models[1..])
  }

  function ScriptEdges(datasetId: string, v: Value): seq<Record>
  {
    if v.Dict? then
      var models := Get(v.fields, "models", List([]));
      if models.List? then ScriptModelEdges(datasetId, models.items) else []
    else []
  }

  /**
   * The scripts in order: undecodable text is skipped, while a script with
   * no text raises and ends the scan with the edges found so far.
   */
  function AllScriptEdges(datasetId: string, scripts: seq<Script>): seq<Record>
  {
    if scripts == [] then []
    else match scripts[0]
      case NoText => []
      case Undecodable => AllScriptEdges(datasetId, scripts[1..])
      case Decoded(v) => ScriptEdges(datasetId, v) + AllScriptEdges(datasetId, scripts[1..])
  }

  /** `_extract_relationships_from_dataset_card`; `None` stands for a failed page request. */
  function DatasetCardRelationships(datasetId: string, page: Option<DatasetPage>): seq<Record>
  {
    if page.None? then []
    else AllHeadingEdges(datasetId, page.value.headings) + AllScriptEdges(datasetId, page.value.scripts)
  }

  /** Every edge the card scan yields points at the dataset with type trained_on. */
  lemma {:induction false} CardEdgesTargetDataset(datasetId: string, page: Option<DatasetPage>)
    ensures forall e :: e in DatasetCardRelationships(datasetId, page) ==>
      Get(e, "target", Null) == Str(datasetId) && Get(e, "relationship_type", Null) == Str("trained_on")
      && Get(e, "target_type", Null) == Str("dataset")
  {
    if page.Some? {
      HeadingEdgesTarget(datasetId, page.value.headings);
      ScriptEdgesTarget(datasetId, page.value.scripts);
    }
  }

  lemma {:induction false} HeadingEdgesTarget(datasetId: string, headings: seq<Heading>)
    ensures forall e :: e in AllHeadingEdges(datasetId, headings) ==>
      exists s :: e == TrainedOn(s, datasetId)
  {
    if headings != [] {
      HeadingEdgesTarget(datasetId, headings[1..]);
      HrefEdgesTarget(datasetId, headings[0].hrefs);
    }
  }

  lemma {:induction false} HrefEdgesTarget(datasetId: string, hrefs: seq<string>)
    ensures forall e :: e in HeadingEdges(datasetId, hrefs) ==> exists s :: e == TrainedOn(s, datasetId)
  {
    if hrefs != [] {
      HrefEdgesTarget(datasetId, hrefs[1..]);
    }
  }

  lemma {:induction false} ScriptEdgesTarget(datasetId: string, scripts: seq<Script>)
    ensures forall e :: e in AllScriptEdges(datasetId, scripts) ==> exists s :: e == TrainedOn(s, datasetId)
  {
    if scripts != [] {
      ScriptEdgesTarget(datasetId, scripts[1..]);
      if scripts[0].Decoded? && scripts[0].v.Dict? {
        var models := Get(scripts[0].v.fields, "models", List([]));
        if models.List? {
          ModelEdgesTarget(datasetId, models.items);
        }
      }
    }
  }

  lemma {:induction false} ModelEdgesTarget(datasetId: string, models: seq<Value>)
    ensures forall e :: e in ScriptModelEdges(datasetId, models) ==> exists s :: e == TrainedOn(s, datasetId)
  {
    if models != [] {
      ModelEdgesTarget(datasetId, models[1..]);
    }
  }

  // ------------------------------------------------------ the dataset crawl

  /** The fields of a Hub `DatasetInfo` the crawler reads. */
  datatype DatasetInfo = DatasetInfo(
    id: string,
    author: Option<string>,
    downloads: Option<int>,
    tags: Option<seq<string>>,
    createdAt: Option<Stamp>,
    updatedAt: Option<Stamp>)

  /** What the Hub answers for one dataset id: its info and its page (`None`: page request failed). */
  datatype DatasetFetch = DatasetFetch(info: DatasetInfo, page: Option<DatasetPage>)

  /**
   * `_extract_dataset_info`, `None` where it raises: only a timestamp whose
   * `isoformat()` raises makes it fail; otherwise the record has the six
   * keys, with None for every missing attribute and `[]` for missing tags.
   */
  function ExtractDatasetInfo(info: DatasetInfo): (r: Option<Record>)
    ensures r.None? <==> info.createdAt == Some(Unformattable) || info.updatedAt == Some(Unformattable)
    ensures r.Some? ==> r.value.Keys == {"dataset_id", "author", "downloads", "tags", "created_at", "updated_at"}
    ensures r.Some? ==> r.value["dataset_id"] == Str(info.id)
    ensures r.Some? ==> (r.value["author"] == Null <==> info.author.None?)
    ensures r.Some? ==> (r.value["downloads"] == Null <==> info.downloads.None?)
    ensures r.Some? ==> r.value["tags"].List? && |r.value["tags"].items| == |info.tags.GetOr([])|
    ensures r.Some? ==> (r.value["created_at"] == Null <==> info.createdAt.None?)
    ensures r.Some? ==> (r.value["updated_at"] == Null <==> info.updatedAt.None?)
    ensures r.Some? ==> && r.value["author"] == OptStr(info.author)
                        && r.value["downloads"] == OptInt(info.downloads)
                        && r.value["tags"] == StrList(info.tags.GetOr([]))
    ensures r.Some? && info.createdAt.Some? ==> r.value["created_at"] == Str(info.createdAt.value.iso)
    ensures r.Some? && info.updatedAt.Some? ==> r.value["updated_at"] == Str(info.updatedAt.value.iso)
  {
    var created := IsoField(info.createdAt);
    var updated := IsoField(info.updatedAt);
    if created.None? || updated.None? then None
    else Some(map[
      "dataset_id" := Str(info.id), "author" := OptStr(info.author),
      "downloads" := OptInt(info.downloads), "tags" := StrList(info.tags.GetOr([])),
      "created_at" := created.value, "updated_at" := updated.value])
  }

  /** `dataset_ids[:limit] if limit else dataset_ids`, with Python's negative slice bound. */
  function LimitIds(ids: seq<string>, limit: Option<int>): (r: seq<string>)
    ensures limit.None? || limit.value == 0 ==> r == ids
    ensures limit.Some? && limit.value > 0 ==> r == ids[..if limit.value < |ids| then limit.value else |ids|]
    ensures limit.Some? && limit.value < 0 ==> r == ids[..if |ids| + limit.value > 0 then |ids| + limit.value else 0]
  {
    if limit.None? || limit.value == 0 then ids
    else if limit.value > 0 then ids[..if limit.value < |ids| then limit.value else |ids|]
    else ids[..if |ids| + limit.value > 0 then |ids| + limit.value else 0]
  }

  /** The record a dataset id yields: skipped without a "/", when the Hub has no answer, or when extraction raises. */
  function DatasetRecordOf(lookup: map<string, DatasetFetch>, id: string): Option<Record>
  {
    if '/' !in id || id !in lookup then None else ExtractDatasetInfo(lookup[id].info)
  }

  function DatasetEdgesOf(lookup: map<string, DatasetFetch>, id: string): seq<Record>
  {
    if DatasetRecordOf(lookup, id).None? then [] else DatasetCardRelationships(id, lookup[id].page)
  }

  function AllDatasetEdges(lookup: map<string, DatasetFetch>, ids: seq<string>): seq<Record>
  {
    if ids == [] then [] else AllDatasetEdges(lookup, ids[..|ids| - 1]) + DatasetEdgesOf(lookup, ids[|ids| - 1])
  }

  /** The records the dataset crawl yields for `ids`, in order. */
  function ScrapedRecords(lookup: map<string, DatasetFetch>, ids: seq<string>): seq<Record>
  {
    FilterMap(ids, id => DatasetRecordOf(lookup, id))
  }

  /**
   * `scrape_datasets` against a Hub that answers `lookup` (an id missing
   * from it is one whose info request raises).
   */
  method ScrapeDatasets(ids: seq<string>, limit: Option<int>, lookup: map<string, DatasetFetch>)
    returns (datasets: seq<Record>, relationships: seq<Record>)
    ensures datasets == ScrapedRecords(lookup, LimitIds(ids, limit))
    ensures relationships == AllDatasetEdges(lookup, LimitIds(ids, limit))
  {
    var selected := LimitIds(ids, limit);
    ghost var recordOf := id => DatasetRecordOf(lookup, id);
    datasets, relationships := [], [];
    var i := 0;
    while i < |selected|
      invariant 0 <= i <= |selected|
      invariant datasets == FilterMap(selected[..i], recordOf)
      invariant relationships == AllDatasetEdges(lookup, selected[..i])
    {
      var id := selected[i];
      assert selected[..i + 1] == selected[..i] + [id];
      assert selected[..i + 1][..i] == selected[..i];
      FilterMapSnoc(selected[..i], id, recordOf);
      assert recordOf(id) == DatasetRecordOf(lookup, id);
      assert AllDatasetEdges(lookup, selected[..i + 1]) == relationships + DatasetEdgesOf(lookup, id);
      if '/' in id && id in lookup {
        var data := ExtractDatasetInfo(lookup[id].info);
        if data.Some? {
          datasets := datasets + [data.value];
          relationships := relationships + DatasetCardRelationships(id, lookup[id].page);
        }
      }
      i := i + 1;
    }
    assert selected[..i] == selected;
  }

  /** Ids without an owner are never looked up: what the Hub says about them changes nothing. */
  lemma {:induction false} UnownedIdsNotLookedUp(ids: seq<string>, lookup: map<string, DatasetFetch>, id: string, f: DatasetFetch)
    requires '/' !in id
    ensures FilterMap(ids, i => DatasetRecordOf(lookup[id := f], i)) == FilterMap(ids, i => DatasetRecordOf(lookup, i))
    ensures AllDatasetEdges(lookup[id := f], ids) == AllDatasetEdges(lookup, ids)
  {
    if ids != [] {
      var init := ids[..|ids| - 1];
      var last := ids[|ids| - 1];
      UnownedIdsNotLookedUp(init, lookup, id, f);
      assert ids == init + [last];
      FilterMapSnoc(init, last, i => DatasetRecordOf(lookup[id := f], i));
      FilterMapSnoc(init, last, i => DatasetRecordOf(lookup, i));
      assert last != id ==> (last in lookup[id := f] <==> last in lookup);
    }
  }
}
