/**
 * The Hugging Face Hub search tool: mapping Hub listings and cards to
 * records with defaults, and rendering the records as the text the agent
 * reads. The Hub itself is an oracle: a listing answers a query and a limit
 * with items, or with None when the call raises.
 */
module HuggingFaceSearch {
  import opened Wrappers
  import opened Strings
  import opened Collections

  /** What the Hub reports about one model or dataset; a missing attribute is None. */
  datatype HubItem = HubItem(
    id: string,
    author: Option<string>,
    downloads: Option<nat>,
    likes: Option<nat>,
    tags: Option<seq<string>>,
    pipelineTag: Option<string>,
    libraryName: Option<string>,
    createdAt: Option<string>,     // the timestamp already rendered by `str`
    lastModified: Option<string>)

  /** A Hub listing call: the items for (query, limit), or None when it raises. */
  type Listing = (string, nat) -> Option<seq<HubItem>>

  /** A model search result, as the dictionary `search_models` builds. */
  datatype ModelRecord = ModelRecord(
    id: string, author: string, downloads: nat, likes: nat, tags: seq<string>,
    pipelineTag: string, url: string, createdAt: string, lastModified: string)

  /** A dataset search result, as the dictionary `search_datasets` builds. */
  datatype DatasetRecord = DatasetRecord(
    id: string, author: string, downloads: nat, likes: nat, tags: seq<string>,
    url: string, createdAt: string, lastModified: string)

  /** A model card: the search fields plus the library name and the card text. */
  datatype ModelCard = ModelCard(record: ModelRecord, libraryName: string, cardText: string)

  /** A dataset card: the search fields plus the card text. */
  datatype DatasetCard = DatasetCard(record: DatasetRecord, cardText: string)

  const Unknown := "Unknown"
  const ModelUrlPrefix := "https://huggingface.co/"
  const DatasetUrlPrefix := "https://huggingface.co/datasets/"
  const ModelCardMissing := "Model card not available"
  const DatasetCardMissing := "Dataset card not available"

  // ------------------------------------------------------------- records

  /** Python's `x or default` on an optional string. */
  function TextOr(x: Option<string>, default: string): string
  {
    if x.Some? && x.value != "" then x.value else default
  }

  /** `search_models`' dictionary for one listed model. */
  function ModelRecordOf(m: HubItem): (r: ModelRecord)
    ensures r.id == m.id && r.url == ModelUrlPrefix + m.id
    ensures r.author != "" && r.pipelineTag != "" && r.createdAt != "" && r.lastModified != ""
    ensures r.author == Unknown <==> m.author.None? || m.author.value in {"", Unknown}
    ensures r.pipelineTag == Unknown <==> m.pipelineTag.None? || m.pipelineTag.value in {"", Unknown}
    ensures m.author.Some? && m.author.value != "" ==> r.author == m.author.value
    ensures (r.downloads == 0 <==> m.downloads.None? || m.downloads.value == 0)
    ensures (r.likes == 0 <==> m.likes.None? || m.likes.value == 0)
    ensures r.tags == (if m.tags.Some? then m.tags.value else [])
    ensures m.downloads.Some? ==> r.downloads == m.downloads.value
    ensures m.likes.Some? ==> r.likes == m.likes.value
    ensures m.pipelineTag.Some? && m.pipelineTag.value != "" ==> r.pipelineTag == m.pipelineTag.value
    ensures m.createdAt.Some? && m.createdAt.value != "" ==> r.createdAt == m.createdAt.value
    ensures m.lastModified.Some? && m.lastModified.value != "" ==> r.lastModified == m.lastModified.value
    ensures r.createdAt == Unknown <==> m.createdAt.None? || m.createdAt.value in {"", Unknown}
    ensures r.lastModified == Unknown <==> m.lastModified.None? || m.lastModified.value in {"", Unknown}
  {
    ModelRecord(m.id, TextOr(m.author, Unknown), m.downloads.GetOr(0), m.likes.GetOr(0),
      m.tags.GetOr([]), TextOr(m.pipelineTag, Unknown), ModelUrlPrefix + m.id,
      TextOr(m.createdAt, Unknown), TextOr(m.lastModified, Unknown))
  }

  /** `search_datasets`' dictionary for one listed dataset. */
  function DatasetRecordOf(d: HubItem): (r: DatasetRecord)
    ensures r.id == d.id && r.url == DatasetUrlPrefix + d.id
    ensures r.author != "" && r.createdAt != "" && r.lastModified != ""
    ensures r.author == Unknown <==> d.author.None? || d.author.value in {"", Unknown}
    ensures d.author.Some? && d.author.value != "" ==> r.author == d.author.value
    ensures (r.downloads == 0 <==> d.downloads.None? || d.downloads.value == 0)
    ensures (r.likes == 0 <==> d.likes.None? || d.likes.value == 0)
    ensures r.tags == (if d.tags.Some? then d.tags.value else [])
    ensures d.downloads.Some? ==> r.downloads == d.downloads.value
    ensures d.likes.Some? ==> r.likes == d.likes.value
    ensures d.createdAt.Some? && d.createdAt.value != "" ==> r.createdAt == d.createdAt.value
    ensures d.lastModified.Some? && d.lastModified.value != "" ==> r.lastModified == d.lastModified.value
    ensures r.createdAt == Unknown <==> d.createdAt.None? || d.createdAt.value in {"", Unknown}
    ensures r.lastModified == Unknown <==> d.lastModified.None? || d.lastModified.value in {"", Unknown}
  {
    DatasetRecord(d.id, TextOr(d.author, Unknown), d.downloads.GetOr(0), d.likes.GetOr(0),
      d.tags.GetOr([]), DatasetUrlPrefix + d.id,
      TextOr(d.createdAt, Unknown), TextOr(d.lastModified, Unknown))
  }

  /** The records a listing yields: one per item, in order; none when the call raised. */
  function ModelRecords(listing: Option<seq<HubItem>>): (r: seq<ModelRecord>)
    ensures listing.None? ==> r == []
    ensures listing.Some? ==> (|r| == |listing.value|
      && forall i :: 0 <= i < |r| ==> r[i] == ModelRecordOf(listing.value[i]))
  {
    if listing.None? then []
    else seq(|listing.value|, i requires 0 <= i < |listing.value| => ModelRecordOf(listing.value[i]))
  }

  function DatasetRecords(listing: Option<seq<HubItem>>): (r: seq<DatasetRecord>)
    ensures listing.None? ==> r == []
    ensures listing.Some? ==> (|r| == |listing.value|
      && forall i :: 0 <= i < |r| ==> r[i] == DatasetRecordOf(listing.value[i]))
  {
    if listing.None? then []
    else seq(|listing.value|, i requires 0 <= i < |listing.value| => DatasetRecordOf(listing.value[i]))
  }

  /** `search_models`: the loop that maps each listed model; [] when the listing raises. */
  method SearchModels(list: Listing, query: string, limit: nat) returns (results: seq<ModelRecord>)
    ensures results == ModelRecords(list(query, limit))
  {
    var listing := list(query, limit);
    results := [];
    if listing.Some? {
      var items := listing.value;
      for i := 0 to |items|
        invariant |results| == i
        invariant forall j :: 0 <= j < i ==> results[j] == ModelRecordOf(items[j])
      {
        results := results + [ModelRecordOf(items[i])];
      }
    }
  }

  /** `search_datasets`: the loop that maps each listed dataset; [] when the listing raises. */
  method SearchDatasets(list: Listing, query: string, limit: nat) returns (results: seq<DatasetRecord>)
    ensures results == DatasetRecords(list(query, limit))
  {
    var listing := list(query, limit);
    results := [];
    if listing.Some? {
      var items := listing.value;
      for i := 0 to |items|
        invariant |results| == i
        invariant forall j :: 0 <= j < i ==> results[j] == DatasetRecordOf(items[j])
      {
        results := results + [DatasetRecordOf(items[i])];
      }
    }
  }

  /**
   * `get_model_card`: None when the info call raises (a 404 or any other
   * error); otherwise the record, with the placeholder text when the card
   * text could not be loaded or is empty.
   */
  function GetModelCard(info: Option<HubItem>, cardText: Option<string>): (r: Option<ModelCard>)
    ensures r.Some? <==> info.Some?
    ensures r.Some? ==> (r.value.record == ModelRecordOf(info.value)
      && r.value.libraryName == TextOr(info.value.libraryName, Unknown)
      && r.value.libraryName != "")
    ensures r.Some? && (cardText.None? || cardText.value == "") ==> r.value.cardText == ModelCardMissing
    ensures r.Some? && cardText.Some? && cardText.value != "" ==> r.value.cardText == cardText.value
  {
    if info.None? then None
    else Some(ModelCard(ModelRecordOf(info.value), TextOr(info.value.libraryName, Unknown),
      TextOr(cardText, ModelCardMissing)))
  }

  /** `get_dataset_card`: as `get_model_card`, with the dataset fields and placeholder. */
  function GetDatasetCard(info: Option<HubItem>, cardText: Option<string>): (r: Option<DatasetCard>)
    ensures r.Some? <==> info.Some?
    ensures r.Some? ==> r.value.record == DatasetRecordOf(info.value)
    ensures r.Some? && (cardText.None? || cardText.value == "") ==> r.value.cardText == DatasetCardMissing
    ensures r.Some? && cardText.Some? && cardText.value != "" ==> r.value.cardText == cardText.value
  {
    if info.None? then None
    else Some(DatasetCard(DatasetRecordOf(info.value), TextOr(cardText, DatasetCardMissing)))
  }

  // ---------------------------------------------------------- rendering

  // The section headers carry the characters that stand in the source file:
  // the UTF-8 bytes of a robot and a bar-chart emoji read as Windows-1252.
  const ModelsHeader := "### \U{F0}\U{178}\U{A4}\U{2013} Models Found:\n"
  const DatasetsHeader := "\n### \U{F0}\U{178}\U{201C}\U{160} Datasets Found:\n"
  const NoResults := "No results found on HuggingFace Hub."

  function Min(a: int, b: int): int { if a < b then a else b }

  /** The tag line: only the first five tags, comma separated. */
  function TagsLine(tags: seq<string>): string
  {
    "   - Tags: " + Join(tags[..Min(5, |tags|)], ", ")
  }

  /** The lines for the `n`-th model (numbered from 1). */
  function ModelEntry(n: nat, m: ModelRecord): seq<string>
  {
    [ "**" + NatToString(n) + ". [" + m.id + "](" + m.url + ")**",
      "   - Author: " + m.author,
      "   - Downloads: " + GroupedNat(m.downloads),
      "   - Likes: " + NatToString(m.likes),
      "   - Task: " + m.pipelineTag,
      TagsLine(m.tags),
      "" ]
  }

  /** The lines for the `n`-th dataset (numbered from 1). */
  function DatasetEntry(n: nat, d: DatasetRecord): seq<string>
  {
    [ "**" + NatToString(n) + ". [" + d.id + "](" + d.url + ")**",
      "   - Author: " + d.author,
      "   - Downloads: " + GroupedNat(d.downloads),
      "   - Likes: " + NatToString(d.likes),
      TagsLine(d.tags),
      "" ]
  }

  /** The entries of all models, in order. */
  function ModelBlock(models: seq<ModelRecord>): seq<string>
  {
    Numbered(models, ModelEntry)
  }

  /** The entries of all datasets, in order. */
  function DatasetBlock(datasets: seq<DatasetRecord>): seq<string>
  {
    Numbered(datasets, DatasetEntry)
  }

  /** The output lines of `format_search_results`, before they are joined. */
  function ResultLines(models: seq<ModelRecord>, datasets: seq<DatasetRecord>): seq<string>
  {
    (if models != [] then [ModelsHeader] + ModelBlock(models) else [])
    + (if datasets != [] then [DatasetsHeader] + DatasetBlock(datasets) else [])
    + (if models == [] && datasets == [] then [NoResults] else [])
  }

  /** `format_search_results`: builds the line list step by step, then joins it. */
  method FormatSearchResults(models: seq<ModelRecord>, datasets: seq<DatasetRecord>) returns (text: string)
    ensures text == Join(ResultLines(models, datasets), "\n")
  {
    var output: seq<string> := [];
    if models != [] {
      output := AppendModelEntries(output + [ModelsHeader], models);
    }
    ghost var afterModels := output;
    if datasets != [] {
      output := AppendDatasetEntries(output + [DatasetsHeader], datasets);
    }
    ghost var afterDatasets := output;
    if models == [] && datasets == [] {
      output := output + [NoResults];
    }
    ResultLinesOf(models, datasets, afterModels, afterDatasets, output);
    text := Join(output, "\n");
  }

  /** The three parts of the line list, as the method assembles them. */
  lemma ResultLinesOf(models: seq<ModelRecord>, datasets: seq<DatasetRecord>,
                      afterModels: seq<string>, afterDatasets: seq<string>, output: seq<string>)
    requires afterModels == (if models != [] then [] + [ModelsHeader] + ModelBlock(models) else [])
    requires afterDatasets == afterModels + (if datasets != [] then [DatasetsHeader] + DatasetBlock(datasets) else [])
    requires output == afterDatasets + (if models == [] && datasets == [] then [NoResults] else [])
    ensures output == ResultLines(models, datasets)
  {
    assert [] + [ModelsHeader] == [ModelsHeader];
  }

  /** The model loop of `format_search_results`: each model's entry appended in turn. */
  method AppendModelEntries(output: seq<string>, models: seq<ModelRecord>) returns (lines: seq<string>)
    ensures lines == output + ModelBlock(models)
  {
    lines := output;
    for i := 0 to |models|
      invariant lines == output + ModelBlock(models[..i])
    {
      assert models[..i + 1][..i] == models[..i];
      lines := lines + ModelEntry(i + 1, models[i]);
    }
    assert models[..|models|] == models;
  }

  /** The dataset loop of `format_search_results`. */
  method AppendDatasetEntries(output: seq<string>, datasets: seq<DatasetRecord>) returns (lines: seq<string>)
    ensures lines == output + DatasetBlock(datasets)
  {
    lines := output;
    for i := 0 to |datasets|
      invariant lines == output + DatasetBlock(datasets[..i])
    {
      assert datasets[..i + 1][..i] == datasets[..i];
      lines := lines + DatasetEntry(i + 1, datasets[i]);
    }
    assert datasets[..|datasets|] == datasets;
  }

  /**
   * `search_huggingface_function`: each enabled kind is searched with a limit
   * of 3; a disabled kind contributes no records and no listing call.
   */
  method SearchHuggingFace(listModels: Listing, listDatasets: Listing, query: string,
                           includeModels: bool, includeDatasets: bool) returns (text: string)
    ensures text == Join(ResultLines(
      if includeModels then ModelRecords(listModels(query, 3)) else [],
      if includeDatasets then DatasetRecords(listDatasets(query, 3)) else []), "\n")
  {
    var models: seq<ModelRecord> := [];
    var datasets: seq<DatasetRecord> := [];
    if includeModels {
      models := SearchModels(listModels, query, 3);
    }
    if includeDatasets {
      datasets := SearchDatasets(listDatasets, query, 3);
    }
    text := FormatSearchResults(models, datasets);
  }

  // ------------------------------------------------------------ lemmas

  /**
   * The model block is one seven-line entry per model, in order, the k-th
   * numbered k + 1.
   */
  lemma {:induction false} ModelBlockShape(models: seq<ModelRecord>)
    ensures |ModelBlock(models)| == 7 * |models|
    ensures forall k :: 0 <= k < |models| ==> ModelBlock(models)[7 * k..7 * k + 7] == ModelEntry(k + 1, models[k])
    decreases |models|
  {
    if models != [] {
      var init := models[..|models| - 1];
      var b := ModelBlock(init);
      ModelBlockShape(init);
      assert ModelBlock(models) == b + ModelEntry(|models|, models[|models| - 1]);
      forall k | 0 <= k < |models| ensures ModelBlock(models)[7 * k..7 * k + 7] == ModelEntry(k + 1, models[k]) {
        if k < |init| {
          assert 7 * k + 7 <= |b|;
          assert (b + ModelEntry(|models|, models[|models| - 1]))[7 * k..7 * k + 7] == b[7 * k..7 * k + 7];
          assert init[k] == models[k];
        } else {
          assert 7 * k == |b|;
        }
      }
    }
  }

  /** The dataset block is one six-line entry per dataset, in order, numbered from 1. */
  lemma {:induction false} DatasetBlockShape(datasets: seq<DatasetRecord>)
    ensures |DatasetBlock(datasets)| == 6 * |datasets|
    ensures forall k :: 0 <= k < |datasets| ==> DatasetBlock(datasets)[6 * k..6 * k + 6] == DatasetEntry(k + 1, datasets[k])
    decreases |datasets|
  {
    if datasets != [] {
      var init := datasets[..|datasets| - 1];
      var b := DatasetBlock(init);
      DatasetBlockShape(init);
      assert DatasetBlock(datasets) == b + DatasetEntry(|datasets|, datasets[|datasets| - 1]);
      forall k | 0 <= k < |datasets| ensures DatasetBlock(datasets)[6 * k..6 * k + 6] == DatasetEntry(k + 1, datasets[k]) {
        if k < |init| {
          assert 6 * k + 6 <= |b|;
          assert (b + DatasetEntry(|datasets|, datasets[|datasets| - 1]))[6 * k..6 * k + 6] == b[6 * k..6 * k + 6];
          assert init[k] == datasets[k];
        } else {
          assert 6 * k == |b|;
        }
      }
    }
  }

  /** The placeholder text is the whole output exactly when both lists are empty. */
  lemma NoResultsExactly(models: seq<ModelRecord>, datasets: seq<DatasetRecord>)
    ensures Join(ResultLines(models, datasets), "\n") == NoResults <==> models == [] && datasets == []
  {
    var lines := ResultLines(models, datasets);
    if models == [] && datasets == [] {
      assert lines == [NoResults];
    } else {
      var first := if models != [] then ModelsHeader else DatasetsHeader;
      assert lines[0] == first;
      assert StartsWith(Join(lines, "\n"), first);
      assert first[0] != NoResults[0];
    }
  }
}
