# DataDetox lineage pipeline and search helpers, in Dafny

DataDetox traces where machine-learning models come from. Its
model-lineage pipeline does four things:

- It crawls the Hugging Face Hub and classifies how each model relates to
  its base model (fine-tune, adapter, merge or quantization).
- It collects the datasets models are trained on.
- It saves timestamped snapshots of what it scraped, tracked by DVC.
- It builds a lineage graph from the latest snapshots and loads it into a
  Neo4j property graph.

The search backend works on top of that graph:

- It reads a model's neighbourhood back from the graph.
- It scores the risks of the datasets involved.
- It resolves dataset names to Hub URLs.
- It finds the model's arXiv paper and the datasets the paper names.
- It formats Hub search results for an agent.
- It keeps per-request tool results.

Two RAG loaders cut model documentation into chunks for a vector
collection.

This project models that core as Dafny and proves properties of the model.
Each module follows one source file:

| module | file | source |
|---|---|---|
| `HuggingFaceScraper` | scraper.dfy | model-lineage/scrapers/huggingface_scraper.py |
| `GraphModels` | graph_models.dfy | model-lineage/graph/models.py |
| `GraphBuilder` | builder.dfy | model-lineage/graph/builder.py |
| `Neo4jStore` | neo4j_client.dfy | model-lineage/graph/neo4j_client.py |
| `DataStore` | data_store.dfy | model-lineage/storage/data_store.py |
| `LineagePipeline` | lineage_scraper.dfy | model-lineage/lineage_scraper.py |
| `SearchNeo4j` | search_neo4j.dfy | backend/routers/search/utils/search_neo4j.py |
| `LineageSample` | lineage_sample.dfy | search_neo4j_sample.py |
| `DatasetRisk` | dataset_risk.dfy | backend/routers/search/utils/dataset_risk.py |
| `DatasetResolver` | dataset_resolver.dfy | backend/routers/search/utils/dataset_resolver.py |
| `ArxivExtractor` | arxiv_extractor.dfy | backend/routers/search/utils/arxiv_extractor.py |
| `HuggingFaceSearch` | huggingface_search.dfy | backend/routers/search/utils/huggingface.py |
| `ToolState` | tool_state.dfy | backend/routers/search/utils/tool_state.py |
| `SearchClient` | client.dfy | backend/routers/client.py |
| `RagLocal` | rag_local.dfy | rag/rag_cli.py |
| `RagBucket` | rag_bucket.dfy | backend/datadetox_agents/rag_cli.py |

`Wrappers` (Option), `Json` (the dictionaries the pipeline passes around,
with Python truthiness), `Strings` (ASCII versions of the `str` methods the
code uses) and `Collections` ("convert and skip failures", "keep the first
per key") are shared support.

Everything outside the process is a value given to the model. This covers:

- the Hub's answers, model cards, sibling listings and dataset pages;
- the existing Hub datasets;
- the clock and file modification times;
- the bucket listing and the sentence splitter;
- the agents' outputs.

Where the code changes state step by step, the model does so too:

- the snapshot store, the Neo4j client, the resolver's cache, the request
  state and the vector collection are classes;
- the crawl, de-duplication, accumulation and batching loops are methods
  with loop invariants.

Each method is proved against a function that specifies it.

The agent-side RAG loader repeats the local loader's `chunk_md_data` and
`populate_db_collection`
(backend/datadetox_agents/rag_cli.py lines 101-125 and 153-173). `RagBucket`
therefore reuses `RagLocal.ChunkAll` and `RagLocal.PopulateDbCollection`.

## Model

| member | source | states |
|---|---|---|
| HuggingFaceScraper.ExtractModelInfo | model-lineage/scrapers/huggingface_scraper.py:103-121 | the record exists exactly when both timestamps can be formatted; it carries the model id, the url "https://huggingface.co/<id>", the tags (empty when the Hub gives none), the Hub's own author, downloads, likes, library name, pipeline tag, private flag and sha (None where missing), and each timestamp as its `isoformat()` text or None |
| HuggingFaceScraper.ScrapedFieldsParse | model-lineage/scrapers/huggingface_scraper.py:103-121 | every field parser of the graph's `ModelNode` reads back from the scraped record the value the Hub reported |
| HuggingFaceScraper.ScrapedModelValidates | model-lineage/graph/builder.py:41 | a scraped record validates in the builder as the `ModelNode` holding exactly the Hub's values, the extra `sha` key ignored; a model whose `private` attribute is missing is rejected there, because the node declares `private: bool` |
| HuggingFaceScraper.InferRelationshipTypeFromName | model-lineage/scrapers/huggingface_scraper.py:434-471 | a quantization suffix in the lowercased id always gives "quantizations"; "finetuned" only when the base model is non-empty and differs from the id; no answer only when it is empty or equal; any answer is one of the four category names |
| HuggingFaceScraper.InferIsFirstMatchingStrategy | model-lineage/scrapers/huggingface_scraper.py:441-471 | the if-chain equals the ordered strategy table quantization, adapter, merge: the first group with a match decides, and only when none matches is the base model compared with the id |
| HuggingFaceScraper.InferQuantizationExample | model-lineage/scrapers/huggingface_scraper.py:444-455 | "base-model-4bit" is classified "quantizations" |
| HuggingFaceScraper.InferQuantizationOfItself | model-lineage/scrapers/huggingface_scraper.py:441-469 | a model named like its own base, "x-4bit", is still "quantizations", because the patterns come before the equality test |
| HuggingFaceScraper.InferAdapterExample | model-lineage/scrapers/huggingface_scraper.py:454-460 | "base-model-lora" matches no quantization pattern and is "adapters" |
| HuggingFaceScraper.InferMergeExample | model-lineage/scrapers/huggingface_scraper.py:454-465 | "base-model-merge" matches no quantization or adapter pattern and is "merges" |
| HuggingFaceScraper.InferFinetunedExample | model-lineage/scrapers/huggingface_scraper.py:454-469 | an id with no known suffix and a different base model is "finetuned" |
| HuggingFaceScraper.FirstListingCategory | model-lineage/scrapers/huggingface_scraper.py:419-428 | an answer is the first category, in scan order, whose entry is a list holding the model (as a bare string or as a dictionary's "id"); there is none exactly when no category lists it |
| HuggingFaceScraper.GetRelationshipTypeFromTree | model-lineage/scrapers/huggingface_scraper.py:403-432 | a 200 response with a dictionary body that lists the model decides; any other status, an undecodable body, a raised request or no match falls back to the name cascade; the answer is always one of the four categories |
| HuggingFaceScraper.ListingBeatsNamePatterns | model-lineage/scrapers/huggingface_scraper.py:416-432 | a listing holding the model under "finetuned" wins over every name pattern |
| HuggingFaceScraper.GetBaseModelFromCard | model-lineage/scrapers/huggingface_scraper.py:374-401 | no card gives no base; there is none exactly when the first truthy key yields no non-empty string (an empty list included); an owned candidate is returned as it is, and one without "/" becomes "<author>/<candidate>" with a truthy author and stays bare without one |
| HuggingFaceScraper.BaseModelKeyPriority | model-lineage/scrapers/huggingface_scraper.py:382-386 | a truthy "base_model" decides alone, whatever "base_model_name" and "base_model_config" hold |
| HuggingFaceScraper.BaseModelExamples | model-lineage/scrapers/huggingface_scraper.py:388-397 | an owned id is kept, a bare list element is prefixed with "author/", an empty list gives no base |
| HuggingFaceScraper.ExtractRelationships | model-lineage/scrapers/huggingface_scraper.py:140-170 | at most one record, present exactly when both a base model and a type exist; it runs from the model to its base, both typed "model", and its type is exactly the value the tree lookup returns for the model and its base |
| HuggingFaceScraper.DatasetIdOfTag | model-lineage/scrapers/huggingface_scraper.py:186-193 | an id comes only from a tag starting with "dataset:", and is non-empty with no white space at either end |
| HuggingFaceScraper.TagEdgesSpec | model-lineage/scrapers/huggingface_scraper.py:190-213 | edge k and stub k both belong to dataset id k: as many edges as stubs as ids, each edge "trained_on" from the model to the dataset |
| HuggingFaceScraper.StubsKeyed | model-lineage/scrapers/huggingface_scraper.py:205-213 | every stub a model contributes carries a string "dataset_id" |
| HuggingFaceScraper.ExtractDatasetRelationships | model-lineage/scrapers/huggingface_scraper.py:172-215 | the loop yields one edge and one stub per usable "dataset:" tag, in tag order |
| HuggingFaceScraper.DatasetTagRoundTrip | model-lineage/scrapers/huggingface_scraper.py:192-193 | "dataset:" followed by an unpadded id that holds no second prefix gives that id back |
| HuggingFaceScraper.DatasetStubAuthor | model-lineage/scrapers/huggingface_scraper.py:205 | the stub of "owner/name" is authored by the owner; an id without "/" has no author |
| HuggingFaceScraper.DatasetTagOtherExample | model-lineage/scrapers/huggingface_scraper.py:186-188 | a tag without the prefix names no dataset |
| HuggingFaceScraper.AddNewStubs | model-lineage/scrapers/huggingface_scraper.py:79-82 | appending a model's stubs keeps the first stub per id over everything seen so far, and the seen set stays the set of kept ids |
| HuggingFaceScraper.ProcessModel | model-lineage/scrapers/huggingface_scraper.py:58-92 | one model's body: its record (none when extraction raises), its base and tag edges, and the de-duplicated datasets extended by its stubs |
| HuggingFaceScraper.ScrapeAllModels | model-lineage/scrapers/huggingface_scraper.py:26-101 | every extractable model's record in listing order, all edges without de-duplication, and the first stub per dataset id |
| HuggingFaceScraper.CrawlDatasetsDistinct | model-lineage/scrapers/huggingface_scraper.py:79-82 | the crawl's dataset list never holds two records with one id, and every id any stub had is kept |
| HuggingFaceScraper.SkippedModelContributesNothing | model-lineage/scrapers/huggingface_scraper.py:90-92 | a model whose record cannot be extracted adds no record, no edge and no stub, and the crawl goes on |
| HuggingFaceScraper.ModelIdFromHref | model-lineage/scrapers/huggingface_scraper.py:331-336 | `re.search`: there is no id exactly when the pattern matches at no position; otherwise the id is the match at the leftmost matching position, it is "owner/name" with exactly one "/" and non-empty halves, and it follows "/models/" in the href |
| HuggingFaceScraper.ModelPathFromSound | model-lineage/scrapers/huggingface_scraper.py:334-336 | the leftmost match from a position on has the "owner/name" shape and follows "/models/" |
| HuggingFaceScraper.ModelPathFromLeftmost | model-lineage/scrapers/huggingface_scraper.py:334-336 | the scan from a position fails exactly when the pattern matches at no later position, and otherwise returns the match at the first position where it does |
| HuggingFaceScraper.ModelPathAtSound | model-lineage/scrapers/huggingface_scraper.py:334-336 | a match at one position has the "owner/name" shape and "/models/" plus it occurs there |
| HuggingFaceScraper.CardEdgesTargetDataset | model-lineage/scrapers/huggingface_scraper.py:286-372 | every edge the dataset-card scan yields is "trained_on" and points at the dataset, typed "dataset" |
| HuggingFaceScraper.HeadingEdgesTarget | model-lineage/scrapers/huggingface_scraper.py:322-344 | every edge from the heading links is a "trained_on" edge into the dataset |
| HuggingFaceScraper.HrefEdgesTarget | model-lineage/scrapers/huggingface_scraper.py:331-344 | every edge from one container's links is a "trained_on" edge into the dataset |
| HuggingFaceScraper.ScriptEdgesTarget | model-lineage/scrapers/huggingface_scraper.py:346-365 | every edge from the JSON script tags is a "trained_on" edge into the dataset |
| HuggingFaceScraper.ModelEdgesTarget | model-lineage/scrapers/huggingface_scraper.py:352-363 | every edge from a "models" list is a "trained_on" edge into the dataset |
| HuggingFaceScraper.ExtractDatasetInfo | model-lineage/scrapers/huggingface_scraper.py:272-284 | the record fails exactly when a timestamp cannot be formatted; otherwise it has the six keys, the dataset's id, one tag entry per tag (none when tags are missing), and None exactly for a missing author, download count or timestamp; the author, download count, tag list and timestamps (as `isoformat()` strings) are the dataset's own values |
| HuggingFaceScraper.LimitIds | model-lineage/scrapers/huggingface_scraper.py:235 | no limit or a zero limit keeps every id; a positive one keeps at most that many from the front; a negative one drops that many from the back |
| HuggingFaceScraper.ScrapeDatasets | model-lineage/scrapers/huggingface_scraper.py:217-270 | the loop's records are exactly the usable ids' records in order, and its edges are their card edges in order |
| HuggingFaceScraper.UnownedIdsNotLookedUp | model-lineage/scrapers/huggingface_scraper.py:240-243 | an id without "/" is never looked up: whatever the Hub answers for it changes neither records nor edges |
| HuggingFaceScraper.BaseCandidate | model-lineage/scrapers/huggingface_scraper.py:382-392 | the candidate comes from the first truthy key: its value when that is a non-empty string, the first element of a list when that is a non-empty string, and nothing otherwise |
| GraphModels.SameField | model-lineage/graph/models.py:7-40 | validation reads a present key's value only: two records that agree on a key validate alike there |
| GraphModels.StrItems | model-lineage/graph/models.py:11 | a list accepted as `List[str]` is exactly the string list it came from |
| GraphModels.ParseModelNode | model-lineage/graph/models.py:7-20 | a valid node carries the record's "model_id" and "url" strings; without "tags" its tags are empty, without "private" it is not private; a record lacking "model_id" or "url" is invalid |
| GraphModels.ParseDatasetNode | model-lineage/graph/models.py:23-29 | a valid node carries the record's "dataset_id"; without "tags" its tags are empty; a record lacking "dataset_id" is invalid |
| GraphModels.ParseRelationship | model-lineage/graph/models.py:32-40 | a valid edge carries the record's five required strings unchanged; without "metadata" it has none |
| GraphModels.StrItemsOfStrList | model-lineage/graph/models.py:11 | a list of strings validates as itself |
| GraphModels.ModelNodeRoundTrip | model-lineage/graph/models.py:7-20 | validating a dumped model node gives the node back |
| GraphModels.DumpedIdentity | model-lineage/graph/models.py:10-20 | the dumped id, url, author and timestamps validate to the node's own |
| GraphModels.DumpedCounts | model-lineage/graph/models.py:12-17 | the dumped download and like counts and the private flag validate to the node's own |
| GraphModels.DumpedDescriptors | model-lineage/graph/models.py:14-16 | the dumped tags, library name and pipeline tag validate to the node's own |
| GraphModels.DatasetNodeRoundTrip | model-lineage/graph/models.py:23-29 | validating a dumped dataset node gives the node back |
| GraphModels.ModelNodeIgnoresExtraKeys | model-lineage/graph/models.py:7-20 | a key `ModelNode` does not declare, such as the scraper's "sha", does not affect validation |
| GraphModels.ModelNodeDefaults | model-lineage/graph/models.py:10-20 | a record of only "model_id" and "url" is valid, with empty tags, not private, and every other field None |
| GraphBuilder.Stubs | model-lineage/graph/builder.py:69-71 | one stub per id, in order, each a bare `DatasetNode(dataset_id=t, tags=[])` |
| GraphBuilder.InferredStubsSpec | model-lineage/graph/builder.py:63-71 | the inferred ids are distinct and are exactly the targets of dataset-typed relationships; every stub has no author, no downloads and empty tags |
| GraphBuilder.ConvertModels | model-lineage/graph/builder.py:37-47 | the model loop raises exactly when an entry is not a dictionary; otherwise it keeps the valid nodes in input order |
| GraphBuilder.ConvertDatasets | model-lineage/graph/builder.py:49-60 | the dataset loop raises exactly when an entry is not a dictionary; otherwise it keeps the valid nodes in input order |
| GraphBuilder.InferDatasets | model-lineage/graph/builder.py:62-71 | inference fails exactly when an entry is not a dictionary or a dataset-typed one lacks a string target; otherwise it gives one stub per distinct target |
| GraphBuilder.DistinctTargets | model-lineage/graph/builder.py:64-67 | the set-filling loop yields each dataset target once, in order of first appearance, or fails as inference does |
| GraphBuilder.TargetStep | model-lineage/graph/builder.py:65-67 | one more relationship adds its dataset target exactly when it is new, and fails the inference exactly when it cannot be read |
| GraphBuilder.ConvertRelationships | model-lineage/graph/builder.py:73-81 | the relationship loop keeps the valid edges in input order |
| GraphBuilder.ValidRecordsKept | model-lineage/graph/builder.py:38-93 | no more models or edges come out than went in; each output record comes from an input entry, and no valid entry is lost |
| GraphBuilder.BuildFromData | model-lineage/graph/builder.py:14-93 | the build raises exactly in the failure cases above; otherwise models and edges are the valid records in order, the datasets are the valid supplied records when the list is truthy and the inferred stubs when it is not, and there is no metadata |
| Neo4jStore.MergeModel | model-lineage/graph/neo4j_client.py:45-62 | `MERGE` on the model id: afterwards the graph holds exactly one more Model key (or none more when it existed), and no edge changes |
| Neo4jStore.MergeModelValues | model-lineage/graph/neo4j_client.py:47-62 | the merged Model node carries every dumped value of the model, overwriting earlier ones; every other node is unchanged |
| Neo4jStore.MergeDataset | model-lineage/graph/neo4j_client.py:64-74 | `MERGE` on the dataset id: exactly one Dataset node with that key afterwards, and no edge changes |
| Neo4jStore.MergeDatasetValues | model-lineage/graph/neo4j_client.py:66-74 | the merged Dataset node carries the dataset's author, downloads and tags; every other node is unchanged |
| Neo4jStore.MergeSetLastWins | model-lineage/graph/neo4j_client.py:48-58 | a `SET` of the same or more keys replaces everything an earlier `SET` wrote |
| Neo4jStore.MergeModelLastWins | model-lineage/graph/neo4j_client.py:45-62 | writing a model again overwrites every value of the earlier write with the same id, and writing the same model twice is writing it once |
| Neo4jStore.MergeDatasetLastWins | model-lineage/graph/neo4j_client.py:64-74 | the same for datasets |
| Neo4jStore.ApplyRelationship | model-lineage/graph/neo4j_client.py:76-111 | a query that does not parse raises; with an endpoint missing it matches no row and changes nothing; otherwise it merges the one edge, sets each metadata key on it, and leaves nodes and every other edge alone |
| Neo4jStore.EdgeShape | model-lineage/graph/neo4j_client.py:78-96 | the merged edge's type is the upper-cased relationship type, each end's label is Model exactly when its type field is "model", and the ends are the given source and target ids |
| Neo4jStore.ReassertEdge | model-lineage/graph/neo4j_client.py:92-96 | re-asserting an edge just merged changes nothing, so the edge count stays the same: at most one edge per type and ordered pair |
| Neo4jStore.OperationsKeepEdgesWellFormed | model-lineage/graph/neo4j_client.py:45-111 | no node write and no edge write leaves an edge whose end is not a node |
| Neo4jStore.MergeModelsNodes | model-lineage/graph/neo4j_client.py:122-123 | the model loop adds exactly the models' keys and changes no edge |
| Neo4jStore.MergeDatasetsNodes | model-lineage/graph/neo4j_client.py:126-127 | the dataset loop adds exactly the datasets' keys and changes no edge |
| Neo4jStore.ApplyRelationshipsKeepsNodes | model-lineage/graph/neo4j_client.py:130-136 | the relationship loop never changes a node and keeps every edge attached |
| Neo4jStore.LoadGraphNodes | model-lineage/graph/neo4j_client.py:113-138 | after a load the graph holds the earlier nodes plus one per model and dataset of the data, and no edge dangles |
| Neo4jStore.FailedRelationshipSkipped | model-lineage/graph/neo4j_client.py:131-136 | a relationship whose query raises leaves the graph as the earlier ones made it, and the loop goes on |
| Neo4jStore.ConsRowTypes | model-lineage/graph/neo4j_client.py:169-173 | the types of a row list are the head's type plus the rest's |
| Neo4jStore.ConsRow | model-lineage/graph/neo4j_client.py:169-173 | a row with the largest count and a new type may go in front of a descending, duplicate-free list |
| Neo4jStore.InsertDescending | model-lineage/graph/neo4j_client.py:169-173 | inserting a row of a new type keeps the list descending by count and duplicate-free, and adds exactly that row |
| Neo4jStore.InsertDescendingAfterHead | model-lineage/graph/neo4j_client.py:169-173 | the same when the row goes after the head |
| Neo4jStore.TypeCounts | model-lineage/graph/neo4j_client.py:169-181 | one row per edge type present, each with that type's edge count, in descending order of count |
| Neo4jStore.Neo4jClient.constructor | model-lineage/graph/neo4j_client.py:16-31 | a new client is connected to the database it was given, whose contents it leaves as they are |
| Neo4jStore.Neo4jClient.Close | model-lineage/graph/neo4j_client.py:33-37 | closing leaves the graph alone and disconnects |
| Neo4jStore.Neo4jClient.ClearDatabase | model-lineage/graph/neo4j_client.py:39-43 | afterwards there is no Model node, no Dataset node and no edge |
| Neo4jStore.Neo4jClient.CreateModelNode | model-lineage/graph/neo4j_client.py:45-62 | the graph becomes the model merged into it |
| Neo4jStore.Neo4jClient.CreateDatasetNode | model-lineage/graph/neo4j_client.py:64-74 | the graph becomes the dataset merged into it |
| Neo4jStore.Neo4jClient.CreateRelationship | model-lineage/graph/neo4j_client.py:76-111 | it raises exactly when the query fails, and only a successful query changes the graph |
| Neo4jStore.Neo4jClient.LoadGraphData | model-lineage/graph/neo4j_client.py:113-138 | the graph becomes the load of all models, then all datasets, then all relationships |
| Neo4jStore.Neo4jClient.CreateModelNodes | model-lineage/graph/neo4j_client.py:122-123 | the loop merges the models in order |
| Neo4jStore.Neo4jClient.CreateDatasetNodes | model-lineage/graph/neo4j_client.py:126-127 | the loop merges the datasets in order |
| Neo4jStore.Neo4jClient.CreateRelationships | model-lineage/graph/neo4j_client.py:130-136 | the loop applies each relationship in order, catching each failure and going on |
| Neo4jStore.Neo4jClient.GetStatistics | model-lineage/graph/neo4j_client.py:163-185 | the Model count, the Dataset count, the total edge count, and the per-type rows: one per type present, with its count, in descending order of count |
| DataStore.Pad2 | model-lineage/storage/data_store.py:119 | a two-digit field of the `%Y-%m-%d_%H-%M-%S` stamp is exactly two characters |
| DataStore.Pad4 | model-lineage/storage/data_store.py:119 | the year field of the stamp is exactly four characters |
| DataStore.FormatTimestamp | model-lineage/storage/data_store.py:119 | every stamp has the fixed length 19 |
| DataStore.LexLessConcat | model-lineage/storage/data_store.py:119 | string order over equal-length heads compares the heads first, then the tails |
| DataStore.Pad2Order | model-lineage/storage/data_store.py:119 | zero-padded two-digit fields compare as strings exactly as their numbers compare, and are equal exactly when the numbers are |
| DataStore.Pad4Order | model-lineage/storage/data_store.py:119 | the same for the four-digit year |
| DataStore.LexLessAfterSeparator | model-lineage/storage/data_store.py:119 | a common separator in front does not change the string order |
| DataStore.PaddedStep | model-lineage/storage/data_store.py:119 | one padded field followed by the rest orders as the field's number, then the rest |
| DataStore.TimestampOrder | model-lineage/storage/data_store.py:118-119 | one stamp sorts before another exactly when its clock reading is earlier (both directions) |
| DataStore.SnapshotNameOrder | model-lineage/storage/data_store.py:121 | snapshot names `<type>_<stamp>.json` of one type sort in the order of their clock readings, so the greatest name is the newest snapshot |
| DataStore.FilterRelationships | model-lineage/storage/data_store.py:158-191 | a relationship is kept exactly when it was given and its type is in the allowed list (the default list when none is given); never more records than given |
| DataStore.FilterRelationshipsAppend | model-lineage/storage/data_store.py:181-185 | filtering a concatenation is the concatenation of the filtered parts, so order is kept |
| DataStore.FilterSingleton | model-lineage/storage/data_store.py:181-185 | a single record is kept exactly when its type is allowed |
| DataStore.FilterRelationshipsIdempotent | model-lineage/storage/data_store.py:158-191 | filtering twice with the same list gives the same result as filtering once |
| DataStore.DefaultFilterDropsOthers | model-lineage/storage/data_store.py:172-179 | with the default list a `based_on` record, or one without a type, is dropped |
| DataStore.DvcRelativePath | model-lineage/storage/data_store.py:257-279 | the path handed to `dvc add`: a file under the project root maps to its path relative to the root; `/app/data/...` maps to `data/...`, other `/app/...` paths to `model-lineage/...`, a path containing `data/model-lineage` is cut there, and no mapping exists exactly when none of these applies |
| DataStore.DvcRelativePathDocker | model-lineage/storage/data_store.py:261-272 | the two container mounts map as the comments there describe |
| DataStore.LatestName | model-lineage/storage/data_store.py:228-232 | no name exactly when no file matches; otherwise a matching name greater than every other match |
| DataStore.InsertByMtime | model-lineage/storage/data_store.py:393 | insertion into a newest-first list keeps it newest first and adds exactly the new name |
| DataStore.InsertBelowHead | model-lineage/storage/data_store.py:393 | the inductive step of the insertion: keeping the head in front of an already sorted tail |
| DataStore.SortByMtime | model-lineage/storage/data_store.py:393 | the files sorted by modification time, newest first, as a permutation of the listing |
| DataStore.DvcSiblingIsNotJson | model-lineage/storage/data_store.py:407-410 | a `.dvc` sibling never matches the `.json` pattern, so it is never ranked itself |
| DataStore.JsonIsNotDvc | model-lineage/storage/data_store.py:407-410 | a `.json` file is never taken for a `.dvc` sibling |
| DataStore.DeleteFilesShrinks | model-lineage/storage/data_store.py:396-412 | the deletion loop only removes files and changes no content |
| DataStore.DeleteFilesKeeps | model-lineage/storage/data_store.py:396-412 | a data file that is not a victim survives the loop |
| DataStore.DeleteFilesVictim | model-lineage/storage/data_store.py:396-412 | a victim is still there afterwards exactly when its unlink failed |
| DataStore.DeleteFilesSibling | model-lineage/storage/data_store.py:407-410 | a deleted victim's `.dvc` file is gone too unless that unlink failed |
| DataStore.CleanupOutcome | model-lineage/storage/data_store.py:393-412 | the newest `keep` files stay untouched; each older one is gone exactly when its unlink did not fail, and so is its `.dvc` file; no kept file is older than a deleted one; files outside the pattern are untouched |
| DataStore.RankedBySort | model-lineage/storage/data_store.py:384-393 | sorting the listing ranks exactly the matching files, each once, newest first |
| DataStore.Enumerate | model-lineage/storage/data_store.py:384 | the directory listing holds every matching name exactly once |
| DataStore.DVCDataStore.constructor | model-lineage/storage/data_store.py:18-31 | the store works under `<base>/raw` over the files already there |
| DataStore.DVCDataStore.SaveData | model-lineage/storage/data_store.py:99-131 | writes the data to `raw/<subdirectory>/<type>_<stamp>.json`, the stamp defaulting to the clock, returns that path and changes no other file |
| DataStore.DVCDataStore.SaveScrapedModels | model-lineage/storage/data_store.py:133-137 | the same under `raw/models/models_<stamp>.json` |
| DataStore.DVCDataStore.SaveScrapedDatasets | model-lineage/storage/data_store.py:139-143 | the same under `raw/datasets/datasets_<stamp>.json` |
| DataStore.DVCDataStore.SaveRelationships | model-lineage/storage/data_store.py:145-156 | only the relationships of an allowed type are written, under `raw/relationships/` |
| DataStore.DVCDataStore.SaveMetadata | model-lineage/storage/data_store.py:193-209 | the record is stamped with the timestamp and written to `raw/metadata/scrape_metadata_<stamp>.json` |
| DataStore.DVCDataStore.LoadLatestFile | model-lineage/storage/data_store.py:211-234 | `None` exactly when the directory is missing or nothing matches; otherwise the contents of the greatest matching name, which is greater than every other match (`IsLatest`) |
| DataStore.DVCDataStore.LoadLatestModels | model-lineage/storage/data_store.py:236-238 | the models snapshot whose name is greater than every other `models_*.json` name (`IsLatest`), or `None` when there is none |
| DataStore.DVCDataStore.LoadLatestRelationships | model-lineage/storage/data_store.py:240-242 | the relationships snapshot whose name is greater than every other `relationships_*.json` name (`IsLatest`), or `None` when there is none |
| DataStore.DVCDataStore.CleanupOldFiles | model-lineage/storage/data_store.py:348-419 | nothing changes for a non-positive count, an unknown type, a missing directory or at most `keep` files; otherwise the files are ranked newest first and all after the first `keep` are deleted with their `.dvc` files |
| DataStore.DVCDataStore.DeleteLoop | model-lineage/storage/data_store.py:396-412 | the loop leaves the directory the deletion function describes and touches no other directory |
| DataStore.IsLatestUnique | model-lineage/storage/data_store.py:228-234 | the newest snapshot is determined: two results that are both the newest match are equal |
| LineagePipeline.IndexByIdSpec | model-lineage/lineage_scraper.py:47 | the id index holds exactly the ids present, each pointing at the last record carrying it |
| LineagePipeline.MergeShape | model-lineage/lineage_scraper.py:46-53 | the merge keeps every tag-derived record at its position and under its id, and appends exactly the scraped records with an unseen id, in scraped order |
| LineagePipeline.MergeUntouched | model-lineage/lineage_scraper.py:46-53 | a tag-derived record that no scraped record names comes through unchanged |
| LineagePipeline.MergeUpdatesLast | model-lineage/lineage_scraper.py:51-53 | a scraped record with a known id has all its fields copied into the indexed record by `update` |
| LineagePipeline.BuildIndex | model-lineage/lineage_scraper.py:47 | the loop builds the id index the comprehension describes |
| LineagePipeline.MergeScrapedDatasets | model-lineage/lineage_scraper.py:47-53 | the merge loop computes the merge function, whose shape the lemmas above state |
| LineagePipeline.StubIdsAreStrings | model-lineage/lineage_scraper.py:39 | every tag-derived dataset carries a string id, so none is lost when ids are collected |
| LineagePipeline.DistinctIds | model-lineage/lineage_scraper.py:39 | the collected dataset ids are distinct and are exactly the ids of the records |
| LineagePipeline.CrawlHub | model-lineage/lineage_scraper.py:35-55 | the models are those the model crawl produced; for some order of the distinct tag-derived dataset ids (`CrawlOrder`), the datasets are the tag-derived list with the records the dataset crawl returned for those ids merged in, and the relationships are the model edges followed by the dataset-card edges of those ids; the tag-derived datasets keep their positions and ids |
| LineagePipeline.SaveSnapshots | model-lineage/lineage_scraper.py:57-71 | the four paths carry the one timestamp, and the store afterwards is `SavedSnapshots` of the store before: the models and datasets snapshots with all their records, the relationships snapshot with the records of an allowed type, and the metadata with the unfiltered counts and the timestamp |
| LineagePipeline.SavedSnapshotsContents | model-lineage/lineage_scraper.py:57-71 | after the saves each snapshot file holds its records (relationships only of an allowed type) and the metadata counts the unfiltered models and relationships |
| LineagePipeline.SavedSnapshotsKeep | model-lineage/lineage_scraper.py:57-71 | the saves overwrite no file of the store other than the four snapshots of the timestamp |
| LineagePipeline.PruneSnapshots | model-lineage/lineage_scraper.py:74-78 | the models, datasets, relationships and metadata snapshots are pruned in that order, each as `cleanup_old_files` describes (`Pruned`) |
| LineagePipeline.PrunedNothing | model-lineage/lineage_scraper.py:74-78 | a keep count of zero or less deletes nothing |
| LineagePipeline.ScrapeModels | model-lineage/lineage_scraper.py:27-83 | the four paths returned all carry the one clock timestamp; for some order of the dataset crawl, the store holds the four snapshots of exactly what the crawl found, saved under that timestamp, and is then pruned exactly when a keep count is given (`ScrapedStore`) |
| LineagePipeline.BuildGraphFrom | model-lineage/lineage_scraper.py:92-113 | missing or empty models is an error; a missing or empty relationship snapshot counts as empty; the build succeeds exactly when the snapshots are `Buildable` (a non-empty model list and relationships the builder accepts), and then the graph is `Built`: the parsed models, stubs for the datasets the relationships name, the parsed relationships, no metadata |
| LineagePipeline.BuildGraph | model-lineage/lineage_scraper.py:86-105 | with no models snapshot in the store the stage fails with "No models found"; otherwise the latest models and relationships snapshots (by name, `IsLatest`) are read, the build succeeds exactly when they are buildable, and the graph is the one built from them |
| LineagePipeline.LoadToNeo4j | model-lineage/lineage_scraper.py:116-139 | the database is cleared only when asked, then loaded; the statistics count the resulting graph; the client is closed in every case |
| LineagePipeline.WithFull | model-lineage/lineage_scraper.py:209-214 | `--full` turns on all four stage flags and changes nothing else; without it the flags are as given |
| LineagePipeline.PlannedStagesSpec | model-lineage/lineage_scraper.py:209-240 | a stage runs exactly when its flag is on (the build also for a load), nothing runs with no flag, and `--full` runs all four |
| LineagePipeline.AppendLater | model-lineage/lineage_scraper.py:223-240 | adding a later stage keeps the stages in pipeline order |
| LineagePipeline.PlannedStagesOrdered | model-lineage/lineage_scraper.py:223-240 | the stages always run in the order scrape, build, load, commit |
| LineagePipeline.CommitMessage | model-lineage/lineage_scraper.py:148-149 | the given message, or "Lineage data update: " followed by the clock reading |
| LineagePipeline.RunPipeline | model-lineage/lineage_scraper.py:216-248 | the completed stages are a prefix of the planned ones, all of them exactly when no error occurs, and an error leaves only the scrape done; without the scrape flag the store is untouched, with it the store is what `scrape_models` leaves; when a build is planned, the error and the loaded database are those of building from the latest snapshots and loading into the cleared or existing database (`BuiltAndLoaded`); a commit message results exactly when the commit ran |
| LineagePipeline.RanStages | model-lineage/lineage_scraper.py:223-240 | the stages run are the scrape when planned followed by the later stages that completed: a prefix of the plan, the whole plan exactly when nothing failed |
| LineagePipeline.RunLaterStages | model-lineage/lineage_scraper.py:227-240 | the build, load and commit stages as flagged; a failed build ends the run with nothing after the scrape done; otherwise the build and load outcome is `BuiltAndLoaded` and the commit message is the given or dated one |
| LineagePipeline.RunBuildAndLoad | model-lineage/lineage_scraper.py:228-236 | a failed build stops both stages; the build fails exactly when the latest snapshots are not buildable; otherwise the load follows exactly when asked, and the database is the built graph loaded into the cleared or existing database |
| LineagePipeline.RunLoad | model-lineage/lineage_scraper.py:236 | the database after the load stage, cleared first only when asked |
| LineagePipeline.RunScrape | model-lineage/lineage_scraper.py:224-225 | the store afterwards is what `scrape_models` leaves for some order of the dataset crawl |
| SearchNeo4j.ParseHFModel | backend/routers/search/utils/search_neo4j.py:27-38 | a model parses only with a `model_id`, keeps that id as given, and has no tags when the record has none; extra keys are ignored |
| SearchNeo4j.ParseHFDataset | backend/routers/search/utils/search_neo4j.py:41-45 | a dataset parses only with a `dataset_id`, keeps that id, and has no tags when the record has none |
| SearchNeo4j.StoredModelParses | backend/routers/search/utils/search_neo4j.py:27-38 | a node stored by the loader parses back into the model's own fields, whatever extra properties the node carries |
| SearchNeo4j.SameModelFields | backend/routers/search/utils/search_neo4j.py:30 | two records that agree on the eight model fields parse the same way: other keys are ignored |
| SearchNeo4j.DumpedModelParses | backend/routers/search/utils/search_neo4j.py:27-38 | a loader record of a model parses back into that model's fields (the round trip from the graph builder to the backend) |
| SearchNeo4j.StoredDatasetParses | backend/routers/search/utils/search_neo4j.py:41-45 | a stored dataset node parses back into its id and tags |
| SearchNeo4j.ParseNode | backend/routers/search/utils/search_neo4j.py:75-83 | `_parse_node` yields the entity exactly when the record parses as the asked class, and `None` otherwise |
| SearchNeo4j.SearchModels | backend/routers/search/utils/search_neo4j.py:94-109 | exactly the rows that parse as models are returned, and nothing else |
| SearchNeo4j.SearchDatasets | backend/routers/search/utils/search_neo4j.py:112-127 | exactly the rows that parse as datasets are returned, and nothing else |
| SearchNeo4j.MakeEntity | backend/routers/search/utils/search_neo4j.py:130-136 | a record with `model_id` becomes a model, otherwise one with `dataset_id` a dataset, otherwise the "cannot determine entity type" error |
| SearchNeo4j.ConvertNodes | backend/routers/search/utils/search_neo4j.py:167-172 | the conversion succeeds exactly when every node converts, and then converts each node in place |
| SearchNeo4j.ConvertTriples | backend/routers/search/utils/search_neo4j.py:176-183 | the same for the relationship triples |
| SearchNeo4j.Limit | backend/routers/search/utils/search_neo4j.py:173-174 | `[:MAX_COUNT]` keeps a prefix of at most ten items, all of them when there are fewer |
| SearchNeo4j.SearchQueryResult | backend/routers/search/utils/search_neo4j.py:159-189 | no rows gives the empty graph; otherwise the first ten converted nodes and, cut separately, the first ten converted relationships; any failing conversion or a missing relationship list is an error |
| SearchNeo4j.TruncationIsIndependent | backend/routers/search/utils/search_neo4j.py:173-188 | the two cuts are independent: a returned relationship can name a node that is not among the returned nodes |
| SearchNeo4j.SearchQuery | backend/routers/search/utils/search_neo4j.py:139-194 | the answer above; a successful non-empty answer is stored under "search_neo4j" in the current request, and nothing is stored otherwise |
| SearchNeo4j.SearchKeepsRowOrder | backend/routers/search/utils/search_neo4j.py:94-127 | both searches keep the order of the rows the query returns (`ORDER BY n.downloads DESC`): the result for rows `a + b` is the result for `a` followed by that for `b`, and a single row gives its entity exactly when it parses |
| LineageSample.ModelOfRowSpec | search_neo4j_sample.py:58-70 | a converted model row keeps the row's id; a row without the id column fails; a missing url column becomes the empty url, while a null url (a node without the property) fails validation; a missing or empty tag list gives the empty list |
| LineageSample.DatasetOfRow | search_neo4j_sample.py:211-219 | a converted dataset row keeps the row's id; a row without the id column fails |
| LineageSample.EdgeOfRow | search_neo4j_sample.py:119-128 | an edge keeps the row's source and target; model edge types are lowercased, dataset edge types kept as given; no metadata is attached |
| LineageSample.ConvertModels | search_neo4j_sample.py:91-106 | the model rows convert exactly when every row converts, each in place |
| LineageSample.ConvertDatasets | search_neo4j_sample.py:211-219 | the same for dataset rows |
| LineageSample.ConvertEdges | search_neo4j_sample.py:183-192 | the same for edge rows |
| LineageSample.DedupModels | search_neo4j_sample.py:250-256 | the loop keeps the first model of each id, in order (the first-occurrence function, whose distinctness and coverage are proved generically) |
| LineageSample.DedupRelationships | search_neo4j_sample.py:261-268 | the loop keeps the first relationship of each (source, target, type), in order |
| LineageSample.DedupKeepsEveryId | search_neo4j_sample.py:243-256 | the de-duplicated models have distinct ids, are all models that came back, and lose no child's or ancestor's id |
| LineageSample.SearchModelLineage | search_neo4j_sample.py:29-281 | an unknown id is an error; the search succeeds exactly when the id is found and every row converts; the models are then the first node per id of the input model, the children and the ancestors in that order, the relationships the first edge per (source, target, type) of the child, parent and dataset edges in that order, the datasets those found for the input and its ancestors; every child and ancestor id is kept, and the summary counts children and ancestors before de-duplication with `is_base_model` exactly when there are no ancestors |
| LineageSample.DisplayedIdsOfSearch | search_neo4j_sample.py:290-304 | on a search result, every child edge into the input model makes its source a displayed child, every parent edge out of it makes its target a displayed ancestor, and a displayed ancestor is always the target of a model edge leaving the input model |
| LineageSample.GrandparentNotDisplayed | search_neo4j_sample.py:277 | in the chain a -> b -> c the summary counts two ancestors of a, while the loop at lines 301-308 displays only the direct parent b |
| LineageSample.DisplayedChildren | search_neo4j_sample.py:307 | exactly the result's models whose id is a child id are shown as children |
| LineageSample.DisplayedAncestors | search_neo4j_sample.py:308 | exactly the result's models whose id is an ancestor id are shown as ancestors |
| LineageSample.DisplayedInput | search_neo4j_sample.py:309 | the input model shown is the first of the result's models with the summary's id, and none is shown when no model carries it |
| LineageSample.FirstMatch | search_neo4j_sample.py:309 | `next(...)` gives the first model with the id, and `None` exactly when none has it |
| DatasetRisk.HasWordContains | backend/routers/search/utils/dataset_risk.py:37-43 | a whole-word match is also a substring match, so the English check is never looser than the synthetic one's substring test |
| DatasetRisk.EnglishNeedsWholeWord | backend/routers/search/utils/dataset_risk.py:40-43 | the word boundaries matter: "often" is not flagged as English although it contains "en", while "c4-en" is |
| DatasetRisk.Score | backend/routers/search/utils/dataset_risk.py:51-68 | the score is at most 5, zero exactly when no flag is raised, and at least 2 for a synthetic source |
| DatasetRisk.RaisedMeaning | backend/routers/search/utils/dataset_risk.py:51-71 | each indicator is raised exactly when its flag holds, none exactly when the score is zero, and "no_specific_flags" is never among the raised ones |
| DatasetRisk.Assess | backend/routers/search/utils/dataset_risk.py:46-84 | a dataset is assessed exactly when it is a dictionary whose name and description normalise without raising; otherwise the call raises |
| DatasetRisk.AssessMeaning | backend/routers/search/utils/dataset_risk.py:46-84 | the name defaults to "unknown"; `url_present` is the url's truthiness and the negation of the unverified flag; the level is high for a score of 3 or more, medium for 1 or 2, low for 0; the indicators are the raised flags, or only "no_specific_flags" exactly when the level is low |
| DatasetRisk.DatasetRiskOf | backend/routers/search/utils/dataset_risk.py:46-84 | the step-by-step accumulation computes the assessment above |
| DatasetRisk.Accumulate | backend/routers/search/utils/dataset_risk.py:51-68 | the four checks, in order, append exactly the raised indicators and add up exactly the score |
| DatasetRisk.CountLevel | backend/routers/search/utils/dataset_risk.py:122 | a level count never exceeds the number of assessments |
| DatasetRisk.CountLevelsSum | backend/routers/search/utils/dataset_risk.py:73-77 | every assessment has exactly one of the three levels, so the counts add up to the number of assessments |
| DatasetRisk.RiskContextBalanced | backend/routers/search/utils/dataset_risk.py:105-127 | every model is either listed or counted as unknown; every listed model has datasets; each global level count is the number of listed datasets at that level, and the three add up to the datasets assessed |
| DatasetRisk.AssessDatasets | backend/routers/search/utils/dataset_risk.py:119-122 | the inner loop assesses each dataset in turn and counts each level exactly |
| DatasetRisk.BuildDatasetRiskContext | backend/routers/search/utils/dataset_risk.py:87-127 | a missing map gives the empty context; otherwise the models are folded in, in order |
| DatasetRisk.AddModel | backend/routers/search/utils/dataset_risk.py:107-124 | one model: no datasets counts an unknown model, otherwise its assessments are listed and counted |
| DatasetRisk.RiskContextPrefix | backend/routers/search/utils/dataset_risk.py:107-124 | once a model's entry raises, the whole context raises |
| DatasetResolver.Resolve | backend/routers/search/utils/dataset_resolver.py:83-119 | a url already present is returned as it is; any url produced is non-empty |
| DatasetResolver.ResolveSound | backend/routers/search/utils/dataset_resolver.py:100-119 | a resolved url is the Hub page of an id the Hub reports as existing: the lowercased, stripped name itself, or, for a name without "/", its known mapping; no url means none of the ids tried exists; for a name with "/" a url comes back exactly when that id exists |
| DatasetResolver.EnrichOneShape | backend/routers/search/utils/dataset_resolver.py:134-155 | an enriched entry keeps the name and description; unless the name is truthy and the url falsy it is a plain copy; otherwise it carries the resolved Hub url, or keeps the url and gains the search url for the lowercased name |
| DatasetResolver.EnrichAllShape | backend/routers/search/utils/dataset_resolver.py:132-157 | the enriched list has the input's length and order, entry by entry, and is produced exactly when no entry raises |
| DatasetResolver.Resolver.constructor | backend/routers/search/utils/dataset_resolver.py:12-16 | the module starts with an empty cache against a fixed Hub |
| DatasetResolver.Resolver.CheckDatasetExists | backend/routers/search/utils/dataset_resolver.py:19-48 | a cached answer is returned without a Hub call; otherwise one call is made, "found" and "404" are cached as true and false, and any other error answers true without caching; no cached answer ever changes |
| DatasetResolver.Resolver.ResolveDatasetUrl | backend/routers/search/utils/dataset_resolver.py:83-119 | returns the value the cascade describes, makes no Hub call when a url is present and at most two otherwise, and keeps every cached answer |
| DatasetResolver.Resolver.EnrichDatasetInfo | backend/routers/search/utils/dataset_resolver.py:122-157 | the loop computes the enriched list described above, however the cache was filled before |
| DatasetResolver.Resolver.EnrichEntry | backend/routers/search/utils/dataset_resolver.py:134-155 | the body of the loop for one entry |
| DatasetResolver.MappingWins | backend/routers/search/utils/dataset_resolver.py:108-112 | for a name without "/" whose known mapping exists on the Hub, the mapping's page is returned, whether or not the name itself also exists |
| ArxivExtractor.NewModelPaperInfo | backend/routers/search/utils/arxiv_extractor.py:24-34 | a paper record keeps the model id and link, and a missing dataset list becomes the empty list |
| ArxivExtractor.DigitRun | backend/routers/search/utils/arxiv_extractor.py:41-42 | the digit run starting at a position is maximal: all digits, followed by a non-digit or the end |
| ArxivExtractor.IdLength | backend/routers/search/utils/arxiv_extractor.py:41-42 | a matched id lies within the text |
| ArxivExtractor.SearchFrom | backend/routers/search/utils/arxiv_extractor.py:97-100 | `re.search` for one pattern: the match found is the leftmost from the start position, and no match means none anywhere after it |
| ArxivExtractor.ExtractArxivIdSpec | backend/routers/search/utils/arxiv_extractor.py:95-101 | no id exactly when neither the abs nor the pdf pattern matches; otherwise the group of the leftmost abs match, or, when there is none, of the leftmost pdf match; the id has the form digits, dot, digits |
| ArxivExtractor.CapturedIsId | backend/routers/search/utils/arxiv_extractor.py:41-42 | a captured group has the form `\d+\.\d+` |
| ArxivExtractor.SuffixMatch | backend/routers/search/utils/arxiv_extractor.py:43 | a match of the third pattern contains a match of the first or second |
| ArxivExtractor.ThirdPatternSubsumed | backend/routers/search/utils/arxiv_extractor.py:40-44 | whenever the third pattern matches, one of the first two already has, so the third never decides |
| ArxivExtractor.FirstLinkId | backend/routers/search/utils/arxiv_extractor.py:76-80 | the id of the first link, in page order, that yields one; none exactly when no link does |
| ArxivExtractor.ExtractFromModelCard | backend/routers/search/utils/arxiv_extractor.py:46-93 | a failed fetch or a status other than 200 gives no link; a link's id wins over an id in the page text; the result is the abs url of the id |
| ArxivExtractor.OccursShift | backend/routers/search/utils/arxiv_extractor.py:197 | an occurrence in the tail is an occurrence one position later in the whole string |
| ArxivExtractor.ReplaceAllPrefix | backend/routers/search/utils/arxiv_extractor.py:197 | `replace` leaves alone a prefix in which the pattern does not start |
| ArxivExtractor.PdfOfAbsUrl | backend/routers/search/utils/arxiv_extractor.py:197 | the pdf url of an abs link `https://arxiv.org/abs/<id>` is `https://arxiv.org/pdf/<id>.pdf` |
| ArxivExtractor.HostUntouched | backend/routers/search/utils/arxiv_extractor.py:197 | the host part of an arXiv link is never rewritten |
| ArxivExtractor.AbsPathReplaced | backend/routers/search/utils/arxiv_extractor.py:197 | the `/abs/` path of an id without "/" becomes the `/pdf/` path |
| ArxivExtractor.ExtractContextSpec | backend/routers/search/utils/arxiv_extractor.py:325-337 | no context exactly when the lowercased text does not contain the lowercased name; otherwise the window of the text around the first occurrence, clipped at both ends |
| ArxivExtractor.ExtractContextWindow | backend/routers/search/utils/arxiv_extractor.py:334-337 | a context is at most the name plus twice the window long and still contains the name |
| ArxivExtractor.WindowKeepsName | backend/routers/search/utils/arxiv_extractor.py:334-337 | the clipped window around an occurrence contains the name |
| ArxivExtractor.UrlName | backend/routers/search/utils/arxiv_extractor.py:311-321 | a Hub dataset url is named by the segment after the last "datasets/" up to the next "/", any other url by its last "/" segment; the name never holds "/" |
| ArxivExtractor.UrlEntries | backend/routers/search/utils/arxiv_extractor.py:309-321 | one entry per url hit, in order, each with its url and no description |
| ArxivExtractor.KnownDatasetsLower | backend/routers/search/utils/arxiv_extractor.py:119-143 | every known name is non-empty and already lower case, so matching it against the lowercased text is case-insensitive |
| ArxivExtractor.LowerOfUnshouted | backend/routers/search/utils/arxiv_extractor.py:119-143 | lowercasing leaves a name without upper-case letters alone |
| ArxivExtractor.KnownHitSpec | backend/routers/search/utils/arxiv_extractor.py:294-306 | a known name is reported exactly when the lowercased text mentions it, under its own name, with the first 200 characters of its context as description and the first dataset url in the context as url |
| ArxivExtractor.FoundInTextComplete | backend/routers/search/utils/arxiv_extractor.py:288-323 | every mentioned known name and every url hit is reported |
| ArxivExtractor.FoundInTextSound | backend/routers/search/utils/arxiv_extractor.py:288-323 | every entry reported is a mentioned known name with a description or a url hit without one |
| ArxivExtractor.FoundEntrySound | backend/routers/search/utils/arxiv_extractor.py:288-323 | the same for one entry |
| ArxivExtractor.FindDatasetsInText | backend/routers/search/utils/arxiv_extractor.py:288-323 | the method computes the reported list: known names in list order, then the url hits |
| ArxivExtractor.UrlHits | backend/routers/search/utils/arxiv_extractor.py:309-321 | the loop over the url hits builds exactly their entries |
| ArxivExtractor.ScanKnown | backend/routers/search/utils/arxiv_extractor.py:294-306 | the loop over the known names keeps exactly the mentioned ones, in list order |
| ArxivExtractor.ExtractDatasetsFromText | backend/routers/search/utils/arxiv_extractor.py:274-286 | the first entry per lowercased name, in first-occurrence order |
| ArxivExtractor.DedupByName | backend/routers/search/utils/arxiv_extractor.py:276-286 | the dictionary loop keeps the first entry for each lowercased name |
| ArxivExtractor.ExtractedDistinct | backend/routers/search/utils/arxiv_extractor.py:274-286 | the extracted list has one entry per lowercased name, loses no name, and holds only reported entries |
| HuggingFaceSearch.ModelRecordOf | backend/routers/search/utils/huggingface.py:41-55 | a model record keeps the id and links to its Hub page; author, task and dates are never empty, are the Hub's values when present and non-empty, and fall back to "Unknown" exactly when missing or empty; downloads and likes are the Hub's counts, 0 when missing; tags default to the empty list |
| HuggingFaceSearch.DatasetRecordOf | backend/routers/search/utils/huggingface.py:91-106 | the same for a dataset (author, dates, counts and tags passed through or defaulted alike), linking to its Hub datasets page |
| HuggingFaceSearch.ModelRecords | backend/routers/search/utils/huggingface.py:29-62 | a failed listing gives no results; otherwise one record per listed model, in order |
| HuggingFaceSearch.DatasetRecords | backend/routers/search/utils/huggingface.py:79-113 | the same for datasets |
| HuggingFaceSearch.SearchModels | backend/routers/search/utils/huggingface.py:15-62 | the loop builds exactly the records above for the listing of the query and limit |
| HuggingFaceSearch.SearchDatasets | backend/routers/search/utils/huggingface.py:65-113 | the same for datasets |
| HuggingFaceSearch.GetModelCard | backend/routers/search/utils/huggingface.py:116-169 | a card exactly when the info call succeeds; it holds the model's record and library name (never empty), and the card text, or the placeholder when the text is missing or empty |
| HuggingFaceSearch.GetDatasetCard | backend/routers/search/utils/huggingface.py:172-225 | the same for a dataset card with its own placeholder |
| HuggingFaceSearch.FormatSearchResults | backend/routers/search/utils/huggingface.py:228-265 | the loop produces the header and entries of each non-empty list, or the no-results line, joined by newlines |
| HuggingFaceSearch.ResultLinesOf | backend/routers/search/utils/huggingface.py:239-265 | the three steps of the formatting assemble the output lines in order |
| HuggingFaceSearch.AppendModelEntries | backend/routers/search/utils/huggingface.py:243-250 | the entry loop appends exactly the model block |
| HuggingFaceSearch.AppendDatasetEntries | backend/routers/search/utils/huggingface.py:254-260 | the entry loop appends exactly the dataset block |
| HuggingFaceSearch.SearchHuggingFace | backend/routers/search/utils/huggingface.py:268-293 | each enabled kind is searched with a limit of 3; a disabled kind contributes nothing |
| HuggingFaceSearch.ModelBlockShape | backend/routers/search/utils/huggingface.py:243-250 | the model block is one seven-line entry per model, in order, the k-th numbered k + 1 |
| HuggingFaceSearch.DatasetBlockShape | backend/routers/search/utils/huggingface.py:254-260 | the dataset block is one six-line entry per dataset, in order, numbered from 1 |
| HuggingFaceSearch.NoResultsExactly | backend/routers/search/utils/huggingface.py:262-263 | the output is the no-results line exactly when both lists are empty |
| ToolState.Request.constructor | backend/routers/search/utils/tool_state.py:33-34 | a fresh request's state has no `tool_results` yet |
| ToolState.ToolContext.constructor | backend/routers/search/utils/tool_state.py:9-11 | the context variable starts with no request |
| ToolState.ToolContext.SetRequestContext | backend/routers/search/utils/tool_state.py:19-21 | the given request becomes the current one |
| ToolState.ToolContext.GetRequestContext | backend/routers/search/utils/tool_state.py:24-26 | the current request, or none |
| ToolState.ToolContext.SetToolResult | backend/routers/search/utils/tool_state.py:29-41 | with a current request the result is stored under the name, `tool_results` created if missing and every other name left as it was; with none nothing changes |
| ToolState.ToolContext.GetToolResult | backend/routers/search/utils/tool_state.py:44-52 | reads from the request passed, else the current one; nothing without a request, without `tool_results` or without the name, otherwise the stored result |
| SearchClient.ParseMarkerSpec | backend/routers/client.py:89-96 | without the `ARXIV_ID:` marker the answer is left alone; with one, the answer becomes the stripped text before the first marker, and the id is the first word after it (non-empty, without white space, ending at white space or the next marker); only white space after the marker is the `IndexError` case |
| SearchClient.RunSearch | backend/routers/client.py:50-146 | the endpoint's answer is the response function of the two agents' runs and the paper lookup |
| SearchClient.SearchResponseSpec | backend/routers/client.py:70-146 | status "success" exactly when both agents finish and no marker lacks an id; "cancelled" exactly when either agent is cancelled; an unmarked answer passes through unchanged, a marked one is the stripped text, the separator and the paper section; a missing id answers "Error: list index out of range" |
| RagLocal.ChunkIdInjective | rag/rag_cli.py:96 | two chunk ids `name_i` are equal only when both the document name and the position are equal |
| RagLocal.ModelNameOf | rag/rag_cli.py:64 | the model name is a prefix of the last path segment and holds neither '.' nor '/' |
| RagLocal.ReadableFilesSpec | rag/rag_cli.py:59-72 | exactly the markdown files that can be read are ingested, each under the name derived from its path; unreadable files are skipped, so there are never more documents than files |
| RagLocal.IngestMdData | rag/rag_cli.py:36-75 | a missing path raises FileNotFoundError and a path that is not a directory raises NotADirectoryError, each with its message; a directory yields its readable markdown files |
| RagLocal.ChunkAll | rag/rag_cli.py:90-101 | the chunk-id, chunk and metadata lists stay of equal length |
| RagLocal.ChunkMdData | rag/rag_cli.py:77-101 | the nested loop builds exactly the document-by-document chunk lists |
| RagLocal.ChunkAllSpec | rag/rag_cli.py:91-100 | there is one entry per chunk the splitter makes; every id is some document's name and a chunk position in it; distinct document names give distinct chunk ids |
| RagLocal.Collection.constructor | rag/rag_cli.py:136-140 | a new collection holds no entries |
| RagLocal.Collection.Add | rag/rag_cli.py:158-162 | `add` appends the given ids, documents and metadata and changes nothing else |
| RagLocal.BatchesPartition | rag/rag_cli.py:156-157 | the batches are non-empty, at most 100 entries long, contiguous, start at the first entry and end at the total, and there are none when there is nothing to add |
| RagLocal.PopulateDbCollection | rag/rag_cli.py:144-164 | the loop adds the batches in order, and afterwards the collection holds every chunk id with its document and metadata |
| RagLocal.NextBatch | rag/rag_cli.py:156-163 | one turn adds the batch ending at the smaller of start + 100 and the total, and records it |
| RagLocal.BatchStep | rag/rag_cli.py:156-157 | after one turn, the batches done followed by those still to come are still all the batches |
| RagLocal.AddBatch | rag/rag_cli.py:158-162 | one `add` call extends the collection from the first `i` entries of each list to the first `batchEnd` entries |
| RagLocal.InitDatabase | rag/rag_cli.py:166-182 | a collection is created exactly when the path is a directory, and it then holds the chunk ids, chunks and metadata of the ingested files; a path error is passed on and nothing is created |
| RagLocal.MainAction | rag/rag_cli.py:214-243 | initialisation runs exactly when requested with a non-empty path, a query exactly when not initialising and the query is non-empty, and an error is logged in every other case |
| RagLocal.SameNameDifferentFiles | rag/rag_cli.py:64 | the name derivation is not injective: "x/a.md" and "a.1.md" both give "a", so their first chunks get the same id |
| RagBucket.MarkdownBlobs | backend/datadetox_agents/rag_cli.py:86-97 | never more documents than blobs |
| RagBucket.MarkdownBlobsSpec | backend/datadetox_agents/rag_cli.py:86-97 | exactly the downloadable blobs whose names end in ".md" are read, each under its full blob name; distinct blob names give distinct document names |
| RagBucket.IngestMdData | backend/datadetox_agents/rag_cli.py:70-99 | a failed bucket access is raised again with its message; otherwise the result is the markdown blobs that downloaded |
| RagBucket.SearchModelDoc | backend/datadetox_agents/rag_cli.py:223-259 | initialisation runs exactly when requested with a bucket name and a prefix and the bucket can be listed, and then chunks the markdown blobs; a query runs exactly when not initialising and the query is non-empty; a missing bucket name or prefix and a bucket error are each logged with their message |
| RagBucket.InitialisedIdsDistinct | backend/datadetox_agents/rag_cli.py:86-125 | when blob names are distinct, every chunk id of the initialised collection is distinct |

## Left out

- **Network and services.** The Hub API and model-card loads, the
  HTTP fetches of sibling listings, dataset pages and arXiv, the Neo4j
  driver and its sessions, ChromaDB, Google Cloud Storage and the agent
  runner are not modelled. Their answers are values given to the model.
- **The Neo4j store.** Database contents are an abstract graph, and each
  Cypher statement is modelled by its effect on that graph.
  - Writing a node never fails in the model. The source lets such a
    failure escape `load_graph`.
  - `get_model_lineage` (a variable-length path query) is not part of this
    model.
  - The ancestor and child queries in search_neo4j_sample.py are given as
    their answers.
  - `_connect` and its failure are not modelled.
- **Files, processes and DVC.**
  - The file system is a map from subdirectory to named files.
  - JSON encoding and decoding are not modelled.
  - `_find_project_root`, `_ensure_dvc_init` and `commit_version` are left
    out, as are `commit_data` apart from its commit message and the `dvc
    add` subprocess. These are filesystem walks and git or dvc
    subprocesses.
  - `_dvc_add` keeps only its path mapping. `Path.resolve()` is taken to
    give the path unchanged.
- **Clocks and timing.** `datetime.now()`, file mtimes, `time.sleep` rate
  limiting, the stage timings of the search endpoint, and tqdm and rich
  progress output are not modelled. Clock readings and mtimes are inputs.
- **Concurrency.** The arXiv extractor's `extract_for_models`,
  `_extract_for_single_model` and `extract_sync` (a semaphore, gather, a
  thread with its own event loop) are left out.
  - The ContextVar isolation of tool_state.py is a single current-request
    cell.
  - `set_progress_callback` and `get_progress_callback` are left out.
- **PDF and LLM.** `parse_paper`, `_extract_text_from_pdf` (PyMuPDF) and
  the LLM dataset extractor are left out. Only the pdf-URL rewrite of
  `parse_paper` is modelled.
- **Regular expressions.**
  - The arXiv id patterns, the word-boundary English check and the model
    href pattern are written out as ASCII matchers.
  - `DATASET_URL_PATTERNS` is given as a scanner
    (`ArxivExtractor.UrlScan`): the first match in a context and all
    matches in a text. This stands in for `_extract_url_from_context` and
    `_extract_dataset_urls`.
  - The third arXiv pattern is not modelled separately. Whenever it
    matches, one of the first two patterns already gives an id, so it is
    never consulted (`ArxivExtractor.ThirdPatternSubsumed`).
- **Text.** `lower()`, `upper()`, `isspace()`, `\w` and `\d` are modelled
  on ASCII. Other characters are left unchanged by case mapping.
  - Unicode case mapping that changes a string's length is not modelled.
    `_extract_context` finds the name in the lowercased text but slices
    the original text, so its window can move when lowercasing does that.
- **Splitting into chunks.** The sentence splitter of both RAG loaders is
  a function given as input. Creating, deleting and querying the Chroma
  collection are not modelled: `init_db_client`, `init_gcp_client`, the
  deletion in `create_db_collection`, `query_rag`, embeddings and `count()`.
  The collection keeps only what is added to it.
- **Python values.**
  - JSON numbers other than integers are not modelled.
  - A Neo4j property list is modelled as a list of scalars of one kind.
  - Pydantic coercions beyond `None` for optional fields and the declared
    defaults are not modelled.
- **Set iteration order.** Python does not promise an iteration order for
  a `set`. At two places the model fixes one order of its own choosing,
  and the contracts there state that order:
  - The builder's stub inference (model-lineage/graph/builder.py:64-70)
    lists the inferred dataset ids in first-occurrence order
    (`GraphBuilder.InferDatasets`).
  - `KNOWN_DATASETS` in arxiv_extractor.py is a set literal. The model
    scans it in declaration order (`ArxivExtractor.FindDatasetsInText`,
    `ArxivExtractor.ScanKnown`, `ArxivExtractor.ExtractDatasetsFromText`).

  The `list(set(...))` of dataset ids in lineage_scraper.py is left open.
  `LineagePipeline.DistinctIds` returns some order, and the crawl's
  contracts hold for every order (`LineagePipeline.CrawlOrder`).
- **Printing.** `print_lineage_results` is modelled only by which children,
  ancestors and input model it selects. The printing itself and
  `_log_query_summary` are left out.
- **Thin wrappers.**
  - `search_huggingface` only forwards to `search_huggingface_function`.
  - `scrape_model_by_id` only chains the Hub lookup, `_extract_model_info`
    and `_extract_relationships`, each of which is modelled.
  - `extract_training_datasets` only drives the concurrent extractor.
- **Unreachable branch.** In `main`, the load stage's rebuild when
  `graph_data is None` cannot run. Stage 2 always runs before stage 3, and
  `build_graph` either returns a graph or raises. The branch is therefore
  not modelled.
- HuggingFaceSearch.SearchModels: a Hub listing is the answer for the query
  and limit, so the limit is taken as already applied by the Hub.
- RagBucket.SearchModelDoc: only a failed bucket access is modelled as an
  initialisation error. An exception from the vector store, which the tool
  also catches and logs, is not modelled.
- RagLocal.Collection.Add: the collection appends every id it is given.
  The vector store instead rejects an id repeated within one call and does
  not add an id it already holds. Two files whose names have the same stem
  give the same chunk ids (`RagLocal.SameNameDifferentFiles`), so for such
  inputs the model's collection holds chunks the real one would refuse.
- Neo4jStore.MergeSet: a property set to null is stored as the value Null.
  Neo4j removes such a property instead. Reading a missing property gives
  null in Cypher as well, so every read modelled here sees the same value.
