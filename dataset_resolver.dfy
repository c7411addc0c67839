// Dataset-URL resolution (backend/routers/search/utils/dataset_resolver.py).
// The Hub's `dataset_info` call is an oracle: for each id it answers that
// the dataset exists, that it does not (HTTP 404), or fails some other way.
// The module-level `_dataset_cache` becomes a field of a resolver object,
// and the ids actually sent to the Hub are recorded so that a contract can
// say when no call is made.

module DatasetResolver {
  import opened Wrappers
  import opened Json
  import opened Strings
  import opened Collections

  /** The Hub's answer to `dataset_info(id)`. */
  datatype Probe = Found | NotFound404 | OtherError

  const HubPrefix := "https://huggingface.co/datasets/"
  const SearchPrefix := "https://huggingface.co/datasets?search="

  /** `KNOWN_DATASET_MAPPINGS`: well-known names and their Hub ids. */
  const KnownMappings: map<string, string> := map[
    "squad" := "rajpurkar/squad", "squad_v2" := "rajpurkar/squad_v2", "glue" := "nyu-mll/glue",
    "superglue" := "super_glue", "wmt" := "wmt", "bookcorpus" := "bookcorpus",
    "wikipedia" := "wikipedia", "openwebtext" := "Skylion007/openwebtext", "c4" := "allenai/c4",
    "pile" := "EleutherAI/pile", "redpajama" := "togethercomputer/RedPajama-Data-1T",
    "imagenet" := "imagenet-1k", "coco" := "coco", "openimages" := "google/open-images",
    "ade20k" := "scene_parse_150", "cityscapes" := "cityscapes", "kinetics" := "kinetics700",
    "activitynet" := "activity_net", "commonvoice" := "mozilla-foundation/common_voice_11_0",
    "librispeech" := "librispeech_asr", "voxceleb" := "voxceleb", "laion" := "laion/laion-5b",
    "cc-news" := "cc_news"]

  /** What `check_dataset_exists` reports for an id: everything but a 404 counts as existing. */
  predicate Exists(hub: string -> Probe, id: string)
  {
    hub(id) != NotFound404
  }

  /** Python truthiness of an optional string. */
  predicate Present(s: Option<string>)
  {
    s.Some? && s.value != ""
  }

  /** The id `resolve_dataset_url` checks for a name: lowercased, then stripped. */
  function Candidate(name: string): string
  {
    Strip(Lower(name))
  }

  /**
   * `resolve_dataset_url` given the Hub's answers: a present url is kept;
   * a name with "/" is checked as an id on its own; otherwise the known
   * mapping's target, then the name itself.
   */
  function Resolve(hub: string -> Probe, name: string, existingUrl: Option<string>): (r: Option<string>)
    ensures Present(existingUrl) ==> r == existingUrl
    ensures r.Some? ==> r.value != ""
  {
    if Present(existingUrl) then existingUrl
    else
      var id := Candidate(name);
      if '/' in id then
        if Exists(hub, id) then Some(HubPrefix + id) else None
      else if id in KnownMappings && Exists(hub, KnownMappings[id]) then Some(HubPrefix + KnownMappings[id])
      else if Exists(hub, id) then Some(HubPrefix + id)
      else None
  }

  /**
   * A resolved url names an id the Hub reports as existing: the name itself,
   * or, for a name without "/", its known mapping; None means none of the
   * ids the cascade tries exists.
   */
  lemma ResolveSound(hub: string -> Probe, name: string)
    ensures var r := Resolve(hub, name, None); var id := Candidate(name);
      && (r.Some? ==> (
            || (r.value == HubPrefix + id && Exists(hub, id))
            || ('/' !in id && id in KnownMappings && r.value == HubPrefix + KnownMappings[id]
                && Exists(hub, KnownMappings[id]))))
      && (r.None? ==> !Exists(hub, id))
      && (r.None? && '/' !in id && id in KnownMappings ==> !Exists(hub, KnownMappings[id]))
      && ('/' in id ==> (r.Some? <==> Exists(hub, id)))
      && (r.Some? ==> StartsWith(r.value, HubPrefix))
  {
  }

  /**
   * For a known name the mapped id is tried before the name itself: when the
   * mapped id exists it is the answer, whether or not the name exists too.
   */
  lemma MappingWins(hub: string -> Probe, name: string)
    requires '/' !in Candidate(name) && Candidate(name) in KnownMappings
    requires Exists(hub, KnownMappings[Candidate(name)])
    ensures Resolve(hub, name, None) == Some(HubPrefix + KnownMappings[Candidate(name)])
  {
  }

  /** The dictionary `enrich_dataset_info` builds before any url is resolved. */
  function Copied(d: Record): Record
  {
    map["name" := Get(d, "name", Null), "url" := Get(d, "url", Null), "description" := Get(d, "description", Null)]
  }

  /**
   * One entry of `enrich_dataset_info`: None when a truthy name that is not
   * a string is lowercased (which raises).
   */
  function EnrichOne(hub: string -> Probe, d: Record): Option<Record>
  {
    var name := Get(d, "name", Null);
    var url := Get(d, "url", Null);
    if Truthy(name) && !Truthy(url) then
      if !name.Str? then None
      else
        var resolved := Resolve(hub, name.s, None);
        if resolved.Some? && resolved.value != "" then Some(Copied(d)["url" := Str(resolved.value)])
        else Some(Copied(d)["hf_search_url" := Str(SearchPrefix + Lower(name.s))])
    else Some(Copied(d))
  }

  /** The whole list, in order; None as soon as one entry raises. */
  function EnrichAll(hub: string -> Probe, ds: seq<Record>): Option<seq<Record>>
  {
    AllSome(ds, d => EnrichOne(hub, d))
  }

  /**
   * An enriched entry keeps the name and description; its url changes only
   * when the name is truthy and the url falsy, and then either to the
   * resolved Hub url or stays while a search url is added.
   */
  lemma EnrichOneShape(hub: string -> Probe, d: Record)
    requires EnrichOne(hub, d).Some?
    ensures var e := EnrichOne(hub, d).value;
      && e["name"] == Get(d, "name", Null)
      && e["description"] == Get(d, "description", Null)
      && (!(Truthy(Get(d, "name", Null)) && !Truthy(Get(d, "url", Null))) ==> e == Copied(d))
      && (Truthy(Get(d, "name", Null)) && !Truthy(Get(d, "url", Null)) ==> (
            var n := Get(d, "name", Null).s;
            || (Resolve(hub, n, None).Some? && e == Copied(d)["url" := Str(Resolve(hub, n, None).value)])
            || (Resolve(hub, n, None).None? && e == Copied(d)["hf_search_url" := Str(SearchPrefix + Lower(n))])))
  {
    assert "name"[0] == 'n' && "url"[0] == 'u' && "description"[0] == 'd' && "hf_search_url"[0] == 'h';
    var c := Copied(d);
    assert c["name"] == Get(d, "name", Null) && c["description"] == Get(d, "description", Null);
  }

  /** Length and order are preserved: entry `i` is the enrichment of input `i`. */
  lemma EnrichAllShape(hub: string -> Probe, ds: seq<Record>)
    ensures EnrichAll(hub, ds).Some? <==> forall i :: 0 <= i < |ds| ==> EnrichOne(hub, ds[i]).Some?
    ensures EnrichAll(hub, ds).Some? ==> (
      var r := EnrichAll(hub, ds).value;
      && |r| == |ds|
      && forall i :: 0 <= i < |ds| ==> EnrichOne(hub, ds[i]) == Some(r[i]))
  {
    AllSomeSpec(ds, d => EnrichOne(hub, d));
  }

  /** Every answer cached in `before` is still cached, unchanged, in `after`. */
  predicate Retains(before: map<string, bool>, after: map<string, bool>)
  {
    forall id :: id in before ==> id in after && after[id] == before[id]
  }

  lemma RetainsTransitive(a: map<string, bool>, b: map<string, bool>, c: map<string, bool>)
    requires Retains(a, b) && Retains(b, c)
    ensures Retains(a, c)
  {
  }

  /** The module's cache, against a fixed Hub. */
  class Resolver {
    const hub: string -> Probe
    var cache: map<string, bool>
    /** The ids sent to `dataset_info`, in order. */
    var calls: seq<string>

    /** Cached answers are the Hub's: True for an existing dataset, False for a 404; other errors are never cached. */
    ghost predicate Valid()
      reads this
    {
      forall id :: id in cache ==> hub(id) != OtherError && cache[id] == (hub(id) == Found)
    }

    constructor(hub: string -> Probe)
      ensures this.hub == hub && cache == map[] && calls == []
      ensures Valid()
    {
      this.hub := hub;
      cache := map[];
      calls := [];
    }

    /**
     * `check_dataset_exists`: a cached id is answered from the cache without
     * a call; otherwise the Hub is asked, a success or a 404 is cached, and
     * any other failure counts as existing without being cached.
     */
    method CheckDatasetExists(id: string) returns (found: bool)
      requires Valid()
      modifies this
      ensures Valid()
      ensures found == Exists(hub, id)
      ensures Retains(old(cache), cache)
      ensures id in old(cache) ==> cache == old(cache) && calls == old(calls) && found == old(cache)[id]
      ensures id !in old(cache) ==> calls == old(calls) + [id]
      ensures id !in old(cache) && hub(id) == Found ==> cache == old(cache)[id := true]
      ensures id !in old(cache) && hub(id) == NotFound404 ==> cache == old(cache)[id := false]
      ensures id !in old(cache) && hub(id) == OtherError ==> cache == old(cache)
    {
      if id in cache {
        return cache[id];
      }
      calls := calls + [id];
      match hub(id) {
        case Found =>
          cache := cache[id := true];
          found := true;
        case NotFound404 =>
          cache := cache[id := false];
          found := false;
        case OtherError =>
          found := true;
      }
    }

    /** `resolve_dataset_url`: the cascade, asking at most two ids. */
    method ResolveDatasetUrl(name: string, existingUrl: Option<string>) returns (url: Option<string>)
      requires Valid()
      modifies this
      ensures Valid()
      ensures url == Resolve(hub, name, existingUrl)
      ensures Present(existingUrl) ==> cache == old(cache) && calls == old(calls)
      ensures Retains(old(cache), cache)
      ensures |calls| <= |old(calls)| + 2
    {
      if Present(existingUrl) {
        return existingUrl;
      }
      var id := Candidate(name);
      if '/' in id {
        var found := CheckDatasetExists(id);
        return if found then Some(HubPrefix + id) else None;
      }
      if id in KnownMappings {
        var target := KnownMappings[id];
        var found := CheckDatasetExists(target);
        if found {
          return Some(HubPrefix + target);
        }
      }
      ghost var between := cache;
      var found := CheckDatasetExists(id);
      RetainsTransitive(old(cache), between, cache);
      if found {
        return Some(HubPrefix + id);
      }
      return None;
    }

    /** `enrich_dataset_info`: one enriched dictionary per input, in order. */
    method EnrichDatasetInfo(datasets: seq<Record>) returns (enriched: Option<seq<Record>>)
      requires Valid()
      modifies this
      ensures Valid()
      ensures enriched == EnrichAll(hub, datasets)
    {
      var out: seq<Record> := [];
      for i := 0 to |datasets|
        invariant Valid()
        invariant EnrichAll(hub, datasets[..i]) == Some(out)
      {
        var entry := EnrichEntry(datasets[i]);
        AllSomeStep(datasets, i, d => EnrichOne(hub, d), out);
        if entry.None? {
          return None;
        }
        out := out + [entry.value];
      }
      assert datasets[..|datasets|] == datasets;
      enriched := Some(out);
    }

    /** The body of the loop for one dataset dictionary. */
    method EnrichEntry(d: Record) returns (entry: Option<Record>)
      requires Valid()
      modifies this
      ensures Valid()
      ensures entry == EnrichOne(hub, d)
    {
      var name := Get(d, "name", Null);
      var url := Get(d, "url", Null);
      var copied := Copied(d);
      if Truthy(name) && !Truthy(url) {
        if !name.Str? {
          return None;
        }
        var resolved := ResolveDatasetUrl(name.s, None);
        if resolved.Some? && resolved.value != "" {
          return Some(copied["url" := Str(resolved.value)]);
        }
        return Some(copied["hf_search_url" := Str(SearchPrefix + Lower(name.s))]);
      }
      return Some(copied);
    }
  }
}
