// Paper links and dataset mentions (backend/routers/search/utils/arxiv_extractor.py).
// The model-card page, the PDF text and the three dataset-URL regular
// expressions are inputs; the arXiv-id patterns, the context window, the
// naming of URL hits and the de-duplication are modelled.

module ArxivExtractor {
  import opened Wrappers
  import opened Strings
  import opened Collections

  /** `DatasetInfo`. */
  datatype DatasetInfo = DatasetInfo(name: string, url: Option<string>, description: Option<string>)

  /** `ModelPaperInfo` after `__post_init__`. */
  datatype ModelPaperInfo = ModelPaperInfo(modelId: string, arxivUrl: Option<string>, datasets: seq<DatasetInfo>)

  /** `ModelPaperInfo(model_id, arxiv_url, datasets)`: a missing list becomes the empty list. */
  function NewModelPaperInfo(modelId: string, arxivUrl: Option<string>, datasets: Option<seq<DatasetInfo>>)
    : (info: ModelPaperInfo)
    ensures info.modelId == modelId && info.arxivUrl == arxivUrl
    ensures datasets.None? ==> info.datasets == []
    ensures datasets.Some? ==> info.datasets == datasets.value
  {
    ModelPaperInfo(modelId, arxivUrl, datasets.GetOr([]))
  }

  // ------------------------------------------------------------ arXiv ids

  /** The length of the run of digits starting at `j`. */
  function DigitRun(s: string, j: nat): (n: nat)
    ensures j + n <= |s| || (j >= |s| && n == 0)
    ensures forall k :: j <= k < j + n ==> IsDigit(s[k])
    ensures j + n < |s| ==> !IsDigit(s[j + n])
    decreases |s| - j
  {
    if j < |s| && IsDigit(s[j]) then 1 + DigitRun(s, j + 1) else 0
  }

  /** The length of `\d+\.\d+` matched greedily at `j`, or 0 when it does not match there. */
  function IdLength(s: string, j: nat): (n: nat)
    ensures n == 0 || j + n <= |s|
  {
    var a := DigitRun(s, j);
    if a == 0 || j + a >= |s| || s[j + a] != '.' then 0
    else
      var b := DigitRun(s, j + a + 1);
      if b == 0 then 0 else a + 1 + b
  }

  /** The pattern `<marker>(\d+\.\d+)` matches at `i`. */
  predicate IdMatchAt(s: string, marker: string, i: int)
  {
    OccursAt(s, marker, i) && IdLength(s, i + |marker|) > 0
  }

  /** The captured group of a match at `i`. */
  function Captured(s: string, marker: string, i: int): string
    requires IdMatchAt(s, marker, i)
  {
    s[i + |marker|..i + |marker| + IdLength(s, i + |marker|)]
  }

  /** No match of the pattern starts in `[k, i)`. */
  ghost predicate NoMatchBetween(s: string, marker: string, k: int, i: int)
  {
    forall j :: k <= j < i ==> !IdMatchAt(s, marker, j)
  }

  /** `re.search(marker + r"(\d+\.\d+)", s[k..])`: the leftmost match at or after `k`. */
  function SearchFrom(s: string, marker: string, k: nat): (r: Option<string>)
    ensures r.Some? ==> exists i ::
      && k <= i && IdMatchAt(s, marker, i) && r.value == Captured(s, marker, i)
      && NoMatchBetween(s, marker, k, i)
    ensures r.None? ==> forall i :: k <= i ==> !IdMatchAt(s, marker, i)
    decreases |s| - k
  {
    if k + |marker| > |s| then None
    else if IdMatchAt(s, marker, k) then Some(Captured(s, marker, k))
    else SearchFrom(s, marker, k + 1)
  }

  const AbsMarker := "arxiv.org/abs/"
  const PdfMarker := "arxiv.org/pdf/"

  /**
   * `_extract_arxiv_id`: the abs pattern, then the pdf pattern; the third
   * pattern, `https?://arxiv.org/(abs|pdf)/…`, can only match where one of
   * the first two does (ThirdPatternSubsumed), so it never decides.
   */
  function ExtractArxivId(text: string): Option<string>
  {
    var abs := SearchFrom(text, AbsMarker, 0);
    if abs.Some? then abs
    else
      var pdf := SearchFrom(text, PdfMarker, 0);
      if pdf.Some? then pdf else None
  }

  /**
   * No id exactly when neither pattern matches anywhere; otherwise the id is
   * the group of the leftmost abs match when there is one, else of the
   * leftmost pdf match, and it has the form digits, dot, digits.
   */
  lemma ExtractArxivIdSpec(text: string)
    ensures ExtractArxivId(text).None? <==>
      forall i :: !IdMatchAt(text, AbsMarker, i) && !IdMatchAt(text, PdfMarker, i)
    ensures ExtractArxivId(text).Some? ==> exists i, marker ::
      && (marker == AbsMarker || marker == PdfMarker)
      && IdMatchAt(text, marker, i) && ExtractArxivId(text).value == Captured(text, marker, i)
      && NoMatchBetween(text, marker, 0, i)
      && (marker == PdfMarker ==> forall j :: !IdMatchAt(text, AbsMarker, j))
    ensures ExtractArxivId(text).Some? ==> IsArxivId(ExtractArxivId(text).value)
  {
    var abs := SearchFrom(text, AbsMarker, 0);
    var pdf := SearchFrom(text, PdfMarker, 0);
    if abs.Some? || pdf.Some? {
      var marker := if abs.Some? then AbsMarker else PdfMarker;
      var i :| 0 <= i && IdMatchAt(text, marker, i) && ExtractArxivId(text).value == Captured(text, marker, i)
        && NoMatchBetween(text, marker, 0, i);
      CapturedIsId(text, marker, i);
    }
  }

  /** `\d+\.\d+` as a string. */
  predicate IsArxivId(id: string)
  {
    exists a :: 0 < a < |id| - 1 && id[a] == '.'
      && (forall k :: 0 <= k < a ==> IsDigit(id[k]))
      && (forall k :: a < k < |id| ==> IsDigit(id[k]))
  }

  lemma CapturedIsId(s: string, marker: string, i: int)
    requires IdMatchAt(s, marker, i)
    ensures IsArxivId(Captured(s, marker, i))
  {
    var j := i + |marker|;
    var a := DigitRun(s, j);
    var b := DigitRun(s, j + a + 1);
    var id := Captured(s, marker, i);
    assert id == s[j..j + a + 1 + b];
    assert id[a] == s[j + a] == '.';
    assert forall k :: 0 <= k < a ==> id[k] == s[j + k];
    assert forall k :: a < k < |id| ==> id[k] == s[j + k];
  }

  /** The third pattern's four spellings. */
  ghost predicate ThirdPatternMatches(text: string)
  {
    exists i ::
      || IdMatchAt(text, "http://" + AbsMarker, i) || IdMatchAt(text, "https://" + AbsMarker, i)
      || IdMatchAt(text, "http://" + PdfMarker, i) || IdMatchAt(text, "https://" + PdfMarker, i)
  }

  /** A match of a longer marker ending in `marker` is a match of `marker`. */
  lemma SuffixMatch(text: string, scheme: string, marker: string, i: int)
    requires IdMatchAt(text, scheme + marker, i)
    ensures IdMatchAt(text, marker, i + |scheme|)
  {
    assert text[i + |scheme|..i + |scheme| + |marker|] == text[i..i + |scheme + marker|][|scheme|..];
  }

  lemma ThirdPatternSubsumed(text: string)
    requires ThirdPatternMatches(text)
    ensures ExtractArxivId(text).Some?
  {
    ExtractArxivIdSpec(text);
    var i :|
      || IdMatchAt(text, "http://" + AbsMarker, i) || IdMatchAt(text, "https://" + AbsMarker, i)
      || IdMatchAt(text, "http://" + PdfMarker, i) || IdMatchAt(text, "https://" + PdfMarker, i);
    if IdMatchAt(text, "http://" + AbsMarker, i) {
      SuffixMatch(text, "http://", AbsMarker, i);
    } else if IdMatchAt(text, "https://" + AbsMarker, i) {
      SuffixMatch(text, "https://", AbsMarker, i);
    } else if IdMatchAt(text, "http://" + PdfMarker, i) {
      SuffixMatch(text, "http://", PdfMarker, i);
    } else {
      SuffixMatch(text, "https://", PdfMarker, i);
    }
  }

  /** The first href, in page order, that yields an id. */
  function FirstLinkId(hrefs: seq<string>): (r: Option<string>)
    ensures r.Some? ==> exists k ::
      && 0 <= k < |hrefs| && ExtractArxivId(hrefs[k]) == r
      && forall j :: 0 <= j < k ==> ExtractArxivId(hrefs[j]).None?
    ensures r.None? <==> forall k :: 0 <= k < |hrefs| ==> ExtractArxivId(hrefs[k]).None?
  {
    FirstSome(hrefs, ExtractArxivId)
  }

  const AbsPrefix := "https://arxiv.org/abs/"

  /** A fetched model-card page: its status, the hrefs of its links and its text. */
  datatype Page = Page(status: int, hrefs: seq<string>, text: string)

  /**
   * `extract_from_model_card` given the page (None when fetching raised):
   * an id in a link wins over one in the page text.
   */
  function ExtractFromModelCard(page: Option<Page>): (r: Option<string>)
    ensures page.None? || page.value.status != 200 ==> r.None?
    ensures page.Some? && page.value.status == 200 && FirstLinkId(page.value.hrefs).Some? ==>
      r == Some(AbsPrefix + FirstLinkId(page.value.hrefs).value)
    ensures page.Some? && page.value.status == 200 && FirstLinkId(page.value.hrefs).None? ==>
      r == (if ExtractArxivId(page.value.text).Some? then Some(AbsPrefix + ExtractArxivId(page.value.text).value) else None)
  {
    if page.None? || page.value.status != 200 then None
    else
      var link := FirstLinkId(page.value.hrefs);
      if link.Some? then Some(AbsPrefix + link.value)
      else
        var inText := ExtractArxivId(page.value.text);
        if inText.Some? then Some(AbsPrefix + inText.value) else None
  }

  // -------------------------------------------------------------- the pdf

  /** `arxiv_url.replace("/abs/", "/pdf/") + ".pdf"`. */
  function PdfUrl(arxivUrl: string): string
  {
    ReplaceAll(arxivUrl, "/abs/", "/pdf/") + ".pdf"
  }

  /** No occurrence of `pat` starts before index `n` of `s`. */
  ghost predicate NoOccurrenceBefore(s: string, pat: string, n: int)
  {
    forall i :: 0 <= i < n ==> !OccursAt(s, pat, i)
  }

  lemma OccursShift(s: string, pat: string, i: nat)
    requires |s| > 0
    ensures OccursAt(s[1..], pat, i) <==> OccursAt(s, pat, i + 1)
  {
    if i + |pat| <= |s[1..]| {
      assert s[1..][i..i + |pat|] == s[i + 1..i + 1 + |pat|];
    }
  }

  /** Replacement leaves a prefix alone when no occurrence starts inside it. */
  lemma {:induction false} ReplaceAllPrefix(a: string, b: string, pat: string, rep: string)
    requires pat != []
    requires NoOccurrenceBefore(a + b, pat, |a|)
    ensures ReplaceAll(a + b, pat, rep) == a + ReplaceAll(b, pat, rep)
  {
    if a != [] {
      var s := a + b;
      assert s[1..] == a[1..] + b;
      forall i | 0 <= i < |a| - 1 ensures !OccursAt(s[1..], pat, i) {
        OccursShift(s, pat, i);
        assert !OccursAt(s, pat, i + 1);
      }
      assert NoOccurrenceBefore(a[1..] + b, pat, |a[1..]|);
      ReplaceAllPrefix(a[1..], b, pat, rep);
      if |s| >= |pat| {
        assert !OccursAt(s, pat, 0);
        assert s[..|pat|] != pat;
        assert ReplaceAll(s, pat, rep) == [s[0]] + ReplaceAll(s[1..], pat, rep);
        assert a == [s[0]] + a[1..];
      } else {
        assert |b| < |pat|;
        assert ReplaceAll(s, pat, rep) == s;
        assert ReplaceAll(b, pat, rep) == b;
      }
    } else {
      assert a + b == b;
    }
  }

  /** The url the link search produces turns into the paper's pdf url. */
  lemma PdfOfAbsUrl(id: string)
    requires '/' !in id
    ensures PdfUrl(AbsPrefix + id) == "https://arxiv.org/pdf/" + id + ".pdf"
  {
    var host := "https://arxiv.org";
    var rest := "/abs/" + id;
    assert AbsPrefix + id == host + rest;
    assert rest[..2] == "/a";
    HostUntouched(host, rest);
    AbsPathReplaced(id);
    assert ReplaceAll(AbsPrefix + id, "/abs/", "/pdf/") == host + ("/pdf/" + id);
  }

  /** The host part of an arXiv url holds no "/abs/", so replacement starts after it. */
  lemma HostUntouched(host: string, rest: string)
    requires host == "https://arxiv.org" && |rest| >= 2 && rest[..2] == "/a"
    ensures ReplaceAll(host + rest, "/abs/", "/pdf/") == host + ReplaceAll(rest, "/abs/", "/pdf/")
  {
    var s := host + rest;
    var head := host + "/a";
    assert s[..|head|] == head;
    assert 'b' !in head;
    forall i | 0 <= i < |host| ensures !OccursAt(s, "/abs/", i) {
      assert s[i + 2] == head[i + 2];
      if i + 5 <= |s| {
        assert s[i..i + 5][2] == s[i + 2];
      }
    }
    assert NoOccurrenceBefore(s, "/abs/", |host|);
    ReplaceAllPrefix(host, rest, "/abs/", "/pdf/");
  }

  /** "/abs/<id>" becomes "/pdf/<id>" when the id holds no '/'. */
  lemma AbsPathReplaced(id: string)
    requires '/' !in id
    ensures ReplaceAll("/abs/" + id, "/abs/", "/pdf/") == "/pdf/" + id
  {
    assert ("/abs/" + id)[..5] == "/abs/";
    assert ("/abs/" + id)[5..] == id;
    forall i | 0 <= i <= |id| - 5 ensures !OccursAt(id, "/abs/", i) {
      assert id[i..i + 5][0] == id[i];
    }
    ReplaceAllAbsent(id, "/abs/", "/pdf/");
  }

  // -------------------------------------------------------- the context

  /**
   * `_extract_context`: the window of `window` characters on each side of
   * the first case-insensitive occurrence of `name`, cut at the text's ends.
   */
  function ExtractContext(text: string, name: string, window: nat): Option<string>
  {
    var index := Find(Lower(text), Lower(name));
    if index == -1 then None
    else Some(text[Max0(index - window)..Min(|text|, index + |name| + window)])
  }

  /**
   * There is a context exactly when the name occurs case-insensitively, and
   * it is the window around the first occurrence.
   */
  lemma ExtractContextSpec(text: string, name: string, window: nat)
    ensures var r := ExtractContext(text, name, window);
      && (r.None? <==> !Contains(Lower(text), Lower(name)))
      && (r.Some? ==> exists i ::
            && OccursAt(Lower(text), Lower(name), i)
            && (forall j :: 0 <= j < i ==> !OccursAt(Lower(text), Lower(name), j))
            && r.value == text[Max0(i - window)..Min(|text|, i + |name| + window)])
  {
    var lower, pattern := Lower(text), Lower(name);
    var index := Find(lower, pattern);
    if index != -1 {
      var w := text[Max0(index - window)..Min(|text|, index + |name| + window)];
      assert ExtractContext(text, name, window) == Some(w);
      assert OccursAt(lower, pattern, index) && (forall j :: 0 <= j < index ==> !OccursAt(lower, pattern, j));
    }
  }

  /** A context is no longer than the name plus both windows, and still contains the name. */
  lemma ExtractContextWindow(text: string, name: string, window: nat)
    ensures var r := ExtractContext(text, name, window);
      r.Some? ==> |r.value| <= |name| + 2 * window && Contains(Lower(r.value), Lower(name))
  {
    var index := Find(Lower(text), Lower(name));
    if index != -1 {
      WindowKeepsName(text, name, index, window);
    }
  }

  /** The window around an occurrence of the name still holds it and is no longer than the name plus both windows. */
  lemma WindowKeepsName(text: string, name: string, index: nat, window: nat)
    requires OccursAt(Lower(text), Lower(name), index)
    ensures var w := text[Max0(index - window)..Min(|text|, index + |name| + window)];
      |w| <= |name| + 2 * window && Contains(Lower(w), Lower(name))
  {
    var lower := Lower(text);
    var start := Max0(index - window);
    var end := Min(|text|, index + |name| + window);
    LowerSlice(text, start, end);
    OccursInSlice(lower, Lower(name), index, start, end);
    assert OccursAt(Lower(text[start..end]), Lower(name), index - start);
  }

  function Max0(x: int): nat { if x < 0 then 0 else x }

  function Min(a: int, b: int): int { if a < b then a else b }

  // ----------------------------------------------------- dataset mentions

  /** `KNOWN_DATASETS` (a set in the source; its iteration order is taken as written). */
  const KnownDatasets: seq<string> := [
    "imagenet", "coco", "openimages", "ade20k", "cityscapes", "squad", "glue", "superglue",
    "wmt", "commonvoice", "librispeech", "voxceleb", "kinetics", "activitynet", "wikihow",
    "c4", "pile", "redpajama", "laion", "bookcorpus", "wikipedia", "openwebtext", "cc-news"]

  /**
   * The dataset-URL patterns, given as their results: the first match in a
   * string, and every match in pattern order.
   */
  datatype UrlScan = UrlScan(first: string -> Option<string>, all: string -> seq<string>)

  /** A known dataset's entry when it is mentioned (case-insensitively). */
  function KnownHit(text: string, scan: UrlScan): string -> Option<DatasetInfo>
  {
    (name: string) =>
      if !Contains(Lower(text), name) then None
      else
        var context := ExtractContext(text, name, 200);
        var truthy := context.Some? && context.value != "";
        Some(DatasetInfo(name,
          if truthy then scan.first(context.value) else None,
          if truthy then Some(context.value[..Min(200, |context.value|)]) else None))
  }

  const HfMarker := "huggingface.co/datasets/"

  /**
   * The name given to a URL hit: for a Hub dataset URL the segment after
   * the last "datasets/" up to the next "/"; otherwise the last "/" segment.
   */
  function UrlName(url: string): (r: string)
    ensures '/' !in r
    ensures Contains(url, HfMarker) ==> r == BeforeFirst(AfterLastSep(url, "datasets/"), '/')
    ensures !Contains(url, HfMarker) ==> EndsWith(url, r)
  {
    if Contains(url, HfMarker) then BeforeFirst(AfterLastSep(url, "datasets/"), '/') else AfterLast(url, '/')
  }

  function UrlEntry(url: string): DatasetInfo
  {
    DatasetInfo(UrlName(url), Some(url), None)
  }

  function UrlEntries(urls: seq<string>): (r: seq<DatasetInfo>)
    ensures |r| == |urls| && forall i :: 0 <= i < |urls| ==> r[i] == UrlEntry(urls[i])
  {
    seq(|urls|, i requires 0 <= i < |urls| => UrlEntry(urls[i]))
  }

  /** `_find_datasets_in_text`: known datasets in list order, then one entry per URL hit. */
  function FoundInText(text: string, scan: UrlScan): seq<DatasetInfo>
  {
    FilterMap(KnownDatasets, KnownHit(text, scan)) + UrlEntries(scan.all(text))
  }

  /** Every name in the known list is non-empty and already lower case. */
  lemma KnownDatasetsLower()
    ensures forall k :: 0 <= k < |KnownDatasets| ==> KnownDatasets[k] != [] && Lower(KnownDatasets[k]) == KnownDatasets[k]
  {
    forall k | 0 <= k < |KnownDatasets|
      ensures KnownDatasets[k] != [] && Lower(KnownDatasets[k]) == KnownDatasets[k]
    {
      var name := KnownDatasets[k];
      assert forall i :: 0 <= i < |name| ==> name[i] >= 'a' || name[i] <= '9';
      LowerOfUnshouted(name);
    }
  }

  /** Lowercasing leaves a name without upper-case letters alone. */
  lemma LowerOfUnshouted(name: string)
    requires forall i :: 0 <= i < |name| ==> name[i] >= 'a' || name[i] <= '9'
    ensures Lower(name) == name
  {
    assert forall i :: 0 <= i < |name| ==> LowerChar(name[i]) == name[i];
  }

  /**
   * A known name is reported exactly when the lowercased text mentions it,
   * under its own name, with the first 200 characters of its context as the
   * description and the first dataset URL of that context as its URL.
   */
  lemma KnownHitSpec(text: string, scan: UrlScan, name: string)
    requires name in KnownDatasets
    ensures var h := KnownHit(text, scan)(name);
      && (h.Some? <==> Contains(Lower(text), name))
      && (h.Some? ==>
            && ExtractContext(text, name, 200).Some?
            && h.value.name == name
            && h.value.url == scan.first(ExtractContext(text, name, 200).value)
            && h.value.description.Some?
            && |h.value.description.value| <= 200
            && h.value.description.value <= ExtractContext(text, name, 200).value)
  {
    KnownDatasetsLower();
    if Contains(Lower(text), name) {
      assert Lower(name) == name && name != [];
      ExtractContextSpec(text, name, 200);
      ExtractContextWindow(text, name, 200);
      var context := ExtractContext(text, name, 200).value;
      assert context != "" by {
        var i :| 0 <= i <= |Lower(context)| - |Lower(name)| && OccursAt(Lower(context), Lower(name), i);
      }
    }
  }

  /** Every mentioned known name and every URL hit is reported. */
  lemma FoundInTextComplete(text: string, scan: UrlScan)
    ensures forall name :: name in KnownDatasets && Contains(Lower(text), name) ==>
      exists d :: d in FoundInText(text, scan) && d.name == name && d.description.Some?
    ensures forall u :: u in scan.all(text) ==> UrlEntry(u) in FoundInText(text, scan)
  {
    var f := KnownHit(text, scan);
    FilterMapSound(KnownDatasets, f);
    forall name | name in KnownDatasets && Contains(Lower(text), name)
      ensures exists d :: d in FoundInText(text, scan) && d.name == name && d.description.Some?
    {
      KnownHitSpec(text, scan, name);
      assert f(name).value in FoundInText(text, scan);
    }
    forall u | u in scan.all(text) ensures UrlEntry(u) in FoundInText(text, scan) {
      var i :| 0 <= i < |scan.all(text)| && scan.all(text)[i] == u;
      assert UrlEntries(scan.all(text))[i] == UrlEntry(u);
    }
  }

  /** An entry is a mentioned known name with a description, or a URL hit without one. */
  predicate Reported(text: string, scan: UrlScan, d: DatasetInfo)
  {
    || (d.name in KnownDatasets && Contains(Lower(text), d.name) && d.description.Some?)
    || (d.description.None? && d.url.Some? && d.url.value in scan.all(text) && d == UrlEntry(d.url.value))
  }

  /**
   * Every reported entry is either a mentioned known name with a description,
   * or a URL hit without one.
   */
  lemma FoundInTextSound(text: string, scan: UrlScan)
    ensures forall d :: d in FoundInText(text, scan) ==> Reported(text, scan, d)
  {
    forall d | d in FoundInText(text, scan) ensures Reported(text, scan, d) {
      FoundEntrySound(text, scan, d);
    }
  }

  /** One reported entry: a known hit or a URL hit. */
  lemma FoundEntrySound(text: string, scan: UrlScan, d: DatasetInfo)
    requires d in FoundInText(text, scan)
    ensures Reported(text, scan, d)
  {
    var f := KnownHit(text, scan);
    var hits := FilterMap(KnownDatasets, f);
    var urls := scan.all(text);
    if d in hits {
      FilterMapSound(KnownDatasets, f);
      var name :| name in KnownDatasets && f(name) == Some(d);
      KnownHitSpec(text, scan, name);
    } else {
      assert d in UrlEntries(urls);
      var i :| 0 <= i < |urls| && UrlEntries(urls)[i] == d;
    }
  }

  /** `_find_datasets_in_text`: the known-name loop, then the URL loop. */
  method FindDatasetsInText(text: string, scan: UrlScan) returns (datasets: seq<DatasetInfo>)
    ensures datasets == FoundInText(text, scan)
  {
    var known := ScanKnown(text, scan, KnownDatasets);
    var hits := UrlHits(scan.all(text));
    datasets := known + hits;
  }

  /** The URL loop of `_find_datasets_in_text`: one entry per URL hit, in order. */
  method UrlHits(urls: seq<string>) returns (datasets: seq<DatasetInfo>)
    ensures datasets == UrlEntries(urls)
  {
    datasets := [];
    for i := 0 to |urls|
      invariant datasets == UrlEntries(urls)[..i]
    {
      assert UrlEntries(urls)[..i + 1] == UrlEntries(urls)[..i] + [UrlEntry(urls[i])];
      datasets := datasets + [UrlEntry(urls[i])];
    }
    assert UrlEntries(urls)[..|urls|] == UrlEntries(urls);
  }

  /** The known-name loop over `names`: one entry per name the lowercased text mentions. */
  method ScanKnown(text: string, scan: UrlScan, names: seq<string>) returns (datasets: seq<DatasetInfo>)
    ensures datasets == FilterMap(names, KnownHit(text, scan))
  {
    datasets := [];
    var textLower := Lower(text);
    for k := 0 to |names|
      invariant datasets == FilterMap(names[..k], KnownHit(text, scan))
    {
      assert names[..k + 1] == names[..k] + [names[k]];
      FilterMapSnoc(names[..k], names[k], KnownHit(text, scan));
      var name := names[k];
      if Contains(textLower, name) {
        var context := ExtractContext(text, name, 200);
        var url := if context.Some? && context.value != "" then scan.first(context.value) else None;
        var description := if context.Some? && context.value != "" then Some(context.value[..Min(200, |context.value|)]) else None;
        datasets := datasets + [DatasetInfo(name, url, description)];
      }
    }
    assert names[..|names|] == names;
  }

  /** The de-duplication key: the lowercased name. */
  function NameKey(d: DatasetInfo): string { Lower(d.name) }

  /**
   * `_extract_datasets_from_text`: the dictionary keyed by lowercased name
   * keeps the first entry per key, in first-occurrence order.
   */
  method ExtractDatasetsFromText(text: string, scan: UrlScan) returns (datasets: seq<DatasetInfo>)
    ensures datasets == FirstByKey(FoundInText(text, scan), NameKey, {})
  {
    var page := FindDatasetsInText(text, scan);
    datasets := DedupByName(page);
  }

  /** The dictionary loop of `_extract_datasets_from_text`. */
  method DedupByName(page: seq<DatasetInfo>) returns (datasets: seq<DatasetInfo>)
    ensures datasets == FirstByKey(page, NameKey, {})
  {
    var seen: set<string> := {};
    datasets := [];
    for i := 0 to |page|
      invariant datasets == FirstByKey(page[..i], NameKey, {})
      invariant seen == Keys(datasets, NameKey)
    {
      assert page[..i + 1] == page[..i] + [page[i]];
      FirstByKeyPush(page[..i], page[i], NameKey, datasets, seen);
      var key := Lower(page[i].name);
      assert key == NameKey(page[i]);
      if key !in seen {
        seen := seen + {key};
        datasets := datasets + [page[i]];
      }
    }
    assert page[..|page|] == page;
  }

  /** The de-duplicated list has one entry per lowercased name and loses none. */
  lemma ExtractedDistinct(text: string, scan: UrlScan)
    ensures var r := FirstByKey(FoundInText(text, scan), NameKey, {});
      && KeysDistinct(r, NameKey)
      && Keys(r, NameKey) == Keys(FoundInText(text, scan), NameKey)
      && (forall d :: d in r ==> d in FoundInText(text, scan))
  {
    FirstByKeyFresh(FoundInText(text, scan), NameKey);
  }
}
