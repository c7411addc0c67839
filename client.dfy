/**
 * The search endpoint's response assembly: the Hub agent may end its answer
 * with an `ARXIV_ID:` marker; the endpoint splits the id off, looks the
 * paper up, and appends a paper section (or a notice) to the answer. The
 * two agents and the paper lookup are oracles given as inputs.
 */
module SearchClient {
  import opened Wrappers
  import opened Strings

  const Marker := "ARXIV_ID:"
  const Separator := "\n\n---\n\n"
  /** `str(IndexError)` for an index past the end of a list. */
  const IndexErrorText := "list index out of range"
  const AbsUrl := "https://arxiv.org/abs/"

  /** How splitting an answer at the marker comes out. */
  datatype MarkerParse =
    | Unmarked                                    // no marker: the answer stands as it is
    | Marked(response: string, arxivId: string)   // the answer before the marker, and the id
    | MissingId                                   // nothing but white space after the marker

  /** An agent run: its final output, a cancellation, or an exception's message. */
  datatype AgentRun = Finished(output: string) | Cancelled | Raised(message: string)

  /** The paper lookup: the extracted training-data summary, no paper, or an exception's message. */
  datatype PaperLookup = Paper(info: string) | NoPaper | LookupFailed(message: string)

  /** The endpoint's answer; stage timings are not modelled. */
  datatype Response =
    | Success(response: string, searchTerms: string, arxivId: Option<string>)
    | Stopped
    | Failure(message: string)

  /** The `"status"` entry of the answer. */
  function Status(r: Response): string
  {
    match r
    case Success(_, _, _) => "success"
    case Stopped => "cancelled"
    case Failure(_) => "error"
  }

  /** The `"response"` entry of the answer. */
  function ResponseText(r: Response): string
  {
    match r
    case Success(text, _, _) => text
    case Stopped => "Request was stopped"
    case Failure(message) => "Error: " + message
  }

  /**
   * The marker parse: the pieces of `answer.split(Marker)`; the id is the
   * first white-space-delimited word of the second piece (an empty word list
   * raises IndexError), and the answer becomes the first piece, stripped.
   */
  function ParseMarker(answer: string): MarkerParse
  {
    if !Contains(answer, Marker) then Unmarked
    else
      var parts := SplitOn(answer, Marker);
      if |parts| <= 1 then Unmarked
      else
        var id := FirstWord(parts[1]);
        if id == [] then MissingId else Marked(Strip(parts[0]), id)
  }

  /**
   * Without a marker the answer is left alone. With one, the answer is
   * everything before the first marker, stripped; the id is a non-empty,
   * space-free word that begins what follows the marker once leading white
   * space is dropped, ends at white space or the next marker, and is missing
   * exactly when only white space lies between the marker and the next one.
   */
  lemma ParseMarkerSpec(answer: string)
    ensures var r := ParseMarker(answer);
      && (r.Unmarked? <==> !Contains(answer, Marker))
      && (r.MissingId? <==> (Contains(answer, Marker)
            && forall c :: c in SplitOn(answer, Marker)[1] ==> IsSpace(c)))
      && (r.Marked? ==> (
            var parts := SplitOn(answer, Marker);
            && answer == parts[0] + Marker + Join(parts[1..], Marker)
            && !Contains(parts[0], Marker)
            && r.response == Strip(parts[0])
            && r.arxivId != []
            && (forall c :: c in r.arxivId ==> !IsSpace(c))
            && StartsWith(TrimLeft(parts[1]), r.arxivId)
            && !Contains(parts[1], Marker)
            && (|r.arxivId| < |TrimLeft(parts[1])| ==> IsSpace(TrimLeft(parts[1])[|r.arxivId|]))))
  {
    SplitOnPieces(answer, Marker);
    SplitOnJoin(answer, Marker);
    var parts := SplitOn(answer, Marker);
    if Contains(answer, Marker) {
      assert Join(parts, Marker) == parts[0] + Marker + Join(parts[1..], Marker);
    }
  }

  /** The paper section appended to the answer when an id was found. */
  function PaperSection(id: string, lookup: PaperLookup): string
  {
    match lookup
    case Paper(info) =>
      "## \U{1F4DA} Research Paper Information\n\n" + info
    case NoPaper =>
      "## \U{26A0}\U{FE0F} Could Not Fetch Paper\n\nCould not retrieve arXiv paper " + id
      + ". Please visit " + AbsUrl + id + " directly."
    case LookupFailed(message) =>
      "## \U{26A0}\U{FE0F} Paper Fetch Failed\n\nError fetching arXiv paper " + id + ": " + message
      + "\n\nPlease visit " + AbsUrl + id + " directly."
  }

  /** What `run_search` answers, given the agents' runs and the paper lookup. */
  function SearchResponse(terms: AgentRun, hub: string -> AgentRun, lookup: string -> PaperLookup): Response
  {
    match terms
    case Cancelled => Stopped
    case Raised(message) => Failure(message)
    case Finished(searchTerms) =>
      match hub(searchTerms)
      case Cancelled => Stopped
      case Raised(message) => Failure(message)
      case Finished(answer) =>
        match ParseMarker(answer)
        case Unmarked => Success(answer, searchTerms, None)
        case MissingId => Failure(IndexErrorText)
        case Marked(before, id) => Success(before + Separator + PaperSection(id, lookup(id)), searchTerms, Some(id))
  }

  /**
   * `run_search`, lines 89-146: the answer is reassigned as the marker is
   * split off and the paper section appended.
   */
  method RunSearch(terms: AgentRun, hub: string -> AgentRun, lookup: string -> PaperLookup) returns (r: Response)
    ensures r == SearchResponse(terms, hub, lookup)
  {
    if terms.Cancelled? { return Stopped; }
    if terms.Raised? { return Failure(terms.message); }
    var searchTerms := terms.output;
    var run := hub(searchTerms);
    if run.Cancelled? { return Stopped; }
    if run.Raised? { return Failure(run.message); }
    var hfResponse := run.output;
    var arxivId: Option<string> := None;
    if Contains(hfResponse, Marker) {
      var parts := SplitOn(hfResponse, Marker);
      if |parts| > 1 {
        var id := FirstWord(parts[1]);
        if id == [] {
          return Failure(IndexErrorText);
        }
        arxivId := Some(id);
        hfResponse := Strip(parts[0]);
      }
    }
    var finalResponse := hfResponse;
    if arxivId.Some? {
      finalResponse := hfResponse + Separator + PaperSection(arxivId.value, lookup(arxivId.value));
    }
    r := Success(finalResponse, searchTerms, arxivId);
  }

  /**
   * The answer's shape: "success" exactly when both agents finished and no
   * marker is left without an id; an unmarked answer passes through
   * unchanged with no id; a marked one keeps the stripped text before the
   * marker, then the separator, then the paper section.
   */
  lemma SearchResponseSpec(terms: AgentRun, hub: string -> AgentRun, lookup: string -> PaperLookup)
    ensures var r := SearchResponse(terms, hub, lookup);
      && (Status(r) == "success" <==>
            terms.Finished? && hub(terms.output).Finished? && !ParseMarker(hub(terms.output).output).MissingId?)
      && (Status(r) == "cancelled" <==> terms.Cancelled? || (terms.Finished? && hub(terms.output).Cancelled?))
      && (r.Success? && r.arxivId.None? ==> r.response == hub(terms.output).output && !Contains(r.response, Marker))
      && (r.Success? && r.arxivId.Some? ==>
            && ParseMarker(hub(terms.output).output) == Marked(Strip(SplitOn(hub(terms.output).output, Marker)[0]), r.arxivId.value)
            && StartsWith(r.response, Strip(SplitOn(hub(terms.output).output, Marker)[0]) + Separator))
      && (r.Failure? && terms.Finished? && hub(terms.output).Finished? ==> ResponseText(r) == "Error: " + IndexErrorText)
  {
    var r := SearchResponse(terms, hub, lookup);
    if r.Success? && r.arxivId.Some? {
      var answer := hub(terms.output).output;
      var before := Strip(SplitOn(answer, Marker)[0]);
      var rest := PaperSection(r.arxivId.value, lookup(r.arxivId.value));
      assert r.response == (before + Separator) + rest;
    }
  }
}
