/**
 * The interviewer-search helper (`interviewerSearch` in interviewer-search/search.ts):
 * throws unless the input carries a LinkedIn URL, then searches with that URL
 * as the only query for a single result and returns it normalised, without
 * snippets. Errors of the search itself propagate to the caller.
 */
module InterviewerSearchHelper {
  import opened Wrappers
  import opened JsText
  import opened Evidence
  import opened Research

  const UrlKey := "interviewer_linkedin_url"

  /** `input.interviewer_linkedin_url`, taken as it is (not trimmed); `None` when absent. */
  function LinkedInUrl(input: RequestBody): (u: Option<string>)
    ensures u.Some? <==> UrlKey in input.fields
    ensures u.Some? ==> u.value == input.fields[UrlKey]
  {
    if UrlKey in input.fields then Some(input.fields[UrlKey]) else None
  }

  const ObjectiveIntro := "Given the following LinkedIn URL, extract key professional, educational, and extracurricular information that can be used to create thoughtful, personalized interview questions tailored to their background, experiences, achievements, and interests."

  /** The two objective lines joined with "\n". */
  function Objective(url: string): string {
    Join([ObjectiveIntro, "LinkedIn URL: " + url], "\n")
  }

  /** The objective is the fixed instruction, a line break and the labelled URL. */
  lemma ObjectiveShape(url: string)
    ensures Objective(url) == ObjectiveIntro + "\nLinkedIn URL: " + url
    ensures Contains(Objective(url), url)
  {
    assert [ObjectiveIntro, "LinkedIn URL: " + url][1..] == ["LinkedIn URL: " + url];
    assert ObjectiveIntro + "\n" + ("LinkedIn URL: " + url) == ObjectiveIntro + "\nLinkedIn URL: " + url;
    ContainsMiddle(ObjectiveIntro + "\nLinkedIn URL: ", url, "");
    assert ObjectiveIntro + "\nLinkedIn URL: " + url + "" == Objective(url);
  }

  /** `input.timeout_ms ?? 15000`, one result of at most 6000 characters, the URL as the only query. */
  function Request(url: string, input: RequestBody): (req: SearchRequest)
    ensures req.queries == [url]
    ensures req.objective == Objective(url)
    ensures input.timeoutMs.None? ==> req.timeoutMs == 15000
    ensures req.timeoutMs == TimeoutMs(input)
    ensures req.processor == "base" && req.maxResults == 1 && req.maxCharsPerResult == 6000
  {
    SearchRequest(Objective(url), [url], "base", 1, 6000, TimeoutMs(input))
  }

  /** Records typed "LinkedIn User", with ids `person-<i>`, the title "LinkedIn Profile" by default and no snippet key. */
  const PersonProfile := Profile("person-", "LinkedIn User", "LinkedIn Profile", false)

  const MissingUrlMessage := "Missing interviewer LinkedIn URL to search for."

  /** The helper: an absent or empty URL throws; otherwise the search runs and its errors are rethrown as they are. */
  function Run(input: RequestBody, outcome: SearchOutcome): (c: HelperCall)
    ensures c.sent.Some? <==> UrlKey in input.fields && input.fields[UrlKey] != ""
    ensures c.sent.None? ==> c.result == Thrown(MissingUrlMessage)
    ensures c.sent.Some? ==> c.sent == Some(Request(input.fields[UrlKey], input))
    ensures (c.sent.Some? && outcome.Rejected?) ==> c.result == Thrown(outcome.message)
    ensures (c.sent.Some? && outcome.Found?) ==> c.result == Returned(Normalize(PersonProfile, outcome.results))
  {
    match LinkedInUrl(input)
    case None => HelperCall(None, Thrown(MissingUrlMessage))
    case Some(url) =>
      if url == "" then HelperCall(None, Thrown(MissingUrlMessage))
      else
        var req := Request(url, input);
        match outcome
        case Rejected(message) => HelperCall(Some(req), Thrown(message))
        case Found(results) => HelperCall(Some(req), Returned(Normalize(PersonProfile, results)))
  }

  /** The interviewer records carry no snippet, and there is at most one of them when the service keeps to `max_results`. */
  lemma PersonRecordsHaveNoSnippet(input: RequestBody, rs: seq<RawResult>)
    requires Run(input, Found(Some(rs))).sent.Some?
    ensures var ev := Run(input, Found(Some(rs))).result.evidence;
      && |ev| == |rs|
      && (forall k :: 0 <= k < |ev| ==> ev[k].snippet == Omitted && ev[k].kind == "LinkedIn User")
      && (|rs| <= Run(input, Found(Some(rs))).sent.value.maxResults ==> |ev| <= 1)
  {
  }
}
