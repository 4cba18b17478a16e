/**
 * The company-search route (`POST /api/parallel-research/company-search`):
 * reads a company from the body, searches for its culture, values and news
 * against a deadline and answers with the objective, the queries and the
 * normalised evidence, or with a 504 on timeout and a 500 otherwise.
 */
module CompanySearchRoute {
  import opened Wrappers
  import opened JsText
  import opened Evidence
  import opened Research

  const CompanyKeys := ["company", "company_name"]

  /** `(body.company ?? body.company_name ?? "").trim()` */
  function Company(body: RequestBody): string {
    Trim(Coalesce(body.fields, CompanyKeys))
  }

  /** `[company || undefined].filter(Boolean)`: the company alone, or no query at all. */
  function Queries(company: string): (qs: seq<string>)
    ensures company != "" ==> qs == [company]
    ensures company == "" ==> qs == []
  {
    Compact([company])
  }

  const ObjectiveIntro := "Identify the companies culture, values, and recent news to help prepare tailored interview questions."

  /** The objective lines after `filter(Boolean)`, before they are joined. */
  function ObjectiveLines(company: string): seq<string> {
    Compact([ObjectiveIntro, When(company != "", "Company: " + company), SourcesGuidance])
  }

  /** The objective text: the lines joined with "\n". */
  function Objective(company: string): string {
    Join(ObjectiveLines(company), "\n")
  }

  /** The two fixed lines, with the company line between them only when there is a company. */
  lemma ObjectiveByCase(company: string)
    ensures ObjectiveLines(company) ==
      [ObjectiveIntro] + (if company != "" then ["Company: " + company] else []) + [SourcesGuidance]
  {
    var companyLine := When(company != "", "Company: " + company);
    CompactCons(SourcesGuidance, []);
    CompactCons(companyLine, [SourcesGuidance]);
    CompactCons(ObjectiveIntro, [companyLine, SourcesGuidance]);
  }

  /** `Number(body.timeout_ms ?? 15000)` and the other fixed search options. */
  function Request(body: RequestBody): (req: SearchRequest)
    ensures req.queries == Queries(Company(body)) && req.objective == Objective(Company(body))
    ensures body.timeoutMs.None? ==> req.timeoutMs == 15000
    ensures req.timeoutMs == TimeoutMs(body)
    ensures req.processor == "base" && req.maxResults == 10 && req.maxCharsPerResult == 6000
  {
    var company := Company(body);
    SearchRequest(Objective(company), Queries(company), "base", 10, 6000, TimeoutMs(body))
  }

  const MissingKeyMessage := "Missing PARALLEL_API_KEY on the server"

  /** The whole handler. There is no company check: an empty company still searches, with no queries. */
  function Handle(body: RequestBody, hasApiKey: bool, outcome: SearchOutcome): (x: Exchange)
    ensures x.sent.Some? <==> hasApiKey
    ensures !hasApiKey ==> x.response == Response(500, Failure(MissingKeyMessage, None))
    ensures hasApiKey ==> x.sent == Some(Request(body))
    ensures x.response.status == 504 <==> hasApiKey && outcome == Rejected(TimeoutMessage)
    ensures x.response.status == DefaultStatus <==> hasApiKey && outcome.Found?
    ensures hasApiKey && outcome.Rejected? ==> x.response == ErrorResponse(outcome.message)
    ensures hasApiKey && outcome.Found? ==>
      x.response.body == Research(Objective(Company(body)), Queries(Company(body)),
                                  Normalize(SourceProfile, outcome.results))
  {
    if !hasApiKey then
      Exchange(None, Response(500, Failure(MissingKeyMessage, None)))
    else
      var req := Request(body);
      match outcome
      case Rejected(message) => Exchange(Some(req), ErrorResponse(message))
      case Found(results) =>
        Exchange(Some(req), Response(DefaultStatus, Research(req.objective, req.queries, Normalize(SourceProfile, results))))
  }
}
