/**
 * The company-search helper (`companySearch` in company-search/search.ts):
 * throws unless the input names a company and the key is configured, then
 * searches for the company's culture, values and news and returns the
 * normalised evidence. Errors of the search itself propagate to the caller.
 */
module CompanySearchHelper {
  import opened Wrappers
  import opened JsText
  import opened Evidence
  import opened Research

  const CompanyKeys := ["company", "company_name"]

  /** `(body.company ?? body.company_name ?? "").trim()` */
  function Company(input: RequestBody): string {
    Trim(Coalesce(input.fields, CompanyKeys))
  }

  const ObjectiveIntro := "Identify the companies culture, values, and recent news to help prepare tailored interview questions."

  /** The objective lines after `filter(Boolean)`, before they are joined. */
  function ObjectiveLines(company: string): seq<string> {
    Compact([ObjectiveIntro, When(company != "", "Company: " + company), SourcesGuidance])
  }

  /** The objective text: the lines joined with "\n". */
  function Objective(company: string): string {
    Join(ObjectiveLines(company), "\n")
  }

  /** `body.timeout_ms ?? 15000` and the other fixed search options; the one query is the company. */
  function Request(input: RequestBody): (req: SearchRequest)
    ensures req.queries == (if Company(input) == "" then [] else [Company(input)])
    ensures req.objective == Objective(Company(input))
    ensures input.timeoutMs.None? ==> req.timeoutMs == 15000
    ensures req.timeoutMs == TimeoutMs(input)
    ensures req.processor == "base" && req.maxResults == 10 && req.maxCharsPerResult == 6000
  {
    var company := Company(input);
    SearchRequest(Objective(company), Compact([company]), "base", 10, 6000, TimeoutMs(input))
  }

  /** Records typed "question", with ids `question-<i>` and the title "Interview Question Source" by default. */
  const QuestionProfile := Profile("question-", "question", "Interview Question Source", true)

  const MissingCompanyMessage := "Missing company data to search for."
  const MissingKeyMessage := "Missing Parallel API key for search."

  /** The helper: the company check, then the key check, then the search, whose errors are rethrown as they are. */
  function Run(input: RequestBody, hasApiKey: bool, outcome: SearchOutcome): (c: HelperCall)
    ensures Company(input) == "" ==> c == HelperCall(None, Thrown(MissingCompanyMessage))
    ensures (Company(input) != "" && !hasApiKey) ==> c == HelperCall(None, Thrown(MissingKeyMessage))
    ensures (Company(input) != "" && hasApiKey) ==> c.sent == Some(Request(input))
    ensures (c.sent.Some? && outcome.Rejected?) ==> c.result == Thrown(outcome.message)
    ensures (c.sent.Some? && outcome.Found?) ==> c.result == Returned(Normalize(QuestionProfile, outcome.results))
  {
    var company := Company(input);
    if company == "" then HelperCall(None, Thrown(MissingCompanyMessage))
    else if !hasApiKey then HelperCall(None, Thrown(MissingKeyMessage))
    else
      var req := Request(input);
      match outcome
      case Rejected(message) => HelperCall(Some(req), Thrown(message))
      case Found(results) => HelperCall(Some(req), Returned(Normalize(QuestionProfile, results)))
  }

  /** Whenever a search is sent, the company is its only query and the objective has all three lines. */
  lemma SentSearchNamesCompany(input: RequestBody, hasApiKey: bool, outcome: SearchOutcome)
    requires Run(input, hasApiKey, outcome).sent.Some?
    ensures var req := Run(input, hasApiKey, outcome).sent.value;
      && req.queries == [Company(input)]
      && ObjectiveLines(Company(input)) == [ObjectiveIntro, "Company: " + Company(input), SourcesGuidance]
  {
    var lines := [ObjectiveIntro, "Company: " + Company(input), SourcesGuidance];
    CompactKeepsNonEmpty(lines);
  }
}
