/**
 * The question-search route (`POST /api/parallel-research/question-search`):
 * requires a company, adds the role and the job posting URL when given, runs
 * one web search with three fixed site queries against a deadline and answers
 * with the normalised evidence; every thrown error becomes a 500.
 */
module QuestionSearchRoute {
  import opened Wrappers
  import opened JsText
  import opened Evidence
  import opened Research

  const CompanyKeys := ["company", "company_name"]
  const RoleKeys := ["role"]
  const JobUrlKeys := ["jobURL", "job_link"]

  /** `(body.company ?? body.company_name ?? "").trim()` */
  function Company(body: RequestBody): string {
    Trim(Coalesce(body.fields, CompanyKeys))
  }

  /** `(body.role ?? "").trim()` */
  function Role(body: RequestBody): string {
    Trim(Coalesce(body.fields, RoleKeys))
  }

  /** `(body.jobURL ?? body.job_link ?? "").trim()` */
  function JobUrl(body: RequestBody): string {
    Trim(Coalesce(body.fields, JobUrlKeys))
  }

  const GlassdoorQuery := "site:glassdoor.com interview questions"
  const RedditQuery := "site:reddit.com interview questions"
  const LeetcodeQuery := "site:leetcode.com interview questions"

  /** The `search_query` list after `filter(Boolean)`. */
  function Queries(company: string, role: string, jobUrl: string): seq<string> {
    Compact([company, role, jobUrl, GlassdoorQuery, RedditQuery, LeetcodeQuery])
  }

  /** The non-empty inputs in order, followed by the three site queries, which are always there. */
  lemma QueriesByCase(company: string, role: string, jobUrl: string)
    ensures Queries(company, role, jobUrl) ==
      (if company != "" then [company] else [])
      + (if role != "" then [role] else [])
      + (if jobUrl != "" then [jobUrl] else [])
      + [GlassdoorQuery, RedditQuery, LeetcodeQuery]
  {
    var sites := [GlassdoorQuery, RedditQuery, LeetcodeQuery];
    assert [company, role, jobUrl, GlassdoorQuery, RedditQuery, LeetcodeQuery] == [company, role, jobUrl] + sites;
    CompactThreeBefore(company, role, jobUrl, sites);
    CompactKeepsNonEmpty(sites);
  }

  const ObjectiveIntro := "Find the most common interview questions for this company/role."

  /** The objective lines after `filter(Boolean)`, before they are joined. */
  function ObjectiveLines(company: string, role: string, jobUrl: string): seq<string> {
    Compact([
      ObjectiveIntro,
      When(company != "", "Company: " + company),
      When(role != "", "Role: " + role),
      When(jobUrl != "", "Use this job posting URL if helpful: " + jobUrl)])
  }

  /** The objective text: the lines joined with "\n". */
  function Objective(company: string, role: string, jobUrl: string): string {
    Join(ObjectiveLines(company, role, jobUrl), "\n")
  }

  /** The fixed first line, then one labelled line for each non-empty input, in order. */
  lemma ObjectiveByCase(company: string, role: string, jobUrl: string)
    ensures ObjectiveLines(company, role, jobUrl) ==
      [ObjectiveIntro]
      + (if company != "" then ["Company: " + company] else [])
      + (if role != "" then ["Role: " + role] else [])
      + (if jobUrl != "" then ["Use this job posting URL if helpful: " + jobUrl] else [])
  {
    var companyLine := When(company != "", "Company: " + company);
    var roleLine := When(role != "", "Role: " + role);
    var urlLine := When(jobUrl != "", "Use this job posting URL if helpful: " + jobUrl);
    CompactFour(ObjectiveIntro, companyLine, roleLine, urlLine);
  }

  /** `body.timeout_ms ?? 15000` and the other fixed search options. */
  function Request(body: RequestBody): (req: SearchRequest)
    ensures req.queries == Queries(Company(body), Role(body), JobUrl(body))
    ensures req.objective == Objective(Company(body), Role(body), JobUrl(body))
    ensures body.timeoutMs.None? ==> req.timeoutMs == 15000
    ensures req.timeoutMs == TimeoutMs(body)
    ensures req.processor == "base" && req.maxResults == 10 && req.maxCharsPerResult == 6000
  {
    var company, role, jobUrl := Company(body), Role(body), JobUrl(body);
    SearchRequest(Objective(company, role, jobUrl), Queries(company, role, jobUrl),
                  "base", 10, 6000, TimeoutMs(body))
  }

  /** Records typed "question", with ids `question-<i>` and the title "Interview question source" by default. */
  const QuestionProfile := Profile("question-", "question", "Interview question source", true)

  const MissingCompanyMessage := "Missing the company to search for."
  const MissingKeyMessage := "Missing PARALLEL_API_KEY on server"
  const SearchFailedMessage := "Error initializing Parallel client."

  /** The whole handler: the company check (400) comes before the key check (500). */
  function Handle(body: RequestBody, hasApiKey: bool, outcome: SearchOutcome): (x: Exchange)
    ensures Company(body) == "" ==> x == Exchange(None, Response(400, EncodedFailure(MissingCompanyMessage)))
    ensures (Company(body) != "" && !hasApiKey) ==>
      x == Exchange(None, Response(500, Failure(MissingKeyMessage, None)))
    ensures (Company(body) != "" && hasApiKey) ==> x.sent == Some(Request(body))
    ensures (x.sent.Some? && outcome.Rejected?) ==>
      x.response == Response(500, Failure(SearchFailedMessage, Some(outcome.message)))
    ensures (x.sent.Some? && outcome.Found?) ==>
      x.response == Response(DefaultStatus, EvidenceList(Normalize(QuestionProfile, outcome.results)))
  {
    if Company(body) == "" then
      Exchange(None, Response(400, EncodedFailure(MissingCompanyMessage)))
    else if !hasApiKey then
      Exchange(None, Response(500, Failure(MissingKeyMessage, None)))
    else
      var req := Request(body);
      match outcome
      case Rejected(message) =>
        Exchange(Some(req), Response(500, Failure(SearchFailedMessage, Some(message))))
      case Found(results) =>
        Exchange(Some(req), Response(DefaultStatus, EvidenceList(Normalize(QuestionProfile, results))))
  }

  /** A search is sent exactly when there is a company and a key, and then it always holds the company as a query. */
  lemma SearchOnlyAfterChecks(body: RequestBody, hasApiKey: bool, outcome: SearchOutcome)
    ensures Handle(body, hasApiKey, outcome).sent.Some? <==> Company(body) != "" && hasApiKey
    ensures Handle(body, hasApiKey, outcome).sent.Some? ==>
      |Handle(body, hasApiKey, outcome).sent.value.queries| >= 4
      && Handle(body, hasApiKey, outcome).sent.value.queries[0] == Company(body)
  {
    QueriesByCase(Company(body), Role(body), JobUrl(body));
  }

  /** There is no timeout branch: a deadline error is a 500 like any other. */
  lemma NoGatewayTimeout(body: RequestBody, hasApiKey: bool, outcome: SearchOutcome)
    ensures Handle(body, hasApiKey, outcome).response.status in {DefaultStatus, 400, 500}
    ensures outcome == Rejected(TimeoutMessage) && Handle(body, hasApiKey, outcome).sent.Some? ==>
      Handle(body, hasApiKey, outcome).response.status == 500
  {
  }
}
