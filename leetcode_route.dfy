/**
 * The LeetCode-search route (`POST /api/parallel-research/leetcode-search`):
 * requires a company and a role, builds five site-restricted queries around
 * the company, runs one web search against a deadline and answers with the
 * normalised evidence; every thrown error becomes a 500.
 */
module LeetcodeSearchRoute {
  import opened Wrappers
  import opened JsText
  import opened Evidence
  import opened Research

  const CompanyKeys := ["company", "company_name"]
  const RoleKeys := ["role"]

  /** `(body.company ?? body.company_name ?? "").trim()` */
  function Company(body: RequestBody): string {
    Trim(Coalesce(body.fields, CompanyKeys))
  }

  /** `(body.role ?? "").trim()` */
  function Role(body: RequestBody): string {
    Trim(Coalesce(body.fields, RoleKeys))
  }

  /** `company.toLowerCase().replace(/\s+/g, "-")`: the company's path segment on leetcode.com. */
  function Slug(company: string): string {
    DashWhitespaceRuns(Lower(company))
  }

  /** The slug has no whitespace and is no longer than the name; a name without whitespace is only lower-cased. */
  lemma SlugShape(company: string)
    ensures |Slug(company)| <= |company|
    ensures forall k :: 0 <= k < |Slug(company)| ==> !IsWhitespace(Slug(company)[k])
    ensures (forall k :: 0 <= k < |company| ==> !IsWhitespace(company[k])) ==> Slug(company) == Lower(company)
  {
    var low := Lower(company);
    if forall k :: 0 <= k < |company| ==> !IsWhitespace(company[k]) {
      forall k | 0 <= k < |low| ensures !IsWhitespace(low[k]) {
        LowerKeepsWhitespace(company[k]);
      }
      DashWhitespaceRunsNoop(low);
    }
  }

  /**
   * Each whitespace run of the name becomes one dash: a whitespace-free part `u`,
   * a whole run `w` and the rest `v` give the lower-cased `u`, a dash, and the rest's slug.
   */
  lemma SlugOfRun(u: string, w: string, v: string)
    requires forall k :: 0 <= k < |u| ==> !IsWhitespace(u[k])
    requires w != [] && IsBlank(w)
    requires v == [] || !IsWhitespace(v[0])
    ensures Slug(u + w + v) == Lower(u) + "-" + Slug(v)
  {
    assert Lower(u + w + v) == Lower(u) + Lower(w) + Lower(v);
    forall k | 0 <= k < |u| ensures !IsWhitespace(Lower(u)[k]) {
      LowerKeepsWhitespace(u[k]);
    }
    forall k | 0 <= k < |w| ensures IsWhitespace(Lower(w)[k]) {
      LowerKeepsWhitespace(w[k]);
    }
    if v != [] {
      LowerKeepsWhitespace(v[0]);
    }
    DashWhitespaceRun(Lower(u), Lower(w), Lower(v));
  }

  const CompanyPagePrefix := "site:leetcode.com/company/"
  const DiscussPrefix := "site:leetcode.com/discuss \"interview questions\" "
  const GithubPrefix := "site:github.com "
  const MediumPrefix := "site:medium.com "
  const RedditPrefix := "site:reddit.com "
  const QuestionsSuffix := " leetcode interview questions"
  const InterviewSuffix := " leetcode interview"

  /** The fixed list of five queries, in order. */
  function Queries(company: string): seq<string> {
    [
      CompanyPagePrefix + Slug(company),
      DiscussPrefix + company,
      GithubPrefix + company + QuestionsSuffix,
      MediumPrefix + company + InterviewSuffix,
      RedditPrefix + company + QuestionsSuffix
    ]
  }

  /** Always five queries: the company page by slug first, then four that each embed the company as given. */
  lemma QueriesShape(company: string)
    ensures |Queries(company)| == 5
    ensures Queries(company)[0] == CompanyPagePrefix + Slug(company)
    ensures forall k :: 1 <= k < 5 ==> Contains(Queries(company)[k], company)
  {
    var qs := Queries(company);
    forall k | 1 <= k < 5 ensures Contains(qs[k], company) {
      if k == 1 {
        ContainsMiddle(DiscussPrefix, company, "");
        assert qs[1] == DiscussPrefix + company + "";
      } else if k == 2 {
        ContainsMiddle(GithubPrefix, company, QuestionsSuffix);
      } else if k == 3 {
        ContainsMiddle(MediumPrefix, company, InterviewSuffix);
      } else {
        ContainsMiddle(RedditPrefix, company, QuestionsSuffix);
      }
    }
  }

  /** The template-literal objective around the company, line breaks and indentation included. */
  const ObjectiveLead := "\n    Find LeetCode-style interview questions asked by "
  const ObjectiveTail := ".\n"
    + "    Prefer official LeetCode company pages, discussion threads, and GitHub repositories.\n"
    + "    Return 5\U{2013}10 representative questions with short summaries and URLs.\n"
    + "    Exclude unrelated results.\n    "

  function Objective(company: string): string {
    ObjectiveLead + company + ObjectiveTail
  }

  lemma ObjectiveNamesCompany(company: string)
    ensures Contains(Objective(company), company)
  {
    ContainsMiddle(ObjectiveLead, company, ObjectiveTail);
  }

  /** `body.timeout_ms ?? 15000` and the other fixed search options. */
  function Request(company: string, body: RequestBody): (req: SearchRequest)
    ensures req.queries == Queries(company) && req.objective == Objective(company)
    ensures body.timeoutMs.None? ==> req.timeoutMs == 15000
    ensures req.timeoutMs == TimeoutMs(body)
    ensures req.processor == "base" && req.maxResults == 10 && req.maxCharsPerResult == 6000
  {
    SearchRequest(Objective(company), Queries(company), "base", 10, 6000, TimeoutMs(body))
  }

  /** Records typed "question", with ids `question-<i>` and the title "Interview question source" by default. */
  const QuestionProfile := Profile("question-", "question", "Interview question source", true)

  const MissingCompanyMessage := "Missing company name from request."
  const MissingRoleMessage := "Missing role to search for."
  const MissingKeyMessage := "Missing Parallel API Key."
  const SearchFailedMessage := "Error initializing Parallel client."

  /**
   * The whole handler. The company check comes first (400), then the role check,
   * whose response sets no status and so carries the default 200, then the key check (500).
   */
  function Handle(body: RequestBody, hasApiKey: bool, outcome: SearchOutcome): (x: Exchange)
    ensures Company(body) == "" ==> x == Exchange(None, Response(400, EncodedFailure(MissingCompanyMessage)))
    ensures Company(body) != "" && Role(body) == "" ==>
      x == Exchange(None, Response(DefaultStatus, EncodedFailure(MissingRoleMessage)))
    ensures (Company(body) != "" && Role(body) != "" && !hasApiKey) ==>
      x == Exchange(None, Response(500, Failure(MissingKeyMessage, None)))
    ensures (Company(body) != "" && Role(body) != "" && hasApiKey) ==>
      x.sent == Some(Request(Company(body), body))
    ensures (x.sent.Some? && outcome.Rejected?) ==>
      x.response == Response(500, Failure(SearchFailedMessage, Some(outcome.message)))
    ensures (x.sent.Some? && outcome.Found?) ==>
      x.response == Response(DefaultStatus, EvidenceList(Normalize(QuestionProfile, outcome.results)))
  {
    var company, role := Company(body), Role(body);
    if company == "" then
      Exchange(None, Response(400, EncodedFailure(MissingCompanyMessage)))
    else if role == "" then
      Exchange(None, Response(DefaultStatus, EncodedFailure(MissingRoleMessage)))
    else if !hasApiKey then
      Exchange(None, Response(500, Failure(MissingKeyMessage, None)))
    else
      var req := Request(company, body);
      match outcome
      case Rejected(message) =>
        Exchange(Some(req), Response(500, Failure(SearchFailedMessage, Some(message))))
      case Found(results) =>
        Exchange(Some(req), Response(DefaultStatus, EvidenceList(Normalize(QuestionProfile, results))))
  }

  /** A search is sent only once the company, the role and the key have all been found. */
  lemma SearchOnlyAfterChecks(body: RequestBody, hasApiKey: bool, outcome: SearchOutcome)
    ensures Handle(body, hasApiKey, outcome).sent.Some? <==> Company(body) != "" && Role(body) != "" && hasApiKey
  {
  }

  /** There is no timeout branch: a deadline error is a 500 like any other. */
  lemma NoGatewayTimeout(body: RequestBody, hasApiKey: bool, outcome: SearchOutcome)
    ensures Handle(body, hasApiKey, outcome).response.status in {DefaultStatus, 400, 500}
    ensures outcome == Rejected(TimeoutMessage) && Handle(body, hasApiKey, outcome).sent.Some? ==>
      Handle(body, hasApiKey, outcome).response.status == 500
  {
  }
}
