/**
 * The question-search helper (`questionSearch` in question-search/search.ts):
 * throws unless the input names both a company and a role, then searches for
 * interview questions with the company and role as one query and returns the
 * normalised evidence. Errors of the search itself propagate to the caller.
 */
module QuestionSearchHelper {
  import opened Wrappers
  import opened JsText
  import opened Evidence
  import opened Research

  const CompanyKeys := ["company", "company_name"]
  const RoleKeys := ["role"]

  /** `(body.company ?? body.company_name ?? "").trim()` */
  function Company(input: RequestBody): string {
    Trim(Coalesce(input.fields, CompanyKeys))
  }

  /** `(body.role ?? "").trim()` */
  function Role(input: RequestBody): string {
    Trim(Coalesce(input.fields, RoleKeys))
  }

  /** `` `${company} ${role}`.trim() `` */
  function CompanyRole(company: string, role: string): string {
    Trim(company + " " + role)
  }

  /** With both parts present and already trimmed, the outer trim changes nothing: the query is "company role". */
  lemma CompanyRoleJoinsParts(company: string, role: string)
    requires company != "" && role != ""
    requires !IsWhitespace(company[0]) && !IsWhitespace(role[|role| - 1])
    ensures CompanyRole(company, role) == company + " " + role
  {
    var s := company + " " + role;
    assert s[0] == company[0];
    assert s[|s| - 1] == role[|role| - 1];
    TrimUnchanged(s);
  }

  const GlassdoorQuery := "site:glassdoor.com interview questions"
  const RedditQuery := "site:reddit.com interview questions"
  const IndeedQuery := "site:indeed.com interview questions"

  /** The `search_queries` list after `filter(Boolean)`. */
  function Queries(companyRole: string): seq<string> {
    Compact([companyRole, GlassdoorQuery, RedditQuery, IndeedQuery])
  }

  const ObjectiveIntro := "Find the most commonly asked interview questions for this company and role."

  /** The objective lines after `filter(Boolean)`, before they are joined. */
  function ObjectiveLines(company: string, role: string): seq<string> {
    Compact([
      ObjectiveIntro,
      When(company != "", "Company: " + company),
      When(role != "", "Role: " + role),
      SourcesGuidance])
  }

  /** The objective text: the lines joined with "\n". */
  function Objective(company: string, role: string): string {
    Join(ObjectiveLines(company, role), "\n")
  }

  /** `body.timeout_ms ?? 15000` and the other fixed search options. */
  function Request(input: RequestBody): (req: SearchRequest)
    ensures req.queries == Queries(CompanyRole(Company(input), Role(input)))
    ensures req.objective == Objective(Company(input), Role(input))
    ensures input.timeoutMs.None? ==> req.timeoutMs == 15000
    ensures req.timeoutMs == TimeoutMs(input)
    ensures req.processor == "base" && req.maxResults == 10 && req.maxCharsPerResult == 6000
  {
    var company, role := Company(input), Role(input);
    SearchRequest(Objective(company, role), Queries(CompanyRole(company, role)),
                  "base", 10, 6000, TimeoutMs(input))
  }

  /** Records typed "question", with ids `question-<i>` and the title "Interview Question Source" by default. */
  const QuestionProfile := Profile("question-", "question", "Interview Question Source", true)

  const MissingCompanyMessage := "Missing company to search data for."
  const MissingRoleMessage := "Missing role to search data for."

  /** The helper: the company check, then the role check, then the search, whose errors are rethrown as they are. */
  function Run(input: RequestBody, outcome: SearchOutcome): (c: HelperCall)
    ensures Company(input) == "" ==> c == HelperCall(None, Thrown(MissingCompanyMessage))
    ensures (Company(input) != "" && Role(input) == "") ==> c == HelperCall(None, Thrown(MissingRoleMessage))
    ensures (Company(input) != "" && Role(input) != "") ==> c.sent == Some(Request(input))
    ensures (c.sent.Some? && outcome.Rejected?) ==> c.result == Thrown(outcome.message)
    ensures (c.sent.Some? && outcome.Found?) ==> c.result == Returned(Normalize(QuestionProfile, outcome.results))
  {
    var company, role := Company(input), Role(input);
    if company == "" then HelperCall(None, Thrown(MissingCompanyMessage))
    else if role == "" then HelperCall(None, Thrown(MissingRoleMessage))
    else
      var req := Request(input);
      match outcome
      case Rejected(message) => HelperCall(Some(req), Thrown(message))
      case Found(results) => HelperCall(Some(req), Returned(Normalize(QuestionProfile, results)))
  }

  /** When both checks pass, the queries are "company role" followed by the three site queries. */
  lemma SentQueries(input: RequestBody)
    requires Company(input) != "" && Role(input) != ""
    ensures Request(input).queries
      == [Company(input) + " " + Role(input), GlassdoorQuery, RedditQuery, IndeedQuery]
  {
    CompanyRoleQueries(Company(input), Role(input));
  }

  lemma CompanyRoleQueries(company: string, role: string)
    requires company != "" && role != ""
    requires !IsWhitespace(company[0]) && !IsWhitespace(role[|role| - 1])
    ensures Queries(CompanyRole(company, role)) == [company + " " + role, GlassdoorQuery, RedditQuery, IndeedQuery]
  {
    var t := CompanyRole(company, role);
    assert t != "" by { CompanyRoleJoinsParts(company, role); }
    QueriesOf(t);
    assert t == company + " " + role by { CompanyRoleJoinsParts(company, role); }
  }

  lemma QueriesOf(companyRole: string)
    requires companyRole != ""
    ensures Queries(companyRole) == [companyRole, GlassdoorQuery, RedditQuery, IndeedQuery]
  {
    CompactKeepsNonEmpty([companyRole, GlassdoorQuery, RedditQuery, IndeedQuery]);
  }

  /** When both checks pass, the objective has a line for the company and one for the role. */
  lemma SentObjectiveLines(input: RequestBody)
    requires Company(input) != "" && Role(input) != ""
    ensures ObjectiveLines(Company(input), Role(input))
      == [ObjectiveIntro, "Company: " + Company(input), "Role: " + Role(input), SourcesGuidance]
  {
    var lines := [ObjectiveIntro, "Company: " + Company(input), "Role: " + Role(input), SourcesGuidance];
    CompactKeepsNonEmpty(lines);
  }
}
