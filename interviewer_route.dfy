/**
 * The interviewer-search route (`POST /api/parallel-research/interviewer-search`):
 * reads an interviewer name and a company from the body, builds quoted and
 * bare search queries and a line-by-line objective, runs one web search
 * against a deadline and answers with the objective, the queries and the
 * normalised evidence, or with a 504 on timeout and a 500 otherwise.
 */
module InterviewerSearchRoute {
  import opened Wrappers
  import opened JsText
  import opened Evidence
  import opened Research

  const InterviewerKeys := ["interviewer", "interviewer_name"]
  const CompanyKeys := ["company", "company_name", "company_legal_name", "org"]

  /** `(body.interviewer ?? body.interviewer_name ?? "").trim()` */
  function Interviewer(body: RequestBody): string {
    Trim(Coalesce(body.fields, InterviewerKeys))
  }

  /** `(body.company ?? body.company_name ?? body.company_legal_name ?? body.org ?? "").trim()` */
  function Company(body: RequestBody): string {
    Trim(Coalesce(body.fields, CompanyKeys))
  }

  /** A present field shadows the later ones, even when it trims to "". */
  lemma CompanyFallback(body: RequestBody)
    ensures "company" in body.fields ==> Company(body) == Trim(body.fields["company"])
    ensures "company" !in body.fields && "company_name" in body.fields ==>
      Company(body) == Trim(body.fields["company_name"])
    ensures ("company" !in body.fields && "company_name" !in body.fields
             && "company_legal_name" in body.fields) ==>
      Company(body) == Trim(body.fields["company_legal_name"])
    ensures ("company" !in body.fields && "company_name" !in body.fields
             && "company_legal_name" !in body.fields && "org" in body.fields) ==>
      Company(body) == Trim(body.fields["org"])
    ensures (forall k :: 0 <= k < |CompanyKeys| ==> CompanyKeys[k] !in body.fields) ==> Company(body) == ""
  {
    var f := body.fields;
    CoalescePicksFirstPresent(f, CompanyKeys, 0);
    if "company" !in f {
      CoalescePicksFirstPresent(f, CompanyKeys, 1);
      if "company_name" !in f {
        CoalescePicksFirstPresent(f, CompanyKeys, 2);
        if "company_legal_name" !in f {
          CoalescePicksFirstPresent(f, CompanyKeys, 3);
          if "org" !in f {
            CoalescePicksFirstPresent(f, CompanyKeys, 4);
          }
        }
      }
    }
  }

  lemma InterviewerFallback(body: RequestBody)
    ensures "interviewer" in body.fields ==> Interviewer(body) == Trim(body.fields["interviewer"])
    ensures "interviewer" !in body.fields && "interviewer_name" in body.fields ==>
      Interviewer(body) == Trim(body.fields["interviewer_name"])
    ensures "interviewer" !in body.fields && "interviewer_name" !in body.fields ==> Interviewer(body) == ""
  {
    var f := body.fields;
    CoalescePicksFirstPresent(f, InterviewerKeys, 0);
    if "interviewer" !in f {
      CoalescePicksFirstPresent(f, InterviewerKeys, 1);
      if "interviewer_name" !in f {
        CoalescePicksFirstPresent(f, InterviewerKeys, 2);
      }
    }
  }

  /** `q(s)`, applied here only to non-empty strings: the string in double quotes. */
  function Quote(s: string): string {
    "\"" + s + "\""
  }

  /** The `search_queries` list after `filter(Boolean)`. */
  function Queries(interviewer: string, company: string): seq<string> {
    Compact([
      When(interviewer != "" && company != "", Quote(interviewer) + " " + Quote(company)),
      interviewer,
      company])
  }

  /** Both names: the quoted pair, then each bare; one name: just it; neither: no query. */
  lemma QueriesByCase(interviewer: string, company: string)
    ensures Queries(interviewer, company) ==
      if interviewer != "" && company != "" then
        ["\"" + interviewer + "\" \"" + company + "\"", interviewer, company]
      else if interviewer != "" then [interviewer]
      else if company != "" then [company]
      else []
  {
    var pair := When(interviewer != "" && company != "", Quote(interviewer) + " " + Quote(company));
    assert "\"" + interviewer + "\"" + " " + ("\"" + company + "\"")
      == "\"" + interviewer + "\" \"" + company + "\"";
    CompactCons(company, []);
    CompactCons(interviewer, [company]);
    CompactCons(pair, [interviewer, company]);
  }

  const ObjectiveIntro := "Identify the interviewer associated with the uploaded company data and return relevant details about their background, role, and interests to create personalized questions for the interview."
  const ObjectiveGuidance := "Prefer primary sources (LinkedIn, company site, talks, posts). Include URLs and short snippets."

  /** The objective lines after `filter(Boolean)`, before they are joined. */
  function ObjectiveLines(interviewer: string, company: string): seq<string> {
    Compact([
      ObjectiveIntro,
      When(company != "", "Company: " + company),
      When(interviewer != "", "Interviewer Name: " + interviewer),
      ObjectiveGuidance])
  }

  /** The objective text: the lines joined with "\n". */
  function Objective(interviewer: string, company: string): string {
    Join(ObjectiveLines(interviewer, company), "\n")
  }

  /** The objective: the two fixed lines, with the company line and then the interviewer line only when non-empty. */
  lemma ObjectiveByCase(interviewer: string, company: string)
    ensures ObjectiveLines(interviewer, company) ==
      [ObjectiveIntro]
      + (if company != "" then ["Company: " + company] else [])
      + (if interviewer != "" then ["Interviewer Name: " + interviewer] else [])
      + [ObjectiveGuidance]
  {
    var companyLine := When(company != "", "Company: " + company);
    var interviewerLine := When(interviewer != "", "Interviewer Name: " + interviewer);
    CompactFour(ObjectiveIntro, companyLine, interviewerLine, ObjectiveGuidance);
  }

  /** `Number(body.timeout_ms ?? 15000)` and the other fixed search options. */
  function Request(body: RequestBody): (req: SearchRequest)
    ensures req.queries == Queries(Interviewer(body), Company(body))
    ensures req.objective == Objective(Interviewer(body), Company(body))
    ensures body.timeoutMs.None? ==> req.timeoutMs == 15000
    ensures req.timeoutMs == TimeoutMs(body)
    ensures req.processor == "base" && req.maxResults == 10 && req.maxCharsPerResult == 6000
  {
    var interviewer, company := Interviewer(body), Company(body);
    SearchRequest(Objective(interviewer, company), Queries(interviewer, company), "base", 10, 6000, TimeoutMs(body))
  }

  /** The whole handler, given whether the API key is configured and how the search ends. */
  function Handle(body: RequestBody, hasApiKey: bool, outcome: SearchOutcome): (x: Exchange)
    ensures x.sent.Some? <==> hasApiKey
    ensures !hasApiKey ==> x.response == Response(500, Failure("Missing PARALLEL_API_KEY on the server", None))
    ensures hasApiKey ==> x.sent == Some(Request(body))
    ensures x.response.status == 504 <==> hasApiKey && outcome == Rejected(TimeoutMessage)
    ensures x.response.status == DefaultStatus <==> hasApiKey && outcome.Found?
    ensures hasApiKey && outcome.Rejected? ==> x.response == ErrorResponse(outcome.message)
    ensures hasApiKey && outcome.Found? ==>
      x.response.body == Research(
        Objective(Interviewer(body), Company(body)),
        Queries(Interviewer(body), Company(body)),
        Normalize(SourceProfile, outcome.results))
  {
    if !hasApiKey then
      Exchange(None, Response(500, Failure("Missing PARALLEL_API_KEY on the server", None)))
    else
      var req := Request(body);
      match outcome
      case Rejected(message) => Exchange(Some(req), ErrorResponse(message))
      case Found(results) =>
        Exchange(Some(req), Response(DefaultStatus, Research(req.objective, req.queries, Normalize(SourceProfile, results))))
  }
}
