/**
 * What the search routes and helpers have in common: the request body they
 * read fields from, the request they send to the web-search service, what
 * comes back from it, and the JSON responses they answer with.
 */
module Research {
  import opened Wrappers
  import opened Evidence

  /**
   * A parsed request body (or a helper's input object). `fields` holds the
   * string-valued fields that are present, that is, neither `null` nor
   * `undefined`; `timeoutMs` is the numeric `timeout_ms` field.
   */
  datatype RequestBody = RequestBody(fields: map<string, string>, timeoutMs: Option<int>)

  /** What `request.json().catch(() => ({}))` yields for a body that does not parse. */
  const EmptyBody := RequestBody(map[], None)

  /** `(body[k0] ?? body[k1] ?? ... ?? "")` */
  function Coalesce(fields: map<string, string>, keys: seq<string>): string {
    if keys == [] then ""
    else if keys[0] in fields then fields[keys[0]]
    else Coalesce(fields, keys[1..])
  }

  /** The first key that is present decides, even when its value is empty; with none present the result is "". */
  lemma {:induction false} CoalescePicksFirstPresent(fields: map<string, string>, keys: seq<string>, i: nat)
    requires i <= |keys|
    requires forall j :: 0 <= j < i ==> keys[j] !in fields
    ensures i < |keys| && keys[i] in fields ==> Coalesce(fields, keys) == fields[keys[i]]
    ensures i == |keys| ==> Coalesce(fields, keys) == ""
  {
    if i > 0 {
      assert keys[0] !in fields;
      assert forall j :: 0 <= j < i - 1 ==> keys[1..][j] == keys[j + 1];
      CoalescePicksFirstPresent(fields, keys[1..], i - 1);
    }
  }

  /** The deadline used when the body names none. */
  const DefaultTimeoutMs: int := 15000

  /** `body.timeout_ms ?? 15000` */
  function TimeoutMs(body: RequestBody): (t: int)
    ensures body.timeoutMs.None? ==> t == DefaultTimeoutMs
    ensures body.timeoutMs.Some? ==> t == body.timeoutMs.value
  {
    body.timeoutMs.GetOr(DefaultTimeoutMs)
  }

  /** The options of one web-search call, with the deadline the caller races it against. */
  datatype SearchRequest = SearchRequest(
    objective: string,
    queries: seq<string>,
    processor: string,
    maxResults: nat,
    maxCharsPerResult: nat,
    timeoutMs: int)

  /** The search either resolves (`res?.results`, `None` when absent) or rejects with an error message. */
  datatype SearchOutcome = Found(results: Option<seq<RawResult>>) | Rejected(message: string)

  /** The message of the error the deadline timer rejects with. */
  const TimeoutMessage := "timeout"

  /** The JSON bodies the routes answer with. */
  datatype ResponseBody =
    | Research(objective: string, queries: seq<string>, evidence: seq<Evidence>)
    | EvidenceList(evidence: seq<Evidence>)
    | Failure(error: string, details: Option<string>)
      /** `NextResponse.json(JSON.stringify({ error }))`: a JSON string holding the encoded object. */
    | EncodedFailure(error: string)

  datatype Response = Response(status: int, body: ResponseBody)

  /** The status `NextResponse.json` uses when none is given. */
  const DefaultStatus: int := 200

  /** One route invocation: the search it sent, if any, and its response. */
  datatype Exchange = Exchange(sent: Option<SearchRequest>, response: Response)

  /** A search helper's result: `{ evidence }`, or the message of the error it throws. */
  datatype HelperResult = Returned(evidence: seq<Evidence>) | Thrown(message: string)

  /** One helper invocation: the search it sent, if any, and what it returned or threw. */
  datatype HelperCall = HelperCall(sent: Option<SearchRequest>, result: HelperResult)

  /** The objective's closing line shared by the company searches and the question helper. */
  const SourcesGuidance := "Prefer primary sources (company site, news articles, employee reviews). Include URLs and short snippets."

  /** The catch block of the company and interviewer routes: the status and message depend on whether the error is the deadline's. */
  function ErrorResponse(message: string): (resp: Response)
    ensures resp.status == 504 <==> message == TimeoutMessage
    ensures resp.status == 504 || resp.status == 500
    ensures resp.body.Failure? && resp.body.details == Some(message)
    ensures resp.body.error ==
      if message == TimeoutMessage then "The search timed out before completing."
      else "Error initializing or calling the Parallel API."
  {
    var timedOut := message == TimeoutMessage;
    Response(
      if timedOut then 504 else 500,
      Failure(
        if timedOut then "The search timed out before completing."
        else "Error initializing or calling the Parallel API.",
        Some(message)))
  }
}
