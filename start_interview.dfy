/**
 * The start-interview route (`POST /api/start-interview`): looks up the
 * resume text stored for the caller's session, asks a chat model for five
 * interview questions about it, and answers with exactly five question
 * strings or with an error status.
 *
 * The database query, the chat model and `JSON.parse` are outside the model:
 * their results are parameters of `Handle`.
 */
module StartInterviewRoute {
  import opened Wrappers
  import opened JsText

  /** One `documents` row as selected: its `content`, `None` when `null`. */
  datatype Row = Row(content: Option<string>)

  /** What awaiting the query gives: a returned `error`, or the `data` (`None` when `null`). */
  datatype QueryResult = QueryError | QueryRows(data: Option<seq<Row>>)

  /** The chat completion: `choices?.[0]?.message?.content`, or a thrown error with its `message`, if any. */
  datatype Completion = Completed(content: Option<string>) | CompletionThrew(message: Option<string>)

  /** A JSON array element: a string or anything else. */
  datatype JsonItem = JString(s: string) | JOther

  /**
   * What `JSON.parse(raw)` gives, seen through `parsed.questions`: a syntax
   * error; `null`, on which reading `questions` throws a TypeError whose message
   * the JavaScript engine chooses; or any other value, whose `questions` is an
   * array (`Some`) or is not (`None`).
   */
  datatype Parsed = Unparseable | NullDocument(accessError: string) | Document(questions: Option<seq<JsonItem>>)

  /** The two chat messages sent to the model. */
  datatype Prompt = Prompt(system: string, user: string)

  datatype ResponseBody =
    | Failure(error: string)
    | ModelFailure(error: string, raw: string)
    | Questions(questions: seq<string>)

  datatype Response = Response(status: int, body: ResponseBody)

  /** One invocation: the session the database was queried for, the prompt sent to the model, and the response. */
  datatype Trace = Trace(queried: Option<string>, prompt: Option<Prompt>, response: Response)

  const MissingSessionMessage := "Missing session id."
  const FetchFailedMessage := "Failed to fetch resume data"
  const NoResumeMessage := "No resume content found for this session"
  const WrongCountMessage := "Model did not return 5 questions."
  const UnknownErrorMessage := "Unknown Error Occured"

  /** The number of questions the route insists on. */
  const QuestionCount: nat := 5

  /** The longest resume text put into the prompt. */
  const ResumeLimit: nat := 6000

  /** `d.content ?? ""` for every row, in order. */
  function Contents(rows: seq<Row>): (cs: seq<string>)
    ensures |cs| == |rows|
    ensures forall i :: 0 <= i < |rows| ==> cs[i] == rows[i].content.GetOr("")
  {
    seq(|rows|, i requires 0 <= i < |rows| => rows[i].content.GetOr(""))
  }

  /** `data.map(d => d.content ?? "").join("\n\n").slice(0, 6000)` */
  function ResumeContent(rows: seq<Row>): string {
    Take(Join(Contents(rows), "\n\n"), ResumeLimit)
  }

  /** The resume text is the start of the joined contents, cut at 6000 characters only when it is longer. */
  lemma ResumeContentIsBoundedPrefix(rows: seq<Row>)
    ensures var all := Join(Contents(rows), "\n\n");
      && |ResumeContent(rows)| <= ResumeLimit
      && ResumeContent(rows) <= all
      && (|all| <= ResumeLimit ==> ResumeContent(rows) == all)
      && (|all| > ResumeLimit ==> |ResumeContent(rows)| == ResumeLimit)
  {
  }

  /** A single row with content puts that content in the prompt, up to the limit. */
  lemma ResumeContentOfOneRow(text: string)
    ensures ResumeContent([Row(Some(text))]) == Take(text, ResumeLimit)
  {
    assert Contents([Row(Some(text))]) == [text];
  }

  const SystemLines := [
    "You are an AI interviewer for a university tech club.",
    "Your job: read the provided resume summary and produce exactly 5 interview questions.",
    "Make them tailored specifically to the resume that has been uploaded, specific, and actionable.",
    "Prefer open-ended prompts that probe skills, decisions, impact, and trade-offs.",
    "Avoid yes/no questions. No fluff. No salutations. No explanations."]

  /** The system message: the five instruction sentences joined with spaces. */
  function SystemPrompt(): string {
    Join(SystemLines, " ")
  }

  const UserHeader := "Resume summary below:\n"
  const ResumeStartMarker := "----- RESUME START -----\n"
  const ResumeEndMarker := "\n----- RESUME END -----\n"
  const ShapeHint := "Return JSON with shape: { \"questions\": [\"Q1\", \"Q2\", \"Q3\", \"Q4\", \"Q5\"] }"
  const JsonOnly := "Only produce valid JSON."

  /** The user message: the six parts joined with nothing between them. */
  function UserPrompt(resume: string): string {
    Join([UserHeader, ResumeStartMarker, resume, ResumeEndMarker, ShapeHint, JsonOnly], "")
  }

  /** Joining six parts with nothing between them places them one after another. */
  lemma JoinSixParts(a: string, b: string, c: string, d: string, e: string, f: string)
    ensures Join([a, b, c, d, e, f], "") == a + b + c + d + e + f
  {
    JoinCons(e, [f], "");
    JoinCons(d, [e, f], "");
    JoinCons(c, [d, e, f], "");
    JoinCons(b, [c, d, e, f], "");
    JoinCons(a, [b, c, d, e, f], "");
    assert [a] + [b, c, d, e, f] == [a, b, c, d, e, f];
  }

  /** The user message is its six parts one after another. */
  lemma UserPromptParts(resume: string)
    ensures UserPrompt(resume)
      == UserHeader + ResumeStartMarker + resume + ResumeEndMarker + ShapeHint + JsonOnly
  {
    JoinSixParts(UserHeader, ResumeStartMarker, resume, ResumeEndMarker, ShapeHint, JsonOnly);
  }

  /** The resume sits between the two markers, verbatim. */
  lemma UserPromptFramesResume(resume: string)
    ensures Contains(UserPrompt(resume), ResumeStartMarker + resume + ResumeEndMarker)
  {
    UserPromptParts(resume);
    MiddleOfSix(UserHeader, ResumeStartMarker, resume, ResumeEndMarker, ShapeHint, JsonOnly);
  }

  lemma MiddleOfSix(a: string, b: string, c: string, d: string, e: string, f: string)
    ensures Contains(a + b + c + d + e + f, b + c + d)
  {
    assert a + b + c + d + e + f == a + (b + c + d) + (e + f);
    ContainsMiddle(a, b + c + d, e + f);
  }

  /** `content ?? "{}"`: the text handed to `JSON.parse`. */
  function RawReply(content: Option<string>): string {
    content.GetOr("{}")
  }

  /** The string elements of an array, in order: `filter(q => typeof q === "string")`. */
  function Strings(items: seq<JsonItem>): (r: seq<string>)
    ensures |r| <= |items|
  {
    if items == [] then []
    else if items[0].JString? then [items[0].s] + Strings(items[1..])
    else Strings(items[1..])
  }

  /** A string is kept exactly when the array holds it as a string element. */
  lemma {:induction false} StringsMembership(items: seq<JsonItem>, s: string)
    ensures s in Strings(items) <==> JString(s) in items
  {
    if items != [] {
      StringsMembership(items[1..], s);
      assert items == [items[0]] + items[1..];
    }
  }

  /** An array of strings only is kept whole. */
  lemma {:induction false} StringsOfStrings(qs: seq<string>)
    ensures Strings(seq(|qs|, i requires 0 <= i < |qs| => JString(qs[i]))) == qs
  {
    var items := seq(|qs|, i requires 0 <= i < |qs| => JString(qs[i]));
    if qs != [] {
      StringsOfStrings(qs[1..]);
      assert items[1..] == seq(|qs[1..]|, i requires 0 <= i < |qs[1..]| => JString(qs[1..][i]));
      assert qs == [qs[0]] + qs[1..];
    }
  }

  /** The final guard's list: the first five string elements, or none when there is no array. */
  function ExtractQuestions(p: Parsed): (qs: seq<string>)
    ensures |qs| <= QuestionCount
    ensures !(p.Document? && p.questions.Some?) ==> qs == []
    ensures p.Document? && p.questions.Some? ==> qs <= Strings(p.questions.value)
  {
    match p
    case Unparseable => []
    case NullDocument(_) => []
    case Document(None) => []
    case Document(Some(items)) => Take(Strings(items), QuestionCount)
  }

  /** Exactly five questions come out exactly when the array holds at least five strings. */
  lemma FiveQuestionsIffFiveStrings(p: Parsed)
    ensures |ExtractQuestions(p)| == QuestionCount <==>
      p.Document? && p.questions.Some? && |Strings(p.questions.value)| >= QuestionCount
  {
  }

  /** The whole handler. */
  function Handle(session: Option<string>, rows: QueryResult, completion: Completion, parse: string -> Parsed): (x: Trace)
    ensures (session.None? || session == Some("")) ==>
      x == Trace(None, None, Response(400, Failure(MissingSessionMessage)))
    ensures (session.Some? && session.value != "") ==> x.queried == session
    ensures x.queried.Some? && rows.QueryError? ==> x == Trace(session, None, Response(500, Failure(FetchFailedMessage)))
    ensures (x.queried.Some? && rows.QueryRows? && (rows.data.None? || rows.data == Some([]))) ==>
      x == Trace(session, None, Response(404, Failure(NoResumeMessage)))
  {
    if session.None? || session.value == "" then
      Trace(None, None, Response(400, Failure(MissingSessionMessage)))
    else
      match rows
      case QueryError => Trace(session, None, Response(500, Failure(FetchFailedMessage)))
      case QueryRows(data) =>
        if data.None? || data.value == [] then
          Trace(session, None, Response(404, Failure(NoResumeMessage)))
        else
          var prompt := Prompt(SystemPrompt(), UserPrompt(ResumeContent(data.value)));
          Trace(session, Some(prompt), Answer(completion, parse))
  }

  /**
   * What follows the model call: a thrown error is a 500, and so is a reply of
   * `null`, whose `questions` access throws into the same catch block; anything
   * else but five questions is a 502 carrying the raw reply.
   */
  function Answer(completion: Completion, parse: string -> Parsed): (resp: Response)
    ensures completion.CompletionThrew? ==>
      resp == Response(500, Failure(completion.message.GetOr(UnknownErrorMessage)))
    ensures completion.Completed? && parse(RawReply(completion.content)).NullDocument? ==>
      resp == Response(500, Failure(parse(RawReply(completion.content)).accessError))
    ensures completion.Completed? && !parse(RawReply(completion.content)).NullDocument? ==>
      var raw := RawReply(completion.content);
      var qs := ExtractQuestions(parse(raw));
      && (|qs| == QuestionCount ==> resp == Response(200, Questions(qs)))
      && (|qs| != QuestionCount ==> resp == Response(502, ModelFailure(WrongCountMessage, raw)))
  {
    match completion
    case CompletionThrew(message) => Response(500, Failure(message.GetOr(UnknownErrorMessage)))
    case Completed(content) =>
      var raw := RawReply(content);
      match parse(raw)
      case NullDocument(accessError) => Response(500, Failure(accessError))
      case _ =>
        var qs := ExtractQuestions(parse(raw));
        if |qs| != QuestionCount then Response(502, ModelFailure(WrongCountMessage, raw))
        else Response(200, Questions(qs))
  }

  /** The model is asked only once a session has resume rows, and then with that resume in the user message. */
  lemma PromptOnlyWithResume(session: Option<string>, rows: QueryResult, completion: Completion, parse: string -> Parsed)
    ensures var x := Handle(session, rows, completion, parse);
      x.prompt.Some? <==>
        session.Some? && session.value != "" && rows.QueryRows? && rows.data.Some? && rows.data.value != []
    ensures var x := Handle(session, rows, completion, parse);
      x.prompt.Some? ==>
        x.prompt.value == Prompt(SystemPrompt(), UserPrompt(ResumeContent(rows.data.value)))
        && x.response == Answer(completion, parse)
  {
  }

  /** A 200 always carries exactly five questions, and each is a string element of the model's array. */
  lemma SuccessHasFiveModelStrings(session: Option<string>, rows: QueryResult, completion: Completion, parse: string -> Parsed)
    requires Handle(session, rows, completion, parse).response.status == 200
    ensures completion.Completed?
    ensures var p := parse(RawReply(completion.content));
      && p.Document? && p.questions.Some?
      && Handle(session, rows, completion, parse).response.body.Questions?
      && var qs := Handle(session, rows, completion, parse).response.body.questions;
         |qs| == QuestionCount && forall k :: 0 <= k < |qs| ==> JString(qs[k]) in p.questions.value
  {
    var p := parse(RawReply(completion.content));
    var qs := Handle(session, rows, completion, parse).response.body.questions;
    forall k | 0 <= k < |qs| ensures JString(qs[k]) in p.questions.value {
      assert qs[k] in Strings(p.questions.value);
      StringsMembership(p.questions.value, qs[k]);
    }
  }

  /** A reply that is not JSON, or whose `questions` is not an array, never yields questions. */
  lemma UnusableReplyIs502(completion: Completion, parse: string -> Parsed)
    requires completion.Completed?
    requires parse(RawReply(completion.content)).Unparseable?
      || (parse(RawReply(completion.content)).Document? && parse(RawReply(completion.content)).questions.None?)
    ensures Answer(completion, parse) == Response(502, ModelFailure(WrongCountMessage, RawReply(completion.content)))
  {
  }

  /** A missing reply is read as `{}`, an object without `questions`, and so ends in a 502 with raw "{}". */
  lemma MissingReplyIs502(parse: string -> Parsed)
    requires parse("{}") == Document(None)
    ensures Answer(Completed(None), parse) == Response(502, ModelFailure(WrongCountMessage, "{}"))
  {
  }

  /** The status is one of the five the route uses. */
  lemma StatusCodes(session: Option<string>, rows: QueryResult, completion: Completion, parse: string -> Parsed)
    ensures Handle(session, rows, completion, parse).response.status in {200, 400, 404, 500, 502}
  {
  }
}
