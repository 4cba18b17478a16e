# roleready: the deterministic core, modelled and verified in Dafny

roleready helps a candidate prepare for a job interview. Its Next.js server has
search routes and search helpers that ask a web-search service about a
company, its interview questions and the interviewer. It also has a
start-interview route that turns the stored resume text into five model-written
questions. Two client pages make up the rest: the interview-setup form and the
home page, which walks through the questions.

Around every external call sits small, deterministic logic. This project models
that logic and proves what it does:

- **Request fields.** Each route reads its inputs through `??` fallback chains
  and trims them.
- **Checks.** Each route checks required fields in a fixed order, each with its
  own status or thrown error.
- **Search inputs.** Query lists are built with `filter(Boolean)`. Objectives
  are lines joined with `"\n"`. A missing `timeout_ms` defaults to 15000.
  Errors map to status 504 or 500.
- **Evidence.** Seven near-identical copies normalise raw search results into
  evidence records. Here they are one function over a `Profile`: id prefix,
  type tag, default title, and whether a snippet is produced.
- **Start interview.** The route checks the session and rows. It joins the
  resume rows and cuts them at 6000 characters. It then keeps the first five
  string questions, and answers 502 unless exactly five remain.
- **Interview-setup page.** A class with the page's state. Each handler is a
  method:
  - `validateForm` runs per-mode rules;
  - `handleSubmit` builds the FormData for the chosen mode and writes
    session storage;
  - the input handlers drop their field's error.
- **Home page.** A class with the page's state. It covers:
  - question navigation (a clamped index);
  - the effects on a new question list and on the current question;
  - the Next, Previous and Start buttons' `disabled` predicates;
  - the resume guard of `startInterview` and the outcomes of `uploadSubmit`.

Files and modules:

| file | module |
|---|---|
| `wrappers.dfy` | `Wrappers`: `Option`, the nullish/present view of a value as `??` sees it |
| `js_text.dfy` | `JsText`: the JavaScript string and array operations the core uses (`trim`, ASCII `toLowerCase`, `replace(/\s+/g, "-")`, `slice`, `filter(Boolean)`, `join`, `split`, `${i}`) |
| `evidence.dfy` | `Evidence`: the evidence normaliser |
| `research.dfy` | `Research`: request bodies, search requests and outcomes, route responses |
| `company_route.dfy`, `question_route.dfy`, `leetcode_route.dfy`, `interviewer_route.dfy` | the four search routes |
| `company_search.dfy`, `question_search.dfy`, `interviewer_search.dfy` | the three search helpers |
| `start_interview.dfy` | `StartInterviewRoute` |
| `job_interview_page.dfy` | `InterviewSetupPage` |
| `home_page.dfy` | `HomePage` |

What becomes a parameter:

- the web-search call, given as its outcome: the results, or the error message;
- whether the API key is configured;
- the session cookie, the database query result and the chat completion;
- `JSON.parse`, `new URL(...)` validity and `encodeURIComponent`;
- the answers of `/api/upload` and `/api/start-interview`.

Behaviour kept as the code writes it:

- **Status codes.** The question and LeetCode routes answer every thrown error
  with 500, including the deadline's `"timeout"`. The system's design documents ask
  for 504 on a deadline; only the company and interviewer routes do
  that.
- **LeetCode role check.** The missing-role response of the LeetCode route
  sets no status, so it goes out with the default 200.
- **Company-search helper.** It labels its records `question-<i>` and
  `"question"`, like the question helper.
- **Ids and titles.** Fallback ids are `<prefix>-<i>` with a prefix per copy
  (`source`, `question`, `person`), not one derived from the record's type. A
  present but empty `title` is kept, because `??` only skips nullish values.
  The "never empty" title of the design documents therefore does not hold for such
  records.
- **Unique ids.** An id is unique within a list only when no raw result
  brings its own: a brought id such as `source-1` can equal the fallback id of
  another position, and the copies do nothing about it.
- **Company route.** There is no missing-company check: an empty company still
  searches, with no query.
- **Upload on the home page.** A non-ok upload reads the response body a
  second time with `r.text()` after `r.json()`. That call rejects, so the
  `Failed embedd, ...` message is never shown, and the page reports
  `Upload failed` through its catch block. The resume counts as received
  whatever the outcome.
- **Moving on an empty list.** `nextQuestion` on an empty list moves the index
  to -1, because the `?? 1` default applies only to a missing list.

## Model

| member | source | states |
|---|---|---|
| Evidence.Normalize | my-app/app/api/parallel-research/interviewer-search/route.ts:93-104 | an absent result list yields no records; otherwise there is exactly one record per raw result |
| Evidence.NormalizeKeepsRaws | my-app/app/api/parallel-research/interviewer-search/route.ts:94-103 | the records carry the raw results in the same order, none lost or added: reading `raw` back gives the input list |
| Evidence.NormalizedFields | my-app/app/api/parallel-research/interviewer-search/route.ts:95-103 | each field of the i-th record follows its fallback chain: only an absent field falls through, so an empty string is kept. The chains are: id = `r.id`, else prefix+i; title = title, else source, else the default; url = url, else link; snippet = snippet, else summary, else the text excerpt, else null, and left out entirely in the snippet-less profile; raw = the item |
| Evidence.ExcerptIsBoundedPrefix | my-app/app/api/parallel-research/company-search/search.ts:60-63 | without snippet and summary, a snippet exists iff `text` is a string, and it is a prefix of the text of at most 280 characters |
| Evidence.FallbackIdNamesIndex | my-app/app/api/parallel-research/leetcode-search/route.ts:86 | a fallback id is the prefix followed by decimal digits that read back as the record's index |
| Evidence.FallbackIdsDistinct | my-app/app/api/parallel-research/question-search/route.ts:78 | when no raw result brings an id, all record ids are pairwise distinct |
| Evidence.BroughtIdCanCollide | my-app/app/api/parallel-research/question-search/route.ts:78 | ids are not unique in general: a first result bringing the id `<prefix>1` and a second one without an id give two records with the same id |
| Research.CoalescePicksFirstPresent | my-app/app/api/parallel-research/interviewer-search/route.ts:15-21 | a `??` chain over fields yields the first present field's value, even when empty, and "" when none is present |
| Research.TimeoutMs | my-app/app/api/parallel-research/question-search/route.ts:56 | an absent `timeout_ms` gives 15000; a present one is used as is |
| Research.ErrorResponse | my-app/app/api/parallel-research/company-search/route.ts:80-95 | in the company and interviewer routes, status 504 exactly for the message "timeout", else 500; the matching user message; `details` carries the message |
| JsText.Trim | my-app/app/api/parallel-research/question-search/route.ts:11-13 | the trimmed string neither starts nor ends with whitespace |
| JsText.TrimIsInfix | my-app/app/api/parallel-research/question-search/route.ts:11-13 | `trim` keeps one contiguous middle of its input and removes only whitespace before and after it |
| JsText.TrimEmptyIffBlank | my-app/app/job-interview/page.tsx:54 | `!s.trim()` holds exactly when every character of s is whitespace |
| JsText.TrimUnchanged | my-app/app/api/parallel-research/question-search/search.ts:17 | a string that neither starts nor ends with whitespace is unchanged by `trim` |
| JsText.TrimIdempotent | my-app/app/api/parallel-research/question-search/search.ts:15-17 | trimming an already trimmed value changes nothing |
| JsText.Lower | my-app/app/api/parallel-research/leetcode-search/route.ts:41 | lower-casing keeps the length and maps each character by itself (ASCII letters) |
| JsText.DashWhitespaceRuns | my-app/app/api/parallel-research/leetcode-search/route.ts:41 | after `replace(/\s+/g, "-")` no whitespace is left, and the string is no longer |
| JsText.DashWhitespaceRunsNoop | my-app/app/api/parallel-research/leetcode-search/route.ts:41 | a string without whitespace is left unchanged by the replacement |
| JsText.DashWhitespaceRun | my-app/app/api/parallel-research/leetcode-search/route.ts:41 | each maximal whitespace run becomes exactly one "-": a whitespace-free part, a whole run and a rest that does not continue it give the part, one dash, and the replacement of the rest |
| JsText.Take | my-app/app/api/start-interview/route.ts:61 | `slice(0, n)` is the prefix of length min(length, n) |
| JsText.Compact | my-app/app/api/parallel-research/question-search/route.ts:36-43 | `filter(Boolean)` leaves no empty entry and never lengthens the list |
| JsText.CompactKeepsNonEmpty | my-app/app/api/parallel-research/question-search/search.ts:27-32 | a list with no empty entry passes `filter(Boolean)` unchanged |
| JsText.CompactAppend | my-app/app/api/parallel-research/question-search/route.ts:36-43 | `filter(Boolean)` distributes over concatenation |
| JsText.CompactFour | my-app/app/api/parallel-research/question-search/route.ts:46-53 | of four entries each is kept, in order, exactly when it is not "" |
| JsText.CompactThreeBefore | my-app/app/api/parallel-research/question-search/route.ts:36-43 | of three leading entries each is kept, in order, exactly when it is not "", followed by the filtered rest |
| JsText.Join | my-app/app/api/parallel-research/interviewer-search/route.ts:62-69 | joining no lines gives "", joining one line gives that line |
| JsText.JoinCons | my-app/app/api/start-interview/route.ts:77-84 | a join is the first element, the separator, then the join of the rest |
| JsText.SplitJoin | my-app/app/api/parallel-research/interviewer-search/route.ts:62-69 | lines joined with a one-character separator that none contains split back into the same lines |
| JsText.NatToString | my-app/app/api/parallel-research/leetcode-search/route.ts:86 | `${i}` is a non-empty string of decimal digits, a single digit exactly when i < 10 |
| JsText.ParseNatToString | my-app/app/api/parallel-research/leetcode-search/route.ts:86 | the decimal rendering of an index reads back as that index |
| JsText.NatToStringInjective | my-app/app/api/parallel-research/question-search/route.ts:78 | distinct indices render as distinct strings |
| CompanySearchRoute.Queries | my-app/app/api/parallel-research/company-search/route.ts:25-28 | the query list is `[company]` when the company is non-empty and `[]` otherwise |
| CompanySearchRoute.ObjectiveByCase | my-app/app/api/parallel-research/company-search/route.ts:31-37 | the objective lines are the fixed first line, `Company: c` only for a non-empty company, then the fixed last line |
| CompanySearchRoute.Request | my-app/app/api/parallel-research/company-search/route.ts:40-57 | the request searches the route's queries (`[company]` or none) under its objective lines; a present `timeout_ms` is passed on unchanged and an absent one gives 15000; processor "base", 10 results of at most 6000 characters |
| CompanySearchRoute.Handle | my-app/app/api/parallel-research/company-search/route.ts:4-96 | a search is sent iff the key is configured (there is no company check); a missing key is a 500 before any search; 504 iff the search timed out; 200 iff it resolved, with objective, queries and source-profile evidence |
| CompanySearchHelper.Request | my-app/app/api/parallel-research/company-search/search.ts:26-53 | the one query is the trimmed company (none when empty), under the helper's objective; a present `timeout_ms` is passed on unchanged and an absent one gives 15000; processor "base", 10 results of at most 6000 characters |
| CompanySearchHelper.Run | my-app/app/api/parallel-research/company-search/search.ts:12-70 | an empty trimmed company throws its message before the key check, a missing key throws next, then the search is sent; its error is rethrown unchanged, its results returned as question-profile evidence |
| CompanySearchHelper.SentSearchNamesCompany | my-app/app/api/parallel-research/company-search/search.ts:26-34 | whenever a search is sent its only query is the company and the objective has its three lines |
| QuestionSearchRoute.QueriesByCase | my-app/app/api/parallel-research/question-search/route.ts:36-43 | the queries are company, role and job URL, each only when non-empty, followed by the three fixed site queries in order |
| QuestionSearchRoute.ObjectiveByCase | my-app/app/api/parallel-research/question-search/route.ts:46-53 | the objective lines are the fixed line, then `Company:`, `Role:` and the job-URL line, each only for a non-empty field |
| QuestionSearchRoute.Request | my-app/app/api/parallel-research/question-search/route.ts:56-74 | the request searches the compacted company, role, job URL and the three site queries, under the objective of those fields; a present `timeout_ms` is passed on unchanged and an absent one gives 15000; processor "base", 10 results of at most 6000 characters |
| QuestionSearchRoute.Handle | my-app/app/api/parallel-research/question-search/route.ts:7-107 | an empty company is a 400 before the key check (500); with both, the search is sent; every error is a 500 with the message in `details`; results become question-profile evidence |
| QuestionSearchRoute.SearchOnlyAfterChecks | my-app/app/api/parallel-research/question-search/route.ts:16-43 | a search is sent iff there is a company and a key, and then it has at least four queries, the first being the company |
| QuestionSearchRoute.NoGatewayTimeout | my-app/app/api/parallel-research/question-search/route.ts:91-106 | the status is always 200, 400 or 500: a timed-out search is a 500 |
| QuestionSearchHelper.CompanyRoleJoinsParts | my-app/app/api/parallel-research/question-search/search.ts:17 | with both parts present and trimmed, `${company} ${role}`.trim() is company, space, role |
| QuestionSearchHelper.Request | my-app/app/api/parallel-research/question-search/search.ts:43-60 | the request searches the trimmed `${company} ${role}` (dropped when empty) and the three site queries, under the objective of company and role; a present `timeout_ms` is passed on unchanged and an absent one gives 15000; processor "base", 10 results of at most 6000 characters |
| QuestionSearchHelper.Run | my-app/app/api/parallel-research/question-search/search.ts:12-77 | an empty company throws "Missing company" before the role check, an empty role throws "Missing role", then the search is sent; its error is rethrown unchanged, its results returned as evidence |
| QuestionSearchHelper.SentQueries | my-app/app/api/parallel-research/question-search/search.ts:27-32 | when both checks pass the queries are exactly `company role`, then the glassdoor, reddit and indeed queries |
| QuestionSearchHelper.CompanyRoleQueries | my-app/app/api/parallel-research/question-search/search.ts:17-32 | the query list built from a trimmed company and role is `company role` and the three site queries |
| QuestionSearchHelper.QueriesOf | my-app/app/api/parallel-research/question-search/search.ts:27-32 | a non-empty `companyRole` is kept, followed by the three site queries |
| QuestionSearchHelper.SentObjectiveLines | my-app/app/api/parallel-research/question-search/search.ts:34-41 | when both checks pass the objective is four lines: fixed, `Company:`, `Role:`, fixed |
| LeetcodeSearchRoute.SlugShape | my-app/app/api/parallel-research/leetcode-search/route.ts:41 | the slug has no whitespace and is no longer than the name; a name without whitespace is only lower-cased |
| LeetcodeSearchRoute.SlugOfRun | my-app/app/api/parallel-research/leetcode-search/route.ts:41 | in the slug each whitespace run of the name becomes one dash: the lower-cased part before the run, "-", then the slug of what follows the run |
| LeetcodeSearchRoute.QueriesShape | my-app/app/api/parallel-research/leetcode-search/route.ts:39-54 | always five queries: the company page by slug first, then four that each contain the company as given |
| LeetcodeSearchRoute.ObjectiveNamesCompany | my-app/app/api/parallel-research/leetcode-search/route.ts:56-61 | the objective contains the company |
| LeetcodeSearchRoute.Request | my-app/app/api/parallel-research/leetcode-search/route.ts:64-82 | the request carries the five queries and the objective; a present `timeout_ms` is passed on unchanged and an absent one gives 15000; processor "base", 10 results, 6000 characters |
| LeetcodeSearchRoute.Handle | my-app/app/api/parallel-research/leetcode-search/route.ts:7-115 | an empty company is a 400 first; then an empty role answers with the default status 200; then a missing key is a 500; otherwise the search is sent; every error is a 500; results become question-profile evidence |
| LeetcodeSearchRoute.SearchOnlyAfterChecks | my-app/app/api/parallel-research/leetcode-search/route.ts:15-33 | a search is sent iff company, role and key are all present |
| LeetcodeSearchRoute.NoGatewayTimeout | my-app/app/api/parallel-research/leetcode-search/route.ts:99-114 | the status is always 200, 400 or 500: a timed-out search is a 500 |
| InterviewerSearchRoute.InterviewerFallback | my-app/app/api/parallel-research/interviewer-search/route.ts:10-14 | the interviewer is the trimmed `interviewer`, else the trimmed `interviewer_name`, else ""; a present field shadows the next |
| InterviewerSearchRoute.CompanyFallback | my-app/app/api/parallel-research/interviewer-search/route.ts:15-21 | the company is the first present of company, company_name, company_legal_name, org, trimmed, else "" |
| InterviewerSearchRoute.QueriesByCase | my-app/app/api/parallel-research/interviewer-search/route.ts:35-59 | both names: the quoted pair, then each name; one name: just it; neither: no query |
| InterviewerSearchRoute.ObjectiveByCase | my-app/app/api/parallel-research/interviewer-search/route.ts:62-69 | the objective lines are the fixed first line, `Company:` then `Interviewer Name:` each only when non-empty, then the fixed last line |
| InterviewerSearchRoute.Request | my-app/app/api/parallel-research/interviewer-search/route.ts:72-90 | the request searches the queries and objective built from the interviewer and company names; a present `timeout_ms` is passed on unchanged and an absent one gives 15000; processor "base", 10 results of at most 6000 characters |
| InterviewerSearchRoute.Handle | my-app/app/api/parallel-research/interviewer-search/route.ts:4-127 | a search is sent iff the key is configured, else a 500 before any search; 504 iff the search timed out; 200 iff it resolved, with objective, queries and source-profile evidence |
| InterviewerSearchHelper.LinkedInUrl | my-app/app/api/parallel-research/interviewer-search/search.ts:10 | the URL is the field as given, untrimmed, and absent exactly when the field is |
| InterviewerSearchHelper.ObjectiveShape | my-app/app/api/parallel-research/interviewer-search/search.ts:19-22 | the objective is the fixed instruction, a line break and `LinkedIn URL: <url>`, so it contains the URL |
| InterviewerSearchHelper.Request | my-app/app/api/parallel-research/interviewer-search/search.ts:17-42 | the one query is the URL, under the objective naming that URL; one result of at most 6000 characters; a present `timeout_ms` is passed on unchanged and an absent one gives 15000 |
| InterviewerSearchHelper.Run | my-app/app/api/parallel-research/interviewer-search/search.ts:8-56 | a search is sent iff the URL field is present and non-empty, else it throws its message; the search error is rethrown unchanged, its results returned as person-profile evidence |
| InterviewerSearchHelper.PersonRecordsHaveNoSnippet | my-app/app/api/parallel-research/interviewer-search/search.ts:45-51 | one record per result, each of type "LinkedIn User" with no snippet key, and at most one when the service keeps to `max_results` |
| StartInterviewRoute.Contents | my-app/app/api/start-interview/route.ts:58-59 | one content per row, in order, "" for a null content |
| StartInterviewRoute.ResumeContentIsBoundedPrefix | my-app/app/api/start-interview/route.ts:58-61 | the resume text is a prefix of the joined contents, of at most 6000 characters, cut only when the join is longer |
| StartInterviewRoute.ResumeContentOfOneRow | my-app/app/api/start-interview/route.ts:58-61 | a single row's content is the resume text, up to 6000 characters |
| StartInterviewRoute.UserPromptParts | my-app/app/api/start-interview/route.ts:77-84 | the user message is its six parts one after another |
| StartInterviewRoute.UserPromptFramesResume | my-app/app/api/start-interview/route.ts:77-84 | the resume text sits verbatim between the start and end markers |
| StartInterviewRoute.Strings | my-app/app/api/start-interview/route.ts:108 | filtering for strings never lengthens the array |
| StartInterviewRoute.StringsMembership | my-app/app/api/start-interview/route.ts:108 | a string survives the filter exactly when the array holds it as a string element |
| StartInterviewRoute.StringsOfStrings | my-app/app/api/start-interview/route.ts:108 | an array of strings only passes the filter whole |
| StartInterviewRoute.ExtractQuestions | my-app/app/api/start-interview/route.ts:107-109 | at most five questions; none for an unparseable reply, a `null` reply or a non-array `questions`; otherwise a prefix of the string elements |
| StartInterviewRoute.FiveQuestionsIffFiveStrings | my-app/app/api/start-interview/route.ts:107-116 | exactly five questions come out iff the reply has a `questions` array with at least five strings, so more than five still succeed |
| StartInterviewRoute.Handle | my-app/app/api/start-interview/route.ts:13-129 | a missing session is a 400 before any query; a query error is a 500; absent or empty data is a 404 |
| StartInterviewRoute.Answer | my-app/app/api/start-interview/route.ts:97-127 | a thrown model call is a 500 with its message or "Unknown Error Occured"; a reply that parses to `null` is a 500 with the TypeError of reading `questions` from it; otherwise five questions are a 200 with them and any other count is a 502 carrying the raw reply |
| StartInterviewRoute.PromptOnlyWithResume | my-app/app/api/start-interview/route.ts:19-95 | the model is asked iff there is a session with a non-empty row set, and then with the system lines and the framed resume text |
| StartInterviewRoute.SuccessHasFiveModelStrings | my-app/app/api/start-interview/route.ts:106-119 | a 200 carries exactly five questions, each a string element of the model's array |
| StartInterviewRoute.UnusableReplyIs502 | my-app/app/api/start-interview/route.ts:99-116 | a reply that is not JSON, or whose `questions` is not an array, ends in a 502 with the raw reply |
| StartInterviewRoute.MissingReplyIs502 | my-app/app/api/start-interview/route.ts:98-116 | a missing reply is read as "{}" and ends in a 502 with raw "{}" |
| StartInterviewRoute.StatusCodes | my-app/app/api/start-interview/route.ts:13-129 | the status is one of 200, 400, 404, 500, 502 |
| InterviewSetupPage.TextsDistinct | my-app/app/job-interview/page.tsx:53-83 | different errors have different texts, so the text tells which rule fired |
| InterviewSetupPage.LinkModeErrors | my-app/app/job-interview/page.tsx:53-63 | in link mode, of the mode-dependent rules only the link rule can add an error |
| InterviewSetupPage.DescriptionModeErrors | my-app/app/job-interview/page.tsx:64-75 | in description mode, only the description and company rules can add an error, the link rule cannot |
| InterviewSetupPage.ErrorsFollowRules | my-app/app/job-interview/page.tsx:50-86 | the error record holds a key iff that key's rule fires, with that rule's message |
| InterviewSetupPage.LinkModeSkipsDescription | my-app/app/job-interview/page.tsx:53-64 | in link mode there is never a description or company error |
| InterviewSetupPage.LinkModeLinkError | my-app/app/job-interview/page.tsx:53-63 | in link mode the link has an error iff it is blank or does not parse; blank gives "Job link is required", otherwise "Please enter a valid URL" |
| InterviewSetupPage.DescriptionModeSkipsLink | my-app/app/job-interview/page.tsx:64-75 | in description mode there is never a link error |
| InterviewSetupPage.DescriptionModeDescriptionError | my-app/app/job-interview/page.tsx:65-70 | in description mode the description has an error iff its trimmed length is under 50; blank is "required", otherwise "at least 50 characters" |
| InterviewSetupPage.DescriptionModeCompanyError | my-app/app/job-interview/page.tsx:72-74 | in description mode the company has an error iff it is blank, with "Company name is required" |
| InterviewSetupPage.CommonErrors | my-app/app/job-interview/page.tsx:77-83 | in either mode a blank interviewer and a missing resume each add their own error, and only then |
| InterviewSetupPage.ValidFormIsComplete | my-app/app/job-interview/page.tsx:50-86 | a form without errors has a resume, an interviewer, and a parseable link or a 50-character description with a company |
| InterviewSetupPage.CompleteFormIsValid | my-app/app/job-interview/page.tsx:50-86 | conversely, such a form produces no errors at all |
| InterviewSetupPage.FormEntriesByMode | my-app/app/job-interview/page.tsx:103-114 | the form data names are resume, jobLink, interviewerName, jobInputType in link mode and resume, jobDescription, companyName, interviewerName, jobInputType in description mode |
| InterviewSetupPage.StoredMirrorsEntries | my-app/app/job-interview/page.tsx:134-141 | after a successful upload the session storage holds every text field that was sent, under the same name and value |
| InterviewSetupPage.InterviewSetup.constructor | my-app/app/job-interview/page.tsx:27-48 | the first render: link mode, empty inputs, no file, idle, no errors |
| InterviewSetupPage.InterviewSetup.ValidateForm | my-app/app/job-interview/page.tsx:50-87 | only `errors` changes, to the rule-by-rule record of the form; the result is true iff that record is empty |
| InterviewSetupPage.InterviewSetup.HandleSubmit | my-app/app/job-interview/page.tsx:89-168 | an invalid form records its errors, sets the error status and message, and posts nothing; a valid one posts its entries and follows the answer |
| InterviewSetupPage.InterviewSetup.Upload | my-app/app/job-interview/page.tsx:98-127 | after validation: one post of the form's entries is recorded, then the answer is applied |
| InterviewSetupPage.InterviewSetup.Answer | my-app/app/job-interview/page.tsx:129-167 | an ok answer stores the fields and reports success, naming the chunk count when it is present and not 0; a non-ok answer or a thrown error reports failure with progress 0 |
| InterviewSetupPage.InterviewSetup.FormData | my-app/app/job-interview/page.tsx:103-114 | the appended entries are exactly the entries of the current form, in order |
| InterviewSetupPage.InterviewSetup.SaveToSession | my-app/app/job-interview/page.tsx:134-141 | only the session storage changes, gaining the mode's fields, the interviewer and the input type |
| InterviewSetupPage.InterviewSetup.SelectInputType | my-app/app/job-interview/page.tsx:203-211 | switching mode drops the link, description and company errors and keeps the interviewer and resume errors |
| InterviewSetupPage.InterviewSetup.EditJobLink | my-app/app/job-interview/page.tsx:250-255 | the link takes the new value and its error is dropped; nothing else changes |
| InterviewSetupPage.InterviewSetup.EditCompanyName | my-app/app/job-interview/page.tsx:280-285 | the company takes the new value and its error is dropped; nothing else changes |
| InterviewSetupPage.InterviewSetup.EditJobDescription | my-app/app/job-interview/page.tsx:311-316 | the description takes the new value and its error is dropped; nothing else changes |
| InterviewSetupPage.InterviewSetup.EditInterviewer | my-app/app/job-interview/page.tsx:350-355 | the interviewer takes the new value and its error is dropped; nothing else changes |
| InterviewSetupPage.InterviewSetup.ChooseResume | my-app/app/job-interview/page.tsx:385-394 | a chosen file becomes the resume and file name and drops the resume error; no file changes nothing |
| HomePage.NextIndex | my-app/app/page.tsx:66-71 | the next index is one step forward, or the last index when that would pass it |
| HomePage.PreviousIndex | my-app/app/page.tsx:74-77 | the previous index is one step back, or 0 when that would go below it |
| HomePage.MovesStayInRange | my-app/app/page.tsx:66-77 | on a non-empty list both moves keep the index among the questions |
| HomePage.MovesAtTheEnds | my-app/app/page.tsx:66-77 | next stays put at the last question and advances by one before it; previous stays put at 0 and steps back after it |
| HomePage.MovesUndoEachOther | my-app/app/page.tsx:66-77 | forward then back, and back then forward, return to the same question away from the ends |
| HomePage.NextOnEmptyList | my-app/app/page.tsx:67-69 | on an empty list, next moves the index to -1 |
| HomePage.EnabledButtonsMove | my-app/app/page.tsx:521-560 | an enabled Next advances by exactly one with audio stopped, no recording and an answer given; an enabled Previous goes back by one |
| HomePage.QuestionText | my-app/app/page.tsx:87 | the shown question is the list's entry at the index, or "" off the end |
| HomePage.StartedOutcomes | my-app/app/page.tsx:146-194 | without a resume only the error status is set and no request is sent; otherwise one request is sent and an ok reply sets the questions, a non-ok reply clears them, a thrown error keeps them |
| HomePage.NoRequestWithoutResume | my-app/app/page.tsx:153-158 | before any resume was submitted, no question request leaves the page and the questions are unchanged |
| HomePage.SubmittedOutcomes | my-app/app/page.tsx:100-143 | after a submission the resume counts as received; the upload succeeded iff the answer was ok, with its message and progress 100; otherwise "Upload failed" and progress 0 |
| HomePage.FailedUploadStillCountsAsResume | my-app/app/page.tsx:100-158 | after any upload, even a failed one, `startInterview` sends its request |
| HomePage.EnabledStartPassesResumeCheck | my-app/app/page.tsx:461-463 | a Start button that is enabled after a submission implies an ok upload, and the click passes the resume check |
| HomePage.InterviewSession.constructor | my-app/app/page.tsx:27-56 | the first render: no questions, index 0, nothing playing or recorded, upload waiting |
| HomePage.InterviewSession.NextQuestion | my-app/app/page.tsx:66-71 | only the index (to the next index) and the feedback (cleared) change; the index stays in range |
| HomePage.InterviewSession.PreviousQuestion | my-app/app/page.tsx:74-77 | only the index (to the previous index) and the feedback (cleared) change; the index stays in range |
| HomePage.InterviewSession.ResetQuestions | my-app/app/page.tsx:80-82 | only the index changes, to 0 |
| HomePage.InterviewSession.QuestionsChanged | my-app/app/page.tsx:58-63 | a non-empty list resets the index to 0 and the answer flag, and the index is then in range; otherwise nothing changes |
| HomePage.InterviewSession.QuestionShown | my-app/app/page.tsx:85-97 | with questions, the audio points at the encoded question when it is non-empty, playing iff it is non-empty, and answer and feedback are cleared; without questions the audio is dropped |
| HomePage.InterviewSession.TtsStarted | my-app/app/page.tsx:511 | only the playing flag changes, to true |
| HomePage.InterviewSession.TtsEnded | my-app/app/page.tsx:512 | only the playing flag changes, to false |
| HomePage.InterviewSession.StopRecording | my-app/app/page.tsx:541-545 | recording stops and the question counts as answered; nothing else changes |
| HomePage.InterviewSession.StartInterview | my-app/app/page.tsx:146-194 | the new state is the `startInterview` transition of the old one |
| HomePage.InterviewSession.RecordQuestions | my-app/app/page.tsx:173-193 | the new state is the old one with the reply's status, progress and questions applied |
| HomePage.InterviewSession.UploadSubmit | my-app/app/page.tsx:100-143 | the new state is the `uploadSubmit` transition of the old one |
| HomePage.LoadQuestions | my-app/app/page.tsx:58-63 | once a resume was submitted, an ok reply with a non-empty list followed by the list effect leaves the page on question 0 of the new list, in range, with no answer |

## Left out

- Timers and races: `withTimeout`, the `setTimeout` progress resets and redirects, and the inner deadline of the shared search client in `my-app/lib/parallelClient.ts`. Only the message the deadline rejects with, `"timeout"`, and its status mapping are kept.
- External services are parameters, not models: web search, the chat model, the database, the upload, transcribe and feedback endpoints, pdf parsing, cookies, MediaRecorder, microphone access and audio playback. The same goes for the library calls `JSON.parse`, `new URL(...)` and `encodeURIComponent`.
- `my-app/lib/parallelClient.ts` is not part of this model. The helpers' search call is taken as its outcome, and the client's option defaults and its throw at import time when the key is missing are not modelled.
- CompanySearchRoute.Request: `timeout_ms` is taken to be absent or a whole number; the `Number(...)` coercion of the route (a string "20000" becoming 20000, "abc" becoming NaN, a fraction kept) is not modelled.
- InterviewerSearchRoute.Request: `timeout_ms` is taken to be absent or a whole number; the `Number(...)` coercion is not modelled, as for the company route.
- The other routes and helpers pass `timeout_ms ?? 15000` on uncoerced; a `timeout_ms` that is not a whole number is likewise not modelled there.
- StartInterviewRoute.Handle: a throw from creating the database client (`supabaseAdmin()`, a 500 with its message through the catch block) and a rejected query are not modelled; the query's outcome is its returned `error` or `data`.
- Request fields are strings or absent. A non-string field value, which makes `.trim()` throw, is not modelled, and neither is a `null` body from `request.json()`.
- Search results are records with optional fields. A `null` element in `results`, which makes `r.id` throw, is not modelled.
- The helper's `input` is always an object: `interviewerSearch(undefined)`, which throws on the property access, is not modelled.
- The unused `q` helper and `companyDomain` are not modelled. They appear in the company and interviewer routes, and nothing reads them.
- The search response bodies are modelled as data, not as their JSON text. `NextResponse.json(JSON.stringify(...))` is kept apart as an encoded failure body.
- `progress`/`progressMessage` texts and rendering: only the progress values the handlers leave behind are modelled.
- Home page: `parsedText`, `fileName` and `candidateId` of `uploadSubmit`, the transcription and feedback flows, `status` messages other than the upload's, and routing.
- React effects are methods the caller runs after the state they depend on changed. The model does not schedule them itself.
- `{...errors, k: undefined}` is modelled as removing the key, although the object keeps `k` with the value `undefined`. No code applies `Object.keys` to `errors` (it is applied only to the fresh `newErrors` of `validateForm`), and the `if (errors.k)` tests and the `{errors.k && ...}` renders treat an undefined value as absent.
- Client arrays are assumed to hold strings: the `questions` array the home page receives is a list of strings.
- Lower: `toLowerCase` is modelled for ASCII letters only, because Unicode case mapping is not available here.
- Trim: the whitespace set is the ECMAScript WhiteSpace and LineTerminator code points; lengths (`length`, `slice`) count code points here, not UTF-16 code units, so a non-BMP character counts once.
- Normalize: its own contract gives only the record count. The field-by-field chains and the order are stated by NormalizedFields and NormalizeKeepsRaws.
- The objective texts are stated line by line (by the ObjectiveByCase lemmas) before the `"\n"` join. That the join splits back into those lines is proved generically by JsText.SplitJoin, but not for each route's fixed lines.
- Strings: its own contract bounds only the length; what it keeps is stated by StringsMembership and StringsOfStrings.
- HomePage.InterviewSession.StartInterview, RecordQuestions and UploadSubmit state their new state through the functions Started, QuestionsAnswered and Submitted. What those transitions mean is proved in StartedOutcomes, SubmittedOutcomes and the lemmas beside them.
- The orchestrator, synthesis stage and fallback policy that the system's design describes do not appear in the modelled source files, so they are not modelled.
