/**
 * The interview-setup page (`app/job-interview/page.tsx`): a form taking
 * either a job link or a job description with a company name, the
 * interviewer's LinkedIn, and a resume file. It validates the fields per
 * mode, and on submit posts exactly the fields of the chosen mode to the
 * upload endpoint and stores them in the session storage.
 *
 * URL parsing (`new URL`) is a parameter, and so is the upload endpoint's answer.
 */
module InterviewSetupPage {
  import opened Wrappers
  import opened JsText

  datatype InputType = Link | Description

  /** The string the page writes for an input type. */
  function InputTypeName(t: InputType): string {
    match t
    case Link => "link"
    case Description => "description"
  }

  /** A chosen file, known by its name. */
  datatype File = File(name: string)

  /** The keys of the `errors` record. */
  datatype ErrorField = JobLinkError | JobDescriptionError | CompanyNameError | InterviewerError | ResumeError

  datatype UploadStatus = Idle | Uploading | Succeeded | Failed

  /** One `FormData` entry. */
  datatype FormValue = TextValue(s: string) | FileValue(file: File)
  datatype Entry = Entry(name: string, value: FormValue)

  /**
   * How the upload request ends: an ok response with its `chunkCount`, a
   * non-ok response with its `error`, or a thrown error with its `message`.
   */
  datatype UploadOutcome =
    | UploadOk(chunkCount: Option<nat>)
    | UploadRejected(error: Option<string>)
    | UploadThrew(message: Option<string>)

  /** The form's inputs. */
  datatype Form = Form(
    inputType: InputType,
    jobLink: string,
    jobDescription: string,
    companyName: string,
    interviewer: string,
    resume: Option<File>)

  const MinDescriptionLength: nat := 50
  /** The messages `validateForm` can record. */
  datatype ErrorMessage =
    | LinkRequired | LinkInvalid | DescriptionRequired | DescriptionTooShort
    | CompanyRequired | InterviewerRequired | ResumeRequired

  /** The text shown under the field for each message. */
  function Text(m: ErrorMessage): (t: string)
    ensures t != ""
  {
    match m
    case LinkRequired => "Job link is required"
    case LinkInvalid => "Please enter a valid URL"
    case DescriptionRequired => "Job description is required"
    case DescriptionTooShort => "Job description should be at least 50 characters"
    case CompanyRequired => "Company name is required"
    case InterviewerRequired => "Interviewer name is required"
    case ResumeRequired => "Resume file is required"
  }

  /** Different messages read differently, so the text tells which rule fired. */
  lemma TextsDistinct(m1: ErrorMessage, m2: ErrorMessage)
    ensures Text(m1) == Text(m2) ==> m1 == m2
  {
  }
  const InvalidFormMessage := "Please fill in all required fields correctly"
  const SuccessMessage := "Successfully uploaded resume and saved interview details. "

  /** The job link rule: in link mode a blank link is missing, and otherwise it must parse as a URL. */
  function LinkRule(f: Form, isUrl: string -> bool): Option<ErrorMessage> {
    if f.inputType != Link then None
    else if IsBlank(f.jobLink) then Some(LinkRequired)
    else if !isUrl(f.jobLink) then Some(LinkInvalid)
    else None
  }

  /** The description rule: in description mode a blank description is missing, and otherwise it needs 50 characters once trimmed. */
  function DescriptionRule(f: Form): Option<ErrorMessage> {
    if f.inputType != Description then None
    else if Trim(f.jobDescription) == "" then Some(DescriptionRequired)
    else if |Trim(f.jobDescription)| < MinDescriptionLength then Some(DescriptionTooShort)
    else None
  }

  /** The company rule: in description mode the company must not be blank. */
  function CompanyRule(f: Form): Option<ErrorMessage> {
    if f.inputType == Description && IsBlank(f.companyName) then Some(CompanyRequired) else None
  }

  /** The interviewer rule: in either mode the interviewer must not be blank. */
  function InterviewerRule(f: Form): Option<ErrorMessage> {
    if IsBlank(f.interviewer) then Some(InterviewerRequired) else None
  }

  /** The resume rule: in either mode a file must be chosen. */
  function ResumeRule(f: Form): Option<ErrorMessage> {
    if f.resume.None? then Some(ResumeRequired) else None
  }

  /** The rule for one error key: the message `validateForm` records under it, if any. */
  function FieldError(f: Form, k: ErrorField, isUrl: string -> bool): Option<ErrorMessage> {
    match k
    case JobLinkError => LinkRule(f, isUrl)
    case JobDescriptionError => DescriptionRule(f)
    case CompanyNameError => CompanyRule(f)
    case InterviewerError => InterviewerRule(f)
    case ResumeError => ResumeRule(f)
  }

  /** `m` with `k` set to the message when there is one. */
  function Put(m: map<ErrorField, ErrorMessage>, k: ErrorField, msg: Option<ErrorMessage>): map<ErrorField, ErrorMessage> {
    if msg.Some? then m[k := msg.value] else m
  }

  /** The messages of the three rules that depend on the input type. */
  function ModeErrors(f: Form, isUrl: string -> bool): map<ErrorField, ErrorMessage> {
    var m := Put(map[], JobLinkError, LinkRule(f, isUrl));
    var m := Put(m, JobDescriptionError, DescriptionRule(f));
    Put(m, CompanyNameError, CompanyRule(f))
  }

  /** In link mode only the link rule can fire among the three. */
  lemma LinkModeErrors(f: Form, isUrl: string -> bool)
    requires f.inputType == Link
    ensures ModeErrors(f, isUrl) == Put(map[], JobLinkError, LinkRule(f, isUrl))
  {
  }

  /** In description mode the description and company rules can fire, the link rule cannot. */
  lemma DescriptionModeErrors(f: Form, isUrl: string -> bool)
    requires f.inputType == Description
    ensures ModeErrors(f, isUrl) ==
      Put(Put(map[], JobDescriptionError, DescriptionRule(f)),
          CompanyNameError, CompanyRule(f))
  {
  }

  /** The whole error record: each rule in turn adds its message, if any. */
  function Errors(f: Form, isUrl: string -> bool): map<ErrorField, ErrorMessage> {
    var m := Put(ModeErrors(f, isUrl), InterviewerError, InterviewerRule(f));
    Put(m, ResumeError, ResumeRule(f))
  }

  /** The record holds exactly the keys whose rule fires, each with that rule's message. */
  lemma ErrorsFollowRules(f: Form, isUrl: string -> bool, k: ErrorField)
    ensures k in Errors(f, isUrl) <==> FieldError(f, k, isUrl).Some?
    ensures k in Errors(f, isUrl) ==> Errors(f, isUrl)[k] == FieldError(f, k, isUrl).value
  {
    match k
    case JobLinkError =>
    case JobDescriptionError =>
    case CompanyNameError =>
    case InterviewerError =>
    case ResumeError =>
  }

  /** In link mode neither the description nor the company is looked at. */
  lemma LinkModeSkipsDescription(f: Form, isUrl: string -> bool)
    requires f.inputType == Link
    ensures JobDescriptionError !in Errors(f, isUrl) && CompanyNameError !in Errors(f, isUrl)
  {
    ErrorsFollowRules(f, isUrl, JobDescriptionError);
    ErrorsFollowRules(f, isUrl, CompanyNameError);
  }

  /** In link mode the link is wrong when blank, and otherwise when it does not parse. */
  lemma LinkModeLinkError(f: Form, isUrl: string -> bool)
    requires f.inputType == Link
    ensures JobLinkError in Errors(f, isUrl) <==> IsBlank(f.jobLink) || !isUrl(f.jobLink)
    ensures IsBlank(f.jobLink) ==> Errors(f, isUrl)[JobLinkError] == LinkRequired
    ensures (!IsBlank(f.jobLink) && !isUrl(f.jobLink)) ==> Errors(f, isUrl)[JobLinkError] == LinkInvalid
  {
    ErrorsFollowRules(f, isUrl, JobLinkError);
  }

  /** In description mode the link is not looked at. */
  lemma DescriptionModeSkipsLink(f: Form, isUrl: string -> bool)
    requires f.inputType == Description
    ensures JobLinkError !in Errors(f, isUrl)
  {
    ErrorsFollowRules(f, isUrl, JobLinkError);
  }

  /** In description mode the description needs 50 characters after trimming, and blank is reported as missing. */
  lemma DescriptionModeDescriptionError(f: Form, isUrl: string -> bool)
    requires f.inputType == Description
    ensures JobDescriptionError in Errors(f, isUrl) <==> |Trim(f.jobDescription)| < MinDescriptionLength
    ensures Trim(f.jobDescription) == "" ==> Errors(f, isUrl)[JobDescriptionError] == DescriptionRequired
    ensures (Trim(f.jobDescription) != "" && |Trim(f.jobDescription)| < MinDescriptionLength) ==>
      Errors(f, isUrl)[JobDescriptionError] == DescriptionTooShort
  {
    ErrorsFollowRules(f, isUrl, JobDescriptionError);
  }

  /** In description mode a blank company is an error. */
  lemma DescriptionModeCompanyError(f: Form, isUrl: string -> bool)
    requires f.inputType == Description
    ensures CompanyNameError in Errors(f, isUrl) <==> IsBlank(f.companyName)
    ensures CompanyNameError in Errors(f, isUrl) ==> Errors(f, isUrl)[CompanyNameError] == CompanyRequired
  {
    ErrorsFollowRules(f, isUrl, CompanyNameError);
  }

  /** In either mode a blank interviewer and a missing resume each add their own error. */
  lemma CommonErrors(f: Form, isUrl: string -> bool)
    ensures InterviewerError in Errors(f, isUrl) <==> IsBlank(f.interviewer)
    ensures ResumeError in Errors(f, isUrl) <==> f.resume.None?
  {
    ErrorsFollowRules(f, isUrl, InterviewerError);
    ErrorsFollowRules(f, isUrl, ResumeError);
  }

  /** A form with no errors has everything the submission reads. */
  lemma ValidFormIsComplete(f: Form, isUrl: string -> bool)
    requires Errors(f, isUrl) == map[]
    ensures f.resume.Some? && !IsBlank(f.interviewer)
    ensures f.inputType == Link ==> !IsBlank(f.jobLink) && isUrl(f.jobLink)
    ensures f.inputType == Description ==>
      |Trim(f.jobDescription)| >= MinDescriptionLength && !IsBlank(f.companyName)
  {
    ErrorsFollowRules(f, isUrl, ResumeError);
    ErrorsFollowRules(f, isUrl, InterviewerError);
    ErrorsFollowRules(f, isUrl, JobLinkError);
    ErrorsFollowRules(f, isUrl, JobDescriptionError);
    ErrorsFollowRules(f, isUrl, CompanyNameError);
  }

  /** Conversely, a form with everything its mode needs passes validation. */
  lemma CompleteFormIsValid(f: Form, isUrl: string -> bool)
    requires f.resume.Some? && !IsBlank(f.interviewer)
    requires f.inputType == Link ==> !IsBlank(f.jobLink) && isUrl(f.jobLink)
    requires f.inputType == Description ==>
      |Trim(f.jobDescription)| >= MinDescriptionLength && !IsBlank(f.companyName)
    ensures Errors(f, isUrl) == map[]
  {
    if f.inputType == Link { LinkModeErrors(f, isUrl); } else { DescriptionModeErrors(f, isUrl); }
  }

  /** The `FormData` built by `handleSubmit` for a complete form, in append order. */
  function FormEntries(f: Form): seq<Entry>
    requires f.resume.Some?
  {
    [Entry("resume", FileValue(f.resume.value))]
    + (if f.inputType == Link then [Entry("jobLink", TextValue(f.jobLink))]
       else [Entry("jobDescription", TextValue(f.jobDescription)),
             Entry("companyName", TextValue(f.companyName))])
    + [Entry("interviewerName", TextValue(f.interviewer)),
       Entry("jobInputType", TextValue(InputTypeName(f.inputType)))]
  }

  function EntryNames(es: seq<Entry>): (names: seq<string>)
    ensures |names| == |es|
    ensures forall i :: 0 <= i < |es| ==> names[i] == es[i].name
  {
    seq(|es|, i requires 0 <= i < |es| => es[i].name)
  }

  /** The resume, interviewer and input type are always sent; the link only in link mode, description and company only in description mode. */
  lemma FormEntriesByMode(f: Form)
    requires f.resume.Some?
    ensures f.inputType == Link ==>
      EntryNames(FormEntries(f)) == ["resume", "jobLink", "interviewerName", "jobInputType"]
    ensures f.inputType == Description ==>
      EntryNames(FormEntries(f)) == ["resume", "jobDescription", "companyName", "interviewerName", "jobInputType"]
    ensures FormEntries(f)[0] == Entry("resume", FileValue(f.resume.value))
    ensures FormEntries(f)[|FormEntries(f)| - 1] == Entry("jobInputType", TextValue(InputTypeName(f.inputType)))
  {
  }

  /** What a successful submission writes into `sessionStorage`. */
  function Stored(storage: map<string, string>, f: Form): map<string, string> {
    var s := if f.inputType == Link then storage["jobLink" := f.jobLink]
             else storage["jobDescription" := f.jobDescription]["companyName" := f.companyName];
    s["interviewerName" := f.interviewer]["jobInputType" := InputTypeName(f.inputType)]
  }

  /** The session storage ends up holding every text field that was sent, under the same name. */
  lemma StoredMirrorsEntries(storage: map<string, string>, f: Form)
    requires f.resume.Some?
    ensures forall i :: 1 <= i < |FormEntries(f)| ==>
      FormEntries(f)[i].value.TextValue?
      && FormEntries(f)[i].name in Stored(storage, f)
      && Stored(storage, f)[FormEntries(f)[i].name] == FormEntries(f)[i].value.s
  {
    var es := FormEntries(f);
    var st := Stored(storage, f);
    forall i | 1 <= i < |es|
      ensures es[i].value.TextValue? && es[i].name in st && st[es[i].name] == es[i].value.s
    {
      if f.inputType == Link {
        assert es[1] == Entry("jobLink", TextValue(f.jobLink));
      } else {
        assert es[1] == Entry("jobDescription", TextValue(f.jobDescription));
        assert es[2] == Entry("companyName", TextValue(f.companyName));
      }
    }
  }

  /** `x || "Unknown error"` for an optional message. */
  function OrUnknown(m: Option<string>): (s: string)
    ensures s != ""
    ensures m.Some? && m.value != "" ==> s == m.value
  {
    if m.None? || m.value == "" then "Unknown error" else m.value
  }

  /** The success text, with the chunk count only when it is truthy (present and not 0). */
  function SuccessText(chunkCount: Option<nat>): string {
    SuccessMessage + (if chunkCount.Some? && chunkCount.value != 0
                      then "Embedded " + NatToString(chunkCount.value) + " chunks." else "")
  }

  /**
   * The state after a submission of a complete form `s.form`: the form's entries are posted,
   * then an ok answer stores the fields and reports success, and any other answer reports failure.
   */
  function Uploaded(s: State, outcome: UploadOutcome): State
    requires s.form.resume.Some?
  {
    Answered(s.(uploads := s.uploads + [FormEntries(s.form)]), outcome)
  }

  /** How the endpoint's answer lands in the state. */
  function Answered(s: State, outcome: UploadOutcome): State {
    match outcome
    case UploadOk(chunkCount) =>
      s.(stored := Stored(s.stored, s.form), uploadStatus := Succeeded, progress := 100,
         statusMessage := SuccessText(chunkCount))
    case UploadRejected(error) =>
      s.(uploadStatus := Failed, progress := 0, statusMessage := "Failed to upload: " + OrUnknown(error))
    case UploadThrew(message) =>
      s.(uploadStatus := Failed, progress := 0, statusMessage := "Upload failed: " + OrUnknown(message))
  }

  /** The page's state: its inputs, its status, the bodies it has posted and the session storage. */
  datatype State = State(
    form: Form,
    fileName: Option<string>,
    uploadStatus: UploadStatus,
    statusMessage: string,
    progress: int,
    errors: map<ErrorField, ErrorMessage>,
    uploads: seq<seq<Entry>>,
    stored: map<string, string>)

  class InterviewSetup {
    var inputType: InputType
    var jobLink: string
    var jobDescription: string
    var companyName: string
    var interviewer: string
    var resumeFile: Option<File>
    var fileName: Option<string>
    var uploadStatus: UploadStatus
    var statusMessage: string
    var progress: int
    var errors: map<ErrorField, ErrorMessage>
    /** The bodies posted to `/api/upload`, oldest first. */
    var uploads: seq<seq<Entry>>
    /** `sessionStorage`. */
    var stored: map<string, string>

    function CurrentForm(): Form
      reads this
    {
      Form(inputType, jobLink, jobDescription, companyName, interviewer, resumeFile)
    }

    function Snapshot(): State
      reads this
    {
      State(CurrentForm(), fileName, uploadStatus, statusMessage, progress, errors, uploads, stored)
    }

    /** The first render: link mode, empty inputs, no errors, nothing posted. */
    constructor(storage: map<string, string>)
      ensures Snapshot() == State(Form(Link, "", "", "", "", None), None, Idle, "", 0, map[], [], storage)
    {
      inputType := Link;
      jobLink, jobDescription, companyName, interviewer := "", "", "", "";
      resumeFile, fileName := None, None;
      uploadStatus, statusMessage, progress := Idle, "", 0;
      errors, uploads, stored := map[], [], storage;
    }

    /** `validateForm`: fills a fresh error record rule by rule, stores it, and reports whether it stayed empty. */
    method ValidateForm(isUrl: string -> bool) returns (ok: bool)
      modifies this
      ensures Snapshot() == old(Snapshot()).(errors := Errors(old(CurrentForm()), isUrl))
      ensures ok <==> errors == map[]
    {
      var f := CurrentForm();
      var newErrors: map<ErrorField, ErrorMessage> := map[];
      if f.inputType == Link {
        if IsBlank(f.jobLink) {
          newErrors := newErrors[JobLinkError := LinkRequired];
        } else if !isUrl(f.jobLink) {
          newErrors := newErrors[JobLinkError := LinkInvalid];
        }
        LinkModeErrors(f, isUrl);
      } else {
        ghost var d: Option<ErrorMessage> := None;
        if Trim(f.jobDescription) == "" {
          newErrors := newErrors[JobDescriptionError := DescriptionRequired];
          d := Some(DescriptionRequired);
        } else if |Trim(f.jobDescription)| < MinDescriptionLength {
          newErrors := newErrors[JobDescriptionError := DescriptionTooShort];
          d := Some(DescriptionTooShort);
        }
        assert d == DescriptionRule(f);
        ghost var c: Option<ErrorMessage> := None;
        if IsBlank(f.companyName) {
          newErrors := newErrors[CompanyNameError := CompanyRequired];
          c := Some(CompanyRequired);
        }
        assert c == CompanyRule(f);
        assert newErrors == Put(Put(map[], JobDescriptionError, d), CompanyNameError, c);
        DescriptionModeErrors(f, isUrl);
      }
      assert newErrors == ModeErrors(f, isUrl);
      if IsBlank(f.interviewer) {
        newErrors := newErrors[InterviewerError := InterviewerRequired];
      }
      if f.resume.None? {
        newErrors := newErrors[ResumeError := ResumeRequired];
      }
      errors := newErrors;
      ok := |newErrors| == 0;
    }

    /** `handleSubmit`: validate; on success post the chosen fields, then follow the endpoint's answer. */
    method HandleSubmit(isUrl: string -> bool, outcome: UploadOutcome)
      modifies this
      ensures Errors(old(CurrentForm()), isUrl) != map[] ==>
        Snapshot() == old(Snapshot()).(errors := Errors(old(CurrentForm()), isUrl),
                                       statusMessage := InvalidFormMessage, uploadStatus := Failed)
      ensures Errors(old(CurrentForm()), isUrl) == map[] ==>
        old(CurrentForm()).resume.Some? && Snapshot() == Uploaded(old(Snapshot()).(errors := map[]), outcome)
    {
      var ok := ValidateForm(isUrl);
      if !ok {
        statusMessage := InvalidFormMessage;
        uploadStatus := Failed;
        return;
      }
      ValidFormIsComplete(CurrentForm(), isUrl);
      Upload(outcome);
    }

    /** The part of `handleSubmit` after a successful validation: post the form, then record the outcome. */
    method Upload(outcome: UploadOutcome)
      modifies this
      requires resumeFile.Some?
      ensures Snapshot() == Uploaded(old(Snapshot()), outcome)
    {
      uploadStatus := Uploading;
      progress := 10;
      var formData := FormData();
      progress := 30;
      uploads := uploads + [formData];
      progress := 60;
      Answer(outcome);
    }

    /** The branches on the endpoint's answer. */
    method Answer(outcome: UploadOutcome)
      modifies this
      ensures Snapshot() == Answered(old(Snapshot()), outcome)
    {
      match outcome
      case UploadOk(chunkCount) =>
        progress := 90;
        SaveToSession();
        progress := 100;
        uploadStatus := Succeeded;
        statusMessage := SuccessText(chunkCount);
      case UploadRejected(error) =>
        progress := 0;
        uploadStatus := Failed;
        statusMessage := "Failed to upload: " + OrUnknown(error);
      case UploadThrew(message) =>
        progress := 0;
        uploadStatus := Failed;
        statusMessage := "Upload failed: " + OrUnknown(message);
    }

    /** The `FormData` of `handleSubmit`, appended field by field. */
    method FormData() returns (formData: seq<Entry>)
      requires resumeFile.Some?
      ensures formData == FormEntries(CurrentForm())
    {
      formData := [];
      formData := formData + [Entry("resume", FileValue(resumeFile.value))];
      if inputType == Link {
        formData := formData + [Entry("jobLink", TextValue(jobLink))];
      } else {
        formData := formData + [Entry("jobDescription", TextValue(jobDescription))];
        formData := formData + [Entry("companyName", TextValue(companyName))];
      }
      formData := formData + [Entry("interviewerName", TextValue(interviewer))];
      formData := formData + [Entry("jobInputType", TextValue(InputTypeName(inputType)))];
    }

    /** The `sessionStorage.setItem` calls after an ok response. */
    method SaveToSession()
      modifies this
      ensures Snapshot() == old(Snapshot()).(stored := Stored(old(stored), old(CurrentForm())))
    {
      if inputType == Link {
        stored := stored["jobLink" := jobLink];
      } else {
        stored := stored["jobDescription" := jobDescription];
        stored := stored["companyName" := companyName];
      }
      stored := stored["interviewerName" := interviewer];
      stored := stored["jobInputType" := InputTypeName(inputType)];
    }

    /** The mode buttons: switch mode and drop the three mode-specific errors, keeping the others. */
    method SelectInputType(t: InputType)
      modifies this
      ensures Snapshot() == old(Snapshot()).(
        form := old(CurrentForm()).(inputType := t),
        errors := old(errors) - {JobLinkError, JobDescriptionError, CompanyNameError})
    {
      inputType := t;
      errors := errors - {JobLinkError, JobDescriptionError, CompanyNameError};
    }

    /** The job link input: take the new value and drop its error. */
    method EditJobLink(v: string)
      modifies this
      ensures Snapshot() == old(Snapshot()).(form := old(CurrentForm()).(jobLink := v),
                                            errors := old(errors) - {JobLinkError})
    {
      jobLink := v;
      if JobLinkError in errors {
        errors := errors - {JobLinkError};
      }
    }

    /** The company name input: take the new value and drop its error. */
    method EditCompanyName(v: string)
      modifies this
      ensures Snapshot() == old(Snapshot()).(form := old(CurrentForm()).(companyName := v),
                                            errors := old(errors) - {CompanyNameError})
    {
      companyName := v;
      if CompanyNameError in errors {
        errors := errors - {CompanyNameError};
      }
    }

    /** The job description input: take the new value and drop its error. */
    method EditJobDescription(v: string)
      modifies this
      ensures Snapshot() == old(Snapshot()).(form := old(CurrentForm()).(jobDescription := v),
                                            errors := old(errors) - {JobDescriptionError})
    {
      jobDescription := v;
      if JobDescriptionError in errors {
        errors := errors - {JobDescriptionError};
      }
    }

    /** The interviewer input: take the new value and drop its error. */
    method EditInterviewer(v: string)
      modifies this
      ensures Snapshot() == old(Snapshot()).(form := old(CurrentForm()).(interviewer := v),
                                            errors := old(errors) - {InterviewerError})
    {
      interviewer := v;
      if InterviewerError in errors {
        errors := errors - {InterviewerError};
      }
    }

    /** The file input: a chosen file replaces the resume and drops its error; no file changes nothing. */
    method ChooseResume(file: Option<File>)
      modifies this
      ensures file.None? ==> Snapshot() == old(Snapshot())
      ensures file.Some? ==>
        Snapshot() == old(Snapshot()).(form := old(CurrentForm()).(resume := file),
                                      fileName := Some(file.value.name),
                                      errors := old(errors) - {ResumeError})
    {
      if file.Some? {
        resumeFile := file;
        fileName := Some(file.value.name);
        if ResumeError in errors {
          errors := errors - {ResumeError};
        }
      }
    }
  }
}
