/**
 * The home page (`app/page.tsx`): after a resume upload it asks the server
 * for interview questions and then walks through them one at a time, playing
 * each question, recording an answer and showing feedback.
 *
 * React state becomes the fields of `InterviewSession`; each handler and each
 * effect becomes a method. Effects are methods the caller runs after the state
 * they depend on changed, as React does after a render. Network answers are
 * parameters, and `encodeURIComponent` is a parameter too.
 */
module HomePage {
  import opened Wrappers

  /** `interviewStatusType` */
  datatype StatusType = Idle | Loading | Succeeded | Failed

  /** `uploadStatus` */
  datatype UploadStatus = Waiting | Uploading | Uploaded | UploadFailed

  /**
   * How the `/api/start-interview` request ends: a response (its `ok` flag and
   * the `questions` array of its body, `None` when that is not an array), or a
   * thrown error (the network, or a body that is not JSON).
   */
  datatype StartOutcome = Replied(ok: bool, questions: Option<seq<string>>) | StartThrew

  /**
   * How the `/api/upload` request ends: an ok response with the rendering of
   * its `chunkCount`, a non-ok response, or a thrown error.
   */
  datatype UploadOutcome = UploadOk(chunkCountText: string) | UploadNotOk | UploadThrew

  const NoResumeMessage := "Please upload a resume first"
  const StartingMessage := "Starting interview"
  const QuestionsCreatedMessage := "Successfully created questions"
  const QuestionsFailedMessage := "Failed to create questions"
  const UploadFailedMessage := "Upload failed"
  const AudioPath := "/api/audio?text="

  /** `(interviewQuestions?.length ?? 1) - 1`: the last index, -1 for an empty list. */
  function LastIndex(questions: Option<seq<string>>): int {
    (if questions.Some? then |questions.value| else 1) - 1
  }

  /** `nextQuestion`'s update: one step forward, but never past the last index. */
  function NextIndex(questions: Option<seq<string>>, i: int): (j: int)
    ensures j <= i + 1 && j <= LastIndex(questions)
    ensures j == i + 1 || j == LastIndex(questions)
  {
    if LastIndex(questions) < i + 1 then LastIndex(questions) else i + 1
  }

  /** `previousQuestion`'s update: one step back, but never below 0. */
  function PreviousIndex(i: int): (j: int)
    ensures j >= 0 && j >= i - 1
    ensures j == i - 1 || j == 0
  {
    if 0 > i - 1 then 0 else i - 1
  }

  /** On a non-empty list both moves keep the index among the questions. */
  lemma MovesStayInRange(qs: seq<string>, i: int)
    requires |qs| >= 1 && 0 <= i < |qs|
    ensures 0 <= NextIndex(Some(qs), i) < |qs|
    ensures 0 <= PreviousIndex(i) < |qs|
  {
  }

  /** Next stays put at the last question and advances by one before it; previous stays put at 0. */
  lemma MovesAtTheEnds(qs: seq<string>, i: int)
    requires |qs| >= 1 && 0 <= i < |qs|
    ensures i == |qs| - 1 ==> NextIndex(Some(qs), i) == i
    ensures i < |qs| - 1 ==> NextIndex(Some(qs), i) == i + 1
    ensures i == 0 ==> PreviousIndex(i) == 0
    ensures i > 0 ==> PreviousIndex(i) == i - 1
  {
  }

  /** Going forward and back again returns to the same question, and so does back then forward. */
  lemma MovesUndoEachOther(qs: seq<string>, i: int)
    requires 0 <= i < |qs|
    ensures i < |qs| - 1 ==> PreviousIndex(NextIndex(Some(qs), i)) == i
    ensures i > 0 ==> NextIndex(Some(qs), PreviousIndex(i)) == i
  {
  }

  /** With an empty list the `?? 1` default does not apply, and next moves to -1. */
  lemma NextOnEmptyList(i: int)
    requires i >= -1
    ensures NextIndex(Some([]), i) == -1
  {
  }

  /** The Next button's `disabled`: last question, audio playing, recording, or no answer yet. */
  predicate NextDisabled(qs: seq<string>, i: int, ttsPlaying: bool, recording: bool, hasAnswer: bool) {
    i == |qs| - 1 || ttsPlaying || recording || !hasAnswer
  }

  /** The Previous button's `disabled`: the first question. */
  predicate PreviousDisabled(i: int) {
    i == 0
  }

  /** The buttons only move when they can move: an enabled Next advances by one, an enabled Previous goes back by one. */
  lemma EnabledButtonsMove(qs: seq<string>, i: int, ttsPlaying: bool, recording: bool, hasAnswer: bool)
    requires 0 <= i < |qs|
    ensures !NextDisabled(qs, i, ttsPlaying, recording, hasAnswer) ==>
      NextIndex(Some(qs), i) == i + 1 && !ttsPlaying && !recording && hasAnswer
    ensures !PreviousDisabled(i) ==> PreviousIndex(i) == i - 1
    ensures NextDisabled(qs, i, ttsPlaying, recording, hasAnswer) && !ttsPlaying && !recording && hasAnswer ==>
      NextIndex(Some(qs), i) == i
  {
  }

  /** `interviewQuestions[currentQuestion] ?? ""`: the shown question, or "" off the end of the list. */
  function QuestionText(qs: seq<string>, i: int): (t: string)
    ensures 0 <= i < |qs| ==> t == qs[i]
    ensures !(0 <= i < |qs|) ==> t == ""
  {
    if 0 <= i < |qs| then qs[i] else ""
  }

  /** The page's state. */
  datatype Session = Session(
    questions: Option<seq<string>>,
    current: int,
    hasAnswer: bool,
    feedback: Option<string>,
    ttsPlaying: bool,
    recording: bool,
    audioSrc: Option<string>,
    receivedResume: bool,
    uploadStatus: UploadStatus,
    uploadMessage: string,
    interviewStatus: string,
    statusType: StatusType,
    progress: int,
    startRequests: nat)

  /**
   * `startInterview`: without a resume it reports the error and sends nothing;
   * otherwise it sends one request and records the answer. A thrown error keeps
   * the questions it had; a non-ok response clears them.
   */
  function Started(s: Session, outcome: StartOutcome): Session {
    if !s.receivedResume then
      s.(interviewStatus := NoResumeMessage, statusType := Failed, progress := 0)
    else
      QuestionsAnswered(s.(startRequests := s.startRequests + 1), outcome)
  }

  /** How the answer to the question request lands in the state. */
  function QuestionsAnswered(s: Session, outcome: StartOutcome): Session {
    match outcome
    case Replied(ok, questions) =>
      if ok then s.(progress := 100, interviewStatus := QuestionsCreatedMessage,
                    statusType := Succeeded, questions := questions)
      else s.(progress := 0, interviewStatus := QuestionsFailedMessage,
              statusType := Failed, questions := None)
    case StartThrew =>
      s.(progress := 0, interviewStatus := QuestionsFailedMessage, statusType := Failed)
  }

  /** The request count, the status and the questions after each way `startInterview` can end. */
  lemma StartedOutcomes(s: Session, outcome: StartOutcome)
    ensures var t := Started(s, outcome);
      && t.startRequests == s.startRequests + (if s.receivedResume then 1 else 0)
      && t.current == s.current && t.receivedResume == s.receivedResume && t.uploadStatus == s.uploadStatus
      && (!s.receivedResume ==>
            t == s.(interviewStatus := NoResumeMessage, statusType := Failed, progress := 0))
      && (s.receivedResume && outcome.Replied? && outcome.ok ==>
            t.questions == outcome.questions && t.statusType == Succeeded && t.progress == 100
            && t.interviewStatus == QuestionsCreatedMessage)
      && (s.receivedResume && outcome.Replied? && !outcome.ok ==>
            t.questions == None && t.statusType == Failed && t.progress == 0
            && t.interviewStatus == QuestionsFailedMessage)
      && (s.receivedResume && outcome.StartThrew? ==>
            t.questions == s.questions && t.statusType == Failed && t.progress == 0
            && t.interviewStatus == QuestionsFailedMessage)
  {
  }

  /** No question request leaves the page before a resume was submitted, whatever the server would answer. */
  lemma NoRequestWithoutResume(s: Session, outcome: StartOutcome)
    requires !s.receivedResume
    ensures Started(s, outcome).startRequests == s.startRequests
    ensures Started(s, outcome).questions == s.questions
    ensures Started(s, outcome).statusType == Failed && Started(s, outcome).progress == 0
  {
  }

  /**
   * `uploadSubmit`: the resume counts as received as soon as the form is
   * submitted, whatever the upload's outcome. A non-ok response reads the body
   * a second time with `r.text()` after `r.json()`; that call rejects, so the
   * non-ok path ends in the same catch block as a thrown error.
   */
  function Submitted(s: Session, outcome: UploadOutcome): Session {
    var s := s.(receivedResume := true);
    match outcome
    case UploadOk(chunkCountText) =>
      s.(progress := 100, uploadMessage := "Successfully Embedded " + chunkCountText + " chunks",
         uploadStatus := Uploaded)
    case _ =>
      s.(progress := 0, uploadStatus := UploadFailed, uploadMessage := UploadFailedMessage)
  }

  /** After a submission the resume counts as received; the upload status and message follow the outcome. */
  lemma SubmittedOutcomes(s: Session, outcome: UploadOutcome)
    ensures var t := Submitted(s, outcome);
      && t.receivedResume
      && (t.uploadStatus == Uploaded <==> outcome.UploadOk?)
      && (outcome.UploadOk? ==>
            t.uploadMessage == "Successfully Embedded " + outcome.chunkCountText + " chunks" && t.progress == 100)
      && (!outcome.UploadOk? ==> t.uploadMessage == UploadFailedMessage && t.progress == 0 && t.uploadStatus == UploadFailed)
      && t.questions == s.questions && t.current == s.current && t.startRequests == s.startRequests
  {
  }

  /** Even a failed upload lets `startInterview` past its resume check. */
  lemma FailedUploadStillCountsAsResume(s: Session, upload: UploadOutcome, start: StartOutcome)
    ensures Started(Submitted(s, upload), start).startRequests == s.startRequests + 1
  {
  }

  /** The Start Interview button's `disabled`: the upload has not succeeded, or a request is under way. */
  predicate StartDisabled(s: Session) {
    s.uploadStatus != Uploaded || s.statusType == Loading
  }

  /** The button is enabled only after an ok upload, so a click on it is never turned away for lack of a resume. */
  lemma EnabledStartPassesResumeCheck(s: Session, upload: UploadOutcome, start: StartOutcome)
    requires !StartDisabled(Submitted(s, upload))
    ensures upload.UploadOk?
    ensures Started(Submitted(s, upload), start).interviewStatus != NoResumeMessage
  {
  }

  class InterviewSession {
    var questions: Option<seq<string>>
    var current: int
    var hasAnswer: bool
    var feedback: Option<string>
    var ttsPlaying: bool
    var recording: bool
    var audioSrc: Option<string>
    var receivedResume: bool
    var uploadStatus: UploadStatus
    var uploadMessage: string
    var interviewStatus: string
    var statusType: StatusType
    var progress: int
    /** The requests posted to `/api/start-interview`. */
    var startRequests: nat

    function Snapshot(): Session
      reads this
    {
      Session(questions, current, hasAnswer, feedback, ttsPlaying, recording, audioSrc,
              receivedResume, uploadStatus, uploadMessage, interviewStatus, statusType, progress, startRequests)
    }

    /** The shown index names a question whenever there are questions to show. */
    predicate IndexInRange()
      reads this
    {
      questions.Some? && |questions.value| > 0 ==> 0 <= current < |questions.value|
    }

    /** The first render. */
    constructor()
      ensures Snapshot() == Session(None, 0, false, None, false, false, None, false, Waiting, "", "", Idle, 0, 0)
      ensures IndexInRange()
    {
      questions, current, hasAnswer, feedback := None, 0, false, None;
      ttsPlaying, recording, audioSrc := false, false, None;
      receivedResume, uploadStatus, uploadMessage := false, Waiting, "";
      interviewStatus, statusType, progress, startRequests := "", Idle, 0, 0;
    }

    /** `nextQuestion`: step forward within the list and drop the feedback. */
    method NextQuestion()
      modifies this
      ensures Snapshot() == old(Snapshot()).(current := NextIndex(old(questions), old(current)), feedback := None)
      ensures old(IndexInRange()) ==> IndexInRange()
    {
      current := if LastIndex(questions) < current + 1 then LastIndex(questions) else current + 1;
      feedback := None;
    }

    /** `previousQuestion`: step back, not below 0, and drop the feedback. */
    method PreviousQuestion()
      modifies this
      ensures Snapshot() == old(Snapshot()).(current := PreviousIndex(old(current)), feedback := None)
      ensures old(IndexInRange()) ==> IndexInRange()
    {
      current := if 0 > current - 1 then 0 else current - 1;
      feedback := None;
    }

    /** `resetQuestions`: back to the first question. */
    method ResetQuestions()
      modifies this
      ensures Snapshot() == old(Snapshot()).(current := 0)
      ensures IndexInRange()
    {
      current := 0;
    }

    /** The effect on `interviewQuestions`: a new non-empty list starts at its first question with no answer. */
    method QuestionsChanged()
      modifies this
      ensures old(questions).Some? && |old(questions).value| > 0 ==>
        Snapshot() == old(Snapshot()).(current := 0, hasAnswer := false)
      ensures !(old(questions).Some? && |old(questions).value| > 0) ==> Snapshot() == old(Snapshot())
      ensures IndexInRange() <== old(questions).Some? && |old(questions).value| > 0
    {
      if questions.Some? && |questions.value| > 0 {
        current := 0;
        hasAnswer := false;
      }
    }

    /**
     * The effect on the current question: point the audio player at the spoken
     * question, start counting it as playing, and forget any earlier answer and
     * feedback; with no questions, drop the audio.
     */
    method QuestionShown(encode: string -> string)
      modifies this
      ensures old(questions).Some? && |old(questions).value| > 0 ==>
        var text := QuestionText(old(questions).value, old(current));
        Snapshot() == old(Snapshot()).(
          audioSrc := if text != "" then Some(AudioPath + encode(text)) else old(audioSrc),
          ttsPlaying := text != "", hasAnswer := false, feedback := None)
      ensures !(old(questions).Some? && |old(questions).value| > 0) ==>
        Snapshot() == old(Snapshot()).(audioSrc := None)
    {
      if questions.Some? && |questions.value| > 0 {
        var qs := questions.value;
        var text := if 0 <= current < |qs| then qs[current] else "";
        if text != "" {
          audioSrc := Some(AudioPath + encode(text));
        }
        ttsPlaying := text != "";
        hasAnswer := false;
        feedback := None;
      } else {
        audioSrc := None;
      }
    }

    /** The audio player's `onPlay`. */
    method TtsStarted()
      modifies this
      ensures Snapshot() == old(Snapshot()).(ttsPlaying := true)
    {
      ttsPlaying := true;
    }

    /** The audio player's `onEnded`. */
    method TtsEnded()
      modifies this
      ensures Snapshot() == old(Snapshot()).(ttsPlaying := false)
    {
      ttsPlaying := false;
    }

    /** The Stop Recording button: recording ends and the question counts as answered. */
    method StopRecording()
      modifies this
      ensures Snapshot() == old(Snapshot()).(recording := false, hasAnswer := true)
    {
      recording := false;
      hasAnswer := true;
    }

    /** `startInterview`. */
    method StartInterview(outcome: StartOutcome)
      modifies this
      ensures Snapshot() == Started(old(Snapshot()), outcome)
    {
      interviewStatus := StartingMessage;
      statusType := Loading;
      progress := 10;
      if !receivedResume {
        interviewStatus := NoResumeMessage;
        statusType := Failed;
        progress := 0;
        return;
      }
      progress := 30;
      startRequests := startRequests + 1;
      progress := 70;
      RecordQuestions(outcome);
    }

    /** The branches of `startInterview` on the server's answer. */
    method RecordQuestions(outcome: StartOutcome)
      modifies this
      ensures Snapshot() == QuestionsAnswered(old(Snapshot()), outcome)
    {
      match outcome
      case Replied(ok, qs) =>
        if ok {
          progress := 100;
          interviewStatus := QuestionsCreatedMessage;
          statusType := Succeeded;
          questions := qs;
        } else {
          progress := 0;
          interviewStatus := QuestionsFailedMessage;
          statusType := Failed;
          questions := None;
        }
      case StartThrew =>
        progress := 0;
        interviewStatus := QuestionsFailedMessage;
        statusType := Failed;
    }

    /** `uploadSubmit`. */
    method UploadSubmit(outcome: UploadOutcome)
      modifies this
      ensures Snapshot() == Submitted(old(Snapshot()), outcome)
    {
      receivedResume := true;
      uploadStatus := Uploading;
      uploadMessage := "Uploading & embedding\U{2026}";
      progress := 10;
      progress := 30;
      progress := 70;
      match outcome
      case UploadOk(chunkCountText) =>
        progress := 100;
        uploadMessage := "Successfully Embedded " + chunkCountText + " chunks";
        uploadStatus := Uploaded;
      case UploadNotOk =>
        // `r.text()` rejects here, so the catch block's updates follow.
        progress := 0;
        uploadStatus := UploadFailed;
        uploadMessage := UploadFailedMessage;
      case UploadThrew =>
        progress := 0;
        uploadStatus := UploadFailed;
        uploadMessage := UploadFailedMessage;
    }
  }

  /** Loading questions and then running the list effect leaves the index on a question. */
  method LoadQuestions(page: InterviewSession, outcome: StartOutcome)
    modifies page
    ensures outcome.Replied? && outcome.ok && outcome.questions.Some? && |outcome.questions.value| > 0
            && old(page.receivedResume) ==>
      page.current == 0 && page.IndexInRange() && page.questions == outcome.questions && !page.hasAnswer
  {
    page.StartInterview(outcome);
    page.QuestionsChanged();
  }
}
