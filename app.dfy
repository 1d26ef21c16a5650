/** The root controller (project/src/App.tsx): the application state record
    and the append-only interview history, held by one object whose methods
    are the handlers the screens call. The clock (`Date.now()`,
    `new Date()`) and the random draws (identifiers, feedback, duration)
    are parameters of the handlers that use them. */
module AppRoot {
  import opened Types
  import opened Utils
  import OnboardingPage
  import UserHistoryPage

  // ---------------------------------------------------------------------
  // Sessions
  // ---------------------------------------------------------------------

  predicate HasQuestion(questions: seq<Question>, id: string) {
    exists i :: 0 <= i < |questions| && questions[i].id == id
  }

  /** `questions.find(q => q.id === id)`: the first question with the id. */
  function FindQuestion(questions: seq<Question>, id: string): (r: Option<Question>)
    ensures r.Some? <==> HasQuestion(questions, id)
    ensures r.Some? ==> r.value in questions && r.value.id == id
    ensures r.Some? ==> exists i :: 0 <= i < |questions| && questions[i] == r.value
                                    && forall j :: 0 <= j < i ==> questions[j].id != id
    decreases |questions|
  {
    if questions == [] then None
    else if questions[0].id == id then Some(questions[0])
    else
      var r := FindQuestion(questions[1..], id);
      assert HasQuestion(questions, id) ==> HasQuestion(questions[1..], id) by {
        if HasQuestion(questions, id) {
          var i :| 0 <= i < |questions| && questions[i].id == id;
          assert questions[1..][i - 1] == questions[i];
        }
      }
      assert HasQuestion(questions[1..], id) ==> HasQuestion(questions, id) by {
        if HasQuestion(questions[1..], id) {
          var i :| 0 <= i < |questions[1..]| && questions[1..][i].id == id;
          assert questions[i + 1] == questions[1..][i];
        }
      }
      r
  }

  /** Every answer belongs to a question of its session and carries a score
      the feedback generator can produce, and the session score is the mean
      of the answer scores. */
  predicate WellFormed(s: InterviewSession) {
    && (forall k :: 0 <= k < |s.answers| ==> HasQuestion(s.questions, s.answers[k].questionId))
    && ScoresWithin(s.answers, 7, 10)
    && s.score == CalculateOverallScore(s.answers)
  }

  /** A session as the history keeps it: stamped, with a duration of 10 to
      40 minutes in seconds. */
  predicate Archived(s: InterviewSession) {
    s.completedAt.Some? && 600 <= s.duration <= 2399
  }

  /** `Math.floor(Math.random() * 1800) + 600`. */
  function Duration(draw: real): (d: int)
    requires IsDraw(draw)
    ensures 600 <= d <= 2399
  {
    (draw * 1800.0).Floor + 600
  }

  // ---------------------------------------------------------------------
  // The initial state
  // ---------------------------------------------------------------------

  const InitialSetup := TechnicalSetup(false, false, Pending, Pending)

  const InitialState := AppState(
    Landing, None, false, SignUp, 1, JobDetails("", "", ""), None,
    InitialSetup, None, false)

  // ---------------------------------------------------------------------
  // The history adapter and the screen switch
  // ---------------------------------------------------------------------

  const NoDate := "—"

  /** One archive row; `localeDate` and `localeTime` stand for the
      locale-dependent renderings of the completion time. */
  function HistoryRow(s: InterviewSession, localeDate: int -> string, localeTime: int -> string)
    : UserHistoryPage.Interview
  {
    UserHistoryPage.Interview(
      s.id,
      if s.completedAt.Some? then localeDate(s.completedAt.value) else NoDate,
      if s.completedAt.Some? then localeTime(s.completedAt.value) else NoDate,
      s.jobDetails.role,
      s.jobDetails.company,
      s.score,
      "Completed")
  }

  /** The `interviews` list handed to the archive page: one row per archived
      session, in archive order. */
  function Interviews(history: seq<InterviewSession>, localeDate: int -> string, localeTime: int -> string)
    : (rows: seq<UserHistoryPage.Interview>)
    ensures |rows| == |history|
    ensures forall k :: 0 <= k < |history| ==>
              && rows[k].id == history[k].id
              && rows[k].role == history[k].jobDetails.role
              && rows[k].company == history[k].jobDetails.company
              && rows[k].score == history[k].score
              && rows[k].status == "Completed"
    ensures forall k :: 0 <= k < |history| && history[k].completedAt.None? ==>
              rows[k].date == NoDate && rows[k].time == NoDate
    ensures forall k :: 0 <= k < |history| && history[k].completedAt.Some? ==>
              && rows[k].date == localeDate(history[k].completedAt.value)
              && rows[k].time == localeTime(history[k].completedAt.value)
  {
    seq(|history|, k requires 0 <= k < |history| => HistoryRow(history[k], localeDate, localeTime))
  }

  /** Appending a session to the history appends its row to the archive. */
  lemma InterviewsAppend(history: seq<InterviewSession>, s: InterviewSession,
                         localeDate: int -> string, localeTime: int -> string)
    ensures Interviews(history + [s], localeDate, localeTime)
            == Interviews(history, localeDate, localeTime) + [HistoryRow(s, localeDate, localeTime)]
  {
  }

  /** What the screen switch renders. */
  datatype View =
    | LandingView
    | OnboardingView(jobDetails: JobDetails, resumeFile: Option<Resume>, technicalSetup: TechnicalSetup,
                     continueOffered: bool)
    | SummaryView(jobDetails: JobDetails, resumeFile: Option<Resume>, technicalSetup: TechnicalSetup)
    | LiveSessionView(jobDetails: JobDetails, questions: seq<Question>)
    | ReportView(session: InterviewSession)
    | UserHistoryView(interviews: seq<UserHistoryPage.Interview>)
    | NothingRendered

  /** `renderCurrentScreen`: the live-session and report screens render
      nothing without a current session, and the completion screen value
      has no case. The onboarding page offers Continue exactly when all
      three steps are complete. */
  function RenderCurrentScreen(st: AppState, interviews: seq<UserHistoryPage.Interview>): (v: View)
    ensures v.NothingRendered? <==>
              st.currentScreen == Completion
              || (st.currentScreen in {LiveSession, Report} && st.currentSession.None?)
    ensures v.LiveSessionView? <==> st.currentScreen == LiveSession && st.currentSession.Some?
    ensures v.LiveSessionView? ==> v.questions == st.currentSession.value.questions
    ensures v.ReportView? <==> st.currentScreen == Report && st.currentSession.Some?
    ensures v.ReportView? ==> v.session == st.currentSession.value
    ensures v.UserHistoryView? <==> st.currentScreen == UserHistory
    ensures v.UserHistoryView? ==> v.interviews == interviews
    ensures v.OnboardingView? <==> st.currentScreen == Onboarding
    ensures v.OnboardingView? ==>
              (v.continueOffered <==> OnboardingPage.CanContinue(st.jobDetails, st.resumeFile, st.technicalSetup))
  {
    match st.currentScreen
    case Landing => LandingView
    case Onboarding =>
      OnboardingView(st.jobDetails, st.resumeFile, st.technicalSetup,
                     OnboardingPage.CanContinue(st.jobDetails, st.resumeFile, st.technicalSetup))
    case Summary => SummaryView(st.jobDetails, st.resumeFile, st.technicalSetup)
    case LiveSession =>
      if st.currentSession.Some? then LiveSessionView(st.jobDetails, st.currentSession.value.questions)
      else NothingRendered
    case Report =>
      if st.currentSession.Some? then ReportView(st.currentSession.value) else NothingRendered
    case UserHistory => UserHistoryView(interviews)
    case Completion => NothingRendered
  }

  // ---------------------------------------------------------------------
  // The controller
  // ---------------------------------------------------------------------

  class App {
    var state: AppState
    var history: seq<InterviewSession>

    /** The current session and every archived one are well formed, archived
        sessions are stamped, and each device is enabled exactly when its
        permission is granted. */
    ghost predicate Valid()
      reads this
    {
      && OnboardingPage.DevicesConsistent(state.technicalSetup)
      && (state.currentSession.Some? ==> WellFormed(state.currentSession.value))
      && (forall k :: 0 <= k < |history| ==> WellFormed(history[k]) && Archived(history[k]))
    }

    constructor ()
      ensures Valid()
      ensures state == InitialState && history == []
    {
      state := InitialState;
      history := [];
    }

    /** The landing page's "get started" and "sign in" buttons. */
    method OpenAuthModal(mode: AuthMode)
      requires Valid()
      modifies this
      ensures Valid()
      ensures state == old(state).(showAuthModal := true, authMode := mode) && history == old(history)
    {
      state := state.(showAuthModal := true, authMode := mode);
    }

    method CloseAuthModal()
      requires Valid()
      modifies this
      ensures Valid()
      ensures state == old(state).(showAuthModal := false) && history == old(history)
    {
      state := state.(showAuthModal := false);
    }

    method ChangeAuthMode(mode: AuthMode)
      requires Valid()
      modifies this
      ensures Valid()
      ensures state == old(state).(authMode := mode) && history == old(history)
    {
      state := state.(authMode := mode);
    }

    /** Mock authentication: always succeeds; `userId` is the random id. */
    method HandleAuthenticate(email: string, name: string, userId: string)
      requires Valid()
      modifies this
      ensures Valid()
      ensures state == old(state).(user := Some(User(userId, email, name)), showAuthModal := false,
                                   currentScreen := Onboarding)
      ensures history == old(history)
    {
      state := state.(user := Some(User(userId, email, name)), showAuthModal := false,
                      currentScreen := Onboarding);
    }

    method ChangeJobDetails(jobDetails: JobDetails)
      requires Valid()
      modifies this
      ensures Valid()
      ensures state == old(state).(jobDetails := jobDetails) && history == old(history)
    {
      state := state.(jobDetails := jobDetails);
    }

    method UploadResume(file: Resume)
      requires Valid()
      modifies this
      ensures Valid()
      ensures state == old(state).(resumeFile := Some(file)) && history == old(history)
    {
      state := state.(resumeFile := Some(file));
    }

    /** The camera switch of the onboarding page, whose result the page hands
        back through `onTechnicalSetupChange`. */
    method ToggleCamera(granted: bool)
      requires Valid()
      modifies this
      ensures Valid()
      ensures state == old(state).(technicalSetup := OnboardingPage.ToggleCamera(old(state.technicalSetup), granted))
      ensures history == old(history)
    {
      state := state.(technicalSetup := OnboardingPage.ToggleCamera(state.technicalSetup, granted));
    }

    /** The microphone switch, likewise. */
    method ToggleMicrophone(granted: bool)
      requires Valid()
      modifies this
      ensures Valid()
      ensures state == old(state).(technicalSetup := OnboardingPage.ToggleMicrophone(old(state.technicalSetup), granted))
      ensures history == old(history)
    {
      state := state.(technicalSetup := OnboardingPage.ToggleMicrophone(state.technicalSetup, granted));
    }

    /** The onboarding page's Continue button, its only caller, which is
        rendered only when `OnboardingPage.CanContinue` holds. */
    method HandleOnboardingComplete()
      requires Valid()
      requires OnboardingPage.CanContinue(state.jobDetails, state.resumeFile, state.technicalSetup)
      modifies this
      ensures Valid()
      ensures state == old(state).(currentScreen := Summary) && history == old(history)
    {
      state := state.(currentScreen := Summary);
    }

    method HandleEditSetup()
      requires Valid()
      modifies this
      ensures Valid()
      ensures state == old(state).(currentScreen := Onboarding) && history == old(history)
    {
      state := state.(currentScreen := Onboarding);
    }

    /** Starts a session over the generated questions, snapshotting the job
        details and resume. Without a signed-in user the handler fails on
        `user!.id` before any update, so nothing changes. */
    method HandleStartInterview(sessionId: string)
      requires Valid()
      modifies this
      ensures Valid()
      ensures history == old(history)
      ensures old(state.user).None? ==> state == old(state)
      ensures old(state.user).Some? ==>
                var job := old(state.jobDetails);
                state == old(state).(
                  currentSession := Some(InterviewSession(
                    sessionId, old(state.user).value.id, job, old(state.resumeFile),
                    GenerateQuestions(job.role, job.company), [], 0.0, 0, None)),
                  currentScreen := LiveSession)
    {
      if state.user.None? {
        return;
      }
      var questions := GenerateQuestions(state.jobDetails.role, state.jobDetails.company);
      var session := InterviewSession(
        sessionId, state.user.value.id, state.jobDetails, state.resumeFile, questions, [], 0.0, 0, None);
      state := state.(currentSession := Some(session), currentScreen := LiveSession);
    }

    /** Records an answer: nothing happens without a current session or for
        an unknown question id; otherwise one scored answer is appended and
        the session score becomes the mean over all answers. */
    method HandleSubmitAnswer(questionId: string, answerText: string, scoreDraw: real, pickDraw: real, now: int)
      requires Valid()
      requires IsDraw(scoreDraw) && IsDraw(pickDraw)
      modifies this
      ensures Valid()
      ensures history == old(history)
      ensures old(state.currentSession).None? ==> state == old(state)
      ensures (old(state.currentSession).Some? && !HasQuestion(old(state.currentSession).value.questions, questionId))
                ==> state == old(state)
      ensures (old(state.currentSession).Some? && HasQuestion(old(state.currentSession).value.questions, questionId))
                ==>
                var s := old(state.currentSession).value;
                var q := FindQuestion(s.questions, questionId).value;
                var f := GenerateFeedback(answerText, q, scoreDraw, pickDraw);
                var a := Answer(questionId, answerText, f.score, f.feedback, now);
                state == old(state).(currentSession := Some(s.(answers := s.answers + [a],
                                                               score := CalculateOverallScore(s.answers + [a]))))
      ensures (old(state.currentSession).Some? && HasQuestion(old(state.currentSession).value.questions, questionId))
                ==>
                var s := old(state.currentSession).value;
                var s' := state.currentSession.value;
                && state.currentSession.Some?
                && s'.answers[..|s.answers|] == s.answers
                && |s'.answers| == |s.answers| + 1
                && s'.answers[|s.answers|].questionId == questionId
                && s'.answers[|s.answers|].text == answerText
                && 7 <= s'.answers[|s.answers|].score <= 10
                && s'.questions == s.questions
                && s'.score == CalculateOverallScore(s'.answers)
                && state.currentScreen == old(state.currentScreen)
    {
      if state.currentSession.None? {
        return;
      }
      var s := state.currentSession.value;
      var question := FindQuestion(s.questions, questionId);
      if question.None? {
        return;
      }
      var f := GenerateFeedback(answerText, question.value, scoreDraw, pickDraw);
      var a := Answer(questionId, answerText, f.score, f.feedback, now);
      var updatedAnswers := s.answers + [a];
      assert updatedAnswers[..|s.answers|] == s.answers;
      var updated := s.(answers := updatedAnswers, score := CalculateOverallScore(updatedAnswers));
      assert WellFormed(updated) by {
        forall k | 0 <= k < |updatedAnswers|
          ensures HasQuestion(s.questions, updatedAnswers[k].questionId)
        {
          if k < |s.answers| {
            assert updatedAnswers[k] == s.answers[k];
          }
        }
      }
      state := state.(currentSession := Some(updated));
    }

    /** Completes the current session: stamps it with `now` and a random
        duration, appends it to the history and shows the completion
        overlay. Without a current session nothing changes. */
    method HandleCompleteInterview(now: int, durationDraw: real)
      requires Valid()
      requires IsDraw(durationDraw)
      modifies this
      ensures Valid()
      ensures old(state.currentSession).None? ==> state == old(state) && history == old(history)
      ensures old(state.currentSession).Some? ==>
                var done := old(state.currentSession).value.(completedAt := Some(now),
                                                               duration := Duration(durationDraw));
                && history == old(history) + [done]
                && state == old(state).(currentSession := Some(done), showCompletionModal := true)
      ensures old(state.currentSession).Some? ==>
                && |history| == |old(history)| + 1
                && history[..|old(history)|] == old(history)
                && history[|old(history)|].completedAt == Some(now)
                && history[|old(history)|].questions == old(state.currentSession).value.questions
                && state == old(state).(currentSession := Some(history[|old(history)|]), showCompletionModal := true)
                && 600 <= history[|old(history)|].duration <= 2399
                && history[|old(history)|].answers == old(state.currentSession).value.answers
                && state.currentScreen == old(state.currentScreen)
    {
      if state.currentSession.None? {
        return;
      }
      ArchiveSession(state.currentSession.value, now, durationDraw);
    }

    /** The body of the completion handler for the session `s` it read:
        `s` stamped is appended to the history, becomes the current session
        and the completion overlay is shown. */
    method ArchiveSession(s: InterviewSession, now: int, durationDraw: real)
      requires Valid()
      requires WellFormed(s) && IsDraw(durationDraw)
      modifies this
      ensures Valid()
      ensures var done := s.(completedAt := Some(now), duration := Duration(durationDraw));
              && history == old(history) + [done]
              && state == old(state).(currentSession := Some(done), showCompletionModal := true)
    {
      var done := s.(completedAt := Some(now), duration := Duration(durationDraw));
      history := history + [done];
      state := state.(currentSession := Some(done), showCompletionModal := true);
    }

    /** The Submit button on the last question, as intended: the answer is
        recorded first and the completion then archives the session that
        holds it. */
    method SubmitLastAnswer(questionId: string, answerText: string, scoreDraw: real, pickDraw: real,
                            now: int, durationDraw: real)
      requires Valid()
      requires IsDraw(scoreDraw) && IsDraw(pickDraw) && IsDraw(durationDraw)
      modifies this
      ensures Valid()
      ensures old(state.currentSession).None? ==> state == old(state) && history == old(history)
      ensures old(state.currentSession).Some? ==>
                && |history| == |old(history)| + 1
                && history[..|old(history)|] == old(history)
                && state.currentSession == Some(history[|old(history)|])
                && state.showCompletionModal
                && history[|old(history)|].id == old(state.currentSession).value.id
                && history[|old(history)|].jobDetails == old(state.currentSession).value.jobDetails
                && history[|old(history)|].completedAt == Some(now)
                && history[|old(history)|].questions == old(state.currentSession).value.questions
                && state == old(state).(currentSession := Some(history[|old(history)|]), showCompletionModal := true)
      ensures (old(state.currentSession).Some? && HasQuestion(old(state.currentSession).value.questions, questionId))
                ==>
                var s := old(state.currentSession).value;
                var d := history[|history| - 1];
                && |d.answers| == |s.answers| + 1
                && d.answers[..|s.answers|] == s.answers
                && d.answers[|s.answers|].questionId == questionId
                && d.answers[|s.answers|].text == answerText
                && d.score == CalculateOverallScore(d.answers)
    {
      HandleSubmitAnswer(questionId, answerText, scoreDraw, pickDraw, now);
      HandleCompleteInterview(now, durationDraw);
    }

    /** The Submit button on the last question, as the program wires it: the
        screen calls the submit handler and then the completion handler in
        one event, and both read the application state captured when the
        screen was rendered. The completion therefore archives and shows
        the session as it was before the submit, and the answer is lost. */
    method SubmitLastAnswerAsWritten(questionId: string, answerText: string, scoreDraw: real, pickDraw: real,
                                     now: int, durationDraw: real)
      requires Valid()
      requires IsDraw(scoreDraw) && IsDraw(pickDraw) && IsDraw(durationDraw)
      modifies this
      ensures Valid()
      ensures old(state.currentSession).None? ==> state == old(state) && history == old(history)
      ensures old(state.currentSession).Some? ==>
                var done := old(state.currentSession).value.(completedAt := Some(now),
                                                               duration := Duration(durationDraw));
                && history == old(history) + [done]
                && state == old(state).(currentSession := Some(done), showCompletionModal := true)
    {
      var captured := state.currentSession;
      HandleSubmitAnswer(questionId, answerText, scoreDraw, pickDraw, now);
      if captured.None? {
        return;
      }
      ArchiveSession(captured.value, now, durationDraw);
    }

    method HandleViewReport()
      requires Valid()
      modifies this
      ensures Valid()
      ensures state == old(state).(showCompletionModal := false, currentScreen := Report)
      ensures history == old(history)
    {
      state := state.(showCompletionModal := false, currentScreen := Report);
    }

    /** Retake keeps the current session; the next start replaces it. */
    method HandleRetakeInterview()
      requires Valid()
      modifies this
      ensures Valid()
      ensures state == old(state).(showCompletionModal := false, currentScreen := Onboarding)
      ensures history == old(history)
    {
      state := state.(showCompletionModal := false, currentScreen := Onboarding);
    }

    method CloseCompletionModal()
      requires Valid()
      modifies this
      ensures Valid()
      ensures state == old(state).(showCompletionModal := false) && history == old(history)
    {
      state := state.(showCompletionModal := false);
    }

    method HandleBackToDashboard()
      requires Valid()
      modifies this
      ensures Valid()
      ensures state == old(state).(currentScreen := Landing) && history == old(history)
    {
      state := state.(currentScreen := Landing);
    }

    /** Leaving drops the current session (the history keeps what was
        completed). */
    method HandleLeaveSession()
      requires Valid()
      modifies this
      ensures Valid()
      ensures state == old(state).(currentScreen := Landing, currentSession := None)
      ensures history == old(history)
    {
      state := state.(currentScreen := Landing, currentSession := None);
    }

    method HandleNavigateUserHistory()
      requires Valid()
      modifies this
      ensures Valid()
      ensures state == old(state).(currentScreen := UserHistory) && history == old(history)
    {
      state := state.(currentScreen := UserHistory);
    }

    /** The archive page's navigation callback: only a request for the
        landing page is acted on. */
    method ArchiveNavigate(page: Screen)
      requires Valid()
      modifies this
      ensures Valid()
      ensures page == Landing ==> state == old(state).(currentScreen := Landing)
      ensures page != Landing ==> state == old(state)
      ensures history == old(history)
    {
      if page == Landing {
        HandleBackToDashboard();
      }
    }
  }

  /** The single-question walk-through with the Submit button as intended:
      start, answer the one question, complete. The archived session holds
      the answer, its score is a whole number between 7 and 10, it rates
      Good or better, and the archive holds one row for the chosen role. */
  method SingleAnswerWalkthrough(app: App, sessionId: string, text: string,
                                 scoreDraw: real, pickDraw: real, now: int, durationDraw: real)
    returns (score: real)
    requires app.Valid()
    requires app.state.user.Some? && app.history == []
    requires IsDraw(scoreDraw) && IsDraw(pickDraw) && IsDraw(durationDraw)
    modifies app
    ensures app.Valid()
    ensures |app.history| == 1
    ensures app.history[0].jobDetails.role == old(app.state.jobDetails.role)
    ensures |app.history[0].answers| == 1 && app.history[0].answers[0].text == text
    ensures score == app.history[0].score
    ensures 7.0 <= score <= 10.0 && score == score.Floor as real
    ensures BandRank(GetRatingLabel(score)) >= BandRank(Good)
  {
    app.HandleStartInterview(sessionId);
    var qid := app.state.currentSession.value.questions[0].id;
    assert HasQuestion(app.state.currentSession.value.questions, qid);
    app.SubmitLastAnswer(qid, text, scoreDraw, pickDraw, now, durationDraw);
    ghost var answers := app.history[0].answers;
    score := app.history[0].score;
    assert score == CalculateOverallScore(answers);
    assert SumScores(answers) == answers[0].score;
    MeanWithinBounds(answers, 7, 10);
    FeedbackScoredAnswersRateAtLeastGood(answers);
  }

  /** The same walk-through with the Submit button as the program wires it:
      the archived session has no answer, scores 0 and rates Needs
      Improvement, whatever was answered. */
  method SingleAnswerWalkthroughAsWritten(app: App, sessionId: string, text: string,
                                          scoreDraw: real, pickDraw: real, now: int, durationDraw: real)
    returns (score: real)
    requires app.Valid()
    requires app.state.user.Some? && app.history == []
    requires IsDraw(scoreDraw) && IsDraw(pickDraw) && IsDraw(durationDraw)
    modifies app
    ensures app.Valid()
    ensures |app.history| == 1
    ensures app.history[0].answers == []
    ensures score == app.history[0].score && score == 0.0
    ensures GetRatingLabel(score) == NeedsImprovement
  {
    app.HandleStartInterview(sessionId);
    var qid := app.state.currentSession.value.questions[0].id;
    app.SubmitLastAnswerAsWritten(qid, text, scoreDraw, pickDraw, now, durationDraw);
    score := app.history[0].score;
  }
}
