# Mock-interview wizard: verified model of its state logic

This project models the logic underneath a browser mock-interview wizard.
A user signs in, fills in a target role and company, uploads a resume and
switches on camera and microphone. They then answer a scripted question
while a session timer runs and a placeholder scorer grades each answer.
Finally they read a report, and completed sessions are listed in an
archive. The modules follow the source files:

- `Types` (types.dfy): the records of `project/src/types.ts`. The `Screen`
  type has a `UserHistory` value, which the root controller and the archive
  page use but the declared type omits.
- `Utils` (utils.dfy): `formatTime`, `generateQuestions`,
  `generateFeedback`, `calculateOverallScore` and `getRatingLabel`.
  `Math.random()` results are parameters, as reals in [0, 1), and are
  applied with `Floor` exactly as the source does. The mean is an exact
  `real`.
- `AppRoot` (app.dfy): the root controller. Class `App` holds the
  application state record and the append-only history, with one method
  per handler. `App.Valid` is the invariant every handler keeps:
  - every answer references a question of its session;
  - every answer score lies in [7, 10];
  - a session's score equals the mean of its answers;
  - archived sessions are stamped, with a duration in [600, 2399];
  - each device is enabled exactly when its permission is granted.

  The history adapter and the screen switch, with its guard against a
  missing session, are pure functions.
- `OnboardingPage` (onboarding_page.dfy): the step tests, the progress
  figures, the Continue guard and the two device toggles. A permission
  request's outcome is a boolean parameter.
- `LiveInterviewSession` (live_interview_session.dfy): class `Controller`
  holds the question index, the answer box, the three time counters and
  the pause/recording flags. A timer tick is a method call. The calls
  back into the root controller are returned as a list of intents. The
  speech-result loop is a method proved against a fold.
- `UserHistoryPage` (user_history.dfy): the archive filter and the
  duplicate-free role and company option lists.
- `AuthModal` (auth_modal.dfy): the sign-in name derivation and the fixed
  Google demo identity.

Where the code and the design description of the system disagree, the
model follows the code:

- Starting an interview without a signed-in user fails on `user!.id`
  before any state update (project/src/App.tsx:68). The model makes it a
  no-op.
- Completing has no once-per-session guard. The Final Submit button
  (project/src/components/LiveInterviewSession.tsx:215-221) can call it
  again, and each call appends to the history.
- Skipping has no session guard. Leaving discards the current session.
  Retaking keeps it until the next start replaces it.

## Model

| member | source | states |
|---|---|---|
| `Utils.NatToString` | project/src/utils.ts:6 | the decimal numeral is a non-empty digit string, one digit exactly for values below 10, with no leading zero |
| `Utils.ParseNatToString` | project/src/utils.ts:4-6 | reading the decimal numeral of n back gives n |
| `Utils.PadStart` | project/src/utils.ts:6 | `padStart`: the input is kept as the suffix, the pad character fills up to the width |
| `Utils.SecondsField` | project/src/utils.ts:5-6 | the padded seconds field is exactly two digits whose value is the seconds |
| `Utils.FormatTime` | project/src/utils.ts:3-7 | the output is the decimal of s/60, a colon, and two digits whose value is s%60 |
| `Utils.FormatTimeRoundTrip` | project/src/utils.ts:3-7 | parsing `m:ss` output back gives m*60+ss == s, with the seconds field below 60 |
| `Utils.FormatTimeInjective` | project/src/utils.ts:3-7 | distinct second counts are displayed differently |
| `Utils.GenerateQuestions` | project/src/utils.ts:9-44 | exactly one question: id '1', category 'Behavioral', difficulty Easy, the introduction text |
| `Utils.GenerateQuestionsIgnoresJob` | project/src/utils.ts:9-44 | the list does not depend on role or company |
| `Utils.GenerateFeedback` | project/src/utils.ts:46-60 | the score is an integer in [7,10] and the sentence is one of the five canned ones |
| `Utils.FeedbackIgnoresAnswer` | project/src/utils.ts:46-60 | the result depends only on the random draws, not on the answer text or question |
| `Utils.FeedbackCoversRange` | project/src/utils.ts:46-60 | every score in [7,10] with every canned sentence is produced by some pair of draws |
| `Utils.SumScores` | project/src/utils.ts:64 | the `reduce` total, folded left to right (its bounds are `Utils.SumScoresBounds`) |
| `Utils.CalculateOverallScore` | project/src/utils.ts:62-65 | 0 for no answers, otherwise a value that times the count equals the score total |
| `Utils.SumScoresBounds` | project/src/utils.ts:64 | the fold's total of n scores within [lo,hi] lies in [n*lo, n*hi] |
| `Utils.MeanWithinBounds` | project/src/utils.ts:62-65 | a non-empty list whose scores lie in [lo,hi] has its mean in [lo,hi] |
| `Utils.MeanAfterAppend` | project/src/utils.ts:62-65 | appending one answer moves the total by its score (incremental running mean) |
| `Utils.GetRatingLabel` | project/src/utils.ts:67-72 | each band holds exactly on its threshold interval: >=9, [8,9), [7,8), [6,7), <6 |
| `Utils.RatingMonotone` | project/src/utils.ts:67-72 | a higher score never gets a lower band |
| `Utils.FeedbackScoredAnswersRateAtLeastGood` | project/src/utils.ts:46-72 | a non-empty list of generator-scored answers always rates Good or better |
| `OnboardingPage.Step1Complete` | project/src/components/OnboardingPage.tsx:85 | role and company are both non-empty |
| `OnboardingPage.Step2Complete` | project/src/components/OnboardingPage.tsx:86 | a resume is uploaded |
| `OnboardingPage.Step3Complete` | project/src/components/OnboardingPage.tsx:87 | camera and microphone are both enabled |
| `OnboardingPage.CanContinue` | project/src/components/OnboardingPage.tsx:213 | all three steps are complete (tied to the count and progress by `CompletedSteps` and `Progress`) |
| `OnboardingPage.CompletedSteps` | project/src/components/OnboardingPage.tsx:85-88 | the count is in [0,3]; it is 3 iff Continue is allowed and 0 iff no step is done |
| `OnboardingPage.Progress` | project/src/components/OnboardingPage.tsx:89 | the percentage is in [0,100]; it is 100 iff Continue is allowed |
| `OnboardingPage.StepIndicator` | project/src/components/OnboardingPage.tsx:222 | "Step k of 3" always has k in [1,3] |
| `OnboardingPage.ToggleCamera` | project/src/components/OnboardingPage.tsx:153-181 | on to off gives (false, pending); off to on gives (true, granted) or (false, denied); mic fields unchanged |
| `OnboardingPage.ToggleMicrophone` | project/src/components/OnboardingPage.tsx:184-211 | the same rule for the microphone, camera fields unchanged |
| `OnboardingPage.DisablingRevokesContinue` | project/src/components/OnboardingPage.tsx:213 | switching either device off makes Continue unavailable |
| `OnboardingPage.TogglesKeepDevicesConsistent` | project/src/components/OnboardingPage.tsx:153-211 | any run of toggles keeps "enabled iff granted" for both devices |
| `AuthModal.LocalPart` | project/src/components/AuthModal.tsx:27 | `split('@')[0]`: a prefix of the email without '@', the whole email or followed by '@' |
| `AuthModal.DerivedName` | project/src/components/AuthModal.tsx:27 | a typed name passes unchanged; an empty one becomes the email's local part |
| `AuthModal.HandleSubmit` | project/src/components/AuthModal.tsx:25-28 | forwards the email and the derived name |
| `AuthModal.SubmitIgnoresPassword` | project/src/components/AuthModal.tsx:20-28 | what is forwarded does not depend on the password |
| `AuthModal.HandleGoogleSignIn` | project/src/components/AuthModal.tsx:30-32 | always ('demo@example.com', 'Demo User') |
| `AuthModal.LocalPartExample` | project/src/components/AuthModal.tsx:27 | "a@b.com" with no name signs in as "a" |
| `UserHistoryPage.Distinct` | project/src/components/UserHistory.tsx:50-51 | `Array.from(new Set(..))` has no duplicates and the same elements |
| `UserHistoryPage.UniqueRoles` | project/src/components/UserHistory.tsx:50 | duplicate-free, and holds exactly the roles occurring in the archive |
| `UserHistoryPage.UniqueCompanies` | project/src/components/UserHistory.tsx:51 | duplicate-free, and holds exactly the companies occurring in the archive |
| `UserHistoryPage.ToLower` | project/src/components/UserHistory.tsx:63-64 | same length, no capital letter left, each capital becomes its small letter, every other character kept |
| `UserHistoryPage.ToLowerIdempotent` | project/src/components/UserHistory.tsx:63-64 | lower-casing twice is lower-casing once |
| `UserHistoryPage.Includes` | project/src/components/UserHistory.tsx:63-64 | `includes`: the term starts at some position of the text |
| `UserHistoryPage.Matches` | project/src/components/UserHistory.tsx:63-67 | the case-folded search term occurs in the role or the company, and each non-empty filter equals the row's field |
| `UserHistoryPage.MatchesIgnoresSearchCase` | project/src/components/UserHistory.tsx:63-64 | the search is case-insensitive: a lower-cased term selects the same rows as the term as typed |
| `UserHistoryPage.FilterInterviews` | project/src/components/UserHistory.tsx:62-68 | an order-preserving subsequence keeping each matching row with its multiplicity and no other row |
| `UserHistoryPage.FilteredRowsMatch` | project/src/components/UserHistory.tsx:62-68 | every kept row contains the search term case-insensitively and equals the non-empty role/company filters |
| `UserHistoryPage.EmptyFilterKeepsAll` | project/src/components/UserHistory.tsx:62-68 | empty search and filters keep every row |
| `UserHistoryPage.FilterIdempotent` | project/src/components/UserHistory.tsx:62-68 | filtering twice equals filtering once |
| `LiveInterviewSession.IsWhitespace` | project/src/components/LiveInterviewSession.tsx:164 | the characters `trim` removes: ECMAScript white space and line terminators |
| `LiveInterviewSession.IsBlank` | project/src/components/LiveInterviewSession.tsx:164 | every character is one `trim` removes |
| `LiveInterviewSession.Trim` | project/src/components/LiveInterviewSession.tsx:164 | `trim()` is empty exactly when the answer is blank; otherwise it starts and ends with a kept character |
| `LiveInterviewSession.AppendFinal` | project/src/components/LiveInterviewSession.tsx:122 | a final segment follows one space, or none when the text is empty; the old text is a prefix |
| `LiveInterviewSession.FinalsExtends` | project/src/components/LiveInterviewSession.tsx:119-126 | accumulation only extends the text (the old text is a prefix) |
| `LiveInterviewSession.AccumulateTranscript` | project/src/components/LiveInterviewSession.tsx:118-126 | the loop gives the fold of the final segments and the last interim segment; the old text is a prefix |
| `LiveInterviewSession.Controller.constructor` | project/src/components/LiveInterviewSession.tsx:24-30 | index 0, empty answer, zero counters, flags off |
| `LiveInterviewSession.Controller.Advance` | project/src/components/LiveInterviewSession.tsx:173-174 | next question when not on the last, otherwise a completion request; the index stays in range |
| `LiveInterviewSession.Controller.HandleSubmitAnswer` | project/src/components/LiveInterviewSession.tsx:163-170 | a blank answer does nothing; otherwise submits (current id, untrimmed text), clears, then advances or completes |
| `LiveInterviewSession.Controller.HandleSkipQuestion` | project/src/components/LiveInterviewSession.tsx:171-175 | clears the answer without submitting, then advances or completes |
| `LiveInterviewSession.Controller.Tick` | project/src/components/LiveInterviewSession.tsx:76-85 | paused: nothing changes; else total +1 and user time +1 if recording, AI time +1 if not; total == user + AI |
| `LiveInterviewSession.Controller.TogglePause` | project/src/components/LiveInterviewSession.tsx:177 | flips the pause flag only |
| `LiveInterviewSession.Controller.ToggleRecording` | project/src/components/LiveInterviewSession.tsx:176 | flips the recording flag only |
| `LiveInterviewSession.Controller.EditAnswer` | project/src/components/LiveInterviewSession.tsx:379 | typing replaces the answer text |
| `LiveInterviewSession.Controller.StartListening` | project/src/components/LiveInterviewSession.tsx:105 | recognition starts from the current answer |
| `LiveInterviewSession.Controller.OnResult` | project/src/components/LiveInterviewSession.tsx:117-129 | accumulated text only grows; the answer shows it followed by the last interim segment |
| `LiveInterviewSession.FlagToggleRoundTrip` | project/src/components/LiveInterviewSession.tsx:176-177 | toggling either flag twice restores it, and no other controller field can change |
| `AppRoot.FindQuestion` | project/src/App.tsx:87 | finds a question iff one has the id; the found one has that id and no earlier question has it |
| `AppRoot.Duration` | project/src/App.tsx:119 | the random duration lies in [600, 2399] |
| `AppRoot.Interviews` | project/src/App.tsx:178-186 | same length and order; copies id, role, company, score; status 'Completed'; '—' for date/time without completedAt |
| `AppRoot.HistoryRow` | project/src/App.tsx:179-185 | one archive row from one session (its contract is stated through `AppRoot.Interviews`) |
| `AppRoot.InterviewsAppend` | project/src/App.tsx:178-186 | archiving a session appends exactly its row |
| `AppRoot.RenderCurrentScreen` | project/src/App.tsx:189-254 | nothing is rendered exactly for the completion value or for live-session/report without a session; the onboarding page offers Continue iff all three steps are complete |
| `AppRoot.App.constructor` | project/src/App.tsx:14-39 | the initial state (landing, no user, empty job, devices off and pending) and an empty history satisfy the invariant |
| `AppRoot.App.OpenAuthModal` | project/src/App.tsx:194-195 | shows the auth overlay in the given mode, nothing else changes |
| `AppRoot.App.CloseAuthModal` | project/src/App.tsx:262 | hides the auth overlay only |
| `AppRoot.App.ChangeAuthMode` | project/src/App.tsx:264 | changes the auth mode only |
| `AppRoot.App.HandleAuthenticate` | project/src/App.tsx:43-55 | sets the user, closes the auth overlay, moves to onboarding; history unchanged |
| `AppRoot.App.ChangeJobDetails` | project/src/App.tsx:203 | replaces the job details only |
| `AppRoot.App.UploadResume` | project/src/App.tsx:205 | records the resume only |
| `AppRoot.App.ToggleCamera` | project/src/App.tsx:207 | stores the camera toggle's result and keeps "enabled iff granted" |
| `AppRoot.App.ToggleMicrophone` | project/src/App.tsx:207 | stores the microphone toggle's result and keeps "enabled iff granted" |
| `AppRoot.App.HandleOnboardingComplete` | project/src/App.tsx:57-62 | called only from the Continue button, so only when all steps are complete; moves to the summary only |
| `AppRoot.App.HandleEditSetup` | project/src/App.tsx:162-167 | moves to onboarding only |
| `AppRoot.App.HandleStartInterview` | project/src/App.tsx:64-82 | a session with the generated questions, the job snapshot, no answers, score 0, duration 0, no completedAt; live-session screen |
| `AppRoot.App.HandleSubmitAnswer` | project/src/App.tsx:84-110 | no session or unknown id: no change; else exactly one answer appended, earlier answers and questions kept, score the new mean, screen kept |
| `AppRoot.App.HandleCompleteInterview` | project/src/App.tsx:113-129 | no session: no change; else history grows by the stamped session (duration in [600,2399]), overlay shown, screen kept |
| `AppRoot.App.ArchiveSession` | project/src/App.tsx:116-128 | the read session, stamped with the time and a duration in [600,2399], is appended to the history, made current, and the overlay shown |
| `AppRoot.App.SubmitLastAnswer` | project/src/components/LiveInterviewSession.tsx:163-168 | intended: the archived session keeps its id, job and questions and holds the earlier answers plus the submitted one, its score their mean; the whole new state is the old one with that session current and the overlay shown |
| `AppRoot.App.SubmitLastAnswerAsWritten` | project/src/App.tsx:84-129 | as wired: the archived and current session is the pre-submit one stamped; the answer is lost |
| `AppRoot.App.HandleViewReport` | project/src/App.tsx:131-137 | closes the overlay and goes to the report |
| `AppRoot.App.HandleRetakeInterview` | project/src/App.tsx:139-145 | closes the overlay and goes to onboarding, keeping the session |
| `AppRoot.App.CloseCompletionModal` | project/src/App.tsx:271 | hides the completion overlay only |
| `AppRoot.App.HandleBackToDashboard` | project/src/App.tsx:147-152 | goes to the landing page only |
| `AppRoot.App.HandleLeaveSession` | project/src/App.tsx:154-160 | goes to the landing page and clears the current session |
| `AppRoot.App.HandleNavigateUserHistory` | project/src/App.tsx:169-174 | goes to the archive only |
| `AppRoot.App.ArchiveNavigate` | project/src/App.tsx:243-245 | only 'landing' is acted on; any other page leaves the state unchanged |
| `AppRoot.SingleAnswerWalkthrough` | project/src/App.tsx:64-129 | intended Submit: one history entry for the role holding the answer, score a whole number in [7,10] rating Good or better |
| `AppRoot.SingleAnswerWalkthroughAsWritten` | project/src/components/LiveInterviewSession.tsx:163-168 | Submit as wired: the one history entry has no answer, scores 0 and rates Needs Improvement |

## Left out

- Camera and microphone stream acquisition, preview wiring and track
  teardown (project/src/components/OnboardingPage.tsx:92-127,
  project/src/components/LiveInterviewSession.tsx:47-74, InterviewSummary.tsx).
  These are asynchronous browser media APIs tied to component lifecycles.
- The `cameraLoading`/`micLoading` flags
  (project/src/components/OnboardingPage.tsx:163, 179, 193, 209). They are
  only observable while a permission request is pending. The model treats
  each toggle as one atomic step, so both flags are false before and after.
- Stale closures and batching: each handler is one atomic transition that
  reads the current state. The one place where this hides a visible
  effect is the Submit button on the last question, which is modelled
  both ways (see "## Findings"). The other stale reads are not modelled,
  for example a camera grant arriving after a microphone change and
  overwriting it with the setup captured at click time.
- Speech recognition lifecycle: browser support check, `isListening`, the
  5-second silence timeout, `onerror`/`onend`. Text-to-speech
  (project/src/components/LiveInterviewSession.tsx:88-160) is left out too.
  Only the transcript concatenation rule is modelled.
- Real time: the one-second interval is the `Tick` method.
  `Date.now()` and `new Date()` are integer timestamp parameters.
- Randomness: the user and session ids are string parameters. The
  feedback and duration draws are real parameters in [0, 1).
- Locale date and time strings are function parameters of the history
  adapter.
- Floating-point presentation is left out: `toFixed`, `Math.round` of the
  progress, progress-bar widths and clamping, and the resume size in MB.
  Scores and progress are exact reals, not IEEE doubles.
- View-only state and components: colour theme, drag-and-drop highlight,
  password visibility, the landing, completion, input, progress-bar,
  report and summary components. The report's rating comes from
  `Utils.GetRatingLabel`.
- The Python LLM endpoint and its HTTP client script (app.py, req.py).
  The endpoint returns a fixed response and nothing in the wizard calls it.
- LiveInterviewSession.Controller.constructor: requires a non-empty
  question list. The source reads `questions[currentQuestionIndex].id` and
  fails on an empty list. The root controller always passes the one
  generated question.
- UserHistoryPage.ToLower: folds ASCII letters only, not the full Unicode
  `toLowerCase`.
- UserHistoryPage.Distinct: does not state that the options keep the
  order of first occurrence, only that there are no duplicates and the
  element set is exact.
- Utils.FormatTime: defined for natural numbers of seconds only. The
  callers only pass the non-negative integer counters.

## Findings

| source | as written | input that shows it | evidently intended | confidence | as-written member | corrected member |
|---|---|---|---|---|---|---|
| project/src/components/LiveInterviewSession.tsx:165-168, project/src/App.tsx:113-128 | Submit on the last question calls `onSubmitAnswer` and then `onCompleteInterview` in one event. `handleCompleteInterview` builds the archived session from the `appState` captured at render time, before the submit, and writes it over the current session. | Start an interview and submit a non-blank answer to its one question: the history entry and the report have no answers and score 0 ("Needs Improvement"). | The archived session holds the submitted answer, and its score is the mean of the answer scores, in [7, 10]. | high; not executed | `AppRoot.App.SubmitLastAnswerAsWritten`, `AppRoot.SingleAnswerWalkthroughAsWritten` | `AppRoot.App.SubmitLastAnswer`, `AppRoot.SingleAnswerWalkthrough` |
