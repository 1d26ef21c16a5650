/** The records the interview wizard passes around (project/src/types.ts),
    plus the Option wrapper used for the nullable and optional fields. */
module Types {

  datatype Option<T> = None | Some(value: T)

  datatype User = User(id: string, email: string, name: string)

  datatype JobDetails = JobDetails(role: string, company: string, jobDescription: string)

  datatype Difficulty = Easy | Medium | Hard

  datatype Question = Question(id: string, text: string, category: string, difficulty: Difficulty)

  /** An answer's score is the integer drawn by the feedback generator;
      `timestamp` is the millisecond clock reading taken at submission. */
  datatype Answer = Answer(questionId: string, text: string, score: int, feedback: string, timestamp: int)

  /** The uploaded resume; only its presence matters to the modelled logic. */
  datatype Resume = Resume(name: string, size: nat)

  /** `score` is a mean and therefore a real number; `completedAt` is a
      timestamp, absent until the session is completed. */
  datatype InterviewSession = InterviewSession(
    id: string,
    userId: string,
    jobDetails: JobDetails,
    resumeFile: Option<Resume>,
    questions: seq<Question>,
    answers: seq<Answer>,
    score: real,
    duration: int,
    completedAt: Option<int>)

  datatype Permission = Granted | Denied | Pending

  datatype TechnicalSetup = TechnicalSetup(
    cameraEnabled: bool,
    micEnabled: bool,
    cameraPermission: Permission,
    micPermission: Permission)

  /** The screens of the wizard. `UserHistory` is used by the root controller
      and by the archive page although the declared screen type omits it. */
  datatype Screen = Landing | Onboarding | Summary | LiveSession | Completion | Report | UserHistory

  datatype AuthMode = SignIn | SignUp

  datatype AppState = AppState(
    currentScreen: Screen,
    user: Option<User>,
    showAuthModal: bool,
    authMode: AuthMode,
    onboardingStep: int,
    jobDetails: JobDetails,
    resumeFile: Option<Resume>,
    technicalSetup: TechnicalSetup,
    currentSession: Option<InterviewSession>,
    showCompletionModal: bool)
}
