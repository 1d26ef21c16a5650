/** The onboarding gate (project/src/components/OnboardingPage.tsx): the
    three step-completion tests, the progress figures, the Continue guard,
    and the camera and microphone toggles. A permission request is one
    atomic step whose outcome, granted or not, is a parameter. */
module OnboardingPage {
  import opened Types

  predicate Step1Complete(job: JobDetails) {
    job.role != "" && job.company != ""
  }

  predicate Step2Complete(resume: Option<Resume>) {
    resume.Some?
  }

  predicate Step3Complete(setup: TechnicalSetup) {
    setup.cameraEnabled && setup.micEnabled
  }

  /** The Continue button is rendered only when this holds. */
  predicate CanContinue(job: JobDetails, resume: Option<Resume>, setup: TechnicalSetup) {
    Step1Complete(job) && Step2Complete(resume) && Step3Complete(setup)
  }

  /** How many of the three steps are satisfied. */
  function CompletedSteps(job: JobDetails, resume: Option<Resume>, setup: TechnicalSetup): (n: nat)
    ensures n <= 3
    ensures n == 3 <==> CanContinue(job, resume, setup)
    ensures n == 0 <==> !Step1Complete(job) && !Step2Complete(resume) && !Step3Complete(setup)
  {
    (if Step1Complete(job) then 1 else 0)
    + (if Step2Complete(resume) then 1 else 0)
    + (if Step3Complete(setup) then 1 else 0)
  }

  /** The percentage shown on the progress bar. */
  function Progress(job: JobDetails, resume: Option<Resume>, setup: TechnicalSetup): (p: real)
    ensures 0.0 <= p <= 100.0
    ensures p == 100.0 <==> CanContinue(job, resume, setup)
    ensures p == 0.0 <==> CompletedSteps(job, resume, setup) == 0
  {
    (CompletedSteps(job, resume, setup) as real / 3.0) * 100.0
  }

  /** The "Step k of 3" indicator. */
  function StepIndicator(job: JobDetails, resume: Option<Resume>, setup: TechnicalSetup): (k: nat)
    ensures 1 <= k <= 3
    ensures k == CompletedSteps(job, resume, setup) + 1 || (k == 3 && CanContinue(job, resume, setup))
  {
    var n := CompletedSteps(job, resume, setup);
    if n + 1 < 3 then n + 1 else 3
  }

  // ---------------------------------------------------------------------
  // Device toggles
  // ---------------------------------------------------------------------

  /** For each device: enabled exactly when its permission is granted. */
  predicate DevicesConsistent(setup: TechnicalSetup) {
    && (setup.cameraEnabled <==> setup.cameraPermission == Granted)
    && (setup.micEnabled <==> setup.micPermission == Granted)
  }

  /** `toggleCamera`: switching an enabled camera off resets its permission to
      pending; switching it on records the outcome of the request. */
  function ToggleCamera(setup: TechnicalSetup, granted: bool): (r: TechnicalSetup)
    ensures r.micEnabled == setup.micEnabled && r.micPermission == setup.micPermission
    ensures setup.cameraEnabled ==> !r.cameraEnabled && r.cameraPermission == Pending
    ensures !setup.cameraEnabled && granted ==> r.cameraEnabled && r.cameraPermission == Granted
    ensures !setup.cameraEnabled && !granted ==> !r.cameraEnabled && r.cameraPermission == Denied
  {
    if setup.cameraEnabled then setup.(cameraEnabled := false, cameraPermission := Pending)
    else if granted then setup.(cameraEnabled := true, cameraPermission := Granted)
    else setup.(cameraEnabled := false, cameraPermission := Denied)
  }

  /** `toggleMicrophone`, the same rule for the microphone. */
  function ToggleMicrophone(setup: TechnicalSetup, granted: bool): (r: TechnicalSetup)
    ensures r.cameraEnabled == setup.cameraEnabled && r.cameraPermission == setup.cameraPermission
    ensures setup.micEnabled ==> !r.micEnabled && r.micPermission == Pending
    ensures !setup.micEnabled && granted ==> r.micEnabled && r.micPermission == Granted
    ensures !setup.micEnabled && !granted ==> !r.micEnabled && r.micPermission == Denied
  {
    if setup.micEnabled then setup.(micEnabled := false, micPermission := Pending)
    else if granted then setup.(micEnabled := true, micPermission := Granted)
    else setup.(micEnabled := false, micPermission := Denied)
  }

  /** Switching either device off withdraws the Continue button. */
  lemma DisablingRevokesContinue(job: JobDetails, resume: Option<Resume>, setup: TechnicalSetup, granted: bool)
    ensures setup.cameraEnabled ==> !CanContinue(job, resume, ToggleCamera(setup, granted))
    ensures setup.micEnabled ==> !CanContinue(job, resume, ToggleMicrophone(setup, granted))
  {
  }

  /** A click on one of the two switches, with the outcome of its request. */
  datatype DeviceToggle = CameraToggle(granted: bool) | MicrophoneToggle(granted: bool)

  function ApplyToggles(setup: TechnicalSetup, toggles: seq<DeviceToggle>): TechnicalSetup
    decreases |toggles|
  {
    if toggles == [] then setup
    else
      var t := toggles[0];
      var next := match t
        case CameraToggle(g) => ToggleCamera(setup, g)
        case MicrophoneToggle(g) => ToggleMicrophone(setup, g);
      ApplyToggles(next, toggles[1..])
  }

  /** Any run of toggles keeps "enabled iff granted" for both devices. */
  lemma {:induction false} TogglesKeepDevicesConsistent(setup: TechnicalSetup, toggles: seq<DeviceToggle>)
    requires DevicesConsistent(setup)
    ensures DevicesConsistent(ApplyToggles(setup, toggles))
    decreases |toggles|
  {
    if toggles != [] {
      var next := match toggles[0]
        case CameraToggle(g) => ToggleCamera(setup, g)
        case MicrophoneToggle(g) => ToggleMicrophone(setup, g);
      assert DevicesConsistent(next);
      TogglesKeepDevicesConsistent(next, toggles[1..]);
    }
  }
}
