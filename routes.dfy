/**
 * The decision logic of the web routes: the upload checks and the
 * analysis-session lifecycle of `process_image_route`, the ordered
 * validation of `register`, the dashboard statistics and the choice of
 * treatment recommendations. The database is a `Store` holding its tables
 * as sequences of records; HTTP, templates and flashing are reduced to the
 * response a route returns and the message it flashes.
 */
module Routes {
  import opened Wrappers
  import CC = CancerClassifier
  import Utils

  /** `processing_status`: uploaded, processing, completed, failed. */
  datatype ProcessingStatus = Uploaded | Processing | Completed | Failed

  function StatusName(s: ProcessingStatus): string
  {
    match s
    case Uploaded => "uploaded"
    case Processing => "processing"
    case Completed => "completed"
    case Failed => "failed"
  }

  /** A row of `AnalysisSession`; times are clock readings supplied by the caller. */
  datatype AnalysisSession = AnalysisSession(
    sessionId: string,
    userId: int,
    originalFilename: string,
    heImagePath: string,
    ihcImagePath: Option<string>,
    her2Prediction: Option<CC.Her2Status>,
    confidenceScore: Option<real>,
    cancerGrade: Option<CC.CancerGrade>,
    biomarkerPercentage: Option<real>,
    stainingIntensity: Option<CC.StainingIntensity>,
    processingStatus: ProcessingStatus,
    errorMessage: Option<string>,
    createdAt: int,
    completedAt: Option<int>)

  /** The three fixed texts of `generate_recommendations`. */
  datatype Advice = TargetedTherapy | TherapyNotIndicated | AdditionalTesting

  /** A row of `ReportData`; the summary and technical-notes texts are not modelled. */
  datatype ReportData = ReportData(
    sessionId: string,
    reportType: string,
    recommendations: Advice,
    positiveCellCount: int,
    totalCellCount: int,
    stainedAreaPercentage: real)

  /** A row of `User`; `passwordHash` is whatever Werkzeug's hasher returned. */
  datatype User = User(
    username: string,
    email: string,
    passwordHash: string,
    firstName: string,
    lastName: string,
    role: string,
    activeStatus: bool)

  /** The `he_image` part of an upload request. */
  datatype Upload = Upload(filename: string)

  /** Where `process_image_route` redirects, with the message it flashes. */
  datatype UploadResponse = UploadPage(flash: string) | ResultsPage(sessionId: string, message: string)

  /** What `register` returns: a redirect, the form again (with a flashed error), or the login page. */
  datatype RegisterResponse = DashboardRedirect | RegisterPage(flash: Option<string>) | LoginRedirect(notice: string)

  /** The fields `register` reads with `request.form.get`; `None` for a missing field. */
  datatype RegistrationForm = RegistrationForm(
    firstName: Option<string>,
    lastName: Option<string>,
    username: Option<string>,
    email: Option<string>,
    role: Option<string>,
    password: Option<string>,
    confirmPassword: Option<string>)

  const NoFileSelected := "No file selected"
  const InvalidFormat := "Invalid file format. Please upload TIFF, PNG, or JPEG images."
  const UnexpectedError := "An unexpected error occurred during processing"
  const Phase1Flash := "Image processing failed during IHC generation"
  const Phase2Flash := "Image processing failed during cancer analysis"
  const CompletedFlash := "Analysis completed successfully!"
  const Phase1Prefix := "IHC generation failed: "
  const Phase2Prefix := "Cancer prediction failed: "

  const MissingFields := "Please fill in all required fields"
  const PasswordMismatch := "Passwords do not match"
  const PasswordTooShort := "Password must be at least 6 characters long"
  const UsernameExists := "Username already exists"
  const EmailExists := "Email already registered"
  const RegistrationSuccess := "Registration successful! You can now log in."

  predicate StartsWith(prefix: string, s: string)
  {
    |prefix| <= |s| && s[..|prefix|] == prefix
  }

  predicate EndsWith(suffix: string, s: string)
  {
    |suffix| <= |s| && s[|s| - |suffix|..] == suffix
  }

  /** `os.path.join(folder, name)` on POSIX paths. */
  function JoinPath(folder: string, name: string): (p: string)
  {
    if |name| > 0 && name[0] == '/' then name
    else if folder == [] || folder[|folder| - 1] == '/' then folder + name
    else folder + "/" + name
  }

  /** A joined path ends with the name joined onto the folder. */
  lemma JoinPathEndsWithName(folder: string, name: string)
    ensures EndsWith(name, JoinPath(folder, name))
  {
  }

  /**
   * The upload checks, in order: no file part, an empty filename, a
   * filename `allowed_file` refuses. `None` lets the upload through.
   */
  function UploadRejection(file: Option<Upload>): (m: Option<string>)
    ensures m.None? <==> file.Some? && file.value.filename != "" && Utils.AllowedFile(file.value.filename)
    ensures m.Some? ==> m.value == NoFileSelected || m.value == InvalidFormat
    ensures file.None? ==> m == Some(NoFileSelected)
    ensures file.Some? && file.value.filename == "" ==> m == Some(NoFileSelected)
    ensures file.Some? && file.value.filename != "" && !Utils.AllowedFile(file.value.filename) ==> m == Some(InvalidFormat)
  {
    if file.None? then Some(NoFileSelected)
    else if file.value.filename == "" then Some(NoFileSelected)
    else if !Utils.AllowedFile(file.value.filename) then Some(InvalidFormat)
    else None
  }

  /** `generate_recommendations`: every status but positive and negative, and no status, get the equivocal text. */
  function GenerateRecommendations(her2: Option<CC.Her2Status>): (a: Advice)
    ensures a == TargetedTherapy <==> her2 == Some(CC.Positive)
    ensures a == TherapyNotIndicated <==> her2 == Some(CC.Negative)
    ensures a == AdditionalTesting <==> her2 == None || her2 == Some(CC.Equivocal)
  {
    match her2
    case None => AdditionalTesting
    case Some(s) =>
      if s.Positive? then TargetedTherapy
      else if s.Negative? then TherapyNotIndicated
      else AdditionalTesting
  }

  /** The bullet lines of each recommendation text. */
  function AdviceLines(a: Advice): (lines: seq<string>)
    ensures |lines| == 4
  {
    match a
    case TargetedTherapy =>
      ["Consider HER2-targeted therapy (e.g., trastuzumab)",
       "Evaluate for combination with chemotherapy",
       "Monitor for cardiotoxicity during treatment",
       "Consider genetic counseling if familial history present"]
    case TherapyNotIndicated =>
      ["HER2-targeted therapy not indicated",
       "Consider hormone receptor status evaluation",
       "Standard chemotherapy protocols may be appropriate",
       "Regular monitoring and follow-up recommended"]
    case AdditionalTesting =>
      ["Equivocal result requires additional testing",
       "Consider FISH analysis for confirmation",
       "Repeat IHC staining with fresh tissue if available",
       "Clinical correlation recommended"]
  }

  /** The three recommendation texts differ, so the stored text tells which status it was chosen for. */
  lemma AdviceTextsDistinct(a: Advice, b: Advice)
    ensures a != b ==> AdviceLines(a) != AdviceLines(b)
  {
  }

  /** The record `process_image_route` adds before phase 1 runs. */
  function NewSession(sessionId: string, userId: int, filename: string, heImagePath: string,
                      createdAt: int): (s: AnalysisSession)
    ensures s.processingStatus == Processing && !Settled(s)
    ensures s.sessionId == sessionId && s.userId == userId && s.originalFilename == filename
    ensures s.heImagePath == heImagePath && s.createdAt == createdAt
    ensures s.ihcImagePath.None? && s.errorMessage.None? && s.completedAt.None?
    ensures s.her2Prediction.None? && s.confidenceScore.None? && s.cancerGrade.None?
    ensures s.biomarkerPercentage.None? && s.stainingIntensity.None?
  {
    AnalysisSession(sessionId, userId, filename, heImagePath, None, None, None, None, None, None,
                    Processing, None, createdAt, None)
  }

  /**
   * The state a session is left in once the route returns: completed with
   * every result field set and no error, or failed with a message that
   * names the phase (and an IHC image exactly when phase 1 succeeded).
   */
  predicate Settled(s: AnalysisSession)
  {
    match s.processingStatus
    case Completed =>
      && s.completedAt.Some? && s.ihcImagePath.Some? && s.errorMessage.None?
      && s.her2Prediction.Some? && s.confidenceScore.Some? && s.cancerGrade.Some?
      && s.biomarkerPercentage.Some? && s.stainingIntensity.Some?
    case Failed =>
      && s.completedAt.None? && s.her2Prediction.None? && s.errorMessage.Some?
      && ((StartsWith(Phase1Prefix, s.errorMessage.value) && s.ihcImagePath.None?)
          || (StartsWith(Phase2Prefix, s.errorMessage.value) && s.ihcImagePath.Some?))
    case _ => false
  }

  predicate SessionIdTaken(sessions: seq<AnalysisSession>, id: string)
  {
    exists i :: 0 <= i < |sessions| && sessions[i].sessionId == id
  }

  predicate HasCompletedSession(sessions: seq<AnalysisSession>, id: string)
  {
    exists i :: 0 <= i < |sessions| && sessions[i].sessionId == id && sessions[i].processingStatus == Completed
  }

  predicate UniqueSessionIds(sessions: seq<AnalysisSession>)
  {
    forall i, j :: 0 <= i < j < |sessions| ==> sessions[i].sessionId != sessions[j].sessionId
  }

  predicate UsernameTaken(users: seq<User>, name: string)
  {
    exists i :: 0 <= i < |users| && users[i].username == name
  }

  predicate EmailTaken(users: seq<User>, email: string)
  {
    exists i :: 0 <= i < |users| && users[i].email == email
  }

  /** The `unique=True` columns of `User`. */
  predicate UniqueAccounts(users: seq<User>)
  {
    forall i, j :: 0 <= i < j < |users| ==> users[i].username != users[j].username && users[i].email != users[j].email
  }

  /** A field Python's `all([...])` counts as present: not `None` and not empty. */
  predicate Filled(field: Option<string>)
  {
    field.Some? && field.value != ""
  }

  predicate AllFilled(form: RegistrationForm)
  {
    && Filled(form.firstName) && Filled(form.lastName) && Filled(form.username)
    && Filled(form.email) && Filled(form.password) && Filled(form.confirmPassword)
  }

  /** What a registration must satisfy, stated without regard to the order of the checks. */
  predicate RegistrationAcceptable(form: RegistrationForm, users: seq<User>)
  {
    && AllFilled(form)
    && form.password == form.confirmPassword
    && |form.password.value| >= 6
    && !UsernameTaken(users, form.username.value)
    && !EmailTaken(users, form.email.value)
  }

  /** The validation chain of `register`: the first failing check names the error. */
  function RegistrationError(form: RegistrationForm, users: seq<User>): (e: Option<string>)
    ensures e.None? <==> RegistrationAcceptable(form, users)
    ensures !AllFilled(form) ==> e == Some(MissingFields)
    ensures AllFilled(form) && form.password != form.confirmPassword ==> e == Some(PasswordMismatch)
    ensures AllFilled(form) && form.password == form.confirmPassword && |form.password.value| < 6
            ==> e == Some(PasswordTooShort)
    ensures AllFilled(form) && form.password == form.confirmPassword && |form.password.value| >= 6
            && UsernameTaken(users, form.username.value)
            ==> e == Some(UsernameExists)
    ensures AllFilled(form) && form.password == form.confirmPassword && |form.password.value| >= 6
            && !UsernameTaken(users, form.username.value) && EmailTaken(users, form.email.value)
            ==> e == Some(EmailExists)
  {
    if !AllFilled(form) then Some(MissingFields)
    else if form.password != form.confirmPassword then Some(PasswordMismatch)
    else if |form.password.value| < 6 then Some(PasswordTooShort)
    else if UsernameTaken(users, form.username.value) then Some(UsernameExists)
    else if EmailTaken(users, form.email.value) then Some(EmailExists)
    else None
  }

  /** The user `register` creates: the submitted role is ignored, every account is a `'user'`. */
  function NewUser(form: RegistrationForm, passwordHash: string): (u: User)
    requires AllFilled(form)
    ensures u.role == "user" && u.activeStatus
    ensures u.username == form.username.value && u.email == form.email.value
    ensures u.firstName == form.firstName.value && u.lastName == form.lastName.value
    ensures u.passwordHash == passwordHash
  {
    User(form.username.value, form.email.value, passwordHash, form.firstName.value,
         form.lastName.value, "user", true)
  }

  /** The submitted role changes neither the outcome of validation nor the account created. */
  lemma RoleIgnored(form: RegistrationForm, role: Option<string>, users: seq<User>, passwordHash: string)
    ensures RegistrationError(form.(role := role), users) == RegistrationError(form, users)
    ensures AllFilled(form) ==> NewUser(form.(role := role), passwordHash) == NewUser(form, passwordHash)
  {
  }

  /**
   * Each message names the check that failed: it is reported exactly when
   * every earlier check passed and that one did not.
   */
  lemma ErrorIdentifiesCheck(form: RegistrationForm, users: seq<User>)
    ensures var e := RegistrationError(form, users);
            && (e == Some(MissingFields) <==> !AllFilled(form))
            && (e == Some(PasswordMismatch) <==> AllFilled(form) && form.password != form.confirmPassword)
            && (e == Some(PasswordTooShort) <==>
                  AllFilled(form) && form.password == form.confirmPassword && |form.password.value| < 6)
            && (e == Some(UsernameExists) <==>
                  AllFilled(form) && form.password == form.confirmPassword && |form.password.value| >= 6
                  && UsernameTaken(users, form.username.value))
            && (e == Some(EmailExists) <==>
                  AllFilled(form) && form.password == form.confirmPassword && |form.password.value| >= 6
                  && !UsernameTaken(users, form.username.value) && EmailTaken(users, form.email.value))
  {
  }

  /** A user with a fresh name and a fresh email keeps the accounts unique. */
  lemma AddUserKeepsUnique(users: seq<User>, u: User)
    requires UniqueAccounts(users)
    requires !UsernameTaken(users, u.username) && !EmailTaken(users, u.email)
    ensures UniqueAccounts(users + [u])
  {
  }

  /** Sessions of a user. */
  function CountSessions(sessions: seq<AnalysisSession>, userId: int): nat
  {
    if sessions == [] then 0
    else (if sessions[0].userId == userId then 1 else 0) + CountSessions(sessions[1..], userId)
  }

  /** Sessions of a user in a given status. */
  function CountWithStatus(sessions: seq<AnalysisSession>, userId: int, status: ProcessingStatus): nat
  {
    if sessions == [] then 0
    else (if sessions[0].userId == userId && sessions[0].processingStatus == status then 1 else 0)
         + CountWithStatus(sessions[1..], userId, status)
  }

  /** Completed and failed sessions are disjoint subsets of a user's sessions. */
  lemma {:induction false} StatusCountsWithinTotal(sessions: seq<AnalysisSession>, userId: int)
    ensures CountWithStatus(sessions, userId, Completed) + CountWithStatus(sessions, userId, Failed)
            <= CountSessions(sessions, userId)
  {
    if sessions != [] {
      StatusCountsWithinTotal(sessions[1..], userId);
    }
  }

  /** When every session has settled, completed and failed sessions account for all of them. */
  lemma {:induction false} SettledCountsAddUp(sessions: seq<AnalysisSession>, userId: int)
    requires forall i :: 0 <= i < |sessions| ==> Settled(sessions[i])
    ensures CountWithStatus(sessions, userId, Completed) + CountWithStatus(sessions, userId, Failed)
            == CountSessions(sessions, userId)
  {
    if sessions != [] {
      assert Settled(sessions[0]);
      SettledCountsAddUp(sessions[1..], userId);
    }
  }

  /** A part no larger than a positive whole is at most one whole. */
  lemma FractionAtMostOne(part: real, whole: real)
    requires 0.0 <= part <= whole && 0.0 < whole
    ensures part / whole <= 1.0
  {
  }

  /** `completed / total * 100`, or 0 for a user without sessions. */
  function SuccessRate(completed: nat, total: nat): (r: real)
    ensures total == 0 ==> r == 0.0
    ensures 0.0 <= r
    ensures completed <= total ==> r <= 100.0
    ensures 0 < total && completed == total ==> r == 100.0
    ensures 0 < total ==> r * total as real == completed as real * 100.0
  {
    if total > 0 then
      var q := completed as real / total as real;
      assert q * total as real == completed as real;
      assert completed <= total ==> q <= 1.0 by {
        if completed <= total {
          FractionAtMostOne(completed as real, total as real);
        }
      }
      q * 100.0
    else 0.0
  }

  datatype DashboardStats = DashboardStats(totalSessions: nat, completedSessions: nat, failedSessions: nat,
                                           successRate: real)

  /** The `stats` of `dashboard` for one user. */
  function Dashboard(sessions: seq<AnalysisSession>, userId: int): (st: DashboardStats)
    ensures st.totalSessions == CountSessions(sessions, userId)
    ensures st.completedSessions == CountWithStatus(sessions, userId, Completed)
    ensures st.failedSessions == CountWithStatus(sessions, userId, Failed)
    ensures st.totalSessions > 0 ==> st.successRate * st.totalSessions as real == st.completedSessions as real * 100.0
    ensures st.completedSessions + st.failedSessions <= st.totalSessions
    ensures (forall i :: 0 <= i < |sessions| ==> Settled(sessions[i]))
            ==> st.completedSessions + st.failedSessions == st.totalSessions
    ensures 0.0 <= st.successRate <= 100.0
    ensures st.totalSessions == 0 ==> st.successRate == 0.0
  {
    StatusCountsWithinTotal(sessions, userId);
    assert (forall i :: 0 <= i < |sessions| ==> Settled(sessions[i]))
           ==> CountWithStatus(sessions, userId, Completed) + CountWithStatus(sessions, userId, Failed)
               == CountSessions(sessions, userId) by {
      if forall i :: 0 <= i < |sessions| ==> Settled(sessions[i]) {
        SettledCountsAddUp(sessions, userId);
      }
    }
    var total := CountSessions(sessions, userId);
    var completed := CountWithStatus(sessions, userId, Completed);
    DashboardStats(total, completed, CountWithStatus(sessions, userId, Failed), SuccessRate(completed, total))
  }

  /** A settled session shows a success or a danger badge, never the pending or neutral one. */
  lemma SettledBadge(s: AnalysisSession)
    requires Settled(s)
    ensures Utils.GetStatusBadgeClass(StatusName(s.processingStatus)) in {"bg-success", "bg-danger"}
  {
  }

  /** A failure message tells which phase failed: neither prefix is a prefix of the other's messages. */
  lemma PhasePrefixesDistinct(m: string)
    ensures !(StartsWith(Phase1Prefix, m) && StartsWith(Phase2Prefix, m))
  {
    if StartsWith(Phase1Prefix, m) {
      assert m[0] == m[..|Phase1Prefix|][0] == 'I';
      assert Phase2Prefix[0] == 'C';
    }
  }

  /** The deployment's `UPLOAD_FOLDER` and `GENERATED_FOLDER`. */
  datatype Folders = Folders(upload: string, generated: string)

  /**
   * What one call of `process_image_route` meets from outside: the id
   * `uuid4` drew, the signed-in user, what `secure_filename` made of the
   * name, whether `file.save` succeeded, the outcomes of the converter and
   * the classifier, whether building the report raised, and the clock.
   */
  datatype Run = Run(
    sessionId: string,
    userId: int,
    safeName: string,
    uploadSaved: bool,
    phase1: Outcome<string>,
    phase2: Result<CC.Prediction, string>,
    reportFails: bool,
    createdAt: int,
    completedAt: int)

  /** The two tables `process_image_route` writes. */
  datatype Tables = Tables(sessions: seq<AnalysisSession>, reports: seq<ReportData>)

  /** Every session settled with a unique id, and every report belonging to a completed session. */
  predicate TablesValid(t: Tables)
  {
    && UniqueSessionIds(t.sessions)
    && (forall i :: 0 <= i < |t.sessions| ==> Settled(t.sessions[i]))
    && (forall k :: 0 <= k < |t.reports| ==> HasCompletedSession(t.sessions, t.reports[k].sessionId))
  }

  /** `he_image_path`: the upload folder joined with `<session id>_<safe name>`. */
  function HeImagePath(folders: Folders, run: Run): string
  {
    JoinPath(folders.upload, run.sessionId + "_" + run.safeName)
  }

  /** `ihc_image_path`: the generated folder joined with `<session id>_ihc.png`. */
  function IhcImagePath(folders: Folders, run: Run): string
  {
    JoinPath(folders.generated, run.sessionId + "_ihc.png")
  }

  /** Both stored paths end with the session's own file names. */
  lemma ImagePathsEndWithNames(folders: Folders, run: Run)
    ensures EndsWith(run.sessionId + "_" + run.safeName, HeImagePath(folders, run))
    ensures EndsWith(run.sessionId + "_ihc.png", IhcImagePath(folders, run))
  {
    JoinPathEndsWithName(folders.upload, run.sessionId + "_" + run.safeName);
    JoinPathEndsWithName(folders.generated, run.sessionId + "_ihc.png");
  }

  /** A run whose upload passed the checks, was saved and got a fresh session id: its record is committed. */
  predicate Started(t: Tables, file: Option<Upload>, run: Run)
  {
    UploadRejection(file).None? && run.uploadSaved && !SessionIdTaken(t.sessions, run.sessionId)
  }

  predicate Succeeds(run: Run)
  {
    run.phase1.Pass? && run.phase2.Success?
  }

  /**
   * The record a started run leaves behind: the new session after phase 1
   * and, when phase 1 passed, phase 2 have been applied to it.
   */
  function AnalysedSession(folders: Folders, run: Run): (s: AnalysisSession)
    ensures Settled(s)
    ensures s.sessionId == run.sessionId && s.userId == run.userId && s.createdAt == run.createdAt
    ensures s.originalFilename == run.safeName && s.heImagePath == HeImagePath(folders, run)
    ensures s.processingStatus == Completed <==> Succeeds(run)
    ensures s.ihcImagePath.Some? <==> run.phase1.Pass?
    ensures run.phase1.Pass? ==> s.ihcImagePath == Some(IhcImagePath(folders, run))
    ensures run.phase1.Fail? ==> s.errorMessage == Some(Phase1Prefix + run.phase1.error)
    ensures run.phase1.Pass? && run.phase2.Failure? ==> s.errorMessage == Some(Phase2Prefix + run.phase2.error)
    ensures Succeeds(run) ==>
              var p := run.phase2.value;
              && s.her2Prediction == Some(p.her2Status) && s.confidenceScore == Some(p.confidence)
              && s.cancerGrade == Some(p.cancerGrade) && s.biomarkerPercentage == Some(p.biomarkerPercentage)
              && s.stainingIntensity == Some(p.stainingIntensity) && s.completedAt == Some(run.completedAt)
  {
    var s0 := NewSession(run.sessionId, run.userId, run.safeName, HeImagePath(folders, run), run.createdAt);
    match run.phase1
    case Fail(e) => s0.(processingStatus := Failed, errorMessage := Some(Phase1Prefix + e))
    case Pass =>
      var s1 := s0.(ihcImagePath := Some(IhcImagePath(folders, run)));
      match run.phase2
      case Failure(e) => s1.(processingStatus := Failed, errorMessage := Some(Phase2Prefix + e))
      case Success(p) =>
        s1.(her2Prediction := Some(p.her2Status), confidenceScore := Some(p.confidence),
            cancerGrade := Some(p.cancerGrade), biomarkerPercentage := Some(p.biomarkerPercentage),
            stainingIntensity := Some(p.stainingIntensity), processingStatus := Completed,
            completedAt := Some(run.completedAt))
  }

  /** The `ReportData` row of a successful run; the classifier's counts carry over unchanged. */
  function DiagnosticReport(run: Run): (r: ReportData)
    requires Succeeds(run)
    ensures r.sessionId == run.sessionId && r.reportType == "diagnostic"
    ensures r.recommendations == GenerateRecommendations(Some(run.phase2.value.her2Status))
    ensures r.positiveCellCount == run.phase2.value.positiveCells
    ensures r.totalCellCount == run.phase2.value.totalCells
    ensures r.stainedAreaPercentage == run.phase2.value.stainedArea
  {
    var p := run.phase2.value;
    ReportData(run.sessionId, "diagnostic", GenerateRecommendations(Some(p.her2Status)),
               p.positiveCells, p.totalCells, p.stainedArea)
  }

  datatype Processed = Processed(tables: Tables, resp: UploadResponse)

  /**
   * The effect of one `process_image_route` call on the tables and the
   * redirect it answers with. A rejected upload and an error before the
   * first commit change nothing; a started run adds exactly its settled
   * session, and a report only when both phases passed and the report was
   * built.
   */
  function Process(t: Tables, file: Option<Upload>, folders: Folders, run: Run): (r: Processed)
    ensures UploadRejection(file).Some? ==> r == Processed(t, UploadPage(UploadRejection(file).value))
    ensures UploadRejection(file).None? && !Started(t, file, run) ==> r == Processed(t, UploadPage(UnexpectedError))
    ensures Started(t, file, run) ==> r.tables.sessions == t.sessions + [AnalysedSession(folders, run)]
    ensures Started(t, file, run) && Succeeds(run) ==>
              && r.resp == ResultsPage(run.sessionId, CompletedFlash)
              && r.tables.reports == t.reports + (if run.reportFails then [] else [DiagnosticReport(run)])
    ensures Started(t, file, run) && !Succeeds(run) ==>
              && r.resp == UploadPage(if run.phase1.Fail? then Phase1Flash else Phase2Flash)
              && r.tables.reports == t.reports
  {
    var rejection := UploadRejection(file);
    if rejection.Some? then Processed(t, UploadPage(rejection.value))
    else if !run.uploadSaved || SessionIdTaken(t.sessions, run.sessionId) then Processed(t, UploadPage(UnexpectedError))
    else
      var sessions := t.sessions + [AnalysedSession(folders, run)];
      if run.phase1.Fail? then Processed(Tables(sessions, t.reports), UploadPage(Phase1Flash))
      else if run.phase2.Failure? then Processed(Tables(sessions, t.reports), UploadPage(Phase2Flash))
      else if run.reportFails then Processed(Tables(sessions, t.reports), ResultsPage(run.sessionId, CompletedFlash))
      else Processed(Tables(sessions, t.reports + [DiagnosticReport(run)]), ResultsPage(run.sessionId, CompletedFlash))
  }

  /** Appending a settled session with a fresh id keeps the tables valid. */
  lemma AddSessionKeepsValid(t: Tables, s: AnalysisSession)
    requires TablesValid(t)
    requires Settled(s) && !SessionIdTaken(t.sessions, s.sessionId)
    ensures TablesValid(Tables(t.sessions + [s], t.reports))
  {
    var all := t.sessions + [s];
    forall i, j | 0 <= i < j < |all|
      ensures all[i].sessionId != all[j].sessionId
    {
      assert all[i] == t.sessions[i];
      if j < |t.sessions| {
        assert all[j] == t.sessions[j];
      }
    }
    forall k | 0 <= k < |t.reports|
      ensures HasCompletedSession(all, t.reports[k].sessionId)
    {
      assert HasCompletedSession(t.sessions, t.reports[k].sessionId);
      var i :| 0 <= i < |t.sessions| && t.sessions[i].sessionId == t.reports[k].sessionId
               && t.sessions[i].processingStatus == Completed;
      assert all[i] == t.sessions[i];
    }
  }

  /**
   * `process_image_route` keeps the tables valid: no session is left in
   * `processing`, no two share an id, and no report is written for a
   * session that did not complete.
   */
  lemma ProcessKeepsValid(t: Tables, file: Option<Upload>, folders: Folders, run: Run)
    requires TablesValid(t)
    ensures TablesValid(Process(t, file, folders, run).tables)
  {
    if Started(t, file, run) {
      var s := AnalysedSession(folders, run);
      AddSessionKeepsValid(t, s);
      var sessions := t.sessions + [s];
      if Succeeds(run) && !run.reportFails {
        var want := t.reports + [DiagnosticReport(run)];
        assert sessions[|t.sessions|] == s;
        forall k | 0 <= k < |want|
          ensures HasCompletedSession(sessions, want[k].sessionId)
        {
          if k < |t.reports| {
            assert want[k] == t.reports[k];
          }
        }
      }
    }
  }

  /** A call adds at most one session and one report, and a report only alongside its completed session. */
  lemma ProcessAddsAtMostOne(t: Tables, file: Option<Upload>, folders: Folders, run: Run)
    ensures var r := Process(t, file, folders, run).tables;
            && |t.sessions| <= |r.sessions| <= |t.sessions| + 1
            && r.sessions[..|t.sessions|] == t.sessions
            && |t.reports| <= |r.reports| <= |t.reports| + 1
            && (|r.reports| > |t.reports| ==>
                  && |r.sessions| > |t.sessions|
                  && r.sessions[|t.sessions|].processingStatus == Completed
                  && r.reports[|t.reports|].sessionId == r.sessions[|t.sessions|].sessionId)
  {
    var r := Process(t, file, folders, run).tables;
    if Started(t, file, run) {
      assert r.sessions[..|t.sessions|] == t.sessions;
    }
  }

  /** The database tables. */
  class Store {
    var users: seq<User>
    var sessions: seq<AnalysisSession>
    var reports: seq<ReportData>

    ghost predicate Valid()
      reads this
    {
      UniqueAccounts(users) && TablesValid(Tables(sessions, reports))
    }

    constructor ()
      ensures Valid()
      ensures users == [] && sessions == [] && reports == []
    {
      users, sessions, reports := [], [], [];
    }

    /**
     * `process_image_route`: the upload checks, the first commit, then the
     * two phases; the tables end as `Process` says.
     */
    method ProcessImage(file: Option<Upload>, folders: Folders, run: Run) returns (resp: UploadResponse)
      requires Valid()
      modifies this
      ensures Valid()
      ensures users == old(users)
      ensures Processed(Tables(sessions, reports), resp) == Process(Tables(old(sessions), old(reports)), file, folders, run)
    {
      ProcessKeepsValid(Tables(sessions, reports), file, folders, run);
      var rejection := UploadRejection(file);
      if rejection.Some? {
        resp := UploadPage(rejection.value);
        return;
      }
      if !run.uploadSaved || SessionIdTaken(sessions, run.sessionId) {
        // `file.save` raised, or the commit hit the unique `session_id`: the outer handler answers.
        resp := UploadPage(UnexpectedError);
        return;
      }
      resp := RunPhases(folders, run);
    }

    /**
     * The part of `process_image_route` after the upload is saved: the
     * session row is committed as `processing` and then updated in place by
     * each phase, and the report is added when both phases succeed.
     */
    method RunPhases(folders: Folders, run: Run) returns (resp: UploadResponse)
      modifies this
      ensures users == old(users)
      ensures sessions == old(sessions) + [AnalysedSession(folders, run)]
      ensures reports == old(reports) + (if Succeeds(run) && !run.reportFails then [DiagnosticReport(run)] else [])
      ensures resp == if Succeeds(run) then ResultsPage(run.sessionId, CompletedFlash)
                      else UploadPage(if run.phase1.Fail? then Phase1Flash else Phase2Flash)
    {
      var heImagePath := JoinPath(folders.upload, run.sessionId + "_" + run.safeName);
      var k := |sessions|;
      var session := NewSession(run.sessionId, run.userId, run.safeName, heImagePath, run.createdAt);
      sessions := sessions + [session];

      // Phase 1: H&E to IHC conversion.
      var ihcImagePath := JoinPath(folders.generated, run.sessionId + "_ihc.png");
      if run.phase1.Fail? {
        session := session.(processingStatus := Failed, errorMessage := Some(Phase1Prefix + run.phase1.error));
        sessions := sessions[k := session];
        resp := UploadPage(Phase1Flash);
        return;
      }
      session := session.(ihcImagePath := Some(ihcImagePath));

      // Phase 2: severity prediction.
      if run.phase2.Failure? {
        session := session.(processingStatus := Failed, errorMessage := Some(Phase2Prefix + run.phase2.error));
        sessions := sessions[k := session];
        resp := UploadPage(Phase2Flash);
        return;
      }
      var p := run.phase2.value;
      session := session.(her2Prediction := Some(p.her2Status), confidenceScore := Some(p.confidence),
                          cancerGrade := Some(p.cancerGrade), biomarkerPercentage := Some(p.biomarkerPercentage),
                          stainingIntensity := Some(p.stainingIntensity), processingStatus := Completed,
                          completedAt := Some(run.completedAt));
      sessions := sessions[k := session];

      // Report generation: an exception here is logged and swallowed.
      if !run.reportFails {
        var report := ReportData(run.sessionId, "diagnostic", GenerateRecommendations(session.her2Prediction),
                                 p.positiveCells, p.totalCells, p.stainedArea);
        reports := reports + [report];
      }
      resp := ResultsPage(run.sessionId, CompletedFlash);
    }

    /**
     * `register`. `isPost` tells a form submission from a page request;
     * `passwordHash` is what `set_password` stores.
     */
    method Register(authenticated: bool, isPost: bool, form: RegistrationForm, passwordHash: string)
      returns (resp: RegisterResponse)
      requires Valid()
      modifies this
      ensures Valid()
      ensures sessions == old(sessions) && reports == old(reports)
      ensures authenticated ==> resp == DashboardRedirect && users == old(users)
      ensures !authenticated && !isPost ==> resp == RegisterPage(None) && users == old(users)
      ensures !authenticated && isPost && RegistrationError(form, old(users)).Some? ==>
                resp == RegisterPage(RegistrationError(form, old(users))) && users == old(users)
      ensures !authenticated && isPost && RegistrationError(form, old(users)).None? ==>
                resp == LoginRedirect(RegistrationSuccess)
                && users == old(users) + [NewUser(form, passwordHash)]
                && users[|users| - 1].role == "user"
    {
      if authenticated {
        resp := DashboardRedirect;
        return;
      }
      if !isPost {
        resp := RegisterPage(None);
        return;
      }
      if !AllFilled(form) {
        resp := RegisterPage(Some(MissingFields));
        return;
      }
      var password := form.password.value;
      if form.password != form.confirmPassword {
        resp := RegisterPage(Some(PasswordMismatch));
        return;
      }
      if |password| < 6 {
        resp := RegisterPage(Some(PasswordTooShort));
        return;
      }
      if UsernameTaken(users, form.username.value) {
        resp := RegisterPage(Some(UsernameExists));
        return;
      }
      if EmailTaken(users, form.email.value) {
        resp := RegisterPage(Some(EmailExists));
        return;
      }
      var user := NewUser(form, passwordHash);
      AddUserKeepsUnique(users, user);
      users := users + [user];
      resp := LoginRedirect(RegistrationSuccess);
    }
  }
}
