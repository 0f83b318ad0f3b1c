/** The Incident record (backend/src/models/Incident.js) and the stored patch and analysis
    it refers to (backend/src/models/AIPatch.js, backend/src/models/AIAnalysis.js). The
    four status axes are enumerations whose stored texts the schema checks; the record is
    a class because the state machines update its fields in place. */
module IncidentModel {
  import opened Wrappers
  import opened Json

  datatype Status = Open | InProgress | Resolved

  datatype AnalysisStatus = AnalysisPending | AnalysisRunning | AnalysisDone | AnalysisFailed

  datatype PatchStatus = PatchPending | PatchRunning | PatchReady | PatchFailed

  datatype MrStatus = NotRequested | MrOpen | Fixing | MrResolved | MrFailed

  datatype Category = Config | Dependency | Test | Infra | Timeout | Other

  function StatusText(s: Status): string {
    match s
    case Open => "open"
    case InProgress => "in_progress"
    case Resolved => "resolved"
  }

  /** The schema accepts exactly the texts of the enumeration. */
  function ParseStatus(t: string): (r: Option<Status>)
    ensures r.Some? ==> StatusText(r.value) == t
    ensures r.None? ==> forall s :: StatusText(s) != t
  {
    if t == "open" then Some(Open)
    else if t == "in_progress" then Some(InProgress)
    else if t == "resolved" then Some(Resolved)
    else None
  }

  function AnalysisStatusText(s: AnalysisStatus): string {
    match s
    case AnalysisPending => "pending"
    case AnalysisRunning => "running"
    case AnalysisDone => "done"
    case AnalysisFailed => "failed"
  }

  function ParseAnalysisStatus(t: string): (r: Option<AnalysisStatus>)
    ensures r.Some? ==> AnalysisStatusText(r.value) == t
    ensures r.None? ==> forall s :: AnalysisStatusText(s) != t
  {
    if t == "pending" then Some(AnalysisPending)
    else if t == "running" then Some(AnalysisRunning)
    else if t == "done" then Some(AnalysisDone)
    else if t == "failed" then Some(AnalysisFailed)
    else None
  }

  function PatchStatusText(s: PatchStatus): string {
    match s
    case PatchPending => "pending"
    case PatchRunning => "running"
    case PatchReady => "ready"
    case PatchFailed => "failed"
  }

  function ParsePatchStatus(t: string): (r: Option<PatchStatus>)
    ensures r.Some? ==> PatchStatusText(r.value) == t
    ensures r.None? ==> forall s :: PatchStatusText(s) != t
  {
    if t == "pending" then Some(PatchPending)
    else if t == "running" then Some(PatchRunning)
    else if t == "ready" then Some(PatchReady)
    else if t == "failed" then Some(PatchFailed)
    else None
  }

  function MrStatusText(s: MrStatus): string {
    match s
    case NotRequested => "not_requested"
    case MrOpen => "open"
    case Fixing => "fixing"
    case MrResolved => "resolved"
    case MrFailed => "failed"
  }

  function ParseMrStatus(t: string): (r: Option<MrStatus>)
    ensures r.Some? ==> MrStatusText(r.value) == t
    ensures r.None? ==> forall s :: MrStatusText(s) != t
  {
    if t == "not_requested" then Some(NotRequested)
    else if t == "open" then Some(MrOpen)
    else if t == "fixing" then Some(Fixing)
    else if t == "resolved" then Some(MrResolved)
    else if t == "failed" then Some(MrFailed)
    else None
  }

  function CategoryText(c: Category): string {
    match c
    case Config => "config"
    case Dependency => "dependency"
    case Test => "test"
    case Infra => "infra"
    case Timeout => "timeout"
    case Other => "other"
  }

  /** The category also admits `null`, which is the `None` of the record's field. */
  function ParseCategory(t: string): (r: Option<Category>)
    ensures r.Some? ==> CategoryText(r.value) == t
    ensures r.None? ==> forall c :: CategoryText(c) != t
  {
    if t == "config" then Some(Config)
    else if t == "dependency" then Some(Dependency)
    else if t == "test" then Some(Test)
    else if t == "infra" then Some(Infra)
    else if t == "timeout" then Some(Timeout)
    else if t == "other" then Some(Other)
    else None
  }

  /** Every value of an enumeration is stored as a text the schema reads back as it. */
  lemma EnumTextsRoundTrip(s: Status, a: AnalysisStatus, p: PatchStatus, m: MrStatus, c: Category)
    ensures ParseStatus(StatusText(s)) == Some(s)
    ensures ParseAnalysisStatus(AnalysisStatusText(a)) == Some(a)
    ensures ParsePatchStatus(PatchStatusText(p)) == Some(p)
    ensures ParseMrStatus(MrStatusText(m)) == Some(m)
    ensures ParseCategory(CategoryText(c)) == Some(c)
  {
  }

  /** A stored analysis, as `runAutomationForIncident` creates it: each field is whatever
      value the analysis object held (or its fallback). */
  datatype Analysis = Analysis(summary: Json, rootCause: Json, category: Json, confidence: Json)

  /** The fields of a patch document at one moment. */
  datatype PatchState = PatchState(diff: string, description: string, risk: string, usedModel: Option<string>,
                                   safeMode: Option<bool>, previousAttempt: Option<bool>,
                                   status: Option<string>, validationError: Option<string>)

  /** What storage keeps of a patch document: everything but `status` and
      `validationError`. */
  function Reloaded(s: PatchState): PatchState {
    s.(status := None, validationError := None)
  }

  /** A stored patch. `status` and `validationError` are not schema fields: the services
      set them on the document in memory only. */
  class PatchDoc {
    var diff: string
    var description: string
    var risk: string
    var usedModel: Option<string>
    var safeMode: Option<bool>
    var previousAttempt: Option<bool>
    var status: Option<string>
    var validationError: Option<string>

    constructor(diff: string, description: string, risk: string, safeMode: Option<bool>)
      ensures this.diff == diff && this.description == description && this.risk == risk
      ensures this.safeMode == safeMode && usedModel.None? && previousAttempt.None?
      ensures status.None? && validationError.None?
    {
      this.diff := diff;
      this.description := description;
      this.risk := risk;
      this.safeMode := safeMode;
      usedModel := None;
      previousAttempt := None;
      status := None;
      validationError := None;
    }

    function State(): PatchState
      reads this
    {
      PatchState(diff, description, risk, usedModel, safeMode, previousAttempt, status, validationError)
    }

    /** Loading the document again from storage: its fields become the stored ones, and
        the fields the schema does not hold are unset. */
    method Load(stored: PatchState)
      modifies this
      ensures State() == Reloaded(stored)
      ensures status.None? && validationError.None?
    {
      diff, description, risk, usedModel := stored.diff, stored.description, stored.risk, stored.usedModel;
      safeMode, previousAttempt := stored.safeMode, stored.previousAttempt;
      status, validationError := None, None;
    }
  }

  /** The updatable fields of an incident at one moment. */
  datatype IncidentState = IncidentState(
    project: string, pipelineId: Option<int>, pipelineUrl: Option<string>, jobId: Option<int>,
    jobName: Option<string>, gitRef: Option<string>, commitSha: Option<string>, status: Status,
    analysisStatus: AnalysisStatus, patchStatus: PatchStatus, mrStatus: MrStatus, category: Option<Category>,
    errorSnippet: Option<string>, logsStored: bool, fullLogs: Option<string>, gitlabCiConfig: Option<string>,
    aiAnalysis: Option<Analysis>, aiPatch: PatchDoc?, mergeRequest: Option<string>, retryCount: int)

  /** An incident. References to other documents are identifiers (`project`,
      `mergeRequest`), the stored analysis as its value, and the stored patch as the
      document itself. */
  class Incident {
    const id: string
    var project: string
    var pipelineId: Option<int>
    var pipelineUrl: Option<string>
    var jobId: Option<int>
    var jobName: Option<string>
    var gitRef: Option<string>
    var commitSha: Option<string>
    var status: Status
    var analysisStatus: AnalysisStatus
    var patchStatus: PatchStatus
    var mrStatus: MrStatus
    var category: Option<Category>
    var errorSnippet: Option<string>
    var logsStored: bool
    var fullLogs: Option<string>
    var gitlabCiConfig: Option<string>
    var aiAnalysis: Option<Analysis>
    var aiPatch: PatchDoc?
    var mergeRequest: Option<string>
    var retryCount: int

    /** A new record with the given fields and the schema's defaults for the rest. */
    constructor(id: string, project: string, pipelineId: Option<int>, pipelineUrl: Option<string>,
                jobId: Option<int>, jobName: Option<string>, gitRef: Option<string>,
                commitSha: Option<string>, errorSnippet: Option<string>)
      ensures this.id == id && this.project == project
      ensures this.pipelineId == pipelineId && this.pipelineUrl == pipelineUrl
      ensures this.jobId == jobId && this.jobName == jobName
      ensures this.gitRef == gitRef && this.commitSha == commitSha && this.errorSnippet == errorSnippet
      ensures status == Open && analysisStatus == AnalysisPending && patchStatus == PatchPending
      ensures mrStatus == NotRequested && category.None?
      ensures !logsStored && retryCount == 0
      ensures fullLogs.None? && gitlabCiConfig.None?
      ensures aiAnalysis.None? && aiPatch == null && mergeRequest.None?
    {
      this.id := id;
      this.project := project;
      this.pipelineId := pipelineId;
      this.pipelineUrl := pipelineUrl;
      this.jobId := jobId;
      this.jobName := jobName;
      this.gitRef := gitRef;
      this.commitSha := commitSha;
      this.errorSnippet := errorSnippet;
      status := Open;
      analysisStatus := AnalysisPending;
      patchStatus := PatchPending;
      mrStatus := NotRequested;
      category := None;
      logsStored := false;
      retryCount := 0;
      fullLogs := None;
      gitlabCiConfig := None;
      aiAnalysis := None;
      aiPatch := null;
      mergeRequest := None;
    }

    function State(): IncidentState
      reads this
    {
      IncidentState(project, pipelineId, pipelineUrl, jobId, jobName, gitRef, commitSha, status,
                    analysisStatus, patchStatus, mrStatus, category, errorSnippet, logsStored, fullLogs,
                    gitlabCiConfig, aiAnalysis, aiPatch, mergeRequest, retryCount)
    }
  }

  /** `incident` as a set: a per-field frame over it names nothing when it is `null`. */
  function AsSet(incident: Incident?): set<Incident> {
    if incident == null then {} else {incident}
  }

  /** The patch document `incident` refers to, as a set. */
  function AttachedDoc(incident: Incident?): set<PatchDoc>
    reads incident
  {
    if incident == null || incident.aiPatch == null then {} else {incident.aiPatch}
  }
}
