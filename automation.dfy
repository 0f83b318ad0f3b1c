/** The automation run for one incident (backend/src/services/automation.service.js):
    analysis, then patch generation, then validation, each step recorded on the incident,
    with a top-level handler that fails whatever is still running and counts a retry.
    Every document write is a step that may throw: `writes` gives their outcomes in
    order (`true` for success; writes beyond its end succeed). The two calls into the AI
    gateway (`Ai`, which is `BackendAi` for the backend's gateway), the repository listing
    and `JSON.stringify` are the parameters of the run. */
module Automation {
  import opened Wrappers
  import opened Json
  import opened RepoContext
  import opened Prompts
  import opened Gateway
  import opened PatchValidator
  import opened IncidentModel

  /** Which way the run ended. */
  datatype Outcome = NotFound | AlreadyProcessing | PatchMissing | ValidationFailed(error: string)
                   | Validated | InternalError

  function WriteOk(writes: seq<bool>, k: nat): bool {
    k >= |writes| || writes[k]
  }

  predicate AllWritesOk(writes: seq<bool>) {
    forall k :: 0 <= k < |writes| ==> writes[k]
  }

  /** `{ pipelineId, gitRef }`; an unset field is dropped when stringified. */
  function RcaMetadata(pipelineId: Option<int>, gitRef: Option<string>): Json {
    JObject((if pipelineId.Some? then map["pipelineId" := JNumber(pipelineId.value as real)] else map[])
            + (if gitRef.Some? then map["gitRef" := JString(gitRef.value)] else map[]))
  }

  /** `{ previousPatch: incident.aiPatch ? incident.aiPatch.diff : null, rca }`. The patch
      reference is an unpopulated identifier, whose `diff` is undefined and dropped; only an
      incident without a patch sends `null`. */
  function PatchMetadata(hasPatch: bool, rca: Json): Json {
    JObject(map["rca" := rca] + (if hasPatch then map[] else map["previousPatch" := JNull]))
  }

  /** The analysis document: `rca.summary || ""`, `rca.rootCause || ""`,
      `rca.category || "other"`, `rca.confidence || 0`. */
  function AnalysisOf(rca: Json): (a: Analysis)
    ensures a.summary == JString("") || (Truthy(a.summary) && Member(rca, "summary") == Some(a.summary))
    ensures a.rootCause == JString("") || (Truthy(a.rootCause) && Member(rca, "rootCause") == Some(a.rootCause))
    ensures a.category == JString("other") || (Truthy(a.category) && Member(rca, "category") == Some(a.category))
    ensures a.confidence == JNumber(0.0) || (Truthy(a.confidence) && Member(rca, "confidence") == Some(a.confidence))
  {
    Analysis(MemberOr(rca, "summary", JString("")), MemberOr(rca, "rootCause", JString("")),
             MemberOr(rca, "category", JString("other")), MemberOr(rca, "confidence", JNumber(0.0)))
  }

  /** The two gateway calls the run makes, as functions of their arguments: the analysis
      for the logs, the configuration and the stringified metadata, and the patch for
      those, the repository files and the target-files text. */
  datatype Ai = Ai(rca: (string, string, string) -> Json,
                   patch: (string, string, seq<FileEntry>, string, string) -> PatchResult)

  /** The backend's gateway: what `Gateway.RunRca` and `Gateway.RunPatchGeneration` return. */
  function BackendAi(b: Backends, parse: string -> Option<Json>): Ai {
    Ai((logs, ciConfig, metadataJson) =>
         AnalysisFromReply(ProviderReply(b, true, StrictRcaPrompt(logs, ciConfig, metadataJson)), parse),
       (logs, ciConfig, files, metadataJson, targetFilesText) =>
         PatchFromReply(ProviderReply(b, false, BuildPatchPrompt(logs, ciConfig, files, metadataJson, targetFilesText))))
  }

  /** The analysis the run obtains. */
  function RunRcaResult(ai: Ai, stringify: Json -> string, logs: string, ciConfig: string,
                        pipelineId: Option<int>, gitRef: Option<string>): Json {
    ai.rca(logs, ciConfig, stringify(RcaMetadata(pipelineId, gitRef)))
  }

  /** The patch the run obtains. The run passes `targetFiles`, a key the generator does not
      read, so its `targetFilesText` is always the default "". */
  function RunPatchResult(ai: Ai, stringify: Json -> string, logs: string, ciConfig: string,
                          files: seq<FileEntry>, hasPatch: bool, rca: Json): PatchResult {
    ai.patch(logs, ciConfig, files, stringify(PatchMetadata(hasPatch, rca)), "")
  }

  /** How a run of an idle incident ends when no write fails: a `null` analysis throws
      when its fields are read; an empty diff is a missing patch; otherwise the validator
      decides. */
  function ExpectedOutcome(rca: Json, diff: string): Outcome {
    if rca.JNull? then InternalError
    else if diff == "" then PatchMissing
    else match Validate(Some(diff))
      case Valid => Validated
      case Invalid(e) => ValidationFailed(e)
  }

  /** The document `AIPatch.create` stores for a generated patch (the `model` key is not a
      schema field and is dropped). */
  function GeneratedDoc(result: PatchResult): PatchState {
    PatchState(result.diff, if result.raw != "" then "AI-generated" else "", "medium", None,
               Some(result.safeMode), None, None, None)
  }

  /** The document the generation handler makes when creating one failed. */
  const GenerationErrorDoc := PatchState("", "Generation error", "high", None, None, None, None, None)

  /** The fields of an incident the run writes, besides its patch reference. */
  datatype RunFields = RunFields(analysisStatus: AnalysisStatus, patchStatus: PatchStatus, status: Status,
                                 aiAnalysis: Option<Analysis>, retryCount: int)

  function FieldsOf(incident: Incident): RunFields
    reads incident
  {
    RunFields(incident.analysisStatus, incident.patchStatus, incident.status, incident.aiAnalysis, incident.retryCount)
  }

  /** What one phase of the run leaves: whether it threw, the fields, the next write. */
  datatype Step = Step(threw: bool, fields: RunFields, next: nat)

  /** The patch phase also leaves a patch document, stored on the incident or not. */
  datatype PatchStep = PatchStep(threw: bool, fields: RunFields, next: nat, doc: PatchState, stored: bool)

  /** The validation phase leaves the outcome it reports and the patch document. */
  datatype CheckStep = CheckStep(threw: bool, fields: RunFields, doc: PatchState, outcome: Outcome)

  /** How the run ends: its outcome, the fields, the patch document if one was made, and
      whether the incident refers to it. */
  datatype RunEnd = RunEnd(outcome: Outcome, fields: RunFields, doc: Option<PatchState>, stored: bool)

  /** Lines 24-43. Write `w0` is the first save, `w0 + 1` the analysis document and
      `w0 + 2` the second save; a `null` analysis throws when its fields are read. */
  function AnalysisStep(f: RunFields, writes: seq<bool>, w0: nat, rca: Json): Step {
    var running := f.(analysisStatus := AnalysisRunning, patchStatus := PatchPending);
    if !WriteOk(writes, w0) || rca.JNull? || !WriteOk(writes, w0 + 1) then Step(true, running, w0)
    else Step(!WriteOk(writes, w0 + 2), running.(aiAnalysis := Some(AnalysisOf(rca)), analysisStatus := AnalysisDone),
              w0 + 3)
  }

  /** Lines 59-86. Write `w0` is `AIPatch.create` and `w0 + 1` the save; after a failure
      the inner handler marks the patch failed and saves once more. */
  function GenerationStep(f: RunFields, writes: seq<bool>, w0: nat, result: PatchResult): PatchStep {
    if !WriteOk(writes, w0) then
      PatchStep(!WriteOk(writes, w0 + 1), f.(patchStatus := PatchFailed), w0 + 2, GenerationErrorDoc, false)
    else if !WriteOk(writes, w0 + 1) then
      PatchStep(!WriteOk(writes, w0 + 2), f.(patchStatus := PatchFailed), w0 + 3, GeneratedDoc(result), true)
    else PatchStep(false, f.(patchStatus := PatchReady), w0 + 2, GeneratedDoc(result), true)
  }

  /** Lines 88-104. The verdict is recorded on the document (write `w0`), then on the
      incident (write `w0 + 1`). */
  function ValidationStep(f: RunFields, doc: PatchState, writes: seq<bool>, w0: nat): CheckStep {
    var missing := doc.diff == "" || f.patchStatus != PatchReady;
    var verdict := Validate(Some(doc.diff));
    var recorded :=
      if missing then doc.(status := Some("failed"), validationError := Some("Patch missing"))
      else if verdict.Invalid? then doc.(status := Some("failed"), validationError := Some(verdict.error))
      else doc.(status := Some("valid"));
    var after :=
      if missing then f.(patchStatus := PatchFailed)
      else if verdict.Invalid? then f.(patchStatus := PatchFailed, analysisStatus := AnalysisDone)
      else f.(status := InProgress);
    var outcome := if missing then PatchMissing else if verdict.Invalid? then ValidationFailed(verdict.error) else Validated;
    CheckStep(!WriteOk(writes, w0) || !WriteOk(writes, w0 + 1), if WriteOk(writes, w0) then after else f, recorded, outcome)
  }

  /** Lines 106-112, the outer handler: each running status fails, the others are kept,
      and one more retry is counted. */
  function Handled(f: RunFields): RunFields {
    f.(analysisStatus := if f.analysisStatus == AnalysisRunning then AnalysisFailed else f.analysisStatus,
       patchStatus := if f.patchStatus == PatchRunning then PatchFailed else f.patchStatus,
       retryCount := f.retryCount + 1)
  }

  /** The run of an idle incident with fields `f`, given the analysis and the patch the
      providers give, and the outcomes of its writes. */
  function RunSpec(f: RunFields, writes: seq<bool>, rca: Json, result: PatchResult): RunEnd {
    var a := AnalysisStep(f, writes, 0, rca);
    if a.threw then RunEnd(InternalError, Handled(a.fields), None, false)
    else PatchPhases(a.fields, writes, a.next, result)
  }

  /** Lines 46-112, the run after the analysis is saved: the patch phase from fields `f`
      and write `w0`, then the validation phase, each ending in the outer handler if it
      throws. */
  function PatchPhases(f: RunFields, writes: seq<bool>, w0: nat, result: PatchResult): RunEnd {
    var g := GenerationStep(f, writes, w0, result);
    if g.threw then RunEnd(InternalError, Handled(g.fields), Some(g.doc), g.stored)
    else
      var c := ValidationStep(g.fields, g.doc, writes, g.next);
      if c.threw then RunEnd(InternalError, Handled(c.fields), Some(c.doc), g.stored)
      else RunEnd(c.outcome, c.fields, Some(c.doc), g.stored)
  }

  /** Once the run is over nothing is left running, and it reports neither of the
      outcomes the lookup and the guard give. */
  lemma RunSettles(f: RunFields, writes: seq<bool>, rca: Json, result: PatchResult)
    ensures var e := RunSpec(f, writes, rca, result);
      (e.fields.analysisStatus == AnalysisDone || e.fields.analysisStatus == AnalysisFailed)
      && e.fields.patchStatus != PatchRunning
      && e.outcome != NotFound && e.outcome != AlreadyProcessing
  {
  }

  /** A retry is counted exactly when the run ends in an internal error, and the
      incident's status changes only to `in_progress`, once the patch is validated (the
      save after that may still fail). */
  lemma RunCountsRetries(f: RunFields, writes: seq<bool>, rca: Json, result: PatchResult)
    ensures var e := RunSpec(f, writes, rca, result);
      e.fields.retryCount == f.retryCount + (if e.outcome == InternalError then 1 else 0)
    ensures var e := RunSpec(f, writes, rca, result);
      e.fields.status != f.status ==> e.fields.status == InProgress && (e.outcome == Validated || e.outcome == InternalError)
  {
  }

  /** What each reported outcome says about the incident and its patch document. */
  lemma RunOutcomes(f: RunFields, writes: seq<bool>, rca: Json, result: PatchResult)
    ensures var e := RunSpec(f, writes, rca, result);
      e.outcome == Validated ==>
        e.fields.status == InProgress && e.fields.patchStatus == PatchReady && e.fields.analysisStatus == AnalysisDone
        && e.stored && e.doc.Some? && e.doc.value.status == Some("valid") && Validate(Some(e.doc.value.diff)) == Valid
    ensures var e := RunSpec(f, writes, rca, result);
      e.outcome.ValidationFailed? ==>
        e.stored && e.doc.Some? && Validate(Some(e.doc.value.diff)) == Invalid(e.outcome.error)
        && e.doc.value.validationError == Some(e.outcome.error) && e.doc.value.status == Some("failed")
        && e.fields.patchStatus == PatchFailed && e.fields.analysisStatus == AnalysisDone
    ensures var e := RunSpec(f, writes, rca, result);
      e.outcome == PatchMissing ==>
        e.fields.patchStatus == PatchFailed && e.fields.analysisStatus == AnalysisDone
        && e.doc.Some? && e.doc.value.validationError == Some("Patch missing") && e.doc.value.status == Some("failed")
  {
  }

  /** With every write succeeding, the analysis and the patch decide the outcome. */
  lemma RunWithoutWriteFailures(f: RunFields, writes: seq<bool>, rca: Json, result: PatchResult)
    requires AllWritesOk(writes)
    ensures RunSpec(f, writes, rca, result).outcome == ExpectedOutcome(rca, result.diff)
  {
  }

  /** The analysis phase, as `AnalysisStep` says; when the first save fails no analysis
      is requested and `rca` is `null`. */
  method RecordAnalysis(incident: Incident, writes: seq<bool>, w0: nat, ai: Ai, stringify: Json -> string)
    returns (threw: bool, w: nat, rca: Json)
    modifies incident`analysisStatus, incident`patchStatus, incident`aiAnalysis
    ensures var expected := RunRcaResult(ai, stringify, old(incident.fullLogs).GetOr(""),
                                         old(incident.gitlabCiConfig).GetOr(""), old(incident.pipelineId), old(incident.gitRef));
      var s := AnalysisStep(old(FieldsOf(incident)), writes, w0, expected);
      threw == s.threw && FieldsOf(incident) == s.fields && (!threw ==> w == s.next && rca == expected)
  {
    rca := JNull;
    w := w0;
    incident.analysisStatus := AnalysisRunning;
    incident.patchStatus := PatchPending;
    if !WriteOk(writes, w) { return true, w, rca; }
    w := w + 1;
    var logs := incident.fullLogs.GetOr("");
    var ciConfig := incident.gitlabCiConfig.GetOr("");
    rca := ai.rca(logs, ciConfig, stringify(RcaMetadata(incident.pipelineId, incident.gitRef)));
    // `rca.summary` on null throws
    if rca.JNull? { return true, w0, rca; }
    var analysis := AnalysisOf(rca);
    if !WriteOk(writes, w) { return true, w0, rca; }
    w := w + 1;
    incident.aiAnalysis := Some(analysis);
    incident.analysisStatus := AnalysisDone;
    threw := !WriteOk(writes, w);
    w := w + 1;
  }

  /** The patch phase, as `GenerationStep` says. */
  method GeneratePatch(incident: Incident, writes: seq<bool>, w0: nat, ai: Ai, stringify: Json -> string,
                       logs: string, ciConfig: string, files: seq<FileEntry>, rca: Json)
    returns (threw: bool, w: nat, patchDoc: PatchDoc)
    modifies incident`aiPatch, incident`patchStatus
    ensures fresh(patchDoc)
    ensures var result := RunPatchResult(ai, stringify, logs, ciConfig, files, old(incident.aiPatch) != null, rca);
      var s := GenerationStep(old(FieldsOf(incident)), writes, w0, result);
      threw == s.threw && FieldsOf(incident) == s.fields && w == s.next && patchDoc.State() == s.doc
      && incident.aiPatch == (if s.stored then patchDoc else old(incident.aiPatch))
  {
    w := w0;
    var result := ai.patch(logs, ciConfig, files, stringify(PatchMetadata(incident.aiPatch != null, rca)), "");
    if !WriteOk(writes, w) {
      patchDoc := new PatchDoc("", "Generation error", "high", None);
      incident.patchStatus := PatchFailed;
      return !WriteOk(writes, w + 1), w + 2, patchDoc;
    }
    w := w + 1;
    patchDoc := new PatchDoc(result.diff, if result.raw != "" then "AI-generated" else "", "medium",
                             Some(result.safeMode));
    incident.aiPatch := patchDoc;
    incident.patchStatus := PatchReady;
    if !WriteOk(writes, w) {
      incident.patchStatus := PatchFailed;
      return !WriteOk(writes, w + 1), w + 2, patchDoc;
    }
    threw := false;
    w := w + 1;
  }

  /** The validation phase, as `ValidationStep` says. */
  method CheckPatch(incident: Incident, patchDoc: PatchDoc, writes: seq<bool>, w0: nat, primary: string)
    returns (threw: bool, outcome: Outcome)
    modifies incident`patchStatus, incident`analysisStatus, incident`status, patchDoc
    ensures var s := ValidationStep(old(FieldsOf(incident)), old(patchDoc.State()), writes, w0);
      threw == s.threw && FieldsOf(incident) == s.fields && patchDoc.State() == s.doc && outcome == s.outcome
  {
    if patchDoc.diff == "" || incident.patchStatus != PatchReady {
      patchDoc.status := Some("failed");
      patchDoc.validationError := Some("Patch missing");
      outcome := PatchMissing;
      if !WriteOk(writes, w0) { return true, outcome; }
      incident.patchStatus := PatchFailed;
      return !WriteOk(writes, w0 + 1), outcome;
    }
    var validation := ValidateUnifiedDiff(Some(patchDoc.diff), primary);
    if validation.Invalid? {
      patchDoc.validationError := Some(validation.error);
      patchDoc.status := Some("failed");
      outcome := ValidationFailed(validation.error);
      if !WriteOk(writes, w0) { return true, outcome; }
      incident.patchStatus := PatchFailed;
      incident.analysisStatus := AnalysisDone;
      return !WriteOk(writes, w0 + 1), outcome;
    }
    patchDoc.status := Some("valid");
    outcome := Validated;
    if !WriteOk(writes, w0) { return true, outcome; }
    incident.status := InProgress;
    threw := !WriteOk(writes, w0 + 1);
  }

  /** The outer handler, as `Handled` says. */
  method RecordFailure(incident: Incident)
    modifies incident`analysisStatus, incident`patchStatus, incident`retryCount
    ensures FieldsOf(incident) == Handled(old(FieldsOf(incident)))
  {
    incident.analysisStatus := if incident.analysisStatus == AnalysisRunning then AnalysisFailed else incident.analysisStatus;
    incident.patchStatus := if incident.patchStatus == PatchRunning then PatchFailed else incident.patchStatus;
    incident.retryCount := incident.retryCount + 1;
  }

  /** Lines 46-112: the patch and validation phases, and the outer handler, as
      `PatchPhases` says for the patch the AI gives for the incident's logs,
      configuration and repository snapshot. */
  method PatchAndCheck(incident: Incident, writes: seq<bool>, w0: nat, ai: Ai, stringify: Json -> string,
                       listing: Listing, fetch: string -> FileFetch, rca: Json)
    returns (outcome: Outcome, patchDoc: PatchDoc)
    modifies incident`analysisStatus, incident`patchStatus, incident`aiPatch, incident`status, incident`retryCount
    ensures fresh(patchDoc)
    ensures var result := RunPatchResult(ai, stringify, old(incident.fullLogs).GetOr(""), old(incident.gitlabCiConfig).GetOr(""),
                                         SnapshotFiles(listing, fetch), old(incident.aiPatch) != null, rca);
      var e := PatchPhases(old(FieldsOf(incident)), writes, w0, result);
      outcome == e.outcome && FieldsOf(incident) == e.fields && e.doc == Some(patchDoc.State())
      && incident.aiPatch == (if e.stored then patchDoc else old(incident.aiPatch))
  {
    var snap := GetRepoSnapshot(listing, fetch);
    var threw, w;
    threw, w, patchDoc := GeneratePatch(incident, writes, w0, ai, stringify, incident.fullLogs.GetOr(""),
                                        incident.gitlabCiConfig.GetOr(""), snap.files, rca);
    if threw {
      RecordFailure(incident);
      return InternalError, patchDoc;
    }
    threw, outcome := CheckPatch(incident, patchDoc, writes, w, snap.primaryFileContent);
    if threw {
      RecordFailure(incident);
      outcome := InternalError;
    }
  }

  /** The run of an idle incident, lines 23-112: its outcome, the fields it leaves and the
      patch document it makes are those `RunSpec` gives for the analysis and the patch the
      AI gives for the incident's logs, configuration and repository snapshot. */
  method RunIdle(incident: Incident, writes: seq<bool>, ai: Ai, stringify: Json -> string,
                 listing: Listing, fetch: string -> FileFetch)
    returns (outcome: Outcome, patchDoc: PatchDoc?)
    modifies incident`analysisStatus, incident`patchStatus, incident`aiAnalysis, incident`aiPatch, incident`status
    modifies incident`retryCount
    ensures patchDoc != null ==> fresh(patchDoc)
    ensures var logs := old(incident.fullLogs).GetOr("");
      var ciConfig := old(incident.gitlabCiConfig).GetOr("");
      var rca := RunRcaResult(ai, stringify, logs, ciConfig, old(incident.pipelineId), old(incident.gitRef));
      var result := RunPatchResult(ai, stringify, logs, ciConfig, SnapshotFiles(listing, fetch), old(incident.aiPatch) != null, rca);
      var e := RunSpec(old(FieldsOf(incident)), writes, rca, result);
      outcome == e.outcome && FieldsOf(incident) == e.fields
      && (if e.doc.Some? then patchDoc != null && patchDoc.State() == e.doc.value else patchDoc == null)
      && incident.aiPatch == (if e.stored then patchDoc else old(incident.aiPatch))
  {
    var threw, w, rca := RecordAnalysis(incident, writes, 0, ai, stringify);
    if threw {
      RecordFailure(incident);
      return InternalError, null;
    }
    var doc;
    outcome, doc := PatchAndCheck(incident, writes, w, ai, stringify, listing, fetch, rca);
    patchDoc := doc;
  }

  /** `runAutomationForIncident(incidentId)`, with `incident` what the lookup found: an
      idle incident goes through the run `RunSpec` describes, with the analysis and the
      patch the providers give for its logs, configuration and repository snapshot. */
  method RunAutomationForIncident(incident: Incident?, writes: seq<bool>, ai: Ai, stringify: Json -> string,
                                  listing: Listing, fetch: string -> FileFetch)
    returns (outcome: Outcome, patchDoc: PatchDoc?)
    modifies incident
    ensures incident == null ==> outcome == NotFound
    ensures (incident != null && (old(incident.analysisStatus) == AnalysisRunning || old(incident.patchStatus) == PatchRunning))
      ==> outcome == AlreadyProcessing && patchDoc == null && unchanged(incident)
    ensures patchDoc != null ==> fresh(patchDoc)
    // what the run never writes
    ensures incident != null ==>
      unchanged(incident`category, incident`mrStatus, incident`fullLogs, incident`gitlabCiConfig, incident`gitRef,
                incident`pipelineId, incident`mergeRequest, incident`logsStored, incident`project, incident`pipelineUrl,
                incident`jobId, incident`jobName, incident`commitSha, incident`errorSnippet)
    ensures (incident != null && old(incident.analysisStatus) != AnalysisRunning && old(incident.patchStatus) != PatchRunning) ==>
      var logs := old(incident.fullLogs).GetOr("");
      var ciConfig := old(incident.gitlabCiConfig).GetOr("");
      var rca := RunRcaResult(ai, stringify, logs, ciConfig, old(incident.pipelineId), old(incident.gitRef));
      var result := RunPatchResult(ai, stringify, logs, ciConfig, SnapshotFiles(listing, fetch), old(incident.aiPatch) != null, rca);
      var e := RunSpec(old(FieldsOf(incident)), writes, rca, result);
      outcome == e.outcome && FieldsOf(incident) == e.fields
      && (if e.doc.Some? then patchDoc != null && patchDoc.State() == e.doc.value else patchDoc == null)
      && incident.aiPatch == (if e.stored then patchDoc else old(incident.aiPatch))
  {
    if incident == null {
      return NotFound, null;
    }
    if incident.analysisStatus == AnalysisRunning || incident.patchStatus == PatchRunning {
      return AlreadyProcessing, null;
    }
    outcome, patchDoc := RunIdle(incident, writes, ai, stringify, listing, fetch);
  }
}
