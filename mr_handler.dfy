/** The self-heal handler for pipelines on fix branches
    (backend/src/services/mrHandler.service.js): a successful pipeline resolves the
    incident, a failed one counts a retry and, below the ceiling, regenerates the patch,
    records it on the stored patch document and validates it. No commit is made: the
    only apply path of the source is commented out.

    The GitLab calls, the stored incidents, the AI gateway and the document writes are
    parameters: `writes` gives the outcomes of the saves in order (`true` for success;
    saves beyond its end succeed) and `writeError` the message a failed save throws. */
module MrHandler {
  import opened Wrappers
  import opened Strings
  import opened Json
  import opened RepoContext
  import opened PatchValidator
  import opened IncidentModel
  import opened Gateway
  import opened Automation

  /** The prefix of the branches the create-MR endpoint opens. */
  const RefPrefix := "incident-fix-"

  /** `ref.replace("incident-fix-", "")`: the first occurrence is removed. */
  function RefIncidentId(ref: string): string {
    RemoveFirst(ref, RefPrefix)
  }

  /** For a ref that starts with the prefix, the id is what follows it. */
  lemma RefIncidentIdOfPrefixed(ref: string)
    requires StartsWith(ref, RefPrefix)
    ensures RefPrefix + RefIncidentId(ref) == ref
  {
    assert ref[..|RefPrefix|] == RefPrefix;
  }

  /** `parseInt(s, 10)`: leading whitespace is skipped, one sign is read, then the
      longest run of decimal digits; without digits the result is `NaN` (`None`). */
  function ParseInt(s: string): (r: Option<int>)
  {
    var t := s[LeadingWhitespace(s)..];
    var negative := |t| > 0 && t[0] == '-';
    var u := if |t| > 0 && (t[0] == '-' || t[0] == '+') then t[1..] else t;
    var k := DigitRun(u);
    if k == 0 then None
    else if negative then Some(-(DecimalValue(u[..k]) as int))
    else Some(DecimalValue(u[..k]))
  }

  /** The digits of a number, followed by anything that does not start with a digit,
      read back as the number. */
  lemma ParseIntOfDecimal(n: nat, rest: string)
    requires rest == [] || !IsDigit(rest[0])
    ensures ParseInt(NatToString(n) + rest) == Some(n)
  {
    var d := NatToString(n);
    var s := d + rest;
    DecimalRoundTrip(n);
    assert s[0] == d[0] && IsDigit(s[0]);
    assert LeadingWhitespace(s) == 0;
    assert s[0..] == s;
    DigitRunOfDigits(d, rest);
    assert s[..|d|] == d;
  }

  /** A text whose first non-blank character is neither a sign nor a digit is `NaN`. */
  lemma ParseIntNaN(s: string)
    requires var t := s[LeadingWhitespace(s)..];
      t == [] || (t[0] != '-' && t[0] != '+' && !IsDigit(t[0]))
    ensures ParseInt(s).None?
  {
  }

  /** `MAX_RETRIES`: `parseInt(process.env.AI_RETRY_MAX || "3", 10)`, with `env` the
      variable (`None` when unset); an empty value falls back to "3". */
  function MaxRetries(env: Option<string>): Option<int> {
    ParseInt(if env.None? || env.value == "" then "3" else env.value)
  }

  lemma MaxRetriesDefault()
    ensures MaxRetries(None) == Some(3) && MaxRetries(Some("")) == Some(3)
  {
    ParseIntOfDecimal(3, "");
    assert NatToString(3) + "" == "3";
  }

  /** What the handler does with an event for an incident. */
  datatype Decision = Resolve | Ignore | GiveUp | Retry

  /** Lines 22-38: `success` resolves, any status but `failed` is ignored, and a failure
      gives up once the incremented count is above the ceiling; no number is above `NaN`. */
  function Classify(status: string, retryCount: int, maxRetries: Option<int>): (d: Decision)
  {
    if status == "success" then Resolve
    else if status != "failed" then Ignore
    else if maxRetries.Some? && retryCount + 1 > maxRetries.value then GiveUp
    else Retry
  }

  /** A failure gives up exactly when the count already reached the ceiling. */
  lemma ClassifyFailure(retryCount: int, maxRetries: Option<int>)
    ensures Classify("failed", retryCount, maxRetries) == GiveUp <==> maxRetries.Some? && retryCount >= maxRetries.value
    ensures Classify("failed", retryCount, maxRetries) != Resolve && Classify("failed", retryCount, maxRetries) != Ignore
  {
  }

  /** The decisions for `n` consecutive failures starting from `start` retries: the
      count grows by one per event. */
  function FailureRun(start: int, n: nat, maxRetries: Option<int>): (r: seq<Decision>)
    ensures |r| == n
    ensures forall i :: 0 <= i < n ==> r[i] == Classify("failed", start + i, maxRetries)
    decreases n
  {
    if n == 0 then [] else FailureRun(start, n - 1, maxRetries) + [Classify("failed", start + n - 1, maxRetries)]
  }

  /** With the default ceiling, from no retries, the first three failures retry and the
      fourth and every later one give up. */
  lemma FourthFailureTerminal(n: nat)
    ensures var r := FailureRun(0, n, MaxRetries(None));
      forall i :: 0 <= i < n ==> (r[i] == GiveUp <==> i >= 3) && (r[i] == Retry <==> i < 3)
  {
    MaxRetriesDefault();
  }

  /** A ceiling that does not parse never stops the retries. */
  lemma NaNCeilingNeverGivesUp(start: int, n: nat, maxRetries: Option<int>)
    requires maxRetries.None?
    ensures forall i :: 0 <= i < n ==> FailureRun(start, n, maxRetries)[i] == Retry
  {
  }

  /** A job of the pipeline, as `fetchPipelineJobs` lists it. */
  datatype Job = Job(id: int, status: Option<string>)

  /** What `fetchPipelineJobs` gives: the jobs, or the error it throws. */
  datatype JobsFetch = JobsListed(jobs: seq<Job>) | JobsFailed(message: string)

  /** What `getPipelineLogs` gives for a job: its trace, or the error it throws. */
  datatype LogFetch = LogFetched(text: string) | LogFailed(message: string)

  /** `jobs.find(j => j.status === "failed")`. */
  function FirstFailedJob(jobs: seq<Job>): (r: Option<nat>)
    ensures r.Some? ==>
      (r.value < |jobs| && jobs[r.value].status == Some("failed")
       && forall k :: 0 <= k < r.value ==> jobs[k].status != Some("failed"))
    ensures r.None? ==> forall k :: 0 <= k < |jobs| ==> jobs[k].status != Some("failed")
  {
    if |jobs| == 0 then None
    else if jobs[0].status == Some("failed") then Some(0)
    else match FirstFailedJob(jobs[1..])
      case None => None
      case Some(k) => Some(k + 1)
  }

  /** A step that either gives a value or throws an error with a message. */
  datatype Attempt<T> = Done(value: T) | Threw(message: string)

  /** Lines 45-47: the trace of the first failed job, otherwise the stored logs. */
  function RetryLogs(jobs: JobsFetch, logOf: int -> LogFetch, stored: Option<string>): Attempt<string> {
    match jobs
    case JobsFailed(m) => Threw(m)
    case JobsListed(js) =>
      match FirstFailedJob(js)
      case None => Done(stored.GetOr(""))
      case Some(k) =>
        match logOf(js[k].id)
        case LogFetched(text) => Done(text)
        case LogFailed(m) => Threw(m)
  }

  /** How many repository files a retry sends. */
  const RetryFileLimit := 8

  /** `{ previousPatch: (await AIPatch.findById(incident.aiPatch))?.diff }`: without a
      stored patch the value is undefined and the key is dropped. */
  function RetryMetadata(doc: Option<PatchState>): Json {
    JObject(if doc.Some? then map["previousPatch" := JString(doc.value.diff)] else map[])
  }

  /** How the handler ends. */
  datatype MrOutcome =
    | NotIncidentRef      // the ref is absent or not a fix branch
    | IncidentNotFound
    | MarkedResolved
    | Ignored
    | RetriesExhausted
    | SaveThrew           // a save before the retry failed, and the handler rejects
    | EmptyRetryPatch
    | RetryInvalid(error: string)
    | RetryReady
    | RetryError(message: string)
  /** What a retry leaves: its outcome, the incident's merge-request status, and the
      stored patch document, if there is one. */
  datatype RetryEnd = RetryEnd(outcome: MrOutcome, mrStatus: MrStatus, doc: Option<PatchState>)

  /** The message of the `TypeError` setting the diff of a missing document throws. */
  const NullDocError := "Cannot set properties of null (setting 'diff')"

  /** Lines 105-111: the patch document is loaded again, so it holds what was last saved,
      `saved`; the error message becomes its description if that save, write `wc`,
      succeeds (its failure is ignored). Without a document nothing is recorded. */
  function Caught(message: string, mrStatus: MrStatus, saved: Option<PatchState>, writes: seq<bool>, wc: nat): RetryEnd {
    RetryEnd(RetryError(message), mrStatus,
             if saved.None? then None
             else if WriteOk(writes, wc) then Some(Reloaded(saved.value).(description := message))
             else Some(Reloaded(saved.value)))
  }

  /** The stored patch document of an incident. */
  function StoredPatch(incident: Incident): Option<PatchState>
    reads incident, incident.aiPatch
  {
    if incident.aiPatch == null then None else Some(incident.aiPatch.State())
  }

  /** Lines 67-104: the document is loaded from storage, and the new diff replaces the
      stored one (write `w0`); one shorter than ten
      characters, or one the validator rejects, marks the document as a previous attempt
      (write `w0 + 1`), and only a valid one reopens the merge request (write `w0 + 1`,
      of the incident). A missing document throws when its diff is set. When a write
      fails, the handler's `catch` starts from what was last saved: `doc` before write
      `w0`, the rewritten document after it. */
  function RecordSpec(mrStatus: MrStatus, doc: Option<PatchState>, newDiff: string, writes: seq<bool>, w0: nat,
                      writeError: string): RetryEnd
  {
    if doc.None? then RetryEnd(RetryError(NullDocError), mrStatus, None)
    else
      var loaded := Reloaded(doc.value);
      var rewritten := loaded.(diff := newDiff);
      if !WriteOk(writes, w0) then Caught(writeError, mrStatus, Some(loaded), writes, w0 + 1)
      else VerdictSpec(mrStatus, rewritten, writes, w0 + 1, writeError)
  }

  /** Lines 72-111, once the rewritten document is saved: its diff is judged, and the
      verdict is recorded with write `w1`. */
  function VerdictSpec(mrStatus: MrStatus, rewritten: PatchState, writes: seq<bool>, w1: nat, writeError: string): RetryEnd {
    var newDiff := rewritten.diff;
    if newDiff == "" || |newDiff| < 10 then
      var marked := rewritten.(previousAttempt := Some(true));
      if WriteOk(writes, w1) then RetryEnd(EmptyRetryPatch, mrStatus, Some(marked))
      else Caught(writeError, mrStatus, Some(rewritten), writes, w1 + 1)
    else match Validate(Some(newDiff))
      case Invalid(e) =>
        var marked := rewritten.(previousAttempt := Some(true), description := e);
        if WriteOk(writes, w1) then RetryEnd(RetryInvalid(e), mrStatus, Some(marked))
        else Caught(writeError, mrStatus, Some(rewritten), writes, w1 + 1)
      case Valid =>
        if WriteOk(writes, w1) then RetryEnd(RetryReady, MrOpen, Some(rewritten))
        else Caught(writeError, MrOpen, Some(rewritten), writes, w1 + 1)
  }

  /** Line 65: the patch the retry asks for, with the first files of the snapshot and all
      their paths. */
  function RetryResult(ai: Ai, stringify: Json -> string, logs: string, ciConfig: Option<string>,
                       doc: Option<PatchState>, files: seq<FileEntry>): PatchResult {
    ai.patch(logs, ciConfig.GetOr(""), Prefix(files, RetryFileLimit), stringify(RetryMetadata(doc)),
             Join(Paths(files), "\n"))
  }

  /** Lines 44-111, the retry of an incident whose merge request is `fixing`, with
      `stored` its logs, `ciConfig` its configuration, `doc` its patch document and
      `files` the repository snapshot. Write `w0` saves the fetched logs. */
  function RetrySpec(ai: Ai, stringify: Json -> string, stored: Option<string>, ciConfig: Option<string>,
                     doc: Option<PatchState>, files: seq<FileEntry>, writes: seq<bool>, w0: nat, writeError: string,
                     jobs: JobsFetch, logOf: int -> LogFetch): RetryEnd
  {
    match RetryLogs(jobs, logOf, stored)
    case Threw(m) => Caught(m, Fixing, doc, writes, w0)
    case Done(logs) =>
      if !WriteOk(writes, w0) then Caught(writeError, Fixing, doc, writes, w0 + 1)
      else RecordSpec(Fixing, doc, RetryResult(ai, stringify, logs, ciConfig, doc, files).diff, writes, w0 + 1, writeError)
  }

  /** The logs an incident holds after a retry: the fetched ones, once fetching succeeded. */
  function RetryFullLogs(jobs: JobsFetch, logOf: int -> LogFetch, stored: Option<string>): Option<string> {
    match RetryLogs(jobs, logOf, stored)
    case Threw(_) => stored
    case Done(logs) => Some(logs)
  }

  /** The merge request is back to `open` only for a diff of at least ten characters
      that the validator accepts, now stored on the patch document; otherwise it stays
      `fixing`. The retry reports success exactly when it reopened the request and saved. */
  lemma RetryOpensOnlyWhenValid(ai: Ai, stringify: Json -> string, stored: Option<string>, ciConfig: Option<string>,
                                doc: Option<PatchState>, files: seq<FileEntry>, writes: seq<bool>, w0: nat,
                                writeError: string, jobs: JobsFetch, logOf: int -> LogFetch)
    ensures var e := RetrySpec(ai, stringify, stored, ciConfig, doc, files, writes, w0, writeError, jobs, logOf);
      && (e.mrStatus == MrOpen || e.mrStatus == Fixing)
      && (e.mrStatus == MrOpen ==>
            e.doc.Some? && |e.doc.value.diff| >= 10 && Validate(Some(e.doc.value.diff)) == Valid)
      && (e.outcome == RetryReady <==> e.mrStatus == MrOpen && WriteOk(writes, w0 + 2))
  {
  }

  /** Once its save succeeds, the recorded diff is the new one, whatever the validator
      makes of it; a rejected or too short diff marks the document as a previous attempt,
      and a rejected one carries the validator's error. When a save fails, what was not
      saved is lost: a failed diff save keeps the old diff, and a failed save of the mark
      leaves the document's `previousAttempt` as it was. */
  lemma RecordOverwritesDiff(mrStatus: MrStatus, doc: Option<PatchState>, newDiff: string, writes: seq<bool>, w0: nat,
                             writeError: string)
    requires doc.Some?
    ensures var e := RecordSpec(mrStatus, doc, newDiff, writes, w0, writeError);
      && e.doc.Some?
      && e.doc.value.diff == (if WriteOk(writes, w0) then newDiff else doc.value.diff)
      && e.doc.value.safeMode == doc.value.safeMode && e.doc.value.risk == doc.value.risk
      && (e.outcome.RetryError? ==> e.doc.value.previousAttempt == doc.value.previousAttempt)
      && (e.outcome == EmptyRetryPatch || e.outcome.RetryInvalid? ==> e.doc.value.previousAttempt == Some(true))
      && (e.outcome.RetryInvalid? ==> e.doc.value.description == e.outcome.error
                                       && Validate(Some(newDiff)) == Invalid(e.outcome.error))
  {
    if WriteOk(writes, w0) {
      VerdictRecords(mrStatus, Reloaded(doc.value).(diff := newDiff), writes, w0 + 1, writeError);
    }
  }

  /** What judging a saved document keeps of it and marks on it. */
  lemma VerdictRecords(mrStatus: MrStatus, rewritten: PatchState, writes: seq<bool>, w1: nat, writeError: string)
    ensures var e := VerdictSpec(mrStatus, rewritten, writes, w1, writeError);
      && e.doc.Some?
      && e.doc.value.diff == rewritten.diff
      && e.doc.value.safeMode == rewritten.safeMode && e.doc.value.risk == rewritten.risk
      && (e.outcome.RetryError? ==> e.doc.value.previousAttempt == rewritten.previousAttempt)
      && (e.outcome == EmptyRetryPatch || e.outcome.RetryInvalid? ==> e.doc.value.previousAttempt == Some(true))
      && (e.outcome.RetryInvalid? ==> e.doc.value.description == e.outcome.error
                                       && Validate(Some(rewritten.diff)) == Invalid(e.outcome.error))
  {
    var newDiff := rewritten.diff;
    if !(newDiff == "" || |newDiff| < 10) {
      match Validate(Some(newDiff))
      case Invalid(err) =>
        assert WriteOk(writes, w1) ==> VerdictSpec(mrStatus, rewritten, writes, w1, writeError).outcome == RetryInvalid(err);
      case Valid =>
    }
  }

  /** Once the logs are saved, what the retry records is what `RecordSpec` says for the
      regenerated diff. */
  lemma RetryRecordsRegenerated(ai: Ai, stringify: Json -> string, stored: Option<string>, ciConfig: Option<string>,
                                doc: Option<PatchState>, files: seq<FileEntry>, writes: seq<bool>, w0: nat,
                                writeError: string, jobs: JobsFetch, logOf: int -> LogFetch)
    requires RetryLogs(jobs, logOf, stored).Done? && WriteOk(writes, w0)
    ensures var result := RetryResult(ai, stringify, RetryLogs(jobs, logOf, stored).value, ciConfig, doc, files);
      && RetrySpec(ai, stringify, stored, ciConfig, doc, files, writes, w0, writeError, jobs, logOf)
         == RecordSpec(Fixing, doc, result.diff, writes, w0 + 1, writeError)
      && RetryFullLogs(jobs, logOf, stored) == Some(RetryLogs(jobs, logOf, stored).value)
  {
  }

  /** When the jobs or the trace cannot be fetched, the merge request stays `fixing` and
      the error is recorded on the patch document. */
  lemma RetryFetchError(ai: Ai, stringify: Json -> string, stored: Option<string>, ciConfig: Option<string>,
                        doc: Option<PatchState>, files: seq<FileEntry>, writes: seq<bool>, w0: nat,
                        writeError: string, jobs: JobsFetch, logOf: int -> LogFetch)
    requires RetryLogs(jobs, logOf, stored).Threw?
    ensures var m := RetryLogs(jobs, logOf, stored).message;
      var e := RetrySpec(ai, stringify, stored, ciConfig, doc, files, writes, w0, writeError, jobs, logOf);
      && RetryFullLogs(jobs, logOf, stored) == stored
      && e.outcome == RetryError(m) && e.mrStatus == Fixing
      && (e.doc.Some? <==> doc.Some?)
      && (doc.Some? ==> e.doc.value == if WriteOk(writes, w0) then Reloaded(doc.value).(description := m) else Reloaded(doc.value))
  {
  }

  /** `repoFiles.slice(0, 8).forEach(f => filesToSend.push(...))`. */
  method FirstFiles(files: seq<FileEntry>) returns (sent: seq<FileEntry>)
    ensures sent == Prefix(files, RetryFileLimit)
  {
    sent := [];
    var n := if |files| < RetryFileLimit then |files| else RetryFileLimit;
    for i := 0 to n
      invariant sent == files[..i]
    {
      sent := sent + [files[i]];
    }
  }

  /** The handler's `catch`: the patch document, if there is one, is loaded again from
      what was last saved, `saved`, and the message goes on it when write `wc` succeeds. */
  method CatchRetryError(incident: Incident, message: string, saved: Option<PatchState>, writes: seq<bool>, wc: nat)
    returns (outcome: MrOutcome)
    requires saved.Some? <==> incident.aiPatch != null
    modifies incident.aiPatch
    ensures outcome == RetryError(message)
    ensures StoredPatch(incident) == Caught(message, incident.mrStatus, saved, writes, wc).doc
  {
    var aiPatchDoc := incident.aiPatch;
    if aiPatchDoc != null {
      aiPatchDoc.Load(saved.value);
      if WriteOk(writes, wc) {
        aiPatchDoc.description := message;
      }
    }
    outcome := RetryError(message);
  }

  /** Lines 72-111, as `VerdictSpec` says for the document the incident refers to. */
  method RecordVerdict(incident: Incident, aiPatchDoc: PatchDoc, writes: seq<bool>, w1: nat, writeError: string)
    returns (outcome: MrOutcome)
    requires incident.aiPatch == aiPatchDoc
    modifies incident`mrStatus, aiPatchDoc
    ensures var e := VerdictSpec(old(incident.mrStatus), old(aiPatchDoc.State()), writes, w1, writeError);
      outcome == e.outcome && incident.mrStatus == e.mrStatus && StoredPatch(incident) == e.doc
  {
    var rewritten := aiPatchDoc.State();
    var newDiff := aiPatchDoc.diff;
    if newDiff == "" || |newDiff| < 10 {
      aiPatchDoc.previousAttempt := Some(true);
      if !WriteOk(writes, w1) {
        outcome := CatchRetryError(incident, writeError, Some(rewritten), writes, w1 + 1);
        return;
      }
      return EmptyRetryPatch;
    }
    // the validator does not read its second argument
    var valid := ValidateUnifiedDiff(Some(newDiff), "");
    if valid.Invalid? {
      aiPatchDoc.previousAttempt := Some(true);
      aiPatchDoc.description := valid.error;
      if !WriteOk(writes, w1) {
        outcome := CatchRetryError(incident, writeError, Some(rewritten), writes, w1 + 1);
        return;
      }
      return RetryInvalid(valid.error);
    }
    incident.mrStatus := MrOpen;
    if !WriteOk(writes, w1) {
      outcome := CatchRetryError(incident, writeError, Some(rewritten), writes, w1 + 1);
      return;
    }
    outcome := RetryReady;
  }

  /** Lines 67-111, as `RecordSpec` says. */
  method RecordRetryPatch(incident: Incident, newDiff: string, writes: seq<bool>, w0: nat, writeError: string)
    returns (outcome: MrOutcome)
    modifies incident`mrStatus, incident.aiPatch
    ensures var e := RecordSpec(old(incident.mrStatus), old(StoredPatch(incident)), newDiff, writes, w0, writeError);
      outcome == e.outcome && incident.mrStatus == e.mrStatus && StoredPatch(incident) == e.doc
  {
    var aiPatchDoc := incident.aiPatch;
    if aiPatchDoc == null {
      // `aiPatchDoc.diff = newDiff` throws, and the handler finds no document to annotate
      return RetryError(NullDocError);
    }
    // line 68 loads the document from storage
    aiPatchDoc.Load(aiPatchDoc.State());
    var before := aiPatchDoc.State();
    aiPatchDoc.diff := newDiff;
    if !WriteOk(writes, w0) {
      outcome := CatchRetryError(incident, writeError, Some(before), writes, w0 + 1);
      return;
    }
    outcome := RecordVerdict(incident, aiPatchDoc, writes, w0 + 1, writeError);
  }

  /** The retry, lines 44-111, as `RetrySpec` and `RetryFullLogs` say. */
  method RetryPatch(incident: Incident, writes: seq<bool>, w0: nat, writeError: string, jobs: JobsFetch,
                    logOf: int -> LogFetch, listing: Listing, fetch: string -> FileFetch, ai: Ai,
                    stringify: Json -> string)
    returns (outcome: MrOutcome)
    requires incident.mrStatus == Fixing
    modifies incident`fullLogs, incident`mrStatus, incident.aiPatch
    ensures var e := RetrySpec(ai, stringify, old(incident.fullLogs), incident.gitlabCiConfig, old(StoredPatch(incident)),
                               SnapshotFiles(listing, fetch), writes, w0, writeError, jobs, logOf);
      outcome == e.outcome && incident.mrStatus == e.mrStatus && StoredPatch(incident) == e.doc
      && incident.fullLogs == RetryFullLogs(jobs, logOf, old(incident.fullLogs))
  {
    var logs: string;
    var stored := StoredPatch(incident);
    match jobs {
      case JobsFailed(m) =>
        outcome := CatchRetryError(incident, m, stored, writes, w0);
        return;
      case JobsListed(js) =>
        var failing := FirstFailedJob(js);
        if failing.Some? {
          match logOf(js[failing.value].id) {
            case LogFailed(m) =>
              outcome := CatchRetryError(incident, m, stored, writes, w0);
              return;
            case LogFetched(text) =>
              logs := text;
          }
        } else {
          logs := incident.fullLogs.GetOr("");
        }
    }
    incident.fullLogs := Some(logs);
    if !WriteOk(writes, w0) {
      outcome := CatchRetryError(incident, writeError, stored, writes, w0 + 1);
      return;
    }
    var snap := GetRepoSnapshot(listing, fetch);
    // the failing file of the analysis is never read: the incident holds the analysis's
    // identifier, which has no `failingFile`
    var filesToSend := FirstFiles(snap.files);
    var patchRes := ai.patch(logs, incident.gitlabCiConfig.GetOr(""), filesToSend,
                             stringify(RetryMetadata(StoredPatch(incident))), Join(snap.targetFiles, "\n"));
    outcome := RecordRetryPatch(incident, patchRes.diff, writes, w0 + 1, writeError);
  }

  /** Lines 32-111, a failed pipeline: the count goes up, and the handler gives up above
      the ceiling or retries. */
  method HandleFailure(incident: Incident, env: Option<string>, writes: seq<bool>, writeError: string,
                       jobs: JobsFetch, logOf: int -> LogFetch, listing: Listing, fetch: string -> FileFetch, ai: Ai,
                       stringify: Json -> string)
    returns (outcome: MrOutcome)
    modifies incident`mrStatus, incident`retryCount, incident`fullLogs, incident.aiPatch
    ensures var d := Classify("failed", old(incident.retryCount), MaxRetries(env));
      && incident.retryCount == old(incident.retryCount) + 1
      && (d == GiveUp ==>
            incident.mrStatus == MrFailed && outcome == (if WriteOk(writes, 0) then RetriesExhausted else SaveThrew))
      && ((d != Retry || !WriteOk(writes, 0)) ==>
            incident.fullLogs == old(incident.fullLogs) && StoredPatch(incident) == old(StoredPatch(incident)))
      && (d == Retry && !WriteOk(writes, 0) ==> outcome == SaveThrew && incident.mrStatus == Fixing)
      && (d == Retry && WriteOk(writes, 0) ==>
            var e := RetrySpec(ai, stringify, old(incident.fullLogs), old(incident.gitlabCiConfig),
                               old(StoredPatch(incident)), SnapshotFiles(listing, fetch), writes, 1, writeError,
                               jobs, logOf);
            outcome == e.outcome && incident.mrStatus == e.mrStatus && StoredPatch(incident) == e.doc
            && incident.fullLogs == RetryFullLogs(jobs, logOf, old(incident.fullLogs)))
  {
    ghost var logs0, ci0, doc0 := incident.fullLogs, incident.gitlabCiConfig, StoredPatch(incident);
    var maxRetries := MaxRetries(env);
    incident.retryCount := incident.retryCount + 1;
    if maxRetries.Some? && incident.retryCount > maxRetries.value {
      incident.mrStatus := MrFailed;
      return if WriteOk(writes, 0) then RetriesExhausted else SaveThrew;
    }
    incident.mrStatus := Fixing;
    if !WriteOk(writes, 0) {
      return SaveThrew;
    }
    assert StoredPatch(incident) == doc0;
    outcome := RetryPatch(incident, writes, 1, writeError, jobs, logOf, listing, fetch, ai, stringify);
    assert incident.gitlabCiConfig == ci0;
  }

  /** Lines 22-111 for the incident the event is about. */
  method HandleEvent(incident: Incident, status: string, env: Option<string>, writes: seq<bool>, writeError: string,
                     jobs: JobsFetch, logOf: int -> LogFetch, listing: Listing, fetch: string -> FileFetch, ai: Ai,
                     stringify: Json -> string)
    returns (outcome: MrOutcome)
    modifies incident`status, incident`mrStatus, incident`retryCount, incident`fullLogs, incident.aiPatch
    ensures var d := Classify(status, old(incident.retryCount), MaxRetries(env));
      && (d != Resolve ==> incident.status == old(incident.status))
      && (d == Resolve ==>
            incident.mrStatus == MrResolved && incident.status == Resolved
            && incident.retryCount == old(incident.retryCount)
            && outcome == (if WriteOk(writes, 0) then MarkedResolved else SaveThrew))
      && (d == Ignore ==> unchanged(incident) && StoredPatch(incident) == old(StoredPatch(incident)) && outcome == Ignored)
      && (d == GiveUp ==>
            incident.mrStatus == MrFailed && incident.retryCount == old(incident.retryCount) + 1
            && outcome == (if WriteOk(writes, 0) then RetriesExhausted else SaveThrew))
      && ((d != Retry || !WriteOk(writes, 0)) ==>
            incident.fullLogs == old(incident.fullLogs) && StoredPatch(incident) == old(StoredPatch(incident)))
      && (d == Retry ==>
            incident.retryCount == old(incident.retryCount) + 1
            && (!WriteOk(writes, 0) ==> outcome == SaveThrew && incident.mrStatus == Fixing)
            && (WriteOk(writes, 0) ==>
                  var e := RetrySpec(ai, stringify, old(incident.fullLogs), old(incident.gitlabCiConfig),
                                     old(StoredPatch(incident)), SnapshotFiles(listing, fetch), writes, 1, writeError,
                                     jobs, logOf);
                  outcome == e.outcome && incident.mrStatus == e.mrStatus && StoredPatch(incident) == e.doc
                  && incident.fullLogs == RetryFullLogs(jobs, logOf, old(incident.fullLogs))))
  {
    if status == "success" {
      incident.mrStatus := MrResolved;
      incident.status := Resolved;
      return if WriteOk(writes, 0) then MarkedResolved else SaveThrew;
    }
    if status != "failed" {
      return Ignored;
    }
    outcome := HandleFailure(incident, env, writes, writeError, jobs, logOf, listing, fetch, ai, stringify);
  }

  /** `Incident.findById(id)` over the stored incidents. */
  function FindIncident(incidents: map<string, Incident>, id: string): Incident? {
    if id in incidents then incidents[id] else null
  }

  /** The stored incident a ref names: none unless the ref is a fix branch. */
  function RefIncident(ref: Option<string>, incidents: map<string, Incident>): Incident? {
    if ref.Some? && StartsWith(ref.value, RefPrefix) then FindIncident(incidents, RefIncidentId(ref.value)) else null
  }

  /** `handleMrPipelineEvent({ ref, status, pipelineId, project })`, with `incidents` the
      stored incidents by id, `env` the value of `AI_RETRY_MAX`, and `jobs` what
      `fetchPipelineJobs` gives for the pipeline: events for other refs and for unknown
      incidents change nothing; the others go as `HandleEvent` says. The frame names the
      four incident fields the handler writes and the patch document, so the incident's
      other fields, its reference to the document among them, stay as they were. */
  method HandleMrPipelineEvent(ref: Option<string>, status: string, incidents: map<string, Incident>, env: Option<string>,
                               writes: seq<bool>, writeError: string, jobs: JobsFetch, logOf: int -> LogFetch,
                               listing: Listing, fetch: string -> FileFetch, ai: Ai, stringify: Json -> string)
    returns (outcome: MrOutcome, incident: Incident?)
    modifies AsSet(RefIncident(ref, incidents))`status, AsSet(RefIncident(ref, incidents))`mrStatus,
             AsSet(RefIncident(ref, incidents))`retryCount, AsSet(RefIncident(ref, incidents))`fullLogs,
             AttachedDoc(RefIncident(ref, incidents))
    ensures ref.None? || !StartsWith(ref.value, RefPrefix) ==> outcome == NotIncidentRef && incident == null
    ensures ref.Some? && StartsWith(ref.value, RefPrefix) ==> incident == FindIncident(incidents, RefIncidentId(ref.value))
    ensures incident == null ==> outcome == NotIncidentRef || outcome == IncidentNotFound
    ensures incident != null ==>
      var d := Classify(status, old(incident.retryCount), MaxRetries(env));
      && incident.retryCount == old(incident.retryCount) + (if d == GiveUp || d == Retry then 1 else 0)
      && (d != Resolve ==> incident.status == old(incident.status))
      && (d == Resolve ==>
            incident.mrStatus == MrResolved && incident.status == Resolved
            && outcome == (if WriteOk(writes, 0) then MarkedResolved else SaveThrew))
      && (d == GiveUp ==>
            incident.mrStatus == MrFailed && outcome == (if WriteOk(writes, 0) then RetriesExhausted else SaveThrew))
      && (d == Ignore ==> unchanged(incident) && StoredPatch(incident) == old(StoredPatch(incident)) && outcome == Ignored)
      && ((d != Retry || !WriteOk(writes, 0)) ==>
            incident.fullLogs == old(incident.fullLogs) && StoredPatch(incident) == old(StoredPatch(incident)))
      && (d == Retry && !WriteOk(writes, 0) ==> outcome == SaveThrew && incident.mrStatus == Fixing)
      && (d == Retry && WriteOk(writes, 0) ==>
            var e := RetrySpec(ai, stringify, old(incident.fullLogs), old(incident.gitlabCiConfig),
                               old(StoredPatch(incident)), SnapshotFiles(listing, fetch), writes, 1, writeError,
                               jobs, logOf);
            outcome == e.outcome && incident.mrStatus == e.mrStatus && StoredPatch(incident) == e.doc
            && incident.fullLogs == RetryFullLogs(jobs, logOf, old(incident.fullLogs)))
  {
    if ref.None? || !StartsWith(ref.value, RefPrefix) {
      return NotIncidentRef, null;
    }
    var incidentId := RefIncidentId(ref.value);
    incident := FindIncident(incidents, incidentId);
    if incident == null {
      return IncidentNotFound, null;
    }
    outcome := HandleEvent(incident, status, env, writes, writeError, jobs, logOf, listing, fetch, ai, stringify);
  }
}
