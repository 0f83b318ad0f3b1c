/** The create-MR endpoint (backend/src/controllers/incidents.controller.js): after three
    guards, it opens a fix branch, commits the patch as a Markdown file (the diff is never
    applied), opens a merge request, records it, and marks the incident's merge request
    open. The GitLab client is a parameter: what each call gives, and the sequence of
    calls the endpoint makes is part of the result. */
module IncidentsController {
  import opened Wrappers
  import opened Strings
  import opened IncidentModel
  import opened MrHandler

  /** Line 21: the fix branch of an incident. */
  function BranchName(id: string): string {
    RefPrefix + id
  }

  /** The self-heal handler recognises every fix branch and recovers the incident's id
      from it. */
  lemma BranchNameRoundTrip(id: string)
    ensures StartsWith(BranchName(id), RefPrefix)
    ensures RefIncidentId(BranchName(id)) == id
  {
    var b := BranchName(id);
    assert b[..|RefPrefix|] == RefPrefix;
    assert b[|RefPrefix|..] == id;
  }

  /** `incident.gitRef || "main"`. */
  function TargetBranch(gitRef: Option<string>): (r: string)
    ensures r != ""
    ensures gitRef.Some? && gitRef.value != "" ==> r == gitRef.value
    ensures gitRef.None? || gitRef.value == "" ==> r == "main"
  {
    if gitRef.Some? && gitRef.value != "" then gitRef.value else "main"
  }

  /** One entry of a commit's `actions`. */
  datatype FileAction = FileAction(action: string, filePath: string, content: string)

  /** Line 25: the patch goes into a new Markdown file under its own heading. */
  function PatchAction(id: string, diff: string): FileAction {
    FileAction("create", "ai_patches/incident_" + id + ".md", "AI Patch\n\n" + diff)
  }

  /** The GitLab calls the endpoint makes. */
  datatype GitlabCall =
    | CreateBranch(branch: string, baseRef: string)
    | CommitFiles(branch: string, message: string, actions: seq<FileAction>)
    | CreateMergeRequest(sourceBranch: string, targetBranch: string, title: string, description: string)

  /** What a call that may throw gives. */
  datatype CallResult = CallOk | CallFailed(message: string)

  /** What `createMergeRequest` gives: the request's `iid`, `id` and `web_url`, or the
      error it throws. */
  datatype MrResult = MrCreated(iid: Option<int>, mrId: int, webUrl: string) | MrCreateFailed(message: string)

  /** `mr.iid || mr.id`. */
  function MrNumber(mr: MrResult): int
    requires mr.MrCreated?
  {
    if mr.iid.Some? && mr.iid.value != 0 then mr.iid.value else mr.mrId
  }

  /** The merge-request record the endpoint stores. */
  datatype MergeRequestRecord = MergeRequestRecord(incident: string, project: string, mrId: int, mrUrl: string,
                                                   sourceBranch: string, targetBranch: string)

  /** The endpoint's replies: 404, 400, 409, the created request, or 500 with the error. */
  datatype Reply = NotFound | NoPatch | MrAlreadyOpen | Created(mr: MrResult) | ServerError(message: string)

  /** What the endpoint does: its reply, the calls it makes, the record it stores, and
      whether it marks the incident's merge request open. */
  datatype CreateMrEnd = CreateMrEnd(reply: Reply, calls: seq<GitlabCall>, record: Option<MergeRequestRecord>,
                                     marksOpen: bool)

  /** Lines 13-41 for an incident with id `id`, project `project`, merge-request status `mrStatus`, ref
      `gitRef` and patch diff `diff` (`None` without a patch document), given what the
      commit, the merge request, its record and the final save give. The branch call's
      failure is swallowed. */
  function CreateMrSpec(found: bool, id: string, project: string, mrStatus: MrStatus, gitRef: Option<string>, diff: Option<string>,
                        commit: CallResult, mr: MrResult, recordWrite: CallResult, save: CallResult): CreateMrEnd
  {
    if !found then CreateMrEnd(NotFound, [], None, false)
    else if diff.None? || diff.value == "" then CreateMrEnd(NoPatch, [], None, false)
    else if mrStatus == MrOpen then CreateMrEnd(MrAlreadyOpen, [], None, false)
    else
      var branch := BranchName(id);
      var target := TargetBranch(gitRef);
      var commitCall := CommitFiles(branch, "AI patch for incident " + id, [PatchAction(id, diff.value)]);
      var mrCall := CreateMergeRequest(branch, target, "AI Patch for Incident " + id, "Auto-generated patch.");
      var calls := [CreateBranch(branch, target), commitCall];
      if commit.CallFailed? then CreateMrEnd(ServerError(commit.message), calls, None, false)
      else if mr.MrCreateFailed? then CreateMrEnd(ServerError(mr.message), calls + [mrCall], None, false)
      else
        var record := MergeRequestRecord(id, project, MrNumber(mr), mr.webUrl, branch, target);
        if recordWrite.CallFailed? then CreateMrEnd(ServerError(recordWrite.message), calls + [mrCall], None, false)
        else if save.CallFailed? then CreateMrEnd(ServerError(save.message), calls + [mrCall], Some(record), true)
        else CreateMrEnd(Created(mr), calls + [mrCall], Some(record), true)
  }

  /** The guards make no GitLab call, and a missing patch is reported before an open
      merge request. */
  lemma GuardsCallNothing(found: bool, id: string, project: string, mrStatus: MrStatus, gitRef: Option<string>, diff: Option<string>,
                          commit: CallResult, mr: MrResult, recordWrite: CallResult, save: CallResult)
    ensures var e := CreateMrSpec(found, id, project, mrStatus, gitRef, diff, commit, mr, recordWrite, save);
      (e.reply == NotFound || e.reply == NoPatch || e.reply == MrAlreadyOpen) <==> e.calls == []
    ensures var e := CreateMrSpec(found, id, project, mrStatus, gitRef, diff, commit, mr, recordWrite, save);
      found && (diff.None? || diff.value == "") ==> e.reply == NoPatch
    ensures var e := CreateMrSpec(found, id, project, mrStatus, gitRef, diff, commit, mr, recordWrite, save);
      e.reply == MrAlreadyOpen <==> found && diff.Some? && diff.value != "" && mrStatus == MrOpen
  {
  }

  /** Past the guards, the endpoint first asks for the fix branch off the target, then
      commits the patch as a file on that branch; the merge request is marked open only
      once the commit, the request and its record all succeeded, and it goes from the fix
      branch to the target. */
  lemma CreateMrSequence(found: bool, id: string, project: string, mrStatus: MrStatus, gitRef: Option<string>, diff: Option<string>,
                         commit: CallResult, mr: MrResult, recordWrite: CallResult, save: CallResult)
    requires found && diff.Some? && diff.value != "" && mrStatus != MrOpen
    ensures var e := CreateMrSpec(found, id, project, mrStatus, gitRef, diff, commit, mr, recordWrite, save);
      && |e.calls| >= 2
      && e.calls[0] == CreateBranch(BranchName(id), TargetBranch(gitRef))
      && e.calls[1].CommitFiles? && e.calls[1].branch == BranchName(id)
      && e.calls[1].actions == [FileAction("create", "ai_patches/incident_" + id + ".md", "AI Patch\n\n" + diff.value)]
      && (e.marksOpen <==> commit == CallOk && mr.MrCreated? && recordWrite == CallOk)
      && (e.marksOpen ==>
            e.record.Some? && e.record.value.incident == id && e.record.value.project == project
            && e.record.value.sourceBranch == BranchName(id)
            && e.record.value.targetBranch == TargetBranch(gitRef))
      && (e.reply.Created? <==> e.marksOpen && save == CallOk)
  {
  }

  /** `POST /:id/create-mr` for the incident the lookup found. */
  method CreateMr(incident: Incident?, commit: CallResult, mr: MrResult, recordWrite: CallResult, save: CallResult)
    returns (reply: Reply, calls: seq<GitlabCall>, record: Option<MergeRequestRecord>)
    modifies (if incident == null then {} else {incident})`mrStatus
    ensures incident != null ==> unchanged(incident`status, incident`analysisStatus, incident`patchStatus,
                                            incident`retryCount, incident`aiPatch, incident`gitRef)
    ensures var e := CreateMrSpec(incident != null, if incident == null then "" else incident.id,
                                  if incident == null then "" else incident.project,
                                  if incident == null then NotRequested else old(incident.mrStatus),
                                  if incident == null then None else incident.gitRef,
                                  if incident == null || incident.aiPatch == null then None else Some(old(incident.aiPatch.diff)),
                                  commit, mr, recordWrite, save);
      reply == e.reply && calls == e.calls && record == e.record
      && (incident != null ==> incident.mrStatus == if e.marksOpen then MrOpen else old(incident.mrStatus))
  {
    calls := [];
    record := None;
    if incident == null {
      return NotFound, calls, record;
    }
    var aiPatch := incident.aiPatch;
    if aiPatch == null || aiPatch.diff == "" {
      return NoPatch, calls, record;
    }
    if incident.mrStatus == MrOpen {
      return MrAlreadyOpen, calls, record;
    }
    var branchName := BranchName(incident.id);
    var target := TargetBranch(incident.gitRef);
    // a failure to create the branch is swallowed
    calls := calls + [CreateBranch(branchName, target)];
    var actions := [PatchAction(incident.id, aiPatch.diff)];
    calls := calls + [CommitFiles(branchName, "AI patch for incident " + incident.id, actions)];
    if commit.CallFailed? {
      return ServerError(commit.message), calls, record;
    }
    calls := calls + [CreateMergeRequest(branchName, target, "AI Patch for Incident " + incident.id,
                                         "Auto-generated patch.")];
    if mr.MrCreateFailed? {
      return ServerError(mr.message), calls, record;
    }
    if recordWrite.CallFailed? {
      return ServerError(recordWrite.message), calls, record;
    }
    record := Some(MergeRequestRecord(incident.id, incident.project, MrNumber(mr), mr.webUrl, branchName, target));
    incident.mrStatus := MrOpen;
    if save.CallFailed? {
      return ServerError(save.message), calls, record;
    }
    reply := Created(mr);
  }
}
