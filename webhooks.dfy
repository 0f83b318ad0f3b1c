/** The GitLab webhook (backend/src/controllers/webhooks.controller.js): a pipeline event
    for a failed pipeline with a failed job creates an incident for the demo project and
    starts the automation run for it. The body is given as the parts the handler reads;
    the project lookup, the incident's creation and everything the run needs are
    parameters. */
module Webhooks {
  import opened Wrappers
  import opened Json
  import opened RepoContext
  import opened Gateway
  import opened IncidentModel
  import opened Automation

  /** A build or job entry of the event: the fields the handler reads. */
  datatype EventJob = EventJob(id: Option<int>, name: Option<string>, status: Option<string>,
                               failureReason: Option<string>)

  /** `object_attributes` of the event. */
  datatype PipelineAttributes = PipelineAttributes(id: Option<int>, url: Option<string>, gitRef: Option<string>,
                                                   status: Option<string>)

  /** The parts of the event body the handler reads; an absent part is `None`. */
  datatype EventBody = EventBody(builds: Option<seq<EventJob>>, jobs: Option<seq<EventJob>>,
                                 objectAttributes: Option<PipelineAttributes>, commitId: Option<string>)

  /** The project every event is filed under, whatever project the event names. */
  const ForcedProjectId := 76116069

  /** The first entry whose status is `failed`, if any. */
  function FindFailed(entries: seq<EventJob>): (r: Option<EventJob>)
    ensures r.None? <==> forall i :: 0 <= i < |entries| ==> entries[i].status != Some("failed")
    ensures r.Some? ==> exists i ::
      && 0 <= i < |entries| && entries[i] == r.value && entries[i].status == Some("failed")
      && forall k :: 0 <= k < i ==> entries[k].status != Some("failed")
  {
    if |entries| == 0 then None
    else if entries[0].status == Some("failed") then Some(entries[0])
    else
      var r := FindFailed(entries[1..]);
      assert forall i :: 1 <= i < |entries| ==> entries[i] == entries[1..][i - 1];
      r
  }

  /** `body.builds?.find(...) || body.jobs?.find(...) || null`. */
  function ExtractFailedJob(body: EventBody): Option<EventJob> {
    var fromBuilds := if body.builds.Some? then FindFailed(body.builds.value) else None;
    if fromBuilds.Some? then fromBuilds
    else if body.jobs.Some? then FindFailed(body.jobs.value)
    else None
  }

  predicate HasFailed(entries: Option<seq<EventJob>>) {
    entries.Some? && exists i :: 0 <= i < |entries.value| && entries.value[i].status == Some("failed")
  }

  /** A failed job is found exactly when the builds or the jobs list one; a failed build
      wins over the jobs, and what is found has failed. */
  lemma ExtractFailedJobFinds(body: EventBody)
    ensures ExtractFailedJob(body).Some? <==> HasFailed(body.builds) || HasFailed(body.jobs)
    ensures HasFailed(body.builds) ==> ExtractFailedJob(body) == FindFailed(body.builds.value)
    ensures ExtractFailedJob(body).Some? ==> ExtractFailedJob(body).value.status == Some("failed")
  {
    if ExtractFailedJob(body).Some? {
      var j := ExtractFailedJob(body).value;
      if body.builds.Some? && FindFailed(body.builds.value).Some? {
        assert HasFailed(body.builds);
      } else {
        assert HasFailed(body.jobs);
      }
    }
  }

  /** The webhook's replies. */
  datatype Reply = Ignored | NoFailedJob | ProjectNotFound | IncidentCreated(incidentId: string) | ServerError(message: string)

  /** What creating the incident record gives. */
  datatype CreateResult = CreateOk | CreateFailed(message: string)

  /** The reply the handler sends, lines 14-60, given the `x-gitlab-event` header, the
      body, the projects by GitLab id, what creating the record gives and the id it gets. */
  function ReplyFor(event: Option<string>, body: EventBody, projects: map<int, string>, create: CreateResult,
                    newId: string): Reply
  {
    if event != Some("Pipeline Hook") then Ignored
    else if body.objectAttributes.None? || body.objectAttributes.value.status != Some("failed") then Ignored
    else if ExtractFailedJob(body).None? then NoFailedJob
    else if ForcedProjectId !in projects then ProjectNotFound
    else if create.CreateFailed? then ServerError(create.message)
    else IncidentCreated(newId)
  }

  /** An incident is created only for a failed pipeline with a failed job, under the
      forced project, whatever project the event names. */
  lemma CreatedOnlyForFailures(event: Option<string>, body: EventBody, projects: map<int, string>, create: CreateResult,
                               newId: string)
    ensures ReplyFor(event, body, projects, create, newId).IncidentCreated? <==>
      && event == Some("Pipeline Hook")
      && body.objectAttributes.Some? && body.objectAttributes.value.status == Some("failed")
      && (HasFailed(body.builds) || HasFailed(body.jobs))
      && ForcedProjectId in projects
      && create == CreateOk
  {
    ExtractFailedJobFinds(body);
  }

  /** `handleGitlabWebhook`: the reply is `ReplyFor`'s; a created incident holds the
      pipeline's and the failed job's fields with the schema's defaults, and the automation
      run, with the backend's gateway, has been applied to it (the handler does not wait for
      the run, and its reply does not depend on it). */
  method HandleGitlabWebhook(event: Option<string>, body: EventBody, projects: map<int, string>, create: CreateResult,
                             newId: string, writes: seq<bool>, b: Backends, parse: string -> Option<Json>,
                             stringify: Json -> string, listing: Listing, fetch: string -> FileFetch)
    returns (reply: Reply, incident: Incident?, run: Option<Outcome>, patchDoc: PatchDoc?)
    ensures reply == ReplyFor(event, body, projects, create, newId)
    ensures reply.IncidentCreated? <==> incident != null
    ensures incident != null ==>
      && fresh(incident)
      && var pipeline := body.objectAttributes.value;
      && var job := ExtractFailedJob(body).value;
      && incident.id == newId && incident.project == projects[ForcedProjectId]
      && incident.pipelineId == pipeline.id && incident.pipelineUrl == pipeline.url
      && incident.gitRef == pipeline.gitRef && incident.commitSha == body.commitId
      && incident.jobId == job.id && incident.jobName == job.name
      && incident.errorSnippet == Some(if job.failureReason.Some? then job.failureReason.value else "")
      && incident.mrStatus == NotRequested && incident.category.None? && !incident.logsStored
      && incident.fullLogs.None? && incident.gitlabCiConfig.None? && incident.mergeRequest.None?
    // the run starts from a new incident: no logs, no configuration, no patch
    ensures run.Some? <==> incident != null
    ensures incident != null ==>
      var ai := BackendAi(b, parse);
      var rca := RunRcaResult(ai, stringify, "", "", incident.pipelineId, incident.gitRef);
      var result := RunPatchResult(ai, stringify, "", "", SnapshotFiles(listing, fetch), false, rca);
      var e := RunSpec(RunFields(AnalysisPending, PatchPending, Open, None, 0), writes, rca, result);
      run == Some(e.outcome) && FieldsOf(incident) == e.fields
      && (if e.doc.Some? then patchDoc != null && patchDoc.State() == e.doc.value else patchDoc == null)
      && incident.aiPatch == (if e.stored then patchDoc else null)
    ensures incident == null ==> patchDoc == null
  {
    incident, run, patchDoc := null, None, null;
    if event != Some("Pipeline Hook") {
      return Ignored, null, None, null;
    }
    if body.objectAttributes.None? || body.objectAttributes.value.status != Some("failed") {
      return Ignored, null, None, null;
    }
    var pipeline := body.objectAttributes.value;
    var failedJob := ExtractFailedJob(body);
    if failedJob.None? {
      return NoFailedJob, null, None, null;
    }
    if ForcedProjectId !in projects {
      return ProjectNotFound, null, None, null;
    }
    if create.CreateFailed? {
      return ServerError(create.message), null, None, null;
    }
    var job := failedJob.value;
    // `failure_reason || ""`
    var snippet := if job.failureReason.Some? then job.failureReason.value else "";
    incident := new Incident(newId, projects[ForcedProjectId], pipeline.id, pipeline.url, job.id, job.name,
                             pipeline.gitRef, body.commitId, Some(snippet));
    var outcome;
    outcome, patchDoc := RunAutomationForIncident(incident, writes, BackendAi(b, parse), stringify, listing, fetch);
    run := Some(outcome);
    reply := IncidentCreated(newId);
  }
}
