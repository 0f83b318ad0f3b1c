# Failure remediation of the AI incident backend, in Dafny

This project models the backend's logic for handling a failed GitLab CI pipeline:

- A webhook turns the failed pipeline into an **incident** record.
- An **automation run** asks an AI gateway for a root-cause analysis, and then for a patch in unified-diff form.
- A strict **unified-diff checker** decides whether the patch is structurally valid.
- The **create-MR endpoint** commits the patch to a fix branch `incident-fix-<id>` and opens a merge request. The patch is committed as a Markdown file.
- A **self-heal handler** reacts to pipelines on that branch. On success it resolves the incident. On failure it counts a retry and regenerates the patch, up to a ceiling.

Around these sit:

- the two AI front ends, which try providers in order and fall back to a safe-mode sentinel: the backend's gateway, and the standalone AI service with its own token check and routes;
- their prompt builders;
- the repository snapshot that feeds them.

One Dafny module stands for each source file, plus the shared helpers below. All modules are at the top level.

| module | source |
|---|---|
| `PatchValidator` | `backend/src/services/patchValidator.js`: the scan as an imperative loop (`ValidateUnifiedDiff`) proved equal to a step function, with the properties of its verdict |
| `Providers`, `Gateway`, `Fences` | `backend/src/services/ai.service.js`: the provider chain, the analysis and diff recovery, and fence removal |
| `AiService` | `ai-service/src/ai.service.js`: the token check, `runAI`, `safeJSON`, both prompts and both routes |
| `Prompts` | `backend/src/services/prompts.js` |
| `Automation` | `backend/src/services/automation.service.js`, as phase methods on the `Incident` class, each proved against a phase function |
| `MrHandler` | `backend/src/services/mrHandler.service.js` |
| `IncidentsController` | `backend/src/controllers/incidents.controller.js` |
| `Webhooks` | `backend/src/controllers/webhooks.controller.js` |
| `RepoContext` | `backend/src/services/repoContext.service.js`, with the filter loop as a method |
| `IncidentModel` | `backend/src/models/Incident.js`, plus the patch and analysis documents |
| `Strings`, `Json`, `Wrappers` | the JavaScript string operations, parsed JSON values and `Option` |

### How the collaborators are represented

Nothing external is executed; each collaborator enters the model as data:

- **Providers.** A provider call is an outcome `Ok(text) | Fail`, given per prompt.
- **JSON.** `JSON.parse` is a function `string -> Option<Json>`, where `None` means it throws. `JSON.stringify` is a function `Json -> string`.
- **GitLab.** Listing the tree, fetching a file, listing jobs, fetching a job log, creating a branch, committing, and creating a merge request are each the result that call gives.
- **Database writes.** Every `save`/`create` may throw. A run receives the outcomes of its writes in order, as a `seq<bool>`.
- **The AI gateway.** Both state machines receive it as `Ai`, a pair of functions for the analysis and the patch. `Automation.BackendAi` builds it from the gateway's own definitions, and the webhook uses exactly that.

## Model

| member | source | states |
|---|---|---|
| Strings.TrimIsInfix | backend/src/services/patchValidator.js:17 | `trim` keeps an infix that neither starts nor ends with ECMAScript whitespace, and everything around it is whitespace |
| Strings.TrimIdempotent | backend/src/services/ai.service.js:99 | trimming twice is trimming once |
| Strings.Prefix | backend/src/services/prompts.js:50 | `slice(0, n)` gives the first `n` elements, or all of a shorter sequence |
| Strings.SplitLines | backend/src/services/patchValidator.js:22 | `split("\n")` gives at least one piece, and no piece holds a line feed |
| Strings.JoinSplitLines | backend/src/services/patchValidator.js:22 | joining the pieces of a split with line feeds gives the text back |
| Strings.SplitJoinLines | backend/src/services/patchValidator.js:22 | splitting lines that were joined with line feeds gives the lines back |
| Strings.DecimalRoundTrip | backend/src/services/patchValidator.js:66-67 | a printed number is non-empty digits and reads back as the same unbounded integer; JavaScript's `Number` agrees with it only below 2^53 |
| Json.Spread | ai-service/src/ai.service.js:212 | `{...v}` copies an object's fields, the indexed characters of a string or elements of an array, and nothing else |
| Json.BraceSpanExists | backend/src/services/ai.service.js:79 | the greedy `{…}` match exists exactly when some `{` precedes some `}` |
| Json.BraceSpanShape | backend/src/services/ai.service.js:79 | the match runs from the first `{` to the last `}` |
| Json.RecoveredFromReply | backend/src/services/ai.service.js:75-83 | a recovered value was parsed from the whole reply or from a brace-delimited infix of it |
| Providers.Chain | backend/src/services/ai.service.js:57-67 | the reply is the text of the first accepted attempt, and the sentinel when none is accepted |
| Providers.ChainReplyOrigin | ai-service/src/ai.service.js:91-106 | a reply is the sentinel or the text of an accepted attempt |
| Providers.ChainNeverEmpty | ai-service/src/ai.service.js:55 | when empty completions fail, the reply is never empty |
| Fences.StripLeavesNoFence | backend/src/services/ai.service.js:99 | after removing fences, no triple backtick is left anywhere |
| Fences.StripWithoutBacktick | backend/src/services/ai.service.js:99 | text without a backtick is left as it is |
| Fences.StripWithoutFence | ai-service/src/ai.service.js:242-244 | text without a fence is left as it is by both removals |
| Fences.StripKeepsFirstBacktick | backend/src/services/ai.service.js:99 | the stripped text starts with a backtick only if the input did |
| Fences.PassesDisagree | ai-service/src/ai.service.js:242-244 | on "````diff" the service's two passes and the backend's single pass give different results |
| Gateway.RunProvider | backend/src/services/ai.service.js:57-67 | with a DeepSeek key, any DeepSeek reply, `""` included, is returned and Gemini is not called; otherwise Gemini's reply, and the sentinel when it throws; the providers called are listed |
| Gateway.AnalysisFromReply | backend/src/services/ai.service.js:73-84 | the sentinel gives the safe-mode object; otherwise the whole parse, else the span parse, else the fixed default with confidence 0.2 |
| Gateway.PatchFromReply | backend/src/services/ai.service.js:96-100 | `raw` is kept and the model is null; safe mode holds exactly on the sentinel and then the diff is empty; the diff has no fence and no whitespace at its ends, and for a reply without backticks it is the trimmed reply |
| Gateway.CleanedReply | backend/src/services/ai.service.js:99 | the reply with its fences removed and trimmed holds no fence and has no whitespace at its ends; a reply without backticks is only trimmed |
| Gateway.RunRca | backend/src/services/ai.service.js:70-85 | `runRCA` is the gateway's reply to the strict analysis prompt, recovered as above |
| Gateway.RunPatchGeneration | backend/src/services/ai.service.js:87-101 | `runPatchGeneration` is the gateway's reply to the patch prompt, cleaned as above |
| Prompts.RcaPromptVerbatim | backend/src/services/prompts.js:2-13 | the analysis prompt embeds logs, configuration and metadata whole: changing one changes the prompt |
| Prompts.ShownFiles | backend/src/services/prompts.js:59-67 | at most the first twelve files, in order, each cut to 6000 characters |
| Prompts.PatchPromptReadsPrefixes | backend/src/services/prompts.js:49-70 | the patch prompt depends only on the first 15000 characters of logs, 10000 of configuration, 5000 of metadata and the shown files |
| Prompts.PatchPromptTruncates | backend/src/services/prompts.js:50-70 | cutting any input to its limit, or the files to twelve, leaves the prompt unchanged |
| Prompts.PatchPromptTargetsVerbatim | backend/src/services/prompts.js:55-56 | the target files are embedded whole: different target texts give different prompts |
| AiService.Authorized | ai-service/src/ai.service.js:21-28 | a request passes exactly when its header equals the token |
| AiService.RunAI | ai-service/src/ai.service.js:91-106 | DeepSeek's reply when usable; otherwise OpenRouter's when usable, else the sentinel; each provider is called at most once; the reply is never empty |
| AiService.SafeJson | ai-service/src/ai.service.js:111-124 | the whole parse, else the span parse, else `null` |
| AiService.RcaPromptVerbatim | ai-service/src/ai.service.js:129-152 | the service's analysis prompt embeds its inputs whole |
| AiService.FileBlocks | ai-service/src/ai.service.js:155-158 | one block for each of the first ten files, in order |
| AiService.PatchPrompt | ai-service/src/ai.service.js:154-181 | for fields that are strings or absent, the prompt throws exactly when the logs, the configuration or the metadata are absent |
| AiService.PatchPromptReadsPrefixes | ai-service/src/ai.service.js:155-177 | the prompt depends only on the first 20000, 10000, 5000 and 5000 characters of logs, configuration, metadata and targets, and on the shown files |
| AiService.PatchPromptTruncates | ai-service/src/ai.service.js:154-177 | cutting inputs to their limits, or the files to ten, leaves the prompt unchanged; absent files and targets mean `[]` and "" |
| AiService.RcaBody | ai-service/src/ai.service.js:193-212 | the sentinel gives the fixed safe-mode body; otherwise the keys are the id, the spread parse and `safeMode`, which is forced `false`, and the parsed values appear unchanged |
| AiService.RcaKeepsObjectFields | ai-service/src/ai.service.js:212 | an object reply's fields, other than `safeMode`, are returned as parsed |
| AiService.RcaSpreadsString | ai-service/src/ai.service.js:212 | a reply that parses to a string is spread into its characters under "0", "1", … |
| AiService.CleanDiff | ai-service/src/ai.service.js:242-245 | the cleaned diff has no fence and no whitespace at its ends; for text without backticks it is the trimmed text |
| AiService.CleanDiffIdempotent | ai-service/src/ai.service.js:242-245 | cleaning twice is cleaning once |
| AiService.PatchFields | ai-service/src/ai.service.js:233-263 | the reply object holds exactly the id, diff, description, risk and optional `safeMode` |
| AiService.PatchBodyDiff | ai-service/src/ai.service.js:247-263 | the diff is non-empty exactly when the description is "ai-patch", and then it has at least 10 characters and no fence |
| AiService.HandleRca | ai-service/src/ai.service.js:186-217 | without the token: 401 and no provider call; otherwise `RcaBody` of the reply to the service's analysis prompt, after at most two calls |
| AiService.HandleGeneratePatch | ai-service/src/ai.service.js:222-268 | without the token: 401; absent logs, configuration or metadata: 500 and no call; otherwise `PatchBody` of the reply (fields that are strings or absent) |
| PatchValidator.ValidateUnifiedDiff | backend/src/services/patchValidator.js:14-144 | the loop with its early returns gives `Validate(diff)`, whatever `originalFile` is |
| PatchValidator.ScanLine | backend/src/services/patchValidator.js:39-121 | the loop body on one line, with its `continue`s and early returns, takes `StepLine`'s step; the `line === "+"` branch is unreachable, because the first `+` test already counts a lone `+` |
| PatchValidator.ScanErrorsAreScanErrors | backend/src/services/patchValidator.js:38-121 | every error the loop stops with is the hunk-header error or a quoted-line error |
| PatchValidator.ScanVerdictErrors | backend/src/services/patchValidator.js:38-140 | the loop and the count check report only scan errors |
| PatchValidator.EmptyInputRejected | backend/src/services/patchValidator.js:17-20 | "Empty or invalid diff" exactly for a non-string or a trimmed text under 10 characters; every error is one of the listed kinds |
| PatchValidator.MissingHeaderRejected | backend/src/services/patchValidator.js:22-30 | "Missing diff header" exactly when the length check passes and the first line does not start with `diff --git`, whatever the other lines are |
| PatchValidator.HunkHeaderRoundTrip | backend/src/services/patchValidator.js:56-67 | a header in any count form (`N`, `N,`, `N,M`), with any trailing text, parses to its declared counts, an empty or omitted count being 1 |
| PatchValidator.HunkHeaderLine | backend/src/services/patchValidator.js:56-73 | an `@@` line opens a hunk with fresh counters, without checking the previous one, or stops with "Malformed hunk header" |
| PatchValidator.OutsideHunkLine | backend/src/services/patchValidator.js:109-120 | outside a hunk, blank and header lines are accepted and anything else is rejected with the line quoted |
| PatchValidator.InsideHunkLine | backend/src/services/patchValidator.js:78-107 | inside a hunk, `+` counts new, `-` counts old, a space counts both, and anything else, the empty line included, is rejected; a lone `+` is an addition |
| PatchValidator.FinalCheckShortfallOnly | backend/src/services/patchValidator.js:126-140 | the count check fails only for the open hunk, only on a shortfall of a non-zero declared count, and the old count is reported first |
| PatchValidator.ScanAppend | backend/src/services/patchValidator.js:38-121 | scanning two sequences of lines is scanning the first, then the second from where it stopped |
| PatchValidator.RenderedDiffVerdict | backend/src/services/patchValidator.js:38-143 | on any diff written out from well-formed files, every line is accepted, and the verdict is the count check of the last file's last hunk |
| PatchValidator.ExactCountsValid | backend/src/services/patchValidator.js:14-144 | a well-formed diff whose headers declare its body counts is valid |
| PatchValidator.EmptyLineStep | backend/src/services/patchValidator.js:104-112 | the empty line is rejected inside a hunk and skipped outside one |
| PatchValidator.TrailingLineFeedVerdict | backend/src/services/patchValidator.js:22 | a well-formed diff ending in a line feed is rejected by its empty last line when its last file has a hunk, and is valid otherwise |
| PatchValidator.ShortHunkExampleVerdicts | backend/src/services/patchValidator.js:126-132 | a hunk declaring two old lines but having one fails the old-count check; with a final line feed, the empty line is reported instead |
| IncidentModel.ParseStatus | backend/src/models/Incident.js:20-24 | the schema accepts exactly "open", "in_progress" and "resolved" |
| IncidentModel.ParseAnalysisStatus | backend/src/models/Incident.js:26-30 | exactly "pending", "running", "done" and "failed" |
| IncidentModel.ParsePatchStatus | backend/src/models/Incident.js:32-36 | exactly "pending", "running", "ready" and "failed" |
| IncidentModel.ParseMrStatus | backend/src/models/Incident.js:38-42 | exactly "not_requested", "open", "fixing", "resolved" and "failed" |
| IncidentModel.ParseCategory | backend/src/models/Incident.js:44-48 | exactly the six categories; `null` is the field's `None` |
| IncidentModel.EnumTextsRoundTrip | backend/src/models/Incident.js:20-48 | every enumeration value's text reads back as that value |
| IncidentModel.Incident.constructor | backend/src/models/Incident.js:3-72 | a new record has the given fields and the schema's defaults: open, pending, pending, not_requested, no category, no retries, logs not stored |
| IncidentModel.PatchDoc.constructor | backend/src/models/AIPatch.js:3-19 | a new patch document has the given diff, description, risk and safe-mode flag, and no model or previous attempt |
| IncidentModel.PatchDoc.Load | backend/src/services/mrHandler.service.js:68-108 | loading the document from storage gives it exactly the stored fields, with `status` and `validationError`, which storage does not hold, unset |
| RepoContext.KeptMember | backend/src/services/repoContext.service.js:16-26 | a file is kept exactly when a blob node has its path and the fetch of that path gave it keepable content |
| RepoContext.KeptFilesKeepable | backend/src/services/repoContext.service.js:17-22 | every kept file has a path and content that is non-empty and under 200000 characters |
| RepoContext.KeptFromCases | backend/src/services/repoContext.service.js:17-26 | non-blobs, nodes without a path and failed fetches contribute nothing |
| RepoContext.KeptCapped | backend/src/services/repoContext.service.js:27 | once 1000 files are held, the rest of the listing no longer matters |
| RepoContext.PrimaryContent | backend/src/services/repoContext.service.js:30-32 | the content of the first `.gitlab-ci.yml`, or "" |
| RepoContext.GetRepoSnapshot | backend/src/services/repoContext.service.js:9-37 | a listing that is not an array gives the empty snapshot; otherwise the first 1000 kept files in tree order, their paths, and the primary content |
| Automation.AnalysisOf | backend/src/services/automation.service.js:33-39 | each analysis field is the truthy member of the reply, or its default "", "", "other" or 0 |
| Automation.RecordAnalysis | backend/src/services/automation.service.js:24-43 | the first phase leaves the fields `AnalysisStep` gives: running and pending, then the stored analysis and done |
| Automation.GeneratePatch | backend/src/services/automation.service.js:59-86 | the generation phase leaves the fields and document `GenerationStep` gives |
| Automation.CheckPatch | backend/src/services/automation.service.js:88-104 | the validation phase leaves the fields, document and outcome `ValidationStep` gives |
| Automation.RecordFailure | backend/src/services/automation.service.js:106-112 | each running status fails, the others stay, and `retryCount` grows by one |
| Automation.RunIdle | backend/src/services/automation.service.js:23-112 | the run of an idle incident ends in `RunSpec`'s outcome, fields and patch document |
| Automation.PatchAndCheck | backend/src/services/automation.service.js:46-112 | after the analysis, the patch and validation phases leave the outcome, fields and fresh patch document `PatchPhases` gives, and the incident refers to that document exactly when it was stored |
| Automation.RunAutomationForIncident | backend/src/services/automation.service.js:10-113 | a missing incident is a no-op; a running one is left unchanged; otherwise as `RunSpec`; category, mrStatus and the pipeline fields are never written |
| Automation.RunSettles | backend/src/services/automation.service.js:23-112 | at the end nothing is running, and the analysis is done or failed |
| Automation.RunCountsRetries | backend/src/services/automation.service.js:104-112 | `retryCount` grows by one exactly on an internal error; `status` changes only to in_progress |
| Automation.RunOutcomes | backend/src/services/automation.service.js:88-104 | validated: in_progress, ready, done, and a valid stored document; validation failed: the validator's error recorded and the patch failed; patch missing: "Patch missing" recorded without validating |
| Automation.RunWithoutWriteFailures | backend/src/services/automation.service.js:88-105 | when no write throws, the outcome depends only on the analysis and the diff |
| MrHandler.RefIncidentIdOfPrefixed | backend/src/services/mrHandler.service.js:15-16 | for a fix-branch ref, the id is what follows the prefix |
| MrHandler.ParseIntOfDecimal | backend/src/services/mrHandler.service.js:11 | `parseInt` reads a printed number back, whatever non-digit text follows |
| MrHandler.ParseIntNaN | backend/src/services/mrHandler.service.js:11 | a text without a leading sign or digit is `NaN` |
| MrHandler.MaxRetriesDefault | backend/src/services/mrHandler.service.js:11 | an unset or empty setting gives the ceiling 3 |
| MrHandler.ClassifyFailure | backend/src/services/mrHandler.service.js:32-38 | a failure gives up exactly when the count before increment has reached the ceiling |
| MrHandler.FailureRun | backend/src/services/mrHandler.service.js:32-38 | consecutive failures are classified at counts `start`, `start+1`, … |
| MrHandler.FourthFailureTerminal | backend/src/services/mrHandler.service.js:11 | from 0 with the default ceiling, the first three failures retry and the fourth and later ones give up |
| MrHandler.NaNCeilingNeverGivesUp | backend/src/services/mrHandler.service.js:33 | a `NaN` ceiling never stops the retries |
| MrHandler.FirstFailedJob | backend/src/services/mrHandler.service.js:46 | the index of the first failed job, or none when no job failed |
| MrHandler.RetryOpensOnlyWhenValid | backend/src/services/mrHandler.service.js:72-104 | the request returns to open only for a stored diff of at least 10 characters that the validator accepts, and otherwise stays fixing |
| MrHandler.RecordOverwritesDiff | backend/src/services/mrHandler.service.js:67-111 | once its save succeeds, the stored diff is the new one even when it is short or invalid, and `previousAttempt` is set, plus the validator's error as description when invalid; when the diff save fails the old diff stays, and a failed save of the mark leaves `previousAttempt` as stored |
| MrHandler.VerdictRecords | backend/src/services/mrHandler.service.js:72-111 | judging a saved document keeps its diff, safe mode and risk; a short or rejected diff is marked as a previous attempt, a rejected one carries the validator's error; a failed save of the mark keeps `previousAttempt` |
| MrHandler.RetryRecordsRegenerated | backend/src/services/mrHandler.service.js:44-86 | once the logs are fetched and saved, the retry records the diff generated from them |
| MrHandler.RetryFetchError | backend/src/services/mrHandler.service.js:105-111 | a failed fetch leaves the logs and the request fixing, and the reloaded document gets the error as its description when that save succeeds, and is unchanged otherwise |
| MrHandler.FirstFiles | backend/src/services/mrHandler.service.js:57-62 | the files sent are the first eight |
| MrHandler.CatchRetryError | backend/src/services/mrHandler.service.js:105-111 | the document is loaded again from what was last saved, and the message becomes its description only when that save succeeds |
| MrHandler.RecordRetryPatch | backend/src/services/mrHandler.service.js:67-104 | the incident and document end as `RecordSpec` says |
| MrHandler.RecordVerdict | backend/src/services/mrHandler.service.js:72-111 | the verdict on the saved document and the merge request status end as `VerdictSpec` says |
| MrHandler.RetryPatch | backend/src/services/mrHandler.service.js:43-111 | the retry ends as `RetrySpec` says, with the fetched logs stored |
| MrHandler.HandleEvent | backend/src/services/mrHandler.service.js:22-111 | success: resolved twice, `retryCount` kept; another non-failure: nothing changes; failure: `retryCount`+1, then failed above the ceiling, else the retry; the logs and the patch document change only in a retry whose first save succeeded |
| MrHandler.HandleFailure | backend/src/services/mrHandler.service.js:32-111 | a failure adds one retry; above the ceiling the merge request fails; otherwise it is `fixing` and, once saved, the retry runs as `RetrySpec` says; the logs and document change only in that retry |
| MrHandler.HandleMrPipelineEvent | backend/src/services/mrHandler.service.js:13-112 | a ref that is absent or not a fix branch is a no-op; the incident is looked up among the stored incidents by the stripped id, and an unknown id is a no-op; then everything `HandleEvent` states, the retry included; the frame lets only `status`, `mrStatus`, `retryCount`, `fullLogs` and the attached patch document change, so every other incident field, `aiPatch` among them, is unchanged |
| IncidentsController.BranchNameRoundTrip | backend/src/controllers/incidents.controller.js:21 | the fix branch starts with the prefix, and the self-heal handler recovers exactly the id from it |
| IncidentsController.TargetBranch | backend/src/controllers/incidents.controller.js:22 | the ref, or "main" when it is empty or missing |
| IncidentsController.GuardsCallNothing | backend/src/controllers/incidents.controller.js:14-19 | 404, 400 and 409 make no GitLab call; a missing patch is reported before an open request |
| IncidentsController.CreateMrSequence | backend/src/controllers/incidents.controller.js:21-34 | branch first, then a single commit of `"AI Patch\n\n" + diff` to `ai_patches/incident_<id>.md`; the request is marked open only after the commit, the merge request and its record all succeed, and the record names the incident, its project and both branches |
| IncidentsController.CreateMr | backend/src/controllers/incidents.controller.js:13-41 | the reply, the calls and the record are `CreateMrSpec`'s; the frame lets only `mrStatus` change, and only to open |
| Webhooks.FindFailed | backend/src/controllers/webhooks.controller.js:11 | the first entry with status "failed", or none when no entry failed |
| Webhooks.ExtractFailedJobFinds | backend/src/controllers/webhooks.controller.js:10-12 | a job is found exactly when a build or job failed; a failed build wins; what is found has failed |
| Webhooks.CreatedOnlyForFailures | backend/src/controllers/webhooks.controller.js:18-52 | an incident is created exactly for a pipeline hook of a failed pipeline with a failed job, once the forced project exists and creation succeeds |
| Webhooks.HandleGitlabWebhook | backend/src/controllers/webhooks.controller.js:14-60 | the reply as `ReplyFor`; a new incident holds the pipeline's and the job's fields, `failure_reason` or "" as snippet, and the defaults (no category, logs, configuration or merge request, merge request not requested); the automation run then applies to it, and the incident refers to the patch document the run stored, if any |

## Left out

- Concurrency is not modelled. Runs are sequential, which covers two points. First, the read-then-write race around the automation guard. Second, the webhook's fire-and-forget automation run: the model runs it to completion before the reply, and the reply does not depend on it.
- I/O is not modelled: HTTP, timeouts, Gemini model discovery, API keys held as values, logging and the Express plumbing. Providers are outcomes, and each GitLab call is the result it gives.
- The content of `JSON.parse` and `JSON.stringify` is not modelled; they are parameters.
- Persistence is not modelled. A write is a step that succeeds or throws. The incident object keeps every in-memory change made before a failed save, as the source's object does. The self-heal handler's `catch` loads the patch document again, so there the model returns the document to what was last saved (`PatchDoc.Load`).
- The patch document's `status` and `validationError` are not in its schema, so storage drops them. The model keeps them in memory only, and a load from storage (`PatchDoc.Load`) unsets them.
- RepoContext.GetRepoSnapshot never throws. The source reads `project.gitlabProjectId` outside its `try` (repoContext.service.js:10), so a dangling project reference throws into the automation run's outer catch, which ends the run with an internal error and counts a retry. The model's project reference always resolves.
- The patch document's model name is dropped. The schema's key is `usedModel`, but the automation run writes `model`.
- Confidence values are opaque constants (0, 0.2). No floating point is modelled.
- String lengths count Unicode characters, not UTF-16 code units.
- `mrPipeline.controller.js`, `gitlab.service.js` and the frontend are not part of this model.
- Patch application is not modelled: the self-heal handler's only apply path is commented out, and nothing else in the source applies a patch.
- AiService.PatchPrompt, AiService.HandleGeneratePatch and AiService.HandleRca: a request field is a string (the files a list of entries) or absent; null and non-string values are not modelled. For those the source differs: `${logs}` prints "null" for a null value where the model prints "undefined" only for an absent one, and a null `targetFiles` or a file whose content is not a string throws where the model builds a prompt.
- PatchValidator.ValidateUnifiedDiff: hunk counts are unbounded integers. The source reads them as JavaScript doubles, so from 2^53 up a count is rounded, and from 10^21 up it prints in exponent form; the count-mismatch texts then differ from the model's.
- Strings.DecimalRoundTrip: the read-back is exact on unbounded integers; JavaScript's `Number` agrees with it only below 2^53.
- Automation.RunAutomationForIncident and MrHandler.HandleMrPipelineEvent take the AI gateway as a parameter `Ai`. Their contracts hold for any gateway, and do not fix it to `Automation.BackendAi`, the backend's gateway, which the webhook passes.

Behaviour of the source that the model reproduces rather than corrects:

- The automation run computes `filesToSend` and never sends it. It sends the whole snapshot, and so does the model.
- The automation run passes `targetFiles`, but the gateway reads `targetFilesText`. The target text it sends is therefore always "".
- `incident.aiPatch` is an unpopulated id. So the automation's `previousPatch` metadata is undefined, and dropped, whenever a patch exists. The self-heal handler's `failingFile` branch is dead for the same kind of reason, since `aiAnalysis` is also an id; the handler always sends the first eight files.
- No code sets `patchStatus` to running. The automation guard's second test only matters for records written elsewhere.
- A retry ceiling that `parseInt` reads as `NaN` disables the ceiling.
- A missing patch document makes the retry throw "Cannot set properties of null". The catch handler then records nothing.
- The validator's `line === "+"` branch is unreachable, because a lone `+` is already counted as an addition. The validator never reads its second argument.
- The backend strips fences in one pass and the AI service in two. Both are modelled, and they differ on inputs such as "````diff".
- The webhook's `Incident.create` is an outcome, and the new incident's id is a parameter. The body's `project.id` is only logged, so the model does not read it.
