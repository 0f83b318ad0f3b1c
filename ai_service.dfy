/** The standalone AI service (ai-service/src/ai.service.js): token check, the
    DeepSeek-then-OpenRouter fallback, its own prompts, JSON recovery and the two routes
    `/ai/rca` and `/ai/generate-patch`. Request fields are strings or absent (`undefined`);
    the provider calls are the outcomes given, and `JSON.parse` is a parameter. */
module AiService {
  import opened Wrappers
  import opened Strings
  import opened Json
  import opened Providers
  import opened Fences
  import opened RepoContext

  const DefaultToken := "dev-token"

  /** `API_TOKEN`: the configured token, or the development default when it is unset or empty. */
  function ApiToken(env: Option<string>): (t: string)
    ensures t != ""
    ensures env.Some? && env.value != "" ==> t == env.value
    ensures env.None? || env.value == "" ==> t == DefaultToken
  {
    if env.Some? && env.value != "" then env.value else DefaultToken
  }

  /** The middleware lets a request through exactly when its `x-ai-service-token` header
      is present, non-empty and equal to the token. */
  function Authorized(header: Option<string>, env: Option<string>): (r: bool)
    ensures r <==> header == Some(ApiToken(env))
  {
    !(header.None? || header.value == "" || header.value != ApiToken(env))
  }

  /** Which keys are configured (a missing key throws before any request) and what each
      provider answers to a prompt. */
  datatype Backends = Backends(deepseekKey: bool, deepseek: string -> Outcome,
                               openRouterKey: bool, openRouter: string -> Outcome)

  function DeepSeekAttempt(b: Backends, prompt: string): Outcome {
    if b.deepseekKey then b.deepseek(prompt) else Fail
  }

  function OpenRouterAttempt(b: Backends, prompt: string): Outcome {
    if b.openRouterKey then b.openRouter(prompt) else Fail
  }

  /** The reply of `runAI`: an empty completion throws, so it counts as a failure. */
  function AiReply(b: Backends, prompt: string): string {
    Chain([DeepSeekAttempt(b, prompt), OpenRouterAttempt(b, prompt)], true)
  }

  /** `runAI(prompt)`: DeepSeek first, OpenRouter when DeepSeek gives nothing usable, the
      sentinel when neither does. `called` lists the providers actually contacted. */
  method RunAI(b: Backends, prompt: string) returns (raw: string, called: seq<Provider>)
    ensures raw == AiReply(b, prompt) && raw != ""
    ensures Accepted(DeepSeekAttempt(b, prompt), true) ==> raw == b.deepseek(prompt).text && called == [DeepSeek]
    ensures !Accepted(DeepSeekAttempt(b, prompt), true) ==>
      called == (if b.deepseekKey then [DeepSeek] else []) + (if b.openRouterKey then [OpenRouter] else [])
      && raw == (if Accepted(OpenRouterAttempt(b, prompt), true) then b.openRouter(prompt).text else SafeModeSentinel)
  {
    ghost var attempts := [DeepSeekAttempt(b, prompt), OpenRouterAttempt(b, prompt)];
    called := [];
    if b.deepseekKey {
      called := called + [DeepSeek];
      var reply := b.deepseek(prompt);
      if reply.Ok? && reply.text != "" {
        assert attempts[0] == reply;
        return reply.text, called;
      }
    }
    assert !Accepted(attempts[0], true);
    if b.openRouterKey {
      called := called + [OpenRouter];
      var reply := b.openRouter(prompt);
      if reply.Ok? && reply.text != "" {
        assert attempts[1] == reply;
        return reply.text, called;
      }
    }
    assert !Accepted(attempts[1], true);
    raw := SafeModeSentinel;
  }

  /** `safeJSON(raw)`: the recovered value, `null` when nothing parses. */
  function SafeJson(raw: string, parse: string -> Option<Json>): (v: Json)
    ensures parse(raw).Some? ==> v == parse(raw).value
    ensures (parse(raw).None? && BraceSpan(raw).Some? && parse(BraceSpan(raw).value).Some?)
            ==> v == parse(BraceSpan(raw).value).value
    ensures ParseOrSpan(raw, parse).None? ==> v == JNull
  {
    ParseOrSpan(raw, parse).GetOr(JNull)
  }

  /** `${v}` for a string or `undefined`. */
  function Interpolated(v: Option<string>): (r: string)
    ensures v.Some? ==> r == v.value
    ensures v.None? ==> r == "undefined"
  {
    v.GetOr("undefined")
  }

  /** The text before the logs in the analysis prompt. */
  const RcaHead :=
    "\n"
    + "Analyze the CI/CD pipeline failure and respond ONLY with valid JSON.\n"
    + "\n"
    + "INPUT:\n"
    + "LOGS:\n"

  /** The text after the metadata in the analysis prompt: the reply format. */
  const RcaTail :=
    "\n"
    + "\n"
    + "Return JSON EXACTLY like this:\n"
    + "{\n"
    + "  \"summary\": \"string\",\n"
    + "  \"rootCause\": \"string\",\n"
    + "  \"category\": \"dependency | test | config | infra | other\",\n"
    + "  \"failingFile\": \"string or null\",\n"
    + "  \"confidence\": 0.0\n"
    + "}\n"

  /** The text before the logs in the patch prompt. */
  const PatchHead :=
    "\n"
    + "You are an AI DevOps Copilot. Generate ONLY a valid unified diff patch.\n"
    + "\n"
    + "RULES:\n"
    + "- STRICT unified diff format (--- a/ | +++ b/ | @@ hunks)\n"
    + "- No markdown\n"
    + "- No code fences\n"
    + "- No explanation\n"
    + "- Must apply cleanly\n"
    + "- Modify only relevant files\n"
    + "- Fix ONLY the error causing the pipeline failure\n"
    + "\n"
    + "CONTEXT:\n"
    + "LOGS:\n"

  /** The text after the file contents in the patch prompt. */
  const PatchTail :=
    "\n"
    + "\n"
    + "Now output ONLY the patch.\n"

  const LogsLimit := 20000
  const ConfigLimit := 10000
  const MetadataLimit := 5000
  const TargetsLimit := 5000
  const FileLimit := 6000
  const MaxPromptFiles := 10

  /** `rcaPrompt(logs, config, metadata)`: an absent input is rendered as "undefined"
      (`JSON.stringify(undefined)` interpolates the same way). */
  function RcaPrompt(logs: Option<string>, config: Option<string>, metadataJson: Option<string>): string {
    RcaHead + Interpolated(logs) + "\n\nCI CONFIG:\n" + Interpolated(config) + "\n\nMETA:\n"
    + Interpolated(metadataJson) + RcaTail
  }

  /** The analysis prompt embeds its three inputs whole: changing any one of them
      changes the prompt. */
  lemma RcaPromptVerbatim(logs1: string, logs2: string, ci1: string, ci2: string, meta1: string, meta2: string)
    ensures RcaPrompt(Some(logs1), Some(ci1), Some(meta1)) == RcaPrompt(Some(logs2), Some(ci1), Some(meta1)) ==> logs1 == logs2
    ensures RcaPrompt(Some(logs1), Some(ci1), Some(meta1)) == RcaPrompt(Some(logs1), Some(ci2), Some(meta1)) ==> ci1 == ci2
    ensures RcaPrompt(Some(logs1), Some(ci1), Some(meta1)) == RcaPrompt(Some(logs1), Some(ci1), Some(meta2)) ==> meta1 == meta2
  {
    var p := RcaPrompt(Some(logs1), Some(ci1), Some(meta1));
    if p == RcaPrompt(Some(logs2), Some(ci1), Some(meta1)) {
      Cancel4(RcaHead, logs1, logs2, "\n\nCI CONFIG:\n", ci1, "\n\nMETA:\n", meta1, RcaTail);
    }
    if p == RcaPrompt(Some(logs1), Some(ci2), Some(meta1)) {
      Cancel3(RcaHead + logs1 + "\n\nCI CONFIG:\n", ci1, ci2, "\n\nMETA:\n", meta1, RcaTail);
    }
    if p == RcaPrompt(Some(logs1), Some(ci1), Some(meta2)) {
      MiddleCancel(RcaHead + logs1 + "\n\nCI CONFIG:\n" + ci1 + "\n\nMETA:\n", meta1, meta2, RcaTail);
    }
  }

  /** The block for the file at (zero-based) position `i`, numbered from 1, its content
      cut to 6000 characters. */
  function FileBlock(i: nat, f: FileEntry): string {
    "# FILE " + NatToString(i + 1) + ": " + f.path + "\n" + Prefix(f.content, FileLimit)
  }

  /** The blocks of the first ten files, in order. */
  function FileBlocks(files: seq<FileEntry>): (r: seq<string>)
    ensures |r| == |Prefix(files, MaxPromptFiles)|
    ensures forall i :: 0 <= i < |r| ==> r[i] == FileBlock(i, files[i])
  {
    var shown := Prefix(files, MaxPromptFiles);
    seq(|shown|, i requires 0 <= i < |shown| => FileBlock(i, shown[i]))
  }

  /** The `filesSection`: the blocks separated by blank lines. */
  function FilesSection(files: seq<FileEntry>): string {
    Join(FileBlocks(files), "\n\n")
  }

  /** The sections after the metadata, which cannot throw. */
  function PatchPromptTail(files: seq<FileEntry>, targets: string): string {
    "\nTARGET FILES:\n" + Prefix(targets, TargetsLimit) + "\nFILES:\n" + FilesSection(files) + PatchTail
  }

  /** `patchPrompt(logs, config, metadata, files = [], targetFilesText = "")`: `None` when
      a `.slice` is applied to `undefined` and throws, which happens exactly when the logs,
      the configuration or the metadata are absent. Absent files and target text fall
      back to `[]` and "". */
  function PatchPrompt(logs: Option<string>, config: Option<string>, metadataJson: Option<string>,
                       files: Option<seq<FileEntry>>, targets: Option<string>): (r: Option<string>)
    ensures r.None? <==> logs.None? || config.None? || metadataJson.None?
  {
    if logs.None? || config.None? || metadataJson.None? then None
    else Some(PatchHead + Prefix(logs.value, LogsLimit) + "\nCI CONFIG:\n" + Prefix(config.value, ConfigLimit)
              + "\nMETA:\n" + Prefix(metadataJson.value, MetadataLimit)
              + PatchPromptTail(files.GetOr([]), targets.GetOr("")))
  }

  /** Two file lists that show the same blocks. */
  predicate SameShownFiles(files1: seq<FileEntry>, files2: seq<FileEntry>) {
    |Prefix(files1, MaxPromptFiles)| == |Prefix(files2, MaxPromptFiles)|
    && forall i :: 0 <= i < |Prefix(files1, MaxPromptFiles)| ==>
         files1[i].path == files2[i].path
         && Prefix(files1[i].content, FileLimit) == Prefix(files2[i].content, FileLimit)
  }

  lemma FileBlocksEqual(files1: seq<FileEntry>, files2: seq<FileEntry>)
    requires SameShownFiles(files1, files2)
    ensures FileBlocks(files1) == FileBlocks(files2)
  {
    var r1, r2 := FileBlocks(files1), FileBlocks(files2);
    forall i | 0 <= i < |r1| ensures r1[i] == r2[i] {
      assert r1[i] == FileBlock(i, files1[i]) && r2[i] == FileBlock(i, files2[i]);
    }
  }

  /** The patch prompt reads only the first 20000 characters of the logs, 10000 of the
      configuration, 5000 of the metadata and of the target text, and the shown files. */
  lemma PatchPromptReadsPrefixes(logs1: string, logs2: string, ci1: string, ci2: string,
                                 meta1: string, meta2: string, files1: seq<FileEntry>,
                                 files2: seq<FileEntry>, targets1: string, targets2: string)
    requires Prefix(logs1, LogsLimit) == Prefix(logs2, LogsLimit)
    requires Prefix(ci1, ConfigLimit) == Prefix(ci2, ConfigLimit)
    requires Prefix(meta1, MetadataLimit) == Prefix(meta2, MetadataLimit)
    requires Prefix(targets1, TargetsLimit) == Prefix(targets2, TargetsLimit)
    requires SameShownFiles(files1, files2)
    ensures PatchPrompt(Some(logs1), Some(ci1), Some(meta1), Some(files1), Some(targets1))
         == PatchPrompt(Some(logs2), Some(ci2), Some(meta2), Some(files2), Some(targets2))
  {
    FileBlocksEqual(files1, files2);
    assert PatchPromptTail(files1, targets1) == PatchPromptTail(files2, targets2);
  }

  /** Cutting any input to its limit, or the file list to ten files, leaves the prompt
      as it is; absent files and target text are the same as empty ones. */
  lemma PatchPromptTruncates(logs: string, config: string, metadataJson: string, files: seq<FileEntry>,
                             targets: string)
    ensures PatchPrompt(Some(logs), Some(config), Some(metadataJson), Some(files), Some(targets))
         == PatchPrompt(Some(Prefix(logs, LogsLimit)), Some(Prefix(config, ConfigLimit)),
                        Some(Prefix(metadataJson, MetadataLimit)), Some(Prefix(files, MaxPromptFiles)),
                        Some(Prefix(targets, TargetsLimit)))
    ensures PatchPrompt(Some(logs), Some(config), Some(metadataJson), None, None)
         == PatchPrompt(Some(logs), Some(config), Some(metadataJson), Some([]), Some(""))
  {
    PatchPromptReadsPrefixes(logs, Prefix(logs, LogsLimit), config, Prefix(config, ConfigLimit),
                             metadataJson, Prefix(metadataJson, MetadataLimit), files,
                             Prefix(files, MaxPromptFiles), targets, Prefix(targets, TargetsLimit));
  }

  /** The `incidentId` property of a reply: `undefined` is dropped when it is sent. */
  function IdField(incidentId: Option<Json>): (m: map<string, Json>)
    ensures incidentId.None? ==> m == map[]
    ensures incidentId.Some? ==> m.Keys == {"incidentId"} && m["incidentId"] == incidentId.value
  {
    if incidentId.Some? then map["incidentId" := incidentId.value] else map[]
  }

  /** The analysis used when the recovered value is falsy (`null` included). */
  const DefaultParsed: Json := JObject(map[
    "summary" := JString("Unable to parse"), "rootCause" := JString("Unknown"),
    "category" := JString("other"), "confidence" := JNumber(0.2)])

  const SafeModeRcaFields: map<string, Json> := map[
    "summary" := JString("safe-mode"), "rootCause" := JString("AI unavailable"),
    "category" := JString("other"), "confidence" := JNumber(0.0), "safeMode" := JBool(true)]

  /** `parsed` after `if (!parsed) parsed = {...}`. */
  function Parsed(raw: string, parse: string -> Option<Json>): (p: Json)
    ensures Truthy(SafeJson(raw, parse)) ==> p == SafeJson(raw, parse)
    ensures !Truthy(SafeJson(raw, parse)) ==> p == DefaultParsed
  {
    var v := SafeJson(raw, parse);
    if Truthy(v) then v else DefaultParsed
  }

  /** The body `/ai/rca` answers with: safe mode for the sentinel, otherwise the
      identifier, then every property the parsed value spreads (which may replace the
      identifier), then `safeMode: false`, which nothing replaces. */
  function RcaBody(incidentId: Option<Json>, raw: string, parse: string -> Option<Json>): (r: map<string, Json>)
    ensures raw == SafeModeSentinel ==> r == IdField(incidentId) + SafeModeRcaFields
    ensures raw != SafeModeSentinel ==> "safeMode" in r && r["safeMode"] == JBool(false)
    ensures raw != SafeModeSentinel ==>
      r.Keys == IdField(incidentId).Keys + Spread(Parsed(raw, parse)).Keys + {"safeMode"}
    ensures forall k ::
      (raw != SafeModeSentinel && k in Spread(Parsed(raw, parse)) && k != "safeMode") ==> r[k] == Spread(Parsed(raw, parse))[k]
    ensures (raw != SafeModeSentinel && incidentId.Some? && "incidentId" !in Spread(Parsed(raw, parse)))
      ==> r["incidentId"] == incidentId.value
  {
    if raw == SafeModeSentinel then IdField(incidentId) + SafeModeRcaFields
    else IdField(incidentId) + Spread(Parsed(raw, parse)) + map["safeMode" := JBool(false)]
  }

  /** A reply that parses to an object keeps every field of it but `safeMode`. */
  lemma RcaKeepsObjectFields(incidentId: Option<Json>, raw: string, parse: string -> Option<Json>,
                             fields: map<string, Json>)
    requires raw != SafeModeSentinel && parse(raw) == Some(JObject(fields))
    ensures forall k :: k in fields && k != "safeMode" ==>
      (k in RcaBody(incidentId, raw, parse) && RcaBody(incidentId, raw, parse)[k] == fields[k])
    ensures RcaBody(incidentId, raw, parse)["safeMode"] == JBool(false)
  {
    assert Parsed(raw, parse) == JObject(fields);
  }

  /** A reply that parses to a non-empty string is spread character by character under
      index keys, with the identifier and `safeMode: false` beside them. */
  lemma RcaSpreadsString(incidentId: Option<Json>, raw: string, parse: string -> Option<Json>, s: string)
    requires raw != SafeModeSentinel && parse(raw) == Some(JString(s)) && s != ""
    ensures forall i :: 0 <= i < |s| ==>
      (NatToString(i) in RcaBody(incidentId, raw, parse) && RcaBody(incidentId, raw, parse)[NatToString(i)] == JString([s[i]]))
  {
    var r := RcaBody(incidentId, raw, parse);
    assert Parsed(raw, parse) == JString(s);
    forall i | 0 <= i < |s| ensures NatToString(i) in r && r[NatToString(i)] == JString([s[i]]) {
      DistinctFromNames(NatToString(i));
    }
  }

  /** Index keys are digits only, so they differ from the named keys. */
  lemma DistinctFromNames(k: string)
    requires AllDigits(k)
    ensures k != "safeMode" && k != "incidentId"
  {
    assert !IsDigit("safeMode"[0]) && !IsDigit("incidentId"[0]);
  }

  /** The reply with fences removed (```diff in any case, then ```) and trimmed. */
  function CleanDiff(raw: string): (d: string)
    ensures NoFence(d)
    ensures Trimmed(d)
    ensures NoBacktick(raw) ==> d == Trim(raw)
  {
    var stripped := StripFences(RemoveDiffFences(raw), false);
    StripLeavesNoFence(RemoveDiffFences(raw), false);
    NoFenceTrim(stripped);
    TrimIsInfix(stripped);
    StripWithoutBacktick(raw, false);
    Trim(stripped)
  }

  /** Cleaning a cleaned diff changes nothing. */
  lemma CleanDiffIdempotent(raw: string)
    ensures CleanDiff(CleanDiff(raw)) == CleanDiff(raw)
  {
    var d := CleanDiff(raw);
    StripWithoutFence(d, false);
    TrimIdempotent(StripFences(RemoveDiffFences(raw), false));
  }

  const MinDiffLength := 10

  /** A patch reply: the identifier, the three text fields and, when given, `safeMode`. */
  function PatchFields(incidentId: Option<Json>, diff: string, description: string, risk: string,
                       safeMode: Option<bool>): (r: map<string, Json>)
    ensures incidentId.Some? ==> "incidentId" in r && r["incidentId"] == incidentId.value
    ensures "diff" in r && r["diff"] == JString(diff)
    ensures "description" in r && r["description"] == JString(description)
    ensures "risk" in r && r["risk"] == JString(risk)
    ensures "safeMode" in r <==> safeMode.Some?
    ensures safeMode.Some? ==> r["safeMode"] == JBool(safeMode.value)
    ensures forall k :: k in r ==>
      k == "incidentId" || k == "diff" || k == "description" || k == "risk" || k == "safeMode"
  {
    var m := IdField(incidentId) + map["diff" := JString(diff), "description" := JString(description),
                                       "risk" := JString(risk)];
    if safeMode.Some? then m["safeMode" := JBool(safeMode.value)] else m
  }

  /** The body `/ai/generate-patch` answers with: safe mode for the sentinel, an empty
      patch when the cleaned diff is under ten characters, the cleaned diff otherwise. */
  function PatchBody(incidentId: Option<Json>, raw: string): (r: map<string, Json>)
    ensures raw == SafeModeSentinel ==> r == PatchFields(incidentId, "", "safe mode", "high", Some(true))
    ensures (raw != SafeModeSentinel && |CleanDiff(raw)| < MinDiffLength) ==>
      r == PatchFields(incidentId, "", "empty-patch", "high", None)
    ensures (raw != SafeModeSentinel && |CleanDiff(raw)| >= MinDiffLength) ==>
      r == PatchFields(incidentId, CleanDiff(raw), "ai-patch", "medium", Some(false))
  {
    var clean := CleanDiff(raw);
    if raw == SafeModeSentinel then PatchFields(incidentId, "", "safe mode", "high", Some(true))
    else if clean == "" || |clean| < MinDiffLength then PatchFields(incidentId, "", "empty-patch", "high", None)
    else PatchFields(incidentId, clean, "ai-patch", "medium", Some(false))
  }

  /** A non-empty diff is sent only as an AI patch, and then it is at least ten
      characters long, holds no fence and has no whitespace at either end. */
  lemma PatchBodyDiff(incidentId: Option<Json>, raw: string)
    ensures PatchBody(incidentId, raw)["diff"].JString?
    ensures PatchBody(incidentId, raw)["diff"] != JString("") <==>
      PatchBody(incidentId, raw)["description"] == JString("ai-patch")
    ensures PatchBody(incidentId, raw)["description"] == JString("ai-patch") ==>
      var d := PatchBody(incidentId, raw)["diff"].s;
      |d| >= MinDiffLength && NoFence(d) && !IsJsWhitespace(d[0]) && !IsJsWhitespace(d[|d| - 1])
  {
    var r := PatchBody(incidentId, raw);
    if raw == SafeModeSentinel {
      assert r["description"] == JString("safe mode");
    } else if |CleanDiff(raw)| < MinDiffLength {
      assert r["description"] == JString("empty-patch");
    } else {
      assert r["diff"] == JString(CleanDiff(raw));
    }
  }

  /** An HTTP answer: 401, 500, or a JSON body. */
  datatype Reply = Unauthorized | ServerError | Body(fields: map<string, Json>)

  /** The fields `/ai/rca` reads from the request body. */
  datatype RcaRequest = RcaRequest(incidentId: Option<Json>, logs: Option<string>,
                                   gitlabCiConfig: Option<string>, metadataJson: Option<string>)

  /** The fields `/ai/generate-patch` reads from the request body. */
  datatype PatchRequest = PatchRequest(incidentId: Option<Json>, logs: Option<string>,
                                       gitlabCiConfig: Option<string>, files: Option<seq<FileEntry>>,
                                       metadataJson: Option<string>, targetFiles: Option<string>)

  /** `POST /ai/rca` behind the token check. */
  method HandleRca(env: Option<string>, header: Option<string>, req: RcaRequest, b: Backends,
                   parse: string -> Option<Json>) returns (reply: Reply, called: seq<Provider>)
    ensures !Authorized(header, env) ==> reply == Unauthorized && called == []
    ensures Authorized(header, env) ==>
      reply == Body(RcaBody(req.incidentId, AiReply(b, RcaPrompt(req.logs, req.gitlabCiConfig, req.metadataJson)), parse))
    ensures Authorized(header, env) ==> |called| <= 2
  {
    if !Authorized(header, env) {
      return Unauthorized, [];
    }
    var raw;
    raw, called := RunAI(b, RcaPrompt(req.logs, req.gitlabCiConfig, req.metadataJson));
    reply := Body(RcaBody(req.incidentId, raw, parse));
  }

  /** `POST /ai/generate-patch` behind the token check: a prompt that throws is a 500
      before any provider is called. */
  method HandleGeneratePatch(env: Option<string>, header: Option<string>, req: PatchRequest, b: Backends)
    returns (reply: Reply, called: seq<Provider>)
    ensures !Authorized(header, env) ==> reply == Unauthorized && called == []
    ensures (Authorized(header, env) && (req.logs.None? || req.gitlabCiConfig.None? || req.metadataJson.None?))
      ==> reply == ServerError && called == []
    ensures (Authorized(header, env) && req.logs.Some? && req.gitlabCiConfig.Some? && req.metadataJson.Some?)
      ==> var prompt := PatchPrompt(req.logs, req.gitlabCiConfig, req.metadataJson, req.files, req.targetFiles).value;
          reply == Body(PatchBody(req.incidentId, AiReply(b, prompt)))
  {
    if !Authorized(header, env) {
      return Unauthorized, [];
    }
    var prompt := PatchPrompt(req.logs, req.gitlabCiConfig, req.metadataJson, req.files, req.targetFiles);
    if prompt.None? {
      return ServerError, [];
    }
    var raw;
    raw, called := RunAI(b, prompt.value);
    reply := Body(PatchBody(req.incidentId, raw));
  }
}
