/** The backend's AI gateway (backend/src/services/ai.service.js): the DeepSeek-then-Gemini
    fallback, and the recovery of an analysis object and of a diff from the raw reply.
    The prompts are built by the Prompts module; the HTTP calls are the outcomes given. */
module Gateway {
  import opened Wrappers
  import opened Strings
  import opened Json
  import opened Providers
  import opened Fences
  import opened RepoContext
  import opened Prompts

  /** The providers as the gateway sees them: whether a DeepSeek key is configured, and
      what each provider answers to a prompt (DeepSeek also receives the system message
      naming the output mode). A missing Gemini key is one more way for Gemini to fail. */
  datatype Backends = Backends(deepseekConfigured: bool, deepseek: (string, string) -> Outcome,
                               gemini: string -> Outcome)

  /** The system message DeepSeek is sent: JSON for the analysis, text otherwise. */
  function SystemMessage(jsonMode: bool): string {
    if jsonMode then "OUTPUT_JSON" else "OUTPUT_TEXT"
  }

  /** The attempts `runProvider` makes: DeepSeek only when its key is configured, then Gemini. */
  function Attempts(b: Backends, jsonMode: bool, prompt: string): seq<Outcome> {
    (if b.deepseekConfigured then [b.deepseek(SystemMessage(jsonMode), prompt)] else [])
    + [b.gemini(prompt)]
  }

  /** The raw reply of the chain; an empty completion counts as a success here. */
  function ProviderReply(b: Backends, jsonMode: bool, prompt: string): string {
    Chain(Attempts(b, jsonMode, prompt), false)
  }

  /** `runProvider(prompt, mode)`. */
  method RunProvider(b: Backends, prompt: string, jsonMode: bool) returns (raw: string, called: seq<Provider>)
    ensures raw == ProviderReply(b, jsonMode, prompt)
    ensures b.deepseekConfigured && b.deepseek(SystemMessage(jsonMode), prompt).Ok? ==>
      raw == b.deepseek(SystemMessage(jsonMode), prompt).text && called == [DeepSeek]
    ensures !b.deepseekConfigured || b.deepseek(SystemMessage(jsonMode), prompt).Fail? ==>
      called == (if b.deepseekConfigured then [DeepSeek, Gemini] else [Gemini])
      && raw == (if b.gemini(prompt).Ok? then b.gemini(prompt).text else SafeModeSentinel)
  {
    var attempts := Attempts(b, jsonMode, prompt);
    called := [];
    if b.deepseekConfigured {
      called := called + [DeepSeek];
      var reply := b.deepseek(SystemMessage(jsonMode), prompt);
      if reply.Ok? {
        assert attempts[0] == reply;
        return reply.text, called;
      }
    }
    called := called + [Gemini];
    var reply := b.gemini(prompt);
    assert attempts[|attempts| - 1] == reply;
    if reply.Ok? {
      return reply.text, called;
    }
    raw := SafeModeSentinel;
  }

  function Fields6(k1: string, v1: Json, k2: string, v2: Json, k3: string, v3: Json,
                   k4: string, v4: Json, k5: string, v5: Json, k6: string, v6: Json): map<string, Json> {
    map[k1 := v1, k2 := v2, k3 := v3, k4 := v4, k5 := v5, k6 := v6]
  }

  /** The object `runRCA` returns in safe mode. */
  const SafeModeAnalysis: Json := JObject(Fields6(
    "summary", JString("AI unavailable"), "rootCause", JString("unavailable"),
    "category", JString("other"), "confidence", JNumber(0.0),
    "usedModel", JNull, "safeMode", JBool(true)))

  /** The object `runRCA` returns when nothing in the reply parses. */
  const UnparsedAnalysis: Json := JObject(Fields6(
    "summary", JString("Unable to parse RCA"), "rootCause", JString("unknown"),
    "category", JString("other"), "confidence", JNumber(0.2),
    "usedModel", JNull, "safeMode", JBool(false)))

  /** What `runRCA` makes of the raw reply: the sentinel gives the safe-mode object; otherwise
      the reply parsed whole, else its brace span parsed, else the fixed default. The
      result is whatever the parser produced, which need not be an object. */
  function AnalysisFromReply(raw: string, parse: string -> Option<Json>): (r: Json)
    ensures raw == SafeModeSentinel ==> r == SafeModeAnalysis
    ensures raw != SafeModeSentinel && parse(raw).Some? ==> r == parse(raw).value
    ensures (raw != SafeModeSentinel && parse(raw).None? && BraceSpan(raw).Some?
             && parse(BraceSpan(raw).value).Some?) ==> r == parse(BraceSpan(raw).value).value
    ensures raw != SafeModeSentinel && ParseOrSpan(raw, parse).None? ==> r == UnparsedAnalysis
  {
    if raw == SafeModeSentinel then SafeModeAnalysis
    else ParseOrSpan(raw, parse).GetOr(UnparsedAnalysis)
  }

  /** The value `runPatchGeneration` resolves to. */
  datatype PatchResult = PatchResult(diff: string, raw: string, usedModel: Option<string>, safeMode: bool)

  /** What `runPatchGeneration` makes of the raw reply. The cleaned diff never holds a fence,
      and a reply without backticks is only trimmed. */
  function PatchFromReply(raw: string): (r: PatchResult)
    ensures r.raw == raw && r.usedModel.None?
    ensures r.safeMode <==> raw == SafeModeSentinel
    ensures r.safeMode ==> r.diff == ""
    ensures NoFence(r.diff)
    ensures !r.safeMode && NoBacktick(raw) ==> r.diff == Trim(raw)
    ensures Trimmed(r.diff)
  {
    if raw == SafeModeSentinel then PatchResult("", raw, None, true)
    else
      CleanedReply(raw);
      PatchResult(Trim(StripFences(raw, true)), raw, None, false)
  }

  /** The reply with its fences removed and trimmed holds no fence and starts and ends
      with a non-blank character; a reply without backticks is only trimmed. */
  lemma CleanedReply(raw: string)
    ensures var d := Trim(StripFences(raw, true));
      && NoFence(d)
      && Trimmed(d)
      && (NoBacktick(raw) ==> d == Trim(raw))
  {
    var stripped := StripFences(raw, true);
    StripLeavesNoFence(raw, true);
    NoFenceTrim(stripped);
    TrimIsInfix(stripped);
    StripWithoutBacktick(raw, true);
  }

  /** `runRCA({logs, gitlabCiConfig, metadata})`: the analysis prompt in JSON mode. */
  method RunRca(b: Backends, logs: string, ciConfig: string, metadataJson: string, parse: string -> Option<Json>)
    returns (rca: Json)
    ensures rca == AnalysisFromReply(ProviderReply(b, true, StrictRcaPrompt(logs, ciConfig, metadataJson)), parse)
  {
    var prompt := StrictRcaPrompt(logs, ciConfig, metadataJson);
    var raw, _ := RunProvider(b, prompt, true);
    rca := AnalysisFromReply(raw, parse);
  }

  /** `runPatchGeneration({logs, gitlabCiConfig, metadata, files, targetFilesText})`. */
  method RunPatchGeneration(b: Backends, logs: string, ciConfig: string, files: seq<FileEntry>,
                            metadataJson: string, targetFilesText: string) returns (r: PatchResult)
    ensures r == PatchFromReply(ProviderReply(b, false, BuildPatchPrompt(logs, ciConfig, files, metadataJson, targetFilesText)))
  {
    var prompt := BuildPatchPrompt(logs, ciConfig, files, metadataJson, targetFilesText);
    var raw, _ := RunProvider(b, prompt, false);
    r := PatchFromReply(raw);
  }
}
