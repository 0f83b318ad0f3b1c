/** The prompts the backend sends to the AI (backend/src/services/prompts.js): fixed
    template text around the request fields, with per-section prefix truncation and a
    cap on the number of embedded files in the patch prompt. `JSON.stringify(metadata)`
    is passed in as its text. */
module Prompts {
  import opened Strings
  import opened RepoContext

  /** The text before the logs in the analysis prompt. */
  const RcaHead :=
    "\n"
    + "You are a CI failure analysis engine. OUTPUT ONLY valid JSON matching:\n"
    + "{ \"summary\":\"string\", \"rootCause\":\"string\", \"category\":\"config | dependency | test | infra | timeout | other\", \"confidence\": 0.0 }\n"
    + "LOGS:\n"

  /** The text before the logs in the patch prompt. */
  const PatchHead :=
    "\n"
    + "You are an AI DevOps Engineer. Generate ONLY a valid unified diff patch.\n"
    + "NO explanations. NO markdown. NO code fences. ONLY the raw diff.\n"
    + "\n"
    + "STRICT FORMAT RULES (read carefully):\n"
    + "\n"
    + "1. The diff MUST start with:\n"
    + "   diff --git a/<path> b/<path>\n"
    + "   --- a/<path>\n"
    + "   +++ b/<path>\n"
    + "\n"
    + "2. For each modified file:\n"
    + "   Provide ONE AND ONLY ONE hunk header:\n"
    + "   @@ -<old_start>,<old_count> +<new_start>,<new_count> @@\n"
    + "\n"
    + "3. Allowed lines inside hunks:\n"
    + "   - Context lines (start with exactly ONE space): \" <code>\"\n"
    + "   - Additions: \"+<code>\"\n"
    + "   - Deletions: \"-<code>\"\n"
    + "\n"
    + "4. NEVER produce lines that start with:\n"
    + "   \"+++\" without header, \"---\" without header, \"exit 1\", shell commands, JSON, prose, or comments.\n"
    + "\n"
    + "5. NO explanations, no English sentences, no reasoning, no summary.\n"
    + "   ONLY the unified diff.\n"
    + "\n"
    + "6. Patch MUST fix the actual error indicated in logs. NO hallucinated edits.\n"
    + "\n"
    + "7. If unsure, DO NOT fabricate changes. Apply minimal fixes.\n"
    + "\n"
    + "--------------------------\n"
    + "INPUT CONTEXT (DO NOT ECHO)\n"
    + "--------------------------\n"
    + "LOGS:\n"

  /** The text after the metadata in the patch prompt. */
  const PatchTail :=
    "\n"
    + "\n"
    + "--------------------------\n"
    + "NOW OUTPUT ONLY THE UNIFIED DIFF.\n"
    + "NO BACKTICKS. NO MARKDOWN. NO EXTRA TEXT.\n"
    + "--------------------------\n"

  const LogsLimit := 15000
  const ConfigLimit := 10000
  const MetadataLimit := 5000
  const FileLimit := 6000
  const MaxPromptFiles := 12

  /** `strictRcaPrompt(logs, ciConfig, metadata)`. */
  function StrictRcaPrompt(logs: string, ciConfig: string, metadataJson: string): string {
    RcaHead + logs + "\nCI:\n" + ciConfig + "\nMETA:\n" + metadataJson + "\n"
  }

  /** The analysis prompt embeds its three inputs whole: changing any one of them
      changes the prompt. */
  lemma RcaPromptVerbatim(logs1: string, logs2: string, ci1: string, ci2: string, meta1: string, meta2: string)
    ensures StrictRcaPrompt(logs1, ci1, meta1) == StrictRcaPrompt(logs2, ci1, meta1) ==> logs1 == logs2
    ensures StrictRcaPrompt(logs1, ci1, meta1) == StrictRcaPrompt(logs1, ci2, meta1) ==> ci1 == ci2
    ensures StrictRcaPrompt(logs1, ci1, meta1) == StrictRcaPrompt(logs1, ci1, meta2) ==> meta1 == meta2
  {
    var p := StrictRcaPrompt(logs1, ci1, meta1);
    if p == StrictRcaPrompt(logs2, ci1, meta1) {
      Cancel4(RcaHead, logs1, logs2, "\nCI:\n", ci1, "\nMETA:\n", meta1, "\n");
    }
    if p == StrictRcaPrompt(logs1, ci2, meta1) {
      Cancel3(RcaHead + logs1 + "\nCI:\n", ci1, ci2, "\nMETA:\n", meta1, "\n");
    }
    if p == StrictRcaPrompt(logs1, ci1, meta2) {
      MiddleCancel(RcaHead + logs1 + "\nCI:\n" + ci1 + "\nMETA:\n", meta1, meta2, "\n");
    }
  }

  /** The files the patch prompt shows: the first twelve, in order, each cut to its
      first 6000 characters. */
  function ShownFiles(files: seq<FileEntry>): (r: seq<FileEntry>)
    ensures |r| == if |files| <= MaxPromptFiles then |files| else MaxPromptFiles
    ensures forall i :: 0 <= i < |r| ==>
      r[i].path == files[i].path && r[i].content == Prefix(files[i].content, FileLimit)
  {
    var shown := Prefix(files, MaxPromptFiles);
    seq(|shown|, i requires 0 <= i < |shown| => FileEntry(shown[i].path, Prefix(shown[i].content, FileLimit)))
  }

  /** The block for the file at (zero-based) position `i`, numbered from 1. */
  function FileBlock(i: nat, f: FileEntry): string {
    "\n### FILE " + NatToString(i + 1) + ": " + f.path + "\n" + f.content + "\n"
  }

  function FilesSection(files: seq<FileEntry>): string {
    var shown := ShownFiles(files);
    Join(seq(|shown|, i requires 0 <= i < |shown| => FileBlock(i, shown[i])), "\n")
  }

  /** The prompt before the target files. */
  function PatchPromptHead(logs: string, ciConfig: string): string {
    PatchHead + Prefix(logs, LogsLimit) + "\n\nCI CONFIG (.gitlab-ci.yml):\n" + Prefix(ciConfig, ConfigLimit)
    + "\n\nTARGET FILES:\n"
  }

  /** The prompt after the target files. */
  function PatchPromptRest(files: seq<FileEntry>, metadataJson: string): string {
    "\n\nFILE CONTENTS:\n" + FilesSection(files) + "\n\nMETADATA:\n" + Prefix(metadataJson, MetadataLimit)
    + PatchTail
  }

  /** `buildPatchPrompt({logs, gitlabCiConfig, files, metadata, targetFiles})`: the
      sections LOGS, CI CONFIG, TARGET FILES, FILE CONTENTS and METADATA, in this order. */
  function BuildPatchPrompt(logs: string, ciConfig: string, files: seq<FileEntry>, metadataJson: string,
                            targetFiles: string): string {
    PatchPromptHead(logs, ciConfig) + targetFiles + PatchPromptRest(files, metadataJson)
  }

  /** Two file lists that show the same files look the same in the prompt. */
  predicate SameShownFiles(files1: seq<FileEntry>, files2: seq<FileEntry>) {
    |Prefix(files1, MaxPromptFiles)| == |Prefix(files2, MaxPromptFiles)|
    && forall i :: 0 <= i < |Prefix(files1, MaxPromptFiles)| ==>
         files1[i].path == files2[i].path
         && Prefix(files1[i].content, FileLimit) == Prefix(files2[i].content, FileLimit)
  }

  /** The patch prompt reads only the first 15000 characters of the logs, the first 10000
      of the configuration, the first 5000 of the metadata and the shown files. */
  lemma PatchPromptReadsPrefixes(logs1: string, logs2: string, ci1: string, ci2: string,
                                 files1: seq<FileEntry>, files2: seq<FileEntry>,
                                 meta1: string, meta2: string, targets: string)
    requires Prefix(logs1, LogsLimit) == Prefix(logs2, LogsLimit)
    requires Prefix(ci1, ConfigLimit) == Prefix(ci2, ConfigLimit)
    requires Prefix(meta1, MetadataLimit) == Prefix(meta2, MetadataLimit)
    requires SameShownFiles(files1, files2)
    ensures BuildPatchPrompt(logs1, ci1, files1, meta1, targets) == BuildPatchPrompt(logs2, ci2, files2, meta2, targets)
  {
    ShownFilesEqual(files1, files2);
  }

  lemma ShownFilesEqual(files1: seq<FileEntry>, files2: seq<FileEntry>)
    requires SameShownFiles(files1, files2)
    ensures ShownFiles(files1) == ShownFiles(files2)
  {
    var r1, r2 := ShownFiles(files1), ShownFiles(files2);
    assert |r1| == |r2|;
    forall i | 0 <= i < |r1| ensures r1[i] == r2[i] {
      assert r1[i].path == files1[i].path && r2[i].path == files2[i].path;
    }
  }

  lemma PrefixIdempotent<T>(s: seq<T>, n: nat)
    ensures Prefix(Prefix(s, n), n) == Prefix(s, n)
  {
  }

  /** Cutting any input to its limit, or the file list to twelve files, leaves the
      patch prompt as it is. */
  lemma PatchPromptTruncates(logs: string, ciConfig: string, files: seq<FileEntry>, metadataJson: string,
                             targets: string)
    ensures BuildPatchPrompt(logs, ciConfig, files, metadataJson, targets)
         == BuildPatchPrompt(Prefix(logs, LogsLimit), Prefix(ciConfig, ConfigLimit),
                             Prefix(files, MaxPromptFiles), Prefix(metadataJson, MetadataLimit), targets)
  {
    PrefixIdempotent(logs, LogsLimit);
    PrefixIdempotent(ciConfig, ConfigLimit);
    PrefixIdempotent(metadataJson, MetadataLimit);
    PrefixIdempotent(files, MaxPromptFiles);
    PatchPromptReadsPrefixes(logs, Prefix(logs, LogsLimit), ciConfig, Prefix(ciConfig, ConfigLimit),
                             files, Prefix(files, MaxPromptFiles), metadataJson,
                             Prefix(metadataJson, MetadataLimit), targets);
  }

  /** The target files are embedded whole: different target texts give different prompts. */
  lemma PatchPromptTargetsVerbatim(logs: string, ciConfig: string, files: seq<FileEntry>, metadataJson: string,
                                   targets1: string, targets2: string)
    requires BuildPatchPrompt(logs, ciConfig, files, metadataJson, targets1)
          == BuildPatchPrompt(logs, ciConfig, files, metadataJson, targets2)
    ensures targets1 == targets2
  {
    MiddleCancel(PatchPromptHead(logs, ciConfig), targets1, targets2, PatchPromptRest(files, metadataJson));
  }
}
