/** The repository snapshot sent to the AI (backend/src/services/repoContext.service.js):
    the tree listing is filtered to blobs with a path, each file is fetched and kept when
    its content is non-empty and below the size limit, and collection stops at a cap.
    The GitLab calls are parameters: the listing, and the fetch result for each path. */
module RepoContext {
  import opened Wrappers
  import opened Strings

  datatype FileEntry = FileEntry(path: string, content: string)

  /** A node of the tree listing: its `type` and `path` as the listing gives them. */
  datatype TreeNode = TreeNode(nodeType: Option<string>, path: Option<string>)

  /** What listing the tree gives: an array of nodes, some other value, or an error. */
  datatype Listing = Listed(nodes: seq<TreeNode>) | NotAnArray | ListingFailed

  /** What fetching one file gives: its content, or an error. */
  datatype FileFetch = Fetched(content: string) | FetchFailed

  datatype RepoSnapshot = RepoSnapshot(files: seq<FileEntry>, primaryFileContent: string, targetFiles: seq<string>)

  const EmptySnapshot := RepoSnapshot([], "", [])

  const MaxFileLength := 200000
  const MaxFiles := 1000
  const PrimaryPath := ".gitlab-ci.yml"

  /** Only blobs with a (non-empty) path are fetched. */
  predicate Fetchable(node: TreeNode) {
    node.nodeType == Some("blob") && node.path.Some? && node.path.value != ""
  }

  /** Content worth sending: non-empty and shorter than the limit. */
  predicate Keepable(content: string) {
    content != "" && |content| < MaxFileLength
  }

  /** The file one node contributes, if any. */
  function KeptFrom(node: TreeNode, fetch: string -> FileFetch): seq<FileEntry> {
    if Fetchable(node) && fetch(node.path.value).Fetched? && Keepable(fetch(node.path.value).content)
    then [FileEntry(node.path.value, fetch(node.path.value).content)]
    else []
  }

  /** Every file the listing would give without the cap, in tree order. */
  function Kept(nodes: seq<TreeNode>, fetch: string -> FileFetch): (r: seq<FileEntry>)
  {
    if |nodes| == 0 then []
    else Kept(nodes[..|nodes| - 1], fetch) + KeptFrom(nodes[|nodes| - 1], fetch)
  }

  lemma {:induction false} KeptAppend(a: seq<TreeNode>, b: seq<TreeNode>, fetch: string -> FileFetch)
    ensures Kept(a + b, fetch) == Kept(a, fetch) + Kept(b, fetch)
    decreases |b|
  {
    if |b| == 0 {
      assert a + b == a;
    } else {
      var n := |b| - 1;
      assert (a + b)[..|a + b| - 1] == a + b[..n];
      assert (a + b)[|a + b| - 1] == b[n];
      KeptAppend(a, b[..n], fetch);
    }
  }

  /** A file is among those kept exactly when some blob node has its path and the fetch
      of that path gave its content, which is keepable. */
  lemma {:induction false} KeptMember(nodes: seq<TreeNode>, fetch: string -> FileFetch, f: FileEntry)
    ensures f in Kept(nodes, fetch) <==>
      exists i :: 0 <= i < |nodes| && Fetchable(nodes[i]) && nodes[i].path.value == f.path
        && fetch(f.path) == Fetched(f.content) && Keepable(f.content)
  {
    if |nodes| > 0 {
      var n := |nodes| - 1;
      KeptMember(nodes[..n], fetch, f);
      assert forall i :: 0 <= i < n ==> nodes[..n][i] == nodes[i];
      if f in Kept(nodes, fetch) && f !in Kept(nodes[..n], fetch) {
        assert f in KeptFrom(nodes[n], fetch);
      }
    }
  }

  /** Every file kept has a path and keepable content: non-empty, below the size limit. */
  lemma KeptFilesKeepable(nodes: seq<TreeNode>, fetch: string -> FileFetch)
    ensures forall f :: f in Kept(nodes, fetch) ==> f.path != "" && Keepable(f.content)
  {
    forall f | f in Kept(nodes, fetch) ensures f.path != "" && Keepable(f.content) {
      KeptMember(nodes, fetch, f);
    }
  }

  /** The content of the first file at the pipeline-configuration path, or "". */
  function PrimaryContent(files: seq<FileEntry>): (r: string)
    ensures (forall i :: 0 <= i < |files| ==> files[i].path != PrimaryPath) ==> r == ""
    ensures forall i ::
      (0 <= i < |files| && files[i].path == PrimaryPath
       && (forall k :: 0 <= k < i ==> files[k].path != PrimaryPath))
      ==> r == files[i].content
  {
    if |files| == 0 then ""
    else if files[0].path == PrimaryPath then files[0].content
    else
      PrimaryContent(files[1..])
  }

  function Paths(files: seq<FileEntry>): (r: seq<string>)
    ensures |r| == |files| && forall i :: 0 <= i < |files| ==> r[i] == files[i].path
  {
    seq(|files|, i requires 0 <= i < |files| => files[i].path)
  }

  lemma KeptStep(nodes: seq<TreeNode>, i: nat, fetch: string -> FileFetch)
    requires i < |nodes|
    ensures Kept(nodes[..i + 1], fetch) == Kept(nodes[..i], fetch) + KeptFrom(nodes[i], fetch)
  {
    assert nodes[..i + 1][..i] == nodes[..i];
  }

  /** What one node contributes, in the order the loop tests it. */
  lemma KeptFromCases(node: TreeNode, fetch: string -> FileFetch)
    ensures node.nodeType != Some("blob") ==> KeptFrom(node, fetch) == []
    ensures node.path.None? || node.path.value == "" ==> KeptFrom(node, fetch) == []
    ensures Fetchable(node) && fetch(node.path.value).FetchFailed? ==> KeptFrom(node, fetch) == []
    ensures Fetchable(node) && fetch(node.path.value).Fetched? ==>
      KeptFrom(node, fetch) == (if Keepable(fetch(node.path.value).content)
                                then [FileEntry(node.path.value, fetch(node.path.value).content)] else [])
  {
  }

  /** Once the files kept from the first nodes reach the cap, the rest of the listing
      does not change the first `MaxFiles` files. */
  lemma KeptCapped(nodes: seq<TreeNode>, j: nat, fetch: string -> FileFetch)
    requires j <= |nodes| && |Kept(nodes[..j], fetch)| == MaxFiles
    ensures Prefix(Kept(nodes, fetch), MaxFiles) == Kept(nodes[..j], fetch)
  {
    assert nodes == nodes[..j] + nodes[j..];
    KeptAppend(nodes[..j], nodes[j..], fetch);
  }

  /** The files of the snapshot: none for a listing that is not an array. */
  function SnapshotFiles(listing: Listing, fetch: string -> FileFetch): seq<FileEntry> {
    if listing.Listed? then Prefix(Kept(listing.nodes, fetch), MaxFiles) else []
  }

  /** `getRepoSnapshot`: the files are the first `MaxFiles` of those the listing would
      give, the target files are their paths in the same order, and the primary content
      is that of the first pipeline configuration among them. */
  method GetRepoSnapshot(listing: Listing, fetch: string -> FileFetch) returns (snap: RepoSnapshot)
    ensures !listing.Listed? ==> snap == EmptySnapshot
    ensures snap.files == SnapshotFiles(listing, fetch)
    ensures snap.targetFiles == Paths(snap.files)
    ensures snap.primaryFileContent == PrimaryContent(snap.files)
  {
    if !listing.Listed? {
      return EmptySnapshot;
    }
    var nodes := listing.nodes;
    var files: seq<FileEntry> := [];
    for i := 0 to |nodes|
      invariant files == Kept(nodes[..i], fetch)
      invariant |files| < MaxFiles
    {
      KeptStep(nodes, i, fetch);
      var node := nodes[i];
      KeptFromCases(node, fetch);
      if node.nodeType != Some("blob") {
        continue;
      }
      if node.path.None? || node.path.value == "" {
        continue;
      }
      var path := node.path.value;
      var fetched := fetch(path);
      if fetched.FetchFailed? {
        continue;
      }
      if fetched.content != "" && |fetched.content| < MaxFileLength {
        files := files + [FileEntry(path, fetched.content)];
      }
      if |files| >= MaxFiles {
        KeptCapped(nodes, i + 1, fetch);
        break;
      }
    }
    if |files| < MaxFiles {
      assert nodes[..|nodes|] == nodes;
    }
    snap := RepoSnapshot(files, PrimaryContent(files), Paths(files));
  }
}
