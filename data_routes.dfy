/** The result-file download: the requested file path is resolved and must
    lie strictly inside the resolved result directory (400 otherwise) and be
    an existing regular file (404 otherwise).

    Paths are lists of segments. `resolve` is lexical normalisation: empty
    and "." segments vanish, ".." removes the previous segment and stays at
    the root; symbolic links are not followed. */
module DataRoutes {
  import opened Wrappers
  import opened Http

  /** A path as pathlib holds it, already split at the separators: absolute
      or relative, and its segments. */
  datatype PathArg = PathArg(absolute: bool, segments: seq<string>)

  /** The `/` operator: an absolute right-hand side replaces the left. */
  function Join(a: PathArg, b: PathArg): (r: PathArg)
    ensures b.absolute ==> r == b
    ensures !b.absolute ==> r.absolute == a.absolute && r.segments == a.segments + b.segments
  {
    if b.absolute then b else PathArg(a.absolute, a.segments + b.segments)
  }

  function Name(s: string): PathArg {
    PathArg(false, [s])
  }

  /** A normalised path: no empty, "." or ".." segment. */
  predicate Clean(segments: seq<string>) {
    forall i :: 0 <= i < |segments| ==> segments[i] != "" && segments[i] != "." && segments[i] != ".."
  }

  function Step(acc: seq<string>, segment: string): (r: seq<string>)
    requires Clean(acc)
    ensures Clean(r)
  {
    if segment == "" || segment == "." then acc
    else if segment == ".." then (if acc == [] then [] else acc[..|acc| - 1])
    else acc + [segment]
  }

  function NormalizeFrom(acc: seq<string>, rest: seq<string>): (r: seq<string>)
    requires Clean(acc)
    ensures Clean(r)
    decreases |rest|
  {
    if rest == [] then acc else NormalizeFrom(Step(acc, rest[0]), rest[1..])
  }

  /** `resolve()` without symbolic links: a relative path is first put under
      the working directory `cwd`. */
  function Resolve(p: PathArg, cwd: seq<string>): (r: seq<string>)
    requires Clean(cwd)
    ensures Clean(r)
  {
    NormalizeFrom([], if p.absolute then p.segments else cwd + p.segments)
  }

  /** `base in path.parents`: base is a proper prefix of path. */
  predicate ProperAncestor(base: seq<string>, path: seq<string>) {
    |base| < |path| && path[..|base|] == base
  }

  /** The resolved result directory. */
  function BaseDir(dataRoot: PathArg, cwd: seq<string>): seq<string>
    requires Clean(cwd)
  {
    Resolve(Join(dataRoot, Name("result")), cwd)
  }

  /** The resolved folder of a project's results. */
  function FolderPath(dataRoot: PathArg, cwd: seq<string>, projectId: PathArg, folderName: PathArg): seq<string>
    requires Clean(cwd)
  {
    Resolve(Join(Join(Join(dataRoot, Name("result")), projectId), folderName), cwd)
  }

  /** The file resolved inside the resolved folder. */
  function FilePath(dataRoot: PathArg, cwd: seq<string>, projectId: PathArg, folderName: PathArg, fileName: PathArg)
    : seq<string>
    requires Clean(cwd)
  {
    Resolve(Join(PathArg(true, FolderPath(dataRoot, cwd, projectId, folderName)), fileName), cwd)
  }

  /** `download_result_file`: containment first, then existence. `files`
      holds the resolved paths of the existing regular files. */
  function DownloadResultFile(dataRoot: PathArg, cwd: seq<string>, projectId: PathArg,
                              folderName: PathArg, fileName: PathArg, files: set<seq<string>>)
    : (r: Result<seq<string>, HttpError>)
    requires Clean(cwd)
    ensures r.Failure? ==> r.error == BadRequest || r.error == NotFound
    ensures r == Failure(BadRequest) <==>
              !ProperAncestor(BaseDir(dataRoot, cwd), FilePath(dataRoot, cwd, projectId, folderName, fileName))
    ensures r.Success? ==>
              && r.value == FilePath(dataRoot, cwd, projectId, folderName, fileName)
              && ProperAncestor(BaseDir(dataRoot, cwd), r.value)
              && r.value in files
    ensures ProperAncestor(BaseDir(dataRoot, cwd), FilePath(dataRoot, cwd, projectId, folderName, fileName)) &&
            FilePath(dataRoot, cwd, projectId, folderName, fileName) in files ==>
              r == Success(FilePath(dataRoot, cwd, projectId, folderName, fileName))
  {
    var baseDir := BaseDir(dataRoot, cwd);
    var filePath := FilePath(dataRoot, cwd, projectId, folderName, fileName);
    if !ProperAncestor(baseDir, filePath) then Failure(BadRequest)
    else if filePath !in files then Failure(NotFound)
    else Success(filePath)
  }

  /** A contained path that is not an existing file is a 404. */
  lemma MissingFileIsNotFound(dataRoot: PathArg, cwd: seq<string>, projectId: PathArg,
                              folderName: PathArg, fileName: PathArg, files: set<seq<string>>)
    requires Clean(cwd)
    requires ProperAncestor(BaseDir(dataRoot, cwd), FilePath(dataRoot, cwd, projectId, folderName, fileName))
    requires FilePath(dataRoot, cwd, projectId, folderName, fileName) !in files
    ensures DownloadResultFile(dataRoot, cwd, projectId, folderName, fileName, files) == Failure(NotFound)
  {
  }

  /** A path resolving to the result directory itself is rejected, whatever
      exists. */
  lemma BaseItselfRejected(dataRoot: PathArg, cwd: seq<string>, projectId: PathArg,
                           folderName: PathArg, fileName: PathArg, files: set<seq<string>>)
    requires Clean(cwd)
    requires FilePath(dataRoot, cwd, projectId, folderName, fileName) == BaseDir(dataRoot, cwd)
    ensures DownloadResultFile(dataRoot, cwd, projectId, folderName, fileName, files) == Failure(BadRequest)
  {
  }

  lemma {:induction false} NormalizeCleanSuffix(acc: seq<string>, t: seq<string>)
    requires Clean(acc) && Clean(t)
    ensures NormalizeFrom(acc, t) == acc + t
    decreases |t|
  {
    if t != [] {
      assert Step(acc, t[0]) == acc + [t[0]];
      assert Clean(t[1..]) by {
        forall i | 0 <= i < |t[1..]|
          ensures t[1..][i] != "" && t[1..][i] != "." && t[1..][i] != ".."
        {
          assert t[1..][i] == t[i + 1];
        }
      }
      NormalizeCleanSuffix(acc + [t[0]], t[1..]);
      assert acc + [t[0]] + t[1..] == acc + t;
    }
  }

  lemma {:induction false} NormalizeAppend(acc: seq<string>, s: seq<string>, t: seq<string>)
    requires Clean(acc)
    ensures NormalizeFrom(acc, s + t) == NormalizeFrom(NormalizeFrom(acc, s), t)
    decreases |s|
  {
    if s != [] {
      assert (s + t)[0] == s[0];
      assert (s + t)[1..] == s[1..] + t;
      NormalizeAppend(Step(acc, s[0]), s[1..], t);
    } else {
      assert s + t == t;
    }
  }

  /** Normalising a path followed by clean segments keeps those segments. */
  lemma NormalizeThenClean(a: seq<string>, t: seq<string>)
    requires Clean(t)
    ensures NormalizeFrom([], a + t) == NormalizeFrom([], a) + t
  {
    NormalizeAppend([], a, t);
    NormalizeCleanSuffix(NormalizeFrom([], a), t);
  }

  lemma CleanConcat(s: seq<string>, t: seq<string>)
    requires Clean(s) && Clean(t)
    ensures Clean(s + t)
  {
    forall i | 0 <= i < |s + t|
      ensures (s + t)[i] != "" && (s + t)[i] != "." && (s + t)[i] != ".."
    {
      if i < |s| { assert (s + t)[i] == s[i]; } else { assert (s + t)[i] == t[i - |s|]; }
    }
  }

  /** With plain names the folder is the result directory followed by the
      project and folder segments. */
  lemma FolderUnderBase(dataRoot: PathArg, cwd: seq<string>, projectId: PathArg, folderName: PathArg)
    requires Clean(cwd)
    requires !projectId.absolute && !folderName.absolute
    requires Clean(projectId.segments) && Clean(folderName.segments)
    ensures FolderPath(dataRoot, cwd, projectId, folderName)
            == BaseDir(dataRoot, cwd) + (projectId.segments + folderName.segments)
  {
    var x := (if dataRoot.absolute then dataRoot.segments else cwd + dataRoot.segments) + ["result"];
    var pf := projectId.segments + folderName.segments;
    assert cwd + (dataRoot.segments + ["result"]) == x || dataRoot.absolute;
    assert BaseDir(dataRoot, cwd) == NormalizeFrom([], x);
    var j := Join(Join(Join(dataRoot, Name("result")), projectId), folderName);
    assert j.segments == dataRoot.segments + ["result"] + projectId.segments + folderName.segments;
    assert (if j.absolute then j.segments else cwd + j.segments) == x + pf;
    CleanConcat(projectId.segments, folderName.segments);
    NormalizeThenClean(x, pf);
  }

  /** Plain names (relative, no empty, "." or ".." segment) always stay
      inside: the file path is the result directory followed by the three
      parameters' segments. */
  lemma PlainNamesStayInside(dataRoot: PathArg, cwd: seq<string>, projectId: PathArg,
                             folderName: PathArg, fileName: PathArg)
    requires Clean(cwd)
    requires !projectId.absolute && !folderName.absolute && !fileName.absolute
    requires Clean(projectId.segments) && Clean(folderName.segments) && Clean(fileName.segments)
    requires fileName.segments != []
    ensures FilePath(dataRoot, cwd, projectId, folderName, fileName)
            == BaseDir(dataRoot, cwd) + projectId.segments + folderName.segments + fileName.segments
    ensures ProperAncestor(BaseDir(dataRoot, cwd), FilePath(dataRoot, cwd, projectId, folderName, fileName))
  {
    var base := BaseDir(dataRoot, cwd);
    var folder := FolderPath(dataRoot, cwd, projectId, folderName);
    var n := fileName.segments;
    FolderUnderBase(dataRoot, cwd, projectId, folderName);
    NormalizeThenClean(folder, n);
    NormalizeCleanSuffix([], folder);
    assert [] + folder == folder;
    assert FilePath(dataRoot, cwd, projectId, folderName, fileName) == folder + n;
    assert folder + n == base + projectId.segments + folderName.segments + n;
    ExtensionIsBelow(base, projectId.segments + folderName.segments + n);
  }

  lemma ExtensionIsBelow(base: seq<string>, rest: seq<string>)
    requires rest != []
    ensures ProperAncestor(base, base + rest)
  {
    assert (base + rest)[..|base|] == base;
  }

  /** One ".." is enough to leave the result directory, and each route
      parameter carries a single segment: with the data root at /data, the
      project id "..", folder "etc" and file name "passwd" resolve to
      /data/etc/passwd, which is rejected with 400 even though it exists. */
  lemma TraversalIsRejected()
    ensures var root := PathArg(true, ["data"]);
            && FilePath(root, [], Name(".."), Name("etc"), Name("passwd")) == ["data", "etc", "passwd"]
            && DownloadResultFile(root, [], Name(".."), Name("etc"), Name("passwd"), {["data", "etc", "passwd"]})
               == Failure(BadRequest)
  {
    TraversalPaths();
    assert ["data", "etc", "passwd"][..2] == ["data", "etc"];
    assert "etc" != "result";
  }

  lemma TraversalPaths()
    ensures BaseDir(PathArg(true, ["data"]), []) == ["data", "result"]
    ensures FilePath(PathArg(true, ["data"]), [], Name(".."), Name("etc"), Name("passwd"))
            == ["data", "etc", "passwd"]
  {
    TraversalBase();
    ClimbOut();
    var folder := FolderPath(PathArg(true, ["data"]), [], Name(".."), Name("etc"));
    assert folder == ["data", "etc"];
    assert Join(PathArg(true, folder), Name("passwd")) == PathArg(true, ["data", "etc", "passwd"]);
    assert Clean(["data", "etc", "passwd"]);
    NormalizeCleanSuffix([], ["data", "etc", "passwd"]);
    assert [] + ["data", "etc", "passwd"] == ["data", "etc", "passwd"];
  }

  lemma TraversalBase()
    ensures BaseDir(PathArg(true, ["data"]), []) == ["data", "result"]
  {
    assert Clean(["data", "result"]);
    NormalizeCleanSuffix([], ["data", "result"]);
  }

  lemma ClimbOut()
    ensures FolderPath(PathArg(true, ["data"]), [], Name(".."), Name("etc")) == ["data", "etc"]
  {
    var n := ["data", "result", "..", "etc"];
    assert Join(Join(Join(PathArg(true, ["data"]), Name("result")), Name("..")), Name("etc")) == PathArg(true, n);
    assert Step([], "data") == ["data"];
    assert Step(["data"], "result") == ["data", "result"];
    assert Step(["data", "result"], "..") == ["data"];
    assert Step(["data"], "etc") == ["data", "etc"];
    assert NormalizeFrom([], n) == NormalizeFrom(["data"], n[1..]);
    assert n[1..][1..] == n[2..] && n[2..][1..] == n[3..] && n[3..][1..] == [];
    assert NormalizeFrom(["data"], n[1..]) == NormalizeFrom(["data", "result"], n[2..]);
    assert NormalizeFrom(["data", "result"], n[2..]) == NormalizeFrom(["data"], n[3..]);
    assert NormalizeFrom(["data"], n[3..]) == NormalizeFrom(["data", "etc"], []);
  }
}
