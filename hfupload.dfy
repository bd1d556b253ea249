/**
 * Uploading a run's results to a Hugging Face dataset repository: the checks on the repo id,
 * the files chosen, and the path each one goes to. The remote side is a map from the paths of
 * the repository's files to the local file each was uploaded from.
 */
module HfUpload {
  import opened Wrappers
  import opened Strings
  import Paths
  import Seqs

  // ---------------------------------------------------------------------------------------
  // The repo id

  /** What `HfApi().dataset_info(repo_id)` does: the dataset repo exists, it does not, or the call fails otherwise. */
  datatype Lookup = Found | NotFound | LookupError(message: string)

  const Suffix := "-logs-and-scores"

  /** `len(repo_id.split("/")) == 2` */
  predicate OneSlash(id: string)
  {
    CountChar(id, '/') == 1
  }

  /** `validate_repo_id(repo_id)`, with the remote lookup given as `lookup`. */
  function ValidateRepoId(id: string, lookup: Lookup): (r: Result<()>)
    ensures r.Success? <==> OneSlash(id) && EndsWith(id, Suffix) && lookup == Found
  {
    if '/' !in id || CountChar(id, '/') + 1 != 2 then
      Failure("ValueError: invalid repo ID format: " + id + ", must be <namespace>/<name>")
    else if !EndsWith(id, Suffix) then
      Failure("ValueError: repo name must end with '-logs-and-scores': " + id)
    else
      match lookup
      case Found => Success(())
      case NotFound => Failure("ValueError: dataset repo not found: " + id)
      case LookupError(e) => Failure("ValueError: error while checking repo " + id + ": " + e)
  }

  /** Both format checks come before the remote lookup: an id they reject is rejected whatever the lookup does. */
  lemma FormatChecksFirst(id: string, l1: Lookup, l2: Lookup)
    requires !OneSlash(id) || !EndsWith(id, Suffix)
    ensures ValidateRepoId(id, l1).Failure?
    ensures ValidateRepoId(id, l1) == ValidateRepoId(id, l2)
  {
  }

  lemma {:induction false} CountCharConcat(a: string, b: string, c: char)
    ensures CountChar(a + b, c) == CountChar(a, c) + CountChar(b, c)
  {
    if a != [] {
      assert (a + b)[0] == a[0] && (a + b)[1..] == a[1..] + b;
      CountCharConcat(a[1..], b, c);
    } else {
      assert a + b == b;
    }
  }

  /** An id has exactly one "/" exactly when it is `<namespace>/<name>` with no "/" in either part. */
  lemma {:induction false} RepoIdSplit(id: string) returns (ns: string, name: string)
    requires OneSlash(id)
    ensures id == ns + "/" + name && '/' !in ns && '/' !in name
  {
    if id[0] == '/' {
      ns, name := [], id[1..];
      assert id == [id[0]] + id[1..];
    } else {
      var rest, n := RepoIdSplit(id[1..]);
      ns, name := [id[0]] + rest, n;
      assert id == [id[0]] + id[1..];
    }
  }

  lemma RepoIdJoin(ns: string, name: string)
    requires '/' !in ns && '/' !in name
    ensures OneSlash(ns + "/" + name)
  {
    CountCharConcat(ns, "/", '/');
    CountCharConcat(ns + "/", name, '/');
  }

  // ---------------------------------------------------------------------------------------
  // Where the files go

  /** The variant's path segment: "default" for none or "", stripped, with "/", "\" and ".." replaced by "_". */
  function VariantSegment(variant: Option<string>): string
  {
    var v := if variant.None? || variant.value == [] then "default" else variant.value;
    Replace(Replace(Replace(Strip(v), "/", "_"), "\\", "_"), "..", "_")
  }

  /** The variant segment holds no separator and no "..". */
  lemma VariantSegmentSafe(variant: Option<string>)
    ensures var seg := VariantSegment(variant);
      '/' !in seg && '\\' !in seg && !Contains(seg, "..")
  {
    var v := if variant.None? || variant.value == [] then "default" else variant.value;
    var s1 := Replace(Strip(v), "/", "_");
    ReplaceRemovesChar(Strip(v), '/', "_");
    var s2 := Replace(s1, "\\", "_");
    ReplaceKeepsOut(s1, "\\", "_", '/');
    ReplaceRemovesChar(s1, '\\', "_");
    ReplaceKeepsOut(s2, "..", "_", '/');
    ReplaceKeepsOut(s2, "..", "_", '\\');
    ReplaceDotDotNotContained(s2);
  }

  /** Text in which a pattern never occurs is left as it is by `replace`. */
  lemma {:induction false} ReplaceAbsent(s: string, p: string, r: string)
    requires p != [] && forall j :: !OccursAt(s, p, j)
    ensures Replace(s, p, r) == s
    decreases |s|
  {
    if |s| >= |p| {
      assert !OccursAt(s, p, 0);
      forall j ensures !OccursAt(s[1..], p, j) {
        if j >= 0 {
          OccursShift(s, p, 1, j);
        }
      }
      ReplaceAbsent(s[1..], p, r);
      assert s == [s[0]] + s[1..];
    }
  }

  lemma OccursChar(s: string, c: char, j: int)
    ensures OccursAt(s, [c], j) ==> 0 <= j < |s| && s[j] == c
  {
    if OccursAt(s, [c], j) {
      assert s[j..j + 1][0] == s[j];
    }
  }

  lemma CharNotOccurs(s: string, c: char)
    requires c !in s
    ensures forall j :: !OccursAt(s, [c], j)
  {
    forall j ensures !OccursAt(s, [c], j) {
      OccursChar(s, c, j);
    }
  }

  /** A variant that is already a safe, stripped, non-empty segment is used as it is. */
  lemma VariantSegmentKeeps(v: string)
    requires v != [] && Strip(v) == v && '/' !in v && '\\' !in v && !Contains(v, "..")
    ensures VariantSegment(Some(v)) == v
  {
    CharNotOccurs(v, '/');
    ReplaceAbsent(v, "/", "_");
    CharNotOccurs(v, '\\');
    ReplaceAbsent(v, "\\", "_");
    assert IndexOf(v, "..").None?;
    ReplaceAbsent(v, "..", "_");
  }

  /** "default" is itself a safe segment. */
  lemma DefaultIsSafe()
    ensures var d := "default"; Strip(d) == d && '/' !in d && '\\' !in d && !Contains(d, "..")
  {
    var d := "default";
    StripOfStripped(d);
    assert forall k :: 0 <= k < |d| ==> d[k] != '.';
    forall j ensures !OccursAt(d, "..", j) {
      if 0 <= j <= |d| - 2 {
        assert d[j..j + 2][0] == d[j];
      }
    }
  }

  /** No variant and the empty variant both go under "default". */
  lemma VariantSegmentDefault()
    ensures VariantSegment(None) == "default" && VariantSegment(Some("")) == "default"
  {
    DefaultIsSafe();
    hide Strip, Contains;
    VariantSegmentKeeps("default");
    assert VariantSegment(None) == VariantSegment(Some("default"));
  }

  /** The model name's path segment: every "/" becomes "__". */
  function ModelSegment(modelName: string): (seg: string)
    ensures '/' !in seg
  {
    ReplaceRemovesChar(modelName, '/', "__");
    Replace(modelName, "/", "__")
  }

  /** `f"results/{safe_model_name}/{variant_path}"` */
  function TargetDir(modelName: string, variant: Option<string>): string
  {
    "results/" + ModelSegment(modelName) + "/" + VariantSegment(variant)
  }

  /** Where a local file goes in the repository: the target directory and the file's base name. */
  function PathInRepo(target: string, file: string): string
  {
    target + "/" + Paths.Basename(file)
  }

  /** The path `HfFileSystem` checks for a file of the repository. */
  function RemotePath(id: string, inRepo: string): string
  {
    "datasets/" + id + "/" + inRepo
  }

  lemma SlashCount(a: string, b: string)
    ensures CountChar(a + "/" + b, '/') == CountChar(a, '/') + 1 + CountChar(b, '/')
  {
    CountCharConcat(a, "/", '/');
    CountCharConcat(a + "/", b, '/');
  }

  lemma StartsWithAppend(s: string, t: string, x: string)
    requires StartsWith(s, t)
    ensures StartsWith(s + x, t)
  {
    assert (s + x)[..|t|] == s[..|t|];
  }

  /** `"results/"` holds one "/". */
  lemma ResultsSlash()
    ensures CountChar("results/", '/') == 1
  {
    assert "results/" == "results" + "/";
    assert '/' !in "results";
    CountCharConcat("results", "/", '/');
  }

  /** Every file lands exactly three directories down: `results`, the model segment and the variant segment. */
  lemma PathInRepoDepth(modelName: string, variant: Option<string>, file: string)
    ensures CountChar(PathInRepo(TargetDir(modelName, variant), file), '/') == 3
  {
    var m, v, b := ModelSegment(modelName), VariantSegment(variant), Paths.Basename(file);
    VariantSegmentSafe(variant);
    var pre := "results/" + m;
    ResultsSlash();
    CountCharConcat("results/", m, '/');
    SlashCount(pre, v);
    SlashCount(pre + "/" + v, b);
  }

  /** That directory is the model's own directory under `results`. */
  lemma PathInRepoUnder(modelName: string, variant: Option<string>, file: string)
    ensures StartsWith(PathInRepo(TargetDir(modelName, variant), file), "results/" + ModelSegment(modelName) + "/")
  {
    var pre := "results/" + ModelSegment(modelName) + "/";
    var v, b := VariantSegment(variant), Paths.Basename(file);
    assert pre[..|pre|] == pre;
    StartsWithAppend(pre, pre, v);
    StartsWithAppend(pre + v, pre, "/");
    StartsWithAppend(pre + v + "/", pre, b);
  }

  // ---------------------------------------------------------------------------------------
  // Which files go

  /** `os.path.join(results_dir, f"results_{timestamp}.json")` */
  function ResultsJson(dir: string, ts: string): string
  {
    Paths.Join(dir, "results_" + ts + ".json")
  }

  /** The paths `glob` matches for `os.path.join(results_dir, f"eval_results_{timestamp}_run*.jsonl")`. */
  predicate IsRunFile(dir: string, ts: string, p: string)
  {
    var pre := Paths.Join(dir, "eval_results_" + ts + "_run");
    |pre| + 6 <= |p| && p[..|pre|] == pre && p[|p| - 6..] == ".jsonl" && '/' !in p[|pre|..]
  }

  /** `run_files` is what `glob` returns: each matching local file once, in some order. */
  ghost predicate Globbed(dir: string, ts: string, local: set<string>, runFiles: seq<string>)
  {
    Seqs.Distinct(runFiles) && forall p :: p in runFiles <==> p in local && IsRunFile(dir, ts, p)
  }

  /** `files_to_upload`: the report, if it exists, then the run logs `glob` found. */
  function Selected(dir: string, ts: string, local: set<string>, runFiles: seq<string>): seq<string>
  {
    (if ResultsJson(dir, ts) in local then [ResultsJson(dir, ts)] else []) + runFiles
  }

  /** `os.path.join(dir, b)` for a `b` that does not start with "/" is `b` behind a prefix fixed by `dir`. */
  function JoinPrefix(dir: string): string
  {
    if dir == [] || dir[|dir| - 1] == '/' then dir else dir + "/"
  }

  lemma JoinForm(dir: string, b: string)
    requires b != [] && b[0] != '/'
    ensures Paths.Join(dir, b) == JoinPrefix(dir) + b
  {
  }

  /** The report is never taken for a run log. */
  lemma ResultsJsonNotRunFile(dir: string, ts: string)
    ensures !IsRunFile(dir, ts, ResultsJson(dir, ts))
  {
    var pfx := JoinPrefix(dir);
    JoinForm(dir, "results_" + ts + ".json");
    JoinForm(dir, "eval_results_" + ts + "_run");
    var p := ResultsJson(dir, ts);
    var pre := Paths.Join(dir, "eval_results_" + ts + "_run");
    assert |p| < |pre|;
  }

  /** The files chosen are the existing report and the existing run logs of `ts`, each once. */
  lemma SelectedFiles(dir: string, ts: string, local: set<string>, runFiles: seq<string>)
    requires Globbed(dir, ts, local, runFiles)
    ensures var files := Selected(dir, ts, local, runFiles);
      Seqs.Distinct(files) &&
      forall p :: p in files <==> p in local && (p == ResultsJson(dir, ts) || IsRunFile(dir, ts, p))
  {
    var r := ResultsJson(dir, ts);
    ResultsJsonNotRunFile(dir, ts);
    var files := Selected(dir, ts, local, runFiles);
    var head := if r in local then [r] else [];
    assert files == head + runFiles;
    assert r !in runFiles;
    hide ResultsJson, IsRunFile, Selected, Paths.Join;
    if r in local {
      Seqs.DistinctPrepend(r, runFiles);
    } else {
      assert files == runFiles;
    }
    assert forall p :: p in files <==> p in head || p in runFiles;
  }

  // ---------------------------------------------------------------------------------------
  // The upload loop

  /** `f"datasets/{repo_id}/{target_dir}/{os.path.basename(file_path)}"` */
  function Destination(id: string, target: string, file: string): string
  {
    RemotePath(id, PathInRepo(target, file))
  }

  /** The remote path each file goes to. */
  function Destinations(files: seq<string>, id: string, target: string): (ds: seq<string>)
    ensures |ds| == |files| && forall j :: 0 <= j < |files| ==> ds[j] == Destination(id, target, files[j])
  {
    seq(|files|, j requires 0 <= j < |files| => Destination(id, target, files[j]))
  }

  /**
   * Uploading `files[..n]` in order into `repo`, file `j` to `dests[j]`: a file whose remote path
   * exists is skipped and never overwritten; `sent(f)` says whether `api.upload_file` succeeds for
   * `f`, and the first failure is re-raised.
   */
  function Pushed(files: seq<string>, dests: seq<string>, n: nat, repo: map<string, string>, sent: string -> bool)
    : (Result<()>, map<string, string>)
    requires n <= |files| == |dests|
  {
    if n == 0 then (Success(()), repo)
    else
      var prev := Pushed(files, dests, n - 1, repo, sent);
      if prev.0.Failure? || dests[n - 1] in prev.1 then prev
      else if !sent(files[n - 1]) then (Failure("upload to Hugging Face failed: " + files[n - 1]), prev.1)
      else (prev.0, prev.1[dests[n - 1] := files[n - 1]])
  }

  /** `upload_results(repo_id, variant, model_name, results_dir, timestamp)` against the repository `repo0`. */
  function Upload(id: string, variant: Option<string>, modelName: string, dir: string, ts: string, lookup: Lookup,
                  local: set<string>, runFiles: seq<string>, repo0: map<string, string>, sent: string -> bool)
    : (Result<()>, map<string, string>)
  {
    match ValidateRepoId(id, lookup)
    case Failure(e) => (Failure(e), repo0)
    case Success(_) =>
      var files := Selected(dir, ts, local, runFiles);
      if files == [] then (Success(()), repo0)
      else Pushed(files, Destinations(files, id, TargetDir(modelName, variant)), |files|, repo0, sent)
  }

  /** The loop of `upload_results` over the chosen files, with its skips. */
  method PushFiles(filesToUpload: seq<string>, id: string, targetDir: string, repo0: map<string, string>,
                   sent: string -> bool)
    returns (r: Result<()>, repo: map<string, string>)
    ensures (r, repo) == Pushed(filesToUpload, Destinations(filesToUpload, id, targetDir), |filesToUpload|, repo0, sent)
  {
    ghost var dests := Destinations(filesToUpload, id, targetDir);
    assert Pushed(filesToUpload, dests, 0, repo0, sent) == (Success(()), repo0);
    hide Destination, Pushed;
    r, repo := Success(()), repo0;
    for i := 0 to |filesToUpload|
      invariant Pushed(filesToUpload, dests, i, repo0, sent) == (Success(()), repo)
    {
      var filePath := filesToUpload[i];
      var remote := Destination(id, targetDir, filePath);
      PushedStep(filesToUpload, dests, i, repo0, sent, repo);
      assert dests[i] == remote;
      if remote !in repo {
        if !sent(filePath) {
          r := Failure("upload to Hugging Face failed: " + filePath);
          PushedStops(filesToUpload, dests, i + 1, |filesToUpload|, repo0, sent);
          return;
        }
        repo := repo[remote := filePath];
      }
    }
  }

  /** The imperative `upload_results`: the id check, the list of files, then the loop. */
  method UploadResults(id: string, variant: Option<string>, modelName: string, dir: string, ts: string,
                       lookup: Lookup, local: set<string>, runFiles: seq<string>, repo0: map<string, string>,
                       sent: string -> bool)
    returns (r: Result<()>, repo: map<string, string>)
    ensures (r, repo) == Upload(id, variant, modelName, dir, ts, lookup, local, runFiles, repo0, sent)
  {
    var valid := ValidateRepoId(id, lookup);
    if valid.Failure? {
      return Failure(valid.error), repo0;
    }
    var filesToUpload: seq<string> := [];
    var resultsJson := ResultsJson(dir, ts);
    if resultsJson in local {
      filesToUpload := filesToUpload + [resultsJson];
    }
    filesToUpload := filesToUpload + runFiles;
    assert filesToUpload == Selected(dir, ts, local, runFiles);
    if filesToUpload == [] {
      return Success(()), repo0;
    }
    r, repo := PushFiles(filesToUpload, id, TargetDir(modelName, variant), repo0, sent);
  }

  /** One turn of the upload loop after `i` files went through without an error. */
  lemma PushedStep(files: seq<string>, dests: seq<string>, i: nat, repo0: map<string, string>, sent: string -> bool,
                   repo: map<string, string>)
    requires i < |files| == |dests| && Pushed(files, dests, i, repo0, sent) == (Success(()), repo)
    ensures Pushed(files, dests, i + 1, repo0, sent) ==
      if dests[i] in repo then (Success(()), repo)
      else if !sent(files[i]) then (Failure("upload to Hugging Face failed: " + files[i]), repo)
      else (Success(()), repo[dests[i] := files[i]])
  {
  }

  /** Once an upload has failed, later files change nothing. */
  lemma {:induction false} PushedStops(files: seq<string>, dests: seq<string>, m: nat, n: nat,
                                       repo: map<string, string>, sent: string -> bool)
    requires m <= n <= |files| == |dests| && Pushed(files, dests, m, repo, sent).0.Failure?
    ensures Pushed(files, dests, n, repo, sent) == Pushed(files, dests, m, repo, sent)
    decreases n - m
  {
    if m < n {
      PushedStops(files, dests, m, n - 1, repo, sent);
    }
  }

  /** The loop never overwrites: every remote file keeps the upload it had. */
  lemma {:induction false} PushedKeeps(files: seq<string>, dests: seq<string>, n: nat,
                                       repo: map<string, string>, sent: string -> bool)
    requires n <= |files| == |dests|
    ensures var after := Pushed(files, dests, n, repo, sent).1;
      forall k :: k in repo ==> k in after && after[k] == repo[k]
  {
    if n > 0 {
      PushedKeeps(files, dests, n - 1, repo, sent);
    }
  }

  /** Every remote file added is the destination of one of the files, uploaded from that file. */
  lemma {:induction false} PushedAdds(files: seq<string>, dests: seq<string>, n: nat,
                                      repo: map<string, string>, sent: string -> bool)
    requires n <= |files| == |dests|
    ensures var after := Pushed(files, dests, n, repo, sent).1;
      forall k :: k in after && k !in repo ==> exists j :: 0 <= j < n && dests[j] == k && after[k] == files[j]
  {
    if n > 0 {
      PushedAdds(files, dests, n - 1, repo, sent);
      var prev := Pushed(files, dests, n - 1, repo, sent).1;
      var after := Pushed(files, dests, n, repo, sent).1;
      forall k | k in after && k !in repo
        ensures exists j :: 0 <= j < n && dests[j] == k && after[k] == files[j]
      {
        if k in prev {
          var j :| 0 <= j < n - 1 && dests[j] == k && prev[k] == files[j];
          assert after[k] == prev[k];
        } else {
          assert dests[n - 1] == k && after[k] == files[n - 1];
        }
      }
    }
  }

  /** When the loop succeeds, every file is in the repository, uploaded now or there before. */
  lemma {:induction false} PushedAll(files: seq<string>, dests: seq<string>, n: nat,
                                     repo: map<string, string>, sent: string -> bool)
    requires n <= |files| == |dests| && Pushed(files, dests, n, repo, sent).0.Success?
    ensures forall j :: 0 <= j < n ==> dests[j] in Pushed(files, dests, n, repo, sent).1
  {
    if n > 0 {
      PushedAll(files, dests, n - 1, repo, sent);
      PushedGrows(files, dests, n - 1, repo, sent);
    }
  }

  lemma PushedGrows(files: seq<string>, dests: seq<string>, n: nat, repo: map<string, string>, sent: string -> bool)
    requires n < |files| == |dests|
    ensures Pushed(files, dests, n, repo, sent).1.Keys <= Pushed(files, dests, n + 1, repo, sent).1.Keys
  {
  }

  /** It fails exactly when some file it had to send could not be sent. */
  lemma {:induction false} PushedFails(files: seq<string>, dests: seq<string>, n: nat,
                                       repo: map<string, string>, sent: string -> bool)
    requires n <= |files| == |dests|
    ensures Pushed(files, dests, n, repo, sent).0.Failure? ==> exists j :: 0 <= j < n && !sent(files[j])
    ensures (forall j :: 0 <= j < n ==> sent(files[j])) ==> Pushed(files, dests, n, repo, sent).0.Success?
  {
    if n > 0 {
      PushedFails(files, dests, n - 1, repo, sent);
    }
  }

  // ---------------------------------------------------------------------------------------
  // Properties of the whole

  /** The repo id is checked first: if it is rejected, nothing is uploaded. */
  lemma UploadValidatesFirst(id: string, variant: Option<string>, modelName: string, dir: string, ts: string,
                             lookup: Lookup, local: set<string>, runFiles: seq<string>, repo0: map<string, string>,
                             sent: string -> bool)
    requires ValidateRepoId(id, lookup).Failure?
    ensures Upload(id, variant, modelName, dir, ts, lookup, local, runFiles, repo0, sent) ==
      (Failure(ValidateRepoId(id, lookup).error), repo0)
  {
  }

  /** `glob` finds nothing exactly when no local file is a run log of `ts`. */
  lemma GlobEmpty(dir: string, ts: string, local: set<string>, runFiles: seq<string>)
    requires Globbed(dir, ts, local, runFiles)
    ensures runFiles == [] <==> forall p :: p in local ==> !IsRunFile(dir, ts, p)
  {
    if runFiles != [] {
      assert runFiles[0] in runFiles;
    }
  }

  /** Without a report and without run logs it returns without uploading anything. */
  lemma UploadNothing(id: string, variant: Option<string>, modelName: string, dir: string, ts: string,
                      local: set<string>, runFiles: seq<string>, repo0: map<string, string>, sent: string -> bool)
    requires Globbed(dir, ts, local, runFiles)
    requires forall p :: p in local ==> p != ResultsJson(dir, ts) && !IsRunFile(dir, ts, p)
    requires ValidateRepoId(id, Found).Success?
    ensures Upload(id, variant, modelName, dir, ts, Found, local, runFiles, repo0, sent) == (Success(()), repo0)
  {
    GlobEmpty(dir, ts, local, runFiles);
  }

  /** The report or a run log of `ts` that exists locally. */
  predicate Uploadable(dir: string, ts: string, local: set<string>, f: string)
  {
    f in local && (f == ResultsJson(dir, ts) || IsRunFile(dir, ts, f))
  }

  /**
   * An upload leaves every existing remote file as it was, and adds only the report and the run
   * logs of `ts`, each at `results/<model>/<variant>/<basename>` and uploaded from that file.
   */
  lemma UploadKeeps(id: string, variant: Option<string>, modelName: string, dir: string, ts: string,
                    lookup: Lookup, local: set<string>, runFiles: seq<string>, repo0: map<string, string>,
                    sent: string -> bool)
    requires Globbed(dir, ts, local, runFiles)
    ensures var after := Upload(id, variant, modelName, dir, ts, lookup, local, runFiles, repo0, sent).1;
      (forall k :: k in repo0 ==> k in after && after[k] == repo0[k]) &&
      (forall k :: k in after && k !in repo0 ==>
        Uploadable(dir, ts, local, after[k]) && k == RemotePath(id, PathInRepo(TargetDir(modelName, variant), after[k])))
  {
    var files := Selected(dir, ts, local, runFiles);
    if ValidateRepoId(id, lookup).Success? && files != [] {
      var dests := Destinations(files, id, TargetDir(modelName, variant));
      SelectedFiles(dir, ts, local, runFiles);
      PushedKeeps(files, dests, |files|, repo0, sent);
      PushedAdds(files, dests, |files|, repo0, sent);
      var after := Pushed(files, dests, |files|, repo0, sent).1;
      forall k | k in after && k !in repo0
        ensures Uploadable(dir, ts, local, after[k]) && k == RemotePath(id, PathInRepo(TargetDir(modelName, variant), after[k]))
      {
        var j :| 0 <= j < |files| && dests[j] == k && after[k] == files[j];
        assert files[j] in files;
      }
    }
  }

  /**
   * A successful upload leaves every local report and run log of `ts` in the repository; it fails
   * only when the id is rejected or sending some such file failed.
   */
  lemma UploadComplete(id: string, variant: Option<string>, modelName: string, dir: string, ts: string,
                       lookup: Lookup, local: set<string>, runFiles: seq<string>, repo0: map<string, string>,
                       sent: string -> bool)
    requires Globbed(dir, ts, local, runFiles)
    ensures var (r, after) := Upload(id, variant, modelName, dir, ts, lookup, local, runFiles, repo0, sent);
      (r.Success? ==> forall f :: Uploadable(dir, ts, local, f) ==>
        RemotePath(id, PathInRepo(TargetDir(modelName, variant), f)) in after) &&
      (r.Failure? ==> ValidateRepoId(id, lookup).Failure? || exists f :: Uploadable(dir, ts, local, f) && !sent(f))
  {
    var files := Selected(dir, ts, local, runFiles);
    SelectedFiles(dir, ts, local, runFiles);
    if ValidateRepoId(id, lookup).Success? && files != [] {
      var dests := Destinations(files, id, TargetDir(modelName, variant));
      PushedFails(files, dests, |files|, repo0, sent);
      var r := Pushed(files, dests, |files|, repo0, sent).0;
      if r.Success? {
        PushedAll(files, dests, |files|, repo0, sent);
        forall f | Uploadable(dir, ts, local, f)
          ensures RemotePath(id, PathInRepo(TargetDir(modelName, variant), f)) in Pushed(files, dests, |files|, repo0, sent).1
        {
          assert f in files;
          var j :| 0 <= j < |files| && files[j] == f;
        }
      } else {
        var j :| 0 <= j < |files| && !sent(files[j]);
        assert files[j] in files;
      }
    }
  }
}
