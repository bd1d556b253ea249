/**
 * `merge_distributed_results`, the older merger of a distributed run: it indexes the shard logs
 * the node summaries list per dataset, file and run, merges them file by file into one log per
 * run, recomputes every accuracy from the merged records, exports the report and then deletes
 * the summaries and the shard logs it read. Unlike the finaliser it keeps the summaries in
 * `glob` order, does not filter records by source file, and has no `finally`: an exception
 * leaves every shard where it was.
 */
module Merge {
  import opened Wrappers
  import Dicts
  import Seqs
  import Stats
  import opened Strings
  import Evaluators
  import opened Records
  import opened Shards

  // ---------------------------------------------------------------------------------------
  // Stage 1: `dataset_file_jsonl_map`

  /** The shard logs of one file, by run index; the runs of a file are always `0 .. n-1`. */
  type Runs = seq<seq<string>>

  /** dataset -> file -> run -> shard logs, each dict in insertion order. */
  type Index = Dicts.Dict<Dicts.Dict<Runs>>

  function FilesOf(ix: Index, ds: string): Dicts.Dict<Runs>
  {
    Dicts.Get(ix, ds).GetOr([])
  }

  function RunsOf(ix: Index, ds: string, f: string): Runs
  {
    Dicts.Get(FilesOf(ix, ds), f).GetOr([])
  }

  /** One `file_res`: its file gets an entry, and each of its logs joins the list of its run. */
  function IndexFile(ix: Index, ds: string, fr: FileResult): Index
  {
    Dicts.Put(ix, ds, Dicts.Put(FilesOf(ix, ds), fr.file,
      AddRunPaths(RunsOf(ix, ds, fr.file), fr.runResults, |fr.runResults|)))
  }

  /** One dataset of a summary: it gets an entry even without results, then each result is indexed. */
  function IndexResults(ix: Index, ds: string, frs: seq<FileResult>): Index
  {
    if frs == [] then (if Dicts.Get(ix, ds).None? then Dicts.Put(ix, ds, []) else ix)
    else IndexFile(IndexResults(ix, ds, frs[..|frs| - 1]), ds, frs[|frs| - 1])
  }

  /** `for ds_name, ds_data in shard_data.get("dataset_results", {}).items()` */
  function IndexDatasets(ix: Index, dss: Dicts.Dict<DatasetResult>): Index
  {
    if dss == [] then ix
    else
      var last := dss[|dss| - 1];
      IndexResults(IndexDatasets(ix, dss[..|dss| - 1]), last.0, last.1.results)
  }

  /** The index built from the summaries, in `glob` order. */
  function Indexed(reports: seq<Report>): Index
  {
    if reports == [] then [] else IndexDatasets(Indexed(reports[..|reports| - 1]), reports[|reports| - 1].datasets)
  }

  method IndexPaths(ix0: Index, ds: string, fr: FileResult) returns (ix: Index)
    ensures ix == IndexFile(ix0, ds, fr)
  {
    hide AddRunPath, Dicts.Put, Dicts.Get;
    var runs := RunsOf(ix0, ds, fr.file);
    var j := 0;
    while j < |fr.runResults|
      invariant 0 <= j <= |fr.runResults|
      invariant runs == AddRunPaths(RunsOf(ix0, ds, fr.file), fr.runResults, j)
    {
      runs := AddRunPath(runs, j, fr.runResults[j]);
      j := j + 1;
    }
    ix := Dicts.Put(ix0, ds, Dicts.Put(FilesOf(ix0, ds), fr.file, runs));
  }

  method IndexDataset(ix0: Index, ds: string, frs: seq<FileResult>) returns (ix: Index)
    ensures ix == IndexResults(ix0, ds, frs)
  {
    ix := ix0;
    if Dicts.Get(ix, ds).None? {
      ix := Dicts.Put(ix, ds, []);
    }
    var k := 0;
    while k < |frs|
      invariant 0 <= k <= |frs|
      invariant ix == IndexResults(ix0, ds, frs[..k])
    {
      assert frs[..k + 1][..k] == frs[..k];
      ix := IndexPaths(ix, ds, frs[k]);
      k := k + 1;
    }
    assert frs[..k] == frs;
  }

  method IndexShards(reports: seq<Report>) returns (ix: Index)
    ensures ix == Indexed(reports)
  {
    ix := [];
    var k := 0;
    while k < |reports|
      invariant 0 <= k <= |reports|
      invariant ix == Indexed(reports[..k])
    {
      assert reports[..k + 1][..k] == reports[..k];
      var dss := reports[k].datasets;
      ghost var before := ix;
      var m := 0;
      while m < |dss|
        invariant 0 <= m <= |dss|
        invariant ix == IndexDatasets(before, dss[..m])
      {
        assert dss[..m + 1][..m] == dss[..m];
        ix := IndexDataset(ix, dss[m].0, dss[m].1.results);
        m := m + 1;
      }
      assert dss[..m] == dss;
      k := k + 1;
    }
    assert reports[..k] == reports;
  }

  // ---------------------------------------------------------------------------------------
  // What the index holds

  /** A question about the index for one dataset: is it there, a file, a run of a file, a log of a run. */
  datatype Query = Named | HasFile(f: string) | Reaches(f: string, i: nat) | Lists(f: string, i: nat, p: string)

  predicate Holds(ix: Index, ds: string, q: Query)
  {
    match q
    case Named => Dicts.Get(ix, ds).Some?
    case HasFile(f) => Dicts.Get(FilesOf(ix, ds), f).Some?
    case Reaches(f, i) => i < |RunsOf(ix, ds, f)|
    case Lists(f, i, p) => p in RunList(RunsOf(ix, ds, f), i)
  }

  /** What one `file_res` of the dataset says about the query. */
  predicate FileAnswers(fr: FileResult, q: Query)
  {
    match q
    case Named => true
    case HasFile(f) => fr.file == f
    case Reaches(f, i) => fr.file == f && i < |fr.runResults|
    case Lists(f, i, p) => fr.file == f && i < |fr.runResults| && fr.runResults[i] == p
  }

  /** A dataset's results answer the query; any dataset entry, even an empty one, names it. */
  predicate ResultsAnswer(frs: seq<FileResult>, q: Query)
  {
    q.Named? || exists j :: 0 <= j < |frs| && FileAnswers(frs[j], q)
  }

  predicate DatasetsAnswer(dss: Dicts.Dict<DatasetResult>, ds: string, q: Query)
  {
    exists m :: 0 <= m < |dss| && dss[m].0 == ds && ResultsAnswer(dss[m].1.results, q)
  }

  predicate ReportsAnswer(reports: seq<Report>, ds: string, q: Query)
  {
    exists k :: 0 <= k < |reports| && DatasetsAnswer(reports[k].datasets, ds, q)
  }

  lemma IndexFileHolds(ix: Index, ds: string, fr: FileResult, d: string, q: Query)
    ensures Holds(IndexFile(ix, ds, fr), d, q) <==> Holds(ix, d, q) || (d == ds && FileAnswers(fr, q))
    ensures q.Lists? && Seqs.Distinct(RunList(RunsOf(ix, d, q.f), q.i)) ==>
      Seqs.Distinct(RunList(RunsOf(IndexFile(ix, ds, fr), d, q.f), q.i))
  {
    var fm := FilesOf(ix, ds);
    var runs := AddRunPaths(RunsOf(ix, ds, fr.file), fr.runResults, |fr.runResults|);
    var ix' := IndexFile(ix, ds, fr);
    Dicts.GetPut(ix, ds, Dicts.Put(fm, fr.file, runs), d);
    if d == ds {
      Dicts.GetPut(fm, fr.file, runs, if q.Named? then fr.file else q.f);
      if q.Lists? || q.Reaches? {
        if q.f == fr.file {
          AddRunPathsAt(RunsOf(ix, ds, fr.file), fr.runResults, |fr.runResults|, q.i);
          if q.Lists? && q.i < |fr.runResults| && Seqs.Distinct(RunList(RunsOf(ix, d, q.f), q.i)) {
            AddPathDistinct(RunList(RunsOf(ix, d, q.f), q.i), fr.runResults[q.i]);
          }
        }
      }
    }
  }

  /** A dataset without results still gets an entry, with no files. */
  lemma IndexNamedHolds(ix: Index, ds: string, d: string, q: Query)
    ensures Holds(IndexResults(ix, ds, []), d, q) <==> Holds(ix, d, q) || (d == ds && ResultsAnswer([], q))
    ensures q.Lists? && Seqs.Distinct(RunList(RunsOf(ix, d, q.f), q.i)) ==>
      Seqs.Distinct(RunList(RunsOf(IndexResults(ix, ds, []), d, q.f), q.i))
  {
    if Dicts.Get(ix, ds).None? {
      Dicts.GetPut(ix, ds, [], d);
      if q.HasFile? || q.Reaches? || q.Lists? {
        var f := q.f;
        if d == ds {
          assert FilesOf(IndexResults(ix, ds, []), d) == [];
          var none: Dicts.Dict<Runs> := [];
          Dicts.FindNone(none, f);
        }
      }
    }
  }

  lemma {:induction false} IndexResultsHolds(ix: Index, ds: string, frs: seq<FileResult>, d: string, q: Query)
    ensures Holds(IndexResults(ix, ds, frs), d, q) <==> Holds(ix, d, q) || (d == ds && ResultsAnswer(frs, q))
    ensures q.Lists? && Seqs.Distinct(RunList(RunsOf(ix, d, q.f), q.i)) ==>
      Seqs.Distinct(RunList(RunsOf(IndexResults(ix, ds, frs), d, q.f), q.i))
  {
    hide Holds, IndexFile, Dicts.Put, Dicts.Get, FilesOf, RunsOf, RunList, Seqs.Distinct;
    if frs == [] {
      IndexNamedHolds(ix, ds, d, q);
    } else {
      var init := frs[..|frs| - 1];
      var last := frs[|frs| - 1];
      IndexResultsHolds(ix, ds, init, d, q);
      IndexFileHolds(IndexResults(ix, ds, init), ds, last, d, q);
      assert forall j :: 0 <= j < |init| ==> init[j] == frs[j];
      if ResultsAnswer(frs, q) && !q.Named? {
        var j :| 0 <= j < |frs| && FileAnswers(frs[j], q);
        if j < |init| {
          assert ResultsAnswer(init, q);
        }
      }
    }
  }

  lemma {:induction false} IndexDatasetsHolds(ix: Index, dss: Dicts.Dict<DatasetResult>, d: string, q: Query)
    ensures Holds(IndexDatasets(ix, dss), d, q) <==> Holds(ix, d, q) || DatasetsAnswer(dss, d, q)
    ensures q.Lists? && Seqs.Distinct(RunList(RunsOf(ix, d, q.f), q.i)) ==>
      Seqs.Distinct(RunList(RunsOf(IndexDatasets(ix, dss), d, q.f), q.i))
  {
    hide Holds, IndexResults, RunsOf, RunList, Seqs.Distinct, ResultsAnswer;
    if dss != [] {
      var init := dss[..|dss| - 1];
      var last := dss[|dss| - 1];
      IndexDatasetsHolds(ix, init, d, q);
      IndexResultsHolds(IndexDatasets(ix, init), last.0, last.1.results, d, q);
      assert forall m :: 0 <= m < |init| ==> init[m] == dss[m];
      if DatasetsAnswer(dss, d, q) {
        var m :| 0 <= m < |dss| && dss[m].0 == d && ResultsAnswer(dss[m].1.results, q);
        if m < |init| {
          assert DatasetsAnswer(init, d, q);
        }
      }
    }
  }

  /** The empty index names nothing. */
  lemma EmptyIndexHolds(d: string, q: Query)
    ensures !Holds(Indexed([]), d, q)
    ensures q.Lists? ==> Seqs.Distinct(RunList(RunsOf(Indexed([]), d, q.f), q.i))
  {
    var empty: Index := [];
    Dicts.FindNone(empty, d);
  }

  /**
   * The index names a dataset, a file, a run of a file or a log of a run exactly when some
   * summary does, the run index being the log's position in `individual_runs.results`; and no
   * run lists a log twice.
   */
  lemma {:induction false} IndexedHolds(reports: seq<Report>, d: string, q: Query)
    ensures Holds(Indexed(reports), d, q) <==> ReportsAnswer(reports, d, q)
    ensures q.Lists? ==> Seqs.Distinct(RunList(RunsOf(Indexed(reports), d, q.f), q.i))
  {
    hide Holds, IndexDatasets, RunsOf, RunList, Seqs.Distinct, DatasetsAnswer;
    if reports == [] {
      EmptyIndexHolds(d, q);
    } else {
      var init := reports[..|reports| - 1];
      IndexedHolds(init, d, q);
      IndexDatasetsHolds(Indexed(init), reports[|reports| - 1].datasets, d, q);
      assert forall k :: 0 <= k < |init| ==> init[k] == reports[k];
      if ReportsAnswer(reports, d, q) {
        var k :| 0 <= k < |reports| && DatasetsAnswer(reports[k].datasets, d, q);
        if k < |init| {
          assert ReportsAnswer(init, d, q);
        }
      }
    }
  }

  // ---------------------------------------------------------------------------------------
  // Stage 2: merging file by file, run by run

  /**
   * The directory, `jsonl_files_merged`, `cleared_merged_files`, and the exception raised, if
   * any; after an exception nothing more happens.
   */
  datatype Progress = Progress(dir: Dir, merged: set<string>, cleared: set<string>, error: Option<string>)

  function IsCorrect(r: AnswerRecord): bool
  {
    r.isCorrect
  }

  /**
   * One run of one file: its existing shard logs are read in list order and sorted by question
   * id; the merged log of the run is truncated the first time it is met and appended to.
   */
  function RunStep(ts: string, st: Progress, i: nat, paths: seq<string>): (Progress, real)
    requires st.error.None?
  {
    var (res, seen) := ReadLogs(st.dir, paths);
    match res
    case Failure(e) => (Progress(st.dir, st.merged, st.cleared, Some(e)), 0.0)
    case Success(rs) =>
      var sorted := SortByQuestion(rs);
      var name := MergedPath(ts, i);
      var d := if name in st.cleared then st.dir else WriteRecords(st.dir, name, []);
      (Progress(AppendRecords(d, name, sorted), st.merged + seen, st.cleared + {name}, None),
       Ratio(Seqs.Map(IsCorrect, sorted)))
  }

  /** The first `n` runs of one file: the state left, `run_accuracies` and `run_merged_jsonl_paths`. */
  function FileRuns(ts: string, st: Progress, runs: Runs, n: nat): (Progress, seq<real>, seq<string>)
    requires n <= |runs|
  {
    if n == 0 then (st, [], [])
    else
      var (s, accs, names) := FileRuns(ts, st, runs, n - 1);
      if s.error.Some? then (s, accs, names)
      else
        var (s', acc) := RunStep(ts, s, n - 1, runs[n - 1]);
        if s'.error.Some? then (s', accs, names)
        else (s', accs + [acc], AddPath(names, MergedPath(ts, n - 1)))
  }

  /** The entry of one file: mean, population standard deviation (0 below two runs), runs and logs. */
  function FileMerged(ts: string, st: Progress, f: string, runs: Runs, sqrt: real -> real): (Progress, FileResult)
  {
    var (s, accs, names) := FileRuns(ts, st, runs, |runs|);
    (s, FileResult(f, Stats.MeanOrZero(accs), Stats.GuardedStd(accs, sqrt), accs, names))
  }

  /** The first `n` files of one dataset. */
  function DatasetFiles(ts: string, st: Progress, fm: Dicts.Dict<Runs>, n: nat, sqrt: real -> real)
    : (Progress, seq<FileResult>)
    requires n <= |fm|
  {
    if n == 0 then (st, [])
    else
      var (s, frs) := DatasetFiles(ts, st, fm, n - 1, sqrt);
      if s.error.Some? then (s, frs)
      else
        var (s', fr) := FileMerged(ts, s, fm[n - 1].0, fm[n - 1].1, sqrt);
        (s', frs + [fr])
  }

  /** A dataset's entry: its files, and the means of their means and of their deviations (0 without files). */
  function Summarise(frs: seq<FileResult>): DatasetResult
  {
    DatasetResult(frs, Stats.MeanOrZero(Seqs.Map(MeanOf, frs)), Stats.MeanOrZero(Seqs.Map(StdOf, frs)))
  }

  /** The first `n` datasets of the index: the state left and `merged_dataset_results`. */
  function AllDatasets(ts: string, st: Progress, ix: Index, n: nat, sqrt: real -> real)
    : (Progress, Dicts.Dict<DatasetResult>)
    requires n <= |ix|
  {
    if n == 0 then (st, [])
    else
      var (s, res) := AllDatasets(ts, st, ix, n - 1, sqrt);
      if s.error.Some? then (s, res)
      else
        var (s', frs) := DatasetFiles(ts, s, ix[n - 1].1, |ix[n - 1].1|, sqrt);
        (s', Dicts.Put(res, ix[n - 1].0, Summarise(frs)))
  }

  /** Once a step has raised, the next one leaves everything as it was. */
  lemma FileRunsStopped(ts: string, st: Progress, runs: Runs, n: nat)
    requires 0 < n <= |runs| && FileRuns(ts, st, runs, n - 1).0.error.Some?
    ensures FileRuns(ts, st, runs, n) == FileRuns(ts, st, runs, n - 1)
  {
  }

  lemma DatasetFilesStopped(ts: string, st: Progress, fm: Dicts.Dict<Runs>, n: nat, sqrt: real -> real)
    requires 0 < n <= |fm| && DatasetFiles(ts, st, fm, n - 1, sqrt).0.error.Some?
    ensures DatasetFiles(ts, st, fm, n, sqrt) == DatasetFiles(ts, st, fm, n - 1, sqrt)
  {
  }

  lemma AllDatasetsStopped(ts: string, st: Progress, ix: Index, n: nat, sqrt: real -> real)
    requires 0 < n <= |ix| && AllDatasets(ts, st, ix, n - 1, sqrt).0.error.Some?
    ensures AllDatasets(ts, st, ix, n, sqrt) == AllDatasets(ts, st, ix, n - 1, sqrt)
  {
  }

  lemma {:induction false} FileRunsStops(ts: string, st: Progress, runs: Runs, k: nat, n: nat)
    requires k <= n <= |runs| && FileRuns(ts, st, runs, k).0.error.Some?
    ensures FileRuns(ts, st, runs, n) == FileRuns(ts, st, runs, k)
  {
    hide FileRuns;
    if k < n {
      FileRunsStops(ts, st, runs, k, n - 1);
      FileRunsStopped(ts, st, runs, n);
    }
  }

  lemma {:induction false} DatasetFilesStops(ts: string, st: Progress, fm: Dicts.Dict<Runs>, k: nat, n: nat, sqrt: real -> real)
    requires k <= n <= |fm| && DatasetFiles(ts, st, fm, k, sqrt).0.error.Some?
    ensures DatasetFiles(ts, st, fm, n, sqrt) == DatasetFiles(ts, st, fm, k, sqrt)
  {
    hide DatasetFiles;
    if k < n {
      DatasetFilesStops(ts, st, fm, k, n - 1, sqrt);
      DatasetFilesStopped(ts, st, fm, n, sqrt);
    }
  }

  lemma {:induction false} AllDatasetsStops(ts: string, st: Progress, ix: Index, k: nat, n: nat, sqrt: real -> real)
    requires k <= n <= |ix| && AllDatasets(ts, st, ix, k, sqrt).0.error.Some?
    ensures AllDatasets(ts, st, ix, n, sqrt) == AllDatasets(ts, st, ix, k, sqrt)
  {
    hide AllDatasets;
    if k < n {
      AllDatasetsStops(ts, st, ix, k, n - 1, sqrt);
      AllDatasetsStopped(ts, st, ix, n, sqrt);
    }
  }

  /** `for run_idx, jsonl_paths in runs_map.items()` and the file's entry. */
  method MergeFile(ts: string, st0: Progress, f: string, runs: Runs, sqrt: real -> real) returns (st: Progress, fr: FileResult)
    requires st0.error.None?
    ensures st == FileMerged(ts, st0, f, runs, sqrt).0
    ensures st.error.None? ==> fr == FileMerged(ts, st0, f, runs, sqrt).1
  {
    var dir, merged, cleared := st0.dir, st0.merged, st0.cleared;
    var accs: seq<real> := [];
    var names: seq<string> := [];
    var i := 0;
    while i < |runs|
      invariant 0 <= i <= |runs|
      invariant FileRuns(ts, st0, runs, i) == (Progress(dir, merged, cleared, None), accs, names)
    {
      ghost var pre := Progress(dir, merged, cleared, None);
      var read, seen := ReadRun(dir, runs[i]);
      if read.Failure? {
        st := Progress(dir, merged, cleared, Some(read.error));
        assert RunStep(ts, pre, i, runs[i]).0 == st;
        FileRunsStops(ts, st0, runs, i + 1, |runs|);
        return st, FileResult(f, 0.0, 0.0, accs, names);
      }
      merged := merged + seen;
      var sorted := SortByQuestion(read.value);
      var acc := Ratio(Seqs.Map(IsCorrect, sorted));
      var name := MergedPath(ts, i);
      if name !in cleared {
        dir := WriteRecords(dir, name, []);
        cleared := cleared + {name};
      }
      dir := AppendRecords(dir, name, sorted);
      assert cleared == pre.cleared + {name};
      assert RunStep(ts, pre, i, runs[i]) == (Progress(dir, merged, cleared, None), acc);
      accs := accs + [acc];
      if name !in names {
        names := names + [name];
      }
      i := i + 1;
    }
    st := Progress(dir, merged, cleared, None);
    fr := FileResult(f, Stats.MeanOrZero(accs), Stats.GuardedStd(accs, sqrt), accs, names);
  }

  /** `for file_path, runs_map in files_map.items()` */
  method MergeDataset(ts: string, st0: Progress, fm: Dicts.Dict<Runs>, sqrt: real -> real) returns (st: Progress, frs: seq<FileResult>)
    requires st0.error.None?
    ensures st == DatasetFiles(ts, st0, fm, |fm|, sqrt).0
    ensures st.error.None? ==> frs == DatasetFiles(ts, st0, fm, |fm|, sqrt).1
  {
    st, frs := st0, [];
    var k := 0;
    while k < |fm|
      invariant 0 <= k <= |fm|
      invariant DatasetFiles(ts, st0, fm, k, sqrt) == (st, frs) && st.error.None?
    {
      var fr;
      st, fr := MergeFile(ts, st, fm[k].0, fm[k].1, sqrt);
      if st.error.Some? {
        DatasetFilesStops(ts, st0, fm, k + 1, |fm|, sqrt);
        return;
      }
      frs := frs + [fr];
      k := k + 1;
    }
  }

  /** One turn of the dataset loop after `j` datasets went through without an error. */
  lemma AllDatasetsStep(ts: string, st0: Progress, ix: Index, j: nat, sqrt: real -> real,
                        st: Progress, res: Dicts.Dict<DatasetResult>)
    requires j < |ix| && AllDatasets(ts, st0, ix, j, sqrt) == (st, res) && st.error.None?
    ensures var next := DatasetFiles(ts, st, ix[j].1, |ix[j].1|, sqrt);
      AllDatasets(ts, st0, ix, j + 1, sqrt) == (next.0, Dicts.Put(res, ix[j].0, Summarise(next.1)))
  {
  }

  /** `for ds_name, files_map in dataset_file_jsonl_map.items()` */
  method MergeAll(ts: string, st0: Progress, ix: Index, sqrt: real -> real) returns (st: Progress, res: Dicts.Dict<DatasetResult>)
    requires st0.error.None?
    ensures st == AllDatasets(ts, st0, ix, |ix|, sqrt).0
    ensures st.error.None? ==> res == AllDatasets(ts, st0, ix, |ix|, sqrt).1
  {
    st, res := st0, [];
    var j := 0;
    assert AllDatasets(ts, st0, ix, 0, sqrt) == (st0, []);
    hide AllDatasets, DatasetFiles;
    while j < |ix|
      invariant 0 <= j <= |ix|
      invariant AllDatasets(ts, st0, ix, j, sqrt) == (st, res) && st.error.None?
    {
      AllDatasetsStep(ts, st0, ix, j, sqrt, st, res);
      var frs;
      st, frs := MergeDataset(ts, st, ix[j].1, sqrt);
      if st.error.Some? {
        AllDatasetsStops(ts, st0, ix, j + 1, |ix|, sqrt);
        return;
      }
      res := Dicts.Put(res, ix[j].0, Summarise(frs));
      j := j + 1;
    }
  }

  // ---------------------------------------------------------------------------------------
  // What stage 2 changes

  /**
   * Named like a merged log of the run `ts`: `results/eval_results_{ts}_run{digits}.jsonl`.
   * A node's shard log, `..._run{i}_node{n}.jsonl`, is not.
   */
  predicate IsMerged(ts: string, p: string)
  {
    var pre := "results/eval_results_" + ts + "_run";
    |pre| + 6 < |p| && p[..|pre|] == pre && p[|p| - 6..] == ".jsonl" && DigitsOnly(p[|pre|..|p| - 6])
  }

  /** Decimal digits and nothing else. */
  predicate DigitsOnly(s: string)
  {
    s == [] || ('0' <= s[0] <= '9' && DigitsOnly(s[1..]))
  }

  lemma {:induction false} DigitsOnlyAt(s: string)
    ensures DigitsOnly(s) <==> forall k :: 0 <= k < |s| ==> '0' <= s[k] <= '9'
  {
    if s != [] {
      DigitsOnlyAt(s[1..]);
      assert forall k :: 0 < k < |s| ==> s[k] == s[1..][k - 1];
    }
  }

  /** `d` is `d0` with merged logs added or rewritten, and nothing else touched. */
  ghost predicate Frame(ts: string, d0: Dir, d: Dir)
  {
    d0.Keys <= d.Keys &&
    (forall p :: p in d && p !in d0 ==> IsMerged(ts, p)) &&
    (forall p :: p in d0 && !IsMerged(ts, p) ==> d[p] == d0[p])
  }

  /** Every merged log already truncated is there, as JSON lines. */
  predicate Good(st: Progress)
  {
    forall p :: p in st.cleared ==> p in st.dir && st.dir[p].Lines?
  }

  /** From `st0` to `st` only merged logs change, and the truncated ones stay truncated. */
  ghost predicate Advances(ts: string, st0: Progress, st: Progress)
  {
    Frame(ts, st0.dir, st.dir) && st0.cleared <= st.cleared && (Good(st0) ==> Good(st))
  }

  lemma AdvancesRefl(ts: string, st: Progress)
    ensures Advances(ts, st, st)
  {
  }

  lemma FileRunsNone(ts: string, st: Progress, runs: Runs)
    ensures FileRuns(ts, st, runs, 0).0 == st
  {
  }

  lemma DatasetFilesNone(ts: string, st: Progress, fm: Dicts.Dict<Runs>, sqrt: real -> real)
    ensures DatasetFiles(ts, st, fm, 0, sqrt).0 == st
  {
  }

  lemma AdvancesTrans(ts: string, a: Progress, b: Progress, c: Progress)
    requires Advances(ts, a, b) && Advances(ts, b, c)
    ensures Advances(ts, a, c)
  {
  }

  /** Writing one run's merged log is within the frame. */
  lemma FrameWrite(ts: string, d0: Dir, d: Dir, i: nat)
    requires d.Keys == d0.Keys + {MergedPath(ts, i)}
    requires forall p :: p in d0 && p != MergedPath(ts, i) ==> d[p] == d0[p]
    ensures Frame(ts, d0, d)
  {
    MergedPathIsMerged(ts, i);
  }

  lemma MergedPathIsMerged(ts: string, i: nat)
    ensures IsMerged(ts, MergedPath(ts, i))
  {
    MergedPathForm(ts, i);
    var pre := "results/eval_results_" + ts + "_run";
    var p := MergedPath(ts, i);
    assert p[..|pre|] == pre;
    assert p[|pre|..|p| - 6] == NatToString(i);
    DigitsOnlyAt(NatToString(i));
  }

  lemma RunStepAdvances(ts: string, st: Progress, i: nat, paths: seq<string>)
    requires st.error.None?
    ensures Advances(ts, st, RunStep(ts, st, i, paths).0)
  {
    var res := ReadLogs(st.dir, paths).0;
    if res.Success? {
      var name := MergedPath(ts, i);
      var d := if name in st.cleared then st.dir else WriteRecords(st.dir, name, []);
      var d' := AppendRecords(d, name, SortByQuestion(res.value));
      assert RunStep(ts, st, i, paths).0 ==
        Progress(d', st.merged + ReadLogs(st.dir, paths).1, st.cleared + {name}, None);
      FrameWrite(ts, st.dir, d', i);
      if Good(st) {
        assert name in d' && d'[name].Lines?;
      }
    }
  }

  /** The state after `n` runs, datasets or files comes from the state after `n - 1`. */
  lemma FileRunsNext(ts: string, st: Progress, runs: Runs, n: nat)
    requires 0 < n <= |runs|
    ensures var s := FileRuns(ts, st, runs, n - 1).0;
      FileRuns(ts, st, runs, n).0 == if s.error.Some? then s else RunStep(ts, s, n - 1, runs[n - 1]).0
  {
  }

  lemma DatasetFilesNext(ts: string, st: Progress, fm: Dicts.Dict<Runs>, n: nat, sqrt: real -> real)
    requires 0 < n <= |fm|
    ensures var s := DatasetFiles(ts, st, fm, n - 1, sqrt).0;
      DatasetFiles(ts, st, fm, n, sqrt).0 == if s.error.Some? then s else FileRuns(ts, s, fm[n - 1].1, |fm[n - 1].1|).0
  {
  }

  lemma AllDatasetsNext(ts: string, st: Progress, ix: Index, n: nat, sqrt: real -> real)
    requires 0 < n <= |ix|
    ensures var s := AllDatasets(ts, st, ix, n - 1, sqrt).0;
      AllDatasets(ts, st, ix, n, sqrt).0 == if s.error.Some? then s else DatasetFiles(ts, s, ix[n - 1].1, |ix[n - 1].1|, sqrt).0
  {
  }

  lemma {:induction false} FileRunsAdvances(ts: string, st: Progress, runs: Runs, n: nat)
    requires n <= |runs|
    ensures Advances(ts, st, FileRuns(ts, st, runs, n).0)
  {
    hide FileRuns, RunStep, Advances;
    FileRunsNone(ts, st, runs);
    AdvancesRefl(ts, st);
    if n > 0 {
      FileRunsAdvances(ts, st, runs, n - 1);
      FileRunsNext(ts, st, runs, n);
      var s := FileRuns(ts, st, runs, n - 1).0;
      if s.error.None? {
        RunStepAdvances(ts, s, n - 1, runs[n - 1]);
        AdvancesTrans(ts, st, s, RunStep(ts, s, n - 1, runs[n - 1]).0);
      }
    }
  }

  lemma {:induction false} DatasetFilesAdvances(ts: string, st: Progress, fm: Dicts.Dict<Runs>, n: nat, sqrt: real -> real)
    requires n <= |fm|
    ensures Advances(ts, st, DatasetFiles(ts, st, fm, n, sqrt).0)
  {
    hide DatasetFiles, FileRuns, Advances;
    DatasetFilesNone(ts, st, fm, sqrt);
    AdvancesRefl(ts, st);
    if n > 0 {
      DatasetFilesAdvances(ts, st, fm, n - 1, sqrt);
      DatasetFilesNext(ts, st, fm, n, sqrt);
      var s := DatasetFiles(ts, st, fm, n - 1, sqrt).0;
      if s.error.None? {
        FileRunsAdvances(ts, s, fm[n - 1].1, |fm[n - 1].1|);
        AdvancesTrans(ts, st, s, FileRuns(ts, s, fm[n - 1].1, |fm[n - 1].1|).0);
      }
    }
  }

  lemma {:induction false} AllDatasetsAdvances(ts: string, st: Progress, ix: Index, n: nat, sqrt: real -> real)
    requires n <= |ix|
    ensures Advances(ts, st, AllDatasets(ts, st, ix, n, sqrt).0)
  {
    hide AllDatasets, DatasetFiles, Advances;
    AllDatasetsNone(ts, st, ix, sqrt);
    AdvancesRefl(ts, st);
    if n > 0 {
      AllDatasetsAdvances(ts, st, ix, n - 1, sqrt);
      AllDatasetsNext(ts, st, ix, n, sqrt);
      var s := AllDatasets(ts, st, ix, n - 1, sqrt).0;
      if s.error.None? {
        DatasetFilesAdvances(ts, s, ix[n - 1].1, |ix[n - 1].1|, sqrt);
        AdvancesTrans(ts, st, s, DatasetFiles(ts, s, ix[n - 1].1, |ix[n - 1].1|, sqrt).0);
      }
    }
  }

  // ---------------------------------------------------------------------------------------
  // What stage 2 computes, when no shard log list names a merged log

  /** The merged log of a run: the run's existing shard logs, read and sorted by question id. */
  function RunRecords(dir: Dir, paths: seq<string>): seq<AnswerRecord>
  {
    match ReadLogs(dir, paths).0
    case Success(rs) => SortByQuestion(rs)
    case Failure(_) => []
  }

  /** The accuracy of a run: the share of its merged records judged correct. */
  function RunAcc(dir: Dir, paths: seq<string>): real
  {
    Ratio(Seqs.Map(IsCorrect, RunRecords(dir, paths)))
  }

  /** The accuracy of every run, in run order. */
  function Accuracies(dir: Dir, runs: Runs): (accs: seq<real>)
    ensures |accs| == |runs| && forall i :: 0 <= i < |runs| ==> accs[i] == RunAcc(dir, runs[i])
  {
    seq(|runs|, i requires 0 <= i < |runs| => RunAcc(dir, runs[i]))
  }

  /** The paths of a list, as a set. */
  function PathSet(ps: seq<string>): (r: set<string>)
    ensures forall p :: p in r <==> p in ps
  {
    set i | 0 <= i < |ps| :: ps[i]
  }

  /** The shard logs listed for the first `n` runs. */
  function FileListed(runs: Runs, n: nat): set<string>
    requires n <= |runs|
  {
    if n == 0 then {} else FileListed(runs, n - 1) + PathSet(runs[n - 1])
  }

  lemma {:induction false} FileListedIn(runs: Runs, n: nat, p: string)
    requires n <= |runs|
    ensures p in FileListed(runs, n) <==> exists j :: 0 <= j < n && p in runs[j]
  {
    if n > 0 {
      FileListedIn(runs, n - 1, p);
    }
  }

  /** What the first `n` runs of a file append to the merged log of run `i`. */
  function FileApp(dir: Dir, runs: Runs, n: nat, i: nat): seq<AnswerRecord>
    requires n <= |runs|
  {
    if i < n then RunRecords(dir, runs[i]) else []
  }

  /** What run `i` appends to the merged log of run `j`. */
  function StepApp(dir: Dir, paths: seq<string>, i: nat, j: nat): seq<AnswerRecord>
  {
    if j == i then RunRecords(dir, paths) else []
  }

  /** No shard log list of a file names a merged log. */
  predicate CleanRuns(ts: string, runs: Runs)
  {
    forall j, p :: 0 <= j < |runs| && p in runs[j] ==> !IsMerged(ts, p)
  }

  /** The lines a truncated merged log held before. */
  function Before(st: Progress, p: string): seq<Line>
  {
    if p in st.cleared && p in st.dir && st.dir[p].Lines? then st.dir[p].lines else []
  }

  /**
   * From `st0` to `st`, the merged log `name` was truncated if it was met (`touched`), and
   * is what it held when truncated followed by `app`; an untouched log gets nothing.
   */
  ghost predicate Logged(st0: Progress, st: Progress, name: string, app: seq<AnswerRecord>, touched: bool)
  {
    (touched || app == []) &&
    (name in st.cleared <==> name in st0.cleared || touched) &&
    (name in st.cleared ==> name in st.dir && st.dir[name] == Lines(Before(st0, name) + LinesOf(app)))
  }

  lemma LinesAfter(pre: seq<Line>, x: seq<AnswerRecord>, y: seq<AnswerRecord>)
    ensures pre + LinesOf(x) + LinesOf(y) == pre + LinesOf(x + y)
  {
    LinesOfConcat(x, y);
  }

  lemma LoggedTrans(a: Progress, b: Progress, c: Progress, name: string,
                    x: seq<AnswerRecord>, t1: bool, y: seq<AnswerRecord>, t2: bool)
    requires Logged(a, b, name, x, t1) && Logged(b, c, name, y, t2) && Good(b)
    ensures Logged(a, c, name, x + y, t1 || t2)
  {
    if !t1 && !t2 {
      assert x + y == [];
    }
    if name in c.cleared {
      var pre := Before(a, name);
      if name in b.cleared {
        LinesAfter(pre, x, y);
      } else {
        assert x + y == y;
      }
    }
  }

  /** Reading lists that name no merged log gives the same before and after merged logs change. */
  lemma FrameReads(ts: string, d0: Dir, d: Dir, paths: seq<string>)
    requires Frame(ts, d0, d) && forall p :: p in paths ==> !IsMerged(ts, p)
    ensures ReadLogs(d, paths) == ReadLogs(d0, paths)
  {
    ReadLogsFrame(d, d0, paths);
  }

  /** A successful step consumes the run's existing shard logs and yields the run's accuracy. */
  lemma RunStepOut(ts: string, st: Progress, i: nat, paths: seq<string>)
    requires st.error.None? && RunStep(ts, st, i, paths).0.error.None?
    ensures RunStep(ts, st, i, paths).0.merged == st.merged + PathSet(paths) * st.dir.Keys
    ensures RunStep(ts, st, i, paths).1 == RunAcc(st.dir, paths)
  {
    ReadLogsSeen(st.dir, paths);
    assert (set p | p in paths && p in st.dir) == PathSet(paths) * st.dir.Keys;
  }

  /** A successful step appends the run's records to its merged log and to no other. */
  lemma RunStepLogged(ts: string, st: Progress, i: nat, paths: seq<string>)
    requires st.error.None? && Good(st) && RunStep(ts, st, i, paths).0.error.None?
    ensures forall j: nat ::
      Logged(st, RunStep(ts, st, i, paths).0, MergedPath(ts, j), StepApp(st.dir, paths, i, j), j == i)
  {
    var res := ReadLogs(st.dir, paths).0;
    var name := MergedPath(ts, i);
    var sorted := RunRecords(st.dir, paths);
    var d := if name in st.cleared then st.dir else WriteRecords(st.dir, name, []);
    var d' := AppendRecords(d, name, sorted);
    var s' := Progress(d', st.merged + ReadLogs(st.dir, paths).1, st.cleared + {name}, None);
    assert RunStep(ts, st, i, paths).0 == s';
    assert Logged(st, s', name, sorted, true) by {
      if name !in st.cleared {
        assert d[name] == Lines([]);
      }
    }
    forall j: nat | j != i
      ensures Logged(st, s', MergedPath(ts, j), [], false)
    {
      MergedPathDistinct(ts, i, j);
      var other := MergedPath(ts, j);
      if other in s'.cleared {
        assert s'.dir[other] == st.dir[other];
      }
    }
  }

  /** Reading a clean run gives the same records and accuracy after merged logs change. */
  lemma RunSame(ts: string, d0: Dir, d: Dir, paths: seq<string>)
    requires Frame(ts, d0, d) && forall p :: p in paths ==> !IsMerged(ts, p)
    ensures RunRecords(d, paths) == RunRecords(d0, paths)
    ensures RunAcc(d, paths) == RunAcc(d0, paths)
  {
    FrameReads(ts, d0, d, paths);
  }

  lemma AccuraciesSnoc(dir: Dir, runs: Runs, n: nat)
    requires 0 < n <= |runs|
    ensures Accuracies(dir, runs[..n]) == Accuracies(dir, runs[..n - 1]) + [RunAcc(dir, runs[n - 1])]
  {
    assert runs[..n] == runs[..n - 1] + [runs[n - 1]];
  }

  /** A new run's merged log is not among the earlier runs' names. */
  lemma MergedNamesFresh(ts: string, k: nat)
    ensures MergedPath(ts, k) !in MergedNames(ts, k)
  {
    var names := MergedNames(ts, k);
    forall j | 0 <= j < k
      ensures names[j] != MergedPath(ts, k)
    {
      MergedPathDistinct(ts, j, k);
    }
  }

  /** Nothing done yet: every log holds what it held. */
  lemma LoggedNothing(st: Progress, name: string)
    requires Good(st)
    ensures Logged(st, st, name, [], false)
  {
  }

  /** The run-by-run step of a file, when it succeeds. */
  lemma FileRunsLast(ts: string, st: Progress, runs: Runs, n: nat)
    requires 0 < n <= |runs| && FileRuns(ts, st, runs, n).0.error.None?
    ensures var (s, accs, names) := FileRuns(ts, st, runs, n - 1);
      s.error.None? && RunStep(ts, s, n - 1, runs[n - 1]).0.error.None? &&
      FileRuns(ts, st, runs, n) ==
        (RunStep(ts, s, n - 1, runs[n - 1]).0, accs + [RunStep(ts, s, n - 1, runs[n - 1]).1],
         AddPath(names, MergedPath(ts, n - 1)))
  {
  }

  /**
   * With clean lists, the first `n` runs of a file give the accuracies of the directory as it
   * was before, and the names of the first `n` merged logs.
   */
  lemma {:induction false} FileRunsOut(ts: string, st: Progress, runs: Runs, n: nat)
    requires n <= |runs| && st.error.None? && CleanRuns(ts, runs)
    requires FileRuns(ts, st, runs, n).0.error.None?
    ensures FileRuns(ts, st, runs, n).1 == Accuracies(st.dir, runs[..n])
    ensures FileRuns(ts, st, runs, n).2 == MergedNames(ts, n)
  {
    if n == 0 {
      assert Accuracies(st.dir, runs[..0]) == [];
    } else {
      var k := n - 1;
      FileRunsLast(ts, st, runs, n);
      var s := FileRuns(ts, st, runs, k).0;
      FileRunsOut(ts, st, runs, k);
      FileRunsAdvances(ts, st, runs, k);
      RunSame(ts, st.dir, s.dir, runs[k]);
      RunStepOut(ts, s, k, runs[k]);
      AccuraciesSnoc(st.dir, runs, n);
      MergedNamesFresh(ts, k);
    }
  }

  /** A clean list's paths exist before exactly when they exist after merged logs change. */
  lemma ListedKeysSame(ts: string, d0: Dir, d: Dir, runs: Runs, n: nat)
    requires Frame(ts, d0, d) && CleanRuns(ts, runs) && n <= |runs|
    ensures FileListed(runs, n) * d.Keys == FileListed(runs, n) * d0.Keys
  {
    forall p | p in FileListed(runs, n)
      ensures !IsMerged(ts, p)
    {
      FileListedIn(runs, n, p);
    }
  }

  /** With clean lists, the first `n` runs of a file consume its listed logs that exist. */
  lemma {:induction false} FileRunsConsumed(ts: string, st: Progress, runs: Runs, n: nat)
    requires n <= |runs| && st.error.None? && CleanRuns(ts, runs)
    requires FileRuns(ts, st, runs, n).0.error.None?
    ensures FileRuns(ts, st, runs, n).0.merged == st.merged + FileListed(runs, n) * st.dir.Keys
  {
    if n > 0 {
      var k := n - 1;
      FileRunsLast(ts, st, runs, n);
      var s := FileRuns(ts, st, runs, k).0;
      var here := PathSet(runs[k]);
      assert here * s.dir.Keys == here * st.dir.Keys by {
        FileRunsAdvances(ts, st, runs, k);
        assert forall p :: p in here ==> !IsMerged(ts, p);
      }
      FileRunsConsumed(ts, st, runs, k);
      RunStepOut(ts, s, k, runs[k]);
      UnionStep(st.merged, FileListed(runs, k), here, st.dir.Keys);
    }
  }

  lemma Distrib(a: set<string>, b: set<string>, keys: set<string>)
    ensures (a + b) * keys == a * keys + b * keys
  {
  }

  lemma UnionStep(a: set<string>, b: set<string>, c: set<string>, keys: set<string>)
    ensures a + b * keys + c * keys == a + (b + c) * keys
  {
  }

  /** With clean lists, the first `n` runs append each run's records to that run's merged log. */
  lemma {:induction false} FileRunsLogs(ts: string, st: Progress, runs: Runs, n: nat)
    requires n <= |runs| && st.error.None? && Good(st) && CleanRuns(ts, runs)
    requires FileRuns(ts, st, runs, n).0.error.None?
    ensures forall i: nat ::
      Logged(st, FileRuns(ts, st, runs, n).0, MergedPath(ts, i), FileApp(st.dir, runs, n, i), i < n)
  {
    if n == 0 {
      forall i: nat
        ensures Logged(st, st, MergedPath(ts, i), FileApp(st.dir, runs, 0, i), i < 0)
      {
        LoggedNothing(st, MergedPath(ts, i));
      }
    } else {
      var k := n - 1;
      FileRunsLast(ts, st, runs, n);
      var s := FileRuns(ts, st, runs, k).0;
      var s' := RunStep(ts, s, k, runs[k]).0;
      FileRunsLogs(ts, st, runs, k);
      FileRunsAdvances(ts, st, runs, k);
      RunSame(ts, st.dir, s.dir, runs[k]);
      RunStepLogged(ts, s, k, runs[k]);
      forall i: nat
        ensures Logged(st, s', MergedPath(ts, i), FileApp(st.dir, runs, n, i), i < n)
      {
        var name := MergedPath(ts, i);
        LoggedTrans(st, s, s', name, FileApp(st.dir, runs, k, i), i < k, StepApp(s.dir, runs[k], k, i), i == k);
        assert FileApp(st.dir, runs, k, i) + StepApp(s.dir, runs[k], k, i) == FileApp(st.dir, runs, n, i);
      }
    }
  }

  /** What a clean file's runs read is the same after merged logs change. */
  lemma AccuraciesSame(ts: string, d0: Dir, d: Dir, runs: Runs)
    requires Frame(ts, d0, d) && CleanRuns(ts, runs)
    ensures Accuracies(d, runs) == Accuracies(d0, runs)
  {
    forall j | 0 <= j < |runs|
      ensures RunAcc(d, runs[j]) == RunAcc(d0, runs[j])
    {
      RunSame(ts, d0, d, runs[j]);
    }
  }

  lemma FileAppSame(ts: string, d0: Dir, d: Dir, runs: Runs, n: nat, i: nat)
    requires Frame(ts, d0, d) && CleanRuns(ts, runs) && n <= |runs|
    ensures FileApp(d, runs, n, i) == FileApp(d0, runs, n, i)
  {
    if i < n {
      RunSame(ts, d0, d, runs[i]);
    }
  }

  // Files of a dataset

  /** Whether no shard log list of a dataset's files names a merged log. */
  predicate CleanFiles(ts: string, fm: Dicts.Dict<Runs>)
  {
    forall k :: 0 <= k < |fm| ==> CleanRuns(ts, fm[k].1)
  }

  /** The entry of one file computed from the directory as it was before the merge. */
  function RefFile(ts: string, dir: Dir, f: string, runs: Runs, sqrt: real -> real): FileResult
  {
    var accs := Accuracies(dir, runs);
    FileResult(f, Stats.MeanOrZero(accs), Stats.GuardedStd(accs, sqrt), accs, MergedNames(ts, |runs|))
  }

  /** The entries of a dataset's files, in file order. */
  function RefFiles(ts: string, dir: Dir, fm: Dicts.Dict<Runs>, sqrt: real -> real): (frs: seq<FileResult>)
    ensures |frs| == |fm| && forall k :: 0 <= k < |fm| ==> frs[k] == RefFile(ts, dir, fm[k].0, fm[k].1, sqrt)
  {
    seq(|fm|, k requires 0 <= k < |fm| => RefFile(ts, dir, fm[k].0, fm[k].1, sqrt))
  }

  /** The shard logs listed for the first `n` files. */
  function DatasetListed(fm: Dicts.Dict<Runs>, n: nat): set<string>
    requires n <= |fm|
  {
    if n == 0 then {} else DatasetListed(fm, n - 1) + FileListed(fm[n - 1].1, |fm[n - 1].1|)
  }

  /** What the first `n` files append to the merged log of run `i`, file after file. */
  function DatasetApp(dir: Dir, fm: Dicts.Dict<Runs>, n: nat, i: nat): seq<AnswerRecord>
    requires n <= |fm|
  {
    if n == 0 then [] else DatasetApp(dir, fm, n - 1, i) + FileApp(dir, fm[n - 1].1, |fm[n - 1].1|, i)
  }

  /** Whether one of the first `n` files has a run `i`. */
  function DatasetTouch(fm: Dicts.Dict<Runs>, n: nat, i: nat): bool
    requires n <= |fm|
  {
    n > 0 && (DatasetTouch(fm, n - 1, i) || i < |fm[n - 1].1|)
  }

  lemma DatasetFilesLast(ts: string, st: Progress, fm: Dicts.Dict<Runs>, n: nat, sqrt: real -> real)
    requires 0 < n <= |fm| && DatasetFiles(ts, st, fm, n, sqrt).0.error.None?
    ensures var (s, frs) := DatasetFiles(ts, st, fm, n - 1, sqrt);
      var (s', fr) := FileMerged(ts, s, fm[n - 1].0, fm[n - 1].1, sqrt);
      s.error.None? && s'.error.None? && DatasetFiles(ts, st, fm, n, sqrt) == (s', frs + [fr])
  {
  }

  lemma RefFilesSnoc(ts: string, dir: Dir, fm: Dicts.Dict<Runs>, n: nat, sqrt: real -> real)
    requires 0 < n <= |fm|
    ensures RefFiles(ts, dir, fm[..n], sqrt) ==
      RefFiles(ts, dir, fm[..n - 1], sqrt) + [RefFile(ts, dir, fm[n - 1].0, fm[n - 1].1, sqrt)]
  {
  }

  /** With clean lists, the first `n` files of a dataset get the entries of the directory as it was before. */
  lemma {:induction false} DatasetFilesOut(ts: string, st: Progress, fm: Dicts.Dict<Runs>, n: nat, sqrt: real -> real)
    requires n <= |fm| && st.error.None? && CleanFiles(ts, fm)
    requires DatasetFiles(ts, st, fm, n, sqrt).0.error.None?
    ensures DatasetFiles(ts, st, fm, n, sqrt).1 == RefFiles(ts, st.dir, fm[..n], sqrt)
  {
    if n > 0 {
      var k := n - 1;
      var runs := fm[k].1;
      DatasetFilesLast(ts, st, fm, n, sqrt);
      var s := DatasetFiles(ts, st, fm, k, sqrt).0;
      DatasetFilesOut(ts, st, fm, k, sqrt);
      DatasetFilesAdvances(ts, st, fm, k, sqrt);
      assert CleanRuns(ts, runs);
      FileRunsOut(ts, s, runs, |runs|);
      AccuraciesSame(ts, st.dir, s.dir, runs);
      assert runs[..|runs|] == runs;
      RefFilesSnoc(ts, st.dir, fm, n, sqrt);
    }
  }

  /** With clean lists, the first `n` files of a dataset consume their listed logs that exist. */
  lemma {:induction false} DatasetFilesConsumed(ts: string, st: Progress, fm: Dicts.Dict<Runs>, n: nat, sqrt: real -> real)
    requires n <= |fm| && st.error.None? && CleanFiles(ts, fm)
    requires DatasetFiles(ts, st, fm, n, sqrt).0.error.None?
    ensures DatasetFiles(ts, st, fm, n, sqrt).0.merged == st.merged + DatasetListed(fm, n) * st.dir.Keys
  {
    if n > 0 {
      var k := n - 1;
      var runs := fm[k].1;
      DatasetFilesLast(ts, st, fm, n, sqrt);
      var s := DatasetFiles(ts, st, fm, k, sqrt).0;
      var here := FileListed(runs, |runs|);
      assert CleanRuns(ts, runs);
      assert here * s.dir.Keys == here * st.dir.Keys by {
        DatasetFilesAdvances(ts, st, fm, k, sqrt);
        ListedKeysSame(ts, st.dir, s.dir, runs, |runs|);
      }
      DatasetFilesConsumed(ts, st, fm, k, sqrt);
      FileRunsConsumed(ts, s, runs, |runs|);
      UnionStep(st.merged, DatasetListed(fm, k), here, st.dir.Keys);
    }
  }

  /** With clean lists, the first `n` files append file by file to each run's merged log. */
  lemma {:induction false} DatasetFilesLogs(ts: string, st: Progress, fm: Dicts.Dict<Runs>, n: nat, sqrt: real -> real)
    requires n <= |fm| && st.error.None? && Good(st) && CleanFiles(ts, fm)
    requires DatasetFiles(ts, st, fm, n, sqrt).0.error.None?
    ensures forall i: nat ::
      Logged(st, DatasetFiles(ts, st, fm, n, sqrt).0, MergedPath(ts, i), DatasetApp(st.dir, fm, n, i), DatasetTouch(fm, n, i))
  {
    if n == 0 {
      forall i: nat
        ensures Logged(st, st, MergedPath(ts, i), DatasetApp(st.dir, fm, 0, i), DatasetTouch(fm, 0, i))
      {
        LoggedNothing(st, MergedPath(ts, i));
      }
    } else {
      var k := n - 1;
      var runs := fm[k].1;
      DatasetFilesLast(ts, st, fm, n, sqrt);
      var s := DatasetFiles(ts, st, fm, k, sqrt).0;
      var s' := FileRuns(ts, s, runs, |runs|).0;
      DatasetFilesLogs(ts, st, fm, k, sqrt);
      DatasetFilesAdvances(ts, st, fm, k, sqrt);
      assert CleanRuns(ts, runs);
      FileRunsLogs(ts, s, runs, |runs|);
      forall i: nat
        ensures Logged(st, s', MergedPath(ts, i), DatasetApp(st.dir, fm, n, i), DatasetTouch(fm, n, i))
      {
        FileAppSame(ts, st.dir, s.dir, runs, |runs|, i);
        LoggedTrans(st, s, s', MergedPath(ts, i), DatasetApp(st.dir, fm, k, i), DatasetTouch(fm, k, i),
                    FileApp(s.dir, runs, |runs|, i), i < |runs|);
      }
    }
  }

  lemma DatasetAppSame(ts: string, d0: Dir, d: Dir, fm: Dicts.Dict<Runs>, n: nat, i: nat)
    requires Frame(ts, d0, d) && CleanFiles(ts, fm) && n <= |fm|
    ensures DatasetApp(d, fm, n, i) == DatasetApp(d0, fm, n, i)
  {
    forall k | 0 <= k < |fm|
      ensures FileApp(d, fm[k].1, |fm[k].1|, i) == FileApp(d0, fm[k].1, |fm[k].1|, i)
    {
      FileAppSame(ts, d0, d, fm[k].1, |fm[k].1|, i);
    }
    DatasetAppEqual(d0, d, fm, n, i);
  }

  lemma {:induction false} DatasetAppEqual(d0: Dir, d: Dir, fm: Dicts.Dict<Runs>, n: nat, i: nat)
    requires n <= |fm|
    requires forall k :: 0 <= k < |fm| ==> FileApp(d, fm[k].1, |fm[k].1|, i) == FileApp(d0, fm[k].1, |fm[k].1|, i)
    ensures DatasetApp(d, fm, n, i) == DatasetApp(d0, fm, n, i)
  {
    hide FileApp;
    if n > 0 {
      DatasetAppEqual(d0, d, fm, n - 1, i);
      var runs := fm[n - 1].1;
      assert FileApp(d, runs, |runs|, i) == FileApp(d0, runs, |runs|, i);
      assert DatasetApp(d, fm, n, i) == DatasetApp(d, fm, n - 1, i) + FileApp(d, runs, |runs|, i);
    }
  }

  lemma RefFilesSame(ts: string, d0: Dir, d: Dir, fm: Dicts.Dict<Runs>, sqrt: real -> real)
    requires Frame(ts, d0, d) && CleanFiles(ts, fm)
    ensures RefFiles(ts, d, fm, sqrt) == RefFiles(ts, d0, fm, sqrt)
  {
    forall k | 0 <= k < |fm|
      ensures Accuracies(d, fm[k].1) == Accuracies(d0, fm[k].1)
    {
      AccuraciesSame(ts, d0, d, fm[k].1);
    }
  }

  // The datasets of the index

  /** Whether no shard log list of the index names a merged log. */
  predicate CleanIndex(ts: string, ix: Index)
  {
    forall j :: 0 <= j < |ix| ==> CleanFiles(ts, ix[j].1)
  }

  /** `merged_dataset_results` computed from the directory as it was before the merge. */
  function RefDatasets(ts: string, dir: Dir, ix: Index, n: nat, sqrt: real -> real): Dicts.Dict<DatasetResult>
    requires n <= |ix|
  {
    if n == 0 then []
    else Dicts.Put(RefDatasets(ts, dir, ix, n - 1, sqrt), ix[n - 1].0, Summarise(RefFiles(ts, dir, ix[n - 1].1, sqrt)))
  }

  /** The shard logs listed for the first `n` datasets. */
  function AllListed(ix: Index, n: nat): set<string>
    requires n <= |ix|
  {
    if n == 0 then {} else AllListed(ix, n - 1) + DatasetListed(ix[n - 1].1, |ix[n - 1].1|)
  }

  /** What the first `n` datasets append to the merged log of run `i`. */
  function AllApp(dir: Dir, ix: Index, n: nat, i: nat): seq<AnswerRecord>
    requires n <= |ix|
  {
    if n == 0 then [] else AllApp(dir, ix, n - 1, i) + DatasetApp(dir, ix[n - 1].1, |ix[n - 1].1|, i)
  }

  /** Whether a file of one of the first `n` datasets has a run `i`. */
  function AllTouch(ix: Index, n: nat, i: nat): bool
    requires n <= |ix|
  {
    n > 0 && (AllTouch(ix, n - 1, i) || DatasetTouch(ix[n - 1].1, |ix[n - 1].1|, i))
  }

  lemma AllDatasetsLast(ts: string, st: Progress, ix: Index, n: nat, sqrt: real -> real)
    requires 0 < n <= |ix| && AllDatasets(ts, st, ix, n, sqrt).0.error.None?
    ensures AllDatasets(ts, st, ix, n - 1, sqrt).0.error.None?
    ensures var s := AllDatasets(ts, st, ix, n - 1, sqrt).0;
      var step := DatasetFiles(ts, s, ix[n - 1].1, |ix[n - 1].1|, sqrt);
      step.0.error.None? && AllDatasets(ts, st, ix, n, sqrt).0 == step.0 &&
      AllDatasets(ts, st, ix, n, sqrt).1 == Dicts.Put(AllDatasets(ts, st, ix, n - 1, sqrt).1, ix[n - 1].0, Summarise(step.1))
  {
  }

  /** One dataset merged after earlier ones: its entries are those of the directory as it was first. */
  lemma DatasetStepOut(ts: string, st: Progress, s: Progress, fm: Dicts.Dict<Runs>, sqrt: real -> real)
    requires Advances(ts, st, s) && s.error.None? && CleanFiles(ts, fm)
    requires DatasetFiles(ts, s, fm, |fm|, sqrt).0.error.None?
    ensures DatasetFiles(ts, s, fm, |fm|, sqrt).1 == RefFiles(ts, st.dir, fm, sqrt)
  {
    RefFilesSame(ts, st.dir, s.dir, fm, sqrt);
    DatasetFilesOut(ts, s, fm, |fm|, sqrt);
    assert fm[..|fm|] == fm;
  }

  /** One dataset merged after earlier ones consumes its listed logs that existed at first. */
  lemma DatasetStepConsumed(ts: string, st: Progress, s: Progress, fm: Dicts.Dict<Runs>, sqrt: real -> real)
    requires Advances(ts, st, s) && s.error.None? && CleanFiles(ts, fm)
    requires DatasetFiles(ts, s, fm, |fm|, sqrt).0.error.None?
    ensures DatasetFiles(ts, s, fm, |fm|, sqrt).0.merged == s.merged + DatasetListed(fm, |fm|) * st.dir.Keys
  {
    DatasetListedKeysSame(ts, st.dir, s.dir, fm, |fm|);
    DatasetFilesConsumed(ts, s, fm, |fm|, sqrt);
  }

  /** With clean lists, the datasets get the entries of the directory as it was before. */
  lemma {:induction false} AllDatasetsOut(ts: string, st: Progress, ix: Index, n: nat, sqrt: real -> real)
    requires n <= |ix| && st.error.None? && CleanIndex(ts, ix)
    requires AllDatasets(ts, st, ix, n, sqrt).0.error.None?
    ensures AllDatasets(ts, st, ix, n, sqrt).1 == RefDatasets(ts, st.dir, ix, n, sqrt)
  {
    hide AllDatasets, DatasetFiles, CleanFiles, RefDatasets, RefFiles, Summarise, Dicts.Put;
    AllDatasetsNone(ts, st, ix, sqrt);
    if n > 0 {
      AllDatasetsPrefix(ts, st, ix, n, sqrt);
      AllDatasetsOut(ts, st, ix, n - 1, sqrt);
      assert CleanFiles(ts, ix[n - 1].1);
      AllDatasetsOutStep(ts, st, ix, n, sqrt);
    }
  }

  lemma AllDatasetsNone(ts: string, st: Progress, ix: Index, sqrt: real -> real)
    ensures AllDatasets(ts, st, ix, 0, sqrt) == (st, []) && RefDatasets(ts, st.dir, ix, 0, sqrt) == []
  {
  }

  /** The datasets before the last one raised nothing either. */
  lemma AllDatasetsPrefix(ts: string, st: Progress, ix: Index, n: nat, sqrt: real -> real)
    requires 0 < n <= |ix| && AllDatasets(ts, st, ix, n, sqrt).0.error.None?
    ensures AllDatasets(ts, st, ix, n - 1, sqrt).0.error.None?
  {
  }

  /** The step of `AllDatasetsOut`: the last dataset's entries agree once the earlier ones do. */
  lemma AllDatasetsOutStep(ts: string, st: Progress, ix: Index, n: nat, sqrt: real -> real)
    requires 0 < n <= |ix| && st.error.None? && CleanFiles(ts, ix[n - 1].1)
    requires AllDatasets(ts, st, ix, n, sqrt).0.error.None?
    requires AllDatasets(ts, st, ix, n - 1, sqrt).1 == RefDatasets(ts, st.dir, ix, n - 1, sqrt)
    ensures AllDatasets(ts, st, ix, n, sqrt).1 == RefDatasets(ts, st.dir, ix, n, sqrt)
  {
    hide AllDatasets, DatasetFiles, CleanFiles, RefFiles, Summarise, Dicts.Put;
    var fm := ix[n - 1].1;
    var s := AllDatasets(ts, st, ix, n - 1, sqrt).0;
    AllDatasetsLast(ts, st, ix, n, sqrt);
    DatasetAfterOut(ts, st, ix, n - 1, sqrt);
    PutSame(AllDatasets(ts, st, ix, n - 1, sqrt).1, RefDatasets(ts, st.dir, ix, n - 1, sqrt), ix[n - 1].0,
      DatasetFiles(ts, s, fm, |fm|, sqrt).1, RefFiles(ts, st.dir, fm, sqrt));
  }

  /** The dataset merged after `k` others gets the entries of the directory as it was first. */
  lemma DatasetAfterOut(ts: string, st: Progress, ix: Index, k: nat, sqrt: real -> real)
    requires k < |ix| && st.error.None? && CleanFiles(ts, ix[k].1)
    requires AllDatasets(ts, st, ix, k, sqrt).0.error.None?
    requires DatasetFiles(ts, AllDatasets(ts, st, ix, k, sqrt).0, ix[k].1, |ix[k].1|, sqrt).0.error.None?
    ensures DatasetFiles(ts, AllDatasets(ts, st, ix, k, sqrt).0, ix[k].1, |ix[k].1|, sqrt).1 ==
      RefFiles(ts, st.dir, ix[k].1, sqrt)
  {
    AllDatasetsAdvances(ts, st, ix, k, sqrt);
    DatasetStepOut(ts, st, AllDatasets(ts, st, ix, k, sqrt).0, ix[k].1, sqrt);
  }

  lemma PutSame(a: Dicts.Dict<DatasetResult>, b: Dicts.Dict<DatasetResult>, k: string, x: seq<FileResult>, y: seq<FileResult>)
    requires a == b && x == y
    ensures Dicts.Put(a, k, Summarise(x)) == Dicts.Put(b, k, Summarise(y))
  {
  }

  /** With clean lists, the datasets consume their listed logs that exist. */
  lemma {:induction false} AllDatasetsConsumed(ts: string, st: Progress, ix: Index, n: nat, sqrt: real -> real)
    requires n <= |ix| && st.error.None? && CleanIndex(ts, ix)
    requires AllDatasets(ts, st, ix, n, sqrt).0.error.None?
    ensures AllDatasets(ts, st, ix, n, sqrt).0.merged == st.merged + AllListed(ix, n) * st.dir.Keys
  {
    hide AllDatasets, DatasetFiles, CleanFiles, Advances;
    AllDatasetsNone(ts, st, ix, sqrt);
    if n > 0 {
      AllDatasetsLast(ts, st, ix, n, sqrt);
      AllDatasetsAdvances(ts, st, ix, n - 1, sqrt);
      AllDatasetsConsumed(ts, st, ix, n - 1, sqrt);
      DatasetStepConsumed(ts, st, AllDatasets(ts, st, ix, n - 1, sqrt).0, ix[n - 1].1, sqrt);
      UnionStep(st.merged, AllListed(ix, n - 1), DatasetListed(ix[n - 1].1, |ix[n - 1].1|), st.dir.Keys);
    }
  }

  lemma {:induction false} DatasetListedKeysSame(ts: string, d0: Dir, d: Dir, fm: Dicts.Dict<Runs>, n: nat)
    requires Frame(ts, d0, d) && CleanFiles(ts, fm) && n <= |fm|
    ensures DatasetListed(fm, n) * d.Keys == DatasetListed(fm, n) * d0.Keys
  {
    if n > 0 {
      DatasetListedKeysSame(ts, d0, d, fm, n - 1);
      assert CleanRuns(ts, fm[n - 1].1);
      ListedKeysSame(ts, d0, d, fm[n - 1].1, |fm[n - 1].1|);
      Distrib(DatasetListed(fm, n - 1), FileListed(fm[n - 1].1, |fm[n - 1].1|), d.Keys);
      Distrib(DatasetListed(fm, n - 1), FileListed(fm[n - 1].1, |fm[n - 1].1|), d0.Keys);
    }
  }

  /** With clean lists, the datasets append file by file to each run's merged log. */
  lemma {:induction false} AllDatasetsLogs(ts: string, st: Progress, ix: Index, n: nat, sqrt: real -> real)
    requires n <= |ix| && st.error.None? && Good(st) && CleanIndex(ts, ix)
    requires AllDatasets(ts, st, ix, n, sqrt).0.error.None?
    ensures forall i: nat ::
      Logged(st, AllDatasets(ts, st, ix, n, sqrt).0, MergedPath(ts, i), AllApp(st.dir, ix, n, i), AllTouch(ix, n, i))
  {
    if n == 0 {
      forall i: nat
        ensures Logged(st, st, MergedPath(ts, i), AllApp(st.dir, ix, 0, i), AllTouch(ix, 0, i))
      {
        LoggedNothing(st, MergedPath(ts, i));
      }
    } else {
      var k := n - 1;
      var fm := ix[k].1;
      AllDatasetsLast(ts, st, ix, n, sqrt);
      var s := AllDatasets(ts, st, ix, k, sqrt).0;
      var s' := DatasetFiles(ts, s, fm, |fm|, sqrt).0;
      AllDatasetsLogs(ts, st, ix, k, sqrt);
      AllDatasetsAdvances(ts, st, ix, k, sqrt);
      assert CleanFiles(ts, fm);
      DatasetFilesLogs(ts, s, fm, |fm|, sqrt);
      forall i: nat
        ensures Logged(st, s', MergedPath(ts, i), AllApp(st.dir, ix, n, i), AllTouch(ix, n, i))
      {
        DatasetAppSame(ts, st.dir, s.dir, fm, |fm|, i);
        LoggedTrans(st, s, s', MergedPath(ts, i), AllApp(st.dir, ix, k, i), AllTouch(ix, k, i),
                    DatasetApp(s.dir, fm, |fm|, i), DatasetTouch(fm, |fm|, i));
      }
    }
  }

  // ---------------------------------------------------------------------------------------
  // Which summaries are clean

  /** A node's shard log of run `r`, as the evaluator names it, is never taken for a merged log. */
  lemma ShardLogNotMerged(ts: string, r: nat, slurmNodeId: Option<string>)
    ensures !IsMerged(ts, Evaluators.ShardPath(ts + "_run" + NatToString(r), Evaluators.NodeId(slurmNodeId)))
  {
    var node := Evaluators.NodeId(slurmNodeId);
    var num := NatToString(r);
    Evaluators.ShardPathForm(ts + "_run" + num, node);
    Regroup("results/eval_results_", ts, "_run", num, "_", node, ".jsonl");
    NotMergedInside(ts, num + "_" + node, |num|);
  }

  lemma Regroup(a: string, b: string, c: string, d: string, e: string, f: string, g: string)
    ensures a + (b + c + d) + e + f + g == a + b + c + (d + e + f) + g
  {
    assert a + (b + c + d) + e + f + g == a + b + c + d + e + f + g;
    assert a + b + c + (d + e + f) + g == a + b + c + d + e + f + g;
  }

  /** A name with anything but a digit between `_run` and `.jsonl` is not a merged log. */
  lemma NotMergedInside(ts: string, mid: string, k: nat)
    requires k < |mid| && !('0' <= mid[k] <= '9')
    ensures !IsMerged(ts, "results/eval_results_" + ts + "_run" + mid + ".jsonl")
  {
    var pre := "results/eval_results_" + ts + "_run";
    var p := pre + mid + ".jsonl";
    assert p[|pre|..|p| - 6] == mid;
    DigitsOnlyAt(mid);
  }

  /** No shard log list of one `file_res` names a merged log of the run. */
  predicate CleanResult(ts: string, fr: FileResult)
  {
    forall i :: 0 <= i < |fr.runResults| ==> !IsMerged(ts, fr.runResults[i])
  }

  /** No summary lists a merged log of the run among its shard logs. */
  predicate CleanReports(ts: string, reports: seq<Report>)
  {
    forall k, m, j :: 0 <= k < |reports| && 0 <= m < |reports[k].datasets| && 0 <= j < |reports[k].datasets[m].1.results| ==>
      CleanResult(ts, reports[k].datasets[m].1.results[j])
  }

  lemma CleanAddRunPaths(ts: string, runs: Runs, paths: seq<string>, n: nat)
    requires n <= |paths| && CleanRuns(ts, runs)
    requires forall i :: 0 <= i < n ==> !IsMerged(ts, paths[i])
    ensures CleanRuns(ts, AddRunPaths(runs, paths, n))
  {
    var r := AddRunPaths(runs, paths, n);
    forall j, p | 0 <= j < |r| && p in r[j]
      ensures !IsMerged(ts, p)
    {
      AddRunPathsAt(runs, paths, n, j);
      assert r[j] == RunList(r, j);
    }
  }

  lemma CleanFilesOf(ts: string, ix: Index, ds: string)
    requires CleanIndex(ts, ix)
    ensures CleanFiles(ts, FilesOf(ix, ds))
  {
    Dicts.GetFound(ix, ds);
    if Dicts.Get(ix, ds).Some? {
      var j :| 0 <= j < |ix| && ix[j] == (ds, Dicts.Get(ix, ds).value);
    }
  }

  lemma CleanRunsOf(ts: string, fm: Dicts.Dict<Runs>, f: string)
    requires CleanFiles(ts, fm)
    ensures CleanRuns(ts, Dicts.Get(fm, f).GetOr([]))
  {
    Dicts.GetFound(fm, f);
    if Dicts.Get(fm, f).Some? {
      var k :| 0 <= k < |fm| && fm[k] == (f, Dicts.Get(fm, f).value);
    }
  }

  lemma CleanPutFiles(ts: string, fm: Dicts.Dict<Runs>, f: string, runs: Runs)
    requires CleanFiles(ts, fm) && CleanRuns(ts, runs)
    ensures CleanFiles(ts, Dicts.Put(fm, f, runs))
  {
    var fm' := Dicts.Put(fm, f, runs);
    Dicts.PutMembers(fm, f, runs);
    forall k | 0 <= k < |fm'|
      ensures CleanRuns(ts, fm'[k].1)
    {
      assert fm'[k] in fm';
      if fm'[k] != (f, runs) {
        var x :| 0 <= x < |fm| && fm[x] == fm'[k];
      }
    }
  }

  lemma CleanPutIndex(ts: string, ix: Index, ds: string, fm: Dicts.Dict<Runs>)
    requires CleanIndex(ts, ix) && CleanFiles(ts, fm)
    ensures CleanIndex(ts, Dicts.Put(ix, ds, fm))
  {
    var ix' := Dicts.Put(ix, ds, fm);
    Dicts.PutMembers(ix, ds, fm);
    forall j | 0 <= j < |ix'|
      ensures CleanFiles(ts, ix'[j].1)
    {
      assert ix'[j] in ix';
      if ix'[j] != (ds, fm) {
        var x :| 0 <= x < |ix| && ix[x] == ix'[j];
      }
    }
  }

  lemma CleanIndexFile(ts: string, ix: Index, ds: string, fr: FileResult)
    requires CleanIndex(ts, ix) && CleanResult(ts, fr)
    ensures CleanIndex(ts, IndexFile(ix, ds, fr))
  {
    var fm := FilesOf(ix, ds);
    CleanFilesOf(ts, ix, ds);
    CleanRunsOf(ts, fm, fr.file);
    var runs := AddRunPaths(RunsOf(ix, ds, fr.file), fr.runResults, |fr.runResults|);
    CleanAddRunPaths(ts, RunsOf(ix, ds, fr.file), fr.runResults, |fr.runResults|);
    CleanPutFiles(ts, fm, fr.file, runs);
    CleanPutIndex(ts, ix, ds, Dicts.Put(fm, fr.file, runs));
  }

  lemma {:induction false} CleanIndexResults(ts: string, ix: Index, ds: string, frs: seq<FileResult>)
    requires CleanIndex(ts, ix) && forall j :: 0 <= j < |frs| ==> CleanResult(ts, frs[j])
    ensures CleanIndex(ts, IndexResults(ix, ds, frs))
  {
    if frs == [] {
      CleanPutIndex(ts, ix, ds, []);
    } else {
      CleanIndexResults(ts, ix, ds, frs[..|frs| - 1]);
      CleanIndexFile(ts, IndexResults(ix, ds, frs[..|frs| - 1]), ds, frs[|frs| - 1]);
    }
  }

  lemma {:induction false} CleanIndexDatasets(ts: string, ix: Index, dss: Dicts.Dict<DatasetResult>)
    requires CleanIndex(ts, ix)
    requires forall m, j :: 0 <= m < |dss| && 0 <= j < |dss[m].1.results| ==> CleanResult(ts, dss[m].1.results[j])
    ensures CleanIndex(ts, IndexDatasets(ix, dss))
  {
    if dss != [] {
      var last := dss[|dss| - 1];
      CleanIndexDatasets(ts, ix, dss[..|dss| - 1]);
      CleanIndexResults(ts, IndexDatasets(ix, dss[..|dss| - 1]), last.0, last.1.results);
    }
  }

  /** Clean summaries give an index whose run lists name no merged log. */
  lemma {:induction false} CleanIndexed(ts: string, reports: seq<Report>)
    requires CleanReports(ts, reports)
    ensures CleanIndex(ts, Indexed(reports))
  {
    if reports != [] {
      var init := reports[..|reports| - 1];
      assert CleanReports(ts, init);
      CleanIndexed(ts, init);
      CleanIndexDatasets(ts, Indexed(init), reports[|reports| - 1].datasets);
    }
  }

  // ---------------------------------------------------------------------------------------
  // The datasets of the index, each once

  lemma IndexFileDistinct(ix: Index, ds: string, fr: FileResult)
    requires Dicts.DistinctKeys(ix)
    ensures Dicts.DistinctKeys(IndexFile(ix, ds, fr))
  {
    var fm := FilesOf(ix, ds);
    Dicts.PutDistinct(ix, ds, Dicts.Put(fm, fr.file, AddRunPaths(RunsOf(ix, ds, fr.file), fr.runResults, |fr.runResults|)));
  }

  lemma {:induction false} IndexResultsDistinct(ix: Index, ds: string, frs: seq<FileResult>)
    requires Dicts.DistinctKeys(ix)
    ensures Dicts.DistinctKeys(IndexResults(ix, ds, frs))
  {
    if frs == [] {
      Dicts.PutDistinct(ix, ds, []);
    } else {
      IndexResultsDistinct(ix, ds, frs[..|frs| - 1]);
      IndexFileDistinct(IndexResults(ix, ds, frs[..|frs| - 1]), ds, frs[|frs| - 1]);
    }
  }

  lemma {:induction false} IndexDatasetsDistinct(ix: Index, dss: Dicts.Dict<DatasetResult>)
    requires Dicts.DistinctKeys(ix)
    ensures Dicts.DistinctKeys(IndexDatasets(ix, dss))
  {
    if dss != [] {
      var last := dss[|dss| - 1];
      IndexDatasetsDistinct(ix, dss[..|dss| - 1]);
      IndexResultsDistinct(IndexDatasets(ix, dss[..|dss| - 1]), last.0, last.1.results);
    }
  }

  /** The index holds each dataset once. */
  lemma {:induction false} IndexedDistinct(reports: seq<Report>)
    ensures Dicts.DistinctKeys(Indexed(reports))
  {
    if reports != [] {
      var init := reports[..|reports| - 1];
      IndexedDistinct(init);
      IndexDatasetsDistinct(Indexed(init), reports[|reports| - 1].datasets);
    }
  }

  /** The dataset and entry the reference results store for each dataset of the index. */
  function RefPairs(ts: string, dir: Dir, ix: Index, sqrt: real -> real): (ps: Dicts.Dict<DatasetResult>)
    ensures |ps| == |ix| && forall j :: 0 <= j < |ix| ==> ps[j] == (ix[j].0, Summarise(RefFiles(ts, dir, ix[j].1, sqrt)))
  {
    seq(|ix|, j requires 0 <= j < |ix| => (ix[j].0, Summarise(RefFiles(ts, dir, ix[j].1, sqrt))))
  }

  /** The reference results store the entries of the datasets one after another. */
  lemma {:induction false} RefDatasetsPairs(ts: string, dir: Dir, ix: Index, n: nat, sqrt: real -> real)
    requires n <= |ix|
    ensures RefDatasets(ts, dir, ix, n, sqrt) == Dicts.PutAll(RefPairs(ts, dir, ix, sqrt)[..n])
  {
    hide Dicts.Put, Summarise, RefFiles;
    if n > 0 {
      var ps := RefPairs(ts, dir, ix, sqrt);
      RefDatasetsPairs(ts, dir, ix, n - 1, sqrt);
      assert ps[..n][..n - 1] == ps[..n - 1];
      assert ps[..n][n - 1] == ps[n - 1];
    }
  }

  /**
   * With each dataset once in the index, the final results have an entry for exactly the
   * datasets of the index, each computed from that dataset's files.
   */
  lemma RefDatasetsGet(ts: string, dir: Dir, ix: Index, sqrt: real -> real, ds: string)
    requires Dicts.DistinctKeys(ix)
    ensures Dicts.Get(RefDatasets(ts, dir, ix, |ix|, sqrt), ds) ==
      match Dicts.Get(ix, ds)
      case Some(fm) => Some(Summarise(RefFiles(ts, dir, fm, sqrt)))
      case None => None
  {
    var ps := RefPairs(ts, dir, ix, sqrt);
    RefDatasetsPairs(ts, dir, ix, |ix|, sqrt);
    assert ps[..|ix|] == ps;
    Dicts.FindSpec(ix, ds);
    match Dicts.Find(ix, ds)
    case Some(j) =>
      Dicts.PutAllAt(ps, j);
    case None =>
      Dicts.PutAllAbsent(ps, ds);
  }

  // ---------------------------------------------------------------------------------------
  // The entries of the report

  /** A run's accuracy does not depend on the sort: it is the share of correct records among those read. */
  lemma RunAccRead(dir: Dir, paths: seq<string>)
    requires ReadLogs(dir, paths).0.Success?
    ensures RunAcc(dir, paths) == Ratio(Seqs.Map(IsCorrect, ReadLogs(dir, paths).0.value))
  {
    var rs := ReadLogs(dir, paths).0.value;
    SortByQuestionSpec(rs);
    Seqs.MapPermutation(IsCorrect, SortByQuestion(rs), rs);
    RatioPermutation(Seqs.Map(IsCorrect, SortByQuestion(rs)), Seqs.Map(IsCorrect, rs));
  }

  /**
   * A file's entry lists one accuracy per run, in run order, each a ratio; the mean is 0 without
   * runs and the deviation 0 below two runs; `results` names each run's merged log once.
   */
  lemma RefFileFields(ts: string, dir: Dir, f: string, runs: Runs, sqrt: real -> real)
    ensures var fr := RefFile(ts, dir, f, runs, sqrt);
      fr.file == f && |fr.accuracies| == |runs| &&
      (forall i :: 0 <= i < |runs| ==> fr.accuracies[i] == RunAcc(dir, runs[i])) &&
      (forall i :: 0 <= i < |runs| ==> 0.0 <= fr.accuracies[i] <= 1.0) &&
      (runs == [] ==> fr.accuracyMean == 0.0) &&
      (runs != [] ==> fr.accuracyMean == Stats.Mean(fr.accuracies) && 0.0 <= fr.accuracyMean <= 1.0) &&
      (|runs| < 2 ==> fr.accuracyStd == 0.0) &&
      fr.runResults == MergedNames(ts, |runs|) && Seqs.Distinct(fr.runResults)
  {
    var accs := Accuracies(dir, runs);
    MergedNamesDistinct(ts, |runs|);
    if runs != [] {
      Stats.MeanBounds(accs, 0.0, 1.0);
    }
  }

  /** A dataset's averages are the means of its files' means and deviations, 0 without files. */
  lemma SummariseFields(frs: seq<FileResult>)
    ensures var r := Summarise(frs);
      r.results == frs &&
      (frs == [] ==> r.averageAccuracy == 0.0 && r.averageStd == 0.0) &&
      (frs != [] ==> r.averageAccuracy == Stats.Mean(Seqs.Map(MeanOf, frs)) && r.averageStd == Stats.Mean(Seqs.Map(StdOf, frs)))
  {
  }

  // ---------------------------------------------------------------------------------------
  // The whole of `merge_distributed_results`

  /** Stage 2 starts with nothing read and no merged log truncated. */
  function Start(dir: Dir): Progress
  {
    Progress(dir, {}, {}, None)
  }

  /** Stage 2 over the index of the summaries `reports`. */
  function Staged(ts: string, dir: Dir, reports: seq<Report>, sqrt: real -> real): (Progress, Dicts.Dict<DatasetResult>)
  {
    var ix := Indexed(reports);
    AllDatasets(ts, Start(dir), ix, |ix|, sqrt)
  }

  /** The shard logs the summaries list. */
  function Listed(reports: seq<Report>): set<string>
  {
    var ix := Indexed(reports);
    AllListed(ix, |ix|)
  }

  /**
   * `merge_distributed_results(ts, ...)` over the directory `dir`, where `listing` is what `glob`
   * found, in the order it found it.
   */
  function MergeResults(ts: string, listing: seq<string>, dir: Dir, sqrt: real -> real, exporter: Exporter): (Outcome, Dir)
  {
    if listing == [] then (Exit(1), dir)
    else
      match Loaded(dir, listing)
      case Failure(e) => (Raised(e), dir)
      case Success(reports) => Conclude(ts, listing, reports, Staged(ts, dir, reports, sqrt), exporter)
  }

  /** `final_results`: the run's timestamp, the first summary's config and duration, the merged results. */
  function Final(ts: string, base: Report, res: Dicts.Dict<DatasetResult>): Report
  {
    Report(ts, base.config, res, Some(base.duration.GetOr(0.0)))
  }

  /**
   * The export as JSON and HTML and the clean-up once stage 2 has left `staged`; an exception,
   * in the export too, skips the clean-up.
   */
  function Conclude(ts: string, listing: seq<string>, reports: seq<Report>, staged: (Progress, Dicts.Dict<DatasetResult>),
                    exporter: Exporter): (Outcome, Dir)
    requires reports != []
  {
    var (st, res) := staged;
    if st.error.Some? then (Raised(st.error.value), st.dir)
    else if reports[0].config.None? then (Raised("KeyError: 'config'"), st.dir)
    else
      var (written, raised) := Exported(st.dir, ts, Final(ts, reports[0], res), ["json", "html"], exporter);
      if raised.Some? then (Raised(raised.value), written)
      else (Exit(0), RemoveAll(written, (set p | p in listing) + st.merged))
  }

  method MergeDistributed(ts: string, listing: seq<string>, dir0: Dir, sqrt: real -> real, exporter: Exporter)
    returns (out: Outcome, dir: Dir)
    ensures (out, dir) == MergeResults(ts, listing, dir0, sqrt, exporter)
  {
    if listing == [] {
      return Exit(1), dir0;
    }
    var loaded := LoadSummaries(dir0, listing);
    if loaded.Failure? {
      return Raised(loaded.error), dir0;
    }
    var reports := loaded.value;
    var base := reports[0];
    var ix := IndexShards(reports);
    var st, res := MergeAll(ts, Start(dir0), ix, sqrt);
    if st.error.Some? {
      return Raised(st.error.value), st.dir;
    }
    if base.config.None? {
      return Raised("KeyError: 'config'"), st.dir;
    }
    var (written, raised) := Exported(st.dir, ts, Final(ts, base, res), ["json", "html"], exporter);
    if raised.Some? {
      return Raised(raised.value), written;
    }
    dir := Cleanup(written, listing, st.merged);
    out := Exit(0);
  }

  // ---------------------------------------------------------------------------------------
  // Properties of the whole

  /** `glob` finds nothing exactly when there is no summary of the run; then it returns 1 and changes nothing. */
  lemma MergeNoShards(ts: string, listing: seq<string>, dir: Dir, sqrt: real -> real, exporter: Exporter)
    requires Globbed(ts, listing, dir)
    ensures listing == [] <==> forall p :: p in dir ==> !IsSummaryPath(ts, p)
    ensures listing == [] ==> MergeResults(ts, listing, dir, sqrt, exporter) == (Exit(1), dir)
  {
    if listing != [] {
      assert listing[0] in listing;
    }
  }

  /**
   * It returns 1 exactly when there are no summaries, and 0 exactly when the summaries load,
   * stage 2 reads every shard log, the first summary has a config and neither the JSON nor the
   * HTML exporter raises; otherwise it raises.
   */
  lemma MergeOutcome(ts: string, listing: seq<string>, dir: Dir, sqrt: real -> real, exporter: Exporter)
    ensures var out := MergeResults(ts, listing, dir, sqrt, exporter).0;
      (out.Exit? ==> out.code == 0 || out.code == 1) &&
      (out == Exit(1) <==> listing == []) &&
      (out == Exit(0) <==>
        listing != [] && Loaded(dir, listing).Success? &&
        var reports := Loaded(dir, listing).value;
        var staged := Staged(ts, dir, reports, sqrt);
        staged.0.error.None? && reports[0].config.Some? &&
        exporter("json", Final(ts, reports[0], staged.1)).None? && exporter("html", Final(ts, reports[0], staged.1)).None?)
  {
    if listing != [] && Loaded(dir, listing).Success? {
      var reports := Loaded(dir, listing).value;
      var staged := Staged(ts, dir, reports, sqrt);
      ExportedJsonHtml(staged.0.dir, ts, Final(ts, reports[0], staged.1), exporter);
    }
  }

  /** Stage 2 leaves every path but the merged logs as it was, on success or not. */
  lemma StagedFrame(ts: string, dir: Dir, reports: seq<Report>, sqrt: real -> real)
    ensures Frame(ts, dir, Staged(ts, dir, reports, sqrt).0.dir)
  {
    var ix := Indexed(reports);
    AllDatasetsAdvances(ts, Start(dir), ix, |ix|, sqrt);
  }

  /**
   * There is no `finally`: when it raises, no summary and no shard log is deleted. Only merged
   * logs may have changed, and the JSON report when the HTML exporter raised after it.
   */
  lemma MergeRaisedKeeps(ts: string, listing: seq<string>, dir: Dir, sqrt: real -> real, exporter: Exporter)
    requires MergeResults(ts, listing, dir, sqrt, exporter).0.Raised?
    ensures var after := MergeResults(ts, listing, dir, sqrt, exporter).1;
      dir.Keys <= after.Keys &&
      (forall p :: p in after && p !in dir ==> IsMerged(ts, p) || p == FinalPath(ts)) &&
      (forall p :: p in dir && !IsMerged(ts, p) && p != FinalPath(ts) ==> after[p] == dir[p])
  {
    if listing != [] && Loaded(dir, listing).Success? {
      var reports := Loaded(dir, listing).value;
      var staged := Staged(ts, dir, reports, sqrt);
      StagedFrame(ts, dir, reports, sqrt);
      if staged.0.error.None? && reports[0].config.Some? {
        ExportedJsonHtml(staged.0.dir, ts, Final(ts, reports[0], staged.1), exporter);
      }
    }
  }

  /** Every listed path is a clean one. */
  lemma {:induction false} FileListedClean(ts: string, runs: Runs, n: nat)
    requires n <= |runs| && CleanRuns(ts, runs)
    ensures forall p :: p in FileListed(runs, n) ==> !IsMerged(ts, p)
  {
    if n > 0 {
      FileListedClean(ts, runs, n - 1);
    }
  }

  lemma {:induction false} DatasetListedClean(ts: string, fm: Dicts.Dict<Runs>, n: nat)
    requires n <= |fm| && CleanFiles(ts, fm)
    ensures forall p :: p in DatasetListed(fm, n) ==> !IsMerged(ts, p)
  {
    if n > 0 {
      DatasetListedClean(ts, fm, n - 1);
      FileListedClean(ts, fm[n - 1].1, |fm[n - 1].1|);
    }
  }

  lemma {:induction false} AllListedClean(ts: string, ix: Index, n: nat)
    requires n <= |ix| && CleanIndex(ts, ix)
    ensures forall p :: p in AllListed(ix, n) ==> !IsMerged(ts, p)
  {
    if n > 0 {
      AllListedClean(ts, ix, n - 1);
      DatasetListedClean(ts, ix[n - 1].1, |ix[n - 1].1|);
    }
  }

  /** With clean summaries, stage 2 consumes exactly the listed shard logs that exist. */
  lemma StagedConsumed(ts: string, dir: Dir, reports: seq<Report>, sqrt: real -> real)
    requires CleanReports(ts, reports) && Staged(ts, dir, reports, sqrt).0.error.None?
    ensures Staged(ts, dir, reports, sqrt).0.merged == Listed(reports) * dir.Keys
    ensures forall p :: p in Listed(reports) ==> !IsMerged(ts, p)
  {
    var ix := Indexed(reports);
    CleanIndexed(ts, reports);
    AllDatasetsConsumed(ts, Start(dir), ix, |ix|, sqrt);
    AllListedClean(ts, ix, |ix|);
  }

  /** With clean summaries, stage 2 gives the results computed from the directory as it was. */
  lemma StagedResults(ts: string, dir: Dir, reports: seq<Report>, sqrt: real -> real)
    requires CleanReports(ts, reports) && Staged(ts, dir, reports, sqrt).0.error.None?
    ensures var ix := Indexed(reports); Staged(ts, dir, reports, sqrt).1 == RefDatasets(ts, dir, ix, |ix|, sqrt)
  {
    var ix := Indexed(reports);
    CleanIndexed(ts, reports);
    AllDatasetsOut(ts, Start(dir), ix, |ix|, sqrt);
  }

  /**
   * With clean summaries, the merged log of every run some file has is truncated once and then
   * holds what the files of the index append to it, dataset after dataset and file after file.
   */
  lemma StagedLogs(ts: string, dir: Dir, reports: seq<Report>, sqrt: real -> real, i: nat)
    requires CleanReports(ts, reports) && Staged(ts, dir, reports, sqrt).0.error.None?
    ensures var ix := Indexed(reports); var d := Staged(ts, dir, reports, sqrt).0.dir;
      AllTouch(ix, |ix|, i) ==> MergedPath(ts, i) in d && d[MergedPath(ts, i)] == Lines(LinesOf(AllApp(dir, ix, |ix|, i)))
  {
    var ix := Indexed(reports);
    CleanIndexed(ts, reports);
    AllDatasetsLogs(ts, Start(dir), ix, |ix|, sqrt);
    assert Before(Start(dir), MergedPath(ts, i)) == [];
    assert [] + LinesOf(AllApp(dir, ix, |ix|, i)) == LinesOf(AllApp(dir, ix, |ix|, i));
  }

  /** Once the summaries load, the result is stage 2 on their index, then the report and the clean-up. */
  lemma MergeLoaded(ts: string, listing: seq<string>, dir: Dir, sqrt: real -> real, exporter: Exporter)
    requires listing != [] && Loaded(dir, listing).Success?
    ensures var reports := Loaded(dir, listing).value;
      reports != [] && MergeResults(ts, listing, dir, sqrt, exporter) == Conclude(ts, listing, reports, Staged(ts, dir, reports, sqrt), exporter)
  {
  }

  /** The directory after the export and the clean-up. */
  lemma ConcludeDir(ts: string, listing: seq<string>, reports: seq<Report>, staged: (Progress, Dicts.Dict<DatasetResult>),
                    exporter: Exporter)
    requires reports != [] && Conclude(ts, listing, reports, staged, exporter).0 == Exit(0)
    ensures var after := Conclude(ts, listing, reports, staged, exporter).1; var st := staged.0;
      var final := Final(ts, reports[0], staged.1);
      st.error.None? && reports[0].config.Some? && exporter("json", final).None? && exporter("html", final).None? &&
      (forall p :: p in after <==> (p in st.dir || p == FinalPath(ts) || p == HtmlPath(ts)) && p !in listing && p !in st.merged) &&
      (forall p :: p in after && p != FinalPath(ts) && p != HtmlPath(ts) ==> after[p] == st.dir[p]) &&
      (FinalPath(ts) in after ==> after[FinalPath(ts)] == Doc(final)) &&
      (HtmlPath(ts) in after ==> after[HtmlPath(ts)] == Rendered("html", final))
  {
    var st := staged.0;
    var final := Final(ts, reports[0], staged.1);
    var written := st.dir[FinalPath(ts) := Doc(final)][HtmlPath(ts) := Rendered("html", final)];
    var gone := (set p | p in listing) + st.merged;
    assert st.error.None? && reports[0].config.Some? && exporter("json", final).None? && exporter("html", final).None? &&
      Conclude(ts, listing, reports, staged, exporter).1 == RemoveAll(written, gone) by {
      ExportedJsonHtml(st.dir, ts, final, exporter);
    }
    assert forall p :: p in gone <==> p in listing || p in st.merged;
    HtmlPathApart(ts, 0, ts);
    hide *;
    WriteTwoThenRemove(st.dir, FinalPath(ts), Doc(final), HtmlPath(ts), Rendered("html", final), gone);
  }

  /**
   * After a merge that returns 0, with clean summaries: every summary is gone, so is every
   * listed shard log that existed, every other path but the merged logs and the report is as
   * it was, and no other path appears.
   */
  lemma MergeCleanup(ts: string, listing: seq<string>, dir: Dir, sqrt: real -> real, exporter: Exporter)
    requires listing != [] && Loaded(dir, listing).Success? && CleanReports(ts, Loaded(dir, listing).value)
    requires MergeResults(ts, listing, dir, sqrt, exporter).0 == Exit(0)
    ensures var after := MergeResults(ts, listing, dir, sqrt, exporter).1; var listed := Listed(Loaded(dir, listing).value);
      (forall p :: p in listing ==> p !in after) &&
      (forall p :: p in listed && p in dir ==> p !in after) &&
      (forall p :: p in dir && p !in listing && p !in listed && !IsMerged(ts, p) && p != FinalPath(ts) && p != HtmlPath(ts) ==>
        p in after && after[p] == dir[p]) &&
      (forall p :: p in after ==> p in dir || IsMerged(ts, p) || p == FinalPath(ts) || p == HtmlPath(ts))
  {
    var reports := Loaded(dir, listing).value;
    MergeLoaded(ts, listing, dir, sqrt, exporter);
    var staged := Staged(ts, dir, reports, sqrt);
    ConcludeDir(ts, listing, reports, staged, exporter);
    StagedFrame(ts, dir, reports, sqrt);
    StagedConsumed(ts, dir, reports, sqrt);
  }

  /**
   * After a merge that returns 0, with clean summaries, the merged log of each run some file has
   * holds the records of that run's existing shard logs, sorted by question id per file, file
   * after file: truncated once, then appended to.
   */
  lemma MergeLogs(ts: string, listing: seq<string>, dir: Dir, sqrt: real -> real, exporter: Exporter, i: nat)
    requires Globbed(ts, listing, dir)
    requires listing != [] && Loaded(dir, listing).Success? && CleanReports(ts, Loaded(dir, listing).value)
    requires MergeResults(ts, listing, dir, sqrt, exporter).0 == Exit(0)
    ensures var after := MergeResults(ts, listing, dir, sqrt, exporter).1; var ix := Indexed(Loaded(dir, listing).value);
      AllTouch(ix, |ix|, i) ==>
        MergedPath(ts, i) in after && after[MergedPath(ts, i)] == Lines(LinesOf(AllApp(dir, ix, |ix|, i)))
  {
    var reports := Loaded(dir, listing).value;
    MergeLoaded(ts, listing, dir, sqrt, exporter);
    var staged := Staged(ts, dir, reports, sqrt);
    ConcludeDir(ts, listing, reports, staged, exporter);
    StagedConsumed(ts, dir, reports, sqrt);
    StagedLogs(ts, dir, reports, sqrt, i);
    HtmlPathApart(ts, i, ts);
    MergedPathIsMerged(ts, i);
    MergedPathNotSummary(ts, i, ts);
    FinalPathNotMerged(ts, i);
  }

  /**
   * After a merge that returns 0, with clean summaries: the report is there unless a summary
   * lists it as a shard log and it existed; its timestamp is `ts`, its config and duration come
   * from the first summary `glob` returned, and its results are computed from the directory as
   * it was before the merge.
   */
  lemma MergeReport(ts: string, listing: seq<string>, dir: Dir, sqrt: real -> real, exporter: Exporter)
    requires Globbed(ts, listing, dir)
    requires listing != [] && Loaded(dir, listing).Success? && CleanReports(ts, Loaded(dir, listing).value)
    requires MergeResults(ts, listing, dir, sqrt, exporter).0 == Exit(0)
    ensures var after := MergeResults(ts, listing, dir, sqrt, exporter).1; var reports := Loaded(dir, listing).value;
      var ix := Indexed(reports);
      var final := Report(ts, reports[0].config, RefDatasets(ts, dir, ix, |ix|, sqrt), Some(reports[0].duration.GetOr(0.0)));
      (FinalPath(ts) in after <==> !(FinalPath(ts) in dir && FinalPath(ts) in Listed(reports))) &&
      (HtmlPath(ts) in after <==> !(HtmlPath(ts) in dir && HtmlPath(ts) in Listed(reports))) &&
      Some(reports[0]) == ReadReport(dir, listing[0]) && reports[0].config.Some? &&
      (FinalPath(ts) in after ==> after[FinalPath(ts)] == Doc(final)) &&
      (HtmlPath(ts) in after ==> after[HtmlPath(ts)] == Rendered("html", final))
  {
    var reports := Loaded(dir, listing).value;
    LoadedSpec(dir, listing);
    MergeLoaded(ts, listing, dir, sqrt, exporter);
    var staged := Staged(ts, dir, reports, sqrt);
    ConcludeDir(ts, listing, reports, staged, exporter);
    StagedFrame(ts, dir, reports, sqrt);
    StagedConsumed(ts, dir, reports, sqrt);
    StagedResults(ts, dir, reports, sqrt);
    FinalPathNotSummary(ts);
    HtmlPathApart(ts, 0, ts);
  }

  /**
   * The report has a result for exactly the datasets some summary names, in the order they are
   * first met, each computed from the runs the summaries list for its files.
   */
  lemma ReportDatasets(ts: string, dir: Dir, reports: seq<Report>, sqrt: real -> real, ds: string)
    ensures var ix := Indexed(reports); var res := RefDatasets(ts, dir, ix, |ix|, sqrt);
      (Dicts.Get(res, ds).Some? <==> ReportsAnswer(reports, ds, Named)) &&
      (Dicts.Get(res, ds).Some? ==> Dicts.Get(res, ds).value == Summarise(RefFiles(ts, dir, FilesOf(ix, ds), sqrt)))
  {
    var ix := Indexed(reports);
    IndexedDistinct(reports);
    RefDatasetsGet(ts, dir, ix, sqrt, ds);
    IndexedHolds(reports, ds, Named);
  }
}
