/**
 * `finalize_results`: merging the shards a distributed run leaves under `results/` into one
 * report and one log per run, then deleting the shards.
 *
 * Stage 1 reads the node summaries in name order and indexes, per run, the shard logs they
 * list and, per dataset and file, how many runs it had. Stage 2 concatenates each run's shard
 * logs, sorts the records by question id and writes one merged log per run. Stage 3 scans the
 * merged logs for records that name their source file. Stage 4 assembles per-file accuracies,
 * falling back to the summaries' own accuracies, and the per-dataset averages. Cleanup removes
 * the summaries and the shard logs read, even when a later stage raised.
 */
module Finalize {
  import opened Wrappers
  import Dicts
  import Json
  import Orders
  import Seqs
  import Stats
  import opened Records
  import opened Shards

  function Max(a: nat, b: nat): nat
  {
    if a >= b then a else b
  }

  // ---------------------------------------------------------------------------------------
  // Stage 1: the node summaries and their index

  /** One file entry of a summary: its dataset, its file and the shard logs of its runs. */
  datatype Entry = Entry(dataset: string, file: string, paths: seq<string>)

  function FileEntries(ds: string, frs: seq<FileResult>): (es: seq<Entry>)
    ensures |es| == |frs|
    ensures forall k :: 0 <= k < |frs| ==> es[k] == Entry(ds, frs[k].file, frs[k].runResults)
  {
    if frs == [] then []
    else FileEntries(ds, frs[..|frs| - 1]) + [Entry(ds, frs[|frs| - 1].file, frs[|frs| - 1].runResults)]
  }

  /** `for ds_name, ds_data in ...items(): for file_res in ds_data.get("results", [])` */
  function DatasetEntries(d: Dicts.Dict<DatasetResult>): seq<Entry>
  {
    if d == [] then [] else DatasetEntries(d[..|d| - 1]) + FileEntries(d[|d| - 1].0, d[|d| - 1].1.results)
  }

  /** The file entries of all summaries, in the order the nested loops visit them. */
  function Entries(reports: seq<Report>): seq<Entry>
  {
    if reports == [] then []
    else Entries(reports[..|reports| - 1]) + DatasetEntries(reports[|reports| - 1].datasets)
  }

  /**
   * `run_jsonl_shards` as the lists of runs `0 .. |runs|-1`, and `ds_file_runs` as the number
   * of runs per file: the run indices added for a file are always `range(n)` for some `n`.
   */
  datatype Index = Index(runs: seq<seq<string>>, files: Dicts.Dict<Dicts.Dict<nat>>)

  function Files(ix: Index, ds: string): Dicts.Dict<nat>
  {
    Dicts.Get(ix.files, ds).GetOr([])
  }

  function RunCount(ix: Index, ds: string, f: string): nat
  {
    Dicts.Get(Files(ix, ds), f).GetOr(0)
  }

  /** The loop over `enumerate(jsonl_paths)` of one entry; an entry with no logs adds nothing. */
  function AddEntry(ix: Index, e: Entry): Index
  {
    if e.paths == [] then ix
    else
      Index(AddRunPaths(ix.runs, e.paths, |e.paths|),
            Dicts.Put(ix.files, e.dataset,
              Dicts.Put(Files(ix, e.dataset), e.file, Max(RunCount(ix, e.dataset, e.file), |e.paths|))))
  }

  function Discovered(es: seq<Entry>): Index
  {
    if es == [] then Index([], []) else AddEntry(Discovered(es[..|es| - 1]), es[|es| - 1])
  }

  method Discover(es: seq<Entry>) returns (runs: seq<seq<string>>, files: Dicts.Dict<Dicts.Dict<nat>>)
    ensures Index(runs, files) == Discovered(es)
  {
    runs, files := [], [];
    var k := 0;
    while k < |es|
      invariant 0 <= k <= |es|
      invariant Index(runs, files) == Discovered(es[..k])
    {
      assert es[..k + 1][..k] == es[..k];
      runs, files := DiscoverEntry(runs, files, es[k]);
      k := k + 1;
    }
    assert es[..k] == es;
  }

  /** The innermost loop: run index `j` of the entry is recorded for its file and its log for run `j`. */
  method DiscoverEntry(runs0: seq<seq<string>>, files0: Dicts.Dict<Dicts.Dict<nat>>, e: Entry)
    returns (runs: seq<seq<string>>, files: Dicts.Dict<Dicts.Dict<nat>>)
    ensures Index(runs, files) == AddEntry(Index(runs0, files0), e)
  {
    runs, files := runs0, files0;
    var j := 0;
    while j < |e.paths|
      invariant 0 <= j <= |e.paths|
      invariant Index(runs, files) == EntryPrefix(Index(runs0, files0), e, j)
    {
      DiscoverStep(Index(runs0, files0), e, j);
      var fs := Dicts.Get(files, e.dataset).GetOr([]);
      var n: nat := Dicts.Get(fs, e.file).GetOr(0);
      files := Dicts.Put(files, e.dataset, Dicts.Put(fs, e.file, Max(n, j + 1)));
      runs := AddRunPath(runs, j, e.paths[j]);
      j := j + 1;
    }
  }

  /** The index after the first `j` passes of the innermost loop. */
  ghost function EntryPrefix(ix: Index, e: Entry, j: nat): (r: Index)
    requires j <= |e.paths|
    ensures j == |e.paths| ==> r == AddEntry(ix, e)
    ensures j <= |r.runs|
  {
    Index(AddRunPaths(ix.runs, e.paths, j),
          if j == 0 then ix.files
          else Dicts.Put(ix.files, e.dataset, Dicts.Put(Files(ix, e.dataset), e.file, Max(RunCount(ix, e.dataset, e.file), j))))
  }

  lemma DiscoverStep(ix: Index, e: Entry, j: nat)
    requires j < |e.paths|
    ensures var cur := EntryPrefix(ix, e, j);
      var fs := Dicts.Get(cur.files, e.dataset).GetOr([]);
      Index(AddRunPath(cur.runs, j, e.paths[j]),
            Dicts.Put(cur.files, e.dataset, Dicts.Put(fs, e.file, Max(Dicts.Get(fs, e.file).GetOr(0), j + 1)))) ==
      EntryPrefix(ix, e, j + 1)
  {
    var ds, f := e.dataset, e.file;
    var fs0, n0 := Files(ix, ds), RunCount(ix, ds, f);
    if j > 0 {
      var fs1 := Dicts.Put(fs0, f, Max(n0, j));
      Dicts.GetPut(ix.files, ds, fs1, ds);
      Dicts.GetPut(fs0, f, Max(n0, j), f);
      Dicts.PutPut(fs0, f, Max(n0, j), Max(n0, j + 1));
      Dicts.PutPut(ix.files, ds, fs1, Dicts.Put(fs0, f, Max(n0, j + 1)));
    }
  }

  /** The most logs any entry for (`ds`, `f`) lists. */
  function MaxRuns(es: seq<Entry>, ds: string, f: string): nat
  {
    if es == [] then 0
    else
      var e := es[|es| - 1];
      var n := MaxRuns(es[..|es| - 1], ds, f);
      if e.dataset == ds && e.file == f then Max(n, |e.paths|) else n
  }

  /** Run `i` is recorded for (`ds`, `f`) exactly when some entry for it lists at least `i+1` logs. */
  lemma {:induction false} MaxRunsSpec(es: seq<Entry>, ds: string, f: string, i: nat)
    ensures i < MaxRuns(es, ds, f) <==>
      exists k :: 0 <= k < |es| && es[k].dataset == ds && es[k].file == f && i < |es[k].paths|
  {
    if es != [] {
      var init := es[..|es| - 1];
      MaxRunsSpec(init, ds, f, i);
      assert forall k :: 0 <= k < |init| ==> init[k] == es[k];
      if i < MaxRuns(init, ds, f) {
        var k :| 0 <= k < |init| && init[k].dataset == ds && init[k].file == f && i < |init[k].paths|;
        assert es[k] == init[k];
      }
    }
  }

  /**
   * The index holds a file exactly when an entry for it lists a log, with the largest number of
   * logs listed; a dataset is there exactly when one of its entries lists a log.
   */
  lemma {:induction false} DiscoveredFiles(es: seq<Entry>, ds: string, f: string)
    ensures Dicts.Get(Files(Discovered(es), ds), f) == if MaxRuns(es, ds, f) > 0 then Some(MaxRuns(es, ds, f)) else None
    ensures Dicts.Get(Discovered(es).files, ds).Some? <==>
      exists k :: 0 <= k < |es| && es[k].dataset == ds && es[k].paths != []
  {
    if es != [] {
      var init := es[..|es| - 1];
      var e := es[|es| - 1];
      var ix := Discovered(init);
      DiscoveredFiles(init, ds, f);
      assert forall k :: 0 <= k < |init| ==> init[k] == es[k];
      if e.paths != [] {
        var fs := Dicts.Put(Files(ix, e.dataset), e.file, Max(RunCount(ix, e.dataset, e.file), |e.paths|));
        Dicts.GetPut(ix.files, e.dataset, fs, ds);
        Dicts.GetPut(Files(ix, e.dataset), e.file, Max(RunCount(ix, e.dataset, e.file), |e.paths|), f);
      }
      if Dicts.Get(ix.files, ds).Some? {
        var k :| 0 <= k < |init| && init[k].dataset == ds && init[k].paths != [];
        assert es[k] == init[k];
      }
    }
  }

  /** No file has more runs than there are run lists. */
  lemma {:induction false} DiscoveredCountBound(es: seq<Entry>, ds: string, f: string)
    ensures RunCount(Discovered(es), ds, f) <= |Discovered(es).runs|
  {
    if es != [] {
      var init := es[..|es| - 1];
      var e := es[|es| - 1];
      var ix := Discovered(init);
      DiscoveredCountBound(init, ds, f);
      if e.paths != [] {
        var fs := Dicts.Put(Files(ix, e.dataset), e.file, Max(RunCount(ix, e.dataset, e.file), |e.paths|));
        Dicts.GetPut(ix.files, e.dataset, fs, ds);
        Dicts.GetPut(Files(ix, e.dataset), e.file, Max(RunCount(ix, e.dataset, e.file), |e.paths|), f);
      }
    }
  }

  /** The logs of run `i`, entry by entry, with repetitions. */
  function Column(es: seq<Entry>, i: nat): seq<string>
  {
    if es == [] then []
    else
      var e := es[|es| - 1];
      Column(es[..|es| - 1], i) + (if i < |e.paths| then [e.paths[i]] else [])
  }

  /** Each path once, at its first occurrence. */
  function Dedup(s: seq<string>): (r: seq<string>)
    ensures Seqs.Distinct(r)
    ensures forall x :: x in r <==> x in s
  {
    if s == [] then [] else AddPath(Dedup(s[..|s| - 1]), s[|s| - 1])
  }

  lemma DedupSnoc(s: seq<string>, x: string)
    ensures Dedup(s + [x]) == AddPath(Dedup(s), x)
  {
    assert (s + [x])[..|s|] == s;
  }

  /** The list of run `i` is the logs the entries list at position `i`, in entry order, each once. */
  lemma {:induction false} DiscoveredRuns(es: seq<Entry>, i: nat)
    ensures RunList(Discovered(es).runs, i) == Dedup(Column(es, i))
  {
    if es != [] {
      var init := es[..|es| - 1];
      var e := es[|es| - 1];
      var ix := Discovered(init);
      DiscoveredRuns(init, i);
      assert Discovered(es) == AddEntry(ix, e);
      var tail := if i < |e.paths| then [e.paths[i]] else [];
      assert Column(es, i) == Column(init, i) + tail;
      if e.paths != [] {
        AddRunPathsAt(ix.runs, e.paths, |e.paths|, i);
      }
      if i < |e.paths| {
        DedupSnoc(Column(init, i), e.paths[i]);
      } else {
        assert Column(es, i) == Column(init, i);
      }
    }
  }

  /** There is a run list for every position any entry reaches, and no more. */
  lemma {:induction false} DiscoveredRunCount(es: seq<Entry>, i: nat)
    ensures i < |Discovered(es).runs| <==> exists k :: 0 <= k < |es| && i < |es[k].paths|
  {
    if es != [] {
      var init := es[..|es| - 1];
      DiscoveredRunCount(init, i);
      assert forall k :: 0 <= k < |init| ==> init[k] == es[k];
      if i < |Discovered(init).runs| {
        var k :| 0 <= k < |init| && i < |init[k].paths|;
        assert es[k] == init[k];
      }
    }
  }

  // ---------------------------------------------------------------------------------------
  // Stage 2: one merged log per run

  /** What stage 2 leaves: the directory, the shard logs it reached, and what it raised. */
  datatype MergeState = MergeState(dir: Dir, consumed: set<string>, error: Option<string>)

  /**
   * The runs `0 .. n-1` in ascending order; run `i` writes `names[i]`, and each run reads the
   * directory as the earlier runs left it.
   */
  function Merged(dir: Dir, names: seq<string>, runs: seq<seq<string>>, n: nat): MergeState
    requires n <= |runs| && n <= |names|
  {
    if n == 0 then MergeState(dir, {}, None)
    else
      var st := Merged(dir, names, runs, n - 1);
      if st.error.Some? then st
      else
        var (res, seen) := ReadLogs(st.dir, runs[n - 1]);
        match res
        case Failure(e) => MergeState(st.dir, st.consumed + seen, Some(e))
        case Success(rs) =>
          MergeState(WriteRecords(st.dir, names[n - 1], SortByQuestion(rs)), st.consumed + seen, None)
  }

  /** Stage 2, returning the state it leaves and `run_merged_path`. */
  method MergeRuns(dir0: Dir, ts: string, runs: seq<seq<string>>) returns (st: MergeState, names: seq<string>)
    ensures st == Merged(dir0, MergedNames(ts, |runs|), runs, |runs|)
    ensures st.error.None? ==> names == MergedNames(ts, |runs|)
  {
    ghost var all := MergedNames(ts, |runs|);
    var dir := dir0;
    var consumed: set<string> := {};
    names := [];
    var i := 0;
    while i < |runs|
      invariant 0 <= i <= |runs| && names == MergedNames(ts, i)
      invariant Merged(dir0, all, runs, i) == MergeState(dir, consumed, None)
    {
      var merged := MergedPath(ts, i);
      names := names + [merged];
      var read, seen := ReadRun(dir, runs[i]);
      consumed := consumed + seen;
      if read.Failure? {
        MergedStops(dir0, all, runs, i + 1, |runs|);
        return MergeState(dir, consumed, Some(read.error)), names;
      }
      var sorted := SortByQuestion(read.value);
      dir := WriteRecords(dir, merged, sorted);
      i := i + 1;
    }
    st := MergeState(dir, consumed, None);
  }

  lemma {:induction false} MergedStops(dir: Dir, names: seq<string>, runs: seq<seq<string>>, k: nat, n: nat)
    requires k <= n <= |runs| && n <= |names| && Merged(dir, names, runs, k).error.Some?
    ensures Merged(dir, names, runs, n) == Merged(dir, names, runs, k)
  {
    if k < n {
      MergedStops(dir, names, runs, k, n - 1);
    }
  }

  /**
   * Stage 2 writes merged logs and nothing else, and every log it reached was in the directory
   * at that point.
   */
  lemma {:induction false} MergedFrame(dir: Dir, names: seq<string>, runs: seq<seq<string>>, n: nat)
    requires n <= |runs| && n <= |names|
    ensures var st := Merged(dir, names, runs, n);
      dir.Keys <= st.dir.Keys && st.consumed <= st.dir.Keys &&
      (forall p :: p in st.dir && p !in dir ==> p in names[..n]) &&
      (forall p :: p in dir && p !in names[..n] ==> st.dir[p] == dir[p])
  {
    if n > 0 {
      MergedFrame(dir, names, runs, n - 1);
      assert names[..n] == names[..n - 1] + [names[n - 1]];
    }
  }

  /** After a successful stage 2 each run's merged log is there, as JSON lines. */
  lemma {:induction false} MergedWritten(dir: Dir, names: seq<string>, runs: seq<seq<string>>, n: nat, i: nat)
    requires i < n <= |runs| && n <= |names| && Seqs.Distinct(names)
    requires Merged(dir, names, runs, n).error.None?
    ensures names[i] in Merged(dir, names, runs, n).dir
    ensures Merged(dir, names, runs, n).dir[names[i]].Lines?
  {
    if i < n - 1 {
      MergedWritten(dir, names, runs, n - 1, i);
    }
  }

  /** No run lists a merged log among its shard logs. */
  predicate Unclobbered(names: seq<string>, runs: seq<seq<string>>)
  {
    forall j, i :: 0 <= j < |runs| && 0 <= i < |names| ==> names[i] !in runs[j]
  }

  /** With no merged log among a run's shard logs, reading them after earlier runs reads the original. */
  lemma MergedReads(dir: Dir, names: seq<string>, runs: seq<seq<string>>, n: nat)
    requires n < |runs| && n <= |names| && Unclobbered(names, runs)
    ensures ReadLogs(Merged(dir, names, runs, n).dir, runs[n]) == ReadLogs(dir, runs[n])
  {
    var st := Merged(dir, names, runs, n);
    MergedFrame(dir, names, runs, n);
    forall p | p in runs[n]
      ensures (p in dir <==> p in st.dir) && (p in dir ==> dir[p] == st.dir[p])
    {
      assert p !in names[..n];
    }
    ReadLogsFrame(dir, st.dir, runs[n]);
  }

  /**
   * When no run lists a merged log among its shards, the merged log of run `i` holds exactly
   * the records of that run's existing shard logs, stably sorted by question id.
   */
  lemma {:induction false} MergedLogs(dir: Dir, names: seq<string>, runs: seq<seq<string>>, n: nat, i: nat)
    requires i < n <= |runs| && n <= |names| && Seqs.Distinct(names) && Unclobbered(names, runs)
    requires Merged(dir, names, runs, n).error.None?
    ensures ReadLogs(dir, runs[i]).0.Success?
    ensures names[i] in Merged(dir, names, runs, n).dir
    ensures Merged(dir, names, runs, n).dir[names[i]] == Lines(LinesOf(SortByQuestion(ReadLogs(dir, runs[i]).0.value)))
  {
    if i < n - 1 {
      MergedLogs(dir, names, runs, n - 1, i);
    } else {
      MergedReads(dir, names, runs, n - 1);
    }
  }

  /**
   * When no run lists a merged log, stage 2 reaches exactly the listed shard logs that exist,
   * so these and only these are deleted with the summaries.
   */
  lemma {:induction false} MergedConsumed(dir: Dir, names: seq<string>, runs: seq<seq<string>>, n: nat)
    requires n <= |runs| && n <= |names| && Unclobbered(names, runs)
    requires Merged(dir, names, runs, n).error.None?
    ensures Merged(dir, names, runs, n).consumed == set j, p | 0 <= j < n && p in runs[j] && p in dir :: p
  {
    if n > 0 {
      MergedConsumed(dir, names, runs, n - 1);
      MergedReads(dir, names, runs, n - 1);
      ReadLogsSeen(dir, runs[n - 1]);
    }
  }

  // ---------------------------------------------------------------------------------------
  // Stage 3: verdicts per run and source file

  /** `entry.get("source_file") or entry.get("file")`, when it names a file. */
  function SourceOf(r: AnswerRecord): Option<string>
  {
    if r.sourceFile.Some? && r.sourceFile.value != "" then r.sourceFile
    else if r.file.Some? && r.file.value != "" then r.file
    else None
  }

  /** The `is_correct` of each record whose source is `f`, in order. */
  function Verdicts(rs: seq<AnswerRecord>, f: string): seq<bool>
  {
    if rs == [] then []
    else
      var r := rs[|rs| - 1];
      Verdicts(rs[..|rs| - 1], f) + (if SourceOf(r) == Some(f) then [r.isCorrect] else [])
  }

  /** A verdict list exists only once something was appended to it. */
  function Found(vs: seq<bool>): Option<seq<bool>>
  {
    if vs == [] then None else Some(vs)
  }

  /** `run_file_correct.get(run_idx, {}).get(file_path)` */
  function Lookup(m: map<nat, map<string, seq<bool>>>, i: nat, f: string): Option<seq<bool>>
  {
    if i in m && f in m[i] then Some(m[i][f]) else None
  }

  /** Every merged log that exists is JSON lines. */
  predicate ScanOk(dir: Dir, names: seq<string>)
  {
    forall i :: 0 <= i < |names| && names[i] in dir ==> dir[names[i]].Lines?
  }

  /** The verdict list stage 3 finds for run `i` and source `f`. */
  function RunVerdicts(dir: Dir, names: seq<string>, i: nat, f: string): Option<seq<bool>>
  {
    if i >= |names| then None
    else
      match ReadRecords(dir, names[i])
      case Some(rs) => Found(Verdicts(rs, f))
      case None => None
  }

  /** The loop over one merged log's records. */
  method ScanRun(rs: seq<AnswerRecord>) returns (m: map<string, seq<bool>>)
    ensures forall f :: (if f in m then Some(m[f]) else None) == Found(Verdicts(rs, f))
  {
    m := map[];
    var j := 0;
    while j < |rs|
      invariant 0 <= j <= |rs|
      invariant forall f :: (if f in m then Some(m[f]) else None) == Found(Verdicts(rs[..j], f))
    {
      var src := SourceOf(rs[j]);
      ghost var m0 := m;
      if src.Some? {
        var sofar := if src.value in m then m[src.value] else [];
        m := m[src.value := sofar + [rs[j].isCorrect]];
      }
      forall f
        ensures (if f in m then Some(m[f]) else None) == Found(Verdicts(rs[..j + 1], f))
      {
        assert rs[..j + 1][..j] == rs[..j];
        assert Verdicts(rs[..j + 1], f) ==
          Verdicts(rs[..j], f) + (if src == Some(f) then [rs[j].isCorrect] else []);
        assert (if f in m0 then Some(m0[f]) else None) == Found(Verdicts(rs[..j], f));
        if src == Some(f) {
          assert m[f] == (if f in m0 then m0[f] else []) + [rs[j].isCorrect];
          assert (if f in m0 then m0[f] else []) == Verdicts(rs[..j], f);
          assert Verdicts(rs[..j + 1], f) == Verdicts(rs[..j], f) + [rs[j].isCorrect];
          assert f in m;
        } else {
          assert (f in m <==> f in m0) && (f in m ==> m[f] == m0[f]);
          assert Verdicts(rs[..j + 1], f) == Verdicts(rs[..j], f);
        }
      }
      j := j + 1;
    }
    assert rs[..j] == rs;
  }

  /** Stage 3 over `run_merged_path.items()`. */
  method Scan(dir: Dir, names: seq<string>) returns (r: Result<map<nat, map<string, seq<bool>>>>)
    ensures r.Success? <==> ScanOk(dir, names)
    ensures r.Success? ==> forall i, f :: Lookup(r.value, i, f) == RunVerdicts(dir, names, i, f)
  {
    var m: map<nat, map<string, seq<bool>>> := map[];
    var k := 0;
    while k < |names|
      invariant 0 <= k <= |names| && ScanOk(dir, names[..k])
      invariant forall i, f :: Lookup(m, i, f) == RunVerdicts(dir, names[..k], i, f)
    {
      assert forall i :: 0 <= i < k ==> names[..k + 1][i] == names[..k][i];
      var p := names[k];
      ghost var m0 := m;
      if p in dir {
        var rs := ReadRecords(dir, p);
        if rs.None? {
          assert !ScanOk(dir, names);
          return Failure("JSONDecodeError: " + p);
        }
        var found := ScanRun(rs.value);
        m := m[k := found];
      }
      forall i, f
        ensures Lookup(m, i, f) == RunVerdicts(dir, names[..k + 1], i, f)
      {
        assert Lookup(m0, i, f) == RunVerdicts(dir, names[..k], i, f);
        if i != k {
          assert Lookup(m, i, f) == Lookup(m0, i, f);
        }
      }
      k := k + 1;
    }
    assert names[..k] == names;
    r := Success(m);
  }

  /** What stage 2 wrote is always what stage 3 can read. */
  lemma MergedScans(dir: Dir, names: seq<string>, runs: seq<seq<string>>)
    requires |names| == |runs| && Seqs.Distinct(names)
    requires Merged(dir, names, runs, |runs|).error.None?
    ensures ScanOk(Merged(dir, names, runs, |runs|).dir, names)
  {
    forall i | 0 <= i < |names|
      ensures names[i] in Merged(dir, names, runs, |runs|).dir
      ensures Merged(dir, names, runs, |runs|).dir[names[i]].Lines?
    {
      MergedWritten(dir, names, runs, |runs|, i);
    }
  }

  /** Records that name no source, like the ones the evaluator writes, give no verdicts. */
  lemma {:induction false} UnsourcedVerdicts(rs: seq<AnswerRecord>, f: string)
    requires forall k :: 0 <= k < |rs| ==> rs[k].sourceFile.None? && rs[k].file.None?
    ensures Found(Verdicts(rs, f)) == None
  {
    if rs != [] {
      UnsourcedVerdicts(rs[..|rs| - 1], f);
    }
  }

  // ---------------------------------------------------------------------------------------
  // Stage 4: per-file and per-dataset results

  /** `shard.get("dataset_results", {}).get(ds_name, {}).get("results", [])` */
  function Results(rep: Report, ds: string): seq<FileResult>
  {
    match Dicts.Get(rep.datasets, ds)
    case Some(d) => d.results
    case None => []
  }

  function ShardAccsIn(frs: seq<FileResult>, f: string, i: nat): seq<real>
  {
    if frs == [] then []
    else
      var fr := frs[|frs| - 1];
      ShardAccsIn(frs[..|frs| - 1], f, i) + (if fr.file == f && i < |fr.accuracies| then [fr.accuracies[i]] else [])
  }

  /** The accuracies of run `i` the summaries hold for (`ds`, `f`), summary by summary. */
  function ShardAccs(reports: seq<Report>, ds: string, f: string, i: nat): seq<real>
  {
    if reports == [] then []
    else ShardAccs(reports[..|reports| - 1], ds, f, i) + ShardAccsIn(Results(reports[|reports| - 1], ds), f, i)
  }

  /** `_acc_from_shards` */
  method AccFromShards(reports: seq<Report>, ds: string, f: string, i: nat) returns (acc: real)
    ensures acc == Stats.MeanOrZero(ShardAccs(reports, ds, f, i))
  {
    var accs: seq<real> := [];
    var k := 0;
    while k < |reports|
      invariant 0 <= k <= |reports|
      invariant accs == ShardAccs(reports[..k], ds, f, i)
    {
      assert reports[..k + 1][..k] == reports[..k];
      var frs := Results(reports[k], ds);
      ghost var before := accs;
      var j := 0;
      while j < |frs|
        invariant 0 <= j <= |frs|
        invariant accs == before + ShardAccsIn(frs[..j], f, i)
      {
        assert frs[..j + 1][..j] == frs[..j];
        var fr := frs[j];
        if fr.file == f {
          var runAccs := fr.accuracies;
          if i < |runAccs| {
            accs := accs + [runAccs[i]];
          }
        }
        j := j + 1;
      }
      assert frs[..j] == frs;
      k := k + 1;
    }
    assert reports[..k] == reports;
    acc := Stats.MeanOrZero(accs);
  }

  lemma {:induction false} ShardAccsInMembers(frs: seq<FileResult>, f: string, i: nat, x: real)
    ensures x in ShardAccsIn(frs, f, i) <==>
      exists k :: 0 <= k < |frs| && frs[k].file == f && i < |frs[k].accuracies| && frs[k].accuracies[i] == x
  {
    if frs != [] {
      var init := frs[..|frs| - 1];
      ShardAccsInMembers(init, f, i, x);
      assert forall k :: 0 <= k < |init| ==> init[k] == frs[k];
    }
  }

  /** Summary `rep` holds a run-`i` accuracy `x` for (`ds`, `f`). */
  predicate HasAcc(rep: Report, ds: string, f: string, i: nat, x: real)
  {
    exists fr :: fr in Results(rep, ds) && fr.file == f && i < |fr.accuracies| && fr.accuracies[i] == x
  }

  lemma HasAccIn(rep: Report, ds: string, f: string, i: nat, x: real)
    ensures x in ShardAccsIn(Results(rep, ds), f, i) <==> HasAcc(rep, ds, f, i, x)
  {
    var frs := Results(rep, ds);
    ShardAccsInMembers(frs, f, i, x);
    if HasAcc(rep, ds, f, i, x) {
      var fr :| fr in frs && fr.file == f && i < |fr.accuracies| && fr.accuracies[i] == x;
      var k :| 0 <= k < |frs| && frs[k] == fr;
    }
  }

  /**
   * The fallback averages the run-`i` accuracy of every summary entry for the file that has one,
   * one value per entry however many questions each shard held.
   */
  lemma {:induction false} ShardAccsMembers(reports: seq<Report>, ds: string, f: string, i: nat, x: real)
    ensures x in ShardAccs(reports, ds, f, i) <==> exists k :: 0 <= k < |reports| && HasAcc(reports[k], ds, f, i, x)
  {
    if reports != [] {
      var init := reports[..|reports| - 1];
      ShardAccsMembers(init, ds, f, i, x);
      HasAccIn(reports[|reports| - 1], ds, f, i, x);
      assert forall k :: 0 <= k < |init| ==> init[k] == reports[k];
    }
  }

  /** What stage 4 reads: the summaries, the directory after stage 2, `run_merged_path`, and the square root. */
  datatype Context = Context(reports: seq<Report>, merged: Dir, names: seq<string>, sqrt: real -> real)

  /** The accuracy of run `i` for (`ds`, `f`): from the merged log if it names the file, else the fallback. */
  function RunAccuracy(c: Context, ds: string, f: string, i: nat): real
  {
    match RunVerdicts(c.merged, c.names, i, f)
    case Some(vs) => Ratio(vs)
    case None => Stats.MeanOrZero(ShardAccs(c.reports, ds, f, i))
  }

  /** `run_accuracies`, run by run in ascending order. */
  function RunAccuracies(c: Context, ds: string, f: string, n: nat): (accs: seq<real>)
    ensures |accs| == n && forall i :: 0 <= i < n ==> accs[i] == RunAccuracy(c, ds, f, i)
  {
    if n == 0 then [] else RunAccuracies(c, ds, f, n - 1) + [RunAccuracy(c, ds, f, n - 1)]
  }

  /** `run_merged_jsonl_paths`: the merged log of each of the runs `0 .. n-1` that has one. */
  function RunPaths(names: seq<string>, n: nat): seq<string>
  {
    if n == 0 then [] else RunPaths(names, n - 1) + (if n - 1 < |names| then [names[n - 1]] else [])
  }

  /** When every run has a merged log, a file lists the merged logs of its runs, in run order. */
  lemma {:induction false} RunPathsAll(names: seq<string>, n: nat)
    requires n <= |names|
    ensures RunPaths(names, n) == names[..n]
  {
    if n > 0 {
      RunPathsAll(names, n - 1);
      assert names[..n] == names[..n - 1] + [names[n - 1]];
    }
  }

  /** The entry of file `f` with `n` runs. */
  function FileResultOf(c: Context, ds: string, f: string, n: nat): FileResult
  {
    var accs := RunAccuracies(c, ds, f, n);
    FileResult(f, Stats.MeanOrZero(accs), Stats.GuardedStd(accs, c.sqrt), accs, RunPaths(c.names, n))
  }

  /** The loop over `sorted(run_indices)` for one file. */
  method AssembleFile(c: Context, scan: map<nat, map<string, seq<bool>>>, ds: string, f: string, n: nat)
    returns (fr: FileResult)
    requires forall i, g :: Lookup(scan, i, g) == RunVerdicts(c.merged, c.names, i, g)
    ensures fr == FileResultOf(c, ds, f, n)
  {
    var accs: seq<real> := [];
    var paths: seq<string> := [];
    var i := 0;
    while i < n
      invariant 0 <= i <= n
      invariant accs == RunAccuracies(c, ds, f, i) && paths == RunPaths(c.names, i)
    {
      if i < |c.names| {
        paths := paths + [c.names[i]];
      }
      var correct := Lookup(scan, i, f);
      var acc: real;
      if correct.Some? {
        var l := correct.value;
        acc := if l != [] then Trues(l) as real / |l| as real else 0.0;
      } else {
        acc := AccFromShards(c.reports, ds, f, i);
      }
      accs := accs + [acc];
      i := i + 1;
    }
    fr := FileResult(f, Stats.MeanOrZero(accs), Stats.GuardedStd(accs, c.sqrt), accs, paths);
  }

  function FileResults(c: Context, ds: string, fs: Dicts.Dict<nat>): (frs: seq<FileResult>)
    ensures |frs| == |fs| && forall k :: 0 <= k < |fs| ==> frs[k] == FileResultOf(c, ds, fs[k].0, fs[k].1)
  {
    if fs == [] then []
    else FileResults(c, ds, fs[..|fs| - 1]) + [FileResultOf(c, ds, fs[|fs| - 1].0, fs[|fs| - 1].1)]
  }

  /** The entry of dataset `ds` whose files and run counts are `fs`. */
  function DatasetResultOf(c: Context, ds: string, fs: Dicts.Dict<nat>): DatasetResult
  {
    var frs := FileResults(c, ds, fs);
    DatasetResult(frs, Stats.MeanOrZero(Seqs.Map(MeanOf, frs)), Stats.MeanOrZero(Seqs.Map(StdOf, frs)))
  }

  /** The loop over `files_map.items()` for one dataset. */
  method AssembleDataset(c: Context, scan: map<nat, map<string, seq<bool>>>, ds: string, fs: Dicts.Dict<nat>)
    returns (d: DatasetResult)
    requires forall i, g :: Lookup(scan, i, g) == RunVerdicts(c.merged, c.names, i, g)
    ensures d == DatasetResultOf(c, ds, fs)
  {
    var frs: seq<FileResult> := [];
    var k := 0;
    while k < |fs|
      invariant 0 <= k <= |fs|
      invariant frs == FileResults(c, ds, fs[..k])
    {
      assert fs[..k + 1][..k] == fs[..k];
      var fr := AssembleFile(c, scan, ds, fs[k].0, fs[k].1);
      frs := frs + [fr];
      k := k + 1;
    }
    assert fs[..k] == fs;
    d := DatasetResult(frs, Stats.MeanOrZero(Seqs.Map(MeanOf, frs)), Stats.MeanOrZero(Seqs.Map(StdOf, frs)));
  }

  /** `merged_dataset_results` */
  function Datasets(c: Context, files: Dicts.Dict<Dicts.Dict<nat>>): Dicts.Dict<DatasetResult>
  {
    if files == [] then []
    else
      var last := files[|files| - 1];
      Dicts.Put(Datasets(c, files[..|files| - 1]), last.0, DatasetResultOf(c, last.0, last.1))
  }

  method Assemble(c: Context, scan: map<nat, map<string, seq<bool>>>, files: Dicts.Dict<Dicts.Dict<nat>>)
    returns (d: Dicts.Dict<DatasetResult>)
    requires forall i, g :: Lookup(scan, i, g) == RunVerdicts(c.merged, c.names, i, g)
    ensures d == Datasets(c, files)
  {
    d := [];
    var k := 0;
    while k < |files|
      invariant 0 <= k <= |files|
      invariant d == Datasets(c, files[..k])
    {
      assert files[..k + 1][..k] == files[..k];
      var dr := AssembleDataset(c, scan, files[k].0, files[k].1);
      d := Dicts.Put(d, files[k].0, dr);
      k := k + 1;
    }
    assert files[..k] == files;
  }

  /** Each dataset of the index has its entry, holding its files in index order. */
  lemma {:induction false} DatasetsGet(c: Context, files: Dicts.Dict<Dicts.Dict<nat>>, ds: string)
    requires Dicts.DistinctKeys(files)
    ensures Dicts.Get(Datasets(c, files), ds) ==
      match Dicts.Get(files, ds)
      case Some(fs) => Some(DatasetResultOf(c, ds, fs))
      case None => None
  {
    if files != [] {
      var init := files[..|files| - 1];
      var last := files[|files| - 1];
      assert files == init + [last];
      assert Dicts.DistinctKeys(init);
      DatasetsGet(c, init, ds);
      Dicts.GetPut(Datasets(c, init), last.0, DatasetResultOf(c, last.0, last.1), ds);
      assert last.0 !in Dicts.Keys(init);
      Dicts.PutShape(init, last.0, last.1);
      Dicts.GetPut(init, last.0, last.1, ds);
    }
  }

  /** The index holds each dataset once and each file of a dataset once. */
  lemma {:induction false} DiscoveredDistinct(es: seq<Entry>, ds: string)
    ensures Dicts.DistinctKeys(Discovered(es).files)
    ensures Dicts.DistinctKeys(Files(Discovered(es), ds))
  {
    if es != [] {
      var init := es[..|es| - 1];
      var e := es[|es| - 1];
      var ix := Discovered(init);
      DiscoveredDistinct(init, ds);
      DiscoveredDistinct(init, e.dataset);
      if e.paths != [] {
        var fs := Dicts.Put(Files(ix, e.dataset), e.file, Max(RunCount(ix, e.dataset, e.file), |e.paths|));
        Dicts.PutDistinct(Files(ix, e.dataset), e.file, Max(RunCount(ix, e.dataset, e.file), |e.paths|));
        Dicts.PutDistinct(ix.files, e.dataset, fs);
        Dicts.GetPut(ix.files, e.dataset, fs, ds);
      }
    }
  }

  /** A run whose merged log names its file is scored from the merged records alone. */
  lemma RunAccuracyScanned(c: Context, ds: string, f: string, i: nat)
    requires i < |c.names| && ReadRecords(c.merged, c.names[i]).Some?
    requires Verdicts(ReadRecords(c.merged, c.names[i]).value, f) != []
    ensures var vs := Verdicts(ReadRecords(c.merged, c.names[i]).value, f);
      RunAccuracy(c, ds, f, i) == Trues(vs) as real / |vs| as real
  {
  }

  /**
   * When no record of the merged log names a source, which is what the evaluator writes,
   * the accuracy of the run is the fallback over the summaries.
   */
  lemma RunAccuracyFallback(c: Context, ds: string, f: string, i: nat)
    requires forall r :: (i < |c.names| && ReadRecords(c.merged, c.names[i]).Some? &&
      r in ReadRecords(c.merged, c.names[i]).value) ==> r.sourceFile.None? && r.file.None?
    ensures RunAccuracy(c, ds, f, i) == Stats.MeanOrZero(ShardAccs(c.reports, ds, f, i))
  {
    if i < |c.names| && ReadRecords(c.merged, c.names[i]).Some? {
      UnsourcedVerdicts(ReadRecords(c.merged, c.names[i]).value, f);
    }
  }

  /** Accuracies stay in [0, 1] when the summaries' accuracies do. */
  lemma RunAccuracyBounds(c: Context, ds: string, f: string, i: nat)
    requires forall k, fr :: 0 <= k < |c.reports| && fr in Results(c.reports[k], ds) && i < |fr.accuracies| ==>
      0.0 <= fr.accuracies[i] <= 1.0
    ensures 0.0 <= RunAccuracy(c, ds, f, i) <= 1.0
  {
    var accs := ShardAccs(c.reports, ds, f, i);
    if accs != [] {
      forall j | 0 <= j < |accs|
        ensures 0.0 <= accs[j] <= 1.0
      {
        ShardAccsMembers(c.reports, ds, f, i, accs[j]);
      }
      Stats.MeanBounds(accs, 0.0, 1.0);
    }
  }

  /**
   * A file's entry: one accuracy per run in ascending run order, their mean, a deviation of 0
   * with fewer than two runs, and the merged log of each run.
   */
  lemma FileResultFields(c: Context, ds: string, f: string, n: nat)
    requires n <= |c.names|
    ensures var fr := FileResultOf(c, ds, f, n);
      fr.file == f && |fr.accuracies| == n &&
      (forall i :: 0 <= i < n ==> fr.accuracies[i] == RunAccuracy(c, ds, f, i)) &&
      (n > 0 ==> fr.accuracyMean == Stats.Mean(fr.accuracies)) &&
      (n < 2 ==> fr.accuracyStd == 0.0) &&
      fr.runResults == c.names[..n]
  {
    RunPathsAll(c.names, n);
  }

  /** A dataset's averages are the means over its files, and 0 for a dataset with no files. */
  lemma DatasetResultFields(c: Context, ds: string, fs: Dicts.Dict<nat>)
    ensures var d := DatasetResultOf(c, ds, fs);
      |d.results| == |fs| &&
      (forall k :: 0 <= k < |fs| ==> d.results[k] == FileResultOf(c, ds, fs[k].0, fs[k].1)) &&
      (fs == [] ==> d.averageAccuracy == 0.0 && d.averageStd == 0.0) &&
      (fs != [] ==> d.averageAccuracy == Stats.Mean(Seqs.Map(MeanOf, d.results)) &&
                    d.averageStd == Stats.Mean(Seqs.Map(StdOf, d.results)))
  {
  }

  // ---------------------------------------------------------------------------------------
  // The whole of `finalize_results`

  /**
   * No node summaries: a single-node run's report is uploaded as it is. The result is 1 without
   * a report, and otherwise 1 only when an upload was asked for and failed.
   */
  function NoShards(ts: string, repo: Option<string>, dir: Dir, uploadOk: bool): (r: Outcome)
    ensures r == Exit(0) || r == Exit(1)
    ensures r == Exit(0) <==>
      (FinalPath(ts) in dir &&
       (repo.None? || repo.value == "" ||
        (ReadReport(dir, FinalPath(ts)).Some? &&
         ModelName(ReadReport(dir, FinalPath(ts)).value.config.GetOr(Json.Object([]))).Success? && uploadOk)))
  {
    if FinalPath(ts) !in dir then Exit(1)
    else if repo.None? || repo.value == "" then Exit(0)
    else
      match ReadReport(dir, FinalPath(ts))
      case None => Exit(1)
      case Some(rep) => if ModelName(rep.config.GetOr(Json.Object([]))).Failure? || !uploadOk then Exit(1) else Exit(0)
  }

  /**
   * `finalize_results(ts, repo)` over the directory `dir`, where `listing` is what `glob` found
   * and `uploadOk` is whether an upload would succeed.
   */
  function Finalized(ts: string, repo: Option<string>, listing: seq<string>, dir: Dir, sqrt: real -> real, uploadOk: bool,
                     exporter: Exporter): (Outcome, Dir)
  {
    var shards := Orders.Sort(Orders.Lexicographic, listing);
    if shards == [] then (NoShards(ts, repo, dir, uploadOk), dir)
    else
      match Loaded(dir, shards)
      case Failure(e) => (Raised(e), dir)
      case Success(reports) => Finish(ts, shards, reports, dir, sqrt, exporter)
  }

  /** Stages 2 to 4 and the clean-up, once the summaries `shards` have loaded as `reports`. */
  function Finish(ts: string, shards: seq<string>, reports: seq<Report>, dir: Dir, sqrt: real -> real, exporter: Exporter)
    : (Outcome, Dir)
    requires reports != []
  {
    var ix := Discovered(Entries(reports));
    var names := MergedNames(ts, |ix.runs|);
    Complete(ts, shards, reports, ix.files, names, Merged(dir, names, ix.runs, |ix.runs|), sqrt, exporter)
  }

  /** Stages 3 and 4 and the clean-up, once stage 2 has left `st`. */
  function Complete(ts: string, shards: seq<string>, reports: seq<Report>, files: Dicts.Dict<Dicts.Dict<nat>>,
                    names: seq<string>, st: MergeState, sqrt: real -> real, exporter: Exporter): (Outcome, Dir)
    requires reports != []
  {
    var gone := (set p | p in shards) + st.consumed;
    if st.error.Some? then (Raised(st.error.value), RemoveAll(st.dir, gone))
    else if reports[0].config.None? then (Raised("KeyError: 'config'"), RemoveAll(st.dir, gone))
    else
      var c := Context(reports, st.dir, names, sqrt);
      var final := Report(ts, reports[0].config, Datasets(c, files), Some(reports[0].duration.GetOr(0.0)));
      var (written, raised) := Exported(st.dir, ts, final, ["json"], exporter);
      (if raised.Some? then Raised(raised.value) else Exit(0), RemoveAll(written, gone))
  }

  method FinalizeResults(ts: string, repo: Option<string>, listing: seq<string>, dir0: Dir, sqrt: real -> real, uploadOk: bool,
                         exporter: Exporter)
    returns (out: Outcome, dir: Dir)
    ensures (out, dir) == Finalized(ts, repo, listing, dir0, sqrt, uploadOk, exporter)
  {
    var shards := Orders.Sort(Orders.Lexicographic, listing);
    if shards == [] {
      return NoShards(ts, repo, dir0, uploadOk), dir0;
    }
    var loaded := LoadSummaries(dir0, shards);
    if loaded.Failure? {
      return Raised(loaded.error), dir0;
    }
    var reports := loaded.value;
    var base := reports[0];
    var runs, files := Discover(Entries(reports));
    var st, names := MergeRuns(dir0, ts, runs);
    if st.error.Some? {
      dir := Cleanup(st.dir, shards, st.consumed);
      return Raised(st.error.value), dir;
    }
    MergedNamesDistinct(ts, |runs|);
    MergedScans(dir0, names, runs);
    var scan := Scan(st.dir, names);
    var c := Context(reports, st.dir, names, sqrt);
    var datasets := Assemble(c, scan.value, files);
    if base.config.None? {
      dir := Cleanup(st.dir, shards, st.consumed);
      return Raised("KeyError: 'config'"), dir;
    }
    var final := Report(ts, base.config, datasets, Some(base.duration.GetOr(0.0)));
    var (written, raised) := Exported(st.dir, ts, final, ["json"], exporter);
    dir := Cleanup(written, shards, st.consumed);
    out := if raised.Some? then Raised(raised.value) else Exit(0);
  }

  // ---------------------------------------------------------------------------------------
  // Properties of the whole

  /**
   * `glob` finds nothing exactly when the directory holds no summary of the run, and then
   * nothing is merged or deleted and the single-node report decides the exit code.
   */
  lemma FinalizeNoShards(ts: string, repo: Option<string>, listing: seq<string>, dir: Dir, sqrt: real -> real, uploadOk: bool,
      exporter: Exporter)
    requires Globbed(ts, listing, dir)
    ensures listing == [] <==> forall p :: p in dir ==> !IsSummaryPath(ts, p)
    ensures listing == [] ==> Finalized(ts, repo, listing, dir, sqrt, uploadOk, exporter) == (NoShards(ts, repo, dir, uploadOk), dir)
  {
    if listing != [] {
      assert listing[0] in listing;
    }
  }

  /** The summaries are merged in name order: the first is the least name `glob` found. */
  lemma SortedShards(listing: seq<string>)
    ensures var shards := Orders.Sort(Orders.Lexicographic, listing);
      (shards == [] <==> listing == []) && (forall p :: p in shards <==> p in listing) &&
      (shards != [] ==> forall p :: p in listing ==> !Orders.LexLess(p, shards[0]))
  {
    var shards := Orders.Sort(Orders.Lexicographic, listing);
    assert forall p :: p in shards <==> p in multiset(shards);
    assert forall p :: p in listing <==> p in multiset(listing);
    if shards != [] {
      forall p | p in listing
        ensures !Orders.LexLess(p, shards[0])
      {
        var j :| 0 <= j < |shards| && shards[j] == p;
        if j == 0 {
          Orders.LexIrreflexive(p);
        } else {
          assert !Orders.Less(Orders.Lexicographic, shards[j], shards[0]);
        }
      }
    }
    if listing != [] {
      assert listing[0] in shards;
    }
  }

  /** Once there are summaries, whether the upload succeeds changes nothing. */
  lemma FinalizeUploadIgnored(ts: string, repo: Option<string>, listing: seq<string>, dir: Dir, sqrt: real -> real,
                                exporter: Exporter)
    requires listing != []
    ensures Finalized(ts, repo, listing, dir, sqrt, true, exporter) == Finalized(ts, repo, listing, dir, sqrt, false, exporter)
  {
    SortedShards(listing);
  }

  /** Stage 2 with the merged-log names of `run_merged_path` adds only those logs and changes nothing else. */
  lemma MergedNamesFrame(dir: Dir, ts: string, runs: seq<seq<string>>)
    ensures var st := Merged(dir, MergedNames(ts, |runs|), runs, |runs|);
      dir.Keys <= st.dir.Keys && st.consumed <= st.dir.Keys &&
      (forall p :: p in st.dir && p !in dir ==> exists i :: p == MergedPath(ts, i)) &&
      (forall p :: p in dir && (forall i :: p != MergedPath(ts, i)) ==> st.dir[p] == dir[p])
  {
    var n := |runs|;
    var names := MergedNames(ts, n);
    MergedFrame(dir, names, runs, n);
    var st := Merged(dir, names, runs, n);
    forall p | p in st.dir && p !in dir
      ensures exists i :: p == MergedPath(ts, i)
    {
      var k :| 0 <= k < n && names[..n][k] == p;
      assert p == MergedPath(ts, k);
    }
    forall p | p in dir && (forall i :: p != MergedPath(ts, i))
      ensures st.dir[p] == dir[p]
    {
      assert p !in names[..n];
    }
  }

  /**
   * The directory left: stage 2's, with the report when everything succeeds, less what is
   * deleted. An export that raises writes nothing, and the clean-up still runs.
   */
  lemma CompleteDir(ts: string, shards: seq<string>, reports: seq<Report>, files: Dicts.Dict<Dicts.Dict<nat>>,
                    names: seq<string>, st: MergeState, sqrt: real -> real, exporter: Exporter)
    requires reports != []
    ensures var (out, after) := Complete(ts, shards, reports, files, names, st, sqrt, exporter);
      var final := Report(ts, reports[0].config, Datasets(Context(reports, st.dir, names, sqrt), files),
                          Some(reports[0].duration.GetOr(0.0)));
      (forall p :: p in after <==> (p in st.dir || (out == Exit(0) && p == FinalPath(ts))) && p !in shards && p !in st.consumed) &&
      (forall p :: p in after && p != FinalPath(ts) ==> after[p] == st.dir[p]) &&
      (out != Exit(0) ==> out.Raised? && forall p :: p in after ==> after[p] == st.dir[p]) &&
      (out == Exit(0) <==> st.error.None? && reports[0].config.Some? && exporter("json", final).None?) &&
      (out == Exit(0) && FinalPath(ts) in after ==> after[FinalPath(ts)] == Doc(final))
  {
    var final := Report(ts, reports[0].config, Datasets(Context(reports, st.dir, names, sqrt), files),
                        Some(reports[0].duration.GetOr(0.0)));
    ExportedJson(st.dir, ts, final, exporter);
  }

  /** Once the summaries load, `finalize_results` is stage 2 on the run lists they give, then the rest. */
  lemma FinalizedLoaded(ts: string, repo: Option<string>, listing: seq<string>, dir: Dir, sqrt: real -> real, uploadOk: bool,
      exporter: Exporter)
    requires listing != [] && Loaded(dir, Orders.Sort(Orders.Lexicographic, listing)).Success?
    ensures var shards := Orders.Sort(Orders.Lexicographic, listing);
      var reports := Loaded(dir, shards).value;
      var ix := Discovered(Entries(reports));
      var names := MergedNames(ts, |ix.runs|);
      reports != [] && Finalized(ts, repo, listing, dir, sqrt, uploadOk, exporter) ==
        Complete(ts, shards, reports, ix.files, names, Merged(dir, names, ix.runs, |ix.runs|), sqrt, exporter)
  {
    SortedShards(listing);
  }

  /**
   * Once the summaries load, every summary is deleted, also when a later stage raised, and every
   * path that remains but the merged logs and the report holds what it held.
   */
  lemma FinalizeCleanup(ts: string, repo: Option<string>, listing: seq<string>, dir: Dir, sqrt: real -> real, uploadOk: bool,
      exporter: Exporter)
    requires listing != [] && Loaded(dir, Orders.Sort(Orders.Lexicographic, listing)).Success?
    ensures var after := Finalized(ts, repo, listing, dir, sqrt, uploadOk, exporter).1;
      (forall p :: p in listing ==> p !in after) &&
      (forall p :: p in after && p != FinalPath(ts) && (forall i :: p != MergedPath(ts, i)) ==> p in dir && after[p] == dir[p])
  {
    SortedShards(listing);
    FinalizedLoaded(ts, repo, listing, dir, sqrt, uploadOk, exporter);
    var shards := Orders.Sort(Orders.Lexicographic, listing);
    var reports := Loaded(dir, shards).value;
    var ix := Discovered(Entries(reports));
    var names := MergedNames(ts, |ix.runs|);
    CompleteDir(ts, shards, reports, ix.files, names, Merged(dir, names, ix.runs, |ix.runs|), sqrt, exporter);
    MergedNamesFrame(dir, ts, ix.runs);
  }

  /**
   * When a stage after loading raises (a shard log that does not parse, a summary without a
   * config, an export that raises), the `finally` has still deleted every summary, and no
   * report has been written: the shard data is gone with no report in its place.
   */
  lemma FinalizeRaisedCleans(ts: string, repo: Option<string>, listing: seq<string>, dir: Dir, sqrt: real -> real,
                             uploadOk: bool, exporter: Exporter)
    requires listing != [] && Loaded(dir, Orders.Sort(Orders.Lexicographic, listing)).Success?
    requires Finalized(ts, repo, listing, dir, sqrt, uploadOk, exporter).0 != Exit(0)
    ensures var (out, after) := Finalized(ts, repo, listing, dir, sqrt, uploadOk, exporter);
      out.Raised? && (forall p :: p in listing ==> p !in after) &&
      (FinalPath(ts) in after ==> FinalPath(ts) in dir && after[FinalPath(ts)] == dir[FinalPath(ts)])
  {
    SortedShards(listing);
    FinalizedLoaded(ts, repo, listing, dir, sqrt, uploadOk, exporter);
    var shards := Orders.Sort(Orders.Lexicographic, listing);
    var reports := Loaded(dir, shards).value;
    var ix := Discovered(Entries(reports));
    var names := MergedNames(ts, |ix.runs|);
    CompleteDir(ts, shards, reports, ix.files, names, Merged(dir, names, ix.runs, |ix.runs|), sqrt, exporter);
    MergedNamesFrame(dir, ts, ix.runs);
    forall i: nat
      ensures FinalPath(ts) != MergedPath(ts, i)
    {
      FinalPathNotMerged(ts, i);
    }
  }

  /** A path in a run's column comes from some entry at that position. */
  lemma {:induction false} ColumnMember(es: seq<Entry>, i: nat, p: string)
    requires p in Column(es, i)
    ensures exists k :: 0 <= k < |es| && i < |es[k].paths| && es[k].paths[i] == p
  {
    var init := es[..|es| - 1];
    if p in Column(init, i) {
      ColumnMember(init, i, p);
      var k :| 0 <= k < |init| && i < |init[k].paths| && init[k].paths[i] == p;
      assert es[k] == init[k];
    }
  }

  /** Every entry that reaches position `i` contributes to that run's column. */
  lemma {:induction false} ColumnHas(es: seq<Entry>, i: nat, k: nat)
    requires k < |es| && i < |es[k].paths|
    ensures es[k].paths[i] in Column(es, i)
  {
    var init := es[..|es| - 1];
    if k < |es| - 1 {
      assert es[k] == init[k];
      ColumnHas(init, i, k);
    }
  }

  /** The run lists hold exactly the shard logs some summary lists. */
  lemma ListedShardLog(es: seq<Entry>, p: string)
    ensures (exists j :: 0 <= j < |Discovered(es).runs| && p in Discovered(es).runs[j]) <==>
      exists k :: 0 <= k < |es| && p in es[k].paths
  {
    var runs := Discovered(es).runs;
    if exists k :: 0 <= k < |es| && p in es[k].paths {
      var k :| 0 <= k < |es| && p in es[k].paths;
      var j :| 0 <= j < |es[k].paths| && es[k].paths[j] == p;
      DiscoveredRunCount(es, j);
      DiscoveredRuns(es, j);
      ColumnHas(es, j, k);
      assert p in runs[j];
    }
    if exists j :: 0 <= j < |runs| && p in runs[j] {
      var j :| 0 <= j < |runs| && p in runs[j];
      DiscoveredRuns(es, j);
      ColumnMember(es, j, p);
    }
  }

  /**
   * When no summary lists a merged log, a successful stage 2 reaches exactly the shard logs that
   * some summary lists and that exist.
   */
  lemma ConsumedListed(dir: Dir, ts: string, es: seq<Entry>)
    requires forall k, i :: 0 <= k < |es| ==> MergedPath(ts, i) !in es[k].paths
    requires var runs := Discovered(es).runs; Merged(dir, MergedNames(ts, |runs|), runs, |runs|).error.None?
    ensures var runs := Discovered(es).runs;
      forall p :: p in Merged(dir, MergedNames(ts, |runs|), runs, |runs|).consumed <==>
        p in dir && exists k :: 0 <= k < |es| && p in es[k].paths
  {
    var runs := Discovered(es).runs;
    var n := |runs|;
    var names := MergedNames(ts, n);
    forall j, i | 0 <= j < n && 0 <= i < |names|
      ensures names[i] !in runs[j]
    {
      if names[i] in runs[j] {
        DiscoveredRuns(es, j);
        ColumnMember(es, j, names[i]);
      }
    }
    MergedConsumed(dir, names, runs, n);
    forall p | p in dir
      ensures (exists j :: 0 <= j < n && p in runs[j]) <==> exists k :: 0 <= k < |es| && p in es[k].paths
    {
      ListedShardLog(es, p);
    }
  }

  /**
   * On success, when no summary lists a merged log, the other files deleted are exactly the
   * shard logs some summary lists.
   */
  lemma FinalizeRemovesShardLogs(ts: string, repo: Option<string>, listing: seq<string>, dir: Dir, sqrt: real -> real, uploadOk: bool,
      exporter: Exporter)
    requires Finalized(ts, repo, listing, dir, sqrt, uploadOk, exporter).0 == Exit(0) && listing != []
    requires Loaded(dir, Orders.Sort(Orders.Lexicographic, listing)).Success?
    requires var es := Entries(Loaded(dir, Orders.Sort(Orders.Lexicographic, listing)).value);
      forall k, i :: 0 <= k < |es| ==> MergedPath(ts, i) !in es[k].paths
    ensures var es := Entries(Loaded(dir, Orders.Sort(Orders.Lexicographic, listing)).value);
      var after := Finalized(ts, repo, listing, dir, sqrt, uploadOk, exporter).1;
      forall p :: p in dir && p !in listing ==>
        (p !in after <==> exists k :: 0 <= k < |es| && p in es[k].paths)
  {
    SortedShards(listing);
    var shards := Orders.Sort(Orders.Lexicographic, listing);
    var es := Entries(Loaded(dir, shards).value);
    var ix := Discovered(es);
    var names := MergedNames(ts, |ix.runs|);
    FinalizedLoaded(ts, repo, listing, dir, sqrt, uploadOk, exporter);
    CompleteDir(ts, shards, Loaded(dir, shards).value, ix.files, names, Merged(dir, names, ix.runs, |ix.runs|), sqrt, exporter);
    MergedNamesFrame(dir, ts, ix.runs);
    ConsumedListed(dir, ts, es);
  }

  /**
   * On success the report is written from the first summary in name order: its timestamp is
   * `ts`, its config and duration are that summary's, and it has a result for exactly the
   * datasets whose summaries list shard logs.
   */
  lemma FinalizeReport(ts: string, repo: Option<string>, listing: seq<string>, dir: Dir, sqrt: real -> real, uploadOk: bool,
      exporter: Exporter)
    requires Globbed(ts, listing, dir) && FinalPath(ts) !in dir
    requires Finalized(ts, repo, listing, dir, sqrt, uploadOk, exporter).0 == Exit(0)
    ensures listing != [] && Loaded(dir, Orders.Sort(Orders.Lexicographic, listing)).Success?
    ensures var first := Orders.Sort(Orders.Lexicographic, listing)[0];
      var es := Entries(Loaded(dir, Orders.Sort(Orders.Lexicographic, listing)).value);
      var after := Finalized(ts, repo, listing, dir, sqrt, uploadOk, exporter).1;
      first in listing && (forall p :: p in listing ==> !Orders.LexLess(p, first)) &&
      ReadReport(dir, first).Some? && FinalPath(ts) in after && after[FinalPath(ts)].Doc? &&
      var rep := after[FinalPath(ts)].report;
      var base := ReadReport(dir, first).value;
      rep.timestamp == ts && rep.config == base.config && rep.config.Some? &&
      rep.duration == Some(base.duration.GetOr(0.0)) &&
      forall ds :: Dicts.Get(rep.datasets, ds).Some? <==>
        exists k :: 0 <= k < |es| && es[k].dataset == ds && es[k].paths != []
  {
    SortedShards(listing);
    var shards := Orders.Sort(Orders.Lexicographic, listing);
    LoadedSpec(dir, shards);
    FinalizedLoaded(ts, repo, listing, dir, sqrt, uploadOk, exporter);
    var reports := Loaded(dir, shards).value;
    var es := Entries(reports);
    var ix := Discovered(es);
    var names := MergedNames(ts, |ix.runs|);
    var st := Merged(dir, names, ix.runs, |ix.runs|);
    CompleteDir(ts, shards, reports, ix.files, names, st, sqrt, exporter);
    MergedNamesFrame(dir, ts, ix.runs);
    hide Finalized, Complete, Exported, Merged, Loaded;
    FinalPathNotSummary(ts);
    forall i: nat
      ensures FinalPath(ts) != MergedPath(ts, i)
    {
      FinalPathNotMerged(ts, i);
    }
    assert FinalPath(ts) !in st.dir;
    var c := Context(reports, st.dir, names, sqrt);
    DiscoveredDistinct(es, "");
    forall ds
      ensures Dicts.Get(Datasets(c, ix.files), ds).Some? <==>
        exists k :: 0 <= k < |es| && es[k].dataset == ds && es[k].paths != []
    {
      DatasetsGet(c, ix.files, ds);
      DiscoveredFiles(es, ds, "");
    }
  }

  /**
   * Finalising a run whose summaries are all there leaves no summary behind and writes the
   * report, so finalising it again finds no summaries and succeeds without changing anything.
   */
  lemma FinalizeRerun(ts: string, repo: Option<string>, listing: seq<string>, dir: Dir, sqrt: real -> real, uploadOk: bool,
      exporter: Exporter)
    requires Globbed(ts, listing, dir) && FinalPath(ts) !in dir
    requires Finalized(ts, repo, listing, dir, sqrt, uploadOk, exporter).0 == Exit(0)
    ensures var after := Finalized(ts, repo, listing, dir, sqrt, uploadOk, exporter).1;
      FinalPath(ts) in after && (forall p :: p in after ==> !IsSummaryPath(ts, p)) &&
      Finalized(ts, None, [], after, sqrt, uploadOk, exporter) == (Exit(0), after)
  {
    FinalizeReport(ts, repo, listing, dir, sqrt, uploadOk, exporter);
    FinalizeCleanup(ts, repo, listing, dir, sqrt, uploadOk, exporter);
    var after := Finalized(ts, repo, listing, dir, sqrt, uploadOk, exporter).1;
    FinalPathNotSummary(ts);
    forall p | p in after
      ensures !IsSummaryPath(ts, p)
    {
      if exists i :: p == MergedPath(ts, i) {
        var i :| p == MergedPath(ts, i);
        MergedPathNotSummary(ts, i, ts);
      }
    }
  }
}
