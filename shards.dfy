/**
 * The files of a distributed run under `results/`, shared by the merger and the finaliser:
 * the names they look for and write, the per-run lists of shard logs, and the record order.
 */
module Shards {
  import opened Wrappers
  import opened Strings
  import Json
  import Dicts
  import Orders
  import Paths
  import Seqs
  import opened Records

  // ---------------------------------------------------------------------------------------
  // File names

  /**
   * A path `glob` returns for `results/results_{ts}_node*_rank*.json`; each `*` matches any
   * text within the last path component.
   */
  predicate IsSummaryPath(ts: string, p: string)
  {
    var pre := "results/results_" + ts + "_node";
    |pre| + 5 <= |p| && p[..|pre|] == pre && p[|p| - 5..] == ".json" &&
    Contains(p[|pre|..|p| - 5], "_rank") && '/' !in p[|pre|..|p| - 5]
  }

  /** `os.path.join("results", f"results_{ts}.json")`: the report of a finished run. */
  function FinalPath(ts: string): string
  {
    Paths.Join("results", "results_" + ts + ".json")
  }

  /** The report of a finished run is never taken for a node summary of the same run. */
  lemma FinalPathNotSummary(ts: string)
    ensures FinalPath(ts) == "results/results_" + ts + ".json"
    ensures !IsSummaryPath(ts, FinalPath(ts))
  {
    assert |FinalPath(ts)| < |"results/results_" + ts + "_node"| + 5;
  }

  /** `os.path.join("results", f"results_{ts}.html")`: the HTML rendering of the report. */
  function HtmlPath(ts: string): string
  {
    Paths.Join("results", "results_" + ts + ".html")
  }

  // ---------------------------------------------------------------------------------------
  // The export

  /** `f"{base}.{format}"` for the base `results/results_{ts}`: where the report goes in `format`. */
  function ExportPath(ts: string, format: string): string
  {
    Paths.Join("results", "results_" + ts) + "." + format
  }

  /**
   * One exporter of `ResultsExporterFactory`, which the model does not compute: for a format
   * and the report, the error it raises, or `None` once it has written the report to
   * `ExportPath`.
   */
  type Exporter = (string, Report) -> Option<string>

  /** What the exporter of `format` writes: the JSON document itself, or a rendering of it. */
  function ExportContent(format: string, report: Report): Content
  {
    if format == "json" then Doc(report) else Rendered(format, report)
  }

  /**
   * `export_results(report, base, formats, config)` on the directory: the formats are exported
   * in order until an exporter raises; what was written before stays.
   */
  function Exported(dir: Dir, ts: string, report: Report, formats: seq<string>, exporter: Exporter): (Dir, Option<string>)
    decreases |formats|
  {
    if formats == [] then (dir, None)
    else
      match exporter(formats[0], report)
      case Some(e) => (dir, Some(e))
      case None =>
        Exported(dir[ExportPath(ts, formats[0]) := ExportContent(formats[0], report)], ts, report, formats[1..], exporter)
  }

  /**
   * The export raises exactly when some format's exporter raises, and then with the error of
   * the first such format. Nothing is deleted, a path that is no format's export path keeps its
   * entry, and a successful export has written every format's file.
   */
  lemma {:induction false} ExportedFirstError(dir: Dir, ts: string, report: Report, formats: seq<string>, exporter: Exporter)
    ensures var (dir', err) := Exported(dir, ts, report, formats, exporter);
      (err.None? <==> forall i :: 0 <= i < |formats| ==> exporter(formats[i], report).None?) &&
      (err.Some? ==> exists i :: 0 <= i < |formats| && err == exporter(formats[i], report) &&
                       forall j :: 0 <= j < i ==> exporter(formats[j], report).None?) &&
      dir.Keys <= dir'.Keys &&
      (forall p :: p in dir' && (forall i :: 0 <= i < |formats| ==> p != ExportPath(ts, formats[i])) ==>
                   p in dir && dir'[p] == dir[p]) &&
      (err.None? ==> forall i :: 0 <= i < |formats| ==> ExportPath(ts, formats[i]) in dir')
    decreases |formats|
  {
    if formats != [] {
      var rest := formats[1..];
      var d := dir[ExportPath(ts, formats[0]) := ExportContent(formats[0], report)];
      if exporter(formats[0], report).None? {
        ExportedFirstError(d, ts, report, rest, exporter);
        assert Exported(dir, ts, report, formats, exporter) == Exported(d, ts, report, rest, exporter);
        var (dir', err) := Exported(d, ts, report, rest, exporter);
        assert forall i :: 1 <= i < |formats| ==> formats[i] == rest[i - 1];
        if err.Some? {
          var i :| 0 <= i < |rest| && err == exporter(rest[i], report) &&
                   forall j :: 0 <= j < i ==> exporter(rest[j], report).None?;
          assert err == exporter(formats[i + 1], report);
          assert forall j :: 0 <= j < i + 1 ==> exporter(formats[j], report).None? by {
            forall j | 0 <= j < i + 1 ensures exporter(formats[j], report).None? {
              if j > 0 { assert formats[j] == rest[j - 1]; }
            }
          }
        } else {
          assert forall i :: 0 <= i < |formats| ==> exporter(formats[i], report).None? by {
            forall i | 0 <= i < |formats| ensures exporter(formats[i], report).None? {
              if i > 0 { assert formats[i] == rest[i - 1]; }
            }
          }
        }
      }
    }
  }

  /** Exporting JSON alone: the report is written, or the exporter's error is raised and nothing is. */
  lemma ExportedJson(dir: Dir, ts: string, report: Report, exporter: Exporter)
    ensures Exported(dir, ts, report, ["json"], exporter) ==
      if exporter("json", report).Some? then (dir, exporter("json", report))
      else (dir[FinalPath(ts) := Doc(report)], None)
  {
    ExportPathForms(ts);
    assert ["json"][1..] == [];
  }

  /**
   * Exporting JSON then HTML: both are written, or the JSON exporter raises and nothing is
   * written, or the HTML exporter raises after the JSON report was written.
   */
  lemma ExportedJsonHtml(dir: Dir, ts: string, report: Report, exporter: Exporter)
    ensures Exported(dir, ts, report, ["json", "html"], exporter) ==
      if exporter("json", report).Some? then (dir, exporter("json", report))
      else if exporter("html", report).Some? then (dir[FinalPath(ts) := Doc(report)], exporter("html", report))
      else (dir[FinalPath(ts) := Doc(report)][HtmlPath(ts) := Rendered("html", report)], None)
  {
    ExportPathForms(ts);
    assert ["json", "html"][1..] == ["html"];
    assert ["html"][1..] == [];
  }

  /** The JSON export is the report `results_{ts}.json`, the HTML one `results_{ts}.html`. */
  lemma ExportPathForms(ts: string)
    ensures ExportPath(ts, "json") == FinalPath(ts)
    ensures ExportPath(ts, "html") == HtmlPath(ts)
  {
    var x := "results_" + ts;
    assert x[0] == 'r';
    assert Paths.Join("results", x) == "results/" + x;
    assert FinalPath(ts) == "results/" + (x + ".json") && HtmlPath(ts) == "results/" + (x + ".html");
    hide Paths.Join, FinalPath, HtmlPath;
    assert "." + "json" == ".json" && "." + "html" == ".html";
    Seqs.ConcatAssoc("results/" + x, ".", "json");
    Seqs.ConcatAssoc("results/", x, ".json");
    Seqs.ConcatAssoc("results/" + x, ".", "html");
    Seqs.ConcatAssoc("results/", x, ".html");
  }

  /** The HTML rendering is neither the JSON report, nor a merged log, nor a node summary. */
  lemma HtmlPathApart(ts: string, i: nat, other: string)
    ensures HtmlPath(ts) == "results/results_" + ts + ".html"
    ensures HtmlPath(ts) != FinalPath(ts) && HtmlPath(ts) != MergedPath(ts, i)
    ensures !IsSummaryPath(other, HtmlPath(ts))
  {
    FinalPathNotSummary(ts);
    MergedPathForm(ts, i);
    var h := HtmlPath(ts);
    assert h[|h| - 4] == 'h' && FinalPath(ts)[|FinalPath(ts)| - 4] == 'j';
    assert h[8] == 'r' && MergedPath(ts, i)[8] == 'e';
    assert h[|h| - 5..] == ".html";
  }

  /** `os.path.join("results", f"eval_results_{ts}_run{i}.jsonl")`: the merged log of run `i`. */
  function MergedPath(ts: string, i: nat): string
  {
    Paths.Join("results", "eval_results_" + ts + "_run" + NatToString(i) + ".jsonl")
  }

  lemma MergedPathForm(ts: string, i: nat)
    ensures MergedPath(ts, i) == "results/eval_results_" + ts + "_run" + NatToString(i) + ".jsonl"
  {
  }

  /** Each run gets a merged log of its own. */
  lemma MergedPathDistinct(ts: string, i: nat, j: nat)
    requires i != j
    ensures MergedPath(ts, i) != MergedPath(ts, j)
  {
    MergedPathForm(ts, i);
    MergedPathForm(ts, j);
    if MergedPath(ts, i) == MergedPath(ts, j) {
      Seqs.InfixCancel("results/eval_results_" + ts + "_run", NatToString(i), NatToString(j), ".jsonl");
      NatToStringInjective(i, j);
    }
  }

  /** `run_merged_path`: the merged log of each of the runs `0 .. n-1`. */
  function MergedNames(ts: string, n: nat): (names: seq<string>)
    ensures |names| == n && forall i :: 0 <= i < n ==> names[i] == MergedPath(ts, i)
  {
    if n == 0 then [] else MergedNames(ts, n - 1) + [MergedPath(ts, n - 1)]
  }

  lemma MergedNamesDistinct(ts: string, n: nat)
    ensures Seqs.Distinct(MergedNames(ts, n))
  {
    var names := MergedNames(ts, n);
    forall i, j | 0 <= i < |names| && 0 <= j < |names| && i != j
      ensures names[i] != names[j]
    {
      MergedPathDistinct(ts, i, j);
    }
  }

  /** The report of a run is never one of its merged logs. */
  lemma FinalPathNotMerged(ts: string, i: nat)
    ensures FinalPath(ts) != MergedPath(ts, i)
  {
    FinalPathNotSummary(ts);
    MergedPathForm(ts, i);
    assert FinalPath(ts)[8] == 'r';
    assert MergedPath(ts, i)[8] == 'e';
  }

  /** A merged log is never taken for a node summary. */
  lemma MergedPathNotSummary(ts: string, i: nat, other: string)
    ensures !IsSummaryPath(other, MergedPath(ts, i))
  {
    MergedPathForm(ts, i);
    var p := MergedPath(ts, i);
    assert p[8] == 'e';
    assert ("results/results_" + other + "_node")[8] == 'r';
  }

  // ---------------------------------------------------------------------------------------
  // Per-run lists of shard logs

  /** `if p not in ps: ps.append(p)` */
  function AddPath(ps: seq<string>, p: string): (r: seq<string>)
    ensures forall x :: x in r <==> x in ps || x == p
  {
    if p in ps then ps else ps + [p]
  }

  /** Adding a path keeps a duplicate-free list duplicate-free. */
  lemma AddPathDistinct(ps: seq<string>, p: string)
    requires Seqs.Distinct(ps)
    ensures Seqs.Distinct(AddPath(ps, p))
  {
  }

  /** The list of run `i` so far; a run not seen yet has an empty list. */
  function RunList(runs: seq<seq<string>>, i: nat): seq<string>
  {
    if i < |runs| then runs[i] else []
  }

  /**
   * `runs[i]` gets `p` unless it holds it already. Runs are numbered by `enumerate`, so a new
   * run is always the next one and the lists for runs `0 .. n-1` are kept as a sequence.
   */
  function AddRunPath(runs: seq<seq<string>>, i: nat, p: string): (r: seq<seq<string>>)
    requires i <= |runs|
    ensures |r| == if i == |runs| then |runs| + 1 else |runs|
    ensures forall j :: 0 <= j < |r| ==> r[j] == if j == i then AddPath(RunList(runs, i), p) else runs[j]
  {
    if i == |runs| then runs + [[p]] else runs[i := AddPath(runs[i], p)]
  }

  /** The loop over `enumerate(jsonl_paths)` after its first `n` passes. */
  function AddRunPaths(runs: seq<seq<string>>, paths: seq<string>, n: nat): (r: seq<seq<string>>)
    requires n <= |paths|
    ensures |r| == if n > |runs| then n else |runs|
  {
    if n == 0 then runs else AddRunPath(AddRunPaths(runs, paths, n - 1), n - 1, paths[n - 1])
  }

  /** Path `i` of an entry lands in the list of run `i`, and no other list changes. */
  lemma {:induction false} AddRunPathsAt(runs: seq<seq<string>>, paths: seq<string>, n: nat, i: nat)
    requires n <= |paths|
    ensures RunList(AddRunPaths(runs, paths, n), i) ==
      if i < n then AddPath(RunList(runs, i), paths[i]) else RunList(runs, i)
  {
    if n > 0 {
      var prev := AddRunPaths(runs, paths, n - 1);
      AddRunPathsAt(runs, paths, n - 1, i);
      AddRunPathsAt(runs, paths, n - 1, n - 1);
      RunListAdd(prev, n - 1, paths[n - 1], i);
    }
  }

  lemma RunListAdd(runs: seq<seq<string>>, i: nat, p: string, j: nat)
    requires i <= |runs|
    ensures RunList(AddRunPath(runs, i, p), j) == if j == i then AddPath(RunList(runs, i), p) else RunList(runs, j)
  {
  }

  // ---------------------------------------------------------------------------------------
  // Reading the shard logs of one run

  /**
   * Reading the listed logs that exist: their records in order, or the error of the first that
   * is not JSON lines; and the set of existing paths reached, the failing one included.
   */
  function ReadLogs(dir: Dir, paths: seq<string>): (r: (Result<seq<AnswerRecord>>, set<string>))
    ensures forall p :: p in r.1 ==> p in paths && p in dir
    decreases |paths|
  {
    if paths == [] then (Success([]), {})
    else
      var last := paths[|paths| - 1];
      var (res, seen) := ReadLogs(dir, paths[..|paths| - 1]);
      if res.Failure? || last !in dir then (res, seen)
      else
        match ReadRecords(dir, last)
        case None => (Failure("JSONDecodeError: " + last), seen + {last})
        case Some(rs) => (Success(res.value + rs), seen + {last})
  }

  /** Once a log fails to read, the rest of the list is not looked at. */
  lemma {:induction false} ReadLogsStops(dir: Dir, paths: seq<string>, j: nat)
    requires j <= |paths| && ReadLogs(dir, paths[..j]).0.Failure?
    ensures ReadLogs(dir, paths) == ReadLogs(dir, paths[..j])
    decreases |paths|
  {
    if j < |paths| {
      var init := paths[..|paths| - 1];
      assert init[..j] == paths[..j];
      ReadLogsStops(dir, init, j);
    } else {
      assert paths[..j] == paths;
    }
  }

  /** Reading depends only on what the listed paths hold. */
  lemma {:induction false} ReadLogsFrame(d1: Dir, d2: Dir, paths: seq<string>)
    requires forall p :: p in paths ==> (p in d1 <==> p in d2) && (p in d1 ==> d1[p] == d2[p])
    ensures ReadLogs(d1, paths) == ReadLogs(d2, paths)
    decreases |paths|
  {
    if paths != [] {
      ReadLogsFrame(d1, d2, paths[..|paths| - 1]);
    }
  }

  /** On success every listed log that exists was read, and only those. */
  lemma {:induction false} ReadLogsSeen(dir: Dir, paths: seq<string>)
    requires ReadLogs(dir, paths).0.Success?
    ensures ReadLogs(dir, paths).1 == set p | p in paths && p in dir
    decreases |paths|
  {
    if paths != [] {
      var init := paths[..|paths| - 1];
      ReadLogsSeen(dir, init);
      assert paths == init + [paths[|paths| - 1]];
    }
  }

  /** The logs read successfully exactly when every listed log that exists is JSON lines. */
  lemma {:induction false} ReadLogsSuccess(dir: Dir, paths: seq<string>)
    ensures ReadLogs(dir, paths).0.Success? <==>
      forall p :: p in paths && p in dir ==> ReadRecords(dir, p).Some?
    decreases |paths|
  {
    if paths != [] {
      var init := paths[..|paths| - 1];
      ReadLogsSuccess(dir, init);
      assert paths == init + [paths[|paths| - 1]];
    }
  }

  /** The records read from a run's existing logs, in list order and line order. */
  lemma {:induction false} ReadLogsRecords(dir: Dir, paths: seq<string>, r: AnswerRecord)
    requires ReadLogs(dir, paths).0.Success?
    ensures r in ReadLogs(dir, paths).0.value <==>
      exists p :: p in paths && p in dir && dir[p].Lines? && Rec(r) in dir[p].lines
    decreases |paths|
  {
    if paths != [] {
      var init := paths[..|paths| - 1];
      var last := paths[|paths| - 1];
      ReadLogsRecords(dir, init, r);
      assert paths == init + [last];
      if last in dir {
        assert ReadRecords(dir, last).Some?;
      }
    }
  }

  // ---------------------------------------------------------------------------------------
  // Record order

  /** `int(x.get("question_id", 0))` */
  function QuestionKey(r: AnswerRecord): int
  {
    r.questionId.GetOr(0)
  }

  /** `entries.sort(key=lambda x: int(x.get("question_id", 0)))` */
  function SortByQuestion(rs: seq<AnswerRecord>): seq<AnswerRecord>
  {
    Orders.SortByKey(QuestionKey, rs)
  }

  /** The merged records are in question-id order and are the records read, each as often. */
  lemma SortByQuestionSpec(rs: seq<AnswerRecord>)
    ensures Orders.SortedByKey(QuestionKey, SortByQuestion(rs)) && multiset(SortByQuestion(rs)) == multiset(rs)
  {
    Orders.SortByKeySpec(QuestionKey, rs);
  }

  /** The sort is stable: records with the same question id keep their order. */
  lemma SortByQuestionStable(rs: seq<AnswerRecord>, k: int)
    ensures Orders.WithKey(QuestionKey, k, SortByQuestion(rs)) == Orders.WithKey(QuestionKey, k, rs)
  {
    Orders.SortByKeyStable(QuestionKey, k, rs);
  }

  // ---------------------------------------------------------------------------------------
  // Reading the summaries, scoring, and removing the shards

  /** `json.load` of each summary, in order; the first that is not a result document raises. */
  function Loaded(dir: Dir, shards: seq<string>): (r: Result<seq<Report>>)
    ensures r.Success? ==> |r.value| == |shards|
    decreases |shards|
  {
    if shards == [] then Success([])
    else
      match Loaded(dir, shards[..|shards| - 1])
      case Failure(e) => Failure(e)
      case Success(reps) =>
        match ReadReport(dir, shards[|shards| - 1])
        case None => Failure("JSONDecodeError: " + shards[|shards| - 1])
        case Some(rep) => Success(reps + [rep])
  }

  /** The summaries load exactly when each is a result document, and they come back in order. */
  lemma {:induction false} LoadedSpec(dir: Dir, shards: seq<string>)
    ensures Loaded(dir, shards).Success? <==> forall k :: 0 <= k < |shards| ==> ReadReport(dir, shards[k]).Some?
    ensures Loaded(dir, shards).Success? ==>
      forall k :: 0 <= k < |shards| ==> Some(Loaded(dir, shards).value[k]) == ReadReport(dir, shards[k])
    decreases |shards|
  {
    if shards != [] {
      var init := shards[..|shards| - 1];
      LoadedSpec(dir, init);
      assert forall k :: 0 <= k < |init| ==> init[k] == shards[k];
    }
  }

  method LoadSummaries(dir: Dir, shards: seq<string>) returns (r: Result<seq<Report>>)
    ensures r == Loaded(dir, shards)
  {
    var reps: seq<Report> := [];
    var k := 0;
    while k < |shards|
      invariant 0 <= k <= |shards|
      invariant Loaded(dir, shards[..k]) == Success(reps)
    {
      assert shards[..k + 1][..k] == shards[..k];
      var rep := ReadReport(dir, shards[k]);
      if rep.None? {
        LoadedStops(dir, shards, k + 1);
        return Failure("JSONDecodeError: " + shards[k]);
      }
      reps := reps + [rep.value];
      k := k + 1;
    }
    assert shards[..k] == shards;
    r := Success(reps);
  }

  lemma {:induction false} LoadedStops(dir: Dir, shards: seq<string>, j: nat)
    requires j <= |shards| && Loaded(dir, shards[..j]).Failure?
    ensures Loaded(dir, shards) == Loaded(dir, shards[..j])
    decreases |shards|
  {
    if j < |shards| {
      var init := shards[..|shards| - 1];
      assert init[..j] == shards[..j];
      LoadedStops(dir, init, j);
    } else {
      assert shards[..j] == shards;
    }
  }

  /** The loop over one run's shard logs: each that exists is read line by line and noted for removal. */
  method ReadRun(dir: Dir, paths: seq<string>) returns (res: Result<seq<AnswerRecord>>, seen: set<string>)
    ensures (res, seen) == ReadLogs(dir, paths)
  {
    var all: seq<AnswerRecord> := [];
    seen := {};
    var j := 0;
    while j < |paths|
      invariant 0 <= j <= |paths|
      invariant ReadLogs(dir, paths[..j]) == (Success(all), seen)
    {
      assert paths[..j + 1][..j] == paths[..j];
      var p := paths[j];
      if p in dir {
        seen := seen + {p};
        var rs := ReadRecords(dir, p);
        if rs.None? {
          ReadLogsStops(dir, paths, j + 1);
          return Failure("JSONDecodeError: " + p), seen;
        }
        all := all + rs.value;
      }
      j := j + 1;
    }
    assert paths[..j] == paths;
    res := Success(all);
  }

  /** `sum(correct_list)` */
  function Trues(vs: seq<bool>): (n: nat)
    ensures n <= |vs|
  {
    if vs == [] then 0 else Trues(vs[..|vs| - 1]) + (if vs[|vs| - 1] then 1 else 0)
  }

  /** `sum(correct_list) / len(correct_list) if correct_list else 0.0` */
  function Ratio(vs: seq<bool>): (r: real)
    ensures 0.0 <= r <= 1.0
  {
    if vs == [] then 0.0 else Trues(vs) as real / |vs| as real
  }

  /** `Trues` counts the `true`s, whatever their order. */
  lemma {:induction false} TruesCount(vs: seq<bool>)
    ensures Trues(vs) == multiset(vs)[true]
  {
    if vs != [] {
      var init := vs[..|vs| - 1];
      TruesCount(init);
      assert vs == init + [vs[|vs| - 1]];
    }
  }

  /** Two orderings of the same verdicts have the same ratio. */
  lemma RatioPermutation(a: seq<bool>, b: seq<bool>)
    requires multiset(a) == multiset(b)
    ensures Ratio(a) == Ratio(b)
  {
    TruesCount(a);
    TruesCount(b);
    assert |a| == |multiset(a)| == |multiset(b)| == |b|;
  }

  function MeanOf(fr: FileResult): real
  {
    fr.accuracyMean
  }

  function StdOf(fr: FileResult): real
  {
    fr.accuracyStd
  }

  /** An exit code returned, or an exception that escapes. */
  datatype Outcome = Exit(code: int) | Raised(error: string)

  /** `os.remove` of each summary and each shard log read; a file already gone is skipped. */
  method Cleanup(dir0: Dir, shards: seq<string>, consumed: set<string>) returns (dir: Dir)
    ensures dir == RemoveAll(dir0, (set p | p in shards) + consumed)
  {
    dir := dir0;
    var k := 0;
    assert (set p | p in shards[..0]) == {};
    assert dir0 == RemoveAll(dir0, {});
    hide RemoveAll;
    while k < |shards|
      invariant 0 <= k <= |shards|
      invariant dir == RemoveAll(dir0, set p | p in shards[..k])
    {
      ghost var next := shards[..k + 1];
      assert next == shards[..k] + [shards[k]];
      assert (set p | p in next) == (set p | p in shards[..k]) + {shards[k]};
      RemoveAllOneMore(dir0, (set p | p in shards[..k]), shards[k]);
      dir := dir - {shards[k]};
      k := k + 1;
    }
    assert shards[..k] == shards;
    var listed := set p | p in shards;
    var rest := consumed;
    assert listed + (consumed - rest) == listed;
    while rest != {}
      invariant rest <= consumed
      invariant dir == RemoveAll(dir0, listed + (consumed - rest))
      decreases |rest|
    {
      var p :| p in rest;
      assert listed + (consumed - (rest - {p})) == (listed + (consumed - rest)) + {p};
      RemoveAllOneMore(dir0, listed + (consumed - rest), p);
      dir := dir - {p};
      rest := rest - {p};
    }
    assert listed + (consumed - rest) == listed + consumed;
  }

  /** `glob` found exactly the node summaries of run `ts`. */
  ghost predicate Globbed(ts: string, listing: seq<string>, dir: Dir)
  {
    forall p :: p in listing <==> p in dir && IsSummaryPath(ts, p)
  }

  // ---------------------------------------------------------------------------------------
  // The model name handed to the uploader

  /** `config.get("model", {}).get("name", "unknown_model")`; `.get` on a non-dict raises. */
  function ModelName(config: Json.Value): (r: Result<Json.Value>)
    ensures r.Success? <==>
      config.Object? && (Json.Member(config, "model").None? || Json.Member(config, "model").value.Object?)
    ensures config.Object? && Json.Member(config, "model").None? ==> r == Success(Json.Str("unknown_model"))
    ensures config.Object? && Json.Member(config, "model").Some? && Json.Member(config, "model").value.Object? ==>
      var model := Json.Member(config, "model").value;
      (Json.Member(model, "name").None? ==> r == Success(Json.Str("unknown_model"))) &&
      (Json.Member(model, "name").Some? ==> r == Success(Json.Member(model, "name").value))
  {
    if !config.Object? then Failure("AttributeError: 'get'")
    else
      var model := Json.Member(config, "model").GetOr(Json.Object([]));
      if !model.Object? then Failure("AttributeError: 'get'")
      else Success(Json.Member(model, "name").GetOr(Json.Str("unknown_model")))
  }

  /** The name a run config gives under `model.name` is the name handed to the uploader. */
  lemma ModelNameOfConfig(name: Json.Value, rest: Dicts.Dict<Json.Value>)
    ensures ModelName(Json.Object([("model", Json.Object([("name", name)] + rest))])) == Success(name)
  {
    var model := Json.Object([("name", name)] + rest);
    var config := Json.Object([("model", model)]);
    assert Dicts.Find(config.fields, "model") == Some(0);
    assert Dicts.Find(model.fields, "name") == Some(0);
  }
}
