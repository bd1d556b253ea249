/**
 * The evaluation runner of `main.py`: repeated runs of every evaluation file, the per-file
 * and per-dataset statistics, the fold over the configured datasets, the removal of secrets
 * before the configuration is saved, the HTML conversion path and the command dispatch.
 *
 * `Evaluator.evaluate_file`, the dataset walk, the exporters, the clock and `sqrt` are
 * parameters; every exception is a `Failure`.
 */
module Runner {
  import opened Wrappers
  import opened Json
  import Strings
  import Dicts
  import Seqs
  import Stats
  import Paths
  import opened Records
  import Dataset
  import Shards
  import Evaluators
  import HfUpload

  /**
   * `evaluator.evaluate_file(path, tag, lang)`: the evaluated path, the accuracy and the
   * path of the written results, or the exception the run raised.
   */
  type Evaluate = (string, string, Value) -> Result<(string, real, string)>

  /** `ResultsExporterFactory.export_results(report, base, formats, config)`: the written paths. */
  type Export = (Report, string, seq<string>) -> Result<seq<string>>

  /** `directory.walk` for a dataset path: the files `os.walk` would list under it. */
  type Walk = string -> seq<Dataset.WalkFile>

  // ---------------------------------------------------------------------------------------
  // One file, run after run

  /** `f"{start_time}_run{run}"` */
  function RunTag(startTime: string, run: nat): (tag: string)
    ensures Strings.StartsWith(tag, startTime + "_run")
  {
    startTime + "_run" + Strings.NatToString(run)
  }

  /** Different runs of one evaluation write under different tags. */
  lemma RunTagDistinct(startTime: string, i: nat, j: nat)
    requires RunTag(startTime, i) == RunTag(startTime, j)
    ensures i == j
  {
    var pre := startTime + "_run";
    assert RunTag(startTime, i)[|pre|..] == Strings.NatToString(i);
    assert RunTag(startTime, j)[|pre|..] == Strings.NatToString(j);
    Strings.NatToStringInjective(i, j);
  }

  /**
   * The runs among the first `n` that did not raise, in run order: their accuracies and the
   * result paths they wrote.
   */
  function Successes(evaluate: Evaluate, file: string, startTime: string, lang: Value, n: nat)
    : (r: (seq<real>, seq<string>))
    ensures |r.0| == |r.1| <= n
  {
    if n == 0 then ([], [])
    else
      var prev := Successes(evaluate, file, startTime, lang, n - 1);
      match evaluate(file, RunTag(startTime, n - 1), lang)
      case Success(out) => (prev.0 + [out.1], prev.1 + [out.2])
      case Failure(_) => prev
  }

  /**
   * The successful runs are exactly the runs that did not raise: `runs` lists them in
   * increasing order, each with its accuracy and result path, and every other run raised.
   */
  lemma {:induction false} SuccessfulRuns(evaluate: Evaluate, file: string, startTime: string, lang: Value, n: nat)
    returns (runs: seq<nat>)
    ensures var (accs, paths) := Successes(evaluate, file, startTime, lang, n);
      |runs| == |accs| &&
      (forall i, j :: 0 <= i < j < |runs| ==> runs[i] < runs[j]) &&
      (forall i :: 0 <= i < |runs| ==>
        runs[i] < n &&
        evaluate(file, RunTag(startTime, runs[i]), lang).Success? &&
        accs[i] == evaluate(file, RunTag(startTime, runs[i]), lang).value.1 &&
        paths[i] == evaluate(file, RunTag(startTime, runs[i]), lang).value.2) &&
      (forall run: nat :: run < n && run !in runs ==> evaluate(file, RunTag(startTime, run), lang).Failure?)
  {
    if n == 0 {
      runs := [];
    } else {
      var prev := SuccessfulRuns(evaluate, file, startTime, lang, n - 1);
      if evaluate(file, RunTag(startTime, n - 1), lang).Success? {
        runs := prev + [n - 1];
      } else {
        runs := prev;
      }
    }
  }

  /** Every run failing is the same as no accuracy being collected. */
  lemma NoSuccesses(evaluate: Evaluate, file: string, startTime: string, lang: Value, n: nat)
    ensures Successes(evaluate, file, startTime, lang, n).0 == [] <==>
      forall run: nat :: run < n ==> evaluate(file, RunTag(startTime, run), lang).Failure?
  {
    var runs := SuccessfulRuns(evaluate, file, startTime, lang, n);
    if Successes(evaluate, file, startTime, lang, n).0 != [] {
      assert runs[0] < n && evaluate(file, RunTag(startTime, runs[0]), lang).Success?;
    }
  }

  /**
   * The entry of one file: omitted when no run succeeded, otherwise the mean and the standard
   * deviation of the successful accuracies (0 for a single one) and every run's figures.
   */
  function FileEntry(evaluate: Evaluate, file: string, startTime: string, lang: Value, runs: nat,
                     sqrt: real -> real): Option<FileResult>
  {
    var (accs, paths) := Successes(evaluate, file, startTime, lang, runs);
    if accs == [] then None
    else Some(FileResult(file, Stats.Mean(accs), Stats.GuardedStd(accs, sqrt), accs, paths))
  }

  /** A file is omitted exactly when every one of its runs raised. */
  lemma FileEntryOmitted(evaluate: Evaluate, file: string, startTime: string, lang: Value, runs: nat,
                         sqrt: real -> real)
    ensures FileEntry(evaluate, file, startTime, lang, runs, sqrt).None? <==>
      forall run: nat :: run < runs ==> evaluate(file, RunTag(startTime, run), lang).Failure?
  {
    NoSuccesses(evaluate, file, startTime, lang, runs);
  }

  /**
   * A file's entry names the file it was asked for, lists its successful runs in run order
   * and has a mean between the lowest and highest possible accuracy; with a single
   * successful run its standard deviation is 0.
   */
  lemma FileEntryFigures(evaluate: Evaluate, file: string, startTime: string, lang: Value, runs: nat,
                         sqrt: real -> real)
    requires forall run: nat :: run < runs && evaluate(file, RunTag(startTime, run), lang).Success? ==>
      0.0 <= evaluate(file, RunTag(startTime, run), lang).value.1 <= 1.0
    ensures var e := FileEntry(evaluate, file, startTime, lang, runs, sqrt);
      e.Some? ==>
        e.value.file == file &&
        e.value.accuracies == Successes(evaluate, file, startTime, lang, runs).0 &&
        e.value.runResults == Successes(evaluate, file, startTime, lang, runs).1 &&
        0.0 <= e.value.accuracyMean <= 1.0 &&
        (|e.value.accuracies| == 1 ==> e.value.accuracyStd == 0.0)
  {
    var accs := Successes(evaluate, file, startTime, lang, runs).0;
    var ids := SuccessfulRuns(evaluate, file, startTime, lang, runs);
    if accs != [] {
      assert forall i :: 0 <= i < |accs| ==> 0.0 <= accs[i] <= 1.0 by {
        forall i | 0 <= i < |accs|
          ensures 0.0 <= accs[i] <= 1.0
        {
          assert ids[i] < runs && evaluate(file, RunTag(startTime, ids[i]), lang).Success?;
        }
      }
      Stats.MeanBounds(accs, 0.0, 1.0);
    }
  }

  /** The inner loop of `_evaluate_dataset`: `repeat_runs` runs of one file. */
  method EvaluateFileRuns(evaluate: Evaluate, file: string, startTime: string, lang: Value, repeatRuns: nat,
                          sqrt: real -> real)
    returns (entry: Option<FileResult>)
    ensures entry == FileEntry(evaluate, file, startTime, lang, repeatRuns, sqrt)
  {
    var fileAccuracies: seq<real> := [];
    var fileResults: seq<string> := [];
    for run := 0 to repeatRuns
      invariant (fileAccuracies, fileResults) == Successes(evaluate, file, startTime, lang, run)
    {
      var outcome := evaluate(file, RunTag(startTime, run), lang);
      if outcome.Success? {
        fileAccuracies := fileAccuracies + [outcome.value.1];
        fileResults := fileResults + [outcome.value.2];
      }
    }
    if fileAccuracies == [] {
      return None;
    }
    var meanAccuracy := Stats.Mean(fileAccuracies);
    var stdAccuracy := if |fileAccuracies| > 1 then sqrt(Stats.PopVariance(fileAccuracies)) else 0.0;
    return Some(FileResult(file, meanAccuracy, stdAccuracy, fileAccuracies, fileResults));
  }

  // ---------------------------------------------------------------------------------------
  // One dataset

  function EntryOf(evaluate: Evaluate, startTime: string, lang: Value, runs: nat, sqrt: real -> real)
    : string -> Option<FileResult>
  {
    f => FileEntry(evaluate, f, startTime, lang, runs, sqrt)
  }

  /** The entries of a dataset's files and the means of their means and deviations (0 without files). */
  function DatasetEntry(evaluate: Evaluate, files: seq<string>, startTime: string, lang: Value, runs: nat,
                        sqrt: real -> real): DatasetResult
  {
    var results := Seqs.FilterMap(EntryOf(evaluate, startTime, lang, runs, sqrt), files);
    DatasetResult(results, Stats.MeanOrZero(Seqs.Map(Shards.MeanOf, results)),
                  Stats.MeanOrZero(Seqs.Map(Shards.StdOf, results)))
  }

  /**
   * A dataset lists exactly the entries of its files that had a successful run; with no such
   * file both averages are 0, and they are never outside the range the files' figures span.
   */
  lemma DatasetEntryFigures(evaluate: Evaluate, files: seq<string>, startTime: string, lang: Value, runs: nat,
                            sqrt: real -> real, fr: FileResult)
    ensures var d := DatasetEntry(evaluate, files, startTime, lang, runs, sqrt);
      (fr in d.results <==> exists i :: 0 <= i < |files| && FileEntry(evaluate, files[i], startTime, lang, runs, sqrt) == Some(fr)) &&
      (d.results == [] ==> d.averageAccuracy == 0.0 && d.averageStd == 0.0)
  {
    Seqs.FilterMapMember(EntryOf(evaluate, startTime, lang, runs, sqrt), files, fr);
  }

  /** With every file's mean accuracy in [0, 1], so is the dataset's average accuracy. */
  lemma DatasetAverageBounds(evaluate: Evaluate, files: seq<string>, startTime: string, lang: Value, runs: nat,
                             sqrt: real -> real)
    requires forall i :: 0 <= i < |files| && FileEntry(evaluate, files[i], startTime, lang, runs, sqrt).Some? ==>
      0.0 <= FileEntry(evaluate, files[i], startTime, lang, runs, sqrt).value.accuracyMean <= 1.0
    ensures 0.0 <= DatasetEntry(evaluate, files, startTime, lang, runs, sqrt).averageAccuracy <= 1.0
  {
    var f := EntryOf(evaluate, startTime, lang, runs, sqrt);
    var results := Seqs.FilterMap(f, files);
    var means := Seqs.Map(Shards.MeanOf, results);
    if results != [] {
      forall k | 0 <= k < |means|
        ensures 0.0 <= means[k] <= 1.0
      {
        Seqs.FilterMapMember(f, files, results[k]);
        var i :| 0 <= i < |files| && f(files[i]) == Some(results[k]);
      }
      Stats.MeanBounds(means, 0.0, 1.0);
    }
  }

  /** `range(repeat_runs)` for a Python int or bool: a negative count runs nothing. */
  function RunCount(v: Value): (n: nat)
    requires IsPyInt(v)
    ensures v.Int? && v.i >= 0 ==> n == v.i
    ensures v.Int? && v.i < 0 ==> n == 0
  {
    match v
    case Int(i) => if i < 0 then 0 else i
    case Bool(b) => if b then 1 else 0
  }

  /**
   * `repeat_runs` (default 1) and the dataset's language from `datasets_prompt_map`
   * (default "zh"), read from the `evaluation` section.
   */
  function RunSettings(config: Dicts.Dict<Value>, path: string): (r: Result<(nat, Value)>)
    ensures r.Success? ==> Evaluators.Section(config, "evaluation").Success?
  {
    match Evaluators.Section(config, "evaluation")
    case Failure(e) => Failure(e)
    case Success(evaluation) =>
      var promptMap := Member(evaluation, "datasets_prompt_map").GetOr(Object([]));
      var repeat := Member(evaluation, "repeat_runs").GetOr(Int(1));
      if !promptMap.Object? then Failure("AttributeError: 'get'")
      else if !IsPyInt(repeat) then Failure("TypeError: 'repeat_runs' cannot be interpreted as an integer")
      else Success((RunCount(repeat), Member(promptMap, path).GetOr(Str("zh"))))
  }

  /** Absent settings mean one run and Chinese prompts. */
  lemma RunSettingsDefaults(config: Dicts.Dict<Value>, evaluation: Dicts.Dict<Value>, path: string)
    requires Dicts.Get(config, "evaluation") == Some(Object(evaluation))
    requires Dicts.Get(evaluation, "repeat_runs").None? && Dicts.Get(evaluation, "datasets_prompt_map").None?
    ensures RunSettings(config, path) == Success((1, Str("zh")))
  {
    var none: Dicts.Dict<Value> := [];
    Dicts.FindNone(none, path);
  }

  /** `_evaluate_dataset` for one item of `dataset_paths`, or the exception that skips it. */
  function DatasetRun(config: Dicts.Dict<Value>, item: Value, walk: Walk, evaluate: Evaluate, startTime: string,
                      sqrt: real -> real): (r: Result<DatasetResult>)
    ensures r.Success? <==>
      item.Str? && Dataset.EvaluationFiles(item.s, walk(item.s)) != [] && RunSettings(config, item.s).Success?
  {
    if !item.Str? then Failure("TypeError: expected a path string")
    else
      var files := Dataset.EvaluationFiles(item.s, walk(item.s));
      if files == [] then Failure("no readable evaluation file under " + item.s)
      else match RunSettings(config, item.s)
        case Failure(e) => Failure(e)
        case Success(settings) => Success(DatasetEntry(evaluate, files, startTime, settings.1, settings.0, sqrt))
  }

  // ---------------------------------------------------------------------------------------
  // The configuration: dataset paths, the evaluator, the saved copy

  /** `config["evaluation"]["dataset_paths"]`, a single path wrapped into a list. */
  function DatasetPaths(config: Dicts.Dict<Value>): (r: Result<Value>)
    ensures r.Success? <==>
      Evaluators.Section(config, "evaluation").Success? &&
      Dicts.Get(Dicts.Get(config, "evaluation").value.fields, "dataset_paths").Some?
    ensures r.Success? ==> var v := Dicts.Get(Dicts.Get(config, "evaluation").value.fields, "dataset_paths").value;
      r.value == if v.Str? then List([v]) else v
  {
    match Dicts.Get(config, "evaluation")
    case None => Failure("KeyError: 'evaluation'")
    case Some(evaluation) =>
      if !evaluation.Object? then Failure("TypeError: 'evaluation' is not subscriptable")
      else
        var paths: Option<Value> := Dicts.Get(evaluation.fields, "dataset_paths");
        match paths
        case None => Failure("KeyError: 'dataset_paths'")
        case Some(Str(s)) => Success(List([Str(s)]))
        case Some(v) => Success(v)
  }

  /** `for dataset_path in dataset_paths`: a list's items, a dict's keys, a string's characters. */
  function Items(v: Value): (r: Result<seq<Value>>)
    ensures r.Success? <==> v.List? || v.Object? || v.Str?
    ensures v.List? ==> r == Success(v.items)
    ensures v.Object? ==>
      r.Success? && |r.value| == |v.fields| &&
      forall i :: 0 <= i < |v.fields| ==> r.value[i] == Str(v.fields[i].0)
  {
    match v
    case List(items) => Success(items)
    case Object(fields) => Success(Seqs.Map((p: (string, Value)) => Str(p.0), fields))
    case Str(s) => Success(Seqs.Map((c: char) => Str([c]), s))
    case _ => Failure("TypeError: object is not iterable")
  }

  /**
   * `Evaluator(llm, strategy, config)`: its rate limiter divides by
   * `config["llm_api"]["api_rate_limit"]` unless that is -1.
   */
  function EvaluatorReady(config: Dicts.Dict<Value>): (r: Result<()>)
    ensures r.Success? <==>
      Dicts.Get(config, "llm_api").Some? && Dicts.Get(config, "llm_api").value.Object? &&
      var limit := Member(Dicts.Get(config, "llm_api").value, "api_rate_limit");
      limit.Some? && IsPyNumber(limit.value) && NumberOf(limit.value) != 0.0
  {
    match Dicts.Get(config, "llm_api")
    case None => Failure("KeyError: 'llm_api'")
    case Some(api) =>
      if !api.Object? then Failure("TypeError: 'llm_api' is not subscriptable")
      else match Member(api, "api_rate_limit")
        case None => Failure("KeyError: 'api_rate_limit'")
        case Some(limit) =>
          if !IsPyNumber(limit) then Failure("TypeError: unsupported operand type(s) for /")
          else if NumberOf(limit) == 0.0 then Failure("ZeroDivisionError: float division by zero")
          else Success(())
  }

  /**
   * `"api_key" in save_config["llm_api"]` followed by the deletion: a dict loses the key in
   * place, a string or list that contains it cannot delete it, and any other value cannot be
   * searched.
   */
  function WithoutApiKey(save: Dicts.Dict<Value>): Result<Dicts.Dict<Value>>
  {
    match Dicts.Get(save, "llm_api")
    case None => Success(save)
    case Some(api) =>
      match api
      case Object(fields) =>
        if Dicts.Get(fields, "api_key").Some? then
          Success(Dicts.Put(save, "llm_api", Object(Dicts.Without(fields, {"api_key"}))))
        else Success(save)
      case Str(s) =>
        if Strings.Contains(s, "api_key") then Failure("TypeError: 'str' object doesn't support item deletion")
        else Success(save)
      case List(items) =>
        if Str("api_key") in items then Failure("TypeError: list indices must be integers or slices, not str")
        else Success(save)
      case _ => Failure("TypeError: argument is not iterable")
  }

  /** The copy of the configuration that is saved with the results. */
  function Saved(config: Dicts.Dict<Value>): Result<Dicts.Dict<Value>>
  {
    match WithoutApiKey(config)
    case Failure(e) => Failure(e)
    case Success(save) => Success(Dicts.Without(save, {"evaluation_strategy_instance"}))
  }

  /** The saved copy holds no strategy instance and keeps every setting but `llm_api`. */
  lemma SavedKeepsSettings(config: Dicts.Dict<Value>)
    ensures var r := Saved(config);
      r.Success? ==>
        Dicts.Get(r.value, "evaluation_strategy_instance").None? &&
        forall k :: k != "llm_api" && k != "evaluation_strategy_instance" ==>
          Dicts.Get(r.value, k) == Dicts.Get(config, k)
  {
    var w := WithoutApiKey(config);
    if w.Success? {
      var api := Dicts.Get(config, "llm_api");
      forall k
        ensures Dicts.Get(Saved(config).value, k) ==
          if k == "evaluation_strategy_instance" then None else Dicts.Get(w.value, k)
      {
        Dicts.GetWithout(w.value, {"evaluation_strategy_instance"}, k);
      }
      if api.Some? && api.value.Object? && Dicts.Get(api.value.fields, "api_key").Some? {
        forall k
          ensures k != "llm_api" ==> Dicts.Get(w.value, k) == Dicts.Get(config, k)
        {
          Dicts.GetPut(config, "llm_api", Object(Dicts.Without(api.value.fields, {"api_key"})), k);
        }
      } else {
        assert w.value == config;
      }
    }
  }

  /** A dict `llm_api` is saved without its API key and with every other field. */
  lemma SavedApiKeyGone(config: Dicts.Dict<Value>)
    requires Dicts.Get(config, "llm_api").Some? && Dicts.Get(config, "llm_api").value.Object?
    ensures var r := Saved(config);
      var before := Dicts.Get(config, "llm_api").value.fields;
      r.Success? && Dicts.Get(r.value, "llm_api").Some? && Dicts.Get(r.value, "llm_api").value.Object? &&
      var after := Dicts.Get(r.value, "llm_api").value.fields;
      Dicts.Get(after, "api_key").None? &&
      forall k :: k != "api_key" ==> Dicts.Get(after, k) == Dicts.Get(before, k)
  {
    var w := WithoutApiKey(config);
    var before := Dicts.Get(config, "llm_api").value.fields;
    Dicts.GetWithout(w.value, {"evaluation_strategy_instance"}, "llm_api");
    if Dicts.Get(before, "api_key").Some? {
      Dicts.GetPut(config, "llm_api", Object(Dicts.Without(before, {"api_key"})), "llm_api");
      forall k
        ensures Dicts.Get(Dicts.Without(before, {"api_key"}), k) == if k == "api_key" then None else Dicts.Get(before, k)
      {
        Dicts.GetWithout(before, {"api_key"}, k);
      }
    }
  }

  /** With `llm_api` absent or a dict, saving cannot fail. */
  lemma SavedSucceeds(config: Dicts.Dict<Value>)
    requires Dicts.Get(config, "llm_api").None? || Dicts.Get(config, "llm_api").value.Object?
    ensures Saved(config).Success?
  {
  }

  /**
   * What `_prepare_config_for_saving` leaves in the runner: the configuration without
   * `llm_instance`, which still holds the API key; the saved copy has none of the three.
   */
  lemma PrepareForSaving(config: Dicts.Dict<Value>)
    ensures var kept := Dicts.Without(config, {"llm_instance"});
      Dicts.Get(kept, "llm_instance").None? &&
      (forall k :: k != "llm_instance" ==> Dicts.Get(kept, k) == Dicts.Get(config, k)) &&
      (Saved(kept).Success? ==> Dicts.Get(Saved(kept).value, "llm_instance").None?)
  {
    var kept := Dicts.Without(config, {"llm_instance"});
    forall k
      ensures Dicts.Get(kept, k) == if k == "llm_instance" then None else Dicts.Get(config, k)
    {
      Dicts.GetWithout(config, {"llm_instance"}, k);
    }
    hide *;
    SavedKeepsSettings(kept);
    if Saved(kept).Success? {
      assert Dicts.Get(Saved(kept).value, "llm_instance") == Dicts.Get(kept, "llm_instance");
    }
  }

  /** `_handle_google_services`: only reading its settings can raise; the uploads' errors are logged. */
  function GoogleServices(config: Dicts.Dict<Value>): (r: Result<()>)
    ensures !Truthy(Dicts.Get(config, "google_services").GetOr(Null)) ==> r.Success?
  {
    var services := Dicts.Get(config, "google_services").GetOr(Null);
    if !Truthy(services) then Success(())
    else if !services.Object? then Failure("AttributeError: 'get'")
    else if !Member(services, "google_drive").GetOr(Object([])).Object? then Failure("AttributeError: 'get'")
    else if !Member(services, "google_sheets").GetOr(Object([])).Object? then Failure("AttributeError: 'get'")
    else Success(())
  }

  // ---------------------------------------------------------------------------------------
  // The whole run

  /** `_evaluate_dataset` as a function of the dataset path alone. */
  function PathRun(config: Dicts.Dict<Value>, walk: Walk, evaluate: Evaluate, startTime: string, sqrt: real -> real)
    : string -> Result<DatasetResult>
  {
    p => DatasetRun(config, Str(p), walk, evaluate, startTime, sqrt)
  }

  /**
   * The datasets evaluated among the first `n` items, stored under their paths in first-seen
   * order; an item that is not a string raises before anything is stored.
   */
  function Evaluated(items: seq<Value>, n: nat, run: string -> Result<DatasetResult>): Dicts.Dict<DatasetResult>
    requires n <= |items|
  {
    if n == 0 then []
    else
      var prev := Evaluated(items, n - 1, run);
      if !items[n - 1].Str? then prev
      else match run(items[n - 1].s)
        case Success(d) => Dicts.Put(prev, items[n - 1].s, d)
        case Failure(_) => prev
  }

  /**
   * A path has results exactly when it is one of the items and its evaluation did not raise,
   * and they are that evaluation's results: a failing dataset is skipped, the rest are kept.
   */
  lemma {:induction false} EvaluatedGet(items: seq<Value>, n: nat, run: string -> Result<DatasetResult>, p: string)
    requires n <= |items|
    ensures Dicts.Get(Evaluated(items, n, run), p) ==
      if Str(p) in items[..n] && run(p).Success? then Some(run(p).value) else None
  {
    if n == 0 {
      var none: Dicts.Dict<DatasetResult> := [];
      Dicts.FindNone(none, p);
    } else {
      EvaluatedGet(items, n - 1, run, p);
      assert items[..n] == items[..n - 1] + [items[n - 1]];
      var prev := Evaluated(items, n - 1, run);
      if items[n - 1].Str? && run(items[n - 1].s).Success? {
        Dicts.GetPut(prev, items[n - 1].s, run(items[n - 1].s).value, p);
      }
    }
  }

  /** The results hold each dataset path once. */
  lemma {:induction false} EvaluatedDistinct(items: seq<Value>, n: nat, run: string -> Result<DatasetResult>)
    requires n <= |items|
    ensures Dicts.DistinctKeys(Evaluated(items, n, run))
  {
    if n > 0 {
      EvaluatedDistinct(items, n - 1, run);
      var prev := Evaluated(items, n - 1, run);
      if items[n - 1].Str? && run(items[n - 1].s).Success? {
        Dicts.PutDistinct(prev, items[n - 1].s, run(items[n - 1].s).value);
      }
    }
  }

  /** What `run_evaluation` reads before the first dataset: the paths, both instances, the evaluator. */
  function Prelude(config: Dicts.Dict<Value>): (r: Result<seq<Value>>)
    ensures r.Success? ==>
      DatasetPaths(config).Success? && EvaluatorReady(config).Success? &&
      Dicts.Get(config, "llm_instance").Some? && Dicts.Get(config, "evaluation_strategy_instance").Some?
  {
    match DatasetPaths(config)
    case Failure(e) => Failure(e)
    case Success(paths) =>
      if Dicts.Get(config, "llm_instance").None? then Failure("KeyError: 'llm_instance'")
      else if Dicts.Get(config, "evaluation_strategy_instance").None? then
        Failure("KeyError: 'evaluation_strategy_instance'")
      else match EvaluatorReady(config)
        case Failure(e) => Failure(e)
        case Success(_) => Items(paths)
  }

  /** The report of a run: its timestamp, the saved configuration, the datasets, the duration. */
  function FinalReport(config: Dicts.Dict<Value>, datasets: Dicts.Dict<DatasetResult>, startTime: string,
                       startDatetime: real, now: real): Result<Report>
  {
    match Saved(Dicts.Without(config, {"llm_instance"}))
    case Failure(e) => Failure(e)
    case Success(save) => Success(Report(startTime, Some(Object(save)), datasets, Some(now - startDatetime)))
  }

  /**
   * The report carries the run's start stamp and elapsed time and a configuration without
   * the instances or the API key.
   */
  lemma FinalReportContents(config: Dicts.Dict<Value>, datasets: Dicts.Dict<DatasetResult>, startTime: string,
                            startDatetime: real, now: real)
    requires FinalReport(config, datasets, startTime, startDatetime, now).Success?
    ensures var rep := FinalReport(config, datasets, startTime, startDatetime, now).value;
      rep.timestamp == startTime && rep.duration == Some(now - startDatetime) && rep.datasets == datasets &&
      rep.config.Some? && rep.config.value.Object? &&
      Dicts.Get(rep.config.value.fields, "llm_instance").None? &&
      Dicts.Get(rep.config.value.fields, "evaluation_strategy_instance").None? &&
      (Dicts.Get(config, "llm_api").Some? && Dicts.Get(config, "llm_api").value.Object? ==>
        Dicts.Get(rep.config.value.fields, "llm_api").Some? &&
        Dicts.Get(rep.config.value.fields, "llm_api").value.Object? &&
        Dicts.Get(Dicts.Get(rep.config.value.fields, "llm_api").value.fields, "api_key").None?)
  {
    var kept := Dicts.Without(config, {"llm_instance"});
    PrepareForSaving(config);
    SavedKeepsSettings(kept);
    if Dicts.Get(config, "llm_api").Some? && Dicts.Get(config, "llm_api").value.Object? {
      SavedApiKeyGone(kept);
    }
  }

  /** The formats asked for, `["json"]` when none were. */
  function Formats(exportFormats: Option<seq<string>>): (f: seq<string>)
    ensures exportFormats.None? ==> f == ["json"]
  {
    exportFormats.GetOr(["json"])
  }

  /** `exported_files[0] if exported_files else ""` */
  function FirstOrEmpty(files: seq<string>): (s: string)
    ensures files == [] ==> s == ""
    ensures files != [] ==> s == files[0]
  {
    if files == [] then "" else files[0]
  }

  /** Exporting the report under `results_{start_time}` and reading the Google settings. */
  function Published(kept: Dicts.Dict<Value>, report: Report, resultsDir: string, startTime: string,
                     formats: seq<string>, exporter: Export): Result<string>
  {
    match exporter(report, Paths.Join(resultsDir, "results_" + startTime), formats)
    case Failure(e) => Failure(e)
    case Success(files) =>
      match GoogleServices(kept)
      case Failure(e) => Failure(e)
      case Success(_) => Success(FirstOrEmpty(files))
  }

  /** What `run_evaluation` does once the datasets are evaluated. */
  function Concluded(config: Dicts.Dict<Value>, datasets: Dicts.Dict<DatasetResult>, startTime: string,
                     startDatetime: real, resultsDir: string, formats: seq<string>, now: real,
                     exporter: Export): Result<string>
  {
    match FinalReport(config, datasets, startTime, startDatetime, now)
    case Failure(e) => Failure(e)
    case Success(report) =>
      Published(Dicts.Without(config, {"llm_instance"}), report, resultsDir, startTime, formats, exporter)
  }

  /**
   * `run_evaluation` from a loaded configuration: its result, and the runner's configuration
   * afterwards (without `llm_instance` once the report is being prepared).
   */
  function RunOutcome(config: Dicts.Dict<Value>, startTime: string, startDatetime: real, resultsDir: string,
                      exportFormats: Option<seq<string>>, walk: Walk, evaluate: Evaluate, sqrt: real -> real,
                      now: real, exporter: Export): (Result<string>, Dicts.Dict<Value>)
  {
    match Prelude(config)
    case Failure(e) => (Failure(e), config)
    case Success(items) =>
      var datasets := Evaluated(items, |items|, PathRun(config, walk, evaluate, startTime, sqrt));
      (Concluded(config, datasets, startTime, startDatetime, resultsDir, Formats(exportFormats), now, exporter),
       Dicts.Without(config, {"llm_instance"}))
  }

  /**
   * A run succeeds exactly when the configuration is usable, the report could be prepared,
   * exported under `results/results_{start_time}` in the asked formats (JSON by default) and
   * the Google settings could be read; it then returns the first exported path, or "". The
   * report holds, for each path, the results its evaluation produced, if any. Whatever
   * happens, the runner's configuration loses at most `llm_instance`.
   */
  lemma RunOutcomeSpec(config: Dicts.Dict<Value>, startTime: string, startDatetime: real, resultsDir: string,
                       exportFormats: Option<seq<string>>, walk: Walk, evaluate: Evaluate, sqrt: real -> real,
                       now: real, exporter: Export, p: string)
    ensures var (r, after) := RunOutcome(config, startTime, startDatetime, resultsDir, exportFormats, walk, evaluate,
                                          sqrt, now, exporter);
      (after == config || after == Dicts.Without(config, {"llm_instance"})) &&
      (forall k :: k != "llm_instance" ==> Dicts.Get(after, k) == Dicts.Get(config, k)) &&
      (r.Success? <==>
        Prelude(config).Success? &&
        var items := Prelude(config).value;
        var report := FinalReport(config, Evaluated(items, |items|, PathRun(config, walk, evaluate, startTime, sqrt)),
                                  startTime, startDatetime, now);
        report.Success? &&
        var exported := exporter(report.value, Paths.Join(resultsDir, "results_" + startTime), Formats(exportFormats));
        exported.Success? && GoogleServices(Dicts.Without(config, {"llm_instance"})).Success? &&
        r.value == FirstOrEmpty(exported.value) &&
        var run := DatasetRun(config, Str(p), walk, evaluate, startTime, sqrt);
        Dicts.Get(report.value.datasets, p) == if Str(p) in items && run.Success? then Some(run.value) else None)
  {
    PrepareForSaving(config);
    if Prelude(config).Success? {
      var items := Prelude(config).value;
      EvaluatedGet(items, |items|, PathRun(config, walk, evaluate, startTime, sqrt), p);
      assert items[..|items|] == items;
    }
  }

  // ---------------------------------------------------------------------------------------
  // The runner

  /** `TwinkleEvalRunner`: the configuration and the start of the run it evaluates. */
  class TwinkleEvalRunner {
    var configPath: string
    var config: Option<Dicts.Dict<Value>>
    var startTime: Option<string>
    var startDatetime: Option<real>
    var resultsDir: string

    /** A loaded configuration always comes with the start of the run. */
    predicate Valid()
      reads this
    {
      config.Some? ==> startTime.Some? && startDatetime.Some?
    }

    constructor (path: string)
      ensures Valid()
      ensures configPath == path && config == None && startTime == None && startDatetime == None
      ensures resultsDir == "results"
    {
      configPath := path;
      config := None;
      startTime := None;
      startDatetime := None;
      resultsDir := "results";
    }

    /**
     * `initialize`: the loaded configuration (or the error `load_config` raised), the
     * `%Y%m%d_%H%M` stamp and the clock are parameters.
     */
    method Initialize(loaded: Result<Dicts.Dict<Value>>, stamp: string, now: real) returns (r: Result<()>)
      requires Valid()
      modifies this
      ensures Valid()
      ensures configPath == old(configPath) && resultsDir == old(resultsDir)
      ensures r.Success? <==> loaded.Success?
      ensures loaded.Success? ==> config == Some(loaded.value) && startTime == Some(stamp) && startDatetime == Some(now)
      ensures loaded.Failure? ==>
        config == old(config) && startTime == old(startTime) && startDatetime == old(startDatetime)
    {
      if loaded.Failure? {
        return Failure(loaded.error);
      }
      config := Some(loaded.value);
      startTime := Some(stamp);
      startDatetime := Some(now);
      return Success(());
    }

    /** `_prepare_config_for_saving`: drops `llm_instance` in place and returns the saved copy. */
    method PrepareConfigForSaving() returns (r: Result<Dicts.Dict<Value>>)
      requires Valid()
      modifies this
      ensures Valid()
      ensures configPath == old(configPath) && resultsDir == old(resultsDir)
      ensures startTime == old(startTime) && startDatetime == old(startDatetime)
      ensures old(config).None? ==> r.Failure? && config == None
      ensures old(config).Some? ==>
        config == Some(Dicts.Without(old(config).value, {"llm_instance"})) && r == Saved(config.value)
    {
      if config.None? {
        return Failure("ConfigurationError: configuration not loaded");
      }
      if Dicts.Get(config.value, "llm_instance").Some? {
        config := Some(Dicts.Without(config.value, {"llm_instance"}));
      } else {
        Dicts.FindSpec(config.value, "llm_instance");
        Dicts.WithoutAbsent(config.value, {"llm_instance"});
      }
      r := Saved(config.value);
    }

    /** `_evaluate_dataset`: every evaluation file of one dataset path, `repeat_runs` times each. */
    method EvaluateDataset(item: Value, walk: Walk, evaluate: Evaluate, sqrt: real -> real)
      returns (r: Result<DatasetResult>)
      requires Valid()
      ensures config.None? ==> r.Failure?
      ensures config.Some? ==> r == DatasetRun(config.value, item, walk, evaluate, startTime.value, sqrt)
    {
      if config.None? {
        return Failure("ConfigurationError: configuration not loaded");
      }
      if !item.Str? {
        return Failure("TypeError: expected a path string");
      }
      var found := Dataset.FindAllEvaluationFiles(item.s, walk(item.s));
      if found.Failure? {
        return Failure("no readable evaluation file under " + item.s);
      }
      var allFiles := found.value;
      var settings := RunSettings(config.value, item.s);
      if settings.Failure? {
        return Failure(settings.error);
      }
      var repeatRuns := settings.value.0;
      var datasetLang := settings.value.1;
      ghost var entry := EntryOf(evaluate, startTime.value, datasetLang, repeatRuns, sqrt);
      var results: seq<FileResult> := [];
      for idx := 0 to |allFiles|
        invariant results == Seqs.FilterMap(entry, allFiles[..idx])
      {
        var fileEntry := EvaluateFileRuns(evaluate, allFiles[idx], startTime.value, datasetLang, repeatRuns, sqrt);
        Seqs.FilterMapSnoc(entry, allFiles, idx);
        if fileEntry.Some? {
          results := results + [fileEntry.value];
        }
      }
      assert allFiles[..|allFiles|] == allFiles;
      var averageAccuracy := if results != [] then Stats.Mean(Seqs.Map(Shards.MeanOf, results)) else 0.0;
      var averageStd := if results != [] then Stats.Mean(Seqs.Map(Shards.StdOf, results)) else 0.0;
      return Success(DatasetResult(results, averageAccuracy, averageStd));
    }

    /** The loop of `run_evaluation`: each dataset in turn, a failing one skipped. */
    method EvaluateAll(datasetPaths: seq<Value>, walk: Walk, evaluate: Evaluate, sqrt: real -> real)
      returns (datasetResults: Dicts.Dict<DatasetResult>)
      requires Valid() && config.Some?
      ensures datasetResults ==
        Evaluated(datasetPaths, |datasetPaths|, PathRun(config.value, walk, evaluate, startTime.value, sqrt))
    {
      ghost var run := PathRun(config.value, walk, evaluate, startTime.value, sqrt);
      datasetResults := [];
      for i := 0 to |datasetPaths|
        invariant datasetResults == Evaluated(datasetPaths, i, run)
      {
        var datasetResult := EvaluateDataset(datasetPaths[i], walk, evaluate, sqrt);
        if datasetResult.Success? {
          assert datasetPaths[i] == Str(datasetPaths[i].s);
          datasetResults := Dicts.Put(datasetResults, datasetPaths[i].s, datasetResult.value);
        }
      }
    }

    /** The end of `run_evaluation`: the report, its export and the Google settings. */
    method Conclude(datasetResults: Dicts.Dict<DatasetResult>, formats: seq<string>, now: real, exporter: Export)
      returns (r: Result<string>)
      requires Valid() && config.Some?
      modifies this
      ensures Valid()
      ensures configPath == old(configPath) && resultsDir == old(resultsDir)
      ensures startTime == old(startTime) && startDatetime == old(startDatetime)
      ensures config == Some(Dicts.Without(old(config).value, {"llm_instance"}))
      ensures r == Concluded(old(config).value, datasetResults, startTime.value, startDatetime.value, resultsDir,
                             formats, now, exporter)
    {
      var currentDuration := now - startDatetime.value;
      var save := PrepareConfigForSaving();
      if save.Failure? {
        return Failure(save.error);
      }
      var finalResults := Report(startTime.value, Some(Object(save.value)), datasetResults, Some(currentDuration));
      var exported := exporter(finalResults, Paths.Join(resultsDir, "results_" + startTime.value), formats);
      if exported.Failure? {
        return Failure(exported.error);
      }
      var google := GoogleServices(config.value);
      if google.Failure? {
        return Failure(google.error);
      }
      return Success(if exported.value == [] then "" else exported.value[0]);
    }

    /**
     * `run_evaluation`: every dataset in turn, a failing one skipped, then the report, its
     * export and the Google settings. The clock reading at the end is `now`.
     */
    method RunEvaluation(exportFormats: Option<seq<string>>, walk: Walk, evaluate: Evaluate, sqrt: real -> real,
                         now: real, exporter: Export)
      returns (r: Result<string>)
      requires Valid()
      modifies this
      ensures Valid()
      ensures configPath == old(configPath) && resultsDir == old(resultsDir)
      ensures startTime == old(startTime) && startDatetime == old(startDatetime)
      ensures old(config).None? ==> r.Failure? && config == None
      ensures old(config).Some? ==>
        var (res, after) := RunOutcome(old(config).value, startTime.value, startDatetime.value, resultsDir,
                                       exportFormats, walk, evaluate, sqrt, now, exporter);
        r == res && config == Some(after)
    {
      if config.None? {
        return Failure("ConfigurationError: configuration not loaded");
      }
      var formats := if exportFormats.None? then ["json"] else exportFormats.value;
      assert formats == Formats(exportFormats);
      var loaded := config.value;
      var prelude := Prelude(loaded);
      if prelude.Failure? {
        return Failure(prelude.error);
      }
      var datasetPaths := prelude.value;
      var datasetResults := EvaluateAll(datasetPaths, walk, evaluate, sqrt);
      r := Conclude(datasetResults, formats, now, exporter);
    }
  }

  // ---------------------------------------------------------------------------------------
  // Converting a result file to HTML

  /** `os.path.splitext(p)[0] + ".html"` */
  function HtmlPath(p: string): string
  {
    Paths.SplitExt(p).0 + ".html"
  }

  /** The HTML file is written next to the JSON file: everything up to the last '/' is kept. */
  lemma HtmlPathSameDirectory(p: string)
    ensures Paths.RFind(HtmlPath(p), '/') == Paths.RFind(p, '/')
    ensures HtmlPath(p)[..Paths.RFind(p, '/') + 1] == p[..Paths.RFind(p, '/') + 1]
  {
    assert '/' !in ".html" by { assert ".html" == ['.', 'h', 't', 'm', 'l']; }
    Paths.NewExtSameDirectory(p, ".html");
  }

  /**
   * The HTML path has the JSON path's stem and the extension ".html", unless the stem's last
   * component is nothing but dots (where `splitext` finds no extension).
   */
  lemma HtmlPathExtension(p: string)
    requires !Paths.OnlyDots(Paths.Basename(Paths.SplitExt(p).0))
    ensures Paths.SplitExt(HtmlPath(p)) == (Paths.SplitExt(p).0, ".html")
  {
    var stem := Paths.SplitExt(p).0;
    var h := HtmlPath(p);
    Paths.RFindAppend(stem, ".html", '/');
    var sep := Paths.RFind(stem, '/');
    var dot := Paths.RFind(h, '.');
    assert h[|stem|] == '.';
    assert dot == |stem|;
    assert h[sep + 1..dot] == stem[sep + 1..];
  }

  /**
   * `convert_json_to_html`: 1 for a missing file, a file that does not parse or an export that
   * raises; otherwise the HTML exporter writes `HtmlPath(path)` and the code is 0.
   */
  function ConvertJsonToHtml(path: string, present: bool, loaded: Result<Value>,
                             htmlExport: (Value, string) -> Result<string>): (code: int)
    ensures code == 0 || code == 1
    ensures !present ==> code == 1
    ensures code == 0 <==> present && loaded.Success? && htmlExport(loaded.value, HtmlPath(path)).Success?
  {
    if !present then 1
    else match loaded
      case Failure(_) => 1
      case Success(results) =>
        match htmlExport(results, HtmlPath(path))
        case Failure(_) => 1
        case Success(_) => 0
  }

  // ---------------------------------------------------------------------------------------
  // The command line

  /** The parsed command line (`--config`, `--export` and the selecting flags). */
  datatype Args = Args(
    config: string,
    exportFormats: seq<string>,
    listLlms: bool,
    listStrategies: bool,
    listExporters: bool,
    version: bool,
    init: bool,
    downloadDataset: Option<string>,
    datasetInfo: Option<string>,
    convertToHtml: Option<string>,
    benchmark: bool,
    hfRepoId: Option<string>)

  /** What the environment does when `main` uses it. */
  datatype Env = Env(
    initialized: bool,
    downloaded: bool,
    infoShown: bool,
    benchmarked: bool,
    htmlPresent: bool,
    htmlLoaded: Result<Value>,
    htmlExport: (Value, string) -> Result<string>,
    lookup: HfUpload.Lookup,
    loaded: Result<Dicts.Dict<Value>>,
    stamp: string,
    started: real,
    finished: real,
    walk: Walk,
    evaluate: Evaluate,
    sqrt: real -> real,
    exporter: Export)

  datatype Command =
    | ListLlms | ListStrategies | ListExporters | ShowVersion | InitConfig
    | DownloadDataset | DatasetInfo | ConvertToHtml(path: string) | Benchmark | Evaluate

  /** An optional string argument that is present and not empty. */
  predicate Given(o: Option<string>)
  {
    o.Some? && o.value != []
  }

  /** The first command `main` finds asked for, in the order it checks them. */
  function CommandOf(args: Args): (c: Command)
    ensures c == Evaluate <==>
      !args.listLlms && !args.listStrategies && !args.listExporters && !args.version && !args.init &&
      !Given(args.downloadDataset) && !Given(args.datasetInfo) && !Given(args.convertToHtml) && !args.benchmark
  {
    if args.listLlms then ListLlms
    else if args.listStrategies then ListStrategies
    else if args.listExporters then ListExporters
    else if args.version then ShowVersion
    else if args.init then InitConfig
    else if Given(args.downloadDataset) then DownloadDataset
    else if Given(args.datasetInfo) then DatasetInfo
    else if Given(args.convertToHtml) then ConvertToHtml(args.convertToHtml.value)
    else if args.benchmark then Benchmark
    else Evaluate
  }

  /** A given repo id that `validate_repo_id` rejects. */
  predicate RejectedRepoId(args: Args, env: Env)
  {
    Given(args.hfRepoId) && HfUpload.ValidateRepoId(args.hfRepoId.value, env.lookup).Failure?
  }

  /** The exit code of `main`. */
  function MainCode(args: Args, env: Env): int
  {
    match CommandOf(args)
    case ListLlms => 0
    case ListStrategies => 0
    case ListExporters => 0
    case ShowVersion => 0
    case InitConfig => if env.initialized then 0 else 1
    case DownloadDataset => if env.downloaded then 0 else 1
    case DatasetInfo => if env.infoShown then 0 else 1
    case ConvertToHtml(path) => ConvertJsonToHtml(path, env.htmlPresent, env.htmlLoaded, env.htmlExport)
    case Benchmark => if env.benchmarked then 0 else 1
    case Evaluate =>
      if RejectedRepoId(args, env) then 1
      else match env.loaded
        case Failure(_) => 1
        case Success(config) =>
          var (r, _) := RunOutcome(config, env.stamp, env.started, "results", Some(args.exportFormats), env.walk,
                                   env.evaluate, env.sqrt, env.finished, env.exporter);
          if r.Success? then 0 else 1
  }

  /**
   * An evaluation with a rejected repo id exits with 1 before anything is loaded: the same
   * code whatever the configuration, the datasets and the evaluator would do.
   */
  lemma RejectedRepoIdStops(args: Args, env: Env, other: Env)
    requires CommandOf(args) == Evaluate && RejectedRepoId(args, env) && other.lookup == env.lookup
    ensures MainCode(args, env) == 1 && MainCode(args, other) == MainCode(args, env)
  {
  }

  /**
   * Otherwise an evaluation exits with 0 exactly when the configuration loaded and the run
   * raised nothing; an exception anywhere gives 1.
   */
  lemma EvaluationCode(args: Args, env: Env)
    requires CommandOf(args) == Evaluate && !RejectedRepoId(args, env)
    ensures MainCode(args, env) == 0 || MainCode(args, env) == 1
    ensures MainCode(args, env) == 0 <==>
      env.loaded.Success? &&
      RunOutcome(env.loaded.value, env.stamp, env.started, "results", Some(args.exportFormats), env.walk, env.evaluate,
                 env.sqrt, env.finished, env.exporter).0.Success?
  {
  }

  /** The query commands always succeed, and every command exits with 0 or 1. */
  lemma MainCodes(args: Args, env: Env)
    ensures CommandOf(args) in {ListLlms, ListStrategies, ListExporters, ShowVersion} ==> MainCode(args, env) == 0
    ensures MainCode(args, env) == 0 || MainCode(args, env) == 1
  {
  }

  /** `main`: the commands in order, and an evaluation driving a fresh runner. */
  method Dispatch(args: Args, env: Env) returns (code: int)
    ensures code == MainCode(args, env)
  {
    hide RunOutcome;
    var command := CommandOf(args);
    if command != Evaluate {
      return MainCode(args, env);
    }
    if Given(args.hfRepoId) {
      var valid := HfUpload.ValidateRepoId(args.hfRepoId.value, env.lookup);
      if valid.Failure? {
        return 1;
      }
    }
    var runner := new TwinkleEvalRunner(args.config);
    var initialized := runner.Initialize(env.loaded, env.stamp, env.started);
    if initialized.Failure? {
      return 1;
    }
    var result := runner.RunEvaluation(Some(args.exportFormats), env.walk, env.evaluate, env.sqrt, env.finished, env.exporter);
    return if result.Success? then 0 else 1;
  }
}
