# Twinkle Eval — a Dafny model of the evaluation core

Twinkle Eval runs multiple-choice benchmarks against a language-model API.
This project models the part of the tool that decides what is evaluated, how
it is scored, and what ends up on disk:

- **dataset** (`dataset.dfy`) models the `choices`-list normalisation.
  Integer or letter answers become named letter keys `A`, `B`, …, `Z`, `AA`, ….
  It also models the recursive search for evaluation files, which skips
  hidden directories and `.lock` files.
- **evaluators** (`evaluators.dfy`) models the `RateLimiter` and the
  option shuffle. It models the per-file evaluation: prompt rendering, LLM
  submission, thinking-tag splitting, scoring and accuracy. The per-node
  JSONL shard log is appended.
- **finalize** and **merge** (`finalize.dfy`, `merge.dfy`) model the two
  ways a multi-node run is merged. Each node's `results_*.json` summary and
  `eval_results_*_node*.jsonl` logs become one `results_{ts}.json`, with
  per-run logs sorted by `question_id`, recomputed accuracies, mean and
  population std. The intermediate files are then cleaned up.
- **runner** (`runner.dfy`) models `TwinkleEvalRunner` and the `main`
  command dispatch. It covers the repeat-run loop and its per-file and
  per-dataset averages, the saved-config scrubbing, the final report, and
  the exit code of every command-line path.
- **config** and **validators** (`config.dfy`, `validators.dfy`) model
  configuration loading. That is the default filling per section, the
  structural validation rules, the Google-services checks, and the mapping
  of failures to `ConfigurationError`.
- **hfupload** (`hfupload.dfy`) models repo-id validation, the target-path
  construction and the no-overwrite upload loop.

The file system is a value, `map<string, Content>`. Every operation that
touches it is proved against a specification function of the old directory,
and the properties the tool promises are lemmas about those functions. These
include:

- the label round trip;
- the shuffle keeping the correct answer;
- order independence of concurrent completions;
- merged logs being the sorted concatenation of the shard logs;
- cleanup removing exactly the consumed files;
- the upload never overwriting a remote file.

Supporting modules: `wrappers` (Option/Result), `json` (a JSON value type
with Python truthiness), `dicts` (insertion-ordered dictionaries), `seqs`,
`orders` (string orders and a stable insertion sort), `strings`, `paths`,
`records` (JSONL files), `shards` (shard file names, log reading, sorting,
cleanup) and `stats` (mean and population standard deviation).

## Model

| member | source | states |
|---|---|---|
| Dataset.IndexToLabel | twinkle_eval/dataset.py:21-31 | the label of an index is its bijective base-26 upper-case word |
| Dataset.DecodeLabel | twinkle_eval/dataset.py:21-31 | decoding the label of n gives n back |
| Dataset.LabelDecode | twinkle_eval/dataset.py:21-31 | every non-empty A–Z word is the label of its decoding, so labels enumerate all such words |
| Dataset.LabelInjective | twinkle_eval/dataset.py:21-31 | distinct indices get distinct labels |
| Dataset.LabelExamples | twinkle_eval/dataset.py:21-31 | 0→A, 25→Z, 26→AA, 27→AB, 52→BA, 701→ZZ, 702→AAA, as the docstring lists |
| Dataset.LabelLengthMonotone | twinkle_eval/dataset.py:21-31 | a larger index never has a shorter label |
| Dataset.LabelOrdered | twinkle_eval/dataset.py:21-36 | label order is length-then-alphabetical order, so the keys come out in option order |
| Dataset.LetterKeysMember | twinkle_eval/dataset.py:34-36 | a word is one of the first n keys iff it is an upper-case word decoding below n |
| Dataset.LetterKeysSorted | twinkle_eval/dataset.py:34-36 | the key list is strictly sorted by length, then alphabetically |
| Dataset.ChoicesToLetterKeys | twinkle_eval/dataset.py:34-36 | one key per choice, the i-th being the label of i |
| Dataset.NormalizeRecord | twinkle_eval/dataset.py:39-96 | the loop that expands choices yields the normalised record |
| Dataset.NormalizedWithoutChoices | twinkle_eval/dataset.py:59-64 | a record without a list of at least two choices comes back unchanged |
| Dataset.IntegerAnswer | twinkle_eval/dataset.py:72-81 | an integer answer becomes the label of that index when in range, else the record is unchanged |
| Dataset.TextAnswer | twinkle_eval/dataset.py:83-87 | a non-integer answer becomes its stripped text upper-cased by the Unicode case mapping when that is a label, else the record is unchanged |
| Dataset.NormalizedFields | twinkle_eval/dataset.py:89-95 | after normalising, the answer is a label, each label holds its choice, `choices` is gone and every other field is kept |
| Dataset.NormalizedDistinct | twinkle_eval/dataset.py:89-95 | the normalised record has no duplicate keys |
| Dataset.FindAllEvaluationFiles | twinkle_eval/dataset.py:173-215 | raises FileNotFoundError iff no supported file is found, otherwise returns the files in walk order |
| Dataset.EvaluationFilesMember | twinkle_eval/dataset.py:199-210 | a path is returned iff it is a visible walked file with a supported extension |
| Dataset.HiddenDirectoryPruned | twinkle_eval/dataset.py:200 | nothing below a dot-directory is ever returned |
| Evaluators.NodeId | twinkle_eval/evaluators.py:18-27 | the node id always starts with `node` |
| Evaluators.ShardPathForm | twinkle_eval/evaluators.py:194-195 | the shard log is `results/eval_results_{ts}_{node}.jsonl` |
| Evaluators.ShardPathDistinct | twinkle_eval/evaluators.py:191-195 | two nodes of the same run never share a shard log |
| Evaluators.RateLimiter.constructor | twinkle_eval/evaluators.py:31-34 | rate -1 means no limit; otherwise the interval is 1/rate and the last call is at time 0 |
| Evaluators.RateLimiter.Delay | twinkle_eval/evaluators.py:39-42 | the sleep is never negative and covers what remains of the interval |
| Evaluators.RateLimiter.Wait | twinkle_eval/evaluators.py:36-43 | without a limit nothing sleeps or changes; otherwise consecutive calls are at least one interval apart |
| Evaluators.UpperKeysProperties | twinkle_eval/evaluators.py:57-64 | the kept keys are exactly the upper-case words among the keys, and no key is duplicated by the selection |
| Evaluators.OptionKeysProperties | twinkle_eval/evaluators.py:57-64 | the option keys are exactly the question's upper-case keys, sorted by length then alphabetically, and distinct |
| Evaluators.ShuffleQuestionOptions | twinkle_eval/evaluators.py:53-91 | the method computes the specified shuffle for the given permutation |
| Evaluators.ShuffleUnchanged | twinkle_eval/evaluators.py:67-78 | no options, or no correct text, leaves the question unchanged; it raises iff reading the correct option raises |
| Evaluators.ShuffleOptions | twinkle_eval/evaluators.py:83-91 | the i-th option key now holds the i-th shuffled text |
| Evaluators.ShuffleKeys | twinkle_eval/evaluators.py:83-91 | the shuffled question has distinct keys and the same option keys |
| Evaluators.ShuffleTexts | twinkle_eval/evaluators.py:80 | the option texts are a permutation of the originals |
| Evaluators.ShuffleOthers | twinkle_eval/evaluators.py:83-85 | every field that is not an option or answer is kept |
| Evaluators.ShuffleAnswer | twinkle_eval/evaluators.py:86-89 | the new answer is the last key whose text equals the correct text |
| Evaluators.ShuffleKeepsAnswer | twinkle_eval/evaluators.py:70-89 | the text under the new answer key is the text that was correct before |
| Evaluators.RenderPrompt | twinkle_eval/evaluators.py:109-115 | rendering succeeds iff the question is a string |
| Evaluators.PromptLineMember | twinkle_eval/evaluators.py:113 | a `k: v` line appears iff k is a non-question, non-answer field |
| Evaluators.PromptLineCount | twinkle_eval/evaluators.py:113 | one prompt line per field other than question and answer |
| Evaluators.PromptLineOrder | twinkle_eval/evaluators.py:113 | prompt lines follow the record's key order |
| Evaluators.CorrectAnswer | twinkle_eval/evaluators.py:117-121 | a correct answer exists iff the answer field is a string; it is then stripped and upper-cased by the Unicode case mapping |
| Strings.UpperConcat | twinkle_eval/evaluators.py:166 | upper-casing works character by character, so it distributes over concatenation |
| Strings.UpperIdempotent | twinkle_eval/evaluators.py:166 | for any case mapping with the Unicode laws, upper-casing twice is upper-casing once |
| Strings.UpperEnds | twinkle_eval/evaluators.py:166 | upper-casing a stripped string leaves it stripped |
| Evaluators.NormalIdempotent | twinkle_eval/evaluators.py:166 | for any case mapping with the Unicode laws, strip-and-upper applied twice is applied once |
| Evaluators.ScoringMatchesNormalForm | twinkle_eval/evaluators.py:163-167 | for any case mapping with the Unicode laws (non-ASCII letters included), a prediction is correct iff it is present and its stripped, upper-cased form equals the normalised answer |
| Evaluators.ThinkSpan | twinkle_eval/evaluators.py:147-154 | the span found is a match of the thinking-tag pattern as the regular expression defines it |
| Evaluators.SplitThinkParts | twinkle_eval/evaluators.py:138-158 | when the split applies, the reasoning is the stripped text inside the tags and the content is the stripped rest |
| Evaluators.SplitThinkNoStart | twinkle_eval/evaluators.py:149-158 | without a start tag, everything before the first end tag is reasoning |
| Evaluators.CutShape | twinkle_eval/evaluators.py:152-158 | the cut yields both parts, no longer together than the text minus the tag, with the content stripped |
| Evaluators.Section | twinkle_eval/evaluators.py:139-140 | reading a section succeeds iff the section is a dict |
| Evaluators.TagOf | twinkle_eval/evaluators.py:139-146 | a tag is absent iff it is missing or falsy, a tag string iff it is a non-empty string, and otherwise a value that is not a string |
| Evaluators.TagRaisesCases | twinkle_eval/evaluators.py:141-147 | only a tag that is not a string raises: a bad end tag on every reply with content and no provider reasoning (the `in` test), a bad start tag exactly where the split applies (`re.escape`) |
| Evaluators.EvaluationTagsIgnored | twinkle_eval/evaluators.py:139-140 | thinking tags under `evaluation` have no effect; only `model` is read |
| Evaluators.Steps | twinkle_eval/evaluators.py:105-126 | one step per question, in dataset order, each being that question's submission with its index |
| Evaluators.SubmissionsSuccess | twinkle_eval/evaluators.py:105-126 | preparing the file succeeds iff every question can be shuffled and rendered; then slot i is question i's submission |
| Evaluators.SubmissionsFailure | twinkle_eval/evaluators.py:105-126 | the first question that cannot be shuffled or rendered aborts the file |
| Evaluators.SubmissionShape | twinkle_eval/evaluators.py:117-126 | each task carries the prompt, the normalised answer and the dataset index |
| Evaluators.SubmitOne | twinkle_eval/evaluators.py:105-126 | one question yields its specified submission and keeps the limiter's mode and interval |
| Evaluators.SubmitAll | twinkle_eval/evaluators.py:105-126 | the loop yields the specified submissions and keeps the limiter's mode and interval |
| Evaluators.RecordOfShape | twinkle_eval/evaluators.py:160-185 | a record holds question_id = the dataset index, the prompt, the answers and the verdict, and nothing else |
| Evaluators.Accuracy | twinkle_eval/evaluators.py:187 | accuracy is within [0,1] and 0 for no questions |
| Evaluators.CollectedOrderIndependent | twinkle_eval/evaluators.py:128-131 | any completion order gives the same outcome, the same records as a multiset and the same accuracy |
| Evaluators.CollectedFrom | twinkle_eval/evaluators.py:128-185 | collected records come one per reply in completion order |
| Evaluators.CollectedRaises | twinkle_eval/evaluators.py:131 | a failed LLM call aborts the file |
| Evaluators.CollectedTagsRaise | twinkle_eval/evaluators.py:139-140 | a `model` section that is not a dict aborts the file once any reply exists |
| Evaluators.CollectedTagTypeError | twinkle_eval/evaluators.py:141-147 | a thinking tag that is not a string aborts the file once a reply it raises on is processed |
| Evaluators.CollectedOk | twinkle_eval/evaluators.py:128-185 | when no processed position raises, the records are the replies' records in completion order, positions without a task passed over |
| Evaluators.CollectedEachOnce | twinkle_eval/evaluators.py:128-187 | with the completion order a reordering of the question positions, a successful collection logs, as a multiset, the dataset-order records: exactly one per submitted question, with the same accuracy |
| Evaluators.EvaluationEachOnce | twinkle_eval/evaluators.py:104-187 | a successful evaluation logs one record per question that was submitted, the same records as in dataset order, and returns their accuracy, correct over submitted |
| Evaluators.CollectReplies | twinkle_eval/evaluators.py:128-187 | the loop yields the specified records and their accuracy |
| Evaluators.AppendLog | twinkle_eval/evaluators.py:198-200 | the shard log gains exactly the new records in order |
| Evaluators.EvaluateFile | twinkle_eval/evaluators.py:93-203 | for a completion order that yields every question position once, on failure nothing is written; on success returns (file, accuracy, shard path) and appends the records of `Evaluation`, one per submitted question |
| Records.RecordsOfLines | twinkle_eval/finalize.py:98-100 | writing records as JSONL lines and reading them back gives the records |
| Records.AppendKeepsRecords | twinkle_eval/evaluators.py:197-200 | appending keeps the earlier records and adds the new ones after them |
| Records.AppendRecordsConcat | twinkle_eval/evaluators.py:197-200 | two appends equal one append of the concatenation |
| Stats.MeanBounds | twinkle_eval/finalize.py:143 | the mean of non-empty values lies within any bounds they all respect, so accuracies average to an accuracy |
| Stats.GuardedStd | twinkle_eval/finalize.py:144 | std is 0 for fewer than two runs, else the square root of the population variance |
| Stats.PopVarianceNonNegative | twinkle_eval/finalize.py:144 | population variance is never negative |
| Stats.ConstantRuns | twinkle_eval/finalize.py:143-144 | identical run accuracies give that mean and zero variance |
| Shards.FinalPathNotSummary | twinkle_eval/finalize.py:18-22 | the final report is never itself picked up as a node summary |
| Shards.MergedPathForm | twinkle_eval/finalize.py:79 | the merged log is `eval_results_{ts}_run{i}.jsonl` |
| Shards.MergedPathDistinct | twinkle_eval/finalize.py:79 | distinct runs get distinct merged logs |
| Shards.MergedNamesDistinct | twinkle_eval/finalize.py:78-81 | the merged log names of a run set are distinct |
| Shards.MergedPathNotSummary | twinkle_eval/finalize.py:79 | a merged log never matches any timestamp's summary pattern |
| Shards.FinalPathNotMerged | twinkle_eval/finalize.py:79 | the final report never collides with a merged log |
| Shards.AddPath | twinkle_eval/finalize.py:68-69 | adding a path yields the old members plus that path and nothing else |
| Shards.AddPathDistinct | twinkle_eval/finalize.py:68-69 | the membership test keeps a duplicate-free list duplicate-free |
| Shards.AddRunPathsAt | twinkle_eval/finalize.py:66-69 | the i-th path of an entry goes into run i's list and every other run is untouched |
| Shards.ReadLogsSuccess | twinkle_eval/finalize.py:85-92 | reading succeeds iff every present log parses; missing logs are skipped |
| Shards.ReadLogsRecords | twinkle_eval/finalize.py:85-92 | a record is read iff some listed, existing log holds it |
| Shards.ReadLogsSeen | twinkle_eval/finalize.py:85-87 | the logs marked consumed are exactly the listed logs that exist |
| Shards.ReadRun | twinkle_eval/finalize.py:84-92 | the reading loop yields the specified records and consumed set |
| Shards.SortByQuestionSpec | twinkle_eval/finalize.py:95 | the merged records are sorted by question_id and are a permutation of the input |
| Shards.SortByQuestionStable | twinkle_eval/finalize.py:95 | records with equal question_id keep their order |
| Shards.LoadSummaries | twinkle_eval/finalize.py:58-60 | the loop yields the specified summaries |
| Shards.LoadedSpec | twinkle_eval/finalize.py:58-60 | loading succeeds iff every summary reads, and then the k-th result is the k-th file's report |
| Shards.RatioPermutation | twinkle_eval/finalize.py:137 | the correct-answer ratio does not depend on record order |
| Shards.TruesCount | twinkle_eval/finalize.py:137 | the ratio's numerator counts exactly the records marked correct |
| Shards.Cleanup | twinkle_eval/finalize.py:178-190 | cleanup removes exactly the summaries and consumed logs |
| Shards.ModelName | twinkle_eval/finalize.py:195 | the lookup fails iff the config, or its `model` entry, is not a dict; a missing `model` or `name` gives `unknown_model`, a present name is passed through |
| Shards.ModelNameOfConfig | twinkle_eval/finalize.py:195 | a config whose `model` dict has a `name` hands that name to the uploader |
| Shards.Exported | twinkle_eval/merge.py:118-119 | the definition (no contract of its own): the formats are written in order until an exporter raises; `ExportedFirstError`, `ExportedJson` and `ExportedJsonHtml` state what it promises |
| Shards.ExportedFirstError | twinkle_eval/merge.py:118-119 | the export raises iff some format's exporter raises, with the first such error; nothing is deleted, other paths keep their entries, and success writes every format's file |
| Shards.ExportedJson | twinkle_eval/finalize.py:186 | JSON alone: a failure writes nothing, success writes `results_{ts}.json` |
| Shards.ExportedJsonHtml | twinkle_eval/merge.py:118-119 | JSON then HTML: a JSON failure writes nothing, an HTML failure leaves only `results_{ts}.json`, success writes both |
| Shards.HtmlPathApart | twinkle_eval/merge.py:118-119 | `results_{ts}.html` differs from the JSON report and every merged log and is never taken for a summary |
| Finalize.Discover | twinkle_eval/finalize.py:58-69 | the loop builds the specified file-to-run-paths index |
| Finalize.MaxRunsSpec | twinkle_eval/finalize.py:66-67 | run i exists iff some file has more than i run paths |
| Finalize.DiscoveredFiles | twinkle_eval/finalize.py:62-67 | a file is indexed, with its run count, iff some summary lists a run path for it |
| Finalize.DiscoveredRuns | twinkle_eval/finalize.py:66-69 | each run's paths are the deduplicated i-th entries across summaries |
| Finalize.MergeRuns | twinkle_eval/finalize.py:78-100 | the loop writes the specified merged logs |
| Finalize.MergedLogs | twinkle_eval/finalize.py:78-100 | each merged log is the question-sorted concatenation of that run's shard logs |
| Finalize.MergedConsumed | twinkle_eval/finalize.py:85-87 | consumed logs are exactly the listed logs that exist |
| Finalize.MergedStops | twinkle_eval/finalize.py:77-100 | an unreadable shard log stops the merge |
| Finalize.Scan | twinkle_eval/finalize.py:106-118 | scanning succeeds iff every merged log reads, and then yields each run's verdicts per source file |
| Finalize.UnsourcedVerdicts | twinkle_eval/finalize.py:116-118 | evaluator records carry no source file, so recomputation falls back to summaries |
| Finalize.AccFromShards | twinkle_eval/finalize.py:210-221 | the fallback accuracy is the mean of the shard accuracies, 0 if none |
| Finalize.ShardAccsMembers | twinkle_eval/finalize.py:213-220 | exactly the summaries that report the file and run contribute |
| Finalize.RunAccuracyScanned | twinkle_eval/finalize.py:135-137 | with scanned verdicts the run accuracy is their ratio |
| Finalize.RunAccuracyFallback | twinkle_eval/finalize.py:138-140 | without verdicts the run accuracy is the shard average |
| Finalize.RunAccuracyBounds | twinkle_eval/finalize.py:134-141 | every run accuracy is in [0,1] |
| Finalize.RunPathsAll | twinkle_eval/finalize.py:129-132 | a file's result lists the merged log of every run |
| Finalize.FileResultFields | twinkle_eval/finalize.py:143-154 | a file result holds the run accuracies, their mean and std and the run paths |
| Finalize.DatasetResultFields | twinkle_eval/finalize.py:156-163 | a dataset's averages are the mean of its file means and stds |
| Finalize.Assemble | twinkle_eval/finalize.py:121-163 | the loop builds the specified dataset results |
| Finalize.DatasetsGet | twinkle_eval/finalize.py:121-163 | each discovered dataset gets the specified result |
| Finalize.NoShards | twinkle_eval/finalize.py:20-45 | with no summaries: exit 0 iff a final report exists and the upload is off or succeeds, else 1 |
| Finalize.FinalizeResults | twinkle_eval/finalize.py:12-207 | the method computes the specified outcome and directory, including an export that raises inside the `try` |
| Finalize.FinalizeNoShards | twinkle_eval/finalize.py:18-45 | the listing is empty iff no summary exists, and then no file changes |
| Finalize.SortedShards | twinkle_eval/finalize.py:18 | the sorted listing has the same members and its head is the least path |
| Finalize.FinalizeUploadIgnored | twinkle_eval/finalize.py:192-207 | after a merge the upload outcome never changes the exit code |
| Finalize.FinalizeCleanup | twinkle_eval/finalize.py:178-190 | every listed summary is gone afterwards even when the merge or the export raises; apart from the report and merged logs nothing else changes |
| Finalize.CompleteDir | twinkle_eval/finalize.py:165-190 | exit 0 iff stage 2 succeeded, a config is present and the JSON exporter does not raise; on any error nothing is written and the clean-up still runs |
| Finalize.FinalizeRaisedCleans | twinkle_eval/finalize.py:172-190 | when a stage after loading or the export raises, the error propagates, every summary is already deleted and no new report exists |
| Finalize.FinalizeRemovesShardLogs | twinkle_eval/finalize.py:186-190 | after a completed merge, any other file is removed iff a summary lists it as a run log |
| Finalize.FinalizeReport | twinkle_eval/finalize.py:165-175 | the report takes config and duration from the first sorted summary and the timestamp from the argument |
| Finalize.FinalizeRerun | twinkle_eval/finalize.py:18-45 | running again after a completed merge takes the no-shard branch and returns 0 |
| Merge.IndexShards | twinkle_eval/merge.py:28-46 | the loop builds the specified dataset/file/run index |
| Merge.IndexedHolds | twinkle_eval/merge.py:28-46 | a dataset, file or run path is indexed iff some summary reports it; each run list is duplicate-free |
| Merge.IndexedDistinct | twinkle_eval/merge.py:28-46 | the index has no duplicate datasets or files |
| Merge.MergeAll | twinkle_eval/merge.py:51-109 | the nested loops compute the specified merge of every dataset |
| Merge.RunAccRead | twinkle_eval/merge.py:67-71 | a run's accuracy is the correct ratio over all records read for it |
| Merge.RefFileFields | twinkle_eval/merge.py:86-100 | a file result holds the run accuracies, their mean and std and the run paths |
| Merge.SummariseFields | twinkle_eval/merge.py:102-109 | dataset averages are the mean of the file means and stds |
| Merge.ShardLogNotMerged | twinkle_eval/merge.py:74 | a node shard log is never mistaken for a merged run log |
| Merge.MergeDistributed | twinkle_eval/merge.py:10-149 | the method computes the specified outcome and directory, including an exporter that raises |
| Merge.MergeNoShards | twinkle_eval/merge.py:14-18 | the listing is empty iff no summary exists, and then exit 1 with nothing changed |
| Merge.MergeOutcome | twinkle_eval/merge.py:10-149 | exit 1 iff no summaries, exit 0 iff all load and stage, a config is present and neither the JSON nor the HTML exporter raises, else the error is raised |
| Merge.MergeRaisedKeeps | twinkle_eval/merge.py:22-120 | on an error nothing is deleted; only merged logs, and the JSON report when the HTML export raised after it, have changed |
| Merge.StagedConsumed | twinkle_eval/merge.py:60-65 | consumed logs are the indexed logs that exist |
| Merge.StagedResults | twinkle_eval/merge.py:51-109 | the per-file loops yield the reference merge of the whole index |
| Merge.MergeCleanup | twinkle_eval/merge.py:122-132 | after both exports succeed, summaries and read logs are removed, all other files but the two reports and merged logs are kept |
| Merge.MergeLogs | twinkle_eval/merge.py:74-84 | each merged run log holds exactly the records read for that run across all files, in order, written after one truncation |
| Merge.MergeReport | twinkle_eval/merge.py:111-119 | the report holds the timestamp, the first summary's config and duration, and the merge of every dataset; `results_{ts}.json` and `results_{ts}.html` both hold it |
| Merge.ReportDatasets | twinkle_eval/merge.py:32-34 | a dataset appears iff some summary reports it, with the averages of its merged files |
| Runner.RunTagDistinct | twinkle_eval/main.py:213-222 | distinct runs get distinct timestamps |
| Runner.SuccessfulRuns | twinkle_eval/main.py:213-222 | the accuracies and paths are those of exactly the successful runs, in run order |
| Runner.NoSuccesses | twinkle_eval/main.py:225 | there are no accuracies iff every run failed |
| Runner.FileEntryOmitted | twinkle_eval/main.py:225-239 | a file gets no entry iff every run failed |
| Runner.FileEntryFigures | twinkle_eval/main.py:225-239 | an entry holds the file, the run accuracies and paths, a mean in [0,1], and std 0 for one run |
| Runner.EvaluateFileRuns | twinkle_eval/main.py:213-239 | the repeat loop yields the specified file entry |
| Runner.DatasetEntryFigures | twinkle_eval/main.py:248-259 | a file result appears iff that file produced an entry; averages are 0 when none did |
| Runner.DatasetAverageBounds | twinkle_eval/main.py:248-259 | the dataset average accuracy is in [0,1] |
| Runner.RunSettingsDefaults | twinkle_eval/main.py:202-204 | missing settings mean one run and language `zh` |
| Runner.DatasetRun | twinkle_eval/main.py:184-259 | a dataset run succeeds iff its path is a string, files are found and settings are valid |
| Runner.DatasetPaths | twinkle_eval/main.py:168-182 | a single path string is wrapped into a list |
| Runner.Items | twinkle_eval/main.py:298-313 | a list of paths is taken as given, a dict contributes its keys in order, a string is accepted, anything else fails |
| Runner.EvaluatorReady | twinkle_eval/main.py:293-295 | the evaluator can be built iff `llm_api` is a dict with a non-zero numeric `api_rate_limit` |
| Runner.SavedKeepsSettings | twinkle_eval/main.py:142-166 | the saved config keeps every section other than `llm_api` and has no strategy instance |
| Runner.SavedApiKeyGone | twinkle_eval/main.py:142-166 | the saved `llm_api` has no `api_key` and keeps every other field |
| Runner.SavedSucceeds | twinkle_eval/main.py:142-166 | scrubbing succeeds whenever `llm_api` is absent or a dict |
| Runner.PrepareForSaving | twinkle_eval/main.py:142-166 | dropping `llm_instance` removes only that key, and the saved config never has it |
| Runner.GoogleServices | twinkle_eval/main.py:356-400 | the Google-services step succeeds whenever `google_services` is absent or falsy |
| Runner.EvaluatedDistinct | twinkle_eval/main.py:298-313 | each evaluated dataset appears once in the results |
| Runner.FinalReportContents | twinkle_eval/main.py:316-324 | the final report holds the start timestamp, the elapsed duration, the dataset results and a config without instances or API key |
| Runner.Formats | twinkle_eval/main.py:286-287 | export formats default to `["json"]` |
| Runner.RunOutcomeSpec | twinkle_eval/main.py:261-354 | the run succeeds iff setup, report, export and Google steps succeed, returning the first exported path; dataset p is reported iff it is listed and its run succeeded; only `llm_instance` leaves the config |
| Runner.TwinkleEvalRunner.constructor | twinkle_eval/main.py:109-119 | a new runner holds the config path, results dir `results`, and nothing loaded |
| Runner.TwinkleEvalRunner.Initialize | twinkle_eval/main.py:121-140 | succeeds iff loading succeeds, then records the config, start stamp and time; on failure nothing changes |
| Runner.TwinkleEvalRunner.PrepareConfigForSaving | twinkle_eval/main.py:142-166 | fails without a config; otherwise drops `llm_instance` in place and returns the saved form |
| Runner.TwinkleEvalRunner.EvaluateDataset | twinkle_eval/main.py:184-259 | fails without a config; otherwise yields the specified dataset run |
| Runner.TwinkleEvalRunner.EvaluateAll | twinkle_eval/main.py:298-313 | the loop evaluates every dataset path in order into the specified results |
| Runner.TwinkleEvalRunner.Conclude | twinkle_eval/main.py:316-354 | drops `llm_instance` and yields the specified concluding outcome |
| Runner.TwinkleEvalRunner.RunEvaluation | twinkle_eval/main.py:261-354 | fails without a config; otherwise yields the specified outcome and config |
| Runner.HtmlPathSameDirectory | twinkle_eval/main.py:44 | the HTML file sits next to the JSON file |
| Runner.HtmlPathExtension | twinkle_eval/main.py:44 | the HTML file keeps the stem and has the `.html` extension |
| Runner.ConvertJsonToHtml | twinkle_eval/main.py:19-57 | conversion returns 0 iff the file exists, parses and exports, otherwise 1 |
| Runner.CommandOf | twinkle_eval/main.py:565-685 | evaluation runs iff no other command flag is given |
| Runner.RejectedRepoIdStops | twinkle_eval/main.py:688-695 | an invalid HF repo id exits 1 whatever loading or evaluation would do |
| Runner.EvaluationCode | twinkle_eval/main.py:698-706 | an evaluation exits 0 on success and 1 on any error |
| Runner.MainCodes | twinkle_eval/main.py:553-706 | listing and version commands exit 0; every command exits 0 or 1 |
| Runner.Dispatch | twinkle_eval/main.py:553-706 | the dispatcher computes the specified exit code |
| Validators.RequireStringsOk | twinkle_eval/validators.py:68-93 | passes iff every required field is a non-blank string |
| Validators.CheckSectionsOk | twinkle_eval/validators.py:46-65 | passes iff every named section is present and a dict |
| Validators.LlmApiOk | twinkle_eval/validators.py:68-93 | `llm_api` passes iff `api_key` and `base_url` are non-blank strings, and `type`, `max_retries`, `timeout` and `api_rate_limit`, when present, are a string, an int ≥ 0, a positive number and a number |
| Validators.NumericRuleOk | twinkle_eval/validators.py:96-126 | a model value passes iff it is a number, within [0,1] for temperature and top_p, and positive for max_tokens |
| Validators.CheckNumericOk | twinkle_eval/validators.py:96-126 | the numeric loop passes iff each listed field is absent or passes its rule |
| Validators.ModelOk | twinkle_eval/validators.py:96-126 | `model` passes iff `name` is a non-blank string, temperature and top_p are in [0,1] and max_tokens is positive when present |
| Validators.RequirePresentOk | twinkle_eval/validators.py:129-173 | passes iff every required key is present |
| Validators.EvaluationOk | twinkle_eval/validators.py:129-173 | `evaluation` passes iff `dataset_paths` is a non-blank string or list of them, `evaluation_method` is non-blank, and the optional `repeat_runs`, `shuffle_options`, `datasets_prompt_map` are a positive int, a bool and a string map or null; a null map becomes `{}` |
| Validators.ValidateConfigStructure | twinkle_eval/validators.py:46-65 | a validated config has the three required sections as dicts, before and after |
| Validators.ConfigStructureOk | twinkle_eval/validators.py:46-65 | validation succeeds iff the three sections are dicts and each passes its section rules |
| Validators.ConfigStructureUpdate | twinkle_eval/validators.py:161-171 | validation changes nothing except a null `datasets_prompt_map`, which becomes `{}` |
| Validators.CheckRowOk | twinkle_eval/validators.py:231-265 | a row passes iff it is an object with non-blank question and answer, and the normalised answer names an option column the row has |
| Validators.CheckRowsFirst | twinkle_eval/validators.py:231-265 | the error reported is that of the first bad row |
| Validators.DatasetContentOk | twinkle_eval/validators.py:231-265 | content passes iff it is non-empty and every row is sound |
| Validators.ValidateLlmResponse | twinkle_eval/validators.py:272-284 | a response passes iff it is present and not blank |
| Validators.ValidateAccuracyCalculation | twinkle_eval/validators.py:287-298 | passes iff correct is an int ≥ 0, total an int > 0, and correct ≤ total |
| Validators.AccuracyInUnit | twinkle_eval/validators.py:287-298 | a passing pair gives an accuracy in [0,1] |
| Config.FilledGet | twinkle_eval/config.py:71-83 | after filling, a key holds its old value if present, else its default |
| Config.FilledPrefix | twinkle_eval/config.py:71-83 | filling keeps existing keys first, in their order |
| Config.FilledNoop | twinkle_eval/config.py:71-83 | a section that has every key is unchanged |
| Config.FilledIdempotent | twinkle_eval/config.py:65-133 | filling twice is filling once |
| Config.FilledDistinct | twinkle_eval/config.py:71-83 | filling never creates a duplicate key |
| Config.DefaultedOutcome | twinkle_eval/config.py:112-133 | defaulting raises iff an `environment` section is present, not a dict and cannot be filled; the three main sections are filled even then |
| Config.DefaultedSections | twinkle_eval/config.py:71-109 | each section gets the documented defaults |
| Config.DefaultedEnvironment | twinkle_eval/config.py:112-133 | a missing or dict `environment` section is filled with its defaults, and sections outside the four are untouched |
| Config.CredentialFieldsOk | twinkle_eval/config.py:377-381 | credentials pass iff they are an object holding every required field |
| Config.GoogleAuthOk | twinkle_eval/config.py:338-391 | auth passes iff `credentials_file` is a non-blank existing path and, for a service account, its credentials are sound; failures are ConfigurationError |
| Config.GoogleSheetsOk | twinkle_eval/config.py:232-262 | Sheets passes iff `spreadsheet_id` is non-blank, auth passes and the sheet is reachable; a blank id raises the required-field error |
| Config.DriveHandledSpec | twinkle_eval/config.py:213-230 | a no-permission error on Drive is forgiven iff a service account is used; every other result passes through |
| Config.GoogleServicesSkipped | twinkle_eval/config.py:192-213 | with `google_services` falsy, or both services disabled, the check passes |
| Config.GoogleDrivePermission | twinkle_eval/config.py:212-230 | with only Drive enabled and a no-permission error, validation passes iff a service account is used |
| Config.CheckPathsOk | twinkle_eval/config.py:135-154 | dataset paths pass iff each is a string with no access problem |
| Config.LoadedRaises | twinkle_eval/config.py:35-63 | a failed load raises ValidationError or ConfigurationError, never another exception type |
| Config.LoadedSucceeds | twinkle_eval/config.py:25-63 | a successful load has read the file, parsed YAML, passed structure validation, filled defaults and created both components |
| Config.PreparedSucceeds | twinkle_eval/config.py:25-63 | after preparation the sections are still dicts, both instances exist and `llm_api` holds its defaults |
| Config.InstantiatedSucceeds | twinkle_eval/config.py:156-190 | after instantiation both instances exist and `llm_api` is unchanged |
| Config.ConfigurationManager.constructor | twinkle_eval/config.py:15-23 | a new manager holds the path and an empty config |
| Config.ConfigurationManager.FillSection | twinkle_eval/config.py:71-83 | the section becomes its filled form |
| Config.ConfigurationManager.ApplyDefaults | twinkle_eval/config.py:65-133 | the config becomes its defaulted form |
| Config.ConfigurationManager.InstantiateComponents | twinkle_eval/config.py:156-190 | the config gains the instances |
| Config.ConfigurationManager.Prepare | twinkle_eval/config.py:25-63 | the config becomes the prepared one |
| Config.ConfigurationManager.LoadConfig | twinkle_eval/config.py:25-63 | returns and stores the specified loaded config |
| Config.LoadConfigAt | twinkle_eval/config.py:394-406 | the module-level loader equals a fresh manager's load |
| HfUpload.ValidateRepoId | twinkle_eval/hf_uploader.py:13-33 | succeeds iff there is one slash, the name ends in `-logs-and-scores` and the dataset exists |
| HfUpload.FormatChecksFirst | twinkle_eval/hf_uploader.py:13-33 | a malformed id is refused without a lookup |
| HfUpload.RepoIdSplit | twinkle_eval/hf_uploader.py:16-17 | a valid id splits into namespace and name |
| HfUpload.RepoIdJoin | twinkle_eval/hf_uploader.py:16-17 | namespace/name with slash-free parts has one slash |
| HfUpload.VariantSegmentSafe | twinkle_eval/hf_uploader.py:67-69 | the variant segment has no slash, backslash or `..` |
| HfUpload.VariantSegmentKeeps | twinkle_eval/hf_uploader.py:67-69 | a non-empty, already stripped variant without separators or `..` is used as given |
| HfUpload.VariantSegmentDefault | twinkle_eval/hf_uploader.py:67 | no variant and the empty variant both upload under `default` |
| HfUpload.PathInRepoDepth | twinkle_eval/hf_uploader.py:71-82 | every upload path has exactly three slashes |
| HfUpload.PathInRepoUnder | twinkle_eval/hf_uploader.py:71-82 | every upload path starts with `results/{model}/` |
| HfUpload.ResultsJsonNotRunFile | twinkle_eval/hf_uploader.py:50-59 | the report is not also selected as a run file |
| HfUpload.SelectedFiles | twinkle_eval/hf_uploader.py:50-59 | the selected files are distinct and are exactly the local report and run files |
| HfUpload.PushFiles | twinkle_eval/hf_uploader.py:80-97 | the loop pushes the specified files |
| HfUpload.UploadResults | twinkle_eval/hf_uploader.py:36-105 | the method computes the specified outcome and remote state |
| HfUpload.PushedKeeps | twinkle_eval/hf_uploader.py:86-88 | every remote file that existed before is still there with its old content |
| HfUpload.PushedAll | twinkle_eval/hf_uploader.py:80-97 | without errors every selected file exists remotely afterwards |
| HfUpload.PushedFails | twinkle_eval/hf_uploader.py:80-105 | the loop fails only when some file fails to send, and succeeds when every send succeeds |
| HfUpload.UploadValidatesFirst | twinkle_eval/hf_uploader.py:46 | an invalid repo id uploads nothing |
| HfUpload.UploadNothing | twinkle_eval/hf_uploader.py:61-63 | with a valid id and no report or run file present, the upload succeeds and changes nothing |
| HfUpload.GlobEmpty | twinkle_eval/hf_uploader.py:58 | no run file is globbed iff no local file matches the run-file pattern |
| HfUpload.UploadKeeps | twinkle_eval/hf_uploader.py:80-97 | no existing remote file changes, and every new remote file is a selected file at its target path |
| HfUpload.UploadComplete | twinkle_eval/hf_uploader.py:36-105 | a successful upload leaves every selected file at its remote path; a failure means an invalid id or a failed send |

## Left out

- Reading datasets (JSON, JSONL, parquet, arrow, csv, tsv) is not modelled. `Dataset._load_data` (dataset.py:121-164) appears only through the normalisation it applies to each record.
- The file system is a map. `os.walk`, `glob.glob` and `os.remove` results are parameters. Directory creation and file encodings are not modelled.
- `random.shuffle` is a permutation argument. `time.time`/`time.sleep` are an injected clock.
- Concurrency is modelled as an arbitrary completion order: a reordering of the question positions, which `Evaluation` and `EvaluateFile` require. Thread scheduling is not modelled.
- The LLM call, `extract_answer`, and the LLM and strategy factories are given functions. Their internals are not part of this model.
- `ResultsExporterFactory.export_results` is a given function per format that either raises or writes `results_{ts}.<format>`. An exporter that raises after writing part of its file is not modelled: a failed format writes nothing. HTML markup is not modelled; the HTML file is the report tagged with its format.
- `str.upper()` is a given per-character case mapping. The Unicode character database is not part of this model; the lemmas about upper-casing assume only the laws Python's mapping has (whitespace maps to itself, nothing else maps to empty or to whitespace, mapped characters are fixed points), and `Strings.AsciiUpperIsCaseMap` shows these laws can be met. `str.lower()` is ASCII-only; it is used only to compare file extensions.
- Evaluators.PyEq: numbers compare across int, float and bool, but lists and dicts are compared structurally, so `[1] == [1.0]` and dicts that differ only in key order, equal in Python, are unequal here.
- Floats are exact reals. The square root used by `np.std` is a given function, so rounding is not modelled.
- The HF download and info helpers (dataset.py:218-345) and the download, info and benchmark commands are modelled only through their exit codes.
- `create_default_config` is modelled only through its exit code, 0 or 1. argparse parsing is not modelled.
- Upload inside `run_evaluation` catches every error, so it has no effect on the result.
- Upload after `merge_distributed_results` is not modelled. A completed merge returns 0 either way.
- Google Drive and Sheets remote calls are a reachability parameter.
- The file-system validators are not modelled beyond their verdict. These are `validate_dataset_path`, `validate_dataset_files`, `_validate_file_access` and `validate_export_path`; their verdict is a parameter.
- Logging, `print` and tqdm progress output are not modelled.
- Evaluators.RateLimiter.constructor: requires a non-zero rate. Python raises ZeroDivisionError for a rate of 0, and that error is not modelled.
- Evaluators.EvaluateFile: `future.result()` (evaluators.py:131) is outside any `try`, so one LLM call that raises aborts the whole file; the only per-question handling is the answer check at evaluators.py:117-121. When several replies would raise, which error is reported is not modelled: a failed call takes precedence over a tag error.
- Evaluators.EvaluationTagsIgnored: thinking tags are read from the `model` section, as the code does, not from `evaluation`.
- Finalize.FinalizeResults: summaries are assumed to carry a `file` key per file entry. A question_id that `int()` cannot parse is not modelled.
- Dataset.IntegerAnswer: `bool` counts as an integer, `int()` of a float truncates, and a string is parsed as an optionally signed run of ASCII digits. Python's `int()` also accepts underscores between digits and non-ASCII digits; such strings are treated as text answers here.
- Json.Value: mapping keys are strings, so a YAML mapping such as `datasets_prompt_map: {1: zh}` cannot be expressed; the key half of the check at validators.py:170 (`isinstance(key, str)`) is not modelled, only the value half.
- Validators.CheckRowOk: exception messages are paraphrased; only which check fails is modelled.
