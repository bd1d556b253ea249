/**
 * The files under `results/`: per-question answer records (JSONL), the result documents
 * written by a run or by a node of a distributed run (JSON), and the directory that holds them.
 */
module Records {
  import opened Wrappers
  import Dicts
  import Json
  import Seqs

  datatype Usage = Usage(completionTokens: int, promptTokens: int, totalTokens: int)

  /**
   * One line of `eval_results_*.jsonl`. The evaluator always writes `question_id` and never
   * `source_file` or `file`; the merger reads records written by anyone, so those are optional.
   */
  datatype AnswerRecord = AnswerRecord(
    questionId: Option<int>,
    question: string,
    correctAnswer: string,
    llmOutput: Option<string>,
    reasoning: Option<string>,
    predicted: Option<string>,
    isCorrect: bool,
    usage: Usage,
    sourceFile: Option<string>,
    file: Option<string>)

  /** A JSONL line: whitespace only, or one record. */
  datatype Line = Blank | Rec(record: AnswerRecord)

  /** One evaluated file of a dataset: `{"file", "accuracy_mean", "accuracy_std", "individual_runs"}`. */
  datatype FileResult = FileResult(
    file: string,
    accuracyMean: real,
    accuracyStd: real,
    accuracies: seq<real>,
    runResults: seq<string>)

  datatype DatasetResult = DatasetResult(results: seq<FileResult>, averageAccuracy: real, averageStd: real)

  /** `results_{ts}.json` and the per-node summaries `results_{ts}_node*_rank*.json`. */
  datatype Report = Report(
    timestamp: string,
    config: Option<Json.Value>,
    datasets: Dicts.Dict<DatasetResult>,
    duration: Option<real>)

  /**
   * What a path holds: JSON lines, a result document, a report rendered in another format
   * (HTML, whose markup is not modelled), or text that parses as neither.
   */
  datatype Content = Lines(lines: seq<Line>) | Doc(report: Report) | Rendered(format: string, report: Report) | Unparsed

  type Dir = map<string, Content>

  /** The records of the non-blank lines, in file order. */
  function RecordsOf(lines: seq<Line>): (rs: seq<AnswerRecord>)
    ensures |rs| <= |lines|
    ensures forall r :: r in rs <==> Rec(r) in lines
  {
    if lines == [] then []
    else
      var rest := RecordsOf(lines[1..]);
      assert lines == [lines[0]] + lines[1..];
      match lines[0]
      case Blank => rest
      case Rec(r) => [r] + rest
  }

  lemma {:induction false} RecordsOfConcat(a: seq<Line>, b: seq<Line>)
    ensures RecordsOf(a + b) == RecordsOf(a) + RecordsOf(b)
  {
    if a == [] {
      assert a + b == b;
    } else {
      assert (a + b)[1..] == a[1..] + b;
      RecordsOfConcat(a[1..], b);
    }
  }

  /** One JSON line per record. */
  function LinesOf(rs: seq<AnswerRecord>): (ls: seq<Line>)
    ensures |ls| == |rs| && forall i :: 0 <= i < |rs| ==> ls[i] == Rec(rs[i])
  {
    if rs == [] then [] else [Rec(rs[0])] + LinesOf(rs[1..])
  }

  lemma LinesOfConcat(a: seq<AnswerRecord>, b: seq<AnswerRecord>)
    ensures LinesOf(a + b) == LinesOf(a) + LinesOf(b)
  {
    var l, r := LinesOf(a + b), LinesOf(a) + LinesOf(b);
    assert forall i :: 0 <= i < |l| ==> l[i] == r[i];
  }

  lemma {:induction false} RecordsOfLines(rs: seq<AnswerRecord>)
    ensures RecordsOf(LinesOf(rs)) == rs
  {
    if rs != [] {
      var ls := LinesOf(rs);
      assert ls[1..] == LinesOf(rs[1..]);
      RecordsOfLines(rs[1..]);
    }
  }

  /** `[json.loads(line) for line in f if line.strip()]`; a path that is not JSON lines raises. */
  function ReadRecords(dir: Dir, p: string): (r: Option<seq<AnswerRecord>>)
    ensures r.Some? <==> p in dir && dir[p].Lines?
    ensures r.Some? ==> r.value == RecordsOf(dir[p].lines)
  {
    if p in dir && dir[p].Lines? then Some(RecordsOf(dir[p].lines)) else None
  }

  /** `json.load(f)` of a result document; anything else raises. */
  function ReadReport(dir: Dir, p: string): (r: Option<Report>)
    ensures r.Some? <==> p in dir && dir[p].Doc?
    ensures r.Some? ==> dir[p] == Doc(r.value)
  {
    if p in dir && dir[p].Doc? then Some(dir[p].report) else None
  }

  /** Opening with "w" and writing one line per record. */
  function WriteRecords(dir: Dir, p: string, rs: seq<AnswerRecord>): (d: Dir)
    ensures d == dir[p := Lines(LinesOf(rs))]
  {
    dir[p := Lines(LinesOf(rs))]
  }

  /** Opening with "a": the existing lines stay and the new ones follow. */
  function AppendRecords(dir: Dir, p: string, rs: seq<AnswerRecord>): (d: Dir)
    ensures d.Keys == dir.Keys + {p}
    ensures forall q :: q in dir && q != p ==> d[q] == dir[q]
    ensures p !in dir ==> d[p] == Lines(LinesOf(rs))
    ensures p in dir && dir[p].Lines? ==> d[p] == Lines(dir[p].lines + LinesOf(rs))
  {
    var added := LinesOf(rs);
    if p !in dir then dir[p := Lines(added)]
    else if dir[p].Lines? then dir[p := Lines(dir[p].lines + added)]
    else if rs == [] then dir
    else dir[p := Unparsed]
  }

  /** Appending never loses a record already in a JSONL file. */
  lemma AppendKeepsRecords(dir: Dir, p: string, rs: seq<AnswerRecord>)
    requires ReadRecords(dir, p).Some?
    ensures ReadRecords(AppendRecords(dir, p, rs), p) == Some(ReadRecords(dir, p).value + rs)
  {
    RecordsOfConcat(dir[p].lines, LinesOf(rs));
    RecordsOfLines(rs);
  }

  /** Appending in two writes is appending once. */
  lemma AppendRecordsConcat(dir: Dir, p: string, a: seq<AnswerRecord>, b: seq<AnswerRecord>)
    ensures AppendRecords(AppendRecords(dir, p, a), p, b) == AppendRecords(dir, p, a + b)
  {
    LinesOfConcat(a, b);
    var once := AppendRecords(dir, p, a);
    hide LinesOf;
    if p !in dir {
      assert once == dir[p := Lines(LinesOf(a))];
      assert AppendRecords(once, p, b) == dir[p := Lines(LinesOf(a) + LinesOf(b))];
    } else if dir[p].Lines? {
      var ls := dir[p].lines;
      assert once == dir[p := Lines(ls + LinesOf(a))];
      assert (ls + LinesOf(a)) + LinesOf(b) == ls + LinesOf(a + b);
      assert AppendRecords(once, p, b) == dir[p := Lines((ls + LinesOf(a)) + LinesOf(b))];
    } else if a == [] {
      assert once == dir && a + b == b;
    } else {
      assert once == dir[p := Unparsed] && a + b != [];
      assert AppendRecords(once, p, b) == dir[p := Unparsed];
    }
  }

  /** `os.remove` of each path, ignoring paths that are already gone. */
  function RemoveAll(dir: Dir, ps: set<string>): (d: Dir)
    ensures d.Keys == dir.Keys - ps
    ensures forall q :: q in d ==> d[q] == dir[q]
  {
    map q | q in dir && q !in ps :: dir[q]
  }

  /** Removing one more path after a batch is removing the larger batch. */
  lemma RemoveAllOneMore(dir: Dir, ps: set<string>, p: string)
    ensures RemoveAll(dir, ps) - {p} == RemoveAll(dir, ps + {p})
  {
  }

  /** Two files written, then a set of paths removed. */
  lemma WriteTwoThenRemove(dir: Dir, a: string, ca: Content, b: string, cb: Content, ps: set<string>)
    requires a != b
    ensures var d := RemoveAll(dir[a := ca][b := cb], ps);
      (forall p :: p in d <==> (p in dir || p == a || p == b) && p !in ps) &&
      (forall p :: p in d && p != a && p != b ==> d[p] == dir[p]) &&
      (a in d ==> d[a] == ca) && (b in d ==> d[b] == cb)
  {
  }
}
