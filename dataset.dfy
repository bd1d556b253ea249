/**
 * Dataset loading helpers: Excel-style option labels, normalisation of a
 * `choices` list into lettered keys, and the filter that picks evaluation files
 * out of a directory walk.
 */
module Dataset {
  import opened Wrappers
  import opened Strings
  import Dicts
  import opened Json
  import Orders
  import Paths

  /** `string.ascii_uppercase[d]` */
  function Letter(d: nat): char
    requires d < 26
  {
    ('A' as int + d) as char
  }

  /**
   * The label of the 0-based index `n` in bijective base 26:
   * A..Z, then AA..AZ, BA.., ZZ, AAA...
   */
  function Label(n: nat): (s: string)
    ensures IsUpperWord(s)
    decreases n
  {
    if n < 26 then [Letter(n)] else Label(n / 26 - 1) + [Letter(n % 26)]
  }

  /** `_index_to_label`: repeated `divmod` by 26, borrowing one before each further digit. */
  method IndexToLabel(n: nat) returns (s: string)
    ensures s == Label(n)
  {
    var idx: nat := n;
    var letters: string := [];
    while true
      invariant Label(n) == Label(idx) + Reverse(letters)
      decreases idx
    {
      ghost var before := idx;
      var rem := idx % 26;
      idx := idx / 26;
      ReverseSnoc(letters, Letter(rem));
      letters := letters + [Letter(rem)];
      if idx == 0 {
        assert Label(before) == [Letter(rem)];
        break;
      }
      idx := idx - 1;
    }
    s := Reverse(letters);
  }

  /** The index a label stands for: the inverse of `Label`. */
  function Decode(s: string): nat
    requires IsUpperWord(s)
    decreases |s|
  {
    var last := s[|s| - 1] as int - 'A' as int;
    if |s| == 1 then last
    else (Decode(s[..|s| - 1]) + 1) * 26 + last
  }

  lemma {:induction false} DecodeLabel(n: nat)
    ensures Decode(Label(n)) == n
    decreases n
  {
    if n >= 26 {
      var s := Label(n);
      assert s[..|s| - 1] == Label(n / 26 - 1);
      DecodeLabel(n / 26 - 1);
    }
  }

  lemma {:induction false} LabelDecode(s: string)
    requires IsUpperWord(s)
    ensures Label(Decode(s)) == s
    decreases |s|
  {
    if |s| > 1 {
      var init := s[..|s| - 1];
      LabelDecode(init);
      var d := Decode(s);
      assert d / 26 - 1 == Decode(init) && d % 26 == s[|s| - 1] as int - 'A' as int;
      assert s == init + [s[|s| - 1]];
    }
  }

  /** Distinct indices get distinct labels. */
  lemma LabelInjective(m: nat, n: nat)
    requires Label(m) == Label(n)
    ensures m == n
  {
    DecodeLabel(m);
    DecodeLabel(n);
  }

  lemma LabelExamples()
    ensures Label(0) == "A" && Label(25) == "Z"
    ensures Label(26) == "AA" && Label(27) == "AB" && Label(52) == "BA"
    ensures Label(701) == "ZZ" && Label(702) == "AAA"
  {
    assert Label(26) == Label(0) + [Letter(0)];
    assert Label(27) == Label(0) + [Letter(1)];
    assert Label(52) == Label(1) + [Letter(0)];
    assert Label(701) == Label(25) + [Letter(25)];
    assert Label(702) == Label(26) + [Letter(0)];
  }

  lemma {:induction false} LabelLengthMonotone(m: nat, n: nat)
    requires m <= n
    ensures |Label(m)| <= |Label(n)|
    decreases n
  {
    if m >= 26 {
      LabelLengthMonotone(m / 26 - 1, n / 26 - 1);
    }
  }

  /** Labels of increasing indices increase under the `(len(k), k)` order. */
  lemma {:induction false} LabelOrdered(i: nat, j: nat)
    requires i < j
    ensures Orders.ShortLexLess(Label(i), Label(j))
    decreases j
  {
    if j < 26 {
    } else if i < 26 {
      LabelLengthMonotone(0, j / 26 - 1);
    } else {
      var qi, qj := i / 26 - 1, j / 26 - 1;
      if qi < qj {
        LabelOrdered(qi, qj);
        if |Label(qi)| == |Label(qj)| {
          Orders.LexAppend(Label(qi), Label(qj), Letter(i % 26), Letter(j % 26));
        }
      } else {
        assert qi == qj && i % 26 < j % 26;
        Orders.LexLastChar(Label(qi), Letter(i % 26), Letter(j % 26));
      }
    }
  }

  /** `_choices_to_letter_keys` for a list of `n` choices, as a value. */
  function LetterKeys(n: nat): (ks: seq<string>)
    ensures |ks| == n
    ensures forall i :: 0 <= i < n ==> ks[i] == Label(i)
  {
    if n == 0 then [] else LetterKeys(n - 1) + [Label(n - 1)]
  }

  /** A string is one of the first `n` labels exactly when it is an upper-case word that decodes below `n`. */
  lemma LetterKeysMember(n: nat, s: string)
    ensures s in LetterKeys(n) <==> IsUpperWord(s) && Decode(s) < n
  {
    var ks := LetterKeys(n);
    if s in ks {
      var i :| 0 <= i < n && ks[i] == s;
      DecodeLabel(i);
    }
    if IsUpperWord(s) && Decode(s) < n {
      LabelDecode(s);
      assert ks[Decode(s)] == s;
    }
  }

  /** The generated keys are already in the order the shuffle sorts option keys into. */
  lemma LetterKeysSorted(n: nat)
    ensures Orders.Sorted(Orders.LengthThenLexicographic, LetterKeys(n))
  {
    var ks := LetterKeys(n);
    forall i, j | 0 <= i < j < n
      ensures !Orders.Less(Orders.LengthThenLexicographic, ks[j], ks[i])
    {
      LabelOrdered(i, j);
      if Orders.ShortLexLess(ks[j], ks[i]) {
        Orders.LexTransitive(ks[i], ks[j], ks[i]);
        Orders.LexIrreflexive(ks[i]);
      }
    }
  }

  /** `_choices_to_letter_keys(choices)` */
  method ChoicesToLetterKeys(choices: seq<Json.Value>) returns (labels: seq<string>)
    ensures labels == LetterKeys(|choices|)
  {
    labels := [];
    for i := 0 to |choices|
      invariant labels == LetterKeys(i)
    {
      var l := IndexToLabel(i);
      labels := labels + [l];
    }
  }

  // ---------------------------------------------------------------- normalisation

  /** The `choices` list when it is a list of at least two items; otherwise the record is left alone. */
  function ChoiceList(record: Dicts.Dict<Json.Value>): (cs: Option<seq<Json.Value>>)
    ensures cs.Some? ==> |cs.value| >= 2
  {
    var choices: Option<Value> := Dicts.Get(record, "choices");
    match choices
    case Some(List(items)) => if |items| >= 2 then Some(items) else None
    case _ => None
  }

  /** `int(r)` for a float: truncation toward zero. */
  function Truncate(r: real): int
  {
    if r >= 0.0 then r.Floor else -((-r).Floor)
  }

  /** `int(answer)`, or `None` where it raises `TypeError` or `ValueError`. */
  function PyInt(answer: Option<Json.Value>): Option<int>
  {
    match answer
    case Some(Int(i)) => Some(i)
    case Some(Bool(b)) => Some(if b then 1 else 0)
    case Some(Float(r)) => Some(Truncate(r))
    case Some(Str(s)) => ParseInt(s)
    case _ => None
  }

  /**
   * `str(answer)` where it can name a label: the text of a string, "None" for a
   * missing or null answer. The `str()` of a list, dict or other object begins with
   * '[', '{' or '<' and so never names a label; those give `None` here.
   */
  function PyStr(answer: Option<Json.Value>): Option<string>
  {
    match answer
    case None => Some("None")
    case Some(Null) => Some("None")
    case Some(Str(s)) => Some(s)
    case _ => None
  }

  /** The letter the answer maps to among `labels`, or `None` when the record stays as it is. */
  function AnswerLetter(answer: Option<Json.Value>, labels: seq<string>, up: char -> string): (l: Option<string>)
    ensures l.Some? ==> l.value in labels
  {
    match PyInt(answer)
    case Some(idx) => if 0 <= idx < |labels| then Some(labels[idx]) else None
    case None =>
      match PyStr(answer)
      case None => None
      case Some(t) => var u := Upper(up, Strip(t)); if u in labels then Some(u) else None
  }

  /** `base` with the first `i` labels bound to the first `i` choices, in order. */
  function Labelled(base: Dicts.Dict<Json.Value>, choices: seq<Json.Value>, i: nat): Dicts.Dict<Json.Value>
    requires i <= |choices|
  {
    if i == 0 then base else Dicts.Put(Labelled(base, choices, i - 1), Label(i - 1), choices[i - 1])
  }

  /** What `_normalize_record` returns for `record`. */
  function Normalized(record: Dicts.Dict<Json.Value>, up: char -> string): (r: Dicts.Dict<Json.Value>)
  {
    match ChoiceList(record)
    case None => record
    case Some(cs) =>
      match AnswerLetter(Dicts.Get(record, "answer"), LetterKeys(|cs|), up)
      case None => record
      case Some(l) =>
        Dicts.Put(Labelled(Dicts.Without(record, {"choices", "answer"}), cs, |cs|), "answer", Json.Str(l))
  }

  /** `_normalize_record(record)` */
  method NormalizeRecord(record: Dicts.Dict<Json.Value>, up: char -> string) returns (r: Dicts.Dict<Json.Value>)
    ensures r == Normalized(record, up)
  {
    var choices := Dicts.Get(record, "choices");
    var answer := Dicts.Get(record, "answer");
    if !(choices.Some? && choices.value.List? && |choices.value.items| >= 2) {
      return record;
    }
    var items := choices.value.items;
    assert ChoiceList(record) == Some(items);
    var labels := ChoicesToLetterKeys(items);
    var idx := PyInt(answer);
    var letter: string;
    if idx.Some? {
      if !(0 <= idx.value < |items|) {
        assert AnswerLetter(answer, labels, up).None?;
        return record;
      }
      letter := labels[idx.value];
    } else {
      var text := PyStr(answer);
      if text.None? {
        assert AnswerLetter(answer, labels, up).None?;
        return record;
      }
      var answerStr := Upper(up, Strip(text.value));
      if answerStr !in labels {
        assert AnswerLetter(answer, labels, up).None?;
        return record;
      }
      letter := answerStr;
    }
    assert AnswerLetter(answer, labels, up) == Some(letter);
    var base := Dicts.Without(record, {"choices", "answer"});
    r := base;
    for i := 0 to |items|
      invariant r == Labelled(base, items, i)
    {
      r := Dicts.Put(r, labels[i], items[i]);
    }
    r := Dicts.Put(r, "answer", Json.Str(letter));
  }

  lemma {:induction false} GetLabelled(base: Dicts.Dict<Json.Value>, cs: seq<Json.Value>, i: nat, k: string)
    requires i <= |cs|
    ensures Dicts.Get(Labelled(base, cs, i), k) ==
      if IsUpperWord(k) && Decode(k) < i then Some(cs[Decode(k)]) else Dicts.Get(base, k)
  {
    if i > 0 {
      var prev := Labelled(base, cs, i - 1);
      var lab := Label(i - 1);
      GetLabelled(base, cs, i - 1, k);
      Dicts.GetPut(prev, lab, cs[i - 1], k);
      DecodeLabel(i - 1);
      if IsUpperWord(k) {
        LabelDecode(k);
      }
      assert (k == lab) == (IsUpperWord(k) && Decode(k) == i - 1);
      assert Labelled(base, cs, i) == Dicts.Put(prev, lab, cs[i - 1]);
    }
  }

  /** Without a usable `choices` list the record comes back unchanged. */
  lemma NormalizedWithoutChoices(record: Dicts.Dict<Json.Value>, up: char -> string)
    requires var choices: Option<Value> := Dicts.Get(record, "choices");
      choices.None? || !choices.value.List? || |choices.value.items| < 2
    ensures Normalized(record, up) == record
  {
  }

  /**
   * Every field of a normalised record: `answer` holds the letter, each label its
   * choice text (overwriting a field of that name), `choices` is gone and every other
   * field is kept.
   */
  lemma NormalizedFields(record: Dicts.Dict<Json.Value>, up: char -> string, k: string)
    requires ChoiceList(record).Some?
    requires AnswerLetter(Dicts.Get(record, "answer"), LetterKeys(|ChoiceList(record).value|), up).Some?
    ensures var cs := ChoiceList(record).value;
      var l := AnswerLetter(Dicts.Get(record, "answer"), LetterKeys(|cs|), up).value;
      Dicts.Get(Normalized(record, up), k) ==
        if k == "answer" then Some(Json.Str(l))
        else if IsUpperWord(k) && Decode(k) < |cs| then Some(cs[Decode(k)])
        else if k == "choices" then None
        else Dicts.Get(record, k)
  {
    var cs := ChoiceList(record).value;
    var l := AnswerLetter(Dicts.Get(record, "answer"), LetterKeys(|cs|), up).value;
    var base := Dicts.Without(record, {"choices", "answer"});
    Dicts.GetPut(Labelled(base, cs, |cs|), "answer", Json.Str(l), k);
    GetLabelled(base, cs, |cs|, k);
    Dicts.GetWithout(record, {"choices", "answer"}, k);
  }

  /** An integer answer in range selects the label at that index. */
  lemma IntegerAnswer(record: Dicts.Dict<Json.Value>, up: char -> string, idx: int)
    requires ChoiceList(record).Some?
    requires PyInt(Dicts.Get(record, "answer")) == Some(idx)
    ensures var n := |ChoiceList(record).value|;
      AnswerLetter(Dicts.Get(record, "answer"), LetterKeys(n), up) ==
        if 0 <= idx < n then Some(Label(idx)) else None
    ensures !(0 <= idx < |ChoiceList(record).value|) ==> Normalized(record, up) == record
  {
  }

  /** A textual answer is kept, stripped and upper-cased, only when it is one of the labels. */
  lemma TextAnswer(record: Dicts.Dict<Json.Value>, up: char -> string, t: string)
    requires ChoiceList(record).Some?
    requires PyInt(Dicts.Get(record, "answer")).None? && PyStr(Dicts.Get(record, "answer")) == Some(t)
    ensures var n := |ChoiceList(record).value|;
      var u := Upper(up, Strip(t));
      AnswerLetter(Dicts.Get(record, "answer"), LetterKeys(n), up) ==
        if IsUpperWord(u) && Decode(u) < n then Some(u) else None
  {
    LetterKeysMember(|ChoiceList(record).value|, Upper(up, Strip(t)));
  }

  /** Normalisation keeps a dict a dict: every key still occurs once. */
  lemma {:induction false} NormalizedDistinct(record: Dicts.Dict<Json.Value>, up: char -> string)
    requires Dicts.DistinctKeys(record)
    ensures Dicts.DistinctKeys(Normalized(record, up))
  {
    match ChoiceList(record)
    case None =>
    case Some(cs) =>
      match AnswerLetter(Dicts.Get(record, "answer"), LetterKeys(|cs|), up)
      case None =>
      case Some(l) =>
        var base := Dicts.Without(record, {"choices", "answer"});
        Dicts.WithoutDistinct(record, {"choices", "answer"});
        LabelledDistinct(base, cs, |cs|);
        Dicts.PutDistinct(Labelled(base, cs, |cs|), "answer", Json.Str(l));
  }

  lemma {:induction false} LabelledDistinct(base: Dicts.Dict<Json.Value>, cs: seq<Json.Value>, i: nat)
    requires i <= |cs| && Dicts.DistinctKeys(base)
    ensures Dicts.DistinctKeys(Labelled(base, cs, i))
  {
    if i > 0 {
      LabelledDistinct(base, cs, i - 1);
      Dicts.PutDistinct(Labelled(base, cs, i - 1), Label(i - 1), cs[i - 1]);
    }
  }

  // ---------------------------------------------------------------- evaluation files

  /** A file seen by `os.walk(root)`: the sub-directories leading to it and its name. */
  datatype WalkFile = WalkFile(dirs: seq<string>, name: string)

  const SupportedExtensions: set<string> := {".json", ".jsonl", ".parquet", ".arrow", ".csv", ".tsv"}

  /** The walk descends into no directory whose name starts with a dot. */
  predicate Visible(f: WalkFile)
  {
    forall i :: 0 <= i < |f.dirs| ==> !StartsWith(f.dirs[i], ".")
  }

  /** `os.path.join(root, file)` where `root` is the walk's current directory. */
  function FilePath(root: string, f: WalkFile): string
  {
    Paths.Join(Paths.JoinAll(root, f.dirs), f.name)
  }

  predicate Kept(f: WalkFile)
  {
    var ext := Lower(Paths.Ext(f.name));
    Visible(f) && ext != ".lock" && ext in SupportedExtensions
  }

  /** The path a walked file contributes, if it is kept. */
  function Candidate(root: string, f: WalkFile): Option<string>
  {
    if Kept(f) then Some(FilePath(root, f)) else None
  }

  /** The paths `pick` yields over a walk, in walk order. */
  function Collect(walk: seq<WalkFile>, pick: WalkFile -> Option<string>): seq<string>
  {
    if walk == [] then []
    else
      Collect(walk[..|walk| - 1], pick) +
        match pick(walk[|walk| - 1]) case Some(p) => [p] case None => []
  }

  lemma {:induction false} CollectMember(walk: seq<WalkFile>, pick: WalkFile -> Option<string>, p: string)
    ensures p in Collect(walk, pick) <==> exists i :: 0 <= i < |walk| && pick(walk[i]) == Some(p)
  {
    if walk != [] {
      var init := walk[..|walk| - 1];
      CollectMember(init, pick, p);
      if p in Collect(walk, pick) && p in Collect(init, pick) {
        var i :| 0 <= i < |init| && pick(init[i]) == Some(p);
        assert walk[i] == init[i];
      }
      if exists i :: 0 <= i < |walk| && pick(walk[i]) == Some(p) {
        var i :| 0 <= i < |walk| && pick(walk[i]) == Some(p);
        if i < |init| {
          assert walk[i] == init[i];
        }
      }
    }
  }

  /** The files `find_all_evaluation_files` collects from a walk, in walk order. */
  function EvaluationFiles(root: string, walk: seq<WalkFile>): seq<string>
  {
    Collect(walk, f => Candidate(root, f))
  }

  /** `find_all_evaluation_files(root)` over the files `os.walk` would visit without pruning. */
  method FindAllEvaluationFiles(root: string, walk: seq<WalkFile>) returns (r: Result<seq<string>>)
    ensures r.Failure? <==> EvaluationFiles(root, walk) == []
    ensures r.Success? ==> r.value == EvaluationFiles(root, walk)
  {
    var allFiles: seq<string> := [];
    for i := 0 to |walk|
      invariant allFiles == EvaluationFiles(root, walk[..i])
    {
      assert walk[..i + 1][..i] == walk[..i];
      var f := walk[i];
      if !Visible(f) {
        continue;
      }
      var ext := Lower(Paths.Ext(f.name));
      if ext == ".lock" {
        continue;
      }
      if ext in SupportedExtensions {
        allFiles := allFiles + [FilePath(root, f)];
      }
    }
    assert walk[..|walk|] == walk;
    if allFiles == [] {
      return Failure("no readable evaluation file under " + root);
    }
    return Success(allFiles);
  }

  /** A path is collected exactly when some visible file with a supported extension produced it. */
  lemma EvaluationFilesMember(root: string, walk: seq<WalkFile>, p: string)
    ensures p in EvaluationFiles(root, walk) <==>
      exists i :: 0 <= i < |walk| && Kept(walk[i]) && p == FilePath(root, walk[i])
  {
    CollectMember(walk, f => Candidate(root, f), p);
  }

  /** A file under a dot-directory is never collected, whatever its extension. */
  lemma HiddenDirectoryPruned(f: WalkFile, i: int)
    requires 0 <= i < |f.dirs| && StartsWith(f.dirs[i], ".")
    ensures !Kept(f)
  {
  }
}
