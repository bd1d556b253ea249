/**
 * One evaluation of one dataset file: option shuffling, prompt rendering, the rate limiter in
 * front of the LLM, splitting of thinking tags, scoring, and the per-node answer log.
 */
module Evaluators {
  import opened Wrappers
  import opened Strings
  import Dicts
  import opened Json
  import Orders
  import Paths
  import Seqs
  import opened Records

  // ---------------------------------------------------------------------------------------
  // Node identity and the answer log it writes to

  /** `_get_node_id()`, given the value of `SLURM_NODEID`. */
  function NodeId(slurmNodeId: Option<string>): (id: string)
    ensures StartsWith(id, "node")
  {
    match slurmNodeId
    case Some(n) => "node" + n
    case None => "node0"
  }

  /** `os.path.join("results", f"eval_results_{timestamp}_{node}.jsonl")` */
  function ShardPath(timestamp: string, node: string): string
  {
    Paths.Join("results", "eval_results_" + timestamp + "_" + node + ".jsonl")
  }

  /** The log lives under `results/` and is named after the run and the node. */
  lemma ShardPathForm(timestamp: string, node: string)
    ensures ShardPath(timestamp, node) == "results/eval_results_" + timestamp + "_" + node + ".jsonl"
  {
  }

  /** Each node appends to a log of its own: distinct node ids give distinct paths. */
  lemma ShardPathDistinct(timestamp: string, node: string, other: string)
    requires node != other
    ensures ShardPath(timestamp, node) != ShardPath(timestamp, other)
  {
    ShardPathForm(timestamp, node);
    ShardPathForm(timestamp, other);
    if ShardPath(timestamp, node) == ShardPath(timestamp, other) {
      Seqs.InfixCancel("results/eval_results_" + timestamp + "_", node, other, ".jsonl");
    }
  }

  // ---------------------------------------------------------------------------------------
  // Rate limiting

  /**
   * `RateLimiter`: at most `callsPerSecond` admissions per second; `-1` switches it off.
   * The clock is a parameter of `Wait`.
   */
  class RateLimiter {
    var noLimit: bool
    var interval: real
    var lastCallTime: real

    constructor (callsPerSecond: real)
      requires callsPerSecond != 0.0
      ensures noLimit == (callsPerSecond == -1.0)
      ensures interval == if noLimit then 0.0 else 1.0 / callsPerSecond
      ensures lastCallTime == 0.0
    {
      noLimit := callsPerSecond == -1.0;
      interval := if callsPerSecond == -1.0 then 0.0 else 1.0 / callsPerSecond;
      lastCallTime := 0.0;
    }

    /** The sleep `wait` performs when called at time `now`. */
    function Delay(now: real): (d: real)
      reads this
      ensures d >= 0.0 && d >= interval - (now - lastCallTime)
    {
      var timeToWait := interval - (now - lastCallTime);
      if timeToWait > 0.0 then timeToWait else 0.0
    }

    /**
     * `wait()` called at time `now`; the clock reads `now + slept + overrun` once the sleep is
     * over (`overrun` is whatever time passes beyond the requested sleep).
     */
    method Wait(now: real, overrun: real) returns (slept: real)
      requires overrun >= 0.0
      modifies this
      ensures noLimit == old(noLimit) && interval == old(interval)
      ensures noLimit ==> slept == 0.0 && lastCallTime == old(lastCallTime)
      ensures !noLimit ==> slept == old(Delay(now)) && lastCallTime == now + slept + overrun
      ensures !noLimit ==> lastCallTime >= old(lastCallTime) + interval
      ensures !noLimit ==> lastCallTime >= now
    {
      if noLimit {
        return 0.0;
      }
      slept := Delay(now);
      lastCallTime := now + slept + overrun;
    }
  }

  // ---------------------------------------------------------------------------------------
  // Option shuffling

  /** The keys among `ks` that consist of upper-case letters only (and are not `answer`). */
  function UpperKeys(ks: seq<string>): seq<string>
  {
    if ks == [] then []
    else if IsUpperWord(ks[0]) && ks[0] != "answer" then [ks[0]] + UpperKeys(ks[1..])
    else UpperKeys(ks[1..])
  }

  lemma {:induction false} UpperKeysProperties(ks: seq<string>)
    ensures forall k :: k in UpperKeys(ks) <==> k in ks && IsUpperWord(k) && k != "answer"
    ensures Seqs.Distinct(ks) ==> Seqs.Distinct(UpperKeys(ks))
    ensures multiset(UpperKeys(ks)) <= multiset(ks)
  {
    if ks != [] {
      UpperKeysProperties(ks[1..]);
      assert ks == [ks[0]] + ks[1..];
    }
  }

  /** The option keys of a question, ordered by `(len(k), k)`. */
  function OptionKeys(q: Dicts.Dict<Value>): seq<string>
  {
    Orders.Sort(Orders.LengthThenLexicographic, UpperKeys(Dicts.Keys(q)))
  }

  /** The option keys are the upper-case keys of the question, each once, shortest first. */
  lemma OptionKeysProperties(q: Dicts.Dict<Value>)
    ensures forall k :: k in OptionKeys(q) <==> k in Dicts.Keys(q) && IsUpperWord(k)
    ensures Orders.Sorted(Orders.LengthThenLexicographic, OptionKeys(q))
    ensures Dicts.DistinctKeys(q) ==> Seqs.Distinct(OptionKeys(q))
  {
    var ups := UpperKeys(Dicts.Keys(q));
    var ks := OptionKeys(q);
    UpperKeysProperties(Dicts.Keys(q));
    AnswerNotUpper();
    assert forall k :: k in ks <==> k in multiset(ks);
    assert forall k :: k in ups <==> k in multiset(ups);
    if Dicts.DistinctKeys(q) {
      assert Seqs.Distinct(Dicts.Keys(q));
      Seqs.DistinctPermutation(ups, ks);
    }
  }

  /** `[(k, question_data[k]) for k in ks]` */
  function Pairs(q: Dicts.Dict<Value>, ks: seq<string>): (ps: seq<(string, Value)>)
    requires forall k :: k in ks ==> Dicts.Get(q, k).Some?
    ensures |ps| == |ks| && forall i :: 0 <= i < |ks| ==> ps[i] == (ks[i], Dicts.Get(q, ks[i]).value)
  {
    if ks == [] then [] else [(ks[0], Dicts.Get(q, ks[0]).value)] + Pairs(q, ks[1..])
  }

  function OptionPairs(q: Dicts.Dict<Value>): seq<(string, Value)>
  {
    OptionKeysProperties(q);
    forall k | k in OptionKeys(q) ensures Dicts.Get(q, k).Some? {
      Dicts.GetKeys(q, k);
    }
    Pairs(q, OptionKeys(q))
  }

  /** `shuffled` is one of the orders `random.shuffle(options)` can produce. */
  predicate IsShuffleOf(q: Dicts.Dict<Value>, shuffled: seq<(string, Value)>)
  {
    multiset(shuffled) == multiset(OptionPairs(q))
  }

  /**
   * Python's `==` on values: numbers compare by value across int, float and bool. Lists and
   * dicts are compared structurally here, so `[1] == [1.0]` and two dicts with the same items
   * in another order, both equal in Python, are unequal in this model.
   */
  predicate PyEq(a: Value, b: Value)
  {
    if IsPyNumber(a) && IsPyNumber(b) then NumberOf(a) == NumberOf(b) else a == b
  }

  /**
   * `question_data.get(question_data["answer"])`, treating a stored `None` like a missing key.
   * A missing `answer` raises `KeyError`; a list or dict answer cannot be hashed.
   */
  function CorrectText(q: Dicts.Dict<Value>): Result<Option<Value>>
  {
    var answer: Option<Value> := Dicts.Get(q, "answer");
    match answer
    case None => Failure("KeyError: 'answer'")
    case Some(List(_)) => Failure("TypeError: unhashable type: 'list'")
    case Some(Object(_)) => Failure("TypeError: unhashable type: 'dict'")
    case Some(Str(s)) =>
      var text: Option<Value> := Dicts.Get(q, s);
      if text.None? || text.value.Null? then Success(None) else Success(text)
    case Some(_) => Success(None)
  }

  /** One step of the loop over `zip(options, option_keys)`: store `text` under `key`. */
  function Step(d: Dicts.Dict<Value>, key: string, text: Value, correct: Value): Dicts.Dict<Value>
  {
    var stored := Dicts.Put(d, key, text);
    if PyEq(text, correct) then Dicts.Put(stored, "answer", Str(key)) else stored
  }

  lemma GetStep(d: Dicts.Dict<Value>, key: string, text: Value, correct: Value, k: string)
    ensures Dicts.Get(Step(d, key, text, correct), k) ==
      if k == "answer" && PyEq(text, correct) then Some(Str(key))
      else if k == key then Some(text)
      else Dicts.Get(d, k)
  {
    Dicts.GetPut(d, key, text, k);
    Dicts.GetPut(Dicts.Put(d, key, text), "answer", Str(key), k);
  }

  /** A step adds at most its own key and "answer". */
  lemma KeysStep(d: Dicts.Dict<Value>, key: string, text: Value, correct: Value, k: string)
    ensures k in Dicts.Keys(Step(d, key, text, correct)) ==> k in Dicts.Keys(d) || k == key || k == "answer"
  {
    GetStep(d, key, text, correct, k);
    Dicts.GetKeys(d, k);
    Dicts.GetKeys(Step(d, key, text, correct), k);
  }

  /** The loop over `zip(options, option_keys)` after its first `n` steps. */
  function Relabel(base: Dicts.Dict<Value>, shuffled: seq<(string, Value)>, ks: seq<string>,
                   correct: Value, n: nat): Dicts.Dict<Value>
    requires n <= |ks| == |shuffled|
  {
    if n == 0 then base
    else Step(Relabel(base, shuffled, ks, correct, n - 1), ks[n - 1], shuffled[n - 1].1, correct)
  }

  /** `shuffle_question_options(q)` when `random.shuffle` puts the options in the order `shuffled`. */
  function Shuffled(q: Dicts.Dict<Value>, shuffled: seq<(string, Value)>): Result<Dicts.Dict<Value>>
    requires IsShuffleOf(q, shuffled)
  {
    var ks := OptionKeys(q);
    if ks == [] then Success(q)
    else
      match CorrectText(q)
      case Failure(e) => Failure(e)
      case Success(None) => Success(q)
      case Success(Some(t)) =>
        assert |shuffled| == |multiset(shuffled)| == |OptionPairs(q)|;
        var ksSet := set k | k in ks;
        Success(Relabel(Dicts.Without(q, ksSet + {"answer"}), shuffled, ks, t, |ks|))
  }

  /** `Evaluator.shuffle_question_options`. */
  method ShuffleQuestionOptions(q: Dicts.Dict<Value>, shuffled: seq<(string, Value)>)
    returns (r: Result<Dicts.Dict<Value>>)
    requires IsShuffleOf(q, shuffled)
    ensures r == Shuffled(q, shuffled)
  {
    var optionKeys := OptionKeys(q);
    if optionKeys == [] {
      return Success(q);
    }
    var correct := CorrectText(q);
    if correct.Failure? {
      return Failure(correct.error);
    }
    if correct.value.None? {
      return Success(q);
    }
    var text := correct.value.value;
    ShuffledShape(q, shuffled);
    var base := Dicts.Without(q, (set k | k in optionKeys) + {"answer"});
    var newData := base;
    var i := 0;
    while i < |optionKeys|
      invariant 0 <= i <= |optionKeys|
      invariant newData == Relabel(base, shuffled, optionKeys, text, i)
    {
      var optionText := shuffled[i].1;
      ghost var before := newData;
      newData := Dicts.Put(newData, optionKeys[i], optionText);
      if PyEq(optionText, text) {
        newData := Dicts.Put(newData, "answer", Str(optionKeys[i]));
      }
      assert newData == Step(before, optionKeys[i], optionText, text);
      i := i + 1;
    }
    return Success(newData);
  }

  /** The last of the first `n` shuffled texts equal to `correct`. */
  function LastMatch(shuffled: seq<(string, Value)>, correct: Value, n: nat): (j: Option<nat>)
    requires n <= |shuffled|
    ensures j.Some? ==> j.value < n && PyEq(shuffled[j.value].1, correct)
    ensures j.Some? ==> forall i :: j.value < i < n ==> !PyEq(shuffled[i].1, correct)
    ensures j.None? ==> forall i :: 0 <= i < n ==> !PyEq(shuffled[i].1, correct)
  {
    if n == 0 then None
    else if PyEq(shuffled[n - 1].1, correct) then Some(n - 1)
    else LastMatch(shuffled, correct, n - 1)
  }

  /** What the last pass of the relabelling loop leaves under key `k`. */
  lemma GetRelabelLast(base: Dicts.Dict<Value>, shuffled: seq<(string, Value)>,
                       ks: seq<string>, correct: Value, n: nat, k: string)
    requires 0 < n <= |ks| == |shuffled|
    ensures Dicts.Get(Relabel(base, shuffled, ks, correct, n), k) ==
      if k == "answer" && PyEq(shuffled[n - 1].1, correct) then Some(Str(ks[n - 1]))
      else if k == ks[n - 1] then Some(shuffled[n - 1].1)
      else Dicts.Get(Relabel(base, shuffled, ks, correct, n - 1), k)
  {
    GetStep(Relabel(base, shuffled, ks, correct, n - 1), ks[n - 1], shuffled[n - 1].1, correct, k);
  }

  /** Keys the loop never touches keep their value. */
  lemma {:induction false} GetRelabelOther(base: Dicts.Dict<Value>, shuffled: seq<(string, Value)>,
                                           ks: seq<string>, correct: Value, n: nat, k: string)
    requires n <= |ks| == |shuffled|
    requires k != "answer" && forall i :: 0 <= i < n ==> ks[i] != k
    ensures Dicts.Get(Relabel(base, shuffled, ks, correct, n), k) == Dicts.Get(base, k)
  {
    if n > 0 {
      assert ks[n - 1] != k;
      GetRelabelOther(base, shuffled, ks, correct, n - 1, k);
      GetRelabelLast(base, shuffled, ks, correct, n, k);
    }
  }

  /** Option key `ks[i]` ends up holding the `i`-th shuffled text. */
  lemma {:induction false} GetRelabelOption(base: Dicts.Dict<Value>, shuffled: seq<(string, Value)>,
                                            ks: seq<string>, correct: Value, n: nat, i: nat)
    requires n <= |ks| == |shuffled| && Seqs.Distinct(ks) && "answer" !in ks && i < n
    ensures Dicts.Get(Relabel(base, shuffled, ks, correct, n), ks[i]) == Some(shuffled[i].1)
  {
    assert ks[i] != "answer";
    GetRelabelLast(base, shuffled, ks, correct, n, ks[i]);
    if i < n - 1 {
      assert ks[i] != ks[n - 1];
      GetRelabelOption(base, shuffled, ks, correct, n - 1, i);
    }
  }

  /** `answer` names the key of the last shuffled text equal to the correct text. */
  lemma {:induction false} GetRelabelAnswer(base: Dicts.Dict<Value>, shuffled: seq<(string, Value)>,
                                            ks: seq<string>, correct: Value, n: nat)
    requires n <= |ks| == |shuffled| && "answer" !in ks
    ensures Dicts.Get(Relabel(base, shuffled, ks, correct, n), "answer") ==
      match LastMatch(shuffled, correct, n)
      case Some(j) => Some(Str(ks[j]))
      case None => Dicts.Get(base, "answer")
  {
    if n > 0 {
      assert ks[n - 1] != "answer";
      GetRelabelAnswer(base, shuffled, ks, correct, n - 1);
      GetRelabelLast(base, shuffled, ks, correct, n, "answer");
      if PyEq(shuffled[n - 1].1, correct) {
        assert LastMatch(shuffled, correct, n) == Some(n - 1);
      } else {
        assert LastMatch(shuffled, correct, n) == LastMatch(shuffled, correct, n - 1);
      }
    }
  }

  lemma {:induction false} RelabelDistinct(base: Dicts.Dict<Value>, shuffled: seq<(string, Value)>,
                                           ks: seq<string>, correct: Value, n: nat)
    requires n <= |ks| == |shuffled| && Dicts.DistinctKeys(base)
    ensures Dicts.DistinctKeys(Relabel(base, shuffled, ks, correct, n))
  {
    if n > 0 {
      var prev := Relabel(base, shuffled, ks, correct, n - 1);
      RelabelDistinct(base, shuffled, ks, correct, n - 1);
      Dicts.PutDistinct(prev, ks[n - 1], shuffled[n - 1].1);
      Dicts.PutDistinct(Dicts.Put(prev, ks[n - 1], shuffled[n - 1].1), "answer", Str(ks[n - 1]));
    }
  }

  lemma {:induction false} KeysRelabel(base: Dicts.Dict<Value>, shuffled: seq<(string, Value)>,
                                       ks: seq<string>, correct: Value, n: nat, k: string)
    requires n <= |ks| == |shuffled|
    ensures k in Dicts.Keys(Relabel(base, shuffled, ks, correct, n)) ==>
      k in Dicts.Keys(base) || (exists i :: 0 <= i < n && ks[i] == k) || k == "answer"
  {
    if n > 0 {
      var prev, cur := Relabel(base, shuffled, ks, correct, n - 1), Relabel(base, shuffled, ks, correct, n);
      assert cur == Step(prev, ks[n - 1], shuffled[n - 1].1, correct);
      hide *;
      KeysRelabel(base, shuffled, ks, correct, n - 1, k);
      KeysStep(prev, ks[n - 1], shuffled[n - 1].1, correct, k);
      if k in Dicts.Keys(cur) && k != "answer" && k !in Dicts.Keys(base) {
        if k == ks[n - 1] {
          assert 0 <= n - 1 < n && ks[n - 1] == k;
        } else {
          assert k in Dicts.Keys(prev);
          var i :| 0 <= i < n - 1 && ks[i] == k;
          assert 0 <= i < n && ks[i] == k;
        }
      }
    }
  }

  lemma AnswerNotUpper()
    ensures !IsUpperWord("answer")
  {
    assert !IsUpperLetter("answer"[0]);
  }

  /**
   * With no option keys, or no text under the answer's key, the question is returned as it is;
   * the other outcomes are a shuffle or an error from reading the answer.
   */
  lemma ShuffleUnchanged(q: Dicts.Dict<Value>, shuffled: seq<(string, Value)>)
    requires IsShuffleOf(q, shuffled)
    ensures OptionKeys(q) == [] ==> Shuffled(q, shuffled) == Success(q)
    ensures CorrectText(q) == Success(None) ==> Shuffled(q, shuffled) == Success(q)
    ensures Shuffled(q, shuffled).Failure? <==> OptionKeys(q) != [] && CorrectText(q).Failure?
    ensures CorrectText(q).Failure? <==>
      Dicts.Get(q, "answer").None? || Dicts.Get(q, "answer").value.List? || Dicts.Get(q, "answer").value.Object?
  {
  }

  /** The question without its options and answer: what the relabelling loop starts from. */
  function Stripped(q: Dicts.Dict<Value>): Dicts.Dict<Value>
  {
    Dicts.Without(q, (set k | k in OptionKeys(q)) + {"answer"})
  }

  /** Removing the options and `answer` keeps every other field. */
  lemma GetStripped(q: Dicts.Dict<Value>, k: string)
    requires k !in OptionKeys(q) && k != "answer"
    ensures Dicts.Get(Stripped(q), k) == Dicts.Get(q, k)
  {
    var gone := (set x | x in OptionKeys(q)) + {"answer"};
    assert k !in gone;
    Dicts.GetWithout(q, gone, k);
  }

  /** A shuffle that goes ahead is the relabelling loop run over all option keys. */
  lemma ShuffledShape(q: Dicts.Dict<Value>, shuffled: seq<(string, Value)>)
    requires IsShuffleOf(q, shuffled)
    requires OptionKeys(q) != [] && CorrectText(q).Success? && CorrectText(q).value.Some?
    ensures |shuffled| == |OptionKeys(q)| && "answer" !in OptionKeys(q)
    ensures Shuffled(q, shuffled) ==
      Success(Relabel(Stripped(q), shuffled, OptionKeys(q), CorrectText(q).value.value, |OptionKeys(q)|))
  {
    assert |shuffled| == |multiset(shuffled)| == |OptionPairs(q)|;
    OptionKeysProperties(q);
    AnswerNotUpper();
  }

  /** After a shuffle, key `ks[i]` holds the `i`-th shuffled text. */
  lemma ShuffleOptions(q: Dicts.Dict<Value>, shuffled: seq<(string, Value)>, i: nat)
    requires Dicts.DistinctKeys(q) && IsShuffleOf(q, shuffled)
    requires OptionKeys(q) != [] && CorrectText(q).Success? && CorrectText(q).value.Some?
    requires i < |OptionKeys(q)|
    ensures i < |shuffled| && Dicts.Get(Shuffled(q, shuffled).value, OptionKeys(q)[i]) == Some(shuffled[i].1)
  {
    ShuffledShape(q, shuffled);
    OptionKeysProperties(q);
    GetRelabelOption(Stripped(q), shuffled, OptionKeys(q), CorrectText(q).value.value, |OptionKeys(q)|, i);
  }

  /** The shuffled question is a dict, and its option keys are exactly the original ones. */
  lemma ShuffleKeys(q: Dicts.Dict<Value>, shuffled: seq<(string, Value)>, k: string)
    requires Dicts.DistinctKeys(q) && IsShuffleOf(q, shuffled)
    requires OptionKeys(q) != [] && CorrectText(q).Success? && CorrectText(q).value.Some?
    ensures Dicts.DistinctKeys(Shuffled(q, shuffled).value)
    ensures k in Dicts.Keys(Shuffled(q, shuffled).value) && IsUpperWord(k) <==> k in OptionKeys(q)
  {
    var ks, t, base := OptionKeys(q), CorrectText(q).value.value, Stripped(q);
    ShuffledShape(q, shuffled);
    OptionKeysProperties(q);
    var r := Relabel(base, shuffled, ks, t, |ks|);
    Dicts.WithoutDistinct(q, (set k | k in ks) + {"answer"});
    RelabelDistinct(base, shuffled, ks, t, |ks|);
    if k in Dicts.Keys(r) && IsUpperWord(k) {
      KeysRelabel(base, shuffled, ks, t, |ks|, k);
      AnswerNotUpper();
      if k in Dicts.Keys(base) {
        Dicts.GetKeys(base, k);
        Dicts.GetWithout(q, (set k | k in ks) + {"answer"}, k);
        Dicts.GetKeys(q, k);
      }
    }
    if k in ks {
      var i :| 0 <= i < |ks| && ks[i] == k;
      GetRelabelOption(base, shuffled, ks, t, |ks|, i);
      Dicts.GetKeys(r, k);
    }
  }

  /** Shuffling reorders the option texts and loses none. */
  lemma ShuffleTexts(q: Dicts.Dict<Value>, shuffled: seq<(string, Value)>)
    requires IsShuffleOf(q, shuffled)
    ensures multiset(Seqs.Map((p: (string, Value)) => p.1, shuffled)) ==
      multiset(Seqs.Map((p: (string, Value)) => p.1, OptionPairs(q)))
  {
    Seqs.MapPermutation((p: (string, Value)) => p.1, shuffled, OptionPairs(q));
  }

  /** Every field other than the options and `answer` is kept. */
  lemma ShuffleOthers(q: Dicts.Dict<Value>, shuffled: seq<(string, Value)>, k: string)
    requires IsShuffleOf(q, shuffled)
    requires OptionKeys(q) != [] && CorrectText(q).Success? && CorrectText(q).value.Some?
    requires k !in OptionKeys(q) && k != "answer"
    ensures Dicts.Get(Shuffled(q, shuffled).value, k) == Dicts.Get(q, k)
  {
    var ks, t := OptionKeys(q), CorrectText(q).value.value;
    ShuffledShape(q, shuffled);
    GetRelabelOther(Stripped(q), shuffled, ks, t, |ks|, k);
    GetStripped(q, k);
  }

  /** `answer` names the last key whose shuffled text equals the original correct text, if any. */
  lemma ShuffleAnswer(q: Dicts.Dict<Value>, shuffled: seq<(string, Value)>)
    requires IsShuffleOf(q, shuffled)
    requires OptionKeys(q) != [] && CorrectText(q).Success? && CorrectText(q).value.Some?
    ensures |shuffled| == |OptionKeys(q)|
    ensures Dicts.Get(Shuffled(q, shuffled).value, "answer") ==
      match LastMatch(shuffled, CorrectText(q).value.value, |shuffled|)
      case Some(j) => Some(Str(OptionKeys(q)[j]))
      case None => None
  {
    var ks := OptionKeys(q);
    ShuffledShape(q, shuffled);
    GetRelabelAnswer(Stripped(q), shuffled, ks, CorrectText(q).value.value, |ks|);
    Dicts.GetWithout(q, (set k | k in ks) + {"answer"}, "answer");
  }

  /** When `answer` names one of the option keys, the shuffled question always has an answer. */
  lemma ShuffleKeepsAnswer(q: Dicts.Dict<Value>, shuffled: seq<(string, Value)>, a: string)
    requires Dicts.DistinctKeys(q) && IsShuffleOf(q, shuffled)
    requires Dicts.Get(q, "answer") == Some(Str(a)) && a in OptionKeys(q)
    requires Dicts.Get(q, a).Some? && Dicts.Get(q, a).value != Null
    ensures |shuffled| == |OptionKeys(q)|
    ensures Shuffled(q, shuffled).Success?
    ensures exists j ::
      (0 <= j < |OptionKeys(q)| &&
       Dicts.Get(Shuffled(q, shuffled).value, "answer") == Some(Str(OptionKeys(q)[j])) &&
       PyEq(shuffled[j].1, Dicts.Get(q, a).value))
  {
    var ks := OptionKeys(q);
    var t := Dicts.Get(q, a).value;
    CorrectTextOfKey(q, a);
    var i :| 0 <= i < |ks| && ks[i] == a;
    var m := ShuffledHas(q, shuffled, i);
    ShuffleAnswer(q, shuffled);
    var j := LastMatch(shuffled, t, |shuffled|);
    assert j.Some? by { assert PyEq(shuffled[m].1, t); }
  }

  lemma CorrectTextOfKey(q: Dicts.Dict<Value>, a: string)
    requires Dicts.Get(q, "answer") == Some(Str(a))
    requires Dicts.Get(q, a).Some? && Dicts.Get(q, a).value != Null
    ensures CorrectText(q) == Success(Dicts.Get(q, a))
  {
  }

  /** Every option's `(key, text)` pair appears somewhere in the shuffled order. */
  lemma ShuffledHas(q: Dicts.Dict<Value>, shuffled: seq<(string, Value)>, i: nat) returns (m: nat)
    requires IsShuffleOf(q, shuffled) && i < |OptionKeys(q)|
    ensures Dicts.Get(q, OptionKeys(q)[i]).Some?
    ensures m < |shuffled| && shuffled[m] == (OptionKeys(q)[i], Dicts.Get(q, OptionKeys(q)[i]).value)
  {
    OptionKeysProperties(q);
    Dicts.GetKeys(q, OptionKeys(q)[i]);
    var ps := OptionPairs(q);
    assert ps[i] in multiset(ps);
    m :| 0 <= m < |shuffled| && shuffled[m] == ps[i];
  }

  // ---------------------------------------------------------------------------------------
  // Prompt rendering

  /**
   * `f"{v}"`: strings as they are, `None`, booleans and integers as Python prints them; `repr`
   * stands for Python's printing of floats, lists, dicts and other objects.
   */
  function Display(v: Value, repr: Value -> string): string
  {
    match v
    case Str(s) => s
    case Null => "None"
    case Bool(b) => if b then "True" else "False"
    case Int(i) => IntToString(i)
    case _ => repr(v)
  }

  /** The line `f"{k}: {v}"` of a field, for every field except `question` and `answer`. */
  function PromptLine(repr: Value -> string): ((string, Value)) -> Option<string>
  {
    (p: (string, Value)) =>
      if p.0 == "question" || p.0 == "answer" then None else Some(p.0 + ": " + Display(p.1, repr))
  }

  function PromptLines(q: Dicts.Dict<Value>, repr: Value -> string): seq<string>
  {
    Seqs.FilterMap(PromptLine(repr), q)
  }

  /**
   * `q["question"] + "\n" + "\n".join(lines)`: a missing question raises `KeyError`, a question
   * that is not a string cannot be concatenated with `"\n"`.
   */
  function RenderPrompt(q: Dicts.Dict<Value>, repr: Value -> string): (r: Result<string>)
    ensures r.Success? <==> Dicts.Get(q, "question").Some? && Dicts.Get(q, "question").value.Str?
  {
    var question: Option<Value> := Dicts.Get(q, "question");
    match question
    case None => Failure("KeyError: 'question'")
    case Some(Str(s)) => Success(s + "\n" + Join("\n", PromptLines(q, repr)))
    case Some(_) => Failure("TypeError: can only concatenate str to str")
  }

  /** A prompt line is exactly the rendering of a field other than `question` and `answer`. */
  lemma PromptLineMember(q: Dicts.Dict<Value>, repr: Value -> string, line: string)
    ensures line in PromptLines(q, repr) <==>
      exists i :: 0 <= i < |q| && q[i].0 != "question" && q[i].0 != "answer" &&
        line == q[i].0 + ": " + Display(q[i].1, repr)
  {
    Seqs.FilterMapMember(PromptLine(repr), q, line);
  }

  /** One line per field other than `question` and `answer`. */
  lemma PromptLineCount(q: Dicts.Dict<Value>, repr: Value -> string)
    ensures |PromptLines(q, repr)| ==
      Seqs.CountIf((p: (string, Value)) => p.0 != "question" && p.0 != "answer", q)
  {
    Seqs.FilterMapCount(PromptLine(repr), (p: (string, Value)) => p.0 != "question" && p.0 != "answer", q);
  }

  /** The lines follow the dict's order: the fields of `a` come before those of `b`. */
  lemma PromptLineOrder(a: Dicts.Dict<Value>, b: Dicts.Dict<Value>, repr: Value -> string)
    ensures PromptLines(a + b, repr) == PromptLines(a, repr) + PromptLines(b, repr)
  {
    Seqs.FilterMapConcat(PromptLine(repr), a, b);
  }

  // ---------------------------------------------------------------------------------------
  // Answer normalisation and scoring

  /** `s.strip().upper()`, with `up` the Unicode upper-case mapping `str.upper` applies. */
  function Normal(up: char -> string, s: string): string
  {
    Upper(up, Strip(s))
  }

  /** `q["answer"].strip().upper()`; `None` where that raises `KeyError` or `AttributeError`. */
  function CorrectAnswer(q: Dicts.Dict<Value>, up: char -> string): (c: Option<string>)
    ensures c.Some? <==> Dicts.Get(q, "answer").Some? && Dicts.Get(q, "answer").value.Str?
  {
    var answer: Option<Value> := Dicts.Get(q, "answer");
    match answer
    case Some(Str(s)) => Some(Normal(up, s))
    case _ => None
  }

  /** `False if predicted is None else predicted.strip().upper() == correct` */
  predicate IsCorrect(predicted: Option<string>, correct: string, up: char -> string)
  {
    predicted.Some? && Normal(up, predicted.value) == correct
  }

  /** Normalising twice is normalising once. */
  lemma NormalIdempotent(up: char -> string, s: string)
    requires IsCaseMap(up)
    ensures Normal(up, Normal(up, s)) == Normal(up, s)
  {
    hide IsCaseMap, Upper, Strip, IsSpace;
    var u := Strip(s);
    var t := Upper(up, u);
    UpperEnds(up, u);
    StripOfStripped(t);
    UpperIdempotent(up, u);
  }

  /**
   * No prediction is ever correct; a prediction is correct exactly when it equals the correct
   * answer once both are stripped and upper-cased, so the answer itself always scores.
   */
  lemma ScoringMatchesNormalForm(up: char -> string, predicted: Option<string>, answer: string)
    requires IsCaseMap(up)
    ensures !IsCorrect(None, Normal(up, answer), up)
    ensures predicted.Some? ==>
      (IsCorrect(predicted, Normal(up, answer), up) <==> Normal(up, predicted.value) == Normal(up, answer))
    ensures IsCorrect(Some(answer), Normal(up, answer), up) && IsCorrect(Some(Normal(up, answer)), Normal(up, answer), up)
  {
    NormalIdempotent(up, answer);
  }

  // ---------------------------------------------------------------------------------------
  // Thinking tags

  /**
   * A thinking tag as `.get` reads it: falsy (unset, `None`, `""`, `0`, ...), a non-empty
   * string, or a truthy value that is not a string, on which `in` and `re.escape` raise.
   */
  datatype Tag = Unset | TagText(text: string) | NonString

  /** `thinking_start_tag` and `thinking_end_tag` of the `model` section. */
  datatype Tags = Tags(start: Tag, end: Tag)

  /** The split runs only without provider reasoning, with an end tag, and on content that holds it. */
  predicate SplitApplies(content: Option<string>, reasoning: Option<string>, endTag: Tag)
  {
    reasoning.None? && endTag.TagText? && endTag.text != [] && content.Some? && content.value != []
    && Contains(content.value, endTag.text)
  }

  /**
   * Processing a reply raises `TypeError`: a truthy end tag that is not a string reaches the
   * `in` test once the reply has no provider reasoning and some content, and a truthy start
   * tag that is not a string reaches `re.escape` once the split applies.
   */
  predicate TagRaises(content: Option<string>, reasoning: Option<string>, tags: Tags)
  {
    reasoning.None? && content.Some? && content.value != [] &&
    (tags.end.NonString? || (SplitApplies(content, reasoning, tags.end) && tags.start.NonString?))
  }

  /**
   * Only a tag that is not a string raises: a bad end tag on every reply with content and no
   * provider reasoning, a bad start tag (with a good end tag) exactly where the split applies.
   */
  lemma TagRaisesCases(content: Option<string>, reasoning: Option<string>, tags: Tags)
    ensures TagRaises(content, reasoning, tags) ==> tags.end.NonString? || tags.start.NonString?
    ensures tags.end.NonString? ==>
      (TagRaises(content, reasoning, tags) <==> reasoning.None? && content.Some? && content.value != [])
    ensures !tags.end.NonString? && tags.start.NonString? ==>
      (TagRaises(content, reasoning, tags) <==> SplitApplies(content, reasoning, tags.end))
  {
  }

  /**
   * The thinking text `c[a..k]`: it starts at 0 or right after a leading start tag, and `k` is
   * the first occurrence of the end tag from `a` on.
   */
  predicate IsThinkSpan(c: string, startTag: Tag, e: string, a: nat, k: nat)
  {
    a <= k && OccursAt(c, e, k) && (forall j :: a <= j < k ==> !OccursAt(c, e, j)) &&
    (a == 0 || (startTag.TagText? && a == |startTag.text| && StartsWith(c, startTag.text)))
  }

  /**
   * Where the thinking text starts and where the end tag closing it sits. `S(.*?)E|^(.*?)E`
   * always matches at position 0: after the start tag when the text begins with it and an end
   * tag follows, else from the beginning. `(S)?.*?E` removes the same prefix.
   */
  function ThinkSpan(c: string, startTag: Tag, e: string): (span: (nat, nat))
    requires Contains(c, e)
    ensures IsThinkSpan(c, startTag, e, span.0, span.1)
  {
    if startTag.TagText? && startTag.text != [] && StartsWith(c, startTag.text)
       && Contains(c[|startTag.text|..], e) then
      var a := |startTag.text|;
      var k := IndexOf(c[a..], e).value;
      OccursShift(c, e, a, k);
      assert forall j :: a <= j < a + k ==> !OccursAt(c, e, j) by {
        forall j | a <= j < a + k ensures !OccursAt(c, e, j) {
          OccursShift(c, e, a, j - a);
        }
      }
      (a, a + k)
    else
      (0, IndexOf(c, e).value)
  }

  /**
   * The split at the span `c[a..k]` closed by the end tag `e` at `k`: the stripped text after the
   * tag becomes the content and the stripped span the reasoning.
   */
  function Cut(c: string, e: string, a: nat, k: nat): (Option<string>, Option<string>)
    requires a <= k && k + |e| <= |c|
  {
    (Some(Strip(c[k + |e|..])), Some(Strip(c[a..k])))
  }

  /**
   * `(content, reasoning)` after the thinking split of `evaluate_file`, for a reply on which
   * the tags do not raise (`TagRaises`).
   */
  function SplitThink(content: Option<string>, reasoning: Option<string>, tags: Tags): (Option<string>, Option<string>)
  {
    if SplitApplies(content, reasoning, tags.end) then
      var c, e := content.value, tags.end.text;
      var span := ThinkSpan(c, tags.start, e);
      Cut(c, e, span.0, span.1)
    else (content, reasoning)
  }

  /**
   * When the split runs, the reasoning is the stripped text before the first end tag that
   * follows an optional leading start tag, and the content is the stripped text after that tag;
   * otherwise both are left as the provider returned them.
   */
  lemma SplitThinkParts(content: Option<string>, reasoning: Option<string>, tags: Tags)
    ensures !SplitApplies(content, reasoning, tags.end) ==>
      SplitThink(content, reasoning, tags) == (content, reasoning)
    ensures SplitApplies(content, reasoning, tags.end) ==>
      var c, e := content.value, tags.end.text;
      exists a: nat, k: nat :: IsThinkSpan(c, tags.start, e, a, k) &&
        SplitThink(content, reasoning, tags) == Cut(c, e, a, k)
  {
    if SplitApplies(content, reasoning, tags.end) {
      var c, e := content.value, tags.end.text;
      var span := ThinkSpan(c, tags.start, e);
      assert IsThinkSpan(c, tags.start, e, span.0, span.1);
      assert SplitThink(content, reasoning, tags) == Cut(c, e, span.0, span.1);
    }
  }

  /** Without a leading start tag the reasoning is everything before the very first end tag. */
  lemma SplitThinkNoStart(content: Option<string>, reasoning: Option<string>, tags: Tags)
    requires SplitApplies(content, reasoning, tags.end)
    requires !tags.start.TagText? || !StartsWith(content.value, tags.start.text)
    ensures SplitThink(content, reasoning, tags) ==
      Cut(content.value, tags.end.text, 0, IndexOf(content.value, tags.end.text).value)
  {
    var c, e := content.value, tags.end.text;
    var span := ThinkSpan(c, tags.start, e);
    assert span == (0, IndexOf(c, e).value);
  }

  /** The split only ever shortens the content, and leaves no surrounding whitespace. */
  lemma CutShape(c: string, e: string, a: nat, k: nat)
    requires a <= k && k + |e| <= |c|
    ensures var (content, reasoning) := Cut(c, e, a, k);
      content.Some? && reasoning.Some? &&
      |content.value| + |reasoning.value| + |e| <= |c| &&
      (content.value == [] || (!IsSpace(content.value[0]) && !IsSpace(content.value[|content.value| - 1])))
  {
  }

  // ---------------------------------------------------------------------------------------
  // Settings

  /**
   * What `evaluate_file` reads from the configuration. The tags are read from `config["model"]`
   * when the first reply is processed, so their failure only matters once a reply arrives.
   */
  datatype Settings = Settings(shuffle: bool, tags: Result<Tags>)

  /** A tag read with `.get`: a missing or falsy value is no tag. */
  function TagOf(v: Option<Value>): (t: Tag)
    ensures t.Unset? <==> v.None? || !Truthy(v.value)
    ensures t.TagText? <==> v.Some? && v.value.Str? && v.value.s != []
    ensures t.TagText? ==> t.text == v.value.s
    ensures t.NonString? <==> v.Some? && Truthy(v.value) && !v.value.Str?
  {
    match v
    case None => Unset
    case Some(x) => if !Truthy(x) then Unset else if x.Str? then TagText(x.s) else NonString
  }

  /** `self.config[section]`, as the receiver of a `.get`. */
  function Section(config: Dicts.Dict<Value>, name: string): (r: Result<Value>)
    ensures r.Success? <==> Dicts.Get(config, name).Some? && Dicts.Get(config, name).value.Object?
  {
    var v: Option<Value> := Dicts.Get(config, name);
    match v
    case None => Failure("KeyError: '" + name + "'")
    case Some(Object(fields)) => Success(Object(fields))
    case Some(_) => Failure("AttributeError: 'get'")
  }

  /**
   * `config["evaluation"].get("shuffle_options", False)` and the thinking tags of
   * `config["model"]`.
   */
  function ReadSettings(config: Dicts.Dict<Value>): Result<Settings>
  {
    match Section(config, "evaluation")
    case Failure(e) => Failure(e)
    case Success(evaluation) =>
      var tags := match Section(config, "model")
        case Failure(e) => Failure(e)
        case Success(model) =>
          Success(Tags(TagOf(Member(model, "thinking_start_tag")), TagOf(Member(model, "thinking_end_tag"))));
      Success(Settings(Truthy(Member(evaluation, "shuffle_options").GetOr(Bool(false))), tags))
  }

  /**
   * Thinking tags written into the `evaluation` section (where the configuration defaults put
   * them) have no effect: only the `model` section is read.
   */
  lemma EvaluationTagsIgnored(config: Dicts.Dict<Value>, evaluation: Dicts.Dict<Value>, key: string, tag: Value)
    requires key == "thinking_start_tag" || key == "thinking_end_tag"
    ensures var before := Dicts.Put(config, "evaluation", Object(evaluation));
      var after := Dicts.Put(config, "evaluation", Object(Dicts.Put(evaluation, key, tag)));
      ReadSettings(before).Success? && ReadSettings(after).Success? &&
      ReadSettings(before).value.tags == ReadSettings(after).value.tags
  {
    Dicts.GetPut(config, "evaluation", Object(evaluation), "model");
    Dicts.GetPut(config, "evaluation", Object(Dicts.Put(evaluation, key, tag)), "model");
    Dicts.GetPut(config, "evaluation", Object(evaluation), "evaluation");
    Dicts.GetPut(config, "evaluation", Object(Dicts.Put(evaluation, key, tag)), "evaluation");
  }

  // ---------------------------------------------------------------------------------------
  // Submitting the questions

  /** The part of an LLM reply the evaluator reads. */
  datatype Completion = Completion(content: Option<string>, reasoning: Option<string>, usage: Usage)

  /** `future_to_data[future]`: the prompt, the normalised answer and the question's position. */
  datatype Task = Task(prompt: string, correct: string, id: nat)

  /** `shuffles[i]` is the order `random.shuffle` gives the options of question `i`. */
  predicate Shuffles(questions: seq<Dicts.Dict<Value>>, shuffles: seq<seq<(string, Value)>>)
  {
    |shuffles| == |questions| && forall i :: 0 <= i < |questions| ==> IsShuffleOf(questions[i], shuffles[i])
  }

  /** The question as the evaluator sends it: shuffled when shuffling is on. */
  function Prepared(q: Dicts.Dict<Value>, shuffle: bool, shuffled: seq<(string, Value)>): Result<Dicts.Dict<Value>>
    requires IsShuffleOf(q, shuffled)
  {
    if shuffle then Shuffled(q, shuffled) else Success(q)
  }

  /**
   * One pass of the submitting loop: a failing shuffle or prompt raises; a question without a
   * string answer is skipped; any other question becomes a task.
   */
  function Submission(q: Dicts.Dict<Value>, shuffle: bool, shuffled: seq<(string, Value)>,
                      repr: Value -> string, up: char -> string, idx: nat): Result<Option<Task>>
    requires IsShuffleOf(q, shuffled)
  {
    match Prepared(q, shuffle, shuffled)
    case Failure(e) => Failure(e)
    case Success(p) =>
      match RenderPrompt(p, repr)
      case Failure(e) => Failure(e)
      case Success(prompt) =>
        match CorrectAnswer(p, up)
        case None => Success(None)
        case Some(c) => Success(Some(Task(prompt, c, idx)))
  }

  /** The pass of the submitting loop over each question. */
  function Steps(questions: seq<Dicts.Dict<Value>>, shuffle: bool, shuffles: seq<seq<(string, Value)>>,
                 repr: Value -> string, up: char -> string): (r: seq<Result<Option<Task>>>)
    requires Shuffles(questions, shuffles)
    ensures |r| == |questions|
    ensures forall i :: 0 <= i < |questions| ==> r[i] == Submission(questions[i], shuffle, shuffles[i], repr, up, i)
  {
    seq(|questions|, i requires 0 <= i < |questions| => Submission(questions[i], shuffle, shuffles[i], repr, up, i))
  }

  /** The submitting loop: the `Task` (if any) submitted at each position, or the first error raised. */
  function Submissions(questions: seq<Dicts.Dict<Value>>, shuffle: bool, shuffles: seq<seq<(string, Value)>>,
                       repr: Value -> string, up: char -> string): Result<seq<Option<Task>>>
    requires Shuffles(questions, shuffles)
  {
    Seqs.AllOf(Steps(questions, shuffle, shuffles, repr, up))
  }

  /**
   * The loop succeeds exactly when no question raises, and then position `i` holds question
   * `i`'s task, if any.
   */
  lemma SubmissionsSuccess(questions: seq<Dicts.Dict<Value>>, shuffle: bool,
                           shuffles: seq<seq<(string, Value)>>, repr: Value -> string, up: char -> string)
    requires Shuffles(questions, shuffles)
    ensures Submissions(questions, shuffle, shuffles, repr, up).Success? <==>
      forall i :: 0 <= i < |questions| ==> Submission(questions[i], shuffle, shuffles[i], repr, up, i).Success?
    ensures Submissions(questions, shuffle, shuffles, repr, up).Success? ==>
      var slots := Submissions(questions, shuffle, shuffles, repr, up).value;
      |slots| == |questions| &&
      forall i :: 0 <= i < |questions| ==> slots[i] == Submission(questions[i], shuffle, shuffles[i], repr, up, i).value
  {
    Seqs.AllOfSuccess(Steps(questions, shuffle, shuffles, repr, up));
  }

  /** A failing loop raises the error of the first question that raises. */
  lemma SubmissionsFailure(questions: seq<Dicts.Dict<Value>>, shuffle: bool,
                           shuffles: seq<seq<(string, Value)>>, repr: Value -> string, up: char -> string)
    requires Shuffles(questions, shuffles)
    requires Submissions(questions, shuffle, shuffles, repr, up).Failure?
    ensures exists i :: (0 <= i < |questions| &&
      Submission(questions[i], shuffle, shuffles[i], repr, up, i) == Failure(Submissions(questions, shuffle, shuffles, repr, up).error) &&
      forall j :: 0 <= j < i ==> Submission(questions[j], shuffle, shuffles[j], repr, up, j).Success?)
  {
    var steps := Steps(questions, shuffle, shuffles, repr, up);
    assert Submissions(questions, shuffle, shuffles, repr, up) == Seqs.AllOf(steps);
    hide Submission, Submissions, Seqs.AllOf, Steps;
    Seqs.AllOfFailure(steps);
    var i :| 0 <= i < |steps| && steps[i] == Failure(Seqs.AllOf(steps).error) &&
             forall j :: 0 <= j < i ==> steps[j].Success?;
    assert Submission(questions[i], shuffle, shuffles[i], repr, up, i) == steps[i];
  }

  /** What a submitted task holds, and which questions are skipped. */
  lemma SubmissionShape(q: Dicts.Dict<Value>, shuffle: bool, shuffled: seq<(string, Value)>,
                        repr: Value -> string, up: char -> string, idx: nat)
    requires IsShuffleOf(q, shuffled)
    requires Submission(q, shuffle, shuffled, repr, up, idx).Success?
    ensures Prepared(q, shuffle, shuffled).Success?
    ensures var p := Prepared(q, shuffle, shuffled).value;
      var t := Submission(q, shuffle, shuffled, repr, up, idx).value;
      (t.Some? <==> Dicts.Get(p, "answer").Some? && Dicts.Get(p, "answer").value.Str?) &&
      (t.Some? ==> t.value == Task(RenderPrompt(p, repr).value, CorrectAnswer(p, up).value, idx))
  {
  }

  // ---------------------------------------------------------------------------------------
  // Collecting the replies

  /** The record `evaluate_file` logs for a task and its reply. */
  function RecordOf(task: Task, reply: Completion, tags: Tags,
                    extract: Option<string> -> Option<string>, up: char -> string): (r: AnswerRecord)
  {
    var (content, reasoning) := SplitThink(reply.content, reply.reasoning, tags);
    var predicted := extract(content);
    AnswerRecord(Some(task.id), task.prompt, task.correct, content, reasoning, predicted,
                 IsCorrect(predicted, task.correct, up), reply.usage, None, None)
  }

  /** A logged record belongs to its task, is scored against its answer and names no source file. */
  lemma RecordOfShape(task: Task, reply: Completion, tags: Tags, extract: Option<string> -> Option<string>, up: char -> string)
    ensures var r := RecordOf(task, reply, tags, extract, up);
      r.questionId == Some(task.id as int) && r.question == task.prompt && r.correctAnswer == task.correct &&
      r.predicted == extract(r.llmOutput) && r.isCorrect == IsCorrect(r.predicted, task.correct, up) &&
      (r.predicted.None? ==> !r.isCorrect) && r.usage == reply.usage &&
      r.sourceFile.None? && r.file.None? &&
      (r.llmOutput, r.reasoning) == SplitThink(reply.content, reply.reasoning, tags)
  {
  }

  /** Position `idx` was submitted. */
  predicate Submitted(slots: seq<Option<Task>>, idx: nat)
  {
    idx < |slots| && slots[idx].Some?
  }

  /** Position `idx` was submitted but its call raised, so `future.result()` re-raises. */
  predicate Unanswered(slots: seq<Option<Task>>, replies: seq<Option<Completion>>, idx: nat)
  {
    Submitted(slots, idx) && (idx >= |replies| || replies[idx].None?)
  }

  /** The record of position `idx`, when it was submitted and answered. */
  function Reply(slots: seq<Option<Task>>, replies: seq<Option<Completion>>, tags: Tags,
                 extract: Option<string> -> Option<string>, up: char -> string, idx: nat): Option<AnswerRecord>
  {
    if Submitted(slots, idx) && idx < |replies| && replies[idx].Some? then
      Some(RecordOf(slots[idx].value, replies[idx].value, tags, extract, up))
    else None
  }

  /** Position `idx` was answered, but the tags raise on its reply. */
  predicate TagTypeError(slots: seq<Option<Task>>, replies: seq<Option<Completion>>, tags: Tags, idx: nat)
  {
    Submitted(slots, idx) && idx < |replies| && replies[idx].Some? &&
    TagRaises(replies[idx].value.content, replies[idx].value.reasoning, tags)
  }

  /** A position that holds a submitted task. */
  predicate IsTask(slot: Option<Task>)
  {
    slot.Some?
  }

  /** Processing position `idx` raises nothing. */
  predicate Passes(slots: seq<Option<Task>>, replies: seq<Option<Completion>>, tags: Result<Tags>, idx: nat)
  {
    !Unanswered(slots, replies, idx) &&
    if tags.Success? then !TagTypeError(slots, replies, tags.value, idx) else !Submitted(slots, idx)
  }

  function Replies(slots: seq<Option<Task>>, replies: seq<Option<Completion>>, tags: Tags,
                   extract: Option<string> -> Option<string>, up: char -> string): nat -> Option<AnswerRecord>
  {
    (idx: nat) => Reply(slots, replies, tags, extract, up, idx)
  }

  /**
   * The loop over `as_completed(future_tasks)`, with the replies arriving in `order` (an ordering
   * of the question positions; positions that were not submitted are passed over). A call that
   * raised re-raises; tags that cannot be read raise once a reply is processed, and a tag that
   * is not a string raises on a reply it is applied to. When several of these occur, the call
   * that raised is the one reported.
   */
  function Collected(slots: seq<Option<Task>>, replies: seq<Option<Completion>>, tags: Result<Tags>,
                     extract: Option<string> -> Option<string>, up: char -> string, order: seq<nat>): Result<seq<AnswerRecord>>
  {
    if exists i :: 0 <= i < |order| && Unanswered(slots, replies, order[i]) then Failure("the LLM call raised")
    else
      match tags
      case Failure(e) =>
        if exists i :: 0 <= i < |order| && Submitted(slots, order[i]) then Failure(e) else Success([])
      case Success(t) =>
        if exists i :: 0 <= i < |order| && TagTypeError(slots, replies, t, order[i]) then
          Failure("TypeError: a thinking tag is not a string")
        else Success(Seqs.FilterMap(Replies(slots, replies, t, extract, up), order))
  }

  /** `evaluate_file` up to the answer log: the records it logs, in completion order. */
  function Evaluation(questions: seq<Dicts.Dict<Value>>, config: Dicts.Dict<Value>,
                      shuffles: seq<seq<(string, Value)>>, repr: Value -> string, up: char -> string,
                      replies: seq<Option<Completion>>, order: seq<nat>,
                      extract: Option<string> -> Option<string>): Result<seq<AnswerRecord>>
    requires Shuffles(questions, shuffles)
    requires multiset(order) == multiset(Seqs.Range(|questions|))
  {
    match ReadSettings(config)
    case Failure(e) => Failure(e)
    case Success(settings) =>
      match Submissions(questions, settings.shuffle, shuffles, repr, up)
      case Failure(e) => Failure(e)
      case Success(slots) => Collected(slots, replies, settings.tags, extract, up, order)
  }

  function Hit(r: AnswerRecord): bool
  {
    r.isCorrect
  }

  /** `total_correct / total_questions if total_questions else 0` */
  function Accuracy(records: seq<AnswerRecord>): (a: real)
    ensures 0.0 <= a <= 1.0
    ensures records == [] ==> a == 0.0
  {
    Seqs.CountIfBound(Hit, records);
    if |records| == 0 then 0.0 else Seqs.CountIf(Hit, records) as real / |records| as real
  }

  /**
   * The completion order does not matter: two orders of the same positions raise alike, log
   * the same records (in another order) and give the same accuracy.
   */
  lemma CollectedOrderIndependent(slots: seq<Option<Task>>, replies: seq<Option<Completion>>, tags: Result<Tags>,
                                  extract: Option<string> -> Option<string>, up: char -> string, o1: seq<nat>, o2: seq<nat>)
    requires multiset(o1) == multiset(o2)
    ensures Collected(slots, replies, tags, extract, up, o1).Success? == Collected(slots, replies, tags, extract, up, o2).Success?
    ensures Collected(slots, replies, tags, extract, up, o1).Success? ==>
      var r1, r2 := Collected(slots, replies, tags, extract, up, o1).value, Collected(slots, replies, tags, extract, up, o2).value;
      multiset(r1) == multiset(r2) && Accuracy(r1) == Accuracy(r2)
  {
    CollectedSameOutcome(slots, replies, tags, extract, up, o1, o2);
    if Collected(slots, replies, tags, extract, up, o1).Success? && tags.Success? {
      var f := Replies(slots, replies, tags.value, extract, up);
      assert Collected(slots, replies, tags, extract, up, o1).value == Seqs.FilterMap(f, o1);
      assert Collected(slots, replies, tags, extract, up, o2).value == Seqs.FilterMap(f, o2);
      hide Collected, Replies;
      Seqs.FilterMapPermutation(f, o1, o2);
      var r1, r2 := Seqs.FilterMap(f, o1), Seqs.FilterMap(f, o2);
      Seqs.CountIfPermutation(Hit, r1, r2);
      assert |r1| == |multiset(r1)| == |multiset(r2)| == |r2|;
    }
  }

  /** Two orders of the same positions raise alike. */
  lemma CollectedSameOutcome(slots: seq<Option<Task>>, replies: seq<Option<Completion>>, tags: Result<Tags>,
                             extract: Option<string> -> Option<string>, up: char -> string, o1: seq<nat>, o2: seq<nat>)
    requires multiset(o1) == multiset(o2)
    ensures Collected(slots, replies, tags, extract, up, o1).Success? == Collected(slots, replies, tags, extract, up, o2).Success?
  {
    SameUnanswered(slots, replies, o1, o2);
    SameUnanswered(slots, replies, o2, o1);
    SameSubmitted(slots, o1, o2);
    SameSubmitted(slots, o2, o1);
    if tags.Success? {
      SameTagTypeError(slots, replies, tags.value, o1, o2);
      SameTagTypeError(slots, replies, tags.value, o2, o1);
    }
  }

  lemma SameUnanswered(slots: seq<Option<Task>>, replies: seq<Option<Completion>>, o1: seq<nat>, o2: seq<nat>)
    requires multiset(o1) == multiset(o2)
    ensures (exists i :: 0 <= i < |o1| && Unanswered(slots, replies, o1[i])) ==>
      exists j :: 0 <= j < |o2| && Unanswered(slots, replies, o2[j])
  {
    if exists i :: 0 <= i < |o1| && Unanswered(slots, replies, o1[i]) {
      var i :| 0 <= i < |o1| && Unanswered(slots, replies, o1[i]);
      assert o1[i] in multiset(o2);
      var j :| 0 <= j < |o2| && o2[j] == o1[i];
    }
  }

  lemma SameTagTypeError(slots: seq<Option<Task>>, replies: seq<Option<Completion>>, tags: Tags, o1: seq<nat>, o2: seq<nat>)
    requires multiset(o1) == multiset(o2)
    ensures (exists i :: 0 <= i < |o1| && TagTypeError(slots, replies, tags, o1[i])) ==>
      exists j :: 0 <= j < |o2| && TagTypeError(slots, replies, tags, o2[j])
  {
    if exists i :: 0 <= i < |o1| && TagTypeError(slots, replies, tags, o1[i]) {
      var i :| 0 <= i < |o1| && TagTypeError(slots, replies, tags, o1[i]);
      assert o1[i] in multiset(o2);
      var j :| 0 <= j < |o2| && o2[j] == o1[i];
    }
  }

  lemma SameSubmitted(slots: seq<Option<Task>>, o1: seq<nat>, o2: seq<nat>)
    requires multiset(o1) == multiset(o2)
    ensures (exists i :: 0 <= i < |o1| && Submitted(slots, o1[i])) ==>
      exists j :: 0 <= j < |o2| && Submitted(slots, o2[j])
  {
    if exists i :: 0 <= i < |o1| && Submitted(slots, o1[i]) {
      var i :| 0 <= i < |o1| && Submitted(slots, o1[i]);
      assert o1[i] in multiset(o2);
      var j :| 0 <= j < |o2| && o2[j] == o1[i];
    }
  }

  /** Each logged record is the record of one submitted and answered position of `order`. */
  lemma CollectedFrom(slots: seq<Option<Task>>, replies: seq<Option<Completion>>, tags: Result<Tags>,
                      extract: Option<string> -> Option<string>, up: char -> string, order: seq<nat>, r: AnswerRecord)
    requires Collected(slots, replies, tags, extract, up, order).Success?
    ensures r in Collected(slots, replies, tags, extract, up, order).value <==>
      tags.Success? &&
      exists i :: 0 <= i < |order| && Submitted(slots, order[i]) &&
        r == RecordOf(slots[order[i]].value, replies[order[i]].value, tags.value, extract, up)
  {
    if tags.Success? {
      var f := Replies(slots, replies, tags.value, extract, up);
      Seqs.FilterMapMember(f, order, r);
      if r in Seqs.FilterMap(f, order) {
        var i :| 0 <= i < |order| && f(order[i]) == Some(r);
        assert !Unanswered(slots, replies, order[i]);
      }
    }
  }

  // ---------------------------------------------------------------------------------------
  // evaluate_file

  /** One pass of the submitting loop; a submitted question first waits for the rate limiter. */
  method SubmitOne(q: Dicts.Dict<Value>, shuffle: bool, shuffled: seq<(string, Value)>, repr: Value -> string, up: char -> string,
                   idx: nat, limiter: RateLimiter, now: real, overrun: real)
    returns (r: Result<Option<Task>>)
    requires IsShuffleOf(q, shuffled) && overrun >= 0.0
    modifies limiter
    ensures limiter.noLimit == old(limiter.noLimit) && limiter.interval == old(limiter.interval)
    ensures r == Submission(q, shuffle, shuffled, repr, up, idx)
  {
    var p := q;
    if shuffle {
      var s := ShuffleQuestionOptions(q, shuffled);
      if s.Failure? {
        return Failure(s.error);
      }
      p := s.value;
    }
    var prompt := RenderPrompt(p, repr);
    if prompt.Failure? {
      return Failure(prompt.error);
    }
    var correct := CorrectAnswer(p, up);
    if correct.None? {
      return Success(None);
    }
    var slept := limiter.Wait(now, overrun);
    return Success(Some(Task(prompt.value, correct.value, idx)));
  }

  /**
   * The submitting loop of `evaluate_file`: `clock[i]` is the time at which question `i` reaches
   * the rate limiter and the overrun of its sleep.
   */
  method SubmitAll(questions: seq<Dicts.Dict<Value>>, shuffle: bool, shuffles: seq<seq<(string, Value)>>,
                   repr: Value -> string, up: char -> string, limiter: RateLimiter, clock: seq<(real, real)>)
    returns (r: Result<seq<Option<Task>>>)
    requires Shuffles(questions, shuffles)
    requires |clock| == |questions| && forall i :: 0 <= i < |clock| ==> clock[i].1 >= 0.0
    modifies limiter
    ensures limiter.noLimit == old(limiter.noLimit) && limiter.interval == old(limiter.interval)
    ensures r == Submissions(questions, shuffle, shuffles, repr, up)
  {
    ghost var steps := Steps(questions, shuffle, shuffles, repr, up);
    var slots: seq<Option<Task>> := [];
    var idx := 0;
    while idx < |questions|
      invariant 0 <= idx <= |questions|
      invariant Seqs.AllOf(steps[..idx]) == Success(slots)
      invariant limiter.noLimit == old(limiter.noLimit) && limiter.interval == old(limiter.interval)
    {
      var step := SubmitOne(questions[idx], shuffle, shuffles[idx], repr, up, idx, limiter, clock[idx].0, clock[idx].1);
      assert steps[idx] == step;
      Seqs.AllOfStep(steps, idx, slots);
      if step.Failure? {
        Seqs.AllOfPrefix(steps, idx + 1);
        assert steps[..|steps|] == steps;
        return Failure(step.error);
      }
      slots := slots + [step.value];
      idx := idx + 1;
    }
    assert steps[..idx] == steps;
    return Success(slots);
  }

  /**
   * The loop over the completed calls, in completion order, with the running `total_correct`
   * and `total_questions`: it raises exactly when `Collected` does, and otherwise returns the
   * records `Collected` gives and their accuracy.
   */
  method CollectReplies(slots: seq<Option<Task>>, replies: seq<Option<Completion>>, tags: Result<Tags>,
                        extract: Option<string> -> Option<string>, up: char -> string, order: seq<nat>)
    returns (r: Result<(seq<AnswerRecord>, real)>)
    ensures Collected(slots, replies, tags, extract, up, order).Failure? ==> r.Failure?
    ensures Collected(slots, replies, tags, extract, up, order).Success? ==>
      var records := Collected(slots, replies, tags, extract, up, order).value;
      r == Success((records, Accuracy(records)))
  {
    ghost var t := if tags.Success? then tags.value else Tags(Unset, Unset);
    ghost var f := Replies(slots, replies, t, extract, up);
    hide RecordOf, Collected, TagRaises;
    var detailed: seq<AnswerRecord> := [];
    var totalCorrect, totalQuestions := 0, 0;
    var j := 0;
    while j < |order|
      invariant 0 <= j <= |order|
      invariant forall i :: 0 <= i < j ==> Passes(slots, replies, tags, order[i])
      invariant detailed == Seqs.FilterMap(f, order[..j])
      invariant totalCorrect == Seqs.CountIf(Hit, detailed) && totalQuestions == |detailed|
    {
      var pos := order[j];
      CollectStep(f, order, j, detailed);
      assert f(pos) == Reply(slots, replies, t, extract, up, pos);
      if pos < |slots| && slots[pos].Some? {
        if pos >= |replies| || replies[pos].None? {
          CollectedRaises(slots, replies, tags, extract, up, order, j);
          return Failure("the LLM call raised");
        }
        if tags.Failure? {
          CollectedTagsRaise(slots, replies, tags, extract, up, order, j);
          return Failure(tags.error);
        }
        var reply := replies[pos].value;
        if TagRaises(reply.content, reply.reasoning, tags.value) {
          CollectedTagTypeError(slots, replies, tags.value, extract, up, order, j);
          return Failure("TypeError: a thinking tag is not a string");
        }
        var record := RecordOf(slots[pos].value, replies[pos].value, tags.value, extract, up);
        assert f(pos) == Some(record);
        assert Passes(slots, replies, tags, pos);
        if record.isCorrect {
          totalCorrect := totalCorrect + 1;
        }
        totalQuestions := totalQuestions + 1;
        detailed := detailed + [record];
      } else {
        assert Passes(slots, replies, tags, pos);
      }
      j := j + 1;
    }
    assert order[..j] == order;
    CollectedOk(slots, replies, tags, extract, up, order);
    var accuracy := if totalQuestions == 0 then 0.0 else totalCorrect as real / totalQuestions as real;
    return Success((detailed, accuracy));
  }

  /** One step of the collection loop: the reply at `order[j]`, if there is one, is appended and counted. */
  lemma CollectStep(f: nat -> Option<AnswerRecord>, order: seq<nat>, j: nat, detailed: seq<AnswerRecord>)
    requires j < |order| && detailed == Seqs.FilterMap(f, order[..j])
    ensures f(order[j]).None? ==> Seqs.FilterMap(f, order[..j + 1]) == detailed
    ensures f(order[j]).Some? ==>
      var record := f(order[j]).value;
      Seqs.FilterMap(f, order[..j + 1]) == detailed + [record] &&
      Seqs.CountIf(Hit, detailed + [record]) == Seqs.CountIf(Hit, detailed) + (if record.isCorrect then 1 else 0)
  {
    Seqs.FilterMapSnoc(f, order, j);
    if f(order[j]).Some? {
      var record := f(order[j]).value;
      Seqs.CountIfConcat(Hit, detailed, [record]);
      assert [record][1..] == [];
    }
  }

  /** A call that raised fails the collection. */
  lemma CollectedRaises(slots: seq<Option<Task>>, replies: seq<Option<Completion>>, tags: Result<Tags>,
                        extract: Option<string> -> Option<string>, up: char -> string, order: seq<nat>, j: nat)
    requires j < |order| && Unanswered(slots, replies, order[j])
    ensures Collected(slots, replies, tags, extract, up, order).Failure?
  {
  }

  /** Unreadable tags fail the collection once a reply is processed. */
  lemma CollectedTagsRaise(slots: seq<Option<Task>>, replies: seq<Option<Completion>>, tags: Result<Tags>,
                           extract: Option<string> -> Option<string>, up: char -> string, order: seq<nat>, j: nat)
    requires j < |order| && tags.Failure? && Submitted(slots, order[j])
    ensures Collected(slots, replies, tags, extract, up, order).Failure?
  {
  }

  /**
   * A tag that is not a string fails the collection once a reply it raises on is processed:
   * `_thinking_end_tag in content` and `re.escape` raise `TypeError` inside the loop.
   */
  lemma CollectedTagTypeError(slots: seq<Option<Task>>, replies: seq<Option<Completion>>, tags: Tags,
                              extract: Option<string> -> Option<string>, up: char -> string, order: seq<nat>, j: nat)
    requires j < |order| && TagTypeError(slots, replies, tags, order[j])
    ensures Collected(slots, replies, Success(tags), extract, up, order).Failure?
  {
  }

  /**
   * With every call answered, tags readable or nothing submitted, and no reply on which the
   * tags raise, the records are the filtered replies.
   */
  lemma CollectedOk(slots: seq<Option<Task>>, replies: seq<Option<Completion>>, tags: Result<Tags>,
                    extract: Option<string> -> Option<string>, up: char -> string, order: seq<nat>)
    requires forall i :: 0 <= i < |order| ==> Passes(slots, replies, tags, order[i])
    ensures Collected(slots, replies, tags, extract, up, order) ==
      Success(Seqs.FilterMap(Replies(slots, replies, if tags.Success? then tags.value else Tags(Unset, Unset), extract, up), order))
  {
    forall i | 0 <= i < |order| ensures !Unanswered(slots, replies, order[i]) {
      assert Passes(slots, replies, tags, order[i]);
    }
    if tags.Failure? {
      var f := Replies(slots, replies, Tags(Unset, Unset), extract, up);
      forall i | 0 <= i < |order| ensures f(order[i]).None? {
        assert Passes(slots, replies, tags, order[i]);
      }
      assert !exists i :: 0 <= i < |order| && Submitted(slots, order[i]) by {
        forall i | 0 <= i < |order| ensures !Submitted(slots, order[i]) {
          assert Passes(slots, replies, tags, order[i]);
        }
      }
      Seqs.FilterMapNone(f, order);
    } else {
      forall i | 0 <= i < |order| ensures !TagTypeError(slots, replies, tags.value, order[i]) {
        assert Passes(slots, replies, tags, order[i]);
      }
    }
  }
  /**
   * A successful collection over a reordering of all positions raised at none of them, so every
   * submitted position was answered.
   */
  lemma CollectedAllPass(slots: seq<Option<Task>>, replies: seq<Option<Completion>>, tags: Result<Tags>,
                         extract: Option<string> -> Option<string>, up: char -> string, order: seq<nat>)
    requires multiset(order) == multiset(Seqs.Range(|slots|))
    requires Collected(slots, replies, tags, extract, up, order).Success?
    ensures forall i :: 0 <= i < |slots| ==> Passes(slots, replies, tags, i)
    ensures forall i :: 0 <= i < |slots| ==>
      (Reply(slots, replies, if tags.Success? then tags.value else Tags(Unset, Unset), extract, up, i).Some? <==> IsTask(slots[i]))
  {
    hide Collected;
    var t := if tags.Success? then tags.value else Tags(Unset, Unset);
    forall i | 0 <= i < |slots|
      ensures Passes(slots, replies, tags, i)
      ensures Reply(slots, replies, t, extract, up, i).Some? <==> IsTask(slots[i])
    {
      Seqs.RangeCovers(order, |slots|, i);
      var j :| 0 <= j < |order| && order[j] == i;
      CollectedPassesAt(slots, replies, tags, extract, up, order, j);
    }
  }

  /** A successful collection raised at none of the positions it processed. */
  lemma CollectedPassesAt(slots: seq<Option<Task>>, replies: seq<Option<Completion>>, tags: Result<Tags>,
                          extract: Option<string> -> Option<string>, up: char -> string, order: seq<nat>, j: nat)
    requires j < |order| && Collected(slots, replies, tags, extract, up, order).Success?
    ensures Passes(slots, replies, tags, order[j])
  {
    assert !Unanswered(slots, replies, order[j]);
    if tags.Failure? {
      assert !Submitted(slots, order[j]);
    } else {
      assert !TagTypeError(slots, replies, tags.value, order[j]);
    }
  }

  /**
   * `as_completed` yields every submitted call exactly once. With `order` a reordering of the
   * question positions, a successful collection logs the records of the submitted questions
   * taken in dataset order, each once, in some order: one record per submitted question, and an
   * accuracy of correct answers over submitted questions.
   */
  lemma CollectedEachOnce(slots: seq<Option<Task>>, replies: seq<Option<Completion>>, tags: Result<Tags>,
                          extract: Option<string> -> Option<string>, up: char -> string, order: seq<nat>)
    requires multiset(order) == multiset(Seqs.Range(|slots|))
    requires Collected(slots, replies, tags, extract, up, order).Success?
    ensures var records := Collected(slots, replies, tags, extract, up, order).value;
      var f := Replies(slots, replies, if tags.Success? then tags.value else Tags(Unset, Unset), extract, up);
      var inOrder := Seqs.FilterMap(f, Seqs.Range(|slots|));
      Collected(slots, replies, tags, extract, up, Seqs.Range(|slots|)) == Success(inOrder) &&
      (forall i :: 0 <= i < |slots| ==> (f(i).Some? <==> IsTask(slots[i]))) &&
      multiset(records) == multiset(inOrder) &&
      |records| == Seqs.CountIf(IsTask, slots) &&
      Accuracy(records) == Accuracy(inOrder)
  {
    var n := |slots|;
    var t := if tags.Success? then tags.value else Tags(Unset, Unset);
    var f := Replies(slots, replies, t, extract, up);
    var range := Seqs.Range(n);
    CollectedAllPass(slots, replies, tags, extract, up, order);
    hide Collected, Passes;
    Seqs.RangeBound(order, n);
    CollectedOk(slots, replies, tags, extract, up, order);
    CollectedOk(slots, replies, tags, extract, up, range);
    var records, inOrder := Seqs.FilterMap(f, order), Seqs.FilterMap(f, range);
    assert forall i :: 0 <= i < n ==> f(i) == Reply(slots, replies, t, extract, up, i);
    hide Replies, Reply;
    Seqs.FilterMapPermutation(f, order, range);
    Seqs.FilterMapRangeCount(f, IsTask, slots, n);
    assert slots[..n] == slots;
    assert |records| == |multiset(records)| == |multiset(inOrder)| == |inOrder|;
    Seqs.CountIfPermutation(Hit, records, inOrder);
  }


  /**
   * `evaluate_file` counts every submitted question once: when it succeeds, the records it
   * logs are those of its questions taken in dataset order, one per question that had an
   * answer to submit, and the accuracy it returns is the share of those answered correctly.
   */
  lemma EvaluationEachOnce(questions: seq<Dicts.Dict<Value>>, config: Dicts.Dict<Value>,
                           shuffles: seq<seq<(string, Value)>>, repr: Value -> string, up: char -> string,
                           replies: seq<Option<Completion>>, order: seq<nat>,
                           extract: Option<string> -> Option<string>)
    requires Shuffles(questions, shuffles)
    requires multiset(order) == multiset(Seqs.Range(|questions|))
    requires Evaluation(questions, config, shuffles, repr, up, replies, order, extract).Success?
    ensures ReadSettings(config).Success?
    ensures var settings := ReadSettings(config).value;
      Submissions(questions, settings.shuffle, shuffles, repr, up).Success? &&
      var slots := Submissions(questions, settings.shuffle, shuffles, repr, up).value;
      var records := Evaluation(questions, config, shuffles, repr, up, replies, order, extract).value;
      var inOrder := Evaluation(questions, config, shuffles, repr, up, replies, Seqs.Range(|questions|), extract);
      |slots| == |questions| &&
      inOrder.Success? && multiset(records) == multiset(inOrder.value) &&
      |records| == Seqs.CountIf(IsTask, slots) &&
      Accuracy(records) == Accuracy(inOrder.value)
  {
    var settings := ReadSettings(config).value;
    var slots := Submissions(questions, settings.shuffle, shuffles, repr, up).value;
    SubmissionsSuccess(questions, settings.shuffle, shuffles, repr, up);
    CollectedEachOnce(slots, replies, settings.tags, extract, up, order);
  }

  /** `open(results_path, "a")` and one line per record, in order. */
  method AppendLog(dir: Dir, path: string, records: seq<AnswerRecord>) returns (dir': Dir)
    ensures dir' == AppendRecords(dir, path, records)
  {
    dir' := AppendRecords(dir, path, []);
    var k := 0;
    while k < |records|
      invariant 0 <= k <= |records|
      invariant dir' == AppendRecords(dir, path, records[..k])
    {
      Records.AppendRecordsConcat(dir, path, records[..k], [records[k]]);
      assert records[..k + 1] == records[..k] + [records[k]];
      dir' := AppendRecords(dir', path, [records[k]]);
      k := k + 1;
    }
    assert records[..k] == records;
  }

  /**
   * `Evaluator.evaluate_file` on the questions of one file, with `replies[i]` the reply to
   * question `i` (`None` when the call raised) and `order` the order in which the calls
   * complete. It raises exactly when `Evaluation` does, and otherwise returns the file, its
   * accuracy and the node's answer log, to which the records have been appended.
   */
  method EvaluateFile(filePath: string, timestamp: string, questions: seq<Dicts.Dict<Value>>,
                      config: Dicts.Dict<Value>, shuffles: seq<seq<(string, Value)>>, repr: Value -> string,
                      up: char -> string, limiter: RateLimiter, clock: seq<(real, real)>,
                      replies: seq<Option<Completion>>, order: seq<nat>, extract: Option<string> -> Option<string>,
                      slurmNodeId: Option<string>, dir: Dir)
    returns (r: Result<(string, real, string)>, dir': Dir)
    requires Shuffles(questions, shuffles)
    requires multiset(order) == multiset(Seqs.Range(|questions|))
    requires |clock| == |questions| && forall i :: 0 <= i < |clock| ==> clock[i].1 >= 0.0
    modifies limiter
    ensures limiter.noLimit == old(limiter.noLimit) && limiter.interval == old(limiter.interval)
    ensures Evaluation(questions, config, shuffles, repr, up, replies, order, extract).Failure? ==>
      r.Failure? && dir' == dir
    ensures Evaluation(questions, config, shuffles, repr, up, replies, order, extract).Success? ==>
      var records := Evaluation(questions, config, shuffles, repr, up, replies, order, extract).value;
      var path := ShardPath(timestamp, NodeId(slurmNodeId));
      r == Success((filePath, Accuracy(records), path)) && dir' == AppendRecords(dir, path, records)
  {
    var settings := ReadSettings(config);
    if settings.Failure? {
      return Failure(settings.error), dir;
    }
    var slots := SubmitAll(questions, settings.value.shuffle, shuffles, repr, up, limiter, clock);
    if slots.Failure? {
      return Failure(slots.error), dir;
    }
    var collected := CollectReplies(slots.value, replies, settings.value.tags, extract, up, order);
    if collected.Failure? {
      return Failure(collected.error), dir;
    }
    var path := ShardPath(timestamp, NodeId(slurmNodeId));
    dir' := AppendLog(dir, path, collected.value.0);
    return Success((filePath, collected.value.1, path)), dir';
  }
}
