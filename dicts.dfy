/** Python dictionaries with string keys, in insertion order: a sequence of (key, value) pairs. */
module Dicts {
  import opened Wrappers

  type Dict<V> = seq<(string, V)>

  function Keys<V>(d: Dict<V>): (ks: seq<string>)
    ensures |ks| == |d| && forall i :: 0 <= i < |d| ==> ks[i] == d[i].0
  {
    if d == [] then [] else [d[0].0] + Keys(d[1..])
  }

  /** A Python dict holds each key once. */
  predicate DistinctKeys<V>(d: Dict<V>)
  {
    forall i, j :: 0 <= i < j < |d| ==> d[i].0 != d[j].0
  }

  /** The first position at or after `i` that holds key `k`. */
  function FindFrom<V>(d: Dict<V>, k: string, i: nat): (r: Option<nat>)
    ensures r.Some? ==> r.value < |d| && d[r.value].0 == k
    decreases |d| - i
  {
    if i >= |d| then None else if d[i].0 == k then Some(i) else FindFrom(d, k, i + 1)
  }

  lemma {:induction false} FindFromSpec<V>(d: Dict<V>, k: string, i: nat)
    ensures var r := FindFrom(d, k, i);
      (r.Some? ==> i <= r.value < |d| && d[r.value].0 == k && forall j :: i <= j < r.value ==> d[j].0 != k) &&
      (r.None? ==> forall j :: i <= j < |d| ==> d[j].0 != k)
    decreases |d| - i
  {
    if i < |d| && d[i].0 != k {
      FindFromSpec(d, k, i + 1);
    }
  }

  /** The position of key `k`. */
  function Find<V>(d: Dict<V>, k: string): Option<nat>
  {
    FindFrom(d, k, 0)
  }

  lemma FindSpec<V>(d: Dict<V>, k: string)
    ensures Find(d, k).Some? ==>
      Find(d, k).value < |d| && d[Find(d, k).value].0 == k &&
      forall j :: 0 <= j < Find(d, k).value ==> d[j].0 != k
    ensures Find(d, k).None? ==> forall j :: 0 <= j < |d| ==> d[j].0 != k
  {
    FindFromSpec(d, k, 0);
  }

  /** `d.get(k)` */
  function Get<V>(d: Dict<V>, k: string): Option<V>
  {
    match Find(d, k)
    case Some(i) => Some(d[i].1)
    case None => None
  }

  /** A key is found exactly when it is one of the dict's keys. */
  lemma GetKeys<V>(d: Dict<V>, k: string)
    ensures Get(d, k).Some? <==> k in Keys(d)
  {
    FindSpec(d, k);
    if k in Keys(d) {
      var i :| 0 <= i < |d| && Keys(d)[i] == k;
    }
  }

  /** The value found is the one stored with the key, and with distinct keys no other is. */
  lemma GetFound<V>(d: Dict<V>, k: string)
    ensures Get(d, k).Some? ==> (k, Get(d, k).value) in d
    ensures Get(d, k).Some? && DistinctKeys(d) ==>
      forall i :: 0 <= i < |d| && d[i].0 == k ==> d[i].1 == Get(d, k).value
  {
    FindSpec(d, k);
  }

  /** `d[k] = v`: an existing key keeps its position, a new key goes last. */
  function Put<V>(d: Dict<V>, k: string, v: V): Dict<V>
  {
    match Find(d, k)
    case Some(i) => d[i := (k, v)]
    case None => d + [(k, v)]
  }

  /** Storing under a present key keeps the size; a new key is appended. */
  lemma PutShape<V>(d: Dict<V>, k: string, v: V)
    ensures k in Keys(d) ==> |Put(d, k, v)| == |d|
    ensures k !in Keys(d) ==> Put(d, k, v) == d + [(k, v)]
  {
    FindSpec(d, k);
    if k in Keys(d) {
      var i :| 0 <= i < |d| && Keys(d)[i] == k;
    }
  }

  /** The dict without the keys in `ks` (`{k: v for k, v in d.items() if k not in ks}`). */
  function Without<V>(d: Dict<V>, ks: set<string>): (r: Dict<V>)
    ensures forall i :: 0 <= i < |r| ==> r[i] in d && r[i].0 !in ks
    ensures forall p :: p in d && p.0 !in ks ==> p in r
  {
    if d == [] then [] else (if d[0].0 in ks then [] else [d[0]]) + Without(d[1..], ks)
  }

  lemma KeysPut<V>(d: Dict<V>, k: string, v: V)
    ensures Keys(Put(d, k, v)) == if k in Keys(d) then Keys(d) else Keys(d) + [k]
  {
    FindSpec(d, k);
    var r := Put(d, k, v);
    if Find(d, k).Some? {
      var i := Find(d, k).value;
      assert Keys(d)[i] == k;
      assert Keys(r) == Keys(d) by {
        assert forall y :: 0 <= y < |r| ==> Keys(r)[y] == Keys(d)[y];
      }
    } else {
      assert k !in Keys(d);
      assert Keys(r) == Keys(d) + [k] by {
        assert forall y :: 0 <= y < |r| ==> Keys(r)[y] == (Keys(d) + [k])[y];
      }
    }
  }

  /** The first position holding `k` is what `Find` returns. */
  lemma FindAt<V>(d: Dict<V>, k: string, i: nat)
    requires i < |d| && d[i].0 == k && forall x :: 0 <= x < i ==> d[x].0 != k
    ensures Find(d, k) == Some(i)
  {
    FindSpec(d, k);
  }

  lemma FindNone<V>(d: Dict<V>, k: string)
    requires forall x :: 0 <= x < |d| ==> d[x].0 != k
    ensures Find(d, k) == None
  {
    FindSpec(d, k);
  }

  lemma GetPut<V>(d: Dict<V>, k: string, v: V, j: string)
    ensures Get(Put(d, k, v), j) == if j == k then Some(v) else Get(d, j)
  {
    var r := Put(d, k, v);
    FindSpec(d, k);
    FindSpec(d, j);
    var i := if Find(d, k).Some? then Find(d, k).value else |d|;
    assert |r| == |d| || |r| == |d| + 1;
    assert i < |r| && r[i] == (k, v);
    assert forall x :: 0 <= x < |d| && x != i ==> r[x] == d[x];
    if j == k {
      FindAt(r, k, i);
    } else if Find(d, j).Some? {
      var m := Find(d, j).value;
      FindAt(r, j, m);
    } else {
      FindNone(r, j);
    }
  }

  /** A second store under the same key replaces the first. */
  lemma PutPut<V>(d: Dict<V>, k: string, v: V, w: V)
    ensures Put(Put(d, k, v), k, w) == Put(d, k, w)
  {
    FindSpec(d, k);
    var once := Put(d, k, v);
    if Find(d, k).Some? {
      var i := Find(d, k).value;
      FindAt(once, k, i);
      assert once[i := (k, w)] == d[i := (k, w)];
    } else {
      FindAt(once, k, |d|);
      assert once[|d| := (k, w)] == d + [(k, w)];
    }
  }

  /** Every pair of `Put(d, k, v)` is a pair of `d` or the one just stored. */
  lemma PutMembers<V>(d: Dict<V>, k: string, v: V)
    ensures forall x :: x in Put(d, k, v) ==> x in d || x == (k, v)
  {
    FindSpec(d, k);
  }

  lemma PutDistinct<V>(d: Dict<V>, k: string, v: V)
    requires DistinctKeys(d)
    ensures DistinctKeys(Put(d, k, v))
  {
    KeysPut(d, k, v);
    var r := Put(d, k, v);
    assert forall i :: 0 <= i < |r| ==> r[i].0 == Keys(r)[i];
  }

  /** Looking up in a dict that starts with `x`. */
  lemma GetCons<V>(x: (string, V), r: Dict<V>, k: string)
    ensures Get([x] + r, k) == if x.0 == k then Some(x.1) else Get(r, k)
  {
    var d := [x] + r;
    if x.0 == k {
      FindAt(d, k, 0);
    } else {
      FindSpec(r, k);
      assert forall y :: 0 < y < |d| ==> d[y] == r[y - 1];
      if Find(r, k).Some? {
        FindAt(d, k, Find(r, k).value + 1);
      } else {
        FindNone(d, k);
      }
    }
  }

  /** Storing the pairs of `ps` one after another. */
  function PutAll<V>(ps: seq<(string, V)>): Dict<V>
  {
    if ps == [] then [] else Put(PutAll(ps[..|ps| - 1]), ps[|ps| - 1].0, ps[|ps| - 1].1)
  }

  /** A key stored by none of the pairs is absent. */
  lemma {:induction false} PutAllAbsent<V>(ps: seq<(string, V)>, k: string)
    requires forall x :: 0 <= x < |ps| ==> ps[x].0 != k
    ensures Get(PutAll(ps), k).None?
  {
    if ps == [] {
      var none: Dict<V> := [];
      FindNone(none, k);
    } else {
      var init := ps[..|ps| - 1];
      PutAllAbsent(init, k);
      GetPut(PutAll(init), ps[|ps| - 1].0, ps[|ps| - 1].1, k);
    }
  }

  /** A key stored by exactly one of the pairs maps to that pair's value. */
  lemma {:induction false} PutAllAt<V>(ps: seq<(string, V)>, j: nat)
    requires j < |ps| && forall x :: 0 <= x < |ps| && x != j ==> ps[x].0 != ps[j].0
    ensures Get(PutAll(ps), ps[j].0) == Some(ps[j].1)
  {
    var init := ps[..|ps| - 1];
    GetPut(PutAll(init), ps[|ps| - 1].0, ps[|ps| - 1].1, ps[j].0);
    if j < |ps| - 1 {
      PutAllAt(init, j);
    }
  }

  lemma {:induction false} GetWithout<V>(d: Dict<V>, ks: set<string>, j: string)
    ensures Get(Without(d, ks), j) == if j in ks then None else Get(d, j)
  {
    if d == [] {
      assert Find(Without(d, ks), j).None?;
    } else {
      GetWithout(d[1..], ks, j);
      var rest := Without(d[1..], ks);
      assert d == [d[0]] + d[1..];
      GetCons(d[0], d[1..], j);
      if d[0].0 in ks {
        assert Without(d, ks) == rest;
      } else {
        assert Without(d, ks) == [d[0]] + rest;
        GetCons(d[0], rest, j);
      }
    }
  }

  lemma {:induction false} WithoutDistinct<V>(d: Dict<V>, ks: set<string>)
    requires DistinctKeys(d)
    ensures DistinctKeys(Without(d, ks))
  {
    if d != [] {
      WithoutDistinct(d[1..], ks);
      var rest := Without(d[1..], ks);
      assert forall i :: 0 <= i < |rest| ==> rest[i] in d[1..];
      assert forall p :: p in d[1..] ==> p.0 != d[0].0;
    }
  }

  /** Removing keys the dict does not hold changes nothing. */
  lemma {:induction false} WithoutAbsent<V>(d: Dict<V>, ks: set<string>)
    requires forall i :: 0 <= i < |d| ==> d[i].0 !in ks
    ensures Without(d, ks) == d
  {
    if d != [] {
      WithoutAbsent(d[1..], ks);
      assert d == [d[0]] + d[1..];
    }
  }

  /** Storing the value a key already has changes nothing. */
  lemma PutSame<V>(d: Dict<V>, k: string, v: V)
    requires Get(d, k) == Some(v)
    ensures Put(d, k, v) == d
  {
    FindSpec(d, k);
    var i := Find(d, k).value;
    assert d[i] == (k, v);
  }

  /** Looking up in a dict with one more pair at the end. */
  lemma GetAppend<V>(d: Dict<V>, k: string, v: V, j: string)
    ensures Get(d + [(k, v)], j) == if Get(d, j).Some? then Get(d, j) else if j == k then Some(v) else None
  {
    var e := d + [(k, v)];
    FindSpec(d, j);
    if Find(d, j).Some? {
      FindAt(e, j, Find(d, j).value);
    } else if j == k {
      FindAt(e, j, |d|);
    } else {
      FindNone(e, j);
    }
  }
}
