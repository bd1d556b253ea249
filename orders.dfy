/** Python's string ordering and `sorted()` over strings, with or without the `(len(k), k)` key. */
module Orders {

  /** Python's `a < b` on strings: code-point lexicographic order. */
  predicate LexLess(a: string, b: string)
  {
    if b == [] then false
    else if a == [] then true
    else if a[0] != b[0] then a[0] < b[0]
    else LexLess(a[1..], b[1..])
  }

  /** The sort key `(len(k), k)`: shorter first, then lexicographic. */
  predicate ShortLexLess(a: string, b: string)
  {
    |a| < |b| || (|a| == |b| && LexLess(a, b))
  }

  datatype Order = Lexicographic | LengthThenLexicographic

  predicate Less(o: Order, a: string, b: string)
  {
    match o
    case Lexicographic => LexLess(a, b)
    case LengthThenLexicographic => ShortLexLess(a, b)
  }

  lemma {:induction false} LexIrreflexive(a: string)
    ensures !LexLess(a, a)
  {
    if a != [] { LexIrreflexive(a[1..]); }
  }

  lemma {:induction false} LexTransitive(a: string, b: string, c: string)
    requires LexLess(a, b) && LexLess(b, c)
    ensures LexLess(a, c)
  {
    if a != [] && b != [] && c != [] && a[0] == b[0] == c[0] {
      LexTransitive(a[1..], b[1..], c[1..]);
    }
  }

  lemma {:induction false} LexTotal(a: string, b: string)
    requires a != b
    ensures LexLess(a, b) || LexLess(b, a)
  {
    if a != [] && b != [] && a[0] == b[0] {
      assert a == [a[0]] + a[1..] && b == [b[0]] + b[1..];
      LexTotal(a[1..], b[1..]);
    }
  }

  lemma {:induction false} LexAppend(a: string, b: string, x: char, y: char)
    requires |a| == |b| && LexLess(a, b)
    ensures LexLess(a + [x], b + [y])
  {
    if a[0] == b[0] {
      assert (a + [x])[1..] == a[1..] + [x];
      assert (b + [y])[1..] == b[1..] + [y];
      LexAppend(a[1..], b[1..], x, y);
    }
  }

  lemma {:induction false} LexLastChar(a: string, x: char, y: char)
    requires x < y
    ensures LexLess(a + [x], a + [y])
  {
    if a != [] {
      assert (a + [x])[1..] == a[1..] + [x];
      assert (a + [y])[1..] == a[1..] + [y];
      LexLastChar(a[1..], x, y);
    }
  }

  lemma LessIrreflexive(o: Order, a: string)
    ensures !Less(o, a, a)
  {
    LexIrreflexive(a);
  }

  lemma LessTransitive(o: Order, a: string, b: string, c: string)
    requires Less(o, a, b) && Less(o, b, c)
    ensures Less(o, a, c)
  {
    if o.Lexicographic? || (|a| == |b| == |c|) {
      LexTransitive(a, b, c);
    }
  }

  lemma LessTotal(o: Order, a: string, b: string)
    requires a != b
    ensures Less(o, a, b) || Less(o, b, a)
  {
    LexTotal(a, b);
  }

  /** `a <= b` under the order: `b` does not sort strictly before `a`. */
  lemma NotLessTransitive(o: Order, a: string, b: string, c: string)
    requires !Less(o, b, a) && !Less(o, c, b)
    ensures !Less(o, c, a)
  {
    if Less(o, c, a) {
      if a != b { LessTotal(o, a, b); LessTransitive(o, c, a, b); }
    }
  }

  predicate Sorted(o: Order, s: seq<string>)
  {
    forall i, j :: 0 <= i < j < |s| ==> !Less(o, s[j], s[i])
  }

  function Insert(o: Order, x: string, s: seq<string>): (r: seq<string>)
    requires Sorted(o, s)
    ensures Sorted(o, r) && multiset(r) == multiset(s) + multiset{x}
  {
    if s == [] then [x]
    else if !Less(o, s[0], x) then
      forall j | 0 <= j < |s| ensures !Less(o, s[j], x) {
        if j > 0 { NotLessTransitive(o, x, s[0], s[j]); }
      }
      [x] + s
    else
      var rest := Insert(o, x, s[1..]);
      assert multiset(s) == multiset{s[0]} + multiset(s[1..]) by { assert s == [s[0]] + s[1..]; }
      forall j | 0 <= j < |rest| ensures !Less(o, rest[j], s[0]) {
        assert rest[j] in multiset(rest);
        if rest[j] == x {
          if x != s[0] { LessTotal(o, x, s[0]); }
          LessIrreflexive(o, x);
          if Less(o, x, s[0]) { LessTransitive(o, x, s[0], x); }
        } else {
          assert rest[j] in multiset(s[1..]);
          var k :| 0 < k < |s| && s[k] == rest[j];
        }
      }
      [s[0]] + rest
  }

  /** `sorted(xs)` for strings under the given order. */
  function Sort(o: Order, xs: seq<string>): (r: seq<string>)
    ensures Sorted(o, r) && multiset(r) == multiset(xs)
  {
    if xs == [] then []
    else
      assert xs == [xs[0]] + xs[1..];
      Insert(o, xs[0], Sort(o, xs[1..]))
  }

  /** Sorting distinct strings gives a strictly increasing sequence. */
  lemma SortedDistinctStrict(o: Order, s: seq<string>, i: int, j: int)
    requires Sorted(o, s) && 0 <= i < j < |s| && s[i] != s[j]
    ensures Less(o, s[i], s[j])
  {
    LessTotal(o, s[i], s[j]);
  }

  /** Two sorted sequences with the same elements start with the same element. */
  lemma SortedHeads(o: Order, a: seq<string>, b: seq<string>)
    requires a != [] && b != [] && Sorted(o, a) && Sorted(o, b) && multiset(a) == multiset(b)
    ensures a[0] == b[0]
  {
    assert a[0] in multiset(b) && b[0] in multiset(a);
    var i :| 0 <= i < |b| && b[i] == a[0];
    var k :| 0 <= k < |a| && a[k] == b[0];
    if a[0] != b[0] {
      LessTotal(o, a[0], b[0]);
    }
  }

  lemma SameTails<T>(a: seq<T>, b: seq<T>)
    requires a != [] && b != [] && a[0] == b[0] && multiset(a) == multiset(b)
    ensures multiset(a[1..]) == multiset(b[1..])
  {
    assert a == [a[0]] + a[1..];
    assert b == [b[0]] + b[1..];
    assert multiset(a) == multiset{a[0]} + multiset(a[1..]);
    assert multiset(b) == multiset{b[0]} + multiset(b[1..]);
    assert multiset(a[1..]) == multiset(a) - multiset{a[0]};
  }

  /** Two sequences sorted under the same order with the same elements are equal. */
  lemma {:induction false} SortedUnique(o: Order, a: seq<string>, b: seq<string>)
    requires Sorted(o, a) && Sorted(o, b) && multiset(a) == multiset(b)
    ensures a == b
    decreases |a|
  {
    assert |b| == |multiset(b)| == |multiset(a)| == |a|;
    if a != [] {
      SortedHeads(o, a, b);
      SameTails(a, b);
      SortedUnique(o, a[1..], b[1..]);
      assert a == [a[0]] + a[1..] && b == [b[0]] + b[1..];
    }
  }

  /** The elements are in non-decreasing key order. */
  predicate SortedByKey<T>(key: T -> int, s: seq<T>)
  {
    forall i, j :: 0 <= i < j < |s| ==> key(s[i]) <= key(s[j])
  }

  /** The elements whose key is `k`, in their original order. */
  function WithKey<T>(key: T -> int, k: int, s: seq<T>): seq<T>
  {
    if s == [] then [] else (if key(s[0]) == k then [s[0]] else []) + WithKey(key, k, s[1..])
  }

  /** Insertion before the first element whose key is not smaller, which keeps equal keys in order. */
  function InsertByKey<T>(key: T -> int, x: T, s: seq<T>): seq<T>
  {
    if s == [] then [x]
    else if key(x) <= key(s[0]) then [x] + s
    else [s[0]] + InsertByKey(key, x, s[1..])
  }

  lemma ConsSorted<T>(key: T -> int, x: T, s: seq<T>)
    requires SortedByKey(key, s) && forall j :: 0 <= j < |s| ==> key(x) <= key(s[j])
    ensures SortedByKey(key, [x] + s)
  {
    var r := [x] + s;
    assert forall j :: 0 < j < |r| ==> r[j] == s[j - 1];
  }

  lemma {:induction false} InsertByKeySorted<T>(key: T -> int, x: T, s: seq<T>)
    requires SortedByKey(key, s)
    ensures SortedByKey(key, InsertByKey(key, x, s))
    ensures multiset(InsertByKey(key, x, s)) == multiset(s) + multiset{x}
  {
    if s == [] {
    } else if key(x) <= key(s[0]) {
      ConsSorted(key, x, s);
    } else {
      InsertByKeySorted(key, x, s[1..]);
      var rest := InsertByKey(key, x, s[1..]);
      assert multiset(s) == multiset{s[0]} + multiset(s[1..]) by { assert s == [s[0]] + s[1..]; }
      forall j | 0 <= j < |rest| ensures key(s[0]) <= key(rest[j]) {
        assert rest[j] in multiset(rest);
        if rest[j] != x {
          assert rest[j] in multiset(s[1..]);
          var k :| 0 < k < |s| && s[k] == rest[j];
        }
      }
      ConsSorted(key, s[0], rest);
    }
  }

  /** `sorted(xs, key=key)`: Python's sort is stable. */
  function SortByKey<T>(key: T -> int, xs: seq<T>): seq<T>
  {
    if xs == [] then [] else InsertByKey(key, xs[0], SortByKey(key, xs[1..]))
  }

  /** The result is in key order and a reordering of the input. */
  lemma {:induction false} SortByKeySpec<T>(key: T -> int, xs: seq<T>)
    ensures SortedByKey(key, SortByKey(key, xs)) && multiset(SortByKey(key, xs)) == multiset(xs)
  {
    if xs != [] {
      assert xs == [xs[0]] + xs[1..];
      SortByKeySpec(key, xs[1..]);
      InsertByKeySorted(key, xs[0], SortByKey(key, xs[1..]));
    }
  }

  lemma {:induction false} WithKeyConcat<T>(key: T -> int, k: int, a: seq<T>, b: seq<T>)
    ensures WithKey(key, k, a + b) == WithKey(key, k, a) + WithKey(key, k, b)
  {
    if a == [] {
      assert a + b == b;
    } else {
      var c := a + b;
      assert c[0] == a[0] && c[1..] == a[1..] + b;
      WithKeyConcat(key, k, a[1..], b);
      assert WithKey(key, k, c) == (if key(a[0]) == k then [a[0]] else []) + WithKey(key, k, a[1..] + b);
    }
  }

  lemma WithKeySingle<T>(key: T -> int, k: int, x: T)
    ensures WithKey(key, k, [x]) == if key(x) == k then [x] else []
  {
    assert [x][1..] == [];
  }

  lemma {:induction false} WithKeyInsert<T>(key: T -> int, k: int, x: T, s: seq<T>)
    ensures WithKey(key, k, InsertByKey(key, x, s)) == WithKey(key, k, [x]) + WithKey(key, k, s)
  {
    if s == [] {
      assert [x] + [] == [x];
    } else if key(x) <= key(s[0]) {
      WithKeyConcat(key, k, [x], s);
    } else {
      var rest := InsertByKey(key, x, s[1..]);
      var wx, w0 := WithKey(key, k, [x]), WithKey(key, k, [s[0]]);
      WithKeySingle(key, k, x);
      WithKeySingle(key, k, s[0]);
      assert wx == [] || w0 == [];
      calc {
        WithKey(key, k, InsertByKey(key, x, s));
        WithKey(key, k, [s[0]] + rest);
        { WithKeyConcat(key, k, [s[0]], rest); }
        w0 + WithKey(key, k, rest);
        { WithKeyInsert(key, k, x, s[1..]); }
        w0 + (wx + WithKey(key, k, s[1..]));
        wx + (w0 + WithKey(key, k, s[1..]));
        { assert s == [s[0]] + s[1..]; WithKeyConcat(key, k, [s[0]], s[1..]); }
        wx + WithKey(key, k, s);
      }
    }
  }

  /** Stability: the elements sharing a key keep their relative order. */
  lemma {:induction false} SortByKeyStable<T>(key: T -> int, k: int, xs: seq<T>)
    ensures WithKey(key, k, SortByKey(key, xs)) == WithKey(key, k, xs)
  {
    if xs != [] {
      SortByKeyStable(key, k, xs[1..]);
      WithKeyInsert(key, k, xs[0], SortByKey(key, xs[1..]));
      assert xs == [xs[0]] + xs[1..];
      WithKeyConcat(key, k, [xs[0]], xs[1..]);
    }
  }

  lemma {:induction false} WithKeyMember<T>(key: T -> int, k: int, s: seq<T>, i: nat)
    requires i < |s| && key(s[i]) == k
    ensures s[i] in WithKey(key, k, s)
  {
    if i > 0 { WithKeyMember(key, k, s[1..], i - 1); }
  }

  lemma {:induction false} WithKeyKeys<T>(key: T -> int, k: int, s: seq<T>)
    ensures forall y :: y in WithKey(key, k, s) ==> y in s && key(y) == k
  {
    if s != [] { WithKeyKeys(key, k, s[1..]); }
  }

  /** The heads of two key-sorted sequences with the same elements of each key are equal. */
  lemma SortedHeadsEqual<T>(key: T -> int, a: seq<T>, b: seq<T>)
    requires a != [] && b != [] && SortedByKey(key, a) && SortedByKey(key, b)
    requires WithKey(key, key(a[0]), a) == WithKey(key, key(a[0]), b)
    requires WithKey(key, key(b[0]), a) == WithKey(key, key(b[0]), b)
    ensures a[0] == b[0]
  {
    var ka, kb := key(a[0]), key(b[0]);
    WithKeyMember(key, ka, a, 0);
    WithKeyMember(key, kb, b, 0);
    WithKeyKeys(key, ka, b);
    WithKeyKeys(key, kb, a);
    var i :| 0 <= i < |b| && b[i] == a[0];
    var j :| 0 <= j < |a| && a[j] == b[0];
    assert ka == kb;
    assert WithKey(key, ka, a)[0] == a[0];
    assert WithKey(key, ka, b)[0] == b[0];
  }

  lemma {:induction false} WithKeyEmpty<T>(key: T -> int, s: seq<T>)
    requires s != []
    ensures WithKey(key, key(s[0]), s) != []
  {
    WithKeyMember(key, key(s[0]), s, 0);
  }

  lemma BothEmptyOrNot<T>(key: T -> int, a: seq<T>, b: seq<T>)
    requires forall k :: WithKey(key, k, a) == WithKey(key, k, b)
    ensures a == [] <==> b == []
  {
    if b != [] {
      WithKeyEmpty(key, b);
      assert WithKey(key, key(b[0]), a) != [];
    }
    if a != [] {
      WithKeyEmpty(key, a);
      assert WithKey(key, key(a[0]), b) != [];
    }
  }

  /**
   * A key-sorted sequence is determined by its elements of each key in order, so every
   * stable sort of `xs` is `SortByKey(key, xs)`.
   */
  lemma {:induction false} StableSortUnique<T>(key: T -> int, a: seq<T>, b: seq<T>)
    requires SortedByKey(key, a) && SortedByKey(key, b)
    requires forall k :: WithKey(key, k, a) == WithKey(key, k, b)
    ensures a == b
    decreases |a| + |b|
  {
    BothEmptyOrNot(key, a, b);
    if a != [] {
      SortedHeadsEqual(key, a, b);
      assert a == [a[0]] + a[1..] && b == [b[0]] + b[1..];
      forall k ensures WithKey(key, k, a[1..]) == WithKey(key, k, b[1..]) {
        WithKeyConcat(key, k, [a[0]], a[1..]);
        WithKeyConcat(key, k, [b[0]], b[1..]);
        var h := WithKey(key, k, [a[0]]);
        assert h + WithKey(key, k, a[1..]) == h + WithKey(key, k, b[1..]);
        assert (h + WithKey(key, k, a[1..]))[|h|..] == WithKey(key, k, a[1..]);
        assert (h + WithKey(key, k, b[1..]))[|h|..] == WithKey(key, k, b[1..]);
      }
      assert SortedByKey(key, a[1..]) && SortedByKey(key, b[1..]);
      StableSortUnique(key, a[1..], b[1..]);
    }
  }
}
