/** The subset of Python's `str` methods the evaluator relies on, over `seq<char>`. */
module Strings {
  import opened Wrappers

  /** The characters for which Python's `str.isspace()` holds. */
  predicate IsSpace(c: char)
  {
    c == ' ' || ('\t' <= c <= '\r') || ('\U{1C}' <= c <= '\U{1F}') || c == '\U{85}' || c == '\U{A0}'
    || c == '\U{1680}' || ('\U{2000}' <= c <= '\U{200A}') || c == '\U{2028}' || c == '\U{2029}'
    || c == '\U{202F}' || c == '\U{205F}' || c == '\U{3000}'
  }

  predicate IsBlank(s: string)
  {
    forall i :: 0 <= i < |s| ==> IsSpace(s[i])
  }

  /** `s.lstrip()` */
  function TrimLeft(s: string): (r: string)
    ensures |r| <= |s| && r == s[|s| - |r|..]
    ensures forall k :: 0 <= k < |s| - |r| ==> IsSpace(s[k])
    ensures r == [] || !IsSpace(r[0])
  {
    if s != [] && IsSpace(s[0]) then TrimLeft(s[1..]) else s
  }

  /** `s.rstrip()` */
  function TrimRight(s: string): (r: string)
    ensures |r| <= |s| && r == s[..|r|]
    ensures forall k :: |r| <= k < |s| ==> IsSpace(s[k])
    ensures r == [] || !IsSpace(r[|r| - 1])
  {
    if s != [] && IsSpace(s[|s| - 1]) then TrimRight(s[..|s| - 1]) else s
  }

  /** `s.strip()`: the string without leading and trailing whitespace. */
  function Strip(s: string): (r: string)
    ensures r == [] || (!IsSpace(r[0]) && !IsSpace(r[|r| - 1]))
    ensures r == [] <==> IsBlank(s)
  {
    var t := TrimLeft(s);
    var r := TrimRight(t);
    r
  }

  lemma StripOfStripped(s: string)
    requires s == [] || (!IsSpace(s[0]) && !IsSpace(s[|s| - 1]))
    ensures Strip(s) == s
  {
  }

  function LowerChar(c: char): char
  {
    if 'A' <= c <= 'Z' then (c as int - 'A' as int + 'a' as int) as char else c
  }

  /**
   * `s.upper()`: every character is replaced by its full upper-case mapping from the Unicode
   * character database, `up` here, which is one character for most letters ("б" gives "Б", "ı"
   * gives "I") and several for a few ("ß" gives "SS"). Python applies it character by
   * character, without context.
   */
  function Upper(up: char -> string, s: string): string
  {
    if s == [] then [] else up(s[0]) + Upper(up, s[1..])
  }

  /**
   * What the Unicode upper-case mapping guarantees and the lemmas rely on: whitespace has no
   * case, no other character maps to nothing or to whitespace, and what a character maps to is
   * already upper case.
   */
  predicate IsCaseMap(up: char -> string)
  {
    (forall c :: IsSpace(c) ==> up(c) == [c]) &&
    (forall c :: !IsSpace(c) ==> up(c) != [] && forall i :: 0 <= i < |up(c)| ==> !IsSpace(up(c)[i])) &&
    (forall c, i :: 0 <= i < |up(c)| ==> up(up(c)[i]) == [up(c)[i]])
  }

  /** The ASCII part of the mapping: "a" to "z" become "A" to "Z". */
  function AsciiUpper(c: char): string
  {
    if 'a' <= c <= 'z' then [(c as int - 'a' as int + 'A' as int) as char] else [c]
  }

  /** The laws ask nothing that the ASCII mapping does not meet. */
  lemma AsciiUpperIsCaseMap()
    ensures IsCaseMap(AsciiUpper)
  {
  }

  lemma {:induction false} UpperConcat(up: char -> string, a: string, b: string)
    ensures Upper(up, a + b) == Upper(up, a) + Upper(up, b)
  {
    if a == [] {
      assert a + b == b;
    } else {
      assert (a + b)[1..] == a[1..] + b;
      UpperConcat(up, a[1..], b);
    }
  }

  /** Text made of upper-case forms is its own upper case. */
  lemma {:induction false} UpperOfFixed(up: char -> string, s: string)
    requires forall i :: 0 <= i < |s| ==> up(s[i]) == [s[i]]
    ensures Upper(up, s) == s
  {
    if s != [] {
      UpperOfFixed(up, s[1..]);
    }
  }

  /** Upper-casing twice is upper-casing once. */
  lemma {:induction false} UpperIdempotent(up: char -> string, s: string)
    requires IsCaseMap(up)
    ensures Upper(up, Upper(up, s)) == Upper(up, s)
  {
    if s != [] {
      var head := up(s[0]);
      UpperConcat(up, head, Upper(up, s[1..]));
      UpperOfFixed(up, head);
      UpperIdempotent(up, s[1..]);
    }
  }

  /** Upper-casing a stripped string gives a stripped string. */
  lemma UpperEnds(up: char -> string, s: string)
    requires IsCaseMap(up)
    requires s == [] || (!IsSpace(s[0]) && !IsSpace(s[|s| - 1]))
    ensures var u := Upper(up, s); u == [] || (!IsSpace(u[0]) && !IsSpace(u[|u| - 1]))
  {
    if s != [] {
      var last := s[|s| - 1];
      assert s == s[..|s| - 1] + [last];
      UpperConcat(up, s[..|s| - 1], [last]);
      assert Upper(up, [last]) == up(last) + Upper(up, []);
    }
  }

  /**
   * `s.lower()` on the ASCII letters. It serves only to compare file extensions with ASCII ones,
   * where the Unicode mapping decides nothing more: the only other character whose lower case is
   * ASCII is the Kelvin sign, giving "k", which no supported extension holds.
   */
  function Lower(s: string): (r: string)
    ensures |r| == |s| && forall i :: 0 <= i < |s| ==> r[i] == LowerChar(s[i])
  {
    if s == [] then [] else [LowerChar(s[0])] + Lower(s[1..])
  }

  predicate IsUpperLetter(c: char)
  {
    'A' <= c <= 'Z'
  }

  /** `k and all(c in string.ascii_uppercase for c in k)` */
  predicate IsUpperWord(s: string)
  {
    s != [] && forall i :: 0 <= i < |s| ==> IsUpperLetter(s[i])
  }

  /** `p` occurs in `s` at position `i`. */
  predicate OccursAt(s: string, p: string, i: int)
  {
    0 <= i && i + |p| <= |s| && s[i..i + |p|] == p
  }

  /** The first position from `i` on where `p` occurs. */
  function IndexFrom(s: string, p: string, i: nat): Option<nat>
    decreases |s| - i
  {
    if i + |p| > |s| then None
    else if s[i..i + |p|] == p then Some(i)
    else IndexFrom(s, p, i + 1)
  }

  lemma {:induction false} IndexFromSpec(s: string, p: string, i: nat)
    ensures var r := IndexFrom(s, p, i);
      (r.Some? ==> i <= r.value && OccursAt(s, p, r.value) && forall j :: i <= j < r.value ==> !OccursAt(s, p, j)) &&
      (r.None? ==> forall j :: i <= j ==> !OccursAt(s, p, j))
    decreases |s| - i
  {
    if i + |p| <= |s| && s[i..i + |p|] != p {
      IndexFromSpec(s, p, i + 1);
    }
  }

  /** `s.find(p)`, as an option: the first position where `p` occurs. */
  function IndexOf(s: string, p: string): (r: Option<nat>)
    ensures r.Some? ==> OccursAt(s, p, r.value) && forall j :: 0 <= j < r.value ==> !OccursAt(s, p, j)
    ensures r.None? ==> forall j :: !OccursAt(s, p, j)
  {
    IndexFromSpec(s, p, 0);
    IndexFrom(s, p, 0)
  }

  /** An occurrence in a suffix is an occurrence in the whole string, shifted. */
  lemma OccursShift(s: string, p: string, k: nat, j: nat)
    requires k <= |s|
    ensures OccursAt(s[k..], p, j) <==> OccursAt(s, p, k + j)
  {
    if k + j + |p| <= |s| {
      assert s[k..][j..j + |p|] == s[k + j..k + j + |p|];
    }
  }

  /** `p in s` */
  predicate Contains(s: string, p: string)
  {
    IndexOf(s, p).Some?
  }

  lemma ContainsAt(s: string, p: string, i: int)
    requires OccursAt(s, p, i)
    ensures Contains(s, p)
  {
  }

  /** `s.endswith(t)` */
  predicate EndsWith(s: string, t: string)
  {
    |t| <= |s| && s[|s| - |t|..] == t
  }

  /** `s.startswith(t)` */
  predicate StartsWith(s: string, t: string)
  {
    |t| <= |s| && s[..|t|] == t
  }

  /** Number of occurrences of `c`; `len(s.split(c))` is one more than this. */
  function CountChar(s: string, c: char): (n: nat)
    ensures n == 0 <==> c !in s
    ensures n <= |s|
  {
    if s == [] then 0 else (if s[0] == c then 1 else 0) + CountChar(s[1..], c)
  }

  /** `s.replace(p, r)`: left-to-right, non-overlapping replacement. */
  function Replace(s: string, p: string, r: string): string
    requires p != []
    decreases |s|
  {
    if |s| < |p| then s
    else if s[..|p|] == p then r + Replace(s[|p|..], p, r)
    else [s[0]] + Replace(s[1..], p, r)
  }

  /** A character that is neither in `s` nor in the replacement does not appear in the result. */
  lemma {:induction false} ReplaceKeepsOut(s: string, p: string, r: string, c: char)
    requires p != [] && c !in s && c !in r
    ensures c !in Replace(s, p, r)
    decreases |s|
  {
    if |s| < |p| {
    } else if s[..|p|] == p {
      ReplaceKeepsOut(s[|p|..], p, r, c);
    } else {
      ReplaceKeepsOut(s[1..], p, r, c);
    }
  }

  /** Replacing a one-character pattern by text that does not contain it removes it. */
  lemma {:induction false} ReplaceRemovesChar(s: string, c: char, r: string)
    requires c !in r
    ensures c !in Replace(s, [c], r)
    decreases |s|
  {
    if |s| < 1 {
    } else if s[..1] == [c] {
      ReplaceRemovesChar(s[1..], c, r);
    } else {
      ReplaceRemovesChar(s[1..], c, r);
    }
  }

  /** After `replace("..", "_")` the result starts with "." exactly when the input starts with one dot only. */
  lemma {:induction false} ReplaceDotDotHead(s: string)
    ensures var t := Replace(s, "..", "_");
      (t != [] && t[0] == '.') <==> (s != [] && s[0] == '.' && !(|s| >= 2 && s[1] == '.'))
    decreases |s|
  {
    var t := Replace(s, "..", "_");
    if |s| < 2 {
    } else if s[..2] == ".." {
    } else {
      assert t == [s[0]] + Replace(s[1..], "..", "_");
    }
  }

  /** Putting a character in front of text without ".." keeps it so, unless it forms a new "..". */
  lemma NoDotDotCons(x: char, rest: string)
    requires forall j :: !OccursAt(rest, "..", j)
    requires x == '.' ==> rest == [] || rest[0] != '.'
    ensures forall j :: !OccursAt([x] + rest, "..", j)
  {
    var t := [x] + rest;
    forall j ensures !OccursAt(t, "..", j) {
      if 1 <= j && j + 2 <= |t| {
        assert t[j..j + 2] == rest[j - 1..j + 1];
        assert !OccursAt(rest, "..", j - 1);
      } else if j == 0 && 2 <= |t| {
        assert t[0..2] == [x, rest[0]];
      }
    }
  }

  /** After `replace("..", "_")` no ".." is left. */
  lemma {:induction false} ReplaceDotDotGone(s: string)
    ensures forall j :: !OccursAt(Replace(s, "..", "_"), "..", j)
    decreases |s|
  {
    if |s| < 2 {
      assert forall j :: OccursAt(s, "..", j) ==> j + 2 <= |s|;
    } else if s[..2] == ".." {
      var rest := Replace(s[2..], "..", "_");
      ReplaceDotDotGone(s[2..]);
      assert Replace(s, "..", "_") == "_" + rest;
      NoDotDotCons('_', rest);
    } else {
      var rest := Replace(s[1..], "..", "_");
      ReplaceDotDotGone(s[1..]);
      ReplaceDotDotHead(s[1..]);
      assert Replace(s, "..", "_") == [s[0]] + rest;
      assert s[0] == '.' ==> s[1] != '.' by { assert s[..2] == [s[0], s[1]]; }
      NoDotDotCons(s[0], rest);
    }
  }

  lemma ReplaceDotDotNotContained(s: string)
    ensures !Contains(Replace(s, "..", "_"), "..")
  {
    ReplaceDotDotGone(s);
  }

  /** `"".join(reversed(s))` */
  function Reverse(s: string): (r: string)
    ensures |r| == |s| && forall i :: 0 <= i < |s| ==> r[i] == s[|s| - 1 - i]
  {
    if s == [] then [] else Reverse(s[1..]) + [s[0]]
  }

  lemma ReverseSnoc(s: string, c: char)
    ensures Reverse(s + [c]) == [c] + Reverse(s)
  {
    var a, b := Reverse(s + [c]), [c] + Reverse(s);
    assert forall i :: 0 <= i < |a| ==> a[i] == b[i];
  }

  /** `sep.join(parts)` */
  function Join(sep: string, parts: seq<string>): string
  {
    if parts == [] then "" else if |parts| == 1 then parts[0] else parts[0] + sep + Join(sep, parts[1..])
  }

  function DigitChar(d: nat): char
    requires d < 10
  {
    ('0' as int + d) as char
  }

  /** `str(n)` for a non-negative integer. */
  function NatToString(n: nat): (s: string)
    ensures s != [] && forall i :: 0 <= i < |s| ==> '0' <= s[i] <= '9'
  {
    if n < 10 then [DigitChar(n)] else NatToString(n / 10) + [DigitChar(n % 10)]
  }

  /** `str(i)` for a Python int. */
  function IntToString(i: int): (s: string)
    ensures s != []
  {
    if i < 0 then "-" + NatToString(-i) else NatToString(i)
  }

  predicate IsDigits(s: string)
  {
    s != [] && forall i :: 0 <= i < |s| ==> '0' <= s[i] <= '9'
  }

  /** The number a non-empty run of decimal digits denotes. */
  function DigitsValue(s: string): nat
    requires forall i :: 0 <= i < |s| ==> '0' <= s[i] <= '9'
  {
    if s == [] then 0 else DigitsValue(s[..|s| - 1]) * 10 + (s[|s| - 1] as int - '0' as int)
  }

  lemma {:induction false} DigitsOfNat(n: nat)
    ensures DigitsValue(NatToString(n)) == n
  {
    if n >= 10 {
      var s := NatToString(n);
      assert s[..|s| - 1] == NatToString(n / 10);
      DigitsOfNat(n / 10);
    }
  }

  /** Distinct numbers print differently, so file names built from them differ. */
  lemma NatToStringInjective(m: nat, n: nat)
    requires NatToString(m) == NatToString(n)
    ensures m == n
  {
    DigitsOfNat(m);
    DigitsOfNat(n);
  }

  /** `int(s)` for a string: optional sign and ASCII digits, surrounding whitespace ignored. */
  function ParseInt(s: string): (r: Option<int>)
    ensures r.Some? ==> Strip(s) != []
  {
    var t := Strip(s);
    if t != [] && (t[0] == '-' || t[0] == '+') && IsDigits(t[1..]) then
      Some(if t[0] == '-' then -(DigitsValue(t[1..]) as int) else DigitsValue(t[1..]))
    else if IsDigits(t) then Some(DigitsValue(t))
    else None
  }

  lemma ParseIntOfNat(n: nat)
    ensures ParseInt(NatToString(n)) == Some(n)
  {
    var s := NatToString(n);
    assert '0' <= s[0] <= '9' && '0' <= s[|s| - 1] <= '9';
    StripOfStripped(s);
    assert IsDigits(s) && s[0] != '-' && s[0] != '+';
    DigitsOfNat(n);
  }
}
