/** The parts of Python's `posixpath` the evaluator uses: `splitext`, `basename` and `join`. */
module Paths {
  import Strings

  /** `s.rfind(c)`: the last position of `c`, or -1. */
  function RFind(s: string, c: char): (r: int)
    ensures -1 <= r < |s|
    ensures r >= 0 ==> s[r] == c
    ensures forall k :: r < k < |s| ==> s[k] != c
  {
    if s == [] then -1
    else if s[|s| - 1] == c then |s| - 1
    else RFind(s[..|s| - 1], c)
  }

  /** Text free of `c` appended after `s` leaves the last `c` where it was. */
  lemma {:induction false} RFindAppend(s: string, x: string, c: char)
    requires c !in x
    ensures RFind(s + x, c) == RFind(s, c)
  {
    if x != [] {
      var y := x[..|x| - 1];
      assert (s + x)[..|s + x| - 1] == s + y;
      RFindAppend(s, y, c);
    } else {
      assert s + x == s;
    }
  }

  /** Two names that differ only in a tail free of '/' lie in the same directory. */
  lemma SameDirectory(stem: string, x: string, y: string)
    requires '/' !in x && '/' !in y
    ensures RFind(stem + x, '/') == RFind(stem + y, '/')
    ensures (stem + x)[..RFind(stem + y, '/') + 1] == (stem + y)[..RFind(stem + y, '/') + 1]
  {
    RFindAppend(stem, x, '/');
    RFindAppend(stem, y, '/');
    var r := RFind(stem, '/');
    assert (stem + x)[..r + 1] == stem[..r + 1];
    assert (stem + y)[..r + 1] == stem[..r + 1];
  }

  /** Replacing the extension by a tail free of '/' keeps the directory. */
  lemma NewExtSameDirectory(p: string, x: string)
    requires '/' !in x
    ensures RFind(SplitExt(p).0 + x, '/') == RFind(p, '/')
    ensures (SplitExt(p).0 + x)[..RFind(p, '/') + 1] == p[..RFind(p, '/') + 1]
  {
    var stem, ext := SplitExt(p).0, SplitExt(p).1;
    assert p == stem + ext && '/' !in ext;
    SameDirectory(stem, x, ext);
  }

  predicate OnlyDots(s: string)
  {
    forall i :: 0 <= i < |s| ==> s[i] == '.'
  }

  /** The split `splitext` makes, given the last '/' and the last '.' of `p`. */
  function SplitAt(p: string, sep: int, dot: int): (r: (string, string))
    requires -1 <= sep < |p| && -1 <= dot < |p|
    requires dot >= 0 ==> p[dot] == '.'
    requires forall k :: dot < k < |p| ==> p[k] != '.'
    requires forall k :: sep < k < |p| ==> p[k] != '/'
    ensures r.0 + r.1 == p
    ensures r.1 != [] ==> r.1[0] == '.'
    ensures forall k :: 0 <= k < |r.1| ==> r.1[k] != '/'
    ensures forall k :: 1 <= k < |r.1| ==> r.1[k] != '.'
  {
    if dot > sep && !OnlyDots(p[sep + 1..dot]) then
      assert p[..dot] + p[dot..] == p;
      (p[..dot], p[dot..])
    else (p, "")
  }

  /**
   * `os.path.splitext(p)`: the extension is the text from the last dot of the last
   * path component, unless that component has nothing but dots before it.
   */
  function SplitExt(p: string): (r: (string, string))
    ensures r.0 + r.1 == p
    ensures r.1 != [] ==> r.1[0] == '.'
    ensures forall k :: 0 <= k < |r.1| ==> r.1[k] != '/'
    ensures forall k :: 1 <= k < |r.1| ==> r.1[k] != '.'
  {
    SplitAt(p, RFind(p, '/'), RFind(p, '.'))
  }

  /** `os.path.splitext(p)[-1]` */
  function Ext(p: string): string
  {
    SplitExt(p).1
  }

  /** `os.path.basename(p)`: the text after the last '/'. */
  function Basename(p: string): (b: string)
    ensures '/' !in b && Strings.EndsWith(p, b)
    ensures '/' !in p ==> b == p
  {
    p[RFind(p, '/') + 1..]
  }

  /** `os.path.join(a, b)` */
  function Join(a: string, b: string): (r: string)
    ensures Strings.EndsWith(r, b)
  {
    if b != [] && b[0] == '/' then b
    else if a == [] || a[|a| - 1] == '/' then a + b
    else a + "/" + b
  }

  /** `os.path.join(a, *parts)` */
  function JoinAll(a: string, parts: seq<string>): string
    decreases parts
  {
    if parts == [] then a else JoinAll(Join(a, parts[0]), parts[1..])
  }
}
