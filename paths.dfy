/**
 * The parts of Python's `os.path` (POSIX flavour) and `str` that the
 * scripts rely on: `rfind`, `basename`, `dirname`, `join`, `splitext`,
 * `lower` and `endswith`.
 */
module PosixPath {
  import opened Common

  /** `s.rfind(c)`: the last index holding `c`, or -1 when there is none. */
  function LastIndexOf(s: string, c: char): (r: int)
    ensures -1 <= r < |s|
    ensures r >= 0 ==> s[r] == c
    ensures forall j :: r < j < |s| ==> s[j] != c
  {
    if s == [] then -1
    else if s[|s| - 1] == c then |s| - 1
    else LastIndexOf(s[..|s| - 1], c)
  }

  /** Appending text free of `c` does not move the last occurrence of `c`. */
  lemma {:induction false} LastIndexOfAppend(a: string, b: string, c: char)
    requires c !in b
    ensures LastIndexOf(a + b, c) == LastIndexOf(a, c)
  {
    if b != [] {
      var ab := a + b;
      assert ab[|ab| - 1] == b[|b| - 1];
      assert ab[..|ab| - 1] == a + b[..|b| - 1];
      LastIndexOfAppend(a, b[..|b| - 1], c);
    } else {
      assert a + b == a;
    }
  }

  /** `os.path.basename`: the longest suffix that holds no '/'. */
  function Basename(p: Path): (r: Path)
    ensures '/' !in r
    ensures |r| <= |p| && r == p[|p| - |r|..]
    ensures |r| < |p| ==> p[|p| - |r| - 1] == '/'
  {
    p[LastIndexOf(p, '/') + 1..]
  }

  predicate AllSlashes(s: string)
  {
    forall i :: 0 <= i < |s| ==> s[i] == '/'
  }

  /** `s.rstrip('/')`. */
  function StripTrailingSlashes(s: string): (r: string)
    ensures |r| <= |s| && r == s[..|r|]
    ensures AllSlashes(s[|r|..])
    ensures r == [] || r[|r| - 1] != '/'
  {
    if s != [] && s[|s| - 1] == '/' then StripTrailingSlashes(s[..|s| - 1]) else s
  }

  /**
   * `os.path.dirname`: everything before the last '/', with the trailing
   * slashes stripped unless that head is made of slashes only.
   */
  function Dirname(p: Path): (r: Path)
    ensures |r| <= |p| - |Basename(p)| && r == p[..|r|]
    ensures AllSlashes(p[|r|..|p| - |Basename(p)|])
  {
    var head := p[..LastIndexOf(p, '/') + 1];
    if head != [] && !AllSlashes(head) then StripTrailingSlashes(head) else head
  }

  /** `os.path.join(a, b)`: an absolute `b` wins, otherwise one '/' separates them. */
  function Join(a: Path, b: Path): (r: Path)
    ensures |b| <= |r| && r[|r| - |b|..] == b
    ensures (b == [] || b[0] != '/') ==> |a| <= |r| && r[..|a|] == a
  {
    if b != [] && b[0] == '/' then b
    else if a == [] || a[|a| - 1] == '/' then a + b
    else a + "/" + b
  }

  /** A directory spelled the way `os.path.abspath` returns it: rooted, no trailing '/'. */
  predicate IsNormalDir(d: Path)
  {
    |d| >= 2 && d[0] == '/' && d[|d| - 1] != '/'
  }

  /** Joining a normal directory with a plain name can be undone by dirname and basename. */
  lemma JoinSplits(d: Path, n: Path)
    requires IsNormalDir(d)
    requires n != [] && '/' !in n
    ensures Join(d, n) == d + "/" + n
    ensures Basename(Join(d, n)) == n
    ensures Dirname(Join(d, n)) == d
  {
    var p := d + "/" + n;
    assert p == (d + "/") + n;
    LastIndexOfAppend(d + "/", n, '/');
    assert LastIndexOf(p, '/') == |d|;
    assert p[|d| + 1..] == n;
    var head := p[..|d| + 1];
    assert head == d + "/";
    assert head[|head| - 2] != '/';
    assert !AllSlashes(head);
    assert head[..|head| - 1] == d;
    assert StripTrailingSlashes(head) == StripTrailingSlashes(d) == d;
  }

  /** Basename of a join with a plain name is that name, whatever the directory. */
  lemma BasenameOfJoin(d: Path, n: Path)
    requires n != [] && '/' !in n
    ensures Basename(Join(d, n)) == n
  {
    var p := Join(d, n);
    var x := if d == [] || d[|d| - 1] == '/' then d else d + "/";
    assert p == x + n;
    LastIndexOfAppend(x, n, '/');
    if x == [] {
      assert p == n;
    } else {
      assert x[|x| - 1] == '/';
      assert LastIndexOf(x, '/') == |x| - 1;
      assert p[|x|..] == n;
    }
  }

  /** Whether a non-dot character occurs in `p[lo..hi]`. */
  predicate HasNonDot(p: string, lo: int, hi: int)
    requires 0 <= lo && hi <= |p|
  {
    exists i :: lo <= i < hi && p[i] != '.'
  }

  /**
   * `os.path.splitext`: the extension runs from the last '.' of the last
   * path component, unless everything before that dot in the component is
   * dots (a leading dot does not start an extension).
   */
  function SplitExt(p: Path): (r: (Path, string))
    ensures r.0 + r.1 == p
    ensures r.1 == [] || (r.1[0] == '.' && '.' !in r.1[1..] && '/' !in r.1)
  {
    var sep := LastIndexOf(p, '/');
    var dot := LastIndexOf(p, '.');
    if dot > sep && HasNonDot(p, sep + 1, dot) then (p[..dot], p[dot..]) else (p, [])
  }

  /** A stem whose last character is neither '.' nor '/'. */
  predicate EndsPlain(s: string)
  {
    s != [] && s[|s| - 1] != '.' && s[|s| - 1] != '/'
  }

  /** An extension as `splitext` returns it: a dot followed by neither dots nor slashes. */
  predicate IsExtension(e: string)
  {
    e != [] && e[0] == '.' && '.' !in e[1..] && '/' !in e
  }

  /** `splitext` takes exactly the known extension off a plain stem. */
  lemma SplitExtOfStem(q: Path, ext: string)
    requires EndsPlain(q) && IsExtension(ext)
    ensures SplitExt(q + ext) == (q, ext)
  {
    var p := q + ext;
    assert p == (q + ".") + ext[1..];
    LastIndexOfAppend(q + ".", ext[1..], '.');
    assert (q + ".")[|q|] == '.';
    assert LastIndexOf(p, '.') == |q|;
    LastIndexOfAppend(q, ext, '/');
    var sep := LastIndexOf(p, '/');
    assert sep < |q| - 1;
    assert p[|q| - 1] == q[|q| - 1];
    assert HasNonDot(p, sep + 1, |q|);
    assert p[..|q|] == q && p[|q|..] == ext;
  }

  /** ASCII `str.lower` on one character. */
  function LowerChar(c: char): char
  {
    if 'A' <= c <= 'Z' then (c as int + 32) as char else c
  }

  function Lower(s: string): string
  {
    seq(|s|, i requires 0 <= i < |s| => LowerChar(s[i]))
  }

  function EndsWith(s: string, suffix: string): bool
  {
    |suffix| <= |s| && s[|s| - |suffix|..] == suffix
  }

  /** Whether the name ends in ".jpg" in any letter case. */
  predicate HasJpgSuffix(s: string)
  {
    EndsWith(Lower(s), ".jpg")
  }

  /** A '/'-prefixed path has a jpg suffix exactly when its plain tail does. */
  lemma JpgSuffixOfJoin(d: Path, n: Path)
    requires '/' !in n
    ensures HasJpgSuffix(d + "/" + n) <==> HasJpgSuffix(n)
  {
    var p := d + "/" + n;
    var lp := Lower(p);
    if |n| >= 4 {
      assert lp[|lp| - 4..] == Lower(n)[|n| - 4..];
    } else {
      var k := |p| - 4;
      assert |p| >= 4 ==> lp[k..][3 - |n|] == LowerChar('/');
    }
  }
}
