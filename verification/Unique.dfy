/**
 A name for a file about to be kept: the one it came with, or the first of that numbered one, two
 and on that nothing has.
 */
module Unique {
  import Decimal
  import Paths
  import Sets

  /** Where the last dot of a name is, the length of it where there is none. */
  function LastDot(name: string): (k: nat)
    ensures k <= |name| && (k < |name| ==> name[k] == '.') && forall i | k < i < |name| :: name[i] != '.'
    ensures k == |name| ==> '.' !in name
    decreases |name|
  {
    if name == "" then 0
    else if name[|name| - 1] == '.' then |name| - 1
    else
      var k := LastDot(name[..|name| - 1]);
      if k == |name| - 1 then |name| else k
  }

  /** A name up to its extension; a dot it begins with begins none. */
  function Stem(name: string): string {
    if 0 < LastDot(name) then name[..LastDot(name)] else name
  }

  function Ext(name: string): string {
    if 0 < LastDot(name) then name[LastDot(name)..] else ""
  }

  lemma StemAndExt(name: string)
    ensures Stem(name) + Ext(name) == name
  {
  }

  /** The n-th name tried. */
  function Tried(name: string, n: nat): string {
    if n == 0 then name else Stem(name) + " (" + Decimal.Digits(n) + ")" + Ext(name)
  }

  /** A name is numbered before its last dot and what is after that; where it has no dot but one it
      begins with, at its end. */
  lemma TriedNumbered(stem: string, ext: string, n: nat)
    requires stem != "" && '.' !in ext && n > 0
    ensures Tried(stem + ['.'] + ext, 0) == stem + ['.'] + ext
    ensures Tried(stem + ['.'] + ext, n) == stem + " (" + Decimal.Digits(n) + ")" + (['.'] + ext)
  {
    var name := stem + ['.'] + ext;
    assert name[|stem|] == '.' && forall i | |stem| < i < |name| :: name[i] == ext[i - |stem| - 1];
    assert LastDot(name) == |stem|;
    assert name[..|stem|] == stem && name[|stem|..] == ['.'] + ext;
  }

  lemma TriedPlain(name: string, n: nat)
    requires name != "" && '.' !in name[1..] && n > 0
    ensures Tried(name, 0) == name && Tried(name, n) == name + " (" + Decimal.Digits(n) + ")"
  {
    assert forall i | 0 < i < |name| :: name[i] == name[1..][i - 1] && name[1..][i - 1] in name[1..];
    assert name[|name|..] == "";
  }

  /** No name is tried twice. */
  lemma TriedOnce(name: string, m: nat, n: nat)
    requires m != n
    ensures Tried(name, m) != Tried(name, n)
  {
    StemAndExt(name);
    if m > 0 && n > 0 && Tried(name, m) == Tried(name, n) {
      var a, b := Decimal.Digits(m), Decimal.Digits(n);
      Regrouped(Stem(name) + " (", a, ")", Ext(name));
      Regrouped(Stem(name) + " (", b, ")", Ext(name));
      Between(Stem(name) + " (", a, b, ")" + Ext(name));
      Decimal.DigitsInjective(m, n);
    } else if m == 0 || n == 0 {
      var k := if m == 0 then n else m;
      assert |Tried(name, k)| > |name|;
    }
  }

  lemma Regrouped(a: string, b: string, c: string, d: string)
    ensures a + b + c + d == a + b + (c + d)
  {
  }

  lemma Between(before: string, a: string, b: string, after: string)
    requires before + a + after == before + b + after
    ensures a == b
  {
    var s := before + a + after;
    assert |a| == |b|;
    assert a == s[|before|..|before| + |a|] && b == s[|before|..|before| + |b|];
  }

  /** The name a path is kept by: the last of it, or a name where it has none. */
  function Kept(name: string): string {
    if Paths.Last(name) == "" || Paths.Last(name) == ".." then "download" else Paths.Last(name)
  }

  /** It is what the path names, unless that is the directory above; and where it names nothing, or
      that, it is `download`. */
  lemma KeptNamed(before: string, name: string, after: string)
    requires before == "" || before[|before| - 1] == '/'
    requires name != "" && name != "." && '/' !in name
    requires Paths.Unsaid(after) && (after == "" || after[0] == '/')
    ensures Kept(before + name + after) == if name == ".." then "download" else name
  {
    hide Paths.Last;
    Paths.LastNamed(before, name, after);
  }

  lemma KeptNothing(path: string)
    requires Paths.Unsaid(path)
    ensures Kept(path) == "download"
  {
    hide Paths.Last;
    Paths.NothingNamed(path);
  }

  function Join(dir: string, name: string): string {
    dir + "/" + name
  }

  lemma JoinedOnce(dir: string, a: string, b: string)
    requires Join(dir, a) == Join(dir, b)
    ensures a == b
  {
    assert a == Join(dir, a)[|dir| + 1..] && b == Join(dir, b)[|dir| + 1..];
  }

  /** The first name nothing has, of those that are tried, among whatever there is already and
      whatever is to be: with no more of these than there are, one is found. */
  method Unique(dir: string, name: string, there: set<string>, going: seq<string>) returns (path: string, ghost n: nat)
    ensures path == Join(dir, Tried(Kept(name), n)) && path !in there && path !in going
    ensures forall m | 0 <= m < n :: Join(dir, Tried(Kept(name), m)) in there || Join(dir, Tried(Kept(name), m)) in going
    ensures n <= |there| + |going|
  {
    hide Tried, Kept, Join;
    var kept := Kept(name);
    ghost var taken := there + set other | other in going;
    ghost var seen: set<string> := {};
    GoingFew(there, going);
    path := Join(dir, kept);
    n := 0;
    TriedFirst(kept);
    var next := 1;
    while path in there || path in going
      invariant path == Join(dir, Tried(kept, n)) && next == n + 1
      invariant seen <= taken && |seen| == n
      invariant forall other | other in seen :: exists m | 0 <= m < n :: other == Join(dir, Tried(kept, m))
      invariant forall m | 0 <= m < n :: Join(dir, Tried(kept, m)) in seen
      decreases |taken| - n
    {
      if path in seen {
        var m :| 0 <= m < n && path == Join(dir, Tried(kept, m));
        JoinedOnce(dir, Tried(kept, m), Tried(kept, n));
        TriedOnce(kept, m, n);
      }
      seen := seen + {path};
      Sets.Fewer(seen, taken);
      TriedNext(kept, next);
      path := Join(dir, Stem(kept) + " (" + Decimal.Digits(next) + ")" + Ext(kept));
      n := n + 1;
      next := next + 1;
    }
    Sets.Fewer(seen, taken);
  }

  lemma TriedFirst(name: string)
    ensures Tried(name, 0) == name
  {
  }

  lemma TriedNext(name: string, n: nat)
    requires n > 0
    ensures Tried(name, n) == Stem(name) + " (" + Decimal.Digits(n) + ")" + Ext(name)
  {
  }

  lemma {:induction false} GoingFew<T>(there: set<T>, going: seq<T>)
    ensures |there + set other | other in going| <= |there| + |going|
  {
    if going == [] {
      assert there + (set other | other in going) == there;
    } else {
      GoingFew(there, going[1..]);
      assert there + (set other | other in going) == (there + set other | other in going[1..]) + {going[0]};
    }
  }
}
