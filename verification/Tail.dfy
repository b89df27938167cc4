/**
 The last of what a server said before it failed: no more than so many bytes of it, whole
 characters only, kept in place as each line comes.
 */
module Tail {

  newtype Byte = x: int | 0 <= x < 256

  const KEPT: nat := 16 * 1024

  // ------------------------------------------------------------- UTF-8

  /** A byte that is not the first of a character. */
  predicate Follows(b: Byte): (r: bool)
    ensures r <==> b as int / 64 == 2
  {
    0x80 <= b <= 0xBF
  }

  /** How many bytes of a string its first character takes, by section 4 of RFC 3629, or none
      where it does not begin with one. */
  function First(s: seq<Byte>): (n: nat)
    ensures n <= |s| && n <= 4
  {
    if s == [] then 0
    else if s[0] <= 0x7F then 1
    else if 0xC2 <= s[0] <= 0xDF && |s| >= 2 && Follows(s[1]) then 2
    else if 0xE0 <= s[0] <= 0xEF && |s| >= 3 && Follows(s[1]) && Follows(s[2])
      && (s[0] == 0xE0 ==> 0xA0 <= s[1]) && (s[0] == 0xED ==> s[1] <= 0x9F) then 3
    else if 0xF0 <= s[0] <= 0xF4 && |s| >= 4 && Follows(s[1]) && Follows(s[2]) && Follows(s[3])
      && (s[0] == 0xF0 ==> 0x90 <= s[1]) && (s[0] == 0xF4 ==> s[1] <= 0x8F) then 4
    else 0
  }

  predicate Utf8(s: seq<Byte>) {
    s == [] || (First(s) > 0 && Utf8(s[First(s)..]))
  }

  /** Where a string may be cut. */
  predicate Boundary(s: seq<Byte>, i: nat) {
    i == 0 || i == |s| || (i < |s| && !Follows(s[i]))
  }

  lemma FirstFollows(s: seq<Byte>, i: nat)
    requires 0 < i < First(s)
    ensures Follows(s[i])
  {
  }

  /** The first character is the same whatever comes after it. */
  lemma FirstKept(s: seq<Byte>, more: seq<Byte>)
    requires First(s) > 0
    ensures First(s + more) == First(s)
  {
  }

  lemma FirstAlone(s: seq<Byte>, i: nat)
    requires 0 < First(s) <= i <= |s|
    ensures First(s[..i]) == First(s)
  {
  }

  /** Cut where it may be, a string is two. */
  lemma {:induction false} CutWhole(s: seq<Byte>, i: nat)
    requires Utf8(s) && i <= |s| && Boundary(s, i)
    ensures Utf8(s[..i]) && Utf8(s[i..])
    decreases |s|
  {
    if i > 0 && s != [] {
      var n := First(s);
      if i < n {
        FirstFollows(s, i);
      } else {
        assert s[n..][..i - n] == s[..i][n..] && s[n..][i - n..] == s[i..];
        assert i == |s| || Boundary(s[n..], i - n);
        CutWhole(s[n..], i - n);
        FirstAlone(s, i);
      }
    }
  }

  lemma {:induction false} JoinedWhole(a: seq<Byte>, b: seq<Byte>)
    requires Utf8(a) && Utf8(b)
    ensures Utf8(a + b)
    decreases |a|
  {
    if a == [] {
      assert a + b == b;
    } else {
      var n := First(a);
      FirstKept(a, b);
      assert (a + b)[n..] == a[n..] + b;
      JoinedWhole(a[n..], b);
    }
  }

  /** No character takes more than four bytes. */
  lemma {:induction false} BoundaryNear(s: seq<Byte>, i: nat) returns (j: nat)
    requires Utf8(s) && i <= |s|
    ensures i <= j <= |s| && j <= i + 3 && Boundary(s, j)
    decreases |s|
  {
    if i == 0 || i == |s| {
      j := i;
    } else {
      var n := First(s);
      if i < n {
        j := n;
        if n < |s| {
          Leads(s[n..]);
          assert s[n..][0] == s[n];
        }
      } else {
        var k := BoundaryNear(s[n..], i - n);
        j := n + k;
        if k == 0 && j < |s| {
          Leads(s[n..]);
          assert s[n..][0] == s[n];
        }
        assert k > 0 && j < |s| ==> s[n..][k] == s[j];
      }
    }
  }

  lemma Leads(s: seq<Byte>)
    requires Utf8(s) && s != []
    ensures !Follows(s[0])
  {
  }

  // ------------------------------------------------------------- the last of a string

  /** Where the last `limit` bytes of a string begin, at the next boundary there is. */
  function Cut(s: seq<Byte>, from: nat): (i: nat)
    requires from <= |s|
    ensures from <= i <= |s| && Boundary(s, i) && forall j | from <= j < i :: !Boundary(s, j)
    decreases |s| - from
  {
    if Boundary(s, from) then from else Cut(s, from + 1)
  }

  function Last(s: seq<Byte>, limit: nat): seq<Byte> {
    if |s| <= limit then s else s[Cut(s, |s| - limit)..]
  }

  /** It is the longest suffix of the string that begins where the string may be cut and is within
      the limit, it is whole characters, and it is less than a character short of the limit once
      the string has outgrown it. */
  lemma LongestSuffix(s: seq<Byte>, limit: nat)
    requires Utf8(s)
    ensures var last := Last(s, limit);
      && |last| <= |s| && last == s[|s| - |last|..] && Boundary(s, |s| - |last|) && |last| <= limit
      && (forall i | 0 <= i <= |s| && Boundary(s, i) && |s| - i <= limit :: |s| - i <= |last|)
      && Utf8(last)
      && (if |s| <= limit then last == s else |last| + 3 >= limit)
  {
    if |s| > limit {
      var cut := Cut(s, |s| - limit);
      CutWhole(s, cut);
      var near := BoundaryNear(s, |s| - limit);
      assert near >= cut;
    }
  }

  lemma {:induction false} CutIs(s: seq<Byte>, from: nat, i: nat)
    requires from <= i <= |s| && Boundary(s, i) && forall j | from <= j < i :: !Boundary(s, j)
    ensures Cut(s, from) == i
    decreases i - from
  {
    if from < i {
      CutIs(s, from + 1, i);
    }
  }

  /** Past where it may be cut, a string may be cut where what is left of it may be. */
  lemma BoundaryShifted(s: seq<Byte>, c: nat, i: nat)
    requires c <= i <= |s| && Boundary(s, c)
    ensures Boundary(s, i) <==> Boundary(s[c..], i - c)
  {
    assert i < |s| ==> s[i] == s[c..][i - c];
  }

  lemma {:induction false} CutShifted(s: seq<Byte>, c: nat, from: nat)
    requires c <= from <= |s| && Boundary(s, c)
    ensures Cut(s, from) == c + Cut(s[c..], from - c)
    decreases |s| - from
  {
    BoundaryShifted(s, c, from);
    if !Boundary(s, from) {
      CutShifted(s, c, from + 1);
    }
  }

  /** Where a string may be cut, it may still be once it goes on with whole characters. */
  lemma CutKept(a: seq<Byte>, b: seq<Byte>, from: nat)
    requires from <= |a| && (b != [] ==> !Follows(b[0]))
    ensures Cut(a + b, from) == Cut(a, from) && Boundary(a + b, Cut(a, from))
  {
    var i := Cut(a, from);
    forall j | from <= j < i ensures !Boundary(a + b, j) {
      assert !Boundary(a, j) && (a + b)[j] == a[j];
    }
    assert i < |a| ==> (a + b)[i] == a[i];
    CutIs(a + b, from, i);
  }

  /** The last of some text is enough to go on from: nothing let go of earlier is ever missed. */
  lemma LastOfLast(a: seq<Byte>, b: seq<Byte>, limit: nat)
    requires Utf8(a) && Utf8(b)
    ensures Last(Last(a, limit) + b, limit) == Last(a + b, limit)
  {
    hide Utf8, Boundary, Cut, Last;
    LastIs(a, limit);
    if |a| > limit {
      var s, c := a + b, Cut(a, |a| - limit);
      if b != [] {
        Leads(b);
      }
      CutKept(a, b, |a| - limit);
      assert a[c..] + b == s[c..];
      LastFrom(s, c, |a| - limit, limit);
    }
  }

  lemma LastFrom(s: seq<Byte>, c: nat, from: nat, limit: nat)
    requires c <= |s| && Boundary(s, c) && from <= c && Cut(s, from) == c && limit < |s| && from <= |s| - limit
    ensures Last(s[c..], limit) == Last(s, limit)
  {
    hide Boundary, Cut, Last;
    var t := s[c..];
    LastIs(s, limit);
    LastIs(t, limit);
    if |s| - limit <= c {
      CutBetween(s, from, |s| - limit);
    } else {
      CutShifted(s, c, |s| - limit);
      assert t[Cut(t, |t| - limit)..] == s[c + Cut(t, |t| - limit)..];
    }
  }

  lemma {:induction false} CutBetween(s: seq<Byte>, from: nat, at: nat)
    requires from <= at <= |s| && at <= Cut(s, from)
    ensures Cut(s, at) == Cut(s, from)
  {
    CutIs(s, at, Cut(s, from));
  }

  // ------------------------------------------------------------- kept in place

  /** What a server has said, and as much of the last of it as is kept. */
  class Log {
    var kept: seq<Byte>
    ghost var said: seq<Byte>

    ghost predicate Valid()
      reads this
    {
      Utf8(said) && kept == Last(said, KEPT)
    }

    constructor ()
      ensures Valid() && said == [] && kept == []
    {
      kept, said := [], [];
    }

    /** One more line: put on the end, and what is over let go of from the start, up to where a
        character begins. */
    method Keep(line: seq<Byte>)
      requires Valid() && Utf8(line)
      modifies this
      ensures Valid() && said == old(said) + line + [10]
      ensures kept == Last(old(kept) + line + [10], 16384) == Last(said, 16384)
    {
      hide Utf8, Last, Cut, Boundary;
      Line(said, line);
      LongestSuffix(said, KEPT);
      Line(kept, line);
      ghost var before := kept;
      kept := kept + line;
      kept := kept + [10];
      LastIs(kept, KEPT);
      if |kept| > KEPT {
        var cut := |kept| - KEPT;
        while !Boundary(kept, cut)
          invariant |kept| - KEPT <= cut <= |kept| && kept == before + line + [10] && said == old(said)
          invariant Cut(kept, |kept| - KEPT) == Cut(kept, cut)
          decreases |kept| - cut
        {
          CutOn(kept, cut);
          cut := cut + 1;
        }
        CutOn(kept, cut);
        kept := kept[cut..];
      }
      LastOfLast(said, line + [10], KEPT);
      assert before + (line + [10]) == before + line + [10];
      assert said + (line + [10]) == said + line + [10];
      said := said + line + [10];
    }
  }

  lemma LastIs(s: seq<Byte>, limit: nat)
    ensures Last(s, limit) == if |s| <= limit then s else s[Cut(s, |s| - limit)..]
  {
  }

  lemma CutOn(s: seq<Byte>, from: nat)
    requires from <= |s|
    ensures Boundary(s, from) ==> Cut(s, from) == from
    ensures !Boundary(s, from) ==> from < |s| && Cut(s, from) == Cut(s, from + 1)
  {
  }

  lemma Line(said: seq<Byte>, line: seq<Byte>)
    requires Utf8(said) && Utf8(line)
    ensures Utf8(line + [10]) && Utf8(said + line + [10])
  {
    var end: seq<Byte> := [10];
    assert end[1..] == [];
    JoinedWhole(line, end);
    JoinedWhole(said, line + end);
    assert said + (line + end) == said + line + end;
  }
}
