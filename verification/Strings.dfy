/** Strings taken apart: spaces off their ends, and at a mark, its first, its last or each. */
module Strings {

  predicate Space(c: char) {
    || '\t' <= c <= '\r' || '\U{1C}' <= c <= ' ' || c == '\U{85}' || c == '\U{A0}' || c == '\U{1680}'
    || '\U{2000}' <= c <= '\U{200A}' || c == '\U{2028}' || c == '\U{2029}' || c == '\U{202F}'
    || c == '\U{205F}' || c == '\U{3000}'
  }

  function LStrip(s: string): string {
    if s != "" && Space(s[0]) then LStrip(s[1..]) else s
  }

  function Strip(s: string): string {
    if s != "" && Space(s[|s| - 1]) then Strip(s[..|s| - 1]) else LStrip(s)
  }

  /** With no space at either end. */
  predicate Bare(s: string) {
    s != "" ==> !Space(s[0]) && !Space(s[|s| - 1])
  }

  lemma {:induction false} LStripBare(s: string)
    ensures LStrip(s) != "" ==> !Space(LStrip(s)[0]) && s != "" && LStrip(s)[|LStrip(s)| - 1] == s[|s| - 1]
    ensures forall c | c in LStrip(s) :: c in s
    ensures s != "" && !Space(s[0]) ==> LStrip(s) == s
  {
    if s != "" && Space(s[0]) {
      LStripBare(s[1..]);
    }
  }

  /** Stripping leaves what is bare alone, and everything else bare. */
  lemma {:induction false} StripBare(s: string)
    ensures Bare(Strip(s)) && (Bare(s) ==> Strip(s) == s)
    ensures forall c | c in Strip(s) :: c in s
  {
    if s != "" && Space(s[|s| - 1]) {
      StripBare(s[..|s| - 1]);
    } else {
      LStripBare(s);
    }
  }

  /** Nothing but spaces is taken off. */
  lemma {:induction false} StripTakes(s: string) returns (before: string, after: string)
    ensures s == before + Strip(s) + after
    ensures forall c | c in before || c in after :: Space(c)
  {
    if s != "" && Space(s[|s| - 1]) {
      before, after := StripTakes(s[..|s| - 1]);
      after := after + [s[|s| - 1]];
    } else {
      before := LStripTakes(s);
      after := "";
    }
  }

  lemma {:induction false} LStripTakes(s: string) returns (before: string)
    ensures s == before + LStrip(s)
    ensures forall c | c in before :: Space(c)
  {
    before := "";
    if s != "" && Space(s[0]) {
      before := LStripTakes(s[1..]);
      before := [s[0]] + before;
    }
  }

  /** What is before the first of a character and after it, and whether there is one. */
  datatype Parts = Parts(before: string, found: bool, after: string)

  function Partition(s: string, mark: char): Parts {
    if s == "" then Parts("", false, "")
    else if s[0] == mark then Parts("", true, s[1..])
    else
      var rest := Partition(s[1..], mark);
      rest.(before := [s[0]] + rest.before)
  }

  /** And of the last: where there is none, everything is after it. */
  function RPartition(s: string, mark: char): Parts {
    if s == "" then Parts("", false, "")
    else if s[|s| - 1] == mark then Parts(s[..|s| - 1], true, "")
    else
      var rest := RPartition(s[..|s| - 1], mark);
      rest.(after := rest.after + [s[|s| - 1]])
  }

  lemma {:induction false} PartedFirst(s: string, mark: char)
    ensures var p := Partition(s, mark);
      && mark !in p.before
      && if p.found then s == p.before + [mark] + p.after else s == p.before && p.after == ""
  {
    if s != "" && s[0] != mark {
      PartedFirst(s[1..], mark);
    }
  }

  lemma {:induction false} PartsAt(before: string, mark: char, after: string)
    requires mark !in before
    ensures Partition(before + [mark] + after, mark) == Parts(before, true, after)
  {
    var s := before + [mark] + after;
    if before == "" {
      assert s[0] == mark && s[1..] == after;
    } else {
      assert s[0] == before[0] && s[1..] == before[1..] + [mark] + after && before[0] in before;
      PartsAt(before[1..], mark, after);
    }
  }

  lemma {:induction false} PartsNowhere(s: string, mark: char)
    requires mark !in s
    ensures Partition(s, mark) == Parts(s, false, "")
  {
    if s != "" {
      assert s[0] in s;
      PartsNowhere(s[1..], mark);
    }
  }

  lemma {:induction false} PartedLast(s: string, mark: char)
    ensures var p := RPartition(s, mark);
      && mark !in p.after
      && if p.found then s == p.before + [mark] + p.after else s == p.after && p.before == ""
  {
    if s != "" && s[|s| - 1] != mark {
      PartedLast(s[..|s| - 1], mark);
    }
  }

  lemma {:induction false} PartsLast(before: string, mark: char, after: string)
    requires mark !in after
    ensures RPartition(before + [mark] + after, mark) == Parts(before, true, after)
    decreases |after|
  {
    var s := before + [mark] + after;
    if after == "" {
      assert s[|s| - 1] == mark && s[..|s| - 1] == before;
    } else {
      assert s[|s| - 1] == after[|after| - 1] && s[..|s| - 1] == before + [mark] + after[..|after| - 1];
      PartsLast(before, mark, after[..|after| - 1]);
    }
  }

  /** What is between each two of a mark. */
  function Split(s: string, mark: char): seq<string> {
    if s == "" then [""]
    else if s[0] == mark then [""] + Split(s[1..], mark)
    else
      var rest := Split(s[1..], mark);
      if rest == [] then [[s[0]]] else [[s[0]] + rest[0]] + rest[1..]
  }

  lemma {:induction false} SplitNowhere(s: string, mark: char)
    requires mark !in s
    ensures Split(s, mark) == [s]
  {
    if s != "" {
      assert s[0] in s && s == [s[0]] + s[1..];
      SplitNowhere(s[1..], mark);
    }
  }

  function Onto(c: char, pieces: seq<string>, mark: char): seq<string>
    requires pieces != []
  {
    if c == mark then [""] + pieces else [[c] + pieces[0]] + pieces[1..]
  }

  lemma SplitStep(c: char, s: string, mark: char)
    requires Split(s, mark) != []
    ensures Split([c] + s, mark) == Onto(c, Split(s, mark), mark)
  {
    assert ([c] + s)[1..] == s;
  }

  lemma OntoThen(c: char, a: seq<string>, b: seq<string>, mark: char)
    requires a != []
    ensures Onto(c, a + b, mark) == Onto(c, a, mark) + b
  {
    assert (a + b)[0] == a[0] && (a + b)[1..] == a[1..] + b;
  }

  lemma SplitFirst(mark: char, after: string)
    ensures Split([mark] + after, mark) == Split("", mark) + Split(after, mark)
  {
    assert ([mark] + after)[1..] == after;
  }

  /** At a mark, what is before it is split and then what is after it. */
  lemma {:induction false} SplitAt(before: string, mark: char, after: string)
    ensures Split(before, mark) != []
    ensures Split(before + [mark] + after, mark) == Split(before, mark) + Split(after, mark)
    decreases |before|
  {
    hide Split, Onto;
    if before == "" {
      SplitFirst(mark, after);
      SplitNowhere("", mark);
      assert before + [mark] + after == [mark] + after;
    } else {
      var c, rest := before[0], before[1..];
      SplitAt(rest, mark, after);
      SplitStep(c, rest, mark);
      SplitStep(c, rest + [mark] + after, mark);
      OntoThen(c, Split(rest, mark), Split(after, mark), mark);
      OntoSome(c, Split(rest, mark), mark);
      assert before == [c] + rest;
      assert before + [mark] + after == [c] + (rest + [mark] + after);
    }
  }

  lemma OntoSome(c: char, pieces: seq<string>, mark: char)
    requires pieces != []
    ensures Onto(c, pieces, mark) != []
  {
  }
}
