/** What is at the end of a path, as it is named there. */
module Paths {
  import Strings

  /** The last piece of a path that is one: empty pieces and dots say nothing. */
  function Last(path: string): string {
    LastOf(Strings.Split(path, '/'))
  }

  function LastOf(pieces: seq<string>): string {
    if pieces == [] then ""
    else
      var last := pieces[|pieces| - 1];
      if last == "" || last == "." then LastOf(pieces[..|pieces| - 1]) else last
  }

  /** Slashes, and a dot only where it is all there is after one. */
  predicate Unsaid(path: string) {
    forall i | 0 <= i < |path| :: path[i] == '/' || (path[i] == '.' && (i == 0 || path[i - 1] == '/'))
  }

  /** What a path names is what is in it after a slash or from its start, up to a slash or its end,
      that has nothing said after it. */
  lemma {:induction false} LastNamed(before: string, name: string, after: string)
    requires before == "" || before[|before| - 1] == '/'
    requires name != "" && name != "." && '/' !in name
    requires Unsaid(after) && (after == "" || after[0] == '/')
    ensures Last(before + name + after) == name
    decreases |after|
  {
    var path, n := before + name + after, |after|;
    if after == "" {
      assert path == before + name;
      NamedLast(before, name);
    } else if after[n - 1] == '/' {
      LastNamed(before, name, after[..n - 1]);
      assert path == (before + name + after[..n - 1]) + ['/'] + "";
      LastSkips(before + name + after[..n - 1], "");
    } else {
      LastNamed(before, name, after[..n - 2]);
      assert path == (before + name + after[..n - 2]) + ['/'] + ".";
      LastSkips(before + name + after[..n - 2], ".");
    }
  }

  /** And nothing where nothing in it is said. */
  lemma {:induction false} NothingNamed(path: string)
    requires Unsaid(path)
    ensures Last(path) == ""
    decreases |path|
  {
    var n := |path|;
    if path == "" {
    } else if path == "." {
      Strings.SplitNowhere(".", '/');
      assert ["."][..0] == [];
    } else if path[n - 1] == '/' {
      NothingNamed(path[..n - 1]);
      assert path == path[..n - 1] + ['/'] + "";
      LastSkips(path[..n - 1], "");
    } else {
      NothingNamed(path[..n - 2]);
      assert path == path[..n - 2] + ['/'] + ".";
      LastSkips(path[..n - 2], ".");
    }
  }

  lemma LastSkips(path: string, piece: string)
    requires piece == "" || piece == "."
    ensures Last(path + ['/'] + piece) == Last(path)
  {
    Strings.SplitAt(path, '/', piece);
    Strings.SplitNowhere(piece, '/');
    var pieces := Strings.Split(path, '/');
    assert (pieces + [piece])[..|pieces|] == pieces;
  }

  lemma NamedLast(before: string, name: string)
    requires before == "" || before[|before| - 1] == '/'
    requires name != "" && name != "." && '/' !in name
    ensures Last(before + name) == name
  {
    Strings.SplitNowhere(name, '/');
    if before == "" {
      assert before + name == name;
    } else {
      var n := |before|;
      assert before + name == before[..n - 1] + ['/'] + name;
      Strings.SplitAt(before[..n - 1], '/', name);
    }
  }
}
