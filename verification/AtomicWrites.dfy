/**
 The two ways a file is written whole, step by step, with anything the others do in between: every
 run of either is one of the runs everything is proved of.
 */
module AtomicWrites {
  import opened Atomic
  import Sets

  /** What comes of each step that could fail, how much the others do before each of one's own,
      the names tried beside the path, and how the file system numbers files. */
  datatype Luck = Luck(
    asking: bool, making: bool, setting: bool, filling: bool, syncing: bool, placing: bool, unlinking: bool,
    others: nat, names: nat -> nat, numbers: map<nat, File> -> nat)
  {
    /** No name is tried twice, and no file's number is given to another. */
    ghost predicate Fair() {
      && (forall a, b :: names(a) == names(b) ==> a == b)
      && (forall files :: numbers(files) !in files)
    }
  }

  lemma {:induction false} PossibleThen(s: State, es: seq<Event>, e: Event)
    requires Sound(s) && Possible(s, es) && Enabled(After(s, es), e)
    ensures Possible(s, es + [e]) && After(s, es + [e]) == Next(After(s, es), e)
    decreases |es|
  {
    hide Sound, Next, Enabled;
    if es == [] {
      assert es + [e] == [e] && ([e])[1..] == [];
    } else {
      assert (es + [e])[1..] == es[1..] + [e];
      PossibleThen(Next(s, es[0]), es[1..], e);
    }
  }

  /** A run cut at any of its steps. */
  lemma {:induction false} PossibleCut(s: State, es: seq<Event>, k: nat)
    requires Sound(s) && Possible(s, es) && k <= |es|
    ensures Possible(s, es[..k]) && Possible(After(s, es[..k]), es[k..])
    ensures After(After(s, es[..k]), es[k..]) == After(s, es)
    decreases |es|
  {
    hide Sound, Next, Enabled;
    if k == 0 {
      assert es[..0] == [] && es[0..] == es;
    } else {
      assert es[..k][1..] == es[1..][..k - 1] && es[1..][k - 1..] == es[k..];
      PossibleCut(Next(s, es[0]), es[1..], k - 1);
    }
  }

  predicate By(e: Event, i: nat) {
    e.Does? && e.i == i
  }

  /** The one name a step may add beside the path. */
  function Added(e: Event): Name {
    if e.Does? && e.act.Makes? then Temp(e.act.n) else Target
  }

  lemma OthersKeep(s: State, e: Event, i: nat)
    requires Sound(s) && Enabled(s, e) && i in s.writers && !By(e, i)
    ensures i in Next(s, e).writers && Next(s, e).writers[i] == s.writers[i]
    ensures forall name | name in Next(s, e).names :: name in s.names || name == Target || name == Added(e)
  {
    hide Sound, Next, Done, Looked;
    NextIs(s, e);
    if e.Does? {
      ActAdds(s, e.i, e.act);
    } else if e.Reads? {
      LookAdds(s, e.r, e.look);
    }
  }

  lemma LookAdds(s: State, r: nat, look: Look)
    requires Enabled(s, Reads(r, look))
    ensures Looked(s, r, look).names == s.names && Looked(s, r, look).writers == s.writers
  {
  }

  lemma ActAdds(s: State, i: nat, act: Act)
    requires i in s.writers && May(s, s.writers[i], act) && (s.writers[i].Owns() ==> s.writers[i].file in s.files)
    ensures var s' := Done(s, i, s.writers[i], act);
      && (forall j | j in s.writers && j != i :: j in s'.writers && s'.writers[j] == s.writers[j])
      && forall name | name in s'.names :: name in s.names || name == Target || name == Added(Does(i, act))
  {
  }

  function Concat(pieces: seq<string>): string {
    if pieces == [] then "" else pieces[0] + Concat(pieces[1..])
  }

  /** The names beside the path that have not been tried, of those that are taken. */
  function Untried(s: State, names: nat -> nat, tried: nat): set<Name> {
    set name | name in s.names.Keys && name.Temp? && forall k | 0 <= k < tried :: names(k) != name.n
  }

  lemma UntriedLess(s: State, names: nat -> nat, tried: nat)
    requires (forall a, b :: names(a) == names(b) ==> a == b) && Temp(names(tried)) in s.names
    ensures |Untried(s, names, tried + 1)| < |Untried(s, names, tried)|
  {
    var before, after := Untried(s, names, tried), Untried(s, names, tried + 1);
    assert Temp(names(tried)) in before && Temp(names(tried)) !in after;
    assert after <= before - {Temp(names(tried))};
    Sets.Fewer(after, before - {Temp(names(tried))});
  }

  lemma UntriedMore(s: State, s': State, names: nat -> nat, tried: nat, name: Name)
    requires forall other | other in s'.names :: other in s.names || other == Target || other == name
    ensures |Untried(s', names, tried)| <= |Untried(s, names, tried)| + 1
  {
    var before, after := Untried(s, names, tried), Untried(s', names, tried);
    assert after <= before + {name};
    Sets.Fewer(after, before + {name});
  }

  /** What a writer that has returned has had at the path: all it was to say, with the permissions it
      was given; or, given none, those of what a replacement found there as it looked, and those a
      new file gets where there was nothing. */
  ghost predicate Placed(asked: State, w: Writer, now: State, file: nat) {
    && file in now.placed && file in now.files && now.files[file].text == w.said
    && (w.mode.Some? ==> now.files[file].mode == w.mode.value)
    && (w.mode.None? && w.kind.Replacing? && Target in asked.names ==>
          asked.names[Target] in asked.files && now.files[file].mode == asked.files[asked.names[Target]].mode)
    && (w.mode.None? && (w.kind.Making? || Target !in asked.names) ==> now.files[file].mode == asked.wide)
  }

  /** Where in a run a writer took a step, as it stood. */
  ghost predicate ActedAt(start: State, run: seq<Event>, k: nat, me: nat, act: Act, w: Writer)
    requires Sound(start)
  {
    && k < |run| && run[k] == Does(me, act) && Possible(start, run[..k])
    && me in After(start, run[..k]).writers && After(start, run[..k]).writers[me] == w
  }

  /** What a writer that looked at the path at some step of a run has had there since. */
  ghost predicate PlacedSince(start: State, run: seq<Event>, asked: nat, me: nat, w: Writer, now: State)
    requires Sound(start)
  {
    && asked < |run| && run[asked] == Does(me, Asks) && Possible(start, run[..asked])
    && me in now.writers && Placed(After(start, run[..asked]), w, now, now.writers[me].file)
  }

  lemma ActedStill(start: State, run: seq<Event>, run': seq<Event>, k: nat, me: nat, act: Act, w: Writer)
    requires Sound(start) && ActedAt(start, run, k, me, act, w) && run <= run'
    ensures ActedAt(start, run', k, me, act, w)
  {
    hide Sound, Possible, After;
    assert run'[..k] == run[..k];
  }

  lemma ReturnsPlaced(start: State, run: seq<Event>, k: nat, me: nat, w: Writer)
    requires Sound(start) && Delivered(start) && Possible(start, run) && ActedAt(start, run, k, me, Asks, w)
    requires me in After(start, run).writers && After(start, run).writers[me].stage.Returned?
    ensures PlacedSince(start, run, k, me, w, After(start, run))
  {
    hide Sound, Next, Done, Looked, Delivered;
    PossibleCut(start, run, k);
    AllDelivered(start, run[..k]);
    var asked := After(start, run[..k]);
    assert run[k..][0] == Does(me, Asks) && run[k..][1..] == run[k + 1..];
    assert Enabled(asked, Does(me, Asks));
    ReturnedWhole(asked, me, run[k + 1..]);
  }

  /** The directory of a path, shared with everybody else. */
  class Folder {
    var state: State
    var pending: seq<Event>        // what everybody else is to do, in order
    ghost const start: State
    ghost var run: seq<Event>

    constructor (state: State, pending: seq<Event>)
      requires Fresh(state)
      ensures this.state == state && this.pending == pending && start == state && run == [] && Valid()
    {
      this.state, this.pending, this.start, this.run := state, pending, state, [];
      new;
      FreshDelivered(state);
    }

    ghost predicate Valid()
      reads this
    {
      Sound(start) && Delivered(start) && Possible(start, run) && state == After(start, run)
    }

    method Do(e: Event)
      requires Valid() && Enabled(state, e)
      modifies this
      ensures Valid() && Sound(old(state)) && state == Next(old(state), e) == Apply(old(state), e)
      ensures run == old(run) + [e] && pending == old(pending)
    {
      PossibleThen(start, run, e);
      NextIs(state, e);
      hide Sound, Next;
      state := Apply(state, e);
      run := run + [e];
    }

    /** Some of what the others are to do, where they may, none of it by one writer. */
    method Others(me: nat, count: nat, ghost names: nat -> nat, ghost tried: nat)
      requires Valid() && me in state.writers
      modifies this
      ensures Valid() && me in state.writers && state.writers[me] == old(state).writers[me]
      ensures old(run) <= run && forall e | e in run[|old(run)|..] :: !By(e, me)
      ensures 2 * |pending| + |Untried(state, names, tried)| <= 2 * |old(pending)| + |Untried(old(state), names, tried)|
    {
      hide Sound, Next, Possible, Enabled, After, Untried;
      var left := count;
      assert run[|old(run)|..] == [];
      while left > 0 && pending != [] && !By(pending[0], me) && Enabled(state, pending[0])
        invariant Valid() && me in state.writers && state.writers[me] == old(state).writers[me]
        invariant old(run) <= run && forall e | e in run[|old(run)|..] :: !By(e, me)
        invariant 2 * |pending| + |Untried(state, names, tried)| <= 2 * |old(pending)| + |Untried(old(state), names, tried)|
        decreases left
      {
        ghost var before, was := state, run;
        var e := pending[0];
        OthersKeep(state, e, me);
        Do(e);
        UntriedMore(before, state, names, tried, Added(e));
        assert run[|old(run)|..] == was[|old(run)|..] + [e];
        pending := pending[1..];
        left := left - 1;
      }
    }

    /** One of a writer's own steps, after some of the others'. */
    method Step(me: nat, act: Act, luck: Luck, ghost tried: nat)
      requires Valid() && me in state.writers && May(state, state.writers[me], act) && !act.Makes?
      modifies this
      ensures Valid() && me in state.writers
      ensures Moved(old(state).writers[me], act, state.writers[me])
      ensures old(run) < run && ActedAt(start, run, |run| - 1, me, act, old(state).writers[me])
      ensures old(run) <= run && forall e | e in run[|old(run)|..] && LeavesIt(e, me) :: act.UnlinksInVain? || act.Dies?
    {
      hide Sound, Next, Possible, Enabled, After, Untried, Done;
      Others(me, luck.others, luck.names, tried);
      ghost var before, was := state, run;
      Stays(before, me, act);
      Do(Does(me, act));
      assert run[..|run| - 1] == was;
      assert run[|old(run)|..] == was[|old(run)|..] + [Does(me, act)];
    }

    /** A file made beside the path, under a name nothing else has: names are tried until one is
        free, whatever the others make in the meantime. */
    method Open(me: nat, luck: Luck) returns (ok: bool)
      requires Valid() && me in state.writers && state.writers[me].stage.Asked? && luck.Fair()
      modifies this
      ensures Valid() && me in state.writers && ok == !luck.making
      ensures var was, w := old(state).writers[me], state.writers[me];
        w == was.(stage := if ok then Opened else Raised, temp := w.temp, file := w.file, done := w.done)
      ensures old(run) <= run && forall e | e in run[|old(run)|..] :: !LeavesIt(e, me)
    {
      hide Sound, Next, Possible, Enabled, After, Untried, Done;
      if luck.making {
        Step(me, MakesInVain, luck, 0);
        return false;
      }
      var tried := 0;
      while true
        invariant Valid() && me in state.writers && state.writers[me] == old(state).writers[me]
        invariant old(run) <= run && forall e | e in run[|old(run)|..] :: !LeavesIt(e, me)
        decreases 2 * |pending| + |Untried(state, luck.names, tried)|
      {
        ghost var first := run;
        Others(me, luck.others, luck.names, tried);
        ghost var was := run;
        assert was[|old(run)|..] == first[|old(run)|..] + was[|first|..];
        var beside, file := luck.names(tried), luck.numbers(state.files);
        var taken := Temp(beside) in state.names;
        MakesOne(state, me, beside, file);
        if taken {
          UntriedLess(state, luck.names, tried);
        }
        Do(Does(me, Makes(beside, file)));
        assert run[|old(run)|..] == was[|old(run)|..] + [Does(me, Makes(beside, file))];
        if !taken {
          return true;
        }
        tried := tried + 1;
      }
    }

    /** What was made beside the path taken away, where it can be. */
    method Unlink(me: nat, luck: Luck) returns (ok: bool)
      requires Valid() && me in state.writers && May(state, state.writers[me], Unlinks)
      modifies this
      ensures Valid() && me in state.writers && ok == !luck.unlinking
      ensures var was, w := old(state).writers[me], state.writers[me];
        w.kind == was.kind && w.won == was.won && if ok && was.stage.Linked? then w.stage.Returned? else w.stage.Raised?
      ensures old(run) <= run && (luck.unlinking || forall e | e in run[|old(run)|..] :: !LeavesIt(e, me))
    {
      hide Sound, Next, Possible, Enabled, After, Untried, Done;
      ok := !luck.unlinking;
      if luck.unlinking {
        Step(me, UnlinksInVain, luck, 0);
      } else {
        Step(me, Unlinks, luck, 0);
      }
    }

    /** What is given, written whole and on disk beside the path: its permissions first, then a
        piece at a time. Whatever of that fails, what was made is taken away. */
    method Write(me: nat, pieces: seq<string>, luck: Luck) returns (ok: bool)
      requires Valid() && me in state.writers && state.writers[me].stage.Asked?
      requires state.writers[me].said == Concat(pieces) && luck.Fair()
      modifies this
      ensures Valid() && me in state.writers && state.writers[me].kind == old(state).writers[me].kind
      ensures ok == !(luck.making || luck.setting || (luck.filling && pieces != []) || luck.syncing)
      ensures if ok then state.writers[me].stage.Written? else state.writers[me].stage.Raised?
      ensures old(run) <= run && (luck.unlinking || forall e | e in run[|old(run)|..] :: !LeavesIt(e, me))
    {
      hide Sound, Next, Possible, Enabled, After, Untried, Done;
      ok := Open(me, luck);
      if !ok {
        return;
      }
      ghost var r1 := run;
      ok := Fill(me, pieces, luck);
      ghost var r2 := run;
      if !ok {
        Step(me, Fails, luck, 0);
        ghost var r3 := run;
        var _ := Unlink(me, luck);
        Runs(old(run), r1, r2);
        Runs(old(run), r2, r3);
        Runs(old(run), r3, run);
        return;
      }
      Step(me, Syncs, luck, 0);
      Runs(old(run), r1, r2);
      Runs(old(run), r2, run);
    }

    method Fill(me: nat, pieces: seq<string>, luck: Luck) returns (ok: bool)
      requires Valid() && me in state.writers && state.writers[me].stage.Opened?
      requires state.writers[me].said == Concat(pieces)
      modifies this
      ensures Valid() && me in state.writers && state.writers[me].kind == old(state).writers[me].kind
      ensures ok == !(luck.setting || (luck.filling && pieces != []) || luck.syncing)
      ensures var w := state.writers[me];
        if ok then w.stage.Filling? && w.done == |w.said| else w.stage.Opened? || w.stage.Filling?
      ensures old(run) <= run && forall e | e in run[|old(run)|..] :: !LeavesIt(e, me)
    {
      hide Sound, Next, Possible, Enabled, After, Untried, Done, Concat;
      if luck.setting {
        assert run[|old(run)|..] == [];
        return false;
      }
      Starts(state, me);
      Step(me, Sets, luck, 0);
      assert pieces[0..] == pieces;
      for i := 0 to |pieces|
        invariant Valid() && me in state.writers && state.writers[me].kind == old(state).writers[me].kind
        invariant state.writers[me].stage.Filling? && state.writers[me].said == Concat(pieces)
        invariant state.writers[me].done + |Concat(pieces[i..])| == |Concat(pieces)|
        invariant old(run) <= run && forall e | e in run[|old(run)|..] :: !LeavesIt(e, me)
        invariant i > 0 ==> !luck.filling
      {
        if luck.filling {
          return false;
        }
        ghost var was := run;
        ConcatFrom(pieces, i);
        Step(me, Fills(|pieces[i]|), luck, 0);
        assert run[|old(run)|..] == was[|old(run)|..] + run[|was|..];
      }
      ConcatNone(pieces);
      ok := !luck.syncing;
    }

    /** A file replaced, whole, by what is given. */
    method Writes(me: nat, pieces: seq<string>, luck: Luck) returns (ok: bool, ghost asked: nat)
      requires Valid() && me in state.writers && luck.Fair()
      requires var w := state.writers[me]; w.stage.Starting? && w.kind.Replacing? && w.said == Concat(pieces)
      modifies this
      ensures Valid() && me in state.writers
      ensures if ok then state.writers[me].stage.Returned? else state.writers[me].stage.Raised?
      ensures ok == !((luck.asking && old(state).writers[me].mode.None?) || luck.making || luck.setting
        || (luck.filling && pieces != []) || luck.syncing || luck.placing)
      ensures ok ==> |old(run)| <= asked && PlacedSince(start, run, asked, me, old(state).writers[me], state)
      ensures old(run) <= run && (luck.unlinking || forall e | e in run[|old(run)|..] :: !LeavesIt(e, me))
    {
      hide Sound, Next, Possible, Enabled, After, Untried, Done, ActedAt, PlacedSince, Delivered;
      if luck.asking && state.writers[me].mode.None? {
        Step(me, AsksInVain, luck, 0);
        return false, 0;
      }
      Step(me, Asks, luck, 0);
      ghost var r1 := run;
      asked := |run| - 1;
      ok := Write(me, pieces, luck);
      ghost var r2 := run;
      Runs(old(run), r1, r2);
      if !ok {
        return;
      }
      if luck.placing {
        ok := false;
        Step(me, PlacesInVain, luck, 0);
        ghost var r3 := run;
        var _ := Unlink(me, luck);
        Runs(old(run), r2, r3);
        Runs(old(run), r3, run);
        return;
      }
      Step(me, Places, luck, 0);
      Runs(old(run), r2, run);
      ActedStill(start, r1, run, asked, me, Asks, old(state).writers[me]);
      ReturnsPlaced(start, run, asked, me, old(state).writers[me]);
    }

    /** A file made, whole, where there is none: linked into place, which a file already there
        refuses, and taken away from beside it either way. */
    method Creates(me: nat, pieces: seq<string>, luck: Luck) returns (ok: bool, ghost asked: nat)
      requires Valid() && me in state.writers && luck.Fair()
      requires var w := state.writers[me]; w.stage.Starting? && w.kind.Making? && w.said == Concat(pieces)
      modifies this
      ensures Valid() && me in state.writers
      ensures if ok then state.writers[me].stage.Returned? && state.writers[me].won else state.writers[me].stage.Raised?
      ensures ok ==>
          !(luck.making || luck.setting || (luck.filling && pieces != []) || luck.syncing || luck.placing || luck.unlinking)
      ensures ok ==> |old(run)| <= asked && PlacedSince(start, run, asked, me, old(state).writers[me], state)
      ensures old(run) <= run && (luck.unlinking || forall e | e in run[|old(run)|..] :: !LeavesIt(e, me))
    {
      hide Sound, Next, Possible, Enabled, After, Untried, Done, ActedAt, PlacedSince, Delivered;
      Step(me, Asks, luck, 0);
      ghost var r1 := run;
      asked := |run| - 1;
      ok := Write(me, pieces, luck);
      ghost var r2 := run;
      Runs(old(run), r1, r2);
      if !ok {
        return;
      }
      if luck.placing {
        Step(me, PlacesInVain, luck, 0);
      } else {
        Step(me, Places, luck, 0);
      }
      ghost var r3 := run;
      var linked := state.writers[me].stage.Linked?;
      var unlinked := Unlink(me, luck);
      ok := linked && unlinked;
      Runs(old(run), r2, r3);
      Runs(old(run), r3, run);
      if ok {
        ActedStill(start, r1, run, asked, me, Asks, old(state).writers[me]);
        ReturnsPlaced(start, run, asked, me, old(state).writers[me]);
      }
    }
  }

  lemma ConcatFrom(pieces: seq<string>, i: nat)
    requires i < |pieces|
    ensures |Concat(pieces[i..])| == |pieces[i]| + |Concat(pieces[i + 1..])|
  {
    assert pieces[i..][1..] == pieces[i + 1..];
  }

  lemma ConcatNone(pieces: seq<string>)
    ensures Concat(pieces[|pieces|..]) == ""
  {
  }

  lemma Runs(a: seq<Event>, b: seq<Event>, c: seq<Event>)
    requires a <= b <= c
    ensures c[|a|..] == b[|a|..] + c[|b|..]
  {
  }

  /** A file just made has nothing in it. */
  lemma Starts(s: State, me: nat)
    requires Sound(s) && me in s.writers && s.writers[me].stage.Opened?
    ensures s.writers[me].done == 0
  {
    SoundHolds(s, me);
  }

  /** What a step of a writer's own does to it. */
  predicate Moved(was: Writer, act: Act, w: Writer) {
    && w.kind == was.kind && w.said == was.said && w.mode == was.mode && (!act.Asks? ==> w.keeps == was.keeps)
    && match act
       case Asks => w.stage.Asked?
       case AsksInVain => w.stage.Raised?
       case Makes(_, _) => true
       case MakesInVain => w == was.(stage := Raised)
       case Sets => w.stage.Filling? && w.done == was.done
       case Fills(k) => w.stage.Filling? && w.done == was.done + k
       case Syncs => w.stage.Written?
       case Fails => w.stage.Failing?
       case Places => if was.kind.Replacing? then w.stage.Returned? else (w.stage.Linked? && w.won) || w.stage.Refused?
       case PlacesInVain => w.stage.Failing?
       case Unlinks => w.won == was.won && if was.stage.Linked? then w.stage.Returned? else w.stage.Raised?
       case UnlinksInVain => w.won == was.won && w.stage.Raised?
       case Dies => w.stage.Killed?
  }

  lemma Stays(s: State, me: nat, act: Act)
    requires Sound(s) && me in s.writers && May(s, s.writers[me], act) && !act.Makes?
    ensures Enabled(s, Does(me, act)) && me in Next(s, Does(me, act)).writers
    ensures Moved(s.writers[me], act, Next(s, Does(me, act)).writers[me])
  {
    hide Sound, Next;
    NextIs(s, Does(me, act));
  }

  lemma MakesOne(s: State, me: nat, n: nat, file: nat)
    requires Sound(s) && me in s.writers && s.writers[me].stage.Asked? && file !in s.files
    ensures Enabled(s, Does(me, Makes(n, file)))
    ensures var s' := Next(s, Does(me, Makes(n, file)));
      && me in s'.writers
      && if Temp(n) in s.names then s' == s
         else s'.writers[me] == s.writers[me].(stage := Opened, temp := n, file := file, done := 0)
  {
    hide Sound, Next;
    NextIs(s, Does(me, Makes(n, file)));
  }
}
