/**
 `drive`: one turn taken by the CLI on another machine, in the order its locks, copies and
 cleaning up come in. Every call that may fail takes its outcome from `Luck`, so that what is
 proved holds whichever of them does; what the turn did is the run of `Lending` it appended.
 */
module Drive {
  import opened Lending
  import opened Maybe

  /** A file to be projected and where on the target it is to land: one file may land in several
      places, where one directory is projected as several variables or inside another. */
  datatype Parcel = Parcel(file: File, at: Place)

  /** How each call of a turn comes out; those about one copy go by where it lands. */
  datatype Luck = Luck(
    lockable: set<string>,   // the directories this machine can open and lock
    reached: bool,           // the road to the target opens
    ready: bool,             // the handshake, the CLI's lookup and the fence all succeed
    session: bool,           // the target makes the turn's private directory
    readable: set<Place>,    // those whose file can be read here
    sendable: set<Place>,    // those that land whole
    homed: bool,             // the virtual home is built and the CLI started
    refreshes: seq<Place>,   // what the CLI refreshes as it goes
    cutOff: bool,            // the turn ends here with the CLI still going there
    heard: set<Place>,       // those read back whole
    written: set<Place>)     // those whose original can be read again and written over

  datatype Outcome = TurnRefused | TurnFailed | TurnTaken

  function Events(t: nat, acts: seq<Act>): seq<Event> {
    seq(|acts|, i requires 0 <= i < |acts| => Took(t, acts[i]))
  }

  function Places(parcels: seq<Parcel>): (r: seq<Place>)
    ensures |r| == |parcels| && forall i | 0 <= i < |r| :: r[i] == parcels[i].at
  {
    seq(|parcels|, i requires 0 <= i < |parcels| => parcels[i].at)
  }

  /** Each file read here and then put on the target. */
  function Sends(parcels: seq<Parcel>): seq<Act> {
    if parcels == [] then []
    else
      var last := parcels[|parcels| - 1];
      Sends(parcels[..|parcels| - 1]) + [Fetched(last.file, last.at), Sent(last.at)]
  }

  /** Where the copies are that some steps read back, in order. */
  function Reads(acts: seq<Act>): seq<Place> {
    if acts == [] then []
    else
      var last := acts[|acts| - 1];
      Reads(acts[..|acts| - 1]) + if last.ReadThere? then [last.at] else []
  }

  /** The steps of bringing copies back. */
  ghost predicate AllBack(acts: seq<Act>) {
    forall act | act in acts :: act.ReadThere? || act.Compared? || act.Wrote?
  }

  /** A step that neither sends, reads back, sweeps nor lets go. */
  predicate Quiet(act: Act) {
    !(act.Sent? || act.ReadThere? || act.Swept? || act.Over? || act.Killed? || act.LetGo? || act.Refused?)
  }

  ghost predicate AllQuiet(acts: seq<Act>) {
    forall act | act in acts :: Quiet(act)
  }

  predicate Distinct<T(==)>(xs: seq<T>) {
    forall i, j | 0 <= i < j < |xs| :: xs[i] != xs[j]
  }

  /** The whole of a turn that got its locks: what it sent is read back, all of it, before its
      private directory is swept, and letting go comes last. */
  function Turned(before: seq<Act>, lent: seq<Parcel>, middle: seq<Act>, backs: seq<Act>): seq<Act> {
    Head(before, lent, middle) + Tail(backs, MadeSession in before)
  }

  function Head(before: seq<Act>, lent: seq<Parcel>, middle: seq<Act>): seq<Act> {
    before + Sends(lent) + middle
  }

  function Tail(backs: seq<Act>, session: bool): seq<Act> {
    backs + (if session then [Swept] else []) + [Over]
  }

  lemma HeadThen(first: seq<Act>, before: seq<Act>, lent: seq<Parcel>, middle: seq<Act>)
    ensures Head(first + before, lent, middle) == first + Head(before, lent, middle)
  {
  }

  lemma TurnedThen(first: seq<Act>, before: seq<Act>, lent: seq<Parcel>, middle: seq<Act>, backs: seq<Act>)
    requires MadeSession !in first
    ensures Turned(first + before, lent, middle, backs) == first + Turned(before, lent, middle, backs)
  {
    HeadThen(first, before, lent, middle);
    hide Head, Tail;
    var head, tail := Head(before, lent, middle), Tail(backs, MadeSession in before);
    assert first + head + tail == first + (head + tail);
  }

  lemma QuietAlone()
    ensures AllQuiet([]) && AllQuiet([GivenUp])
  {
  }

  lemma NothingRead()
    ensures Reads([]) == Places([]) == [] && AllBack([])
    ensures forall files, signIns :: [] <= Picked(files, signIns)
  {
  }

  /** A turn's head with its middle yet to come, and then with it. */
  lemma HeadGrows(before: seq<Act>, lent: seq<Parcel>, middle: seq<Act>)
    ensures Head(before, lent, []) == before + Sends(lent)
    ensures Head(before, lent, middle) == Head(before, lent, []) + middle
    ensures Head(before, lent, middle) == before + (Sends(lent) + middle)
  {
  }

  function Members<T(==,!new)>(xs: seq<T>): (s: set<T>)
    ensures forall x :: x in s <==> x in xs
  {
    set x | x in xs
  }

  /** Those of some files that are sign-ins refreshing themselves, in order. */
  function Picked(files: seq<Parcel>, signIns: set<File>): (r: seq<Parcel>)
    ensures forall p :: p in r <==> p in files && p.file in signIns
  {
    if files == [] then []
    else
      var last := files[|files| - 1];
      assert files == files[..|files| - 1] + [last];
      Picked(files[..|files| - 1], signIns) + if last.file in signIns then [last] else []
  }

  /** Whether everything a turn needs before its CLI is started goes well. */
  ghost predicate AllWell(files: seq<Parcel>, wantsSession: bool, luck: Luck) {
    && luck.reached && luck.ready && (wantsSession ==> luck.session)
    && (forall p | p in files :: p.at in luck.readable && p.at in luck.sendable) && luck.homed
  }

  /** How many of some files, from the first, can be read here and land. */
  function Through(files: seq<Parcel>, luck: Luck): (n: nat)
    ensures n <= |files| && forall i | 0 <= i < n :: files[i].at in luck.readable && files[i].at in luck.sendable
    ensures n < |files| ==> !(files[n].at in luck.readable && files[n].at in luck.sendable)
    decreases |files|
  {
    if files == [] || !(files[0].at in luck.readable && files[0].at in luck.sendable) then 0
    else 1 + Through(files[1..], luck)
  }

  lemma {:induction false} ThroughIs(files: seq<Parcel>, luck: Luck, n: nat)
    requires n <= |files| && forall p | p in files[..n] :: p.at in luck.readable && p.at in luck.sendable
    requires n < |files| ==> !(files[n].at in luck.readable && files[n].at in luck.sendable)
    ensures Through(files, luck) == n
    decreases n
  {
    if n > 0 {
      assert files[0] in files[..n] && files[1..][..n - 1] == files[..n][1..];
      ThroughIs(files[1..], luck, n - 1);
    }
  }

  /** Those of some places a CLI refreshes that there is a copy in, each time it does. */
  function Within(refreshes: seq<Place>, places: set<Place>): (r: seq<Act>)
    ensures forall act | act in r :: act.RefreshedThere? && act.at in places
  {
    if refreshes == [] then []
    else
      var last := refreshes[|refreshes| - 1];
      Within(refreshes[..|refreshes| - 1], places) + if last in places then [RefreshedThere(last)] else []
  }

  lemma NoneWithin(places: set<Place>)
    ensures Within([], places) == []
  {
  }

  lemma WithinThen(refreshes: seq<Place>, i: nat, places: set<Place>)
    requires i < |refreshes|
    ensures Within(refreshes[..i + 1], places)
            == Within(refreshes[..i], places) + if refreshes[i] in places then [RefreshedThere(refreshes[i])] else []
  {
    assert refreshes[..i + 1][..i] == refreshes[..i];
  }

  /** Nothing lands of no files, and where something went wrong before, not everything went well. */
  lemma NothingLent(files: seq<Parcel>, wantsSession: bool, signIns: set<File>, luck: Luck)
    ensures Picked([], signIns) == [] && Places([]) == [] && Members(Places([])) == {}
    ensures files == [] ==> Picked(files[..Through(files, luck)], signIns) == []
    ensures AllWell(files, wantsSession, luck) <==>
      && luck.reached && luck.ready && (wantsSession ==> luck.session)
      && (forall p | p in files :: p.at in luck.readable && p.at in luck.sendable) && luck.homed
  {
  }

  lemma NonePicked(signIns: set<File>)
    ensures Picked([], signIns) == [] && Places([]) == []
  {
  }

  lemma PickedThen(files: seq<Parcel>, i: nat, signIns: set<File>)
    requires i < |files|
    ensures Picked(files[..i + 1], signIns) == Picked(files[..i], signIns) + if files[i].file in signIns then [files[i]] else []
  {
    assert files[..i + 1][..i] == files[..i];
  }

  lemma PrefixDistinct(xs: seq<Parcel>, ys: seq<Parcel>)
    requires xs <= ys && Distinct(Places(ys))
    ensures Distinct(Places(xs)) && forall x | x in xs :: x in ys
  {
    assert forall i | 0 <= i < |xs| :: Places(xs)[i] == Places(ys)[i];
  }

  /** No two of them land in one place where no two of all the files do. */
  lemma {:induction false} PickedDistinct(files: seq<Parcel>, signIns: set<File>)
    requires Distinct(Places(files))
    ensures Distinct(Places(Picked(files, signIns)))
    decreases |files|
  {
    if files != [] {
      var first, last := files[..|files| - 1], files[|files| - 1];
      PrefixDistinct(first, files);
      PickedDistinct(first, signIns);
      var picked := Picked(first, signIns);
      forall i | 0 <= i < |picked| ensures picked[i].at != last.at {
        assert picked[i] in picked;
        var k :| 0 <= k < |first| && first[k] == picked[i];
        assert Places(files)[k] != Places(files)[|files| - 1];
      }
    }
  }

  lemma PickedPrefix(files: seq<Parcel>, i: nat, signIns: set<File>)
    requires i <= |files|
    ensures Picked(files[..i], signIns) <= Picked(files, signIns)
    decreases |files|
  {
    if i < |files| {
      PickedPrefix(files[..|files| - 1], i, signIns);
      assert files[..|files| - 1][..i] == files[..i];
    } else {
      assert files[..i] == files;
    }
  }

  /** One file more. */
  lemma PlacesThen(parcels: seq<Parcel>, p: Parcel)
    ensures Places(parcels + [p]) == Places(parcels) + [p.at]
    ensures Members(Places(parcels + [p])) == Members(Places(parcels)) + {p.at}
  {
    assert Places(parcels + [p]) == Places(parcels) + [p.at];
  }

  lemma NextPlace(files: seq<Parcel>, i: nat, signIns: set<File>)
    requires i < |files| && Distinct(Places(files))
    ensures files[i].at !in Places(Picked(files[..i], signIns))
  {
    var picked := Picked(files[..i], signIns);
    forall k | 0 <= k < |picked| ensures Places(picked)[k] != files[i].at {
      assert picked[k] in picked;
      var m :| 0 <= m < i && files[m] == picked[k];
      assert Places(files)[m] != Places(files)[i];
    }
  }

  function Among<T(==,!new)>(xs: seq<T>, those: set<T>): (s: set<T>)
    ensures forall x :: x in s <==> x in xs && x in those
  {
    set x | x in xs && x in those
  }

  lemma MembersThen(dirs: seq<string>, i: nat, lockable: set<string>)
    requires i < |dirs| && Distinct(dirs)
    ensures Members(dirs[i..]) - {dirs[i]} == Members(dirs[i + 1..]) && dirs[i] in Members(dirs[i..])
    ensures Among(dirs[..i + 1], lockable) == Among(dirs[..i], lockable) + (if dirs[i] in lockable then {dirs[i]} else {})
    ensures dirs[i] !in Among(dirs[..i], lockable)
    ensures forall d | d in dirs[..i + 1] :: d in dirs[..i] || d == dirs[i]
  {
    assert dirs[i..] == [dirs[i]] + dirs[i + 1..] && dirs[..i + 1] == dirs[..i] + [dirs[i]];
    assert dirs[i] !in dirs[i + 1..];
  }

  lemma EventsThen(t: nat, acts: seq<Act>, act: Act)
    ensures Events(t, acts + [act]) == Events(t, acts) + [Took(t, act)]
  {
  }

  lemma NoEvents(t: nat)
    ensures Events(t, []) == [] && Sends([]) == [] && Reads([]) == []
  {
  }

  lemma EventsJoin(t: nat, acts: seq<Act>, more: seq<Act>)
    ensures Events(t, acts + more) == Events(t, acts) + Events(t, more)
  {
  }

  lemma PossibleThen(w: World, es: seq<Event>, e: Event)
    requires Possible(w, es) && Enabled(After(w, es), e)
    ensures Possible(w, es + [e]) && After(w, es + [e]) == Apply(After(w, es), e)
    decreases |es|
  {
    if es == [] {
      assert (es + [e])[1..] == [];
    } else {
      assert (es + [e])[1..] == es[1..] + [e];
      PossibleThen(Apply(w, es[0]), es[1..], e);
    }
  }

  lemma SendsThen(lent: seq<Parcel>, p: Parcel)
    ensures Sends(lent + [p]) == Sends(lent) + [Fetched(p.file, p.at), Sent(p.at)]
  {
    assert (lent + [p])[..|lent|] == lent;
  }

  lemma ReadsThen(acts: seq<Act>, act: Act)
    ensures Reads(acts + [act]) == Reads(acts) + if act.ReadThere? then [act.at] else []
  {
    assert (acts + [act])[..|acts|] == acts;
  }

  lemma {:induction false} ReadsJoin(acts: seq<Act>, more: seq<Act>)
    ensures Reads(acts + more) == Reads(acts) + Reads(more)
    decreases |more|
  {
    if more == [] {
      assert acts + more == acts;
    } else {
      ReadsJoin(acts, more[..|more| - 1]);
      ReadsThen(acts + more[..|more| - 1], more[|more| - 1]);
      assert acts + more == acts + more[..|more| - 1] + [more[|more| - 1]];
    }
  }

  /** Nothing is sent but what is lent. */
  lemma {:induction false} SendsOnly(lent: seq<Parcel>, act: Act)
    requires act in Sends(lent)
    ensures (act.Fetched? || act.Sent?) && act.at in Places(lent)
  {
    var first, last := lent[..|lent| - 1], lent[|lent| - 1];
    PlacesThen(first, last);
    assert lent == first + [last];
    if act in Sends(first) {
      SendsOnly(first, act);
    }
  }

  /** What is read back somewhere is read back at some step. */
  lemma {:induction false} ReadsAt(acts: seq<Act>, at: Place) returns (k: nat)
    requires at in Reads(acts)
    ensures k < |acts| && acts[k].ReadThere? && acts[k].at == at
  {
    if acts[|acts| - 1].ReadThere? && acts[|acts| - 1].at == at {
      k := |acts| - 1;
    } else {
      k := ReadsAt(acts[..|acts| - 1], at);
    }
  }

  lemma NothingSent(w: World, t: nat)
    requires Ordered(w) && t in w.turns && w.turns[t].stage == Sending && w.turns[t].copies == map[]
    ensures w.turns[t].lent == {} && !w.turns[t].going && w.turns[t].back == None
  {
    assert WellKept(w.turns[t]);
  }

  /** What a copy brought back leaves on disk: the copy only where its original is still what was sent. */
  function Brought(onDisk: map<File, Token>, copy: Copy, at: Place, luck: Luck): (r: map<File, Token>)
    requires copy.file in onDisk
    ensures r.Keys == onDisk.Keys
  {
    if onDisk[copy.file] == copy.sent && at in luck.heard && at in luck.written then onDisk[copy.file := copy.now] else onDisk
  }

  /** And several, one after another. */
  function AllBrought(onDisk: map<File, Token>, copies: map<Place, Copy>, lent: seq<Place>, luck: Luck): (r: map<File, Token>)
    requires forall at | at in lent :: at in copies && copies[at].file in onDisk
    ensures r.Keys == onDisk.Keys
  {
    if lent == [] then onDisk
    else
      var before := AllBrought(onDisk, copies, lent[..|lent| - 1], luck);
      Brought(before, copies[lent[|lent| - 1]], lent[|lent| - 1], luck)
  }

  lemma BroughtThen(onDisk: map<File, Token>, copies: map<Place, Copy>, lent: seq<Place>, i: nat, luck: Luck)
    requires i < |lent| && forall at | at in lent :: at in copies && copies[at].file in onDisk
    ensures lent[i] in copies && copies[lent[i]].file in onDisk && forall at | at in lent[..i + 1] :: at in lent
    ensures AllBrought(onDisk, copies, lent[..i + 1], luck)
            == Brought(AllBrought(onDisk, copies, lent[..i], luck), copies[lent[i]], lent[i], luck)
  {
    assert lent[..i + 1][..i] == lent[..i];
  }

  /** A file none of the copies is of is left as it was. */
  lemma {:induction false} OthersLeft(onDisk: map<File, Token>, copies: map<Place, Copy>, lent: seq<Place>, luck: Luck, f: File)
    requires forall at | at in lent :: at in copies && copies[at].file in onDisk && copies[at].file != f
    requires f in onDisk
    ensures AllBrought(onDisk, copies, lent, luck)[f] == onDisk[f]
    decreases |lent|
  {
    if lent != [] {
      assert lent[|lent| - 1] in lent;
      OthersLeft(onDisk, copies, lent[..|lent| - 1], luck, f);
    }
  }

  /** And one that one of them is of ends as that copy exactly where it was still as sent and the copy
      was read back and written. */
  lemma {:induction false} OneBrought(onDisk: map<File, Token>, copies: map<Place, Copy>, lent: seq<Place>, luck: Luck, k: nat)
    requires Distinct(lent) && k < |lent| && forall at | at in lent :: at in copies && copies[at].file in onDisk
    requires forall at | at in lent && at != lent[k] :: copies[at].file != copies[lent[k]].file
    ensures var at, copy := lent[k], copies[lent[k]];
      var was := onDisk[copy.file];
      AllBrought(onDisk, copies, lent, luck)[copy.file] ==
      if was == copy.sent && at in luck.heard && at in luck.written then copy.now else was
    decreases |lent|
  {
    var first, last := lent[..|lent| - 1], lent[|lent| - 1];
    assert lent == first + [last] && last !in first;
    if k < |first| {
      assert last != lent[k];
      OneBrought(onDisk, copies, first, luck, k);
    } else {
      OthersLeft(onDisk, copies, first, luck, copies[last].file);
    }
  }

  /** The world once one copy is brought back. */
  function BroughtOne(w: World, t: nat, at: Place, luck: Luck): World
    requires t in w.turns && at in w.turns[t].copies && w.turns[t].copies[at].file in w.onDisk
  {
    With(w.(onDisk := Brought(w.onDisk, w.turns[t].copies[at], at, luck)), t, w.turns[t].(unread := w.turns[t].unread - {at}))
  }

  /** That is where each way through it leads: not read or not refreshed, changed here meanwhile,
      or written over. */
  lemma BroughtEachWay(w: World, t: nat, at: Place, luck: Luck)
    requires t in w.turns && at in w.turns[t].copies && w.turns[t].copies[at].file in w.onDisk && w.turns[t].back == None
    ensures var turn, copy := w.turns[t], w.turns[t].copies[at];
      var f := copy.file;
      var read := turn.(back := Some(Back(at, copy.now, false)));
      var compared := turn.(back := Some(Back(at, copy.now, true)));
      var w1, w2 := With(w, t, read), With(w, t, compared);
      && With(w1, t, compared) == w2
      && (at !in luck.heard || copy.now == copy.sent ==> With(w, t, Done(turn, at)) == BroughtOne(w, t, at, luck))
      && (w.onDisk[f] != copy.sent ==> With(w1, t, Done(read, at)) == BroughtOne(w, t, at, luck))
      && (w.onDisk[f] == copy.sent && at in luck.heard ==>
            With(w2.(onDisk := if at in luck.written then w.onDisk[f := copy.now] else w.onDisk), t, Done(compared, at))
            == BroughtOne(w, t, at, luck))
  {
    assert w.onDisk[w.turns[t].copies[at].file := w.onDisk[w.turns[t].copies[at].file]] == w.onDisk;
  }

  lemma ReadingThere(w: World, t: nat, at: Place, heard: bool)
    requires t in w.turns && w.turns[t].stage == Returning && w.turns[t].back == None
    requires at in w.turns[t].unread && at in w.turns[t].copies
    ensures var turn, act := w.turns[t], ReadThere(at, heard);
      && May(w, turn, act)
      && Taken(w, t, act) == With(w, t,
           if !heard || turn.copies[at].now == turn.copies[at].sent then Done(turn, at)
           else turn.(back := Some(Back(at, turn.copies[at].now, false))))
  {
  }

  lemma Comparing(w: World, t: nat, at: Place)
    requires t in w.turns && MayBringBack(w, w.turns[t], at) && !w.turns[t].back.value.compared
    ensures var turn, act := w.turns[t], Compared(at);
      && May(w, turn, act)
      && Taken(w, t, act) == With(w, t,
           if w.onDisk[turn.copies[at].file] != turn.copies[at].sent then Done(turn, at)
           else turn.(back := Some(turn.back.value.(compared := true))))
  {
  }

  lemma Writing(w: World, t: nat, at: Place, written: bool)
    requires t in w.turns && MayBringBack(w, w.turns[t], at) && w.turns[t].back.value.compared
    ensures var turn, act := w.turns[t], Wrote(at, written);
      var onDisk := if written then w.onDisk[turn.copies[at].file := turn.back.value.now] else w.onDisk;
      May(w, turn, act) && Taken(w, t, act) == With(w.(onDisk := onDisk), t, Done(turn, at))
  {
  }

  /** The world once so many of the lent copies are read back. */
  ghost predicate ReadSoFar(was: World, w: World, t: nat, lent: seq<Place>, i: nat, luck: Luck) {
    && i <= |lent| && t in was.turns && t in w.turns
    && (forall at | at in lent :: at in was.turns[t].copies && was.turns[t].copies[at].file in was.onDisk)
    && w == With(was.(onDisk := AllBrought(was.onDisk, was.turns[t].copies, lent[..i], luck)), t,
                 was.turns[t].(unread := Members(lent[i..])))
  }

  lemma NoneRead(w: World, t: nat, lent: seq<Place>, luck: Luck)
    requires t in w.turns && w.turns[t].unread == Members(lent)
    requires forall at | at in lent :: at in w.turns[t].copies && w.turns[t].copies[at].file in w.onDisk
    ensures ReadSoFar(w, w, t, lent, 0, luck)
  {
    assert lent[0..] == lent && lent[..0] == [];
    assert With(w, t, w.turns[t]) == w;
  }

  /** The next of them may be read back, and is. */
  lemma ReadNext(was: World, w: World, t: nat, lent: seq<Place>, i: nat, luck: Luck)
    requires ReadSoFar(was, w, t, lent, i, luck) && i < |lent| && Distinct(lent)
    ensures var at := lent[i];
      && t in w.turns && at in w.turns[t].unread && at in w.turns[t].copies && w.turns[t].copies[at].file in w.onDisk
      && w.turns[t] == was.turns[t].(unread := w.turns[t].unread)
      && ReadSoFar(was, BroughtOne(w, t, at, luck), t, lent, i + 1, luck)
      && var w' := BroughtOne(w, t, at, luck);
      t in w'.turns && w'.turns[t] == was.turns[t].(unread := w'.turns[t].unread)
  {
    hide AllBrought, Brought;
    var at := lent[i];
    assert lent[i..] == [at] + lent[i + 1..] && at !in lent[i + 1..];
    assert at in lent && Members(lent[i..]) - {at} == Members(lent[i + 1..]);
    BroughtThen(was.onDisk, was.turns[t].copies, lent, i, luck);
    var w' := BroughtOne(w, t, at, luck);
    assert w'.turns == was.turns[t := w'.turns[t]];
  }

  lemma AllRead(was: World, w: World, t: nat, lent: seq<Place>, luck: Luck)
    requires ReadSoFar(was, w, t, lent, |lent|, luck)
    ensures t in w.turns && t in was.turns && w.turns[t] == was.turns[t].(unread := {})
    ensures w == With(was.(onDisk := w.onDisk), t, w.turns[t])
    ensures forall at | at in lent :: at in was.turns[t].copies && was.turns[t].copies[at].file in was.onDisk
    ensures w.onDisk == AllBrought(was.onDisk, was.turns[t].copies, lent, luck)
  {
    assert lent[..|lent|] == lent && lent[|lent|..] == [];
  }

  /** The world once these sign-ins have landed. */
  ghost predicate Landed(was: World, w: World, t: nat, lent: seq<Parcel>) {
    && t in was.turns && t in w.turns && w == With(was, t, w.turns[t])
    && var turn := w.turns[t];
      && turn.stage == Sending && turn.session && !turn.going && turn.hand == None && turn.back == None
      && turn.files == was.turns[t].files && turn.copies.Keys == turn.lent == Members(Places(lent))
      && forall p | p in lent :: CopiedAsIs(w, turn, p)
  }

  /** Whether there is a copy of a file where it was to land, of what the file holds now. */
  predicate CopiedAsIs(w: World, turn: Turn, p: Parcel) {
    p.file in w.onDisk && p.at in turn.copies && turn.copies[p.at] == Copy(p.file, w.onDisk[p.file], w.onDisk[p.file])
  }

  lemma NoneLanded(w: World, t: nat)
    requires t in w.turns && w.turns[t].stage == Sending && w.turns[t].session && !w.turns[t].going
    requires w.turns[t].hand == None && w.turns[t].back == None && w.turns[t].copies == map[] && w.turns[t].lent == {}
    ensures Landed(w, w, t, [])
  {
    NothingMoved(w, t);
  }

  lemma LandedSoFar(was: World, w: World, t: nat, lent: seq<Parcel>)
    requires Landed(was, w, t, lent)
    ensures t in was.turns && t in w.turns && w == With(was, t, w.turns[t]) && w.onDisk == was.onDisk
    ensures var turn := w.turns[t];
      && turn.stage == Sending && turn.session && !turn.going && turn.hand == None && turn.back == None
      && turn.files == was.turns[t].files && turn.copies.Keys == turn.lent == Members(Places(lent))
      && forall p | p in lent :: CopiedAsIs(w, turn, p)
  {
  }

  /** One more lands. */
  lemma LandedNext(was: World, w: World, t: nat, lent: seq<Parcel>, p: Parcel)
    requires Landed(was, w, t, lent) && p.at !in Places(lent) && p.file in w.onDisk
    ensures var turn := w.turns[t];
      var copies := turn.copies[p.at := Copy(p.file, w.onDisk[p.file], w.onDisk[p.file])];
      Landed(was, With(w, t, turn.(copies := copies, lent := turn.lent + {p.at})), t, lent + [p])
  {
    PlacesThen(lent, p);
    var turn := w.turns[t];
    var copies := turn.copies[p.at := Copy(p.file, w.onDisk[p.file], w.onDisk[p.file])];
    var turn' := turn.(copies := copies, lent := turn.lent + {p.at});
    var w' := With(w, t, turn');
    forall q | q in lent + [p] ensures CopiedAsIs(w', turn', q) {
      if q != p {
        var k :| 0 <= k < |lent| && lent[k] == q;
        assert Places(lent)[k] == q.at && CopiedAsIs(w, turn, q);
      }
    }
  }

  /** One that is no sign-in lands, or the turn is given up. */
  lemma LandedStill(was: World, w: World, t: nat, lent: seq<Parcel>)
    requires Landed(was, w, t, lent)
    ensures var turn := w.turns[t];
      && With(w, t, turn.(copies := turn.copies, lent := turn.lent + {})) == w
      && forall copies ::
           var turn' := turn.(copies := copies, stage := Returning, unread := turn.lent);
           With(w, t, turn') == With(was, t, turn')
    ensures var turn := w.turns[t].(copies := w.turns[t].copies, stage := Returning, unread := w.turns[t].lent);
      Members(Places(lent)) <= turn.copies.Keys && forall p | p in lent :: CopiedAsIs(w, turn, p)
  {
    NothingMoved(w, t);
    forall p | p in lent ensures CopiedAsIs(w, w.turns[t].(stage := Returning, unread := w.turns[t].lent), p) {
      assert CopiedAsIs(w, w.turns[t], p);
    }
  }

  /** One that does not land leaves the others as they are. */
  lemma LandedBeside(was: World, w: World, t: nat, lent: seq<Parcel>, p: Parcel)
    requires Landed(was, w, t, lent) && p.at !in Places(lent) && p.file in w.onDisk
    ensures var turn := w.turns[t];
      var turn' := turn.(copies := turn.copies[p.at := Copy(p.file, w.onDisk[p.file], w.onDisk[p.file])],
                         stage := Returning, unread := turn.lent);
      Members(Places(lent)) <= turn'.copies.Keys && forall q | q in lent :: CopiedAsIs(w, turn', q)
  {
    var turn := w.turns[t];
    forall q | q in lent ensures CopiedAsIs(w, turn, q) && q.at != p.at {
      var k :| 0 <= k < |lent| && lent[k] == q;
      assert Places(lent)[k] == q.at;
    }
  }

  /** A file read here to be sent. */
  lemma Fetching(w: World, t: nat, f: File, at: Place)
    requires t in w.turns && w.turns[t].stage == Sending && w.turns[t].session && w.turns[t].hand == None
    requires f in w.turns[t].files && at !in w.turns[t].copies && f in w.onDisk
    ensures var turn, act := w.turns[t], Fetched(f, at);
      May(w, turn, act) && Taken(w, t, act) == With(w, t, turn.(hand := Some(Read(f, at, w.onDisk[f]))))
  {
  }

  /** What was read put on the target, whole and recorded or not. */
  lemma Landing(w: World, t: nat, at: Place)
    requires t in w.turns && w.turns[t].stage == Sending && w.turns[t].hand.Some? && w.turns[t].hand.value.at == at
    ensures var turn := w.turns[t];
      var copy := CopyOfRead(turn.hand.value);
      && May(w, turn, Sent(at))
      && Taken(w, t, Sent(at)) == With(w, t, turn.(hand := None, copies := turn.copies[at := copy], lent := turn.lent + {at}))
      && May(w, turn, Unsent(at))
      && Taken(w, t, Unsent(at))
         == With(w, t, turn.(hand := None, copies := turn.copies[at := copy], stage := Returning, unread := turn.lent))
  {
  }

  lemma NothingMoved(w: World, t: nat)
    requires t in w.turns
    ensures With(w, t, w.turns[t]) == w && w.turns[t].(lent := w.turns[t].lent + {}) == w.turns[t] && Events(t, []) == []
  {
  }

  /** Every copy that landed is of a file there is. */
  lemma CopiesAre(w: World, t: nat, lent: seq<Parcel>)
    requires t in w.turns && forall p | p in lent :: CopiedAsIs(w, w.turns[t], p)
    ensures forall at | at in Places(lent) :: at in w.turns[t].copies && w.turns[t].copies[at].file in w.onDisk
  {
    forall at | at in Places(lent) ensures at in w.turns[t].copies && w.turns[t].copies[at].file in w.onDisk {
      var k :| 0 <= k < |lent| && Places(lent)[k] == at;
      assert CopiedAsIs(w, w.turns[t], lent[k]);
    }
  }

  /** What is lent can be driven, and brought back. */
  lemma LentReady(w: World, t: nat, files: seq<Parcel>, signIns: set<File>, lent: seq<Parcel>)
    requires t in w.turns && Distinct(Places(files)) && lent <= Picked(files, signIns)
    requires forall p | p in lent :: CopiedAsIs(w, w.turns[t], p)
    requires forall p | p in files && p.file in signIns :: p.file in w.onDisk && p.file in w.families
    ensures Distinct(Places(lent))
    ensures forall at | at in Places(lent) :: at in w.turns[t].copies && w.turns[t].copies[at].file in w.onDisk
    ensures w.turns[t].copies.Keys == Members(Places(lent)) ==>
              forall at | at in w.turns[t].copies :: w.turns[t].copies[at].file in w.families
  {
    PickedDistinct(files, signIns);
    PrefixDistinct(lent, Picked(files, signIns));
    CopiesAre(w, t, lent);
    forall at | at in Places(lent) ensures at in w.turns[t].copies && w.turns[t].copies[at].file in w.families {
      var k :| 0 <= k < |lent| && Places(lent)[k] == at;
      assert CopiedAsIs(w, w.turns[t], lent[k]) && lent[k] in Picked(files, signIns);
    }
    if w.turns[t].copies.Keys == Members(Places(lent)) {
      forall at | at in w.turns[t].copies ensures w.turns[t].copies[at].file in w.families {
        assert at in w.turns[t].copies.Keys;
      }
    }
  }

  lemma CopiedStill(w: World, turn: Turn, turn': Turn, lent: seq<Parcel>)
    requires turn'.copies == turn.copies && forall p | p in lent :: CopiedAsIs(w, turn, p)
    ensures forall p | p in lent :: CopiedAsIs(w, turn', p)
  {
  }

  lemma StillCopied(was: World, w: World, turn: Turn, lent: seq<Parcel>)
    requires w.onDisk == was.onDisk
    ensures forall p | p in lent :: CopiedAsIs(w, turn, p) == CopiedAsIs(was, turn, p)
  {
  }

  /** A turn with its CLI going since it was about to be started. */
  ghost predicate Going(was: World, w: World, t: nat) {
    && t in was.turns && t in w.turns && w.onDisk == was.onDisk
    && w.turns[t] == was.turns[t].(stage := Driving, going := true, copies := w.turns[t].copies)
    && w.turns[t].copies.Keys == was.turns[t].copies.Keys
    && forall at | at in w.turns[t].copies ::
         w.turns[t].copies[at].file == was.turns[t].copies[at].file && w.turns[t].copies[at].file in w.families
  }

  lemma GoingStarts(w: World, t: nat)
    requires t in w.turns && w.turns[t].stage == Sending && w.turns[t].hand == None
    requires forall at | at in w.turns[t].copies :: w.turns[t].copies[at].file in w.families
    ensures May(w, w.turns[t], Started) && Going(w, Taken(w, t, Started), t)
  {
  }

  lemma GoingAs(was: World, w: World, t: nat)
    requires Going(was, w, t)
    ensures t in was.turns && t in w.turns && w.onDisk == was.onDisk
    ensures w.turns[t] == was.turns[t].(stage := Driving, going := true, copies := w.turns[t].copies)
    ensures w.turns[t].copies.Keys == was.turns[t].copies.Keys
    ensures forall at | at in w.turns[t].copies :: w.turns[t].copies[at].file == was.turns[t].copies[at].file
  {
  }

  lemma GoingOn(was: World, w: World, t: nat, at: Place)
    requires Going(was, w, t) && at in w.turns[t].copies
    ensures May(w, w.turns[t], RefreshedThere(at)) && Going(was, Taken(w, t, RefreshedThere(at)), t)
  {
    ThereMoves(w, t, at);
    hide Taken;
  }

  lemma GoingEnds(w: World, t: nat)
    requires t in w.turns && w.turns[t].stage == Driving
    ensures May(w, w.turns[t], CutOff) && May(w, w.turns[t], Ended)
    ensures Taken(w, t, CutOff) == With(w, t, w.turns[t].(stage := Returning, unread := w.turns[t].lent))
    ensures Taken(w, t, Ended) == With(w, t, w.turns[t].(stage := Returning, going := false, unread := w.turns[t].lent))
  {
  }

  lemma StillAsIs(was: World, w: World, t: nat, lent: seq<Parcel>)
    requires t in was.turns && t in w.turns && w.onDisk == was.onDisk
    requires forall p | p in lent :: CopiedAsIs(was, w.turns[t], p)
    ensures forall p | p in lent :: CopiedAsIs(w, w.turns[t], p)
  {
  }

  lemma OneEvent(t: nat, act: Act)
    ensures Events(t, [act]) == [Took(t, act)]
  {
  }

  /** A turn given up before its CLI has started. */
  lemma GivingUp(w: World, t: nat)
    requires t in w.turns && w.turns[t].stage == Sending
    ensures May(w, w.turns[t], GivenUp)
    ensures Taken(w, t, GivenUp) == With(w, t, w.turns[t].(hand := None, stage := Returning, unread := w.turns[t].lent))
  {
  }

  /** One process taking turns in the world, and the run it has made of it. */
  class Turns {
    var world: World
    ghost const start: World
    ghost var run: seq<Event>

    ghost predicate Valid() reads this {
      Possible(start, run) && world == After(start, run) && Ordered(world)
    }

    constructor (world: World)
      requires Ordered(world)
      ensures Valid() && this.world == world && start == world && run == []
    {
      this.world := world;
      start := world;
      run := [];
    }

    method Do(e: Event)
      requires Valid() && Enabled(world, e)
      modifies this
      ensures Valid() && world == Apply(old(world), e) && run == old(run) + [e]
    {
      PossibleThen(start, run, e);
      OrderedKept(world, e);
      world := Apply(world, e);
      run := run + [e];
    }

    method Take(t: nat, act: Act)
      requires Valid() && t in world.turns && May(world, world.turns[t], act)
      modifies this
      ensures Valid() && world == Taken(old(world), t, act) && run == old(run) + [Took(t, act)]
    {
      Do(Took(t, act));
    }

    /** Opens one directory and locks it without waiting: refused where it is held the other
        way, gone without where it cannot be opened or locked. */
    method Hold(t: nat, dir: string, lockable: bool) returns (act: Act)
      requires Valid() && t in world.turns && world.turns[t].stage == Taking && dir in world.turns[t].todo
      modifies this
      ensures Valid() && run == old(run) + [Took(t, act)]
      ensures var w, turn := old(world), old(world.turns[t]);
        if !lockable then
          act == Unlockable(dir) && world == With(w, t, turn.(todo := turn.todo - {dir}))
        else if Busy(w, dir, turn.mode) then
          act == Refused(dir) && world == Without(w, t)
        else
          act == Locked(dir) && world == With(w, t, turn.(todo := turn.todo - {dir}, held := turn.held + {dir}))
    {
      hide Possible, After, Ordered;
      if !lockable {
        act := Unlockable(dir);
      } else if Busy(world, dir, world.turns[t].mode) {
        act := Refused(dir);
      } else {
        act := Locked(dir);
      }
      Take(t, act);
    }

    /** Locks each directory in turn, or refuses the turn and lets go of those it had. */
    method Lent(t: nat, dirs: seq<string>, lockable: set<string>) returns (refused: bool, ghost acts: seq<Act>)
      requires Valid() && Distinct(dirs) && t in world.turns
      requires world.turns[t].stage == Taking && world.turns[t].held == {} && world.turns[t].todo == Members(dirs)
      modifies this
      ensures Valid() && run == old(run) + Events(t, acts)
      ensures refused <==>
          exists dir :: dir in dirs && dir in lockable && Busy(old(world), dir, old(world).turns[t].mode)
      ensures refused ==>
          world == Without(old(world), t) && acts != [] && AllQuiet(acts[..|acts| - 1]) && acts[|acts| - 1].Refused?
      ensures !refused ==> AllQuiet(acts) && MadeSession !in acts && Started !in acts
      ensures !refused ==>
                world == With(old(world), t, old(world).turns[t].(todo := {}, held := Among(dirs, lockable)))
    {
      hide Possible, After, Ordered, Taken, May, Apply, Busy;
      acts := [];
      ghost var was, turn := world, world.turns[t];
      assert dirs[0..] == dirs && was.turns[t := turn] == was.turns && Among(dirs[..0], lockable) == {};
      for i := 0 to |dirs|
        invariant Valid() && AllQuiet(acts) && MadeSession !in acts && Started !in acts && run == old(run) + Events(t, acts)
        invariant t in world.turns && world == With(was, t, world.turns[t])
        invariant world.turns[t] == turn.(todo := Members(dirs[i..]), held := Among(dirs[..i], lockable))
        invariant forall dir | dir in dirs[..i] && dir in lockable :: !Busy(was, dir, turn.mode)
      {
        var dir := dirs[i];
        BusyAsBefore(was, world, t, dir, turn.mode);
        MembersThen(dirs, i, lockable);
        var act := Hold(t, dir, dir in lockable);
        EventsThen(t, acts, act);
        acts := acts + [act];
        if act.Refused? {
          assert Without(With(was, t, turn.(todo := Members(dirs[i..]), held := Among(dirs[..i], lockable))), t) == Without(was, t);
          return true, acts;
        }
      }
      assert dirs[..|dirs|] == dirs && Members(dirs[|dirs|..]) == {};
      refused := false;
    }

    /** Reads one file here and puts it on the target: a sign-in that refreshes itself is
        recorded as lent once it has landed, and anything else is only sent. */
    method Projects(t: nat, p: Parcel, luck: Luck) returns (ok: bool, ghost acts: seq<Act>)
      requires Valid() && t in world.turns && world.turns[t].stage == Sending && world.turns[t].session
      requires world.turns[t].hand == None && p.at !in world.turns[t].copies
      requires p.file in world.turns[t].files ==> p.file in world.onDisk
      modifies this
      ensures Valid() && t in world.turns && run == old(run) + Events(t, acts)
      ensures ok <==> p.at in luck.readable && p.at in luck.sendable
      ensures var turn := old(world.turns[t]);
        var signIn := p.file in turn.files;
        var copies :=
          if signIn && p.at in luck.readable
          then turn.copies[p.at := Copy(p.file, old(world).onDisk[p.file], old(world).onDisk[p.file])]
          else turn.copies;
        if ok then
          && acts == (if signIn then [Fetched(p.file, p.at), Sent(p.at)] else [])
          && world == With(old(world), t, turn.(copies := copies, lent := turn.lent + if signIn then {p.at} else {}))
        else
          && acts == (if signIn && p.at in luck.readable then [Fetched(p.file, p.at), Unsent(p.at)] else [GivenUp])
          && world == With(old(world), t, turn.(copies := copies, stage := Returning, unread := turn.lent))
    {
      hide Possible, After, Ordered, May, Taken, Events;
      NothingMoved(world, t);
      acts := [];
      ok := p.at in luck.readable && p.at in luck.sendable;
      if p.at !in luck.readable || (!ok && p.file !in world.turns[t].files) {
        GivingUp(world, t);
        OneEvent(t, GivenUp);
        Take(t, GivenUp);
        acts := [GivenUp];
      } else if p.file in world.turns[t].files {
        var fetched := Fetched(p.file, p.at);
        Fetching(world, t, p.file, p.at);
        OneEvent(t, fetched);
        Take(t, fetched);
        Landing(world, t, p.at);
        var act := if ok then Sent(p.at) else Unsent(p.at);
        EventsThen(t, [fetched], act);
        Take(t, act);
        acts := [fetched] + [act];
      }
    }

    /** Puts every credential file on the target one at a time, recording each sign-in as lent once
        it has landed, and stops at the first file that cannot be read or does not land. */
    method Projected(t: nat, files: seq<Parcel>, luck: Luck)
      returns (lent: seq<Parcel>, ok: bool, ghost failed: seq<Act>)
      requires Valid() && Distinct(Places(files)) && t in world.turns
      requires world.turns[t].stage == Sending && world.turns[t].session && world.turns[t].copies == map[]
      requires world.turns[t].hand == None
      requires forall p | p in files && p.file in world.turns[t].files :: p.file in world.onDisk
      modifies this
      ensures Valid() && t in world.turns
      ensures ok <==> forall p | p in files :: p.at in luck.readable && p.at in luck.sendable
      ensures lent <= Picked(files, old(world.turns[t].files)) && (ok ==> lent == Picked(files, old(world.turns[t].files)))
      // Exactly the sign-ins before the first file that cannot be read or does not land.
      ensures lent == Picked(files[..Through(files, luck)], old(world.turns[t].files))
      ensures forall p | p in lent :: p.at in luck.readable && p.at in luck.sendable
      ensures world == With(old(world), t, world.turns[t]) && world.turns[t].lent == Members(Places(lent))
      ensures Members(Places(lent)) <= world.turns[t].copies.Keys
      ensures ok ==> world.turns[t].copies.Keys == Members(Places(lent))
      ensures forall p | p in lent :: CopiedAsIs(world, world.turns[t], p)
      ensures ok ==> world.turns[t].stage == Sending
      ensures !ok ==> world.turns[t].stage == Returning && world.turns[t].unread == world.turns[t].lent
      ensures world.turns[t].session && !world.turns[t].going && world.turns[t].hand == None && world.turns[t].back == None
      ensures run == old(run) + Events(t, Sends(lent) + failed) && AllQuiet(failed) && (ok ==> failed == [])
      ensures forall act | act in failed :: act.Fetched? || act.Unsent? || act.GivenUp?
    {
      hide Possible, After, Ordered, May, Taken, Sends, Events, Picked, Landed, Places, CopiedAsIs, Through;
      lent, failed := [], [];
      NoEvents(t);
      NothingSent(world, t);
      ghost var was := world;
      var signIns := world.turns[t].files;
      assert files[..0] == [];
      NonePicked(signIns);
      NoneLanded(world, t);
      for i := 0 to |files|
        invariant Valid() && lent == Picked(files[..i], signIns) && Landed(was, world, t, lent)
        invariant forall p | p in files[..i] :: p.at in luck.readable && p.at in luck.sendable
        invariant run == old(run) + Events(t, Sends(lent))
      {
        var p := files[i];
        assert files[..i + 1] == files[..i] + [p];
        PickedThen(files, i, signIns);
        PickedPrefix(files, i, signIns);
        NextPlace(files, i, signIns);
        LandedSoFar(was, world, t, lent);
        LandedStill(was, world, t, lent);
        if p.file in signIns {
          LandedNext(was, world, t, lent, p);
          LandedBeside(was, world, t, lent, p);
        }
        var landed;
        ghost var acts, before := [], world;
        landed, acts := Projects(t, p, luck);
        EventsJoin(t, Sends(lent), acts);
        SendsThen(lent, p);
        if !landed {
          StillAsIs(before, world, t, lent);
          ThroughIs(files, luck, i);
          return lent, false, acts;
        }
        assert Sends(lent) + [] == Sends(lent);
        if p.file in signIns {
          lent := lent + [p];
        }
      }
      LandedSoFar(was, world, t, lent);
      assert files[..|files|] == files;
      ThroughIs(files, luck, |files|);
      assert Sends(lent) + [] == Sends(lent);
      ok := true;
    }

    /** Reads one lent copy back, and writes it over the original where it was refreshed and the
        original is still as it was sent. */
    method BringsBack(t: nat, at: Place, luck: Luck) returns (ghost acts: seq<Act>)
      requires Valid() && t in world.turns && world.turns[t].stage == Returning && world.turns[t].back == None
      requires at in world.turns[t].unread && at in world.turns[t].copies && world.turns[t].copies[at].file in world.onDisk
      modifies this
      ensures Valid() && run == old(run) + Events(t, acts) && AllBack(acts) && Reads(acts) == [at]
      ensures world == BroughtOne(old(world), t, at, luck)
    {
      hide Possible, After, Ordered, May, Taken, BroughtOne, Events, Reads;
      BroughtEachWay(world, t, at, luck);
      EventsThen(t, [], ReadThere(at, at in luck.heard));
      NoEvents(t);
      ReadsThen([], ReadThere(at, at in luck.heard));
      ReadingThere(world, t, at, at in luck.heard);
      Take(t, ReadThere(at, at in luck.heard));
      acts := [] + [ReadThere(at, at in luck.heard)];
      if world.turns[t].back.Some? {
        Comparing(world, t, at);
        EventsThen(t, acts, Compared(at));
        ReadsThen(acts, Compared(at));
        Take(t, Compared(at));
        acts := acts + [Compared(at)];
        if world.turns[t].back.Some? {
          Writing(world, t, at, at in luck.written);
          EventsThen(t, acts, Wrote(at, at in luck.written));
          ReadsThen(acts, Wrote(at, at in luck.written));
          Take(t, Wrote(at, at in luck.written));
          acts := acts + [Wrote(at, at in luck.written)];
        }
      }
    }

    /** Reads every lent copy back, and writes what differs over an original still as it was
        sent; never raises, so every one of them is tried, and nothing else is touched. */
    method BroughtBack(t: nat, lent: seq<Place>, luck: Luck) returns (ghost backs: seq<Act>)
      requires Valid() && Distinct(lent) && t in world.turns
      requires world.turns[t].stage == Returning && world.turns[t].back == None && world.turns[t].unread == Members(lent)
      requires forall at | at in lent :: at in world.turns[t].copies && world.turns[t].copies[at].file in world.onDisk
      modifies this
      ensures Valid() && t in world.turns && world.turns[t] == old(world.turns[t]).(unread := {})
      ensures world == With(old(world).(onDisk := world.onDisk), t, world.turns[t])
      ensures world.onDisk == AllBrought(old(world.onDisk), old(world.turns[t].copies), lent, luck)
      ensures run == old(run) + Events(t, backs) && AllBack(backs) && Reads(backs) == lent
    {
      hide Possible, After, Ordered, Events, Reads, Taken, May, ReadSoFar, Brought, BroughtOne, AllBrought;
      backs := [];
      NoEvents(t);
      assert lent[..0] == [];
      ghost var was := world;
      NoneRead(world, t, lent, luck);
      for i := 0 to |lent|
        invariant Valid() && ReadSoFar(was, world, t, lent, i, luck)
        invariant t in world.turns && world.turns[t] == was.turns[t].(unread := world.turns[t].unread)
        invariant run == old(run) + Events(t, backs) && AllBack(backs) && Reads(backs) == lent[..i]
      {
        var at := lent[i];
        assert lent[..i + 1] == lent[..i] + [at];
        ReadNext(was, world, t, lent, i, luck);
        ghost var acts := BringsBack(t, at, luck);
        EventsJoin(t, backs, acts);
        ReadsJoin(backs, acts);
        backs := backs + acts;
      }
      assert lent[..|lent|] == lent;
      AllRead(was, world, t, lent, luck);
    }

    /** The CLI going: it may refresh whatever it was lent, and ends, or is left going. */
    method Driven(t: nat, lent: seq<Parcel>, luck: Luck) returns (ghost acts: seq<Act>)
      requires Valid() && t in world.turns && world.turns[t].stage == Sending
      requires world.turns[t].copies.Keys == Members(Places(lent))
      requires forall at | at in world.turns[t].copies :: world.turns[t].copies[at].file in world.families
      requires world.turns[t].hand == None && world.turns[t].back == None
      modifies this
      ensures Valid() && t in world.turns && run == old(run) + Events(t, acts) && AllQuiet(acts)
      ensures acts == [Started] + Within(luck.refreshes, Members(Places(lent))) + [if luck.cutOff then CutOff else Ended]
      ensures var turn := world.turns[t];
        && turn.stage == Returning && turn.session == old(world.turns[t].session)
        && turn.lent == turn.unread == old(world.turns[t].lent) && turn.copies.Keys == Members(Places(lent))
        && turn.going == luck.cutOff && turn.back == None
      ensures world.onDisk == old(world.onDisk) && MadeSession !in acts
      ensures forall at | at in world.turns[t].copies ::
                at in old(world.turns[t].copies) && world.turns[t].copies[at].file == old(world.turns[t].copies)[at].file
    {
      hide Possible, After, Ordered, May, Taken, Going, Places, Events, Within, Members;
      ghost var was, places := world, Members(Places(lent));
      OneEvent(t, Started);
      GoingStarts(world, t);
      Take(t, Started);
      GoingAs(was, world, t);
      ghost var refreshed := GoesOn(t, luck.refreshes, was, places);
      EventsJoin(t, [Started], refreshed);
      acts := [Started] + refreshed;
      GoingAs(was, world, t);
      GoingEnds(world, t);
      EventsThen(t, acts, if luck.cutOff then CutOff else Ended);
      if luck.cutOff {
        Take(t, CutOff);
        acts := acts + [CutOff];
      } else {
        Take(t, Ended);
        acts := acts + [Ended];
      }
    }

    /** What the CLI refreshes as it goes: of what it would, whatever it was lent. */
    method GoesOn(t: nat, refreshes: seq<Place>, ghost was: World, ghost places: set<Place>) returns (ghost acts: seq<Act>)
      requires Valid() && Going(was, world, t) && was.turns[t].copies.Keys == places
      modifies this
      ensures Valid() && Going(was, world, t) && run == old(run) + Events(t, acts)
      ensures acts == Within(refreshes, places) && AllQuiet(acts) && MadeSession !in acts
    {
      hide Possible, After, Ordered, May, Taken, Going, Events, Within;
      NoneWithin(places);
      NoEvents(t);
      assert refreshes[..0] == [];
      acts := [];
      for i := 0 to |refreshes|
        invariant Valid() && run == old(run) + Events(t, acts) && AllQuiet(acts) && MadeSession !in acts
        invariant Going(was, world, t) && acts == Within(refreshes[..i], places)
      {
        var at := refreshes[i];
        WithinThen(refreshes, i, places);
        GoingAs(was, world, t);
        if at in world.turns[t].copies {
          assert at in world.turns[t].copies.Keys;
          GoingOn(was, world, t, at);
          EventsThen(t, acts, RefreshedThere(at));
          Take(t, RefreshedThere(at));
          acts := acts + [RefreshedThere(at)];
        }
      }
      assert refreshes[..|refreshes|] == refreshes;
    }

    /** What comes before the CLI, each step of which may fail: the road and the handshake, the
        private directory, the copies and the home. */
    method Prepared(t: nat, files: seq<Parcel>, wantsSession: bool, luck: Luck)
      returns (ok: bool, lent: seq<Parcel>, ghost before: seq<Act>, ghost middle: seq<Act>)
      requires Valid() && Distinct(Places(files)) && t in world.turns && (files != [] ==> wantsSession)
      requires world.turns[t].stage == Sending && !world.turns[t].session && world.turns[t].copies == map[]
      requires world.turns[t].lent == {} && world.turns[t].hand == None
      requires !world.turns[t].going
      requires forall p | p in files && p.file in world.turns[t].files :: p.file in world.onDisk && p.file in world.families
      modifies this
      ensures Valid() && t in world.turns
      ensures lent <= Picked(files, old(world.turns[t].files)) && (ok ==> lent == Picked(files, old(world.turns[t].files)))
      ensures ok <==> AllWell(files, wantsSession, luck)
      ensures MadeSession in before <==> luck.reached && luck.ready && wantsSession && luck.session
      ensures lent == if MadeSession in before then Picked(files[..Through(files, luck)], old(world.turns[t].files)) else []
      ensures Started !in before && Started !in middle
      ensures world.turns[t].session == (MadeSession in before) && !world.turns[t].going
      ensures world.turns[t].hand == None && world.turns[t].back == None
      ensures world.turns[t].lent == Members(Places(lent)) && world.turns[t].lent <= world.turns[t].copies.Keys
      ensures ok ==> world.turns[t].stage == Sending && middle == [] && world.turns[t].copies.Keys == Members(Places(lent))
      ensures !ok ==> world.turns[t].stage == Returning && world.turns[t].unread == Members(Places(lent))
      ensures forall p | p in lent :: CopiedAsIs(world, world.turns[t], p)
      ensures AllQuiet(before) && AllQuiet(middle) && forall act | act in middle :: !act.RefreshedThere?
      ensures world.onDisk == old(world.onDisk) && world.families == old(world.families)
      ensures run == old(run) + Events(t, Head(before, lent, middle))
    {
      hide Possible, After, Ordered, Events, Head, Sends, Picked, Through, AllWell, CopiedAsIs, Places, May, Taken;
      hide Quiet, AllQuiet, Distinct;
      QuietAlone();
      ghost var signIns := world.turns[t].files;
      ok, before := Readied(t, wantsSession, luck);
      lent, middle := [], [];
      NothingLent(files, wantsSession, signIns, luck);
      HeadGrows(before, lent, []);
      NoEvents(t);
      assert before + [] == before;
      if ok && files != [] {
        var landed;
        lent, landed, middle := Projected(t, files, luck);
        EventsJoin(t, before, Sends(lent) + middle);
        HeadGrows(before, lent, middle);
        if !landed {
          return false, lent, before, middle;
        }
      }
      ok := ok && luck.homed;
      assert run == old(run) + Events(t, Head(before, lent, []));
      if !ok {
        EventsThen(t, before + Sends(lent), GivenUp);
        HeadGrows(before, lent, [GivenUp]);
        GiveUp(t, lent);
        middle := [GivenUp];
      }
    }

    /** A turn given up before its CLI is started: what has landed is there to be read back. */
    method GiveUp(t: nat, ghost lent: seq<Parcel>)
      requires Valid() && t in world.turns && world.turns[t].stage == Sending
      requires forall p | p in lent :: CopiedAsIs(world, world.turns[t], p)
      modifies this
      ensures Valid() && t in world.turns && world == With(old(world), t, world.turns[t])
      ensures world.turns[t] == old(world.turns[t]).(hand := None, stage := Returning, unread := old(world.turns[t].lent))
      ensures run == old(run) + [Took(t, GivenUp)]
      ensures forall p | p in lent :: CopiedAsIs(world, world.turns[t], p)
    {
      hide Possible, After, Ordered, May, Taken, CopiedAsIs;
      GivingUp(world, t);
      ghost var w := world;
      Take(t, GivenUp);
      CopiedStill(w, w.turns[t], world.turns[t], lent);
      StillCopied(w, world, world.turns[t], lent);
    }

    /** The road and the handshake, and the private directory where one is wanted. */
    method Readied(t: nat, wantsSession: bool, luck: Luck) returns (ok: bool, ghost before: seq<Act>)
      requires Valid() && t in world.turns && world.turns[t].stage == Sending && !world.turns[t].session
      requires world.turns[t].copies == map[] && world.turns[t].hand == None
      modifies this
      ensures Valid() && run == old(run) + Events(t, before)
      ensures ok <==> luck.reached && luck.ready && (wantsSession ==> luck.session)
      ensures before == (if ok && wantsSession then [MadeSession] else []) && AllQuiet(before)
      ensures world == With(old(world), t, old(world.turns[t]).(session := ok && wantsSession))
      ensures world.turns[t].back == None && !world.turns[t].going && world.turns[t].lent == {}
    {
      hide Possible, After, Ordered, Events;
      NothingSent(world, t);
      NothingMoved(world, t);
      OneEvent(t, MadeSession);
      before, ok := [], luck.reached && luck.ready;
      if ok && wantsSession {
        ok := luck.session;
        if ok {
          Take(t, MadeSession);
          before := [MadeSession];
        }
      }
    }

    /** The cleaning up, whatever became of the turn: what was lent is read back, then the
        private directory is swept, then the locks go. */
    method Unwound(t: nat, lent: seq<Place>, luck: Luck) returns (ghost backs: seq<Act>)
      requires Valid() && Distinct(lent) && t in world.turns
      requires world.turns[t].stage == Returning && world.turns[t].back == None && world.turns[t].unread == Members(lent)
      requires forall at | at in lent :: at in world.turns[t].copies && world.turns[t].copies[at].file in world.onDisk
      modifies this
      ensures Valid() && (t in world.turns ==> world.turns[t].stage == Loose && old(world.turns[t].going))
      ensures run == old(run) + Events(t, Tail(backs, old(world.turns[t].session))) && AllBack(backs) && Reads(backs) == lent
    {
      hide Possible, After, Ordered, Reads;
      backs := BroughtBack(t, lent, luck);
      ghost var done := backs;
      if world.turns[t].session {
        EventsThen(t, done, Swept);
        Take(t, Swept);
        done := done + [Swept];
      }
      EventsThen(t, done, Over);
      Take(t, Over);
    }

    /** Everything the turn does once it has its locks. */
    method Inside(t: nat, files: seq<Parcel>, wantsSession: bool, luck: Luck)
      returns (outcome: Outcome, ghost before: seq<Act>, lent: seq<Parcel>, ghost middle: seq<Act>, ghost backs: seq<Act>)
      requires Valid() && Distinct(Places(files)) && t in world.turns && (files != [] ==> wantsSession)
      requires world.turns[t].stage == Sending && !world.turns[t].session && world.turns[t].copies == map[]
      requires world.turns[t].lent == {} && world.turns[t].hand == None
      requires !world.turns[t].going
      requires forall p | p in files && p.file in world.turns[t].files ::
                 p.file in world.onDisk && p.file in world.families
      modifies this
      ensures Valid() && AllQuiet(before) && AllQuiet(middle) && AllBack(backs) && Reads(backs) == Places(lent)
      ensures lent <= Picked(files, old(world.turns[t].files))
      ensures run == old(run) + Events(t, Turned(before, lent, middle, backs))
      ensures forall act | act in middle && act.RefreshedThere? :: act.at in Places(lent)
      ensures outcome != TurnRefused && (outcome == TurnTaken ==> lent == Picked(files, old(world.turns[t].files)))
      // Taken exactly where everything before the CLI went well, and then alone is it started.
      ensures outcome == TurnTaken <==> AllWell(files, wantsSession, luck)
      ensures Started !in before && (Started in middle <==> outcome == TurnTaken)
      ensures outcome == TurnTaken ==>
        middle == [Started] + Within(luck.refreshes, Members(Places(lent))) + [if luck.cutOff then CutOff else Ended]
      ensures lent == if luck.reached && luck.ready && wantsSession && luck.session
                      then Picked(files[..Through(files, luck)], old(world.turns[t].files)) else []
      ensures t in world.turns ==> world.turns[t].stage == Loose && luck.cutOff
    {
      hide Possible, After, Ordered, Taken, Apply, May, Events, Head, Sends, Reads, Tail, AllWell, Through, Within, CopiedAsIs;
      hide Picked, Places, AllBack, Quiet, AllQuiet, Distinct;
      ghost var signIns := world.turns[t].files;
      var ok;
      ok, lent, before, middle := Prepared(t, files, wantsSession, luck);
      LentReady(world, t, files, signIns, lent);
      outcome := TurnFailed;
      if ok {
        middle := Driven(t, lent, luck);
        outcome := TurnTaken;
        HeadGrows(before, lent, middle);
        EventsJoin(t, Head(before, lent, []), middle);
      }
      ghost var session := world.turns[t].session;
      backs := Unwound(t, Places(lent), luck);
      EventsJoin(t, Head(before, lent, middle), Tail(backs, session));
    }

    /** A turn away opened: refused, and nothing is as it was not before, or its locks taken. */
    method Borrowed(t: nat, signIns: set<File>, dirs: seq<string>, luck: Luck)
      returns (refused: bool, ghost locks: seq<Act>)
      requires Valid() && t !in world.turns && Distinct(dirs)
      requires Members(dirs) == set f | f in signIns :: f.dir
      requires forall f | f in signIns :: f in world.onDisk && f in world.families
      modifies this
      ensures Valid()
      ensures refused <==> exists dir :: dir in dirs && dir in luck.lockable && Busy(old(world), dir, Exclusive)
      ensures refused ==> world == old(world)
      ensures !refused ==> AllQuiet(locks) && MadeSession !in locks && Started !in locks
      ensures !refused ==> run == old(run) + [Opened(t, Exclusive, signIns)] + Events(t, locks)
      ensures !refused ==>
                world == With(old(world), t,
                  Turn(Exclusive, signIns, {}, Among(dirs, luck.lockable), Sending, false, None, map[], {}, {}, None, false))
    {
      hide Possible, After, Ordered, Busy;
      Do(Opened(t, Exclusive, signIns));
      ghost var turn := Borrower(Exclusive, signIns);
      assert turn.todo == Members(dirs);
      BusyToOthers(old(world), world, t, Exclusive);
      refused, locks := Lent(t, dirs, luck.lockable);
      if refused {
        assert Without(With(old(world), t, turn), t) == old(world);
        return;
      }
      EventsThen(t, locks, Begun);
      OwnMoves(world, t, Begun);
      Take(t, Begun);
      locks := locks + [Begun];
    }

    /** One turn, from its locks to their letting go: `files` is every credential file it projects and
        where, in order, `signIns` the files that are sign-ins refreshing themselves. */
    method Drive(t: nat, files: seq<Parcel>, signIns: set<File>, dirs: seq<string>, wantsSession: bool, luck: Luck)
      returns (outcome: Outcome, ghost before: seq<Act>, lent: seq<Parcel>, ghost middle: seq<Act>, ghost backs: seq<Act>)
      requires Valid() && t !in world.turns && Distinct(Places(files)) && Distinct(dirs) && (files != [] ==> wantsSession)
      requires Members(dirs) == set f | f in signIns :: f.dir
      requires forall f | f in signIns :: f in world.onDisk && f in world.families
      modifies this
      ensures Valid() && AllQuiet(before) && AllQuiet(middle) && AllBack(backs) && Reads(backs) == Places(lent)
      ensures lent <= Picked(files, signIns)
      // Held the other way by somebody else: refused, and nothing is as it was not before.
      ensures outcome == TurnRefused <==>
                exists dir :: dir in dirs && dir in luck.lockable && Busy(old(world), dir, Exclusive)
      ensures outcome == TurnRefused ==> world == old(world)
      // Otherwise cleaned up after, whatever failed.
      ensures outcome != TurnRefused ==>
                run == old(run) + [Opened(t, Exclusive, signIns)] + Events(t, Turned(before, lent, middle, backs))
      ensures outcome == TurnTaken ==> lent == Picked(files, signIns)
      // Taken exactly where nobody is in the way and everything before the CLI went well, and then
      // alone is the CLI started.
      ensures outcome == TurnTaken <==>
        && (forall dir | dir in dirs && dir in luck.lockable :: !Busy(old(world), dir, Exclusive))
        && luck.reached && luck.ready && (wantsSession ==> luck.session)
        && (forall p | p in files :: p.at in luck.readable && p.at in luck.sendable) && luck.homed
      ensures Started !in before && (Started in middle <==> outcome == TurnTaken)
      ensures outcome == TurnTaken ==>
        middle == [Started] + Within(luck.refreshes, Members(Places(lent))) + [if luck.cutOff then CutOff else Ended]
      // Lent are the sign-ins that landed before anything went wrong.
      ensures lent == if outcome != TurnRefused && luck.reached && luck.ready && wantsSession && luck.session
                      then Picked(files[..Through(files, luck)], signIns) else []
      ensures forall act | act in middle && act.RefreshedThere? :: act.at in Places(lent)
      ensures t in world.turns ==> world.turns[t].stage == Loose && luck.cutOff
    {
      hide Possible, After, Ordered, Taken, Apply, May, Busy, Events, Turned;
      hide Picked, Through, Within, Reads, AllBack, Quiet, Places;
      NothingRead();
      before, lent, middle, backs := [], [], [], [];
      var refused;
      ghost var locks;
      refused, locks := Borrowed(t, signIns, dirs, luck);
      if refused {
        outcome := TurnRefused;
        return;
      }
      outcome, before, lent, middle, backs := Inside(t, files, wantsSession, luck);
      EventsJoin(t, locks, Turned(before, lent, middle, backs));
      TurnedThen(locks, before, lent, middle, backs);
      before := locks + before;
    }
  }

  /** What a turn holds already keeps nobody's directory from itself: its own are others. */
  lemma BusyAsBefore(was: World, w: World, t: nat, dir: string, mode: Mode)
    requires t in was.turns && was.turns[t].held == {} && t in w.turns && dir !in w.turns[t].held
    requires w == With(was, t, w.turns[t])
    ensures Busy(w, dir, mode) == Busy(was, dir, mode)
  {
    assert forall u :: u in was.turns ==> u in w.turns;
  }

  /** A turn that holds nothing keeps nobody from anything. */
  lemma BusyToOthers(was: World, w: World, t: nat, mode: Mode)
    requires t !in was.turns && t in w.turns && w.turns[t].held == {} && w == With(was, t, w.turns[t])
    ensures forall dir :: Busy(w, dir, mode) == Busy(was, dir, mode)
  {
    assert forall u :: u in was.turns ==> u in w.turns && w.turns[u] == was.turns[u];
  }

  /** Where each step of a turn is. */
  lemma Positions(before: seq<Act>, lent: seq<Parcel>, middle: seq<Act>, backs: seq<Act>)
    ensures var acts := Turned(before, lent, middle, backs);
      var read := |Head(before, lent, middle)|;
      var end := read + |backs|;
      && end < |acts| && acts[|acts| - 1] == Over
      && (forall k | 0 <= k < read :: acts[k] in before || acts[k] in Sends(lent) || acts[k] in middle)
      && (forall k | read <= k < end :: acts[k] == backs[k - read])
      && (forall k | end <= k < |acts| - 1 :: acts[k] == Swept)
      && (MadeSession in before ==> acts[end] == Swept)
  {
    forall k | 0 <= k < |Head(before, lent, middle)|
      ensures var act := Head(before, lent, middle)[k]; act in before || act in Sends(lent) || act in middle
    {
    }
  }

  /** Nothing before bringing back sweeps, lets go or sends what is not lent. */
  lemma HeadQuiet(before: seq<Act>, lent: seq<Parcel>, middle: seq<Act>, act: Act)
    requires AllQuiet(before) && AllQuiet(middle) && (act in before || act in Sends(lent) || act in middle)
    ensures act != Swept && act != Over && (act.Sent? ==> act.at in Places(lent))
  {
    if act in Sends(lent) {
      SendsOnly(lent, act);
    }
  }

  /** In a turn that got its locks, whatever failed: every copy recorded as lent is read back
      after it was sent and before the private directory is swept, a private directory made is
      swept, and the locks are let go of after everything else. */
  lemma CleanedUp(before: seq<Act>, lent: seq<Parcel>, middle: seq<Act>, backs: seq<Act>)
    requires AllQuiet(before) && AllQuiet(middle) && AllBack(backs) && Reads(backs) == Places(lent)
    ensures var acts := Turned(before, lent, middle, backs);
      && (forall i | 0 <= i < |acts| && acts[i].Sent? ::
            exists j :: i < j < |acts| && acts[j].ReadThere? && acts[j].at == acts[i].at
                        && forall k | 0 <= k < |acts| && acts[k] in {Swept, Over} :: j < k)
      && (MadeSession in before ==> Swept in acts)
      && (forall i | 0 <= i < |acts| && acts[i] == Over :: i == |acts| - 1)
      && acts[|acts| - 1] == Over
  {
    hide Turned, Sends, Reads;
    Positions(before, lent, middle, backs);
    var acts := Turned(before, lent, middle, backs);
    var read := |Head(before, lent, middle)|;
    forall k | 0 <= k < read + |backs|
      ensures acts[k] != Swept && acts[k] != Over && (acts[k].Sent? ==> k < read && acts[k].at in Places(lent))
    {
      if k < read {
        HeadQuiet(before, lent, middle, acts[k]);
      } else {
        assert acts[k] in backs;
      }
    }
    forall i | 0 <= i < |acts| && acts[i].Sent?
      ensures exists j :: i < j < |acts| && acts[j].ReadThere? && acts[j].at == acts[i].at
                          && forall k | 0 <= k < |acts| && acts[k] in {Swept, Over} :: j < k
    {
      var k := ReadsAt(backs, acts[i].at);
      assert acts[read + k] == backs[k];
    }
  }
}
