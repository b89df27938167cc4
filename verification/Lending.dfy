/**
 Lending a sign-in that refreshes itself.

 A refresh token is one of a family: presenting the current one spends it and yields the next,
 and presenting a spent one has the vendor revoke the family. A turn on this machine uses the
 file in place under a shared lock on its directory; a turn whose CLI runs elsewhere is sent a
 copy under an exclusive one, and what the CLI refreshed is brought back over the original.

 The world is everything the protocol touches; an event is one atomic step of one party, its
 nondeterminism in its parameters. `Blame` names the sign-ins whose safety a step gives up:
 the failures the source logs or cannot prevent, and a turn told to project one twice.
 */
module Lending {
  import opened Maybe

  datatype File = File(dir: string, name: string)

  /** Where a copy lands on the target. */
  type Place = string

  /** A refresh token, by its place in its family. */
  type Token = nat

  /** What the vendor knows of one family: every token before `current` is spent. */
  datatype Family = Family(current: Token, revoked: bool)

  /** The vendor being presented a token: a spent one revokes the family, one it never issued
      is refused, and nothing is answered once the family is revoked. */
  function Presented(family: Family, token: Token): Family {
    if family.revoked || family.current < token then family
    else if token == family.current then family.(current := token + 1)
    else family.(revoked := true)
  }

  /** What the presenter holds afterwards: the next token where it was answered with one. */
  function Refreshed(family: Family, token: Token): Token {
    if !family.revoked && token == family.current then token + 1 else token
  }

  datatype Mode = Shared | Exclusive

  /** A copy on another machine: of which file, what it held as it was sent, and what it holds. */
  datatype Copy = Copy(file: File, sent: Token, now: Token)

  /** What has been read of a file here, and where on the target it is to land. */
  datatype Read = Read(file: File, at: Place, token: Token)

  /** What has been read of a copy there, to be written over its original: whether that has been
      found still to hold what was sent. */
  datatype Back = Back(at: Place, now: Token, compared: bool)

  datatype Stage =
    | Taking     // asking for its locks, a directory at a time
    | Using      // a turn here, its CLI going over the files in place
    | Sending    // an away turn, putting its copies on the target; no CLI started yet
    | Driving    // its CLI going on the target
    | Returning  // on its way out: reading back, then sweeping, then letting go
    | Loose      // its process gone and its locks with it, the CLI still going on the target

  /** One turn: what it borrows, the directories it has yet to lock and the ones it holds, its
      private directory on the target, what it has in hand to put there, the copies put there by
      where they landed, which of them `drive` recorded as lent, which of those it has yet to bring
      back, what it has in hand of one of them, and whether the CLI there is going. */
  datatype Turn = Turn(
    mode: Mode, files: set<File>, todo: set<string>, held: set<string>, stage: Stage,
    session: bool, hand: Option<Read>, copies: map<Place, Copy>, lent: set<Place>, unread: set<Place>,
    back: Option<Back>, going: bool)

  datatype World = World(families: map<File, Family>, onDisk: map<File, Token>, turns: map<nat, Turn>)

  datatype Event =
    | Opened(turn: nat, mode: Mode, files: set<File>)
    | Took(turn: nat, act: Act)
    | RefreshedOutside(file: File)
    | WrittenOutside(file: File, token: Token)

  /** A step of one turn, or of the CLI it runs. */
  datatype Act =
    | Locked(dir: string)
    | Refused(dir: string)
    | Unlockable(dir: string)
    | Begun
    | RefreshedHere(file: File)
    | LetGo
    | MadeSession
    | Fetched(file: File, at: Place)
    | Sent(at: Place)
    | Unsent(at: Place)
    | GivenUp
    | Started
    | RefreshedThere(at: Place)
    | Ended
    | CutOff
    | ReadThere(at: Place, heard: bool)
    | Compared(at: Place)
    | Wrote(at: Place, written: bool)
    | Swept
    | Over
    | Killed

  /** Whether `flock` would refuse a directory in this mode: an exclusive holder refuses
      everyone, and any holder refuses an exclusive one. */
  predicate Busy(w: World, dir: string, mode: Mode) {
    exists t :: t in w.turns && dir in w.turns[t].held && (mode == Exclusive || w.turns[t].mode == Exclusive)
  }

  /** Whether a turn has read a file it is yet to put on the target. */
  predicate InHand(turn: Turn, file: File) {
    turn.hand.Some? && turn.hand.value.file == file
  }

  /** Whether what a turn has at a place on the target is a copy of a file. */
  predicate CopyOf(turn: Turn, at: Place, file: File) {
    at in turn.copies && turn.copies[at].file == file
  }

  /** Whether a copy is one the turn's CLI may yet refresh, or has and is not brought back. */
  predicate OutAt(turn: Turn, at: Place) {
    turn.going || turn.stage == Sending || at in turn.unread
  }

  ghost predicate There(turn: Turn, file: File) {
    exists at :: CopyOf(turn, at, file) && OutAt(turn, at)
  }

  /** Whether a copy of a file is out, from its being read here on. */
  ghost predicate Out(turn: Turn, file: File) {
    InHand(turn, file) || There(turn, file)
  }

  ghost predicate Lent(w: World, file: File) {
    exists t :: t in w.turns && Out(w.turns[t], file)
  }

  function Borrower(mode: Mode, files: set<File>): Turn {
    Turn(mode, files, set f | f in files :: f.dir, {}, Taking, false, None, map[], {}, {}, None, false)
  }

  ghost predicate Enabled(w: World, e: Event) {
    match e
    case Opened(t, _, files) => t !in w.turns && files <= w.onDisk.Keys * w.families.Keys
    case Took(t, act) => t in w.turns && May(w, w.turns[t], act)
    case RefreshedOutside(f) => f in w.families && f in w.onDisk
    case WrittenOutside(f, _) => f in w.families && f in w.onDisk
  }

  ghost predicate May(w: World, turn: Turn, act: Act) {
    match act
    case Locked(dir) => turn.stage == Taking && dir in turn.todo && !Busy(w, dir, turn.mode)
    case Refused(dir) => turn.stage == Taking && dir in turn.todo && Busy(w, dir, turn.mode)
    case Unlockable(dir) => turn.stage == Taking && dir in turn.todo
    case Begun => turn.stage == Taking && turn.todo == {}
    case RefreshedHere(f) => turn.stage == Using && f in turn.files && f in w.families && f in w.onDisk
    case LetGo => turn.mode == Shared
    case MadeSession => turn.stage == Sending && !turn.session
    case Fetched(f, at) =>
      turn.stage == Sending && turn.session && turn.hand == None && f in turn.files && at !in turn.copies && f in w.onDisk
    case Sent(at) => turn.stage == Sending && turn.hand.Some? && turn.hand.value.at == at
    case Unsent(at) => turn.stage == Sending && turn.hand.Some? && turn.hand.value.at == at
    case GivenUp => turn.stage == Sending
    case Started => turn.stage == Sending && turn.hand == None
    case RefreshedThere(at) => turn.going && at in turn.copies && turn.copies[at].file in w.families
    case Ended => turn.stage == Driving
    case CutOff => turn.stage == Driving
    case ReadThere(at, _) => turn.stage == Returning && turn.back == None && at in turn.unread && at in turn.copies
    case Compared(at) => MayBringBack(w, turn, at) && !turn.back.value.compared
    case Wrote(at, _) => MayBringBack(w, turn, at) && turn.back.value.compared
    case Swept => turn.stage == Returning && turn.session && turn.unread == {}
    case Over => turn.stage == Returning && !turn.session && turn.unread == {}
    case Killed => turn.mode == Exclusive && turn.stage != Loose
  }

  /** Whether a turn has in hand what it read of the copy at a place. */
  predicate BackOf(turn: Turn, at: Place) {
    turn.back.Some? && turn.back.value.at == at
  }

  predicate MayBringBack(w: World, turn: Turn, at: Place) {
    turn.stage == Returning && BackOf(turn, at) && at in turn.copies && turn.copies[at].file in w.onDisk
  }

  function Apply(w: World, e: Event): World
    requires Enabled(w, e)
  {
    match e
    case Opened(t, mode, files) => w.(turns := w.turns[t := Borrower(mode, files)])
    case Took(t, act) => Taken(w, t, act)
    case RefreshedOutside(f) => RefreshedInPlace(w, f)
    case WrittenOutside(f, token) => w.(onDisk := w.onDisk[f := token])
  }

  function Taken(w: World, t: nat, act: Act): World
    requires t in w.turns && May(w, w.turns[t], act)
  {
    var turn := w.turns[t];
    match act
    case Refused(_) => Without(w, t)
    case RefreshedHere(f) => RefreshedInPlace(w, f)
    case LetGo => Without(w, t)
    case RefreshedThere(at) =>
      var copy := turn.copies[at];
      var family := w.families[copy.file];
      With(w.(families := w.families[copy.file := Presented(family, copy.now)]),
           t, turn.(copies := turn.copies[at := copy.(now := Refreshed(family, copy.now))]))
    // Over whatever the original holds by then.
    case Wrote(at, written) =>
      var onDisk := if written then w.onDisk[turn.copies[at].file := turn.back.value.now] else w.onDisk;
      With(w.(onDisk := onDisk), t, Done(turn, at))
    case Over => if turn.going then CutLoose(w, t, turn) else Without(w, t)
    case Killed => if turn.going then CutLoose(w, t, turn) else Without(w, t)
    case _ => With(w, t, Moved(turn, act, w.onDisk))
  }

  /** The steps that change the turn's own record and nothing else. */
  predicate Own(act: Act) {
    !(act.Refused? || act.RefreshedHere? || act.LetGo? || act.RefreshedThere? || act.Wrote? || act.Over? || act.Killed?)
  }

  lemma OwnMoves(w: World, t: nat, act: Act)
    requires t in w.turns && May(w, w.turns[t], act) && Own(act)
    ensures Taken(w, t, act) == With(w, t, Moved(w.turns[t], act, w.onDisk))
  {
  }

  function Moved(turn: Turn, act: Act, onDisk: map<File, Token>): Turn
    requires act.Fetched? ==> act.file in onDisk
    requires act.Sent? || act.Unsent? ==> turn.hand.Some?
    requires act.ReadThere? || act.Compared? ==> act.at in turn.copies
    requires act.Compared? ==> turn.copies[act.at].file in onDisk && BackOf(turn, act.at)
  {
    match act
    case Locked(dir) => turn.(todo := turn.todo - {dir}, held := turn.held + {dir})
    case Unlockable(dir) => turn.(todo := turn.todo - {dir})
    case Begun => turn.(stage := if turn.mode == Shared then Using else Sending)
    case MadeSession => turn.(session := true)
    case Fetched(f, at) => turn.(hand := Some(Read(f, at, onDisk[f])))
    case Sent(at) => turn.(hand := None, copies := turn.copies[at := CopyOfRead(turn.hand.value)], lent := turn.lent + {at})
    // Written in part, maybe: not recorded as lent, and no CLI is ever started over it.
    case Unsent(at) =>
      turn.(hand := None, copies := turn.copies[at := CopyOfRead(turn.hand.value)], stage := Returning, unread := turn.lent)
    case GivenUp => turn.(hand := None, stage := Returning, unread := turn.lent)
    case Started => turn.(stage := Driving, going := true)
    case Ended => turn.(stage := Returning, going := false, unread := turn.lent)
    // The road to the target is down, or this end interrupted: its CLI may be going yet.
    case CutOff => turn.(stage := Returning, unread := turn.lent)
    // Not read, or not refreshed: nothing to bring back.
    case ReadThere(at, heard) =>
      if !heard || turn.copies[at].now == turn.copies[at].sent then Done(turn, at)
      else turn.(back := Some(Back(at, turn.copies[at].now, false)))
    // Refreshed both here and there: the original is left as it is.
    case Compared(at) =>
      if onDisk[turn.copies[at].file] != turn.copies[at].sent then Done(turn, at)
      else turn.(back := Some(turn.back.value.(compared := true)))
    case Swept => turn.(session := false)
    case _ => turn
  }

  function CopyOfRead(read: Read): Copy {
    Copy(read.file, read.token, read.token)
  }

  /** A turn through with bringing one copy back. */
  function Done(turn: Turn, at: Place): Turn {
    turn.(unread := turn.unread - {at}, back := None)
  }

  function With(w: World, t: nat, turn: Turn): World {
    w.(turns := w.turns[t := turn])
  }

  function Without(w: World, t: nat): World {
    w.(turns := w.turns - {t})
  }

  /** The kernel lets a dead process's locks go; the CLI on the target may go on. */
  function CutLoose(w: World, t: nat, turn: Turn): World {
    With(w, t, turn.(stage := Loose, todo := {}, held := {}, hand := None, unread := {}, back := None))
  }

  /** A refresh of the file where it is, which reads and rewrites it in one step. */
  function RefreshedInPlace(w: World, f: File): World
    requires f in w.families && f in w.onDisk
  {
    World(w.families[f := Presented(w.families[f], w.onDisk[f])],
          w.onDisk[f := Refreshed(w.families[f], w.onDisk[f])],
          w.turns)
  }

  /** The sign-ins a step gives up the safety of: a directory that could not be locked, a turn
      cut off or killed with its CLI going, a refreshed copy that was not read or written back, a
      second copy of a sign-in that one turn sends, and a writer outside the locks. */
  ghost function Blame(w: World, e: Event): set<File>
    requires Enabled(w, e)
  {
    match e
    case Opened(_, _, _) => {}
    case Took(t, act) => BlameOf(w.turns[t], act)
    case RefreshedOutside(f) => if Lent(w, f) then {f} else {}
    case WrittenOutside(f, _) => {f}
  }

  ghost function BlameOf(turn: Turn, act: Act): set<File> {
    match act
    case Unlockable(dir) => set f | f in turn.files && f.dir == dir
    case Fetched(f, _) => if exists at :: CopyOf(turn, at, f) then {f} else {}
    case CutOff => CopiedBy(turn)
    case Killed =>
      if turn.going then CopiedBy(turn) else set at | at in turn.unread && Unreturned(turn, at) :: turn.copies[at].file
    case ReadThere(at, heard) => if Unreturned(turn, at) && !heard then {turn.copies[at].file} else {}
    case Wrote(at, written) => if written || at !in turn.copies then {} else {turn.copies[at].file}
    case _ => {}
  }

  /** The files a turn has copies of on the target. */
  function CopiedBy(turn: Turn): set<File> {
    set at | at in turn.copies :: turn.copies[at].file
  }

  /** Whether the CLI refreshed a copy that is still to be brought back. */
  predicate Unreturned(turn: Turn, at: Place) {
    at in turn.copies && turn.copies[at].now != turn.copies[at].sent
  }

  ghost predicate Possible(w: World, es: seq<Event>)
    decreases |es|
  {
    es == [] || (Enabled(w, es[0]) && Possible(Apply(w, es[0]), es[1..]))
  }

  ghost function After(w: World, es: seq<Event>): World
    requires Possible(w, es)
    decreases |es|
  {
    if es == [] then w else After(Apply(w, es[0]), es[1..])
  }

  /** Every sign-in any step of a run gives up the safety of. */
  ghost function Blamed(w: World, es: seq<Event>): set<File>
    requires Possible(w, es)
    decreases |es|
  {
    if es == [] then {} else Blame(w, es[0]) + Blamed(Apply(w, es[0]), es[1..])
  }

  /** Before anything runs: nobody borrows anything, and every file holds its family's token. */
  ghost predicate Fresh(w: World) {
    && w.turns == map[]
    && w.families.Keys == w.onDisk.Keys
    && forall f :: f in w.families ==> !w.families[f].revoked && w.onDisk[f] == w.families[f].current
  }

  /** What every turn's record keeps, whatever has failed. */
  ghost predicate WellKept(turn: Turn) {
    && (forall at | at in turn.copies :: turn.copies[at].file in turn.files)
    && turn.lent <= turn.copies.Keys
    && turn.unread <= turn.lent
    && (turn.going ==> turn.mode == Exclusive && turn.stage in {Driving, Returning, Loose})
    && (turn.stage in {Driving, Loose} ==> turn.going)
    && (turn.going ==> turn.lent == turn.copies.Keys)
    && (turn.stage == Sending ==> turn.lent == turn.copies.Keys)
    && (turn.stage in {Taking, Using} ==> turn.copies == map[])
    && (turn.stage == Using ==> turn.mode == Shared)
    && (turn.stage in {Sending, Driving, Returning} ==> turn.mode == Exclusive)
    && (turn.stage != Taking ==> turn.todo == {})
    && (turn.stage in {Taking, Using, Sending, Driving} ==> turn.unread == {})
    && (turn.hand.Some? ==> turn.stage == Sending && turn.hand.value.file in turn.files && turn.hand.value.at !in turn.copies)
    && (turn.back.Some? ==> turn.stage == Returning && turn.back.value.at in turn.unread)
  }

  /** What the locks keep: an exclusive holder is a directory's only holder. */
  ghost predicate Ordered(w: World) {
    && (forall t :: t in w.turns ==> WellKept(w.turns[t]))
    && (forall t, u, dir | t in w.turns && u in w.turns && t != u ::
          dir in w.turns[t].held && dir in w.turns[u].held ==> w.turns[t].mode == Shared)
  }

  /** A turn with a file nothing was given up of: its directory is truly held once it is no
      longer to be, there is one copy of it at most, none where the turn is loose, and one that is
      out -- or in hand, on its way there or back -- is the family's current token, read from what
      the file still holds. */
  ghost predicate Sound(w: World, turn: Turn, f: File)
    requires f in w.families && f in w.onDisk
  {
    && (f in turn.files && f.dir !in turn.todo && turn.stage != Loose ==> f.dir in turn.held)
    && (InHand(turn, f) ==> turn.hand.value.token == w.onDisk[f] == w.families[f].current)
    && (forall at | CopyOf(turn, at, f) :: !InHand(turn, f) && SoundCopy(w, turn, at, f))
    && (forall at, other | CopyOf(turn, at, f) && CopyOf(turn, other, f) :: at == other)
  }

  ghost predicate SoundCopy(w: World, turn: Turn, at: Place, f: File)
    requires f in w.families && f in w.onDisk && at in turn.copies
  {
    var copy := turn.copies[at];
    && turn.stage != Loose && !(turn.going && turn.stage == Returning)
    && (turn.stage == Sending ==> copy.sent == copy.now)
    && (OutAt(turn, at) ==> copy.sent == w.onDisk[f] && copy.now == w.families[f].current)
    && (BackOf(turn, at) ==> turn.back.value.now == copy.now)
  }

  /** What a run keeps of every sign-in it blames nothing for. */
  ghost predicate Safe(w: World, f: File) {
    && f in w.families && f in w.onDisk
    && !w.families[f].revoked
    && (forall t :: t in w.turns ==> Sound(w, w.turns[t], f))
    && (!Lent(w, f) ==> w.onDisk[f] == w.families[f].current)
  }

  /** A turn's step is its own: it changes no other turn. */
  lemma OthersKept(w: World, t: nat, act: Act)
    requires t in w.turns && May(w, w.turns[t], act)
    ensures var w' := Taken(w, t, act);
      forall u :: u != t ==> (u in w'.turns <==> u in w.turns) && (u in w.turns ==> w'.turns[u] == w.turns[u])
  {
  }

  lemma WellKeptKept(w: World, t: nat, act: Act)
    requires t in w.turns && May(w, w.turns[t], act) && WellKept(w.turns[t])
    ensures var w' := Taken(w, t, act); t in w'.turns ==> WellKept(w'.turns[t])
  {
    if Own(act) {
      OwnMoves(w, t, act);
      MovedKept(w, t, act);
    }
  }

  lemma MovedKept(w: World, t: nat, act: Act)
    requires t in w.turns && May(w, w.turns[t], act) && Own(act) && WellKept(w.turns[t])
    ensures WellKept(Moved(w.turns[t], act, w.onDisk))
  {
    if act.Sent? || act.Unsent? {
      LandedKept(w, t, act);
    }
  }

  lemma LandedKept(w: World, t: nat, act: Act)
    requires t in w.turns && May(w, w.turns[t], act) && (act.Sent? || act.Unsent?) && WellKept(w.turns[t])
    ensures WellKept(Moved(w.turns[t], act, w.onDisk))
  {
  }

  lemma OrderedKept(w: World, e: Event)
    requires Ordered(w) && Enabled(w, e)
    ensures Ordered(Apply(w, e))
  {
    if e.Took? {
      OthersKept(w, e.turn, e.act);
      WellKeptKept(w, e.turn, e.act);
      HoldsKept(w, e.turn, e.act);
    }
  }

  /** A turn takes a directory only where no other holder keeps it from it. */
  lemma HoldsKept(w: World, t: nat, act: Act)
    requires Ordered(w) && t in w.turns && May(w, w.turns[t], act)
    ensures var w' := Taken(w, t, act);
      forall u, dir | t in w'.turns && u in w'.turns && u != t && dir in w'.turns[t].held && dir in w'.turns[u].held ::
        w'.turns[t].mode == Shared && w'.turns[u].mode == Shared
  {
    hide WellKept;
    OthersKept(w, t, act);
    HeldBefore(w, t, act);
    hide Taken;
    var w' := Taken(w, t, act);
    forall u, dir | t in w'.turns && u in w'.turns && u != t && dir in w'.turns[t].held && dir in w'.turns[u].held
      ensures w'.turns[t].mode == Shared && w'.turns[u].mode == Shared
    {
      if dir !in w.turns[t].held {
        assert !Busy(w, dir, w.turns[t].mode);
      } else {
        assert dir in w.turns[u].held;
      }
    }
  }

  /** What a turn holds it held, or has just locked. */
  lemma HeldBefore(w: World, t: nat, act: Act)
    requires t in w.turns && May(w, w.turns[t], act)
    ensures var w' := Taken(w, t, act);
      t in w'.turns ==>
        && w'.turns[t].mode == w.turns[t].mode
        && forall dir | dir in w'.turns[t].held :: dir in w.turns[t].held || !Busy(w, dir, w.turns[t].mode)
  {
    hide Busy;
    if Own(act) {
      OwnMoves(w, t, act);
    }
  }

  /** Whoever has a copy out of a file nothing was given up of holds its directory alone. */
  lemma AloneWithIt(w: World, t: nat, u: nat, f: File)
    requires Ordered(w) && Safe(w, f) && t in w.turns && u in w.turns && t != u
    requires Out(w.turns[t], f) && f in w.turns[u].files
    ensures w.turns[u].stage in {Taking, Loose} && !Out(w.turns[u], f)
  {
    assert Sound(w, w.turns[t], f) && Sound(w, w.turns[u], f);
    assert WellKept(w.turns[t]) && WellKept(w.turns[u]);
    assert f.dir in w.turns[t].held;
  }

  lemma SafeKept(w: World, e: Event, f: File)
    requires Ordered(w) && Enabled(w, e) && Safe(w, f) && f !in Blame(w, e)
    ensures Safe(Apply(w, e), f)
  {
    match e
    case Opened(t, mode, files) =>
      var w' := Apply(w, e);
      forall u | u in w'.turns ensures Sound(w', w'.turns[u], f) {
        assert u != t ==> u in w.turns && w'.turns[u] == w.turns[u];
      }
      assert Lent(w, f) ==> Lent(w', f) by {
        if u :| u in w.turns && Out(w.turns[u], f) { assert Out(w'.turns[u], f); }
      }
    case Took(t, act) => SafeAfterAct(w, t, act, f);
    case RefreshedOutside(g) => SafeInPlace(w, g, f);
    case WrittenOutside(g, _) =>
      var w' := Apply(w, e);
      assert w'.turns == w.turns;
      assert Lent(w, f) ==> Lent(w', f);
  }

  /** Refreshed where it is, with no copy of it out, a file still holds its family's token. */
  lemma SafeInPlace(w: World, g: File, f: File)
    requires Safe(w, f) && g in w.families && g in w.onDisk && (g == f ==> !Lent(w, f))
    ensures Safe(RefreshedInPlace(w, g), f)
  {
    var w' := RefreshedInPlace(w, g);
    forall u | u in w'.turns ensures Sound(w', w'.turns[u], f) {
      assert Sound(w, w.turns[u], f);
    }
    assert Lent(w, f) == Lent(w', f);
  }

  lemma SafeAfterAct(w: World, t: nat, act: Act, f: File)
    requires Ordered(w) && t in w.turns && May(w, w.turns[t], act) && Safe(w, f) && f !in BlameOf(w.turns[t], act)
    ensures Safe(Taken(w, t, act), f)
  {
    hide Taken, May, WellKept, Sound, Out, BlameOf;
    var turn, w' := w.turns[t], Taken(w, t, act);
    if act.RefreshedHere? {
      SafeHere(w, t, act.file, f);
    } else {
      OthersKept(w, t, act);
      OwnAfterAct(w, t, act, f);
      forall u | u in w'.turns ensures Sound(w', w'.turns[u], f) {
        if u != t {
          OtherAfterAct(w, t, act, f, u);
        }
      }
      if Lent(w, f) && !Out(turn, f) {
        var u :| u in w.turns && Out(w.turns[u], f);
        assert Out(w'.turns[u], f);
      }
    }
  }

  /** A turn here, which nobody with a copy out lets past its locks. */
  lemma SafeHere(w: World, t: nat, g: File, f: File)
    requires Ordered(w) && t in w.turns && May(w, w.turns[t], RefreshedHere(g)) && Safe(w, f)
    ensures Safe(Taken(w, t, RefreshedHere(g)), f)
  {
    hide Sound, Out;
    if g == f && Lent(w, f) {
      var u :| u in w.turns && Out(w.turns[u], f);
      NothingOutHere(w, t, f);
      AloneWithIt(w, u, t, f);
    }
    HereInPlace(w, t, g);
    SafeInPlace(w, g, f);
  }

  lemma NothingOutHere(w: World, t: nat, f: File)
    requires Ordered(w) && t in w.turns && w.turns[t].stage == Using
    ensures !Out(w.turns[t], f)
  {
    assert WellKept(w.turns[t]);
  }

  /** The one whose step it is, and the sign-in itself. */
  lemma OwnAfterAct(w: World, t: nat, act: Act, f: File)
    requires Ordered(w) && t in w.turns && May(w, w.turns[t], act) && Safe(w, f)
    requires f !in BlameOf(w.turns[t], act) && !act.RefreshedHere?
    ensures var w' := Taken(w, t, act);
      && f in w'.families && f in w'.onDisk && !w'.families[f].revoked
      && (t in w'.turns ==> Sound(w', w'.turns[t], f))
      && (Out(w.turns[t], f) ==> (t in w'.turns && Out(w'.turns[t], f)) || w'.onDisk[f] == w'.families[f].current)
      && (!Out(w.turns[t], f) ==> w'.onDisk[f] == w.onDisk[f] && w'.families[f] == w.families[f])
  {
    assert Sound(w, w.turns[t], f) && WellKept(w.turns[t]);
    hide Taken, Moved, Sound, WellKept, May, BlameOf;
    if Own(act) {
      OwnMoves(w, t, act);
      MovedAfterAct(w, t, act, f);
    } else if act.RefreshedThere? {
      ThereAfterAct(w, t, act.at, f);
    } else if act.Wrote? {
      WroteAfterAct(w, t, act, f);
    } else {
      GoneAfterAct(w, t, act, f);
    }
  }

  lemma ThereAfterAct(w: World, t: nat, at: Place, f: File)
    requires t in w.turns && May(w, w.turns[t], RefreshedThere(at)) && Safe(w, f) && WellKept(w.turns[t])
    ensures var w', turn := Taken(w, t, RefreshedThere(at)), w.turns[t];
      && f in w'.families && f in w'.onDisk && !w'.families[f].revoked && t in w'.turns
      && Sound(w', w'.turns[t], f) && (Out(turn, f) <==> Out(w'.turns[t], f))
      && (!Out(turn, f) ==> w'.onDisk[f] == w.onDisk[f] && w'.families[f] == w.families[f])
  {
    hide Taken;
    ThereMoves(w, t, at);
    var w', turn := Taken(w, t, RefreshedThere(at)), w.turns[t];
    var turn' := w'.turns[t];
    assert Sound(w, turn, f);
    forall p | CopyOf(turn', p, f) ensures CopyOf(turn, p, f) && !InHand(turn', f) && SoundCopy(w', turn', p, f) {
      assert CopyOf(turn, p, f) && SoundCopy(w, turn, p, f);
      if turn.copies[at].file == f {
        assert CopyOf(turn, at, f) && p == at;
      }
    }
    if turn.copies[at].file == f {
      assert CopyOf(turn, at, f) && SoundCopy(w, turn, at, f) && OutAt(turn, at) && OutAt(turn', at) && CopyOf(turn', at, f);
    }
    SameThere(turn, turn', f);
  }

  lemma SameThere(turn: Turn, turn': Turn, f: File)
    requires forall p | CopyOf(turn, p, f) && OutAt(turn, p) :: CopyOf(turn', p, f) && OutAt(turn', p)
    requires forall p | CopyOf(turn', p, f) && OutAt(turn', p) :: CopyOf(turn, p, f) && OutAt(turn, p)
    ensures There(turn, f) <==> There(turn', f)
  {
  }

  lemma WroteAfterAct(w: World, t: nat, act: Act, f: File)
    requires act.Wrote? && t in w.turns && May(w, w.turns[t], act) && Safe(w, f) && WellKept(w.turns[t])
    requires f !in BlameOf(w.turns[t], act)
    ensures var w', turn := Taken(w, t, act), w.turns[t];
      && f in w'.families && f in w'.onDisk && !w'.families[f].revoked && t in w'.turns
      && Sound(w', w'.turns[t], f)
      && (Out(turn, f) ==> Out(w'.turns[t], f) || w'.onDisk[f] == w'.families[f].current)
      && (!Out(turn, f) ==> w'.onDisk[f] == w.onDisk[f] && w'.families[f] == w.families[f])
  {
    hide Taken;
    WroteMoves(w, t, act.at, act.written);
    var w', turn, at := Taken(w, t, act), w.turns[t], act.at;
    var turn' := w'.turns[t];
    assert Sound(w, turn, f);
    if turn.copies[at].file == f {
      assert CopyOf(turn, at, f) && SoundCopy(w, turn, at, f) && OutAt(turn, at) && There(turn, f);
    }
    forall p | CopyOf(turn', p, f) ensures !InHand(turn', f) && SoundCopy(w', turn', p, f) {
      assert CopyOf(turn, p, f) && SoundCopy(w, turn, p, f);
    }
    forall p, q | CopyOf(turn', p, f) && CopyOf(turn', q, f) ensures p == q {
      assert CopyOf(turn, p, f) && CopyOf(turn, q, f);
    }
    if turn.copies[at].file != f {
      SameThere(turn, turn', f);
    }
  }

  lemma KilledBlames(turn: Turn, at: Place)
    ensures !turn.going && at in turn.unread && Unreturned(turn, at) ==> turn.copies[at].file in BlameOf(turn, Killed)
  {
  }

  /** A turn that goes, or is cut loose with its CLI going, changes no file. */
  lemma GoneAfterAct(w: World, t: nat, act: Act, f: File)
    requires act.Refused? || act.LetGo? || act.Over? || act.Killed?
    requires t in w.turns && May(w, w.turns[t], act) && Safe(w, f) && WellKept(w.turns[t])
    requires f !in BlameOf(w.turns[t], act)
    ensures var w', turn := Taken(w, t, act), w.turns[t];
      && w'.families == w.families && w'.onDisk == w.onDisk
      && (t in w'.turns ==> Sound(w', w'.turns[t], f))
      && (Out(turn, f) ==> (t in w'.turns && Out(w'.turns[t], f)) || w'.onDisk[f] == w'.families[f].current)
  {
    var turn, w' := w.turns[t], Taken(w, t, act);
    assert Sound(w, turn, f);
    forall p | CopyOf(turn, p, f) ensures !turn.going {
      assert SoundCopy(w, turn, p, f) && (turn.going ==> f in CopiedBy(turn));
    }
    if t in w'.turns {
      assert forall p | CopyOf(w'.turns[t], p, f) :: CopyOf(turn, p, f);
    }
    if There(turn, f) {
      var p :| CopyOf(turn, p, f) && OutAt(turn, p);
      assert SoundCopy(w, turn, p, f);
      KilledBlames(turn, p);
    }
  }

  lemma MovedAfterAct(w: World, t: nat, act: Act, f: File)
    requires t in w.turns && May(w, w.turns[t], act) && Own(act) && f !in BlameOf(w.turns[t], act)
    requires f in w.families && f in w.onDisk && Sound(w, w.turns[t], f) && WellKept(w.turns[t])
    requires act.Fetched? && act.file == f ==> w.onDisk[f] == w.families[f].current
    ensures var turn' := Moved(w.turns[t], act, w.onDisk);
      Sound(With(w, t, turn'), turn', f)
      && (Out(w.turns[t], f) ==> Out(turn', f) || w.onDisk[f] == w.families[f].current)
  {
    var turn, turn' := w.turns[t], Moved(w.turns[t], act, w.onDisk);
    var w' := With(w, t, turn');
    MovedSoundHand(w, t, act, f);
    MovedOut(w, t, act, f);
    forall p | CopyOf(turn', p, f) ensures !InHand(turn', f) && SoundCopy(w', turn', p, f) {
      MovedSoundCopy(w, t, act, f, p);
    }
    forall p, q | CopyOf(turn', p, f) && CopyOf(turn', q, f) ensures p == q {
      MovedOnly(w, t, act, f, p, q);
    }
  }

  lemma MovedSoundHand(w: World, t: nat, act: Act, f: File)
    requires t in w.turns && May(w, w.turns[t], act) && Own(act) && f !in BlameOf(w.turns[t], act)
    requires f in w.families && f in w.onDisk && Sound(w, w.turns[t], f) && WellKept(w.turns[t])
    requires act.Fetched? && act.file == f ==> w.onDisk[f] == w.families[f].current
    ensures var turn' := Moved(w.turns[t], act, w.onDisk);
      && (f in turn'.files && f.dir !in turn'.todo && turn'.stage != Loose ==> f.dir in turn'.held)
      && (InHand(turn', f) ==> turn'.hand.value.token == w.onDisk[f] == w.families[f].current)
  {
  }

  lemma MovedSoundCopy(w: World, t: nat, act: Act, f: File, at: Place)
    requires t in w.turns && May(w, w.turns[t], act) && Own(act) && f !in BlameOf(w.turns[t], act)
    requires f in w.families && f in w.onDisk && Sound(w, w.turns[t], f) && WellKept(w.turns[t])
    requires CopyOf(Moved(w.turns[t], act, w.onDisk), at, f)
    ensures var turn' := Moved(w.turns[t], act, w.onDisk);
      !InHand(turn', f) && SoundCopy(With(w, t, turn'), turn', at, f)
  {
    if act.Sent? || act.Unsent? {
      LandedSoundCopy(w, t, act, f, at);
    } else {
      OldSoundCopy(w, t, act, f, at);
    }
    hide Moved, May, Sound, SoundCopy, WellKept;
  }

  lemma LandedSoundCopy(w: World, t: nat, act: Act, f: File, at: Place)
    requires t in w.turns && May(w, w.turns[t], act) && (act.Sent? || act.Unsent?)
    requires f in w.families && f in w.onDisk && Sound(w, w.turns[t], f) && WellKept(w.turns[t])
    requires CopyOf(Moved(w.turns[t], act, w.onDisk), at, f)
    ensures var turn' := Moved(w.turns[t], act, w.onDisk);
      !InHand(turn', f) && SoundCopy(With(w, t, turn'), turn', at, f)
  {
    assert CopyOf(w.turns[t], at, f) ==> SoundCopy(w, w.turns[t], at, f);
  }

  lemma OldSoundCopy(w: World, t: nat, act: Act, f: File, at: Place)
    requires t in w.turns && May(w, w.turns[t], act) && Own(act) && !act.Sent? && !act.Unsent? && f !in BlameOf(w.turns[t], act)
    requires f in w.families && f in w.onDisk && Sound(w, w.turns[t], f) && WellKept(w.turns[t])
    requires CopyOf(Moved(w.turns[t], act, w.onDisk), at, f)
    ensures var turn' := Moved(w.turns[t], act, w.onDisk);
      !InHand(turn', f) && SoundCopy(With(w, t, turn'), turn', at, f)
  {
    assert CopyOf(w.turns[t], at, f) && SoundCopy(w, w.turns[t], at, f);
  }

  lemma MovedOnly(w: World, t: nat, act: Act, f: File, at: Place, other: Place)
    requires t in w.turns && May(w, w.turns[t], act) && Own(act)
    requires f in w.families && f in w.onDisk && Sound(w, w.turns[t], f)
    requires CopyOf(Moved(w.turns[t], act, w.onDisk), at, f) && CopyOf(Moved(w.turns[t], act, w.onDisk), other, f)
    ensures at == other
  {
    var turn := w.turns[t];
    assert (CopyOf(turn, at, f) || InHand(turn, f)) && (CopyOf(turn, other, f) || InHand(turn, f));
  }

  lemma MovedOut(w: World, t: nat, act: Act, f: File)
    requires t in w.turns && May(w, w.turns[t], act) && Own(act) && f !in BlameOf(w.turns[t], act)
    requires f in w.families && f in w.onDisk && Sound(w, w.turns[t], f) && WellKept(w.turns[t])
    ensures Out(w.turns[t], f) ==> Out(Moved(w.turns[t], act, w.onDisk), f) || w.onDisk[f] == w.families[f].current
  {
    var turn, turn' := w.turns[t], Moved(w.turns[t], act, w.onDisk);
    if There(turn, f) {
      var p :| CopyOf(turn, p, f) && OutAt(turn, p);
      assert SoundCopy(w, turn, p, f) && CopyOf(turn', p, f);
      assert OutAt(turn', p) ==> There(turn', f);
    }
  }

  /** Anybody else, whose own copy being out keeps the one stepping from the file. */
  lemma OtherAfterAct(w: World, t: nat, act: Act, f: File, u: nat)
    requires Ordered(w) && t in w.turns && May(w, w.turns[t], act) && Safe(w, f)
    requires f !in BlameOf(w.turns[t], act) && !act.RefreshedHere?
    requires u in w.turns && u != t
    ensures var w' := Taken(w, t, act);
      u in w'.turns && w'.turns[u] == w.turns[u] && f in w'.families && f in w'.onDisk && Sound(w', w'.turns[u], f)
  {
    var w', turn, other := Taken(w, t, act), w.turns[t], w.turns[u];
    OthersKept(w, t, act);
    assert Sound(w, other, f) && WellKept(turn);
    hide WellKept, May, Sound;
    if Out(other, f) {
      UntouchedByOthers(w, t, act, f, u);
    } else {
      TouchedElsewhere(w, t, act, f);
      NothingOutSound(w, w', other, f);
    }
  }

  lemma UntouchedByOthers(w: World, t: nat, act: Act, f: File, u: nat)
    requires Ordered(w) && t in w.turns && May(w, w.turns[t], act) && Safe(w, f) && !act.RefreshedHere?
    requires u in w.turns && u != t && Out(w.turns[u], f)
    ensures var w' := Taken(w, t, act);
      f in w'.families && f in w'.onDisk && Sound(w', w.turns[u], f)
  {
    assert WellKept(w.turns[t]) && Sound(w, w.turns[u], f);
    if f in w.turns[t].files {
      AloneWithIt(w, u, t, f);
    }
    TokensKept(w, t, act, f);
    SoundSame(w, Taken(w, t, act), w.turns[u], f);
  }

  lemma SoundSame(w: World, w': World, turn: Turn, f: File)
    requires f in w.families && f in w.onDisk && f in w'.families && f in w'.onDisk
    requires w'.onDisk[f] == w.onDisk[f] && w'.families[f] == w.families[f] && Sound(w, turn, f)
    ensures Sound(w', turn, f)
  {
    forall at | CopyOf(turn, at, f) ensures SoundCopy(w', turn, at, f) {
      assert SoundCopy(w, turn, at, f);
    }
  }

  /** A turn with no copy of a file out, or not past its locks, leaves the file and its family. */
  lemma TokensKept(w: World, t: nat, act: Act, f: File)
    requires t in w.turns && May(w, w.turns[t], act) && !act.RefreshedHere? && WellKept(w.turns[t])
    requires f in w.families && f in w.onDisk && (f in w.turns[t].files ==> !Out(w.turns[t], f))
    ensures var w' := Taken(w, t, act);
      f in w'.families && f in w'.onDisk && w'.onDisk[f] == w.onDisk[f] && w'.families[f] == w.families[f]
  {
    var turn := w.turns[t];
    if act.RefreshedThere? || act.Wrote? {
      assert turn.copies[act.at].file == f ==> f in turn.files && CopyOf(turn, act.at, f) && OutAt(turn, act.at);
    }
  }

  lemma TouchedElsewhere(w: World, t: nat, act: Act, f: File)
    requires t in w.turns && May(w, w.turns[t], act) && f in w.families && f in w.onDisk
    ensures f in Taken(w, t, act).families && f in Taken(w, t, act).onDisk
  {
  }

  lemma NothingOutSound(w: World, w': World, turn: Turn, f: File)
    requires f in w.families && f in w.onDisk && f in w'.families && f in w'.onDisk
    requires Sound(w, turn, f) && !Out(turn, f)
    ensures Sound(w', turn, f)
  {
    forall at | CopyOf(turn, at, f) ensures SoundCopy(w', turn, at, f) {
      assert SoundCopy(w, turn, at, f) && !OutAt(turn, at);
    }
  }

  /** In every interleaving of turns here, turns away and everything else, a sign-in the run
      blames no failure for is never presented spent, a copy of it that is out is the family's
      current token, and the file holds that token whenever no copy is out. */
  lemma {:induction false} RunKeepsSafe(w: World, es: seq<Event>, f: File)
    requires Ordered(w) && Safe(w, f) && Possible(w, es) && f !in Blamed(w, es)
    ensures Ordered(After(w, es)) && Safe(After(w, es), f)
    decreases |es|
  {
    if es != [] {
      OrderedKept(w, es[0]);
      SafeKept(w, es[0], f);
      RunKeepsSafe(Apply(w, es[0]), es[1..], f);
    }
  }

  /** If the vendor ever sees a spent refresh token, the run contains a named failure of that
      very sign-in; otherwise the original holds the current token whenever no copy is out. */
  lemma SpentOnlyByFailure(w: World, es: seq<Event>, f: File)
    requires Fresh(w) && f in w.families && Possible(w, es)
    ensures f in After(w, es).families && f in After(w, es).onDisk
    ensures After(w, es).families[f].revoked ==> f in Blamed(w, es)
    ensures f !in Blamed(w, es) && !Lent(After(w, es), f) ==>
              After(w, es).onDisk[f] == After(w, es).families[f].current
  {
    DomainsKept(w, es);
    if f !in Blamed(w, es) {
      assert Safe(w, f);
      RunKeepsSafe(w, es, f);
    }
  }

  lemma {:induction false} DomainsKept(w: World, es: seq<Event>)
    requires Possible(w, es) && w.families.Keys == w.onDisk.Keys
    ensures After(w, es).families.Keys == After(w, es).onDisk.Keys == w.families.Keys
    decreases |es|
  {
    if es != [] {
      assert Apply(w, es[0]).families.Keys == Apply(w, es[0]).onDisk.Keys == w.families.Keys;
      DomainsKept(Apply(w, es[0]), es[1..]);
    }
  }

  /** Whether a sign-in has been read to be sent, or a copy of it is where a CLI is going over it or has
      yet to, or is still to be read back. */
  ghost predicate Lends(turn: Turn, f: File) {
    || (turn.hand.Some? && turn.hand.value.file == f)
    || (exists at :: (at in turn.copies && turn.copies[at].file == f
                      && (turn.going || turn.stage == Sending || at in turn.unread)))
  }

  lemma LendsIsOut(turn: Turn, f: File)
    ensures Lends(turn, f) <==> Out(turn, f)
  {
    if There(turn, f) {
      var at :| CopyOf(turn, at, f) && OutAt(turn, at);
      assert at in turn.copies && turn.copies[at].file == f;
    }
    if at :| at in turn.copies && turn.copies[at].file == f && (turn.going || turn.stage == Sending || at in turn.unread) {
      assert CopyOf(turn, at, f) && OutAt(turn, at);
    }
  }

  /** What every failure is: the step that is one, and of which sign-ins. No other step is one of any. */
  lemma BlamedExactly(w: World, e: Event, f: File)
    requires Enabled(w, e)
    ensures f in Blame(w, e) <==> match e
      case Opened(_, _, _) => false
      case RefreshedOutside(file) => file == f && exists t :: t in w.turns && Lends(w.turns[t], f)
      case WrittenOutside(file, _) => file == f
      case Took(t, act) =>
        var turn := w.turns[t];
        || (act.Unlockable? && f in turn.files && f.dir == act.dir)
        || (act.Fetched? && act.file == f && exists at :: at in turn.copies && turn.copies[at].file == f)
        || (act.CutOff? && exists at :: at in turn.copies && turn.copies[at].file == f)
        || (act.Killed? && turn.going && exists at :: at in turn.copies && turn.copies[at].file == f)
        || (act.Killed? && exists at :: (at in turn.unread && at in turn.copies && turn.copies[at].file == f
                                         && turn.copies[at].now != turn.copies[at].sent))
        || (act.ReadThere? && !act.heard && turn.copies[act.at].file == f
              && turn.copies[act.at].now != turn.copies[act.at].sent)
        || (act.Wrote? && !act.written && turn.copies[act.at].file == f)
  {
    hide Out, Lends;
    if e.RefreshedOutside? {
      forall t | t in w.turns ensures Lends(w.turns[t], f) <==> Out(w.turns[t], f) { LendsIsOut(w.turns[t], f); }
    } else if e.Took? {
      TurnBlamedExactly(w.turns[e.turn], e.act, f);
    }
  }

  lemma TurnBlamedExactly(turn: Turn, act: Act, f: File)
    ensures f in BlameOf(turn, act) <==>
        || (act.Unlockable? && f in turn.files && f.dir == act.dir)
        || (act.Fetched? && act.file == f && exists at :: at in turn.copies && turn.copies[at].file == f)
        || (act.CutOff? && exists at :: at in turn.copies && turn.copies[at].file == f)
        || (act.Killed? && turn.going && exists at :: at in turn.copies && turn.copies[at].file == f)
        || (act.Killed? && exists at :: (at in turn.unread && at in turn.copies && turn.copies[at].file == f
                                         && turn.copies[at].now != turn.copies[at].sent))
        || (act.ReadThere? && !act.heard && act.at in turn.copies && turn.copies[act.at].file == f
              && turn.copies[act.at].now != turn.copies[act.at].sent)
        || (act.Wrote? && !act.written && act.at in turn.copies && turn.copies[act.at].file == f)
  {
    if at :| CopyOf(turn, at, f) {
      assert at in turn.copies && turn.copies[at].file == f;
    }
    if at :| at in turn.copies && turn.copies[at].file == f {
      assert CopyOf(turn, at, f);
    }
  }

  /** While the lock is truly held and every writer goes through it, a copy brought back finds
      the original as it was sent: "refreshed both here and there" is never reached. */
  lemma NeverRefreshedBoth(w: World, es: seq<Event>, t: nat, at: Place, f: File)
    requires Fresh(w) && f in w.families && Possible(w, es) && f !in Blamed(w, es)
    requires Enabled(After(w, es), Took(t, Compared(at))) && CopyOf(After(w, es).turns[t], at, f)
    ensures var w' := After(w, es); w'.onDisk[f] == w'.turns[t].copies[at].sent
  {
    RunKeepsSafe(w, es, f);
    var w' := After(w, es);
    assert Sound(w', w'.turns[t], f) && WellKept(w'.turns[t]) && SoundCopy(w', w'.turns[t], at, f);
  }

  // ------------------------------------------------------------- what is written over

  /** Whether a copy was refreshed where it is. */
  predicate Newer(copy: Copy) {
    copy.sent < copy.now
  }

  /** Nobody holds a token past the family's, and what is about to be written over a file is past
      what was sent, which the file holds once the two have been compared. */
  ghost predicate Grown(w: World, turn: Turn, f: File)
    requires f in w.families && f in w.onDisk
  {
    && (InHand(turn, f) ==> turn.hand.value.token <= w.families[f].current)
    && (forall at | CopyOf(turn, at, f) :: GrownCopy(w, turn, at, f))
  }

  predicate GrownCopy(w: World, turn: Turn, at: Place, f: File)
    requires f in w.families && f in w.onDisk && at in turn.copies
  {
    var copy := turn.copies[at];
    && copy.sent <= copy.now <= w.families[f].current
    && (BackOf(turn, at) ==>
          && copy.sent < turn.back.value.now <= copy.now
          && (turn.back.value.compared ==> copy.sent == w.onDisk[f]))
  }

  /** Only one copy of what was sent can have been refreshed: another would present it spent. */
  predicate Apart(a: Copy, b: Copy) {
    Newer(a) && Newer(b) ==> a.sent != b.sent
  }

  /** Of any two copies of a file that two turns have, or one turn in two places. */
  ghost predicate AllApart(a: Turn, b: Turn, same: bool, f: File) {
    forall p, q | CopyOf(a, p, f) && CopyOf(b, q, f) && (same ==> p != q) :: Apart(a.copies[p], b.copies[q])
  }

  ghost predicate Steady(w: World, f: File) {
    && f in w.families && f in w.onDisk && w.onDisk[f] <= w.families[f].current
    && (forall t :: t in w.turns ==> Grown(w, w.turns[t], f))
    && (forall t, u :: t in w.turns && u in w.turns ==> AllApart(w.turns[t], w.turns[u], t == u, f))
  }

  lemma SteadyInPlace(w: World, g: File, f: File)
    requires Steady(w, f) && g in w.families && g in w.onDisk
    ensures Steady(RefreshedInPlace(w, g), f)
  {
    var w' := RefreshedInPlace(w, g);
    forall t | t in w'.turns ensures Grown(w', w'.turns[t], f) {
      GrownInPlace(w, g, w.turns[t], f);
    }
  }

  lemma GrownInPlace(w: World, g: File, turn: Turn, f: File)
    requires f in w.families && f in w.onDisk && w.onDisk[f] <= w.families[f].current && Grown(w, turn, f)
    requires g in w.families && g in w.onDisk
    ensures Grown(RefreshedInPlace(w, g), turn, f)
  {
    var w' := RefreshedInPlace(w, g);
    forall at | CopyOf(turn, at, f) ensures GrownCopy(w', turn, at, f) {
      assert GrownCopy(w, turn, at, f);
    }
  }

  /** Whether a turn has no copy of a file refreshed that it had not refreshed already. */
  ghost predicate NoneNewer(turn: Turn, was: Turn, f: File) {
    forall at | CopyOf(turn, at, f) && Newer(turn.copies[at]) ::
      CopyOf(was, at, f) && Newer(was.copies[at]) && was.copies[at].sent == turn.copies[at].sent
  }

  /** With one turn changed, or gone, and none of its copies newly refreshed, all are as far apart. */
  lemma ApartKept(w: World, w': World, t: nat, f: File)
    requires Steady(w, f) && t in w.turns
    requires forall u | u in w'.turns && u != t :: u in w.turns && w'.turns[u] == w.turns[u]
    requires t in w'.turns ==> NoneNewer(w'.turns[t], w.turns[t], f)
    ensures forall u, v | u in w'.turns && v in w'.turns :: AllApart(w'.turns[u], w'.turns[v], u == v, f)
  {
    forall u, v | u in w'.turns && v in w'.turns ensures AllApart(w'.turns[u], w'.turns[v], u == v, f) {
      assert AllApart(w.turns[u], w.turns[v], u == v, f);
      TurnsApart(w.turns[u], w'.turns[u], w.turns[v], w'.turns[v], u == v, f);
    }
  }

  lemma TurnsApart(a: Turn, a': Turn, b: Turn, b': Turn, same: bool, f: File)
    requires AllApart(a, b, same, f) && NoneNewer(a', a, f) && NoneNewer(b', b, f)
    ensures AllApart(a', b', same, f)
  {
    forall p, q | CopyOf(a', p, f) && CopyOf(b', q, f) && (same ==> p != q) ensures Apart(a'.copies[p], b'.copies[q]) {
      if Newer(a'.copies[p]) && Newer(b'.copies[q]) {
        assert Apart(a.copies[p], b.copies[q]);
      }
    }
  }

  lemma SteadyOwn(w: World, t: nat, act: Act, f: File)
    requires Steady(w, f) && t in w.turns && May(w, w.turns[t], act) && Own(act) && WellKept(w.turns[t])
    ensures Steady(Taken(w, t, act), f)
  {
    var w' := With(w, t, Moved(w.turns[t], act, w.onDisk));
    OwnMoves(w, t, act);
    MovedGrown(w, t, act, f);
    hide Moved, May, Own, Taken, WellKept, Grown, AllApart, NoneNewer;
    ApartKept(w, w', t, f);
    forall u | u in w'.turns ensures Grown(w', w'.turns[u], f) {
      if u != t { GrownSame(w, w', w.turns[u], f); }
    }
  }

  /** Whether a turn's copies are grown is a matter of its own file's token and family. */
  lemma GrownSame(w: World, w': World, turn: Turn, f: File)
    requires f in w.families && f in w.onDisk && f in w'.families && f in w'.onDisk
    requires w'.onDisk[f] == w.onDisk[f] && w'.families[f] == w.families[f] && Grown(w, turn, f)
    ensures Grown(w', turn, f)
  {
    forall at | CopyOf(turn, at, f) ensures GrownCopy(w', turn, at, f) {
      assert GrownCopy(w, turn, at, f);
    }
  }

  lemma MovedGrown(w: World, t: nat, act: Act, f: File)
    requires Steady(w, f) && t in w.turns && May(w, w.turns[t], act) && Own(act) && WellKept(w.turns[t])
    ensures var turn := Moved(w.turns[t], act, w.onDisk);
      Grown(With(w, t, turn), turn, f) && NoneNewer(turn, w.turns[t], f)
  {
    var turn := w.turns[t];
    var turn' := Moved(turn, act, w.onDisk);
    var w' := With(w, t, turn');
    assert Grown(w, turn, f);
    MovedHand(w, t, act, f);
    forall at | CopyOf(turn', at, f)
      ensures GrownCopy(w', turn', at, f)
      ensures Newer(turn'.copies[at]) ==> CopyOf(turn, at, f) && turn'.copies[at] == turn.copies[at]
    {
      MovedCopy(w, t, act, f, at);
    }
  }

  lemma MovedHand(w: World, t: nat, act: Act, f: File)
    requires Steady(w, f) && t in w.turns && May(w, w.turns[t], act) && Own(act) && WellKept(w.turns[t])
    ensures var turn := Moved(w.turns[t], act, w.onDisk);
      InHand(turn, f) ==> turn.hand.value.token <= w.families[f].current
  {
    assert Grown(w, w.turns[t], f);
  }

  lemma MovedCopy(w: World, t: nat, act: Act, f: File, at: Place)
    requires Steady(w, f) && t in w.turns && May(w, w.turns[t], act) && Own(act) && WellKept(w.turns[t])
    requires CopyOf(Moved(w.turns[t], act, w.onDisk), at, f)
    ensures var turn := Moved(w.turns[t], act, w.onDisk);
      && GrownCopy(With(w, t, turn), turn, at, f)
      && (Newer(turn.copies[at]) ==> CopyOf(w.turns[t], at, f) && turn.copies[at] == w.turns[t].copies[at])
  {
    assert Grown(w, w.turns[t], f);
    if act.Sent? || act.Unsent? {
      LandedCopy(w, t, act, f, at);
    } else {
      OldCopy(w, t, act, f, at);
    }
    hide Moved, May, Grown, GrownCopy, AllApart, WellKept;
  }

  lemma LandedCopy(w: World, t: nat, act: Act, f: File, at: Place)
    requires f in w.families && f in w.onDisk && t in w.turns && Grown(w, w.turns[t], f)
    requires May(w, w.turns[t], act) && (act.Sent? || act.Unsent?) && WellKept(w.turns[t])
    requires CopyOf(Moved(w.turns[t], act, w.onDisk), at, f)
    ensures var turn := Moved(w.turns[t], act, w.onDisk);
      && GrownCopy(With(w, t, turn), turn, at, f)
      && (Newer(turn.copies[at]) ==> CopyOf(w.turns[t], at, f) && turn.copies[at] == w.turns[t].copies[at])
  {
    assert CopyOf(w.turns[t], at, f) ==> GrownCopy(w, w.turns[t], at, f);
  }

  lemma OldCopy(w: World, t: nat, act: Act, f: File, at: Place)
    requires f in w.families && f in w.onDisk && t in w.turns && Grown(w, w.turns[t], f)
    requires May(w, w.turns[t], act) && Own(act) && !act.Sent? && !act.Unsent? && WellKept(w.turns[t])
    requires CopyOf(Moved(w.turns[t], act, w.onDisk), at, f)
    ensures var turn := Moved(w.turns[t], act, w.onDisk);
      && GrownCopy(With(w, t, turn), turn, at, f)
      && CopyOf(w.turns[t], at, f) && turn.copies[at] == w.turns[t].copies[at]
  {
    assert CopyOf(w.turns[t], at, f) && GrownCopy(w, w.turns[t], at, f);
  }

  lemma SteadyThere(w: World, t: nat, at: Place, f: File)
    requires Steady(w, f) && t in w.turns && May(w, w.turns[t], RefreshedThere(at))
    ensures Steady(Taken(w, t, RefreshedThere(at)), f)
  {
    hide Grown, AllApart, Taken;
    var turn := w.turns[t];
    var w' := Taken(w, t, RefreshedThere(at));
    var g := turn.copies[at].file;
    ThereMoves(w, t, at);
    forall u | u in w'.turns ensures Grown(w', w'.turns[u], f) {
      if u == t { ThereGrown(w, t, at, f); } else { OlderGrown(w, w', w.turns[u], f); }
    }
    if g != f || turn.copies[at].now != w.families[f].current || w.families[f].revoked {
      ThereNoneNewer(w, t, at, f);
      ApartKept(w, w', t, f);
    } else {
      forall u, v | u in w'.turns && v in w'.turns ensures AllApart(w'.turns[u], w'.turns[v], u == v, f) {
        if u == t {
          ThereApart(w, t, at, f, v);
        } else if v == t {
          ThereApart(w, t, at, f, u);
        } else {
          assert AllApart(w.turns[u], w.turns[v], u == v, f);
        }
      }
    }
  }

  /** What a refresh there changes: its copy, and its family. */
  lemma ThereMoves(w: World, t: nat, at: Place)
    requires t in w.turns && May(w, w.turns[t], RefreshedThere(at))
    ensures var w', turn, copy := Taken(w, t, RefreshedThere(at)), w.turns[t], w.turns[t].copies[at];
      var g := copy.file;
      && w'.onDisk == w.onDisk && t in w'.turns
      && w'.families == w.families[g := Presented(w.families[g], copy.now)]
      && w'.turns == w.turns[t := turn.(copies := turn.copies[at := copy.(now := Refreshed(w.families[g], copy.now))])]
  {
  }

  lemma OlderGrown(w: World, w': World, turn: Turn, f: File)
    requires f in w.families && f in w.onDisk && f in w'.families && f in w'.onDisk
    requires w'.onDisk[f] == w.onDisk[f] && w.families[f].current <= w'.families[f].current && Grown(w, turn, f)
    ensures Grown(w', turn, f)
  {
    forall at | CopyOf(turn, at, f) ensures GrownCopy(w', turn, at, f) {
      assert GrownCopy(w, turn, at, f);
    }
  }

  lemma ThereGrown(w: World, t: nat, at: Place, f: File)
    requires Steady(w, f) && t in w.turns && May(w, w.turns[t], RefreshedThere(at))
    ensures var w' := Taken(w, t, RefreshedThere(at)); Grown(w', w'.turns[t], f)
  {
    hide AllApart, Taken;
    ThereMoves(w, t, at);
    var w' := Taken(w, t, RefreshedThere(at));
    assert Grown(w, w.turns[t], f);
    forall p | CopyOf(w'.turns[t], p, f) ensures GrownCopy(w', w'.turns[t], p, f) {
      assert CopyOf(w.turns[t], p, f) && GrownCopy(w, w.turns[t], p, f);
    }
  }

  lemma ThereNoneNewer(w: World, t: nat, at: Place, f: File)
    requires t in w.turns && May(w, w.turns[t], RefreshedThere(at)) && f in w.families
    requires var copy := w.turns[t].copies[at];
      copy.file != f || copy.now != w.families[f].current || w.families[f].revoked
    ensures var w' := Taken(w, t, RefreshedThere(at)); NoneNewer(w'.turns[t], w.turns[t], f)
  {
    hide Taken;
    ThereMoves(w, t, at);
  }

  /** Refreshed now, what was sent with a copy is spent now, and with every other before. */
  lemma ThereApart(w: World, t: nat, at: Place, f: File, u: nat)
    requires Steady(w, f) && t in w.turns && u in w.turns && May(w, w.turns[t], RefreshedThere(at))
    requires CopyOf(w.turns[t], at, f) && w.turns[t].copies[at].now == w.families[f].current && !w.families[f].revoked
    ensures var w' := Taken(w, t, RefreshedThere(at));
      AllApart(w'.turns[t], w'.turns[u], t == u, f) && AllApart(w'.turns[u], w'.turns[t], u == t, f)
  {
    hide Taken, AllApart;
    ThereMoves(w, t, at);
    var w' := Taken(w, t, RefreshedThere(at));
    NewlyApart(w.turns[t], w.turns[u], w'.turns[t], w'.turns[u], at, t == u, w.families[f].current, f) by {
      CopiesGrown(w, t, f);
      CopiesGrown(w, u, f);
    }
  }

  lemma CopiesGrown(w: World, t: nat, f: File)
    requires Steady(w, f) && t in w.turns
    ensures forall p | CopyOf(w.turns[t], p, f) ::
              w.turns[t].copies[p].sent <= w.turns[t].copies[p].now <= w.families[f].current
  {
    assert Grown(w, w.turns[t], f);
    forall p | CopyOf(w.turns[t], p, f)
      ensures w.turns[t].copies[p].sent <= w.turns[t].copies[p].now <= w.families[f].current
    {
      assert GrownCopy(w, w.turns[t], p, f);
    }
  }

  lemma NewlyApart(a: Turn, b: Turn, a': Turn, b': Turn, at: Place, same: bool, current: Token, f: File)
    requires CopyOf(a, at, f) && a.copies[at].now == current && AllApart(a, b, same, f) && AllApart(b, a, same, f)
    requires a' == a.(copies := a.copies[at := a.copies[at].(now := current + 1)]) && b' == (if same then a' else b)
    requires same ==> b == a
    requires forall p | CopyOf(a, p, f) :: a.copies[p].sent <= a.copies[p].now <= current
    requires forall p | CopyOf(b, p, f) :: b.copies[p].sent <= b.copies[p].now <= current
    ensures AllApart(a', b', same, f) && AllApart(b', a', same, f)
  {
    forall p, q | CopyOf(a', p, f) && CopyOf(b', q, f) && (same ==> p != q)
      ensures Apart(a'.copies[p], b'.copies[q]) && Apart(b'.copies[q], a'.copies[p])
    {
      assert CopyOf(a, p, f) && CopyOf(b, q, f);
      assert Apart(a.copies[p], b.copies[q]);
    }
  }

  lemma SteadyWrote(w: World, t: nat, at: Place, written: bool, f: File)
    requires Steady(w, f) && t in w.turns && May(w, w.turns[t], Wrote(at, written))
    ensures Steady(Taken(w, t, Wrote(at, written)), f)
  {
    hide Grown, AllApart, Taken, NoneNewer;
    WroteMoves(w, t, at, written);
    var turn, w' := w.turns[t], Taken(w, t, Wrote(at, written));
    SameCopies(turn, at, f);
    ApartKept(w, w', t, f);
    if turn.copies[at].file == f { GrownBack(w, t, at, f); }
    forall u | u in w'.turns ensures Grown(w', w'.turns[u], f) {
      WroteGrown(w, t, at, written, f, u);
    }
  }

  lemma WroteMoves(w: World, t: nat, at: Place, written: bool)
    requires t in w.turns && May(w, w.turns[t], Wrote(at, written))
    ensures var w', turn := Taken(w, t, Wrote(at, written)), w.turns[t];
      var f := turn.copies[at].file;
      && w'.families == w.families && w'.turns == w.turns[t := Done(turn, at)]
      && w'.onDisk == if written then w.onDisk[f := turn.back.value.now] else w.onDisk
  {
  }

  lemma SameCopies(turn: Turn, at: Place, f: File)
    ensures NoneNewer(Done(turn, at), turn, f)
  {
  }

  lemma GrownBack(w: World, t: nat, at: Place, f: File)
    requires Steady(w, f) && t in w.turns && MayBringBack(w, w.turns[t], at) && w.turns[t].copies[at].file == f
    ensures w.turns[t].back.value.now <= w.families[f].current
  {
    assert Grown(w, w.turns[t], f) && GrownCopy(w, w.turns[t], at, f);
  }

  lemma WroteGrown(w: World, t: nat, at: Place, written: bool, f: File, u: nat)
    requires Steady(w, f) && t in w.turns && u in w.turns && May(w, w.turns[t], Wrote(at, written))
    ensures var w' := Taken(w, t, Wrote(at, written)); Grown(w', w'.turns[u], f)
  {
    hide AllApart, Taken;
    WroteMoves(w, t, at, written);
    var turn, w' := w.turns[t], Taken(w, t, Wrote(at, written));
    assert Grown(w, turn, f) && Grown(w, w.turns[u], f);
    if u != t && turn.copies[at].file == f {
      WroteApart(w, t, at, f, u);
    }
    forall p | CopyOf(w'.turns[u], p, f) ensures GrownCopy(w', w'.turns[u], p, f) {
      assert GrownCopy(w, w.turns[u], p, f);
    }
  }

  /** Nobody else is about to write a copy over what this one is written over. */
  lemma WroteApart(w: World, t: nat, at: Place, f: File, u: nat)
    requires Steady(w, f) && t in w.turns && u in w.turns && u != t
    requires MayBringBack(w, w.turns[t], at) && w.turns[t].back.value.compared && w.turns[t].copies[at].file == f
    ensures forall p | CopyOf(w.turns[u], p, f) && BackOf(w.turns[u], p) :: !w.turns[u].back.value.compared
  {
    assert Grown(w, w.turns[t], f) && Grown(w, w.turns[u], f) && GrownCopy(w, w.turns[t], at, f);
    assert AllApart(w.turns[t], w.turns[u], false, f);
    forall p | CopyOf(w.turns[u], p, f) && BackOf(w.turns[u], p) ensures !w.turns[u].back.value.compared {
      assert GrownCopy(w, w.turns[u], p, f) && Apart(w.turns[t].copies[at], w.turns[u].copies[p]);
    }
  }

  lemma SteadyGone(w: World, t: nat, act: Act, f: File)
    requires Steady(w, f) && t in w.turns && May(w, w.turns[t], act) && (act.Refused? || act.LetGo? || act.Over? || act.Killed?)
    ensures Steady(Taken(w, t, act), f)
  {
    hide AllApart, Grown, NoneNewer, May;
    var w' := Taken(w, t, act);
    LooseSame(w, t, f);
    ApartKept(w, w', t, f);
    forall u | u in w'.turns ensures Grown(w', w'.turns[u], f) {
      if u != t { GrownSame(w, w', w.turns[u], f); }
    }
  }

  lemma LooseSame(w: World, t: nat, f: File)
    requires f in w.families && f in w.onDisk && t in w.turns && Grown(w, w.turns[t], f)
    ensures var w' := CutLoose(w, t, w.turns[t]); Grown(w', w'.turns[t], f) && NoneNewer(w'.turns[t], w.turns[t], f)
  {
    var w' := CutLoose(w, t, w.turns[t]);
    forall at | CopyOf(w'.turns[t], at, f) ensures GrownCopy(w', w'.turns[t], at, f) {
      assert GrownCopy(w, w.turns[t], at, f);
    }
  }

  lemma SteadyKept(w: World, e: Event, f: File)
    requires Ordered(w) && Steady(w, f) && Enabled(w, e) && !(e.WrittenOutside? && e.file == f)
    ensures Steady(Apply(w, e), f)
  {
    hide Taken, May, Own, RefreshedInPlace, WellKept, Grown, AllApart;
    match e
    case Opened(t, mode, files) => SteadyOpened(w, t, mode, files, f);
    case Took(t, act) =>
      OwnOrOther(act);
      if Own(act) {
        SteadyOwn(w, t, act, f);
      } else if act.RefreshedHere? {
        HereInPlace(w, t, act.file);
        SteadyInPlace(w, act.file, f);
      } else if act.RefreshedThere? {
        SteadyThere(w, t, act.at, f);
      } else if act.Wrote? {
        SteadyWrote(w, t, act.at, act.written, f);
      } else {
        SteadyGone(w, t, act, f);
      }
    case RefreshedOutside(g) => SteadyInPlace(w, g, f);
    case WrittenOutside(g, _) =>
      var w' := Apply(w, e);
      forall u | u in w'.turns ensures Grown(w', w'.turns[u], f) {
        GrownSame(w, w', w.turns[u], f);
      }
  }

  lemma SteadyOpened(w: World, t: nat, mode: Mode, files: set<File>, f: File)
    requires Steady(w, f) && t !in w.turns
    ensures Steady(w.(turns := w.turns[t := Borrower(mode, files)]), f)
  {
    var w' := w.(turns := w.turns[t := Borrower(mode, files)]);
    forall u | u in w'.turns ensures Grown(w', w'.turns[u], f) {
      if u != t { GrownSame(w, w', w.turns[u], f); }
    }
    forall u, v | u in w'.turns && v in w'.turns ensures AllApart(w'.turns[u], w'.turns[v], u == v, f) {
      if u != t && v != t { assert AllApart(w.turns[u], w.turns[v], u == v, f); }
    }
  }

  lemma OwnOrOther(act: Act)
    ensures || Own(act) || act.RefreshedHere? || act.RefreshedThere? || act.Wrote?
            || act.Refused? || act.LetGo? || act.Over? || act.Killed?
  {
  }

  lemma HereInPlace(w: World, t: nat, f: File)
    requires t in w.turns && May(w, w.turns[t], RefreshedHere(f))
    ensures f in w.families && f in w.onDisk && Taken(w, t, RefreshedHere(f)) == RefreshedInPlace(w, f)
  {
  }

  predicate NotWrittenOutside(es: seq<Event>, f: File) {
    forall e | e in es :: !(e.WrittenOutside? && e.file == f)
  }

  lemma {:induction false} RunSteady(w: World, es: seq<Event>, f: File)
    requires Ordered(w) && Steady(w, f) && Possible(w, es) && NotWrittenOutside(es, f)
    ensures Steady(After(w, es), f)
    decreases |es|
  {
    hide Steady, Enabled, Ordered;
    if es != [] {
      OrderedKept(w, es[0]);
      assert es[0] in es;
      SteadyKept(w, es[0], f);
      RunSteady(Apply(w, es[0]), es[1..], f);
    }
  }

  /** Whatever has failed -- locks not had, turns cut off or killed, refreshes outside, two copies
      sent -- a copy is written only over what was sent, though comparing the two and writing are two
      steps: once a copy was refreshed, what was sent is spent, so nobody's refresh can have put
      anything else there meanwhile. Only a writer that is no refresh can. */
  lemma WritesOnlyOverSent(w: World, es: seq<Event>, t: nat, at: Place, f: File, written: bool)
    requires Fresh(w) && f in w.families && Possible(w, es) && NotWrittenOutside(es, f)
    requires Enabled(After(w, es), Took(t, Wrote(at, written))) && CopyOf(After(w, es).turns[t], at, f)
    ensures var w' := After(w, es);
      && w'.onDisk[f] == w'.turns[t].copies[at].sent
      && Apply(w', Took(t, Wrote(at, written))).onDisk ==
        if written then w'.onDisk[f := w'.turns[t].back.value.now] else w'.onDisk
  {
    assert Steady(w, f);
    RunSteady(w, es, f);
    var w' := After(w, es);
    assert Grown(w', w'.turns[t], f) && GrownCopy(w', w'.turns[t], at, f);
  }

  /** What a step writes over a file, if it writes it at all. */
  ghost function WrittenBy(w: World, e: Event, f: File): Option<Token>
    requires Enabled(w, e)
  {
    match e
    case Took(t, RefreshedHere(g)) => if g == f then Some(Refreshed(w.families[f], w.onDisk[f])) else None
    case Took(t, Wrote(at, written)) =>
      if w.turns[t].copies[at].file == f && written then Some(w.turns[t].back.value.now) else None
    case RefreshedOutside(g) => if g == f then Some(Refreshed(w.families[f], w.onDisk[f])) else None
    case WrittenOutside(g, token) => if g == f then Some(token) else None
    case _ => None
  }

  /** What some steps last write over a file, if any of them does. */
  ghost function LastWritten(w: World, es: seq<Event>, f: File): Option<Token>
    requires Possible(w, es)
    decreases |es|
  {
    if es == [] then None
    else
      var later := LastWritten(Apply(w, es[0]), es[1..], f);
      if later.Some? then later else WrittenBy(w, es[0], f)
  }

  /** Steps of everybody but a turn, and of its CLI where that is still going. */
  predicate Meanwhile(es: seq<Event>, t: nat) {
    forall e | e in es :: e.Took? && e.turn == t ==> e.act.RefreshedThere?
  }

  /** Between comparing and writing: whatever anybody else does, and the turn's own CLI, the write is
      still to come, of the same token over the same file. */
  lemma {:induction false} StillToWrite(w: World, es: seq<Event>, t: nat, at: Place, written: bool)
    requires Enabled(w, Took(t, Wrote(at, written))) && Possible(w, es) && Meanwhile(es, t)
    ensures var w' := After(w, es);
      && Enabled(w', Took(t, Wrote(at, written))) && w'.turns[t].back == w.turns[t].back
      && w'.turns[t].copies[at].file == w.turns[t].copies[at].file
      && w'.turns[t].copies[at].sent == w.turns[t].copies[at].sent
    decreases |es|
  {
    hide Enabled, Apply;
    if es != [] {
      assert es[0] in es;
      StillToWriteStep(w, es[0], t, at, written);
      StillToWrite(Apply(w, es[0]), es[1..], t, at, written);
    }
  }

  lemma StillToWriteStep(w: World, e: Event, t: nat, at: Place, written: bool)
    requires Enabled(w, Took(t, Wrote(at, written))) && Enabled(w, e) && Meanwhile([e], t)
    ensures var w' := Apply(w, e);
      && Enabled(w', Took(t, Wrote(at, written))) && w'.turns[t].back == w.turns[t].back
      && w'.turns[t].copies[at].file == w.turns[t].copies[at].file
      && w'.turns[t].copies[at].sent == w.turns[t].copies[at].sent
  {
    assert e in [e];
    var f := w.turns[t].copies[at].file;
    WritesStep(w, e, f);
    hide Taken;
    if e.Took? {
      OthersKept(w, e.turn, e.act);
      if e.turn == t { ThereMoves(w, t, e.act.at); }
    }
  }

  /** From a copy found to differ from an original still as it was sent, through anything anybody does
      meanwhile, to its being written: the write comes, and is over what was sent exactly where nothing
      wrote to that file in between, or what was last written was the same again. */
  lemma OverwritesExactly(w: World, es: seq<Event>, t: nat, at: Place, written: bool)
    requires Enabled(w, Took(t, Compared(at))) && w.onDisk[w.turns[t].copies[at].file] == w.turns[t].copies[at].sent
    requires Possible(Apply(w, Took(t, Compared(at))), es) && Meanwhile(es, t)
    ensures var compared := Apply(w, Took(t, Compared(at)));
      var w', copy := After(compared, es), w.turns[t].copies[at];
      && Enabled(w', Took(t, Wrote(at, written)))
      && copy.file in w'.onDisk
      && (w'.onDisk[copy.file] == copy.sent <==> LastWritten(compared, es, copy.file) in {None, Some(copy.sent)})
      && Apply(w', Took(t, Wrote(at, written))).onDisk ==
        if written then w'.onDisk[copy.file := w.turns[t].back.value.now] else w'.onDisk
  {
    var compared, f := Apply(w, Took(t, Compared(at))), w.turns[t].copies[at].file;
    ComparedMoves(w, t, at, written);
    StillToWrite(compared, es, t, at, written);
    OnDiskAfter(compared, es, f);
    hide Possible, After, Taken;
    WroteMoves(After(compared, es), t, at, written);
  }

  lemma ComparedMoves(w: World, t: nat, at: Place, written: bool)
    requires Enabled(w, Took(t, Compared(at))) && w.onDisk[w.turns[t].copies[at].file] == w.turns[t].copies[at].sent
    ensures var w' := Apply(w, Took(t, Compared(at)));
      && Enabled(w', Took(t, Wrote(at, written))) && w'.onDisk == w.onDisk
      && w'.turns[t].copies == w.turns[t].copies && w'.turns[t].back.value.now == w.turns[t].back.value.now
  {
  }

  lemma {:induction false} OnDiskAfter(w: World, es: seq<Event>, f: File)
    requires f in w.onDisk && Possible(w, es)
    ensures f in After(w, es).onDisk
    ensures After(w, es).onDisk[f] == match LastWritten(w, es, f) case Some(token) => token case None => w.onDisk[f]
    decreases |es|
  {
    if es != [] {
      WritesStep(w, es[0], f);
      OnDiskAfter(Apply(w, es[0]), es[1..], f);
    }
  }

  lemma WritesStep(w: World, e: Event, f: File)
    requires f in w.onDisk && Enabled(w, e)
    ensures var w' := Apply(w, e);
      f in w'.onDisk && w'.onDisk[f] == match WrittenBy(w, e, f) case Some(token) => token case None => w.onDisk[f]
  {
  }

  /** The kinds of failure a step may be blamed for. */
  datatype Fault = LockFailed | CutOffGoing | KilledGoing | NotReturned | SentTwice | OutsideRefresh | OutsideWrite

  predicate OfKind(e: Event, fault: Fault) {
    match e
    case Opened(_, _, _) => false
    case Took(_, act) =>
      (match fault
       case LockFailed => act.Unlockable?
       case CutOffGoing => act.CutOff?
       case KilledGoing => act.Killed?
       case NotReturned => act.ReadThere? || act.Wrote?
       case SentTwice => act.Fetched?
       case _ => false)
    case RefreshedOutside(_) => fault == OutsideRefresh
    case WrittenOutside(_, _) => fault == OutsideWrite
  }

  ghost predicate OnlyOf(w: World, es: seq<Event>, fault: Fault)
    requires Possible(w, es)
    decreases |es|
  {
    es == [] || ((Blame(w, es[0]) == {} || OfKind(es[0], fault)) && OnlyOf(Apply(w, es[0]), es[1..], fault))
  }

  /** What a run may come to: the vendor having seen a spent token, or a copy about to be written
      over something other than what was sent. */
  datatype Ending = Revoked | OverOther

  ghost predicate Comes(w: World, f: File, ending: Ending) {
    match ending
    case Revoked => f in w.families && w.families[f].revoked
    case OverOther =>
      exists t, at :: Enabled(w, Took(t, Wrote(at, true))) && CopyOf(w.turns[t], at, f)
                      && w.onDisk[f] !in {w.turns[t].copies[at].sent, w.turns[t].back.value.now}
  }

  /** A way to fail and what it is to come to. */
  datatype Aim = Aim(fault: Fault, ending: Ending)

  /** Whether some run from here, failing in one way only, comes to that. */
  ghost predicate CanCome(w: World, f: File, aim: Aim) {
    exists es :: Possible(w, es) && OnlyOf(w, es, aim.fault) && Comes(After(w, es), f, aim.ending)
  }

  lemma StepTo(w: World, e: Event, w': World, f: File, aim: Aim)
    requires Enabled(w, e) && Apply(w, e) == w' && (Blame(w, e) == {} || OfKind(e, aim.fault)) && CanCome(w', f, aim)
    ensures CanCome(w, f, aim)
  {
    var es :| Possible(w', es) && OnlyOf(w', es, aim.fault) && Comes(After(w', es), f, aim.ending);
    var all := [e] + es;
    assert all[1..] == es;
    assert Possible(w, all);
  }

  /** Before anything runs, with one file and its family. */
  function Single(f: File): World {
    World(map[f := Family(0, false)], map[f := 0], map[])
  }

  lemma ComesAtOnce(w: World, f: File, aim: Aim)
    requires Comes(w, f, aim.ending)
    ensures CanCome(w, f, aim)
  {
    assert Possible(w, []) && OnlyOf(w, [], aim.fault) && After(w, []) == w;
  }

  /** None of the named failures could be struck off: each, on its own, can end with the
      family revoked. */
  lemma EachFailureMatters(f: File, fault: Fault)
    ensures Fresh(Single(f)) && CanCome(Single(f), f, Aim(fault, Revoked))
  {
    match fault
    case LockFailed => LockFailedCan(f);
    case CutOffGoing => CutOffCan(f);
    case KilledGoing => KilledCan(f);
    case NotReturned => NotReturnedCan(f);
    case SentTwice => SentTwiceCan(f);
    case OutsideRefresh => OutsideRefreshCan(f);
    case OutsideWrite => OutsideWriteCan(f);
  }

  /** A turn here that holds the file, and what it takes to get there. */
  function Here(f: File): Turn {
    Turn(Shared, {f}, {}, {f.dir}, Using, false, None, map[], {}, {}, None, false)
  }

  /** Two places on the target. */
  const HOME: Place := "home"

  const OTHER: Place := "other"

  /** An away turn whose CLI holds a copy of the file. */
  function Away(f: File, held: set<string>, copy: Copy): Turn {
    Turn(Exclusive, {f}, {}, held, Driving, true, None, map[HOME := copy], {HOME}, {}, None, true)
  }

  lemma ActTo(w: World, t: nat, turn: Turn, act: Act, f: File, aim: Aim)
    requires Own(act) && May(With(w, t, turn), turn, act) && (BlameOf(turn, act) == {} || OfKind(Took(t, act), aim.fault))
    requires CanCome(With(w, t, Moved(turn, act, w.onDisk)), f, aim)
    ensures CanCome(With(w, t, turn), f, aim)
  {
    hide CanCome;
    var w', turn' := With(w, t, turn), Moved(turn, act, w.onDisk);
    assert Taken(w', t, act) == With(w', t, turn') == With(w, t, turn');
    StepTo(w', Took(t, act), With(w, t, turn'), f, aim);
  }

  /** A turn here is under way in four steps, wherever nobody keeps it from the directory. */
  lemma HereCan(w: World, t: nat, f: File, aim: Aim)
    requires t !in w.turns && f in w.families && f in w.onDisk
    requires forall u :: u in w.turns && f.dir in w.turns[u].held ==> w.turns[u].mode == Shared
    requires CanCome(With(w, t, Here(f)), f, aim)
    ensures CanCome(w, f, aim)
  {
    hide CanCome;
    var t1 := Borrower(Shared, {f});
    assert t1.todo == {f.dir};
    var t2 := Moved(t1, Locked(f.dir), w.onDisk);
    assert Moved(t2, Begun, w.onDisk) == Here(f);
    ActTo(w, t, t2, Begun, f, aim);
    ActTo(w, t, t1, Locked(f.dir), f, aim);
    StepTo(w, Opened(t, Shared, {f}), With(w, t, t1), f, aim);
  }

  /** An away turn about to send its copies. */
  function Ready(f: File, held: set<string>): Turn {
    Turn(Exclusive, {f}, {}, held, Sending, false, None, map[], {}, {}, None, false)
  }

  /** It is driving in four steps more. */
  lemma DriveCan(w: World, t: nat, f: File, held: set<string>, aim: Aim)
    requires f in w.onDisk
    requires CanCome(With(w, t, Away(f, held, Copy(f, w.onDisk[f], w.onDisk[f]))), f, aim)
    ensures CanCome(With(w, t, Ready(f, held)), f, aim)
  {
    hide CanCome;
    var t1 := Moved(Ready(f, held), MadeSession, w.onDisk);
    var t2 := Moved(t1, Fetched(f, HOME), w.onDisk);
    var t3 := Moved(t2, Sent(HOME), w.onDisk);
    assert Moved(t3, Started, w.onDisk) == Away(f, held, Copy(f, w.onDisk[f], w.onDisk[f]));
    ActTo(w, t, t3, Started, f, aim);
    ActTo(w, t, t2, Sent(HOME), f, aim);
    ActTo(w, t, t1, Fetched(f, HOME), f, aim);
    ActTo(w, t, Ready(f, held), MadeSession, f, aim);
  }

  /** An away turn is driving in seven, its directory locked or not to be locked at all. */
  lemma AwayCan(w: World, t: nat, f: File, aim: Aim)
    requires t !in w.turns && f in w.families && f in w.onDisk
    requires aim.fault != LockFailed ==> forall u :: u in w.turns ==> f.dir !in w.turns[u].held
    requires var held := if aim.fault == LockFailed then {} else {f.dir};
      CanCome(With(w, t, Away(f, held, Copy(f, w.onDisk[f], w.onDisk[f]))), f, aim)
    ensures CanCome(w, f, aim)
  {
    hide CanCome;
    var held := if aim.fault == LockFailed then {} else {f.dir};
    var t1 := Borrower(Exclusive, {f});
    assert t1.todo == {f.dir};
    var act := if aim.fault == LockFailed then Unlockable(f.dir) else Locked(f.dir);
    var t2 := Moved(t1, act, w.onDisk);
    DriveCan(w, t, f, held, aim);
    assert Moved(t2, Begun, w.onDisk) == Ready(f, held);
    ActTo(w, t, t2, Begun, f, aim);
    ActTo(w, t, t1, act, f, aim);
    StepTo(w, Opened(t, Exclusive, {f}), With(w, t, t1), f, aim);
  }

  /** One refresh here and then one there of the same token, whatever let both happen. */
  lemma BothRefreshCan(w: World, here: nat, away: nat, f: File, aim: Aim)
    requires aim.ending == Revoked && here in w.turns && away in w.turns && here != away
    requires w.turns[here] == Here(f) && w.turns[away].going && CopyOf(w.turns[away], HOME, f)
    requires f in w.families && f in w.onDisk && w.families[f] == Family(w.onDisk[f], false)
    requires w.turns[away].copies[HOME].now == w.onDisk[f]
    ensures CanCome(w, f, aim)
  {
    hide CanCome;
    var w1 := Apply(w, Took(here, RefreshedHere(f)));
    var w2 := Apply(w1, Took(away, RefreshedThere(HOME)));
    ComesAtOnce(w2, f, aim);
    StepTo(w1, Took(away, RefreshedThere(HOME)), w2, f, aim);
    StepTo(w, Took(here, RefreshedHere(f)), w1, f, aim);
  }

  lemma LockFailedCan(f: File)
    ensures CanCome(Single(f), f, Aim(LockFailed, Revoked))
  {
    hide CanCome;
    var w := With(Single(f), 0, Here(f));
    BothRefreshCan(With(w, 1, Away(f, {}, Copy(f, 0, 0))), 0, 1, f, Aim(LockFailed, Revoked));
    AwayCan(w, 1, f, Aim(LockFailed, Revoked));
    HereCan(Single(f), 0, f, Aim(LockFailed, Revoked));
  }

  lemma KilledCan(f: File)
    ensures CanCome(Single(f), f, Aim(KilledGoing, Revoked))
  {
    hide CanCome;
    var away := Away(f, {f.dir}, Copy(f, 0, 0));
    var w := With(Single(f), 1, away);
    var w1 := Apply(w, Took(1, Killed));
    BothRefreshCan(With(w1, 0, Here(f)), 0, 1, f, Aim(KilledGoing, Revoked));
    HereCan(w1, 0, f, Aim(KilledGoing, Revoked));
    StepTo(w, Took(1, Killed), w1, f, Aim(KilledGoing, Revoked));
    AwayCan(Single(f), 1, f, Aim(KilledGoing, Revoked));
  }

  /** An away turn on its way out, all read back, sweeps and is over: gone, or loose where its
      CLI is still going. */
  lemma SweepCan(w: World, t: nat, turn: Turn, f: File, aim: Aim)
    requires turn.stage == Returning && turn.session && turn.unread == {}
    requires CanCome(if turn.going then CutLoose(w, t, turn.(session := false)) else Without(w, t), f, aim)
    ensures CanCome(With(w, t, turn), f, aim)
  {
    hide CanCome;
    var swept := turn.(session := false);
    var w1 := With(w, t, swept);
    assert Without(w1, t) == Without(w, t);
    assert CutLoose(w1, t, swept) == CutLoose(w, t, swept);
    StepTo(w1, Took(t, Over), if turn.going then CutLoose(w, t, swept) else Without(w, t), f, aim);
    ActTo(w, t, turn, Swept, f, aim);
  }

  /** Before that it reads back in vain. */
  lemma ReturnCan(w: World, t: nat, turn: Turn, f: File, aim: Aim)
    requires turn.stage == Returning && turn.unread == {HOME} && HOME in turn.copies && turn.back == None
    requires turn.copies[HOME].now != turn.copies[HOME].sent ==> aim.fault == NotReturned
    requires CanCome(With(w, t, turn.(unread := {})), f, aim)
    ensures CanCome(With(w, t, turn), f, aim)
  {
    hide CanCome;
    assert Moved(turn, ReadThere(HOME, false), w.onDisk) == turn.(unread := {}) by {
      assert {HOME} - {HOME} == {};
    }
    ActTo(w, t, turn, ReadThere(HOME, false), f, aim);
  }

  lemma CutOffCan(f: File)
    ensures CanCome(Single(f), f, Aim(CutOffGoing, Revoked))
  {
    hide CanCome;
    var away := Away(f, {f.dir}, Copy(f, 0, 0));
    var returning := away.(stage := Returning, unread := {HOME});
    var loose := CutLoose(Single(f), 1, returning.(session := false));
    BothRefreshCan(With(loose, 0, Here(f)), 0, 1, f, Aim(CutOffGoing, Revoked));
    HereCan(loose, 0, f, Aim(CutOffGoing, Revoked));
    SweepCan(Single(f), 1, returning.(unread := {}), f, Aim(CutOffGoing, Revoked));
    ReturnCan(Single(f), 1, returning, f, Aim(CutOffGoing, Revoked));
    ActTo(Single(f), 1, away, CutOff, f, Aim(CutOffGoing, Revoked));
    AwayCan(Single(f), 1, f, Aim(CutOffGoing, Revoked));
  }

  /** Once its family is past what the file holds, a turn here presents it spent. */
  lemma StaleCan(w: World, t: nat, f: File, aim: Aim)
    requires aim.ending == Revoked && t in w.turns && w.turns[t] == Here(f) && f in w.families && f in w.onDisk
    requires w.onDisk[f] < w.families[f].current
    ensures CanCome(w, f, aim)
  {
    hide CanCome;
    var w' := Apply(w, Took(t, RefreshedHere(f)));
    ComesAtOnce(w', f, aim);
    StepTo(w, Took(t, RefreshedHere(f)), w', f, aim);
  }

  /** The away turn of `Away` refreshes its copy: its family is past what the file holds. */
  lemma RefreshThereCan(f: File, away: Turn, aim: Aim)
    requires away == Away(f, {f.dir}, Copy(f, 0, 0))
    requires CanCome(With(Single(f).(families := map[f := Family(1, false)]), 1,
                            away.(copies := map[HOME := Copy(f, 0, 1)])), f, aim)
    ensures CanCome(With(Single(f), 1, away), f, aim)
  {
    hide CanCome;
    var w := With(Single(f), 1, away);
    var spent := Single(f).(families := map[f := Family(1, false)]);
    var answered := away.(copies := map[HOME := Copy(f, 0, 1)]);
    assert w.turns[1] == away && Presented(w.families[f], 0) == Family(1, false) && Refreshed(w.families[f], 0) == 1;
    assert away.copies[HOME := Copy(f, 0, 1)] == map[HOME := Copy(f, 0, 1)];
    assert w.families[f := Family(1, false)] == map[f := Family(1, false)];
    assert Apply(w, Took(1, RefreshedThere(HOME))) == With(With(spent, 1, away), 1, answered) == With(spent, 1, answered);
    StepTo(w, Took(1, RefreshedThere(HOME)), With(spent, 1, away.(copies := map[HOME := Copy(f, 0, 1)])), f, aim);
  }

  lemma NotReturnedCan(f: File)
    ensures CanCome(Single(f), f, Aim(NotReturned, Revoked))
  {
    hide CanCome;
    var aim := Aim(NotReturned, Revoked);
    var away := Away(f, {f.dir}, Copy(f, 0, 0));
    var spent := Single(f).(families := map[f := Family(1, false)]);
    var refreshed := away.(copies := map[HOME := Copy(f, 0, 1)]);
    var returning := Moved(refreshed, Ended, spent.onDisk);
    assert forall t :: t !in Without(spent, 1).turns;
    assert Without(spent, 1) == spent;
    StaleCan(With(spent, 0, Here(f)), 0, f, aim);
    HereCan(spent, 0, f, aim);
    SweepCan(spent, 1, returning.(unread := {}), f, aim);
    ReturnCan(spent, 1, returning, f, aim);
    ActTo(spent, 1, refreshed, Ended, f, aim);
    RefreshThereCan(f, away, aim);
    AwayCan(Single(f), 1, f, aim);
  }

  lemma OutsideRefreshCan(f: File)
    ensures CanCome(Single(f), f, Aim(OutsideRefresh, Revoked))
  {
    hide CanCome;
    var aim := Aim(OutsideRefresh, Revoked);
    var w := With(Single(f), 1, Away(f, {f.dir}, Copy(f, 0, 0)));
    var w1 := Apply(w, RefreshedOutside(f));
    StaleCopyCan(w1, 1, w.turns[1], f, aim);
    assert With(w1, 1, w.turns[1]) == w1;
    StepTo(w, RefreshedOutside(f), w1, f, aim);
    AwayCan(Single(f), 1, f, aim);
  }

  /** An away turn that has read the file and not yet put what it read on the target. */
  function Reading(f: File): Turn {
    Ready(f, {f.dir}).(session := true, hand := Some(Read(f, HOME, 0)))
  }

  /** A copy its family is past is presented spent. */
  lemma StaleCopyCan(w: World, t: nat, turn: Turn, f: File, aim: Aim)
    requires aim.ending == Revoked && turn.going && CopyOf(turn, HOME, f) && f in w.families
    requires turn.copies[HOME].now < w.families[f].current
    ensures CanCome(With(w, t, turn), f, aim)
  {
    hide CanCome;
    var w' := Apply(With(w, t, turn), Took(t, RefreshedThere(HOME)));
    ComesAtOnce(w', f, aim);
    StepTo(With(w, t, turn), Took(t, RefreshedThere(HOME)), w', f, aim);
  }

  /** A copy counts as out from its being read on: refreshed outside before it has landed, it is
      spent as it lands, and nothing else has to fail for the family to be revoked. */
  lemma StaleInHand(f: File, fault: Fault)
    ensures var w := With(Single(f), 1, Reading(f));
      Blame(w, RefreshedOutside(f)) == {f} && CanCome(Apply(w, RefreshedOutside(f)), f, Aim(fault, Revoked))
  {
    hide CanCome;
    var aim := Aim(fault, Revoked);
    var w := With(Single(f), 1, Reading(f));
    assert InHand(w.turns[1], f);
    var w1 := World(map[f := Family(1, false)], map[f := 1], map[]);
    assert Apply(w, RefreshedOutside(f)) == With(w1, 1, Reading(f));
    var sent := Moved(Reading(f), Sent(HOME), w1.onDisk);
    assert Moved(sent, Started, w1.onDisk) == Away(f, {f.dir}, Copy(f, 0, 0));
    StaleCopyCan(w1, 1, Away(f, {f.dir}, Copy(f, 0, 0)), f, aim);
    ActTo(w1, 1, sent, Started, f, aim);
    ActTo(w1, 1, Reading(f), Sent(HOME), f, aim);
  }

  /** An away turn whose CLI holds two copies of the file, sent of one token. */
  function Twice(f: File): Turn {
    Away(f, {f.dir}, Copy(f, 0, 0)).(copies := map[HOME := Copy(f, 0, 0), OTHER := Copy(f, 0, 0)], lent := {HOME, OTHER})
  }

  /** One refreshed and then the other, of the same token. */
  lemma TwiceCan(f: File, aim: Aim)
    requires aim.ending == Revoked
    ensures CanCome(With(Single(f), 0, Twice(f)), f, aim)
  {
    hide CanCome;
    var w := With(Single(f), 0, Twice(f));
    var w1 := Apply(w, Took(0, RefreshedThere(OTHER)));
    assert w1 == With(w1, 0, w1.turns[0]);
    StaleCopyCan(w1, 0, w1.turns[0], f, aim);
    StepTo(w, Took(0, RefreshedThere(OTHER)), w1, f, aim);
  }

  /** With one copy there, a second is read, lands, and its CLI is started. */
  lemma OnceCan(f: File, once: Turn, aim: Aim)
    requires aim == Aim(SentTwice, Revoked)
    requires once == Ready(f, {f.dir}).(session := true, copies := map[HOME := Copy(f, 0, 0)], lent := {HOME})
    ensures CanCome(With(Single(f), 0, once), f, aim)
  {
    hide CanCome;
    var w := Single(f);
    var again := Moved(once, Fetched(f, OTHER), w.onDisk);
    var both := Moved(again, Sent(OTHER), w.onDisk);
    TwiceCan(f, aim);
    assert Moved(both, Started, w.onDisk) == Twice(f);
    ActTo(w, 0, both, Started, f, aim);
    ActTo(w, 0, again, Sent(OTHER), f, aim);
    ActTo(w, 0, once, Fetched(f, OTHER), f, aim);
  }

  /** Under its lock all along, with every step its own and none failing, a turn told to project a
      directory twice has two copies of a sign-in refresh apart. */
  lemma SentTwiceCan(f: File)
    ensures CanCome(Single(f), f, Aim(SentTwice, Revoked))
  {
    hide CanCome;
    var aim, w := Aim(SentTwice, Revoked), Single(f);
    var once := Moved(Reading(f), Sent(HOME), w.onDisk);
    OnceCan(f, once, aim);
    ActTo(w, 0, Reading(f), Sent(HOME), f, aim);
    ReadingCan(f, aim);
  }

  lemma ReadyCan(f: File, aim: Aim)
    requires CanCome(With(Single(f), 0, Reading(f)), f, aim)
    ensures CanCome(With(Single(f), 0, Ready(f, {f.dir})), f, aim)
  {
    hide CanCome;
    var w := Single(f);
    var made := Moved(Ready(f, {f.dir}), MadeSession, w.onDisk);
    assert Moved(made, Fetched(f, HOME), w.onDisk) == Reading(f);
    ActTo(w, 0, made, Fetched(f, HOME), f, aim);
    ActTo(w, 0, Ready(f, {f.dir}), MadeSession, f, aim);
  }

  /** An away turn has read the file in five steps, its directory locked. */
  lemma ReadingCan(f: File, aim: Aim)
    requires aim.fault != LockFailed && CanCome(With(Single(f), 0, Reading(f)), f, aim)
    ensures CanCome(Single(f), f, aim)
  {
    hide CanCome;
    var w := Single(f);
    var t1 := Borrower(Exclusive, {f});
    assert t1.todo == {f.dir};
    var t2 := Moved(t1, Locked(f.dir), w.onDisk);
    ReadyCan(f, aim);
    assert Moved(t2, Begun, w.onDisk) == Ready(f, {f.dir});
    ActTo(w, 0, t2, Begun, f, aim);
    ActTo(w, 0, t1, Locked(f.dir), f, aim);
    StepTo(w, Opened(0, Exclusive, {f}), With(w, 0, t1), f, aim);
  }

  lemma OutsideWriteCan(f: File)
    ensures CanCome(Single(f), f, Aim(OutsideWrite, Revoked))
  {
    hide CanCome;
    var aim := Aim(OutsideWrite, Revoked);
    var w := With(Single(f), 0, Here(f));
    var w1 := Apply(w, Took(0, RefreshedHere(f)));
    var w2 := Apply(w1, WrittenOutside(f, 0));
    StaleCan(w2, 0, f, aim);
    StepTo(w1, WrittenOutside(f, 0), w2, f, aim);
    StepTo(w, Took(0, RefreshedHere(f)), w1, f, aim);
    HereCan(Single(f), 0, f, aim);
  }

  /** An away turn of `Away` about to write its refreshed copy over the original. */
  function ToWrite(f: File): Turn {
    Turn(Exclusive, {f}, {}, {f.dir}, Returning, true, None, map[HOME := Copy(f, 0, 1)], {HOME}, {HOME},
         Some(Back(HOME, 1, true)), false)
  }

  /** It is there three steps after its CLI has refreshed the copy. */
  lemma ComparedCan(w: World, f: File, refreshed: Turn, aim: Aim)
    requires f in w.onDisk && w.onDisk[f] == 0
    requires refreshed == Away(f, {f.dir}, Copy(f, 0, 1)) && CanCome(With(w, 1, ToWrite(f)), f, aim)
    ensures CanCome(With(w, 1, refreshed), f, aim)
  {
    hide CanCome;
    var returning := Moved(refreshed, Ended, w.onDisk);
    var read := Moved(returning, ReadThere(HOME, true), w.onDisk);
    assert Moved(read, Compared(HOME), w.onDisk) == ToWrite(f);
    ActTo(w, 1, read, Compared(HOME), f, aim);
    ActTo(w, 1, returning, ReadThere(HOME, true), f, aim);
    ActTo(w, 1, refreshed, Ended, f, aim);
  }

  /** In any world at all in which a copy is about to be written over its original: whatever one that
      is no refresh writes there first is written over, with what the copy held. */
  lemma OverwritesAnything(w: World, t: nat, at: Place, token: Token)
    requires Enabled(w, Took(t, Wrote(at, true))) && w.turns[t].copies[at].file in w.families
    ensures var f := w.turns[t].copies[at].file;
      var write := WrittenOutside(f, token);
      && Enabled(w, write) && Apply(w, write).onDisk[f] == token
      && Enabled(Apply(w, write), Took(t, Wrote(at, true)))
      && Apply(Apply(w, write), Took(t, Wrote(at, true))).onDisk[f] == w.turns[t].back.value.now
  {
    var w' := Apply(w, WrittenOutside(w.turns[t].copies[at].file, token));
    WroteMoves(w', t, at, true);
  }

  /** Nothing has to fail but the writer: where one that is no refresh puts something else there
      between the two being compared and the one written over the other, that is lost. */
  lemma OverwritesOther(f: File)
    ensures Fresh(Single(f)) && CanCome(Single(f), f, Aim(OutsideWrite, OverOther))
  {
    hide CanCome;
    var aim := Aim(OutsideWrite, OverOther);
    var spent := Single(f).(families := map[f := Family(1, false)]);
    var away := Away(f, {f.dir}, Copy(f, 0, 0));
    var compared := ToWrite(f);
    var w := With(spent, 1, compared);
    var w' := Apply(w, WrittenOutside(f, 2));
    assert Enabled(w', Took(1, Wrote(HOME, true))) && w'.onDisk[f] == 2 && w'.turns[1] == compared;
    ComesAtOnce(w', f, aim);
    StepTo(w, WrittenOutside(f, 2), w', f, aim);
    ComparedCan(spent, f, away.(copies := map[HOME := Copy(f, 0, 1)]), aim);
    RefreshThereCan(f, away, aim);
    AwayCan(Single(f), 1, f, aim);
  }
}
