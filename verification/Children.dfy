/**
 The registry of the desktop app's child processes, against everybody who uses it at once.

 The registry and the flag are read and written under one lock, so that each section under it
 is one step. The owners -- a question put to a program, an install, the server and the two
 threads that share it -- are programs of their own, taken a step at a time; what quitting
 promises rests on each of them dropping a child only once it is reaped, which is proved of
 them rather than asked.
 */
module Children {

  /** A process started: going, gone and not waited for, or reaped. */
  datatype Process = Going | Gone | Reaped

  /** Where a call of `ended` is: it has interrupted the child and waits a while, or is to kill
      it, or waits for what it killed. */
  datatype Ended = Interrupted | Killing | Awaiting

  /** The thread watching the server: waiting for it to exit, past that, or done with it. */
  datatype Watcher = Watching | Watched | Off

  /** The server on the shell's shelf: there, being stopped as the app exits, or taken. */
  datatype Shelf = Kept | Stopping(at: Ended) | Stopped | Cleared

  /** An owner of at most one child, and how far it is with it. */
  datatype Owner =
    | Fresh
    | Asking(pid: nat) | AskKilling(pid: nat) | AskAwaiting(pid: nat)
    | Installing(pid: nat)
    | Starting(pid: nat) | Settling(pid: nat) | EndingIt(pid: nat, at: Ended)
    | Serving(pid: nat, watcher: Watcher, shelf: Shelf)
    | Dropping(pid: nat)
    | Done

  /** `quit`: not called, through what it drained, or returned. */
  datatype Quitter = Unasked | Stops(left: seq<nat>, at: Ended) | Returned

  datatype State = State(
    processes: map<nat, Process>, going: seq<nat>, quitting: bool, quitter: Quitter, owners: map<nat, Owner>)

  const NOTHING := State(map[], [], false, Unasked, map[])

  datatype Kind = Question | Install | Server

  datatype Step =
    | Spawn(pid: nat, kind: Kind)  // its owner starts a process, under the lock
    | Refuse                       // or is told the app is quitting, or that it could not be run
    | WaitedOut                    // a wait that ends because the child has: it is reaped
    | TimedOut                     // a wait with a limit that ends without
    | Kill
    | Heard                        // the server says where it listens
    | Silent                       // it closes its output instead, or its pipes could not be had
    | GiveUp                       // or takes too long
    | Stop                         // the app exits: the server is taken off the shelf and ended
    | StopWaitedOut | StopTimedOut | StopKill
    | LetGo                        // the shelf's share of the server, or the watcher's, is let go
    | Drop                         // the child is dropped: it is taken off the registry

  datatype Event =
    | Begins(owner: nat)
    | Owns(owner: nat, step: Step)
    | Exits(pid: nat)
    | Quits
    | QuitWaitedOut | QuitTimedOut | QuitKill | QuitReturns

  predicate Dead(s: State, pid: nat) {
    pid in s.processes && s.processes[pid] != Going
  }

  predicate MayOwn(s: State, owner: Owner, step: Step) {
    match step
    case Spawn(pid, _) => owner == Fresh && !s.quitting && pid !in s.processes
    case Refuse => owner == Fresh
    case WaitedOut =>
      (match owner
       case Asking(pid) => Dead(s, pid)
       case AskAwaiting(pid) => Dead(s, pid)
       case Installing(pid) => Dead(s, pid)
       case Settling(pid) => Dead(s, pid)
       case EndingIt(pid, at) => at != Killing && Dead(s, pid)
       case Serving(pid, watcher, _) => watcher == Watching && Dead(s, pid)
       case _ => false)
    case TimedOut => owner.Asking? || owner.Settling? || (owner.EndingIt? && owner.at == Interrupted)
    case Kill => owner.AskKilling? || (owner.EndingIt? && owner.at == Killing)
    case Heard => owner.Starting?
    case Silent => owner.Starting?
    case GiveUp => owner.Starting?
    case Stop => owner.Serving? && owner.shelf == Kept
    case StopWaitedOut => owner.Serving? && owner.shelf.Stopping? && owner.shelf.at != Killing && Dead(s, owner.pid)
    case StopTimedOut => owner.Serving? && owner.shelf == Stopping(Interrupted)
    case StopKill => owner.Serving? && owner.shelf == Stopping(Killing)
    case LetGo => owner.Serving? && (owner.watcher == Watched || owner.shelf == Stopped)
    case Drop => owner.Dropping?
  }

  /** What a step leaves of its owner. A question is asked with a limit, an install without;
      a server silent or slow is ended before it is dropped, and one that listens is shared. */
  function Next(owner: Owner, step: Step): Owner {
    match step
    case Spawn(pid, kind) =>
      (match kind case Question => Asking(pid) case Install => Installing(pid) case Server => Starting(pid))
    case Refuse => Done
    case WaitedOut =>
      if owner.Serving? then owner.(watcher := Watched)
      else if owner.Fresh? || owner.Done? then owner
      else Dropping(owner.pid)
    case TimedOut =>
      if owner.Asking? then AskKilling(owner.pid)
      else if owner.Settling? then EndingIt(owner.pid, Interrupted)
      else if owner.EndingIt? then EndingIt(owner.pid, Killing)
      else owner
    case Kill =>
      if owner.AskKilling? then AskAwaiting(owner.pid)
      else if owner.EndingIt? then EndingIt(owner.pid, Awaiting)
      else owner
    case Heard => if owner.Starting? then Serving(owner.pid, Watching, Kept) else owner
    case Silent => if owner.Starting? then Settling(owner.pid) else owner
    case GiveUp => if owner.Starting? then EndingIt(owner.pid, Interrupted) else owner
    case Stop => if owner.Serving? then owner.(shelf := Stopping(Interrupted)) else owner
    case StopWaitedOut => if owner.Serving? then owner.(shelf := Stopped) else owner
    case StopTimedOut => if owner.Serving? then owner.(shelf := Stopping(Killing)) else owner
    case StopKill => if owner.Serving? then owner.(shelf := Stopping(Awaiting)) else owner
    case LetGo => if owner.Serving? then Shared(owner) else owner
    case Drop => Done
  }

  /** One share of the server let go: the watcher's, with the shelf's where the server is still
      there, or the shelf's once it has been stopped. The last one drops the child. */
  function Shared(owner: Owner): Owner
    requires owner.Serving?
  {
    var left :=
      if owner.watcher == Watched then
        owner.(watcher := Off, shelf := if owner.shelf == Kept then Cleared else owner.shelf)
      else owner.(shelf := if owner.shelf == Stopped then Cleared else owner.shelf);
    if left.watcher == Off && left.shelf == Cleared then Dropping(left.pid) else left
  }

  /** The server is dropped by whoever lets go of it last: its watcher, where the shelf has let go or
      never stopped it, or the shelf, once it is stopped and the watcher is done with it. */
  lemma LastShareDrops(owner: Owner)
    requires owner.Serving? && (owner.watcher == Watched || owner.shelf == Stopped)
    ensures Next(owner, LetGo) == Dropping(owner.pid) <==>
      || (owner.watcher == Watched && owner.shelf in {Kept, Cleared})
      || (owner.watcher == Off && owner.shelf == Stopped)
    ensures Next(owner, LetGo).Serving? || Next(owner, LetGo) == Dropping(owner.pid)
  {
  }

  /** What a step leaves of the processes: one started, one reaped, one killed. */
  function Processes(processes: map<nat, Process>, owner: Owner, step: Step): map<nat, Process> {
    match step
    case Spawn(pid, _) => processes[pid := Going]
    case WaitedOut => if owner.Fresh? || owner.Done? then processes else processes[owner.pid := Reaped]
    case StopWaitedOut => if owner.Fresh? || owner.Done? then processes else processes[owner.pid := Reaped]
    case Kill => if owner.Fresh? || owner.Done? then processes else Killed(processes, owner.pid)
    case StopKill => if owner.Fresh? || owner.Done? then processes else Killed(processes, owner.pid)
    case _ => processes
  }

  function Killed(processes: map<nat, Process>, pid: nat): map<nat, Process> {
    if pid in processes && processes[pid] == Going then processes[pid := Gone] else processes
  }

  /** The registry without one child. */
  function Without(going: seq<nat>, pid: nat): (rest: seq<nat>)
    ensures forall p :: p in rest <==> p in going && p != pid
  {
    if going == [] then []
    else (if going[0] == pid then [] else [going[0]]) + Without(going[1..], pid)
  }

  predicate Enabled(s: State, e: Event) {
    match e
    case Begins(t) => t !in s.owners
    case Owns(t, step) => t in s.owners && MayOwn(s, s.owners[t], step)
    case Exits(pid) => pid in s.processes && s.processes[pid] == Going
    case Quits => s.quitter == Unasked
    case QuitWaitedOut => s.quitter.Stops? && s.quitter.left != [] && s.quitter.at != Killing && Dead(s, s.quitter.left[0])
    case QuitTimedOut => s.quitter.Stops? && s.quitter.left != [] && s.quitter.at == Interrupted
    case QuitKill => s.quitter.Stops? && s.quitter.left != [] && s.quitter.at == Killing
    case QuitReturns => s.quitter.Stops? && s.quitter.left == []
  }

  function Apply(s: State, e: Event): State
    requires Enabled(s, e)
  {
    match e
    case Begins(t) => s.(owners := s.owners[t := Fresh])
    case Owns(t, step) => Owning(s, t, step)
    case Exits(pid) => s.(processes := s.processes[pid := Gone])
    // Under the lock: no process is being started meanwhile, and none is from here on.
    case Quits => s.(quitting := true, going := [], quitter := Stops(s.going, Interrupted))
    case QuitWaitedOut =>
      s.(processes := s.processes[s.quitter.left[0] := Reaped], quitter := Stops(s.quitter.left[1..], Interrupted))
    case QuitTimedOut => s.(quitter := s.quitter.(at := Killing))
    case QuitKill => s.(processes := Killed(s.processes, s.quitter.left[0]), quitter := s.quitter.(at := Awaiting))
    case QuitReturns => s.(quitter := Returned)
  }

  function Owning(s: State, t: nat, step: Step): State
    requires t in s.owners && MayOwn(s, s.owners[t], step)
  {
    var owner := s.owners[t];
    s.(owners := s.owners[t := Next(owner, step)],
       processes := Processes(s.processes, owner, step),
       going := match step
         case Spawn(pid, _) => s.going + [pid]
         case Drop => if owner.Dropping? then Without(s.going, owner.pid) else s.going
         case _ => s.going)
  }

  ghost predicate Possible(s: State, es: seq<Event>)
    decreases |es|
  {
    es == [] || (Enabled(s, es[0]) && Possible(Apply(s, es[0]), es[1..]))
  }

  ghost function After(s: State, es: seq<Event>): State
    requires Possible(s, es)
    decreases |es|
  {
    if es == [] then s else After(Apply(s, es[0]), es[1..])
  }

  predicate Has(owner: Owner) {
    !owner.Fresh? && !owner.Done?
  }

  /** Whether an owner is where it may only be with its child reaped. */
  predicate Through(owner: Owner) {
    || owner.Dropping?
    || (owner.Serving? && (owner.watcher != Watching || owner.shelf == Stopped || owner.shelf == Cleared))
  }

  /** The discipline of the owners: a child an owner is through with is reaped. */
  ghost predicate Disciplined(s: State) {
    && (forall t :: t in s.owners && Has(s.owners[t]) ==> s.owners[t].pid in s.processes)
    && (forall t :: t in s.owners && Through(s.owners[t]) ==> s.processes[s.owners[t].pid] == Reaped)
  }

  /** A process not reaped is one quitting would stop: in the registry, or drained from it. */
  ghost predicate Registered(s: State) {
    && (forall pid :: pid in s.processes && s.processes[pid] != Reaped ==>
          pid in s.going || (s.quitter.Stops? && pid in s.quitter.left))
    && (s.quitter.Stops? ==> forall pid :: pid in s.quitter.left ==> pid in s.processes)
    && (forall pid :: pid in s.going ==> pid in s.processes)
    && (s.quitter != Unasked <==> s.quitting)
    && (s.quitting ==> s.going == [])
    && (s.quitter.Stops? && s.quitter.left != [] && s.quitter.at == Awaiting ==> Dead(s, s.quitter.left[0]))
  }

  lemma DisciplineKept(s: State, e: Event)
    requires Disciplined(s) && Enabled(s, e)
    ensures Disciplined(Apply(s, e))
  {
    hide Owning;
    if e.Owns? {
      OwnerDisciplined(s, e.owner, e.step);
    }
  }

  lemma OwnerDisciplined(s: State, t: nat, step: Step)
    requires Disciplined(s) && t in s.owners && MayOwn(s, s.owners[t], step)
    ensures Disciplined(Owning(s, t, step))
  {
    hide Without;
    var owner, s' := s.owners[t], Owning(s, t, step);
    ReapedStays(s, owner, step);
    NextReaped(s, owner, step);
    hide Processes, Next, MayOwn, Through;
  }

  /** A step of an owner's leaves what is reaped reaped, and forgets no process. */
  lemma ReapedStays(s: State, owner: Owner, step: Step)
    requires MayOwn(s, owner, step)
    ensures var after := Processes(s.processes, owner, step);
      && (forall pid | pid in s.processes :: pid in after)
      && (forall pid | pid in s.processes && s.processes[pid] == Reaped :: after[pid] == Reaped)
  {
  }

  /** Through with its child, an owner has reaped it. */
  lemma NextReaped(s: State, owner: Owner, step: Step)
    requires MayOwn(s, owner, step)
    requires Has(owner) ==> owner.pid in s.processes
    requires Through(owner) ==> s.processes[owner.pid] == Reaped
    ensures var next, after := Next(owner, step), Processes(s.processes, owner, step);
      && (Has(next) ==> next.pid in after)
      && (Through(next) ==> after[next.pid] == Reaped)
  {
  }

  lemma RegistryKept(s: State, e: Event)
    requires Disciplined(s) && Registered(s) && Enabled(s, e)
    ensures Registered(Apply(s, e))
  {
    hide Owning, Disciplined;
    if e.Owns? {
      OwnerRegistered(s, e.owner, e.step);
    }
  }

  lemma OwnerRegistered(s: State, t: nat, step: Step)
    requires Disciplined(s) && Registered(s) && t in s.owners && MayOwn(s, s.owners[t], step)
    ensures Registered(Owning(s, t, step))
  {
    hide Next;
    var owner := s.owners[t];
    assert Has(owner) ==> owner.pid in s.processes;
    assert owner.Dropping? ==> s.processes[owner.pid] == Reaped by { assert owner.Dropping? ==> Through(owner); }
    hide Disciplined;
  }

  /** In every interleaving of the owners, their processes and quitting: a child is dropped only
      once it is reaped, and one that is not is where quitting finds it. */
  lemma {:induction false} RunKeepsBoth(s: State, es: seq<Event>)
    requires Disciplined(s) && Registered(s) && Possible(s, es)
    ensures Disciplined(After(s, es)) && Registered(After(s, es))
    decreases |es|
  {
    if es != [] {
      DisciplineKept(s, es[0]);
      RegistryKept(s, es[0]);
      RunKeepsBoth(Apply(s, es[0]), es[1..]);
    }
  }

  /** No owner ever drops a child that is not reaped. */
  lemma DropsOnlyReaped(es: seq<Event>, t: nat)
    requires Possible(NOTHING, es) && Enabled(After(NOTHING, es), Owns(t, Drop))
    ensures var s := After(NOTHING, es);
      Has(s.owners[t]) && s.owners[t].pid in s.processes && s.processes[s.owners[t].pid] == Reaped
  {
    RunKeepsBoth(NOTHING, es);
  }

  /** Once `quit` has set its flag nothing is started, whatever anybody does. */
  lemma {:induction false} StartsNoMore(s: State, es: seq<Event>)
    requires s.quitting && Possible(s, es)
    requires Disciplined(s) && Registered(s)
    ensures After(s, es).processes.Keys == s.processes.Keys && After(s, es).quitting
    decreases |es|
  {
    if es != [] {
      DisciplineKept(s, es[0]);
      RegistryKept(s, es[0]);
      assert Apply(s, es[0]).processes.Keys == s.processes.Keys;
      StartsNoMore(Apply(s, es[0]), es[1..]);
    }
  }

  /** When `quit` returns, every process ever started is reaped, and so it stays. */
  lemma QuitStopsAll(es: seq<Event>, more: seq<Event>)
    requires Possible(NOTHING, es) && After(NOTHING, es).quitter == Returned && Possible(After(NOTHING, es), more)
    ensures forall pid :: pid in After(NOTHING, es).processes ==> After(NOTHING, es).processes[pid] == Reaped
    ensures var later := After(After(NOTHING, es), more);
      later.processes.Keys == After(NOTHING, es).processes.Keys
      && forall pid :: pid in later.processes ==> later.processes[pid] == Reaped
  {
    RunKeepsBoth(NOTHING, es);
    RunKeepsBoth(After(NOTHING, es), more);
    StartsNoMore(After(NOTHING, es), more);
    ReturnedStays(After(NOTHING, es), more);
  }

  lemma {:induction false} ReturnedStays(s: State, es: seq<Event>)
    requires s.quitter == Returned && Possible(s, es)
    ensures After(s, es).quitter == Returned
    decreases |es|
  {
    if es != [] {
      ReturnedStays(Apply(s, es[0]), es[1..]);
    }
  }

  predicate Quitting(e: Event) {
    e.QuitWaitedOut? || e.QuitTimedOut? || e.QuitKill? || e.QuitReturns?
  }

  /** How many steps `quit` may yet take: three a child, and its return. */
  function Steps(q: Quitter): nat {
    match q
    case Unasked => 0
    case Stops(left, at) =>
      if left == [] then 1 else 3 * |left| + 1 - (match at case Interrupted => 0 case Killing => 1 case Awaiting => 2)
    case Returned => 0
  }

  function Taken(es: seq<Event>): nat {
    if es == [] then 0 else (if Quitting(es[0]) then 1 else 0) + Taken(es[1..])
  }

  /** `quit` always returns: until it has it can take a step, and it takes no more than it has. */
  lemma {:induction false} QuitReturnsInTime(s: State, es: seq<Event>)
    requires s.quitter.Stops? && Disciplined(s) && Registered(s) && Possible(s, es)
    ensures Taken(es) <= Steps(s.quitter)
    ensures Taken(es) == Steps(s.quitter) ==> After(s, es).quitter == Returned
    ensures After(s, es).quitter.Stops? ==> exists e :: Quitting(e) && Enabled(After(s, es), e)
    decreases |es|
  {
    if es == [] {
      QuitCanStep(s);
    } else {
      var s' := Apply(s, es[0]);
      DisciplineKept(s, es[0]);
      RegistryKept(s, es[0]);
      assert Steps(s'.quitter) <= Steps(s.quitter) - (if Quitting(es[0]) then 1 else 0);
      if s'.quitter.Stops? {
        QuitReturnsInTime(s', es[1..]);
      } else {
        ReturnedStays(s', es[1..]);
        NoneTaken(s', es[1..]);
      }
    }
  }

  lemma QuitCanStep(s: State)
    requires s.quitter.Stops? && Registered(s)
    ensures exists e :: Quitting(e) && Enabled(s, e)
  {
    if s.quitter.left == [] {
      assert Enabled(s, QuitReturns);
    } else {
      match s.quitter.at
      case Interrupted => assert Enabled(s, QuitTimedOut);
      case Killing => assert Enabled(s, QuitKill);
      case Awaiting => assert Enabled(s, QuitWaitedOut);
    }
  }

  lemma {:induction false} NoneTaken(s: State, es: seq<Event>)
    requires s.quitter == Returned && Possible(s, es)
    ensures Taken(es) == 0
    decreases |es|
  {
    if es != [] {
      NoneTaken(Apply(s, es[0]), es[1..]);
    }
  }

  /** Who ends a child: quitting, its owner as it starts too slowly, or the exit of the app. */
  datatype Ender = ByQuit | ByOwner(owner: nat) | ByShelf(owner: nat)

  /** Whether one of them is about to end a child, which it has just interrupted. */
  predicate Ends(s: State, who: Ender, pid: nat) {
    match who
    case ByQuit => s.quitter.Stops? && s.quitter.left != [] && s.quitter.left[0] == pid && s.quitter.at == Interrupted
    case ByOwner(t) => t in s.owners && s.owners[t] == EndingIt(pid, Interrupted)
    case ByShelf(t) => t in s.owners && s.owners[t].Serving? && s.owners[t].pid == pid && s.owners[t].shelf == Stopping(Interrupted)
  }

  function WaitedOutBy(who: Ender): Event {
    match who
    case ByQuit => QuitWaitedOut
    case ByOwner(t) => Owns(t, WaitedOut)
    case ByShelf(t) => Owns(t, StopWaitedOut)
  }

  function TimedOutBy(who: Ender): Event {
    match who
    case ByQuit => QuitTimedOut
    case ByOwner(t) => Owns(t, TimedOut)
    case ByShelf(t) => Owns(t, StopTimedOut)
  }

  function KillBy(who: Ender): Event {
    match who
    case ByQuit => QuitKill
    case ByOwner(t) => Owns(t, Kill)
    case ByShelf(t) => Owns(t, StopKill)
  }

  /** The steps of ending a child: it exits in time, or had already, or is killed. */
  function EndingOf(who: Ender, pid: nat, going: bool, stops: bool): seq<Event> {
    if !going then [WaitedOutBy(who)]
    else if stops then [Exits(pid), WaitedOutBy(who)]
    else [TimedOutBy(who), KillBy(who), WaitedOutBy(who)]
  }

  /** Where they leave everything: the child reaped, and whoever ended it past that. */
  function EndedBy(s: State, who: Ender, pid: nat): State
    requires Ends(s, who, pid)
  {
    var reaped := s.(processes := s.processes[pid := Reaped]);
    match who
    case ByQuit => reaped.(quitter := Stops(s.quitter.left[1..], Interrupted))
    case ByOwner(t) => reaped.(owners := s.owners[t := Dropping(pid)])
    case ByShelf(t) => reaped.(owners := s.owners[t := s.owners[t].(shelf := Stopped)])
  }

  lemma EndsGone(s: State, who: Ender, pid: nat)
    requires Ends(s, who, pid) && Dead(s, pid)
    ensures Possible(s, [WaitedOutBy(who)]) && After(s, [WaitedOutBy(who)]) == EndedBy(s, who, pid)
  {
    var e := WaitedOutBy(who);
    assert Enabled(s, e) && Apply(s, e) == EndedBy(s, who, pid);
    assert [e][1..] == [] && Possible(Apply(s, e), []);
  }

  lemma EndsStopped(s: State, who: Ender, pid: nat)
    requires Ends(s, who, pid) && pid in s.processes && s.processes[pid] == Going
    ensures var es := EndingOf(who, pid, true, true); Possible(s, es) && After(s, es) == EndedBy(s, who, pid)
  {
    var s1 := Apply(s, Exits(pid));
    EndsGone(s1, who, pid);
    assert s1.processes[pid := Reaped] == s.processes[pid := Reaped];
    assert EndedBy(s1, who, pid) == EndedBy(s, who, pid);
    assert [Exits(pid), WaitedOutBy(who)][1..] == [WaitedOutBy(who)];
  }

  /** About to wait for what it killed. */
  function Awaited(s: State, who: Ender, pid: nat): State
    requires Ends(s, who, pid)
  {
    var killed := s.(processes := s.processes[pid := Gone]);
    match who
    case ByQuit => killed.(quitter := s.quitter.(at := Awaiting))
    case ByOwner(t) => killed.(owners := s.owners[t := EndingIt(pid, Awaiting)])
    case ByShelf(t) => killed.(owners := s.owners[t := s.owners[t].(shelf := Stopping(Awaiting))])
  }

  lemma EndsKilling(s: State, who: Ender, pid: nat)
    requires Ends(s, who, pid) && pid in s.processes && s.processes[pid] == Going
    ensures Enabled(s, TimedOutBy(who)) && Enabled(Apply(s, TimedOutBy(who)), KillBy(who))
    ensures Apply(Apply(s, TimedOutBy(who)), KillBy(who)) == Awaited(s, who, pid)
  {
  }

  lemma EndsAwaited(s: State, who: Ender, pid: nat)
    requires Ends(s, who, pid) && pid in s.processes
    ensures var s2 := Awaited(s, who, pid);
      Enabled(s2, WaitedOutBy(who)) && Apply(s2, WaitedOutBy(who)) == EndedBy(s, who, pid)
  {
    assert s.processes[pid := Gone][pid := Reaped] == s.processes[pid := Reaped];
    match who
    case ByQuit =>
    case ByOwner(t) => assert s.owners[t := EndingIt(pid, Awaiting)][t := Dropping(pid)] == s.owners[t := Dropping(pid)];
    case ByShelf(t) =>
      var stopped := s.owners[t].(shelf := Stopped);
      assert s.owners[t := s.owners[t].(shelf := Stopping(Awaiting))][t := stopped] == s.owners[t := stopped];
  }

  lemma EndsKilled(s: State, who: Ender, pid: nat)
    requires Ends(s, who, pid) && pid in s.processes && s.processes[pid] == Going
    ensures var es := EndingOf(who, pid, true, false); Possible(s, es) && After(s, es) == EndedBy(s, who, pid)
  {
    hide Enabled, Apply, Ends, Awaited, EndedBy;
    EndsKilling(s, who, pid);
    EndsAwaited(s, who, pid);
    var e1, e2, e3 := TimedOutBy(who), KillBy(who), WaitedOutBy(who);
    var s1 := Apply(s, e1);
    var s2 := Apply(s1, e2);
    var s3 := Apply(s2, e3);
    assert [e1, e2, e3][1..] == [e2, e3] && [e2, e3][1..] == [e3] && [e3][1..] == [];
    assert Possible(s3, []) && Possible(s2, [e3]) && Possible(s1, [e2, e3]) && Possible(s, [e1, e2, e3]);
    assert After(s2, [e3]) == After(s3, []) && After(s1, [e2, e3]) == After(s2, [e3]);
  }

  /** However a child stops, ending it takes steps of the machine that leave it reaped. */
  lemma EndsReaped(s: State, who: Ender, pid: nat, stops: bool)
    requires Ends(s, who, pid) && pid in s.processes
    ensures var es := EndingOf(who, pid, s.processes[pid] == Going, stops);
      Possible(s, es) && After(s, es) == EndedBy(s, who, pid)
  {
    hide Ends, EndedBy, Possible, After, Apply;
    if s.processes[pid] != Going {
      EndsGone(s, who, pid);
    } else if stops {
      EndsStopped(s, who, pid);
    } else {
      EndsKilled(s, who, pid);
    }
  }

  lemma {:induction false} RunJoin(s: State, es: seq<Event>, more: seq<Event>)
    requires Possible(s, es) && Possible(After(s, es), more)
    ensures Possible(s, es + more) && After(s, es + more) == After(After(s, es), more)
    decreases |es|
  {
    if es == [] {
      assert es + more == more;
    } else {
      assert (es + more)[1..] == es[1..] + more;
      RunJoin(Apply(s, es[0]), es[1..], more);
    }
  }

  lemma OneStep(s: State, e: Event)
    requires Enabled(s, e)
    ensures Possible(s, [e]) && After(s, [e]) == Apply(s, e)
  {
    assert [e][1..] == [] && Possible(Apply(s, e), []);
  }

  /** What such a step leaves of the processes is the child's alone. */
  lemma GoesAs(s: State, t: nat, pid: nat, step: Step)
    requires t in s.owners && Has(s.owners[t]) && s.owners[t].pid == pid && MayOwn(s, s.owners[t], step) && !step.Drop?
    ensures Owning(s, t, step) == s.(
      owners := s.owners[t := Next(s.owners[t], step)],
      processes := if step.WaitedOut? || step.StopWaitedOut? then s.processes[pid := Reaped]
                   else if step.Kill? || step.StopKill? then Killed(s.processes, pid)
                   else s.processes)
  {
  }

  /** The registry itself: what is under its lock and the processes it keeps, with the owners and
      the run they have all made of it so far. */
  class Registry {
    var going: seq<nat>
    var quitting: bool
    var processes: map<nat, Process>
    ghost var quitter: Quitter
    ghost var owners: map<nat, Owner>
    ghost var run: seq<Event>

    ghost function Abstract(): State reads this {
      State(processes, going, quitting, quitter, owners)
    }

    ghost predicate Valid() reads this {
      Possible(NOTHING, run) && Abstract() == After(NOTHING, run)
    }

    constructor ()
      ensures Valid() && Abstract() == NOTHING && run == []
    {
      going, quitting, processes := [], false, map[];
      quitter, owners, run := Unasked, map[], [];
    }

    /** What was done since a state the run had come to were these steps. */
    ghost method Record(was: State, es: seq<Event>)
      requires Possible(NOTHING, run) && was == After(NOTHING, run)
      requires Possible(was, es) && Abstract() == After(was, es)
      modifies this`run
      ensures Valid() && run == old(run) + es
    {
      RunJoin(NOTHING, run, es);
      run := run + es;
    }

    /** Starts a process and keeps it, unless the app is quitting or it cannot be started. */
    method Spawn(ghost t: nat, pid: nat, ghost kind: Kind, starts: bool) returns (started: bool)
      requires Valid() && t !in owners && pid !in processes
      modifies this
      ensures Valid() && started == (!old(quitting) && starts)
      ensures run == old(run) + [Begins(t), Owns(t, if started then Step.Spawn(pid, kind) else Refuse)]
      ensures Abstract() ==
              if started then
                State(old(processes)[pid := Going], old(going) + [pid], old(quitting), old(quitter),
                      old(owners)[t := Next(Fresh, Step.Spawn(pid, kind))])
              else old(Abstract()).(owners := old(owners)[t := Done])
    {
      hide Valid, Possible, After;
      Begin(t);
      ghost var was := Abstract();
      started := false;
      if quitting || !starts {
        owners := owners[t := Done];
        OneStep(was, Owns(t, Refuse));
        Record(was, [Owns(t, Refuse)]);
        return;
      }
      processes := processes[pid := Going];
      going := going + [pid];
      owners := owners[t := Next(Fresh, Step.Spawn(pid, kind))];
      started := true;
      OneStep(was, Owns(t, Step.Spawn(pid, kind)));
      Record(was, [Owns(t, Step.Spawn(pid, kind))]);
    }

    ghost method Begin(t: nat)
      requires Valid() && t !in owners
      modifies this`owners, this`run
      ensures Valid() && run == old(run) + [Begins(t)] && owners == old(owners)[t := Fresh]
    {
      ghost var was := Abstract();
      owners := owners[t := Fresh];
      OneStep(was, Begins(t));
      Record(was, [Begins(t)]);
    }

    /** Drops a child its owner is through with, which is reaped by then. */
    method Drop(ghost t: nat, pid: nat)
      requires Valid() && t in owners && owners[t] == Dropping(pid)
      modifies this
      ensures Valid() && run == old(run) + [Owns(t, Step.Drop)]
      ensures pid in processes && processes[pid] == Reaped
      ensures Abstract() == old(Abstract()).(going := Without(old(going), pid), owners := old(owners)[t := Done])
    {
      RunKeepsBoth(NOTHING, run);
      ghost var was := Abstract();
      going := Without(going, pid);
      owners := owners[t := Done];
      OneStep(was, Owns(t, Step.Drop));
      Record(was, [Owns(t, Step.Drop)]);
    }

    /** A process going is gone, whoever is to hear of it. */
    method Exit(pid: nat)
      requires Valid() && pid in processes && processes[pid] == Going
      modifies this
      ensures Valid() && run == old(run) + [Exits(pid)]
      ensures Abstract() == old(Abstract()).(processes := old(processes)[pid := Gone])
    {
      ghost var was := Abstract();
      processes := processes[pid := Gone];
      OneStep(was, Exits(pid));
      Record(was, [Exits(pid)]);
    }

    /** An owner with a child takes any step of its own but the last: it waits, kills, hears the server
        or gives it up, shares it, takes it off the shelf as the app exits, or lets go of a share. */
    method Goes(ghost t: nat, pid: nat, step: Step)
      requires Valid() && t in owners && Has(owners[t]) && owners[t].pid == pid
      requires MayOwn(Abstract(), owners[t], step) && !step.Drop?
      modifies this
      ensures Valid() && Abstract() == Owning(old(Abstract()), t, step) && run == old(run) + [Owns(t, step)]
    {
      ghost var was := Abstract();
      if step.WaitedOut? || step.StopWaitedOut? {
        processes := processes[pid := Reaped];
      } else if step.Kill? || step.StopKill? {
        processes := Killed(processes, pid);
      }
      owners := owners[t := Next(owners[t], step)];
      GoesAs(was, t, pid, step);
      OneStep(was, Owns(t, step));
      Record(was, [Owns(t, step)]);
    }

    /** A question put to a program: waited for, or killed and then waited for, and dropped. Whatever
        comes of it, its process is reaped and out of the registry. */
    method Asks(ghost t: nat, pid: nat, starts: bool, answers: bool) returns (ran: bool)
      requires Valid() && t !in owners && pid !in processes
      modifies this
      ensures Valid() && ran == (!old(quitting) && starts) && old(run) <= run
      ensures owners == old(owners)[t := Done] && quitting == old(quitting) && quitter == old(quitter)
      ensures processes == if ran then old(processes)[pid := Reaped] else old(processes)
      ensures going == if ran then Without(old(going) + [pid], pid) else old(going)
    {
      hide Valid, Without, Possible, After;
      ran := Spawn(t, pid, Question, starts);
      if !ran {
        return;
      }
      if answers {
        Exit(pid);
      } else {
        Goes(t, pid, TimedOut);
        Goes(t, pid, Kill);
      }
      Goes(t, pid, WaitedOut);
      assert old(processes)[pid := Going][pid := Gone][pid := Reaped] == old(processes)[pid := Reaped];
      Drop(t, pid);
    }

    /** Waits a while for a child that has been interrupted and kills it if it has not stopped in
        time: whoever ends it, it is reaped either way. */
    method End(ghost who: Ender, pid: nat, stops: bool)
      requires Valid() && Ends(Abstract(), who, pid) && pid in processes
      modifies this
      ensures Valid() && Abstract() == EndedBy(old(Abstract()), who, pid)
      ensures run == old(run) + EndingOf(who, pid, old(processes)[pid] == Going, stops)
    {
      ghost var was := Abstract();
      EndsReaped(was, who, pid, stops);
      if processes[pid] == Going && !stops {
        processes := Killed(processes, pid);
      }
      processes := processes[pid := Reaped];
      assert processes == was.processes[pid := Reaped];
      quitter, owners := EndedBy(was, who, pid).quitter, EndedBy(was, who, pid).owners;
      Record(was, EndingOf(who, pid, was.processes[pid] == Going, stops));
    }

    /** Drains the registry and raises the flag in one section, then ends what it drained: by
        then every process ever started is reaped. A second call finds nothing to do. */
    method Quit(polite: set<nat>)
      requires Valid()
      modifies this
      ensures Valid() && quitting && going == [] && owners == old(owners) && processes.Keys == old(processes.Keys)
      ensures old(quitter) == Unasked ==>
                quitter == Returned && forall pid | pid in processes :: processes[pid] == Reaped
      ensures old(quitter) != Unasked ==> Abstract() == old(Abstract()) && run == old(run)
      ensures old(run) <= run
    {
      RunKeepsBoth(NOTHING, run);
      var drained := going;
      ghost var was, first := Abstract(), quitter == Unasked;
      quitting, going := true, [];
      if first {
        quitter := Stops(drained, Interrupted);
        OneStep(was, Quits);
        Record(was, [Quits]);
      }
      for i := 0 to |drained|
        invariant Valid() && quitting && going == [] && old(run) <= run
        invariant owners == old(owners) && processes.Keys == old(processes.Keys)
        invariant if first then quitter == Stops(drained[i..], Interrupted)
                  else drained == [] && Abstract() == was && run == old(run)
      {
        assert drained[i..][0] == drained[i] && drained[i..][1..] == drained[i + 1..];
        RunKeepsBoth(NOTHING, run);
        End(ByQuit, drained[i], drained[i] in polite);
      }
      if first {
        was := Abstract();
        quitter := Returned;
        OneStep(was, QuitReturns);
        Record(was, [QuitReturns]);
        RunKeepsBoth(NOTHING, run);
      }
    }
  }
}
