/**
 Every order the threads of an `ExecProxy` may take their steps in: the one that starts it, its
 output and stdin pumps, the target's reader thread and the supervisor, with whoever is at the
 other end of the borrowed descriptors. An event is one step of one of them, atomic as the queue,
 the event and each system call are.
 */
module ExecProxyRuns {
  import opened ExecProxy
  import opened Maybe

  /** The thread in `start`; the other two pumps' threads are up once spawned. */
  datatype Starter = Unstarted | Failed | Requested | OutUp | InUp | Up

  datatype OutPump = OutIdle | Getting | Writing(to: Stream, rest: Bytes) | Stopping | Joining | Closing | Telling | OutDone

  datatype InPump = InIdle | Watching | Reading | Sending | Leaving | InDone

  /** The target's reader thread, which says one exit: its end marker comes a step after. */
  datatype Reader = Delivering | Marking | Gone

  /** What a write to a descriptor meets: room for so much more, and none once that is used up
      until somebody reads, or a failure, as of a pipe with nobody left to read it. */
  datatype Door = Open(room: nat) | Failing

  /** What the threads share, where each of them is, and what the world has seen: `queued` is
      everything ever put in the outbox and `taken` what the output pump has got of it. */
  datatype State = State(
    p: Shared, starter: Starter, out: OutPump, inp: InPump, reader: Reader,
    hasIn: bool, hasOut: bool, hasErr: bool, outDoor: Door, errDoor: Door, closes: nat,
    out1: Bytes, err1: Bytes, queued: seq<Item>, taken: seq<Item>, finishes: seq<Result>,
    exit: Option<Exit>, abandoned: bool, dropped: bool, unjoined: bool)

  /** One step of one thread. */
  datatype Event =
    | Starts(start: StartStep) | Tells(tell: TellStep) | Supervises(act: SupervisorStep)
    | Pumps(pump: PumpStep) | Feeds(feed: FeedStep) | Peers(to: Stream, door: Door)

  datatype StartStep = StartFailed | StartAsked | OutSpawned | InSpawned | StartDone

  datatype TellStep = Output(stream: Stream, data: Bytes) | ExitSaid(exit: Exit) | ExitMarked

  datatype SupervisorStep = Abandon | Signalled(number: int)

  datatype PumpStep =
    | Got | Accepted(n: nat) | WriteFailed | StopSet | Joined | JoinTimedOut | JoinSkipped | Closed | Finished

  datatype FeedStep = InStopped | InReady | InRead(more: bool) | InSent(ok: bool) | InLeft

  /** A proxy not started yet, standing in for a process with some of its descriptors. */
  function Init(hasIn: bool, hasOut: bool, hasErr: bool, outDoor: Door, errDoor: Door): State {
    State(Shared([], false, UNSAID, false, false, {}), Unstarted, OutIdle, InIdle, Delivering,
          hasIn, hasOut, hasErr, outDoor, errDoor, 0, [], [], [], [], [], None, false, false, false)
  }

  predicate Has(s: State, to: Stream) {
    if to == Stderr then s.hasErr else s.hasOut
  }

  function DoorOf(s: State, to: Stream): Door {
    if to == Stderr then s.errDoor else s.outDoor
  }

  function Written(s: State, to: Stream): Bytes {
    if to == Stderr then s.err1 else s.out1
  }

  /** What of a chunk the output pump has yet to write to a descriptor. */
  function Left(s: State, to: Stream): Bytes {
    if s.out.Writing? && s.out.to == to then s.out.rest else []
  }

  predicate Enabled(s: State, e: Event) {
    match e
    case Starts(step) => MayStart(s, step)
    case Tells(step) => s.reader == if step.ExitMarked? then Marking else Delivering
    case Supervises(_) => true
    case Pumps(step) => MayPump(s, step)
    case Feeds(step) => MayFeed(s, step)
    case Peers(to, _) => Target(to) == to
  }

  predicate MayStart(s: State, step: StartStep) {
    match step
    case StartFailed => s.starter == Unstarted
    case StartAsked => s.starter == Unstarted
    case OutSpawned => s.starter == Requested
    case InSpawned => s.starter == OutUp
    case StartDone => s.starter == InUp
  }

  predicate MayPump(s: State, step: PumpStep) {
    match step
    case Got => s.out == Getting && s.p.outbox != []
    case Accepted(n) =>
      s.out.Writing? && DoorOf(s, s.out.to).Open? && 1 <= n <= |s.out.rest| && n <= DoorOf(s, s.out.to).room
    case WriteFailed => s.out.Writing? && DoorOf(s, s.out.to).Failing?
    case StopSet => s.out == Stopping
    case Joined => s.out == Joining && s.p.joinable && s.inp == InDone
    case JoinTimedOut => s.out == Joining && s.p.joinable
    case JoinSkipped => s.out == Joining && !s.p.joinable
    case Closed => s.out == Closing
    case Finished => s.out == Telling
  }

  predicate MayFeed(s: State, step: FeedStep) {
    match step
    case InStopped => s.inp == Watching && s.p.stop
    case InReady => s.inp == Watching && !s.p.stop
    case InRead(_) => s.inp == Reading
    case InSent(_) => s.inp == Sending
    case InLeft => s.inp == Leaving
  }

  function Apply(s: State, e: Event): State
    requires Enabled(s, e)
  {
    match e
    case Starts(step) => Start(s, step)
    case Tells(step) => Tell(s, step)
    case Supervises(step) => Supervise(s, step)
    case Pumps(step) => Pump(s, step)
    case Feeds(step) => Feed(s, step)
    case Peers(to, door) => Peer(s, to, door)
  }

  function Start(s: State, step: StartStep): State {
    match step
    case StartFailed => s.(starter := Failed, closes := s.closes + 1)
    case StartAsked => s.(starter := Requested, p := s.p.(handle := true))
    case OutSpawned => s.(starter := OutUp, out := Getting)
    case InSpawned => s.(starter := InUp, inp := if s.hasIn then Watching else InDone)
    case StartDone => s.(starter := Up, p := s.p.(joinable := true))
  }

  function Queue(s: State, p: Shared, items: seq<Item>): State {
    s.(p := p, queued := s.queued + items)
  }

  function Tell(s: State, step: TellStep): State {
    match step
    case Output(stream, data) => Queue(s, Put(s.p, Chunk(stream, data)), [Chunk(stream, data)])
    case ExitSaid(exit) =>
      Queue(s.(reader := Marking, exit := Some(exit)), Said(s.p, exit),
            if exit.Refused? then [Chunk(Stderr, exit.message)] else [])
    case ExitMarked => Queue(s.(reader := Gone), Put(s.p, End), [End])
  }

  function Supervise(s: State, step: SupervisorStep): State {
    match step
    case Abandon => Queue(s.(abandoned := true), Abandoned(s.p), [End])
    case Signalled(number) => s.(p := s.p.(forwarded := s.p.forwarded + {number}))
  }

  function Pump(s: State, step: PumpStep): State
    requires MayPump(s, step)
  {
    match step
    case Got => Taking(s)
    case Accepted(n) => Accepting(s, n)
    case WriteFailed => s.(out := Getting, dropped := true)
    case StopSet => s.(out := Joining, p := s.p.(stop := true))
    case Joined => s.(out := Closing)
    case JoinTimedOut => s.(out := Closing, unjoined := true)
    case JoinSkipped => s.(out := Closing, unjoined := true)
    case Closed => s.(out := Telling, closes := s.closes + 1)
    case Finished => s.(out := OutDone, finishes := s.finishes + [s.p.result])
  }

  /** The output pump with the next thing queued: written where its descriptor is one. */
  function Next(s: State, item: Item): OutPump {
    if item.End? then Stopping
    else if Has(s, Target(item.stream)) && item.data != [] then Writing(Target(item.stream), item.data)
    else Getting
  }

  function Taking(s: State): State
    requires s.p.outbox != []
  {
    var item := s.p.outbox[0];
    s.(p := s.p.(outbox := s.p.outbox[1..]), taken := s.taken + [item], out := Next(s, item))
  }

  /** The output pump with the first `n` bytes of what it was writing written. */
  function Accepting(s: State, n: nat): State
    requires s.out.Writing? && n <= |s.out.rest| && DoorOf(s, s.out.to).Open? && n <= DoorOf(s, s.out.to).room
  {
    var some, rest := s.out.rest[..n], s.out.rest[n..];
    var now := if rest == [] then Getting else Writing(s.out.to, rest);
    if s.out.to == Stderr then s.(err1 := s.err1 + some, out := now, errDoor := Open(s.errDoor.room - n))
    else s.(out1 := s.out1 + some, out := now, outDoor := Open(s.outDoor.room - n))
  }

  function Feed(s: State, step: FeedStep): State {
    s.(inp := Fed(step))
  }

  /** Where the stdin pump is after a step of its own. */
  function Fed(step: FeedStep): InPump {
    match step
    case InStopped => Leaving
    case InReady => Reading
    case InRead(more) => if more then Sending else Leaving
    case InSent(ok) => if ok then Watching else Leaving
    case InLeft => InDone
  }

  /** Somebody at a descriptor's other end reads, fills it from elsewhere, goes or comes back. */
  function Peer(s: State, to: Stream, door: Door): State {
    if to == Stderr then s.(errDoor := door) else s.(outDoor := door)
  }

  ghost predicate Possible(s: State, es: seq<Event>)
    decreases |es|
  {
    es == [] || (Enabled(s, es[0]) && Possible(Apply(s, es[0]), es[1..]))
  }

  ghost function After(s: State, es: seq<Event>): State
    requires Possible(s, es)
    decreases |es|
  {
    if es == [] then s else After(Apply(s, es[0]), es[1..])
  }

  predicate Finishing(out: OutPump) {
    out.Stopping? || out.Joining? || out.Closing? || out.Telling? || out.OutDone?
  }

  /** The output pump with the others told to stop. */
  predicate PastStop(out: OutPump) {
    out.Joining? || out.Closing? || out.Telling? || out.OutDone?
  }

  /** Where the threads may be at once. */
  predicate Placed(s: State) {
    && (s.out == OutIdle <==> s.starter.Unstarted? || s.starter.Failed? || s.starter.Requested?)
    && (s.inp == InIdle <==> !(s.starter.InUp? || s.starter.Up?))
    && s.p.joinable == s.starter.Up? && (PastStop(s.out) ==> s.p.stop)
    && s.p.handle == !(s.starter.Unstarted? || s.starter.Failed?)
    && |s.finishes| == (if s.out == OutDone then 1 else 0)
    && s.closes == (if s.starter == Failed || s.out == Telling || s.out == OutDone then 1 else 0)
    && (s.out.Writing? ==> s.out.to == Target(s.out.to) && s.out.rest != [] && Has(s, s.out.to))
    && (!s.unjoined && (s.out == Closing || s.out == Telling || s.out == OutDone) ==> s.inp == InDone)
  }

  /** What has become of what was queued. */
  predicate Kept(s: State) {
    && s.queued == s.taken + s.p.outbox
    && (s.out == OutIdle ==> s.taken == [])
    && (!Finishing(s.out) ==> End !in s.taken)
    && (Finishing(s.out) ==> s.taken != [] && s.taken[|s.taken| - 1] == End && End !in s.taken[..|s.taken| - 1])
  }

  /** The bytes written, with the ones about to be, are the ones taken: all of them where no
      write has failed, and never one out of its order where one has. */
  ghost predicate Delivered(s: State, to: Stream) {
    && (!Has(s, to) ==> Written(s, to) == [] == Left(s, to))
    && (Has(s, to) ==> Subsequence(Written(s, to) + Left(s, to), Routed(s.taken, to)))
    && (Has(s, to) && !s.dropped ==> Written(s, to) + Left(s, to) == Routed(s.taken, to))
  }

  /** The result is the exit's, once one is said; without `abandon` only an exit marks an end. */
  ghost predicate Reported(s: State) {
    && (s.reader == Delivering <==> s.exit == None)
    && s.p.result == (if s.exit.None? then UNSAID else Told(UNSAID, s.exit.value))
    && (!s.abandoned && s.reader != Gone ==> End !in s.queued)
    && (!s.abandoned && s.out == OutDone ==> s.finishes == [s.p.result])
    && (forall r | r in s.finishes :: r == UNSAID || (s.exit.Some? && r == Told(UNSAID, s.exit.value)))
  }

  ghost predicate Subsequence(a: Bytes, b: Bytes)
    decreases |b|
  {
    if a == [] then true
    else b != [] && ((a[0] == b[0] && Subsequence(a[1..], b[1..])) || Subsequence(a, b[1..]))
  }

  ghost predicate Good(s: State) {
    Placed(s) && Kept(s) && Delivered(s, Stdout) && Delivered(s, Stderr) && Reported(s)
  }

  lemma {:induction false} SubsequenceAppend(a: Bytes, b: Bytes, d: Bytes)
    requires Subsequence(a, b)
    ensures Subsequence(a + d, b + d)
    decreases |b|
  {
    if a == [] {
      assert a + d == d;
      SubsequenceSkip(d, b, d);
    } else {
      assert (b + d)[1..] == b[1..] + d && (a + d)[1..] == a[1..] + d;
      if a[0] == b[0] && Subsequence(a[1..], b[1..]) {
        SubsequenceAppend(a[1..], b[1..], d);
      } else {
        SubsequenceAppend(a, b[1..], d);
      }
    }
  }

  lemma {:induction false} SubsequenceSkip(a: Bytes, before: Bytes, b: Bytes)
    requires a == b
    ensures Subsequence(a, before + b)
    decreases |before| + |a|
  {
    if before != [] {
      assert (before + b)[1..] == before[1..] + b;
      SubsequenceSkip(a, before[1..], b);
    } else {
      assert before + b == b;
      if a != [] {
        assert [] + b[1..] == b[1..];
        SubsequenceSkip(a[1..], [], b[1..]);
      }
    }
  }

  lemma {:induction false} SubsequencePrefix(a: Bytes, d: Bytes, b: Bytes)
    requires Subsequence(a + d, b)
    ensures Subsequence(a, b)
    decreases |b|
  {
    if a != [] {
      assert (a + d)[1..] == a[1..] + d;
      if (a + d)[0] == b[0] && Subsequence((a + d)[1..], b[1..]) {
        SubsequencePrefix(a[1..], d, b[1..]);
      } else {
        SubsequencePrefix(a, d, b[1..]);
      }
    }
  }

  predicate SameDescriptors(s: State, s': State) {
    s'.hasOut == s.hasOut && s'.hasErr == s.hasErr
  }

  lemma StartKeeps(s: State, step: StartStep)
    requires Good(s) && MayStart(s, step)
    ensures Good(Start(s, step)) && SameDescriptors(s, Start(s, step))
  {
    StartPlaced(s, step);
    StartRest(s, step);
    StartDelivered(s, step, Stdout);
    StartDelivered(s, step, Stderr);
    hide Kept, Delivered, Reported, Placed, Start;
  }

  lemma StartPlaced(s: State, step: StartStep)
    requires Placed(s) && MayStart(s, step)
    ensures Placed(Start(s, step)) && SameDescriptors(s, Start(s, step))
  {
  }

  lemma StartRest(s: State, step: StartStep)
    requires Placed(s) && Kept(s) && Reported(s) && MayStart(s, step)
    ensures Kept(Start(s, step)) && Reported(Start(s, step))
  {
    hide Told;
  }

  lemma StartDelivered(s: State, step: StartStep, to: Stream)
    requires Placed(s) && Delivered(s, to) && MayStart(s, step)
    ensures Delivered(Start(s, step), to)
  {
    hide Subsequence, Routed;
  }

  lemma FeedKeeps(s: State, step: FeedStep)
    requires Good(s) && MayFeed(s, step)
    ensures Good(Feed(s, step)) && SameDescriptors(s, Feed(s, step))
  {
    FeedPlaced(s, step);
    hide Kept, Delivered, Reported, Placed;
    var s' := Feed(s, step);
    assert s' == s.(inp := s'.inp);
    FeedOnly(s, s'.inp);
  }

  lemma FeedPlaced(s: State, step: FeedStep)
    requires Placed(s) && MayFeed(s, step)
    ensures Placed(Feed(s, step))
  {
  }

  lemma FeedOnly(s: State, inp: InPump)
    requires Kept(s) && Delivered(s, Stdout) && Delivered(s, Stderr) && Reported(s)
    ensures var s' := s.(inp := inp);
      Kept(s') && Delivered(s', Stdout) && Delivered(s', Stderr) && Reported(s')
  {
    hide Subsequence, Routed;
  }

  /** Only the reader thread and the supervisor queue, at the outbox's end and touching nothing
      of the pumps. */
  predicate Queueing(s: State, s': State) {
    && s.p.outbox <= s'.p.outbox && s'.queued == s.queued + s'.p.outbox[|s.p.outbox|..]
    && s'.out == s.out && s'.inp == s.inp && s'.starter == s.starter
    && s'.taken == s.taken && s'.out1 == s.out1 && s'.err1 == s.err1 && s'.dropped == s.dropped
    && s'.hasOut == s.hasOut && s'.hasErr == s.hasErr && s'.finishes == s.finishes && s'.closes == s.closes
    && s'.outDoor == s.outDoor && s'.errDoor == s.errDoor
    && s'.unjoined == s.unjoined && s'.p.joinable == s.p.joinable && s'.p.handle == s.p.handle
    && (s.p.stop ==> s'.p.stop)
  }

  lemma QueueingKeeps(s: State, s': State)
    requires Placed(s) && Kept(s) && Delivered(s, Stdout) && Delivered(s, Stderr) && Queueing(s, s')
    ensures Placed(s') && Kept(s') && Delivered(s', Stdout) && Delivered(s', Stderr)
  {
    hide Subsequence, Routed;
    QueuedKept(s, s');
  }

  lemma TellKeeps(s: State, step: TellStep)
    requires Good(s) && s.reader == if step.ExitMarked? then Marking else Delivering
    ensures Good(Tell(s, step)) && Queueing(s, Tell(s, step))
  {
    TellQueues(s, step);
    TellReported(s, step);
    hide Delivered, Kept, Placed, Tell, Reported, Queueing;
    QueueingKeeps(s, Tell(s, step));
  }

  lemma TellQueues(s: State, step: TellStep)
    ensures Queueing(s, Tell(s, step))
  {
    hide Queueing, Queue;
    match step
    case Output(stream, data) => QueuesOn(s, s, Put(s.p, Chunk(stream, data)), [Chunk(stream, data)]);
    case ExitSaid(exit) =>
      QueuesOn(s, s.(reader := Marking, exit := Some(exit)), Said(s.p, exit),
               if exit.Refused? then [Chunk(Stderr, exit.message)] else []);
    case ExitMarked => QueuesOn(s, s.(reader := Gone), Put(s.p, End), [End]);
  }

  lemma QueuesOn(s: State, s1: State, p: Shared, items: seq<Item>)
    requires s1 == s.(reader := s1.reader, exit := s1.exit, abandoned := s1.abandoned)
    requires p.outbox == s.p.outbox + items && p.joinable == s.p.joinable && p.handle == s.p.handle
    requires s.p.stop ==> p.stop
    ensures Queueing(s, Queue(s1, p, items))
  {
  }

  lemma TellReported(s: State, step: TellStep)
    requires Placed(s) && Kept(s) && Reported(s) && s.reader == if step.ExitMarked? then Marking else Delivering
    ensures Reported(Tell(s, step))
  {
    DoneIsGone(s);
    hide Kept, Placed;
    match step
    case Output(stream, data) => OutputReported(s, stream, data);
    case ExitSaid(exit) => SaidReported(s, exit);
    case ExitMarked => MarkedReported(s);
  }

  /** Without `abandon` the output pump has finished only once the exit's end marker was queued. */
  lemma DoneIsGone(s: State)
    requires Kept(s) && Reported(s)
    ensures !s.abandoned && s.out == OutDone ==> s.reader == Gone
  {
    if Finishing(s.out) {
      assert s.taken[|s.taken| - 1] in s.queued;
    }
  }

  lemma OutputReported(s: State, stream: Stream, data: Bytes)
    requires Reported(s)
    ensures Reported(Tell(s, Output(stream, data)))
  {
    hide Told;
  }

  lemma SaidReported(s: State, exit: Exit)
    requires Reported(s) && s.reader == Delivering && (!s.abandoned ==> s.out != OutDone)
    requires s.finishes != [] ==> forall r | r in s.finishes :: r == UNSAID
    ensures Reported(Tell(s, ExitSaid(exit)))
  {
    SaidResult(s.p, exit);
    hide Told, Said;
  }

  lemma MarkedReported(s: State)
    requires Reported(s) && s.reader == Marking && (!s.abandoned ==> s.out != OutDone)
    ensures Reported(Tell(s, ExitMarked))
  {
    hide Told;
  }

  lemma SaidResult(p: Shared, exit: Exit)
    ensures Said(p, exit).result == Told(p.result, exit)
  {
  }

  lemma SuperviseKeeps(s: State, step: SupervisorStep)
    requires Good(s)
    ensures Good(Supervise(s, step)) && Queueing(s, Supervise(s, step))
  {
    hide Delivered, Kept, Placed;
    QueueingKeeps(s, Supervise(s, step));
  }

  lemma PumpKeeps(s: State, step: PumpStep)
    requires Good(s) && MayPump(s, step)
    ensures Good(Pump(s, step)) && SameDescriptors(s, Pump(s, step))
  {
    hide Kept, Delivered, Reported, Placed, Pump;
    PumpSame(s, step);
    PlacedPumping(s, step);
    KeptPumping(s, step);
    DeliveredPumping(s, step, Stdout);
    DeliveredPumping(s, step, Stderr);
    ReportedPumping(s, step);
  }

  lemma PumpSame(s: State, step: PumpStep)
    requires MayPump(s, step)
    ensures SameDescriptors(s, Pump(s, step))
  {
    hide Pump, Taking, Accepting, Finishing;
    PumpIs(s, step);
    if step.Got? {
      TakingLeaves(s);
    } else if step.Accepted? {
      AcceptingLeaves(s, step.n);
    }
  }

  lemma PlacedPumping(s: State, step: PumpStep)
    requires Placed(s) && MayPump(s, step)
    ensures Placed(Pump(s, step))
  {
    if step.Got? {
      PlacedTaking(s);
    } else if step.Accepted? {
      PlacedAccepting(s, step.n);
    } else {
      hide Target;
      assert Placed(Pump(s, step));
    }
  }

  lemma PlacedTaking(s: State)
    requires Placed(s) && MayPump(s, Got)
    ensures Placed(Taking(s))
  {
  }

  lemma PlacedAccepting(s: State, n: nat)
    requires Placed(s) && MayPump(s, Accepted(n))
    ensures Placed(Accepting(s, n))
  {
  }

  lemma KeptPumping(s: State, step: PumpStep)
    requires Placed(s) && Kept(s) && MayPump(s, step)
    ensures Kept(Pump(s, step))
  {
    hide Pump, Taking, Accepting;
    PumpIs(s, step);
    if step.Got? {
      GotKept(s);
    } else if step.Accepted? {
      AcceptingLeaves(s, step.n);
    }
  }

  lemma GotKept(s: State)
    requires Placed(s) && Kept(s) && MayPump(s, Got)
    ensures Kept(Taking(s))
  {
    var s' := Taking(s);
    assert s.taken + s.p.outbox == (s.taken + [s.p.outbox[0]]) + s.p.outbox[1..];
    assert s'.taken[..|s'.taken| - 1] == s.taken;
  }

  lemma ReportedPumping(s: State, step: PumpStep)
    requires Placed(s) && Kept(s) && Reported(s) && MayPump(s, step)
    ensures Reported(Pump(s, step))
  {
    if step.Finished? {
      assert s.taken[|s.taken| - 1] in s.queued;
    } else {
      ReportedUnfinished(s, step);
    }
  }

  lemma ReportedUnfinished(s: State, step: PumpStep)
    requires Reported(s) && MayPump(s, step) && !step.Finished?
    ensures Reported(Pump(s, step))
  {
    hide Pump, MayPump, Told;
    PumpLeaves(s, step);
  }

  /** Short of finishing, the output pump touches nothing of what is said or queued. */
  lemma PumpLeaves(s: State, step: PumpStep)
    requires MayPump(s, step) && !step.Finished?
    ensures var s' := Pump(s, step);
      && s'.reader == s.reader && s'.exit == s.exit && s'.abandoned == s.abandoned && s'.queued == s.queued
      && s'.p.result == s.p.result && s'.out != OutDone && s'.finishes == s.finishes
  {
    hide Pump, Taking, Accepting, Finishing;
    PumpIs(s, step);
    if step.Got? {
      TakingLeaves(s);
    } else if step.Accepted? {
      AcceptingLeaves(s, step.n);
    }
  }

  /** A step of the output pump that neither takes anything nor writes it. */
  lemma PumpIs(s: State, step: PumpStep)
    requires MayPump(s, step)
    ensures var s' := Pump(s, step);
      if step.Got? then s' == Taking(s)
      else if step.Accepted? then s' == Accepting(s, step.n)
      else
        && s'.queued == s.queued && s'.taken == s.taken && s'.p.outbox == s.p.outbox && s'.p.result == s.p.result
        && s'.reader == s.reader && s'.exit == s.exit && s'.abandoned == s.abandoned
        && s'.hasOut == s.hasOut && s'.hasErr == s.hasErr && s'.inp == s.inp && (s.p.stop ==> s'.p.stop)
        && (!step.Finished? ==> s'.finishes == s.finishes)
        && (s'.out == OutDone <==> step.Finished?) && s'.out != OutIdle
        && (Finishing(s'.out) <==> Finishing(s.out))
  {
    hide Taking, Accepting;
  }

  lemma TakingLeaves(s: State)
    requires s.p.outbox != []
    ensures var s' := Taking(s);
      && s' == s.(p := s'.p, taken := s'.taken, out := s'.out) && s'.p.result == s.p.result && s'.out != OutDone
      && s'.p.joinable == s.p.joinable && s'.p.handle == s.p.handle && s'.p.stop == s.p.stop
  {
  }

  lemma AcceptingLeaves(s: State, n: nat)
    requires MayPump(s, Accepted(n))
    ensures var s' := Accepting(s, n);
      && s' == s.(out1 := s'.out1, err1 := s'.err1, out := s'.out, outDoor := s'.outDoor, errDoor := s'.errDoor)
      && (s'.out == Getting || s'.out.Writing?)
  {
  }

  lemma QueuedKept(s: State, s': State)
    requires s.queued == s.taken + s.p.outbox && s'.taken == s.taken
    requires s.p.outbox <= s'.p.outbox && s'.queued == s.queued + s'.p.outbox[|s.p.outbox|..]
    ensures s'.queued == s'.taken + s'.p.outbox
  {
    assert s'.p.outbox == s.p.outbox + s'.p.outbox[|s.p.outbox|..];
  }

  lemma DeliveredPumping(s: State, step: PumpStep, to: Stream)
    requires Placed(s) && Kept(s) && Delivered(s, to) && MayPump(s, step) && Target(to) == to
    ensures Delivered(Pump(s, step), to)
  {
    hide Subsequence, Routed;
    match step
    case Got => GotDelivered(s, to);
    case Accepted(n) => WroteDelivered(s, n, to);
    case WriteFailed => FailedDelivered(s, to);
    case _ =>
  }

  lemma GotDelivered(s: State, to: Stream)
    requires Placed(s) && Kept(s) && Delivered(s, to) && MayPump(s, Got) && Target(to) == to
    ensures Delivered(Taking(s), to)
  {
    hide Subsequence, Routed;
    var item, s' := s.p.outbox[0], Taking(s);
    var more := Part(item, to);
    RoutedPart(s.taken, item, to);
    assert Left(s, to) == [] && Written(s, to) + [] == Written(s, to) == Written(s', to);
    if Has(s, to) {
      SubsequenceAppend(Written(s, to), Routed(s.taken, to), more);
      assert Left(s', to) == more;
    }
  }

  /** The bytes of one thing queued that go to one descriptor. */
  function Part(item: Item, to: Stream): Bytes {
    if item.Chunk? && Target(item.stream) == to then item.data else []
  }

  lemma RoutedPart(taken: seq<Item>, item: Item, to: Stream)
    requires End !in taken
    ensures Routed(taken + [item], to) == Routed(taken, to) + Part(item, to)
  {
    RoutedThen(taken, [item], to);
    assert Routed([item], to) == Part(item, to);
  }

  lemma WroteDelivered(s: State, n: nat, to: Stream)
    requires MayPump(s, Accepted(n)) && Has(s, s.out.to) && s.out.to == Target(s.out.to)
    requires Delivered(s, to) && Target(to) == to
    ensures Delivered(Accepting(s, n), to)
  {
    hide Subsequence, Routed;
    var s', rest := Accepting(s, n), s.out.rest;
    Shifted(Written(s, s.out.to), rest, n);
    if s.out.to == to {
      assert Written(s', to) == Written(s, to) + rest[..n] && Left(s', to) == rest[n..];
    }
  }

  lemma Shifted(written: Bytes, rest: Bytes, n: nat)
    requires n <= |rest|
    ensures written + rest[..n] + rest[n..] == written + rest
  {
    assert rest == rest[..n] + rest[n..];
  }

  lemma FailedDelivered(s: State, to: Stream)
    requires Placed(s) && Delivered(s, to) && MayPump(s, WriteFailed)
    ensures Delivered(Pump(s, WriteFailed), to)
  {
    if Has(s, to) {
      SubsequencePrefix(Written(s, to), Left(s, to), Routed(s.taken, to));
      assert Written(s, to) + [] == Written(s, to);
    }
  }

  lemma GoodKept(s: State, e: Event)
    requires Good(s) && Enabled(s, e)
    ensures Good(Apply(s, e)) && SameDescriptors(s, Apply(s, e))
  {
    hide Start, Tell, Supervise, Pump, Feed, Peer, Good;
    match e
    case Starts(step) => StartKeeps(s, step);
    case Tells(step) => TellKeeps(s, step);
    case Supervises(step) => SuperviseKeeps(s, step);
    case Pumps(step) => PumpKeeps(s, step);
    case Feeds(step) => FeedKeeps(s, step);
    case Peers(to, door) => PeerKeeps(s, to, door);
  }

  lemma PeerKeeps(s: State, to: Stream, door: Door)
    requires Good(s)
    ensures Good(Peer(s, to, door)) && SameDescriptors(s, Peer(s, to, door))
  {
    hide Kept, Delivered, Reported, Placed, Peer;
    PeerSteps(s, to, door);
    var s' := Peer(s, to, door);
    DoorsOnly(s, s'.outDoor, s'.errDoor);
    DoorsDelivered(s, s'.outDoor, s'.errDoor, Stdout);
    DoorsDelivered(s, s'.outDoor, s'.errDoor, Stderr);
  }

  /** Whoever is at the other end moves nothing of the proxy's. */
  lemma PeerSteps(s: State, to: Stream, door: Door)
    ensures var s' := Peer(s, to, door);
      && s' == s.(outDoor := s'.outDoor, errDoor := s'.errDoor)
      && forall other | Target(other) == other && other != Target(to) :: DoorOf(s', other) == DoorOf(s, other)
  {
  }

  lemma DoorsOnly(s: State, outDoor: Door, errDoor: Door)
    requires Placed(s) && Kept(s) && Reported(s)
    ensures var s' := s.(outDoor := outDoor, errDoor := errDoor);
      Placed(s') && Kept(s') && Reported(s') && SameDescriptors(s, s')
  {
    hide Told;
  }

  lemma DoorsDelivered(s: State, outDoor: Door, errDoor: Door, to: Stream)
    requires Delivered(s, to)
    ensures Delivered(s.(outDoor := outDoor, errDoor := errDoor), to)
  {
    hide Subsequence, Routed;
  }

  /** What every step of every thread keeps, every run keeps. */
  lemma {:induction false} RunKeepsGood(s: State, es: seq<Event>)
    requires Good(s) && Possible(s, es)
    ensures Good(After(s, es))
    ensures After(s, es).hasOut == s.hasOut && After(s, es).hasErr == s.hasErr
    decreases |es|
  {
    hide Good, Apply, Enabled;
    if es != [] {
      GoodKept(s, es[0]);
      RunKeepsGood(Apply(s, es[0]), es[1..]);
    }
  }

  /** What the target says in a run before its first end marker, by stream: to standard error with why
      the command could not be run, or to anything else. */
  function SaidFor(es: seq<Event>, error: bool): Bytes {
    if es == [] then []
    else match es[0]
      case Tells(Output(stream, data)) =>
        (if stream == Stderr then (if error then data else []) else if error then [] else data) + SaidFor(es[1..], error)
      case Tells(ExitSaid(Refused(_, message))) => (if error then message else []) + SaidFor(es[1..], error)
      case Tells(ExitMarked) => []
      case Supervises(Abandon) => []
      case _ => SaidFor(es[1..], error)
  }

  /** What a step says, of one stream. */
  function SaidBy(e: Event, error: bool): Bytes {
    match e
    case Tells(Output(stream, data)) => if stream == Stderr then (if error then data else []) else if error then [] else data
    case Tells(ExitSaid(Refused(_, message))) => if error then message else []
    case _ => []
  }

  predicate Marks(e: Event) {
    e == Tells(ExitMarked) || e == Supervises(Abandon)
  }

  /** What is queued is what has been said, up to the first end marker. */
  lemma {:induction false} QueuedSaid(s: State, es: seq<Event>, error: bool)
    requires Possible(s, es)
    ensures DataOf(After(s, es).queued, error) == DataOf(s.queued, error) + (if End in s.queued then [] else SaidFor(es, error))
    decreases |es|
  {
    hide Enabled, Apply, DataOf;
    if es == [] {
      assert DataOf(s.queued, error) + [] == DataOf(s.queued, error);
    } else {
      QueuedStep(s, es[0], error);
      SaidForFirst(es, error);
      QueuedSaid(Apply(s, es[0]), es[1..], error);
      Associates(DataOf(s.queued, error), SaidBy(es[0], error), SaidFor(es[1..], error));
      hide SaidFor, SaidBy;
      assert SaidBy(es[0], error) + [] == SaidBy(es[0], error);
      assert DataOf(s.queued, error) + [] == DataOf(s.queued, error);
    }
  }

  lemma SaidForFirst(es: seq<Event>, error: bool)
    requires es != []
    ensures SaidFor(es, error) == if Marks(es[0]) then [] else SaidBy(es[0], error) + SaidFor(es[1..], error)
  {
    assert [] + SaidFor(es[1..], error) == SaidFor(es[1..], error);
  }

  /** What a step queues. */
  function ItemsOf(e: Event): seq<Item> {
    match e
    case Tells(Output(stream, data)) => [Chunk(stream, data)]
    case Tells(ExitSaid(Refused(_, message))) => [Chunk(Stderr, message)]
    case Tells(ExitMarked) => [End]
    case Supervises(Abandon) => [End]
    case _ => []
  }

  lemma QueuedStep(s: State, e: Event, error: bool)
    requires Enabled(s, e)
    ensures var s' := Apply(s, e);
      && DataOf(s'.queued, error) == DataOf(s.queued, error) + (if End in s.queued then [] else SaidBy(e, error))
      && (End in s'.queued <==> End in s.queued || Marks(e))
  {
    hide Apply, Enabled, DataOf, ItemsOf, SaidBy, Marks;
    ItemsQueued(s, e);
    ItemsSay(e, error);
    QueuesMore(s.queued, ItemsOf(e), error);
  }

  lemma ItemsSay(e: Event, error: bool)
    ensures DataOf(ItemsOf(e), error) == SaidBy(e, error) && (End in ItemsOf(e) <==> Marks(e))
  {
    match e
    case Tells(Output(stream, data)) => OneSaid(stream, data, error);
    case Tells(ExitSaid(Refused(_, message))) => OneSaid(Stderr, message, error);
    case _ =>
  }

  lemma ItemsQueued(s: State, e: Event)
    requires Enabled(s, e)
    ensures Apply(s, e).queued == s.queued + ItemsOf(e)
  {
    hide Start, Pump, Feed, Peer, Tell, Supervise;
    assert s.queued + [] == s.queued;
    match e
    case Tells(step) => TellItems(s, step);
    case Supervises(step) => SuperviseItems(s, step);
    case Starts(step) => StartQueues(s, step);
    case Pumps(step) => PumpQueues(s, step);
    case Feeds(step) => FeedSteps(s, step);
    case Peers(to, door) => PeerSteps(s, to, door);
  }

  lemma TellItems(s: State, step: TellStep)
    ensures Tell(s, step).queued == s.queued + ItemsOf(Tells(step))
  {
    hide Put, Said;
    match step
    case Output(stream, data) =>
    case ExitSaid(exit) => assert s.queued + [] == s.queued;
    case ExitMarked =>
  }

  lemma SuperviseItems(s: State, step: SupervisorStep)
    ensures Supervise(s, step).queued == s.queued + ItemsOf(Supervises(step))
  {
    hide Abandoned;
    assert s.queued + [] == s.queued;
  }

  lemma StartQueues(s: State, step: StartStep)
    ensures Start(s, step).queued == s.queued
  {
  }

  lemma PumpQueues(s: State, step: PumpStep)
    requires MayPump(s, step)
    ensures Pump(s, step).queued == s.queued
  {
    if !step.Finished? {
      PumpLeaves(s, step);
    }
  }

  /** Queueing more says what more of it there is before an end marker. */
  lemma QueuesMore(queued: seq<Item>, items: seq<Item>, error: bool)
    ensures DataOf(queued + items, error)
            == DataOf(queued, error) + (if End in queued then [] else DataOf(items, error))
    ensures queued + [] == queued && DataOf([], error) == []
  {
    var to := if error then Stderr else Stdout;
    RoutedApart(queued);
    RoutedApart(items);
    RoutedApart(queued + items);
    assert DataOf(queued, error) + [] == DataOf(queued, error);
    if End in queued {
      RoutedStops(queued, items, to);
    } else {
      RoutedThen(queued, items, to);
    }
  }

  lemma OneSaid(stream: Stream, data: Bytes, error: bool)
    ensures DataOf([Chunk(stream, data)], error) == SaidBy(Tells(Output(stream, data)), error)
  {
    assert [Chunk(stream, data)][1..] == [];
    assert DataOf([], error) == [];
    assert data + [] == data;
  }

  /** What the state notes of a run is what happened in it. */
  lemma {:induction false} NotedIn(s: State, es: seq<Event>)
    requires Possible(s, es)
    ensures After(s, es).dropped ==> s.dropped || Pumps(WriteFailed) in es
    ensures After(s, es).abandoned ==> s.abandoned || Supervises(Abandon) in es
    ensures After(s, es).unjoined ==> s.unjoined || Pumps(JoinTimedOut) in es || Pumps(JoinSkipped) in es
    decreases |es|
  {
    hide Enabled, Apply;
    if es != [] {
      NotedStep(s, es[0]);
      NotedIn(Apply(s, es[0]), es[1..]);
      assert es == [es[0]] + es[1..];
    }
  }

  lemma NotedStep(s: State, e: Event)
    requires Enabled(s, e)
    ensures Apply(s, e).dropped ==> s.dropped || e == Pumps(WriteFailed)
    ensures Apply(s, e).abandoned ==> s.abandoned || e == Supervises(Abandon)
    ensures Apply(s, e).unjoined ==> s.unjoined || e == Pumps(JoinTimedOut) || e == Pumps(JoinSkipped)
  {
    hide Start, Pump, Feed, Peer, Tell;
    match e
    case Starts(step) => StartNotes(s, step);
    case Pumps(step) => PumpNotes(s, step);
    case Feeds(step) => FeedSteps(s, step);
    case Peers(to, door) => PeerSteps(s, to, door);
    case Tells(step) => TellNotes(s, step);
    case Supervises(step) =>
  }

  lemma StartNotes(s: State, step: StartStep)
    ensures Start(s, step).dropped == s.dropped && Start(s, step).abandoned == s.abandoned && Start(s, step).unjoined == s.unjoined
  {
  }

  lemma TellNotes(s: State, step: TellStep)
    ensures Tell(s, step).dropped == s.dropped && Tell(s, step).abandoned == s.abandoned && Tell(s, step).unjoined == s.unjoined
  {
  }

  lemma PumpNotes(s: State, step: PumpStep)
    requires MayPump(s, step)
    ensures Pump(s, step).abandoned == s.abandoned
    ensures Pump(s, step).dropped ==> s.dropped || step == WriteFailed
    ensures Pump(s, step).unjoined ==> s.unjoined || step == JoinTimedOut || step == JoinSkipped
  {
    hide Taking, Accepting;
    if step.Got? {
      TakingLeaves(s);
    } else if step.Accepted? {
      AcceptingLeaves(s, step.n);
    }
  }

  /** What a run from a fresh proxy comes to: it is finished at most once, and never where its
      start failed; by then every byte said before the first end marker has been written, what was
      said to standard error there and everything else to standard output, in order, unless a write
      failed; without `abandon` what is handed over is what the exit said; and the descriptors are
      closed exactly once. */
  lemma FinishesOnce(hasIn: bool, hasOut: bool, hasErr: bool, outDoor: Door, errDoor: Door, es: seq<Event>)
    requires Possible(Init(hasIn, hasOut, hasErr, outDoor, errDoor), es)
    ensures var s := After(Init(hasIn, hasOut, hasErr, outDoor, errDoor), es);
      && |s.finishes| <= 1
      && (s.starter == Failed ==> s.finishes == [] && s.closes == 1 && s.out1 == s.err1 == [])
      && s.closes <= 1
      && (s.finishes != [] ==>
            && s.closes == 1
            && (hasOut && !s.dropped ==> s.out1 == Routed(s.queued, Stdout))
            && (hasErr && !s.dropped ==> s.err1 == Routed(s.queued, Stderr))
            && (!s.abandoned ==> s.exit.Some? && s.finishes == [Told(UNSAID, s.exit.value)]))
      && (hasOut ==> Subsequence(s.out1, Routed(s.queued, Stdout)))
      && (hasErr ==> Subsequence(s.err1, Routed(s.queued, Stderr)))
    // The same of what was said in the run, and of what happened in it.
    ensures var s := After(Init(hasIn, hasOut, hasErr, outDoor, errDoor), es);
      && (s.finishes != [] ==>
            && (hasOut && Pumps(WriteFailed) !in es ==> s.out1 == SaidFor(es, false))
            && (hasErr && Pumps(WriteFailed) !in es ==> s.err1 == SaidFor(es, true))
            && (Supervises(Abandon) !in es ==>
                  exists exit :: SaidIn(es, exit) && s.finishes == [Told(UNSAID, exit)]))
      && (hasOut ==> Subsequence(s.out1, SaidFor(es, false))) && (!hasOut ==> s.out1 == [])
      && (hasErr ==> Subsequence(s.err1, SaidFor(es, true))) && (!hasErr ==> s.err1 == [])
  {
    EverythingSaid(hasIn, hasOut, hasErr, outDoor, errDoor, es);
    var s := After(Init(hasIn, hasOut, hasErr, outDoor, errDoor), es);
    assert Good(Init(hasIn, hasOut, hasErr, outDoor, errDoor));
    RunKeepsGood(Init(hasIn, hasOut, hasErr, outDoor, errDoor), es);
    RoutedOfTaken(s, Stdout);
    RoutedOfTaken(s, Stderr);
    if s.finishes != [] {
      assert s.queued[|s.taken| - 1] == End;
    }
    if s.starter == Failed {
      NothingTaken(s, Stdout);
      NothingTaken(s, Stderr);
    }
  }

  lemma EverythingSaid(hasIn: bool, hasOut: bool, hasErr: bool, outDoor: Door, errDoor: Door, es: seq<Event>)
    requires Possible(Init(hasIn, hasOut, hasErr, outDoor, errDoor), es)
    ensures var s := After(Init(hasIn, hasOut, hasErr, outDoor, errDoor), es);
      && Routed(s.queued, Stdout) == SaidFor(es, false) && Routed(s.queued, Stderr) == SaidFor(es, true)
      && (Pumps(WriteFailed) !in es ==> !s.dropped) && (Supervises(Abandon) !in es ==> !s.abandoned)
      && (s.exit.Some? ==> SaidIn(es, s.exit.value))
      && (!hasOut ==> s.out1 == []) && (!hasErr ==> s.err1 == [])
  {
    hide Good, Possible, After, SaidFor, Routed, DataOf, SaidIn;
    var s0 := Init(hasIn, hasOut, hasErr, outDoor, errDoor);
    var s := After(s0, es);
    InitGood(hasIn, hasOut, hasErr, outDoor, errDoor);
    RunKeepsGood(s0, es);
    GoodWrites(s);
    ExitOf(s0, es);
    NotedIn(s0, es);
    NothingQueued();
    QueuedSaid(s0, es, true);
    QueuedSaid(s0, es, false);
    RoutedApart(s.queued);
    assert [] + SaidFor(es, true) == SaidFor(es, true) && [] + SaidFor(es, false) == SaidFor(es, false);
  }

  lemma NothingQueued()
    ensures DataOf([], true) == [] && DataOf([], false) == []
  {
  }

  lemma GoodWrites(s: State)
    requires Good(s)
    ensures (!s.hasOut ==> s.out1 == []) && (!s.hasErr ==> s.err1 == [])
  {
    hide Subsequence, Routed, Placed, Kept, Reported;
  }

  lemma NothingTaken(s: State, to: Stream)
    requires Delivered(s, to) && s.taken == []
    ensures Written(s, to) == []
  {
    assert Routed([], to) == [];
  }

  /** What has been taken is a prefix of what is ever written, and all of it from the first end
      marker on. */
  lemma RoutedOfTaken(s: State, to: Stream)
    requires Good(s) && Target(to) == to
    ensures Has(s, to) ==> Subsequence(Written(s, to), Routed(s.queued, to))
    ensures Has(s, to) && Finishing(s.out) && !s.dropped ==> Written(s, to) == Routed(s.queued, to)
  {
    hide Subsequence, Routed;
    if Finishing(s.out) {
      assert s.taken[|s.taken| - 1] in s.taken;
      RoutedStops(s.taken, s.p.outbox, to);
      assert Written(s, to) + [] == Written(s, to);
    } else if Has(s, to) {
      RoutedThen(s.taken, s.p.outbox, to);
      var left, more := Left(s, to), Routed(s.p.outbox, to);
      SubsequenceAppend(Written(s, to) + left, Routed(s.taken, to), more);
      assert Written(s, to) + left + more == Written(s, to) + (left + more);
      SubsequencePrefix(Written(s, to), left + more, Routed(s.queued, to));
    }
  }

  /** The exits said in a run. */
  predicate SaidIn(es: seq<Event>, exit: Exit) {
    Tells(ExitSaid(exit)) in es
  }

  /** At most one exit is said in a run, and it is the one the proxy holds. */
  lemma {:induction false} ExitOf(s: State, es: seq<Event>)
    requires Good(s) && Possible(s, es)
    ensures s.exit.Some? ==> After(s, es).exit == s.exit
    ensures forall exit | SaidIn(es, exit) :: s.exit == None && After(s, es).exit == Some(exit)
    ensures s.exit == None && After(s, es).exit.Some? ==> SaidIn(es, After(s, es).exit.value)
    decreases |es|
  {
    hide Good, Enabled, Apply;
    if es != [] {
      GoodKept(s, es[0]);
      ExitStep(s, es[0]);
      ExitOf(Apply(s, es[0]), es[1..]);
      assert es == [es[0]] + es[1..];
      forall exit | SaidIn(es, exit) ensures s.exit == None && After(s, es).exit == Some(exit) {
        assert SaidIn(es[1..], exit) || es[0] == Tells(ExitSaid(exit));
      }
    }
  }

  lemma ExitStep(s: State, e: Event)
    requires Good(s) && Enabled(s, e)
    ensures Apply(s, e).exit == if e.Tells? && e.tell.ExitSaid? then Some(e.tell.exit) else s.exit
    ensures e.Tells? && e.tell.ExitSaid? ==> s.exit == None
  {
    hide Pump, Start, Supervise, Feed, Peer, Tell, Delivered, Kept, Placed;
    match e
    case Pumps(step) => PumpExit(s, step);
    case Starts(step) => StartExit(s, step);
    case Supervises(step) => SuperviseExit(s, step);
    case Feeds(step) => FeedSteps(s, step);
    case Peers(to, door) => PeerSteps(s, to, door);
    case Tells(step) => TellExit(s, step);
  }

  lemma StartExit(s: State, step: StartStep)
    ensures Start(s, step).exit == s.exit
  {
  }

  lemma SuperviseExit(s: State, step: SupervisorStep)
    ensures Supervise(s, step).exit == s.exit
  {
  }

  lemma TellExit(s: State, step: TellStep)
    ensures Tell(s, step).exit == if step.ExitSaid? then Some(step.exit) else s.exit
  {
  }

  lemma PumpExit(s: State, step: PumpStep)
    requires MayPump(s, step)
    ensures Pump(s, step).exit == s.exit
  {
    hide Taking, Accepting;
    if step.Got? {
      TakingLeaves(s);
    } else if step.Accepted? {
      AcceptingLeaves(s, step.n);
    }
  }

  /** What the agent is told of a command, in every run: what the one exit said in it comes to as a
      shell tells it -- a signal before a code, and why it could not be run -- or 1, which only a
      proxy abandoned before it heard is told without any. */
  lemma AgentTold(hasIn: bool, hasOut: bool, hasErr: bool, outDoor: Door, errDoor: Door, es: seq<Event>)
    requires Possible(Init(hasIn, hasOut, hasErr, outDoor, errDoor), es)
    requires After(Init(hasIn, hasOut, hasErr, outDoor, errDoor), es).finishes != []
    ensures var s := After(Init(hasIn, hasOut, hasErr, outDoor, errDoor), es);
      var status := WaitStatus(s.finishes[0]);
      && (forall a, b | SaidIn(es, a) && SaidIn(es, b) :: a == b)
      && (!s.abandoned ==> exists exit :: SaidIn(es, exit))
      && (forall exit | SaidIn(es, exit) ::
            || (s.abandoned && status == 1)
            || status == match exit
                 case Exited(code, signal) => if signal.Some? then 128 + signal.value else if code.Some? then code.value else 1
                 case Refused(missing, _) => if missing then 127 else 126
                 case Silent => 1)
      && ((forall exit :: !SaidIn(es, exit)) ==> s.abandoned && status == 1)
  {
    hide SaidIn;
    var s0 := Init(hasIn, hasOut, hasErr, outDoor, errDoor);
    var s := After(s0, es);
    InitGood(hasIn, hasOut, hasErr, outDoor, errDoor);
    RunKeepsGood(s0, es);
    ExitOf(s0, es);
    FinishedWith(s);
    if s.exit.Some? {
      ToldAsShell(s.exit.value);
    }
  }

  lemma FinishedWith(s: State)
    requires Good(s) && s.finishes != []
    ensures s.finishes[0] == UNSAID || (s.exit.Some? && s.finishes[0] == Told(UNSAID, s.exit.value))
    ensures !s.abandoned ==> s.exit.Some? && s.finishes[0] == Told(UNSAID, s.exit.value)
  {
    assert s.finishes[0] in s.finishes;
    assert s.taken[|s.taken| - 1] in s.queued;
  }

  /** Whether a step writes to one of the descriptors. */
  predicate Writes(e: Event) {
    e.Pumps? && (e.pump.Accepted? || e.pump.WriteFailed?)
  }

  /** No run writes to a descriptor once it is closed, or finished; and none whose output pump
      waited for the stdin pump to be done reads one. */
  lemma NeverUsedOnceClosed(hasIn: bool, hasOut: bool, hasErr: bool, outDoor: Door, errDoor: Door, es: seq<Event>, e: Event)
    requires Possible(Init(hasIn, hasOut, hasErr, outDoor, errDoor), es)
    requires Enabled(After(Init(hasIn, hasOut, hasErr, outDoor, errDoor), es), e)
    ensures var s := After(Init(hasIn, hasOut, hasErr, outDoor, errDoor), es);
      && (Writes(e) ==> s.closes == 0 && s.finishes == [])
      && (e.Feeds? && e.feed.InRead? && !s.unjoined ==> s.closes == 0)
      && (e.Feeds? && e.feed.InRead? && Pumps(JoinTimedOut) !in es && Pumps(JoinSkipped) !in es ==> s.closes == 0)
  {
    NotedIn(Init(hasIn, hasOut, hasErr, outDoor, errDoor), es);
    assert Good(Init(hasIn, hasOut, hasErr, outDoor, errDoor));
    RunKeepsGood(Init(hasIn, hasOut, hasErr, outDoor, errDoor), es);
  }

  /** Whether some run from here that never abandons nor takes one given step comes to the stdin
      pump reading its descriptor once it is closed. */
  ghost predicate CanReadClosed(s: State, without: Event) {
    exists es ::
      && Possible(s, es) && without !in es && Supervises(Abandon) !in es
      && Enabled(After(s, es), Feeds(InRead(true))) && After(s, es).closes > 0
  }

  lemma Step(s: State, e: Event, without: Event)
    requires Enabled(s, e) && e != without && e != Supervises(Abandon) && CanReadClosed(Apply(s, e), without)
    ensures CanReadClosed(s, without)
  {
    var es :| Possible(Apply(s, e), es) && without !in es && Supervises(Abandon) !in es
              && Enabled(After(Apply(s, e), es), Feeds(InRead(true))) && After(Apply(s, e), es).closes > 0;
    assert ([e] + es)[1..] == es;
    assert Possible(s, [e] + es);
  }

  /** From a stdin pump about to read while the output pump, an end marker queued, is at its
      own: either way the join is not made, what is read is closed. */
  lemma CanFromReading(s: State, unjoined: Event, without: Event)
    requires s.inp == Reading && s.out == Getting && s.p.outbox == [End] && s.closes == 0
    requires unjoined == Pumps(if s.p.joinable then JoinTimedOut else JoinSkipped)
    requires without !in {Pumps(Got), Pumps(StopSet), Pumps(Closed), unjoined}
    ensures CanReadClosed(s, without)
  {
    var s1 := Apply(s, Pumps(Got));
    CanFromJoining(Apply(s1, Pumps(StopSet)), unjoined, without);
    Step(s1, Pumps(StopSet), without);
    Step(s, Pumps(Got), without);
  }

  lemma CanFromJoining(s: State, unjoined: Event, without: Event)
    requires s.inp == Reading && s.out == Joining
    requires unjoined == Pumps(if s.p.joinable then JoinTimedOut else JoinSkipped)
    requires without !in {Pumps(Closed), unjoined}
    ensures CanReadClosed(s, without)
  {
    var s1 := Apply(s, unjoined);
    var s2 := Apply(s1, Pumps(Closed));
    assert Possible(s2, []) && After(s2, []) == s2;
    assert CanReadClosed(s2, without);
    Step(s1, Pumps(Closed), without);
    Step(s, unjoined, without);
  }

  /** Whether some run from here comes to the stdin pump reading its descriptor once it is closed. */
  ghost predicate ComesToReadClosed(s: State) {
    exists es :: Possible(s, es) && ReadingClosed(After(s, es))
  }

  predicate ReadingClosed(s: State) {
    Enabled(s, Feeds(InRead(true))) && s.closes > 0
  }

  /** Told to stop and not at its read, the stdin pump never reads again. */
  lemma {:induction false} ReadsNoMore(s: State, es: seq<Event>)
    requires s.p.stop && s.inp != Reading && Possible(s, es)
    ensures After(s, es).inp != Reading
    decreases |es|
  {
    hide Enabled, Apply;
    if es != [] {
      StopStays(s, es[0]);
      ReadsNoMore(Apply(s, es[0]), es[1..]);
    }
  }

  lemma StopStays(s: State, e: Event)
    requires s.p.stop && s.inp != Reading && Enabled(s, e)
    ensures Apply(s, e).p.stop && Apply(s, e).inp != Reading
  {
    hide Start, Tell, Supervise, Pump, Peer, MayStart, MayPump;
    match e
    case Starts(step) => StartStops(s, step);
    case Tells(step) => TellQueues(s, step);
    case Supervises(step) => SuperviseQueues(s, step);
    case Pumps(step) => PumpStops(s, step);
    case Feeds(_) =>
    case Peers(to, door) => PeerSteps(s, to, door);
  }

  lemma StartStops(s: State, step: StartStep)
    ensures Start(s, step).p.stop == s.p.stop
    ensures Start(s, step).inp == Reading ==> s.inp == Reading
  {
    match step
    case StartFailed =>
    case StartAsked =>
    case OutSpawned =>
    case InSpawned =>
    case StartDone =>
  }

  lemma PumpStops(s: State, step: PumpStep)
    requires MayPump(s, step)
    ensures (s.p.stop ==> Pump(s, step).p.stop) && Pump(s, step).inp == s.inp
  {
    hide Pump, Taking, Accepting, Finishing;
    PumpIs(s, step);
    if step.Got? {
      TakingLeaves(s);
    } else if step.Accepted? {
      AcceptingLeaves(s, step.n);
    }
  }

  lemma ReadsAfter(s: State, e: Event)
    requires Enabled(s, e) && ComesToReadClosed(Apply(s, e))
    ensures ComesToReadClosed(s)
  {
    hide Enabled, Apply, ReadingClosed;
    var es :| Possible(Apply(s, e), es) && ReadingClosed(After(Apply(s, e), es));
    assert ([e] + es)[1..] == es;
    assert Possible(s, [e] + es);
  }

  lemma ReadsAtOnce(s: State)
    requires ReadingClosed(s)
    ensures ComesToReadClosed(s)
  {
    assert Possible(s, []) && After(s, []) == s;
  }

  /** Caught at its read, the stdin pump may be overtaken: the join gives up or is not made, and the
      descriptors are closed. */
  lemma ReadingIsOvertaken(s: State)
    requires Placed(s) && PastStop(s.out) && s.inp == Reading
    ensures ComesToReadClosed(s)
  {
    hide ComesToReadClosed;
    if s.out == Joining {
      var unjoined := Pumps(if s.p.joinable then JoinTimedOut else JoinSkipped);
      var s1 := Apply(s, unjoined);
      ReadsAtOnce(Apply(s1, Pumps(Closed)));
      ReadsAfter(s1, Pumps(Closed));
      ReadsAfter(s, unjoined);
    } else if s.out == Closing {
      ReadsAtOnce(Apply(s, Pumps(Closed)));
      ReadsAfter(s, Pumps(Closed));
    } else {
      ReadsAtOnce(s);
    }
  }

  /** Once the output pump has told the others to stop, in any run at all: the stdin pump may yet read
      a closed descriptor exactly where it is between its last look at that and its read. */
  lemma ReadsClosedExactly(hasIn: bool, hasOut: bool, hasErr: bool, outDoor: Door, errDoor: Door, es: seq<Event>)
    requires Possible(Init(hasIn, hasOut, hasErr, outDoor, errDoor), es)
    requires PastStop(After(Init(hasIn, hasOut, hasErr, outDoor, errDoor), es).out)
    ensures var s := After(Init(hasIn, hasOut, hasErr, outDoor, errDoor), es);
      ComesToReadClosed(s) <==> s.inp == Reading
  {
    hide Good;
    var s := After(Init(hasIn, hasOut, hasErr, outDoor, errDoor), es);
    InitGood(hasIn, hasOut, hasErr, outDoor, errDoor);
    RunKeepsGood(Init(hasIn, hasOut, hasErr, outDoor, errDoor), es);
    GoodIsPlaced(s);
    if s.inp == Reading {
      ReadingIsOvertaken(s);
    } else if ComesToReadClosed(s) {
      var more :| Possible(s, more) && ReadingClosed(After(s, more));
      ReadsNoMore(s, more);
    }
  }

  /** That may come about in either way the wait for the stdin pump is not made: `start` names its
      thread only once it has spawned both, so an output pump through before that waits for nothing,
      and one that waits gives up in time. Neither alone is enough, as `ReadsClosedExactly` says. */
  lemma ReadsClosedWhereUnjoined(slow: bool)
    ensures CanReadClosed(Init(true, true, true, Open(0), Open(0)), Pumps(if slow then JoinTimedOut else JoinSkipped))
  {
    var without := Pumps(if slow then JoinTimedOut else JoinSkipped);
    var s0 := Init(true, true, true, Open(0), Open(0));
    var s1 := Apply(s0, Starts(StartAsked));
    var s2 := Apply(s1, Tells(ExitSaid(Silent)));
    var s3 := Apply(s2, Tells(ExitMarked));
    var s4 := Apply(s3, Starts(OutSpawned));
    var s5 := Apply(s4, Starts(InSpawned));
    var s6 := if slow then s5 else Apply(s5, Starts(StartDone));
    CanFromReading(Apply(s6, Feeds(InReady)), Pumps(if slow then JoinSkipped else JoinTimedOut), without);
    Step(s6, Feeds(InReady), without);
    if !slow {
      Step(s5, Starts(StartDone), without);
    }
    Step(s4, Starts(InSpawned), without);
    Step(s3, Starts(OutSpawned), without);
    Step(s2, Tells(ExitMarked), without);
    Step(s1, Tells(ExitSaid(Silent)), without);
    Step(s0, Starts(StartAsked), without);
  }

  /** What is queued before an end marker, as the steps writing it may take. */
  function Work(items: seq<Item>): nat {
    if items == [] || items[0].End? then 0 else 2 + |items[0].data| + Work(items[1..])
  }

  /** How many steps the output pump may yet take, an end marker being queued. */
  function Steps(s: State): nat {
    match s.out
    case OutIdle => 6 + Work(s.p.outbox)
    case Getting => 5 + Work(s.p.outbox)
    case Writing(_, rest) => 6 + |rest| + Work(s.p.outbox)
    case Stopping => 4
    case Joining => 3
    case Closing => 2
    case Telling => 1
    case OutDone => 0
  }

  /** Whether the output pump is up and has its end marker, or is past it. */
  predicate Ending(s: State) {
    s.out != OutIdle && (End in s.p.outbox || Finishing(s.out))
  }

  lemma {:induction false} WorkKept(items: seq<Item>, more: seq<Item>)
    requires End in items
    ensures Work(items + more) == Work(items)
    decreases |items|
  {
    assert (items + more)[1..] == items[1..] + more;
    if !items[0].End? {
      WorkKept(items[1..], more);
    }
  }

  /** A step of the pump brings it nearer its end, and nobody else's puts that off. */
  lemma StepsFewer(s: State, e: Event)
    requires Good(s) && Ending(s) && Enabled(s, e)
    ensures Ending(Apply(s, e))
    ensures Steps(Apply(s, e)) <= Steps(s) - (if e.Pumps? then 1 else 0)
  {
    hide Start, Tell, Supervise, Pump, Feed, Peer, Steps, Good, Ending, Placed, MayStart, MayPump, MayFeed;
    GoodIsPlaced(s);
    match e
    case Pumps(step) => PumpSteps(s, step);
    case Starts(step) => StartSteps(s, step);
    case _ => OtherSteps(s, e);
  }

  lemma OtherSteps(s: State, e: Event)
    requires Ending(s) && Enabled(s, e) && !e.Pumps? && !e.Starts?
    ensures Ending(Apply(s, e)) && Steps(Apply(s, e)) == Steps(s)
  {
    hide Tell, Supervise, Feed, Peer, Steps, Ending, MayFeed;
    match e
    case Tells(step) => TellQueues(s, step); QueueingSteps(s, Tell(s, step));
    case Supervises(step) => SuperviseQueues(s, step); QueueingSteps(s, Supervise(s, step));
    case Feeds(step) => FeedSteps(s, step); SameSteps(s, Feed(s, step));
    case Peers(to, door) => PeerSteps(s, to, door); SameSteps(s, Peer(s, to, door));
  }

  lemma SameSteps(s: State, s': State)
    requires s'.p == s.p && s'.out == s.out
    ensures (Ending(s') <==> Ending(s)) && Steps(s') == Steps(s)
  {
  }

  lemma QueueingSteps(s: State, s': State)
    requires Ending(s) && Queueing(s, s')
    ensures Ending(s') && Steps(s') == Steps(s)
  {
    WorkAs(s, s');
  }

  lemma FeedSteps(s: State, step: FeedStep)
    ensures Feed(s, step) == s.(inp := Fed(step))
  {
  }

  lemma StartSteps(s: State, step: StartStep)
    requires Placed(s) && Ending(s) && MayStart(s, step)
    ensures Ending(Start(s, step)) && Steps(Start(s, step)) == Steps(s)
  {
  }

  lemma WorkAs(s: State, s': State)
    requires Ending(s) && s.p.outbox <= s'.p.outbox && s'.out == s.out
    ensures Ending(s') && Steps(s') == Steps(s)
  {
    assert s'.p.outbox == s.p.outbox + s'.p.outbox[|s.p.outbox|..];
    if End in s.p.outbox {
      WorkKept(s.p.outbox, s'.p.outbox[|s.p.outbox|..]);
    }
  }

  lemma PumpSteps(s: State, step: PumpStep)
    requires Placed(s) && Ending(s) && MayPump(s, step)
    ensures Ending(Pump(s, step)) && Steps(Pump(s, step)) < Steps(s)
  {
    if step.Got? {
      TakingSteps(s);
    } else if step.Accepted? {
      AcceptingSteps(s, step.n);
    } else {
      hide Work;
    }
  }

  lemma TakingSteps(s: State)
    requires Placed(s) && Ending(s) && MayPump(s, Got)
    ensures Ending(Taking(s)) && Steps(Taking(s)) < Steps(s)
  {
    assert s.p.outbox == [s.p.outbox[0]] + s.p.outbox[1..];
  }

  lemma AcceptingSteps(s: State, n: nat)
    requires Placed(s) && Ending(s) && MayPump(s, Accepted(n))
    ensures Ending(Accepting(s, n)) && Steps(Accepting(s, n)) < Steps(s)
  {
    hide Work;
  }

  /** Whether it is writing to a descriptor with no room that nobody has gone from: the write
      blocks, whoever abandons it. */
  predicate Blocked(s: State) {
    s.out.Writing? && DoorOf(s, s.out.to) == Open(0)
  }

  /** Until it is finished it has a step of its own to take exactly where it is not blocked: it
      waits for no other thread, but for as long as it must for whoever reads what it writes. */
  lemma NeverStuck(s: State)
    requires Placed(s) && Ending(s) && s.out != OutDone
    ensures (exists step :: MayPump(s, step)) <==> !Blocked(s)
  {
    match s.out
    case Getting => assert MayPump(s, Got);
    case Writing(to, _) =>
      if DoorOf(s, to).Failing? {
        assert MayPump(s, WriteFailed);
      } else if DoorOf(s, to).room > 0 {
        assert MayPump(s, Accepted(1));
      }
    case Stopping => assert MayPump(s, StopSet);
    case Joining => assert MayPump(s, if s.p.joinable then JoinTimedOut else JoinSkipped);
    case Closing => assert MayPump(s, Closed);
    case Telling => assert MayPump(s, Finished);
  }

  /** Whether nobody at the other end of a descriptor does anything. */
  predicate Untouched(es: seq<Event>, to: Stream) {
    forall e | e in es :: !(e.Peers? && e.to == to)
  }

  lemma BlockedStep(s: State, e: Event)
    requires Placed(s) && Blocked(s) && Enabled(s, e) && !(e.Peers? && e.to == s.out.to)
    ensures var s' := Apply(s, e); s'.out == s.out && Blocked(s') && s'.finishes == s.finishes
  {
    hide Start, Tell, Supervise, Pump, Feed, Peer;
    match e
    case Starts(step) => BlockedStart(s, step);
    case Tells(step) => TellQueues(s, step);
    case Supervises(step) => SuperviseQueues(s, step);
    case Feeds(step) => FeedSteps(s, step);
    case Peers(to, door) => PeerSteps(s, to, door);
    case Pumps(_) =>
  }

  lemma BlockedStart(s: State, step: StartStep)
    requires Placed(s) && s.out.Writing? && MayStart(s, step)
    ensures var s' := Start(s, step);
      s'.out == s.out && s'.outDoor == s.outDoor && s'.errDoor == s.errDoor && s'.finishes == s.finishes
  {
  }

  lemma SuperviseQueues(s: State, step: SupervisorStep)
    ensures Queueing(s, Supervise(s, step))
  {
    hide Queue;
    match step
    case Abandon =>
      hide Queueing;
      QueuesOn(s, s.(abandoned := true), Abandoned(s.p), [End]);
    case Signalled(_) =>
  }

  /** Blocked, it stays so for as long as nobody reads or goes, whatever every thread does. */
  lemma {:induction false} BlockedStays(s: State, es: seq<Event>)
    requires Good(s) && Blocked(s) && Possible(s, es) && Untouched(es, s.out.to)
    ensures After(s, es).out == s.out && After(s, es).finishes == s.finishes
    decreases |es|
  {
    hide Good, Enabled, Apply, Blocked;
    if es != [] {
      assert es[0] in es;
      GoodIsPlaced(s);
      BlockedStep(s, es[0]);
      GoodKept(s, es[0]);
      BlockedStays(Apply(s, es[0]), es[1..]);
    }
  }

  lemma InitGood(hasIn: bool, hasOut: bool, hasErr: bool, outDoor: Door, errDoor: Door)
    ensures Good(Init(hasIn, hasOut, hasErr, outDoor, errDoor))
  {
  }

  lemma GoodIsPlaced(s: State)
    requires Good(s)
    ensures Placed(s)
  {
  }

  /** Whether some run comes to a proxy abandoned and never called back about, whatever any of
      its threads then does, until somebody reads what it writes or goes. */
  ghost predicate CanHang(s: State) {
    exists es :: Possible(s, es) && Hung(After(s, es))
  }

  ghost predicate Hung(s: State) {
    && s.abandoned && s.p.stop && End in s.p.outbox && s.out.Writing? && s.finishes == []
    && forall es | Possible(s, es) && Untouched(es, s.out.to) :: After(s, es).finishes == []
  }

  lemma HangStep(s: State, e: Event)
    requires Enabled(s, e) && CanHang(Apply(s, e))
    ensures CanHang(s)
  {
    hide Hung;
    var es :| Possible(Apply(s, e), es) && Hung(After(Apply(s, e), es));
    assert ([e] + es)[1..] == es;
    assert Possible(s, [e] + es);
  }

  lemma HangsBlocked(s: State)
    requires Good(s) && Blocked(s) && s.abandoned && s.p.stop && End in s.p.outbox
    ensures CanHang(s)
  {
    forall es | Possible(s, es) && Untouched(es, s.out.to) ensures After(s, es).finishes == [] {
      BlockedStays(s, es);
    }
    assert Possible(s, []) && After(s, []) == s;
  }

  /** However much room there is to begin with, a command that says one byte more and a reader that
      stops there leave it hanging: abandoned, killed and told to stop, it never calls back. */
  lemma AbandonedHangs(room: nat, byte: Byte)
    ensures CanHang(Init(true, true, true, Open(room), Open(room)))
  {
    hide Good, CanHang;
    var s0 := Init(true, true, true, Open(room), Open(room));
    var data: Bytes := seq(room + 1, i => byte);
    var s1 := Apply(s0, Starts(StartAsked));
    var s2 := Apply(s1, Tells(Output(Stdout, data)));
    var s3 := Apply(s2, Starts(OutSpawned));
    var s4 := Apply(s3, Pumps(Got));
    assert s4.out == Writing(Stdout, data);
    assert data[room..] != [];
    var s5 := if room == 0 then s4 else Apply(s4, Pumps(Accepted(room)));
    var s6 := Apply(s5, Supervises(Abandon));
    assert Good(s0) by { InitGood(true, true, true, Open(room), Open(room)); }
    GoodKept(s0, Starts(StartAsked));
    GoodKept(s1, Tells(Output(Stdout, data)));
    GoodKept(s2, Starts(OutSpawned));
    GoodKept(s3, Pumps(Got));
    if room > 0 {
      GoodKept(s4, Pumps(Accepted(room)));
    }
    GoodKept(s5, Supervises(Abandon));
    HangsBlocked(s6);
    HangStep(s5, Supervises(Abandon));
    if room > 0 {
      HangStep(s4, Pumps(Accepted(room)));
    }
    HangStep(s3, Pumps(Got));
    HangStep(s2, Starts(OutSpawned));
    HangStep(s1, Tells(Output(Stdout, data)));
    HangStep(s0, Starts(StartAsked));
  }

  function Pumped(es: seq<Event>): nat {
    if es == [] then 0 else (if es[0].Pumps? then 1 else 0) + Pumped(es[1..])
  }

  /** Once an end marker is queued the pump is finished within a number of its own steps known
      then, whatever the other threads do in between. */
  lemma {:induction false} FinishesInTime(s: State, es: seq<Event>)
    requires Good(s) && Ending(s) && Possible(s, es)
    ensures Pumped(es) <= Steps(s)
    ensures Pumped(es) == Steps(s) ==> |After(s, es).finishes| == 1
    decreases |es|
  {
    if es == [] {
      assert Steps(s) == 0 ==> s.out == OutDone;
    } else {
      RunKeepsGood(s, es[..1]);
      assert es[..1][1..] == [] && After(s, es[..1]) == Apply(s, es[0]);
      StepsFewer(s, es[0]);
      FinishesInTime(Apply(s, es[0]), es[1..]);
    }
  }
}
