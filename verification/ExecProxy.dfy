/**
 Standing in for a process that runs on the target: what its threads share, and every order
 they may take their steps in. The target's reader thread queues output and one exit; the
 output pump writes what is queued into borrowed descriptors, then stops the stdin pump, closes
 the descriptors and says it is finished; the supervisor may abandon it all at any moment.
 */
module ExecProxy {
  import opened Maybe

  newtype Byte = x: int | 0 <= x < 256

  type Bytes = seq<Byte>

  datatype Stream = Stdout | Stderr | Other

  datatype Item = Chunk(stream: Stream, data: Bytes) | End

  /** The outcome of a command, in the terms of `wait(2)`. */
  datatype Result = Result(exitCode: Option<int>, signal: Option<int>)

  /** What the target says once, of a command that ended or could not be run. */
  datatype Exit = Exited(code: Option<int>, signal: Option<int>) | Refused(missing: bool, message: Bytes) | Silent

  /** What is reported to the agent, as a shell would: the signal first. */
  function WaitStatus(result: Result): int {
    match result.signal
    case Some(number) => 128 + number
    case None => match result.exitCode case Some(code) => code case None => 1
  }

  const UNSAID := Result(Some(1), None)

  /** The result once an exit is said; one that says nothing leaves it as it was. */
  function Told(result: Result, exit: Exit): Result {
    match exit
    case Exited(code, signal) => Result(code, signal)
    case Refused(missing, _) => Result(Some(if missing then 127 else 126), None)
    case Silent => result
  }

  /** What the agent is told of a command, whatever its exit said: how it ended as a shell tells it,
      a signal before a code, and why one could not be run. */
  lemma ToldAsShell(exit: Exit)
    ensures WaitStatus(Told(UNSAID, exit)) ==
      match exit
      case Exited(code, signal) => if signal.Some? then 128 + signal.value else if code.Some? then code.value else 1
      case Refused(missing, _) => if missing then 127 else 126
      case Silent => 1
  {
    match exit
    case Exited(code, signal) => if signal.Some? { assert Told(UNSAID, exit).signal == signal; }
    case _ =>
  }

  /** The fields the threads share. */
  datatype Shared = Shared(
    outbox: seq<Item>, stop: bool, result: Result, handle: bool, joinable: bool, forwarded: set<int>)

  function Put(p: Shared, item: Item): Shared {
    p.(outbox := p.outbox + [item])
  }

  /** An exit said, its end marker yet to be queued: why a command could not be run is written
      to the agent's stderr like any output. */
  function Said(p: Shared, exit: Exit): Shared {
    var queued := if exit.Refused? then Put(p, Chunk(Stderr, exit.message)) else p;
    queued.(result := Told(p.result, exit))
  }

  function Abandoned(p: Shared): Shared {
    Put(p.(stop := true), End)
  }

  /** The descriptor a chunk goes to: stderr's for stderr, stdout's for any other. */
  function Target(stream: Stream): Stream {
    if stream == Stderr then Stderr else Stdout
  }

  /** The bytes of what is queued before the first end marker that go to one descriptor. */
  function Routed(items: seq<Item>, to: Stream): Bytes {
    if items == [] || items[0].End? then []
    else (if Target(items[0].stream) == to then items[0].data else []) + Routed(items[1..], to)
  }

  /** The data queued before the first end marker, by its own stream: what the command wrote to its
      standard error, or everything else it wrote. */
  function DataOf(items: seq<Item>, error: bool): Bytes {
    if items == [] || items[0].End? then []
    else (if items[0].stream == Stderr then (if error then items[0].data else []) else if error then [] else items[0].data)
         + DataOf(items[1..], error)
  }

  /** Standard error goes to standard error, and everything else to standard output. */
  lemma {:induction false} RoutedApart(items: seq<Item>)
    ensures Routed(items, Stderr) == DataOf(items, true) && Routed(items, Stdout) == DataOf(items, false)
  {
    if items != [] && !items[0].End? {
      RoutedApart(items[1..]);
    }
  }

  lemma {:induction false} RoutedThen(items: seq<Item>, more: seq<Item>, to: Stream)
    requires End !in items
    ensures Routed(items + more, to) == Routed(items, to) + Routed(more, to)
    decreases |items|
  {
    if items == [] {
      assert items + more == more;
    } else {
      assert (items + more)[1..] == items[1..] + more;
      RoutedThen(items[1..], more, to);
    }
  }

  /** Nothing queued after an end marker is ever routed. */
  lemma {:induction false} RoutedStops(items: seq<Item>, more: seq<Item>, to: Stream)
    requires End in items
    ensures Routed(items + more, to) == Routed(items, to)
    decreases |items|
  {
    assert (items + more)[1..] == items[1..] + more;
    if !items[0].End? {
      RoutedStops(items[1..], more, to);
    }
  }

  /** The object, its methods as the threads call them. */
  class Proxy {
    var outbox: seq<Item>
    var stop: bool
    var result: Result
    var handle: bool
    var joinable: bool
    var forwarded: set<int>
    var open: bool          // whether it holds the borrowed descriptors
    var told: seq<Result>   // what it has called back with

    constructor ()
      ensures Fields() == Shared([], false, UNSAID, false, false, {}) && open && told == []
    {
      open, told := true, [];
      outbox, stop, result, handle, joinable, forwarded := [], false, UNSAID, false, false, {};
    }

    ghost function Fields(): Shared reads this {
      Shared(outbox, stop, result, handle, joinable, forwarded)
    }

    method OnOutput(stream: Stream, data: Bytes)
      modifies this`outbox
      ensures Fields() == Put(old(Fields()), Chunk(stream, data)) && outbox == old(outbox) + [Chunk(stream, data)]
    {
      outbox := outbox + [Chunk(stream, data)];
    }

    method ReportFailure(missing: bool, message: Bytes)
      modifies this`outbox, this`result
      ensures Fields() == Said(old(Fields()), Refused(missing, message))
      ensures outbox == old(outbox) + [Chunk(Stderr, message)]
      ensures result == Result(Some(if missing then 127 else 126), None)
    {
      outbox := outbox + [Chunk(Stderr, message)];
      result := Result(Some(if missing then 127 else 126), None);
    }

    method OnExit(exit: Exit)
      modifies this`outbox, this`result
      ensures Fields() == Put(Said(old(Fields()), exit), End)
      ensures outbox == old(outbox) + (if exit.Refused? then [Chunk(Stderr, exit.message)] else []) + [End]
      ensures result == match exit
        case Exited(code, signal) => Result(code, signal)
        case Refused(missing, _) => Result(Some(if missing then 127 else 126), None)
        case Silent => old(result)
    {
      match exit {
        case Refused(missing, message) => ReportFailure(missing, message);
        case Exited(code, signal) => result := Result(code, signal);
        case Silent =>
      }
      outbox := outbox + [End];
    }

    /** Kills the command, where one was started, and stops the pumps. */
    method Abandon() returns (killed: bool)
      modifies this`outbox, this`stop
      ensures Fields() == Abandoned(old(Fields())) && killed == handle
      ensures stop && outbox == old(outbox) + [End]
    {
      killed := handle;
      stop := true;
      outbox := outbox + [End];
    }

    /** Relays a signal once, where there is a command to relay it to. */
    method ForwardSignal(number: int) returns (sent: bool)
      modifies this`forwarded
      ensures Fields() == old(Fields()).(forwarded := old(forwarded) + {number})
      ensures sent == (handle && number !in old(forwarded))
    {
      if number in forwarded {
        assert forwarded + {number} == forwarded;
        return false;
      }
      forwarded := forwarded + {number};
      sent := handle;
    }

    /** The output pump: writes what is queued, then tells the stdin pump to stop, lets the borrowed
        descriptors go and calls back with the result, whatever became of any write. */
    method PumpOutput(hasOut: bool, hasErr: bool, room: seq<nat>, most: nat) returns (out: Bytes, err: Bytes,
            ghost end: nat)
      requires End in outbox && |room| == |outbox| && 0 < most
      modifies this`outbox, this`stop, this`open, this`told
      ensures out == if hasOut then DataOf(Cut(old(outbox), room), false) else []
      ensures err == if hasErr then DataOf(Cut(old(outbox), room), true) else []
      ensures FirstAt(old(outbox), end) && Left(old(outbox), end + 1, outbox)
      ensures stop && !open && told == old(told) + [old(result)]
      ensures Fields() == old(Fields()).(outbox := outbox, stop := true)
    {
      out, err, end := Drain(hasOut, hasErr, room, most);
      stop := true;
      open := false;
      told := told + [result];
    }

    /** Its loop, over what is queued: every chunk before the first end marker, in order, into its
        own descriptor, and that marker taken with them. `room` is how much of each chunk its
        descriptor takes before it fails. */
    method Drain(hasOut: bool, hasErr: bool, room: seq<nat>, most: nat) returns (out: Bytes, err: Bytes,
            ghost end: nat)
      requires End in outbox && |room| == |outbox| && 0 < most
      modifies this`outbox
      ensures out == if hasOut then DataOf(Cut(old(outbox), room), false) else []
      ensures err == if hasErr then DataOf(Cut(old(outbox), room), true) else []
      ensures FirstAt(old(outbox), end) && Left(old(outbox), end + 1, outbox)
      ensures Fields() == old(Fields()).(outbox := outbox)
    {
      TargetIs();
      hide Routed, DataOf, Cut, Target, Least, Sent, Pumped, FirstAt, Fields, Left;
      ghost var all := outbox;
      end := FirstEnd(all);
      AllLeft(all);
      LeftNext(all, 0, outbox);
      PumpedNone(all, room, hasOut, Stdout);
      PumpedNone(all, room, hasErr, Stderr);
      out, err := [], [];
      var n := 0;
      var item := Get();
      while item != End
        invariant n <= end && item == all[n] && Left(all, n + 1, outbox)
        invariant Pumped(all, room, n, hasOut, Stdout, out) && Pumped(all, room, n, hasErr, Stderr, err)
        invariant Fields() == old(Fields()).(outbox := outbox)
        decreases end - n
      {
        LeftNext(all, n + 1, outbox);
        var toOut, toErr := Deliver(item.stream, item.data, hasOut, hasErr, room[n], most);
        PumpedNext(all, room, n, hasOut, Stdout, out, toOut);
        PumpedNext(all, room, n, hasErr, Stderr, err, toErr);
        out, err := out + toOut, err + toErr;
        n := n + 1;
        item := Get();
      }
      RoutedApart(Cut(all, room));
      PumpedAll(all, room, n, hasOut, Stdout, out);
      PumpedAll(all, room, n, hasErr, Stderr, err);
    }

    /** One chunk written into the descriptor it is for, where there is one. */
    method Deliver(stream: Stream, data: Bytes, hasOut: bool, hasErr: bool, room: nat,
            most: nat) returns (toOut: Bytes, toErr: Bytes)
      requires 0 < most
      ensures toOut == if hasOut && stream != Stderr then data[..Least(|data|, room)] else []
      ensures toErr == if hasErr && stream == Stderr then data[..Least(|data|, room)] else []
    {
      toOut, toErr := [], [];
      if (if Target(stream) == Stderr then hasErr else hasOut) {
        var part := WriteAll(data, room, most);
        if Target(stream) == Stderr {
          toErr := part;
        } else {
          toOut := part;
        }
      }
    }

    method Get() returns (item: Item)
      requires outbox != []
      modifies this`outbox
      ensures item == old(outbox)[0] && outbox == old(outbox)[1..] && Fields() == old(Fields()).(outbox := outbox)
    {
      item := outbox[0];
      outbox := outbox[1..];
    }
  }

  lemma TargetIs()
    ensures forall stream :: (Target(stream) == Stderr <==> stream == Stderr) && (Target(stream) == Stdout <==> stream != Stderr)
  {
  }

  /** Where the first end marker is. */
  predicate FirstAt(items: seq<Item>, n: nat) {
    n < |items| && items[n] == End && forall i | 0 <= i < n :: items[i] != End
  }

  lemma FirstEnd(items: seq<Item>) returns (n: nat)
    requires End in items
    ensures FirstAt(items, n) && n < |items| && items[n] == End
  {
    n := 0;
    while items[n] != End
      invariant n < |items| && (forall i | 0 <= i < n :: items[i] != End) && End in items[n..]
      decreases |items| - n
    {
      assert items[n..] == [items[n]] + items[n + 1..];
      n := n + 1;
    }
  }

  function Least(a: nat, b: nat): nat {
    if a <= b then a else b
  }

  /** What is queued, as much of each chunk as its descriptor takes. */
  function Cut(items: seq<Item>, room: seq<nat>): seq<Item>
    requires |room| == |items|
  {
    seq(|items|, i requires 0 <= i < |items| =>
      if items[i].Chunk? then Chunk(items[i].stream, items[i].data[..Least(|items[i].data|, room[i])]) else End)
  }

  /** The bytes of what is queued before the first end marker that one descriptor takes. */
  function Sent(items: seq<Item>, room: seq<nat>, to: Stream): Bytes
    requires |room| == |items|
    decreases |items|
  {
    if items == [] || items[0].End? then []
    else (if Target(items[0].stream) == to then items[0].data[..Least(|items[0].data|, room[0])] else [])
         + Sent(items[1..], room[1..], to)
  }

  /** What one descriptor has been sent of all that is to be, once so many items are done. */
  predicate Pumped(items: seq<Item>, room: seq<nat>, n: nat, has: bool, to: Stream, sent: Bytes)
    requires |room| == |items| && n <= |items|
  {
    if has then sent + Sent(items[n..], room[n..], to) == Sent(items, room, to) else sent == []
  }

  lemma PumpedNone(items: seq<Item>, room: seq<nat>, has: bool, to: Stream)
    requires |room| == |items|
    ensures Pumped(items, room, 0, has, to, [])
  {
    assert items[0..] == items && room[0..] == room && [] + Sent(items, room, to) == Sent(items, room, to);
  }

  lemma PumpedNext(items: seq<Item>, room: seq<nat>, n: nat, has: bool, to: Stream, sent: Bytes, part: Bytes)
    requires |room| == |items| && n < |items| && items[n].Chunk? && Pumped(items, room, n, has, to, sent)
    requires part == if has && Target(items[n].stream) == to then items[n].data[..Least(|items[n].data|, room[n])] else []
    ensures Pumped(items, room, n + 1, has, to, sent + part)
  {
    hide Target, Least;
    assert items[n..][1..] == items[n + 1..] && room[n..][1..] == room[n + 1..];
    Associates(sent, part, Sent(items[n + 1..], room[n + 1..], to));
  }

  lemma PumpedAll(items: seq<Item>, room: seq<nat>, n: nat, has: bool, to: Stream, sent: Bytes)
    requires |room| == |items| && n < |items| && items[n].End? && Pumped(items, room, n, has, to, sent)
    ensures sent == if has then Routed(Cut(items, room), to) else []
  {
    SentRouted(items, room, to);
    hide Routed, Cut;
    assert sent + [] == sent;
  }

  lemma Associates(a: Bytes, b: Bytes, c: Bytes)
    ensures a + (b + c) == a + b + c
  {
  }

  lemma {:induction false} SentRouted(items: seq<Item>, room: seq<nat>, to: Stream)
    requires |room| == |items|
    ensures Sent(items, room, to) == Routed(Cut(items, room), to)
    decreases |items|
  {
    hide Target, Least;
    if items != [] {
      SentRouted(items[1..], room[1..], to);
      assert Cut(items, room)[1..] == Cut(items[1..], room[1..]);
    }
  }

  /** What is left of what was queued once so many items are taken. */
  predicate Left(all: seq<Item>, n: nat, left: seq<Item>) {
    n <= |all| && left == all[n..]
  }

  lemma AllLeft(all: seq<Item>)
    ensures Left(all, 0, all)
  {
  }

  lemma LeftNext(all: seq<Item>, n: nat, left: seq<Item>)
    requires Left(all, n, left) && n < |all|
    ensures left != [] && left[0] == all[n] && Left(all, n + 1, left[1..])
  {
  }

  /** Writes as much as the descriptor takes, no more than `most` at a time, and drops the rest
      once it fails. `room` is what it takes in all. */
  method WriteAll(data: Bytes, room: nat, most: nat) returns (written: Bytes)
    requires 0 < most
    ensures written == data[..Least(|data|, room)]
  {
    var view, left: nat := data, room;
    written := [];
    while view != []
      invariant |written| <= room && left == room - |written| && written <= data && view == data[|written|..]
      decreases |view|
    {
      if left == 0 {
        return;
      }
      var n := Least(Least(|view|, left), most);
      written := written + view[..n];
      view, left := view[n..], left - n;
    }
  }
}
