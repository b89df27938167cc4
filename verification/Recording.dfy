/**
 A recording made smaller: what a terminal was sent is grouped into frames, and of those only the
 ones that make a difference to what is seen of it are kept. The terminal is any deterministic
 one, a character at a time; what is seen of it is its whole state but for how far it is into
 an escape sequence.
 */
module Recording {

  /** Output, in seconds from the start. */
  datatype Event = Event(moment: real, text: string)

  /** How long after a frame began a piece still goes on it, in seconds. */
  const PIECES: real := 0.03

  const ESC: char := '\U{1B}'
  const BEL: char := '\U{07}'

  predicate Between(s: string, i: nat, j: nat, low: char, high: char) {
    i <= j <= |s| && forall k | i <= k < j :: low <= s[k] <= high
  }

  /** What the pattern takes for an ended sequence: one of three forms at the start of a text. */
  predicate ControlSequence(s: string) {
    && |s| > 1 && s[0] == ESC && s[1] == '['
    && exists i, j | 2 <= i <= j < |s| :: Between(s, 2, i, '0', '?') && Between(s, i, j, ' ', '/') && '@' <= s[j] <= '~'
  }

  predicate SystemCommand(s: string) {
    && |s| > 1 && s[0] == ESC && s[1] == ']'
    && exists i | 2 <= i < |s| ::
         && (forall k | 2 <= k < i :: s[k] != BEL && s[k] != ESC)
         && (s[i] == BEL || (s[i] == ESC && i + 1 < |s| && s[i + 1] == '\\'))
  }

  predicate ShortSequence(s: string) {
    && |s| > 1 && s[0] == ESC
    && exists i | 1 <= i < |s| :: Between(s, 1, i, ' ', '/') && '0' <= s[i] <= '~'
  }

  predicate Whole(s: string) {
    ControlSequence(s) || SystemCommand(s) || ShortSequence(s)
  }

  /** From the last ESC of some text on, or nothing. */
  function Tail(s: string): string {
    if s == [] then ""
    else if Tail(s[1..]) != "" then Tail(s[1..])
    else if s[0] == ESC then s else ""
  }

  /** Whether a piece goes on a frame begun before it: soon after it began, or inside an escape
      sequence of its. */
  predicate Joins(frame: Event, piece: Event) {
    piece.moment - frame.moment < PIECES || (Tail(frame.text) != "" && !Whole(Tail(frame.text)))
  }

  function Framed(frames: seq<Event>, piece: Event): seq<Event> {
    var last := |frames| - 1;
    if frames != [] && Joins(frames[last], piece)
    then frames[..last] + [Event(frames[last].moment, frames[last].text + piece.text)]
    else frames + [piece]
  }

  function Frames(events: seq<Event>): seq<Event> {
    if events == [] then [] else Framed(Frames(events[..|events| - 1]), events[|events| - 1])
  }

  /** A terminal: what a character does to it, what is seen of it, and whether it is outside
      every escape sequence. */
  datatype Terminal<!T(!new), !V> = Terminal(step: (T, char) -> T, look: T -> V, ground: T -> bool)

  function Fed<T(!new), V>(term: Terminal<T, V>, t: T, text: string): T {
    if text == [] then t else Fed(term, term.step(t, text[0]), text[1..])
  }

  /** Outside every escape sequence, what is seen is all there is. */
  ghost predicate Complete<T(!new), V>(term: Terminal<T, V>) {
    forall a, b :: term.ground(a) && term.ground(b) && term.look(a) == term.look(b) ==> a == b
  }

  /** The frames that change what is seen, each over all those before it. */
  function Changes<T(!new), V(==)>(term: Terminal<T, V>, t: T, frames: seq<Event>): seq<Event> {
    if frames == [] then []
    else
      var t' := Fed(term, t, frames[0].text);
      (if term.look(t') != term.look(t) then [frames[0]] else []) + Changes(term, t', frames[1..])
  }

  /** What is kept, with an empty event after it where it would end too early. */
  function Lasting(kept: seq<Event>, events: seq<Event>): seq<Event> {
    if events != [] && (kept == [] || kept[|kept| - 1].moment < events[|events| - 1].moment)
    then kept + [Event(events[|events| - 1].moment, "")]
    else kept
  }

  function Changing<T(!new), V(==)>(term: Terminal<T, V>, t: T, events: seq<Event>): seq<Event> {
    Lasting(Changes(term, t, Frames(events)), events)
  }

  lemma {:induction false} ChangesThen<T(!new), V>(term: Terminal<T, V>, t: T, frames: seq<Event>, frame: Event)
    ensures var before := Fed(term, t, Text(frames));
      Changes(term, t, frames + [frame]) ==
      Changes(term, t, frames) + (if term.look(Fed(term, before, frame.text)) != term.look(before) then [frame] else [])
    decreases |frames|
  {
    if frames == [] {
      assert ([frame])[1..] == [] && frames + [frame] == [frame];
    } else {
      assert (frames + [frame])[1..] == frames[1..] + [frame];
      FedThen(term, t, frames[0].text, Text(frames[1..]));
      ChangesThen(term, Fed(term, t, frames[0].text), frames[1..], frame);
    }
  }

  /** All the text of some events. */
  function Text(events: seq<Event>): string {
    if events == [] then "" else events[0].text + Text(events[1..])
  }

  lemma {:induction false} TextThen(events: seq<Event>, more: seq<Event>)
    ensures Text(events + more) == Text(events) + Text(more)
    decreases |events|
  {
    if events == [] {
      assert events + more == more;
    } else {
      assert (events + more)[1..] == events[1..] + more;
      TextThen(events[1..], more);
    }
  }

  lemma {:induction false} FedThen<T(!new), V>(term: Terminal<T, V>, t: T, text: string, more: string)
    ensures Fed(term, t, text + more) == Fed(term, Fed(term, t, text), more)
    decreases |text|
  {
    if text == [] {
      assert text + more == more;
    } else {
      assert (text + more)[0] == text[0] && (text + more)[1..] == text[1..] + more;
      FedThen(term, term.step(t, text[0]), text[1..], more);
    }
  }

  lemma ChangesNone<T(!new), V>(term: Terminal<T, V>, t: T)
    ensures Changes(term, t, []) == [] && Fed(term, t, Text([])) == t
  {
  }

  lemma FramesThen(events: seq<Event>, i: nat)
    requires i < |events|
    ensures Frames(events[..i + 1]) == Framed(Frames(events[..i]), events[i])
  {
    assert events[..i + 1][..i] == events[..i];
  }

  /** Output in pieces put together into frames. */
  method Frame(events: seq<Event>) returns (frames: seq<Event>)
    ensures frames == Frames(events)
  {
    hide Frames, Tail, Whole;
    frames := [];
    FramesNone();
    for i := 0 to |events|
      invariant frames == Frames(events[..i])
    {
      FramesThen(events, i);
      var piece := events[i];
      if frames != [] {
        var last := frames[|frames| - 1];
        var tail := Tail(last.text);
        if piece.moment - last.moment < PIECES || (tail != "" && !Whole(tail)) {
          frames := frames[..|frames| - 1] + [Event(last.moment, last.text + piece.text)];
          continue;
        }
      }
      frames := frames + [piece];
    }
    assert events[..|events|] == events;
  }

  lemma FramesNone()
    ensures Frames([]) == []
  {
  }

  /** What is kept of some events, made as it is recorded: the frames in one pass, and in
      another those that change what is seen of a terminal fed them all. */
  method Change<T(!new), V(==)>(term: Terminal<T, V>, t: T, events: seq<Event>) returns (kept: seq<Event>)
    ensures kept == Changing(term, t, events)
  {
    hide Changes, Fed, Text, Frames;
    var frames := Frame(events);
    var screen := t;
    kept := [];
    var before := term.look(screen);
    ChangesNone(term, t);
    for i := 0 to |frames|
      invariant screen == Fed(term, t, Text(frames[..i])) && before == term.look(screen)
      invariant kept == Changes(term, t, frames[..i])
    {
      assert frames[..i + 1] == frames[..i] + [frames[i]];
      ChangesThen(term, t, frames[..i], frames[i]);
      TextThen(frames[..i], [frames[i]]);
      FedThen(term, t, Text(frames[..i]), frames[i].text);
      TextOne(frames[i]);
      screen := Fed(term, screen, frames[i].text);
      var after := term.look(screen);
      if after != before {
        kept := kept + [frames[i]];
      }
      before := after;
    }
    assert frames[..|frames|] == frames;
    if events != [] && (kept == [] || kept[|kept| - 1].moment < events[|events| - 1].moment) {
      kept := kept + [Event(events[|events| - 1].moment, "")];
    }
  }

  ghost predicate InOrder(events: seq<Event>) {
    forall i, j | 0 <= i < j < |events| :: events[i].moment <= events[j].moment
  }

  /** A terminal that has played some events up to a moment. */
  function Replay<T(!new), V>(term: Terminal<T, V>, t: T, events: seq<Event>, moment: real): T {
    if events == [] then t
    else Replay(term, if events[0].moment <= moment then Fed(term, t, events[0].text) else t, events[1..], moment)
  }

  /** Outside every escape sequence before and after each of some frames. */
  ghost predicate GroundBetween<T(!new), V>(term: Terminal<T, V>, t: T, frames: seq<Event>)
    decreases |frames|
  {
    term.ground(t) && (frames == [] || GroundBetween(term, Fed(term, t, frames[0].text), frames[1..]))
  }

  lemma {:induction false} ReplayLater<T(!new), V>(term: Terminal<T, V>, t: T, events: seq<Event>, moment: real)
    requires forall e | e in events :: moment < e.moment
    ensures Replay(term, t, events, moment) == t
    decreases |events|
  {
    if events != [] {
      ReplayLater(term, t, events[1..], moment);
    }
  }

  lemma {:induction false} ChangesAmong<T(!new), V>(term: Terminal<T, V>, t: T, frames: seq<Event>)
    ensures forall e | e in Changes(term, t, frames) :: e in frames
    decreases |frames|
  {
    if frames != [] {
      ChangesAmong(term, Fed(term, t, frames[0].text), frames[1..]);
    }
  }

  /** Left out, a frame that changes nothing seen makes no difference to what comes after. */
  lemma {:induction false} ReplayChanges<T(!new), V>(term: Terminal<T, V>, t: T, frames: seq<Event>, moment: real)
    requires Complete(term) && GroundBetween(term, t, frames) && InOrder(frames)
    ensures Replay(term, t, Changes(term, t, frames), moment) == Replay(term, t, frames, moment)
    decreases |frames|
  {
    if frames != [] {
      var t', kept := Fed(term, t, frames[0].text), Changes(term, t, frames);
      if moment < frames[0].moment {
        ChangesAmong(term, t, frames);
        ReplayLater(term, t, frames, moment);
        ReplayLater(term, t, kept, moment);
      } else {
        ReplayChanges(term, t', frames[1..], moment);
        if term.look(t') == term.look(t) {
          assert t' == t && kept == Changes(term, t', frames[1..]);
        } else {
          assert kept[0] == frames[0] && kept[1..] == Changes(term, t', frames[1..]);
        }
      }
    }
  }

  lemma {:induction false} ReplayThen<T(!new), V>(term: Terminal<T, V>, t: T, events: seq<Event>,
          more: seq<Event>, moment: real)
    ensures Replay(term, t, events + more, moment) == Replay(term, Replay(term, t, events, moment), more, moment)
    decreases |events|
  {
    if events == [] {
      assert events + more == more;
    } else {
      assert (events + more)[1..] == events[1..] + more;
      ReplayThen(term, if events[0].moment <= moment then Fed(term, t, events[0].text) else t, events[1..], more, moment);
    }
  }

  lemma FramedInOrder(frames: seq<Event>, piece: Event)
    requires InOrder(frames) && forall f | f in frames :: f.moment <= piece.moment
    ensures InOrder(Framed(frames, piece)) && Framed(frames, piece) != []
    ensures forall f | f in Framed(frames, piece) :: f.moment <= piece.moment
  {
    hide Joins;
    var framed := Framed(frames, piece);
    if |framed| == |frames| {
      assert forall k | 0 <= k < |frames| :: framed[k].moment == frames[k].moment;
    }
  }

  lemma {:induction false} FramesInOrder(events: seq<Event>)
    requires InOrder(events)
    ensures InOrder(Frames(events))
    ensures events != [] ==> Frames(events) != []
    ensures forall f | f in Frames(events) :: f.moment <= events[|events| - 1].moment
    decreases |events|
  {
    if events != [] {
      var before, piece := events[..|events| - 1], events[|events| - 1];
      FramesInOrder(before);
      FramedInOrder(Frames(before), piece);
    }
  }

  /** For any deterministic terminal outside every escape sequence between frames, playing what
      is kept up to any moment comes to the same as playing every frame up to it: what was left
      out is never missed. */
  lemma ReplaysTheSame<T(!new), V>(term: Terminal<T, V>, t: T, events: seq<Event>, moment: real)
    requires Complete(term) && InOrder(events) && GroundBetween(term, t, Frames(events))
    ensures Replay(term, t, Changing(term, t, events), moment) == Replay(term, t, Frames(events), moment)
  {
    FramesInOrder(events);
    ReplayChanges(term, t, Frames(events), moment);
    var kept := Changes(term, t, Frames(events));
    if Changing(term, t, events) != kept {
      ReplayThen(term, t, kept, [Event(events[|events| - 1].moment, "")], moment);
    }
  }

  lemma TextOne(event: Event)
    ensures Text([event]) == event.text
  {
    assert Text([event]) == event.text + "";
  }

  lemma FramedText(frames: seq<Event>, piece: Event)
    ensures Text(Framed(frames, piece)) == Text(frames) + piece.text
  {
    if frames != [] && Joins(frames[|frames| - 1], piece) {
      var first, last := frames[..|frames| - 1], frames[|frames| - 1];
      var joined := Event(last.moment, last.text + piece.text);
      assert frames == first + [last] && Framed(frames, piece) == first + [joined];
      TextThen(first, [last]);
      TextThen(first, [joined]);
      TextOne(last);
      TextOne(joined);
    } else {
      TextThen(frames, [piece]);
      TextOne(piece);
    }
  }

  lemma NoText()
    ensures Text([]) == ""
  {
  }

  /** No text is lost, nor out of its order, in being put together into frames. */
  lemma {:induction false} TextKept(events: seq<Event>)
    ensures Text(Frames(events)) == Text(events)
    decreases |events|
  {
    hide Framed, Text;
    NoText();
    if events != [] {
      var n := |events| - 1;
      TextKept(events[..n]);
      FramedText(Frames(events[..n]), events[n]);
      assert events == events[..n] + [events[n]];
      TextThen(events[..n], [events[n]]);
      TextOne(events[n]);
    }
  }

  // ------------------------------------------------------------- which pieces a frame is

  /** Whether the last ESC of some text begins a sequence the pattern does not call ended: marks from a
      space to `/`, and then a character from `0` to `~`. */
  ghost predicate Unfinished(text: string) {
    exists e :: 0 <= e < |text| && LastEscape(text, e) && forall i | e < i < |text| :: !Ends(text, e, i)
  }

  ghost predicate LastEscape(text: string, e: nat)
    requires e < |text|
  {
    text[e] == '\U{1B}' && forall i | e < i < |text| :: text[i] != '\U{1B}'
  }

  ghost predicate Ends(text: string, e: nat, i: nat)
    requires e < i < |text|
  {
    '0' <= text[i] <= '~' && forall k | e < k < i :: ' ' <= text[k] <= '/'
  }

  /** Whether a piece begins a frame, after one begun with `first` that holds some text so far. */
  ghost predicate BeginsFrame(first: Event, text: string, piece: Event) {
    piece.moment - first.moment >= 0.03 && !Unfinished(text)
  }

  /** Where the run of pieces that begins with the k-th of some ends. */
  function RunEnd(starts: seq<nat>, k: nat, n: nat): nat
    requires k < |starts|
  {
    if k + 1 < |starts| then starts[k + 1] else n
  }

  /** The first `n` pieces cut into runs, one to a frame. */
  ghost predicate CutInto(events: seq<Event>, n: nat, starts: seq<nat>, frames: seq<Event>) {
    && n <= |events| && |starts| == |frames| && (n == 0 <==> starts == []) && (starts != [] ==> starts[0] == 0)
    && (forall k | 0 <= k < |starts| :: starts[k] < RunEnd(starts, k, n) <= n)
    && (forall k | 0 <= k < |starts| :: OneRun(events, starts[k], RunEnd(starts, k, n), frames[k]))
    && (forall k | 0 <= k < |starts| - 1 :: NewFrame(events, starts[k], starts[k + 1]))
  }

  /** A frame stands at the moment of its first piece and holds the text of all of them; none of them but
      the first begins one. */
  ghost predicate OneRun(events: seq<Event>, from: nat, to: nat, frame: Event)
    requires from < to <= |events|
  {
    && frame == Event(events[from].moment, Text(events[from..to]))
    && forall i | from < i < to :: !BeginsFrame(events[from], Text(events[from..i]), events[i])
  }

  ghost predicate NewFrame(events: seq<Event>, from: nat, next: nat)
    requires from <= next
  {
    next < |events| && BeginsFrame(events[from], Text(events[from..next]), events[next])
  }

  lemma TailUnfinished(text: string)
    ensures Unfinished(text) <==> Tail(text) != "" && !Whole(Tail(text))
  {
    TailAt(text);
    if Tail(text) != "" {
      var e := |text| - |Tail(text)|;
      var s := Tail(text);
      WholeIsShort(s);
      forall i | 1 <= i < |s| ensures (Between(s, 1, i, ' ', '/') && '0' <= s[i] <= '~') == Ends(text, e, e + i) {
        assert forall k | 0 <= k < |s| :: s[k] == text[e + k];
        if Between(s, 1, i, ' ', '/') {
          forall k | e < k < e + i ensures ' ' <= text[k] <= '/' { assert s[k - e] == text[k]; }
        }
        if forall k | e < k < e + i :: ' ' <= text[k] <= '/' {
          forall k | 1 <= k < i ensures ' ' <= s[k] <= '/' { assert s[k] == text[e + k]; }
        }
      }
      assert LastEscape(text, e);
      if !Whole(s) {
        forall i | e < i < |text| ensures !Ends(text, e, i) {
          assert Ends(text, e, e + (i - e)) == Ends(text, e, i);
        }
      } else {
        var i :| 1 <= i < |s| && Between(s, 1, i, ' ', '/') && '0' <= s[i] <= '~';
        assert Ends(text, e, e + i);
        forall d | 0 <= d < |text| && LastEscape(text, d) ensures d == e {
        }
      }
    }
  }

  /** The tail is all from the last ESC on. */
  lemma {:induction false} TailAt(text: string)
    ensures Tail(text) == "" ==> forall i | 0 <= i < |text| :: text[i] != '\U{1B}'
    ensures Tail(text) != "" ==>
      var e := |text| - |Tail(text)|;
      0 <= e < |text| && Tail(text) == text[e..] && LastEscape(text, e)
    decreases |text|
  {
    if text != "" {
      TailAt(text[1..]);
      assert text == [text[0]] + text[1..];
    }
  }

  lemma RunGrows(events: seq<Event>, from: nat, to: nat)
    requires from <= to < |events|
    ensures Text(events[from..to + 1]) == Text(events[from..to]) + events[to].text
  {
    assert events[from..to + 1] == events[from..to] + [events[to]];
    TextThen(events[from..to], [events[to]]);
    TextOne(events[to]);
  }

  lemma RunGoesOn(events: seq<Event>, from: nat, n: nat, frame: Event)
    requires from < n < |events| && OneRun(events, from, n, frame) && Joins(frame, events[n])
    ensures OneRun(events, from, n + 1, Event(frame.moment, frame.text + events[n].text))
  {
    hide Unfinished, Tail, Whole, Text;
    TailUnfinished(frame.text);
    RunGrows(events, from, n);
  }

  lemma RunBegins(events: seq<Event>, n: nat)
    requires n < |events|
    ensures OneRun(events, n, n + 1, events[n])
  {
    assert events[n..n + 1] == [events[n]];
    TextOne(events[n]);
  }

  lemma BeginsNew(events: seq<Event>, from: nat, n: nat, frame: Event)
    requires from < n < |events| && OneRun(events, from, n, frame) && !Joins(frame, events[n])
    ensures NewFrame(events, from, n)
  {
    hide Unfinished, Tail, Whole, Text;
    TailUnfinished(frame.text);
  }

  /** One piece more goes on the last run. */
  lemma GoesOn(events: seq<Event>, n: nat, starts: seq<nat>, frames: seq<Event>)
    requires CutInto(events, n, starts, frames) && n < |events| && frames != []
    requires Joins(frames[|frames| - 1], events[n])
    ensures CutInto(events, n + 1, starts, Framed(frames, events[n]))
  {
    hide OneRun, NewFrame, Joins;
    var last := |starts| - 1;
    assert OneRun(events, starts[last], RunEnd(starts, last, n), frames[last]);
    RunGoesOn(events, starts[last], n, frames[last]);
    var framed := Framed(frames, events[n]);
    forall k | 0 <= k < |starts| ensures OneRun(events, starts[k], RunEnd(starts, k, n + 1), framed[k]) {
      if k < last { assert OneRun(events, starts[k], RunEnd(starts, k, n), frames[k]); }
    }
  }

  lemma AppendsFrame(frames: seq<Event>, piece: Event)
    requires frames != [] ==> !Joins(frames[|frames| - 1], piece)
    ensures Framed(frames, piece) == frames + [piece]
  {
    hide Joins;
  }

  lemma BeginsEnd(n: nat, starts: seq<nat>, k: nat)
    requires k <= |starts|
    ensures RunEnd(starts + [n], k, n + 1) == if k < |starts| then RunEnd(starts, k, n) else n + 1
    ensures k < |starts| ==> RunEnd(starts + [n], k, n + 1) == (starts + [n])[k + 1]
  {
  }

  lemma BeginsRun(events: seq<Event>, n: nat, starts: seq<nat>, frames: seq<Event>, k: nat)
    requires CutInto(events, n, starts, frames) && n < |events| && k <= |starts|
    ensures var next := starts + [n];
      && next[k] < RunEnd(next, k, n + 1) <= n + 1
      && OneRun(events, next[k], RunEnd(next, k, n + 1), (frames + [events[n]])[k])
  {
    hide OneRun, NewFrame;
    BeginsEnd(n, starts, k);
    if k == |starts| { RunBegins(events, n); }
  }

  lemma BeginsAfter(events: seq<Event>, n: nat, starts: seq<nat>, frames: seq<Event>, k: nat)
    requires CutInto(events, n, starts, frames) && n < |events| && k < |starts|
    requires !Joins(frames[|frames| - 1], events[n])
    ensures NewFrame(events, (starts + [n])[k], (starts + [n])[k + 1])
  {
    hide OneRun, NewFrame, Joins;
    if k == |starts| - 1 { BeginsNew(events, starts[k], n, frames[k]); }
  }

  /** Or begins one. */
  lemma Begins(events: seq<Event>, n: nat, starts: seq<nat>, frames: seq<Event>)
    requires CutInto(events, n, starts, frames) && n < |events|
    requires frames != [] ==> !Joins(frames[|frames| - 1], events[n])
    ensures CutInto(events, n + 1, starts + [n], Framed(frames, events[n]))
  {
    hide OneRun, NewFrame, Joins, Framed;
    AppendsFrame(frames, events[n]);
    var next := starts + [n];
    forall k | 0 <= k < |next|
      ensures next[k] < RunEnd(next, k, n + 1) <= n + 1
      ensures OneRun(events, next[k], RunEnd(next, k, n + 1), (frames + [events[n]])[k])
    {
      BeginsRun(events, n, starts, frames, k);
    }
    forall k | 0 <= k < |next| - 1 ensures NewFrame(events, next[k], next[k + 1]) {
      BeginsAfter(events, n, starts, frames, k);
    }
  }

  lemma NoneCut(events: seq<Event>)
    ensures CutInto(events, 0, [], [])
  {
  }

  /** What the frames of any output are: its pieces cut into runs, in order and none left out, each a
      frame at the moment of its first piece with the text of all of them; and a new run begins exactly
      where a piece comes three hundredths of a second or more after the run's first and the text so
      far ends in no sequence the pattern calls unfinished. */
  lemma {:induction false} FramesAre(events: seq<Event>) returns (starts: seq<nat>)
    ensures CutInto(events, |events|, starts, Frames(events))
  {
    starts := FramesUpTo(events, |events|);
    assert events[..|events|] == events;
  }

  lemma {:induction false} FramesUpTo(events: seq<Event>, n: nat) returns (starts: seq<nat>)
    requires n <= |events|
    ensures CutInto(events, n, starts, Frames(events[..n]))
  {
    hide Framed, Joins, CutInto, Frames;
    FramesNone();
    if n == 0 {
      starts := [];
      assert events[..0] == [];
      NoneCut(events);
    } else {
      starts := FramesUpTo(events, n - 1);
      FramesThen(events, n - 1);
      var frames := Frames(events[..n - 1]);
      if frames != [] && Joins(frames[|frames| - 1], events[n - 1]) {
        GoesOn(events, n - 1, starts, frames);
      } else {
        Begins(events, n - 1, starts, frames);
        starts := starts + [n - 1];
      }
    }
  }

  /** Each frame kept changes what is seen, over those kept before it. */
  lemma {:induction false} EachChanges<T(!new), V>(term: Terminal<T, V>, t: T, frames: seq<Event>, i: nat)
    requires Complete(term) && GroundBetween(term, t, frames) && i < |Changes(term, t, frames)|
    ensures var kept := Changes(term, t, frames);
      term.look(Fed(term, t, Text(kept[..i + 1]))) != term.look(Fed(term, t, Text(kept[..i])))
    decreases |frames|
  {
    var t', kept := Fed(term, t, frames[0].text), Changes(term, t, frames);
    if term.look(t') == term.look(t) {
      assert t' == t && kept == Changes(term, t', frames[1..]);
      EachChanges(term, t', frames[1..], i);
    } else {
      var rest := Changes(term, t', frames[1..]);
      assert kept == [frames[0]] + rest;
      if i == 0 {
        assert Text(kept[..1]) == frames[0].text + "" == frames[0].text && Text(kept[..0]) == "";
      } else {
        EachChanges(term, t', frames[1..], i - 1);
        assert kept[..i][1..] == rest[..i - 1] && kept[..i + 1][1..] == rest[..i];
        FedThen(term, t, frames[0].text, Text(rest[..i - 1]));
        FedThen(term, t, frames[0].text, Text(rest[..i]));
      }
    }
  }

  /** The recording lasts exactly as long as what it records, and is nothing only of nothing: what it
      ends in is an event that changes nothing, only where no frame kept is as late. */
  lemma LastsAsLong<T(!new), V>(term: Terminal<T, V>, t: T, events: seq<Event>)
    requires InOrder(events)
    ensures var kept := Changing(term, t, events);
      if events == [] then kept == []
      else kept != [] && kept[|kept| - 1].moment == events[|events| - 1].moment
    ensures var changes := Changes(term, t, Frames(events));
      events != [] ==> var last := events[|events| - 1].moment;
        Changing(term, t, events) ==
          if changes != [] && changes[|changes| - 1].moment == last then changes else changes + [Event(last, "")]
  {
    FramesInOrder(events);
    var kept := Changes(term, t, Frames(events));
    ChangesAmong(term, t, Frames(events));
    if kept != [] {
      assert kept[|kept| - 1] in Frames(events);
    }
  }

  // ------------------------------------------------------------- inside a sequence

  /** How far a stream is into an escape sequence: an ESC starts one wherever it comes, and
      right after it `[` and `]` open a longer one rather than end a short one. */
  datatype Escape = Ground | Opened | Escaped | InControl | InSystem

  function Escaping(at: Escape, c: char): Escape {
    if c == ESC then Opened
    else match at
      case Ground => Ground
      case Opened =>
        if c == '[' then InControl else if c == ']' then InSystem
        else if ' ' <= c <= '/' then Escaped else if '0' <= c <= '~' then Ground else Opened
      case Escaped => if '0' <= c <= '~' then Ground else Escaped
      case InControl => if '@' <= c <= '~' then Ground else InControl
      case InSystem => if c == BEL then Ground else InSystem
  }

  function Escapes(at: Escape, s: string): Escape
    decreases |s|
  {
    if s == [] then at else Escapes(Escaping(at, s[0]), s[1..])
  }

  /** What the last ESC starts decides where a text leaves off, whatever it came after. */
  lemma {:induction false} TailDecides(at: Escape, s: string)
    ensures Tail(s) != "" ==> Tail(s)[0] == ESC && ESC !in Tail(s)[1..] && Escapes(at, s) == Escapes(Ground, Tail(s))
    ensures Tail(s) == "" ==> ESC !in s && (at == Ground ==> Escapes(at, s) == Ground)
    decreases |s|
  {
    if s != [] {
      TailDecides(Escaping(at, s[0]), s[1..]);
      assert s == [s[0]] + s[1..];
    }
  }

  /** Of the three kinds of sequence the pattern names, the short one takes in the beginning of
      each of the others: `[` and `]` end a short sequence too. */
  lemma WholeIsShort(s: string)
    ensures Whole(s) <==> ShortSequence(s)
  {
    if ControlSequence(s) || SystemCommand(s) {
      assert Between(s, 1, 1, ' ', '/') && '0' <= s[1] <= '~';
    }
  }

  /** A control sequence or a system command opened and not yet ended. */
  predicate CutShort(s: string) {
    && |s| > 1
    && ((s[1] == '[' && forall k | 2 <= k < |s| :: !('@' <= s[k] <= '~')) || (s[1] == ']' && BEL !in s[2..]))
  }

  /** A frame taken to end outside every escape sequence ends inside one exactly where its last
      ESC opens a control sequence or a system command that has not ended. */
  lemma FrameEndsInside(at: Escape, text: string)
    requires Whole(Tail(text))
    ensures Escapes(at, text) != Ground <==> CutShort(Tail(text))
  {
    var s := Tail(text);
    TailDecides(at, text);
    WholeIsShort(s);
    var i :| 1 <= i < |s| && Between(s, 1, i, ' ', '/') && '0' <= s[i] <= '~';
    assert Escapes(Ground, s) == Escapes(Opened, s[1..]);
    assert s[1..][1..] == s[2..];
    if s[1] == '[' {
      ControlEnds(s[2..]);
      assert CutShort(s) <==> forall k | 0 <= k < |s[2..]| :: !('@' <= s[2..][k] <= '~');
    } else if s[1] == ']' {
      SystemEnds(s[2..]);
    } else if i == 1 {
      StaysGround(s[2..]);
    } else {
      ShortEnds(s[2..], i - 2);
    }
  }

  lemma {:induction false} StaysGround(s: string)
    requires ESC !in s
    ensures Escapes(Ground, s) == Ground
    decreases |s|
  {
    if s != [] {
      StaysGround(s[1..]);
    }
  }

  lemma {:induction false} ControlEnds(s: string)
    requires ESC !in s
    ensures Escapes(InControl, s) != Ground <==> forall k | 0 <= k < |s| :: !('@' <= s[k] <= '~')
    decreases |s|
  {
    if s != [] {
      if '@' <= s[0] <= '~' { StaysGround(s[1..]); } else { ControlEnds(s[1..]); }
      assert s == [s[0]] + s[1..];
    }
  }

  lemma {:induction false} SystemEnds(s: string)
    requires ESC !in s
    ensures Escapes(InSystem, s) != Ground <==> BEL !in s
    decreases |s|
  {
    if s != [] {
      if s[0] == BEL { StaysGround(s[1..]); } else { SystemEnds(s[1..]); }
    }
  }

  lemma {:induction false} ShortEnds(s: string, i: nat)
    requires ESC !in s && i < |s| && Between(s, 0, i, ' ', '/') && '0' <= s[i] <= '~'
    ensures Escapes(Escaped, s) == Ground
    decreases |s|
  {
    if i == 0 {
      StaysGround(s[1..]);
    } else {
      ShortEnds(s[1..], i - 1);
    }
  }

  // ------------------------------------------------------------- where frames are cut

  lemma FramedTail(frames: seq<Event>, piece: Event, k: nat)
    requires forall i | 0 <= i < |frames| - 1 :: Tail(frames[i].text) == "" || Whole(Tail(frames[i].text))
    requires k < |Framed(frames, piece)| - 1
    ensures Tail(Framed(frames, piece)[k].text) == "" || Whole(Tail(Framed(frames, piece)[k].text))
  {
    hide Tail, Whole;
  }

  /** A frame another comes after has nothing after its last ESC but what the pattern accepts. */
  lemma {:induction false} CutsAccepted(events: seq<Event>, k: nat)
    requires k < |Frames(events)| - 1
    ensures Tail(Frames(events)[k].text) == "" || Whole(Tail(Frames(events)[k].text))
    decreases |events|
  {
    hide Tail, Whole, Framed;
    var before := events[..|events| - 1];
    forall i | 0 <= i < |Frames(before)| - 1
      ensures Tail(Frames(before)[i].text) == "" || Whole(Tail(Frames(before)[i].text))
    {
      CutsAccepted(before, i);
    }
    FramedTail(Frames(before), events[|events| - 1], k);
  }

  /** Where a stream is once so many frames of some have been sent. */
  function AfterFrames(frames: seq<Event>, n: nat): Escape
    requires n <= |frames|
  {
    Escapes(Ground, Text(frames[..n]))
  }

  lemma {:induction false} EscapesThen(at: Escape, s: string, more: string)
    ensures Escapes(at, s + more) == Escapes(Escapes(at, s), more)
    decreases |s|
  {
    if s == [] {
      assert s + more == more;
    } else {
      assert (s + more)[0] == s[0] && (s + more)[1..] == s[1..] + more;
      EscapesThen(Escaping(at, s[0]), s[1..], more);
    }
  }

  lemma AfterNext(frames: seq<Event>, n: nat)
    requires n < |frames|
    ensures AfterFrames(frames, n + 1) == Escapes(AfterFrames(frames, n), frames[n].text)
  {
    assert frames[..n + 1] == frames[..n] + [frames[n]];
    TextThen(frames[..n], [frames[n]]);
    TextOne(frames[n]);
    EscapesThen(Ground, Text(frames[..n]), frames[n].text);
  }

  /** Whether a frame with another after it ends in a sequence opened and not ended. */
  ghost predicate CutSomewhere(frames: seq<Event>) {
    exists k :: 0 <= k < |frames| - 1 && CutShort(Tail(frames[k].text))
  }

  /** From outside every sequence, an accepted frame leads outside exactly where it is not cut. */
  lemma AcceptedEnds(text: string)
    requires Tail(text) == "" || Whole(Tail(text))
    ensures Escapes(Ground, text) == Ground <==> !CutShort(Tail(text))
  {
    TailDecides(Ground, text);
    if Tail(text) != "" {
      FrameEndsInside(Ground, text);
    }
  }

  lemma {:induction false} GroundUpTo(events: seq<Event>, n: nat)
    requires n < |Frames(events)| && !CutSomewhere(Frames(events))
    ensures AfterFrames(Frames(events), n) == Ground
  {
    hide Frames, Tail, Whole, CutShort;
    var frames := Frames(events);
    if n == 0 {
      assert frames[..0] == [];
    } else {
      GroundUpTo(events, n - 1);
      CutsAccepted(events, n - 1);
      AcceptedEnds(frames[n - 1].text);
      AfterNext(frames, n - 1);
    }
  }

  /** Of any output at all: the stream is outside every escape sequence at each place it is cut into
      frames exactly where no frame but the last ends in a control sequence or a system command
      that has not ended. */
  lemma CutOutsideExactly(events: seq<Event>)
    ensures (forall n | 0 <= n < |Frames(events)| :: AfterFrames(Frames(events), n) == Ground)
            <==> !CutSomewhere(Frames(events))
  {
    hide Frames, Tail, Whole, CutShort;
    var frames := Frames(events);
    if !CutSomewhere(frames) {
      forall n | 0 <= n < |frames| ensures AfterFrames(frames, n) == Ground {
        GroundUpTo(events, n);
      }
    } else {
      var k :| 0 <= k < |frames| - 1 && CutShort(Tail(frames[k].text));
      CutsAccepted(events, k);
      AcceptedEnds(frames[k].text);
      AfterNext(frames, k);
      assert AfterFrames(frames, k) == Ground ==> AfterFrames(frames, k + 1) != Ground;
    }
  }

  /** A terminal whose being outside every escape sequence is the stream's. */
  ghost predicate Follows<T(!new), V>(term: Terminal<T, V>, at: T -> Escape) {
    && (forall t, c :: at(term.step(t, c)) == Escaping(at(t), c))
    && (forall t :: term.ground(t) <==> at(t) == Ground)
  }

  lemma {:induction false} FedFollows<T(!new), V>(term: Terminal<T, V>, at: T -> Escape, t: T, text: string)
    requires Follows(term, at)
    ensures at(Fed(term, t, text)) == Escapes(at(t), text)
    decreases |text|
  {
    if text != [] {
      FedFollows(term, at, term.step(t, text[0]), text[1..]);
    }
  }

  lemma GroundFollows<T(!new), V>(term: Terminal<T, V>, at: T -> Escape, t: T)
    requires Follows(term, at)
    ensures term.ground(t) <==> at(t) == Ground
  {
  }

  /** Outside every escape sequence before each of some frames. */
  ghost predicate GroundBefore<T(!new), V>(term: Terminal<T, V>, t: T, frames: seq<Event>)
    decreases |frames|
  {
    frames == [] || (term.ground(t) && GroundBefore(term, Fed(term, t, frames[0].text), frames[1..]))
  }

  /** For what is seen, and not the whole state, to be the same, the last frame may end inside a
      sequence. */
  lemma {:induction false} SeenChanges<T(!new), V>(term: Terminal<T, V>, t: T, frames: seq<Event>, moment: real)
    requires Complete(term) && GroundBefore(term, t, frames) && InOrder(frames)
    ensures term.look(Replay(term, t, Changes(term, t, frames), moment)) == term.look(Replay(term, t, frames, moment))
    decreases |frames|
  {
    if frames != [] {
      var t', kept := Fed(term, t, frames[0].text), Changes(term, t, frames);
      if moment < frames[0].moment {
        ChangesAmong(term, t, frames);
        ReplayLater(term, t, frames, moment);
        ReplayLater(term, t, kept, moment);
      } else {
        SeenChanges(term, t', frames[1..], moment);
        if term.look(t') != term.look(t) {
          assert kept[0] == frames[0] && kept[1..] == Changes(term, t', frames[1..]);
        } else if frames[1..] == [] {
          assert kept == [] && Replay(term, t, frames, moment) == t';
        } else {
          assert t' == t && kept == Changes(term, t', frames[1..]);
        }
      }
    }
  }

  lemma {:induction false} BeforeFollows<T(!new), V>(term: Terminal<T, V>, at: T -> Escape, t: T, frames: seq<Event>, n: nat)
    requires Follows(term, at) && n <= |frames| && at(t) == AfterFrames(frames, n)
    ensures GroundBefore(term, t, frames[n..]) <==> forall k | n <= k < |frames| :: AfterFrames(frames, k) == Ground
    decreases |frames| - n
  {
    hide Follows, AfterFrames, Fed;
    if n < |frames| {
      var rest := frames[n..];
      assert rest[0] == frames[n] && rest[1..] == frames[n + 1..];
      GroundFollows(term, at, t);
      FedFollows(term, at, t, frames[n].text);
      AfterNext(frames, n);
      BeforeFollows(term, at, Fed(term, t, frames[n].text), frames, n + 1);
    }
  }

  /** For any such terminal, of any output in order of which no frame but the last is cut inside a
      sequence, what is kept shows at every moment just what all of it shows. */
  lemma SeenTheSame<T(!new), V>(term: Terminal<T, V>, at: T -> Escape, t: T, events: seq<Event>, moment: real)
    requires Complete(term) && Follows(term, at) && at(t) == Ground && InOrder(events)
    requires !CutSomewhere(Frames(events))
    ensures term.look(Replay(term, t, Changing(term, t, events), moment)) == term.look(Replay(term, t, Frames(events), moment))
  {
    hide Frames, Complete, Follows;
    var frames := Frames(events);
    FramesInOrder(events);
    CutOutsideExactly(events);
    assert frames[0..] == frames && frames[..0] == [];
    BeforeFollows(term, at, t, frames, 0);
    SeenChanges(term, t, frames, moment);
    var kept := Changes(term, t, frames);
    if Changing(term, t, events) != kept {
      ReplayThen(term, t, kept, [Event(events[|events| - 1].moment, "")], moment);
    }
  }

  lemma TwoFrames(first: Event, second: Event)
    requires !Joins(first, second)
    ensures Frames([first, second]) == [first, second]
  {
    hide Joins;
    assert [first, second][..1] == [first] && [first][..0] == [];
    assert Frames([first]) == Framed([], first) == [first];
    assert Frames([first, second]) == Framed([first], second);
  }

  lemma OpenedTail()
    ensures var text := [ESC, '[', '3']; Tail(text) == text && Whole(text) && CutShort(text) && Escapes(Ground, text) == InControl
  {
    var text := [ESC, '[', '3'];
    assert text[1..] == ['[', '3'] && ['[', '3'][1..] == ['3'] && ['3'][1..] == [];
    assert Tail(['3']) == "" && Tail(['[', '3']) == "";
    assert Between(text, 1, 1, ' ', '/') && ShortSequence(text);
    assert Escapes(Ground, text) == Escapes(Opened, ['[', '3']) == Escapes(InControl, ['3']) == Escapes(InControl, []);
  }

  /** One written in two pieces a second apart is cut in two, and the first of them is taken to
      end outside every sequence while it ends inside one. */
  lemma CutInsideOne()
    ensures var first, second := Event(0.0, [ESC, '[', '3']), Event(1.0, "1mx");
      && Frames([first, second]) == [first, second]
      && Whole(Tail(first.text)) && AfterFrames([first, second], 1) == InControl && CutSomewhere([first, second])
  {
    hide Frames, Tail, Whole, CutShort, Escapes;
    var first, second := Event(0.0, [ESC, '[', '3']), Event(1.0, "1mx");
    OpenedTail();
    TwoFrames(first, second);
    assert [first, second][..1] == [first];
    TextOne(first);
    var frames := [first, second];
    assert frames[0] == first && CutShort(Tail(frames[0].text));
  }

  /** A terminal that shows every character but those of escape sequences. */
  datatype Plain = Plain(at: Escape, shown: string)

  function Shows(t: Plain, c: char): Plain {
    Plain(Escaping(t.at, c), if t.at == Ground && c != ESC then t.shown + [c] else t.shown)
  }

  const PLAIN := Terminal(Shows, (t: Plain) => t.shown, (t: Plain) => t.at == Ground)

  /** And it matters: of those two pieces the first is left out, changing nothing seen, and what is
      left of the sequence is shown as text. */
  lemma CutInsideShows()
    ensures var events := [Event(0.0, [ESC, '[', '3']), Event(1.0, "1mx")];
      var t := Plain(Ground, "");
      && Complete(PLAIN) && Follows(PLAIN, (p: Plain) => p.at) && InOrder(events)
      && Replay(PLAIN, t, Changing(PLAIN, t, events), 1.0).shown == "1mx"
      && Replay(PLAIN, t, Frames(events), 1.0).shown == "x"
  {
    hide Frames, Fed, AfterFrames, CutSomewhere, Replay, Changing, Tail, Whole, Complete, Follows, Shows;
    PlainFollows();
    CutInsideOne();
    PlainFed();
    var first, second := Event(0.0, [ESC, '[', '3']), Event(1.0, "1mx");
    ReplayTwo(Plain(Ground, ""), first, second);
  }

  /** What the two pieces do, one after the other and the second by itself. */
  lemma PlainFed()
    ensures Fed(PLAIN, Plain(Ground, ""), [ESC, '[', '3']) == Plain(InControl, "")
    ensures Fed(PLAIN, Plain(InControl, ""), "1mx") == Plain(Ground, "x")
    ensures Fed(PLAIN, Plain(Ground, ""), "1mx") == Plain(Ground, "1mx")
  {
    FedThree(Plain(Ground, ""), ESC, '[', '3');
    FedThree(Plain(InControl, ""), '1', 'm', 'x');
    FedThree(Plain(Ground, ""), '1', 'm', 'x');
    assert "" + ['1'] + ['m'] + ['x'] == "1mx" == ['1', 'm', 'x'] && "" + ['x'] == "x";
  }

  lemma PlainFollows()
    ensures Complete(PLAIN) && Follows(PLAIN, (p: Plain) => p.at)
  {
  }

  lemma FedThree(t: Plain, a: char, b: char, c: char)
    ensures Fed(PLAIN, t, [a, b, c]) == Shows(Shows(Shows(t, a), b), c)
  {
    assert [a, b, c][1..] == [b, c] && [b, c][1..] == [c] && [c][1..] == [];
    assert Fed(PLAIN, t, [a, b, c]) == Fed(PLAIN, Shows(t, a), [b, c]);
    assert Fed(PLAIN, Shows(t, a), [b, c]) == Fed(PLAIN, Shows(Shows(t, a), b), [c]);
    assert Fed(PLAIN, Shows(Shows(t, a), b), [c]) == Fed(PLAIN, Shows(Shows(Shows(t, a), b), c), []);
  }

  /** Two frames of which only the second changes what is seen, played to the end. */
  lemma ReplayTwo(t: Plain, first: Event, second: Event)
    requires first.moment <= second.moment && Frames([first, second]) == [first, second]
    requires var t1 := Fed(PLAIN, t, first.text); t1.shown == t.shown && Fed(PLAIN, t1, second.text).shown != t1.shown
    ensures Replay(PLAIN, t, Changing(PLAIN, t, [first, second]), second.moment) == Fed(PLAIN, t, second.text)
    ensures Replay(PLAIN, t, Frames([first, second]), second.moment) == Fed(PLAIN, Fed(PLAIN, t, first.text), second.text)
  {
    hide Frames, Fed;
    var t1 := Fed(PLAIN, t, first.text);
    assert [first, second][1..] == [second] && [second][1..] == [];
    assert Changes(PLAIN, t1, [second]) == [second];
    assert Changes(PLAIN, t, [first, second]) == [second];
    assert Replay(PLAIN, t1, [second], second.moment) == Fed(PLAIN, t1, second.text);
    assert Replay(PLAIN, t, [second], second.moment) == Fed(PLAIN, t, second.text);
  }
}
