/** Every order the updater's parties may take their steps in, up to exit and past it. */
module UpdaterRuns {
  import opened Maybe
  import opened Updater

  /** What a `present` does once it has drawn: asks about an update, or nothing that matters. */
  datatype Then = Ask | Nothing

  /** The updater and everybody about it. Updates are named by number, each download a new one. */
  datatype State = State(
    windows: bool, stage: Stage<nat>,
    fetches: nat,             // looks under way
    owed: seq<Then>,          // sections through with the lock whose `present` is not queued yet
    queue: seq<Then>,         // the main thread's jobs
    prompts: nat,             // prompts up, each on a thread of its own
    hands: seq<nat>,          // taken out of the stage by a prompt's thread, to install at once
    window: bool, itemOff: bool,
    downloaded: seq<nat>, installed: seq<nat>, discarded: seq<nat>,
    exited: bool,
    lost: bool,               // a `present` that could not be queued
    stale: bool,              // one that could not be, with none drawn since
    unopened: bool)           // the window that was to be opened last could not be

  datatype Event =
    | Look(who: By)
    | Fetched(found: Found<nat>)
    | Queued(i: nat)
    | Unqueued(i: nat)
    | Drawn(opens: bool)
    | Said(restart: bool)
    | Installed(ok: bool)
    | Exited

  function Init(windows: bool): State {
    State(windows, Idle, 0, [], [], 0, [], false, false, [], [], [], false, false, false, false)
  }

  predicate Enabled(s: State, e: Event) {
    match e
    case Look(_) => !s.exited
    case Fetched(found) => s.fetches > 0 && (found.Ready? ==> found.update !in s.downloaded)
    case Queued(i) => i < |s.owed|
    case Unqueued(i) => i < |s.owed|
    case Drawn(_) => !s.exited && s.queue != []
    case Said(_) => s.prompts > 0
    case Installed(_) => s.hands != []
    case Exited => !s.exited
  }

  function Without<T>(xs: seq<T>, i: nat): seq<T>
    requires i < |xs|
  {
    xs[..i] + xs[i + 1..]
  }

  function Apply(s: State, e: Event): State
    requires Enabled(s, e)
  {
    match e
    case Look(who) => Looked(s, who)
    case Fetched(found) => Settling(s, found)
    case Queued(i) => s.(owed := Without(s.owed, i), queue := s.queue + [s.owed[i]])
    case Unqueued(i) => s.(owed := Without(s.owed, i), lost := true, stale := true)
    case Drawn(opens) => Drawing(s, opens)
    case Said(restart) => Answering(s, restart)
    case Installed(ok) => HandingOver(s, ok)
    case Exited =>
      s.(stage := Idle, installed := s.installed + Held(s.stage), window := false, exited := true)
  }

  /** What a prompt's thread took out of the stage, installed; where that fails, it is over. */
  function HandingOver(s: State, ok: bool): State
    requires s.hands != []
  {
    var s' := s.(hands := s.hands[1..], installed := s.installed + [s.hands[0]]);
    if ok then s'
    else s'.(stage := Idle, discarded := s.discarded + Held(s.stage), owed := s.owed + [Nothing])
  }

  function Looked(s: State, who: By): State {
    s.(stage := Checked(s.stage, who),
       fetches := s.fetches + (if Step(s.stage, who) == Check then 1 else 0),
       prompts := s.prompts + (if Step(s.stage, who) == Offer then 1 else 0),
       owed := s.owed + [Nothing])
  }

  /** What the stage held is gone once a look settles over it. */
  function Settling(s: State, found: Found<nat>): State
    requires s.fetches > 0
  {
    s.(stage := Settled(found), fetches := s.fetches - 1, discarded := s.discarded + Held(s.stage),
       downloaded := s.downloaded + (if found.Ready? then [found.update] else []),
       owed := s.owed + [if found.Ready? then Ask else Nothing])
  }

  /** The window and the menu as the stage stands when the job runs, and then what it was for. */
  function Drawing(s: State, opens: bool): State
    requires s.queue != []
  {
    var up := Shows(s.stage);
    s.(queue := s.queue[1..], itemOff := Looks(s.stage),
       window := up && (s.window || opens), unopened := up && !s.window && !opens, stale := false,
       prompts := s.prompts + (if s.queue[0] == Ask then 1 else 0))
  }

  /** A prompt answered. Later changes neither the window nor the menu, and presents nothing. */
  function Answering(s: State, restart: bool): State
    requires s.prompts > 0
  {
    var s' := s.(stage := Answered(s.stage, restart, s.windows), prompts := s.prompts - 1);
    if !s.stage.Offering? then s'.(discarded := s.discarded + Held(s.stage))
    else if !restart then s'
    else s'.(owed := s.owed + [Nothing], hands := if s.windows then s.hands else s.hands + [s.stage.update])
  }

  ghost predicate Possible(s: State, es: seq<Event>)
    decreases |es|
  {
    es == [] || (Enabled(s, es[0]) && Possible(Apply(s, es[0]), es[1..]))
  }

  ghost function After(s: State, es: seq<Event>): State
    requires Possible(s, es)
    decreases |es|
  {
    if es == [] then s else After(Apply(s, es[0]), es[1..])
  }

  /** How many of what is owed or queued are to ask about an update. */
  function Asks(thens: seq<Then>): nat {
    if thens == [] then 0 else (if thens[0] == Ask then 1 else 0) + Asks(thens[1..])
  }

  lemma {:induction false} AsksThen(a: seq<Then>, b: seq<Then>)
    ensures Asks(a + b) == Asks(a) + Asks(b)
    decreases |a|
  {
    if a == [] {
      assert a + b == b;
    } else {
      assert (a + b)[1..] == a[1..] + b;
      AsksThen(a[1..], b);
    }
  }

  lemma AsksWithout(a: seq<Then>, i: nat)
    requires i < |a|
    ensures Asks(a) == Asks(Without(a, i)) + (if a[i] == Ask then 1 else 0)
  {
    var before, after := a[..i], a[i + 1..];
    hide Asks;
    AsksThen(before, [a[i]] + after);
    AsksThen([a[i]], after);
    AsksThen(before, after);
    AsksOne(a[i]);
    assert a == before + ([a[i]] + after);
  }

  /** The prompts up, or on their way. */
  function Prompts(s: State): nat {
    Asks(s.owed) + Asks(s.queue) + s.prompts
  }

  /** One look at a time, while checking; one prompt at a time, while offering. */
  predicate OneAtATime(s: State) {
    && (!s.exited ==> s.fetches == (if s.stage.Checking? then 1 else 0))
    && (!s.exited ==> Prompts(s) <= (if s.stage.Offering? then 1 else 0))
    && (!s.exited && !s.lost ==> Prompts(s) == (if s.stage.Offering? then 1 else 0))
    && (!s.exited && s.hands != [] ==> s.stage == Installing(None))
    && |s.hands| <= 1
    && (s.exited ==> s.fetches <= 1 && (s.stage == Idle || s.stage.Offering?))
    && (s.exited && s.fetches > 0 ==> Prompts(s) == 0 && s.stage == Idle && s.hands == [])
    && (s.exited && s.stage.Offering? ==> s.fetches == s.prompts == 0 && s.hands == [])
  }

  /** Every update downloaded is held, about to be installed, or handed to be installed, and in
      only one of those: none is ever discarded. */
  ghost predicate Accounted(s: State) {
    && s.discarded == []
    && multiset(s.downloaded) == Ledger(s)
    && Once(s.downloaded)
    && (s.stage.Installing? ==> s.stage.held.Some? == s.windows)
  }

  function Ledger(s: State): multiset<nat> {
    multiset(Held(s.stage)) + multiset(s.hands) + multiset(s.installed)
  }

  ghost predicate Once(xs: seq<nat>) {
    forall u :: multiset(xs)[u] <= 1
  }

  /** Once everything owed has been drawn, the window and the menu are as the stage has them. */
  predicate Shown(s: State) {
    !s.exited && s.owed == [] && s.queue == [] && !s.stale ==>
      s.itemOff == Looks(s.stage) && s.window == (Shows(s.stage) && !s.unopened)
  }

  lemma OneAtATimeKept(s: State, e: Event)
    requires OneAtATime(s) && Enabled(s, e)
    ensures OneAtATime(Apply(s, e))
  {
    hide Looked, Settling, Answering, Drawing, Asks;
    match e
    case Look(who) => OneWhenLooked(s, who);
    case Fetched(found) => OneWhenSettled(s, found);
    case Queued(i) => AsksWithout(s.owed, i); AsksThen(s.queue, [s.owed[i]]); AsksOne(s.owed[i]);
    case Unqueued(i) => AsksWithout(s.owed, i);
    case Drawn(opens) => OneWhenDrawn(s, opens);
    case Said(restart) => OneWhenSaid(s, restart);
    case Installed(_) => AsksThen(s.owed, [Nothing]); AsksOne(Nothing);
    case Exited =>
  }

  lemma AsksOne(next: Then)
    ensures Asks([next]) == if next == Ask then 1 else 0
  {
  }

  lemma OneWhenLooked(s: State, who: By)
    requires OneAtATime(s) && !s.exited
    ensures OneAtATime(Looked(s, who))
  {
    AsksThen(s.owed, [Nothing]);
    AsksOne(Nothing);
    hide Asks;
  }

  lemma OneWhenSettled(s: State, found: Found<nat>)
    requires OneAtATime(s) && s.fetches > 0
    ensures OneAtATime(Settling(s, found))
  {
    var next := if found.Ready? then Ask else Nothing;
    AsksThen(s.owed, [next]);
    AsksOne(next);
    hide Asks;
  }

  lemma OneWhenDrawn(s: State, opens: bool)
    requires OneAtATime(s) && !s.exited && s.queue != []
    ensures OneAtATime(Drawing(s, opens))
  {
  }

  lemma OneWhenSaid(s: State, restart: bool)
    requires OneAtATime(s) && s.prompts > 0
    ensures OneAtATime(Answering(s, restart))
  {
    AsksThen(s.owed, [Nothing]);
    AsksOne(Nothing);
    hide Asks;
  }

  lemma AccountedKept(s: State, e: Event)
    requires OneAtATime(s) && Accounted(s) && Enabled(s, e)
    ensures Accounted(Apply(s, e))
  {
    hide Looked, Settling, Answering, Drawing, Asks, Once, OneAtATime;
    match e
    case Look(who) => AccountedWhenLooked(s, who);
    case Fetched(found) => AccountedWhenSettled(s, found);
    case Queued(i) => assert Ledger(Apply(s, e)) == Ledger(s);
    case Unqueued(i) => assert Ledger(Apply(s, e)) == Ledger(s);
    case Drawn(opens) => AccountedWhenDrawn(s, opens);
    case Said(restart) => AccountedWhenSaid(s, restart);
    case Installed(ok) => AccountedWhenInstalled(s, ok);
    case Exited => assert Ledger(Apply(s, e)) == Ledger(s);
  }

  lemma AccountedWhenLooked(s: State, who: By)
    requires Accounted(s)
    ensures Accounted(Looked(s, who))
  {
    hide Once;
    assert Held(Checked(s.stage, who)) == Held(s.stage);
  }

  lemma AccountedWhenDrawn(s: State, opens: bool)
    requires Accounted(s) && s.queue != []
    ensures Accounted(Drawing(s, opens))
  {
    hide Once;
  }

  /** A look settles only while checking, when nothing is held. */
  lemma AccountedWhenSettled(s: State, found: Found<nat>)
    requires OneAtATime(s) && Accounted(s) && s.fetches > 0 && (found.Ready? ==> found.update !in s.downloaded)
    ensures Accounted(Settling(s, found))
  {
    hide Asks;
    assert Held(s.stage) == [];
    assert found.Ready? ==> multiset(s.downloaded)[found.update] == 0;
  }

  lemma AccountedWhenInstalled(s: State, ok: bool)
    requires OneAtATime(s) && Accounted(s) && s.hands != []
    ensures Accounted(HandingOver(s, ok))
  {
    hide Once, OneAtATime, Held, Ledger;
    HandsHoldAll(s);
    HoldsNothing();
    InstalledLedger(s, ok);
    var s' := HandingOver(s, ok);
    assert s'.downloaded == s.downloaded && s'.discarded == s.discarded + [] == s.discarded && s'.windows == s.windows;
  }

  lemma InstalledLedger(s: State, ok: bool)
    requires |s.hands| == 1 && Held(s.stage) == []
    ensures Ledger(HandingOver(s, ok)) == Ledger(s)
  {
    hide Held;
    HoldsNothing();
    OneMore(s.installed, s.hands);
    assert Held(HandingOver(s, ok).stage) == [];
  }

  lemma OneMore(installed: seq<nat>, hands: seq<nat>)
    requires |hands| == 1
    ensures hands[1..] == [] && multiset(installed + [hands[0]]) == multiset(hands) + multiset(installed)
  {
    assert hands == [hands[0]];
  }

  lemma HoldsNothing()
    ensures Held<nat>(Idle) == []
  {
  }

  /** While one update is about to be installed, the stage holds none. */
  lemma HandsHoldAll(s: State)
    requires OneAtATime(s) && s.hands != []
    ensures Held(s.stage) == [] && |s.hands| == 1
  {
    hide Asks;
  }

  /** A prompt is up only while offering, or past exit, when nothing is held. */
  lemma AccountedWhenSaid(s: State, restart: bool)
    requires OneAtATime(s) && Accounted(s) && s.prompts > 0
    ensures Accounted(Answering(s, restart))
  {
    hide Asks, Once;
    if s.stage.Offering? {
      AccountedWhenOffering(s, restart);
    } else {
      assert s.stage == Idle;
    }
  }

  lemma AccountedWhenOffering(s: State, restart: bool)
    requires Accounted(s) && s.prompts > 0 && s.stage.Offering?
    ensures Accounted(Answering(s, restart))
  {
    hide Once, Ledger;
    var s' := Answering(s, restart);
    OfferingLedger(s, restart);
    assert s'.downloaded == s.downloaded && s'.discarded == s.discarded && s'.windows == s.windows;
  }

  /** What was offered is held yet, or in hand. */
  lemma OfferingLedger(s: State, restart: bool)
    requires s.prompts > 0 && s.stage.Offering?
    ensures Ledger(Answering(s, restart)) == Ledger(s)
  {
    var u := s.stage.update;
    var s' := Answering(s, restart);
    assert s'.installed == s.installed;
    if restart && !s.windows {
      assert s'.hands == s.hands + [u] && Held(s'.stage) == [];
      HandedOver(s.hands, u);
      assert multiset(Held(s'.stage)) == multiset{};
    } else {
      assert s'.hands == s.hands && Held(s'.stage) == Held(s.stage);
    }
  }

  lemma HandedOver(hands: seq<nat>, u: nat)
    ensures multiset([u]) + multiset(hands) == multiset{} + multiset(hands + [u])
  {
  }

  lemma ShownKept(s: State, e: Event)
    requires Shown(s) && OneAtATime(s) && Enabled(s, e)
    ensures Shown(Apply(s, e))
  {
    hide OneAtATime, Drawing, Answering;
    match e
    case Drawn(opens) => ShownWhenDrawn(s, opens);
    case Said(restart) => ShownWhenSaid(s, restart);
    case _ =>
  }

  lemma ShownWhenDrawn(s: State, opens: bool)
    requires Shown(s) && s.queue != []
    ensures Shown(Drawing(s, opens))
  {
  }

  lemma ShownWhenSaid(s: State, restart: bool)
    requires Shown(s) && OneAtATime(s) && s.prompts > 0
    ensures Shown(Answering(s, restart))
  {
    hide Asks;
  }

  /** What every step of every party keeps, every run keeps. */
  lemma {:induction false} RunKeeps(s: State, es: seq<Event>)
    requires OneAtATime(s) && Accounted(s) && Shown(s) && Possible(s, es)
    ensures OneAtATime(After(s, es)) && Accounted(After(s, es)) && Shown(After(s, es))
    decreases |es|
  {
    if es != [] {
      OneAtATimeKept(s, es[0]);
      AccountedKept(s, es[0]);
      ShownKept(s, es[0]);
      RunKeeps(Apply(s, es[0]), es[1..]);
    }
  }

  lemma RunFromInit(windows: bool, es: seq<Event>)
    requires Possible(Init(windows), es)
    ensures OneAtATime(After(Init(windows), es)) && Accounted(After(Init(windows), es)) && Shown(After(Init(windows), es))
  {
    hide OneAtATime, Accounted, Shown, Possible, After, Init;
    Begins(windows);
    RunKeeps(Init(windows), es);
  }

  lemma Begins(windows: bool)
    ensures OneAtATime(Init(windows)) && Accounted(Init(windows)) && Shown(Init(windows))
  {
    hide Accounted, Asks, Shown;
    NothingAccounted(Init(windows));
    NothingAsked();
    NothingShown(Init(windows));
  }

  lemma NothingShown(s: State)
    requires s.stage == Idle && !s.window && !s.itemOff && !s.unopened
    ensures Shown(s)
  {
  }

  lemma NothingAsked()
    ensures Asks([]) == 0
  {
  }

  lemma NothingAccounted(s: State)
    requires s.stage == Idle && s.hands == s.installed == s.downloaded == s.discarded == []
    ensures Accounted(s)
  {
    HoldsNothing();
    hide Held;
    assert multiset(s.downloaded) == Ledger(s);
  }

  /** Up to exit a fetch is under way exactly while checking, and a prompt is up or on its way
      exactly while offering -- at most one, where a `present` could not be queued. */
  lemma OneFetchOnePrompt(windows: bool, es: seq<Event>)
    requires Possible(Init(windows), es) && !After(Init(windows), es).exited
    ensures var s := After(Init(windows), es);
      && s.fetches == (if s.stage.Checking? then 1 else 0)
      && Prompts(s) <= (if s.stage.Offering? then 1 else 0)
      && (!s.lost ==> Prompts(s) == (if s.stage.Offering? then 1 else 0))
  {
    hide Possible, After, Accounted, Shown, Prompts;
    RunFromInit(windows, es);
  }

  /** No update held is ever discarded -- not where a look settles over it, nor where a prompt
      takes the stage -- and none is handed to be installed twice. */
  lemma NoneDiscardedNorTwice(windows: bool, es: seq<Event>)
    requires Possible(Init(windows), es)
    ensures var s := After(Init(windows), es);
      && s.discarded == []
      && (forall i, j | 0 <= i < j < |s.installed| :: s.installed[i] != s.installed[j])
      && (forall u | u in s.downloaded :: u in Held(s.stage) || u in s.hands || u in s.installed)
  {
    hide OneAtATime, Shown, Possible, After;
    RunFromInit(windows, es);
    var s := After(Init(windows), es);
    OnceApart(s.downloaded, s.installed);
    forall u | u in s.downloaded
      ensures u in Held(s.stage) || u in s.hands || u in s.installed
    {
      InLedger(s, u);
    }
  }

  lemma InLedger(s: State, u: nat)
    requires Accounted(s) && u in s.downloaded
    ensures u in Held(s.stage) || u in s.hands || u in s.installed
  {
    assert u in multiset(s.downloaded);
    assert u in Ledger(s);
  }

  lemma OnceApart(all: seq<nat>, some: seq<nat>)
    requires Once(all) && multiset(some) <= multiset(all)
    ensures forall i, j | 0 <= i < j < |some| :: some[i] != some[j]
  {
    forall i, j | 0 <= i < j < |some|
      ensures some[i] != some[j]
    {
      assert some == some[..j] + some[j..];
      assert some[i] in multiset(some[..j]) && some[j] in multiset(some[j..]);
      assert multiset(some) == multiset(some[..j]) + multiset(some[j..]);
      assert multiset(some)[some[j]] <= multiset(all)[some[j]] <= 1;
    }
  }

  /** What is downloaded by the time the app exits is installed by then, but for what a prompt's
      thread has taken to install at once. */
  lemma InstalledByExit(windows: bool, es: seq<Event>)
    requires Possible(Init(windows), es) && Enabled(After(Init(windows), es), Exited)
    ensures var s := Apply(After(Init(windows), es), Exited);
      forall u | u in s.downloaded :: u in s.installed || (u in s.hands && !s.windows)
  {
    hide Possible, After, Shown, OneAtATime, Accounted;
    RunFromInit(windows, es);
    var s := After(Init(windows), es);
    AtExit(s);
  }

  lemma AtExit(s: State)
    requires OneAtATime(s) && Accounted(s) && !s.exited
    ensures forall u | u in s.downloaded :: u in s.installed + Held(s.stage) || (u in s.hands && !s.windows)
  {
    hide Asks, Once;
    forall u | u in s.downloaded
      ensures u in s.installed + Held(s.stage) || (u in s.hands && !s.windows)
    {
      InLedger(s, u);
    }
  }

  /** Before exit, once every job queued has run and every section is followed by its own, the
      progress window is up just where the stage shows it, and could be opened when it last was to
      be, and the menu's item is off just where its look is under way. A job that could not be
      queued matters only until the next one is drawn. */
  lemma ShownAsItStands(windows: bool, es: seq<Event>)
    requires Possible(Init(windows), es)
    ensures var s := After(Init(windows), es);
      !s.exited && s.owed == [] && s.queue == [] && !s.stale ==>
        && s.itemOff == (s.stage == Checking(true))
        && s.window == ((s.stage == Checking(true) || s.stage.Installing?) && !s.unopened)
  {
    RunFromInit(windows, es);
  }

  /** What a look asked for does, by the timer or by hand: it starts a fetch where the updater is idle
      and nowhere else, and asks again only by hand and only of an update deferred. */
  lemma LookDoes(s: State, who: By)
    requires Enabled(s, Look(who))
    ensures var s' := Apply(s, Look(who));
      && s'.fetches == s.fetches + (if s.stage.Idle? then 1 else 0)
      && s'.prompts == s.prompts + (if s.stage.Deferred? && who == Hand then 1 else 0)
      && s'.stage == match s.stage
        case Idle => Checking(who == Hand)
        case Checking(byHand) => Checking(byHand || who == Hand)
        case Deferred(update) => if who == Hand then Offering(update) else s.stage
        case _ => s.stage
  {
  }
}
