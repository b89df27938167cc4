/**
 The desktop app updating itself: a stage under a lock, moved by a timer, a menu, the task that
 fetches, the thread that asks, the main thread's jobs and the app's exit.

 Every section under the lock is one step. What follows one -- `present`, which is put on the
 main thread's queue only once the lock is let go -- is a step of its own, so anything may
 come in between.
 */
module Updater {
  import opened Maybe

  datatype By = Schedule | Hand

  /** The one variable the updater's parties share. */
  datatype Stage<T> =
    | Idle
    | Checking(byHand: bool)
    | Offering(update: T)
    | Deferred(update: T)
    | Installing(held: Option<T>)

  /** The four things asking for a look may come to. */
  datatype Look = Check | Report | Offer | Skip

  function Step<T>(stage: Stage<T>, who: By): Look {
    match stage
    case Idle => Check
    case Checking(_) => if who == Hand then Report else Skip
    case Deferred(_) => if who == Hand then Offer else Skip
    case Offering(_) => Skip
    case Installing(_) => Skip
  }

  /** The stages somebody is to see something of. */
  predicate Shows<T>(stage: Stage<T>) {
    stage.Installing? || Looks(stage)
  }

  /** The stage in which the menu offers no other look. */
  predicate Looks<T>(stage: Stage<T>) {
    stage.Checking? && stage.byHand
  }

  /** The update a stage holds. */
  function Held<T>(stage: Stage<T>): seq<T> {
    match stage
    case Offering(update) => [update]
    case Deferred(update) => [update]
    case Installing(Some(update)) => [update]
    case _ => []
  }

  function Checked<T>(stage: Stage<T>, who: By): Stage<T> {
    match Step(stage, who)
    case Check => Checking(who == Hand)
    case Report => Checking(true)
    case Offer => if stage.Deferred? then Offering(stage.update) else stage
    case Skip => stage
  }

  /** What a look found. */
  datatype Found<T> = Ready(update: T) | UpToDate | Failed

  function Settled<T>(found: Found<T>): Stage<T> {
    if found.Ready? then Offering(found.update) else Idle
  }

  /** The stage once its prompt is answered: it is taken, whatever it is, and put back as what
      was chosen only where it was offering. */
  function Answered<T>(stage: Stage<T>, restart: bool, windows: bool): Stage<T> {
    if !stage.Offering? then Idle
    else if !restart then Deferred(stage.update)
    else if windows then Installing(Some(stage.update))
    else Installing(None)
  }

  /** The updater's stage, each method one section under its lock. */
  class Keeper<T> {
    var stage: Stage<T>

    constructor ()
      ensures stage == Idle
    {
      stage := Idle;
    }

    /** A look asked for: whether it starts a fetch, and whether it asks again at once. */
    method CheckNow(who: By) returns (fetch: bool, ask: bool)
      modifies this
      ensures stage == Checked(old(stage), who)
      ensures fetch == (Step(old(stage), who) == Check) == old(stage).Idle?
      ensures ask == (Step(old(stage), who) == Offer) == (old(stage).Deferred? && who == Hand)
      ensures match old(stage)
        case Idle => stage == Checking(who == Hand)
        case Checking(byHand) => stage == Checking(byHand || who == Hand)
        case Deferred(update) => stage == if who == Hand then Offering(update) else Deferred(update)
        case _ => stage == old(stage)
      ensures Held(stage) == Held(old(stage))
    {
      fetch, ask := false, false;
      match Step(stage, who) {
        case Check =>
          stage := Checking(who == Hand);
          fetch := true;
        case Report => stage := Checking(true);
        case Offer =>
          // Taken, and put back as offered.
          var taken := stage;
          stage := Idle;
          if taken.Deferred? {
            ask := true;
            stage := Offering(taken.update);
          }
        case Skip =>
      }
    }

    /** What a look found kept, in the place of whatever was there. */
    method Settle(found: Found<T>) returns (byHand: bool, ask: bool)
      modifies this
      ensures stage == Settled(found) == match found { case Ready(update) => Offering(update) case _ => Idle }
      ensures byHand == (old(stage) == Checking(true)) && ask == found.Ready?
    {
      byHand, ask := stage.Checking? && stage.byHand, false;
      stage := Idle;
      if found.Ready? {
        stage := Offering(found.update);
        ask := true;
      }
    }

    /** A prompt answered: what is to be installed at once, where anything is. */
    method Answer(restart: bool, windows: bool) returns (install: Option<T>)
      modifies this
      ensures stage == Answered(old(stage), restart, windows)
      ensures match old(stage)
        case Offering(update) =>
          stage == if !restart then Deferred(update) else Installing(if windows then Some(update) else None)
        case _ => stage == Idle
      ensures install == if old(stage).Offering? && restart && !windows then Some(old(stage).update) else None
      ensures old(stage).Offering? ==>
                Held(old(stage)) == Held(stage) + if install.Some? then [install.value] else []
    {
      var taken := stage;
      stage, install := Idle, None;
      if !taken.Offering? {
        return;
      }
      if !restart {
        stage := Deferred(taken.update);
      } else if windows {
        stage := Installing(Some(taken.update));
      } else {
        stage, install := Installing(None), Some(taken.update);
      }
    }

    /** The app exiting: whatever is held is to be installed. */
    method OnExit() returns (install: seq<T>)
      modifies this
      ensures stage == Idle && install == Held(old(stage))
      ensures match old(stage)
        case Offering(update) => install == [update]
        case Deferred(update) => install == [update]
        case Installing(Some(update)) => install == [update]
        case _ => install == []
    {
      var taken := stage;
      stage, install := Idle, [];
      match taken {
        case Offering(update) => install := [update];
        case Deferred(update) => install := [update];
        case Installing(Some(update)) => install := [update];
        case _ =>
      }
    }
  }
}
