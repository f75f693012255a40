/** The cancellation handle: a flag and a notification, with any number of cancellers and waiters.
    A notification is an epoch: a waiter that took its ticket before notify_waiters is woken by it. */
module Cancellation {

  // cancel(): store the flag, then notify the waiters.
  datatype Canceller = Ready | Stored | Completed

  // cancelled(): take a ticket, read the flag, and wait for the ticket to fire; then again.
  datatype Waiter = Loop | Ticket(epoch: nat) | Parked(epoch: nat) | Returned

  datatype State = State(cancelled: bool, epoch: nat, cancellers: seq<Canceller>, waiters: seq<Waiter>)

  datatype Actor = Cancels(c: nat) | Waits(w: nat)

  predicate Start(s: State)
  {
    !s.cancelled && (forall c :: 0 <= c < |s.cancellers| ==> s.cancellers[c] == Ready)
    && (forall w :: 0 <= w < |s.waiters| ==> s.waiters[w] == Loop)
  }

  /** An actor with a step to take.  A parked waiter has one once its ticket has fired. */
  predicate Enabled(s: State, a: Actor)
  {
    match a
    case Cancels(c) => c < |s.cancellers| && s.cancellers[c] != Completed
    case Waits(w) => w < |s.waiters| && s.waiters[w] != Returned
                     && (s.waiters[w].Parked? ==> s.waiters[w].epoch != s.epoch)
  }

  /** One atomic step of one actor. */
  function Step(s: State, a: Actor): State
    requires Enabled(s, a)
  {
    match a
    case Cancels(c) =>
      if s.cancellers[c] == Ready then s.(cancelled := true, cancellers := s.cancellers[c := Stored])
      else s.(epoch := s.epoch + 1, cancellers := s.cancellers[c := Completed])
    case Waits(w) =>
      match s.waiters[w]
      case Loop => s.(waiters := s.waiters[w := Ticket(s.epoch)])
      case Ticket(e) => s.(waiters := s.waiters[w := if s.cancelled then Returned else Parked(e)])
      case Parked(_) => s.(waiters := s.waiters[w := Loop])
      case Returned => s
  }

  /** A schedule only names actors that can step. */
  ghost predicate Schedule(s: State, actors: seq<Actor>)
    decreases |actors|, 0
  {
    actors == [] || (Schedule(s, actors[..|actors| - 1]) && Enabled(After(s, actors[..|actors| - 1]), actors[|actors| - 1]))
  }

  /** The state after a schedule. */
  ghost function After(s: State, actors: seq<Actor>): State
    requires Schedule(s, actors)
    decreases |actors|, 1
  {
    if actors == [] then s else Step(After(s, actors[..|actors| - 1]), actors[|actors| - 1])
  }

  ghost predicate CancelCompleted(s: State)
  {
    exists c :: 0 <= c < |s.cancellers| && s.cancellers[c] == Completed
  }

  /** The flag is up from the first store on.  A waiter parked on the current epoch saw the flag down
      after taking its ticket, so no canceller has notified since the flag went up. */
  ghost predicate Safe(s: State)
  {
    && (forall c :: 0 <= c < |s.cancellers| && s.cancellers[c] != Ready ==> s.cancelled)
    && (forall w :: 0 <= w < |s.waiters| && (s.waiters[w].Ticket? || s.waiters[w].Parked?) ==> s.waiters[w].epoch <= s.epoch)
    && (forall w :: 0 <= w < |s.waiters| && s.waiters[w].Parked? && s.waiters[w].epoch == s.epoch ==> !CancelCompleted(s))
    && (forall w :: 0 <= w < |s.waiters| && s.waiters[w] == Returned ==> s.cancelled)
  }

  // A cancel completes only through the second step of a canceller, and stays completed.
  lemma Completes(s: State, a: Actor)
    requires Enabled(s, a)
    ensures CancelCompleted(Step(s, a)) <==> CancelCompleted(s) || (a.Cancels? && s.cancellers[a.c] == Stored)
  {
    var t := Step(s, a);
    if CancelCompleted(s) {
      var c :| 0 <= c < |s.cancellers| && s.cancellers[c] == Completed;
      assert t.cancellers[c] == Completed;
    } else if a.Cancels? && s.cancellers[a.c] == Stored {
      assert t.cancellers[a.c] == Completed;
    } else {
      assert forall c :: 0 <= c < |t.cancellers| ==> t.cancellers[c] == s.cancellers[c] || t.cancellers[c] == Stored;
    }
  }

  lemma StepSafe(s: State, a: Actor)
    requires Safe(s) && Enabled(s, a)
    ensures Safe(Step(s, a))
  {
    hide CancelCompleted;
    Completes(s, a);
    assert CancelCompleted(s) ==> s.cancelled by { FlagUp(s); }
  }

  lemma FlagUp(s: State)
    requires Safe(s)
    ensures CancelCompleted(s) ==> s.cancelled
  {
  }

  /** No lost wakeup: in no reachable state has a cancel completed while a waiter is parked on a
      notification that has not fired; every waiter that has not returned can step.  And none has
      returned before the flag went up. */
  lemma {:induction false} NoLostWakeup(s: State, actors: seq<Actor>)
    requires Start(s) && Schedule(s, actors)
    ensures var t := After(s, actors);
      && Safe(t)
      && (CancelCompleted(t) ==> forall w :: 0 <= w < |t.waiters| && t.waiters[w] != Returned ==> Enabled(t, Waits(w)))
      && (!t.cancelled ==> forall w :: 0 <= w < |t.waiters| ==> t.waiters[w] != Returned)
  {
    hide CancelCompleted, Step;
    if actors != [] {
      NoLostWakeup(s, actors[..|actors| - 1]);
      StepSafe(After(s, actors[..|actors| - 1]), actors[|actors| - 1]);
    } else {
      assert !CancelCompleted(s) by { NoneCompleted(s); }
    }
  }

  lemma NoneCompleted(s: State)
    requires Start(s)
    ensures !CancelCompleted(s)
  {
  }

  // ---- Every waiter returns ----------------------------------------------------------------

  /** The steps a waiter still needs once a cancel has completed. */
  function StepsLeft(w: Waiter): nat
  {
    match w case Returned => 0 case Ticket(_) => 1 case Loop => 2 case Parked(_) => 3
  }

  function StepsOf(actors: seq<Actor>, w: nat): nat
  {
    if actors == [] then 0
    else StepsOf(actors[..|actors| - 1], w) + if actors[|actors| - 1] == Waits(w) then 1 else 0
  }

  /** After a cancel has completed, each of a waiter's own steps brings it one closer to returning and
      nobody else's step changes it; so in any schedule it returns within three of its own steps, and
      until then it is never blocked. */
  lemma {:induction false} WaitersReturn(s: State, w: nat, actors: seq<Actor>)
    requires Safe(s) && CancelCompleted(s) && w < |s.waiters| && Schedule(s, actors)
    ensures var t := After(s, actors);
      && |t.waiters| == |s.waiters| && Safe(t) && CancelCompleted(t)
      && StepsLeft(t.waiters[w]) + StepsOf(actors, w) == StepsLeft(s.waiters[w]) <= 3
      && (t.waiters[w] != Returned ==> Enabled(t, Waits(w)))
  {
    hide CancelCompleted;
    if actors != [] {
      var front, a := actors[..|actors| - 1], actors[|actors| - 1];
      WaitersReturn(s, w, front);
      StepSafe(After(s, front), a);
      Completes(After(s, front), a);
      FlagUp(After(s, front));
    }
  }
}
