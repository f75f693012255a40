/** What an interrupted publish that may have reached a server can still end in. */
module PublishReceipts {
  import opened Options
  import opened Endpoints
  import opened Protocol
  import opened PublishMachine
  import opened PublishRuns

  /** The event is a server's answer to a lookup of the batch's own request id, with this receipt. */
  ghost predicate Finds(batch: Batch, e: Event, receipt: Receipt)
  {
    e.act.ReceiptAnswered? && AsksFor(e.act.lookup, batch) && e.act.receipt == Success(receipt)
  }

  ghost predicate LookupOutcome(batch: Batch, reason: Interruption, events: seq<Event>, s: State)
  {
    match s.phase
    case Finishing(r) => r == reason && s.mayHaveReached
    case LookingUp(r, l) => r == reason && s.mayHaveReached
    case Done(Ok(receipt)) => events != [] && Finds(batch, events[|events| - 1], receipt)
    case Done(Err(Interrupted(r, outcome, request))) => r == reason && outcome == AmbiguousCommit && request == batch.request
    case Done(Err(Passed(error))) => error != Domain(ReceiptNotFound)
    case _ => false
  }

  lemma LookupStepOutcome(cfg: Config, batch: Batch, reason: Interruption, front: seq<Event>, s: State, e: Event)
    requires (s.phase.Finishing? || s.phase.LookingUp?) && LookupOutcome(batch, reason, front, s)
    requires SameBatch(batch, s) && Step(cfg, s, e).Some?
    ensures LookupOutcome(batch, reason, front + [e], Step(cfg, s, e).value)
  {
    hide RouteStep, NapStep, Hint, Current;
  }

  lemma LookupStarted(cfg: Config, batch: Batch, s: State, reason: Interruption)
    requires s.mayHaveReached && SameBatch(batch, s)
    ensures LookupOutcome(batch, reason, [], Finish(cfg, s, reason)) && SameBatch(batch, Finish(cfg, s, reason))
  {
  }

  /** Receipt resolution never downgrades ambiguity: whatever answers an interrupted publish that may have
      reached a server is given, it is still looking, or the last answer was the receipt of that very
      request id, or it reports AmbiguousCommit, or passes a lookup error through.  It never reports
      DefiniteNoCommit. */
  lemma {:induction false} LookupNeverDowngrades(cfg: Config, batch: Batch, s: State, reason: Interruption, events: seq<Event>)
    requires s.mayHaveReached && SameBatch(batch, s) && Run(cfg, Finish(cfg, s, reason), events).Some?
    ensures LookupOutcome(batch, reason, events, Run(cfg, Finish(cfg, s, reason), events).value)
    ensures SameBatch(batch, Run(cfg, Finish(cfg, s, reason), events).value)
  {
    hide Step, Finish, SameBatch;
    LookupStarted(cfg, batch, s, reason);
    if events != [] {
      var front, e := events[..|events| - 1], events[|events| - 1];
      LookupNeverDowngrades(cfg, batch, s, reason, front);
      var before := Run(cfg, Finish(cfg, s, reason), front).value;
      DoneIsLast(cfg, before, e);
      LookupStepOutcome(cfg, batch, reason, front, before, e);
      StepSameBatch(cfg, batch, before, e);
      assert front + [e] == events;
    }
  }

  lemma DoneIsLast(cfg: Config, s: State, e: Event)
    requires Step(cfg, s, e).Some?
    ensures !s.phase.Done?
  {
    hide StepArriving, StepRouting, StepHead, StepHeadTime, StepConnecting, StepAwaiting, StepResting, StepFinishing, StepLookingUp;
  }

  /** What makes a lookup give up without a receipt: the deadline, seen at the head of the loop, during
      the call or around the pause, or a route refresh answered ReceiptNotFound. */
  ghost predicate GivesUp(l: Lookup, e: Event, expires: nat)
  {
    match (l.phase, e.act)
    case (LookupHead, Clock) => e.at >= expires
    case (LookupAsking, ReceiptAnswered(endpoint, request, answer)) =>
      answer == Failure(Deadline) && l.asked != [] && endpoint == l.asked[|l.asked| - 1].endpoint && request == l.request
    case (LookupPausing(Due), Clock) => e.at >= expires
    case (LookupPausing(Awake), Clock) => e.at >= expires
    case (LookupRefreshing(r), RouteAnswered(endpoint, answer)) =>
      r.phase.Asking? && answer == Failure(Client(Domain(ReceiptNotFound))) && r.list != [] && endpoint == r.list[r.index % |r.list|]
    case _ => false
  }

  lemma LookupGivesUp(cfg: Config, l: Lookup, e: Event, expires: nat)
    ensures LookupStep(cfg, l, e, expires) == Some(NotFound(Domain(ReceiptNotFound))) <==> GivesUp(l, e, expires)
  {
    hide Hint;
  }

  /** What makes a lookup fail with any other error: an error it does not retry, from a server or from a
      route refresh, or a leader it cannot use. */
  ghost predicate FailsWith(cfg: Config, l: Lookup, e: Event, expires: nat, error: RpcError)
  {
    match (l.phase, e.act)
    case (LookupAsking, ReceiptAnswered(_, _, Failure(Client(Domain(NotLeader(Some(hint))))))) =>
      !cfg.valid(hint) && error == InvalidEndpoint(hint)
    case (LookupAsking, ReceiptAnswered(_, _, Failure(Client(failure)))) => error == failure && !Retried(failure)
    case (LookupRefreshing(r), _) =>
      (match RouteStep(cfg, r, e, expires)
       case Some(Unresolved(failure)) => error == failure
       case Some(Resolved(route)) => route.leader.Some? && !cfg.valid(route.leader.value) && error == InvalidEndpoint(route.leader.value)
       case _ => false)
    case _ => false
  }

  // The errors that only make a lookup ask again.
  predicate Retried(error: RpcError)
  {
    match error
    case Domain(d) => d.ReceiptNotFound? || d.QuorumUnavailable? || d.NotLeader? || d.StaleRoute?
    case _ => error.Connection? || error.RequestFailed?
  }

  lemma LookupStepEnds(cfg: Config, l: Lookup, e: Event, expires: nat)
    requires LookupStep(cfg, l, e, expires).Some?
    ensures match LookupStep(cfg, l, e, expires).value
            case Looking(_) => true
            case Found(receipt) => e.act.ReceiptAnswered? && e.act.lookup == l.request && e.act.receipt == Success(receipt)
            case NotFound(error) =>
              if error == Domain(ReceiptNotFound) then GivesUp(l, e, expires) else FailsWith(cfg, l, e, expires, error)
    ensures e.act.ReceiptAnswered? && e.act.receipt.Success? ==> LookupStep(cfg, l, e, expires) == Some(Found(e.act.receipt.value))
    ensures GivesUp(l, e, expires) ==> LookupStep(cfg, l, e, expires) == Some(NotFound(Domain(ReceiptNotFound)))
    ensures forall error :: FailsWith(cfg, l, e, expires, error) && l.asked != [] ==>
      LookupStep(cfg, l, e, expires) == Some(NotFound(error))
  {
    hide RouteStep, NapStep, Hint, Current;
    LookupGivesUp(cfg, l, e, expires);
    match l.phase {
      case LookupRefreshing(r) => RouteContacts(cfg, r, e, expires);
      case LookupPausing(nap) => NapContactsNobody(nap, e, expires);
      case _ =>
    }
  }

  /** How a whole lookup ends: with the receipt exactly when the last event is a server's answer with it;
      with ReceiptNotFound, and so AmbiguousCommit, exactly when it gave up; and with any other error
      exactly when the last event is one of its failures. */
  lemma LookupEnds(cfg: Config, l: Lookup, now: nat, events: seq<Event>, expires: nat)
    requires l.asked == [] && l.phase.LookupHead? && events != []
    requires LookupRun(cfg, l, now, events, expires).Some? && !LookupRun(cfg, l, now, events, expires).value.Looking?
    ensures var move, e := LookupRun(cfg, l, now, events, expires).value, events[|events| - 1];
      var before := LookupRun(cfg, l, now, events[..|events| - 1], expires);
      && before.Some? && before.value.Looking? && var l' := before.value.lookup;
      && (forall receipt :: move == Found(receipt) <==> e.act.ReceiptAnswered? && e.act.receipt == Success(receipt))
      && (move == NotFound(Domain(ReceiptNotFound)) <==> GivesUp(l', e, expires))
      && (forall error :: error != Domain(ReceiptNotFound) ==> (move == NotFound(error) <==> FailsWith(cfg, l', e, expires, error)))
  {
    hide LookupStep, GivesUp, FailsWith;
    var front, e := events[..|events| - 1], events[|events| - 1];
    var l' := LookupRun(cfg, l, now, front, expires).value.lookup;
    LookupHasAsked(cfg, l, now, front, expires);
    LookupStepEnds(cfg, l', e, expires);
    OnlyAsked(cfg, l', e, expires);
  }

  // Before it has asked, a lookup has nothing to fail with.
  lemma OnlyAsked(cfg: Config, l: Lookup, e: Event, expires: nat)
    ensures l.phase.LookupHead? || l.phase.LookupPausing? ==> forall error :: !FailsWith(cfg, l, e, expires, error)
  {
  }

  lemma {:induction false} LookupHasAsked(cfg: Config, l: Lookup, now: nat, events: seq<Event>, expires: nat)
    requires l.asked == [] && l.phase.LookupHead?
    requires LookupRun(cfg, l, now, events, expires).Some? && LookupRun(cfg, l, now, events, expires).value.Looking?
    ensures var l' := LookupRun(cfg, l, now, events, expires).value.lookup; l'.phase.LookupHead? || l'.asked != []
  {
    hide LookupStep;
    if events != [] {
      var front, e := events[..|events| - 1], events[|events| - 1];
      LookupHasAsked(cfg, l, now, front, expires);
      LookupStepAsked(cfg, LookupRun(cfg, l, now, front, expires).value.lookup, e, expires);
    }
  }

  lemma LookupStepAsked(cfg: Config, l: Lookup, e: Event, expires: nat)
    requires (l.phase.LookupHead? || l.asked != []) && LookupStep(cfg, l, e, expires).Some? && LookupStep(cfg, l, e, expires).value.Looking?
    ensures LookupStep(cfg, l, e, expires).value.lookup.asked != []
  {
    hide RouteStep, NapStep, Hint, Current;
  }

  // ---- ReceiptNotFound ---------------------------------------------------------------------

  /** Every lookup in the log was answered ReceiptNotFound. */
  ghost predicate NoneFound(events: seq<Event>)
  {
    forall i :: 0 <= i < |events| && events[i].act.ReceiptAnswered? ==>
      events[i].act.receipt == Failure(Client(Domain(ReceiptNotFound)))
  }

  /** The pauses that are over. */
  ghost function Pauses(events: seq<Event>): nat
  {
    if events == [] then 0 else Pauses(events[..|events| - 1]) + if events[|events| - 1].act.Slept? then 1 else 0
  }

  // A lookup, then a pause, then the next lookup.
  ghost predicate LooksAgain(l: Lookup, pauses: nat)
  {
    match l.phase
    case LookupHead => |l.asked| == pauses
    case LookupAsking => |l.asked| == pauses + 1
    case LookupPausing(nap) => |l.asked| == pauses + if nap.Awake? then 0 else 1
    case LookupRefreshing(_) => false
  }

  ghost predicate LookedInVain(batch: Batch, reason: Interruption, events: seq<Event>, s: State)
  {
    match s.phase
    case Finishing(r) => r == reason && events == []
    case LookingUp(r, l) => r == reason && LooksAgain(l, Pauses(events))
    case Done(result) =>
      && result == Err(Interrupted(reason, AmbiguousCommit, batch.request))
      && (events != [] ==> events[|events| - 1].act.Clock? && events[|events| - 1].at >= s.expires)
    case _ => false
  }

  // One step of a lookup that finds nothing: on to the next phase, or given up at the deadline.
  lemma VainLookup(cfg: Config, l: Lookup, pauses: nat, e: Event, expires: nat)
    requires LooksAgain(l, pauses) && LookupStep(cfg, l, e, expires).Some?
    requires e.act.ReceiptAnswered? ==> e.act.receipt == Failure(Client(Domain(ReceiptNotFound)))
    ensures match LookupStep(cfg, l, e, expires).value
            case Looking(l') => LooksAgain(l', pauses + if e.act.Slept? then 1 else 0)
            case NotFound(error) => error == Domain(ReceiptNotFound) && e.act.Clock? && e.at >= expires
            case Found(_) => false
  {
    hide RouteStep, Current;
  }

  lemma VainStep(cfg: Config, batch: Batch, reason: Interruption, front: seq<Event>, s: State, e: Event)
    requires s.mayHaveReached && SameBatch(batch, s) && LookedInVain(batch, reason, front, s) && Step(cfg, s, e).Some?
    requires e.act.ReceiptAnswered? ==> e.act.receipt == Failure(Client(Domain(ReceiptNotFound)))
    ensures LookedInVain(batch, reason, front + [e], Step(cfg, s, e).value)
    ensures Step(cfg, s, e).value.mayHaveReached
  {
    hide LookupStep, LooksAgain;
    assert (front + [e])[..|front|] == front;
    if s.phase.LookingUp? {
      VainLookup(cfg, s.phase.lookup, Pauses(front), e, s.expires);
    } else {
      NewLooksAgain(cfg, LookupFor(s.request));
      assert s.phase.Finishing? ==> Pauses(front) == 0 && Pauses(front + [e]) == if e.act.Slept? then 1 else 0;
    }
  }

  lemma NewLooksAgain(cfg: Config, request: LookupRequest)
    ensures LooksAgain(NewLookup(cfg.seeds, request), 0)
  {
  }

  /** A server's ReceiptNotFound never ends the search: while every lookup is answered with it, the
      client pauses and looks again, once a pause, until it reads a clock past the deadline, and then
      reports AmbiguousCommit. */
  lemma {:induction false} NotFoundLooksAgain(cfg: Config, batch: Batch, s: State, reason: Interruption, events: seq<Event>)
    requires s.mayHaveReached && SameBatch(batch, s) && Run(cfg, Finish(cfg, s, reason), events).Some?
    requires NoneFound(events)
    ensures LookedInVain(batch, reason, events, Run(cfg, Finish(cfg, s, reason), events).value)
    ensures Run(cfg, Finish(cfg, s, reason), events).value.mayHaveReached
  {
    hide Step, SameBatch, LookedInVain;
    if events == [] {
      StartsInVain(cfg, batch, s, reason);
    } else {
      var front, e := events[..|events| - 1], events[|events| - 1];
      NotFoundLooksAgain(cfg, batch, s, reason, front);
      LookupNeverDowngrades(cfg, batch, s, reason, front);
      VainStep(cfg, batch, reason, front, Run(cfg, Finish(cfg, s, reason), front).value, e);
      assert front + [e] == events;
    }
  }

  lemma StartsInVain(cfg: Config, batch: Batch, s: State, reason: Interruption)
    requires s.mayHaveReached && SameBatch(batch, s)
    ensures LookedInVain(batch, reason, [], Finish(cfg, s, reason))
  {
  }
}
