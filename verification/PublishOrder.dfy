/** The order of events in the log of a publish: what has always happened just before a server is
    contacted, a copy or a lookup sent, a route asked for, or a pause begun. */
module PublishOrder {
  import opened Options
  import opened Endpoints
  import opened Protocol
  import opened PublishMachine
  import opened PublishRuns
  import opened PublishLogs

  // ---- What comes before what --------------------------------------------------------------

  // A pause is over and the deadline not reached.
  predicate Rested(prev: Option<Event>, last: Option<Event>, expires: nat)
  {
    InTime(last, expires) && prev.Some? && prev.value.act.Slept?
  }

  predicate Stale(e: Option<Event>)
  {
    e.Some? && match e.value.act
      case Answered(answer) => answer == Failure(Client(Domain(StaleRoute)))
      case ReceiptAnswered(_, _, answer) => answer == Failure(Client(Domain(StaleRoute)))
      case _ => false
  }

  /** An event after these two: a connection is tried after the flag and the clock were read, in that order
      and in time; a copy goes out over the connection just made, in time; an answer follows its copy; a
      lookup is made in time; a route is asked for on arrival, after a stale one, or after a pause; the
      next attempt follows a route or a pause; and a pause is one of 25 ms, or of what is left. */
  predicate Proper(cfg: Config, expires: nat, prev: Option<Event>, last: Option<Event>, e: Event)
  {
    match e.act
    case Connected(_) => InTime(last, expires) && prev.Some? && prev.value.act == Polled(false)
    case ConnectFailed(_, _) => InTime(last, expires) && prev.Some? && prev.value.act == Polled(false)
    case Sent(endpoint, _) => InTime(last, expires) && prev.Some? && prev.value.act == Connected(endpoint)
    case Answered(_) => last.Some? && last.value.act.Sent?
    case ReceiptAnswered(_, _, _) => InTime(last, expires)
    case RouteAnswered(_, _) =>
      (prev == None && last.Some? && last.value.act == Polled(false)) || Stale(last) || Rested(prev, last, expires)
    case Polled(cancelled) =>
      && (cancelled ==> cfg.cancellable)
      && (last == None || (last.value.act.RouteAnswered? && last.value.act.route.Success?) || Rested(prev, last, expires))
    case Cancel => cfg.cancellable
    case Slept(duration) =>
      && InTime(last, expires) && e.at >= last.value.at + duration
      && duration == if expires - last.value.at < 25_000_000 then expires - last.value.at else 25_000_000
    case Clock => true
    case _ => false
  }

  /** The whole log is in that order. */
  ghost predicate InOrder(cfg: Config, expires: nat, events: seq<Event>)
  {
    forall i :: 0 <= i < |events| ==> Proper(cfg, expires, Back(events[..i], 1), Back(events[..i], 0), events[i])
  }

  // ---- The phase and the last two events ---------------------------------------------------

  predicate NapTail(nap: Nap, expires: nat, last: Option<Event>)
  {
    match nap
    case Due => true
    case Asleep(since) => InTime(last, expires) && last.value.at == since
    case Awake => last.Some? && last.value.act.Slept?
  }

  predicate RouteTail(r: RouteState, expires: nat, asks: bool, prev: Option<Event>, last: Option<Event>)
  {
    match r.phase
    case Asking => asks || Rested(prev, last, expires)
    case Pausing(nap) => NapTail(nap, expires, last)
  }

  predicate LookupTail(l: Lookup, expires: nat, prev: Option<Event>, last: Option<Event>)
  {
    match l.phase
    case LookupHead => true
    case LookupAsking => InTime(last, expires)
    case LookupRefreshing(r) => RouteTail(r, expires, Stale(last), prev, last)
    case LookupPausing(nap) => NapTail(nap, expires, last)
  }

  predicate Tail(s: State, prev: Option<Event>, last: Option<Event>)
  {
    match s.phase
    case Arriving => last == None
    case Routing(first, r) =>
      RouteTail(r, s.expires, if first then prev == None && last.Some? && last.value.act == Polled(false) else Stale(last), prev, last)
    case Head => last == None || (last.value.act.RouteAnswered? && last.value.act.route.Success?) || Rested(prev, last, s.expires)
    case HeadTime => last.Some? && last.value.act == Polled(false)
    case Connecting(Dialing) => InTime(last, s.expires) && prev.Some? && prev.value.act == Polled(false)
    case Connecting(Timing) => last.Some? && last.value.act.Connected? && GoesTo(s, last.value.act.endpoint)
    case Connecting(Sending) =>
      InTime(last, s.expires) && prev.Some? && prev.value.act.Connected? && GoesTo(s, prev.value.act.endpoint)
    case Awaiting => last.Some? && last.value.act.Sent?
    case Resting(nap) => NapTail(nap, s.expires, last)
    case Finishing(_) => true
    case LookingUp(_, l) => LookupTail(l, s.expires, prev, last)
    case Done(_) => true
  }

  lemma NapProper(cfg: Config, nap: Nap, e: Event, expires: nat, prev: Option<Event>, last: Option<Event>)
    requires NapTail(nap, expires, last) && NapStep(nap, e, expires).Some?
    ensures !e.act.Cancel? ==> Proper(cfg, expires, prev, last, e)
    ensures match NapStep(nap, e, expires).value
            case Dozing(nap') => NapTail(nap', expires, Some(e))
            case Rested => Rested(last, Some(e), expires)
            case _ => true
    ensures NapStep(nap, e, expires).value.Broken? <==> e.act.Cancel?
  {
  }

  lemma RouteProper(cfg: Config, r: RouteState, e: Event, expires: nat, asks: bool, prev: Option<Event>, last: Option<Event>)
    requires RouteTail(r, expires, asks, prev, last) && RouteStep(cfg, r, e, expires).Some?
    requires asks ==> Stale(last) || (prev == None && last.Some? && last.value.act == Polled(false))
    ensures !e.act.Cancel? ==> Proper(cfg, expires, prev, last, e)
    ensures var move := RouteStep(cfg, r, e, expires).value;
      && (move.Going? ==> RouteTail(move.state, expires, false, last, Some(e)))
      && (move.Resolved? ==> e.act.RouteAnswered? && e.act.route.Success?)
      && (move.Abandoned? <==> e.act.Cancel?)
  {
    hide NapStep, NapTail, Hinted;
    match r.phase {
      case Pausing(nap) => NapProper(cfg, nap, e, expires, prev, last);
      case Asking => assert NapTail(Due, expires, Some(e)) by { DueTail(expires, Some(e)); }
    }
  }

  lemma DueTail(expires: nat, last: Option<Event>)
    ensures NapTail(Due, expires, last)
  {
  }

  lemma LookupProper(cfg: Config, l: Lookup, e: Event, expires: nat, prev: Option<Event>, last: Option<Event>)
    requires LookupTail(l, expires, prev, last) && LookupStep(cfg, l, e, expires).Some?
    ensures Proper(cfg, expires, prev, last, e)
    ensures var move := LookupStep(cfg, l, e, expires).value;
      move.Looking? ==> LookupTail(move.lookup, expires, last, Some(e))
  {
    hide RouteStep, NapStep, Hint, Current;
    match l.phase {
      case LookupRefreshing(r) => RouteProper(cfg, r, e, expires, Stale(last), prev, last);
      case LookupPausing(nap) => NapProper(cfg, nap, e, expires, prev, last);
      case LookupAsking =>
        hide LookupAnswer;
        AnswerTail(cfg, LookupHears(l, e.act.receipt), e.act.receipt);
      case _ =>
    }
  }

  lemma AnswerTail(cfg: Config, l: Lookup, answer: Answer<Receipt>)
    ensures LookupAnswer(cfg, l, answer).Looking? ==>
      var phase := LookupAnswer(cfg, l, answer).lookup.phase;
      phase == LookupPausing(Due)
      || (phase == LookupRefreshing(NewRouteState(cfg.seeds)) && answer == Failure(Client(Domain(StaleRoute))))
  {
    hide Hint;
  }

  // What an answer leads to begins from anywhere, but for a route refresh, which only StaleRoute calls for.
  lemma DispatchTail(cfg: Config, s: State, answer: Answer<Receipt>, prev: Option<Event>, e: Event)
    requires e.act == Answered(answer) || (answer.Failure? && answer != Failure(Client(Domain(StaleRoute))))
    ensures Tail(Dispatch(cfg, s, answer), prev, Some(e))
  {
    hide Hint;
  }

  lemma ConnectingProper(cfg: Config, s: State, e: Event, prev: Option<Event>, last: Option<Event>)
    requires s.phase.Connecting? && Tail(s, prev, last) && StepConnecting(cfg, s, s.phase.stage, e).Some?
    ensures Proper(cfg, s.expires, prev, last, e)
    ensures Tail(StepConnecting(cfg, s, s.phase.stage, e).value, last, Some(e))
  {
    hide Dispatch;
    DispatchTail(cfg, s, Failure(Deadline), last, e);
    if e.act.ConnectFailed? {
      DispatchTail(cfg, s, Failure(e.act.error), last, e);
    }
  }

  lemma AwaitingProper(cfg: Config, s: State, e: Event, prev: Option<Event>, last: Option<Event>)
    requires s.phase.Awaiting? && Tail(s, prev, last) && StepAwaiting(cfg, s, e).Some?
    ensures Proper(cfg, s.expires, prev, last, e)
    ensures Tail(StepAwaiting(cfg, s, e).value, last, Some(e))
  {
    hide Dispatch;
    if e.act.Answered? {
      DispatchTail(cfg, Last(s, true, Some(e.act.answer)), e.act.answer, last, e);
    }
  }

  lemma RoutingProper(cfg: Config, s: State, e: Event, prev: Option<Event>, last: Option<Event>)
    requires s.phase.Routing? && Tail(s, prev, last) && StepRouting(cfg, s, s.phase.first, s.phase.route, e).Some?
    ensures Proper(cfg, s.expires, prev, last, e)
    ensures Tail(StepRouting(cfg, s, s.phase.first, s.phase.route, e).value, last, Some(e))
  {
    hide RouteStep, NapTail, Hint;
    var asks := if s.phase.first then prev == None && last.Some? && last.value.act == Polled(false) else Stale(last);
    RouteProper(cfg, s.phase.route, e, s.expires, asks, prev, last);
    DueTail(s.expires, Some(e));
  }

  lemma RestingProper(cfg: Config, s: State, e: Event, prev: Option<Event>, last: Option<Event>)
    requires s.phase.Resting? && Tail(s, prev, last) && StepResting(cfg, s, s.phase.nap, e).Some?
    ensures Proper(cfg, s.expires, prev, last, e)
    ensures Tail(StepResting(cfg, s, s.phase.nap, e).value, last, Some(e))
  {
    hide NapStep, NapTail;
    NapProper(cfg, s.phase.nap, e, s.expires, prev, last);
  }

  lemma LookingUpProper(cfg: Config, s: State, e: Event, prev: Option<Event>, last: Option<Event>)
    requires s.phase.LookingUp? && Tail(s, prev, last) && StepLookingUp(cfg, s, s.phase.reason, s.phase.lookup, e).Some?
    ensures Proper(cfg, s.expires, prev, last, e)
    ensures Tail(StepLookingUp(cfg, s, s.phase.reason, s.phase.lookup, e).value, last, Some(e))
  {
    hide LookupStep, LookupTail;
    LookupProper(cfg, s.phase.lookup, e, s.expires, prev, last);
  }

  lemma StepProper(cfg: Config, s: State, e: Event, prev: Option<Event>, last: Option<Event>)
    requires Tail(s, prev, last) && Step(cfg, s, e).Some? && (last == None ==> prev == None)
    ensures Proper(cfg, s.expires, prev, last, e)
    ensures Tail(Step(cfg, s, e).value, last, Some(e)) && Step(cfg, s, e).value.expires == s.expires
  {
    hide StepRouting, StepConnecting, StepAwaiting, StepResting, StepLookingUp, Current;
    StepKeepsDeadline(cfg, s, e);
    var t := s.(now := e.at);
    match s.phase {
      case Routing(_, _) => RoutingProper(cfg, t, e, prev, last);
      case Connecting(_) => ConnectingProper(cfg, t, e, prev, last);
      case Awaiting => AwaitingProper(cfg, t, e, prev, last);
      case Resting(_) => RestingProper(cfg, t, e, prev, last);
      case LookingUp(_, _) => LookingUpProper(cfg, t, e, prev, last);
      case _ =>
    }
  }

  /** In every run, whatever is answered, events come in that order. */
  lemma {:induction false} RunInOrder(cfg: Config, batch: Batch, route: Option<Route>, s: State, events: seq<Event>)
    requires From(cfg, batch, route, s) && Run(cfg, s, events).Some?
    ensures InOrder(cfg, s.expires, events)
    ensures Tail(Run(cfg, s, events).value, Back(events, 1), Back(events, 0)) && Run(cfg, s, events).value.expires == s.expires
  {
    hide Step, Tail, Proper;
    if events == [] {
      NothingBefore(cfg, batch, route, s);
    } else {
      var front, e := events[..|events| - 1], events[|events| - 1];
      RunInOrder(cfg, batch, route, s, front);
      StepProper(cfg, Run(cfg, s, front).value, e, Back(front, 1), Back(front, 0));
      forall i | 0 <= i < |events|
        ensures Proper(cfg, s.expires, Back(events[..i], 1), Back(events[..i], 0), events[i])
      {
        if i < |front| {
          assert events[..i] == front[..i] && events[i] == front[i];
        }
      }
    }
  }

  lemma NothingBefore(cfg: Config, batch: Batch, route: Option<Route>, s: State)
    requires From(cfg, batch, route, s)
    ensures Tail(s, None, None)
  {
    hide Hint;
  }

  // ---- What is sent ------------------------------------------------------------------------

  /** Every copy carries the batch, every lookup asks for its receipt, and both go by the last route that
      was answered before, or by the one the publish was given. */
  ghost predicate SendsBatch(batch: Batch, route: Option<Route>, events: seq<Event>)
  {
    forall i :: 0 <= i < |events| ==> SendsRight(batch, LastRoute(route, events[..i]), events[i].act)
  }

  ghost predicate SendsRight(batch: Batch, route: Option<Route>, act: Act)
  {
    match act
    case Sent(_, copy) => Carries(copy, batch) && GoesBy(copy.routeGroup, copy.routeRevision, route)
    case ReceiptAnswered(_, lookup, _) => AsksFor(lookup, batch) && GoesBy(lookup.routeGroup, lookup.routeRevision, route)
    case _ => true
  }

  // The route the next copy or lookup will go by.
  ghost predicate Knows(s: State, route: Option<Route>)
  {
    match s.phase
    case Done(_) => true
    case LookingUp(_, l) => GoesBy(l.request.routeGroup, l.request.routeRevision, route)
    case _ => GoesBy(s.request.routeGroup, s.request.routeRevision, route)
  }

  function Learned(route: Option<Route>, act: Act): Option<Route>
  {
    match act case RouteAnswered(_, Success(r)) => Some(r) case _ => route
  }

  lemma DispatchKnows(cfg: Config, s: State, route: Option<Route>, answer: Answer<Receipt>)
    requires Knows(s, route) && (s.phase.Connecting? || s.phase.Awaiting?)
    ensures Knows(Dispatch(cfg, s, answer), route)
  {
    hide Hint, GoesBy;
  }

  lemma ConnectingSends(cfg: Config, batch: Batch, s: State, route: Option<Route>, e: Event)
    requires s.phase.Connecting? && Knows(s, route) && Carries(s.request, batch) && StepConnecting(cfg, s, s.phase.stage, e).Some?
    ensures SendsRight(batch, route, e.act) && Knows(StepConnecting(cfg, s, s.phase.stage, e).value, Learned(route, e.act))
  {
    hide Dispatch, GoesBy, Carries, ConnectError;
    DispatchKnows(cfg, s, route, Failure(Deadline));
    if e.act.ConnectFailed? {
      DispatchKnows(cfg, s, route, Failure(e.act.error));
    }
  }

  lemma AwaitingSends(cfg: Config, batch: Batch, s: State, route: Option<Route>, e: Event)
    requires s.phase.Awaiting? && Knows(s, route) && StepAwaiting(cfg, s, e).Some?
    ensures SendsRight(batch, route, e.act) && Knows(StepAwaiting(cfg, s, e).value, Learned(route, e.act))
  {
    hide Dispatch, GoesBy, Carries;
    if e.act.Answered? {
      DispatchKnows(cfg, Last(s, true, Some(e.act.answer)), route, e.act.answer);
    }
  }

  lemma RouteStepLearns(cfg: Config, r: RouteState, e: Event, expires: nat)
    requires RouteStep(cfg, r, e, expires).Some?
    ensures e.act.RouteAnswered? || e.act.Clock? || e.act.Slept? || e.act.Cancel?
    ensures var move := RouteStep(cfg, r, e, expires).value;
      if e.act.RouteAnswered? && e.act.route.Success? then move == Resolved(e.act.route.value) else !move.Resolved?
  {
    hide Hinted;
  }

  lemma RoutingSends(cfg: Config, batch: Batch, s: State, route: Option<Route>, e: Event)
    requires s.phase.Routing? && Knows(s, route) && StepRouting(cfg, s, s.phase.first, s.phase.route, e).Some?
    ensures SendsRight(batch, route, e.act) && Knows(StepRouting(cfg, s, s.phase.first, s.phase.route, e).value, Learned(route, e.act))
  {
    hide RouteStep, Hint, Carries;
    RouteStepLearns(cfg, s.phase.route, e, s.expires);
  }

  lemma LookupSends(cfg: Config, batch: Batch, s: State, route: Option<Route>, e: Event)
    requires s.phase.LookingUp? && Knows(s, route) && AsksFor(s.phase.lookup.request, batch)
    requires StepLookingUp(cfg, s, s.phase.reason, s.phase.lookup, e).Some?
    ensures SendsRight(batch, route, e.act)
    ensures Knows(StepLookingUp(cfg, s, s.phase.reason, s.phase.lookup, e).value, Learned(route, e.act))
  {
    hide RouteStep, NapStep, Hint, Carries, Current;
    match s.phase.lookup.phase {
      case LookupRefreshing(r) => RouteStepLearns(cfg, r, e, s.expires);
      case LookupPausing(nap) => NapEvents(nap, e, s.expires);
      case _ =>
    }
  }

  lemma StepSends(cfg: Config, batch: Batch, s: State, route: Option<Route>, e: Event)
    requires SameBatch(batch, s) && Knows(s, route) && Step(cfg, s, e).Some?
    ensures SendsRight(batch, route, e.act) && Knows(Step(cfg, s, e).value, Learned(route, e.act))
  {
    hide StepRouting, StepConnecting, StepAwaiting, StepLookingUp, Current, Carries, GoesBy;
    var t := s.(now := e.at);
    match s.phase {
      case Routing(_, _) => RoutingSends(cfg, batch, t, route, e);
      case Connecting(_) => ConnectingSends(cfg, batch, t, route, e);
      case Awaiting => AwaitingSends(cfg, batch, t, route, e);
      case LookingUp(_, _) => LookupSends(cfg, batch, t, route, e);
      case Resting(nap) => NapEvents(nap, e, s.expires);
      case _ =>
    }
  }

  /** What every run sends, whatever is answered. */
  lemma {:induction false} RunSendsBatch(cfg: Config, batch: Batch, route: Option<Route>, s: State, events: seq<Event>)
    requires From(cfg, batch, route, s) && Run(cfg, s, events).Some?
    ensures SendsBatch(batch, route, events) && Knows(Run(cfg, s, events).value, LastRoute(route, events))
  {
    hide Step, Knows, SendsRight, Carries;
    if events == [] {
      KnowsFirst(cfg, batch, route, s);
    } else {
      var front, e := events[..|events| - 1], events[|events| - 1];
      RunSendsBatch(cfg, batch, route, s, front);
      RunSameBatch(cfg, batch, route, s, front);
      StepSends(cfg, batch, Run(cfg, s, front).value, LastRoute(route, front), e);
      assert LastRoute(route, events) == Learned(LastRoute(route, front), e.act);
      forall i | 0 <= i < |events|
        ensures SendsRight(batch, LastRoute(route, events[..i]), events[i].act)
      {
        if i < |front| {
          assert events[..i] == front[..i] && events[i] == front[i];
        }
      }
    }
  }

  lemma KnowsFirst(cfg: Config, batch: Batch, route: Option<Route>, s: State)
    requires From(cfg, batch, route, s)
    ensures Knows(s, route)
  {
    hide Hint;
  }
}
