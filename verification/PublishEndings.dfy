/** When a publish is over and with what, told by its log alone: every run ends at the first event that
    decides its result, and with that result. */
module PublishEndings {
  import opened Options
  import opened Endpoints
  import opened Protocol
  import opened RouteRuns
  import opened PublishMachine
  import opened PublishCertainty
  import opened PublishRuns
  import opened PublishLogs
  import opened PublishOrder

  // ---- What decides a result ---------------------------------------------------------------

  /** What stops an attempt or the wait for the next one, and why: cancellation, the deadline, or a failed
      transport that is not retried while a copy is left open and its receipt may be looked up.  A deadline
      that passes while a route is being resolved is no interruption. */
  function Breaks(cfg: Config, expires: nat, routing: bool, open: bool, e: Event): Option<Interruption>
  {
    match e.act
    case Polled(true) => Some(Cancelled)
    case Cancel => Some(Cancelled)
    case Clock => if e.at >= expires && !routing then Some(DeadlinePassed) else None
    case ConnectFailed(_, Deadline) => Some(DeadlinePassed)
    case Answered(Failure(Deadline)) => Some(DeadlinePassed)
    case ConnectFailed(_, Client(error)) => if Unsettled(cfg, open, error) then Some(Transport) else None
    case Answered(Failure(Client(error))) => if Unsettled(cfg, open, error) then Some(Transport) else None
    case _ => None
  }

  predicate Unsettled(cfg: Config, open: bool, error: RpcError)
  {
    && !cfg.retry && cfg.resolveReceipt && open
    && error in {Connection, RequestFailed, Domain(QuorumUnavailable(AmbiguousCommit))}
  }

  /** The error a failed attempt ends the publish with; None when another attempt follows. */
  function EndsAttempts(cfg: Config, error: RpcError): Option<RpcError>
  {
    if !cfg.retry then Some(error)
    else match error
      case Connection => None
      case RequestFailed => None
      case Domain(StaleRoute) => None
      case Domain(QuorumUnavailable(_)) => None
      case Domain(NotLeader(leader)) => if leader.Some? then Unusable(cfg, leader.value) else None
      case _ => Some(error)
  }

  /** The error a failed lookup ends the search with, whether failures are retried or not. */
  function EndsLookup(cfg: Config, error: RpcError): Option<RpcError>
  {
    match error
    case Connection => None
    case RequestFailed => None
    case Domain(ReceiptNotFound) => None
    case Domain(StaleRoute) => None
    case Domain(QuorumUnavailable(_)) => None
    case Domain(NotLeader(leader)) => if leader.Some? then Unusable(cfg, leader.value) else None
    case _ => Some(error)
  }

  function Fails(error: Option<RpcError>): Option<Result>
  {
    match error case None => None case Some(e) => Some(Err(Passed(e)))
  }

  // A deadline that passes while a route is being resolved.
  function LateRoute(): Option<Result> { Fails(Some(Domain(QuorumUnavailable(NotApplicable)))) }

  /** What an event decides before any lookup. */
  function Decides(cfg: Config, id: RequestId, expires: nat, routing: bool, open: bool, e: Event): Option<Result>
  {
    match Breaks(cfg, expires, routing, open, e)
    case Some(reason) =>
      if open && cfg.resolveReceipt then None
      else Some(Err(Interrupted(reason, if open then AmbiguousCommit else DefiniteNoCommit, id)))
    case None =>
      match e.act
      case Answered(Success(receipt)) => Some(Ok(receipt))
      case Answered(Failure(Client(error))) => Fails(EndsAttempts(cfg, error))
      case ConnectFailed(_, Client(error)) => Fails(EndsAttempts(cfg, error))
      case RouteAnswered(_, answer) => Fails(AnsweredRoute(cfg, answer))
      case Clock => if e.at >= expires then LateRoute() else None
      case _ => None
  }

  /** What an event decides once the receipt is being looked up. */
  function LookupDecides(cfg: Config, id: RequestId, expires: nat, routing: bool, reason: Interruption, e: Event): Option<Result>
  {
    var unknown := Some(Err(Interrupted(reason, AmbiguousCommit, id)));
    match e.act
    case Clock => if e.at < expires then None else if routing then LateRoute() else unknown
    case ReceiptAnswered(_, _, Success(receipt)) => Some(Ok(receipt))
    case ReceiptAnswered(_, _, Failure(Deadline)) => unknown
    case ReceiptAnswered(_, _, Failure(Client(error))) => Fails(EndsLookup(cfg, error))
    case RouteAnswered(_, answer) =>
      if AnsweredRoute(cfg, answer) == Some(Domain(ReceiptNotFound)) then unknown else Fails(AnsweredRoute(cfg, answer))
    case _ => None
  }

  /** Why the receipt is being looked up: what first broke the publish off with a copy left open. */
  ghost function Searching(cfg: Config, expires: nat, events: seq<Event>): Option<Interruption>
  {
    if events == [] then None
    else
      var front, open := events[..|events| - 1], LeftOpen(Deliveries(events));
      match Searching(cfg, expires, front)
      case Some(reason) => Some(reason)
      case None => Searches(cfg, expires, RouteFailed(front), open, events[|events| - 1])
  }

  function Searches(cfg: Config, expires: nat, routing: bool, open: bool, e: Event): Option<Interruption>
  {
    if open && cfg.resolveReceipt then Breaks(cfg, expires, routing, open, e) else None
  }

  /** The result the last event decides, if it does. */
  ghost function Verdict(cfg: Config, id: RequestId, expires: nat, events: seq<Event>): Option<Result>
  {
    if events == [] then None
    else
      var front, e := events[..|events| - 1], events[|events| - 1];
      match Searching(cfg, expires, front)
      case None => Decides(cfg, id, expires, RouteFailed(front), LeftOpen(Deliveries(events)), e)
      case Some(reason) => LookupDecides(cfg, id, expires, RouteFailed(front), reason, e)
  }

  // ---- A run and its verdict ---------------------------------------------------------------

  /** The phase is that of a publish that is over exactly when a result is decided, and looks a receipt up
      exactly when that has begun. */
  predicate Agrees(phase: Phase, searching: Option<Interruption>, verdict: Option<Result>)
  {
    match phase
    case Done(result) => verdict == Some(result)
    case Finishing(reason) => verdict == None && searching == Some(reason)
    case LookingUp(reason, _) => verdict == None && searching == Some(reason)
    case _ => verdict == None && searching == None
  }

  // Whether the next clock reading belongs to the pause of a route resolution.
  predicate RouteKnown(phase: Phase, routing: bool)
  {
    match phase
    case Routing(_, r) => r.phase.Pausing? ==> routing
    case LookingUp(_, l) => if l.phase.LookupRefreshing? then l.phase.route.phase.Pausing? ==> routing else !routing
    case Done(_) => true
    case _ => !routing
  }

  /** One step keeps all that: before it a lookup or none, after it what the event makes of that. */
  ghost predicate Agreed(cfg: Config, s: State, searching: Option<Interruption>, routing: bool, e: Event, t: State)
  {
    var open := Open(t.attempts);
    && (match searching
        case None =>
          Agrees(t.phase, Searches(cfg, s.expires, routing, open, e), Decides(cfg, s.request.request, s.expires, routing, open, e))
        case Some(reason) =>
          Agrees(t.phase, searching, LookupDecides(cfg, s.request.request, s.expires, routing, reason, e)))
    && RouteKnown(t.phase, StillRouting(routing, e.act))
  }

  predicate StillRouting(routing: bool, act: Act)
  {
    if act.Clock? || act.Slept? then routing else act.RouteAnswered? && act.route.Failure?
  }

  lemma DispatchAgrees(cfg: Config, s: State, open: bool, e: Event, answer: Answer<Receipt>)
    requires e.act == Answered(answer) || (answer.Failure? && exists endpoint :: e.act == ConnectFailed(endpoint, answer.error))
    requires (if Refusal(answer) then s.before else s.mayHaveReached) == open
    ensures Agrees(Dispatch(cfg, s, answer).phase, Searches(cfg, s.expires, false, open, e),
                   Decides(cfg, s.request.request, s.expires, false, open, e))
    ensures RouteKnown(Dispatch(cfg, s, answer).phase, false)
  {
    hide Hint;
  }

  // An interruption before any lookup.
  lemma FinishAgrees(cfg: Config, s: State, open: bool, e: Event, reason: Interruption)
    requires s.mayHaveReached == open && Breaks(cfg, s.expires, false, open, e) == Some(reason)
    ensures Agrees(Finish(cfg, s, reason).phase, Searches(cfg, s.expires, false, open, e),
                   Decides(cfg, s.request.request, s.expires, false, open, e))
    ensures RouteKnown(Finish(cfg, s, reason).phase, false)
  {
    hide Breaks;
  }

  lemma ArrivingFollows(cfg: Config, s: State, e: Event)
    requires s.phase.Arriving? && FlagExact(s) && s.attempts == [] && StepArriving(cfg, s, e).Some?
    ensures Agreed(cfg, s, None, false, e, StepArriving(cfg, s, e).value)
  {
  }

  // What a step of a route resolution says of its event.
  ghost predicate RouteSays(cfg: Config, r: RouteState, e: Event, expires: nat, move: RouteMove)
  {
    && (if r.phase.Asking? then e.act.Cancel? || e.act.RouteAnswered? else e.act.Cancel? || e.act.Clock? || e.act.Slept?)
    && match move
       case Going(r') =>
         && !e.act.Cancel? && (e.act.Clock? ==> e.at < expires) && (r.phase.Asking? ==> r'.phase.Pausing?)
         && (e.act.RouteAnswered? ==> e.act.route.Failure? && RouteError(cfg, e.act.route.error) == None)
       case Resolved(route) => e.act.RouteAnswered? && e.act.route == Success(route)
       case Unresolved(error) =>
         if e.act.RouteAnswered? then e.act.route.Failure? && RouteError(cfg, e.act.route.error) == Some(error)
         else e.act.Clock? && e.at >= expires && error == Domain(QuorumUnavailable(NotApplicable))
       case Abandoned => e.act.Cancel?
  }

  lemma RouteStepSays(cfg: Config, r: RouteState, e: Event, expires: nat)
    requires RouteStep(cfg, r, e, expires).Some?
    ensures RouteSays(cfg, r, e, expires, RouteStep(cfg, r, e, expires).value)
  {
    hide Hinted;
  }

  lemma RoutingFollows(cfg: Config, s: State, routing: bool, e: Event)
    requires s.phase.Routing? && FlagExact(s) && (s.phase.first ==> s.attempts == []) && s.now == e.at
    requires RouteKnown(s.phase, routing) && StepRouting(cfg, s, s.phase.first, s.phase.route, e).Some?
    ensures Agreed(cfg, s, None, routing, e, StepRouting(cfg, s, s.phase.first, s.phase.route, e).value)
  {
    hide RouteStep, Hint, Open, RouteError;
    RouteStepSays(cfg, s.phase.route, e, s.expires);
    if s.phase.first {
      assert !Open([]) by { NothingOpen(); }
    }
  }

  lemma NothingOpen()
    ensures !Open([])
  {
  }

  lemma HeadFollows(cfg: Config, s: State, e: Event)
    requires s.phase.Head? && FlagExact(s) && StepHead(cfg, s, e).Some?
    ensures Agreed(cfg, s, None, false, e, StepHead(cfg, s, e).value)
  {
    hide Open, Finish;
    if e.act == Polled(true) {
      FinishKeepsAttempts(cfg, s, Cancelled);
      FinishAgrees(cfg, s, Open(s.attempts), e, Cancelled);
    }
  }

  lemma FinishKeepsAttempts(cfg: Config, s: State, reason: Interruption)
    ensures Finish(cfg, s, reason).attempts == s.attempts
  {
  }

  lemma HeadTimeFollows(cfg: Config, s: State, e: Event)
    requires s.phase.HeadTime? && FlagExact(s) && StepHeadTime(cfg, s, e).Some?
    ensures Agreed(cfg, s, None, false, e, StepHeadTime(cfg, s, e).value)
  {
    hide Open, Finish, Current;
    if e.at >= s.expires {
      FinishKeepsAttempts(cfg, s, DeadlinePassed);
      FinishAgrees(cfg, s, Open(s.attempts), e, DeadlinePassed);
    }
  }

  lemma ConnectingFollows(cfg: Config, s: State, e: Event)
    requires s.phase.Connecting? && FlagExact(s) && StepConnecting(cfg, s, s.phase.stage, e).Some?
    ensures Agreed(cfg, s, None, false, e, StepConnecting(cfg, s, s.phase.stage, e).value)
  {
    hide Open, Dispatch, Finish, ConnectError;
    OpenSplits(s.attempts);
    match e.act {
      case Cancel =>
        FinishKeepsAttempts(cfg, s, Cancelled);
        FinishAgrees(cfg, s, Open(s.attempts), e, Cancelled);
      case Clock =>
        if e.at >= s.expires {
          TimeoutDispatches(cfg, s);
          FinishKeepsAttempts(cfg, s, DeadlinePassed);
          FinishAgrees(cfg, s, Open(s.attempts), e, DeadlinePassed);
        }
      case ConnectFailed(_, error) =>
        NoRefusal(error);
        DispatchAgrees(cfg, s, Open(s.attempts), e, Failure(error));
      case _ =>
    }
  }

  lemma NoRefusal(error: Protocol.AttemptError)
    requires ConnectError(error)
    ensures !Refusal<Receipt>(Failure(error))
  {
  }

  lemma TimeoutDispatches(cfg: Config, s: State)
    ensures Dispatch(cfg, s, Failure(Deadline)) == Finish(cfg, s, DeadlinePassed)
  {
  }

  lemma AwaitingFollows(cfg: Config, s: State, e: Event)
    requires s.phase.Awaiting? && FlagExact(s) && StepAwaiting(cfg, s, e).Some?
    ensures Agreed(cfg, s, None, false, e, StepAwaiting(cfg, s, e).value)
  {
    hide Open, Dispatch, Finish, Refusal;
    OpenSplits(s.attempts);
    if e.act.Answered? {
      var t := Last(s, true, Some(e.act.answer));
      OpenSplits(t.attempts);
      assert t.attempts[..|s.attempts| - 1] == s.attempts[..|s.attempts| - 1];
      DispatchAgrees(cfg, t, Open(t.attempts), e, e.act.answer);
    } else {
      FinishKeepsAttempts(cfg, s, Cancelled);
      FinishAgrees(cfg, s, Open(s.attempts), e, Cancelled);
    }
  }

  lemma RestingFollows(cfg: Config, s: State, e: Event)
    requires s.phase.Resting? && FlagExact(s) && s.now == e.at && StepResting(cfg, s, s.phase.nap, e).Some?
    ensures Agreed(cfg, s, None, false, e, StepResting(cfg, s, s.phase.nap, e).value)
  {
    hide Open, Finish;
    if e.act.Cancel? {
      FinishKeepsAttempts(cfg, s, Cancelled);
      FinishAgrees(cfg, s, Open(s.attempts), e, Cancelled);
    } else if e.act.Clock? && e.at >= s.expires {
      FinishKeepsAttempts(cfg, s, DeadlinePassed);
      FinishAgrees(cfg, s, Open(s.attempts), e, DeadlinePassed);
    }
  }

  lemma FinishingFollows(cfg: Config, s: State, e: Event)
    requires s.phase.Finishing? && FlagExact(s) && StepFinishing(cfg, s, s.phase.reason, e).Some?
    ensures Agreed(cfg, s, Some(s.phase.reason), false, e, StepFinishing(cfg, s, s.phase.reason, e).value)
  {
    hide Open;
  }

  // One step of the lookup itself.
  lemma LookupSays(cfg: Config, s: State, routing: bool, l: Lookup, reason: Interruption, e: Event)
    requires s.phase == LookingUp(reason, l) && RouteKnown(s.phase, routing) && LookupStep(cfg, l, e, s.expires).Some?
    requires s.mayHaveReached
    ensures var phase := Looked(s, reason, LookupStep(cfg, l, e, s.expires).value).phase;
      && Agrees(phase, Some(reason), LookupDecides(cfg, s.request.request, s.expires, routing, reason, e))
      && RouteKnown(phase, StillRouting(routing, e.act))
  {
    hide RouteStep, Hint, Current, RouteError;
    match l.phase {
      case LookupRefreshing(_) =>
        hide LookupStep;
        RefreshingSays(cfg, s, routing, l, reason, e);
      case LookupAsking =>
        hide LookupStep;
        AskingSays(cfg, s, routing, l, reason, e);
      case _ =>
        hide LookupAnswer, EndsLookup, LookupRouted;
    }
  }

  lemma RefreshingSays(cfg: Config, s: State, routing: bool, l: Lookup, reason: Interruption, e: Event)
    requires s.phase == LookingUp(reason, l) && l.phase.LookupRefreshing? && LookupStep(cfg, l, e, s.expires).Some?
    requires RouteKnown(s.phase, routing) && s.mayHaveReached
    ensures var phase := Looked(s, reason, LookupStep(cfg, l, e, s.expires).value).phase;
      && Agrees(phase, Some(reason), LookupDecides(cfg, s.request.request, s.expires, routing, reason, e))
      && RouteKnown(phase, StillRouting(routing, e.act))
  {
    hide LookupAnswer, EndsLookup, RouteStep, Hint, RouteError;
    RouteStepSays(cfg, l.phase.route, e, s.expires);
  }

  lemma AskingSays(cfg: Config, s: State, routing: bool, l: Lookup, reason: Interruption, e: Event)
    requires s.phase == LookingUp(reason, l) && l.phase.LookupAsking? && !routing && LookupStep(cfg, l, e, s.expires).Some?
    requires s.mayHaveReached
    ensures var phase := Looked(s, reason, LookupStep(cfg, l, e, s.expires).value).phase;
      && Agrees(phase, Some(reason), LookupDecides(cfg, s.request.request, s.expires, routing, reason, e))
      && RouteKnown(phase, StillRouting(routing, e.act))
  {
    hide LookupAnswer, EndsLookup, RouteStep, NapStep;
    LookupAnswerSays(cfg, LookupHears(l, e.act.receipt), e.act.receipt);
  }

  lemma LookupAnswerSays(cfg: Config, l: Lookup, answer: Answer<Receipt>)
    ensures match answer
            case Success(receipt) => LookupAnswer(cfg, l, answer) == Found(receipt)
            case Failure(Deadline) => LookupAnswer(cfg, l, answer) == NotFound(Domain(ReceiptNotFound))
            case Failure(Client(error)) =>
              match EndsLookup(cfg, error)
              case None => LookupAnswer(cfg, l, answer).Looking? && !RefreshPauses(LookupAnswer(cfg, l, answer).lookup)
              case Some(e) => e != Domain(ReceiptNotFound) && LookupAnswer(cfg, l, answer) == NotFound(e)
  {
    hide Hint;
  }

  predicate RefreshPauses(l: Lookup) { l.phase.LookupRefreshing? && l.phase.route.phase.Pausing? }

  lemma LookingUpFollows(cfg: Config, s: State, routing: bool, e: Event)
    requires s.phase.LookingUp? && FlagExact(s) && RouteKnown(s.phase, routing)
    requires StepLookingUp(cfg, s, s.phase.reason, s.phase.lookup, e).Some?
    ensures Agreed(cfg, s, Some(s.phase.reason), routing, e, StepLookingUp(cfg, s, s.phase.reason, s.phase.lookup, e).value)
  {
    hide Open, LookupStep;
    LookupSays(cfg, s, routing, s.phase.lookup, s.phase.reason, e);
  }

  /** A lookup has begun exactly when the phase says so, and a route is being resolved only when its phase
      says so. */
  ghost predicate Stands(cfg: Config, events: seq<Event>, s: State)
  {
    && RouteKnown(s.phase, RouteFailed(events))
    && (!s.phase.Done? ==> Searching(cfg, s.expires, events) == match s.phase
          case Finishing(reason) => Some(reason)
          case LookingUp(reason, _) => Some(reason)
          case _ => None)
  }

  lemma StepFollows(cfg: Config, s: State, searching: Option<Interruption>, routing: bool, e: Event)
    requires FlagExact(s) && (Entering(s) ==> s.attempts == []) && RouteKnown(s.phase, routing) && Step(cfg, s, e).Some?
    requires searching == match s.phase
      case Finishing(reason) => Some(reason)
      case LookingUp(reason, _) => Some(reason)
      case _ => None
    ensures Agreed(cfg, s, searching, routing, e, Step(cfg, s, e).value)
  {
    hide StepArriving, StepRouting, StepHead, StepHeadTime, StepConnecting, StepAwaiting, StepResting, StepFinishing,
         StepLookingUp, Breaks, Decides, LookupDecides, Open;
    var t := s.(now := e.at);
    TimeExact(s, e.at);
    match s.phase {
      case Arriving => ArrivingFollows(cfg, t, e);
      case Routing(_, _) => RoutingFollows(cfg, t, routing, e);
      case Head => HeadFollows(cfg, t, e);
      case HeadTime => HeadTimeFollows(cfg, t, e);
      case Connecting(_) => ConnectingFollows(cfg, t, e);
      case Awaiting => AwaitingFollows(cfg, t, e);
      case Resting(_) => RestingFollows(cfg, t, e);
      case Finishing(_) => FinishingFollows(cfg, t, e);
      case LookingUp(_, _) => LookingUpFollows(cfg, t, routing, e);
      case Done(_) =>
    }
  }

  // What is known of a run whatever it has come to.
  lemma RunFacts(cfg: Config, batch: Batch, route: Option<Route>, s: State, events: seq<Event>)
    requires From(cfg, batch, route, s) && Run(cfg, s, events).Some?
    ensures var t := Run(cfg, s, events).value;
      && FlagExact(t) && (Entering(t) ==> t.attempts == []) && t.request.request == batch.request && t.expires == s.expires
      && Open(t.attempts) == LeftOpen(Deliveries(events))
  {
    hide Run, FlagExact, Open, InTurn, RingAfter, LeftOpen, Deliveries, Carries;
    var t := Run(cfg, s, events).value;
    RunExact(cfg, batch, route, s.start, s.now, s.expires, events);
    RunWalks(cfg, batch, route, s, events);
    RunSameBatch(cfg, batch, route, s, events);
    RunStaysInBudget(cfg, batch, route, s, events);
    RunDeliveries(cfg, batch, route, s, events);
    OpenIsLeftOpen(t.attempts);
    CarriesRequest(t.request, batch);
  }

  /** Every run is over exactly when its log decides a result, and then with that result: at no earlier
      point, whatever was answered. */
  lemma {:induction false} RunDecided(cfg: Config, batch: Batch, route: Option<Route>, s: State, events: seq<Event>)
    requires From(cfg, batch, route, s) && events != [] && Run(cfg, s, events).Some?
    ensures var t := Run(cfg, s, events).value;
      && Verdict(cfg, batch.request, s.expires, events) == (match t.phase case Done(result) => Some(result) case _ => None)
      && Stands(cfg, events, t)
  {
    hide Step, Decides, LookupDecides, Searches, FlagExact, Open, LeftOpen, Deliveries, From, RouteKnown;
    var front, e := events[..|events| - 1], events[|events| - 1];
    var before := Run(cfg, s, front).value;
    DoneStays(cfg, before, e);
    if front == [] {
      BeginsStanding(cfg, batch, route, s, e);
    } else {
      RunDecided(cfg, batch, route, s, front);
    }
    RunFacts(cfg, batch, route, s, front);
    RunFacts(cfg, batch, route, s, events);
    var searching, routing := Searching(cfg, s.expires, front), RouteFailed(front);
    StepFollows(cfg, before, searching, routing, e);
    assert RouteFailed(events) == StillRouting(routing, e.act);
  }

  lemma DoneStays(cfg: Config, s: State, e: Event)
    requires Step(cfg, s, e).Some?
    ensures !s.phase.Done?
  {
    hide StepArriving, StepRouting, StepHead, StepHeadTime, StepConnecting, StepAwaiting, StepResting, StepFinishing, StepLookingUp;
  }

  lemma BeginsStanding(cfg: Config, batch: Batch, route: Option<Route>, s: State, e: Event)
    requires From(cfg, batch, route, s) && Step(cfg, s, e).Some?
    ensures Stands(cfg, [], s)
  {
    hide StepArriving, StepRouting, StepHead, StepHeadTime, StepConnecting, StepAwaiting, StepResting, StepFinishing, StepLookingUp, Hint;
  }

  lemma CarriesRequest(w: WireRequest, batch: Batch)
    requires Carries(w, batch)
    ensures w.request == batch.request
  {
  }

  // ---- Lookups -----------------------------------------------------------------------------

  predicate OfAttempt(act: Act)
  {
    act.Polled? || act.Connected? || act.ConnectFailed? || act.Sent? || act.Answered?
  }

  /** Receipts are asked for once the search has begun, and attempts are made only before it. */
  ghost predicate SearchesLast(cfg: Config, expires: nat, events: seq<Event>)
  {
    forall i :: 0 <= i < |events| ==>
      && (events[i].act.ReceiptAnswered? ==> Searching(cfg, expires, events[..i]).Some?)
      && (OfAttempt(events[i].act) ==> Searching(cfg, expires, events[..i]).None?)
  }

  lemma StepSearches(cfg: Config, s: State, e: Event)
    requires Step(cfg, s, e).Some?
    ensures e.act.ReceiptAnswered? ==> s.phase.LookingUp?
    ensures OfAttempt(e.act) ==> !s.phase.Finishing? && !s.phase.LookingUp?
    ensures !s.phase.Done?
  {
    hide RouteStep, NapStep, Dispatch, ConnectError, Hint, Current, Finish;
    match s.phase {
      case Routing(_, r) => RouteStepSays(cfg, r, e, s.expires);
      case Resting(nap) => NapEvents(nap, e, s.expires);
      case LookingUp(_, l) => LookupStepSearches(cfg, l, e, s.expires);
      case _ =>
    }
  }

  lemma LookupStepSearches(cfg: Config, l: Lookup, e: Event, expires: nat)
    requires LookupStep(cfg, l, e, expires).Some?
    ensures !OfAttempt(e.act)
  {
    hide RouteStep, NapStep, Hint, Current, LookupAnswer;
    match l.phase {
      case LookupRefreshing(r) => RouteStepSays(cfg, r, e, expires);
      case LookupPausing(nap) => NapEvents(nap, e, expires);
      case _ =>
    }
  }

  lemma {:induction false} RunSearchesLast(cfg: Config, batch: Batch, route: Option<Route>, s: State, events: seq<Event>)
    requires From(cfg, batch, route, s) && Run(cfg, s, events).Some?
    ensures SearchesLast(cfg, s.expires, events)
  {
    hide Step, Searching, Verdict, RouteKnown;
    if events != [] {
      var front, e := events[..|events| - 1], events[|events| - 1];
      RunSearchesLast(cfg, batch, route, s, front);
      var before := Run(cfg, s, front).value;
      StepSearches(cfg, before, e);
      if front == [] {
        BeginsStanding(cfg, batch, route, s, e);
      } else {
        RunDecided(cfg, batch, route, s, front);
      }
      RunStaysInBudget(cfg, batch, route, s, front);
      forall i | 0 <= i < |events|
        ensures events[i].act.ReceiptAnswered? ==> Searching(cfg, s.expires, events[..i]).Some?
        ensures OfAttempt(events[i].act) ==> Searching(cfg, s.expires, events[..i]).None?
      {
        if i < |front| {
          assert events[..i] == front[..i] && events[i] == front[i];
        }
      }
    }
  }

  lemma {:induction false} SearchingResolves(cfg: Config, expires: nat, events: seq<Event>)
    ensures Searching(cfg, expires, events).Some? ==> cfg.resolveReceipt
  {
    hide Breaks, LeftOpen;
    if events != [] {
      SearchingResolves(cfg, expires, events[..|events| - 1]);
    }
  }

  /** What leaves the receipt unknown: a clock read at or past the deadline, a lookup that ran into it, or a
      route refresh answered ReceiptNotFound. */
  predicate Unknown(e: Event, expires: nat)
  {
    match e.act
    case Clock => e.at >= expires
    case ReceiptAnswered(_, _, answer) => answer == Failure(Deadline)
    case RouteAnswered(_, answer) => answer == Failure(Client(Domain(ReceiptNotFound)))
    case _ => false
  }

  lemma AmbiguousLast(cfg: Config, id: RequestId, expires: nat, events: seq<Event>)
    requires events != [] && Verdict(cfg, id, expires, events).Some? && cfg.resolveReceipt
    ensures var result := Verdict(cfg, id, expires, events).value;
      result.Err? && result.error.Interrupted? && result.error.outcome == AmbiguousCommit ==>
        Unknown(events[|events| - 1], expires)
  {
    hide Searching, LeftOpen, RouteFailed;
  }

  // ---- What a caller can rely on -----------------------------------------------------------

  /** The log decides this result with its last event and none before. */
  ghost predicate Decided(cfg: Config, id: RequestId, expires: nat, log: seq<Event>, result: Result)
  {
    && Verdict(cfg, id, expires, log) == Some(result)
    && forall n :: 0 <= n < |log| ==> Verdict(cfg, id, expires, log[..n]) == None
  }

  // A known route whose leader cannot be used stops the publish before it does anything.
  predicate Stillborn(cfg: Config, route: Option<Route>, result: Result)
  {
    route.Some? && route.value.leader.Some? && !cfg.valid(route.value.leader.value)
    && result == Err(Passed(InvalidEndpoint(route.value.leader.value)))
  }

  /** What the log of a finished publish shows.  It is over at the first event that decides a result, and
      has that result.  An interruption names the request and is DefiniteNoCommit exactly when every copy
      in the log was refused; with receipt resolution AmbiguousCommit comes only after looking until the
      receipt was unknown, and without it no receipt is asked for.  Everything sent carries the batch and
      goes by the last known route; events come in order; and the deadline bounds how many copies there
      are, and how often servers are contacted before any lookup. */
  ghost predicate Reliable(cfg: Config, batch: Batch, route: Option<Route>, expires: nat, log: seq<Event>, result: Result)
  {
    var ds := Deliveries(log);
    && (if log == [] then Stillborn(cfg, route, result) else Decided(cfg, batch.request, expires, log, result))
    && (result.Err? && result.error.Interrupted? ==>
          && result.error.request == batch.request
          && result.error.outcome == (if LeftOpen(ds) then AmbiguousCommit else DefiniteNoCommit)
          && (cfg.resolveReceipt && LeftOpen(ds) ==> log != [] && Unknown(log[|log| - 1], expires)))
    && SearchesLast(cfg, expires, log)
    && (!cfg.resolveReceipt ==> forall i :: 0 <= i < |log| ==> !log[i].act.ReceiptAnswered?)
    && SendsBatch(batch, route, log)
    && InOrder(cfg, expires, log)
    && |ds| <= PausesIn(cfg.deadline)
    && Contacts(log) <= 2 * PausesIn(cfg.deadline) + FirstTries(route)
  }

  /** The log is a whole run that ends in this result. */
  ghost predicate Ends(cfg: Config, first: State, events: seq<Event>, result: Result)
  {
    Run(cfg, first, events).Some? && Run(cfg, first, events).value.phase == Done(result)
  }

  lemma {:induction false} RunPrefix(cfg: Config, s: State, events: seq<Event>, n: nat)
    requires Run(cfg, s, events).Some? && n < |events|
    ensures Run(cfg, s, events[..n]).Some? && !Run(cfg, s, events[..n]).value.phase.Done?
    decreases |events|
  {
    hide Step;
    var front := events[..|events| - 1];
    if n < |front| {
      RunPrefix(cfg, s, front, n);
      assert front[..n] == events[..n];
    } else {
      StepSearches(cfg, Run(cfg, s, front).value, events[|events| - 1]);
    }
  }

  lemma RunIsDecided(cfg: Config, batch: Batch, route: Option<Route>, s: State, events: seq<Event>, result: Result)
    requires From(cfg, batch, route, s) && Ends(cfg, s, events, result) && events != []
    ensures Decided(cfg, batch.request, s.expires, events, result)
  {
    hide Run, Stands;
    RunDecided(cfg, batch, route, s, events);
    forall n | 0 <= n < |events|
      ensures Verdict(cfg, batch.request, s.expires, events[..n]) == None
    {
      RunPrefix(cfg, s, events, n);
      if n > 0 {
        RunDecided(cfg, batch, route, s, events[..n]);
      }
    }
  }

  lemma NothingSentStillborn(cfg: Config, batch: Batch, route: Option<Route>, s: State, result: Result)
    requires From(cfg, batch, route, s) && Ends(cfg, s, [], result)
    ensures Stillborn(cfg, route, result)
  {
    hide Hint;
  }

  lemma RunIsReliable(cfg: Config, batch: Batch, route: Option<Route>, s: State, events: seq<Event>, result: Result)
    requires From(cfg, batch, route, s) && Ends(cfg, s, events, result) && s.expires == s.start + cfg.deadline
    ensures Reliable(cfg, batch, route, s.expires, events, result)
  {
    hide Run, Open, LeftOpen, Carries, PausesIn, Deliveries, SentOf, Contacts, SendsBatch, InOrder, Verdict, Searching, Unknown;
    var t := Run(cfg, s, events).value;
    RunExact(cfg, batch, route, s.start, s.now, s.expires, events);
    RunSameBatch(cfg, batch, route, s, events);
    RunInBudget(cfg, batch, route, s, events);
    RunDeliveries(cfg, batch, route, s, events);
    OpenIsLeftOpen(t.attempts);
    SentOfAttempts(t.attempts);
    CarriesRequest(t.request, batch);
    if events == [] {
      NothingSentStillborn(cfg, batch, route, s, result);
    } else {
      RunIsDecided(cfg, batch, route, s, events, result);
      if cfg.resolveReceipt {
        AmbiguousLast(cfg, batch.request, s.expires, events);
      }
    }
    RunSearchesLast(cfg, batch, route, s, events);
    RunSendsBatch(cfg, batch, route, s, events);
    RunInOrder(cfg, batch, route, s, events);
    forall i | 0 <= i < |events|
      ensures !cfg.resolveReceipt ==> !events[i].act.ReceiptAnswered?
    {
      SearchingResolves(cfg, s.expires, events[..i]);
    }
  }
}
