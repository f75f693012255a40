/** publish_with and publish_with_resolved_route as a step system: what the client does next, and what
    it makes of each thing its environment does, with the history of attempts kept alongside.  A run of
    the system is a log of everything that passed between the two. */
module PublishMachine {
  import opened Options
  import opened Endpoints
  import opened Protocol

  // ---- receipt_until -----------------------------------------------------------------------

  /** One lookup: where it went, the answer, and the route that a stale route led to. */
  datatype Asked = Asked(endpoint: Endpoint, answer: Option<Answer<Receipt>>, refreshed: Option<Route>)

  datatype LookupPhase = LookupHead | LookupAsking | LookupRefreshing(route: RouteState) | LookupPausing(nap: Nap)

  datatype Lookup = Lookup(ring: Ring, request: LookupRequest, phase: LookupPhase, asked: seq<Asked>)

  datatype LookupMove = Looking(lookup: Lookup) | Found(receipt: Receipt) | NotFound(error: RpcError)

  function NewLookup(seeds: seq<Endpoint>, request: LookupRequest): Lookup
  {
    Lookup(NewRing(seeds), request, LookupHead, [])
  }

  function LookupFor(w: WireRequest): LookupRequest
  {
    LookupRequest(w.cluster, w.stream, w.partition, w.request, w.routeGroup, w.routeRevision)
  }

  // After an answer or a refresh: obey a leader hint if there is one, then pause.
  function LookupHint(cfg: Config, l: Lookup, leader: Option<Endpoint>): LookupMove
  {
    match leader
    case None => Looking(l.(phase := LookupPausing(Due)))
    case Some(hint) =>
      if cfg.valid(hint) then Looking(l.(ring := Hint(l.ring, hint), phase := LookupPausing(Due)))
      else NotFound(InvalidEndpoint(hint))
  }

  function LookupAnswer(cfg: Config, l: Lookup, answer: Answer<Receipt>): LookupMove
  {
    match answer
    case Success(receipt) => Found(receipt)
    case Failure(Deadline) => NotFound(Domain(ReceiptNotFound))
    case Failure(Client(error)) =>
      match error
      case Domain(ReceiptNotFound) => LookupHint(cfg, l, None)
      case Domain(QuorumUnavailable(_)) => LookupHint(cfg, l, None)
      case Connection => LookupHint(cfg, l, None)
      case RequestFailed => LookupHint(cfg, l, None)
      case Domain(NotLeader(leader)) => LookupHint(cfg, l, leader)
      case Domain(StaleRoute) => Looking(l.(phase := LookupRefreshing(NewRouteState(cfg.seeds))))
      case _ => NotFound(error)
  }

  // The lookup goes to the current endpoint; the next one to the endpoint after it.
  function LookupAsks(l: Lookup): Lookup
    requires l.ring.list != []
  {
    l.(ring := Advance(l.ring), phase := LookupAsking, asked := l.asked + [Asked(Current(l.ring), None, None)])
  }

  function LookupHears(l: Lookup, answer: Answer<Receipt>): Lookup
    requires l.asked != []
  {
    var n := |l.asked| - 1;
    l.(asked := l.asked[n := l.asked[n].(answer := Some(answer))])
  }

  function LookupReroutes(l: Lookup, route: Route): Lookup
    requires l.asked != []
  {
    var n := |l.asked| - 1;
    l.(asked := l.asked[n := l.asked[n].(refreshed := Some(route))],
       request := l.request.(routeGroup := route.group, routeRevision := route.revision))
  }

  function LookupRouted(cfg: Config, l: Lookup, move: RouteMove): Option<LookupMove>
  {
    match move
    case Going(r) => Some(Looking(l.(phase := LookupRefreshing(r))))
    case Unresolved(error) => Some(NotFound(error))
    case Resolved(route) => if l.asked == [] then None else Some(LookupHint(cfg, LookupReroutes(l, route), route.leader))
    case Abandoned => None
  }

  function LookupNapped(l: Lookup, move: NapMove): Option<LookupMove>
  {
    match move
    case Dozing(nap) => Some(Looking(l.(phase := LookupPausing(nap))))
    case Rested => Some(Looking(l.(phase := LookupHead)))
    case Expired => Some(NotFound(Domain(ReceiptNotFound)))
    case Broken => None
  }

  function LookupStep(cfg: Config, l: Lookup, e: Event, expires: nat): Option<LookupMove>
  {
    match l.phase
    case LookupHead =>
      if !e.act.Clock? then None
      else if e.at >= expires then Some(NotFound(Domain(ReceiptNotFound)))
      else if l.ring.list == [] then None
      else Some(Looking(LookupAsks(l)))
    case LookupAsking =>
      (match e.act
       case ReceiptAnswered(endpoint, request, answer) =>
         if l.asked == [] || endpoint != l.asked[|l.asked| - 1].endpoint || request != l.request then None
         else Some(LookupAnswer(cfg, LookupHears(l, answer), answer))
       case _ => None)
    case LookupRefreshing(r) =>
      (match RouteStep(cfg, r, e, expires)
       case None => None
       case Some(move) => LookupRouted(cfg, l, move))
    case LookupPausing(nap) =>
      (match NapStep(nap, e, expires)
       case None => None
       case Some(move) => LookupNapped(l, move))
  }

  /** What a whole sequence of events makes of a lookup; None when they cannot happen. */
  ghost function LookupRun(cfg: Config, l: Lookup, now: nat, events: seq<Event>, expires: nat): Option<LookupMove>
  {
    if events == [] then Some(Looking(l))
    else
      var front, e := events[..|events| - 1], events[|events| - 1];
      match LookupRun(cfg, l, now, front, expires)
      case Some(Looking(l')) => if e.at < Ticks(now, front) then None else LookupStep(cfg, l', e, expires)
      case _ => None
  }

  // ---- publish_with ------------------------------------------------------------------------

  /** One call of publish_once: where it went, what it carried, whether it got as far as sending, the
      answer, and the route that a stale route led to. */
  datatype Attempt = Attempt(endpoint: Endpoint, request: WireRequest, sent: bool,
                             answer: Option<Answer<Receipt>>, refreshed: Option<Route>)
  {
    // A copy that was sent and never refused.
    predicate Unrefuted() { sent && !(answer.Some? && Refusal(answer.value)) }
  }

  datatype Result = Ok(receipt: Receipt) | Err(error: ClientError)

  // connect_client, then timed_request, then the request goes out.
  datatype Stage = Dialing | Timing | Sending

  datatype Phase =
    | Arriving
    | Routing(first: bool, route: RouteState)
    | Head
    | HeadTime
    | Connecting(stage: Stage)
    | Awaiting
    | Resting(nap: Nap)
    | Finishing(reason: Interruption)
    | LookingUp(reason: Interruption, lookup: Lookup)
    | Done(result: Result)

  datatype State = State(
    now: nat, start: nat, expires: nat,
    request: WireRequest, lead: Option<Endpoint>, ring: Ring, mayHaveReached: bool, before: bool, phase: Phase,
    attempts: seq<Attempt>, tries: nat, pauses: nat)

  predicate SameClock(s: State, t: State)
  {
    t.now == s.now && t.start == s.start && t.expires == s.expires
  }

  /** The client as it enters publish_with or, when its route is given, publish_with_resolved_route. */
  function Initial(cfg: Config, batch: Batch, route: Option<Route>, start: nat, now: nat, expires: nat): State
  {
    var s := State(now, start, expires, ToWire(batch, Route(0, 0, None)), None, NewRing(cfg.seeds), false, false, Arriving, [], 0, 0);
    match route
    case None => s
    case Some(r) => Enter(cfg, s, r)
  }

  // The route is known: the client comes to its loop, or is stopped by a leader hint it cannot use.
  function Enter(cfg: Config, s: State, route: Route): (t: State)
    ensures SameClock(s, t)
  {
    var s' := s.(request := s.request.(routeGroup := route.group, routeRevision := route.revision), lead := route.leader);
    match route.leader
    case None => s'.(phase := Head)
    case Some(hint) =>
      if cfg.valid(hint) then s'.(ring := Hint(s.ring, hint), phase := Head) else s'.(phase := Done(Err(Passed(InvalidEndpoint(hint)))))
  }

  // Obeys a leader hint if there is one, then pauses before the next attempt.
  function Retry(cfg: Config, s: State, leader: Option<Endpoint>): (t: State)
    ensures SameClock(s, t) && t.attempts == s.attempts
  {
    match leader
    case None => s.(phase := Resting(Due))
    case Some(hint) =>
      if cfg.valid(hint) then s.(ring := Hint(s.ring, hint), phase := Resting(Due))
      else s.(phase := Done(Err(Passed(InvalidEndpoint(hint)))))
  }

  // The error finish_interrupted_publish reports without a receipt.
  function Interrupt(s: State, reason: Interruption): State
  {
    s.(phase := Done(Err(Interrupted(reason, OutcomeFor(s.mayHaveReached), s.request.request))))
  }

  /** finish_interrupted_publish: whether the receipt is worth a lookup. */
  function Finish(cfg: Config, s: State, reason: Interruption): (t: State)
    ensures SameClock(s, t) && t.attempts == s.attempts
  {
    if s.mayHaveReached && cfg.resolveReceipt then s.(phase := Finishing(reason)) else Interrupt(s, reason)
  }

  /** The match on the result of publish_once. */
  function Dispatch(cfg: Config, s: State, answer: Answer<Receipt>): (t: State)
    ensures SameClock(s, t) && t.attempts == s.attempts
  {
    match answer
    case Success(receipt) => s.(phase := Done(Ok(receipt)))
    case Failure(Deadline) => Finish(cfg, s, DeadlinePassed)
    case Failure(Client(error)) =>
      var passed := s.(phase := Done(Err(Passed(error))));
      match error
      case Domain(NotLeader(leader)) =>
        var s' := s.(mayHaveReached := s.before);
        if cfg.retry then Retry(cfg, s', leader) else s'.(phase := Done(Err(Passed(error))))
      case Domain(QuorumUnavailable(outcome)) =>
        if cfg.retry then
          Retry(cfg, if outcome == DefiniteNoCommit then s.(mayHaveReached := s.before) else s, None)
        else if outcome == AmbiguousCommit && cfg.resolveReceipt && s.mayHaveReached then Finish(cfg, s, Transport)
        else passed
      case Connection =>
        if cfg.retry then Retry(cfg, s, None)
        else if cfg.resolveReceipt && s.mayHaveReached then Finish(cfg, s, Transport)
        else passed
      case RequestFailed =>
        if cfg.retry then Retry(cfg, s, None)
        else if cfg.resolveReceipt && s.mayHaveReached then Finish(cfg, s, Transport)
        else passed
      case Domain(StaleRoute) =>
        if cfg.retry then
          s.(mayHaveReached := s.before, phase := Routing(false, NewRouteState(cfg.seeds)), tries := s.tries + 1)
        else passed
      case _ => passed
  }

  // The attempt under way.

  function Begun(s: State): State
    requires s.ring.list != []
  {
    s.(ring := Advance(s.ring), before := s.mayHaveReached, phase := Connecting(Dialing), tries := s.tries + 1,
       attempts := s.attempts + [Attempt(Current(s.ring), s.request, false, None, None)])
  }

  predicate GoesTo(s: State, endpoint: Endpoint)
  {
    s.attempts != [] && s.attempts[|s.attempts| - 1].endpoint == endpoint
  }

  function Last(s: State, sent: bool, answer: Option<Answer<Receipt>>): State
    requires s.attempts != []
  {
    var n := |s.attempts| - 1;
    s.(attempts := s.attempts[n := s.attempts[n].(sent := sent, answer := answer)])
  }

  function Rerouted(s: State, route: Route): State
    requires s.attempts != []
  {
    var n := |s.attempts| - 1;
    s.(request := s.request.(routeGroup := route.group, routeRevision := route.revision),
       attempts := s.attempts[n := s.attempts[n].(refreshed := Some(route))])
  }

  // What each phase makes of an event; None when the event cannot happen in it.

  function StepArriving(cfg: Config, s: State, e: Event): (t: Option<State>)
    ensures t.Some? ==> SameClock(s, t.value)
  {
    match e.act
    case Polled(true) => if cfg.cancellable then Some(Interrupt(s, Cancelled)) else None
    case Polled(false) => Some(s.(phase := Routing(true, NewRouteState(cfg.seeds)), tries := s.tries + 1))
    case _ => None
  }

  // A route resolution that goes on: every try after a pause counts.
  function Routed(s: State, first: bool, r: RouteState, r': RouteState): State
  {
    if r.phase.Pausing? && r'.phase.Asking?
    then s.(phase := Routing(first, r'), tries := s.tries + 1, pauses := s.pauses + 1)
    else s.(phase := Routing(first, r'))
  }

  function StepRouting(cfg: Config, s: State, first: bool, r: RouteState, e: Event): (t: Option<State>)
    ensures t.Some? ==> SameClock(s, t.value)
  {
    match RouteStep(cfg, r, e, s.expires)
    case None => None
    case Some(Going(r')) => Some(Routed(s, first, r, r'))
    case Some(Unresolved(error)) => Some(s.(phase := Done(Err(Passed(error)))))
    case Some(Abandoned) => if first && cfg.cancellable then Some(Interrupt(s, Cancelled)) else None
    case Some(Resolved(route)) =>
      if first then Some(Enter(cfg, s, route))
      else if s.attempts == [] then None
      else Some(Retry(cfg, Rerouted(s, route), route.leader))
  }

  function StepHead(cfg: Config, s: State, e: Event): (t: Option<State>)
    ensures t.Some? ==> SameClock(s, t.value)
  {
    match e.act
    case Polled(true) => if cfg.cancellable then Some(Finish(cfg, s, Cancelled)) else None
    case Polled(false) => Some(s.(phase := HeadTime))
    case _ => None
  }

  function StepHeadTime(cfg: Config, s: State, e: Event): (t: Option<State>)
    ensures t.Some? ==> SameClock(s, t.value)
  {
    if !e.act.Clock? then None
    else if e.at >= s.expires then Some(Finish(cfg, s, DeadlinePassed))
    else if s.ring.list == [] then None
    else Some(Begun(s))
  }

  function StepConnecting(cfg: Config, s: State, stage: Stage, e: Event): (t: Option<State>)
    ensures t.Some? ==> SameClock(s, t.value)
  {
    match (stage, e.act)
    case (Dialing, Cancel) => if cfg.cancellable then Some(Finish(cfg, s, Cancelled)) else None
    case (Dialing, ConnectFailed(endpoint, error)) =>
      if GoesTo(s, endpoint) && ConnectError(error) then Some(Dispatch(cfg, s, Failure(error))) else None
    case (Dialing, Connected(endpoint)) => if GoesTo(s, endpoint) then Some(s.(phase := Connecting(Timing))) else None
    case (Timing, Clock) =>
      if e.at >= s.expires then Some(Dispatch(cfg, s, Failure(Deadline))) else Some(s.(phase := Connecting(Sending)))
    case (Sending, Sent(endpoint, request)) =>
      if GoesTo(s, endpoint) && request == s.request then Some(Last(s, true, None).(mayHaveReached := true, phase := Awaiting)) else None
    case _ => None
  }

  function StepAwaiting(cfg: Config, s: State, e: Event): (t: Option<State>)
    ensures t.Some? ==> SameClock(s, t.value)
  {
    match e.act
    case Cancel => if cfg.cancellable then Some(Finish(cfg, s, Cancelled)) else None
    case Answered(answer) => if s.attempts == [] then None else Some(Dispatch(cfg, Last(s, true, Some(answer)), answer))
    case _ => None
  }

  function Napped(cfg: Config, s: State, move: NapMove): (t: Option<State>)
    ensures t.Some? ==> SameClock(s, t.value)
  {
    match move
    case Dozing(nap) => Some(s.(phase := Resting(nap)))
    case Rested => Some(s.(phase := Head, pauses := s.pauses + 1))
    case Expired => Some(Finish(cfg, s, DeadlinePassed))
    case Broken => if cfg.cancellable then Some(Finish(cfg, s, Cancelled)) else None
  }

  function StepResting(cfg: Config, s: State, nap: Nap, e: Event): (t: Option<State>)
    ensures t.Some? ==> SameClock(s, t.value)
  {
    match NapStep(nap, e, s.expires)
    case None => None
    case Some(move) => Napped(cfg, s, move)
  }

  function StepFinishing(cfg: Config, s: State, reason: Interruption, e: Event): (t: Option<State>)
    ensures t.Some? ==> SameClock(s, t.value)
  {
    if !e.act.Clock? then None
    else if e.at < s.expires then Some(s.(phase := LookingUp(reason, NewLookup(cfg.seeds, LookupFor(s.request)))))
    else Some(Interrupt(s, reason))
  }

  function Looked(s: State, reason: Interruption, move: LookupMove): State
  {
    match move
    case Looking(l) => s.(phase := LookingUp(reason, l))
    case Found(receipt) => s.(phase := Done(Ok(receipt)))
    case NotFound(error) =>
      if error == Domain(ReceiptNotFound) then Interrupt(s, reason) else s.(phase := Done(Err(Passed(error))))
  }

  function StepLookingUp(cfg: Config, s: State, reason: Interruption, l: Lookup, e: Event): (t: Option<State>)
    ensures t.Some? ==> SameClock(s, t.value)
  {
    match LookupStep(cfg, l, e, s.expires)
    case None => None
    case Some(move) => Some(Looked(s, reason, move))
  }

  /** The state after one event; None when the event cannot happen in this state. */
  function Step(cfg: Config, s: State, e: Event): Option<State>
  {
    if e.at < s.now then None
    else
      var t := s.(now := e.at);
      match s.phase
      case Arriving => StepArriving(cfg, t, e)
      case Routing(first, r) => StepRouting(cfg, t, first, r, e)
      case Head => StepHead(cfg, t, e)
      case HeadTime => StepHeadTime(cfg, t, e)
      case Connecting(stage) => StepConnecting(cfg, t, stage, e)
      case Awaiting => StepAwaiting(cfg, t, e)
      case Resting(nap) => StepResting(cfg, t, nap, e)
      case Finishing(reason) => StepFinishing(cfg, t, reason, e)
      case LookingUp(reason, l) => StepLookingUp(cfg, t, reason, l, e)
      case Done(_) => None
  }

  /** The state after a whole log; None when the log is no run. */
  ghost function Run(cfg: Config, s: State, events: seq<Event>): Option<State>
  {
    if events == [] then Some(s)
    else match Run(cfg, s, events[..|events| - 1])
      case None => None
      case Some(s') => Step(cfg, s', events[|events| - 1])
  }
}
