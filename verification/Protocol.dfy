/** The values the client exchanges with servers, the errors it reports, everything that can pass
    between a client and its environment, and the two pieces every retry loop shares: the 25 ms pause
    under a deadline and the route resolution. */
module Protocol {
  import opened Options
  import opened Endpoints
  import opened Bytes

  datatype Outcome = DefiniteNoCommit | AmbiguousCommit | NotApplicable

  datatype Interruption = Cancelled | DeadlinePassed | Transport

  datatype RequestId = RequestId(principal: string, session: string, sequence: nat)

  /** The domain errors the retry loops tell apart; OtherDomain stands for each of the rest. */
  datatype DomainError =
    | NotLeader(leader: Option<Endpoint>)
    | StaleRoute
    | QuorumUnavailable(outcome: Outcome)
    | ReceiptNotFound
    | OtherDomain(code: nat)

  /** What an attempt or a lookup can fail with. */
  datatype RpcError =
    | InvalidEndpoint(endpoint: Endpoint)
    | Connection
    | RequestFailed
    | ProtocolViolation
    | SecurityConfiguration
    | Domain(error: DomainError)

  /** What publish reports: an error passed through, or an interruption with its certainty. */
  datatype ClientError =
    | Passed(error: RpcError)
    | Interrupted(reason: Interruption, outcome: Outcome, request: RequestId)

  datatype AttemptError = Deadline | Client(error: RpcError)

  datatype Answer<+T> = Success(value: T) | Failure(error: AttemptError)

  datatype Receipt = Receipt(request: RequestId, first: nat, count: nat)

  datatype Route = Route(group: nat, revision: nat, leader: Option<Endpoint>)

  datatype Batch = Batch(cluster: string, stream: string, partition: nat, request: RequestId,
                         records: seq<seq<Byte>>, bookmark: Option<string>)

  datatype WireRequest = WireRequest(cluster: string, stream: string, partition: nat, request: RequestId,
                                     records: seq<seq<Byte>>, bookmark: string, routeGroup: nat, routeRevision: nat)

  function ToWire(batch: Batch, route: Route): WireRequest
  {
    WireRequest(batch.cluster, batch.stream, batch.partition, batch.request, batch.records,
                match batch.bookmark case None => "" case Some(name) => name, route.group, route.revision)
  }

  /** Any other request a retry loop sends: what it asks for, its request id included, and its route. */
  datatype Call = Call(body: string, routeGroup: nat, routeRevision: nat)

  datatype LookupRequest = LookupRequest(cluster: string, stream: string, partition: nat, request: RequestId,
                                         routeGroup: nat, routeRevision: nat)

  /** The wire request carries the batch, whatever its two route fields say; a batch without a bookmark
      has an empty name there. */
  ghost predicate Carries(w: WireRequest, batch: Batch)
  {
    && w.cluster == batch.cluster && w.stream == batch.stream && w.partition == batch.partition
    && w.request == batch.request && w.records == batch.records
    && w.bookmark == if batch.bookmark.Some? then batch.bookmark.value else ""
  }

  /** The lookup asks for the receipt of the batch. */
  ghost predicate AsksFor(l: LookupRequest, batch: Batch)
  {
    l.cluster == batch.cluster && l.stream == batch.stream && l.partition == batch.partition && l.request == batch.request
  }

  /** A refusal: the server says that it will not commit this copy. */
  predicate Refusal<T>(answer: Answer<T>)
  {
    match answer
    case Failure(Client(Domain(NotLeader(_)))) => true
    case Failure(Client(Domain(StaleRoute))) => true
    case Failure(Client(Domain(QuorumUnavailable(outcome)))) => outcome == DefiniteNoCommit
    case _ => false
  }

  /** The leader an answer names, if any. */
  function LeaderOf<T>(answer: Answer<T>): Option<Endpoint>
  {
    match answer
    case Failure(Client(Domain(NotLeader(leader)))) => leader
    case _ => None
  }

  /** The leader an attempt was told of: by its answer, or by the route refresh that followed. */
  function Told<T>(answer: Option<Answer<T>>, refreshed: Option<Route>): Option<Endpoint>
  {
    match refreshed
    case Some(route) => route.leader
    case None => match answer case None => None case Some(a) => LeaderOf(a)
  }

  // How connect_client can fail; OtherDomain is a credential file with a malformed identity.
  predicate ConnectError(e: AttemptError)
  {
    match e
    case Deadline => true
    case Client(error) =>
      error.Connection? || error.SecurityConfiguration? || error.InvalidEndpoint? || (error.Domain? && error.error.OtherDomain?)
  }

  /** interrupted_publish_error and the outcome field of mutation_deadline_error. */
  function OutcomeFor(mayHaveReached: bool): Outcome
  {
    if mayHaveReached then AmbiguousCommit else DefiniteNoCommit
  }

  /** The client: its seeds, its options, and which endpoints validate_endpoint accepts. */
  datatype Config = Config(seeds: seq<Endpoint>, deadline: nat, retry: bool, resolveReceipt: bool, cancellable: bool,
                           valid: Endpoint -> bool)
  {
    // connect_with_security admits no other client.
    ghost predicate Ok() { seeds != [] && NoDuplicates(seeds) && deadline > 0 }
  }

  // ---- Events ------------------------------------------------------------------------------

  /** What can pass between a client and its environment: the cancellation flag read, cancellation
      winning a race, the clock read, a sleep over, a connection made or not, a request handed to the
      network, the answer to it, and whole calls that read a route or a receipt. */
  datatype Act =
    | Polled(cancelled: bool)
    | Cancel
    | Clock
    | Slept(duration: nat)
    | Connected(endpoint: Endpoint)
    | ConnectFailed(endpoint: Endpoint, error: AttemptError)
    | Sent(endpoint: Endpoint, request: WireRequest)
    | Answered(answer: Answer<Receipt>)
    | CallSent(endpoint: Endpoint, call: Call)
    | CallAnswered(reply: Answer<()>)
    | RouteAnswered(endpoint: Endpoint, route: Answer<Route>)
    | ReceiptAnswered(endpoint: Endpoint, lookup: LookupRequest, receipt: Answer<Receipt>)

  /** An act and when it was over. */
  datatype Event = Event(at: nat, act: Act)

  /** The time after these events. */
  function Ticks(now: nat, events: seq<Event>): nat
  {
    if events == [] then now else events[|events| - 1].at
  }

  // The k-th event from the end.
  function Back(events: seq<Event>, k: nat): Option<Event>
  {
    if k < |events| then Some(events[|events| - 1 - k]) else None
  }

  predicate InTime(e: Option<Event>, expires: nat) { e.Some? && e.value.act.Clock? && e.value.at < expires }

  /** The route a client goes by: the last one it was answered, or the one it was given. */
  ghost function LastRoute(given: Option<Route>, events: seq<Event>): Option<Route>
  {
    if events == [] then given
    else match events[|events| - 1].act
      case RouteAnswered(_, Success(route)) => Some(route)
      case _ => LastRoute(given, events[..|events| - 1])
  }

  /** The route fields of a request are those of the route; without one they are zero. */
  ghost predicate GoesBy(group: nat, revision: nat, route: Option<Route>)
  {
    match route
    case Some(r) => group == r.group && revision == r.revision
    case None => group == 0 && revision == 0
  }

  // ---- retry_sleep -------------------------------------------------------------------------

  // 25 ms, in nanoseconds.
  const PAUSE: nat := 25_000_000

  // The pause, cut short by the deadline.
  function PauseFor(since: nat, expires: nat): (d: nat)
    ensures since + d < expires ==> d == PAUSE
  {
    if since >= expires then 0 else if PAUSE < expires - since then PAUSE else expires - since
  }

  // The least k with 25 ms * k >= d.
  function PausesIn(d: nat): (k: nat)
    ensures 25_000_000 * k >= d && (k > 0 ==> 25_000_000 * (k - 1) < d)
  {
    (d + PAUSE - 1) / PAUSE
  }

  datatype Nap = Due | Asleep(since: nat) | Awake
  datatype NapMove = Dozing(nap: Nap) | Rested | Expired | Broken

  /** One event of retry_sleep; None when it cannot be the next one.  A timer fires no earlier than
      asked; cancellation can break the pause off while it waits. */
  function NapStep(nap: Nap, e: Event, expires: nat): Option<NapMove>
  {
    match (nap, e.act)
    case (Due, Cancel) => Some(Broken)
    case (Due, Clock) => if e.at >= expires then Some(Expired) else Some(Dozing(Asleep(e.at)))
    case (Asleep(_), Cancel) => Some(Broken)
    case (Asleep(since), Slept(duration)) =>
      if duration == PauseFor(since, expires) && e.at >= since + duration then Some(Dozing(Awake)) else None
    case (Awake, Clock) => if e.at >= expires then Some(Expired) else Some(Rested)
    case _ => None
  }

  /** What a whole sequence of events makes of a pause; None when they cannot happen. */
  ghost function NapRun(nap: Nap, now: nat, events: seq<Event>, expires: nat): Option<NapMove>
  {
    if events == [] then Some(Dozing(nap))
    else
      var front, e := events[..|events| - 1], events[|events| - 1];
      match NapRun(nap, now, front, expires)
      case Some(Dozing(nap')) => if e.at < Ticks(now, front) then None else NapStep(nap', e, expires)
      case _ => None
  }

  // ---- resolve_route_until -----------------------------------------------------------------

  datatype RoutePhase = Asking | Pausing(nap: Nap)
  datatype RouteState = RouteState(list: seq<Endpoint>, index: nat, phase: RoutePhase)
  datatype RouteMove = Going(state: RouteState) | Resolved(route: Route) | Unresolved(error: RpcError) | Abandoned

  function NewRouteState(seeds: seq<Endpoint>): RouteState { RouteState(seeds, 0, Asking) }

  function RouteAnswer(cfg: Config, r: RouteState, answer: Answer<Route>): RouteMove
  {
    match answer
    case Success(route) => Resolved(route)
    case Failure(Deadline) => Unresolved(RequestFailed)
    case Failure(Client(error)) =>
      if !cfg.retry then Unresolved(error)
      else match error
        case Domain(NotLeader(None)) => Going(r.(phase := Pausing(Due)))
        case Domain(NotLeader(Some(hint))) =>
          if cfg.valid(hint) then Going(RouteState(Hinted(r.list, hint), 0, Pausing(Due)))
          else Unresolved(InvalidEndpoint(hint))
        case Connection => Going(r.(index := (r.index + 1) % USIZE, phase := Pausing(Due)))
        case RequestFailed => Going(r.(index := (r.index + 1) % USIZE, phase := Pausing(Due)))
        case _ => Unresolved(error)
  }

  // After the pause: ask again, or give up at the deadline.
  function RouteNap(r: RouteState, move: NapMove): RouteMove
  {
    match move
    case Dozing(nap) => Going(r.(phase := Pausing(nap)))
    case Rested => Going(r.(phase := Asking))
    case Expired => Unresolved(Domain(QuorumUnavailable(NotApplicable)))
    case Broken => Abandoned
  }

  function RouteStep(cfg: Config, r: RouteState, e: Event, expires: nat): Option<RouteMove>
  {
    match r.phase
    case Asking =>
      (match e.act
       case Cancel => Some(Abandoned)
       case RouteAnswered(endpoint, answer) =>
         if r.list != [] && endpoint == r.list[r.index % |r.list|] then Some(RouteAnswer(cfg, r, answer)) else None
       case _ => None)
    case Pausing(nap) =>
      (match NapStep(nap, e, expires)
       case None => None
       case Some(move) => Some(RouteNap(r, move)))
  }

  ghost function RouteRun(cfg: Config, r: RouteState, now: nat, events: seq<Event>, expires: nat): Option<RouteMove>
  {
    if events == [] then Some(Going(r))
    else
      var front, e := events[..|events| - 1], events[|events| - 1];
      match RouteRun(cfg, r, now, front, expires)
      case Some(Going(r')) => if e.at < Ticks(now, front) then None else RouteStep(cfg, r', e, expires)
      case _ => None
  }

  // ---- Runs inside runs --------------------------------------------------------------------

  lemma TicksJoin(now: nat, a: seq<Event>, b: seq<Event>)
    ensures Ticks(now, a + b) == Ticks(Ticks(now, a), b)
  {
  }

  lemma {:induction false} RouteRunJoins(cfg: Config, r: RouteState, now: nat, a: seq<Event>, b: seq<Event>, expires: nat)
    ensures RouteRun(cfg, r, now, a + b, expires)
         == match RouteRun(cfg, r, now, a, expires)
            case Some(Going(r')) => RouteRun(cfg, r', Ticks(now, a), b, expires)
            case other => if b == [] then other else None
  {
    hide RouteStep;
    if b == [] {
      assert a + b == a;
    } else {
      var front := b[..|b| - 1];
      assert (a + b)[..|a + b| - 1] == a + front;
      RouteRunJoins(cfg, r, now, a, front, expires);
      TicksJoin(now, a, front);
    }
  }

  /** The pause of a route resolution. */
  lemma {:induction false} NapInRoute(cfg: Config, r: RouteState, now: nat, events: seq<Event>, expires: nat)
    requires r.phase == Pausing(Due) && NapRun(Due, now, events, expires).Some?
    ensures RouteRun(cfg, r, now, events, expires) == Some(RouteNap(r, NapRun(Due, now, events, expires).value))
  {
    hide NapStep;
    if events != [] {
      NapInRoute(cfg, r, now, events[..|events| - 1], expires);
    }
  }
}
