/** The client's other retry loops as one step system: compare_and_set_checkpoint, advance_retention,
    execute_replay_mutation, the export mutations, and fetch.  They share their shape and differ in
    their discipline. */
module RetryMachine {
  import opened Options
  import opened Endpoints
  import opened Protocol

  datatype Loop = Checkpoint | Retention | Replay | Export | Fetch
  {
    // The deadline is read at the head of the loop.
    predicate ChecksFirst() { Retention? || Replay? }

    // A refusal takes the flag back to what it was before the attempt.
    predicate RollsBack() { Checkpoint? }

    // A stale route is refreshed.
    predicate Refreshes() { !Export? }

    // How a deadline error reports the flag; a fetch has none.
    function Reports(flag: bool): Outcome { if Fetch? then NotApplicable else OutcomeFor(flag) }
  }

  /** What a loop returns: success, a deadline error, or an error passed through. */
  datatype Report = Applied | TimedOut(outcome: Outcome) | PassedThrough(error: RpcError)

  datatype RetryPhase =
    | Top
    | Dialing
    | Timing(endpoint: Endpoint)
    | Sending(endpoint: Endpoint)
    | Awaiting
    | Opening
    | Refreshing(until: nat, route: RouteState)
    | Resting(nap: Nap)
    | Done(report: Report)

  datatype RetryState = RetryState(now: nat, expires: nat, call: Call, ring: Ring, flag: bool, before: bool, phase: RetryPhase)

  predicate SameClock(s: RetryState, t: RetryState)
  {
    t.now == s.now && t.expires == s.expires
  }

  // The next attempt, after the check that some loops make first.
  function Again(loop: Loop, s: RetryState): RetryState
  {
    s.(phase := if loop.ChecksFirst() then Top else Dialing)
  }

  function RetryInitial(loop: Loop, cfg: Config, call: Call, lead: Option<Endpoint>, now: nat, expires: nat): RetryState
  {
    var s := RetryState(now, expires, call, NewRing(cfg.seeds), false, false, Top);
    match lead
    case None => Again(loop, s)
    case Some(hint) =>
      if cfg.valid(hint) then Again(loop, s.(ring := Hint(s.ring, hint))) else s.(phase := Done(PassedThrough(InvalidEndpoint(hint))))
  }

  // Obeys a leader hint if there is one, then pauses before the next attempt.
  function RetryAfter(cfg: Config, s: RetryState, leader: Option<Endpoint>): (t: RetryState)
    ensures SameClock(s, t)
  {
    match leader
    case None => s.(phase := Resting(Due))
    case Some(hint) =>
      if cfg.valid(hint) then s.(ring := Hint(s.ring, hint), phase := Resting(Due))
      else s.(phase := Done(PassedThrough(InvalidEndpoint(hint))))
  }

  function RolledBack(loop: Loop, s: RetryState): RetryState
  {
    if loop.RollsBack() then s.(flag := s.before) else s
  }

  /** The match on the result of one attempt. */
  function RetryDispatch(loop: Loop, cfg: Config, s: RetryState, reply: Answer<()>): (t: RetryState)
    ensures SameClock(s, t)
  {
    match reply
    case Success(_) => s.(phase := Done(Applied))
    case Failure(Deadline) => s.(phase := Done(TimedOut(loop.Reports(s.flag))))
    case Failure(Client(error)) =>
      var passed := s.(phase := Done(PassedThrough(error)));
      if !cfg.retry then passed
      else match error
        case Domain(NotLeader(leader)) => RetryAfter(cfg, RolledBack(loop, s), leader)
        case Domain(QuorumUnavailable(outcome)) =>
          RetryAfter(cfg, if outcome == DefiniteNoCommit then RolledBack(loop, s) else s, None)
        case Connection => RetryAfter(cfg, s, None)
        case RequestFailed => RetryAfter(cfg, s, None)
        case Domain(StaleRoute) =>
          if !loop.Refreshes() then passed
          else RolledBack(loop, s).(phase := if loop.Checkpoint? then Refreshing(s.expires, NewRouteState(cfg.seeds)) else Opening)
        case _ => passed
  }

  // An attempt goes to the current endpoint; the next one to the endpoint after it.
  function Dialed(s: RetryState): RetryState
  {
    s.(ring := Advance(s.ring), before := s.flag)
  }

  function StepDialing(loop: Loop, cfg: Config, s: RetryState, e: Event): (t: Option<RetryState>)
    ensures t.Some? ==> SameClock(s, t.value)
  {
    match e.act
    case ConnectFailed(endpoint, error) =>
      if s.ring.list != [] && endpoint == Current(s.ring) && ConnectError(error)
      then Some(RetryDispatch(loop, cfg, Dialed(s), Failure(error))) else None
    case Connected(endpoint) =>
      if s.ring.list != [] && endpoint == Current(s.ring)
      then Some(Dialed(s).(flag := s.flag || loop.Replay?, phase := Timing(endpoint))) else None
    case _ => None
  }

  function StepCall(loop: Loop, cfg: Config, s: RetryState, e: Event): (t: Option<RetryState>)
    ensures t.Some? ==> SameClock(s, t.value)
  {
    match (s.phase, e.act)
    case (Timing(endpoint), Clock) =>
      if e.at >= s.expires then Some(RetryDispatch(loop, cfg, s, Failure(Deadline))) else Some(s.(phase := Sending(endpoint)))
    case (Sending(endpoint), CallSent(target, call)) =>
      if target == endpoint && call == s.call then Some(s.(flag := s.flag || !loop.Fetch?, phase := Awaiting)) else None
    case (Awaiting, CallAnswered(reply)) => Some(RetryDispatch(loop, cfg, s, reply))
    case _ => None
  }

  function Refreshed(cfg: Config, s: RetryState, until: nat, move: RouteMove): (t: Option<RetryState>)
    ensures t.Some? ==> SameClock(s, t.value)
  {
    match move
    case Going(r) => Some(s.(phase := Refreshing(until, r)))
    case Unresolved(error) => Some(s.(phase := Done(PassedThrough(error))))
    case Resolved(route) =>
      Some(RetryAfter(cfg, s.(call := s.call.(routeGroup := route.group, routeRevision := route.revision)), route.leader))
    case Abandoned => None
  }

  function RetryNapped(loop: Loop, s: RetryState, move: NapMove): (t: Option<RetryState>)
    ensures t.Some? ==> SameClock(s, t.value)
  {
    match move
    case Dozing(nap) => Some(s.(phase := Resting(nap)))
    case Rested => Some(Again(loop, s))
    case Expired => Some(s.(phase := Done(TimedOut(loop.Reports(s.flag)))))
    case Broken => None
  }

  /** The state after one event; None when the event cannot happen in this state. */
  function RetryStep(loop: Loop, cfg: Config, s0: RetryState, e: Event): Option<RetryState>
  {
    if e.at < s0.now then None
    else
      var s := s0.(now := e.at);
      match s.phase
      case Top =>
        if !e.act.Clock? then None
        else if e.at >= s.expires then Some(s.(phase := Done(TimedOut(loop.Reports(s.flag)))))
        else Some(s.(phase := Dialing))
      case Dialing => StepDialing(loop, cfg, s, e)
      case Opening => if e.act.Clock? then Some(s.(phase := Refreshing(e.at + cfg.deadline, NewRouteState(cfg.seeds)))) else None
      case Refreshing(until, r) =>
        (match RouteStep(cfg, r, e, until)
         case None => None
         case Some(move) => Refreshed(cfg, s, until, move))
      case Resting(nap) =>
        (match NapStep(nap, e, s.expires)
         case None => None
         case Some(move) => RetryNapped(loop, s, move))
      case Done(_) => None
      case _ => StepCall(loop, cfg, s, e)
  }

  /** The state after a whole log; None when the log is no run. */
  ghost function RetryRun(loop: Loop, cfg: Config, s: RetryState, events: seq<Event>): Option<RetryState>
  {
    if events == [] then Some(s)
    else match RetryRun(loop, cfg, s, events[..|events| - 1])
      case None => None
      case Some(s') => RetryStep(loop, cfg, s', events[|events| - 1])
  }

  /** The log is a whole run of the loop that ends in this report. */
  ghost predicate RetryEnds(loop: Loop, cfg: Config, first: RetryState, events: seq<Event>, report: Report)
  {
    RetryRun(loop, cfg, first, events).Some? && RetryRun(loop, cfg, first, events).value.phase == Done(report)
  }

  // ---- The history in a log ----------------------------------------------------------------

  /** One attempt: where it went, whether it connected, the copy it sent, the answer, and the route that
      a stale route led to. */
  datatype Try = Try(endpoint: Endpoint, connected: bool, sent: Option<Call>, answer: Option<Answer<()>>, refreshed: Option<Route>)

  /** What an event adds to the last attempt. */
  function Noted(t: Try, act: Act): Try
  {
    match act
    case CallSent(_, call) => t.(sent := Some(call))
    case CallAnswered(reply) => t.(answer := Some(reply))
    case RouteAnswered(_, Success(route)) => t.(refreshed := Some(route))
    case _ => t
  }

  function History(tries: seq<Try>, act: Act): seq<Try>
  {
    match act
    case Connected(endpoint) => tries + [Try(endpoint, true, None, None, None)]
    case ConnectFailed(endpoint, _) => tries + [Try(endpoint, false, None, None, None)]
    case _ => if tries == [] then [] else tries[|tries| - 1 := Noted(tries[|tries| - 1], act)]
  }

  /** The attempts a log tells of. */
  ghost function TriesIn(events: seq<Event>): seq<Try>
  {
    if events == [] then [] else History(TriesIn(events[..|events| - 1]), events[|events| - 1].act)
  }

  ghost predicate EverConnected(h: seq<Try>) { exists i :: 0 <= i < |h| && h[i].connected }
  ghost predicate EverSent(h: seq<Try>) { exists i :: 0 <= i < |h| && h[i].sent.Some? }

  /** Some copy was sent and never refused. */
  ghost predicate Unrefused(h: seq<Try>)
  {
    exists i :: 0 <= i < |h| && LeftOpen(h[i])
  }

  predicate LeftOpen(t: Try) { t.sent.Some? && !(t.answer.Some? && Refusal(t.answer.value)) }

  /** What each discipline takes its flag to mean. */
  ghost predicate Flagged(loop: Loop, h: seq<Try>)
  {
    match loop
    case Checkpoint => Unrefused(h)
    case Replay => EverConnected(h)
    case Fetch => false
    case _ => EverSent(h)
  }

  // What one attempt contributes to the flag.
  predicate Raises(loop: Loop, t: Try)
  {
    match loop
    case Checkpoint => LeftOpen(t)
    case Replay => t.connected
    case Fetch => false
    case _ => t.sent.Some?
  }

  lemma FlaggedGrows(loop: Loop, h: seq<Try>, t: Try)
    ensures Flagged(loop, h + [t]) == (Flagged(loop, h) || Raises(loop, t))
  {
    hide LeftOpen;
    var g := h + [t];
    assert g[|h|] == t;
    assert forall i :: 0 <= i < |h| ==> g[i] == h[i];
    if Flagged(loop, h) && !loop.Fetch? {
      var i :| 0 <= i < |h| && Raises(loop, h[i]);
      assert Raises(loop, g[i]);
    }
  }

  lemma FlaggedSplits(loop: Loop, h: seq<Try>)
    requires h != []
    ensures Flagged(loop, h) == (Flagged(loop, h[..|h| - 1]) || Raises(loop, h[|h| - 1]))
  {
    hide Flagged, Raises;
    assert h[..|h| - 1] + [h[|h| - 1]] == h;
    FlaggedGrows(loop, h[..|h| - 1], h[|h| - 1]);
  }
}
