/** The other retry loops as the client runs them, with every call into the environment logged: what a
    loop adds to the log is a run of RetryMachine that ends in what the loop returns. */
module RetryLoops {
  import opened Options
  import opened Endpoints
  import opened Protocol
  import opened Environment
  import opened RouteLoop
  import opened RetryMachine
  import opened RetryRuns
  import opened RetryEndings

  // ---- Runs of the machine -----------------------------------------------------------------

  ghost predicate RetryAt(loop: Loop, cfg: Config, first: RetryState, a: Mark, b: Mark, s: RetryState)
  {
    Follows(a, b) && RetryRun(loop, cfg, first, Since(a, b)) == Some(s) && first.now == a.now && s.now == b.now
  }

  lemma RetryStarts(loop: Loop, cfg: Config, s: RetryState, a: Mark)
    requires s.now == a.now
    ensures RetryAt(loop, cfg, s, a, a, s)
  {
  }

  lemma RetryTakesTime(loop: Loop, cfg: Config, s: RetryState, e: Event)
    requires RetryStep(loop, cfg, s, e).Some?
    ensures s.now <= e.at == RetryStep(loop, cfg, s, e).value.now
  {
    hide RouteStep, NapStep, StepDialing, StepCall, Refreshed, RetryNapped;
  }

  lemma RetryAdds(loop: Loop, cfg: Config, first: RetryState, a: Mark, b: Mark, s: RetryState, e: Event)
    requires RetryAt(loop, cfg, first, a, b, s) && RetryStep(loop, cfg, s, e).Some?
    ensures RetryAt(loop, cfg, first, a, Mark(b.log + [e], e.at), RetryStep(loop, cfg, s, e).value)
  {
    hide RetryStep;
    RetryTakesTime(loop, cfg, s, e);
    OneMore(a, b, e);
    var events := Since(a, b);
    assert (events + [e])[..|events|] == events;
  }

  lemma {:induction false} RetryRunJoins(loop: Loop, cfg: Config, s: RetryState, a: seq<Event>, b: seq<Event>)
    ensures RetryRun(loop, cfg, s, a + b) == match RetryRun(loop, cfg, s, a) case None => None case Some(s') => RetryRun(loop, cfg, s', b)
  {
    hide RetryStep;
    if b == [] {
      assert a + b == a;
    } else {
      var front := b[..|b| - 1];
      assert (a + b)[..|a + b| - 1] == a + front;
      RetryRunJoins(loop, cfg, s, a, front);
    }
  }

  lemma RetryJoins(loop: Loop, cfg: Config, first: RetryState, middle: RetryState, last: RetryState, a: Mark, b: Mark, c: Mark)
    requires RetryAt(loop, cfg, first, a, b, middle) && RetryAt(loop, cfg, middle, b, c, last)
    ensures RetryAt(loop, cfg, first, a, c, last)
  {
    hide RetryRun;
    Continues(a, b, c);
    RetryRunJoins(loop, cfg, first, Since(a, b), Since(b, c));
  }

  /** The pause of a loop. */
  lemma {:induction false} NapInRetry(loop: Loop, cfg: Config, s: RetryState, events: seq<Event>)
    requires s.phase == Resting(Due) && NapRun(Due, s.now, events, s.expires).Some? && !NapRun(Due, s.now, events, s.expires).value.Broken?
    ensures RetryRun(loop, cfg, s, events)
         == RetryNapped(loop, s.(now := Ticks(s.now, events)), NapRun(Due, s.now, events, s.expires).value)
  {
    hide NapStep;
    if events != [] {
      NapInRetry(loop, cfg, s, events[..|events| - 1]);
    }
  }

  lemma RetryRests(loop: Loop, cfg: Config, s: RetryState, a: Mark, b: Mark, move: NapMove)
    requires s.phase == Resting(Due) && s.now == a.now && NapAt(a, b, s.expires, move) && !move.Broken?
    ensures RetryAt(loop, cfg, s, a, b, RetryNapped(loop, s.(now := b.now), move).value)
  {
    hide NapRun, RetryRun;
    NapInRetry(loop, cfg, s, Since(a, b));
  }

  /** The route refresh of a loop, under the deadline it was given. */
  lemma {:induction false} RouteInRetry(loop: Loop, cfg: Config, s: RetryState, until: nat, r: RouteState, events: seq<Event>)
    requires s.phase == Refreshing(until, r) && RouteRun(cfg, r, s.now, events, until).Some?
    requires !RouteRun(cfg, r, s.now, events, until).value.Abandoned?
    ensures RetryRun(loop, cfg, s, events)
         == Refreshed(cfg, s.(now := Ticks(s.now, events)), until, RouteRun(cfg, r, s.now, events, until).value)
  {
    hide RouteStep, RetryAfter;
    if events != [] {
      var front, e := events[..|events| - 1], events[|events| - 1];
      RouteInRetry(loop, cfg, s, until, r, front);
      RefreshedAlike(cfg, s.(now := e.at), until, RouteRun(cfg, r, s.now, front, until).value.state,
                     RouteRun(cfg, r, s.now, events, until).value);
    }
  }

  // The phase left behind makes no difference.
  lemma RefreshedAlike(cfg: Config, s: RetryState, until: nat, r: RouteState, move: RouteMove)
    ensures Refreshed(cfg, s.(phase := Refreshing(until, r)), until, move) == Refreshed(cfg, s, until, move)
  {
    hide Hint;
  }

  lemma RetryRefreshed(loop: Loop, cfg: Config, s: RetryState, until: nat, a: Mark, b: Mark, move: RouteMove)
    requires s.phase == Refreshing(until, NewRouteState(cfg.seeds)) && s.now == a.now && RouteAt(cfg, a, b, until, move) && !move.Abandoned?
    ensures Refreshed(cfg, s.(now := b.now), until, move).Some?
    ensures RetryAt(loop, cfg, s, a, b, Refreshed(cfg, s.(now := b.now), until, move).value)
  {
    hide RouteRun, RetryRun, Hint;
    RouteInRetry(loop, cfg, s, until, NewRouteState(cfg.seeds), Since(a, b));
  }

  // ---- One attempt -------------------------------------------------------------------------

  /** The attempt the loop is about to make. */
  ghost predicate Ready(s: RetryState, endpoint: Endpoint, call: Call, flag: bool, expires: nat)
  {
    && s.phase == Dialing && s.ring.list != [] && endpoint == Current(s.ring)
    && s.call == call && s.flag == flag && s.expires == expires
  }

  /** The request goes out, and its answer comes.  In mid the attempt is over and its answer not yet acted on. */
  method SendAndAwait(loop: Loop, cfg: Config, env: Env, endpoint: Endpoint, call: Call, ghost s: RetryState)
      returns (reply: Answer<()>, ghost mid: RetryState)
    requires s.phase == Sending(endpoint) && s.call == call && s.now == env.now
    modifies env
    ensures mid == s.(now := env.now, flag := s.flag || !loop.Fetch?, phase := Awaiting)
    ensures RetryAt(loop, cfg, s, old(env.Here()), env.Here(), RetryDispatch(loop, cfg, mid, reply))
  {
    hide RetryAt, RetryDispatch, StepDialing, Refreshed, RetryNapped;
    ghost var start := env.Here();
    RetryStarts(loop, cfg, s, start);
    env.SendCall(endpoint, call);
    RetryAdds(loop, cfg, s, start, start, s, Event(env.now, CallSent(endpoint, call)));
    ghost var sent, here := s.(now := env.now, flag := s.flag || !loop.Fetch?, phase := Awaiting), env.Here();
    reply := env.AwaitReply();
    mid := sent.(now := env.now);
    RetryAdds(loop, cfg, s, start, here, sent, Event(env.now, CallAnswered(reply)));
  }

  /** An attempt that raises the flag as it sends; a fetch raises none.  In mid the attempt is over and its
      answer not yet acted on. */
  method Once(loop: Loop, cfg: Config, env: Env, endpoint: Endpoint, call: Call, expires: nat, flag0: bool, ghost s: RetryState)
      returns (flag: bool, reply: Answer<()>, ghost mid: RetryState)
    requires Ready(s, endpoint, call, flag0, expires) && s.now == env.now && !loop.Replay?
    modifies env
    ensures mid == Dialed(s).(now := env.now, flag := flag, phase := mid.phase)
    ensures RetryAt(loop, cfg, s, old(env.Here()), env.Here(), RetryDispatch(loop, cfg, mid, reply))
  {
    hide RetryAt, RetryDispatch, ConnectError, Current, RouteStep, NapStep, Refreshed, RetryNapped;
    ghost var start, here := env.Here(), env.Here();
    RetryStarts(loop, cfg, s, start);
    flag := flag0;
    var failure := env.Connect(endpoint);
    mid := Dialed(s).(now := env.now);
    if failure.Some? {
      RetryAdds(loop, cfg, s, start, here, s, Event(env.now, ConnectFailed(endpoint, failure.value)));
      reply := Failure(failure.value);
      return;
    }
    RetryAdds(loop, cfg, s, start, here, s, Event(env.now, Connected(endpoint)));
    mid, here := mid.(phase := Timing(endpoint)), env.Here();
    var now := env.ReadClock();
    RetryAdds(loop, cfg, s, start, here, mid, Event(now, Clock));
    mid := mid.(now := now);
    if now >= expires {
      reply := Failure(Deadline);
      return;
    }
    ghost var sending := mid.(phase := Sending(endpoint));
    here := env.Here();
    if !loop.Fetch? {
      flag := true;
    }
    reply, mid := SendAndAwait(loop, cfg, env, endpoint, call, sending);
    RetryJoins(loop, cfg, s, sending, RetryDispatch(loop, cfg, mid, reply), start, here, env.Here());
  }

  /** replay_mutation_once: the flag is raised once connected, before the request is timed. */
  method ReplayOnce(cfg: Config, env: Env, endpoint: Endpoint, call: Call, expires: nat, flag0: bool, ghost s: RetryState)
      returns (flag: bool, reply: Answer<()>, ghost mid: RetryState)
    requires Ready(s, endpoint, call, flag0, expires) && s.now == env.now
    modifies env
    ensures mid == Dialed(s).(now := env.now, flag := flag, phase := mid.phase)
    ensures RetryAt(Replay, cfg, s, old(env.Here()), env.Here(), RetryDispatch(Replay, cfg, mid, reply))
  {
    hide RetryAt, RetryDispatch, ConnectError, Current, RouteStep, NapStep, Refreshed, RetryNapped;
    ghost var start, here := env.Here(), env.Here();
    RetryStarts(Replay, cfg, s, start);
    flag := flag0;
    var failure := env.Connect(endpoint);
    mid := Dialed(s).(now := env.now);
    if failure.Some? {
      RetryAdds(Replay, cfg, s, start, here, s, Event(env.now, ConnectFailed(endpoint, failure.value)));
      reply := Failure(failure.value);
      return;
    }
    RetryAdds(Replay, cfg, s, start, here, s, Event(env.now, Connected(endpoint)));
    flag := true;
    mid, here := mid.(flag := true, phase := Timing(endpoint)), env.Here();
    var now := env.ReadClock();
    RetryAdds(Replay, cfg, s, start, here, mid, Event(now, Clock));
    mid := mid.(now := now);
    if now >= expires {
      reply := Failure(Deadline);
      return;
    }
    ghost var sending := mid.(phase := Sending(endpoint));
    here := env.Here();
    reply, mid := SendAndAwait(Replay, cfg, env, endpoint, call, sending);
    RetryJoins(Replay, cfg, s, sending, RetryDispatch(Replay, cfg, mid, reply), start, here, env.Here());
  }

  // ---- The loop ----------------------------------------------------------------------------

  /** The loop's variables and the state of the machine. */
  ghost predicate Holds(s: RetryState, call: Call, endpoints: seq<Endpoint>, index: nat, flag: bool, expires: nat)
  {
    s.call == call && s.ring == Ring(endpoints, index) && endpoints != [] && s.flag == flag && s.expires == expires
  }

  datatype Action = Return(report: Report) | Refresh | Rest

  /** The match on the result of one attempt. */
  method Decide(loop: Loop, cfg: Config, reply: Answer<()>, endpoints0: seq<Endpoint>, index0: nat,
                flag0: bool, before: bool, ghost mid: RetryState)
      returns (a: Action, endpoints: seq<Endpoint>, index: nat, flag: bool)
    requires Holds(mid, mid.call, endpoints0, index0, flag0, mid.expires) && mid.before == before
    ensures var s := RetryDispatch(loop, cfg, mid, reply);
      && s.now == mid.now
      && (a.Return? ==> s.phase == Done(a.report))
      && (a.Refresh? ==> s.phase == (if loop.Checkpoint? then Refreshing(mid.expires, NewRouteState(cfg.seeds)) else Opening))
      && (a.Rest? ==> s.phase == Resting(Due))
      && (!a.Return? ==> Holds(s, mid.call, endpoints, index, flag, mid.expires))
  {
    hide Hint;
    endpoints, index, flag := endpoints0, index0, flag0;
    match reply {
      case Success(_) =>
        a := Return(Applied);
      case Failure(Deadline) =>
        a := Return(TimedOut(loop.Reports(flag)));
      case Failure(Client(error)) =>
        if error.Domain? && error.error.NotLeader? && cfg.retry {
          if loop.RollsBack() {
            flag := before;
          }
          var invalid;
          endpoints, index, invalid := ObeyHint(cfg, endpoints, index, error.error.leader);
          a := if invalid.Some? then Return(PassedThrough(invalid.value)) else Rest;
        } else if error.Domain? && error.error.QuorumUnavailable? && cfg.retry {
          if loop.RollsBack() && error.error.outcome == DefiniteNoCommit {
            flag := before;
          }
          a := Rest;
        } else if (error.Connection? || error.RequestFailed?) && cfg.retry {
          a := Rest;
        } else if error == Domain(StaleRoute) && cfg.retry && loop.Refreshes() {
          if loop.RollsBack() {
            flag := before;
          }
          a := Refresh;
        } else {
          a := Return(PassedThrough(error));
        }
    }
  }

  /** StaleRoute: the checkpoint loop refreshes the route under its own deadline, the others under a new one. */
  method RefreshCall(loop: Loop, cfg: Config, env: Env, call0: Call, endpoints0: seq<Endpoint>, index0: nat, flag: bool,
                     expires: nat, ghost s0: RetryState)
      returns (a: Action, call: Call, endpoints: seq<Endpoint>, index: nat, ghost s: RetryState)
    requires s0.phase == if loop.Checkpoint? then Refreshing(expires, NewRouteState(cfg.seeds)) else Opening
    requires Holds(s0, call0, endpoints0, index0, flag, expires) && s0.now == env.now && cfg.seeds != []
    modifies env
    ensures RetryAt(loop, cfg, s0, old(env.Here()), env.Here(), s) && !a.Refresh?
    ensures a.Return? ==> s.phase == Done(a.report)
    ensures a.Rest? ==> s.phase == Resting(Due) && Holds(s, call, endpoints, index, flag, expires)
    ensures call == call0.(routeGroup := call.routeGroup, routeRevision := call.routeRevision)
  {
    hide RetryAt, RouteAt, Hint;
    call, endpoints, index, a := call0, endpoints0, index0, Rest;
    ghost var start, refreshing := env.Here(), s0;
    RetryStarts(loop, cfg, s0, start);
    var until := expires;
    if !loop.Checkpoint? {
      var now := env.ReadClock();
      until := now + cfg.deadline;
      RetryAdds(loop, cfg, s0, start, start, s0, Event(now, Clock));
      refreshing := s0.(now := now, phase := Refreshing(until, NewRouteState(cfg.seeds)));
    }
    ghost var here := env.Here();
    var routed := ResolveRouteUntil(cfg, env, until, false);
    RetryRefreshed(loop, cfg, refreshing, until, here, env.Here(), routed);
    s := Refreshed(cfg, refreshing.(now := env.now), until, routed).value;
    RetryJoins(loop, cfg, s0, refreshing, s, start, here, env.Here());
    if routed.Unresolved? {
      a := Return(PassedThrough(routed.error));
      return;
    }
    call := call.(routeGroup := routed.route.group, routeRevision := routed.route.revision);
    var invalid;
    endpoints, index, invalid := ObeyHint(cfg, endpoints, index, routed.route.leader);
    if invalid.Some? {
      a := Return(PassedThrough(invalid.value));
    }
  }

  lemma DialedHolds(s: RetryState)
    requires s.ring.list != []
    ensures Dialed(s).ring == Advance(s.ring) && Dialed(s).before == s.flag && Dialed(s).call == s.call && Dialed(s).expires == s.expires
  {
  }

  /** One turn of a loop, from its attempt up to its pause or to a report. */
  method RetryRound(loop: Loop, cfg: Config, env: Env, call0: Call, endpoints0: seq<Endpoint>, index0: nat, flag0: bool,
                    expires: nat, ghost s0: RetryState)
      returns (end: Option<Report>, call: Call, endpoints: seq<Endpoint>, index: nat, flag: bool, ghost s: RetryState)
    requires s0.phase == Dialing && Holds(s0, call0, endpoints0, index0, flag0, expires) && s0.now == env.now && cfg.seeds != []
    modifies env
    ensures RetryAt(loop, cfg, s0, old(env.Here()), env.Here(), s)
    ensures end.Some? ==> s.phase == Done(end.value)
    ensures end.None? ==> s.phase == Resting(Due) && Holds(s, call, endpoints, index, flag, expires)
  {
    hide RetryAt, RetryDispatch;
    ghost var start := env.Here();
    end, call, endpoints, index, flag := None, call0, endpoints0, index0, flag0;
    var endpoint := endpoints[index % |endpoints|];
    index := (index + 1) % USIZE;
    var before, reply := flag, Failure(Deadline);
    ghost var mid;
    DialedHolds(s0);
    if loop.Replay? {
      flag, reply, mid := ReplayOnce(cfg, env, endpoint, call, expires, flag, s0);
    } else {
      flag, reply, mid := Once(loop, cfg, env, endpoint, call, expires, flag, s0);
    }
    s := RetryDispatch(loop, cfg, mid, reply);
    ghost var here := env.Here();
    var action;
    action, endpoints, index, flag := Decide(loop, cfg, reply, endpoints, index, flag, before, mid);
    if action.Refresh? {
      ghost var stale := s;
      action, call, endpoints, index, s := RefreshCall(loop, cfg, env, call, endpoints, index, flag, expires, stale);
      RetryJoins(loop, cfg, s0, stale, s, start, here, env.Here());
    }
    if action.Return? {
      end := Some(action.report);
    }
  }

  lemma RetryTime(loop: Loop, cfg: Config, first: RetryState, a: Mark, b: Mark, s: RetryState)
    requires RetryAt(loop, cfg, first, a, b, s)
    ensures Follows(a, b) && a.now <= b.now == s.now
  {
  }

  /** A retry loop.  Whatever the environment does, the loop ends, and what passed between the two is a
      run of the step system that ends in its report. */
  method KeepTrying(loop: Loop, cfg: Config, env: Env, call0: Call, lead: Option<Endpoint>, expires: nat) returns (report: Report)
    requires cfg.Ok()
    modifies env
    ensures Follows(old(env.Here()), env.Here())
    ensures RetryEnds(loop, cfg, RetryInitial(loop, cfg, call0, lead, old(env.now), expires), Since(old(env.Here()), env.Here()), report)
  {
    hide RetryAt, NapAt, Hint, RetryRun;
    ghost var first, start := RetryInitial(loop, cfg, call0, lead, env.now, expires), env.Here();
    ghost var s := first;
    RetryStarts(loop, cfg, first, start);
    var endpoints, index: nat, invalid := ObeyHint(cfg, cfg.seeds, 0, lead);
    if invalid.Some? {
      Reports(loop, cfg, first, start, env.Here(), s);
      return PassedThrough(invalid.value);
    }
    var call, flag := call0, false;
    while true
      invariant RetryAt(loop, cfg, first, start, env.Here(), s) && s.now == env.now
      invariant s.phase == (if loop.ChecksFirst() then Top else Dialing) && Holds(s, call, endpoints, index, flag, expires)
      decreases expires - env.now
    {
      ghost var here, head := env.Here(), s;
      RetryStarts(loop, cfg, head, here);
      if loop.ChecksFirst() {
        var now := env.ReadClock();
        RetryAdds(loop, cfg, first, start, here, s, Event(now, Clock));
        s := RetryStep(loop, cfg, s, Event(now, Clock)).value;
        if now >= expires {
          Reports(loop, cfg, first, start, env.Here(), s);
          return TimedOut(loop.Reports(flag));
        }
      }
      here, head := env.Here(), s;
      var end;
      end, call, endpoints, index, flag, s := RetryRound(loop, cfg, env, call, endpoints, index, flag, expires, head);
      RetryTime(loop, cfg, head, here, env.Here(), s);
      RetryJoins(loop, cfg, first, head, s, start, here, env.Here());
      if end.Some? {
        Reports(loop, cfg, first, start, env.Here(), s);
        return end.value;
      }
      here := env.Here();
      var pause := RetrySleep(env, expires, false);
      RetryRests(loop, cfg, s, here, env.Here(), pause);
      ghost var rested := RetryNapped(loop, s.(now := env.now), pause).value;
      RetryJoins(loop, cfg, first, s, rested, start, here, env.Here());
      s := rested;
      if pause.Expired? {
        Reports(loop, cfg, first, start, env.Here(), s);
        return TimedOut(loop.Reports(flag));
      }
    }
  }

  lemma Reports(loop: Loop, cfg: Config, first: RetryState, a: Mark, b: Mark, s: RetryState)
    requires RetryAt(loop, cfg, first, a, b, s) && s.phase.Done?
    ensures Follows(a, b) && RetryEnds(loop, cfg, first, Since(a, b), s.phase.report)
  {
  }

  // ---- Whole calls -------------------------------------------------------------------------

  /** A whole call, as its log tells it: the deadline counts from a first clock reading; all but the export
      mutations then resolve their route, the checkpoint loop under the deadline of its loop and the others
      under one of its own; and the rest is a run of the loop that ends in the report. */
  ghost predicate Executed(loop: Loop, cfg: Config, body: string, clock: Event, routing: seq<Event>, rest: seq<Event>, report: Report)
  {
    && clock.act == Clock
    && var expires := clock.at + cfg.deadline;
    if !loop.Refreshes() then
      routing == [] && RetryEnds(loop, cfg, RetryInitial(loop, cfg, Call(body, 0, 0), None, clock.at, expires), rest, report)
    else match RouteRun(cfg, NewRouteState(cfg.seeds), clock.at, routing, expires)
      case Some(Unresolved(error)) => rest == [] && report == PassedThrough(error)
      case Some(Resolved(route)) =>
        var call := Call(body, route.group, route.revision);
        if loop.Checkpoint? then
          RetryEnds(loop, cfg, RetryInitial(loop, cfg, call, route.leader, Ticks(clock.at, routing), expires), rest, report)
        else
          && rest != [] && rest[0].act == Clock && rest[0].at >= Ticks(clock.at, routing)
          && RetryEnds(loop, cfg, RetryInitial(loop, cfg, call, route.leader, rest[0].at, rest[0].at + cfg.deadline), rest[1..], report)
      case _ => false
  }

  ghost predicate ExecutedLog(loop: Loop, cfg: Config, body: string, log: seq<Event>, report: Report)
  {
    exists clock, routing, rest :: Executed(loop, cfg, body, clock, routing, rest, report) && log == [clock] + routing + rest
  }

  lemma {:induction false} RouteTakesTime(cfg: Config, r: RouteState, now: nat, events: seq<Event>, expires: nat)
    requires RouteRun(cfg, r, now, events, expires).Some?
    ensures now <= Ticks(now, events)
  {
    hide RouteStep;
    if events != [] {
      RouteTakesTime(cfg, r, now, events[..|events| - 1], expires);
    }
  }

  lemma KeptBy(loop: Loop, cfg: Config, body: string, expires: nat, log: seq<Event>, report: Report)
    requires log != [] && DeadlineOf(loop, cfg, log[0].at, expires) && KeptUnder(loop, cfg, body, None, expires, log, report)
    ensures Kept(loop, cfg, body, log, report)
  {
    hide KeptUnder;
  }

  // An export mutation has no route to resolve.
  lemma ExportKeeps(cfg: Config, body: string, clock: Event, rest: seq<Event>, report: Report)
    requires cfg.Ok() && Executed(Export, cfg, body, clock, [], rest, report)
    ensures KeptUnder(Export, cfg, body, None, clock.at + cfg.deadline, [clock] + rest, report)
  {
    hide RetryRun, InOrder, Ends, KeptUnder;
    var expires, call := clock.at + cfg.deadline, Call(body, 0, 0);
    var s := RetryInitial(Export, cfg, call, None, clock.at, expires);
    FirstClock(Export, cfg, expires, clock);
    if rest == [] {
      RunNothing(Export, cfg, call, None, s, report);
    } else {
      RunKeeps(Export, cfg, call, None, None, s, rest, report);
      KeptAfter(Export, cfg, body, None, expires, [clock], rest, report);
    }
  }

  /** What a call reports is true of its whole log. */
  lemma ExecutedKeeps(loop: Loop, cfg: Config, body: string, clock: Event, routing: seq<Event>, rest: seq<Event>, report: Report)
    requires cfg.Ok() && Executed(loop, cfg, body, clock, routing, rest, report)
    ensures Kept(loop, cfg, body, [clock] + routing + rest, report)
  {
    hide RouteRun, RetryEnds, KeptUnder, Kept, Ready, NewRouteState, Ticks;
    var expires := clock.at + cfg.deadline;
    if loop.Export? {
      ExportKeeps(cfg, body, clock, rest, report);
      assert [clock] + [] + rest == [clock] + rest;
      KeptBy(loop, cfg, body, expires, [clock] + routing + rest, report);
    } else {
      match RouteRun(cfg, NewRouteState(cfg.seeds), clock.at, routing, expires).value {
        case Unresolved(error) =>
          UnresolvedAfter(loop, cfg, body, clock, routing, expires, error);
          assert [clock] + routing + [] == [clock] + routing;
          KeptBy(loop, cfg, body, expires, [clock] + routing + rest, report);
        case Resolved(route) => ResolvedKeeps(loop, cfg, body, clock, routing, rest, route, report);
      }
    }
  }

  lemma ResolvedKeeps(loop: Loop, cfg: Config, body: string, clock: Event, routing: seq<Event>, rest: seq<Event>,
                      route: Route, report: Report)
    requires cfg.Ok() && !loop.Export? && Executed(loop, cfg, body, clock, routing, rest, report)
    requires RouteRun(cfg, NewRouteState(cfg.seeds), clock.at, routing, clock.at + cfg.deadline) == Some(Resolved(route))
    ensures Kept(loop, cfg, body, [clock] + routing + rest, report)
  {
    hide RouteRun, RetryEnds, KeptUnder, Kept, Ready, NewRouteState, Ticks, InOrder, Hint;
    var expires, before := clock.at + cfg.deadline, [clock] + routing;
    var call := Call(body, route.group, route.revision);
    RouteTakesTime(cfg, NewRouteState(cfg.seeds), clock.at, routing, expires);
    if loop.Checkpoint? {
      RouteReady(loop, cfg, clock, routing, expires, expires, route);
      var s := RetryInitial(loop, cfg, call, route.leader, Ticks(clock.at, routing), expires);
      RunAfter(loop, cfg, call, route, s, before, rest, report);
      KeptBy(loop, cfg, body, expires, before + rest, report);
    } else {
      var anew := rest[0].at + cfg.deadline;
      RouteReady(loop, cfg, clock, routing, expires, anew, route);
      RouteLast(cfg, clock.at, routing, expires);
      ClockReady(loop, cfg, anew, before, route, rest[0]);
      var s := RetryInitial(loop, cfg, call, route.leader, rest[0].at, anew);
      RunAfter(loop, cfg, call, route, s, before + [rest[0]], rest[1..], report);
      Regrouped(before, rest);
      KeptBy(loop, cfg, body, anew, before + rest, report);
    }
  }

  lemma RouteLast(cfg: Config, now: nat, events: seq<Event>, expires: nat)
    requires var move := RouteRun(cfg, NewRouteState(cfg.seeds), now, events, expires); move.Some? && move.value.Resolved?
    ensures events != [] && events[|events| - 1].act.RouteAnswered?
  {
    RouteBefore(Fetch, cfg, NewRouteState(cfg.seeds), now, events, expires);
  }

  lemma Regrouped(before: seq<Event>, rest: seq<Event>)
    requires rest != []
    ensures before + [rest[0]] + rest[1..] == before + rest
  {
    assert [rest[0]] + rest[1..] == rest;
  }

  lemma Concluded(loop: Loop, cfg: Config, body: string, a: Mark, b: Mark, c: Mark, d: Mark, clock: Event, report: Report)
    requires cfg.Ok() && Follows(a, b) && Follows(b, c) && Follows(c, d) && Since(a, b) == [clock]
    requires Executed(loop, cfg, body, clock, Since(b, c), Since(c, d), report)
    ensures Follows(a, d) && ExecutedLog(loop, cfg, body, Since(a, d), report) && Kept(loop, cfg, body, Since(a, d), report)
  {
    hide Executed, Kept, Follows, Since;
    Continues(a, b, c);
    Continues(a, c, d);
    ExecutedKeeps(loop, cfg, body, clock, Since(b, c), Since(c, d), report);
  }

  /** A loop under a deadline of its own, counted from a clock reading. */
  method KeepTryingAnew(loop: Loop, cfg: Config, env: Env, call: Call, lead: Option<Endpoint>) returns (report: Report)
    requires cfg.Ok()
    modifies env
    ensures Follows(old(env.Here()), env.Here())
    ensures var rest := Since(old(env.Here()), env.Here());
      && rest != [] && rest[0].act == Clock && rest[0].at >= old(env.now)
      && RetryEnds(loop, cfg, RetryInitial(loop, cfg, call, lead, rest[0].at, rest[0].at + cfg.deadline), rest[1..], report)
  {
    hide RetryEnds, RetryInitial;
    ghost var start := env.Here();
    Stays(start);
    var now := env.ReadClock();
    ghost var begun := env.Here();
    OneMore(start, start, Event(now, Clock));
    report := KeepTrying(loop, cfg, env, call, lead, now + cfg.deadline);
    Continues(start, begun, env.Here());
    assert Since(start, env.Here())[1..] == Since(begun, env.Here());
  }

  /** A whole call: the route resolution where there is one, and the loop. */
  method Execute(loop: Loop, cfg: Config, env: Env, body: string) returns (report: Report)
    requires cfg.Ok()
    modifies env
    ensures Follows(old(env.Here()), env.Here())
    ensures ExecutedLog(loop, cfg, body, Since(old(env.Here()), env.Here()), report)
    ensures Kept(loop, cfg, body, Since(old(env.Here()), env.Here()), report)
  {
    hide RouteRun, RetryEnds, Kept, ExecutedLog, RetryInitial, NewRouteState;
    ghost var start := env.Here();
    Stays(start);
    var now := env.ReadClock();
    var expires := now + cfg.deadline;
    ghost var clock, begun := Event(now, Clock), env.Here();
    OneMore(start, start, clock);
    Stays(begun);
    if !loop.Refreshes() {
      report := KeepTrying(loop, cfg, env, Call(body, 0, 0), None, expires);
      Concluded(loop, cfg, body, start, begun, begun, env.Here(), clock, report);
      return;
    }
    var routed := ResolveRouteUntil(cfg, env, expires, false);
    ghost var middle := env.Here();
    Stays(middle);
    if routed.Unresolved? {
      report := PassedThrough(routed.error);
      Concluded(loop, cfg, body, start, begun, middle, middle, clock, report);
      return;
    }
    var route := routed.route;
    var call := Call(body, route.group, route.revision);
    if loop.Checkpoint? {
      report := KeepTrying(loop, cfg, env, call, route.leader, expires);
    } else {
      report := KeepTryingAnew(loop, cfg, env, call, route.leader);
    }
    Concluded(loop, cfg, body, start, begun, middle, env.Here(), clock, report);
  }
}
