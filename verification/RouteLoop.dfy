/** The two loops that the retry loops share, as the client runs them: retry_sleep and
    resolve_route_until.  What each of them logs is a run of its step system. */
module RouteLoop {
  import opened Options
  import opened Endpoints
  import opened Protocol
  import opened Environment

  // ---- retry_sleep -------------------------------------------------------------------------

  /** A pause that began at one point has come to this at the other. */
  ghost predicate NapAt(a: Mark, b: Mark, expires: nat, move: NapMove)
  {
    Follows(a, b) && NapRun(Due, a.now, Since(a, b), expires) == Some(move)
  }

  lemma NapAdds(a: Mark, b: Mark, expires: nat, nap: Nap, e: Event, move: NapMove)
    requires NapAt(a, b, expires, Dozing(nap)) && b.now <= e.at && NapStep(nap, e, expires) == Some(move)
    ensures NapAt(a, Mark(b.log + [e], e.at), expires, move)
  {
    hide NapStep;
    OneMore(a, b, e);
    var events := Since(a, b);
    assert (events + [e])[..|events|] == events;
  }

  /** Pauses for 25 ms, or up to the deadline; raced says whether cancellation can break the pause off. */
  method RetrySleep(env: Env, expires: nat, raced: bool) returns (move: NapMove)
    modifies env
    ensures NapAt(old(env.Here()), env.Here(), expires, move) && !move.Dozing?
    ensures move.Broken? ==> raced
    ensures move.Rested? ==> old(env.now) + PAUSE <= env.now < expires
  {
    hide NapAt;
    ghost var start := env.Here();
    assert NapAt(start, start, expires, Dozing(Due)) by { NapStarts(start, expires); }
    var broken := env.Race(raced);
    if broken {
      NapAdds(start, start, expires, Due, Event(env.now, Cancel), Broken);
      return Broken;
    }
    ghost var here := env.Here();
    var begin := env.ReadClock();
    if begin >= expires {
      NapAdds(start, here, expires, Due, Event(begin, Clock), Expired);
      return Expired;
    }
    NapAdds(start, here, expires, Due, Event(begin, Clock), Dozing(Asleep(begin)));
    here := env.Here();
    broken := env.Race(raced);
    if broken {
      NapAdds(start, here, expires, Asleep(begin), Event(env.now, Cancel), Broken);
      return Broken;
    }
    var remaining := expires - begin;
    var duration := if PAUSE < remaining then PAUSE else remaining;
    env.Sleep(duration);
    NapAdds(start, here, expires, Asleep(begin), Event(env.now, Slept(duration)), Dozing(Awake));
    here := env.Here();
    var woke := env.ReadClock();
    move := if woke >= expires then Expired else Rested;
    NapAdds(start, here, expires, Awake, Event(woke, Clock), move);
  }

  lemma NapStarts(a: Mark, expires: nat)
    ensures NapAt(a, a, expires, Dozing(Due))
  {
  }

  // ---- add_hint ----------------------------------------------------------------------------

  /** A leader hint, if there is one: the new list and index, or the error of an endpoint that is not valid. */
  method ObeyHint(cfg: Config, endpoints0: seq<Endpoint>, index0: nat, leader: Option<Endpoint>)
      returns (endpoints: seq<Endpoint>, index: nat, invalid: Option<RpcError>)
    ensures match leader
            case Some(hint) =>
              if cfg.valid(hint) then invalid == None && Ring(endpoints, index) == Hint(Ring(endpoints0, index0), hint)
              else invalid == Some(InvalidEndpoint(hint))
            case None => invalid == None && Ring(endpoints, index) == Ring(endpoints0, index0)
    ensures endpoints0 != [] ==> endpoints != []
  {
    endpoints, index, invalid := endpoints0, index0, None;
    if leader.Some? {
      if cfg.valid(leader.value) {
        endpoints, index := AddHint(endpoints, leader.value);
      } else {
        invalid := Some(InvalidEndpoint(leader.value));
      }
    }
  }

  // ---- resolve_route_until -----------------------------------------------------------------

  /** A route resolution that began at one point has come to this at the other. */
  ghost predicate RouteAt(cfg: Config, a: Mark, b: Mark, expires: nat, move: RouteMove)
  {
    Follows(a, b) && RouteRun(cfg, NewRouteState(cfg.seeds), a.now, Since(a, b), expires) == Some(move)
  }

  lemma RouteStarts(cfg: Config, a: Mark, expires: nat)
    ensures RouteAt(cfg, a, a, expires, Going(NewRouteState(cfg.seeds)))
  {
  }

  lemma RouteAdds(cfg: Config, a: Mark, b: Mark, expires: nat, r: RouteState, e: Event, move: RouteMove)
    requires RouteAt(cfg, a, b, expires, Going(r)) && b.now <= e.at && RouteStep(cfg, r, e, expires) == Some(move)
    ensures RouteAt(cfg, a, Mark(b.log + [e], e.at), expires, move)
  {
    hide RouteStep;
    OneMore(a, b, e);
    var events := Since(a, b);
    assert (events + [e])[..|events|] == events;
  }

  lemma RouteRests(cfg: Config, a: Mark, b: Mark, c: Mark, expires: nat, r: RouteState, move: NapMove)
    requires RouteAt(cfg, a, b, expires, Going(r)) && r.phase == Pausing(Due) && NapAt(b, c, expires, move)
    ensures RouteAt(cfg, a, c, expires, RouteNap(r, move))
  {
    hide RouteRun, NapRun;
    Continues(a, b, c);
    NapInRoute(cfg, r, b.now, Since(b, c), expires);
    RouteRunJoins(cfg, NewRouteState(cfg.seeds), a.now, Since(a, b), Since(b, c), expires);
  }

  // The match on one route answer: goes on with these endpoints and this index, or ends the search.
  method RouteDecision(cfg: Config, endpoints0: seq<Endpoint>, index0: nat, answer: Answer<Route>)
      returns (endpoints: seq<Endpoint>, index: nat, end: Option<RouteMove>)
    requires endpoints0 != []
    ensures endpoints != []
    ensures RouteAnswer(cfg, RouteState(endpoints0, index0, Asking), answer)
         == match end case Some(move) => move case None => Going(RouteState(endpoints, index, Pausing(Due)))
    ensures end.Some? ==> !end.value.Going? && !end.value.Abandoned?
  {
    endpoints, index, end := endpoints0, index0, None;
    match answer {
      case Success(route) =>
        end := Some(Resolved(route));
      case Failure(Deadline) =>
        end := Some(Unresolved(RequestFailed));
      case Failure(Client(error)) =>
        if error.Domain? && error.error.NotLeader? && cfg.retry {
          var invalid;
          endpoints, index, invalid := ObeyHint(cfg, endpoints, index, error.error.leader);
          end := if invalid.Some? then Some(Unresolved(invalid.value)) else None;
        } else if (error.Connection? || error.RequestFailed?) && cfg.retry {
          index := (index + 1) % USIZE;
        } else {
          end := Some(Unresolved(error));
        }
    }
  }

  /** Asks endpoint after endpoint for the route until one knows it, another error ends the search, or
      the deadline does; raced says whether cancellation can. */
  method ResolveRouteUntil(cfg: Config, env: Env, expires: nat, raced: bool) returns (move: RouteMove)
    requires cfg.seeds != []
    modifies env
    ensures RouteAt(cfg, old(env.Here()), env.Here(), expires, move)
    ensures !move.Going? && (move.Abandoned? ==> raced)
  {
    hide RouteAt, NapAt, RouteAnswer;
    ghost var start := env.Here();
    RouteStarts(cfg, start, expires);
    var endpoints := cfg.seeds;
    var index: nat := 0;
    while true
      invariant endpoints != []
      invariant RouteAt(cfg, start, env.Here(), expires, Going(RouteState(endpoints, index, Asking)))
      decreases expires - env.now
    {
      ghost var here, r := env.Here(), RouteState(endpoints, index, Asking);
      var endpoint := endpoints[index % |endpoints|];
      var cancelled := env.Race(raced);
      if cancelled {
        RouteAdds(cfg, start, here, expires, r, Event(env.now, Cancel), Abandoned);
        return Abandoned;
      }
      var answer := env.AskRoute(endpoint);
      RouteAdds(cfg, start, here, expires, r, Event(env.now, RouteAnswered(endpoint, answer)), RouteAnswer(cfg, r, answer));
      var end;
      endpoints, index, end := RouteDecision(cfg, endpoints, index, answer);
      if end.Some? {
        return end.value;
      }
      here := env.Here();
      var pause := RetrySleep(env, expires, raced);
      RouteRests(cfg, start, here, env.Here(), expires, RouteState(endpoints, index, Pausing(Due)), pause);
      if pause.Expired? {
        return Unresolved(Domain(QuorumUnavailable(NotApplicable)));
      } else if pause.Broken? {
        return Abandoned;
      }
    }
  }
}
