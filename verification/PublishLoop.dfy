/** The publish loop and the receipt loop inside it, as the client runs them: local variables, and calls
    into an environment that may do anything and logs everything.  The contracts speak of that log: what
    a method adds to it is a run of PublishMachine, ending in what the method returns. */
module PublishLoop {
  import opened Options
  import opened Endpoints
  import opened Protocol
  import opened Environment
  import opened RouteLoop
  import opened PublishMachine
  import opened PublishRuns
  import opened PublishLogs
  import opened PublishEndings

  // ---- receipt_until -----------------------------------------------------------------------

  /** A lookup that began at one point has come to this at the other. */
  ghost predicate LookupAt(cfg: Config, first: Lookup, a: Mark, b: Mark, expires: nat, move: LookupMove)
  {
    Follows(a, b) && LookupRun(cfg, first, a.now, Since(a, b), expires) == Some(move)
  }

  lemma LookupStarts(cfg: Config, l: Lookup, a: Mark, expires: nat)
    ensures LookupAt(cfg, l, a, a, expires, Looking(l))
  {
  }

  lemma LookupAdds(cfg: Config, first: Lookup, a: Mark, b: Mark, expires: nat, l: Lookup, e: Event, move: LookupMove)
    requires LookupAt(cfg, first, a, b, expires, Looking(l)) && b.now <= e.at && LookupStep(cfg, l, e, expires) == Some(move)
    ensures LookupAt(cfg, first, a, Mark(b.log + [e], e.at), expires, move)
  {
    hide LookupStep;
    OneMore(a, b, e);
    var events := Since(a, b);
    assert (events + [e])[..|events|] == events;
  }

  lemma {:induction false} LookupRunJoins(cfg: Config, l: Lookup, now: nat, a: seq<Event>, b: seq<Event>, expires: nat)
    ensures LookupRun(cfg, l, now, a + b, expires)
         == match LookupRun(cfg, l, now, a, expires)
            case Some(Looking(l')) => LookupRun(cfg, l', Ticks(now, a), b, expires)
            case other => if b == [] then other else None
  {
    hide LookupStep;
    if b == [] {
      assert a + b == a;
    } else {
      var front := b[..|b| - 1];
      assert (a + b)[..|a + b| - 1] == a + front;
      LookupRunJoins(cfg, l, now, a, front, expires);
      TicksJoin(now, a, front);
    }
  }

  lemma LookupContinues(cfg: Config, first: Lookup, l: Lookup, a: Mark, b: Mark, c: Mark, expires: nat, move: LookupMove)
    requires LookupAt(cfg, first, a, b, expires, Looking(l)) && LookupAt(cfg, l, b, c, expires, move)
    ensures LookupAt(cfg, first, a, c, expires, move)
  {
    hide LookupRun;
    Continues(a, b, c);
    LookupRunJoins(cfg, first, a.now, Since(a, b), Since(b, c), expires);
  }

  /** The pause of a lookup. */
  lemma {:induction false} NapInLookup(cfg: Config, l: Lookup, now: nat, events: seq<Event>, expires: nat)
    requires l.phase == LookupPausing(Due) && NapRun(Due, now, events, expires).Some? && !NapRun(Due, now, events, expires).value.Broken?
    ensures LookupRun(cfg, l, now, events, expires) == LookupNapped(l, NapRun(Due, now, events, expires).value)
  {
    hide NapStep;
    if events != [] {
      NapInLookup(cfg, l, now, events[..|events| - 1], expires);
    }
  }

  /** The route refresh of a lookup. */
  lemma {:induction false} RouteInLookup(cfg: Config, l: Lookup, r: RouteState, now: nat, events: seq<Event>, expires: nat)
    requires l.phase == LookupRefreshing(r) && l.asked != []
    requires RouteRun(cfg, r, now, events, expires).Some? && !RouteRun(cfg, r, now, events, expires).value.Abandoned?
    ensures LookupRun(cfg, l, now, events, expires) == LookupRouted(cfg, l, RouteRun(cfg, r, now, events, expires).value)
  {
    hide RouteStep, LookupHint, LookupReroutes;
    if events != [] {
      var front := events[..|events| - 1];
      RouteInLookup(cfg, l, r, now, front, expires);
      LookupRoutedAlike(cfg, l, RouteRun(cfg, r, now, front, expires).value.state, RouteRun(cfg, r, now, events, expires).value);
    }
  }

  // The phase left behind makes no difference.
  lemma LookupRoutedAlike(cfg: Config, l: Lookup, r: RouteState, move: RouteMove)
    ensures LookupRouted(cfg, l.(phase := LookupRefreshing(r)), move) == LookupRouted(cfg, l, move)
  {
    hide Hint;
  }

  lemma LookupRests(cfg: Config, l: Lookup, a: Mark, b: Mark, expires: nat, move: NapMove)
    requires l.phase == LookupPausing(Due) && NapAt(a, b, expires, move) && !move.Broken?
    ensures LookupAt(cfg, l, a, b, expires, LookupNapped(l, move).value)
  {
    NapInLookup(cfg, l, a.now, Since(a, b), expires);
  }

  lemma LookupRefreshed(cfg: Config, l: Lookup, a: Mark, b: Mark, expires: nat, move: RouteMove)
    requires l.phase == LookupRefreshing(NewRouteState(cfg.seeds)) && l.asked != []
    requires RouteAt(cfg, a, b, expires, move) && !move.Abandoned?
    ensures LookupRouted(cfg, l, move).Some? && LookupAt(cfg, l, a, b, expires, LookupRouted(cfg, l, move).value)
  {
    hide LookupHint;
    RouteInLookup(cfg, l, NewRouteState(cfg.seeds), a.now, Since(a, b), expires);
  }

  datatype Decision = Wait(leader: Option<Endpoint>) | RefreshFirst | End(move: LookupMove)

  // The match on one lookup answer.
  method LookupDecision(cfg: Config, answer: Answer<Receipt>, ghost l: Lookup) returns (d: Decision)
    ensures LookupAnswer(cfg, l, answer)
         == match d case Wait(leader) => LookupHint(cfg, l, leader)
                    case RefreshFirst => Looking(l.(phase := LookupRefreshing(NewRouteState(cfg.seeds))))
                    case End(move) => move
    ensures d.End? ==> !d.move.Looking?
  {
    hide LookupHint;
    match answer {
      case Success(receipt) => d := End(Found(receipt));
      case Failure(Deadline) => d := End(NotFound(Domain(ReceiptNotFound)));
      case Failure(Client(error)) =>
        if error == Domain(ReceiptNotFound) || (error.Domain? && error.error.QuorumUnavailable?)
           || error.Connection? || error.RequestFailed? {
          d := Wait(None);
        } else if error.Domain? && error.error.NotLeader? {
          d := Wait(error.error.leader);
        } else if error == Domain(StaleRoute) {
          d := RefreshFirst;
        } else {
          d := End(NotFound(error));
        }
    }
  }

  /** The loop's variables and the lookup of the machine. */
  ghost predicate LookupHolds(l: Lookup, request: LookupRequest, endpoints: seq<Endpoint>, index: nat)
  {
    l.request == request && l.ring == Ring(endpoints, index) && endpoints != []
  }

  /** One lookup, up to its pause or to the end of the search. */
  method LookupRound(cfg: Config, env: Env, request0: LookupRequest, endpoints0: seq<Endpoint>, index0: nat, expires: nat, ghost l0: Lookup)
      returns (end: Option<LookupMove>, request: LookupRequest, endpoints: seq<Endpoint>, index: nat, ghost l: Lookup)
    requires LookupHolds(l0, request0, endpoints0, index0) && l0.phase == LookupHead && cfg.seeds != []
    modifies env
    ensures LookupAt(cfg, l0, old(env.Here()), env.Here(), expires, match end case Some(move) => move case None => Looking(l))
    ensures end.Some? ==> !end.value.Looking?
    ensures end.None? ==> l.phase == LookupPausing(Due) && LookupHolds(l, request, endpoints, index)
  {
    hide LookupAt, RouteAt, LookupAnswer, Hint;
    ghost var start := env.Here();
    LookupStarts(cfg, l0, start, expires);
    request, endpoints, index, l := request0, endpoints0, index0, l0;
    var now := env.ReadClock();
    if now >= expires {
      end := Some(NotFound(Domain(ReceiptNotFound)));
      LookupAdds(cfg, l0, start, start, expires, l, Event(now, Clock), end.value);
      return;
    }
    l := LookupAsks(l0);
    LookupAdds(cfg, l0, start, start, expires, l0, Event(now, Clock), Looking(l));
    ghost var here := env.Here();
    var endpoint := endpoints[index % |endpoints|];
    index := (index + 1) % USIZE;
    var answer := env.AskReceipt(endpoint, request);
    ghost var heard := LookupHears(l, answer);
    LookupAdds(cfg, l0, start, here, expires, l, Event(env.now, ReceiptAnswered(endpoint, request, answer)),
               LookupAnswer(cfg, heard, answer));
    l := heard;
    var d := LookupDecision(cfg, answer, l);
    var leader := None;
    match d {
      case End(move) =>
        end := Some(move);
        return;
      case Wait(hint) =>
        leader := hint;
      case RefreshFirst =>
        ghost var refreshing := l.(phase := LookupRefreshing(NewRouteState(cfg.seeds)));
        here := env.Here();
        var routed := ResolveRouteUntil(cfg, env, expires, false);
        LookupRefreshed(cfg, refreshing, here, env.Here(), expires, routed);
        LookupContinues(cfg, l0, refreshing, start, here, env.Here(), expires, LookupRouted(cfg, refreshing, routed).value);
        if routed.Unresolved? {
          end := Some(NotFound(routed.error));
          return;
        }
        request := request.(routeGroup := routed.route.group, routeRevision := routed.route.revision);
        leader := routed.route.leader;
        l := LookupReroutes(refreshing, routed.route);
    }
    assert LookupAt(cfg, l0, start, env.Here(), expires, LookupHint(cfg, l, leader));
    var invalid;
    endpoints, index, invalid := ObeyHint(cfg, endpoints, index, leader);
    if invalid.Some? {
      end := Some(NotFound(invalid.value));
      return;
    }
    end, l := None, LookupHint(cfg, l, leader).lookup;
  }

  /** Looks the receipt of the request up, endpoint after endpoint, until it is found, another error
      ends the search, or the deadline does. */
  method ReceiptUntil(cfg: Config, env: Env, request0: LookupRequest, expires: nat) returns (move: LookupMove)
    requires cfg.seeds != []
    modifies env
    ensures LookupAt(cfg, NewLookup(cfg.seeds, request0), old(env.Here()), env.Here(), expires, move) && !move.Looking?
  {
    hide LookupAt, NapAt;
    ghost var start, first := env.Here(), NewLookup(cfg.seeds, request0);
    LookupStarts(cfg, first, start, expires);
    var request, endpoints := request0, cfg.seeds;
    var index: nat := 0;
    ghost var l := first;
    while true
      invariant LookupAt(cfg, first, start, env.Here(), expires, Looking(l))
      invariant LookupHolds(l, request, endpoints, index) && l.phase == LookupHead
      decreases expires - env.now
    {
      ghost var here, head, reached := env.Here(), l, Looking(l);
      var end;
      end, request, endpoints, index, l := LookupRound(cfg, env, request, endpoints, index, expires, head);
      reached := match end case Some(m) => m case None => Looking(l);
      LookupContinues(cfg, first, head, start, here, env.Here(), expires, reached);
      if end.Some? {
        return end.value;
      }
      LookupTime(cfg, head, here, env.Here(), expires, reached);
      here := env.Here();
      var pause := RetrySleep(env, expires, false);
      LookupRests(cfg, l, here, env.Here(), expires, pause);
      LookupContinues(cfg, first, l, start, here, env.Here(), expires, LookupNapped(l, pause).value);
      if pause.Expired? {
        return NotFound(Domain(ReceiptNotFound));
      }
      l := l.(phase := LookupHead);
    }
  }

  lemma LookupTime(cfg: Config, l: Lookup, a: Mark, b: Mark, expires: nat, move: LookupMove)
    requires LookupAt(cfg, l, a, b, expires, move)
    ensures a.now <= b.now
  {
  }

  // ---- Runs of the machine -----------------------------------------------------------------

  /** A client that was in one state at one point has come to another at the other. */
  ghost predicate At(cfg: Config, first: State, a: Mark, b: Mark, s: State)
  {
    Follows(a, b) && Run(cfg, first, Since(a, b)) == Some(s) && first.now == a.now && s.now == b.now
  }

  lemma Starts(cfg: Config, s: State, a: Mark)
    requires s.now == a.now
    ensures At(cfg, s, a, a, s)
  {
  }

  lemma Adds(cfg: Config, first: State, a: Mark, b: Mark, s: State, e: Event)
    requires At(cfg, first, a, b, s) && Step(cfg, s, e).Some?
    ensures At(cfg, first, a, Mark(b.log + [e], e.at), Step(cfg, s, e).value)
  {
    StepTakesTime(cfg, s, e);
    hide Step;
    OneMore(a, b, e);
    var events := Since(a, b);
    assert (events + [e])[..|events|] == events;
  }

  lemma StepTakesTime(cfg: Config, s: State, e: Event)
    requires Step(cfg, s, e).Some?
    ensures s.now <= e.at == Step(cfg, s, e).value.now
  {
    hide StepArriving, StepRouting, StepHead, StepHeadTime, StepConnecting, StepAwaiting, StepResting, StepFinishing, StepLookingUp;
  }

  lemma {:induction false} RunJoins(cfg: Config, s: State, a: seq<Event>, b: seq<Event>)
    ensures Run(cfg, s, a + b) == match Run(cfg, s, a) case None => None case Some(s') => Run(cfg, s', b)
  {
    hide Step;
    if b == [] {
      assert a + b == a;
    } else {
      var front := b[..|b| - 1];
      assert (a + b)[..|a + b| - 1] == a + front;
      RunJoins(cfg, s, a, front);
    }
  }

  lemma Joins(cfg: Config, first: State, middle: State, last: State, a: Mark, b: Mark, c: Mark)
    requires At(cfg, first, a, b, middle) && At(cfg, middle, b, c, last)
    ensures At(cfg, first, a, c, last)
  {
    hide Run;
    Continues(a, b, c);
    RunJoins(cfg, first, Since(a, b), Since(b, c));
  }

  /** The pause of the loop. */
  lemma {:induction false} NapInPublish(cfg: Config, s: State, events: seq<Event>)
    requires s.phase == Resting(Due) && NapRun(Due, s.now, events, s.expires).Some?
    requires NapRun(Due, s.now, events, s.expires).value.Broken? ==> cfg.cancellable
    ensures Run(cfg, s, events) == Napped(cfg, s.(now := Ticks(s.now, events)), NapRun(Due, s.now, events, s.expires).value)
  {
    hide NapStep, Finish;
    if events != [] {
      var front, e := events[..|events| - 1], events[|events| - 1];
      NapInPublish(cfg, s, front);
      FinishForgets(cfg, s.(now := e.at), Resting(NapRun(Due, s.now, front, s.expires).value.nap));
    }
  }

  lemma Rests(cfg: Config, s: State, a: Mark, b: Mark, move: NapMove)
    requires s.phase == Resting(Due) && s.now == a.now && NapAt(a, b, s.expires, move) && (move.Broken? ==> cfg.cancellable)
    ensures Napped(cfg, s.(now := b.now), move).Some? && At(cfg, s, a, b, Napped(cfg, s.(now := b.now), move).value)
  {
    hide Finish, NapRun, Run;
    NapInPublish(cfg, s, Since(a, b));
  }

  /** What becomes of the state when a route resolution ends; t counts its tries and pauses. */
  function RouteEnds(cfg: Config, t: State, first: bool, move: RouteMove): State
  {
    match move
    case Going(r) => t.(phase := Routing(first, r))
    case Unresolved(error) => t.(phase := Done(Err(Passed(error))))
    case Abandoned => Interrupt(t, Cancelled)
    case Resolved(route) => if first || t.attempts == [] then Enter(cfg, t, route) else Retry(cfg, Rerouted(t, route), route.leader)
  }

  /** The route resolutions of publish_with and of its loop. */
  lemma {:induction false} RouteInPublish(cfg: Config, s: State, first: bool, r: RouteState, events: seq<Event>) returns (t: State)
    requires s.phase == Routing(first, r) && (!first ==> s.attempts != []) && RouteRun(cfg, r, s.now, events, s.expires).Some?
    requires RouteRun(cfg, r, s.now, events, s.expires).value.Abandoned? ==> first && cfg.cancellable
    ensures t == s.(now := Ticks(s.now, events), tries := t.tries, pauses := t.pauses)
    ensures Run(cfg, s, events) == Some(RouteEnds(cfg, t, first, RouteRun(cfg, r, s.now, events, s.expires).value))
  {
    hide RouteStep, Enter, Retry, Rerouted;
    t := s;
    if events != [] {
      var front, e := events[..|events| - 1], events[|events| - 1];
      var t' := RouteInPublish(cfg, s, first, r, front);
      t := t'.(now := e.at);
      var move := RouteRun(cfg, r, s.now, events, s.expires).value;
      if move.Going? {
        var s' := Run(cfg, s, events).value;
        t := t.(tries := s'.tries, pauses := s'.pauses);
      } else {
        RouteEndsAlike(cfg, t, first, RouteRun(cfg, r, s.now, front, s.expires).value.state, move);
      }
    }
  }

  // The phase left behind makes no difference.
  lemma RouteEndsAlike(cfg: Config, t: State, first: bool, r: RouteState, move: RouteMove)
    ensures RouteEnds(cfg, t.(phase := Routing(first, r)), first, move) == RouteEnds(cfg, t, first, move)
  {
    hide Enter, Retry, Rerouted;
    if move.Resolved? {
      EnterAlike(cfg, t, Routing(first, r), move.route);
      if t.attempts != [] {
        RerouteAlike(cfg, t, Routing(first, r), move.route);
      }
    }
  }

  lemma EnterAlike(cfg: Config, t: State, phase: Phase, route: Route)
    ensures Enter(cfg, t.(phase := phase), route) == Enter(cfg, t, route)
  {
    hide Hint;
  }

  lemma RerouteAlike(cfg: Config, t: State, phase: Phase, route: Route)
    requires t.attempts != []
    ensures Retry(cfg, Rerouted(t.(phase := phase), route), route.leader) == Retry(cfg, Rerouted(t, route), route.leader)
  {
    hide Hint;
  }

  lemma RouteEnded(cfg: Config, s: State, first: bool, a: Mark, b: Mark, move: RouteMove) returns (t: State)
    requires s.phase == Routing(first, NewRouteState(cfg.seeds)) && (!first ==> s.attempts != []) && s.now == a.now
    requires RouteAt(cfg, a, b, s.expires, move) && (move.Abandoned? ==> first && cfg.cancellable)
    ensures t == s.(now := b.now, tries := t.tries, pauses := t.pauses) && At(cfg, s, a, b, RouteEnds(cfg, t, first, move))
  {
    hide RouteRun, Run, Hint;
    t := RouteInPublish(cfg, s, first, NewRouteState(cfg.seeds), Since(a, b));
  }

  /** The lookup of an interrupted publish. */
  lemma {:induction false} LookupInPublish(cfg: Config, s: State, events: seq<Event>)
    requires s.phase.LookingUp? && LookupRun(cfg, s.phase.lookup, s.now, events, s.expires).Some?
    ensures Run(cfg, s, events)
         == Some(Looked(s.(now := Ticks(s.now, events)), s.phase.reason, LookupRun(cfg, s.phase.lookup, s.now, events, s.expires).value))
  {
    hide LookupStep;
    if events != [] {
      LookupInPublish(cfg, s, events[..|events| - 1]);
    }
  }

  lemma LookupEnded(cfg: Config, s: State, a: Mark, b: Mark, move: LookupMove)
    requires s.phase.LookingUp? && s.now == a.now && LookupAt(cfg, s.phase.lookup, a, b, s.expires, move)
    ensures At(cfg, s, a, b, Looked(s.(now := b.now), s.phase.reason, move))
  {
    hide LookupRun, Run;
    LookupInPublish(cfg, s, Since(a, b));
  }

  // ---- finish_interrupted_publish ----------------------------------------------------------

  /** Reports an interruption, after looking the receipt up when that is asked for and possible. */
  method FinishInterruptedPublish(cfg: Config, env: Env, reason: Interruption, request: WireRequest, expires: nat,
                                  mayHaveReached: bool, ghost s: State)
      returns (result: Result, ghost done: State)
    requires s.now == env.now && s.expires == expires && s.request == request && s.mayHaveReached == mayHaveReached && cfg.seeds != []
    modifies env
    ensures At(cfg, Finish(cfg, s, reason), old(env.Here()), env.Here(), done) && done.phase == Done(result)
  {
    hide At, LookupAt;
    done := Finish(cfg, s, reason);
    ghost var start := env.Here();
    Starts(cfg, done, start);
    result := Err(Interrupted(reason, OutcomeFor(mayHaveReached), request.request));
    if mayHaveReached && cfg.resolveReceipt {
      ghost var finishing := done;
      var now := env.ReadClock();
      Adds(cfg, done, start, start, done, Event(now, Clock));
      done := Step(cfg, done, Event(now, Clock)).value;
      if now < expires {
        ghost var here, looking := env.Here(), done;
        var lookup := LookupRequest(request.cluster, request.stream, request.partition, request.request,
                                    request.routeGroup, request.routeRevision);
        var move := ReceiptUntil(cfg, env, lookup, expires);
        LookupEnded(cfg, looking, here, env.Here(), move);
        done := Looked(looking.(now := env.now), reason, move);
        Joins(cfg, finishing, looking, done, start, here, env.Here());
        match move {
          case Found(receipt) =>
            result := Ok(receipt);
          case NotFound(error) =>
            if error != Domain(ReceiptNotFound) {
              result := Err(Passed(error));
            }
        }
      }
    }
  }

  // ---- publish_with_resolved_route ---------------------------------------------------------

  /** The loop's variables and the state of the machine. */
  ghost predicate Holds(s: State, request: WireRequest, endpoints: seq<Endpoint>, index: nat, mayHaveReached: bool, expires: nat)
  {
    && s.request == request && s.ring == Ring(endpoints, index) && endpoints != []
    && s.mayHaveReached == mayHaveReached && s.expires == expires
  }

  /** The request goes out, and its answer comes or cancellation does; answer is None when cancellation
      wins.  In mid the attempt is over and its answer not yet acted on. */
  method SendAndAwait(cfg: Config, env: Env, endpoint: Endpoint, request: WireRequest, ghost s: State)
      returns (answer: Option<Answer<Receipt>>, ghost mid: State)
    requires s.phase == Connecting(Sending) && GoesTo(s, endpoint) && s.request == request && s.now == env.now
    modifies env
    ensures mid == s.(now := env.now, mayHaveReached := true, phase := Awaiting, attempts := mid.attempts)
    ensures |mid.attempts| == |s.attempts|
    ensures At(cfg, s, old(env.Here()), env.Here(),
               match answer case None => Finish(cfg, mid, Cancelled) case Some(a) => Dispatch(cfg, mid, a))
  {
    hide At, Dispatch, Finish, StepArriving, StepRouting, StepHead, StepHeadTime, StepResting, StepFinishing, StepLookingUp;
    ghost var start := env.Here();
    Starts(cfg, s, start);
    env.SendPublish(endpoint, request);
    Adds(cfg, s, start, start, s, Event(env.now, Sent(endpoint, request)));
    ghost var sent, here := Last(s.(now := env.now), true, None).(mayHaveReached := true, phase := Awaiting), env.Here();
    var cancelled := env.Race(cfg.cancellable);
    if cancelled {
      mid, answer := sent.(now := env.now), None;
      Adds(cfg, s, start, here, sent, Event(env.now, Cancel));
      return;
    }
    var reply := env.AwaitReceipt();
    mid, answer := Last(sent.(now := env.now), true, Some(reply)), Some(reply);
    Adds(cfg, s, start, here, sent, Event(env.now, Answered(reply)));
  }

  /** publish_once raced against cancellation; answer is None when cancellation wins.  In mid the attempt
      is over and its answer not yet acted on. */
  method PublishOnce(cfg: Config, env: Env, endpoint: Endpoint, request: WireRequest, expires: nat, mayHaveReached0: bool, ghost s: State)
      returns (mayHaveReached: bool, answer: Option<Answer<Receipt>>, ghost mid: State)
    requires s.phase == Connecting(Dialing) && GoesTo(s, endpoint) && s.request == request
    requires s.now == env.now && s.mayHaveReached == mayHaveReached0 && s.expires == expires
    modifies env
    ensures mid == s.(now := env.now, mayHaveReached := mayHaveReached, phase := mid.phase, attempts := mid.attempts)
    ensures |mid.attempts| == |s.attempts| && (mid.phase.Connecting? || mid.phase.Awaiting?)
    ensures At(cfg, s, old(env.Here()), env.Here(),
               match answer case None => Finish(cfg, mid, Cancelled) case Some(a) => Dispatch(cfg, mid, a))
  {
    hide At, Dispatch, Finish, ConnectError, StepArriving, StepRouting, StepHead, StepHeadTime, StepResting, StepFinishing, StepLookingUp;
    ghost var start, here := env.Here(), env.Here();
    Starts(cfg, s, start);
    mayHaveReached, answer := mayHaveReached0, None;
    var cancelled := env.Race(cfg.cancellable);
    if cancelled {
      mid := s.(now := env.now);
      Adds(cfg, s, start, here, s, Event(env.now, Cancel));
      return;
    }
    var failure := env.Connect(endpoint);
    mid := s.(now := env.now);
    if failure.Some? {
      Adds(cfg, s, start, here, s, Event(env.now, ConnectFailed(endpoint, failure.value)));
      answer := Some(Failure(failure.value));
      return;
    }
    Adds(cfg, s, start, here, s, Event(env.now, Connected(endpoint)));
    mid, here := mid.(phase := Connecting(Timing)), env.Here();
    var now := env.ReadClock();
    Adds(cfg, s, start, here, mid, Event(now, Clock));
    if now >= expires {
      mid, answer := mid.(now := now), Some(Failure(Deadline));
      return;
    }
    ghost var sending := mid.(now := now, phase := Connecting(Sending));
    here := env.Here();
    mayHaveReached := true;
    answer, mid := SendAndAwait(cfg, env, endpoint, request, sending);
    ghost var end := if answer.None? then Finish(cfg, mid, Cancelled) else Dispatch(cfg, mid, answer.value);
    Joins(cfg, s, sending, end, start, here, env.Here());
  }

  datatype Action = Return(result: Result) | Stop(reason: Interruption) | Refresh | Rest

  /** The match on the result of publish_once. */
  method Decide(cfg: Config, answer: Answer<Receipt>, endpoints0: seq<Endpoint>, index0: nat,
                mayHaveReached0: bool, ambiguityBefore: bool, ghost mid: State)
      returns (a: Action, endpoints: seq<Endpoint>, index: nat, mayHaveReached: bool)
    requires Holds(mid, mid.request, endpoints0, index0, mayHaveReached0, mid.expires) && mid.before == ambiguityBefore
    ensures a.Return? ==> Dispatch(cfg, mid, answer).phase == Done(a.result)
    ensures a.Stop? ==> Dispatch(cfg, mid, answer) == Finish(cfg, mid, a.reason)
    ensures a.Stop? ==> Holds(mid, mid.request, endpoints, index, mayHaveReached, mid.expires)
    ensures a.Refresh? ==> Dispatch(cfg, mid, answer).phase == Routing(false, NewRouteState(cfg.seeds))
    ensures a.Rest? ==> Dispatch(cfg, mid, answer).phase == Resting(Due)
    ensures a.Refresh? || a.Rest? ==> Holds(Dispatch(cfg, mid, answer), mid.request, endpoints, index, mayHaveReached, mid.expires)
    ensures Dispatch(cfg, mid, answer).now == mid.now
  {
    hide Hint;
    endpoints, index, mayHaveReached := endpoints0, index0, mayHaveReached0;
    match answer {
      case Success(receipt) =>
        a := Return(Ok(receipt));
      case Failure(Deadline) =>
        a := Stop(DeadlinePassed);
      case Failure(Client(error)) =>
        if error.Domain? && error.error.NotLeader? {
          mayHaveReached := ambiguityBefore;
          if !cfg.retry {
            a := Return(Err(Passed(error)));
            return;
          }
          var invalid;
          endpoints, index, invalid := ObeyHint(cfg, endpoints, index, error.error.leader);
          a := if invalid.Some? then Return(Err(Passed(invalid.value))) else Rest;
        } else if error.Domain? && error.error.QuorumUnavailable? && cfg.retry {
          if error.error.outcome == DefiniteNoCommit {
            mayHaveReached := ambiguityBefore;
          }
          a := Rest;
        } else if (error.Connection? || error.RequestFailed?) && cfg.retry {
          a := Rest;
        } else if (error == Domain(QuorumUnavailable(AmbiguousCommit)) || error.Connection? || error.RequestFailed?)
                  && cfg.resolveReceipt && mayHaveReached {
          a := Stop(Transport);
        } else if error == Domain(StaleRoute) && cfg.retry {
          mayHaveReached := ambiguityBefore;
          a := Refresh;
        } else {
          a := Return(Err(Passed(error)));
        }
    }
  }

  // StaleRoute: the route refresh, and its leader hint.
  method RefreshPublish(cfg: Config, env: Env, request0: WireRequest, endpoints0: seq<Endpoint>, index0: nat, mayHaveReached: bool,
                        expires: nat, ghost s0: State)
      returns (a: Action, request: WireRequest, endpoints: seq<Endpoint>, index: nat, ghost s: State)
    requires s0.phase == Routing(false, NewRouteState(cfg.seeds)) && s0.attempts != [] && s0.now == env.now && cfg.seeds != []
    requires Holds(s0, request0, endpoints0, index0, mayHaveReached, expires)
    modifies env
    ensures At(cfg, s0, old(env.Here()), env.Here(), s) && (a.Return? || a.Rest?)
    ensures a.Return? ==> s.phase == Done(a.result)
    ensures a.Rest? ==> s.phase == Resting(Due) && Holds(s, request, endpoints, index, mayHaveReached, expires)
    ensures request == request0.(routeGroup := request.routeGroup, routeRevision := request.routeRevision)
  {
    hide At, RouteAt, Hint;
    request, endpoints, index, a := request0, endpoints0, index0, Rest;
    ghost var start := env.Here();
    var routed := ResolveRouteUntil(cfg, env, expires, false);
    ghost var t := RouteEnded(cfg, s0, false, start, env.Here(), routed);
    s := RouteEnds(cfg, t, false, routed);
    if routed.Unresolved? {
      a := Return(Err(Passed(routed.error)));
      return;
    }
    request := request.(routeGroup := routed.route.group, routeRevision := routed.route.revision);
    var invalid;
    endpoints, index, invalid := ObeyHint(cfg, endpoints, index, routed.route.leader);
    if invalid.Some? {
      a := Return(Err(Passed(invalid.value)));
    }
  }

  /** The checks at the head of the loop; the attempt they let through is about to connect. */
  method LoopHead(cfg: Config, env: Env, expires: nat, ghost s: State) returns (interrupted: Option<Interruption>)
    requires s.phase == Head && s.ring.list != [] && s.now == env.now && s.expires == expires
    modifies env
    ensures At(cfg, s, old(env.Here()), env.Here(),
               match interrupted case Some(reason) => Finish(cfg, s.(now := env.now), reason) case None => Begun(s.(now := env.now)))
  {
    hide At, Current, Finish;
    ghost var start, here := env.Here(), env.Here();
    Starts(cfg, s, start);
    var cancelled := env.Poll(cfg.cancellable);
    Adds(cfg, s, start, here, s, Event(env.now, Polled(cancelled)));
    if cancelled {
      return Some(Cancelled);
    }
    ghost var timing := s.(now := env.now, phase := HeadTime);
    here := env.Here();
    var now := env.ReadClock();
    Adds(cfg, s, start, here, timing, Event(now, Clock));
    interrupted := if now >= expires then Some(DeadlinePassed) else None;
    assert Begun(timing.(now := now)) == Begun(s.(now := now));
    FinishForgets(cfg, s.(now := now), HeadTime);
  }

  // The phase left behind makes no difference.
  lemma FinishForgets(cfg: Config, s: State, phase: Phase)
    ensures forall reason :: Finish(cfg, s.(phase := phase), reason) == Finish(cfg, s, reason)
  {
  }

  // The attempt that begins is the one the loop's variables select.
  lemma BegunHolds(s: State)
    requires s.ring.list != []
    ensures var t := Begun(s);
      && t.phase == Connecting(Dialing) && GoesTo(t, Current(s.ring)) && t.ring == Advance(s.ring) && t.before == s.mayHaveReached
      && t.request == s.request && t.now == s.now && t.expires == s.expires && t.mayHaveReached == s.mayHaveReached
  {
    hide Current;
  }

  // The pause between two attempts, in the run.
  lemma Paused(cfg: Config, first: State, s: State, a: Mark, b: Mark, c: Mark, move: NapMove) returns (t: State)
    requires At(cfg, first, a, b, s) && s.phase == Resting(Due) && NapAt(b, c, s.expires, move)
    requires !move.Dozing? && (move.Broken? ==> cfg.cancellable)
    ensures At(cfg, first, a, c, t) && t == match move
      case Rested => s.(now := c.now, phase := Head, pauses := s.pauses + 1)
      case Broken => Finish(cfg, s.(now := c.now), Cancelled)
      case _ => Finish(cfg, s.(now := c.now), DeadlinePassed)
  {
    hide Finish, NapRun, Run;
    t := Napped(cfg, s.(now := c.now), move).value;
    Rests(cfg, s, b, c, move);
    Joins(cfg, first, s, t, a, b, c);
  }

  /** The client before its route is known: nothing sent, no hint obeyed. */
  ghost predicate Unstarted(cfg: Config, batch: Batch, s: State)
  {
    && s.request == ToWire(batch, Route(0, 0, None)) && s.ring == NewRing(cfg.seeds)
    && !s.mayHaveReached && s.attempts == []
  }

  /** One turn of the loop, up to its pause or to a result. */
  method PublishRound(cfg: Config, env: Env, request0: WireRequest, endpoints0: seq<Endpoint>, index0: nat, mayHaveReached0: bool,
                      expires: nat, ghost s0: State)
      returns (end: Option<Result>, request: WireRequest, endpoints: seq<Endpoint>, index: nat, mayHaveReached: bool, ghost s: State)
    requires s0.phase == Head && Holds(s0, request0, endpoints0, index0, mayHaveReached0, expires) && s0.now == env.now && cfg.seeds != []
    modifies env
    ensures At(cfg, s0, old(env.Here()), env.Here(), s)
    ensures end.Some? ==> s.phase == Done(end.value)
    ensures end.None? ==> s.phase == Resting(Due) && Holds(s, request, endpoints, index, mayHaveReached, expires)
  {
    hide At, Finish, Dispatch, Begun;
    ghost var start := env.Here();
    end, request, endpoints, index, mayHaveReached := None, request0, endpoints0, index0, mayHaveReached0;
    var interrupted := LoopHead(cfg, env, expires, s0);
    ghost var here := env.Here();
    if interrupted.Some? {
      ghost var stopped, done := s0.(now := env.now), s0;
      var result;
      result, done := FinishInterruptedPublish(cfg, env, interrupted.value, request, expires, mayHaveReached, stopped);
      Joins(cfg, s0, Finish(cfg, stopped, interrupted.value), done, start, here, env.Here());
      end, s := Some(result), done;
      return;
    }
    ghost var begun := Begun(s0.(now := env.now));
    BegunHolds(s0.(now := env.now));
    var endpoint := endpoints[index % |endpoints|];
    index := (index + 1) % USIZE;
    var ambiguityBefore := mayHaveReached;
    var answer;
    ghost var mid;
    mayHaveReached, answer, mid := PublishOnce(cfg, env, endpoint, request, expires, mayHaveReached, begun);
    s := if answer.None? then Finish(cfg, mid, Cancelled) else Dispatch(cfg, mid, answer.value);
    Joins(cfg, s0, begun, s, start, here, env.Here());
    here := env.Here();
    var action := Stop(Cancelled);
    if answer.Some? {
      action, endpoints, index, mayHaveReached := Decide(cfg, answer.value, endpoints, index, mayHaveReached, ambiguityBefore, mid);
    }
    if action.Stop? {
      ghost var stopped, done := s, s;
      var result;
      result, done := FinishInterruptedPublish(cfg, env, action.reason, request, expires, mayHaveReached, mid);
      Joins(cfg, s0, stopped, done, start, here, env.Here());
      end, s := Some(result), done;
      return;
    }
    if action.Refresh? {
      ghost var stale := s;
      action, request, endpoints, index, s := RefreshPublish(cfg, env, request, endpoints, index, mayHaveReached, expires, stale);
      Joins(cfg, s0, stale, s, start, here, env.Here());
    }
    if action.Return? {
      end := Some(action.result);
    }
  }

  /** The publish loop.  Whatever the environment does, the loop ends, and what passed between the two is
      a run of the step system, from the moment the route is known to the result. */
  method PublishWithResolvedRoute(cfg: Config, env: Env, batch: Batch, route: Route, expires: nat, ghost before: State)
      returns (result: Result, ghost done: State)
    requires cfg.Ok() && Unstarted(cfg, batch, before) && before.now == env.now && before.expires == expires
    modifies env
    ensures At(cfg, Enter(cfg, before, route), old(env.Here()), env.Here(), done) && done.phase == Done(result)
  {
    hide At, NapAt, Finish, Hint;
    ghost var first, start := Enter(cfg, before, route), env.Here();
    var request := ToWire(batch, route);
    var endpoints, index: nat, invalid := ObeyHint(cfg, cfg.seeds, 0, route.leader);
    var mayHaveReached := false;
    ghost var s := first;
    Starts(cfg, first, start);
    if invalid.Some? {
      return Err(Passed(invalid.value)), first;
    }
    while true
      invariant At(cfg, first, start, env.Here(), s) && s.phase == Head && s.now == env.now
      invariant Holds(s, request, endpoints, index, mayHaveReached, expires)
      decreases expires - env.now
    {
      ghost var here, head := env.Here(), s;
      var end;
      end, request, endpoints, index, mayHaveReached, s := PublishRound(cfg, env, request, endpoints, index, mayHaveReached, expires, head);
      Takes(cfg, head, here, env.Here(), s);
      Joins(cfg, first, head, s, start, here, env.Here());
      if end.Some? {
        return end.value, s;
      }
      here := env.Here();
      var pause := RetrySleep(env, expires, cfg.cancellable);
      ghost var resting := s.(now := env.now);
      ghost var rested := Paused(cfg, first, s, start, here, env.Here(), pause);
      here := env.Here();
      if !pause.Rested? {
        var reason := if pause.Broken? then Cancelled else DeadlinePassed;
        result, done := FinishInterruptedPublish(cfg, env, reason, request, expires, mayHaveReached, resting);
        Joins(cfg, first, rested, done, start, here, env.Here());
        return;
      }
      s := rested;
    }
  }

  lemma Takes(cfg: Config, first: State, a: Mark, b: Mark, s: State)
    requires At(cfg, first, a, b, s)
    ensures a.now <= b.now == s.now
  {
  }

  // ---- publish_with and publish_with_route_hint_and_options --------------------------------

  /** The log of a whole publish: a clock reading, from which the deadline counts, and a run that ends in
      the result and keeps what the result says. */
  ghost predicate Published(cfg: Config, batch: Batch, route: Option<Route>, log: seq<Event>, result: Result)
  {
    && log != [] && log[0].act == Clock
    && Ends(cfg, Initial(cfg, batch, route, log[0].at, log[0].at, log[0].at + cfg.deadline), log[1..], result)
    && Reliable(cfg, batch, route, log[0].at + cfg.deadline, log[1..], result)
  }

  lemma Concludes(cfg: Config, batch: Batch, route: Option<Route>, before: Mark, start: nat, b: Mark, done: State, result: Result)
    requires cfg.Ok() && before.now <= start && done.phase == Done(result)
    requires At(cfg, Initial(cfg, batch, route, start, start, start + cfg.deadline),
                Mark(before.log + [Event(start, Clock)], start), b, done)
    ensures Follows(before, b) && Published(cfg, batch, route, Since(before, b), result)
  {
    hide At, Initial, Published, Follows, Since;
    var first, a := Initial(cfg, batch, route, start, start, start + cfg.deadline), Mark(before.log + [Event(start, Clock)], start);
    Stays(before);
    OneMore(before, before, Event(start, Clock));
    AtEnds(cfg, first, a, b, done, result);
    Continues(before, a, b);
    assert Since(before, b) == [Event(start, Clock)] + Since(a, b);
    RunPublished(cfg, batch, route, start, Since(a, b), result);
  }

  lemma AtEnds(cfg: Config, first: State, a: Mark, b: Mark, done: State, result: Result)
    requires At(cfg, first, a, b, done) && done.phase == Done(result)
    ensures Follows(a, b) && Ends(cfg, first, Since(a, b), result)
  {
  }

  lemma RunPublished(cfg: Config, batch: Batch, route: Option<Route>, start: nat, events: seq<Event>, result: Result)
    requires cfg.Ok() && Ends(cfg, Initial(cfg, batch, route, start, start, start + cfg.deadline), events, result)
    ensures Published(cfg, batch, route, [Event(start, Clock)] + events, result)
  {
    hide Ends, Reliable;
    var log := [Event(start, Clock)] + events;
    assert log[1..] == events;
    RunIsReliable(cfg, batch, route, Initial(cfg, batch, route, start, start, start + cfg.deadline), events, result);
  }

  /** publish_with: the route is resolved first, under the same deadline and cancellation. */
  method PublishWith(cfg: Config, env: Env, batch: Batch) returns (result: Result)
    requires cfg.Ok()
    modifies env
    ensures Follows(old(env.Here()), env.Here())
    ensures Published(cfg, batch, None, Since(old(env.Here()), env.Here()), result)
  {
    hide At, RouteAt, Published, Hint;
    ghost var before := env.Here();
    var start := env.ReadClock();
    var expires := start + cfg.deadline;
    ghost var ready, first := env.Here(), Initial(cfg, batch, None, start, start, expires);
    Starts(cfg, first, ready);
    var cancelled := env.Poll(cfg.cancellable);
    Adds(cfg, first, ready, ready, first, Event(env.now, Polled(cancelled)));
    ghost var here, s := env.Here(), Step(cfg, first, Event(env.now, Polled(cancelled))).value;
    if cancelled {
      result := Err(Interrupted(Cancelled, DefiniteNoCommit, batch.request));
      Concludes(cfg, batch, None, before, start, here, s, result);
      return;
    }
    var move := ResolveRouteUntil(cfg, env, expires, cfg.cancellable);
    ghost var t := RouteEnded(cfg, s, true, here, env.Here(), move);
    ghost var done := RouteEnds(cfg, t, true, move);
    Joins(cfg, first, s, done, ready, here, env.Here());
    match move {
      case Unresolved(error) =>
        result := Err(Passed(error));
      case Abandoned =>
        result := Err(Interrupted(Cancelled, DefiniteNoCommit, batch.request));
      case Resolved(route) =>
        ghost var entered := done;
        here := env.Here();
        result, done := PublishWithResolvedRoute(cfg, env, batch, route, expires, t);
        Joins(cfg, first, entered, done, ready, here, env.Here());
    }
    Concludes(cfg, batch, None, before, start, env.Here(), done, result);
  }

  /** publish_with_route_hint_and_options: the caller knows the route. */
  method PublishWithRouteHint(cfg: Config, env: Env, batch: Batch, group: nat, revision: nat) returns (result: Result)
    requires cfg.Ok()
    modifies env
    ensures Follows(old(env.Here()), env.Here())
    ensures Published(cfg, batch, Some(Route(group, revision, None)), Since(old(env.Here()), env.Here()), result)
  {
    hide At, Published;
    ghost var before := env.Here();
    var start := env.ReadClock();
    var expires, route := start + cfg.deadline, Route(group, revision, None);
    ghost var done;
    result, done := PublishWithResolvedRoute(cfg, env, batch, route, expires, Initial(cfg, batch, None, start, start, expires));
    Concludes(cfg, batch, Some(route), before, start, env.Here(), done, result);
  }
}
