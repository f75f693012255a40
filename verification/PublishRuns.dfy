/** More of what every run of the publish loop keeps: the batch, the order of the endpoints, and the
    attempt budget. */
module PublishRuns {
  import opened Options
  import opened Endpoints
  import opened Protocol
  import opened PublishMachine

  /** The client as it enters, before its deadline. */
  ghost predicate From(cfg: Config, batch: Batch, route: Option<Route>, s: State)
  {
    && cfg.Ok() && s.start <= s.now && s.start < s.expires
    && s == Initial(cfg, batch, route, s.start, s.now, s.expires)
  }

  // ---- One batch ---------------------------------------------------------------------------

  /** Every copy carries the batch; only the route fields vary.  A lookup asks for its receipt. */
  ghost predicate SameBatch(batch: Batch, s: State)
  {
    && Carries(s.request, batch)
    && (forall i :: 0 <= i < |s.attempts| ==> Carries(s.attempts[i].request, batch))
    && (s.phase.LookingUp? ==> AsksFor(s.phase.lookup.request, batch))
  }

  lemma DispatchSameBatch(cfg: Config, batch: Batch, s: State, answer: Answer<Receipt>)
    requires SameBatch(batch, s) && !s.phase.LookingUp?
    ensures SameBatch(batch, Dispatch(cfg, s, answer))
  {
    hide Hint, Carries;
  }

  lemma HeadSameBatch(cfg: Config, batch: Batch, s: State, e: Event)
    requires SameBatch(batch, s) && s.phase.HeadTime? && StepHeadTime(cfg, s, e).Some?
    ensures SameBatch(batch, StepHeadTime(cfg, s, e).value)
  {
    hide Current, Carries;
  }

  lemma ConnectingSameBatch(cfg: Config, batch: Batch, s: State, e: Event)
    requires SameBatch(batch, s) && s.phase.Connecting? && StepConnecting(cfg, s, s.phase.stage, e).Some?
    ensures SameBatch(batch, StepConnecting(cfg, s, s.phase.stage, e).value)
  {
    hide Dispatch, ConnectError, Carries;
    DispatchSameBatch(cfg, batch, s, Failure(Deadline));
    if e.act.ConnectFailed? {
      DispatchSameBatch(cfg, batch, s, Failure(e.act.error));
    }
  }

  lemma AwaitingSameBatch(cfg: Config, batch: Batch, s: State, e: Event)
    requires SameBatch(batch, s) && s.phase.Awaiting? && StepAwaiting(cfg, s, e).Some?
    ensures SameBatch(batch, StepAwaiting(cfg, s, e).value)
  {
    hide Dispatch, Carries;
    if e.act.Answered? {
      DispatchSameBatch(cfg, batch, Last(s, true, Some(e.act.answer)), e.act.answer);
    }
  }

  lemma RoutingSameBatch(cfg: Config, batch: Batch, s: State, e: Event)
    requires SameBatch(batch, s) && s.phase.Routing? && StepRouting(cfg, s, s.phase.first, s.phase.route, e).Some?
    ensures SameBatch(batch, StepRouting(cfg, s, s.phase.first, s.phase.route, e).value)
  {
    hide RouteStep, Hint, Routed;
    RoutedSameBatch(batch, s);
  }

  lemma RoutedSameBatch(batch: Batch, s: State)
    requires SameBatch(batch, s)
    ensures forall r, r' :: SameBatch(batch, Routed(s, true, r, r')) && SameBatch(batch, Routed(s, false, r, r'))
  {
    hide Carries;
  }

  lemma LookingUpSameBatch(cfg: Config, batch: Batch, s: State, e: Event)
    requires SameBatch(batch, s) && s.phase.LookingUp?
    requires StepLookingUp(cfg, s, s.phase.reason, s.phase.lookup, e).Some?
    ensures SameBatch(batch, StepLookingUp(cfg, s, s.phase.reason, s.phase.lookup, e).value)
  {
    hide RouteStep, NapStep, Hint, Current, Carries;
  }

  lemma StepSameBatch(cfg: Config, batch: Batch, s: State, e: Event)
    requires SameBatch(batch, s) && Step(cfg, s, e).Some?
    ensures SameBatch(batch, Step(cfg, s, e).value)
  {
    hide StepRouting, StepHeadTime, StepConnecting, StepAwaiting, StepLookingUp, NapStep;
    var t := s.(now := e.at);
    match s.phase {
      case Routing(_, _) => RoutingSameBatch(cfg, batch, t, e);
      case HeadTime => HeadSameBatch(cfg, batch, t, e);
      case Connecting(_) => ConnectingSameBatch(cfg, batch, t, e);
      case Awaiting => AwaitingSameBatch(cfg, batch, t, e);
      case LookingUp(_, _) => LookingUpSameBatch(cfg, batch, t, e);
      case _ =>
    }
  }

  /** Every copy sent in a run is the same batch under the same request id. */
  lemma {:induction false} RunSameBatch(cfg: Config, batch: Batch, route: Option<Route>, s: State, events: seq<Event>)
    requires From(cfg, batch, route, s) && Run(cfg, s, events).Some?
    ensures SameBatch(batch, Run(cfg, s, events).value)
  {
    hide Step;
    if events != [] {
      var front := events[..|events| - 1];
      RunSameBatch(cfg, batch, route, s, front);
      StepSameBatch(cfg, batch, Run(cfg, s, front).value, events[|events| - 1]);
    }
  }

  // ---- Endpoints ---------------------------------------------------------------------------

  ghost function AttemptTurns(attempts: seq<Attempt>): (turns: seq<Turn>)
    ensures |turns| == |attempts|
  {
    seq(|attempts|, i requires 0 <= i < |attempts| => Turn(attempts[i].endpoint, Told(attempts[i].answer, attempts[i].refreshed)))
  }

  ghost function LookupTurns(asked: seq<Asked>): (turns: seq<Turn>)
    ensures |turns| == |asked|
  {
    seq(|asked|, i requires 0 <= i < |asked| => Turn(asked[i].endpoint, Told(asked[i].answer, asked[i].refreshed)))
  }

  /** The ring of a lookup is the one its history of lookups leads to. */
  ghost predicate LookupWalks(cfg: Config, l: Lookup)
  {
    var turns := LookupTurns(l.asked);
    && InTurn(cfg.seeds, None, turns) && l.ring == RingAfter(cfg.seeds, None, turns)
    && (l.phase.LookupAsking? || l.phase.LookupRefreshing? ==>
          l.asked != [] && l.asked[|l.asked| - 1].refreshed == None && turns[|turns| - 1].told == None)
  }

  // publish_with has not come to its loop yet.
  predicate Entering(s: State)
  {
    s.phase.Arriving? || (s.phase.Routing? && s.phase.first)
  }

  /** The ring of the loop is the one its history of attempts leads to. */
  ghost predicate Walks(cfg: Config, s: State)
  {
    var turns := AttemptTurns(s.attempts);
    && InTurn(cfg.seeds, s.lead, turns)
    && (!s.phase.Done? ==> s.ring == RingAfter(cfg.seeds, s.lead, turns))
    && (Entering(s) ==> s.attempts == [] && s.lead == None)
    && (s.phase.Connecting? || s.phase.Awaiting? || (s.phase.Routing? && !s.phase.first) ==>
          s.attempts != [] && s.attempts[|s.attempts| - 1].refreshed == None && turns[|turns| - 1].told == None)
    && (s.phase.LookingUp? ==> LookupWalks(cfg, s.phase.lookup))
  }

  lemma RingNonempty(cfg: Config, lead: Option<Endpoint>, turns: seq<Turn>)
    requires cfg.Ok()
    ensures RingAfter(cfg.seeds, lead, turns).list != []
  {
    WalkKeepsList(cfg.seeds, lead, turns);
    ListIsNonempty(cfg.seeds, Leaders(lead, turns), RingAfter(cfg.seeds, lead, turns).list);
  }

  // The last attempt was told this, and the ring obeyed.
  lemma LastTold(cfg: Config, s: State, attempts: seq<Attempt>)
    requires s.attempts != [] && |attempts| == |s.attempts| && attempts[..|attempts| - 1] == s.attempts[..|attempts| - 1]
    requires attempts[|attempts| - 1].endpoint == s.attempts[|attempts| - 1].endpoint
    requires var turns := AttemptTurns(s.attempts); InTurn(cfg.seeds, s.lead, turns) && turns[|turns| - 1].told == None
    ensures var told := Told(attempts[|attempts| - 1].answer, attempts[|attempts| - 1].refreshed);
      && InTurn(cfg.seeds, s.lead, AttemptTurns(attempts))
      && RingAfter(cfg.seeds, s.lead, AttemptTurns(attempts)) == Led(RingAfter(cfg.seeds, s.lead, AttemptTurns(s.attempts)), told)
  {
    hide InTurn, RingAfter, Led, Told;
    var turns, n := AttemptTurns(s.attempts), |attempts| - 1;
    var told := Told(attempts[n].answer, attempts[n].refreshed);
    TurnTold(cfg.seeds, s.lead, turns, told);
    forall i | 0 <= i < n
      ensures attempts[i] == s.attempts[i]
    {
      assert attempts[i] == attempts[..n][i];
    }
    assert AttemptTurns(attempts) == turns[n := turns[n].(told := told)];
  }

  // What Dispatch does with the ring.
  lemma DispatchRing(cfg: Config, s: State, answer: Answer<Receipt>)
    requires s.phase.Connecting? || s.phase.Awaiting?
    ensures var t := Dispatch(cfg, s, answer);
      && t.lead == s.lead && (!t.phase.Done? ==> t.ring == Led(s.ring, LeaderOf(answer)))
      && !t.phase.Arriving? && !t.phase.Connecting? && !t.phase.Awaiting? && !t.phase.LookingUp?
      && (t.phase.Routing? ==> !t.phase.first && LeaderOf(answer) == None)
  {
    hide Hint;
  }

  lemma ConnectingWalks(cfg: Config, s: State, e: Event)
    requires Walks(cfg, s) && s.phase.Connecting? && StepConnecting(cfg, s, s.phase.stage, e).Some?
    ensures Walks(cfg, StepConnecting(cfg, s, s.phase.stage, e).value)
  {
    hide Dispatch, InTurn, RingAfter, Hint;
    DispatchRing(cfg, s, Failure(Deadline));
    if e.act.ConnectFailed? {
      DispatchRing(cfg, s, Failure(e.act.error));
    } else if e.act.Sent? {
      LastTold(cfg, s, Last(s, true, None).attempts);
    }
  }

  lemma AwaitingWalks(cfg: Config, s: State, e: Event)
    requires Walks(cfg, s) && s.phase.Awaiting? && StepAwaiting(cfg, s, e).Some?
    ensures Walks(cfg, StepAwaiting(cfg, s, e).value)
  {
    hide Dispatch, InTurn, RingAfter, Hint;
    if e.act.Answered? {
      var t := Last(s, true, Some(e.act.answer));
      LastTold(cfg, s, t.attempts);
      DispatchRing(cfg, t, e.act.answer);
    }
  }

  lemma EnterWalks(cfg: Config, s: State, route: Route)
    requires Walks(cfg, s) && s.phase.Routing? && s.phase.first
    ensures Walks(cfg, Enter(cfg, s, route))
  {
    hide Hint;
    assert AttemptTurns(s.attempts) == [];
    NothingInTurn(cfg.seeds, route.leader);
  }

  lemma ReroutedWalks(cfg: Config, s: State, route: Route)
    requires Walks(cfg, s) && s.phase.Routing? && !s.phase.first
    ensures Walks(cfg, Retry(cfg, Rerouted(s, route), route.leader))
  {
    hide InTurn, RingAfter, Hint;
    LastTold(cfg, s, Rerouted(s, route).attempts);
  }

  lemma RoutingWalks(cfg: Config, s: State, e: Event)
    requires Walks(cfg, s) && s.phase.Routing? && StepRouting(cfg, s, s.phase.first, s.phase.route, e).Some?
    ensures Walks(cfg, StepRouting(cfg, s, s.phase.first, s.phase.route, e).value)
  {
    hide RouteStep, InTurn, RingAfter, Enter, Retry, Rerouted;
    match RouteStep(cfg, s.phase.route, e, s.expires) {
      case Some(Resolved(route)) =>
        if s.phase.first {
          EnterWalks(cfg, s, route);
        } else {
          ReroutedWalks(cfg, s, route);
        }
      case _ =>
    }
  }

  lemma NothingInTurn(seeds: seq<Endpoint>, lead: Option<Endpoint>)
    ensures InTurn(seeds, lead, [])
  {
  }

  lemma HeadTimeWalks(cfg: Config, s: State, e: Event)
    requires cfg.Ok() && Walks(cfg, s) && s.phase.HeadTime? && StepHeadTime(cfg, s, e).Some?
    ensures Walks(cfg, StepHeadTime(cfg, s, e).value)
  {
    hide InTurn, RingAfter, Current;
    RingNonempty(cfg, s.lead, AttemptTurns(s.attempts));
    if e.at < s.expires {
      var turns := AttemptTurns(s.attempts);
      var t := Turn(Current(s.ring), None);
      TurnTaken(cfg.seeds, s.lead, turns, t);
      assert AttemptTurns(Begun(s).attempts) == turns + [t];
    }
  }

  lemma LookupLastTold(cfg: Config, l: Lookup, asked: seq<Asked>)
    requires l.asked != [] && |asked| == |l.asked| && asked[..|asked| - 1] == l.asked[..|asked| - 1]
    requires asked[|asked| - 1].endpoint == l.asked[|asked| - 1].endpoint
    requires var turns := LookupTurns(l.asked); InTurn(cfg.seeds, None, turns) && turns[|turns| - 1].told == None
    ensures var told := Told(asked[|asked| - 1].answer, asked[|asked| - 1].refreshed);
      && InTurn(cfg.seeds, None, LookupTurns(asked))
      && RingAfter(cfg.seeds, None, LookupTurns(asked)) == Led(RingAfter(cfg.seeds, None, LookupTurns(l.asked)), told)
  {
    hide InTurn, RingAfter, Led, Told;
    var turns, n := LookupTurns(l.asked), |asked| - 1;
    var told := Told(asked[n].answer, asked[n].refreshed);
    TurnTold(cfg.seeds, None, turns, told);
    forall i | 0 <= i < n
      ensures asked[i] == l.asked[i]
    {
      assert asked[i] == asked[..n][i];
    }
    assert LookupTurns(asked) == turns[n := turns[n].(told := told)];
  }

  lemma LookupStepWalks(cfg: Config, l: Lookup, e: Event, expires: nat)
    requires cfg.Ok() && LookupWalks(cfg, l) && LookupStep(cfg, l, e, expires).Some? && LookupStep(cfg, l, e, expires).value.Looking?
    ensures LookupWalks(cfg, LookupStep(cfg, l, e, expires).value.lookup)
  {
    hide InTurn, RingAfter, RouteStep, NapStep, Current, Hint;
    match l.phase {
      case LookupHead =>
        var turns := LookupTurns(l.asked);
        RingNonempty(cfg, None, turns);
        var t := Turn(Current(l.ring), None);
        TurnTaken(cfg.seeds, None, turns, t);
        assert LookupTurns(LookupAsks(l).asked) == turns + [t];
      case LookupAsking =>
        LookupLastTold(cfg, l, LookupHears(l, e.act.receipt).asked);
      case LookupRefreshing(r) =>
        match RouteStep(cfg, r, e, expires) {
          case Some(Resolved(route)) => LookupLastTold(cfg, l, LookupReroutes(l, route).asked);
          case _ =>
        }
      case LookupPausing(_) =>
    }
  }

  lemma NewLookupWalks(cfg: Config, request: LookupRequest)
    ensures LookupWalks(cfg, NewLookup(cfg.seeds, request))
  {
    assert LookupTurns([]) == [];
  }

  lemma StepWalks(cfg: Config, s: State, e: Event)
    requires cfg.Ok() && Walks(cfg, s) && Step(cfg, s, e).Some?
    ensures Walks(cfg, Step(cfg, s, e).value)
  {
    hide StepRouting, StepHeadTime, StepConnecting, StepAwaiting, LookupStep, NapStep, InTurn, RingAfter, LookupWalks;
    var t := s.(now := e.at);
    match s.phase {
      case Routing(_, _) => RoutingWalks(cfg, t, e);
      case HeadTime => HeadTimeWalks(cfg, t, e);
      case Connecting(_) => ConnectingWalks(cfg, t, e);
      case Awaiting => AwaitingWalks(cfg, t, e);
      case Finishing(_) => NewLookupWalks(cfg, LookupFor(s.request));
      case LookingUp(_, l) =>
        if LookupStep(cfg, l, e, s.expires).value.Looking? {
          LookupStepWalks(cfg, l, e, s.expires);
        }
      case _ =>
    }
  }

  // Once the loop is entered, the leader it was entered with stays on record.
  lemma StepKeepsLead(cfg: Config, s: State, e: Event)
    requires Step(cfg, s, e).Some? && !Entering(s)
    ensures !Entering(Step(cfg, s, e).value) && Step(cfg, s, e).value.lead == s.lead
  {
    hide RouteStep, LookupStep, NapStep, Dispatch, Hint, Current, ConnectError;
    var t := s.(now := e.at);
    match s.phase {
      case Connecting(_) =>
        DispatchRing(cfg, t, Failure(Deadline));
        if e.act.ConnectFailed? {
          DispatchRing(cfg, t, Failure(e.act.error));
        }
      case Awaiting =>
        if e.act.Answered? && s.attempts != [] {
          DispatchRing(cfg, Last(t, true, Some(e.act.answer)), e.act.answer);
        }
      case _ =>
    }
  }

  lemma {:induction false} RunWalks(cfg: Config, batch: Batch, route: Option<Route>, s: State, events: seq<Event>)
    requires From(cfg, batch, route, s) && Run(cfg, s, events).Some?
    ensures Walks(cfg, Run(cfg, s, events).value)
    ensures route.Some? ==> var t := Run(cfg, s, events).value; !Entering(t) && t.lead == route.value.leader
  {
    hide Step, InTurn;
    if events != [] {
      var front := events[..|events| - 1];
      RunWalks(cfg, batch, route, s, front);
      StepWalks(cfg, Run(cfg, s, front).value, events[|events| - 1]);
      if route.Some? {
        StepKeepsLead(cfg, Run(cfg, s, front).value, events[|events| - 1]);
      }
    } else {
      assert AttemptTurns(s.attempts) == [];
      NothingInTurn(cfg.seeds, s.lead);
    }
  }

  /** In every run the attempts, and the lookups of an interrupted publish, take the endpoints in order:
      an attempt that was answered NotLeader with a leader, or whose stale route was refreshed to a route
      with a leader, is followed by one to that leader; a window of attempts told of no leader tries
      every endpoint of its list once; and the list loses no seed and repeats nothing. */
  lemma RunInTurn(cfg: Config, batch: Batch, route: Option<Route>, s: State, events: seq<Event>)
    requires From(cfg, batch, route, s) && Run(cfg, s, events).Some?
    ensures var t := Run(cfg, s, events).value;
      && (route.Some? ==> t.lead == route.value.leader)
      && Orderly(cfg.seeds, t.lead, AttemptTurns(t.attempts))
      && (t.phase.LookingUp? ==> Orderly(cfg.seeds, None, LookupTurns(t.phase.lookup.asked)))
    ensures var attempts := Run(cfg, s, events).value.attempts;
      forall i :: 0 < i < |attempts| ==>
        var leader := Told(attempts[i - 1].answer, attempts[i - 1].refreshed);
        leader.Some? ==> attempts[i].endpoint == leader.value
  {
    hide Run, InTurn, Told, ListOk, CoversFrom;
    RunWalks(cfg, batch, route, s, events);
    var t := Run(cfg, s, events).value;
    InTurnIsOrderly(cfg.seeds, t.lead, AttemptTurns(t.attempts));
    if t.phase.LookingUp? {
      InTurnIsOrderly(cfg.seeds, None, LookupTurns(t.phase.lookup.asked));
    }
    var turns := AttemptTurns(t.attempts);
    forall i | 0 < i < |t.attempts|
      ensures var leader := Told(t.attempts[i - 1].answer, t.attempts[i - 1].refreshed);
        leader.Some? ==> t.attempts[i].endpoint == leader.value
    {
      assert turns[i - 1].told.Some? ==> turns[i].endpoint == turns[i - 1].told.value;
    }
  }

  // ---- The attempt budget ------------------------------------------------------------------

  // A pause that ends before the deadline lasts the full 25 ms.
  ghost predicate NapOk(s: State, nap: Nap)
  {
    match nap
    case Due => true
    case Asleep(since) => s.start + PAUSE * s.pauses <= since < s.expires
    case Awake => s.start + PAUSE * (s.pauses + 1) <= s.now || s.expires <= s.now
  }

  predicate AtHead(s: State)
  {
    s.phase.Head? || s.phase.HeadTime?
  }

  /** Completed pauses are 25 ms each and end before the deadline; between two of them there are at most
      two tries, a publish attempt and the first try of a route refresh.  extra is the try with which
      publish_with resolves its first route. */
  ghost predicate InBudget(s: State, extra: nat)
  {
    && s.start + PAUSE * s.pauses <= s.now
    && s.start + PAUSE * s.pauses < s.expires
    && (Entering(s) ==> extra == 1 && s.attempts == [] && s.tries <= s.pauses + if s.phase.Arriving? then 0 else 1)
    && |s.attempts| <= s.pauses + (if Entering(s) || AtHead(s) then 0 else 1)
    && s.tries <= 2 * s.pauses + extra + (if Entering(s) || AtHead(s) then 0 else if s.phase.Connecting? || s.phase.Awaiting? then 1 else 2)
    && (s.phase.Resting? ==> NapOk(s, s.phase.nap))
    && (s.phase.Routing? && s.phase.route.phase.Pausing? ==> NapOk(s, s.phase.route.phase.nap))
  }

  lemma NapInBudget(s: State, nap: Nap, e: Event)
    requires s.start + PAUSE * s.pauses <= s.now == e.at && NapOk(s, nap)
    ensures match NapStep(nap, e, s.expires)
            case Some(Dozing(nap')) => NapOk(s, nap')
            case Some(Rested) => s.start + PAUSE * (s.pauses + 1) <= s.now < s.expires
            case _ => true
  {
  }

  // A pause under way stays in order as time passes.
  lemma NapWaits(s: State, nap: Nap, at: nat)
    requires NapOk(s, nap) && s.now <= at
    ensures NapOk(s.(now := at), nap)
  {
  }

  // An answer ends the run, the attempt, or the route's validity; only the last begins another try.
  lemma DispatchTries(cfg: Config, s: State, answer: Answer<Receipt>)
    requires s.phase.Connecting? || s.phase.Awaiting?
    ensures var t := Dispatch(cfg, s, answer);
      && t.pauses == s.pauses
      && (t.phase.Done? || t.phase.Finishing? || t.phase == Resting(Due) || t.phase == Routing(false, NewRouteState(cfg.seeds)))
      && t.tries == s.tries + if t.phase.Routing? then 1 else 0
  {
    hide Hint;
  }

  lemma DispatchInBudget(cfg: Config, s: State, answer: Answer<Receipt>, extra: nat)
    requires InBudget(s, extra) && (s.phase.Connecting? || s.phase.Awaiting?)
    ensures InBudget(Dispatch(cfg, s, answer), extra)
  {
    hide Dispatch;
    DispatchTries(cfg, s, answer);
  }

  lemma RoutedInBudget(s: State, r: RouteState, e: Event, extra: nat)
    requires InBudget(s, extra) && s.now == e.at && s.phase.Routing? && s.phase.route.phase.Pausing?
    requires var move := NapStep(s.phase.route.phase.nap, e, s.expires);
      move.Some? && RouteNap(s.phase.route, move.value) == Going(r)
    ensures InBudget(Routed(s, s.phase.first, s.phase.route, r), extra)
  {
    hide NapStep;
    NapInBudget(s, s.phase.route.phase.nap, e);
  }

  lemma RoutingInBudget(cfg: Config, s: State, e: Event, extra: nat)
    requires InBudget(s, extra) && s.now == e.at && s.phase.Routing? && StepRouting(cfg, s, s.phase.first, s.phase.route, e).Some?
    ensures InBudget(StepRouting(cfg, s, s.phase.first, s.phase.route, e).value, extra)
  {
    hide Hint, NapStep, RouteStep;
    match RouteStep(cfg, s.phase.route, e, s.expires) {
      case Some(Going(r)) =>
        RouteGoes(cfg, s.phase.route, e, s.expires);
        if s.phase.route.phase.Pausing? {
          hide InBudget, Routed;
          RoutedInBudget(s, r, e, extra);
        }
      case _ =>
    }
  }

  // A route resolution goes on into a pause, or by way of its pause.
  lemma RouteGoes(cfg: Config, r: RouteState, e: Event, expires: nat)
    requires RouteStep(cfg, r, e, expires).Some? && RouteStep(cfg, r, e, expires).value.Going?
    ensures r.phase.Asking? ==> RouteStep(cfg, r, e, expires).value.state.phase == Pausing(Due)
    ensures r.phase.Pausing? ==> var move := NapStep(r.phase.nap, e, expires);
      move.Some? && RouteStep(cfg, r, e, expires).value == RouteNap(r, move.value)
  {
    hide NapStep;
  }

  lemma ConnectingInBudget(cfg: Config, s: State, e: Event, extra: nat)
    requires InBudget(s, extra) && s.phase.Connecting? && StepConnecting(cfg, s, s.phase.stage, e).Some?
    ensures InBudget(StepConnecting(cfg, s, s.phase.stage, e).value, extra)
  {
    hide Dispatch, ConnectError;
    DispatchInBudget(cfg, s, Failure(Deadline), extra);
    if e.act.ConnectFailed? {
      DispatchInBudget(cfg, s, Failure(e.act.error), extra);
    }
  }

  lemma TimeInBudget(s: State, at: nat, extra: nat)
    requires InBudget(s, extra) && s.now <= at
    ensures InBudget(s.(now := at), extra)
  {
    hide NapOk;
    if s.phase.Resting? {
      NapWaits(s, s.phase.nap, at);
    } else if s.phase.Routing? && s.phase.route.phase.Pausing? {
      NapWaits(s, s.phase.route.phase.nap, at);
    }
  }

  lemma AwaitingInBudget(cfg: Config, s: State, e: Event, extra: nat)
    requires InBudget(s, extra) && s.phase.Awaiting? && StepAwaiting(cfg, s, e).Some?
    ensures InBudget(StepAwaiting(cfg, s, e).value, extra)
  {
    hide Dispatch;
    if e.act.Answered? {
      DispatchInBudget(cfg, Last(s, true, Some(e.act.answer)), e.act.answer, extra);
    }
  }

  lemma RestingInBudget(cfg: Config, s: State, e: Event, extra: nat)
    requires InBudget(s, extra) && s.now == e.at && s.phase.Resting? && StepResting(cfg, s, s.phase.nap, e).Some?
    ensures InBudget(StepResting(cfg, s, s.phase.nap, e).value, extra)
  {
    hide NapStep;
    NapInBudget(s, s.phase.nap, e);
  }

  lemma StepInBudget(cfg: Config, s: State, e: Event, extra: nat)
    requires InBudget(s, extra) && Step(cfg, s, e).Some?
    ensures InBudget(Step(cfg, s, e).value, extra)
  {
    hide StepRouting, StepConnecting, StepAwaiting, StepResting, LookupStep, Current, NapOk;
    var t := s.(now := e.at);
    TimeInBudget(s, e.at, extra);
    match s.phase {
      case Routing(_, _) => RoutingInBudget(cfg, t, e, extra);
      case Connecting(_) => ConnectingInBudget(cfg, t, e, extra);
      case Awaiting => AwaitingInBudget(cfg, t, e, extra);
      case Resting(nap) => RestingInBudget(cfg, t, e, extra);
      case _ =>
    }
  }

  lemma StepKeepsDeadline(cfg: Config, s: State, e: Event)
    requires Step(cfg, s, e).Some?
    ensures Step(cfg, s, e).value.start == s.start && Step(cfg, s, e).value.expires == s.expires
  {
    hide StepArriving, StepRouting, StepHead, StepHeadTime, StepConnecting, StepAwaiting, StepResting, StepFinishing, StepLookingUp;
  }

  lemma {:induction false} RunStaysInBudget(cfg: Config, batch: Batch, route: Option<Route>, s: State, events: seq<Event>)
    requires From(cfg, batch, route, s) && Run(cfg, s, events).Some?
    ensures InBudget(Run(cfg, s, events).value, if route.None? then 1 else 0)
    ensures Run(cfg, s, events).value.expires == s.expires && Run(cfg, s, events).value.start == s.start
  {
    hide Step;
    if events != [] {
      var front := events[..|events| - 1];
      RunStaysInBudget(cfg, batch, route, s, front);
      StepInBudget(cfg, Run(cfg, s, front).value, events[|events| - 1], if route.None? then 1 else 0);
      StepKeepsDeadline(cfg, Run(cfg, s, front).value, events[|events| - 1]);
    }
  }

  // ---- The budget in the log ---------------------------------------------------------------

  /** A receipt was asked for. */
  ghost predicate LookupBegun(events: seq<Event>)
  {
    exists i :: 0 <= i < |events| && events[i].act.ReceiptAnswered?
  }

  // A connection tried for a publish attempt, or a route asked for.
  predicate Contact(act: Act)
  {
    act.Connected? || act.ConnectFailed? || act.RouteAnswered?
  }

  /** How often the log shows a server contacted for an attempt or for a route, lookups excluded. */
  ghost function Contacts(events: seq<Event>): nat
  {
    if events == [] then 0
    else
      var front := events[..|events| - 1];
      Contacts(front) + if !LookupBegun(front) && Contact(events[|events| - 1].act) then 1 else 0
  }

  lemma ContactsGrow(events: seq<Event>, e: Event)
    ensures Contacts(events + [e]) == Contacts(events) + if !LookupBegun(events) && Contact(e.act) then 1 else 0
    ensures LookupBegun(events + [e]) <==> LookupBegun(events) || e.act.ReceiptAnswered?
  {
    var longer := events + [e];
    assert longer[..|events|] == events && longer[|events|] == e;
    if LookupBegun(events) {
      var i :| 0 <= i < |events| && events[i].act.ReceiptAnswered?;
      assert longer[i].act.ReceiptAnswered?;
    }
  }

  // A try that has not contacted its server yet.
  predicate Pending(s: State)
  {
    s.phase == Connecting(Dialing) || (s.phase.Routing? && s.phase.route.phase.Asking?)
  }

  predicate RefreshesInLookup(s: State) { s.phase.LookingUp? && s.phase.lookup.phase.LookupRefreshing? }

  /** Every contact in the log, and the one about to be made, is a try. */
  ghost predicate Counted(events: seq<Event>, s: State)
  {
    && Contacts(events) + (if Pending(s) then 1 else 0) <= s.tries
    && (RefreshesInLookup(s) ==> LookupBegun(events))
  }

  // What a step adds to the tries: at least what it contacts and what it leaves pending.
  ghost predicate Pays(s: State, e: Event, t: State)
  {
    && s.tries + (if Contact(e.act) then 1 else 0) + (if Pending(t) then 1 else 0) <= t.tries + (if Pending(s) then 1 else 0)
    && !RefreshesInLookup(t)
  }

  lemma NapContactsNobody(nap: Nap, e: Event, expires: nat)
    requires NapStep(nap, e, expires).Some?
    ensures !Contact(e.act) && !e.act.ReceiptAnswered?
  {
  }

  lemma RoutingPays(cfg: Config, s: State, e: Event)
    requires s.phase.Routing? && StepRouting(cfg, s, s.phase.first, s.phase.route, e).Some?
    ensures Pays(s, e, StepRouting(cfg, s, s.phase.first, s.phase.route, e).value)
  {
    hide NapStep, RouteAnswer, Hint;
    RouteContacts(cfg, s.phase.route, e, s.expires);
  }

  // A route is asked for only where it is awaited, and then the resolution pauses or ends.
  lemma RouteContacts(cfg: Config, r: RouteState, e: Event, expires: nat)
    requires RouteStep(cfg, r, e, expires).Some?
    ensures var move := RouteStep(cfg, r, e, expires).value;
      && (Contact(e.act) ==> r.phase.Asking?) && !e.act.ReceiptAnswered?
      && (move.Going? && r.phase.Asking? ==> move.state.phase.Pausing?)
  {
    hide NapStep;
    if r.phase.Pausing? {
      NapContactsNobody(r.phase.nap, e, expires);
    }
  }

  lemma DispatchPays(cfg: Config, s: State, answer: Answer<Receipt>)
    requires s.phase.Connecting? || s.phase.Awaiting?
    ensures var t := Dispatch(cfg, s, answer); s.tries + (if Pending(t) then 1 else 0) <= t.tries && !RefreshesInLookup(t)
  {
    hide Dispatch;
    DispatchTries(cfg, s, answer);
  }

  lemma ConnectingPays(cfg: Config, s: State, e: Event)
    requires s.phase.Connecting? && StepConnecting(cfg, s, s.phase.stage, e).Some?
    ensures Pays(s, e, StepConnecting(cfg, s, s.phase.stage, e).value)
  {
    hide Dispatch, ConnectError;
    DispatchPays(cfg, s, Failure(Deadline));
    if e.act.ConnectFailed? {
      DispatchPays(cfg, s, Failure(e.act.error));
    }
  }

  lemma AwaitingPays(cfg: Config, s: State, e: Event)
    requires s.phase.Awaiting? && StepAwaiting(cfg, s, e).Some?
    ensures Pays(s, e, StepAwaiting(cfg, s, e).value)
  {
    hide Dispatch;
    if e.act.Answered? {
      DispatchPays(cfg, Last(s, true, Some(e.act.answer)), e.act.answer);
    }
  }

  lemma StepPays(cfg: Config, s: State, e: Event)
    requires Step(cfg, s, e).Some? && !s.phase.LookingUp?
    ensures Pays(s, e, Step(cfg, s, e).value)
  {
    hide StepRouting, StepConnecting, StepAwaiting, NapStep, Current;
    var t := s.(now := e.at);
    match s.phase {
      case Routing(_, _) => RoutingPays(cfg, t, e);
      case Connecting(_) => ConnectingPays(cfg, t, e);
      case Awaiting => AwaitingPays(cfg, t, e);
      case Resting(nap) => NapContactsNobody(nap, e, s.expires);
      case _ =>
    }
  }

  // A lookup tries nothing; it asks for routes only after it has asked for a receipt.
  lemma LookingUpCounts(cfg: Config, s: State, e: Event)
    requires Step(cfg, s, e).Some? && s.phase.LookingUp?
    ensures var t := Step(cfg, s, e).value;
      && t.tries == s.tries && !Pending(t)
      && (Contact(e.act) ==> RefreshesInLookup(s)) && (RefreshesInLookup(t) ==> RefreshesInLookup(s) || e.act.ReceiptAnswered?)
  {
    hide RouteStep, NapStep, LookupHint, Current;
    match s.phase.lookup.phase {
      case LookupPausing(nap) => NapContactsNobody(nap, e, s.expires);
      case _ =>
    }
  }

  lemma StepCounts(cfg: Config, front: seq<Event>, s: State, e: Event)
    requires Counted(front, s) && Step(cfg, s, e).Some?
    ensures Counted(front + [e], Step(cfg, s, e).value)
  {
    hide Step, LookupBegun, Contacts, Contact, Pending, RefreshesInLookup;
    ContactsGrow(front, e);
    if s.phase.LookingUp? {
      LookingUpCounts(cfg, s, e);
      NotPending(s);
    } else {
      StepPays(cfg, s, e);
    }
  }

  lemma NotPending(s: State)
    requires s.phase.LookingUp?
    ensures !Pending(s)
  {
  }

  lemma {:induction false} RunCounts(cfg: Config, batch: Batch, route: Option<Route>, s: State, events: seq<Event>)
    requires From(cfg, batch, route, s) && Run(cfg, s, events).Some?
    ensures Counted(events, Run(cfg, s, events).value)
  {
    hide Step, Counted;
    if events == [] {
      CountsNothing(s);
    } else {
      var front, e := events[..|events| - 1], events[|events| - 1];
      RunCounts(cfg, batch, route, s, front);
      StepCounts(cfg, front, Run(cfg, s, front).value, e);
      assert front + [e] == events;
    }
  }

  lemma CountsNothing(s: State)
    requires !Pending(s) && !RefreshesInLookup(s)
    ensures Counted([], s)
  {
  }

  // publish_with makes one try more than its loop may: it resolves its first route.
  function FirstTries(route: Option<Route>): nat { if route.None? then 1 else 0 }

  /** With a deadline of d nanoseconds a run makes at most ceil(d / 25 ms) publish attempts, and its log
      shows servers contacted at most 2 * ceil(d / 25 ms) times for attempts and route refreshes together,
      receipt lookups excluded: the two loops share the one deadline, which never resets.  Resolving the
      first route costs one contact more. */
  lemma RunInBudget(cfg: Config, batch: Batch, route: Option<Route>, s: State, events: seq<Event>)
    requires From(cfg, batch, route, s) && Run(cfg, s, events).Some?
    ensures |Run(cfg, s, events).value.attempts| <= PausesIn(s.expires - s.start)
    ensures Contacts(events) <= Run(cfg, s, events).value.tries <= 2 * PausesIn(s.expires - s.start) + FirstTries(route)
  {
    hide Run, Contacts;
    RunStaysInBudget(cfg, batch, route, s, events);
    RunCounts(cfg, batch, route, s, events);
    var k := PausesIn(s.expires - s.start);
    var pauses := Run(cfg, s, events).value.pauses;
    assert PAUSE * pauses < PAUSE * k;
    assert pauses < k;
  }
}
