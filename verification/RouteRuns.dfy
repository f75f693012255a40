/** How a route resolution ends and whom it asks, told by its log alone. */
module RouteRuns {
  import opened Options
  import opened Endpoints
  import opened Protocol

  // ---- How it ends -------------------------------------------------------------------------

  /** The last thing in a log that is neither a clock reading nor a pause. */
  ghost function LastWord(events: seq<Event>): Option<Act>
  {
    if events == [] then None
    else
      var act := events[|events| - 1].act;
      if act.Clock? || act.Slept? then LastWord(events[..|events| - 1]) else Some(act)
  }

  /** The last word was the failure of a route request, so a route is still being resolved. */
  ghost predicate RouteFailed(events: seq<Event>)
  {
    var word := LastWord(events);
    word.Some? && word.value.RouteAnswered? && word.value.route.Failure?
  }

  /** The error a failed route request ends the resolution with; None when another one follows. */
  function RouteError(cfg: Config, failure: AttemptError): Option<RpcError>
  {
    match failure
    case Deadline => Some(RequestFailed)
    case Client(error) =>
      if !cfg.retry then Some(error)
      else if error == Connection || error == RequestFailed || error == Domain(NotLeader(None)) then None
      else if error.Domain? && error.error.NotLeader? then Unusable(cfg, error.error.leader.value)
      else Some(error)
  }

  // The error of a leader that cannot be used.
  function Unusable(cfg: Config, leader: Endpoint): Option<RpcError>
  {
    if cfg.valid(leader) then None else Some(InvalidEndpoint(leader))
  }

  // The error a route answer ends a call or a lookup with, an unusable leader of the route included.
  function AnsweredRoute(cfg: Config, answer: Answer<Route>): Option<RpcError>
  {
    match answer
    case Success(route) => if route.leader.Some? then Unusable(cfg, route.leader.value) else None
    case Failure(failure) => RouteError(cfg, failure)
  }

  /** The last event ends the resolution with this error: a failure that is not asked about again, or a
      clock read at or past the deadline. */
  ghost predicate EndsUnresolved(cfg: Config, e: Event, expires: nat, error: RpcError)
  {
    match e.act
    case RouteAnswered(_, Failure(failure)) => RouteError(cfg, failure) == Some(error)
    case Clock => e.at >= expires && error == Domain(QuorumUnavailable(NotApplicable))
    case _ => false
  }

  lemma RouteStepEnds(cfg: Config, r: RouteState, e: Event, expires: nat)
    requires RouteStep(cfg, r, e, expires).Some?
    ensures var move := RouteStep(cfg, r, e, expires).value;
      && (forall route :: move == Resolved(route) <==> e.act.RouteAnswered? && e.act.route == Success(route))
      && (forall error :: move == Unresolved(error) <==> EndsUnresolved(cfg, e, expires, error))
      && (move == Abandoned <==> e.act == Cancel)
  {
    hide Hinted;
  }

  /** How a route resolution ends: resolved exactly by an answer with a route, unresolved exactly by one of
      those errors, abandoned exactly by a cancellation; anything else, and it goes on. */
  lemma RouteEndings(cfg: Config, r: RouteState, now: nat, events: seq<Event>, expires: nat)
    requires events != [] && RouteRun(cfg, r, now, events, expires).Some?
    ensures var move, e := RouteRun(cfg, r, now, events, expires).value, events[|events| - 1];
      && (forall route :: move == Resolved(route) <==> e.act.RouteAnswered? && e.act.route == Success(route))
      && (forall error :: move == Unresolved(error) <==> EndsUnresolved(cfg, e, expires, error))
      && (move == Abandoned <==> e.act == Cancel)
  {
    hide RouteStep, EndsUnresolved;
    var front, e := events[..|events| - 1], events[|events| - 1];
    RouteStepEnds(cfg, RouteRun(cfg, r, now, front, expires).value.state, e, expires);
  }

  // ---- Whom it asks ------------------------------------------------------------------------

  datatype Inquiry = Inquiry(endpoint: Endpoint, answer: Answer<Route>)

  ghost function Inquiries(events: seq<Event>): seq<Inquiry>
  {
    if events == [] then []
    else
      var front := Inquiries(events[..|events| - 1]);
      match events[|events| - 1].act
      case RouteAnswered(endpoint, answer) => front + [Inquiry(endpoint, answer)]
      case _ => front
  }

  /** The endpoints after the leaders that these answers named. */
  ghost function LedList(seeds: seq<Endpoint>, asked: seq<Inquiry>): seq<Endpoint>
  {
    if asked == [] then seeds
    else
      var list := LedList(seeds, asked[..|asked| - 1]);
      match LeaderOf(asked[|asked| - 1].answer) case None => list case Some(leader) => Hinted(list, leader)
  }

  /** Who comes next in the list after an endpoint, round and round. */
  ghost predicate NextIn(list: seq<Endpoint>, before: Endpoint, after: Endpoint)
  {
    exists k, j :: 0 <= k < |list| && 0 <= j < |list| && list[k] == before && list[j] == after
                   && j == if k + 1 == |list| then 0 else k + 1
  }

  /** Whom to ask after these inquiries: the first seed; the leader just named; the same server when it
      only knows that it is not the leader; after any other failure the next endpoint in the list. */
  ghost predicate AsksNext(seeds: seq<Endpoint>, asked: seq<Inquiry>, next: Endpoint)
  {
    if asked == [] then seeds != [] && next == seeds[0]
    else
      var last := asked[|asked| - 1];
      match last.answer
      case Failure(Client(Domain(NotLeader(Some(leader))))) => next == leader
      case Failure(Client(Domain(NotLeader(None)))) => next == last.endpoint
      case _ => NextIn(LedList(seeds, asked), last.endpoint, next)
  }

  ghost predicate AskedInTurn(seeds: seq<Endpoint>, asked: seq<Inquiry>)
  {
    forall i :: 0 <= i < |asked| ==> AsksNext(seeds, asked[..i], asked[i].endpoint)
  }

  // Where a resolution stands: the list its answers lead to, and the endpoint it asks next.
  ghost predicate RouteStands(cfg: Config, r: RouteState, asked: seq<Inquiry>)
  {
    && r.list == LedList(cfg.seeds, asked) && r.list != [] && r.index <= |asked|
    && AsksNext(cfg.seeds, asked, Current(Ring(r.list, r.index)))
  }

  lemma AnswerMoves(cfg: Config, r: RouteState, answer: Answer<Route>)
    requires r.index + 1 < USIZE && RouteAnswer(cfg, r, answer).Going?
    ensures var r' := RouteAnswer(cfg, r, answer).state;
      match answer
      case Failure(Client(Domain(NotLeader(Some(leader))))) => r'.list == Hinted(r.list, leader) && r'.index == 0
      case Failure(Client(Domain(NotLeader(None)))) => r'.list == r.list && r'.index == r.index
      case _ => r'.list == r.list && r'.index == r.index + 1 && LeaderOf(answer) == None
  {
    hide Hinted;
  }

  lemma AnswerStands(cfg: Config, r: RouteState, asked: seq<Inquiry>, answer: Answer<Route>)
    requires RouteStands(cfg, r, asked) && |asked| + 1 < USIZE && RouteAnswer(cfg, r, answer).Going?
    ensures RouteStands(cfg, RouteAnswer(cfg, r, answer).state, asked + [Inquiry(Current(Ring(r.list, r.index)), answer)])
  {
    hide Hinted, NextIn, RouteAnswer, Current;
    AnswerMoves(cfg, r, answer);
    var endpoint := Current(Ring(r.list, r.index));
    var longer := asked + [Inquiry(endpoint, answer)];
    assert longer[..|asked|] == asked;
    NextAround(r.list, r.index);
    match answer {
      case Failure(Client(Domain(NotLeader(Some(leader))))) => HintFirst(r.list, leader);
      case _ =>
    }
  }

  lemma NextAround(list: seq<Endpoint>, index: nat)
    requires list != []
    ensures NextIn(list, Current(Ring(list, index)), Current(Ring(list, index + 1)))
  {
    var n := |list|;
    if n > 1 {
      ModAdd(index, 1, n);
    }
    var k, j := index % n, (index + 1) % n;
    assert list[k] == list[index % n] && list[j] == list[(index + 1) % n];
  }

  lemma HintFirst(list: seq<Endpoint>, leader: Endpoint)
    ensures Hinted(list, leader) != [] && Current(Ring(Hinted(list, leader), 0)) == leader
  {
  }

  lemma StepStands(cfg: Config, r: RouteState, asked: seq<Inquiry>, e: Event, expires: nat)
    requires RouteStands(cfg, r, asked) && |asked| + 1 < USIZE && RouteStep(cfg, r, e, expires).Some?
    ensures e.act.RouteAnswered? ==> AsksNext(cfg.seeds, asked, e.act.endpoint)
    ensures var move := RouteStep(cfg, r, e, expires).value;
      move.Going? ==> RouteStands(cfg, move.state, if e.act.RouteAnswered? then asked + [Inquiry(e.act.endpoint, e.act.route)] else asked)
  {
    hide RouteAnswer, AsksNext, LedList;
    if e.act.RouteAnswered? && r.phase.Asking? && RouteAnswer(cfg, r, e.act.route).Going? {
      AnswerStands(cfg, r, asked, e.act.route);
    }
  }

  /** A route resolution asks the endpoints in turn. */
  lemma {:induction false} RouteInTurn(cfg: Config, now: nat, events: seq<Event>, expires: nat)
    requires cfg.seeds != [] && |events| < USIZE && RouteRun(cfg, NewRouteState(cfg.seeds), now, events, expires).Some?
    ensures |Inquiries(events)| <= |events| && AskedInTurn(cfg.seeds, Inquiries(events))
    ensures var move := RouteRun(cfg, NewRouteState(cfg.seeds), now, events, expires).value;
      move.Going? ==> RouteStands(cfg, move.state, Inquiries(events))
  {
    hide RouteStep, AsksNext, RouteStands;
    if events == [] {
      FirstStands(cfg);
    } else {
      var front, e := events[..|events| - 1], events[|events| - 1];
      RouteInTurn(cfg, now, front, expires);
      StepStands(cfg, RouteRun(cfg, NewRouteState(cfg.seeds), now, front, expires).value.state, Inquiries(front), e, expires);
      var before, after := Inquiries(front), Inquiries(events);
      forall i | 0 <= i < |after|
        ensures AsksNext(cfg.seeds, after[..i], after[i].endpoint)
      {
        assert after[..i] == before[..i];
        assert i < |before| ==> after[i] == before[i];
        assert before[..|before|] == before;
      }
    }
  }

  lemma FirstStands(cfg: Config)
    requires cfg.seeds != []
    ensures RouteStands(cfg, NewRouteState(cfg.seeds), [])
  {
  }
}
