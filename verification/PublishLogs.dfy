/** What the log of a publish says by itself: the copies sent, in order, each with the answer that came
    back.  In a run they are the sent attempts, so what is proved of attempts is true of the log. */
module PublishLogs {
  import opened Options
  import opened Endpoints
  import opened Protocol
  import opened PublishMachine
  import opened PublishCertainty
  import opened PublishRuns

  /** One copy of a publish request on the wire. */
  datatype Delivery = Delivery(endpoint: Endpoint, request: WireRequest, answer: Option<Answer<Receipt>>)

  /** The copies in a log: an answer belongs to the copy sent last. */
  ghost function Deliveries(events: seq<Event>): seq<Delivery>
  {
    if events == [] then []
    else
      var ds := Deliveries(events[..|events| - 1]);
      match events[|events| - 1].act
      case Sent(endpoint, request) => ds + [Delivery(endpoint, request, None)]
      case Answered(answer) => if ds == [] then ds else ds[|ds| - 1 := ds[|ds| - 1].(answer := Some(answer))]
      case _ => ds
  }

  /** Some copy in the log was not refused. */
  ghost predicate LeftOpen(ds: seq<Delivery>)
  {
    exists i :: 0 <= i < |ds| && !(ds[i].answer.Some? && Refusal(ds[i].answer.value))
  }

  ghost function SentOf(attempts: seq<Attempt>): seq<Delivery>
  {
    if attempts == [] then []
    else
      var last := attempts[|attempts| - 1];
      SentOf(attempts[..|attempts| - 1]) + if last.sent then [Delivery(last.endpoint, last.request, last.answer)] else []
  }

  lemma {:induction false} OpenIsLeftOpen(attempts: seq<Attempt>)
    ensures Open(attempts) == LeftOpen(SentOf(attempts))
  {
    hide Refusal;
    if attempts != [] {
      var front, last := attempts[..|attempts| - 1], attempts[|attempts| - 1];
      OpenIsLeftOpen(front);
      OpenSplits(attempts);
      if last.sent {
        LeftOpenGrows(SentOf(front), Delivery(last.endpoint, last.request, last.answer));
      } else {
        assert SentOf(attempts) == SentOf(front);
      }
    }
  }

  lemma LeftOpenGrows(ds: seq<Delivery>, d: Delivery)
    ensures LeftOpen(ds + [d]) == (LeftOpen(ds) || !(d.answer.Some? && Refusal(d.answer.value)))
  {
    hide Refusal;
    var longer := ds + [d];
    assert longer[|ds|] == d;
    if LeftOpen(ds) {
      var i :| 0 <= i < |ds| && !(ds[i].answer.Some? && Refusal(ds[i].answer.value));
      assert longer[i] == ds[i];
    }
  }

  lemma {:induction false} SentOfAttempts(attempts: seq<Attempt>)
    ensures |SentOf(attempts)| <= |attempts|
  {
    if attempts != [] {
      SentOfAttempts(attempts[..|attempts| - 1]);
    }
  }

  /** How a step changes the attempts: a new one, its send, its answer, its new route, or nothing. */
  ghost predicate AttemptsChange(before: seq<Attempt>, after: seq<Attempt>, e: Event)
  {
    var n := |before|;
    match e.act
    case Sent(endpoint, request) =>
      && n > 0 && !before[n - 1].sent && before[n - 1].endpoint == endpoint && before[n - 1].request == request
      && after == before[n - 1 := before[n - 1].(sent := true, answer := None)]
    case Answered(a) => n > 0 && before[n - 1].sent && after == before[n - 1 := before[n - 1].(sent := true, answer := Some(a))]
    case Clock =>
      after == before || (|after| == n + 1 && after[..n] == before && !after[n].sent && after[n].answer == None)
    case RouteAnswered(_, Success(route)) =>
      after == before || (n > 0 && after == before[n - 1 := before[n - 1].(refreshed := Some(route))])
    case _ => after == before
  }

  // In an attempt under way the last attempt is known to carry the current request.
  ghost predicate Underway(s: State)
  {
    s.phase.Connecting? ==> s.attempts != [] && s.attempts[|s.attempts| - 1].request == s.request
  }

  lemma RoutingChanges(cfg: Config, s: State, e: Event)
    requires s.phase.Routing? && StepRouting(cfg, s, s.phase.first, s.phase.route, e).Some?
    ensures AttemptsChange(s.attempts, StepRouting(cfg, s, s.phase.first, s.phase.route, e).value.attempts, e)
    ensures Underway(StepRouting(cfg, s, s.phase.first, s.phase.route, e).value)
  {
    hide NapStep, Hint, RouteAnswer;
    if s.phase.route.phase.Pausing? {
      NapEvents(s.phase.route.phase.nap, e, s.expires);
    } else if e.act.RouteAnswered? {
      ResolvedBySuccess(cfg, s.phase.route, e.act.route);
    }
  }

  lemma ResolvedBySuccess(cfg: Config, r: RouteState, answer: Answer<Route>)
    ensures RouteAnswer(cfg, r, answer).Resolved? ==> answer == Success(RouteAnswer(cfg, r, answer).route)
  {
  }

  lemma NapEvents(nap: Nap, e: Event, expires: nat)
    requires NapStep(nap, e, expires).Some?
    ensures e.act.Cancel? || e.act.Clock? || e.act.Slept?
  {
  }

  lemma ConnectingChanges(cfg: Config, s: State, e: Event)
    requires s.phase.Connecting? && FlagExact(s) && Underway(s) && StepConnecting(cfg, s, s.phase.stage, e).Some?
    ensures AttemptsChange(s.attempts, StepConnecting(cfg, s, s.phase.stage, e).value.attempts, e)
    ensures Underway(StepConnecting(cfg, s, s.phase.stage, e).value)
  {
    hide ConnectError, Open, Hint;
  }

  lemma AwaitingChanges(cfg: Config, s: State, e: Event)
    requires s.phase.Awaiting? && FlagExact(s) && StepAwaiting(cfg, s, e).Some?
    ensures AttemptsChange(s.attempts, StepAwaiting(cfg, s, e).value.attempts, e)
    ensures Underway(StepAwaiting(cfg, s, e).value)
  {
    hide Open, Hint;
  }

  lemma StepAttempts(cfg: Config, s: State, e: Event)
    requires Step(cfg, s, e).Some? && FlagExact(s) && Underway(s)
    ensures AttemptsChange(s.attempts, Step(cfg, s, e).value.attempts, e) && Underway(Step(cfg, s, e).value)
  {
    hide StepRouting, StepConnecting, StepAwaiting, LookupStep, NapStep, Current, Open, FlagExact;
    var t := s.(now := e.at);
    TimeExact(s, e.at);
    match s.phase {
      case Routing(_, _) => RoutingChanges(cfg, t, e);
      case Connecting(_) => ConnectingChanges(cfg, t, e);
      case Awaiting => AwaitingChanges(cfg, t, e);
      case Resting(nap) => NapEvents(nap, e, s.expires);
      case LookingUp(_, _) => LookupEvents(cfg, s.phase.lookup, e, s.expires);
      case _ =>
    }
  }

  lemma TimeExact(s: State, at: nat)
    requires FlagExact(s)
    ensures FlagExact(s.(now := at))
  {
    hide Open;
  }

  lemma LookupEvents(cfg: Config, l: Lookup, e: Event, expires: nat)
    requires LookupStep(cfg, l, e, expires).Some?
    ensures !e.act.Sent? && !e.act.Answered?
  {
    hide Hint, Current;
  }

  lemma SentOfChanges(before: seq<Attempt>, after: seq<Attempt>, events: seq<Event>, e: Event)
    requires AttemptsChange(before, after, e) && Deliveries(events) == SentOf(before)
    ensures Deliveries(events + [e]) == SentOf(after)
  {
    assert (events + [e])[..|events|] == events;
    var n := |before|;
    if after != before {
      if |after| == n {
        assert after[..n - 1] == before[..n - 1];
      }
    }
  }

  /** The copies in the log of a run are its sent attempts. */
  lemma {:induction false} RunDeliveries(cfg: Config, batch: Batch, route: Option<Route>, s: State, events: seq<Event>)
    requires From(cfg, batch, route, s) && Run(cfg, s, events).Some?
    ensures Deliveries(events) == SentOf(Run(cfg, s, events).value.attempts) && Underway(Run(cfg, s, events).value)
  {
    hide Step, FlagExact, AttemptsChange, SentOf;
    if events == [] {
      assert s.attempts == [] && SentOf([]) == [] by { NothingSentYet(); }
    } else {
      var front, e := events[..|events| - 1], events[|events| - 1];
      RunDeliveries(cfg, batch, route, s, front);
      RunExact(cfg, batch, route, s.start, s.now, s.expires, front);
      var before := Run(cfg, s, front).value;
      StepAttempts(cfg, before, e);
      SentOfChanges(before.attempts, Step(cfg, before, e).value.attempts, front, e);
      assert front + [e] == events;
    }
  }

  lemma NothingSentYet()
    ensures SentOf([]) == []
  {
  }
}
