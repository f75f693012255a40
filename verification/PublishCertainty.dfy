/** In every run of the publish loop the certainty flag is exact: it is set when, and only when, some
    copy was sent and not refused. */
module PublishCertainty {
  import opened Options
  import opened Endpoints
  import opened Protocol
  import opened PublishMachine

  // ---- Certainty ---------------------------------------------------------------------------

  /** Some copy of the batch was sent and never refused. */
  ghost predicate Open(attempts: seq<Attempt>)
  {
    exists i :: 0 <= i < |attempts| && attempts[i].Unrefuted()
  }

  ghost predicate ErrorTruthful(batch: RequestId, attempts: seq<Attempt>, error: ClientError)
  {
    error.Interrupted? ==>
      && error.request == batch
      && error.outcome == if Open(attempts) then AmbiguousCommit else DefiniteNoCommit
  }

  ghost predicate FlagExact(s: State)
  {
    match s.phase
    case Done(Ok(_)) => true
    case Done(Err(error)) => ErrorTruthful(s.request.request, s.attempts, error)
    case Connecting(_) =>
      && s.attempts != [] && !s.attempts[|s.attempts| - 1].sent
      && s.before == s.mayHaveReached == Open(s.attempts[..|s.attempts| - 1])
    case Awaiting =>
      && s.attempts != [] && s.attempts[|s.attempts| - 1].Unrefuted() && s.mayHaveReached
      && s.before == Open(s.attempts[..|s.attempts| - 1])
    case Finishing(_) => s.mayHaveReached && Open(s.attempts)
    case LookingUp(_, _) => s.mayHaveReached && Open(s.attempts)
    case _ => s.mayHaveReached == Open(s.attempts)
  }

  lemma OpenGrows(attempts: seq<Attempt>, a: Attempt)
    ensures Open(attempts + [a]) == (Open(attempts) || a.Unrefuted())
  {
    var longer := attempts + [a];
    if Open(attempts) {
      var i :| 0 <= i < |attempts| && attempts[i].Unrefuted();
      assert longer[i].Unrefuted();
    } else if a.Unrefuted() {
      assert longer[|attempts|].Unrefuted();
    } else {
      forall i | 0 <= i < |longer|
        ensures !longer[i].Unrefuted()
      {
        if i < |attempts| {
          assert longer[i] == attempts[i];
        }
      }
    }
  }

  lemma OpenSplits(attempts: seq<Attempt>)
    requires attempts != []
    ensures Open(attempts) == (Open(attempts[..|attempts| - 1]) || attempts[|attempts| - 1].Unrefuted())
  {
    var front, last := attempts[..|attempts| - 1], attempts[|attempts| - 1];
    OpenGrows(front, last);
    assert front + [last] == attempts;
  }

  // The match on the result of publish_once: rolled back on a refusal and only then.
  lemma DispatchExact(cfg: Config, s: State, answer: Answer<Receipt>)
    requires s.attempts != []
    requires s.before == Open(s.attempts[..|s.attempts| - 1])
    requires var last := s.attempts[|s.attempts| - 1];
      if last.sent then s.mayHaveReached && last.answer == Some(answer) else s.mayHaveReached == s.before && !Refusal(answer)
    ensures FlagExact(Dispatch(cfg, s, answer))
  {
    hide Open, Hint;
    OpenSplits(s.attempts);
  }

  lemma RoutingExact(cfg: Config, s: State, e: Event)
    requires s.phase.Routing? && FlagExact(s) && StepRouting(cfg, s, s.phase.first, s.phase.route, e).Some?
    ensures FlagExact(StepRouting(cfg, s, s.phase.first, s.phase.route, e).value)
  {
    hide Open, RouteStep, Hint;
    if s.attempts != [] {
      OpenSplits(s.attempts);
      match RouteStep(cfg, s.phase.route, e, s.expires) {
        case Some(Resolved(route)) =>
          var t := Rerouted(s, route);
          OpenSplits(t.attempts);
          assert t.attempts[..|s.attempts| - 1] == s.attempts[..|s.attempts| - 1];
        case _ =>
      }
    }
  }

  lemma HeadTimeExact(cfg: Config, s: State, e: Event)
    requires s.phase.HeadTime? && FlagExact(s) && StepHeadTime(cfg, s, e).Some?
    ensures FlagExact(StepHeadTime(cfg, s, e).value)
  {
    hide Open, Current;
    if s.ring.list != [] {
      var a := Attempt(Current(s.ring), s.request, false, None, None);
      OpenGrows(s.attempts, a);
      assert (s.attempts + [a])[..|s.attempts|] == s.attempts;
    }
  }

  lemma ConnectingExact(cfg: Config, s: State, e: Event)
    requires s.phase.Connecting? && FlagExact(s) && StepConnecting(cfg, s, s.phase.stage, e).Some?
    ensures FlagExact(StepConnecting(cfg, s, s.phase.stage, e).value)
  {
    hide Open, Dispatch;
    OpenSplits(s.attempts);
    if s.phase.stage.Timing? {
      DispatchExact(cfg, s, Failure(Deadline));
    } else if e.act.ConnectFailed? {
      DispatchExact(cfg, s, Failure(e.act.error));
    } else if e.act.Sent? {
      assert Last(s, true, None).attempts[..|s.attempts| - 1] == s.attempts[..|s.attempts| - 1];
    }
  }

  lemma AwaitingExact(cfg: Config, s: State, e: Event)
    requires s.phase.Awaiting? && FlagExact(s) && StepAwaiting(cfg, s, e).Some?
    ensures FlagExact(StepAwaiting(cfg, s, e).value)
  {
    hide Open, Dispatch, Refusal;
    OpenSplits(s.attempts);
    if e.act.Answered? {
      var t := Last(s, true, Some(e.act.answer));
      assert t.attempts[..|s.attempts| - 1] == s.attempts[..|s.attempts| - 1];
      DispatchExact(cfg, t, e.act.answer);
    }
  }

  /** One step keeps the flag exact. */
  lemma StepExact(cfg: Config, s: State, e: Event)
    requires FlagExact(s) && Step(cfg, s, e).Some?
    ensures FlagExact(Step(cfg, s, e).value)
  {
    hide Open, StepRouting, StepHeadTime, StepConnecting, StepAwaiting, LookupStep, NapStep;
    var t := s.(now := e.at);
    match s.phase {
      case Routing(_, _) => RoutingExact(cfg, t, e);
      case HeadTime => HeadTimeExact(cfg, t, e);
      case Connecting(_) => ConnectingExact(cfg, t, e);
      case Awaiting => AwaitingExact(cfg, t, e);
      case _ =>
    }
  }

  /** In every run, at every point: the flag is set exactly when a copy was sent and not refused, so an
      interruption reports DefiniteNoCommit if and only if no sent copy is left unrefused. */
  lemma {:induction false} RunExact(cfg: Config, batch: Batch, route: Option<Route>, start: nat, now: nat, expires: nat, events: seq<Event>)
    requires Run(cfg, Initial(cfg, batch, route, start, now, expires), events).Some?
    ensures FlagExact(Run(cfg, Initial(cfg, batch, route, start, now, expires), events).value)
  {
    hide Step;
    if events != [] {
      var front := events[..|events| - 1];
      RunExact(cfg, batch, route, start, now, expires, front);
      StepExact(cfg, Run(cfg, Initial(cfg, batch, route, start, now, expires), front).value, events[|events| - 1]);
    }
  }
}
