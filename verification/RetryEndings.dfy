/** When a retry loop is over and with what, the order of its events, and all that the log of a whole call
    shows, told by the log alone. */
module RetryEndings {
  import opened Options
  import opened Endpoints
  import opened Protocol
  import opened RouteRuns
  import opened RetryMachine
  import opened RetryRuns

  // ---- What ends a call --------------------------------------------------------------------

  datatype Cause = Succeeded | Late | Fault(error: RpcError)

  /** The error a failed attempt ends the call with; None when another attempt follows. */
  function EndsAttempts(loop: Loop, cfg: Config, error: RpcError): Option<Cause>
  {
    if !cfg.retry then Some(Fault(error))
    else match error
      case Connection => None
      case RequestFailed => None
      case Domain(QuorumUnavailable(_)) => None
      case Domain(StaleRoute) => if loop.Export? then Some(Fault(error)) else None
      case Domain(NotLeader(leader)) => if leader.Some? then Faults(Unusable(cfg, leader.value)) else None
      case _ => Some(Fault(error))
  }

  function Faults(error: Option<RpcError>): Option<Cause>
  {
    match error case None => None case Some(e) => Some(Fault(e))
  }

  /** What ends the call, if this act does: a success, an attempt that ran into the deadline, or a failure
      that is not retried, the leader that an answer names being unusable included. */
  function Ends(loop: Loop, cfg: Config, act: Act): Option<Cause>
  {
    match act
    case CallAnswered(Success(_)) => Some(Succeeded)
    case CallAnswered(Failure(Deadline)) => Some(Late)
    case ConnectFailed(_, Deadline) => Some(Late)
    case CallAnswered(Failure(Client(error))) => EndsAttempts(loop, cfg, error)
    case ConnectFailed(_, Client(error)) => EndsAttempts(loop, cfg, error)
    case RouteAnswered(_, answer) => Faults(AnsweredRoute(cfg, answer))
    case _ => None
  }

  /** What a last clock reading ends the call with, after this last word: the deadline of a route resolution,
      the unusable leader it found, or the deadline of the loop. */
  function LateAfter(cfg: Config, word: Option<Act>): Cause
  {
    match word
    case Some(RouteAnswered(_, Failure(_))) => Fault(Domain(QuorumUnavailable(NotApplicable)))
    case Some(RouteAnswered(_, Success(route))) =>
      if route.leader.Some? && !cfg.valid(route.leader.value) then Fault(InvalidEndpoint(route.leader.value)) else Late
    case _ => Late
  }

  predicate Fits(report: Report, cause: Cause)
  {
    match cause
    case Succeeded => report == Applied
    case Late => report.TimedOut?
    case Fault(error) => report == PassedThrough(error)
  }

  /** The last event ends the call with this report: by itself, or as a clock reading. */
  ghost predicate Concludes(loop: Loop, cfg: Config, expires: nat, log: seq<Event>, report: Report)
  {
    log != [] && var e := log[|log| - 1];
    if e.act.Clock? then
      var cause := LateAfter(cfg, LastWord(log[..|log| - 1]));
      Fits(report, cause) && (cause.Late? ==> e.at >= expires)
    else
      var cause := Ends(loop, cfg, e.act);
      cause.Some? && Fits(report, cause.value)
  }

  /** And nothing before it would have ended the call, except that one more clock may be read after the
      answer that did. */
  ghost predicate Goes(loop: Loop, cfg: Config, log: seq<Event>, report: Report)
  {
    forall i :: 0 <= i < |log| - 1 ==> GoesOn(loop, cfg, log, report, i)
  }

  ghost predicate GoesOn(loop: Loop, cfg: Config, log: seq<Event>, report: Report, i: nat)
    requires i + 1 < |log|
  {
    var cause := Ends(loop, cfg, log[i].act);
    cause == None || (i == |log| - 2 && log[i + 1].act.Clock? && Fits(report, cause.value))
  }

  // ---- A run and its end -------------------------------------------------------------------

  // Whether the next clock reading belongs to the pause of a route resolution.
  predicate WordKnown(cfg: Config, phase: RetryPhase, word: Option<Act>)
  {
    match phase
    case Refreshing(_, r) => r.phase.Pausing? ==> word.Some? && word.value.RouteAnswered? && word.value.route.Failure?
    case Done(_) => true
    case _ => LateAfter(cfg, word) == Late
  }

  function WordAfter(word: Option<Act>, act: Act): Option<Act>
  {
    if act.Clock? || act.Slept? then word else Some(act)
  }

  // What one step makes of the report.
  predicate EndsRight(loop: Loop, cfg: Config, s: RetryState, word: Option<Act>, e: Event, t: RetryState)
  {
    && WordKnown(cfg, t.phase, WordAfter(word, e.act))
    && match t.phase
       case Done(report) =>
         if e.act.Clock? then Fits(report, LateAfter(cfg, word)) && (LateAfter(cfg, word).Late? ==> e.at >= s.expires)
         else Ends(loop, cfg, e.act).Some? && Fits(report, Ends(loop, cfg, e.act).value)
       case _ => Ends(loop, cfg, e.act) == None
  }

  // A failed attempt: over, or on to the pause or the route refresh.
  lemma FailureEnds(loop: Loop, cfg: Config, s: RetryState, error: RpcError)
    ensures var t := RetryDispatch(loop, cfg, s, Failure(Client(error)));
      match EndsAttempts(loop, cfg, error)
      case None => t.phase == Resting(Due) || t.phase == Opening || t.phase == Refreshing(s.expires, NewRouteState(cfg.seeds))
      case Some(cause) => t.phase.Done? && Fits(t.phase.report, cause)
  {
    hide Hint;
  }

  lemma DispatchEnds(loop: Loop, cfg: Config, s: RetryState, reply: Answer<()>, word: Option<Act>, e: Event)
    requires e.act == CallAnswered(reply) || (reply.Failure? && exists endpoint :: e.act == ConnectFailed(endpoint, reply.error))
    ensures EndsRight(loop, cfg, s, word, e, RetryDispatch(loop, cfg, s, reply))
  {
    AttemptSpoken(cfg, e.act);
    if reply.Failure? && reply.error.Client? {
      hide Hint, LateAfter, RetryDispatch, EndsAttempts, Fits;
      FailureEnds(loop, cfg, s, reply.error.error);
    } else {
      hide Hint, LateAfter;
    }
  }

  lemma AttemptSpoken(cfg: Config, act: Act)
    requires act.CallAnswered? || act.ConnectFailed?
    ensures LateAfter(cfg, Some(act)) == Late
  {
  }

  lemma DialingEnds(loop: Loop, cfg: Config, s: RetryState, word: Option<Act>, e: Event)
    requires s.phase.Dialing? && StepDialing(loop, cfg, s, e).Some?
    ensures EndsRight(loop, cfg, s, word, e, StepDialing(loop, cfg, s, e).value)
  {
    hide RetryDispatch, Current, ConnectError;
    if e.act.ConnectFailed? {
      hide EndsRight;
      DispatchEnds(loop, cfg, Dialed(s), Failure(e.act.error), word, e);
      DialedEnds(loop, cfg, s, word, e, RetryDispatch(loop, cfg, Dialed(s), Failure(e.act.error)));
    }
  }

  lemma DialedEnds(loop: Loop, cfg: Config, s: RetryState, word: Option<Act>, e: Event, t: RetryState)
    requires EndsRight(loop, cfg, Dialed(s), word, e, t)
    ensures EndsRight(loop, cfg, s, word, e, t)
  {
  }

  lemma CallEnds(loop: Loop, cfg: Config, s: RetryState, word: Option<Act>, e: Event)
    requires (s.phase.Timing? || s.phase.Sending? || s.phase.Awaiting?) && StepCall(loop, cfg, s, e).Some? && WordKnown(cfg, s.phase, word)
    ensures EndsRight(loop, cfg, s, word, e, StepCall(loop, cfg, s, e).value)
  {
    hide RetryDispatch;
    if s.phase.Awaiting? {
      DispatchEnds(loop, cfg, s, e.act.reply, word, e);
    } else {
      TimeoutEnds(loop, cfg, s);
    }
  }

  lemma TimeoutEnds(loop: Loop, cfg: Config, s: RetryState)
    ensures RetryDispatch(loop, cfg, s, Failure(Deadline)).phase == Done(TimedOut(loop.Reports(s.flag)))
  {
  }

  // What a step of a route resolution says of its event.
  lemma RouteStepSays(cfg: Config, r: RouteState, e: Event, until: nat)
    requires RouteStep(cfg, r, e, until).Some?
    ensures match RouteStep(cfg, r, e, until).value
            case Going(r') =>
              && (if r.phase.Asking? then e.act.RouteAnswered? && r'.phase.Pausing? else e.act.Clock? || e.act.Slept?)
              && (e.act.RouteAnswered? ==> e.act.route.Failure? && RouteError(cfg, e.act.route.error) == None)
            case Resolved(route) => e.act.RouteAnswered? && e.act.route == Success(route)
            case Unresolved(error) =>
              if r.phase.Asking? then e.act.RouteAnswered? && e.act.route.Failure? && RouteError(cfg, e.act.route.error) == Some(error)
              else e.act.Clock? && error == Domain(QuorumUnavailable(NotApplicable))
            case Abandoned => e.act.Cancel?
  {
    hide Hinted;
  }

  lemma RefreshingEnds(loop: Loop, cfg: Config, s: RetryState, word: Option<Act>, e: Event)
    requires s.phase.Refreshing? && WordKnown(cfg, s.phase, word) && RouteStep(cfg, s.phase.route, e, s.phase.until).Some?
    requires Refreshed(cfg, s, s.phase.until, RouteStep(cfg, s.phase.route, e, s.phase.until).value).Some?
    ensures EndsRight(loop, cfg, s, word, e, Refreshed(cfg, s, s.phase.until, RouteStep(cfg, s.phase.route, e, s.phase.until).value).value)
  {
    hide RouteStep, Hint, RouteError;
    RouteStepSays(cfg, s.phase.route, e, s.phase.until);
  }

  lemma RestingEnds(loop: Loop, cfg: Config, s: RetryState, word: Option<Act>, e: Event)
    requires s.phase.Resting? && WordKnown(cfg, s.phase, word) && NapStep(s.phase.nap, e, s.expires).Some?
    requires RetryNapped(loop, s, NapStep(s.phase.nap, e, s.expires).value).Some?
    ensures EndsRight(loop, cfg, s, word, e, RetryNapped(loop, s, NapStep(s.phase.nap, e, s.expires).value).value)
  {
  }

  lemma StepEnds(loop: Loop, cfg: Config, s: RetryState, word: Option<Act>, e: Event)
    requires WordKnown(cfg, s.phase, word) && RetryStep(loop, cfg, s, e).Some?
    ensures EndsRight(loop, cfg, s, word, e, RetryStep(loop, cfg, s, e).value)
  {
    hide StepDialing, StepCall, RouteStep, NapStep, Refreshed, RetryNapped;
    var t := s.(now := e.at);
    match s.phase {
      case Dialing => DialingEnds(loop, cfg, t, word, e);
      case Refreshing(_, _) => RefreshingEnds(loop, cfg, t, word, e);
      case Resting(_) => RestingEnds(loop, cfg, t, word, e);
      case Top =>
      case Opening =>
      case Done(_) =>
      case _ => CallEnds(loop, cfg, t, word, e);
    }
  }

  /** A run is over exactly when its last event ends the call, and with that report. */
  lemma {:induction false} RunConcludes(loop: Loop, cfg: Config, call: Call, lead: Option<Endpoint>, s: RetryState, events: seq<Event>)
    requires Starts(loop, cfg, call, lead, s) && events != [] && RetryRun(loop, cfg, s, events).Some?
    ensures var t := RetryRun(loop, cfg, s, events).value;
      && WordKnown(cfg, t.phase, LastWord(events))
      && (t.phase.Done? ==> Concludes(loop, cfg, s.expires, events, t.phase.report))
      && forall i :: 0 <= i < |events| - (if t.phase.Done? then 1 else 0) ==> Ends(loop, cfg, events[i].act) == None
  {
    hide RetryStep, Ends, LateAfter, Fits, WordKnown;
    var front, e := events[..|events| - 1], events[|events| - 1];
    var before := RetryRun(loop, cfg, s, front).value;
    RetryGoesOn(loop, cfg, before, e);
    if front == [] {
      BeginsKnown(loop, cfg, call, lead, s);
    } else {
      RunConcludes(loop, cfg, call, lead, s, front);
    }
    RunSpends(loop, cfg, call, lead, s, front);
    StepEnds(loop, cfg, before, LastWord(front), e);
    forall i | 0 <= i < |front|
      ensures Ends(loop, cfg, events[i].act) == None
    {
      assert events[i] == front[i];
    }
  }

  lemma BeginsKnown(loop: Loop, cfg: Config, call: Call, lead: Option<Endpoint>, s: RetryState)
    requires Starts(loop, cfg, call, lead, s)
    ensures WordKnown(cfg, s.phase, None)
  {
    hide Hint;
  }

  // ---- The order of events -----------------------------------------------------------------

  /** An event after these two: a copy goes out over the connection just made, in time; an answer follows its
      copy; retention and replay read the clock before they connect; and a pause lasts at most 25 ms and
      comes after a clock reading. */
  predicate Proper(loop: Loop, expires: nat, prev: Option<Event>, last: Option<Event>, e: Event)
  {
    match e.act
    case Connected(_) => loop in {Retention, Replay} ==> InTime(last, expires)
    case ConnectFailed(_, _) => loop in {Retention, Replay} ==> InTime(last, expires)
    case CallSent(endpoint, _) => InTime(last, expires) && prev.Some? && prev.value.act == Connected(endpoint)
    case CallAnswered(_) => last.Some? && last.value.act.CallSent?
    case Slept(duration) => duration <= 25_000_000 && last.Some? && last.value.act.Clock? && e.at >= last.value.at + duration
    case _ => true
  }

  ghost predicate InOrder(loop: Loop, expires: nat, events: seq<Event>)
  {
    forall i :: 0 <= i < |events| ==> Proper(loop, expires, Back(events[..i], 1), Back(events[..i], 0), events[i])
  }

  predicate NapTail(nap: Nap, last: Option<Event>)
  {
    nap.Asleep? ==> last.Some? && last.value.act.Clock? && last.value.at == nap.since
  }

  predicate RouteTail(r: RouteState, last: Option<Event>) { r.phase.Pausing? ==> NapTail(r.phase.nap, last) }

  predicate Tail(loop: Loop, s: RetryState, prev: Option<Event>, last: Option<Event>)
  {
    match s.phase
    case Dialing => loop in {Retention, Replay} ==> InTime(last, s.expires)
    case Timing(endpoint) => last.Some? && last.value.act == Connected(endpoint)
    case Sending(endpoint) => InTime(last, s.expires) && prev.Some? && prev.value.act == Connected(endpoint)
    case Awaiting => last.Some? && last.value.act.CallSent?
    case Refreshing(_, r) => RouteTail(r, last)
    case Resting(nap) => NapTail(nap, last)
    case _ => true
  }

  lemma NapProper(loop: Loop, expires: nat, nap: Nap, e: Event, until: nat, prev: Option<Event>, last: Option<Event>)
    requires NapTail(nap, last) && NapStep(nap, e, until).Some?
    ensures Proper(loop, expires, prev, last, e)
    ensures NapStep(nap, e, until).value.Dozing? ==> NapTail(NapStep(nap, e, until).value.nap, Some(e))
  {
  }

  lemma RouteProper(loop: Loop, cfg: Config, expires: nat, r: RouteState, e: Event, until: nat, prev: Option<Event>, last: Option<Event>)
    requires RouteTail(r, last) && RouteStep(cfg, r, e, until).Some?
    ensures Proper(loop, expires, prev, last, e)
    ensures RouteStep(cfg, r, e, until).value.Going? ==> RouteTail(RouteStep(cfg, r, e, until).value.state, Some(e))
  {
    hide NapStep, Hinted;
    match r.phase {
      case Pausing(nap) => NapProper(loop, expires, nap, e, until, prev, last);
      case Asking =>
    }
  }

  lemma DispatchTail(loop: Loop, cfg: Config, s: RetryState, reply: Answer<()>, prev: Option<Event>, last: Option<Event>)
    ensures Tail(loop, RetryDispatch(loop, cfg, s, reply), prev, last)
  {
    hide Hint;
  }

  lemma StepProper(loop: Loop, cfg: Config, s: RetryState, e: Event, prev: Option<Event>, last: Option<Event>)
    requires Tail(loop, s, prev, last) && RetryStep(loop, cfg, s, e).Some?
    ensures Proper(loop, s.expires, prev, last, e) && Tail(loop, RetryStep(loop, cfg, s, e).value, last, Some(e))
    ensures RetryStep(loop, cfg, s, e).value.expires == s.expires
  {
    hide RouteStep, NapStep, RetryDispatch, Hint, Current, ConnectError, NapTail;
    var t := s.(now := e.at);
    CallPhases(loop, cfg, s, e);
    match s.phase {
      case Dialing =>
        if e.act.ConnectFailed? {
          DispatchTail(loop, cfg, Dialed(t), Failure(e.act.error), last, Some(e));
        }
      case Timing(_) => DispatchTail(loop, cfg, t, Failure(Deadline), last, Some(e));
      case Awaiting => DispatchTail(loop, cfg, t, e.act.reply, last, Some(e));
      case Refreshing(until, r) =>
        RouteProper(loop, cfg, s.expires, r, e, until, prev, last);
        DueTail(Some(e));
      case Resting(nap) => NapProper(loop, s.expires, nap, e, s.expires, prev, last);
      case _ =>
    }
  }

  lemma DueTail(last: Option<Event>)
    ensures NapTail(Due, last)
  {
  }

  lemma {:induction false} RunInOrder(loop: Loop, cfg: Config, call: Call, lead: Option<Endpoint>, s: RetryState, events: seq<Event>)
    requires Starts(loop, cfg, call, lead, s) && RetryRun(loop, cfg, s, events).Some?
    ensures InOrder(loop, s.expires, events)
    ensures var t := RetryRun(loop, cfg, s, events).value;
      Tail(loop, t, Back(events, 1), Back(events, 0)) && t.expires == s.expires
  {
    hide RetryStep, Tail, Proper, InOrder, RetryInitial;
    if events == [] {
      NothingBefore(loop, cfg, call, lead, s);
      NothingInOrder(loop, s.expires);
    } else {
      var front, e := events[..|events| - 1], events[|events| - 1];
      RunInOrder(loop, cfg, call, lead, s, front);
      StepProper(loop, cfg, RetryRun(loop, cfg, s, front).value, e, Back(front, 1), Back(front, 0));
      OneMoreInOrder(loop, s.expires, front, e);
      assert front + [e] == events;
    }
  }

  lemma NothingInOrder(loop: Loop, expires: nat)
    ensures InOrder(loop, expires, [])
  {
  }

  lemma OneMoreInOrder(loop: Loop, expires: nat, front: seq<Event>, e: Event)
    requires InOrder(loop, expires, front) && Proper(loop, expires, Back(front, 1), Back(front, 0), e)
    ensures InOrder(loop, expires, front + [e])
  {
    hide Proper;
    var events := front + [e];
    forall i | 0 <= i < |events|
      ensures Proper(loop, expires, Back(events[..i], 1), Back(events[..i], 0), events[i])
    {
      assert events[..i] == front[..i];
      assert front[..|front|] == front;
    }
  }

  lemma NothingBefore(loop: Loop, cfg: Config, call: Call, lead: Option<Endpoint>, s: RetryState)
    requires Starts(loop, cfg, call, lead, s)
    ensures Tail(loop, s, None, None)
  {
    hide Hint;
  }

  // ---- The deadline of a route refresh -----------------------------------------------------

  predicate StaleAnswer(e: Option<Event>)
  {
    e.Some? && e.value.act == CallAnswered(Failure(Client(Domain(StaleRoute))))
  }

  /** The deadline a refresh after the last stale answer has: that of the loop for a checkpoint, and one
      counted from the clock reading that follows the answer for the others. */
  ghost function RefreshDeadline(loop: Loop, cfg: Config, expires: nat, events: seq<Event>): nat
  {
    if loop.Checkpoint? || events == [] then expires
    else if StaleAnswer(Back(events, 1)) && events[|events| - 1].act.Clock? then events[|events| - 1].at + cfg.deadline
    else RefreshDeadline(loop, cfg, expires, events[..|events| - 1])
  }

  lemma StepRefreshes(loop: Loop, cfg: Config, s: RetryState, e: Event)
    requires RetryStep(loop, cfg, s, e).Some?
    ensures var t := RetryStep(loop, cfg, s, e).value;
      && (t.phase.Opening? ==> StaleAnswer(Some(e)) && !loop.Checkpoint?)
      && (t.phase.Refreshing? ==>
            if s.phase.Opening? then e.act.Clock? && t.phase.until == e.at + cfg.deadline
            else if s.phase.Refreshing? then t.phase.until == s.phase.until
            else loop.Checkpoint? && t.phase.until == s.expires)
      && (s.phase.Refreshing? ==> !e.act.CallAnswered?)
  {
    hide RouteStep, NapStep, RetryDispatch, Hint, Current;
    var t := s.(now := e.at);
    DispatchRefreshes(loop, cfg, t, Failure(Deadline));
    match s.phase {
      case Dialing =>
        if e.act.ConnectFailed? {
          DispatchRefreshes(loop, cfg, Dialed(t), Failure(e.act.error));
        }
      case Awaiting =>
        if e.act.CallAnswered? {
          DispatchRefreshes(loop, cfg, t, e.act.reply);
        }
      case Refreshing(until, r) => RouteActs(cfg, r, e, until);
      case _ =>
    }
  }

  lemma DispatchRefreshes(loop: Loop, cfg: Config, s: RetryState, reply: Answer<()>)
    ensures var t := RetryDispatch(loop, cfg, s, reply);
      && (t.phase.Opening? || t.phase.Refreshing? ==> reply == Failure(Client(Domain(StaleRoute))))
      && (t.phase.Opening? ==> !loop.Checkpoint?) && (t.phase.Refreshing? ==> loop.Checkpoint? && t.phase.until == s.expires)
  {
    hide Hint;
  }

  /** Every refresh in a run goes by that deadline. */
  lemma {:induction false} RunRefreshes(loop: Loop, cfg: Config, call: Call, lead: Option<Endpoint>, s: RetryState, events: seq<Event>)
    requires Starts(loop, cfg, call, lead, s) && RetryRun(loop, cfg, s, events).Some?
    ensures var t := RetryRun(loop, cfg, s, events).value;
      && t.expires == s.expires
      && (t.phase.Refreshing? ==> t.phase.until == RefreshDeadline(loop, cfg, s.expires, events))
      && (t.phase.Opening? ==> StaleAnswer(Back(events, 0)) && !loop.Checkpoint?)
      && (t.phase.Refreshing? ==> !StaleAnswer(Back(events, 0)) || loop.Checkpoint?)
  {
    hide RetryStep;
    if events == [] {
      hide Hint;
    } else {
      var front, e := events[..|events| - 1], events[|events| - 1];
      RunRefreshes(loop, cfg, call, lead, s, front);
      RunSpends(loop, cfg, call, lead, s, events);
      StepRefreshes(loop, cfg, RetryRun(loop, cfg, s, front).value, e);
      assert Back(events, 1) == Back(front, 0) && Back(events, 0) == Some(e);
    }
  }

  // ---- Before the loop ---------------------------------------------------------------------

  /** Events that tell of no attempt. */
  ghost predicate Preliminary(events: seq<Event>)
  {
    forall i :: 0 <= i < |events| ==> events[i].act.Clock? || events[i].act.Slept? || events[i].act.RouteAnswered?
  }

  lemma {:induction false} RouteInOrder(loop: Loop, cfg: Config, r: RouteState, now: nat, events: seq<Event>, until: nat, expires: nat)
    requires r.phase.Asking? && RouteRun(cfg, r, now, events, until).Some?
    ensures InOrder(loop, expires, events)
    ensures var move := RouteRun(cfg, r, now, events, until).value; move.Going? ==> RouteTail(move.state, Back(events, 0))
  {
    hide RouteStep, Proper, InOrder, RouteTail;
    if events == [] {
      NothingInOrder(loop, expires);
      AskingTail(r, None);
    } else {
      var front, e := events[..|events| - 1], events[|events| - 1];
      RouteInOrder(loop, cfg, r, now, front, until, expires);
      RouteProper(loop, cfg, expires, RouteRun(cfg, r, now, front, until).value.state, e, until, Back(front, 1), Back(front, 0));
      OneMoreInOrder(loop, expires, front, e);
      assert front + [e] == events;
    }
  }

  lemma AskingTail(r: RouteState, last: Option<Event>)
    requires r.phase.Asking?
    ensures RouteTail(r, last)
  {
  }

  /** A route resolution before the loop: no answer in it ends the call unless it is the last one. */
  lemma {:induction false} RouteBefore(loop: Loop, cfg: Config, r: RouteState, now: nat, events: seq<Event>, until: nat)
    requires r.phase.Asking? && RouteRun(cfg, r, now, events, until).Some? && !RouteRun(cfg, r, now, events, until).value.Abandoned?
    ensures var move := RouteRun(cfg, r, now, events, until).value;
      && Preliminary(events)
      && (forall i :: 0 <= i < |events| - (if move.Going? then 0 else 1) ==> Ends(loop, cfg, events[i].act) == None)
      && (match move
          case Going(r') => r'.phase.Pausing? ==> RouteFailed(events)
          case Resolved(route) =>
            events != [] && events[|events| - 1].act.RouteAnswered? && events[|events| - 1].act.route == Success(route)
          case Unresolved(error) => FailedBefore(loop, cfg, events, error)
          case Abandoned => true)
  {
    hide RouteStep, Ends, RouteError;
    if events != [] {
      var front, e := events[..|events| - 1], events[|events| - 1];
      RouteBefore(loop, cfg, r, now, front, until);
      var r' := RouteRun(cfg, r, now, front, until).value.state;
      RouteStepSays(cfg, r', e, until);
      RouteStepQuiet(loop, cfg, r', e, until);
      forall i | 0 <= i < |front|
        ensures events[i] == front[i]
      {
      }
    }
  }

  ghost predicate FailedBefore(loop: Loop, cfg: Config, events: seq<Event>, error: RpcError)
  {
    events != [] && var e := events[|events| - 1];
    if e.act.Clock? then RouteFailed(events[..|events| - 1]) && error == Domain(QuorumUnavailable(NotApplicable))
    else Ends(loop, cfg, e.act) == Some(Fault(error))
  }

  lemma RouteStepQuiet(loop: Loop, cfg: Config, r: RouteState, e: Event, until: nat)
    requires RouteStep(cfg, r, e, until).Some?
    ensures match RouteStep(cfg, r, e, until).value
            case Going(_) => Ends(loop, cfg, e.act) == None
            case Unresolved(error) => e.act.Clock? || Ends(loop, cfg, e.act) == Some(Fault(error))
            case _ => true
  {
    hide RouteStep, RouteError;
    RouteStepSays(cfg, r, e, until);
  }

  // ---- A whole log -------------------------------------------------------------------------

  /** What the log of a finished loop says of its report: the deadline error means what its discipline
      promises, the call is over at the first event that ends it and reports what that event says, every
      copy asks for the same thing and goes by the last known route, events and endpoints come in order,
      and there are at most ceil(D / 25 ms) attempts under a deadline of D. */
  ghost predicate KeptUnder(loop: Loop, cfg: Config, body: string, route: Option<Route>, expires: nat, log: seq<Event>, report: Report)
  {
    && (report.TimedOut? ==> report.outcome == Certainty(loop, TriesIn(log)))
    && Concludes(loop, cfg, expires, log, report) && Goes(loop, cfg, log, report)
    && SendsOnly(body, route, log)
    && InOrder(loop, expires, log)
    && (exists lead :: Orderly(cfg.seeds, lead, TryTurns(TriesIn(log))))
    && |TriesIn(log)| <= PausesIn(cfg.deadline)
  }

  /** The same of a whole call.  Its deadline counts from its first event, which reads the clock; retention,
      replay and fetch count anew once their route is known. */
  ghost predicate Kept(loop: Loop, cfg: Config, body: string, log: seq<Event>, report: Report)
  {
    log != [] && exists expires :: DeadlineOf(loop, cfg, log[0].at, expires) && KeptUnder(loop, cfg, body, None, expires, log, report)
  }

  /** So a call reports success exactly when the last event is an answer that says so, and passes an error
      through exactly when the last event fails with it for good, or is a clock reading after a failed route
      request or an unusable leader. */
  lemma ReportMeans(loop: Loop, cfg: Config, body: string, log: seq<Event>, report: Report)
    requires Kept(loop, cfg, body, log, report)
    ensures var act, word := log[|log| - 1].act, LastWord(log[..|log| - 1]);
      && (report == Applied <==> act.CallAnswered? && act.reply.Success?)
      && (forall error :: report == PassedThrough(error) <==>
            if act.Clock? then LateAfter(cfg, word) == Fault(error) else Ends(loop, cfg, act) == Some(Fault(error)))
  {
    hide TriesIn, Flagged, Orderly, Certainty, InOrder, Goes, SendsOnly, LastWord;
  }

  predicate DeadlineOf(loop: Loop, cfg: Config, begun: nat, expires: nat)
  {
    if loop in {Checkpoint, Export} then expires == begun + cfg.deadline else expires >= begun + cfg.deadline
  }

  lemma RunKeeps(loop: Loop, cfg: Config, call: Call, route: Option<Route>, lead: Option<Endpoint>, s: RetryState,
                 events: seq<Event>, report: Report)
    requires Starts(loop, cfg, call, lead, s) && RetryEnds(loop, cfg, s, events, report) && s.expires <= s.now + cfg.deadline
    requires GoesBy(call.routeGroup, call.routeRevision, route) && events != []
    ensures KeptUnder(loop, cfg, call.body, route, s.expires, events, report)
  {
    hide RetryRun, TriesIn, Flagged, Orderly, SendsOnly, PausesIn, Certainty, InOrder, Concludes, Ends;
    RunInBudget(loop, cfg, call, lead, s, events);
    MoreTime(s.now, s.expires, cfg.deadline);
    RunTruthful(loop, cfg, call, lead, s, events, report);
    RunInTurn(loop, cfg, call, lead, s, events);
    RunSendsOnly(loop, cfg, call, route, lead, s, events);
    RunInOrder(loop, cfg, call, lead, s, events);
    RunConcludes(loop, cfg, call, lead, s, events);
  }

  // A loop given a leader it cannot use is over before anything happens.
  lemma RunNothing(loop: Loop, cfg: Config, call: Call, lead: Option<Endpoint>, s: RetryState, report: Report)
    requires Starts(loop, cfg, call, lead, s) && RetryEnds(loop, cfg, s, [], report)
    ensures lead.Some? && !cfg.valid(lead.value) && report == PassedThrough(InvalidEndpoint(lead.value))
  {
    hide Hint;
  }

  // And one given any other goes on.
  lemma RunBegins(loop: Loop, cfg: Config, call: Call, lead: Option<Endpoint>, s: RetryState, events: seq<Event>, report: Report)
    requires Starts(loop, cfg, call, lead, s) && RetryEnds(loop, cfg, s, events, report) && events != []
    ensures lead.Some? ==> cfg.valid(lead.value)
  {
    hide RetryStep, Hint;
    RunFirst(loop, cfg, s, events);
  }

  lemma {:induction false} RunFirst(loop: Loop, cfg: Config, s: RetryState, events: seq<Event>)
    requires RetryRun(loop, cfg, s, events).Some? && events != []
    ensures !s.phase.Done?
  {
    hide RetryStep;
    var front := events[..|events| - 1];
    if front == [] {
      RetryGoesOn(loop, cfg, s, events[0]);
    } else {
      RunFirst(loop, cfg, s, front);
    }
  }

  lemma MoreTime(now: nat, expires: nat, deadline: nat)
    requires expires <= now + deadline && deadline > 0
    ensures MostTries(now, expires) <= PausesIn(deadline)
  {
    var k := PausesIn(deadline);
    if now < expires {
      var j := PausesIn(expires - now);
      assert j > 0 ==> PAUSE * (j - 1) < PAUSE * k;
    }
  }

  lemma {:induction false} PreliminarySkips(before: seq<Event>, events: seq<Event>)
    requires Preliminary(before)
    ensures TriesIn(before + events) == TriesIn(events)
    decreases |before| + |events|
  {
    if events != [] {
      var front := events[..|events| - 1];
      assert (before + events)[..|before + events| - 1] == before + front;
      PreliminarySkips(before, front);
    } else if before != [] {
      var front := before[..|before| - 1];
      assert before + events == before && front + [] == front;
      PreliminarySkips(front, []);
    }
  }

  lemma {:induction false} LastWordJoins(before: seq<Event>, events: seq<Event>)
    ensures LastWord(before + events) == if LastWord(events).Some? then LastWord(events) else LastWord(before)
  {
    if events == [] {
      assert before + events == before;
    } else {
      assert (before + events)[..|before + events| - 1] == before + events[..|events| - 1];
      LastWordJoins(before, events[..|events| - 1]);
    }
  }

  lemma {:induction false} LastRouteJoins(before: seq<Event>, events: seq<Event>)
    ensures LastRoute(None, before + events) == LastRoute(LastRoute(None, before), events)
  {
    if events == [] {
      assert before + events == before;
    } else {
      assert (before + events)[..|before + events| - 1] == before + events[..|events| - 1];
      LastRouteJoins(before, events[..|events| - 1]);
    }
  }

  // More history before an event takes nothing away from what it shows.
  lemma ProperStill(loop: Loop, expires: nat, prev: Option<Event>, last: Option<Event>, e: Event,
                    prev': Option<Event>, last': Option<Event>)
    requires Proper(loop, expires, prev, last, e) && (prev.Some? ==> prev' == prev) && (last.Some? ==> last' == last)
    ensures Proper(loop, expires, prev', last', e)
  {
  }

  lemma OrderJoins(loop: Loop, expires: nat, before: seq<Event>, events: seq<Event>)
    requires InOrder(loop, expires, before) && InOrder(loop, expires, events)
    ensures InOrder(loop, expires, before + events)
  {
    hide Proper;
    var log := before + events;
    forall i | 0 <= i < |log|
      ensures Proper(loop, expires, Back(log[..i], 1), Back(log[..i], 0), log[i])
    {
      if i < |before| {
        assert log[..i] == before[..i];
      } else {
        var j := i - |before|;
        assert log[i] == events[j];
        ProperStill(loop, expires, Back(events[..j], 1), Back(events[..j], 0), events[j], Back(log[..i], 1), Back(log[..i], 0));
      }
    }
  }

  lemma ConcludesAfter(loop: Loop, cfg: Config, expires: nat, before: seq<Event>, events: seq<Event>, report: Report)
    requires events != [] && LateAfter(cfg, LastWord(before)) == Late && Concludes(loop, cfg, expires, events, report)
    ensures Concludes(loop, cfg, expires, before + events, report)
  {
    hide Ends;
    var front := events[..|events| - 1];
    assert (before + events)[..|before + events| - 1] == before + front;
    LastWordJoins(before, front);
  }

  lemma GoesAfter(loop: Loop, cfg: Config, before: seq<Event>, events: seq<Event>, report: Report)
    requires events != [] && Goes(loop, cfg, events, report)
    requires forall i :: 0 <= i < |before| ==> Ends(loop, cfg, before[i].act) == None
    ensures Goes(loop, cfg, before + events, report)
  {
    hide Ends;
    var log := before + events;
    forall i | 0 <= i < |log| - 1
      ensures GoesOn(loop, cfg, log, report, i)
    {
      if i >= |before| {
        var j := i - |before|;
        assert GoesOn(loop, cfg, events, report, j);
        assert log[i] == events[j] && log[i + 1] == events[j + 1];
      }
    }
  }

  lemma SendsAfter(body: string, route: Option<Route>, before: seq<Event>, events: seq<Event>)
    requires Preliminary(before) && LastRoute(None, before) == route && SendsOnly(body, route, events)
    ensures SendsOnly(body, None, before + events)
  {
    hide SendsRight;
    var log := before + events;
    assert forall i :: 0 <= i < |before| ==> log[i] == before[i];
    forall i | 0 <= i < |log| && log[i].act.CallSent?
      ensures SendsRight(body, LastRoute(None, log[..i]), log[i].act.call)
    {
      var j := i - |before|;
      assert log[i] == events[j] && log[..i] == before + events[..j];
      LastRouteJoins(before, events[..j]);
    }
  }

  /** What a loop keeps stays true with the events before it. */
  lemma KeptAfter(loop: Loop, cfg: Config, body: string, route: Option<Route>, expires: nat,
                  before: seq<Event>, log: seq<Event>, report: Report)
    requires Preliminary(before) && InOrder(loop, expires, before)
    requires forall i :: 0 <= i < |before| ==> Ends(loop, cfg, before[i].act) == None
    requires LateAfter(cfg, LastWord(before)) == Late && LastRoute(None, before) == route
    requires KeptUnder(loop, cfg, body, route, expires, log, report)
    ensures KeptUnder(loop, cfg, body, None, expires, before + log, report)
  {
    hide TriesIn, Flagged, Orderly, Certainty, InOrder, Goes, SendsOnly, Ends, LateAfter, LastWord, LastRoute;
    assert log != [];
    PreliminarySkips(before, log);
    ConcludesAfter(loop, cfg, expires, before, log, report);
    GoesAfter(loop, cfg, before, log, report);
    SendsAfter(body, route, before, log);
    OrderJoins(loop, expires, before, log);
  }

  /** A call that ends before it comes to its loop. */
  lemma NothingKept(loop: Loop, cfg: Config, body: string, expires: nat, log: seq<Event>, report: Report)
    requires cfg.Ok() && Preliminary(log) && InOrder(loop, expires, log) && report.PassedThrough?
    requires Concludes(loop, cfg, expires, log, report) && Goes(loop, cfg, log, report)
    ensures KeptUnder(loop, cfg, body, None, expires, log, report)
  {
    hide Orderly, InTurn, Flagged, History, PausesIn, InOrder, Concludes, Goes;
    PreliminarySkips(log, []);
    assert log + [] == log;
    assert TryTurns([]) == [];
    NoTurns(cfg.seeds);
    InTurnIsOrderly(cfg.seeds, None, []);
  }

  lemma NoTurns(seeds: seq<Endpoint>)
    ensures InTurn(seeds, None, [])
  {
  }

  // ---- Once the route is known -------------------------------------------------------------

  // What the leader of a route ends the call with.
  function LeaderFault(cfg: Config, route: Route): Option<Cause> { Faults(AnsweredRoute(cfg, Success(route))) }

  /** Events that end in a route: only its leader can have ended the call. */
  ghost predicate Ready(loop: Loop, cfg: Config, expires: nat, before: seq<Event>, route: Route)
  {
    && Preliminary(before) && InOrder(loop, expires, before)
    && LastRoute(None, before) == Some(route)
    && before != [] && !before[|before| - 1].act.Slept?
    && var word := LastWord(before);
    && word.Some? && word.value.RouteAnswered? && word.value.route == Success(route)
    && forall i :: 0 <= i < |before| ==> ReadyAt(loop, cfg, before, route, i)
  }

  ghost predicate ReadyAt(loop: Loop, cfg: Config, before: seq<Event>, route: Route, i: nat)
    requires i < |before|
  {
    var cause := Ends(loop, cfg, before[i].act);
    || cause == None
    || (cause == LeaderFault(cfg, route)
        && (i == |before| - 1 || (i == |before| - 2 && before[i + 1].act.Clock?)))
  }

  lemma FirstClock(loop: Loop, cfg: Config, expires: nat, clock: Event)
    requires clock.act == Clock
    ensures Preliminary([clock]) && InOrder(loop, expires, [clock]) && Ends(loop, cfg, clock.act) == None
    ensures LastWord([clock]) == None && LastRoute(None, [clock]) == None
  {
  }

  // A first clock reading and a route resolution.
  lemma RouteReady(loop: Loop, cfg: Config, clock: Event, routing: seq<Event>, until: nat, expires: nat, route: Route)
    requires clock.act == Clock && RouteRun(cfg, NewRouteState(cfg.seeds), clock.at, routing, until) == Some(Resolved(route))
    ensures Ready(loop, cfg, expires, [clock] + routing, route)
  {
    hide RouteRun, InOrder, Ends;
    var before := [clock] + routing;
    FirstClock(loop, cfg, expires, clock);
    RouteBefore(loop, cfg, NewRouteState(cfg.seeds), clock.at, routing, until);
    RouteInOrder(loop, cfg, NewRouteState(cfg.seeds), clock.at, routing, until, expires);
    OrderJoins(loop, expires, [clock], routing);
    LastWordJoins([clock], routing);
    LastRouteJoins([clock], routing);
    RouteEnds(loop, cfg, routing[|routing| - 1].act, route);
    forall i | 0 <= i < |before|
      ensures ReadyAt(loop, cfg, before, route, i)
    {
      assert i > 0 ==> before[i] == routing[i - 1];
    }
  }

  lemma RouteEnds(loop: Loop, cfg: Config, act: Act, route: Route)
    requires act.RouteAnswered? && act.route == Success(route)
    ensures Ends(loop, cfg, act) == LeaderFault(cfg, route)
  {
  }

  // And the clock reading from which the loop's own deadline counts.
  lemma ClockReady(loop: Loop, cfg: Config, expires: nat, before: seq<Event>, route: Route, clock: Event)
    requires clock.act == Clock && Ready(loop, cfg, expires, before, route) && !before[|before| - 1].act.Clock?
    ensures Ready(loop, cfg, expires, before + [clock], route)
  {
    hide InOrder, Ends;
    FirstClock(loop, cfg, expires, clock);
    OrderJoins(loop, expires, before, [clock]);
    LastWordJoins(before, [clock]);
    LastRouteJoins(before, [clock]);
    var after := before + [clock];
    forall i | 0 <= i < |after|
      ensures ReadyAt(loop, cfg, after, route, i)
    {
      if i < |before| {
        assert after[i] == before[i] && ReadyAt(loop, cfg, before, route, i);
        assert i < |before| - 1 ==> after[i + 1] == before[i + 1];
      }
    }
  }

  /** The loop runs from a known route. */
  lemma RunAfter(loop: Loop, cfg: Config, call: Call, route: Route, s: RetryState, before: seq<Event>, events: seq<Event>, report: Report)
    requires Starts(loop, cfg, call, route.leader, s) && RetryEnds(loop, cfg, s, events, report) && s.expires <= s.now + cfg.deadline
    requires call.routeGroup == route.group && call.routeRevision == route.revision
    requires Ready(loop, cfg, s.expires, before, route)
    ensures KeptUnder(loop, cfg, call.body, None, s.expires, before + events, report)
  {
    hide RetryRun, InOrder, Ends, KeptUnder, LastWord, LastRoute;
    if events == [] {
      assert before + events == before;
      RunNothing(loop, cfg, call, route.leader, s, report);
      ReadyStops(loop, cfg, call.body, s.expires, before, route, report);
    } else {
      RunBegins(loop, cfg, call, route.leader, s, events, report);
      RunKeeps(loop, cfg, call, Some(route), route.leader, s, events, report);
      forall i | 0 <= i < |before|
        ensures Ends(loop, cfg, before[i].act) == None
      {
        assert ReadyAt(loop, cfg, before, route, i);
      }
      KeptAfter(loop, cfg, call.body, Some(route), s.expires, before, events, report);
    }
  }

  // The leader cannot be used.
  lemma ReadyStops(loop: Loop, cfg: Config, body: string, expires: nat, before: seq<Event>, route: Route, report: Report)
    requires cfg.Ok() && Ready(loop, cfg, expires, before, route)
    requires route.leader.Some? && !cfg.valid(route.leader.value) && report == PassedThrough(InvalidEndpoint(route.leader.value))
    ensures KeptUnder(loop, cfg, body, None, expires, before, report)
  {
    hide InOrder, Ends;
    var front, e := before[..|before| - 1], before[|before| - 1];
    if !e.act.Clock? {
      RouteEnds(loop, cfg, e.act, route);
    }
    forall i | 0 <= i < |before| - 1
      ensures GoesOn(loop, cfg, before, report, i)
    {
      assert ReadyAt(loop, cfg, before, route, i);
    }
    NothingKept(loop, cfg, body, expires, before, report);
  }

  /** The route resolution failed. */
  lemma UnresolvedAfter(loop: Loop, cfg: Config, body: string, clock: Event, routing: seq<Event>, expires: nat, error: RpcError)
    requires cfg.Ok() && clock.act == Clock
    requires RouteRun(cfg, NewRouteState(cfg.seeds), clock.at, routing, expires) == Some(Unresolved(error))
    ensures KeptUnder(loop, cfg, body, None, expires, [clock] + routing, PassedThrough(error))
  {
    hide RouteRun, InOrder, Ends;
    var log, report := [clock] + routing, PassedThrough(error);
    FirstClock(loop, cfg, expires, clock);
    RouteBefore(loop, cfg, NewRouteState(cfg.seeds), clock.at, routing, expires);
    RouteInOrder(loop, cfg, NewRouteState(cfg.seeds), clock.at, routing, expires, expires);
    OrderJoins(loop, expires, [clock], routing);
    forall i | 0 <= i < |log| - 1
      ensures GoesOn(loop, cfg, log, report, i)
    {
      assert i > 0 ==> log[i] == routing[i - 1];
    }
    FailedConcludes(loop, cfg, clock, routing, expires, error);
    NothingKept(loop, cfg, body, expires, log, report);
  }

  lemma FailedConcludes(loop: Loop, cfg: Config, clock: Event, routing: seq<Event>, expires: nat, error: RpcError)
    requires clock.act == Clock && FailedBefore(loop, cfg, routing, error)
    ensures Concludes(loop, cfg, expires, [clock] + routing, PassedThrough(error))
  {
    hide Ends;
    var front := routing[..|routing| - 1];
    assert ([clock] + routing)[..|routing|] == [clock] + front;
    LastWordJoins([clock], front);
  }
}
