/** What every run of the other retry loops keeps: the flag means what its discipline says, every copy
    is the same request, the endpoints are taken in turn; and when a replay mutation reports ambiguity
    without having sent anything. */
module RetryRuns {
  import opened Options
  import opened Endpoints
  import opened Protocol
  import opened RetryMachine

  ghost predicate Starts(loop: Loop, cfg: Config, call: Call, lead: Option<Endpoint>, s: RetryState)
  {
    cfg.Ok() && s == RetryInitial(loop, cfg, call, lead, s.now, s.expires)
  }

  // ---- The flag ----------------------------------------------------------------------------

  /** Between attempts the flag is what its discipline makes of the history; during one, the history
      before it is what a rollback goes back to. */
  ghost predicate FlagMeans(loop: Loop, s: RetryState, h: seq<Try>)
  {
    match s.phase
    case Done(TimedOut(outcome)) => outcome == loop.Reports(Flagged(loop, h))
    case Done(_) => true
    case Timing(_) => DuringAttempt(loop, s, h, false)
    case Sending(_) => DuringAttempt(loop, s, h, false)
    case Awaiting => DuringAttempt(loop, s, h, true)
    case _ => s.flag == Flagged(loop, h)
  }

  ghost predicate DuringAttempt(loop: Loop, s: RetryState, h: seq<Try>, sent: bool)
  {
    && s.flag == Flagged(loop, h)
    && h != [] && var t := h[|h| - 1];
    t.connected && t.sent.Some? == sent && t.answer == None && s.before == Flagged(loop, h[..|h| - 1])
  }

  lemma HistoryFront(h: seq<Try>, act: Act)
    requires h != [] && !act.Connected? && !act.ConnectFailed?
    ensures var g := History(h, act); |g| == |h| && g[..|h| - 1] == h[..|h| - 1] && g[|h| - 1] == Noted(h[|h| - 1], act)
  {
    hide Noted;
  }

  // Acts that say nothing of an attempt leave the flag's meaning alone.
  lemma SameFlag(loop: Loop, h: seq<Try>, act: Act)
    requires !act.Connected? && !act.CallSent? && !act.CallAnswered?
    ensures Flagged(loop, History(h, act)) == Flagged(loop, h)
    ensures !act.ConnectFailed? && !act.RouteAnswered? ==> History(h, act) == h
  {
    hide Flagged, Refusal;
    if act.ConnectFailed? {
      FlaggedGrows(loop, h, Try(act.endpoint, false, None, None, None));
    } else if h != [] {
      HistoryFront(h, act);
      FlaggedSplits(loop, h);
      FlaggedSplits(loop, History(h, act));
    }
  }

  lemma DispatchMeans(loop: Loop, cfg: Config, s: RetryState, h: seq<Try>, reply: Answer<()>)
    requires h != [] && s.flag == Flagged(loop, h) && s.before == Flagged(loop, h[..|h| - 1])
    requires var t := h[|h| - 1]; if t.sent.Some? then t.answer == Some(reply) else t.answer == None && !Refusal(reply)
    ensures FlagMeans(loop, RetryDispatch(loop, cfg, s, reply), h)
  {
    hide Flagged, Hint;
    FlaggedSplits(loop, h);
  }

  lemma DialingMeans(loop: Loop, cfg: Config, s: RetryState, h: seq<Try>, e: Event)
    requires s.phase.Dialing? && FlagMeans(loop, s, h) && StepDialing(loop, cfg, s, e).Some?
    ensures FlagMeans(loop, StepDialing(loop, cfg, s, e).value, History(h, e.act))
  {
    hide Flagged, RetryDispatch, Current;
    var connected := e.act.Connected?;
    var t := Try(e.act.endpoint, connected, None, None, None);
    FlaggedGrows(loop, h, t);
    assert (h + [t])[..|h|] == h;
    if e.act.ConnectFailed? {
      DispatchMeans(loop, cfg, Dialed(s), h + [t], Failure(e.act.error));
    }
  }

  lemma CallMeans(loop: Loop, cfg: Config, s: RetryState, h: seq<Try>, e: Event)
    requires (s.phase.Timing? || s.phase.Sending? || s.phase.Awaiting?) && FlagMeans(loop, s, h) && StepCall(loop, cfg, s, e).Some?
    ensures FlagMeans(loop, StepCall(loop, cfg, s, e).value, History(h, e.act))
  {
    hide Flagged, RetryDispatch;
    var g := History(h, e.act);
    HistoryFront(h, e.act);
    FlaggedSplits(loop, h);
    FlaggedSplits(loop, g);
    if s.phase.Timing? {
      SameFlag(loop, h, e.act);
      DispatchMeans(loop, cfg, s, h, Failure(Deadline));
    } else if s.phase.Awaiting? {
      AwaitedMeans(loop, h[|h| - 1], e.act.reply, loop.Checkpoint?);
      DispatchAnswered(loop, cfg, s, h, g, e.act.reply);
    }
  }

  // An answer lowers the checkpoint flag when it is a refusal, and no other flag.
  lemma AwaitedMeans(loop: Loop, t: Try, reply: Answer<()>, exact: bool)
    requires t.sent.Some? && t.answer == None && exact == loop.Checkpoint?
    ensures Raises(loop, t.(answer := Some(reply))) == (Raises(loop, t) && !(exact && Refusal(reply)))
  {
    hide Refusal;
  }

  lemma DispatchAnswered(loop: Loop, cfg: Config, s: RetryState, h: seq<Try>, g: seq<Try>, reply: Answer<()>)
    requires h != [] && |g| == |h| && g[..|h| - 1] == h[..|h| - 1] && g[|h| - 1] == h[|h| - 1].(answer := Some(reply))
    requires h[|h| - 1].sent.Some? && h[|h| - 1].connected && h[|h| - 1].answer == None
    requires s.flag == Flagged(loop, h) && s.before == Flagged(loop, h[..|h| - 1])
    ensures FlagMeans(loop, RetryDispatch(loop, cfg, s, reply), g)
  {
    hide Flagged, Hint;
    FlaggedSplits(loop, h);
    FlaggedSplits(loop, g);
  }

  lemma StepMeans(loop: Loop, cfg: Config, s: RetryState, h: seq<Try>, e: Event)
    requires FlagMeans(loop, s, h) && RetryStep(loop, cfg, s, e).Some?
    ensures FlagMeans(loop, RetryStep(loop, cfg, s, e).value, History(h, e.act))
  {
    hide Flagged, History, StepDialing, StepCall, RouteAnswer, Hint, RetryDispatch;
    var t := s.(now := e.at);
    match s.phase {
      case Dialing => DialingMeans(loop, cfg, t, h, e);
      case Timing(_) => CallMeans(loop, cfg, t, h, e);
      case Sending(_) => CallMeans(loop, cfg, t, h, e);
      case Awaiting => CallMeans(loop, cfg, t, h, e);
      case _ => SameFlag(loop, h, e.act);
    }
  }

  lemma {:induction false} RunMeans(loop: Loop, cfg: Config, call: Call, lead: Option<Endpoint>, s: RetryState, events: seq<Event>)
    requires Starts(loop, cfg, call, lead, s) && RetryRun(loop, cfg, s, events).Some?
    ensures FlagMeans(loop, RetryRun(loop, cfg, s, events).value, TriesIn(events))
  {
    hide RetryStep, History;
    if events != [] {
      var front, e := events[..|events| - 1], events[|events| - 1];
      RunMeans(loop, cfg, call, lead, s, front);
      StepMeans(loop, cfg, RetryRun(loop, cfg, s, front).value, TriesIn(front), e);
    }
  }

  // ---- The disciplines compared ------------------------------------------------------------

  // A copy is sent only after connecting.
  ghost predicate SentConnected(h: seq<Try>)
  {
    forall i :: 0 <= i < |h| ==> h[i].sent.Some? ==> h[i].connected
  }

  lemma DispatchPhases(loop: Loop, cfg: Config, s: RetryState, reply: Answer<()>)
    ensures var t := RetryDispatch(loop, cfg, s, reply);
      !t.phase.Timing? && !t.phase.Sending? && !t.phase.Awaiting? && t.expires == s.expires
  {
    hide Hint;
  }

  lemma CallPhases(loop: Loop, cfg: Config, s: RetryState, e: Event)
    requires RetryStep(loop, cfg, s, e).Some?
    ensures var t := RetryStep(loop, cfg, s, e).value;
      && (t.phase.Timing? || t.phase.Sending? || t.phase.Awaiting? ==> e.act.Connected? || s.phase.Timing? || s.phase.Sending?)
      && (e.act.CallSent? ==> s.phase.Sending?)
      && t.expires == s.expires
  {
    hide RouteStep, NapStep, RetryDispatch, Hint, Current;
    var t := s.(now := e.at);
    DispatchPhases(loop, cfg, t, Failure(Deadline));
    match s.phase {
      case Dialing =>
        if e.act.ConnectFailed? {
          DispatchPhases(loop, cfg, Dialed(t), Failure(e.act.error));
        }
      case Awaiting =>
        if e.act.CallAnswered? {
          DispatchPhases(loop, cfg, t, e.act.reply);
        }
      case Refreshing(until, r) => RouteActs(cfg, r, e, until);
      case Resting(nap) => NapActs(nap, e, s.expires);
      case _ =>
    }
  }

  lemma StepSentConnected(loop: Loop, cfg: Config, s: RetryState, h: seq<Try>, e: Event)
    requires SentConnected(h) && FlagMeans(loop, s, h) && RetryStep(loop, cfg, s, e).Some?
    ensures SentConnected(History(h, e.act))
  {
    hide Flagged, RetryStep;
    CallPhases(loop, cfg, s, e);
  }

  /** In the history of any run a copy is sent only after connecting. */
  lemma {:induction false} RunSentConnected(loop: Loop, cfg: Config, call: Call, lead: Option<Endpoint>, s: RetryState, events: seq<Event>)
    requires Starts(loop, cfg, call, lead, s) && RetryRun(loop, cfg, s, events).Some?
    ensures SentConnected(TriesIn(events))
  {
    hide RetryStep, History;
    if events != [] {
      var front, e := events[..|events| - 1], events[|events| - 1];
      RunSentConnected(loop, cfg, call, lead, s, front);
      RunMeans(loop, cfg, call, lead, s, front);
      StepSentConnected(loop, cfg, RetryRun(loop, cfg, s, front).value, TriesIn(front), e);
    }
  }

  /** On any common history, of a run or not, the exact flag implies the conservative ones. */
  lemma ExactImpliesConservative(h: seq<Try>)
    requires SentConnected(h)
    ensures (Flagged(Checkpoint, h) ==> Flagged(Retention, h)) && (Flagged(Retention, h) <==> Flagged(Export, h))
    ensures Flagged(Retention, h) ==> Flagged(Replay, h)
  {
    if Unrefused(h) {
      var i :| 0 <= i < |h| && LeftOpen(h[i]);
      assert h[i].sent.Some?;
    }
    if EverSent(h) {
      var i :| 0 <= i < |h| && h[i].sent.Some?;
      assert h[i].connected;
    }
  }

  /** What a deadline error says.  The checkpoint loop: whether some copy was sent and not refused; retention
      and export mutations: whether one was sent; replay: whether an attempt connected.  A fetch changes
      nothing, and says so. */
  ghost function Certainty(loop: Loop, h: seq<Try>): Outcome
  {
    match loop
    case Fetch => NotApplicable
    case Checkpoint => if Unrefused(h) then AmbiguousCommit else DefiniteNoCommit
    case Replay => if EverConnected(h) then AmbiguousCommit else DefiniteNoCommit
    case _ => if EverSent(h) then AmbiguousCommit else DefiniteNoCommit
  }

  lemma CertaintyReported(loop: Loop, h: seq<Try>)
    ensures loop.Reports(Flagged(loop, h)) == Certainty(loop, h)
  {
  }

  /** In every run a deadline error says what the discipline's flag means.  The checkpoint loop says
      DefiniteNoCommit exactly when every copy sent was refused; retention and export mutations exactly
      when no copy was sent; a replay mutation exactly when no attempt connected. */
  lemma RunTruthful(loop: Loop, cfg: Config, call: Call, lead: Option<Endpoint>, s: RetryState, events: seq<Event>, report: Report)
    requires Starts(loop, cfg, call, lead, s) && RetryEnds(loop, cfg, s, events, report)
    ensures report.TimedOut? ==> report.outcome == Certainty(loop, TriesIn(events))
    ensures report == TimedOut(DefiniteNoCommit) && !loop.Checkpoint? ==> !EverSent(TriesIn(events))
  {
    hide RetryRun, Unrefused, EverConnected, EverSent;
    RunMeans(loop, cfg, call, lead, s, events);
    RunSentConnected(loop, cfg, call, lead, s, events);
    ExactImpliesConservative(TriesIn(events));
    CertaintyReported(loop, TriesIn(events));
  }

  lemma RunAdds(loop: Loop, cfg: Config, s: RetryState, events: seq<Event>, e: Event)
    ensures RetryRun(loop, cfg, s, events + [e])
         == match RetryRun(loop, cfg, s, events) case None => None case Some(s') => RetryStep(loop, cfg, s', e)
  {
    hide RetryStep;
    assert (events + [e])[..|events|] == events;
  }

  // One copy, refused, and the deadline.
  function RefusedOnce(endpoint: Endpoint, call: Call, now: nat, expires: nat): (events: seq<Event>)
    ensures |events| == 5
  {
    [Event(now, Connected(endpoint)), Event(now, Clock), Event(now, CallSent(endpoint, call)),
     Event(now, CallAnswered(Failure(Client(Domain(NotLeader(None)))))), Event(expires, Clock)]
  }

  // Where that log has the loop after its first i events.
  predicate RefusedStage(loop: Loop, s: RetryState, endpoint: Endpoint, i: nat)
  {
    match i
    case 0 => s.phase == Dialing && s.ring.list != [] && Current(s.ring) == endpoint && !s.flag
    case 1 => s.phase == Timing(endpoint) && !s.flag && !s.before
    case 2 => s.phase == Sending(endpoint) && !s.flag && !s.before
    case 3 => s.phase == Awaiting && s.flag && !s.before
    case 4 => s.phase == Resting(Due) && s.flag == !loop.Checkpoint?
    case _ => s.phase == Done(TimedOut(OutcomeFor(!loop.Checkpoint?)))
  }

  lemma RefusedStep(loop: Loop, cfg: Config, s: RetryState, endpoint: Endpoint, i: nat)
    requires cfg.retry && s.now < s.expires && (loop.Checkpoint? || loop.Export?) && i < 5 && RefusedStage(loop, s, endpoint, i)
    ensures var t := RetryStep(loop, cfg, s, RefusedOnce(endpoint, s.call, s.now, s.expires)[i]);
      && t.Some? && RefusedStage(loop, t.value, endpoint, i + 1)
      && (i < 4 ==> t.value.now == s.now && t.value.expires == s.expires && t.value.call == s.call)
  {
  }

  lemma RefusedStarts(loop: Loop, cfg: Config, call: Call, now: nat, expires: nat)
    requires cfg.Ok() && (loop.Checkpoint? || loop.Export?)
    ensures var s := RetryInitial(loop, cfg, call, None, now, expires);
      && RetryRun(loop, cfg, s, []) == Some(s) && RefusedStage(loop, s, cfg.seeds[0], 0)
      && s.now == now && s.expires == expires && s.call == call
  {
  }

  lemma RefusedRun(loop: Loop, cfg: Config, call: Call, now: nat, expires: nat)
    requires cfg.Ok() && cfg.retry && now < expires && (loop.Checkpoint? || loop.Export?)
    ensures RetryEnds(loop, cfg, RetryInitial(loop, cfg, call, None, now, expires), RefusedOnce(cfg.seeds[0], call, now, expires),
                      TimedOut(OutcomeFor(!loop.Checkpoint?)))
  {
    var s, events := RetryInitial(loop, cfg, call, None, now, expires), RefusedOnce(cfg.seeds[0], call, now, expires);
    hide RetryStep, RetryRun, RetryInitial, RefusedOnce, RefusedStage;
    RefusedStarts(loop, cfg, call, now, expires);
    var t := s;
    assert events[..0] == [];
    for i := 0 to 5
      invariant RetryRun(loop, cfg, s, events[..i]) == Some(t) && RefusedStage(loop, t, cfg.seeds[0], i)
      invariant i < 5 ==> t.now == now && t.expires == expires && t.call == call
    {
      RunAdds(loop, cfg, s, events[..i], events[i]);
      assert events[..i] + [events[i]] == events[..i + 1];
      RefusedStep(loop, cfg, t, cfg.seeds[0], i);
      t := RetryStep(loop, cfg, t, events[i]).value;
    }
    assert events[..5] == events;
    RefusedEnds(loop, t, cfg.seeds[0]);
  }

  lemma RefusedEnds(loop: Loop, s: RetryState, endpoint: Endpoint)
    requires RefusedStage(loop, s, endpoint, 5)
    ensures s.phase == Done(TimedOut(OutcomeFor(!loop.Checkpoint?)))
  {
  }

  /** The same log, of one copy that was refused, tells the disciplines apart: at the deadline the checkpoint
      loop says DefiniteNoCommit and an export mutation AmbiguousCommit. */
  lemma RefusalTellsApart(cfg: Config, call: Call, now: nat, expires: nat) returns (events: seq<Event>)
    requires cfg.Ok() && cfg.retry && now < expires
    ensures RetryEnds(Checkpoint, cfg, RetryInitial(Checkpoint, cfg, call, None, now, expires), events, TimedOut(DefiniteNoCommit))
    ensures RetryEnds(Export, cfg, RetryInitial(Export, cfg, call, None, now, expires), events, TimedOut(AmbiguousCommit))
  {
    events := RefusedOnce(cfg.seeds[0], call, now, expires);
    RefusedRun(Checkpoint, cfg, call, now, expires);
    RefusedRun(Export, cfg, call, now, expires);
  }

  // ---- One request, endpoints in turn ------------------------------------------------------

  ghost function TryTurns(h: seq<Try>): (turns: seq<Turn>)
    ensures |turns| == |h|
  {
    seq(|h|, i requires 0 <= i < |h| => Turn(h[i].endpoint, Told(h[i].answer, h[i].refreshed)))
  }

  /** The ring of the loop is the one its history leads to, and every copy asks for the same thing. */
  ghost predicate Walks(cfg: Config, call: Call, lead: Option<Endpoint>, s: RetryState, h: seq<Try>)
  {
    && InTurn(cfg.seeds, lead, TryTurns(h))
    && (!s.phase.Done? ==> s.ring == RingAfter(cfg.seeds, lead, TryTurns(h)))
    && (InAttempt(s) ==> h != [] && h[|h| - 1].refreshed == None && Told(h[|h| - 1].answer, None) == None)
    && s.call.body == call.body
    && (forall i :: 0 <= i < |h| && h[i].sent.Some? ==> h[i].sent.value.body == call.body)
  }

  predicate InAttempt(s: RetryState)
  {
    s.phase.Timing? || s.phase.Sending? || s.phase.Awaiting? || s.phase.Opening? || s.phase.Refreshing?
  }

  lemma TurnsGrow(h: seq<Try>, t: Try)
    ensures TryTurns(h + [t]) == TryTurns(h) + [Turn(t.endpoint, Told(t.answer, t.refreshed))]
  {
    hide Told;
  }

  // What the last attempt is told, the ring obeys.
  lemma TurnsNote(cfg: Config, lead: Option<Endpoint>, h: seq<Try>, act: Act)
    requires h != [] && !act.Connected? && !act.ConnectFailed?
    requires InTurn(cfg.seeds, lead, TryTurns(h)) && Told(h[|h| - 1].answer, h[|h| - 1].refreshed) == None
    ensures var g := History(h, act); var told := Told(g[|h| - 1].answer, g[|h| - 1].refreshed);
      && InTurn(cfg.seeds, lead, TryTurns(g))
      && RingAfter(cfg.seeds, lead, TryTurns(g)) == Led(RingAfter(cfg.seeds, lead, TryTurns(h)), told)
  {
    hide InTurn, RingAfter, Led, Told, Noted;
    var g, turns, n := History(h, act), TryTurns(h), |h| - 1;
    var told := Told(g[n].answer, g[n].refreshed);
    TurnTold(cfg.seeds, lead, turns, told);
    assert g[n].endpoint == h[n].endpoint by { NotedStays(h[n], act); }
    assert TryTurns(g) == turns[n := turns[n].(told := told)];
  }

  lemma NotedStays(t: Try, act: Act)
    ensures Noted(t, act).endpoint == t.endpoint
  {
  }

  lemma DispatchRing(loop: Loop, cfg: Config, s: RetryState, reply: Answer<()>)
    ensures var t := RetryDispatch(loop, cfg, s, reply);
      && t.call == s.call && (!t.phase.Done? ==> t.ring == Led(s.ring, LeaderOf(reply)))
      && (InAttempt(t) ==> LeaderOf(reply) == None)
  {
    hide Hint;
  }

  lemma DialingWalks(loop: Loop, cfg: Config, call: Call, lead: Option<Endpoint>, s: RetryState, h: seq<Try>, e: Event)
    requires s.phase.Dialing? && Walks(cfg, call, lead, s, h) && StepDialing(loop, cfg, s, e).Some?
    ensures Walks(cfg, call, lead, StepDialing(loop, cfg, s, e).value, History(h, e.act))
  {
    hide InTurn, RingAfter, RetryDispatch, Hint;
    var t := Try(e.act.endpoint, e.act.Connected?, None, None, None);
    TurnsGrow(h, t);
    TurnTaken(cfg.seeds, lead, TryTurns(h), Turn(t.endpoint, None));
    if e.act.ConnectFailed? {
      DispatchRing(loop, cfg, Dialed(s), Failure(e.act.error));
      FailureIsNoRefresh(loop, cfg, Dialed(s), e.act.error);
    }
  }

  lemma FailureIsNoRefresh(loop: Loop, cfg: Config, s: RetryState, error: AttemptError)
    requires ConnectError(error)
    ensures !InAttempt(RetryDispatch(loop, cfg, s, Failure(error))) && LeaderOf<()>(Failure(error)) == None
  {
    hide Hint;
  }

  lemma CallWalks(loop: Loop, cfg: Config, call: Call, lead: Option<Endpoint>, s: RetryState, h: seq<Try>, e: Event)
    requires (s.phase.Timing? || s.phase.Sending? || s.phase.Awaiting?) && StepCall(loop, cfg, s, e).Some?
    requires Walks(cfg, call, lead, s, h)
    ensures Walks(cfg, call, lead, StepCall(loop, cfg, s, e).value, History(h, e.act))
  {
    hide InTurn, RingAfter, RetryDispatch, Hint;
    TurnsNote(cfg, lead, h, e.act);
    HistoryFront(h, e.act);
    if s.phase.Awaiting? {
      DispatchRing(loop, cfg, s, e.act.reply);
    } else if s.phase.Timing? {
      DispatchRing(loop, cfg, s, Failure(Deadline));
      FailureIsNoRefresh(loop, cfg, s, Deadline);
    }
  }

  lemma RefreshingWalks(loop: Loop, cfg: Config, call: Call, lead: Option<Endpoint>, s: RetryState, h: seq<Try>, e: Event)
    requires s.phase.Refreshing? && Walks(cfg, call, lead, s, h)
    requires RouteStep(cfg, s.phase.route, e, s.phase.until).Some?
    requires Refreshed(cfg, s, s.phase.until, RouteStep(cfg, s.phase.route, e, s.phase.until).value).Some?
    ensures var t := Refreshed(cfg, s, s.phase.until, RouteStep(cfg, s.phase.route, e, s.phase.until).value).value;
      Walks(cfg, call, lead, t, History(h, e.act))
  {
    hide InTurn, RingAfter, Hint, RouteStep;
    RouteActs(cfg, s.phase.route, e, s.phase.until);
    TurnsNote(cfg, lead, h, e.act);
    HistoryFront(h, e.act);
  }

  // What a route resolution tells is what it resolves to.
  lemma RouteActs(cfg: Config, r: RouteState, e: Event, until: nat)
    requires RouteStep(cfg, r, e, until).Some?
    ensures e.act.Cancel? || e.act.Clock? || e.act.Slept? || e.act.RouteAnswered?
    ensures var move := RouteStep(cfg, r, e, until).value;
      (move.Resolved? <==> e.act.RouteAnswered? && e.act.route.Success?) && (move.Resolved? ==> e.act.route == Success(move.route))
  {
  }

  lemma NapActs(nap: Nap, e: Event, expires: nat)
    requires NapStep(nap, e, expires).Some?
    ensures e.act.Cancel? || e.act.Clock? || e.act.Slept?
  {
  }

  lemma QuietHistory(h: seq<Try>, act: Act)
    requires act.Cancel? || act.Clock? || act.Slept?
    ensures History(h, act) == h
  {
  }

  lemma StepWalks(loop: Loop, cfg: Config, call: Call, lead: Option<Endpoint>, s: RetryState, h: seq<Try>, e: Event)
    requires Walks(cfg, call, lead, s, h) && RetryStep(loop, cfg, s, e).Some?
    ensures Walks(cfg, call, lead, RetryStep(loop, cfg, s, e).value, History(h, e.act))
  {
    hide InTurn, RingAfter, History, StepDialing, StepCall, RouteStep, NapStep, Refreshed, Told;
    var t := s.(now := e.at);
    match s.phase {
      case Dialing => DialingWalks(loop, cfg, call, lead, t, h, e);
      case Timing(_) => CallWalks(loop, cfg, call, lead, t, h, e);
      case Sending(_) => CallWalks(loop, cfg, call, lead, t, h, e);
      case Awaiting => CallWalks(loop, cfg, call, lead, t, h, e);
      case Refreshing(_, _) => RefreshingWalks(loop, cfg, call, lead, t, h, e);
      case Resting(nap) =>
        NapActs(nap, e, s.expires);
        QuietHistory(h, e.act);
      case _ => QuietHistory(h, e.act);
    }
  }

  lemma {:induction false} RunWalks(loop: Loop, cfg: Config, call: Call, lead: Option<Endpoint>, s: RetryState, events: seq<Event>)
    requires Starts(loop, cfg, call, lead, s) && RetryRun(loop, cfg, s, events).Some?
    ensures Walks(cfg, call, lead, RetryRun(loop, cfg, s, events).value, TriesIn(events))
  {
    hide RetryStep, History;
    if events == [] {
      assert TryTurns([]) == [];
    } else {
      var front, e := events[..|events| - 1], events[|events| - 1];
      RunWalks(loop, cfg, call, lead, s, front);
      StepWalks(loop, cfg, call, lead, RetryRun(loop, cfg, s, front).value, TriesIn(front), e);
    }
  }

  /** In every run of the checkpoint, retention, replay, export and fetch loops the attempts in the log take
      the endpoints in order: a leader named by an answer, or by the route a stale one was refreshed to,
      is the next endpoint tried; windows told of no leader cover the list; no seed is lost.  Every copy
      asks for the same thing under the same request id. */
  lemma RunInTurn(loop: Loop, cfg: Config, call: Call, lead: Option<Endpoint>, s: RetryState, events: seq<Event>)
    requires Starts(loop, cfg, call, lead, s) && RetryRun(loop, cfg, s, events).Some?
    ensures Orderly(cfg.seeds, lead, TryTurns(TriesIn(events)))
    ensures var h := TriesIn(events); forall i :: 0 <= i < |h| && h[i].sent.Some? ==> h[i].sent.value.body == call.body
  {
    hide RetryRun, InTurn, Orderly;
    RunWalks(loop, cfg, call, lead, s, events);
    InTurnIsOrderly(cfg.seeds, lead, TryTurns(TriesIn(events)));
  }

  /** Every copy asks for the same thing and goes by the last route that was answered before it, or by the
      one the loop was given. */
  ghost predicate SendsOnly(body: string, route: Option<Route>, events: seq<Event>)
  {
    forall i :: 0 <= i < |events| && events[i].act.CallSent? ==> SendsRight(body, LastRoute(route, events[..i]), events[i].act.call)
  }

  ghost predicate SendsRight(body: string, route: Option<Route>, call: Call)
  {
    call.body == body && GoesBy(call.routeGroup, call.routeRevision, route)
  }

  lemma StepSends(loop: Loop, cfg: Config, s: RetryState, e: Event)
    requires RetryStep(loop, cfg, s, e).Some? && e.act.CallSent?
    ensures e.act.call == s.call
  {
    hide RetryStep;
    CallPhases(loop, cfg, s, e);
    SendingSends(loop, cfg, s, e);
  }

  lemma SendingSends(loop: Loop, cfg: Config, s: RetryState, e: Event)
    requires RetryStep(loop, cfg, s, e).Some? && e.act.CallSent? && s.phase.Sending?
    ensures e.act.call == s.call
  {
    hide RetryDispatch;
  }

  function Learned(route: Option<Route>, act: Act): Option<Route>
  {
    match act case RouteAnswered(_, Success(r)) => Some(r) case _ => route
  }

  // The call a loop holds goes by the last route it was answered.
  lemma StepLearns(loop: Loop, cfg: Config, s: RetryState, body: string, route: Option<Route>, e: Event)
    requires SendsRight(body, route, s.call) && RetryStep(loop, cfg, s, e).Some?
    ensures var t := RetryStep(loop, cfg, s, e).value; t.phase.Done? || SendsRight(body, Learned(route, e.act), t.call)
  {
    hide RouteStep, NapStep, RetryDispatch, Hint, Current;
    var t := s.(now := e.at);
    DispatchRing(loop, cfg, t, Failure(Deadline));
    match s.phase {
      case Dialing =>
        if e.act.ConnectFailed? {
          DispatchRing(loop, cfg, Dialed(t), Failure(e.act.error));
        }
      case Awaiting =>
        if e.act.CallAnswered? {
          DispatchRing(loop, cfg, t, e.act.reply);
        }
      case Refreshing(until, r) => RouteActs(cfg, r, e, until);
      case Resting(nap) => NapActs(nap, e, s.expires);
      case _ =>
    }
  }

  lemma {:induction false} RunSendsOnly(loop: Loop, cfg: Config, call: Call, route: Option<Route>, lead: Option<Endpoint>,
                                        s: RetryState, events: seq<Event>)
    requires Starts(loop, cfg, call, lead, s) && RetryRun(loop, cfg, s, events).Some?
    requires GoesBy(call.routeGroup, call.routeRevision, route)
    ensures SendsOnly(call.body, route, events)
    ensures var t := RetryRun(loop, cfg, s, events).value; t.phase.Done? || SendsRight(call.body, LastRoute(route, events), t.call)
  {
    hide RetryStep, SendsRight;
    if events == [] {
      FirstCall(loop, cfg, call, route, lead, s);
    } else {
      var front, e := events[..|events| - 1], events[|events| - 1];
      RunSendsOnly(loop, cfg, call, route, lead, s, front);
      var before := RetryRun(loop, cfg, s, front).value;
      RetryGoesOn(loop, cfg, before, e);
      StepLearns(loop, cfg, before, call.body, LastRoute(route, front), e);
      assert LastRoute(route, events) == Learned(LastRoute(route, front), e.act);
      if e.act.CallSent? {
        StepSends(loop, cfg, before, e);
      }
      forall i | 0 <= i < |events| && events[i].act.CallSent?
        ensures SendsRight(call.body, LastRoute(route, events[..i]), events[i].act.call)
      {
        assert i < |front| ==> events[i] == front[i] && events[..i] == front[..i];
        assert events[..|front|] == front;
      }
    }
  }

  lemma FirstCall(loop: Loop, cfg: Config, call: Call, route: Option<Route>, lead: Option<Endpoint>, s: RetryState)
    requires Starts(loop, cfg, call, lead, s) && GoesBy(call.routeGroup, call.routeRevision, route)
    ensures s.phase.Done? || SendsRight(call.body, route, s.call)
  {
    hide Hint;
  }

  lemma RetryGoesOn(loop: Loop, cfg: Config, s: RetryState, e: Event)
    requires RetryStep(loop, cfg, s, e).Some?
    ensures !s.phase.Done?
  {
    hide StepDialing, StepCall, RouteStep, NapStep;
  }

  // ---- The attempt budget ------------------------------------------------------------------

  // A pause that ends before the deadline lasts the full 25 ms.
  ghost predicate NapSpent(start: nat, s: RetryState, n: nat, nap: Nap)
  {
    match nap
    case Due => true
    case Asleep(since) => start + PAUSE * n <= since + PAUSE && since < s.expires
    case Awake => start + PAUSE * n <= s.now || s.expires <= s.now
  }

  /** Between two attempts of a loop lies a pause of 25 ms that ends before the deadline. */
  ghost predicate Spent(start: nat, s: RetryState, n: nat)
  {
    match s.phase
    case Top => start + PAUSE * n <= s.now && (n > 0 ==> start + PAUSE * n < s.expires)
    case Dialing => start + PAUSE * n <= s.now && (n > 0 ==> start + PAUSE * n < s.expires)
    case Done(_) => n > 1 ==> start + PAUSE * (n - 1) < s.expires
    case Resting(nap) =>
      n > 0 && start + PAUSE * (n - 1) <= s.now && (n > 1 ==> start + PAUSE * (n - 1) < s.expires) && NapSpent(start, s, n, nap)
    case _ => n > 0 && start + PAUSE * (n - 1) <= s.now && (n > 1 ==> start + PAUSE * (n - 1) < s.expires)
  }

  lemma HistoryLength(h: seq<Try>, act: Act)
    ensures |History(h, act)| == |h| + if act.Connected? || act.ConnectFailed? then 1 else 0
  {
  }

  // What Dispatch leaves to be done, with the deadline and the clock as they were.
  lemma DispatchRests(loop: Loop, cfg: Config, s: RetryState, reply: Answer<()>)
    ensures var t := RetryDispatch(loop, cfg, s, reply);
      t.phase.Done? || t.phase == Resting(Due) || t.phase.Opening? || t.phase.Refreshing?
  {
    hide Hint;
  }

  lemma DialingSpends(loop: Loop, cfg: Config, start: nat, s: RetryState, n: nat, e: Event)
    requires s.phase.Dialing? && Spent(start, s, n) && StepDialing(loop, cfg, s, e).Some?
    ensures (e.act.Connected? || e.act.ConnectFailed?) && Spent(start, StepDialing(loop, cfg, s, e).value, n + 1)
  {
    hide RetryDispatch, Current, ConnectError;
    if e.act.ConnectFailed? {
      DispatchRests(loop, cfg, Dialed(s), Failure(e.act.error));
    }
  }

  lemma CallSpends(loop: Loop, cfg: Config, start: nat, s: RetryState, n: nat, e: Event)
    requires (s.phase.Timing? || s.phase.Sending? || s.phase.Awaiting?) && Spent(start, s, n) && StepCall(loop, cfg, s, e).Some?
    ensures !e.act.Connected? && !e.act.ConnectFailed? && Spent(start, StepCall(loop, cfg, s, e).value, n)
  {
    hide RetryDispatch;
    DispatchRests(loop, cfg, s, Failure(Deadline));
    if e.act.CallAnswered? {
      DispatchRests(loop, cfg, s, e.act.reply);
    }
  }

  lemma RefreshingSpends(cfg: Config, start: nat, s: RetryState, n: nat, e: Event)
    requires s.phase.Refreshing? && Spent(start, s, n) && RouteStep(cfg, s.phase.route, e, s.phase.until).Some?
    requires Refreshed(cfg, s, s.phase.until, RouteStep(cfg, s.phase.route, e, s.phase.until).value).Some?
    ensures Spent(start, Refreshed(cfg, s, s.phase.until, RouteStep(cfg, s.phase.route, e, s.phase.until).value).value, n)
  {
    hide RouteStep, Hint;
  }

  lemma RestingSpends(loop: Loop, start: nat, s: RetryState, n: nat, e: Event)
    requires s.phase.Resting? && s.now == e.at && Spent(start, s, n) && NapStep(s.phase.nap, e, s.expires).Some?
    requires RetryNapped(loop, s, NapStep(s.phase.nap, e, s.expires).value).Some?
    ensures Spent(start, RetryNapped(loop, s, NapStep(s.phase.nap, e, s.expires).value).value, n)
  {
  }

  lemma TimeSpends(start: nat, s: RetryState, n: nat, at: nat)
    requires Spent(start, s, n) && s.now <= at
    ensures Spent(start, s.(now := at), n)
  {
  }

  lemma StepSpends(loop: Loop, cfg: Config, start: nat, s: RetryState, h: seq<Try>, e: Event)
    requires Spent(start, s, |h|) && RetryStep(loop, cfg, s, e).Some?
    ensures Spent(start, RetryStep(loop, cfg, s, e).value, |History(h, e.act)|)
  {
    hide StepDialing, StepCall, RouteStep, NapStep, Refreshed, RetryNapped, History, NapSpent;
    var t := s.(now := e.at);
    TimeSpends(start, s, |h|, e.at);
    HistoryLength(h, e.act);
    match s.phase {
      case Dialing => DialingSpends(loop, cfg, start, t, |h|, e);
      case Timing(_) => CallSpends(loop, cfg, start, t, |h|, e);
      case Sending(_) => CallSpends(loop, cfg, start, t, |h|, e);
      case Awaiting => CallSpends(loop, cfg, start, t, |h|, e);
      case Refreshing(until, r) =>
        RouteActs(cfg, r, e, until);
        RefreshingSpends(cfg, start, t, |h|, e);
      case Resting(nap) =>
        NapActs(nap, e, s.expires);
        RestingSpends(loop, start, t, |h|, e);
      case _ =>
    }
  }

  lemma {:induction false} RunSpends(loop: Loop, cfg: Config, call: Call, lead: Option<Endpoint>, s: RetryState, events: seq<Event>)
    requires Starts(loop, cfg, call, lead, s) && RetryRun(loop, cfg, s, events).Some?
    ensures Spent(s.now, RetryRun(loop, cfg, s, events).value, |TriesIn(events)|)
    ensures RetryRun(loop, cfg, s, events).value.expires == s.expires
  {
    hide RetryStep, Spent, History;
    if events == [] {
      SpendsNothing(loop, cfg, call, lead, s);
    } else {
      var front, e := events[..|events| - 1], events[|events| - 1];
      RunSpends(loop, cfg, call, lead, s, front);
      StepSpends(loop, cfg, s.now, RetryRun(loop, cfg, s, front).value, TriesIn(front), e);
      CallPhases(loop, cfg, RetryRun(loop, cfg, s, front).value, e);
    }
  }

  lemma SpendsNothing(loop: Loop, cfg: Config, call: Call, lead: Option<Endpoint>, s: RetryState)
    requires Starts(loop, cfg, call, lead, s)
    ensures Spent(s.now, s, 0)
  {
    hide Hint;
  }

  // A loop whose deadline has passed already still makes its first attempt, unless it checks first.
  function MostTries(now: nat, expires: nat): nat { if now < expires then PausesIn(expires - now) else 1 }

  /** With d nanoseconds to its deadline every loop makes at most ceil(d / 25 ms) attempts, however long the
      route refreshes between them take. */
  lemma RunInBudget(loop: Loop, cfg: Config, call: Call, lead: Option<Endpoint>, s: RetryState, events: seq<Event>)
    requires Starts(loop, cfg, call, lead, s) && RetryRun(loop, cfg, s, events).Some?
    ensures |TriesIn(events)| <= MostTries(s.now, s.expires)
  {
    hide RetryRun, TriesIn;
    RunSpends(loop, cfg, call, lead, s, events);
    var n := |TriesIn(events)|;
    SpentBefore(s.now, RetryRun(loop, cfg, s, events).value, n);
    if n > 1 {
      var k := PausesIn(s.expires - s.now);
      assert PAUSE * (n - 1) < PAUSE * k;
      assert n - 1 < k;
    }
  }

  lemma SpentBefore(start: nat, s: RetryState, n: nat)
    requires Spent(start, s, n)
    ensures n > 1 ==> start + PAUSE * (n - 1) < s.expires
  {
  }

  // ---- Ambiguity without a copy ------------------------------------------------------------

  ghost predicate AnyConnected(events: seq<Event>) { exists i :: 0 <= i < |events| && events[i].act.Connected? }
  ghost predicate AnySent(events: seq<Event>) { exists i :: 0 <= i < |events| && events[i].act.CallSent? }

  /** The log ends with the first connection ever made, and a clock read at or after the deadline before
      anything could be sent over it. */
  ghost predicate ConnectedTooLate(events: seq<Event>, expires: nat)
  {
    var n := |events|;
    n >= 2 && events[n - 2].act.Connected? && events[n - 1].act.Clock? && events[n - 1].at >= expires
    && !AnyConnected(events[..n - 2])
  }

  lemma AnyGrows(events: seq<Event>, e: Event)
    ensures AnyConnected(events + [e]) == (AnyConnected(events) || e.act.Connected?)
    ensures AnySent(events + [e]) == (AnySent(events) || e.act.CallSent?)
  {
    var g := events + [e];
    assert g[|events|] == e;
    assert forall i :: 0 <= i < |events| ==> g[i] == events[i];
    if AnyConnected(events) {
      var i :| 0 <= i < |events| && events[i].act.Connected?;
      assert g[i].act.Connected?;
    }
    if AnySent(events) {
      var i :| 0 <= i < |events| && events[i].act.CallSent?;
      assert g[i].act.CallSent?;
    }
  }

  /** A replay mutation, as long as nothing has been sent. */
  ghost predicate NothingSent(events: seq<Event>, s: RetryState)
  {
    match s.phase
    case Timing(_) => s.flag && events != [] && events[|events| - 1].act.Connected? && !AnyConnected(events[..|events| - 1])
    case Sending(_) => AnyConnected(events)
    case Awaiting => false
    case Done(report) => report == TimedOut(AmbiguousCommit) <==> ConnectedTooLate(events, s.expires)
    case _ => !s.flag && !AnyConnected(events)
  }

  lemma StepNothingSent(cfg: Config, front: seq<Event>, s: RetryState, e: Event)
    requires NothingSent(front, s) && RetryStep(Replay, cfg, s, e).Some? && !e.act.CallSent?
    ensures NothingSent(front + [e], RetryStep(Replay, cfg, s, e).value)
  {
    hide RouteAnswer, Hint, AnyConnected, Current;
    AnyGrows(front, e);
    var events := front + [e];
    assert events[..|events| - 1] == front;
    if front != [] {
      assert events[..|events| - 2] == front[..|front| - 1];
      AnyGrows(front[..|front| - 1], front[|front| - 1]);
      assert front[..|front| - 1] + [front[|front| - 1]] == front;
    }
  }

  lemma NothingYet()
    ensures !AnyConnected([]) && !AnySent([])
  {
  }

  lemma {:induction false} RunNothingSent(cfg: Config, call: Call, lead: Option<Endpoint>, s: RetryState, events: seq<Event>)
    requires Starts(Replay, cfg, call, lead, s) && RetryRun(Replay, cfg, s, events).Some? && !AnySent(events)
    ensures NothingSent(events, RetryRun(Replay, cfg, s, events).value)
  {
    hide RetryStep, AnyConnected, AnySent;
    if events == [] {
      NothingYet();
    } else {
      var front, e := events[..|events| - 1], events[|events| - 1];
      assert front + [e] == events;
      AnyGrows(front, e);
      RunNothingSent(cfg, call, lead, s, front);
      StepNothingSent(cfg, front, RetryRun(Replay, cfg, s, front).value, e);
    }
  }

  // Nothing is sent before something connected, and the deadline of a run is the one it began with.
  lemma {:induction false} SentAfterConnected(cfg: Config, s: RetryState, events: seq<Event>)
    requires RetryRun(Replay, cfg, s, events).Some? && (s.phase.Top? || s.phase.Done?)
    ensures var t := RetryRun(Replay, cfg, s, events).value;
      && (AnySent(events) || t.phase.Timing? || t.phase.Sending? || t.phase.Awaiting? ==> AnyConnected(events))
      && t.expires == s.expires
  {
    hide RetryStep, AnyConnected, AnySent;
    if events == [] {
      NothingYet();
    } else {
      var front, e := events[..|events| - 1], events[|events| - 1];
      assert front + [e] == events;
      AnyGrows(front, e);
      SentAfterConnected(cfg, s, front);
      CallPhases(Replay, cfg, RetryRun(Replay, cfg, s, front).value, e);
    }
  }

  lemma {:induction false} RunPrefix(loop: Loop, cfg: Config, s: RetryState, events: seq<Event>, n: nat)
    requires RetryRun(loop, cfg, s, events).Some? && n <= |events|
    ensures RetryRun(loop, cfg, s, events[..n]).Some?
  {
    hide RetryStep;
    if n < |events| {
      RunPrefix(loop, cfg, s, events[..|events| - 1], n);
      assert events[..|events| - 1][..n] == events[..n];
    } else {
      assert events[..n] == events;
    }
  }

  /** A replay mutation raises its flag before it knows that it can still send.  It reports AmbiguousCommit
      with nothing sent exactly when its last attempt was the first to connect and found the deadline
      passed before sending. */
  lemma ReplayAmbiguousUnsent(cfg: Config, call: Call, lead: Option<Endpoint>, s: RetryState, events: seq<Event>, report: Report)
    requires Starts(Replay, cfg, call, lead, s) && RetryEnds(Replay, cfg, s, events, report)
    ensures report == TimedOut(AmbiguousCommit) && !AnySent(events) <==> ConnectedTooLate(events, s.expires)
  {
    hide RetryRun, AnyConnected, AnySent;
    SentAfterConnected(cfg, s, events);
    if ConnectedTooLate(events, s.expires) {
      var n := |events|;
      RunPrefix(Replay, cfg, s, events, n - 2);
      SentAfterConnected(cfg, s, events[..n - 2]);
      assert events[..n - 2] + [events[n - 2]] == events[..n - 1];
      AnyGrows(events[..n - 2], events[n - 2]);
      assert events[..n - 1] + [events[n - 1]] == events;
      AnyGrows(events[..n - 1], events[n - 1]);
    }
    if !AnySent(events) {
      RunNothingSent(cfg, call, lead, s, events);
    }
  }

  /** And such runs exist: connecting takes until the deadline. */
  lemma ReplayAmbiguousUnsentHappens(cfg: Config, call: Call, now: nat, expires: nat) returns (events: seq<Event>)
    requires cfg.Ok() && now < expires
    ensures RetryEnds(Replay, cfg, RetryInitial(Replay, cfg, call, None, now, expires), events, TimedOut(AmbiguousCommit))
    ensures !AnySent(events)
  {
    var s := RetryInitial(Replay, cfg, call, None, now, expires);
    var a, b, c := Event(now, Clock), Event(now, Connected(cfg.seeds[0])), Event(expires, Clock);
    events := [a, b, c];
    assert events[..2] == [a, b] && [a, b][..1] == [a] && [a][..0] == [];
    assert RetryRun(Replay, cfg, s, [a]) == RetryStep(Replay, cfg, s, a);
    assert RetryRun(Replay, cfg, s, [a, b]) == RetryStep(Replay, cfg, RetryStep(Replay, cfg, s, a).value, b);
  }
}
