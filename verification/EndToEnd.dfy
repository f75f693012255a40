/** The publish loop together with a network that loses and delays and servers that commit or refuse.
    The client's certainty is compared with what the servers actually hold. */
module EndToEnd {
  import opened Options
  import opened Bytes
  import opened Endpoints
  import opened Protocol
  import opened PublishMachine
  import opened PublishCertainty
  import opened PublishRuns
  import opened PublishLogs
  import opened PublishReceipts

  /** One committed batch in the partition's log. */
  datatype Entry = Entry(request: RequestId, records: seq<seq<Byte>>, bookmark: string)

  /** What has become of the copy an attempt sent.  A copy in flight may be committed at any time,
      long after the client has given up on it; a refused copy never is. */
  datatype Copy = Unsent | InFlight | Refused | Committed(receipt: Receipt)

  datatype World = World(client: State, copies: seq<Copy>, log: seq<Entry>)

  datatype Happening =
    | ClientDoes(e: Event)
    | ServerCommits(copy: nat)
    | ServerRefuses(copy: nat)
    | OthersAppend(entry: Entry)

  function EntryOf(w: WireRequest): Entry { Entry(w.request, w.records, w.bookmark) }

  function ReceiptAt(log: seq<Entry>, i: nat): Receipt
    requires i < |log|
  {
    Receipt(log[i].request, i, |log[i].records|)
  }

  /** The receipt is the receipt of a committed entry. */
  predicate Genuine(log: seq<Entry>, receipt: Receipt)
  {
    receipt.first < |log| && receipt == ReceiptAt(log, receipt.first)
  }

  function Find(log: seq<Entry>, request: RequestId): (i: Option<nat>)
    ensures i.Some? ==> i.value < |log| && log[i.value].request == request
    ensures i.None? <==> forall j :: 0 <= j < |log| ==> log[j].request != request
  {
    if log == [] then None
    else if log[|log| - 1].request == request then Some(|log| - 1)
    else Find(log[..|log| - 1], request)
  }

  // ---- The environment ---------------------------------------------------------------------

  // A server refuses only what it has refused, and acknowledges only what it has committed.
  // Any other answer, and silence, can come at any time.
  predicate AnswerAllowed(copy: Copy, answer: Answer<Receipt>)
  {
    && (Refusal(answer) ==> copy == Refused)
    && (answer.Success? ==> copy == Committed(answer.value))
  }

  predicate Allowed(w: World, act: Act)
  {
    match act
    case Answered(answer) => w.copies != [] && AnswerAllowed(w.copies[|w.copies| - 1], answer)
    case ReceiptAnswered(_, lookup, Success(receipt)) => receipt.request == lookup.request && Genuine(w.log, receipt)
    case _ => true
  }

  function CopiesAfter(copies: seq<Copy>, before: State, after: State, act: Act): seq<Copy>
  {
    if |after.attempts| > |before.attempts| then copies + [Unsent]
    else if act.Sent? && copies != [] then copies[|copies| - 1 := InFlight]
    else copies
  }

  function Commit(w: World, copy: nat): World
    requires copy < |w.copies| && copy < |w.client.attempts|
  {
    var entry := EntryOf(w.client.attempts[copy].request);
    match Find(w.log, entry.request)
    case Some(i) => w.(copies := w.copies[copy := Committed(ReceiptAt(w.log, i))])
    case None =>
      var log := w.log + [entry];
      w.(log := log, copies := w.copies[copy := Committed(ReceiptAt(log, |w.log|))])
  }

  /** One thing happening; None when it cannot.  Other producers use other request ids. */
  function Happen(cfg: Config, batch: Batch, w: World, h: Happening): Option<World>
  {
    match h
    case ClientDoes(e) =>
      if !Allowed(w, e.act) then None
      else (match Step(cfg, w.client, e)
            case None => None
            case Some(client) => Some(World(client, CopiesAfter(w.copies, w.client, client, e.act), w.log)))
    case ServerCommits(k) =>
      if k < |w.copies| && k < |w.client.attempts| && w.copies[k] == InFlight then Some(Commit(w, k)) else None
    case ServerRefuses(k) =>
      if k < |w.copies| && w.copies[k] == InFlight then Some(w.(copies := w.copies[k := Refused])) else None
    case OthersAppend(entry) =>
      if entry.request != batch.request then Some(w.(log := w.log + [entry])) else None
  }

  ghost function History(cfg: Config, batch: Batch, w: World, hs: seq<Happening>): Option<World>
  {
    if hs == [] then Some(w)
    else match History(cfg, batch, w, hs[..|hs| - 1])
      case None => None
      case Some(w') => Happen(cfg, batch, w', hs[|hs| - 1])
  }

  /** Before the run: nothing sent, and the batch is not in the log. */
  ghost predicate Fresh(cfg: Config, batch: Batch, route: Option<Route>, w: World)
  {
    From(cfg, batch, route, w.client) && w.copies == [] && Absent(batch, w.log)
  }

  ghost predicate Absent(batch: Batch, log: seq<Entry>)
  {
    forall i :: 0 <= i < |log| ==> log[i].request != batch.request
  }

  // ---- What every history keeps --------------------------------------------------------------

  ghost predicate CopyOk(attempt: Attempt, copy: Copy, batch: Batch, log: seq<Entry>)
  {
    && (copy == Unsent <==> !attempt.sent)
    && (attempt.answer.Some? ==> attempt.sent && AnswerAllowed(copy, attempt.answer.value))
    && (copy.Committed? ==> Holds(log, batch, copy.receipt))
  }

  /** The receipt is genuine and its entry is the batch. */
  ghost predicate Holds(log: seq<Entry>, batch: Batch, receipt: Receipt)
  {
    && Genuine(log, receipt)
    && log[receipt.first] == Entry(batch.request, batch.records, if batch.bookmark.Some? then batch.bookmark.value else "")
  }

  ghost predicate CopiesOk(batch: Batch, w: World)
  {
    && |w.copies| == |w.client.attempts|
    && (forall i :: 0 <= i < |w.copies| ==> CopyOk(w.client.attempts[i], w.copies[i], batch, w.log))
  }

  ghost predicate LogOk(batch: Batch, w: World)
  {
    && (forall i, j :: 0 <= i < j < |w.log| && w.log[i].request == batch.request ==> w.log[j].request != batch.request)
    && (forall i :: 0 <= i < |w.log| && w.log[i].request == batch.request ==> Holds(w.log, batch, ReceiptAt(w.log, i)))
    && (!Absent(batch, w.log) ==> exists i :: 0 <= i < |w.copies| && w.copies[i].Committed?)
  }

  ghost predicate WorldOk(batch: Batch, w: World)
  {
    && FlagExact(w.client) && Underway(w.client) && SameBatch(batch, w.client)
    && CopiesOk(batch, w) && LogOk(batch, w)
    && (Succeeded(w.client) ==> Holds(w.log, batch, w.client.phase.result.receipt))
  }

  // ---- Server steps ------------------------------------------------------------------------

  lemma HoldsGrows(log: seq<Entry>, batch: Batch, receipt: Receipt, entry: Entry)
    requires Holds(log, batch, receipt)
    ensures Holds(log + [entry], batch, receipt)
  {
  }

  // A log that grows by another producer's entry or, once, by the batch.
  lemma AppendKeeps(batch: Batch, w: World, entry: Entry, w': World)
    requires CopiesOk(batch, w) && LogOk(batch, w) && w' == w.(log := w.log + [entry])
    requires entry.request != batch.request
    ensures CopiesOk(batch, w') && LogOk(batch, w')
  {
    forall i | 0 <= i < |w.copies|
      ensures CopyOk(w.client.attempts[i], w.copies[i], batch, w'.log)
    {
      if w.copies[i].Committed? {
        HoldsGrows(w.log, batch, w.copies[i].receipt, entry);
      }
    }
    forall i | 0 <= i < |w'.log| && w'.log[i].request == batch.request
      ensures Holds(w'.log, batch, ReceiptAt(w'.log, i))
    {
      HoldsGrows(w.log, batch, ReceiptAt(w.log, i), entry);
    }
    if Absent(batch, w.log) {
      assert Absent(batch, w'.log);
    }
  }

  // What commits is the batch: every copy carries it.
  lemma CommitsTheBatch(batch: Batch, w: WireRequest)
    requires Carries(w, batch)
    ensures EntryOf(w) == Entry(batch.request, batch.records, if batch.bookmark.Some? then batch.bookmark.value else "")
    ensures w.request == batch.request
  {
  }

  lemma CommitKeeps(batch: Batch, w: World, k: nat)
    requires SameBatch(batch, w.client) && CopiesOk(batch, w) && LogOk(batch, w)
    requires k < |w.copies| && w.copies[k] == InFlight
    ensures CopiesOk(batch, Commit(w, k)) && LogOk(batch, Commit(w, k))
    ensures w.log <= Commit(w, k).log
  {
    hide Carries;
    var w' := Commit(w, k);
    var entry := EntryOf(w.client.attempts[k].request);
    CommitsTheBatch(batch, w.client.attempts[k].request);
    assert w'.copies[k].Committed?;
    assert Holds(w'.log, batch, w'.copies[k].receipt);
    forall i | 0 <= i < |w.copies|
      ensures CopyOk(w.client.attempts[i], w'.copies[i], batch, w'.log)
    {
      if i != k && w.copies[i].Committed? {
        HoldsGrows(w.log, batch, w.copies[i].receipt, entry);
      }
    }
    forall i | 0 <= i < |w'.log| && w'.log[i].request == batch.request
      ensures Holds(w'.log, batch, ReceiptAt(w'.log, i))
    {
      if i < |w.log| {
        HoldsGrows(w.log, batch, ReceiptAt(w.log, i), entry);
      }
    }
  }

  // ---- Client steps ------------------------------------------------------------------------

  lemma CopiesKeep(cfg: Config, batch: Batch, w: World, e: Event)
    requires FlagExact(w.client) && Underway(w.client) && CopiesOk(batch, w) && Allowed(w, e.act) && Step(cfg, w.client, e).Some?
    ensures var client := Step(cfg, w.client, e).value;
      CopiesOk(batch, World(client, CopiesAfter(w.copies, w.client, client, e.act), w.log))
    ensures var client := Step(cfg, w.client, e).value;
      forall i :: 0 <= i < |w.copies| && w.copies[i].Committed? ==> CopiesAfter(w.copies, w.client, client, e.act)[i] == w.copies[i]
  {
    hide Step, FlagExact, Underway, Holds, Refusal;
    StepAttempts(cfg, w.client, e);
    var client := Step(cfg, w.client, e).value;
    var copies := CopiesAfter(w.copies, w.client, client, e.act);
    forall i | 0 <= i < |copies|
      ensures CopyOk(client.attempts[i], copies[i], batch, w.log)
    {
      if i < |w.copies| {
        assert CopyOk(w.client.attempts[i], w.copies[i], batch, w.log);
      }
    }
  }

  predicate Succeeded(s: State) { s.phase.Done? && s.phase.result.Ok? }

  lemma DispatchSucceeds(cfg: Config, s: State, answer: Answer<Receipt>)
    requires Succeeded(Dispatch(cfg, s, answer)) && !s.phase.Done?
    ensures answer == Success(Dispatch(cfg, s, answer).phase.result.receipt)
  {
    hide Hint;
  }

  lemma RoutingDoesNotSucceed(cfg: Config, s: State, e: Event)
    requires s.phase.Routing? && StepRouting(cfg, s, s.phase.first, s.phase.route, e).Some?
    ensures !Succeeded(StepRouting(cfg, s, s.phase.first, s.phase.route, e).value)
  {
    hide RouteStep, Hint;
  }

  lemma ConnectingDoesNotSucceed(cfg: Config, s: State, e: Event)
    requires s.phase.Connecting? && StepConnecting(cfg, s, s.phase.stage, e).Some?
    ensures !Succeeded(StepConnecting(cfg, s, s.phase.stage, e).value)
  {
    hide Dispatch;
    if Succeeded(Dispatch(cfg, s, Failure(Deadline))) {
      DispatchSucceeds(cfg, s, Failure(Deadline));
    }
    if e.act.ConnectFailed? && Succeeded(Dispatch(cfg, s, Failure(e.act.error))) {
      DispatchSucceeds(cfg, s, Failure(e.act.error));
    }
  }

  lemma AwaitingSucceeds(cfg: Config, s: State, e: Event)
    requires s.phase.Awaiting? && StepAwaiting(cfg, s, e).Some? && Succeeded(StepAwaiting(cfg, s, e).value)
    ensures e.act == Answered(Success(StepAwaiting(cfg, s, e).value.phase.result.receipt))
  {
    hide Dispatch;
    if e.act.Answered? {
      DispatchSucceeds(cfg, Last(s, true, Some(e.act.answer)), e.act.answer);
    }
  }

  lemma LookupSucceeds(cfg: Config, l: Lookup, e: Event, expires: nat)
    requires LookupStep(cfg, l, e, expires).Some? && LookupStep(cfg, l, e, expires).value.Found?
    ensures e.act.ReceiptAnswered? && e.act.lookup == l.request
    ensures e.act.receipt == Success(LookupStep(cfg, l, e, expires).value.receipt)
  {
    hide RouteStep, NapStep, Hint, Current;
  }

  /** Success reaches the client only through an answer or a lookup. */
  lemma OkComesFromAServer(cfg: Config, s: State, e: Event)
    requires Step(cfg, s, e).Some? && Succeeded(Step(cfg, s, e).value)
    ensures var receipt := Step(cfg, s, e).value.phase.result.receipt;
      e.act == Answered(Success(receipt))
      || (s.phase.LookingUp? && e.act.ReceiptAnswered? && e.act.lookup == s.phase.lookup.request && e.act.receipt == Success(receipt))
  {
    hide StepRouting, StepConnecting, StepAwaiting, LookupStep, NapStep, Current;
    var t := s.(now := e.at);
    match s.phase {
      case Routing(_, _) => RoutingDoesNotSucceed(cfg, t, e);
      case Connecting(_) => ConnectingDoesNotSucceed(cfg, t, e);
      case Awaiting => AwaitingSucceeds(cfg, t, e);
      case LookingUp(_, l) =>
        if LookupStep(cfg, l, e, s.expires).value.Found? {
          LookupSucceeds(cfg, l, e, s.expires);
        }
      case _ =>
    }
  }

  lemma ClientKeeps(cfg: Config, batch: Batch, w: World, e: Event)
    requires WorldOk(batch, w) && Happen(cfg, batch, w, ClientDoes(e)).Some?
    ensures WorldOk(batch, Happen(cfg, batch, w, ClientDoes(e)).value)
  {
    hide Step, FlagExact, SameBatch, Refusal, Holds, Genuine;
    var w' := Happen(cfg, batch, w, ClientDoes(e)).value;
    StepExact(cfg, w.client, e);
    StepSameBatch(cfg, batch, w.client, e);
    CopiesKeep(cfg, batch, w, e);
    StepAttempts(cfg, w.client, e);
    if !Absent(batch, w.log) {
      var i :| 0 <= i < |w.copies| && w.copies[i].Committed?;
      assert w'.copies[i].Committed?;
    }
    if Succeeded(w'.client) {
      OkComesFromAServer(cfg, w.client, e);
      var receipt := w'.client.phase.result.receipt;
      if e.act.Answered? {
        assert CopyOk(w'.client.attempts[|w.copies| - 1], w'.copies[|w.copies| - 1], batch, w.log);
      } else {
        assert receipt.request == batch.request by { LookupAsksForTheBatch(batch, w.client); }
        GenuineHolds(batch, w, receipt);
      }
    }
  }

  lemma LookupAsksForTheBatch(batch: Batch, s: State)
    requires SameBatch(batch, s) && s.phase.LookingUp?
    ensures s.phase.lookup.request.request == batch.request
  {
  }

  lemma GenuineHolds(batch: Batch, w: World, receipt: Receipt)
    requires LogOk(batch, w) && Genuine(w.log, receipt) && receipt.request == batch.request
    ensures Holds(w.log, batch, receipt)
  {
    assert w.log[receipt.first].request == batch.request;
  }

  lemma HappenKeeps(cfg: Config, batch: Batch, w: World, h: Happening)
    requires WorldOk(batch, w) && Happen(cfg, batch, w, h).Some?
    ensures WorldOk(batch, Happen(cfg, batch, w, h).value)
  {
    hide Step, FlagExact, SameBatch, Refusal, Commit;
    var w' := Happen(cfg, batch, w, h).value;
    match h {
      case ClientDoes(e) => ClientKeeps(cfg, batch, w, e);
      case ServerCommits(k) =>
        CommitKeeps(batch, w, k);
        CommitLeavesClient(w, k);
      case ServerRefuses(k) =>
        RefuseKeeps(batch, w, k);
      case OthersAppend(entry) =>
        AppendKeeps(batch, w, entry, w');
    }
  }

  lemma CommitLeavesClient(w: World, k: nat)
    requires k < |w.copies| && k < |w.client.attempts|
    ensures Commit(w, k).client == w.client
  {
  }

  lemma RefuseKeeps(batch: Batch, w: World, k: nat)
    requires CopiesOk(batch, w) && LogOk(batch, w) && k < |w.copies| && w.copies[k] == InFlight
    ensures CopiesOk(batch, w.(copies := w.copies[k := Refused])) && LogOk(batch, w.(copies := w.copies[k := Refused]))
  {
    hide Holds, Refusal;
    var w' := w.(copies := w.copies[k := Refused]);
    forall i | 0 <= i < |w.copies|
      ensures CopyOk(w.client.attempts[i], w'.copies[i], batch, w.log)
    {
      assert CopyOk(w.client.attempts[i], w.copies[i], batch, w.log);
    }
    if !Absent(batch, w.log) {
      var i :| 0 <= i < |w.copies| && w.copies[i].Committed?;
      assert w'.copies[i].Committed?;
    }
  }

  /** Every reachable world. */
  lemma {:induction false} HistoryKeeps(cfg: Config, batch: Batch, route: Option<Route>, w: World, hs: seq<Happening>)
    requires Fresh(cfg, batch, route, w) && History(cfg, batch, w, hs).Some?
    ensures WorldOk(batch, History(cfg, batch, w, hs).value)
  {
    hide Happen;
    if hs == [] {
      RunExact(cfg, batch, route, w.client.start, w.client.now, w.client.expires, []);
      RunSameBatch(cfg, batch, route, w.client, []);
      RunDeliveries(cfg, batch, route, w.client, []);
    } else {
      HistoryKeeps(cfg, batch, route, w, hs[..|hs| - 1]);
      HappenKeeps(cfg, batch, History(cfg, batch, w, hs[..|hs| - 1]).value, hs[|hs| - 1]);
    }
  }

  // ---- What the outcomes mean --------------------------------------------------------------

  ghost predicate Reports(w: World, outcome: Outcome)
  {
    w.client.phase.Done? && w.client.phase.result.Err?
    && w.client.phase.result.error.Interrupted? && w.client.phase.result.error.outcome == outcome
  }

  // A finished client does nothing more, whatever the servers do.
  lemma {:induction false} AfterwardsKeeps(cfg: Config, batch: Batch, w: World, more: seq<Happening>)
    requires WorldOk(batch, w) && History(cfg, batch, w, more).Some?
    ensures WorldOk(batch, History(cfg, batch, w, more).value)
    ensures w.client.phase.Done? ==> History(cfg, batch, w, more).value.client == w.client
  {
    hide WorldOk;
    if more != [] {
      AfterwardsKeeps(cfg, batch, w, more[..|more| - 1]);
      HappenKeeps(cfg, batch, History(cfg, batch, w, more[..|more| - 1]).value, more[|more| - 1]);
    }
  }

  lemma NothingLeftOpen(batch: Batch, w: World)
    requires WorldOk(batch, w) && Reports(w, DefiniteNoCommit)
    ensures Absent(batch, w.log)
  {
    hide Holds;
    forall i | 0 <= i < |w.copies|
      ensures !w.copies[i].Committed?
    {
      assert !w.client.attempts[i].Unrefuted();
      assert CopyOk(w.client.attempts[i], w.copies[i], batch, w.log);
    }
  }

  /** DefiniteNoCommit is the truth for good: once the client has reported it, the batch is in no later
      log, however late the network delivers and whatever the servers do. */
  lemma DefiniteMeansNever(cfg: Config, batch: Batch, route: Option<Route>, w: World, hs: seq<Happening>, more: seq<Happening>)
    requires Fresh(cfg, batch, route, w) && History(cfg, batch, w, hs).Some?
    requires Reports(History(cfg, batch, w, hs).value, DefiniteNoCommit)
    requires History(cfg, batch, History(cfg, batch, w, hs).value, more).Some?
    ensures Absent(batch, History(cfg, batch, History(cfg, batch, w, hs).value, more).value.log)
  {
    hide History, WorldOk;
    HistoryKeeps(cfg, batch, route, w, hs);
    AfterwardsKeeps(cfg, batch, History(cfg, batch, w, hs).value, more);
    NothingLeftOpen(batch, History(cfg, batch, History(cfg, batch, w, hs).value, more).value);
  }

  /** Any number of retries adds the batch at most once, as the records it was given; a receipt the
      client returns is the receipt of that one entry. */
  lemma RetriesCommitOnce(cfg: Config, batch: Batch, route: Option<Route>, w: World, hs: seq<Happening>)
    requires Fresh(cfg, batch, route, w) && History(cfg, batch, w, hs).Some?
    ensures var w' := History(cfg, batch, w, hs).value;
      && (forall i, j :: 0 <= i < |w'.log| && 0 <= j < |w'.log| && w'.log[i].request == batch.request == w'.log[j].request ==> i == j)
      && (forall i :: 0 <= i < |w'.log| && w'.log[i].request == batch.request ==> w'.log[i].records == batch.records)
      && (Succeeded(w'.client) ==>
            var receipt := w'.client.phase.result.receipt;
            receipt.first < |w'.log| && w'.log[receipt.first].request == batch.request
            && receipt == ReceiptAt(w'.log, receipt.first))
  {
    hide History;
    HistoryKeeps(cfg, batch, route, w, hs);
    var w' := History(cfg, batch, w, hs).value;
    forall i | 0 <= i < |w'.log| && w'.log[i].request == batch.request
      ensures w'.log[i].records == batch.records
    {
      assert Holds(w'.log, batch, ReceiptAt(w'.log, i));
    }
  }

  // ---- Ambiguity is real -------------------------------------------------------------------

  /** The client events of a history. */
  ghost function ClientEvents(hs: seq<Happening>): seq<Event>
  {
    if hs == [] then []
    else ClientEvents(hs[..|hs| - 1]) + (match hs[|hs| - 1] case ClientDoes(e) => [e] case _ => [])
  }

  // The servers have refused exactly what the client knows to be refused, and committed nothing.
  ghost function BarelyRefused(attempts: seq<Attempt>): (copies: seq<Copy>)
    ensures |copies| == |attempts|
  {
    seq(|attempts|, i requires 0 <= i < |attempts| =>
      if !attempts[i].sent then Unsent else if attempts[i].Unrefuted() then InFlight else Refused)
  }

  lemma HistoryExtends(cfg: Config, batch: Batch, w: World, hs: seq<Happening>, h: Happening)
    ensures History(cfg, batch, w, hs + [h])
         == match History(cfg, batch, w, hs) case None => None case Some(w') => Happen(cfg, batch, w', h)
    ensures ClientEvents(hs + [h]) == ClientEvents(hs) + (match h case ClientDoes(e) => [e] case _ => [])
  {
    hide Happen;
    assert (hs + [h])[..|hs|] == hs;
  }

  // The history has brought the client here, with servers that refused barely.
  ghost predicate Shows(cfg: Config, batch: Batch, w0: World, hs: seq<Happening>, s: State)
  {
    History(cfg, batch, w0, hs) == Some(World(s, BarelyRefused(s.attempts), []))
  }

  lemma ShowsNothing(cfg: Config, batch: Batch, s: State)
    requires s.attempts == []
    ensures Shows(cfg, batch, World(s, [], []), [], s)
  {
    assert BarelyRefused(s.attempts) == [];
  }

  // One client event, preceded by the refusal it reports.
  lemma SimulateStep(cfg: Config, batch: Batch, w0: World, s: State, e: Event, hs0: seq<Happening>) returns (hs: seq<Happening>)
    requires FlagExact(s) && Underway(s) && Step(cfg, s, e).Some?
    requires !Succeeded(Step(cfg, s, e).value)
    requires Shows(cfg, batch, w0, hs0, s)
    ensures Shows(cfg, batch, w0, hs, Step(cfg, s, e).value)
    ensures ClientEvents(hs) == ClientEvents(hs0) + [e]
  {
    hide Step, History, ClientEvents, FlagExact, Underway, Commit;
    var t := Step(cfg, s, e).value;
    var n := |s.attempts|;
    StepAttempts(cfg, s, e);
    NoSuccess(cfg, s, e);
    var w := World(s, BarelyRefused(s.attempts), []);
    hs := hs0;
    if e.act.Answered? && Refusal(e.act.answer) {
      assert s.attempts[n - 1].Unrefuted() by { AwaitingIsOpen(cfg, s, e); }
      hs := hs0 + [ServerRefuses(n - 1)];
      HistoryExtends(cfg, batch, w0, hs0, ServerRefuses(n - 1));
      w := w.(copies := w.copies[n - 1 := Refused]);
      assert ClientEvents(hs) == ClientEvents(hs0) + [] == ClientEvents(hs0);
    } else if e.act.Answered? {
      assert s.attempts[n - 1].Unrefuted() by { AwaitingIsOpen(cfg, s, e); }
    }
    HistoryExtends(cfg, batch, w0, hs, ClientDoes(e));
    hs := hs + [ClientDoes(e)];
    assert CopiesAfter(w.copies, s, t, e.act) == BarelyRefused(t.attempts);
  }

  lemma AwaitingIsOpen(cfg: Config, s: State, e: Event)
    requires FlagExact(s) && Step(cfg, s, e).Some? && e.act.Answered?
    ensures s.attempts != [] && s.attempts[|s.attempts| - 1].Unrefuted()
  {
    hide Dispatch, StepRouting, StepConnecting, Open, LookupStep, NapStep;
    if s.phase.LookingUp? {
      LookupEvents(cfg, s.phase.lookup, e, s.expires);
    } else if s.phase.Resting? {
      NapEvents(s.phase.nap, e, s.expires);
    } else if s.phase.Routing? {
      RoutingEvents(cfg, s.(now := e.at), e);
    } else if s.phase.Connecting? {
      ConnectEvents(cfg, s.(now := e.at), e);
    }
  }

  lemma RoutingEvents(cfg: Config, s: State, e: Event)
    requires s.phase.Routing? && StepRouting(cfg, s, s.phase.first, s.phase.route, e).Some?
    ensures !e.act.Sent? && !e.act.Answered?
  {
    hide RouteAnswer, Enter, Retry, Rerouted;
  }

  lemma ConnectEvents(cfg: Config, s: State, e: Event)
    requires s.phase.Connecting? && StepConnecting(cfg, s, s.phase.stage, e).Some?
    ensures !e.act.Answered?
  {
    hide Dispatch;
  }

  /** A success answer ends the run in success. */
  lemma NoSuccess(cfg: Config, s: State, e: Event)
    requires Step(cfg, s, e).Some? && !Succeeded(Step(cfg, s, e).value)
    ensures e.act.Answered? ==> !e.act.answer.Success?
    ensures e.act.ReceiptAnswered? ==> !e.act.receipt.Success?
  {
    hide RouteAnswer, Current, Hint, Retry, LookupHint;
  }

  lemma {:induction false} Simulate(cfg: Config, batch: Batch, route: Option<Route>, s: State, events: seq<Event>)
      returns (hs: seq<Happening>)
    requires From(cfg, batch, route, s) && Run(cfg, s, events).Some?
    requires !Succeeded(Run(cfg, s, events).value)
    ensures Shows(cfg, batch, World(s, [], []), hs, Run(cfg, s, events).value)
    ensures ClientEvents(hs) == events
  {
    hide Step, FlagExact, Shows, Deliveries, SentOf;
    if events == [] {
      hs := [];
      ShowsNothing(cfg, batch, s);
    } else {
      var front, e := events[..|events| - 1], events[|events| - 1];
      var before := Run(cfg, s, front).value;
      RunExact(cfg, batch, route, s.start, s.now, s.expires, front);
      RunDeliveries(cfg, batch, route, s, front);
      DoneIsLast(cfg, before, e);
      hs := Simulate(cfg, batch, route, s, front);
      hs := SimulateStep(cfg, batch, World(s, [], []), before, e, hs);
      assert front + [e] == events;
    }
  }

  // ---- Settled for good --------------------------------------------------------------------

  /** The client is done, no copy is in flight any more, and the batch is not in the log. */
  ghost predicate SettledWithout(batch: Batch, w: World)
  {
    && w.client.phase.Done? && Absent(batch, w.log)
    && (forall i :: 0 <= i < |w.copies| ==> w.copies[i] != InFlight)
  }

  lemma HappenSettled(cfg: Config, batch: Batch, w: World, h: Happening)
    requires SettledWithout(batch, w) && Happen(cfg, batch, w, h).Some?
    ensures SettledWithout(batch, Happen(cfg, batch, w, h).value)
  {
    hide StepArriving, StepRouting, StepHead, StepHeadTime, StepConnecting, StepAwaiting, StepResting, StepFinishing, StepLookingUp;
    if h.ClientDoes? {
      DoneIsLast(cfg, w.client, h.e);
    }
  }

  /** Whatever happens then, it stays so. */
  lemma {:induction false} StaysSettled(cfg: Config, batch: Batch, w: World, more: seq<Happening>)
    requires SettledWithout(batch, w) && History(cfg, batch, w, more).Some?
    ensures SettledWithout(batch, History(cfg, batch, w, more).value)
  {
    hide Happen;
    if more != [] {
      StaysSettled(cfg, batch, w, more[..|more| - 1]);
      HappenSettled(cfg, batch, History(cfg, batch, w, more[..|more| - 1]).value, more[|more| - 1]);
    }
  }

  // The copies with the first k of those in flight refused.
  ghost function RefusedUpTo(copies: seq<Copy>, k: nat): (refused: seq<Copy>)
    ensures |refused| == |copies|
  {
    seq(|copies|, i requires 0 <= i < |copies| => if i < k && copies[i] == InFlight then Refused else copies[i])
  }

  /** The servers refuse every copy in flight, which the client does not notice. */
  lemma {:induction false} RefuseAll(cfg: Config, batch: Batch, w0: World, w: World, hs0: seq<Happening>, k: nat)
      returns (hs: seq<Happening>)
    requires History(cfg, batch, w0, hs0) == Some(w) && k <= |w.copies|
    ensures History(cfg, batch, w0, hs) == Some(w.(copies := RefusedUpTo(w.copies, k))) && ClientEvents(hs) == ClientEvents(hs0)
  {
    hide History, ClientEvents, Step, Commit;
    if k == 0 {
      hs := hs0;
      assert RefusedUpTo(w.copies, 0) == w.copies;
    } else {
      hs := RefuseAll(cfg, batch, w0, w, hs0, k - 1);
      if w.copies[k - 1] == InFlight {
        HistoryExtends(cfg, batch, w0, hs, ServerRefuses(k - 1));
        assert ClientEvents(hs) + [] == ClientEvents(hs);
        hs := hs + [ServerRefuses(k - 1)];
        assert RefusedUpTo(w.copies, k - 1)[k - 1 := Refused] == RefusedUpTo(w.copies, k);
      } else {
        assert RefusedUpTo(w.copies, k - 1) == RefusedUpTo(w.copies, k);
      }
    }
  }

  // The log only grows.
  lemma {:induction false} LogGrows(cfg: Config, batch: Batch, w: World, more: seq<Happening>)
    requires History(cfg, batch, w, more).Some?
    ensures w.log <= History(cfg, batch, w, more).value.log
  {
    hide Happen;
    if more != [] {
      LogGrows(cfg, batch, w, more[..|more| - 1]);
      HappenAppends(cfg, batch, History(cfg, batch, w, more[..|more| - 1]).value, more[|more| - 1]);
    }
  }

  lemma HappenAppends(cfg: Config, batch: Batch, w: World, h: Happening)
    requires Happen(cfg, batch, w, h).Some?
    ensures w.log <= Happen(cfg, batch, w, h).value.log
  {
    hide Step;
  }

  lemma PresentStays(batch: Batch, log: seq<Entry>, longer: seq<Entry>)
    requires !Absent(batch, log) && log <= longer
    ensures !Absent(batch, longer)
  {
    var i :| 0 <= i < |log| && log[i].request == batch.request;
    assert longer[i].request == batch.request;
  }

  /** The history happens, the client sees exactly these events in it, and afterwards, whatever more happens,
      the batch is in the log or is not. */
  ghost predicate EndsWith(cfg: Config, batch: Batch, w: World, hs: seq<Happening>, events: seq<Event>, committed: bool)
  {
    && ClientEvents(hs) == events && History(cfg, batch, w, hs).Some?
    && forall more :: History(cfg, batch, History(cfg, batch, w, hs).value, more).Some? ==>
         Absent(batch, History(cfg, batch, History(cfg, batch, w, hs).value, more).value.log) == !committed
  }

  lemma NeverCommits(cfg: Config, batch: Batch, w0: World, t: State, hs0: seq<Happening>) returns (hs: seq<Happening>)
    requires t.phase.Done? && Shows(cfg, batch, w0, hs0, t)
    ensures EndsWith(cfg, batch, w0, hs, ClientEvents(hs0), false)
  {
    hide History, ClientEvents;
    var w := World(t, BarelyRefused(t.attempts), []);
    hs := RefuseAll(cfg, batch, w0, w, hs0, |w.copies|);
    var settled := w.(copies := RefusedUpTo(w.copies, |w.copies|));
    assert SettledWithout(batch, settled);
    forall more | History(cfg, batch, settled, more).Some?
      ensures Absent(batch, History(cfg, batch, settled, more).value.log)
    {
      StaysSettled(cfg, batch, settled, more);
    }
  }

  lemma CommitsForGood(cfg: Config, batch: Batch, w0: World, t: State, hs0: seq<Happening>, k: nat) returns (hs: seq<Happening>)
    requires Shows(cfg, batch, w0, hs0, t) && k < |t.attempts|
    requires t.attempts[k].Unrefuted() && t.attempts[k].request.request == batch.request
    ensures EndsWith(cfg, batch, w0, hs, ClientEvents(hs0), true)
  {
    hide History, ClientEvents;
    HistoryExtends(cfg, batch, w0, hs0, ServerCommits(k));
    hs := hs0 + [ServerCommits(k)];
    assert ClientEvents(hs0) + [] == ClientEvents(hs0);
    var w := Commit(World(t, BarelyRefused(t.attempts), []), k);
    assert w.log == [EntryOf(t.attempts[k].request)];
    assert w.log[0].request == batch.request;
    forall more | History(cfg, batch, w, more).Some?
      ensures !Absent(batch, History(cfg, batch, w, more).value.log)
    {
      LogGrows(cfg, batch, w, more);
      PresentStays(batch, w.log, History(cfg, batch, w, more).value.log);
    }
  }

  /** AmbiguousCommit is as much as the client can say: for every run that reports it there are two
      histories that look exactly like that run to the client, one after which the batch is in no log, and
      one after which it is in every log, whatever happens later. */
  lemma AmbiguousCouldBeEither(cfg: Config, batch: Batch, route: Option<Route>, s: State, events: seq<Event>)
      returns (never: seq<Happening>, committed: seq<Happening>)
    requires From(cfg, batch, route, s) && Run(cfg, s, events).Some?
    requires Reports(World(Run(cfg, s, events).value, [], []), AmbiguousCommit)
    ensures EndsWith(cfg, batch, World(s, [], []), never, events, false)
    ensures EndsWith(cfg, batch, World(s, [], []), committed, events, true)
  {
    hide Run, Shows, EndsWith, ClientEvents, Carries;
    var seen := Simulate(cfg, batch, route, s, events);
    RunExact(cfg, batch, route, s.start, s.now, s.expires, events);
    RunSameBatch(cfg, batch, route, s, events);
    var t := Run(cfg, s, events).value;
    never := NeverCommits(cfg, batch, World(s, [], []), t, seen);
    var k :| 0 <= k < |t.attempts| && t.attempts[k].Unrefuted();
    CommitsTheBatch(batch, t.attempts[k].request);
    committed := CommitsForGood(cfg, batch, World(s, [], []), t, seen, k);
  }
}
