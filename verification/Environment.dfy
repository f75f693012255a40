/** The client's surroundings: clock, timers, cancellation, network and servers.  It may answer anything
    at any time, and it logs whatever passes.  The log is written here and nowhere else, so it holds
    every request that was sent, every answer that came, and nothing more. */
module Environment {
  import opened Options
  import opened Endpoints
  import opened Protocol

  /** A point in time: the log and the clock. */
  datatype Mark = Mark(log: seq<Event>, now: nat)

  /** What was logged between two points. */
  ghost function Since(a: Mark, b: Mark): seq<Event>
  {
    if a.log <= b.log then b.log[|a.log|..] else []
  }

  /** The second point comes after the first, and its time is that of the last event in between. */
  ghost predicate Follows(a: Mark, b: Mark)
  {
    a.log <= b.log && a.now <= b.now == Ticks(a.now, Since(a, b))
  }

  lemma Stays(a: Mark)
    ensures Follows(a, a) && Since(a, a) == []
  {
  }

  lemma OneMore(a: Mark, b: Mark, e: Event)
    requires Follows(a, b) && b.now <= e.at
    ensures Follows(a, Mark(b.log + [e], e.at)) && Since(a, Mark(b.log + [e], e.at)) == Since(a, b) + [e]
  {
  }

  lemma Continues(a: Mark, b: Mark, c: Mark)
    requires Follows(a, b) && Follows(b, c)
    ensures Follows(a, c) && Since(a, c) == Since(a, b) + Since(b, c)
  {
    TicksJoin(a.now, Since(a, b), Since(b, c));
  }

  class Env {
    var now: nat
    var log: seq<Event>

    ghost function Here(): Mark
      reads this
    {
      Mark(log, now)
    }

    // Time passes, and this is what happened in it.
    method Record(act: Act, least: nat)
      modifies this
      ensures now >= old(now) + least && log == old(log) + [Event(now, act)]
    {
      var at: nat := *;
      now := if at < now + least then now + least else at;
      log := log + [Event(now, act)];
    }

    method ReadClock() returns (at: nat)
      modifies this
      ensures at == now >= old(now) && log == old(log) + [Event(now, Clock)]
    {
      Record(Clock, 0);
      at := now;
    }

    method Sleep(duration: nat)
      modifies this
      ensures now >= old(now) + duration && log == old(log) + [Event(now, Slept(duration))]
    {
      Record(Slept(duration), duration);
    }

    /** Reads the cancellation flag, if the caller was given one. */
    method Poll(cancellable: bool) returns (cancelled: bool)
      modifies this
      ensures now >= old(now) && log == old(log) + [Event(now, Polled(cancelled))]
      ensures cancelled ==> cancellable
    {
      cancelled := *;
      cancelled := cancelled && cancellable;
      Record(Polled(cancelled), 0);
    }

    /** Whether cancellation wins the race against what comes next. */
    method Race(cancellable: bool) returns (cancelled: bool)
      modifies this
      ensures cancelled ==> cancellable && now >= old(now) && log == old(log) + [Event(now, Cancel)]
      ensures !cancelled ==> now == old(now) && log == old(log)
    {
      cancelled := *;
      cancelled := cancelled && cancellable;
      if cancelled {
        Record(Cancel, 0);
      }
    }

    method Connect(endpoint: Endpoint) returns (failure: Option<AttemptError>)
      modifies this
      ensures now >= old(now)
      ensures log == old(log) + [Event(now, match failure case None => Connected(endpoint) case Some(e) => ConnectFailed(endpoint, e))]
      ensures failure.Some? ==> ConnectError(failure.value)
    {
      failure := *;
      if failure.Some? && !ConnectError(failure.value) {
        failure := Some(Deadline);
      }
      Record(match failure case None => Connected(endpoint) case Some(e) => ConnectFailed(endpoint, e), 0);
    }

    /** Hands one copy of a publish request to the network. */
    method SendPublish(endpoint: Endpoint, request: WireRequest)
      modifies this
      ensures now >= old(now) && log == old(log) + [Event(now, Sent(endpoint, request))]
    {
      Record(Sent(endpoint, request), 0);
    }

    method AwaitReceipt() returns (answer: Answer<Receipt>)
      modifies this
      ensures now >= old(now) && log == old(log) + [Event(now, Answered(answer))]
    {
      answer := *;
      Record(Answered(answer), 0);
    }

    /** Hands one copy of any other request to the network. */
    method SendCall(endpoint: Endpoint, call: Call)
      modifies this
      ensures now >= old(now) && log == old(log) + [Event(now, CallSent(endpoint, call))]
    {
      Record(CallSent(endpoint, call), 0);
    }

    method AwaitReply() returns (reply: Answer<()>)
      modifies this
      ensures now >= old(now) && log == old(log) + [Event(now, CallAnswered(reply))]
    {
      reply := *;
      Record(CallAnswered(reply), 0);
    }

    /** One whole route request: connect, send, answer. */
    method AskRoute(endpoint: Endpoint) returns (route: Answer<Route>)
      modifies this
      ensures now >= old(now) && log == old(log) + [Event(now, RouteAnswered(endpoint, route))]
    {
      route := *;
      Record(RouteAnswered(endpoint, route), 0);
    }

    /** One whole receipt request: connect, send, answer. */
    method AskReceipt(endpoint: Endpoint, lookup: LookupRequest) returns (receipt: Answer<Receipt>)
      modifies this
      ensures now >= old(now) && log == old(log) + [Event(now, ReceiptAnswered(endpoint, lookup, receipt))]
    {
      receipt := *;
      Record(ReceiptAnswered(endpoint, lookup, receipt), 0);
    }
  }
}
