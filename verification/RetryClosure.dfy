/** Events stay readable through every retry hop. */
module RetryClosure {
  import opened Common
  import opened Schema
  import opened Detection
  import opened Protocol
  import opened Lineage
  import opened DoneOnce
  import Backoff
  import CsvSecurity
  import FanOut
  import Wire

  /** with_retry makes a valid event of a valid event exactly when both numbers of its retry block are positive. */
  lemma WithRetryIff(v: Validators, e: TransferEvent, attempt: int, maxAttempts: int, lastError: string)
    requires WellFormed(v, e)
    ensures WithRetry(e, attempt, maxAttempts, lastError).Some? <==> attempt >= 1 && maxAttempts >= 1
    ensures var again := WithRetry(e, attempt, maxAttempts, lastError);
            again.Some? ==>
              && SameButRetry(again.value, e)
              && again.value.retry == Some(RetryInfo(attempt, maxAttempts, Some(lastError)))
              && (Supported(again.value) <==> Supported(e))
              && Wire.FromBytes(v, Wire.ToBytes(again.value)) == Some(again.value)
  {
    var again := WithRetry(e, attempt, maxAttempts, lastError);
    if again.Some? {
      Wire.WireRoundTrip(v, again.value);
    }
  }

  /** After a failed upload round the handler finds a way on, to the retry queue or the dead-letter queue,
      if and only if retry_max_attempts is at least 1; otherwise RetryInfo refuses and the handler raises. */
  lemma FailedRoundHasARouteIff(cfg: Config, m: Message, fan: FanOut.State)
    requires m.payload.Event? && WellFormed(cfg.validators, m.payload.event) && FanOut.Finished(fan)
    requires FanOut.Failures(FanOut.Results(fan)) != []
    ensures Concluded(cfg, m, m.payload.event, fan).Some? <==> cfg.maxAttempts >= 1
  {
    hide FanOut.LastError, FanOut.Failures, Supported, IsVersion, IsSha256, IsIdempotencyKey;
  }

  /** The copy that a failed round sends on: to the retry queue with one attempt more while there are any left, and
      otherwise to the DLQ with the attempts as they are. Its retry block says which maximum applied and how each
      failed upload ended (FanOut.LastErrorConcat), and nothing else in it changes. */
  lemma FailedRoundSays(cfg: Config, m: Message, fan: FanOut.State)
    requires m.payload.Event? && WellFormed(cfg.validators, m.payload.event) && FanOut.Finished(fan)
    requires exists i :: 0 <= i < |fan.slots| && !fan.slots[i].result.ok
    requires Concluded(cfg, m, m.payload.event, fan).Some?
    ensures var h := Concluded(cfg, m, m.payload.event, fan).value;
            var attempts := if m.payload.event.retry.Some? then m.payload.event.retry.value.attempt else 0;
            && h.Routing? && h.message == m && h.route.copy.payload.Event?
            && h.route.copy.origin == m.origin && h.route.copy.rounds == m.rounds + 1
            && var again := h.route.copy.payload.event;
               && again == m.payload.event.(retry := again.retry)
               && again.retry.Some?
               && again.retry.value.lastError == Some(FanOut.LastError(FanOut.Results(fan)))
               && again.retry.value.maxAttempts == cfg.maxAttempts
               && (attempts < cfg.maxAttempts ==>
                     && again.retry.value.attempt == attempts + 1
                     && h.route == ToRetry(h.route.copy, Backoff.DelayMs(cfg.backoffBase, attempts + 1)))
               && (attempts >= cfg.maxAttempts ==>
                     && again.retry.value.attempt == attempts
                     && h.route == ToDlq(h.route.copy, MaxRetriesExceeded))
  {
    hide FanOut.LastError, FanOut.Failures, Supported, IsVersion, IsSha256, IsIdempotencyKey, Backoff.DelayMs;
    NoFailuresAllOk(FanOut.Results(fan));
    var i :| 0 <= i < |fan.slots| && !fan.slots[i].result.ok;
    assert !FanOut.Results(fan)[i].ok;
  }

  /** A copy on a queue, dead letters included, or in a handler. */
  ghost predicate Somewhere(s: State, m: Message) {
    InFlight(s, m) || exists d :: d in s.broker.dlq && d.message == m
  }

  lemma {:induction false} SomewhereDescends(cfg: Config, run: seq<Step>, m: Message)
    requires Legal(cfg, Init(), run) && Somewhere(Exec(cfg, Init(), run), m)
    ensures Descends(cfg, Exec(cfg, Init(), run).broker.origins, m)
  {
    hide Descends, WellFormed;
    TrackedRun(cfg, run);
    var s := Exec(cfg, Init(), run);
    if InFlight(s, m) {
      assert Live(cfg, s.broker.origins, m);
    } else {
      var d :| d in s.broker.dlq && d.message == m;
      assert Buried(cfg, s.broker.origins, d);
    }
  }

  /** In every reachable state each event somewhere reads back from its bytes as itself and is supported
      exactly if the event first published was, after any number of hops; a body that cannot be read was
      published as such. */
  lemma {:induction false} EveryHopIsReadable(cfg: Config, run: seq<Step>, m: Message)
    requires Legal(cfg, Init(), run) && Somewhere(Exec(cfg, Init(), run), m)
    ensures var origins := Exec(cfg, Init(), run).broker.origins;
            && m.origin < |origins|
            && (m.payload.Event? ==>
                  && Wire.FromBytes(cfg.validators, Wire.ToBytes(m.payload.event)) == Some(m.payload.event)
                  && First(origins[m.origin]).Event?
                  && (Supported(m.payload.event) <==> Supported(First(origins[m.origin]).event)))
            && (m.payload.Garbled? ==> First(origins[m.origin]) == m.payload)
  {
    hide Supported, WellFormed;
    SomewhereDescends(cfg, run, m);
    if m.payload.Event? {
      Wire.WireRoundTrip(cfg.validators, m.payload.event);
      SupportedByVersion(m.payload.event, First(Exec(cfg, Init(), run).broker.origins[m.origin]).event);
    }
  }

  /** So nothing the watcher published ends in the dead-letter queue as an invalid payload or an unsupported
      version. */
  lemma {:induction false} OwnEventsStayValid(cfg: Config, run: seq<Step>, d: DeadLetter)
    requires Legal(cfg, Init(), run) && d in Exec(cfg, Init(), run).broker.dlq
    requires d.message.origin < |Exec(cfg, Init(), run).broker.origins|
    requires Exec(cfg, Init(), run).broker.origins[d.message.origin].Detected?
    ensures d.reason != InvalidPayload && d.reason != UnsupportedSchemaVersion
  {
    hide Supported, WellFormed;
    SourcedRun(cfg, run);
    TrackedRun(cfg, run);
    var s := Exec(cfg, Init(), run);
    var origin := s.broker.origins[d.message.origin];
    assert origin in s.broker.origins && s.watch.builds[origin.build] in s.watch.builds;
    assert Buried(cfg, s.broker.origins, d);
    VersionOneDotZero();
    SomewhereDescends(cfg, run, d.message);
    SupportedByVersion(d.message.payload.event, origin.event);
  }

  lemma SupportedByVersion(a: TransferEvent, b: TransferEvent)
    requires a.schemaVersion == b.schemaVersion
    ensures Supported(a) <==> Supported(b)
  {
  }

  // What the reason of a dead letter says

  /** A body that cannot be read, a version that is not supported, or neither. */
  predicate RightReason(m: Message, reason: Reason) {
    match m.payload
    case Garbled(_) => reason == InvalidPayload
    case Event(e) =>
      && reason != InvalidPayload
      && (reason == UnsupportedSchemaVersion <==> !Supported(e))
  }

  ghost predicate Reasoned(s: State) {
    && (forall d :: d in s.broker.dlq ==> RightReason(d.message, d.reason))
    && (s.handler.Routing? && s.handler.route.ToDlq? ==> RightReason(s.handler.route.copy, s.handler.route.reason))
  }

  lemma ReasonedStep(cfg: Config, s: State, step: Step)
    requires Undone(s) && Reasoned(s) && Enabled(cfg, s, step)
    ensures Reasoned(Apply(cfg, s, step))
  {
    hide Apply, Enabled, Undone, Reasoned;
    if OutsideConsumer(step) {
      OutsideFrame(cfg, s, step);
      SameReasons(s, Apply(cfg, s, step));
    } else if InsideHandler(step) {
      ReasonedInside(cfg, s, step);
    } else {
      ReasonedMove(cfg, s, step);
    }
  }

  lemma SameReasons(s: State, t: State)
    requires Reasoned(s) && t.broker.dlq == s.broker.dlq && (t.handler == s.handler || !t.handler.Routing?)
    ensures Reasoned(t)
  {
    hide RightReason;
  }

  lemma ReasonedInside(cfg: Config, s: State, step: Step)
    requires Undone(s) && Reasoned(s) && Enabled(cfg, s, step) && InsideHandler(step)
    ensures Reasoned(Apply(cfg, s, step))
  {
    hide Apply, Enabled, Supported, Concluded, CsvSecurity.Scan;
    HandlerFrame(cfg, s, step);
    HandlerMoves(cfg, s, step);
    if step.Conclude? {
      ConcludedReason(cfg, s.handler.message, EventOf(s.handler), s.handler.fan);
    }
  }

  lemma ConcludedReason(cfg: Config, m: Message, e: TransferEvent, fan: FanOut.State)
    requires m.payload == Event(e) && Supported(e) && FanOut.Finished(fan) && Concluded(cfg, m, e, fan).Some?
    ensures var h := Concluded(cfg, m, e, fan).value;
            h.Routing? && h.route.ToDlq? ==> RightReason(h.route.copy, h.route.reason)
  {
    hide FanOut.LastError, FanOut.Failures;
  }

  lemma ReasonedMove(cfg: Config, s: State, step: Step)
    requires Reasoned(s) && Enabled(cfg, s, step) && !OutsideConsumer(step) && !InsideHandler(step)
    ensures Reasoned(Apply(cfg, s, step))
  {
    hide WellFormed, OnRetryQueue, RightReason;
  }

  lemma {:induction false} ReasonedRun(cfg: Config, run: seq<Step>)
    requires Legal(cfg, Init(), run)
    ensures Reasoned(Exec(cfg, Init(), run))
  {
    if run != [] {
      hide Apply, Enabled, Reasoned, Undone;
      var n := |run| - 1;
      UndoneRun(cfg, run[..n]);
      ReasonedRun(cfg, run[..n]);
      ReasonedStep(cfg, Exec(cfg, Init(), run[..n]), run[n]);
    } else {
      assert Init().broker.dlq == [];
    }
  }

  /** In every reachable state a dead letter is called an invalid payload exactly if it cannot be read, and an
      unsupported version exactly if it can be read and its major version is another than 1. */
  lemma {:induction false} ReasonsAreRight(cfg: Config, run: seq<Step>, d: DeadLetter)
    requires Legal(cfg, Init(), run) && d in Exec(cfg, Init(), run).broker.dlq
    ensures d.reason == InvalidPayload <==> d.message.payload.Garbled?
    ensures d.reason == UnsupportedSchemaVersion <==> d.message.payload.Event? && !Supported(d.message.payload.event)
  {
    ReasonedRun(cfg, run);
  }
}
