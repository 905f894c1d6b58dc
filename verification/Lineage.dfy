/** Where the copies on the queues come from: every copy is an original event with at most its retry block
    changed, and the retry block counts the upload rounds that have failed. */
module Lineage {
  import opened Common
  import opened Schema
  import opened Detection
  import opened Protocol
  import Backoff
  import FanOut
  import CsvSecurity
  import KeyEncoding

  function First(o: Origin): Payload {
    match o
    case Detected(_, _, _, event) => Event(event)
    case Foreign(payload) => payload
  }

  // Events the watcher built

  predicate Fresh(cfg: Config, b: Build) {
    && InWatchDir(cfg, b.path)
    && WellFormed(cfg.validators, b.event)
    && b.event == BuildEvent(cfg, b.path, b.content, b.event.eventId, b.event.correlationId, b.event.occurredAt)
  }

  ghost predicate Sourced(cfg: Config, s: State) {
    && (forall p :: p in s.watch.queue ==> InWatchDir(cfg, p))
    && (s.watch.at.Found? ==> InWatchDir(cfg, s.watch.at.path))
    && (s.watch.at.Publishing? || s.watch.at.Announcing? ==> s.watch.at.build < |s.watch.builds|)
    && (forall b :: b in s.watch.builds ==> Fresh(cfg, b))
    && (forall o :: o in s.broker.origins && o.Detected? ==>
          o.build < |s.watch.builds| && s.watch.builds[o.build] == Build(o.path, o.content, o.event))
  }

  lemma SourcedStep(cfg: Config, s: State, step: Step)
    requires Sourced(cfg, s) && Enabled(cfg, s, step)
    ensures Sourced(cfg, Apply(cfg, s, step))
  {
    hide Apply, Enabled, Fresh, Sourced;
    if OutsideConsumer(step) {
      SourcedOutside(cfg, s, step);
    } else if PutsMain(step) {
      SourcedPut(cfg, s, step);
    } else {
      ConsumerFrame(cfg, s, step);
      SameSources(cfg, s, Apply(cfg, s, step));
    }
  }

  lemma SameSources(cfg: Config, s: State, t: State)
    requires Sourced(cfg, s) && t.watch == s.watch && t.broker.origins == s.broker.origins
    ensures Sourced(cfg, t)
  {
    hide Fresh;
  }

  lemma SourcedOutside(cfg: Config, s: State, step: Step)
    requires Sourced(cfg, s) && OutsideConsumer(step) && Enabled(cfg, s, step)
    ensures Sourced(cfg, Apply(cfg, s, step))
  {
    hide WellFormed, Written;
  }

  lemma SourcedPut(cfg: Config, s: State, step: Step)
    requires Sourced(cfg, s) && PutsMain(step) && Enabled(cfg, s, step)
    ensures Sourced(cfg, Apply(cfg, s, step))
  {
    hide WellFormed, Fresh;
  }

  lemma {:induction false} SourcedRun(cfg: Config, run: seq<Step>)
    requires Legal(cfg, Init(), run)
    ensures Sourced(cfg, Exec(cfg, Init(), run))
  {
    if run != [] {
      var n := |run| - 1;
      SourcedRun(cfg, run[..n]);
      SourcedStep(cfg, Exec(cfg, Init(), run[..n]), run[n]);
    }
  }

  // Files

  /** Nothing but the given files is ever written. */
  ghost predicate Within(files: set<KeyEncoding.File>, run: seq<Step>) {
    forall step :: step in run && step.Write? ==> KeyEncoding.File(step.path, step.content) in files
  }

  ghost predicate Among(files: set<KeyEncoding.File>, s: State) {
    && (forall p :: p in s.dir.files ==> KeyEncoding.File(p, s.dir.files[p]) in files)
    && (forall b :: b in s.watch.builds ==> KeyEncoding.File(b.path, b.content) in files)
    && (forall o :: o in s.broker.origins && o.Detected? ==> KeyEncoding.File(o.path, o.content) in files)
  }

  lemma AmongStep(cfg: Config, files: set<KeyEncoding.File>, s: State, step: Step)
    requires Among(files, s) && Within(files, [step]) && Enabled(cfg, s, step)
    ensures Among(files, Apply(cfg, s, step))
  {
    hide WellFormed, BuildEvent, SettledFor;
    assert step in [step];
    if OutsideConsumer(step) {
      OutsideFrame(cfg, s, step);
    } else if !PutsMain(step) {
      hide Apply;
      ConsumerFrame(cfg, s, step);
    }
  }

  lemma {:induction false} AmongRun(cfg: Config, files: set<KeyEncoding.File>, run: seq<Step>)
    requires Legal(cfg, Init(), run) && Within(files, run)
    ensures Among(files, Exec(cfg, Init(), run))
  {
    if run != [] {
      hide Apply, Enabled, Among;
      var n := |run| - 1;
      AmongRun(cfg, files, run[..n]);
      AmongStep(cfg, files, Exec(cfg, Init(), run[..n]), run[n]);
    }
  }

  // Copies

  predicate Descends(cfg: Config, origins: seq<Origin>, m: Message) {
    && m.origin < |origins|
    && var first := First(origins[m.origin]);
       match m.payload
       case Garbled(_) => m.payload == first
       case Event(e) => first.Event? && WellFormed(cfg.validators, e) && SameButRetry(e, first.event)
  }

  /** A copy still to be handled: its attempt is the original's plus the failed rounds behind it. */
  predicate Live(cfg: Config, origins: seq<Origin>, m: Message) {
    && Descends(cfg, origins, m)
    && (m.payload.Event? ==>
          && Attempt(m.payload.event) == Attempt(First(origins[m.origin]).event) + m.rounds
          && (m.rounds > 0 ==> 1 <= Attempt(m.payload.event) <= cfg.maxAttempts == m.payload.event.retry.value.maxAttempts))
  }

  /** A DLQ entry; one for exhausted retries has one failed round more behind it than its attempt says. */
  predicate Buried(cfg: Config, origins: seq<Origin>, d: DeadLetter) {
    if d.reason != MaxRetriesExceeded then
      && Live(cfg, origins, d.message)
      && (d.reason == InvalidPayload <==> d.message.payload.Garbled?)
      && (d.reason == UnsupportedSchemaVersion ==> !Supported(d.message.payload.event))
    else
      && Descends(cfg, origins, d.message)
      && d.message.payload.Event?
      && var attempt := Attempt(d.message.payload.event);
         && attempt + 1 == Attempt(First(origins[d.message.origin]).event) + d.message.rounds
         && d.message.payload.event.retry.Some?
         && attempt >= cfg.maxAttempts == d.message.payload.event.retry.value.maxAttempts >= 1
         && (d.message.rounds > 1 ==> attempt == cfg.maxAttempts)
  }

  predicate RouteTracked(cfg: Config, origins: seq<Origin>, m: Message, route: Route) {
    && route.copy.origin == m.origin
    && match route
       case ToRetry(copy, delay) =>
         && Live(cfg, origins, copy)
         && copy.payload.Event?
         && copy.rounds > 0
         && delay == Backoff.DelayMs(cfg.backoffBase, Attempt(copy.payload.event))
         && copy.rounds == m.rounds + 1
       case ToDlq(copy, reason) =>
         && Buried(cfg, origins, DeadLetter(copy, reason))
         && copy.rounds == m.rounds + (if reason == MaxRetriesExceeded then 1 else 0)
  }

  ghost predicate Tracked(cfg: Config, s: State) {
    && (forall m :: m in s.broker.main ==> Live(cfg, s.broker.origins, m))
    && (forall m :: m in s.broker.held ==> Live(cfg, s.broker.origins, m))
    && (forall d :: d in s.broker.retry ==> Live(cfg, s.broker.origins, d.message))
    && (forall d :: d in s.broker.dlq ==> Buried(cfg, s.broker.origins, d))
    && (InHand(s.handler) != [] ==> Live(cfg, s.broker.origins, s.handler.message))
    && (s.handler.Locating? || s.handler.Scanning? || s.handler.Uploading? || s.handler.Marking? ==> HasEvent(s.handler))
    && (s.handler.Routing? ==> RouteTracked(cfg, s.broker.origins, s.handler.message, s.handler.route))
  }

  lemma LiveGrows(cfg: Config, origins: seq<Origin>, o: Origin)
    ensures forall m :: Live(cfg, origins, m) ==> Live(cfg, origins + [o], m)
    ensures forall d :: Buried(cfg, origins, d) ==> Buried(cfg, origins + [o], d)
    ensures forall m, r :: RouteTracked(cfg, origins, m, r) ==> RouteTracked(cfg, origins + [o], m, r)
  {
  }

  lemma ConcludedTracked(cfg: Config, origins: seq<Origin>, m: Message, fan: FanOut.State)
    requires m.payload.Event? && Live(cfg, origins, m) && FanOut.Finished(fan)
    requires Concluded(cfg, m, m.payload.event, fan).Some?
    ensures var h := Concluded(cfg, m, m.payload.event, fan).value;
            h == Marking(m) || (h.Routing? && h.message == m && RouteTracked(cfg, origins, m, h.route))
  {
    hide FanOut.LastError, FanOut.Failures, Backoff.DelayMs, Supported, IsVersion, IsSha256, IsIdempotencyKey;
  }

  lemma TrackedPut(cfg: Config, s: State, payload: Payload, origin: Origin)
    requires Tracked(cfg, s) && First(origin) == payload
    requires payload.Event? ==> WellFormed(cfg.validators, payload.event)
    ensures Tracked(cfg, s.(broker := PutMain(s.broker, payload, origin)))
  {
    LiveGrows(cfg, s.broker.origins, origin);
  }

  lemma TrackedAbandon(cfg: Config, s: State)
    requires Tracked(cfg, s)
    ensures Tracked(cfg, Abandon(s))
  {
  }

  lemma TrackedRequeue(cfg: Config, s: State)
    requires Tracked(cfg, s)
    ensures Tracked(cfg, s.(broker := Requeue(s.broker, Current(s)).(connected := true), handler := Idle))
    ensures Tracked(cfg, s.(broker := Requeue(s.broker, Current(s)).(connected := false)))
  {
  }

  lemma TrackedRoute(cfg: Config, s: State)
    requires Tracked(cfg, s) && s.handler.Routing?
    ensures Tracked(cfg, s.(broker := PutRoute(s.broker, s.now, s.handler.route)))
  {
  }

  lemma TrackedStep(cfg: Config, s: State, step: Step)
    requires Sourced(cfg, s) && Tracked(cfg, s) && Enabled(cfg, s, step)
    ensures Tracked(cfg, Apply(cfg, s, step))
  {
    if OutsideConsumer(step) {
      hide Apply;
      OutsideFrame(cfg, s, step);
    } else if InsideHandler(step) {
      TrackedInside(cfg, s, step);
    } else {
      TrackedMove(cfg, s, step);
    }
  }

  lemma TrackedInside(cfg: Config, s: State, step: Step)
    requires Tracked(cfg, s) && InsideHandler(step) && Enabled(cfg, s, step)
    ensures Tracked(cfg, Apply(cfg, s, step))
  {
    hide Live, Descends, WellFormed, Apply, Enabled, Concluded, CsvSecurity.Scan, Supported;
    HandlerFrame(cfg, s, step);
    HandlerMoves(cfg, s, step);
    if step.Conclude? {
      ConcludedTracked(cfg, s.broker.origins, s.handler.message, s.handler.fan);
    }
  }

  lemma TrackedPublish(cfg: Config, s: State, step: Step)
    requires Sourced(cfg, s) && Tracked(cfg, s) && step.Publish? && Enabled(cfg, s, step)
    ensures Tracked(cfg, Apply(cfg, s, step))
  {
    hide Live, RouteTracked, Buried, WellFormed, BuildEvent, PutMain;
    var b := s.watch.builds[s.watch.at.build];
    assert Fresh(cfg, b);
    TrackedPut(cfg, s, Event(b.event), Detected(s.watch.at.build, b.path, b.content, b.event));
  }

  lemma TrackedSend(cfg: Config, s: State, step: Step)
    requires Tracked(cfg, s) && step.Send? && Enabled(cfg, s, step)
    ensures Tracked(cfg, Apply(cfg, s, step))
  {
    hide Live, RouteTracked, Buried, PutRoute;
    TrackedRoute(cfg, s);
    TrackedAbandon(cfg, s);
    TrackedAbandon(cfg, s.(broker := PutRoute(s.broker, s.now, s.handler.route)));
  }

  lemma TrackedMove(cfg: Config, s: State, step: Step)
    requires Sourced(cfg, s) && Tracked(cfg, s) && !InsideHandler(step) && !OutsideConsumer(step)
    requires Enabled(cfg, s, step)
    ensures Tracked(cfg, Apply(cfg, s, step))
  {
    hide Live, WellFormed, RouteTracked, Buried, Sourced, Requeue;
    match step
    case Inject(payload) => TrackedPut(cfg, s, payload, Foreign(payload));
    case Publish(_) => TrackedPublish(cfg, s, step);
    case Send(_) => TrackedSend(cfg, s, step);
    case Raise => TrackedAbandon(cfg, s);
    case Disconnect => TrackedRequeue(cfg, s);
    case Restart => TrackedRequeue(cfg, s);
    case _ =>
  }

  lemma {:induction false} TrackedRun(cfg: Config, run: seq<Step>)
    requires Legal(cfg, Init(), run)
    ensures Tracked(cfg, Exec(cfg, Init(), run))
  {
    if run != [] {
      var n := |run| - 1;
      SourcedRun(cfg, run[..n]);
      TrackedRun(cfg, run[..n]);
      TrackedStep(cfg, Exec(cfg, Init(), run[..n]), run[n]);
    }
  }

  // The history of a chain of retries

  /** A copy that is queued, unacked or in a handler. */
  ghost predicate InFlight(s: State, m: Message) {
    || m in s.broker.main
    || m in s.broker.held
    || (exists d :: d in s.broker.retry && d.message == m)
    || InHand(s.handler) == [m]
  }

  /** In every reachable state a copy of an event the watcher published differs from it only in the retry
      block, whose attempt agrees with the history field `rounds`. */
  lemma RetryBlocks(cfg: Config, run: seq<Step>)
    requires Legal(cfg, Init(), run)
    ensures var s := Exec(cfg, Init(), run);
            forall m :: InFlight(s, m) && m.origin < |s.broker.origins| && s.broker.origins[m.origin].Detected? ==>
              && m.payload.Event?
              && var e, first := m.payload.event, s.broker.origins[m.origin].event;
                 && e == first.(retry := e.retry)
                 && (e.retry.None? <==> m.rounds == 0)
                 && (e.retry.Some? ==> e.retry.value.attempt == m.rounds <= cfg.maxAttempts == e.retry.value.maxAttempts)
    ensures var s := Exec(cfg, Init(), run);
            forall d :: d in s.broker.dlq && d.message.origin < |s.broker.origins|
                        && s.broker.origins[d.message.origin].Detected? && d.reason == MaxRetriesExceeded ==>
              && d.message.payload.Event?
              && var e, first := d.message.payload.event, s.broker.origins[d.message.origin].event;
                 && e == first.(retry := e.retry)
                 && e.retry.Some?
                 && e.retry.value.attempt == cfg.maxAttempts
                 && d.message.rounds == cfg.maxAttempts + 1 >= 2
  {
    SourcedRun(cfg, run);
    TrackedRun(cfg, run);
    var s := Exec(cfg, Init(), run);
    forall m | InFlight(s, m) ensures Live(cfg, s.broker.origins, m) {
    }
    forall o | o in s.broker.origins && o.Detected? ensures o.event.retry == None {
      assert s.watch.builds[o.build] in s.watch.builds;
    }
  }
}
