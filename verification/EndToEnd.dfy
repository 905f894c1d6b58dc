/** The parts together: a file dropped into the directory, picked up by the watcher, handled by the consumer. */
module EndToEnd {
  import opened Common
  import opened Schema
  import opened Detection
  import opened Protocol
  import opened DoneOnce
  import opened Continuations
  import opened Surroundings
  import opened Consumer
  import opened Watching
  import Backoff
  import CsvSecurity
  import Draining
  import FanOut

  // A handling in fair weather

  /** The message in hand is a new event for a clean file. */
  predicate CleanJob(cfg: Config, s: State, m: Message, c: Content) {
    && m.payload.Event?
    && var e := m.payload.event;
       && Supported(e)
       && e.idempotencyKey !in s.done
       && e.source.path in s.dir.files
       && s.dir.files[e.source.path] == c
       && CsvSecurity.Scan(c, cfg.fileLimit) == CsvSecurity.Issues([])
       && forall d :: d in e.destinations ==> d.provider in FanOut.KNOWN_PROVIDERS
  }

  /** Every destination of the event holds `c`. */
  predicate AllHold(objects: map<Location, Content>, e: TransferEvent, c: Content) {
    forall i :: 0 <= i < |e.destinations| ==> HoldsAt(objects, LocationOf(e.destinations[i]), c)
  }

  /** `l` is where a destination of the event lies. */
  predicate IsPlace(e: TransferEvent, l: Location) {
    exists i :: 0 <= i < |e.destinations| && LocationOf(e.destinations[i]) == l
  }

  /** What was stored is still there, or overwritten with `c` at a place of the event. */
  ghost predicate Kept(before: map<Location, Content>, after: map<Location, Content>, e: TransferEvent, c: Content) {
    forall l, x :: HoldsAt(before, l, x) ==> HoldsAt(after, l, x) || (IsPlace(e, l) && HoldsAt(after, l, c))
  }

  predicate UploadsFine(objects: map<Location, Content>, e: TransferEvent, fan: FanOut.State, c: Content) {
    && |fan.slots| == |e.destinations|
    && UploadsOnly(fan, c)
    && Deliverable(fan)
    && ReportedHold(objects, e, fan, c)
  }

  function Marked(s: State, e: TransferEvent): map<string, string> {
    s.done[e.idempotencyKey := e.correlationId]
  }

  /** How far a handling of `m` that began in `s` has come. */
  ghost predicate Underway(s: State, t: State, m: Message, c: Content) {
    && m.payload.Event?
    && t.dir == s.dir && t.broker == s.broker && t.watch == s.watch && t.now == s.now
    && Kept(s.objects, t.objects, m.payload.event, c)
    && var e := m.payload.event;
       match t.handler
       case Idle => t.done == Marked(s, e) && AllHold(t.objects, e, c) && t.tally.success == s.tally.success + 1
       case Counting(v) =>
         v.Success? && t.done == Marked(s, e) && AllHold(t.objects, e, c) && t.tally.success == s.tally.success
       case Acking(m', v) =>
         m' == m && v.Success? && t.done == Marked(s, e) && AllHold(t.objects, e, c) && t.tally.success == s.tally.success
       case Marking(m') => m' == m && t.done == s.done && AllHold(t.objects, e, c) && t.tally.success == s.tally.success
       case Uploading(m', fan) =>
         m' == m && t.done == s.done && UploadsFine(t.objects, e, fan, c) && t.tally.success == s.tally.success
       case Validating(m') => m' == m && t.done == s.done && t.tally.success == s.tally.success
       case Locating(m') => m' == m && t.done == s.done && t.tally.success == s.tally.success
       case Scanning(m') => m' == m && t.done == s.done && t.tally.success == s.tally.success
       case _ => false
  }

  ghost predicate Fair(w: Weather) {
    forall i: nat :: w.fates(i) == FanOut.Succeeds
  }

  lemma FineBegin(objects: map<Location, Content>, e: TransferEvent, concurrency: nat, c: Content)
    ensures UploadsFine(objects, e, FanOut.Begin(|e.destinations|, concurrency), c)
  {
    var slots := FanOut.Begin(|e.destinations|, concurrency).slots;
    assert forall j :: 0 <= j < |slots| ==> SlotCanSucceed(slots[j]);
  }

  lemma FineStart(objects: map<Location, Content>, e: TransferEvent, fan: FanOut.State, c: Content, i: nat)
    requires UploadsFine(objects, e, fan, c) && FanOut.CanStart(fan, i)
    ensures UploadsFine(objects, e, FanOut.Start(fan, i, Some(c)), c)
  {
    var after := FanOut.Start(fan, i, Some(c));
    forall j | 0 <= j < |after.slots| ensures SlotCanSucceed(after.slots[j]) {
      assert SlotCanSucceed(fan.slots[j]);
    }
  }

  lemma FineEnd(cfg: Config, s: State, i: nat, e: TransferEvent, c: Content)
    requires Enabled(cfg, s, EndUpload(i, FanOut.Succeeds)) && EventOf(s.handler) == e
    requires UploadsFine(s.objects, e, s.handler.fan, c) && e.destinations[i].provider in FanOut.KNOWN_PROVIDERS
    ensures var t := Apply(cfg, s, EndUpload(i, FanOut.Succeeds));
            UploadsFine(t.objects, e, t.handler.fan, c) && t.objects == s.objects[LocationOf(e.destinations[i]) := c]
  {
    hide WellFormed;
    var t := Apply(cfg, s, EndUpload(i, FanOut.Succeeds));
    assert SlotCanSucceed(s.handler.fan.slots[i]);
    assert t.objects == s.objects[LocationOf(e.destinations[i]) := c];
    forall j | 0 <= j < |t.handler.fan.slots| ensures SlotCanSucceed(t.handler.fan.slots[j]) {
      assert SlotCanSucceed(s.handler.fan.slots[j]);
    }
  }

  lemma KeptEnd(first: map<Location, Content>, before: map<Location, Content>, after: map<Location, Content>,
                e: TransferEvent, c: Content, i: nat)
    requires Kept(first, before, e, c) && i < |e.destinations| && after == before[LocationOf(e.destinations[i]) := c]
    ensures Kept(first, after, e, c)
  {
    forall l, x | HoldsAt(first, l, x) ensures HoldsAt(after, l, x) || (IsPlace(e, l) && HoldsAt(after, l, c)) {
      assert HoldsAt(before, l, x) || (IsPlace(e, l) && HoldsAt(before, l, c));
    }
  }

  lemma FineConclude(cfg: Config, s: State, e: TransferEvent, c: Content)
    requires s.handler.Uploading? && HasEvent(s.handler) && EventOf(s.handler) == e
    requires UploadsFine(s.objects, e, s.handler.fan, c) && FanOut.Finished(s.handler.fan)
    ensures Enabled(cfg, s, Conclude) && Apply(cfg, s, Conclude) == s.(handler := Marking(s.handler.message))
    ensures AllHold(s.objects, e, c)
  {
    hide HoldsAt;
    AllSucceeded(cfg, s);
    forall i | 0 <= i < |e.destinations| ensures HoldsAt(s.objects, LocationOf(e.destinations[i]), c) {
      assert SlotCanSucceed(s.handler.fan.slots[i]);
    }
  }

  lemma UnderwayChecks(cfg: Config, s: State, t: State, step: Step, m: Message, c: Content)
    requires CleanJob(cfg, s, m, c) && Underway(s, t, m, c) && Enabled(cfg, t, step)
    requires step.Validate? || step.Locate? || step.Scan?
    ensures Underway(s, Apply(cfg, t, step), m, c)
  {
    hide CsvSecurity.Scan, Supported, HoldsAt, Apply, Enabled, FanOut.Begin, UploadsFine, AllHold, Kept;
    HandlerFrame(cfg, t, step);
    ConsumerFrame(cfg, t, step);
    HandlerMoves(cfg, t, step);
    FineBegin(t.objects, m.payload.event, cfg.concurrency, c);
  }

  lemma UnderwayEnd(cfg: Config, s: State, t: State, step: Step, m: Message, c: Content)
    requires Underway(s, t, m, c) && Enabled(cfg, t, step)
    requires m.payload.Event? && m.payload.event.idempotencyKey !in s.done
    requires step.Mark? || step.Ack? || step.Count? || step.Total?
    ensures Underway(s, Apply(cfg, t, step), m, c)
  {
    hide Apply, Enabled, UploadsFine, AllHold, Kept;
    HandlerFrame(cfg, t, step);
    ConsumerFrame(cfg, t, step);
    HandlerMoves(cfg, t, step);
  }

  lemma UnderwayUploads(cfg: Config, s: State, t: State, step: Step, m: Message, c: Content)
    requires CleanJob(cfg, s, m, c) && Underway(s, t, m, c) && Enabled(cfg, t, step)
    requires step.StartUpload? || (step.EndUpload? && step.fate.Succeeds?) || step.Conclude?
    ensures Underway(s, Apply(cfg, t, step), m, c)
  {
    hide CsvSecurity.Scan, Supported, WellFormed, HoldsAt, UploadsFine, Concluded, Kept;
    var e := m.payload.event;
    match step
    case StartUpload(i) => FineStart(t.objects, e, t.handler.fan, c, i);
    case EndUpload(i, _) =>
      assert e.destinations[i] in e.destinations;
      FineEnd(cfg, t, i, e, c);
      KeptEnd(s.objects, t.objects, Apply(cfg, t, step).objects, e, c, i);
    case Conclude => FineConclude(cfg, t, e, c);
  }

  lemma NotStuckNow(cfg: Config, s: State, t: State, m: Message, c: Content)
    requires CleanJob(cfg, s, m, c) && Underway(s, t, m, c)
    ensures !Stuck(cfg, t)
  {
    hide Supported, WellFormed, HoldsAt, UploadsFine, Concluded, CsvSecurity.Scan, Kept;
    if t.handler.Uploading? && FanOut.Finished(t.handler.fan) {
      FineConclude(cfg, t, m.payload.event, c);
    }
  }

  /** In fair weather a handling of a clean job goes through: its key is marked and every destination holds the
      file; the queues are left as they are. */
  lemma {:induction false} FairHandling(cfg: Config, s: State, steps: seq<Step>, w: Weather, m: Message, c: Content)
    requires s.handler == Validating(m) && CleanJob(cfg, s, m, c) && Fair(w) && Handled(cfg, s, steps, w)
    ensures Underway(s, Exec(cfg, s, steps), m, c)
    decreases |steps|
  {
    if steps != [] {
      hide Apply, Enabled, Underway, CleanJob, Stuck, Handled, Legal, Exec;
      var n := |steps| - 1;
      HandledPrefix(cfg, s, steps, w);
      FairHandling(cfg, s, steps[..n], w, m, c);
      var t := Exec(cfg, s, steps[..n]);
      NotStuckNow(cfg, s, t, m, c);
      if steps[n].StartUpload? || steps[n].EndUpload? || steps[n].Conclude? {
        UnderwayUploads(cfg, s, t, steps[n], m, c);
      } else {
        NeverRouting(cfg, s, t, m, c);
        assert m.payload.Event? && m.payload.event.idempotencyKey !in s.done by { JobIsNew(cfg, s, m, c); }
        if steps[n].Validate? || steps[n].Locate? || steps[n].Scan? {
          UnderwayChecks(cfg, s, t, steps[n], m, c);
        } else {
          UnderwayEnd(cfg, s, t, steps[n], m, c);
        }
      }
    }
  }

  lemma JobIsNew(cfg: Config, s: State, m: Message, c: Content)
    requires CleanJob(cfg, s, m, c)
    ensures m.payload.Event? && m.payload.event.idempotencyKey !in s.done
  {
  }

  lemma NeverRouting(cfg: Config, s: State, t: State, m: Message, c: Content)
    requires Underway(s, t, m, c)
    ensures !t.handler.Routing?
    ensures forall d :: !Enabled(cfg, t, Send(d))
  {
  }

  // A handling during an outage

  /** Every upload times out and writes nothing; the publish goes through. */
  ghost predicate Outage(w: Weather) {
    w.delivery.Confirmed? && forall i: nat :: w.fates(i) == FanOut.TimesOut(false)
  }

  /** What an upload that timed out reports. */
  function TimedOut(d: Destination): FanOut.UploadResult {
    FanOut.UploadResult(d.provider, false, Some(d.provider + ":upload_timeout"))
  }

  function AllTimedOut(ds: seq<Destination>): seq<FanOut.UploadResult> {
    seq(|ds|, i requires 0 <= i < |ds| => TimedOut(ds[i]))
  }

  predicate NoneSucceeds(e: TransferEvent, fan: FanOut.State) {
    && |fan.slots| == |e.destinations| >= 1
    && forall i :: 0 <= i < |fan.slots| && fan.slots[i].Reported? ==> fan.slots[i].result == TimedOut(e.destinations[i])
  }

  /** The copy of `m` for another round after all its uploads timed out. */
  function NextRound(cfg: Config, m: Message): Message
    requires m.payload.Event?
  {
    var e := m.payload.event;
    var lastError := FanOut.LastError(AllTimedOut(e.destinations));
    Message(Event(e.(retry := Some(RetryInfo(Attempt(e) + 1, cfg.maxAttempts, Some(lastError))))), m.origin, m.rounds + 1)
  }

  /** That copy is the last on the retry queue, for the time of its backoff. */
  predicate QueuedAgain(cfg: Config, s: State, t: State, m: Message)
    requires m.payload.Event?
  {
    && t.broker == s.broker.(retry := t.broker.retry)
    && |t.broker.retry| == |s.broker.retry| + 1
    && t.broker.retry[..|s.broker.retry|] == s.broker.retry
    && var entry := t.broker.retry[|s.broker.retry|];
       && entry.message == NextRound(cfg, m)
       && entry.queuedAt == s.now
       && Attempt(m.payload.event) >= 0
       && entry.deadline == s.now + Backoff.DelayMs(cfg.backoffBase, Attempt(m.payload.event) + 1)
  }

  /** How far a handling of `m` that began in `s` has come when no upload gets through. */
  predicate Suspended(cfg: Config, s: State, t: State, m: Message) {
    && m.payload.Event?
    && t.dir == s.dir && t.watch == s.watch && t.now == s.now && t.done == s.done && t.objects == s.objects
    && t.tally.success == s.tally.success
    && match t.handler
       case Idle => QueuedAgain(cfg, s, t, m)
       case Counting(v) => v.Retried? && QueuedAgain(cfg, s, t, m)
       case Acking(m', v) => m' == m && v.Retried? && QueuedAgain(cfg, s, t, m)
       case Routing(m', route) =>
         && m' == m && t.broker == s.broker && Attempt(m.payload.event) >= 0
         && route == ToRetry(NextRound(cfg, m), Backoff.DelayMs(cfg.backoffBase, Attempt(m.payload.event) + 1))
       case Uploading(m', fan) => m' == m && t.broker == s.broker && NoneSucceeds(m.payload.event, fan)
       case Validating(m') => m' == m && t.broker == s.broker
       case Locating(m') => m' == m && t.broker == s.broker
       case Scanning(m') => m' == m && t.broker == s.broker
       case _ => false
  }

  /** A job with a round left, and a destination to fail at. */
  predicate RetriableJob(cfg: Config, s: State, m: Message, c: Content) {
    && CleanJob(cfg, s, m, c)
    && 0 <= Attempt(m.payload.event) < cfg.maxAttempts
    && m.payload.event.destinations != []
    && s.broker.connected
  }

  lemma SuspendedChecks(cfg: Config, s: State, t: State, step: Step, m: Message, c: Content)
    requires RetriableJob(cfg, s, m, c) && Suspended(cfg, s, t, m) && Enabled(cfg, t, step)
    requires step.Validate? || step.Locate? || step.Scan?
    ensures Suspended(cfg, s, Apply(cfg, t, step), m)
  {
    hide CsvSecurity.Scan, Supported, Apply, Enabled, QueuedAgain;
    HandlerFrame(cfg, t, step);
    ConsumerFrame(cfg, t, step);
    HandlerMoves(cfg, t, step);
  }

  lemma SuspendedEnd(cfg: Config, s: State, t: State, step: Step, m: Message)
    requires Suspended(cfg, s, t, m) && Enabled(cfg, t, step)
    requires step.Mark? || step.Ack? || step.Count? || step.Total?
    ensures Suspended(cfg, s, Apply(cfg, t, step), m)
  {
    hide Apply, Enabled, QueuedAgain, NoneSucceeds;
    HandlerFrame(cfg, t, step);
    ConsumerFrame(cfg, t, step);
    HandlerMoves(cfg, t, step);
    SameBrokerQueued(cfg, s, t, Apply(cfg, t, step), m);
  }

  lemma SameBrokerQueued(cfg: Config, s: State, t: State, u: State, m: Message)
    requires t.broker == u.broker && m.payload.Event?
    ensures QueuedAgain(cfg, s, t, m) <==> QueuedAgain(cfg, s, u, m)
  {
  }

  lemma SuspendedUploads(cfg: Config, s: State, t: State, step: Step, m: Message, c: Content)
    requires RetriableJob(cfg, s, m, c) && Suspended(cfg, s, t, m) && Enabled(cfg, t, step)
    requires step.StartUpload? || (step.EndUpload? && step.fate == FanOut.TimesOut(false))
    ensures Suspended(cfg, s, Apply(cfg, t, step), m)
  {
    hide CsvSecurity.Scan, Supported, Apply, Enabled, QueuedAgain, NextRound, Backoff.DelayMs;
    HandlerFrame(cfg, t, step);
    ConsumerFrame(cfg, t, step);
    HandlerMoves(cfg, t, step);
    if step.EndUpload? {
      assert m.payload.event.destinations[step.i] in m.payload.event.destinations;
    }
  }

  lemma SuspendedConclude(cfg: Config, s: State, t: State, m: Message, c: Content)
    requires RetriableJob(cfg, s, m, c) && Suspended(cfg, s, t, m)
    requires t.handler.Uploading? && FanOut.Finished(t.handler.fan)
    ensures Enabled(cfg, t, Conclude) && Suspended(cfg, s, Apply(cfg, t, Conclude), m)
  {
    hide CsvSecurity.Scan, Supported, QueuedAgain, CleanJob, FanOut.LastError, Backoff.DelayMs;
    NoFailuresAllOk(FanOut.Results(t.handler.fan));
    assert !FanOut.Results(t.handler.fan)[0].ok;
    assert FanOut.Results(t.handler.fan) == AllTimedOut(m.payload.event.destinations);
  }

  lemma SuspendedSend(cfg: Config, s: State, t: State, m: Message)
    requires Suspended(cfg, s, t, m) && Enabled(cfg, t, Send(Confirmed))
    ensures Suspended(cfg, s, Apply(cfg, t, Send(Confirmed)), m)
  {
    hide MaxDeadline, NextRound, Backoff.DelayMs;
  }

  lemma NotStuckSuspended(cfg: Config, s: State, t: State, m: Message, c: Content)
    requires RetriableJob(cfg, s, m, c) && Suspended(cfg, s, t, m)
    ensures !Stuck(cfg, t)
  {
    hide CsvSecurity.Scan, Supported, QueuedAgain, FanOut.Finished;
    if t.handler.Uploading? && FanOut.Finished(t.handler.fan) {
      SuspendedConclude(cfg, s, t, m, c);
    }
  }

  lemma {:induction false} OutageSteps(cfg: Config, s: State, steps: seq<Step>, w: Weather, m: Message, c: Content)
    requires s.handler == Validating(m) && RetriableJob(cfg, s, m, c) && Outage(w) && Handled(cfg, s, steps, w)
    ensures Suspended(cfg, s, Exec(cfg, s, steps), m)
    decreases |steps|
  {
    if steps != [] {
      hide Apply, Enabled, Suspended, RetriableJob, Stuck, Handled, Legal, Exec;
      var n := |steps| - 1;
      HandledPrefix(cfg, s, steps, w);
      OutageSteps(cfg, s, steps[..n], w, m, c);
      var t := Exec(cfg, s, steps[..n]);
      NotStuckSuspended(cfg, s, t, m, c);
      if steps[n].StartUpload? || steps[n].EndUpload? {
        SuspendedUploads(cfg, s, t, steps[n], m, c);
      } else if steps[n].Conclude? {
        HandlerMoves(cfg, t, Conclude);
        SuspendedConclude(cfg, s, t, m, c);
      } else if steps[n].Send? {
        SuspendedSend(cfg, s, t, m);
      } else if steps[n].Validate? || steps[n].Locate? || steps[n].Scan? {
        SuspendedChecks(cfg, s, t, steps[n], m, c);
      } else {
        SuspendedEnd(cfg, s, t, steps[n], m);
      }
    } else {
      assert Suspended(cfg, s, s, m) by { JobIsEvent(cfg, s, m, c); }
    }
  }

  lemma JobIsEvent(cfg: Config, s: State, m: Message, c: Content)
    requires RetriableJob(cfg, s, m, c)
    ensures m.payload.Event?
  {
  }

  /** During an outage a handling puts its job off: a copy waits on the retry queue, and nothing is written. For the
      two destinations of the watcher's events the copy names both of them. */
  lemma {:induction false} OutageHandling(cfg: Config, s: State, steps: seq<Step>, w: Weather, m: Message, c: Content)
    requires s.handler == Validating(m) && RetriableJob(cfg, s, m, c) && Outage(w) && Handled(cfg, s, steps, w)
    ensures var t := Exec(cfg, s, steps);
            && Suspended(cfg, s, t, m)
            && (t.handler.Idle? && |m.payload.event.destinations| == 2
                && m.payload.event.destinations[0].provider == "aws-s3"
                && m.payload.event.destinations[1].provider == "gcp-gcs" ==>
                  && |t.broker.retry| == |s.broker.retry| + 1
                  && var copy := t.broker.retry[|s.broker.retry|].message.payload;
                     && copy.Event?
                     && copy.event == m.payload.event.(retry := copy.event.retry)
                     && copy.event.retry
                        == Some(RetryInfo(Attempt(m.payload.event) + 1, cfg.maxAttempts,
                                          Some("aws-s3:upload_timeout,gcp-gcs:upload_timeout"))))
  {
    hide Legal, Exec, Handled, RetriableJob, Outage, FanOut.LastError, Backoff.DelayMs;
    OutageSteps(cfg, s, steps, w, m, c);
    if |m.payload.event.destinations| == 2 && m.payload.event.destinations[0].provider == "aws-s3"
       && m.payload.event.destinations[1].provider == "gcp-gcs" {
      BothNamed(m.payload.event.destinations);
    }
  }

  lemma BothNamed(ds: seq<Destination>)
    requires |ds| == 2 && ds[0].provider == "aws-s3" && ds[1].provider == "gcp-gcs"
    ensures FanOut.LastError(AllTimedOut(ds)) == "aws-s3:upload_timeout,gcp-gcs:upload_timeout"
  {
    hide FanOut.LastError;
    FanOut.BothTimeOut(false, false);
    assert AllTimedOut(ds) == [ FanOut.ResultOf("aws-s3", FanOut.TimesOut(false)),
                                FanOut.ResultOf("gcp-gcs", FanOut.TimesOut(false)) ];
  }

  // One turn of the consumer's loop

  /** One turn of the consumer's loop in fair weather. */
  lemma FairTurn(cfg: Config, s: State, run: seq<Step>, w: Weather, c: Content)
    requires s.broker.main != [] && CleanJob(cfg, s, s.broker.main[0], c)
    requires Legal(cfg, s, run) && Enabled(cfg, s, Deliver) && Serves(cfg, s, run, w) && Fair(w)
    ensures Exec(cfg, s, run).handler.Idle?
    ensures Underway(Apply(cfg, s, Deliver), Exec(cfg, s, run), s.broker.main[0], c)
  {
    hide Legal, Exec, Underway, Handled, CleanJob, Fair;
    var t, m := Apply(cfg, s, Deliver), s.broker.main[0];
    assert CleanJob(cfg, t, m, c) by { SameJob(cfg, s, t, m, c); }
    FirstStep(cfg, s, Deliver, run[1..], w);
    assert [Deliver] + run[1..] == run;
    FairHandling(cfg, t, run[1..], w, m, c);
  }

  lemma ServedOnce(cfg: Config, s: State, run: seq<Step>, w: Weather)
    requires Served(cfg, s, run, [w])
    ensures Legal(cfg, s, run) && Serves(cfg, s, run, w)
  {
    hide Serves, Legal, Exec;
    assert [w][..0] == [];
    var k :| 0 <= k <= |run| && Legal(cfg, s, run[..k]) && Served(cfg, s, run[..k], [w][..0])
             && Serves(cfg, Exec(cfg, s, run[..k]), run[k..], [w][0]);
    assert run[..k] == [];
    NoSteps(cfg, s);
    assert k == 0 && run[0..] == run;
  }

  lemma SameJob(cfg: Config, s: State, t: State, m: Message, c: Content)
    requires t.dir == s.dir && t.done == s.done
    ensures CleanJob(cfg, s, m, c) <==> CleanJob(cfg, t, m, c)
  {
    hide CsvSecurity.Scan, Supported;
  }

  /** The same during an outage. */
  lemma OutageTurn(cfg: Config, s: State, run: seq<Step>, w: Weather, c: Content)
    requires Served(cfg, s, run, [w]) && Outage(w) && Enabled(cfg, s, Deliver)
    requires RetriableJob(cfg, s, s.broker.main[0], c)
    ensures Legal(cfg, s, run)
    ensures Exec(cfg, s, run).handler.Idle?
    ensures Suspended(cfg, Apply(cfg, s, Deliver), Exec(cfg, s, run), s.broker.main[0])
  {
    hide Legal, Exec, Suspended, Handled, CleanJob, Outage;
    ServedOnce(cfg, s, run, w);
    var t, m := Apply(cfg, s, Deliver), s.broker.main[0];
    assert CleanJob(cfg, t, m, c) by { SameJob(cfg, s, t, m, c); }
    FirstStep(cfg, s, Deliver, run[1..], w);
    assert [Deliver] + run[1..] == run;
    OutageHandling(cfg, t, run[1..], w, m, c);
  }

  // The parts put together

  /** A new system with one file, and with the given messages on the main and the retry queue. */
  predicate Holding(s: State, path: string, content: Content, main: seq<Message>, retry: seq<Delayed>) {
    && s.dir.files == map[path := content]
    && s.broker.main == main && s.broker.retry == retry
    && s.broker.held == [] && s.broker.dlq == [] && s.broker.connected
    && s.handler.Idle? && s.done == map[] && s.tally.success == 0
    && s.watch.queue == [] && s.watch.at.Waiting?
  }

  /** `m` is a copy of the file's event. */
  predicate CopyOf(cfg: Config, path: string, content: Content, ids: Ids, m: Message) {
    Draining.SameWork(Message(Event(FreshEvent(cfg, path, content, ids)), 0, 0), m)
  }

  lemma FreshJob(cfg: Config, s: State, path: string, ids: Ids, m: Message)
    requires path in s.dir.files && s.done == map[] && CopyOf(cfg, path, s.dir.files[path], ids, m)
    requires CsvSecurity.Scan(s.dir.files[path], cfg.fileLimit) == CsvSecurity.Issues([])
    ensures CleanJob(cfg, s, m, s.dir.files[path])
    ensures m.payload.event.destinations == Destinations(cfg, path)
    ensures m.payload.event.idempotencyKey == Key(cfg, path, s.dir.files[path])
    ensures m.payload.event.correlationId == ids.correlationId
  {
    hide CsvSecurity.Scan, Supported, Key;
    VersionOneDotZero();
    var a, b := FreshEvent(cfg, path, s.dir.files[path], ids), m.payload.event;
    assert b == b.(retry := None).(retry := b.retry) == a.(retry := b.retry);
  }

  /** The watcher's account of one closed file. */
  lemma OneFile(cfg: Config, files: map<string, Content>, path: string, turn: Turn, n: nat)
    requires turn.notices == [Closed(false, path)] && turn.readable && turn.first.Confirmed? && path in files
    requires Builds(cfg, files, path, turn)
    ensures var event := EventOfTurn(cfg, path, files[path], turn);
            AccountOf(cfg, files, [], [turn], n)
            == Account([Build(path, files[path], event)], [Message(Event(event), n, 0)], 1)
  {
    hide Builds, EventOfTurn;
    assert turn.notices[..0] == [] && Paths(turn.notices) == [path];
    assert [turn][1..] == [];
    var event := EventOfTurn(cfg, path, files[path], turn);
    var one := ResultOfTurn(cfg, files, [], turn, n);
    assert one.account == Account([Build(path, files[path], event)], [Message(Event(event), n, 0)], 1);
    PlusAssociates(one.account, one.account, one.account);
  }

  /** The file is written and closed, and the watcher takes a turn. */
  method DropFile(world: World, watcher: FileWatcher, path: string, content: Content, ids: Ids)
    requires watcher.Valid() && watcher.world == world && world.state == Init()
    requires HexDigests(world.cfg.hashes) && GoodIds(world.cfg, ids) && InWatchDir(world.cfg, path)
    modifies world, watcher
    ensures watcher.Valid() && watcher.published == 1 && world.state.tally == Init().tally
    ensures Holding(world.state, path, content, [Message(Event(FreshEvent(world.cfg, path, content, ids)), 0, 0)], [])
  {
    hide WellFormed, HexDigests, World.Recorded, AccountOf, Builds, SettledFor;
    world.WriteFile(path, content);
    var turn := Turn([Closed(false, path)], true, ids.eventId, ids.correlationId, ids.occurredAt, Confirmed, None);
    TurnBuilds(world.cfg, world.files, path, ids, turn);
    OneFile(world.cfg, world.files, path, turn, 0);
    assert world.publications == 0 && watcher.queue == [] && watcher.published == 0;
    watcher.Run([turn]);
  }

  lemma TurnBuilds(cfg: Config, files: map<string, Content>, path: string, ids: Ids, turn: Turn)
    requires HexDigests(cfg.hashes) && GoodIds(cfg, ids) && path in files && turn.readable
    requires turn.eventId == ids.eventId && turn.correlationId == ids.correlationId && turn.occurredAt == ids.occurredAt
    ensures Builds(cfg, files, path, turn)
    ensures EventOfTurn(cfg, path, files[path], turn) == FreshEvent(cfg, path, files[path], ids)
  {
    hide HexDigests, WellFormed;
    BuiltEventIsValid(cfg, path, files[path], ids.eventId, ids.correlationId, ids.occurredAt);
  }

  /** The consumer takes a turn, and nothing fails. */
  method DeliverFile(world: World, consumer: Consumer, path: string, content: Content, ids: Ids, ghost m: Message)
    requires consumer.Valid() && consumer.world == world && world.cfg.concurrency >= 1
    requires Holding(world.state, path, content, [m], []) && CopyOf(world.cfg, path, content, ids, m)
    requires CsvSecurity.Scan(content, world.cfg.fileLimit) == CsvSecurity.Issues([])
    modifies world, consumer, consumer.store
    ensures consumer.Valid() && consumer.success == 1 && Quiet(world.state)
    ensures consumer.store.rows == map[Key(world.cfg, path, content) := ids.correlationId]
    ensures Holds(world.cfg, world.objects, path, content)
    ensures world.main == [] && world.unacked == [] && world.retry == [] && world.dlq == []
    ensures world.state.watch == old(world.state).watch
  {
    hide CsvSecurity.Scan, Supported, WellFormed, Legal, Exec, World.Recorded, CleanJob, Served, Serves, Key, HoldsAt,
      Undone, CopyOf;
    ghost var before, trace := world.state, world.trace;
    FreshJob(world.cfg, before, path, ids, m);
    var fair := Weather(Confirmed, _ => FanOut.Succeeds);
    assert Fair(fair);
    consumer.Run([fair]);
    ServedOnce(world.cfg, before, world.trace[|trace|..], fair);
    FairTurn(world.cfg, before, world.trace[|trace|..], fair, content);
    FairResult(world.cfg, before, world.state, path, content, ids, m);
  }

  lemma FairResult(cfg: Config, s: State, t: State, path: string, content: Content, ids: Ids, m: Message)
    requires Holding(s, path, content, [m], []) && Enabled(cfg, s, Deliver) && m.payload.Event?
    requires m.payload.event.destinations == Destinations(cfg, path)
    requires m.payload.event.idempotencyKey == Key(cfg, path, content)
    requires m.payload.event.correlationId == ids.correlationId
    requires Underway(Apply(cfg, s, Deliver), t, m, content) && t.handler.Idle?
    ensures t.done == map[Key(cfg, path, content) := ids.correlationId] && Holds(cfg, t.objects, path, content)
    ensures t.broker == s.broker.(main := []) && t.watch == s.watch && t.tally.success == 1 && Quiet(t)
  {
    hide Key, HoldsAt, Kept;
    var e := m.payload.event;
    forall d | d in Destinations(cfg, path) ensures HoldsAt(t.objects, LocationOf(d), content) {
      var i :| 0 <= i < |e.destinations| && e.destinations[i] == d;
    }
  }

  /** The consumer takes a turn during an outage: a copy of the event is put off, and nothing else happens. */
  method PutOff(world: World, consumer: Consumer, path: string, content: Content, ids: Ids)
    requires consumer.Valid() && consumer.world == world && world.cfg.concurrency >= 1 && world.cfg.maxAttempts >= 1
    requires Holding(world.state, path, content, [Message(Event(FreshEvent(world.cfg, path, content, ids)), 0, 0)], [])
    requires CsvSecurity.Scan(content, world.cfg.fileLimit) == CsvSecurity.Issues([])
    modifies world, consumer, consumer.store
    ensures consumer.Valid() && |world.retry| == 1 && world.state.watch == old(world.state).watch
    ensures Holding(world.state, path, content, [], world.retry)
    ensures CopyOf(world.cfg, path, content, ids, world.retry[0].message)
  {
    hide CsvSecurity.Scan, Supported, WellFormed, Legal, Exec, World.Recorded, CleanJob, Served, Key, Undone;
    ghost var before, trace, m := world.state, world.trace, world.state.broker.main[0];
    FreshJob(world.cfg, before, path, ids, m);
    var timeouts := Weather(Confirmed, _ => FanOut.TimesOut(false));
    assert Outage(timeouts);
    consumer.Run([timeouts]);
    OutageTurn(world.cfg, before, world.trace[|trace|..], timeouts, content);
    assert QueuedAgain(world.cfg, Apply(world.cfg, before, Deliver), world.state, m);
  }

  /** The connection is lost and the process restarted. */
  method Reconnect(world: World, path: string, content: Content)
    requires world.Valid() && Holding(world.state, path, content, [], world.retry)
    modifies world
    ensures world.Valid() && world.retry == old(world.retry) && Holding(world.state, path, content, [], world.retry)
    ensures world.state.watch == old(world.state).watch
    ensures SameCounters(old(world.state.tally), world.state.tally)
  {
    hide World.Recorded;
    world.LoseConnection();
    world.RestartProcess();
  }

  /** Time goes on until the head of the retry queue is due. */
  method AwaitRetry(world: World, path: string, content: Content)
    requires world.Valid() && |world.retry| == 1 && Holding(world.state, path, content, [], world.retry)
    modifies world
    ensures world.Valid() && world.retry == old(world.retry) && world.retry[0].deadline <= world.now
    ensures Holding(world.state, path, content, [], world.retry) && world.state.watch == old(world.state).watch
    ensures SameCounters(old(world.state.tally), world.state.tally)
  {
    hide World.Valid, Holding;
    while world.now < world.retry[0].deadline
      invariant world.Valid() && world.retry == old(world.retry) && Holding(world.state, path, content, [], world.retry)
      invariant world.state.watch == old(world.state).watch && SameCounters(old(world.state.tally), world.state.tally)
      decreases world.retry[0].deadline - world.now
    {
      ghost var before := world.state;
      world.Wait();
      Ticked(world.cfg, before, path, content, world.retry);
    }
  }

  lemma Ticked(cfg: Config, s: State, path: string, content: Content, retry: seq<Delayed>)
    requires Holding(s, path, content, [], retry)
    ensures var t := Apply(cfg, s, Tick); Holding(t, path, content, [], retry) && t.watch == s.watch && t.tally == s.tally
  {
  }

  /** The connection is lost and the process restarted; the retry comes back when it is due. */
  method ComeBack(world: World, path: string, content: Content)
    requires world.Valid() && |world.retry| == 1 && Holding(world.state, path, content, [], world.retry)
    modifies world
    ensures world.Valid() && Holding(world.state, path, content, [old(world.retry)[0].message], [])
    ensures world.state.watch == old(world.state).watch
    ensures SameCounters(old(world.state.tally), world.state.tally)
  {
    hide World.Recorded;
    Reconnect(world, path, content);
    AwaitRetry(world, path, content);
    world.ExpireHead();
  }

  /** The consumer's own counters are untouched. */
  predicate SameCounters(a: Tally, b: Tally) {
    && b.success == a.success && b.retried == a.retried && b.deadLettered == a.deadLettered
    && b.duplicate == a.duplicate && b.dlqTotal == a.dlqTotal && b.hits == a.hits
  }

  /** From nothing to both clouds: the directory, the broker, the watcher and the consumer are put up, a clean file is
      written and closed, the watcher and the consumer each take a turn, and nothing fails. Then the key of the file
      is in the store, every destination holds its bytes, the queues are empty and each counter reads one. */
  method TransferFile(cfg: Config, key: string, content: Content, ids: Ids)
    returns (world: World, watcher: FileWatcher, consumer: Consumer)
    requires HexDigests(cfg.hashes) && GoodIds(cfg, ids) && cfg.concurrency >= 1
    requires CsvSecurity.Scan(content, cfg.fileLimit) == CsvSecurity.Issues([])
    ensures world.Valid() && watcher.Valid() && consumer.Valid() && Quiet(world.state)
    ensures watcher.world == world == consumer.world && world.cfg == cfg
    ensures consumer.store.rows == map[Key(cfg, cfg.watchDir + "/" + key, content) := ids.correlationId]
    ensures var s3, gcs := Location("aws-s3", cfg.s3Bucket, key), Location("gcp-gcs", cfg.gcsBucket, key);
            s3 in world.objects && world.objects[s3] == content && gcs in world.objects && world.objects[gcs] == content
    ensures world.main == [] && world.unacked == [] && world.retry == [] && world.dlq == []
    ensures watcher.published == 1 && consumer.success == 1
  {
    hide CsvSecurity.Scan, Supported, HexDigests, World.Valid, FreshEvent, InWatchDir, Holds, Key, Undone;
    var path := cfg.watchDir + "/" + key;
    assert InWatchDir(cfg, path) by { RelativeKeyExact(cfg, path); }
    world := new World(cfg);
    consumer := new Consumer(world);
    watcher := new FileWatcher(world);
    DropFile(world, watcher, path, content, ids);
    consumer.StaysValid();
    DeliverFile(world, consumer, path, content, ids, Message(Event(FreshEvent(cfg, path, content, ids)), 0, 0));
    HoldsWrittenOut(cfg, world.objects, path, key, content);
  }

  /** The same through an outage: every upload of the first round times out, the connection is lost, the process is
      restarted, and the retry comes back when it is due. */
  method TransferAfterOutage(cfg: Config, key: string, content: Content, ids: Ids)
    returns (world: World, watcher: FileWatcher, consumer: Consumer)
    requires HexDigests(cfg.hashes) && GoodIds(cfg, ids) && cfg.concurrency >= 1 && cfg.maxAttempts >= 1
    requires CsvSecurity.Scan(content, cfg.fileLimit) == CsvSecurity.Issues([])
    ensures world.Valid() && watcher.Valid() && consumer.Valid() && Quiet(world.state)
    ensures watcher.world == world == consumer.world && world.cfg == cfg
    ensures consumer.store.rows == map[Key(cfg, cfg.watchDir + "/" + key, content) := ids.correlationId]
    ensures var s3, gcs := Location("aws-s3", cfg.s3Bucket, key), Location("gcp-gcs", cfg.gcsBucket, key);
            s3 in world.objects && world.objects[s3] == content && gcs in world.objects && world.objects[gcs] == content
    ensures world.main == [] && world.unacked == [] && world.retry == [] && world.dlq == []
    ensures watcher.published == 1 && consumer.success == 1
  {
    hide CsvSecurity.Scan, Supported, HexDigests, World.Valid, FreshEvent, InWatchDir, Holds, Key, Undone, CopyOf;
    var path := cfg.watchDir + "/" + key;
    assert InWatchDir(cfg, path) by { RelativeKeyExact(cfg, path); }
    world := new World(cfg);
    consumer := new Consumer(world);
    watcher := new FileWatcher(world);
    DropFile(world, watcher, path, content, ids);
    consumer.StaysValid();
    PutOff(world, consumer, path, content, ids);
    ghost var copy := world.retry[0].message;
    ComeBack(world, path, content);
    consumer.StaysValid();
    DeliverFile(world, consumer, path, content, ids, copy);
    HoldsWrittenOut(cfg, world.objects, path, key, content);
  }
}
