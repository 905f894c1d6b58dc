/** When a system can come to rest at all, left entirely alone or with restarts. */
module Quiescence {
  import opened Common
  import opened Schema
  import opened Detection
  import opened Protocol
  import opened Lineage
  import opened DoneOnce
  import opened Continuations
  import opened Convergence
  import opened Draining
  import Csv
  import CsvSecurity
  import FanOut
  import KeyEncoding
  import RetryClosure
  import Utf8

  // Uploads under way brought to their end

  /** Upload `j` has put or is going to put something else than `c` at its destination. */
  predicate Spoils(s: State, j: nat, c: Content) {
    && s.handler.Uploading?
    && HasEvent(s.handler)
    && j < |s.handler.fan.slots| == |EventOf(s.handler).destinations|
    && var slot := s.handler.fan.slots[j];
       || (slot.Running? && slot.bytes.Some? && slot.bytes.value != c)
       || (slot.Reported? && !HoldsAt(s.objects, LocationOf(EventOf(s.handler).destinations[j]), c))
  }

  predicate DistinctPlaces(e: TransferEvent) {
    forall i, j :: 0 <= i < j < |e.destinations| ==> LocationOf(e.destinations[i]) != LocationOf(e.destinations[j])
  }

  /** A handler in the middle of its uploads. */
  ghost predicate Midway(cfg: Config, s: State) {
    && s.handler.Uploading?
    && HasEvent(s.handler)
    && |s.handler.fan.slots| == |EventOf(s.handler).destinations|
    && (forall d :: d in EventOf(s.handler).destinations ==> d.provider in FanOut.KNOWN_PROVIDERS)
    && s.handler.fan.permits + FanOut.RunningCount(s.handler.fan.slots) == cfg.concurrency
  }

  lemma MidwayWhen(cfg: Config, s: State)
    requires Sound(cfg, s) && s.handler.Uploading?
    ensures Midway(cfg, s) && WellFormed(cfg.validators, EventOf(s.handler))
  {
    assert Live(cfg, s.broker.origins, s.handler.message);
    forall d | d in EventOf(s.handler).destinations ensures d.provider in FanOut.KNOWN_PROVIDERS {
      assert ValidDestination(d);
    }
  }

  /** What the end of the uploads does and does not change. */
  ghost predicate Onward(s: State, t: State, j: nat, c: Content) {
    && s.handler.Uploading? && t.handler.Uploading? && HasEvent(s.handler)
    && t == s.(handler := s.handler.(fan := t.handler.fan), objects := t.objects)
    && (Deliverable(t.handler.fan) ==> Deliverable(s.handler.fan))
    && (EventOf(s.handler).source.path in s.dir.files && Deliverable(s.handler.fan) ==> Deliverable(t.handler.fan))
    && (DistinctPlaces(EventOf(s.handler)) && Spoils(s, j, c) ==> Spoils(t, j, c))
  }

  lemma StartNext(cfg: Config, s: State, i: nat, j: nat, c: Content) returns (t: State)
    requires Midway(cfg, s) && FanOut.CanStart(s.handler.fan, i)
    ensures Enabled(cfg, s, StartUpload(i)) && t == Apply(cfg, s, StartUpload(i))
    ensures Midway(cfg, t) && Onward(s, t, j, c)
    ensures FanOut.StepsLeft(t.handler.fan.slots) < FanOut.StepsLeft(s.handler.fan.slots)
  {
    hide WellFormed, FanOut.RunningCount, FanOut.StepsLeft;
    t := Apply(cfg, s, StartUpload(i));
    var path := EventOf(s.handler).source.path;
    var bytes := if path in s.dir.files then Some(s.dir.files[path]) else None;
    FanOut.ReplaceSlot(s.handler.fan.slots, i, FanOut.Running(bytes));
    var slots, after := s.handler.fan.slots, t.handler.fan.slots;
    assert after == slots[i := FanOut.Running(bytes)];
    assert forall k :: 0 <= k < |slots| ==> (SlotCanSucceed(after[k]) ==> SlotCanSucceed(slots[k]));
    assert bytes.Some? ==> forall k :: 0 <= k < |slots| ==> (SlotCanSucceed(slots[k]) ==> SlotCanSucceed(after[k]));
  }

  lemma EndNext(cfg: Config, s: State, i: nat, j: nat, c: Content) returns (fate: FanOut.Fate, t: State)
    requires Midway(cfg, s) && i < |s.handler.fan.slots| && s.handler.fan.slots[i].Running?
    ensures Enabled(cfg, s, EndUpload(i, fate)) && t == Apply(cfg, s, EndUpload(i, fate))
    ensures Midway(cfg, t) && Onward(s, t, j, c)
    ensures FanOut.StepsLeft(t.handler.fan.slots) < FanOut.StepsLeft(s.handler.fan.slots)
  {
    hide WellFormed, FanOut.RunningCount, FanOut.StepsLeft;
    var slots := s.handler.fan.slots;
    fate := if slots[i].bytes.Some? then FanOut.Succeeds else FanOut.TimesOut(false);
    t := Apply(cfg, s, EndUpload(i, fate));
    var d := EventOf(s.handler).destinations[i];
    assert d in EventOf(s.handler).destinations;
    var result := FanOut.ResultOf(d.provider, fate);
    FanOut.ReplaceSlot(slots, i, FanOut.Reported(result));
    var after := t.handler.fan.slots;
    assert after == slots[i := FanOut.Reported(result)];
    assert forall k :: 0 <= k < |slots| ==> (SlotCanSucceed(slots[k]) <==> SlotCanSucceed(after[k]));
  }

  /** The uploads under way and those still waiting come to their end, with success wherever it is possible. */
  lemma {:induction false} FinishUploads(cfg: Config, s: State, j: nat, c: Content)
    returns (run: seq<Step>, t: State)
    requires Midway(cfg, s) && cfg.concurrency >= 1
    ensures Legal(cfg, s, run) && Exec(cfg, s, run) == t && Unaided(run)
    ensures Midway(cfg, t) && FanOut.Finished(t.handler.fan) && Onward(s, t, j, c)
    decreases FanOut.StepsLeft(s.handler.fan.slots)
  {
    var slots := s.handler.fan.slots;
    hide Legal, Exec, Midway, Apply, Enabled, FanOut.RunningCount, FanOut.StepsLeft, Onward, Spoils, FanOut.Finished;
    if FanOut.Finished(s.handler.fan) {
      NoSteps(cfg, s);
      OnwardStill(cfg, s, j, c);
      run, t := [], s;
    } else {
      hide Unaided;
      var step, u := NextUpload(cfg, s, j, c);
      run, t := FinishUploads(cfg, u, j, c);
      assert Unaided([step]) by { UploadUnaided(step); }
      Prepend(cfg, s, step, run);
      OnwardTwice(s, u, t, j, c);
      run := [step] + run;
    }
  }

  lemma UploadUnaided(step: Step)
    requires InsideHandler(step)
    ensures Unaided([step])
  {
  }

  /** Some upload can go on. */
  lemma NextUpload(cfg: Config, s: State, j: nat, c: Content) returns (step: Step, t: State)
    requires Midway(cfg, s) && cfg.concurrency >= 1 && !FanOut.Finished(s.handler.fan)
    ensures Enabled(cfg, s, step) && t == Apply(cfg, s, step) && (step.StartUpload? || step.EndUpload?)
    ensures Midway(cfg, t) && Onward(s, t, j, c)
    ensures FanOut.StepsLeft(t.handler.fan.slots) < FanOut.StepsLeft(s.handler.fan.slots)
  {
    var slots := s.handler.fan.slots;
    hide Apply, Enabled, FanOut.RunningCount, FanOut.StepsLeft, Onward, Spoils;
    if i: nat :| i < |slots| && slots[i].Running? {
      hide Midway;
      var fate: FanOut.Fate;
      fate, t := EndNext(cfg, s, i, j, c);
      step := EndUpload(i, fate);
    } else {
      var i: nat :| i < |slots| && slots[i].Waiting?;
      PermitFree(cfg, s);
      hide Midway;
      t := StartNext(cfg, s, i, j, c);
      step := StartUpload(i);
    }
  }

  lemma PermitFree(cfg: Config, s: State)
    requires Midway(cfg, s) && forall i :: 0 <= i < |s.handler.fan.slots| ==> !s.handler.fan.slots[i].Running?
    ensures s.handler.fan.permits == cfg.concurrency
  {
    FanOut.NoStepsLeft(s.handler.fan.slots);
  }

  lemma OnwardTwice(s: State, t: State, u: State, j: nat, c: Content)
    requires Onward(s, t, j, c) && Onward(t, u, j, c)
    ensures Onward(s, u, j, c)
  {
    hide Spoils, Deliverable, DistinctPlaces;
  }

  lemma OnwardStill(cfg: Config, s: State, j: nat, c: Content)
    requires Midway(cfg, s)
    ensures s.handler.Uploading? && Onward(s, s, j, c)
  {
  }

  function WithMark(done: map<string, string>, e: TransferEvent): map<string, string> {
    if e.idempotencyKey in done then done else done[e.idempotencyKey := e.correlationId]
  }

  lemma Marks(cfg: Config, s: State)
    requires s.handler.Marking? && HasEvent(s.handler)
    ensures Enabled(cfg, s, Mark)
    ensures Apply(cfg, s, Mark)
         == s.(handler := Acking(s.handler.message, Success), done := WithMark(s.done, EventOf(s.handler)))
  {
  }

  /** A handler on its way to success comes to its ack with the key marked. */
  lemma FinishHandling(cfg: Config, s: State, j: nat, c: Content) returns (run: seq<Step>, t: State)
    requires Midway(cfg, s) && cfg.concurrency >= 1 && Deliverable(s.handler.fan)
    requires EventOf(s.handler).source.path in s.dir.files
    ensures Legal(cfg, s, run) && Exec(cfg, s, run) == t && Unaided(run)
    ensures t == s.(handler := Acking(s.handler.message, Success), objects := t.objects,
                    done := WithMark(s.done, EventOf(s.handler)))
    ensures DistinctPlaces(EventOf(s.handler)) && Spoils(s, j, c) ==>
              !HoldsAt(t.objects, LocationOf(EventOf(s.handler).destinations[j]), c)
  {
    hide Legal, Exec, Apply, Enabled, Deliverable, DistinctPlaces, WithMark, HoldsAt;
    var u: State;
    run, u := FinishUploads(cfg, s, j, c);
    AllSucceeded(cfg, u);
    run, t := Go(cfg, s, run, u, Conclude);
    Marks(cfg, t);
    run, t := Go(cfg, s, run, t, Mark);
  }

  // The exact condition

  /** The handler may still mark `key`. */
  predicate MayMark(h: Handler, key: string) {
    && HasEvent(h)
    && EventOf(h).idempotencyKey == key
    && (h.Marking? || (h.Uploading? && Deliverable(h.fan)))
  }

  /** Unless it is marked, the message in hand comes back: it has yet to pass the scan, or a failed round of it
      leads to a retry. */
  predicate ComesBack(cfg: Config, h: Handler) {
    || h.Validating? || h.Locating? || h.Scanning?
    || (h.Uploading? && HasEvent(h) && Attempt(EventOf(h)) < cfg.maxAttempts)
    || (h.Routing? && h.route.ToRetry?)
  }

  /** `m` is an unreadable message that nothing can get rid of. */
  ghost predicate Stuck(cfg: Config, s: State, m: Message) {
    && Unreadable(cfg, s, m)
    && !MayMark(s.handler, m.payload.event.idempotencyKey)
    && (Queued(s, m) || (Current(s) == [m] && ComesBack(cfg, s.handler)))
  }

  ghost predicate Blocked(cfg: Config, s: State) {
    exists m :: Stuck(cfg, s, m)
  }

  /** With nobody writing files or publishing from outside, the system can come to rest; it may be restarted, its
      connection cut and its watcher stopped, which gives up the paths that wait there. */
  ghost predicate CanRest(cfg: Config, s: State) {
    exists run: seq<Step> :: Legal(cfg, s, run) && HandsOff(run) && Quiet(Exec(cfg, s, run))
  }

  // Nothing but hands unblocks

  /** Two supported copies with the same key. */
  predicate Twins(m: Message, m': Message) {
    && m.payload.Event? && m'.payload.Event?
    && Supported(m.payload.event) && Supported(m'.payload.event)
    && m.payload.event.idempotencyKey == m'.payload.event.idempotencyKey
  }

  /** Twins name the same file. */
  ghost predicate KeysNamePaths(s: State) {
    forall m, m' :: IsCopy(s, m) && IsCopy(s, m') && Twins(m, m') ==>
      m.payload.event.source.path == m'.payload.event.source.path
  }

  predicate IsCopy(s: State, m: Message) {
    || m in s.broker.main
    || m in s.broker.held
    || m in InHand(s.handler)
    || exists d :: d in s.broker.retry && d.message == m
  }

  lemma OwnCopy(cfg: Config, files: set<KeyEncoding.File>, s: State, m: Message) returns (f: KeyEncoding.File)
    requires Sound(cfg, s) && Among(files, s) && OwnEventsOnly(s.broker.origins)
    requires IsCopy(s, m) && m.payload.Event? && Supported(m.payload.event)
    ensures f in files && m.payload.event.source.path == f.path
    ensures m.payload.event.idempotencyKey == Key(cfg, f.path, f.content)
  {
    hide WellFormed, Supported, OwnEventsOnly;
    assert Live(cfg, s.broker.origins, m);
    var o := SourceOf(cfg, s.broker.origins, m);
    f := KeyEncoding.File(o.path, o.content);
    assert s.watch.builds[o.build] in s.watch.builds;
  }

  lemma KeysDo(cfg: Config, files: set<KeyEncoding.File>, s: State)
    requires Sound(cfg, s) && Among(files, s) && OwnEventsOnly(s.broker.origins)
    requires KeyEncoding.CollisionFree(cfg.hashes, files)
    ensures KeysNamePaths(s)
  {
    hide Sound, Among, OwnEventsOnly, Supported, Key, KeyEncoding.CollisionFree, IsCopy;
    forall m, m' | IsCopy(s, m) && IsCopy(s, m') && Twins(m, m')
      ensures m.payload.event.source.path == m'.payload.event.source.path
    {
      var f := OwnCopy(cfg, files, s, m);
      var f' := OwnCopy(cfg, files, s, m');
      KeyIsInjective(cfg, files, f.path, f.content, f'.path, f'.content);
    }
  }

  predicate Hands(step: Step) {
    step.Write? || step.Remove? || step.Inject?
  }

  lemma StuckOutside(cfg: Config, s: State, step: Step, m: Message)
    requires Stuck(cfg, s, m) && Enabled(cfg, s, step) && OutsideConsumer(step) && !Hands(step)
    ensures Stuck(cfg, Apply(cfg, s, step), m)
  {
    hide WellFormed, BuildEvent, CsvSecurity.Scan, Supported, MayMark, ComesBack, Written;
    OutsideFrame(cfg, s, step);
  }

  /** A message that is stuck waits on a queue or has just been taken; no step of a handler changes that. */
  lemma StuckInside(cfg: Config, s: State, step: Step, m: Message)
    requires Stuck(cfg, s, m) && Enabled(cfg, s, step) && InsideHandler(step)
    requires Undone(s) && KeysNamePaths(s)
    ensures Stuck(cfg, Apply(cfg, s, step), m)
  {
    hide Apply, Enabled, Stuck, Undone, KeysNamePaths;
    if step.StartUpload? || step.EndUpload? || step.Conclude? {
      StuckUploads(cfg, s, step, m);
    } else {
      StuckChecks(cfg, s, step, m);
    }
  }

  lemma StuckChecks(cfg: Config, s: State, step: Step, m: Message)
    requires Stuck(cfg, s, m) && Enabled(cfg, s, step) && Undone(s) && KeysNamePaths(s)
    requires InsideHandler(step) && !step.StartUpload? && !step.EndUpload? && !step.Conclude?
    ensures Stuck(cfg, Apply(cfg, s, step), m)
  {
    hide Apply, Enabled, CsvSecurity.Scan, Supported, Deliverable, FanOut.Begin, Queued;
    HandlerFrame(cfg, s, step);
    ConsumerFrame(cfg, s, step);
    HandlerMoves(cfg, s, step);
    SameQueues(s, Apply(cfg, s, step), m);
    if step.Scan? {
      assert IsCopy(s, s.handler.message) && IsCopy(s, m) by { QueuedIsCopy(s, m); }
    }
  }

  lemma QueuedIsCopy(s: State, m: Message)
    ensures Queued(s, m) || m in Current(s) ==> IsCopy(s, m)
    ensures InHand(s.handler) != [] ==> IsCopy(s, s.handler.message)
  {
  }

  lemma StuckUploads(cfg: Config, s: State, step: Step, m: Message)
    requires Stuck(cfg, s, m) && Enabled(cfg, s, step)
    requires step.StartUpload? || step.EndUpload? || step.Conclude?
    ensures Stuck(cfg, Apply(cfg, s, step), m)
  {
    hide Apply, Enabled, Unreadable, Deliverable, Queued, Concluded, FanOut.Start, FanOut.End;
    HandlerFrame(cfg, s, step);
    ConsumerFrame(cfg, s, step);
    HandlerMoves(cfg, s, step);
    SameUnreadable(cfg, s, Apply(cfg, s, step), m);
    SameQueues(s, Apply(cfg, s, step), m);
    UnreadableEvent(cfg, s, m);
    match step
    case StartUpload(i) =>
      var path := EventOf(s.handler).source.path;
      var bytes := if path in s.dir.files then Some(s.dir.files[path]) else None;
      AfterStart(s.handler.fan, i, bytes, [], s.objects, EventOf(s.handler));
    case EndUpload(i, fate) =>
      AfterEnd(s.handler.fan, i, EventOf(s.handler).destinations[i].provider, fate, []);
    case Conclude => AfterConclude(cfg, s);
  }

  /** The copy that replaces a stuck message is stuck. */
  lemma StuckSend(cfg: Config, s: State, step: Step, m: Message) returns (m': Message)
    requires Stuck(cfg, s, m) && Enabled(cfg, s, step) && step.Send? && Tracked(cfg, s)
    ensures Stuck(cfg, Apply(cfg, s, step), m')
  {
    hide WellFormed, CsvSecurity.Scan, Supported, MaxDeadline, Unreadable;
    var t := Apply(cfg, s, step);
    m' := m;
    SameUnreadable(cfg, s, t, m);
    if step.delivery.Confirmed? && !Queued(s, m) {
      var route := s.handler.route;
      m' := route.copy;
      assert t.broker.retry[|s.broker.retry|] in t.broker.retry;
      CopySameWork(cfg, s);
      SameWorkAgrees(cfg, s, m, m');
      SameUnreadable(cfg, s, t, m');
      assert m'.payload.Event? by { UnreadableEvent(cfg, t, m'); }
    } else {
      RoutedGrows(s, m);
      assert Queued(t, m);
    }
  }

  lemma UnreadableEvent(cfg: Config, s: State, m: Message)
    requires Unreadable(cfg, s, m)
    ensures m.payload.Event?
  {
  }

  lemma CopySameWork(cfg: Config, s: State)
    requires Tracked(cfg, s) && s.handler.Routing? && s.handler.route.ToRetry?
    requires s.handler.message.payload.Event?
    ensures SameWork(s.handler.message, s.handler.route.copy)
  {
    hide WellFormed;
    assert Live(cfg, s.broker.origins, s.handler.message) && Live(cfg, s.broker.origins, s.handler.route.copy);
  }

  lemma RoutedGrows(s: State, m: Message)
    requires s.handler.Routing? && (Queued(s, m) || m in Current(s))
    ensures Queued(Abandon(s), m)
    ensures Queued(Abandon(s.(broker := PutRoute(s.broker, s.now, s.handler.route))), m)
    ensures Queued(s, m) ==> Queued(s.(broker := PutRoute(s.broker, s.now, s.handler.route)), m)
  {
    hide OnRetryQueue;
  }

  lemma StuckMove(cfg: Config, s: State, step: Step, m: Message)
    requires Stuck(cfg, s, m) && Enabled(cfg, s, step)
    requires step.Publish? || step.Expire? || step.Disconnect? || step.Deliver? || step.Raise? || step.Restart?
    ensures Stuck(cfg, Apply(cfg, s, step), m)
  {
    hide WellFormed, CsvSecurity.Scan, Supported, MayMark, Unreadable;
    var t := Apply(cfg, s, step);
    SameUnreadable(cfg, s, t, m);
    UnreadableEvent(cfg, t, m);
    CannotMark(t.handler, m);
    match step
    case Publish(_) => assert forall x :: x in s.broker.main ==> x in t.broker.main;
    case Expire =>
      assert t.broker.main[|s.broker.main|] in t.broker.main;
      assert forall d :: d in s.broker.retry ==> d == s.broker.retry[0] || d in t.broker.retry;
    case Deliver => assert forall x :: x in s.broker.main ==> x == s.broker.main[0] || x in t.broker.main;
    case Disconnect =>
      assert forall x :: x in Current(s) || x in s.broker.held || x in s.broker.main ==> x in t.broker.main;
    case Restart =>
      assert forall x :: x in Current(s) || x in s.broker.held || x in s.broker.main ==> x in t.broker.main;
    case Raise => assert forall x :: x in Current(s) || x in s.broker.held ==> x in t.broker.held;
  }

  lemma CannotMark(h: Handler, m: Message)
    requires m.payload.Event?
    ensures h.Idle? || h.Validating? ==> !MayMark(h, m.payload.event.idempotencyKey)
  {
  }

  lemma BlockedStep(cfg: Config, s: State, step: Step)
    requires Sound(cfg, s) && KeysNamePaths(s) && Enabled(cfg, s, step) && !Hands(step) && Blocked(cfg, s)
    ensures Blocked(cfg, Apply(cfg, s, step))
  {
    hide Apply, Enabled, Stuck, Sourced, Tracked, Permits, Undone, KeysNamePaths;
    var m :| Stuck(cfg, s, m);
    if OutsideConsumer(step) {
      StuckOutside(cfg, s, step, m);
    } else if InsideHandler(step) {
      StuckInside(cfg, s, step, m);
    } else if step.Send? {
      var m' := StuckSend(cfg, s, step, m);
    } else {
      StuckMove(cfg, s, step, m);
    }
  }

  lemma {:induction false} BlockedRun(cfg: Config, files: set<KeyEncoding.File>, s: State, run: seq<Step>)
    requires Legal(cfg, s, run) && HandsOff(run) && Known(cfg, files, s) && Blocked(cfg, s)
    ensures Blocked(cfg, Exec(cfg, s, run))
  {
    if run != [] {
      hide Apply, Enabled, Blocked, Known, Sound, KeysNamePaths;
      var n := |run| - 1;
      var t := Exec(cfg, s, run[..n]);
      BlockedRun(cfg, files, s, run[..n]);
      KnownAlong(cfg, files, s, run[..n]);
      KnownIs(cfg, files, t);
      assert run[n] in run;
      BlockedStep(cfg, t, run[n]);
    }
  }

  lemma NothingForeign(cfg: Config, s: State, step: Step)
    requires Enabled(cfg, s, step) && !Hands(step) && OwnEventsOnly(s.broker.origins)
    ensures OwnEventsOnly(Apply(cfg, s, step).broker.origins)
  {
    hide WellFormed, BuildEvent, OwnEventsOnly;
    if step.Publish? {
      if !step.delivery.Lost? {
        var b := s.watch.builds[s.watch.at.build];
        OwnMore(s.broker.origins, Detected(s.watch.at.build, b.path, b.content, b.event));
      }
    } else if OutsideConsumer(step) {
      hide Apply;
      OutsideFrame(cfg, s, step);
    } else {
      hide Apply;
      ConsumerFrame(cfg, s, step);
    }
  }

  lemma BlockedIsBusy(cfg: Config, s: State)
    requires Blocked(cfg, s)
    ensures !Quiet(s)
  {
    hide Unreadable, MayMark;
  }

  // Otherwise the handler comes to its end

  lemma SameQueues(s: State, t: State, m: Message)
    requires t.broker.main == s.broker.main && t.broker.held == s.broker.held && t.broker.retry == s.broker.retry
    ensures Queued(t, m) <==> Queued(s, m)
  {
  }

  /** The handler is about to scan a file that has gone. */
  predicate FileGone(s: State) {
    s.handler.Scanning? && HasEvent(s.handler) && EventOf(s.handler).source.path !in s.dir.files
  }

  function Phase(h: Handler): nat {
    match h
    case Idle => 0
    case Totalling(_) => 1
    case Counting(_) => 2
    case Acking(_, _) => 3
    case Routing(_, _) => 4
    case Marking(_) => 4
    case Uploading(_, _) => 5
    case Scanning(_) => 6
    case Locating(_) => 7
    case Validating(_) => 8
  }

  function UploadsLeft(h: Handler): nat {
    if h.Uploading? then FanOut.StepsLeft(h.fan.slots) else 0
  }

  lemma KeptQueued(s: State, t: State, m: Message)
    requires t.broker == s.broker
    ensures Queued(t, m) <==> Queued(s, m)
  {
  }

  /** A handler that goes on as well as it can makes no message stuck. */
  lemma OnwardsNothingSticks(cfg: Config, s: State, step: Step, m: Message)
    requires Enabled(cfg, s, step) && InsideHandler(step) && Undone(s) && KeysNamePaths(s)
    requires step.StartUpload? || step.EndUpload? ==> Onward(s, Apply(cfg, s, step), 0, [])
    requires Stuck(cfg, Apply(cfg, s, step), m)
    ensures Stuck(cfg, s, m)
  {
    hide Apply, Enabled, CsvSecurity.Scan, Supported, Deliverable, Queued, Concluded, FanOut.Start, Spoils;
    var t := Apply(cfg, s, step);
    HandlerFrame(cfg, s, step);
    ConsumerFrame(cfg, s, step);
    HandlerMoves(cfg, s, step);
    KeptQueued(s, t, m);
    if MayMark(s.handler, m.payload.event.idempotencyKey) {
      TwinInHand(s, m);
    }
    if step.Conclude? {
      AfterConclude(cfg, s);
    } else if step.Scan? {
      FreshIsDeliverable(|EventOf(s.handler).destinations|, cfg.concurrency);
    }
  }

  lemma FreshIsDeliverable(n: nat, concurrency: nat)
    ensures Deliverable(FanOut.Begin(n, concurrency))
  {
    var slots := FanOut.Begin(n, concurrency).slots;
    assert forall i :: 0 <= i < |slots| ==> SlotCanSucceed(slots[i]);
  }

  lemma TwinInHand(s: State, m: Message)
    requires Undone(s) && KeysNamePaths(s) && (Queued(s, m) || m in Current(s))
    requires m.payload.Event? && Supported(m.payload.event) && MayMark(s.handler, m.payload.event.idempotencyKey)
    ensures EventOf(s.handler).source.path == m.payload.event.source.path
  {
    hide Supported;
    assert IsCopy(s, m) && IsCopy(s, s.handler.message);
    assert Twins(m, s.handler.message);
  }

  /** Progress towards an idle handler. */
  predicate Nearer(s: State, t: State) {
    || Phase(t.handler) < Phase(s.handler)
    || (Phase(t.handler) == Phase(s.handler) && UploadsLeft(t.handler) < UploadsLeft(s.handler))
  }

  /** A step inside _handle, with success for an upload that can succeed. */
  lemma GoOn(cfg: Config, s: State) returns (step: Step)
    requires Sound(cfg, s) && cfg.concurrency >= 1 && cfg.maxAttempts >= 1
    requires !s.handler.Idle? && !s.handler.Routing? && (s.handler.Scanning? ==> Enabled(cfg, s, Scan))
    ensures Enabled(cfg, s, step) && InsideHandler(step)
    ensures step.StartUpload? || step.EndUpload? ==> Onward(s, Apply(cfg, s, step), 0, [])
    ensures Nearer(s, Apply(cfg, s, step)) && !FileGone(Apply(cfg, s, step))
  {
    hide WellFormed, Tracked, Sourced, Permits, Concluded, Supported, CsvSecurity.Scan;
    if s.handler.Uploading? {
      hide Apply, Enabled;
      step := GoOnUploading(cfg, s);
    } else {
      step := match s.handler
        case Validating(_) => Validate
        case Locating(_) => Locate
        case Scanning(_) => Scan
        case Marking(_) => Mark
        case Acking(_, _) => Ack
        case Counting(_) => Count
        case _ => Total;
      HasEventInHand(cfg, s);
      assert Enabled(cfg, s, step);
      hide Apply, Enabled;
      HandlerMoves(cfg, s, step);
      ConsumerFrame(cfg, s, step);
    }
  }

  lemma HasEventInHand(cfg: Config, s: State)
    requires Undone(s)
    ensures PastDedupe(s.handler) ==> HasEvent(s.handler)
  {
  }

  lemma GoOnUploading(cfg: Config, s: State) returns (step: Step)
    requires Sound(cfg, s) && cfg.concurrency >= 1 && cfg.maxAttempts >= 1 && s.handler.Uploading?
    ensures Enabled(cfg, s, step) && InsideHandler(step)
    ensures step.StartUpload? || step.EndUpload? ==> Onward(s, Apply(cfg, s, step), 0, [])
    ensures Nearer(s, Apply(cfg, s, step)) && !FileGone(Apply(cfg, s, step))
  {
    hide Apply, Enabled, WellFormed, Tracked, Sourced, Permits, FanOut.StepsLeft, FanOut.RunningCount, FanOut.Finished,
      Spoils, Deliverable, DistinctPlaces;
    MidwayWhen(cfg, s);
    if FanOut.Finished(s.handler.fan) {
      step := Conclude;
      CanConclude(cfg, s);
      AfterConclude(cfg, s);
    } else {
      var t: State;
      step, t := NextUpload(cfg, s, 0, []);
    }
  }

  lemma CanConclude(cfg: Config, s: State)
    requires s.handler.Uploading? && HasEvent(s.handler) && FanOut.Finished(s.handler.fan)
    requires WellFormed(cfg.validators, EventOf(s.handler)) && cfg.maxAttempts >= 1
    ensures Enabled(cfg, s, Conclude)
  {
    hide WellFormed;
    var fan := s.handler.fan;
    if FanOut.Failures(FanOut.Results(fan)) != [] {
      hide Concluded;
      RetryClosure.FailedRoundHasARouteIff(cfg, s.handler.message, fan);
    }
  }

  /** The copy is sent, or cannot be. */
  lemma SendOn(cfg: Config, s: State) returns (step: Step, t: State)
    requires Tracked(cfg, s) && !Blocked(cfg, s) && s.handler.Routing?
    ensures Enabled(cfg, s, step) && t == Apply(cfg, s, step) && Unaided([step]) && !Blocked(cfg, t)
    ensures t.watch == s.watch && t.dir == s.dir && t.broker.connected == s.broker.connected
    ensures t.broker.held == s.broker.held && Nearer(s, t) && !FileGone(t)
  {
    hide Tracked, Stuck, OnRetryQueue;
    step := Send(if s.broker.connected then Confirmed else Lost);
    t := Apply(cfg, s, step);
    if m :| Stuck(cfg, t, m) {
      SentNothingSticks(cfg, s, t, m);
    }
  }

  lemma SentNothingSticks(cfg: Config, s: State, t: State, m: Message)
    requires Tracked(cfg, s) && s.handler.Routing? && Stuck(cfg, t, m) && t.dir == s.dir && t.done == s.done
    requires if s.broker.connected
             then t.broker == PutRoute(s.broker, s.now, s.handler.route) && t.handler.Acking?
             else t.broker == s.broker.(held := s.broker.held + []) && t.handler.Idle?
    ensures Blocked(cfg, s)
  {
    hide Tracked, Unreadable, OnRetryQueue, SameWork, Stuck;
    SameUnreadable(cfg, s, t, m);
    assert Unreadable(cfg, s, m) && Queued(t, m) by { StuckWithoutHand(cfg, t, m); }
    var hand := s.handler.message;
    if !Queued(s, m) {
      NewlyQueued(s, t, m);
      CopyBackwards(cfg, s);
      SameWorkAgrees(cfg, s, hand, m);
      StuckInHand(cfg, s);
    } else {
      StuckInQueue(cfg, s, m);
    }
  }

  lemma StuckWithoutHand(cfg: Config, s: State, m: Message)
    requires Stuck(cfg, s, m) && (s.handler.Acking? || s.handler.Idle?)
    ensures Unreadable(cfg, s, m) && Queued(s, m)
  {
    hide Unreadable, Queued;
  }

  lemma NewlyQueued(s: State, t: State, m: Message)
    requires s.handler.Routing? && Queued(t, m) && !Queued(s, m)
    requires if s.broker.connected then t.broker == PutRoute(s.broker, s.now, s.handler.route)
             else t.broker == s.broker.(held := s.broker.held + [])
    ensures s.broker.connected && s.handler.route.ToRetry? && m == s.handler.route.copy
  {
    hide MaxDeadline;
  }

  lemma StuckInHand(cfg: Config, s: State)
    requires s.handler.Routing? && s.broker.connected && s.handler.route.ToRetry? && Unreadable(cfg, s, s.handler.message)
    ensures Blocked(cfg, s)
  {
    hide Supported, CsvSecurity.Scan, Queued;
    assert Stuck(cfg, s, s.handler.message);
  }

  lemma StuckInQueue(cfg: Config, s: State, m: Message)
    requires s.handler.Routing? && Queued(s, m) && Unreadable(cfg, s, m)
    ensures Blocked(cfg, s)
  {
    hide Supported, CsvSecurity.Scan, Queued;
    assert Stuck(cfg, s, m);
  }

  lemma CopyBackwards(cfg: Config, s: State)
    requires Tracked(cfg, s) && s.handler.Routing? && s.handler.route.ToRetry?
    ensures SameWork(s.handler.message, s.handler.route.copy)
  {
    hide WellFormed;
    assert Live(cfg, s.broker.origins, s.handler.message) && Live(cfg, s.broker.origins, s.handler.route.copy);
  }

  /** The handler raises before a file it cannot scan. */
  lemma GiveUp(cfg: Config, s: State) returns (step: Step, t: State)
    requires Undone(s) && !Blocked(cfg, s) && s.handler.Scanning? && !Enabled(cfg, s, Scan)
    ensures Enabled(cfg, s, step) && t == Apply(cfg, s, step) && Unaided([step]) && !Blocked(cfg, t)
    ensures t.watch == s.watch && t.dir == s.dir && t.broker.connected == s.broker.connected
    ensures s.broker.connected && !FileGone(s) ==> t.broker.held == s.broker.held
    ensures Nearer(s, t) && !FileGone(t)
  {
    hide Supported, CsvSecurity.Scan, Stuck;
    step := Raise;
    t := Apply(cfg, s, step);
    UnlessUnreadable(cfg, s);
    if m :| Stuck(cfg, t, m) {
      GivingUpNothingSticks(cfg, s, t, m);
    }
  }

  lemma UnlessUnreadable(cfg: Config, s: State)
    requires Undone(s) && !Blocked(cfg, s) && s.handler.Scanning? && !Enabled(cfg, s, Scan)
    ensures s.broker.connected ==> FileGone(s)
  {
    hide Supported, CsvSecurity.Scan, Blocked;
    if s.broker.connected && Unreadable(cfg, s, s.handler.message) {
      StuckAtScan(cfg, s);
    }
  }

  lemma StuckAtScan(cfg: Config, s: State)
    requires s.handler.Scanning? && s.broker.connected && Unreadable(cfg, s, s.handler.message)
    ensures Blocked(cfg, s)
  {
    hide Supported, CsvSecurity.Scan, Queued;
    assert Stuck(cfg, s, s.handler.message);
  }

  lemma GivingUpNothingSticks(cfg: Config, s: State, t: State, m: Message)
    requires s.handler.Scanning? && t == Abandon(s) && Stuck(cfg, t, m)
    ensures Stuck(cfg, s, m)
  {
    hide Unreadable;
    SameUnreadable(cfg, s, t, m);
    UnreadableEvent(cfg, s, m);
    assert Queued(s, m) || m in Current(s);
  }

  /** The handler takes its best next step. */
  lemma NextInHand(cfg: Config, s: State) returns (step: Step, t: State)
    requires Sound(cfg, s) && KeysNamePaths(s) && !Blocked(cfg, s) && !s.handler.Idle?
    requires cfg.concurrency >= 1 && cfg.maxAttempts >= 1
    ensures Enabled(cfg, s, step) && t == Apply(cfg, s, step) && Unaided([step]) && !Blocked(cfg, t)
    ensures t.watch == s.watch && t.dir == s.dir && t.broker.connected == s.broker.connected
    ensures s.broker.connected && !FileGone(s) ==> t.broker.held == s.broker.held
    ensures Nearer(s, t) && !FileGone(t)
  {
    hide Apply, Enabled, Tracked, Sourced, Permits, Undone, KeysNamePaths, Stuck, FileGone, Nearer, Onward;
    if s.handler.Routing? {
      step, t := SendOn(cfg, s);
    } else if s.handler.Scanning? && !Enabled(cfg, s, Scan) {
      step, t := GiveUp(cfg, s);
    } else {
      step := GoOn(cfg, s);
      t := Apply(cfg, s, step);
      UploadUnaided(step);
      HandlerFrame(cfg, s, step);
      ConsumerFrame(cfg, s, step);
      forall m | Stuck(cfg, t, m) ensures Stuck(cfg, s, m) {
        OnwardsNothingSticks(cfg, s, step, m);
      }
    }
  }

  /** What is known of a reachable state, and stays so when it is left alone. */
  ghost predicate Known(cfg: Config, files: set<KeyEncoding.File>, s: State) {
    && Sound(cfg, s)
    && Among(files, s)
    && OwnEventsOnly(s.broker.origins)
    && KeyEncoding.CollisionFree(cfg.hashes, files)
  }

  lemma KnownStep(cfg: Config, files: set<KeyEncoding.File>, s: State, step: Step)
    requires Known(cfg, files, s) && Enabled(cfg, s, step) && !Hands(step)
    ensures Known(cfg, files, Apply(cfg, s, step)) && KeysNamePaths(s)
  {
    hide Apply, Enabled, Sourced, Tracked, Undone, Permits, Among, OwnEventsOnly, KeyEncoding.CollisionFree,
      KeysNamePaths;
    KeysDo(cfg, files, s);
    SourcedStep(cfg, s, step);
    TrackedStep(cfg, s, step);
    UndoneStep(cfg, s, step);
    PermitsStep(cfg, s, step);
    AmongStep(cfg, files, s, step);
    NothingForeign(cfg, s, step);
  }

  lemma {:induction false} KnownAlong(cfg: Config, files: set<KeyEncoding.File>, s: State, run: seq<Step>)
    requires Known(cfg, files, s) && Legal(cfg, s, run) && HandsOff(run)
    ensures Known(cfg, files, Exec(cfg, s, run))
  {
    if run != [] {
      hide Apply, Enabled, Known;
      var n := |run| - 1;
      assert run[n] in run;
      KnownAlong(cfg, files, s, run[..n]);
      KnownStep(cfg, files, Exec(cfg, s, run[..n]), run[n]);
    }
  }

  /** The handling under way comes to its end. */
  lemma {:induction false} FinishInHand(cfg: Config, files: set<KeyEncoding.File>, s: State)
    returns (run: seq<Step>, t: State)
    requires Known(cfg, files, s) && !Blocked(cfg, s) && cfg.concurrency >= 1 && cfg.maxAttempts >= 1
    ensures Legal(cfg, s, run) && Exec(cfg, s, run) == t && Unaided(run)
    ensures t.handler.Idle? && !Blocked(cfg, t) && t.watch == s.watch && t.broker.connected == s.broker.connected
    ensures s.broker.connected && !FileGone(s) ==> t.broker.held == s.broker.held
    decreases Phase(s.handler), UploadsLeft(s.handler)
  {
    hide Legal, Exec, Apply, Enabled, Known, Blocked, Unaided, FileGone, UploadsLeft;
    if s.handler.Idle? {
      NoSteps(cfg, s);
      assert Unaided([]) by { NothingUnaided(); }
      run, t := [], s;
    } else {
      assert Sound(cfg, s) && KeysNamePaths(s) by { KnownIs(cfg, files, s); }
      var step, u := NextInHand(cfg, s);
      KnownStep(cfg, files, s, step) by { UnaidedIsNoHand(step); }
      run, t := FinishInHand(cfg, files, u);
      Prepend(cfg, s, step, run);
      run := [step] + run;
    }
  }

  lemma NothingUnaided()
    ensures Unaided([])
  {
  }

  lemma UnaidedIsNoHand(step: Step)
    requires Unaided([step])
    ensures !Hands(step)
  {
    assert step in [step];
  }

  lemma KnownIs(cfg: Config, files: set<KeyEncoding.File>, s: State)
    requires Known(cfg, files, s)
    ensures Sound(cfg, s) && KeysNamePaths(s)
  {
    hide Sound, Among, OwnEventsOnly, KeyEncoding.CollisionFree, KeysNamePaths;
    KeysDo(cfg, files, s);
  }

  lemma KnownRun(cfg: Config, files: set<KeyEncoding.File>, run: seq<Step>)
    requires KeyEncoding.CollisionFree(cfg.hashes, files) && Within(files, run)
    requires Legal(cfg, Init(), run) && OwnEventsOnly(Exec(cfg, Init(), run).broker.origins)
    ensures Known(cfg, files, Exec(cfg, Init(), run))
  {
    hide Sound, Among, OwnEventsOnly, KeyEncoding.CollisionFree;
    SoundRun(cfg, run);
    AmongRun(cfg, files, run);
  }

  lemma ClearWhenIdle(cfg: Config, s: State)
    requires s.handler.Idle? && !Blocked(cfg, s)
    ensures Clear(cfg, s)
  {
    hide Queued;
    BlockedBetweenMessages(cfg, s);
  }

  /** Between two messages the condition is plain: no queued message is unreadable. */
  lemma BlockedBetweenMessages(cfg: Config, s: State)
    requires s.handler.Idle?
    ensures Blocked(cfg, s) <==> exists m :: Queued(s, m) && Unreadable(cfg, s, m)
  {
    hide Unreadable, Queued;
    if m :| Queued(s, m) && Unreadable(cfg, s, m) {
      assert Stuck(cfg, s, m);
    }
    if Blocked(cfg, s) {
      var m :| Stuck(cfg, s, m);
    }
  }

  // Rest with the help of a restart

  lemma CanRestUnlessBlocked(cfg: Config, files: set<KeyEncoding.File>, s: State)
    requires Known(cfg, files, s) && !Blocked(cfg, s) && cfg.concurrency >= 1 && cfg.maxAttempts >= 1
    ensures CanRest(cfg, s)
  {
    hide Legal, Exec, Known, Blocked, Clear, Quiet, Undisturbed;
    var first, u := FinishInHand(cfg, files, s);
    ClearWhenIdle(cfg, u);
    KnownAlong(cfg, files, s, first);
    KnownIs(cfg, files, u);
    var rest, t := DrainFrom(cfg, u);
    Join(cfg, s, first, rest);
  }

  /** With nobody writing files or publishing from outside, but with restarts of the process (which give the paths
      that wait in the watcher up), a reachable state can come to rest if and only if no message is stuck on an
      unreadable file: no supported event with an undone key, queued or bound to come back, names a file that
      raises csv.Error, unless the handler is about to mark that key. */
  lemma {:induction false} CanRestIff(cfg: Config, files: set<KeyEncoding.File>, run: seq<Step>)
    requires KeyEncoding.CollisionFree(cfg.hashes, files) && Within(files, run)
    requires Legal(cfg, Init(), run) && OwnEventsOnly(Exec(cfg, Init(), run).broker.origins)
    requires cfg.concurrency >= 1 && cfg.maxAttempts >= 1
    ensures CanRest(cfg, Exec(cfg, Init(), run)) <==> !Blocked(cfg, Exec(cfg, Init(), run))
  {
    hide Known, Blocked, Quiet, OwnEventsOnly, KeyEncoding.CollisionFree;
    var s := Exec(cfg, Init(), run);
    KnownRun(cfg, files, run);
    if Blocked(cfg, s) {
      forall rest: seq<Step> | Legal(cfg, s, rest) && HandsOff(rest) ensures !Quiet(Exec(cfg, s, rest)) {
        BlockedRun(cfg, files, s, rest);
        BlockedIsBusy(cfg, Exec(cfg, s, rest));
      }
    } else {
      CanRestUnlessBlocked(cfg, files, s);
    }
  }

  // Rest without any help

  /** Left entirely alone, the system can come to rest. */
  ghost predicate CanSettle(cfg: Config, s: State) {
    exists run: seq<Step> :: Legal(cfg, s, run) && Unaided(run) && Quiet(Exec(cfg, s, run))
  }

  /** Nothing is stuck, no exception has left a message unacked, and none is bound to. */
  ghost predicate Smooth(cfg: Config, s: State) {
    s.broker.connected && s.broker.held == [] && !FileGone(s) && !Blocked(cfg, s)
  }

  /** The watcher works its queue off; the events it builds may all fail. */
  lemma {:induction false} IdleWatcher(cfg: Config, s: State) returns (run: seq<Step>, t: State)
    requires Sourced(cfg, s)
    ensures Legal(cfg, s, run) && Exec(cfg, s, run) == t && Unaided(run)
    ensures t == s.(watch := t.watch) && t.watch.queue == [] && t.watch.at.Waiting?
    decreases |s.watch.queue|, WatcherPhase(s.watch.at)
  {
    hide Legal, Exec, Apply, Enabled, Sourced, Unaided;
    if s.watch.queue == [] && s.watch.at.Waiting? {
      NoSteps(cfg, s);
      NothingUnaided();
      run, t := [], s;
    } else {
      var step, u := WatcherGoesOn(cfg, s);
      SourcedStep(cfg, s, step);
      run, t := IdleWatcher(cfg, u);
      Prepend(cfg, s, step, run);
      run := [step] + run;
    }
  }

  function WatcherPhase(at: Watcher): nat {
    match at
    case Waiting => 0
    case Announcing(_) => 1
    case Publishing(_, again) => if again then 1 else 2
    case Found(_) => 3
  }

  lemma WatcherGoesOn(cfg: Config, s: State) returns (step: Step, t: State)
    requires Sourced(cfg, s) && (s.watch.queue != [] || !s.watch.at.Waiting?)
    ensures Enabled(cfg, s, step) && t == Apply(cfg, s, step) && Unaided([step])
    ensures t == s.(watch := t.watch)
    ensures |t.watch.queue| < |s.watch.queue|
            || (t.watch.queue == s.watch.queue && WatcherPhase(t.watch.at) < WatcherPhase(s.watch.at))
  {
    hide WellFormed, BuildEvent, Fresh;
    match s.watch.at
    case Waiting => step := Take; t := Apply(cfg, s, Take);
    case Announcing(_) => step := CountPublished; t := Apply(cfg, s, CountPublished);
    case Publishing(_, _) => step := Publish(Lost); t := Apply(cfg, s, Publish(Lost));
    case Found(_) => step := BuildFails; t := Apply(cfg, s, BuildFails);
  }

  lemma OnlyTheWatcher(cfg: Config, s: State, t: State)
    requires t == s.(watch := t.watch)
    ensures Blocked(cfg, t) <==> Blocked(cfg, s)
    ensures FileGone(t) <==> FileGone(s)
  {
    hide CsvSecurity.Scan, Supported;
    assert forall m :: Stuck(cfg, s, m) <==> Stuck(cfg, t, m) by {
      forall m ensures Stuck(cfg, s, m) <==> Stuck(cfg, t, m) {
        SameUnreadable(cfg, s, t, m);
        KeptQueued(s, t, m);
      }
    }
  }

  lemma SettlesWhenSmooth(cfg: Config, files: set<KeyEncoding.File>, s: State)
    requires Known(cfg, files, s) && Smooth(cfg, s) && cfg.concurrency >= 1 && cfg.maxAttempts >= 1
    ensures CanSettle(cfg, s)
  {
    hide Legal, Exec, Blocked, Clear, Quiet, Undisturbed, FileGone, Unaided, Sourced, Tracked, Undone, Permits, Among,
      OwnEventsOnly, KeyEncoding.CollisionFree;
    var first, u := IdleWatcher(cfg, s);
    OnlyTheWatcher(cfg, s, u);
    KnownAlong(cfg, files, s, first) by { UnaidedIsHandsOff(first); }
    var second, v := FinishInHand(cfg, files, u);
    ClearWhenIdle(cfg, v);
    SoundAlong(cfg, u, second);
    var third, t := Drain(cfg, v);
    Join(cfg, s, first, second);
    Join(cfg, s, first + second, third);
  }

  lemma UnaidedIsHandsOff(run: seq<Step>)
    requires Unaided(run)
    ensures HandsOff(run)
  {
  }

  lemma RoughStep(cfg: Config, s: State, step: Step)
    requires Enabled(cfg, s, step) && Unaided([step])
    requires !s.broker.connected || s.broker.held != [] || FileGone(s)
    ensures var t := Apply(cfg, s, step); !t.broker.connected || t.broker.held != [] || FileGone(t)
  {
    hide WellFormed, CsvSecurity.Scan, Concluded, OnRetryQueue;
    assert step in [step];
    if OutsideConsumer(step) {
      hide Apply;
      OutsideFrame(cfg, s, step);
      OutsideKeepsFiles(cfg, s, step);
    } else {
      ConsumerFrame(cfg, s, step);
      if InsideHandler(step) {
        hide Apply;
        HandlerFrame(cfg, s, step);
        HandlerMoves(cfg, s, step);
      }
    }
  }

  lemma OutsideKeepsFiles(cfg: Config, s: State, step: Step)
    requires OutsideConsumer(step) && Enabled(cfg, s, step) && !Hands(step)
    ensures Apply(cfg, s, step).dir == s.dir
  {
    hide WellFormed, BuildEvent;
  }

  lemma {:induction false} RoughRun(cfg: Config, files: set<KeyEncoding.File>, s: State, run: seq<Step>)
    requires Known(cfg, files, s) && !Smooth(cfg, s) && Legal(cfg, s, run) && Unaided(run)
    ensures !Smooth(cfg, Exec(cfg, s, run))
  {
    if run != [] {
      hide Apply, Enabled, Known, Blocked, FileGone, KeysNamePaths, Sound;
      hide Unaided, Smooth;
      var n := |run| - 1;
      UnaidedParts(run);
      RoughRun(cfg, files, s, run[..n]);
      UnaidedIsHandsOff(run[..n]);
      KnownAlong(cfg, files, s, run[..n]);
      StillRough(cfg, files, Exec(cfg, s, run[..n]), run[n]);
    }
  }

  lemma StillRough(cfg: Config, files: set<KeyEncoding.File>, s: State, step: Step)
    requires Known(cfg, files, s) && !Smooth(cfg, s) && Enabled(cfg, s, step) && Unaided([step])
    ensures !Smooth(cfg, Apply(cfg, s, step))
  {
    hide Apply, Enabled, Known, Blocked, FileGone, KeysNamePaths, Sound;
    KnownIs(cfg, files, s);
    if Blocked(cfg, s) {
      UnaidedIsNoHand(step);
      BlockedStep(cfg, s, step);
    } else {
      RoughStep(cfg, s, step);
    }
  }

  lemma UnaidedParts(run: seq<Step>)
    requires Unaided(run) && run != []
    ensures Unaided(run[..|run| - 1]) && Unaided([run[|run| - 1]])
  {
    assert run[|run| - 1] in run;
  }

  lemma QuietIsSmooth(cfg: Config, s: State)
    requires Quiet(s)
    ensures Smooth(cfg, s)
  {
    hide Blocked;
    if Blocked(cfg, s) {
      BlockedIsBusy(cfg, s);
    }
  }

  /** Between two messages this is plain too: the connection is up, nothing is held, and no queued message is
      unreadable. */
  lemma SmoothBetweenMessages(cfg: Config, s: State)
    requires s.handler.Idle?
    ensures Smooth(cfg, s)
            <==> s.broker.connected && s.broker.held == [] && forall m :: Queued(s, m) ==> !Unreadable(cfg, s, m)
  {
    hide Unreadable, Queued, Blocked;
    BlockedBetweenMessages(cfg, s);
  }

  /** Left entirely alone - nobody writes files or publishes from outside, the process is not restarted, the
      connection is not cut and the watcher not stopped - a reachable state can come to rest if and only if the
      connection is up, no exception has left a message unacked, no message is stuck on an unreadable file, and
      the handler is not about to scan a file that has gone. */
  lemma {:induction false} CanSettleIff(cfg: Config, files: set<KeyEncoding.File>, run: seq<Step>)
    requires KeyEncoding.CollisionFree(cfg.hashes, files) && Within(files, run)
    requires Legal(cfg, Init(), run) && OwnEventsOnly(Exec(cfg, Init(), run).broker.origins)
    requires cfg.concurrency >= 1 && cfg.maxAttempts >= 1
    ensures CanSettle(cfg, Exec(cfg, Init(), run)) <==> Smooth(cfg, Exec(cfg, Init(), run))
  {
    hide Known, Smooth, Quiet, OwnEventsOnly, KeyEncoding.CollisionFree, Unaided;
    var s := Exec(cfg, Init(), run);
    KnownRun(cfg, files, run);
    if Smooth(cfg, s) {
      SettlesWhenSmooth(cfg, files, s);
    } else {
      forall rest: seq<Step> | Legal(cfg, s, rest) && Unaided(rest) ensures !Quiet(Exec(cfg, s, rest)) {
        RoughRun(cfg, files, s, rest);
        if Quiet(Exec(cfg, s, rest)) {
          QuietIsSmooth(cfg, Exec(cfg, s, rest));
        }
      }
    }
  }

  // The stall

  predicate Severs(step: Step) {
    step.Restart? || step.Disconnect?
  }

  lemma HeldStays(cfg: Config, s: State, step: Step)
    requires Enabled(cfg, s, step) && !Severs(step)
    ensures |s.broker.held| <= |Apply(cfg, s, step).broker.held|
  {
    hide WellFormed, OnRetryQueue;
    if OutsideConsumer(step) {
      hide Apply;
      OutsideFrame(cfg, s, step);
    } else if InsideHandler(step) {
      hide Apply;
      HandlerFrame(cfg, s, step);
    }
  }

  predicate Unsevered(run: seq<Step>) {
    forall step :: step in run ==> !Severs(step)
  }

  predicate DeliversNothing(run: seq<Step>) {
    forall step :: step in run ==> !step.Deliver?
  }

  lemma UnseveredParts(run: seq<Step>)
    requires Unsevered(run) && run != []
    ensures Unsevered(run[..|run| - 1]) && !Severs(run[|run| - 1])
  {
    assert run[|run| - 1] in run;
  }

  lemma StillNoDelivery(run: seq<Step>)
    requires run != [] && DeliversNothing(run[..|run| - 1]) && !run[|run| - 1].Deliver?
    ensures DeliversNothing(run)
  {
    assert run == run[..|run| - 1] + [run[|run| - 1]];
  }

  /** Once the messages that exceptions left unacked fill the prefetch window, nothing is delivered any more, whatever
      is written or published, until the process is restarted or the connection lost. */
  lemma {:induction false} FullWindowStalls(cfg: Config, s: State, run: seq<Step>)
    requires Legal(cfg, s, run) && |s.broker.held| >= 1 && |s.broker.held| >= cfg.concurrency && Unsevered(run)
    ensures |Exec(cfg, s, run).broker.held| >= |s.broker.held| && DeliversNothing(run)
  {
    if run != [] {
      hide Apply, Enabled, Severs, Unsevered, DeliversNothing;
      var n := |run| - 1;
      UnseveredParts(run);
      FullWindowStalls(cfg, s, run[..n]);
      FullWindowStep(cfg, Exec(cfg, s, run[..n]), run[n]);
      StillNoDelivery(run);
    }
  }

  lemma FullWindowStep(cfg: Config, s: State, step: Step)
    requires Enabled(cfg, s, step) && !Severs(step) && |s.broker.held| >= 1 && |s.broker.held| >= cfg.concurrency
    ensures |Apply(cfg, s, step).broker.held| >= |s.broker.held| && !step.Deliver?
  {
    hide Apply, WellFormed, CsvSecurity.Scan, Concluded;
    HeldStays(cfg, s, step);
  }

  /** A body that cannot be read is taken from the queue. */
  lemma BadLetter(cfg: Config, body: Content) returns (run: seq<Step>, t: State)
    ensures Legal(cfg, Init(), run) && Exec(cfg, Init(), run) == t && Within({}, run)
    ensures var m := Message(Garbled(body), 0, 0);
            && t == Init().(broker := t.broker, handler := Validating(m), tally := t.tally)
            && t.broker == Init().broker.(origins := [Foreign(Garbled(body))])
  {
    hide Legal, Exec, WellFormed, Supported, CsvSecurity.Scan, Concluded, BuildEvent, Written, OnRetryQueue;
    NoSteps(cfg, Init());
    run, t := Go(cfg, Init(), [], Init(), Inject(Garbled(body)));
    run, t := Go(cfg, Init(), run, t, Deliver);
  }

  /** Its dead letter is lost. */
  lemma LostLetter(cfg: Config, body: Content) returns (run: seq<Step>, t: State)
    ensures Legal(cfg, Init(), run) && Exec(cfg, Init(), run) == t && Within({}, run)
    ensures t == Init().(broker := t.broker, tally := t.tally)
    ensures t.broker == Init().broker.(held := [Message(Garbled(body), 0, 0)], origins := [Foreign(Garbled(body))])
  {
    hide Legal, Exec, WellFormed, Supported, CsvSecurity.Scan, Concluded, BuildEvent, Written, OnRetryQueue;
    run, t := BadLetter(cfg, body);
    run, t := Go(cfg, Init(), run, t, Validate);
    run, t := Go(cfg, Init(), run, t, Send(Lost));
  }

  /** The window is filled without any file: with a window of one, such a body is enough for the consumer to take
      nothing more. A restart helps, as nothing is unreadable. */
  lemma LostLetterStalls(cfg: Config, body: Content) returns (run: seq<Step>)
    requires KeyEncoding.CollisionFree(cfg.hashes, {}) && cfg.concurrency >= 1 && cfg.maxAttempts >= 1
    ensures Legal(cfg, Init(), run)
    ensures var s := Exec(cfg, Init(), run);
            && s.dir.files == map[] && s.handler.Idle? && s.broker.connected && |s.broker.held| == 1
            && CanRest(cfg, s) && !CanSettle(cfg, s)
            && (cfg.concurrency == 1 ==> forall rest: seq<Step> ::
                  Legal(cfg, s, rest) && Unsevered(rest) ==> DeliversNothing(rest))
  {
    hide Legal, Exec, CanRest, CanSettle, Blocked, FileGone, KeyEncoding.CollisionFree, Within, Supported,
      CsvSecurity.Scan;
    var s: State;
    run, s := LostLetter(cfg, body);
    BlockedBetweenMessages(cfg, s);
    CanRestIff(cfg, {}, run);
    CanSettleIff(cfg, {}, run);
    if cfg.concurrency == 1 {
      forall rest: seq<Step> | Legal(cfg, s, rest) && Unsevered(rest) ensures DeliversNothing(rest) {
        FullWindowStalls(cfg, s, rest);
      }
    }
  }

  /** With a window of two or more it does take the next message. */
  lemma NextInWindow(cfg: Config, body: Content, next: Content) returns (run: seq<Step>)
    requires cfg.concurrency >= 2
    ensures Legal(cfg, Init(), run) && run != [] && run[|run| - 1] == Deliver
    ensures var s := Exec(cfg, Init(), run);
            && s.broker.held == [Message(Garbled(body), 0, 0)]
            && s.handler == Validating(Message(Garbled(next), 1, 0))
  {
    hide Legal, Exec, WellFormed, Supported, CsvSecurity.Scan, Concluded, BuildEvent, Written, OnRetryQueue;
    var s: State;
    run, s := LostLetter(cfg, body);
    run, s := Go(cfg, Init(), run, s, Inject(Garbled(next)));
    DeliversIff(cfg, s);
    run, s := Go(cfg, Init(), run, s, Deliver);
  }

  // The blocking file

  /** A file the CSV reader fails on, once announced, keeps the system from ever resting. */
  lemma UnreadableFileBlocks(cfg: Config, path: string, c: Content, ids: Ids) returns (run: seq<Step>)
    requires KeyEncoding.CollisionFree(cfg.hashes, {KeyEncoding.File(path, c)})
    requires HexDigests(cfg.hashes) && GoodIds(cfg, ids) && InWatchDir(cfg, path)
    requires cfg.concurrency >= 1 && cfg.maxAttempts >= 1
    requires CsvSecurity.Scan(c, cfg.fileLimit).CsvError?
    ensures Legal(cfg, Init(), run) && !CanRest(cfg, Exec(cfg, Init(), run))
    ensures var s := Exec(cfg, Init(), run);
            path in s.dir.files && s.dir.files[path] == c && |s.broker.main| == 1 && s.broker.dlq == []
  {
    hide Legal, Exec, HexDigests, CsvSecurity.Scan, KeyEncoding.CollisionFree, CanRest, Blocked, Supported, InWatchDir;
    NoSteps(cfg, Init());
    var r, s := Go(cfg, Init(), [], Init(), Write(path, c));
    var r', t := Announce(cfg, s, path, ids);
    Concat(cfg, Init(), r, r');
    run := r + r';
    VersionOneDotZero();
    var m := Message(Event(FreshEvent(cfg, path, c, ids)), 0, 0);
    assert t.broker.main == [m];
    assert Unreadable(cfg, t, m) && Queued(t, m);
    BlockedBetweenMessages(cfg, t);
    CanRestIff(cfg, {KeyEncoding.File(path, c)}, run);
  }

  /** A concrete one: the three bytes of "A", a bare CR and "B". */
  lemma BareReturnBlocks() returns (cfg: Config, run: seq<Step>)
    ensures Legal(cfg, Init(), run) && !CanRest(cfg, Exec(cfg, Init(), run))
    ensures var s := Exec(cfg, Init(), run); "/in/a.csv" in s.dir.files && s.dir.files["/in/a.csv"] == [65, 13, 66]
  {
    hide Legal, Exec, CanRest, CsvSecurity.Scan;
    var zeros := seq(64, _ => '0');
    var digest: Content -> string := _ => zeros;
    cfg := Config("/in", "s3", "eu", "gcs", 5, 2.0, 2, 1000,
                  KeyEncoding.Hashes(digest, digest), Validators(_ => true, _ => true));
    assert KeyEncoding.IsChecksum(zeros);
    assert InWatchDir(cfg, "/in/a.csv") by {
      assert "/in" + "/" <= "/in/a.csv";
    }
    BareReturnFails();
    run := UnreadableFileBlocks(cfg, "/in/a.csv", [65, 13, 66], Ids("", "", ""));
  }

  lemma BareReturnFails()
    ensures CsvSecurity.Scan([65, 13, 66], 1000).CsvError?
  {
    hide Csv.ReadFrom, Utf8.Encode, Utf8.Decode;
    var text := ['A', '\r', 'B'];
    var bytes: Content := [65, 13, 66];
    EncodedReturn();
    Utf8.DecodeEncode(text);
    ReaderFails();
  }

  lemma EncodedReturn()
    ensures Utf8.Encode(['A', '\r', 'B']) == [65, 13, 66]
  {
    var text := ['A', '\r', 'B'];
    assert text[1..] == ['\r', 'B'] && text[1..][1..] == ['B'] && text[1..][1..][1..] == [];
  }

  lemma ReaderFails()
    ensures Csv.ReadFrom(Csv.FRESH, ['A', '\r', 'B']).None?
  {
    var text := ['A', '\r', 'B'];
    var inField := Csv.Reader(Csv.InField, "A", [], []);
    var eating := Csv.Reader(Csv.EatNewline, "", ["A"], []);
    assert "" + ['A'] == "A" && [] + ["A"] == ["A"];
    assert Csv.Step(Csv.FRESH, 'A') == Some(inField) && Csv.Step(inField, '\r') == Some(eating);
    assert Csv.Step(eating, 'B').None?;
    assert text[1..] == ['\r', 'B'] && text[1..][1..] == ['B'];
    assert Csv.ReadFrom(eating, ['B']).None? && Csv.ReadFrom(inField, ['\r', 'B']).None?;
  }
}
