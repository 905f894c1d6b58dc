/** How a system comes to rest when nobody writes files or publishes any more: every message can be brought to
    its end with uploads that fail, except one whose file the CSV reader cannot read. */
module Draining {
  import opened Common
  import opened Schema
  import opened Detection
  import opened Protocol
  import opened Lineage
  import opened DoneOnce
  import opened WorkBound
  import opened Continuations
  import CsvSecurity
  import FanOut
  import RetryClosure

  /** A supported event whose key is not done and whose file is there but raises csv.Error. */
  predicate Unreadable(cfg: Config, s: State, m: Message) {
    && m.payload.Event?
    && var e := m.payload.event;
       && Supported(e)
       && e.idempotencyKey !in s.done
       && e.source.path in s.dir.files
       && CsvSecurity.Scan(s.dir.files[e.source.path], cfg.fileLimit).CsvError?
  }

  /** A message on the main or retry queue or unacked after an exception. */
  ghost predicate Queued(s: State, m: Message) {
    || m in s.broker.main
    || m in s.broker.held
    || exists d :: d in s.broker.retry && d.message == m
  }

  /** No message on a queue or in hand is unreadable. */
  ghost predicate Clear(cfg: Config, s: State) {
    forall m :: Queued(s, m) || m in Current(s) ==> !Unreadable(cfg, s, m)
  }

  /** The invariants that the steps of a continuation keep. */
  ghost predicate Sound(cfg: Config, s: State) {
    Sourced(cfg, s) && Tracked(cfg, s) && Undone(s) && Permits(cfg, s)
  }

  /** The semaphore of the uploads under way. */
  predicate Permits(cfg: Config, s: State) {
    s.handler.Uploading? ==> s.handler.fan.permits + FanOut.RunningCount(s.handler.fan.slots) == cfg.concurrency
  }

  lemma PermitsStep(cfg: Config, s: State, step: Step)
    requires Permits(cfg, s) && Enabled(cfg, s, step)
    ensures Permits(cfg, Apply(cfg, s, step))
  {
    hide WellFormed, BuildEvent, CsvSecurity.Scan, Concluded, FanOut.RunningCount, FanOut.ResultOf;
    if OutsideConsumer(step) {
      hide Apply;
      OutsideFrame(cfg, s, step);
    } else if step.Scan? {
      FanOut.AllWaiting(|EventOf(s.handler).destinations|);
      SameSlots(|EventOf(s.handler).destinations|, cfg.concurrency);
    } else if step.StartUpload? {
      var path := EventOf(s.handler).source.path;
      var bytes := if path in s.dir.files then Some(s.dir.files[path]) else None;
      FanOut.ReplaceSlot(s.handler.fan.slots, step.i, FanOut.Running(bytes));
    } else if step.EndUpload? {
      var provider := EventOf(s.handler).destinations[step.i].provider;
      FanOut.ReplaceSlot(s.handler.fan.slots, step.i, FanOut.Reported(FanOut.ResultOf(provider, step.fate)));
    } else if step.Conclude? {
      NotUploading(cfg, s);
    }
  }

  lemma SameSlots(n: nat, concurrency: nat)
    ensures FanOut.Begin(n, concurrency).slots == FanOut.Begin(n, 0).slots
  {
  }

  lemma NotUploading(cfg: Config, s: State)
    requires Enabled(cfg, s, Conclude)
    ensures !Apply(cfg, s, Conclude).handler.Uploading?
  {
  }

  lemma {:induction false} SoundAlong(cfg: Config, s: State, run: seq<Step>)
    requires Sound(cfg, s) && Legal(cfg, s, run)
    ensures Sound(cfg, Exec(cfg, s, run))
  {
    if run != [] {
      hide Apply, Enabled, Sourced, Tracked, Undone, Permits;
      var n := |run| - 1;
      var before := Exec(cfg, s, run[..n]);
      SoundAlong(cfg, s, run[..n]);
      SourcedStep(cfg, before, run[n]);
      TrackedStep(cfg, before, run[n]);
      UndoneStep(cfg, before, run[n]);
      PermitsStep(cfg, before, run[n]);
    }
  }

  lemma SoundRun(cfg: Config, run: seq<Step>)
    requires Legal(cfg, Init(), run)
    ensures Sound(cfg, Exec(cfg, Init(), run))
  {
    SoundAlong(cfg, Init(), run);
  }

  /** What a drain leaves alone; new dead letters are none of done keys. */
  ghost predicate Undisturbed(s: State, t: State) {
    && t.dir == s.dir && t.done == s.done && t.objects == s.objects && t.broker.origins == s.broker.origins
    && s.broker.dlq <= t.broker.dlq
    && forall d :: d in t.broker.dlq ==> d in s.broker.dlq || NotOfDone(s.done, d.message.payload)
  }

  predicate NotOfDone(done: map<string, string>, payload: Payload) {
    payload.Event? && Supported(payload.event) ==> payload.event.idempotencyKey !in done
  }

  /** Nothing is in hand or held, and the watcher waits. */
  predicate Rested(s: State) {
    && s.watch.queue == [] && s.watch.at.Waiting?
    && s.broker.held == [] && s.broker.connected && s.handler.Idle?
  }

  // One message with failing uploads

  /** A dead letter is sent, and the handler acks and counts. */
  lemma Dispose(cfg: Config, s: State, before: seq<Step>, u: State) returns (run: seq<Step>, t: State)
    requires Legal(cfg, s, before) && Exec(cfg, s, before) == u && Unaided(before)
    requires u.handler.Routing? && u.broker.connected
    ensures Legal(cfg, s, run) && Exec(cfg, s, run) == t && Unaided(run)
    ensures t == u.(broker := PutRoute(u.broker, u.now, u.handler.route), handler := Idle, tally := t.tally)
  {
    hide Legal, Exec, PutRoute, WellFormed, CsvSecurity.Scan, Concluded, Written, ApplyEndUpload;
    run, t := Go(cfg, s, before, u, Send(Confirmed));
    run, t := Go(cfg, s, run, t, Ack);
    run, t := Go(cfg, s, run, t, Count);
    if u.handler.route.ToDlq? {
      run, t := Go(cfg, s, run, t, Total);
    }
  }

  /** The uploads from number `i` on fail one after the other. */
  lemma {:induction false} FailUploads(cfg: Config, s: State, before: seq<Step>, u: State, i: nat)
    returns (run: seq<Step>, t: State)
    requires Legal(cfg, s, before) && Exec(cfg, s, before) == u && Unaided(before)
    requires u.handler.Uploading? && HasEvent(u.handler) && u.handler.fan.permits >= 1
    requires |u.handler.fan.slots| == |EventOf(u.handler).destinations| && i <= |u.handler.fan.slots|
    requires forall j :: 0 <= j < i ==> u.handler.fan.slots[j].Reported? && !u.handler.fan.slots[j].result.ok
    requires forall j :: i <= j < |u.handler.fan.slots| ==> u.handler.fan.slots[j].Waiting?
    ensures Legal(cfg, s, run) && Exec(cfg, s, run) == t && Unaided(run)
    ensures t.handler.Uploading? && t == u.(handler := u.handler.(fan := t.handler.fan))
    ensures |t.handler.fan.slots| == |u.handler.fan.slots|
    ensures forall j :: 0 <= j < |t.handler.fan.slots| ==>
              t.handler.fan.slots[j].Reported? && !t.handler.fan.slots[j].result.ok
    decreases |u.handler.fan.slots| - i
  {
    hide Legal, Exec;
    if i == |u.handler.fan.slots| {
      run, t := before, u;
    } else {
      run, t := Go(cfg, s, before, u, StartUpload(i));
      run, t := Go(cfg, s, run, t, EndUpload(i, FanOut.TimesOut(false)));
      run, t := FailUploads(cfg, s, run, t, i + 1);
    }
  }

  /** The failed uploads are found, and a copy is on its way to the retry queue or the DLQ. */
  lemma FailRound(cfg: Config, s: State, before: seq<Step>, u: State) returns (run: seq<Step>, t: State)
    requires Legal(cfg, s, before) && Exec(cfg, s, before) == u && Unaided(before)
    requires cfg.maxAttempts >= 1 && cfg.concurrency >= 1
    requires u.handler.Uploading? && HasEvent(u.handler) && WellFormed(cfg.validators, EventOf(u.handler))
    requires u.handler.fan == FanOut.Begin(|EventOf(u.handler).destinations|, cfg.concurrency)
    ensures Legal(cfg, s, run) && Exec(cfg, s, run) == t && Unaided(run)
    ensures t == u.(handler := t.handler) && t.handler.Routing? && t.handler.message == u.handler.message
    ensures SameWork(u.handler.message, t.handler.route.copy)
  {
    hide Legal, Exec, WellFormed, Concluded;
    run, t := FailUploads(cfg, s, before, u, 0);
    var m, fan := t.handler.message, t.handler.fan;
    assert FanOut.Finished(fan);
    assert |fan.slots| >= 1 by { HasDestination(cfg, EventOf(u.handler)); }
    NoFailuresAllOk(FanOut.Results(fan));
    assert !FanOut.Results(fan)[0].ok;
    RetryClosure.FailedRoundHasARouteIff(cfg, m, fan);
    ConcludedSameWork(cfg, m, fan);
    run, t := Go(cfg, s, run, t, Conclude);
  }

  lemma HasDestination(cfg: Config, e: TransferEvent)
    requires WellFormed(cfg.validators, e)
    ensures |e.destinations| >= 1
  {
  }

  /** Two copies of one event. */
  predicate SameWork(m: Message, copy: Message) {
    m.payload.Event? && copy.payload.Event? && SameButRetry(m.payload.event, copy.payload.event)
  }

  lemma ConcludedSameWork(cfg: Config, m: Message, fan: FanOut.State)
    requires m.payload.Event? && FanOut.Finished(fan) && FanOut.Failures(FanOut.Results(fan)) != []
    requires Concluded(cfg, m, m.payload.event, fan).Some?
    ensures var h := Concluded(cfg, m, m.payload.event, fan).value; h.Routing? && SameWork(m, h.route.copy)
  {
    hide FanOut.LastError, FanOut.Failures;
  }

  lemma SameWorkAgrees(cfg: Config, s: State, m: Message, copy: Message)
    requires SameWork(m, copy)
    ensures Unreadable(cfg, s, m) <==> Unreadable(cfg, s, copy)
    ensures NotOfDone(s.done, m.payload) <==> NotOfDone(s.done, copy.payload)
  {
    hide CsvSecurity.Scan;
    var a, b := m.payload.event, copy.payload.event;
    assert a.(retry := None) == b.(retry := None);
    assert a.source == a.(retry := None).source == b.source && a.schemaVersion == b.schemaVersion;
    assert a.idempotencyKey == a.(retry := None).idempotencyKey == b.idempotencyKey;
    RetryClosure.SupportedByVersion(a, b);
  }

  /** The handler has decided about its message: it acks a duplicate or sends a copy somewhere. */
  ghost predicate Decided(cfg: Config, u: State) {
    || (u.handler.Acking? && u.handler.verdict.Duplicate?)
    || (&& u.handler.Routing?
        && (u.handler.route.ToRetry? ==> !Unreadable(cfg, u, u.handler.route.copy))
        && (u.handler.route.ToDlq? ==> NotOfDone(u.done, u.handler.route.copy.payload)))
  }

  /** The file is looked at and, if it is clean, its uploads fail. */
  lemma DecideFile(cfg: Config, s: State, before: seq<Step>, u: State) returns (run: seq<Step>, t: State)
    requires Legal(cfg, s, before) && Exec(cfg, s, before) == u && Unaided(before)
    requires cfg.maxAttempts >= 1 && cfg.concurrency >= 1
    requires u.handler.Locating? && HasEvent(u.handler) && WellFormed(cfg.validators, EventOf(u.handler))
    requires !Unreadable(cfg, u, u.handler.message) && NotOfDone(u.done, u.handler.message.payload)
    requires Supported(EventOf(u.handler))
    ensures Legal(cfg, s, run) && Exec(cfg, s, run) == t && Unaided(run)
    ensures t == u.(handler := t.handler) && InHand(t.handler) == InHand(u.handler) && Decided(cfg, t)
  {
    hide Legal, Exec, WellFormed, CsvSecurity.Scan, Supported, FanOut.Begin;
    run, t := Go(cfg, s, before, u, Locate);
    if t.handler.Scanning? {
      run, t := Go(cfg, s, run, t, Scan);
      if t.handler.Uploading? {
        hide Unreadable, NotOfDone;
        run, t := FailRound(cfg, s, run, t);
        SameWorkAgrees(cfg, u, u.handler.message, t.handler.route.copy);
        SameUnreadable(cfg, u, t, t.handler.route.copy);
      }
    }
  }

  lemma SameUnreadable(cfg: Config, s: State, t: State, m: Message)
    requires t.dir == s.dir && t.done == s.done
    ensures Unreadable(cfg, s, m) <==> Unreadable(cfg, t, m)
  {
    hide CsvSecurity.Scan;
  }

  /** The head of the main queue is delivered and decided about. */
  lemma DecideHead(cfg: Config, s: State) returns (run: seq<Step>, t: State)
    requires Rested(s) && Tracked(cfg, s) && Clear(cfg, s) && s.broker.main != []
    requires cfg.maxAttempts >= 1 && cfg.concurrency >= 1
    ensures Legal(cfg, s, run) && Exec(cfg, s, run) == t && Unaided(run)
    ensures t == s.(broker := s.broker.(main := s.broker.main[1..]), handler := t.handler, tally := t.tally)
    ensures InHand(t.handler) == [s.broker.main[0]] && Decided(cfg, t)
  {
    hide Legal, Exec, WellFormed, Supported, CsvSecurity.Scan, Concluded, Written, ApplyEndUpload, ApplySend;
    var m := s.broker.main[0];
    assert Queued(s, m) && Live(cfg, s.broker.origins, m);
    assert Legal(cfg, s, []) && Exec(cfg, s, []) == s by { NoSteps(cfg, s); }
    run, t := Go(cfg, s, [], s, Deliver);
    run, t := Go(cfg, s, run, t, Validate);
    if t.handler.Locating? {
      SameUnreadable(cfg, s, t, m);
      run, t := DecideFile(cfg, s, run, t);
    }
  }

  /** What is left in place of a message that has been handled. */
  ghost predicate Handed(cfg: Config, s: State, t: State) {
    && s.broker.main != []
    && t.broker.main == s.broker.main[1..]
    && Rested(t)
    && Undisturbed(s, t)
    && SumDelayed(cfg, t.broker.retry) <= SumDelayed(cfg, s.broker.retry) + Remaining(cfg, s.broker.main[0]) - 1
    && Clear(cfg, t)
  }

  /** The decision taken on the head of the queue is carried out. */
  lemma HandedAfter(cfg: Config, s: State, u: State, t: State)
    requires Rested(s) && Tracked(cfg, s) && Clear(cfg, s) && s.broker.main != []
    requires u == s.(broker := s.broker.(main := s.broker.main[1..]), handler := u.handler, tally := u.tally)
    requires InHand(u.handler) == [s.broker.main[0]] && Decided(cfg, u) && Tracked(cfg, u)
    requires t == u.(broker := if u.handler.Routing? then PutRoute(u.broker, u.now, u.handler.route) else u.broker,
                     handler := Idle, tally := t.tally)
    ensures Handed(cfg, s, t)
  {
    hide Live, Buried, RouteTracked, Remaining, OnRetryQueue, Sum, SumDelayed, NotOfDone, Unreadable;
    RemainingRange(cfg, s.broker.main[0]);
    if u.handler.Routing? {
      OutlayRoute(cfg, u);
      RoutedEntries(u);
    }
    forall m | Queued(t, m) || m in Current(t) ensures !Unreadable(cfg, t, m) {
      SameUnreadable(cfg, s, t, m);
      SameUnreadable(cfg, u, t, m);
      assert Queued(s, m) || (u.handler.Routing? && u.handler.route.ToRetry? && m == u.handler.route.copy);
    }
  }

  lemma RoutedEntries(s: State)
    requires s.handler.Routing?
    ensures var b, route := PutRoute(s.broker, s.now, s.handler.route), s.handler.route;
            && (forall d :: d in b.retry ==> d in s.broker.retry || (route.ToRetry? && d.message == route.copy))
            && (forall d :: d in b.dlq ==> d in s.broker.dlq || (route.ToDlq? && d.message == route.copy))
            && s.broker.dlq <= b.dlq
            && b == s.broker.(retry := b.retry, dlq := b.dlq)
  {
    hide MaxDeadline;
  }

  lemma HandleHead(cfg: Config, s: State) returns (run: seq<Step>, t: State)
    requires Rested(s) && Sound(cfg, s) && Clear(cfg, s) && s.broker.main != []
    requires cfg.maxAttempts >= 1 && cfg.concurrency >= 1
    ensures Legal(cfg, s, run) && Exec(cfg, s, run) == t && Unaided(run)
    ensures Handed(cfg, s, t)
  {
    hide Legal, Exec, Clear, Decided, Tracked, Sourced, Undone, Permits, Handed, PutRoute;
    run, t := DecideHead(cfg, s);
    ghost var u := t;
    SoundAlong(cfg, s, run);
    if t.handler.Routing? {
      run, t := Dispose(cfg, s, run, t);
    } else {
      assert t.handler.Acking? && t.handler.verdict.Duplicate? by { DecidedAck(cfg, t); }
      run, t := Close(cfg, s, run, t);
    }
    HandedAfter(cfg, s, u, t);
  }

  lemma DecidedAck(cfg: Config, u: State)
    requires Decided(cfg, u)
    ensures u.handler.Routing? || (u.handler.Acking? && u.handler.verdict.Duplicate?)
  {
  }

  // All messages

  /** Time goes on until the head of the retry queue is due, and it comes back. */
  lemma {:induction false} AwaitHead(cfg: Config, s: State) returns (run: seq<Step>, t: State)
    requires s.broker.retry != []
    ensures Legal(cfg, s, run) && Exec(cfg, s, run) == t && Unaided(run)
    ensures t == s.(now := t.now,
                    broker := s.broker.(main := s.broker.main + [s.broker.retry[0].message], retry := s.broker.retry[1..]))
    decreases s.broker.retry[0].deadline - s.now
  {
    hide Legal, Exec;
    assert Legal(cfg, s, []) && Exec(cfg, s, []) == s by { NoSteps(cfg, s); }
    if s.broker.retry[0].deadline <= s.now {
      run, t := Go(cfg, s, [], s, Expire);
    } else {
      var first, u := Go(cfg, s, [], s, Tick);
      var rest: seq<Step>;
      rest, t := AwaitHead(cfg, u);
      Concat(cfg, s, first, rest);
      run := first + rest;
    }
  }

  function Load(cfg: Config, s: State): nat {
    Sum(cfg, s.broker.main) + SumDelayed(cfg, s.broker.retry)
  }

  lemma UndisturbedTwice(s: State, t: State, u: State)
    requires Undisturbed(s, t) && Undisturbed(t, u)
    ensures Undisturbed(s, u)
  {
    hide NotOfDone;
  }

  lemma AfterHead(cfg: Config, s: State, t: State)
    requires Handed(cfg, s, t)
    ensures Load(cfg, t) < Load(cfg, s)
  {
    hide Sum, SumDelayed, Remaining, Clear, Undisturbed;
    SumHead(cfg, s.broker.main);
  }

  lemma AfterExpiry(cfg: Config, s: State, t: State)
    requires Rested(s) && Clear(cfg, s) && s.broker.main == [] && s.broker.retry != []
    requires t == s.(now := t.now,
                     broker := s.broker.(main := s.broker.main + [s.broker.retry[0].message], retry := s.broker.retry[1..]))
    ensures Rested(t) && Clear(cfg, t) && Load(cfg, t) == Load(cfg, s) && t.broker.main != [] && Undisturbed(s, t)
  {
    hide Remaining, Unreadable, NotOfDone;
    SumOne(cfg, s.broker.retry[0].message);
    SumDelayedHead(cfg, s.broker.retry);
    assert t.broker.main == [s.broker.retry[0].message];
    forall m | Queued(t, m) || m in Current(t) ensures !Unreadable(cfg, t, m) {
      SameUnreadable(cfg, s, t, m);
      assert s.broker.retry[0] in s.broker.retry;
      assert Queued(s, m);
    }
  }

  /** From a rested state without unreadable messages there is a run, without hands, to a quiet one: each upload
      it makes fails, so the destinations, the store and the directory stay as they are. */
  lemma {:induction false} Drain(cfg: Config, s: State) returns (run: seq<Step>, t: State)
    requires Rested(s) && Sound(cfg, s) && Clear(cfg, s)
    requires cfg.maxAttempts >= 1 && cfg.concurrency >= 1
    ensures Legal(cfg, s, run) && Exec(cfg, s, run) == t && Unaided(run)
    ensures Quiet(t) && Undisturbed(s, t)
    decreases Load(cfg, s), if s.broker.main == [] then 1 else 0
  {
    hide Legal, Exec, Sound, Clear, Undisturbed, Load;
    if s.broker.main == [] && s.broker.retry == [] {
      assert Legal(cfg, s, []) && Exec(cfg, s, []) == s && Undisturbed(s, s) by { NoSteps(cfg, s); Still(s); }
      run, t := [], s;
    } else {
      var first: seq<Step>, u: State;
      if s.broker.main == [] {
        first, u := AwaitHead(cfg, s);
        AfterExpiry(cfg, s, u);
      } else {
        first, u := HandleHead(cfg, s);
        AfterHead(cfg, s, u);
      }
      SoundAlong(cfg, s, first);
      var rest: seq<Step>;
      rest, t := Drain(cfg, u);
      Concat(cfg, s, first, rest);
      UndisturbedTwice(s, u, t);
      run := first + rest;
    }
  }

  lemma Still(s: State)
    ensures Undisturbed(s, s)
  {
  }

  /** The watcher stops and the consumer is restarted. */
  lemma Rest(cfg: Config, s: State) returns (run: seq<Step>, t: State)
    requires Clear(cfg, s)
    ensures Legal(cfg, s, run) && Exec(cfg, s, run) == t && HandsOff(run)
    ensures Rested(t) && Clear(cfg, t) && Undisturbed(s, t)
  {
    hide Legal, Exec, Unreadable;
    assert Legal(cfg, s, []) && Exec(cfg, s, []) == s by { NoSteps(cfg, s); }
    run, t := Go(cfg, s, [], s, WatcherStops);
    run, t := Go(cfg, s, run, t, Restart);
    forall m | Queued(t, m) || m in Current(t) ensures !Unreadable(cfg, t, m) {
      SameUnreadable(cfg, s, t, m);
    }
  }

  /** The same from any reachable state, after a restart. */
  lemma {:induction false} DrainFrom(cfg: Config, s: State) returns (run: seq<Step>, t: State)
    requires Sound(cfg, s) && Clear(cfg, s)
    requires cfg.maxAttempts >= 1 && cfg.concurrency >= 1
    ensures Legal(cfg, s, run) && Exec(cfg, s, run) == t && HandsOff(run)
    ensures Quiet(t) && Undisturbed(s, t)
  {
    hide Legal, Exec, Sound, Clear, Undisturbed, Quiet, Rested;
    var first, u := Rest(cfg, s);
    SoundAlong(cfg, s, first);
    var rest: seq<Step>;
    rest, t := Drain(cfg, u);
    Concat(cfg, s, first, rest);
    UndisturbedTwice(s, u, t);
    run := first + rest;
  }
}
