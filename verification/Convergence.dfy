/** Where the files end up: what a quiet system has done for the present content of a path. */
module Convergence {
  import opened Common
  import opened Schema
  import opened Detection
  import opened Protocol
  import opened Lineage
  import opened NoLoss
  import opened DoneOnce
  import opened Counting
  import CsvSecurity
  import FanOut
  import KeyEncoding
  import RetryClosure

  /** Publication number `i` repeats an event that the watcher had published, with whatever retry block. */
  ghost predicate Repeats(origins: seq<Origin>, i: nat)
    requires i < |origins| && First(origins[i]).Event?
  {
    exists j :: 0 <= j < i && origins[j].Detected? && SameButRetry(First(origins[i]).event, origins[j].event)
  }

  /** Hypothesis: every supported event on the main queue was made by the watcher. Somebody else may publish it
      again, as the runbook does with dead letters. */
  ghost predicate OwnEventsOnly(origins: seq<Origin>) {
    forall i :: 0 <= i < |origins| && origins[i].Foreign? && origins[i].payload.Event? ==>
      Supported(origins[i].payload.event) ==> Repeats(origins, i)
  }

  /** Where a supported event comes from. */
  lemma OwnSource(origins: seq<Origin>, i: nat) returns (j: nat)
    requires OwnEventsOnly(origins) && i < |origins| && First(origins[i]).Event? && Supported(First(origins[i]).event)
    ensures j <= i && origins[j].Detected? && SameButRetry(First(origins[i]).event, origins[j].event)
  {
    hide Supported;
    if origins[i].Detected? {
      j := i;
    } else {
      j :| 0 <= j < i && origins[j].Detected? && SameButRetry(First(origins[i]).event, origins[j].event);
    }
  }

  lemma OwnPrefix(before: seq<Origin>, after: seq<Origin>)
    requires before <= after && OwnEventsOnly(after)
    ensures OwnEventsOnly(before)
  {
    hide Supported;
    forall i | 0 <= i < |before| && before[i].Foreign? && before[i].payload.Event? && Supported(before[i].payload.event)
      ensures Repeats(before, i)
    {
      assert before[i] == after[i] && Repeats(after, i);
      var j :| 0 <= j < i && after[j].Detected? && SameButRetry(First(after[i]).event, after[j].event);
      assert before[j] == after[j];
    }
  }

  lemma OwnMore(origins: seq<Origin>, o: Origin)
    requires OwnEventsOnly(origins) && o.Detected?
    ensures OwnEventsOnly(origins + [o])
  {
    hide Supported;
    var after := origins + [o];
    forall i | 0 <= i < |after| && after[i].Foreign? && after[i].payload.Event? && Supported(after[i].payload.event)
      ensures Repeats(after, i)
    {
      assert after[i] == origins[i] && Repeats(origins, i);
      var j :| 0 <= j < i && origins[j].Detected? && SameButRetry(First(origins[i]).event, origins[j].event);
      assert after[j] == origins[j];
    }
  }

  lemma OriginsGrow(cfg: Config, s: State, step: Step)
    requires Enabled(cfg, s, step) && OwnEventsOnly(Apply(cfg, s, step).broker.origins)
    ensures OwnEventsOnly(s.broker.origins)
    ensures s.broker.origins <= Apply(cfg, s, step).broker.origins
  {
    hide WellFormed, OwnEventsOnly;
    if OutsideConsumer(step) {
      hide Apply;
      OutsideFrame(cfg, s, step);
    } else if !PutsMain(step) {
      hide Apply;
      ConsumerFrame(cfg, s, step);
    }
    OwnPrefix(s.broker.origins, Apply(cfg, s, step).broker.origins);
  }

  /** The event in hand past the duplicate check is one of the watcher's own. */
  ghost predicate OwnEvent(cfg: Config, origins: seq<Origin>, e: TransferEvent, path: string, content: Content) {
    && (exists o :: o in origins && o.Detected? && o.path == path && o.content == content)
    && e.source.path == path
    && InWatchDir(cfg, path)
    && e.destinations == Destinations(cfg, path)
    && e.idempotencyKey == Key(cfg, path, content)
  }

  lemma EventInHand(cfg: Config, s: State) returns (path: string, content: Content)
    requires Sourced(cfg, s) && Tracked(cfg, s) && Undone(s) && OwnEventsOnly(s.broker.origins)
    requires PastDedupe(s.handler)
    ensures OwnEvent(cfg, s.broker.origins, EventOf(s.handler), path, content)
  {
    hide WellFormed, Supported, OwnEventsOnly;
    var m := s.handler.message;
    assert Live(cfg, s.broker.origins, m);
    var o := SourceOf(cfg, s.broker.origins, m);
    path, content := o.path, o.content;
    assert s.watch.builds[o.build] in s.watch.builds;
  }

  /** The publication of the watcher's that a supported copy goes back to. */
  lemma SourceOf(cfg: Config, origins: seq<Origin>, m: Message) returns (o: Origin)
    requires Descends(cfg, origins, m) && OwnEventsOnly(origins) && m.payload.Event? && Supported(m.payload.event)
    ensures o in origins && o.Detected? && SameButRetry(m.payload.event, o.event)
    ensures m.payload.event == o.event.(retry := m.payload.event.retry)
  {
    hide WellFormed, Supported, OwnEventsOnly;
    var e, first := m.payload.event, First(origins[m.origin]).event;
    RetryClosure.SupportedByVersion(e, first);
    var j := OwnSource(origins, m.origin);
    o := origins[j];
    SameButRetryTwice(e, first, o.event);
  }

  lemma SameButRetryTwice(a: TransferEvent, b: TransferEvent, c: TransferEvent)
    requires SameButRetry(a, b) && SameButRetry(b, c)
    ensures SameButRetry(a, c) && a == c.(retry := a.retry)
  {
    assert a == a.(retry := None).(retry := a.retry) == c.(retry := None).(retry := a.retry);
  }

  lemma OwnFile(cfg: Config, files: set<KeyEncoding.File>, s: State, path: string, content: Content)
    requires Among(files, s) && HasEvent(s.handler)
    requires OwnEvent(cfg, s.broker.origins, EventOf(s.handler), path, content)
    ensures KeyEncoding.File(path, content) in files
  {
  }

  // The invariant for one path

  ghost predicate Settled(cfg: Config, s: State, path: string) {
    path in s.dir.files && path !in s.dir.shadowed ==> SettledFor(cfg, s, path, s.dir.files[path])
  }

  lemma DistinctPathsDistinctObjects(cfg: Config, path: string, path': string)
    requires InWatchDir(cfg, path) && InWatchDir(cfg, path') && path != path'
    ensures forall d, d' :: d in Destinations(cfg, path) && d' in Destinations(cfg, path') ==>
              LocationOf(d) != LocationOf(d')
  {
    if RelativeKey(cfg, path) == RelativeKey(cfg, path') {
      RelativeKeyInjective(cfg, path, path');
    }
  }

  /** An upload of `c` to a destination of `path` keeps what holds `c`; one for another path changes nothing here. */
  lemma HoldsAfterWrite(cfg: Config, objects: map<Location, Content>, path: string, c: Content,
                        owner: string, d: Destination, bytes: Content)
    requires InWatchDir(cfg, path) && InWatchDir(cfg, owner) && d in Destinations(cfg, owner)
    requires owner == path ==> bytes == c
    requires Holds(cfg, objects, path, c)
    ensures Holds(cfg, objects[LocationOf(d) := bytes], path, c)
  {
    if owner != path {
      DistinctPathsDistinctObjects(cfg, path, owner);
    }
  }

  /** Only a success keeps a fan-out deliverable, and no upload's end starts another. */
  lemma AfterEnd(fan: FanOut.State, i: nat, provider: string, fate: FanOut.Fate, c: Content)
    requires FanOut.CanEnd(fan, i, fate)
    ensures var after := FanOut.End(fan, i, provider, fate);
            && (UploadsOnly(fan, c) ==> UploadsOnly(after, c))
            && (Deliverable(after) ==> Deliverable(fan) && FanOut.WritesTo(provider, fate))
            && (Deliverable(after) && UploadsOnly(fan, c) ==> fan.slots[i].bytes == Some(c))
  {
    var after := FanOut.End(fan, i, provider, fate);
    assert SlotCanSucceed(after.slots[i]) ==> fate.Succeeds?;
    forall j | Deliverable(after) && 0 <= j < |fan.slots| ensures SlotCanSucceed(fan.slots[j]) {
      assert SlotCanSucceed(after.slots[j]);
    }
  }

  lemma AfterStart(fan: FanOut.State, i: nat, bytes: Option<Content>, c: Content,
                   objects: map<Location, Content>, e: TransferEvent)
    requires FanOut.CanStart(fan, i)
    ensures var after := FanOut.Start(fan, i, bytes);
            && (UploadsOnly(fan, c) && bytes in {None, Some(c)} ==> UploadsOnly(after, c))
            && (ReportedHold(objects, e, fan, c) ==> ReportedHold(objects, e, after, c))
            && (Deliverable(after) ==> Deliverable(fan))
  {
    var after := FanOut.Start(fan, i, bytes);
    forall j | Deliverable(after) && 0 <= j < |fan.slots| ensures SlotCanSucceed(fan.slots[j]) {
      assert SlotCanSucceed(after.slots[j]);
    }
  }

  lemma SettledEndUpload(cfg: Config, files: set<KeyEncoding.File>, s: State, i: nat, fate: FanOut.Fate,
                         path: string, c: Content, owner: string, content: Content)
    requires KeyEncoding.CollisionFree(cfg.hashes, files) && InWatchDir(cfg, path)
    requires Enabled(cfg, s, EndUpload(i, fate)) && Undone(s)
    requires OwnEvent(cfg, s.broker.origins, EventOf(s.handler), owner, content)
    requires KeyEncoding.File(path, c) in files && KeyEncoding.File(owner, content) in files
    requires SettledFor(cfg, s, path, c)
    ensures SettledFor(cfg, Apply(cfg, s, EndUpload(i, fate)), path, c)
  {
    hide WellFormed, Key, Supported, UploadsOnly, Deliverable, FanOut.ResultOf, FanOut.WritesTo, Destinations;
    var e, k := EventOf(s.handler), Key(cfg, path, c);
    KeyIsInjective(cfg, files, path, c, owner, content);
    var d := e.destinations[i];
    assert d in e.destinations;
    AfterEnd(s.handler.fan, i, d.provider, fate, c);
    var t := Apply(cfg, s, EndUpload(i, fate));
    if k in s.done {
      if FanOut.WritesTo(d.provider, fate) {
        hide Holds;
        WrittenBytes(fate, d.provider, s.handler.fan, i, c);
        HoldsAfterWrite(cfg, s.objects, path, c, owner, d, s.handler.fan.slots[i].bytes.value);
      }
    } else if e.idempotencyKey == k && Deliverable(t.handler.fan) {
      assert t.objects == s.objects[LocationOf(d) := c];
    }
  }

  lemma WrittenBytes(fate: FanOut.Fate, provider: string, fan: FanOut.State, i: nat, c: Content)
    requires FanOut.CanEnd(fan, i, fate) && FanOut.WritesTo(provider, fate)
    ensures fan.slots[i].bytes.Some?
    ensures UploadsOnly(fan, c) ==> fan.slots[i].bytes.value == c
  {
  }

  lemma KeyIsInjective(cfg: Config, files: set<KeyEncoding.File>, path: string, c: Content, path': string, c': Content)
    requires KeyEncoding.CollisionFree(cfg.hashes, files)
    requires KeyEncoding.File(path, c) in files && KeyEncoding.File(path', c') in files
    ensures Key(cfg, path, c) == Key(cfg, path', c') <==> path == path' && c == c'
  {
    KeyEncoding.KeyDeterminesFile(cfg.hashes, files, KeyEncoding.File(path, c), KeyEncoding.File(path', c'));
  }

  lemma SettledConclude(cfg: Config, files: set<KeyEncoding.File>, s: State, path: string, c: Content,
                        owner: string, content: Content)
    requires KeyEncoding.CollisionFree(cfg.hashes, files)
    requires Enabled(cfg, s, Conclude) && Undone(s)
    requires OwnEvent(cfg, s.broker.origins, EventOf(s.handler), owner, content)
    requires KeyEncoding.File(path, c) in files && KeyEncoding.File(owner, content) in files
    requires SettledFor(cfg, s, path, c)
    ensures SettledFor(cfg, Apply(cfg, s, Conclude), path, c)
  {
    hide WellFormed, Key, Supported, UploadsOnly, KeyEncoding.CollisionFree, Apply, Enabled, Deliverable, HoldsAt;
    KeyIsInjective(cfg, files, path, c, owner, content);
    HandlerFrame(cfg, s, Conclude);
    HandlerMoves(cfg, s, Conclude);
    AfterConclude(cfg, s);
    var e, fan := EventOf(s.handler), s.handler.fan;
    if Deliverable(fan) && e.idempotencyKey == Key(cfg, path, c) {
      forall d | d in Destinations(cfg, path) ensures HoldsAt(s.objects, LocationOf(d), c) {
        var i :| 0 <= i < |e.destinations| && e.destinations[i] == d;
        assert fan.slots[i].result.ok by { DeliverableSlot(fan, i); }
      }
    }
  }

  lemma DeliverableSlot(fan: FanOut.State, i: nat)
    requires Deliverable(fan) && i < |fan.slots| && fan.slots[i].Reported?
    ensures fan.slots[i].result.ok
  {
    assert SlotCanSucceed(fan.slots[i]);
  }

  /** The steps of a handler that end no upload. */
  lemma SettledOnward(cfg: Config, files: set<KeyEncoding.File>, s: State, step: Step, path: string, c: Content,
                      owner: string, content: Content)
    requires KeyEncoding.CollisionFree(cfg.hashes, files) && Undone(s)
    requires path in s.dir.files && s.dir.files[path] == c
    requires step.Locate? || step.Scan? || step.StartUpload? || step.Mark?
    requires Enabled(cfg, s, step) && SettledFor(cfg, s, path, c)
    requires OwnEvent(cfg, s.broker.origins, EventOf(s.handler), owner, content)
    requires KeyEncoding.File(path, c) in files && KeyEncoding.File(owner, content) in files
    ensures SettledFor(cfg, Apply(cfg, s, step), path, c)
  {
    hide WellFormed, Key, Supported, Holds, CsvSecurity.Scan, Destinations, FanOut.Start, KeyEncoding.CollisionFree,
      UploadsOnly, ReportedHold, Deliverable;
    KeyIsInjective(cfg, files, path, c, owner, content);
    if step.StartUpload? {
      var bytes := if owner in s.dir.files then Some(s.dir.files[owner]) else None;
      AfterStart(s.handler.fan, step.i, bytes, c, s.objects, EventOf(s.handler));
      assert owner == path ==> owner in s.dir.files;
    } else if step.Scan? {
      AtTheStart(|EventOf(s.handler).destinations|, cfg.concurrency, c, s.objects, EventOf(s.handler));
    }
  }

  lemma AtTheStart(n: nat, concurrency: nat, c: Content, objects: map<Location, Content>, e: TransferEvent)
    ensures UploadsOnly(FanOut.Begin(n, concurrency), c)
    ensures ReportedHold(objects, e, FanOut.Begin(n, concurrency), c)
  {
  }

  lemma SettledInside(cfg: Config, files: set<KeyEncoding.File>, s: State, step: Step, path: string, c: Content)
    requires KeyEncoding.CollisionFree(cfg.hashes, files) && InWatchDir(cfg, path)
    requires Sourced(cfg, s) && Tracked(cfg, s) && Undone(s) && OwnEventsOnly(s.broker.origins)
    requires path in s.dir.files && s.dir.files[path] == c && Among(files, s)
    requires InsideHandler(step) && Enabled(cfg, s, step) && SettledFor(cfg, s, path, c)
    ensures SettledFor(cfg, Apply(cfg, s, step), path, c)
  {
    hide WellFormed, Key, Supported, OwnEventsOnly, Tracked, Sourced, Holds, Concluded, OwnEvent,
      UploadsOnly, ReportedHold, KeyEncoding.CollisionFree;
    hide Apply, Enabled;
    if PastDedupe(s.handler) {
      hide SettledFor;
      var owner, content := EventInHand(cfg, s);
      OwnFile(cfg, files, s, owner, content);
      if step.EndUpload? {
        SettledEndUpload(cfg, files, s, step.i, step.fate, path, c, owner, content);
      } else if step.Conclude? {
        SettledConclude(cfg, files, s, path, c, owner, content);
      } else {
        HandlerMoves(cfg, s, step);
        SettledOnward(cfg, files, s, step, path, c, owner, content);
      }
    } else {
      HandlerFrame(cfg, s, step);
      HandlerMoves(cfg, s, step);
    }
  }

  lemma SettledOutside(cfg: Config, s: State, step: Step, path: string)
    requires OutsideConsumer(step) && Enabled(cfg, s, step) && Undone(s) && Settled(cfg, s, path)
    ensures Settled(cfg, Apply(cfg, s, step), path)
  {
    hide WellFormed, Key, Supported, BuildEvent, Holds;
    if step.Write? && step.path == path {
      var t := Apply(cfg, s, step);
      if path !in t.dir.shadowed && !(path in s.dir.files && s.dir.files[path] == step.content) {
        assert SettledFor(cfg, s, path, step.content);
      }
    }
  }

  lemma SettledStep(cfg: Config, files: set<KeyEncoding.File>, s: State, step: Step, path: string)
    requires KeyEncoding.CollisionFree(cfg.hashes, files) && InWatchDir(cfg, path)
    requires Sourced(cfg, s) && Tracked(cfg, s) && Undone(s) && OwnEventsOnly(s.broker.origins)
    requires Enabled(cfg, s, step) && Settled(cfg, s, path) && Among(files, s)
    ensures Settled(cfg, Apply(cfg, s, step), path)
  {
    hide Among, Tracked, Sourced, Undone, OwnEventsOnly, SettledFor, KeyEncoding.CollisionFree;
    if OutsideConsumer(step) {
      hide Apply, Settled;
      SettledOutside(cfg, s, step, path);
    } else {
      hide Apply, Enabled;
      ConsumerFrame(cfg, s, step);
      if path in s.dir.files && path !in s.dir.shadowed {
        var c := s.dir.files[path];
        if InsideHandler(step) {
          SettledInside(cfg, files, s, step, path, c);
        } else {
          SettledMove(cfg, s, step, path, c);
        }
      }
    }
  }

  lemma SettledMove(cfg: Config, s: State, step: Step, path: string, c: Content)
    requires !OutsideConsumer(step) && !InsideHandler(step) && Enabled(cfg, s, step) && SettledFor(cfg, s, path, c)
    ensures SettledFor(cfg, Apply(cfg, s, step), path, c)
  {
    hide WellFormed, Key, Holds, UploadsOnly, ReportedHold, PutRoute, Requeue;
  }

  lemma {:induction false} SettledRun(cfg: Config, files: set<KeyEncoding.File>, run: seq<Step>, path: string)
    requires KeyEncoding.CollisionFree(cfg.hashes, files) && InWatchDir(cfg, path)
    requires Legal(cfg, Init(), run) && OwnEventsOnly(Exec(cfg, Init(), run).broker.origins) && Within(files, run)
    ensures Settled(cfg, Exec(cfg, Init(), run), path)
  {
    if run != [] {
      hide Apply, Enabled, Settled, Among, Tracked, Sourced, Undone, OwnEventsOnly, KeyEncoding.CollisionFree;
      var n := |run| - 1;
      var s := Exec(cfg, Init(), run[..n]);
      OriginsGrow(cfg, s, run[n]);
      SourcedRun(cfg, run[..n]);
      TrackedRun(cfg, run[..n]);
      UndoneRun(cfg, run[..n]);
      AmongRun(cfg, files, run[..n]);
      SettledRun(cfg, files, run[..n], path);
      SettledStep(cfg, files, s, run[n], path);
    } else {
      assert path !in Init().dir.files;
    }
  }

  // Convergence

  /** The watcher has published an event for this content of the path. */
  ghost predicate Published(s: State, path: string, c: Content) {
    exists o :: 0 <= o < |s.broker.origins| && s.broker.origins[o].Detected?
                && s.broker.origins[o].path == path && s.broker.origins[o].content == c
  }

  /** A content of a path is published if and only if, of some event built for it, some publish was not lost. */
  lemma PublishedIff(cfg: Config, run: seq<Step>, path: string, c: Content)
    requires Legal(cfg, Init(), run)
    ensures var s := Exec(cfg, Init(), run);
            Published(s, path, c)
            <==> exists b :: 0 <= b < |s.watch.builds| && s.watch.builds[b].path == path
                             && s.watch.builds[b].content == c && !Never(cfg, run, CopyOf(b))
  {
    hide Legal, Exec, Never, Fresh;
    var s := Exec(cfg, Init(), run);
    SourcedRun(cfg, run);
    if Published(s, path, c) {
      var o: nat :| o < |s.broker.origins| && s.broker.origins[o].Detected?
                    && s.broker.origins[o].path == path && s.broker.origins[o].content == c;
      var b := s.broker.origins[o].build;
      assert s.broker.origins[o] in s.broker.origins;
      RememberedRun(cfg, run, CopyOf(b));
      NoneOccur(cfg, run, CopyOf(b));
      SomeCopy(s.broker.origins, b);
      assert s.watch.builds[b].path == path && !Never(cfg, run, CopyOf(b));
    }
    if b: nat :| b < |s.watch.builds| && s.watch.builds[b].path == path && s.watch.builds[b].content == c
                 && !Never(cfg, run, CopyOf(b)) {
      RememberedRun(cfg, run, CopyOf(b));
      NoneOccur(cfg, run, CopyOf(b));
      SomeCopy(s.broker.origins, b);
      var o: nat :| o < |s.broker.origins| && s.broker.origins[o].Detected? && s.broker.origins[o].build == b;
      assert s.broker.origins[o] in s.broker.origins;
    }
  }

  lemma {:induction false} SomeCopy(origins: seq<Origin>, b: nat)
    ensures Copies(origins, b) > 0
            <==> exists o :: 0 <= o < |origins| && origins[o].Detected? && origins[o].build == b
  {
    if origins != [] {
      var n := |origins| - 1;
      SomeCopy(origins[..n], b);
      assert forall o :: 0 <= o < n ==> origins[..n][o] == origins[o];
    }
  }

  ghost predicate DeadLetteredFor(s: State, key: string) {
    exists d :: d in s.broker.dlq && d.message.payload.Event? && Supported(d.message.payload.event)
                && d.message.payload.event.idempotencyKey == key
  }

  /** The present content of the path is at every destination, or its event is in the dead-letter queue. */
  ghost predicate Converged(cfg: Config, s: State, path: string)
    requires path in s.dir.files
  {
    var c := s.dir.files[path];
    Holds(cfg, s.objects, path, c) || DeadLetteredFor(s, Key(cfg, path, c))
  }

  /** Publication number `o` is of a supported event with this key. */
  predicate PublishedFor(s: State, o: nat, key: string) {
    && o < |s.broker.origins|
    && First(s.broker.origins[o]).Event?
    && Supported(First(s.broker.origins[o]).event)
    && First(s.broker.origins[o]).event.idempotencyKey == key
  }

  /** A copy of publication number `o` is in the dead-letter queue. */
  ghost predicate DeadLetterOf(s: State, o: nat, key: string) {
    exists d :: d in s.broker.dlq && d.message.origin == o && d.message.payload.Event?
                && Supported(d.message.payload.event) && d.message.payload.event.idempotencyKey == key
  }

  /** Quiescent convergence, publication by publication: after any run, with files rewritten, detected twice or
      removed, events published twice, retried, cut short and restarted, or published again by hand, once nothing is
      queued or under way, each publication of an event for the present content of a path that is not shadowed has
      come to its end: that content is at every destination, or this publication is in the DLQ. */
  lemma {:induction false} EachPublicationEnds(cfg: Config, files: set<KeyEncoding.File>, run: seq<Step>,
                                               path: string, o: nat)
    requires KeyEncoding.CollisionFree(cfg.hashes, files) && Within(files, run) && InWatchDir(cfg, path)
    requires Legal(cfg, Init(), run) && OwnEventsOnly(Exec(cfg, Init(), run).broker.origins)
    requires Quiet(Exec(cfg, Init(), run))
    requires path in Exec(cfg, Init(), run).dir.files && path !in Exec(cfg, Init(), run).dir.shadowed
    requires PublishedFor(Exec(cfg, Init(), run), o, Key(cfg, path, Exec(cfg, Init(), run).dir.files[path]))
    ensures var s := Exec(cfg, Init(), run); var c := s.dir.files[path];
            Holds(cfg, s.objects, path, c) || DeadLetterOf(s, o, Key(cfg, path, c))
  {
    hide Apply, Enabled, OwnEventsOnly, KeyEncoding.CollisionFree, Key, WellFormed, Holds, Supported;
    var s := Exec(cfg, Init(), run);
    TrackedRun(cfg, run);
    NothingIsLost(cfg, run, o);
    SettledRun(cfg, files, run, path);
    if !OriginDone(s, o) {
      var d :| d in s.broker.dlq && d.message.origin == o;
      assert Buried(cfg, s.broker.origins, d);
      BuriedEvent(cfg, s.broker.origins, d);
    }
  }

  /** Quiescent convergence for a path: if its present content was published and is not shadowed, that content is at
      every destination or its event in the DLQ. */
  lemma {:induction false} QuietMeansConverged(cfg: Config, files: set<KeyEncoding.File>, run: seq<Step>, path: string)
    requires KeyEncoding.CollisionFree(cfg.hashes, files) && Within(files, run)
    requires Legal(cfg, Init(), run) && OwnEventsOnly(Exec(cfg, Init(), run).broker.origins)
    requires Quiet(Exec(cfg, Init(), run))
    requires path in Exec(cfg, Init(), run).dir.files && path !in Exec(cfg, Init(), run).dir.shadowed
    requires Published(Exec(cfg, Init(), run), path, Exec(cfg, Init(), run).dir.files[path])
    ensures Converged(cfg, Exec(cfg, Init(), run), path)
  {
    hide Legal, Exec, OwnEventsOnly, KeyEncoding.CollisionFree, Key, WellFormed, Holds, Supported, Quiet;
    var s := Exec(cfg, Init(), run);
    var c := s.dir.files[path];
    var o: nat :| o < |s.broker.origins| && s.broker.origins[o].Detected?
                  && s.broker.origins[o].path == path && s.broker.origins[o].content == c;
    SourcedRun(cfg, run);
    var origin := s.broker.origins[o];
    assert origin in s.broker.origins && s.watch.builds[origin.build] in s.watch.builds;
    VersionOneDotZero();
    EachPublicationEnds(cfg, files, run, path, o);
  }

  /** The dead letter of a supported event is that event, and supported. */
  lemma BuriedEvent(cfg: Config, origins: seq<Origin>, d: DeadLetter)
    requires Buried(cfg, origins, d) && d.message.origin < |origins| && First(origins[d.message.origin]).Event?
    requires Supported(First(origins[d.message.origin]).event)
    ensures d.message.payload.Event?
    ensures Supported(d.message.payload.event)
    ensures d.message.payload.event.idempotencyKey == First(origins[d.message.origin]).event.idempotencyKey
  {
    hide WellFormed, Supported;
    assert Descends(cfg, origins, d.message);
    if d.message.payload.Event? {
      RetryClosure.SupportedByVersion(d.message.payload.event, First(origins[d.message.origin]).event);
    }
  }
}
