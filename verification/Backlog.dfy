/** A whole queue of messages worked off in fair weather, one turn of the consumer's loop after the other. */
module Backlog {
  import opened Common
  import opened Schema
  import opened Detection
  import opened Protocol
  import opened Lineage
  import opened Continuations
  import opened Convergence
  import opened DoneOnce
  import opened Surroundings
  import opened Consumer
  import opened EndToEnd
  import CsvSecurity
  import FanOut

  // A duplicate

  /** How far a handling of a duplicate that began in `s` has come. */
  predicate Skipping(s: State, t: State, m: Message) {
    && t == s.(handler := t.handler, tally := t.tally)
    && match t.handler
       case Idle => true
       case Totalling(v) => v.Duplicate?
       case Counting(v) => v.Duplicate?
       case Acking(m', v) => m' == m && v.Duplicate?
       case Validating(m') => m' == m
       case _ => false
  }

  predicate DoneJob(s: State, m: Message) {
    m.payload.Event? && Supported(m.payload.event) && m.payload.event.idempotencyKey in s.done
  }

  lemma SkippingStep(cfg: Config, s: State, t: State, step: Step, m: Message)
    requires DoneJob(s, m) && Skipping(s, t, m) && Enabled(cfg, t, step) && InsideHandler(step) && !step.Ack?
    ensures Skipping(s, Apply(cfg, t, step), m)
  {
    hide Apply, Enabled, Supported, Concluded, CsvSecurity.Scan, ApplyEndUpload;
    HandlerFrame(cfg, t, step);
    ConsumerFrame(cfg, t, step);
    HandlerMoves(cfg, t, step);
  }

  lemma NothingElse(cfg: Config, s: State, t: State, step: Step, m: Message, w: Weather)
    requires Skipping(s, t, m) && Enabled(cfg, t, step) && Weathered(cfg, t, step, w)
    ensures InsideHandler(step)
  {
    hide CsvSecurity.Scan, Concluded;
  }

  lemma SkippingAck(cfg: Config, s: State, t: State, m: Message)
    requires Skipping(s, t, m) && Enabled(cfg, t, Ack)
    ensures Skipping(s, Apply(cfg, t, Ack), m)
  {
  }

  /** A handling of a duplicate changes nothing but the counters. */
  lemma {:induction false} SkipHandling(cfg: Config, s: State, steps: seq<Step>, w: Weather, m: Message)
    requires s.handler == Validating(m) && DoneJob(s, m) && Handled(cfg, s, steps, w)
    ensures Skipping(s, Exec(cfg, s, steps), m)
    decreases |steps|
  {
    if steps != [] {
      hide Apply, Enabled, Skipping, DoneJob, Weathered, Handled, Legal, Exec;
      var n := |steps| - 1;
      HandledPrefix(cfg, s, steps, w);
      SkipHandling(cfg, s, steps[..n], w, m);
      var t := Exec(cfg, s, steps[..n]);
      if steps[n].Ack? {
        SkippingAck(cfg, s, t, m);
      } else {
        NothingElse(cfg, s, t, steps[n], m, w);
        SkippingStep(cfg, s, t, steps[n], m);
      }
    }
  }

  /** One turn of the consumer's loop spent on a duplicate. */
  lemma SkipTurn(cfg: Config, s: State, run: seq<Step>, w: Weather)
    requires s.broker.main != [] && DoneJob(s, s.broker.main[0])
    requires Legal(cfg, s, run) && Enabled(cfg, s, Deliver) && Serves(cfg, s, run, w)
    ensures var t := Exec(cfg, s, run);
            t == s.(broker := s.broker.(main := s.broker.main[1..]), handler := Idle, tally := t.tally)
  {
    hide Legal, Exec, Handled, Supported;
    var t, m := Apply(cfg, s, Deliver), s.broker.main[0];
    FirstStep(cfg, s, Deliver, run[1..], w);
    assert [Deliver] + run[1..] == run;
    SkipHandling(cfg, t, run[1..], w, m);
  }

  // The queue

  /** A supported event with a done key, or for a file that is there and clean. */
  predicate Workable(cfg: Config, s: State, m: Message) {
    DoneJob(s, m) || (&& m.payload.Event? && m.payload.event.source.path in s.dir.files
                      && CleanJob(cfg, s, m, s.dir.files[m.payload.event.source.path]))
  }

  /** Events for different files have different places. */
  ghost predicate NoClash(q: seq<Message>) {
    forall m, m' :: m in q && m' in q && m.payload.Event? && m'.payload.Event?
                    && m.payload.event.source.path != m'.payload.event.source.path ==>
      Apart(m.payload.event, m'.payload.event)
  }

  ghost predicate Apart(e: TransferEvent, e': TransferEvent) {
    forall l :: !(IsPlace(e, l) && IsPlace(e', l))
  }

  /** The consumer waits for a message, and all that are queued can be worked off. */
  ghost predicate Ready(cfg: Config, s: State) {
    && s.handler.Idle?
    && s.broker.connected
    && (|s.broker.held| == 0 || |s.broker.held| < cfg.concurrency)
    && (forall m :: m in s.broker.main ==> Workable(cfg, s, m))
    && NoClash(s.broker.main)
  }

  /** A system at rest is ready once the watcher has published a clean file. */
  lemma ReadyAfterAnnouncement(cfg: Config, s: State, path: string, ids: Ids) returns (run: seq<Step>, t: State)
    requires Quiet(s) && InWatchDir(cfg, path) && path in s.dir.files
    requires CsvSecurity.Scan(s.dir.files[path], cfg.fileLimit) == CsvSecurity.Issues([])
    requires HexDigests(cfg.hashes) && GoodIds(cfg, ids)
    ensures Legal(cfg, s, run) && Exec(cfg, s, run) == t && Unaided(run)
    ensures Ready(cfg, t) && |t.broker.main| == 1
  {
    hide Legal, Exec, CsvSecurity.Scan, Supported, HexDigests, Key, InWatchDir;
    run, t := Announce(cfg, s, path, ids);
    VersionOneDotZero();
    var m := t.broker.main[0];
    assert t.broker.main == [m];
    assert Workable(cfg, t, m);
  }

  function Job(s: State, i: nat): TransferEvent
    requires i < |s.broker.main| && s.broker.main[i].payload.Event?
  {
    s.broker.main[i].payload.event
  }

  ghost predicate AllEvents(s: State) {
    forall m :: m in s.broker.main ==> m.payload.Event?
  }

  /** Job number `i` is the first for its key, which is not done. */
  ghost predicate FirstOfKey(s: State, i: nat)
    requires AllEvents(s) && i < |s.broker.main|
  {
    && Job(s, i).idempotencyKey !in s.done
    && forall j :: 0 <= j < i ==> Job(s, j).idempotencyKey != Job(s, i).idempotencyKey
  }

  /** The key of job number `i` is done, and if it was the first job for its key, it was delivered. */
  ghost predicate WorkedOff(s: State, t: State, i: nat)
    requires AllEvents(s) && i < |s.broker.main|
  {
    var e := Job(s, i);
    && e.idempotencyKey in t.done
    && (FirstOfKey(s, i) ==>
          && t.done[e.idempotencyKey] == e.correlationId
          && e.source.path in s.dir.files
          && AllHold(t.objects, e, s.dir.files[e.source.path]))
  }

  /** Between `s` and `t` the first `n` jobs have been worked off, and nothing else has happened. */
  ghost predicate Progress(s: State, t: State, n: nat) {
    && n <= |s.broker.main| && AllEvents(s)
    && t.broker == s.broker.(main := s.broker.main[n..])
    && t.dir == s.dir && t.watch == s.watch && t.now == s.now && t.handler.Idle?
    && (forall k :: k in s.done ==> k in t.done && t.done[k] == s.done[k])
    && (forall k :: k in t.done && k !in s.done ==> exists i :: 0 <= i < n && Job(s, i).idempotencyKey == k)
    && (forall i :: 0 <= i < n ==> WorkedOff(s, t, i))
  }

  /** A job whose key has been done meanwhile is skipped. */
  lemma OneMoreSkipped(s: State, t: State, u: State, n: nat)
    requires Progress(s, t, n) && n < |s.broker.main| && Job(s, n).idempotencyKey in t.done
    requires u == t.(broker := t.broker.(main := t.broker.main[1..]), handler := Idle, tally := u.tally)
    ensures Progress(s, u, n + 1)
  {
    hide AllHold;
    assert s.broker.main[n..][1..] == s.broker.main[n + 1..];
    assert !FirstOfKey(s, n);
    forall i | 0 <= i < n ensures WorkedOff(s, u, i) {
      assert WorkedOff(s, t, i);
    }
  }

  /** What an earlier job delivered survives a later one. */
  lemma StillHeld(e: TransferEvent, x: Content, e': TransferEvent, c: Content, before: map<Location, Content>,
                  after: map<Location, Content>)
    requires AllHold(before, e, x) && Kept(before, after, e', c)
    requires x == c || Apart(e, e')
    ensures AllHold(after, e, x)
  {
    hide HoldsAt;
    forall i | 0 <= i < |e.destinations| ensures HoldsAt(after, LocationOf(e.destinations[i]), x) {
      var l := LocationOf(e.destinations[i]);
      assert HoldsAt(before, l, x) && IsPlace(e, l);
    }
  }

  lemma OneMoreDelivered(s: State, t: State, u: State, n: nat)
    requires Progress(s, t, n) && n < |s.broker.main| && NoClash(s.broker.main)
    requires Job(s, n).idempotencyKey !in t.done && Job(s, n).source.path in s.dir.files
    requires var e, c := Job(s, n), s.dir.files[Job(s, n).source.path];
             && Kept(t.objects, u.objects, e, c) && AllHold(u.objects, e, c)
             && u.done == t.done[e.idempotencyKey := e.correlationId]
    requires u.broker == t.broker.(main := t.broker.main[1..]) && u.dir == t.dir && u.watch == t.watch && u.now == t.now
    requires u.handler.Idle?
    ensures Progress(s, u, n + 1)
  {
    hide AllHold, Kept, NoClash;
    assert s.broker.main[n..][1..] == s.broker.main[n + 1..];
    var e := Job(s, n);
    forall i | 0 <= i < n ensures WorkedOff(s, u, i) {
      assert WorkedOff(s, t, i);
      if FirstOfKey(s, i) {
        ApartUnlessSame(s, i, n);
        StillHeld(Job(s, i), s.dir.files[Job(s, i).source.path], e, s.dir.files[e.source.path], t.objects, u.objects);
      }
    }
  }

  lemma ApartUnlessSame(s: State, i: nat, j: nat)
    requires NoClash(s.broker.main) && AllEvents(s) && i < |s.broker.main| && j < |s.broker.main|
    ensures Job(s, i).source.path == Job(s, j).source.path || Apart(Job(s, i), Job(s, j))
  {
    assert s.broker.main[i] in s.broker.main && s.broker.main[j] in s.broker.main;
  }

  lemma ReadyJobs(cfg: Config, s: State)
    requires Ready(cfg, s)
    ensures s.handler.Idle? && s.broker.connected && AllEvents(s) && NoClash(s.broker.main)
    ensures forall i :: 0 <= i < |s.broker.main| ==> Workable(cfg, s, s.broker.main[i])
  {
    hide CsvSecurity.Scan, Supported, NoClash;
  }

  /** One turn takes care of one job. */
  lemma OneMoreJob(cfg: Config, s: State, t: State, n: nat, run: seq<Step>, w: Weather)
    requires Ready(cfg, s) && Progress(s, t, n) && n < |s.broker.main| && Fair(w)
    requires Legal(cfg, t, run) && Serves(cfg, t, run, w)
    ensures Progress(s, Exec(cfg, t, run), n + 1)
  {
    hide Legal, Exec, Serves, Fair, Workable, NoClash, WorkedOff, AllHold, Kept;
    ReadyJobs(cfg, s);
    var m := s.broker.main[n];
    assert t.broker.main[0] == m && Enabled(cfg, t, Deliver);
    if m.payload.event.idempotencyKey in t.done {
      assert DoneJob(t, m) by { StillWorkable(cfg, s, t, m); }
      SkipTurn(cfg, t, run, w);
      OneMoreSkipped(s, t, Exec(cfg, t, run), n);
    } else {
      StillWorkable(cfg, s, t, m);
      FairTurn(cfg, t, run, w, s.dir.files[m.payload.event.source.path]);
      OneMoreDelivered(s, t, Exec(cfg, t, run), n);
    }
  }

  lemma StillWorkable(cfg: Config, s: State, t: State, m: Message)
    requires Workable(cfg, s, m) && t.dir == s.dir && forall k :: k in s.done ==> k in t.done
    ensures m.payload.Event?
    ensures if m.payload.event.idempotencyKey in t.done then DoneJob(t, m)
            else && m.payload.event.source.path in s.dir.files
                 && CleanJob(cfg, t, m, s.dir.files[m.payload.event.source.path])
  {
    hide CsvSecurity.Scan, Supported;
  }

  function Least(a: nat, b: nat): nat {
    if a < b then a else b
  }

  /** In fair weather each turn of the consumer's loop works one job off, in the order of the queue, until none is
      left: first jobs for their keys are delivered and marked, with every destination holding the file in the end;
      the others are skipped; and what is held, to be retried or dead stays as it is. */
  lemma {:induction false} BacklogWorkedOff(cfg: Config, s: State, run: seq<Step>, forecast: seq<Weather>)
    requires Ready(cfg, s) && Served(cfg, s, run, forecast) && forall i :: 0 <= i < |forecast| ==> Fair(forecast[i])
    ensures Legal(cfg, s, run) && Progress(s, Exec(cfg, s, run), Least(|forecast|, |s.broker.main|))
    decreases |forecast|
  {
    hide Legal, Exec, Serves, Fair, Ready, Progress, Enabled;
    if forecast == [] {
      NoSteps(cfg, s);
      NoProgress(cfg, s);
    } else {
      var n := |forecast| - 1;
      var k :| 0 <= k <= |run| && Legal(cfg, s, run[..k]) && Served(cfg, s, run[..k], forecast[..n])
               && Serves(cfg, Exec(cfg, s, run[..k]), run[k..], forecast[n]);
      BacklogWorkedOff(cfg, s, run[..k], forecast[..n]);
      var t := Exec(cfg, s, run[..k]);
      LastTurn(cfg, s, run, k);
      if n < |s.broker.main| {
        OneMoreJob(cfg, s, t, n, run[k..], forecast[n]);
      } else {
        NothingLeft(cfg, s, t, run[k..], forecast[n]);
      }
    }
  }

  lemma NoProgress(cfg: Config, s: State)
    requires Ready(cfg, s)
    ensures Progress(s, s, 0)
  {
    hide NoClash;
    ReadyJobs(cfg, s);
  }

  lemma NothingLeft(cfg: Config, s: State, t: State, run: seq<Step>, w: Weather)
    requires Progress(s, t, |s.broker.main|) && Serves(cfg, t, run, w)
    ensures run == [] && Legal(cfg, t, run) && Exec(cfg, t, run) == t
  {
    NoSteps(cfg, t);
  }

  /** The rest of a legal run is one itself. */
  lemma {:induction false} LastTurn(cfg: Config, s: State, run: seq<Step>, k: nat)
    requires Legal(cfg, s, run) && k <= |run| && Legal(cfg, s, run[..k])
    ensures Legal(cfg, Exec(cfg, s, run[..k]), run[k..])
    ensures Exec(cfg, Exec(cfg, s, run[..k]), run[k..]) == Exec(cfg, s, run)
    decreases |run|
  {
    hide Apply, Enabled;
    if k == |run| {
      assert run[..k] == run && run[k..] == [];
    } else {
      var n := |run| - 1;
      assert run[..n][..k] == run[..k] && run[..n][k..] == run[k..][..n - k];
      LastTurn(cfg, s, run[..n], k);
    }
  }

  /** Events of the watcher's do not clash. */
  lemma OwnEventsDoNotClash(cfg: Config, s: State)
    requires Sourced(cfg, s) && Tracked(cfg, s) && OwnEventsOnly(s.broker.origins)
    requires forall m :: m in s.broker.main ==> Workable(cfg, s, m)
    ensures NoClash(s.broker.main)
  {
    hide Sourced, Tracked, OwnEventsOnly, CsvSecurity.Scan, Supported, Apart;
    forall m, m' | m in s.broker.main && m' in s.broker.main && m.payload.Event? && m'.payload.Event?
                   && m.payload.event.source.path != m'.payload.event.source.path
      ensures Apart(m.payload.event, m'.payload.event)
    {
      OwnPlaces(cfg, s, m);
      OwnPlaces(cfg, s, m');
      PlacesApart(cfg, m.payload.event, m'.payload.event);
    }
  }

  lemma PlacesApart(cfg: Config, e: TransferEvent, e': TransferEvent)
    requires InWatchDir(cfg, e.source.path) && InWatchDir(cfg, e'.source.path) && e.source.path != e'.source.path
    requires e.destinations == Destinations(cfg, e.source.path) && e'.destinations == Destinations(cfg, e'.source.path)
    ensures Apart(e, e')
  {
    hide Destinations;
    DistinctPathsDistinctObjects(cfg, e.source.path, e'.source.path);
  }

  lemma OwnPlaces(cfg: Config, s: State, m: Message)
    requires Sourced(cfg, s) && Tracked(cfg, s) && OwnEventsOnly(s.broker.origins)
    requires m in s.broker.main && m.payload.Event? && Supported(m.payload.event)
    ensures InWatchDir(cfg, m.payload.event.source.path)
    ensures m.payload.event.destinations == Destinations(cfg, m.payload.event.source.path)
  {
    hide OwnEventsOnly, Supported, WellFormed;
    var o := SourceOf(cfg, s.broker.origins, m);
    assert s.watch.builds[o.build] in s.watch.builds;
  }

  /** The same for the consumer as an object: as many turns as there are messages. */
  method WorkOff(world: World, consumer: Consumer)
    requires consumer.Valid() && consumer.world == world && world.cfg.concurrency >= 1 && Ready(world.cfg, world.state)
    modifies world, consumer, consumer.store
    ensures consumer.Valid() && Progress(old(world.state), world.state, |old(world.main)|)
    ensures world.main == [] && world.unacked == old(world.unacked)
    ensures world.retry == old(world.retry) && world.dlq == old(world.dlq) && world.files == old(world.files)
    ensures forall m :: m in old(world.main) ==> m.payload.Event? && m.payload.event.idempotencyKey in consumer.store.rows
  {
    hide Legal, Exec, World.Recorded, Served, Ready, Undone, Workable, NoClash;
    ghost var before, trace := world.state, world.trace;
    var fair := Weather(Confirmed, _ => FanOut.Succeeds);
    assert Fair(fair);
    ReadyJobs(world.cfg, before);
    var forecast := seq(|world.main|, _ => fair);
    consumer.Run(forecast);
    BacklogWorkedOff(world.cfg, before, world.trace[|trace|..], forecast);
    AllDone(before, world.state);
  }

  lemma AllDone(s: State, t: State)
    requires Progress(s, t, |s.broker.main|)
    ensures t.broker == s.broker.(main := [])
    ensures forall m :: m in s.broker.main ==> m.payload.Event? && m.payload.event.idempotencyKey in t.done
  {
    hide AllHold;
    forall m | m in s.broker.main ensures m.payload.Event? && m.payload.event.idempotencyKey in t.done {
      var i :| 0 <= i < |s.broker.main| && s.broker.main[i] == m;
      assert WorkedOff(s, t, i);
    }
  }
}
