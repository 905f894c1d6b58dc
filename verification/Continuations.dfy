/** What can follow a state: the frame of continuations that leave a path alone, and concrete ones in which
    nothing fails. */
module Continuations {
  import opened Common
  import opened Schema
  import opened Detection
  import opened Protocol
  import opened DoneOnce
  import CsvSecurity
  import FanOut

  predicate Touches(step: Step, path: string) {
    (step.Write? && step.path == path) || (step.Remove? && step.path == path)
  }

  /** Nobody writes or removes a file or publishes anything from outside. */
  predicate HandsOff(run: seq<Step>) {
    forall step :: step in run ==> !step.Write? && !step.Remove? && !step.Inject?
  }

  /** Nor does anything restart the process, cut the connection or stop the watcher. */
  predicate Unaided(run: seq<Step>) {
    HandsOff(run) && forall step :: step in run ==> !step.Restart? && !step.Disconnect? && !step.WatcherStops?
  }

  lemma {:induction false} UntouchedPath(cfg: Config, s: State, run: seq<Step>, path: string)
    requires Legal(cfg, s, run) && forall step :: step in run ==> !Touches(step, path)
    ensures var t := Exec(cfg, s, run);
            && (path in t.dir.files <==> path in s.dir.files)
            && (path in s.dir.files ==> t.dir.files[path] == s.dir.files[path])
            && (path in t.dir.shadowed <==> path in s.dir.shadowed)
            && s.broker.dlq <= t.broker.dlq
  {
    if run != [] {
      var n := |run| - 1;
      assert forall step :: step in run[..n] ==> step in run;
      assert run[n] in run;
      UntouchedPath(cfg, s, run[..n], path);
      UntouchedStep(cfg, Exec(cfg, s, run[..n]), run[n], path);
    }
  }

  lemma UntouchedStep(cfg: Config, s: State, step: Step, path: string)
    requires Enabled(cfg, s, step) && !Touches(step, path)
    ensures var t := Apply(cfg, s, step);
            && (path in t.dir.files <==> path in s.dir.files)
            && (path in s.dir.files ==> t.dir.files[path] == s.dir.files[path])
            && (path in t.dir.shadowed <==> path in s.dir.shadowed)
            && s.broker.dlq <= t.broker.dlq
  {
    hide WellFormed, BuildEvent, SettledFor, CsvSecurity.Scan, Concluded;
    if OutsideConsumer(step) {
      OutsideFrame(cfg, s, step);
    } else {
      ConsumerFrame(cfg, s, step);
      if InsideHandler(step) {
        hide Apply;
        HandlerFrame(cfg, s, step);
      }
    }
  }

  datatype Ids = Ids(eventId: string, correlationId: string, occurredAt: string)

  predicate GoodIds(cfg: Config, ids: Ids) {
    && cfg.validators.isUuid(ids.eventId)
    && cfg.validators.isUuid(ids.correlationId)
    && cfg.validators.isTimestamp(ids.occurredAt)
  }

  lemma Go(cfg: Config, s: State, run: seq<Step>, t: State, step: Step) returns (run': seq<Step>, t': State)
    requires Legal(cfg, s, run) && Exec(cfg, s, run) == t && Enabled(cfg, t, step)
    ensures run' == run + [step] && t' == Apply(cfg, t, step)
    ensures Legal(cfg, s, run') && Exec(cfg, s, run') == t'
  {
    hide Apply, Enabled;
    Extend(cfg, s, run, step);
    run', t' := run + [step], Apply(cfg, t, step);
  }

  /** A step before a run. */
  lemma Prepend(cfg: Config, s: State, step: Step, rest: seq<Step>)
    requires Enabled(cfg, s, step) && Legal(cfg, Apply(cfg, s, step), rest)
    ensures Legal(cfg, s, [step] + rest) && Exec(cfg, s, [step] + rest) == Exec(cfg, Apply(cfg, s, step), rest)
    ensures Unaided([step]) && Unaided(rest) ==> Unaided([step] + rest)
  {
    hide Apply, Enabled;
    NoSteps(cfg, s);
    Extend(cfg, s, [], step);
    assert [] + [step] == [step];
    Concat(cfg, s, [step], rest);
  }

  /** One run after another. */
  lemma Join(cfg: Config, s: State, a: seq<Step>, b: seq<Step>)
    requires Legal(cfg, s, a) && Legal(cfg, Exec(cfg, s, a), b)
    ensures Legal(cfg, s, a + b) && Exec(cfg, s, a + b) == Exec(cfg, Exec(cfg, s, a), b)
    ensures HandsOff(a) && HandsOff(b) ==> HandsOff(a + b)
    ensures Unaided(a) && Unaided(b) ==> Unaided(a + b)
  {
    hide Legal, Exec;
    Concat(cfg, s, a, b);
  }

  function FreshEvent(cfg: Config, path: string, c: Content, ids: Ids): TransferEvent {
    BuildEvent(cfg, path, c, ids.eventId, ids.correlationId, ids.occurredAt)
  }

  function FreshOrigin(cfg: Config, s: State, path: string, c: Content, ids: Ids): Origin {
    Detected(|s.watch.builds|, path, c, FreshEvent(cfg, path, c, ids))
  }

  /** A quiet system with one fresh event on the main queue. */
  ghost predicate Loaded(cfg: Config, s: State, t: State, path: string, c: Content, ids: Ids) {
    && t.dir == s.dir
    && t.broker == PutMain(s.broker, Event(FreshEvent(cfg, path, c, ids)), FreshOrigin(cfg, s, path, c, ids))
    && t.watch.queue == [] && t.watch.at.Waiting?
    && t.handler.Idle? && t.done == s.done && t.objects == s.objects
  }

  /** The watcher picks up the path and builds its event. */
  lemma Pick(cfg: Config, s: State, path: string, ids: Ids) returns (run: seq<Step>, t: State)
    requires Quiet(s) && InWatchDir(cfg, path) && path in s.dir.files
    requires HexDigests(cfg.hashes) && GoodIds(cfg, ids)
    ensures Legal(cfg, s, run) && Exec(cfg, s, run) == t && Unaided(run)
    ensures var build := Build(path, s.dir.files[path], FreshEvent(cfg, path, s.dir.files[path], ids));
            t == s.(watch := s.watch.(builds := s.watch.builds + [build], at := Publishing(|s.watch.builds|, false)))
  {
    hide Legal, Exec, WellFormed, HexDigests, BuildEvent, InWatchDir;
    var c := s.dir.files[path];
    BuiltEventIsValid(cfg, path, c, ids.eventId, ids.correlationId, ids.occurredAt);
    assert Legal(cfg, s, []) && Exec(cfg, s, []) == s by { NoSteps(cfg, s); }
    run, t := Go(cfg, s, [], s, Detect(path));
    run, t := Go(cfg, s, run, t, Take);
    run, t := Go(cfg, s, run, t, BuildOk(ids.eventId, ids.correlationId, ids.occurredAt));
  }

  /** The watcher picks up the path and publishes its event. */
  lemma Announce(cfg: Config, s: State, path: string, ids: Ids) returns (run: seq<Step>, t: State)
    requires Quiet(s) && InWatchDir(cfg, path) && path in s.dir.files
    requires HexDigests(cfg.hashes) && GoodIds(cfg, ids)
    ensures Legal(cfg, s, run) && Exec(cfg, s, run) == t
    ensures Unaided(run)
    ensures Loaded(cfg, s, t, path, s.dir.files[path], ids)
  {
    hide Legal, Exec, WellFormed, HexDigests, FreshEvent, InWatchDir;
    run, t := Pick(cfg, s, path, ids);
    run, t := Go(cfg, s, run, t, Publish(Confirmed));
    run, t := Go(cfg, s, run, t, CountPublished);
  }

  /** The event in hand is the one just announced. */
  ghost predicate InHandOnly(cfg: Config, s: State, t: State, path: string, c: Content, ids: Ids) {
    && t.dir == s.dir
    && t.broker == s.broker.(origins := s.broker.origins + [FreshOrigin(cfg, s, path, c, ids)])
    && t.watch.queue == [] && t.watch.at.Waiting?
    && HasEvent(t.handler) && EventOf(t.handler) == FreshEvent(cfg, path, c, ids)
    && t.done == s.done && t.objects == s.objects
  }

  /** The watcher announces the path and the consumer checks the event against the store. */
  lemma Receive(cfg: Config, s: State, path: string, ids: Ids) returns (run: seq<Step>, t: State)
    requires Quiet(s) && InWatchDir(cfg, path) && path in s.dir.files
    requires HexDigests(cfg.hashes) && GoodIds(cfg, ids)
    ensures Legal(cfg, s, run) && Exec(cfg, s, run) == t
    ensures Unaided(run)
    ensures InHandOnly(cfg, s, t, path, s.dir.files[path], ids)
    ensures if Key(cfg, path, s.dir.files[path]) in s.done then t.handler.Acking? && t.handler.verdict.Duplicate?
            else t.handler.Locating?
  {
    hide Legal, Exec, WellFormed, HexDigests, Supported, Key, InWatchDir, CsvSecurity.Scan, Concluded, Written,
      ApplyEndUpload, ApplySend;
    VersionOneDotZero();
    run, t := Announce(cfg, s, path, ids);
    run, t := Go(cfg, s, run, t, Deliver);
    run, t := Go(cfg, s, run, t, Validate);
  }

  /** The handler acks and counts. */
  lemma Close(cfg: Config, s: State, before: seq<Step>, u: State) returns (run: seq<Step>, t: State)
    requires Legal(cfg, s, before) && Exec(cfg, s, before) == u
    requires u.handler.Acking? && (u.handler.verdict.Success? || u.handler.verdict.Duplicate?)
    ensures Legal(cfg, s, run) && Exec(cfg, s, run) == t
    ensures forall step :: step in run ==> step in before || step.Ack? || step.Count? || step.Total?
    ensures t == u.(handler := Idle, tally := t.tally)
  {
    hide Legal, Exec;
    run, t := Go(cfg, s, before, u, Ack);
    run, t := Go(cfg, s, run, t, Count);
    if u.handler.verdict.Duplicate? {
      run, t := Go(cfg, s, run, t, Total);
    }
  }

  /** The consumer takes a fresh event whose key is done: it acks and counts, and nothing else happens. */
  lemma {:induction false} SkipDuplicate(cfg: Config, s: State, path: string, ids: Ids) returns (run: seq<Step>, t: State)
    requires Quiet(s) && InWatchDir(cfg, path) && path in s.dir.files
    requires HexDigests(cfg.hashes) && GoodIds(cfg, ids) && Key(cfg, path, s.dir.files[path]) in s.done
    ensures Legal(cfg, s, run) && Exec(cfg, s, run) == t && Quiet(t)
    ensures Unaided(run)
    ensures t.dir == s.dir && t.objects == s.objects && t.done == s.done && t.broker.dlq == s.broker.dlq
    ensures t.broker.origins == s.broker.origins + [FreshOrigin(cfg, s, path, s.dir.files[path], ids)]
  {
    hide Legal, Exec, Apply, Enabled, HexDigests, Key, InWatchDir, FreshOrigin;
    run, t := Receive(cfg, s, path, ids);
    run, t := Close(cfg, s, run, t);
  }

  /** The file is there and passes the scan. */
  lemma Inspect(cfg: Config, s: State, before: seq<Step>, u: State, path: string) returns (run: seq<Step>, t: State)
    requires Legal(cfg, s, before) && Exec(cfg, s, before) == u
    requires u.handler.Locating? && HasEvent(u.handler) && EventOf(u.handler).source.path == path
    requires path in u.dir.files && CsvSecurity.Scan(u.dir.files[path], cfg.fileLimit) == CsvSecurity.Issues([])
    ensures Legal(cfg, s, run) && Exec(cfg, s, run) == t && (Unaided(before) ==> Unaided(run))
    ensures var fan := FanOut.Begin(|EventOf(u.handler).destinations|, cfg.concurrency);
            t == u.(handler := Uploading(u.handler.message, fan))
  {
    hide Legal, Exec, WellFormed, CsvSecurity.Scan, FanOut.Begin;
    run, t := Go(cfg, s, before, u, Locate);
    run, t := Go(cfg, s, run, t, Scan);
  }

  /** One upload starts and succeeds. */
  lemma UploadNext(cfg: Config, s: State, before: seq<Step>, u: State, path: string, i: nat)
    returns (run: seq<Step>, t: State)
    requires Legal(cfg, s, before) && Exec(cfg, s, before) == u
    requires u.handler.Uploading? && HasEvent(u.handler) && FanOut.CanStart(u.handler.fan, i)
    requires i < |EventOf(u.handler).destinations|
    requires EventOf(u.handler).destinations[i].provider in FanOut.KNOWN_PROVIDERS
    requires path in u.dir.files && EventOf(u.handler).source.path == path
    ensures Legal(cfg, s, run) && Exec(cfg, s, run) == t && (Unaided(before) ==> Unaided(run))
    ensures var d := EventOf(u.handler).destinations[i];
            var fan := u.handler.fan;
            var result := FanOut.ResultOf(d.provider, FanOut.Succeeds);
            && result.ok
            && t == u.(handler := u.handler.(fan := fan.(slots := fan.slots[i := FanOut.Reported(result)])),
                       objects := u.objects[LocationOf(d) := u.dir.files[path]])
  {
    hide Legal, Exec, WellFormed;
    run, t := Go(cfg, s, before, u, StartUpload(i));
    run, t := Go(cfg, s, run, t, EndUpload(i, FanOut.Succeeds));
    var slots := u.handler.fan.slots;
    var running, reported := FanOut.Running(Some(u.dir.files[path])), t.handler.fan.slots[i];
    assert slots[i := running][i := reported] == slots[i := reported];
  }

  /** Both uploads start, succeed and are found without failures. */
  lemma UploadBoth(cfg: Config, s: State, before: seq<Step>, u: State, path: string, c: Content)
    returns (run: seq<Step>, t: State)
    requires Legal(cfg, s, before) && Exec(cfg, s, before) == u
    requires u.handler.Uploading? && HasEvent(u.handler) && u.handler.fan == FanOut.Begin(2, cfg.concurrency)
    requires cfg.concurrency >= 1 && path in u.dir.files && u.dir.files[path] == c
    requires EventOf(u.handler).source.path == path && EventOf(u.handler).destinations == Destinations(cfg, path)
    ensures Legal(cfg, s, run) && Exec(cfg, s, run) == t && (Unaided(before) ==> Unaided(run))
    ensures t == u.(handler := Marking(u.handler.message), objects := t.objects) && Holds(cfg, t.objects, path, c)
  {
    hide Legal, Exec, WellFormed, Apply, Enabled, FanOut.ResultOf;
    run, t := UploadNext(cfg, s, before, u, path, 0);
    run, t := UploadNext(cfg, s, run, t, path, 1);
    AllSucceeded(cfg, t);
    run, t := Go(cfg, s, run, t, Conclude);
  }

  /** A new file that passes the scan goes through when nothing fails: from a quiet system there is a run to
      a quiet system in which its key is done and every destination holds it. */
  lemma {:induction false} DeliverCleanFile(cfg: Config, s: State, path: string, ids: Ids)
    returns (run: seq<Step>, t: State)
    requires Quiet(s) && InWatchDir(cfg, path) && path in s.dir.files
    requires CsvSecurity.Scan(s.dir.files[path], cfg.fileLimit) == CsvSecurity.Issues([])
    requires HexDigests(cfg.hashes) && GoodIds(cfg, ids) && cfg.concurrency >= 1
    requires Key(cfg, path, s.dir.files[path]) !in s.done
    ensures Legal(cfg, s, run) && Exec(cfg, s, run) == t && Quiet(t) && Unaided(run)
    ensures t.dir == s.dir && t.broker.dlq == s.broker.dlq
    ensures t.done == s.done[Key(cfg, path, s.dir.files[path]) := ids.correlationId]
    ensures Holds(cfg, t.objects, path, s.dir.files[path])
    ensures t.broker.origins == s.broker.origins + [FreshOrigin(cfg, s, path, s.dir.files[path], ids)]
  {
    hide Legal, Exec, WellFormed, HexDigests, CsvSecurity.Scan, Key, InWatchDir, FanOut.Begin, Holds, Destinations;
    run, t := Receive(cfg, s, path, ids);
    run, t := Inspect(cfg, s, run, t, path);
    assert |Destinations(cfg, path)| == 2 by { TwoDestinations(cfg, path); }
    run, t := UploadBoth(cfg, s, run, t, path, s.dir.files[path]);
    run, t := Go(cfg, s, run, t, Mark);
    run, t := Close(cfg, s, run, t);
  }

  lemma TwoDestinations(cfg: Config, path: string)
    ensures |Destinations(cfg, path)| == 2
  {
  }
}
