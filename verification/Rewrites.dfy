/** When a rewritten file converges: always if its path never returns to earlier bytes, and otherwise exactly if the
    dedupe store can be trusted about the new bytes; and a file that never gets that far. */
module Rewrites {
  import opened Common
  import opened Schema
  import opened Detection
  import opened Protocol
  import opened Lineage
  import opened DoneOnce
  import opened Continuations
  import opened Convergence
  import opened Draining
  import opened Quiescence
  import Csv
  import CsvSecurity
  import FanOut
  import KeyEncoding
  import Utf8

  // Paths that never return to earlier bytes

  /** Every write to the path brings bytes it has never had, or leaves the bytes it has. */
  ghost predicate NeverReturns(cfg: Config, run: seq<Step>, path: string)
    requires Legal(cfg, Init(), run)
  {
    run == [] || (var n := |run| - 1;
                  && NeverReturns(cfg, run[..n], path)
                  && (run[n].Write? && run[n].path == path ==>
                        var files := Exec(cfg, Init(), run[..n]).dir.files;
                        run[n] !in run[..n] || (path in files && files[path] == run[n].content)))
  }

  /** A run whose writes to the path all bring different bytes is one. */
  lemma {:induction false} DifferentWritesNeverReturn(cfg: Config, run: seq<Step>, path: string)
    requires Legal(cfg, Init(), run)
    requires forall i, j :: 0 <= i < j < |run| && run[i].Write? && run[j].Write? && run[i].path == run[j].path == path ==>
               run[i].content != run[j].content
    ensures NeverReturns(cfg, run, path)
  {
    if run != [] {
      hide Apply, Enabled;
      var n := |run| - 1;
      DifferentWritesNeverReturn(cfg, run[..n], path);
    }
  }

  /** Whatever is known of a content of the path was once written to it. */
  ghost predicate Remembered(s: State, run: seq<Step>, path: string) {
    && (path in s.dir.files ==> Write(path, s.dir.files[path]) in run)
    && (forall b :: b in s.watch.builds && b.path == path ==> Write(path, b.content) in run)
  }

  lemma RememberedStep(cfg: Config, s: State, run: seq<Step>, step: Step, path: string)
    requires Remembered(s, run, path) && Enabled(cfg, s, step)
    ensures Remembered(Apply(cfg, s, step), run + [step], path)
  {
    hide WellFormed, BuildEvent, SettledFor;
    if !OutsideConsumer(step) && !PutsMain(step) {
      hide Apply;
      ConsumerFrame(cfg, s, step);
    }
  }

  lemma {:induction false} RememberedRun(cfg: Config, run: seq<Step>, path: string)
    requires Legal(cfg, Init(), run)
    ensures Remembered(Exec(cfg, Init(), run), run, path)
  {
    if run != [] {
      hide Apply, Enabled, Remembered;
      var n := |run| - 1;
      RememberedRun(cfg, run[..n], path);
      RememberedStep(cfg, Exec(cfg, Init(), run[..n]), run[..n], run[n], path);
      assert run == run[..n] + [run[n]];
    } else {
      assert Init().dir.files == map[] && Init().watch.builds == [];
    }
  }

  /** A key that is done was published for a file of the watcher's. */
  ghost predicate DoneSourced(cfg: Config, s: State) {
    forall k :: k in s.done ==>
      exists o :: o in s.broker.origins && o.Detected? && k == Key(cfg, o.path, o.content)
  }

  lemma DoneSourcedStep(cfg: Config, s: State, step: Step)
    requires Sourced(cfg, s) && Tracked(cfg, s) && Undone(s) && DoneSourced(cfg, s)
    requires Enabled(cfg, s, step) && OwnEventsOnly(Apply(cfg, s, step).broker.origins)
    ensures DoneSourced(cfg, Apply(cfg, s, step))
  {
    hide Apply, WellFormed, Key, Sourced, Tracked, OwnEventsOnly;
    OriginsGrow(cfg, s, step);
    UndoneStep(cfg, s, step);
    var t := Apply(cfg, s, step);
    assert forall o :: o in s.broker.origins ==> o in t.broker.origins;
    if step.Mark? {
      var path, content := EventInHand(cfg, s);
    }
  }

  lemma {:induction false} DoneSourcedRun(cfg: Config, run: seq<Step>)
    requires Legal(cfg, Init(), run) && OwnEventsOnly(Exec(cfg, Init(), run).broker.origins)
    ensures DoneSourced(cfg, Exec(cfg, Init(), run))
  {
    if run != [] {
      hide Apply, Enabled, DoneSourced, Tracked, Sourced, Undone, OwnEventsOnly;
      var n := |run| - 1;
      var s := Exec(cfg, Init(), run[..n]);
      OriginsGrow(cfg, s, run[n]);
      SourcedRun(cfg, run[..n]);
      TrackedRun(cfg, run[..n]);
      UndoneRun(cfg, run[..n]);
      DoneSourcedRun(cfg, run[..n]);
      DoneSourcedStep(cfg, s, run[n]);
    }
  }

  /** Bytes that were never written to the path do not come in behind the store's back. */
  lemma NewBytesDoNotShadow(cfg: Config, files: set<KeyEncoding.File>, s: State, run: seq<Step>, path: string, c: Content)
    requires KeyEncoding.CollisionFree(cfg.hashes, files) && OwnEventsOnly(s.broker.origins)
    requires Sourced(cfg, s) && Tracked(cfg, s) && Undone(s) && DoneSourced(cfg, s) && Remembered(s, run, path)
    requires Write(path, c) !in run && Among(files, s) && KeyEncoding.File(path, c) in files
    ensures SettledFor(cfg, s, path, c)
  {
    hide Tracked, WellFormed, Key, OwnEventsOnly, Holds, KeyEncoding.CollisionFree;
    var k := Key(cfg, path, c);
    forall o | o in s.broker.origins && o.Detected? ensures Key(cfg, o.path, o.content) != k {
      KeyIsInjective(cfg, files, path, c, o.path, o.content);
      assert s.watch.builds[o.build] in s.watch.builds;
    }
    if PastDedupe(s.handler) {
      var owner, content := EventInHand(cfg, s);
    }
  }

  lemma {:induction false} NeverShadowed(cfg: Config, files: set<KeyEncoding.File>, run: seq<Step>, path: string)
    requires KeyEncoding.CollisionFree(cfg.hashes, files) && Within(files, run)
    requires Legal(cfg, Init(), run) && OwnEventsOnly(Exec(cfg, Init(), run).broker.origins)
    requires NeverReturns(cfg, run, path)
    ensures path !in Exec(cfg, Init(), run).dir.shadowed
  {
    if run != [] {
      hide Apply, Enabled, OwnEventsOnly, KeyEncoding.CollisionFree;
      var n := |run| - 1;
      var s := Exec(cfg, Init(), run[..n]);
      OriginsGrow(cfg, s, run[n]);
      NeverShadowed(cfg, files, run[..n], path);
      if Touches(run[n], path) && run[n] !in run[..n] {
        FirstWriteDoesNotShadow(cfg, files, run[..n], path, run[n]);
      } else {
        ShadowedOnlyByChange(cfg, s, run[n], path);
      }
    }
  }

  lemma FirstWriteDoesNotShadow(cfg: Config, files: set<KeyEncoding.File>, run: seq<Step>, path: string, step: Step)
    requires KeyEncoding.CollisionFree(cfg.hashes, files) && Within(files, run)
    requires Legal(cfg, Init(), run) && OwnEventsOnly(Exec(cfg, Init(), run).broker.origins)
    requires Enabled(cfg, Exec(cfg, Init(), run), step) && Touches(step, path) && step !in run && Within(files, [step])
    requires path !in Exec(cfg, Init(), run).dir.shadowed
    ensures path !in Apply(cfg, Exec(cfg, Init(), run), step).dir.shadowed
  {
    hide Enabled, Tracked, Sourced, Undone, OwnEventsOnly, DoneSourced, Among, Remembered, SettledFor,
      KeyEncoding.CollisionFree;
    if step.Write? {
      SourcedRun(cfg, run);
      TrackedRun(cfg, run);
      UndoneRun(cfg, run);
      DoneSourcedRun(cfg, run);
      RememberedRun(cfg, run, path);
      AmongRun(cfg, files, run);
      assert step in [step];
      NewBytesDoNotShadow(cfg, files, Exec(cfg, Init(), run), run, path, step.content);
    }
  }

  lemma ShadowedOnlyByChange(cfg: Config, s: State, step: Step, path: string)
    requires Enabled(cfg, s, step) && path !in s.dir.shadowed
    requires step.Write? && step.path == path ==> path in s.dir.files && s.dir.files[path] == step.content
    ensures path !in Apply(cfg, s, step).dir.shadowed
  {
    hide WellFormed, BuildEvent, SettledFor;
    if !OutsideConsumer(step) {
      hide Apply;
      ConsumerFrame(cfg, s, step);
    }
  }

  /** Quiescent convergence for a path that never returns to earlier bytes. */
  lemma {:induction false} NeverReturningConverges(cfg: Config, files: set<KeyEncoding.File>, run: seq<Step>, path: string)
    requires KeyEncoding.CollisionFree(cfg.hashes, files) && Within(files, run)
    requires Legal(cfg, Init(), run) && OwnEventsOnly(Exec(cfg, Init(), run).broker.origins)
    requires NeverReturns(cfg, run, path)
    requires Quiet(Exec(cfg, Init(), run))
    requires path in Exec(cfg, Init(), run).dir.files
    requires Published(Exec(cfg, Init(), run), path, Exec(cfg, Init(), run).dir.files[path])
    ensures Converged(cfg, Exec(cfg, Init(), run), path)
  {
    NeverShadowed(cfg, files, run, path);
    QuietMeansConverged(cfg, files, run, path);
  }

  // Exactly when a rewrite converges

  /** Every continuation that leaves the path alone, is over and has published its content has converged. */
  ghost predicate AlwaysConverges(cfg: Config, files: set<KeyEncoding.File>, s: State, path: string)
    requires path in s.dir.files
  {
    forall rest: seq<Step> ::
      && Legal(cfg, s, rest)
      && Within(files, rest)
      && (forall step :: step in rest ==> !Touches(step, path))
      && Quiet(Exec(cfg, s, rest))
      && OwnEventsOnly(Exec(cfg, s, rest).broker.origins)
      && path in Exec(cfg, s, rest).dir.files
      && Published(Exec(cfg, s, rest), path, s.dir.files[path])
      ==> Converged(cfg, Exec(cfg, s, rest), path)
  }

  /** What a caller can check before writing `c`: the store can be trusted about it, or the dead-letter queue
      already has its event. */
  ghost predicate SafeToWrite(cfg: Config, s: State, path: string, c: Content) {
    SettledFor(cfg, s, path, c) || DeadLetteredFor(s, Key(cfg, path, c))
  }

  /** Between two messages the guard is the duplicate check and a look at the destinations. */
  lemma SafeBetweenMessages(cfg: Config, s: State, path: string, c: Content)
    requires s.handler.Idle?
    ensures var k := Key(cfg, path, c);
            SafeToWrite(cfg, s, path, c) <==> k !in s.done || Holds(cfg, s.objects, path, c) || DeadLetteredFor(s, k)
  {
    hide Key, Holds, DeadLetteredFor;
  }

  lemma SafeRewriteConverges(cfg: Config, files: set<KeyEncoding.File>, run: seq<Step>, path: string, c: Content)
    requires KeyEncoding.CollisionFree(cfg.hashes, files) && InWatchDir(cfg, path)
    requires Within(files, run) && KeyEncoding.File(path, c) in files
    requires Legal(cfg, Init(), run) && SafeToWrite(cfg, Exec(cfg, Init(), run), path, c)
    requires path !in Exec(cfg, Init(), run).dir.files || Exec(cfg, Init(), run).dir.files[path] != c
    ensures AlwaysConverges(cfg, files, Apply(cfg, Exec(cfg, Init(), run), Write(path, c)), path)
  {
    hide Key, Holds, SettledFor, KeyEncoding.CollisionFree, OwnEventsOnly, Quiet, Published;
    var s := Exec(cfg, Init(), run);
    var t := Apply(cfg, s, Write(path, c));
    forall rest: seq<Step> |
      && Legal(cfg, t, rest)
      && Within(files, rest)
      && (forall step :: step in rest ==> !Touches(step, path))
      && Quiet(Exec(cfg, t, rest))
      && OwnEventsOnly(Exec(cfg, t, rest).broker.origins)
      && path in Exec(cfg, t, rest).dir.files
      && Published(Exec(cfg, t, rest), path, c)
      ensures Converged(cfg, Exec(cfg, t, rest), path)
    {
      Extend(cfg, Init(), run, Write(path, c));
      Concat(cfg, Init(), run + [Write(path, c)], rest);
      UntouchedPath(cfg, t, rest, path);
      var u := Exec(cfg, t, rest);
      if DeadLetteredFor(s, Key(cfg, path, c)) {
        assert forall d :: d in s.broker.dlq ==> d in u.broker.dlq;
      } else {
        QuietMeansConverged(cfg, files, run + [Write(path, c)] + rest, path);
      }
    }
  }

  // An unsafe rewrite strands

  /** From a quiet state: its event is skipped. */
  lemma StrandQuiet(cfg: Config, s: State, path: string, ids: Ids)
    returns (run: seq<Step>, t: State)
    requires HexDigests(cfg.hashes) && GoodIds(cfg, ids) && InWatchDir(cfg, path)
    requires Quiet(s) && OwnEventsOnly(s.broker.origins) && path in s.dir.files
    requires var c := s.dir.files[path]; var k := Key(cfg, path, c);
             k in s.done && !Holds(cfg, s.objects, path, c) && !DeadLetteredFor(s, k)
    ensures Legal(cfg, s, run) && Exec(cfg, s, run) == t && HandsOff(run)
    ensures Quiet(t) && OwnEventsOnly(t.broker.origins) && t.dir == s.dir
    ensures Published(t, path, t.dir.files[path]) && !Converged(cfg, t, path)
  {
    hide Legal, Exec, HexDigests, Key, Holds, Supported, OwnEventsOnly;
    run, t := SkipDuplicate(cfg, s, path, ids);
    OwnMore(s.broker.origins, FreshOrigin(cfg, s, path, s.dir.files[path], ids));
    assert t.broker.origins[|s.broker.origins|] == FreshOrigin(cfg, s, path, s.dir.files[path], ids);
  }

  /** The handler, if need be, does the harm: then the key of the present bytes is done while a destination
      holds others. */
  lemma Harm(cfg: Config, files: set<KeyEncoding.File>, s: State, path: string, c: Content)
    returns (run: seq<Step>, t: State)
    requires KeyEncoding.CollisionFree(cfg.hashes, files) && cfg.concurrency >= 1
    requires Sound(cfg, s) && Among(files, s) && OwnEventsOnly(s.broker.origins) && Clear(cfg, s)
    requires path in s.dir.files && s.dir.files[path] == c && !SettledFor(cfg, s, path, c)
    ensures Legal(cfg, s, run) && Exec(cfg, s, run) == t && HandsOff(run)
    ensures Key(cfg, path, c) in t.done && !Holds(cfg, t.objects, path, c)
    ensures t.dir == s.dir && t.broker == s.broker && Clear(cfg, t)
  {
    hide Legal, Exec, Key, WellFormed, Supported, OwnEventsOnly, Sourced, Tracked, Permits, KeyEncoding.CollisionFree,
      Apply, Enabled, Clear, Holds, OwnEvent;
    assert Legal(cfg, s, []) && Exec(cfg, s, []) == s by { NoSteps(cfg, s); }
    var k := Key(cfg, path, c);
    if k in s.done && !Holds(cfg, s.objects, path, c) {
      run, t := [], s;
    } else {
      var owner, content := EventInHand(cfg, s);
      OwnFile(cfg, files, s, owner, content);
      KeyIsInjective(cfg, files, path, c, owner, content);
      OwnEventPlaces(cfg, s, owner, content);
      if s.handler.Marking? {
        Marks(cfg, s);
        run, t := Go(cfg, s, [], s, Mark);
      } else if k in s.done {
        run, t := HarmByEnd(cfg, s, path, c);
      } else {
        run, t := HarmByMark(cfg, s, path, c);
      }
      ClearLater(cfg, s, t);
    }
  }

  lemma OwnEventPlaces(cfg: Config, s: State, path: string, c: Content)
    requires HasEvent(s.handler) && OwnEvent(cfg, s.broker.origins, EventOf(s.handler), path, c)
    ensures EventOf(s.handler).source.path == path && EventOf(s.handler).idempotencyKey == Key(cfg, path, c)
    ensures EventOf(s.handler).destinations == Destinations(cfg, path) && DistinctPlaces(EventOf(s.handler))
  {
  }

  /** One upload ends with the wrong bytes. */
  lemma HarmByEnd(cfg: Config, s: State, path: string, c: Content) returns (run: seq<Step>, t: State)
    requires s.handler.Uploading? && HasEvent(s.handler) && !UploadsOnly(s.handler.fan, c)
    requires |s.handler.fan.slots| == |EventOf(s.handler).destinations|
    requires EventOf(s.handler).destinations == Destinations(cfg, path)
    ensures Legal(cfg, s, run) && Exec(cfg, s, run) == t && HandsOff(run)
    ensures !Holds(cfg, t.objects, path, c)
    ensures t == s.(handler := t.handler, objects := t.objects) && InHand(t.handler) == InHand(s.handler)
  {
    hide Legal, Exec, WellFormed;
    assert Legal(cfg, s, []) && Exec(cfg, s, []) == s by { NoSteps(cfg, s); }
    var slots := s.handler.fan.slots;
    var i: nat :| i < |slots| && slots[i].Running? && slots[i].bytes.Some? && slots[i].bytes.value != c;
    var d := EventOf(s.handler).destinations[i];
    run, t := Go(cfg, s, [], s, EndUpload(i, FanOut.Succeeds));
    assert d in Destinations(cfg, path) && !HoldsAt(t.objects, LocationOf(d), c);
  }

  /** The handling succeeds with the wrong bytes. */
  lemma HarmByMark(cfg: Config, s: State, path: string, c: Content) returns (run: seq<Step>, t: State)
    requires cfg.concurrency >= 1 && Sound(cfg, s) && path in s.dir.files
    requires s.handler.Uploading? && Deliverable(s.handler.fan)
    requires !(UploadsOnly(s.handler.fan, c) && ReportedHold(s.objects, EventOf(s.handler), s.handler.fan, c))
    requires EventOf(s.handler).source.path == path && DistinctPlaces(EventOf(s.handler))
    requires EventOf(s.handler).destinations == Destinations(cfg, path)
    ensures Legal(cfg, s, run) && Exec(cfg, s, run) == t && HandsOff(run)
    ensures EventOf(s.handler).idempotencyKey in t.done && !Holds(cfg, t.objects, path, c)
    ensures t == s.(handler := t.handler, objects := t.objects, done := WithMark(s.done, EventOf(s.handler)))
    ensures InHand(t.handler) == InHand(s.handler)
  {
    hide Legal, Exec, WellFormed, Sourced, Tracked, Permits, Deliverable, DistinctPlaces, Destinations;
    MidwayWhen(cfg, s);
    var j := Spoiler(s, c);
    run, t := FinishHandling(cfg, s, j, c);
    assert EventOf(s.handler).destinations[j] in Destinations(cfg, path);
  }

  lemma Spoiler(s: State, c: Content) returns (j: nat)
    requires s.handler.Uploading? && HasEvent(s.handler) && Deliverable(s.handler.fan)
    requires |s.handler.fan.slots| == |EventOf(s.handler).destinations|
    requires !(UploadsOnly(s.handler.fan, c) && ReportedHold(s.objects, EventOf(s.handler), s.handler.fan, c))
    ensures j < |s.handler.fan.slots| && Spoils(s, j, c)
  {
    var slots := s.handler.fan.slots;
    if !UploadsOnly(s.handler.fan, c) {
      j :| j < |slots| && slots[j].Running? && slots[j].bytes.Some? && slots[j].bytes.value != c;
    } else {
      j :| j < |slots| && slots[j].Reported? && !HoldsAt(s.objects, LocationOf(EventOf(s.handler).destinations[j]), c);
    }
  }

  lemma ClearLater(cfg: Config, s: State, t: State)
    requires Clear(cfg, s) && t.dir == s.dir && t.broker == s.broker && InHand(t.handler) == InHand(s.handler)
    requires forall k :: k in s.done ==> k in t.done
    ensures Clear(cfg, t)
  {
    hide CsvSecurity.Scan, Supported;
    forall m | Queued(t, m) || m in Current(t) ensures !Unreadable(cfg, t, m) {
      assert Queued(s, m) || m in Current(s);
      assert !Unreadable(cfg, s, m);
    }
  }

  /** No message that names the path is held up by its being unreadable. */
  ghost predicate Unhindered(cfg: Config, s: State, path: string) {
    forall m :: (Queued(s, m) || m in Current(s)) && Unreadable(cfg, s, m) ==> m.payload.event.source.path != path
  }

  /** Nobody writes a file, publishes from outside or touches the path. */
  predicate Aside(run: seq<Step>, path: string) {
    forall step :: step in run ==> !step.Write? && !step.Inject? && !Touches(step, path)
  }

  lemma AsideTwice(a: seq<Step>, b: seq<Step>, path: string)
    requires Aside(a, path) && (Aside(b, path) || HandsOff(b))
    ensures Aside(a + b, path)
  {
  }

  lemma {:induction false} RemoveFiles(cfg: Config, s: State, path: string, others: set<string>)
    returns (run: seq<Step>, t: State)
    requires path !in others
    ensures Legal(cfg, s, run) && Exec(cfg, s, run) == t && Aside(run, path)
    ensures t == s.(dir := s.dir.(files := s.dir.files - others))
    decreases others
  {
    hide Legal, Exec;
    if others == {} {
      NoSteps(cfg, s);
      assert s.dir.files - others == s.dir.files;
      run, t := [], s;
    } else {
      var p :| p in others;
      run, t := RemoveFiles(cfg, s, path, others - {p});
      run, t := Go(cfg, s, run, t, Remove(p));
      assert s.dir.files - (others - {p}) - {p} == s.dir.files - others;
    }
  }

  /** All other files are removed: then nothing is unreadable any more. */
  lemma ClearTheWay(cfg: Config, files: set<KeyEncoding.File>, s: State, path: string, c: Content)
    returns (run: seq<Step>, t: State)
    requires Sound(cfg, s) && Among(files, s) && Unhindered(cfg, s, path) && path in s.dir.files
    ensures Legal(cfg, s, run) && Exec(cfg, s, run) == t && Aside(run, path)
    ensures t == s.(dir := t.dir) && path in t.dir.files && t.dir.files[path] == s.dir.files[path]
    ensures Sound(cfg, t) && Among(files, t) && Clear(cfg, t)
    ensures SafeToWrite(cfg, t, path, c) <==> SafeToWrite(cfg, s, path, c)
  {
    hide Legal, Exec, Sound, Unhindered, SafeToWrite, Queued, CsvSecurity.Scan, Supported;
    run, t := RemoveFiles(cfg, s, path, s.dir.files.Keys - {path});
    SoundAlong(cfg, s, run);
    forall m | Queued(t, m) || m in Current(t) ensures !Unreadable(cfg, t, m) {
      KeptQueued(s, t, m);
      if Unreadable(cfg, t, m) {
        assert Unreadable(cfg, s, m);
        HinderedBy(cfg, s, path, m);
      }
    }
    SameTrust(cfg, s, t, path, c);
  }

  lemma HinderedBy(cfg: Config, s: State, path: string, m: Message)
    requires Unhindered(cfg, s, path) && (Queued(s, m) || m in Current(s)) && Unreadable(cfg, s, m)
    ensures m.payload.Event? && m.payload.event.source.path != path
  {
  }

  lemma SameTrust(cfg: Config, s: State, t: State, path: string, c: Content)
    requires t == s.(dir := t.dir)
    ensures SafeToWrite(cfg, t, path, c) <==> SafeToWrite(cfg, s, path, c)
  {
    hide Key, Holds, UploadsOnly, ReportedHold, Deliverable, Supported;
  }

  /** From any state: the way is cleared, the harm is done, the system drains with failing uploads, and the event of
      the present bytes is skipped. */
  lemma Strand(cfg: Config, files: set<KeyEncoding.File>, s: State, path: string, c: Content, ids: Ids)
    returns (run: seq<Step>, t: State)
    requires KeyEncoding.CollisionFree(cfg.hashes, files) && HexDigests(cfg.hashes) && GoodIds(cfg, ids)
    requires cfg.concurrency >= 1 && cfg.maxAttempts >= 1 && InWatchDir(cfg, path)
    requires Sound(cfg, s) && Among(files, s) && OwnEventsOnly(s.broker.origins) && Unhindered(cfg, s, path)
    requires path in s.dir.files && s.dir.files[path] == c && !SafeToWrite(cfg, s, path, c)
    ensures Legal(cfg, s, run) && Exec(cfg, s, run) == t && Aside(run, path)
    ensures Quiet(t) && OwnEventsOnly(t.broker.origins) && path in t.dir.files
    ensures Published(t, path, c) && !Converged(cfg, t, path)
  {
    hide Legal, Exec, Key, Sound, OwnEventsOnly, Clear, KeyEncoding.CollisionFree, Holds, Among, SettledFor, HexDigests,
      Quiet, Published, Converged, DeadLetteredFor, InWatchDir, Aside, HandsOff, Unhindered;
    var r0, s0 := ClearTheWay(cfg, files, s, path, c);
    var r1, s1 := Harm(cfg, files, s0, path, c);
    Join(cfg, s, r0, r1);
    AsideTwice(r0, r1, path);
    SoundAlong(cfg, s0, r1);
    var r2, s2 := DrainFrom(cfg, s1);
    Join(cfg, s, r0 + r1, r2);
    AsideTwice(r0 + r1, r2, path);
    SameDlq(s0, s1, Key(cfg, path, c));
    StillNotDeadLettered(s1, s2, Key(cfg, path, c));
    var r3: seq<Step>;
    r3, t := StrandQuiet(cfg, s2, path, ids);
    Join(cfg, s, r0 + r1 + r2, r3);
    AsideTwice(r0 + r1 + r2, r3, path);
    run := r0 + r1 + r2 + r3;
  }

  lemma SameDlq(s: State, t: State, key: string)
    requires t.broker.dlq == s.broker.dlq
    ensures DeadLetteredFor(t, key) <==> DeadLetteredFor(s, key)
  {
    hide Supported;
  }

  lemma StillNotDeadLettered(s: State, t: State, key: string)
    requires Undisturbed(s, t) && key in s.done && !DeadLetteredFor(s, key)
    ensures !DeadLetteredFor(t, key)
  {
    hide Supported;
  }

  lemma UnsafeRewriteStrands(cfg: Config, files: set<KeyEncoding.File>, run: seq<Step>, path: string, c: Content,
                             ids: Ids)
    requires KeyEncoding.CollisionFree(cfg.hashes, files) && HexDigests(cfg.hashes) && GoodIds(cfg, ids)
    requires cfg.concurrency >= 1 && cfg.maxAttempts >= 1
    requires InWatchDir(cfg, path) && Within(files, run) && KeyEncoding.File(path, c) in files
    requires Legal(cfg, Init(), run) && OwnEventsOnly(Exec(cfg, Init(), run).broker.origins)
    requires !SafeToWrite(cfg, Exec(cfg, Init(), run), path, c)
    requires Unhindered(cfg, Apply(cfg, Exec(cfg, Init(), run), Write(path, c)), path)
    ensures !AlwaysConverges(cfg, files, Apply(cfg, Exec(cfg, Init(), run), Write(path, c)), path)
  {
    hide Sound, Among, Unhindered, OwnEventsOnly, KeyEncoding.CollisionFree, HexDigests, Quiet, Published, Converged;
    var s := Exec(cfg, Init(), run);
    var t := Apply(cfg, s, Write(path, c));
    Extend(cfg, Init(), run, Write(path, c));
    SoundRun(cfg, run + [Write(path, c)]);
    AmongRun(cfg, files, run + [Write(path, c)]);
    assert !SafeToWrite(cfg, t, path, c) by { WriteKeepsSafety(cfg, s, path, c); }
    var rest, u := Strand(cfg, files, t, path, c, ids);
    assert Within(files, rest) && forall step :: step in rest ==> !Touches(step, path);
  }

  lemma WriteKeepsSafety(cfg: Config, s: State, path: string, c: Content)
    requires InWatchDir(cfg, path)
    ensures var t := Apply(cfg, s, Write(path, c));
            && t.broker == s.broker && t.dir.files == s.dir.files[path := c]
            && (SafeToWrite(cfg, t, path, c) <==> SafeToWrite(cfg, s, path, c))
  {
    hide Key, Holds, UploadsOnly, ReportedHold, Deliverable, Supported;
  }

  /** The exact condition, at any point of any run. Writing new bytes to a path leads to convergence on every
      continuation that leaves the path alone, publishes them and ends quiet, if and only if they are safe to write.
      What fails is returning to bytes whose key is done, or is about to be marked, while a destination holds others
      or is about to be given others. No message that names the path may be held up by the new bytes being
      unreadable, as the system would then never come to rest (CanRestIff). */
  lemma {:induction false} RewriteConvergesIff(cfg: Config, files: set<KeyEncoding.File>, run: seq<Step>,
                                               path: string, c: Content, ids: Ids)
    requires KeyEncoding.CollisionFree(cfg.hashes, files) && HexDigests(cfg.hashes) && GoodIds(cfg, ids)
    requires cfg.concurrency >= 1 && cfg.maxAttempts >= 1
    requires InWatchDir(cfg, path) && Within(files, run) && KeyEncoding.File(path, c) in files
    requires Legal(cfg, Init(), run) && OwnEventsOnly(Exec(cfg, Init(), run).broker.origins)
    requires path !in Exec(cfg, Init(), run).dir.files || Exec(cfg, Init(), run).dir.files[path] != c
    requires Unhindered(cfg, Apply(cfg, Exec(cfg, Init(), run), Write(path, c)), path)
    ensures AlwaysConverges(cfg, files, Apply(cfg, Exec(cfg, Init(), run), Write(path, c)), path)
            <==> SafeToWrite(cfg, Exec(cfg, Init(), run), path, c)
  {
    hide Legal, Exec, Apply, AlwaysConverges, SafeToWrite, Unhindered, HexDigests, KeyEncoding.CollisionFree;
    if SafeToWrite(cfg, Exec(cfg, Init(), run), path, c) {
      SafeRewriteConverges(cfg, files, run, path, c);
    } else {
      UnsafeRewriteStrands(cfg, files, run, path, c, ids);
    }
  }

  /** The same in a quiet system, where nothing is asked of the settings. */
  lemma {:induction false} QuietRewriteConvergesIff(cfg: Config, files: set<KeyEncoding.File>, run: seq<Step>,
                                                    path: string, c: Content, ids: Ids)
    requires KeyEncoding.CollisionFree(cfg.hashes, files) && HexDigests(cfg.hashes) && GoodIds(cfg, ids)
    requires InWatchDir(cfg, path) && Within(files, run) && KeyEncoding.File(path, c) in files
    requires Legal(cfg, Init(), run) && Quiet(Exec(cfg, Init(), run))
    requires OwnEventsOnly(Exec(cfg, Init(), run).broker.origins)
    requires path !in Exec(cfg, Init(), run).dir.files || Exec(cfg, Init(), run).dir.files[path] != c
    ensures var s := Exec(cfg, Init(), run); var k := Key(cfg, path, c);
            AlwaysConverges(cfg, files, Apply(cfg, s, Write(path, c)), path)
            <==> k !in s.done || Holds(cfg, s.objects, path, c) || DeadLetteredFor(s, k)
  {
    hide Legal, Exec, HexDigests, KeyEncoding.CollisionFree, Key, Holds, DeadLetteredFor, OwnEventsOnly, Published,
      Converged, SettledFor;
    var s := Exec(cfg, Init(), run);
    SafeBetweenMessages(cfg, s, path, c);
    if SafeToWrite(cfg, s, path, c) {
      hide AlwaysConverges, Apply;
      SafeRewriteConverges(cfg, files, run, path, c);
    } else {
      var t := Apply(cfg, s, Write(path, c));
      SameDlq(s, t, Key(cfg, path, c));
      var rest, u := StrandQuiet(cfg, t, path, ids);
      assert Within(files, rest) && forall step :: step in rest ==> !Touches(step, path);
    }
  }

  /** The failing case is real: A, then B, then A again, each picked up and handled without a fault, ends quiet
      with A in the directory, B at the destinations and nothing in the dead-letter queue. */
  lemma {:induction false} ReturningPathStrands(cfg: Config, path: string, a: Content, b: Content, ids: Ids)
    returns (run: seq<Step>)
    requires KeyEncoding.CollisionFree(cfg.hashes, {KeyEncoding.File(path, a), KeyEncoding.File(path, b)})
    requires HexDigests(cfg.hashes) && GoodIds(cfg, ids)
    requires InWatchDir(cfg, path) && cfg.concurrency >= 1 && a != b
    requires CsvSecurity.Scan(a, cfg.fileLimit) == CsvSecurity.Scan(b, cfg.fileLimit) == CsvSecurity.Issues([])
    ensures Legal(cfg, Init(), run) && Within({KeyEncoding.File(path, a), KeyEncoding.File(path, b)}, run)
    ensures var s := Exec(cfg, Init(), run);
            && Quiet(s) && OwnEventsOnly(s.broker.origins)
            && path in s.dir.files && s.dir.files[path] == a && Published(s, path, a)
            && Holds(cfg, s.objects, path, b) && s.broker.dlq == [] && !Converged(cfg, s, path)
  {
    hide Legal, Exec, HexDigests, KeyEncoding.CollisionFree, Key, Supported, CsvSecurity.Scan, WellFormed, Concluded,
      ApplyEndUpload, ApplySend, SettledFor;
    KeyIsInjective(cfg, {KeyEncoding.File(path, a), KeyEncoding.File(path, b)}, path, a, path, b);
    NoSteps(cfg, Init());
    var r, s := Go(cfg, Init(), [], Init(), Write(path, a));
    var r1, s1 := DeliverCleanFile(cfg, s, path, ids);
    Concat(cfg, Init(), r, r1);
    var r2, s2 := Go(cfg, Init(), r + r1, s1, Write(path, b));
    var r3, s3 := DeliverCleanFile(cfg, s2, path, ids);
    Concat(cfg, Init(), r2, r3);
    var r4, s4 := Go(cfg, Init(), r2 + r3, s3, Write(path, a));
    var r5, s5 := SkipDuplicate(cfg, s4, path, ids);
    Concat(cfg, Init(), r4, r5);
    run := r4 + r5;
    assert s5.broker.origins[2] == FreshOrigin(cfg, s4, path, a, ids);
    assert Destinations(cfg, path)[0] in Destinations(cfg, path);
  }

  // The replay by hand

  /** Publishing an event of the watcher's again, with whatever retry block, stays within the hypothesis. */
  lemma ReplayIsOwn(origins: seq<Origin>, e: TransferEvent, j: nat)
    requires OwnEventsOnly(origins) && j < |origins| && origins[j].Detected? && SameButRetry(e, origins[j].event)
    ensures OwnEventsOnly(origins + [Foreign(Event(e))])
  {
    hide Supported, SameButRetry;
    var after := origins + [Foreign(Event(e))];
    forall i | 0 <= i < |after| && after[i].Foreign? && after[i].payload.Event? && Supported(after[i].payload.event)
      ensures Repeats(after, i)
    {
      if i < |origins| {
        assert after[i] == origins[i] && Repeats(origins, i);
        var k :| 0 <= k < i && origins[k].Detected? && SameButRetry(First(origins[i]).event, origins[k].event);
        assert after[k] == origins[k];
      } else {
        assert after[j] == origins[j] && First(after[i]) == Event(e);
      }
    }
  }

  /** Where the event of a dead letter comes from. */
  lemma DeadLetterSource(cfg: Config, s: State, d: DeadLetter) returns (j: nat)
    requires Sourced(cfg, s) && Tracked(cfg, s) && OwnEventsOnly(s.broker.origins) && d in s.broker.dlq
    requires d.message.payload.Event? && Supported(d.message.payload.event)
    ensures j < |s.broker.origins| && s.broker.origins[j].Detected?
    ensures var e := d.message.payload.event;
            && WellFormed(cfg.validators, e) && SameButRetry(e, s.broker.origins[j].event)
            && InWatchDir(cfg, e.source.path) && e.destinations == Destinations(cfg, e.source.path)
  {
    hide OwnEventsOnly, Supported, WellFormed;
    assert Buried(cfg, s.broker.origins, d);
    var o := SourceOf(cfg, s.broker.origins, d.message);
    j :| 0 <= j < |s.broker.origins| && s.broker.origins[j] == o;
    assert s.watch.builds[o.build] in s.watch.builds;
  }

  /** The runbook's remedy works: if the file of a dead letter is there and clean by now, and its key not done, the
      letter published again is delivered when nothing fails. */
  lemma {:induction false} ReplayRecovers(cfg: Config, run: seq<Step>, d: DeadLetter)
    returns (rest: seq<Step>, t: State)
    requires Legal(cfg, Init(), run) && Quiet(Exec(cfg, Init(), run)) && d in Exec(cfg, Init(), run).broker.dlq
    requires OwnEventsOnly(Exec(cfg, Init(), run).broker.origins) && cfg.concurrency >= 1
    requires d.message.payload.Event? && Supported(d.message.payload.event)
    requires var s, e := Exec(cfg, Init(), run), d.message.payload.event;
             && e.idempotencyKey !in s.done
             && e.source.path in s.dir.files
             && CsvSecurity.Scan(s.dir.files[e.source.path], cfg.fileLimit) == CsvSecurity.Issues([])
    ensures var s, e := Exec(cfg, Init(), run), d.message.payload.event;
            && Legal(cfg, s, rest) && Exec(cfg, s, rest) == t && Quiet(t)
            && rest != [] && rest[0] == Inject(Event(e))
            && t.dir == s.dir && OwnEventsOnly(t.broker.origins)
            && t.done == s.done[e.idempotencyKey := e.correlationId]
            && Holds(cfg, t.objects, e.source.path, s.dir.files[e.source.path])
  {
    hide Legal, Exec, WellFormed, Supported, CsvSecurity.Scan, InWatchDir, FanOut.Begin, Holds, Destinations,
      OwnEventsOnly, SameButRetry, Sourced, Tracked;
    var s, e := Exec(cfg, Init(), run), d.message.payload.event;
    SourcedRun(cfg, run);
    TrackedRun(cfg, run);
    var j := DeadLetterSource(cfg, s, d);
    ReplayIsOwn(s.broker.origins, e, j);
    assert Enabled(cfg, s, Inject(Event(e)));
    var first := Apply(cfg, s, Inject(Event(e)));
    rest, t := TakeReplay(cfg, s, e);
    rest, t := Inspect(cfg, first, rest, t, e.source.path);
    assert |Destinations(cfg, e.source.path)| == 2 by { TwoDestinations(cfg, e.source.path); }
    rest, t := UploadBoth(cfg, first, rest, t, e.source.path, s.dir.files[e.source.path]);
    rest, t := Go(cfg, first, rest, t, Mark);
    rest, t := Close(cfg, first, rest, t);
    Prepend(cfg, s, Inject(Event(e)), rest);
    rest := [Inject(Event(e))] + rest;
  }

  /** The event published by hand comes to the duplicate check and passes it. */
  lemma TakeReplay(cfg: Config, s: State, e: TransferEvent) returns (run: seq<Step>, t: State)
    requires Quiet(s) && WellFormed(cfg.validators, e) && Supported(e) && e.idempotencyKey !in s.done
    ensures Enabled(cfg, s, Inject(Event(e)))
    ensures Legal(cfg, Apply(cfg, s, Inject(Event(e))), run) && Exec(cfg, Apply(cfg, s, Inject(Event(e))), run) == t
    ensures t.handler == Locating(Message(Event(e), |s.broker.origins|, 0))
    ensures t == s.(broker := s.broker.(origins := s.broker.origins + [Foreign(Event(e))]),
                    handler := t.handler, tally := t.tally)
  {
    hide Legal, Exec, WellFormed, Supported, CsvSecurity.Scan, Concluded, Written, ApplyEndUpload, ApplySend;
    var first := Apply(cfg, s, Inject(Event(e)));
    NoSteps(cfg, first);
    run, t := Go(cfg, first, [], first, Deliver);
    run, t := Go(cfg, first, run, t, Validate);
  }

  // What convergence does not cover

  /** A file that is never published is not brought anywhere: when both publishes of its event are lost, the watcher
      drops it, and the system comes to rest with the file in the directory and nowhere else, although the file was
      safe to write. */
  lemma LostAnnouncement(cfg: Config, path: string, c: Content, ids: Ids) returns (run: seq<Step>)
    requires HexDigests(cfg.hashes) && GoodIds(cfg, ids) && InWatchDir(cfg, path)
    ensures Legal(cfg, Init(), run) && Quiet(Exec(cfg, Init(), run)) && SafeToWrite(cfg, Init(), path, c)
    ensures var s := Exec(cfg, Init(), run);
            && path in s.dir.files && s.dir.files[path] == c && s.watch.published == 0
            && s.objects == map[] && s.broker.dlq == [] && !Published(s, path, c) && !Converged(cfg, s, path)
  {
    hide Legal, Exec, HexDigests, Key, Supported, InWatchDir, FreshEvent;
    NoSteps(cfg, Init());
    var r, s := Go(cfg, Init(), [], Init(), Write(path, c));
    var r', t := Pick(cfg, s, path, ids);
    Join(cfg, Init(), r, r');
    run, t := Go(cfg, Init(), r + r', t, Publish(Lost));
    run, t := Go(cfg, Init(), run, t, Publish(Lost));
    assert Destinations(cfg, path)[0] in Destinations(cfg, path);
  }

  /** Digits in the shape of a digest. */
  const ZEROS: string := seq(64, _ => '0')
  const ONES: string := seq(64, _ => '1')

  /** The hypotheses of the theorems above can be met, and so the failure is one of a concrete run: the file
      /in/a.csv is empty, then holds the one byte "A", then is empty again. */
  lemma {:induction false} EmptyFileStrands() returns (cfg: Config, run: seq<Step>)
    ensures HexDigests(cfg.hashes) && cfg.maxAttempts >= 1
    ensures var files := {KeyEncoding.File("/in/a.csv", []), KeyEncoding.File("/in/a.csv", [65])};
            KeyEncoding.CollisionFree(cfg.hashes, files) && Within(files, run)
    ensures Legal(cfg, Init(), run)
    ensures var s := Exec(cfg, Init(), run);
            && Quiet(s) && OwnEventsOnly(s.broker.origins)
            && "/in/a.csv" in s.dir.files && s.dir.files["/in/a.csv"] == [] && Published(s, "/in/a.csv", [])
            && !Converged(cfg, s, "/in/a.csv")
  {
    hide Legal, Exec, Quiet, OwnEventsOnly, Published, Converged, Utf8.Encode, CsvSecurity.Scan;
    var sha: Content -> string := c => if c == [] then ZEROS else ONES;
    var first := Utf8.Encode(KeyEncoding.Message("/in/a.csv", 0, ZEROS));
    var mac: Content -> string := c => if c == first then ZEROS else ONES;
    cfg := Config("/in", "s3", "eu", "gcs", 5, 2.0, 2, 1000,
                  KeyEncoding.Hashes(mac, sha), Validators(_ => true, _ => true));
    ConcreteHashes(cfg.hashes);
    assert InWatchDir(cfg, "/in/a.csv") by {
      assert "/in" + "/" <= "/in/a.csv";
    }
    TwoCleanFiles();
    run := ReturningPathStrands(cfg, "/in/a.csv", [], [65], Ids("", "", ""));
  }

  lemma ConcreteHashes(h: KeyEncoding.Hashes)
    requires forall c: Content :: h.sha256(c) == if c == [] then ZEROS else ONES
    requires var first := Utf8.Encode(KeyEncoding.Message("/in/a.csv", 0, ZEROS));
             forall c: Content :: h.hmac(c) == if c == first then ZEROS else ONES
    ensures HexDigests(h)
    ensures KeyEncoding.CollisionFree(h, {KeyEncoding.File("/in/a.csv", []), KeyEncoding.File("/in/a.csv", [65])})
  {
    hide Utf8.Encode, KeyEncoding.Message;
    assert KeyEncoding.IsChecksum(ZEROS) && KeyEncoding.IsChecksum(ONES);
    assert ZEROS[0] != ONES[0];
  }

  lemma TwoCleanFiles()
    ensures CsvSecurity.Scan([], 1000) == CsvSecurity.Scan([65], 1000) == CsvSecurity.Issues([])
  {
    var bytes: Content := [65];
    assert ['A'] + [] == "A" && "" + ['A'] == "A" && [] + ["A"] == ["A"] && [] + [["A"]] == [["A"]];
    assert bytes[1..] == [];
    assert Utf8.DecodeChar(bytes) == Some(('A', 1));
    assert Utf8.Decode([]) == Some([]);
    assert Utf8.Decode(bytes) == Some("A");
    var text := "A";
    assert text[1..] == "";
    var read := Csv.Reader(Csv.InField, "A", [], []);
    assert Csv.Step(Csv.FRESH, text[0]) == Some(read);
    assert Csv.ReadFrom(read, "") == Some(read);
    assert Csv.ReadTable(text) == Some([["A"]]);
    assert !CsvSecurity.IsFormula("A");
    assert CsvSecurity.Hazards([["A"]], 1) == CsvSecurity.Hazards([["A"]], 0) + CsvSecurity.RowHazards(1, ["A"], 1);
    assert Csv.ReadTable("") == Some([]);
  }
}
