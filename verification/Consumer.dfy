/** The consumer (worker/src/consumer.py): one message at a time through validation, duplicate check, scan,
    uploads and routing, every effect recorded as a step of the protocol machine. */
module Consumer {
  import opened Common
  import opened Schema
  import opened Detection
  import opened Protocol
  import opened DoneOnce
  import opened NoLoss
  import opened Surroundings
  import Backoff
  import CsvSecurity
  import FanOut
  import IdempotencyStore

  /** How the environment treats one handling: its publish, and each of its uploads. */
  datatype Weather = Weather(delivery: Delivery, fates: nat -> FanOut.Fate)

  /** The machine has no way on but an exception: the file has gone or its CSV cannot be read, or RetryInfo
      refuses the retry block. */
  predicate Stuck(cfg: Config, s: State) {
    && HasEvent(s.handler)
    && ((s.handler.Scanning? && !Enabled(cfg, s, Scan))
        || (s.handler.Uploading? && FanOut.Finished(s.handler.fan) && !Enabled(cfg, s, Conclude)))
  }

  /** A step of a handling under the given weather; it raises on its own account only where it is stuck. */
  predicate Weathered(cfg: Config, s: State, step: Step, w: Weather) {
    || (InsideHandler(step) && !step.EndUpload?)
    || (step.EndUpload? && step.fate == w.fates(step.i))
    || (step.Send? && step.delivery == w.delivery)
    || (step.Raise? && Stuck(cfg, s))
  }

  /** The run from `s` to `t` by such steps alone. */
  ghost predicate Handled(cfg: Config, s: State, steps: seq<Step>, w: Weather) {
    && Legal(cfg, s, steps)
    && forall k :: 0 <= k < |steps| ==>
         Legal(cfg, s, steps[..k]) && Weathered(cfg, Exec(cfg, s, steps[..k]), steps[k], w)
  }

  lemma HandledMore(cfg: Config, s: State, steps: seq<Step>, w: Weather, step: Step)
    requires Handled(cfg, s, steps, w) && Enabled(cfg, Exec(cfg, s, steps), step)
    requires Weathered(cfg, Exec(cfg, s, steps), step, w)
    ensures Handled(cfg, s, steps + [step], w)
    ensures Exec(cfg, s, steps + [step]) == Apply(cfg, Exec(cfg, s, steps), step)
  {
    hide Apply, Enabled, Weathered;
    Extend(cfg, s, steps, step);
    forall k | 0 <= k < |steps| + 1
      ensures Legal(cfg, s, (steps + [step])[..k])
              && Weathered(cfg, Exec(cfg, s, (steps + [step])[..k]), (steps + [step])[k], w)
    {
      if k < |steps| {
        assert (steps + [step])[..k] == steps[..k];
      } else {
        assert (steps + [step])[..k] == steps;
      }
    }
  }

  lemma HandledPrefix(cfg: Config, s: State, steps: seq<Step>, w: Weather)
    requires Handled(cfg, s, steps, w) && steps != []
    ensures var n := |steps| - 1;
            && Handled(cfg, s, steps[..n], w)
            && Legal(cfg, s, steps[..n])
            && Enabled(cfg, Exec(cfg, s, steps[..n]), steps[n])
            && Weathered(cfg, Exec(cfg, s, steps[..n]), steps[n], w)
            && Legal(cfg, s, steps)
            && Exec(cfg, s, steps) == Apply(cfg, Exec(cfg, s, steps[..n]), steps[n])
  {
    hide Apply, Enabled, Weathered;
    var n := |steps| - 1;
    assert forall k :: 0 <= k < n ==> steps[..n][..k] == steps[..k];
    assert Legal(cfg, s, steps[..n]);
  }

  /** What one handling leaves alone. */
  predicate SameAround(s: State, t: State) {
    && t.dir == s.dir && t.watch == s.watch && t.now == s.now
    && t.broker.main == s.broker.main && t.broker.origins == s.broker.origins && t.tally.starts == s.tally.starts
  }

  /** A handling touches neither the files nor the watcher, takes no further message off the main queue and puts
      none on it. */
  lemma {:induction false} HandledKeepsMain(cfg: Config, s: State, steps: seq<Step>, w: Weather)
    requires Handled(cfg, s, steps, w)
    ensures SameAround(s, Exec(cfg, s, steps))
    decreases |steps|
  {
    if steps != [] {
      hide Apply, Enabled, Stuck, Handled;
      var n := |steps| - 1;
      HandledPrefix(cfg, s, steps, w);
      HandledKeepsMain(cfg, s, steps[..n], w);
      StepKeepsMain(cfg, Exec(cfg, s, steps[..n]), steps[n]);
    }
  }

  lemma StepKeepsMain(cfg: Config, s: State, step: Step)
    requires Enabled(cfg, s, step) && (InsideHandler(step) || step.Send? || step.Raise?)
    ensures SameAround(s, Apply(cfg, s, step))
  {
    ConsumerFrame(cfg, s, step);
    if InsideHandler(step) {
      hide Apply;
      HandlerFrame(cfg, s, step);
    } else {
      hide OnRetryQueue;
    }
  }

  /** One turn of the consumer's loop: a delivery and its handling, or nothing if none can be had. */
  ghost predicate Serves(cfg: Config, s: State, steps: seq<Step>, w: Weather) {
    if Enabled(cfg, s, Deliver) then
      && steps != [] && steps[0] == Deliver
      && Handled(cfg, Apply(cfg, s, Deliver), steps[1..], w)
      && Exec(cfg, Apply(cfg, s, Deliver), steps[1..]).handler.Idle?
    else steps == []
  }

  /** The run is made of such turns, one under each weather. */
  ghost predicate Served(cfg: Config, s: State, run: seq<Step>, forecast: seq<Weather>)
    decreases |forecast|
  {
    && Legal(cfg, s, run)
    && if forecast == [] then run == []
       else
         var n := |forecast| - 1;
         exists k :: 0 <= k <= |run| && Legal(cfg, s, run[..k]) && Served(cfg, s, run[..k], forecast[..n])
                     && Serves(cfg, Exec(cfg, s, run[..k]), run[k..], forecast[n])
  }

  lemma ServedMore(cfg: Config, s: State, run: seq<Step>, forecast: seq<Weather>, steps: seq<Step>, w: Weather)
    requires Served(cfg, s, run, forecast) && Legal(cfg, s, run + steps)
    requires Serves(cfg, Exec(cfg, s, run), steps, w)
    ensures Served(cfg, s, run + steps, forecast + [w])
  {
    hide Legal, Serves, Exec;
    var k := |run|;
    assert (run + steps)[..k] == run && (run + steps)[k..] == steps;
    assert (forecast + [w])[..|forecast|] == forecast;
  }

  lemma Validation(cfg: Config, s: State)
    requires s.handler.Validating?
    ensures Enabled(cfg, s, Validate)
    ensures Apply(cfg, s, Validate) == s.(handler := Validated(s.done, s.handler.message))
  {
  }

  lemma Bookkeeping(cfg: Config, s: State)
    ensures s.handler.Counting? ==> Enabled(cfg, s, Count)
    ensures s.handler.Totalling? ==> Enabled(cfg, s, Total)
    ensures s.handler.Marking? && HasEvent(s.handler) ==> Enabled(cfg, s, Mark)
  {
  }

  lemma Sending(cfg: Config, s: State, delivery: Delivery)
    requires s.handler.Routing? && s.broker.connected
    ensures Enabled(cfg, s, Send(delivery))
    ensures var t := Apply(cfg, s, Send(delivery));
            && t.done == s.done
            && t.tally.success == s.tally.success && t.tally.retried == s.tally.retried
            && t.tally.deadLettered == s.tally.deadLettered && t.tally.duplicate == s.tally.duplicate
            && t.tally.dlqTotal == s.tally.dlqTotal && t.tally.hits == s.tally.hits
            && t.broker.connected
            && t.handler == if delivery.Confirmed? then Acking(s.handler.message, VerdictOf(s.handler.route)) else Idle
  {
    hide OnRetryQueue;
  }

  lemma Presence(cfg: Config, s: State)
    requires s.handler.Locating? && HasEvent(s.handler)
    ensures Enabled(cfg, s, Locate)
    ensures var m := s.handler.message;
            Apply(cfg, s, Locate) == s.(handler := if EventOf(s.handler).source.path in s.dir.files then Scanning(m)
                                                   else Routing(m, ToDlq(m, SourceFileMissing)))
  {
  }

  lemma Inspection(cfg: Config, s: State)
    requires s.handler.Scanning? && HasEvent(s.handler) && EventOf(s.handler).source.path in s.dir.files
    ensures var m, scan := s.handler.message, CsvSecurity.Scan(s.dir.files[EventOf(s.handler).source.path], cfg.fileLimit);
            if scan.CsvError? then Stuck(cfg, s)
            else
              && Enabled(cfg, s, Scan)
              && Apply(cfg, s, Scan)
                 == s.(handler := if scan.issues == []
                                  then Uploading(m, FanOut.Begin(|EventOf(s.handler).destinations|, cfg.concurrency))
                                  else Routing(m, ToDlq(m, CsvSecurityCheckFailed)))
  {
    hide CsvSecurity.Scan;
  }

  lemma UploadStarts(cfg: Config, s: State, i: nat)
    requires s.handler.Uploading? && HasEvent(s.handler) && FanOut.CanStart(s.handler.fan, i)
    requires EventOf(s.handler).source.path in s.dir.files
    ensures Enabled(cfg, s, StartUpload(i))
    ensures var bytes := Some(s.dir.files[EventOf(s.handler).source.path]);
            Apply(cfg, s, StartUpload(i)) == s.(handler := s.handler.(fan := FanOut.Start(s.handler.fan, i, bytes)))
  {
  }

  lemma UploadEnds(cfg: Config, s: State, i: nat, fate: FanOut.Fate)
    requires s.handler.Uploading? && HasEvent(s.handler) && FanOut.CanEnd(s.handler.fan, i, fate)
    requires i < |EventOf(s.handler).destinations|
    ensures Enabled(cfg, s, EndUpload(i, fate))
    ensures var t, d := Apply(cfg, s, EndUpload(i, fate)), EventOf(s.handler).destinations[i];
            && t.handler == s.handler.(fan := FanOut.End(s.handler.fan, i, d.provider, fate))
            && t.dir == s.dir && t.broker == s.broker && t.done == s.done && t.tally == s.tally
  {
  }

  lemma NothingServed(cfg: Config, s: State)
    ensures Legal(cfg, s, []) && Exec(cfg, s, []) == s && Served(cfg, s, [], [])
  {
  }

  lemma NoTurn(cfg: Config, s: State, w: Weather)
    requires !Enabled(cfg, s, Deliver)
    ensures Serves(cfg, s, [], w) && Legal(cfg, s, []) && Exec(cfg, s, []) == s
  {
  }

  lemma FirstStep(cfg: Config, s: State, step: Step, steps: seq<Step>, w: Weather)
    requires Enabled(cfg, s, step) && Handled(cfg, Apply(cfg, s, step), steps, w)
    ensures Legal(cfg, s, [step] + steps)
    ensures Exec(cfg, s, [step] + steps) == Exec(cfg, Apply(cfg, s, step), steps)
  {
    hide Apply, Enabled;
    NoSteps(cfg, s);
    Extend(cfg, s, [], step);
    assert [] + [step] == [step];
    Concat(cfg, s, [step], steps);
  }

  class Consumer {
    const world: World
    const store: IdempotencyStore.Store
    // events_consumed_total by result, dlq_messages_total and idempotency_hits_total
    var success: nat
    var retried: nat
    var deadLettered: nat
    var duplicate: nat
    var dlqTotal: nat
    var hits: nat
    // the handling under way: where it started, its steps and its weather
    ghost var start: State
    ghost var steps: seq<Step>
    ghost var weather: Weather
    ghost var earlier: seq<Step>         // the trace before it

    ghost predicate Mirrors()
      reads this, world, store
    {
      && store.rows == world.state.done
      && success == world.state.tally.success
      && retried == world.state.tally.retried
      && deadLettered == world.state.tally.deadLettered
      && duplicate == world.state.tally.duplicate
      && dlqTotal == world.state.tally.dlqTotal
      && hits == world.state.tally.hits
    }

    ghost predicate Valid()
      reads this, world, store
    {
      && world.Valid()
      && Mirrors()
      && Undone(world.state)
    }

    /** The handling under way led from its start to the present state. */
    ghost predicate Underway()
      reads this, world, store
    {
      && Valid()
      && Handled(world.cfg, start, steps, weather)
      && Exec(world.cfg, start, steps) == world.state
      && world.trace == earlier + steps
    }

    constructor (world: World)
      requires world.Valid() && world.state == Init()
      ensures Valid() && this.world == world && fresh(store)
    {
      this.world := world;
      store := new IdempotencyStore.Store(map[]);
      success, retried, deadLettered, duplicate, dlqTotal, hits := 0, 0, 0, 0, 0, 0;
      start, steps, weather := Init(), [], Weather(Confirmed, _ => FanOut.Succeeds);
      earlier := [];
    }

    /** What others do to the world leaves the consumer valid, as long as they keep off the store and the counters. */
    lemma StaysValid()
      requires world.Valid() && Mirrors()
      ensures Valid()
    {
      hide World.Mirrors, Undone;
      UndoneRun(world.cfg, world.trace);
    }

    /** Notes a step that has just been recorded. */
    ghost method Note(before: State, step: Step)
      requires Handled(world.cfg, start, steps, weather) && Exec(world.cfg, start, steps) == before
      requires Enabled(world.cfg, before, step) && Weathered(world.cfg, before, step, weather) && Undone(before)
      requires world.state == Apply(world.cfg, before, step) && world.trace == earlier + steps + [step]
      modifies this`steps
      ensures Handled(world.cfg, start, steps, weather) && Exec(world.cfg, start, steps) == world.state
      ensures world.trace == earlier + steps && Undone(world.state)
    {
      hide Apply, Enabled, Weathered;
      HandledMore(world.cfg, start, steps, weather, step);
      UndoneStep(world.cfg, before, step);
      steps := steps + [step];
    }

    /** A decision of the handler. */
    ghost method Decide(step: Step)
      requires Underway() && Enabled(world.cfg, world.state, step)
      requires step in {Validate, Locate, Scan, Conclude} || step.StartUpload?
      modifies world`state, world`trace, this`steps
      ensures Underway() && world.state == Apply(world.cfg, old(world.state), step)
    {
      hide Apply, Enabled, Handled, Undone, World.Recorded;
      ghost var before := world.state;
      HandlerFrame(world.cfg, before, step);
      world.Think(step);
      Note(before, step);
    }

    /** The exception leaves _handle. */
    ghost method Leave()
      requires Underway() && Stuck(world.cfg, world.state)
      modifies world`state, world`trace, this`steps
      ensures Underway() && world.state == Abandon(old(world.state))
    {
      hide Handled, Undone, World.Recorded;
      ghost var before := world.state;
      assert Enabled(world.cfg, before, Raise);
      world.Leave();
      Note(before, Raise);
    }

    /** events_consumed_total */
    method CountResult(verdict: Verdict)
      requires Underway() && world.state.handler == Counting(verdict)
      modifies world`state, world`trace, this
      ensures Underway()
      ensures world.state.handler == if verdict.DeadLettered? || verdict.Duplicate? then Totalling(verdict) else Idle
      ensures start == old(start) && weather == old(weather) && earlier == old(earlier)
    {
      hide Handled, Undone, Legal, Exec, World.Valid, Apply, Enabled;
      ghost var before := world.state;
      Bookkeeping(world.cfg, before);
      HandlerFrame(world.cfg, before, Count);
      HandlerMoves(world.cfg, before, Count);
      world.Think(Count);
      Note(before, Count);
      match verdict {
        case Success => success := success + 1;
        case Retried => retried := retried + 1;
        case DeadLettered => deadLettered := deadLettered + 1;
        case Duplicate => duplicate := duplicate + 1;
      }
    }

    /** dlq_messages_total or idempotency_hits_total */
    method CountTotal(verdict: Verdict)
      requires Underway() && world.state.handler == Totalling(verdict)
      modifies world`state, world`trace, this
      ensures Underway() && world.state.handler.Idle?
      ensures start == old(start) && weather == old(weather) && earlier == old(earlier)
    {
      hide Handled, Undone, Legal, Exec, World.Valid, Apply, Enabled;
      ghost var before := world.state;
      Bookkeeping(world.cfg, before);
      HandlerFrame(world.cfg, before, Total);
      HandlerMoves(world.cfg, before, Total);
      world.Think(Total);
      Note(before, Total);
      if verdict.DeadLettered? {
        dlqTotal := dlqTotal + 1;
      } else {
        hits := hits + 1;
      }
    }

    method AckMessage(verdict: Verdict)
      requires Underway() && world.connected
      requires world.state.handler.Acking? && world.state.handler.verdict == verdict
      modifies world, this`steps
      ensures Underway() && world.state.handler == Counting(verdict) && world.connected
      ensures world.unacked + [old(world.state).handler.message] == old(world.unacked)
    {
      hide Handled, Undone, World.Recorded;
      ghost var before := world.state;
      world.BasicAck();
      Note(before, Ack);
    }

    /** basic_ack, then the counters. */
    method Finish(verdict: Verdict)
      requires Underway() && world.connected
      requires world.state.handler.Acking? && world.state.handler.verdict == verdict
      modifies world, this
      ensures Underway() && world.state.handler.Idle? && world.connected
      ensures start == old(start) && weather == old(weather) && earlier == old(earlier)
      ensures world.unacked + [old(world.state).handler.message] == old(world.unacked)
    {
      hide Handled, Undone, World.Recorded, Valid;
      AckMessage(verdict);
      CountResult(verdict);
      if verdict.DeadLettered? || verdict.Duplicate? {
        CountTotal(verdict);
      }
    }

    /** publish_dlq, and if it returns the ack and the counters. */
    method DeadLetter(copy: Message, reason: Reason, delivery: Delivery) returns (raised: bool)
      requires Underway() && world.connected && delivery == weather.delivery
      requires world.state.handler.Routing? && world.state.handler.route == ToDlq(copy, reason)
      modifies world, this
      ensures Underway() && world.state.handler.Idle? && world.connected
      ensures start == old(start) && weather == old(weather) && earlier == old(earlier)
      ensures raised <==> !delivery.Confirmed?
      ensures world.unacked + (if raised then [] else [old(world.state).handler.message]) == old(world.unacked)
    {
      hide Handled, Undone, Legal, Exec, World.Recorded, Apply, Enabled;
      ghost var before := world.state;
      Sending(world.cfg, before, delivery);
      raised := world.PublishDlq(copy, reason, delivery);
      Note(before, Send(delivery));
      if !raised {
        Finish(DeadLettered);
      }
    }

    /** publish_retry, and if it returns the ack and the counter. */
    method Retry(copy: Message, delay: nat, delivery: Delivery) returns (raised: bool)
      requires Underway() && world.connected && delivery == weather.delivery
      requires world.state.handler.Routing? && world.state.handler.route == ToRetry(copy, delay)
      modifies world, this
      ensures Underway() && world.state.handler.Idle? && world.connected
      ensures start == old(start) && weather == old(weather) && earlier == old(earlier)
      ensures raised <==> !delivery.Confirmed?
      ensures world.unacked + (if raised then [] else [old(world.state).handler.message]) == old(world.unacked)
    {
      hide Handled, Undone, Legal, Exec, World.Recorded, OnRetryQueue, Apply, Enabled;
      ghost var before := world.state;
      Sending(world.cfg, before, delivery);
      raised := world.PublishRetry(copy, delay, delivery);
      Note(before, Send(delivery));
      if !raised {
        Finish(Retried);
      }
    }

    /** One destination's upload. */
    method UploadOne(event: TransferEvent, i: nat, fates: nat -> FanOut.Fate) returns (r: FanOut.UploadResult)
      requires Underway() && fates == weather.fates
      requires world.state.handler.Uploading? && HasEvent(world.state.handler) && EventOf(world.state.handler) == event
      requires i < |event.destinations| && FanOut.CanStart(world.state.handler.fan, i) && event.source.path in world.files
      modifies world, this`steps
      ensures Underway() && r == FanOut.ResultOf(event.destinations[i].provider, fates(i))
      ensures var fan := old(world.state).handler.fan;
              world.state.handler == old(world.state).handler.(fan := fan.(slots := fan.slots[i := FanOut.Reported(r)]))
      ensures world.connected == old(world.connected) && world.unacked == old(world.unacked)
      ensures world.files == old(world.files)
    {
      hide Handled, Undone, Legal, Exec, World.Recorded, FanOut.ResultOf, Apply, Enabled;
      ghost var fan := world.state.handler.fan;
      UploadStarts(world.cfg, world.state, i);
      Decide(StartUpload(i));
      var bytes := Some(world.files[event.source.path]);
      ghost var before := world.state;
      UploadEnds(world.cfg, before, i, fates(i));
      r := world.FinishUpload(event.destinations[i], i, bytes, fates(i));
      Note(before, EndUpload(i, fates(i)));
      assert fan.slots[i := FanOut.Running(bytes)][i := FanOut.Reported(r)] == fan.slots[i := FanOut.Reported(r)];
    }

    /** The first uploads have reported `results` and the others wait. */
    ghost predicate Reporting(m: Message, n: nat, results: seq<FanOut.UploadResult>)
      reads world
    {
      && world.state.handler.Uploading?
      && world.state.handler.message == m
      && var fan := world.state.handler.fan;
         && fan.permits == world.cfg.concurrency
         && |results| <= n == |fan.slots|
         && (forall j :: 0 <= j < |results| ==> fan.slots[j] == FanOut.Reported(results[j]))
         && (forall j :: |results| <= j < n ==> fan.slots[j] == FanOut.Waiting)
    }

    /** upload_all; the schedule does not matter, so the destinations are taken in turn. */
    method UploadAll(m: Message, event: TransferEvent, fates: nat -> FanOut.Fate)
      returns (results: seq<FanOut.UploadResult>)
      requires Underway() && fates == weather.fates && world.cfg.concurrency >= 1 && m.payload == Event(event)
      requires world.state.handler == Uploading(m, FanOut.Begin(|event.destinations|, world.cfg.concurrency))
      requires event.source.path in world.files
      modifies world, this`steps
      ensures Underway() && world.state.handler.Uploading? && world.state.handler.message == m
      ensures FanOut.Finished(world.state.handler.fan) && FanOut.Results(world.state.handler.fan) == results
      ensures world.connected == old(world.connected) && world.unacked == old(world.unacked)
    {
      hide FanOut.ResultOf, Underway;
      results := [];
      for i := 0 to |event.destinations|
        invariant Underway() && |results| == i && Reporting(m, |event.destinations|, results)
        invariant world.connected == old(world.connected) && world.unacked == old(world.unacked)
        invariant world.files == old(world.files)
      {
        var r := UploadOne(event, i, fates);
        results := results + [r];
      }
    }

    /** mark_done, then ack and count the success. */
    method Succeed(event: TransferEvent)
      requires Underway() && world.connected
      requires world.state.handler.Marking? && HasEvent(world.state.handler) && EventOf(world.state.handler) == event
      modifies world, store, this
      ensures Underway() && world.state.handler.Idle? && world.connected
      ensures event.idempotencyKey in store.rows
      ensures start == old(start) && weather == old(weather) && earlier == old(earlier)
      ensures world.unacked + [old(world.state).handler.message] == old(world.unacked)
    {
      hide Handled, Undone, Legal, Exec, World.Recorded, Apply, Enabled;
      ghost var before := world.state;
      Bookkeeping(world.cfg, before);
      HandlerFrame(world.cfg, before, Mark);
      HandlerMoves(world.cfg, before, Mark);
      store.MarkDone(event.idempotencyKey, event.correlationId);
      world.Think(Mark);
      Note(before, Mark);
      Finish(Success);
    }

    /** What follows the uploads: success, another round later, or the dead-letter queue. */
    method Route(m: Message, event: TransferEvent, results: seq<FanOut.UploadResult>, delivery: Delivery)
      returns (raised: bool)
      requires Underway() && world.connected && delivery == weather.delivery
      requires world.state.handler.Uploading? && world.state.handler.message == m && m.payload == Event(event)
      requires FanOut.Finished(world.state.handler.fan) && FanOut.Results(world.state.handler.fan) == results
      modifies world, store, this
      ensures Underway() && world.state.handler.Idle? && world.connected
      ensures start == old(start) && weather == old(weather) && earlier == old(earlier)
      ensures world.unacked + (if raised then [] else [m]) == old(world.unacked)
    {
      hide Underway, FanOut.Failures, FanOut.LastError, Backoff.DelayMs;
      if FanOut.Failures(results) == [] {
        Decide(Conclude);
        Succeed(event);
        return false;
      }
      var cfg := world.cfg;
      var lastError := FanOut.LastError(results);
      var attempt := Attempt(event) + 1;
      if attempt > cfg.maxAttempts {
        var failed := WithRetry(event, attempt - 1, cfg.maxAttempts, lastError);
        if failed.None? {
          Leave();
          return true;
        }
        Decide(Conclude);
        raised := DeadLetter(Message(Event(failed.value), m.origin, m.rounds + 1), MaxRetriesExceeded, delivery);
      } else {
        var again := WithRetry(event, attempt, cfg.maxAttempts, lastError);
        if again.None? {
          Leave();
          return true;
        }
        Decide(Conclude);
        var delay := Backoff.DelayMs(cfg.backoffBase, attempt);
        raised := Retry(Message(Event(again.value), m.origin, m.rounds + 1), delay, delivery);
      }
    }

    lemma SeesStore()
      requires Underway()
      ensures store.rows == world.state.done
    {
    }

    lemma SeesDisk()
      requires Underway()
      ensures world.files == world.state.dir.files
    {
    }

    /** The part of _handle that reads the file. */
    method Transfer(m: Message, event: TransferEvent, delivery: Delivery, fates: nat -> FanOut.Fate) returns (raised: bool)
      requires Underway() && world.connected && delivery == weather.delivery && fates == weather.fates
      requires world.state.handler == Locating(m) && m.payload == Event(event) && world.cfg.concurrency >= 1
      modifies world, store, this
      ensures Underway() && world.state.handler.Idle? && world.connected
      ensures start == old(start) && weather == old(weather) && earlier == old(earlier)
      ensures world.unacked + (if raised then [] else [m]) == old(world.unacked)
    {
      hide Underway, CsvSecurity.Scan, FanOut.Begin, Apply, Enabled, Stuck;
      var path := event.source.path;
      SeesDisk();
      Presence(world.cfg, world.state);
      Decide(Locate);
      if path !in world.files {
        raised := DeadLetter(m, SourceFileMissing, delivery);
        return;
      }
      Inspection(world.cfg, world.state);
      var scan := CsvSecurity.ScanCsvFile(world.files[path], world.cfg.fileLimit);
      if scan.CsvError? {
        Leave();
        return true;
      }
      Decide(Scan);
      if scan.issues != [] {
        raised := DeadLetter(m, CsvSecurityCheckFailed, delivery);
        return;
      }
      var results := UploadAll(m, event, fates);
      raised := Route(m, event, results, delivery);
    }

    /** _handle once the handling has its record. */
    method Dispatch(m: Message, delivery: Delivery, fates: nat -> FanOut.Fate) returns (raised: bool)
      requires Underway() && world.connected && delivery == weather.delivery && fates == weather.fates
      requires world.state.handler == Validating(m) && world.cfg.concurrency >= 1
      modifies world, store, this
      ensures Underway() && world.state.handler.Idle? && world.connected
      ensures start == old(start) && weather == old(weather) && earlier == old(earlier)
      ensures world.unacked + (if raised then [] else [m]) == old(world.unacked)
    {
      hide Underway, Supported, Apply, Enabled;
      SeesStore();
      Validation(world.cfg, world.state);
      Decide(Validate);
      if m.payload.Garbled? {
        raised := DeadLetter(m, InvalidPayload, delivery);
        return;
      }
      var event := m.payload.event;
      if !Supported(event) {
        raised := DeadLetter(m, UnsupportedSchemaVersion, delivery);
        return;
      }
      var done := store.IsDone(event.idempotencyKey);
      if done {
        Finish(Duplicate);
        return false;
      }
      raised := Transfer(m, event, delivery, fates);
    }

    /** _handle: from the delivery to the ack or the exception. Whatever the weather, the handling is a run of
        the protocol machine from the delivered message to an idle handler, raising only where a publish
        raised or nothing else was left; the message is acked unless it raised, and then it stays unacked. */
    method Handle(m: Message, delivery: Delivery, fates: nat -> FanOut.Fate) returns (raised: bool)
      requires Valid() && world.connected && world.state.handler == Validating(m) && world.cfg.concurrency >= 1
      modifies world, store, this
      ensures Valid() && world.state.handler.Idle? && world.connected
      ensures weather == Weather(delivery, fates) && Handled(world.cfg, old(world.state), steps, weather)
      ensures Exec(world.cfg, old(world.state), steps) == world.state && world.trace == old(world.trace) + steps
      ensures world.unacked + (if raised then [] else [m]) == old(world.unacked)
    {
      start, steps, weather, earlier := world.state, [], Weather(delivery, fates), world.trace;
      hide Undone, World.Valid;
      assert Underway() by {
        assert Legal(world.cfg, start, []);
      }
      hide Valid, Handled, Legal, Exec;
      raised := Dispatch(m, delivery, fates);
    }

    /** run: deliveries one after the other until the forecast, standing for the stop event, ends; an exception of
        _handle is logged and the loop goes on. Messages are taken in their order, one for each turn, until none is
        left or the unacked ones fill the prefetch window, and each is handled under its weather. */
    method Run(forecast: seq<Weather>)
      requires Valid() && world.connected && world.state.handler.Idle? && world.cfg.concurrency >= 1
      modifies world, store, this
      ensures Valid() && world.connected && world.state.handler.Idle?
      ensures old(world.trace) <= world.trace
      ensures Served(world.cfg, old(world.state), world.trace[|old(world.trace)|..], forecast)
      ensures Exec(world.cfg, old(world.state), world.trace[|old(world.trace)|..]) == world.state
      ensures world.state.watch == old(world.state).watch && world.state.dir == old(world.state).dir
      ensures forall o :: 0 <= o < |world.state.broker.origins| ==> Safe(world.state, o)
      ensures var taken := world.state.tally.starts - old(world.state).tally.starts;
              && 0 <= taken <= |forecast|
              && taken <= |old(world.main)|
              && world.main == old(world.main)[taken..]
              && (taken == |forecast| || world.main == []
                  || (|world.unacked| >= 1 && |world.unacked| >= world.cfg.concurrency))
    {
      hide Legal, Exec, Served, Serves, Valid, Safe;
      ghost var first, run: seq<Step> := world.state, [];
      ghost var taken := 0;
      NothingServed(world.cfg, first);
      assert forecast[..0] == [];
      for i := 0 to |forecast|
        invariant Valid() && world.connected && world.state.handler.Idle?
        invariant world.trace == old(world.trace) + run
        invariant Served(world.cfg, first, run, forecast[..i]) && Legal(world.cfg, first, run)
        invariant Exec(world.cfg, first, run) == world.state
        invariant world.state.watch == first.watch && world.state.dir == first.dir
        invariant taken == world.state.tally.starts - first.tally.starts
        invariant 0 <= taken <= i && taken <= |old(world.main)| && world.main == old(world.main)[taken..]
        invariant taken == i || world.main == [] || (|world.unacked| >= 1 && |world.unacked| >= world.cfg.concurrency)
      {
        assert forecast[..i + 1] == forecast[..i] + [forecast[i]];
        ghost var before, trace, steps: seq<Step> := world.state, world.trace, [];
        DeliveryToBeHad(before);
        if world.main != [] && |world.unacked| < Prefetch(world.cfg) {
          steps := Serve(forecast[i]);
          taken := taken + 1;
        } else {
          NoTurn(world.cfg, before, forecast[i]);
        }
        Concat(world.cfg, first, run, steps);
        ServedMore(world.cfg, first, run, forecast[..i], steps, forecast[i]);
        run := run + steps;
      }
      assert forecast[..|forecast|] == forecast;
      assert world.trace[|old(world.trace)|..] == run;
      EverythingSafe();
    }

    lemma EverythingSafe()
      requires Valid()
      ensures forall o :: 0 <= o < |world.state.broker.origins| ==> Safe(world.state, o)
    {
      forall o | 0 <= o < |world.state.broker.origins| ensures Safe(world.state, o) {
        NothingIsLost(world.cfg, world.trace, o);
      }
    }

    /** The consumer can see whether a delivery is to be had. */
    lemma DeliveryToBeHad(s: State)
      requires Valid() && s == world.state && world.connected && s.handler.Idle?
      ensures Enabled(world.cfg, s, Deliver) <==> world.main != [] && |world.unacked| < Prefetch(world.cfg)
    {
    }

    /** One delivery and its handling. */
    method Serve(w: Weather) returns (ghost turn: seq<Step>)
      requires Valid() && world.connected && world.state.handler.Idle? && world.cfg.concurrency >= 1
      requires world.main != [] && |world.unacked| < Prefetch(world.cfg)
      modifies world, store, this
      ensures Valid() && world.connected && world.state.handler.Idle?
      ensures Serves(world.cfg, old(world.state), turn, w) && world.trace == old(world.trace) + turn
      ensures Legal(world.cfg, old(world.state), turn) && Exec(world.cfg, old(world.state), turn) == world.state
      ensures world.main == old(world.main)[1..]
      ensures world.state.watch == old(world.state).watch && world.state.dir == old(world.state).dir
      ensures world.state.tally.starts == old(world.state).tally.starts + 1
    {
      hide Handled, Legal, Exec, Undone;
      ghost var before := world.state;
      DeliveryToBeHad(before);
      var m := world.Next();
      ghost var taken := world.state;
      UndoneStep(world.cfg, before, Deliver);
      var raised := Handle(m, w.delivery, w.fates);
      HandledKeepsMain(world.cfg, taken, steps, weather);
      turn := [Deliver] + steps;
      assert turn[1..] == steps;
      FirstStep(world.cfg, before, Deliver, steps, weather);
    }
  }
}
