/** A key in the dedupe store means one handling delivered to every destination, and nothing is uploaded
    for that key again. */
module DoneOnce {
  import opened Common
  import opened Schema
  import opened Detection
  import opened Protocol
  import FanOut
  import CsvSecurity

  /** Between the duplicate check and mark_done. */
  predicate PastDedupe(h: Handler) {
    h.Locating? || h.Scanning? || h.Uploading? || h.Marking?
  }

  /** A handler past the duplicate check works on a supported event whose key is not done; while it uploads
      there is one slot per destination. */
  ghost predicate Undone(s: State) {
    && (PastDedupe(s.handler) ==>
          && HasEvent(s.handler)
          && Supported(EventOf(s.handler))
          && EventOf(s.handler).idempotencyKey !in s.done)
    && (s.handler.Uploading? ==> |s.handler.fan.slots| == |EventOf(s.handler).destinations|)
  }

  lemma UndoneStep(cfg: Config, s: State, step: Step)
    requires Undone(s) && Enabled(cfg, s, step)
    ensures Undone(Apply(cfg, s, step))
    ensures forall k :: k in s.done ==> k in Apply(cfg, s, step).done
    ensures forall k :: k in Apply(cfg, s, step).done && k !in s.done ==>
                          step.Mark? && HasEvent(s.handler) && k == EventOf(s.handler).idempotencyKey
  {
    hide WellFormed, Supported, Concluded, CsvSecurity.Scan;
    if OutsideConsumer(step) {
      hide Apply, Enabled;
      OutsideFrame(cfg, s, step);
    } else if InsideHandler(step) {
      hide Apply, Enabled;
      HandlerFrame(cfg, s, step);
      HandlerMoves(cfg, s, step);
    } else {
      hide Apply, Enabled;
      UndoneMove(cfg, s, step);
    }
  }

  /** No other step touches the store or takes a handler past the duplicate check. */
  lemma UndoneMove(cfg: Config, s: State, step: Step)
    requires Enabled(cfg, s, step) && !OutsideConsumer(step) && !InsideHandler(step)
    ensures var t := Apply(cfg, s, step); t.done == s.done && (t.handler == s.handler || !PastDedupe(t.handler))
  {
    hide WellFormed, OnRetryQueue, Requeue;
  }

  lemma {:induction false} UndoneRun(cfg: Config, run: seq<Step>)
    requires Legal(cfg, Init(), run)
    ensures Undone(Exec(cfg, Init(), run))
  {
    if run != [] {
      hide Apply;
      var n := |run| - 1;
      UndoneRun(cfg, run[..n]);
      UndoneStep(cfg, Exec(cfg, Init(), run[..n]), run[n]);
    }
  }

  /** The state before step number `k` of a run. */
  function At(cfg: Config, run: seq<Step>, k: nat): State
    requires Legal(cfg, Init(), run) && k <= |run|
  {
    Prefix(cfg, Init(), run, k);
    Exec(cfg, Init(), run[..k])
  }

  lemma AtPrefix(cfg: Config, run: seq<Step>, n: nat, k: nat)
    requires Legal(cfg, Init(), run) && k <= n <= |run|
    ensures Legal(cfg, Init(), run[..n]) && At(cfg, run[..n], k) == At(cfg, run, k)
  {
    Prefix(cfg, Init(), run, n);
    assert run[..n][..k] == run[..k];
  }

  // Delivered

  /** Step `i` delivered message `m` and the handler it started is still the current one before step `j`. */
  ghost predicate Handling(cfg: Config, run: seq<Step>, i: nat, j: nat, m: Message) {
    && Legal(cfg, Init(), run)
    && i < j <= |run|
    && run[i].Deliver?
    && (forall k :: i < k < j ==> !run[k].Deliver? && !run[k].Restart? && !run[k].Raise?)
    && At(cfg, run, i).broker.main != []
    && At(cfg, run, i).broker.main[0] == m
  }

  /** An upload to destination number `d` reported success between steps `i` and `j`. */
  ghost predicate Delivered(run: seq<Step>, i: nat, j: nat, d: nat)
    requires j <= |run|
  {
    exists k :: i < k < j && run[k] == EndUpload(d, FanOut.Succeeds)
  }

  ghost predicate ReportsDelivered(run: seq<Step>, i: nat, h: Handler)
  {
    && (h.Uploading? ==>
          forall d :: 0 <= d < |h.fan.slots| && h.fan.slots[d].Reported? && h.fan.slots[d].result.ok
            ==> Delivered(run, i, |run|, d))
    && (h.Marking? && HasEvent(h) ==> forall d :: 0 <= d < |EventOf(h).destinations| ==> Delivered(run, i, |run|, d))
  }

  lemma NoFailuresAllOk(results: seq<FanOut.UploadResult>)
    ensures FanOut.Failures(results) == [] <==> forall i :: 0 <= i < |results| ==> results[i].ok
  {
    if results != [] {
      NoFailuresAllOk(results[1..]);
      assert results == [results[0]] + results[1..];
    }
  }

  /** When every upload has succeeded, the handler goes on to the mark. */
  lemma AllSucceeded(cfg: Config, s: State)
    requires s.handler.Uploading? && HasEvent(s.handler) && FanOut.Finished(s.handler.fan) && Deliverable(s.handler.fan)
    ensures Enabled(cfg, s, Conclude) && Apply(cfg, s, Conclude) == s.(handler := Marking(s.handler.message))
  {
    NoFailuresAllOk(FanOut.Results(s.handler.fan));
    assert forall i :: 0 <= i < |s.handler.fan.slots| ==> SlotCanSucceed(s.handler.fan.slots[i]);
  }

  /** Where the end of the uploads leads. */
  lemma AfterConclude(cfg: Config, s: State)
    requires Enabled(cfg, s, Conclude)
    ensures var h := Apply(cfg, s, Conclude).handler;
            && (if Deliverable(s.handler.fan) then h == Marking(s.handler.message) else h.Routing?)
            && (h.Routing? && Attempt(EventOf(s.handler)) < cfg.maxAttempts ==> h.route.ToRetry?)
            && (h.Routing? && Attempt(EventOf(s.handler)) >= cfg.maxAttempts ==> h.route.ToDlq?)
  {
    hide FanOut.LastError;
    var fan := s.handler.fan;
    NoFailuresAllOk(FanOut.Results(fan));
    if Deliverable(fan) {
      assert forall i :: 0 <= i < |fan.slots| ==> SlotCanSucceed(fan.slots[i]);
    } else {
      var i :| 0 <= i < |fan.slots| && !SlotCanSucceed(fan.slots[i]);
      assert !FanOut.Results(fan)[i].ok;
    }
  }

  lemma DeliveredGrows(run: seq<Step>, i: nat, step: Step)
    ensures forall d {:trigger Delivered(run + [step], i, |run + [step]|, d)} ::
              Delivered(run, i, |run|, d) ==> Delivered(run + [step], i, |run + [step]|, d)
  {
    forall d | Delivered(run, i, |run|, d) ensures Delivered(run + [step], i, |run + [step]|, d) {
      var k :| i < k < |run| && run[k] == EndUpload(d, FanOut.Succeeds);
      assert (run + [step])[k] == run[k];
    }
  }

  lemma ReportsEndUpload(s: State, before: seq<Step>, step: Step, i: nat)
    requires s.handler.Uploading? && HasEvent(s.handler) && step.EndUpload? && i < |before|
    requires FanOut.CanEnd(s.handler.fan, step.i, step.fate) && step.i < |EventOf(s.handler).destinations|
    requires ReportsDelivered(before, i, s.handler)
    ensures ReportsDelivered(before + [step], i, ApplyEndUpload(s, step.i, step.fate).handler)
  {
    var run := before + [step];
    DeliveredGrows(before, i, step);
    if step.fate.Succeeds? {
      assert run[|before|] == EndUpload(step.i, FanOut.Succeeds);
      assert Delivered(run, i, |run|, step.i);
    }
  }

  lemma ReportsConclude(cfg: Config, s: State, before: seq<Step>, i: nat)
    requires Undone(s) && s.handler.Uploading? && i < |before|
    requires FanOut.Finished(s.handler.fan)
    requires ReportsDelivered(before, i, s.handler)
    requires Concluded(cfg, s.handler.message, EventOf(s.handler), s.handler.fan).Some?
    ensures ReportsDelivered(before, i, Concluded(cfg, s.handler.message, EventOf(s.handler), s.handler.fan).value)
  {
    var h := s.handler;
    var results := FanOut.Results(h.fan);
    NoFailuresAllOk(results);
    if FanOut.Failures(results) == [] {
      forall d | 0 <= d < |EventOf(h).destinations| ensures Delivered(before, i, |before|, d) {
        assert h.fan.slots[d].result == results[d];
      }
    }
  }

  lemma ReportsStep(cfg: Config, s: State, before: seq<Step>, step: Step, i: nat)
    requires Undone(s) && Enabled(cfg, s, step) && i < |before|
    requires !step.Deliver? && InHand(Apply(cfg, s, step).handler) != []
    requires ReportsDelivered(before, i, s.handler)
    ensures ReportsDelivered(before + [step], i, Apply(cfg, s, step).handler)
  {
    hide WellFormed, CsvSecurity.Scan, Concluded, Apply, Enabled, Delivered, ApplyEndUpload;
    DeliveredGrows(before, i, step);
    if OutsideConsumer(step) {
      OutsideFrame(cfg, s, step);
    } else if InsideHandler(step) {
      HandlerMoves(cfg, s, step);
      if step.EndUpload? {
        ReportsEndUpload(s, before, step, i);
      } else if step.Conclude? {
        ReportsConclude(cfg, s, before, i);
      }
    } else {
      UndoneMove(cfg, s, step);
    }
  }

  /** The delivery that started the current handler, with the uploads it has seen succeed. */
  lemma {:induction false} HandlingStart(cfg: Config, run: seq<Step>) returns (i: nat)
    requires Legal(cfg, Init(), run) && InHand(Exec(cfg, Init(), run).handler) != []
    ensures i < |run| && Handling(cfg, run, i, |run|, Exec(cfg, Init(), run).handler.message)
    ensures ReportsDelivered(run, i, Exec(cfg, Init(), run).handler)
  {
    hide Legal, Exec, Undone, Delivered;
    HasSteps(cfg, run);
    Previous(cfg, run);
    var n := |run| - 1;
    var s := Exec(cfg, Init(), run[..n]);
    assert run == run[..n] + [run[n]];
    UndoneRun(cfg, run[..n]);
    if run[n].Deliver? {
      i := n;
    } else {
      hide Apply, Enabled;
      ConsumerKeepsHandler(cfg, s, run[n]);
      i := HandlingStart(cfg, run[..n]);
      ReportsStep(cfg, s, run[..n], run[n], i);
      AtPrefix(cfg, run, n, i);
    }
  }

  lemma ConsumerKeepsHandler(cfg: Config, s: State, step: Step)
    requires Enabled(cfg, s, step) && !step.Deliver? && InHand(Apply(cfg, s, step).handler) != []
    ensures InHand(s.handler) == InHand(Apply(cfg, s, step).handler) && !step.Restart? && !step.Raise?
  {
    hide WellFormed;
    if OutsideConsumer(step) {
      hide Apply;
      OutsideFrame(cfg, s, step);
    } else if InsideHandler(step) {
      hide Apply;
      HandlerFrame(cfg, s, step);
    }
  }

  /** Done means delivered: behind every key of the store there is one handling, of a message with that key,
      in which every destination of the event reported a successful write before mark_done. */
  lemma {:induction false} DoneMeansDelivered(cfg: Config, run: seq<Step>, key: string) returns (i: nat, j: nat, m: Message)
    requires Legal(cfg, Init(), run) && key in Exec(cfg, Init(), run).done
    ensures i < j < |run| && run[j].Mark? && Handling(cfg, run, i, j, m)
    ensures m.payload.Event? && m.payload.event.idempotencyKey == key
    ensures forall d :: 0 <= d < |m.payload.event.destinations| ==> Delivered(run, i, j, d)
  {
    hide Apply, Enabled, Legal, Exec, Handling, Delivered;
    HasSteps(cfg, run);
    Previous(cfg, run);
    var n := |run| - 1;
    var before := run[..n];
    var s := Exec(cfg, Init(), before);
    UndoneRun(cfg, before);
    UndoneStep(cfg, s, run[n]);
    if key in s.done {
      i, j, m := DoneMeansDelivered(cfg, before, key);
    } else {
      HandlerMoves(cfg, s, run[n]);
      i := HandlingStart(cfg, before);
      j := n;
      m := s.handler.message;
    }
    HandlingInLonger(cfg, run, n, i, j, m);
    DeliveredInLonger(run, n, i, j);
  }

  lemma HandlingInLonger(cfg: Config, run: seq<Step>, n: nat, i: nat, j: nat, m: Message)
    requires Legal(cfg, Init(), run) && n <= |run| && Legal(cfg, Init(), run[..n]) && Handling(cfg, run[..n], i, j, m)
    ensures Handling(cfg, run, i, j, m) && i < j <= n && (j < n ==> run[j] == run[..n][j])
  {
    hide Legal;
    AtPrefix(cfg, run, n, i);
  }

  lemma DeliveredInLonger(run: seq<Step>, n: nat, i: nat, j: nat)
    requires j <= n <= |run|
    ensures forall d :: Delivered(run[..n], i, j, d) ==> Delivered(run, i, j, d)
  {
    forall d | Delivered(run[..n], i, j, d) ensures Delivered(run, i, j, d) {
      var k :| i < k < j && run[..n][k] == EndUpload(d, FanOut.Succeeds);
      assert run[k] == run[..n][k];
    }
  }

  // Once

  /** A step of an upload, or the mark, for `key`. */
  predicate WorksFor(s: State, step: Step, key: string) {
    && (step.StartUpload? || step.EndUpload? || step.Mark?)
    && HasEvent(s.handler)
    && EventOf(s.handler).idempotencyKey == key
  }

  lemma {:induction false} DoneStays(cfg: Config, run: seq<Step>, k: nat, key: string)
    requires Legal(cfg, Init(), run) && k <= |run| && key in At(cfg, run, k).done
    ensures key in Exec(cfg, Init(), run).done
    decreases |run|
  {
    if k == |run| {
      assert run[..k] == run;
    } else {
      hide Apply;
      var n := |run| - 1;
      AtPrefix(cfg, run, n, k);
      DoneStays(cfg, run[..n], k, key);
      UndoneRun(cfg, run[..n]);
      UndoneStep(cfg, Exec(cfg, Init(), run[..n]), run[n]);
    }
  }

  /** Once: after a key is done, no step of any continuation - other handlers, crashes and restarts
      included - uploads for it or marks it again. */
  lemma NothingForADoneKey(cfg: Config, run: seq<Step>, k: nat, j: nat, key: string)
    requires Legal(cfg, Init(), run) && k <= j < |run| && key in At(cfg, run, k).done
    ensures !WorksFor(At(cfg, run, j), run[j], key)
  {
    hide Apply, Enabled, WorksFor, Undone;
    AtPrefix(cfg, run, j, k);
    DoneStays(cfg, run[..j], k, key);
    UndoneRun(cfg, run[..j]);
    AtPrefix(cfg, run, j + 1, j);
    assert run[..j + 1][..j] == run[..j] && run[..j + 1][j] == run[j];
    NoWorkWhenDone(cfg, At(cfg, run, j), run[j], key);
  }

  lemma NoWorkWhenDone(cfg: Config, s: State, step: Step, key: string)
    requires Undone(s) && Enabled(cfg, s, step) && key in s.done
    ensures !WorksFor(s, step, key)
  {
    hide WellFormed, Supported, CsvSecurity.Scan;
  }
}
