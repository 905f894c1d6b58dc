/** What the retry block of a copy says about the run behind it. */
module FailedRounds {
  import opened Common
  import opened Schema
  import opened Detection
  import opened Protocol
  import opened Lineage
  import opened DoneOnce
  import CsvSecurity
  import FanOut

  /** The step puts `m` on the main queue for the first time. */
  ghost predicate Brings(cfg: Config, s: State, step: Step, m: Message) {
    PutsMain(step) && Enabled(cfg, s, step) && Apply(cfg, s, step).broker.main == s.broker.main + [m]
  }

  /** The handler finds failures among the uploads of its message, and `m` is the copy it is going to send on. */
  predicate FindsFailures(cfg: Config, s: State, step: Step, m: Message) {
    && step.Conclude?
    && s.handler.Uploading?
    && HasEvent(s.handler)
    && FanOut.Finished(s.handler.fan)
    && FanOut.Failures(FanOut.Results(s.handler.fan)) != []
    && var h := Concluded(cfg, s.handler.message, EventOf(s.handler), s.handler.fan);
       h.Some? && h.value.Routing? && h.value.route.copy == m
  }

  /** The run holds a publication and then `n` upload rounds that failed: the first of the message published, each
      other of the very copy that the round before sent on, and `m` is the copy that the last one leaves. */
  ghost predicate Chain(cfg: Config, run: seq<Step>, m: Message, n: nat)
    requires Legal(cfg, Init(), run)
    decreases n
  {
    exists k :: 0 <= k < |run| && Link(cfg, run, k, m, n)
  }

  /** Step number `k` is the last of the chain. */
  ghost predicate Link(cfg: Config, run: seq<Step>, k: nat, m: Message, n: nat)
    requires Legal(cfg, Init(), run) && k < |run|
    decreases n, 0
  {
    if n == 0 then Brings(cfg, At(cfg, run, k), run[k], m)
    else
      && FindsFailures(cfg, At(cfg, run, k), run[k], m)
      && Legal(cfg, Init(), run[..k])
      && Chain(cfg, run[..k], At(cfg, run, k).handler.message, n - 1)
  }

  lemma ChainGrows(cfg: Config, run: seq<Step>, m: Message, n: nat)
    requires Legal(cfg, Init(), run) && run != []
    requires Legal(cfg, Init(), run[..|run| - 1]) && Chain(cfg, run[..|run| - 1], m, n)
    ensures Chain(cfg, run, m, n)
  {
    hide Legal, Exec, At, FindsFailures, Brings;
    var before := run[..|run| - 1];
    var k :| 0 <= k < |before| && Link(cfg, before, k, m, n);
    AtPrefix(cfg, run, |run| - 1, k);
    assert before[..k] == run[..k] && before[k] == run[k];
    assert Link(cfg, run, k, m, n);
  }

  /** A message of the system: queued, unacked, in a handler, about to be sent, or a dead letter. */
  ghost predicate Present(s: State, m: Message) {
    || InFlight(s, m)
    || (s.handler.Routing? && m == s.handler.route.copy)
    || exists d :: d in s.broker.dlq && d.message == m
  }

  /** A step brings no message but a publication and the copy that a failed round leaves. */
  lemma NewMessages(cfg: Config, s: State, step: Step, m: Message)
    requires Enabled(cfg, s, step) && Present(Apply(cfg, s, step), m)
    ensures Present(s, m)
            || (Brings(cfg, s, step, m) && m.rounds == 0)
            || (FindsFailures(cfg, s, step, m) && m.rounds == s.handler.message.rounds + 1)
  {
    hide WellFormed, CsvSecurity.Scan, Apply, Enabled, FindsFailures, Brings;
    if OutsideConsumer(step) {
      OutsideFrame(cfg, s, step);
    } else if InsideHandler(step) {
      NewMessagesInside(cfg, s, step, m);
    } else if PutsMain(step) {
      NewMessagesPut(cfg, s, step, m);
    } else {
      NewMessagesMoved(cfg, s, step, m);
    }
  }

  lemma NewMessagesInside(cfg: Config, s: State, step: Step, m: Message)
    requires InsideHandler(step) && Enabled(cfg, s, step) && Present(Apply(cfg, s, step), m)
    ensures Present(s, m) || (FindsFailures(cfg, s, step, m) && m.rounds == s.handler.message.rounds + 1)
  {
    hide WellFormed, CsvSecurity.Scan, Apply, Enabled, FanOut.LastError;
    HandlerFrame(cfg, s, step);
    HandlerMoves(cfg, s, step);
  }

  lemma NewMessagesPut(cfg: Config, s: State, step: Step, m: Message)
    requires PutsMain(step) && Enabled(cfg, s, step) && Present(Apply(cfg, s, step), m)
    ensures Present(s, m) || (Brings(cfg, s, step, m) && m.rounds == 0)
  {
    hide WellFormed;
  }

  lemma NewMessagesMoved(cfg: Config, s: State, step: Step, m: Message)
    requires !OutsideConsumer(step) && !InsideHandler(step) && !PutsMain(step)
    requires Enabled(cfg, s, step) && Present(Apply(cfg, s, step), m)
    ensures Present(s, m)
  {
    hide WellFormed, MaxDeadline;
    if step.Send? {
      hide Apply, Enabled;
      NewMessagesSent(cfg, s, step, m);
    }
  }

  lemma NewMessagesSent(cfg: Config, s: State, step: Step, m: Message)
    requires step.Send? && Enabled(cfg, s, step) && Present(Apply(cfg, s, step), m)
    ensures Present(s, m)
  {
    hide MaxDeadline;
  }

  /** The history field tells the length of the chain. */
  lemma {:induction false} Chained(cfg: Config, run: seq<Step>, m: Message)
    requires Legal(cfg, Init(), run) && Present(Exec(cfg, Init(), run), m)
    ensures Chain(cfg, run, m, m.rounds)
    decreases |run|
  {
    hide Apply, Enabled, FindsFailures, Brings, Present, Legal, Exec, Chain;
    if run == [] {
      NothingAtFirst(cfg, m);
    } else {
      var n := |run| - 1;
      Previous(cfg, run);
      var s := Exec(cfg, Init(), run[..n]);
      NewMessages(cfg, s, run[n], m);
      if Present(s, m) {
        Chained(cfg, run[..n], m);
        ChainGrows(cfg, run, m, m.rounds);
      } else {
        if !Brings(cfg, s, run[n], m) || m.rounds != 0 {
          InHandIsPresent(cfg, s, run[n], m);
          Chained(cfg, run[..n], s.handler.message);
        }
        ChainExtends(cfg, run, m);
      }
    }
  }

  lemma NothingAtFirst(cfg: Config, m: Message)
    ensures Legal(cfg, Init(), []) && !Present(Exec(cfg, Init(), []), m)
  {
  }

  lemma InHandIsPresent(cfg: Config, s: State, step: Step, m: Message)
    requires FindsFailures(cfg, s, step, m)
    ensures InHand(s.handler) != [] && Present(s, s.handler.message)
  {
  }

  lemma ChainExtends(cfg: Config, run: seq<Step>, m: Message)
    requires Legal(cfg, Init(), run) && run != [] && Legal(cfg, Init(), run[..|run| - 1])
    requires var n := |run| - 1; var s := Exec(cfg, Init(), run[..n]);
             || (Brings(cfg, s, run[n], m) && m.rounds == 0)
             || (&& FindsFailures(cfg, s, run[n], m)
                 && InHand(s.handler) != [] && m.rounds == s.handler.message.rounds + 1
                 && Chain(cfg, run[..n], s.handler.message, s.handler.message.rounds))
    ensures Chain(cfg, run, m, m.rounds)
  {
    hide FindsFailures, Brings, Legal;
    assert At(cfg, run, |run| - 1) == Exec(cfg, Init(), run[..|run| - 1]);
    assert Link(cfg, run, |run| - 1, m, m.rounds);
  }

  /** In every reachable state a copy of an event the watcher published differs from it only in the retry block.
      Behind an attempt of n lie its publication and n upload rounds that found failures, each of the very copy the
      one before sent on; n never exceeds retry_max_attempts. Behind a dead letter for exhausted retries lie one
      more than retry_max_attempts, and its attempt is that maximum. */
  lemma {:induction false} RetryHistory(cfg: Config, run: seq<Step>, m: Message)
    requires Legal(cfg, Init(), run)
    requires m.origin < |Exec(cfg, Init(), run).broker.origins|
    requires Exec(cfg, Init(), run).broker.origins[m.origin].Detected?
    ensures var s := Exec(cfg, Init(), run); var first := s.broker.origins[m.origin].event;
            InFlight(s, m) ==>
              && m.payload.Event?
              && var e := m.payload.event;
                 && e == first.(retry := e.retry)
                 && 0 <= Attempt(e)
                 && (e.retry.Some? ==> 1 <= Attempt(e) <= cfg.maxAttempts == e.retry.value.maxAttempts)
                 && Chain(cfg, run, m, Attempt(e))
    ensures var s := Exec(cfg, Init(), run); var first := s.broker.origins[m.origin].event;
            DeadLetter(m, MaxRetriesExceeded) in s.broker.dlq ==>
              && m.payload.Event?
              && var e := m.payload.event;
                 && e == first.(retry := e.retry)
                 && e.retry.Some?
                 && Attempt(e) == cfg.maxAttempts >= 1
                 && Chain(cfg, run, m, cfg.maxAttempts + 1)
  {
    hide Legal, Exec, Chain;
    RetryBlocks(cfg, run);
    var s := Exec(cfg, Init(), run);
    if InFlight(s, m) || DeadLetter(m, MaxRetriesExceeded) in s.broker.dlq {
      Chained(cfg, run, m);
    }
  }
}
