/** How often handlers can start at all. */
module WorkBound {
  import opened Schema
  import opened Detection
  import opened Protocol
  import opened Lineage
  import opened Counting
  import CsvSecurity

  /** Deliveries one publication can cause when nothing is cut short. */
  function Cap(cfg: Config): nat {
    if cfg.maxAttempts > 0 then cfg.maxAttempts + 1 else 1
  }

  /** Deliveries a copy still stands for. */
  function Remaining(cfg: Config, m: Message): nat {
    if m.payload.Event? && Attempt(m.payload.event) <= cfg.maxAttempts
    then if Attempt(m.payload.event) < 0 then Cap(cfg) else cfg.maxAttempts + 1 - Attempt(m.payload.event)
    else 1
  }

  lemma RemainingRange(cfg: Config, m: Message)
    ensures 1 <= Remaining(cfg, m) <= Cap(cfg)
  {
  }

  function Sum(cfg: Config, q: seq<Message>): nat {
    if q == [] then 0 else Sum(cfg, q[..|q| - 1]) + Remaining(cfg, q[|q| - 1])
  }

  function SumDelayed(cfg: Config, q: seq<Delayed>): nat {
    if q == [] then 0 else SumDelayed(cfg, q[..|q| - 1]) + Remaining(cfg, q[|q| - 1].message)
  }

  lemma {:induction false} SumConcat(cfg: Config, a: seq<Message>, b: seq<Message>)
    ensures Sum(cfg, a + b) == Sum(cfg, a) + Sum(cfg, b)
    decreases |b|
  {
    if b == [] {
      assert a + b == a;
    } else {
      var n := |b| - 1;
      SumConcat(cfg, a, b[..n]);
      assert (a + b)[..|a + b| - 1] == a + b[..n];
    }
  }

  lemma SumOne(cfg: Config, m: Message)
    ensures Sum(cfg, [m]) == Remaining(cfg, m)
  {
    assert [m][..0] == [];
  }

  lemma SumHead(cfg: Config, q: seq<Message>)
    requires q != []
    ensures Sum(cfg, q) == Remaining(cfg, q[0]) + Sum(cfg, q[1..])
  {
    SumConcat(cfg, [q[0]], q[1..]);
    SumOne(cfg, q[0]);
    assert [q[0]] + q[1..] == q;
  }

  lemma {:induction false} SumDelayedHead(cfg: Config, q: seq<Delayed>)
    requires q != []
    ensures SumDelayed(cfg, q) == Remaining(cfg, q[0].message) + SumDelayed(cfg, q[1..])
    decreases |q|
  {
    var n := |q| - 1;
    if n == 0 {
      assert q[..0] == [] && q[1..] == [];
    } else {
      SumDelayedHead(cfg, q[..n]);
      assert q[..n][1..] == q[1..][..n - 1];
    }
  }

  /** What the message in hand still stands for, its current delivery apart; from the ack on its
      replacement, if any, stands for itself. */
  function HandShare(cfg: Config, s: State): nat {
    RemainingRange(cfg, if InHand(s.handler) == [] then Message(Garbled([]), 0, 0) else s.handler.message);
    if Current(s) == [] || s.handler.Acking? then 0 else Remaining(cfg, s.handler.message) - 1
  }

  /** Handlers started, and those the copies in flight still stand for. */
  function Outlay(cfg: Config, s: State): nat {
    s.tally.starts + Sum(cfg, s.broker.main) + Sum(cfg, s.broker.held) + SumDelayed(cfg, s.broker.retry)
    + HandShare(cfg, s)
  }

  /** Publications onto the main queue and handlers cut short. */
  function Credit(s: State): nat {
    |s.broker.origins| + s.tally.cuts
  }

  /** What a step adds to the outlay is covered by what it adds to the credit. */
  ghost predicate Covered(cfg: Config, s: State, t: State) {
    Outlay(cfg, t) <= Outlay(cfg, s) + Cap(cfg) * (Credit(t) - Credit(s)) && Credit(s) <= Credit(t)
  }

  lemma OutlayAbandon(cfg: Config, s: State)
    ensures Outlay(cfg, Abandon(s)) <= Outlay(cfg, s) + Cap(cfg) * |Current(s)|
    ensures Credit(Abandon(s)) == Credit(s) + |Current(s)|
  {
    SumConcat(cfg, s.broker.held, Current(s));
    if Current(s) == [] {
      assert Sum(cfg, []) == 0;
    } else {
      SumOne(cfg, s.handler.message);
      RemainingRange(cfg, s.handler.message);
    }
  }

  lemma SumRequeued(cfg: Config, s: State)
    ensures var b := Requeue(s.broker, Current(s));
            && Sum(cfg, b.main) + Sum(cfg, b.held)
               <= Sum(cfg, s.broker.main) + Sum(cfg, s.broker.held) + Cap(cfg) * |Current(s)|
            && |Current(s)| <= 1
  {
    SumConcat(cfg, s.broker.held, Current(s));
    SumConcat(cfg, s.broker.held + Current(s), s.broker.main);
    assert Sum(cfg, []) == 0;
    if Current(s) != [] {
      SumOne(cfg, s.handler.message);
      RemainingRange(cfg, s.handler.message);
    }
  }

  lemma OutlayPut(cfg: Config, b: Broker, payload: Payload, origin: Origin)
    ensures Sum(cfg, PutMain(b, payload, origin).main) <= Sum(cfg, b.main) + Cap(cfg)
  {
    var m := Message(payload, |b.origins|, 0);
    SumConcat(cfg, b.main, [m]);
    SumOne(cfg, m);
    RemainingRange(cfg, m);
  }

  /** A copy put on the retry queue stands for one delivery less than the message it replaces. */
  lemma OutlayRoute(cfg: Config, s: State)
    requires Tracked(cfg, s) && s.handler.Routing?
    ensures var b := PutRoute(s.broker, s.now, s.handler.route);
            && b.main == s.broker.main && b.held == s.broker.held
            && b.connected == s.broker.connected && b.origins == s.broker.origins
            && SumDelayed(cfg, b.retry) <= SumDelayed(cfg, s.broker.retry) + Remaining(cfg, s.handler.message) - 1
  {
    hide WellFormed;
    RemainingRange(cfg, s.handler.message);
    if s.handler.route.ToRetry? {
      var entry := OnRetryQueue(s.broker.retry, s.now, s.handler.route.copy, s.handler.route.delay);
      assert (s.broker.retry + [entry])[..|s.broker.retry|] == s.broker.retry;
    }
  }

  /** A handler whose replacement is queued no longer stands for anything. */
  lemma OutlaySent(cfg: Config, s: State)
    requires Tracked(cfg, s) && s.handler.Routing? && s.broker.connected
    ensures var sent := s.(broker := PutRoute(s.broker, s.now, s.handler.route));
            && Outlay(cfg, sent.(handler := Acking(s.handler.message, VerdictOf(s.handler.route)))) <= Outlay(cfg, s)
            && Outlay(cfg, Abandon(sent)) <= Outlay(cfg, s) + Cap(cfg)
  {
    hide WellFormed, Tracked, Remaining, Cap;
    OutlayRoute(cfg, s);
    var m := s.handler.message;
    assert Current(s) == [m];
    RemainingRange(cfg, m);
    SumConcat(cfg, s.broker.held, [m]);
    SumOne(cfg, m);
  }

  lemma OutlaySend(cfg: Config, s: State, step: Step)
    requires Tracked(cfg, s) && step.Send? && Enabled(cfg, s, step)
    ensures Covered(cfg, s, Apply(cfg, s, step))
  {
    hide WellFormed, Tracked, Remaining, PutRoute, Sum, SumDelayed, Cap;
    if step.delivery.Lost? {
      OutlayAbandon(cfg, s);
    } else {
      OutlayRoute(cfg, s);
      OutlaySent(cfg, s);
    }
  }

  lemma OutlayStep(cfg: Config, s: State, step: Step)
    requires Tracked(cfg, s) && Enabled(cfg, s, step)
    ensures Covered(cfg, s, Apply(cfg, s, step))
  {
    hide Tracked, Remaining, WellFormed, Apply, Sum, SumDelayed, Cap;
    if OutsideConsumer(step) {
      OutsideFrame(cfg, s, step);
    } else if InsideHandler(step) {
      OutlayInside(cfg, s, step);
    } else if step.Send? {
      OutlaySend(cfg, s, step);
    } else {
      OutlayMove(cfg, s, step);
    }
  }

  lemma OutlayInside(cfg: Config, s: State, step: Step)
    requires InsideHandler(step) && Enabled(cfg, s, step)
    ensures var t := Apply(cfg, s, step);
            Outlay(cfg, t) <= Outlay(cfg, s) && Credit(s) == Credit(t)
  {
    hide Remaining, WellFormed, CsvSecurity.Scan, Apply, Enabled, Sum, SumDelayed, Supported;
    HandlerFrame(cfg, s, step);
    HandlerMoves(cfg, s, step);
    if InHand(s.handler) != [] {
      RemainingRange(cfg, s.handler.message);
    }
    if step.Ack? || step.Count? || step.Total? || step.Mark? || step.Validate? {
    } else {
      assert !s.handler.Acking?;
    }
  }

  lemma OutlayPublication(cfg: Config, s: State, step: Step)
    requires PutsMain(step) && Enabled(cfg, s, step)
    ensures Covered(cfg, s, Apply(cfg, s, step))
  {
    hide Remaining, WellFormed, Cap, Sum, SumDelayed;
    var b := s.broker;
    match step
    case Inject(payload) => OutlayPut(cfg, b, payload, Foreign(payload));
    case Publish(_) =>
      var build := s.watch.builds[s.watch.at.build];
      OutlayPut(cfg, b, Event(build.event), Detected(s.watch.at.build, build.path, build.content, build.event));
  }

  lemma OutlayExpire(cfg: Config, s: State)
    requires Enabled(cfg, s, Expire)
    ensures Covered(cfg, s, Apply(cfg, s, Expire))
  {
    hide Remaining, Cap, Sum, SumDelayed;
    var b := s.broker;
    SumConcat(cfg, b.main, [b.retry[0].message]);
    SumOne(cfg, b.retry[0].message);
    SumDelayedHead(cfg, b.retry);
  }

  lemma OutlayDeliver(cfg: Config, s: State)
    requires Enabled(cfg, s, Deliver)
    ensures Covered(cfg, s, Apply(cfg, s, Deliver))
  {
    hide Remaining, Cap, Sum, SumDelayed;
    SumHead(cfg, s.broker.main);
    RemainingRange(cfg, s.broker.main[0]);
  }

  lemma OutlayRequeue(cfg: Config, s: State, step: Step)
    requires (step.Disconnect? || step.Restart?) && Enabled(cfg, s, step)
    ensures Covered(cfg, s, Apply(cfg, s, step))
  {
    hide Remaining, Cap, Sum, SumDelayed, Requeue;
    SumRequeued(cfg, s);
    var t := Apply(cfg, s, step);
    assert Current(t) == [] && t.broker.retry == s.broker.retry && t.broker.origins == s.broker.origins by {
      RequeueFrame(s.broker, Current(s));
    }
  }

  lemma RequeueFrame(b: Broker, current: seq<Message>)
    ensures Requeue(b, current).retry == b.retry && Requeue(b, current).origins == b.origins
  {
  }

  lemma OutlayMove(cfg: Config, s: State, step: Step)
    requires Enabled(cfg, s, step)
    requires !OutsideConsumer(step) && !InsideHandler(step) && !step.Send?
    ensures Covered(cfg, s, Apply(cfg, s, step))
  {
    hide Enabled, Covered;
    match step
    case Inject(_) => OutlayPublication(cfg, s, step);
    case Publish(_) => OutlayPublication(cfg, s, step);
    case Expire => OutlayExpire(cfg, s);
    case Deliver => OutlayDeliver(cfg, s);
    case Raise => OutlayRaise(cfg, s);
    case Disconnect => OutlayRequeue(cfg, s, step);
    case Restart => OutlayRequeue(cfg, s, step);
  }

  lemma OutlayRaise(cfg: Config, s: State)
    requires Enabled(cfg, s, Raise)
    ensures Covered(cfg, s, Apply(cfg, s, Raise))
  {
    hide Outlay, Credit, Cap, Abandon;
    OutlayAbandon(cfg, s);
  }

  lemma Distribute(c: nat, x: nat, y: nat, before: nat, after: nat)
    requires before <= c * x && after <= before + c * (y - x)
    ensures after <= c * y
  {
  }

  predicate Funded(cfg: Config, s: State) {
    Outlay(cfg, s) <= Cap(cfg) * Credit(s)
  }

  lemma FundedStep(cfg: Config, s: State, step: Step)
    requires Tracked(cfg, s) && Enabled(cfg, s, step) && Funded(cfg, s)
    ensures Funded(cfg, Apply(cfg, s, step))
  {
    hide Apply, Enabled, Tracked, Outlay, Credit, Cap;
    var t := Apply(cfg, s, step);
    OutlayStep(cfg, s, step);
    Distribute(Cap(cfg), Credit(s), Credit(t), Outlay(cfg, s), Outlay(cfg, t));
  }

  lemma {:induction false} FundedRun(cfg: Config, run: seq<Step>)
    requires Legal(cfg, Init(), run)
    ensures Funded(cfg, Exec(cfg, Init(), run))
  {
    if run != [] {
      hide Apply, Enabled, Funded, Tracked;
      var n := |run| - 1;
      FundedRun(cfg, run[..n]);
      TrackedRun(cfg, run[..n]);
      FundedStep(cfg, Exec(cfg, Init(), run[..n]), run[n]);
    }
  }

  /** Along every run the handlers started number at most retry_max_attempts + 1 for each publication onto the
      main queue and each handler cut short (by an exception, a failed publish, a lost connection or a crash, with
      its message unacked). */
  lemma {:induction false} HandlerStartsBounded(cfg: Config, run: seq<Step>)
    requires Legal(cfg, Init(), run) && cfg.maxAttempts >= 0
    ensures Occurrences(cfg, run, Start)
            <= (cfg.maxAttempts + 1) * (Occurrences(cfg, run, Publication) + Occurrences(cfg, run, Cut))
  {
    hide Legal, Exec, Occurrences;
    FundedRun(cfg, run);
    RememberedRun(cfg, run, Start);
    RememberedRun(cfg, run, Publication);
    RememberedRun(cfg, run, Cut);
  }
}
