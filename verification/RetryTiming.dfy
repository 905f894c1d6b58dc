/** When messages come back from the retry queue. RabbitMQ expires a queue's messages from the head only, so
    with mixed TTLs a message can wait for those ahead of it. */
module RetryTiming {
  import opened Schema
  import opened Detection
  import opened Protocol
  import opened Lineage
  import Backoff

  function Max(a: nat, b: nat): nat {
    if a > b then a else b
  }

  lemma {:induction false} MaxDeadlineIsMax(q: seq<Delayed>)
    ensures forall d :: d in q ==> d.deadline <= MaxDeadline(q)
    ensures q != [] ==> exists d :: d in q && d.deadline == MaxDeadline(q)
  {
    if q != [] {
      var n := |q| - 1;
      MaxDeadlineIsMax(q[..n]);
      assert q == q[..n] + [q[n]];
      assert q[n] in q;
    }
  }

  lemma {:induction false} MaxDeadlineHead(q: seq<Delayed>)
    requires q != []
    ensures MaxDeadline(q) == Max(q[0].deadline, MaxDeadline(q[1..]))
    decreases |q|
  {
    var n := |q| - 1;
    if n > 0 {
      MaxDeadlineHead(q[..n]);
      assert q[1..][..n - 1] == q[..n][1..];
    }
  }

  lemma MaxDeadlineSnoc(q: seq<Delayed>, d: Delayed)
    ensures MaxDeadline(q + [d]) == Max(d.deadline, MaxDeadline(q))
  {
    assert (q + [d])[..|q|] == q;
  }

  // Bounds that hold along every run

  predicate EntryBounded(cfg: Config, now: nat, d: Delayed) {
    && d.message.payload.Event?
    && 1 <= Attempt(d.message.payload.event) <= cfg.maxAttempts
    && d.queuedAt <= now
    && d.deadline == d.queuedAt + Backoff.DelayMs(cfg.backoffBase, Attempt(d.message.payload.event))
    && d.deadline <= d.exit
    && (cfg.backoffBase >= 1.0 ==> d.exit <= d.queuedAt + Backoff.DelayMs(cfg.backoffBase, cfg.maxAttempts))
  }

  ghost predicate Bounded(cfg: Config, s: State) {
    forall d :: d in s.broker.retry ==> EntryBounded(cfg, s.now, d)
  }

  lemma BoundedRoute(cfg: Config, s: State)
    requires Tracked(cfg, s) && Bounded(cfg, s) && s.handler.Routing?
    ensures Bounded(cfg, s.(broker := PutRoute(s.broker, s.now, s.handler.route)))
  {
    hide WellFormed, Backoff.DelayMs;
    var route := s.handler.route;
    if route.ToRetry? {
      var entry := OnRetryQueue(s.broker.retry, s.now, route.copy, route.delay);
      MaxDeadlineIsMax(s.broker.retry);
      if cfg.backoffBase >= 1.0 {
        Backoff.DelayMonotone(cfg.backoffBase, Attempt(route.copy.payload.event), cfg.maxAttempts);
        forall d | d in s.broker.retry ensures d.deadline <= s.now + Backoff.DelayMs(cfg.backoffBase, cfg.maxAttempts) {
          assert EntryBounded(cfg, s.now, d);
        }
      }
      assert Live(cfg, s.broker.origins, route.copy) && Live(cfg, s.broker.origins, s.handler.message);
      assert EntryBounded(cfg, s.now, entry);
    }
  }

  lemma BoundedStep(cfg: Config, s: State, step: Step)
    requires Tracked(cfg, s) && Bounded(cfg, s) && Enabled(cfg, s, step)
    ensures Bounded(cfg, Apply(cfg, s, step))
  {
    hide Apply, Enabled, EntryBounded, Bounded, Tracked;
    if OutsideConsumer(step) {
      OutsideFrame(cfg, s, step);
      BoundedLater(cfg, s, Apply(cfg, s, step));
    } else if InsideHandler(step) {
      HandlerFrame(cfg, s, step);
      ConsumerFrame(cfg, s, step);
      BoundedLater(cfg, s, Apply(cfg, s, step));
    } else if step.Send? {
      BoundedSend(cfg, s, step);
    } else {
      BoundedMove(cfg, s, step);
    }
  }

  lemma BoundedLater(cfg: Config, s: State, t: State)
    requires Bounded(cfg, s) && t.broker.retry == s.broker.retry && t.now >= s.now
    ensures Bounded(cfg, t)
  {
    hide Backoff.DelayMs;
    forall d | d in t.broker.retry ensures EntryBounded(cfg, t.now, d) {
      assert EntryBounded(cfg, s.now, d);
    }
  }

  lemma BoundedSend(cfg: Config, s: State, step: Step)
    requires Tracked(cfg, s) && Bounded(cfg, s) && step.Send? && Enabled(cfg, s, step)
    ensures Bounded(cfg, Apply(cfg, s, step))
  {
    hide EntryBounded, Tracked, PutRoute;
    BoundedRoute(cfg, s);
  }

  lemma BoundedMove(cfg: Config, s: State, step: Step)
    requires Bounded(cfg, s) && Enabled(cfg, s, step) && !OutsideConsumer(step) && !InsideHandler(step) && !step.Send?
    ensures Bounded(cfg, Apply(cfg, s, step))
  {
    hide EntryBounded, WellFormed, Requeue;
    var t := Apply(cfg, s, step);
    assert t.now == s.now && (t.broker.retry == s.broker.retry || t.broker.retry == s.broker.retry[1..]) by {
      if step.Disconnect? || step.Restart? {
        RequeueKeepsRetry(s.broker, Current(s));
      }
    }
  }

  lemma RequeueKeepsRetry(b: Broker, current: seq<Message>)
    ensures Requeue(b, current).retry == b.retry
  {
  }

  lemma {:induction false} BoundedRun(cfg: Config, run: seq<Step>)
    requires Legal(cfg, Init(), run)
    ensures Bounded(cfg, Exec(cfg, Init(), run))
  {
    if run != [] {
      hide Apply, Enabled, EntryBounded, Tracked;
      var n := |run| - 1;
      TrackedRun(cfg, run[..n]);
      BoundedRun(cfg, run[..n]);
      BoundedStep(cfg, Exec(cfg, Init(), run[..n]), run[n]);
    }
  }

  // Immediate expiry

  /** The broker expires the head before the clock moves on. */
  predicate Urgent(cfg: Config, run: seq<Step>)
    requires Legal(cfg, Init(), run)
  {
    run == [] || (var n := |run| - 1;
                  Urgent(cfg, run[..n]) && (run[n].Tick? ==> !Enabled(cfg, Exec(cfg, Init(), run[..n]), Expire)))
  }

  /** Every step but one keeps a run urgent: time that goes on over a head that is due. */
  lemma UrgentMore(cfg: Config, run: seq<Step>, step: Step)
    requires Legal(cfg, Init(), run) && Enabled(cfg, Exec(cfg, Init(), run), step) && Legal(cfg, Init(), run + [step])
    ensures var s := Exec(cfg, Init(), run);
            Urgent(cfg, run + [step]) <==>
            Urgent(cfg, run) && (step.Tick? ==> s.broker.retry == [] || s.now < s.broker.retry[0].deadline)
  {
    assert (run + [step])[..|run|] == run;
  }

  /** The latest deadline among message number `k` of the queue and those still ahead of it. */
  function Due(q: seq<Delayed>, k: nat): nat
    requires k < |q|
  {
    MaxDeadline(q[..k + 1])
  }

  /** Each message's recorded exit is when it is due, or now if that is past. */
  ghost predicate OnTime(s: State) {
    forall k :: 0 <= k < |s.broker.retry| ==> s.broker.retry[k].exit == Max(s.now, Due(s.broker.retry, k))
  }

  lemma OnTimeRoute(s: State)
    requires OnTime(s) && s.handler.Routing?
    ensures OnTime(s.(broker := PutRoute(s.broker, s.now, s.handler.route)))
  {
    var route := s.handler.route;
    if route.ToRetry? {
      var q := s.broker.retry;
      var entry := OnRetryQueue(q, s.now, route.copy, route.delay);
      MaxDeadlineSnoc(q, entry);
      assert Due(q + [entry], |q|) == MaxDeadline(q + [entry]) by {
        assert (q + [entry])[..|q| + 1] == q + [entry];
      }
      forall k | 0 <= k < |q| ensures Due(q + [entry], k) == Due(q, k) {
        assert (q + [entry])[..k + 1] == q[..k + 1];
      }
    }
  }

  lemma OnTimeTick(s: State)
    requires OnTime(s) && (s.broker.retry == [] || s.now < s.broker.retry[0].deadline)
    ensures OnTime(s.(now := s.now + 1))
  {
    forall k | 0 <= k < |s.broker.retry| ensures Due(s.broker.retry, k) >= s.now + 1 {
      MaxDeadlineHead(s.broker.retry[..k + 1]);
    }
  }

  lemma OnTimeExpire(s: State, broker: Broker)
    requires OnTime(s) && s.broker.retry != [] && s.broker.retry[0].deadline <= s.now
    requires broker.retry == s.broker.retry[1..]
    ensures OnTime(s.(broker := broker))
    ensures s.now == s.broker.retry[0].exit
  {
    var q := s.broker.retry;
    assert q[..1] == [] + [q[0]];
    MaxDeadlineSnoc([], q[0]);
    assert Due(q, 0) == q[0].deadline;
    forall k | 0 <= k < |q| - 1 ensures q[1..][k].exit == Max(s.now, Due(q[1..], k)) {
      assert q[1..][k] == q[k + 1];
      MaxDeadlineHead(q[..k + 2]);
      assert q[..k + 2][1..] == q[1..][..k + 1];
    }
  }

  lemma OnTimeStep(cfg: Config, s: State, step: Step)
    requires OnTime(s) && Enabled(cfg, s, step) && (step.Tick? ==> !Enabled(cfg, s, Expire))
    ensures OnTime(Apply(cfg, s, step))
  {
    if step.Tick? {
      OnTimeTick(s);
    } else if OutsideConsumer(step) {
      hide Apply, MaxDeadline;
      OutsideFrame(cfg, s, step);
    } else if InsideHandler(step) {
      hide Apply, MaxDeadline;
      HandlerFrame(cfg, s, step);
      ConsumerFrame(cfg, s, step);
    } else {
      hide MaxDeadline, WellFormed, PutRoute;
      if step.Send? {
        OnTimeRoute(s);
      } else if step.Expire? {
        OnTimeExpire(s, Apply(cfg, s, step).broker);
      }
    }
  }

  lemma {:induction false} OnTimeRun(cfg: Config, run: seq<Step>)
    requires Legal(cfg, Init(), run) && Urgent(cfg, run)
    ensures OnTime(Exec(cfg, Init(), run))
  {
    if run != [] {
      hide Apply, MaxDeadline;
      var n := |run| - 1;
      OnTimeRun(cfg, run[..n]);
      OnTimeStep(cfg, Exec(cfg, Init(), run[..n]), run[n]);
    }
  }

  // First in, first out

  function Expiries(run: seq<Step>): nat {
    if run == [] then 0 else Expiries(run[..|run| - 1]) + if run[|run| - 1].Expire? then 1 else 0
  }

  lemma RetryStep(cfg: Config, s: State, step: Step)
    requires Enabled(cfg, s, step)
    ensures if step.Expire? then s.broker.retry != [] && Apply(cfg, s, step).broker.retry == s.broker.retry[1..]
            else s.broker.retry <= Apply(cfg, s, step).broker.retry
  {
    if OutsideConsumer(step) {
      hide Apply;
      OutsideFrame(cfg, s, step);
    } else if InsideHandler(step) {
      hide Apply;
      HandlerFrame(cfg, s, step);
    } else {
      hide WellFormed, MaxDeadline;
    }
  }

  /** Messages leave the retry queue in the order in which they came: after `e` expiries the queue begins
      with what is left of the old one. */
  lemma {:induction false} FirstInFirstOut(cfg: Config, s: State, run: seq<Step>)
    requires Legal(cfg, s, run) && Expiries(run) <= |s.broker.retry|
    ensures s.broker.retry[Expiries(run)..] <= Exec(cfg, s, run).broker.retry
    decreases |run|
  {
    if run != [] {
      hide Apply, Enabled;
      var n := |run| - 1;
      var before := Exec(cfg, s, run[..n]);
      FirstInFirstOut(cfg, s, run[..n]);
      assert Enabled(cfg, before, run[n]);
      RetryStep(cfg, before, run[n]);
      var e := Expiries(run[..n]);
      if run[n].Expire? {
        assert s.broker.retry[e..][1..] == s.broker.retry[e + 1..];
      }
    }
  }

  /** Run `a` ends by putting a message on the retry queue. */
  predicate JustQueued(cfg: Config, a: seq<Step>)
    requires Legal(cfg, Init(), a)
  {
    && a != []
    && a[|a| - 1].Send?
    && !a[|a| - 1].delivery.Lost?
    && var before := Exec(cfg, Init(), a[..|a| - 1]);
       before.handler.Routing? && before.handler.route.ToRetry?
  }

  lemma QueuedExit(cfg: Config, a: seq<Step>)
    requires Legal(cfg, Init(), a) && JustQueued(cfg, a)
    ensures var q := Exec(cfg, Init(), a).broker.retry;
            q != [] && q[|q| - 1].exit == MaxDeadline(q) && q[|q| - 1].queuedAt == Exec(cfg, Init(), a).now
  {
    hide Apply, MaxDeadline;
    SendQueues(cfg, Exec(cfg, Init(), a[..|a| - 1]), a[|a| - 1]);
  }

  lemma SendQueues(cfg: Config, s: State, step: Step)
    requires Enabled(cfg, s, step) && step.Send? && !step.delivery.Lost? && s.handler.route.ToRetry?
    ensures var t := Apply(cfg, s, step); var q := t.broker.retry;
            q != [] && q[|q| - 1].exit == MaxDeadline(q) && q[|q| - 1].queuedAt == t.now
  {
    var route := s.handler.route;
    MaxDeadlineSnoc(s.broker.retry, OnRetryQueue(s.broker.retry, s.now, route.copy, route.delay));
  }

  /** The head of the retry queue expires once its deadline has come, and not before. */
  lemma ExpiresIff(cfg: Config, s: State)
    ensures Enabled(cfg, s, Expire) <==> s.broker.retry != [] && s.broker.retry[0].deadline <= s.now
  {
  }

  /** Timing of a retry. A message is queued at the end of `a`; `b` is any continuation in which all messages
      ahead of it expire. When it expires next, that is no earlier than its own deadline (its publish time
      plus TTL); if the broker expires heads immediately, it is exactly at the latest deadline among the
      message and those ahead of it when it was queued, and, for a base of at least 1, no later than the
      longest backoff after it was queued. */
  lemma {:induction false} RetryLeavesOnTime(cfg: Config, a: seq<Step>, b: seq<Step>)
    requires Legal(cfg, Init(), a) && JustQueued(cfg, a)
    requires Legal(cfg, Exec(cfg, Init(), a), b) && Expiries(b) == |Exec(cfg, Init(), a).broker.retry| - 1
    requires Enabled(cfg, Exec(cfg, Exec(cfg, Init(), a), b), Expire)
    ensures var s := Exec(cfg, Init(), a); var t := Exec(cfg, s, b);
            var entry := s.broker.retry[|s.broker.retry| - 1];
            && t.broker.retry != [] && t.broker.retry[0] == entry
            && entry.message.payload.Event?
            && 1 <= Attempt(entry.message.payload.event) <= cfg.maxAttempts
            && entry.queuedAt == s.now
            && entry.deadline == s.now + Backoff.DelayMs(cfg.backoffBase, Attempt(entry.message.payload.event)) <= t.now
            && (Legal(cfg, Init(), a + b) && Urgent(cfg, a + b) ==>
                  && t.now == MaxDeadline(s.broker.retry)
                  && (cfg.backoffBase >= 1.0 ==>
                        t.now <= s.now + Backoff.DelayMs(cfg.backoffBase, cfg.maxAttempts)))
  {
    hide Apply, Enabled, MaxDeadline, Backoff.DelayMs, JustQueued, Urgent;
    var s := Exec(cfg, Init(), a);
    var t := Exec(cfg, s, b);
    ExpiresIff(cfg, t);
    QueuedExit(cfg, a);
    FirstInFirstOut(cfg, s, b);
    var q := s.broker.retry;
    assert q[Expiries(b)..][0] == q[|q| - 1];
    BoundedRun(cfg, a);
    assert q[|q| - 1] in q;
    Concat(cfg, Init(), a, b);
    if Urgent(cfg, a + b) {
      OnTimeRun(cfg, a + b);
      OnTimeExpire(t, t.broker.(retry := t.broker.retry[1..]));
    }
  }
}
