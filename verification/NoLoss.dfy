/** No publication is ever lost: at every point of every run a copy exists or the work is done. */
module NoLoss {
  import opened Schema
  import opened Detection
  import opened Protocol
  import opened Lineage
  import CsvSecurity

  /** The event of a publication has been transferred completely. */
  predicate OriginDone(s: State, o: nat)
  {
    && o < |s.broker.origins|
    && var first := First(s.broker.origins[o]);
       first.Event? && first.event.idempotencyKey in s.done
  }

  ghost predicate AmongMessages(q: seq<Message>, o: nat) {
    exists m :: m in q && m.origin == o
  }

  ghost predicate AmongDelayed(q: seq<Delayed>, o: nat) {
    exists d :: d in q && d.message.origin == o
  }

  ghost predicate AmongDead(q: seq<DeadLetter>, o: nat) {
    exists d :: d in q && d.message.origin == o
  }

  /** A copy exists apart from the message in hand, or the event is done. */
  ghost predicate SafeElsewhere(s: State, o: nat) {
    || AmongMessages(s.broker.main, o)
    || AmongMessages(s.broker.held, o)
    || AmongDelayed(s.broker.retry, o)
    || AmongDead(s.broker.dlq, o)
    || OriginDone(s, o)
  }

  ghost predicate Safe(s: State, o: nat) {
    SafeElsewhere(s, o) || AmongMessages(Current(s), o)
  }

  /** Once a handler has come to its ack, the message in hand is no longer needed. */
  ghost predicate Kept(s: State, o: nat) {
    && o < |s.broker.origins|
    && Safe(s, o)
    && (s.handler.Acking? && s.handler.message.origin == o ==> SafeElsewhere(s, o))
  }

  lemma KeptAbandon(s: State, o: nat)
    requires Kept(s, o)
    ensures Kept(Abandon(s), o)
  {
    assert forall m :: m in Current(s) || m in s.broker.held ==> m in Abandon(s).broker.held;
  }

  lemma KeptRequeue(s: State, connected: bool, handler: Handler, o: nat)
    requires Kept(s, o) && (handler == s.handler || handler.Idle?)
    ensures Kept(s.(broker := Requeue(s.broker, Current(s)).(connected := connected), handler := handler), o)
  {
    var b := Requeue(s.broker, Current(s));
    assert forall m :: m in Current(s) || m in s.broker.held || m in s.broker.main ==> m in b.main;
  }

  /** Once the replacement is queued, the message in hand is no longer needed. */
  lemma KeptSent(cfg: Config, s: State, o: nat)
    requires Kept(s, o) && Tracked(cfg, s) && s.handler.Routing?
    ensures var sent := s.(broker := PutRoute(s.broker, s.now, s.handler.route));
            Kept(sent, o) && (s.handler.message.origin == o ==> SafeElsewhere(sent, o))
  {
    hide Live, Buried, Descends, MaxDeadline;
    var sent := s.(broker := PutRoute(s.broker, s.now, s.handler.route));
    assert s.handler.route.copy.origin == s.handler.message.origin;
    if s.handler.route.ToRetry? {
      assert forall d :: d in s.broker.retry ==> d in sent.broker.retry;
      assert sent.broker.retry[|s.broker.retry|] in sent.broker.retry;
    } else {
      assert forall d :: d in s.broker.dlq ==> d in sent.broker.dlq;
      assert sent.broker.dlq[|s.broker.dlq|] in sent.broker.dlq;
    }
  }

  lemma KeptSend(cfg: Config, s: State, step: Step, o: nat)
    requires Kept(s, o) && Tracked(cfg, s) && step.Send? && Enabled(cfg, s, step)
    ensures Kept(Apply(cfg, s, step), o)
  {
    hide Tracked, PutRoute, AmongMessages, AmongDelayed, AmongDead;
    KeptSent(cfg, s, o);
    KeptAbandon(s, o);
    KeptAbandon(s.(broker := PutRoute(s.broker, s.now, s.handler.route)), o);
  }

  lemma SameHand(s: State, t: State, o: nat)
    ensures InHand(s.handler) == InHand(t.handler) && t.broker == s.broker ==>
              (AmongMessages(Current(s), o) <==> AmongMessages(Current(t), o))
    ensures s.handler.Acking? && s.handler.message.origin != o ==> !AmongMessages(Current(s), o)
  {
  }

  lemma KeptInside(cfg: Config, s: State, step: Step, o: nat)
    requires Kept(s, o) && Tracked(cfg, s) && InsideHandler(step) && Enabled(cfg, s, step)
    ensures Kept(Apply(cfg, s, step), o)
  {
    hide WellFormed, Concluded, Apply, Enabled, Supported, CsvSecurity.Scan, AmongMessages, AmongDelayed, AmongDead;
    HandlerFrame(cfg, s, step);
    HandlerMoves(cfg, s, step);
    var t := Apply(cfg, s, step);
    SameHand(s, t, o);
    if step.Validate? || step.Mark? {
      assert Live(cfg, s.broker.origins, s.handler.message);
      assert t.handler.Acking? && s.handler.message.origin == o ==> OriginDone(t, o);
    }
  }

  lemma KeptStep(cfg: Config, s: State, step: Step, o: nat)
    requires Kept(s, o) && Tracked(cfg, s) && Enabled(cfg, s, step)
    ensures Kept(Apply(cfg, s, step), o)
  {
    if OutsideConsumer(step) {
      hide Apply;
      OutsideFrame(cfg, s, step);
    } else if InsideHandler(step) {
      hide Apply;
      HandlerFrame(cfg, s, step);
      KeptInside(cfg, s, step, o);
    } else {
      KeptMove(cfg, s, step, o);
    }
  }

  lemma KeptMove(cfg: Config, s: State, step: Step, o: nat)
    requires Kept(s, o) && Tracked(cfg, s)
    requires !InsideHandler(step) && !OutsideConsumer(step) && Enabled(cfg, s, step)
    ensures Kept(Apply(cfg, s, step), o)
  {
    hide Tracked, WellFormed, Requeue, First;
    var t := Apply(cfg, s, step);
    match step
    case Send(_) => KeptSend(cfg, s, step, o);
    case Raise => KeptAbandon(s, o);
    case Disconnect => KeptRequeue(s, false, s.handler, o);
    case Restart => KeptRequeue(s, true, Idle, o);
    case Expire =>
      assert forall m :: m in s.broker.main ==> m in t.broker.main;
      assert t.broker.main[|s.broker.main|] in t.broker.main;
      assert forall d :: d in s.broker.retry ==> d in t.broker.retry || d == s.broker.retry[0];
    case Deliver =>
      assert forall m :: m in s.broker.main ==> m in t.broker.main || m == s.broker.main[0];
      assert s.broker.main[0] in Current(t);
    case Inject(_) =>
      assert forall m :: m in s.broker.main ==> m in t.broker.main;
    case Publish(_) =>
      assert forall m :: m in s.broker.main ==> m in t.broker.main;
    case _ =>
  }

  /** A publication is safe from the step that puts it on the main queue. */
  lemma KeptFromTheStart(cfg: Config, s: State, step: Step)
    requires Enabled(cfg, s, step)
    ensures |Apply(cfg, s, step).broker.origins| in {|s.broker.origins|, |s.broker.origins| + 1}
    ensures |Apply(cfg, s, step).broker.origins| > |s.broker.origins| ==> Kept(Apply(cfg, s, step), |s.broker.origins|)
  {
    hide WellFormed;
    if PutsMain(step) {
      var t := Apply(cfg, s, step);
      if |t.broker.origins| > |s.broker.origins| {
        assert t.broker.main[|s.broker.main|] in t.broker.main;
      }
    } else {
      hide Apply;
      if OutsideConsumer(step) {
        OutsideFrame(cfg, s, step);
      } else {
        ConsumerFrame(cfg, s, step);
      }
    }
  }

  lemma {:induction false} KeptRun(cfg: Config, run: seq<Step>, o: nat)
    requires Legal(cfg, Init(), run) && o < |Exec(cfg, Init(), run).broker.origins|
    ensures Kept(Exec(cfg, Init(), run), o)
  {
    if run != [] {
      hide Apply, Kept;
      var n := |run| - 1;
      var s := Exec(cfg, Init(), run[..n]);
      KeptFromTheStart(cfg, s, run[n]);
      if o < |s.broker.origins| {
        TrackedRun(cfg, run[..n]);
        KeptRun(cfg, run[..n], o);
        KeptStep(cfg, s, run[n], o);
      }
    }
  }

  /** No loss: in every reachable state, whatever crashed, raised, timed out or was restarted on the way,
      each message that ever got onto the main queue has a copy on the main, retry or dead-letter queue or
      among the unacked messages, or its idempotency key is done. */
  lemma {:induction false} NothingIsLost(cfg: Config, run: seq<Step>, o: nat)
    requires Legal(cfg, Init(), run) && o < |Exec(cfg, Init(), run).broker.origins|
    ensures Safe(Exec(cfg, Init(), run), o)
  {
    KeptRun(cfg, run, o);
  }

  /** A handler acks only when the message it gives up is safe without it: its event is done or its
      replacement is already queued. */
  lemma {:induction false} AckedOnlyWhenSafe(cfg: Config, run: seq<Step>)
    requires Legal(cfg, Init(), run) && Enabled(cfg, Exec(cfg, Init(), run), Ack)
    ensures var s := Exec(cfg, Init(), run); s.handler.Acking? && SafeElsewhere(s, s.handler.message.origin)
  {
    hide Apply, Live, SafeElsewhere, Legal, Exec;
    TrackedRun(cfg, run);
    var s := Exec(cfg, Init(), run);
    var m := s.handler.message;
    LiveHasOrigin(cfg, s.broker.origins, m);
    KeptRun(cfg, run, m.origin);
  }

  lemma LiveHasOrigin(cfg: Config, origins: seq<Origin>, m: Message)
    requires Live(cfg, origins, m)
    ensures m.origin < |origins|
  {
  }
}
