/** What the metrics add up to (worker/src/metrics.py). */
module Counters {
  import opened Schema
  import opened Detection
  import opened Protocol
  import opened Lineage
  import opened Counting
  import CsvSecurity

  // Consumer counters

  /** The books of the consumer, with every crash that spoils them accounted for. */
  predicate Balanced(s: State) {
    var t, h := s.tally, s.handler;
    && t.acks == t.success + t.retried + t.deadLettered + t.duplicate + (if h.Counting? then 1 else 0) + t.uncounted
    && t.deadLettered == t.dlqTotal + (if h.Totalling? && h.verdict.DeadLettered? then 1 else 0) + t.missedDlq
    && t.duplicate == t.hits + (if h.Totalling? && h.verdict.Duplicate? then 1 else 0) + t.missedHits
    && |s.broker.dlq| == t.deadLettered + PendingDlq(h) + t.orphans
    && (h.Totalling? ==> h.verdict.DeadLettered? || h.verdict.Duplicate?)
  }

  lemma BalancedStep(cfg: Config, s: State, step: Step)
    requires Balanced(s) && Enabled(cfg, s, step)
    ensures Balanced(Apply(cfg, s, step))
  {
    hide WellFormed, CsvSecurity.Scan, Concluded, Apply, Enabled;
    if OutsideConsumer(step) {
      OutsideFrame(cfg, s, step);
    } else if InsideHandler(step) {
      HandlerFrame(cfg, s, step);
      HandlerMoves(cfg, s, step);
      if step.Conclude? {
        ConcludedWhere(cfg, s);
      }
    } else {
      BalancedMove(cfg, s, step);
    }
  }

  lemma BalancedMove(cfg: Config, s: State, step: Step)
    requires Balanced(s) && Enabled(cfg, s, step) && !OutsideConsumer(step) && !InsideHandler(step)
    ensures Balanced(Apply(cfg, s, step))
  {
    hide WellFormed, OnRetryQueue, BuildEvent, Prefetch;
  }

  lemma ConcludedWhere(cfg: Config, s: State)
    requires Enabled(cfg, s, Conclude)
    ensures var h := Apply(cfg, s, Conclude).handler; h.Marking? || h.Routing?
  {
  }

  lemma {:induction false} BalancedRun(cfg: Config, run: seq<Step>)
    requires Legal(cfg, Init(), run)
    ensures Balanced(Exec(cfg, Init(), run))
  {
    if run != [] {
      hide Apply, Balanced, Enabled;
      var n := |run| - 1;
      assert Balanced(Exec(cfg, Init(), run[..n])) by { BalancedRun(cfg, run[..n]); }
      BalancedStep(cfg, Exec(cfg, Init(), run[..n]), run[n]);
    }
  }

  /** Conservation, whenever the consumer is between two messages. The acks exceed the four results of
      events_consumed_total by the number of crashes between an ack and its count; the dlq result exceeds
      dlq_messages_total, and the duplicate result idempotency_hits_total, by the number of crashes between
      those two increments; and the dead-letter queue is longer than the dlq result by the number of handlers
      that put something on it and ended before they counted it. */
  lemma {:induction false} CountersConserved(cfg: Config, run: seq<Step>)
    requires Legal(cfg, Init(), run) && Exec(cfg, Init(), run).handler.Idle?
    ensures var s := Exec(cfg, Init(), run); var t := s.tally;
            && t.acks == t.success + t.retried + t.deadLettered + t.duplicate + Occurrences(cfg, run, Uncounted)
            && t.deadLettered == t.dlqTotal + Occurrences(cfg, run, MissedDlqTotal)
            && t.duplicate == t.hits + Occurrences(cfg, run, MissedHit)
            && |s.broker.dlq| == t.deadLettered + Occurrences(cfg, run, OrphanedLetter)
  {
    hide Legal, Exec, Occurrences;
    BalancedRun(cfg, run);
    RememberedRun(cfg, run, Uncounted);
    RememberedRun(cfg, run, MissedDlqTotal);
    RememberedRun(cfg, run, MissedHit);
    RememberedRun(cfg, run, OrphanedLetter);
  }

  // Watcher counters

  /** The publications onto the main queue that come from the watcher. */
  function FromWatcher(origins: seq<Origin>): nat {
    if origins == [] then 0
    else FromWatcher(origins[..|origins| - 1]) + if origins[|origins| - 1].Detected? then 1 else 0
  }

  lemma {:induction false} NoCopies(origins: seq<Origin>, b: nat)
    requires forall o :: o in origins && o.Detected? ==> o.build < b
    ensures Copies(origins, b) == 0
  {
    if origins != [] {
      assert origins[|origins| - 1] in origins;
      NoCopies(origins[..|origins| - 1], b);
    }
  }

  lemma OneMore(origins: seq<Origin>, o: Origin)
    ensures FromWatcher(origins + [o]) == FromWatcher(origins) + if o.Detected? then 1 else 0
    ensures forall b :: Copies(origins + [o], b) == Copies(origins, b) + if o.Detected? && o.build == b then 1 else 0
  {
    CopiesOneMore(origins, o);
    assert (origins + [o])[..|origins|] == origins;
  }

  function PublishesLeft(w: Watcher): nat {
    if w.Publishing? then if w.again then 1 else 2 else 0
  }

  ghost predicate Announced(s: State) {
    var w, origins := s.watch, s.broker.origins;
    && w.published == |w.counted|
    && (forall b :: b in w.counted ==> b < |w.builds| && Copies(origins, b) >= 1)
    && (forall b :: 0 <= b < |w.builds| ==> Copies(origins, b) <= 2)
    && (w.at.Publishing? ==> w.at.build !in w.counted && Copies(origins, w.at.build) + PublishesLeft(w.at) <= 2)
    && (w.at.Announcing? ==> w.at.build !in w.counted && Copies(origins, w.at.build) >= 1)
    && FromWatcher(origins) + PublishesLeft(w.at) <= 2 * |w.builds|
    && w.published + (if w.at.Announcing? then 1 else 0) <= FromWatcher(origins)
  }

  lemma AnnouncedStep(cfg: Config, s: State, step: Step)
    requires Sourced(cfg, s) && Announced(s) && Enabled(cfg, s, step)
    ensures Announced(Apply(cfg, s, step))
  {
    if PutsMain(step) {
      AnnouncedPut(cfg, s, step);
    } else if OutsideConsumer(step) {
      hide Apply;
      AnnouncedOutside(cfg, s, step);
    } else {
      hide Apply;
      ConsumerFrame(cfg, s, step);
    }
  }

  lemma AnnouncedOutside(cfg: Config, s: State, step: Step)
    requires Sourced(cfg, s) && Announced(s) && OutsideConsumer(step) && Enabled(cfg, s, step)
    ensures Announced(Apply(cfg, s, step))
  {
    hide WellFormed, BuildEvent, SettledFor, Fresh, Written, Copies, FromWatcher;
    if step.BuildOk? {
      hide Apply;
      AnnouncedBuild(cfg, s, step);
    } else if step.CountPublished? {
      hide Apply;
      AnnouncedCount(cfg, s);
    }
  }

  lemma AnnouncedBuild(cfg: Config, s: State, step: Step)
    requires Sourced(cfg, s) && Announced(s) && step.BuildOk? && Enabled(cfg, s, step)
    ensures Announced(Apply(cfg, s, step))
  {
    hide WellFormed, BuildEvent, Fresh, Copies, FromWatcher;
    NoCopies(s.broker.origins, |s.watch.builds|);
  }

  lemma AnnouncedCount(cfg: Config, s: State)
    requires Sourced(cfg, s) && Announced(s) && Enabled(cfg, s, CountPublished)
    ensures Announced(Apply(cfg, s, CountPublished))
  {
    hide Fresh, Copies, FromWatcher;
  }

  lemma AnnouncedPut(cfg: Config, s: State, step: Step)
    requires Sourced(cfg, s) && Announced(s) && PutsMain(step) && Enabled(cfg, s, step)
    ensures Announced(Apply(cfg, s, step))
  {
    hide WellFormed, BuildEvent, Fresh, Copies, FromWatcher;
    match step
    case Inject(payload) => OneMore(s.broker.origins, Foreign(payload));
    case Publish(_) =>
      var b := s.watch.builds[s.watch.at.build];
      OneMore(s.broker.origins, Detected(s.watch.at.build, b.path, b.content, b.event));
  }

  lemma {:induction false} AnnouncedRun(cfg: Config, run: seq<Step>)
    requires Legal(cfg, Init(), run)
    ensures Announced(Exec(cfg, Init(), run))
  {
    if run != [] {
      hide Apply;
      var n := |run| - 1;
      SourcedRun(cfg, run[..n]);
      AnnouncedRun(cfg, run[..n]);
      AnnouncedStep(cfg, Exec(cfg, Init(), run[..n]), run[n]);
    }
  }

  /** Along every run each event the watcher builds is put on the main queue at most twice, at least once if
      it was counted, and always as the same event with the same key; events_published_total never exceeds
      the number of events built, and the copies lie between that counter and twice the events. */
  lemma {:induction false} WatcherAccounting(cfg: Config, run: seq<Step>)
    requires Legal(cfg, Init(), run)
    ensures var s := Exec(cfg, Init(), run); var w, origins := s.watch, s.broker.origins;
            && (forall b :: 0 <= b < |w.builds| ==> Copies(origins, b) <= 2)
            && (forall b :: b in w.counted ==> b < |w.builds| && Copies(origins, b) >= 1)
            && (forall o :: o in origins && o.Detected? ==>
                  o.build < |w.builds| && o.event == w.builds[o.build].event
                  && o.event.idempotencyKey == Key(cfg, o.path, o.content))
            && w.published == |w.counted| <= |w.builds|
            && w.published <= FromWatcher(origins) <= 2 * |w.builds|
  {
    SourcedRun(cfg, run);
    AnnouncedRun(cfg, run);
    var s := Exec(cfg, Init(), run);
    forall o | o in s.broker.origins && o.Detected? ensures o.event.idempotencyKey == Key(cfg, o.path, o.content) {
      assert s.watch.builds[o.build] in s.watch.builds;
    }
    BoundedSet(s.watch.counted, |s.watch.builds|);
  }

  lemma {:induction false} BoundedSet(s: set<nat>, n: nat)
    requires forall x :: x in s ==> x < n
    ensures |s| <= n
  {
    if n == 0 {
      assert s == {};
    } else {
      BoundedSet(s - {n - 1}, n - 1);
    }
  }
}
