/** How often something happens in a run, read off its steps, and where the state keeps the same number. */
module Counting {
  import opened Schema
  import opened Detection
  import opened Protocol
  import opened DoneOnce
  import CsvSecurity

  /** What a step can be counted as. */
  datatype Kind =
    | Publication             // a message gets onto the main queue from outside it
    | CopyOf(build: nat)      // the same, from event number `build` of the watcher
    | Start                   // a handler starts
    | Cut                     // a handler is cut short with its message unacked
    // how a crash or an unlucky publish spoils the consumer's books
    | Uncounted               // a crash between an ack and its count
    | MissedDlqTotal          // a crash between the two increments of a dead letter
    | MissedHit               // the same for a duplicate
    | OrphanedLetter          // a handler ends with its dead letter on the queue, but not counted

  predicate Is(s: State, step: Step, kind: Kind) {
    match kind
    case Publication => step.Inject? || (step.Publish? && !step.delivery.Lost?)
    case CopyOf(build) => step.Publish? && !step.delivery.Lost? && s.watch.at.Publishing? && s.watch.at.build == build
    case Start => step.Deliver?
    case Cut =>
      && Current(s) != []
      && (step.Raise? || step.Disconnect? || step.Restart? || (step.Send? && !step.delivery.Confirmed?))
    case Uncounted => step.Restart? && s.handler.Counting?
    case MissedDlqTotal => step.Restart? && s.handler.Totalling? && s.handler.verdict.DeadLettered?
    case MissedHit => step.Restart? && s.handler.Totalling? && !s.handler.verdict.DeadLettered?
    case OrphanedLetter =>
      || (step.Send? && step.delivery.Ambiguous? && s.handler.Routing? && s.handler.route.ToDlq?)
      || ((step.Raise? || step.Restart?) && PendingDlq(s.handler) == 1)
  }

  /** How many steps of the run are of the kind. */
  function Occurrences(cfg: Config, run: seq<Step>, kind: Kind): nat
    requires Legal(cfg, Init(), run)
  {
    if run == [] then 0
    else
      var n := |run| - 1;
      Occurrences(cfg, run[..n], kind) + if Is(Exec(cfg, Init(), run[..n]), run[n], kind) then 1 else 0
  }

  lemma LastOccurrence(cfg: Config, run: seq<Step>, kind: Kind)
    requires Legal(cfg, Init(), run) && run != [] && Legal(cfg, Init(), run[..|run| - 1])
    ensures var n := |run| - 1;
            Occurrences(cfg, run, kind)
            == Occurrences(cfg, run[..n], kind) + if Is(At(cfg, run, n), run[n], kind) then 1 else 0
  {
    hide Is, Legal, Exec;
  }

  // None at all

  /** No step of the run is of the kind. */
  ghost predicate Never(cfg: Config, run: seq<Step>, kind: Kind)
    requires Legal(cfg, Init(), run)
  {
    forall k :: 0 <= k < |run| ==> !Is(At(cfg, run, k), run[k], kind)
  }

  lemma NeverBefore(cfg: Config, run: seq<Step>, kind: Kind)
    requires Legal(cfg, Init(), run) && run != [] && Legal(cfg, Init(), run[..|run| - 1])
    ensures var n := |run| - 1;
            Never(cfg, run, kind) <==> Never(cfg, run[..n], kind) && !Is(At(cfg, run, n), run[n], kind)
  {
    hide Is, Legal, Exec, At;
    var n := |run| - 1;
    forall k | 0 <= k < n
      ensures Is(At(cfg, run[..n], k), run[..n][k], kind) <==> Is(At(cfg, run, k), run[k], kind)
    {
      AtPrefix(cfg, run, n, k);
    }
  }

  /** The number is zero exactly if no step of the run is of the kind. */
  lemma {:induction false} NoneOccur(cfg: Config, run: seq<Step>, kind: Kind)
    requires Legal(cfg, Init(), run)
    ensures Occurrences(cfg, run, kind) == 0 <==> Never(cfg, run, kind)
  {
    if run != [] {
      hide Is, Legal, Exec, At, Occurrences, Never;
      Previous(cfg, run);
      NoneOccur(cfg, run[..|run| - 1], kind);
      LastOccurrence(cfg, run, kind);
      NeverBefore(cfg, run, kind);
    }
  }

  // What the state remembers

  /** The publications onto the main queue that come from build `b`. */
  function Copies(origins: seq<Origin>, b: nat): nat {
    if origins == [] then 0
    else
      var last := origins[|origins| - 1];
      Copies(origins[..|origins| - 1], b) + if last.Detected? && last.build == b then 1 else 0
  }

  lemma CopiesOneMore(origins: seq<Origin>, o: Origin)
    ensures forall b :: Copies(origins + [o], b) == Copies(origins, b) + if o.Detected? && o.build == b then 1 else 0
  {
    assert (origins + [o])[..|origins|] == origins;
  }

  function Remembered(s: State, kind: Kind): nat {
    match kind
    case Publication => |s.broker.origins|
    case CopyOf(build) => Copies(s.broker.origins, build)
    case Start => s.tally.starts
    case Cut => s.tally.cuts
    case Uncounted => s.tally.uncounted
    case MissedDlqTotal => s.tally.missedDlq
    case MissedHit => s.tally.missedHits
    case OrphanedLetter => s.tally.orphans
  }

  lemma RememberedStep(cfg: Config, s: State, step: Step, kind: Kind)
    requires Enabled(cfg, s, step)
    ensures Remembered(Apply(cfg, s, step), kind) == Remembered(s, kind) + if Is(s, step, kind) then 1 else 0
  {
    hide WellFormed, CsvSecurity.Scan, Concluded, Apply, Enabled, Copies, PendingDlq;
    if OutsideConsumer(step) {
      OutsideFrame(cfg, s, step);
    } else if PutsMain(step) {
      RememberedPut(cfg, s, step, kind);
    } else {
      ConsumerFrame(cfg, s, step);
      if InsideHandler(step) {
        RememberedInside(cfg, s, step, kind);
      } else {
        RememberedMove(cfg, s, step, kind);
      }
    }
  }

  lemma RememberedInside(cfg: Config, s: State, step: Step, kind: Kind)
    requires Enabled(cfg, s, step) && InsideHandler(step)
    ensures Remembered(Apply(cfg, s, step), kind) == Remembered(s, kind) && !Is(s, step, kind)
  {
    hide WellFormed, CsvSecurity.Scan, Concluded, Apply, Enabled, Copies;
    HandlerFrame(cfg, s, step);
    HandlerMoves(cfg, s, step);
  }

  lemma RememberedPut(cfg: Config, s: State, step: Step, kind: Kind)
    requires Enabled(cfg, s, step) && PutsMain(step)
    ensures Remembered(Apply(cfg, s, step), kind) == Remembered(s, kind) + if Is(s, step, kind) then 1 else 0
  {
    hide WellFormed, Copies;
    match step
    case Inject(payload) => CopiesOneMore(s.broker.origins, Foreign(payload));
    case Publish(_) =>
      var b := s.watch.builds[s.watch.at.build];
      CopiesOneMore(s.broker.origins, Detected(s.watch.at.build, b.path, b.content, b.event));
  }

  lemma RememberedMove(cfg: Config, s: State, step: Step, kind: Kind)
    requires Enabled(cfg, s, step) && !OutsideConsumer(step) && !PutsMain(step) && !InsideHandler(step)
    ensures Remembered(Apply(cfg, s, step), kind) == Remembered(s, kind) + if Is(s, step, kind) then 1 else 0
  {
    hide WellFormed, OnRetryQueue, Copies;
  }

  /** What the state remembers is what happened in the run. */
  lemma {:induction false} RememberedRun(cfg: Config, run: seq<Step>, kind: Kind)
    requires Legal(cfg, Init(), run)
    ensures Remembered(Exec(cfg, Init(), run), kind) == Occurrences(cfg, run, kind)
  {
    if run != [] {
      hide Apply, Is, Remembered;
      var n := |run| - 1;
      RememberedRun(cfg, run[..n], kind);
      RememberedStep(cfg, Exec(cfg, Init(), run[..n]), run[n], kind);
    } else {
      assert Remembered(Init(), kind) == 0;
    }
  }

  /** An event of the watcher has as many copies on the main queue as publishes of it were not lost; it has one at
      all if and only if some publish of it was not. */
  lemma {:induction false} CopiesArePublishes(cfg: Config, run: seq<Step>, b: nat)
    requires Legal(cfg, Init(), run)
    ensures Copies(Exec(cfg, Init(), run).broker.origins, b) == Occurrences(cfg, run, CopyOf(b))
    ensures Copies(Exec(cfg, Init(), run).broker.origins, b) > 0
            <==> exists k :: 0 <= k < |run| && Is(At(cfg, run, k), run[k], CopyOf(b))
  {
    hide Legal, Exec, Occurrences, Is;
    RememberedRun(cfg, run, CopyOf(b));
    NoneOccur(cfg, run, CopyOf(b));
  }
}
