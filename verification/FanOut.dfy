/** Concurrent upload of one file to every destination (worker/src/uploader.py, upload_all).

    A destination's coroutine waits for the semaphore, runs while it holds a permit, and reports.
    The order in which coroutines are scheduled is left open. */
module FanOut {
  import opened Common

  datatype UploadResult = UploadResult(provider: string, ok: bool, error: Option<string>)

  /** How one upload ends; a thread that times out or fails may have written the object all the same. */
  datatype Fate = Succeeds | TimesOut(wrote: bool) | Throws(exception: string, wrote: bool)

  /** `bytes` is what a running upload read from the file; None when the file was not there to read. */
  datatype Slot = Waiting | Running(bytes: Option<Content>) | Reported(result: UploadResult)

  datatype State = State(permits: nat, slots: seq<Slot>)

  const KNOWN_PROVIDERS: set<string> := {"aws-s3", "gcp-gcs"}

  function Begin(n: nat, concurrency: nat): State {
    State(concurrency, seq(n, _ => Waiting))
  }

  predicate CanStart(s: State, i: nat) {
    i < |s.slots| && s.slots[i].Waiting? && s.permits > 0
  }

  function Start(s: State, i: nat, bytes: Option<Content>): State
    requires CanStart(s, i)
  {
    State(s.permits - 1, s.slots[i := Running(bytes)])
  }

  predicate Writes(fate: Fate) {
    fate.Succeeds? || fate.wrote
  }

  /** An unsupported provider has no uploader, so nothing is written whatever the fate. */
  predicate WritesTo(provider: string, fate: Fate) {
    provider in KNOWN_PROVIDERS && Writes(fate)
  }

  /** Without a file there is nothing to write. */
  predicate CanEnd(s: State, i: nat, fate: Fate) {
    i < |s.slots| && s.slots[i].Running? && (s.slots[i].bytes.None? ==> !Writes(fate))
  }

  /** The result _upload_one returns. */
  function ResultOf(provider: string, fate: Fate): UploadResult {
    if provider !in KNOWN_PROVIDERS then
      UploadResult(provider, false, Some("unsupported_provider:" + provider))
    else
      match fate
      case Succeeds => UploadResult(provider, true, None)
      case TimesOut(_) => UploadResult(provider, false, Some(provider + ":upload_timeout"))
      case Throws(exception, _) => UploadResult(provider, false, Some(provider + ":" + exception))
  }

  function End(s: State, i: nat, provider: string, fate: Fate): State
    requires CanEnd(s, i, fate)
  {
    State(s.permits + 1, s.slots[i := Reported(ResultOf(provider, fate))])
  }

  predicate Finished(s: State) {
    forall i :: 0 <= i < |s.slots| ==> s.slots[i].Reported?
  }

  /** What gather returns: one result per destination, in the order of the destinations. */
  function Results(s: State): (r: seq<UploadResult>)
    requires Finished(s)
  {
    seq(|s.slots|, i requires 0 <= i < |s.slots| => s.slots[i].result)
  }

  function Failures(results: seq<UploadResult>): seq<UploadResult> {
    if results == [] then [] else (if results[0].ok then [] else [results[0]]) + Failures(results[1..])
  }

  function Join(errors: seq<string>): string {
    if errors == [] then "" else if |errors| == 1 then errors[0] else errors[0] + "," + Join(errors[1..])
  }

  function Errors(failures: seq<UploadResult>): seq<string> {
    if failures == [] then []
    else
      var e := failures[0].error;
      (if e.Some? && e.value != "" then [e.value] else []) + Errors(failures[1..])
  }

  /** ",".join(r.error for r in failures if r.error) */
  function LastError(results: seq<UploadResult>): string {
    Join(Errors(Failures(results)))
  }

  // What the results say

  /** What one upload reports: ok only if a known uploader returned, and otherwise an error that names the provider. */
  lemma ResultTexts(provider: string, fate: Fate)
    ensures var r := ResultOf(provider, fate);
            && r.provider == provider
            && (r.ok <==> fate == Succeeds && (provider == "aws-s3" || provider == "gcp-gcs"))
            && (r.ok ==> r.error == None)
            && (provider != "aws-s3" && provider != "gcp-gcs" ==> r.error == Some("unsupported_provider:" + provider))
    ensures forall wrote :: provider == "aws-s3" || provider == "gcp-gcs" ==>
              ResultOf(provider, TimesOut(wrote)).error == Some(provider + ":upload_timeout")
    ensures forall exception, wrote :: provider == "aws-s3" || provider == "gcp-gcs" ==>
              ResultOf(provider, Throws(exception, wrote)).error == Some(provider + ":" + exception)
  {
  }

  lemma {:induction false} FailuresConcat(a: seq<UploadResult>, b: seq<UploadResult>)
    ensures Failures(a + b) == Failures(a) + Failures(b)
  {
    if a == [] {
      assert a + b == b;
    } else {
      assert (a + b)[0] == a[0] && (a + b)[1..] == a[1..] + b;
      FailuresConcat(a[1..], b);
    }
  }

  lemma {:induction false} ErrorsConcat(a: seq<UploadResult>, b: seq<UploadResult>)
    ensures Errors(a + b) == Errors(a) + Errors(b)
  {
    if a == [] {
      assert a + b == b;
    } else {
      assert (a + b)[0] == a[0] && (a + b)[1..] == a[1..] + b;
      ErrorsConcat(a[1..], b);
    }
  }

  lemma {:induction false} ErrorsNotEmpty(a: seq<UploadResult>)
    ensures forall e :: e in Errors(a) ==> e != ""
  {
    if a != [] {
      ErrorsNotEmpty(a[1..]);
    }
  }

  lemma JoinNotEmpty(a: seq<string>)
    requires forall e :: e in a ==> e != ""
    ensures Join(a) == "" <==> a == []
  {
    assert a != [] ==> a[0] in a;
  }

  lemma {:induction false} JoinConcat(a: seq<string>, b: seq<string>)
    requires a != [] && b != []
    ensures Join(a + b) == Join(a) + "," + Join(b)
    decreases |a|
  {
    assert (a + b)[0] == a[0] && (a + b)[1..] == a[1..] + b;
    if |a| > 1 {
      JoinConcat(a[1..], b);
      assert a[0] + "," + (Join(a[1..]) + "," + Join(b)) == a[0] + "," + Join(a[1..]) + "," + Join(b);
    } else {
      assert a[1..] + b == b;
    }
  }

  /** The text of one result: nothing unless it failed with an error. */
  lemma LastErrorOne(r: UploadResult)
    ensures LastError([]) == ""
    ensures r.ok || r.error.None? ==> LastError([r]) == ""
    ensures !r.ok && r.error.Some? ==> LastError([r]) == r.error.value
  {
    assert [r][1..] == [] && [r] + [] == [r];
    assert Failures([r]) == if r.ok then [] else [r];
    if r.error.Some? {
      assert [r.error.value] + [] == [r.error.value];
    }
  }

  /** The texts of two lists are joined by a comma, unless one of them is empty; with the text of one result this
      fixes what the error of every list is. */
  lemma LastErrorConcat(a: seq<UploadResult>, b: seq<UploadResult>)
    ensures LastError(a + b) == if LastError(a) == "" then LastError(b)
                                else if LastError(b) == "" then LastError(a)
                                else LastError(a) + "," + LastError(b)
  {
    hide Failures, Errors, Join;
    FailuresConcat(a, b);
    var x, y := Errors(Failures(a)), Errors(Failures(b));
    ErrorsConcat(Failures(a), Failures(b));
    ErrorsNotEmpty(Failures(a));
    ErrorsNotEmpty(Failures(b));
    JoinNotEmpty(x);
    JoinNotEmpty(y);
    if x != [] && y != [] {
      JoinConcat(x, y);
    } else {
      assert x == [] ==> x + y == y;
      assert y == [] ==> x + y == x;
    }
  }

  /** Both of the watcher's destinations time out. */
  lemma BothTimeOut(wrote: bool, wrote': bool)
    ensures LastError([ResultOf("aws-s3", TimesOut(wrote)), ResultOf("gcp-gcs", TimesOut(wrote'))])
         == "aws-s3:upload_timeout,gcp-gcs:upload_timeout"
  {
    hide LastError, ResultOf;
    var a, b := ResultOf("aws-s3", TimesOut(wrote)), ResultOf("gcp-gcs", TimesOut(wrote'));
    ResultTexts("aws-s3", TimesOut(wrote));
    ResultTexts("gcp-gcs", TimesOut(wrote'));
    LastErrorOne(a);
    LastErrorOne(b);
    LastErrorConcat([a], [b]);
    assert [a] + [b] == [a, b];
    S3Text();
    GcsText();
    BothTexts();
  }

  lemma S3Text()
    ensures "aws-s3" + ":upload_timeout" == "aws-s3:upload_timeout"
  {
  }

  lemma GcsText()
    ensures "gcp-gcs" + ":upload_timeout" == "gcp-gcs:upload_timeout"
  {
  }

  lemma BothTexts()
    ensures "aws-s3:upload_timeout" + "," + "gcp-gcs:upload_timeout" == "aws-s3:upload_timeout,gcp-gcs:upload_timeout"
  {
  }

  // Schedules

  datatype Step = StartStep(i: nat, bytes: Option<Content>) | EndStep(i: nat, fate: Fate)

  /** Upload `i` of the list ends with `fates[i]`, whenever it is scheduled. */
  predicate Enabled(s: State, fates: seq<Fate>, step: Step) {
    match step
    case StartStep(i, bytes) => CanStart(s, i) && i < |fates| && (bytes.None? ==> !Writes(fates[i]))
    case EndStep(i, fate) => CanEnd(s, i, fate) && i < |fates| && fate == fates[i]
  }

  function Apply(s: State, providers: seq<string>, fates: seq<Fate>, step: Step): State
    requires |providers| == |s.slots| && Enabled(s, fates, step)
  {
    match step
    case StartStep(i, bytes) => Start(s, i, bytes)
    case EndStep(i, fate) => End(s, i, providers[i], fate)
  }

  function RunningCount(slots: seq<Slot>): nat {
    if slots == [] then 0 else RunningCount(slots[..|slots| - 1]) + if slots[|slots| - 1].Running? then 1 else 0
  }

  /** Two steps are left for a waiting upload and one for a running one. */
  function StepsLeft(slots: seq<Slot>): nat {
    if slots == [] then 0
    else
      var last := slots[|slots| - 1];
      StepsLeft(slots[..|slots| - 1]) + if last.Waiting? then 2 else if last.Running? then 1 else 0
  }

  lemma {:induction false} ReplaceSlot(slots: seq<Slot>, i: nat, slot: Slot)
    requires i < |slots|
    ensures RunningCount(slots[i := slot])
         == RunningCount(slots) + (if slot.Running? then 1 else 0) - (if slots[i].Running? then 1 else 0)
    ensures StepsLeft(slots[i := slot]) + (if slots[i].Waiting? then 2 else if slots[i].Running? then 1 else 0)
         == StepsLeft(slots) + (if slot.Waiting? then 2 else if slot.Running? then 1 else 0)
  {
    var n := |slots| - 1;
    if i == n {
      assert slots[i := slot][..n] == slots[..n];
    } else {
      ReplaceSlot(slots[..n], i, slot);
      assert slots[i := slot][..n] == slots[..n][i := slot];
    }
  }

  lemma {:induction false} AllWaiting(n: nat)
    ensures RunningCount(Begin(n, 0).slots) == 0 && StepsLeft(Begin(n, 0).slots) == 2 * n
  {
    if n > 0 {
      AllWaiting(n - 1);
      assert Begin(n, 0).slots[..n - 1] == Begin(n - 1, 0).slots;
    }
  }

  /** The semaphore's balance, and what has been reported so far. */
  ghost predicate Invariant(s: State, providers: seq<string>, fates: seq<Fate>, concurrency: nat) {
    && |s.slots| == |providers| == |fates|
    && s.permits + RunningCount(s.slots) == concurrency
    && (forall i :: 0 <= i < |s.slots| && s.slots[i].Reported? ==> s.slots[i].result == ResultOf(providers[i], fates[i]))
    && (forall i :: 0 <= i < |s.slots| && s.slots[i].Running? && s.slots[i].bytes.None? ==> !Writes(fates[i]))
  }

  predicate Legal(s: State, providers: seq<string>, fates: seq<Fate>, schedule: seq<Step>)
    requires |providers| == |s.slots|
    decreases |schedule|
  {
    schedule == [] || (Enabled(s, fates, schedule[0])
                       && Legal(Apply(s, providers, fates, schedule[0]), providers, fates, schedule[1..]))
  }

  function Exec(s: State, providers: seq<string>, fates: seq<Fate>, schedule: seq<Step>): (r: State)
    requires |providers| == |s.slots| && Legal(s, providers, fates, schedule)
    ensures |r.slots| == |s.slots|
    decreases |schedule|
  {
    if schedule == [] then s
    else Exec(Apply(s, providers, fates, schedule[0]), providers, fates, schedule[1..])
  }

  lemma StepKeepsInvariant(s: State, providers: seq<string>, fates: seq<Fate>, concurrency: nat, step: Step)
    requires Invariant(s, providers, fates, concurrency) && Enabled(s, fates, step)
    ensures Invariant(Apply(s, providers, fates, step), providers, fates, concurrency)
    ensures StepsLeft(Apply(s, providers, fates, step).slots) == StepsLeft(s.slots) - 1
  {
    match step
    case StartStep(i, bytes) => ReplaceSlot(s.slots, i, Running(bytes));
    case EndStep(i, fate) => ReplaceSlot(s.slots, i, Reported(ResultOf(providers[i], fate)));
  }

  /** The semaphore lets an upload start exactly while fewer than `concurrency` of them run. */
  lemma StartsIff(s: State, providers: seq<string>, fates: seq<Fate>, concurrency: nat, i: nat, bytes: Content)
    requires Invariant(s, providers, fates, concurrency) && i < |s.slots|
    ensures Enabled(s, fates, StartStep(i, Some(bytes))) <==> s.slots[i] == Waiting && RunningCount(s.slots) < concurrency
  {
  }

  /** Along every schedule, free permits plus running uploads make up the concurrency limit and each
      step uses up one of the 2n there are. */
  lemma {:induction false} ScheduleKeepsInvariant(s: State, providers: seq<string>, fates: seq<Fate>,
                                                  concurrency: nat, schedule: seq<Step>)
    requires Invariant(s, providers, fates, concurrency) && Legal(s, providers, fates, schedule)
    ensures var r := Exec(s, providers, fates, schedule);
            Invariant(r, providers, fates, concurrency) && StepsLeft(r.slots) + |schedule| == StepsLeft(s.slots)
    decreases |schedule|
  {
    if schedule != [] {
      StepKeepsInvariant(s, providers, fates, concurrency, schedule[0]);
      ScheduleKeepsInvariant(Apply(s, providers, fates, schedule[0]), providers, fates, concurrency, schedule[1..]);
    }
  }

  function Expected(providers: seq<string>, fates: seq<Fate>): seq<UploadResult>
    requires |providers| == |fates|
  {
    seq(|providers|, i requires 0 <= i < |providers| => ResultOf(providers[i], fates[i]))
  }

  /** A schedule that runs to the end takes two steps per destination and returns one result for each, in
      their order, fixed by how that destination's own upload ended. */
  lemma {:induction false} ScheduleOutcome(providers: seq<string>, fates: seq<Fate>, concurrency: nat, schedule: seq<Step>)
    requires |providers| == |fates|
    requires Legal(Begin(|providers|, concurrency), providers, fates, schedule)
    requires Finished(Exec(Begin(|providers|, concurrency), providers, fates, schedule))
    ensures Results(Exec(Begin(|providers|, concurrency), providers, fates, schedule)) == Expected(providers, fates)
    ensures |schedule| == 2 * |providers|
  {
    var s := Begin(|providers|, concurrency);
    AllWaiting(|providers|);
    assert s.slots == Begin(|providers|, 0).slots;
    ScheduleKeepsInvariant(s, providers, fates, concurrency, schedule);
    NoStepsLeft(Exec(s, providers, fates, schedule).slots);
  }

  /** The list of results and the joined error do not depend on the schedule. */
  lemma {:induction false} ScheduleIndependence(providers: seq<string>, fates: seq<Fate>,
                                                concurrency: nat, concurrency': nat, a: seq<Step>, b: seq<Step>)
    requires |providers| == |fates|
    requires Legal(Begin(|providers|, concurrency), providers, fates, a)
    requires Legal(Begin(|providers|, concurrency'), providers, fates, b)
    requires Finished(Exec(Begin(|providers|, concurrency), providers, fates, a))
    requires Finished(Exec(Begin(|providers|, concurrency'), providers, fates, b))
    ensures var x := Results(Exec(Begin(|providers|, concurrency), providers, fates, a));
            var y := Results(Exec(Begin(|providers|, concurrency'), providers, fates, b));
            x == y && LastError(x) == LastError(y)
  {
    ScheduleOutcome(providers, fates, concurrency, a);
    ScheduleOutcome(providers, fates, concurrency', b);
  }

  lemma {:induction false} NoStepsLeft(slots: seq<Slot>)
    ensures StepsLeft(slots) == 0 <==> forall i :: 0 <= i < |slots| ==> slots[i].Reported?
    ensures RunningCount(slots) == 0 <==> forall i :: 0 <= i < |slots| ==> !slots[i].Running?
  {
    if slots != [] {
      NoStepsLeft(slots[..|slots| - 1]);
    }
  }

  /** Progress: the fan-out is never stuck before it is finished if and only if there is a permit to hand
      out or nothing to upload. */
  lemma ProgressIff(providers: seq<string>, fates: seq<Fate>, concurrency: nat)
    requires |providers| == |fates|
    ensures (concurrency >= 1 || providers == []) <==>
            forall s: State :: Invariant(s, providers, fates, concurrency) && !Finished(s)
              ==> exists step :: Enabled(s, fates, step)
  {
    if concurrency >= 1 || providers == [] {
      forall s: State | Invariant(s, providers, fates, concurrency) && !Finished(s)
        ensures exists step :: Enabled(s, fates, step)
      {
        NoStepsLeft(s.slots);
        if RunningCount(s.slots) > 0 {
          var i :| 0 <= i < |s.slots| && s.slots[i].Running?;
          assert Enabled(s, fates, EndStep(i, fates[i]));
        } else {
          var i :| 0 <= i < |s.slots| && !s.slots[i].Reported?;
          assert Enabled(s, fates, StartStep(i, Some([])));
        }
      }
    } else {
      var s := Begin(|providers|, 0);
      AllWaiting(|providers|);
      assert s.slots[0].Waiting? && !Finished(s) && Invariant(s, providers, fates, concurrency);
      forall step ensures !Enabled(s, fates, step) {
      }
    }
  }

  /** upload_all under an arbitrary scheduler: any upload that may move can be the next one to move. */
  method UploadAll(providers: seq<string>, fates: seq<Fate>, concurrency: nat, bytes: Content)
    returns (results: seq<UploadResult>)
    requires |providers| == |fates| && concurrency >= 1
    ensures results == Expected(providers, fates)
  {
    var slots := Begin(|providers|, concurrency).slots;
    var permits := concurrency;
    AllWaiting(|providers|);
    assert slots == Begin(|providers|, 0).slots;
    while exists i :: 0 <= i < |slots| && !slots[i].Reported?
      invariant Invariant(State(permits, slots), providers, fates, concurrency)
      decreases StepsLeft(slots)
    {
      NoStepsLeft(slots);
      var i :| 0 <= i < |slots| && (slots[i].Running? || (slots[i].Waiting? && permits > 0));
      if slots[i].Waiting? {
        ReplaceSlot(slots, i, Running(Some(bytes)));
        permits, slots := permits - 1, slots[i := Running(Some(bytes))];
      } else {
        ReplaceSlot(slots, i, Reported(ResultOf(providers[i], fates[i])));
        permits, slots := permits + 1, slots[i := Reported(ResultOf(providers[i], fates[i]))];
      }
    }
    results := Results(State(permits, slots));
    assert results == Expected(providers, fates);
  }
}
