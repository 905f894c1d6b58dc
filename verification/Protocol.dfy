/** The transfer protocol as a labelled step machine: SFTP drop directory, watcher, RabbitMQ queues,
    consumer, dedupe store and destinations, with a failure possible between any two effects.

    Each step is one effect of worker/src/watcher.py, worker/src/consumer.py, worker/src/publisher.py or
    the broker. A step's label carries everything the environment decides (whether a publish is confirmed,
    how an upload ends), so a run is determined by its labels. */
module Protocol {
  import opened Common
  import opened Schema
  import opened Detection
  import Backoff
  import CsvSecurity
  import FanOut

  // Messages

  /** A message body: one that from_json_bytes refuses, or the event it reads. */
  datatype Payload = Garbled(body: Content) | Event(event: TransferEvent)

  /** `origin` and `rounds` are history that no step consults: which publication onto the main queue the
      copy descends from, and how many upload rounds have failed on the way. */
  datatype Message = Message(payload: Payload, origin: nat, rounds: nat)

  /** A message on the retry queue. `exit` is history: the latest deadline among this message and those
      ahead of it when it was queued. */
  datatype Delayed = Delayed(message: Message, queuedAt: nat, deadline: nat, exit: nat)

  datatype Reason =
    InvalidPayload | UnsupportedSchemaVersion | SourceFileMissing | CsvSecurityCheckFailed | MaxRetriesExceeded

  datatype DeadLetter = DeadLetter(message: Message, reason: Reason)

  /** How a publish ends: it returns, or it raises and the message is or is not on the queue. */
  datatype Delivery = Confirmed | Lost | Ambiguous

  /** Where a publication onto the main queue came from: event number `build` of the watcher, or elsewhere. */
  datatype Origin =
    | Detected(build: nat, path: string, content: Content, event: TransferEvent)
    | Foreign(payload: Payload)

  datatype Build = Build(path: string, content: Content, event: TransferEvent)

  datatype Location = Location(provider: string, bucket: string, key: string)

  // Control points

  datatype Watcher =
    | Waiting                            // on the queue of detected paths
    | Found(path: string)                // a path was taken and the file was there
    | Publishing(build: nat, again: bool)
    | Announcing(build: nat)             // published; events_published_total comes next

  datatype Verdict = Success | Retried | DeadLettered | Duplicate

  datatype Route =
    | ToRetry(copy: Message, delay: nat)
    | ToDlq(copy: Message, reason: Reason)

  datatype Handler =
    | Idle
    | Validating(message: Message)
    | Locating(message: Message)
    | Scanning(message: Message)
    | Uploading(message: Message, fan: FanOut.State)
    | Marking(message: Message)
    | Routing(message: Message, route: Route)
    | Acking(message: Message, verdict: Verdict)
    | Counting(verdict: Verdict)         // acked; events_consumed_total comes next
    | Totalling(verdict: Verdict)        // dlq_messages_total or idempotency_hits_total comes next

  /** The watched directory. `shadowed` is history: paths whose content arrived behind the dedupe store's back. */
  datatype Directory = Directory(files: map<string, Content>, shadowed: set<string>)

  /** The watcher thread. `published` is events_published_total; `builds` and `counted` are history: the
      events built, and those of them whose publication was counted. */
  datatype Watch = Watch(queue: seq<string>, at: Watcher, published: nat, builds: seq<Build>, counted: set<nat>)

  /** The queues; `held` are unacked messages whose handler raised. `origins` is history. */
  datatype Broker = Broker(
    main: seq<Message>, held: seq<Message>, retry: seq<Delayed>, dlq: seq<DeadLetter>, connected: bool,
    origins: seq<Origin>)

  /** The consumer's Prometheus counters, taken together over all process lifetimes, and history about them. */
  datatype Tally = Tally(
    success: nat,
    retried: nat,
    deadLettered: nat,
    duplicate: nat,
    dlqTotal: nat,
    hits: nat,
    starts: nat,       // handlers started
    cuts: nat,         // handlers cut short before their ack
    acks: nat,         // basic_ack calls that returned
    uncounted: nat,    // crashes between the ack and events_consumed_total
    missedDlq: nat,    // crashes between events_consumed_total and dlq_messages_total
    missedHits: nat,   // the same for idempotency_hits_total
    orphans: nat)      // DLQ entries whose handler never counted them

  datatype State = State(
    dir: Directory,
    watch: Watch,
    broker: Broker,
    now: nat,
    handler: Handler,
    done: map<string, string>,
    objects: map<Location, Content>,
    tally: Tally)

  function Init(): State {
    State(Directory(map[], {}), Watch([], Waiting, 0, [], {}), Broker([], [], [], [], true, []), 0, Idle, map[], map[],
          Tally(0, 0, 0, 0, 0, 0, 0, 0, 0, 0, 0, 0, 0))
  }

  // Labels

  datatype Step =
    // environment
    | Write(path: string, content: Content)
    | Remove(path: string)
    | Detect(path: string)
    | Inject(payload: Payload)
    | Tick
    // watcher
    | Take
    | BuildOk(eventId: string, correlationId: string, occurredAt: string)
    | BuildFails
    | Publish(delivery: Delivery)
    | CountPublished
    | WatcherStops
    // broker
    | Expire
    | Disconnect
    // consumer
    | Deliver
    | Validate
    | Locate
    | Scan
    | StartUpload(i: nat)
    | EndUpload(i: nat, fate: FanOut.Fate)
    | Conclude
    | Mark
    | Send(delivery: Delivery)
    | Ack
    | Count
    | Total
    | Raise
    | Restart

  // Helpers

  /** The message a handler is working on and has not acked. */
  function InHand(h: Handler): seq<Message> {
    if h.Idle? || h.Counting? || h.Totalling? then [] else [h.message]
  }

  /** That message as the broker sees it: unacked while the connection lasts. */
  function Current(s: State): seq<Message> {
    if s.broker.connected then InHand(s.handler) else []
  }

  predicate HasEvent(h: Handler) {
    InHand(h) != [] && h.message.payload.Event?
  }

  /** The event in hand. */
  function EventOf(h: Handler): TransferEvent
    requires HasEvent(h)
  {
    h.message.payload.event
  }

  function LocationOf(d: Destination): Location {
    Location(d.provider, d.bucket, d.key)
  }

  predicate HoldsAt(objects: map<Location, Content>, l: Location, content: Content) {
    l in objects && objects[l] == content
  }

  /** Every destination of `path` holds `content`. */
  predicate Holds(cfg: Config, objects: map<Location, Content>, path: string, content: Content) {
    forall d :: d in Destinations(cfg, path) ==> HoldsAt(objects, LocationOf(d), content)
  }

  /** The two places written out. */
  lemma HoldsWrittenOut(cfg: Config, objects: map<Location, Content>, path: string, key: string, content: Content)
    requires path == cfg.watchDir + "/" + key
    ensures var s3, gcs := Location("aws-s3", cfg.s3Bucket, key), Location("gcp-gcs", cfg.gcsBucket, key);
            Holds(cfg, objects, path, content) <==>
            s3 in objects && objects[s3] == content && gcs in objects && objects[gcs] == content
  {
    hide RelativeKey;
    RelativeKeyExact(cfg, path);
    assert Destinations(cfg, path)[0] in Destinations(cfg, path) && Destinations(cfg, path)[1] in Destinations(cfg, path);
    assert LocationOf(Destinations(cfg, path)[0]) == Location("aws-s3", cfg.s3Bucket, key);
    assert LocationOf(Destinations(cfg, path)[1]) == Location("gcp-gcs", cfg.gcsBucket, key);
  }

  function MaxDeadline(q: seq<Delayed>): nat {
    if q == [] then 0
    else
      var d, rest := q[|q| - 1].deadline, MaxDeadline(q[..|q| - 1]);
      if d > rest then d else rest
  }

  function OnRetryQueue(retry: seq<Delayed>, now: nat, copy: Message, delay: nat): Delayed {
    var ahead := MaxDeadline(retry);
    Delayed(copy, now, now + delay, if now + delay > ahead then now + delay else ahead)
  }

  function PutMain(b: Broker, payload: Payload, origin: Origin): Broker {
    b.(main := b.main + [Message(payload, |b.origins|, 0)], origins := b.origins + [origin])
  }

  function PutRoute(b: Broker, now: nat, route: Route): Broker {
    match route
    case ToRetry(copy, delay) => b.(retry := b.retry + [OnRetryQueue(b.retry, now, copy, delay)])
    case ToDlq(copy, reason) => b.(dlq := b.dlq + [DeadLetter(copy, reason)])
  }

  function VerdictOf(route: Route): Verdict {
    if route.ToRetry? then Retried else DeadLettered
  }

  /** 1 while the handler has a DLQ entry behind it that it has not counted yet. */
  function PendingDlq(h: Handler): nat {
    if (h.Acking? || h.Counting?) && h.verdict.DeadLettered? then 1 else 0
  }

  /** An exception leaves _handle: the message stays unacked and the consumer goes on. */
  function Abandon(s: State): State {
    s.(broker := s.broker.(held := s.broker.held + Current(s)),
       handler := Idle,
       tally := s.tally.(cuts := s.tally.cuts + |Current(s)|, orphans := s.tally.orphans + PendingDlq(s.handler)))
  }

  /** The connection goes away: every unacked message is put back in front. */
  function Requeue(b: Broker, current: seq<Message>): Broker {
    b.(main := b.held + current + b.main, held := [])
  }

  /** What the handler decides once all uploads have reported; None where with_retry raises. */
  function Concluded(cfg: Config, m: Message, e: TransferEvent, fan: FanOut.State): (h: Option<Handler>)
    requires FanOut.Finished(fan)
    ensures h.Some? ==> h.value == Marking(m) || (h.value.Routing? && h.value.message == m)
  {
    var results := FanOut.Results(fan);
    if FanOut.Failures(results) == [] then
      Some(Marking(m))
    else
      var lastError := FanOut.LastError(results);
      var attempt := Attempt(e) + 1;
      if attempt > cfg.maxAttempts then
        match WithRetry(e, attempt - 1, cfg.maxAttempts, lastError)
        case None => None
        case Some(failed) =>
          Some(Routing(m, ToDlq(Message(Event(failed), m.origin, m.rounds + 1), MaxRetriesExceeded)))
      else
        match WithRetry(e, attempt, cfg.maxAttempts, lastError)
        case None => None
        case Some(again) =>
          var delay := Backoff.DelayMs(cfg.backoffBase, attempt);
          Some(Routing(m, ToRetry(Message(Event(again), m.origin, m.rounds + 1), delay)))
  }

  function Bump(t: Tally, v: Verdict): Tally {
    match v
    case Success => t.(success := t.success + 1)
    case Retried => t.(retried := t.retried + 1)
    case DeadLettered => t.(deadLettered := t.deadLettered + 1)
    case Duplicate => t.(duplicate := t.duplicate + 1)
  }

  // When the store can be trusted

  /** The running uploads write nothing but `content`. */
  predicate UploadsOnly(fan: FanOut.State, content: Content) {
    forall i :: 0 <= i < |fan.slots| && fan.slots[i].Running? && fan.slots[i].bytes.Some? ==>
      fan.slots[i].bytes.value == content
  }

  /** The destinations that have reported success hold `content`. */
  predicate ReportedHold(objects: map<Location, Content>, e: TransferEvent, fan: FanOut.State, content: Content) {
    forall i :: 0 <= i < |fan.slots| && i < |e.destinations| && fan.slots[i].Reported? && fan.slots[i].result.ok ==>
      HoldsAt(objects, LocationOf(e.destinations[i]), content)
  }

  predicate SlotCanSucceed(slot: FanOut.Slot) {
    match slot
    case Waiting => true
    case Running(bytes) => bytes.Some?
    case Reported(result) => result.ok
  }

  /** No upload has failed or is bound to. */
  predicate Deliverable(fan: FanOut.State) {
    forall i :: 0 <= i < |fan.slots| ==> SlotCanSucceed(fan.slots[i])
  }

  /** If the key of `content` is done, or the handler may still mark it, every destination of `path` holds
      `content` or will by then. */
  predicate SettledFor(cfg: Config, s: State, path: string, content: Content) {
    var k := Key(cfg, path, content);
    && (k in s.done ==> Holds(cfg, s.objects, path, content))
    && (s.handler.Uploading? && HasEvent(s.handler) ==>
          var e, fan := EventOf(s.handler), s.handler.fan;
          && (e.source.path == path && k in s.done ==> UploadsOnly(fan, content))
          && (e.idempotencyKey == k && Deliverable(fan) ==>
                UploadsOnly(fan, content) && ReportedHold(s.objects, e, fan, content)))
    && (s.handler.Marking? && HasEvent(s.handler) && EventOf(s.handler).idempotencyKey == k ==>
          Holds(cfg, s.objects, path, content))
  }

  // Steps

  predicate Enabled(cfg: Config, s: State, step: Step) {
    match step
    case Write(path, _) => InWatchDir(cfg, path)
    case Remove(_) => true
    case Detect(path) => InWatchDir(cfg, path)
    case Inject(payload) => payload.Event? ==> WellFormed(cfg.validators, payload.event)
    case Tick => true
    case Take => s.watch.at.Waiting? && s.watch.queue != []
    case BuildOk(eventId, correlationId, occurredAt) =>
      && s.watch.at.Found?
      && s.watch.at.path in s.dir.files
      && WellFormed(cfg.validators,
                    BuildEvent(cfg, s.watch.at.path, s.dir.files[s.watch.at.path], eventId, correlationId, occurredAt))
    case BuildFails => s.watch.at.Found?
    case Publish(_) => s.watch.at.Publishing? && s.watch.at.build < |s.watch.builds|
    case CountPublished => s.watch.at.Announcing?
    case WatcherStops => true
    case Expire => s.broker.retry != [] && s.broker.retry[0].deadline <= s.now
    case Disconnect => s.broker.connected
    case Deliver =>
      s.broker.connected && s.handler.Idle? && s.broker.main != [] && |s.broker.held| < Prefetch(cfg)
    case Validate => s.handler.Validating?
    case Locate => s.handler.Locating? && HasEvent(s.handler)
    case Scan =>
      && s.handler.Scanning?
      && HasEvent(s.handler)
      && var path := EventOf(s.handler).source.path;
         path in s.dir.files && CsvSecurity.Scan(s.dir.files[path], cfg.fileLimit).Issues?
    case StartUpload(i) => s.handler.Uploading? && HasEvent(s.handler) && FanOut.CanStart(s.handler.fan, i)
    case EndUpload(i, fate) =>
      && s.handler.Uploading?
      && HasEvent(s.handler)
      && FanOut.CanEnd(s.handler.fan, i, fate)
      && i < |EventOf(s.handler).destinations|
    case Conclude =>
      && s.handler.Uploading?
      && HasEvent(s.handler)
      && FanOut.Finished(s.handler.fan)
      && Concluded(cfg, s.handler.message, EventOf(s.handler), s.handler.fan).Some?
    case Mark => s.handler.Marking? && HasEvent(s.handler)
    case Send(delivery) => s.handler.Routing? && (s.broker.connected || delivery.Lost?)
    case Ack => s.handler.Acking?
    case Count => s.handler.Counting?
    case Total => s.handler.Totalling?
    case Raise => InHand(s.handler) != []
    case Restart => true
  }

  /** The prefetch window: with a connection, a waiting consumer and a message queued, the next one is delivered
      exactly while no message or fewer than upload_max_concurrency of them are held unacked. */
  lemma DeliversIff(cfg: Config, s: State)
    ensures Enabled(cfg, s, Deliver) <==>
            && s.broker.connected && s.handler.Idle? && s.broker.main != []
            && (|s.broker.held| == 0 || |s.broker.held| < cfg.concurrency)
  {
  }

  /** Over a lost connection the consumer gets nothing and no publish of its goes through. */
  lemma NothingWithoutConnection(cfg: Config, s: State)
    requires !s.broker.connected
    ensures !Enabled(cfg, s, Deliver)
    ensures forall delivery :: Enabled(cfg, s, Send(delivery)) ==> delivery == Lost
  {
  }

  /** A fault can strike at any point: the process can crash at all times, the connection be lost while it is up, and
      an exception leave the handler from the delivery to the ack. */
  lemma FaultsAnywhere(cfg: Config, s: State)
    ensures Enabled(cfg, s, Restart)
    ensures s.broker.connected ==> Enabled(cfg, s, Disconnect)
    ensures !s.handler.Idle? && !s.handler.Counting? && !s.handler.Totalling? ==> Enabled(cfg, s, Raise)
  {
  }

  function Apply(cfg: Config, s: State, step: Step): State
    requires Enabled(cfg, s, step)
  {
    match step
    case Write(path, content) => s.(dir := Written(cfg, s, path, content))
    case Remove(path) => s.(dir := s.dir.(files := s.dir.files - {path}))
    case Detect(path) => s.(watch := s.watch.(queue := s.watch.queue + [path]))
    case Inject(payload) => s.(broker := PutMain(s.broker, payload, Foreign(payload)))
    case Tick => s.(now := s.now + 1)
    case Take =>
      var path := s.watch.queue[0];
      s.(watch := s.watch.(queue := s.watch.queue[1..], at := if path in s.dir.files then Found(path) else Waiting))
    case BuildOk(eventId, correlationId, occurredAt) =>
      var path := s.watch.at.path;
      var content := s.dir.files[path];
      var build := Build(path, content, BuildEvent(cfg, path, content, eventId, correlationId, occurredAt));
      s.(watch := s.watch.(builds := s.watch.builds + [build], at := Publishing(|s.watch.builds|, false)))
    case BuildFails => s.(watch := s.watch.(at := Waiting))
    case Publish(delivery) => ApplyPublish(s, delivery)
    case CountPublished =>
      s.(watch := s.watch.(
           published := s.watch.published + 1, counted := s.watch.counted + {s.watch.at.build}, at := Waiting))
    case WatcherStops => s.(watch := s.watch.(queue := [], at := Waiting))
    case Expire =>
      var b := s.broker;
      s.(broker := b.(main := b.main + [b.retry[0].message], retry := b.retry[1..]))
    case Disconnect =>
      s.(broker := Requeue(s.broker, Current(s)).(connected := false),
         tally := s.tally.(cuts := s.tally.cuts + |Current(s)|))
    case Deliver =>
      var b := s.broker;
      s.(broker := b.(main := b.main[1..]),
         handler := Validating(b.main[0]),
         tally := s.tally.(starts := s.tally.starts + 1))
    case Validate => s.(handler := Validated(s.done, s.handler.message))
    case Locate =>
      var m := s.handler.message;
      s.(handler := if EventOf(s.handler).source.path in s.dir.files then Scanning(m)
                    else Routing(m, ToDlq(m, SourceFileMissing)))
    case Scan =>
      var m := s.handler.message;
      s.(handler := if CsvSecurity.Scan(s.dir.files[EventOf(s.handler).source.path], cfg.fileLimit).issues == []
                    then Uploading(m, FanOut.Begin(|EventOf(s.handler).destinations|, cfg.concurrency))
                    else Routing(m, ToDlq(m, CsvSecurityCheckFailed)))
    case StartUpload(i) =>
      var path := EventOf(s.handler).source.path;
      var bytes := if path in s.dir.files then Some(s.dir.files[path]) else None;
      s.(handler := s.handler.(fan := FanOut.Start(s.handler.fan, i, bytes)))
    case EndUpload(i, fate) => ApplyEndUpload(s, i, fate)
    case Conclude => s.(handler := Concluded(cfg, s.handler.message, EventOf(s.handler), s.handler.fan).value)
    case Mark =>
      var e := EventOf(s.handler);
      s.(done := if e.idempotencyKey in s.done then s.done else s.done[e.idempotencyKey := e.correlationId],
         handler := Acking(s.handler.message, Success))
    case Send(delivery) => ApplySend(s, delivery)
    case Ack => s.(handler := Counting(s.handler.verdict), tally := s.tally.(acks := s.tally.acks + 1))
    case Count =>
      var v := s.handler.verdict;
      s.(tally := Bump(s.tally, v), handler := if v.DeadLettered? || v.Duplicate? then Totalling(v) else Idle)
    case Total =>
      s.(tally := if s.handler.verdict.DeadLettered? then s.tally.(dlqTotal := s.tally.dlqTotal + 1)
                  else s.tally.(hits := s.tally.hits + 1),
         handler := Idle)
    case Raise => Abandon(s)
    case Restart =>
      s.(broker := Requeue(s.broker, Current(s)).(connected := true),
         handler := Idle,
         tally := Interrupted(s.tally, s.handler, |Current(s)|))
  }

  /** A file is written and closed. */
  function Written(cfg: Config, s: State, path: string, content: Content): Directory {
    Directory(
      s.dir.files[path := content],
      if path in s.dir.files && s.dir.files[path] == content then s.dir.shadowed
      else if SettledFor(cfg, s, path, content) then s.dir.shadowed - {path}
      else s.dir.shadowed + {path})
  }

  /** What a crash of the process leaves uncounted. */
  function Interrupted(t: Tally, h: Handler, cut: nat): Tally {
    t.(cuts := t.cuts + cut,
       orphans := t.orphans + PendingDlq(h),
       uncounted := t.uncounted + (if h.Counting? then 1 else 0),
       missedDlq := t.missedDlq + (if h.Totalling? && h.verdict.DeadLettered? then 1 else 0),
       missedHits := t.missedHits + (if h.Totalling? && !h.verdict.DeadLettered? then 1 else 0))
  }

  /** _publish_with_reconnect: a publish that raises is tried once more on a fresh connection. */
  function ApplyPublish(s: State, delivery: Delivery): State
    requires s.watch.at.Publishing? && s.watch.at.build < |s.watch.builds|
  {
    var i := s.watch.at.build;
    var b := s.watch.builds[i];
    s.(broker := if delivery.Lost? then s.broker
                 else PutMain(s.broker, Event(b.event), Detected(i, b.path, b.content, b.event)),
       watch := s.watch.(at := if delivery.Confirmed? then Announcing(i)
                               else if s.watch.at.again then Waiting
                               else Publishing(i, true)))
  }

  function Validated(done: map<string, string>, m: Message): Handler {
    match m.payload
    case Garbled(_) => Routing(m, ToDlq(m, InvalidPayload))
    case Event(e) =>
      if !Supported(e) then Routing(m, ToDlq(m, UnsupportedSchemaVersion))
      else if e.idempotencyKey in done then Acking(m, Duplicate)
      else Locating(m)
  }

  function ApplyEndUpload(s: State, i: nat, fate: FanOut.Fate): State
    requires s.handler.Uploading? && HasEvent(s.handler) && FanOut.CanEnd(s.handler.fan, i, fate)
    requires i < |EventOf(s.handler).destinations|
  {
    var d := EventOf(s.handler).destinations[i];
    s.(objects := if FanOut.WritesTo(d.provider, fate) then s.objects[LocationOf(d) := s.handler.fan.slots[i].bytes.value]
                  else s.objects,
       handler := s.handler.(fan := FanOut.End(s.handler.fan, i, d.provider, fate)))
  }

  /** publish_retry, publish_dlq and _dead_letter_raw; a publish that raises leaves _handle. */
  function ApplySend(s: State, delivery: Delivery): State
    requires s.handler.Routing?
  {
    var route := s.handler.route;
    var sent := s.(broker := PutRoute(s.broker, s.now, route));
    match delivery
    case Confirmed => sent.(handler := Acking(s.handler.message, VerdictOf(route)))
    case Lost => Abandon(s)
    case Ambiguous =>
      var left := Abandon(sent);
      left.(tally := left.tally.(orphans := left.tally.orphans + if route.ToDlq? then 1 else 0))
  }

  // What a step leaves alone

  /** The world outside, and the watcher apart from its publishing. */
  predicate OutsideConsumer(step: Step) {
    || step.Write? || step.Remove? || step.Detect? || step.Tick?
    || step.Take? || step.BuildOk? || step.BuildFails? || step.CountPublished? || step.WatcherStops?
  }

  /** A publication onto the main queue. */
  predicate PutsMain(step: Step) {
    step.Inject? || step.Publish?
  }

  /** An effect inside _handle that moves no message. */
  predicate InsideHandler(step: Step) {
    || step.Validate? || step.Locate? || step.Scan? || step.StartUpload? || step.EndUpload? || step.Conclude?
    || step.Mark? || step.Ack? || step.Count? || step.Total?
  }

  lemma OutsideFrame(cfg: Config, s: State, step: Step)
    requires OutsideConsumer(step) && Enabled(cfg, s, step)
    ensures var t := Apply(cfg, s, step);
            && t.broker == s.broker && t.handler == s.handler && t.done == s.done
            && t.objects == s.objects && t.tally == s.tally && t.now == s.now + if step.Tick? then 1 else 0
  {
    hide WellFormed, BuildEvent;
  }

  /** No step of the consumer or the broker touches the files, the watcher or the record of publications. */
  lemma ConsumerFrame(cfg: Config, s: State, step: Step)
    requires !OutsideConsumer(step) && Enabled(cfg, s, step)
    ensures var t := Apply(cfg, s, step);
            && t.dir == s.dir && t.now == s.now
            && (!PutsMain(step) ==> t.watch == s.watch && t.broker.origins == s.broker.origins)
  {
    hide WellFormed, Concluded, Validated, CsvSecurity.Scan;
  }

  lemma HandlerFrame(cfg: Config, s: State, step: Step)
    requires InsideHandler(step) && Enabled(cfg, s, step)
    ensures var t := Apply(cfg, s, step);
            && t.broker == s.broker
            && InHand(t.handler) == (if step.Ack? then [] else InHand(s.handler))
            && (!step.Mark? ==> t.done == s.done)
            && (!step.EndUpload? ==> t.objects == s.objects)
            && t.tally.starts == s.tally.starts && t.tally.cuts == s.tally.cuts
            && (!step.Ack? && !step.Count? && !step.Total? ==> t.tally == s.tally)
  {
    hide WellFormed, CsvSecurity.Scan;
  }

  /** Where a step inside _handle takes the handler. */
  lemma HandlerMoves(cfg: Config, s: State, step: Step)
    requires InsideHandler(step) && Enabled(cfg, s, step)
    ensures var t, h, h' := Apply(cfg, s, step), s.handler, Apply(cfg, s, step).handler;
            match step
            case Validate => h.Validating? && h' == Validated(s.done, h.message)
            case Locate =>
              && h.Locating? && HasEvent(h)
              && h' == (if EventOf(h).source.path in s.dir.files then Scanning(h.message)
                        else Routing(h.message, ToDlq(h.message, SourceFileMissing)))
            case Scan =>
              && h.Scanning? && HasEvent(h) && EventOf(h).source.path in s.dir.files
              && !CsvSecurity.Scan(s.dir.files[EventOf(h).source.path], cfg.fileLimit).CsvError?
              && h' == (if CsvSecurity.Scan(s.dir.files[EventOf(h).source.path], cfg.fileLimit).issues == []
                        then Uploading(h.message, FanOut.Begin(|EventOf(h).destinations|, cfg.concurrency))
                        else Routing(h.message, ToDlq(h.message, CsvSecurityCheckFailed)))
            case StartUpload(i) =>
              && h.Uploading? && HasEvent(h) && FanOut.CanStart(h.fan, i)
              && h' == h.(fan := FanOut.Start(h.fan, i, var path := EventOf(h).source.path;
                                                       if path in s.dir.files then Some(s.dir.files[path]) else None))
            case EndUpload(i, fate) =>
              && h.Uploading? && HasEvent(h) && FanOut.CanEnd(h.fan, i, fate) && i < |EventOf(h).destinations|
              && t == ApplyEndUpload(s, i, fate)
            case Conclude =>
              && h.Uploading? && HasEvent(h) && FanOut.Finished(h.fan)
              && Concluded(cfg, h.message, EventOf(h), h.fan) == Some(h')
            case Mark =>
              && h.Marking? && HasEvent(h) && h' == Acking(h.message, Success)
              && t.done == (if EventOf(h).idempotencyKey in s.done then s.done
                            else s.done[EventOf(h).idempotencyKey := EventOf(h).correlationId])
            case Ack => h.Acking? && h' == Counting(h.verdict) && t.tally == s.tally.(acks := s.tally.acks + 1)
            case Count =>
              && h.Counting? && t.tally == Bump(s.tally, h.verdict)
              && h' == if h.verdict.DeadLettered? || h.verdict.Duplicate? then Totalling(h.verdict) else Idle
            case Total =>
              && h.Totalling? && h' == Idle
              && t.tally == if h.verdict.DeadLettered? then s.tally.(dlqTotal := s.tally.dlqTotal + 1)
                            else s.tally.(hits := s.tally.hits + 1)
            case _ => true
  {
    hide WellFormed, CsvSecurity.Scan, Concluded, Validated, ApplyEndUpload, FanOut.Begin, FanOut.Start, Bump;
  }

  /** The consumer, the destinations and all but the main queue are as before. */
  predicate SameConsumer(s: State, t: State) {
    && t.handler == s.handler && t.done == s.done && t.objects == s.objects && t.tally == s.tally && t.now == s.now
    && t.broker == s.broker.(main := t.broker.main, origins := t.broker.origins)
  }

  // Runs

  predicate Legal(cfg: Config, s: State, run: seq<Step>)
    decreases |run|, 0
  {
    run == [] || (var n := |run| - 1; Legal(cfg, s, run[..n]) && Enabled(cfg, Exec(cfg, s, run[..n]), run[n]))
  }

  /** The state after a legal run. */
  function Exec(cfg: Config, s: State, run: seq<Step>): State
    requires Legal(cfg, s, run)
    decreases |run|, 1
  {
    if run == [] then s
    else
      var n := |run| - 1;
      Apply(cfg, Exec(cfg, s, run[..n]), run[n])
  }

  /** Nothing is queued or under way. */
  predicate Quiet(s: State) {
    && s.watch.queue == []
    && s.watch.at.Waiting?
    && s.broker.main == []
    && s.broker.held == []
    && s.broker.retry == []
    && s.broker.connected
    && s.handler.Idle?
  }

  lemma Extend(cfg: Config, s: State, run: seq<Step>, step: Step)
    requires Legal(cfg, s, run) && Enabled(cfg, Exec(cfg, s, run), step)
    ensures Legal(cfg, s, run + [step])
    ensures Exec(cfg, s, run + [step]) == Apply(cfg, Exec(cfg, s, run), step)
  {
    assert (run + [step])[..|run|] == run;
  }

  lemma NoSteps(cfg: Config, s: State)
    ensures Legal(cfg, s, []) && Exec(cfg, s, []) == s
  {
  }

  lemma HasSteps(cfg: Config, run: seq<Step>)
    requires Legal(cfg, Init(), run) && Exec(cfg, Init(), run) != Init()
    ensures run != []
  {
    hide Apply, Enabled;
  }

  /** A run is its last step after the steps before. */
  lemma Previous(cfg: Config, run: seq<Step>)
    requires Legal(cfg, Init(), run) && run != []
    ensures var n := |run| - 1;
            && Legal(cfg, Init(), run[..n])
            && Enabled(cfg, Exec(cfg, Init(), run[..n]), run[n])
            && Exec(cfg, Init(), run) == Apply(cfg, Exec(cfg, Init(), run[..n]), run[n])
  {
    hide Apply, Enabled;
  }

  lemma {:induction false} Prefix(cfg: Config, s: State, run: seq<Step>, n: nat)
    requires Legal(cfg, s, run) && n <= |run|
    ensures Legal(cfg, s, run[..n])
    decreases |run|
  {
    if n < |run| {
      Prefix(cfg, s, run[..|run| - 1], n);
      assert run[..|run| - 1][..n] == run[..n];
    } else {
      assert run[..n] == run;
    }
  }

  lemma {:induction false} Concat(cfg: Config, s: State, a: seq<Step>, b: seq<Step>)
    requires Legal(cfg, s, a) && Legal(cfg, Exec(cfg, s, a), b)
    ensures Legal(cfg, s, a + b) && Exec(cfg, s, a + b) == Exec(cfg, Exec(cfg, s, a), b)
    decreases |b|
  {
    if b == [] {
      assert a + b == a;
    } else {
      var n := |b| - 1;
      Concat(cfg, s, a, b[..n]);
      assert (a + b)[..|a + b| - 1] == a + b[..n];
    }
  }
}
