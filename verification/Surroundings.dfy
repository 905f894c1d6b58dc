/** The broker, the watched directory and the destinations as objects whose fields change, and the record that
    every change is a step of the protocol machine. */
module Surroundings {
  import opened Common
  import opened Schema
  import opened Detection
  import opened Protocol
  import FanOut

  class World {
    const cfg: Config
    // the directory and the destinations
    var files: map<string, Content>
    var objects: map<Location, Content>
    // RabbitMQ: orders.inbound, its delivered but unacked messages, the retry queue and the DLQ
    var main: seq<Message>
    var unacked: seq<Message>
    var retry: seq<Delayed>
    var dlq: seq<DeadLetter>
    var connected: bool
    var now: nat
    var publications: nat                // messages ever put on orders.inbound by a publisher
    // the machine's view of everything, and the steps that led there
    ghost var state: State
    ghost var trace: seq<Step>

    /** Nothing has happened here that is not a run of the machine. */
    ghost predicate Recorded()
      reads this`state, this`trace
    {
      Legal(cfg, Init(), trace) && Exec(cfg, Init(), trace) == state
    }

    ghost predicate Mirrors()
      reads this
    {
      && files == state.dir.files
      && objects == state.objects
      && main == state.broker.main
      && unacked == state.broker.held + Current(state)
      && retry == state.broker.retry
      && dlq == state.broker.dlq
      && connected == state.broker.connected
      && now == state.now
      && publications == |state.broker.origins|
    }

    ghost predicate Valid()
      reads this
    {
      Recorded() && Mirrors()
    }

    constructor (cfg: Config)
      ensures Valid() && this.cfg == cfg && state == Init() && trace == []
    {
      this.cfg := cfg;
      files, objects := map[], map[];
      main, unacked, retry, dlq, connected, now, publications := [], [], [], [], true, 0, 0;
      state, trace := Init(), [];
    }

    /** Records one step. */
    ghost method Advance(step: Step)
      requires Recorded() && Enabled(cfg, state, step)
      modifies this`state, this`trace
      ensures Recorded() && state == Apply(cfg, old(state), step) && trace == old(trace) + [step]
    {
      hide Apply, Enabled;
      Extend(cfg, Init(), trace, step);
      state, trace := Apply(cfg, state, step), trace + [step];
    }

    /** Records a step of a handler that changes nothing outside the consumer. */
    ghost method Think(step: Step)
      requires Valid() && Enabled(cfg, state, step)
      requires InsideHandler(step) && !step.EndUpload? && !step.Ack?
      modifies this`state, this`trace
      ensures Valid() && state == Apply(cfg, old(state), step) && trace == old(trace) + [step]
    {
      hide Apply, Enabled, Recorded;
      HandlerFrame(cfg, state, step);
      ConsumerFrame(cfg, state, step);
      Advance(step);
    }

    /** Records that the handler raised: its message simply stays unacked. */
    ghost method Leave()
      requires Valid() && Enabled(cfg, state, Raise)
      modifies this`state, this`trace
      ensures Valid() && state == Apply(cfg, old(state), Raise) && trace == old(trace) + [Raise]
    {
      Advance(Raise);
    }

    /** Records a step of the watcher's thread that changes nothing outside it. */
    ghost method Watch(step: Step)
      requires Valid() && Enabled(cfg, state, step)
      requires || step.Detect? || step.Take? || step.BuildOk? || step.BuildFails? || step.CountPublished?
               || step.WatcherStops?
      modifies this`state, this`trace
      ensures Valid() && state == Apply(cfg, old(state), step) && trace == old(trace) + [step]
    {
      hide WellFormed, BuildEvent, Recorded;
      OutsideFrame(cfg, state, step);
      Advance(step);
    }

    // The environment

    /** A file is written and closed. */
    method WriteFile(path: string, content: Content)
      requires Valid() && InWatchDir(cfg, path)
      modifies this`files, this`state, this`trace
      ensures Valid() && state == Apply(cfg, old(state), Write(path, content))
      ensures trace == old(trace) + [Write(path, content)]
      ensures files == old(files)[path := content]
    {
      hide Recorded, SettledFor;
      files := files[path := content];
      Advance(Write(path, content));
    }

    method RemoveFile(path: string)
      requires Valid()
      modifies this`files, this`state, this`trace
      ensures Valid() && state == Apply(cfg, old(state), Remove(path)) && trace == old(trace) + [Remove(path)]
      ensures files == old(files) - {path}
    {
      hide Recorded;
      files := files - {path};
      Advance(Remove(path));
    }

    /** Somebody else publishes to orders.inbound. */
    method Receive(payload: Payload)
      requires Valid() && Enabled(cfg, state, Inject(payload))
      modifies this
      ensures Valid() && state == Apply(cfg, old(state), Inject(payload)) && trace == old(trace) + [Inject(payload)]
      ensures main == old(main) + [Message(payload, old(publications), 0)] && unacked == old(unacked)
    {
      hide Recorded, WellFormed;
      main, publications := main + [Message(payload, publications, 0)], publications + 1;
      Advance(Inject(payload));
    }

    method Wait()
      requires Valid()
      modifies this`now, this`state, this`trace
      ensures Valid() && state == Apply(cfg, old(state), Tick) && trace == old(trace) + [Tick]
      ensures now == old(now) + 1
    {
      hide Recorded;
      now := now + 1;
      Advance(Tick);
    }

    /** The TTL of the head of the retry queue runs out: RabbitMQ dead-letters it to orders.inbound. */
    method ExpireHead()
      requires Valid() && retry != [] && retry[0].deadline <= now
      modifies this
      ensures Valid() && state == Apply(cfg, old(state), Expire) && trace == old(trace) + [Expire]
      ensures main == old(main) + [old(retry)[0].message] && retry == old(retry)[1..] && unacked == old(unacked)
    {
      hide Recorded;
      main, retry := main + [retry[0].message], retry[1..];
      Advance(Expire);
    }

    /** The connection is lost: whatever is unacked goes back to the front of the queue. */
    method LoseConnection()
      requires Valid() && connected
      modifies this
      ensures Valid() && state == Apply(cfg, old(state), Disconnect) && trace == old(trace) + [Disconnect]
      ensures main == old(unacked) + old(main) && unacked == [] && !connected
    {
      hide Recorded;
      main, unacked, connected := unacked + main, [], false;
      Advance(Disconnect);
      assert state.broker.held + Current(state) == [];
    }

    /** The process comes up again with a connection of its own. */
    method RestartProcess()
      requires Valid()
      modifies this
      ensures Valid() && state == Apply(cfg, old(state), Restart) && trace == old(trace) + [Restart]
      ensures main == old(unacked) + old(main) && unacked == [] && connected
    {
      hide Recorded;
      main, unacked, connected := unacked + main, [], true;
      Advance(Restart);
      assert state.broker.held + Current(state) == [];
    }

    // Publishing

    /** basic_publish to the main queue; a publish that raises may have queued the message. */
    method PublishMain(event: TransferEvent, ghost build: nat, delivery: Delivery) returns (raised: bool)
      requires Valid() && state.watch.at.Publishing? && state.watch.at.build == build < |state.watch.builds|
      requires state.watch.builds[build].event == event
      modifies this
      ensures Valid() && state == Apply(cfg, old(state), Publish(delivery)) && trace == old(trace) + [Publish(delivery)]
      ensures raised <==> !delivery.Confirmed?
      ensures main == old(main) + if delivery.Lost? then [] else [Message(Event(event), old(publications), 0)]
      ensures publications == old(publications) + (if delivery.Lost? then 0 else 1) && files == old(files)
    {
      hide Recorded;
      if !delivery.Lost? {
        main := main + [Message(Event(event), publications, 0)];
        publications := publications + 1;
      }
      Advance(Publish(delivery));
      raised := !delivery.Confirmed?;
    }

    /** basic_publish to the retry queue with a per-message TTL. */
    method PublishRetry(copy: Message, delay: nat, delivery: Delivery) returns (raised: bool)
      requires Valid() && state.handler.Routing? && state.handler.route == ToRetry(copy, delay)
      requires connected || delivery.Lost?
      modifies this
      ensures Valid() && state == Apply(cfg, old(state), Send(delivery)) && trace == old(trace) + [Send(delivery)]
      ensures raised <==> !delivery.Confirmed?
      ensures unacked == old(unacked) && dlq == old(dlq)
      ensures retry == old(retry) + if delivery.Lost? then [] else [OnRetryQueue(old(retry), old(now), copy, delay)]
    {
      hide Recorded, MaxDeadline;
      if !delivery.Lost? {
        retry := retry + [OnRetryQueue(retry, now, copy, delay)];
      }
      Advance(Send(delivery));
      raised := !delivery.Confirmed?;
    }

    /** basic_publish to the dead-letter queue. */
    method PublishDlq(copy: Message, reason: Reason, delivery: Delivery) returns (raised: bool)
      requires Valid() && state.handler.Routing? && state.handler.route == ToDlq(copy, reason)
      requires connected || delivery.Lost?
      modifies this
      ensures Valid() && state == Apply(cfg, old(state), Send(delivery)) && trace == old(trace) + [Send(delivery)]
      ensures raised <==> !delivery.Confirmed?
      ensures unacked == old(unacked) && retry == old(retry)
      ensures dlq == old(dlq) + if delivery.Lost? then [] else [DeadLetter(copy, reason)]
    {
      hide Recorded;
      if !delivery.Lost? {
        dlq := dlq + [DeadLetter(copy, reason)];
      }
      Advance(Send(delivery));
      raised := !delivery.Confirmed?;
    }

    // Consuming

    /** The broker hands the head of the queue to the consumer. */
    method Next() returns (m: Message)
      requires Valid() && Enabled(cfg, state, Deliver)
      modifies this
      ensures Valid() && state == Apply(cfg, old(state), Deliver) && trace == old(trace) + [Deliver]
      ensures old(main) == [m] + main && unacked == old(unacked) + [m]
    {
      hide Recorded;
      m := main[0];
      main, unacked := main[1..], unacked + [m];
      Advance(Deliver);
    }

    /** basic_ack of the message in hand; on a connection already lost it goes nowhere. */
    method BasicAck()
      requires Valid() && state.handler.Acking?
      modifies this
      ensures Valid() && state == Apply(cfg, old(state), Ack) && trace == old(trace) + [Ack]
      ensures connected == old(connected) && (connected ==> unacked + [old(state).handler.message] == old(unacked))
    {
      hide Recorded;
      if connected {
        unacked := unacked[..|unacked| - 1];
      }
      Advance(Ack);
      assert connected ==> old(unacked) == old(state).broker.held + [old(state).handler.message];
    }

    // Uploading

    /** One upload ends; the object is written as its fate says. */
    method FinishUpload(d: Destination, i: nat, bytes: Option<Content>, fate: FanOut.Fate) returns (r: FanOut.UploadResult)
      requires Valid() && Enabled(cfg, state, EndUpload(i, fate))
      requires EventOf(state.handler).destinations[i] == d && state.handler.fan.slots[i] == FanOut.Running(bytes)
      modifies this
      ensures Valid() && state == Apply(cfg, old(state), EndUpload(i, fate)) && trace == old(trace) + [EndUpload(i, fate)]
      ensures r == FanOut.ResultOf(d.provider, fate)
      ensures objects ==
              if bytes.Some? && (d.provider == "aws-s3" || d.provider == "gcp-gcs") && (fate.Succeeds? || fate.wrote)
              then old(objects)[Location(d.provider, d.bucket, d.key) := bytes.value]
              else old(objects)
    {
      hide Recorded;
      if FanOut.WritesTo(d.provider, fate) {
        objects := objects[LocationOf(d) := bytes.value];
      }
      r := FanOut.ResultOf(d.provider, fate);
      Advance(EndUpload(i, fate));
    }
  }
}
