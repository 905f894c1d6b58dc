/** The watcher thread (worker/src/watcher.py): the observer's callbacks, the loop over the detected paths and
    the publish with one reconnect, every effect recorded as a step of the protocol machine. */
module Watching {
  import opened Common
  import opened Schema
  import opened Detection
  import opened Protocol
  import opened Surroundings

  /** What the observer reports: a file or directory closed after writing, or moved within the directory. */
  datatype Notice = Closed(isDirectory: bool, path: string) | Moved(isDirectory: bool, from: string, to: string)

  /** The path a notice is about. */
  function Subject(notice: Notice): string {
    if notice.Closed? then notice.path else notice.to
  }

  /** What the environment decides about one turn of the loop: what the observer reports before it, whether the
      file can be read, the identifiers, how the first publish ends, and, should it raise, how the second one
      does; None where no second one is reached, because the exception is none of AMQP's or reconnecting fails. */
  datatype Turn = Turn(
    notices: seq<Notice>,
    readable: bool,
    eventId: string,
    correlationId: string,
    occurredAt: string,
    first: Delivery,
    again: Option<Delivery>)

  /** What a publish that is publication number `n` adds to the main queue. */
  function Arrived(event: TransferEvent, n: nat, delivery: Delivery): seq<Message> {
    if delivery.Lost? then [] else [Message(Event(event), n, 0)]
  }

  /** The same for a publish and, should it raise, its repetition. */
  function ArrivedTwice(event: TransferEvent, n: nat, first: Delivery, again: Option<Delivery>): seq<Message> {
    Arrived(event, n, first)
    + if first.Confirmed? || again.None? then [] else Arrived(event, n + |Arrived(event, n, first)|, again.value)
  }

  predicate Counted(first: Delivery, again: Option<Delivery>) {
    first.Confirmed? || again == Some(Confirmed)
  }

  /** The paths the observer puts on the queue. */
  function Paths(notices: seq<Notice>): seq<string> {
    if notices == [] then []
    else
      var n := |notices| - 1;
      Paths(notices[..n]) + if notices[n].isDirectory then [] else [Subject(notices[n])]
  }

  /** What a stretch of the loop comes to: the events built, their copies on the main queue, the events counted. */
  datatype Account = Account(builds: seq<Build>, sent: seq<Message>, counted: nat)

  const NOTHING: Account := Account([], [], 0)

  function Plus(a: Account, b: Account): Account {
    Account(a.builds + b.builds, a.sent + b.sent, a.counted + b.counted)
  }

  function EventOfTurn(cfg: Config, path: string, content: Content, turn: Turn): TransferEvent {
    BuildEvent(cfg, path, content, turn.eventId, turn.correlationId, turn.occurredAt)
  }

  /** The path is a file that can be read, and its event passes the validators of TransferEvent. */
  predicate Builds(cfg: Config, files: map<string, Content>, path: string, turn: Turn) {
    path in files && turn.readable && WellFormed(cfg.validators, EventOfTurn(cfg, path, files[path], turn))
  }

  /** One path, the next publication being number `n`. */
  function AccountOfPath(cfg: Config, files: map<string, Content>, path: string, turn: Turn, n: nat): Account {
    if Builds(cfg, files, path, turn) then
      var event := EventOfTurn(cfg, path, files[path], turn);
      Account([Build(path, files[path], event)],
              ArrivedTwice(event, n, turn.first, turn.again),
              if Counted(turn.first, turn.again) then 1 else 0)
    else NOTHING
  }

  /** An exception leaves the loop: the first publish raised and there was no second one. */
  predicate LeavesLoop(cfg: Config, files: map<string, Content>, path: string, turn: Turn) {
    Builds(cfg, files, path, turn) && !turn.first.Confirmed? && turn.again.None?
  }

  /** One turn of the loop: the oldest path that waits is taken. */
  datatype TurnResult = TurnResult(account: Account, queue: seq<string>, raised: bool)

  function ResultOfTurn(cfg: Config, files: map<string, Content>, queue: seq<string>, turn: Turn, n: nat): TurnResult {
    var waiting := queue + Paths(turn.notices);
    if waiting == [] then TurnResult(NOTHING, [], false)
    else
      var path := waiting[0];
      TurnResult(AccountOfPath(cfg, files, path, turn, n), waiting[1..], LeavesLoop(cfg, files, path, turn))
  }

  /** Some turns, until an exception leaves the loop. */
  function AccountOf(cfg: Config, files: map<string, Content>, queue: seq<string>, turns: seq<Turn>, n: nat): Account
    decreases |turns|
  {
    if turns == [] then NOTHING
    else
      var one := ResultOfTurn(cfg, files, queue, turns[0], n);
      if one.raised then one.account
      else Plus(one.account, AccountOf(cfg, files, one.queue, turns[1..], n + |one.account.sent|))
  }

  /** The copies lie between the events counted and twice the events built. */
  lemma {:induction false} AccountBounds(cfg: Config, files: map<string, Content>, queue: seq<string>,
                                         turns: seq<Turn>, n: nat)
    ensures var a := AccountOf(cfg, files, queue, turns, n); a.counted <= |a.sent| <= 2 * |a.builds|
    decreases |turns|
  {
    hide Paths, Builds, EventOfTurn, AccountOfPath, LeavesLoop;
    if turns != [] {
      OnePathBounds(cfg, files, queue, turns[0], n);
      var one := ResultOfTurn(cfg, files, queue, turns[0], n);
      AccountBounds(cfg, files, one.queue, turns[1..], n + |one.account.sent|);
    }
  }

  lemma OnePathBounds(cfg: Config, files: map<string, Content>, queue: seq<string>, turn: Turn, n: nat)
    ensures var a := ResultOfTurn(cfg, files, queue, turn, n).account; a.counted <= |a.sent| <= 2 * |a.builds|
  {
    hide Paths, Builds, EventOfTurn, LeavesLoop;
  }

  lemma PlusAssociates(a: Account, b: Account, c: Account)
    ensures Plus(Plus(a, b), c) == Plus(a, Plus(b, c)) && Plus(NOTHING, a) == a == Plus(a, NOTHING)
  {
    assert a.builds + b.builds + c.builds == a.builds + (b.builds + c.builds);
    assert a.sent + b.sent + c.sent == a.sent + (b.sent + c.sent);
    assert [] + a.builds == a.builds && a.builds + [] == a.builds && [] + a.sent == a.sent && a.sent + [] == a.sent;
  }

  lemma Taking(cfg: Config, s: State)
    requires s.watch.at.Waiting? && s.watch.queue != []
    ensures Enabled(cfg, s, Take)
    ensures Apply(cfg, s, Take)
         == s.(watch := s.watch.(queue := s.watch.queue[1..],
                                 at := if s.watch.queue[0] in s.dir.files then Found(s.watch.queue[0]) else Waiting))
  {
  }

  lemma Failing(cfg: Config, s: State)
    requires s.watch.at.Found?
    ensures Enabled(cfg, s, BuildFails) && Apply(cfg, s, BuildFails) == s.(watch := s.watch.(at := Waiting))
  {
  }

  lemma Building(cfg: Config, s: State, turn: Turn)
    requires s.watch.at.Found? && Builds(cfg, s.dir.files, s.watch.at.path, turn)
    ensures var step := BuildOk(turn.eventId, turn.correlationId, turn.occurredAt);
            var build := Build(s.watch.at.path, s.dir.files[s.watch.at.path],
                               EventOfTurn(cfg, s.watch.at.path, s.dir.files[s.watch.at.path], turn));
            && Enabled(cfg, s, step)
            && Apply(cfg, s, step)
               == s.(watch := s.watch.(builds := s.watch.builds + [build], at := Publishing(|s.watch.builds|, false)))
  {
    hide WellFormed, BuildEvent;
  }

  class FileWatcher {
    const world: World
    var queue: seq<string>
    var published: nat                   // events_published_total

    ghost predicate Valid()
      reads this, world
    {
      && world.Valid()
      && queue == world.state.watch.queue
      && published == world.state.watch.published
    }

    constructor (world: World)
      requires world.Valid() && world.state == Init()
      ensures Valid() && this.world == world
    {
      this.world := world;
      queue, published := [], 0;
    }

    /** on_closed */
    method OnClosed(isDirectory: bool, path: string)
      requires Valid() && InWatchDir(world.cfg, path)
      modifies world`state, world`trace, this`queue
      ensures Valid() && queue == old(queue) + if isDirectory then [] else [path]
      ensures world.state == old(world.state).(watch := old(world.state).watch.(queue := queue))
      ensures old(world.trace) <= world.trace
    {
      hide World.Valid;
      if isDirectory {
        return;
      }
      queue := queue + [path];
      world.Watch(Detect(path));
    }

    /** on_moved */
    method OnMoved(isDirectory: bool, from: string, to: string)
      requires Valid() && InWatchDir(world.cfg, to)
      modifies world`state, world`trace, this`queue
      ensures Valid() && queue == old(queue) + if isDirectory then [] else [to]
      ensures world.state == old(world.state).(watch := old(world.state).watch.(queue := queue))
      ensures old(world.trace) <= world.trace
    {
      hide World.Valid;
      if isDirectory {
        return;
      }
      queue := queue + [to];
      world.Watch(Detect(to));
    }

    /** _publish_with_reconnect: one or two copies or none at all may end up on the main queue, the first of
        them before the second; the event is counted once, and only if a publish was confirmed. */
    method PublishWithReconnect(event: TransferEvent, first: Delivery, again: Option<Delivery>) returns (raised: bool)
      requires Valid() && world.state.watch.at.Publishing? && !world.state.watch.at.again
      requires world.state.watch.at.build < |world.state.watch.builds|
      requires world.state.watch.builds[world.state.watch.at.build].event == event
      modifies world, this
      ensures Valid() && old(world.trace) <= world.trace
      ensures SameConsumer(old(world.state), world.state)
      ensures raised <==> !first.Confirmed? && again.None?
      ensures !raised ==> world.state.watch.at.Waiting?
      ensures queue == old(queue) && world.files == old(world.files)
      ensures world.state.watch.builds == old(world.state).watch.builds
      ensures published == old(published) + if Counted(first, again) then 1 else 0
      ensures world.main == old(world.main) + ArrivedTwice(event, old(world.publications), first, again)
      ensures world.publications == old(world.publications) + |ArrivedTwice(event, old(world.publications), first, again)|
    {
      hide World.Valid;
      raised := PublishOnce(event, first);
      if !raised {
        return;
      }
      if again.None? {
        return;
      }
      var failed := PublishOnce(event, again.value);
      raised := false;
    }

    /** publish_event, and the counter if it returns. */
    method PublishOnce(event: TransferEvent, delivery: Delivery) returns (raised: bool)
      requires Valid() && world.state.watch.at.Publishing?
      requires world.state.watch.at.build < |world.state.watch.builds|
      requires world.state.watch.builds[world.state.watch.at.build].event == event
      modifies world, this
      ensures Valid() && old(world.trace) <= world.trace
      ensures SameConsumer(old(world.state), world.state)
      ensures raised <==> !delivery.Confirmed?
      ensures world.state.watch.at == if raised && !old(world.state).watch.at.again
                                      then Publishing(old(world.state).watch.at.build, true) else Waiting
      ensures queue == old(queue) && world.files == old(world.files)
      ensures world.state.watch.builds == old(world.state).watch.builds
      ensures published == old(published) + if raised then 0 else 1
      ensures world.main == old(world.main) + Arrived(event, old(world.publications), delivery)
      ensures world.publications == old(world.publications) + |Arrived(event, old(world.publications), delivery)|
    {
      raised := world.PublishMain(event, world.state.watch.at.build, delivery);
      if !raised {
        published := published + 1;
        world.Watch(CountPublished);
      }
    }

    /** What has been entered since an earlier point. */
    ghost predicate Entered(builds: seq<Build>, main: seq<Message>, publications: nat, before: nat, a: Account)
      reads this, world
    {
      && world.state.watch.builds == builds + a.builds
      && world.main == main + a.sent
      && world.publications == publications + |a.sent|
      && published == before + a.counted
    }

    /** One path off the queue: nothing happens unless it is a file whose event can be built, and then the event
        of its present content is published. */
    method HandlePath(turn: Turn) returns (raised: bool)
      requires Valid() && world.state.watch.at.Waiting? && queue != []
      modifies world, this
      ensures Valid() && old(world.trace) <= world.trace
      ensures SameConsumer(old(world.state), world.state)
      ensures raised == LeavesLoop(world.cfg, old(world.files), old(queue)[0], turn)
      ensures !raised ==> world.state.watch.at.Waiting?
      ensures queue == old(queue)[1..] && world.files == old(world.files)
      ensures Entered(old(world.state).watch.builds, old(world.main), old(world.publications), old(published),
                      AccountOfPath(world.cfg, world.files, old(queue)[0], turn, old(world.publications)))
    {
      hide World.Valid, Apply, Enabled, BuildEvent, WellFormed;
      var path := queue[0];
      queue := queue[1..];
      SeesDisk();
      Taking(world.cfg, world.state);
      world.Watch(Take);
      if path !in world.files {
        return false;
      }
      if !turn.readable || !Builds(world.cfg, world.files, path, turn) {
        Failing(world.cfg, world.state);
        world.Watch(BuildFails);
        return false;
      }
      var event := EventOfTurn(world.cfg, path, world.files[path], turn);
      SeesDisk();
      Building(world.cfg, world.state, turn);
      world.Watch(BuildOk(turn.eventId, turn.correlationId, turn.occurredAt));
      raised := PublishWithReconnect(event, turn.first, turn.again);
    }

    /** The observer reports to the queue. */
    method Notify(notices: seq<Notice>)
      requires Valid() && forall n :: n in notices ==> InWatchDir(world.cfg, Subject(n))
      modifies world`state, world`trace, this`queue
      ensures Valid() && old(world.trace) <= world.trace
      ensures queue == old(queue) + Paths(notices)
      ensures world.state == old(world.state).(watch := old(world.state).watch.(queue := queue))
    {
      hide World.Valid;
      for i := 0 to |notices|
        invariant Valid() && old(world.trace) <= world.trace && queue == old(queue) + Paths(notices[..i])
        invariant world.state == old(world.state).(watch := old(world.state).watch.(queue := queue))
      {
        assert InWatchDir(world.cfg, Subject(notices[i]));
        assert notices[..i + 1][..i] == notices[..i];
        match notices[i] {
          case Closed(isDirectory, path) => OnClosed(isDirectory, path);
          case Moved(isDirectory, from, to) => OnMoved(isDirectory, from, to);
        }
      }
      assert notices[..|notices|] == notices;
    }

    /** One turn of the loop. */
    method TakeTurn(turn: Turn) returns (raised: bool)
      requires Valid() && world.state.watch.at.Waiting?
      requires forall n :: n in turn.notices ==> InWatchDir(world.cfg, Subject(n))
      modifies world, this
      ensures Valid() && old(world.trace) <= world.trace && world.files == old(world.files)
      ensures SameConsumer(old(world.state), world.state)
      ensures !raised ==> world.state.watch.at.Waiting?
      ensures var one := ResultOfTurn(world.cfg, world.files, old(queue), turn, old(world.publications));
              && raised == one.raised && queue == one.queue
              && Entered(old(world.state).watch.builds, old(world.main), old(world.publications), old(published), one.account)
    {
      hide World.Valid, AccountOfPath, LeavesLoop, Paths, SameConsumer;
      ghost var start := world.state;
      SeesMain();
      Notify(turn.notices);
      NotifiedOnly(start, world.state, queue);
      SeesMain();
      raised := false;
      if queue != [] {
        ghost var middle := world.state;
        raised := HandlePath(turn);
        SameOverall(start, middle, world.state);
      }
    }

    /** run_watcher: turns of the loop until the stop event or an exception that leaves it; what is still on the
        queue is gone then. */
    method Run(turns: seq<Turn>)
      requires Valid() && world.state.watch.at.Waiting?
      requires forall i, n :: 0 <= i < |turns| && n in turns[i].notices ==> InWatchDir(world.cfg, Subject(n))
      modifies world, this
      ensures Valid() && world.state.watch.at.Waiting? && queue == []
      ensures old(world.trace) <= world.trace && world.files == old(world.files)
      ensures SameConsumer(old(world.state), world.state)
      ensures Entered(old(world.state).watch.builds, old(world.main), old(world.publications), old(published),
                      AccountOf(world.cfg, world.files, old(queue), turns, old(world.publications)))
    {
      hide World.Valid, ResultOfTurn, SameConsumer, AccountOf, Plus;
      ghost var start, publications, before := world.state, world.publications, published;
      ghost var whole := AccountOf(world.cfg, world.files, queue, turns, publications);
      ghost var done := NOTHING;
      PlusAssociates(whole, whole, whole);
      assert turns[0..] == turns;
      SameAsBefore(start);
      SeesMain();
      for i := 0 to |turns|
        invariant Valid() && world.state.watch.at.Waiting?
        invariant old(world.trace) <= world.trace && world.files == old(world.files)
        invariant SameConsumer(start, world.state)
        invariant Entered(start.watch.builds, start.broker.main, publications, before, done)
        invariant whole == Plus(done, AccountOf(world.cfg, world.files, queue, turns[i..], world.publications))
      {
        ghost var middle, n, counted := world.state, world.publications, published;
        ghost var one := ResultOfTurn(world.cfg, world.files, queue, turns[i], n);
        NextTurn(world.cfg, world.files, queue, turns, i, n, done);
        SeesMain();
        var raised := TakeTurn(turns[i]);
        SameOverall(start, middle, world.state);
        EnterMore(start, publications, before, done, middle, n, counted, one.account);
        done := Plus(done, one.account);
        if raised {
          break;
        }
      }
      NoMoreTurns(world.cfg, world.files, queue, turns, world.publications, done);
      Stop();
    }

    lemma EnterMore(start: State, publications: nat, before: nat, done: Account,
                    middle: State, n: nat, counted: nat, one: Account)
      requires middle.watch.builds == start.watch.builds + done.builds && middle.broker.main == start.broker.main + done.sent
      requires n == publications + |done.sent| && counted == before + done.counted
      requires Entered(middle.watch.builds, middle.broker.main, n, counted, one)
      ensures Entered(start.watch.builds, start.broker.main, publications, before, Plus(done, one))
    {
    }

    /** What is still on the queue is gone. */
    method Stop()
      requires Valid()
      modifies world`state, world`trace, this`queue
      ensures Valid() && world.state.watch.at.Waiting? && queue == [] && old(world.trace) <= world.trace
      ensures world.state.watch.builds == old(world.state).watch.builds
      ensures forall s :: SameConsumer(s, old(world.state)) ==> SameConsumer(s, world.state)
    {
      hide World.Valid;
      queue := [];
      world.Watch(WatcherStops);
    }

    lemma SeesMain()
      requires world.Valid()
      ensures world.main == world.state.broker.main && world.publications == |world.state.broker.origins|
    {
    }

    lemma SeesDisk()
      requires world.Valid()
      ensures world.files == world.state.dir.files
    {
    }
  }

  lemma NextTurn(cfg: Config, files: map<string, Content>, queue: seq<string>, turns: seq<Turn>, i: nat, n: nat,
                 done: Account)
    requires i < |turns|
    ensures var one := ResultOfTurn(cfg, files, queue, turns[i], n);
            Plus(done, AccountOf(cfg, files, queue, turns[i..], n))
            == if one.raised then Plus(done, one.account)
               else Plus(Plus(done, one.account), AccountOf(cfg, files, one.queue, turns[i + 1..], n + |one.account.sent|))
  {
    hide ResultOfTurn;
    assert turns[i..][1..] == turns[i + 1..];
    var one := ResultOfTurn(cfg, files, queue, turns[i], n);
    PlusAssociates(done, one.account, AccountOf(cfg, files, one.queue, turns[i + 1..], n + |one.account.sent|));
  }

  lemma NoMoreTurns(cfg: Config, files: map<string, Content>, queue: seq<string>, turns: seq<Turn>, n: nat, done: Account)
    ensures Plus(done, AccountOf(cfg, files, queue, turns[|turns|..], n)) == done
  {
    PlusAssociates(done, done, done);
  }

  lemma SameAsBefore(s: State)
    ensures SameConsumer(s, s)
  {
  }

  lemma SameOverall(s: State, t: State, u: State)
    requires SameConsumer(s, t) && SameConsumer(t, u)
    ensures SameConsumer(s, u)
  {
  }

  lemma NotifiedOnly(s: State, t: State, queue: seq<string>)
    requires t == s.(watch := s.watch.(queue := queue))
    ensures SameConsumer(s, t)
  {
  }
}
