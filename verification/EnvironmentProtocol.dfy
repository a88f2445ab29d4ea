/**
 * The life of environments as a transition system: the welcome thread with its map of environments,
 * and one synchronization thread per environment ever created, interleaved step by step.
 *
 * An environment is identified by its generation, its index among all environments ever created.
 * Sockets are identified by the order in which the welcome thread took them in.
 */
module EnvironmentProtocol {
  import opened Runs
  import opened Outcomes

  // ----- one environment and its thread -----

  /** One event reported by `epoll_wait`. */
  datatype Ready = AddListener | DropRequested | Client(socket: nat, hungUp: bool)

  datatype Why = LastSocketLeft | Failed | DroppedByOwner

  datatype EnvPc =
    | Starting                                 // allocator, epoll and the two special registrations
    | LoopHead
    | InWait                                   // blocked in epoll_wait
    | Handling(rest: seq<Ready>)               // events of the batch still to be handled
    | Reading(rest: seq<Ready>)                // add_listener: before reading the event
    | Draining(rest: seq<Ready>)               // add_listener: the try_recv loop
    | Responding(ok: bool, rest: seq<Ready>)   // before sending the answer
    | Sending(why: Why)                        // announce_env_close: before sending the name
    | Writing(why: Why)                        // announce_env_close: between send and event write
    | Leaving(why: Why)                        // left the loop, channel ends still alive
    | Ended(why: Why)
    | Panicked                                 // unwrapped TryRecvError::Disconnected

  datatype Env = Env(
    name: string,
    pc: EnvPc,
    addEvent: nat,            // eventfd counters
    dropEvent: nat,
    addQueue: seq<nat>,       // add_listener channel: sockets handed over
    responses: seq<bool>,     // sync_response channel
    sockets: set<nat>,
    ownerEnds: bool,          // the owner's ends of both channels still exist
    registered: set<nat>,     // history: every socket this thread has registered
    gone: set<nat>,           // history: every socket whose hang-up it has handled
    announced: nat,           // history: how often it has announced its closing
    lateWaits: nat)           // history: epoll waits begun after the drop event was written

  function NewEnv(name: string): Env {
    Env(name, Starting, 0, 0, [], [], {}, true, {}, {}, 0, 0)
  }

  /** How a step with an outside outcome goes. */
  datatype EnvChoice = Go | Fail | Events(batch: seq<Ready>)

  /**
   * What a level-triggered wait reports: both special events exactly when their counters are
   * positive, at most once each, and clients among those ever registered. (A client's descriptor may
   * be reported once more after its removal, as long as the welcome thread holds its duplicate.)
   */
  predicate ValidBatch(e: Env, batch: seq<Ready>) {
    && batch != [] && |batch| <= |e.sockets| + 2
    && (AddListener in batch <==> e.addEvent > 0)
    && (DropRequested in batch <==> e.dropEvent > 0)
    && (forall i :: 0 <= i < |batch| && batch[i].Client? ==> batch[i].socket in e.registered)
    && (forall i, j :: 0 <= i < j < |batch| && batch[i] == batch[j] ==> batch[i].Client?)
  }

  predicate EnvEnabled(e: Env, c: EnvChoice) {
    match e.pc
    case Ended(_) => false
    case Panicked => false
    case Starting => c.Go? || c.Fail?
    case InWait => c.Fail? || (c.Events? && ValidBatch(e, c.batch))
    case Draining(_) => c.Go? || (c.Fail? && e.addQueue != [])
    case _ => c.Go?
  }

  /** The event handler for everything but `add_listener`, which takes steps of its own. */
  function Handle(e: Env, event: Ready, rest: seq<Ready>): Env {
    match event
    case AddListener => e.(pc := Reading(rest))
    case DropRequested => e.(dropEvent := 0, pc := Leaving(DroppedByOwner))
    case Client(s, false) => e.(pc := Handling(rest))
    case Client(s, true) =>
      var left := e.sockets - {s};
      e.(sockets := left, gone := e.gone + {s},
         pc := if left == {} then Sending(LastSocketLeft) else Handling(rest))
  }

  /** A step of the thread as far as it concerns its own environment. */
  function EnvStep(e: Env, c: EnvChoice): Env
    requires EnvEnabled(e, c)
  {
    match e.pc
    case Starting => e.(pc := if c.Go? then LoopHead else Sending(Failed))
    case LoopHead => e.(pc := InWait, lateWaits := e.lateWaits + if e.dropEvent > 0 then 1 else 0)
    case InWait => e.(pc := if c.Fail? then Sending(Failed) else Handling(c.batch))
    case Handling(rest) => if rest == [] then e.(pc := LoopHead) else Handle(e, rest[0], rest[1..])
    case Reading(rest) => e.(addEvent := 0, pc := Draining(rest))
    case Draining(rest) =>
      if e.addQueue == [] then e.(pc := if e.ownerEnds then Responding(true, rest) else Panicked)
      else if c.Fail? then e.(addQueue := e.addQueue[1..], pc := Responding(false, rest))
      else
        var s := e.addQueue[0];
        e.(addQueue := e.addQueue[1..], sockets := e.sockets + {s}, registered := e.registered + {s})
    case Responding(ok, rest) =>
      e.(responses := if e.ownerEnds then e.responses + [ok] else e.responses, pc := Handling(rest))
    case Sending(why) => e.(announced := e.announced + 1, pc := Writing(why))
    case Writing(why) => e.(pc := Leaving(why))
    case Leaving(why) => e.(addQueue := [], pc := Ended(why))
    case _ => e
  }

  // ----- the welcome thread -----

  /** What the welcome thread was doing when it dropped an environment. */
  datatype Then = BackToDrain(clientWaits: bool) | BackToPoll | BackToTeardown

  datatype WelcomePc =
    | Polling
    | ReadingClose(clientWaits: bool)
    | DrainingClose(clientWaits: bool)
    | Accepting
    | Opening(name: string)
    | InsertSend(gen: nat, socket: nat, isNew: bool)
    | InsertWrite(gen: nat, socket: nat, isNew: bool)
    | InsertRecv(gen: nat, socket: nat, isNew: bool)
    | DropWrite(gen: nat, next: Then)          // Environment::drop writes the drop event
    | DropEnds(gen: nat, next: Then)           // then its fields go: first the channel ends
    | DropJoin(gen: nat, next: Then)           // and last the join guard
    | Teardown                                 // left the loop: the map is being dropped
    | Finished

  datatype Message = Message(name: string, sender: nat)   // the sender is history, the thread sees the name

  datatype Removal = Removal(sender: nat, removed: Option<nat>)

  datatype Outcome = Outcome(gen: nat, socket: nat, ok: bool, asked: string)

  datatype State = State(
    envs: seq<Env>,
    live: map<string, nat>,       // the welcome thread's map
    welcome: WelcomePc,
    closeEvent: nat,
    closeQueue: seq<Message>,
    receiverAlive: bool,
    nextSocket: nat,
    removals: seq<Removal>,       // history: what each drained name removed
    outcomes: seq<Outcome>,       // history: what each insert_socket returned, and for which request
    asked: string,                // history: the name in the latest request
    waiting: bool,                // history: a client seen by the latest poll is not accepted yet
    wakeups: nat)                 // history: how often the close event has ended a poll

  const INIT: State := State([], map[], Polling, 0, [], true, 0, [], [], "", false, 0)

  datatype Step =
    | EnvMoves(gen: nat, choice: EnvChoice)
    | Woken(clientWaits: bool)     // poll returns with the welcome socket ready or not
    | Stops                        // poll fails, or a shutdown or reload event is handled
    | Proceeds                     // the thread's next operation succeeds
    | FailsOver                    // the thread's next operation fails
    | Requested(name: string)      // accept and parsing yield this name
    | Drops(name: string)          // teardown takes this entry next

  predicate Enabled(s: State, step: Step) {
    match step
    case EnvMoves(g, c) => g < |s.envs| && EnvEnabled(s.envs[g], c)
    case Woken(clientWaits) => s.welcome.Polling? && (clientWaits || s.closeEvent > 0)
    case Stops => s.welcome.Polling?
    case Requested(_) => s.welcome.Accepting?
    case FailsOver => s.welcome.Accepting? || s.welcome.Opening?
    case Drops(name) => s.welcome.Teardown? && name in s.live
    case Proceeds =>
      match s.welcome
      case ReadingClose(_) => true
      case DrainingClose(_) => true
      case Opening(name) => name in s.live ==> s.live[name] < |s.envs|
      case InsertSend(g, _, _) => g < |s.envs|
      case InsertWrite(g, _, _) => g < |s.envs|
      case InsertRecv(g, _, _) => g < |s.envs| && (s.envs[g].responses != [] || s.envs[g].pc.Ended?)
      case DropWrite(g, _) => g < |s.envs|
      case DropEnds(g, _) => g < |s.envs|
      case DropJoin(g, _) => g < |s.envs| && s.envs[g].pc.Ended?
      case Teardown => s.live == map[]
      case _ => false
  }

  function EnvMove(s: State, g: nat, c: EnvChoice): State
    requires g < |s.envs| && EnvEnabled(s.envs[g], c)
  {
    var e := s.envs[g];
    var s' := s.(envs := s.envs[g := EnvStep(e, c)]);
    if e.pc.Sending? && s.receiverAlive then s'.(closeQueue := s.closeQueue + [Message(e.name, g)])
    else if e.pc.Writing? then s'.(closeEvent := s.closeEvent + 1)
    else s'
  }

  /** One `try_recv` of the close channel: the name found is removed, which drops its environment. */
  function DrainOne(s: State, clientWaits: bool): State {
    if s.closeQueue == [] then s.(welcome := if clientWaits then Accepting else Polling)
    else
      var m := s.closeQueue[0];
      var s' := s.(closeQueue := s.closeQueue[1..]);
      if m.name in s.live then
        var g := s.live[m.name];
        s'.(live := s.live - {m.name}, welcome := DropWrite(g, BackToDrain(clientWaits)),
            removals := s.removals + [Removal(m.sender, Some(g))])
      else s'.(removals := s.removals + [Removal(m.sender, None)])
  }

  function Open(s: State, name: string): State {
    if name in s.live then
      s.(welcome := InsertSend(s.live[name], s.nextSocket, false), nextSocket := s.nextSocket + 1)
    else
      s.(envs := s.envs + [NewEnv(name)], welcome := InsertSend(|s.envs|, s.nextSocket, true),
         nextSocket := s.nextSocket + 1)
  }

  /** `insert_socket` returns; a new environment is entered into the map, or dropped if it failed. */
  function InsertReturns(s: State, g: nat, socket: nat, isNew: bool, ok: bool): State
    requires g < |s.envs|
  {
    var s' := s.(outcomes := s.outcomes + [Outcome(g, socket, ok, s.asked)]);
    if !isNew then s'.(welcome := Polling)
    else if ok then s'.(live := s.live[s.envs[g].name := g], welcome := Polling)
    else s'.(welcome := DropWrite(g, BackToPoll))
  }

  function SetEnv(s: State, g: nat, e: Env): State
    requires g < |s.envs|
  {
    s.(envs := s.envs[g := e])
  }

  function Proceed(s: State): State
    requires Enabled(s, Proceeds)
  {
    match s.welcome
    case ReadingClose(clientWaits) => s.(closeEvent := 0, welcome := DrainingClose(clientWaits))
    case DrainingClose(clientWaits) => DrainOne(s, clientWaits)
    case Opening(name) => Open(s, name)
    case InsertSend(g, socket, isNew) =>
      var e := s.envs[g];
      if e.pc.Ended? then InsertReturns(s, g, socket, isNew, false)
      else SetEnv(s, g, e.(addQueue := e.addQueue + [socket])).(welcome := InsertWrite(g, socket, isNew))
    case InsertWrite(g, socket, isNew) =>
      var e := s.envs[g];
      SetEnv(s, g, e.(addEvent := e.addEvent + 1)).(welcome := InsertRecv(g, socket, isNew))
    case InsertRecv(g, socket, isNew) =>
      var e := s.envs[g];
      if e.responses != [] then
        InsertReturns(SetEnv(s, g, e.(responses := e.responses[1..])), g, socket, isNew, e.responses[0])
      else InsertReturns(s, g, socket, isNew, false)
    case DropWrite(g, next) =>
      var e := s.envs[g];
      SetEnv(s, g, e.(dropEvent := e.dropEvent + 1)).(welcome := DropEnds(g, next))
    case DropEnds(g, next) => SetEnv(s, g, s.envs[g].(ownerEnds := false)).(welcome := DropJoin(g, next))
    case DropJoin(g, next) =>
      s.(welcome :=
        match next
        case BackToDrain(clientWaits) => DrainingClose(clientWaits)
        case BackToPoll => Polling
        case BackToTeardown => Teardown)
    case Teardown => s.(welcome := Finished)
    case _ => s
  }

  function Next(s: State, step: Step): State
    requires Enabled(s, step)
  {
    match step
    case EnvMoves(g, c) => EnvMove(s, g, c)
    case Woken(clientWaits) =>
      s.(welcome := if s.closeEvent > 0 then ReadingClose(clientWaits) else Accepting, waiting := clientWaits,
         wakeups := s.wakeups + if s.closeEvent > 0 then 1 else 0)
    case Stops => s.(welcome := Teardown, receiverAlive := false, closeQueue := [])
    case Requested(name) => s.(welcome := Opening(name), asked := name, waiting := false)
    case FailsOver => s.(welcome := Polling, waiting := false)
    case Drops(name) => s.(live := s.live - {name}, welcome := DropWrite(s.live[name], BackToTeardown))
    case Proceeds => Proceed(s)
  }

  // ----- runs -----

  ghost predicate Successor(s: State, s': State) {
    exists step :: Enabled(s, step) && s' == Next(s, step)
  }

  ghost predicate IsRun(run: seq<State>) {
    && run != [] && run[0] == INIT
    && Chained(run, Successor)
  }
}
