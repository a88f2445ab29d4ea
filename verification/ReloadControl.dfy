/**
 * Reload and shutdown control as a transition system: `main`, the welcome thread of the current
 * incarnation of the service, and the signal handlers, which may run between any two steps.
 */
module ReloadControl {
  import opened Runs
  import opened Outcomes
  import opened SignalEvents
  import CB = CircuitBreaker

  // ----- main and the welcome thread -----

  datatype Message = ShutdownSignal | ReloadRequest | OtherError

  datatype MainPc =
    | Beginning                            // runtime created, privileges, welcome socket
    | Setup(stage: Stage)                  // setup_events
    | Spawning                             // listen
    | Notifying
    | Receiving
    | Breaking                             // a reload request was received: the circuit breaker
    | Joining(reload: bool, code: nat)     // drop(runtime) joins the welcome thread
    | Exited(code: nat)
    | Killed

  datatype WelcomePc =
    | Absent
    | CreatingEvent
    | Listening
    | Polling
    | Polled(shutdown: bool, reload: bool)
    | Serving                              // environment closings and clients
    | SendingShutdown                      // counter read, message not yet sent
    | SendingReload
    | Done

  /** The two threads and the error channel of this incarnation between them. */
  datatype Control = Control(main: MainPc, welcome: WelcomePc, channel: seq<Message>)

  predicate Over(c: Control) {
    c.main.Exited? || c.main.Killed?
  }

  function StageOf(c: Control): Stage {
    if c.main.Setup? then c.main.stage else Outside
  }

  predicate MainCanMove(c: Control) {
    match c.main
    case Setup(stage) => !stage.Outside?
    case Receiving => c.channel != []
    case Breaking => false
    case Joining(_, _) => c.welcome.Done?
    case Exited(_) => false
    case Killed => false
    case _ => true
  }

  /** Main's next operation succeeds; `next` is where a setup operation leads. */
  function MainMoves(c: Control, next: Stage): Control {
    match c.main
    case Beginning => c.(main := Setup(CreateFirst))
    case Setup(_) => c.(main := if next.Outside? then Spawning else Setup(next))
    case Spawning => c.(main := Notifying, welcome := CreatingEvent)
    case Notifying => c.(main := Receiving)
    case Receiving =>
      if c.channel == [] then c
      else
        var c' := c.(channel := c.channel[1..]);
        (match c.channel[0]
         case ShutdownSignal => c'.(main := Joining(false, 0))
         case ReloadRequest => c'.(main := Breaking)
         case OtherError => c')
    case Joining(reload, code) =>
      if reload then Control(Beginning, Absent, []) else c.(main := Exited(code))
    case _ => c
  }

  predicate MainCanFail(c: Control) {
    match c.main
    case Beginning => true
    case Setup(stage) => !stage.ExchangeShutdown? && !stage.ExchangeReload? && !stage.Outside?
    case Spawning => true
    case Notifying => true
    case _ => false
  }

  /** A failed operation of main ends the process, after a join if the welcome thread is running. */
  function MainGivesUp(c: Control): Control {
    c.(main := if c.main.Notifying? then Joining(false, 1) else Exited(1))
  }

  /** The circuit breaker let the reload through, or killed the process. */
  function MainReloads(c: Control, survives: bool): Control {
    c.(main := if survives then Joining(true, 0) else Killed)
  }

  predicate Active(w: WelcomePc) {
    !w.Absent? && !w.Done?
  }

  /** The welcome thread's next operation succeeds; a poll sees these two counters positive or not. */
  function WelcomeMoves(c: Control, shutdown: bool, reload: bool): Control {
    match c.welcome
    case CreatingEvent => c.(welcome := Listening)
    case Listening => c.(welcome := Polling)
    case Polling => c.(welcome := Polled(shutdown, reload))
    case Polled(sawShutdown, sawReload) =>
      c.(welcome := if sawShutdown then SendingShutdown else if sawReload then SendingReload else Serving)
    case Serving => c.(welcome := Polling)
    case SendingShutdown => c.(welcome := Done, channel := c.channel + [ShutdownSignal])
    case SendingReload => c.(welcome := Done, channel := c.channel + [ReloadRequest])
    case _ => c
  }

  predicate WelcomeCanFail(w: WelcomePc) {
    w.CreatingEvent? || w.Listening? || w.Polling?
  }

  /** A failed eventfd, listen or poll call makes the welcome thread ask for a reload and return. */
  function WelcomeGivesUp(c: Control): Control {
    c.(welcome := SendingReload, channel := c.channel + [OtherError])
  }

  /** A broken welcome socket makes it ask for a shutdown, but it goes on polling. */
  function SocketBreaks(c: Control): Control {
    c.(welcome := Polling, channel := c.channel + [OtherError] + [ShutdownSignal])
  }

  // ----- the whole process -----

  /** History: what has been asked for and what has been done. */
  datatype Log = Log(
    reloads: seq<CB.Time>,   // reloads that survived the breaker
    inits: nat,              // successful inits
    requested: bool,         // a shutdown signal was handled
    reloadsAfter: nat,       // reloads handled since then
    failuresAfter: nat,      // failed eventfd, listen or poll calls since then
    movesAfter: nat,         // operations of welcome threads since then
    reloadWanted: bool,      // a reload signal was handled and no reload has followed yet
    movesWanted: nat,        // operations of welcome threads since then
    hups: nat,               // reload signals handled
    failures: nat,           // failed eventfd, listen or poll calls
    broken: bool,            // a welcome socket was found broken
    startFailed: bool,       // an operation of main failed
    stopped: bool,           // the circuit breaker has killed the process
    unhandled: bool,         // a signal came that no handler was installed for
    listening: bool,         // the welcome thread of this incarnation listens
    notified: bool,          // main has told the service manager so
    idlePolls: nat,          // polls that saw no request for a shutdown or a reload
    serves: nat)             // times that closings and clients were seen to

  datatype State = State(c: Control, ev: Events, breaker: CB.Breaker, log: Log)

  const NOTHING_LOGGED: Log :=
    Log([], 0, false, 0, 0, 0, false, 0, 0, 0, false, false, false, false, false, false, 0, 0)

  const INIT: State := State(Control(Beginning, Absent, []), NO_EVENTS, CB.BOOT, NOTHING_LOGGED)

  datatype Signal = Term | Int | Hup

  datatype Step =
    | Main(fd: int)                // succeeds; the descriptor matters to an eventfd call only
    | MainFails
    | Breaks(clock: Option<CB.Time>)
    | Welcome
    | WelcomeFails
    | BrokenSocket
    | ErrorSent                    // any thread of this incarnation reports an error, also during the teardown
    | Delivered(signal: Signal)

  predicate Later(log: Log, now: CB.Time) {
    CB.ValidTime(now) && (log.reloads != [] ==> CB.Nanos(log.reloads[|log.reloads| - 1]) <= CB.Nanos(now))
  }

  predicate Enabled(s: State, step: Step) {
    && !Over(s.c)
    && match step
       case Main(fd) => MainCanMove(s.c) && (Creates(StageOf(s.c)) ==> Unused(s.ev, fd))
       case MainFails => MainCanFail(s.c)
       case Breaks(clock) => s.c.main.Breaking? && (clock.Some? ==> Later(s.log, clock.value))
       case Welcome => Active(s.c.welcome)
       case WelcomeFails => WelcomeCanFail(s.c.welcome)
       case BrokenSocket => s.c.welcome.Serving?
       case ErrorSent => true
       case Delivered(_) => true
  }

  function MainStep(s: State, fd: int): State {
    var (ev', next) := Advance(s.ev, StageOf(s.c), fd);
    s.(c := MainMoves(s.c, next), ev := ev',
       log := s.log.(inits := s.log.inits + if s.c.main == Setup(InstallHup) then 1 else 0,
                     listening := s.log.listening && !s.c.main.Spawning?,
                     notified := if s.c.main.Spawning? then false else s.log.notified || s.c.main.Notifying?))
  }

  function BreakStep(s: State, clock: Option<CB.Time>): State {
    var verdict := if clock.None? then None else CB.Call(s.breaker, clock.value);
    match verdict
    case None => s.(c := MainReloads(s.c, false), log := s.log.(stopped := true))
    case Some(b) =>
      s.(c := MainReloads(s.c, true), breaker := b,
         log := s.log.(reloads := s.log.reloads + [clock.value], reloadWanted := false, movesWanted := 0,
                       reloadsAfter := s.log.reloadsAfter + if s.log.requested then 1 else 0))
  }

  function WelcomeStep(s: State): State {
    var seen := s.c.welcome;
    var shutdown, reload := Counter(s.ev, s.ev.shutdownFd) > 0, Counter(s.ev, s.ev.reloadFd) > 0;
    s.(c := WelcomeMoves(s.c, shutdown, reload),
       ev := if seen.Polled? && seen.shutdown then Read(s.ev, s.ev.shutdownFd)
             else if seen.Polled? && seen.reload then Read(s.ev, s.ev.reloadFd)
             else s.ev,
       log := s.log.(listening := s.log.listening || seen.Listening?,
                     idlePolls := s.log.idlePolls + (if seen.Polling? && !shutdown && !reload then 1 else 0),
                     serves := s.log.serves + if seen.Serving? then 1 else 0))
  }

  /** A signal: its handler if one is installed, the default action otherwise. */
  function Deliver(s: State, signal: Signal): State {
    var installed := match signal case Term => s.ev.onTerm case Int => s.ev.onInt case Hup => s.ev.onHup;
    if !installed then s.(c := s.c.(main := Killed), log := s.log.(unhandled := true))
    else if signal.Hup? then
      if s.ev.reloadFd == -1 then s
      else s.(ev := Signalled(s.ev, s.ev.reloadFd), log := s.log.(reloadWanted := true, hups := s.log.hups + 1))
    else
      if s.ev.shutdownFd == -1 then s.(c := s.c.(main := Exited(255)))
      else s.(ev := Signalled(s.ev, s.ev.shutdownFd), log := s.log.(requested := true))
  }

  /** The welcome thread does its next operation, whatever comes of it. */
  predicate WelcomeActs(step: Step) {
    step.Welcome? || step.WelcomeFails? || step.BrokenSocket?
  }

  function Next(s: State, step: Step): State {
    var s' := Perform(s, step);
    if WelcomeActs(step) then
      s'.(log := s'.log.(movesAfter := s'.log.movesAfter + (if s.log.requested then 1 else 0),
                         movesWanted := s'.log.movesWanted + if s.log.reloadWanted then 1 else 0))
    else s'
  }

  function Perform(s: State, step: Step): State {
    match step
    case Main(fd) => MainStep(s, fd)
    case MainFails =>
      s.(c := MainGivesUp(s.c), ev := Abandon(s.ev, StageOf(s.c)), log := s.log.(startFailed := true))
    case Breaks(clock) => BreakStep(s, clock)
    case Welcome => WelcomeStep(s)
    case WelcomeFails =>
      s.(c := WelcomeGivesUp(s.c),
         log := s.log.(failuresAfter := s.log.failuresAfter + (if s.log.requested then 1 else 0),
                       failures := s.log.failures + 1))
    case BrokenSocket => s.(c := SocketBreaks(s.c), log := s.log.(broken := true, serves := s.log.serves + 1))
    case ErrorSent => s.(c := s.c.(channel := s.c.channel + [OtherError]))
    case Delivered(signal) => Deliver(s, signal)
  }

  ghost predicate Successor(s: State, s': State) {
    exists step :: Enabled(s, step) && s' == Next(s, step)
  }

  ghost predicate IsRun(run: seq<State>) {
    && run != [] && run[0] == INIT
    && Chained(run, Successor)
  }
}
