/**
 * The two signal eventfds: their creation and recycling by `setup_events`, one operation at a time,
 * their counters, and the handlers that write to them.
 */
module SignalEvents {
  datatype Events = Events(
    open: map<int, nat>,     // open signal eventfds and their counters
    shutdownFd: int,         // SHUTDOWN_EVENT_FOR_SIGNAL
    reloadFd: int,           // RELOAD_EVENT_FOR_SIGNAL
    onTerm: bool,            // handlers installed
    onInt: bool,
    onHup: bool)

  const NO_EVENTS: Events := Events(map[], -1, -1, false, false, false)

  /** The operations of `setup_events`; the parameters are the eventfds it has created so far. */
  datatype Stage =
    | CreateFirst
    | CreateSecond(first: int)
    | ExchangeShutdown(first: int, second: int)
    | ExchangeReload(second: int)
    | InstallTerm
    | InstallInt
    | InstallHup
    | Outside              // before or after the setup

  predicate Creates(stage: Stage) {
    stage.CreateFirst? || stage.CreateSecond?
  }

  /** The descriptor an `eventfd` call can return. */
  predicate Unused(ev: Events, fd: int) {
    fd >= 0 && fd !in ev.open
  }

  /** The stage's operation succeeds; `fd` is the new descriptor if it is a creation. */
  function Advance(ev: Events, stage: Stage, fd: int): (Events, Stage) {
    match stage
    case CreateFirst => (ev.(open := ev.open[fd := 0]), CreateSecond(fd))
    case CreateSecond(first) => (ev.(open := ev.open[fd := 0]), ExchangeShutdown(first, fd))
    case ExchangeShutdown(first, second) =>
      if ev.shutdownFd == -1 then (ev.(shutdownFd := first), ExchangeReload(second))
      else (ev.(open := ev.open - {first}), ExchangeReload(second))
    case ExchangeReload(second) =>
      if ev.reloadFd == -1 then (ev.(reloadFd := second), InstallTerm)
      else (ev.(open := ev.open - {second}), InstallTerm)
    case InstallTerm => (ev.(onTerm := true), InstallInt)
    case InstallInt => (ev.(onInt := true), InstallHup)
    case InstallHup => (ev.(onHup := true), Outside)
    case Outside => (ev, Outside)
  }

  /** The stage's operation fails: `setup_events` returns and drops what it still owns. */
  function Abandon(ev: Events, stage: Stage): Events {
    match stage
    case CreateSecond(first) => ev.(open := ev.open - {first})
    case _ => ev
  }

  function Counter(ev: Events, fd: int): nat {
    if fd in ev.open then ev.open[fd] else 0
  }

  /** Writing 1 to an eventfd, and reading it, which sets it to zero; a closed descriptor is no target. */
  function Signalled(ev: Events, fd: int): Events {
    if fd in ev.open then ev.(open := ev.open[fd := ev.open[fd] + 1]) else ev
  }

  function Read(ev: Events, fd: int): Events {
    if fd in ev.open then ev.(open := ev.open[fd := 0]) else ev
  }

  // ----- the invariant -----

  /** Created by the setup in progress and neither published nor closed yet. */
  function Candidates(stage: Stage): set<int> {
    match stage
    case CreateSecond(first) => {first}
    case ExchangeShutdown(first, second) => {first, second}
    case ExchangeReload(second) => {second}
    case _ => {}
  }

  function Published(ev: Events): set<int> {
    (if ev.shutdownFd == -1 then {} else {ev.shutdownFd}) + (if ev.reloadFd == -1 then {} else {ev.reloadFd})
  }

  ghost predicate FdsOk(ev: Events, stage: Stage) {
    && ev.open.Keys == Published(ev) + Candidates(stage)
    && Published(ev) !! Candidates(stage)
    && (forall fd :: fd in Candidates(stage) ==> fd >= 0)
    && (stage.ExchangeShutdown? ==> stage.first != stage.second)
    && (ev.shutdownFd != -1 ==> ev.shutdownFd != ev.reloadFd)
    && (ev.shutdownFd == -1 ==> ev.reloadFd == -1 && (stage.Outside? || Creates(stage) || stage.ExchangeShutdown?))
    && (ev.reloadFd == -1 && ev.shutdownFd != -1 ==> stage.ExchangeReload?)
    && (ev.onTerm || ev.onInt || ev.onHup ==> ev.reloadFd != -1)
  }

  /** Both events exist; once true, true for good. */
  predicate Ready(ev: Events) {
    ev.shutdownFd != -1 && ev.reloadFd != -1
  }

  lemma AdvanceKeepsFds(ev: Events, stage: Stage, fd: int)
    requires FdsOk(ev, stage) && (Creates(stage) ==> Unused(ev, fd))
    ensures var (ev', stage') := Advance(ev, stage, fd); FdsOk(ev', stage')
  {
    var (ev', stage') := Advance(ev, stage, fd);
    assert ev'.open.Keys == Published(ev') + Candidates(stage');
  }

  /**
   * Recycling: no operation of any later setup changes a published descriptor, closes it, or touches
   * its counter.
   */
  lemma AdvanceRecycles(ev: Events, stage: Stage, fd: int)
    requires FdsOk(ev, stage) && (Creates(stage) ==> Unused(ev, fd))
    ensures var ev' := Advance(ev, stage, fd).0;
      && (ev.shutdownFd != -1 ==> ev'.shutdownFd == ev.shutdownFd && ev.shutdownFd in ev'.open
                                  && Counter(ev', ev.shutdownFd) == Counter(ev, ev.shutdownFd))
      && (ev.reloadFd != -1 ==> ev'.reloadFd == ev.reloadFd && ev.reloadFd in ev'.open
                                && Counter(ev', ev.reloadFd) == Counter(ev, ev.reloadFd))
  {
    assert ev.shutdownFd != -1 ==> ev.shutdownFd in Published(ev);
    assert ev.reloadFd != -1 ==> ev.reloadFd in Published(ev);
  }

  /** A failed setup leaves the published descriptors open and nothing else. */
  lemma AbandonLeavesPublished(ev: Events, stage: Stage)
    requires FdsOk(ev, stage) && !stage.ExchangeShutdown? && !stage.ExchangeReload?
    ensures Abandon(ev, stage).open.Keys == Published(ev)
    ensures FdsOk(Abandon(ev, stage), Outside)
  {
  }

  /**
   * Between setups exactly the published eventfds are open, two distinct ones once both exist; and
   * an installed handler never sees -1 nor a closed descriptor.
   */
  ghost predicate Recycled(ev: Events, stage: Stage) {
    && (stage.Outside? && Ready(ev) ==> ev.open.Keys == {ev.shutdownFd, ev.reloadFd} && ev.shutdownFd != ev.reloadFd)
    && (ev.onTerm || ev.onInt ==> ev.shutdownFd != -1 && ev.shutdownFd in ev.open)
    && (ev.onHup ==> ev.reloadFd != -1 && ev.reloadFd in ev.open)
  }

  lemma FdsAreRecycled(ev: Events, stage: Stage)
    requires FdsOk(ev, stage)
    ensures Recycled(ev, stage)
  {
  }
}
