/**
 * Causes: what every incarnation, every reload and every end of the process goes back to, and what is
 * in place while the daemon serves.
 */
module ReloadCauses {
  import opened Outcomes
  import opened Runs
  import opened SignalEvents
  import opened ReloadControl
  import opened ReloadInvariant
  import opened ReloadTheorems
  import CB = CircuitBreaker

  // ----- incarnations -----

  /** Main has yet to set the next incarnation up. */
  predicate SettingUp(pc: MainPc) {
    pc.Beginning? || pc.Setup? || (pc.Joining? && pc.reload)
  }

  /** Every incarnation but the first goes back to a reload of its own that the breaker let through. */
  ghost predicate InitsOk(s: State) {
    && |s.log.reloads| <= s.log.inits <= |s.log.reloads| + 1
    && (!Over(s.c) ==> s.log.inits == |s.log.reloads| + if SettingUp(s.c.main) then 0 else 1)
  }

  lemma MainKeepsInits(s: State, fd: int)
    requires InitsOk(s) && Enabled(s, Main(fd))
    ensures InitsOk(MainStep(s, fd))
  {
  }

  lemma BreakKeepsInits(s: State, clock: Option<CB.Time>)
    requires InitsOk(s) && Enabled(s, Breaks(clock))
    ensures InitsOk(BreakStep(s, clock))
  {
  }

  lemma FailureKeepsInits(s: State)
    requires InitsOk(s) && Enabled(s, MainFails)
    ensures InitsOk(Next(s, MainFails))
  {
  }

  lemma DeliverKeepsInits(s: State, signal: Signal)
    requires InitsOk(s) && !Over(s.c)
    ensures InitsOk(Deliver(s, signal))
  {
  }

  lemma WelcomeKeepsMain(s: State, step: Step)
    requires Enabled(s, step) && WelcomeActs(step)
    ensures var s' := Next(s, step);
      s'.c.main == s.c.main && s'.log.inits == s.log.inits && s'.log.reloads == s.log.reloads
  {
  }

  lemma StepKeepsInits(s: State, step: Step)
    requires InitsOk(s) && Enabled(s, step)
    ensures InitsOk(Next(s, step))
  {
    if step.Main? {
      MainKeepsInits(s, step.fd);
    } else if WelcomeActs(step) {
      WelcomeKeepsMain(s, step);
    } else if step.Breaks? {
      BreakKeepsInits(s, step.clock);
    } else if step.MainFails? {
      FailureKeepsInits(s);
    } else if step.Delivered? {
      DeliverKeepsInits(s, step.signal);
    }
  }

  // ----- handlers -----

  predicate AllInstalled(ev: Events) {
    ev.onTerm && ev.onInt && ev.onHup
  }

  /** All handlers are installed from the first init on, and stay so. */
  ghost predicate HandlersOk(s: State) {
    && (s.log.inits > 0 || s.c.main.Spawning? ==> AllInstalled(s.ev))
    && (s.c.main == Setup(InstallInt) ==> s.ev.onTerm)
    && (s.c.main == Setup(InstallHup) ==> s.ev.onTerm && s.ev.onInt)
  }

  lemma AdvanceKeepsHandlers(ev: Events, stage: Stage, fd: int)
    ensures var ev' := Advance(ev, stage, fd).0;
      && ev'.onTerm == (ev.onTerm || stage.InstallTerm?)
      && ev'.onInt == (ev.onInt || stage.InstallInt?)
      && ev'.onHup == (ev.onHup || stage.InstallHup?)
  {
  }

  lemma MainKeepsHandlers(s: State, fd: int)
    requires HandlersOk(s) && Enabled(s, Main(fd))
    ensures HandlersOk(MainStep(s, fd))
  {
    AdvanceKeepsHandlers(s.ev, StageOf(s.c), fd);
  }

  lemma StepKeepsHandlers(s: State, step: Step)
    requires HandlersOk(s) && Enabled(s, step)
    ensures HandlersOk(Next(s, step))
  {
    if step.Main? {
      MainKeepsHandlers(s, step.fd);
    } else if step.Delivered? {
      DeliverTakesNothingBack(s, step.signal);
    } else if WelcomeActs(step) {
      WelcomeTakesNothingBack(s, step);
    } else if step.MainFails? {
      FailureTakesNothingBack(s);
    }
  }

  /** Handlers are never taken back, and only main gets any further with its setup. */
  ghost predicate SameHandlers(s: State, s': State) {
    && s'.ev.onTerm == s.ev.onTerm && s'.ev.onInt == s.ev.onInt && s'.ev.onHup == s.ev.onHup
    && s'.log.inits == s.log.inits
    && (s'.c.main.Setup? || s'.c.main.Spawning? ==> s'.c.main == s.c.main)
  }

  lemma DeliverTakesNothingBack(s: State, signal: Signal)
    ensures SameHandlers(s, Deliver(s, signal))
  {
  }

  lemma WelcomeTakesNothingBack(s: State, step: Step)
    requires Enabled(s, step) && WelcomeActs(step)
    ensures SameHandlers(s, Next(s, step))
  {
  }

  lemma FailureTakesNothingBack(s: State)
    requires Enabled(s, MainFails)
    ensures SameHandlers(s, Next(s, MainFails))
  {
  }

  /** A handled signal raises its own counter by one, and that is all it does. */
  lemma SignalRaisesItsCounter(s: State, signal: Signal)
    requires Inv(s) && HandlersOk(s) && s.log.inits > 0 && !Over(s.c)
    ensures var s', up := Next(s, Delivered(signal)), (if signal.Hup? then s.ev.reloadFd else s.ev.shutdownFd);
      && Counter(s'.ev, up) == Counter(s.ev, up) + 1
      && (forall fd :: fd != up ==> Counter(s'.ev, fd) == Counter(s.ev, fd))
      && s'.ev.open.Keys == s.ev.open.Keys && s'.c == s.c
      && s'.ev.shutdownFd == s.ev.shutdownFd && s'.ev.reloadFd == s.ev.reloadFd
  {
    FdsAreRecycled(s.ev, StageOf(s.c));
    assert Ready(s.ev);
  }

  /** A signal without a handler kills the process at once, and one with a handler never does. */
  lemma OnlyUnhandledSignalsKill(s: State, signal: Signal)
    requires BaseOk(s) && !Over(s.c)
    ensures Over(Deliver(s, signal).c) <==>
              match signal
              case Term => !s.ev.onTerm
              case Int => !s.ev.onInt
              case Hup => !s.ev.onHup
  {
    FdsAreRecycled(s.ev, StageOf(s.c));
  }

  // ----- counters -----

  /** An eventfd not published yet has never been written to. */
  ghost predicate CandidatesOk(ev: Events, stage: Stage) {
    forall fd :: fd in Candidates(stage) ==> Counter(ev, fd) == 0
  }

  /** What a poll saw is still there when the welcome thread gets to read it. */
  ghost predicate PolledOk(s: State) {
    s.c.welcome.Polled? ==>
      && (s.c.welcome.shutdown ==> Counter(s.ev, s.ev.shutdownFd) > 0)
      && (s.c.welcome.reload ==> Counter(s.ev, s.ev.reloadFd) > 0)
  }

  ghost predicate CountersOk(s: State) {
    !Over(s.c) ==> CandidatesOk(s.ev, StageOf(s.c)) && PolledOk(s)
  }

  lemma AdvanceKeepsCandidates(ev: Events, stage: Stage, fd: int)
    requires FdsOk(ev, stage) && CandidatesOk(ev, stage) && (Creates(stage) ==> Unused(ev, fd))
    ensures var (ev', stage') := Advance(ev, stage, fd); CandidatesOk(ev', stage')
    ensures var ev' := Advance(ev, stage, fd).0;
      && (ev.shutdownFd == -1 ==> Counter(ev', ev'.shutdownFd) == 0)
      && (ev.reloadFd == -1 ==> Counter(ev', ev'.reloadFd) == 0)
  {
  }

  lemma MainKeepsCounters(s: State, fd: int)
    requires BaseOk(s) && CountersOk(s) && Enabled(s, Main(fd))
    ensures CountersOk(MainStep(s, fd))
  {
    AdvanceKeepsCandidates(s.ev, StageOf(s.c), fd);
    AdvanceRecycles(s.ev, StageOf(s.c), fd);
  }

  lemma WelcomeKeepsCounters(s: State)
    requires BaseOk(s) && CountersOk(s) && Enabled(s, Welcome)
    ensures CountersOk(WelcomeStep(s))
  {
  }

  lemma OtherKeepsCounters(s: State, step: Step)
    requires BaseOk(s) && CountersOk(s) && Enabled(s, step) && !step.Main? && !step.Welcome?
    ensures CountersOk(Next(s, step))
  {
  }

  // ----- reloads -----

  /** A reload has been asked for that has not come to the breaker yet. */
  predicate Asked(c: Control) {
    c.welcome.SendingReload? || ReloadRequest in c.channel || c.main.Breaking?
  }

  /** Each reload goes back to a reload signal, or to a failed call, of its own. */
  ghost predicate CreditOk(s: State) {
    && |s.log.reloads| <= s.log.hups + s.log.failures
    && (!Over(s.c) ==>
          |s.log.reloads| + (if Asked(s.c) then 1 else 0) + Counter(s.ev, s.ev.reloadFd) <= s.log.hups + s.log.failures)
  }

  lemma MainAsksForNothing(c: Control, next: Stage)
    requires ChannelOk(c) && PhasesOk(c) && !Over(c)
    ensures MainCanMove(c) && Asked(MainMoves(c, next)) ==> Asked(c)
    ensures MainCanFail(c) && Asked(MainGivesUp(c)) ==> Asked(c)
    ensures c.main.Breaking? && ReloadRequest !in c.channel && !c.welcome.SendingReload? ==> !Asked(MainReloads(c, true))
  {
  }

  lemma MainKeepsCredit(s: State, fd: int)
    requires BaseOk(s) && CountersOk(s) && CreditOk(s) && Enabled(s, Main(fd))
    ensures CreditOk(MainStep(s, fd))
  {
    AdvanceKeepsCandidates(s.ev, StageOf(s.c), fd);
    AdvanceRecycles(s.ev, StageOf(s.c), fd);
    MainAsksForNothing(s.c, Advance(s.ev, StageOf(s.c), fd).1);
  }

  lemma BreakKeepsCredit(s: State, clock: Option<CB.Time>)
    requires BaseOk(s) && CreditOk(s) && Enabled(s, Breaks(clock))
    ensures CreditOk(BreakStep(s, clock))
  {
    MainAsksForNothing(s.c, Outside);
  }

  lemma WelcomeKeepsCredit(s: State)
    requires BaseOk(s) && CountersOk(s) && CreditOk(s) && Enabled(s, Welcome)
    ensures CreditOk(WelcomeStep(s))
  {
  }

  lemma FailureKeepsCredit(s: State)
    requires BaseOk(s) && CreditOk(s) && Enabled(s, MainFails)
    ensures CreditOk(Next(s, MainFails))
  {
    MainAsksForNothing(s.c, Outside);
  }

  lemma DeliverKeepsCredit(s: State, signal: Signal)
    requires BaseOk(s) && CreditOk(s) && Enabled(s, Delivered(signal))
    ensures CreditOk(Deliver(s, signal))
  {
  }

  lemma OtherKeepsCredit(s: State, step: Step)
    requires BaseOk(s) && CreditOk(s) && Enabled(s, step) && (step.WelcomeFails? || step.BrokenSocket? || step.ErrorSent?)
    ensures CreditOk(Next(s, step))
  {
  }

  // ----- ends -----

  /** The shutdown this incarnation has been told of, or is about to be told of. */
  predicate ShutdownOnItsWay(c: Control) {
    || ShutdownSignal in c.channel
    || c.welcome.SendingShutdown? || (c.welcome.Polled? && c.welcome.shutdown)
    || (c.main.Joining? && !c.main.reload && c.main.code == 0)
  }

  /** Every shutdown goes back to a signal or to a broken welcome socket; every failure is remembered. */
  ghost predicate CausesOk(s: State) {
    && (!Over(s.c) && (ShutdownOnItsWay(s.c) || Counter(s.ev, s.ev.shutdownFd) > 0) ==> s.log.requested || s.log.broken)
    && (!Over(s.c) ==> (s.log.startFailed <==> s.c.main.Joining? && !s.c.main.reload && s.c.main.code == 1))
    && (s.c.main.Joining? && !s.c.main.reload ==> s.c.main.code <= 1)
    && (s.log.unhandled ==> s.c.main.Killed? && s.log.inits == 0)
    && (s.log.stopped ==> s.c.main.Killed?)
    && (s.c.main.Killed? ==> s.log.stopped || s.log.unhandled)
    && (s.c.main.Exited? ==> EndOk(s))
  }

  /** An orderly end leaves no welcome thread and no unpublished eventfd behind, and its code says whether an operation of main failed. */
  ghost predicate EndOk(s: State)
    requires s.c.main.Exited?
  {
    && !Active(s.c.welcome) && s.ev.open.Keys == Published(s.ev)
    && s.c.main.code == (if s.log.startFailed then 1 else 0)
    && (!s.log.startFailed ==> s.log.requested || s.log.broken)
  }

  lemma MainKeepsCauses(s: State, fd: int)
    requires BaseOk(s) && CountersOk(s) && CausesOk(s) && Enabled(s, Main(fd))
    ensures CausesOk(MainStep(s, fd))
  {
    AdvanceKeepsCandidates(s.ev, StageOf(s.c), fd);
    AdvanceRecycles(s.ev, StageOf(s.c), fd);
  }

  lemma WelcomeKeepsCauses(s: State)
    requires BaseOk(s) && CountersOk(s) && CausesOk(s) && Enabled(s, Welcome)
    ensures CausesOk(WelcomeStep(s))
  {
  }

  lemma DeliverKeepsCauses(s: State, signal: Signal)
    requires BaseOk(s) && HandlersOk(s) && CausesOk(s) && Enabled(s, Delivered(signal))
    ensures CausesOk(Deliver(s, signal))
  {
    FdsAreRecycled(s.ev, StageOf(s.c));
  }

  lemma OtherKeepsCauses(s: State, step: Step)
    requires BaseOk(s) && CausesOk(s) && Enabled(s, step) && !step.Main? && !step.Welcome? && !step.Delivered?
    ensures CausesOk(Next(s, step))
  {
  }

  // ----- listening -----

  /** A poll has seen no request, and closings and clients have not been seen to since. */
  predicate Owing(w: WelcomePc) {
    w.Serving? || (w.Polled? && !w.shutdown && !w.reload)
  }

  /**
   * Clients are waited for only by a welcome thread that listens, main receives only after it has
   * notified, and every poll that saw no request is followed by seeing to closings and clients.
   */
  ghost predicate ListensOk(s: State) {
    && (!Over(s.c) && (s.c.welcome.Polling? || s.c.welcome.Polled? || s.c.welcome.Serving? || s.c.welcome.SendingShutdown?) ==>
          s.log.listening)
    && (s.c.main.Receiving? || s.c.main.Breaking? ==> s.log.notified)
    && (s.log.serves <= s.log.idlePolls <= s.log.serves + 1)
    && (!Over(s.c) ==> s.log.idlePolls == s.log.serves + if Owing(s.c.welcome) then 1 else 0)
  }

  lemma WelcomeKeepsListens(s: State, step: Step)
    requires ListensOk(s) && Enabled(s, step) && WelcomeActs(step)
    ensures ListensOk(Next(s, step))
  {
  }

  lemma OtherKeepsListens(s: State, step: Step)
    requires BaseOk(s) && ListensOk(s) && Enabled(s, step) && !WelcomeActs(step)
    ensures ListensOk(Next(s, step))
  {
  }

  lemma StepKeepsListens(s: State, step: Step)
    requires BaseOk(s) && ListensOk(s) && Enabled(s, step)
    ensures ListensOk(Next(s, step))
  {
    if WelcomeActs(step) {
      WelcomeKeepsListens(s, step);
    } else {
      OtherKeepsListens(s, step);
    }
  }

  // ----- every step, every run -----

  ghost predicate CauseInv(s: State) {
    InitsOk(s) && HandlersOk(s) && CountersOk(s) && CreditOk(s) && CausesOk(s) && ListensOk(s)
  }

  lemma StepKeepsCounters(s: State, step: Step)
    requires BaseOk(s) && CountersOk(s) && Enabled(s, step)
    ensures CountersOk(Next(s, step))
  {
    match step
    case Main(fd) => MainKeepsCounters(s, fd);
    case Welcome => WelcomeKeepsCounters(s);
    case _ => OtherKeepsCounters(s, step);
  }

  lemma StepKeepsCredit(s: State, step: Step)
    requires BaseOk(s) && CountersOk(s) && CreditOk(s) && Enabled(s, step)
    ensures CreditOk(Next(s, step))
  {
    match step
    case Main(fd) => MainKeepsCredit(s, fd);
    case Welcome => WelcomeKeepsCredit(s);
    case Breaks(clock) => BreakKeepsCredit(s, clock);
    case MainFails => FailureKeepsCredit(s);
    case Delivered(signal) => DeliverKeepsCredit(s, signal);
    case _ => OtherKeepsCredit(s, step);
  }

  lemma StepKeepsCauses(s: State, step: Step)
    requires BaseOk(s) && HandlersOk(s) && CountersOk(s) && CausesOk(s) && Enabled(s, step)
    ensures CausesOk(Next(s, step))
  {
    match step
    case Main(fd) => MainKeepsCauses(s, fd);
    case Welcome => WelcomeKeepsCauses(s);
    case Delivered(signal) => DeliverKeepsCauses(s, signal);
    case _ => OtherKeepsCauses(s, step);
  }

  lemma SuccessorKeepsCauses(s: State, s': State)
    requires Inv(s) && CauseInv(s) && Successor(s, s')
    ensures CauseInv(s')
  {
    var step :| Enabled(s, step) && s' == Next(s, step);
    StepKeepsInits(s, step);
    StepKeepsHandlers(s, step);
    StepKeepsCounters(s, step);
    StepKeepsCredit(s, step);
    StepKeepsCauses(s, step);
    StepKeepsListens(s, step);
  }

  lemma StartHasNoCauses()
    ensures CauseInv(INIT)
  {
  }

  lemma {:induction false} RunKeepsCauses(run: seq<State>, i: nat)
    requires IsRun(run) && i < |run|
    ensures CauseInv(run[i])
  {
    if i == 0 {
      StartHasNoCauses();
    } else {
      RunKeepsCauses(run, i - 1);
      RunKeepsInv(run, i - 1);
      assert Successor(run[i - 1], run[i - 1 + 1]);
      SuccessorKeepsCauses(run[i - 1], run[i]);
    }
  }

  // ----- the guarantees -----

  /**
   * In every state of every run: each incarnation but the first has a reload of its own that survived
   * the breaker, and each reload a signal or a failed call of its own; whenever main has got past its
   * first setup all three handlers are installed.
   */
  lemma EveryReloadHasItsCause(run: seq<State>, i: nat)
    requires IsRun(run) && i < |run|
    ensures |run[i].log.reloads| <= run[i].log.inits <= |run[i].log.reloads| + 1
    ensures |run[i].log.reloads| <= run[i].log.hups + run[i].log.failures
    ensures run[i].log.inits > 0 ==> AllInstalled(run[i].ev)
  {
    RunKeepsCauses(run, i);
  }

  /**
   * How the process ends: with code 1 exactly if an operation of main failed; with code 0 only if a
   * shutdown was asked for or the welcome socket broke; killed only by the breaker, or by a signal
   * before the first init; and never with a welcome thread left behind, or by the handler's own exit.
   */
  lemma EveryEndHasItsCause(run: seq<State>, i: nat)
    requires IsRun(run) && i < |run|
    ensures var s := run[i];
      && (s.c.main.Exited? ==> EndOk(s))
      && (s.c.main.Killed? <==> s.log.stopped || s.log.unhandled)
      && (s.log.unhandled ==> s.log.inits == 0)
      && (s.c.main.Exited? ==> s.c.main.code <= 1)
  {
    RunKeepsCauses(run, i);
  }

  /** Clients wait for one round of the welcome thread at most: no poll without a request passes them over. */
  lemma EveryPollServes(run: seq<State>, i: nat)
    requires IsRun(run) && i < |run|
    ensures var s := run[i];
      && s.log.idlePolls <= s.log.serves + 1
      && (!Over(s.c) && s.c.welcome.Polling? ==> s.log.idlePolls == s.log.serves && s.log.listening)
      && (s.c.main.Receiving? ==> s.log.notified)
  {
    RunKeepsCauses(run, i);
  }

  predicate CallsTheSystem(stage: Stage) {
    Creates(stage) || stage.InstallTerm? || stage.InstallInt? || stage.InstallHup?
  }

  /** Nothing outside is ruled out: any signal at any time, and any failure where one can be. */
  lemma AnythingCanHappen(s: State, signal: Signal, clock: Option<CB.Time>)
    requires !Over(s.c)
    ensures Enabled(s, Delivered(signal)) && Enabled(s, ErrorSent)
    ensures s.c.main.Beginning? || s.c.main.Spawning? || s.c.main.Notifying? ==> Enabled(s, MainFails)
    ensures s.c.main.Setup? && CallsTheSystem(s.c.main.stage) ==> Enabled(s, MainFails)
    ensures s.c.welcome.CreatingEvent? || s.c.welcome.Listening? || s.c.welcome.Polling? ==> Enabled(s, WelcomeFails)
    ensures s.c.welcome.Serving? ==> Enabled(s, BrokenSocket)
    ensures s.c.main.Breaking? && (clock.Some? ==> Later(s.log, clock.value)) ==> Enabled(s, Breaks(clock))
  {
  }

  /** The breaker's verdict is final: main goes on to reload exactly if it let the reload through. */
  lemma TripEndsTheProcess(s: State, clock: Option<CB.Time>)
    requires BreakerOk(s) && s.c.main.Breaking?
    ensures var s' := BreakStep(s, clock);
      if clock.Some? && CB.Run(s.log.reloads + [clock.value]).Some?
      then s'.c.main == Joining(true, 0) && s'.log.reloads == s.log.reloads + [clock.value]
      else s'.c.main == Killed && s'.log.reloads == s.log.reloads
  {
    if clock.Some? {
      VerdictIsRun(s.breaker, s.log.reloads, clock.value);
    }
  }

  lemma VerdictIsRun(b: CB.Breaker, reloads: seq<CB.Time>, now: CB.Time)
    requires BreakerMatches(b, reloads)
    ensures CB.Run(reloads + [now]) == CB.Call(b, now)
  {
    CB.RunNext(reloads, b, now);
  }

  /**
   * Incarnations are rate limited: between two states whose reloads in between lie within less than
   * four seconds, at most 199 incarnations are set up, one of them for the reload before.
   */
  lemma IncarnationsAreRateLimited(run: seq<State>, m: nat, n: nat)
    requires IsRun(run) && m <= n < |run|
    requires |run[m].log.reloads| < |run[n].log.reloads| ==>
               CB.Nanos(run[n].log.reloads[|run[n].log.reloads| - 1])
               - CB.Nanos(run[n].log.reloads[|run[m].log.reloads|]) < 4_000_000_000
    ensures run[n].log.inits - run[m].log.inits <= 199
  {
    RunKeepsCauses(run, m);
    RunKeepsCauses(run, n);
    if |run[m].log.reloads| < |run[n].log.reloads| {
      ReloadsAreRateLimited(run, n, |run[m].log.reloads|, |run[n].log.reloads| - 1);
    }
  }
}
