/** What reload control guarantees over every run. */
module ReloadTheorems {
  import opened Outcomes
  import opened Sets
  import opened SignalEvents
  import opened ReloadControl
  import opened ReloadInvariant
  import CB = CircuitBreaker

  // ----- descriptors and phases -----

  /** From the last setup operations of the first incarnation on, both events exist. */
  ghost predicate StartedOk(s: State) {
    || s.c.main.Spawning? || !s.c.welcome.Absent? || s.log.inits > 0 || s.log.requested || s.log.reloadWanted
    || StageOf(s.c).InstallTerm? || StageOf(s.c).InstallInt? || StageOf(s.c).InstallHup?
    ==> Ready(s.ev)
  }

  ghost predicate BaseOk(s: State) {
    !Over(s.c) ==> FdsOk(s.ev, StageOf(s.c)) && StartedOk(s) && ChannelOk(s.c) && PhasesOk(s.c)
  }

  lemma MainKeepsBase(s: State, fd: int)
    requires BaseOk(s) && Enabled(s, Main(fd))
    ensures BaseOk(MainStep(s, fd))
  {
    AdvanceKeepsFds(s.ev, StageOf(s.c), fd);
    AdvanceRecycles(s.ev, StageOf(s.c), fd);
    MainMovesKeeps(s.c, Advance(s.ev, StageOf(s.c), fd).1);
  }

  lemma CountersKeepFds(ev: Events, stage: Stage, fd: int)
    requires FdsOk(ev, stage)
    ensures FdsOk(Signalled(ev, fd), stage) && FdsOk(Read(ev, fd), stage)
  {
    assert Signalled(ev, fd).open.Keys == ev.open.Keys && Read(ev, fd).open.Keys == ev.open.Keys;
  }

  lemma WelcomeKeepsBase(s: State)
    requires BaseOk(s) && Enabled(s, Welcome)
    ensures BaseOk(WelcomeStep(s))
  {
    CountersKeepFds(s.ev, StageOf(s.c), s.ev.shutdownFd);
    CountersKeepFds(s.ev, StageOf(s.c), s.ev.reloadFd);
    WelcomeMovesKeeps(s.c, Counter(s.ev, s.ev.shutdownFd) > 0, Counter(s.ev, s.ev.reloadFd) > 0);
  }

  lemma DeliverKeepsBase(s: State, signal: Signal)
    requires BaseOk(s) && Enabled(s, Delivered(signal))
    ensures BaseOk(Deliver(s, signal))
  {
    CountersKeepFds(s.ev, StageOf(s.c), s.ev.shutdownFd);
    CountersKeepFds(s.ev, StageOf(s.c), s.ev.reloadFd);
  }

  lemma OtherKeepsBase(s: State, step: Step)
    requires BaseOk(s) && Enabled(s, step) && !step.Main? && !step.Welcome? && !step.Delivered?
    ensures BaseOk(Next(s, step))
  {
    OtherMovesKeep(s.c, true);
    OtherMovesKeep(s.c, false);
    if step.MainFails? && !s.c.main.Notifying? {
      assert Over(Next(s, step).c);
    }
  }

  lemma StepKeepsBase(s: State, step: Step)
    requires BaseOk(s) && Enabled(s, step)
    ensures BaseOk(Next(s, step))
  {
    match step
    case Main(fd) => MainKeepsBase(s, fd);
    case Welcome => WelcomeKeepsBase(s);
    case Delivered(signal) => DeliverKeepsBase(s, signal);
    case _ => OtherKeepsBase(s, step);
  }

  // ----- requests -----

  /**
   * A shutdown request stays in the counter until the welcome thread reads it, and from then on this
   * incarnation is bound to end the process.
   */
  ghost predicate ShutdownKept(s: State) {
    s.log.requested && !Over(s.c) && Counter(s.ev, s.ev.shutdownFd) == 0 ==>
      s.c.welcome.SendingShutdown? || (s.c.welcome.Done? && ShutdownDecided(s.c))
  }

  /**
   * A reload request stays in the counter until the welcome thread reads it to send it on; and from then
   * on a reload is under way or the process is to end.
   */
  ghost predicate ReloadKept(s: State) {
    s.log.reloadWanted && !Over(s.c) && Counter(s.ev, s.ev.reloadFd) == 0 ==>
      && (s.c.welcome.SendingReload? || s.c.welcome.Done?)
      && (ReloadUnderWay(s.c) || ShutdownDecided(s.c))
  }

  /** After a shutdown request, at most one reload more than there are failed calls gets in first. */
  ghost predicate ReloadsBounded(s: State) {
    if s.log.requested then
      s.log.reloadsAfter + (if ReloadUnderWay(s.c) && !Over(s.c) then 1 else 0) <= 1 + s.log.failuresAfter
    else s.log.reloadsAfter == 0 && s.log.failuresAfter == 0
  }

  ghost predicate RequestsOk(s: State) {
    ShutdownKept(s) && ReloadKept(s) && ReloadsBounded(s)
  }

  lemma MainKeepsRequests(s: State, fd: int)
    requires BaseOk(s) && RequestsOk(s) && Enabled(s, Main(fd))
    ensures RequestsOk(MainStep(s, fd))
  {
    var s' := MainStep(s, fd);
    AdvanceRecycles(s.ev, StageOf(s.c), fd);
    if !Over(s'.c) {
      MainMovesDecided(s.c, Advance(s.ev, StageOf(s.c), fd).1);
    }
  }

  lemma WelcomeKeepsRequests(s: State)
    requires BaseOk(s) && RequestsOk(s) && Enabled(s, Welcome)
    ensures RequestsOk(WelcomeStep(s))
  {
    WelcomeMovesDecided(s.c, Counter(s.ev, s.ev.shutdownFd) > 0, Counter(s.ev, s.ev.reloadFd) > 0);
  }

  lemma DeliverKeepsRequests(s: State, signal: Signal)
    requires BaseOk(s) && RequestsOk(s) && Enabled(s, Delivered(signal))
    ensures RequestsOk(Deliver(s, signal))
  {
    FdsAreRecycled(s.ev, StageOf(s.c));
  }

  lemma BreakKeepsRequests(s: State, clock: Option<CB.Time>)
    requires BaseOk(s) && RequestsOk(s) && Enabled(s, Breaks(clock))
    ensures RequestsOk(BreakStep(s, clock))
  {
  }

  lemma OtherKeepsRequests(s: State, step: Step)
    requires BaseOk(s) && RequestsOk(s) && Enabled(s, step)
    requires step.MainFails? || step.WelcomeFails? || step.BrokenSocket? || step.ErrorSent?
    ensures RequestsOk(Next(s, step))
  {
    FailuresDecided(s.c);
  }

  // ----- progress -----

  /** After a shutdown request, each incarnation takes six operations of its welcome thread at most. */
  ghost predicate MovesBounded(s: State) {
    if s.log.requested then
      s.log.movesAfter + (if Over(s.c) then 0 else Rank(s.c)) <= 6 * (1 + s.log.reloadsAfter)
    else s.log.movesAfter == 0
  }

  /** After a reload request that no reload has followed yet, six operations at most are left to be done. */
  ghost predicate WaitBounded(s: State) {
    if s.log.reloadWanted then s.log.movesWanted + (if Over(s.c) then 0 else Rank(s.c)) <= 6
    else s.log.movesWanted == 0
  }

  ghost predicate ProgressOk(s: State) {
    MovesBounded(s) && WaitBounded(s) && (!Over(s.c) ==> DecidedOk(s.c))
  }

  lemma WelcomeKeepsProgress(s: State, step: Step)
    requires BaseOk(s) && RequestsOk(s) && ProgressOk(s) && Enabled(s, step) && WelcomeActs(step)
    ensures ProgressOk(Next(s, step))
  {
    var shutdown, reload := Counter(s.ev, s.ev.shutdownFd) > 0, Counter(s.ev, s.ev.reloadFd) > 0;
    WelcomeUsesRank(s.c, shutdown, reload);
    MovesKeepDecided(s.c, Outside, shutdown, reload);
  }

  lemma MainKeepsProgress(s: State, fd: int)
    requires BaseOk(s) && ProgressOk(s) && Enabled(s, Main(fd))
    ensures ProgressOk(MainStep(s, fd))
  {
    var next := Advance(s.ev, StageOf(s.c), fd).1;
    MainKeepsRank(s.c, next);
    MovesKeepDecided(s.c, next, false, false);
  }

  lemma FailureKeepsProgress(s: State)
    requires BaseOk(s) && ProgressOk(s) && Enabled(s, MainFails)
    ensures ProgressOk(Next(s, MainFails))
  {
    MainKeepsRank(s.c, Outside);
    MovesKeepDecided(s.c, Outside, false, false);
  }

  lemma BreakKeepsProgress(s: State, clock: Option<CB.Time>)
    requires BaseOk(s) && ProgressOk(s) && Enabled(s, Breaks(clock))
    ensures ProgressOk(BreakStep(s, clock))
  {
    MainKeepsRank(s.c, Outside);
  }

  lemma OtherKeepsProgress(s: State, step: Step)
    requires BaseOk(s) && RequestsOk(s) && ProgressOk(s) && Enabled(s, step) && (step.ErrorSent? || step.Delivered?)
    ensures ProgressOk(Next(s, step))
  {
    MovesKeepDecided(s.c, Outside, false, false);
  }

  ghost predicate BreakerMatches(b: CB.Breaker, reloads: seq<CB.Time>) {
    CB.History(reloads) && CB.Run(reloads) == Some(b)
  }

  ghost predicate BreakerOk(s: State) {
    BreakerMatches(s.breaker, s.log.reloads)
  }

  lemma MatchExtends(b: CB.Breaker, reloads: seq<CB.Time>, now: CB.Time)
    requires BreakerMatches(b, reloads) && CB.Call(b, now).Some? && CB.ValidTime(now)
    requires reloads != [] ==> CB.Nanos(reloads[|reloads| - 1]) <= CB.Nanos(now)
    ensures BreakerMatches(CB.Call(b, now).value, reloads + [now])
  {
    CB.HistoryExtends(reloads, now);
    CB.RunNext(reloads, b, now);
  }

  lemma BreakKeepsBreaker(s: State, clock: Option<CB.Time>)
    requires BreakerOk(s) && Enabled(s, Breaks(clock))
    ensures BreakerOk(BreakStep(s, clock))
  {
    if clock.Some? && CB.Call(s.breaker, clock.value).Some? {
      MatchExtends(s.breaker, s.log.reloads, clock.value);
    }
  }

  ghost predicate Inv(s: State) {
    BaseOk(s) && RequestsOk(s) && ProgressOk(s) && BreakerOk(s)
  }

  lemma StepKeepsInv(s: State, step: Step)
    requires Inv(s) && Enabled(s, step)
    ensures Inv(Next(s, step))
  {
    StepKeepsBase(s, step);
    StepKeepsRequests(s, step);
    StepKeepsProgress(s, step);
    StepKeepsBreaker(s, step);
  }

  lemma StepKeepsBreaker(s: State, step: Step)
    requires BreakerOk(s) && Enabled(s, step)
    ensures BreakerOk(Next(s, step))
  {
    if step.Breaks? {
      BreakKeepsBreaker(s, step.clock);
    } else {
      OnlyBreaksCount(s, step);
    }
  }

  /** A published descriptor is still the published one. */
  ghost predicate SameFds(s: State, s': State) {
    && (s.ev.shutdownFd != -1 ==> s'.ev.shutdownFd == s.ev.shutdownFd)
    && (s.ev.reloadFd != -1 ==> s'.ev.reloadFd == s.ev.reloadFd)
  }

  /** The breaker and the published descriptors are as they were. */
  ghost predicate Steady(s: State, s': State) {
    s'.breaker == s.breaker && s'.log.reloads == s.log.reloads && SameFds(s, s')
  }

  lemma MainIsSteady(s: State, fd: int)
    ensures Steady(s, MainStep(s, fd))
  {
  }

  lemma WelcomeIsSteady(s: State, step: Step)
    requires WelcomeActs(step)
    ensures Steady(s, Next(s, step))
  {
  }

  lemma DeliverIsSteady(s: State, signal: Signal)
    ensures Steady(s, Deliver(s, signal))
  {
  }

  lemma FailureIsSteady(s: State)
    ensures Steady(s, Next(s, MainFails))
  {
  }

  lemma BreakKeepsFds(s: State, clock: Option<CB.Time>)
    ensures SameFds(s, BreakStep(s, clock))
  {
  }

  lemma OnlyBreaksCount(s: State, step: Step)
    requires !step.Breaks?
    ensures Steady(s, Next(s, step))
  {
    match step
    case Main(fd) => MainIsSteady(s, fd);
    case MainFails => FailureIsSteady(s);
    case Delivered(signal) => DeliverIsSteady(s, signal);
    case ErrorSent =>
    case _ => WelcomeIsSteady(s, step);
  }

  lemma StepKeepsProgress(s: State, step: Step)
    requires BaseOk(s) && RequestsOk(s) && ProgressOk(s) && Enabled(s, step)
    ensures ProgressOk(Next(s, step))
  {
    if WelcomeActs(step) {
      WelcomeKeepsProgress(s, step);
    } else if step.ErrorSent? || step.Delivered? {
      OtherKeepsProgress(s, step);
    } else if step.Breaks? {
      BreakKeepsProgress(s, step.clock);
    } else if step.MainFails? {
      FailureKeepsProgress(s);
    } else {
      MainKeepsProgress(s, step.fd);
    }
  }

  lemma StepKeepsRequests(s: State, step: Step)
    requires BaseOk(s) && RequestsOk(s) && Enabled(s, step)
    ensures RequestsOk(Next(s, step))
  {
    match step
    case Main(fd) => MainKeepsRequests(s, fd);
    case Welcome => WelcomeKeepsRequests(s);
    case Delivered(signal) => DeliverKeepsRequests(s, signal);
    case Breaks(clock) => BreakKeepsRequests(s, clock);
    case _ => OtherKeepsRequests(s, step);
  }

  lemma {:induction false} RunKeepsInv(run: seq<State>, i: nat)
    requires IsRun(run) && i < |run|
    ensures Inv(run[i])
  {
    if i > 0 {
      RunKeepsInv(run, i - 1);
      assert Successor(run[i - 1], run[i - 1 + 1]);
      var step :| Enabled(run[i - 1], step) && run[i] == Next(run[i - 1], step);
      StepKeepsInv(run[i - 1], step);
    }
  }

  // ----- the guarantees -----

  /** The shutdown counter goes down only in a step after which the thread sends a shutdown message. */
  lemma ShutdownReadIsAnswered(s: State, step: Step)
    requires Inv(s) && Enabled(s, step) && s.ev.shutdownFd != -1
    requires Counter(Next(s, step).ev, s.ev.shutdownFd) < Counter(s.ev, s.ev.shutdownFd)
    ensures step == Welcome && Next(s, step).c.welcome == SendingShutdown
    ensures Enabled(Next(s, step), Welcome)
    ensures Next(Next(s, step), Welcome).c.channel == Next(s, step).c.channel + [ShutdownSignal]
  {
    if step.Main? {
      AdvanceRecycles(s.ev, StageOf(s.c), step.fd);
    }
  }

  lemma SuccessorKeepsFds(s: State, s': State)
    requires Successor(s, s')
    ensures SameFds(s, s')
  {
    var step :| Enabled(s, step) && s' == Next(s, step);
    if step.Breaks? {
      BreakKeepsFds(s, step.clock);
    } else {
      OnlyBreaksCount(s, step);
    }
  }

  lemma {:induction false} FdsAlong(run: seq<State>, i: nat, j: nat)
    requires forall k :: 0 <= k < |run| - 1 ==> SameFds(run[k], run[k + 1])
    requires i <= j < |run|
    ensures SameFds(run[i], run[j])
  {
    if i < j {
      FdsAlong(run, i, j - 1);
      assert SameFds(run[j - 1], run[j - 1 + 1]);
    }
  }

  /** Published descriptors never change, however many setups follow. */
  lemma DescriptorsAreForGood(run: seq<State>, i: nat, j: nat)
    requires IsRun(run) && i <= j < |run|
    ensures SameFds(run[i], run[j])
  {
    forall k | 0 <= k < |run| - 1 ensures SameFds(run[k], run[k + 1]) {
      SuccessorKeepsFds(run[k], run[k + 1]);
    }
    FdsAlong(run, i, j);
  }

  /**
   * In every state of every run: no shutdown or reload request is lost, the number of reloads that
   * can get in before a requested shutdown is bounded, and while the process lives the signal
   * eventfds are recycled, exactly two of them after any number of inits.
   */
  lemma NoRequestIsLost(run: seq<State>, i: nat)
    requires IsRun(run) && i < |run|
    ensures ShutdownKept(run[i]) && ReloadKept(run[i])
    ensures run[i].log.requested ==> run[i].log.reloadsAfter <= 1 + run[i].log.failuresAfter
    ensures !Over(run[i].c) ==> Recycled(run[i].ev, StageOf(run[i].c))
    ensures !Over(run[i].c) && run[i].log.inits > 0 ==> Ready(run[i].ev)
  {
    RunKeepsInv(run, i);
    if !Over(run[i].c) {
      FdsAreRecycled(run[i].ev, StageOf(run[i].c));
    }
  }

  /** An eventfd number that is free. */
  lemma {:induction false} FreshFd(open: set<int>) returns (fd: int)
    ensures fd >= 0 && forall n :: n in open ==> n < fd
    decreases open
  {
    fd := 0;
    if open != {} {
      EmptyOrHasMember(open);
      var n :| n in open;
      fd := FreshFd(open - {n});
      assert forall m :: m in open ==> m == n || m in open - {n};
      fd := if n < fd then fd else n + 1;
    }
  }

  /** From a shutdown request to the end of the process, one of the two threads can always do something. */
  lemma ShutdownCanProceed(s: State) returns (step: Step)
    requires Inv(s) && s.log.requested && !Over(s.c)
    ensures Enabled(s, step) && (step.Welcome? || step.Main? || step.Breaks?)
  {
    if Active(s.c.welcome) {
      return Welcome;
    } else if s.c.main.Breaking? {
      return Breaks(None);
    }
    var fd := FreshFd(s.ev.open.Keys);
    DecisionIsSent(s.c.channel);
    return Main(fd);
  }

  /**
   * A shutdown comes in bounded time: after the request the welcome threads of all incarnations
   * together do six operations at most for each reload that gets in first, and six more.
   */
  lemma ShutdownIsBounded(run: seq<State>, i: nat)
    requires IsRun(run) && i < |run| && run[i].log.requested
    ensures run[i].log.movesAfter <= 6 * (1 + run[i].log.reloadsAfter) <= 6 * (2 + run[i].log.failuresAfter)
  {
    RunKeepsInv(run, i);
  }

  /** A reload request is acted upon within six operations: by a reload, or by the end of the process. */
  lemma ReloadIsBounded(run: seq<State>, i: nat)
    requires IsRun(run) && i < |run| && run[i].log.reloadWanted
    ensures run[i].log.movesWanted <= 6
    ensures !Over(run[i].c) && Active(run[i].c.welcome) ==> run[i].log.movesWanted < 6
  {
    RunKeepsInv(run, i);
  }

  /** Whatever asks for them, any window shorter than four seconds sees at most 198 reloads. */
  lemma ReloadsAreRateLimited(run: seq<State>, n: nat, i: nat, j: nat)
    requires IsRun(run) && n < |run| && i <= j < |run[n].log.reloads|
    requires CB.Nanos(run[n].log.reloads[j]) - CB.Nanos(run[n].log.reloads[i]) < 4_000_000_000
    ensures j - i + 1 <= 198
  {
    RunKeepsInv(run, n);
    CB.WindowBound(run[n].log.reloads, i, j);
  }
}
