/** What holds of descriptors and registrations over every run. */
module DescriptorTheorems {
  import opened Sets
  import opened Descriptors
  import opened DescriptorInvariant
  import opened OpenFiles
  import opened RegistrationInvariant

  ghost predicate Inv(s: State) {
    GroundOk(s) && DropOk(s) && RegsOk(s) && FilesRegistered(s) && BatchOk(s)
  }

  lemma StepKeepsInv(s: State, step: Step)
    requires Inv(s) && Enabled(s, step)
    ensures Inv(Next(s, step))
  {
    StepKeepsGround(s, step);
    StepKeepsDrop(s, step);
    StepKeepsRegs(s, step);
    StepKeepsBatch(s, step);
  }

  lemma StartIsOk(addFd: int, dropFd: int)
    requires addFd != dropFd
    ensures Inv(Start(addFd, dropFd))
  {
    StartTableIsOk(addFd, dropFd);
    StartOwnersAreOk(addFd, dropFd);
    StartFilesAreOk(addFd, dropFd);
    StartRegsAreOk(addFd, dropFd);
  }

  lemma StartOwnersAreOk(addFd: int, dropFd: int)
    requires addFd != dropFd
    ensures OwnersOk(Start(addFd, dropFd)) && PhaseOk(Start(addFd, dropFd))
  {
  }

  lemma StartFilesAreOk(addFd: int, dropFd: int)
    requires addFd != dropFd
    ensures FreshFile(Start(addFd, dropFd)) && FilesOk(Start(addFd, dropFd))
  {
  }

  lemma StartRegsAreOk(addFd: int, dropFd: int)
    requires addFd != dropFd
    ensures RegsOk(Start(addFd, dropFd)) && FilesRegistered(Start(addFd, dropFd))
  {
  }

  lemma StartTableIsOk(addFd: int, dropFd: int)
    requires addFd != dropFd
    ensures TableOk(Start(addFd, dropFd).t)
  {
    var s := Start(addFd, dropFd);
    assert s.t.open[addFd].id == 0 && s.t.open[dropFd].id == 1;
    assert IdOpen(s.t, 0) && IdOpen(s.t, 1);
  }

  lemma {:induction false} RunKeepsInv(run: seq<State>, i: nat)
    requires IsRun(run) && i < |run|
    ensures Inv(run[i])
  {
    if i == 0 {
      StartIsOk(run[0].addFd, run[0].dropFd);
    } else {
      RunKeepsInv(run, i - 1);
      assert Successor(run[i - 1], run[i - 1 + 1]);
      var step :| Enabled(run[i - 1], step) && run[i] == Next(run[i - 1], step);
      StepKeepsInv(run[i - 1], step);
    }
  }

  // ----- conservation -----

  /**
   * Each descriptor ever put into the SocketSet is either still open, under a number the set holds,
   * or has been closed; never both, and never closed twice.
   */
  ghost predicate Conserved(s: State) {
    && (forall id :: id in s.inserted ==>
          ((exists n :: n in s.sockets && n in s.t.open && s.t.open[n].id == id) <==> id !in s.t.closed))
    && (forall i, j :: 0 <= i < j < |s.t.closed| ==> s.t.closed[i] != s.t.closed[j])
    && (s.sockets == {} ==> forall id :: id in s.inserted ==> id in s.t.closed)
  }

  lemma SocketsAreConserved(s: State)
    requires Inv(s)
    ensures Conserved(s)
  {
    forall id | id in s.inserted
      ensures (exists n :: n in s.sockets && n in s.t.open && s.t.open[n].id == id) <==> id !in s.t.closed
    {
      if id !in s.t.closed {
        assert IdOpen(s.t, id);
        var n :| n in s.t.open && s.t.open[n].id == id;
        assert n in s.sockets;
      }
    }
  }

  /** The next socket to be taken in is not in the set already and is no special event's. */
  ghost predicate InsertIsNew(s: State) {
    && s.addFd !in s.sockets && s.dropFd !in s.sockets && s.addFd in s.t.open && s.dropFd in s.t.open
    && (Enabled(s, Register) ==> s.pending[0] !in s.sockets && s.pending[0] != s.addFd && s.pending[0] != s.dropFd)
  }

  lemma InsertsAreNew(s: State)
    requires OwnersOk(s)
    ensures InsertIsNew(s)
  {
    if s.pending != [] {
      var fd := s.pending[0];
      assert fd in s.pending && fd in s.t.open;
      assert s.t.open[fd].owner == Passed;
    }
  }

  /**
   * A hang-up removes and closes, if anything, the very socket it was reported for and no other, and
   * ends the loop exactly if none is left; if that socket is gone, a late report of it changes nothing,
   * and the loop goes on.
   */
  ghost predicate HangUpIsSafe(s: State) {
    Enabled(s, HangUp) ==>
      var e := s.batch[0];
      && (e.fd in s.sockets ==> s.t.open[e.fd].file == e.file && s.t.open[e.fd].owner.InSet?)
      && (e.fd in s.sockets ==>
            var s' := Next(s, HangUp);
            && s'.sockets == s.sockets - {e.fd} && s'.t.closed == s.t.closed + [s.t.open[e.fd].id]
            && s'.t.open == s.t.open - {e.fd} && (s'.looping <==> s.sockets != {e.fd}))
      && (e.fd !in s.sockets ==> Next(s, HangUp) == s.(batch := s.batch[1..]))
  }

  lemma HangUpsAreSafe(s: State)
    requires OwnersOk(s) && PhaseOk(s) && BatchOk(s)
    ensures HangUpIsSafe(s)
  {
    if HandlesClient(s) {
      assert EventOk(s, s.batch[0]);
      assert s.batch[0].fd in s.sockets ==> (s.sockets - {s.batch[0].fd} == {} <==> s.sockets == {s.batch[0].fd});
    }
  }

  /** A request is received from the very socket it was reported for, also after numbers were reused. */
  ghost predicate RequestIsSafe(s: State) {
    Enabled(s, Request) ==>
      var e := s.batch[0];
      && e.fd in s.t.open && s.t.open[e.fd].file == e.file && s.t.open[e.fd].owner.InSet?
  }

  lemma RequestsAreSafe(s: State)
    requires OwnersOk(s) && BatchOk(s)
    ensures RequestIsSafe(s)
  {
    assert s.batch != [] && s.looping ==> EventOk(s, s.batch[0]);
  }

  /** A failed wait and the drop request end the loop; then the epoll instance goes, and the sockets can. */
  lemma LeavingLetsGo(s: State, step: Step)
    requires OwnersOk(s) && Enabled(s, step) && (step.Leave? || step.TakeDrop?)
    ensures var s1 := Next(s, step);
      && Enabled(s1, DropEpoll)
      && var s2 := Next(s1, DropEpoll);
      && s2.regs == {} && s2.sockets == s.sockets && s2.t == s.t
      && forall fd :: fd in s.sockets ==> Enabled(s2, CloseOne(fd))
  {
  }

  /** Once the loop is left, every socket still held can be closed, one after the other, until none is left. */
  lemma RemainingSocketsCanBeClosed(s: State) returns (step: Step)
    requires OwnersOk(s) && !s.looping && s.sockets != {}
    ensures step.CloseOne? && Enabled(s, step)
    ensures step.fd in s.sockets && Next(s, step).sockets == s.sockets - {step.fd}
  {
    EmptyOrHasMember(s.sockets);
    var fd :| fd in s.sockets;
    step := CloseOne(fd);
  }

  // ----- the epoll instance -----

  ghost function SocketRegs(s: State, sockets: set<int>): set<Registration> {
    set n | n in sockets :: Registration(n, FileOf(s, n))
  }

  /** The registrations the thread counts on when it sizes its event buffer: the sockets and two more. */
  ghost function Expected(s: State): set<Registration> {
    {Registration(s.addFd, FileOf(s, s.addFd)), Registration(s.dropFd, FileOf(s, s.dropFd))} + SocketRegs(s, s.sockets)
  }

  /**
   * The welcome thread still holds the client descriptor of a socket that this environment has
   * registered and no longer has.
   */
  ghost predicate InWindow(s: State) {
    && s.welcome.Waiting? && FileOf(s, s.welcome.client) in s.known
    && forall n :: n in s.sockets ==> FileOf(s, n) != FileOf(s, s.welcome.client)
  }

  lemma ExpectedAreThere(s: State)
    requires Inv(s) && s.looping
    ensures Expected(s) <= s.regs
  {
  }

  lemma WindowLeavesOne(s: State) returns (stale: Registration)
    requires Inv(s) && s.looping && InWindow(s)
    ensures stale !in Expected(s) && s.regs == Expected(s) + {stale}
  {
    var file := FileOf(s, s.welcome.client);
    assert FileOpen(s.t, file) && FileRegistered(s, file);
    stale :| stale in s.regs && stale.file == file;
    assert RegOk(s, stale);
    ExpectedAreThere(s);
    forall r | r in s.regs ensures r in Expected(s) + {stale} {
      assert RegOk(s, r);
    }
  }

  lemma OutsideWindowExact(s: State)
    requires Inv(s) && s.looping && !InWindow(s)
    ensures s.regs == Expected(s)
  {
    ExpectedAreThere(s);
    forall r | r in s.regs ensures r in Expected(s) {
      assert RegOk(s, r);
      if StaleReg(s, r) {
        StaleMeansWindow(s, r);
      }
    }
  }

  lemma StaleMeansWindow(s: State, r: Registration)
    requires Inv(s) && s.looping && r in s.regs && StaleReg(s, r)
    ensures InWindow(s)
  {
    forall n | n in s.sockets ensures FileOf(s, n) != FileOf(s, s.welcome.client) {
      assert Registration(n, FileOf(s, n)) in s.regs;
    }
  }

  lemma {:induction false} SocketRegsCount(s: State, sockets: set<int>)
    ensures |SocketRegs(s, sockets)| == |sockets|
    decreases sockets
  {
    if sockets != {} {
      EmptyOrHasMember(sockets);
      var n :| n in sockets;
      SocketRegsCount(s, sockets - {n});
      assert SocketRegs(s, sockets) == SocketRegs(s, sockets - {n}) + {Registration(n, FileOf(s, n))};
    }
  }

  lemma ExpectedCount(s: State)
    requires Inv(s)
    ensures |Expected(s)| == |s.sockets| + 2
  {
    SocketRegsCount(s, s.sockets);
    var a, d := Registration(s.addFd, FileOf(s, s.addFd)), Registration(s.dropFd, FileOf(s, s.dropFd));
    assert a !in SocketRegs(s, s.sockets) && d !in SocketRegs(s, s.sockets) && a != d;
    assert |{a, d}| == 2;
    assert {a, d} !! SocketRegs(s, s.sockets);
  }

  /**
   * The registrations are exactly the sockets and the two special events, and fit the event buffer,
   * if and only if the welcome thread does not hold the client of a socket already removed; if it
   * does, there is exactly one more.
   */
  ghost predicate RegistrationsExact(s: State) {
    && (s.regs == Expected(s) <==> !InWindow(s))
    && (|s.regs| <= |s.sockets| + 2 <==> !InWindow(s))
    && |s.regs| <= |s.sockets| + 3
  }

  lemma RegistrationsAreExact(s: State)
    requires Inv(s) && s.looping
    ensures RegistrationsExact(s)
  {
    ExpectedCount(s);
    if InWindow(s) {
      var stale := WindowLeavesOne(s);
      assert stale in s.regs;
    } else {
      OutsideWindowExact(s);
    }
  }

  /** A request of the owner never has to compete for room in the buffer: it cannot come in the window. */
  lemma RequestsFallOutsideTheWindow(s: State)
    requires Inv(s) && s.looping && s.signalled
    ensures !InWindow(s) && |s.regs| <= |s.sockets| + 2
  {
    RegistrationsAreExact(s);
  }

  /** Nor does the drop request: whoever waits for this thread's end holds no client of this environment. */
  lemma DropsFallOutsideTheWindow(s: State)
    requires Inv(s) && s.looping && s.dropOn
    ensures !InWindow(s) && |s.regs| <= |s.sockets| + 2
  {
    RegistrationsAreExact(s);
  }

  /** The registration an event is reported for. */
  ghost function Source(s: State, e: Event): Registration {
    match e
    case Add => Registration(s.addFd, FileOf(s, s.addFd))
    case Drop => Registration(s.dropFd, FileOf(s, s.dropFd))
    case Client(fd, file) => Registration(fd, file)
  }

  /** Two events of one report come from two registrations. */
  lemma SourcesDiffer(s: State, batch: seq<Event>, i: nat, j: nat)
    requires Inv(s) && s.looping && ValidBatch(s, batch) && i < j < |batch|
    ensures Source(s, batch[i]) != Source(s, batch[j])
  {
    assert batch[i] != batch[j];
  }

  lemma SourceIsRegistered(s: State, batch: seq<Event>, i: nat)
    requires Inv(s) && s.looping && ValidBatch(s, batch) && i < |batch|
    ensures Source(s, batch[i]) in s.regs
  {
  }

  lemma ReportIsSmall(s: State, batch: seq<Event>)
    requires Inv(s) && s.looping && ValidBatch(s, batch)
    ensures |batch| <= |s.regs|
  {
    var sources := seq(|batch|, i requires 0 <= i < |batch| => Source(s, batch[i]));
    forall i | 0 <= i < |sources| ensures sources[i] in s.regs {
      SourceIsRegistered(s, batch, i);
    }
    forall i, j | 0 <= i < j < |sources| ensures sources[i] != sources[j] {
      SourcesDiffer(s, batch, i, j);
    }
    DistinctFit(sources, s.regs);
  }

  /**
   * The buffer of len + 2 events holds a report of everything that is ready whenever a special event
   * is on, so it never crowds one out.
   */
  lemma ReportFits(s: State, batch: seq<Event>)
    requires Inv(s) && s.looping && ValidBatch(s, batch)
    ensures !InWindow(s) ==> |batch| <= |s.sockets| + 2
    ensures s.signalled || s.dropOn ==> !InWindow(s)
  {
    ReportIsSmall(s, batch);
    RegistrationsAreExact(s);
    if s.signalled {
      RequestsFallOutsideTheWindow(s);
    } else if s.dropOn {
      DropsFallOutsideTheWindow(s);
    }
  }

  /** All of it, in every state of every run. */
  lemma EveryRunIsSafe(run: seq<State>, i: nat)
    requires IsRun(run) && i < |run|
    ensures Conserved(run[i]) && InsertIsNew(run[i]) && HangUpIsSafe(run[i]) && RequestIsSafe(run[i])
    ensures run[i].looping ==> RegistrationsExact(run[i])
    ensures run[i].looping && (run[i].signalled || run[i].dropOn) ==> !InWindow(run[i])
  {
    RunKeepsInv(run, i);
    SocketsAreConserved(run[i]);
    InsertsAreNew(run[i]);
    HangUpsAreSafe(run[i]);
    RequestsAreSafe(run[i]);
    if run[i].looping {
      RegistrationsAreExact(run[i]);
    }
    if run[i].looping && run[i].signalled {
      RequestsFallOutsideTheWindow(run[i]);
    }
    if run[i].looping && run[i].dropOn {
      DropsFallOutsideTheWindow(run[i]);
    }
  }
}
