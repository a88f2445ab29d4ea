/** Epoll registrations and the batch in hand, step by step. */
module RegistrationInvariant {
  import opened Descriptors
  import opened DescriptorInvariant
  import opened OpenFiles

  // ----- registrations -----

  ghost predicate SpecialReg(s: State, r: Registration) {
    (r.fd == s.addFd || r.fd == s.dropFd) && r.file == FileOf(s, r.fd)
  }

  ghost predicate LiveReg(s: State, r: Registration) {
    r.fd in s.sockets && r.file == FileOf(s, r.fd)
  }

  /** Left behind by a socket the set has closed while the welcome thread still held its client descriptor. */
  ghost predicate StaleReg(s: State, r: Registration) {
    && r.fd !in s.sockets && r.fd != s.addFd && r.fd != s.dropFd
    && s.welcome.Waiting? && r.file == FileOf(s, s.welcome.client) && r.file in s.known
  }

  ghost predicate RegOk(s: State, r: Registration) {
    SpecialReg(s, r) || LiveReg(s, r) || StaleReg(s, r)
  }

  ghost predicate FileRegistered(s: State, file: nat) {
    exists r :: r in s.regs && r.file == file
  }

  /** The epoll instance knows every open file registered and not yet closed. */
  ghost predicate FilesRegistered(s: State) {
    s.regs != {} ==> forall f :: f in s.known && FileOpen(s.t, f) ==> FileRegistered(s, f)
  }

  ghost predicate RegsOk(s: State) {
    && (s.looping ==> s.regs != {})
    && (forall r :: r in s.regs ==> RegOk(s, r))
    && (forall q, r :: q in s.regs && r in s.regs && q.file == r.file ==> q == r)
    && (s.regs != {} ==>
          && Registration(s.addFd, FileOf(s, s.addFd)) in s.regs
          && Registration(s.dropFd, FileOf(s, s.dropFd)) in s.regs
          && (forall n :: n in s.sockets ==> Registration(n, FileOf(s, n)) in s.regs))
  }

  /** No new descriptor is of a registered file, and no registration goes whose file is still open. */
  lemma FilesStayRegistered(s: State, s': State)
    requires FilesRegistered(s) && s'.known == s.known && s'.regs <= s.regs
    requires forall n :: n in s'.t.open && s'.t.open[n].file in s.known ==>
               n in s.t.open && s.t.open[n].file == s'.t.open[n].file
    requires forall r :: r in s.regs && FileOpen(s'.t, r.file) ==> r in s'.regs
    ensures FilesRegistered(s')
  {
    forall f | s'.regs != {} && f in s'.known && FileOpen(s'.t, f) ensures FileRegistered(s', f) {
      var n :| n in s'.t.open && s'.t.open[n].file == f;
      assert n in s.t.open && s.t.open[n].file == f;
      assert FileOpen(s.t, f) && FileRegistered(s, f);
      var r :| r in s.regs && r.file == f;
      assert r in s'.regs;
    }
  }

  lemma KeepingKeepsRegs(s: State, s': State)
    requires OwnersOk(s) && RegsOk(s) && FilesRegistered(s) && Keeps(s, s')
    ensures RegsOk(s') && FilesRegistered(s')
  {
    if s'.regs != {} {
      forall r | r in s'.regs ensures RegOk(s', r) {
        assert RegOk(s, r);
      }
      FilesStayRegistered(s, s');
    }
  }

  lemma OpenedFileIsUnknown(s: State, s': State, fd: int)
    requires FreshFile(s) && KnownFiles(s) && Opens(s, s', fd)
    ensures s'.t.open[fd].file !in s.known
  {
  }

  lemma OpeningKeepsRegs(s: State, s': State, fd: int)
    requires GroundOk(s) && RegsOk(s) && FilesRegistered(s) && Opens(s, s', fd)
    ensures RegsOk(s') && FilesRegistered(s')
  {
    forall r | r in s'.regs ensures RegOk(s', r) {
      assert RegOk(s, r);
    }
    OpenedFileIsUnknown(s, s', fd);
    FilesStayRegistered(s, s');
  }

  lemma TakingKeepsRegs(s: State, s': State, fd: int)
    requires OwnersOk(s) && KnownFiles(s) && KnownOk(s) && RegsOk(s) && TakesIn(s, s', fd)
    ensures RegsOk(s')
  {
    var added := Registration(fd, s.t.open[fd].file);
    forall r | r in s'.regs ensures RegOk(s', r) && (r.file == added.file ==> r == added) {
      assert r != added ==> RegOk(s, r);
    }
  }

  lemma TakingKeepsFilesRegistered(s: State, s': State, fd: int)
    requires FilesRegistered(s) && s.regs != {} && TakesIn(s, s', fd)
    ensures FilesRegistered(s')
  {
    forall f | f in s'.known && FileOpen(s'.t, f) ensures FileRegistered(s', f) {
      if f == s.t.open[fd].file {
        assert Registration(fd, f) in s'.regs;
      } else {
        var n :| n in s'.t.open && s'.t.open[n].file == f;
        assert n in s.t.open && s.t.open[n].file == f;
        assert FileOpen(s.t, f) && FileRegistered(s, f);
        var r :| r in s.regs && r.file == f;
        assert r in s'.regs;
      }
    }
  }

  /** The registration of a socket just closed survives only if the welcome thread holds its client. */
  lemma SurvivorIsStale(s: State, s': State, fd: int, r: Registration)
    requires GroundOk(s) && RegsOk(s) && Closes(s, s', fd) && r in s'.regs && LiveReg(s, r) && r.fd == fd
    ensures StaleReg(s', r)
  {
    var n :| n in s'.t.open && s'.t.open[n].file == r.file;
    assert n in s.t.open && n != fd;
    assert n in HeldClient(s.welcome);
  }

  /** A stale registration goes when the welcome thread drops its client descriptor. */
  lemma StaleGoesWithClient(s: State, s': State, fd: int, r: Registration)
    requires GroundOk(s) && RegsOk(s) && Closes(s, s', fd) && r in s.regs && StaleReg(s, r)
    requires fd in HeldClient(s.welcome)
    ensures r !in s'.regs
  {
    forall n | n in s'.t.open ensures s'.t.open[n].file != r.file {
      assert n in s.t.open && (n in s.sockets ==> Registration(n, FileOf(s, n)) in s.regs);
    }
  }

  lemma ClosingKeepsRegOk(s: State, s': State, fd: int, r: Registration)
    requires GroundOk(s) && RegsOk(s) && Closes(s, s', fd) && r in s'.regs
    ensures RegOk(s', r)
  {
    assert RegOk(s, r);
    if LiveReg(s, r) && r.fd == fd {
      SurvivorIsStale(s, s', fd, r);
    } else if StaleReg(s, r) && fd in HeldClient(s.welcome) {
      StaleGoesWithClient(s, s', fd, r);
    }
  }

  lemma OpenFileSurvives(s: State, s': State, fd: int, n: int)
    requires Closes(s, s', fd) && n in s.t.open && n != fd
    ensures FileOpen(s'.t, s.t.open[n].file)
  {
    assert n in s'.t.open && s'.t.open[n] == s.t.open[n];
  }

  lemma ClosingKeepsRegs(s: State, s': State, fd: int)
    requires GroundOk(s) && RegsOk(s) && Closes(s, s', fd)
    ensures RegsOk(s')
  {
    forall r | r in s'.regs ensures RegOk(s', r) {
      ClosingKeepsRegOk(s, s', fd, r);
    }
    OpenFileSurvives(s, s', fd, s.addFd);
    OpenFileSurvives(s, s', fd, s.dropFd);
    assert s.looping ==> Registration(s.addFd, FileOf(s, s.addFd)) in s'.regs;
    forall n | n in s'.sockets && s'.regs != {} ensures Registration(n, FileOf(s', n)) in s'.regs {
      OpenFileSurvives(s, s', fd, n);
    }
  }

  lemma StepKeepsRegs(s: State, step: Step)
    requires GroundOk(s) && RegsOk(s) && FilesRegistered(s) && Enabled(s, step)
    ensures RegsOk(Next(s, step)) && FilesRegistered(Next(s, step))
  {
    if OpensFd(step) {
      OpeningStepOpens(s, step);
      OpeningKeepsRegs(s, Next(s, step), OpenedBy(step));
    } else if step.Register? {
      RegisterTakesIn(s);
      TakingKeepsRegs(s, Next(s, step), s.pending[0]);
      TakingKeepsFilesRegistered(s, Next(s, step), s.pending[0]);
    } else if ClosedBy(s, step).Some? {
      ClosingStepCloses(s, step);
      ClosingKeepsRegs(s, Next(s, step), ClosedBy(s, step).value);
      FilesStayRegistered(s, Next(s, step));
    } else {
      QuietStepKeeps(s, step);
      KeepingKeepsRegs(s, Next(s, step));
    }
  }

  // ----- the batch in hand -----

  /**
   * A client event still to be handled names, if the set holds that number at all, the very socket
   * it was reported for.
   */
  ghost predicate EventOk(s: State, e: Event) {
    e.Client? ==> e.file in s.known && (e.fd in s.sockets ==> e.file == FileOf(s, e.fd))
  }

  /** No event is out of date while a new socket can be taken in. */
  ghost predicate BatchOk(s: State) {
    s.looping ==>
      && (forall e :: e in s.batch ==> EventOk(s, e))
      && (Add in s.batch || s.taking ==> forall e :: e in s.batch && e.Client? ==> e.fd in s.sockets)
  }

  lemma WaitKeepsBatch(s: State, batch: seq<Event>)
    requires GroundOk(s) && RegsOk(s) && Enabled(s, Wait(batch))
    ensures BatchOk(Next(s, Wait(batch)))
  {
    forall e | e in batch ensures EventOk(s, e) && (e.Client? && s.signalled ==> e.fd in s.sockets) {
      if e.Client? {
        assert RegOk(s, Registration(e.fd, e.file));
      }
    }
  }

  lemma HangUpKeepsBatch(s: State)
    requires OwnersOk(s) && EventsOk(s) && PhaseOk(s) && BatchOk(s) && Enabled(s, HangUp)
    ensures BatchOk(Next(s, HangUp))
  {
    FirstAndLater(s.batch);
    var s' := Next(s, HangUp);
    forall e | s'.looping && e in s'.batch ensures EventOk(s', e) {
      assert EventOk(s, e);
    }
  }

  lemma TakingKeepsBatch(s: State, s': State, fd: int)
    requires BatchOk(s) && s.taking && TakesIn(s, s', fd) && s'.batch == s.batch
    ensures BatchOk(s')
  {
    forall e | s'.looping && e in s'.batch ensures EventOk(s', e) {
      assert EventOk(s, e);
    }
  }

  /** The set is as it was, and no event has come in. */
  ghost predicate SameMembers(s: State, s': State) {
    && (s'.looping ==> s.looping) && s'.sockets == s.sockets && s'.known == s.known
    && (forall n :: n in s.sockets ==> FileOf(s', n) == FileOf(s, n))
    && (s'.looping ==> forall e :: e in s'.batch ==> e in s.batch)
    && (s'.looping && s'.taking ==> s.taking || Add in s.batch)
  }

  lemma SameMembersKeepBatch(s: State, s': State)
    requires BatchOk(s) && SameMembers(s, s')
    ensures BatchOk(s')
  {
    forall e | s'.looping && e in s'.batch ensures EventOk(s', e) {
      assert EventOk(s, e);
    }
  }

  lemma CloseKeepsMembers(s: State, step: Step)
    requires OwnersOk(s) && Enabled(s, step) && ClosedBy(s, step).Some? && !step.HangUp?
    ensures Next(s, step).looping ==> SameMembers(s, Next(s, step))
  {
  }

  lemma OtherStepKeepsMembers(s: State, step: Step)
    requires OwnersOk(s) && Enabled(s, step) && !step.Wait? && !step.Register? && ClosedBy(s, step).None? && !step.HangUp?
    ensures Next(s, step).looping ==> SameMembers(s, Next(s, step))
  {
  }

  lemma StepKeepsBatch(s: State, step: Step)
    requires GroundOk(s) && RegsOk(s) && BatchOk(s) && Enabled(s, step)
    ensures BatchOk(Next(s, step))
  {
    if step.Wait? {
      WaitKeepsBatch(s, step.batch);
    } else if step.HangUp? {
      HangUpKeepsBatch(s);
    } else if step.Register? {
      RegisterTakesIn(s);
      TakingKeepsBatch(s, Next(s, step), s.pending[0]);
    } else {
      if ClosedBy(s, step).Some? {
        CloseKeepsMembers(s, step);
      } else {
        OtherStepKeepsMembers(s, step);
      }
      if Next(s, step).looping {
        SameMembersKeepBatch(s, Next(s, step));
      }
    }
  }
}
