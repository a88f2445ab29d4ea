/**
 * Open files: which descriptors share one, and which of them the environment thread has registered.
 * Steps enter only by what they do to descriptors: nothing, open one, close one, or take one in.
 */
module OpenFiles {
  import opened Descriptors
  import opened DescriptorInvariant

  // ----- what a step does to descriptors and registrations -----

  ghost predicate SameSets(s: State, s': State) {
    && s'.addFd == s.addFd && s'.dropFd == s.dropFd
    && s'.sockets == s.sockets && s'.known == s.known && s'.inserted == s.inserted
  }

  /** Nothing is opened, closed or taken in; at most the epoll instance goes, once the loop is left. */
  ghost predicate Keeps(s: State, s': State) {
    && s'.t.open.Keys == s.t.open.Keys && s'.t.nextFile == s.t.nextFile && s'.t.nextId == s.t.nextId
    && (forall n :: n in s.t.open ==> s'.t.open[n].file == s.t.open[n].file && s'.t.open[n].id == s.t.open[n].id)
    && SameSets(s, s')
    && HeldClient(s'.welcome) == HeldClient(s.welcome) && (s.welcome.Waiting? ==> s'.welcome == s.welcome)
    && (s'.looping ==> s.looping)
    && (s'.regs == s.regs || (s'.regs == {} && !s'.looping))
  }

  /** `fd` is opened, on a new open file or as the duplicate of a client not registered yet. */
  ghost predicate Opens(s: State, s': State, fd: int) {
    && fd !in s.t.open && s'.t.open.Keys == s.t.open.Keys + {fd}
    && (forall n :: n in s.t.open ==> s'.t.open[n] == s.t.open[n])
    && s'.t.open[fd].id == s.t.nextId && s'.t.nextId == s.t.nextId + 1
    && SameSets(s, s') && s'.regs == s.regs && s'.looping == s.looping
    && (s.welcome.Waiting? ==> s'.welcome == s.welcome)
    && HeldClient(s.welcome) <= HeldClient(s'.welcome)
    && (|| (s'.t.open[fd].file == s.t.nextFile && s'.t.nextFile == s.t.nextFile + 1)
        || (s.welcome.Accepted? && s.welcome.client in s.t.open && s'.t.nextFile == s.t.nextFile
            && s'.t.open[fd].file == s.t.open[s.welcome.client].file))
  }

  ghost predicate Closes(s: State, s': State, fd: int) {
    && fd in s.t.open && fd != s.addFd && fd != s.dropFd
    && s'.t == CloseFd(s.t, fd) && s'.regs == Surviving(s.regs, s'.t)
    && s'.addFd == s.addFd && s'.dropFd == s.dropFd && s'.known == s.known && s'.inserted == s.inserted
    && s'.sockets == s.sockets - {fd}
    && (s'.looping ==> s.looping)
    && (fd in HeldClient(s.welcome) ==> s'.welcome.Idle?)
    && (fd !in HeldClient(s.welcome) ==> HeldClient(s'.welcome) == HeldClient(s.welcome))
    && (fd !in HeldClient(s.welcome) && s.welcome.Waiting? ==> s'.welcome == s.welcome)
  }

  /** `fd`, the duplicate of the client of the request in hand, is registered and put into the set. */
  ghost predicate TakesIn(s: State, s': State, fd: int) {
    && fd in s.t.open && fd !in s.sockets && fd != s.addFd && fd != s.dropFd
    && s'.t == SetOwner(s.t, fd, InSet)
    && s'.addFd == s.addFd && s'.dropFd == s.dropFd && s'.welcome == s.welcome && s'.looping == s.looping
    && s'.sockets == s.sockets + {fd}
    && s'.inserted == s.inserted + {s.t.open[fd].id}
    && s.looping && s.welcome.Waiting? && s.welcome.client != fd
    && var file := s.t.open[fd].file;
    && file !in s.known && file == FileOf(s, s.welcome.client)
    && s'.known == s.known + {file} && s'.regs == s.regs + {Registration(fd, file)}
  }

  lemma ClosingStepCloses(s: State, step: Step)
    requires OwnersOk(s) && Enabled(s, step) && ClosedBy(s, step).Some?
    ensures Closes(s, Next(s, step), ClosedBy(s, step).value)
  {
  }

  lemma HandOverKeeps(s: State, step: Step)
    requires OwnersOk(s) && Enabled(s, step) && HandsOver(step) && ClosedBy(s, step).None?
    ensures Keeps(s, Next(s, step))
  {
  }

  lemma OtherStepKeeps(s: State, step: Step)
    requires Enabled(s, step) && MovesNothing(s, step)
    ensures Keeps(s, Next(s, step))
  {
  }

  lemma QuietStepKeeps(s: State, step: Step)
    requires OwnersOk(s) && Enabled(s, step) && ClosedBy(s, step).None? && !OpensFd(step) && !step.Register?
    ensures Keeps(s, Next(s, step))
  {
    if HandsOver(step) {
      HandOverKeeps(s, step);
    } else {
      OtherStepKeeps(s, step);
    }
  }

  ghost function OpenedBy(step: Step): int
    requires OpensFd(step)
  {
    match step
    case Accept(fd) => fd
    case Duplicate(fd) => fd
    case ForeignOpen(fd) => fd
  }

  lemma OpeningStepOpens(s: State, step: Step)
    requires TableOk(s.t) && Enabled(s, step) && OpensFd(step)
    ensures Opens(s, Next(s, step), OpenedBy(step))
  {
  }

  lemma RegisterTakesIn(s: State)
    requires OwnersOk(s) && PhaseOk(s) && FreshFile(s) && Enabled(s, Register)
    ensures TakesIn(s, Next(s, Register), s.pending[0])
  {
    assert s.pending[0] in s.pending;
  }

  // ----- the file of the request in hand -----

  /** A copy is in the channel of a thread that still listens. */
  predicate Underway(s: State) {
    s.looping && s.pending != []
  }

  /** A client's open file is registered only once its copy is taken from the channel. */
  ghost predicate FreshFile(s: State) {
    && (s.welcome.Accepted? || s.welcome.Duplicated? || s.welcome.Handed? || (s.welcome.Waiting? && Underway(s)) ==>
          s.welcome.client in s.t.open && s.t.open[s.welcome.client].file !in s.known)
    && (s.welcome.Accepted? ==>
          forall n :: n in s.t.open && n != s.welcome.client ==> s.t.open[n].file != s.t.open[s.welcome.client].file)
    && (s.welcome.Duplicated? ==>
          s.welcome.copy in s.t.open && s.t.open[s.welcome.copy].file == s.t.open[s.welcome.client].file)
    && ((s.welcome.Handed? || s.welcome.Waiting?) && Underway(s) ==>
          s.pending[0] in s.t.open && s.t.open[s.pending[0]].file == s.t.open[s.welcome.client].file)
  }

  lemma HandOverKeepsFresh(s: State, step: Step)
    requires OwnersOk(s) && PhaseOk(s) && FreshFile(s) && Enabled(s, step) && HandsOver(step)
    ensures FreshFile(Next(s, step))
  {
  }

  lemma OpeningKeepsFresh(s: State, step: Step)
    requires TableOk(s.t) && OwnersOk(s) && PhaseOk(s) && KnownFiles(s) && FreshFile(s)
    requires Enabled(s, step) && OpensFd(step)
    ensures FreshFile(Next(s, step))
  {
    match step
    case Accept(fd) => AcceptKeepsFresh(s, fd);
    case Duplicate(fd) => DuplicateKeepsFresh(s, fd);
    case ForeignOpen(fd) => ForeignOpenKeepsFresh(s, fd);
  }

  lemma AcceptKeepsFresh(s: State, fd: int)
    requires TableOk(s.t) && PhaseOk(s) && KnownFiles(s) && Enabled(s, Accept(fd))
    ensures FreshFile(Next(s, Accept(fd)))
  {
  }

  lemma DuplicateKeepsFresh(s: State, fd: int)
    requires PhaseOk(s) && FreshFile(s) && Enabled(s, Duplicate(fd))
    ensures FreshFile(Next(s, Duplicate(fd)))
  {
  }

  lemma ForeignOpenKeepsFresh(s: State, fd: int)
    requires TableOk(s.t) && OwnersOk(s) && FreshFile(s) && Enabled(s, ForeignOpen(fd))
    ensures FreshFile(Next(s, ForeignOpen(fd)))
  {
  }

  lemma RegisterKeepsFresh(s: State)
    requires PhaseOk(s) && FreshFile(s) && Enabled(s, Register)
    ensures FreshFile(Next(s, Register))
  {
  }

  lemma ClosingKeepsFresh(s: State, step: Step)
    requires OwnersOk(s) && PhaseOk(s) && FreshFile(s) && Enabled(s, step)
    requires !HandsOver(step) && ClosedBy(s, step).Some?
    ensures FreshFile(Next(s, step))
  {
    OtherCloseReleases(s, step);
    ReleaseKeepsFresh(s, Next(s, step), ClosedBy(s, step).value);
  }

  /** A close elsewhere leaves the request in hand alone; with the head of the channel goes the request. */
  lemma ReleaseKeepsFresh(s: State, s': State, fd: int)
    requires OwnersOk(s) && PhaseOk(s) && FreshFile(s) && Releases(s, s', fd)
    requires s'.welcome == s.welcome && s'.known == s.known && (s'.looping ==> s.looping)
    ensures FreshFile(s')
  {
  }

  lemma OtherKeepsFresh(s: State, step: Step)
    requires OwnersOk(s) && PhaseOk(s) && FreshFile(s) && Enabled(s, step)
    requires !HandsOver(step) && MovesNothing(s, step)
    ensures FreshFile(Next(s, step))
  {
  }

  /** Once the channel is found empty, the socket of the request in hand is registered. */
  ghost predicate TakenOk(s: State) {
    s.taking && s.pending == [] ==> s.welcome.Waiting? && FileOf(s, s.welcome.client) in s.known
  }

  lemma RegisterKeepsTaken(s: State)
    requires OwnersOk(s) && PhaseOk(s) && FreshFile(s) && Enabled(s, Register)
    ensures TakenOk(Next(s, Register))
  {
  }

  lemma OtherKeepsTaken(s: State, step: Step)
    requires OwnersOk(s) && PhaseOk(s) && EventsOk(s) && TakenOk(s) && Enabled(s, step) && !step.Register?
    ensures TakenOk(Next(s, step))
  {
  }

  // ----- sharing -----

  ghost predicate KnownFiles(s: State) {
    && (forall f :: f in s.known ==> f < s.t.nextFile)
    && (forall n :: n in s.sockets && n in s.t.open ==> s.t.open[n].file in s.known)
  }

  /** Two descriptors of one open file: one of them is the client descriptor the welcome thread holds. */
  ghost predicate SharingOk(s: State) {
    forall a, b :: a in s.t.open && b in s.t.open && a != b && s.t.open[a].file == s.t.open[b].file ==>
      a in HeldClient(s.welcome) || b in HeldClient(s.welcome)
  }

  /** The special events' files are theirs alone; a registered file belongs to the set or the held client. */
  ghost predicate KnownOk(s: State) {
    && (forall n :: n in s.t.open && n != s.addFd ==> s.t.open[n].file != FileOf(s, s.addFd))
    && (forall n :: n in s.t.open && n != s.dropFd ==> s.t.open[n].file != FileOf(s, s.dropFd))
    && FileOf(s, s.addFd) !in s.known && FileOf(s, s.dropFd) !in s.known
    && (forall n :: n in s.t.open && s.t.open[n].file in s.known ==> n in s.sockets || n in HeldClient(s.welcome))
  }

  /** A descriptor put into the set is still in it or closed. */
  ghost predicate InsertedOk(s: State) {
    && (forall id :: id in s.inserted ==> id < s.t.nextId)
    && (forall n :: n in s.t.open ==> (s.t.open[n].id in s.inserted <==> n in s.sockets))
  }

  /** What is known of descriptors and open files, apart from registrations. */
  ghost predicate FilesOk(s: State) {
    KnownFiles(s) && SharingOk(s) && KnownOk(s) && InsertedOk(s)
  }

  ghost predicate GroundOk(s: State) {
    TableOk(s.t) && OwnersOk(s) && PhaseOk(s) && EventsOk(s) && FreshFile(s) && TakenOk(s) && FilesOk(s)
  }

  lemma KeepingKeepsFiles(s: State, s': State)
    requires OwnersOk(s) && FilesOk(s) && Keeps(s, s')
    ensures FilesOk(s')
  {
  }

  lemma OpeningKeepsSharing(s: State, s': State, fd: int)
    requires TableOk(s.t) && OwnersOk(s) && FreshFile(s) && KnownFiles(s) && SharingOk(s) && Opens(s, s', fd)
    ensures KnownFiles(s') && SharingOk(s')
  {
  }

  lemma OpeningKeepsKnown(s: State, s': State, fd: int)
    requires TableOk(s.t) && OwnersOk(s) && FreshFile(s) && FilesOk(s) && Opens(s, s', fd)
    ensures KnownOk(s') && InsertedOk(s')
  {
    assert s.addFd in s.t.open && s.dropFd in s.t.open;
  }

  lemma ClosingKeepsSharing(s: State, s': State, fd: int)
    requires KnownFiles(s) && SharingOk(s) && InsertedOk(s) && Closes(s, s', fd)
    ensures KnownFiles(s') && SharingOk(s') && InsertedOk(s')
  {
  }

  lemma ClosingKeepsKnown(s: State, s': State, fd: int)
    requires OwnersOk(s) && KnownOk(s) && Closes(s, s', fd)
    ensures KnownOk(s')
  {
  }

  lemma TakingKeepsSharing(s: State, s': State, fd: int)
    requires TableOk(s.t) && KnownFiles(s) && SharingOk(s) && TakesIn(s, s', fd)
    ensures KnownFiles(s') && SharingOk(s')
  {
  }

  lemma TakingKeepsKnown(s: State, s': State, fd: int)
    requires OwnersOk(s) && SharingOk(s) && KnownOk(s) && TakesIn(s, s', fd)
    ensures KnownOk(s')
  {
  }

  lemma TakingKeepsInserted(s: State, s': State, fd: int)
    requires TableOk(s.t) && InsertedOk(s) && TakesIn(s, s', fd)
    ensures InsertedOk(s')
  {
    assert forall n :: n in s.t.open && n != fd ==> s.t.open[n].id != s.t.open[fd].id;
  }

  lemma StepKeepsFresh(s: State, step: Step)
    requires TableOk(s.t) && OwnersOk(s) && PhaseOk(s) && KnownFiles(s) && FreshFile(s) && Enabled(s, step)
    ensures FreshFile(Next(s, step))
  {
    if HandsOver(step) {
      HandOverKeepsFresh(s, step);
    } else if OpensFd(step) {
      OpeningKeepsFresh(s, step);
    } else if step.Register? {
      RegisterKeepsFresh(s);
    } else if ClosedBy(s, step).Some? {
      ClosingKeepsFresh(s, step);
    } else {
      OtherKeepsFresh(s, step);
    }
  }

  lemma StepKeepsFiles(s: State, step: Step)
    requires TableOk(s.t) && OwnersOk(s) && PhaseOk(s) && FreshFile(s) && FilesOk(s) && Enabled(s, step)
    ensures FilesOk(Next(s, step))
  {
    if OpensFd(step) {
      OpeningStepOpens(s, step);
      OpeningKeepsSharing(s, Next(s, step), OpenedBy(step));
      OpeningKeepsKnown(s, Next(s, step), OpenedBy(step));
    } else if step.Register? {
      RegisterTakesIn(s);
      TakingKeepsSharing(s, Next(s, step), s.pending[0]);
      TakingKeepsKnown(s, Next(s, step), s.pending[0]);
      TakingKeepsInserted(s, Next(s, step), s.pending[0]);
    } else if ClosedBy(s, step).Some? {
      ClosingStepCloses(s, step);
      ClosingKeepsSharing(s, Next(s, step), ClosedBy(s, step).value);
      ClosingKeepsKnown(s, Next(s, step), ClosedBy(s, step).value);
    } else {
      QuietStepKeeps(s, step);
      KeepingKeepsFiles(s, Next(s, step));
    }
  }

  lemma StepKeepsGround(s: State, step: Step)
    requires GroundOk(s) && Enabled(s, step)
    ensures GroundOk(Next(s, step))
  {
    StepKeepsTable(s, step);
    StepKeepsOwners(s, step);
    StepKeepsPhase(s, step);
    StepKeepsEvents(s, step);
    StepKeepsFresh(s, step);
    if step.Register? {
      RegisterKeepsTaken(s);
    } else {
      OtherKeepsTaken(s, step);
    }
    StepKeepsFiles(s, step);
  }
}
