/** What the descriptor transition system keeps in every step. */
module DescriptorInvariant {
  import opened Outcomes
  import opened Descriptors

  // ----- the kernel's table -----

  ghost predicate IdOpen(t: Table, id: nat) {
    exists n :: n in t.open && t.open[n].id == id
  }

  /** Every descriptor ever opened is open under one number or has been closed, once. */
  ghost predicate TableOk(t: Table) {
    && (forall n :: n in t.open ==> t.open[n].id < t.nextId && t.open[n].file < t.nextFile && t.open[n].id !in t.closed)
    && (forall m, n :: m in t.open && n in t.open && m != n ==> t.open[m].id != t.open[n].id)
    && (forall i, j :: 0 <= i < j < |t.closed| ==> t.closed[i] != t.closed[j])
    && (forall i :: 0 <= i < |t.closed| ==> t.closed[i] < t.nextId)
    && (forall id :: 0 <= id < t.nextId ==> IdOpen(t, id) || id in t.closed)
  }

  lemma OpenKeepsTable(t: Table, fd: int, file: nat, owner: Owner)
    requires TableOk(t) && fd !in t.open
    ensures TableOk(OpenFd(t, fd, file, owner))
  {
    var t' := OpenFd(t, fd, file, owner);
    forall id | 0 <= id < t'.nextId ensures IdOpen(t', id) || id in t'.closed {
      if id == t.nextId {
        assert fd in t'.open && t'.open[fd].id == id;
      } else if IdOpen(t, id) {
        var n :| n in t.open && t.open[n].id == id;
        assert n in t'.open && t'.open[n].id == id;
      }
    }
  }

  lemma CloseKeepsTable(t: Table, fd: int)
    requires TableOk(t) && fd in t.open
    ensures TableOk(CloseFd(t, fd))
  {
    var t' := CloseFd(t, fd);
    forall id | 0 <= id < t'.nextId ensures IdOpen(t', id) || id in t'.closed {
      if id != t.open[fd].id && IdOpen(t, id) {
        var n :| n in t.open && t.open[n].id == id;
        assert n in t'.open && t'.open[n].id == id;
      } else if id == t.open[fd].id {
        assert t'.closed[|t.closed|] == id;
      } else {
        var k :| 0 <= k < |t.closed| && t.closed[k] == id;
        assert t'.closed[k] == id;
      }
    }
    assert forall n :: n in t'.open ==> t.open[n].id != t.open[fd].id;
  }

  lemma SetOwnerKeepsTable(t: Table, fd: int, owner: Owner)
    requires TableOk(t) && fd in t.open
    ensures TableOk(SetOwner(t, fd, owner))
  {
    var t' := SetOwner(t, fd, owner);
    forall id | 0 <= id < t'.nextId ensures IdOpen(t', id) || id in t'.closed {
      if IdOpen(t, id) {
        var n :| n in t.open && t.open[n].id == id;
        assert n in t'.open && t'.open[n].id == id;
      }
    }
  }

  lemma StepKeepsTable(s: State, step: Step)
    requires TableOk(s.t) && Enabled(s, step)
    ensures TableOk(Next(s, step).t)
  {
    match step
    case Accept(fd) => OpenKeepsTable(s.t, fd, s.t.nextFile, WelcomeClient);
    case Refuse => CloseKeepsTable(s.t, s.welcome.client);
    case Duplicate(fd) => OpenKeepsTable(s.t, fd, s.t.open[s.welcome.client].file, Passed);
    case HandFails => CloseKeepsTable(s.t, s.welcome.copy);
    case HandElsewhere => SetOwnerKeepsTable(s.t, s.welcome.copy, Foreign);
    case Return => CloseKeepsTable(s.t, s.welcome.client);
    case Register => SetOwnerKeepsTable(s.t, s.pending[0], InSet);
    case RegisterFails => CloseKeepsTable(s.t, s.pending[0]);
    case HangUp => if s.batch[0].fd in s.sockets { CloseKeepsTable(s.t, s.batch[0].fd); }
    case CloseOne(fd) => CloseKeepsTable(s.t, fd);
    case DropPending => CloseKeepsTable(s.t, s.pending[0]);
    case ForeignOpen(fd) => OpenKeepsTable(s.t, fd, s.t.nextFile, Foreign);
    case ForeignClose(fd) => CloseKeepsTable(s.t, fd);
    case _ =>
  }

  // ----- who owns what -----

  predicate Distinct(fds: seq<int>) {
    forall i, j :: 0 <= i < j < |fds| ==> fds[i] != fds[j]
  }

  function HeldClient(w: WelcomePc): set<int> {
    if w.Idle? then {} else {w.client}
  }

  function HeldCopy(w: WelcomePc): set<int> {
    if w.Duplicated? then {w.copy} else {}
  }

  /** Each owner's own idea of what it owns agrees with the table. */
  ghost predicate OwnersOk(s: State) {
    && s.addFd != s.dropFd
    && Distinct(s.pending) && (s.welcome.Duplicated? ==> s.welcome.copy !in s.pending)
    && (forall n :: n in s.t.open ==> (s.t.open[n].owner.InSet? <==> n in s.sockets))
    && (forall n :: n in s.t.open ==> (s.t.open[n].owner.Special? <==> n == s.addFd || n == s.dropFd))
    && (forall n :: n in s.t.open ==> (s.t.open[n].owner.WelcomeClient? <==> n in HeldClient(s.welcome)))
    && (forall n :: n in s.t.open ==> (s.t.open[n].owner.Passed? <==> n in s.pending || n in HeldCopy(s.welcome)))
    && s.sockets <= s.t.open.Keys && {s.addFd, s.dropFd} <= s.t.open.Keys
    && HeldClient(s.welcome) + HeldCopy(s.welcome) <= s.t.open.Keys
    && (forall i :: 0 <= i < |s.pending| ==> s.pending[i] in s.t.open)
  }

  predicate OpensFd(step: Step) {
    step.Accept? || step.Duplicate? || step.ForeignOpen?
  }

  /** Steps of the hand-over, apart from opening the two descriptors. */
  predicate HandsOver(step: Step) {
    || step.Refuse? || step.Hand? || step.HandFails? || step.HandElsewhere? || step.Signal? || step.DropWrite?
    || step.Return?
  }

  /** What a step closes, if anything. */
  ghost function ClosedBy(s: State, step: Step): Option<int>
    requires Enabled(s, step)
  {
    match step
    case Refuse => Some(s.welcome.client)
    case HandFails => Some(s.welcome.copy)
    case Return => Some(s.welcome.client)
    case RegisterFails => Some(s.pending[0])
    case HangUp => if s.batch[0].fd in s.sockets then Some(s.batch[0].fd) else None
    case CloseOne(fd) => Some(fd)
    case DropPending => Some(s.pending[0])
    case ForeignClose(fd) => Some(fd)
    case _ => None
  }

  /** Neither opens nor closes nor moves a descriptor from one owner to another. */
  ghost predicate MovesNothing(s: State, step: Step)
    requires Enabled(s, step)
  {
    !OpensFd(step) && ClosedBy(s, step).None? && !step.Register? && !step.Hand? && !step.HandElsewhere?
  }

  lemma AcceptKeepsOwners(s: State, fd: int)
    requires OwnersOk(s) && Enabled(s, Accept(fd))
    ensures OwnersOk(Next(s, Accept(fd)))
  {
  }

  lemma DuplicateKeepsOwners(s: State, fd: int)
    requires OwnersOk(s) && Enabled(s, Duplicate(fd))
    ensures OwnersOk(Next(s, Duplicate(fd)))
  {
  }

  lemma ForeignOpenKeepsOwners(s: State, fd: int)
    requires OwnersOk(s) && Enabled(s, ForeignOpen(fd))
    ensures OwnersOk(Next(s, ForeignOpen(fd)))
  {
    assert fd !in s.sockets && fd !in s.pending && fd !in HeldClient(s.welcome) && fd !in HeldCopy(s.welcome);
  }

  lemma HandKeepsOwners(s: State)
    requires OwnersOk(s) && Enabled(s, Hand)
    ensures OwnersOk(Next(s, Hand))
  {
  }

  lemma HandElsewhereKeepsOwners(s: State)
    requires OwnersOk(s) && Enabled(s, HandElsewhere)
    ensures OwnersOk(Next(s, HandElsewhere))
  {
  }

  lemma HeadAndTail(fds: seq<int>)
    requires fds != [] && Distinct(fds)
    ensures Distinct(fds[1..]) && fds[0] !in fds[1..]
    ensures forall n :: n in fds <==> n == fds[0] || n in fds[1..]
  {
    assert fds == [fds[0]] + fds[1..];
  }

  /** The head of the channel has become a member of the set. */
  ghost predicate Takes(s: State, s': State, fd: int) {
    && s.pending != [] && s.pending[0] == fd && fd in s.t.open
    && s'.t == SetOwner(s.t, fd, InSet) && s'.sockets == s.sockets + {fd} && s'.pending == s.pending[1..]
    && s'.addFd == s.addFd && s'.dropFd == s.dropFd && s'.welcome == s.welcome
  }

  lemma TakingKeepsOwners(s: State, s': State, fd: int)
    requires OwnersOk(s) && Takes(s, s', fd)
    ensures OwnersOk(s')
  {
    HeadAndTail(s.pending);
    assert fd in s.pending && s.t.open[fd].owner.Passed?;
    assert forall i :: 0 <= i < |s'.pending| ==> s'.pending[i] in s.pending;
  }

  /** A closed descriptor is nobody's any more, and nothing else has changed hands. */
  ghost predicate Releases(s: State, s': State, fd: int) {
    && fd in s.t.open && s'.t == CloseFd(s.t, fd)
    && fd != s.addFd && fd != s.dropFd && s'.addFd == s.addFd && s'.dropFd == s.dropFd
    && s'.sockets == s.sockets - {fd}
    && HeldClient(s'.welcome) == HeldClient(s.welcome) - {fd}
    && HeldCopy(s'.welcome) == HeldCopy(s.welcome) - {fd}
    && (fd in s.pending ==> s.pending[0] == fd)
    && s'.pending == (if fd in s.pending then s.pending[1..] else s.pending)
  }

  lemma ReleaseKeepsOwners(s: State, s': State, fd: int)
    requires OwnersOk(s) && Releases(s, s', fd)
    ensures OwnersOk(s')
  {
    if fd in s.pending {
      HeadAndTail(s.pending);
    }
  }

  lemma HandOverReleases(s: State, step: Step)
    requires OwnersOk(s) && Enabled(s, step) && ClosedBy(s, step).Some? && HandsOver(step)
    ensures Releases(s, Next(s, step), ClosedBy(s, step).value)
  {
  }

  lemma OtherCloseReleases(s: State, step: Step)
    requires OwnersOk(s) && Enabled(s, step) && ClosedBy(s, step).Some? && !HandsOver(step)
    ensures Releases(s, Next(s, step), ClosedBy(s, step).value)
  {
  }

  lemma ClosingStepReleases(s: State, step: Step)
    requires OwnersOk(s) && Enabled(s, step) && ClosedBy(s, step).Some?
    ensures Releases(s, Next(s, step), ClosedBy(s, step).value)
  {
    if HandsOver(step) {
      HandOverReleases(s, step);
    } else {
      OtherCloseReleases(s, step);
    }
  }

  ghost predicate SameOwners(s: State, s': State) {
    && s'.t == s.t && s'.sockets == s.sockets && s'.pending == s.pending
    && s'.addFd == s.addFd && s'.dropFd == s.dropFd
    && HeldClient(s'.welcome) == HeldClient(s.welcome) && HeldCopy(s'.welcome) == HeldCopy(s.welcome)
    && (s'.welcome.Duplicated? <==> s.welcome.Duplicated?)
  }

  lemma OtherStepKeepsOwners(s: State, step: Step)
    requires Enabled(s, step) && MovesNothing(s, step)
    ensures SameOwners(s, Next(s, step))
  {
  }

  lemma SameOwnersKeep(s: State, s': State)
    requires OwnersOk(s) && SameOwners(s, s')
    ensures OwnersOk(s')
  {
    assert s.welcome.Duplicated? ==> HeldCopy(s'.welcome) == {s.welcome.copy} && s'.welcome.copy in HeldCopy(s'.welcome);
  }

  lemma StepKeepsOwners(s: State, step: Step)
    requires OwnersOk(s) && Enabled(s, step)
    ensures OwnersOk(Next(s, step))
  {
    if ClosedBy(s, step).Some? {
      ClosingStepReleases(s, step);
      ReleaseKeepsOwners(s, Next(s, step), ClosedBy(s, step).value);
    } else if MovesNothing(s, step) {
      OtherStepKeepsOwners(s, step);
      SameOwnersKeep(s, Next(s, step));
    } else {
      MovingStepKeepsOwners(s, step);
    }
  }

  lemma MovingStepKeepsOwners(s: State, step: Step)
    requires OwnersOk(s) && Enabled(s, step) && ClosedBy(s, step).None? && !MovesNothing(s, step)
    ensures OwnersOk(Next(s, step))
  {
    match step
    case Accept(fd) => AcceptKeepsOwners(s, fd);
    case Duplicate(fd) => DuplicateKeepsOwners(s, fd);
    case ForeignOpen(fd) => ForeignOpenKeepsOwners(s, fd);
    case Hand => HandKeepsOwners(s);
    case HandElsewhere => HandElsewhereKeepsOwners(s);
    case Register => TakingKeepsOwners(s, Next(s, Register), s.pending[0]);
  }

  // ----- where the request in hand stands -----

  ghost predicate PhaseOk(s: State) {
    && (s.taking ==> s.looping)
    && (s.looping && (s.signalled || s.taking) ==> s.welcome.Waiting?)
    && (s.looping && s.signalled ==> s.pending != [] && !s.taking)
    && (s.looping && (s.welcome.Idle? || s.welcome.Accepted? || s.welcome.Duplicated?) ==> s.pending == [])
    && (s.looping && s.welcome.Waiting? && s.pending != [] ==> s.signalled || s.taking)
    && (s.looping && s.welcome.Handed? ==> s.pending != [])
    && (s.looping ==> |s.pending| <= 1)
    && (s.looping && s.known != {} ==> s.sockets != {})
  }

  /** What is left of a batch: special events that are still on, and no event twice. */
  ghost predicate EventsOk(s: State) {
    && (s.looping && Add in s.batch ==> s.signalled)
    && (s.looping && Drop in s.batch ==> s.dropOn)
    && (forall i, j :: 0 <= i < j < |s.batch| ==> s.batch[i] != s.batch[j])
  }

  lemma HandOverKeepsPhase(s: State, step: Step)
    requires PhaseOk(s) && Enabled(s, step) && HandsOver(step)
    ensures PhaseOk(Next(s, step))
  {
  }

  lemma OtherKeepsPhase(s: State, step: Step)
    requires PhaseOk(s) && EventsOk(s) && Enabled(s, step) && !HandsOver(step)
    ensures PhaseOk(Next(s, step))
  {
  }

  lemma StepKeepsPhase(s: State, step: Step)
    requires PhaseOk(s) && EventsOk(s) && Enabled(s, step)
    ensures PhaseOk(Next(s, step))
  {
    if HandsOver(step) {
      HandOverKeepsPhase(s, step);
    } else {
      OtherKeepsPhase(s, step);
    }
  }

  lemma FirstAndLater(batch: seq<Event>)
    requires batch != [] && forall i, j :: 0 <= i < j < |batch| ==> batch[i] != batch[j]
    ensures batch[0] !in batch[1..]
    ensures forall e :: e in batch <==> e == batch[0] || e in batch[1..]
  {
    assert batch == [batch[0]] + batch[1..];
  }

  predicate TakesAnEvent(step: Step) {
    step.TakeEvent? || step.HangUp? || step.Request?
  }

  lemma TakingKeepsEvents(s: State, step: Step)
    requires EventsOk(s) && Enabled(s, step) && TakesAnEvent(step)
    ensures EventsOk(Next(s, step))
  {
    FirstAndLater(s.batch);
  }

  lemma OtherKeepsEvents(s: State, step: Step)
    requires EventsOk(s) && Enabled(s, step) && !TakesAnEvent(step)
    ensures EventsOk(Next(s, step))
  {
  }

  lemma StepKeepsEvents(s: State, step: Step)
    requires EventsOk(s) && Enabled(s, step)
    ensures EventsOk(Next(s, step))
  {
    if TakesAnEvent(step) {
      TakingKeepsEvents(s, step);
    } else {
      OtherKeepsEvents(s, step);
    }
  }

  /** While the welcome thread waits for this thread's end it holds no client of this environment. */
  ghost predicate DropOk(s: State) {
    Joining(s) ==>
      s.welcome.Idle? || (s.welcome.Waiting? && s.pending == [] && !s.taking && FileOf(s, s.welcome.client) !in s.known)
  }

  lemma HandOverKeepsDrop(s: State, step: Step)
    requires PhaseOk(s) && DropOk(s) && Enabled(s, step) && HandsOver(step)
    ensures DropOk(Next(s, step))
  {
  }

  lemma OtherKeepsDrop(s: State, step: Step)
    requires OwnersOk(s) && PhaseOk(s) && EventsOk(s) && DropOk(s) && Enabled(s, step) && !HandsOver(step)
    ensures DropOk(Next(s, step))
  {
  }

  lemma StepKeepsDrop(s: State, step: Step)
    requires OwnersOk(s) && PhaseOk(s) && EventsOk(s) && DropOk(s) && Enabled(s, step)
    ensures DropOk(Next(s, step))
  {
    if HandsOver(step) {
      HandOverKeepsDrop(s, step);
    } else {
      OtherKeepsDrop(s, step);
    }
  }
}
