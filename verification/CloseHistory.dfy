/**
 * What becomes of announced names: a generation is in the map from the Ok of its creation until its
 * name is drained, and its name is drained at most once.
 */
module CloseHistory {
  import opened Outcomes
  import opened EnvironmentProtocol
  import opened EnvironmentInvariant
  import opened WelcomeSteps
  import opened OwnerSteps

  /** Its `insert_socket` has returned Ok, so it has been entered into the map. */
  ghost predicate Created(s: State, g: nat) {
    exists i :: 0 <= i < |s.outcomes| && s.outcomes[i].gen == g && s.outcomes[i].ok
  }

  ghost predicate Drained(s: State, g: nat) {
    exists i :: 0 <= i < |s.removals| && s.removals[i].sender == g
  }

  /** Being created, or being dropped because that has failed. */
  ghost predicate NewTarget(w: WelcomePc, g: nat) {
    Held(w, g) && (Inserting(w) ==> w.isNew)
  }

  /** Being dropped because its name was drained. */
  ghost predicate ClosedTarget(w: WelcomePc, g: nat) {
    && InDrain(w) && !w.DrainingClose?
    && w.gen == g
  }

  /** A queued name has not been drained before, and finds its sender if that was created. */
  ghost predicate MessageExact(s: State, m: Message) {
    !Drained(s, m.sender) && (Created(s, m.sender) ==> m.name in s.live)
  }

  /** A drained name removed its sender if that was created, and nothing otherwise. */
  ghost predicate RemovalExact(s: State, r: Removal) {
    r.removed == if Created(s, r.sender) then Some(r.sender) else None
  }

  ghost predicate TargetsOk(s: State) {
    && (forall name :: name in s.live ==> Created(s, s.live[name]) && !Drained(s, s.live[name]))
    && (forall g :: NewTarget(s.welcome, g) ==> !Created(s, g) && !Drained(s, g))
    && (forall g :: ClosedTarget(s.welcome, g) ==> Drained(s, g))
  }

  ghost predicate MessagesExact(s: State) {
    forall i :: 0 <= i < |s.closeQueue| ==> MessageExact(s, s.closeQueue[i])
  }

  ghost predicate RemovalsExact(s: State) {
    && (forall i :: 0 <= i < |s.removals| ==> RemovalExact(s, s.removals[i]))
    && (forall i, j :: 0 <= i < j < |s.removals| ==> s.removals[i].sender != s.removals[j].sender)
  }

  ghost predicate HistoryOk(s: State) {
    TargetsOk(s) && MessagesExact(s) && RemovalsExact(s)
  }

  // ----- steps that neither drain nor finish a creation -----

  ghost predicate SameHistory(s: State, s': State) {
    s'.outcomes == s.outcomes && s'.removals == s.removals
  }

  lemma SameHistorySame(s: State, s': State)
    requires SameHistory(s, s')
    ensures forall g :: (Created(s', g) <==> Created(s, g)) && (Drained(s', g) <==> Drained(s, g))
  {
  }

  /** The map may lose entries, but not while anything is queued. */
  ghost predicate Quiet(s: State, s': State) {
    && SameHistory(s, s')
    && (forall name :: name in s'.live ==> name in s.live && s'.live[name] == s.live[name])
    && (s'.closeQueue == [] || (s'.closeQueue == s.closeQueue && s'.live == s.live))
    && (forall g :: NewTarget(s'.welcome, g) ==> NewTarget(s.welcome, g))
    && (forall g :: ClosedTarget(s'.welcome, g) ==> ClosedTarget(s.welcome, g))
  }

  lemma QuietKeepsHistory(s: State, s': State)
    requires HistoryOk(s) && Quiet(s, s')
    ensures HistoryOk(s')
  {
    SameHistorySame(s, s');
    assert forall i :: 0 <= i < |s'.closeQueue| ==> MessageExact(s, s'.closeQueue[i]);
    assert forall i :: 0 <= i < |s'.removals| ==> RemovalExact(s, s'.removals[i]);
  }

  /** Steps of the welcome loop and its teardown outside of any one environment. */
  lemma LoopStepIsQuiet(s: State, step: Step)
    requires Enabled(s, step) && !step.EnvMoves? && !step.Proceeds?
    requires s.welcome.Teardown? ==> s.closeQueue == []
    ensures Quiet(s, Next(s, step))
  {
  }

  predicate Working(s: State) {
    || s.welcome.ReadingClose? || (s.welcome.DrainingClose? && s.closeQueue == []) || s.welcome.InsertWrite?
    || s.welcome.DropWrite? || s.welcome.DropEnds? || s.welcome.DropJoin? || s.welcome.Teardown?
    || (s.welcome.InsertSend? && s.welcome.gen < |s.envs| && !s.envs[s.welcome.gen].pc.Ended?)
  }

  lemma LoopWorkIsQuiet(s: State)
    requires Enabled(s, Proceeds) && Working(s) && AtRest(s.welcome)
    ensures Quiet(s, Proceed(s))
  {
  }

  lemma EnvironmentWorkIsQuiet(s: State)
    requires Enabled(s, Proceeds) && Working(s) && !AtRest(s.welcome)
    ensures Quiet(s, Proceed(s))
  {
  }

  // ----- an environment announces itself -----

  /** Whoever is about to announce itself has not done so before. */
  lemma AnnouncerIsNotDrained(s: State, g: nat)
    requires EnvsOk(s) && LogsOk(s) && g < |s.envs| && s.envs[g].pc.Sending?
    ensures !Drained(s, g)
  {
    assert EnvLocal(s.envs[g]);
    forall i | 0 <= i < |s.removals| ensures s.removals[i].sender != g {
      assert RemovalOk(s, s.removals[i]);
    }
  }

  lemma RunningRole(s: State, g: nat)
    requires EnvsOk(s) && g < |s.envs| && s.envs[g].pc.Sending?
    ensures RoleOf(s, g) != Unowned
  {
    assert RoleOk(s.envs[g], RoleOf(s, g));
  }

  /** While it runs it is in the map, or being created, or being dropped. */
  lemma OwnedIsMappedOrTarget(s: State, g: nat)
    requires MapOk(s) && g < |s.envs| && RoleOf(s, g) != Unowned && s.receiverAlive
    ensures Mapped(s, g) || NewTarget(s.welcome, g) || ClosedTarget(s.welcome, g)
  {
  }

  lemma AnnouncerIsExact(s: State, g: nat)
    requires MapOk(s) && EnvsOk(s) && LogsOk(s) && TargetsOk(s)
    requires g < |s.envs| && s.envs[g].pc.Sending? && s.receiverAlive
    ensures MessageExact(s, Message(s.envs[g].name, g))
  {
    AnnouncerIsNotDrained(s, g);
    RunningRole(s, g);
    OwnedIsMappedOrTarget(s, g);
  }

  lemma EnvMoveKeepsHistory(s: State, g: nat, c: EnvChoice)
    requires MapOk(s) && EnvsOk(s) && LogsOk(s) && HistoryOk(s) && g < |s.envs| && EnvEnabled(s.envs[g], c)
    ensures HistoryOk(EnvMove(s, g, c))
  {
    var s' := EnvMove(s, g, c);
    SameHistorySame(s, s');
    if s.envs[g].pc.Sending? && s.receiverAlive {
      AnnouncerIsExact(s, g);
    }
    forall i | 0 <= i < |s'.closeQueue| ensures MessageExact(s', s'.closeQueue[i]) {
      assert MessageExact(s, s'.closeQueue[i]);
    }
    assert forall i :: 0 <= i < |s'.removals| ==> RemovalExact(s, s'.removals[i]);
  }

  // ----- a name is drained -----

  lemma DrainedAfter(s: State, s': State, r: Removal)
    requires s'.removals == s.removals + [r] && s'.outcomes == s.outcomes
    ensures forall g :: (Drained(s', g) <==> Drained(s, g) || g == r.sender) && (Created(s', g) <==> Created(s, g))
  {
    forall g | Drained(s, g) || g == r.sender ensures Drained(s', g) {
      if g == r.sender {
        assert s'.removals[|s.removals|].sender == g;
      } else {
        var i :| 0 <= i < |s.removals| && s.removals[i].sender == g;
        assert s'.removals[i].sender == g;
      }
    }
  }

  lemma DrainKeepsRemovals(s: State)
    requires CloseOk(s) && HistoryOk(s) && s.welcome.DrainingClose? && s.closeQueue != []
    ensures RemovalsExact(Proceed(s))
  {
    var s', m := Proceed(s), s.closeQueue[0];
    HeadHitsItsSender(s);
    assert MessageExact(s, m);
    DrainedAfter(s, s', s'.removals[|s.removals|]);
    forall i | 0 <= i < |s'.removals| ensures RemovalExact(s', s'.removals[i]) {
      assert i < |s.removals| ==> RemovalExact(s, s.removals[i]);
    }
    forall i | 0 <= i < |s.removals| ensures s.removals[i].sender != m.sender {
      assert s.removals[i].sender == m.sender ==> Drained(s, m.sender);
    }
  }

  lemma DrainKeepsMessages(s: State)
    requires CloseOk(s) && MessagesExact(s) && s.welcome.DrainingClose? && s.closeQueue != []
    ensures MessagesExact(Proceed(s))
  {
    var s', m := Proceed(s), s.closeQueue[0];
    assert MessageOk(s, m);
    DrainedAfter(s, s', s'.removals[|s.removals|]);
    forall i | 0 <= i < |s'.closeQueue| ensures MessageExact(s', s'.closeQueue[i]) {
      assert s'.closeQueue[i] == s.closeQueue[i + 1];
      assert MessageOk(s, s.closeQueue[i + 1]) && MessageExact(s, s.closeQueue[i + 1]);
    }
  }

  lemma DrainKeepsTargets(s: State)
    requires MapOk(s) && CloseOk(s) && TargetsOk(s) && s.welcome.DrainingClose? && s.closeQueue != []
    ensures TargetsOk(Proceed(s))
  {
    var s' := Proceed(s);
    HeadHitsItsSender(s);
    DrainedAfter(s, s', s'.removals[|s.removals|]);
  }

  // ----- an environment is opened -----

  lemma UnheardOf(s: State, g: nat)
    requires LogsOk(s) && g >= |s.envs|
    ensures !Created(s, g) && !Drained(s, g)
  {
    assert forall i :: 0 <= i < |s.outcomes| ==> OutcomeOk(s, s.outcomes[i]);
    assert forall i :: 0 <= i < |s.removals| ==> RemovalOk(s, s.removals[i]);
  }

  lemma OpenTarget(s: State, name: string, g: nat)
    requires s.welcome == Opening(name) && (NewTarget(Open(s, name).welcome, g) || ClosedTarget(Open(s, name).welcome, g))
    ensures NewTarget(Open(s, name).welcome, g) && !ClosedTarget(Open(s, name).welcome, g) && g == |s.envs|
  {
  }

  lemma OpenKeepsTargets(s: State, name: string)
    requires LogsOk(s) && TargetsOk(s) && s.welcome == Opening(name)
    ensures TargetsOk(Open(s, name))
  {
    var s' := Open(s, name);
    SameHistorySame(s, s');
    UnheardOf(s, |s.envs|);
    forall g | NewTarget(s'.welcome, g) || ClosedTarget(s'.welcome, g)
      ensures NewTarget(s'.welcome, g) && !ClosedTarget(s'.welcome, g) && g == |s.envs|
    {
      OpenTarget(s, name, g);
    }
  }

  lemma OpenKeepsHistory(s: State, name: string)
    requires LogsOk(s) && HistoryOk(s) && s.welcome == Opening(name)
    ensures HistoryOk(Open(s, name))
  {
    var s' := Open(s, name);
    OpenKeepsTargets(s, name);
    SameHistorySame(s, s');
    assert forall i :: 0 <= i < |s'.closeQueue| ==> MessageExact(s, s'.closeQueue[i]);
    assert forall i :: 0 <= i < |s'.removals| ==> RemovalExact(s, s'.removals[i]);
  }

  // ----- insert_socket returns -----

  lemma CreatedAfter(s: State, s': State, o: Outcome)
    requires s'.outcomes == s.outcomes + [o] && s'.removals == s.removals
    ensures forall g :: (Created(s', g) <==> Created(s, g) || (g == o.gen && o.ok)) && (Drained(s', g) <==> Drained(s, g))
  {
    forall g | Created(s, g) || (g == o.gen && o.ok) ensures Created(s', g) {
      if g == o.gen && o.ok {
        assert s'.outcomes[|s.outcomes|] == o;
      } else {
        var i :| 0 <= i < |s.outcomes| && s.outcomes[i].gen == g && s.outcomes[i].ok;
        assert s'.outcomes[i] == s.outcomes[i];
      }
    }
  }

  /** An Ok is for a generation already in the map, or for the one being created. */
  lemma TargetIsCreatedOrNew(s: State)
    requires MapOk(s) && TargetsOk(s) && Inserting(s.welcome)
    ensures if s.welcome.isNew then !Created(s, s.welcome.gen) else Created(s, s.welcome.gen)
    ensures !Drained(s, s.welcome.gen)
  {
    assert s.welcome.isNew ==> NewTarget(s.welcome, s.welcome.gen);
  }

  /** What `insert_socket` leaves behind, apart from the answer taken off the channel. */
  ghost predicate Returns(s: State, s': State, ok: bool) {
    && Inserting(s.welcome) && s.welcome.gen < |s.envs|
    && s'.outcomes == s.outcomes + [Outcome(s.welcome.gen, s.welcome.socket, ok, s.asked)]
    && s'.removals == s.removals && s'.closeQueue == s.closeQueue
    && s'.live == (if s.welcome.isNew && ok then s.live[s.envs[s.welcome.gen].name := s.welcome.gen] else s.live)
    && s'.welcome == (if s.welcome.isNew && !ok then DropWrite(s.welcome.gen, BackToPoll) else Polling)
  }

  lemma ReturnKeepsTargets(s: State, s': State, ok: bool)
    requires MapOk(s) && TargetsOk(s) && Returns(s, s', ok)
    ensures TargetsOk(s')
  {
    TargetIsCreatedOrNew(s);
    CreatedAfter(s, s', s'.outcomes[|s.outcomes|]);
  }

  lemma ReturnKeepsMessages(s: State, s': State, ok: bool)
    requires MapOk(s) && CloseOk(s) && TargetsOk(s) && MessagesExact(s) && Returns(s, s', ok)
    ensures MessagesExact(s')
  {
    TargetIsCreatedOrNew(s);
    CreatedAfter(s, s', s'.outcomes[|s.outcomes|]);
    forall i | 0 <= i < |s'.closeQueue| ensures MessageExact(s', s'.closeQueue[i]) {
      assert MessageOk(s, s.closeQueue[i]) && MessageExact(s, s.closeQueue[i]);
    }
  }

  lemma ReturnKeepsRemovals(s: State, s': State, ok: bool)
    requires MapOk(s) && TargetsOk(s) && RemovalsExact(s) && Returns(s, s', ok)
    ensures RemovalsExact(s')
  {
    TargetIsCreatedOrNew(s);
    CreatedAfter(s, s', s'.outcomes[|s.outcomes|]);
    forall i | 0 <= i < |s'.removals| ensures RemovalExact(s', s'.removals[i]) {
      assert RemovalExact(s, s.removals[i]) && Drained(s, s.removals[i].sender);
    }
  }

  predicate Returning(s: State) {
    || s.welcome.InsertRecv?
    || (s.welcome.InsertSend? && s.welcome.gen < |s.envs| && s.envs[s.welcome.gen].pc.Ended?)
  }

  lemma ReturningReturns(s: State) returns (ok: bool)
    requires Enabled(s, Proceeds) && Returning(s)
    ensures Returns(s, Proceed(s), ok)
  {
    var e := s.envs[s.welcome.gen];
    ok := s.welcome.InsertRecv? && e.responses != [] && e.responses[0];
  }

  lemma ReturnKeepsHistory(s: State)
    requires MapOk(s) && CloseOk(s) && HistoryOk(s) && Enabled(s, Proceeds) && Returning(s)
    ensures HistoryOk(Proceed(s))
  {
    var ok := ReturningReturns(s);
    ReturnKeepsTargets(s, Proceed(s), ok);
    ReturnKeepsMessages(s, Proceed(s), ok);
    ReturnKeepsRemovals(s, Proceed(s), ok);
  }

  // ----- every step, every run -----

  lemma ProceedKeepsHistory(s: State)
    requires Inv(s) && HistoryOk(s) && Enabled(s, Proceeds)
    ensures HistoryOk(Proceed(s))
  {
    if Working(s) {
      if AtRest(s.welcome) {
        LoopWorkIsQuiet(s);
      } else {
        EnvironmentWorkIsQuiet(s);
      }
      QuietKeepsHistory(s, Proceed(s));
    } else if Returning(s) {
      ReturnKeepsHistory(s);
    } else if s.welcome.Opening? {
      OpenKeepsHistory(s, s.welcome.name);
    } else {
      DrainKeepsTargets(s);
      DrainKeepsMessages(s);
      DrainKeepsRemovals(s);
    }
  }

  lemma StepKeepsHistory(s: State, step: Step)
    requires Inv(s) && HistoryOk(s) && Enabled(s, step)
    ensures HistoryOk(Next(s, step))
  {
    match step
    case EnvMoves(g, c) => EnvMoveKeepsHistory(s, g, c);
    case Proceeds => ProceedKeepsHistory(s);
    case _ =>
      LoopStepIsQuiet(s, step);
      QuietKeepsHistory(s, Next(s, step));
  }

  lemma StartHasNoHistory()
    ensures HistoryOk(INIT)
  {
  }

  lemma SuccessorKeepsHistory(s: State, s': State)
    requires Inv(s) && HistoryOk(s) && Successor(s, s')
    ensures HistoryOk(s')
  {
    var step :| Enabled(s, step) && s' == Next(s, step);
    StepKeepsHistory(s, step);
  }

  lemma {:induction false} RunKeepsHistory(run: seq<State>, i: nat)
    requires IsRun(run) && i < |run|
    ensures HistoryOk(run[i])
  {
    if i == 0 {
      StartHasNoHistory();
    } else {
      RunKeepsHistory(run, i - 1);
      RunKeepsInv(run, i - 1);
      assert Successor(run[i - 1], run[i - 1 + 1]);
      SuccessorKeepsHistory(run[i - 1], run[i]);
    }
  }
}
