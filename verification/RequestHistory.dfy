/** What becomes of requests: whom they are for, when they are accepted, and what wakes the welcome thread. */
module RequestHistory {
  import opened Outcomes
  import opened EnvironmentProtocol
  import opened EnvironmentInvariant
  import opened OwnerSteps
  import opened CloseHistory

  // ----- the name asked for -----

  /** The request in hand and all those answered went to an environment of the name asked for. */
  ghost predicate AskedOk(s: State) {
    && (s.welcome.Opening? ==> s.welcome.name == s.asked)
    && (Inserting(s.welcome) ==> s.welcome.gen < |s.envs| && s.envs[s.welcome.gen].name == s.asked)
    && (forall i :: 0 <= i < |s.outcomes| ==> AnsweredAsAsked(s, s.outcomes[i]))
  }

  ghost predicate AnsweredAsAsked(s: State, o: Outcome) {
    o.gen < |s.envs| && s.envs[o.gen].name == o.asked
  }

  ghost predicate SameNames(s: State, s': State) {
    |s.envs| <= |s'.envs| && forall g :: 0 <= g < |s.envs| ==> s'.envs[g].name == s.envs[g].name
  }

  lemma NamesStay(s: State, step: Step)
    requires Enabled(s, step)
    ensures SameNames(s, Next(s, step))
  {
    if step.EnvMoves? {
      EnvStepKeepsName(s.envs[step.gen], step.choice);
    }
  }

  lemma AnswersStay(s: State, s': State)
    requires AskedOk(s) && SameNames(s, s')
    ensures forall i :: 0 <= i < |s.outcomes| ==> AnsweredAsAsked(s', s.outcomes[i])
  {
    assert forall i :: 0 <= i < |s.outcomes| ==> AnsweredAsAsked(s, s.outcomes[i]);
  }

  lemma HandOverKeepsTarget(s: State)
    requires Enabled(s, Proceeds) && Inserting(s.welcome) && !Returning(s)
    ensures var s' := Proceed(s);
      && Inserting(s'.welcome) && s'.welcome.gen == s.welcome.gen && s'.asked == s.asked && s'.outcomes == s.outcomes
  {
  }

  lemma OpenKeepsTarget(s: State)
    requires MapOk(s) && AskedOk(s) && Enabled(s, Proceeds) && s.welcome.Opening?
    ensures var s' := Proceed(s);
      Inserting(s'.welcome) && s'.welcome.gen < |s'.envs| && s'.envs[s'.welcome.gen].name == s'.asked
  {
  }

  lemma OtherKeepsTarget(s: State)
    requires Enabled(s, Proceeds) && !Inserting(s.welcome) && !s.welcome.Opening?
    ensures !Inserting(Proceed(s).welcome) && !Proceed(s).welcome.Opening? && Proceed(s).outcomes == s.outcomes
  {
  }

  lemma InsertKeepsAsked(s: State)
    requires AskedOk(s) && Enabled(s, Proceeds) && Inserting(s.welcome)
    ensures AskedOk(Proceed(s))
  {
    var s' := Proceed(s);
    NamesStay(s, Proceeds);
    AnswersStay(s, s');
    if Returning(s) {
      var ok := ReturningReturns(s);
      forall i | 0 <= i < |s'.outcomes| ensures AnsweredAsAsked(s', s'.outcomes[i]) {
        assert i < |s.outcomes| ==> s'.outcomes[i] == s.outcomes[i];
      }
    } else {
      HandOverKeepsTarget(s);
    }
  }

  lemma ProceedKeepsAsked(s: State)
    requires MapOk(s) && AskedOk(s) && Enabled(s, Proceeds)
    ensures AskedOk(Proceed(s))
  {
    if Inserting(s.welcome) {
      InsertKeepsAsked(s);
    } else {
      NamesStay(s, Proceeds);
      AnswersStay(s, Proceed(s));
      if s.welcome.Opening? {
        OpenKeepsTarget(s);
      } else {
        OtherKeepsTarget(s);
      }
    }
  }

  lemma StepKeepsAsked(s: State, step: Step)
    requires MapOk(s) && AskedOk(s) && Enabled(s, step)
    ensures AskedOk(Next(s, step))
  {
    if step.Proceeds? {
      ProceedKeepsAsked(s);
    } else {
      NamesStay(s, step);
      AnswersStay(s, Next(s, step));
    }
  }

  /**
   * A request for a name goes to the environment the map has for it, or to a new one of that name if
   * there is none; the map and all other environments stay as they are.
   */
  lemma RequestOpensItsName(s: State, name: string)
    requires Inv(s) && Enabled(s, Requested(name))
    ensures Enabled(Next(s, Requested(name)), Proceeds)
    ensures var s' := Next(Next(s, Requested(name)), Proceeds);
      && s'.welcome.InsertSend? && s'.welcome.gen < |s'.envs|
      && s'.envs[s'.welcome.gen].name == name
      && s'.welcome.isNew == (name !in s.live)
      && (name in s.live ==> s'.welcome.gen == s.live[name] && s'.envs == s.envs)
      && (name !in s.live ==> s'.welcome.gen == |s.envs| && s'.envs == s.envs + [NewEnv(name)])
      && s'.live == s.live && s'.welcome.socket == s.nextSocket && s'.nextSocket == s.nextSocket + 1
  {
  }

  // ----- the client that waits -----

  predicate StillWaiting(w: WelcomePc) {
    match w
    case ReadingClose(clientWaits) => clientWaits
    case DrainingClose(clientWaits) => clientWaits
    case Accepting => true
    case DropWrite(_, next) => next.BackToDrain? && next.clientWaits
    case DropEnds(_, next) => next.BackToDrain? && next.clientWaits
    case DropJoin(_, next) => next.BackToDrain? && next.clientWaits
    case _ => false
  }

  /** A client seen by a poll is accepted before the next one, however many closings come first. */
  ghost predicate WaitingOk(s: State) {
    s.waiting <==> StillWaiting(s.welcome)
  }

  lemma StepKeepsWaiting(s: State, step: Step)
    requires WaitingOk(s) && Enabled(s, step)
    ensures WaitingOk(Next(s, step))
  {
  }

  // ----- what wakes the welcome thread -----

  /** It has written the close event. */
  predicate Wrote(e: Env) {
    e.announced == 1 && !e.pc.Writing?
  }

  ghost function Writes(envs: seq<Env>): (n: nat)
    ensures n <= |envs|
  {
    if envs == [] then 0
    else Writes(envs[..|envs| - 1]) + if Wrote(envs[|envs| - 1]) then 1 else 0
  }

  lemma WritesAppend(envs: seq<Env>, e: Env)
    ensures Writes(envs + [e]) == Writes(envs) + if Wrote(e) then 1 else 0
  {
    assert (envs + [e])[..|envs|] == envs;
  }

  lemma {:induction false} WritesUpdate(envs: seq<Env>, g: nat, e: Env)
    requires g < |envs|
    ensures Writes(envs[g := e]) + (if Wrote(envs[g]) then 1 else 0) == Writes(envs) + if Wrote(e) then 1 else 0
    decreases |envs|
  {
    var last := |envs| - 1;
    if g == last {
      assert envs[g := e][..last] == envs[..last];
    } else {
      assert envs[g := e][..last] == envs[..last][g := e];
      WritesUpdate(envs[..last], g, e);
    }
  }

  /** Each write of the close event ends one poll at most. */
  ghost predicate WakeupsOk(s: State) {
    s.wakeups + s.closeEvent <= Writes(s.envs) + if s.welcome.ReadingClose? then 1 else 0
  }

  lemma EnvMoveKeepsWakeups(s: State, g: nat, c: EnvChoice)
    requires EnvsOk(s) && WakeupsOk(s) && g < |s.envs| && EnvEnabled(s.envs[g], c)
    ensures WakeupsOk(EnvMove(s, g, c))
  {
    assert EnvLocal(s.envs[g]);
    EnvStepAnnouncement(s.envs[g], c);
    WritesUpdate(s.envs, g, EnvStep(s.envs[g], c));
  }

  /** The welcome thread makes environments and works on one at a time, but announces nothing for them. */
  ghost predicate WritesNothing(s: State, s': State) {
    || s'.envs == s.envs
    || (s.welcome.Opening? && s'.envs == s.envs + [NewEnv(s.welcome.name)])
    || (AtWork(s.welcome) && s.welcome.gen < |s.envs| == |s'.envs|
        && s'.envs == s.envs[s.welcome.gen := s'.envs[s.welcome.gen]]
        && Wrote(s'.envs[s.welcome.gen]) == Wrote(s.envs[s.welcome.gen]))
  }

  predicate AtWork(w: WelcomePc) {
    Inserting(w) || w.DropWrite? || w.DropEnds?
  }

  lemma ProceedWritesNothing(s: State)
    requires Enabled(s, Proceeds)
    ensures WritesNothing(s, Proceed(s))
  {
  }

  lemma WritesStay(s: State, s': State)
    requires WritesNothing(s, s')
    ensures Writes(s'.envs) == Writes(s.envs)
  {
    if s.welcome.Opening? {
      WritesAppend(s.envs, NewEnv(s.welcome.name));
    } else if AtWork(s.welcome) && s.welcome.gen < |s.envs| == |s'.envs| {
      WritesUpdate(s.envs, s.welcome.gen, s'.envs[s.welcome.gen]);
    }
  }

  lemma ProceedKeepsWakeups(s: State)
    requires MapOk(s) && WakeupsOk(s) && Enabled(s, Proceeds)
    ensures WakeupsOk(Proceed(s))
  {
    ProceedWritesNothing(s);
    WritesStay(s, Proceed(s));
  }

  lemma StepKeepsWakeups(s: State, step: Step)
    requires Inv(s) && WakeupsOk(s) && Enabled(s, step)
    ensures WakeupsOk(Next(s, step))
  {
    match step
    case EnvMoves(g, c) => EnvMoveKeepsWakeups(s, g, c);
    case Proceeds => ProceedKeepsWakeups(s);
    case _ =>
  }

  // ----- every run -----

  ghost predicate RequestsOk(s: State) {
    AskedOk(s) && WaitingOk(s) && WakeupsOk(s)
  }

  lemma SuccessorKeepsRequests(s: State, s': State)
    requires Inv(s) && RequestsOk(s) && Successor(s, s')
    ensures RequestsOk(s')
  {
    var step :| Enabled(s, step) && s' == Next(s, step);
    StepKeepsAsked(s, step);
    StepKeepsWaiting(s, step);
    StepKeepsWakeups(s, step);
  }

  lemma StartHasNoRequests()
    ensures RequestsOk(INIT)
  {
  }

  lemma {:induction false} RunKeepsRequests(run: seq<State>, i: nat)
    requires IsRun(run) && i < |run|
    ensures RequestsOk(run[i])
  {
    if i == 0 {
      StartHasNoRequests();
    } else {
      RunKeepsRequests(run, i - 1);
      RunKeepsInv(run, i - 1);
      assert Successor(run[i - 1], run[i - 1 + 1]);
      SuccessorKeepsRequests(run[i - 1], run[i]);
    }
  }
}
