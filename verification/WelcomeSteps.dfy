/** Every step of the welcome thread keeps the invariant of the environment protocol. */
module WelcomeSteps {
  import opened EnvironmentProtocol
  import opened EnvironmentInvariant

  // ----- steps that touch no environment -----

  /** The same environments and histories, seen from another place in the welcome loop. */
  ghost predicate OnlyMoved(s: State, s': State) {
    && s'.envs == s.envs && s'.removals == s.removals && s'.outcomes == s.outcomes
    && s'.live == s.live && s'.nextSocket == s.nextSocket
    && !Inserting(s.welcome) && !Inserting(s'.welcome)
  }

  lemma MovedKeepsLogs(s: State, s': State)
    requires LogsOk(s) && OnlyMoved(s, s')
    ensures LogsOk(s')
  {
    assert forall i :: 0 <= i < |s.removals| ==> RemovalOk(s, s.removals[i]);
    assert forall i :: 0 <= i < |s.outcomes| ==> OutcomeOk(s, s.outcomes[i]);
  }

  predicate AtRest(w: WelcomePc) {
    !Inserting(w) && !w.DropWrite? && !w.DropEnds? && !w.DropJoin?
  }

  lemma MovedKeepsEnvs(s: State, s': State)
    requires EnvsOk(s) && OnlyMoved(s, s') && AtRest(s.welcome) && AtRest(s'.welcome)
    ensures EnvsOk(s')
  {
    forall g | 0 <= g < |s'.envs| ensures EnvLocal(s'.envs[g]) && RoleOk(s'.envs[g], RoleOf(s', g)) {
      assert EnvLocal(s.envs[g]) && RoleOk(s.envs[g], RoleOf(s, g));
    }
  }

  /** Nobody but a resident or the generation just being inserted can still be before its event write. */
  lemma WriterIsKnown(s: State, g: nat)
    requires EnvsOk(s) && g < |s.envs| && s.envs[g].pc.Writing? && s.welcome.Polling?
    ensures Mapped(s, g)
  {
    assert RoleOk(s.envs[g], RoleOf(s, g));
  }

  lemma WokenKeepsClose(s: State, clientWaits: bool)
    requires Inv(s) && Enabled(s, Woken(clientWaits))
    ensures CloseOk(Next(s, Woken(clientWaits)))
  {
    var s' := Next(s, Woken(clientWaits));
    forall i | 0 <= i < |s'.closeQueue| ensures MessageOk(s', s'.closeQueue[i]) {
      assert MessageOk(s, s.closeQueue[i]);
      if s.closeEvent == 0 {
        WriterIsKnown(s, s.closeQueue[i].sender);
      }
    }
    forall g | s.receiverAlive && 0 <= g < |s'.envs| && s'.envs[g].announced == 1 && (Mapped(s', g) || Held(s'.welcome, g))
      ensures Queued(s', g)
    {
      assert Queued(s, g);
    }
  }

  lemma WokenKeepsInv(s: State, clientWaits: bool)
    requires Inv(s) && Enabled(s, Woken(clientWaits))
    ensures Inv(Next(s, Woken(clientWaits)))
  {
    var s' := Next(s, Woken(clientWaits));
    MovedKeepsLogs(s, s');
    MovedKeepsEnvs(s, s');
    WokenKeepsClose(s, clientWaits);
  }

  lemma StopsKeepsInv(s: State)
    requires Inv(s) && Enabled(s, Stops)
    ensures Inv(Next(s, Stops))
  {
    MovedKeepsLogs(s, Next(s, Stops));
    MovedKeepsEnvs(s, Next(s, Stops));
  }

  lemma AcceptingKeepsInv(s: State, step: Step)
    requires Inv(s) && Enabled(s, step) && (step.Requested? || step.FailsOver?)
    ensures Inv(Next(s, step))
  {
    var s' := Next(s, step);
    MovedKeepsLogs(s, s');
    MovedKeepsEnvs(s, s');
    QueueKept(s, s');
  }

  /** The queue is as it was and all its messages are still fine: the two sides of a quiet move. */
  lemma QueueKept(s: State, s': State)
    requires CloseOk(s) && s'.closeQueue == s.closeQueue && s'.receiverAlive == s.receiverAlive
    requires s'.envs == s.envs && s'.live == s.live && s'.closeEvent == s.closeEvent
    requires !InDrain(s.welcome) || InDrain(s'.welcome)
    requires forall g :: Held(s.welcome, g) <==> Held(s'.welcome, g)
    requires MayHoldOrphans(s.welcome) ==> MayHoldOrphans(s'.welcome)
    ensures CloseOk(s')
  {
    forall i | 0 <= i < |s'.closeQueue| ensures MessageOk(s', s'.closeQueue[i]) {
      assert MessageOk(s, s.closeQueue[i]);
    }
    forall g | s'.receiverAlive && 0 <= g < |s'.envs| && s'.envs[g].announced == 1 && (Mapped(s', g) || Held(s'.welcome, g))
      ensures Queued(s', g)
    {
      assert Queued(s, g);
    }
  }

  lemma ReadingCloseKeepsInv(s: State)
    requires Inv(s) && s.welcome.ReadingClose?
    ensures Inv(Proceed(s))
  {
    var s' := Proceed(s);
    MovedKeepsLogs(s, s');
    MovedKeepsEnvs(s, s');
    forall i | 0 <= i < |s'.closeQueue| ensures MessageOk(s', s'.closeQueue[i]) {
      assert MessageOk(s, s.closeQueue[i]);
    }
    forall g | 0 <= g < |s'.envs| && s'.envs[g].announced == 1 && (Mapped(s', g) || Held(s'.welcome, g))
      ensures Queued(s', g)
    {
      assert Queued(s, g);
    }
  }

  lemma TeardownEndsKeepsInv(s: State)
    requires Inv(s) && s.welcome.Teardown? && s.live == map[]
    ensures Inv(Proceed(s))
  {
    MovedKeepsLogs(s, Proceed(s));
    MovedKeepsEnvs(s, Proceed(s));
  }

  // ----- draining the close channel -----

  lemma EmptyDrainKeepsInv(s: State)
    requires Inv(s) && s.welcome.DrainingClose? && s.closeQueue == []
    ensures Inv(Proceed(s))
  {
    var s' := Proceed(s);
    MovedKeepsLogs(s, s');
    MovedKeepsEnvs(s, s');
    forall g | 0 <= g < |s'.envs| && Mapped(s', g)
      ensures s'.envs[g].announced != 1
    {
      assert s.envs[g].announced == 1 ==> Queued(s, g);
    }
  }

  /** The head of the queue can only ever name the generation that sent it. */
  lemma HeadHitsItsSender(s: State)
    requires CloseOk(s) && s.closeQueue != []
    ensures MessageOk(s, s.closeQueue[0])
    ensures s.closeQueue[0].name in s.live ==> s.live[s.closeQueue[0].name] == s.closeQueue[0].sender
  {
  }

  lemma DrainKeepsLogs(s: State)
    requires CloseOk(s) && LogsOk(s) && s.welcome.DrainingClose? && s.closeQueue != []
    ensures LogsOk(Proceed(s))
  {
    var s' := Proceed(s);
    HeadHitsItsSender(s);
    forall i | 0 <= i < |s'.removals| ensures RemovalOk(s', s'.removals[i]) {
      assert i < |s.removals| ==> RemovalOk(s, s.removals[i]);
    }
    assert forall i :: 0 <= i < |s.outcomes| ==> OutcomeOk(s, s.outcomes[i]);
  }

  /** What is asked of a resident is asked of it while it is being dropped, too. */
  lemma TakenStaysOk(e: Env, role: Role, role': Role)
    requires RoleOk(e, role) && (role' == role || (role == Resident && role' == ToBeDropped))
    ensures RoleOk(e, role')
  {
  }

  /** Taking a name out of the map, for a drop, leaves all environments as they should be. */
  lemma TakingKeepsEnvs(s: State, s': State, name: string)
    requires MapOk(s) && EnvsOk(s) && AtRest(s.welcome) && s'.envs == s.envs && s'.live == s.live - {name}
    requires if name in s.live then s'.welcome.DropWrite? && s'.welcome.gen == s.live[name] else AtRest(s'.welcome)
    ensures EnvsOk(s')
  {
    forall g | 0 <= g < |s'.envs| ensures EnvLocal(s'.envs[g]) && RoleOk(s'.envs[g], RoleOf(s', g)) {
      assert EnvLocal(s.envs[g]) && RoleOk(s.envs[g], RoleOf(s, g));
      RoleAfterTaking(s, s', name, g);
      TakenStaysOk(s.envs[g], RoleOf(s, g), RoleOf(s', g));
    }
  }

  /** Taking a name out of the map turns its environment from a resident into the one to be dropped. */
  lemma RoleAfterTaking(s: State, s': State, name: string, g: nat)
    requires MapOk(s) && AtRest(s.welcome) && g < |s.envs| && s'.envs == s.envs && s'.live == s.live - {name}
    requires if name in s.live then s'.welcome.DropWrite? && s'.welcome.gen == s.live[name] else AtRest(s'.welcome)
    ensures RoleOf(s', g) == RoleOf(s, g) || (RoleOf(s, g) == Resident && RoleOf(s', g) == ToBeDropped)
  {
  }

  lemma DrainKeepsClose(s: State)
    requires MapOk(s) && CloseOk(s) && s.welcome.DrainingClose? && s.closeQueue != []
    ensures CloseOk(Proceed(s))
  {
    var s' := Proceed(s);
    HeadHitsItsSender(s);
    forall i | 0 <= i < |s'.closeQueue| ensures MessageOk(s', s'.closeQueue[i]) {
      assert s'.closeQueue[i] == s.closeQueue[i + 1] && MessageOk(s, s.closeQueue[i + 1]);
    }
    forall g | 0 <= g < |s'.envs| && s'.envs[g].announced == 1 && (Mapped(s', g) || Held(s'.welcome, g))
      ensures Queued(s', g)
    {
      assert Mapped(s, g) && Queued(s, g);
      var i :| 0 <= i < |s.closeQueue| && s.closeQueue[i].sender == g;
      assert i > 0 && s'.closeQueue[i - 1] == s.closeQueue[i];
    }
  }

  lemma DrainKeepsMap(s: State)
    requires MapOk(s) && s.welcome.DrainingClose? && s.closeQueue != []
    ensures MapOk(Proceed(s))
  {
  }

  lemma DrainKeepsInv(s: State)
    requires Inv(s) && s.welcome.DrainingClose?
    ensures Inv(Proceed(s))
  {
    if s.closeQueue == [] {
      EmptyDrainKeepsInv(s);
    } else {
      DrainKeepsMap(s);
      DrainKeepsLogs(s);
      TakingKeepsEnvs(s, Proceed(s), s.closeQueue[0].name);
      DrainKeepsClose(s);
    }
  }

  // ----- opening -----

  lemma OpenKeepsMap(s: State, name: string)
    requires MapOk(s) && s.welcome == Opening(name)
    ensures MapOk(Open(s, name))
  {
  }

  lemma RoleAfterOpening(s: State, name: string, g: nat)
    requires MapOk(s) && LogsOk(s) && s.welcome == Opening(name) && g < |s.envs|
    ensures var role, role' := RoleOf(s, g), RoleOf(Open(s, name), g);
      role' == role || (role == Resident && role' == SendTo(s.nextSocket))
    ensures s.nextSocket !in s.envs[g].registered
  {
  }

  lemma OpenedStaysOk(e: Env, role: Role, role': Role)
    requires RoleOk(e, role)
    requires role' == role || (role == Resident && role'.SendTo? && role'.socket !in e.registered)
    ensures RoleOk(e, role')
  {
  }

  lemma OpenKeepsEnvs(s: State, name: string)
    requires MapOk(s) && EnvsOk(s) && LogsOk(s) && s.welcome == Opening(name)
    ensures EnvsOk(Open(s, name))
  {
    var s' := Open(s, name);
    forall g | 0 <= g < |s'.envs| ensures EnvLocal(s'.envs[g]) && RoleOk(s'.envs[g], RoleOf(s', g)) {
      if g < |s.envs| {
        assert EnvLocal(s.envs[g]) && RoleOk(s.envs[g], RoleOf(s, g));
        RoleAfterOpening(s, name, g);
        OpenedStaysOk(s.envs[g], RoleOf(s, g), RoleOf(s', g));
      }
    }
  }

  lemma OpenKeepsClose(s: State, name: string)
    requires MapOk(s) && CloseOk(s) && s.welcome == Opening(name)
    ensures CloseOk(Open(s, name))
  {
    var s' := Open(s, name);
    forall i | 0 <= i < |s'.closeQueue| ensures MessageOk(s', s'.closeQueue[i]) {
      assert MessageOk(s, s.closeQueue[i]);
    }
    forall g | 0 <= g < |s'.envs| && s'.envs[g].announced == 1 && (Mapped(s', g) || Held(s'.welcome, g))
      ensures Queued(s', g)
    {
      assert g < |s.envs| && Mapped(s, g) && Queued(s, g);
    }
  }

  lemma OpenKeepsLogs(s: State, name: string)
    requires LogsOk(s) && s.welcome == Opening(name)
    ensures LogsOk(Open(s, name))
  {
    assert forall i :: 0 <= i < |s.removals| ==> RemovalOk(s, s.removals[i]);
    assert forall i :: 0 <= i < |s.outcomes| ==> OutcomeOk(s, s.outcomes[i]);
  }

  lemma OpeningKeepsInv(s: State)
    requires Inv(s) && s.welcome.Opening?
    ensures Inv(Proceed(s))
  {
    OpenKeepsMap(s, s.welcome.name);
    OpenKeepsEnvs(s, s.welcome.name);
    OpenKeepsClose(s, s.welcome.name);
    OpenKeepsLogs(s, s.welcome.name);
  }
}
