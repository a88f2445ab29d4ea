/** Steps in which the welcome thread works on one environment: `insert_socket` and dropping. */
module OwnerSteps {
  import opened EnvironmentProtocol
  import opened EnvironmentInvariant
  import opened WelcomeSteps

  /** All environments but this one are as the invariant wants them. */
  ghost predicate OthersOk(s: State, g: nat) {
    forall h :: 0 <= h < |s.envs| && h != g ==> EnvLocal(s.envs[h]) && RoleOk(s.envs[h], RoleOf(s, h))
  }

  /** The welcome thread's own part of a change to environment `g`. */
  ghost predicate SameButOne(s: State, s': State, g: nat) {
    && g < |s.envs| == |s'.envs|
    && s'.envs[g].name == s.envs[g].name
    && (forall h :: 0 <= h < |s.envs| && h != g ==> s'.envs[h] == s.envs[h])
    && s'.live == s.live
  }

  ghost predicate OnlyWorksOn(w: WelcomePc, g: nat) {
    AtRest(w) || w.gen == g
  }

  lemma OthersStayOk(s: State, s': State, g: nat)
    requires OthersOk(s, g) && SameButOne(s, s', g)
    requires OnlyWorksOn(s.welcome, g) && OnlyWorksOn(s'.welcome, g)
    ensures OthersOk(s', g)
  {
    forall h | 0 <= h < |s'.envs| && h != g ensures EnvLocal(s'.envs[h]) && RoleOk(s'.envs[h], RoleOf(s', h)) {
      assert EnvLocal(s.envs[h]) && RoleOk(s.envs[h], RoleOf(s, h));
      assert RoleOf(s', h) == RoleOf(s, h);
    }
  }

  /** The announcements of all environments and the close channel are untouched. */
  ghost predicate SameAnnouncements(s: State, s': State) {
    && |s'.envs| == |s.envs|
    && (forall h :: 0 <= h < |s.envs| ==>
          s'.envs[h].name == s.envs[h].name && s'.envs[h].announced == s.envs[h].announced && s'.envs[h].pc == s.envs[h].pc)
    && s'.closeQueue == s.closeQueue && s'.closeEvent == s.closeEvent && s'.receiverAlive == s.receiverAlive
    && s'.live == s.live
  }

  lemma AnnouncementsKept(s: State, s': State)
    requires CloseOk(s) && SameAnnouncements(s, s')
    requires InDrain(s.welcome) ==> InDrain(s'.welcome)
    requires MayHoldOrphans(s.welcome) ==> MayHoldOrphans(s'.welcome)
    requires forall g :: 0 <= g < |s.envs| && !Mapped(s, g) ==> (Held(s.welcome, g) <==> Held(s'.welcome, g))
    ensures CloseOk(s')
  {
    forall i | 0 <= i < |s'.closeQueue| ensures MessageOk(s', s'.closeQueue[i]) {
      assert MessageOk(s, s.closeQueue[i]);
    }
    forall g | s'.receiverAlive && 0 <= g < |s'.envs| && s'.envs[g].announced == 1 && (Mapped(s', g) || Held(s'.welcome, g))
      ensures Queued(s', g)
    {
      assert Mapped(s, g) || Held(s.welcome, g);
      assert Queued(s, g);
    }
  }

  lemma RegistrationsKeepLogs(s: State, s': State)
    requires LogsOk(s) && |s'.envs| == |s.envs| && s'.removals == s.removals && s'.nextSocket == s.nextSocket
    requires forall h :: 0 <= h < |s.envs| ==>
               s'.envs[h].registered == s.envs[h].registered && s'.envs[h].announced == s.envs[h].announced
    requires forall i :: 0 <= i < |s'.outcomes| ==> OutcomeOk(s', s'.outcomes[i])
    ensures LogsOk(s')
  {
    assert forall i :: 0 <= i < |s.removals| ==> RemovalOk(s, s.removals[i]);
  }

  lemma OutcomesKept(s: State, s': State)
    requires LogsOk(s) && |s'.envs| == |s.envs| && s'.outcomes == s.outcomes && s'.nextSocket == s.nextSocket
    requires Inserting(s'.welcome) ==> Inserting(s.welcome)
    requires forall h :: 0 <= h < |s.envs| ==> s'.envs[h].registered == s.envs[h].registered
    ensures forall i :: 0 <= i < |s'.outcomes| ==> OutcomeOk(s', s'.outcomes[i])
  {
    assert forall i :: 0 <= i < |s.outcomes| ==> OutcomeOk(s, s.outcomes[i]);
  }

  // ----- insert_socket -----

  /** The welcome thread does something to `g`'s ends of the channels and events and moves on. */
  ghost predicate Touches(s: State, s': State, g: nat) {
    && g < |s.envs| == |s'.envs| && s' == SetEnv(s, g, s'.envs[g]).(welcome := s'.welcome)
    && s'.envs[g].name == s.envs[g].name && s'.envs[g].announced == s.envs[g].announced
    && s'.envs[g].pc == s.envs[g].pc && s'.envs[g].registered == s.envs[g].registered
    && !AtRest(s.welcome) && s.welcome.gen == g && !AtRest(s'.welcome) && s'.welcome.gen == g
    && (InDrain(s.welcome) <==> InDrain(s'.welcome)) && (Held(s.welcome, g) <==> Held(s'.welcome, g))
    && (Inserting(s.welcome) <==> Inserting(s'.welcome))
  }

  lemma TouchKeepsInv(s: State, s': State, g: nat)
    requires EnvsOk(s) && CloseOk(s) && LogsOk(s) && Touches(s, s', g)
    requires MapOk(s') && EnvLocal(s'.envs[g]) && RoleOk(s'.envs[g], RoleOf(s', g))
    ensures Inv(s')
  {
    OthersStayOk(s, s', g);
    AnnouncementsKept(s, s');
    OutcomesKept(s, s');
    RegistrationsKeepLogs(s, s');
  }

  /** Handing the socket over and signalling it, the two operations before `recv`. */
  lemma HandOverKeepsInv(s: State)
    requires Inv(s) && Enabled(s, Proceeds)
    requires s.welcome.InsertWrite? || (s.welcome.InsertSend? && !s.envs[s.welcome.gen].pc.Ended?)
    ensures Inv(Proceed(s))
  {
    var g, s' := s.welcome.gen, Proceed(s);
    assert EnvLocal(s.envs[g]) && RoleOk(s.envs[g], RoleOf(s, g));
    HandOverKeepsRole(s);
    WorkKeepsMap(s);
    WorkTouches(s);
    TouchKeepsInv(s, s', g);
  }

  /** The steps that work on one environment leave the map and its target alone. */
  lemma WorkKeepsMap(s: State)
    requires MapOk(s) && Enabled(s, Proceeds)
    requires || s.welcome.InsertWrite? || (s.welcome.InsertSend? && !s.envs[s.welcome.gen].pc.Ended?)
             || s.welcome.DropWrite? || s.welcome.DropEnds?
    ensures MapOk(Proceed(s))
  {
  }

  lemma WorkTouches(s: State)
    requires Enabled(s, Proceeds)
    requires || s.welcome.InsertWrite? || (s.welcome.InsertSend? && !s.envs[s.welcome.gen].pc.Ended?)
             || s.welcome.DropWrite? || s.welcome.DropEnds?
    ensures Touches(s, Proceed(s), s.welcome.gen)
  {
  }

  lemma HandOverKeepsRole(s: State)
    requires Enabled(s, Proceeds)
    requires s.welcome.InsertWrite? || (s.welcome.InsertSend? && !s.envs[s.welcome.gen].pc.Ended?)
    requires EnvLocal(s.envs[s.welcome.gen]) && RoleOk(s.envs[s.welcome.gen], RoleOf(s, s.welcome.gen))
    ensures var e' := Proceed(s).envs[s.welcome.gen]; EnvLocal(e') && RoleOk(e', RoleOf(Proceed(s), s.welcome.gen))
  {
  }

  /** `insert_socket` is over for `g`: no request under way, and the result says what was registered. */
  ghost predicate Answered(s: State, g: nat, socket: nat, isNew: bool, ok: bool) {
    && Inserting(s.welcome) && s.welcome.gen == g && s.welcome.socket == socket && s.welcome.isNew == isNew
    && MapOk(s) && CloseOk(s) && LogsOk(s) && OthersOk(s, g)
    && EnvLocal(s.envs[g]) && Idle(s.envs[g]) && Undisturbed(s.envs[g])
    && (ok <==> socket in s.envs[g].registered)
  }

  lemma ReturnKeepsLogs(s: State, g: nat, socket: nat, isNew: bool, ok: bool)
    requires g < |s.envs| && Answered(s, g, socket, isNew, ok)
    ensures LogsOk(InsertReturns(s, g, socket, isNew, ok))
  {
    var s' := InsertReturns(s, g, socket, isNew, ok);
    forall i | 0 <= i < |s'.outcomes| ensures OutcomeOk(s', s'.outcomes[i]) {
      assert i < |s.outcomes| ==> OutcomeOk(s, s.outcomes[i]);
    }
    RegistrationsKeepLogs(s, s');
  }

  lemma ReturnKeepsMap(s: State, g: nat, socket: nat, isNew: bool, ok: bool)
    requires g < |s.envs| && Answered(s, g, socket, isNew, ok)
    ensures MapOk(InsertReturns(s, g, socket, isNew, ok))
  {
  }

  lemma RolesAfterReturn(s: State, g: nat, socket: nat, isNew: bool, ok: bool, h: nat)
    requires g < |s.envs| && h < |s.envs| && MapOk(s)
    requires Inserting(s.welcome) && s.welcome.gen == g && s.welcome.isNew == isNew
    ensures var s' := InsertReturns(s, g, socket, isNew, ok);
      && (h != g ==> RoleOf(s', h) == RoleOf(s, h))
      && (RoleOf(s', g) == Resident || RoleOf(s', g) == ToBeDropped)
  {
  }

  lemma ReturnKeepsEnvs(s: State, g: nat, socket: nat, isNew: bool, ok: bool)
    requires g < |s.envs| && Answered(s, g, socket, isNew, ok)
    ensures EnvsOk(InsertReturns(s, g, socket, isNew, ok))
  {
    var s' := InsertReturns(s, g, socket, isNew, ok);
    forall h | 0 <= h < |s'.envs| ensures EnvLocal(s'.envs[h]) && RoleOk(s'.envs[h], RoleOf(s', h)) {
      RolesAfterReturn(s, g, socket, isNew, ok, h);
      assert h != g ==> EnvLocal(s.envs[h]) && RoleOk(s.envs[h], RoleOf(s, h));
    }
  }

  lemma ReturnKeepsClose(s: State, g: nat, socket: nat, isNew: bool, ok: bool)
    requires g < |s.envs| && Answered(s, g, socket, isNew, ok)
    ensures CloseOk(InsertReturns(s, g, socket, isNew, ok))
  {
    var s' := InsertReturns(s, g, socket, isNew, ok);
    forall i | 0 <= i < |s'.closeQueue| ensures MessageOk(s', s'.closeQueue[i]) {
      assert MessageOk(s, s.closeQueue[i]);
    }
    forall h | s'.receiverAlive && 0 <= h < |s'.envs| && s'.envs[h].announced == 1 && (Mapped(s', h) || Held(s'.welcome, h))
      ensures Queued(s', h)
    {
      assert Mapped(s, h) || Held(s.welcome, h);
      assert Queued(s, h);
    }
  }

  lemma ReturnKeepsInv(s: State, g: nat, socket: nat, isNew: bool, ok: bool)
    requires g < |s.envs| && Answered(s, g, socket, isNew, ok)
    ensures Inv(InsertReturns(s, g, socket, isNew, ok))
  {
    ReturnKeepsLogs(s, g, socket, isNew, ok);
    ReturnKeepsMap(s, g, socket, isNew, ok);
    ReturnKeepsEnvs(s, g, socket, isNew, ok);
    ReturnKeepsClose(s, g, socket, isNew, ok);
  }

  lemma SendRefusedKeepsInv(s: State)
    requires Inv(s) && Enabled(s, Proceeds) && s.welcome.InsertSend? && s.envs[s.welcome.gen].pc.Ended?
    ensures Inv(Proceed(s))
  {
    var g := s.welcome.gen;
    assert EnvLocal(s.envs[g]) && RoleOk(s.envs[g], RoleOf(s, g));
    ReturnKeepsInv(s, g, s.welcome.socket, s.welcome.isNew, false);
  }

  lemma AnsweredIsIdle(e: Env, socket: nat)
    requires EnvLocal(e) && RoleOk(e, RecvFrom(socket)) && e.responses != []
    ensures var e' := e.(responses := e.responses[1..]); EnvLocal(e') && Idle(e') && Undisturbed(e')
    ensures e.responses[0] <==> socket in e.registered
  {
  }

  lemma AnswerIsTaken(s: State)
    requires Inv(s) && s.welcome.InsertRecv? && s.welcome.gen < |s.envs| && s.envs[s.welcome.gen].responses != []
    ensures var g := s.welcome.gen;
      var e := s.envs[g];
      Answered(SetEnv(s, g, e.(responses := e.responses[1..])), g, s.welcome.socket, s.welcome.isNew, e.responses[0])
  {
    var g := s.welcome.gen;
    var e := s.envs[g];
    assert EnvLocal(e) && RoleOk(e, RoleOf(s, g));
    AnsweredIsIdle(e, s.welcome.socket);
    TakingKeepsTheRest(s, SetEnv(s, g, e.(responses := e.responses[1..])), g);
  }

  /** Taking an answer off the channel concerns nobody else. */
  lemma TakingKeepsTheRest(s: State, s': State, g: nat)
    requires MapOk(s) && EnvsOk(s) && CloseOk(s) && LogsOk(s) && s.welcome.InsertRecv? && s.welcome.gen == g
    requires g < |s.envs| == |s'.envs| && s' == SetEnv(s, g, s.envs[g].(responses := s'.envs[g].responses))
    ensures MapOk(s') && CloseOk(s') && LogsOk(s') && OthersOk(s', g)
  {
    OthersStayOk(s, s', g);
    AnnouncementsKept(s, s');
    OutcomesKept(s, s');
    RegistrationsKeepLogs(s, s');
  }

  lemma RecvKeepsInv(s: State)
    requires Inv(s) && Enabled(s, Proceeds) && s.welcome.InsertRecv?
    ensures Inv(Proceed(s))
  {
    var g := s.welcome.gen;
    var e := s.envs[g];
    if e.responses == [] {
      assert EnvLocal(e) && RoleOk(e, RoleOf(s, g));
      ReturnKeepsInv(s, g, s.welcome.socket, s.welcome.isNew, false);
    } else {
      AnswerIsTaken(s);
      var s1 := SetEnv(s, g, e.(responses := e.responses[1..]));
      ReturnKeepsInv(s1, g, s.welcome.socket, s.welcome.isNew, e.responses[0]);
    }
  }

  // ----- dropping an environment -----

  lemma DropKeepsRole(s: State)
    requires Enabled(s, Proceeds) && (s.welcome.DropWrite? || s.welcome.DropEnds?)
    requires EnvLocal(s.envs[s.welcome.gen]) && RoleOk(s.envs[s.welcome.gen], RoleOf(s, s.welcome.gen))
    ensures var e' := Proceed(s).envs[s.welcome.gen]; EnvLocal(e') && RoleOk(e', RoleOf(Proceed(s), s.welcome.gen))
  {
  }

  lemma DropKeepsInv(s: State)
    requires Inv(s) && Enabled(s, Proceeds) && (s.welcome.DropWrite? || s.welcome.DropEnds?)
    ensures Inv(Proceed(s))
  {
    var g, s' := s.welcome.gen, Proceed(s);
    assert EnvLocal(s.envs[g]) && RoleOk(s.envs[g], RoleOf(s, g));
    DropKeepsRole(s);
    WorkKeepsMap(s);
    WorkTouches(s);
    TouchKeepsInv(s, s', g);
  }

  lemma JoinKeepsClose(s: State)
    requires Inv(s) && Enabled(s, Proceeds) && s.welcome.DropJoin?
    ensures CloseOk(Proceed(s))
  {
    var s' := Proceed(s);
    forall i | 0 <= i < |s'.closeQueue| ensures MessageOk(s', s'.closeQueue[i]) {
      assert MessageOk(s, s.closeQueue[i]);
    }
    forall h | s'.receiverAlive && 0 <= h < |s'.envs| && s'.envs[h].announced == 1 && (Mapped(s', h) || Held(s'.welcome, h))
      ensures Queued(s', h)
    {
      assert Queued(s, h);
    }
  }

  lemma JoinKeepsInv(s: State)
    requires Inv(s) && Enabled(s, Proceeds) && s.welcome.DropJoin?
    ensures Inv(Proceed(s))
  {
    var g, s' := s.welcome.gen, Proceed(s);
    assert EnvLocal(s.envs[g]) && RoleOk(s.envs[g], RoleOf(s, g));
    OthersStayOk(s, s', g);
    JoinKeepsClose(s);
    OutcomesKept(s, s');
    RegistrationsKeepLogs(s, s');
  }

  lemma TeardownDropKeepsInv(s: State, name: string)
    requires Inv(s) && Enabled(s, Drops(name))
    ensures Inv(Next(s, Drops(name)))
  {
    var s' := Next(s, Drops(name));
    TakingKeepsEnvs(s, s', name);
    OutcomesKept(s, s');
    RegistrationsKeepLogs(s, s');
  }

  // ----- every step, every run -----

  lemma StepKeepsInv(s: State, step: Step)
    requires Inv(s) && Enabled(s, step)
    ensures Inv(Next(s, step))
  {
    match step
    case EnvMoves(g, c) =>
      EnvMoveKeepsMap(s, g, c);
      EnvMoveKeepsEnvs(s, g, c);
      EnvMoveKeepsClose(s, g, c);
      EnvMoveKeepsLogs(s, g, c);
    case Woken(clientWaits) => WokenKeepsInv(s, clientWaits);
    case Stops => StopsKeepsInv(s);
    case Requested(_) => AcceptingKeepsInv(s, step);
    case FailsOver => AcceptingKeepsInv(s, step);
    case Drops(name) => TeardownDropKeepsInv(s, name);
    case Proceeds => ProceedKeepsInv(s);
  }

  lemma ProceedKeepsInv(s: State)
    requires Inv(s) && Enabled(s, Proceeds)
    ensures Inv(Proceed(s))
  {
    match s.welcome
    case ReadingClose(_) => ReadingCloseKeepsInv(s);
    case DrainingClose(_) => DrainKeepsInv(s);
    case Opening(_) => OpeningKeepsInv(s);
    case InsertSend(g, _, _) =>
      if s.envs[g].pc.Ended? { SendRefusedKeepsInv(s); } else { HandOverKeepsInv(s); }
    case InsertWrite(_, _, _) => HandOverKeepsInv(s);
    case InsertRecv(_, _, _) => RecvKeepsInv(s);
    case DropWrite(_, _) => DropKeepsInv(s);
    case DropEnds(_, _) => DropKeepsInv(s);
    case DropJoin(_, _) => JoinKeepsInv(s);
    case Teardown => TeardownEndsKeepsInv(s);
    case _ =>
  }

  /** Every state of every interleaving satisfies the invariant. */
  lemma {:induction false} RunKeepsInv(run: seq<State>, i: nat)
    requires IsRun(run) && i < |run|
    ensures Inv(run[i])
  {
    if i > 0 {
      RunKeepsInv(run, i - 1);
      assert Successor(run[i - 1], run[i - 1 + 1]);
      var step :| Enabled(run[i - 1], step) && run[i] == Next(run[i - 1], step);
      StepKeepsInv(run[i - 1], step);
    }
  }
}
