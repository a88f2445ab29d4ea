/** What the environment protocol guarantees over every interleaving. */
module EnvironmentTheorems {
  import opened Outcomes
  import opened EnvironmentProtocol
  import opened EnvironmentInvariant
  import opened OwnerSteps
  import opened CloseHistory
  import opened RequestHistory
  import opened Runs

  // ----- closing -----

  /**
   * A drained name removed the generation that sent it if that had been created, never a newer
   * environment of the same name, and nothing otherwise; and that generation had left its loop by itself.
   */
  ghost predicate ClosesOnlyTheSender(s: State) {
    forall i :: 0 <= i < |s.removals| ==>
      var r := s.removals[i];
      && r.removed == (if Created(s, r.sender) then Some(r.sender) else None)
      && r.sender < |s.envs|
      && !InLoop(s.envs[r.sender].pc) && !s.envs[r.sender].pc.Panicked?
      && !s.envs[r.sender].pc.why.DroppedByOwner?
  }

  lemma RemovalsHitTheirSender(s: State)
    requires Inv(s) && HistoryOk(s)
    ensures ClosesOnlyTheSender(s)
  {
    forall i | 0 <= i < |s.removals|
      ensures RemovalOk(s, s.removals[i]) && EnvLocal(s.envs[s.removals[i].sender]) && RemovalExact(s, s.removals[i])
    {
      assert RemovalOk(s, s.removals[i]) && RemovalExact(s, s.removals[i]);
    }
  }

  /**
   * A queued name is in the map if and only if the creation of its sender has returned Ok, and then it
   * stands for its sender; it is drained for the first time, and each generation once at most.
   */
  ghost predicate QueuedNamesExact(s: State) {
    && (forall i :: 0 <= i < |s.closeQueue| ==>
          var m := s.closeQueue[i];
          && (m.name in s.live <==> Created(s, m.sender))
          && (m.name in s.live ==> s.live[m.name] == m.sender)
          && !Drained(s, m.sender))
    && (forall i, j :: 0 <= i < j < |s.removals| ==> s.removals[i].sender != s.removals[j].sender)
  }

  lemma QueuedNamesAreExact(s: State)
    requires Inv(s) && HistoryOk(s)
    ensures QueuedNamesExact(s)
  {
    forall i | 0 <= i < |s.closeQueue|
      ensures MessageOk(s, s.closeQueue[i]) && MessageExact(s, s.closeQueue[i])
    {
      assert MessageOk(s, s.closeQueue[i]) && MessageExact(s, s.closeQueue[i]);
    }
  }

  /**
   * No lost wakeup: a queued name has its event on, or its own sender is between its send and its
   * write, or the welcome thread is between reading the event and finding the channel empty.
   */
  ghost predicate NoLostWakeup(s: State) {
    forall i :: 0 <= i < |s.closeQueue| ==>
      && s.closeQueue[i].sender < |s.envs|
      && (s.closeEvent > 0 || s.envs[s.closeQueue[i].sender].pc.Writing? || InDrain(s.welcome))
  }

  lemma WakeupsAreNotLost(s: State)
    requires Inv(s)
    ensures NoLostWakeup(s)
  {
    assert forall i :: 0 <= i < |s.closeQueue| ==> MessageOk(s, s.closeQueue[i]);
  }

  /**
   * No zombie entry: while the welcome loop runs, an environment of its map whose thread has ended
   * has its name in the queue, so it is still going to be removed.
   */
  ghost predicate NoZombie(s: State) {
    s.receiverAlive ==> forall name :: name in s.live ==>
      && s.live[name] < |s.envs|
      && (s.envs[s.live[name]].pc.Ended? ==> Message(name, s.live[name]) in s.closeQueue)
  }

  /** Whoever ends before its owner drops it has announced that. */
  lemma EndedHasAnnounced(e: Env, role: Role)
    requires AnnouncedOnce(e) && RoleOk(e, role) && role != Unowned && !role.Dropping? && e.pc.Ended?
    ensures e.announced == 1
  {
  }

  lemma MappedRole(s: State, g: nat)
    requires MapOk(s) && g < |s.envs| && Mapped(s, g)
    ensures RoleOf(s, g) != Unowned && !RoleOf(s, g).Dropping?
  {
  }

  lemma EndedResidentIsQueued(s: State, name: string)
    requires Inv(s) && s.receiverAlive && name in s.live && s.envs[s.live[name]].pc.Ended?
    ensures Message(name, s.live[name]) in s.closeQueue
  {
    var g := s.live[name];
    MappedRole(s, g);
    assert EnvLocal(s.envs[g]) && RoleOk(s.envs[g], RoleOf(s, g));
    EndedHasAnnounced(s.envs[g], RoleOf(s, g));
    assert Queued(s, g);
    var k :| 0 <= k < |s.closeQueue| && s.closeQueue[k].sender == g;
    assert MessageOk(s, s.closeQueue[k]);
  }

  lemma EndedResidentsAreQueued(s: State)
    requires Inv(s)
    ensures NoZombie(s)
  {
    forall name | s.receiverAlive && name in s.live && s.envs[s.live[name]].pc.Ended?
      ensures Message(name, s.live[name]) in s.closeQueue
    {
      EndedResidentIsQueued(s, name);
    }
  }

  /**
   * In its loop an environment holds exactly the sockets registered and not hung up, and one at least
   * once it had any. It announces its closing at most once, never panics, and each end is exactly one
   * of three: after the last registered socket hung up, after a failed start or wait (both announced),
   * or unannounced because its owner dropped it. After the owner's request it begins at most one more
   * wait.
   */
  ghost predicate EndsWell(e: Env, mapped: bool) {
    && e.announced <= 1 && e.lateWaits <= 1
    && !e.pc.Panicked?
    && e.sockets == e.registered - e.gone && e.gone <= e.registered
    && (InLoop(e.pc) && e.registered != {} ==> !(e.registered <= e.gone))
    && (e.pc.Ended? ==>
          match e.pc.why
          case LastSocketLeft => e.announced == 1 && e.registered == e.gone != {}
          case Failed => e.announced == 1
          case DroppedByOwner => e.announced == 0 && !mapped && e.dropEvent == 0)
  }

  lemma LocalEndsWell(e: Env, role: Role)
    requires EnvLocal(e) && RoleOk(e, role)
    ensures EndsWell(e, role != Unowned && !role.Dropping?)
  {
    assert e.sockets == {} <==> e.registered <= e.gone by {
      assert forall x :: x in e.sockets <==> x in e.registered && x !in e.gone;
    }
  }

  lemma EveryEndIsAccountedFor(s: State, g: nat)
    requires Inv(s) && g < |s.envs|
    ensures EndsWell(s.envs[g], Mapped(s, g))
  {
    assert EnvLocal(s.envs[g]) && RoleOk(s.envs[g], RoleOf(s, g));
    LocalEndsWell(s.envs[g], RoleOf(s, g));
    if Mapped(s, g) {
      MappedRole(s, g);
    }
  }

  /** A hang-up takes out the socket it is about and no other, and ends the loop exactly if none is left. */
  lemma HangUpTakesOne(e: Env, c: EnvChoice, socket: nat)
    requires EnvEnabled(e, c) && e.pc.Handling? && e.pc.rest != [] && e.pc.rest[0] == Client(socket, true)
    ensures forall x :: x in EnvStep(e, c).sockets <==> x in e.sockets && x != socket
    ensures EnvStep(e, c).pc == if e.sockets <= {socket} then Sending(LastSocketLeft) else Handling(e.pc.rest[1..])
  {
    assert e.sockets - {socket} == {} <==> e.sockets <= {socket} by {
      assert forall x :: x in e.sockets - {socket} <==> x in e.sockets && x != socket;
    }
  }

  /** At most one environment thread of any name is running, and none once the welcome thread is done. */
  ghost predicate OneThreadPerName(s: State, g: nat, h: nat)
    requires g < |s.envs| && h < |s.envs|
  {
    && (s.envs[g].name == s.envs[h].name && !s.envs[g].pc.Ended? && !s.envs[h].pc.Ended? ==> g == h)
    && (s.welcome.Finished? ==> s.envs[g].pc.Ended?)
  }

  lemma RunningMeansOwned(s: State, g: nat)
    requires Inv(s) && g < |s.envs| && !s.envs[g].pc.Ended?
    ensures RoleOf(s, g) != Unowned
  {
    assert RoleOk(s.envs[g], RoleOf(s, g));
  }

  lemma OneOwnedPerName(s: State, g: nat, h: nat)
    requires MapOk(s) && g < |s.envs| && h < |s.envs|
    ensures RoleOf(s, g) != Unowned ==> !s.welcome.Finished?
    ensures s.envs[g].name == s.envs[h].name && RoleOf(s, g) != Unowned && RoleOf(s, h) != Unowned ==> g == h
  {
  }

  lemma ThreadsDoNotOverlap(s: State, g: nat, h: nat)
    requires Inv(s) && g < |s.envs| && h < |s.envs|
    ensures OneThreadPerName(s, g, h)
  {
    OneOwnedPerName(s, g, h);
    if !s.envs[g].pc.Ended? {
      RunningMeansOwned(s, g);
    }
    if !s.envs[h].pc.Ended? {
      RunningMeansOwned(s, h);
    }
  }

  // ----- the rendezvous -----

  /**
   * Every `insert_socket` that has returned returned Ok exactly if its own socket was registered by
   * that environment's thread; at most one socket is handed over and at most one answer outstanding,
   * only with the environment being talked to, and the answer is about the very socket waited for.
   */
  ghost predicate RendezvousOk(s: State) {
    && (forall i :: 0 <= i < |s.outcomes| ==>
          && s.outcomes[i].gen < |s.envs|
          && (s.outcomes[i].ok <==> s.outcomes[i].socket in s.envs[s.outcomes[i].gen].registered))
    && (forall g :: 0 <= g < |s.envs| ==> OneRequestAtATime(s, g))
  }

  ghost predicate OneRequestAtATime(s: State, g: nat)
    requires g < |s.envs|
  {
    var e := s.envs[g];
    && |e.addQueue| + |e.responses| <= 1
    && (e.addQueue != [] || e.responses != [] ==> Inserting(s.welcome) && s.welcome.gen == g)
    && (e.addQueue != [] ==> e.addQueue[0] == s.welcome.socket)
    && (e.responses != [] ==> (e.responses[0] <==> s.welcome.socket in e.registered))
  }

  lemma RequestsDoNotMix(s: State, g: nat)
    requires Inv(s) && g < |s.envs|
    ensures OneRequestAtATime(s, g)
  {
    assert RoleOk(s.envs[g], RoleOf(s, g));
  }

  lemma AnswersMatchRequests(s: State)
    requires Inv(s)
    ensures RendezvousOk(s)
  {
    assert forall i :: 0 <= i < |s.outcomes| ==> OutcomeOk(s, s.outcomes[i]);
    forall g | 0 <= g < |s.envs| ensures OneRequestAtATime(s, g) {
      RequestsDoNotMix(s, g);
    }
  }

  /**
   * Each answered request went to an environment of the name asked for; no client seen by a poll is
   * left waiting when the next one begins; and each environment ends one poll at most by its closing.
   */
  ghost predicate RequestsServed(s: State) {
    && (forall i :: 0 <= i < |s.outcomes| ==> AnsweredAsAsked(s, s.outcomes[i]))
    && (s.welcome.Polling? ==> !s.waiting)
    && s.wakeups <= |s.envs| + 1
    && (s.welcome.Polling? ==> s.wakeups <= |s.envs|)
  }

  lemma RequestsAreServed(s: State)
    requires RequestsOk(s)
    ensures RequestsServed(s)
  {
  }

  /** All of it, in every state of every interleaving. */
  lemma EveryInterleavingIsSafe(run: seq<State>, i: nat)
    requires IsRun(run) && i < |run|
    ensures ClosesOnlyTheSender(run[i]) && QueuedNamesExact(run[i])
    ensures RequestsServed(run[i])
    ensures NoLostWakeup(run[i]) && NoZombie(run[i]) && RendezvousOk(run[i])
    ensures forall g :: 0 <= g < |run[i].envs| ==> EndsWell(run[i].envs[g], Mapped(run[i], g))
    ensures forall g, h :: 0 <= g < |run[i].envs| && 0 <= h < |run[i].envs| ==> OneThreadPerName(run[i], g, h)
  {
    RunKeepsInv(run, i);
    RunKeepsHistory(run, i);
    RunKeepsRequests(run, i);
    var s := run[i];
    RemovalsHitTheirSender(s);
    QueuedNamesAreExact(s);
    RequestsAreServed(s);
    WakeupsAreNotLost(s);
    EndedResidentsAreQueued(s);
    AnswersMatchRequests(s);
    forall g | 0 <= g < |s.envs| ensures EndsWell(s.envs[g], Mapped(s, g)) {
      EveryEndIsAccountedFor(s, g);
    }
    forall g, h | 0 <= g < |s.envs| && 0 <= h < |s.envs| ensures OneThreadPerName(s, g, h) {
      ThreadsDoNotOverlap(s, g, h);
    }
  }

  // ----- progress -----

  /** An upper bound on the steps of this thread before it has dealt with the special event or ended. */
  function Rank(e: Env, awaited: Ready): nat {
    match e.pc
    case Starting => |e.sockets| + 12
    case LoopHead => |e.sockets| + 11
    case InWait => |e.sockets| + 10
    case Handling(rest) => |rest| + (if awaited in rest then 7 else |e.sockets| + 12)
    case Reading(_) => 7
    case Draining(_) => |e.addQueue| + 5
    case Responding(_, _) => 4
    case Sending(_) => 3
    case Writing(_) => 2
    case Leaving(_) => 1
    case _ => 0
  }

  /** The welcome thread blocks on this environment, waiting for it to see this event. */
  ghost predicate Blocks(s: State, g: nat, awaited: Ready) {
    && g < |s.envs| && !Enabled(s, Proceeds)
    && ((awaited == AddListener && s.welcome.InsertRecv? && s.welcome.gen == g)
        || (awaited == DropRequested && s.welcome.DropJoin? && s.welcome.gen == g))
  }

  /** A client's hang-up costs an event of the batch and never adds a socket. */
  lemma HangUpAdvances(e: Env, awaited: Ready)
    requires e.pc.Handling? && e.pc.rest != [] && e.pc.rest[0].Client? && !awaited.Client?
    ensures Rank(EnvStep(e, Go), awaited) < Rank(e, awaited)
  {
    var rest := e.pc.rest;
    assert rest == [rest[0]] + rest[1..];
    assert |e.sockets - {rest[0].socket}| <= |e.sockets|;
  }

  /** Handling an event, and the batch it leaves behind, uses up rank as long as the awaited event stays. */
  lemma HandlingAdvances(e: Env, awaited: Ready)
    requires BatchOk(e) && e.pc.Handling? && e.pc.rest != [] && !awaited.Client?
    requires awaited == AddListener ==> e.dropEvent == 0
    requires awaited == DropRequested ==> AddListener !in e.pc.rest
    ensures Rank(EnvStep(e, Go), awaited) < Rank(e, awaited)
  {
    if e.pc.rest[0].Client? {
      HangUpAdvances(e, awaited);
    } else {
      assert e.pc.rest[0] in e.pc.rest;
    }
  }

  /** Waiting reports the awaited event if it is on, and all other steps only lead towards the end. */
  lemma OtherStepAdvances(e: Env, c: EnvChoice, awaited: Ready)
    requires EnvEnabled(e, c) && !(e.pc.Handling? && e.pc.rest != []) && !awaited.Client?
    requires e.pc.InWait? ==> if awaited == AddListener then e.addEvent > 0 else e.dropEvent > 0
    requires |e.addQueue| <= 1
    ensures Rank(EnvStep(e, c), awaited) < Rank(e, awaited) || e.pc.Responding?
  {
  }

  /** Every step the awaited thread can take ends the wait or brings its end nearer. */
  lemma RequestAdvances(e: Env, c: EnvChoice, socket: nat)
    requires EnvLocal(e) && RoleOk(e, RecvFrom(socket)) && e.responses == [] && EnvEnabled(e, c)
    ensures Rank(e, AddListener) > 0
    ensures EnvStep(e, c).responses == [] ==> Rank(EnvStep(e, c), AddListener) < Rank(e, AddListener)
  {
    if e.pc.Handling? && e.pc.rest != [] {
      HandlingAdvances(e, AddListener);
    } else {
      OtherStepAdvances(e, c, AddListener);
    }
  }

  lemma DropAdvances(e: Env, c: EnvChoice)
    requires EnvLocal(e) && RoleOk(e, Dropping(false)) && EnvEnabled(e, c)
    ensures Rank(EnvStep(e, c), DropRequested) < Rank(e, DropRequested)
  {
    if e.pc.Handling? && e.pc.rest != [] {
      HandlingAdvances(e, DropRequested);
    } else {
      OtherStepAdvances(e, c, DropRequested);
    }
  }

  lemma BlockedAdvances(s: State, g: nat, awaited: Ready, c: EnvChoice)
    requires Inv(s) && Blocks(s, g, awaited) && EnvEnabled(s.envs[g], c)
    ensures Rank(s.envs[g], awaited) > 0
    ensures Blocks(Next(s, EnvMoves(g, c)), g, awaited) ==>
              Rank(EnvStep(s.envs[g], c), awaited) < Rank(s.envs[g], awaited)
  {
    assert EnvLocal(s.envs[g]) && RoleOk(s.envs[g], RoleOf(s, g));
    if awaited == AddListener {
      RequestAdvances(s.envs[g], c, s.welcome.socket);
    } else {
      DropAdvances(s.envs[g], c);
    }
  }

  /** A thread the welcome thread waits for can always take a step: the event it waits for is on. */
  lemma AwaitedCanMove(e: Env, awaited: Ready) returns (c: EnvChoice)
    requires EnvLocal(e) && !e.pc.Ended?
    requires || (awaited == AddListener && e.addEvent > 0)
             || (awaited == DropRequested && e.dropEvent > 0)
             || !e.pc.InWait?
    ensures EnvEnabled(e, c)
  {
    c := Go;
    if e.pc.InWait? {
      var add, drop := [AddListener], [DropRequested];
      c := Events(if e.addEvent == 0 then drop else if e.dropEvent == 0 then add else add + drop);
    }
  }

  lemma BlockedCanMove(s: State, g: nat, awaited: Ready) returns (c: EnvChoice)
    requires Inv(s) && Blocks(s, g, awaited)
    ensures Enabled(s, EnvMoves(g, c))
  {
    assert EnvLocal(s.envs[g]) && RoleOk(s.envs[g], RoleOf(s, g));
    c := AwaitedCanMove(s.envs[g], awaited);
  }

  /** Nothing outside is ruled out: a start, a registration or a wait can fail, and a wait can report anything. */
  lemma AnythingCanHappen(e: Env, batch: seq<Ready>)
    ensures e.pc.Starting? || e.pc.InWait? || (e.pc.Draining? && e.addQueue != []) ==> EnvEnabled(e, Fail)
    ensures e.pc.Starting? || e.pc.Draining? ==> EnvEnabled(e, Go)
    ensures e.pc.InWait? && ValidBatch(e, batch) ==> EnvEnabled(e, Events(batch))
  {
  }

  /** Whatever a poll can see ends it. */
  lemma PollsEnd(s: State)
    requires s.welcome.Polling?
    ensures Enabled(s, Woken(true)) && Enabled(s, Stops)
    ensures s.closeEvent > 0 <==> Enabled(s, Woken(false))
  {
  }

  /** Outside of its poll the welcome thread always has a step, unless it waits for an environment thread. */
  lemma WelcomeCanMove(s: State) returns (step: Step)
    requires MapOk(s) && !s.welcome.Polling? && !s.welcome.Finished?
    ensures || (Enabled(s, step) && !step.EnvMoves?)
            || (s.welcome.InsertRecv? && Blocks(s, s.welcome.gen, AddListener))
            || (s.welcome.DropJoin? && Blocks(s, s.welcome.gen, DropRequested))
  {
    if s.welcome.Accepting? {
      return Requested("");
    } else if s.welcome.Teardown? && s.live != map[] {
      assert s.live.Keys != {};
      var name :| name in s.live;
      return Drops(name);
    }
    return Proceeds;
  }

  ghost predicate Moves(s: State, steps: seq<Step>)
    decreases |steps|
  {
    steps == [] || (Enabled(s, steps[0]) && Moves(Next(s, steps[0]), steps[1..]))
  }

  /** The welcome thread stays blocked on `g` up to, but possibly not after, the last of these steps. */
  ghost predicate BlockedThroughout(s: State, steps: seq<Step>, g: nat, awaited: Ready)
    requires Moves(s, steps)
    decreases |steps|
  {
    steps == [] || (Blocks(s, g, awaited) && BlockedThroughout(Next(s, steps[0]), steps[1..], g, awaited))
  }

  ghost function MovesOf(steps: seq<Step>, g: nat): nat {
    if steps == [] then 0
    else (if steps[0].EnvMoves? && steps[0].gen == g then 1 else 0) + MovesOf(steps[1..], g)
  }

  /** One step, whoever makes it, uses up rank if it is the awaited thread's, and none otherwise. */
  lemma StepUsesRank(s: State, step: Step, g: nat, awaited: Ready)
    requires Inv(s) && Enabled(s, step) && Blocks(s, g, awaited)
    ensures Inv(Next(s, step)) && g < |Next(s, step).envs|
    ensures var rank, rank' := Rank(s.envs[g], awaited), Rank(Next(s, step).envs[g], awaited);
      if step.EnvMoves? && step.gen == g then rank > 0 && (Blocks(Next(s, step), g, awaited) ==> rank' < rank)
      else rank' == rank
  {
    StepKeepsInv(s, step);
    if step.EnvMoves? && step.gen == g {
      BlockedAdvances(s, g, awaited, step.choice);
    }
  }

  /**
   * Deadlock freedom, with a bound: while the welcome thread is blocked in `insert_socket` or in the
   * join of a dropped environment, the thread it waits for always has a step, and after at most Rank
   * steps of it, in whatever interleaving, the wait is over.
   */
  lemma {:induction false} WaitsAreBounded(s: State, steps: seq<Step>, g: nat, awaited: Ready)
    requires Inv(s) && Moves(s, steps) && BlockedThroughout(s, steps, g, awaited) && g < |s.envs|
    ensures MovesOf(steps, g) <= Rank(s.envs[g], awaited)
    decreases |steps|
  {
    if steps != [] {
      StepUsesRank(s, steps[0], g, awaited);
      WaitsAreBounded(Next(s, steps[0]), steps[1..], g, awaited);
    }
  }

  // ----- a failed creation -----

  /**
   * An environment is dropped for a failed creation only if the socket it was created for was not
   * registered, so the client the welcome thread still holds is none of this environment's.
   */
  lemma FailedCreationHasNoClient(s: State)
    requires Inv(s) && Enabled(s, Proceeds) && Inserting(s.welcome)
    requires Proceed(s).welcome.DropWrite?
    ensures s.welcome.isNew && Proceed(s).welcome == DropWrite(s.welcome.gen, BackToPoll)
    ensures s.welcome.socket !in Proceed(s).envs[s.welcome.gen].registered
  {
    RequestsDoNotMix(s, s.welcome.gen);
    NoAnswerNoSocket(s.envs[s.welcome.gen], RoleOf(s, s.welcome.gen), s.welcome.socket);
  }

  /** A thread that has ended without an answer has not registered the socket. */
  lemma NoAnswerNoSocket(e: Env, role: Role, socket: nat)
    requires RoleOk(e, role) && (role == SendTo(socket) || role == RecvFrom(socket))
    ensures e.responses == [] && e.pc.Ended? ==> socket !in e.registered
  {
  }

  lemma Extend(run: seq<State>, step: Step) returns (longer: seq<State>)
    requires IsRun(run) && Enabled(Last(run), step)
    ensures IsRun(longer) && Last(longer) == Next(Last(run), step)
  {
    longer := run + [Next(Last(run), step)];
    assert Successor(Last(run), Last(longer));
    ChainExtends(run, Last(longer), Successor);
  }

  /** The first environment is asked for, and its first socket is handed over. */
  lemma CreationStarts() returns (run: seq<State>)
    ensures IsRun(run)
    ensures var s := Last(run);
      && s.welcome == InsertWrite(0, 0, true) && s.live == map[] && s.receiverAlive && s.removals == []
      && s.nextSocket == 1 && s.closeEvent == 0 && s.closeQueue == [] && s.outcomes == []
      && |s.envs| == 1 && s.envs[0] == NewEnv("a").(addQueue := [0])
  {
    run := [INIT];
    run := Extend(run, Woken(true));
    run := Extend(run, Requested("a"));
    run := Extend(run, Proceeds);
    run := Extend(run, Proceeds);
    assert [] + [0] == [0];
  }

  /** Its thread fails to start and announces its closing. */
  lemma CreationFails() returns (run: seq<State>)
    ensures IsRun(run)
    ensures var s := Last(run);
      && s.welcome == InsertRecv(0, 0, true) && s.live == map[] && s.receiverAlive && s.removals == []
      && s.nextSocket == 1
      && |s.envs| == 1 && s.envs[0].name == "a" && s.envs[0].pc == Ended(Failed) && s.envs[0].responses == []
      && s.closeEvent == 1 && s.closeQueue == [Message("a", 0)]
  {
    run := CreationStarts();
    run := Extend(run, Proceeds);
    run := Extend(run, EnvMoves(0, Fail));
    run := Extend(run, EnvMoves(0, Go));
    run := Extend(run, EnvMoves(0, Go));
    run := Extend(run, EnvMoves(0, Go));
  }

  /** The failed environment is dropped and joined, and the welcome thread polls again. */
  lemma FailedCreationIsDropped() returns (run: seq<State>)
    ensures IsRun(run)
    ensures var s := Last(run);
      && s.welcome.Polling? && s.live == map[] && s.removals == [] && s.nextSocket == 1
      && |s.envs| == 1 && s.envs[0].name == "a" && s.envs[0].pc.Ended?
      && s.closeEvent == 1 && s.closeQueue == [Message("a", 0)]
  {
    run := CreationFails();
    run := Extend(run, Proceeds);
    run := Extend(run, Proceeds);
    run := Extend(run, Proceeds);
    run := Extend(run, Proceeds);
  }

  /**
   * Names of generations the welcome thread no longer holds do reach its drain: a name left behind
   * by a failed creation removes nothing, and the next environment of that name starts after it.
   */
  lemma OrphanIsDrainedBeforeRecreation() returns (run: seq<State>)
    ensures IsRun(run)
    ensures Last(run).removals == [Removal(0, None)]
    ensures Last(run).welcome == InsertSend(1, 1, true)
    ensures |Last(run).envs| == 2 && Last(run).envs[0].name == Last(run).envs[1].name == "a"
  {
    run := FailedCreationIsDropped();
    run := Extend(run, Woken(true));
    run := Extend(run, Proceeds);
    run := Extend(run, Proceeds);
    run := Extend(run, Proceeds);
    run := Extend(run, Requested("a"));
    run := Extend(run, Proceeds);
  }

  // ----- a client that hangs up at once -----

  /** Only the first environment exists, it is as given, and its creation has not returned. */
  ghost predicate OnlyFirst(s: State, e: Env) {
    && s.welcome == InsertRecv(0, 0, true) && s.live == map[] && s.receiverAlive && s.removals == [] && s.outcomes == []
    && |s.envs| == 1 && s.envs[0] == e
  }

  lemma FirstSocketIsSignalled() returns (run: seq<State>)
    ensures IsRun(run) && Last(run).closeQueue == []
    ensures OnlyFirst(Last(run), NewEnv("a").(pc := Handling([AddListener]), addEvent := 1, addQueue := [0]))
  {
    run := CreationStarts();
    run := Extend(run, Proceeds);
    run := Extend(run, EnvMoves(0, Go));
    run := Extend(run, EnvMoves(0, Go));
    run := Extend(run, EnvMoves(0, Events([AddListener])));
  }

  lemma FirstSocketIsTaken() returns (run: seq<State>)
    ensures IsRun(run) && Last(run).closeQueue == []
    ensures OnlyFirst(Last(run), NewEnv("a").(pc := Draining([]), sockets := {0}, registered := {0}))
  {
    run := FirstSocketIsSignalled();
    run := Extend(run, EnvMoves(0, Go));
    run := Extend(run, EnvMoves(0, Go));
    run := Extend(run, EnvMoves(0, Go));
  }

  /** The answer is sent, but the welcome thread has not received it yet. */
  lemma FirstSocketIsAnswered() returns (run: seq<State>)
    ensures IsRun(run) && Last(run).closeQueue == []
    ensures OnlyFirst(Last(run), NewEnv("a").(pc := LoopHead, responses := [true], sockets := {0}, registered := {0}))
  {
    run := FirstSocketIsTaken();
    run := Extend(run, EnvMoves(0, Go));
    run := Extend(run, EnvMoves(0, Go));
    run := Extend(run, EnvMoves(0, Go));
  }

  /**
   * No creation has failed, and yet a name is queued that is not in the map: the client has hung up
   * before `insert_socket` returned.
   */
  lemma HangUpOvertakesCreation() returns (run: seq<State>)
    ensures IsRun(run)
    ensures var s := Last(run);
      && s.closeQueue == [Message("a", 0)] && s.live == map[] && s.outcomes == []
      && |s.envs| == 1 && s.envs[0].responses == [true] && s.envs[0].registered == {0}
  {
    run := FirstSocketIsAnswered();
    run := Extend(run, EnvMoves(0, Go));
    run := Extend(run, EnvMoves(0, Events([Client(0, true)])));
    run := Extend(run, EnvMoves(0, Go));
    run := Extend(run, EnvMoves(0, Go));
  }
}
