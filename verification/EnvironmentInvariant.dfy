/** The invariant of the environment protocol and its preservation by every step. */
module EnvironmentInvariant {
  import opened Outcomes
  import opened EnvironmentProtocol

  // ----- one environment on its own -----

  function Rest(pc: EnvPc): seq<Ready> {
    match pc
    case Handling(rest) => rest
    case Reading(rest) => rest
    case Draining(rest) => rest
    case Responding(_, rest) => rest
    case _ => []
  }

  /** Still before the announcement or the departure that ends its loop. */
  predicate InLoop(pc: EnvPc) {
    !(pc.Sending? || pc.Writing? || pc.Leaving? || pc.Ended? || pc.Panicked?)
  }

  /** In the part of `add_listener` that has already consumed the event. */
  predicate Answering(pc: EnvPc) {
    pc.Draining? || pc.Responding?
  }

  /** An announcement is made once, by an environment that has not read its owner's drop event. */
  ghost predicate AnnouncedOnce(e: Env) {
    && !e.pc.Panicked?
    && e.announced == (if e.pc.Writing? || ((e.pc.Leaving? || e.pc.Ended?) && !e.pc.why.DroppedByOwner?) then 1 else 0)
    && ((e.pc.Sending? || e.pc.Writing?) ==> !e.pc.why.DroppedByOwner?)
    && ((e.pc.Leaving? || e.pc.Ended?) && e.pc.why.DroppedByOwner? ==> e.dropEvent == 0)
  }

  /** A running environment that ever had a client has one. */
  ghost predicate SocketsOk(e: Env) {
    && e.sockets == e.registered - e.gone && e.gone <= e.registered
    && (InLoop(e.pc) && e.registered != {} ==> e.sockets != {})
    && (e.pc.Starting? ==> e.registered == {})
    && (!InLoop(e.pc) && !e.pc.Panicked? && e.pc.why.LastSocketLeft? ==> e.sockets == {} && e.registered != {})
  }

  ghost predicate AtMostOnce(batch: seq<Ready>) {
    forall i, j :: 0 <= i < j < |batch| && batch[i] == batch[j] ==> batch[i].Client?
  }

  ghost predicate ClientsKnown(e: Env, batch: seq<Ready>) {
    forall i :: 0 <= i < |batch| && batch[i].Client? ==> batch[i].socket in e.registered
  }

  /** What is left of a batch is still true: special events pending, clients known. */
  ghost predicate BatchOk(e: Env) {
    && (AddListener in Rest(e.pc) ==> e.pc.Handling? && e.addEvent > 0)
    && (e.pc.Reading? ==> e.addEvent > 0)
    && (DropRequested in Rest(e.pc) ==> e.dropEvent > 0)
    && ClientsKnown(e, Rest(e.pc))
    && AtMostOnce(Rest(e.pc))
  }

  /** At most one wait begins after the owner's drop request, and it reports the request. */
  ghost predicate WaitsOk(e: Env) {
    && e.lateWaits <= 1
    && (e.lateWaits == 1 ==> DropRequested in Rest(e.pc) || !InLoop(e.pc) || (e.pc.InWait? && e.dropEvent > 0))
  }

  ghost predicate EnvLocal(e: Env) {
    AnnouncedOnce(e) && SocketsOk(e) && BatchOk(e) && WaitsOk(e)
  }

  // ----- what the welcome thread is doing with it -----

  datatype Role =
    | Unowned                      // no longer reachable by the welcome thread
    | Resident                     // in the map, and not being talked to
    | SendTo(socket: nat)          // in insert_socket, before its three operations
    | WriteTo(socket: nat)
    | RecvFrom(socket: nat)
    | ToBeDropped
    | Dropping(ownerEnds: bool)    // drop event written

  ghost predicate Mapped(s: State, g: nat)
    requires g < |s.envs|
  {
    s.envs[g].name in s.live && s.live[s.envs[g].name] == g
  }

  ghost function RoleOf(s: State, g: nat): Role
    requires g < |s.envs|
  {
    match s.welcome
    case InsertSend(h, socket, _) => if h == g then SendTo(socket) else MapRole(s, g)
    case InsertWrite(h, socket, _) => if h == g then WriteTo(socket) else MapRole(s, g)
    case InsertRecv(h, socket, _) => if h == g then RecvFrom(socket) else MapRole(s, g)
    case DropWrite(h, _) => if h == g then ToBeDropped else MapRole(s, g)
    case DropEnds(h, _) => if h == g then Dropping(true) else MapRole(s, g)
    case DropJoin(h, _) => if h == g then Dropping(false) else MapRole(s, g)
    case _ => MapRole(s, g)
  }

  ghost function MapRole(s: State, g: nat): Role
    requires g < |s.envs|
  {
    if Mapped(s, g) then Resident else Unowned
  }

  /** No request is under way: nothing handed over, nothing signalled, nothing answered. */
  ghost predicate Idle(e: Env) {
    && e.addQueue == [] && e.responses == []
    && (e.pc.Ended? || (e.addEvent == 0 && !Answering(e.pc)))
  }

  /** The socket is handed over but the event is not written yet. */
  ghost predicate HandedOver(e: Env, socket: nat) {
    && e.responses == [] && socket !in e.registered
    && (if e.pc.Ended? then e.addQueue == [] else e.addQueue == [socket] && e.addEvent == 0 && !Answering(e.pc))
  }

  /** Between the event write and the return of `recv`: the four stages of one request. */
  ghost predicate UnderWay(e: Env, socket: nat) {
    || (e.responses == [] && socket !in e.registered
        && if e.pc.Ended? then e.addQueue == [] else e.addQueue == [socket] && e.addEvent == 1 && !Answering(e.pc))
    || (e.pc.Draining? && e.addEvent == 0 && e.responses == []
        && ((e.addQueue == [socket] && socket !in e.registered) || (e.addQueue == [] && socket in e.registered)))
    || (e.pc.Responding? && e.addEvent == 0 && e.responses == [] && e.addQueue == []
        && (e.pc.ok <==> socket in e.registered))
    || (|e.responses| == 1 && e.addQueue == [] && (e.responses[0] <==> socket in e.registered)
        && (e.pc.Ended? || (e.addEvent == 0 && !Answering(e.pc))))
  }

  /** Its owner has neither asked it to go nor given up the channels. */
  ghost predicate Undisturbed(e: Env) {
    && e.ownerEnds && e.dropEvent == 0 && e.lateWaits == 0
    && (!InLoop(e.pc) && !e.pc.Panicked? ==> !e.pc.why.DroppedByOwner?)
  }

  ghost predicate RoleOk(e: Env, role: Role) {
    match role
    case Unowned => e.pc.Ended? && Idle(e)
    case Resident => Idle(e) && Undisturbed(e)
    case SendTo(socket) => Idle(e) && Undisturbed(e) && socket !in e.registered
    case WriteTo(socket) => HandedOver(e, socket) && Undisturbed(e)
    case RecvFrom(socket) => UnderWay(e, socket) && Undisturbed(e)
    case ToBeDropped => Idle(e) && Undisturbed(e)
    case Dropping(ends) =>
      && Idle(e) && e.ownerEnds == ends
      && (e.dropEvent == 1 || ((e.pc.Leaving? || e.pc.Ended?) && e.pc.why.DroppedByOwner?))
  }

  // ----- the welcome thread's own state -----

  ghost predicate MapOk(s: State) {
    && (forall n :: n in s.live ==> s.live[n] < |s.envs| && s.envs[s.live[n]].name == n)
    && (match s.welcome
        case InsertSend(g, socket, isNew) => TargetOk(s, g, socket, isNew)
        case InsertWrite(g, socket, isNew) => TargetOk(s, g, socket, isNew)
        case InsertRecv(g, socket, isNew) => TargetOk(s, g, socket, isNew)
        case DropWrite(g, next) => DropOk(s, g, next)
        case DropEnds(g, next) => DropOk(s, g, next)
        case DropJoin(g, next) => DropOk(s, g, next)
        case Teardown => !s.receiverAlive
        case Finished => !s.receiverAlive && s.live == map[]
        case ReadingClose(_) => s.closeEvent > 0 && s.receiverAlive
        case _ => s.receiverAlive)
  }

  ghost predicate TargetOk(s: State, g: nat, socket: nat, isNew: bool) {
    && s.receiverAlive && g < |s.envs| && socket + 1 == s.nextSocket
    && (if isNew then s.envs[g].name !in s.live else Mapped(s, g))
  }

  ghost predicate DropOk(s: State, g: nat, next: Then) {
    && g < |s.envs| && s.envs[g].name !in s.live
    && s.receiverAlive == !next.BackToTeardown?
  }

  // ----- the close channel -----

  predicate InDrain(w: WelcomePc) {
    || w.DrainingClose?
    || (w.DropWrite? && w.next.BackToDrain?)
    || (w.DropEnds? && w.next.BackToDrain?)
    || (w.DropJoin? && w.next.BackToDrain?)
  }

  /** The welcome thread's states in which a name of a generation it no longer holds may be queued. */
  predicate MayHoldOrphans(w: WelcomePc) {
    w.Polling? || w.ReadingClose? || InDrain(w)
  }

  /** The generation the welcome thread holds outside its map and has heard nothing of yet. */
  ghost predicate Held(w: WelcomePc, g: nat) {
    || (w.InsertSend? && w.gen == g) || (w.InsertWrite? && w.gen == g) || (w.InsertRecv? && w.gen == g)
    || (w.DropWrite? && w.gen == g && w.next.BackToPoll?)
    || (w.DropEnds? && w.gen == g && w.next.BackToPoll?)
    || (w.DropJoin? && w.gen == g && w.next.BackToPoll?)
  }

  ghost predicate MessageOk(s: State, m: Message) {
    && m.sender < |s.envs|
    && m.name == s.envs[m.sender].name
    && s.envs[m.sender].announced == 1
    // it can only ever hit the generation that sent it
    && (m.name in s.live ==> s.live[m.name] == m.sender)
    // its sender is still known, or the queue is drained before anything else happens
    && (Mapped(s, m.sender) || Held(s.welcome, m.sender) || MayHoldOrphans(s.welcome))
    // and its event is on, or about to be, or its drain is under way
    && (s.closeEvent > 0 || s.envs[m.sender].pc.Writing? || InDrain(s.welcome))
  }

  ghost predicate Queued(s: State, g: nat) {
    exists i :: 0 <= i < |s.closeQueue| && s.closeQueue[i].sender == g
  }

  ghost predicate CloseOk(s: State) {
    && (!s.receiverAlive ==> s.closeQueue == [])
    && (forall i :: 0 <= i < |s.closeQueue| ==> MessageOk(s, s.closeQueue[i]))
    && (forall i, j :: 0 <= i < j < |s.closeQueue| ==> s.closeQueue[i].sender != s.closeQueue[j].sender)
    // no environment of the map ends without its name being queued
    && (s.receiverAlive ==>
          forall g :: 0 <= g < |s.envs| && s.envs[g].announced == 1 && (Mapped(s, g) || Held(s.welcome, g)) ==> Queued(s, g))
  }

  // ----- the histories -----

  predicate Inserting(w: WelcomePc) {
    w.InsertSend? || w.InsertWrite? || w.InsertRecv?
  }

  ghost predicate RemovalOk(s: State, r: Removal) {
    && r.sender < |s.envs| && s.envs[r.sender].announced == 1
    && (r.removed == None || r.removed == Some(r.sender))
  }

  ghost predicate OutcomeOk(s: State, o: Outcome) {
    && o.gen < |s.envs|
    && o.socket + (if Inserting(s.welcome) then 1 else 0) < s.nextSocket
    && (o.ok <==> o.socket in s.envs[o.gen].registered)
  }

  ghost predicate LogsOk(s: State) {
    && (forall i :: 0 <= i < |s.removals| ==> RemovalOk(s, s.removals[i]))
    && (forall i :: 0 <= i < |s.outcomes| ==> OutcomeOk(s, s.outcomes[i]))
    && (forall g, x :: 0 <= g < |s.envs| && x in s.envs[g].registered ==> x < s.nextSocket)
  }

  ghost predicate EnvsOk(s: State) {
    forall g :: 0 <= g < |s.envs| ==> EnvLocal(s.envs[g]) && RoleOk(s.envs[g], RoleOf(s, g))
  }

  ghost predicate Inv(s: State) {
    MapOk(s) && EnvsOk(s) && CloseOk(s) && LogsOk(s)
  }

  // ----- steps of an environment thread -----

  lemma TailOfBatch(e: Env, batch: seq<Ready>)
    requires batch != [] && AtMostOnce(batch) && ClientsKnown(e, batch)
    ensures AtMostOnce(batch[1..]) && ClientsKnown(e, batch[1..])
    ensures !batch[0].Client? ==> batch[0] !in batch[1..]
    ensures forall r :: r in batch <==> r == batch[0] || r in batch[1..]
  {
    assert batch == [batch[0]] + batch[1..];
  }

  lemma EnvStepAnnounces(e: Env, c: EnvChoice, role: Role)
    requires AnnouncedOnce(e) && RoleOk(e, role) && EnvEnabled(e, c)
    ensures AnnouncedOnce(EnvStep(e, c))
  {
  }

  lemma HangUpKeepsSockets(e: Env)
    requires SocketsOk(e) && BatchOk(e) && e.pc.Handling? && e.pc.rest != [] && e.pc.rest[0].Client?
    ensures SocketsOk(EnvStep(e, Go))
  {
    var s := e.pc.rest[0].socket;
    assert (e.registered - e.gone) - {s} == e.registered - (e.gone + {s});
  }

  lemma TakingKeepsSockets(e: Env, c: EnvChoice)
    requires SocketsOk(e) && e.pc.Draining? && e.addQueue != [] && EnvEnabled(e, c)
    requires e.addQueue[0] !in e.registered
    ensures SocketsOk(EnvStep(e, c))
  {
    var s := e.addQueue[0];
    assert (e.registered - e.gone) + {s} == (e.registered + {s}) - e.gone;
  }

  /** It handles no client and takes no socket in. */
  predicate LeavesSockets(e: Env) {
    && (e.pc.Handling? && e.pc.rest != [] ==> !e.pc.rest[0].Client?)
    && (e.pc.Draining? ==> e.addQueue == [])
  }

  lemma OtherStepKeepsSets(e: Env, c: EnvChoice)
    requires EnvEnabled(e, c) && LeavesSockets(e)
    ensures var e' := EnvStep(e, c); e'.sockets == e.sockets && e'.registered == e.registered && e'.gone == e.gone
    ensures InLoop(EnvStep(e, c).pc) ==> InLoop(e.pc)
    ensures !EnvStep(e, c).pc.Starting?
  {
  }

  lemma OtherStepHasCause(e: Env, c: EnvChoice)
    requires EnvEnabled(e, c) && LeavesSockets(e) && !EnvStep(e, c).pc.Panicked? && !InLoop(EnvStep(e, c).pc)
    ensures EnvStep(e, c).pc.why.LastSocketLeft? ==> !InLoop(e.pc) && !e.pc.Panicked? && e.pc.why.LastSocketLeft?
  {
  }

  lemma OtherKeepsSockets(e: Env, c: EnvChoice)
    requires SocketsOk(e) && EnvEnabled(e, c) && LeavesSockets(e)
    ensures SocketsOk(EnvStep(e, c))
  {
    OtherStepKeepsSets(e, c);
    if !EnvStep(e, c).pc.Panicked? && !InLoop(EnvStep(e, c).pc) {
      OtherStepHasCause(e, c);
    }
  }

  lemma EnvStepSockets(e: Env, c: EnvChoice)
    requires SocketsOk(e) && BatchOk(e) && EnvEnabled(e, c)
    requires e.pc.Draining? && e.addQueue != [] ==> e.addQueue[0] !in e.registered
    ensures SocketsOk(EnvStep(e, c))
  {
    if e.pc.Handling? && e.pc.rest != [] && e.pc.rest[0].Client? {
      HangUpKeepsSockets(e);
    } else if e.pc.Draining? && e.addQueue != [] {
      TakingKeepsSockets(e, c);
    } else {
      OtherKeepsSockets(e, c);
    }
  }

  lemma EnvStepBatch(e: Env, c: EnvChoice)
    requires BatchOk(e) && EnvEnabled(e, c)
    ensures BatchOk(EnvStep(e, c))
  {
    if Rest(e.pc) != [] {
      TailOfBatch(e, Rest(e.pc));
    }
  }

  lemma EnvStepWaits(e: Env, c: EnvChoice)
    requires WaitsOk(e) && BatchOk(e) && EnvEnabled(e, c)
    ensures WaitsOk(EnvStep(e, c))
  {
    if Rest(e.pc) != [] {
      TailOfBatch(e, Rest(e.pc));
    }
  }

  lemma EnvStepLocal(e: Env, c: EnvChoice, role: Role)
    requires EnvLocal(e) && RoleOk(e, role) && EnvEnabled(e, c)
    ensures EnvLocal(EnvStep(e, c))
  {
    EnvStepAnnounces(e, c, role);
    EnvStepSockets(e, c);
    EnvStepBatch(e, c);
    EnvStepWaits(e, c);
  }

  lemma IdleStays(e: Env, c: EnvChoice)
    requires AnnouncedOnce(e) && BatchOk(e) && Idle(e) && EnvEnabled(e, c)
    ensures Idle(EnvStep(e, c))
  {
  }

  lemma UndisturbedStays(e: Env, c: EnvChoice)
    requires AnnouncedOnce(e) && BatchOk(e) && Undisturbed(e) && EnvEnabled(e, c)
    ensures Undisturbed(EnvStep(e, c))
  {
  }

  lemma HandedOverStays(e: Env, c: EnvChoice, socket: nat)
    requires AnnouncedOnce(e) && BatchOk(e) && HandedOver(e, socket) && EnvEnabled(e, c)
    ensures HandedOver(EnvStep(e, c), socket)
  {
  }

  lemma UnderWayStays(e: Env, c: EnvChoice, socket: nat)
    requires AnnouncedOnce(e) && BatchOk(e) && UnderWay(e, socket) && Undisturbed(e) && EnvEnabled(e, c)
    ensures UnderWay(EnvStep(e, c), socket)
  {
  }

  lemma DroppingStays(e: Env, c: EnvChoice, ends: bool)
    requires EnvLocal(e) && RoleOk(e, Dropping(ends)) && EnvEnabled(e, c)
    ensures RoleOk(EnvStep(e, c), Dropping(ends))
  {
    IdleStays(e, c);
  }

  lemma EnvStepRole(e: Env, c: EnvChoice, role: Role)
    requires EnvLocal(e) && RoleOk(e, role) && EnvEnabled(e, c)
    ensures RoleOk(EnvStep(e, c), role)
  {
    match role
    case Unowned =>
    case WriteTo(socket) =>
      HandedOverStays(e, c, socket);
      UndisturbedStays(e, c);
    case RecvFrom(socket) =>
      UnderWayStays(e, c, socket);
      UndisturbedStays(e, c);
    case Dropping(ends) => DroppingStays(e, c, ends);
    case _ =>
      IdleStays(e, c);
      UndisturbedStays(e, c);
      EnvStepHistory(e, c);
  }

  // An environment thread's step leaves every role as it was.

  /** The welcome thread is where it was and sees the same names. */
  ghost predicate SameView(s: State, s': State) {
    && |s'.envs| == |s.envs|
    && (forall g :: 0 <= g < |s.envs| ==> s'.envs[g].name == s.envs[g].name)
    && s'.live == s.live && s'.welcome == s.welcome && s'.receiverAlive == s.receiverAlive
    && s'.nextSocket == s.nextSocket && s.closeEvent <= s'.closeEvent
  }

  lemma SameViewKeepsMap(s: State, s': State)
    requires MapOk(s) && SameView(s, s')
    ensures MapOk(s')
    ensures forall g :: 0 <= g < |s.envs| ==> RoleOf(s', g) == RoleOf(s, g) && (Mapped(s', g) <==> Mapped(s, g))
  {
  }

  lemma EnvStepKeepsName(e: Env, c: EnvChoice)
    requires EnvEnabled(e, c)
    ensures EnvStep(e, c).name == e.name
  {
  }

  lemma EnvMoveKeepsMap(s: State, g: nat, c: EnvChoice)
    requires MapOk(s) && g < |s.envs| && EnvEnabled(s.envs[g], c)
    ensures MapOk(EnvMove(s, g, c)) && SameView(s, EnvMove(s, g, c))
    ensures forall h :: 0 <= h < |s.envs| ==>
              RoleOf(EnvMove(s, g, c), h) == RoleOf(s, h) && (Mapped(EnvMove(s, g, c), h) <==> Mapped(s, h))
  {
    EnvStepKeepsName(s.envs[g], c);
    SameViewKeepsMap(s, EnvMove(s, g, c));
  }

  lemma EnvMoveKeepsEnvs(s: State, g: nat, c: EnvChoice)
    requires MapOk(s) && EnvsOk(s) && g < |s.envs| && EnvEnabled(s.envs[g], c)
    ensures EnvsOk(EnvMove(s, g, c))
  {
    EnvMoveKeepsMap(s, g, c);
    EnvStepLocal(s.envs[g], c, RoleOf(s, g));
    EnvStepRole(s.envs[g], c, RoleOf(s, g));
    var s' := EnvMove(s, g, c);
    forall h | 0 <= h < |s'.envs| ensures EnvLocal(s'.envs[h]) && RoleOk(s'.envs[h], RoleOf(s', h)) {
      assert EnvLocal(s.envs[h]) && RoleOk(s.envs[h], RoleOf(s, h));
    }
  }

  /** Only the environment being talked to has a socket handed over, and it is the newest socket. */
  lemma OnlyTheActiveSocket(s: State, g: nat)
    requires MapOk(s) && EnvsOk(s) && g < |s.envs| && s.envs[g].addQueue != []
    ensures Inserting(s.welcome) && s.welcome.gen == g && s.envs[g].addQueue[0] + 1 == s.nextSocket
  {
    assert RoleOk(s.envs[g], RoleOf(s, g));
  }

  /** A step registers at most the socket just handed over, and never takes an announcement back. */
  lemma EnvStepHistory(e: Env, c: EnvChoice)
    requires AnnouncedOnce(e) && EnvEnabled(e, c)
    ensures e.announced == 1 ==> EnvStep(e, c).announced == 1
    ensures EnvStep(e, c).registered ==
              e.registered + (if e.pc.Draining? && e.addQueue != [] && c.Go? then {e.addQueue[0]} else {})
  {
  }

  lemma RegisteredIsNewest(s: State, g: nat, c: EnvChoice)
    requires MapOk(s) && EnvsOk(s) && g < |s.envs| && EnvEnabled(s.envs[g], c)
    ensures forall x :: x in EnvStep(s.envs[g], c).registered && x !in s.envs[g].registered ==>
              Inserting(s.welcome) && x + 1 == s.nextSocket
    ensures s.envs[g].registered <= EnvStep(s.envs[g], c).registered
    ensures s.envs[g].announced == 1 ==> EnvStep(s.envs[g], c).announced == 1
  {
    assert EnvLocal(s.envs[g]);
    EnvStepHistory(s.envs[g], c);
    if s.envs[g].addQueue != [] {
      OnlyTheActiveSocket(s, g);
    }
  }

  lemma EnvMoveKeepsLogs(s: State, g: nat, c: EnvChoice)
    requires MapOk(s) && EnvsOk(s) && LogsOk(s) && g < |s.envs| && EnvEnabled(s.envs[g], c)
    ensures LogsOk(EnvMove(s, g, c))
  {
    var s' := EnvMove(s, g, c);
    RegisteredIsNewest(s, g, c);
    forall i | 0 <= i < |s'.removals| ensures RemovalOk(s', s'.removals[i]) {
      assert RemovalOk(s, s.removals[i]);
    }
    forall i | 0 <= i < |s'.outcomes| ensures OutcomeOk(s', s'.outcomes[i]) {
      assert OutcomeOk(s, s.outcomes[i]);
    }
  }

  /** The thread's step as the close channel sees it. */
  lemma EnvStepAnnouncement(e: Env, c: EnvChoice)
    requires AnnouncedOnce(e) && EnvEnabled(e, c)
    ensures EnvStep(e, c).announced == if e.pc.Sending? then 1 else e.announced
    ensures e.pc.Sending? ==> e.announced == 0 && EnvStep(e, c).pc.Writing?
    ensures !e.pc.Sending? ==> !EnvStep(e, c).pc.Writing?
    ensures e.pc.Writing? ==> e.announced == 1
  {
  }

  lemma MessagesKept(s: State, g: nat, c: EnvChoice, i: nat)
    requires MapOk(s) && EnvsOk(s) && CloseOk(s) && g < |s.envs| && EnvEnabled(s.envs[g], c) && i < |s.closeQueue|
    ensures MessageOk(EnvMove(s, g, c), s.closeQueue[i])
  {
    assert EnvLocal(s.envs[g]) && MessageOk(s, s.closeQueue[i]);
    EnvMoveKeepsMap(s, g, c);
    EnvStepAnnouncement(s.envs[g], c);
  }

  lemma MessageSent(s: State, g: nat, c: EnvChoice)
    requires MapOk(s) && EnvsOk(s) && g < |s.envs| && EnvEnabled(s.envs[g], c)
    requires s.envs[g].pc.Sending? && s.receiverAlive
    ensures MessageOk(EnvMove(s, g, c), Message(s.envs[g].name, g))
  {
    assert EnvLocal(s.envs[g]) && RoleOk(s.envs[g], RoleOf(s, g));
    EnvMoveKeepsMap(s, g, c);
    EnvStepAnnouncement(s.envs[g], c);
  }

  lemma EnvMoveKeepsQueued(s: State, g: nat, c: EnvChoice)
    requires MapOk(s) && EnvsOk(s) && CloseOk(s) && g < |s.envs| && EnvEnabled(s.envs[g], c) && s.receiverAlive
    ensures var s' := EnvMove(s, g, c);
      forall h :: 0 <= h < |s'.envs| && s'.envs[h].announced == 1 && (Mapped(s', h) || Held(s'.welcome, h)) ==> Queued(s', h)
  {
    var e, s' := s.envs[g], EnvMove(s, g, c);
    assert EnvLocal(e);
    EnvMoveKeepsMap(s, g, c);
    EnvStepAnnouncement(e, c);
    forall h | 0 <= h < |s'.envs| && s'.envs[h].announced == 1 && (Mapped(s', h) || Held(s'.welcome, h))
      ensures Queued(s', h)
    {
      if h == g && e.pc.Sending? {
        assert s'.closeQueue[|s.closeQueue|].sender == h;
      } else {
        assert Queued(s, h);
        var i :| 0 <= i < |s.closeQueue| && s.closeQueue[i].sender == h;
        assert s'.closeQueue[i].sender == h;
      }
    }
  }

  lemma EnvMoveKeepsClose(s: State, g: nat, c: EnvChoice)
    requires MapOk(s) && EnvsOk(s) && CloseOk(s) && g < |s.envs| && EnvEnabled(s.envs[g], c)
    ensures CloseOk(EnvMove(s, g, c))
  {
    var e, s' := s.envs[g], EnvMove(s, g, c);
    assert EnvLocal(e);
    EnvMoveKeepsMap(s, g, c);
    EnvStepAnnouncement(e, c);
    forall i | 0 <= i < |s'.closeQueue| ensures MessageOk(s', s'.closeQueue[i]) {
      if i < |s.closeQueue| {
        MessagesKept(s, g, c, i);
      } else {
        MessageSent(s, g, c);
      }
    }
    forall i | 0 <= i < |s.closeQueue| ensures e.pc.Sending? ==> s.closeQueue[i].sender != g {
      assert MessageOk(s, s.closeQueue[i]);
    }
    if s.receiverAlive {
      EnvMoveKeepsQueued(s, g, c);
    }
  }
}
