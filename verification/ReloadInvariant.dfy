/** What reload control keeps in every step. */
module ReloadInvariant {
  import opened Outcomes
  import opened SignalEvents
  import opened ReloadControl

  // ----- which steps main and the welcome thread can be at together -----

  predicate MainListens(pc: MainPc) {
    pc.Notifying? || pc.Receiving? || (pc.Joining? && !pc.reload)
  }

  predicate OnlyErrors(channel: seq<Message>) {
    forall i :: 0 <= i < |channel| ==> channel[i] == OtherError
  }

  /**
   * A reload request is the last message of a welcome thread that is done; what follows it are errors
   * of environments being dropped.
   */
  ghost predicate ChannelOk(c: Control) {
    && (forall i, j :: 0 <= i < j < |c.channel| && c.channel[i] == ReloadRequest ==> c.channel[j] == OtherError)
    && (ReloadRequest in c.channel ==> c.welcome.Done?)
    && (c.welcome.Absent? ==> OnlyErrors(c.channel))
  }

  ghost predicate PhasesOk(c: Control) {
    Over(c) ||
    (if c.welcome.Absent? then c.main.Beginning? || (c.main.Setup? && !c.main.stage.Outside?) || c.main.Spawning?
     else if c.welcome.Done? then MainListens(c.main) || ((c.main.Breaking? || c.main.Joining?) && OnlyErrors(c.channel))
     else MainListens(c.main))
  }

  lemma MainMovesKeeps(c: Control, next: Stage)
    requires ChannelOk(c) && PhasesOk(c) && MainCanMove(c)
    ensures ChannelOk(MainMoves(c, next)) && PhasesOk(MainMoves(c, next))
  {
  }

  lemma WelcomeMovesKeeps(c: Control, shutdown: bool, reload: bool)
    requires ChannelOk(c) && PhasesOk(c) && Active(c.welcome)
    ensures ChannelOk(WelcomeMoves(c, shutdown, reload)) && PhasesOk(WelcomeMoves(c, shutdown, reload))
  {
  }

  lemma OtherMovesKeep(c: Control, survives: bool)
    requires ChannelOk(c) && PhasesOk(c)
    ensures MainCanFail(c) ==> ChannelOk(MainGivesUp(c)) && PhasesOk(MainGivesUp(c))
    ensures c.main.Breaking? ==> ChannelOk(MainReloads(c, survives)) && PhasesOk(MainReloads(c, survives))
    ensures WelcomeCanFail(c.welcome) ==> ChannelOk(WelcomeGivesUp(c)) && PhasesOk(WelcomeGivesUp(c))
    ensures c.welcome.Serving? ==> ChannelOk(SocketBreaks(c)) && PhasesOk(SocketBreaks(c))
    ensures var c' := c.(channel := c.channel + [OtherError]); ChannelOk(c') && PhasesOk(c')
  {
  }

  // ----- what decides an incarnation -----

  /** The first message of the channel that makes main stop receiving. */
  function Decision(channel: seq<Message>): Option<Message> {
    if channel == [] then None
    else if channel[0].OtherError? then Decision(channel[1..])
    else Some(channel[0])
  }

  lemma {:induction false} DecisionAppend(channel: seq<Message>, m: Message)
    ensures Decision(channel + [m]) ==
            if Decision(channel).Some? then Decision(channel) else if m.OtherError? then None else Some(m)
  {
    if channel != [] {
      assert (channel + [m])[1..] == channel[1..] + [m];
      DecisionAppend(channel[1..], m);
    }
  }

  /** With no reload request in it, the channel can only decide for a shutdown. */
  lemma {:induction false} DecisionIsSent(channel: seq<Message>)
    ensures Decision(channel).Some? ==> Decision(channel).value in channel && !Decision(channel).value.OtherError?
  {
    if channel != [] {
      DecisionIsSent(channel[1..]);
    }
  }

  /** This incarnation is bound to end the process rather than to reload. */
  predicate ShutdownDecided(c: Control) {
    || Decision(c.channel) == Some(ShutdownSignal)
    || (c.main.Joining? && !c.main.reload)
  }

  /** A reload this incarnation is bound to ask for, or has asked for, and main has not handled. */
  predicate ReloadUnderWay(c: Control) {
    || (c.welcome.Polled? && !c.welcome.shutdown && c.welcome.reload)
    || c.welcome.SendingReload?
    || ReloadRequest in c.channel
    || c.main.Breaking?
  }

  lemma MainMovesDecided(c: Control, next: Stage)
    requires ChannelOk(c) && PhasesOk(c) && MainCanMove(c) && !Over(MainMoves(c, next))
    ensures ShutdownDecided(c) ==> ShutdownDecided(MainMoves(c, next))
    ensures ReloadUnderWay(MainMoves(c, next)) ==> ReloadUnderWay(c)
    ensures ReloadUnderWay(c) ==> ReloadUnderWay(MainMoves(c, next)) || ShutdownDecided(MainMoves(c, next))
  {
    DecisionIsSent(c.channel);
    if c.main.Receiving? {
      assert c.channel == [c.channel[0]] + c.channel[1..];
    }
  }

  lemma WelcomeMovesDecided(c: Control, shutdown: bool, reload: bool)
    requires ChannelOk(c) && PhasesOk(c) && Active(c.welcome) && !Over(c)
    ensures var c' := WelcomeMoves(c, shutdown, reload);
      && (ShutdownDecided(c) || c.welcome.SendingShutdown? ==> ShutdownDecided(c') || c'.welcome.SendingShutdown?)
      && (c.welcome.SendingShutdown? ==> ShutdownDecided(c') && c'.welcome.Done?)
      && (ReloadUnderWay(c) ==> ReloadUnderWay(c'))
      && (ReloadUnderWay(c') && !ReloadUnderWay(c) ==> c.welcome.Polling? && !shutdown)
  {
    DecisionAppend(c.channel, ShutdownSignal);
    DecisionAppend(c.channel, ReloadRequest);
    DecisionIsSent(c.channel);
  }

  lemma FailuresDecided(c: Control)
    requires ChannelOk(c) && PhasesOk(c)
    ensures WelcomeCanFail(c.welcome) ==>
              (ShutdownDecided(c) ==> ShutdownDecided(WelcomeGivesUp(c))) && (ReloadUnderWay(c) ==> Over(c))
    ensures c.welcome.Serving? ==> ShutdownDecided(SocketBreaks(c)) && (ReloadUnderWay(c) ==> Over(c))
                                   && (ReloadUnderWay(SocketBreaks(c)) ==> ReloadUnderWay(c))
    ensures var c' := c.(channel := c.channel + [OtherError]);
      (ShutdownDecided(c) ==> ShutdownDecided(c')) && (ReloadUnderWay(c) <==> ReloadUnderWay(c'))
  {
    DecisionAppend(c.channel, OtherError);
    DecisionAppend(c.channel + [OtherError], ShutdownSignal);
    DecisionIsSent(c.channel);
  }

  /** Main is told of each failure first and then what to do about it; a broken socket leaves the thread running. */
  lemma FailuresAreReported(c: Control, shutdown: bool, reload: bool)
    ensures WelcomeCanFail(c.welcome) ==>
              && WelcomeMoves(WelcomeGivesUp(c), shutdown, reload).channel == c.channel + [OtherError, ReloadRequest]
              && WelcomeMoves(WelcomeGivesUp(c), shutdown, reload).welcome.Done?
    ensures SocketBreaks(c).channel == c.channel + [OtherError, ShutdownSignal] && SocketBreaks(c).welcome.Polling?
  {
  }

  // ----- how long an incarnation can take -----

  /** What the welcome threads have yet to do before this incarnation, or the next one, has been decided. */
  function Rank(c: Control): nat {
    if c.main.Joining? && c.main.reload then 6
    else
      match c.welcome
      case Absent => 6
      case CreatingEvent => 6
      case Listening => 5
      case Polled(shutdown, reload) => if shutdown || reload then 2 else 5
      case Serving => 4
      case Polling => 3
      case SendingShutdown => 1
      case SendingReload => 1
      case Done => 0
  }

  /** Each operation of a welcome thread that sees a request, or has seen it, brings its end nearer. */
  lemma WelcomeUsesRank(c: Control, shutdown: bool, reload: bool)
    requires PhasesOk(c) && !Over(c) && Active(c.welcome)
    ensures c.welcome.Polling? && (shutdown || reload) ==> Rank(WelcomeMoves(c, shutdown, reload)) < Rank(c)
    ensures !c.welcome.Polling? ==> Rank(WelcomeMoves(c, shutdown, reload)) < Rank(c)
    ensures WelcomeCanFail(c.welcome) ==> Rank(WelcomeGivesUp(c)) < Rank(c)
    ensures c.welcome.Serving? ==> Rank(SocketBreaks(c)) < Rank(c)
  {
  }

  /** Main uses up nothing, and a reload that survives the breaker gives a whole incarnation more. */
  lemma MainKeepsRank(c: Control, next: Stage)
    requires PhasesOk(c) && !Over(c)
    ensures MainCanMove(c) && !Over(MainMoves(c, next)) ==> Rank(MainMoves(c, next)) <= Rank(c)
    ensures MainCanFail(c) && !Over(MainGivesUp(c)) ==> Rank(MainGivesUp(c)) <= Rank(c)
    ensures c.main.Breaking? ==> Rank(MainReloads(c, true)) <= Rank(c) + 6
  {
  }

  /** A welcome thread that is done has left main a message to stop at. */
  ghost predicate DecidedOk(c: Control) {
    c.welcome.Done? && (c.main.Notifying? || c.main.Receiving?) ==> Decision(c.channel).Some?
  }

  lemma MovesKeepDecided(c: Control, next: Stage, shutdown: bool, reload: bool)
    requires PhasesOk(c) && DecidedOk(c)
    ensures MainCanMove(c) ==> DecidedOk(MainMoves(c, next))
    ensures MainCanFail(c) ==> DecidedOk(MainGivesUp(c))
    ensures Active(c.welcome) ==> DecidedOk(WelcomeMoves(c, shutdown, reload))
    ensures DecidedOk(c.(channel := c.channel + [OtherError]))
  {
    DecisionAppend(c.channel, ShutdownSignal);
    DecisionAppend(c.channel, ReloadRequest);
    DecisionAppend(c.channel, OtherError);
  }
}
