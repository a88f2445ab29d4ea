/** The reload circuit breaker: at most so many reloads per epoch, or the process kills itself. */
module CircuitBreaker {
  import opened Outcomes

  const EPOCH_SECONDS: nat := 3
  const RELOADS_PER_EPOCH: nat := 100
  const SECOND: int := 1_000_000_000
  const I64_MAX: int := 0x7fff_ffff_ffff_ffff

  /** An epoch ends with the first reload this many nanoseconds, four seconds, after its start. */
  const EPOCH: int := (EPOCH_SECONDS + 1) * SECOND

  /** The most reloads one epoch lets through. */
  const QUOTA: nat := RELOADS_PER_EPOCH - 1

  datatype Time = Time(sec: int, ns: int)

  /** What CLOCK_MONOTONIC_COARSE delivers. */
  predicate ValidTime(t: Time) {
    0 <= t.sec <= I64_MAX && 0 <= t.ns < SECOND
  }

  function Nanos(t: Time): int {
    t.sec * SECOND + t.ns
  }

  datatype Breaker = Breaker(epoch: Time, reloads: nat)

  /** The statics at process start: an epoch that began when the machine booted. */
  const BOOT: Breaker := Breaker(Time(0, 0), 0)

  function SecondsSince(epoch: Time, now: Time): int {
    now.sec - epoch.sec - (if epoch.ns > now.ns then 1 else 0)
  }

  /** One call; None means the process has killed itself. */
  function Call(b: Breaker, now: Time): Option<Breaker> {
    if SecondsSince(b.epoch, now) > EPOCH_SECONDS then Some(Breaker(now, 1))
    else if b.reloads + 1 >= RELOADS_PER_EPOCH then None
    else Some(b.(reloads := b.reloads + 1))
  }

  /** The borrow makes it whole seconds elapsed, and no intermediate value leaves the i64 range. */
  lemma SecondsSinceIsFloor(epoch: Time, now: Time)
    requires ValidTime(epoch) && ValidTime(now)
    ensures SecondsSince(epoch, now) == (Nanos(now) - Nanos(epoch)) / SECOND
    ensures -I64_MAX - 1 <= now.sec - epoch.sec <= I64_MAX
    ensures -I64_MAX - 1 <= SecondsSince(epoch, now) <= I64_MAX
    ensures SecondsSince(epoch, now) > EPOCH_SECONDS <==> Nanos(now) - Nanos(epoch) >= EPOCH
  {
  }

  /** The three statics and the history of the reloads they have let through. */
  class Statics {
    var epochStartSeconds: int
    var epochStartNanoseconds: int
    var reloadsSinceEpochStart: nat
    ghost var history: seq<Time>

    ghost function View(): Breaker
      reads this
    {
      Breaker(Time(epochStartSeconds, epochStartNanoseconds), reloadsSinceEpochStart)
    }

    ghost predicate Valid()
      reads this
    {
      History(history) && Run(history) == Some(View())
    }

    constructor ()
      ensures Valid() && history == []
    {
      epochStartSeconds, epochStartNanoseconds, reloadsSinceEpochStart := 0, 0, 0;
      history := [];
    }

    /**
     * `circuit_breaker`: the process dies exactly when the clock cannot be read or the breaker trips;
     * otherwise the reload joins the history.
     */
    method CircuitBreaker(clock: Option<Time>) returns (survived: bool)
      requires Valid()
      requires clock.Some? ==> History(history + [clock.value])
      modifies this
      ensures Valid()
      ensures survived <==> clock.Some? && Run(old(history) + [clock.value]).Some?
      ensures history == if survived then old(history) + [clock.value] else old(history)
    {
      if clock.None? {
        return false;
      }
      var now := clock.value;
      RunNext(history, View(), now);
      var borrow := if epochStartNanoseconds > now.ns then 1 else 0;
      var secondsSinceEpochStart := now.sec - epochStartSeconds - borrow;
      if secondsSinceEpochStart > EPOCH_SECONDS {
        epochStartSeconds := now.sec;
        epochStartNanoseconds := now.ns;
        reloadsSinceEpochStart := 1;
        history := history + [now];
        return true;
      }
      if reloadsSinceEpochStart + 1 >= RELOADS_PER_EPOCH {
        return false;
      }
      reloadsSinceEpochStart := reloadsSinceEpochStart + 1;
      history := history + [now];
      return true;
    }
  }

  /** What the next reload makes of the history. */
  lemma RunNext(past: seq<Time>, b: Breaker, now: Time)
    requires Run(past) == Some(b)
    ensures Run(past + [now]) == Call(b, now)
  {
    RunAppend(past, now);
  }

  // ----- histories -----

  /** Clock readings that never run backwards. */
  ghost predicate History(ts: seq<Time>) {
    && (forall i :: 0 <= i < |ts| ==> ValidTime(ts[i]))
    && (forall i, j :: 0 <= i <= j < |ts| ==> Nanos(ts[i]) <= Nanos(ts[j]))
  }

  /** The breaker after all these reloads, or None if one of them tripped it. */
  ghost function Run(ts: seq<Time>): Option<Breaker> {
    if ts == [] then Some(BOOT) else
      match Run(ts[..|ts| - 1])
      case None => None
      case Some(b) => Call(b, ts[|ts| - 1])
  }

  /** Where the current epoch begins in the history. */
  ghost function EpochBegin(ts: seq<Time>): int
    requires Run(ts).Some?
  {
    |ts| - Run(ts).value.reloads
  }

  /**
   * What the statics mean: the count is the number of reloads since the epoch began, all of them
   * less than an epoch after its start; the epoch starts at its own first reload, which came at
   * least an epoch after the start of the one before, unless it is still the one begun at boot.
   */
  ghost predicate EpochShape(ts: seq<Time>)
    requires Run(ts).Some?
  {
    var b, begin := Run(ts).value, EpochBegin(ts);
    && ValidTime(b.epoch)
    && 0 <= begin <= |ts| && b.reloads <= QUOTA
    && (forall i :: begin <= i < |ts| ==> Nanos(b.epoch) <= Nanos(ts[i]) < Nanos(b.epoch) + EPOCH)
    && (b.epoch == BOOT.epoch || (begin < |ts| && b.epoch == ts[begin]))
    && (begin == 0 || (begin < |ts| && b.epoch == ts[begin]))
    && (begin > 0 ==> Run(ts[..begin]).Some? && Nanos(ts[begin]) - Nanos(Run(ts[..begin]).value.epoch) >= EPOCH)
  }

  /** The clock has not run backwards since these reloads. */
  ghost predicate AfterAll(ts: seq<Time>, now: Time) {
    ValidTime(now) && forall i :: 0 <= i < |ts| ==> Nanos(ts[i]) <= Nanos(now)
  }

  lemma LastIsAfterAll(past: seq<Time>, now: Time)
    requires History(past + [now])
    ensures AfterAll(past, now)
  {
    var ts := past + [now];
    assert ts[|past|] == now;
    forall i | 0 <= i < |past| ensures Nanos(past[i]) <= Nanos(now) {
      assert ts[i] == past[i] && Nanos(ts[i]) <= Nanos(ts[|past|]);
    }
  }

  /** A reload an epoch's length or more after the start opens the next epoch, and is its first. */
  lemma EpochOpens(past: seq<Time>, now: Time)
    requires AfterAll(past, now) && Run(past).Some? && EpochShape(past)
    requires SecondsSince(Run(past).value.epoch, now) > EPOCH_SECONDS
    ensures Run(past + [now]) == Some(Breaker(now, 1)) && EpochShape(past + [now])
  {
    RunAppend(past, now);
    assert (past + [now])[..|past|] == past;
    SecondsSinceIsFloor(Run(past).value.epoch, now);
  }

  lemma EpochIsBefore(past: seq<Time>, now: Time)
    requires AfterAll(past, now) && Run(past).Some? && EpochShape(past)
    ensures Nanos(Run(past).value.epoch) <= Nanos(now)
  {
  }

  /** Any other surviving reload belongs to the current epoch. */
  lemma EpochCounts(past: seq<Time>, now: Time)
    requires AfterAll(past, now) && Run(past).Some? && EpochShape(past)
    requires SecondsSince(Run(past).value.epoch, now) <= EPOCH_SECONDS && Run(past).value.reloads < QUOTA
    ensures Run(past + [now]) == Some(Breaker(Run(past).value.epoch, Run(past).value.reloads + 1))
    ensures EpochShape(past + [now])
  {
    var ts, begin := past + [now], EpochBegin(past);
    RunAppend(past, now);
    EpochIsBefore(past, now);
    SecondsSinceIsFloor(Run(past).value.epoch, now);
    assert ts[..begin] == past[..begin];
    forall i | begin <= i < |ts|
      ensures Nanos(Run(past).value.epoch) <= Nanos(ts[i]) < Nanos(Run(past).value.epoch) + EPOCH
    {
      assert ts[i] == if i < |past| then past[i] else now;
    }
  }

  lemma {:induction false} EpochHasShape(ts: seq<Time>)
    requires History(ts) && Run(ts).Some?
    ensures EpochShape(ts)
  {
    if ts != [] {
      var past, now := ts[..|ts| - 1], ts[|ts| - 1];
      assert ts == past + [now];
      RunAppend(past, now);
      HistoryPrefix(past, now);
      LastIsAfterAll(past, now);
      EpochHasShape(past);
      if SecondsSince(Run(past).value.epoch, now) > EPOCH_SECONDS {
        EpochOpens(past, now);
      } else {
        EpochCounts(past, now);
      }
    }
  }

  lemma {:induction false} PrefixSurvives(ts: seq<Time>, n: nat)
    requires n <= |ts| && Run(ts).Some?
    ensures Run(ts[..n]).Some?
  {
    if n < |ts| {
      assert ts[..|ts| - 1][..n] == ts[..n];
      PrefixSurvives(ts[..|ts| - 1], n);
    } else {
      assert ts[..n] == ts;
    }
  }

  /** A window that reaches into the current epoch and ends before an epoch's length has passed. */
  ghost predicate WindowTo(ts: seq<Time>, i: nat, t: int) {
    i < |ts| && t - Nanos(ts[i]) < EPOCH
  }

  /** If the next reload opens a new epoch, a window up to it lies within the epoch it closes. */
  lemma ClosedEpochBound(ts: seq<Time>, i: nat, t: int)
    requires History(ts) && Run(ts).Some? && WindowTo(ts, i, t)
    requires t - Nanos(Run(ts).value.epoch) >= EPOCH
    ensures |ts| - i <= QUOTA
    ensures Nanos(ts[0]) >= EPOCH || i > 0 ==> |ts| - i <= QUOTA - 1
  {
    EpochHasShape(ts);
    assert Nanos(ts[0]) <= Nanos(ts[i]);
    if i <= EpochBegin(ts) < |ts| {
      assert Nanos(ts[i]) <= Nanos(ts[EpochBegin(ts)]);
    }
  }

  /**
   * Rate bound: any window shorter than four seconds holds at most twice the quota of surviving
   * reloads, and one less than that unless it begins with the first reload of all and that reload
   * came less than four seconds after boot.
   */
  lemma WindowBound(ts: seq<Time>, i: nat, j: nat)
    requires History(ts) && Run(ts).Some?
    requires i <= j < |ts| && Nanos(ts[j]) - Nanos(ts[i]) < 4_000_000_000
    ensures j - i + 1 <= 198
    ensures Nanos(ts[0]) >= 4_000_000_000 || i > 0 ==> j - i + 1 <= 197
  {
    var last := ts[..j + 1];
    PrefixSurvives(ts, j + 1);
    EpochHasShape(last);
    var begin := EpochBegin(last);
    if i < begin {
      assert last[..begin] == ts[..begin];
      assert Nanos(ts[begin]) <= Nanos(ts[j]);
      ClosedEpochBound(ts[..begin], i, Nanos(ts[begin]));
    }
  }

  // ----- the bound is reached -----

  function Repeat(t: Time, n: nat): seq<Time> {
    seq(n, _ => t)
  }

  /** Reloads at one instant inside the epoch only count up. */
  lemma {:induction false} BurstSurvives(past: seq<Time>, b: Breaker, t: Time, n: nat)
    requires Run(past) == Some(b) && SecondsSince(b.epoch, t) <= EPOCH_SECONDS && b.reloads + n <= QUOTA
    ensures Run(past + Repeat(t, n)) == Some(Breaker(b.epoch, b.reloads + n))
  {
    if n == 0 {
      assert past + Repeat(t, 0) == past;
    } else {
      BurstSurvives(past, b, t, n - 1);
      OneMoreSurvives(past, Breaker(b.epoch, b.reloads + n - 1), t, n);
    }
  }

  lemma OneMoreSurvives(past: seq<Time>, b: Breaker, t: Time, n: nat)
    requires n > 0 && Run(past + Repeat(t, n - 1)) == Some(b)
    requires SecondsSince(b.epoch, t) <= EPOCH_SECONDS && b.reloads < QUOTA
    ensures Run(past + Repeat(t, n)) == Some(Breaker(b.epoch, b.reloads + 1))
  {
    RepeatOnceMore(past, t, n);
    CountsUp(b.epoch, b.reloads, t);
    RunNext(past + Repeat(t, n - 1), b, t);
  }

  lemma RepeatOnceMore(past: seq<Time>, t: Time, n: nat)
    requires n > 0
    ensures past + Repeat(t, n) == past + Repeat(t, n - 1) + [t]
  {
    assert Repeat(t, n) == Repeat(t, n - 1) + [t];
  }

  lemma CountsUp(epoch: Time, reloads: nat, t: Time)
    requires SecondsSince(epoch, t) <= EPOCH_SECONDS && reloads < QUOTA
    ensures Call(Breaker(epoch, reloads), t) == Some(Breaker(epoch, reloads + 1))
  {
  }

  lemma RunAppend(past: seq<Time>, t: Time)
    ensures Run(past + [t]) == if Run(past).None? then None else Call(Run(past).value, t)
  {
    assert (past + [t])[..|past|] == past;
  }

  /** After a reload at `t` that opens an epoch, a whole quota fits into that instant. */
  lemma QuotaAtOnce(past: seq<Time>, t: Time)
    requires Run(past).Some? && SecondsSince(Run(past).value.epoch, t) > EPOCH_SECONDS
    ensures Run(past + [t] + Repeat(t, QUOTA - 1)) == Some(Breaker(t, QUOTA))
  {
    RunAppend(past, t);
    BurstSurvives(past + [t], Breaker(t, 1), t, QUOTA - 1);
  }

  /** Machine up for 3 s: a full quota, one second later another one, 198 reloads in one second. */
  lemma BootBoundIsReached() returns (ts: seq<Time>)
    ensures History(ts) && Run(ts).Some? && |ts| == 2 * QUOTA == 198
    ensures Nanos(ts[|ts| - 1]) - Nanos(ts[0]) == SECOND
  {
    var first, second := Time(3, 0), Time(4, 0);
    BurstSurvives([], BOOT, first, QUOTA);
    var past := [] + Repeat(first, QUOTA);
    QuotaAtOnce(past, second);
    ts := past + [second] + Repeat(second, QUOTA - 1);
  }

  /** Long after boot: 197 surviving reloads within one second, behind the one that opens the epoch. */
  lemma LaterBoundIsReached() returns (ts: seq<Time>)
    ensures History(ts) && Run(ts).Some? && |ts| == 2 * QUOTA == 198 && Nanos(ts[0]) >= 4_000_000_000
    ensures Nanos(ts[|ts| - 1]) - Nanos(ts[1]) == SECOND
  {
    var start, first, second := Time(10, 0), Time(13, 0), Time(14, 0);
    RunAppend([], start);
    var begun := [] + [start];
    BurstSurvives(begun, Breaker(start, 1), first, QUOTA - 1);
    var past := begun + Repeat(first, QUOTA - 1);
    QuotaAtOnce(past, second);
    ts := past + [second] + Repeat(second, QUOTA - 1);
  }

  // ----- when it trips -----

  /**
   * The breaker trips exactly when the new reload is the hundredth since the epoch began and comes
   * less than four seconds after the epoch's start.
   */
  lemma TripsExactly(ts: seq<Time>, now: Time)
    requires History(ts + [now]) && Run(ts).Some?
    ensures EpochShape(ts)
    ensures Run(ts + [now]).None? <==>
              |ts| + 1 - EpochBegin(ts) == 100 && Nanos(now) < Nanos(Run(ts).value.epoch) + 4_000_000_000
  {
    HistoryPrefix(ts, now);
    EpochHasShape(ts);
    RunAppend(ts, now);
    assert (ts + [now])[|ts|] == now;
    SecondsSinceIsFloor(Run(ts).value.epoch, now);
  }

  lemma HistoryExtends(ts: seq<Time>, now: Time)
    requires History(ts) && ValidTime(now)
    requires ts != [] ==> Nanos(ts[|ts| - 1]) <= Nanos(now)
    ensures History(ts + [now])
  {
    forall i | 0 <= i < |ts| ensures Nanos(ts[i]) <= Nanos(now) {
      assert Nanos(ts[i]) <= Nanos(ts[|ts| - 1]);
    }
  }

  lemma HistoryPrefix(ts: seq<Time>, now: Time)
    requires History(ts + [now])
    ensures History(ts)
  {
    assert forall i :: 0 <= i < |ts| ==> (ts + [now])[i] == ts[i];
  }

  /** No false trip: a trip has a hundred calls, itself included, in less than four seconds behind it. */
  lemma TripHasCause(ts: seq<Time>, now: Time)
    requires History(ts + [now]) && Run(ts).Some? && Run(ts + [now]).None?
    ensures |ts| >= 99 && Nanos(now) - Nanos(ts[|ts| - 99]) < 4_000_000_000
  {
    TripsExactly(ts, now);
    assert |ts| - QUOTA == EpochBegin(ts);
  }

  /** A history with no hundred calls in any four seconds never trips the breaker. */
  lemma {:induction false} SparseHistorySurvives(ts: seq<Time>)
    requires History(ts)
    requires forall i :: 0 <= i < |ts| - 99 ==> Nanos(ts[i + 99]) - Nanos(ts[i]) >= 4_000_000_000
    ensures Run(ts).Some?
  {
    if ts != [] {
      var past, now := ts[..|ts| - 1], ts[|ts| - 1];
      assert ts == past + [now];
      HistoryPrefix(past, now);
      forall i | 0 <= i < |past| - QUOTA ensures Nanos(past[i + QUOTA]) - Nanos(past[i]) >= EPOCH {
        assert past[i + QUOTA] == ts[i + QUOTA] && past[i] == ts[i];
      }
      SparseHistorySurvives(past);
      if |past| >= QUOTA {
        assert Nanos(ts[|past| - QUOTA + QUOTA]) - Nanos(ts[|past| - QUOTA]) >= EPOCH;
      }
      if Run(ts).None? {
        TripHasCause(past, now);
      }
    }
  }

  /** The breaker recovers: four quiet seconds after any surviving reload, the next one survives. */
  lemma QuietResets(ts: seq<Time>, now: Time)
    requires History(ts + [now]) && Run(ts).Some? && ts != []
    requires Nanos(now) - Nanos(ts[|ts| - 1]) >= 4_000_000_000
    ensures Run(ts + [now]) == Some(Breaker(now, 1))
  {
    HistoryPrefix(ts, now);
    EpochHasShape(ts);
    RunAppend(ts, now);
    assert (ts + [now])[|ts|] == now && ValidTime(now);
    assert (ts + [now])[|ts| - 1] == ts[|ts| - 1];
    SecondsSinceIsFloor(Run(ts).value.epoch, now);
  }
}
