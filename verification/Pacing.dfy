/**
 The loop's cadence, for any hub answers and a clock that never runs backwards: scheduled renewals are
 half the learned TTL apart, so their number is bounded by the time elapsed.
 */
module Pacing {
  import opened Models
  import opened Credentials
  import opened ClientLoop

  predicate InOrderWithin(round: Round) {
    round.dueAt <= round.attemptAt <= round.renewAt <= round.recoverAt <= round.settledAt
  }

  predicate MonotoneClock(rounds: seq<Round>) {
    && (forall k | 0 <= k < |rounds| :: InOrderWithin(rounds[k]))
    && (forall i, k | 0 <= i < k < |rounds| :: rounds[i].settledAt <= rounds[k].dueAt)
  }

  function StateBefore(entries: Entries, haveClientId: bool, rounds: seq<Round>, k: nat): (s: LoopState)
    requires WellTyped(entries) && k <= |rounds|
    ensures WellTyped(s.entries)
  {
    LoopAfter(entries, haveClientId, rounds[..k])
  }

  /** Whether round `k` attempts a scheduled renewal. */
  predicate Schedules(entries: Entries, haveClientId: bool, rounds: seq<Round>, k: nat)
    requires WellTyped(entries) && k < |rounds|
  {
    ScheduledAt(StateBefore(entries, haveClientId, rounds, k), ACCESS_KEY in entries, rounds[k]).Some?
  }

  function Renewals(entries: Entries, haveClientId: bool, rounds: seq<Round>): nat
    requires WellTyped(entries)
  {
    if rounds == [] then 0
    else
      var n := |rounds| - 1;
      Renewals(entries, haveClientId, rounds[..n]) + (if Schedules(entries, haveClientId, rounds, n) then 1 else 0)
  }

  predicate Names(reply: CheckInReply, ttl: Option<int>) {
    reply.CheckInOk? && reply.ttl.Some? && reply.ttl == ttl
  }

  /** One round's effect on the two scheduling variables. */
  predicate Turns(s: LoopState, after: LoopState, renewable: bool, round: Round) {
    && (after.attemptedAt == s.attemptedAt || after.attemptedAt == Some(round.attemptAt) || after.attemptedAt == Some(round.settledAt))
    && (ScheduledAt(s, renewable, round).Some? ==> after.attemptedAt == Some(round.attemptAt) || after.attemptedAt == Some(round.settledAt))
    && (s.ttl.Some? ==> after.ttl.Some?)
    && (after.ttl == s.ttl || Names(round.checkIn, after.ttl) || Names(round.recoveryCheckIn, after.ttl))
  }

  lemma RoundTurns(s: LoopState, renewable: bool, haveClientId: bool, round: Round)
    requires WellTyped(s.entries)
    ensures Turns(s, RoundAfter(s, renewable, haveClientId, round), renewable, round)
  {
    if s.status == Running {
      ProactiveTurns(s, renewable, haveClientId, round);
      ProactiveStaysTyped(s, renewable, haveClientId, round);
      ReactiveTurns(Proactive(s, renewable, haveClientId, round), haveClientId, round);
    }
  }

  lemma ProactiveTurns(s: LoopState, renewable: bool, haveClientId: bool, round: Round)
    requires WellTyped(s.entries) && s.status == Running
    ensures var attested := Proactive(s, renewable, haveClientId, round);
            && attested.attemptedAt == (if ScheduledAt(s, renewable, round).Some? then Some(round.attemptAt) else s.attemptedAt)
            && (s.ttl.Some? ==> attested.ttl.Some?)
            && (attested.ttl == s.ttl || Names(round.checkIn, attested.ttl))
  {
  }

  lemma ReactiveTurns(s: LoopState, haveClientId: bool, round: Round)
    requires WellTyped(s.entries)
    ensures var after := Reactive(s, haveClientId, round);
            && (after.attemptedAt == s.attemptedAt || after.attemptedAt == Some(round.settledAt))
            && (s.ttl.Some? ==> after.ttl.Some?)
            && (after.ttl == s.ttl || Names(round.recoveryCheckIn, after.ttl))
  {
  }

  lemma StateTurns(entries: Entries, haveClientId: bool, rounds: seq<Round>, k: nat)
    requires WellTyped(entries) && k < |rounds|
    ensures Turns(StateBefore(entries, haveClientId, rounds, k), StateBefore(entries, haveClientId, rounds, k + 1), ACCESS_KEY in entries, rounds[k])
  {
    LoopTurn(entries, haveClientId, rounds, k);
    RoundTurns(StateBefore(entries, haveClientId, rounds, k), ACCESS_KEY in entries, haveClientId, rounds[k]);
  }

  /** An attempt is remembered: the loop's own clock for it never goes back. */
  lemma {:induction false} AttemptIsRemembered(entries: Entries, haveClientId: bool, rounds: seq<Round>, i: nat, k: nat)
    requires WellTyped(entries) && MonotoneClock(rounds)
    requires i < k <= |rounds| && Schedules(entries, haveClientId, rounds, i)
    ensures var attempted := StateBefore(entries, haveClientId, rounds, k).attemptedAt;
            attempted.Some? && rounds[i].attemptAt <= attempted.value <= rounds[k - 1].settledAt
    decreases k
  {
    StateTurns(entries, haveClientId, rounds, k - 1);
    assert InOrderWithin(rounds[k - 1]);
    if i < k - 1 {
      AttemptIsRemembered(entries, haveClientId, rounds, i, k - 1);
      assert InOrderWithin(rounds[i]) && rounds[i].settledAt <= rounds[k - 1].dueAt;
      assert rounds[k - 2].settledAt <= rounds[k - 1].dueAt;
    }
  }

  /** Two scheduled renewals of a run are at least half the TTL in force at the later one apart. */
  lemma RenewalsAreHalfTtlApart(entries: Entries, haveClientId: bool, rounds: seq<Round>, i: nat, k: nat)
    requires WellTyped(entries) && MonotoneClock(rounds)
    requires i < k < |rounds| && Schedules(entries, haveClientId, rounds, i) && Schedules(entries, haveClientId, rounds, k)
    ensures StateBefore(entries, haveClientId, rounds, k).ttl.Some?
    ensures rounds[k].attemptAt - rounds[i].attemptAt >= StateBefore(entries, haveClientId, rounds, k).ttl.value * HALF_SECOND
  {
    AttemptIsRemembered(entries, haveClientId, rounds, i, k);
  }

  /** Every TTL the hub names in the run is this one. */
  predicate OnlyNames(rounds: seq<Round>, ttl: int) {
    forall k | 0 <= k < |rounds| ::
      && (rounds[k].checkIn.CheckInOk? && rounds[k].checkIn.ttl.Some? ==> rounds[k].checkIn.ttl.value == ttl)
      && (rounds[k].recoveryCheckIn.CheckInOk? && rounds[k].recoveryCheckIn.ttl.Some? ==> rounds[k].recoveryCheckIn.ttl.value == ttl)
  }

  /** After `n` renewals since `start`: the TTL known, and the time the renewals have taken. */
  predicate Paced(s: LoopState, n: nat, ttl: int, start: Instant, now: Instant) {
    && (s.ttl.Some? ==> s.ttl.value == ttl)
    && (n >= 1 ==> s.attemptedAt.Some?)
    && (s.attemptedAt.Some? ==>
          start <= s.attemptedAt.value <= now && (n >= 1 ==> (n - 1) * (ttl * HALF_SECOND) <= s.attemptedAt.value - start))
  }

  lemma PacedTurn(s: LoopState, after: LoopState, renewable: bool, round: Round, n: nat, ttl: int, start: Instant, now: Instant)
    requires Paced(s, n, ttl, start, now) && Turns(s, after, renewable, round)
    requires start <= now <= round.dueAt && InOrderWithin(round) && OnlyNames([round], ttl)
    ensures Paced(after, if ScheduledAt(s, renewable, round).Some? then n + 1 else n, ttl, start, round.settledAt)
  {
    assert [round][0] == round;
    if n >= 1 && ScheduledAt(s, renewable, round).Some? {
      assert round.dueAt - s.attemptedAt.value >= ttl * HALF_SECOND;
      TimesNext(n, ttl * HALF_SECOND);
    }
  }

  lemma TimesNext(n: int, half: int)
    ensures n * half == (n - 1) * half + half
  {
  }

  lemma {:induction false} RenewalsTakeTime(entries: Entries, haveClientId: bool, rounds: seq<Round>, ttl: int)
    requires WellTyped(entries) && MonotoneClock(rounds) && OnlyNames(rounds, ttl) && rounds != []
    ensures Paced(LoopAfter(entries, haveClientId, rounds), Renewals(entries, haveClientId, rounds), ttl,
                  rounds[0].dueAt, rounds[|rounds| - 1].settledAt)
  {
    var n := |rounds| - 1;
    var start := rounds[0].dueAt;
    var s := StateBefore(entries, haveClientId, rounds, n);
    var now := start;
    if n > 0 {
      RenewalsTakeTime(entries, haveClientId, rounds[..n], ttl);
      assert rounds[..n][0] == rounds[0] && rounds[..n][n - 1] == rounds[n - 1];
      now := rounds[n - 1].settledAt;
      assert InOrderWithin(rounds[0]) && rounds[0].settledAt <= rounds[n].dueAt;
      assert start <= now by {
        assert InOrderWithin(rounds[n - 1]);
      }
    }
    StateTurns(entries, haveClientId, rounds, n);
    PacedTurn(s, StateBefore(entries, haveClientId, rounds, n + 1), ACCESS_KEY in entries, rounds[n],
              Renewals(entries, haveClientId, rounds[..n]), ttl, start, now);
    assert rounds[..n + 1] == rounds;
  }

  /** At a constant TTL, a run makes at most 1 + floor(2 * elapsed / TTL) scheduled renewals. */
  lemma RenewalsAreBounded(entries: Entries, haveClientId: bool, rounds: seq<Round>, ttl: int)
    requires WellTyped(entries) && MonotoneClock(rounds) && OnlyNames(rounds, ttl) && ttl >= 1 && rounds != []
    ensures Renewals(entries, haveClientId, rounds)
         <= 1 + 2 * (rounds[|rounds| - 1].settledAt - rounds[0].dueAt) / (ttl * MICROS_PER_SECOND)
  {
    RenewalsTakeTime(entries, haveClientId, rounds, ttl);
    var start, now := rounds[0].dueAt, rounds[|rounds| - 1].settledAt;
    assert InOrderWithin(rounds[0]);
    assert InOrderWithin(rounds[|rounds| - 1]);
    assert start <= now;
    PacedIsBounded(LoopAfter(entries, haveClientId, rounds), Renewals(entries, haveClientId, rounds), ttl, start, now);
  }

  lemma PacedIsBounded(s: LoopState, n: nat, ttl: int, start: Instant, now: Instant)
    requires Paced(s, n, ttl, start, now) && ttl >= 1 && start <= now
    ensures n <= 1 + 2 * (now - start) / (ttl * MICROS_PER_SECOND)
  {
    var half := ttl * HALF_SECOND;
    assert (n - 1) * half <= now - start;
    TwiceOver(n - 1, half, now - start);
    assert ttl * MICROS_PER_SECOND == 2 * half;
  }

  lemma TwiceOver(m: int, half: int, elapsed: int)
    requires half > 0 && m * half <= elapsed
    ensures m <= 2 * elapsed / (2 * half)
  {
    assert m * (2 * half) == 2 * (m * half);
    QuotientBounds(m, 2 * half, 2 * elapsed);
  }

  lemma QuotientBounds(n: int, d: int, x: int)
    requires d > 0 && n * d <= x
    ensures n <= x / d
  {
    var q := x / d;
    assert x < (q + 1) * d;
    assert n * d < (q + 1) * d;
  }

  /** Before any TTL is learned there is at most one scheduled renewal, and without credentials there is none. */
  lemma {:induction false} OneRenewalBeforeTtl(entries: Entries, haveClientId: bool, rounds: seq<Round>)
    requires WellTyped(entries) && MonotoneClock(rounds)
    ensures LoopAfter(entries, haveClientId, rounds).ttl.None? ==> Renewals(entries, haveClientId, rounds) <= 1
    ensures LoopAfter(entries, haveClientId, rounds).ttl.None? && Renewals(entries, haveClientId, rounds) == 1 ==>
      LoopAfter(entries, haveClientId, rounds).attemptedAt.Some?
    ensures ACCESS_KEY !in entries ==> Renewals(entries, haveClientId, rounds) == 0
  {
    if rounds == [] {
    } else {
      var n := |rounds| - 1;
      OneRenewalBeforeTtl(entries, haveClientId, rounds[..n]);
      assert rounds[..n + 1] == rounds;
      StateTurns(entries, haveClientId, rounds, n);
    }
  }

  // ---- a conflict nothing can answer ----

  /** Nothing has been attempted, or half the TTL the hub named has gone by since; never while it named none. */
  predicate RenewalDue(s: LoopState, now: Instant) {
    s.attemptedAt == None || (s.ttl.Some? && 2 * (now - s.attemptedAt.value) >= s.ttl.value * 1_000_000)
  }

  // ---- what a round does, variable by variable ----

  lemma DueIsRenewalDue(s: LoopState, now: Instant)
    ensures IsDue(s.attemptedAt, s.ttl, now) <==> RenewalDue(s, now)
  {
    assert HALF_SECOND == 500_000;
  }

  predicate Attempts(s: LoopState, renewable: bool, round: Round) {
    s.status == Running && renewable && RenewalDue(s, round.dueAt)
  }

  function Spent(s: LoopState, haveClientId: bool, round: Round): Option<TokenSet>
    requires WellTyped(s.entries)
  {
    RenewedAccess(s.entries, round.renewAt, haveClientId, round.refreshed)
  }

  /** A scheduled renewal the hub accepted. */
  predicate Renews(s: LoopState, renewable: bool, haveClientId: bool, round: Round)
    requires WellTyped(s.entries)
  {
    Attempts(s, renewable, round) && Spent(s, haveClientId, round).Some? && round.checkIn.CheckInOk?
  }

  predicate LosesHub(s: LoopState, renewable: bool, haveClientId: bool, round: Round)
    requires WellTyped(s.entries)
  {
    Attempts(s, renewable, round) && Spent(s, haveClientId, round).Some? && round.checkIn == HubUnreachable
  }

  function EntriesServing(s: LoopState, renewable: bool, haveClientId: bool, round: Round): (entries: Entries)
    requires WellTyped(s.entries)
    ensures WellTyped(entries)
  {
    if Renews(s, renewable, haveClientId, round) then
      PersistStaysTyped(s.entries, Spent(s, haveClientId, round).value);
      Persisted(s.entries, Spent(s, haveClientId, round).value)
    else s.entries
  }

  predicate CheckedInServing(s: LoopState, renewable: bool, haveClientId: bool, round: Round)
    requires WellTyped(s.entries)
  {
    s.checkedIn || Renews(s, renewable, haveClientId, round)
  }

  predicate InConflict(s: LoopState, renewable: bool, haveClientId: bool, round: Round)
    requires WellTyped(s.entries)
  {
    s.status == Running && !LosesHub(s, renewable, haveClientId, round) && round.served == Conflict
  }

  /** What a recovery spends: nothing before the run's first check-in. */
  function SpentRecovering(s: LoopState, renewable: bool, haveClientId: bool, round: Round): Option<TokenSet>
    requires WellTyped(s.entries)
  {
    if CheckedInServing(s, renewable, haveClientId, round)
    then RenewedAccess(EntriesServing(s, renewable, haveClientId, round), round.recoverAt, haveClientId, round.recovered)
    else None
  }

  /** A conflict after the first check-in, with nothing to answer it. */
  predicate GivesUp(s: LoopState, renewable: bool, haveClientId: bool, round: Round)
    requires WellTyped(s.entries)
  {
    && InConflict(s, renewable, haveClientId, round) && CheckedInServing(s, renewable, haveClientId, round)
    && SpentRecovering(s, renewable, haveClientId, round) == None
  }

  predicate Recovers(s: LoopState, renewable: bool, haveClientId: bool, round: Round)
    requires WellTyped(s.entries)
  {
    InConflict(s, renewable, haveClientId, round) && !GivesUp(s, renewable, haveClientId, round) && round.recoveryCheckIn.CheckInOk?
  }

  predicate LosesHubServing(s: LoopState, renewable: bool, haveClientId: bool, round: Round)
    requires WellTyped(s.entries)
  {
    && s.status == Running && !LosesHub(s, renewable, haveClientId, round)
    && (round.served == RoundUnreachable
        || (round.served == Conflict && !GivesUp(s, renewable, haveClientId, round) && round.recoveryCheckIn == HubUnreachable))
  }

  function TtlNamed(reply: CheckInReply, otherwise: Option<int>): Option<int> {
    if reply.CheckInOk? && reply.ttl.Some? then reply.ttl else otherwise
  }

  /**
   What a round leaves: it ends the loop exactly when the hub cannot be reached or a conflict cannot be
   answered; an attempt is remembered whatever comes of it; and tokens are kept exactly when the hub took them.
   */
  lemma RoundIsDecided(s: LoopState, renewable: bool, haveClientId: bool, round: Round)
    requires WellTyped(s.entries)
    ensures var after := RoundAfter(s, renewable, haveClientId, round);
            var renews, recovers := Renews(s, renewable, haveClientId, round), Recovers(s, renewable, haveClientId, round);
            && after.status == (if s.status != Running then s.status
                                else if LosesHub(s, renewable, haveClientId, round) || LosesHubServing(s, renewable, haveClientId, round) then Crashed
                                else if GivesUp(s, renewable, haveClientId, round) then LoginAgain
                                else Running)
            && after.checkedIn == (s.checkedIn || renews || recovers)
            && after.attemptedAt == (if recovers then Some(round.settledAt)
                                     else if Attempts(s, renewable, round) then Some(round.attemptAt)
                                     else s.attemptedAt)
            && after.ttl == (if recovers then TtlNamed(round.recoveryCheckIn, if renews then TtlNamed(round.checkIn, s.ttl) else s.ttl)
                             else if renews then TtlNamed(round.checkIn, s.ttl)
                             else s.ttl)
            && after.entries == (if recovers && SpentRecovering(s, renewable, haveClientId, round).Some?
                                 then Persisted(EntriesServing(s, renewable, haveClientId, round), SpentRecovering(s, renewable, haveClientId, round).value)
                                 else EntriesServing(s, renewable, haveClientId, round))
  {
    if s.status == Running {
      ProactiveIsDecided(s, renewable, haveClientId, round);
      ReactiveIsDecided(s, renewable, haveClientId, round);
    }
  }

  lemma ProactiveIsDecided(s: LoopState, renewable: bool, haveClientId: bool, round: Round)
    requires WellTyped(s.entries) && s.status == Running
    ensures Proactive(s, renewable, haveClientId, round)
         == LoopState(
              EntriesServing(s, renewable, haveClientId, round),
              CheckedInServing(s, renewable, haveClientId, round),
              if Attempts(s, renewable, round) then Some(round.attemptAt) else s.attemptedAt,
              if Renews(s, renewable, haveClientId, round) then TtlNamed(round.checkIn, s.ttl) else s.ttl,
              if LosesHub(s, renewable, haveClientId, round) then Crashed else Running)
  {
    DueIsRenewalDue(s, round.dueAt);
  }

  lemma ReactiveIsDecided(s: LoopState, renewable: bool, haveClientId: bool, round: Round)
    requires WellTyped(s.entries) && s.status == Running
    requires var mid := Proactive(s, renewable, haveClientId, round);
             && mid.entries == EntriesServing(s, renewable, haveClientId, round)
             && mid.checkedIn == CheckedInServing(s, renewable, haveClientId, round)
             && mid.status == (if LosesHub(s, renewable, haveClientId, round) then Crashed else Running)
    ensures var mid := Proactive(s, renewable, haveClientId, round);
            var recovers := Recovers(s, renewable, haveClientId, round);
            var spent := SpentRecovering(s, renewable, haveClientId, round);
            Reactive(mid, haveClientId, round)
            == LoopState(
                 if recovers && spent.Some? then Persisted(mid.entries, spent.value) else mid.entries,
                 mid.checkedIn || recovers,
                 if recovers then Some(round.settledAt) else mid.attemptedAt,
                 if recovers then TtlNamed(round.recoveryCheckIn, mid.ttl) else mid.ttl,
                 if mid.status == Crashed || LosesHubServing(s, renewable, haveClientId, round) then Crashed
                 else if GivesUp(s, renewable, haveClientId, round) then LoginAgain
                 else Running)
  {
  }

  /** Round `k` of the run met a conflict after a check-in, with nothing to answer it. */
  predicate Unanswered(entries: Entries, haveClientId: bool, rounds: seq<Round>, k: nat)
    requires WellTyped(entries) && k < |rounds|
  {
    GivesUp(StateBefore(entries, haveClientId, rounds, k), ACCESS_KEY in entries, haveClientId, rounds[k])
  }

  /** A run asks for a new login if and only if some round of it met such a conflict. */
  lemma {:induction false} LoginAgainMeansUnanswered(entries: Entries, haveClientId: bool, rounds: seq<Round>)
    requires WellTyped(entries)
    ensures LoopAfter(entries, haveClientId, rounds).status == LoginAgain <==>
      exists k | 0 <= k < |rounds| :: Unanswered(entries, haveClientId, rounds, k)
  {
    if rounds == [] {
    } else {
      var n := |rounds| - 1;
      LoginAgainMeansUnanswered(entries, haveClientId, rounds[..n]);
      forall k | 0 <= k < n
        ensures Unanswered(entries, haveClientId, rounds[..n], k) == Unanswered(entries, haveClientId, rounds, k)
      {
        assert rounds[..n][..k] == rounds[..k];
      }
      LastRoundDecides(entries, haveClientId, rounds);
    }
  }

  lemma LastRoundDecides(entries: Entries, haveClientId: bool, rounds: seq<Round>)
    requires WellTyped(entries) && rounds != []
    ensures LoopAfter(entries, haveClientId, rounds).status == LoginAgain
       <==> || LoopAfter(entries, haveClientId, rounds[..|rounds| - 1]).status == LoginAgain
            || Unanswered(entries, haveClientId, rounds, |rounds| - 1)
  {
    RoundIsDecided(StateBefore(entries, haveClientId, rounds, |rounds| - 1), ACCESS_KEY in entries, haveClientId, rounds[|rounds| - 1]);
  }

  /** What a round's log should say of it. */
  predicate Tells(s: LoopState, after: LoopState, renewable: bool, round: Round, log: RoundLog) {
    && log.scheduledAt == (if s.status == Running && renewable && RenewalDue(s, round.dueAt) then Some(round.attemptAt) else None)
    && (log.slept <==>
          && s.status == Running && after.status == Running
          && (match round.served
              case Worked => false
              case Dry => true
              case OtherStatus => true
              case Conflict => round.recoveryCheckIn == CheckInError
              case RoundUnreachable => false))
  }

  lemma LogTells(s: LoopState, renewable: bool, haveClientId: bool, round: Round)
    requires WellTyped(s.entries)
    ensures Tells(s, RoundAfter(s, renewable, haveClientId, round), renewable, round, LogOf(s, renewable, haveClientId, round))
  {
    DueIsRenewalDue(s, round.dueAt);
  }

  lemma {:induction false} LogAt(entries: Entries, haveClientId: bool, rounds: seq<Round>, k: nat)
    requires WellTyped(entries) && k < |rounds|
    ensures LogsAfter(entries, haveClientId, rounds)[k]
         == LogOf(StateBefore(entries, haveClientId, rounds, k), ACCESS_KEY in entries, haveClientId, rounds[k])
  {
    if k == |rounds| - 1 {
    } else {
      var before := rounds[..|rounds| - 1];
      LogAt(entries, haveClientId, before, k);
      assert before[..k] == rounds[..k];
    }
  }

  /**
   What the log says of every round: a renewal was attempted if and only if the loop was running with stored
   credentials and one was due; and the loop then slept if and only if it goes on, having found no job, been
   refused for another reason than a conflict, or had the conflict's own check-in refused.
   */
  lemma LogTellsTheRound(entries: Entries, haveClientId: bool, rounds: seq<Round>, k: nat)
    requires WellTyped(entries) && k < |rounds|
    ensures Tells(StateBefore(entries, haveClientId, rounds, k), StateBefore(entries, haveClientId, rounds, k + 1),
                  ACCESS_KEY in entries, rounds[k], LogsAfter(entries, haveClientId, rounds)[k])
  {
    LoopTurn(entries, haveClientId, rounds, k);
    LogAt(entries, haveClientId, rounds, k);
    LogTells(StateBefore(entries, haveClientId, rounds, k), ACCESS_KEY in entries, haveClientId, rounds[k]);
  }

  /** Nothing this round's scheduled renewal could spend, if it makes one. */
  predicate RenewsNothing(entries: Entries, haveClientId: bool, rounds: seq<Round>, k: nat)
    requires WellTyped(entries) && k < |rounds|
  {
    Schedules(entries, haveClientId, rounds, k) ==>
      RenewedAccess(entries, rounds[k].renewAt, haveClientId, rounds[k].refreshed).None?
  }

  /**
   With nothing to renew from, because nothing is stored or because it has expired and no refresh comes of
   it, a hub that keeps answering 409 ends the loop at its second lease.
   */
  lemma UnansweredConflictEnds(entries: Entries, haveClientId: bool, rounds: seq<Round>)
    requires WellTyped(entries) && |rounds| >= 2
    requires RenewsNothing(entries, haveClientId, rounds, 0) && RenewsNothing(entries, haveClientId, rounds, 1)
    requires RenewedAccess(entries, rounds[1].recoverAt, haveClientId, rounds[1].recovered).None?
    requires rounds[0].served == Conflict && rounds[1].served == Conflict
    requires rounds[0].recoveryCheckIn.CheckInOk?
    ensures StateBefore(entries, haveClientId, rounds, 1).status == Running
    ensures StateBefore(entries, haveClientId, rounds, 2).status == LoginAgain
    ensures LoopAfter(entries, haveClientId, rounds).status == LoginAgain
  {
    LoopTurn(entries, haveClientId, rounds, 0);
    LoopTurn(entries, haveClientId, rounds, 1);
    assert rounds[..0] == [];
    var first := StateBefore(entries, haveClientId, rounds, 1);
    assert first.entries == entries && first.checkedIn && first.status == Running;
    if |rounds| > 2 {
      StoppedStaysStopped(entries, haveClientId, rounds, 2);
    } else {
      assert rounds[..2] == rounds;
    }
  }
}
