/**
 The client's unattended loop. Everything outside the client (clock readings, GitHub's refresh answers,
 the hub's replies) arrives per round; the loop is run as written and proved equal to folding one round
 function, about which the pacing properties are then proved.
 */
module ClientLoop {
  import opened Models
  import opened Credentials

  /** A check-in's reply: accepted, perhaps naming the TTL; an HTTP error status; or no reply at all. */
  datatype CheckInReply = CheckInOk(ttl: Option<int>) | CheckInError | HubUnreachable

  /** What leasing, reviewing and reporting one job came to. A 409 from the report counts as a conflict too. */
  datatype RoundReply = Worked | Dry | Conflict | OtherStatus | RoundUnreachable

  /** One round's outside world, in the order the round meets it. */
  datatype Round = Round(
    dueAt: Instant,
    attemptAt: Instant,
    renewAt: Instant,
    refreshed: RefreshAnswer,
    checkIn: CheckInReply,
    served: RoundReply,
    recoverAt: Instant,
    recovered: RefreshAnswer,
    recoveryCheckIn: CheckInReply,
    settledAt: Instant
  )

  datatype Status = Running | LoginAgain | Crashed

  datatype LoopState = LoopState(
    entries: Entries,
    checkedIn: bool,
    attemptedAt: Option<Instant>,
    ttl: Option<int>,
    status: Status
  )

  /** What a round did: the scheduled renewal it attempted, and whether it slept before the next. */
  datatype RoundLog = RoundLog(scheduledAt: Option<Instant>, slept: bool)

  function StartOf(entries: Entries): LoopState {
    LoopState(entries, false, None, None, Running)
  }

  const HALF_SECOND: int := MICROS_PER_SECOND / 2

  /** Half the hub's own TTL; at once until the first attempt; never while no TTL was learned. */
  predicate IsDue(attemptedAt: Option<Instant>, ttl: Option<int>, now: Instant) {
    if attemptedAt.None? then true
    else if ttl.None? then false
    else now - attemptedAt.value >= ttl.value * HALF_SECOND
  }

  /** The TTL known after a check-in: the one the hub named, else the one known before. */
  function Learned(ttl: Option<int>, reply: CheckInReply): Option<int>
    requires reply.CheckInOk?
  {
    if reply.ttl.Some? then reply.ttl else ttl
  }

  /** The proactive half of a round. */
  function Proactive(s: LoopState, renewable: bool, haveClientId: bool, round: Round): LoopState
    requires WellTyped(s.entries)
  {
    if !(renewable && IsDue(s.attemptedAt, s.ttl, round.dueAt)) then s
    else
      var attempted := s.(attemptedAt := Some(round.attemptAt));
      var tokens := RenewedAccess(s.entries, round.renewAt, haveClientId, round.refreshed);
      if tokens.None? then attempted
      else match round.checkIn
        case CheckInOk(_) =>
          attempted.(entries := Persisted(s.entries, tokens.value), checkedIn := true, ttl := Learned(s.ttl, round.checkIn))
        case CheckInError => attempted
        case HubUnreachable => attempted.(status := Crashed)
  }

  /** Answering a 409: a heartbeat before this run's first check-in, a renewal after it, or the end. */
  function Recovery(s: LoopState, haveClientId: bool, round: Round): LoopState
    requires WellTyped(s.entries)
  {
    var tokens := if s.checkedIn then RenewedAccess(s.entries, round.recoverAt, haveClientId, round.recovered) else None;
    if s.checkedIn && tokens.None? then s.(status := LoginAgain)
    else match round.recoveryCheckIn
      case CheckInOk(_) =>
        s.(
          entries := if tokens.Some? then Persisted(s.entries, tokens.value) else s.entries,
          checkedIn := true,
          attemptedAt := Some(round.settledAt),
          ttl := Learned(s.ttl, round.recoveryCheckIn)
        )
      case CheckInError => s
      case HubUnreachable => s.(status := Crashed)
  }

  function Reactive(s: LoopState, haveClientId: bool, round: Round): LoopState
    requires WellTyped(s.entries)
  {
    if s.status != Running then s
    else match round.served
      case Conflict => Recovery(s, haveClientId, round)
      case RoundUnreachable => s.(status := Crashed)
      case _ => s
  }

  lemma ProactiveStaysTyped(s: LoopState, renewable: bool, haveClientId: bool, round: Round)
    requires WellTyped(s.entries)
    ensures WellTyped(Proactive(s, renewable, haveClientId, round).entries)
  {
    var tokens := RenewedAccess(s.entries, round.renewAt, haveClientId, round.refreshed);
    if tokens.Some? {
      PersistStaysTyped(s.entries, tokens.value);
    }
  }

  lemma RecoveryStaysTyped(s: LoopState, haveClientId: bool, round: Round)
    requires WellTyped(s.entries)
    ensures WellTyped(Recovery(s, haveClientId, round).entries)
  {
    var tokens := RenewedAccess(s.entries, round.recoverAt, haveClientId, round.recovered);
    if tokens.Some? {
      PersistStaysTyped(s.entries, tokens.value);
    }
  }

  function RoundAfter(s: LoopState, renewable: bool, haveClientId: bool, round: Round): (after: LoopState)
    requires WellTyped(s.entries)
    ensures WellTyped(after.entries)
  {
    if s.status != Running then s
    else
      ProactiveStaysTyped(s, renewable, haveClientId, round);
      var attested := Proactive(s, renewable, haveClientId, round);
      RecoveryStaysTyped(attested, haveClientId, round);
      Reactive(attested, haveClientId, round)
  }

  /** The scheduled renewal a round attempts, if any. */
  function ScheduledAt(s: LoopState, renewable: bool, round: Round): Option<Instant> {
    if s.status == Running && renewable && IsDue(s.attemptedAt, s.ttl, round.dueAt) then Some(round.attemptAt) else None
  }

  /** A dry or failed lease idles, and so does a conflict whose own check-in failed; work and recovery do not. */
  function LogOf(s: LoopState, renewable: bool, haveClientId: bool, round: Round): RoundLog
    requires WellTyped(s.entries)
  {
    var after := RoundAfter(s, renewable, haveClientId, round);
    RoundLog(
      ScheduledAt(s, renewable, round),
      s.status == Running && after.status == Running
        && (round.served.Dry? || round.served.OtherStatus? || (round.served.Conflict? && round.recoveryCheckIn.CheckInError?))
    )
  }

  function LoopAfter(entries: Entries, haveClientId: bool, rounds: seq<Round>): (s: LoopState)
    requires WellTyped(entries)
    ensures WellTyped(s.entries)
  {
    if rounds == [] then StartOf(entries)
    else
      RoundAfter(LoopAfter(entries, haveClientId, rounds[..|rounds| - 1]), ACCESS_KEY in entries, haveClientId, rounds[|rounds| - 1])
  }

  function LogsAfter(entries: Entries, haveClientId: bool, rounds: seq<Round>): (logs: seq<RoundLog>)
    requires WellTyped(entries)
    ensures |logs| == |rounds|
  {
    if rounds == [] then []
    else
      var before := rounds[..|rounds| - 1];
      LogsAfter(entries, haveClientId, before)
      + [LogOf(LoopAfter(entries, haveClientId, before), ACCESS_KEY in entries, haveClientId, rounds[|rounds| - 1])]
  }

  // ---- the loop as written ----

  /** Check in, with a credential or as a bare heartbeat; tokens are persisted only once accepted. */
  method ReattestViaCheckIn(client: ClientState, tokens: Option<TokenSet>, ttl: Option<int>, reply: CheckInReply)
    returns (learned: Option<int>)
    requires reply.CheckInOk?
    modifies client
    ensures learned == Learned(ttl, reply)
    ensures client.entries == if tokens.Some? then Persisted(old(client.entries), tokens.value) else old(client.entries)
  {
    if tokens.Some? {
      client.PersistGithubTokens(tokens.value);
    }
    learned := if reply.ttl.Some? then reply.ttl else ttl;
  }

  datatype RecoveryOutcome = Recovered(ttl: Option<int>) | Exits | HubErrorRaised | NoReply

  /** What a refused lease or report leads to. */
  method RecoverFromLeaseConflict(client: ClientState, checkedIn: bool, ttl: Option<int>, haveClientId: bool, round: Round)
    returns (outcome: RecoveryOutcome)
    requires WellTyped(client.entries)
    modifies client
    ensures forall attemptedAt ::
      var s := LoopState(old(client.entries), checkedIn, attemptedAt, ttl, Running);
      AfterRecovery(s, client.entries, round, outcome) == Recovery(s, haveClientId, round)
    ensures outcome.HubErrorRaised? ==> round.recoveryCheckIn.CheckInError?
    ensures outcome.Recovered? ==> !round.recoveryCheckIn.CheckInError?
  {
    var tokens: Option<TokenSet> := None;
    if checkedIn {
      tokens := RenewedAccess(client.entries, round.recoverAt, haveClientId, round.recovered);
      if tokens.None? {
        return Exits;
      }
    }
    match round.recoveryCheckIn
    case CheckInOk(_) =>
      var learned := ReattestViaCheckIn(client, tokens, ttl, round.recoveryCheckIn);
      outcome := Recovered(learned);
    case CheckInError => outcome := HubErrorRaised;
    case HubUnreachable => outcome := NoReply;
  }

  /** What the loop makes of a recovery's outcome. */
  function AfterRecovery(s: LoopState, entries: Entries, round: Round, outcome: RecoveryOutcome): LoopState {
    match outcome
    case Recovered(ttl) => LoopState(entries, true, Some(round.settledAt), ttl, s.status)
    case Exits => s.(entries := entries, status := LoginAgain)
    case HubErrorRaised => s.(entries := entries)
    case NoReply => s.(entries := entries, status := Crashed)
  }

  /** The scheduled half of a round. */
  method RenewOnSchedule(client: ClientState, checkedIn0: bool, ttl0: Option<int>, haveClientId: bool, round: Round)
    returns (checkedIn: bool, ttl: Option<int>, status: Status)
    requires WellTyped(client.entries)
    modifies client
    ensures forall attemptedAt ::
      var s := LoopState(old(client.entries), checkedIn0, attemptedAt, ttl0, Running);
      IsDue(attemptedAt, ttl0, round.dueAt) ==>
        LoopState(client.entries, checkedIn, Some(round.attemptAt), ttl, status) == Proactive(s, true, haveClientId, round)
  {
    checkedIn, ttl, status := checkedIn0, ttl0, Running;
    var tokens := RenewedAccess(client.entries, round.renewAt, haveClientId, round.refreshed);
    if tokens.Some? {
      match round.checkIn
      case CheckInOk(_) =>
        ttl := ReattestViaCheckIn(client, tokens, ttl, round.checkIn);
        checkedIn := true;
      case CheckInError =>
      case HubUnreachable => status := Crashed;
    }
  }

  /** The loop over any finite stretch of rounds, stopping early where the process would. */
  method RunLoop(client: ClientState, haveClientId: bool, rounds: seq<Round>) returns (end: LoopState, logs: seq<RoundLog>)
    requires WellTyped(client.entries)
    modifies client
    ensures end == LoopAfter(old(client.entries), haveClientId, rounds)
    ensures client.entries == end.entries
    ensures |logs| <= |rounds| && logs == LogsAfter(old(client.entries), haveClientId, rounds)[..|logs|]
    ensures |logs| < |rounds| ==> end.status != Running
  {
    ghost var start := client.entries;
    var checkedIn, status := false, Running;
    var attemptedAt: Option<Instant>, ttl: Option<int> := None, None;
    var renewable := ACCESS_KEY in client.entries;
    logs := [];
    var k := 0;
    while k < |rounds| && status == Running
      invariant 0 <= k <= |rounds| && |logs| == k
      invariant WellTyped(client.entries)
      invariant LoopState(client.entries, checkedIn, attemptedAt, ttl, status) == LoopAfter(start, haveClientId, rounds[..k])
      invariant logs == LogsAfter(start, haveClientId, rounds[..k])
      decreases |rounds| - k
    {
      var round := rounds[k];
      ghost var before := LoopState(client.entries, checkedIn, attemptedAt, ttl, status);
      var scheduled: Option<Instant> := None;
      if renewable && IsDue(attemptedAt, ttl, round.dueAt) {
        checkedIn, ttl, status := RenewOnSchedule(client, checkedIn, ttl, haveClientId, round);
        attemptedAt := Some(round.attemptAt);
        scheduled := attemptedAt;
      }
      ghost var attested := LoopState(client.entries, checkedIn, attemptedAt, ttl, status);
      assert attested == Proactive(before, renewable, haveClientId, round);
      ProactiveStaysTyped(before, renewable, haveClientId, round);
      var worked := true;
      if status == Running {
        match round.served
        case Worked =>
        case Dry => worked := false;
        case OtherStatus => worked := false;
        case RoundUnreachable => status := Crashed;
        case Conflict =>
          var outcome := RecoverFromLeaseConflict(client, checkedIn, ttl, haveClientId, round);
          match outcome
          case Recovered(learned) => checkedIn, attemptedAt, ttl := true, Some(round.settledAt), learned;
          case Exits => status := LoginAgain;
          case HubErrorRaised => worked := false;
          case NoReply => status := Crashed;
      }
      assert LoopState(client.entries, checkedIn, attemptedAt, ttl, status) == Reactive(attested, haveClientId, round);
      logs := logs + [RoundLog(scheduled, status == Running && !worked)];
      LoopTurn(start, haveClientId, rounds, k);
      k := k + 1;
    }
    end := LoopState(client.entries, checkedIn, attemptedAt, ttl, status);
    StoppedStaysStopped(start, haveClientId, rounds, k);
    assert rounds[..|rounds|] == rounds;
  }

  lemma LoopTurn(entries: Entries, haveClientId: bool, rounds: seq<Round>, k: nat)
    requires WellTyped(entries) && k < |rounds|
    ensures LoopAfter(entries, haveClientId, rounds[..k + 1])
         == RoundAfter(LoopAfter(entries, haveClientId, rounds[..k]), ACCESS_KEY in entries, haveClientId, rounds[k])
    ensures LogsAfter(entries, haveClientId, rounds[..k + 1])
         == LogsAfter(entries, haveClientId, rounds[..k])
            + [LogOf(LoopAfter(entries, haveClientId, rounds[..k]), ACCESS_KEY in entries, haveClientId, rounds[k])]
  {
    assert rounds[..k + 1][..k] == rounds[..k];
  }

  lemma {:induction false} StoppedStaysStopped(entries: Entries, haveClientId: bool, rounds: seq<Round>, k: nat)
    requires WellTyped(entries) && k <= |rounds|
    requires k < |rounds| ==> LoopAfter(entries, haveClientId, rounds[..k]).status != Running
    ensures LoopAfter(entries, haveClientId, rounds) == LoopAfter(entries, haveClientId, rounds[..k])
    ensures LogsAfter(entries, haveClientId, rounds[..k]) == LogsAfter(entries, haveClientId, rounds)[..k]
  {
    if k < |rounds| {
      var n := |rounds| - 1;
      assert rounds[..n][..k] == rounds[..k];
      StoppedStaysStopped(entries, haveClientId, rounds[..n], k);
    } else {
      assert rounds[..k] == rounds;
    }
  }
}
