/**
 The cadence of the loop composed with the hub. There the clock and the TTL are the hub's own, so the
 bound on renewals holds of every driven run, with no assumption about its traffic or its answers.
 */
module DrivenPacing {
  import opened Models
  import opened HubMachine
  import opened Credentials
  import opened ClientLoop
  import opened Pacing
  import opened LoopOnHub

  lemma {:induction false} ClockRuns(cfg: Settings, world: World, events: seq<Event>)
    ensures world.now <= Run(cfg, world, events).now
  {
    if events == [] {
    } else {
      ClockRuns(cfg, world, events[..|events| - 1]);
    }
  }

  lemma AttendTakesTime(cfg: Settings, client: ClientId, haveClientId: bool, world: World, s: LoopState, script: Script)
    requires WellTyped(s.entries)
    ensures var attending := Attend(cfg, client, haveClientId, world, s, script);
            world.now <= attending.dueAt <= attending.attemptAt <= attending.world.now
  {
    ClockRuns(cfg, world, script.idle);
    var atCheck := Run(cfg, world, script.idle);
    ClockRuns(cfg, atCheck, script.beforeAttempt);
    ClockRuns(cfg, Run(cfg, atCheck, script.beforeAttempt), script.beforeCheckIn);
  }

  lemma ServeTakesTime(cfg: Settings, client: ClientId, world: World, script: Script)
    ensures world.now <= Serve(cfg, client, world, script).world.now
  {
    ClockRuns(cfg, world, script.beforeLease);
    var after := Step(cfg, Run(cfg, world, script.beforeLease), LeaseNext(client));
    ClockRuns(cfg, after, script.reviewing);
  }

  lemma SettleTakesTime(cfg: Settings, client: ClientId, haveClientId: bool, world: World, s: LoopState, script: Script)
    requires WellTyped(s.entries)
    ensures var settling := Settle(cfg, client, haveClientId, world, s, script);
            world.now <= settling.recoverAt <= settling.settledAt && settling.settledAt == settling.world.now
  {
    ClockRuns(cfg, world, script.recovering);
    var atSend := Run(cfg, world, script.recovering);
    var tokens := if s.checkedIn then RenewedAccess(s.entries, atSend.now, haveClientId, script.recovered) else None;
    ClockRuns(cfg, Step(cfg, atSend, CheckIn(client, Sent(tokens, script.recoveryGithub), None)), script.returning);
  }

  /** A driven round runs on the hub's clock from one moment to a later one. */
  lemma RoundTakesTime(cfg: Settings, client: ClientId, haveClientId: bool, world: World, s: LoopState, script: Script)
    requires WellTyped(s.entries)
    ensures var driven := Drive(cfg, client, haveClientId, world, s, script);
            InOrderWithin(driven.round) && world.now <= driven.round.dueAt && driven.round.settledAt == driven.world.now
  {
    AttendTakesTime(cfg, client, haveClientId, world, s, script);
    var attending := Attend(cfg, client, haveClientId, world, s, script);
    ServeTakesTime(cfg, client, attending.world, script);
    var serving := Serve(cfg, client, attending.world, script);
    var early := EarlyRound(attending, serving, script);
    ProactiveStaysTyped(s, true, haveClientId, early);
    SettleTakesTime(cfg, client, haveClientId, serving.world, Proactive(s, true, haveClientId, early), script);
  }

  /** Every TTL a driven round is told is the hub's. */
  lemma RoundNamesTtl(cfg: Settings, client: ClientId, haveClientId: bool, world: World, s: LoopState, script: Script)
    requires WellTyped(s.entries)
    ensures OnlyNames([Drive(cfg, client, haveClientId, world, s, script).round], cfg.accessTtlSeconds)
  {
    var attending := Attend(cfg, client, haveClientId, world, s, script);
    AttendNamesTtl(cfg, client, haveClientId, world, s, script);
    var serving := Serve(cfg, client, attending.world, script);
    var early := EarlyRound(attending, serving, script);
    ProactiveStaysTyped(s, true, haveClientId, early);
    SettleNamesTtl(cfg, client, haveClientId, serving.world, Proactive(s, true, haveClientId, early), script);
  }

  predicate NamesOnly(reply: CheckInReply, ttl: int) {
    reply.CheckInOk? && reply.ttl.Some? ==> reply.ttl.value == ttl
  }

  lemma CheckInNamesTtl(cfg: Settings, world: World, client: ClientId, token: Option<GithubAnswer>)
    ensures NamesOnly(ReplyOf(Answer(cfg, world, CheckIn(client, token, None)).response), cfg.accessTtlSeconds)
  {
  }

  lemma AttendNamesTtl(cfg: Settings, client: ClientId, haveClientId: bool, world: World, s: LoopState, script: Script)
    requires WellTyped(s.entries)
    ensures NamesOnly(Attend(cfg, client, haveClientId, world, s, script).reply, cfg.accessTtlSeconds)
  {
    var atAttempt := Run(cfg, Run(cfg, world, script.idle), script.beforeAttempt);
    var tokens := RenewedAccess(s.entries, atAttempt.now, haveClientId, script.refreshed);
    CheckInNamesTtl(cfg, Run(cfg, atAttempt, script.beforeCheckIn), client, Sent(tokens, script.github));
  }

  lemma SettleNamesTtl(cfg: Settings, client: ClientId, haveClientId: bool, world: World, s: LoopState, script: Script)
    requires WellTyped(s.entries)
    ensures NamesOnly(Settle(cfg, client, haveClientId, world, s, script).reply, cfg.accessTtlSeconds)
  {
    var atSend := Run(cfg, world, script.recovering);
    var tokens := if s.checkedIn then RenewedAccess(s.entries, atSend.now, haveClientId, script.recovered) else None;
    CheckInNamesTtl(cfg, atSend, client, Sent(tokens, script.recoveryGithub));
  }

  /** The rounds a driven loop meets run on one clock, from the start to where it stands, and name one TTL. */
  lemma {:induction false} DrivenRoundsAreInOrder(cfg: Settings, client: ClientId, haveClientId: bool, world: World, entries: Entries, scripts: seq<Script>)
    requires WellTyped(entries)
    ensures var p := DriveAll(cfg, client, haveClientId, world, entries, scripts);
            && MonotoneClock(p.rounds) && OnlyNames(p.rounds, cfg.accessTtlSeconds)
            && world.now <= p.world.now
            && (p.rounds != [] ==> world.now <= p.rounds[0].dueAt && p.rounds[|p.rounds| - 1].settledAt == p.world.now)
            && (p.rounds == [] ==> p.world == world)
  {
    if scripts == [] {
    } else {
      var before := DriveAll(cfg, client, haveClientId, world, entries, scripts[..|scripts| - 1]);
      DrivenRoundsAreInOrder(cfg, client, haveClientId, world, entries, scripts[..|scripts| - 1]);
      if before.state.status == Running {
        RoundTakesTime(cfg, client, haveClientId, before.world, before.state, scripts[|scripts| - 1]);
        RoundNamesTtl(cfg, client, haveClientId, before.world, before.state, scripts[|scripts| - 1]);
        OneMoreInOrder(before.rounds, Drive(cfg, client, haveClientId, before.world, before.state, scripts[|scripts| - 1]).round,
                       before.world.now, cfg.accessTtlSeconds);
      }
    }
  }

  lemma OneMoreInOrder(rounds: seq<Round>, round: Round, now: Instant, ttl: int)
    requires MonotoneClock(rounds) && InOrderWithin(round) && now <= round.dueAt
    requires rounds != [] ==> rounds[|rounds| - 1].settledAt == now
    requires OnlyNames(rounds, ttl) && OnlyNames([round], ttl)
    ensures MonotoneClock(rounds + [round]) && OnlyNames(rounds + [round], ttl)
  {
    assert [round][0] == round;
    forall i | 0 <= i < |rounds|
      ensures rounds[i].settledAt <= round.dueAt
    {
      var last := rounds[|rounds| - 1];
      assert InOrderWithin(last);
      assert i < |rounds| - 1 ==> rounds[i].settledAt <= last.dueAt;
    }
  }

  /** Driven against the hub, whatever it answers, a loop makes at most 1 + floor(2 * elapsed / TTL) scheduled renewals. */
  lemma DrivenRenewalsAreBounded(cfg: Settings, client: ClientId, haveClientId: bool, world: World, entries: Entries, scripts: seq<Script>)
    requires cfg.Valid() && WellTyped(entries) && ACCESS_KEY in entries
    ensures var p := DriveAll(cfg, client, haveClientId, world, entries, scripts);
            Renewals(entries, haveClientId, p.rounds) <= 1 + 2 * (p.world.now - world.now) / (cfg.accessTtlSeconds * MICROS_PER_SECOND)
  {
    var p := DriveAll(cfg, client, haveClientId, world, entries, scripts);
    DrivenRoundsAreInOrder(cfg, client, haveClientId, world, entries, scripts);
    var whole := cfg.accessTtlSeconds * MICROS_PER_SECOND;
    if p.rounds != [] {
      RenewalsAreBounded(entries, haveClientId, p.rounds, cfg.accessTtlSeconds);
      QuotientGrows(2 * (p.world.now - p.rounds[0].dueAt), 2 * (p.world.now - world.now), whole);
    }
  }

  lemma QuotientGrows(x: int, y: int, d: int)
    requires x <= y && d > 0
    ensures x / d <= y / d
  {
    assert x / d * d <= x;
    QuotientBounds(x / d, d, y);
  }
}
