/**
 The client's loop run against the hub's step machine, on one clock, with any other traffic in between.
 What latency a lease can afford is settled by the gap between the loop's clock for its last attempt and
 the hub's for the snapshot; half the TTL is enough while there is none.
 */
module LoopOnHub {
  import opened Models
  import opened Dispatch
  import opened JobTable
  import opened HubMachine
  import opened TableInvariant
  import opened Attestation
  import opened Credentials
  import opened ClientLoop

  /** One round's script: what else reaches the hub (and how time passes) between the loop's own steps. */
  datatype Script = Script(
    idle: seq<Event>,
    beforeAttempt: seq<Event>,
    beforeCheckIn: seq<Event>,
    refreshed: RefreshAnswer,
    github: GithubAnswer,
    beforeLease: seq<Event>,
    reviewing: seq<Event>,
    result: ReportPayload,
    recovering: seq<Event>,
    recovered: RefreshAnswer,
    recoveryGithub: GithubAnswer,
    returning: seq<Event>
  )

  function ReplyOf(response: Response): CheckInReply {
    if response.CheckedInFor? then CheckInOk(Some(response.ttlSeconds)) else CheckInError
  }

  /** A token the client can put into a check-in; an empty one is left out of the body, a bare heartbeat. */
  predicate Spendable(tokens: Option<TokenSet>) {
    tokens.Some? && tokens.value.accessToken != ""
  }

  function Sent(tokens: Option<TokenSet>, github: GithubAnswer): Option<GithubAnswer> {
    if Spendable(tokens) then Some(github) else None
  }

  // ---- driving one round ----

  datatype Attending = Attending(world: World, dueAt: Instant, attemptAt: Instant, reply: CheckInReply)

  /** The scheduled half: the due check, and the check-in it leads to. */
  function Attend(cfg: Settings, client: ClientId, haveClientId: bool, world: World, s: LoopState, script: Script): Attending
    requires WellTyped(s.entries)
  {
    var atCheck := Run(cfg, world, script.idle);
    if !IsDue(s.attemptedAt, s.ttl, atCheck.now) then Attending(atCheck, atCheck.now, atCheck.now, CheckInError)
    else
      var atAttempt := Run(cfg, atCheck, script.beforeAttempt);
      var atSend := Run(cfg, atAttempt, script.beforeCheckIn);
      var tokens := RenewedAccess(s.entries, atAttempt.now, haveClientId, script.refreshed);
      if tokens.None? then Attending(atSend, atCheck.now, atAttempt.now, CheckInError)
      else
        var request := CheckIn(client, Sent(tokens, script.github), None);
        Attending(Step(cfg, atSend, request), atCheck.now, atAttempt.now, ReplyOf(Answer(cfg, atSend, request).response))
  }

  datatype Serving = Serving(world: World, leaseAt: Instant, leased: Response, served: RoundReply)

  /** Lease, review, report. */
  function Serve(cfg: Settings, client: ClientId, world: World, script: Script): Serving {
    var atLease := Run(cfg, world, script.beforeLease);
    var leased := Answer(cfg, atLease, LeaseNext(client)).response;
    var after := Step(cfg, atLease, LeaseNext(client));
    if leased == QueueDry then Serving(after, atLease.now, leased, Dry)
    else if leased == CheckInFirst || leased == StaleAccess then Serving(after, atLease.now, leased, Conflict)
    else if !leased.Granted? then Serving(after, atLease.now, leased, OtherStatus)
    else
      var reviewed := Run(cfg, after, script.reviewing);
      var report := Report(client, leased.job, script.result);
      var response := Answer(cfg, reviewed, report).response;
      Serving(
        Step(cfg, reviewed, report), atLease.now, leased,
        if response == Recorded then Worked else if response == NotLeaseholder then Conflict else OtherStatus
      )
  }

  datatype Settling = Settling(world: World, recoverAt: Instant, reply: CheckInReply, settledAt: Instant)

  /** Recover from a conflict: the renewing check-in, or the heartbeat of a loop that never checked in. */
  function Settle(cfg: Settings, client: ClientId, haveClientId: bool, world: World, s: LoopState, script: Script): Settling
    requires WellTyped(s.entries)
  {
    var atSend := Run(cfg, world, script.recovering);
    var tokens := if s.checkedIn then RenewedAccess(s.entries, atSend.now, haveClientId, script.recovered) else None;
    if s.checkedIn && tokens.None? then Settling(atSend, atSend.now, CheckInError, atSend.now)
    else
      var request := CheckIn(client, Sent(tokens, script.recoveryGithub), None);
      var after := Run(cfg, Step(cfg, atSend, request), script.returning);
      Settling(after, atSend.now, ReplyOf(Answer(cfg, atSend, request).response), after.now)
  }

  /** A driven round: where it leaves the hub and the loop, and what the hub answered its lease. */
  datatype Driven = Driven(world: World, state: LoopState, round: Round, dueAt: Instant, serving: Serving)

  function EarlyRound(attending: Attending, serving: Serving, script: Script): Round {
    Round(attending.dueAt, attending.attemptAt, attending.attemptAt, script.refreshed, attending.reply, serving.served,
          serving.world.now, None, CheckInError, serving.world.now)
  }

  /** One round. */
  function Drive(cfg: Settings, client: ClientId, haveClientId: bool, world: World, s: LoopState, script: Script): (driven: Driven)
    requires WellTyped(s.entries)
    ensures WellTyped(driven.state.entries)
  {
    var attending := Attend(cfg, client, haveClientId, world, s, script);
    var serving := Serve(cfg, client, attending.world, script);
    var early := EarlyRound(attending, serving, script);
    if serving.served != Conflict then
      Driven(serving.world, RoundAfter(s, true, haveClientId, early), early, attending.dueAt, serving)
    else
      ProactiveStaysTyped(s, true, haveClientId, early);
      var settling := Settle(cfg, client, haveClientId, serving.world, Proactive(s, true, haveClientId, early), script);
      var round := early.(recoverAt := settling.recoverAt, recovered := script.recovered,
                          recoveryCheckIn := settling.reply, settledAt := settling.settledAt);
      Driven(settling.world, RoundAfter(s, true, haveClientId, round), round, attending.dueAt, serving)
  }

  // ---- the traffic in between ----

  /** Other traffic may be anything but a check-out or a revocation of this client. */
  predicate Benign(event: Event, client: ClientId) {
    event != CheckOut(client) && !(event.Revoke? && event.target == client)
  }

  predicate AllBenign(events: seq<Event>, client: ClientId) {
    forall event | event in events :: Benign(event, client)
  }

  predicate Attached(cfg: Settings, world: World, client: ClientId, identity: IdentityId, userId: int) {
    Sound(cfg, world) && cfg.mode == GithubMode && LinkedTo(world, client, identity, userId)
  }

  function RefreshedAt(world: World, identity: IdentityId): Instant
    requires identity in world.db.identities
  {
    world.db.identities[identity].refreshedAt
  }

  lemma TrafficStep(cfg: Settings, world: World, event: Event, client: ClientId, identity: IdentityId, userId: int)
    requires Attached(cfg, world, client, identity, userId) && Benign(event, client)
    ensures var after := Step(cfg, world, event);
            && Attached(cfg, after, client, identity, userId)
            && world.now <= after.now
            && RefreshedAt(world, identity) <= RefreshedAt(after, identity)
            && (world.db.clients[client].status == CheckedIn ==> after.db.clients[client].status == CheckedIn)
  {
    StepKeepsSound(cfg, world, event);
    StepKeepsLink(cfg, world, event, client, identity, userId);
    ClientsShrinkOnlyByRevoke(cfg, world, event);
    IdentityTables(cfg, world, event);
    StatusStep(cfg, world, event, client);
  }

  lemma StatusStep(cfg: Settings, world: World, event: Event, client: ClientId)
    requires client in world.db.clients && client < world.db.nextClient && Benign(event, client)
    ensures client in Step(cfg, world, event).db.clients
    ensures world.db.clients[client].status == CheckedIn ==> Step(cfg, world, event).db.clients[client].status == CheckedIn
  {
  }

  lemma {:induction false} Traffic(cfg: Settings, world: World, events: seq<Event>, client: ClientId, identity: IdentityId, userId: int)
    requires Attached(cfg, world, client, identity, userId) && AllBenign(events, client)
    ensures var after := Run(cfg, world, events);
            && Attached(cfg, after, client, identity, userId)
            && world.now <= after.now
            && RefreshedAt(world, identity) <= RefreshedAt(after, identity)
            && (world.db.clients[client].status == CheckedIn ==> after.db.clients[client].status == CheckedIn)
  {
    if events == [] {
    } else {
      var before := events[..|events| - 1];
      Traffic(cfg, world, before, client, identity, userId);
      TrafficStep(cfg, Run(cfg, world, before), events[|events| - 1], client, identity, userId);
    }
  }

  /** A check-in with the client's own account's token is accepted and restarts the clock now. */
  lemma OwnTokenRefreshes(cfg: Settings, world: World, client: ClientId, identity: IdentityId, github: GithubAnswer)
    requires github.Account? && Attached(cfg, world, client, identity, github.userId) && DistinctNames(github.repos)
    ensures var request := CheckIn(client, Some(github), None);
            && Answer(cfg, world, request).response == CheckedInFor(cfg.accessTtlSeconds)
            && Attached(cfg, Step(cfg, world, request), client, identity, github.userId)
            && Step(cfg, world, request).now == world.now
            && RefreshedAt(Step(cfg, world, request), identity) == world.now
            && Step(cfg, world, request).db.clients[client].status == CheckedIn
  {
    var request := CheckIn(client, Some(github), None);
    TrafficStep(cfg, world, request, client, identity, github.userId);
    SoleIdentity(world.db, github.userId, identity);
  }

  // ---- the loop keeps the gate open ----

  /** What holds between rounds: a loop that has attempted is checked in and knows the hub's TTL. */
  predicate Attuned(cfg: Settings, world: World, s: LoopState, client: ClientId, identity: IdentityId, userId: int) {
    && Attached(cfg, world, client, identity, userId)
    && s.status == Running && WellTyped(s.entries)
    && (s.attemptedAt.None? ==> !s.checkedIn)
    && (s.attemptedAt.Some? ==>
          && s.checkedIn && s.ttl == Some(cfg.accessTtlSeconds)
          && world.db.clients[client].status == CheckedIn)
  }

  /** How far the loop's clock for its last attempt runs ahead of the hub's for the snapshot: negative if behind. */
  function Gap(world: World, s: LoopState, identity: IdentityId): int
    requires identity in world.db.identities
  {
    if s.attemptedAt.None? then 0 else s.attemptedAt.value - RefreshedAt(world, identity)
  }

  predicate OwnAnswer(github: GithubAnswer, userId: int) {
    github.Account? && github.userId == userId && DistinctNames(github.repos)
  }

  /** The assumptions of a round: traffic is benign, GitHub answers for this account, the credential renews. */
  predicate Calm(cfg: Settings, client: ClientId, haveClientId: bool, world: World, s: LoopState, script: Script, userId: int)
    requires WellTyped(s.entries)
  {
    var attending := Attend(cfg, client, haveClientId, world, s, script);
    var serving := Serve(cfg, client, attending.world, script);
    var early := EarlyRound(attending, serving, script);
    && AllBenign(script.idle, client) && AllBenign(script.beforeAttempt, client) && AllBenign(script.beforeCheckIn, client)
    && AllBenign(script.beforeLease, client) && AllBenign(script.reviewing, client)
    && AllBenign(script.recovering, client) && AllBenign(script.returning, client)
    && OwnAnswer(script.github, userId) && OwnAnswer(script.recoveryGithub, userId)
    && (IsDue(s.attemptedAt, s.ttl, attending.dueAt) ==>
          Spendable(RenewedAccess(s.entries, attending.attemptAt, haveClientId, script.refreshed)))
    && (serving.served == Conflict ==>
          WellTyped(Proactive(s, true, haveClientId, early).entries)
          && Spendable(RenewedAccess(Proactive(s, true, haveClientId, early).entries,
                                     Run(cfg, serving.world, script.recovering).now, haveClientId, script.recovered)))
  }

  /** From the due check to the lease's arrival at the hub. */
  function Latency(cfg: Settings, client: ClientId, haveClientId: bool, world: World, s: LoopState, script: Script): int
    requires WellTyped(s.entries)
  {
    var attending := Attend(cfg, client, haveClientId, world, s, script);
    Serve(cfg, client, attending.world, script).leaseAt - attending.dueAt
  }

  /** The latency there is room for: the whole TTL after a renewal just made, else half of it less the gap, and the last microsecond. */
  predicate Affords(cfg: Settings, renews: bool, gap: int, latency: int) {
    if renews then latency <= cfg.accessTtlSeconds * MICROS_PER_SECOND
    else latency + gap <= cfg.accessTtlSeconds * HALF_SECOND + 1
  }

  predicate Prompt(cfg: Settings, client: ClientId, haveClientId: bool, world: World, s: LoopState, script: Script, identity: IdentityId)
    requires WellTyped(s.entries) && identity in world.db.identities
  {
    Affords(cfg, IsDue(s.attemptedAt, s.ttl, Attend(cfg, client, haveClientId, world, s, script).dueAt),
            Gap(world, s, identity), Latency(cfg, client, haveClientId, world, s, script))
  }

  /** What the scheduled half leaves: a present client, and a snapshot no older than before. */
  predicate Attended(cfg: Settings, attending: Attending, s: LoopState, gap: int, client: ClientId, identity: IdentityId, userId: int) {
    && Attached(cfg, attending.world, client, identity, userId)
    && attending.dueAt <= attending.world.now
    && attending.world.db.clients[client].status == CheckedIn
    && (IsDue(s.attemptedAt, s.ttl, attending.dueAt) ==>
          && attending.reply == CheckInOk(Some(cfg.accessTtlSeconds))
          && attending.dueAt <= attending.attemptAt <= RefreshedAt(attending.world, identity))
    && (!IsDue(s.attemptedAt, s.ttl, attending.dueAt) ==>
          && s.attemptedAt.Some? && attending.dueAt - s.attemptedAt.value < cfg.accessTtlSeconds * HALF_SECOND
          && s.attemptedAt.value - gap <= RefreshedAt(attending.world, identity))
  }

  lemma AttendKeeps(cfg: Settings, client: ClientId, haveClientId: bool, world: World, s: LoopState, script: Script, identity: IdentityId, userId: int)
    requires cfg.Valid() && Attuned(cfg, world, s, client, identity, userId)
    requires Calm(cfg, client, haveClientId, world, s, script, userId)
    ensures Attended(cfg, Attend(cfg, client, haveClientId, world, s, script), s, Gap(world, s, identity), client, identity, userId)
  {
    Traffic(cfg, world, script.idle, client, identity, userId);
    var atCheck := Run(cfg, world, script.idle);
    if IsDue(s.attemptedAt, s.ttl, atCheck.now) {
      Traffic(cfg, atCheck, script.beforeAttempt, client, identity, userId);
      var atAttempt := Run(cfg, atCheck, script.beforeAttempt);
      Traffic(cfg, atAttempt, script.beforeCheckIn, client, identity, userId);
      OwnTokenRefreshes(cfg, Run(cfg, atAttempt, script.beforeCheckIn), client, identity, script.github);
    }
  }

  lemma PresentAndFreshIsAnswered(cfg: Settings, world: World, client: ClientId)
    requires client in world.db.clients && world.db.clients[client].status == CheckedIn
    requires !AccessIsStale(cfg, world.db, world.now, world.db.clients[client].identityId)
    ensures Answer(cfg, world, LeaseNext(client)).response.Granted? || Answer(cfg, world, LeaseNext(client)).response == QueueDry
  {
  }

  /** The review and the report, whatever the hub makes of the report. */
  lemma ReviewKeeps(cfg: Settings, client: ClientId, world: World, reviewing: seq<Event>, report: Event, identity: IdentityId, userId: int)
    requires Attached(cfg, world, client, identity, userId) && world.db.clients[client].status == CheckedIn
    requires AllBenign(reviewing, client) && report.Report?
    ensures var after := Step(cfg, Run(cfg, world, reviewing), report);
            && Attached(cfg, after, client, identity, userId)
            && after.db.clients[client].status == CheckedIn
            && RefreshedAt(world, identity) <= RefreshedAt(after, identity)
  {
    Traffic(cfg, world, reviewing, client, identity, userId);
    TrafficStep(cfg, Run(cfg, world, reviewing), report, client, identity, userId);
  }

  lemma LeaseKeeps(cfg: Settings, client: ClientId, world: World, identity: IdentityId, userId: int)
    requires Attached(cfg, world, client, identity, userId) && world.db.clients[client].status == CheckedIn
    requires world.now - RefreshedAt(world, identity) <= cfg.accessTtlSeconds * MICROS_PER_SECOND
    ensures Answer(cfg, world, LeaseNext(client)).response.Granted? || Answer(cfg, world, LeaseNext(client)).response == QueueDry
    ensures var after := Step(cfg, world, LeaseNext(client));
            && Attached(cfg, after, client, identity, userId)
            && after.db.clients[client].status == CheckedIn
            && RefreshedAt(world, identity) <= RefreshedAt(after, identity)
  {
    PresentAndFreshIsAnswered(cfg, world, client);
    TrafficStep(cfg, world, LeaseNext(client), client, identity, userId);
  }

  /** A lease that reaches the hub within the TTL of the last refresh, from a checked-in client, is not refused. */
  lemma FreshLeaseIsServed(cfg: Settings, client: ClientId, world: World, script: Script, identity: IdentityId, userId: int)
    requires Attached(cfg, world, client, identity, userId) && world.db.clients[client].status == CheckedIn
    requires AllBenign(script.beforeLease, client) && AllBenign(script.reviewing, client)
    requires Serve(cfg, client, world, script).leaseAt - RefreshedAt(world, identity) <= cfg.accessTtlSeconds * MICROS_PER_SECOND
    ensures var serving := Serve(cfg, client, world, script);
            && (serving.leased.Granted? || serving.leased == QueueDry)
            && !serving.served.RoundUnreachable?
            && Attached(cfg, serving.world, client, identity, userId)
            && serving.world.db.clients[client].status == CheckedIn
            && RefreshedAt(world, identity) <= RefreshedAt(serving.world, identity)
  {
    Traffic(cfg, world, script.beforeLease, client, identity, userId);
    var atLease := Run(cfg, world, script.beforeLease);
    LeaseKeeps(cfg, client, atLease, identity, userId);
    var leased := Answer(cfg, atLease, LeaseNext(client)).response;
    if leased.Granted? {
      ReviewKeeps(cfg, client, Step(cfg, atLease, LeaseNext(client)), script.reviewing,
                  Report(client, leased.job, script.result), identity, userId);
    }
  }

  /** The loop's own half of a calm round: attending it leaves the loop checked in on the hub's TTL. */
  lemma LoopAttends(s: LoopState, haveClientId: bool, round: Round, ttl: int)
    requires WellTyped(s.entries) && s.status == Running
    requires IsDue(s.attemptedAt, s.ttl, round.dueAt) ==>
      round.checkIn == CheckInOk(Some(ttl)) && RenewedAccess(s.entries, round.renewAt, haveClientId, round.refreshed).Some?
    requires !IsDue(s.attemptedAt, s.ttl, round.dueAt) ==> s.checkedIn && s.ttl == Some(ttl)
    ensures var attested := Proactive(s, true, haveClientId, round);
            && attested.status == Running && attested.checkedIn && attested.ttl == Some(ttl)
            && attested.attemptedAt == (if IsDue(s.attemptedAt, s.ttl, round.dueAt) then Some(round.attemptAt) else s.attemptedAt)
  {
  }

  lemma LoopRecovers(s: LoopState, haveClientId: bool, round: Round, ttl: int)
    requires WellTyped(s.entries) && s.status == Running && s.checkedIn && s.ttl == Some(ttl)
    requires !round.served.RoundUnreachable?
    requires round.served.Conflict? ==>
      round.recoveryCheckIn == CheckInOk(Some(ttl)) && RenewedAccess(s.entries, round.recoverAt, haveClientId, round.recovered).Some?
    ensures var after := Reactive(s, haveClientId, round);
            && after.status == Running && after.checkedIn && after.ttl == Some(ttl)
            && after.attemptedAt == (if round.served.Conflict? then Some(round.settledAt) else s.attemptedAt)
  {
  }

  /** A lease prompt enough reaches the hub within the TTL of the snapshot it will be judged by. */
  lemma LeaseIsInTime(cfg: Settings, attending: Attending, leaseAt: Instant, s: LoopState, gap: int, client: ClientId, identity: IdentityId, userId: int)
    requires cfg.Valid() && Attended(cfg, attending, s, gap, client, identity, userId)
    requires Affords(cfg, IsDue(s.attemptedAt, s.ttl, attending.dueAt), gap, leaseAt - attending.dueAt)
    ensures leaseAt - RefreshedAt(attending.world, identity) <= cfg.accessTtlSeconds * MICROS_PER_SECOND
  {
  }

  /** Under its assumptions a round is never refused for staleness or absence, and the next one starts attuned. */
  lemma RoundIsServed(cfg: Settings, client: ClientId, haveClientId: bool, world: World, s: LoopState, script: Script, identity: IdentityId, userId: int)
    requires cfg.Valid() && Attuned(cfg, world, s, client, identity, userId)
    requires Calm(cfg, client, haveClientId, world, s, script, userId)
    requires identity in world.db.identities && Prompt(cfg, client, haveClientId, world, s, script, identity)
    ensures var driven := Drive(cfg, client, haveClientId, world, s, script);
            && (driven.serving.leased.Granted? || driven.serving.leased == QueueDry)
            && Attuned(cfg, driven.world, driven.state, client, identity, userId)
            && driven.state.attemptedAt.Some?
            && Gap(driven.world, driven.state, identity) <= GapLeft(driven, world, s, identity)
  {
    var attending := Attend(cfg, client, haveClientId, world, s, script);
    AttendKeeps(cfg, client, haveClientId, world, s, script, identity, userId);
    LeaseIsInTime(cfg, attending, Serve(cfg, client, attending.world, script).leaseAt, s, Gap(world, s, identity), client, identity, userId);
    FreshLeaseIsServed(cfg, client, attending.world, script, identity, userId);
    RoundSettles(cfg, client, haveClientId, world, s, script, identity, userId);
  }

  /**
   The most a round can leave of a gap: a recovery's reply is dated when it is in, so the gap is its travel
   time; a scheduled renewal leaves none; any other round leaves what there was.
   */
  function GapLeft(driven: Driven, world: World, s: LoopState, identity: IdentityId): int
    requires identity in world.db.identities
  {
    if driven.round.served == Conflict then driven.round.settledAt - driven.round.recoverAt
    else if IsDue(s.attemptedAt, s.ttl, driven.dueAt) then 0
    else Gap(world, s, identity)
  }

  lemma RoundSettles(cfg: Settings, client: ClientId, haveClientId: bool, world: World, s: LoopState, script: Script, identity: IdentityId, userId: int)
    requires cfg.Valid() && Attuned(cfg, world, s, client, identity, userId)
    requires Calm(cfg, client, haveClientId, world, s, script, userId)
    requires var attending := Attend(cfg, client, haveClientId, world, s, script);
             var serving := Serve(cfg, client, attending.world, script);
             && !serving.served.RoundUnreachable?
             && Attached(cfg, attending.world, client, identity, userId)
             && Attached(cfg, serving.world, client, identity, userId)
             && serving.world.db.clients[client].status == CheckedIn
             && RefreshedAt(attending.world, identity) <= RefreshedAt(serving.world, identity)
    ensures var driven := Drive(cfg, client, haveClientId, world, s, script);
            && Attuned(cfg, driven.world, driven.state, client, identity, userId) && driven.state.attemptedAt.Some?
            && Gap(driven.world, driven.state, identity) <= GapLeft(driven, world, s, identity)
  {
    AttendKeeps(cfg, client, haveClientId, world, s, script, identity, userId);
    var attending := Attend(cfg, client, haveClientId, world, s, script);
    var serving := Serve(cfg, client, attending.world, script);
    var early := EarlyRound(attending, serving, script);
    LoopAttends(s, haveClientId, early, cfg.accessTtlSeconds);
    ProactiveStaysTyped(s, true, haveClientId, early);
    var attested := Proactive(s, true, haveClientId, early);
    if serving.served == Conflict {
      SettleKeeps(cfg, client, haveClientId, serving.world, attested, script, identity, userId);
      var settling := Settle(cfg, client, haveClientId, serving.world, attested, script);
      var round := early.(recoverAt := settling.recoverAt, recovered := script.recovered,
                          recoveryCheckIn := settling.reply, settledAt := settling.settledAt);
      assert Proactive(s, true, haveClientId, round) == attested;
      LoopRecovers(attested, haveClientId, round, cfg.accessTtlSeconds);
    } else {
      LoopRecovers(attested, haveClientId, early, cfg.accessTtlSeconds);
    }
  }

  lemma SettleKeeps(cfg: Settings, client: ClientId, haveClientId: bool, world: World, s: LoopState, script: Script, identity: IdentityId, userId: int)
    requires Attached(cfg, world, client, identity, userId) && WellTyped(s.entries) && s.checkedIn
    requires AllBenign(script.recovering, client) && AllBenign(script.returning, client) && OwnAnswer(script.recoveryGithub, userId)
    requires Spendable(RenewedAccess(s.entries, Run(cfg, world, script.recovering).now, haveClientId, script.recovered))
    ensures var settling := Settle(cfg, client, haveClientId, world, s, script);
            && Attached(cfg, settling.world, client, identity, userId)
            && settling.reply == CheckInOk(Some(cfg.accessTtlSeconds))
            && settling.world.db.clients[client].status == CheckedIn
            && settling.recoverAt <= RefreshedAt(settling.world, identity)
            && settling.recoverAt <= settling.settledAt
  {
    Traffic(cfg, world, script.recovering, client, identity, userId);
    var atSend := Run(cfg, world, script.recovering);
    OwnTokenRefreshes(cfg, atSend, client, identity, script.recoveryGithub);
    Traffic(cfg, Step(cfg, atSend, CheckIn(client, Some(script.recoveryGithub), None)), script.returning, client, identity, userId);
  }

  // ---- whole runs ----

  datatype Position = Position(world: World, state: LoopState, rounds: seq<Round>)

  /** A fresh loop driven through any number of rounds, or until it ends. */
  function DriveAll(cfg: Settings, client: ClientId, haveClientId: bool, world: World, entries: Entries, scripts: seq<Script>): (p: Position)
    requires WellTyped(entries)
    ensures WellTyped(p.state.entries)
  {
    if scripts == [] then Position(world, StartOf(entries), [])
    else
      var before := DriveAll(cfg, client, haveClientId, world, entries, scripts[..|scripts| - 1]);
      if before.state.status != Running then before
      else
        var driven := Drive(cfg, client, haveClientId, before.world, before.state, scripts[|scripts| - 1]);
        Position(driven.world, driven.state, before.rounds + [driven.round])
  }

  /** What the loop does here is what the loop does: the driven state is the fold over the rounds it met. */
  lemma {:induction false} DrivenLoopIsTheLoop(cfg: Settings, client: ClientId, haveClientId: bool, world: World, entries: Entries, scripts: seq<Script>)
    requires WellTyped(entries) && ACCESS_KEY in entries
    ensures var p := DriveAll(cfg, client, haveClientId, world, entries, scripts);
            p.state == LoopAfter(entries, haveClientId, p.rounds)
  {
    if scripts == [] {
    } else {
      var before := DriveAll(cfg, client, haveClientId, world, entries, scripts[..|scripts| - 1]);
      DrivenLoopIsTheLoop(cfg, client, haveClientId, world, entries, scripts[..|scripts| - 1]);
      var driven := Drive(cfg, client, haveClientId, before.world, before.state, scripts[|scripts| - 1]);
      assert (before.rounds + [driven.round])[..|before.rounds|] == before.rounds;
    }
  }

  /** The hub's answer to the lease of round `k`. */
  function LeaseAnswer(cfg: Settings, client: ClientId, haveClientId: bool, world: World, entries: Entries, scripts: seq<Script>, k: nat): Response
    requires WellTyped(entries) && k < |scripts|
  {
    var before := DriveAll(cfg, client, haveClientId, world, entries, scripts[..k]);
    Drive(cfg, client, haveClientId, before.world, before.state, scripts[k]).serving.leased
  }

  predicate Answered(response: Response) {
    response.Granted? || response == QueueDry
  }

  predicate CalmAt(cfg: Settings, client: ClientId, haveClientId: bool, world: World, entries: Entries, scripts: seq<Script>, userId: int, k: nat)
    requires WellTyped(entries) && k < |scripts|
  {
    var before := DriveAll(cfg, client, haveClientId, world, entries, scripts[..k]);
    Calm(cfg, client, haveClientId, before.world, before.state, scripts[k], userId)
  }

  predicate PromptAt(cfg: Settings, client: ClientId, haveClientId: bool, world: World, entries: Entries, scripts: seq<Script>, identity: IdentityId, k: nat)
    requires WellTyped(entries) && k < |scripts|
  {
    var before := DriveAll(cfg, client, haveClientId, world, entries, scripts[..k]);
    identity in before.world.db.identities && Prompt(cfg, client, haveClientId, before.world, before.state, scripts[k], identity)
  }

  lemma {:induction false} LoopStaysAttuned(cfg: Settings, client: ClientId, haveClientId: bool, world: World, entries: Entries, scripts: seq<Script>, n: nat, identity: IdentityId, userId: int)
    requires cfg.Valid() && WellTyped(entries) && Attached(cfg, world, client, identity, userId) && n <= |scripts|
    requires forall k | 0 <= k < n :: CalmAt(cfg, client, haveClientId, world, entries, scripts, userId, k)
    requires forall k | 0 <= k < n :: PromptAt(cfg, client, haveClientId, world, entries, scripts, identity, k)
    ensures var p := DriveAll(cfg, client, haveClientId, world, entries, scripts[..n]);
            Attuned(cfg, p.world, p.state, client, identity, userId)
  {
    if n == 0 {
    } else {
      LoopStaysAttuned(cfg, client, haveClientId, world, entries, scripts, n - 1, identity, userId);
      var before := DriveAll(cfg, client, haveClientId, world, entries, scripts[..n - 1]);
      assert CalmAt(cfg, client, haveClientId, world, entries, scripts, userId, n - 1);
      assert PromptAt(cfg, client, haveClientId, world, entries, scripts, identity, n - 1);
      RoundIsServed(cfg, client, haveClientId, before.world, before.state, scripts[n - 1], identity, userId);
      assert scripts[..n][..n - 1] == scripts[..n - 1];
    }
  }

  /**
   In any length of run, as long as each round's latency is one its gap leaves room for, no lease is
   answered with the staleness refusal, nor with "check in first".
   */
  lemma NoLeaseIsRefusedStale(cfg: Settings, client: ClientId, haveClientId: bool, world: World, entries: Entries, scripts: seq<Script>, k: nat, identity: IdentityId, userId: int)
    requires cfg.Valid() && WellTyped(entries) && Attached(cfg, world, client, identity, userId) && k < |scripts|
    requires forall i | 0 <= i < |scripts| :: CalmAt(cfg, client, haveClientId, world, entries, scripts, userId, i)
    requires forall i | 0 <= i < |scripts| :: PromptAt(cfg, client, haveClientId, world, entries, scripts, identity, i)
    ensures Answered(LeaseAnswer(cfg, client, haveClientId, world, entries, scripts, k))
  {
    LoopStaysAttuned(cfg, client, haveClientId, world, entries, scripts, k, identity, userId);
    var before := DriveAll(cfg, client, haveClientId, world, entries, scripts[..k]);
    assert CalmAt(cfg, client, haveClientId, world, entries, scripts, userId, k);
    assert PromptAt(cfg, client, haveClientId, world, entries, scripts, identity, k);
    RoundIsServed(cfg, client, haveClientId, before.world, before.state, scripts[k], identity, userId);
  }

  // ---- without refused reports, half the TTL alone is enough ----

  /** The round's own latency fits in half the TTL, and its report, if any, was not refused. */
  predicate Plain(cfg: Settings, client: ClientId, haveClientId: bool, world: World, s: LoopState, script: Script)
    requires WellTyped(s.entries)
  {
    var serving := Drive(cfg, client, haveClientId, world, s, script).serving;
    && Latency(cfg, client, haveClientId, world, s, script) <= cfg.accessTtlSeconds * HALF_SECOND
    && (serving.leased.Granted? ==> serving.served != Conflict)
  }

  predicate PlainAt(cfg: Settings, client: ClientId, haveClientId: bool, world: World, entries: Entries, scripts: seq<Script>, k: nat)
    requires WellTyped(entries) && k < |scripts|
  {
    var before := DriveAll(cfg, client, haveClientId, world, entries, scripts[..k]);
    Plain(cfg, client, haveClientId, before.world, before.state, scripts[k])
  }

  lemma DriveServes(cfg: Settings, client: ClientId, haveClientId: bool, world: World, s: LoopState, script: Script)
    requires WellTyped(s.entries)
    ensures var attending := Attend(cfg, client, haveClientId, world, s, script);
            var driven := Drive(cfg, client, haveClientId, world, s, script);
            && driven.dueAt == attending.dueAt
            && driven.serving == Serve(cfg, client, attending.world, script)
            && driven.round.served == driven.serving.served
  {
  }

  lemma ServedWithoutConflict(cfg: Settings, client: ClientId, world: World, script: Script)
    requires var serving := Serve(cfg, client, world, script);
             Answered(serving.leased) && (serving.leased.Granted? ==> serving.served != Conflict)
    ensures Serve(cfg, client, world, script).served != Conflict
  {
  }

  /** Where a driven loop stands with its attempt no later than its snapshot. */
  predicate InStep(cfg: Settings, world: World, s: LoopState, client: ClientId, identity: IdentityId, userId: int) {
    Attuned(cfg, world, s, client, identity, userId) && Gap(world, s, identity) <= 0
  }

  lemma PlainIsPrompt(cfg: Settings, client: ClientId, haveClientId: bool, world: World, s: LoopState, script: Script, identity: IdentityId)
    requires cfg.Valid() && WellTyped(s.entries) && identity in world.db.identities && Gap(world, s, identity) <= 0
    requires Plain(cfg, client, haveClientId, world, s, script)
    ensures Prompt(cfg, client, haveClientId, world, s, script, identity)
  {
  }

  /** An answered round whose report was not refused leaves no gap where there was none. */
  lemma AnsweredLeavesNoGap(cfg: Settings, client: ClientId, haveClientId: bool, world: World, s: LoopState, script: Script, identity: IdentityId)
    requires WellTyped(s.entries) && identity in world.db.identities && Gap(world, s, identity) <= 0
    requires var driven := Drive(cfg, client, haveClientId, world, s, script);
             Answered(driven.serving.leased) && (driven.serving.leased.Granted? ==> driven.serving.served != Conflict)
    ensures GapLeft(Drive(cfg, client, haveClientId, world, s, script), world, s, identity) <= 0
  {
    DriveServes(cfg, client, haveClientId, world, s, script);
    ServedWithoutConflict(cfg, client, Attend(cfg, client, haveClientId, world, s, script).world, script);
  }

  lemma PlainRound(cfg: Settings, client: ClientId, haveClientId: bool, world: World, s: LoopState, script: Script, identity: IdentityId, userId: int)
    requires cfg.Valid() && InStep(cfg, world, s, client, identity, userId)
    requires Calm(cfg, client, haveClientId, world, s, script, userId) && Plain(cfg, client, haveClientId, world, s, script)
    ensures var driven := Drive(cfg, client, haveClientId, world, s, script);
            Answered(driven.serving.leased) && InStep(cfg, driven.world, driven.state, client, identity, userId)
  {
    PlainIsPrompt(cfg, client, haveClientId, world, s, script, identity);
    RoundIsServed(cfg, client, haveClientId, world, s, script, identity, userId);
    AnsweredLeavesNoGap(cfg, client, haveClientId, world, s, script, identity);
  }

  lemma PlainTurn(cfg: Settings, client: ClientId, haveClientId: bool, world: World, entries: Entries, scripts: seq<Script>, k: nat, identity: IdentityId, userId: int)
    requires cfg.Valid() && WellTyped(entries) && k < |scripts|
    requires var p := DriveAll(cfg, client, haveClientId, world, entries, scripts[..k]);
             InStep(cfg, p.world, p.state, client, identity, userId)
    requires CalmAt(cfg, client, haveClientId, world, entries, scripts, userId, k)
    requires PlainAt(cfg, client, haveClientId, world, entries, scripts, k)
    ensures var p := DriveAll(cfg, client, haveClientId, world, entries, scripts[..k + 1]);
            InStep(cfg, p.world, p.state, client, identity, userId)
    ensures Answered(LeaseAnswer(cfg, client, haveClientId, world, entries, scripts, k))
  {
    var before := DriveAll(cfg, client, haveClientId, world, entries, scripts[..k]);
    PlainRound(cfg, client, haveClientId, before.world, before.state, scripts[k], identity, userId);
    assert scripts[..k + 1][..k] == scripts[..k];
  }

  lemma {:induction false} PlainRunsStayInStep(cfg: Settings, client: ClientId, haveClientId: bool, world: World, entries: Entries, scripts: seq<Script>, n: nat, identity: IdentityId, userId: int)
    requires cfg.Valid() && WellTyped(entries) && Attached(cfg, world, client, identity, userId) && n <= |scripts|
    requires forall k | 0 <= k < n :: CalmAt(cfg, client, haveClientId, world, entries, scripts, userId, k)
    requires forall k | 0 <= k < n :: PlainAt(cfg, client, haveClientId, world, entries, scripts, k)
    ensures var p := DriveAll(cfg, client, haveClientId, world, entries, scripts[..n]);
            InStep(cfg, p.world, p.state, client, identity, userId)
  {
    if n == 0 {
    } else {
      PlainRunsStayInStep(cfg, client, haveClientId, world, entries, scripts, n - 1, identity, userId);
      PlainTurn(cfg, client, haveClientId, world, entries, scripts, n - 1, identity, userId);
    }
  }

  /** As long as no report is refused, at most half the TTL from the due check to the lease is all it takes. */
  lemma HalfTtlSuffices(cfg: Settings, client: ClientId, haveClientId: bool, world: World, entries: Entries, scripts: seq<Script>, k: nat, identity: IdentityId, userId: int)
    requires cfg.Valid() && WellTyped(entries) && Attached(cfg, world, client, identity, userId) && k < |scripts|
    requires forall i | 0 <= i < |scripts| :: CalmAt(cfg, client, haveClientId, world, entries, scripts, userId, i)
    requires forall i | 0 <= i < |scripts| :: PlainAt(cfg, client, haveClientId, world, entries, scripts, i)
    ensures Answered(LeaseAnswer(cfg, client, haveClientId, world, entries, scripts, k))
  {
    PlainRunsStayInStep(cfg, client, haveClientId, world, entries, scripts, k, identity, userId);
    PlainTurn(cfg, client, haveClientId, world, entries, scripts, k, identity, userId);
  }
}
