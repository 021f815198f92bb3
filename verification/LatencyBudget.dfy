/**
 Exactly which latency keeps the freshness gate open. From any point of a run, every calm continuation
 within a latency is answered if and only if the gap there leaves room for that latency.
 */
module LatencyBudget {
  import opened Models
  import opened Dispatch
  import opened JobTable
  import opened HubMachine
  import opened TableInvariant
  import opened Credentials
  import opened ClientLoop
  import opened LoopOnHub

  predicate Outlasts(expiresAt: Option<Instant>, moment: Instant) {
    expiresAt.None? || expiresAt.value > moment
  }

  /**
   Stored credentials, in either shape GitHub issues them, that can still be spent or refreshed at this
   moment, as long as GitHub grants a refresh when one is asked for.
   */
  predicate Renewable(entries: Entries, haveClientId: bool, moment: Instant)
    requires WellTyped(entries)
  {
    && FromState(entries).Some?
    && var tokens := FromState(entries).value;
       || Outlasts(tokens.accessExpiresAt, moment)
       || (haveClientId && tokens.refreshToken.Some? && Outlasts(tokens.refreshExpiresAt, moment))
  }

  /** The same, for a client that keeps what it renews to. */
  predicate KeepsRenewing(entries: Entries, haveClientId: bool, until: Instant) {
    WellTyped(entries) && !OptedOut(entries) && Renewable(entries, haveClientId, until)
  }

  predicate Lives(issuedAt: Instant, seconds: Option<int>, moment: Instant) {
    seconds.None? || After(issuedAt, seconds.value) > moment
  }

  /**
   What GitHub issued, once stored, keeps renewing up to a moment if and only if its access token lives that
   long, or it came with a refresh token that does and the client knows the App's id.
   */
  lemma GrantKeepsRenewing(entries: Entries, grant: Grant, issuedAt: Instant, haveClientId: bool, until: Instant)
    requires WellTyped(entries) && !OptedOut(entries) && grant.accessToken != ""
    ensures KeepsRenewing(Persisted(entries, FromGrant(grant, issuedAt)), haveClientId, until)
       <==> || Lives(issuedAt, grant.expiresIn, until)
            || (haveClientId && grant.refreshToken.Some? && grant.refreshToken.value != "" && Lives(issuedAt, grant.refreshExpiresIn, until))
  {
    ReadBack(entries, FromGrant(grant, issuedAt));
    PersistReplaces(entries, FromGrant(grant, issuedAt));
  }

  /** What the refresh grants bring back in the runs below. */
  const GRANTED := Some(TokenSet("t", None, None, None))

  lemma RenewsAt(entries: Entries, now: Instant, haveClientId: bool, until: Instant)
    requires WellTyped(entries) && Renewable(entries, haveClientId, until) && now <= until
    ensures Spendable(RenewedAccess(entries, now, haveClientId, GRANTED))
    ensures !OptedOut(entries) ==>
      KeepsRenewing(Persisted(entries, RenewedAccess(entries, now, haveClientId, GRANTED).value), haveClientId, until)
  {
    var tokens := RenewedAccess(entries, now, haveClientId, GRANTED).value;
    if !OptedOut(entries) {
      ReadBack(entries, tokens);
      PersistReplaces(entries, tokens);
    }
  }

  /** Whatever GitHub answers, a credential is renewed only while it is renewable. */
  lemma RenewedMeansRenewable(entries: Entries, now: Instant, haveClientId: bool, refreshed: RefreshAnswer, moment: Instant)
    requires WellTyped(entries) && RenewedAccess(entries, now, haveClientId, refreshed).Some? && moment <= now
    ensures Renewable(entries, haveClientId, moment)
  {
  }

  /** Whether every calm round from here within this latency has its lease granted or finds the queue dry. */
  ghost predicate AlwaysAnswered(cfg: Settings, client: ClientId, haveClientId: bool, world: World, s: LoopState, latency: nat, userId: int)
    requires WellTyped(s.entries)
  {
    forall script | Calm(cfg, client, haveClientId, world, s, script, userId) && Latency(cfg, client, haveClientId, world, s, script) <= latency ::
      Answered(Drive(cfg, client, haveClientId, world, s, script).serving.leased)
  }

  /** The gap here, and whether a renewal is already due, leave room for this latency. */
  predicate LeavesRoom(cfg: Settings, world: World, s: LoopState, identity: IdentityId, latency: nat)
    requires identity in world.db.identities
  {
    Affords(cfg, IsDue(s.attemptedAt, s.ttl, world.now), Gap(world, s, identity), latency)
  }

  /** The first moment at which a lease could be refused as stale, if nobody else reads the account. */
  function StaleFrom(cfg: Settings, world: World, s: LoopState, identity: IdentityId): Instant
    requires identity in world.db.identities
  {
    var since := if IsDue(s.attemptedAt, s.ttl, world.now) then world.now else RefreshedAt(world, identity);
    var stale := since + cfg.accessTtlSeconds * MICROS_PER_SECOND + 1;
    if stale < world.now then world.now else stale
  }

  // ---- room is enough ----

  lemma RoomIsEnough(cfg: Settings, client: ClientId, haveClientId: bool, world: World, s: LoopState, script: Script, latency: nat, identity: IdentityId, userId: int)
    requires cfg.Valid() && Attuned(cfg, world, s, client, identity, userId) && LeavesRoom(cfg, world, s, identity, latency)
    requires Calm(cfg, client, haveClientId, world, s, script, userId) && Latency(cfg, client, haveClientId, world, s, script) <= latency
    ensures Answered(Drive(cfg, client, haveClientId, world, s, script).serving.leased)
  {
    Traffic(cfg, world, script.idle, client, identity, userId);
    RoomLasts(cfg, world, s, Attend(cfg, client, haveClientId, world, s, script).dueAt, latency, client, identity, userId);
    RoundIsServed(cfg, client, haveClientId, world, s, script, identity, userId);
  }

  /** Waiting before the due check takes no room away: it can only make a renewal due. */
  lemma RoomLasts(cfg: Settings, world: World, s: LoopState, dueAt: Instant, latency: nat, client: ClientId, identity: IdentityId, userId: int)
    requires cfg.Valid() && Attuned(cfg, world, s, client, identity, userId) && LeavesRoom(cfg, world, s, identity, latency)
    requires world.now <= dueAt
    ensures Affords(cfg, IsDue(s.attemptedAt, s.ttl, dueAt), Gap(world, s, identity), latency)
  {
    assert RefreshedAt(world, identity) <= world.now;
  }

  // ---- and needed ----

  const EMPTY_RESULT := ReportPayload("v", "s", [])

  /** GitHub lists nothing for this account, and nobody else calls the hub: it waits, checks, and is late with the lease. */
  function LateScript(wait: nat, latency: nat, userId: int): Script {
    var github := Account(userId, "u", []);
    Script([Tick(wait)], [], [], GRANTED, github, [Tick(latency)], [], EMPTY_RESULT, [], GRANTED, github, [])
  }

  lemma TickKeeps(cfg: Settings, world: World, elapsed: nat, client: ClientId, identity: IdentityId, userId: int)
    requires Attached(cfg, world, client, identity, userId)
    ensures Attached(cfg, world.(now := world.now + elapsed), client, identity, userId)
  {
    TrafficStep(cfg, world, Tick(elapsed), client, identity, userId);
  }

  /** A lease that reaches the hub more than the TTL after the refresh is refused. */
  lemma LateIsRefused(cfg: Settings, client: ClientId, world: World, script: Script, latency: nat, identity: IdentityId, userId: int)
    requires Attached(cfg, world, client, identity, userId) && world.db.clients[client].status == CheckedIn
    requires script.beforeLease == [Tick(latency)]
    requires world.now + latency - RefreshedAt(world, identity) > cfg.accessTtlSeconds * MICROS_PER_SECOND
    ensures Serve(cfg, client, world, script) == Serving(world.(now := world.now + latency), world.now + latency, StaleAccess, Conflict)
  {
    RunTick(cfg, world, latency);
    var atLease := world.(now := world.now + latency);
    assert AccessIsStale(cfg, atLease.db, atLease.now, Some(identity));
  }

  /** The late script is calm whenever its lease is refused: whatever it renews with keeps renewing that long. */
  lemma LateIsCalm(cfg: Settings, client: ClientId, haveClientId: bool, world: World, s: LoopState, wait: nat, latency: nat, userId: int, until: Instant)
    requires WellTyped(s.entries) && Renewable(s.entries, haveClientId, until) && s.status == Running
    requires var script := LateScript(wait, latency, userId);
             var attending := Attend(cfg, client, haveClientId, world, s, script);
             && (IsDue(s.attemptedAt, s.ttl, attending.dueAt) ==> attending.reply.CheckInOk? && !OptedOut(s.entries))
             && attending.attemptAt <= until
             && Serve(cfg, client, attending.world, script).world.now <= until
    ensures Calm(cfg, client, haveClientId, world, s, LateScript(wait, latency, userId), userId)
  {
    var script := LateScript(wait, latency, userId);
    var attending := Attend(cfg, client, haveClientId, world, s, script);
    var serving := Serve(cfg, client, attending.world, script);
    var early := EarlyRound(attending, serving, script);
    RenewsAt(s.entries, attending.attemptAt, haveClientId, until);
    LateStaysRenewable(s, haveClientId, early, until);
    RunTick(cfg, serving.world, 0);
    RenewsAt(Proactive(s, true, haveClientId, early).entries, serving.world.now, haveClientId, until);
  }

  lemma LateStaysRenewable(s: LoopState, haveClientId: bool, round: Round, until: Instant)
    requires WellTyped(s.entries) && Renewable(s.entries, haveClientId, until) && round.refreshed == GRANTED && round.renewAt <= until
    requires IsDue(s.attemptedAt, s.ttl, round.dueAt) ==> !OptedOut(s.entries)
    ensures WellTyped(Proactive(s, true, haveClientId, round).entries)
    ensures Renewable(Proactive(s, true, haveClientId, round).entries, haveClientId, until)
  {
    RenewsAt(s.entries, round.renewAt, haveClientId, until);
  }

  /** The last moment, up to that one, at which a due check finds nothing due. */
  function CheckBy(cfg: Settings, world: World, s: LoopState, identity: IdentityId): Instant
    requires identity in world.db.identities && s.attemptedAt.Some?
  {
    var last, stale := s.attemptedAt.value + cfg.accessTtlSeconds * HALF_SECOND - 1, StaleFrom(cfg, world, s, identity);
    if stale < last then stale else last
  }

  lemma LateTimesFit(cfg: Settings, world: World, s: LoopState, latency: nat, client: ClientId, identity: IdentityId, userId: int)
    requires cfg.Valid() && Attuned(cfg, world, s, client, identity, userId)
    requires !IsDue(s.attemptedAt, s.ttl, world.now) && !LeavesRoom(cfg, world, s, identity, latency)
    ensures var check, stale := CheckBy(cfg, world, s, identity), StaleFrom(cfg, world, s, identity);
            && world.now <= check <= stale && stale - check <= latency
            && !IsDue(s.attemptedAt, s.ttl, check)
            && stale - RefreshedAt(world, identity) > cfg.accessTtlSeconds * MICROS_PER_SECOND
  {
  }

  lemma UnrenewedAttends(cfg: Settings, client: ClientId, haveClientId: bool, world: World, s: LoopState, wait: nat, latency: nat, userId: int)
    requires WellTyped(s.entries) && !IsDue(s.attemptedAt, s.ttl, world.now + wait)
    ensures Attend(cfg, client, haveClientId, world, s, LateScript(wait, latency, userId))
         == Attending(world.(now := world.now + wait), world.now + wait, world.now + wait, CheckInError)
  {
    RunTick(cfg, world, wait);
  }

  /** With no renewal due, a check made while none is and a lease that arrives once the snapshot is stale. */
  lemma LateUnrenewed(cfg: Settings, client: ClientId, haveClientId: bool, world: World, s: LoopState, latency: nat, identity: IdentityId, userId: int)
    returns (script: Script)
    requires cfg.Valid() && Attuned(cfg, world, s, client, identity, userId)
    requires Renewable(s.entries, haveClientId, StaleFrom(cfg, world, s, identity))
    requires !IsDue(s.attemptedAt, s.ttl, world.now) && !LeavesRoom(cfg, world, s, identity, latency)
    ensures Calm(cfg, client, haveClientId, world, s, script, userId)
    ensures Latency(cfg, client, haveClientId, world, s, script) <= latency
    ensures Drive(cfg, client, haveClientId, world, s, script).serving.leased == StaleAccess
  {
    var leaseAt := StaleFrom(cfg, world, s, identity);
    var dueAt := CheckBy(cfg, world, s, identity);
    LateTimesFit(cfg, world, s, latency, client, identity, userId);
    var wait, late := dueAt - world.now, leaseAt - dueAt;
    script := LateScript(wait, late, userId);
    TickKeeps(cfg, world, wait, client, identity, userId);
    var atCheck := world.(now := dueAt);
    UnrenewedAttends(cfg, client, haveClientId, world, s, wait, late, userId);
    LateIsRefused(cfg, client, atCheck, script, late, identity, userId);
    LateIsCalm(cfg, client, haveClientId, world, s, wait, late, userId, leaseAt);
    DriveServes(cfg, client, haveClientId, world, s, script);
  }

  lemma LateAttends(cfg: Settings, client: ClientId, haveClientId: bool, world: World, s: LoopState, latency: nat, identity: IdentityId, userId: int, until: Instant)
    requires cfg.Valid() && Attuned(cfg, world, s, client, identity, userId)
    requires Renewable(s.entries, haveClientId, until) && world.now <= until
    requires IsDue(s.attemptedAt, s.ttl, world.now)
    ensures var script := LateScript(0, latency, userId);
            var renewed := Step(cfg, world, CheckIn(client, Some(script.github), None));
            Attend(cfg, client, haveClientId, world, s, script)
            == Attending(renewed, world.now, world.now, CheckInOk(Some(cfg.accessTtlSeconds)))
  {
    RunTick(cfg, world, 0);
    RenewsAt(s.entries, world.now, haveClientId, until);
    OwnTokenRefreshes(cfg, world, client, identity, Account(userId, "u", []));
  }

  /** With a renewal due at once, the snapshot is as old as the latency when the lease arrives. */
  lemma LateRenewed(cfg: Settings, client: ClientId, haveClientId: bool, world: World, s: LoopState, latency: nat, identity: IdentityId, userId: int)
    returns (script: Script)
    requires cfg.Valid() && Attuned(cfg, world, s, client, identity, userId)
    requires KeepsRenewing(s.entries, haveClientId, StaleFrom(cfg, world, s, identity))
    requires IsDue(s.attemptedAt, s.ttl, world.now) && !LeavesRoom(cfg, world, s, identity, latency)
    ensures Calm(cfg, client, haveClientId, world, s, script, userId)
    ensures Latency(cfg, client, haveClientId, world, s, script) <= latency
    ensures Drive(cfg, client, haveClientId, world, s, script).serving.leased == StaleAccess
  {
    var leaseAt := StaleFrom(cfg, world, s, identity);
    var late := leaseAt - world.now;
    script := LateScript(0, late, userId);
    OwnTokenRefreshes(cfg, world, client, identity, script.github);
    var renewed := Step(cfg, world, CheckIn(client, Some(script.github), None));
    LateAttends(cfg, client, haveClientId, world, s, late, identity, userId, leaseAt);
    LateIsRefused(cfg, client, renewed, script, late, identity, userId);
    LateIsCalm(cfg, client, haveClientId, world, s, 0, late, userId, leaseAt);
    DriveServes(cfg, client, haveClientId, world, s, script);
  }

  // ---- exactly ----

  /**
   Every calm round within a latency is answered if and only if there is room for it: the latency within
   the TTL if a renewal is due already, and otherwise the latency and the gap within half the TTL and the
   one microsecond the strict comparison leaves. The credential has to last until a lease can be stale.
   */
  lemma RoomIsExact(cfg: Settings, client: ClientId, haveClientId: bool, world: World, s: LoopState, latency: nat, identity: IdentityId, userId: int)
    requires cfg.Valid() && Attuned(cfg, world, s, client, identity, userId)
    requires KeepsRenewing(s.entries, haveClientId, StaleFrom(cfg, world, s, identity))
    ensures AlwaysAnswered(cfg, client, haveClientId, world, s, latency, userId) <==> LeavesRoom(cfg, world, s, identity, latency)
  {
    if LeavesRoom(cfg, world, s, identity, latency) {
      RoomAnswersAll(cfg, client, haveClientId, world, s, latency, identity, userId);
    } else if IsDue(s.attemptedAt, s.ttl, world.now) {
      var script := LateRenewed(cfg, client, haveClientId, world, s, latency, identity, userId);
      assert !Answered(Drive(cfg, client, haveClientId, world, s, script).serving.leased);
    } else {
      var script := LateUnrenewed(cfg, client, haveClientId, world, s, latency, identity, userId);
      assert !Answered(Drive(cfg, client, haveClientId, world, s, script).serving.leased);
    }
  }

  lemma RoomAnswersAll(cfg: Settings, client: ClientId, haveClientId: bool, world: World, s: LoopState, latency: nat, identity: IdentityId, userId: int)
    requires cfg.Valid() && Attuned(cfg, world, s, client, identity, userId) && LeavesRoom(cfg, world, s, identity, latency)
    ensures AlwaysAnswered(cfg, client, haveClientId, world, s, latency, userId)
  {
    forall script | Calm(cfg, client, haveClientId, world, s, script, userId) && Latency(cfg, client, haveClientId, world, s, script) <= latency
      ensures Answered(Drive(cfg, client, haveClientId, world, s, script).serving.leased)
    {
      RoomIsEnough(cfg, client, haveClientId, world, s, script, latency, identity, userId);
    }
  }

  // ---- a credential that does not last that long ----

  /** A lease behind a check that found nothing due: a present client, and a snapshot no older than before. */
  lemma UndueLease(cfg: Settings, client: ClientId, haveClientId: bool, world: World, s: LoopState, script: Script, identity: IdentityId, userId: int)
    requires Attuned(cfg, world, s, client, identity, userId) && AllBenign(script.idle, client) && AllBenign(script.beforeLease, client)
    requires !IsDue(s.attemptedAt, s.ttl, Attend(cfg, client, haveClientId, world, s, script).dueAt)
    ensures var atLease := Run(cfg, Attend(cfg, client, haveClientId, world, s, script).world, script.beforeLease);
            && Attached(cfg, atLease, client, identity, userId) && atLease.db.clients[client].status == CheckedIn
            && RefreshedAt(world, identity) <= RefreshedAt(atLease, identity) && world.now <= atLease.now
  {
    Traffic(cfg, world, script.idle, client, identity, userId);
    Traffic(cfg, Run(cfg, world, script.idle), script.beforeLease, client, identity, userId);
  }

  lemma StaleComesLater(cfg: Settings, world: World, s: LoopState, atLease: World, identity: IdentityId)
    requires identity in world.db.identities && identity in atLease.db.identities && !IsDue(s.attemptedAt, s.ttl, world.now)
    requires RefreshedAt(world, identity) <= RefreshedAt(atLease, identity) && world.now <= atLease.now
    requires AccessIsStale(cfg, atLease.db, atLease.now, Some(identity))
    ensures cfg.mode == GithubMode && StaleFrom(cfg, world, s, identity) <= atLease.now
  {
  }

  /** A calm round refused as stale, with nothing due, renews its old credential at or after the refusal. */
  lemma RefusedRenews(cfg: Settings, client: ClientId, haveClientId: bool, world: World, s: LoopState, script: Script, userId: int)
    requires WellTyped(s.entries) && Calm(cfg, client, haveClientId, world, s, script, userId)
    requires !IsDue(s.attemptedAt, s.ttl, Attend(cfg, client, haveClientId, world, s, script).dueAt)
    requires Serve(cfg, client, Attend(cfg, client, haveClientId, world, s, script).world, script).leased == StaleAccess
    ensures var atLease := Run(cfg, Attend(cfg, client, haveClientId, world, s, script).world, script.beforeLease);
            RenewedAccess(s.entries, Run(cfg, atLease, script.recovering).now, haveClientId, script.recovered).Some?
  {
  }

  /** A refused round is calm only if its recovery renews, at or after the moment the snapshot went stale. */
  lemma RefusalNeedsRenewal(cfg: Settings, client: ClientId, haveClientId: bool, world: World, s: LoopState, script: Script, latency: nat, identity: IdentityId, userId: int)
    requires cfg.Valid() && Attuned(cfg, world, s, client, identity, userId) && !IsDue(s.attemptedAt, s.ttl, world.now)
    requires latency <= cfg.accessTtlSeconds * MICROS_PER_SECOND
    requires Calm(cfg, client, haveClientId, world, s, script, userId) && Latency(cfg, client, haveClientId, world, s, script) <= latency
    requires !Renewable(s.entries, haveClientId, StaleFrom(cfg, world, s, identity))
    ensures Answered(Drive(cfg, client, haveClientId, world, s, script).serving.leased)
  {
    DriveServes(cfg, client, haveClientId, world, s, script);
    if IsDue(s.attemptedAt, s.ttl, Attend(cfg, client, haveClientId, world, s, script).dueAt) {
      RoundIsServed(cfg, client, haveClientId, world, s, script, identity, userId);
    } else {
      UndueIsAnswered(cfg, client, haveClientId, world, s, script, identity, userId);
    }
  }

  lemma UndueIsAnswered(cfg: Settings, client: ClientId, haveClientId: bool, world: World, s: LoopState, script: Script, identity: IdentityId, userId: int)
    requires Attuned(cfg, world, s, client, identity, userId) && !IsDue(s.attemptedAt, s.ttl, world.now)
    requires Calm(cfg, client, haveClientId, world, s, script, userId)
    requires !IsDue(s.attemptedAt, s.ttl, Attend(cfg, client, haveClientId, world, s, script).dueAt)
    requires !Renewable(s.entries, haveClientId, StaleFrom(cfg, world, s, identity))
    ensures Answered(Serve(cfg, client, Attend(cfg, client, haveClientId, world, s, script).world, script).leased)
  {
    UndueLease(cfg, client, haveClientId, world, s, script, identity, userId);
    var atLease := Run(cfg, Attend(cfg, client, haveClientId, world, s, script).world, script.beforeLease);
    if AccessIsStale(cfg, atLease.db, atLease.now, Some(identity)) {
      StaleComesLater(cfg, world, s, atLease, identity);
      RefusedRenews(cfg, client, haveClientId, world, s, script, userId);
      Traffic(cfg, atLease, script.recovering, client, identity, userId);
      RenewedMeansRenewable(s.entries, Run(cfg, atLease, script.recovering).now, haveClientId, script.recovered,
                            StaleFrom(cfg, world, s, identity));
      assert false;
    } else {
      PresentAndFreshIsAnswered(cfg, atLease, client);
    }
  }

  lemma UnrenewableIsAnswered(cfg: Settings, client: ClientId, haveClientId: bool, world: World, s: LoopState, latency: nat, identity: IdentityId, userId: int)
    requires cfg.Valid() && Attuned(cfg, world, s, client, identity, userId) && !IsDue(s.attemptedAt, s.ttl, world.now)
    requires latency <= cfg.accessTtlSeconds * MICROS_PER_SECOND
    requires !Renewable(s.entries, haveClientId, StaleFrom(cfg, world, s, identity))
    ensures AlwaysAnswered(cfg, client, haveClientId, world, s, latency, userId)
  {
    forall script | Calm(cfg, client, haveClientId, world, s, script, userId) && Latency(cfg, client, haveClientId, world, s, script) <= latency
      ensures Answered(Drive(cfg, client, haveClientId, world, s, script).serving.leased)
    {
      RefusalNeedsRenewal(cfg, client, haveClientId, world, s, script, latency, identity, userId);
    }
  }

  lemma HalfIsAfforded(cfg: Settings, renews: bool, gap: int)
    requires cfg.Valid()
    ensures Affords(cfg, renews, gap, cfg.accessTtlSeconds * HALF_SECOND) <==> renews || gap <= 1
  {
  }

  /**
   Half the TTL is always enough from here if and only if a renewal is due, or the gap is at most a
   microsecond, or the credential will not last until a lease can be refused.
   */
  lemma HalfTtlIsExact(cfg: Settings, client: ClientId, haveClientId: bool, world: World, s: LoopState, identity: IdentityId, userId: int)
    requires cfg.Valid() && Attuned(cfg, world, s, client, identity, userId)
    ensures AlwaysAnswered(cfg, client, haveClientId, world, s, cfg.accessTtlSeconds * HALF_SECOND, userId)
       <==> || IsDue(s.attemptedAt, s.ttl, world.now)
            || Gap(world, s, identity) <= 1
            || !Renewable(s.entries, haveClientId, StaleFrom(cfg, world, s, identity))
  {
    var half := cfg.accessTtlSeconds * HALF_SECOND;
    HalfIsAfforded(cfg, IsDue(s.attemptedAt, s.ttl, world.now), Gap(world, s, identity));
    if LeavesRoom(cfg, world, s, identity, half) {
      RoomAnswersAll(cfg, client, haveClientId, world, s, half, identity, userId);
    } else if Renewable(s.entries, haveClientId, StaleFrom(cfg, world, s, identity)) {
      var script := LateUnrenewed(cfg, client, haveClientId, world, s, half, identity, userId);
      assert !Answered(Drive(cfg, client, haveClientId, world, s, script).serving.leased);
    } else {
      UnrenewableIsAnswered(cfg, client, haveClientId, world, s, half, identity, userId);
    }
  }

  /** The same after any run: whichever round comes next is always answered exactly if the run's last gap leaves room. */
  lemma RoomIsExactInRuns(cfg: Settings, client: ClientId, haveClientId: bool, world: World, entries: Entries, scripts: seq<Script>, latency: nat, identity: IdentityId, userId: int)
    requires cfg.Valid() && WellTyped(entries) && Attached(cfg, world, client, identity, userId)
    requires forall k | 0 <= k < |scripts| :: CalmAt(cfg, client, haveClientId, world, entries, scripts, userId, k)
    requires forall k | 0 <= k < |scripts| :: PromptAt(cfg, client, haveClientId, world, entries, scripts, identity, k)
    requires var p := DriveAll(cfg, client, haveClientId, world, entries, scripts);
             identity in p.world.db.identities && KeepsRenewing(p.state.entries, haveClientId, StaleFrom(cfg, p.world, p.state, identity))
    ensures var p := DriveAll(cfg, client, haveClientId, world, entries, scripts);
            ((forall next | CalmAt(cfg, client, haveClientId, world, entries, scripts + [next], userId, |scripts|)
                   && Latency(cfg, client, haveClientId, p.world, p.state, next) <= latency ::
                   Answered(LeaseAnswer(cfg, client, haveClientId, world, entries, scripts + [next], |scripts|)))
                <==> LeavesRoom(cfg, p.world, p.state, identity, latency))
  {
    assert scripts[..|scripts|] == scripts;
    LoopStaysAttuned(cfg, client, haveClientId, world, entries, scripts, |scripts|, identity, userId);
    var p := DriveAll(cfg, client, haveClientId, world, entries, scripts);
    RoomIsExact(cfg, client, haveClientId, p.world, p.state, latency, identity, userId);
    forall next: Script
      ensures CalmAt(cfg, client, haveClientId, world, entries, scripts + [next], userId, |scripts|)
         <==> Calm(cfg, client, haveClientId, p.world, p.state, next, userId)
      ensures LeaseAnswer(cfg, client, haveClientId, world, entries, scripts + [next], |scripts|)
           == Drive(cfg, client, haveClientId, p.world, p.state, next).serving.leased
    {
      assert (scripts + [next])[..|scripts|] == scripts;
    }
  }
}
