/**
 Whole-run dispatch safety in github mode. The history of a run says when each GitHub account was last
 read and what GitHub listed then; the tables are proved to hold exactly that, and every lease ever
 handed out is justified by it.
 */
module Attestation {
  import opened Models
  import opened Dispatch
  import opened JobTable
  import opened HubMachine
  import opened TableInvariant

  datatype AccountReading = AccountReading(at: Instant, repos: seq<RepoAccess>)

  /** The most recent read of an account that the hub accepted, told from the run's answers alone. */
  function LastRead(cfg: Settings, world: World, events: seq<Event>, userId: int): Option<AccountReading> {
    if events == [] then None
    else
      var before, last := events[..|events| - 1], events[|events| - 1];
      var middle := Run(cfg, world, before);
      var response := Answer(cfg, middle, last).response;
      IdentityTables(cfg, middle, last);
      if ReadsAccount(cfg, last, response) && AccountRead(cfg, last, response).userId == userId
      then Some(AccountReading(middle.now, AccountRead(cfg, last, response).repos))
      else LastRead(cfg, world, before, userId)
  }

  function RowsOf(access: set<AccessRow>, identity: IdentityId): set<AccessRow> {
    set row | row in access && row.identityId == identity
  }

  /** Whether an identity's stored snapshot is the given read. */
  predicate Records(db: Db, identity: IdentityId, reading: Option<AccountReading>)
    requires identity in db.identities
  {
    && reading.Some?
    && db.identities[identity].refreshedAt == reading.value.at
    && RowsOf(db.access, identity) == SnapshotRows(identity, reading.value.repos)
  }

  // ---- one refresh ----

  /** A refresh makes the account's rows exactly the new list and touches no other account. */
  lemma RefreshReplaces(db: Db, now: Instant, userId: int, login: string, repos: seq<RepoAccess>)
    requires IdentitiesOk(db, now) && AccessOk(db)
    ensures var id, after := IdentityFor(db, userId), IdentityUpserted(db, now, userId, login, repos);
            && id in after.identities && after.identities[id].githubUserId == userId
            && Records(after, id, Some(AccountReading(now, repos)))
            && ReposOf(after.access, id) == NamesOf(repos)
    ensures var id, after := IdentityFor(db, userId), IdentityUpserted(db, now, userId, login, repos);
            forall other | other in db.identities && other != id ::
              && other in after.identities && after.identities[other] == db.identities[other]
              && db.identities[other].githubUserId != userId
              && RowsOf(after.access, other) == RowsOf(db.access, other)
  {
    var id, after := IdentityFor(db, userId), IdentityUpserted(db, now, userId, login, repos);
    SnapshotNames(id, repos);
    assert RowsOf(after.access, id) == SnapshotRows(id, repos);
    ReposOfRows(after.access, id);
    forall other | other in db.identities && other != id
      ensures RowsOf(after.access, other) == RowsOf(db.access, other)
      ensures db.identities[other].githubUserId != userId
    {
      SoleIdentity(db, userId, other);
    }
  }

  lemma SnapshotNames(identity: IdentityId, repos: seq<RepoAccess>)
    ensures (set row | row in SnapshotRows(identity, repos) :: row.repo) == NamesOf(repos)
  {
    forall access | access in repos
      ensures access.repo in (set row | row in SnapshotRows(identity, repos) :: row.repo)
    {
      assert AccessRow(identity, access.repo, access.permission) in SnapshotRows(identity, repos);
    }
  }

  lemma ReposOfRows(access: set<AccessRow>, identity: IdentityId)
    ensures ReposOf(access, identity) == set row | row in RowsOf(access, identity) :: row.repo
  {
  }

  // ---- the tables hold the last read ----

  lemma {:induction false} TablesHoldTheLastRead(cfg: Settings, now: Instant, events: seq<Event>, identity: IdentityId)
    requires identity in Run(cfg, InitialWorld(now), events).db.identities
    ensures var after := Run(cfg, InitialWorld(now), events).db;
            Records(after, identity, LastRead(cfg, InitialWorld(now), events, after.identities[identity].githubUserId))
  {
    var start := InitialWorld(now);
    var before, last := events[..|events| - 1], events[|events| - 1];
    var middle := Run(cfg, start, before);
    var response := Answer(cfg, middle, last).response;
    InitialInvariant(cfg, now);
    RunKeepsInvariant(cfg, start, before);
    IdentityTables(cfg, middle, last);
    if identity in middle.db.identities {
      TablesHoldTheLastRead(cfg, now, before, identity);
    }
    if ReadsAccount(cfg, last, response) {
      var read := AccountRead(cfg, last, response);
      RefreshReplaces(middle.db, middle.now, read.userId, read.login, read.repos);
    }
  }

  // ---- every lease is justified ----

  /**
   Every lease ever handed out in github mode is to a client with an account, for a repo the most recent
   accepted read of that account listed, and that read is no older than the TTL.
   */
  lemma EveryLeaseIsAttested(cfg: Settings, now: Instant, events: seq<Event>, k: nat, client: ClientId, id: JobId)
    requires cfg.mode == GithubMode && k < |events|
    requires events[k] == LeaseNext(client) || events[k] == LeaseNamed(client, id)
    requires ResponseAt(cfg, InitialWorld(now), events, k) == Granted(id)
    ensures var world := Before(cfg, InitialWorld(now), events, k);
            && id in world.db.jobs && client in world.db.clients
            && var identity := world.db.clients[client].identityId;
            && identity.Some? && identity.value in world.db.identities
            && var reading := LastRead(cfg, InitialWorld(now), events[..k], world.db.identities[identity.value].githubUserId);
            && reading.Some?
            && world.db.jobs[id].spec.repo in NamesOf(reading.value.repos)
            && 0 <= world.now - reading.value.at <= cfg.accessTtlSeconds * MICROS_PER_SECOND
  {
    var start, prefix := InitialWorld(now), events[..k];
    var world := Run(cfg, start, prefix);
    InitialInvariant(cfg, now);
    RunKeepsInvariant(cfg, start, prefix);
    GrantedWasQueued(cfg, world, events[k]);
    GrantIsFresh(cfg, world, events[k]);
    var identity := world.db.clients[client].identityId.value;
    TablesHoldTheLastRead(cfg, now, prefix, identity);
    var reading := LastRead(cfg, start, prefix, world.db.identities[identity].githubUserId);
    ReposOfRows(world.db.access, identity);
    SnapshotNames(identity, reading.value.repos);
  }

  lemma GrantIsFresh(cfg: Settings, world: World, event: Event)
    requires Answer(cfg, world, event).response.Granted?
    ensures (event.LeaseNext? || event.LeaseNamed?) && event.client in world.db.clients
    ensures !AccessIsStale(cfg, world.db, world.now, world.db.clients[event.client].identityId)
  {
  }

  /** Heartbeats without a token, and outages, never move an account's clock or its repos. */
  lemma OnlyReadsMoveTheClock(cfg: Settings, world: World, event: Event)
    requires event.CheckIn? && (event.token == None || event.token == Some(Unreachable))
    ensures Step(cfg, world, event).db.identities == world.db.identities
    ensures Step(cfg, world, event).db.access == world.db.access
  {
  }

  /** A bare heartbeat cannot answer a staleness refusal: the next lease is refused for the same reason. */
  lemma HeartbeatCannotCureStaleness(cfg: Settings, world: World, client: ClientId, offered: Option<seq<string>>)
    requires Answer(cfg, world, LeaseNext(client)).response == StaleAccess
    ensures Answer(cfg, Step(cfg, world, CheckIn(client, None, offered)), LeaseNext(client)).response == StaleAccess
  {
  }

  // ---- identity links are write-once ----

  predicate LinkedTo(world: World, client: ClientId, identity: IdentityId, userId: int) {
    && client in world.db.clients && world.db.clients[client].identityId == Some(identity)
    && identity in world.db.identities && world.db.identities[identity].githubUserId == userId
  }

  predicate Retired(world: World, client: ClientId) {
    client < world.db.nextClient && client !in world.db.clients
  }

  lemma StepKeepsLink(cfg: Settings, world: World, event: Event, client: ClientId, identity: IdentityId, userId: int)
    requires Sound(cfg, world)
    requires LinkedTo(world, client, identity, userId) || Retired(world, client)
    ensures LinkedTo(Step(cfg, world, event), client, identity, userId) || Retired(Step(cfg, world, event), client)
  {
    IdentityTables(cfg, world, event);
    var response := Answer(cfg, world, event).response;
    if ReadsAccount(cfg, event, response) {
      var read := AccountRead(cfg, event, response);
      RefreshReplaces(world.db, world.now, read.userId, read.login, read.repos);
    }
  }

  /** Once a client is linked to an account it stays linked to that account until it is revoked, for good. */
  lemma {:induction false} LinkIsWriteOnce(cfg: Settings, world: World, events: seq<Event>, client: ClientId, identity: IdentityId, userId: int)
    requires Sound(cfg, world) && LinkedTo(world, client, identity, userId)
    ensures LinkedTo(Run(cfg, world, events), client, identity, userId) || Retired(Run(cfg, world, events), client)
  {
    if events == [] {
    } else {
      var before := events[..|events| - 1];
      LinkIsWriteOnce(cfg, world, before, client, identity, userId);
      RunKeepsSound(cfg, world, before);
      StepKeepsLink(cfg, Run(cfg, world, before), events[|events| - 1], client, identity, userId);
    }
  }
}
