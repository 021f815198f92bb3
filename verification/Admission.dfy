/**
 Who gets in, and as whom: enrolment, sign-in and check-in decided on what the tables and GitHub's answer
 say, and over whole runs, that a linked client only ever checks in with its own account's token.
 */
module Admission {
  import opened Models
  import opened Dispatch
  import opened HubMachine
  import opened TableInvariant
  import opened Attestation

  predicate RepeatsARepo(repos: seq<RepoAccess>) {
    exists i, k :: 0 <= i < k < |repos| && repos[i].repo == repos[k].repo
  }

  /** The account has one row, dated now, and exactly the rows GitHub listed. */
  ghost predicate ReadInto(db: Db, identity: IdentityId, now: Instant, userId: int, login: string, repos: seq<RepoAccess>) {
    && identity in db.identities
    && db.identities[identity] == Identity(userId, login, now)
    && forall repo, level :: AccessRow(identity, repo, level) in db.access <==> RepoAccess(repo, level) in repos
  }

  lemma UpsertReadsInto(db: Db, now: Instant, userId: int, login: string, repos: seq<RepoAccess>)
    ensures var id := IdentityFor(db, userId);
            ReadInto(IdentityUpserted(db, now, userId, login, repos), id, now, userId, login, repos)
  {
    var id := IdentityFor(db, userId);
    forall repo, level
      ensures AccessRow(id, repo, level) in IdentityUpserted(db, now, userId, login, repos).access <==> RepoAccess(repo, level) in repos
    {
      if RepoAccess(repo, level) in repos {
        assert AccessRow(id, repo, level) in SnapshotRows(id, repos);
      }
    }
  }

  // ---- enrolment and sign-in ----

  /** What a token alone is answered, before anything is written. */
  predicate TokenRefused(github: GithubAnswer, response: Response) {
    match github
    case Rejected => response == Unauthorized
    case Unreachable => response == GithubDown
    case Account(_, _, repos) => RepeatsARepo(repos) && response == ConstraintViolated
  }

  /**
   In github mode a client is enrolled if and only if GitHub vouches for its token, and it is enrolled as
   that account's: checked out, unoffering, under the next number, beside a snapshot that is the read.
   */
  lemma EnrolmentIsTheTokens(cfg: Settings, world: World, model: string, tier: ModelTier, secretMatches: bool, github: GithubAnswer)
    requires cfg.mode == GithubMode
    ensures var event := Enrol(model, tier, secretMatches, github);
            var response, after := Answer(cfg, world, event).response, Step(cfg, world, event);
            if github.Account? && !RepeatsARepo(github.repos) then
              var client := world.db.nextClient;
              && response == Enrolled(client)
              && after.db.clients - {client} == world.db.clients - {client} && client in after.db.clients
              && var row := after.db.clients[client];
              && row.modelName == model && row.tier == tier && row.status == CheckedOut && row.offered == []
              && row.identityId.Some?
              && ReadInto(after.db, row.identityId.value, world.now, github.userId, github.login, github.repos)
            else
              TokenRefused(github, response) && after == world
  {
    if github.Account? {
      UpsertReadsInto(world.db, world.now, github.userId, github.login, github.repos);
    }
  }

  /** In dev mode it is the shared secret that decides, and the client belongs to no account. */
  lemma DevEnrolmentIsTheSecrets(cfg: Settings, world: World, model: string, tier: ModelTier, secretMatches: bool, github: GithubAnswer)
    requires cfg.mode == DevMode
    ensures var event := Enrol(model, tier, secretMatches, github);
            var response, after := Answer(cfg, world, event).response, Step(cfg, world, event);
            if secretMatches then
              && response == Enrolled(world.db.nextClient)
              && after.db.clients == world.db.clients[world.db.nextClient := Client(model, tier, None, CheckedOut, [])]
              && after.db.identities == world.db.identities && after.db.access == world.db.access
            else
              response == Unauthorized && after == world
  {
  }

  /** Signing in reads the account and nothing more. */
  lemma SignInIsTheTokens(cfg: Settings, world: World, github: GithubAnswer)
    ensures var response, after := Answer(cfg, world, SignIn(github)).response, Step(cfg, world, SignIn(github));
            if github.Account? && !RepeatsARepo(github.repos) then
              && response == SignedIn
              && (exists identity :: identity in after.db.identities
                    && ReadInto(after.db, identity, world.now, github.userId, github.login, github.repos))
              && after.db.clients == world.db.clients && after.db.jobs == world.db.jobs && after.db.policies == world.db.policies
            else
              TokenRefused(github, response) && after == world
  {
    if github.Account? {
      UpsertReadsInto(world.db, world.now, github.userId, github.login, github.repos);
    }
  }

  // ---- check-in ----

  /** The client is linked, and not to this account. */
  predicate AnothersAccount(db: Db, linked: Option<IdentityId>, userId: int) {
    linked.Some? && (linked.value in db.identities ==> db.identities[linked.value].githubUserId != userId)
  }

  /**
   A check-in of a registered client. A token counts in github mode only, and then only if GitHub answers:
   a rejected token and another account's are refused, and a refusal of any kind changes nothing.
   */
  lemma CheckInIsDecided(cfg: Settings, world: World, client: ClientId, token: Option<GithubAnswer>, offered: Option<seq<string>>)
    requires client in world.db.clients
    ensures var response := Answer(cfg, world, CheckIn(client, token, offered)).response;
            var after := Step(cfg, world, CheckIn(client, token, offered));
            var linked := world.db.clients[client].identityId;
            if cfg.mode == GithubMode && token.Some? && (token.value.Rejected? || (token.value.Account? && AnothersAccount(world.db, linked, token.value.userId)))
            then response == Unauthorized && after == world
            else if cfg.mode == GithubMode && token.Some? && token.value.Account? && RepeatsARepo(token.value.repos)
            then response == ConstraintViolated && after == world
            else
              && response == CheckedInFor(cfg.accessTtlSeconds)
              && after.db.clients.Keys == world.db.clients.Keys && after.db.clients - {client} == world.db.clients - {client}
              && after.db.clients[client].status == CheckedIn
              && (linked.Some? ==> after.db.clients[client].identityId == linked)
  {
  }

  /** An accepted token check-in links an unlinked client to the account, and leaves that account's snapshot the read. */
  lemma CheckInReadsItsAccount(cfg: Settings, world: World, client: ClientId, github: GithubAnswer, offered: Option<seq<string>>)
    requires cfg.mode == GithubMode && github.Account? && client in world.db.clients && Sound(cfg, world)
    requires Answer(cfg, world, CheckIn(client, Some(github), offered)).response.CheckedInFor?
    ensures var after := Step(cfg, world, CheckIn(client, Some(github), offered));
            && client in after.db.clients && after.db.clients[client].identityId.Some?
            && ReadInto(after.db, after.db.clients[client].identityId.value, world.now, github.userId, github.login, github.repos)
  {
    UpsertReadsInto(world.db, world.now, github.userId, github.login, github.repos);
    if world.db.clients[client].identityId.Some? {
      SoleIdentity(world.db, github.userId, world.db.clients[client].identityId.value);
    }
  }

  /** Another account's token is refused, and nothing is written for either account. */
  lemma ForeignTokenIsRefused(cfg: Settings, world: World, client: ClientId, identity: IdentityId, userId: int, github: GithubAnswer, offered: Option<seq<string>>)
    requires cfg.mode == GithubMode && LinkedTo(world, client, identity, userId)
    requires github.Account? && github.userId != userId
    ensures Answer(cfg, world, CheckIn(client, Some(github), offered)).response == Unauthorized
    ensures Step(cfg, world, CheckIn(client, Some(github), offered)) == world
  {
  }

  /** Over any run after a client was linked, every token check-in of it that was accepted read the account it was linked to. */
  lemma OnlyItsOwnTokens(cfg: Settings, world: World, events: seq<Event>, k: nat, client: ClientId, identity: IdentityId, userId: int)
    requires cfg.mode == GithubMode && Sound(cfg, world) && LinkedTo(world, client, identity, userId)
    requires k < |events| && events[k].CheckIn? && events[k].client == client
    requires events[k].token.Some? && events[k].token.value.Account?
    requires ResponseAt(cfg, world, events, k).CheckedInFor?
    ensures events[k].token.value.userId == userId
  {
    LinkIsWriteOnce(cfg, world, events[..k], client, identity, userId);
    var middle := Before(cfg, world, events, k);
    if events[k].token.value.userId != userId && LinkedTo(middle, client, identity, userId) {
      ForeignTokenIsRefused(cfg, middle, client, identity, userId, events[k].token.value, events[k].offered);
    }
  }
}
