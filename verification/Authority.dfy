/**
 Who may write. In github mode a policy is only ever written by an account that GitHub's last read lists
 as the repo's admin, and a client is only ever revoked for the account it belongs to; what a revocation
 then does to the jobs it held.
 */
module Authority {
  import opened Models
  import opened Dispatch
  import opened JobTable
  import opened HubMachine
  import opened TableInvariant
  import opened Attestation

  /** A session speaks for the account it was minted for, and a client's token for the account the client is linked to. */
  predicate SpeaksFor(db: Db, caller: Credential, identity: IdentityId) {
    || (caller == SessionOf(identity) && identity in db.identities)
    || (caller.TokenOf? && caller.client in db.clients && db.clients[caller.client].identityId == Some(identity))
  }

  /** The credential is one the hub knows: a session of an existing account, or an enrolled client's token. */
  predicate Known(db: Db, caller: Credential) {
    || (caller.SessionOf? && caller.identity in db.identities)
    || (caller.TokenOf? && caller.client in db.clients)
  }

  /** The caller speaks for an account, and the client is that account's. */
  ghost predicate Owns(db: Db, caller: Credential, target: ClientId) {
    target in db.clients && exists identity: IdentityId :: SpeaksFor(db, caller, identity) && db.clients[target].identityId == Some(identity)
  }

  lemma ResolvedSpeaks(db: Db, caller: Credential)
    ensures ResolveCaller(db, caller).Speaker? <==> Known(db, caller)
    ensures forall identity: IdentityId :: SpeaksFor(db, caller, identity) <==> ResolveCaller(db, caller) == Speaker(Some(identity))
  {
  }

  /**
   A revocation is accepted in github mode if and only if the client is the caller's, and no identity owns
   nothing; in dev mode if and only if it carries the shared secret and the client exists.
   */
  lemma OnlyOwnersRevoke(cfg: Settings, world: World, caller: Credential, target: ClientId)
    ensures var response := Answer(cfg, world, Revoke(caller, target)).response;
            if cfg.mode == GithubMode then
              response == (if !Known(world.db, caller) then Unauthorized else if Owns(world.db, caller, target) then Accepted else NotFound)
            else
              response == (if caller != DevSecret then Unauthorized else if target in world.db.clients then Accepted else NotFound)
    ensures Answer(cfg, world, Revoke(caller, target)).response != Accepted ==> Step(cfg, world, Revoke(caller, target)) == world
  {
    ResolvedSpeaks(world.db, caller);
    if target in world.db.clients && world.db.clients[target].identityId.Some? {
      assert SpeaksFor(world.db, caller, world.db.clients[target].identityId.value)
        <==> ResolveCaller(world.db, caller) == Speaker(world.db.clients[target].identityId);
    }
  }

  /** "Not yours" and "no such client" are one answer, so the endpoint confirms no id. */
  lemma RefusalHidesTheTarget(cfg: Settings, world: World, caller: Credential, target: ClientId, missing: ClientId)
    requires cfg.mode == GithubMode && !Owns(world.db, caller, target) && missing !in world.db.clients
    ensures Answer(cfg, world, Revoke(caller, target)).response == Answer(cfg, world, Revoke(caller, missing)).response
  {
    OnlyOwnersRevoke(cfg, world, caller, target);
    OnlyOwnersRevoke(cfg, world, caller, missing);
  }

  /** What an accepted revocation leaves of one job. */
  predicate FreedFrom(row: Job, after: Job, target: ClientId) {
    && after.leasedBy != Some(target) && after.reportedBy != Some(target)
    && (if row.leasedBy == Some(target)
        then after.state == (if row.attempts < row.maxAttempts then Queued else Exhausted) && after.leaseExpiresAt.None?
        else after.state == row.state && after.leasedBy == row.leasedBy && after.leaseExpiresAt == row.leaseExpiresAt)
    && after.attempts == row.attempts && after.verdict == row.verdict
    && after.summary == row.summary && after.findings == row.findings && after.relayError == row.relayError
    && (row.reportedBy != Some(target) ==> after.reportedBy == row.reportedBy)
  }

  /** The client and every reference to it are gone, its leases are back in play, and nothing else moved. */
  lemma RevocationFreesItsLeases(cfg: Settings, world: World, caller: Credential, target: ClientId, id: JobId)
    requires Sound(cfg, world) && id in world.db.jobs
    requires Answer(cfg, world, Revoke(caller, target)).response == Accepted
    ensures var after := Step(cfg, world, Revoke(caller, target));
            && after.db.clients == world.db.clients - {target}
            && id in after.db.jobs && FreedFrom(world.db.jobs[id], after.db.jobs[id], target)
            && after.db.identities == world.db.identities && after.db.access == world.db.access
            && after.db.policies == world.db.policies && after.relays == world.relays
  {
    ClientsShrinkOnlyByRevoke(cfg, world, Revoke(caller, target));
    RevokedRow(cfg, world.db, caller, target, id);
  }

  // ---- policies ----

  /** The caller speaks for an account the snapshot lists as this repo's admin. */
  ghost predicate Administers(db: Db, caller: Credential, repo: RepoName) {
    exists identity: IdentityId :: SpeaksFor(db, caller, identity) && AccessRow(identity, repo, Admin) in db.access
  }

  /** Every group the payload names is one the hub defines. */
  predicate GroupsExist(cfg: Settings, payload: PolicyPayload) {
    payload.acceptedGroups == None || forall group | group in payload.acceptedGroups.value :: group in cfg.modelGroups
  }

  /**
   A PUT is accepted if and only if the caller administers the repo, or carries the shared secret in dev
   mode, and names no undefined group; refused, it changes nothing.
   */
  lemma PutIsDecided(cfg: Settings, world: World, caller: Credential, repo: RepoName, payload: PolicyPayload)
    ensures var response := Answer(cfg, world, PutPolicy(caller, repo, payload)).response;
            if cfg.mode == GithubMode && !Known(world.db, caller) then response == Unauthorized
            else if cfg.mode == GithubMode && !Administers(world.db, caller, repo) then response == Forbidden
            else if cfg.mode != GithubMode && caller != DevSecret then response == Unauthorized
            else if !GroupsExist(cfg, payload) then response == UnknownGroups
            else response == Accepted
    ensures Answer(cfg, world, PutPolicy(caller, repo, payload)).response != Accepted ==>
      Step(cfg, world, PutPolicy(caller, repo, payload)) == world
  {
    ResolvedSpeaks(world.db, caller);
    var speaker := ResolveCaller(world.db, caller);
    if speaker.Speaker? && speaker.identity.Some? {
      assert SpeaksFor(world.db, caller, speaker.identity.value);
    }
  }

  /** Every policy write ever accepted in github mode is by an account last read as the repo's admin. */
  lemma EveryPolicyWriteIsAnAdmins(cfg: Settings, now: Instant, events: seq<Event>, k: nat) returns (identity: IdentityId)
    requires cfg.mode == GithubMode && k < |events| && events[k].PutPolicy?
    requires ResponseAt(cfg, InitialWorld(now), events, k) == Accepted
    ensures var world := Before(cfg, InitialWorld(now), events, k);
            && SpeaksFor(world.db, events[k].caller, identity) && identity in world.db.identities
            && var reading := LastRead(cfg, InitialWorld(now), events[..k], world.db.identities[identity].githubUserId);
            && reading.Some? && RepoAccess(events[k].repo, Admin) in reading.value.repos
  {
    var start, prefix := InitialWorld(now), events[..k];
    var world := Run(cfg, start, prefix);
    InitialInvariant(cfg, now);
    RunKeepsSound(cfg, start, prefix);
    PutIsDecided(cfg, world, events[k].caller, events[k].repo, events[k].payload);
    identity :| SpeaksFor(world.db, events[k].caller, identity) && AccessRow(identity, events[k].repo, Admin) in world.db.access;
    TablesHoldTheLastRead(cfg, now, prefix, identity);
    assert AccessRow(identity, events[k].repo, Admin) in RowsOf(world.db.access, identity);
  }

  /** And an account read as the repo's admin can write it, from a session or from any of its machines, until the next read. */
  lemma AdminsMayWrite(cfg: Settings, now: Instant, events: seq<Event>, caller: Credential, identity: IdentityId, repo: RepoName, payload: PolicyPayload)
    requires cfg.mode == GithubMode && GroupsExist(cfg, payload)
    requires var world := Run(cfg, InitialWorld(now), events);
             && SpeaksFor(world.db, caller, identity) && identity in world.db.identities
             && var reading := LastRead(cfg, InitialWorld(now), events, world.db.identities[identity].githubUserId);
             && reading.Some? && RepoAccess(repo, Admin) in reading.value.repos
    ensures Answer(cfg, Run(cfg, InitialWorld(now), events), PutPolicy(caller, repo, payload)).response == Accepted
  {
    var world := Run(cfg, InitialWorld(now), events);
    TablesHoldTheLastRead(cfg, now, events, identity);
    var reading := LastRead(cfg, InitialWorld(now), events, world.db.identities[identity].githubUserId).value;
    assert AccessRow(identity, repo, Admin) in SnapshotRows(identity, reading.repos);
    assert AccessRow(identity, repo, Admin) in RowsOf(world.db.access, identity);
    ResolvedSpeaks(world.db, caller);
    PutIsDecided(cfg, world, caller, repo, payload);
  }
}
