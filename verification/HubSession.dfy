/**
 The services and endpoints as the hub runs them: a request's session holds a working copy of the
 tables, changes rows in place one statement at a time, and commits or rolls back. Each endpoint is
 proved to leave in the database, and to answer, what the step machine says.
 */
module HubSession {
  import opened Models
  import opened Dispatch
  import opened JobTable
  import opened HubMachine
  import opened EventBus

  /** `UPDATE review_job SET ... WHERE ...`, every row decided on the table as it was. */
  function UpdateWhere(jobs: map<JobId, Job>, where: Job -> bool, assign: Job -> Job): map<JobId, Job> {
    map i | i in jobs :: if where(jobs[i]) then assign(jobs[i]) else jobs[i]
  }

  /** The row count an UPDATE reports. */
  function RowCount(jobs: map<JobId, Job>, where: Job -> bool): nat {
    |set i | i in jobs && where(jobs[i])|
  }

  /** What the streams are told about a relayed job. */
  function Announcing(id: JobId, job: Job): BusEvent {
    BusEvent(id, job.spec.repo, job.spec.pr, job.spec.headSha, job.verdict, job.summary)
  }

  datatype LeaseAnswer = StaleRaised | Nothing | Lease(job: JobId)

  datatype Attested = AttestedOk | Swallowed | Denied | KeyViolated

  class Session {
    const cfg: Settings

    /** What other sessions see. */
    var stored: Db

    // this session's working copy
    var jobs: map<JobId, Job>
    var nextJob: nat
    var clients: map<ClientId, Client>
    var nextClient: nat
    var identities: map<IdentityId, Identity>
    var nextIdentity: nat
    var access: set<AccessRow>
    var policies: map<RepoName, Policy>

    ghost function View(): Db
      reads this
    {
      Db(jobs, nextJob, clients, nextClient, identities, nextIdentity, access, policies)
    }

    /** Nothing uncommitted: how a request finds its session, and how it leaves it. */
    ghost predicate Clean()
      reads this
    {
      View() == stored
    }

    constructor (cfg: Settings, stored: Db)
      ensures this.cfg == cfg && this.stored == stored && Clean()
    {
      this.cfg := cfg;
      this.stored := stored;
      jobs, nextJob := stored.jobs, stored.nextJob;
      clients, nextClient := stored.clients, stored.nextClient;
      identities, nextIdentity := stored.identities, stored.nextIdentity;
      access, policies := stored.access, stored.policies;
    }

    method Commit()
      modifies this`stored
      ensures stored == View() && Clean()
    {
      stored := Db(jobs, nextJob, clients, nextClient, identities, nextIdentity, access, policies);
    }

    method Rollback()
      modifies this
      ensures stored == old(stored) && Clean()
    {
      jobs, nextJob := stored.jobs, stored.nextJob;
      clients, nextClient := stored.clients, stored.nextClient;
      identities, nextIdentity := stored.identities, stored.nextIdentity;
      access, policies := stored.access, stored.policies;
    }

    // ---- job service ----

    method EnqueueJob(spec: JobSpec) returns (created: Option<JobId>)
      modifies this`jobs, this`nextJob
      ensures View() == EnqueueOutcome(old(View()), spec).db
      ensures created == match EnqueueOutcome(old(View()), spec).response case Enqueued(id) => Some(id) case _ => None
    {
      if spec.repo in policies && !policies[spec.repo].enabled {
        return None;
      }
      var active := Oldest(set i | i in jobs && jobs[i].Active() && jobs[i].SameHeadAs(spec));
      if active.Some? {
        return None;
      }
      var job := NewJob(spec, policies);
      created := Some(nextJob);
      jobs := jobs[nextJob := job];
      nextJob := nextJob + 1;
    }

    method CancelQueuedJobsForPr(repo: RepoName, pr: int) returns (cancelled: nat)
      modifies this`jobs
      ensures jobs == CancelQueued(old(jobs), repo, pr)
      ensures cancelled == |CancelledIds(old(jobs), repo, pr)|
    {
      var where := (job: Job) => job.spec.repo == repo && job.spec.pr == pr && job.state == Queued;
      cancelled := RowCount(jobs, where);
      assert (set i | i in jobs && where(jobs[i])) == CancelledIds(jobs, repo, pr);
      jobs := UpdateWhere(jobs, where, (job: Job) => job.(state := Cancelled));
    }

    /** Requeue the matching leases that have attempts left, then exhaust the ones that remain. */
    method TransitionLeasedJobs(filter: LeaseFilter) returns (requeued: nat)
      modifies this`jobs
      ensures jobs == Transition(old(jobs), filter)
      ensures requeued == |Requeued(old(jobs), filter)|
    {
      var retryable := (job: Job) => job.state == Leased && filter.Matches(job) && job.attempts < job.maxAttempts;
      requeued := RowCount(jobs, retryable);
      assert (set i | i in jobs && retryable(jobs[i])) == Requeued(jobs, filter);
      jobs := UpdateWhere(jobs, retryable,
                          (job: Job) => job.(state := Queued, leasedBy := None, leaseExpiresAt := None));
      jobs := UpdateWhere(jobs, (job: Job) => job.state == Leased && filter.Matches(job),
                          (job: Job) => job.(state := Exhausted, leasedBy := None, leaseExpiresAt := None));
    }

    method ReclaimExpiredLeases(now: Instant) returns (requeued: nat)
      modifies this`jobs
      ensures View() == Reclaimed(old(View()), now)
      ensures requeued == |Requeued(old(jobs), LapsedBefore(now))|
    {
      requeued := TransitionLeasedJobs(LapsedBefore(now));
    }

    method ReleaseLeasedJobsForClient(client: ClientId) returns (requeued: nat)
      modifies this`jobs
      ensures jobs == Transition(old(jobs), HeldBy(client))
      ensures requeued == |Requeued(old(jobs), HeldBy(client))|
    {
      requeued := TransitionLeasedJobs(HeldBy(client));
    }

    method HandOver(now: Instant, id: JobId, client: ClientId)
      requires id in jobs
      modifies this`jobs
      ensures View() == LeasedTo(cfg, old(View()), now, id, client)
      ensures jobs.Keys == old(jobs).Keys && jobs - {id} == old(jobs) - {id}
      ensures jobs[id] == old(jobs)[id].(state := Leased, leasedBy := Some(client), attempts := old(jobs)[id].attempts + 1,
                                         leaseExpiresAt := Some(now + cfg.leaseTtlSeconds * 1_000_000))
    {
      jobs := jobs[id := jobs[id].(state := Leased)];
      jobs := jobs[id := jobs[id].(leasedBy := Some(client))];
      jobs := jobs[id := jobs[id].(leaseExpiresAt := Some(After(now, cfg.leaseTtlSeconds)))];
      jobs := jobs[id := jobs[id].(attempts := jobs[id].attempts + 1)];
      assert jobs[id] == HandedOver(cfg, now, old(jobs)[id], client);
    }

    /** The reclaim runs first, so a stale caller has already swept the table when it is refused. */
    method LeaseNextJob(now: Instant, client: ClientId) returns (answer: LeaseAnswer)
      requires client in clients
      modifies this`jobs
      ensures answer == StaleRaised <==> AccessIsStale(cfg, old(View()), now, clients[client].identityId)
      ensures answer != StaleRaised ==>
        match Oldest(EligibleIds(cfg, Reclaimed(old(View()), now), clients[client]))
        case None => answer == Nothing && View() == Reclaimed(old(View()), now)
        case Some(id) => answer == Lease(id) && View() == LeasedTo(cfg, Reclaimed(old(View()), now), now, id, client)
    {
      var _ := ReclaimExpiredLeases(now);
      var db := Db(jobs, nextJob, clients, nextClient, identities, nextIdentity, access, policies);
      if AccessIsStale(cfg, db, now, clients[client].identityId) {
        return StaleRaised;
      }
      var pick := Oldest(EligibleIds(cfg, db, clients[client]));
      if pick.None? {
        return Nothing;
      }
      HandOver(now, pick.value, client);
      answer := Lease(pick.value);
    }

    method LeaseSpecificJob(now: Instant, client: ClientId, id: JobId) returns (answer: LeaseAnswer)
      requires client in clients
      modifies this`jobs
      ensures answer == StaleRaised <==> AccessIsStale(cfg, old(View()), now, clients[client].identityId)
      ensures answer != StaleRaised ==>
        if id in EligibleIds(cfg, Reclaimed(old(View()), now), clients[client])
        then answer == Lease(id) && View() == LeasedTo(cfg, Reclaimed(old(View()), now), now, id, client)
        else answer == Nothing && View() == Reclaimed(old(View()), now)
    {
      var _ := ReclaimExpiredLeases(now);
      var db := Db(jobs, nextJob, clients, nextClient, identities, nextIdentity, access, policies);
      if AccessIsStale(cfg, db, now, clients[client].identityId) {
        return StaleRaised;
      }
      if id !in jobs || !Eligible(cfg, db, clients[client], jobs[id]) {
        return Nothing;
      }
      HandOver(now, id, client);
      answer := Lease(id);
    }

    method ReportJob(id: JobId, client: ClientId, result: ReportPayload)
      requires id in jobs
      modifies this`jobs
      ensures jobs == old(jobs)[id := ReportedRow(old(jobs)[id], client, result)]
    {
      jobs := jobs[id := jobs[id].(state := Reported)];
      jobs := jobs[id := jobs[id].(verdict := Some(result.verdict))];
      jobs := jobs[id := jobs[id].(summary := Some(result.summary))];
      jobs := jobs[id := jobs[id].(findings := result.findings)];
      jobs := jobs[id := jobs[id].(reportedBy := Some(client))];
      jobs := jobs[id := jobs[id].(leasedBy := None)];
      jobs := jobs[id := jobs[id].(leaseExpiresAt := None)];
      assert jobs[id] == ReportedRow(old(jobs)[id], client, result);
    }

    // ---- identity service ----

    /**
     Upsert the account's row, delete its access rows, insert the new ones. The unique key refuses a
     repeated repo, which is the only way this fails; the caller's rollback then undoes the rest.
     */
    method GetOrCreateIdentity(now: Instant, userId: int, login: string, repos: seq<RepoAccess>) returns (identity: Option<IdentityId>)
      modifies this`identities, this`nextIdentity, this`access
      ensures identity.None? <==> !DistinctNames(repos)
      ensures identity.Some? ==>
        identity.value == IdentityFor(old(View()), userId) && View() == IdentityUpserted(old(View()), now, userId, login, repos)
    {
      var found := Oldest(set i | i in identities && identities[i].githubUserId == userId);
      assert (set i | i in identities && identities[i].githubUserId == userId) == IdentitiesOf(identities, userId);
      var id := nextIdentity;
      if found.None? {
        identities := identities[id := Identity(userId, login, now)];
        nextIdentity := nextIdentity + 1;
      } else {
        id := found.value;
        identities := identities[id := identities[id].(login := login)];
        identities := identities[id := identities[id].(refreshedAt := now)];
      }
      assert identities == old(identities)[id := Identity(userId, login, now)];
      access := set row | row in access && row.identityId != id;
      assert access == OtherRows(old(access), id);
      var inserted := InsertAccess(id, repos);
      identity := if inserted then Some(id) else None;
    }

    /** Insert a whole snapshot for an identity that has no rows. */
    method InsertAccess(identity: IdentityId, repos: seq<RepoAccess>) returns (inserted: bool)
      requires forall row | row in access :: row.identityId != identity
      modifies this`access
      ensures inserted <==> DistinctNames(repos)
      ensures inserted ==> access == old(access) + SnapshotRows(identity, repos)
    {
      for i := 0 to |repos|
        invariant access == old(access) + SnapshotRows(identity, repos[..i])
        invariant DistinctNames(repos[..i])
      {
        if exists row | row in access :: row.identityId == identity && row.repo == repos[i].repo {
          KeyTaken(repos, i, identity);
          return false;
        }
        forall k | 0 <= k < i
          ensures repos[k].repo != repos[i].repo
        {
          assert repos[..i][k] in repos[..i];
          assert AccessRow(identity, repos[k].repo, repos[k].permission) in access;
        }
        access := access + {AccessRow(identity, repos[i].repo, repos[i].permission)};
        assert repos[..i + 1] == repos[..i] + [repos[i]];
      }
      assert repos[..|repos|] == repos;
      inserted := true;
    }

    /** Re-attestation at check-in. Only an accepted read writes anything. */
    method ReattestIdentity(now: Instant, client: ClientId, github: GithubAnswer) returns (attested: Attested)
      requires client in clients
      modifies this`identities, this`nextIdentity, this`access, this`clients
      ensures match Reattest(cfg, old(View()), now, client, github)
              case Admitted(db, identity) =>
                && (attested == AttestedOk || attested == Swallowed)
                && View() == db.(clients := old(clients)[client := old(clients)[client].(identityId := identity)])
              case Refused(response) =>
                && (attested == Denied <==> response == Unauthorized)
                && (attested == KeyViolated <==> response == ConstraintViolated)
                && (attested == Denied || attested == KeyViolated)
    {
      if cfg.mode != GithubMode {
        return AttestedOk;
      }
      if github.Unreachable? {
        return Swallowed;
      }
      if github.Rejected? {
        return Denied;
      }
      var linked := clients[client].identityId;
      if linked.Some? {
        if linked.value !in identities || identities[linked.value].githubUserId != github.userId {
          return Denied;
        }
      }
      var identity := GetOrCreateIdentity(now, github.userId, github.login, github.repos);
      if identity.None? {
        return KeyViolated;
      }
      if clients[client].identityId.None? {
        clients := clients[client := clients[client].(identityId := identity)];
      }
      attested := AttestedOk;
    }

    /** A GitHub token spent on enrolment or sign-in. */
    method ResolveGithubToken(now: Instant, github: GithubAnswer) returns (resolved: Resolved)
      modifies this`identities, this`nextIdentity, this`access
      ensures resolved.Refused? <==> ResolveToken(old(View()), now, github).Refused?
      ensures resolved.Refused? ==> resolved == ResolveToken(old(View()), now, github)
      ensures resolved.Admitted? ==> resolved == ResolveToken(old(View()), now, github) && View() == resolved.db
    {
      match github
      case Unreachable => resolved := Refused(GithubDown);
      case Rejected => resolved := Refused(Unauthorized);
      case Account(userId, login, repos) =>
        var identity := GetOrCreateIdentity(now, userId, login, repos);
        if identity.None? {
          resolved := Refused(ConstraintViolated);
        } else {
          resolved := Admitted(Db(jobs, nextJob, clients, nextClient, identities, nextIdentity, access, policies), identity);
        }
    }

    // ---- client service ----

    method RegisterClient(model: string, tier: ModelTier, identity: Option<IdentityId>) returns (client: ClientId)
      modifies this`clients, this`nextClient
      ensures client == old(nextClient) && nextClient == old(nextClient) + 1
      ensures clients == old(clients)[client := Client(model, tier, identity, CheckedOut, [])]
    {
      client := nextClient;
      clients := clients[client := Client(model, tier, identity, CheckedOut, [])];
      nextClient := nextClient + 1;
    }

    method SetClientStatus(client: ClientId, status: ClientStatus)
      requires client in clients
      modifies this`clients
      ensures clients == old(clients)[client := old(clients)[client].(status := status)]
    {
      clients := clients[client := clients[client].(status := status)];
    }

    /** Delete the row; the two foreign keys to it are ON DELETE SET NULL. */
    method DeleteClient(client: ClientId)
      modifies this`clients, this`jobs
      ensures clients == old(clients) - {client}
      ensures jobs == Forgotten(old(jobs), client)
    {
      clients := clients - {client};
      jobs := UpdateWhere(jobs, (job: Job) => job.leasedBy == Some(client), (job: Job) => job.(leasedBy := None));
      jobs := UpdateWhere(jobs, (job: Job) => job.reportedBy == Some(client), (job: Job) => job.(reportedBy := None));
    }

    // ---- policy service ----

    /** Groups are checked before any row is fetched, so a rejected PUT has changed nothing. */
    method UpsertPolicy(repo: RepoName, payload: PolicyPayload) returns (written: bool)
      modifies this`policies
      ensures written <==> GroupsDefined(cfg, payload)
      ensures policies ==
        if written then old(policies)[repo := PolicyAfter(StoredPolicy(old(View()), repo), payload)] else old(policies)
    {
      var named := if payload.acceptedGroups.Some? then payload.acceptedGroups.value else [];
      if exists group | group in named :: group !in cfg.modelGroups {
        return false;
      }
      var policy;
      if repo !in policies {
        policy := Policy(
          payload.minTier,
          payload.enabled,
          if payload.defaultStrategies.Some? then payload.defaultStrategies.value else [],
          if payload.acceptedModels.Some? then payload.acceptedModels.value else [],
          if payload.acceptedGroups.Some? then payload.acceptedGroups.value else []);
      } else {
        policy := policies[repo];
        policy := policy.(minTier := payload.minTier);
        policy := policy.(enabled := payload.enabled);
        if payload.defaultStrategies.Some? {
          policy := policy.(defaultStrategies := payload.defaultStrategies.value);
        }
        if payload.acceptedModels.Some? {
          policy := policy.(acceptedModels := payload.acceptedModels.value);
        }
        if payload.acceptedGroups.Some? {
          policy := policy.(acceptedGroups := payload.acceptedGroups.value);
        }
      }
      policies := policies[repo := policy];
      written := true;
    }

    // ---- endpoints ----

    method WebhookEndpoint(spec: JobSpec) returns (response: Response)
      requires Clean()
      modifies this
      ensures Clean() && Outcome(stored, response) == EnqueueOutcome(old(stored), spec)
    {
      var created := EnqueueJob(spec);
      Commit();
      response := if created.None? then Skipped else Enqueued(created.value);
    }

    method PrClosedEndpoint(repo: RepoName, pr: int) returns (response: Response)
      requires Clean()
      modifies this
      ensures Clean() && Outcome(stored, response) == ClosePrOutcome(old(stored), repo, pr)
    {
      var cancelled := CancelQueuedJobsForPr(repo, pr);
      Commit();
      response := CancelledJobs(cancelled);
    }

    method RegisterEndpoint(now: Instant, model: string, tier: ModelTier, secretMatches: bool, github: GithubAnswer) returns (response: Response)
      requires Clean()
      modifies this
      ensures Clean() && Outcome(stored, response) == EnrolOutcome(cfg, old(stored), now, model, tier, secretMatches, github)
    {
      var identity: Option<IdentityId> := None;
      if cfg.mode != GithubMode {
        if !secretMatches {
          return Unauthorized;
        }
      } else {
        var resolved := ResolveGithubToken(now, github);
        if resolved.Refused? {
          Rollback();
          return resolved.response;
        }
        identity := resolved.identity;
      }
      var client := RegisterClient(model, tier, identity);
      Commit();
      response := Enrolled(client);
    }

    method SignInEndpoint(now: Instant, github: GithubAnswer) returns (response: Response)
      requires Clean()
      modifies this
      ensures Clean() && Outcome(stored, response) == SignInOutcome(old(stored), now, github)
    {
      var resolved := ResolveGithubToken(now, github);
      if resolved.Refused? {
        Rollback();
        return resolved.response;
      }
      Commit();
      response := SignedIn;
    }

    method CheckInEndpoint(now: Instant, client: ClientId, token: Option<GithubAnswer>, offered: Option<seq<string>>) returns (response: Response)
      requires Clean()
      modifies this
      ensures Clean() && Outcome(stored, response) == CheckInOutcome(cfg, old(stored), now, client, token, offered)
    {
      if client !in clients {
        return Unauthorized;
      }
      if token.Some? {
        var attested := ReattestIdentity(now, client, token.value);
        if attested == Denied || attested == KeyViolated {
          Rollback();
          return if attested == Denied then Unauthorized else ConstraintViolated;
        }
      }
      if offered.Some? {
        clients := clients[client := clients[client].(offered := offered.value)];
      }
      SetClientStatus(client, CheckedIn);
      Commit();
      response := CheckedInFor(cfg.accessTtlSeconds);
    }

    method CheckOutEndpoint(client: ClientId) returns (response: Response)
      requires Clean()
      modifies this
      ensures Clean() && Outcome(stored, response) == CheckOutOutcome(old(stored), client)
    {
      if client !in clients {
        return Unauthorized;
      }
      SetClientStatus(client, CheckedOut);
      Commit();
      response := Accepted;
    }

    method RevokeEndpoint(caller: Credential, target: ClientId) returns (response: Response)
      requires Clean()
      modifies this
      ensures Clean() && Outcome(stored, response) == RevokeOutcome(cfg, old(stored), caller, target)
    {
      var speaker: Option<IdentityId> := None;
      if cfg.mode == DevMode {
        if caller != DevSecret {
          return Unauthorized;
        }
      } else {
        var resolved := ResolveCaller(stored, caller);
        if resolved.Nobody? {
          return Unauthorized;
        }
        speaker := resolved.identity;
      }
      if target !in clients {
        return NotFound;
      }
      if cfg.mode != DevMode && (speaker.None? || clients[target].identityId != speaker) {
        return NotFound;
      }
      var _ := ReleaseLeasedJobsForClient(target);
      DeleteClient(target);
      Commit();
      response := Accepted;
    }

    method PutPolicyEndpoint(caller: Credential, repo: RepoName, payload: PolicyPayload) returns (response: Response)
      requires Clean()
      modifies this
      ensures Clean() && Outcome(stored, response) == PutPolicyOutcome(cfg, old(stored), caller, repo, payload)
    {
      var refusal := PolicyWriteRefusal(cfg, stored, caller, repo);
      if refusal.Some? {
        return refusal.value;
      }
      var written := UpsertPolicy(repo, payload);
      if !written {
        return UnknownGroups;
      }
      Commit();
      response := Accepted;
    }

    /** A stale refusal raises before the commit, so it also undoes the reclaim it began with. */
    method LeaseJobEndpoint(now: Instant, client: ClientId) returns (response: Response)
      requires Clean()
      modifies this
      ensures Clean() && Outcome(stored, response) == LeaseNextOutcome(cfg, old(stored), now, client)
    {
      if client !in clients {
        return Unauthorized;
      }
      if clients[client].status != CheckedIn {
        return CheckInFirst;
      }
      var answer := LeaseNextJob(now, client);
      if answer.StaleRaised? {
        Rollback();
        return StaleAccess;
      }
      Commit();
      response := if answer.Nothing? then QueueDry else Granted(answer.job);
    }

    method LeaseSpecificJobEndpoint(now: Instant, client: ClientId, id: JobId) returns (response: Response)
      requires Clean()
      modifies this
      ensures Clean() && Outcome(stored, response) == LeaseNamedOutcome(cfg, old(stored), now, client, id)
    {
      if client !in clients {
        return Unauthorized;
      }
      var row := clients[client];
      if row.status != CheckedIn {
        return CheckInFirst;
      }
      var visible := VisibleJob(cfg, stored, row.identityId, id);
      if visible.None? {
        return NotFound;
      }
      var job := visible.value;
      if job.minTier !in TiersAtOrBelow(row.tier) {
        return TierTooLow;
      }
      var models := LiveModels(policies, job.spec.repo);
      var groups := LiveGroups(policies, job.spec.repo);
      if !ModelAllowed(models, groups, row.modelName, cfg.modelGroups) {
        return ModelRefused;
      }
      if !StrategiesOverlap(job.requested, row.offered) {
        return StrategyRefused;
      }
      var answer := LeaseSpecificJob(now, client, id);
      if answer.StaleRaised? {
        Rollback();
        return StaleAccess;
      }
      Commit();
      response := if answer.Nothing? then NotAvailable else Granted(answer.job);
    }

    /** The first commit of the report endpoint: the finished work, before any relay is tried. */
    method ReportJobEndpoint(client: ClientId, id: JobId, result: ReportPayload) returns (response: Response)
      requires Clean()
      modifies this
      ensures Clean() && Outcome(stored, response) == ReportOutcome(old(stored), client, id, result)
    {
      if client !in clients {
        return Unauthorized;
      }
      if id !in jobs {
        return NotFound;
      }
      if jobs[id].state != Leased || jobs[id].leasedBy != Some(client) {
        return NotLeaseholder;
      }
      ReportJob(id, client, result);
      Commit();
      response := Recorded;
    }

    /** The second commit of the report endpoint, once the relay has answered, and the event it then announces. */
    method RecordRelay(id: JobId, error: Option<string>) returns (announced: Option<BusEvent>)
      requires Clean() && id in jobs
      modifies this
      ensures Clean() && stored == old(stored).(jobs := old(jobs)[id := RelayRow(old(jobs)[id], error)])
      ensures announced.Some? <==> error.None?
      ensures announced.Some? ==>
        var row, event := stored.jobs[id], announced.value;
        && row.state == Relayed && row.relayError == None
        && event.job == id && event.repo == row.spec.repo && event.pr == row.spec.pr && event.headSha == row.spec.headSha
        && event.verdict == row.verdict && event.summary == row.summary
    {
      jobs := jobs[id := jobs[id].(relayError := error)];
      if error.None? {
        jobs := jobs[id := jobs[id].(state := Relayed)];
      }
      assert jobs == old(jobs)[id := RelayRow(old(jobs)[id], error)];
      Commit();
      announced := if error.None? then Some(Announcing(id, jobs[id])) else None;
    }
  }

  /** A row already holding the key of the next insert means the list repeats a name. */
  lemma KeyTaken(repos: seq<RepoAccess>, i: nat, identity: IdentityId)
    requires i < |repos|
    requires exists row :: row in SnapshotRows(identity, repos[..i]) && row.repo == repos[i].repo
    ensures !DistinctNames(repos)
  {
  }
}
