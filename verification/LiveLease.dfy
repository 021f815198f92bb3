/**
 What a lease is worth. From the hand-over to the last moment of its time the job is the client's: nobody
 else is granted it and the client's report is taken. Once it has run out, the next committed sweep frees it.
 The time, the columns and the answers are written out here.
 */
module LiveLease {
  import opened Models
  import opened Dispatch
  import opened JobTable
  import opened HubMachine
  import opened TableInvariant

  /** The job is leased to this client until this moment. */
  predicate HeldUntil(db: Db, id: JobId, client: ClientId, until: Instant) {
    && id in db.jobs && client in db.clients
    && db.jobs[id].state == Leased
    && db.jobs[id].leasedBy == Some(client)
    && db.jobs[id].leaseExpiresAt == Some(until)
  }

  /** The client's own report of the job, and its revocation, are what can end a lease early. */
  predicate EndsLease(cfg: Settings, world: World, event: Event, client: ClientId, id: JobId) {
    || (event.Report? && event.client == client && event.job == id)
    || (event.Revoke? && event.target == client && Answer(cfg, world, event).response == Accepted)
  }

  /** This request of the client's, polled or named, is granted this job. */
  predicate HandsOver(cfg: Settings, world: World, lease: Event, client: ClientId, id: JobId) {
    (lease == LeaseNext(client) || lease == LeaseNamed(client, id)) && Answer(cfg, world, lease).response == Granted(id)
  }

  /** A hand-over leases the job for the configured number of seconds, each a million microseconds. */
  lemma GrantHolds(cfg: Settings, world: World, event: Event, client: ClientId, id: JobId)
    requires HandsOver(cfg, world, event, client, id)
    ensures HeldUntil(Step(cfg, world, event).db, id, client, world.now + cfg.leaseTtlSeconds * 1_000_000)
    ensures Step(cfg, world, event).now == world.now
  {
    GrantedWasQueued(cfg, world, event);
  }

  /** What a step makes of a report that is not the holder's. */
  lemma OthersCannotReport(cfg: Settings, world: World, event: Event, client: ClientId, id: JobId, until: Instant)
    requires HeldUntil(world.db, id, client, until) && event.Report? && event.job == id && event.client != client
    ensures Answer(cfg, world, event).response != Recorded
  {
  }

  lemma LeaseOutlivesStep(cfg: Settings, world: World, event: Event, client: ClientId, id: JobId, until: Instant)
    requires Sound(cfg, world) && HeldUntil(world.db, id, client, until)
    requires world.now <= until && !EndsLease(cfg, world, event, client, id)
    ensures HeldUntil(Step(cfg, world, event).db, id, client, until)
    ensures Answer(cfg, world, event).response != Granted(id)
  {
    RowStep(cfg, world, event, id);
    AnswerFitsRow(cfg, world, event, id);
    ClientsShrinkOnlyByRevoke(cfg, world, event);
    if event.Report? && event.job == id {
      OthersCannotReport(cfg, world, event, client, id, until);
    }
    HeldRowStays(cfg, world, event, Answer(cfg, world, event).response, client, id, until);
  }

  lemma HeldRowStays(cfg: Settings, world: World, event: Event, response: Response, client: ClientId, id: JobId, until: Instant)
    requires HeldUntil(world.db, id, client, until) && world.now <= until
    requires AnswerFits(world, event, response, id, world.db.jobs[id])
    requires event.Report? && event.job == id ==> response != Recorded
    requires event.Revoke? && event.target == client ==> response != Accepted
    ensures response != Granted(id)
    ensures var row := RowAfter(cfg, world.now, event, response, id, world.db.jobs[id]);
            row.state == Leased && row.leasedBy == Some(client) && row.leaseExpiresAt == Some(until)
  {
  }

  /** Nothing in this run ends the lease early. */
  predicate LeaseLeftAlone(cfg: Settings, world: World, events: seq<Event>, client: ClientId, id: JobId) {
    forall k | 0 <= k < |events| :: !EndsLease(cfg, Before(cfg, world, events, k), events[k], client, id)
  }

  lemma AloneBefore(cfg: Settings, world: World, events: seq<Event>, client: ClientId, id: JobId, n: nat)
    requires LeaseLeftAlone(cfg, world, events, client, id) && n < |events|
    ensures LeaseLeftAlone(cfg, world, events[..n], client, id)
    ensures !EndsLease(cfg, Run(cfg, world, events[..n]), events[n], client, id)
  {
    forall k | 0 <= k < n
      ensures !EndsLease(cfg, Before(cfg, world, events[..n], k), events[..n][k], client, id)
    {
      assert events[..n][..k] == events[..k];
      assert !EndsLease(cfg, Before(cfg, world, events, k), events[k], client, id);
    }
    assert !EndsLease(cfg, Before(cfg, world, events, n), events[n], client, id);
  }

  lemma ClockAdvances(cfg: Settings, world: World, event: Event)
    ensures world.now <= Step(cfg, world, event).now
  {
  }

  /** No lease request of this run, by whichever client, is granted the job. */
  predicate NeverGranted(cfg: Settings, world: World, events: seq<Event>, id: JobId) {
    if events == [] then true
    else
      var before, last := events[..|events| - 1], events[|events| - 1];
      NeverGranted(cfg, world, before, id) && Answer(cfg, Run(cfg, world, before), last).response != Granted(id)
  }

  lemma ResponseOfPrefix(cfg: Settings, world: World, events: seq<Event>, n: nat, k: nat)
    requires k < n <= |events|
    ensures ResponseAt(cfg, world, events[..n], k) == ResponseAt(cfg, world, events, k)
  {
    assert events[..n][..k] == events[..k];
  }

  /** That is, at no point of it. */
  lemma {:induction false} NeverMeansAtNoPoint(cfg: Settings, world: World, events: seq<Event>, id: JobId, k: nat)
    requires NeverGranted(cfg, world, events, id) && k < |events|
    ensures ResponseAt(cfg, world, events, k) != Granted(id)
  {
    if k == |events| - 1 {
    } else {
      NeverMeansAtNoPoint(cfg, world, events[..|events| - 1], id, k);
      ResponseOfPrefix(cfg, world, events, |events| - 1, k);
    }
  }

  lemma {:induction false} LeaseOutlivesRun(cfg: Settings, world: World, events: seq<Event>, client: ClientId, id: JobId, until: Instant)
    requires Sound(cfg, world) && HeldUntil(world.db, id, client, until)
    requires LeaseLeftAlone(cfg, world, events, client, id)
    requires Run(cfg, world, events).now <= until
    ensures HeldUntil(Run(cfg, world, events).db, id, client, until)
    ensures NeverGranted(cfg, world, events, id)
  {
    if events == [] {
    } else {
      var n := |events| - 1;
      var middle := Run(cfg, world, events[..n]);
      AloneBefore(cfg, world, events, client, id, n);
      ClockAdvances(cfg, middle, events[n]);
      LeaseOutlivesRun(cfg, world, events[..n], client, id, until);
      RunKeepsSound(cfg, world, events[..n]);
      LeaseOutlivesStep(cfg, middle, events[n], client, id, until);
    }
  }

  /**
   Whatever happens after a hand-over, short of the client's own report or its revocation: until the last
   microsecond of its time the job stays leased to that client, no lease request of anybody is granted it,
   and the client's report would be recorded.
   */
  lemma LiveLeaseIsKept(cfg: Settings, world: World, lease: Event, events: seq<Event>, client: ClientId, id: JobId, result: ReportPayload)
    requires Sound(cfg, world) && HandsOver(cfg, world, lease, client, id)
    requires LeaseLeftAlone(cfg, Step(cfg, world, lease), events, client, id)
    requires Run(cfg, Step(cfg, world, lease), events).now <= world.now + cfg.leaseTtlSeconds * 1_000_000
    ensures var after := Run(cfg, Step(cfg, world, lease), events);
            && HeldUntil(after.db, id, client, world.now + cfg.leaseTtlSeconds * 1_000_000)
            && Answer(cfg, after, Report(client, id, result)).response == Recorded
    ensures NeverGranted(cfg, Step(cfg, world, lease), events, id)
  {
    var granted := Step(cfg, world, lease);
    GrantHolds(cfg, world, lease, client, id);
    StepKeepsSound(cfg, world, lease);
    HeldIsWorth(cfg, granted, events, client, id, world.now + cfg.leaseTtlSeconds * 1_000_000, result);
  }

  lemma HeldIsWorth(cfg: Settings, granted: World, events: seq<Event>, client: ClientId, id: JobId, until: Instant, result: ReportPayload)
    requires Sound(cfg, granted) && HeldUntil(granted.db, id, client, until)
    requires LeaseLeftAlone(cfg, granted, events, client, id) && Run(cfg, granted, events).now <= until
    ensures HeldUntil(Run(cfg, granted, events).db, id, client, until)
    ensures Answer(cfg, Run(cfg, granted, events), Report(client, id, result)).response == Recorded
    ensures NeverGranted(cfg, granted, events, id)
  {
    LeaseOutlivesRun(cfg, granted, events, client, id, until);
    HolderMayReport(cfg, Run(cfg, granted, events), client, id, until, result);
  }

  lemma HolderMayReport(cfg: Settings, world: World, client: ClientId, id: JobId, until: Instant, result: ReportPayload)
    requires HeldUntil(world.db, id, client, until)
    ensures Answer(cfg, world, Report(client, id, result)).response == Recorded
  {
  }

  /** A lease that has run out is over at the first committed sweep: requeued with attempts left, else exhausted, or granted again. */
  lemma LapsedLeaseIsFreed(cfg: Settings, world: World, event: Event, client: ClientId, id: JobId, until: Instant)
    requires Sound(cfg, world) && HeldUntil(world.db, id, client, until) && until < world.now
    requires event.LeaseNext? || event.LeaseNamed?
    requires var response := Answer(cfg, world, event).response;
             response.Granted? || response == QueueDry || response == NotAvailable
    ensures id in Step(cfg, world, event).db.jobs
    ensures var row, after := world.db.jobs[id], Step(cfg, world, event).db.jobs[id];
            if Answer(cfg, world, event).response == Granted(id) then
              row.attempts < row.maxAttempts && after.state == Leased && after.leasedBy == Some(event.client)
            else
              && after.state == (if row.attempts < row.maxAttempts then Queued else Exhausted)
              && after.leasedBy == None && after.leaseExpiresAt == None
  {
    RowStep(cfg, world, event, id);
    AnswerFitsRow(cfg, world, event, id);
  }

  /** A refused lease, stale or otherwise, frees nothing: what it swept was rolled back. */
  lemma RefusedLeaseChangesNothing(cfg: Settings, world: World, event: Event)
    requires event.LeaseNext? || event.LeaseNamed?
    requires var response := Answer(cfg, world, event).response;
             !(response.Granted? || response == QueueDry || response == NotAvailable)
    ensures Step(cfg, world, event) == world
  {
  }

  // ---- answers, column by column ----

  /** The snapshot behind the client is older than the TTL: only in github mode, and only for a linked client. */
  predicate Outdated(cfg: Settings, world: World, client: Client) {
    && cfg.mode == GithubMode && client.identityId.Some?
    && (client.identityId.value in world.db.identities ==>
          world.now - world.db.identities[client.identityId.value].refreshedAt > cfg.accessTtlSeconds * 1_000_000)
  }

  /** A poll is refused for an unknown, absent or outdated client, in that order, and for nothing else. */
  lemma PollIsDecided(cfg: Settings, world: World, client: ClientId)
    ensures var response := Answer(cfg, world, LeaseNext(client)).response;
            if client !in world.db.clients then response == Unauthorized
            else if world.db.clients[client].status != CheckedIn then response == CheckInFirst
            else if Outdated(cfg, world, world.db.clients[client]) then response == StaleAccess
            else response.Granted? || response == QueueDry
  {
  }

  /** In github mode, a repo the last snapshot lists; elsewhere, any. */
  predicate InReach(cfg: Settings, db: Db, identity: Option<IdentityId>, repo: RepoName) {
    cfg.mode == GithubMode ==>
      identity.Some? && exists row | row in db.access :: row.identityId == identity.value && row.repo == repo
  }

  /** The model is on the repo's list, or in a group on it, or the repo lists neither. */
  predicate ModelIsWelcome(cfg: Settings, db: Db, repo: RepoName, model: string) {
    repo in db.policies ==>
      var policy := db.policies[repo];
      || (policy.acceptedModels == [] && policy.acceptedGroups == [])
      || model in policy.acceptedModels
      || exists group | group in policy.acceptedGroups :: group in cfg.modelGroups && model in cfg.modelGroups[group]
  }

  predicate StrategiesMeet(requested: seq<string>, offered: seq<string>) {
    requested == [] || exists s | s in requested :: s in offered
  }

  predicate ClearsFloor(floor: ModelTier, tier: ModelTier) {
    floor == Experimental || tier == Frontier || floor == tier
  }

  lemma ClausesInColumns(cfg: Settings, db: Db, client: Client, job: Job)
    ensures job.minTier in TiersAtOrBelow(client.tier) <==> ClearsFloor(job.minTier, client.tier)
    ensures AllowlistClause(cfg, db.policies, job.spec.repo, client.modelName) <==> ModelIsWelcome(cfg, db, job.spec.repo, client.modelName)
    ensures StrategyClause(job.requested, client.offered) <==> StrategiesMeet(job.requested, client.offered)
    ensures Reaches(AccessibleRepos(cfg, db, client.identityId), job.spec.repo) <==> InReach(cfg, db, client.identityId, job.spec.repo)
  {
    TierFloor(job.minTier, client.tier);
    AllowlistInColumns(cfg, db, job.spec.repo, client.modelName);
    StrategyTwins(job.requested, client.offered);
    StrategiesInColumns(job.requested, client.offered);
    ReachInColumns(cfg, db, client.identityId, job.spec.repo);
  }

  lemma AllowlistInColumns(cfg: Settings, db: Db, repo: RepoName, model: string)
    ensures AllowlistClause(cfg, db.policies, repo, model) <==> ModelIsWelcome(cfg, db, repo, model)
  {
    AllowlistTwins(cfg, db.policies, repo, model);
  }

  lemma StrategiesInColumns(requested: seq<string>, offered: seq<string>)
    ensures StrategyClause(requested, offered) <==> StrategiesMeet(requested, offered)
  {
    if s :| s in requested && s in offered {
      assert s in (set t | t in offered);
    }
  }

  lemma ReachInColumns(cfg: Settings, db: Db, identity: Option<IdentityId>, repo: RepoName)
    ensures Reaches(AccessibleRepos(cfg, db, identity), repo) <==> InReach(cfg, db, identity, repo)
  {
    if identity.Some? {
      if row :| row in db.access && row.identityId == identity.value && row.repo == repo {
        assert repo in ReposOf(db.access, identity.value);
      }
    }
  }

  /** A named lease meets its refusals in this order: absent, hidden, floor, models, strategies, outdated, not in the queue. */
  lemma NamedLeaseIsDecided(cfg: Settings, world: World, client: ClientId, id: JobId)
    ensures var response := Answer(cfg, world, LeaseNamed(client, id)).response;
            if client !in world.db.clients then response == Unauthorized
            else
              var machine := world.db.clients[client];
              if machine.status != CheckedIn then response == CheckInFirst
              else if id !in world.db.jobs || !InReach(cfg, world.db, machine.identityId, world.db.jobs[id].spec.repo) then response == NotFound
              else
                var job := world.db.jobs[id];
                if !ClearsFloor(job.minTier, machine.tier) then response == TierTooLow
                else if !ModelIsWelcome(cfg, world.db, job.spec.repo, machine.modelName) then response == ModelRefused
                else if !StrategiesMeet(job.requested, machine.offered) then response == StrategyRefused
                else if Outdated(cfg, world, machine) then response == StaleAccess
                else if QueuedAfterSweep(job, world.now) then response == Granted(id)
                else response == NotAvailable
  {
    if client in world.db.clients && id in world.db.jobs {
      var machine, job := world.db.clients[client], world.db.jobs[id];
      ClausesInColumns(cfg, world.db, machine, job);
      AllowlistTwins(cfg, world.db.policies, job.spec.repo, machine.modelName);
      StrategyTwins(job.requested, machine.offered);
      NamedGates(cfg, world, client, id);
    }
  }

  predicate QueuedAfterSweep(job: Job, now: Instant) {
    || job.state == Queued
    || (job.state == Leased && job.leaseExpiresAt.Some? && job.leaseExpiresAt.value < now && job.attempts < job.maxAttempts)
  }

  lemma NamedGates(cfg: Settings, world: World, client: ClientId, id: JobId)
    requires client in world.db.clients && id in world.db.jobs
    ensures var machine, swept := world.db.clients[client], Reclaimed(world.db, world.now);
            id in EligibleIds(cfg, swept, machine) <==>
              && QueuedAfterSweep(world.db.jobs[id], world.now)
              && world.db.jobs[id].minTier in TiersAtOrBelow(machine.tier)
              && AllowlistClause(cfg, world.db.policies, world.db.jobs[id].spec.repo, machine.modelName)
              && StrategyClause(world.db.jobs[id].requested, machine.offered)
              && Reaches(AccessibleRepos(cfg, world.db, machine.identityId), world.db.jobs[id].spec.repo)
  {
  }

  /** A report is recorded if and only if the job is leased to the client that makes it, however late it comes. */
  lemma ReportIsDecided(cfg: Settings, world: World, client: ClientId, id: JobId, result: ReportPayload)
    ensures var response := Answer(cfg, world, Report(client, id, result)).response;
            if client !in world.db.clients then response == Unauthorized
            else if id !in world.db.jobs then response == NotFound
            else if world.db.jobs[id].state == Leased && world.db.jobs[id].leasedBy == Some(client) then response == Recorded
            else response == NotLeaseholder
    ensures Answer(cfg, world, Report(client, id, result)).response != Recorded ==>
      Step(cfg, world, Report(client, id, result)) == world
    ensures Answer(cfg, world, Report(client, id, result)).response == Recorded ==>
      var after := Step(cfg, world, Report(client, id, result));
      && id in after.db.jobs && after.db.jobs - {id} == world.db.jobs - {id}
      && var row, was := after.db.jobs[id], world.db.jobs[id];
      && row.state == Reported && row.reportedBy == Some(client) && row.leasedBy == None && row.leaseExpiresAt == None
      && row.verdict == Some(result.verdict) && row.summary == Some(result.summary) && row.findings == result.findings
      && row.attempts == was.attempts && row.spec == was.spec && row.relayError == was.relayError
      && after.relays == world.relays + {id}
  {
  }
}
