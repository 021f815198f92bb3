/**
 What every reachable state of the tables satisfies, and how one step can change one job row.
 The attempt budget is never tested by a lease query; it holds because QUEUED implies attempts < max.
 */
module TableInvariant {
  import opened Models
  import opened Dispatch
  import opened JobTable
  import opened HubMachine

  // ---- the invariant ----

  /** The lease columns as every interleaving keeps them: a lease runs out, but may have lost its holder. */
  predicate LeaseColumnsFit(job: Job) {
    && (job.leasedBy.Some? ==> job.state == Leased)
    && (job.state == Leased <==> job.leaseExpiresAt.Some?)
  }

  /** As serialized requests keep them. */
  predicate LeaseColumnsAgree(job: Job) {
    && (job.state == Leased <==> job.leasedBy.Some?)
    && (job.state == Leased <==> job.leaseExpiresAt.Some?)
  }

  predicate BudgetHolds(job: Job) {
    && 0 <= job.attempts <= job.maxAttempts
    && 1 <= job.maxAttempts
    && (job.state == Queued ==> job.attempts < job.maxAttempts)
    && (job.state == Leased ==> 1 <= job.attempts)
    && (job.state == Exhausted ==> job.attempts == job.maxAttempts)
  }

  predicate VerdictAgrees(job: Job) {
    && (job.verdict.Some? <==> job.Finished())
    && (job.reportedBy.Some? ==> job.Finished())
    && (job.relayError.Some? ==> job.state == Reported)
  }

  predicate HoldersRegistered(clients: map<ClientId, Client>, job: Job) {
    && (job.leasedBy.Some? ==> job.leasedBy.value in clients)
    && (job.reportedBy.Some? ==> job.reportedBy.value in clients)
  }

  predicate RowOk(db: Db, job: Job) {
    LeaseColumnsFit(job) && BudgetHolds(job) && VerdictAgrees(job) && HoldersRegistered(db.clients, job)
  }

  predicate RowsOk(db: Db) {
    forall id | id in db.jobs :: id < db.nextJob && RowOk(db, db.jobs[id])
  }

  /** At most one QUEUED or LEASED job per repo, PR and head sha. */
  predicate OneActivePerHead(jobs: map<JobId, Job>) {
    forall i, k | i in jobs && k in jobs && jobs[i].Active() && jobs[k].Active() && jobs[i].SameHead(jobs[k]) :: i == k
  }

  predicate ClientsOk(db: Db) {
    forall c | c in db.clients ::
      c < db.nextClient && (db.clients[c].identityId.Some? ==> db.clients[c].identityId.value in db.identities)
  }

  predicate OneIdentityPerAccount(identities: map<IdentityId, Identity>) {
    forall i, k | i in identities && k in identities && identities[i].githubUserId == identities[k].githubUserId :: i == k
  }

  /** The snapshot's unique key, and its foreign key. */
  predicate AccessOk(db: Db) {
    && (forall row | row in db.access :: row.identityId in db.identities)
    && (forall row, other | row in db.access && other in db.access
          && row.identityId == other.identityId && row.repo == other.repo :: row == other)
  }

  predicate IdentitiesOk(db: Db, now: Instant) {
    && (forall i | i in db.identities :: i < db.nextIdentity && db.identities[i].refreshedAt <= now)
    && OneIdentityPerAccount(db.identities)
  }

  predicate PoliciesOk(cfg: Settings, db: Db) {
    forall repo, group | repo in db.policies && group in db.policies[repo].acceptedGroups :: group in cfg.modelGroups
  }

  predicate RelaysOk(world: World) {
    forall id | id in world.relays ::
      id in world.db.jobs && world.db.jobs[id].state == Reported && world.db.jobs[id].relayError.None?
  }

  predicate NoneStranded(jobs: map<JobId, Job>) {
    forall id | id in jobs :: !Stranded(jobs[id])
  }

  /** Everything but the holder of a lease. */
  predicate Sound(cfg: Settings, world: World) {
    && RowsOk(world.db)
    && OneActivePerHead(world.db.jobs)
    && ClientsOk(world.db)
    && IdentitiesOk(world.db, world.now)
    && AccessOk(world.db)
    && PoliciesOk(cfg, world.db)
    && RelaysOk(world)
  }

  predicate Invariant(cfg: Settings, world: World) {
    Sound(cfg, world) && NoneStranded(world.db.jobs)
  }

  /** So under the invariant a job is LEASED exactly when it has a holder, and exactly when it has an expiry. */
  lemma InvariantHolders(cfg: Settings, world: World, id: JobId)
    requires Invariant(cfg, world) && id in world.db.jobs
    ensures LeaseColumnsAgree(world.db.jobs[id])
  {
  }

  // ---- one row, one step ----

  predicate Sweeps(response: Response) {
    response.Granted? || response == QueueDry || response == NotAvailable
  }

  /** What a lease request does to a row: the reclaim it commits, then the hand-over if this job was granted. */
  function LeaseRow(cfg: Settings, now: Instant, client: ClientId, response: Response, id: JobId, row: Job): Job {
    var swept := if Sweeps(response) then TransitionRow(LapsedBefore(now), row) else row;
    if response == Granted(id) then HandedOver(cfg, now, swept, client) else swept
  }

  /** The only ways a step can change an existing job row. */
  function RowAfter(cfg: Settings, now: Instant, event: Event, response: Response, id: JobId, row: Job): Job {
    match event
    case ClosePr(repo, pr) => CancelRow(repo, pr, row)
    case Revoke(_, target) =>
      if response == Accepted then ForgottenRow(target, TransitionRow(HeldBy(target), row)) else row
    case LeaseNext(client) => LeaseRow(cfg, now, client, response, id, row)
    case LeaseNamed(client, _) => LeaseRow(cfg, now, client, response, id, row)
    case Report(client, job, result) =>
      if response == Recorded && job == id then ReportedRow(row, client, result) else row
    case RelayOutcome(job, error) => if response == Accepted && job == id then RelayRow(row, error) else row
    case _ => row
  }

  lemma RowStep(cfg: Settings, world: World, event: Event, id: JobId)
    requires RowsOk(world.db) && id in world.db.jobs
    ensures id in Step(cfg, world, event).db.jobs
    ensures Step(cfg, world, event).db.jobs[id]
         == RowAfter(cfg, world.now, event, Answer(cfg, world, event).response, id, world.db.jobs[id])
  {
    if LeavesJobsAlone(event) {
      JobsUntouched(cfg, world, event);
    } else if event.LeaseNext? {
      LeaseNextRow(cfg, world.db, world.now, event.client, id);
    } else if event.LeaseNamed? {
      LeaseNamedRow(cfg, world.db, world.now, event.client, event.job, id);
    } else {
      WrittenRow(cfg, world, event, id);
    }
  }

  lemma WrittenRow(cfg: Settings, world: World, event: Event, id: JobId)
    requires RowsOk(world.db) && id in world.db.jobs
    requires event.Enqueue? || event.ClosePr? || event.Revoke? || event.Report? || event.RelayOutcome?
    ensures id in Answer(cfg, world, event).db.jobs
    ensures Answer(cfg, world, event).db.jobs[id]
         == RowAfter(cfg, world.now, event, Answer(cfg, world, event).response, id, world.db.jobs[id])
  {
    if event.Revoke? {
      RevokedRow(cfg, world.db, event.caller, event.target, id);
    }
  }

  lemma RevokedRow(cfg: Settings, db: Db, caller: Credential, target: ClientId, id: JobId)
    requires id in db.jobs
    ensures var outcome := RevokeOutcome(cfg, db, caller, target);
            && id in outcome.db.jobs
            && outcome.db.jobs[id] == (if outcome.response == Accepted
                                       then ForgottenRow(target, TransitionRow(HeldBy(target), db.jobs[id])) else db.jobs[id])
  {
  }

  predicate LeavesJobsAlone(event: Event) {
    event.Enrol? || event.SignIn? || event.CheckIn? || event.CheckOut? || event.PutPolicy? || event.Tick?
  }

  lemma JobsUntouched(cfg: Settings, world: World, event: Event)
    requires LeavesJobsAlone(event)
    ensures Step(cfg, world, event).db.jobs == world.db.jobs
    ensures Step(cfg, world, event).db.nextJob == world.db.nextJob
  {
  }

  lemma LeaseNextRow(cfg: Settings, db: Db, now: Instant, client: ClientId, id: JobId)
    requires id in db.jobs
    ensures var outcome := LeaseNextOutcome(cfg, db, now, client);
            id in outcome.db.jobs
            && outcome.db.jobs[id] == LeaseRow(cfg, now, client, outcome.response, id, db.jobs[id])
  {
  }

  lemma LeaseNamedRow(cfg: Settings, db: Db, now: Instant, client: ClientId, named: JobId, id: JobId)
    requires id in db.jobs
    ensures var outcome := LeaseNamedOutcome(cfg, db, now, client, named);
            id in outcome.db.jobs
            && outcome.db.jobs[id] == LeaseRow(cfg, now, client, outcome.response, id, db.jobs[id])
  {
  }

  lemma LeasesAddNoJobs(cfg: Settings, db: Db, now: Instant, client: ClientId, named: JobId)
    ensures LeaseNextOutcome(cfg, db, now, client).db.jobs.Keys == db.jobs.Keys
    ensures LeaseNamedOutcome(cfg, db, now, client, named).db.jobs.Keys == db.jobs.Keys
  {
  }

  /** Jobs are never deleted, and the only new one is the one an enqueue reports. */
  lemma RowAppears(cfg: Settings, world: World, event: Event, id: JobId)
    requires RowsOk(world.db)
    requires id in Step(cfg, world, event).db.jobs && id !in world.db.jobs
    ensures event.Enqueue? && Answer(cfg, world, event).response == Enqueued(id) && id == world.db.nextJob
    ensures Step(cfg, world, event).db.jobs[id] == NewJob(event.spec, world.db.policies)
  {
    if LeavesJobsAlone(event) {
      JobsUntouched(cfg, world, event);
    } else if event.LeaseNext? {
      LeasesAddNoJobs(cfg, world.db, world.now, event.client, 0);
    } else if event.LeaseNamed? {
      LeasesAddNoJobs(cfg, world.db, world.now, event.client, event.job);
    }
  }

  /** A grant is only ever made for a job that is queued once the reclaim has run. */
  lemma GrantedWasQueued(cfg: Settings, world: World, event: Event)
    requires Answer(cfg, world, event).response.Granted?
    ensures event.LeaseNext? || event.LeaseNamed?
    ensures event.client in world.db.clients
    ensures var id := Answer(cfg, world, event).response.job;
            && id in world.db.jobs
            && TransitionRow(LapsedBefore(world.now), world.db.jobs[id]).state == Queued
            && Eligible(cfg, Reclaimed(world.db, world.now), world.db.clients[event.client],
                        Reclaimed(world.db, world.now).jobs[id])
  {
  }

  // ---- every step keeps the invariant ----

  lemma InitialInvariant(cfg: Settings, now: Instant)
    ensures Invariant(cfg, InitialWorld(now))
  {
  }

  lemma NewRowOk(db: Db, spec: JobSpec)
    ensures RowOk(db, NewJob(spec, db.policies))
  {
  }

  /** What the answer to an event says about the row it is about. */
  predicate AnswerFits(world: World, event: Event, response: Response, id: JobId, row: Job) {
    && (response == Granted(id) ==>
          (event.LeaseNext? || event.LeaseNamed?) && event.client in world.db.clients
          && TransitionRow(LapsedBefore(world.now), row).state == Queued)
    && (event.Report? && response == Recorded && event.job == id ==>
          event.client in world.db.clients && row.state == Leased)
    && (event.RelayOutcome? && response == Accepted && event.job == id ==>
          row.state == Reported && row.relayError.None?)
  }

  lemma AnswerFitsRow(cfg: Settings, world: World, event: Event, id: JobId)
    requires RelaysOk(world) && id in world.db.jobs
    ensures AnswerFits(world, event, Answer(cfg, world, event).response, id, world.db.jobs[id])
  {
    if Answer(cfg, world, event).response.Granted? {
      GrantedWasQueued(cfg, world, event);
    }
  }

  /** A row that is active after a step was active before it, for the same PR head. */
  lemma ActiveBefore(cfg: Settings, world: World, event: Event, response: Response, id: JobId, row: Job)
    requires AnswerFits(world, event, response, id, row)
    ensures RowAfter(cfg, world.now, event, response, id, row).Active() ==> row.Active()
    ensures RowAfter(cfg, world.now, event, response, id, row).spec == row.spec
  {
  }

  lemma RowAfterOk(cfg: Settings, world: World, event: Event, response: Response, id: JobId)
    requires id in world.db.jobs && RowOk(world.db, world.db.jobs[id])
    requires AnswerFits(world, event, response, id, world.db.jobs[id])
    ensures var row := RowAfter(cfg, world.now, event, response, id, world.db.jobs[id]);
            && LeaseColumnsFit(row) && BudgetHolds(row) && VerdictAgrees(row)
            && (Stranded(row) ==> Stranded(world.db.jobs[id]))
    ensures var row := RowAfter(cfg, world.now, event, response, id, world.db.jobs[id]);
            HoldersRegistered(if event.Revoke? && response == Accepted then world.db.clients - {event.target} else world.db.clients, row)
  {
  }

  lemma RowKept(cfg: Settings, world: World, event: Event, id: JobId)
    requires Sound(cfg, world) && id in world.db.jobs
    ensures id in Step(cfg, world, event).db.jobs
    ensures RowOk(Step(cfg, world, event).db, Step(cfg, world, event).db.jobs[id])
  {
    RowStep(cfg, world, event, id);
    AnswerFitsRow(cfg, world, event, id);
    RowAfterOk(cfg, world, event, Answer(cfg, world, event).response, id);
    ClientsShrinkOnlyByRevoke(cfg, world, event);
  }

  lemma ClientsShrinkOnlyByRevoke(cfg: Settings, world: World, event: Event)
    ensures var after := Step(cfg, world, event).db;
            if event.Revoke? && Answer(cfg, world, event).response == Accepted
            then after.clients == world.db.clients - {event.target}
            else world.db.clients.Keys <= after.clients.Keys
  {
  }

  lemma RowsKept(cfg: Settings, world: World, event: Event)
    requires Sound(cfg, world)
    ensures RowsOk(Step(cfg, world, event).db)
  {
    var after := Step(cfg, world, event);
    assert world.db.nextJob <= after.db.nextJob;
    forall id | id in after.db.jobs
      ensures id < after.db.nextJob && RowOk(after.db, after.db.jobs[id])
    {
      if id in world.db.jobs {
        RowKept(cfg, world, event, id);
      } else {
        RowAppears(cfg, world, event, id);
        NewRowOk(world.db, event.spec);
      }
    }
  }

  lemma OneActiveKept(cfg: Settings, world: World, event: Event)
    requires Sound(cfg, world)
    ensures OneActivePerHead(Step(cfg, world, event).db.jobs)
  {
    var after := Step(cfg, world, event).db.jobs;
    forall i, k | i in after && k in after && after[i].Active() && after[k].Active() && after[i].SameHead(after[k])
      ensures i == k
    {
      ActiveRow(cfg, world, event, i);
      ActiveRow(cfg, world, event, k);
    }
  }

  /** An active job after a step is an old active one with the same head, or a new one with no rival. */
  lemma ActiveRow(cfg: Settings, world: World, event: Event, id: JobId)
    requires Sound(cfg, world)
    requires id in Step(cfg, world, event).db.jobs && Step(cfg, world, event).db.jobs[id].Active()
    ensures id in world.db.jobs ==>
      world.db.jobs[id].Active() && world.db.jobs[id].spec == Step(cfg, world, event).db.jobs[id].spec
    ensures id !in world.db.jobs ==>
      && id == world.db.nextJob
      && forall k | k in world.db.jobs && world.db.jobs[k].Active() ::
           !world.db.jobs[k].SameHead(Step(cfg, world, event).db.jobs[id])
  {
    if id in world.db.jobs {
      RowStep(cfg, world, event, id);
      AnswerFitsRow(cfg, world, event, id);
      ActiveBefore(cfg, world, event, Answer(cfg, world, event).response, id, world.db.jobs[id]);
    } else {
      NewcomerHasNoRival(cfg, world, event, id);
    }
  }

  lemma NewcomerHasNoRival(cfg: Settings, world: World, event: Event, id: JobId)
    requires RowsOk(world.db)
    requires id in Step(cfg, world, event).db.jobs && id !in world.db.jobs
    ensures id == world.db.nextJob
    ensures forall k | k in world.db.jobs && world.db.jobs[k].Active() ::
              !world.db.jobs[k].SameHead(Step(cfg, world, event).db.jobs[id])
  {
    RowAppears(cfg, world, event, id);
    assert ActiveFor(world.db.jobs, event.spec) == {};
    forall k | k in world.db.jobs && world.db.jobs[k].Active()
      ensures !world.db.jobs[k].SameHeadAs(event.spec)
    {
      assert k !in ActiveFor(world.db.jobs, event.spec);
    }
  }

  // ---- identities ----

  /** Whether a step writes an account's snapshot, and the account and repos it writes. */
  predicate ReadsAccount(cfg: Settings, event: Event, response: Response) {
    match event
    case Enrol(_, _, _, github) => cfg.mode == GithubMode && response.Enrolled?
    case SignIn(github) => response == SignedIn
    case CheckIn(_, token, _) =>
      cfg.mode == GithubMode && response.CheckedInFor? && token.Some? && token.value.Account?
    case _ => false
  }

  function AccountRead(cfg: Settings, event: Event, response: Response): (r: GithubAnswer)
    requires ReadsAccount(cfg, event, response)
  {
    match event
    case Enrol(_, _, _, github) => github
    case SignIn(github) => github
    case CheckIn(_, token, _) => token.value
  }

  /** The identity tables change only by an accepted account read, and then exactly by its upsert. */
  lemma IdentityTables(cfg: Settings, world: World, event: Event)
    ensures var before, after, response := world.db, Step(cfg, world, event).db, Answer(cfg, world, event).response;
            if ReadsAccount(cfg, event, response) then
              var read := AccountRead(cfg, event, response);
              && read.Account? && DistinctNames(read.repos)
              && var written := IdentityUpserted(before, world.now, read.userId, read.login, read.repos);
              && after.identities == written.identities
              && after.nextIdentity == written.nextIdentity
              && after.access == written.access
            else
              after.identities == before.identities && after.nextIdentity == before.nextIdentity && after.access == before.access
  {
  }

  /** An account's existing row is the one its upsert lands on. */
  lemma SoleIdentity(db: Db, userId: int, i: IdentityId)
    requires OneIdentityPerAccount(db.identities)
    ensures i in db.identities && db.identities[i].githubUserId == userId ==> i == IdentityFor(db, userId)
  {
    assert i in IdentitiesOf(db.identities, userId) <==> i in db.identities && db.identities[i].githubUserId == userId;
  }

  lemma UpsertKeepsIdentities(db: Db, now: Instant, userId: int, login: string, repos: seq<RepoAccess>)
    requires IdentitiesOk(db, now)
    ensures IdentitiesOk(IdentityUpserted(db, now, userId, login, repos), now)
    ensures db.identities.Keys <= IdentityUpserted(db, now, userId, login, repos).identities.Keys
    ensures IdentityFor(db, userId) in IdentityUpserted(db, now, userId, login, repos).identities
  {
    var id := IdentityFor(db, userId);
    var after := IdentityUpserted(db, now, userId, login, repos);
    forall i, k | i in after.identities && k in after.identities
        && after.identities[i].githubUserId == after.identities[k].githubUserId
      ensures i == k
    {
      SoleIdentity(db, userId, i);
      SoleIdentity(db, userId, k);
    }
  }

  lemma UpsertKeepsAccess(db: Db, now: Instant, userId: int, login: string, repos: seq<RepoAccess>)
    requires AccessOk(db) && IdentitiesOk(db, now) && DistinctNames(repos)
    ensures AccessOk(IdentityUpserted(db, now, userId, login, repos))
  {
  }

  lemma IdentitiesKept(cfg: Settings, world: World, event: Event)
    requires Sound(cfg, world)
    ensures IdentitiesOk(Step(cfg, world, event).db, Step(cfg, world, event).now)
    ensures AccessOk(Step(cfg, world, event).db)
    ensures world.db.identities.Keys <= Step(cfg, world, event).db.identities.Keys
  {
    IdentityTables(cfg, world, event);
    var response := Answer(cfg, world, event).response;
    if ReadsAccount(cfg, event, response) {
      var read := AccountRead(cfg, event, response);
      UpsertKeepsIdentities(world.db, world.now, read.userId, read.login, read.repos);
      UpsertKeepsAccess(world.db, world.now, read.userId, read.login, read.repos);
    }
  }

  lemma ClientsKept(cfg: Settings, world: World, event: Event)
    requires Sound(cfg, world)
    ensures ClientsOk(Step(cfg, world, event).db)
  {
    IdentitiesKept(cfg, world, event);
    IdentityTables(cfg, world, event);
    var response := Answer(cfg, world, event).response;
    if ReadsAccount(cfg, event, response) {
      var read := AccountRead(cfg, event, response);
      UpsertKeepsIdentities(world.db, world.now, read.userId, read.login, read.repos);
    }
  }

  lemma RelaysKept(cfg: Settings, world: World, event: Event)
    requires Sound(cfg, world)
    ensures RelaysOk(Step(cfg, world, event))
  {
    var after := Step(cfg, world, event);
    forall id | id in after.relays
      ensures id in after.db.jobs && after.db.jobs[id].state == Reported && after.db.jobs[id].relayError.None?
    {
      assert id in world.db.jobs;
      RowStep(cfg, world, event, id);
    }
  }

  /** A step strands no job: a row without its holder after it was without it before. */
  lemma StepStrandsNone(cfg: Settings, world: World, event: Event, id: JobId)
    requires Sound(cfg, world) && id in Step(cfg, world, event).db.jobs
    ensures Stranded(Step(cfg, world, event).db.jobs[id]) ==> id in world.db.jobs && Stranded(world.db.jobs[id])
  {
    if id in world.db.jobs {
      RowStep(cfg, world, event, id);
      AnswerFitsRow(cfg, world, event, id);
      RowAfterOk(cfg, world, event, Answer(cfg, world, event).response, id);
    } else {
      RowAppears(cfg, world, event, id);
    }
  }

  lemma StepKeepsInvariant(cfg: Settings, world: World, event: Event)
    requires Invariant(cfg, world)
    ensures Invariant(cfg, Step(cfg, world, event))
  {
    StepKeepsSound(cfg, world, event);
    forall id | id in Step(cfg, world, event).db.jobs
      ensures !Stranded(Step(cfg, world, event).db.jobs[id])
    {
      StepStrandsNone(cfg, world, event, id);
    }
  }

  lemma StepKeepsSound(cfg: Settings, world: World, event: Event)
    requires Sound(cfg, world)
    ensures Sound(cfg, Step(cfg, world, event))
  {
    RowsKept(cfg, world, event);
    OneActiveKept(cfg, world, event);
    IdentitiesKept(cfg, world, event);
    ClientsKept(cfg, world, event);
    RelaysKept(cfg, world, event);
    assert PoliciesOk(cfg, Step(cfg, world, event).db);
  }

  lemma {:induction false} RunKeepsSound(cfg: Settings, world: World, events: seq<Event>)
    requires Sound(cfg, world)
    ensures Sound(cfg, Run(cfg, world, events))
  {
    if events == [] {
    } else {
      var before := events[..|events| - 1];
      RunKeepsSound(cfg, world, before);
      StepKeepsSound(cfg, Run(cfg, world, before), events[|events| - 1]);
    }
  }

  /** The table invariant, in every reachable state. */
  lemma {:induction false} RunKeepsInvariant(cfg: Settings, world: World, events: seq<Event>)
    requires Invariant(cfg, world)
    ensures Invariant(cfg, Run(cfg, world, events))
  {
    if events == [] {
    } else {
      var before := events[..|events| - 1];
      RunKeepsInvariant(cfg, world, before);
      StepKeepsInvariant(cfg, Run(cfg, world, before), events[|events| - 1]);
    }
  }
}
