/**
 The two ways to a lease agree. Polling returns the oldest of exactly the jobs naming would grant, and
 naming refuses after its own checks only for a job that is not in the queue.
 */
module LeasePaths {
  import opened Models
  import opened Dispatch
  import opened JobTable
  import opened HubMachine

  /** The jobs this client could lease by name right now. */
  function Nameable(cfg: Settings, world: World, client: ClientId): set<JobId> {
    set id | id in world.db.jobs && Answer(cfg, world, LeaseNamed(client, id)).response == Granted(id)
  }

  /** The reclaim changes no column the checks before it read. */
  lemma ReclaimKeepsGates(db: Db, now: Instant, id: JobId)
    requires id in db.jobs
    ensures id in Reclaimed(db, now).jobs
    ensures var row, swept := db.jobs[id], Reclaimed(db, now).jobs[id];
            swept.spec == row.spec && swept.minTier == row.minTier && swept.requested == row.requested
  {
  }

  /** The named path's own checks pass exactly when every row gate but the queue state would. */
  lemma PreChecksAreTheClauses(cfg: Settings, db: Db, now: Instant, client: ClientId, id: JobId)
    requires client in db.clients && db.clients[client].status == CheckedIn && id in db.jobs
    ensures NamedRefusal(cfg, db, client, id) == None
       <==> Eligible(cfg, Reclaimed(db, now), db.clients[client], Reclaimed(db, now).jobs[id].(state := Queued))
  {
    var row, job := db.clients[client], db.jobs[id];
    ReclaimKeepsGates(db, now, id);
    AllowlistTwins(cfg, db.policies, job.spec.repo, row.modelName);
    StrategyTwins(job.requested, row.offered);
  }

  /** A job is nameable exactly when it is eligible once the reclaim has run, for a present, fresh client. */
  lemma NameableIsEligible(cfg: Settings, world: World, client: ClientId)
    requires client in world.db.clients && world.db.clients[client].status == CheckedIn
    requires !AccessIsStale(cfg, world.db, world.now, world.db.clients[client].identityId)
    ensures Nameable(cfg, world, client) == EligibleIds(cfg, Reclaimed(world.db, world.now), world.db.clients[client])
  {
    var swept := Reclaimed(world.db, world.now);
    forall id | id in world.db.jobs
      ensures id in Nameable(cfg, world, client) <==> id in EligibleIds(cfg, swept, world.db.clients[client])
    {
      PreChecksAreTheClauses(cfg, world.db, world.now, client, id);
    }
  }

  lemma AbsentOrStaleGetsNothing(cfg: Settings, world: World, client: ClientId)
    requires !(client in world.db.clients && world.db.clients[client].status == CheckedIn
               && !AccessIsStale(cfg, world.db, world.now, world.db.clients[client].identityId))
    ensures !Answer(cfg, world, LeaseNext(client)).response.Granted?
    ensures Nameable(cfg, world, client) == {}
  {
  }

  /** The lease a client gets by polling is the oldest it could get by naming; none exactly when naming gets none. */
  lemma PathsAgree(cfg: Settings, world: World, client: ClientId)
    ensures var polled := Answer(cfg, world, LeaseNext(client)).response;
            var nameable := Nameable(cfg, world, client);
            && (polled.Granted? <==> nameable != {})
            && (polled.Granted? ==> IsLeast(polled.job, nameable))
  {
    if client in world.db.clients && world.db.clients[client].status == CheckedIn
      && !AccessIsStale(cfg, world.db, world.now, world.db.clients[client].identityId) {
      NameableIsEligible(cfg, world, client);
    } else {
      AbsentOrStaleGetsNothing(cfg, world, client);
    }
  }

  /** Either way, what a grant commits is the reclaim and the hand-over of that job. */
  lemma GrantIsReclaimThenHandOver(cfg: Settings, world: World, event: Event, id: JobId)
    requires event.LeaseNext? || event.LeaseNamed?
    requires Answer(cfg, world, event).response == Granted(id)
    ensures id in world.db.jobs
    ensures Answer(cfg, world, event)
         == Outcome(LeasedTo(cfg, Reclaimed(world.db, world.now), world.now, id, event.client), Granted(id))
  {
  }

  /** Naming the job a poll would grant does exactly what the poll does. */
  lemma NamingThePickIsPolling(cfg: Settings, world: World, client: ClientId)
    requires Answer(cfg, world, LeaseNext(client)).response.Granted?
    ensures var polled := Answer(cfg, world, LeaseNext(client));
            polled == Answer(cfg, world, LeaseNamed(client, polled.response.job))
  {
    var id := Answer(cfg, world, LeaseNext(client)).response.job;
    PathsAgree(cfg, world, client);
    assert id in Nameable(cfg, world, client);
    GrantIsReclaimThenHandOver(cfg, world, LeaseNext(client), id);
    GrantIsReclaimThenHandOver(cfg, world, LeaseNamed(client, id), id);
  }

  /**
   With its checks passed and its access fresh, a named lease is refused if and only if the job is not
   QUEUED after the reclaim, and then it is refused as unavailable.
   */
  lemma NamedFailsOnlyOffQueue(cfg: Settings, world: World, client: ClientId, id: JobId)
    requires client in world.db.clients && NamedRefusal(cfg, world.db, client, id) == None
    requires !AccessIsStale(cfg, world.db, world.now, world.db.clients[client].identityId)
    ensures id in world.db.jobs
    ensures var response := Answer(cfg, world, LeaseNamed(client, id)).response;
            && (response == Granted(id) <==> Reclaimed(world.db, world.now).jobs[id].state == Queued)
            && (response == NotAvailable <==> Reclaimed(world.db, world.now).jobs[id].state != Queued)
  {
    PreChecksAreTheClauses(cfg, world.db, world.now, client, id);
    var swept := Reclaimed(world.db, world.now).jobs[id];
    assert swept.(state := Queued) == swept || swept.state != Queued;
  }
}
