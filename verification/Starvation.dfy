/**
 No starvation, with a bound. A client's poll takes the oldest job it may have, and every hand-over
 spends an attempt for good, so the work ahead of a queued job runs out.
 */
module Starvation {
  import opened Models
  import opened Dispatch
  import opened JobTable
  import opened HubMachine
  import opened TableInvariant
  import opened Lifecycle

  /** The attempts left in the jobs created before `bound`. */
  function EarlierBudget(jobs: map<JobId, Job>, bound: nat): int {
    if bound == 0 then 0
    else EarlierBudget(jobs, bound - 1) + AttemptsLeft(jobs, bound - 1)
  }

  function AttemptsLeft(jobs: map<JobId, Job>, id: JobId): int {
    if id in jobs then jobs[id].maxAttempts - jobs[id].attempts else 0
  }

  function Polls(events: seq<Event>, client: ClientId): nat {
    if events == [] then 0
    else Polls(events[..|events| - 1], client) + (if events[|events| - 1] == LeaseNext(client) then 1 else 0)
  }

  predicate IsQueued(world: World, id: JobId) {
    id in world.db.jobs && world.db.jobs[id].state == Queued
  }

  /** The client is checked in and fresh, and all four row gates pass for the job. */
  predicate Serves(cfg: Settings, world: World, client: ClientId, id: JobId) {
    && client in world.db.clients
    && world.db.clients[client].status == CheckedIn
    && !AccessIsStale(cfg, world.db, world.now, world.db.clients[client].identityId)
    && id in EligibleIds(cfg, world.db, world.db.clients[client])
  }

  /** The attempt a grant to a job created before `bound` spends. */
  function Spent(response: Response, bound: nat): nat {
    if response.Granted? && response.job < bound then 1 else 0
  }

  lemma {:induction false} BudgetIsNatural(db: Db, bound: nat)
    requires RowsOk(db)
    ensures EarlierBudget(db.jobs, bound) >= 0
  {
    if bound == 0 {
    } else {
      BudgetIsNatural(db, bound - 1);
    }
  }

  lemma AttemptsShrink(cfg: Settings, world: World, event: Event, id: JobId)
    requires Sound(cfg, world) && id < world.db.nextJob
    ensures AttemptsLeft(Step(cfg, world, event).db.jobs, id)
          + (if Answer(cfg, world, event).response == Granted(id) then 1 else 0)
         <= AttemptsLeft(world.db.jobs, id)
  {
    if id in world.db.jobs {
      RowPays(cfg, world, event, id);
    } else {
      if id in Step(cfg, world, event).db.jobs {
        RowAppears(cfg, world, event, id);
      }
      if Answer(cfg, world, event).response.Granted? {
        GrantedWasQueued(cfg, world, event);
      }
    }
  }

  /** No step gives earlier jobs attempts back, and a grant to one of them takes one away. */
  lemma BudgetShrinks(cfg: Settings, world: World, event: Event, bound: nat)
    requires Sound(cfg, world) && bound <= world.db.nextJob
    ensures EarlierBudget(Step(cfg, world, event).db.jobs, bound) + Spent(Answer(cfg, world, event).response, bound)
         <= EarlierBudget(world.db.jobs, bound)
  {
    forall id | 0 <= id < bound
      ensures AttemptsLeft(Step(cfg, world, event).db.jobs, id) + Spends(Answer(cfg, world, event).response, id)
           <= AttemptsLeft(world.db.jobs, id)
    {
      AttemptsShrink(cfg, world, event, id);
    }
    BudgetsAddUp(world.db.jobs, Step(cfg, world, event).db.jobs, Answer(cfg, world, event).response, bound);
  }

  function Spends(response: Response, id: JobId): nat {
    if response == Granted(id) then 1 else 0
  }

  lemma {:induction false} BudgetsAddUp(jobs: map<JobId, Job>, after: map<JobId, Job>, response: Response, bound: nat)
    requires forall id | 0 <= id < bound :: AttemptsLeft(after, id) + Spends(response, id) <= AttemptsLeft(jobs, id)
    ensures EarlierBudget(after, bound) + Spent(response, bound) <= EarlierBudget(jobs, bound)
  {
    if bound == 0 {
    } else {
      BudgetsAddUp(jobs, after, response, bound - 1);
    }
  }

  /** A poll by a client that could have this job grants it this job or an earlier one. */
  lemma PollTakesNoLaterJob(cfg: Settings, world: World, client: ClientId, id: JobId)
    requires Serves(cfg, world, client, id)
    ensures var response := Answer(cfg, world, LeaseNext(client)).response;
            response.Granted? && response.job <= id
    ensures Answer(cfg, world, LeaseNext(client)).response == Granted(id) ==>
      !IsQueued(Step(cfg, world, LeaseNext(client)), id)
  {
    var swept := Reclaimed(world.db, world.now);
    assert swept.jobs[id] == world.db.jobs[id];
    assert id in EligibleIds(cfg, swept, world.db.clients[client]);
  }

  /** The job is queued throughout, and served at every poll. */
  predicate Waits(cfg: Settings, world: World, events: seq<Event>, client: ClientId, id: JobId) {
    && (forall k | 0 <= k <= |events| :: IsQueued(Before(cfg, world, events, k), id))
    && (forall k | 0 <= k < |events| && events[k] == LeaseNext(client) :: Serves(cfg, Before(cfg, world, events, k), client, id))
  }

  lemma WaitsBefore(cfg: Settings, world: World, events: seq<Event>, client: ClientId, id: JobId, n: nat)
    requires Waits(cfg, world, events, client, id) && n <= |events|
    ensures Waits(cfg, world, events[..n], client, id)
  {
    var before := events[..n];
    forall k | 0 <= k <= n
      ensures Before(cfg, world, before, k) == Before(cfg, world, events, k)
    {
      assert before[..k] == events[..k];
    }
    forall k | 0 <= k < n && before[k] == LeaseNext(client)
      ensures Serves(cfg, Before(cfg, world, before, k), client, id)
    {
      assert events[k] == LeaseNext(client);
    }
  }

  /** One event of a wait: a poll by the client costs the earlier jobs an attempt. */
  lemma WaitingTurn(cfg: Settings, world: World, event: Event, client: ClientId, id: JobId)
    requires Sound(cfg, world) && IsQueued(world, id) && IsQueued(Step(cfg, world, event), id)
    requires event == LeaseNext(client) ==> Serves(cfg, world, client, id)
    ensures (if event == LeaseNext(client) then 1 else 0) + EarlierBudget(Step(cfg, world, event).db.jobs, id)
         <= EarlierBudget(world.db.jobs, id)
  {
    BudgetShrinks(cfg, world, event, id);
    if event == LeaseNext(client) {
      PollTakesNoLaterJob(cfg, world, client, id);
    }
  }

  lemma {:induction false} PollsSpendTheBudget(cfg: Settings, world: World, events: seq<Event>, client: ClientId, id: JobId)
    requires Sound(cfg, world) && Waits(cfg, world, events, client, id)
    ensures Polls(events, client) + EarlierBudget(Run(cfg, world, events).db.jobs, id)
         <= EarlierBudget(world.db.jobs, id)
  {
    if events == [] {
    } else {
      var n := |events| - 1;
      var middle := Before(cfg, world, events, n);
      WaitsBefore(cfg, world, events, client, id, n);
      PollsSpendTheBudget(cfg, world, events[..n], client, id);
      RunKeepsSound(cfg, world, events[..n]);
      assert IsQueued(middle, id) && IsQueued(Before(cfg, world, events, n + 1), id);
      assert events[..n + 1] == events;
      WaitingTurn(cfg, middle, events[n], client, id);
    }
  }

  /**
   While a queued job stays eligible for a client, the job has left the queue by the time that client
   has polled more often than the earlier jobs have attempts left, whatever else happens in between.
   */
  lemma NoStarvation(cfg: Settings, world: World, events: seq<Event>, client: ClientId, id: JobId)
    requires Sound(cfg, world)
    requires forall k | 0 <= k < |events| && events[k] == LeaseNext(client) && IsQueued(Before(cfg, world, events, k), id) ::
      Serves(cfg, Before(cfg, world, events, k), client, id)
    requires Polls(events, client) >= 1 + EarlierBudget(world.db.jobs, id)
    ensures exists k :: 0 <= k <= |events| && !IsQueued(Before(cfg, world, events, k), id)
  {
    if forall k | 0 <= k <= |events| :: IsQueued(Before(cfg, world, events, k), id) {
      assert Waits(cfg, world, events, client, id);
      PollsSpendTheBudget(cfg, world, events, client, id);
      RunKeepsSound(cfg, world, events);
      BudgetIsNatural(Run(cfg, world, events).db, id);
    }
  }
}
