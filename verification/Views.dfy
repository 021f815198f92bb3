/**
 A caller learns nothing about repos it cannot reach. Two hubs that agree on what a caller can see
 answer its leases and reads alike, and leave what it can see alike, although the reclaim it triggers
 sweeps the whole job table.
 */
module Views {
  import opened Models
  import opened Dispatch
  import opened JobTable
  import opened HubMachine
  import opened TableInvariant

  function VisibleJobs(cfg: Settings, db: Db, identity: Option<IdentityId>): map<JobId, Job> {
    map id | id in db.jobs && Reaches(AccessibleRepos(cfg, db, identity), db.jobs[id].spec.repo) :: db.jobs[id]
  }

  function VisiblePolicies(cfg: Settings, db: Db, identity: Option<IdentityId>): map<RepoName, Policy> {
    map repo | repo in db.policies && Reaches(AccessibleRepos(cfg, db, identity), repo) :: db.policies[repo]
  }

  /** Agreement on everything an account can see: its scope, its snapshot's age, and that scope's rows. */
  predicate SameView(cfg: Settings, left: Db, right: Db, identity: Option<IdentityId>) {
    && AccessibleRepos(cfg, left, identity) == AccessibleRepos(cfg, right, identity)
    && (identity.Some? ==>
          (identity.value in left.identities <==> identity.value in right.identities)
          && (identity.value in left.identities ==>
                left.identities[identity.value].refreshedAt == right.identities[identity.value].refreshedAt))
    && VisibleJobs(cfg, left, identity) == VisibleJobs(cfg, right, identity)
    && VisiblePolicies(cfg, left, identity) == VisiblePolicies(cfg, right, identity)
  }

  /** The same, for a machine: its own row is part of what it knows. */
  predicate SameClientView(cfg: Settings, left: Db, right: Db, client: ClientId) {
    && (client in left.clients <==> client in right.clients)
    && (client in left.clients ==>
          left.clients[client] == right.clients[client]
          && SameView(cfg, left, right, left.clients[client].identityId))
  }

  // ---- row by row ----

  lemma VisibleRow(cfg: Settings, left: Db, right: Db, identity: Option<IdentityId>, id: JobId)
    requires SameView(cfg, left, right, identity)
    ensures VisibleJob(cfg, left, identity, id) == VisibleJob(cfg, right, identity, id)
    ensures VisibleJob(cfg, left, identity, id).Some? ==> id in left.jobs && id in right.jobs && left.jobs[id] == right.jobs[id]
  {
    assert id in VisibleJobs(cfg, left, identity) <==> id in VisibleJobs(cfg, right, identity);
    if id in VisibleJobs(cfg, left, identity) {
      assert VisibleJobs(cfg, left, identity)[id] == VisibleJobs(cfg, right, identity)[id];
    }
  }

  lemma VisiblePolicy(cfg: Settings, left: Db, right: Db, identity: Option<IdentityId>, repo: RepoName)
    requires SameView(cfg, left, right, identity)
    requires Reaches(AccessibleRepos(cfg, left, identity), repo)
    ensures LiveModels(left.policies, repo) == LiveModels(right.policies, repo)
    ensures LiveGroups(left.policies, repo) == LiveGroups(right.policies, repo)
  {
    assert repo in VisiblePolicies(cfg, left, identity) <==> repo in VisiblePolicies(cfg, right, identity);
    if repo in VisiblePolicies(cfg, left, identity) {
      assert VisiblePolicies(cfg, left, identity)[repo] == VisiblePolicies(cfg, right, identity)[repo];
    }
  }

  /** The bulk reclaim moves hidden rows too, but the visible part depends only on the visible part. */
  lemma ReclaimKeepsView(cfg: Settings, left: Db, right: Db, identity: Option<IdentityId>, now: Instant)
    requires SameView(cfg, left, right, identity)
    ensures SameView(cfg, Reclaimed(left, now), Reclaimed(right, now), identity)
  {
    forall id
      ensures VisibleJob(cfg, Reclaimed(left, now), identity, id) == VisibleJob(cfg, Reclaimed(right, now), identity, id)
    {
      VisibleRow(cfg, left, right, identity, id);
    }
    VisibleRowsDecide(cfg, Reclaimed(left, now), Reclaimed(right, now), identity);
    assert VisiblePolicies(cfg, Reclaimed(left, now), identity) == VisiblePolicies(cfg, left, identity);
    assert VisiblePolicies(cfg, Reclaimed(right, now), identity) == VisiblePolicies(cfg, right, identity);
  }

  lemma VisibleRowsDecide(cfg: Settings, left: Db, right: Db, identity: Option<IdentityId>)
    requires forall id :: VisibleJob(cfg, left, identity, id) == VisibleJob(cfg, right, identity, id)
    ensures VisibleJobs(cfg, left, identity) == VisibleJobs(cfg, right, identity)
  {
    forall id
      ensures id in VisibleJobs(cfg, left, identity) <==> id in VisibleJobs(cfg, right, identity)
      ensures id in VisibleJobs(cfg, left, identity) ==> VisibleJobs(cfg, left, identity)[id] == VisibleJobs(cfg, right, identity)[id]
    {
      assert VisibleJob(cfg, left, identity, id) == VisibleJob(cfg, right, identity, id);
      assert id in VisibleJobs(cfg, left, identity) <==> VisibleJob(cfg, left, identity, id).Some?;
      assert id in VisibleJobs(cfg, right, identity) <==> VisibleJob(cfg, right, identity, id).Some?;
    }
  }

  lemma EligibleAlike(cfg: Settings, left: Db, right: Db, client: Client)
    requires SameView(cfg, left, right, client.identityId)
    ensures EligibleIds(cfg, left, client) == EligibleIds(cfg, right, client)
  {
    forall id
      ensures id in EligibleIds(cfg, left, client) <==> id in EligibleIds(cfg, right, client)
    {
      VisibleRow(cfg, left, right, client.identityId, id);
      if VisibleJob(cfg, left, client.identityId, id).Some? {
        VisiblePolicy(cfg, left, right, client.identityId, left.jobs[id].spec.repo);
      }
    }
  }

  lemma StaleAlike(cfg: Settings, left: Db, right: Db, now: Instant, identity: Option<IdentityId>)
    requires SameView(cfg, left, right, identity)
    ensures AccessIsStale(cfg, left, now, identity) == AccessIsStale(cfg, right, now, identity)
  {
  }

  /** Granting a job both can see leaves both views alike. */
  lemma GrantKeepsView(cfg: Settings, left: Db, right: Db, client: ClientId, identity: Option<IdentityId>, now: Instant, id: JobId)
    requires SameView(cfg, left, right, identity) && VisibleJob(cfg, left, identity, id).Some?
    requires id in left.jobs && id in right.jobs
    ensures SameView(cfg, LeasedTo(cfg, left, now, id, client), LeasedTo(cfg, right, now, id, client), identity)
  {
    var left', right' := LeasedTo(cfg, left, now, id, client), LeasedTo(cfg, right, now, id, client);
    VisibleRow(cfg, left, right, identity, id);
    forall other
      ensures VisibleJob(cfg, left', identity, other) == VisibleJob(cfg, right', identity, other)
    {
      VisibleRow(cfg, left, right, identity, other);
    }
    VisibleRowsDecide(cfg, left', right', identity);
    assert VisiblePolicies(cfg, left', identity) == VisiblePolicies(cfg, left, identity);
    assert VisiblePolicies(cfg, right', identity) == VisiblePolicies(cfg, right, identity);
  }

  // ---- request by request ----

  lemma LeaseNextSeesOnlyItsView(cfg: Settings, left: Db, right: Db, now: Instant, client: ClientId)
    requires SameClientView(cfg, left, right, client)
    ensures LeaseNextOutcome(cfg, left, now, client).response == LeaseNextOutcome(cfg, right, now, client).response
    ensures SameClientView(cfg, LeaseNextOutcome(cfg, left, now, client).db, LeaseNextOutcome(cfg, right, now, client).db, client)
  {
    if client in left.clients {
      var row := left.clients[client];
      StaleAlike(cfg, left, right, now, row.identityId);
      ReclaimKeepsView(cfg, left, right, row.identityId, now);
      var left', right' := Reclaimed(left, now), Reclaimed(right, now);
      EligibleAlike(cfg, left', right', row);
      var pick := Oldest(EligibleIds(cfg, left', row));
      if pick.Some? {
        GrantKeepsView(cfg, left', right', client, row.identityId, now, pick.value);
      }
    }
  }

  lemma RefusalAlike(cfg: Settings, left: Db, right: Db, client: ClientId, id: JobId)
    requires SameClientView(cfg, left, right, client) && client in left.clients
    ensures NamedRefusal(cfg, left, client, id) == NamedRefusal(cfg, right, client, id)
  {
    var identity := left.clients[client].identityId;
    VisibleRow(cfg, left, right, identity, id);
    if VisibleJob(cfg, left, identity, id).Some? {
      VisiblePolicy(cfg, left, right, identity, left.jobs[id].spec.repo);
    }
  }

  lemma LeaseNamedSeesOnlyItsView(cfg: Settings, left: Db, right: Db, now: Instant, client: ClientId, id: JobId)
    requires SameClientView(cfg, left, right, client)
    ensures LeaseNamedOutcome(cfg, left, now, client, id).response == LeaseNamedOutcome(cfg, right, now, client, id).response
    ensures SameClientView(cfg, LeaseNamedOutcome(cfg, left, now, client, id).db, LeaseNamedOutcome(cfg, right, now, client, id).db, client)
  {
    if client in left.clients {
      var row := left.clients[client];
      StaleAlike(cfg, left, right, now, row.identityId);
      RefusalAlike(cfg, left, right, client, id);
      ReclaimKeepsView(cfg, left, right, row.identityId, now);
      var left', right' := Reclaimed(left, now), Reclaimed(right, now);
      EligibleAlike(cfg, left', right', row);
      if id in EligibleIds(cfg, left', row) {
        GrantKeepsView(cfg, left', right', client, row.identityId, now, id);
      }
    }
  }

  /** The rows a feed returns, in the order it returns them. */
  function FeedRows(cfg: Settings, db: Db, identity: Option<IdentityId>, filters: JobFilters): seq<(JobId, Option<Job>)> {
    var ids := JobFeed(cfg, db, identity, filters);
    seq(|ids|, k requires 0 <= k < |ids| => (ids[k], VisibleJob(cfg, db, identity, ids[k])))
  }

  lemma {:induction false} FeedBelowAlike(cfg: Settings, left: Db, right: Db, identity: Option<IdentityId>, filters: JobFilters, bound: nat)
    requires SameView(cfg, left, right, identity)
    ensures FeedBelow(cfg, left, identity, filters, bound) == FeedBelow(cfg, right, identity, filters, bound)
  {
    if bound == 0 {
    } else {
      FeedBelowAlike(cfg, left, right, identity, filters, bound - 1);
      VisibleRow(cfg, left, right, identity, bound - 1);
    }
  }

  /** Ids past the last job list nothing, so a feed does not depend on how many hidden jobs came later. */
  lemma {:induction false} FeedEnds(cfg: Settings, db: Db, identity: Option<IdentityId>, filters: JobFilters, bound: nat)
    requires bound >= db.nextJob && forall id | id in db.jobs :: id < db.nextJob
    ensures FeedBelow(cfg, db, identity, filters, bound) == FeedBelow(cfg, db, identity, filters, db.nextJob)
  {
    if bound > db.nextJob {
      FeedEnds(cfg, db, identity, filters, bound - 1);
    }
  }

  lemma ReadsSeeOnlyTheirView(cfg: Settings, left: Db, right: Db, identity: Option<IdentityId>, id: JobId, filters: JobFilters)
    requires SameView(cfg, left, right, identity)
    requires forall i | i in left.jobs :: i < left.nextJob
    requires forall i | i in right.jobs :: i < right.nextJob
    ensures VisibleJob(cfg, left, identity, id) == VisibleJob(cfg, right, identity, id)
    ensures FeedRows(cfg, left, identity, filters) == FeedRows(cfg, right, identity, filters)
  {
    VisibleRow(cfg, left, right, identity, id);
    var bound := if left.nextJob >= right.nextJob then left.nextJob else right.nextJob;
    FeedBelowAlike(cfg, left, right, identity, filters, bound);
    FeedEnds(cfg, left, identity, filters, bound);
    FeedEnds(cfg, right, identity, filters, bound);
    var ids := JobFeed(cfg, left, identity, filters);
    assert ids == JobFeed(cfg, right, identity, filters);
    forall k | 0 <= k < |ids|
      ensures VisibleJob(cfg, left, identity, ids[k]) == VisibleJob(cfg, right, identity, ids[k])
    {
      VisibleRow(cfg, left, right, identity, ids[k]);
    }
  }

  // ---- over whole runs ----

  /** One of the machine's own leases, time passing, or whatever else went on in each of two hubs. */
  datatype Turn = Own(event: Event) | Wait(elapsed: nat) | Unseen(left: seq<Event>, right: seq<Event>)

  datatype Side = Left | Right

  function Happens(turn: Turn, side: Side): seq<Event> {
    match turn
    case Own(event) => [event]
    case Wait(elapsed) => [Tick(elapsed)]
    case Unseen(left, right) => if side == Left then left else right
  }

  function Through(cfg: Settings, world: World, turns: seq<Turn>, side: Side): World {
    if turns == [] then world
    else Run(cfg, Through(cfg, world, turns[..|turns| - 1], side), Happens(turns[|turns| - 1], side))
  }

  /** What the machine's own leases were answered, in order. */
  function Answers(cfg: Settings, world: World, turns: seq<Turn>, side: Side): seq<Response> {
    if turns == [] then []
    else
      var before, last := turns[..|turns| - 1], turns[|turns| - 1];
      Answers(cfg, world, before, side)
      + (if last.Own? then [Answer(cfg, Through(cfg, world, before, side), last.event).response] else [])
  }

  /** Steps that touch only what the machine cannot see, and take no time. */
  predicate OutOfView(cfg: Settings, world: World, events: seq<Event>, client: ClientId) {
    if events == [] then true
    else
      var before := events[..|events| - 1];
      var middle := Run(cfg, world, before);
      var after := Step(cfg, middle, events[|events| - 1]);
      OutOfView(cfg, world, before, client) && SameClientView(cfg, middle.db, after.db, client) && after.now == middle.now
  }

  predicate OwnLease(event: Event, client: ClientId) {
    (event.LeaseNext? || event.LeaseNamed?) && event.client == client
  }

  predicate Fits(cfg: Settings, world: World, turns: seq<Turn>, side: Side, client: ClientId) {
    if turns == [] then true
    else
      var before, last := turns[..|turns| - 1], turns[|turns| - 1];
      && Fits(cfg, world, before, side, client)
      && (last.Own? ==> OwnLease(last.event, client))
      && (last.Unseen? ==> OutOfView(cfg, Through(cfg, world, before, side), Happens(last, side), client))
  }

  lemma SameViewChains(cfg: Settings, a: Db, b: Db, c: Db, client: ClientId)
    requires SameClientView(cfg, a, b, client)
    ensures SameClientView(cfg, b, a, client)
    ensures SameClientView(cfg, b, c, client) ==> SameClientView(cfg, a, c, client)
  {
  }

  lemma {:induction false} UnseenKeepsView(cfg: Settings, world: World, events: seq<Event>, client: ClientId)
    requires OutOfView(cfg, world, events, client)
    ensures SameClientView(cfg, world.db, Run(cfg, world, events).db, client) && Run(cfg, world, events).now == world.now
  {
    if events == [] {
    } else {
      var before := events[..|events| - 1];
      UnseenKeepsView(cfg, world, before, client);
      SameViewChains(cfg, world.db, Run(cfg, world, before).db, Run(cfg, world, events).db, client);
    }
  }

  lemma OwnLeaseSeesOnlyItsView(cfg: Settings, left: World, right: World, event: Event)
    requires (event.LeaseNext? || event.LeaseNamed?) && left.now == right.now && SameClientView(cfg, left.db, right.db, event.client)
    ensures Answer(cfg, left, event).response == Answer(cfg, right, event).response
    ensures SameClientView(cfg, Step(cfg, left, event).db, Step(cfg, right, event).db, event.client)
    ensures Step(cfg, left, event).now == left.now && Step(cfg, right, event).now == right.now
  {
    if event.LeaseNext? {
      LeaseNextSeesOnlyItsView(cfg, left.db, right.db, left.now, event.client);
    } else {
      LeaseNamedSeesOnlyItsView(cfg, left.db, right.db, left.now, event.client, event.job);
    }
  }

  /**
   Two hubs that look alike to a machine go on looking alike, and answer all its leases alike, through any
   sequence of its own leases, waits, and steps that touch only what it cannot see in either of them.
   */
  lemma {:induction false} RunsSeeOnlyTheirView(cfg: Settings, left: World, right: World, turns: seq<Turn>, client: ClientId)
    requires left.now == right.now && SameClientView(cfg, left.db, right.db, client)
    requires Fits(cfg, left, turns, Left, client) && Fits(cfg, right, turns, Right, client)
    ensures Answers(cfg, left, turns, Left) == Answers(cfg, right, turns, Right)
    ensures var l, r := Through(cfg, left, turns, Left), Through(cfg, right, turns, Right);
            l.now == r.now && SameClientView(cfg, l.db, r.db, client)
  {
    if turns == [] {
    } else {
      var before, last := turns[..|turns| - 1], turns[|turns| - 1];
      RunsSeeOnlyTheirView(cfg, left, right, before, client);
      TurnSeesOnlyItsView(cfg, Through(cfg, left, before, Left), Through(cfg, right, before, Right), last, client);
    }
  }

  lemma TurnSeesOnlyItsView(cfg: Settings, left: World, right: World, turn: Turn, client: ClientId)
    requires left.now == right.now && SameClientView(cfg, left.db, right.db, client)
    requires turn.Own? ==> OwnLease(turn.event, client)
    requires turn.Unseen? ==> OutOfView(cfg, left, turn.left, client) && OutOfView(cfg, right, turn.right, client)
    ensures turn.Own? ==> Answer(cfg, left, turn.event).response == Answer(cfg, right, turn.event).response
    ensures var l, r := Run(cfg, left, Happens(turn, Left)), Run(cfg, right, Happens(turn, Right));
            l.now == r.now && SameClientView(cfg, l.db, r.db, client)
  {
    match turn
    case Own(event) =>
      OwnLeaseSeesOnlyItsView(cfg, left, right, event);
      RunOne(cfg, left, event);
      RunOne(cfg, right, event);
    case Wait(elapsed) =>
      RunTick(cfg, left, elapsed);
      RunTick(cfg, right, elapsed);
    case Unseen(leftEvents, rightEvents) =>
      UnseenKeepsView(cfg, left, leftEvents, client);
      UnseenKeepsView(cfg, right, rightEvents, client);
      SameViewChains(cfg, left.db, Run(cfg, left, leftEvents).db, right.db, client);
      SameViewChains(cfg, left.db, right.db, Run(cfg, right, rightEvents).db, client);
      SameViewChains(cfg, Run(cfg, left, leftEvents).db, left.db, Run(cfg, right, rightEvents).db, client);
  }

  lemma {:induction false} TurnsKeepSound(cfg: Settings, world: World, turns: seq<Turn>, side: Side)
    requires Sound(cfg, world)
    ensures Sound(cfg, Through(cfg, world, turns, side))
  {
    if turns == [] {
    } else {
      var before := turns[..|turns| - 1];
      TurnsKeepSound(cfg, world, before, side);
      RunKeepsSound(cfg, Through(cfg, world, before, side), Happens(turns[|turns| - 1], side));
    }
  }

  /** And what it reads at any point of such a run is the same: one job, or any page of the list. */
  lemma RunsReadAlike(cfg: Settings, left: World, right: World, turns: seq<Turn>, client: ClientId, id: JobId, filters: JobFilters)
    requires left.now == right.now && SameClientView(cfg, left.db, right.db, client)
    requires Fits(cfg, left, turns, Left, client) && Fits(cfg, right, turns, Right, client)
    requires Sound(cfg, left) && Sound(cfg, right)
    requires client in Through(cfg, left, turns, Left).db.clients
    ensures client in Through(cfg, right, turns, Right).db.clients
    ensures var l, r := Through(cfg, left, turns, Left).db, Through(cfg, right, turns, Right).db;
            var identity := l.clients[client].identityId;
            && VisibleJob(cfg, l, identity, id) == VisibleJob(cfg, r, identity, id)
            && FeedRows(cfg, l, identity, filters) == FeedRows(cfg, r, identity, filters)
  {
    RunsSeeOnlyTheirView(cfg, left, right, turns, client);
    TurnsKeepSound(cfg, left, turns, Left);
    TurnsKeepSound(cfg, right, turns, Right);
    var l := Through(cfg, left, turns, Left).db;
    ReadsSeeOnlyTheirView(cfg, l, Through(cfg, right, turns, Right).db, l.clients[client].identityId, id, filters);
  }
}
