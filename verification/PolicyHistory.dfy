/**
 Frozen and live gates. A job's tier floor and strategies are those in force when it was enqueued; its
 model gate follows the policy as it is now. What is in force is told from the history of PUTs alone.
 */
module PolicyHistory {
  import opened Models
  import opened Dispatch
  import opened JobTable
  import opened HubMachine
  import opened TableInvariant

  /** The three policy lists a PUT may leave unmentioned. */
  datatype PolicyList = Strategies | AcceptedModels | AcceptedGroups

  function MentionIn(payload: PolicyPayload, list: PolicyList): Option<seq<string>> {
    match list
    case Strategies => payload.defaultStrategies
    case AcceptedModels => payload.acceptedModels
    case AcceptedGroups => payload.acceptedGroups
  }

  function StoredList(policies: map<RepoName, Policy>, repo: RepoName, list: PolicyList): seq<string> {
    if repo !in policies then []
    else
      match list
      case Strategies => policies[repo].defaultStrategies
      case AcceptedModels => policies[repo].acceptedModels
      case AcceptedGroups => policies[repo].acceptedGroups
  }

  predicate AcceptedPut(cfg: Settings, world: World, event: Event, repo: RepoName) {
    event.PutPolicy? && event.repo == repo && Answer(cfg, world, event).response == Accepted
  }

  /** The list the last accepted PUT that mentioned it carried; nothing was ever mentioned means empty. */
  function LastMention(cfg: Settings, world: World, events: seq<Event>, repo: RepoName, list: PolicyList): seq<string> {
    if events == [] then []
    else
      var before, last := events[..|events| - 1], events[|events| - 1];
      if AcceptedPut(cfg, Run(cfg, world, before), last, repo) && MentionIn(last.payload, list).Some?
      then MentionIn(last.payload, list).value
      else LastMention(cfg, world, before, repo, list)
  }

  /** The floor of the last accepted PUT; every PUT carries one. */
  function LastFloor(cfg: Settings, world: World, events: seq<Event>, repo: RepoName): ModelTier {
    if events == [] then Experimental
    else
      var before, last := events[..|events| - 1], events[|events| - 1];
      if AcceptedPut(cfg, Run(cfg, world, before), last, repo) then last.payload.minTier
      else LastFloor(cfg, world, before, repo)
  }

  /** Whether the last accepted PUT left the repo enabled; a repo nobody configured is. */
  function LastEnabled(cfg: Settings, world: World, events: seq<Event>, repo: RepoName): bool {
    if events == [] then true
    else
      var before, last := events[..|events| - 1], events[|events| - 1];
      if AcceptedPut(cfg, Run(cfg, world, before), last, repo) then last.payload.enabled
      else LastEnabled(cfg, world, before, repo)
  }

  /** A step other than an accepted PUT of this repo leaves its policy alone. */
  lemma PolicyStep(cfg: Settings, world: World, event: Event, repo: RepoName)
    ensures var before, after := world.db.policies, Step(cfg, world, event).db.policies;
            if AcceptedPut(cfg, world, event, repo) then
              repo in after && after[repo] == PolicyAfter(StoredPolicy(world.db, repo), event.payload)
            else
              (repo in after <==> repo in before) && (repo in before ==> after[repo] == before[repo])
  {
    if !event.PutPolicy? {
      OnlyPutsWritePolicies(cfg, world, event);
    }
  }

  lemma OnlyPutsWritePolicies(cfg: Settings, world: World, event: Event)
    requires !event.PutPolicy?
    ensures Step(cfg, world, event).db.policies == world.db.policies
  {
  }

  /** The stored lists, floor and switch are the last mentions, over any run. */
  lemma {:induction false} PolicyIsLastMention(cfg: Settings, now: Instant, events: seq<Event>, repo: RepoName, list: PolicyList)
    ensures var policies := Run(cfg, InitialWorld(now), events).db.policies;
            && StoredList(policies, repo, list) == LastMention(cfg, InitialWorld(now), events, repo, list)
            && (if repo in policies then policies[repo].minTier else Experimental) == LastFloor(cfg, InitialWorld(now), events, repo)
            && (repo in policies ==> policies[repo].enabled) == LastEnabled(cfg, InitialWorld(now), events, repo)
  {
    if events == [] {
    } else {
      var before := events[..|events| - 1];
      PolicyIsLastMention(cfg, now, before, repo, list);
      PolicyStep(cfg, Run(cfg, InitialWorld(now), before), events[|events| - 1], repo);
    }
  }

  /** Queued or leased, for this repo, this PR and this very head. */
  predicate InHand(job: Job, spec: JobSpec) {
    && (job.state == Queued || job.state == Leased)
    && job.spec.repo == spec.repo && job.spec.pr == spec.pr && job.spec.headSha == spec.headSha
  }

  /**
   A delivery is skipped if and only if the repo's last accepted PUT disabled it or an active job already
   reviews that head; otherwise it adds one queued job and touches no other.
   */
  lemma EnqueueIsDecided(cfg: Settings, now: Instant, events: seq<Event>, spec: JobSpec)
    ensures var world := Run(cfg, InitialWorld(now), events);
            var response := Answer(cfg, world, Enqueue(spec)).response;
            var after := Step(cfg, world, Enqueue(spec)).db.jobs;
            && (response == Skipped <==>
                  !LastEnabled(cfg, InitialWorld(now), events, spec.repo)
                  || exists id :: id in world.db.jobs && InHand(world.db.jobs[id], spec))
            && (response == Skipped ==> after == world.db.jobs)
            && (response != Skipped ==>
                  && response == Enqueued(world.db.nextJob) && world.db.nextJob !in world.db.jobs
                  && after - {world.db.nextJob} == world.db.jobs
                  && after[world.db.nextJob].state == Queued && after[world.db.nextJob].attempts == 0
                  && after[world.db.nextJob].maxAttempts == 3
                  && after[world.db.nextJob].spec == spec)
  {
    var world := Run(cfg, InitialWorld(now), events);
    InitialInvariant(cfg, now);
    RunKeepsSound(cfg, InitialWorld(now), events);
    PolicyIsLastMention(cfg, now, events, spec.repo, Strategies);
    EnqueueAdds(world.db, spec);
  }

  lemma EnqueueAdds(db: Db, spec: JobSpec)
    requires RowsOk(db)
    ensures var outcome := EnqueueOutcome(db, spec);
            && (outcome.response == Skipped <==>
                  (spec.repo in db.policies && !db.policies[spec.repo].enabled)
                  || exists id :: id in db.jobs && InHand(db.jobs[id], spec))
            && (outcome.response == Skipped ==> outcome.db == db)
            && (outcome.response != Skipped ==>
                  && outcome.response == Enqueued(db.nextJob) && db.nextJob !in db.jobs
                  && outcome.db.jobs - {db.nextJob} == db.jobs
                  && outcome.db.jobs[db.nextJob] == NewJob(spec, db.policies))
  {
    var active := ActiveFor(db.jobs, spec);
    if active != {} {
      var id :| id in active;
      assert id in db.jobs && InHand(db.jobs[id], spec);
    }
    if id :| id in db.jobs && InHand(db.jobs[id], spec) {
      assert id in active;
    }
  }

  /** A close answers with the number of that PR's queued jobs, cancels exactly those, and touches nothing else. */
  lemma CloseIsDecided(cfg: Settings, world: World, repo: RepoName, pr: int)
    ensures var response, after := Answer(cfg, world, ClosePr(repo, pr)).response, Step(cfg, world, ClosePr(repo, pr));
            var waiting := set id | id in world.db.jobs && world.db.jobs[id].state == Queued
                                    && world.db.jobs[id].spec.repo == repo && world.db.jobs[id].spec.pr == pr;
            && response == CancelledJobs(|waiting|)
            && after.db == world.db.(jobs := after.db.jobs) && after.relays == world.relays && after.db.jobs.Keys == world.db.jobs.Keys
            && forall id | id in world.db.jobs ::
                 after.db.jobs[id] == if id in waiting then world.db.jobs[id].(state := Cancelled) else world.db.jobs[id]
  {
    var waiting := set id | id in world.db.jobs && world.db.jobs[id].state == Queued
                            && world.db.jobs[id].spec.repo == repo && world.db.jobs[id].spec.pr == pr;
    assert waiting == CancelledIds(world.db.jobs, repo, pr);
    forall id | id in world.db.jobs
      ensures CancelQueued(world.db.jobs, repo, pr)[id]
           == if id in waiting then world.db.jobs[id].(state := Cancelled) else world.db.jobs[id]
    {
      CloseEmptiesTheQueue(world.db.jobs, repo, pr, id);
    }
  }

  /** No step rewrites a job's frozen gates. */
  lemma FrozenStep(cfg: Settings, world: World, event: Event, id: JobId)
    requires Sound(cfg, world) && id in world.db.jobs
    ensures id in Step(cfg, world, event).db.jobs
    ensures var row, after := world.db.jobs[id], Step(cfg, world, event).db.jobs[id];
            after.spec == row.spec && after.minTier == row.minTier && after.requested == row.requested
  {
    RowStep(cfg, world, event, id);
    FrozenRow(cfg, world.now, event, Answer(cfg, world, event).response, id, world.db.jobs[id]);
  }

  lemma FrozenRow(cfg: Settings, now: Instant, event: Event, response: Response, id: JobId, row: Job)
    ensures var after := RowAfter(cfg, now, event, response, id, row);
            after.spec == row.spec && after.minTier == row.minTier && after.requested == row.requested
  {
  }

  /**
   Every job a run from the empty hub holds was enqueued at some event of the run, and whatever PUTs
   followed, its floor and strategies are the ones in force just before that event.
   */
  lemma {:induction false} FrozenAtEnqueue(cfg: Settings, now: Instant, events: seq<Event>, id: JobId) returns (k: nat)
    requires id in Run(cfg, InitialWorld(now), events).db.jobs
    ensures k < |events| && events[k].Enqueue?
    ensures ResponseAt(cfg, InitialWorld(now), events, k) == Enqueued(id)
    ensures var job := Run(cfg, InitialWorld(now), events).db.jobs[id];
            && job.spec == events[k].spec
            && job.minTier == LastFloor(cfg, InitialWorld(now), events[..k], job.spec.repo)
            && job.requested == LastMention(cfg, InitialWorld(now), events[..k], job.spec.repo, Strategies)
  {
    var start := InitialWorld(now);
    var n := |events| - 1;
    var before, last := events[..n], events[n];
    var middle := Run(cfg, start, before);
    InitialInvariant(cfg, now);
    RunKeepsSound(cfg, start, before);
    if id in middle.db.jobs {
      k := FrozenAtEnqueue(cfg, now, before, id);
      FrozenStep(cfg, middle, last, id);
      assert before[..k] == events[..k];
    } else {
      k := n;
      RowAppears(cfg, middle, last, id);
      PolicyIsLastMention(cfg, now, before, last.spec.repo, Strategies);
    }
  }

  /** Every lease ever handed out satisfies the allowlist as last PUT before it, not as it was at enqueue. */
  lemma ModelGateIsLive(cfg: Settings, now: Instant, events: seq<Event>, k: nat, client: ClientId, id: JobId)
    requires k < |events| && (events[k] == LeaseNext(client) || events[k] == LeaseNamed(client, id))
    requires ResponseAt(cfg, InitialWorld(now), events, k) == Granted(id)
    ensures var world := Before(cfg, InitialWorld(now), events, k);
            && client in world.db.clients && id in world.db.jobs
            && var repo := world.db.jobs[id].spec.repo;
            ModelAllowed(
              LastMention(cfg, InitialWorld(now), events[..k], repo, AcceptedModels),
              LastMention(cfg, InitialWorld(now), events[..k], repo, AcceptedGroups),
              world.db.clients[client].modelName,
              cfg.modelGroups)
  {
    var world := Before(cfg, InitialWorld(now), events, k);
    GrantedWasQueued(cfg, world, events[k]);
    var repo := world.db.jobs[id].spec.repo;
    AllowlistTwins(cfg, world.db.policies, repo, world.db.clients[client].modelName);
    PolicyIsLastMention(cfg, now, events[..k], repo, AcceptedModels);
    PolicyIsLastMention(cfg, now, events[..k], repo, AcceptedGroups);
  }

  // ---- every new head is taken up ----

  /** An earlier delivery of the run carried the same repo, PR and head. */
  predicate DeliveredBefore(events: seq<Event>, spec: JobSpec) {
    exists k | 0 <= k < |events| ::
      && events[k].Enqueue?
      && events[k].spec.repo == spec.repo && events[k].spec.pr == spec.pr && events[k].spec.headSha == spec.headSha
  }

  /**
   The first delivery of a head is enqueued, whatever became of the PR's earlier heads, unless the repo's
   last accepted PUT disabled it.
   */
  lemma NewHeadIsEnqueued(cfg: Settings, now: Instant, events: seq<Event>, spec: JobSpec)
    requires !DeliveredBefore(events, spec)
    ensures var world := Run(cfg, InitialWorld(now), events);
            Answer(cfg, world, Enqueue(spec)).response
            == if LastEnabled(cfg, InitialWorld(now), events, spec.repo) then Enqueued(world.db.nextJob) else Skipped
  {
    EnqueueIsDecided(cfg, now, events, spec);
    var world := Run(cfg, InitialWorld(now), events);
    forall id | id in world.db.jobs
      ensures !InHand(world.db.jobs[id], spec)
    {
      var k := FrozenAtEnqueue(cfg, now, events, id);
      assert events[k].Enqueue? && world.db.jobs[id].spec == events[k].spec;
    }
  }

  /** And no two jobs in hand ever review the same head. */
  lemma OneInHandPerHead(cfg: Settings, now: Instant, events: seq<Event>, i: JobId, k: JobId)
    requires var jobs := Run(cfg, InitialWorld(now), events).db.jobs;
             i in jobs && k in jobs && InHand(jobs[i], jobs[k].spec) && InHand(jobs[k], jobs[i].spec)
    ensures i == k
  {
    InitialInvariant(cfg, now);
    RunKeepsSound(cfg, InitialWorld(now), events);
  }
}
