/**
 The five gates over whole runs, told from history alone. A client's row is what it enrolled with and
 last declared; every lease ever handed out meets its job's frozen and live gates against that.
 */
module LeaseHistory {
  import opened Models
  import opened Dispatch
  import opened JobTable
  import opened HubMachine
  import opened TableInvariant
  import opened PolicyHistory

  datatype Enrolment = Enrolment(model: string, tier: ModelTier)

  predicate ChecksIn(cfg: Settings, world: World, event: Event, client: ClientId) {
    event.CheckIn? && event.client == client && Answer(cfg, world, event).response.CheckedInFor?
  }

  /** What the client enrolled as. */
  function EnrolledAs(cfg: Settings, world: World, events: seq<Event>, client: ClientId): Option<Enrolment> {
    if events == [] then None
    else
      var before, last := events[..|events| - 1], events[|events| - 1];
      if last.Enrol? && Answer(cfg, Run(cfg, world, before), last).response == Enrolled(client)
      then Some(Enrolment(last.model, last.tier))
      else EnrolledAs(cfg, world, before, client)
  }

  /** The strategies in the last accepted check-in that named any. */
  function LastOffered(cfg: Settings, world: World, events: seq<Event>, client: ClientId): seq<string> {
    if events == [] then []
    else
      var before, last := events[..|events| - 1], events[|events| - 1];
      if ChecksIn(cfg, Run(cfg, world, before), last, client) && last.offered.Some?
      then last.offered.value
      else LastOffered(cfg, world, before, client)
  }

  /** Whether the client's last check-in or check-out was a check-in. */
  predicate LastCheckedIn(cfg: Settings, world: World, events: seq<Event>, client: ClientId) {
    if events == [] then false
    else
      var before, last := events[..|events| - 1], events[|events| - 1];
      var middle := Run(cfg, world, before);
      if ChecksIn(cfg, middle, last, client) then true
      else if last == CheckOut(client) && Answer(cfg, middle, last).response == Accepted then false
      else LastCheckedIn(cfg, world, before, client)
  }

  /** What one step can do to a client's row, or the row it can add. */
  lemma ClientStep(cfg: Settings, world: World, event: Event, client: ClientId)
    requires ClientsOk(world.db) && client in Step(cfg, world, event).db.clients
    ensures var after := Step(cfg, world, event).db.clients[client];
            if client in world.db.clients then
              var row := world.db.clients[client];
              && after.modelName == row.modelName && after.tier == row.tier
              && after.offered == (if ChecksIn(cfg, world, event, client) && event.offered.Some? then event.offered.value else row.offered)
              && after.status == (if ChecksIn(cfg, world, event, client) then CheckedIn
                                  else if event == CheckOut(client) then CheckedOut else row.status)
            else
              && event.Enrol? && Answer(cfg, world, event).response == Enrolled(client) && client == world.db.nextClient
              && after.modelName == event.model && after.tier == event.tier && after.offered == [] && after.status == CheckedOut
    ensures event.Enrol? && Answer(cfg, world, event).response == Enrolled(client) ==> client == world.db.nextClient
  {
    if !(event.Enrol? || event.CheckIn? || event.CheckOut? || event.Revoke?) {
      ClientsUntouched(cfg, world, event);
    }
  }

  lemma ClientsUntouched(cfg: Settings, world: World, event: Event)
    requires !(event.Enrol? || event.CheckIn? || event.CheckOut? || event.Revoke?)
    ensures Step(cfg, world, event).db.clients == world.db.clients
  {
  }

  /** An id that has not been given out yet has no history. */
  lemma {:induction false} NotYetEnrolled(cfg: Settings, now: Instant, events: seq<Event>, client: ClientId)
    requires client >= Run(cfg, InitialWorld(now), events).db.nextClient
    ensures EnrolledAs(cfg, InitialWorld(now), events, client).None?
    ensures LastOffered(cfg, InitialWorld(now), events, client) == []
    ensures !LastCheckedIn(cfg, InitialWorld(now), events, client)
  {
    if events == [] {
    } else {
      var before, last := events[..|events| - 1], events[|events| - 1];
      var middle := Run(cfg, InitialWorld(now), before);
      InitialInvariant(cfg, now);
      RunKeepsInvariant(cfg, InitialWorld(now), before);
      ClientNumbersGrow(cfg, middle, last);
      NotYetEnrolled(cfg, now, before, client);
      assert client !in middle.db.clients;
    }
  }

  lemma ClientNumbersGrow(cfg: Settings, world: World, event: Event)
    ensures world.db.nextClient <= Step(cfg, world, event).db.nextClient
    ensures Answer(cfg, world, event).response.Enrolled? ==>
      Answer(cfg, world, event).response.client < Step(cfg, world, event).db.nextClient
  {
  }

  /** A client's row, over any run, is its own history. */
  lemma {:induction false} ClientIsItsHistory(cfg: Settings, now: Instant, events: seq<Event>, client: ClientId)
    requires client in Run(cfg, InitialWorld(now), events).db.clients
    ensures var row := Run(cfg, InitialWorld(now), events).db.clients[client];
            && EnrolledAs(cfg, InitialWorld(now), events, client) == Some(Enrolment(row.modelName, row.tier))
            && LastOffered(cfg, InitialWorld(now), events, client) == row.offered
            && (LastCheckedIn(cfg, InitialWorld(now), events, client) <==> row.status == CheckedIn)
  {
    var before, last := events[..|events| - 1], events[|events| - 1];
    var middle := Run(cfg, InitialWorld(now), before);
    InitialInvariant(cfg, now);
    RunKeepsInvariant(cfg, InitialWorld(now), before);
    ClientStep(cfg, middle, last, client);
    if client in middle.db.clients {
      ClientIsItsHistory(cfg, now, before, client);
    } else {
      NotYetEnrolled(cfg, now, before, client);
    }
  }

  /**
   Every lease ever handed out, whatever came before it: the client's last word was a check-in; its tier
   clears the floor, and its last offer overlaps the strategies, in force when the job was enqueued; and
   the model it enrolled with is allowed by the lists in force now.
   */
  lemma EveryLeaseMeetsItsGates(cfg: Settings, now: Instant, events: seq<Event>, k: nat, client: ClientId, id: JobId) returns (enqueued: nat)
    requires k < |events| && (events[k] == LeaseNext(client) || events[k] == LeaseNamed(client, id))
    requires ResponseAt(cfg, InitialWorld(now), events, k) == Granted(id)
    ensures enqueued < k && events[enqueued].Enqueue?
    ensures ResponseAt(cfg, InitialWorld(now), events, enqueued) == Enqueued(id)
    ensures LastCheckedIn(cfg, InitialWorld(now), events[..k], client)
    ensures EnrolledAs(cfg, InitialWorld(now), events[..k], client).Some?
    ensures var start, repo := InitialWorld(now), events[enqueued].spec.repo;
            var machine := EnrolledAs(cfg, start, events[..k], client).value;
            && TierRank(LastFloor(cfg, start, events[..enqueued], repo)) <= TierRank(machine.tier)
            && StrategiesOverlap(LastMention(cfg, start, events[..enqueued], repo, Strategies), LastOffered(cfg, start, events[..k], client))
            && ModelAllowed(LastMention(cfg, start, events[..k], repo, AcceptedModels), LastMention(cfg, start, events[..k], repo, AcceptedGroups),
                            machine.model, cfg.modelGroups)
  {
    var prefix := events[..k];
    var world := Run(cfg, InitialWorld(now), prefix);
    GrantedWasQueued(cfg, world, events[k]);
    GrantedClientIsPresent(cfg, world, events[k]);
    ClientIsItsHistory(cfg, now, prefix, client);
    enqueued := FrozenAtEnqueue(cfg, now, prefix, id);
    assert prefix[..enqueued] == events[..enqueued];
    ModelGateIsLive(cfg, now, events, k, client, id);
    GateTwins(cfg, world, client, id);
  }

  lemma GrantedClientIsPresent(cfg: Settings, world: World, event: Event)
    requires Answer(cfg, world, event).response.Granted?
    ensures (event.LeaseNext? || event.LeaseNamed?) && event.client in world.db.clients
    ensures world.db.clients[event.client].status == CheckedIn
  {
  }

  /** The frozen gates of an eligible row, in their plain form. */
  lemma GateTwins(cfg: Settings, world: World, client: ClientId, id: JobId)
    requires client in world.db.clients && id in world.db.jobs
    requires Eligible(cfg, Reclaimed(world.db, world.now), world.db.clients[client], Reclaimed(world.db, world.now).jobs[id])
    ensures TierRank(world.db.jobs[id].minTier) <= TierRank(world.db.clients[client].tier)
    ensures StrategiesOverlap(world.db.jobs[id].requested, world.db.clients[client].offered)
  {
    TierFloor(world.db.jobs[id].minTier, world.db.clients[client].tier);
    StrategyTwins(world.db.jobs[id].requested, world.db.clients[client].offered);
  }
}
