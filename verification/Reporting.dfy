/**
 Reports and relays over whole runs: who may report, and why finished work cannot be lost between the
 two commits of the report endpoint or at any time after.
 */
module Reporting {
  import opened Models
  import opened Dispatch
  import opened JobTable
  import opened HubMachine
  import opened TableInvariant

  datatype Grant = Grant(client: ClientId, at: Instant)

  /** The most recent hand-over of a job in a run. */
  function LastGrant(cfg: Settings, world: World, events: seq<Event>, id: JobId): Option<Grant> {
    if events == [] then None
    else
      var before, last := events[..|events| - 1], events[|events| - 1];
      var middle := Run(cfg, world, before);
      if (last.LeaseNext? || last.LeaseNamed?) && Answer(cfg, middle, last).response == Granted(id)
      then Some(Grant(last.client, middle.now))
      else LastGrant(cfg, world, before, id)
  }

  /** A leased row carries its last hand-over: its holder, and the lease clock started then. */
  lemma {:induction false} LeaseIsLastGrant(cfg: Settings, now: Instant, events: seq<Event>, id: JobId)
    ensures var world := Run(cfg, InitialWorld(now), events);
            id in world.db.jobs && world.db.jobs[id].state == Leased ==>
              var grant := LastGrant(cfg, InitialWorld(now), events, id);
              && grant.Some?
              && world.db.jobs[id].leasedBy == Some(grant.value.client)
              && world.db.jobs[id].leaseExpiresAt == Some(After(grant.value.at, cfg.leaseTtlSeconds))
  {
    if events == [] {
    } else {
      var start := InitialWorld(now);
      var before, last := events[..|events| - 1], events[|events| - 1];
      var middle := Run(cfg, start, before);
      InitialInvariant(cfg, now);
      RunKeepsInvariant(cfg, start, before);
      LeaseIsLastGrant(cfg, now, before, id);
      if id in middle.db.jobs {
        RowStep(cfg, middle, last, id);
        AnswerFitsRow(cfg, middle, last, id);
        StillLeased(cfg, middle, last, Answer(cfg, middle, last).response, id, middle.db.jobs[id]);
        RunKeepsInvariant(cfg, start, events);
        InvariantHolders(cfg, Run(cfg, start, events), id);
      } else if id in Step(cfg, middle, last).db.jobs {
        RowAppears(cfg, middle, last, id);
      }
    }
  }

  lemma StillLeased(cfg: Settings, world: World, event: Event, response: Response, id: JobId, row: Job)
    requires AnswerFits(world, event, response, id, row) && LeaseColumnsAgree(row)
    ensures var after := RowAfter(cfg, world.now, event, response, id, row);
            after.state == Leased && LeaseColumnsAgree(after) && response != Granted(id) ==>
              row.state == Leased && after.leasedBy == row.leasedBy && after.leaseExpiresAt == row.leaseExpiresAt
    ensures var after := RowAfter(cfg, world.now, event, response, id, row);
            response == Granted(id) ==>
              after.leasedBy == Some(event.client) && after.leaseExpiresAt == Some(After(world.now, cfg.leaseTtlSeconds))
  {
  }

  /**
   An accepted report comes from the client the job was last handed to. The lease may have run out: it
   is accepted as long as nothing has released the job since.
   */
  lemma OnlyLastHolderReports(cfg: Settings, now: Instant, events: seq<Event>, client: ClientId, id: JobId, result: ReportPayload)
    requires Answer(cfg, Run(cfg, InitialWorld(now), events), Report(client, id, result)).response == Recorded
    ensures var grant := LastGrant(cfg, InitialWorld(now), events, id);
            grant.Some? && grant.value.client == client
  {
    LeaseIsLastGrant(cfg, now, events, id);
  }

  // ---- finished work ----

  predicate CarriesVerdict(world: World, id: JobId, result: ReportPayload) {
    && id in world.db.jobs && world.db.jobs[id].Finished()
    && world.db.jobs[id].verdict == Some(result.verdict)
    && world.db.jobs[id].summary == Some(result.summary)
    && world.db.jobs[id].findings == result.findings
  }

  predicate Relays(events: seq<Event>, id: JobId) {
    exists event | event in events :: event.RelayOutcome? && event.job == id
  }

  lemma StepKeepsVerdict(cfg: Settings, world: World, event: Event, id: JobId, result: ReportPayload)
    requires Sound(cfg, world) && CarriesVerdict(world, id, result)
    ensures CarriesVerdict(Step(cfg, world, event), id, result)
    ensures world.db.jobs[id].state == Relayed ==> Step(cfg, world, event).db.jobs[id].state == Relayed
    ensures id in world.relays && !(event.RelayOutcome? && event.job == id) ==> id in Step(cfg, world, event).relays
  {
    RowStep(cfg, world, event, id);
    AnswerFitsRow(cfg, world, event, id);
    VerdictInPlace(cfg, world, event, Answer(cfg, world, event).response, id, world.db.jobs[id]);
  }

  lemma VerdictInPlace(cfg: Settings, world: World, event: Event, response: Response, id: JobId, row: Job)
    requires AnswerFits(world, event, response, id, row) && row.Finished()
    ensures var after := RowAfter(cfg, world.now, event, response, id, row);
            && after.Finished() && (row.state == Relayed ==> after.state == Relayed)
            && after.verdict == row.verdict && after.summary == row.summary && after.findings == row.findings
  {
  }

  /** A recorded verdict survives every later step: closes, revocations of its author, other reports. */
  lemma {:induction false} VerdictIsDurable(cfg: Settings, world: World, events: seq<Event>, id: JobId, result: ReportPayload)
    requires Sound(cfg, world) && CarriesVerdict(world, id, result)
    ensures CarriesVerdict(Run(cfg, world, events), id, result)
    ensures id in world.relays && !Relays(events, id) ==> id in Run(cfg, world, events).relays
  {
    if events == [] {
    } else {
      var before, last := events[..|events| - 1], events[|events| - 1];
      VerdictIsDurable(cfg, world, before, id, result);
      RunKeepsSound(cfg, world, before);
      StepKeepsVerdict(cfg, Run(cfg, world, before), last, id, result);
    }
  }

  /**
   Whatever other requests commit between a report and its relay's outcome, the outcome lands on the
   reported row: a success makes it RELAYED, a failure leaves it REPORTED with the error.
   */
  lemma RelayLands(cfg: Settings, world: World, client: ClientId, id: JobId, result: ReportPayload, between: seq<Event>, error: Option<string>)
    requires Sound(cfg, world)
    requires Answer(cfg, world, Report(client, id, result)).response == Recorded
    requires !Relays(between, id)
    ensures var middle := Run(cfg, Step(cfg, world, Report(client, id, result)), between);
            var after := Step(cfg, middle, RelayOutcome(id, error));
            && Answer(cfg, middle, RelayOutcome(id, error)).response == Accepted
            && CarriesVerdict(after, id, result)
            && after.db.jobs[id].state == (if error.None? then Relayed else Reported)
            && after.db.jobs[id].relayError == error
            && id !in after.relays
  {
    var reported := Step(cfg, world, Report(client, id, result));
    StepKeepsSound(cfg, world, Report(client, id, result));
    ReportCarries(cfg, world, client, id, result);
    VerdictIsDurable(cfg, reported, between, id, result);
    OutcomeLands(cfg, Run(cfg, reported, between), id, result, error);
    RunKeepsSound(cfg, reported, between);
  }

  lemma ReportCarries(cfg: Settings, world: World, client: ClientId, id: JobId, result: ReportPayload)
    requires Answer(cfg, world, Report(client, id, result)).response == Recorded
    ensures var reported := Step(cfg, world, Report(client, id, result));
            CarriesVerdict(reported, id, result) && id in reported.relays
  {
  }

  lemma OutcomeLands(cfg: Settings, world: World, id: JobId, result: ReportPayload, error: Option<string>)
    requires CarriesVerdict(world, id, result) && id in world.relays
    ensures var after := Step(cfg, world, RelayOutcome(id, error));
            && Answer(cfg, world, RelayOutcome(id, error)).response == Accepted
            && CarriesVerdict(after, id, result)
            && after.db.jobs[id].state == (if error.None? then Relayed else world.db.jobs[id].state)
            && after.db.jobs[id].relayError == error
            && id !in after.relays
  {
  }
}
