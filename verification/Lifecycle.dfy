/**
 How long a job can keep moving. Every change of a job's state spends from a measure that starts at
 2 * maxAttempts + 1, and `attempts` is exactly the number of hand-overs in the job's history.
 */
module Lifecycle {
  import opened Models
  import opened Dispatch
  import opened JobTable
  import opened HubMachine
  import opened TableInvariant

  /** The state changes a job still has in it. */
  function Measure(job: Job): int {
    match job.state
    case Queued => 2 * (job.maxAttempts - job.attempts) + 1
    case Leased => 2 * (job.maxAttempts - job.attempts) + 2
    case Reported => 1
    case Relayed => 0
    case Exhausted => 0
    case Cancelled => 0
  }

  function Differ(left: JobState, right: JobState): nat {
    if left == right then 0 else 1
  }

  /** A lease request moves a job twice when it reclaims and hands over in one step. */
  function StepChanges(cfg: Settings, world: World, event: Event, id: JobId): nat {
    if id !in world.db.jobs then 0
    else
      var row := world.db.jobs[id];
      var response := Answer(cfg, world, event).response;
      var swept :=
        if (event.LeaseNext? || event.LeaseNamed?) && Sweeps(response)
        then TransitionRow(LapsedBefore(world.now), row) else row;
      Differ(row.state, swept.state)
      + Differ(swept.state, RowAfter(cfg, world.now, event, response, id, row).state)
  }

  function StateChanges(cfg: Settings, world: World, events: seq<Event>, id: JobId): nat {
    if events == [] then 0
    else
      var before := events[..|events| - 1];
      StateChanges(cfg, world, before, id)
      + StepChanges(cfg, Run(cfg, world, before), events[|events| - 1], id)
  }

  function HandOvers(cfg: Settings, world: World, events: seq<Event>, id: JobId): nat {
    if events == [] then 0
    else
      var before := events[..|events| - 1];
      HandOvers(cfg, world, before, id)
      + (if Answer(cfg, Run(cfg, world, before), events[|events| - 1]).response == Granted(id) then 1 else 0)
  }

  // ---- one step ----

  lemma MeasureBounds(db: Db, job: Job)
    requires RowOk(db, job)
    ensures 0 <= Measure(job) <= 2 * job.maxAttempts + 1
  {
  }

  /** Every state change of a row is paid for by its measure, and a grant is what an attempt counts. */
  lemma RowPays(cfg: Settings, world: World, event: Event, id: JobId)
    requires Sound(cfg, world) && id in world.db.jobs
    ensures id in Step(cfg, world, event).db.jobs
    ensures var row, after := world.db.jobs[id], Step(cfg, world, event).db.jobs[id];
            && Measure(after) + StepChanges(cfg, world, event, id) <= Measure(row)
            && after.maxAttempts == row.maxAttempts
            && after.attempts == row.attempts + (if Answer(cfg, world, event).response == Granted(id) then 1 else 0)
  {
    RowStep(cfg, world, event, id);
    AnswerFitsRow(cfg, world, event, id);
    RowPaysInPlace(cfg, world, event, Answer(cfg, world, event).response, id);
  }

  lemma RowPaysInPlace(cfg: Settings, world: World, event: Event, response: Response, id: JobId)
    requires id in world.db.jobs && RowOk(world.db, world.db.jobs[id])
    requires AnswerFits(world, event, response, id, world.db.jobs[id])
    requires response == Answer(cfg, world, event).response
    ensures var row, after := world.db.jobs[id], RowAfter(cfg, world.now, event, response, id, world.db.jobs[id]);
            && Measure(after) + StepChanges(cfg, world, event, id) <= Measure(row)
            && after.maxAttempts == row.maxAttempts
            && after.attempts == row.attempts + (if response == Granted(id) then 1 else 0)
  {
  }

  // ---- whole runs ----

  /** Jobs are only ever added. */
  lemma {:induction false} JobsStay(cfg: Settings, world: World, events: seq<Event>, id: JobId)
    requires Sound(cfg, world) && id in world.db.jobs
    ensures id in Run(cfg, world, events).db.jobs
  {
    if events == [] {
    } else {
      var before := events[..|events| - 1];
      JobsStay(cfg, world, before, id);
      RunKeepsSound(cfg, world, before);
      RowStep(cfg, Run(cfg, world, before), events[|events| - 1], id);
    }
  }

  /** What a job had in it at the start, or what a job enqueued during the run begins with. */
  function Allowance(world: World, job: Job, id: JobId): int {
    if id in world.db.jobs then Measure(world.db.jobs[id]) else 2 * job.maxAttempts + 1
  }

  function AttemptsAtStart(world: World, id: JobId): int {
    if id in world.db.jobs then world.db.jobs[id].attempts else 0
  }

  /** Over any run: the changes made and the changes still possible never exceed the allowance. */
  lemma {:induction false} ChangesArePaidFor(cfg: Settings, world: World, events: seq<Event>, id: JobId)
    requires Sound(cfg, world)
    ensures var after := Run(cfg, world, events);
            if id in after.db.jobs then
              && StateChanges(cfg, world, events, id) + Measure(after.db.jobs[id]) <= Allowance(world, after.db.jobs[id], id)
              && after.db.jobs[id].attempts == AttemptsAtStart(world, id) + HandOvers(cfg, world, events, id)
            else
              StateChanges(cfg, world, events, id) == 0 && HandOvers(cfg, world, events, id) == 0
  {
    if events == [] {
    } else {
      var before, last := events[..|events| - 1], events[|events| - 1];
      var middle := Run(cfg, world, before);
      ChangesArePaidFor(cfg, world, before, id);
      RunKeepsSound(cfg, world, before);
      if id in middle.db.jobs {
        RowPays(cfg, middle, last, id);
      } else {
        if id in world.db.jobs {
          JobsStay(cfg, world, before, id);
        }
        if id in Step(cfg, middle, last).db.jobs {
          RowAppears(cfg, middle, last, id);
        }
        if Answer(cfg, middle, last).response.Granted? {
          GrantedWasQueued(cfg, middle, last);
        }
      }
    }
  }

  /** A job makes at most 2 * maxAttempts + 1 state changes in any run whatever. */
  lemma LifeIsBounded(cfg: Settings, world: World, events: seq<Event>, id: JobId)
    requires Sound(cfg, world) && id in Run(cfg, world, events).db.jobs
    ensures StateChanges(cfg, world, events, id) <= 2 * Run(cfg, world, events).db.jobs[id].maxAttempts + 1
    ensures id !in world.db.jobs ==>
      Run(cfg, world, events).db.jobs[id].attempts == HandOvers(cfg, world, events, id)
  {
    var after := Run(cfg, world, events);
    RunKeepsSound(cfg, world, events);
    ChangesArePaidFor(cfg, world, events, id);
    MeasureBounds(after.db, after.db.jobs[id]);
    if id in world.db.jobs {
      BudgetIsFixed(cfg, world, events, id);
      MeasureBounds(world.db, world.db.jobs[id]);
    }
  }

  lemma {:induction false} BudgetIsFixed(cfg: Settings, world: World, events: seq<Event>, id: JobId)
    requires Sound(cfg, world) && id in world.db.jobs
    ensures id in Run(cfg, world, events).db.jobs
    ensures Run(cfg, world, events).db.jobs[id].maxAttempts == world.db.jobs[id].maxAttempts
  {
    if events == [] {
    } else {
      var before := events[..|events| - 1];
      BudgetIsFixed(cfg, world, before, id);
      RunKeepsSound(cfg, world, before);
      RowPays(cfg, Run(cfg, world, before), events[|events| - 1], id);
    }
  }

  // ---- the bound is reached ----

  lemma {:induction false} RunConcat(cfg: Settings, world: World, first: seq<Event>, second: seq<Event>, id: JobId)
    ensures Run(cfg, world, first + second) == Run(cfg, Run(cfg, world, first), second)
    ensures StateChanges(cfg, world, first + second, id)
         == StateChanges(cfg, world, first, id) + StateChanges(cfg, Run(cfg, world, first), second, id)
  {
    if second == [] {
      assert first + second == first;
    } else {
      var before := second[..|second| - 1];
      assert (first + second)[..|first + second| - 1] == first + before;
      RunConcat(cfg, world, first, before, id);
    }
  }

  lemma ChangesOfOne(cfg: Settings, world: World, event: Event, id: JobId)
    ensures StateChanges(cfg, world, [event], id) == StepChanges(cfg, world, event, id)
  {
    assert [event][..0] == [];
    assert StateChanges(cfg, world, [], id) == 0;
  }

  lemma StepThenRun(cfg: Settings, world: World, event: Event, rest: seq<Event>, id: JobId)
    ensures Run(cfg, world, [event] + rest) == Run(cfg, Step(cfg, world, event), rest)
    ensures StateChanges(cfg, world, [event] + rest, id)
         == StepChanges(cfg, world, event, id) + StateChanges(cfg, Step(cfg, world, event), rest, id)
  {
    RunConcat(cfg, world, [event], rest, id);
    RunOne(cfg, world, event);
    ChangesOfOne(cfg, world, event, id);
  }

  /** A dev-mode hub with one checked-in client and one job it can take on its next poll. */
  predicate Ready(cfg: Settings, world: World) {
    && cfg.Valid() && cfg.mode == DevMode
    && world.db.jobs.Keys == {0}
    && 0 in world.db.clients && world.db.clients[0].status == CheckedIn
    && world.db.policies == map[]
    && world.db.jobs[0].minTier == Experimental && world.db.jobs[0].requested == []
    && LeaseColumnsAgree(world.db.jobs[0]) && BudgetHolds(world.db.jobs[0])
    && TransitionRow(LapsedBefore(world.now), world.db.jobs[0]).state == Queued
  }

  lemma ReadyIsGranted(cfg: Settings, world: World)
    requires Ready(cfg, world)
    ensures Answer(cfg, world, LeaseNext(0)).response == Granted(0)
    ensures var after := Step(cfg, world, LeaseNext(0));
            && after.now == world.now && after.relays == world.relays
            && after.db == world.db.(jobs := map[0 := HandedOver(cfg, world.now, TransitionRow(LapsedBefore(world.now), world.db.jobs[0]), 0)])
    ensures Measure(Step(cfg, world, LeaseNext(0)).db.jobs[0]) + StepChanges(cfg, world, LeaseNext(0), 0)
         == Measure(world.db.jobs[0])
  {
    var swept := Reclaimed(world.db, world.now);
    assert Experimental in TiersAtOrBelow(world.db.clients[0].tier) by {
      TierFloor(Experimental, world.db.clients[0].tier);
    }
    assert EligibleIds(cfg, swept, world.db.clients[0]) == {0};
  }

  /** After a hand-over that leaves attempts, waiting out the lease makes the job ready again. */
  lemma WaitingIsReady(cfg: Settings, world: World, leased: World, wait: Event)
    requires Ready(cfg, world) && leased == Step(cfg, world, LeaseNext(0))
    requires wait == Tick(cfg.leaseTtlSeconds * MICROS_PER_SECOND + 1)
    requires 0 in leased.db.jobs && leased.db.jobs[0].attempts < leased.db.jobs[0].maxAttempts
    ensures Ready(cfg, Step(cfg, leased, wait))
    ensures Step(cfg, leased, wait).db == leased.db
    ensures StepChanges(cfg, leased, wait, 0) == 0
  {
    ReadyIsGranted(cfg, world);
  }

  /** The last hand-over's report and relay make the last two changes. */
  lemma LastLeaseIsReported(cfg: Settings, leased: World)
    requires 0 in leased.db.clients && 0 in leased.db.jobs
    requires leased.db.jobs[0].state == Leased && leased.db.jobs[0].leasedBy == Some(0)
    ensures StateChanges(cfg, leased, [Report(0, 0, ReportPayload("approve", "", []))] + [RelayOutcome(0, None)], 0) == 2
  {
    var report, relay := Report(0, 0, ReportPayload("approve", "", [])), RelayOutcome(0, None);
    RunOne(cfg, Step(cfg, leased, report), relay);
    ChangesOfOne(cfg, Step(cfg, leased, report), relay, 0);
    StepThenRun(cfg, leased, report, [relay], 0);
  }

  /** From every ready state there is a run in which the job makes every change its measure allows. */
  lemma {:induction false} BoundIsReached(cfg: Settings, world: World) returns (events: seq<Event>)
    requires Ready(cfg, world)
    ensures StateChanges(cfg, world, events, 0) == Measure(world.db.jobs[0])
    decreases world.db.jobs[0].maxAttempts - world.db.jobs[0].attempts
  {
    ReadyIsGranted(cfg, world);
    var leased := Step(cfg, world, LeaseNext(0));
    var rest: seq<Event>;
    if leased.db.jobs[0].attempts < leased.db.jobs[0].maxAttempts {
      var wait := Tick(cfg.leaseTtlSeconds * MICROS_PER_SECOND + 1);
      WaitingIsReady(cfg, world, leased, wait);
      var later := BoundIsReached(cfg, Step(cfg, leased, wait));
      StepThenRun(cfg, leased, wait, later, 0);
      rest := [wait] + later;
    } else {
      LastLeaseIsReported(cfg, leased);
      rest := [Report(0, 0, ReportPayload("approve", "", []))] + [RelayOutcome(0, None)];
    }
    StepThenRun(cfg, world, LeaseNext(0), rest, 0);
    events := [LeaseNext(0)] + rest;
  }

  /** From the empty hub, a run in which one job makes all seven changes three attempts allow. */
  lemma BoundIsReachedFromEmpty(cfg: Settings, now: Instant) returns (events: seq<Event>)
    requires cfg.Valid() && cfg.mode == DevMode
    ensures StateChanges(cfg, InitialWorld(now), events, 0) == 7
    ensures 0 in Run(cfg, InitialWorld(now), events).db.jobs
  {
    var start := InitialWorld(now);
    var enrol, checkIn := Enrol("m", Standard, true, Rejected), CheckIn(0, None, None);
    var enqueue := Enqueue(JobSpec("o/r", 1, "sha", None, "opened"));
    var enrolled := Step(cfg, start, enrol);
    var present := Step(cfg, enrolled, checkIn);
    var ready := Step(cfg, present, enqueue);
    assert ready.db.jobs == map[0 := NewJob(enqueue.spec, map[])];
    var rest := BoundIsReached(cfg, ready);
    StepThenRun(cfg, present, enqueue, rest, 0);
    StepThenRun(cfg, enrolled, checkIn, [enqueue] + rest, 0);
    StepThenRun(cfg, start, enrol, [checkIn] + ([enqueue] + rest), 0);
    events := [enrol] + ([checkIn] + ([enqueue] + rest));
    InitialInvariant(cfg, now);
    ChangesArePaidFor(cfg, start, events, 0);
  }
}
