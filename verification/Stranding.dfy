/**
 The one way a lease loses its holder. A revocation releases the leases it sees and then deletes the
 client; a lease of that client that commits in between is nulled by the foreign key and stays LEASED
 with nobody to report it, until it expires. Serialized, or with no such commit, it never happens.
 */
module Stranding {
  import opened Models
  import opened Dispatch
  import opened JobTable
  import opened HubMachine
  import opened TableInvariant
  import opened Interleaving

  /** The client a revocation is about to delete holds a lease the release did not see. */
  predicate Overlooks(shared: Shared, tx: TxId)
    requires tx in shared.flights
  {
    exists id | id in shared.world.db.jobs ::
      id !in shared.flights[tx].rows && shared.world.db.jobs[id].leasedBy == Some(shared.flights[tx].client)
  }

  /** The delete strands a job, which the release would have found had it run again just before. */
  predicate Strands(cfg: Settings, shared: Shared, move: Move) {
    move.Delete? && Enabled(cfg, shared, move) && Overlooks(shared, move.tx)
  }

  // ---- one move ----

  lemma DeleteStrands(cfg: Settings, shared: Shared, tx: TxId)
    requires SharedSound(cfg, shared) && NoneStranded(shared.world.db.jobs) && Enabled(cfg, shared, Delete(tx))
    ensures NoneStranded(Moved(cfg, shared, Delete(tx)).world.db.jobs) <==> !Overlooks(shared, tx)
  {
    var flight, before := shared.flights[tx], shared.world.db.jobs;
    var after := Moved(cfg, shared, Delete(tx)).world.db.jobs;
    HeldRowsExist(shared.world.db, flight);
    assert after.Keys == before.Keys;
    forall id | id in before
      ensures Stranded(after[id]) <==> id !in flight.rows && before[id].leasedBy == Some(flight.client)
    {
      DeletedRow(shared, flight, id);
    }
  }

  lemma DeletedRow(shared: Shared, flight: Flight, id: JobId)
    requires id in shared.world.db.jobs && RowOk(shared.world.db, shared.world.db.jobs[id]) && !Stranded(shared.world.db.jobs[id])
    requires flight.picked.None? && (id in flight.rows ==> Succeeds(shared.world.db, flight, id))
    ensures id in Deleted(shared, flight).db.jobs
    ensures Stranded(Deleted(shared, flight).db.jobs[id])
       <==> id !in flight.rows && shared.world.db.jobs[id].leasedBy == Some(flight.client)
  {
  }

  lemma MoveStrands(cfg: Settings, shared: Shared, move: Move)
    requires SharedSound(cfg, shared) && NoneStranded(shared.world.db.jobs)
    ensures NoneStranded(Moved(cfg, shared, move).world.db.jobs) <==> !Strands(cfg, shared, move)
  {
    if Enabled(cfg, shared, move) {
      if move.Delete? {
        DeleteStrands(cfg, shared, move.tx);
      } else if move.Commit? {
        CommitStrandsNone(shared, shared.flights[move.tx]);
      } else if move.Other? {
        forall id | id in Step(cfg, shared.world, move.event).db.jobs
          ensures !Stranded(Step(cfg, shared.world, move.event).db.jobs[id])
        {
          StepStrandsNone(cfg, shared.world, move.event, id);
        }
      }
    }
  }

  lemma CommitStrandsNone(shared: Shared, flight: Flight)
    requires NoneStranded(shared.world.db.jobs) && FlightOk(shared.world.db, flight)
    ensures NoneStranded(Committed(shared, flight).db.jobs)
  {
    forall id | id in flight.rows
      ensures !Stranded(flight.rows[id])
    {
      assert Succeeds(shared.world.db, flight, id);
    }
  }

  // ---- every interleaving ----

  function Along(cfg: Settings, world: World, moves: seq<Move>, n: nat): Shared
    requires n <= |moves|
  {
    Play(cfg, Shared(world, map[]), moves[..n])
  }

  lemma AlongNext(cfg: Settings, world: World, moves: seq<Move>, n: nat)
    requires n < |moves|
    ensures Along(cfg, world, moves, n + 1) == Moved(cfg, Along(cfg, world, moves, n), moves[n])
  {
    assert moves[..n + 1][..n] == moves[..n];
  }

  /** The table invariant holds all along an interleaving if and only if no delete in it strands a job. */
  lemma InvariantUnlessStranded(cfg: Settings, world: World, moves: seq<Move>)
    requires Invariant(cfg, world)
    ensures (forall n | 0 <= n <= |moves| :: Invariant(cfg, Along(cfg, world, moves, n).world))
       <==> (forall k | 0 <= k < |moves| :: !Strands(cfg, Along(cfg, world, moves, k), moves[k]))
  {
    if forall k | 0 <= k < |moves| :: !Strands(cfg, Along(cfg, world, moves, k), moves[k]) {
      forall n | 0 <= n <= |moves|
        ensures Invariant(cfg, Along(cfg, world, moves, n).world)
      {
        NoneStrandedYet(cfg, world, moves, n);
      }
    }
    forall k | 0 <= k < |moves| && Strands(cfg, Along(cfg, world, moves, k), moves[k])
      ensures exists n :: 0 <= n <= |moves| && !Invariant(cfg, Along(cfg, world, moves, n).world)
    {
      var shared := Along(cfg, world, moves, k);
      InterleavingKeeps(cfg, world, moves[..k]);
      if Invariant(cfg, shared.world) {
        MoveStrands(cfg, shared, moves[k]);
        AlongNext(cfg, world, moves, k);
        assert !Invariant(cfg, Along(cfg, world, moves, k + 1).world);
      }
    }
  }

  lemma {:induction false} NoneStrandedYet(cfg: Settings, world: World, moves: seq<Move>, n: nat)
    requires Invariant(cfg, world) && n <= |moves|
    requires forall k | 0 <= k < n :: !Strands(cfg, Along(cfg, world, moves, k), moves[k])
    ensures Invariant(cfg, Along(cfg, world, moves, n).world)
  {
    InterleavingKeeps(cfg, world, moves[..n]);
    if n > 0 {
      NoneStrandedYet(cfg, world, moves, n - 1);
      InterleavingKeeps(cfg, world, moves[..n - 1]);
      MoveStrands(cfg, Along(cfg, world, moves, n - 1), moves[n - 1]);
      AlongNext(cfg, world, moves, n - 1);
    }
  }

  // ---- what a delete can overlook ----

  predicate GrantsTo(shared: Shared, move: Move, client: ClientId) {
    && move.Commit? && LeasesTo(shared, move.tx, client)
    && shared.flights[move.tx].picked.Some?
  }

  /** Whether a lease of this client was committed after this transaction's release. */
  predicate LeasedSince(cfg: Settings, world: World, moves: seq<Move>, tx: TxId, client: ClientId) {
    if moves == [] then false
    else
      var before, last := moves[..|moves| - 1], moves[|moves| - 1];
      var middle := Play(cfg, Shared(world, map[]), before);
      if last.Release? && last.tx == tx && Enabled(cfg, middle, last) then false
      else GrantsTo(middle, last, client) || LeasedSince(cfg, world, before, tx, client)
  }

  /** All a delete can overlook is a lease of the client that committed after the release. */
  lemma {:induction false} OnlyLateLeasesAreOverlooked(cfg: Settings, world: World, moves: seq<Move>, tx: TxId)
    requires Sound(cfg, world)
    requires var shared := Play(cfg, Shared(world, map[]), moves);
             tx in shared.flights && shared.flights[tx].kind == Revoking && Overlooks(shared, tx)
    ensures LeasedSince(cfg, world, moves, tx, Play(cfg, Shared(world, map[]), moves).flights[tx].client)
  {
    if moves == [] {
    } else {
      var before, last := moves[..|moves| - 1], moves[|moves| - 1];
      var middle := Play(cfg, Shared(world, map[]), before);
      var shared := Moved(cfg, middle, last);
      InterleavingKeeps(cfg, world, before);
      var client := shared.flights[tx].client;
      if !(tx in middle.flights && middle.flights[tx] == shared.flights[tx]) {
        ReleaseSeesAll(cfg, middle, last, tx);
      } else if !GrantsTo(middle, last, client) {
        OverlookedBefore(cfg, middle, last, tx);
        OnlyLateLeasesAreOverlooked(cfg, world, before, tx);
      }
    }
  }

  /** A revocation that has just opened has seen every lease the client holds. */
  lemma ReleaseSeesAll(cfg: Settings, shared: Shared, move: Move, tx: TxId)
    requires SharedSound(cfg, shared)
    requires var after := Moved(cfg, shared, move);
             && tx in after.flights && after.flights[tx].kind == Revoking
             && !(tx in shared.flights && shared.flights[tx] == after.flights[tx])
    ensures !Overlooks(Moved(cfg, shared, move), tx)
  {
  }

  lemma OverlookedBefore(cfg: Settings, shared: Shared, move: Move, tx: TxId)
    requires SharedSound(cfg, shared) && tx in shared.flights && !GrantsTo(shared, move, shared.flights[tx].client)
    requires var after := Moved(cfg, shared, move);
             tx in after.flights && after.flights[tx] == shared.flights[tx] && Overlooks(after, tx)
    ensures Overlooks(shared, tx)
  {
    var after, client := Moved(cfg, shared, move), shared.flights[tx].client;
    var id :| id in after.world.db.jobs && id !in after.flights[tx].rows && after.world.db.jobs[id].leasedBy == Some(client);
    HolderIsOld(cfg, shared, move, client, id);
  }

  /** Only a commit of its own lease makes a client the holder of a job. */
  lemma HolderIsOld(cfg: Settings, shared: Shared, move: Move, client: ClientId, id: JobId)
    requires SharedSound(cfg, shared) && !GrantsTo(shared, move, client)
    requires id in Moved(cfg, shared, move).world.db.jobs && Moved(cfg, shared, move).world.db.jobs[id].leasedBy == Some(client)
    ensures id in shared.world.db.jobs && shared.world.db.jobs[id].leasedBy == Some(client)
  {
    if Enabled(cfg, shared, move) {
      if move.Commit? || move.Delete? {
        HeldRowsExist(shared.world.db, shared.flights[move.tx]);
        HeldHolder(shared, move.tx, id);
      } else if move.Other? {
        if id in shared.world.db.jobs {
          RowStep(cfg, shared.world, move.event, id);
        } else {
          RowAppears(cfg, shared.world, move.event, id);
        }
      }
    }
  }

  lemma HeldHolder(shared: Shared, tx: TxId, id: JobId)
    requires tx in shared.flights && FlightOk(shared.world.db, shared.flights[tx])
    ensures id in shared.flights[tx].rows ==>
      var flight := shared.flights[tx];
      flight.rows[id].leasedBy == (if flight.picked == Some(id) then Some(flight.client) else None)
  {
    if id in shared.flights[tx].rows {
      assert Succeeds(shared.world.db, shared.flights[tx], id);
    }
  }

  /** So if no client's lease commits between its release and its delete, the invariant holds all along. */
  lemma QuietRevocationsStrandNothing(cfg: Settings, world: World, moves: seq<Move>)
    requires Invariant(cfg, world)
    requires forall k | 0 <= k < |moves| && moves[k].Delete? && moves[k].tx in Along(cfg, world, moves, k).flights ::
      !LeasedSince(cfg, world, moves[..k], moves[k].tx, Along(cfg, world, moves, k).flights[moves[k].tx].client)
    ensures forall n | 0 <= n <= |moves| :: Invariant(cfg, Along(cfg, world, moves, n).world)
  {
    forall k | 0 <= k < |moves|
      ensures !Strands(cfg, Along(cfg, world, moves, k), moves[k])
    {
      if Strands(cfg, Along(cfg, world, moves, k), moves[k]) {
        OnlyLateLeasesAreOverlooked(cfg, world, moves[..k], moves[k].tx);
      }
    }
    InvariantUnlessStranded(cfg, world, moves);
  }

  // ---- the failing interleaving ----

  /** The revocation's release, the open lease's commit, the revocation's delete. */
  function Race(tx: TxId, caller: Credential, target: ClientId, lease: TxId): seq<Move> {
    [Release(tx, caller, target), Commit(lease), Delete(tx)]
  }

  lemma PlayRace(cfg: Settings, shared: Shared, tx: TxId, caller: Credential, target: ClientId, lease: TxId)
    ensures Play(cfg, shared, Race(tx, caller, target, lease))
         == Moved(cfg, Moved(cfg, Moved(cfg, shared, Release(tx, caller, target)), Commit(lease)), Delete(tx))
  {
    var moves := Race(tx, caller, target, lease);
    assert moves[..2] == [Release(tx, caller, target), Commit(lease)];
    PlayPair(cfg, shared, Release(tx, caller, target), Commit(lease));
  }

  /** The delete waits for the lease to commit, and then goes through. */
  lemma DeleteFollowsCommit(cfg: Settings, shared: Shared, tx: TxId, caller: Credential, target: ClientId, lease: TxId)
    requires SharedSound(cfg, shared) && Enabled(cfg, shared, Release(tx, caller, target)) && LeasesTo(shared, lease, target)
    ensures var released := Moved(cfg, shared, Release(tx, caller, target));
            && Enabled(cfg, released, Commit(lease)) && !Enabled(cfg, released, Delete(tx))
            && Enabled(cfg, Moved(cfg, released, Commit(lease)), Delete(tx))
  {
    var released := Moved(cfg, shared, Release(tx, caller, target));
    DeleteMayFollow(cfg, shared, tx, caller, target);
    MoveKeeps(cfg, shared, Release(tx, caller, target));
    LeaseWasTheLock(cfg, released, target, lease);
    OthersHoldNothingOfIt(cfg, shared, tx, caller, target, lease);
  }

  lemma LeaseWasTheLock(cfg: Settings, shared: Shared, target: ClientId, lease: TxId)
    requires SharedSound(cfg, shared) && LeasesTo(shared, lease, target)
    ensures !ClientLocked(Moved(cfg, shared, Commit(lease)), target)
  {
    var landed := Moved(cfg, shared, Commit(lease));
    forall u | u in landed.flights
      ensures !LeasesTo(landed, u, target)
    {
      assert LeasesTo(landed, u, target) ==> LeasesTo(shared, u, target);
    }
  }

  /** The release already holds every row that named the client, and the lease's pick is free again. */
  lemma OthersHoldNothingOfIt(cfg: Settings, shared: Shared, tx: TxId, caller: Credential, target: ClientId, lease: TxId)
    requires SharedSound(cfg, shared) && Enabled(cfg, shared, Release(tx, caller, target)) && LeasesTo(shared, lease, target)
    ensures var landed := Moved(cfg, Moved(cfg, shared, Release(tx, caller, target)), Commit(lease));
            forall id, other | id in landed.world.db.jobs && other in landed.flights && other != tx && Holds(landed, other, id) ::
              !Mentions(landed.world.db.jobs[id], target)
  {
    var landed := Moved(cfg, Moved(cfg, shared, Release(tx, caller, target)), Commit(lease));
    HeldRowsNameOthers(cfg, shared, target);
    HeldRowsExist(shared.world.db, shared.flights[lease]);
    forall id, other | id in landed.world.db.jobs && other in landed.flights && other != tx && Holds(landed, other, id)
      ensures !Mentions(landed.world.db.jobs[id], target)
    {
      assert Holds(shared, other, id) && !Holds(shared, lease, id);
      assert landed.world.db.jobs[id] == shared.world.db.jobs[id];
    }
  }

  /**
   With the client's lease request open when the release runs, the invariant survives the revocation if
   and only if that request has picked no job; the job it picked is stranded.
   */
  lemma RaceStrands(cfg: Settings, shared: Shared, tx: TxId, caller: Credential, target: ClientId, lease: TxId)
    requires SharedSound(cfg, shared) && Invariant(cfg, shared.world)
    requires Enabled(cfg, shared, Release(tx, caller, target)) && LeasesTo(shared, lease, target)
    ensures var after := Play(cfg, shared, Race(tx, caller, target, lease));
            var picked := shared.flights[lease].picked;
            && target !in after.world.db.clients
            && (Invariant(cfg, after.world) <==> picked.None?)
            && (picked.Some? ==> picked.value in after.world.db.jobs && Stranded(after.world.db.jobs[picked.value]))
  {
    var released := Moved(cfg, shared, Release(tx, caller, target));
    var landed := Moved(cfg, released, Commit(lease));
    PlayRace(cfg, shared, tx, caller, target, lease);
    DeleteFollowsCommit(cfg, shared, tx, caller, target, lease);
    MoveKeeps(cfg, shared, Release(tx, caller, target));
    MoveKeeps(cfg, released, Commit(lease));
    MoveKeeps(cfg, landed, Delete(tx));
    MoveStrands(cfg, released, Commit(lease));
    LandedHoldings(cfg, shared, tx, caller, target, lease);
    DeleteStrands(cfg, landed, tx);
    if shared.flights[lease].picked.Some? {
      var id := shared.flights[lease].picked.value;
      DeletedRow(landed, landed.flights[tx], id);
    }
  }

  /** What the client holds outside the release once its lease has landed: exactly the pick. */
  lemma LandedHoldings(cfg: Settings, shared: Shared, tx: TxId, caller: Credential, target: ClientId, lease: TxId)
    requires SharedSound(cfg, shared) && Invariant(cfg, shared.world)
    requires Enabled(cfg, shared, Release(tx, caller, target)) && LeasesTo(shared, lease, target)
    ensures var landed := Moved(cfg, Moved(cfg, shared, Release(tx, caller, target)), Commit(lease));
            var picked := shared.flights[lease].picked;
            && tx in landed.flights && landed.flights[tx] == Released(shared, target)
            && (Overlooks(landed, tx) <==> picked.Some?)
            && (picked.Some? ==>
                  && picked.value in landed.world.db.jobs && picked.value !in landed.flights[tx].rows
                  && landed.world.db.jobs[picked.value].leasedBy == Some(target))
  {
    var flight := shared.flights[lease];
    var landed := Moved(cfg, Moved(cfg, shared, Release(tx, caller, target)), Commit(lease));
    HeldRowsExist(shared.world.db, flight);
    forall id | id in landed.world.db.jobs
      ensures id !in landed.flights[tx].rows && landed.world.db.jobs[id].leasedBy == Some(target) <==> flight.picked == Some(id)
    {
      HeldHolder(shared, lease, id);
      assert id in flight.rows ==> JobLocked(shared, id);
    }
  }

  /** A stranded job takes no report and no hand-over until its lease has run out; the next sweep then frees it. */
  lemma StrandedUntilExpiry(cfg: Settings, world: World, event: Event, id: JobId)
    requires Sound(cfg, world) && id in world.db.jobs && Stranded(world.db.jobs[id])
    ensures id in Step(cfg, world, event).db.jobs
    ensures var row, after := world.db.jobs[id], Step(cfg, world, event).db.jobs[id];
            && (Stranded(after) || Releases(LapsedBefore(world.now), row))
            && (Sweeps(Answer(cfg, world, event).response) && row.leaseExpiresAt.value < world.now ==> !Stranded(after))
  {
    RowStep(cfg, world, event, id);
    AnswerFitsRow(cfg, world, event, id);
    StrandedRow(cfg, world, event, Answer(cfg, world, event).response, id);
  }

  lemma StrandedRow(cfg: Settings, world: World, event: Event, response: Response, id: JobId)
    requires id in world.db.jobs && RowOk(world.db, world.db.jobs[id]) && Stranded(world.db.jobs[id])
    requires AnswerFits(world, event, response, id, world.db.jobs[id])
    requires response == Answer(cfg, world, event).response
    ensures var row, after := world.db.jobs[id], RowAfter(cfg, world.now, event, response, id, world.db.jobs[id]);
            && (Stranded(after) || Releases(LapsedBefore(world.now), row))
            && (Sweeps(response) && row.leaseExpiresAt.value < world.now ==> !Stranded(after))
  {
  }

  // ---- the failing input, from the empty hub ----

  function Arrivals(): seq<Event> {
    [Enrol("m", Standard, true, Rejected), CheckIn(0, None, None), Enqueue(JobSpec("o/r", 1, "sha", None, "opened"))]
  }

  /** A dev-mode hub with one client checked in and one job waiting. */
  function Waiting(now: Instant): World {
    World(
      Db(map[0 := NewJob(JobSpec("o/r", 1, "sha", None, "opened"), map[])], 1,
         map[0 := Client("m", Standard, None, CheckedIn, [])], 1, map[], 0, {}, map[]),
      now, {})
  }

  lemma ArrivalsWait(cfg: Settings, now: Instant)
    requires cfg.mode == DevMode
    ensures Run(cfg, InitialWorld(now), Arrivals()) == Waiting(now)
    ensures Invariant(cfg, Waiting(now))
  {
    var events := Arrivals();
    var start := InitialWorld(now);
    var enrolled := Step(cfg, start, events[0]);
    var present := Step(cfg, enrolled, events[1]);
    var waiting := Step(cfg, present, events[2]);
    assert events[..1][..0] == [] && events[..2][..1] == events[..1];
    assert Run(cfg, start, events[..1]) == enrolled;
    assert Run(cfg, start, events[..2]) == present;
    assert Run(cfg, start, events) == waiting;
    assert waiting.db.jobs == Waiting(now).db.jobs;
    assert waiting.db.clients == Waiting(now).db.clients;
    InitialInvariant(cfg, now);
    RunKeepsInvariant(cfg, InitialWorld(now), events);
  }

  lemma WaitingIsLeased(cfg: Settings, now: Instant)
    requires cfg.mode == DevMode
    ensures var start := Shared(Waiting(now), map[]);
            && Enabled(cfg, start, Begin(0, 0))
            && Moved(cfg, start, Begin(0, 0)).flights.Keys == {0}
            && LeasesTo(Moved(cfg, start, Begin(0, 0)), 0, 0)
            && Moved(cfg, start, Begin(0, 0)).flights[0].picked == Some(0)
  {
    var start := Shared(Waiting(now), map[]);
    TierFloor(Experimental, Standard);
    var swept := Reclaimed(start.world.db, now);
    assert Eligible(cfg, swept, start.world.db.clients[0], swept.jobs[0]);
    assert Candidates(cfg, start, 0) == {0};
  }

  /** Reached from the empty hub: a job LEASED to nobody, which no serialized run ever shows. */
  lemma RevocationCanStrand(cfg: Settings, now: Instant)
    requires cfg.mode == DevMode
    ensures var shared := Play(cfg, Moved(cfg, Shared(Run(cfg, InitialWorld(now), Arrivals()), map[]), Begin(0, 0)), Race(1, DevSecret, 0, 0));
            0 in shared.world.db.jobs && Stranded(shared.world.db.jobs[0]) && !Invariant(cfg, shared.world)
  {
    ArrivalsWait(cfg, now);
    WaitingIsLeased(cfg, now);
    var start := Shared(Waiting(now), map[]);
    var begun := Moved(cfg, start, Begin(0, 0));
    assert Play(cfg, start, []) == start;
    InterleavingKeeps(cfg, Waiting(now), []);
    MoveKeeps(cfg, start, Begin(0, 0));
    assert Enabled(cfg, begun, Release(1, DevSecret, 0));
    RaceStrands(cfg, begun, 1, DevSecret, 0, 0);
  }
}
