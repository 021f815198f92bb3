/**
 Lease and revoke transactions that overlap. Selecting and locking is split from committing, and a
 revocation's release from its delete; a lease skips rows other transactions hold, and a statement that
 must change a held row waits. Under every interleaving no job is in two transactions and a committed
 lease spends exactly one attempt of exactly one job. A lease can lose its holder in exactly one way.
 */
module Interleaving {
  import opened Models
  import opened Dispatch
  import opened JobTable
  import opened HubMachine
  import opened TableInvariant

  type TxId = nat

  datatype Kind = Leasing | Revoking

  /** An open transaction: whom it leases to or revokes, the row versions it has written and so locked, and a lease's pick. */
  datatype Flight = Flight(kind: Kind, client: ClientId, rows: map<JobId, Job>, picked: Option<JobId>)

  /** The committed world and the transactions in flight over it. */
  datatype Shared = Shared(world: World, flights: map<TxId, Flight>)

  datatype Move =
    | Begin(tx: TxId, client: ClientId)
    | BeginNamed(tx: TxId, client: ClientId, job: JobId)
    | Commit(tx: TxId)
    | Release(tx: TxId, caller: Credential, target: ClientId)
    | Delete(tx: TxId)
    | Abort(tx: TxId)
    | Other(event: Event)

  // ---- locks ----

  predicate Holds(shared: Shared, tx: TxId, id: JobId) {
    tx in shared.flights && id in shared.flights[tx].rows
  }

  predicate JobLocked(shared: Shared, id: JobId) {
    exists tx | tx in shared.flights :: id in shared.flights[tx].rows
  }

  predicate LeasesTo(shared: Shared, tx: TxId, client: ClientId) {
    tx in shared.flights && shared.flights[tx].kind == Leasing && shared.flights[tx].client == client
  }

  /** A lease request touches its client row first, so the row is locked until it ends. A release does not. */
  predicate ClientLocked(shared: Shared, client: ClientId) {
    exists tx | tx in shared.flights :: LeasesTo(shared, tx, client)
  }

  /** A bulk transition has to change a row another transaction holds. */
  predicate TransitionWaits(shared: Shared, filter: LeaseFilter) {
    exists id | id in shared.world.db.jobs :: Releases(filter, shared.world.db.jobs[id]) && JobLocked(shared, id)
  }

  predicate Mentions(job: Job, client: ClientId) {
    job.leasedBy == Some(client) || job.reportedBy == Some(client)
  }

  /** The delete needs the client row, and SET NULL needs every job row that names it. */
  predicate DeleteWaits(shared: Shared, tx: TxId, target: ClientId) {
    || ClientLocked(shared, target)
    || exists id, other | id in shared.world.db.jobs && other in shared.flights ::
         other != tx && Holds(shared, other, id) && Mentions(shared.world.db.jobs[id], target)
  }

  /** Any other request has to change a job or client row another transaction holds. */
  predicate OtherWaits(cfg: Settings, shared: Shared, event: Event) {
    var before, after := shared.world.db, Step(cfg, shared.world, event).db;
    || (exists id | id in before.jobs :: JobLocked(shared, id) && !(id in after.jobs && after.jobs[id] == before.jobs[id]))
    || (exists c | c in before.clients :: ClientLocked(shared, c) && !(c in after.clients && after.clients[c] == before.clients[c]))
  }

  // ---- what a transaction does before it commits ----

  function TransitionWrites(jobs: map<JobId, Job>, filter: LeaseFilter): map<JobId, Job> {
    map id | id in jobs && Releases(filter, jobs[id]) :: ReleasedRow(jobs[id])
  }

  /** FOR UPDATE SKIP LOCKED over its own view of the table. */
  function Candidates(cfg: Settings, shared: Shared, client: ClientId): set<JobId>
    requires client in shared.world.db.clients
  {
    set id | id in EligibleIds(cfg, Reclaimed(shared.world.db, shared.world.now), shared.world.db.clients[client])
      && !JobLocked(shared, id)
  }

  function Opened(cfg: Settings, shared: Shared, client: ClientId, pick: Option<JobId>): (flight: Flight)
    requires pick.Some? ==> pick.value in shared.world.db.jobs
  {
    var now := shared.world.now;
    var writes := TransitionWrites(shared.world.db.jobs, LapsedBefore(now));
    Flight(
      Leasing,
      client,
      if pick.None? then writes
      else writes[pick.value := HandedOver(cfg, now, TransitionRow(LapsedBefore(now), shared.world.db.jobs[pick.value]), client)],
      pick
    )
  }

  function Released(shared: Shared, target: ClientId): Flight {
    Flight(Revoking, target, TransitionWrites(shared.world.db.jobs, HeldBy(target)), None)
  }

  /**
   What a lease transaction has to find once it holds its client row. The checks a request makes before that
   (the client's status; for a named job its visibility, floor, models and strategies) were answered by what
   was committed at some earlier moment, so they are no condition on the world it locks in.
   */
  predicate MayOpen(cfg: Settings, shared: Shared, tx: TxId, client: ClientId) {
    && tx !in shared.flights
    && client in shared.world.db.clients && !ClientLocked(shared, client)
    && !AccessIsStale(cfg, shared.world.db, shared.world.now, shared.world.db.clients[client].identityId)
    && !TransitionWaits(shared, LapsedBefore(shared.world.now))
  }

  /** Whether the credential may revoke the client, as authorization reads the committed tables. */
  predicate MayRevoke(cfg: Settings, db: Db, caller: Credential, target: ClientId) {
    RevokeOutcome(cfg, db, caller, target).response == Accepted
  }

  /** An accepted revocation goes by its two moves, a lease by its own. */
  predicate Elsewhere(cfg: Settings, world: World, event: Event) {
    event.LeaseNext? || event.LeaseNamed? || (event.Revoke? && MayRevoke(cfg, world.db, event.caller, event.target))
  }

  predicate Enabled(cfg: Settings, shared: Shared, move: Move) {
    match move
    case Begin(tx, client) => MayOpen(cfg, shared, tx, client)
    case BeginNamed(tx, client, _) => MayOpen(cfg, shared, tx, client)
    case Commit(tx) => tx in shared.flights && shared.flights[tx].kind == Leasing
    case Release(tx, caller, target) =>
      && tx !in shared.flights
      && MayRevoke(cfg, shared.world.db, caller, target)
      && !TransitionWaits(shared, HeldBy(target))
    case Delete(tx) =>
      && tx in shared.flights && shared.flights[tx].kind == Revoking
      && shared.flights[tx].client in shared.world.db.clients
      && !DeleteWaits(shared, tx, shared.flights[tx].client)
    case Abort(tx) => tx in shared.flights
    case Other(event) => !Elsewhere(cfg, shared.world, event) && !OtherWaits(cfg, shared, event)
  }

  function Committed(shared: Shared, flight: Flight): World {
    shared.world.(db := shared.world.db.(jobs := shared.world.db.jobs + flight.rows))
  }

  /** The delete and the commit: the released rows land, and every row naming the client is nulled as it is by then. */
  function Deleted(shared: Shared, flight: Flight): World {
    var db := shared.world.db;
    shared.world.(db := db.(jobs := Forgotten(db.jobs + flight.rows, flight.client), clients := db.clients - {flight.client}))
  }

  function Moved(cfg: Settings, shared: Shared, move: Move): Shared {
    if !Enabled(cfg, shared, move) then shared
    else
      match move
      case Begin(tx, client) =>
        shared.(flights := shared.flights[tx := Opened(cfg, shared, client, Oldest(Candidates(cfg, shared, client)))])
      case BeginNamed(tx, client, job) =>
        shared.(flights := shared.flights[tx := Opened(cfg, shared, client, NamedPick(cfg, shared, client, job))])
      case Commit(tx) => Shared(Committed(shared, shared.flights[tx]), shared.flights - {tx})
      case Release(tx, _, target) => shared.(flights := shared.flights[tx := Released(shared, target)])
      case Delete(tx) => Shared(Deleted(shared, shared.flights[tx]), shared.flights - {tx})
      case Abort(tx) => shared.(flights := shared.flights - {tx})
      case Other(event) => shared.(world := Step(cfg, shared.world, event))
  }

  function NamedPick(cfg: Settings, shared: Shared, client: ClientId, job: JobId): Option<JobId>
    requires client in shared.world.db.clients
  {
    if job in Candidates(cfg, shared, client) then Some(job) else None
  }

  function Play(cfg: Settings, shared: Shared, moves: seq<Move>): Shared {
    if moves == [] then shared
    else Moved(cfg, Play(cfg, shared, moves[..|moves| - 1]), moves[|moves| - 1])
  }

  /** A move that commits a lease of this job. */
  predicate CommitsLease(shared: Shared, move: Move, id: JobId) {
    && move.Commit? && move.tx in shared.flights && shared.flights[move.tx].kind == Leasing
    && shared.flights[move.tx].picked == Some(id)
  }

  /** The leases of one job that were committed in an interleaving. */
  function CommittedLeases(cfg: Settings, shared: Shared, moves: seq<Move>, id: JobId): nat {
    if moves == [] then 0
    else
      var before, last := moves[..|moves| - 1], moves[|moves| - 1];
      CommittedLeases(cfg, shared, before, id) + (if CommitsLease(Play(cfg, shared, before), last, id) then 1 else 0)
  }

  // ---- what every interleaving keeps ----

  ghost predicate Exclusive(shared: Shared) {
    forall t, u, id | Holds(shared, t, id) && Holds(shared, u, id) :: t == u
  }

  ghost predicate OneLeasePerClient(shared: Shared) {
    forall t, u, client | LeasesTo(shared, t, client) && LeasesTo(shared, u, client) :: t == u
  }

  /** A held row version is a legal successor of the committed row it replaces. */
  ghost predicate Succeeds(db: Db, flight: Flight, id: JobId)
    requires id in flight.rows
  {
    && id in db.jobs
    && RowOk(db, flight.rows[id])
    && db.jobs[id].Active()
    && flight.rows[id].reportedBy.None?
    && flight.rows[id].spec == db.jobs[id].spec
    && flight.rows[id].maxAttempts == db.jobs[id].maxAttempts
    && flight.rows[id].attempts == db.jobs[id].attempts + (if flight.picked == Some(id) then 1 else 0)
    && (flight.rows[id].state == Leased <==> flight.picked == Some(id))
    && flight.rows[id].leasedBy == (if flight.picked == Some(id) then Some(flight.client) else None)
  }

  ghost predicate FlightOk(db: Db, flight: Flight) {
    && (flight.kind == Leasing ==> flight.client in db.clients)
    && (forall id | id in flight.rows :: Succeeds(db, flight, id))
    && (flight.picked.Some? ==> flight.kind == Leasing && flight.picked.value in flight.rows)
  }

  ghost predicate SharedSound(cfg: Settings, shared: Shared) {
    && Sound(cfg, shared.world)
    && Exclusive(shared)
    && OneLeasePerClient(shared)
    && forall tx | tx in shared.flights :: FlightOk(shared.world.db, shared.flights[tx])
  }

  lemma ReleasedRowSucceeds(db: Db, filter: LeaseFilter, flight: Flight, id: JobId)
    requires id in db.jobs && RowOk(db, db.jobs[id]) && Releases(filter, db.jobs[id])
    requires id in flight.rows && flight.rows[id] == ReleasedRow(db.jobs[id]) && flight.picked != Some(id)
    ensures Succeeds(db, flight, id)
  {
  }

  lemma PickedRowSucceeds(cfg: Settings, db: Db, now: Instant, flight: Flight, id: JobId)
    requires id in db.jobs && RowOk(db, db.jobs[id]) && flight.client in db.clients
    requires TransitionRow(LapsedBefore(now), db.jobs[id]).state == Queued
    requires id in flight.rows && flight.picked == Some(id)
    requires flight.rows[id] == HandedOver(cfg, now, TransitionRow(LapsedBefore(now), db.jobs[id]), flight.client)
    ensures Succeeds(db, flight, id)
  {
  }

  lemma OpenedIsOk(cfg: Settings, shared: Shared, client: ClientId, pick: Option<JobId>)
    requires RowsOk(shared.world.db) && client in shared.world.db.clients
    requires pick.Some? ==> pick.value in Candidates(cfg, shared, client)
    ensures FlightOk(shared.world.db, Opened(cfg, shared, client, pick))
  {
    var db, now, flight := shared.world.db, shared.world.now, Opened(cfg, shared, client, pick);
    forall id | id in flight.rows
      ensures Succeeds(db, flight, id)
    {
      if pick == Some(id) {
        PickedRowSucceeds(cfg, db, now, flight, id);
      } else {
        ReleasedRowSucceeds(db, LapsedBefore(now), flight, id);
      }
    }
  }

  lemma ReleasedIsOk(shared: Shared, target: ClientId)
    requires RowsOk(shared.world.db)
    ensures FlightOk(shared.world.db, Released(shared, target))
  {
    var flight := Released(shared, target);
    forall id | id in flight.rows
      ensures Succeeds(shared.world.db, flight, id)
    {
      ReleasedRowSucceeds(shared.world.db, HeldBy(target), flight, id);
    }
  }

  /** A new transaction over rows nobody holds. */
  lemma OpeningKeeps(cfg: Settings, shared: Shared, tx: TxId, flight: Flight)
    requires SharedSound(cfg, shared) && tx !in shared.flights && FlightOk(shared.world.db, flight)
    requires forall id | id in flight.rows :: !JobLocked(shared, id)
    requires flight.kind == Leasing ==> !ClientLocked(shared, flight.client)
    ensures SharedSound(cfg, shared.(flights := shared.flights[tx := flight]))
  {
    var after := shared.(flights := shared.flights[tx := flight]);
    forall t, u, id | Holds(after, t, id) && Holds(after, u, id)
      ensures t == u
    {
      if t != tx && u != tx {
        assert Holds(shared, t, id) && Holds(shared, u, id);
      }
    }
    forall t, u, client | LeasesTo(after, t, client) && LeasesTo(after, u, client)
      ensures t == u
    {
      assert t != tx ==> LeasesTo(shared, t, client);
      assert u != tx ==> LeasesTo(shared, u, client);
    }
  }

  lemma CommitKeepsTables(cfg: Settings, shared: Shared, flight: Flight)
    requires Sound(cfg, shared.world) && FlightOk(shared.world.db, flight)
    ensures Sound(cfg, Committed(shared, flight))
    ensures forall id | id in shared.world.db.jobs ::
              id in Committed(shared, flight).db.jobs && Committed(shared, flight).db.jobs[id].spec == shared.world.db.jobs[id].spec
  {
    var before, after := shared.world.db, Committed(shared, flight).db;
    assert after.jobs.Keys == before.jobs.Keys;
    CommitKeepsHeads(before, flight);
    assert RowsOk(after);
    assert ClientsOk(after) && AccessOk(after) && PoliciesOk(cfg, after);
  }

  lemma CommitKeepsHeads(before: Db, flight: Flight)
    requires OneActivePerHead(before.jobs) && FlightOk(before, flight)
    ensures OneActivePerHead(before.jobs + flight.rows)
  {
  }

  /** Landing one transaction leaves the others' rows legal successors of what is then committed. */
  lemma OthersStay(shared: Shared, tx: TxId, u: TxId, db: Db)
    requires Exclusive(shared) && tx in shared.flights && u in shared.flights && u != tx
    requires FlightOk(shared.world.db, shared.flights[u])
    requires forall id | id in shared.world.db.jobs && id !in shared.flights[tx].rows && JobLocked(shared, id) ::
      id in db.jobs && db.jobs[id] == shared.world.db.jobs[id]
    requires shared.flights[u].kind == Leasing ==> shared.flights[u].client in db.clients
    ensures FlightOk(db, shared.flights[u])
  {
    forall id | id in shared.flights[u].rows
      ensures Succeeds(db, shared.flights[u], id)
    {
      assert Succeeds(shared.world.db, shared.flights[u], id);
      assert Holds(shared, u, id) && !Holds(shared, tx, id);
    }
  }

  lemma DroppingKeepsLocks(shared: Shared, after: Shared)
    requires Exclusive(shared) && OneLeasePerClient(shared)
    requires forall tx | tx in after.flights :: tx in shared.flights && after.flights[tx] == shared.flights[tx]
    ensures Exclusive(after) && OneLeasePerClient(after)
  {
    forall t, u, id | Holds(after, t, id) && Holds(after, u, id)
      ensures t == u
    {
      assert Holds(shared, t, id) && Holds(shared, u, id);
    }
    forall t, u, client | LeasesTo(after, t, client) && LeasesTo(after, u, client)
      ensures t == u
    {
      assert LeasesTo(shared, t, client) && LeasesTo(shared, u, client);
    }
  }

  lemma CommitKeeps(cfg: Settings, shared: Shared, tx: TxId)
    requires SharedSound(cfg, shared) && Enabled(cfg, shared, Commit(tx))
    ensures SharedSound(cfg, Moved(cfg, shared, Commit(tx)))
  {
    var after := Moved(cfg, shared, Commit(tx));
    CommitKeepsTables(cfg, shared, shared.flights[tx]);
    forall u | u in after.flights
      ensures FlightOk(after.world.db, after.flights[u])
    {
      OthersStay(shared, tx, u, after.world.db);
    }
    DroppingKeepsLocks(shared, after);
  }

  lemma ForgettingKeepsTables(cfg: Settings, world: World, target: ClientId)
    requires Sound(cfg, world)
    ensures Sound(cfg, world.(db := world.db.(jobs := Forgotten(world.db.jobs, target), clients := world.db.clients - {target})))
  {
  }

  lemma DeleteKeeps(cfg: Settings, shared: Shared, tx: TxId)
    requires SharedSound(cfg, shared) && Enabled(cfg, shared, Delete(tx))
    ensures SharedSound(cfg, Moved(cfg, shared, Delete(tx)))
  {
    var after, flight := Moved(cfg, shared, Delete(tx)), shared.flights[tx];
    CommitKeepsTables(cfg, shared, flight);
    ForgettingKeepsTables(cfg, Committed(shared, flight), flight.client);
    forall u | u in after.flights
      ensures FlightOk(after.world.db, after.flights[u])
    {
      DeleteTouchesNoHeldRow(cfg, shared, tx);
      assert shared.flights[u].kind == Leasing ==> LeasesTo(shared, u, shared.flights[u].client);
      OthersStay(shared, tx, u, after.world.db);
    }
    DroppingKeepsLocks(shared, after);
  }

  lemma DeleteTouchesNoHeldRow(cfg: Settings, shared: Shared, tx: TxId)
    requires Enabled(cfg, shared, Delete(tx))
    ensures forall id | id in shared.world.db.jobs && id !in shared.flights[tx].rows && JobLocked(shared, id) ::
              var after := Deleted(shared, shared.flights[tx]).db;
              id in after.jobs && after.jobs[id] == shared.world.db.jobs[id]
  {
    forall id | id in shared.world.db.jobs && id !in shared.flights[tx].rows && JobLocked(shared, id)
      ensures !Mentions(shared.world.db.jobs[id], shared.flights[tx].client)
    {
      var other :| other in shared.flights && id in shared.flights[other].rows;
      assert Holds(shared, other, id);
    }
  }

  lemma OtherKeeps(cfg: Settings, shared: Shared, event: Event)
    requires SharedSound(cfg, shared) && Enabled(cfg, shared, Other(event))
    ensures SharedSound(cfg, Moved(cfg, shared, Other(event)))
  {
    var after := Moved(cfg, shared, Other(event));
    StepKeepsSound(cfg, shared.world, event);
    DroppingKeepsLocks(shared, after);
    forall tx | tx in after.flights
      ensures FlightOk(after.world.db, after.flights[tx])
    {
      HeldRowsStay(cfg, shared, event, tx);
    }
  }

  /** What a transaction holds, nobody else changes. */
  lemma HeldRowsStay(cfg: Settings, shared: Shared, event: Event, tx: TxId)
    requires SharedSound(cfg, shared) && tx in shared.flights && !OtherWaits(cfg, shared, event)
    ensures FlightOk(Step(cfg, shared.world, event).db, shared.flights[tx])
  {
    var flight, before, after := shared.flights[tx], shared.world.db, Step(cfg, shared.world, event).db;
    assert flight.kind == Leasing ==> LeasesTo(shared, tx, flight.client) && ClientLocked(shared, flight.client);
    forall id | id in flight.rows
      ensures Succeeds(after, flight, id)
    {
      assert Succeeds(before, flight, id);
      assert JobLocked(shared, id);
    }
  }

  lemma MoveKeeps(cfg: Settings, shared: Shared, move: Move)
    requires SharedSound(cfg, shared)
    ensures SharedSound(cfg, Moved(cfg, shared, move))
  {
    if Enabled(cfg, shared, move) {
      match move
      case Begin(tx, client) => LeaseOpens(cfg, shared, tx, client, Oldest(Candidates(cfg, shared, client)));
      case BeginNamed(tx, client, job) => LeaseOpens(cfg, shared, tx, client, NamedPick(cfg, shared, client, job));
      case Commit(tx) => CommitKeeps(cfg, shared, tx);
      case Release(tx, _, target) =>
        ReleasedIsOk(shared, target);
        OpeningKeeps(cfg, shared, tx, Released(shared, target));
      case Delete(tx) => DeleteKeeps(cfg, shared, tx);
      case Abort(tx) => DroppingKeepsLocks(shared, Moved(cfg, shared, move));
      case Other(event) => OtherKeeps(cfg, shared, event);
    }
  }

  lemma LeaseOpens(cfg: Settings, shared: Shared, tx: TxId, client: ClientId, pick: Option<JobId>)
    requires SharedSound(cfg, shared) && MayOpen(cfg, shared, tx, client)
    requires pick.Some? ==> pick.value in Candidates(cfg, shared, client)
    ensures SharedSound(cfg, shared.(flights := shared.flights[tx := Opened(cfg, shared, client, pick)]))
  {
    OpenedIsOk(cfg, shared, client, pick);
    OpeningKeeps(cfg, shared, tx, Opened(cfg, shared, client, pick));
  }

  lemma {:induction false} InterleavingKeeps(cfg: Settings, world: World, moves: seq<Move>)
    requires Sound(cfg, world)
    ensures SharedSound(cfg, Play(cfg, Shared(world, map[]), moves))
  {
    if moves == [] {
    } else {
      InterleavingKeeps(cfg, world, moves[..|moves| - 1]);
      MoveKeeps(cfg, Play(cfg, Shared(world, map[]), moves[..|moves| - 1]), moves[|moves| - 1]);
    }
  }

  /** Two transactions never hold the same job, so one job is never handed to two clients. */
  lemma {:induction false} NoJobInTwoFlights(cfg: Settings, world: World, moves: seq<Move>, first: TxId, second: TxId)
    requires Sound(cfg, world)
    requires var flights := Play(cfg, Shared(world, map[]), moves).flights;
             first in flights && second in flights && first != second
    ensures var flights := Play(cfg, Shared(world, map[]), moves).flights;
            flights[first].rows.Keys !! flights[second].rows.Keys
  {
    InterleavingKeeps(cfg, world, moves);
    var shared := Play(cfg, Shared(world, map[]), moves);
    forall id | id in shared.flights[first].rows
      ensures id !in shared.flights[second].rows
    {
      assert Holds(shared, first, id);
      assert Holds(shared, second, id) <==> id in shared.flights[second].rows;
    }
  }

  // ---- attempts ----

  /** One move raises the attempts of exactly the job whose lease it commits, by one. */
  lemma MoveSpends(cfg: Settings, shared: Shared, move: Move, id: JobId)
    requires SharedSound(cfg, shared) && id in shared.world.db.jobs
    ensures id in Moved(cfg, shared, move).world.db.jobs
    ensures Moved(cfg, shared, move).world.db.jobs[id].attempts
         == shared.world.db.jobs[id].attempts + (if CommitsLease(shared, move, id) then 1 else 0)
  {
    if Enabled(cfg, shared, move) {
      if move.Other? {
        RowStep(cfg, shared.world, move.event, id);
      } else if move.Commit? || move.Delete? {
        assert FlightOk(shared.world.db, shared.flights[move.tx]);
        assert id in shared.flights[move.tx].rows ==> Succeeds(shared.world.db, shared.flights[move.tx], id);
      }
    }
  }

  /** A job that appears in a move was enqueued by it, with no attempt spent; nobody can lease it before. */
  lemma MoveAdds(cfg: Settings, shared: Shared, move: Move, id: JobId)
    requires SharedSound(cfg, shared) && id !in shared.world.db.jobs
    ensures !CommitsLease(shared, move, id)
    ensures id in Moved(cfg, shared, move).world.db.jobs ==> Moved(cfg, shared, move).world.db.jobs[id].attempts == 0
  {
    if Enabled(cfg, shared, move) {
      if move.Other? && id in Step(cfg, shared.world, move.event).db.jobs {
        RowAppears(cfg, shared.world, move.event, id);
      } else if move.Commit? || move.Delete? {
        HeldRowsExist(shared.world.db, shared.flights[move.tx]);
      }
    }
  }

  lemma HeldRowsExist(db: Db, flight: Flight)
    requires FlightOk(db, flight)
    ensures flight.rows.Keys <= db.jobs.Keys
  {
    forall id | id in flight.rows
      ensures id in db.jobs
    {
      assert Succeeds(db, flight, id);
    }
  }

  function AttemptsOf(jobs: map<JobId, Job>, id: JobId): int {
    if id in jobs then jobs[id].attempts else 0
  }

  /**
   From any sound world, every interleaving keeps the tables sound and the transactions disjoint, and ends
   with every job's attempts, old or enqueued on the way, up by exactly the number of its committed leases.
   */
  lemma {:induction false} EveryInterleaving(cfg: Settings, world: World, moves: seq<Move>, id: JobId)
    requires Sound(cfg, world)
    ensures var shared := Play(cfg, Shared(world, map[]), moves);
            && SharedSound(cfg, shared)
            && (id in world.db.jobs ==> id in shared.world.db.jobs)
            && AttemptsOf(shared.world.db.jobs, id)
               == AttemptsOf(world.db.jobs, id) + CommittedLeases(cfg, Shared(world, map[]), moves, id)
  {
    if moves == [] {
    } else {
      var before, last := moves[..|moves| - 1], moves[|moves| - 1];
      var middle := Play(cfg, Shared(world, map[]), before);
      EveryInterleaving(cfg, world, before, id);
      MoveKeeps(cfg, middle, last);
      if id in middle.world.db.jobs {
        MoveSpends(cfg, middle, last, id);
      } else {
        MoveAdds(cfg, middle, last, id);
      }
    }
  }

  // ---- alone ----

  lemma PlayPair(cfg: Settings, shared: Shared, first: Move, second: Move)
    ensures Play(cfg, shared, [first, second]) == Moved(cfg, Moved(cfg, shared, first), second)
  {
    var moves := [first, second];
    assert moves[..1] == [first];
    assert moves[..1][..0] == [];
    assert Play(cfg, shared, moves[..1]) == Moved(cfg, shared, first);
  }

  /** The two statements' row versions, landed, are the transition. */
  lemma WritesLand(jobs: map<JobId, Job>, filter: LeaseFilter)
    ensures jobs + TransitionWrites(jobs, filter) == Transition(jobs, filter)
  {
  }

  lemma NothingIsSkipped(cfg: Settings, world: World, client: ClientId)
    requires client in world.db.clients
    ensures Candidates(cfg, Shared(world, map[]), client)
         == EligibleIds(cfg, Reclaimed(world.db, world.now), world.db.clients[client])
  {
  }

  /** What a lease transaction lands: the reclaim, and its pick handed over. */
  lemma LeaseLands(cfg: Settings, shared: Shared, client: ClientId, pick: Option<JobId>)
    requires pick.Some? ==> pick.value in shared.world.db.jobs
    ensures var swept := Reclaimed(shared.world.db, shared.world.now);
            Committed(shared, Opened(cfg, shared, client, pick)).db
            == (if pick.None? then swept else LeasedTo(cfg, swept, shared.world.now, pick.value, client))
  {
    WritesLand(shared.world.db.jobs, LapsedBefore(shared.world.now));
  }

  /** With nothing locked, the rows a lease transaction writes are the ones the single step changes. */
  lemma OpenedAlone(cfg: Settings, world: World, tx: TxId, client: ClientId)
    requires MayOpen(cfg, Shared(world, map[]), tx, client) && world.db.clients[client].status == CheckedIn
    ensures var start := Shared(world, map[]);
            var pick := Oldest(Candidates(cfg, start, client));
            && (pick.Some? ==> pick.value in world.db.jobs)
            && Committed(start, Opened(cfg, start, client, pick)) == Step(cfg, world, LeaseNext(client))
  {
    NothingIsSkipped(cfg, world, client);
    LeaseLands(cfg, Shared(world, map[]), client, Oldest(Candidates(cfg, Shared(world, map[]), client)));
  }

  lemma NamedAlone(cfg: Settings, world: World, tx: TxId, client: ClientId, job: JobId)
    requires MayOpen(cfg, Shared(world, map[]), tx, client) && NamedRefusal(cfg, world.db, client, job) == None
    ensures var start := Shared(world, map[]);
            var pick := NamedPick(cfg, start, client, job);
            && (pick.Some? ==> pick.value in world.db.jobs)
            && Committed(start, Opened(cfg, start, client, pick)) == Step(cfg, world, LeaseNamed(client, job))
  {
    NothingIsSkipped(cfg, world, client);
    LeaseLands(cfg, Shared(world, map[]), client, NamedPick(cfg, Shared(world, map[]), client, job));
  }

  /** A lease nobody overlaps, polled or named, is the single step of the machine. */
  lemma AloneIsAtomic(cfg: Settings, world: World, tx: TxId, client: ClientId, job: JobId)
    requires MayOpen(cfg, Shared(world, map[]), tx, client)
    ensures world.db.clients[client].status == CheckedIn ==>
      Play(cfg, Shared(world, map[]), [Begin(tx, client), Commit(tx)]) == Shared(Step(cfg, world, LeaseNext(client)), map[])
    ensures NamedRefusal(cfg, world.db, client, job) == None ==>
      Play(cfg, Shared(world, map[]), [BeginNamed(tx, client, job), Commit(tx)]) == Shared(Step(cfg, world, LeaseNamed(client, job)), map[])
  {
    var start := Shared(world, map[]);
    PlayPair(cfg, start, Begin(tx, client), Commit(tx));
    PlayPair(cfg, start, BeginNamed(tx, client, job), Commit(tx));
    assert Moved(cfg, start, Begin(tx, client)).flights - {tx} == map[];
    assert Moved(cfg, start, BeginNamed(tx, client, job)).flights - {tx} == map[];
    if world.db.clients[client].status == CheckedIn {
      OpenedAlone(cfg, world, tx, client);
    }
    if NamedRefusal(cfg, world.db, client, job) == None {
      NamedAlone(cfg, world, tx, client, job);
    }
  }

  /** The two moves of an authorized revocation that nothing comes between are its single step, whatever else is open. */
  lemma RevocationUninterrupted(cfg: Settings, shared: Shared, tx: TxId, caller: Credential, target: ClientId)
    requires SharedSound(cfg, shared) && Enabled(cfg, shared, Release(tx, caller, target)) && !ClientLocked(shared, target)
    ensures Play(cfg, shared, [Release(tx, caller, target), Delete(tx)])
         == Shared(Step(cfg, shared.world, Revoke(caller, target)), shared.flights)
  {
    var released := Moved(cfg, shared, Release(tx, caller, target));
    PlayPair(cfg, shared, Release(tx, caller, target), Delete(tx));
    DeleteMayFollow(cfg, shared, tx, caller, target);
    assert released.flights - {tx} == shared.flights;
    ReleasedAndDeletedIsRevoked(cfg, shared, caller, target);
  }

  lemma ReleasedAndDeletedIsRevoked(cfg: Settings, shared: Shared, caller: Credential, target: ClientId)
    requires MayRevoke(cfg, shared.world.db, caller, target)
    ensures Deleted(shared, Released(shared, target)) == Step(cfg, shared.world, Revoke(caller, target))
  {
    WritesLand(shared.world.db.jobs, HeldBy(target));
  }

  /** While the release need not wait, no row another transaction holds names the client. */
  lemma HeldRowsNameOthers(cfg: Settings, shared: Shared, target: ClientId)
    requires SharedSound(cfg, shared) && !TransitionWaits(shared, HeldBy(target))
    ensures forall id, other | id in shared.world.db.jobs && Holds(shared, other, id) :: !Mentions(shared.world.db.jobs[id], target)
  {
    forall id, other | id in shared.world.db.jobs && Holds(shared, other, id)
      ensures !Mentions(shared.world.db.jobs[id], target)
    {
      assert Succeeds(shared.world.db, shared.flights[other], id);
      assert JobLocked(shared, id);
    }
  }

  /** Once the release has its locks, only the client's own lease can hold the delete up. */
  lemma DeleteMayFollow(cfg: Settings, shared: Shared, tx: TxId, caller: Credential, target: ClientId)
    requires SharedSound(cfg, shared) && Enabled(cfg, shared, Release(tx, caller, target))
    ensures target in shared.world.db.clients
    ensures Enabled(cfg, Moved(cfg, shared, Release(tx, caller, target)), Delete(tx)) <==> !ClientLocked(shared, target)
  {
    var released := Moved(cfg, shared, Release(tx, caller, target));
    HeldRowsNameOthers(cfg, shared, target);
    assert forall u :: LeasesTo(released, u, target) <==> LeasesTo(shared, u, target);
    assert ClientLocked(released, target) <==> ClientLocked(shared, target);
    assert forall id, other | Holds(released, other, id) && other != tx :: Holds(shared, other, id);
  }
}
