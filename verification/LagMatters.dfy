/**
 Why the gap has to be counted. Half the TTL from due check to lease is not enough by itself: a concrete
 run in which every round meets it and a lease is refused as stale.
 */
module LagMatters {
  import opened Models
  import opened Dispatch
  import opened JobTable
  import opened HubMachine
  import opened TableInvariant
  import opened Attestation
  import opened Credentials
  import opened ClientLoop
  import opened LoopOnHub

  // ---- a concrete run ----

  const CFG := Settings(GithubMode, 30, 60, map[])
  const REPOS := [RepoAccess("o/r", Read)]
  const SPEC := JobSpec("o/r", 1, "sha", None, "opened")
  const ENTRIES: Entries := map[ACCESS_KEY := Plain("t")]
  const OWN: GithubAnswer := Account(7, "u", REPOS)

  function Member(identity: IdentityId, status: ClientStatus): Client {
    Client("m", Standard, Some(identity), status, [])
  }

  /** Two enrolled clients of two accounts, the second checked in, and one queued job both can reach. */
  function Start(): World {
    World(
      Db(
        map[0 := NewJob(SPEC, map[])], 1,
        map[0 := Member(0, CheckedOut), 1 := Member(1, CheckedIn)], 2,
        map[0 := Identity(7, "u", 0), 1 := Identity(8, "v", 0)], 2,
        {AccessRow(0, "o/r", Read), AccessRow(1, "o/r", Read)},
        map[]),
      0, {})
  }

  /** The first round: its lease lapses during the review, another client's poll takes the job, the report is refused. */
  function FirstRound(): Script {
    Script([], [], [], None, OWN, [], [Tick(30_000_001), LeaseNext(1)], ReportPayload("v", "s", []), [], None, OWN, [Tick(2)])
  }

  /** The second: not yet due when checked, and half the TTL on its way to the hub. */
  function SecondRound(): Script {
    Script([Tick(29_999_999)], [], [], None, OWN, [Tick(30_000_000)], [], ReportPayload("v", "s", []), [], None, OWN, [])
  }

  lemma StartIsGood()
    ensures CFG.Valid() && WellTyped(ENTRIES) && Attached(CFG, Start(), 0, 0, 7)
  {
  }

  /** The token is good for ever, so every renewal spends it again. */
  lemma TokenRenews(now: Instant)
    ensures WellTyped(ENTRIES) && RenewedAccess(ENTRIES, now, false, None) == Some(TokenSet("t", None, None, None))
    ensures Persisted(ENTRIES, TokenSet("t", None, None, None)) == ENTRIES
  {
  }

  /** The loop's client checked in with its own token, at this moment. */
  function Present(now: Instant): Db {
    Start().db.(clients := map[0 := Member(0, CheckedIn), 1 := Member(1, CheckedIn)],
                identities := map[0 := Identity(7, "u", now), 1 := Identity(8, "v", 0)])
  }

  lemma OwnCheckIn(db: Db, now: Instant)
    requires db.clients.Keys == {0, 1} && db.clients[0].identityId == Some(0) && db.clients[0].offered == []
    requires db.clients[0].modelName == "m" && db.clients[0].tier == Standard && db.clients[1] == Member(1, CheckedIn)
    requires db.identities.Keys == {0, 1} && db.identities[0].githubUserId == 7 && db.identities[1] == Identity(8, "v", 0)
    requires db.nextIdentity == 2 && db.access == Start().db.access
    ensures CheckInOutcome(CFG, db, now, 0, Some(OWN), None)
         == Outcome(db.(clients := Present(now).clients, identities := Present(now).identities), CheckedInFor(60))
  {
    OwnUpsert(db, now);
    assert CheckInOutcome(CFG, db, now, 0, Some(OWN), None).db.clients == Present(now).clients;
  }

  /** The read lands on the account's own row and lists what was listed before. */
  lemma OwnUpsert(db: Db, now: Instant)
    requires db.identities.Keys == {0, 1} && db.identities[0].githubUserId == 7 && db.identities[1] == Identity(8, "v", 0)
    requires db.nextIdentity == 2 && db.access == Start().db.access
    ensures IdentityFor(db, 7) == 0 && IdentityUpserted(db, now, 7, "u", REPOS) == db.(identities := Present(now).identities)
  {
    assert IdentitiesOf(db.identities, 7) == {0};
    assert SnapshotRows(0, REPOS) == {AccessRow(0, "o/r", Read)};
    assert OtherRows(db.access, 0) == {AccessRow(1, "o/r", Read)};
  }

  const FIRST_LAPSE: Instant := 30_000_001

  lemma FirstAttends()
    ensures Attend(CFG, 0, false, Start(), StartOf(ENTRIES), FirstRound())
         == Attending(World(Present(0), 0, {}), 0, 0, CheckInOk(Some(60)))
  {
    RunTick(CFG, Start(), 0);
    TokenRenews(0);
    OwnCheckIn(Start().db, 0);
  }

  /** The one job, handed to this client at this moment, its n-th hand-over. */
  function Held(client: ClientId, at: Instant, attempts: int): Job {
    NewJob(SPEC, map[]).(state := Leased, leasedBy := Some(client), leaseExpiresAt := Some(After(at, 30)), attempts := attempts)
  }

  /** A poll by either client hands it the job when the job is queued once the reclaim has run. */
  lemma PollIsGranted(db: Db, now: Instant, client: ClientId)
    requires client in {0, 1} && db.clients == Present(0).clients && db.policies == map[] && db.access == Start().db.access
    requires db.identities.Keys == {0, 1} && !SnapshotIsStale(CFG, now, db.identities[client].refreshedAt)
    requires db.jobs.Keys == {0} && TransitionRow(LapsedBefore(now), db.jobs[0]).state == Queued
    requires db.jobs[0].spec == SPEC && db.jobs[0].minTier == Experimental && db.jobs[0].requested == []
    ensures LeaseNextOutcome(CFG, db, now, client)
         == Outcome(db.(jobs := map[0 := HandedOver(CFG, now, TransitionRow(LapsedBefore(now), db.jobs[0]), client)]), Granted(0))
  {
    var swept := Reclaimed(db, now);
    TierFloor(Experimental, Standard);
    assert AccessRow(client, "o/r", Read) in db.access;
    assert EligibleIds(CFG, swept, db.clients[client]) == {0};
  }

  /** The hub with the job held by this client. */
  function JobWith(client: ClientId, at: Instant, attempts: int): World {
    World(Present(0).(jobs := map[0 := Held(client, at, attempts)]), at, {})
  }

  lemma JobIsTaken()
    ensures Run(CFG, JobWith(0, 0, 1), [Tick(FIRST_LAPSE), LeaseNext(1)]) == JobWith(1, FIRST_LAPSE, 2)
  {
    assert [Tick(FIRST_LAPSE), LeaseNext(1)][..1] == [Tick(FIRST_LAPSE)];
    RunTick(CFG, JobWith(0, 0, 1), FIRST_LAPSE);
    LapsedJobIsTaken();
  }

  lemma LapsedJobIsTaken()
    ensures Step(CFG, JobWith(0, 0, 1).(now := FIRST_LAPSE), LeaseNext(1)) == JobWith(1, FIRST_LAPSE, 2)
  {
    PollIsGranted(JobWith(0, 0, 1).db, FIRST_LAPSE, 1);
  }

  lemma FirstLease()
    ensures Answer(CFG, World(Present(0), 0, {}), LeaseNext(0)).response == Granted(0)
    ensures Step(CFG, World(Present(0), 0, {}), LeaseNext(0)) == JobWith(0, 0, 1)
  {
    PollIsGranted(Present(0), 0, 0);
  }

  lemma FirstReport(result: ReportPayload)
    ensures Answer(CFG, JobWith(1, FIRST_LAPSE, 2), Report(0, 0, result)).response == NotLeaseholder
    ensures Step(CFG, JobWith(1, FIRST_LAPSE, 2), Report(0, 0, result)) == JobWith(1, FIRST_LAPSE, 2)
  {
  }

  lemma FirstServes()
    ensures Serve(CFG, 0, World(Present(0), 0, {}), FirstRound())
         == Serving(JobWith(1, FIRST_LAPSE, 2), 0, Granted(0), Conflict)
  {
    RunTick(CFG, World(Present(0), 0, {}), 0);
    FirstLease();
    JobIsTaken();
    FirstReport(FirstRound().result);
  }

  lemma FirstSettles(s: LoopState)
    requires s.entries == ENTRIES && s.checkedIn
    ensures Settle(CFG, 0, false, JobWith(1, FIRST_LAPSE, 2), s, FirstRound())
         == Settling(World(Present(FIRST_LAPSE).(jobs := map[0 := Held(1, FIRST_LAPSE, 2)]), FIRST_LAPSE + 2, {}),
                     FIRST_LAPSE, CheckInOk(Some(60)), FIRST_LAPSE + 2)
  {
    var world := JobWith(1, FIRST_LAPSE, 2);
    RunTick(CFG, world, 0);
    TokenRenews(FIRST_LAPSE);
    OwnCheckIn(world.db, FIRST_LAPSE);
    RunTick(CFG, World(Present(FIRST_LAPSE).(jobs := map[0 := Held(1, FIRST_LAPSE, 2)]), FIRST_LAPSE, {}), 2);
  }

  /** After the first round: the snapshot was taken at the lapse, and the loop dates its attempt two microseconds later. */
  function AfterFirst(): World {
    World(Present(FIRST_LAPSE).(jobs := map[0 := Held(1, FIRST_LAPSE, 2)]), FIRST_LAPSE + 2, {})
  }

  lemma FirstRoundLags()
    ensures var driven := Drive(CFG, 0, false, Start(), StartOf(ENTRIES), FirstRound());
            && driven.world == AfterFirst()
            && driven.state == LoopState(ENTRIES, true, Some(FIRST_LAPSE + 2), Some(60), Running)
            && Gap(driven.world, driven.state, 0) == 2
            && driven.serving.leased == Granted(0)
            && driven.serving.leaseAt - driven.dueAt <= CFG.accessTtlSeconds * HALF_SECOND
    ensures Calm(CFG, 0, false, Start(), StartOf(ENTRIES), FirstRound(), 7)
  {
    FirstAttends();
    FirstServes();
    TokenRenews(0);
    TokenRenews(FIRST_LAPSE);
    var s := StartOf(ENTRIES);
    var attending := Attend(CFG, 0, false, Start(), s, FirstRound());
    var early := EarlyRound(attending, Serve(CFG, 0, attending.world, FirstRound()), FirstRound());
    var attested := Proactive(s, true, false, early);
    assert attested == LoopState(ENTRIES, true, Some(0), Some(60), Running);
    FirstSettles(attested);
    RunTick(CFG, Serve(CFG, 0, attending.world, FirstRound()).world, 0);
  }

  lemma SecondAttends()
    ensures Attend(CFG, 0, false, AfterFirst(), LoopState(ENTRIES, true, Some(FIRST_LAPSE + 2), Some(60), Running), SecondRound())
         == Attending(AfterFirst().(now := 60_000_002), 60_000_002, 60_000_002, CheckInError)
  {
    RunTick(CFG, AfterFirst(), 29_999_999);
  }

  lemma SecondServes()
    ensures Serve(CFG, 0, AfterFirst().(now := 60_000_002), SecondRound())
         == Serving(AfterFirst().(now := 90_000_002), 90_000_002, StaleAccess, Conflict)
  {
  }

  /** The second round meets the half-TTL latency and every other assumption, and its lease is refused as stale. */
  lemma SecondRoundIsRefused()
    ensures var s := LoopState(ENTRIES, true, Some(FIRST_LAPSE + 2), Some(60), Running);
            var driven := Drive(CFG, 0, false, AfterFirst(), s, SecondRound());
            && driven.serving.leased == StaleAccess
            && driven.serving.leaseAt - driven.dueAt <= CFG.accessTtlSeconds * HALF_SECOND
            && Calm(CFG, 0, false, AfterFirst(), s, SecondRound(), 7)
  {
    var s := LoopState(ENTRIES, true, Some(FIRST_LAPSE + 2), Some(60), Running);
    SecondAttends();
    SecondServes();
    SecondIsCalm();
    DriveServes(CFG, 0, false, AfterFirst(), s, SecondRound());
  }

  lemma SecondIsCalm()
    ensures Calm(CFG, 0, false, AfterFirst(), LoopState(ENTRIES, true, Some(FIRST_LAPSE + 2), Some(60), Running), SecondRound(), 7)
  {
    SecondAttends();
    SecondServes();
    RunTick(CFG, AfterFirst().(now := 90_000_002), 0);
    TokenRenews(90_000_002);
  }

  /** Two rounds from a good start, both calm, both within half the TTL: the second lease is refused as stale. */
  lemma HalfTtlIsNotEnough()
    ensures CFG.Valid() && WellTyped(ENTRIES) && ACCESS_KEY in ENTRIES && Attached(CFG, Start(), 0, 0, 7)
    ensures var scripts := [FirstRound(), SecondRound()];
            && CalmAt(CFG, 0, false, Start(), ENTRIES, scripts, 7, 0) && CalmAt(CFG, 0, false, Start(), ENTRIES, scripts, 7, 1)
            && WithinHalfTtl(scripts, 0) && WithinHalfTtl(scripts, 1)
            && LeaseAnswer(CFG, 0, false, Start(), ENTRIES, scripts, 1) == StaleAccess
  {
    StartIsGood();
    FirstOfTwo();
    assert [FirstRound(), SecondRound()][..1] == [FirstRound()];
    SecondOfTwo([FirstRound(), SecondRound()]);
  }

  lemma FirstOfTwo()
    requires WellTyped(ENTRIES)
    ensures var scripts := [FirstRound(), SecondRound()];
            CalmAt(CFG, 0, false, Start(), ENTRIES, scripts, 7, 0) && WithinHalfTtl(scripts, 0)
  {
    var scripts := [FirstRound(), SecondRound()];
    FirstRoundLags();
    DrivenOnce();
    assert scripts[..0] == [];
    FromPosition(scripts, 0, Start(), StartOf(ENTRIES));
  }

  /** What is asked of round `k` is a question about that round from where the run stands before it. */
  lemma FromPosition(scripts: seq<Script>, k: nat, world: World, s: LoopState)
    requires WellTyped(ENTRIES) && WellTyped(s.entries) && k < |scripts|
    requires var before := DriveAll(CFG, 0, false, Start(), ENTRIES, scripts[..k]);
             before.world == world && before.state == s
    ensures CalmAt(CFG, 0, false, Start(), ENTRIES, scripts, 7, k) == Calm(CFG, 0, false, world, s, scripts[k], 7)
    ensures var driven := Drive(CFG, 0, false, world, s, scripts[k]);
            && LeaseAnswer(CFG, 0, false, Start(), ENTRIES, scripts, k) == driven.serving.leased
            && WithinHalfTtl(scripts, k) == (driven.serving.leaseAt - driven.dueAt <= CFG.accessTtlSeconds * HALF_SECOND)
  {
  }

  lemma SecondOfTwo(scripts: seq<Script>)
    requires WellTyped(ENTRIES) && |scripts| == 2 && scripts[..1] == [FirstRound()] && scripts[1] == SecondRound()
    ensures && CalmAt(CFG, 0, false, Start(), ENTRIES, scripts, 7, 1) && WithinHalfTtl(scripts, 1)
            && LeaseAnswer(CFG, 0, false, Start(), ENTRIES, scripts, 1) == StaleAccess
  {
    SecondRoundIsRefused();
    DrivenOnce();
    FromPosition(scripts, 1, AfterFirst(), LoopState(ENTRIES, true, Some(FIRST_LAPSE + 2), Some(60), Running));
  }

  /** Where the run stands before each of its rounds. */
  lemma DrivenOnce()
    requires WellTyped(ENTRIES)
    ensures DriveAll(CFG, 0, false, Start(), ENTRIES, []) == Position(Start(), StartOf(ENTRIES), [])
    ensures var first := DriveAll(CFG, 0, false, Start(), ENTRIES, [FirstRound()]);
            && first.world == AfterFirst()
            && first.state == LoopState(ENTRIES, true, Some(FIRST_LAPSE + 2), Some(60), Running)
  {
    assert [FirstRound()][..0] == [];
    FirstRoundLags();
  }

  predicate WithinHalfTtl(scripts: seq<Script>, k: nat)
    requires k < |scripts|
  {
    var before := DriveAll(CFG, 0, false, Start(), ENTRIES, scripts[..k]);
    var driven := Drive(CFG, 0, false, before.world, before.state, scripts[k]);
    driven.serving.leaseAt - driven.dueAt <= CFG.accessTtlSeconds * HALF_SECOND
  }
}
