/**
 The hub as a step machine. One committed request is one step; a refusal that raises before the
 commit leaves the database as it was. What the hub cannot decide itself (GitHub's answer, whether a
 shared secret matched, whether the relay worked, how much time passed) arrives in the event.
 */
module HubMachine {
  import opened Models
  import opened Dispatch
  import opened JobTable

  // ---- requests and answers ----

  /** What GitHub said about a user token: the account and its repos, a rejection, or nothing. */
  datatype GithubAnswer = Account(userId: int, login: string, repos: seq<RepoAccess>) | Rejected | Unreachable

  datatype Credential = DevSecret | SessionOf(identity: IdentityId) | TokenOf(client: ClientId) | Stranger

  datatype Event =
    | Enqueue(spec: JobSpec)
    | ClosePr(repo: RepoName, pr: int)
    | Enrol(model: string, tier: ModelTier, secretMatches: bool, github: GithubAnswer)
    | SignIn(github: GithubAnswer)
    | CheckIn(client: ClientId, token: Option<GithubAnswer>, offered: Option<seq<string>>)
    | CheckOut(client: ClientId)
    | Revoke(caller: Credential, target: ClientId)
    | PutPolicy(caller: Credential, repo: RepoName, payload: PolicyPayload)
    | LeaseNext(client: ClientId)
    | LeaseNamed(client: ClientId, job: JobId)
    | Report(client: ClientId, job: JobId, result: ReportPayload)
    | RelayOutcome(job: JobId, error: Option<string>)
    | Tick(elapsed: nat)

  datatype Response =
    // success
    | Accepted
    | Enqueued(job: JobId)
    | Skipped
    | CancelledJobs(count: nat)
    | Enrolled(client: ClientId)
    | SignedIn
    | CheckedInFor(ttlSeconds: int)
    | Granted(job: JobId)
    | QueueDry
    | Recorded
    // 401, 403, 404, 400, 503
    | Unauthorized
    | Forbidden
    | TierTooLow
    | ModelRefused
    | StrategyRefused
    | NotFound
    | UnknownGroups
    | GithubDown
    // 409
    | CheckInFirst
    | StaleAccess
    | NotAvailable
    | NotLeaseholder
    // 500: the snapshot's unique key would be broken
    | ConstraintViolated
    // no relay is running for the job, so nothing reports one
    | NoRelayRunning

  /** The database, the clock, and the jobs whose report is committed and whose relay is still running. */
  datatype World = World(db: Db, now: Instant, relays: set<JobId>)

  datatype Outcome = Outcome(db: Db, response: Response)

  // ---- jobs arriving and leaving ----

  function ActiveFor(jobs: map<JobId, Job>, spec: JobSpec): set<JobId> {
    set i | i in jobs && jobs[i].Active() && jobs[i].SameHeadAs(spec)
  }

  function NewJob(spec: JobSpec, policies: map<RepoName, Policy>): Job {
    Job(
      spec,
      Queued,
      if spec.repo in policies then policies[spec.repo].minTier else Experimental,
      if spec.repo in policies then policies[spec.repo].defaultStrategies else [],
      None, None, 0, DEFAULT_MAX_ATTEMPTS, None, None, [], None, None
    )
  }

  function EnqueueOutcome(db: Db, spec: JobSpec): Outcome {
    if spec.repo in db.policies && !db.policies[spec.repo].enabled then Outcome(db, Skipped)
    else if ActiveFor(db.jobs, spec) != {} then Outcome(db, Skipped)
    else
      Outcome(
        db.(jobs := db.jobs[db.nextJob := NewJob(spec, db.policies)], nextJob := db.nextJob + 1),
        Enqueued(db.nextJob)
      )
  }

  function ClosePrOutcome(db: Db, repo: RepoName, pr: int): Outcome {
    Outcome(db.(jobs := CancelQueued(db.jobs, repo, pr)), CancelledJobs(|CancelledIds(db.jobs, repo, pr)|))
  }

  // ---- identities ----

  function IdentitiesOf(identities: map<IdentityId, Identity>, userId: int): set<IdentityId> {
    set i | i in identities && identities[i].githubUserId == userId
  }

  /** The row a GitHub account lands on: its existing one, or the next new one. */
  function IdentityFor(db: Db, userId: int): IdentityId {
    match Oldest(IdentitiesOf(db.identities, userId))
    case Some(id) => id
    case None => db.nextIdentity
  }

  function OtherRows(access: set<AccessRow>, identity: IdentityId): set<AccessRow> {
    set row | row in access && row.identityId != identity
  }

  function SnapshotRows(identity: IdentityId, repos: seq<RepoAccess>): set<AccessRow> {
    set access | access in repos :: AccessRow(identity, access.repo, access.permission)
  }

  /** What an accepted read leaves: the account's row dated now, and its access rows exactly the new list. */
  function IdentityUpserted(db: Db, now: Instant, userId: int, login: string, repos: seq<RepoAccess>): Db {
    var id := IdentityFor(db, userId);
    db.(
      identities := db.identities[id := Identity(userId, login, now)],
      nextIdentity := if IdentitiesOf(db.identities, userId) == {} then db.nextIdentity + 1 else db.nextIdentity,
      access := OtherRows(db.access, id) + SnapshotRows(id, repos)
    )
  }

  /** Resolve a GitHub token to an identity, shared by enrolment and sign-in. None carries a refusal. */
  datatype Resolved = Admitted(db: Db, identity: Option<IdentityId>) | Refused(response: Response)

  function ResolveToken(db: Db, now: Instant, github: GithubAnswer): Resolved {
    match github
    case Rejected => Refused(Unauthorized)
    case Unreachable => Refused(GithubDown)
    case Account(userId, login, repos) =>
      if !DistinctNames(repos) then Refused(ConstraintViolated)
      else Admitted(IdentityUpserted(db, now, userId, login, repos), Some(IdentityFor(db, userId)))
  }

  function SignInOutcome(db: Db, now: Instant, github: GithubAnswer): Outcome {
    match ResolveToken(db, now, github)
    case Refused(response) => Outcome(db, response)
    case Admitted(db', _) => Outcome(db', SignedIn)
  }

  // ---- the client table ----

  function EnrolOutcome(cfg: Settings, db: Db, now: Instant, model: string, tier: ModelTier, secretMatches: bool, github: GithubAnswer): Outcome
  {
    var resolved :=
      if cfg.mode == GithubMode then ResolveToken(db, now, github)
      else if secretMatches then Admitted(db, None)
      else Refused(Unauthorized);
    match resolved
    case Refused(response) => Outcome(db, response)
    case Admitted(db', identity) =>
      Outcome(
        db'.(
          clients := db'.clients[db'.nextClient := Client(model, tier, identity, CheckedOut, [])],
          nextClient := db'.nextClient + 1
        ),
        Enrolled(db'.nextClient)
      )
  }

  /** Re-attest at check-in. An outage, and dev mode, write nothing and let the check-in go on. */
  function Reattest(cfg: Settings, db: Db, now: Instant, client: ClientId, github: GithubAnswer): Resolved
    requires client in db.clients
  {
    var linked := db.clients[client].identityId;
    if cfg.mode != GithubMode then Admitted(db, linked)
    else match github
      case Unreachable => Admitted(db, linked)
      case Rejected => Refused(Unauthorized)
      case Account(userId, login, repos) =>
        if linked.Some? && !(linked.value in db.identities && db.identities[linked.value].githubUserId == userId)
        then Refused(Unauthorized)
        else if !DistinctNames(repos) then Refused(ConstraintViolated)
        else
          var db' := IdentityUpserted(db, now, userId, login, repos);
          Admitted(db', if linked.Some? then linked else Some(IdentityFor(db, userId)))
  }

  function CheckInOutcome(cfg: Settings, db: Db, now: Instant, client: ClientId, token: Option<GithubAnswer>, offered: Option<seq<string>>): Outcome
  {
    if client !in db.clients then Outcome(db, Unauthorized)
    else
      var attested :=
        if token.Some? then Reattest(cfg, db, now, client, token.value)
        else Admitted(db, db.clients[client].identityId);
      match attested
      case Refused(response) => Outcome(db, response)
      case Admitted(db', identity) =>
        var row := db.clients[client].(
          identityId := identity,
          offered := if offered.Some? then offered.value else db.clients[client].offered,
          status := CheckedIn
        );
        Outcome(db'.(clients := db.clients[client := row]), CheckedInFor(cfg.accessTtlSeconds))
  }

  function CheckOutOutcome(db: Db, client: ClientId): Outcome {
    if client !in db.clients then Outcome(db, Unauthorized)
    else Outcome(db.(clients := db.clients[client := db.clients[client].(status := CheckedOut)]), Accepted)
  }

  /** Who a read or revoke credential speaks for: nobody, or an identity that may itself be missing. */
  datatype Caller = Nobody | Speaker(identity: Option<IdentityId>)

  function ResolveCaller(db: Db, credential: Credential): Caller {
    match credential
    case SessionOf(identity) => if identity in db.identities then Speaker(Some(identity)) else Nobody
    case TokenOf(client) => if client in db.clients then Speaker(db.clients[client].identityId) else Nobody
    case DevSecret => Nobody
    case Stranger => Nobody
  }

  /** Release the leases, then delete the row; the order matters (see `DeleteFirstStrands`). */
  function Revoked(db: Db, target: ClientId): Db {
    db.(
      jobs := Forgotten(Transition(db.jobs, HeldBy(target)), target),
      clients := db.clients - {target}
    )
  }

  function RevokeOutcome(cfg: Settings, db: Db, caller: Credential, target: ClientId): Outcome {
    if cfg.mode == DevMode then
      if caller != DevSecret then Outcome(db, Unauthorized)
      else if target !in db.clients then Outcome(db, NotFound)
      else Outcome(Revoked(db, target), Accepted)
    else
      match ResolveCaller(db, caller)
      case Nobody => Outcome(db, Unauthorized)
      case Speaker(identity) =>
        if target !in db.clients then Outcome(db, NotFound)
        else if identity.None? || db.clients[target].identityId != identity then Outcome(db, NotFound)
        else Outcome(Revoked(db, target), Accepted)
  }

  // ---- policies ----

  function Mentioned<T>(field: Option<T>, stored: T): T {
    if field.Some? then field.value else stored
  }

  function PolicyAfter(stored: Option<Policy>, payload: PolicyPayload): Policy {
    var base := if stored.Some? then stored.value else Policy(Experimental, true, [], [], []);
    Policy(
      payload.minTier,
      payload.enabled,
      Mentioned(payload.defaultStrategies, base.defaultStrategies),
      Mentioned(payload.acceptedModels, base.acceptedModels),
      Mentioned(payload.acceptedGroups, base.acceptedGroups)
    )
  }

  predicate GroupsDefined(cfg: Settings, payload: PolicyPayload) {
    payload.acceptedGroups.Some? ==>
      forall group | group in payload.acceptedGroups.value :: group in cfg.modelGroups
  }

  function StoredPolicy(db: Db, repo: RepoName): Option<Policy> {
    if repo in db.policies then Some(db.policies[repo]) else None
  }

  /** What authorization answers before the write: nothing, or the refusal. */
  function PolicyWriteRefusal(cfg: Settings, db: Db, caller: Credential, repo: RepoName): Option<Response> {
    if cfg.mode == DevMode then if caller == DevSecret then None else Some(Unauthorized)
    else
      match ResolveCaller(db, caller)
      case Nobody => Some(Unauthorized)
      case Speaker(identity) =>
        if identity.Some? && AccessRow(identity.value, repo, Admin) in db.access then None else Some(Forbidden)
  }

  function PutPolicyOutcome(cfg: Settings, db: Db, caller: Credential, repo: RepoName, payload: PolicyPayload): Outcome {
    match PolicyWriteRefusal(cfg, db, caller, repo)
    case Some(response) => Outcome(db, response)
    case None =>
      if !GroupsDefined(cfg, payload) then Outcome(db, UnknownGroups)
      else
        Outcome(db.(policies := db.policies[repo := PolicyAfter(StoredPolicy(db, repo), payload)]), Accepted)
  }

  // ---- leasing ----

  function Reclaimed(db: Db, now: Instant): Db {
    db.(jobs := Transition(db.jobs, LapsedBefore(now)))
  }

  function LeasedTo(cfg: Settings, db: Db, now: Instant, id: JobId, client: ClientId): Db
    requires id in db.jobs
  {
    db.(jobs := db.jobs[id := HandedOver(cfg, now, db.jobs[id], client)])
  }

  function LeaseNextOutcome(cfg: Settings, db: Db, now: Instant, client: ClientId): Outcome {
    if client !in db.clients then Outcome(db, Unauthorized)
    else if db.clients[client].status != CheckedIn then Outcome(db, CheckInFirst)
    else if AccessIsStale(cfg, db, now, db.clients[client].identityId) then Outcome(db, StaleAccess)
    else
      var swept := Reclaimed(db, now);
      match Oldest(EligibleIds(cfg, swept, db.clients[client]))
      case None => Outcome(swept, QueueDry)
      case Some(id) => Outcome(LeasedTo(cfg, swept, now, id, client), Granted(id))
  }

  /** The checks of the named path before it takes its lock, in their order. */
  function NamedRefusal(cfg: Settings, db: Db, client: ClientId, id: JobId): Option<Response>
    requires client in db.clients
  {
    var row := db.clients[client];
    if row.status != CheckedIn then Some(CheckInFirst)
    else
      match VisibleJob(cfg, db, row.identityId, id)
      case None => Some(NotFound)
      case Some(job) =>
        if job.minTier !in TiersAtOrBelow(row.tier) then Some(TierTooLow)
        else if !ModelAllowed(LiveModels(db.policies, job.spec.repo), LiveGroups(db.policies, job.spec.repo), row.modelName, cfg.modelGroups)
        then Some(ModelRefused)
        else if !StrategiesOverlap(job.requested, row.offered) then Some(StrategyRefused)
        else None
  }

  function LeaseNamedOutcome(cfg: Settings, db: Db, now: Instant, client: ClientId, id: JobId): Outcome {
    if client !in db.clients then Outcome(db, Unauthorized)
    else
      match NamedRefusal(cfg, db, client, id)
      case Some(response) => Outcome(db, response)
      case None =>
        if AccessIsStale(cfg, db, now, db.clients[client].identityId) then Outcome(db, StaleAccess)
        else
          var swept := Reclaimed(db, now);
          if id in EligibleIds(cfg, swept, db.clients[client])
          then Outcome(LeasedTo(cfg, swept, now, id, client), Granted(id))
          else Outcome(swept, NotAvailable)
  }

  // ---- reporting and relaying ----

  function ReportedRow(job: Job, client: ClientId, result: ReportPayload): Job {
    job.(
      state := Reported,
      verdict := Some(result.verdict),
      summary := Some(result.summary),
      findings := result.findings,
      reportedBy := Some(client),
      leasedBy := None,
      leaseExpiresAt := None
    )
  }

  /** Holding the lease is the authorization. The lease clock is not looked at. */
  function ReportOutcome(db: Db, client: ClientId, id: JobId, result: ReportPayload): Outcome {
    if client !in db.clients then Outcome(db, Unauthorized)
    else if id !in db.jobs then Outcome(db, NotFound)
    else if db.jobs[id].state != Leased || db.jobs[id].leasedBy != Some(client) then Outcome(db, NotLeaseholder)
    else Outcome(db.(jobs := db.jobs[id := ReportedRow(db.jobs[id], client, result)]), Recorded)
  }

  function RelayRow(job: Job, error: Option<string>): Job {
    if error.None? then job.(relayError := error, state := Relayed) else job.(relayError := error)
  }

  function RelayOutcomeOf(world: World, id: JobId, error: Option<string>): Outcome {
    if id !in world.relays || id !in world.db.jobs then Outcome(world.db, NoRelayRunning)
    else Outcome(world.db.(jobs := world.db.jobs[id := RelayRow(world.db.jobs[id], error)]), Accepted)
  }

  // ---- the machine ----

  function Answer(cfg: Settings, world: World, event: Event): Outcome {
    var db, now := world.db, world.now;
    match event
    case Enqueue(spec) => EnqueueOutcome(db, spec)
    case ClosePr(repo, pr) => ClosePrOutcome(db, repo, pr)
    case Enrol(model, tier, secretMatches, github) => EnrolOutcome(cfg, db, now, model, tier, secretMatches, github)
    case SignIn(github) => SignInOutcome(db, now, github)
    case CheckIn(client, token, offered) => CheckInOutcome(cfg, db, now, client, token, offered)
    case CheckOut(client) => CheckOutOutcome(db, client)
    case Revoke(caller, target) => RevokeOutcome(cfg, db, caller, target)
    case PutPolicy(caller, repo, payload) => PutPolicyOutcome(cfg, db, caller, repo, payload)
    case LeaseNext(client) => LeaseNextOutcome(cfg, db, now, client)
    case LeaseNamed(client, job) => LeaseNamedOutcome(cfg, db, now, client, job)
    case Report(client, job, result) => ReportOutcome(db, client, job, result)
    case RelayOutcome(job, error) => RelayOutcomeOf(world, job, error)
    case Tick(_) => Outcome(db, Accepted)
  }

  function Step(cfg: Settings, world: World, event: Event): World {
    var outcome := Answer(cfg, world, event);
    World(
      outcome.db,
      if event.Tick? then world.now + event.elapsed else world.now,
      if event.Report? && outcome.response == Recorded then world.relays + {event.job}
      else if event.RelayOutcome? then world.relays - {event.job}
      else world.relays
    )
  }

  /** The world after a whole run. */
  function Run(cfg: Settings, world: World, events: seq<Event>): World {
    if events == [] then world
    else Step(cfg, Run(cfg, world, events[..|events| - 1]), events[|events| - 1])
  }

  /** The world just before event `k` of a run, and what that event was answered. */
  function Before(cfg: Settings, world: World, events: seq<Event>, k: nat): World
    requires k <= |events|
  {
    Run(cfg, world, events[..k])
  }

  function ResponseAt(cfg: Settings, world: World, events: seq<Event>, k: nat): Response
    requires k < |events|
  {
    Answer(cfg, Before(cfg, world, events, k), events[k]).response
  }

  function InitialWorld(now: Instant): World {
    World(EmptyDb(), now, {})
  }

  /** One event, as a run of its own. */
  lemma RunOne(cfg: Settings, world: World, event: Event)
    ensures Run(cfg, world, [event]) == Step(cfg, world, event)
  {
    assert [event][..0] == [];
  }

  lemma RunTick(cfg: Settings, world: World, elapsed: nat)
    ensures Run(cfg, world, []) == world
    ensures Run(cfg, world, [Tick(elapsed)]) == world.(now := world.now + elapsed)
  {
    assert [Tick(elapsed)][..0] == [];
  }
}
