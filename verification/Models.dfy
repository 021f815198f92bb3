/**
 The rows the hub stores and the small pure rules that live beside them: capability tiers, the
 strategy and model-allowlist rules in their in-process form, and permission levels.

 A datetime is an `Instant`: whole microseconds, the resolution Python's datetime has. Identifiers
 are opaque on the hub; here each is the creation number of its row, so a job's id also stands for
 its `created_at`, strictly increasing with every insert.
 */
module Models {

  datatype Option<+T> = None | Some(value: T)

  type RepoName = string
  type ClientId = nat
  type IdentityId = nat
  type JobId = nat
  type Instant = int

  const MICROS_PER_SECOND: int := 1_000_000
  const DEFAULT_MAX_ATTEMPTS: int := 3

  /** The instant `seconds` later: `moment + timedelta(seconds=seconds)`. */
  function After(moment: Instant, seconds: int): Instant {
    moment + seconds * MICROS_PER_SECOND
  }

  datatype EnrolmentMode = GithubMode | DevMode

  /** The process settings a run never changes. */
  datatype Settings = Settings(
    mode: EnrolmentMode,
    leaseTtlSeconds: int,
    accessTtlSeconds: int,
    modelGroups: map<string, seq<string>>
  ) {
    /** The bounds `Settings` puts on its two TTLs. */
    predicate Valid() {
      leaseTtlSeconds >= 30 && accessTtlSeconds >= 60
    }
  }

  // ---- clients ----

  datatype ModelTier = Experimental | Standard | Frontier

  function TierRank(tier: ModelTier): nat {
    match tier
    case Experimental => 0
    case Standard => 1
    case Frontier => 2
  }

  const RANKED_TIERS: seq<ModelTier> := [Experimental, Standard, Frontier]

  /** The floors a client of this tier clears, in rank order. */
  function TiersAtOrBelow(tier: ModelTier): seq<ModelTier> {
    RANKED_TIERS[..TierRank(tier) + 1]
  }

  lemma TierFloor(floor: ModelTier, tier: ModelTier)
    ensures floor in TiersAtOrBelow(tier) <==> TierRank(floor) <= TierRank(tier)
  {
    assert RANKED_TIERS[TierRank(floor)] == floor;
    if TierRank(floor) <= TierRank(tier) {
      assert TiersAtOrBelow(tier)[TierRank(floor)] == floor;
    }
  }

  datatype ClientStatus = CheckedIn | CheckedOut

  datatype Client = Client(
    modelName: string,
    tier: ModelTier,
    identityId: Option<IdentityId>,
    status: ClientStatus,
    offered: seq<string>
  )

  // ---- GitHub identities ----

  datatype PermissionLevel = Read | Write | Admin

  function PermissionRank(level: PermissionLevel): nat {
    match level
    case Read => 0
    case Write => 1
    case Admin => 2
  }

  /** What two reports of one repo come to. */
  function HighestPermission(left: PermissionLevel, right: PermissionLevel): PermissionLevel {
    if PermissionRank(left) >= PermissionRank(right) then left else right
  }

  datatype RepoAccess = RepoAccess(repo: RepoName, permission: PermissionLevel)

  datatype Identity = Identity(githubUserId: int, login: string, refreshedAt: Instant)

  /** One row of `identity_repo_access`. The table's unique key is (identityId, repo). */
  datatype AccessRow = AccessRow(identityId: IdentityId, repo: RepoName, permission: PermissionLevel)

  predicate DistinctNames(repos: seq<RepoAccess>) {
    forall i, k | 0 <= i < k < |repos| :: repos[i].repo != repos[k].repo
  }

  function NamesOf(repos: seq<RepoAccess>): set<RepoName> {
    set access | access in repos :: access.repo
  }

  // ---- jobs ----

  datatype JobState = Queued | Leased | Reported | Relayed | Exhausted | Cancelled

  datatype JobSpec = JobSpec(repo: RepoName, pr: int, headSha: string, title: Option<string>, action: string)

  datatype Job = Job(
    spec: JobSpec,
    state: JobState,
    minTier: ModelTier,
    requested: seq<string>,
    leasedBy: Option<ClientId>,
    leaseExpiresAt: Option<Instant>,
    attempts: int,
    maxAttempts: int,
    verdict: Option<string>,
    summary: Option<string>,
    findings: seq<string>,
    reportedBy: Option<ClientId>,
    relayError: Option<string>
  ) {
    predicate Active() {
      state == Queued || state == Leased
    }

    predicate Finished() {
      state == Reported || state == Relayed
    }

    /** Whether two jobs review the same PR head. */
    predicate SameHead(other: Job) {
      SameHeadAs(other.spec)
    }

    predicate SameHeadAs(other: JobSpec) {
      spec.repo == other.repo && spec.pr == other.pr && spec.headSha == other.headSha
    }
  }

  datatype ReportPayload = ReportPayload(verdict: string, summary: string, findings: seq<string>)

  // ---- policies ----

  datatype Policy = Policy(
    minTier: ModelTier,
    enabled: bool,
    defaultStrategies: seq<string>,
    acceptedModels: seq<string>,
    acceptedGroups: seq<string>
  )

  /** A PUT payload. None on the last three means "not mentioned", which is not the empty list. */
  datatype PolicyPayload = PolicyPayload(
    minTier: ModelTier,
    enabled: bool,
    defaultStrategies: Option<seq<string>>,
    acceptedModels: Option<seq<string>>,
    acceptedGroups: Option<seq<string>>
  )

  /** The model-allowlist rule in process: both lists empty is match-any, otherwise their union. */
  predicate ModelAllowed(models: seq<string>, groups: seq<string>, model: string, registry: map<string, seq<string>>) {
    if |models| == 0 && |groups| == 0 then true
    else if model in models then true
    else exists group | group in groups :: group in registry && model in registry[group]
  }

  /** The strategy rule in process: an empty request is match-any, otherwise any overlap. */
  predicate StrategiesOverlap(requested: seq<string>, offered: seq<string>) {
    if |requested| == 0 then true
    else (set s | s in requested) * (set s | s in offered) != {}
  }

  // ---- the whole database ----

  datatype Db = Db(
    jobs: map<JobId, Job>,
    nextJob: nat,
    clients: map<ClientId, Client>,
    nextClient: nat,
    identities: map<IdentityId, Identity>,
    nextIdentity: nat,
    access: set<AccessRow>,
    policies: map<RepoName, Policy>
  )

  function EmptyDb(): Db {
    Db(map[], 0, map[], 0, map[], 0, {}, map[])
  }
}
