/**
 What a client may be handed: the SQL clauses of the lease query, the access set, and the age of the
 snapshot behind it. The two clauses that also exist as plain Python are proved equal to their twins.
 */
module Dispatch {
  import opened Models

  // ---- primitives of the query language ----

  predicate IsLeast(least: nat, ids: set<nat>) {
    least in ids && forall i | i in ids :: least <= i
  }

  /** `ORDER BY created_at LIMIT 1`: the least id, if there is one. */
  function Oldest(ids: set<nat>): (r: Option<nat>)
    ensures r.None? <==> ids == {}
    ensures r.Some? ==> IsLeast(r.value, ids)
  {
    if ids == {} then None
    else
      LeastExists(ids);
      var least :| IsLeast(least, ids);
      Some(least)
  }

  lemma {:induction false} LeastExists(ids: set<nat>)
    requires ids != {}
    ensures exists least :: IsLeast(least, ids)
    decreases |ids|
  {
    var pick :| pick in ids;
    if !IsLeast(pick, ids) {
      var smaller :| smaller in ids && smaller < pick;
      var rest := ids - {pick};
      assert smaller in rest;
      LeastExists(rest);
      var least :| IsLeast(least, rest);
      forall i | i in ids
        ensures least <= i
      {
        assert least <= smaller;
        assert i == pick || i in rest;
      }
      assert IsLeast(least, ids);
    }
  }

  /** JSONB `?|`: the array holds any of these strings. */
  predicate HoldsAny(held: seq<string>, wanted: set<string>) {
    exists s | s in wanted :: s in held
  }

  // ---- the clauses ----

  /** Gate 3, as the query states it. */
  predicate StrategyClause(requested: seq<string>, offered: seq<string>) {
    |requested| == 0 || HoldsAny(requested, set s | s in offered)
  }

  /** One allowlist column of the repo's policy as it stands now; no policy row coalesces to `[]`. */
  function LiveModels(policies: map<RepoName, Policy>, repo: RepoName): seq<string> {
    if repo in policies then policies[repo].acceptedModels else []
  }

  function LiveGroups(policies: map<RepoName, Policy>, repo: RepoName): seq<string> {
    if repo in policies then policies[repo].acceptedGroups else []
  }

  /** The names of the groups this model belongs to, resolved before the query is built. */
  function MatchingGroups(registry: map<string, seq<string>>, model: string): set<string> {
    set name | name in registry && model in registry[name]
  }

  /** Gate 2, as the query states it. */
  predicate AllowlistClause(cfg: Settings, policies: map<RepoName, Policy>, repo: RepoName, model: string) {
    var models := LiveModels(policies, repo);
    var groups := LiveGroups(policies, repo);
    var matching := MatchingGroups(cfg.modelGroups, model);
    || (|models| == 0 && |groups| == 0)
    || model in models
    || (if matching != {} then HoldsAny(groups, matching) else false)
  }

  lemma StrategyTwins(requested: seq<string>, offered: seq<string>)
    ensures StrategyClause(requested, offered) <==> StrategiesOverlap(requested, offered)
  {
    var both := (set s | s in requested) * (set s | s in offered);
    if |requested| != 0 {
      if StrategyClause(requested, offered) {
        var s :| s in (set s | s in offered) && s in requested;
        assert s in both;
      }
      if both != {} {
        var s :| s in both;
        assert s in (set s | s in offered) && s in requested;
      }
    }
  }

  lemma AllowlistTwins(cfg: Settings, policies: map<RepoName, Policy>, repo: RepoName, model: string)
    ensures AllowlistClause(cfg, policies, repo, model)
       <==> ModelAllowed(LiveModels(policies, repo), LiveGroups(policies, repo), model, cfg.modelGroups)
  {
    var groups := LiveGroups(policies, repo);
    var matching := MatchingGroups(cfg.modelGroups, model);
    if HoldsAny(groups, matching) {
      var group :| group in matching && group in groups;
      assert group in groups && group in cfg.modelGroups && model in cfg.modelGroups[group];
    }
    if exists group | group in groups :: group in cfg.modelGroups && model in cfg.modelGroups[group] {
      var group :| group in groups && group in cfg.modelGroups && model in cfg.modelGroups[group];
      assert group in matching && group in groups;
    }
  }

  // ---- access and freshness ----

  function ReposOf(access: set<AccessRow>, identity: IdentityId): set<RepoName> {
    set row | row in access && row.identityId == identity :: row.repo
  }

  /** The repos a caller may see. None is "unrestricted", the dev-mode carve-out; the empty set is not. */
  function AccessibleRepos(cfg: Settings, db: Db, identity: Option<IdentityId>): Option<set<RepoName>> {
    if cfg.mode != GithubMode then None
    else if identity.None? then Some({})
    else Some(ReposOf(db.access, identity.value))
  }

  predicate Reaches(scope: Option<set<RepoName>>, repo: RepoName) {
    scope.Some? ==> repo in scope.value
  }

  predicate SnapshotIsStale(cfg: Settings, now: Instant, refreshedAt: Instant) {
    now - refreshedAt > cfg.accessTtlSeconds * MICROS_PER_SECOND
  }

  /** The freshness gate: closed for a linked account whose snapshot has outlived the TTL, or is missing. */
  predicate AccessIsStale(cfg: Settings, db: Db, now: Instant, identity: Option<IdentityId>) {
    if cfg.mode != GithubMode then false
    else if identity.None? then false
    else if identity.value !in db.identities then true
    else SnapshotIsStale(cfg, now, db.identities[identity.value].refreshedAt)
  }

  // ---- the lease query ----

  /** Every condition of the lease query on one row. Freshness is checked before the query runs. */
  predicate Eligible(cfg: Settings, db: Db, client: Client, job: Job) {
    && job.state == Queued
    && job.minTier in TiersAtOrBelow(client.tier)
    && AllowlistClause(cfg, db.policies, job.spec.repo, client.modelName)
    && StrategyClause(job.requested, client.offered)
    && Reaches(AccessibleRepos(cfg, db, client.identityId), job.spec.repo)
  }

  function EligibleIds(cfg: Settings, db: Db, client: Client): set<JobId> {
    set i | i in db.jobs && Eligible(cfg, db, client, db.jobs[i])
  }

  function HandedOver(cfg: Settings, now: Instant, job: Job, client: ClientId): Job {
    job.(
      state := Leased,
      leasedBy := Some(client),
      leaseExpiresAt := Some(After(now, cfg.leaseTtlSeconds)),
      attempts := job.attempts + 1
    )
  }

  // ---- reads ----

  /** A job this caller may see; "no such job" and "out of reach" are one answer. */
  function VisibleJob(cfg: Settings, db: Db, identity: Option<IdentityId>, id: JobId): Option<Job> {
    if id !in db.jobs then None
    else if !Reaches(AccessibleRepos(cfg, db, identity), db.jobs[id].spec.repo) then None
    else Some(db.jobs[id])
  }

  datatype JobFilters = JobFilters(state: Option<JobState>, repo: Option<RepoName>, offset: nat, limit: nat)

  predicate Listed(cfg: Settings, db: Db, identity: Option<IdentityId>, filters: JobFilters, job: Job) {
    && (filters.state.Some? ==> job.state == filters.state.value)
    && (filters.repo.Some? ==> job.spec.repo == filters.repo.value)
    && Reaches(AccessibleRepos(cfg, db, identity), job.spec.repo)
  }

  /** The matching ids below `bound`, newest first: `ORDER BY created_at DESC`. */
  function FeedBelow(cfg: Settings, db: Db, identity: Option<IdentityId>, filters: JobFilters, bound: nat): seq<JobId> {
    if bound == 0 then []
    else
      var id := bound - 1;
      (if id in db.jobs && Listed(cfg, db, identity, filters, db.jobs[id]) then [id] else [])
      + FeedBelow(cfg, db, identity, filters, id)
  }

  /** `OFFSET` then `LIMIT`. */
  function Page<T>(rows: seq<T>, offset: nat, limit: nat): seq<T> {
    var rest := if offset <= |rows| then rows[offset..] else [];
    if limit <= |rest| then rest[..limit] else rest
  }

  function JobFeed(cfg: Settings, db: Db, identity: Option<IdentityId>, filters: JobFilters): seq<JobId> {
    Page(FeedBelow(cfg, db, identity, filters, db.nextJob), filters.offset, filters.limit)
  }
}
