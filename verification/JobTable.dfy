/**
 The set-oriented statements on the job table: the two-statement transition behind lease expiry and
 client revocation, and the PR-close cancellation. Here each is one simultaneous map over the rows;
 `HubSession` runs the statements themselves and is proved to land on these maps.
 */
module JobTable {
  import opened Models

  /** What singles out the leases to release. The comparison with a NULL column matches nothing. */
  datatype LeaseFilter = LapsedBefore(now: Instant) | HeldBy(client: ClientId) {
    predicate Matches(job: Job) {
      match this
      case LapsedBefore(now) => job.leaseExpiresAt.Some? && job.leaseExpiresAt.value < now
      case HeldBy(client) => job.leasedBy == Some(client)
    }
  }

  predicate Releases(filter: LeaseFilter, job: Job) {
    job.state == Leased && filter.Matches(job)
  }

  /** A released job goes back to the queue while it has attempts left, and is exhausted otherwise. */
  function ReleasedRow(job: Job): Job {
    job.(
      state := if job.attempts < job.maxAttempts then Queued else Exhausted,
      leasedBy := None,
      leaseExpiresAt := None
    )
  }

  function TransitionRow(filter: LeaseFilter, job: Job): Job {
    if Releases(filter, job) then ReleasedRow(job) else job
  }

  function Transition(jobs: map<JobId, Job>, filter: LeaseFilter): map<JobId, Job> {
    map i | i in jobs :: TransitionRow(filter, jobs[i])
  }

  /** The rows a transition puts back in the queue, the number it reports. */
  function Requeued(jobs: map<JobId, Job>, filter: LeaseFilter): set<JobId> {
    set i | i in jobs && Releases(filter, jobs[i]) && jobs[i].attempts < jobs[i].maxAttempts
  }

  predicate Cancels(repo: RepoName, pr: int, job: Job) {
    job.spec.repo == repo && job.spec.pr == pr && job.state == Queued
  }

  function CancelRow(repo: RepoName, pr: int, job: Job): Job {
    if Cancels(repo, pr, job) then job.(state := Cancelled) else job
  }

  function CancelQueued(jobs: map<JobId, Job>, repo: RepoName, pr: int): map<JobId, Job> {
    map i | i in jobs :: CancelRow(repo, pr, jobs[i])
  }

  function CancelledIds(jobs: map<JobId, Job>, repo: RepoName, pr: int): set<JobId> {
    set i | i in jobs && Cancels(repo, pr, jobs[i])
  }

  /** ON DELETE SET NULL on both foreign keys to the client table. */
  function ForgottenRow(client: ClientId, job: Job): Job {
    job.(
      leasedBy := if job.leasedBy == Some(client) then None else job.leasedBy,
      reportedBy := if job.reportedBy == Some(client) then None else job.reportedBy
    )
  }

  function Forgotten(jobs: map<JobId, Job>, client: ClientId): map<JobId, Job> {
    map i | i in jobs :: ForgottenRow(client, jobs[i])
  }

  /** After a close no job of that PR is in the queue, and only the ones that were have changed. */
  lemma CloseEmptiesTheQueue(jobs: map<JobId, Job>, repo: RepoName, pr: int, id: JobId)
    requires id in jobs
    ensures var before, after := jobs[id], CancelQueued(jobs, repo, pr)[id];
            && after == (if before.state == Queued && before.spec.repo == repo && before.spec.pr == pr
                         then before.(state := Cancelled) else before)
            && !(after.state == Queued && after.spec.repo == repo && after.spec.pr == pr)
            && (after != before <==> id in CancelledIds(jobs, repo, pr))
  {
  }

  /** Laziness costs nothing: a reclaim missed at t1 is made up in full by the one at t2. */
  lemma ReclaimCatchesUp(jobs: map<JobId, Job>, t1: Instant, t2: Instant)
    requires t1 <= t2
    ensures Transition(Transition(jobs, LapsedBefore(t1)), LapsedBefore(t2)) == Transition(jobs, LapsedBefore(t2))
  {
  }

  /** Any two transitions commute, so a revocation racing a reclaim settles the same way in either order. */
  lemma TransitionsCommute(jobs: map<JobId, Job>, first: LeaseFilter, second: LeaseFilter)
    ensures Transition(Transition(jobs, first), second) == Transition(Transition(jobs, second), first)
  {
  }

  /** Running the same transition again changes nothing, and no row is left to requeue. */
  lemma TransitionSettles(jobs: map<JobId, Job>, filter: LeaseFilter)
    ensures Transition(Transition(jobs, filter), filter) == Transition(jobs, filter)
    ensures Requeued(Transition(jobs, filter), filter) == {}
  {
  }

  /**
   The order in revocation is load-bearing: deleting the row first nulls `leasedBy`, so the release
   finds nothing, and the job is stranded LEASED with no holder exactly when the client held it.
   */
  lemma DeleteFirstStrands(jobs: map<JobId, Job>, client: ClientId, id: JobId)
    requires id in jobs && (jobs[id].state == Leased ==> jobs[id].leasedBy.Some?)
    ensures Stranded(Transition(Forgotten(jobs, client), HeldBy(client))[id])
       <==> jobs[id].state == Leased && jobs[id].leasedBy == Some(client)
    ensures !Stranded(Forgotten(Transition(jobs, HeldBy(client)), client)[id])
  {
  }

  predicate Stranded(job: Job) {
    job.state == Leased && job.leasedBy.None?
  }
}
