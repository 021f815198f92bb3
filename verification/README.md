# Review Bingo: the lease protocol and its clients, in Dafny

The hub hands code-review jobs to clients under time-limited leases. This project models

- the hub's tables and every request that changes them as one step machine (`HubMachine`), and the services
  and endpoints as a session class that changes rows in place, commits and rolls back (`HubSession`), each
  method proved equal to the machine's step;
- the invariant of every reachable state, the bound on a job's life, no starvation, the agreement of the two lease
  paths, what a caller's answers may depend on, who may write, whole-run dispatch safety, frozen and live policy gates, the
  report and its relay, and lease and revoke transactions that overlap;
- the walk over GitHub's paged collections and the merge of repo access that fills the snapshot;
- the bounded event fan-out, as objects whose state is proved to be what the history of their uses says, and
  publishes that overlap;
- the client's unattended loop, its pacing, its stored credentials, and the loop composed with the hub.

`Models`, `Dispatch` and `JobTable` hold the rows, the dispatch gates and the set-oriented statements the other
modules share. `dafny verify dfyconfig.toml` checks everything.

## How to read the model

- A step is one committed request, with one reading of the clock. A refusal that raises before its commit leaves
  the database as it was, so a stale-access refusal also undoes the reclaim it began with.
- A row's identifier is its creation number, which also stands for `created_at`. It is unique and strictly increasing.
- Whatever the hub cannot decide arrives in the event: GitHub's answer for a token, whether a shared secret
  matched, the relay's outcome, the time passed. Tokens are opaque.
- A datetime is a whole number of microseconds.
- The enrolment mode, both TTLs and the model groups are constants of a run.
- An accepted read of an account, in `Attestation`, is one whose request committed: the answer to a check-in
  refused because the token belongs to another account is not one.

## Where the code and its comments disagree

- `hub/review_bingo_hub/core/event_bus.py:44-47` says the oldest event is dropped from a full queue; the code drops
  the newest (`EventBus.NewestIsDropped`).
- `client/bingo_client.py:659-665` says a 409 before a run's first check-in can only mean "check in first". A client
  left checked in by an earlier process can meet the staleness refusal there, and the heartbeat it answers with
  does not lift it (`Attestation.HeartbeatCannotCureStaleness`).
- `hub/review_bingo_hub/models/review_job.py:13` says dispatch stops offering a job after `max_attempts`. No lease
  query tests that; it holds because the release of a lease does, and `TableInvariant.StepKeepsInvariant` carries it.
- Half the TTL between the due check and the lease does not by itself keep the freshness gate open: after a
  refused report the loop dates its attempt when the reply is in, later than the hub dated the snapshot
  (`LagMatters.HalfTtlIsNotEnough`). `LatencyBudget.HalfTtlIsExact` says exactly when it does, and
  `LatencyBudget.RoomIsExact` which latency any gap leaves room for. While no report is refused half the TTL
  is enough (`LoopOnHub.HalfTtlSuffices`).
- `client/README.md:120` says re-running `login` overwrites what is stored. A loop started earlier puts the old
  state back at its next renewal (`Credentials.LoopUndoesLogin`); `Credentials.FileHoldsLastAccepted` says
  exactly when the file stays the last enrolment's.
- `hub/review_bingo_hub/api/clients.py:271-273` gives the order in revocation as what keeps a job from being left
  LEASED with no holder. A lease of the client that commits between the two statements is left so all the same
  (`Stranding.RevocationCanStrand`); `Stranding.InvariantUnlessStranded` and `Stranding.RaceStrands` say exactly when.
- Reading stored credentials back gives the stored set except for an empty access token (`Credentials.ReadBack`,
  `Credentials.EmptyTokenIsLost`).

## Model

| member | source | states |
|---|---|---|
| `Models.TierFloor` | hub/review_bingo_hub/models/review_client.py:42-56 | a client clears exactly the floors whose rank is at most its own |
| `Dispatch.Oldest` | hub/review_bingo_hub/services/job_service.py:328-341 | ordering by creation and taking one row finds the least id, and nothing only when no row matches |
| `Dispatch.StrategyTwins` | hub/review_bingo_hub/services/job_service.py:63-89 | the strategy clause of the lease query accepts exactly what the in-process overlap rule accepts |
| `Dispatch.AllowlistTwins` | hub/review_bingo_hub/services/job_service.py:92-156 | the SQL allowlist clause, missing policy row included, accepts exactly what `model_allowed` (repo_policy.py:25-59) accepts on the live lists |
| `JobTable.ReclaimCatchesUp` | hub/review_bingo_hub/services/job_service.py:229-258 | a reclaim at t1 followed by one at t2 >= t1 leaves what the one at t2 leaves alone, so lazy reclaiming loses nothing |
| `JobTable.TransitionsCommute` | hub/review_bingo_hub/services/job_service.py:229-280 | expiry reclaim and per-client release commute, whatever they filter on |
| `JobTable.TransitionSettles` | hub/review_bingo_hub/services/job_service.py:229-252 | a second identical transition changes nothing and requeues nothing |
| `JobTable.CloseEmptiesTheQueue` | hub/review_bingo_hub/services/job_service.py:212-226 | after a PR closes no job of it is QUEUED, and exactly the jobs that were have changed, in their state alone |
| `JobTable.DeleteFirstStrands` | hub/review_bingo_hub/api/clients.py:271-276 | deleting a client before releasing its leases strands a job LEASED with no holder if and only if the client held it; releasing first never does |
| `TableInvariant.RowStep` | hub/review_bingo_hub/services/job_service.py:177-416 | the only ways any step changes an existing job row, as a function of the row, the event and the answer |
| `TableInvariant.RowAppears` | hub/review_bingo_hub/services/job_service.py:177-209 | jobs are never deleted; the only new row is the one an enqueue reports, at the next creation number |
| `TableInvariant.GrantedWasQueued` | hub/review_bingo_hub/services/job_service.py:305-384 | a grant goes to a registered client, for a job that is QUEUED once the reclaim has run and passes every clause of the query |
| `TableInvariant.RowAfterOk` | hub/review_bingo_hub/services/job_service.py:229-252 | no change to a row breaks its lease columns, its attempt budget, its verdict columns or its foreign keys |
| `TableInvariant.OneActiveKept` | hub/review_bingo_hub/services/job_service.py:177-209 | every step keeps at most one QUEUED or LEASED job per repo, PR and head sha, redeliveries and requeues included |
| `TableInvariant.NewcomerHasNoRival` | hub/review_bingo_hub/services/job_service.py:177-209 | a job is only ever created when no active job exists for its repo, PR and head sha |
| `TableInvariant.IdentityTables` | hub/review_bingo_hub/services/identity_service.py:129-163 | the identity tables change only by an accepted read of an account, and then exactly by that upsert |
| `TableInvariant.UpsertKeepsIdentities` | hub/review_bingo_hub/services/identity_service.py:129-163 | an upsert keeps one identity row per GitHub account |
| `TableInvariant.UpsertKeepsAccess` | hub/review_bingo_hub/models/github_identity.py:109-111 | replacing a snapshot keeps one access row per identity and repo |
| `TableInvariant.InitialInvariant` | hub/review_bingo_hub/models/review_job.py:55-97 | the empty hub satisfies the invariant, so every run has a good start |
| `TableInvariant.StepKeepsInvariant` | hub/review_bingo_hub/services/job_service.py:229-416 | every step keeps: LEASED iff holder and expiry set, holders registered, QUEUED implies attempts < max, LEASED implies 1 <= attempts <= max, EXHAUSTED implies attempts = max, verdict iff REPORTED or RELAYED, and the uniqueness and foreign keys of all tables |
| `TableInvariant.StepKeepsSound` | hub/review_bingo_hub/services/job_service.py:229-416 | every step keeps all of that but the holder of a lease even when an overlapping revocation has taken a holder away |
| `TableInvariant.StepStrandsNone` | hub/review_bingo_hub/services/job_service.py:229-280 | no serialized step takes a lease's holder away |
| `TableInvariant.InvariantHolders` | hub/review_bingo_hub/models/review_job.py:55-97 | under the invariant a job is LEASED exactly when it has a holder and exactly when it has an expiry |
| `TableInvariant.RunKeepsInvariant` | hub/review_bingo_hub/services/job_service.py:229-416 | the same over any run of any events from any good state |
| `TableInvariant.RunKeepsSound` | hub/review_bingo_hub/services/job_service.py:229-416 | so do all runs from a state an overlapped revocation left; the results on a job's life, starvation, verdicts, identity links and frozen gates start from there |
| `Lifecycle.RowPays` | hub/review_bingo_hub/models/review_job.py:3-13 | every state change of a row, two when one request reclaims and hands over, is paid for by a measure that never grows; attempts goes up exactly on a grant |
| `Lifecycle.ChangesArePaidFor` | hub/review_bingo_hub/models/review_job.py:3-13 | over any run, the changes made plus those still possible stay within the allowance, and attempts is the start value plus the hand-overs in the history |
| `Lifecycle.LifeIsBounded` | hub/review_bingo_hub/models/review_job.py:3-13 | no run makes a job change state more than 2 * max_attempts + 1 times, and a job's attempts equals its hand-overs |
| `Lifecycle.BudgetIsFixed` | hub/review_bingo_hub/models/review_job.py:79 | max_attempts is never written after creation |
| `Lifecycle.BoundIsReached` | hub/review_bingo_hub/models/review_job.py:3-13 | from every ready state some run makes every change the measure allows, so the bound cannot be lowered |
| `Lifecycle.BoundIsReachedFromEmpty` | hub/review_bingo_hub/models/review_job.py:3-13 | from the empty hub some run makes one job change state all seven times three attempts allow |
| `Starvation.BudgetShrinks` | hub/review_bingo_hub/services/job_service.py:229-252 | no step gives the jobs created before a bound an attempt back, and a grant to one of them takes one away |
| `Starvation.PollTakesNoLaterJob` | hub/review_bingo_hub/services/job_service.py:305-346 | a poll by a client that could have this job is granted this job or an earlier one |
| `Starvation.WaitingTurn` | hub/review_bingo_hub/services/job_service.py:305-346 | while the job waits, each poll by the client costs the earlier jobs one of their attempts |
| `Starvation.NoStarvation` | hub/review_bingo_hub/services/job_service.py:305-346 | in any run, while a queued job stays eligible for a client, it leaves the queue within 1 + (attempts left in earlier jobs) polls by that client, whatever interleaves |
| `LeasePaths.PreChecksAreTheClauses` | hub/review_bingo_hub/api/jobs.py:95-141 | the named path's Python checks pass exactly when the query would take the row were it QUEUED, for all policies, groups and clients |
| `LeasePaths.NameableIsEligible` | hub/review_bingo_hub/services/job_service.py:349-384 | for a present, fresh client the jobs it could lease by name are exactly the rows the lease query matches after the reclaim |
| `LeasePaths.PathsAgree` | hub/review_bingo_hub/services/job_service.py:305-384 | polling grants the oldest of exactly the jobs naming would grant, and grants none exactly when naming would refuse all |
| `LeasePaths.NamingThePickIsPolling` | hub/review_bingo_hub/services/job_service.py:305-384 | naming the job a poll would grant leaves the same database and gives the same answer as the poll |
| `LeasePaths.NamedFailsOnlyOffQueue` | hub/review_bingo_hub/api/jobs.py:80-161 | once its checks pass and access is fresh, a named lease is refused if and only if the job is not QUEUED after the reclaim |
| `LiveLease.LiveLeaseIsKept` | hub/review_bingo_hub/services/job_service.py:387-396 | for leaseTtlSeconds times a million microseconds after a hand-over, short of its own report or its revocation, the job stays leased to that client, nobody is granted it, and its report would be recorded |
| `LiveLease.LapsedLeaseIsFreed` | hub/review_bingo_hub/services/job_service.py:229-258 | the first committed sweep after that requeues the job with attempts left, exhausts it otherwise, or hands it over again |
| `LiveLease.RefusedLeaseChangesNothing` | hub/review_bingo_hub/api/jobs.py:66-71 | a refused lease leaves the database as it was, the reclaim it began with included |
| `LiveLease.ClausesInColumns` | hub/review_bingo_hub/services/job_service.py:63-174 | each clause of the lease query, in the columns it reads: floor, models and groups, strategies, snapshot rows |
| `LiveLease.PollIsDecided` | hub/review_bingo_hub/api/jobs.py:52-77 | a poll is refused for an unknown, absent or outdated client, in that order, and for nothing else |
| `LiveLease.NamedLeaseIsDecided` | hub/review_bingo_hub/api/jobs.py:80-161 | the answer of a named lease, for every state of the tables, in the order its refusals come |
| `LiveLease.ReportIsDecided` | hub/review_bingo_hub/api/jobs.py:185-199 | a report is recorded if and only if the job is leased to its sender, and then writes exactly these columns of that row |
| `JobFeeds.FeedIsAPage` | hub/review_bingo_hub/services/job_service.py:452-472 | the list is one page, from the offset up to the limit, of exactly the jobs in reach that pass the filters, newest first |
| `JobFeeds.FoundIfInReach` | hub/review_bingo_hub/services/job_service.py:430-449 | one job is found if and only if it exists and is in reach |
| `Views.ReclaimKeepsView` | hub/review_bingo_hub/services/job_service.py:255-258 | the bulk reclaim sweeps hidden rows too, yet leaves two hubs that look alike to a caller looking alike |
| `Views.LeaseNextSeesOnlyItsView` | hub/review_bingo_hub/services/job_service.py:305-346 | hubs that agree on a client's row, access and reachable rows answer its poll alike and stay alike to it |
| `Views.LeaseNamedSeesOnlyItsView` | hub/review_bingo_hub/services/job_service.py:349-384 | the same for a named lease of any id, reachable or not |
| `Views.ReadsSeeOnlyTheirView` | hub/review_bingo_hub/services/job_service.py:430-472 | the same for reading one job and for every page of the list, whatever hidden jobs exist |
| `Views.RunsSeeOnlyTheirView` | hub/review_bingo_hub/services/job_service.py:159-174 | hubs alike to a client answer all its leases alike through any run of its own leases, waits, and steps hidden from it in either hub |
| `Views.RunsReadAlike` | hub/review_bingo_hub/services/job_service.py:430-472 | and at every point of such a run the client reads the same jobs and pages |
| `Attestation.RefreshReplaces` | hub/review_bingo_hub/services/identity_service.py:129-163 | a refresh makes one account's access exactly the new list and leaves every other account's rows unchanged |
| `Attestation.TablesHoldTheLastRead` | hub/review_bingo_hub/services/identity_service.py:129-163 | over any run, each identity's snapshot and its age are those of the last accepted read of that account in the history |
| `Attestation.EveryLeaseIsAttested` | hub/review_bingo_hub/services/identity_service.py:166-258 | in github mode every lease ever handed out is for a repo listed by the last accepted read of that client's account, made no more than the TTL earlier |
| `Attestation.OnlyReadsMoveTheClock` | hub/review_bingo_hub/api/clients.py:203-227 | heartbeats without a token and GitHub outages never move an account's clock or its repos |
| `Attestation.HeartbeatCannotCureStaleness` | client/bingo_client.py:659-665 | a bare check-in answers a staleness refusal with the same refusal at the next lease |
| `Attestation.LinkIsWriteOnce` | hub/review_bingo_hub/services/identity_service.py:728-747 | over any run a client linked to one account is never linked to another, and that account never changes hands |
| `Admission.EnrolmentIsTheTokens` | hub/review_bingo_hub/api/clients.py:152-172 | in github mode a client is enrolled exactly when GitHub vouches for its token, linked to that account, beside a snapshot that is the read; a refusal changes nothing |
| `Admission.DevEnrolmentIsTheSecrets` | hub/review_bingo_hub/services/identity_service.py:799-820 | in dev mode the shared secret decides, and the client belongs to no account |
| `Admission.SignInIsTheTokens` | hub/review_bingo_hub/api/auth.py:199-236 | signing in reads the account into its row and changes nothing else |
| `Admission.CheckInIsDecided` | hub/review_bingo_hub/api/clients.py:175-232 | the answer of a check-in for every state of the tables: heartbeat, outage and dev mode go through, a rejected or foreign token is refused with nothing written |
| `Admission.CheckInReadsItsAccount` | hub/review_bingo_hub/services/identity_service.py:692-758 | an accepted token check-in leaves the client linked to the account read, and its snapshot the read |
| `Admission.ForeignTokenIsRefused` | hub/review_bingo_hub/services/identity_service.py:730-736 | a linked client checking in with another account's token is refused, and neither account is written |
| `Admission.OnlyItsOwnTokens` | hub/review_bingo_hub/services/identity_service.py:728-747 | over any run, every token check-in of a linked client that was accepted read its own account |
| `PolicyHistory.PolicyStep` | hub/review_bingo_hub/services/policy_service.py:39-83 | only an accepted PUT of a repo writes its policy; a rejected PUT changes nothing |
| `PolicyHistory.PolicyIsLastMention` | hub/review_bingo_hub/services/policy_service.py:56-83 | over any run each stored list is the one in the last accepted PUT that mentioned it: omitted keeps, empty clears |
| `PolicyHistory.EnqueueIsDecided` | hub/review_bingo_hub/services/job_service.py:177-209 | a delivery is skipped if and only if the last accepted PUT disabled the repo or an active job reviews that head; otherwise one queued job is added and no other touched |
| `PolicyHistory.NewHeadIsEnqueued` | hub/review_bingo_hub/services/job_service.py:186-197 | the first delivery of a repo, PR and head sha in a run is enqueued, unless the last accepted PUT disabled the repo |
| `PolicyHistory.OneInHandPerHead` | hub/review_bingo_hub/services/job_service.py:186-197 | over any run no two queued or leased jobs have the same repo, PR and head sha |
| `PolicyHistory.CloseIsDecided` | hub/review_bingo_hub/services/job_service.py:212-226 | a close answers with the number of that PR's queued jobs and cancels exactly those, no other PR's |
| `PolicyHistory.FrozenAtEnqueue` | hub/review_bingo_hub/services/job_service.py:201-205 | a job's tier floor and strategies are for good those in force just before its own enqueue |
| `PolicyHistory.ModelGateIsLive` | hub/review_bingo_hub/services/job_service.py:92-156 | every lease ever handed out satisfies the allowlists as last PUT before it, not as they were at enqueue |
| `LeaseHistory.ClientIsItsHistory` | hub/review_bingo_hub/api/clients.py:152-240 | over any run a client's model and tier are those it enrolled with, its strategies the last it declared, its status its last check-in or check-out |
| `LeaseHistory.EveryLeaseMeetsItsGates` | hub/review_bingo_hub/services/job_service.py:305-384 | every lease ever handed out: the client's last word was a check-in, its tier and last offer meet the floor and strategies in force when the job was enqueued, and its model is allowed by the lists in force now |
| `Authority.OnlyOwnersRevoke` | hub/review_bingo_hub/services/identity_service.py:509-604 | the answer of a revocation in either mode, for every credential: accepted exactly for the account's own session or machine, or the shared secret in dev mode; refused, it changes nothing |
| `Authority.RefusalHidesTheTarget` | hub/review_bingo_hub/services/identity_service.py:509-604 | refusing somebody else's client and refusing a client that does not exist are one answer |
| `Authority.RevocationFreesItsLeases` | hub/review_bingo_hub/api/clients.py:271-276 | a revoked client and every reference to it are gone, its leases are requeued or exhausted by their budget, its finished work is kept, nothing else moves |
| `Authority.EveryPolicyWriteIsAnAdmins` | hub/review_bingo_hub/services/identity_service.py:438-506 | every policy write ever accepted in github mode is by an account whose last accepted read lists the repo as its admin |
| `Authority.AdminsMayWrite` | hub/review_bingo_hub/services/identity_service.py:438-506 | an account whose last accepted read lists the repo as its admin may write its policy, from a session or any of its machines |
| `Authority.PutIsDecided` | hub/review_bingo_hub/api/policies.py:92-114 | the answer of a PUT in either mode, for every credential and payload; refused, it changes nothing |
| `HubSession.Session.Commit` | hub/review_bingo_hub/db/session.py:154-161 | other sessions see exactly the working copy from here on |
| `HubSession.Session.Rollback` | hub/review_bingo_hub/db/session.py:154-161 | the working copy is again what other sessions see, and they saw nothing |
| `HubSession.Session.EnqueueJob` | hub/review_bingo_hub/services/job_service.py:177-209 | row by row, the insert and its two refusals are the machine's enqueue |
| `HubSession.Session.CancelQueuedJobsForPr` | hub/review_bingo_hub/services/job_service.py:212-226 | cancels exactly the QUEUED jobs of that PR and returns their number |
| `HubSession.Session.TransitionLeasedJobs` | hub/review_bingo_hub/services/job_service.py:229-252 | the two UPDATEs in order equal one simultaneous map over the rows, and return exactly the requeued count |
| `HubSession.Session.ReclaimExpiredLeases` | hub/review_bingo_hub/services/job_service.py:255-258 | releases the leases that have lapsed and nothing else |
| `HubSession.Session.ReleaseLeasedJobsForClient` | hub/review_bingo_hub/services/job_service.py:261-280 | releases the leases of one client and nothing else |
| `HubSession.Session.HandOver` | hub/review_bingo_hub/services/job_service.py:387-396 | the row is leased to this client with a new expiry and one more attempt; no other row changes |
| `HubSession.Session.LeaseNextJob` | hub/review_bingo_hub/services/job_service.py:305-346 | stale exactly when the snapshot is; otherwise the oldest eligible row after the reclaim is handed over, or none |
| `HubSession.Session.LeaseSpecificJob` | hub/review_bingo_hub/services/job_service.py:349-384 | the same for one named row |
| `HubSession.Session.ReportJob` | hub/review_bingo_hub/services/job_service.py:399-416 | the row carries the verdict and its author and no lease; no other row changes |
| `HubSession.Session.GetOrCreateIdentity` | hub/review_bingo_hub/services/identity_service.py:129-163 | row, delete and insert loop together replace the snapshot wholesale, and fail exactly on a repeated repo |
| `HubSession.Session.InsertAccess` | hub/review_bingo_hub/services/identity_service.py:129-163 | inserts the whole list, or hits the unique key exactly when the list repeats a repo |
| `HubSession.Session.ReattestIdentity` | hub/review_bingo_hub/services/identity_service.py:692-758 | outage and dev mode write nothing, another account is denied, an unlinked client is linked, a linked one refreshed |
| `HubSession.Session.ResolveGithubToken` | hub/review_bingo_hub/services/identity_service.py:761-796 | a token admits its account or is refused, as the machine says |
| `HubSession.Session.DeleteClient` | hub/review_bingo_hub/services/client_service.py:68-80 | the row is gone and both foreign keys to it are nulled on every job |
| `HubSession.Session.UpsertPolicy` | hub/review_bingo_hub/services/policy_service.py:39-83 | refused exactly on an undefined group, before any write; otherwise every mentioned field and no other is replaced |
| `HubSession.Session.WebhookEndpoint` | hub/review_bingo_hub/api/webhooks.py:65-117 | commits and answers what the machine's enqueue step does |
| `HubSession.Session.PrClosedEndpoint` | hub/review_bingo_hub/api/webhooks.py:65-117 | commits and answers what the machine's PR-close step does |
| `HubSession.Session.RegisterEndpoint` | hub/review_bingo_hub/api/clients.py:152-172 | commits and answers what the machine's enrolment step does, refusals rolled back |
| `HubSession.Session.SignInEndpoint` | hub/review_bingo_hub/api/auth.py:199-236 | commits and answers what the machine's sign-in step does |
| `HubSession.Session.CheckInEndpoint` | hub/review_bingo_hub/api/clients.py:175-232 | commits and answers what the machine's check-in step does, through outage, denial and heartbeat |
| `HubSession.Session.CheckOutEndpoint` | hub/review_bingo_hub/api/clients.py:235-240 | commits and answers what the machine's check-out step does |
| `HubSession.Session.RevokeEndpoint` | hub/review_bingo_hub/api/clients.py:243-276 | commits and answers what the machine's revoke step does, release before delete |
| `HubSession.Session.PutPolicyEndpoint` | hub/review_bingo_hub/api/policies.py:92-114 | commits and answers what the machine's policy step does |
| `HubSession.Session.LeaseJobEndpoint` | hub/review_bingo_hub/api/jobs.py:52-77 | a stale refusal rolls back even the reclaim; a dry queue commits it; a grant commits both |
| `HubSession.Session.LeaseSpecificJobEndpoint` | hub/review_bingo_hub/api/jobs.py:80-161 | the same for a named job, with the checks before it in their order |
| `HubSession.Session.ReportJobEndpoint` | hub/review_bingo_hub/api/jobs.py:164-199 | the first commit of a report: state and holder decide, the lease clock does not |
| `HubSession.Session.RecordRelay` | hub/review_bingo_hub/api/jobs.py:200-224 | the second commit: the relay error, and RELAYED with its event announced exactly when there is none |
| `Reporting.LeaseIsLastGrant` | hub/review_bingo_hub/services/job_service.py:387-396 | over any run, a LEASED row's holder and expiry are those of the last hand-over in the history |
| `Reporting.OnlyLastHolderReports` | hub/review_bingo_hub/api/jobs.py:185-196 | an accepted report comes from the client the job was last handed to, lapsed or not |
| `Reporting.VerdictIsDurable` | hub/review_bingo_hub/services/job_service.py:399-416 | a recorded verdict survives every later step, closes and the revocation of its author included |
| `Reporting.RelayLands` | hub/review_bingo_hub/api/jobs.py:198-224 | whatever commits between the two commits of a report, the relay outcome lands on the reported row |
| `Interleaving.OpeningKeeps` | hub/review_bingo_hub/services/job_service.py:328-346 | a transaction that opens over rows nobody holds keeps all transactions disjoint and their rows legal successors |
| `Interleaving.MoveSpends` | hub/review_bingo_hub/services/job_service.py:305-396 | a move raises a job's attempts by one if it commits that job's lease, and by nothing otherwise |
| `Interleaving.EveryInterleaving` | hub/review_bingo_hub/services/job_service.py:261-396 | under every interleaving of leases, releases, deletes and other requests the tables stay sound, and every job, enqueued on the way or not, has its attempts up by exactly its committed leases |
| `Interleaving.NoJobInTwoFlights` | hub/review_bingo_hub/services/job_service.py:328-384 | no row is ever held by two lease transactions in flight |
| `Interleaving.AloneIsAtomic` | hub/review_bingo_hub/services/job_service.py:305-384 | a lease transaction nobody overlaps, polled or named, is exactly the one step of the machine |
| `Interleaving.RevocationUninterrupted` | hub/review_bingo_hub/api/clients.py:243-276 | a release followed at once by its delete, with no lease of the client open, is exactly the one revoke step, whatever else is open |
| `Stranding.InvariantUnlessStranded` | hub/review_bingo_hub/api/clients.py:271-276 | the whole table invariant holds all along an interleaving if and only if no delete in it meets a lease of its client that the release did not release |
| `Stranding.OnlyLateLeasesAreOverlooked` | hub/review_bingo_hub/api/clients.py:271-276 | all a delete can meet is a lease of its client that committed after the release |
| `Stranding.QuietRevocationsStrandNothing` | hub/review_bingo_hub/api/clients.py:271-276 | if no client's lease commits between its release and its delete, the invariant holds all along |
| `Stranding.RaceStrands` | hub/review_bingo_hub/api/clients.py:274-276 | with the client's lease request open at the release, the invariant survives the revocation if and only if that request picked no job; the picked job is left LEASED to nobody |
| `Stranding.RevocationCanStrand` | hub/review_bingo_hub/api/clients.py:274-276 | the failing interleaving, reached from the empty hub |
| `Stranding.StrandedUntilExpiry` | hub/review_bingo_hub/services/job_service.py:255-258 | a job left LEASED to nobody stays so until its lease runs out, and the first committed sweep after that frees it |
| `RepoAccessReader.Paginate` | hub/review_bingo_hub/services/github_identity_service.py:355-379 | returns all N items in order after floor(N / 100) + 1 requests, or the failure of the first page that fails |
| `RepoAccessReader.MergeInstallation` | hub/review_bingo_hub/services/github_identity_service.py:190-211 | the inner loop adds one installation's repos to the merge so far |
| `RepoAccessReader.GetRepoAccess` | hub/review_bingo_hub/services/github_identity_service.py:153-212 | each name this App's installations report, once, in first-seen order: admin if any report says admin, else write if any says push or maintain, else read; it fails exactly if a walk it has to make does, with the first failure met |
| `RepoAccessReader.MergeIsUnion` | hub/review_bingo_hub/services/github_identity_service.py:153-212 | what the merge loop builds is that union, from GitHub's own booleans |
| `RepoAccessReader.MergeIsUnique` | hub/review_bingo_hub/services/github_identity_service.py:179-212 | each name once, in first-seen order, at its strongest permission: at most one list fits that description |
| `RepoAccessReader.MergeFitsSnapshot` | hub/review_bingo_hub/models/github_identity.py:109-111 | what the read returns never breaks the snapshot's unique key |
| `EventBus.WithoutKeeps` | hub/review_bingo_hub/core/event_bus.py:119-122 | leaving removes that subscription and keeps every other, once each |
| `EventBus.Bus.Subscribe` | hub/review_bingo_hub/core/event_bus.py:92-117 | refused exactly at the cap; otherwise a fresh stream is added last, and the bus is what its history of uses says |
| `EventBus.Bus.Unsubscribe` | hub/review_bingo_hub/core/event_bus.py:119-122 | idempotent removal of one stream, and the bus is what its history of uses says |
| `EventBus.Bus.Publish` | hub/review_bingo_hub/core/event_bus.py:124-159 | every queue gains the event exactly if its stream can see the repo now and it has room; a failing or full one stops nobody |
| `EventBus.Subscription.Take` | hub/review_bingo_hub/core/event_bus.py:63-78 | a stream takes its oldest queued event |
| `EventBus.AlwaysBounded` | hub/review_bingo_hub/core/event_bus.py:81-117 | after any uses the cap holds, no stream is listed twice and no queue exceeds its bound |
| `EventBus.Bus.StaysWithinBounds` | hub/review_bingo_hub/core/event_bus.py:81-117 | the bus object itself is within its cap and its queues within their bound after any uses |
| `EventBus.DeliveryIsInOrder` | hub/review_bingo_hub/core/event_bus.py:124-159 | received plus queued is an in-order part of what was published while the stream was open and could reach the repo |
| `EventBus.OnlyFullQueuesDrop` | hub/review_bingo_hub/core/event_bus.py:124-159 | what a stream was given plus what met a full queue is everything it could see |
| `EventBus.DeliveredWasAllowed` | hub/review_bingo_hub/core/event_bus.py:143-147 | everything a stream received or has queued was published while it was open, with a re-read for it that was unscoped or contained the repo |
| `EventBus.PublishIsDecided` | hub/review_bingo_hub/core/event_bus.py:143-147 | a publish is queued for a stream if and only if it is open, its re-read allows the repo and there is room |
| `EventBus.JoiningAndLeaving` | hub/review_bingo_hub/core/event_bus.py:92-122 | a stream joins exactly while there are fewer than the cap, last and empty; leaving takes it and no other off the walk |
| `EventBus.StreamsAreIsolated` | hub/review_bingo_hub/core/event_bus.py:124-159 | how other streams read, fill or fail changes nothing one stream is given |
| `PublishOverlap.AloneIsPublishing` | hub/review_bingo_hub/core/event_bus.py:124-159 | a publish nothing comes between, one stream and one read at a time, is the one use of the bus |
| `PublishOverlap.OverlapStaysBounded` | hub/review_bingo_hub/core/event_bus.py:81-159 | the cap and the queue bounds hold however publishes overlap |
| `PublishOverlap.OverlapDeliveredWasAllowed` | hub/review_bingo_hub/core/event_bus.py:143-147 | the same however publishes overlap: the stream was open when the publish started, and the re-read made for it allowed the repo |
| `PublishOverlap.OfferIsDecided` | hub/review_bingo_hub/core/event_bus.py:143-147 | an offer is queued if and only if its re-read allows the repo and there is room |
| `PublishOverlap.DeliveredIsGiven` | hub/review_bingo_hub/core/event_bus.py:143-147 | however publishes overlap, a stream holds exactly the events it was given, each publish at most once, in the order it was given them |
| `PublishOverlap.SerialArrivesInOrder` | hub/review_bingo_hub/core/event_bus.py:143-147 | publishes that do not overlap reach every stream in the order they start |
| `PublishOverlap.OrderIsExact` | hub/review_bingo_hub/core/event_bus.py:143-147 | a stream with room goes on hearing in start order, however the publishes under way proceed, if and only if at most one of them has it still to reach |
| `Credentials.ClientState.PersistGithubTokens` | client/bingo_client.py:431-447 | the four keys are cleared, rewritten unless opted out, and the file saved |
| `Credentials.PersistReplaces` | client/bingo_client.py:431-447 | after a persist exactly the given set is stored, or none of the keys if opted out, every other key unchanged |
| `Credentials.ReadBack` | client/bingo_client.py:186-208 | a stored set reads back as itself if and only if its access token is not empty, and as nothing if and only if it is |
| `Credentials.GrantReadsBack` | client/bingo_client.py:176-208 | what GitHub grants, in either of its shapes, reads back as stored if and only if its access token is not empty |
| `Credentials.GrantIsRead` | client/bingo_client.py:176-184 | a grant is read field by field: an empty refresh token is none, an expiry is that many seconds after its issue |
| `Credentials.LoginWrites` | client/bingo_client.py:501-519 | what a login leaves in the file, key by key: the opt-out marker, or what GitHub issued |
| `Credentials.RenewalIsDecided` | client/bingo_client.py:394-428 | the stored access token is spent while it lives; only then GitHub is asked, with a refresh token that lives and the App's id; else nothing |
| `Credentials.EmptyTokenIsLost` | client/bingo_client.py:186-208 | the failing input: an empty access token is written but reads as no credentials |
| `Credentials.DiskIsItsHistory` | client/bingo_client.py:431-559 | after any commands the file, and every running process, holds the last accepted set or none by the choice, and beside the keys, of the enrolment whose dict it carries on |
| `Credentials.CurrentMeansLastEnrolment` | client/bingo_client.py:479-559 | the file shows the last accepted set beside the last enrolment's keys and choice if and only if it carries on that enrolment |
| `Credentials.FileHoldsLastAccepted` | client/bingo_client.py:594-618 | it does so after every command if and only if no accepted renewal is by a process that started before an enrolment accepted in the meantime |
| `Credentials.LoopUndoesLogin` | client/bingo_client.py:770-774 | the failing input: a loop started before a `login --no-store-github-token` writes the old hub token and live credentials back, marker gone |
| `Credentials.NonExpiringRenewsForever` | client/bingo_client.py:394-428 | a token without an expiry renews itself at every later moment, without a client id or a refresh |
| `ClientLoop.ReattestViaCheckIn` | client/bingo_client.py:594-618 | tokens are persisted only after the hub accepted them; an unnamed TTL keeps the known one |
| `ClientLoop.RecoverFromLeaseConflict` | client/bingo_client.py:646-677 | a heartbeat before the first check-in, a renewal after it, an exit when nothing renews |
| `ClientLoop.RenewOnSchedule` | client/bingo_client.py:719-738 | a due renewal records its attempt whatever comes of it |
| `ClientLoop.RunLoop` | client/bingo_client.py:680-767 | over any rounds the loop's variables, stored entries and log are the fold of one round function, and it stops early only by ending |
| `ClientLoop.StoppedStaysStopped` | client/bingo_client.py:672-677 | an ended loop does nothing more |
| `Pacing.AttemptIsRemembered` | client/bingo_client.py:719-734 | the last attempt's clock never goes back behind an earlier renewal |
| `Pacing.RenewalsAreHalfTtlApart` | client/bingo_client.py:621-638 | for any hub answers and a monotone clock, scheduled renewals are at least half the TTL in force apart |
| `Pacing.RenewalsAreBounded` | client/bingo_client.py:621-638 | at a constant TTL a run makes at most 1 + floor(2 * elapsed / TTL) scheduled renewals |
| `Pacing.OneRenewalBeforeTtl` | client/bingo_client.py:621-638 | at most one renewal before any TTL is learned, and none without stored credentials |
| `Pacing.LogTellsTheRound` | client/bingo_client.py:719-767 | of every round: when it attempts a renewal, and when it sleeps before the next |
| `Pacing.RoundIsDecided` | client/bingo_client.py:719-764 | what a round leaves of each variable: it ends the loop exactly when the hub is lost or a conflict cannot be answered, remembers an attempt whatever comes of it, and keeps tokens exactly when the hub took them |
| `Pacing.LoginAgainMeansUnanswered` | client/bingo_client.py:672-677 | a run ends by asking for a login if and only if some round met a conflict after a check-in with nothing to answer it |
| `Pacing.UnansweredConflictEnds` | client/bingo_client.py:646-677 | with nothing to renew from, stored or obtainable, when the renewals and the recovery are tried, a hub that always answers 409 ends the loop at its second lease |
| `LoopOnHub.DrivenLoopIsTheLoop` | client/bingo_client.py:680-767 | the loop composed with the hub is the same loop, on the rounds the hub gave it |
| `LoopOnHub.NoLeaseIsRefusedStale` | hub/review_bingo_hub/services/identity_service.py:197-205 | in any length of run, as long as each latency is within the TTL behind a renewal just made, and otherwise within half of it less the gap, every lease is granted or finds the queue dry |
| `LoopOnHub.HalfTtlSuffices` | client/bingo_client.py:621-638 | as long as no report is refused, half the TTL from due check to lease is enough by itself |
| `LatencyBudget.RoomIsExact` | hub/review_bingo_hub/services/identity_service.py:197-205 | from any point, with a credential of either shape that renews until a lease can be stale, every calm round within a latency is answered if and only if there is room for that latency |
| `LatencyBudget.HalfTtlIsExact` | client/bingo_client.py:621-638 | from any point, half the TTL is always enough if and only if a renewal is due already, or the attempt is dated at most one microsecond after the snapshot, or the credential runs out before a lease can be stale |
| `LatencyBudget.RoomIsExactInRuns` | client/bingo_client.py:719-764 | the same after any driven run: the next lease is always answered exactly when the run's last gap leaves room |
| `LatencyBudget.GrantKeepsRenewing` | client/bingo_client.py:176-208 | what GitHub issued keeps renewing up to a moment if and only if its access token lives that long, or its refresh token does and the client knows the App |
| `DrivenPacing.DrivenRoundsAreInOrder` | client/bingo_client.py:680-767 | the rounds of any driven run are on one clock and name one TTL |
| `DrivenPacing.DrivenRenewalsAreBounded` | client/bingo_client.py:621-638 | driven against the hub, whatever it answers, a loop makes at most 1 + floor(2 * elapsed / TTL) scheduled renewals |
| `LagMatters.HalfTtlIsNotEnough` | client/bingo_client.py:758-764 | a concrete run that meets half the TTL in every round and still has its second lease refused as stale |

## Left out

- Attestation.EveryLeaseIsAttested: speaks of github mode; dev mode has no accounts, and there the access and freshness gates are open by design.
- LoopOnHub.NoLeaseIsRefusedStale: assumes one clock, GitHub reachable, a credential that renews, and no outside check-out or revocation.
- Lifecycle.BoundIsReached: the witness run is a dev-mode one with a single job and client.
- Interleaving.EveryInterleaving: requests other than leases and accepted revocations are one step each, which waits while it has to change a row somebody holds. The row objects a request loaded before it locked (its client's, and the named job's) are taken to be reloaded under the lock, as primitives of the mapper; on an object that is not, `attempts += 1` would count from the value first read. A deadlock the database breaks by aborting one side is an abort here.
- Credentials.FileHoldsLastAccepted: each save of the file is one step; that hub tokens are never minted twice is an assumption.
- HubSession.Session.CheckInEndpoint: `last_seen_at` is not modelled, here or in any other member.
- HubSession.Session.CheckOutEndpoint: the same.
- HubSession.Session.LeaseJobEndpoint: the `last_seen_at` write of `touch_client` is not modelled; nothing in dispatch reads it.
- HubSession.Session.LeaseSpecificJobEndpoint: the same.
- HubSession.Session.ReportJobEndpoint: the same.
- HubSession.Session.RegisterEndpoint: the minted token, and the columns that are only displayed, are not modelled.
- HubSession.Session.SignInEndpoint: the dashboard session it mints is not modelled; what matters of one is `Credential.SessionOf`.
- HubSession.Session.LeaseNextJob: rows are values held in the session's tables; two references to one mapped row object, and the flushes inside a transaction, are not captured. Enqueue's read-then-insert and report's read-then-write are taken as atomic.
- EventBus.Bus.Publish: the method runs without interruption; publishes that overlap are modelled on values, in `PublishOverlap`.
- RepoAccessReader.Paginate: the collection does not change while it is walked.
- Credentials.ReadBack: ISO text is a primitive that parses back to the moment it was written for; a hand-edited state file is not modelled.
- Strategy vocabulary validation, which runs before a payload reaches these steps.
- `last_seen_at` and the client columns that are only displayed (name, provider, quantization, runtime), and the roster.
- Dashboard sessions, except as a credential that speaks for an identity.
- HTTP, routing, payload parsing, status texts and logging; refusals are result constructors.
- The database engine and its migrations: set-oriented UPDATE, SET NULL, unique keys, rollback and SKIP LOCKED are primitives with their usual meaning.
- Token minting, hashing, webhook signatures and JWT verification.
- GitHub's API and the device-flow exchange beyond what they answer; the relay's own HTTP call.
- Refresh tokens lost when the hub refuses a check-in after GitHub rotated them, and idling through a GitHub outage: the code promises nothing there.
- Running reviewers and their subprocesses, the MCP wrapper, the dashboard page, stream framing and heartbeats.
- Organizations, memberships, users, documents, storage providers, activity log, metrics and pagination settings: record keeping that adds only easy members.
