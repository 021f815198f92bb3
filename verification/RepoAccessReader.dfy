/**
 Reading a GitHub account's repo access: walking GitHub's paged collections and merging the repos of
 this App's installations, each name once, at the strongest permission any of them reported.
 */
module RepoAccessReader {
  import opened Models
  import HubMachine

  const PAGE_SIZE: nat := 100

  /** GitHub's own failure, or its refusal of the credential. A malformed envelope counts as the latter. */
  datatype Fault = RefusedByGithub | GithubUnavailable

  datatype Reply<+T> = Ok(value: T) | Failed(fault: Fault)

  /** A collection behind a paged endpoint, and the page (from 1) whose request goes wrong, if any. */
  datatype Collection<T> = Collection(items: seq<T>, failing: Option<(nat, Fault)>) {
    /** One GET. Pages past the end are empty. */
    function Fetch(page: nat): Reply<seq<T>>
      requires page >= 1
    {
      if failing.Some? && failing.value.0 == page then Failed(failing.value.1)
      else
        var start := (page - 1) * PAGE_SIZE;
        if start >= |items| then Ok([])
        else if start + PAGE_SIZE >= |items| then Ok(items[start..])
        else Ok(items[start..start + PAGE_SIZE])
    }

    /** The requests a full walk makes: every full page, and the short one that ends it. */
    function Requests(): nat {
      |items| / PAGE_SIZE + 1
    }

    /** The failure a walk runs into, if its page is ever asked for. */
    function Trouble(): Option<Fault> {
      if failing.Some? && 1 <= failing.value.0 <= Requests() then Some(failing.value.1) else None
    }
  }

  /** Walk a collection to its first short page, never trusting a count. */
  method Paginate<T>(collection: Collection<T>) returns (reply: Reply<seq<T>>, requests: nat)
    ensures collection.Trouble().None? ==> reply == Ok(collection.items) && requests == collection.Requests()
    ensures collection.Trouble().Some? ==>
      reply == Failed(collection.Trouble().value) && requests == collection.failing.value.0
    ensures var full := |collection.items| / 100 + 1;
            if collection.failing.Some? && 1 <= collection.failing.value.0 <= full
            then requests == collection.failing.value.0 && reply == Failed(collection.failing.value.1)
            else requests == full && reply == Ok(collection.items)
  {
    var collected: seq<T> := [];
    var page := 1;
    requests := 0;
    while true
      invariant page >= 1 && requests == page - 1
      invariant (page - 1) * PAGE_SIZE <= |collection.items|
      invariant collected == collection.items[..(page - 1) * PAGE_SIZE]
      invariant collection.Trouble().Some? ==> page <= collection.failing.value.0
      decreases |collection.items| - |collected| + 1
    {
      var payload := collection.Fetch(page);
      requests := requests + 1;
      if payload.Failed? {
        return Failed(payload.fault), requests;
      }
      collected := collected + payload.value;
      if |payload.value| < PAGE_SIZE {
        assert |collection.items| / PAGE_SIZE == page - 1;
        assert collected == collection.items;
        return Ok(collected), requests;
      }
      page := page + 1;
    }
  }

  // ---- installations ----

  datatype Permissions = Permissions(admin: bool, maintain: bool, push: bool, triage: bool, pull: bool)

  datatype Repository = Repository(fullName: RepoName, permissions: Permissions)

  datatype Installation = Installation(appId: Option<string>, repositories: Collection<Repository>)

  /** Maintain counts as write: only GitHub's own admin is admin. */
  function CollapsePermissions(permissions: Permissions): PermissionLevel {
    if permissions.admin then Admin
    else if permissions.push || permissions.maintain then Write
    else Read
  }

  predicate IsOurApp(installation: Installation, appId: string) {
    installation.appId == Some(appId)
  }

  function Reported(repository: Repository): RepoAccess {
    RepoAccess(repository.fullName, CollapsePermissions(repository.permissions))
  }

  function ReportedBy(repositories: seq<Repository>): seq<RepoAccess> {
    seq(|repositories|, i requires 0 <= i < |repositories| => Reported(repositories[i]))
  }

  /** Everything this App's installations report, in the order GitHub reports it. */
  function Reports(installations: seq<Installation>, appId: string): seq<RepoAccess> {
    if installations == [] then []
    else
      var last := installations[|installations| - 1];
      Reports(installations[..|installations| - 1], appId)
      + (if IsOurApp(last, appId) then ReportedBy(last.repositories.items) else [])
  }

  /** The first failure met walking our installations in order. */
  function FirstTrouble(installations: seq<Installation>, appId: string): Option<Fault> {
    if installations == [] then None
    else
      var earlier := FirstTrouble(installations[..|installations| - 1], appId);
      var last := installations[|installations| - 1];
      if earlier.Some? then earlier
      else if IsOurApp(last, appId) then last.repositories.Trouble()
      else None
  }

  // ---- what a merge is ----

  predicate SeenBefore(reports: seq<RepoAccess>, first: RepoName, second: RepoName) {
    exists p | 0 <= p < |reports| :: reports[p].repo == first && forall q | 0 <= q <= p :: reports[q].repo != second
  }

  /** The strongest permission reported for a name. */
  predicate Strongest(reports: seq<RepoAccess>, name: RepoName, level: PermissionLevel) {
    && RepoAccess(name, level) in reports
    && forall access | access in reports && access.repo == name :: PermissionRank(access.permission) <= PermissionRank(level)
  }

  /** Each reported name once, in first-seen order, at its strongest permission, and nothing else. */
  ghost predicate IsMerge(reports: seq<RepoAccess>, merged: seq<RepoAccess>) {
    && DistinctNames(merged)
    && NamesOf(merged) == NamesOf(reports)
    && (forall access | access in merged :: Strongest(reports, access.repo, access.permission))
    && (forall i, k | 0 <= i < k < |merged| :: SeenBefore(reports, merged[i].repo, merged[k].repo))
  }

  /** The loop's two variables after a prefix of the reports. */
  ghost predicate Tracks(reports: seq<RepoAccess>, merged: map<RepoName, PermissionLevel>, order: seq<RepoName>) {
    && merged.Keys == NamesOf(reports)
    && (forall name :: name in order <==> name in merged)
    && (forall i, k | 0 <= i < k < |order| :: order[i] != order[k])
    && (forall name | name in merged :: Strongest(reports, name, merged[name]))
    && (forall i, k | 0 <= i < k < |order| :: SeenBefore(reports, order[i], order[k]))
  }

  lemma NamesExtend(reports: seq<RepoAccess>, access: RepoAccess)
    ensures NamesOf(reports + [access]) == NamesOf(reports) + {access.repo}
  {
  }

  lemma SeenStays(reports: seq<RepoAccess>, access: RepoAccess, first: RepoName, second: RepoName)
    requires SeenBefore(reports, first, second)
    ensures SeenBefore(reports + [access], first, second)
  {
    var p :| 0 <= p < |reports| && reports[p].repo == first && forall q | 0 <= q <= p :: reports[q].repo != second;
    assert (reports + [access])[p].repo == first;
  }

  lemma SeenBeforeNewcomer(reports: seq<RepoAccess>, access: RepoAccess, first: RepoName)
    requires first in NamesOf(reports) && access.repo !in NamesOf(reports)
    ensures SeenBefore(reports + [access], first, access.repo)
  {
    var seen :| seen in reports && seen.repo == first;
    var p :| 0 <= p < |reports| && reports[p] == seen;
    assert (reports + [access])[p].repo == first;
    forall q | 0 <= q <= p
      ensures (reports + [access])[q].repo != access.repo
    {
      assert reports[q] in reports;
    }
  }

  lemma StrongestExtends(reports: seq<RepoAccess>, access: RepoAccess, name: RepoName, level: PermissionLevel)
    requires Strongest(reports, name, level)
    ensures Strongest(reports + [access], name,
      if access.repo == name then HighestPermission(level, access.permission) else level)
  {
  }

  lemma StrongestOfOne(reports: seq<RepoAccess>, access: RepoAccess)
    requires access.repo !in NamesOf(reports)
    ensures Strongest(reports + [access], access.repo, access.permission)
  {
  }

  lemma OrderStays(reports: seq<RepoAccess>, merged: map<RepoName, PermissionLevel>, order: seq<RepoName>, access: RepoAccess)
    requires Tracks(reports, merged, order)
    ensures forall i, k | 0 <= i < k < |order| :: SeenBefore(reports + [access], order[i], order[k])
  {
    forall i, k | 0 <= i < k < |order|
      ensures SeenBefore(reports + [access], order[i], order[k])
    {
      SeenStays(reports, access, order[i], order[k]);
    }
  }

  /** One turn of the merge loop, on a name already listed. */
  lemma KnownNameTurn(reports: seq<RepoAccess>, merged: map<RepoName, PermissionLevel>, order: seq<RepoName>, access: RepoAccess)
    requires Tracks(reports, merged, order) && access.repo in merged
    ensures Tracks(reports + [access], merged[access.repo := HighestPermission(merged[access.repo], access.permission)], order)
  {
    NamesExtend(reports, access);
    OrderStays(reports, merged, order, access);
    var after := merged[access.repo := HighestPermission(merged[access.repo], access.permission)];
    forall name | name in after
      ensures Strongest(reports + [access], name, after[name])
    {
      StrongestExtends(reports, access, name, merged[name]);
    }
  }

  /** One turn of the merge loop, on a name met for the first time. */
  lemma NewNameTurn(reports: seq<RepoAccess>, merged: map<RepoName, PermissionLevel>, order: seq<RepoName>, access: RepoAccess)
    requires Tracks(reports, merged, order) && access.repo !in merged
    ensures Tracks(reports + [access], merged[access.repo := access.permission], order + [access.repo])
  {
    NamesExtend(reports, access);
    OrderStays(reports, merged, order, access);
    StrongestOfOne(reports, access);
    var after, listed := merged[access.repo := access.permission], order + [access.repo];
    forall name | name in merged
      ensures Strongest(reports + [access], name, after[name])
    {
      StrongestExtends(reports, access, name, merged[name]);
    }
    forall i, k | 0 <= i < k < |listed|
      ensures listed[i] != listed[k] && SeenBefore(reports + [access], listed[i], listed[k])
    {
      assert order[i] in order;
      if k == |order| {
        SeenBeforeNewcomer(reports, access, order[i]);
      }
    }
  }

  function Listing(order: seq<RepoName>, merged: map<RepoName, PermissionLevel>): seq<RepoAccess>
    requires forall name | name in order :: name in merged
  {
    seq(|order|, i requires 0 <= i < |order| => RepoAccess(order[i], merged[order[i]]))
  }

  lemma ListingIsMerge(reports: seq<RepoAccess>, merged: map<RepoName, PermissionLevel>, order: seq<RepoName>)
    requires Tracks(reports, merged, order)
    ensures IsMerge(reports, Listing(order, merged))
  {
    var listed := Listing(order, merged);
    forall name
      ensures name in NamesOf(listed) <==> name in order
    {
      if name in order {
        var i :| 0 <= i < |order| && order[i] == name;
        assert listed[i] in listed && listed[i].repo == name;
      }
    }
  }

  // ---- the same, from GitHub's own booleans ----

  /** Repository `m` of installation `n` is one of this App's, and has this name. */
  predicate Names(all: seq<Installation>, appId: string, n: nat, m: nat, name: RepoName) {
    && n < |all| && m < |all[n].repositories.items|
    && all[n].appId == Some(appId) && all[n].repositories.items[m].fullName == name
  }

  ghost predicate SomeNames(all: seq<Installation>, appId: string, name: RepoName) {
    exists n: nat, m: nat :: Names(all, appId, n, m, name)
  }

  ghost predicate SomeAdmin(all: seq<Installation>, appId: string, name: RepoName) {
    exists n: nat, m: nat :: Names(all, appId, n, m, name) && all[n].repositories.items[m].permissions.admin
  }

  ghost predicate SomeWriter(all: seq<Installation>, appId: string, name: RepoName) {
    exists n: nat, m: nat :: Names(all, appId, n, m, name)
      && (all[n].repositories.items[m].permissions.push || all[n].repositories.items[m].permissions.maintain)
  }

  /** The one place comes before the other in the order GitHub reports them. */
  predicate Precedes(n: nat, m: nat, n': nat, m': nat) {
    n < n' || (n == n' && m < m')
  }

  /**
   Exactly the names this App's installations report, each once: admin if any of them says admin, else write
   if any says push or maintain, else read; and a name listed later is first reported after one listed earlier.
   */
  ghost predicate IsUnion(all: seq<Installation>, appId: string, merged: seq<RepoAccess>) {
    && (forall i, k | 0 <= i < k < |merged| :: merged[i].repo != merged[k].repo)
    && (forall name :: SomeNames(all, appId, name) <==> exists i :: 0 <= i < |merged| && merged[i].repo == name)
    && (forall i | 0 <= i < |merged| ::
          merged[i].permission
          == if SomeAdmin(all, appId, merged[i].repo) then Admin
             else if SomeWriter(all, appId, merged[i].repo) then Write
             else Read)
    && (forall i, k | 0 <= i < k < |merged| :: FirstSeenEarlier(all, appId, merged[i].repo, merged[k].repo))
  }

  ghost predicate FirstSeenEarlier(all: seq<Installation>, appId: string, first: RepoName, second: RepoName) {
    exists n: nat, m: nat :: Names(all, appId, n, m, first)
      && forall n': nat, m': nat :: Names(all, appId, n', m', second) ==> Precedes(n, m, n', m')
  }

  /** Where each report stands: its installation and its place there. */
  lemma {:induction false} ReportAt(all: seq<Installation>, appId: string, p: nat) returns (n: nat, m: nat)
    requires p < |Reports(all, appId)|
    ensures n < |all| && m < |all[n].repositories.items| && all[n].appId == Some(appId)
    ensures Reported(all[n].repositories.items[m]) == Reports(all, appId)[p]
    ensures p == |Reports(all[..n], appId)| + m
  {
    var last := |all| - 1;
    if p < |Reports(all[..last], appId)| {
      n, m := ReportAt(all[..last], appId, p);
      assert all[..last][..n] == all[..n];
    } else {
      n, m := last, p - |Reports(all[..last], appId)|;
    }
  }

  lemma {:induction false} ReportsGrow(all: seq<Installation>, appId: string, n: nat, k: nat)
    requires n <= k <= |all|
    ensures |Reports(all[..n], appId)| <= |Reports(all[..k], appId)|
    ensures Reports(all[..n], appId) == Reports(all[..k], appId)[..|Reports(all[..n], appId)|]
    decreases k - n
  {
    if n < k {
      ReportsGrow(all, appId, n, k - 1);
      assert all[..k][..k - 1] == all[..k - 1];
    }
  }

  /** And each such place is in the reports, after every report of an earlier place. */
  lemma PlaceOf(all: seq<Installation>, appId: string, n: nat, m: nat)
    requires n < |all| && m < |all[n].repositories.items| && all[n].appId == Some(appId)
    ensures |Reports(all[..n], appId)| + m < |Reports(all, appId)|
    ensures Reports(all, appId)[|Reports(all[..n], appId)| + m] == Reported(all[n].repositories.items[m])
  {
    assert all[..n + 1][..n] == all[..n];
    assert all[..|all|] == all;
    ReportsGrow(all, appId, n + 1, |all|);
    var through := Reports(all[..n + 1], appId);
    assert through == Reports(all[..n], appId) + ReportedBy(all[n].repositories.items);
    assert through[|Reports(all[..n], appId)| + m] == Reported(all[n].repositories.items[m]);
  }

  lemma PlacesAreOrdered(all: seq<Installation>, appId: string, n: nat, m: nat, n': nat, m': nat)
    requires n < |all| && m < |all[n].repositories.items| && all[n].appId == Some(appId)
    requires n' < |all| && m' < |all[n'].repositories.items| && all[n'].appId == Some(appId)
    ensures |Reports(all[..n], appId)| + m < |Reports(all[..n'], appId)| + m' <==> Precedes(n, m, n', m')
  {
    if n < n' {
      NextInstallation(all, appId, n, n');
    } else if n' < n {
      NextInstallation(all, appId, n', n);
    }
  }

  lemma NextInstallation(all: seq<Installation>, appId: string, n: nat, k: nat)
    requires n < k <= |all| && all[n].appId == Some(appId)
    ensures |Reports(all[..n], appId)| + |all[n].repositories.items| <= |Reports(all[..k], appId)|
  {
    assert all[..n + 1][..n] == all[..n];
    ReportsGrow(all, appId, n + 1, k);
  }

  lemma NamedReport(all: seq<Installation>, appId: string, n: nat, m: nat, name: RepoName)
    requires Names(all, appId, n, m, name)
    ensures RepoAccess(name, CollapsePermissions(all[n].repositories.items[m].permissions)) in Reports(all, appId)
    ensures name in NamesOf(Reports(all, appId))
  {
    PlaceOf(all, appId, n, m);
    var access := Reported(all[n].repositories.items[m]);
    assert access in Reports(all, appId) && access.repo == name;
  }

  lemma ReportIsNamed(all: seq<Installation>, appId: string, access: RepoAccess) returns (n: nat, m: nat)
    requires access in Reports(all, appId)
    ensures Names(all, appId, n, m, access.repo)
    ensures access.permission == CollapsePermissions(all[n].repositories.items[m].permissions)
  {
    var p :| 0 <= p < |Reports(all, appId)| && Reports(all, appId)[p] == access;
    n, m := ReportAt(all, appId, p);
  }

  /** Only GitHub's own admin is admin; maintaining is writing. */
  lemma CollapseIsDecided(permissions: Permissions)
    ensures CollapsePermissions(permissions) == Admin <==> permissions.admin
    ensures CollapsePermissions(permissions) == Write <==> !permissions.admin && (permissions.push || permissions.maintain)
    ensures CollapsePermissions(permissions) == Read <==> !permissions.admin && !permissions.push && !permissions.maintain
    ensures PermissionRank(Read) < PermissionRank(Write) < PermissionRank(Admin)
  {
  }

  /** The strongest report of a name is admin if any is, else write if any is above read. */
  lemma StrongestIsRaw(all: seq<Installation>, appId: string, name: RepoName, level: PermissionLevel)
    requires Strongest(Reports(all, appId), name, level)
    ensures level == if SomeAdmin(all, appId, name) then Admin else if SomeWriter(all, appId, name) then Write else Read
  {
    var n, m := ReportIsNamed(all, appId, RepoAccess(name, level));
    CollapseIsDecided(all[n].repositories.items[m].permissions);
    if SomeAdmin(all, appId, name) {
      var i: nat, k: nat :| Names(all, appId, i, k, name) && all[i].repositories.items[k].permissions.admin;
      NamedReport(all, appId, i, k, name);
      CollapseIsDecided(all[i].repositories.items[k].permissions);
      assert RepoAccess(name, Admin) in Reports(all, appId);
    } else if SomeWriter(all, appId, name) {
      var i: nat, k: nat :| Names(all, appId, i, k, name)
        && (all[i].repositories.items[k].permissions.push || all[i].repositories.items[k].permissions.maintain);
      NamedReport(all, appId, i, k, name);
      CollapseIsDecided(all[i].repositories.items[k].permissions);
      assert RepoAccess(name, Write) in Reports(all, appId);
    }
  }

  lemma SeenBeforeIsRaw(all: seq<Installation>, appId: string, first: RepoName, second: RepoName)
    requires SeenBefore(Reports(all, appId), first, second)
    ensures FirstSeenEarlier(all, appId, first, second)
  {
    var reports := Reports(all, appId);
    var p :| 0 <= p < |reports| && reports[p].repo == first && forall q | 0 <= q <= p :: reports[q].repo != second;
    var n, m := ReportAt(all, appId, p);
    forall n': nat, m': nat | Names(all, appId, n', m', second)
      ensures Precedes(n, m, n', m')
    {
      PlaceOf(all, appId, n', m');
      PlacesAreOrdered(all, appId, n, m, n', m');
    }
    assert Names(all, appId, n, m, first);
  }

  lemma MergeIsUnion(all: seq<Installation>, appId: string, merged: seq<RepoAccess>)
    requires IsMerge(Reports(all, appId), merged)
    ensures IsUnion(all, appId, merged)
  {
    forall name
      ensures SomeNames(all, appId, name) <==> exists i :: 0 <= i < |merged| && merged[i].repo == name
    {
      UnionNames(all, appId, merged, name);
    }
    forall i | 0 <= i < |merged|
      ensures merged[i].permission
           == if SomeAdmin(all, appId, merged[i].repo) then Admin
              else if SomeWriter(all, appId, merged[i].repo) then Write
              else Read
    {
      assert merged[i] in merged;
      StrongestIsRaw(all, appId, merged[i].repo, merged[i].permission);
    }
    forall i, k | 0 <= i < k < |merged|
      ensures FirstSeenEarlier(all, appId, merged[i].repo, merged[k].repo)
    {
      SeenBeforeIsRaw(all, appId, merged[i].repo, merged[k].repo);
    }
  }

  lemma UnionNames(all: seq<Installation>, appId: string, merged: seq<RepoAccess>, name: RepoName)
    requires NamesOf(merged) == NamesOf(Reports(all, appId))
    ensures SomeNames(all, appId, name) <==> exists i :: 0 <= i < |merged| && merged[i].repo == name
  {
    if SomeNames(all, appId, name) {
      var n: nat, m: nat :| Names(all, appId, n, m, name);
      NamedReport(all, appId, n, m, name);
      assert name in NamesOf(merged);
      var access :| access in merged && access.repo == name;
    }
    if i :| 0 <= i < |merged| && merged[i].repo == name {
      assert merged[i] in merged;
      assert name in NamesOf(Reports(all, appId));
      var access :| access in Reports(all, appId) && access.repo == name;
      var n, m := ReportIsNamed(all, appId, access);
    }
  }

  lemma {:induction false} TroubleIsSome(all: seq<Installation>, appId: string)
    ensures FirstTrouble(all, appId).Some? <==>
      exists n | 0 <= n < |all| :: all[n].appId == Some(appId) && all[n].repositories.Trouble().Some?
    ensures FirstTrouble(all, appId).Some? ==>
      exists n | 0 <= n < |all| ::
        && all[n].appId == Some(appId) && all[n].repositories.Trouble() == FirstTrouble(all, appId)
        && forall m | 0 <= m < n && all[m].appId == Some(appId) :: all[m].repositories.Trouble().None?
  {
    if all == [] {
    } else {
      var before := all[..|all| - 1];
      TroubleIsSome(before, appId);
      assert forall n | 0 <= n < |before| :: before[n] == all[n];
      assert all[|all| - 1] in all;
    }
  }

  /** The inner loop: one installation's repositories, after the reports before them. */
  method MergeInstallation(ghost before: seq<RepoAccess>, repositories: seq<Repository>,
                           merged0: map<RepoName, PermissionLevel>, order0: seq<RepoName>)
    returns (merged: map<RepoName, PermissionLevel>, order: seq<RepoName>)
    requires Tracks(before, merged0, order0)
    ensures Tracks(before + ReportedBy(repositories), merged, order)
  {
    merged, order := merged0, order0;
    assert before + ReportedBy(repositories[..0]) == before;
    for m := 0 to |repositories|
      invariant Tracks(before + ReportedBy(repositories[..m]), merged, order)
    {
      var access := Reported(repositories[m]);
      ghost var reports := before + ReportedBy(repositories[..m]);
      assert before + ReportedBy(repositories[..m + 1]) == reports + [access];
      if access.repo in merged {
        KnownNameTurn(reports, merged, order, access);
        merged := merged[access.repo := HighestPermission(merged[access.repo], access.permission)];
      } else {
        NewNameTurn(reports, merged, order, access);
        merged := merged[access.repo := access.permission];
        order := order + [access.repo];
      }
    }
    assert repositories[..|repositories|] == repositories;
  }

  /** The outer loop, over every installation GitHub lists; only this App's are read. */
  method GetRepoAccess(installations: Collection<Installation>, appId: string) returns (reply: Reply<seq<RepoAccess>>)
    ensures installations.Trouble().Some? ==> reply == Failed(installations.Trouble().value)
    ensures installations.Trouble().None? && FirstTrouble(installations.items, appId).Some? ==>
      reply == Failed(FirstTrouble(installations.items, appId).value)
    ensures installations.Trouble().None? && FirstTrouble(installations.items, appId).None? ==>
      reply.Ok? && IsMerge(Reports(installations.items, appId), reply.value)
    ensures reply.Failed? <==>
      || installations.Trouble().Some?
      || exists n | 0 <= n < |installations.items| ::
           installations.items[n].appId == Some(appId) && installations.items[n].repositories.Trouble().Some?
    ensures reply.Ok? ==> IsUnion(installations.items, appId, reply.value)
  {
    var merged: map<RepoName, PermissionLevel> := map[];
    var order: seq<RepoName> := [];
    var listed, _ := Paginate(installations);
    if listed.Failed? {
      return Failed(listed.fault);
    }
    var all := listed.value;
    for n := 0 to |all|
      invariant FirstTrouble(all[..n], appId).None?
      invariant Tracks(Reports(all[..n], appId), merged, order)
    {
      assert all[..n + 1][..n] == all[..n];
      if !IsOurApp(all[n], appId) {
        assert Reports(all[..n + 1], appId) == Reports(all[..n], appId);
        continue;
      }
      var page, _ := Paginate(all[n].repositories);
      if page.Failed? {
        LaterTroubleIsMasked(all, n + 1, appId);
        TroubleIsSome(all, appId);
        return Failed(page.fault);
      }
      merged, order := MergeInstallation(Reports(all[..n], appId), page.value, merged, order);
    }
    assert all[..|all|] == all;
    ListingIsMerge(Reports(all, appId), merged, order);
    TroubleIsSome(all, appId);
    MergeIsUnion(all, appId, Listing(order, merged));
    reply := Ok(Listing(order, merged));
  }

  /** The first failure of a prefix is the first failure of the whole. */
  lemma {:induction false} LaterTroubleIsMasked(all: seq<Installation>, n: nat, appId: string)
    requires n <= |all| && FirstTrouble(all[..n], appId).Some?
    ensures FirstTrouble(all, appId) == FirstTrouble(all[..n], appId)
    decreases |all| - n
  {
    if n == |all| {
      assert all[..n] == all;
    } else {
      assert all[..n + 1][..n] == all[..n];
      LaterTroubleIsMasked(all, n + 1, appId);
    }
  }

  // ---- the merge is fully determined, and always fits the snapshot ----

  lemma {:induction false} SeenBeforeIsStrict(reports: seq<RepoAccess>, first: RepoName, second: RepoName)
    ensures !(SeenBefore(reports, first, second) && SeenBefore(reports, second, first))
  {
  }

  /** The description leaves no choice: names, order and permissions are all determined by the reports. */
  lemma MergeIsUnique(reports: seq<RepoAccess>, left: seq<RepoAccess>, right: seq<RepoAccess>)
    requires IsMerge(reports, left) && IsMerge(reports, right)
    ensures left == right
  {
    MergesAgreeBelow(reports, left, right, |left|);
    MergesAgreeBelow(reports, right, left, |right|);
  }

  lemma SamePermission(reports: seq<RepoAccess>, left: RepoAccess, right: RepoAccess)
    requires left.repo == right.repo
    requires Strongest(reports, left.repo, left.permission) && Strongest(reports, right.repo, right.permission)
    ensures left == right
  {
  }

  lemma {:induction false} MergesAgreeBelow(reports: seq<RepoAccess>, left: seq<RepoAccess>, right: seq<RepoAccess>, n: nat)
    requires IsMerge(reports, left) && IsMerge(reports, right) && n <= |left|
    ensures n <= |right| && left[..n] == right[..n]
  {
    if n == 0 {
    } else {
      MergesAgreeBelow(reports, left, right, n - 1);
      SameNameNext(reports, left, right, n - 1);
      assert left[n - 1] in left && right[n - 1] in right;
      SamePermission(reports, left[n - 1], right[n - 1]);
      assert left[..n] == left[..n - 1] + [left[n - 1]] && right[..n] == right[..n - 1] + [right[n - 1]];
    }
  }

  /** Listed later in one merge is seen later in the reports, so the other cannot list it earlier. */
  lemma SameNameNext(reports: seq<RepoAccess>, left: seq<RepoAccess>, right: seq<RepoAccess>, i: nat)
    requires IsMerge(reports, left) && IsMerge(reports, right)
    requires i < |left| && i <= |right| && left[..i] == right[..i]
    ensures i < |right| && left[i].repo == right[i].repo
  {
    var k := NameAt(reports, left, right, i);
    var m := NameAt(reports, right, left, i);
    SeenBeforeIsStrict(reports, left[i].repo, right[i].repo);
    LaterIsAfter(reports, right, i, k);
    LaterIsAfter(reports, left, i, m);
  }

  lemma LaterIsAfter(reports: seq<RepoAccess>, merged: seq<RepoAccess>, i: nat, k: nat)
    requires IsMerge(reports, merged) && i <= k < |merged|
    ensures i == k || SeenBefore(reports, merged[i].repo, merged[k].repo)
  {
  }

  lemma SameNames(reports: seq<RepoAccess>, left: seq<RepoAccess>, right: seq<RepoAccess>, access: RepoAccess)
    requires IsMerge(reports, left) && IsMerge(reports, right) && access in left
    ensures exists other :: other in right && other.repo == access.repo
  {
    assert access.repo in NamesOf(left);
    assert access.repo in NamesOf(right);
  }

  lemma NotAmongTheFirst(left: seq<RepoAccess>, right: seq<RepoAccess>, i: nat)
    requires DistinctNames(left) && i < |left| && i <= |right| && left[..i] == right[..i]
    ensures forall p | 0 <= p < i :: right[p].repo != left[i].repo
  {
  }

  /** Where the name at `i` of one merge stands in another that agrees with it below `i`. */
  lemma NameAt(reports: seq<RepoAccess>, left: seq<RepoAccess>, right: seq<RepoAccess>, i: nat) returns (k: nat)
    requires IsMerge(reports, left) && IsMerge(reports, right)
    requires i < |left| && i <= |right| && left[..i] == right[..i]
    ensures i <= k < |right| && right[k].repo == left[i].repo
  {
    SameNames(reports, left, right, left[i]);
    var access :| access in right && access.repo == left[i].repo;
    k :| 0 <= k < |right| && right[k] == access;
    NotAmongTheFirst(left, right, i);
  }

  /** Whatever is read this way is admitted by the snapshot's unique key. */
  lemma MergeFitsSnapshot(reports: seq<RepoAccess>, merged: seq<RepoAccess>, db: Db, now: Instant, userId: int, login: string)
    requires IsMerge(reports, merged)
    ensures HubMachine.ResolveToken(db, now, HubMachine.Account(userId, login, merged)).Admitted?
  {
  }
}
