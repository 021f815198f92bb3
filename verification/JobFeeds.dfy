/**
 What a read returns: exactly the jobs in reach that pass the filters, newest first, one page of them.
 */
module JobFeeds {
  import opened Models
  import opened Dispatch
  import opened LiveLease

  /** In reach, and with the state and the repo asked for. */
  predicate Shown(cfg: Settings, db: Db, identity: Option<IdentityId>, filters: JobFilters, id: JobId) {
    && id in db.jobs
    && InReach(cfg, db, identity, db.jobs[id].spec.repo)
    && (filters.state == None || db.jobs[id].state == filters.state.value)
    && (filters.repo == None || db.jobs[id].spec.repo == filters.repo.value)
  }

  predicate NewestFirst(ids: seq<JobId>) {
    forall i, k | 0 <= i < k < |ids| :: ids[i] > ids[k]
  }

  lemma {:induction false} FeedIsDescending(cfg: Settings, db: Db, identity: Option<IdentityId>, filters: JobFilters, bound: nat)
    ensures var feed := FeedBelow(cfg, db, identity, filters, bound);
            && (forall id: JobId :: id in feed <==> id < bound && Shown(cfg, db, identity, filters, id))
            && NewestFirst(feed)
  {
    if bound == 0 {
    } else {
      FeedIsDescending(cfg, db, identity, filters, bound - 1);
      if bound - 1 in db.jobs {
        ReachInColumns(cfg, db, identity, db.jobs[bound - 1].spec.repo);
      }
      var rest := FeedBelow(cfg, db, identity, filters, bound - 1);
      forall k | 0 <= k < |rest|
        ensures rest[k] < bound - 1
      {
        assert rest[k] in rest;
      }
    }
  }

  /**
   The feed is one page of the full list: the jobs shown and no other, each once, latest created first; the
   page starts at the offset and is cut at the limit.
   */
  lemma FeedIsAPage(cfg: Settings, db: Db, identity: Option<IdentityId>, filters: JobFilters) returns (full: seq<JobId>)
    requires forall id | id in db.jobs :: id < db.nextJob
    ensures forall id: JobId :: id in full <==> Shown(cfg, db, identity, filters, id)
    ensures NewestFirst(full)
    ensures var feed := JobFeed(cfg, db, identity, filters);
            && (forall i | 0 <= i < |feed| :: filters.offset + i < |full| && feed[i] == full[filters.offset + i])
            && |feed| <= filters.limit
            && (|feed| < filters.limit ==> |full| <= filters.offset + |feed|)
  {
    full := FeedBelow(cfg, db, identity, filters, db.nextJob);
    FeedIsDescending(cfg, db, identity, filters, db.nextJob);
  }

  /** One job is found if and only if it exists and is in reach. */
  lemma FoundIfInReach(cfg: Settings, db: Db, identity: Option<IdentityId>, id: JobId)
    ensures VisibleJob(cfg, db, identity, id)
         == if id in db.jobs && InReach(cfg, db, identity, db.jobs[id].spec.repo) then Some(db.jobs[id]) else None
  {
    if id in db.jobs {
      ReachInColumns(cfg, db, identity, db.jobs[id].spec.repo);
    }
  }
}
