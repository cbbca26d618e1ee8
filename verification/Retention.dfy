/** Garbage collection of old workflow records: events, sync jobs with their pages, terminal queue items with their
    memberships, and the budgets nobody refers to any more. */
module Retention {
  import opened Common
  import Q = Queue

  type EventId = nat
  type JobId = nat

  datatype CacheStatus = CacheCompleted | CacheFailed | CacheOther

  /** The columns of cache_entries that gc reads; both dates may be null. */
  datatype CacheRow = CacheRow(status: CacheStatus, requestedAt: Option<Time>, completedAt: Option<Time>)

  /** Handed-off jobs were left to workers by an asynchronous maintenance call. */
  datatype JobStatus = Terminal | HandedOff | Active

  /** A row of sync_jobs with its rows of sync_job_pages. */
  datatype Job = Job(status: JobStatus, completedAt: Option<Time>, budget: Option<BudgetId>, pages: set<CacheKey>)

  datatype Tables = Tables(events: map<EventId, Time>, jobs: map<JobId, Job>, cache: map<CacheKey, CacheRow>, queue: Q.Db)

  /** Rows by table: events, queue items, sync jobs, sync job pages. */
  datatype Counts = Counts(events: nat, items: nat, jobs: nat, pages: nat)

  // ------------------------------------------------------------------ what is old

  /** `date < cutoff` and `date >= cutoff` in SQL: unknown for a null date. */
  function Before(date: Option<Time>, cutoff: Time): Option<bool> {
    if date.None? then None else Some(date.value < cutoff)
  }

  function NotBefore(date: Option<Time>, cutoff: Time): Option<bool> {
    if date.None? then None else Some(date.value >= cutoff)
  }

  function Coalesce(x: Option<bool>, default: bool): bool { if x.Some? then x.value else default }

  /** A WHERE clause keeps the rows for which it is true, not those for which it is unknown. */
  predicate Holds(x: Option<bool>) { x == Some(true) }

  function CacheDate(row: CacheRow): Option<Time> {
    match row.status case CacheCompleted => row.completedAt case CacheFailed => row.requestedAt case CacheOther => None
  }

  function ItemDate(item: Q.Item): Option<Time> {
    match item.status case Completed => item.completedAt case Failed => Some(item.updatedAt) case _ => None
  }

  predicate TerminalItem(item: Q.Item) { item.status.Completed? || item.status.Failed? }

  predicate IsWorkOf(items: map<RequestId, Q.Item>, r: RequestId, key: CacheKey) {
    r in items && items[r].cacheKey == key
  }

  /** The subqueries of the filter, for the cache key of one page. */
  predicate NonExpiredCache(t: Tables, key: CacheKey, cutoff: Time) {
    key in t.cache && (t.cache[key].status.CacheOther? || Coalesce(NotBefore(CacheDate(t.cache[key]), cutoff), true))
  }

  predicate NonExpiredQueue(t: Tables, key: CacheKey, cutoff: Time) {
    exists r: RequestId :: r in t.queue.items && IsWorkOf(t.queue.items, r, key) && NonExpiredItem(t.queue.items[r], cutoff)
  }

  predicate NonExpiredItem(item: Q.Item, cutoff: Time) {
    !TerminalItem(item) || Coalesce(NotBefore(ItemDate(item), cutoff), true)
  }

  predicate TerminalCache(t: Tables, key: CacheKey, cutoff: Time) {
    key in t.cache && !t.cache[key].status.CacheOther? && Holds(Before(CacheDate(t.cache[key]), cutoff))
  }

  predicate TerminalQueue(t: Tables, key: CacheKey, cutoff: Time) {
    exists r: RequestId :: r in t.queue.items && IsWorkOf(t.queue.items, r, key)
      && TerminalItem(t.queue.items[r]) && Holds(Before(ItemDate(t.queue.items[r]), cutoff))
  }

  predicate Blocks(t: Tables, key: CacheKey, cutoff: Time) {
    || NonExpiredCache(t, key, cutoff)
    || NonExpiredQueue(t, key, cutoff)
    || (!TerminalCache(t, key, cutoff) && !TerminalQueue(t, key, cutoff))
  }

  /** _RETENTION_SYNC_JOB_FILTER. */
  predicate OldJob(t: Tables, job: Job, cutoff: Time) {
    && Holds(Before(job.completedAt, cutoff))
    && (job.status.Terminal?
        || (job.status.HandedOff?
            && (exists key: CacheKey :: key in job.pages)
            && !exists key: CacheKey :: key in job.pages && Blocks(t, key, cutoff)))
  }

  // ------------------------------------------------------------------ what the filter means

  predicate OldDate(date: Option<Time>, cutoff: Time) { date.Some? && date.value < cutoff }

  /** An item that completed, or failed for good, before the cutoff; and the same of a cache entry. */
  predicate DoneItem(item: Q.Item, cutoff: Time) {
    || (item.status == Q.Completed && OldDate(item.completedAt, cutoff))
    || (item.status == Q.Failed && item.updatedAt < cutoff)
  }

  predicate DoneEntry(row: CacheRow, cutoff: Time) {
    || (row.status == CacheCompleted && OldDate(row.completedAt, cutoff))
    || (row.status == CacheFailed && OldDate(row.requestedAt, cutoff))
  }

  /** All work of a page, of which there is some, is terminal and has a date before the cutoff. */
  ghost predicate PageDone(t: Tables, key: CacheKey, cutoff: Time) {
    && (key in t.cache ==> DoneEntry(t.cache[key], cutoff))
    && (forall r: RequestId :: r in t.queue.items && t.queue.items[r].cacheKey == key ==> DoneItem(t.queue.items[r], cutoff))
    && (key in t.cache || exists r: RequestId :: r in t.queue.items && t.queue.items[r].cacheKey == key)
  }

  ghost predicate JobDone(t: Tables, job: Job, cutoff: Time) {
    && OldDate(job.completedAt, cutoff)
    && (job.status.HandedOff? ==> job.pages != {} && forall key: CacheKey :: key in job.pages ==> PageDone(t, key, cutoff))
    && !job.status.Active?
  }

  lemma BlocksExactly(t: Tables, key: CacheKey, cutoff: Time)
    ensures !Blocks(t, key, cutoff) <==> PageDone(t, key, cutoff)
  {
    if !Blocks(t, key, cutoff) {
      forall r: RequestId | IsWorkOf(t.queue.items, r, key) ensures DoneItem(t.queue.items[r], cutoff) {
      }
      if key !in t.cache {
        assert TerminalQueue(t, key, cutoff);
      }
    } else if NonExpiredQueue(t, key, cutoff) {
      var r: RequestId :| r in t.queue.items && IsWorkOf(t.queue.items, r, key) && NonExpiredItem(t.queue.items[r], cutoff);
      assert !DoneItem(t.queue.items[r], cutoff);
    } else if !NonExpiredCache(t, key, cutoff) {
      forall r: RequestId ensures !IsWorkOf(t.queue.items, r, key) {
      }
    }
  }

  /** The filter, null dates and all, selects exactly the jobs that are done. */
  lemma FilterMeansDone(t: Tables, job: Job, cutoff: Time)
    ensures OldJob(t, job, cutoff) <==> JobDone(t, job, cutoff)
  {
    forall key: CacheKey ensures !Blocks(t, key, cutoff) <==> PageDone(t, key, cutoff) {
      BlocksExactly(t, key, cutoff);
    }
    assert job.pages != {} <==> exists key: CacheKey :: key in job.pages;
  }

  lemma ExpirableExactly(item: Q.Item, cutoff: Time)
    ensures Q.Expirable(item, cutoff) <==> DoneItem(item, cutoff)
  {
  }

  // ------------------------------------------------------------------ eligible rows

  function OldEvents(t: Tables, cutoff: Time): set<EventId> { set e | e in t.events && t.events[e] < cutoff }

  function OldItems(t: Tables, cutoff: Time): set<RequestId> {
    set r | r in t.queue.items && Q.Expirable(t.queue.items[r], cutoff)
  }

  function OldJobs(t: Tables, cutoff: Time): set<JobId> { set j | j in t.jobs && OldJob(t, t.jobs[j], cutoff) }

  /** The pages of some jobs, each with its job. */
  function PagesOf(jobs: map<JobId, Job>, ids: set<JobId>): set<(JobId, CacheKey)> {
    set j, key | j in ids && j in jobs && key in jobs[j].pages :: (j, key)
  }

  /** _retention_eligible_counts, also the result of a dry run. */
  function Eligible(t: Tables, cutoff: Time): Counts {
    Counts(|OldEvents(t, cutoff)|, |OldItems(t, cutoff)|, |OldJobs(t, cutoff)|, |PagesOf(t.jobs, OldJobs(t, cutoff))|)
  }

  // ------------------------------------------------------------------ gc

  function JobBudgets(jobs: map<JobId, Job>): set<BudgetId> {
    set j | j in jobs && jobs[j].budget.Some? :: jobs[j].budget.value
  }

  /** What is left, said of the tables before: rows are judged by the state that gc found. */
  function Collected(t: Tables, cutoff: Time): Tables {
    var jobs := t.jobs - OldJobs(t, cutoff);
    Tables(t.events - OldEvents(t, cutoff), jobs, t.cache,
           Q.DeleteUnreferenced(Q.DeleteExpired(t.queue, cutoff), JobBudgets(jobs)))
  }

  class Store {
    var events: map<EventId, Time>
    var jobs: map<JobId, Job>
    var cache: map<CacheKey, CacheRow>
    var items: map<RequestId, Q.Item>
    var budgets: Q.Budgets

    function Contents(): Tables
      reads this
    {
      Tables(events, jobs, cache, Q.Db(items, budgets))
    }

    constructor (t: Tables)
      ensures Contents() == t
    {
      events, jobs, cache, items, budgets := t.events, t.jobs, t.cache, t.queue.items, t.queue.budgets;
    }

    /** gc: each DELETE judges its rows by the tables as the DELETEs before it left them, and counts them. The jobs
        go before the queue items that show that their pages are done. */
    method Gc(cutoff: Time, dryRun: bool) returns (eligible: Counts, deleted: Counts)
      modifies this
      ensures eligible == Eligible(old(Contents()), cutoff)
      ensures deleted == if dryRun then Counts(0, 0, 0, 0) else eligible
      ensures Contents() == if dryRun then old(Contents()) else Collected(old(Contents()), cutoff)
    {
      eligible := Eligible(Contents(), cutoff);
      if dryRun {
        return eligible, Counts(0, 0, 0, 0);
      }
      ghost var before := Contents();
      var oldEvents := OldEvents(Contents(), cutoff);
      events := events - oldEvents;
      var oldJobs := OldJobs(Contents(), cutoff);
      JobsIgnoreEvents(before, events, cutoff);
      jobs := jobs - oldJobs;
      var oldItems := OldItems(Contents(), cutoff);
      items := items - oldItems;
      assert items == Q.DeleteExpired(before.queue, cutoff).items;
      var unreferenced := set b | b in budgets && !Q.Referenced(Q.Db(items, budgets), b, JobBudgets(jobs));
      budgets := budgets - unreferenced;
      deleted := Counts(|oldEvents|, |oldItems|, |oldJobs|, eligible.pages);
    }
  }

  lemma JobsIgnoreEvents(t: Tables, events: map<EventId, Time>, cutoff: Time)
    ensures OldJobs(t.(events := events), cutoff) == OldJobs(t, cutoff)
  {
    forall key: CacheKey ensures Blocks(t.(events := events), key, cutoff) == Blocks(t, key, cutoff) {
    }
  }

  // ------------------------------------------------------------------ what gc promises

  /** The preview tells what gc deletes: as many rows of each table as are gone afterwards. */
  lemma PreviewIsExact(t: Tables, cutoff: Time)
    ensures var after, eligible := Collected(t, cutoff), Eligible(t, cutoff);
            && |after.events| + eligible.events == |t.events|
            && |after.queue.items| + eligible.items == |t.queue.items|
            && |after.jobs| + eligible.jobs == |t.jobs|
            && |PagesOf(after.jobs, after.jobs.Keys)| + eligible.pages == |PagesOf(t.jobs, t.jobs.Keys)|
  {
    SizeWithout(t.events, OldEvents(t, cutoff));
    SizeWithout(t.jobs, OldJobs(t, cutoff));
    ItemsWithout(t, cutoff);
    PagesWithout(t.jobs, OldJobs(t, cutoff));
  }

  lemma ItemsWithout(t: Tables, cutoff: Time)
    ensures |Q.DeleteExpired(t.queue, cutoff).items| + |OldItems(t, cutoff)| == |t.queue.items|
  {
    SizeWithout(t.queue.items, OldItems(t, cutoff));
    assert Q.DeleteExpired(t.queue, cutoff).items == t.queue.items - OldItems(t, cutoff);
  }

  lemma PagesWithout(jobs: map<JobId, Job>, gone: set<JobId>)
    requires gone <= jobs.Keys
    ensures |PagesOf(jobs - gone, (jobs - gone).Keys)| + |PagesOf(jobs, gone)| == |PagesOf(jobs, jobs.Keys)|
  {
    var left, away := PagesOf(jobs - gone, (jobs - gone).Keys), PagesOf(jobs, gone);
    assert left !! away;
    assert left + away == PagesOf(jobs, jobs.Keys);
  }

  lemma SizeWithout<K, V>(m: map<K, V>, gone: set<K>)
    requires gone <= m.Keys
    ensures |m - gone| + |gone| == |m|
  {
    assert (m - gone).Keys == m.Keys - gone;
    assert |m.Keys - gone| + |gone| == |m.Keys|;
  }

  /** Deleting terminal queue items ends no page's work: it can only take away the last trace of it. */
  lemma PageDoneBefore(t: Tables, key: CacheKey, cutoff: Time)
    requires PageDone(Collected(t, cutoff), key, cutoff)
    ensures PageDone(t, key, cutoff)
  {
    var after := Collected(t, cutoff);
    forall r: RequestId | IsWorkOf(t.queue.items, r, key)
      ensures DoneItem(t.queue.items[r], cutoff)
    {
      ExpirableExactly(t.queue.items[r], cutoff);
      assert r in after.queue.items ==> IsWorkOf(after.queue.items, r, key);
    }
    forall r: RequestId ensures IsWorkOf(after.queue.items, r, key) ==> IsWorkOf(t.queue.items, r, key) {
    }
  }

  /** No row that gc left is old. */
  lemma NothingOldStays(t: Tables, cutoff: Time)
    ensures var after := Collected(t, cutoff);
            OldEvents(after, cutoff) == {} && OldItems(after, cutoff) == {} && OldJobs(after, cutoff) == {}
  {
    var after := Collected(t, cutoff);
    forall j | j in after.jobs ensures !OldJob(after, after.jobs[j], cutoff) {
      FilterMeansDone(after, after.jobs[j], cutoff);
      FilterMeansDone(t, after.jobs[j], cutoff);
      if JobDone(after, after.jobs[j], cutoff) && after.jobs[j].status.HandedOff? {
        forall key: CacheKey | key in after.jobs[j].pages ensures PageDone(t, key, cutoff) {
          PageDoneBefore(t, key, cutoff);
        }
      }
    }
  }

  /** A second pass at the same cutoff finds nothing and changes nothing. */
  lemma SecondPassIsIdle(t: Tables, cutoff: Time)
    ensures Eligible(Collected(t, cutoff), cutoff) == Counts(0, 0, 0, 0)
    ensures Collected(Collected(t, cutoff), cutoff) == Collected(t, cutoff)
  {
    var after := Collected(t, cutoff);
    NothingOldStays(t, cutoff);
    assert PagesOf(after.jobs, {}) == {};
    ExpireNothing(after.queue, cutoff);
    assert after.jobs - {} == after.jobs && after.events - {} == after.events;
    BudgetsSettle(Q.DeleteExpired(t.queue, cutoff), JobBudgets(after.jobs));
  }

  lemma ExpireNothing(db: Q.Db, cutoff: Time)
    requires forall r :: r in db.items ==> !Q.Expirable(db.items[r], cutoff)
    ensures Q.DeleteExpired(db, cutoff) == db
  {
    assert Q.DeleteExpired(db, cutoff).items == db.items;
  }

  lemma BudgetsSettle(db: Q.Db, jobBudgets: set<BudgetId>)
    ensures var after := Q.DeleteUnreferenced(db, jobBudgets);
            Q.DeleteUnreferenced(after, jobBudgets) == after
  {
    var after := Q.DeleteUnreferenced(db, jobBudgets);
    forall b | b in after.budgets ensures Q.Referenced(after, b, jobBudgets) {
      assert Q.Referenced(db, b, jobBudgets);
    }
  }

  /** What goes is done with: no pending item, and a handed-off job exactly when it was handed off before the cutoff
      and every page had work, in the cache or the queue, all of it terminal and dated before the cutoff. */
  lemma OnlyFinishedWorkGoes(t: Tables, cutoff: Time)
    ensures forall r :: r in t.queue.items && t.queue.items[r].status.Pending() ==>
              r in Collected(t, cutoff).queue.items && Collected(t, cutoff).queue.items[r] == t.queue.items[r]
    ensures forall r :: r in t.queue.items ==>
              (r !in Collected(t, cutoff).queue.items <==>
               DoneItem(t.queue.items[r], cutoff))
    ensures forall j :: j in t.jobs ==> (j !in Collected(t, cutoff).jobs <==> JobDone(t, t.jobs[j], cutoff))
    ensures forall e :: e in t.events ==> (e !in Collected(t, cutoff).events <==> t.events[e] < cutoff)
    ensures Collected(t, cutoff).cache == t.cache
  {
    forall r | r in t.queue.items ensures Q.Expirable(t.queue.items[r], cutoff) <==>
                                           DoneItem(t.queue.items[r], cutoff) {
      ExpirableExactly(t.queue.items[r], cutoff);
    }
    forall j | j in t.jobs ensures j !in Collected(t, cutoff).jobs <==> JobDone(t, t.jobs[j], cutoff) {
      FilterMeansDone(t, t.jobs[j], cutoff);
    }
  }

  /** Everything that refers to a budget. */
  ghost predicate RefersOnlyToBudgets(t: Tables) {
    && (forall r, b :: r in t.queue.items && (t.queue.items[r].primary == Some(b) || b in t.queue.items[r].members)
                       ==> b in t.queue.budgets)
    && (forall j :: j in t.jobs && t.jobs[j].budget.Some? ==> t.jobs[j].budget.value in t.queue.budgets)
  }

  /** No surviving item, membership or job loses the budget it refers to, and every budget that stays is referred to. */
  lemma NoReferenceDangles(t: Tables, cutoff: Time)
    requires RefersOnlyToBudgets(t)
    ensures RefersOnlyToBudgets(Collected(t, cutoff))
    ensures forall b :: b in Collected(t, cutoff).queue.budgets ==>
              Q.Referenced(Collected(t, cutoff).queue, b, JobBudgets(Collected(t, cutoff).jobs))
  {
    var after := Collected(t, cutoff);
    forall r, b | r in after.queue.items && (after.queue.items[r].primary == Some(b) || b in after.queue.items[r].members)
      ensures b in after.queue.budgets
    {
      assert r in t.queue.items;
      assert Q.Referenced(Q.DeleteExpired(t.queue, cutoff), b, JobBudgets(after.jobs));
    }
    forall j | j in after.jobs && after.jobs[j].budget.Some? ensures after.jobs[j].budget.value in after.queue.budgets {
      assert j in t.jobs;
      assert after.jobs[j].budget.value in JobBudgets(after.jobs);
    }
    BudgetsSettle(Q.DeleteExpired(t.queue, cutoff), JobBudgets(after.jobs));
  }

  // ------------------------------------------------------------------ why the order matters

  /** Were the queue items deleted first, a handed-off job that the preview counts would be deleted exactly when every
      page has a cache entry too; the others would stay for ever, the trace of their work being gone. */
  lemma ItemsFirstExactly(t: Tables, job: Job, cutoff: Time)
    requires job.status.HandedOff? && OldJob(t, job, cutoff)
    ensures OldJob(t.(queue := Q.DeleteExpired(t.queue, cutoff)), job, cutoff)
            <==> forall key: CacheKey :: key in job.pages ==> key in t.cache
  {
    var after := t.(queue := Q.DeleteExpired(t.queue, cutoff));
    FilterMeansDone(t, job, cutoff);
    FilterMeansDone(after, job, cutoff);
    forall key: CacheKey | key in job.pages ensures PageDone(after, key, cutoff) <==> key in t.cache {
      assert PageDone(t, key, cutoff);
      forall r: RequestId ensures !IsWorkOf(after.queue.items, r, key) {
        if IsWorkOf(t.queue.items, r, key) {
          ExpirableExactly(t.queue.items[r], cutoff);
        }
      }
    }
  }

  /** A handed-off job whose one page left only an old failed queue item. */
  function HandedOffExample(): Tables {
    var request := Q.Request(0, None, 0, [], 0);
    var item := Q.Item(7, request, Q.Failed, Q.FetchMissing, None, map[], false, true, 0.0, 0.0, None, None, 1, None, None, None);
    Tables(map[], map[1 := Job(HandedOff, Some(0.0), None, {7})], map[], Q.Db(map[1 := item], map[]))
  }

  /** There are such jobs. */
  lemma ItemsFirstWouldKeepTheJob()
    ensures var t := HandedOffExample();
            && OldJob(t, t.jobs[1], 1.0)
            && !OldJob(t.(queue := Q.DeleteExpired(t.queue, 1.0)), t.jobs[1], 1.0)
  {
    var t := HandedOffExample();
    assert IsWorkOf(t.queue.items, 1, 7);
    FilterMeansDone(t, t.jobs[1], 1.0);
    ItemsFirstExactly(t, t.jobs[1], 1.0);
  }
}
