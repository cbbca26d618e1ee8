/** Queueing the planned follow-up pages of a window under its budget and its deadline. */
module Followups {
  import opened Common
  import Q = Queue
  import QI = QueueInvariants
  import QueueStore
  import W = Window

  /** A planned page: its cache key, its request, whether it is cached, and the id for a row that it may need. */
  datatype Planned = Planned(key: CacheKey, request: Q.Request, cached: bool, newId: RequestId)

  datatype Result = Ready(items: seq<Option<RequestId>>) | TooLate | Raised

  /** The pages recorded for the sync job of the window. */
  class SyncJob {
    const firstKey: CacheKey
    var pages: set<CacheKey>

    constructor (firstKey: CacheKey)
      ensures this.firstKey == firstKey && pages == {firstKey}
    {
      this.firstKey, pages := firstKey, {firstKey};
    }

    /** record_sync_job_page. */
    method Record(key: CacheKey)
      modifies this
      ensures pages == old(pages) + {key}
    {
      pages := pages + {key};
    }

    /** delete_sync_job_followup_pages. */
    method DeleteFollowups()
      modifies this
      ensures pages == old(pages) * {firstKey}
    {
      pages := set key | key in pages && key == firstKey;
    }
  }

  function Keys(plan: seq<Planned>): set<CacheKey> { set page | page in plan :: page.key }

  /** Nothing pending is charged to the budget any more. */
  ghost predicate Abandoned(db: Q.Db, b: BudgetId) {
    forall r :: r in db.items && db.items[r].status.Pending() ==> b !in db.items[r].members && db.items[r].primary != Some(b)
  }

  lemma CancelAbandons(db: Q.Db, b: BudgetId, error: Q.Error, now: Time)
    ensures Abandoned(Q.Cancel(db, b, error, now), b)
  {
    var after := Q.Cancel(db, b, error, now);
    forall r | r in after.items && after.items[r].status.Pending()
      ensures b !in after.items[r].members && after.items[r].primary != Some(b)
    {
      QI.PrimaryIsFirst(db.items[r].members - {b});
    }
  }

  /** _complete_followup_deadline_budget_failure: the budget's queued work is cancelled before the window is
      reported, so that nothing of it is fetched later. */
  method StopAtDeadline(queue: QueueStore.Store, job: SyncJob, target: W.Target, b: BudgetId, first: W.Page, now: Time)
    requires QI.Inv(queue.Rows())
    modifies queue`items, job, target
    ensures queue.Rows() == Q.Cancel(old(queue.Rows()), b, Q.DeadlineBudgetExceeded, now)
    ensures Abandoned(queue.Rows(), b) && QI.Inv(queue.Rows())
    ensures job.pages == old(job.pages) * {job.firstKey}
    ensures target.coverage.Partial? && target.error == Some(W.DeadlineBudget) && target.total == first.total
    ensures target.resultCount == |first.papers| && target.pagesTotal == target.pagesCompleted == 1
  {
    CancelAbandons(queue.Rows(), b, Q.DeadlineBudgetExceeded, now);
    QI.CancelKeeps(queue.Rows(), b, Q.DeadlineBudgetExceeded, now);
    var failed := queue.FailActiveUpstreamBudgetItems(b, Q.DeadlineBudgetExceeded, now);
    job.DeleteFollowups();
    target.Stop(W.Partial, |first.papers|, first.total, 1, Some(W.DeadlineBudget));
  }

  /** One page joins the pending row of its key, or gets a row; `None` is the error that an unknown budget raises. */
  method QueuePage(queue: QueueStore.Store, b: BudgetId, page: Planned, default: Time, now: Time)
    returns (queued: Option<(RequestId, bool)>)
    requires QI.Inv(queue.Rows()) && page.newId !in queue.items
    modifies queue`items
    ensures QI.Inv(queue.Rows()) && queue.items.Keys <= old(queue.items).Keys + {page.newId}
    ensures queued.None? ==> b !in queue.budgets
    ensures queued.Some? ==> Q.IsPendingFor(queue.Rows(), page.key, queued.value.0)
                             && b in queue.items[queued.value.0].members
  {
    QI.EnqueueKeeps(queue.Rows(), page.newId, page.key, page.request, Q.FetchMissing, Some(b), default, now);
    queued := queue.EnqueueRequestForWork(page.newId, page.key, page.request, Q.FetchMissing, Some(b), default, now);
  }

  /** The uuids for new rows are new, and no two are the same. */
  ghost predicate FreshIds(plan: seq<Planned>, items: map<RequestId, Q.Item>) {
    && (forall k :: 0 <= k < |plan| ==> plan[k].newId !in items)
    && (forall j, k :: 0 <= j < k < |plan| ==> plan[j].newId != plan[k].newId)
  }

  lemma FreshRest(plan: seq<Planned>, k: nat, before: map<RequestId, Q.Item>, after: map<RequestId, Q.Item>)
    requires k < |plan| && FreshIds(plan[k..], before) && after.Keys <= before.Keys + {plan[k].newId}
    ensures FreshIds(plan[k + 1..], after)
  {
    var rest, tail := plan[k..], plan[k + 1..];
    assert rest[0] == plan[k] && tail == rest[1..];
    forall i | 0 <= i < |tail| ensures tail[i].newId !in after {
      assert tail[i] == rest[i + 1];
    }
  }

  datatype Visit = Queued(item: RequestId, joined: bool) | Cached | Late | Refused

  /** One turn of the queueing loop; the clock is read before, between and after its transactions. */
  method VisitPage(queue: QueueStore.Store, job: SyncJob, target: W.Target, budget: W.Budget, b: BudgetId, first: W.Page,
                   page: Planned, default: Time, now: Time, clock: nat -> Time, before: nat)
    returns (visit: Visit, readings: nat)
    requires QI.Inv(queue.Rows()) && page.newId !in queue.items
    modifies queue`items, job, target
    ensures QI.Inv(queue.Rows())
    ensures readings >= before && visit.Cached? == page.cached
    ensures forall k: nat :: before <= k < readings && clock(k) >= budget.deadline ==> visit.Late?
    ensures visit.Late? ==>
              && readings > before && clock(readings - 1) >= budget.deadline
              && Abandoned(queue.Rows(), b) && job.pages <= {job.firstKey}
              && target.coverage.Partial? && target.error == Some(W.DeadlineBudget) && target.resultCount == |first.papers|
    ensures !visit.Late? ==>
              && job.pages == old(job.pages) + {page.key}
              && target.coverage == old(target.coverage) && target.total == old(target.total)
              && queue.items.Keys <= old(queue.items).Keys + {page.newId}
    ensures visit.Refused? ==> b !in queue.budgets
    ensures visit.Queued? ==> Q.IsPendingFor(queue.Rows(), page.key, visit.item) && b in queue.items[visit.item].members
  {
    readings := before;
    if page.cached {
      job.Record(page.key);
      return Cached, readings;
    }
    readings := before + 1;
    if clock(before) >= budget.deadline {
      StopAtDeadline(queue, job, target, b, first, now);
      return Late, readings;
    }
    job.Record(page.key);
    readings := before + 2;
    if clock(before + 1) >= budget.deadline {
      StopAtDeadline(queue, job, target, b, first, now);
      return Late, readings;
    }
    var queued := QueuePage(queue, b, page, default, now);
    if queued.None? {
      return Refused, readings;
    }
    readings := before + 3;
    if clock(before + 2) >= budget.deadline {
      StopAtDeadline(queue, job, target, b, first, now);
      return Late, readings;
    }
    return Queued(queued.value.0, queued.value.1), readings;
  }

  /** The loop of _plan_and_drain_complete_window_target that queues the planned pages. `clock` gives the successive
      readings of the monotonic clock. All pages are queued only while every reading is before the deadline; after a
      late one nothing of the budget stays pending and only the first page stays recorded. */
  method QueueFollowups(queue: QueueStore.Store, job: SyncJob, target: W.Target, budget: W.Budget, b: BudgetId, first: W.Page,
                        plan: seq<Planned>, default: Time, now: Time, clock: nat -> Time)
    returns (result: Result, readings: nat, queuedTotal: nat)
    requires QI.Inv(queue.Rows())
    requires FreshIds(plan, queue.items)
    modifies queue`items, job, target
    ensures result.Ready? ==>
              && |result.items| == |plan| && (forall k :: 0 <= k < |plan| ==> (result.items[k].None? <==> plan[k].cached))
              && (forall k: nat :: k < readings ==> clock(k) < budget.deadline)
              && job.pages == old(job.pages) + Keys(plan)
              && target.coverage == old(target.coverage) && target.total == old(target.total)
    ensures result.TooLate? ==>
              && readings > 0 && clock(readings - 1) >= budget.deadline
              && Abandoned(queue.Rows(), b)
              && job.pages <= {job.firstKey}
              && target.coverage.Partial? && target.error == Some(W.DeadlineBudget) && target.resultCount == |first.papers|
    ensures result.Raised? ==> b !in queue.budgets
  {
    var items: seq<Option<RequestId>> := [];
    readings, queuedTotal := 0, 0;
    for k := 0 to |plan|
      invariant |items| == k && forall i :: 0 <= i < k ==> (items[i].None? <==> plan[i].cached)
      invariant forall i: nat :: i < readings ==> clock(i) < budget.deadline
      invariant job.pages == old(job.pages) + Keys(plan[..k])
      invariant target.coverage == old(target.coverage) && target.total == old(target.total)
      invariant QI.Inv(queue.Rows())
      invariant FreshIds(plan[k..], queue.items)
    {
      assert plan[..k + 1] == plan[..k] + [plan[k]];
      assert Keys(plan[..k + 1]) == Keys(plan[..k]) + {plan[k].key};
      ghost var before := queue.items;
      var visit;
      visit, readings := VisitPage(queue, job, target, budget, b, first, plan[k], default, now, clock, readings);
      if visit.Late? {
        return TooLate, readings, queuedTotal;
      }
      if visit.Refused? {
        return Raised, readings, queuedTotal;
      }
      FreshRest(plan, k, before, queue.items);
      items := items + [if visit.Queued? then Some(visit.item) else None];
      if visit.Queued? && !visit.joined {
        queuedTotal := queuedTotal + 1;
      }
    }
    assert plan[..|plan|] == plan;
    result := Ready(items);
  }
}
