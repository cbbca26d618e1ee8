/** The coordination tables as the store updates them: one method per transaction, row by row as its statements do,
    each proved to make exactly the state change that the runs of the other modules are made of. */
module QueueStore {
  import opened Common
  import opened Queue
  import opened QueueInvariants
  import L = Leases

  class Store {
    var items: map<RequestId, Item>
    var budgets: Budgets
    var leases: map<L.LeaseName, L.Lease>
    var holds: map<PaperId, L.Hold>

    function Rows(): Db
      reads `items, `budgets
    {
      Db(items, budgets)
    }

    function Tables(): L.Tables
      reads this
    {
      L.Tables(Rows(), leases, holds)
    }

    constructor ()
      ensures Rows() == Db(map[], map[]) && leases == map[] && holds == map[]
    {
      items, budgets, leases, holds := map[], map[], map[], map[];
    }

    // ---------------------------------------------------------------- budgets

    /** _upstream_budget_errors_conn. */
    method BudgetErrors(ids: set<BudgetId>, now: Time, enforceLimit: bool) returns (errors: map<BudgetId, Error>)
      ensures errors == map b | b in ids && Problem(budgets, b, now, enforceLimit).Some? :: Problem(budgets, b, now, enforceLimit).value
    {
      errors := map[];
      var todo := ids;
      while todo != {}
        invariant todo <= ids
        invariant errors == map b | b in ids - todo && Problem(budgets, b, now, enforceLimit).Some? :: Problem(budgets, b, now, enforceLimit).value
      {
        var b: BudgetId :| b in todo;
        todo := todo - {b};
        if b !in budgets {
          errors := errors[b := RequestBudgetExceeded];
        } else if budgets[b].deadline.Some? && now >= budgets[b].deadline.value {
          errors := errors[b := DeadlineBudgetExceeded];
        } else if enforceLimit && budgets[b].started >= budgets[b].maxRequests {
          errors := errors[b := RequestBudgetExceeded];
        }
      }
    }

    /** _reserve_upstream_budgets_conn: charges all the budgets, or none when one of them admits no request. */
    method ChargeBudgets(ids: set<BudgetId>, now: Time) returns (error: Option<Error>)
      modifies `budgets
      ensures error.None? <==> forall b: BudgetId :: b in ids ==> Problem(old(budgets), b, now, true).None?
      ensures error.Some? ==> budgets == old(budgets) && exists b: BudgetId :: b in ids && error == Problem(old(budgets), b, now, true)
      ensures error.None? ==> budgets == ChargedBudgets(old(budgets), ids)
      ensures error.None? <==>
                forall b: BudgetId :: b in ids ==>
                  && b in old(budgets) && old(budgets)[b].started < old(budgets)[b].maxRequests
                  && (old(budgets)[b].deadline.None? || now < old(budgets)[b].deadline.value)
    {
      var todo := ids;
      while todo != {}
        invariant todo <= ids
        invariant forall b: BudgetId :: b in ids - todo ==> Problem(budgets, b, now, true).None?
      {
        var b: BudgetId :| b in todo;
        if b !in budgets {
          return Some(RequestBudgetExceeded);
        } else if budgets[b].deadline.Some? && now >= budgets[b].deadline.value {
          return Some(DeadlineBudgetExceeded);
        } else if budgets[b].started >= budgets[b].maxRequests {
          return Some(RequestBudgetExceeded);
        }
        todo := todo - {b};
      }
      assert ids - todo == ids;
      forall b: BudgetId | b in ids ensures b in budgets {
        assert b in ids - todo;
      }
      todo := ids;
      while todo != {}
        invariant todo <= ids && ids <= budgets.Keys
        invariant budgets == ChargedBudgets(old(budgets), ids - todo)
      {
        var b: BudgetId :| b in todo;
        todo := todo - {b};
        budgets := budgets[b := budgets[b].(started := budgets[b].started + 1)];
      }
      assert ids - todo == ids;
      return None;
    }

    /** reserve_upstream_request. */
    method ReserveUpstreamRequest(b: BudgetId, now: Time) returns (error: Option<Error>)
      modifies `budgets
      ensures (Rows(), error) == ReserveDirect(old(Rows()), b, now)
    {
      error := ChargeBudgets({b}, now);
    }

    /** _detach_queue_budget_memberships_conn: the first membership left becomes the primary budget. */
    method Detach(r: RequestId, gone: set<BudgetId>)
      requires r in items
      modifies `items
      ensures items == old(items)[r := Detached(old(items)[r], gone)]
    {
      var left := items[r].members - gone;
      var primary: Option<BudgetId> := None;
      var todo := left.Keys;
      while todo != {}
        invariant todo <= left.Keys
        invariant primary.None? <==> todo == left.Keys
        invariant primary.Some? ==> primary.value in left
                                    && forall c: BudgetId :: c in left && c !in todo ==> Sooner(left, primary.value, c)
      {
        var b: BudgetId :| b in todo;
        todo := todo - {b};
        if primary.None? || !Sooner(left, primary.value, b) {
          primary := Some(b);
        }
      }
      PrimaryIsFirst(left);
      assert primary.Some? ==> IsFirst(left, primary.value) by {
        if primary.Some? {
          forall c: BudgetId | c in left ensures Sooner(left, primary.value, c) {
          }
        }
      }
      items := items[r := items[r].(members := left, primary := primary)];
    }

    /** _detach_invalid_queue_budgets_conn, called only when there is something to detach. */
    method DetachInvalid(r: RequestId, invalid: map<BudgetId, Error>)
      requires r in items
      modifies `items
      ensures items == old(items)[r := DetachedIfAny(old(items)[r], invalid.Keys)]
    {
      if invalid != map[] {
        Detach(r, invalid.Keys);
      } else {
        assert items == items[r := items[r]];
      }
    }

    /** reserve_queue_item_upstream_request. The budgets that are charged were just checked, so charging them
        cannot be refused. */
    method ReserveQueueItemUpstreamRequest(r: RequestId, now: Time) returns (error: Option<Error>)
      modifies `items, `budgets
      ensures (Rows(), error) == Reserve(old(Rows()), r, now)
    {
      if r !in items {
        return Some(RequestBudgetExceeded);
      }
      var item := items[r];
      var active, uncharged, future := AttemptState(item);
      var invalid := BudgetErrors(active + future, now, false);
      var capacity := BudgetErrors(uncharged + future, now, true);
      invalid := capacity + invalid;
      InvalidAreGone(item, budgets, now, active, uncharged, future, capacity, invalid);
      DetachInvalid(r, invalid);
      if !item.unbudgeted && active - invalid.Keys == {} {
        return Some(if future - invalid.Keys != {} then BudgetDeferred else Preferred(invalid));
      }
      var charged := uncharged - invalid.Keys;
      error := ChargeBudgets(charged, now);
      ghost var kept := items[r];
      CloseGate(r, charged);
      assert items == old(items)[r := ChargedItem(kept, charged)];
    }

    /** The statements that record a charged attempt on the item. */
    method CloseGate(r: RequestId, charged: set<BudgetId>)
      requires r in items
      modifies `items
      ensures items == old(items)[r := ChargedItem(old(items)[r], charged)]
    {
      var item := items[r];
      items := items[r := item.(
        members := map b | b in item.members ::
          if b in charged then item.members[b].(lastCharged := item.attempts) else item.members[b],
        gateClosed := item.gateClosed || item.status.Claimed?)];
    }

    /** check_queue_item_upstream_request_deadlines. */
    method CheckQueueItemDeadlines(r: RequestId, now: Time) returns (error: Option<Error>)
      modifies `items
      ensures (Rows(), error) == CheckDeadlines(old(Rows()), r, now)
    {
      if r !in items {
        return Some(RequestBudgetExceeded);
      }
      var item := items[r];
      var active, uncharged, future := AttemptState(item);
      var invalid := BudgetErrors(active + future, now, false);
      assert invalid.Keys == ExpiredGone(item, budgets, now);
      assert invalid == ExpiredErrors(item, budgets, now);
      DetachInvalid(r, invalid);
      ActiveLeft(item, invalid.Keys, active, future);
      if item.unbudgeted || active - invalid.Keys != {} {
        return None;
      }
      error := Some(if future - invalid.Keys != {} then BudgetDeferred else Preferred(invalid));
      assert Rows() == CheckDeadlines(old(Rows()), r, now).0;
    }

    /** One row that fail_active_upstream_budget_items selected. */
    method CancelRow(r: RequestId, b: BudgetId, error: Error, now: Time) returns (failed: bool)
      requires r in items && items[r].status.Pending()
      modifies `items
      ensures items == old(items)[r := Canceller(b, error, now)(old(items)[r])]
      ensures failed <==> items[r].status.Failed?
    {
      Detach(r, {b});
      failed := !items[r].unbudgeted && items[r].members == map[];
      if failed {
        items := items[r := items[r].(status := Failed, updatedAt := now, claimedBy := None, claimedUntil := None,
                                      gateClosed := false, nextAttemptAt := None, error := Some(error))];
      }
    }

    /** fail_active_upstream_budget_items: how many items failed. */
    method FailActiveUpstreamBudgetItems(b: BudgetId, error: Error, now: Time) returns (failedTotal: nat)
      modifies `items
      ensures Rows() == Cancel(old(Rows()), b, error, now)
      ensures failedTotal == |FailedOf(old(items), items)|
    {
      var affected := set r | r in items && TiedTo(items[r], b);
      ghost var f := Canceller(b, error, now);
      var todo := affected;
      failedTotal := 0;
      while todo != {}
        invariant todo <= affected <= items.Keys
        invariant Changed(old(items), items, affected - todo, f)
        invariant failedTotal == |FailedOf(old(items), items)|
      {
        var r: RequestId :| r in todo;
        ghost var before := items;
        assert items[r] == old(items)[r];
        var failed := CancelRow(r, b, error, now);
        OneMoreChanged(old(items), before, items, affected - todo, r, f);
        OneMoreFailed(old(items), before, items, r);
        OneMoreDone(affected, todo, r);
        todo := todo - {r};
        if failed {
          failedTotal := failedTotal + 1;
        }
      }
      assert affected - todo == affected;
      AllCancelled(old(Rows()), items, affected, b, error, now);
    }

    // ---------------------------------------------------------------- the queue

    /** The pending row of a cache key, the oldest if there could be several. */
    method FindPending(key: CacheKey) returns (found: Option<RequestId>)
      ensures found.Some? ==> IsPendingFor(Rows(), key, found.value)
      ensures found.None? ==> !exists r: RequestId :: IsPendingFor(Rows(), key, r)
    {
      found := None;
      var todo := items.Keys;
      while todo != {}
        invariant todo <= items.Keys
        invariant found.Some? ==> IsPendingFor(Rows(), key, found.value)
        invariant found.None? ==> forall r: RequestId :: r in items.Keys - todo ==> !IsPendingFor(Rows(), key, r)
      {
        var r: RequestId :| r in todo;
        todo := todo - {r};
        if items[r].status.Pending() && items[r].cacheKey == key
           && (found.None? || items[r].createdAt < items[found.value].createdAt) {
          found := Some(r);
        }
      }
    }

    /** The branch of _enqueue_request_for_work_conn that joins a pending row. */
    method JoinPending(r: RequestId, request: Request, kind: WorkKind, budget: Option<BudgetId>, default: Time, now: Time)
      requires r in items
      modifies `items
      ensures items == old(items)[r := JoinedItem(old(items)[r], request, kind, budget, default, now)]
    {
      var held := items[r];
      var merged, newKind, replaced := MergeRequest(held, request, kind, default);
      var item := held;
      if replaced {
        item := item.(workKind := newKind, request := merged, updatedAt := now);
      }
      if budget.None? && !held.unbudgeted {
        item := item.(unbudgeted := true, updatedAt := now);
      }
      if budget.Some? {
        var joinsCurrent := held.status.Claimed? && !held.gateClosed;
        var firstAttempt := if joinsCurrent then held.attempts else held.attempts + 1;
        if firstAttempt < 1 {
          firstAttempt := 1;
        }
        item := item.(primary := if item.primary.Some? then item.primary else budget, updatedAt := now);
        if budget.value !in item.members {
          item := item.(members := item.members[budget.value := Member(now, firstAttempt, 0)]);
        }
      }
      items := items[r := item];
    }

    /** enqueue_request_for_work; `None` is an integrity error, which rolls back. */
    method EnqueueRequestForWork(newId: RequestId, key: CacheKey, request: Request, kind: WorkKind,
                                 budget: Option<BudgetId>, default: Time, now: Time)
      returns (result: Option<(RequestId, bool)>)
      requires PendingUnique(Rows())
      modifies `items
      ensures match Enqueue(old(Rows()), newId, key, request, kind, budget, default, now)
              case Rollback => result.None? && Rows() == old(Rows())
              case Done(db, value) => result == Some(value) && Rows() == db
    {
      var found := FindPending(key);
      if found.Some? {
        var r := found.value;
        OnlyPending(Rows(), key, r);
        var held := items[r];
        if budget.Some? && budget.value !in held.members && budget.value !in budgets {
          return None;
        }
        JoinPending(r, request, kind, budget, default, now);
        return Some((r, true));
      }
      assert Rows() == old(Rows());
      if budget.Some? && budget.value !in budgets {
        assert BadReference(old(Rows()), map[], budget);
        return None;
      }
      items := items[newId := NewItem(key, request, kind, budget, now)];
      return Some((newId, false));
    }

    /** claim_next_queue_item: of the claimable rows that pass the filters, the one of highest priority, and of
        those the oldest. */
    method ClaimNextQueueItem(owner: Owner, ttl: Time, keys: Option<set<CacheKey>>, ids: Option<set<RequestId>>, now: Time)
      returns (claimed: Option<RequestId>)
      modifies `items
      ensures claimed.None? ==> Rows() == old(Rows()) && forall r: RequestId :: !Candidate(old(items), r, keys, ids, now)
      ensures claimed.None? ==>
                forall r: RequestId :: r in old(items) && Claimable(old(items)[r], now) ==>
                  (keys.Some? && old(items)[r].cacheKey !in keys.value) || (ids.Some? && r !in ids.value)
      ensures claimed.Some? ==>
                && claimed.value in old(items)
                && (keys.Some? ==> old(items)[claimed.value].cacheKey in keys.value) && (ids.Some? ==> claimed.value in ids.value)
                && (forall r: RequestId :: Candidate(old(items), r, keys, ids, now) ==>
                      && old(items)[r].request.priority <= old(items)[claimed.value].request.priority
                      && (old(items)[r].request.priority < old(items)[claimed.value].request.priority
                          || old(items)[claimed.value].createdAt <= old(items)[r].createdAt))
      ensures claimed.Some? ==>
                && Candidate(old(items), claimed.value, keys, ids, now)
                && (forall r: RequestId :: Candidate(old(items), r, keys, ids, now) ==> Precedes(old(items)[claimed.value], old(items)[r]))
                && Rows() == Claim(old(Rows()), claimed.value, owner, ttl, now)
    {
      claimed := None;
      var todo := items.Keys;
      while todo != {}
        invariant todo <= items.Keys && items == old(items)
        invariant claimed.None? ==> forall r: RequestId :: r in items.Keys - todo ==> !Candidate(items, r, keys, ids, now)
        invariant claimed.Some? ==>
                    && Candidate(items, claimed.value, keys, ids, now)
                    && forall r: RequestId :: r in items.Keys - todo && Candidate(items, r, keys, ids, now) ==>
                         Precedes(items[claimed.value], items[r])
      {
        var r: RequestId :| r in todo;
        todo := todo - {r};
        if Candidate(items, r, keys, ids, now) && (claimed.None? || !Precedes(items[claimed.value], items[r])) {
          claimed := Some(r);
        }
      }
      if claimed.None? {
        assert forall r: RequestId :: r in items ==> !Candidate(items, r, keys, ids, now);
      } else {
        items := items[claimed.value := ClaimedItem(items[claimed.value], owner, ttl, now)];
      }
    }

    /** renew_queue_claim. */
    method RenewQueueClaim(r: RequestId, owner: Owner, ttl: Time, now: Time) returns (renewed: bool)
      modifies `items
      ensures Rows() == RenewClaim(old(Rows()), r, owner, ttl, now)
      ensures renewed == HoldsClaim(old(Rows()), r, owner)
    {
      renewed := r in items && items[r].status.Claimed? && items[r].claimedBy == Some(owner);
      if renewed {
        items := items[r := items[r].(claimedUntil := Some(now + ttl), updatedAt := now)];
      }
    }

    /** release_or_delay_queue_item; `false` is an integrity error, which rolls back. */
    method ReleaseOrDelayQueueItem(r: RequestId, status: Status, next: Option<Time>, error: Option<Error>, now: Time)
      returns (ok: bool)
      requires PendingUnique(Rows())
      modifies `items
      ensures match Release(old(Rows()), r, status, next, error, now)
              case Rollback => !ok && Rows() == old(Rows())
              case Done(db, _) => ok && Rows() == db
    {
      if r !in items {
        return true;
      }
      if status.Pending() {
        var rest := items - {r};
        if exists q :: q in rest && rest[q].status.Pending() && rest[q].cacheKey == items[r].cacheKey {
          ghost var q :| q in rest && rest[q].status.Pending() && rest[q].cacheKey == items[r].cacheKey;
          assert IsPendingFor(Rows(), items[r].cacheKey, q);
          return false;
        }
        assert forall q :: q in items && q != r ==> q in rest && rest[q] == items[q];
      }
      items := items[r := items[r].(status := status, nextAttemptAt := next, updatedAt := now, claimedBy := None,
                                    claimedUntil := None, gateClosed := false, error := error)];
      return true;
    }

    /** complete_queue_item. */
    method CompleteQueueItem(r: RequestId, now: Time)
      modifies `items
      ensures Rows() == Complete(old(Rows()), r, now)
    {
      if r in items {
        items := items[r := items[r].(status := Completed, completedAt := Some(now), updatedAt := now,
                                      claimedBy := None, claimedUntil := None, error := None)];
      }
    }

    // ---------------------------------------------------------------- leases, reservations and the fence

    method AcquireLease(name: L.LeaseName, owner: Owner, ttl: Time, now: Time) returns (acquired: bool)
      modifies `leases
      ensures (leases, acquired) == L.Acquire(old(leases), name, owner, ttl, now)
    {
      if name in leases && leases[name].owner != owner && leases[name].expires > now {
        return false;
      }
      leases := leases[name := L.Lease(owner, now + ttl)];
      return true;
    }

    /** renew_leases_if_owned; `None` is its ValueError. */
    method RenewLeasesIfOwned(rs: seq<L.Renewal>, now: Time) returns (renewed: Option<bool>)
      modifies `leases
      ensures match L.RenewIfOwned(old(leases), rs, now)
              case None => renewed.None? && leases == old(leases)
              case Some(p) => leases == p.0 && renewed == Some(p.1)
    {
      if exists i, j :: 0 <= i < j < |rs| && rs[i].name == rs[j].name {
        return None;
      }
      for k := 0 to |rs|
        invariant forall i :: 0 <= i < k ==> L.Owns(leases, rs[i].name, rs[i].owner)
        invariant leases == old(leases)
      {
        if rs[k].name !in leases || leases[rs[k].name].owner != rs[k].owner {
          return Some(false);
        }
      }
      for k := 0 to |rs|
        invariant leases == L.Renewed(old(leases), rs[..k], now)
      {
        assert rs[..k + 1][..k] == rs[..k];
        leases := leases[rs[k].name := L.Lease(rs[k].owner, now + rs[k].ttl)];
      }
      assert rs[..|rs|] == rs;
      return Some(true);
    }

    method ReleaseLease(name: L.LeaseName, owner: Owner)
      modifies `leases
      ensures leases == L.ReleaseLease(old(leases), name, owner)
    {
      if name in leases && leases[name].owner == owner {
        leases := leases - {name};
      }
    }

    /** acquire_id_fetch_reservations: the earliest expiry of a blocking reservation, if there is one. */
    method AcquireIdFetchReservations(ids: set<PaperId>, owner: Owner, r: RequestId, ttl: Time, now: Time)
      returns (acquired: bool, blockedUntil: Option<Time>)
      modifies `holds
      ensures (holds, acquired) == L.AcquireHolds(old(holds), ids, owner, r, ttl, now)
      ensures acquired <==> blockedUntil.None?
      ensures blockedUntil.Some? ==>
                && blockedUntil.value > now
                && (exists id :: id in ids && id in holds && holds[id].owner != owner && holds[id].expires == blockedUntil.value)
                && (forall id :: id in ids && id in holds && holds[id].owner != owner ==> blockedUntil.value <= holds[id].expires)
    {
      if ids == {} {
        return true, None;
      }
      holds := map id | id in holds && holds[id].expires > now :: holds[id];
      blockedUntil := None;
      var todo := ids;
      while todo != {}
        invariant todo <= ids && holds == L.Unexpired(old(holds), now)
        invariant blockedUntil.None? ==> forall id :: id in ids - todo ==> id !in holds || holds[id].owner == owner
        invariant blockedUntil.Some? ==>
                    && (exists id :: id in ids && id in holds && holds[id].owner != owner && holds[id].expires == blockedUntil.value)
                    && (forall id :: id in ids - todo && id in holds && holds[id].owner != owner ==> blockedUntil.value <= holds[id].expires)
      {
        var id :| id in todo;
        todo := todo - {id};
        if id in holds && holds[id].owner != owner {
          blockedUntil := Some(if blockedUntil.Some? then MinReal(blockedUntil.value, holds[id].expires) else holds[id].expires);
        }
      }
      if blockedUntil.Some? {
        return false, blockedUntil;
      }
      holds := holds + map id | id in ids :: L.Hold(owner, r, now + ttl);
      return true, None;
    }

    method RenewIdFetchReservations(ids: set<PaperId>, owner: Owner, ttl: Time, now: Time) returns (renewed: bool)
      modifies `holds
      ensures (holds, renewed) == L.RenewHolds(old(holds), ids, owner, ttl, now)
    {
      renewed := forall id :: id in ids ==> id in holds && holds[id].owner == owner;
      if renewed {
        holds := map id | id in holds :: if id in ids then holds[id].(expires := now + ttl) else holds[id];
      }
    }

    /** release_id_fetch_reservations and the wake-up of the items that waited for the ids. */
    method ReleaseIdFetchReservations(ids: set<PaperId>, owner: Owner, now: Time)
      modifies `holds, `items
      ensures Tables() == L.ReleaseHolds(old(Tables()), ids, owner, now)
    {
      var mine := set id | id in ids && id in holds && holds[id].owner == owner;
      assert mine == L.OwnedAmong(holds, ids, owner);
      if mine == {} {
        return;
      }
      holds := holds - mine;
      var todo := items.Keys;
      while todo != {}
        invariant todo <= items.Keys && items.Keys == old(items).Keys && holds == old(holds) - mine
        invariant forall r: RequestId :: r in items ==>
                    items[r] == if r !in todo && WaitsForIds(old(items)[r], ids) then WokenItem(old(items)[r], now) else old(items)[r]
      {
        var r: RequestId :| r in todo;
        todo := todo - {r};
        if items[r].status.Delayed? && items[r].error == Some(IdFetchReserved)
           && exists id :: id in items[r].request.idList && id in ids {
          items := items[r := items[r].(status := Queued, nextAttemptAt := None, updatedAt := now, claimedBy := None,
                                        claimedUntil := None, gateClosed := false, error := None)];
        }
      }
      assert items == Wake(old(Rows()), ids, now).items;
    }

    /** renew_worker_fetch_ownership. */
    method RenewWorkerFetchOwnership(r: RequestId, owner: Owner, name: L.LeaseName, ttl: Time, ids: set<PaperId>, now: Time)
      returns (lost: Option<L.Lost>)
      modifies `items, `leases, `holds
      ensures (Tables(), lost) == L.Fence(old(Tables()), r, owner, name, ttl, ids, now)
    {
      if name !in leases || leases[name].owner != owner {
        return Some(L.LostLease);
      }
      if r !in items || !items[r].status.Claimed? || items[r].claimedBy != Some(owner) {
        return Some(L.LostClaim);
      }
      if exists id :: id in ids && (id !in holds || holds[id].owner != owner) {
        return Some(L.LostIds);
      }
      leases := leases[name := L.Lease(owner, now + ttl)];
      items := items[r := items[r].(claimedUntil := Some(now + ttl), updatedAt := now)];
      holds := map id | id in holds :: if id in ids then holds[id].(expires := now + ttl) else holds[id];
      return None;
    }
  }

  /** The rows of `ids` have changed by `f`, and no others. */
  ghost predicate Changed(before: map<RequestId, Item>, after: map<RequestId, Item>, ids: set<RequestId>, f: Item -> Item) {
    && after.Keys == before.Keys
    && forall r: RequestId :: r in before ==> after[r] == if r in ids then f(before[r]) else before[r]
  }

  lemma OneMoreChanged(before: map<RequestId, Item>, mid: map<RequestId, Item>, after: map<RequestId, Item>,
                       ids: set<RequestId>, r: RequestId, f: Item -> Item)
    requires Changed(before, mid, ids, f) && r in before && r !in ids
    requires after == mid[r := f(mid[r])]
    ensures mid[r] == before[r]
    ensures Changed(before, after, ids + {r}, f)
  {
  }

  lemma OneMoreDone(all: set<RequestId>, todo: set<RequestId>, r: RequestId)
    requires r in todo && todo <= all
    ensures all - (todo - {r}) == (all - todo) + {r} && todo - {r} <= all
  {
  }

  lemma OneMoreFailed(before: map<RequestId, Item>, mid: map<RequestId, Item>, after: map<RequestId, Item>, r: RequestId)
    requires r in before && before[r].status.Pending() && r in mid && !mid[r].status.Failed?
    requires r in after && after == mid[r := after[r]]
    ensures |FailedOf(before, after)| == |FailedOf(before, mid)| + if after[r].status.Failed? then 1 else 0
  {
    assert FailedOf(before, after) == FailedOf(before, mid) + if after[r].status.Failed? then {r} else {};
  }

  ghost function Canceller(b: BudgetId, error: Error, now: Time): Item -> Item { item => CancelledItem(item, b, error, now) }

  lemma AllCancelled(db: Db, after: map<RequestId, Item>, affected: set<RequestId>, b: BudgetId, error: Error, now: Time)
    requires affected == set r | r in db.items && TiedTo(db.items[r], b)
    requires Changed(db.items, after, affected, Canceller(b, error, now))
    ensures Cancel(db, b, error, now) == db.(items := after)
  {
    assert Cancel(db, b, error, now).items == after;
  }

  /** The pending rows that failed between two states of the table. */
  function FailedOf(before: map<RequestId, Item>, after: map<RequestId, Item>): set<RequestId> {
    set r | r in before && r in after && before[r].status.Pending() && after[r].status.Failed?
  }

  /** What a joining request makes of the one that is stored, and whether the row has to be rewritten. */
  method MergeRequest(held: Item, request: Request, kind: WorkKind, default: Time)
    returns (merged: Request, newKind: WorkKind, replaced: bool)
    ensures merged == MergedRequest(held.request, held.workKind, request, kind, default)
    ensures newKind == MergedKind(held.workKind, kind)
    ensures replaced <==> merged != held.request || newKind != held.workKind
  {
    merged, newKind, replaced := held.request, held.workKind, false;
    if kind.RefreshCompleted? {
      if newKind != RefreshCompleted {
        merged, newKind, replaced := request, RefreshCompleted, true;
      } else if request.refreshInterval < held.request.refreshInterval {
        merged, replaced := held.request.(refreshInterval := request.refreshInterval), true;
      }
    }
    var timeout := MaxReal(TimeoutOr(held.request, default), TimeoutOr(request, default));
    var priority := if held.request.priority >= request.priority then held.request.priority else request.priority;
    if merged.timeout != Some(timeout) {
      merged, replaced := merged.(timeout := Some(timeout)), true;
    }
    if merged.priority != priority {
      merged, replaced := merged.(priority := priority), true;
    }
  }

  /** _queue_item_upstream_budget_attempt_state_conn: memberships by the attempt they pay for. */
  method AttemptState(item: Item) returns (active: set<BudgetId>, uncharged: set<BudgetId>, future: set<BudgetId>)
    ensures active == set b | b in item.members && Active(item, b)
    ensures uncharged == set b | b in item.members && Owes(item, b)
    ensures future == set b | b in item.members && Future(item, b)
  {
    active, uncharged, future := {}, {}, {};
    var todo := item.members.Keys;
    while todo != {}
      invariant todo <= item.members.Keys
      invariant active == set b | b in item.members.Keys - todo && Active(item, b)
      invariant uncharged == set b | b in item.members.Keys - todo && Owes(item, b)
      invariant future == set b | b in item.members.Keys - todo && Future(item, b)
    {
      var b: BudgetId :| b in todo;
      todo := todo - {b};
      if item.members[b].firstAttempt <= item.attempts {
        active := active + {b};
        if item.members[b].lastCharged < item.attempts {
          uncharged := uncharged + {b};
        }
      } else {
        future := future + {b};
      }
    }
  }

  lemma ActiveLeft(item: Item, gone: set<BudgetId>, active: set<BudgetId>, future: set<BudgetId>)
    requires active == set b | b in item.members && Active(item, b)
    requires future == set b | b in item.members && Future(item, b)
    ensures HasActive(item, gone) <==> active - gone != {}
    ensures HasFuture(item, gone) <==> future - gone != {}
  {
    if HasActive(item, gone) {
      var b :| b in item.members && Active(item, b) && b !in gone;
      assert b in active - gone;
    }
    if HasFuture(item, gone) {
      var b :| b in item.members && Future(item, b) && b !in gone;
      assert b in future - gone;
    }
    if active - gone != {} {
      var b :| b in active - gone;
    }
    if future - gone != {} {
      var b :| b in future - gone;
    }
  }

  /** The two error queries together find the memberships that a reserve removes. */
  lemma InvalidAreGone(item: Item, budgets: Budgets, now: Time, active: set<BudgetId>, uncharged: set<BudgetId>,
                       future: set<BudgetId>, capacity: map<BudgetId, Error>, invalid: map<BudgetId, Error>)
    requires active == set b | b in item.members && Active(item, b)
    requires uncharged == set b | b in item.members && Owes(item, b)
    requires future == set b | b in item.members && Future(item, b)
    requires capacity == map b | b in uncharged + future && Problem(budgets, b, now, true).Some? :: Problem(budgets, b, now, true).value
    requires invalid == capacity + map b | b in active + future && Problem(budgets, b, now, false).Some? :: Problem(budgets, b, now, false).value
    ensures invalid == ReserveErrors(item, budgets, now) && invalid.Keys == ReserveGone(item, budgets, now)
    ensures uncharged - invalid.Keys == ReserveCharged(item, budgets, now)
    ensures HasActive(item, invalid.Keys) <==> active - invalid.Keys != {}
    ensures HasFuture(item, invalid.Keys) <==> future - invalid.Keys != {}
  {
    forall b: BudgetId ensures b in invalid <==> b in ReserveGone(item, budgets, now) {
    }
    assert invalid.Keys == ReserveGone(item, budgets, now);
    ActiveLeft(item, invalid.Keys, active, future);
  }

  /** A row that claim_next_queue_item may select. */
  predicate Candidate(items: map<RequestId, Item>, r: RequestId, keys: Option<set<CacheKey>>, ids: Option<set<RequestId>>, now: Time) {
    && r in items && Claimable(items[r], now)
    && (keys.Some? ==> items[r].cacheKey in keys.value)
    && (ids.Some? ==> r in ids.value)
  }

  predicate Precedes(x: Item, y: Item) {
    x.request.priority > y.request.priority || (x.request.priority == y.request.priority && x.createdAt <= y.createdAt)
  }

  lemma OnlyPending(db: Db, key: CacheKey, r: RequestId)
    requires PendingUnique(db) && IsPendingFor(db, key, r)
    ensures forall q: RequestId :: IsPendingFor(db, key, q) ==> q == r
  {
    forall q: RequestId | IsPendingFor(db, key, q) ensures q == r {
      assert Clash(db.items[q], db.items[r]);
    }
  }
}
