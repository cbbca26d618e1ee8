/** What the queue transactions do, said in the columns of the rows: who is charged and who is detached at what
    time, when an item can be claimed, and what a request to enqueue leaves behind. */
module QueueMeaning {
  import opened Common
  import opened Queue
  import opened QueueInvariants

  // ------------------------------------------------------------------ budgets

  /** The budget exists and its deadline, if it has one, lies ahead. */
  predicate InTime(budgets: Budgets, b: BudgetId, now: Time) {
    b in budgets && (budgets[b].deadline.None? || now < budgets[b].deadline.value)
  }

  predicate HasRoom(budgets: Budgets, b: BudgetId) { b in budgets && budgets[b].started < budgets[b].maxRequests }

  predicate Late(budgets: Budgets, b: BudgetId, now: Time) {
    b in budgets && budgets[b].deadline.Some? && budgets[b].deadline.value <= now
  }

  /** The membership takes part in the running attempt, and was charged for it or not. */
  predicate TakesPart(item: Item, b: BudgetId) { b in item.members && item.members[b].firstAttempt <= item.attempts }

  predicate Charged(item: Item, b: BudgetId) { TakesPart(item, b) && item.members[b].lastCharged >= item.attempts }

  /** A membership that a reservation keeps: its budget is in time, and was charged for this attempt or has room. */
  predicate Stays(item: Item, budgets: Budgets, b: BudgetId, now: Time) {
    b in item.members && InTime(budgets, b, now) && (Charged(item, b) || HasRoom(budgets, b))
  }

  /** One request more, or none, counted on a budget; one attempt marked, or not, on a membership. */
  function Counted(budget: Budget, charged: bool): Budget {
    if charged then Budget(budget.maxRequests, budget.started + 1, budget.deadline) else budget
  }

  function Marked(m: Member, attempt: nat, charged: bool): Member {
    if charged then Member(m.createdAt, m.firstAttempt, attempt) else m
  }

  /** reserve_upstream_request admits a request exactly before the deadline and below the limit, and counts it. */
  lemma DirectReservation(db: Db, b: BudgetId, now: Time)
    ensures var (db', error) := ReserveDirect(db, b, now);
            && (error.None? <==> InTime(db.budgets, b, now) && HasRoom(db.budgets, b))
            && (error == Some(DeadlineBudgetExceeded) <==> Late(db.budgets, b, now))
            && db'.items == db.items && db'.budgets.Keys == db.budgets.Keys
            && (forall c :: c in db.budgets ==> db'.budgets[c] == Counted(db.budgets[c], c == b && error.None?))
  {
    var p := Problem(db.budgets, b, now, true);
    if p.Some? {
      assert ReserveDirect(db, b, now) == (db, p);
    }
  }

  /** A run of requests charged directly to one budget, each at its time, and how many were admitted. */
  function Drained(db: Db, b: BudgetId, times: seq<Time>): (Db, nat)
    decreases |times|
  {
    if times == [] then (db, 0)
    else
      var (before, admitted) := Drained(db, b, times[..|times| - 1]);
      var (after, error) := ReserveDirect(before, b, times[|times| - 1]);
      (after, if error.None? then admitted + 1 else admitted)
  }

  function Early(times: seq<Time>, deadline: Option<Time>): nat
    decreases |times|
  {
    if times == [] then 0
    else Early(times[..|times| - 1], deadline) + if deadline.None? || times[|times| - 1] < deadline.value then 1 else 0
  }

  /** A budget can be created for any positive number of requests, and admits just so many of those before its
      deadline, in whatever order the times come. */
  lemma {:induction false} BudgetAdmitsExactly(db: Db, b: BudgetId, maxRequests: int, deadline: Option<Time>, times: seq<Time>)
    ensures var created := CreateBudget(db, b, maxRequests, deadline);
            && (created.Some? <==> maxRequests >= 1)
            && (created.Some? ==>
                && created.value.items == db.items && created.value.budgets - {b} == db.budgets - {b}
                && var (after, admitted) := Drained(created.value, b, times);
                   && b in after.budgets && after.budgets[b] == Budget(maxRequests, admitted, deadline)
                   && admitted == if Early(times, deadline) < maxRequests then Early(times, deadline) else maxRequests)
    decreases |times|
  {
    if maxRequests >= 1 && times != [] {
      BudgetAdmitsExactly(db, b, maxRequests, deadline, times[..|times| - 1]);
    }
  }

  /** The last check before network I/O goes ahead exactly when there is unbudgeted demand or an active budget in time,
      and keeps exactly the memberships whose budgets are in time. */
  lemma DeadlineCheck(db: Db, r: RequestId, now: Time)
    ensures var (db', error) := CheckDeadlines(db, r, now);
            && (error.None? <==>
                r in db.items && (db.items[r].unbudgeted
                                  || exists b :: TakesPart(db.items[r], b) && InTime(db.budgets, b, now)))
            && db'.budgets == db.budgets && db'.items.Keys == db.items.Keys
            && (forall q :: q in db.items && q != r ==> db'.items[q] == db.items[q])
            && (r in db.items ==>
                && (forall b :: b in db'.items[r].members <==> b in db.items[r].members && InTime(db.budgets, b, now))
                && (forall b :: b in db'.items[r].members ==> db'.items[r].members[b] == db.items[r].members[b])
                && db'.items[r].(members := db.items[r].members, primary := db.items[r].primary) == db.items[r])
  {
    if r in db.items {
      var item := db.items[r];
      var gone := ExpiredGone(item, db.budgets, now);
      DetachedMembers(item, gone);
      forall b | b in item.members ensures b in gone <==> !InTime(db.budgets, b, now) {
      }
      forall b ensures TakesPart(item, b) && InTime(db.budgets, b, now) <==> b in item.members && Active(item, b) && b !in gone {
      }
    }
  }

  /** When it does not go ahead: the work waits if a later attempt has a budget in time; else a passed deadline
      outranks a budget that no longer exists. */
  lemma DeadlineCheckError(db: Db, r: RequestId, now: Time)
    requires CheckDeadlines(db, r, now).1.Some? && r in db.items
    ensures var error, item := CheckDeadlines(db, r, now).1.value, db.items[r];
            && (error == BudgetDeferred <==>
                exists b :: b in item.members && !TakesPart(item, b) && InTime(db.budgets, b, now))
            && (error == DeadlineBudgetExceeded <==>
                && !(exists b :: b in item.members && !TakesPart(item, b) && InTime(db.budgets, b, now))
                && exists b :: b in item.members && Late(db.budgets, b, now))
            && error in {BudgetDeferred, DeadlineBudgetExceeded, RequestBudgetExceeded}
  {
    var item := db.items[r];
    var gone, errors := ExpiredGone(item, db.budgets, now), ExpiredErrors(item, db.budgets, now);
    forall b ensures b in item.members && !TakesPart(item, b) && InTime(db.budgets, b, now)
                     <==> b in item.members && Future(item, b) && b !in gone {
    }
    if exists b :: b in item.members && Late(db.budgets, b, now) {
      var b :| b in item.members && Late(db.budgets, b, now);
      assert b in errors && errors[b] == DeadlineBudgetExceeded;
    }
    if DeadlineBudgetExceeded in errors.Values {
      var b :| b in errors && errors[b] == DeadlineBudgetExceeded;
      assert Late(db.budgets, b, now);
    }
  }

  /** A reservation goes ahead exactly when there is unbudgeted demand or an active membership that stays; it keeps
      exactly the memberships that stay. */
  lemma Reservation(db: Db, r: RequestId, now: Time)
    ensures var (db', error) := Reserve(db, r, now);
            && (error.None? <==>
                r in db.items && (db.items[r].unbudgeted
                                  || exists b :: TakesPart(db.items[r], b) && Stays(db.items[r], db.budgets, b, now)))
            && db'.items.Keys == db.items.Keys
            && (forall q :: q in db.items && q != r ==> db'.items[q] == db.items[q])
            && (r in db.items ==> forall b :: b in db'.items[r].members <==> Stays(db.items[r], db.budgets, b, now))
  {
    if r in db.items {
      var item := db.items[r];
      GoneExactly(item, db.budgets, now);
      DetachedMembers(item, ReserveGone(item, db.budgets, now));
    }
  }

  lemma GoneExactly(item: Item, budgets: Budgets, now: Time)
    ensures forall b :: b in item.members ==> (b in ReserveGone(item, budgets, now) <==> !Stays(item, budgets, b, now))
    ensures forall b :: b in ReserveCharged(item, budgets, now) <==>
              TakesPart(item, b) && !Charged(item, b) && InTime(budgets, b, now) && HasRoom(budgets, b)
    ensures HasActive(item, ReserveGone(item, budgets, now)) <==> exists b :: TakesPart(item, b) && Stays(item, budgets, b, now)
  {
    forall b ensures TakesPart(item, b) && Stays(item, budgets, b, now)
                     <==> b in item.members && Active(item, b) && b !in ReserveGone(item, budgets, now) {
    }
  }

  /** A reservation that goes ahead charges one request to exactly the budgets that take part, were not charged for
      this attempt, are in time and have room; it marks just these memberships and closes the gate of a claim. One
      that does not go ahead charges nobody. */
  lemma ReservationCharges(db: Db, r: RequestId, now: Time)
    ensures var (db', error) := Reserve(db, r, now);
            && db'.budgets.Keys == db.budgets.Keys
            && (error.Some? ==> db'.budgets == db.budgets)
            && (error.None? ==>
                && r in db.items
                && (forall b :: b in db.budgets ==> db'.budgets[b] == Counted(db.budgets[b], Pays(db, r, b, now)))
                && (forall b :: b in db'.items[r].members ==>
                      && b in db.items[r].members
                      && db'.items[r].members[b] == Marked(db.items[r].members[b], db.items[r].attempts, Pays(db, r, b, now)))
                && db'.items[r].gateClosed == (db.items[r].gateClosed || db.items[r].status.Claimed?))
  {
    if r in db.items {
      GoneExactly(db.items[r], db.budgets, now);
      DetachedMembers(db.items[r], ReserveGone(db.items[r], db.budgets, now));
    }
  }

  predicate Pays(db: Db, r: RequestId, b: BudgetId, now: Time)
    requires r in db.items
  {
    var item := db.items[r];
    TakesPart(item, b) && !Charged(item, b) && InTime(db.budgets, b, now) && HasRoom(db.budgets, b)
  }

  /** When a reservation does not go ahead: a later attempt may have a membership that stays; else a passed deadline
      outranks a used-up or missing budget. */
  lemma ReservationError(db: Db, r: RequestId, now: Time)
    requires Reserve(db, r, now).1.Some? && r in db.items
    ensures var error, item := Reserve(db, r, now).1.value, db.items[r];
            && (error == BudgetDeferred <==> exists b :: !TakesPart(item, b) && Stays(item, db.budgets, b, now))
            && (error == DeadlineBudgetExceeded <==>
                && !(exists b :: !TakesPart(item, b) && Stays(item, db.budgets, b, now))
                && exists b :: b in item.members && Late(db.budgets, b, now))
            && error in {BudgetDeferred, DeadlineBudgetExceeded, RequestBudgetExceeded}
  {
    var item := db.items[r];
    var gone, errors := ReserveGone(item, db.budgets, now), ReserveErrors(item, db.budgets, now);
    GoneExactly(item, db.budgets, now);
    forall b ensures !TakesPart(item, b) && Stays(item, db.budgets, b, now)
                     <==> b in item.members && Future(item, b) && b !in gone {
    }
    if exists b :: b in item.members && Late(db.budgets, b, now) {
      var b :| b in item.members && Late(db.budgets, b, now);
      assert b in errors && errors[b] == DeadlineBudgetExceeded;
    }
    if DeadlineBudgetExceeded in errors.Values {
      var b :| b in errors && errors[b] == DeadlineBudgetExceeded;
      assert Late(db.budgets, b, now);
    }
  }

  // ------------------------------------------------------------------ when an item can be claimed

  /** A claim, and each renewal, keeps the item from others until it expires, and no longer. */
  lemma ClaimKeepsOthersOut(db: Db, r: RequestId, owner: Owner, ttl: Time, now: Time, later: Time)
    requires r in db.items
    ensures var item := Claim(db, r, owner, ttl, now).items[r];
            && item.claimedBy == Some(owner) && item.attempts == db.items[r].attempts + 1 && item.updatedAt == now
            && (Claimable(item, later) <==> later >= now + ttl)
    ensures HoldsClaim(db, r, owner) ==>
              var item := RenewClaim(db, r, owner, ttl, now).items[r];
              && item.claimedBy == Some(owner) && item.attempts == db.items[r].attempts && item.updatedAt == now
              && (Claimable(item, later) <==> later >= now + ttl)
    ensures !HoldsClaim(db, r, owner) ==> RenewClaim(db, r, owner, ttl, now) == db
  {
  }

  /** An item that was handed back waits until the time given, or not at all; a failed or completed one is not claimed
      again. */
  lemma HandBackWaits(db: Db, r: RequestId, status: Status, next: Option<Time>, error: Option<Error>, now: Time, later: Time)
    requires r in db.items && (status.Delayed? || status.Failed?)
    ensures match Release(db, r, status, next, error, now)
            case Rollback => status.Delayed? && OtherPending(db, r, db.items[r].cacheKey)
            case Done(db', _) =>
              && db' == db.(items := db.items[r := db'.items[r]])
              && db'.items[r].(nextAttemptAt := None) ==
                   db.items[r].(status := status, error := error, nextAttemptAt := None, claimedBy := None,
                                claimedUntil := None, gateClosed := false, updatedAt := now)
              && (Claimable(db'.items[r], later) <==> status.Delayed? && (next.None? || later >= next.value))
    ensures var item := Complete(db, r, now).items[r];
            && item == db.items[r].(status := Completed, error := None, claimedBy := None, claimedUntil := None,
                                    completedAt := Some(now), updatedAt := now)
            && !Claimable(item, later)
  {
  }

  /** A request leaves a row of its key pending that carries its demand: the row that was pending, or a new one that
      can be claimed at once. It is refused exactly when it names a budget that does not exist. */
  lemma EnqueueLeavesDemand(db: Db, newId: RequestId, key: CacheKey, request: Request, kind: WorkKind,
                            budget: Option<BudgetId>, default: Time, now: Time, later: Time)
    requires Inv(db) && newId !in db.items
    ensures match Enqueue(db, newId, key, request, kind, budget, default, now)
            case Rollback => budget.Some? && budget.value !in db.budgets
            case Done(db', (r, joined)) =>
              && (budget.Some? ==> budget.value in db.budgets)
              && IsPendingFor(db', key, r) && db'.budgets == db.budgets
              && (joined <==> exists q: RequestId :: IsPendingFor(db, key, q))
              && (joined <==> r != newId)
              && (forall q :: q in db.items && q != r ==> q in db'.items && db'.items[q] == db.items[q])
              && db'.items.Keys == db.items.Keys + {r}
              && (if budget.None? then db'.items[r].unbudgeted else budget.value in db'.items[r].members)
              && (joined ==> r in db.items && (Claimable(db'.items[r], later) <==> Claimable(db.items[r], later)))
              && (!joined ==>
                  && Claimable(db'.items[r], later) && db'.items[r].createdAt == now && db'.items[r].attempts == 0
                  && db'.items[r].request == request && db'.items[r].workKind == kind && db'.items[r].primary == budget
                  && db'.items[r].members == if budget.Some? then map[budget.value := Member(now, 1, 0)] else map[])
  {
  }

  /** A budget that joins an item pays for the attempt that is running exactly when its gate is open, and for the next
      one at the latest; it owes what it pays for, and the other memberships stay. */
  lemma JoinPaysFrom(held: Item, request: Request, kind: WorkKind, b: BudgetId, default: Time, now: Time)
    requires b !in held.members && (held.status.Claimed? ==> held.attempts >= 1)
    ensures var item := JoinedItem(held, request, kind, Some(b), default, now);
            && b in item.members && item.members[b].createdAt == now && item.members[b].lastCharged == 0
            && item.members - {b} == held.members && item.attempts == held.attempts && item.status == held.status
            && (TakesPart(item, b) <==> held.status.Claimed? && !held.gateClosed)
            && item.members[b].firstAttempt <= held.attempts + 1
            && item.primary == (if held.primary.Some? then held.primary else Some(b))
  {
  }

  /** A join that names a budget shows in the row's time, and so does one that changes the row; another leaves it alone. */
  lemma JoinShowsWhen(held: Item, request: Request, kind: WorkKind, budget: Option<BudgetId>, default: Time, now: Time)
    ensures var item := JoinedItem(held, request, kind, budget, default, now);
            item.updatedAt == if budget.None? && item.(updatedAt := held.updatedAt) == held then held.updatedAt else now
  {
  }

  /** Whose content is stored: one of the two requests', whole, apart from what is merged. The timeout is the longer of
      the two, a missing one standing for the default. */
  lemma JoinKeepsOneContent(held: Request, heldKind: WorkKind, request: Request, kind: WorkKind, default: Time)
    ensures var merged := MergedRequest(held, heldKind, request, kind, default);
            && (if kind.RefreshCompleted? && heldKind.FetchMissing?
                then merged.idList == request.idList && merged.rest == request.rest
                else merged.idList == held.idList && merged.rest == held.rest)
            && merged.timeout.Some?
            && (forall r :: r in {held, request} ==>
                  merged.timeout.value >= match r.timeout case None => default case Some(t) => t)
            && (merged.timeout in {held.timeout, request.timeout}
                || (merged.timeout.value == default && (held.timeout.None? || request.timeout.None?)))
  {
  }

  /** An item that was delayed because another worker had reserved some of its ids can be claimed at once when one of
      them is released; other items do not move. */
  lemma ReleaseWakes(db: Db, r: RequestId, next: Option<Time>, now: Time, id: PaperId, released: set<PaperId>, then_: Time)
    requires r in db.items && !OtherPending(db, r, db.items[r].cacheKey)
    requires id in db.items[r].request.idList && id in released
    ensures var delayed := Release(db, r, Delayed, next, Some(IdFetchReserved), now).db;
            && Claimable(Wake(delayed, released, then_).items[r], then_)
            && (forall q :: q in delayed.items ==>
                  Wake(delayed, released, then_).items[q] ==
                    if delayed.items[q].status.Delayed? && delayed.items[q].error == Some(IdFetchReserved)
                       && exists x :: x in delayed.items[q].request.idList && x in released
                    then delayed.items[q].(status := Queued, error := None, nextAttemptAt := None, claimedBy := None,
                                           claimedUntil := None, gateClosed := false, updatedAt := then_)
                    else delayed.items[q])
  {
  }
}
