/** What every queue transaction keeps. */
module QueueInvariants {
  import opened Common
  import opened Queue

  /** Bookkeeping of one membership. A claimed attempt whose gate is still open is shared by all
      members; once the gate is closed, every member of the attempt has been charged for exactly
      this attempt. */
  predicate MemberOk(item: Item, m: Member) {
    && 1 <= m.firstAttempt <= item.attempts + 1
    && m.lastCharged <= item.attempts
    && (item.status.Claimed? && !item.gateClosed ==> m.firstAttempt <= item.attempts)
    && (item.status.Claimed? && item.gateClosed && m.firstAttempt <= item.attempts ==> m.lastCharged == item.attempts)
  }

  predicate ItemOk(item: Item) {
    && (forall b :: b in item.members ==> MemberOk(item, item.members[b]))
    && (item.primary.Some? ==> item.primary.value in item.members)
    && (item.primary.None? ==> item.members == map[])
    && (item.status.Claimed? ==> item.attempts >= 1 && item.claimedBy.Some? && item.claimedUntil.Some?)
  }

  predicate Clash(x: Item, y: Item) {
    x.status.Pending() && y.status.Pending() && x.cacheKey == y.cacheKey
  }

  /** The unique index on cache keys of pending rows. */
  ghost predicate PendingUnique(db: Db) {
    forall r, q {:trigger Clash(db.items[r], db.items[q])} ::
      r in db.items && q in db.items && Clash(db.items[r], db.items[q]) ==> r == q
  }

  predicate BudgetsOk(db: Db) {
    forall b :: b in db.budgets ==> db.budgets[b].started <= db.budgets[b].maxRequests
  }

  ghost predicate Inv(db: Db) {
    && (forall r :: r in db.items ==> ItemOk(db.items[r]) && db.items[r].members.Keys <= db.budgets.Keys)
    && PendingUnique(db)
    && BudgetsOk(db)
  }

  // ------------------------------------------------------------------ the primary budget

  predicate Sooner(m: Members, b: BudgetId, c: BudgetId)
    requires b in m && c in m
  {
    m[b].createdAt < m[c].createdAt || (m[b].createdAt == m[c].createdAt && b <= c)
  }

  lemma {:induction false} FirstOf(m: Members, bs: set<BudgetId>) returns (b: BudgetId)
    requires bs != {} && bs <= m.Keys
    ensures b in bs && forall c :: c in bs ==> Sooner(m, b, c)
    decreases |bs|
  {
    var i :| i in bs;
    if bs == {i} {
      b := i;
    } else {
      var rest := bs - {i};
      assert bs == rest + {i};
      var first := FirstOf(m, rest);
      b := if Sooner(m, i, first) then i else first;
      forall c | c in bs ensures Sooner(m, b, c) {
        assert c == i || c in rest;
      }
    }
  }

  /** The recomputed primary budget is the first membership, and missing only when none is left. */
  lemma PrimaryIsFirst(m: Members)
    ensures Primary(m).Some? ==> IsFirst(m, Primary(m).value)
    ensures Primary(m).None? <==> m == map[]
    ensures forall b: BudgetId :: IsFirst(m, b) ==> Primary(m) == Some(b)
  {
    if m != map[] {
      assert m.Keys != {};
      var b := FirstOf(m, m.Keys);
      forall c | c in m ensures Sooner(m, b, c) {}
      assert IsFirst(m, b);
    }
  }

  // ------------------------------------------------------------------ one row changes

  /** One row of queue_items changes, and it does not become pending beside another. */
  lemma RowKeeps(db: Db, r: RequestId, item: Item)
    requires Inv(db) && ItemOk(item) && item.members.Keys <= db.budgets.Keys
    requires item.status.Pending() ==>
               (r in db.items && Clash(db.items[r], item)) || !OtherPending(db, r, item.cacheKey)
    ensures Inv(db.(items := db.items[r := item]))
  {
    var db' := db.(items := db.items[r := item]);
    forall p, q | p in db'.items && q in db'.items && Clash(db'.items[p], db'.items[q]) ensures p == q {
      var p', q' := if p == r then q else p, if p == r then p else q;
      if p' != r && q' != r {
        assert Clash(db.items[p], db.items[q]);
      } else if p != q && r in db.items && Clash(db.items[r], item) {
        assert Clash(db.items[p'], db.items[r]);
      } else if p != q {
        assert IsPendingFor(db, item.cacheKey, p');
      }
    }
  }

  /** Rows change pointwise, each keeping its key and none becoming pending. */
  lemma RowsKeep(db: Db, db': Db)
    requires Inv(db) && db'.budgets == db.budgets && db'.items.Keys == db.items.Keys
    requires forall r :: r in db.items ==>
               && ItemOk(db'.items[r]) && db'.items[r].members.Keys <= db.items[r].members.Keys
               && (db'.items[r].status.Pending() ==> Clash(db.items[r], db'.items[r]))
    ensures Inv(db')
  {
    forall p, q | p in db'.items && q in db'.items && Clash(db'.items[p], db'.items[q]) ensures p == q {
      assert Clash(db.items[p], db.items[q]);
    }
  }

  // ------------------------------------------------------------------ items

  lemma DetachedMembers(item: Item, gone: set<BudgetId>)
    ensures var kept := DetachedIfAny(item, gone);
      && kept.members.Keys == item.members.Keys - gone
      && (forall b :: b in kept.members ==> kept.members[b] == item.members[b])
      && kept == item.(members := kept.members, primary := kept.primary)
  {}

  lemma DetachedOk(item: Item, gone: set<BudgetId>)
    requires ItemOk(item)
    ensures ItemOk(DetachedIfAny(item, gone)) && DetachedIfAny(item, gone).members == item.members - gone
  {
    PrimaryIsFirst(item.members - gone);
  }

  lemma ChargedOk(item: Item, charged: set<BudgetId>)
    requires ItemOk(item) && forall b: BudgetId :: Owes(item, b) ==> b in charged
    ensures ItemOk(ChargedItem(item, charged))
  {
    forall b | b in item.members ensures MemberOk(ChargedItem(item, charged), ChargedItem(item, charged).members[b]) {
      assert MemberOk(item, item.members[b]);
      if b !in charged {
        assert !Owes(item, b);
      }
    }
    if item.primary.None? {
      assert ChargedItem(item, charged).members == map[];
    }
  }

  lemma JoinedOk(held: Item, request: Request, kind: WorkKind, budget: Option<BudgetId>, default: Time, now: Time)
    requires ItemOk(held)
    ensures ItemOk(JoinedItem(held, request, kind, budget, default, now))
  {
    var item := JoinedItem(held, request, kind, budget, default, now);
    forall b | b in item.members ensures MemberOk(item, item.members[b]) {
      if b in held.members {
        assert MemberOk(held, held.members[b]);
      }
    }
  }

  lemma CancelledOk(item: Item, b: BudgetId, error: Error, now: Time)
    requires ItemOk(item)
    ensures ItemOk(CancelledItem(item, b, error, now))
  {
    PrimaryIsFirst(item.members - {b});
  }

  // ------------------------------------------------------------------ transactions

  lemma CreateBudgetKeeps(db: Db, b: BudgetId, maxRequests: int, deadline: Option<Time>)
    requires Inv(db)
    ensures var o := CreateBudget(db, b, maxRequests, deadline); o.Some? ==> Inv(o.value)
  {}

  lemma ReserveDirectKeeps(db: Db, b: BudgetId, now: Time)
    requires Inv(db)
    ensures Inv(ReserveDirect(db, b, now).0)
  {}

  /** After the hopeless budgets were detached, every one still owing has room for one more request:
      the second budget check inside the transaction cannot fail. */
  lemma ReserveHasRoom(item: Item, budgets: Budgets, now: Time)
    ensures var kept := DetachedIfAny(item, ReserveGone(item, budgets, now));
      && (forall b: BudgetId :: Owes(kept, b) <==> b in ReserveCharged(item, budgets, now))
      && (forall b :: b in ReserveCharged(item, budgets, now) ==> Problem(budgets, b, now, true).None?)
  {
    var kept := DetachedIfAny(item, ReserveGone(item, budgets, now));
    DetachedMembers(item, ReserveGone(item, budgets, now));
  }

  lemma ReserveKeeps(db: Db, r: RequestId, now: Time)
    requires Inv(db)
    ensures Inv(Reserve(db, r, now).0)
  {
    if r in db.items {
      var item := db.items[r];
      var kept := DetachedIfAny(item, ReserveGone(item, db.budgets, now));
      DetachedOk(item, ReserveGone(item, db.budgets, now));
      ReserveHasRoom(item, db.budgets, now);
      if Reserve(db, r, now).1.None? {
        var charged := ReserveCharged(item, db.budgets, now);
        ChargedOk(kept, charged);
        RowKeeps(db, r, ChargedItem(kept, charged));
        var db' := db.(items := db.items[r := ChargedItem(kept, charged)]);
        assert Reserve(db, r, now).0 == db'.(budgets := ChargedBudgets(db.budgets, charged));
        assert ChargedBudgets(db.budgets, charged).Keys == db.budgets.Keys;
      } else {
        RowKeeps(db, r, kept);
      }
    }
  }

  lemma CheckDeadlinesKeeps(db: Db, r: RequestId, now: Time)
    requires Inv(db)
    ensures Inv(CheckDeadlines(db, r, now).0)
  {
    if r in db.items {
      var gone := ExpiredGone(db.items[r], db.budgets, now);
      DetachedOk(db.items[r], gone);
      RowKeeps(db, r, DetachedIfAny(db.items[r], gone));
    }
  }

  lemma CancelRowOk(item: Item, b: BudgetId, error: Error, now: Time)
    requires ItemOk(item)
    ensures var item' := if TiedTo(item, b) then CancelledItem(item, b, error, now) else item;
      && ItemOk(item') && item'.members.Keys <= item.members.Keys
      && (item'.status.Pending() ==> Clash(item, item'))
  {
    CancelledOk(item, b, error, now);
  }

  lemma CancelKeeps(db: Db, b: BudgetId, error: Error, now: Time)
    requires Inv(db)
    ensures Inv(Cancel(db, b, error, now))
  {
    var db' := Cancel(db, b, error, now);
    forall r | r in db.items
      ensures ItemOk(db'.items[r]) && db'.items[r].members.Keys <= db.items[r].members.Keys
      ensures db'.items[r].status.Pending() ==> Clash(db.items[r], db'.items[r])
    {
      CancelRowOk(db.items[r], b, error, now);
    }
    RowsKeep(db, db');
  }

  lemma EnqueueKeeps(db: Db, newId: RequestId, key: CacheKey, request: Request, kind: WorkKind,
                     budget: Option<BudgetId>, default: Time, now: Time)
    requires Inv(db) && newId !in db.items
    ensures var o := Enqueue(db, newId, key, request, kind, budget, default, now); o.Done? ==> Inv(o.db)
  {
    var o := Enqueue(db, newId, key, request, kind, budget, default, now);
    if o.Done? {
      var r := o.value.0;
      if o.value.1 {
        JoinedOk(db.items[r], request, kind, budget, default, now);
      }
      RowKeeps(db, r, o.db.items[r]);
    }
  }

  /** A claim opens the gate for a new attempt, and every membership becomes part of it. */
  lemma ClaimKeeps(db: Db, r: RequestId, owner: Owner, ttl: Time, now: Time)
    requires Inv(db) && r in db.items && Claimable(db.items[r], now)
    ensures Inv(Claim(db, r, owner, ttl, now))
    ensures var item := Claim(db, r, owner, ttl, now).items[r];
      !item.gateClosed && forall b :: b in item.members ==> Active(item, b)
  {
    var item := ClaimedItem(db.items[r], owner, ttl, now);
    forall b | b in item.members ensures MemberOk(item, item.members[b]) {
      assert MemberOk(db.items[r], db.items[r].members[b]);
    }
    RowKeeps(db, r, item);
  }

  lemma RenewClaimKeeps(db: Db, r: RequestId, owner: Owner, ttl: Time, now: Time)
    requires Inv(db)
    ensures Inv(RenewClaim(db, r, owner, ttl, now))
  {
    if HoldsClaim(db, r, owner) {
      RowKeeps(db, r, RenewedItem(db.items[r], ttl, now));
    }
  }

  lemma ReleaseKeeps(db: Db, r: RequestId, status: Status, next: Option<Time>, error: Option<Error>, now: Time)
    requires Inv(db) && !status.Claimed?
    ensures var o := Release(db, r, status, next, error, now); o.Done? ==> Inv(o.db)
  {
    var o := Release(db, r, status, next, error, now);
    if o.Done? && r in db.items {
      RowKeeps(db, r, ReleasedItem(db.items[r], status, next, error, now));
    }
  }

  lemma CompleteKeeps(db: Db, r: RequestId, now: Time)
    requires Inv(db)
    ensures Inv(Complete(db, r, now))
  {
    if r in db.items {
      RowKeeps(db, r, CompletedItem(db.items[r], now));
    }
  }

  lemma WakeKeeps(db: Db, released: set<PaperId>, now: Time)
    requires Inv(db)
    ensures Inv(Wake(db, released, now))
  {
    RowsKeep(db, Wake(db, released, now));
  }

  lemma GcKeeps(db: Db, cutoff: Time, jobBudgets: set<BudgetId>)
    requires Inv(db)
    ensures Inv(DeleteUnreferenced(DeleteExpired(db, cutoff), jobBudgets))
  {
    var db1 := DeleteExpired(db, cutoff);
    forall p, q | p in db1.items && q in db1.items && Clash(db1.items[p], db1.items[q]) ensures p == q {
      assert Clash(db.items[p], db.items[q]);
    }
    var db2 := DeleteUnreferenced(db1, jobBudgets);
    forall r | r in db2.items ensures db2.items[r].members.Keys <= db2.budgets.Keys {
      forall b | b in db2.items[r].members ensures Referenced(db1, b, jobBudgets) {
        assert r in db1.items && b in db1.items[r].members;
      }
    }
  }
}
