/** Runs of queue transactions by any number of processes, in any order, with a ledger of every
    request charged to every budget. */
module Charges {
  import opened Common
  import opened Queue
  import opened QueueInvariants

  /** One transaction with its arguments. Any process may issue any of them at any time: workers whose
      claim is long gone are not excluded. */
  datatype Tx =
    | TxCreateBudget(budget: BudgetId, maxRequests: int, deadline: Option<Time>)
    | TxEnqueue(newId: RequestId, key: CacheKey, request: Request, kind: WorkKind, joins: Option<BudgetId>, default: Time)
    | TxClaim(item: RequestId, owner: Owner, ttl: Time)
    | TxRenew(item: RequestId, owner: Owner, ttl: Time)
    | TxReserve(item: RequestId)
    | TxCheck(item: RequestId)
    | TxReserveDirect(budget: BudgetId)
    | TxCancel(budget: BudgetId, error: Error)
    | TxRelease(item: RequestId, status: Status, next: Option<Time>, reason: Option<Error>)
    | TxComplete(item: RequestId)
    | TxWake(released: set<PaperId>)
    | TxGc(cutoff: Time, jobBudgets: set<BudgetId>)

  datatype Timed = At(now: Time, tx: Tx)

  /** What a request was charged for: an attempt of an item, or a caller outside the queue. */
  datatype Cause = Attempt(item: RequestId, attempt: nat) | Outside

  datatype Account = Account(limit: nat, charges: seq<Cause>)

  /** The tables, the accounts of all budgets ever created, and all request ids ever issued. */
  datatype Ledger = Ledger(db: Db, accounts: map<BudgetId, Account>, issued: set<RequestId>)

  const EMPTY := Ledger(Db(map[], map[]), map[], {})

  /** What callers owe: a claim picks a claimable row, a new row gets a new id, and items are released
      only to the delayed and failed states. */
  predicate Fits(db: Db, e: Timed) {
    match e.tx
    case TxCreateBudget(b, _, _) => b !in db.budgets
    case TxEnqueue(newId, _, _, _, _, _) => newId !in db.items
    case TxClaim(r, _, _) => r in db.items && Claimable(db.items[r], e.now)
    case TxRelease(_, status, _, _) => status.Delayed? || status.Failed?
    case _ => true
  }

  /** Beyond that, uuids are never issued twice. */
  predicate Allowed(l: Ledger, e: Timed) {
    && Fits(l.db, e)
    && (e.tx.TxCreateBudget? ==> e.tx.budget !in l.accounts)
    && (e.tx.TxEnqueue? ==> e.tx.newId !in l.issued)
  }

  ghost function Apply(db: Db, e: Timed): Db {
    match e.tx
    case TxCreateBudget(b, n, d) => (match CreateBudget(db, b, n, d) case None => db case Some(db') => db')
    case TxEnqueue(newId, key, request, kind, joins, default) =>
      (match Enqueue(db, newId, key, request, kind, joins, default, e.now) case Rollback => db case Done(db', _) => db')
    case TxClaim(r, o, ttl) => if r in db.items then Claim(db, r, o, ttl, e.now) else db
    case TxRenew(r, o, ttl) => RenewClaim(db, r, o, ttl, e.now)
    case TxReserve(r) => Reserve(db, r, e.now).0
    case TxCheck(r) => CheckDeadlines(db, r, e.now).0
    case TxReserveDirect(b) => ReserveDirect(db, b, e.now).0
    case TxCancel(b, error) => Cancel(db, b, error, e.now)
    case TxRelease(r, status, next, reason) =>
      (match Release(db, r, status, next, reason, e.now) case Rollback => db case Done(db', _) => db')
    case TxComplete(r) => Complete(db, r, e.now)
    case TxWake(ids) => Wake(db, ids, e.now)
    case TxGc(cutoff, jobs) => DeleteUnreferenced(DeleteExpired(db, cutoff), jobs)
  }

  function CauseOf(db: Db, tx: Tx): Cause {
    if tx.TxReserve? && tx.item in db.items then Attempt(tx.item, db.items[tx.item].attempts) else Outside
  }

  predicate Rose(db: Db, db': Db, b: BudgetId) {
    b in db.budgets && b in db'.budgets && db'.budgets[b].started != db.budgets[b].started
  }

  /** The accounts record what the tables show: a budget whose counter moved was charged. */
  ghost function Next(l: Ledger, e: Timed): Ledger {
    var db' := Apply(l.db, e);
    var added := map b | b in db'.budgets && b !in l.accounts :: Account(db'.budgets[b].maxRequests, []);
    Ledger(db',
           (map b | b in l.accounts ::
              if Rose(l.db, db', b) then Account(l.accounts[b].limit, l.accounts[b].charges + [CauseOf(l.db, e.tx)])
              else l.accounts[b]) + added,
           if e.tx.TxEnqueue? then l.issued + {e.tx.newId} else l.issued)
  }

  ghost function Run(l: Ledger, es: seq<Timed>): Ledger
    decreases |es|
  {
    if es == [] then l else Run(Next(l, es[0]), es[1..])
  }

  ghost predicate Legal(l: Ledger, es: seq<Timed>)
    decreases |es|
  {
    es == [] || (Allowed(l, es[0]) && Legal(Next(l, es[0]), es[1..]))
  }

  // ------------------------------------------------------------------ the invariant

  predicate NoRepeat(cs: seq<Cause>) {
    forall i, j :: 0 <= i < j < |cs| && cs[i].Attempt? ==> cs[i] != cs[j]
  }

  /** Attempt `a` of the item was charged to budget `b`: no membership of `b` can owe it again. */
  predicate Settled(item: Item, b: BudgetId, a: nat) {
    && a <= item.attempts
    && (a == item.attempts && item.status.Claimed? ==> item.gateClosed)
    && (b in item.members ==> item.members[b].lastCharged >= a || item.members[b].firstAttempt > a)
  }

  predicate CauseOk(l: Ledger, b: BudgetId, c: Cause) {
    c.Attempt? ==> c.item in l.issued && (c.item in l.db.items ==> Settled(l.db.items[c.item], b, c.attempt))
  }

  predicate AccountOk(l: Ledger, b: BudgetId)
    requires b in l.accounts
  {
    && |l.accounts[b].charges| <= l.accounts[b].limit
    && NoRepeat(l.accounts[b].charges)
    && (forall i :: 0 <= i < |l.accounts[b].charges| ==> CauseOk(l, b, l.accounts[b].charges[i]))
    && (b in l.db.budgets ==>
          l.db.budgets[b].started == |l.accounts[b].charges| && l.db.budgets[b].maxRequests == l.accounts[b].limit)
  }

  /** A membership marked as charged really was: its account says so. */
  predicate Backed(l: Ledger, r: RequestId)
    requires r in l.db.items
  {
    forall b :: b in l.db.items[r].members && l.db.items[r].members[b].lastCharged > 0 ==>
      b in l.accounts && Attempt(r, l.db.items[r].members[b].lastCharged) in l.accounts[b].charges
  }

  ghost predicate LedgerOk(l: Ledger) {
    && Inv(l.db)
    && l.db.items.Keys <= l.issued
    && l.db.budgets.Keys <= l.accounts.Keys
    && (forall b :: b in l.accounts ==> AccountOk(l, b))
    && (forall r :: r in l.db.items ==> Backed(l, r))
  }

  // ------------------------------------------------------------------ how one item may evolve

  /** Every transaction treats every item it keeps like this: attempts only grow, a gate never
      reopens within an attempt, and a membership that appears or reappears belongs to a later attempt
      than any the item was charged for. */
  predicate Evolves(x: Item, y: Item) {
    && y.attempts >= x.attempts
    && (y.attempts == x.attempts && y.status.Claimed? ==> x.status.Claimed? && (x.gateClosed ==> y.gateClosed))
    && forall b :: b in y.members ==>
         if b in x.members
         then y.members[b].firstAttempt == x.members[b].firstAttempt && y.members[b].lastCharged >= x.members[b].lastCharged
         else y.members[b].firstAttempt > x.attempts
              || (x.status.Claimed? && !x.gateClosed && y.members[b].firstAttempt == x.attempts)
  }

  lemma SettledStays(x: Item, y: Item, b: BudgetId, a: nat)
    requires Settled(x, b, a) && Evolves(x, y)
    ensures Settled(y, b, a)
  {}

  lemma DetachEvolves(x: Item, gone: set<BudgetId>)
    ensures Evolves(x, DetachedIfAny(x, gone))
  {
    DetachedMembers(x, gone);
  }

  lemma ReserveEvolves(db: Db, r: RequestId, now: Time)
    requires r in db.items && ItemOk(db.items[r])
    ensures Evolves(db.items[r], Reserve(db, r, now).0.items[r])
  {
    var x := db.items[r];
    var gone := ReserveGone(x, db.budgets, now);
    DetachedMembers(x, gone);
    forall b | b in x.members ensures MemberOk(x, x.members[b]) {}
  }

  lemma JoinEvolves(x: Item, request: Request, kind: WorkKind, budget: Option<BudgetId>, default: Time, now: Time)
    requires ItemOk(x)
    ensures Evolves(x, JoinedItem(x, request, kind, budget, default, now))
  {}

  lemma EnqueueEvolves(db: Db, e: Timed, r: RequestId)
    requires Fits(db, e) && e.tx.TxEnqueue? && r in db.items && ItemOk(db.items[r]) && r in Apply(db, e).items
    ensures Evolves(db.items[r], Apply(db, e).items[r])
  {
    JoinEvolves(db.items[r], e.tx.request, e.tx.kind, e.tx.joins, e.tx.default, e.now);
  }

  lemma CancelEvolves(x: Item, b: BudgetId, error: Error, now: Time)
    ensures Evolves(x, CancelledItem(x, b, error, now))
  {}

  lemma ReserveTxEvolves(db: Db, e: Timed, r: RequestId)
    requires e.tx.TxReserve? && r in db.items && ItemOk(db.items[r]) && r in Apply(db, e).items
    ensures Evolves(db.items[r], Apply(db, e).items[r])
  {
    ReserveEvolves(db, r, e.now);
  }

  lemma CheckTxEvolves(db: Db, e: Timed, r: RequestId)
    requires e.tx.TxCheck? && r in db.items && r in Apply(db, e).items
    ensures Evolves(db.items[r], Apply(db, e).items[r])
  {
    DetachEvolves(db.items[r], ExpiredGone(db.items[r], db.budgets, e.now));
  }

  lemma CancelTxEvolves(db: Db, e: Timed, r: RequestId)
    requires e.tx.TxCancel? && r in db.items && r in Apply(db, e).items
    ensures Evolves(db.items[r], Apply(db, e).items[r])
  {
    CancelEvolves(db.items[r], e.tx.budget, e.tx.error, e.now);
  }

  lemma ItemsEvolve(db: Db, e: Timed, r: RequestId)
    requires Fits(db, e) && r in db.items && ItemOk(db.items[r]) && r in Apply(db, e).items
    ensures Evolves(db.items[r], Apply(db, e).items[r])
  {
    if e.tx.TxEnqueue? {
      EnqueueEvolves(db, e, r);
    } else if e.tx.TxReserve? {
      ReserveTxEvolves(db, e, r);
    } else if e.tx.TxCheck? {
      CheckTxEvolves(db, e, r);
    } else if e.tx.TxCancel? {
      CancelTxEvolves(db, e, r);
    } else {
      OthersEvolve(db, e, r);
    }
  }

  lemma OthersEvolve(db: Db, e: Timed, r: RequestId)
    requires Fits(db, e) && r in db.items && ItemOk(db.items[r]) && r in Apply(db, e).items
    requires !e.tx.TxEnqueue? && !e.tx.TxReserve? && !e.tx.TxCheck? && !e.tx.TxCancel?
    ensures Evolves(db.items[r], Apply(db, e).items[r])
  {}

  lemma ApplyKeeps(db: Db, e: Timed)
    requires Inv(db) && Fits(db, e)
    ensures Inv(Apply(db, e))
  {
    match e.tx
    case TxCreateBudget(b, n, d) => CreateBudgetKeeps(db, b, n, d);
    case TxEnqueue(newId, key, request, kind, joins, default) =>
      EnqueueKeeps(db, newId, key, request, kind, joins, default, e.now);
    case TxClaim(r, o, ttl) => ClaimKeeps(db, r, o, ttl, e.now);
    case TxRenew(r, o, ttl) => RenewClaimKeeps(db, r, o, ttl, e.now);
    case TxReserve(r) => ReserveKeeps(db, r, e.now);
    case TxCheck(r) => CheckDeadlinesKeeps(db, r, e.now);
    case TxReserveDirect(b) => ReserveDirectKeeps(db, b, e.now);
    case TxCancel(b, error) => CancelKeeps(db, b, error, e.now);
    case TxRelease(r, status, next, reason) => ReleaseKeeps(db, r, status, next, reason, e.now);
    case TxComplete(r) => CompleteKeeps(db, r, e.now);
    case TxWake(ids) => WakeKeeps(db, ids, e.now);
    case TxGc(cutoff, jobs) => GcKeeps(db, cutoff, jobs);
  }

  /** A charge to an item is one that the item still owed. */
  lemma ChargeWasOwed(db: Db, e: Timed, b: BudgetId)
    requires Fits(db, e) && Rose(db, Apply(db, e), b)
    ensures Apply(db, e).budgets[b].started == db.budgets[b].started + 1
    ensures e.tx.TxReserve? ==>
      && e.tx.item in db.items && Owes(db.items[e.tx.item], b)
      && e.tx.item in Apply(db, e).items
      && var y := Apply(db, e).items[e.tx.item];
         && y.attempts == db.items[e.tx.item].attempts && (y.status.Claimed? ==> y.gateClosed)
         && (b in y.members ==> y.members[b].lastCharged == y.attempts)
  {
    if e.tx.TxReserve? && e.tx.item in db.items {
      var item := db.items[e.tx.item];
      DetachedMembers(item, ReserveGone(item, db.budgets, e.now));
    }
  }

  lemma ChargeIsNew(l: Ledger, e: Timed, b: BudgetId)
    requires Allowed(l, e) && b in l.accounts && AccountOk(l, b) && Rose(l.db, Apply(l.db, e), b)
    ensures var c := CauseOf(l.db, e.tx); c.Attempt? ==>
      && c !in l.accounts[b].charges
      && c.item in Apply(l.db, e).items && Settled(Apply(l.db, e).items[c.item], b, c.attempt)
  {
    var c := CauseOf(l.db, e.tx);
    if c.Attempt? {
      ChargeWasOwed(l.db, e, b);
      forall i | 0 <= i < |l.accounts[b].charges| ensures l.accounts[b].charges[i] != c {
        assert CauseOk(l, b, l.accounts[b].charges[i]);
      }
    }
  }

  lemma CauseKeeps(l: Ledger, e: Timed, b: BudgetId, c: Cause)
    requires Allowed(l, e) && Inv(l.db) && CauseOk(l, b, c)
    ensures CauseOk(Next(l, e), b, c)
  {
    var db' := Apply(l.db, e);
    if c.Attempt? && c.item in db'.items {
      ItemsOrigin(l.db, e, c.item);
      if c.item in l.db.items {
        ItemsEvolve(l.db, e, c.item);
        SettledStays(l.db.items[c.item], db'.items[c.item], b, c.attempt);
      }
    }
  }

  lemma ItemsOrigin(db: Db, e: Timed, r: RequestId)
    requires r in Apply(db, e).items
    ensures r in db.items || (e.tx.TxEnqueue? && e.tx.newId == r)
  {}

  lemma AccountKeeps(l: Ledger, e: Timed, b: BudgetId)
    requires Allowed(l, e) && Inv(l.db) && Inv(Apply(l.db, e)) && b in l.accounts && AccountOk(l, b)
    requires l.db.items.Keys <= l.issued
    ensures AccountOk(Next(l, e), b)
  {
    var db' := Apply(l.db, e);
    var cs := l.accounts[b].charges;
    forall i | 0 <= i < |cs| ensures CauseOk(Next(l, e), b, cs[i]) {
      CauseKeeps(l, e, b, cs[i]);
    }
    if b in db'.budgets {
      BudgetsOrigin(l.db, e, b);
    }
    if Rose(l.db, db', b) {
      ChargeIsNew(l, e, b);
      ChargeWasOwed(l.db, e, b);
      assert CauseOk(Next(l, e), b, CauseOf(l.db, e.tx));
    }
  }

  lemma BudgetsOrigin(db: Db, e: Timed, b: BudgetId)
    requires Fits(db, e) && b in Apply(db, e).budgets
    ensures if b in db.budgets then Apply(db, e).budgets[b].maxRequests == db.budgets[b].maxRequests
            else e.tx.TxCreateBudget? && e.tx.budget == b && Apply(db, e).budgets[b].started == 0
  {}

  /** Where a mark of the next state comes from. */
  lemma MarkKept(db: Db, e: Timed, r: RequestId, b: BudgetId)
    requires Fits(db, e)
    requires var db' := Apply(db, e); r in db'.items && b in db'.items[r].members && db'.items[r].members[b].lastCharged > 0
    requires r in db.items ==> db.items[r].members.Keys <= db.budgets.Keys
    ensures r in db.items && b in db.items[r].members
    ensures var mark := Apply(db, e).items[r].members[b].lastCharged;
      || mark == db.items[r].members[b].lastCharged
      || (Rose(db, Apply(db, e), b) && CauseOf(db, e.tx) == Attempt(r, mark))
  {
    ItemsOrigin(db, e, r);
    if r in db.items {
      match e.tx
      case TxReserve(_) => DetachedMembers(db.items[r], ReserveGone(db.items[r], db.budgets, e.now));
      case TxCheck(_) => DetachedMembers(db.items[r], ExpiredGone(db.items[r], db.budgets, e.now));
      case _ =>
    }
  }

  /** A membership is marked only by the reservation that moves its budget's counter. */
  lemma BackedKeeps(l: Ledger, e: Timed, r: RequestId)
    requires Allowed(l, e) && Inv(l.db) && l.db.budgets.Keys <= l.accounts.Keys && r in Apply(l.db, e).items
    requires r in l.db.items ==> Backed(l, r)
    ensures Backed(Next(l, e), r)
  {
    var db' := Apply(l.db, e);
    forall b | b in db'.items[r].members && db'.items[r].members[b].lastCharged > 0
      ensures b in Next(l, e).accounts && Attempt(r, db'.items[r].members[b].lastCharged) in Next(l, e).accounts[b].charges
    {
      MarkKept(l.db, e, r, b);
    }
  }

  lemma NextKeeps(l: Ledger, e: Timed)
    requires LedgerOk(l) && Allowed(l, e)
    ensures LedgerOk(Next(l, e))
  {
    var l' := Next(l, e);
    ApplyKeeps(l.db, e);
    forall b | b in l'.accounts ensures AccountOk(l', b) {
      if b in l.accounts {
        AccountKeeps(l, e, b);
      } else {
        BudgetsOrigin(l.db, e, b);
      }
    }
    forall r | r in l'.db.items ensures Backed(l', r) && r in l'.issued {
      BackedKeeps(l, e, r);
      ItemsOrigin(l.db, e, r);
    }
  }

  lemma {:induction false} RunKeeps(l: Ledger, es: seq<Timed>)
    requires LedgerOk(l) && Legal(l, es)
    ensures LedgerOk(Run(l, es))
    decreases |es|
  {
    if es != [] {
      NextKeeps(l, es[0]);
      RunKeeps(Next(l, es[0]), es[1..]);
    }
  }

  // ------------------------------------------------------------------ the theorems

  /** Whatever the interleaving, no budget is charged twice for one attempt of one item, however often
      it was detached and joined again; the durable counter is the number of charges; and no budget
      ever pays for more requests than its limit, not even after gc forgot it. */
  lemma ChargedAtMostOnce(es: seq<Timed>)
    requires Legal(EMPTY, es)
    ensures var l := Run(EMPTY, es);
      forall b :: b in l.accounts ==>
        && NoRepeat(l.accounts[b].charges)
        && |l.accounts[b].charges| <= l.accounts[b].limit
        && (b in l.db.budgets ==> l.db.budgets[b].started == |l.accounts[b].charges|)
  {
    RunKeeps(EMPTY, es);
    var l := Run(EMPTY, es);
    forall b | b in l.accounts ensures AccountOk(l, b) {}
  }

  /** In every reachable state a closed gate means that every budget of the running attempt was
      charged for exactly this attempt; and a reservation that goes ahead closes the gate. */
  lemma GateMeansPaid(es: seq<Timed>, r: RequestId)
    requires Legal(EMPTY, es) && r in Run(EMPTY, es).db.items
    ensures var l := Run(EMPTY, es); var item := l.db.items[r];
      && (item.status.Claimed? && item.gateClosed ==>
            forall b :: b in item.members && Active(item, b) ==>
              b in l.accounts && Attempt(r, item.attempts) in l.accounts[b].charges)
      && (forall now :: item.status.Claimed? && Reserve(l.db, r, now).1.None? ==> Reserve(l.db, r, now).0.items[r].gateClosed)
  {
    RunKeeps(EMPTY, es);
    var l := Run(EMPTY, es);
    var item := l.db.items[r];
    assert Backed(l, r) && ItemOk(item);
    forall b | b in item.members ensures MemberOk(item, item.members[b]) {}
  }

  /** In every reachable state nobody is deferred while the gate is open, and after the very next
      claim every membership takes part. */
  lemma DeferredDemandComesNext(es: seq<Timed>, r: RequestId)
    requires Legal(EMPTY, es) && r in Run(EMPTY, es).db.items
    ensures var db := Run(EMPTY, es).db; var item := db.items[r];
      && (forall now :: item.status.Claimed? && !item.gateClosed ==> Reserve(db, r, now).1 != Some(BudgetDeferred))
      && (forall b, o: Owner, ttl, now :: b in item.members ==> Active(ClaimedItem(item, o, ttl, now), b))
  {
    RunKeeps(EMPTY, es);
    var item := Run(EMPTY, es).db.items[r];
    assert ItemOk(item);
    forall b | b in item.members ensures MemberOk(item, item.members[b]) {}
  }

  lemma CancelItemExactly(x: Item, b: BudgetId, error: Error, now: Time)
    requires ItemOk(x)
    ensures var y := if TiedTo(x, b) then CancelledItem(x, b, error, now) else x;
      && (x.status != y.status <==> x.status.Pending() && x.members.Keys == {b} && !x.unbudgeted)
      && (x.status != y.status ==>
          y == x.(status := Failed, members := map[], primary := None, gateClosed := false, claimedBy := None,
                  claimedUntil := None, nextAttemptAt := None, updatedAt := now, error := Some(error)))
      && (x.status == y.status ==> y.primary in {x.primary, Primary(y.members)} && x == y.(primary := x.primary, members := x.members))
      && (x.status.Pending() ==> y.members == x.members - {b})
      && (!x.status.Pending() ==> y == x)
  {
    assert (x.members - {b}).Keys == x.members.Keys - {b};
    if b in x.members && x.members - {b} == map[] {
      assert x.members.Keys - {b} == {};
      assert x.members.Keys == {b};
    }
    if b !in x.members {
      assert x.members - {b} == x.members;
    }
  }

  /** In every reachable state, cancelling a budget fails exactly the pending items that have no other
      demand; every other item keeps its state and loses nothing but this one membership. */
  lemma CancelFailsExactly(es: seq<Timed>, b: BudgetId, error: Error, now: Time, r: RequestId)
    requires Legal(EMPTY, es) && r in Run(EMPTY, es).db.items
    ensures var db := Run(EMPTY, es).db; var x := db.items[r]; var y := Cancel(db, b, error, now).items[r];
      && (x.status != y.status <==> x.status.Pending() && x.members.Keys == {b} && !x.unbudgeted)
      && (x.status != y.status ==>
          y == x.(status := Failed, members := map[], primary := None, gateClosed := false, claimedBy := None,
                  claimedUntil := None, nextAttemptAt := None, updatedAt := now, error := Some(error)))
      && (x.status == y.status ==> y.primary in {x.primary, Primary(y.members)} && x == y.(primary := x.primary, members := x.members))
      && (x.status.Pending() ==> y.members == x.members - {b})
      && (!x.status.Pending() ==> y == x)
  {
    RunKeeps(EMPTY, es);
    CancelItemExactly(Run(EMPTY, es).db.items[r], b, error, now);
  }

  /** In every reachable state the primary budget is one of the item's budgets, and an item has none
      only if it has no budget at all; every budget named exists; pending cache keys are unique. */
  lemma ReferencesHold(es: seq<Timed>)
    requires Legal(EMPTY, es)
    ensures var db := Run(EMPTY, es).db;
      && (forall r :: r in db.items ==>
            && (db.items[r].primary.None? <==> db.items[r].members == map[])
            && (db.items[r].primary.Some? ==> db.items[r].primary.value in db.items[r].members)
            && (forall b :: b in db.items[r].members ==> b in db.budgets))
      && (forall r, q, key :: IsPendingFor(db, key, r) && IsPendingFor(db, key, q) ==> r == q)
  {
    RunKeeps(EMPTY, es);
    var db := Run(EMPTY, es).db;
    forall r, q, key | IsPendingFor(db, key, r) && IsPendingFor(db, key, q) ensures r == q {
      assert Clash(db.items[r], db.items[q]);
    }
  }
}
