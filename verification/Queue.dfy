/** The queue side of the store: queue items, the upstream request budgets, and the memberships that
    tie them. One function per transaction; each is atomic, and `Rollback` is an integrity error
    raised by a schema constraint, after which nothing has changed. */
module Queue {
  import opened Common

  datatype Status = Queued | Delayed | Claimed | Completed | Failed
  {
    predicate Pending() { Queued? || Delayed? || Claimed? }
  }

  datatype WorkKind = FetchMissing | RefreshCompleted

  datatype Error =
    | RequestBudgetExceeded | DeadlineBudgetExceeded | BudgetDeferred
    | IdFetchReserved | Cooldown | LeaseHeld | RateLimited | Transient | NonRetryable

  /** The fields of a request that the queue reads; `rest` stands for all others. */
  datatype Request = Request(
    priority: int, timeout: Option<Time>, refreshInterval: nat, idList: seq<PaperId>, rest: nat)

  /** A row of queue_item_upstream_budgets. */
  datatype Member = Member(createdAt: Time, firstAttempt: nat, lastCharged: nat)

  type Members = map<BudgetId, Member>

  /** A row of queue_items with its rows of queue_item_upstream_budgets, whose primary key is the
      item and the budget. The priority column always repeats `request.priority`. */
  datatype Item = Item(
    cacheKey: CacheKey, request: Request, status: Status, workKind: WorkKind,
    primary: Option<BudgetId>, members: Members, gateClosed: bool, unbudgeted: bool,
    createdAt: Time, updatedAt: Time,
    claimedBy: Option<Owner>, claimedUntil: Option<Time>, attempts: nat,
    nextAttemptAt: Option<Time>, completedAt: Option<Time>, error: Option<Error>)

  /** A row of upstream_request_budgets. */
  datatype Budget = Budget(maxRequests: nat, started: nat, deadline: Option<Time>)

  type Budgets = map<BudgetId, Budget>

  datatype Db = Db(items: map<RequestId, Item>, budgets: Budgets)

  datatype Outcome<+T> = Rollback | Done(db: Db, value: T)

  predicate IsPendingFor(db: Db, key: CacheKey, r: RequestId) {
    r in db.items && db.items[r].status.Pending() && db.items[r].cacheKey == key
  }

  // ------------------------------------------------------------------ budgets of one item

  /** The sort order `created_at, budget_id` of the memberships of one item. */
  predicate IsFirst(m: Members, b: BudgetId) {
    && b in m
    && forall c :: c in m ==> m[b].createdAt < m[c].createdAt || (m[b].createdAt == m[c].createdAt && b <= c)
  }

  /** The budget recorded on an item after memberships were deleted: the first that is left. */
  ghost function Primary(m: Members): Option<BudgetId> {
    if exists b: BudgetId :: IsFirst(m, b) then
      var b: BudgetId :| IsFirst(m, b);
      Some(b)
    else None
  }

  /** Why a budget admits no further upstream request, if so. */
  function Problem(budgets: Budgets, b: BudgetId, now: Time, enforceLimit: bool): Option<Error> {
    if b !in budgets then Some(RequestBudgetExceeded)
    else if budgets[b].deadline.Some? && now >= budgets[b].deadline.value then Some(DeadlineBudgetExceeded)
    else if enforceLimit && budgets[b].started >= budgets[b].maxRequests then Some(RequestBudgetExceeded)
    else None
  }

  /** Memberships, split by the attempt the item is in. */
  predicate Active(item: Item, b: BudgetId) {
    b in item.members && item.members[b].firstAttempt <= item.attempts
  }

  predicate Owes(item: Item, b: BudgetId) {
    Active(item, b) && item.members[b].lastCharged < item.attempts
  }

  predicate Future(item: Item, b: BudgetId) {
    b in item.members && item.members[b].firstAttempt > item.attempts
  }

  /** What disqualifies a membership when an attempt is charged: its deadline, or a used-up budget
      that this attempt or a later one would still have to charge. */
  function ReserveProblem(item: Item, budgets: Budgets, b: BudgetId, now: Time): Option<Error> {
    var p := Problem(budgets, b, now, false);
    if p.Some? then p
    else if Owes(item, b) || Future(item, b) then Problem(budgets, b, now, true)
    else None
  }

  function ReserveGone(item: Item, budgets: Budgets, now: Time): set<BudgetId> {
    set b | b in item.members && ReserveProblem(item, budgets, b, now).Some?
  }

  function ReserveCharged(item: Item, budgets: Budgets, now: Time): set<BudgetId> {
    set b | b in item.members && Owes(item, b) && ReserveProblem(item, budgets, b, now).None?
  }

  function ExpiredGone(item: Item, budgets: Budgets, now: Time): set<BudgetId> {
    set b | b in item.members && Problem(budgets, b, now, false).Some?
  }

  /** Delete memberships and recompute the primary budget. */
  ghost function Detached(item: Item, gone: set<BudgetId>): Item {
    var m := item.members - gone;
    item.(members := m, primary := Primary(m))
  }

  ghost function DetachedIfAny(item: Item, gone: set<BudgetId>): Item {
    if gone == {} then item else Detached(item, gone)
  }

  /** _preferred_upstream_budget_error: a passed deadline outranks a used-up budget. */
  function Preferred(errors: map<BudgetId, Error>): Error {
    if DeadlineBudgetExceeded in errors.Values then DeadlineBudgetExceeded else RequestBudgetExceeded
  }

  function ReserveErrors(item: Item, budgets: Budgets, now: Time): map<BudgetId, Error> {
    map b | b in ReserveGone(item, budgets, now) :: ReserveProblem(item, budgets, b, now).value
  }

  function ExpiredErrors(item: Item, budgets: Budgets, now: Time): map<BudgetId, Error> {
    map b | b in ExpiredGone(item, budgets, now) :: Problem(budgets, b, now, false).value
  }

  predicate HasActive(item: Item, gone: set<BudgetId>) {
    exists b :: b in item.members && Active(item, b) && b !in gone
  }

  predicate HasFuture(item: Item, gone: set<BudgetId>) {
    exists b :: b in item.members && Future(item, b) && b !in gone
  }

  function ChargedItem(item: Item, charged: set<BudgetId>): Item {
    item.(members := map b | b in item.members ::
            if b in charged then item.members[b].(lastCharged := item.attempts) else item.members[b],
          gateClosed := item.gateClosed || item.status.Claimed?)
  }

  function ChargedBudgets(budgets: Budgets, charged: set<BudgetId>): Budgets {
    map b | b in budgets :: if b in charged then budgets[b].(started := budgets[b].started + 1) else budgets[b]
  }

  // ------------------------------------------------------------------ budget transactions

  /** create_upstream_request_budget; `None` is its ValueError. */
  function CreateBudget(db: Db, b: BudgetId, maxRequests: int, deadline: Option<Time>): Option<Db> {
    if maxRequests <= 0 then None
    else Some(db.(budgets := db.budgets[b := Budget(maxRequests, 0, deadline)]))
  }

  /** reserve_upstream_request: one attempt charged to one budget, outside the queue. */
  function ReserveDirect(db: Db, b: BudgetId, now: Time): (Db, Option<Error>) {
    var p := Problem(db.budgets, b, now, true);
    if p.Some? then (db, p) else (db.(budgets := ChargedBudgets(db.budgets, {b})), None)
  }

  /** reserve_queue_item_upstream_request: charge every viable joined budget once for this attempt
      and close the attempt to later joiners. No error means the request may go ahead. */
  ghost function Reserve(db: Db, r: RequestId, now: Time): (Db, Option<Error>) {
    if r !in db.items then (db, Some(RequestBudgetExceeded)) else
    var item := db.items[r];
    var gone := ReserveGone(item, db.budgets, now);
    var kept := DetachedIfAny(item, gone);
    if !item.unbudgeted && !HasActive(item, gone) then
      (db.(items := db.items[r := kept]),
       Some(if HasFuture(item, gone) then BudgetDeferred else Preferred(ReserveErrors(item, db.budgets, now))))
    else
      var charged := ReserveCharged(item, db.budgets, now);
      (Db(db.items[r := ChargedItem(kept, charged)], ChargedBudgets(db.budgets, charged)), None)
  }

  /** check_queue_item_upstream_request_deadlines: the recheck right before network I/O. */
  ghost function CheckDeadlines(db: Db, r: RequestId, now: Time): (Db, Option<Error>) {
    if r !in db.items then (db, Some(RequestBudgetExceeded)) else
    var item := db.items[r];
    var gone := ExpiredGone(item, db.budgets, now);
    (db.(items := db.items[r := DetachedIfAny(item, gone)]),
     if item.unbudgeted || HasActive(item, gone) then None
     else if HasFuture(item, gone) then Some(BudgetDeferred)
     else Some(Preferred(ExpiredErrors(item, db.budgets, now))))
  }

  /** The items fail_active_upstream_budget_items touches, and what becomes of one of them. */
  predicate TiedTo(item: Item, b: BudgetId) {
    item.status.Pending() && (item.primary == Some(b) || b in item.members)
  }

  ghost function CancelledItem(item: Item, b: BudgetId, error: Error, now: Time): Item {
    var item := Detached(item, {b});
    if item.unbudgeted || item.members != map[] then item
    else item.(status := Failed, updatedAt := now, claimedBy := None, claimedUntil := None,
               gateClosed := false, nextAttemptAt := None, error := Some(error))
  }

  ghost function Cancel(db: Db, b: BudgetId, error: Error, now: Time): Db {
    db.(items := map r | r in db.items ::
      if TiedTo(db.items[r], b) then CancelledItem(db.items[r], b, error, now) else db.items[r])
  }

  // ------------------------------------------------------------------ enqueue and join

  function TimeoutOr(r: Request, default: Time): Time {
    if r.timeout.Some? then r.timeout.value else default
  }

  /** The request stored after `request` joined an item that holds `held`. */
  function MergedRequest(held: Request, heldKind: WorkKind, request: Request, kind: WorkKind, default: Time): Request {
    var base :=
      if kind.RefreshCompleted? && heldKind.FetchMissing? then request
      else if kind.RefreshCompleted? && request.refreshInterval < held.refreshInterval
      then held.(refreshInterval := request.refreshInterval)
      else held;
    base.(timeout := Some(MaxReal(TimeoutOr(held, default), TimeoutOr(request, default))),
          priority := if held.priority >= request.priority then held.priority else request.priority)
  }

  function MergedKind(heldKind: WorkKind, kind: WorkKind): WorkKind {
    if kind.RefreshCompleted? then RefreshCompleted else heldKind
  }

  /** The first attempt that a joining budget pays for. */
  function JoinAttempt(item: Item): nat {
    if item.status.Claimed? && !item.gateClosed then (if item.attempts == 0 then 1 else item.attempts)
    else item.attempts + 1
  }

  /** An existing pending item after a request joined it. */
  function JoinedItem(held: Item, request: Request, kind: WorkKind, budget: Option<BudgetId>,
                      default: Time, now: Time): Item
  {
    var merged := MergedRequest(held.request, held.workKind, request, kind, default);
    var newKind := MergedKind(held.workKind, kind);
    var item := held.(request := merged, workKind := newKind,
                      updatedAt := if merged == held.request && newKind == held.workKind then held.updatedAt else now);
    match budget
    case None => if item.unbudgeted then item else item.(unbudgeted := true, updatedAt := now)
    case Some(b) =>
      item.(primary := if item.primary.Some? then item.primary else Some(b), updatedAt := now,
            members := if b in item.members then item.members
                       else item.members[b := Member(now, JoinAttempt(held), 0)])
  }

  function NewItem(key: CacheKey, request: Request, kind: WorkKind, budget: Option<BudgetId>, now: Time): Item {
    Item(key, request, Queued, kind, budget,
         match budget { case None => map[] case Some(b) => map[b := Member(now, 1, 0)] },
         false, budget.None?, now, now, None, None, 0, None, None, None)
  }

  /** A membership row names a budget that must exist, unless the row was there already. */
  predicate BadReference(db: Db, members: Members, budget: Option<BudgetId>) {
    budget.Some? && budget.value !in members && budget.value !in db.budgets
  }

  /** enqueue_request_for_work: join the pending item of the cache key, or queue item `newId`.
      The value is the item and whether it existed. */
  ghost function Enqueue(db: Db, newId: RequestId, key: CacheKey, request: Request, kind: WorkKind,
                         budget: Option<BudgetId>, default: Time, now: Time): Outcome<(RequestId, bool)>
  {
    if exists r: RequestId :: IsPendingFor(db, key, r) then
      var r: RequestId :| IsPendingFor(db, key, r);
      if BadReference(db, db.items[r].members, budget) then Rollback
      else Done(db.(items := db.items[r := JoinedItem(db.items[r], request, kind, budget, default, now)]), (r, true))
    else if BadReference(db, map[], budget) then Rollback
    else Done(db.(items := db.items[newId := NewItem(key, request, kind, budget, now)]), (newId, false))
  }

  // ------------------------------------------------------------------ claims

  predicate Claimable(item: Item, now: Time) {
    || ((item.status.Queued? || item.status.Delayed?) && (item.nextAttemptAt.Some? ==> item.nextAttemptAt.value <= now))
    || (item.status.Claimed? && item.claimedUntil.Some? && item.claimedUntil.value <= now)
  }

  function ClaimedItem(item: Item, owner: Owner, ttl: Time, now: Time): Item {
    item.(status := Claimed, claimedBy := Some(owner), claimedUntil := Some(now + ttl),
          gateClosed := false, attempts := item.attempts + 1, updatedAt := now)
  }

  /** claim_next_queue_item, once it selected row `r`. */
  function Claim(db: Db, r: RequestId, owner: Owner, ttl: Time, now: Time): Db
    requires r in db.items
  {
    db.(items := db.items[r := ClaimedItem(db.items[r], owner, ttl, now)])
  }

  predicate HoldsClaim(db: Db, r: RequestId, owner: Owner) {
    r in db.items && db.items[r].status.Claimed? && db.items[r].claimedBy == Some(owner)
  }

  function RenewedItem(item: Item, ttl: Time, now: Time): Item {
    item.(claimedUntil := Some(now + ttl), updatedAt := now)
  }

  /** renew_queue_claim, also the claim row of renew_worker_fetch_ownership. */
  function RenewClaim(db: Db, r: RequestId, owner: Owner, ttl: Time, now: Time): Db {
    if HoldsClaim(db, r, owner) then db.(items := db.items[r := RenewedItem(db.items[r], ttl, now)]) else db
  }

  // ------------------------------------------------------------------ leaving the claimed state

  predicate OtherPending(db: Db, r: RequestId, key: CacheKey) {
    exists q :: q in db.items && q != r && IsPendingFor(db, key, q)
  }

  function ReleasedItem(item: Item, status: Status, next: Option<Time>, error: Option<Error>, now: Time): Item {
    item.(status := status, nextAttemptAt := next, updatedAt := now, claimedBy := None, claimedUntil := None,
          gateClosed := false, error := error)
  }

  /** release_or_delay_queue_item. It checks no ownership; the unique index on pending cache keys can
      refuse to make a terminal row pending again. */
  function Release(db: Db, r: RequestId, status: Status, next: Option<Time>, error: Option<Error>, now: Time): Outcome<()> {
    if r !in db.items then Done(db, ())
    else if status.Pending() && OtherPending(db, r, db.items[r].cacheKey) then Rollback
    else Done(db.(items := db.items[r := ReleasedItem(db.items[r], status, next, error, now)]), ())
  }

  function CompletedItem(item: Item, now: Time): Item {
    item.(status := Completed, completedAt := Some(now), updatedAt := now, claimedBy := None, claimedUntil := None,
          error := None)
  }

  /** complete_queue_item. */
  function Complete(db: Db, r: RequestId, now: Time): Db {
    if r !in db.items then db else db.(items := db.items[r := CompletedItem(db.items[r], now)])
  }

  predicate WaitsForIds(item: Item, released: set<PaperId>) {
    item.status.Delayed? && item.error == Some(IdFetchReserved) && exists id :: id in item.request.idList && id in released
  }

  function WokenItem(item: Item, now: Time): Item {
    item.(status := Queued, nextAttemptAt := None, updatedAt := now, claimedBy := None, claimedUntil := None,
          gateClosed := false, error := None)
  }

  /** _wake_id_fetch_reserved_queue_items_conn. */
  function Wake(db: Db, released: set<PaperId>, now: Time): Db {
    db.(items := map r | r in db.items ::
      if WaitsForIds(db.items[r], released) then WokenItem(db.items[r], now) else db.items[r])
  }

  // ------------------------------------------------------------------ retention

  predicate Expirable(item: Item, cutoff: Time) {
    || (item.status.Completed? && item.completedAt.Some? && item.completedAt.value < cutoff)
    || (item.status.Failed? && item.updatedAt < cutoff)
  }

  /** The queue part of gc: terminal rows older than the cutoff go, with their memberships. */
  function DeleteExpired(db: Db, cutoff: Time): Db {
    db.(items := map r | r in db.items && !Expirable(db.items[r], cutoff) :: db.items[r])
  }

  predicate Referenced(db: Db, b: BudgetId, jobBudgets: set<BudgetId>) {
    b in jobBudgets || exists r :: r in db.items && (db.items[r].primary == Some(b) || b in db.items[r].members)
  }

  /** gc then deletes the budgets that no item, membership or sync job refers to. */
  function DeleteUnreferenced(db: Db, jobBudgets: set<BudgetId>): Db {
    db.(budgets := map b | b in db.budgets && Referenced(db, b, jobBudgets) :: db.budgets[b])
  }
}
