/** Runs that show what a release without an ownership check can do: a worker whose claim ended releases an item that
    another worker has claimed, and a third one claims it; and a late release is refused by the unique index. */
module StaleRelease {
  import opened Common
  import opened Worker
  import Q = Queue
  import QI = QueueInvariants
  import C = Charges
  import L = Leases
  import S = Cache

  const REQUEST := Q.Request(0, None, 0, [], 0)
  const STORE := S.Store(map[], map[])
  const BUDGET: BudgetId := 5
  const CHARGED := C.Attempt(1, 2)

  ghost predicate RunTo(ss: seq<Sys>, es: seq<Timed>, s: Sys) {
    IsRun(ss, es) && ss[|es|] == s
  }

  ghost predicate Reachable(s: Sys) { exists ss, es :: RunTo(ss, es, s) }

  lemma Step(s: Sys, e: Timed, s': Sys)
    requires Reachable(s) && Enabled(s, e) && Next(s, e) == s'
    ensures Reachable(s')
  {
    var ss, es :| RunTo(ss, es, s);
    assert RunTo(ss + [s'], es + [e], s');
  }

  // ------------------------------------------------------------------ two workers on one item

  /** The item: who claims it until when, in which attempt, and for which attempt the budget was charged last. */
  function Row(status: Q.Status, owner: Option<Owner>, until: Option<Time>, attempts: nat, closed: bool, charged: nat,
               updated: Time, error: Option<Q.Error>): Q.Item
  {
    Q.Item(7, REQUEST, status, Q.FetchMissing, Some(BUDGET), map[BUDGET := Q.Member(0.0, 1, charged)], closed, false,
           0.0, updated, owner, until, attempts, None, None, error)
  }

  function Books(item: Q.Item, charges: seq<C.Cause>): C.Ledger {
    C.Ledger(Q.Db(map[1 := item], map[BUDGET := Q.Budget(10, |charges|, None)]),
             map[BUDGET := C.Account(10, charges)], {1})
  }

  function Has(attempt: nat, until: Time, phase: Phase): Pc { Busy(1, 7, Q.FetchMissing, attempt, until, {}, phase) }

  function State(now: Time, books: C.Ledger, held: bool, pcs: map<Owner, Pc>): Sys {
    Sys(now, books, if held then map[0 := L.Lease(2, 111.0)] else map[], map[], STORE, pcs)
  }

  const QUEUED := Row(Q.Queued, None, None, 0, false, 0, 0.0, None)
  const FIRST := Row(Q.Claimed, Some(1), Some(10.0), 1, false, 0, 0.0, None)
  const SECOND := Row(Q.Claimed, Some(2), Some(111.0), 2, false, 0, 11.0, None)
  const GATED := Row(Q.Claimed, Some(2), Some(111.0), 2, true, 2, 11.0, None)
  const REOPENED := Row(Q.Delayed, None, None, 2, false, 2, 12.0, Some(Q.Transient))
  const THIRD := Row(Q.Claimed, Some(3), Some(113.0), 3, false, 2, 13.0, Some(Q.Transient))
  const STALE := Has(1, 10.0, Leaving)
  const GONE := Has(1, 10.0, Ending)

  function Two(phase: Phase): map<Owner, Pc> { map[1 := STALE, 2 := Has(2, 111.0, phase)] }

  function Three(phase: Phase): map<Owner, Pc> {
    map[1 := GONE, 2 := Has(2, 111.0, phase), 3 := Has(3, 113.0, Planning)]
  }

  const NOBODY: C.Ledger := C.Ledger(Q.Db(map[], map[BUDGET := Q.Budget(10, 0, None)]), map[BUDGET := C.Account(10, [])], {})

  const S1 := State(0.0, NOBODY, false, map[])
  const S2 := State(0.0, Books(QUEUED, []), false, map[])
  const S3 := State(0.0, Books(FIRST, []), false, map[1 := Has(1, 10.0, Planning)])
  const S4 := State(0.0, Books(FIRST, []), false, map[1 := STALE])
  const S5 := State(11.0, Books(SECOND, []), false, Two(Planning))
  const S6 := State(11.0, Books(SECOND, []), true, Two(Planning))
  const S7 := State(11.0, Books(SECOND, []), true, Two(Gate1))
  const S8 := State(11.0, Books(SECOND, []), true, Two(Gated))
  const S9 := State(11.0, Books(GATED, [CHARGED]), true, Two(Reserved))
  const S10 := State(11.0, Books(GATED, [CHARGED]), true, Two(Checked))
  const S11 := State(11.0, Books(GATED, [CHARGED]), true, Two(Gate2))
  const S12 := State(11.0, Books(GATED, [CHARGED]), true, Two(Fenced))
  const S13 := State(12.0, Books(REOPENED, [CHARGED]), true, Two(Fenced)[1 := GONE])
  const S14 := State(13.0, Books(THIRD, [CHARGED]), true, Three(Fenced))
  const S15 := State(14.0, Books(THIRD, [CHARGED]), true, Three(Cleared))

  lemma QueuedUnderBudget()
    ensures Reachable(S2)
  {
    assert RunTo([START], [], START);
    Step(START, At(0.0, Broker(C.TxCreateBudget(BUDGET, 10, None))), S1);
    Step(S1, At(0.0, Broker(C.TxEnqueue(1, 7, REQUEST, Q.FetchMissing, Some(BUDGET), 30.0))), S2);
  }

  lemma FirstWorkerStalls()
    requires Reachable(S2)
    ensures Reachable(S4)
  {
    Step(S2, At(0.0, Work(1, Claims(1, 10.0))), S3);
    Step(S3, At(0.0, Work(1, GivesUp)), S4);
  }

  lemma SecondWorkerClaims()
    requires Reachable(S4)
    ensures Reachable(S6)
  {
    Step(S4, At(11.0, Work(2, Claims(1, 100.0))), S5);
    Step(S5, At(11.0, Work(2, UsesLease(L.TakeLease(0, 100.0)))), S6);
  }

  lemma SecondWorkerEntersFirstGate()
    requires Reachable(S6)
    ensures Reachable(S7)
  {
    Step(S6, At(11.0, Work(2, PassesFence(0, 100.0))), S7);
  }

  lemma SecondWorkerPassesFirstGate()
    requires Reachable(S7)
    ensures Reachable(S8)
  {
    Step(S7, At(11.0, Work(2, PassesFence(0, 100.0))), S8);
  }

  /** The reservation charges the budget for attempt 2. */
  lemma ReservesSecondAttempt()
    ensures Q.Reserve(Books(SECOND, []).db, 1, 11.0) == (Books(GATED, [CHARGED]).db, None)
  {
    var budgets := Books(SECOND, []).db.budgets;
    assert Q.Owes(SECOND, BUDGET);
    assert Q.ReserveGone(SECOND, budgets, 11.0) == {};
    assert Q.ReserveCharged(SECOND, budgets, 11.0) == {BUDGET};
    assert Q.Active(SECOND, BUDGET) && Q.HasActive(SECOND, {});
    assert Q.ChargedItem(SECOND, {BUDGET}).members == GATED.members;
    assert Books(SECOND, []).db.items[1 := GATED] == Books(GATED, [CHARGED]).db.items;
    assert Q.ChargedBudgets(budgets, {BUDGET}) == Books(GATED, [CHARGED]).db.budgets;
  }

  lemma LedgerAfterReserve()
    ensures C.Next(Books(SECOND, []), C.At(11.0, C.TxReserve(1))) == Books(GATED, [CHARGED])
  {
    ReservesSecondAttempt();
    var l := C.Next(Books(SECOND, []), C.At(11.0, C.TxReserve(1)));
    assert C.Rose(Books(SECOND, []).db, l.db, BUDGET);
    assert l.accounts[BUDGET] == C.Account(10, [CHARGED]);
    assert l.accounts == Books(GATED, [CHARGED]).accounts;
  }

  /** Without a deadline the check finds nothing to detach, and the budget's membership is active. */
  lemma CheckFindsDemand(item: Q.Item, now: Time)
    requires item == GATED || item == THIRD
    ensures Q.CheckDeadlines(Books(item, [CHARGED]).db, 1, now) == (Books(item, [CHARGED]).db, None)
    ensures C.Next(Books(item, [CHARGED]), C.At(now, C.TxCheck(1))) == Books(item, [CHARGED])
  {
    var db := Books(item, [CHARGED]).db;
    assert Q.ExpiredGone(item, db.budgets, now) == {};
    assert Q.Active(item, BUDGET) && Q.HasActive(item, {});
    assert db.items[1 := item] == db.items;
    var l := C.Next(Books(item, [CHARGED]), C.At(now, C.TxCheck(1)));
    assert l.accounts == Books(item, [CHARGED]).accounts;
  }

  lemma SecondWorkerReserves()
    requires Reachable(S8)
    ensures Reachable(S9)
  {
    ReservesSecondAttempt();
    LedgerAfterReserve();
    Step(S8, At(11.0, Work(2, Reserves)), S9);
  }

  lemma SecondWorkerChecks()
    requires Reachable(S9)
    ensures Reachable(S10)
  {
    CheckFindsDemand(GATED, 11.0);
    Step(S9, At(11.0, Work(2, Checks)), S10);
  }

  lemma SecondWorkerEntersSecondGate()
    requires Reachable(S10)
    ensures Reachable(S11)
  {
    Step(S10, At(11.0, Work(2, PassesFence(0, 100.0))), S11);
  }

  lemma SecondWorkerPassesSecondGate()
    requires Reachable(S11)
    ensures Reachable(S12)
  {
    Step(S11, At(11.0, Work(2, PassesFence(0, 100.0))), S12);
  }

  const LATE := C.At(12.0, C.TxRelease(1, Q.Delayed, None, Some(Q.Transient)))

  lemma LedgerAfterRelease()
    ensures C.Next(Books(GATED, [CHARGED]), LATE) == Books(REOPENED, [CHARGED])
  {
    var db := Books(GATED, [CHARGED]).db;
    assert !Q.OtherPending(db, 1, 7);
    var l := C.Next(Books(GATED, [CHARGED]), LATE);
    assert l.db == Books(REOPENED, [CHARGED]).db;
    assert l.accounts == Books(REOPENED, [CHARGED]).accounts;
  }

  lemma FirstWorkerReleasesLate()
    requires Reachable(S12)
    ensures Reachable(S13)
  {
    LedgerAfterRelease();
    Step(S12, At(12.0, Work(1, Releases(Q.Delayed, None, Some(Q.Transient)))), S13);
  }

  lemma ThirdWorkerClaims()
    requires Reachable(S13)
    ensures Reachable(S14)
  {
    Step(S13, At(13.0, Work(3, Claims(1, 100.0))), S14);
  }

  lemma SecondWorkerGoesOn()
    requires Reachable(S14)
    ensures Reachable(S15)
  {
    CheckFindsDemand(THIRD, 14.0);
    Step(S14, At(14.0, Work(2, Checks)), S15);
  }

  lemma RunToTwoWorkers()
    ensures Reachable(S14)
  {
    QueuedUnderBudget();
    FirstWorkerStalls();
    SecondWorkerClaims();
    SecondWorkerEntersFirstGate();
    SecondWorkerPassesFirstGate();
    SecondWorkerReserves();
    SecondWorkerChecks();
    SecondWorkerEntersSecondGate();
    SecondWorkerPassesSecondGate();
    FirstWorkerReleasesLate();
    ThirdWorkerClaims();
  }

  /** There is a run in which two workers within their claims are on one item. */
  lemma TwoWorkersOnOneItem()
    ensures exists s, o: Owner, p: Owner :: Reachable(s) && o != p && Live(s, o) && Live(s, p) && PcOf(s, o).item == PcOf(s, p).item
  {
    RunToTwoWorkers();
    assert Live(S14, 2) && Live(S14, 3) && PcOf(S14, 2).item == PcOf(S14, 3).item;
  }

  /** And a worker that passed the second gate goes to the network although its row names another one by then, whose
      attempt nobody has paid for. */
  lemma UnpaidWorkerIsCleared()
    ensures exists s, o: Owner ::
              && Reachable(s) && PcOf(s, o).Busy? && PcOf(s, o).phase.Cleared? && !Paid(s, o, PcOf(s, o))
              && PcOf(s, o).item in s.ledger.db.items
              && (exists b: BudgetId :: Unpaid(s, PcOf(s, o).item, b))
  {
    RunToTwoWorkers();
    SecondWorkerGoesOn();
    assert C.Attempt(1, 3) !in S15.ledger.accounts[BUDGET].charges;
    assert Unpaid(S15, 1, BUDGET);
    assert Reachable(S15) && PcOf(S15, 2).phase.Cleared? && !Paid(S15, 2, PcOf(S15, 2));
  }

  /** An active budget that was not charged for the attempt the item is in. */
  predicate Unpaid(s: Sys, r: RequestId, b: BudgetId)
    requires r in s.ledger.db.items
  {
    Q.Active(s.ledger.db.items[r], b) && b in s.ledger.accounts
    && C.Attempt(r, s.ledger.db.items[r].attempts) !in s.ledger.accounts[b].charges
  }

  // ------------------------------------------------------------------ a refused release

  function Plain(status: Q.Status, owner: Option<Owner>, until: Option<Time>, attempts: nat, created: Time, updated: Time,
                 error: Option<Q.Error>): Q.Item
  {
    Q.Item(7, REQUEST, status, Q.FetchMissing, None, map[], false, true, created, updated, owner, until, attempts, None, None, error)
  }

  function Simple(now: Time, items: map<RequestId, Q.Item>, pcs: map<Owner, Pc>): Sys {
    Sys(now, C.Ledger(Q.Db(items, map[]), map[], items.Keys), map[], map[], STORE, pcs)
  }

  const WANTED := Plain(Q.Queued, None, None, 0, 0.0, 0.0, None)
  const CLAIMED_ONCE := Plain(Q.Claimed, Some(1), Some(10.0), 1, 0.0, 0.0, None)
  const CLAIMED_TWICE := Plain(Q.Claimed, Some(2), Some(111.0), 2, 0.0, 11.0, None)
  const REJECTED := Plain(Q.Failed, None, None, 2, 0.0, 12.0, Some(Q.NonRetryable))
  const AGAIN := Plain(Q.Queued, None, None, 0, 13.0, 13.0, None)

  const T1 := Simple(0.0, map[1 := WANTED], map[])
  const T2 := Simple(0.0, map[1 := CLAIMED_ONCE], map[1 := Has(1, 10.0, Planning)])
  const T3 := Simple(0.0, map[1 := CLAIMED_ONCE], map[1 := STALE])
  const T4 := Simple(11.0, map[1 := CLAIMED_TWICE], Two(Planning))
  const T5 := Simple(11.0, map[1 := CLAIMED_TWICE], Two(Leaving))
  const T6 := Simple(12.0, map[1 := REJECTED], Two(Ending))
  const T7 := Simple(13.0, map[1 := REJECTED, 2 := AGAIN], Two(Ending))

  lemma ItemIsQueued()
    ensures Reachable(T1)
  {
    assert RunTo([START], [], START);
    Step(START, At(0.0, Broker(C.TxEnqueue(1, 7, REQUEST, Q.FetchMissing, None, 30.0))), T1);
  }

  lemma ItemIsClaimed()
    requires Reachable(T1)
    ensures Reachable(T3)
  {
    Step(T1, At(0.0, Work(1, Claims(1, 10.0))), T2);
    Step(T2, At(0.0, Work(1, GivesUp)), T3);
  }

  lemma ItemIsClaimedAgain()
    requires Reachable(T3)
    ensures Reachable(T5)
  {
    Step(T3, At(11.0, Work(2, Claims(1, 100.0))), T4);
    Step(T4, At(11.0, Work(2, GivesUp)), T5);
  }

  lemma ItemFails()
    requires Reachable(T5)
    ensures Reachable(T6)
  {
    Step(T5, At(12.0, Work(2, Releases(Q.Failed, None, Some(Q.NonRetryable)))), T6);
  }

  lemma KeyIsQueuedAgain()
    requires Reachable(T6)
    ensures Reachable(T7)
  {
    Step(T6, At(13.0, Broker(C.TxEnqueue(2, 7, REQUEST, Q.FetchMissing, None, 30.0))), T7);
  }

  /** There is a reachable state in which a worker may release its item and the release raises an integrity error. */
  lemma LateReleaseRaises()
    ensures exists s, e ::
              && Reachable(s) && Enabled(s, e) && HandsBack(s, e) && e.event.does.Releases?
              && Q.Release(s.ledger.db, PcOf(s, e.event.owner).item, e.event.does.status, e.event.does.next,
                           e.event.does.reason, e.now).Rollback?
  {
    ItemIsQueued();
    ItemIsClaimed();
    ItemIsClaimedAgain();
    ItemFails();
    KeyIsQueuedAgain();
    var e := At(14.0, Work(1, Releases(Q.Delayed, None, Some(Q.Transient))));
    assert Q.IsPendingFor(T7.ledger.db, 7, 2);
    assert Q.OtherPending(T7.ledger.db, 1, 7);
    assert Enabled(T7, e) && HandsBack(T7, e);
  }
}
