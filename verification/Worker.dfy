/** Workers as step machines over the shared store. Each step is one transaction of one pass of
    HuldraWorker.run_once; between two steps any other process may act. */
module Worker {
  import opened Common
  import Q = Queue
  import QI = QueueInvariants
  import C = Charges
  import L = Leases
  import S = Cache

  /** Where a pass stands. `Gate1` and `Gate2` are inside the two ownership gates, which begin and end
      with the fence; `Cleared` means the network request is being made, and `Ending` that the item was
      handed back and only leases and reservations are left to drop. */
  datatype Phase = Planning | Gate1 | Gated | Reserved | Checked | Gate2 | Fenced | Cleared | Completing | Leaving | Ending

  /** The local variables of a pass: the claimed item as it was read, the end of its last known claim,
      and the ids it reserved. */
  datatype Pc =
    | Idle
    | Busy(item: RequestId, key: CacheKey, kind: Q.WorkKind, attempt: nat, until: Time, ids: set<PaperId>, phase: Phase)

  datatype Sys = Sys(
    now: Time, ledger: C.Ledger, leases: map<L.LeaseName, L.Lease>, holds: map<PaperId, L.Hold>,
    store: S.Store, pcs: map<Owner, Pc>)

  datatype WorkerStep =
    | Claims(item: RequestId, ttl: Time)                        // claim_next_queue_item
    | SeesCache                                                 // get_readable_completed_cache hits
    | Composes(record: S.Step)                                  // all ids are cached: record the entry
    | ReservesIds(ids: set<PaperId>, ttl: Time)                 // acquire_id_fetch_reservations
    | KeepsIds(ids: set<PaperId>, ttl: Time)                    // renew_id_fetch_reservations
    | DropsIds(ids: set<PaperId>)                               // release_id_fetch_reservations
    | UsesLease(step: L.Step)                                   // the limiter takes, renews or drops the lease
    | GivesUp                                                   // any decision not to fetch
    | PassesFence(name: L.LeaseName, ttl: Time)                 // renew_worker_fetch_ownership
    | Reserves                                                  // reserve_queue_item_upstream_request
    | Checks                                                    // check_queue_item_upstream_request_deadlines
    | Records(record: S.Step)                                   // the response is recorded
    | RecordsFailure(record: S.Step)                            // the failure is recorded
    | Finishes                                                  // complete_queue_item
    | Releases(status: Q.Status, next: Option<Time>, reason: Option<Q.Error>) // release_or_delay_queue_item
    | Stops                                                     // the process dies, or the pass ends here

  datatype Event =
    | Broker(tx: C.Tx)                          // clients, maintenance and gc
    | Feed(write: S.Step)                       // papers and entries written by other components
    | Harvester(actor: Owner, lease: L.Step)    // harvesters share the lease table
    | Work(owner: Owner, does: WorkerStep)

  datatype Timed = At(now: Time, event: Event)

  function PcOf(s: Sys, o: Owner): Pc { if o in s.pcs then s.pcs[o] else Idle }

  function Tables(s: Sys): L.Tables { L.Tables(s.ledger.db, s.leases, s.holds) }

  predicate LeaseStep(step: L.Step) { step.TakeLease? || step.RenewLeases? || step.DropLease? }

  // ------------------------------------------------------------------ what may happen

  predicate WorkerEnabled(s: Sys, o: Owner, pc: Pc, step: WorkerStep, now: Time) {
    if step.Claims? then pc.Idle? && C.Allowed(s.ledger, C.At(now, C.TxClaim(step.item, o, step.ttl)))
    else
      pc.Busy? &&
      match step
      case SeesCache => pc.phase in {Planning, Gate1, Gate2} && pc.kind.FetchMissing? && S.Readable(s.store, pc.key)
      case Composes(e) => pc.phase in {Planning, Gate1, Gate2} && pc.kind.FetchMissing? && e.Completes? && e.key == pc.key
      case ReservesIds(_, _) => pc.phase.Planning?
      case KeepsIds(_, _) => pc.phase in {Gate1, Gate2}
      case DropsIds(_) => true
      case UsesLease(ls) => LeaseStep(ls)
      case GivesUp => pc.phase !in {Completing, Ending}
      case PassesFence(_, _) => pc.phase in {Planning, Gate1, Checked, Gate2}
      case Reserves => pc.phase.Gated?
      case Checks => pc.phase in {Reserved, Fenced, Cleared}
      case Records(e) => pc.phase.Cleared? && e.Completes? && e.key == pc.key
      case RecordsFailure(e) => (pc.phase.Cleared? || pc.phase.Leaving?) && e.Fails? && S.Proper(e)
      case Finishes => pc.phase.Completing?
      case Releases(status, _, _) => pc.phase.Leaving? && (status.Delayed? || status.Failed?)
      case Stops => true
  }

  predicate Enabled(s: Sys, e: Timed) {
    e.now >= s.now &&
    match e.event
    case Broker(tx) =>
      (tx.TxCreateBudget? || tx.TxEnqueue? || tx.TxReserveDirect? || tx.TxCancel? || tx.TxGc?)
      && C.Allowed(s.ledger, C.At(e.now, tx))
    case Feed(step) => S.Proper(step)
    case Harvester(_, step) => LeaseStep(step)
    case Work(o, step) => WorkerEnabled(s, o, PcOf(s, o), step, e.now)
  }

  // ------------------------------------------------------------------ what it does

  ghost function Tx(s: Sys, now: Time, tx: C.Tx): Sys {
    s.(ledger := C.Next(s.ledger, C.At(now, tx)))
  }

  function Move(s: Sys, o: Owner, pc: Pc): Sys { s.(pcs := s.pcs[o := pc]) }

  function Leases'(s: Sys, o: Owner, now: Time, step: L.Step): Sys {
    s.(leases := L.Next(Tables(s), L.Act(o, now, step)).leases)
  }

  ghost function AfterFence(s: Sys, o: Owner, pc: Pc, name: L.LeaseName, ttl: Time, now: Time): Sys
    requires pc.Busy?
  {
    var (t, lost) := L.Fence(Tables(s), pc.item, o, name, ttl, pc.ids, now);
    match lost
    case Some(LostIds) => Move(s, o, pc.(phase := Leaving))
    case Some(_) => Move(s, o, pc.(phase := Ending))
    case None =>
      var s := Tx(s, now, C.TxRenew(pc.item, o, ttl)).(leases := t.leases, holds := t.holds);
      Move(s, o, pc.(until := now + ttl, phase :=
        match pc.phase case Planning => Gate1 case Gate1 => Gated case Checked => Gate2 case _ => Fenced))
  }

  ghost function WorkerNext(s: Sys, o: Owner, pc: Pc, step: WorkerStep, now: Time): Sys
    requires WorkerEnabled(s, o, pc, step, now)
  {
    match step
    case Claims(r, ttl) =>
      var item := s.ledger.db.items[r];
      Move(Tx(s, now, C.TxClaim(r, o, ttl)), o,
           Busy(r, item.cacheKey, item.workKind, item.attempts + 1, now + ttl, {}, Planning))
    case SeesCache => Move(s, o, pc.(phase := Completing))
    case Composes(e) => Move(s.(store := S.Next(s.store, e)), o, pc.(phase := Completing))
    case ReservesIds(ids, ttl) =>
      var (hs, ok) := L.AcquireHolds(s.holds, ids, o, pc.item, ttl, now);
      Move(s.(holds := hs), o, if ok then pc.(ids := ids) else pc.(phase := Leaving))
    case KeepsIds(ids, ttl) =>
      var (hs, ok) := L.RenewHolds(s.holds, ids, o, ttl, now);
      Move(s.(holds := hs), o, if ok then pc.(ids := ids) else pc.(phase := Leaving))
    case DropsIds(ids) =>
      if L.OwnedAmong(s.holds, ids, o) == {} then s
      else Tx(s, now, C.TxWake(ids)).(holds := s.holds - L.OwnedAmong(s.holds, ids, o))
    case UsesLease(ls) => Leases'(s, o, now, ls)
    case GivesUp => Move(s, o, pc.(phase := Leaving))
    case PassesFence(name, ttl) => AfterFence(s, o, pc, name, ttl, now)
    case Reserves =>
      Move(Tx(s, now, C.TxReserve(pc.item)), o,
           pc.(phase := if Q.Reserve(s.ledger.db, pc.item, now).1.None? then Reserved else Leaving))
    case Checks =>
      Move(Tx(s, now, C.TxCheck(pc.item)), o,
           pc.(phase := if Q.CheckDeadlines(s.ledger.db, pc.item, now).1.Some? then Leaving
                        else if pc.phase.Reserved? then Checked else Cleared))
    case Records(e) => Move(s.(store := S.Next(s.store, e)), o, pc.(phase := Completing))
    case RecordsFailure(e) => Move(s.(store := S.Next(s.store, e)), o, pc.(phase := Leaving))
    case Finishes => Move(Tx(s, now, C.TxComplete(pc.item)), o, pc.(phase := Ending))
    case Releases(status, next, reason) => Move(Tx(s, now, C.TxRelease(pc.item, status, next, reason)), o, pc.(phase := Ending))
    case Stops => Move(s, o, Idle)
  }

  ghost function Next(s: Sys, e: Timed): Sys
    requires Enabled(s, e)
  {
    var s := s.(now := e.now);
    match e.event
    case Broker(tx) => Tx(s, e.now, tx)
    case Feed(step) => s.(store := S.Next(s.store, step))
    case Harvester(a, step) => Leases'(s, a, e.now, step)
    case Work(o, step) => WorkerNext(s, o, PcOf(s, o), step, e.now)
  }

  const START := Sys(0.0, C.EMPTY, map[], map[], S.Store(map[], map[]), map[])

  /** The states `ss` of a run that starts from the empty store and takes the steps `es`. */
  ghost predicate IsRun(ss: seq<Sys>, es: seq<Timed>) {
    && |ss| == |es| + 1 && ss[0] == START
    && forall i :: 0 <= i < |es| ==> Enabled(ss[i], es[i]) && ss[i + 1] == Next(ss[i], es[i])
  }

  // ------------------------------------------------------------------ invariant of every run

  predicate PaidPhase(p: Phase) { p in {Reserved, Checked, Gate2, Fenced, Cleared} }

  /** While the row still names the worker, it is in the attempt the worker claimed, and from the
      reservation on its gate is closed. */
  ghost predicate PcOk(s: Sys, o: Owner, pc: Pc) {
    pc.Busy? ==>
      && pc.item in s.ledger.issued
      && (pc.item in s.ledger.db.items ==> s.ledger.db.items[pc.item].cacheKey == pc.key)
      && (Q.HoldsClaim(s.ledger.db, pc.item, o) ==> s.ledger.db.items[pc.item].attempts == pc.attempt)
      && (Q.HoldsClaim(s.ledger.db, pc.item, o) && PaidPhase(pc.phase) ==> s.ledger.db.items[pc.item].gateClosed)
      && (pc.phase.Completing? ==> Served(s, pc.key))
  }

  predicate Served(s: Sys, key: CacheKey) {
    key in s.store.entries && s.store.entries[key].status.EntryCompleted?
  }

  predicate CompletedServed(s: Sys) {
    forall r :: r in s.ledger.db.items && s.ledger.db.items[r].status.Completed? ==> Served(s, s.ledger.db.items[r].cacheKey)
  }

  ghost predicate SysOk(s: Sys) {
    C.LedgerOk(s.ledger) && S.StoreOk(s.store) && CompletedServed(s) && forall o :: o in s.pcs ==> PcOk(s, o, s.pcs[o])
  }

  // ------------------------------------------------------------------ one step

  /** The queue tables after one transaction, as every worker's variables see them. */
  lemma TxKeepsPc(s: Sys, now: Time, tx: C.Tx, o: Owner, pc: Pc)
    requires C.LedgerOk(s.ledger) && C.Allowed(s.ledger, C.At(now, tx)) && PcOk(s, o, pc)
    requires tx.TxClaim? ==> tx.owner != o
    ensures PcOk(Tx(s, now, tx), o, pc)
  {
    if pc.Busy? {
      var e := C.At(now, tx);
      var db, db' := s.ledger.db, C.Apply(s.ledger.db, e);
      if pc.item in db'.items {
        C.ItemsOrigin(db, e, pc.item);
        RowKeepsKey(db, e, pc.item);
        C.ItemsEvolve(db, e, pc.item);
        if Q.HoldsClaim(db', pc.item, o) {
          ClaimNeedsClaim(db, e, pc.item, o);
        }
      }
    }
  }

  lemma RowKeepsKey(db: Q.Db, e: C.Timed, r: RequestId)
    requires C.Fits(db, e) && r in db.items && r in C.Apply(db, e).items
    ensures C.Apply(db, e).items[r].cacheKey == db.items[r].cacheKey
  {}

  /** Only claiming makes a row name an owner, and only claiming starts an attempt. */
  lemma ClaimNeedsClaim(db: Q.Db, e: C.Timed, r: RequestId, o: Owner)
    requires C.Fits(db, e) && r in db.items && Q.HoldsClaim(C.Apply(db, e), r, o)
    requires e.tx.TxClaim? ==> e.tx.owner != o
    ensures Q.HoldsClaim(db, r, o) && C.Apply(db, e).items[r].attempts == db.items[r].attempts
  {}

  /** A row completes only by complete_queue_item. */
  lemma CompletedOrigin(db: Q.Db, e: C.Timed, r: RequestId)
    requires C.Fits(db, e) && r in C.Apply(db, e).items && C.Apply(db, e).items[r].status.Completed?
    ensures r in db.items
    ensures db.items[r].status.Completed? || (e.tx.TxComplete? && e.tx.item == r)
  {
    C.ItemsOrigin(db, e, r);
  }

  lemma TxKeeps(s: Sys, now: Time, tx: C.Tx)
    requires SysOk(s) && C.Allowed(s.ledger, C.At(now, tx))
    requires tx.TxClaim? ==> PcOf(s, tx.owner).Idle?
    requires tx.TxComplete? && tx.item in s.ledger.db.items ==> Served(s, s.ledger.db.items[tx.item].cacheKey)
    ensures SysOk(Tx(s, now, tx))
  {
    var e := C.At(now, tx);
    C.NextKeeps(s.ledger, e);
    var s' := Tx(s, now, tx);
    forall r | r in s'.ledger.db.items && s'.ledger.db.items[r].status.Completed?
      ensures Served(s', s'.ledger.db.items[r].cacheKey)
    {
      CompletedOrigin(s.ledger.db, e, r);
      RowKeepsKey(s.ledger.db, e, r);
    }
    forall o | o in s.pcs ensures PcOk(s', o, s.pcs[o]) {
      if s.pcs[o].Busy? {
        TxKeepsPc(s, now, tx, o, s.pcs[o]);
      }
    }
  }

  lemma StoreKeeps(s: Sys, step: S.Step)
    requires SysOk(s) && S.Proper(step)
    ensures SysOk(s.(store := S.Next(s.store, step)))
    ensures step.Completes? ==> Served(s.(store := S.Next(s.store, step)), step.key)
  {
    S.NextKeeps(s.store, step);
  }

  lemma MoveKeeps(s: Sys, o: Owner, pc: Pc)
    requires SysOk(s) && PcOk(s, o, pc)
    ensures SysOk(Move(s, o, pc))
  {}

  /** Passing a fence moves on to the next gate; the phases of a paid attempt follow only each other. */
  lemma FencedPcOk(s: Sys, o: Owner, pc: Pc, until: Time, phase: Phase)
    requires pc.Busy? && PcOk(s, o, pc) && !phase.Completing? && (PaidPhase(phase) ==> PaidPhase(pc.phase))
    ensures PcOk(s, o, pc.(until := until, phase := phase))
  {}

  lemma PassedFenceKeeps(s: Sys, o: Owner, pc: Pc, name: L.LeaseName, ttl: Time, now: Time)
    requires SysOk(s) && pc.Busy? && PcOk(s, o, pc) && pc.phase in {Planning, Gate1, Checked, Gate2}
    requires L.Fence(Tables(s), pc.item, o, name, ttl, pc.ids, now).1.None?
    ensures SysOk(AfterFence(s, o, pc, name, ttl, now))
  {
    var t := L.Fence(Tables(s), pc.item, o, name, ttl, pc.ids, now).0;
    var tx := C.TxRenew(pc.item, o, ttl);
    var s1 := Tx(s, now, tx).(leases := t.leases, holds := t.holds);
    TxKeeps(s, now, tx);
    TxKeepsPc(s, now, tx, o, pc);
    var pc' := AfterFence(s, o, pc, name, ttl, now).pcs[o];
    FencedPcOk(s1, o, pc, now + ttl, pc'.phase);
    MoveKeeps(s1, o, pc');
  }

  lemma FenceKeeps(s: Sys, o: Owner, pc: Pc, name: L.LeaseName, ttl: Time, now: Time)
    requires SysOk(s) && pc.Busy? && PcOk(s, o, pc) && pc.phase in {Planning, Gate1, Checked, Gate2}
    ensures SysOk(AfterFence(s, o, pc, name, ttl, now))
  {
    if L.Fence(Tables(s), pc.item, o, name, ttl, pc.ids, now).1.None? {
      PassedFenceKeeps(s, o, pc, name, ttl, now);
    } else {
      MoveKeeps(s, o, AfterFence(s, o, pc, name, ttl, now).pcs[o]);
    }
  }

  lemma ReserveKeeps(s: Sys, o: Owner, pc: Pc, now: Time)
    requires SysOk(s) && WorkerEnabled(s, o, pc, Reserves, now) && PcOk(s, o, pc)
    ensures SysOk(WorkerNext(s, o, pc, Reserves, now))
  {
    var tx := C.TxReserve(pc.item);
    TxKeeps(s, now, tx);
    TxKeepsPc(s, now, tx, o, pc);
    MoveKeeps(Tx(s, now, tx), o, WorkerNext(s, o, pc, Reserves, now).pcs[o]);
  }

  lemma ClaimStepKeeps(s: Sys, o: Owner, pc: Pc, r: RequestId, ttl: Time, now: Time)
    requires SysOk(s) && WorkerEnabled(s, o, pc, Claims(r, ttl), now) && pc == PcOf(s, o)
    ensures SysOk(WorkerNext(s, o, pc, Claims(r, ttl), now))
  {
    TxKeeps(s, now, C.TxClaim(r, o, ttl));
    MoveKeeps(Tx(s, now, C.TxClaim(r, o, ttl)), o, WorkerNext(s, o, pc, Claims(r, ttl), now).pcs[o]);
  }

  /** The invariant does not speak of reservations or leases. */
  lemma HoldsDoNotMatter(s: Sys, holds: map<PaperId, L.Hold>, leases: map<L.LeaseName, L.Lease>)
    requires SysOk(s)
    ensures SysOk(s.(holds := holds, leases := leases))
  {
    var s' := s.(holds := holds, leases := leases);
    forall o | o in s'.pcs ensures PcOk(s', o, s'.pcs[o]) {
      assert PcOk(s, o, s.pcs[o]);
    }
  }

  /** Steps that write no queue row. */
  lemma LocalStepKeeps(s: Sys, o: Owner, pc: Pc, step: WorkerStep, now: Time)
    requires SysOk(s) && WorkerEnabled(s, o, pc, step, now) && PcOk(s, o, pc) && pc.Busy?
    requires step.SeesCache? || step.ReservesIds? || step.KeepsIds? || step.UsesLease? || step.GivesUp? || step.Stops?
    ensures SysOk(WorkerNext(s, o, pc, step, now))
  {
    var s' := WorkerNext(s, o, pc, step, now);
    HoldsDoNotMatter(s, s'.holds, s'.leases);
    if !step.UsesLease? {
      MoveKeeps(s.(holds := s'.holds, leases := s'.leases), o, s'.pcs[o]);
    }
  }

  /** Steps that write cache entries. */
  lemma RecordStepKeeps(s: Sys, o: Owner, pc: Pc, step: WorkerStep, now: Time)
    requires SysOk(s) && WorkerEnabled(s, o, pc, step, now) && PcOk(s, o, pc) && pc.Busy?
    requires step.Composes? || step.Records? || step.RecordsFailure?
    ensures SysOk(WorkerNext(s, o, pc, step, now))
  {
    StoreKeeps(s, step.record);
    MoveKeeps(s.(store := S.Next(s.store, step.record)), o, WorkerNext(s, o, pc, step, now).pcs[o]);
  }

  /** A queue transaction after which the worker is in another phase. */
  lemma TxMoveKeeps(s: Sys, o: Owner, pc: Pc, tx: C.Tx, phase: Phase, now: Time)
    requires SysOk(s) && pc.Busy? && PcOk(s, o, pc)
    requires C.Allowed(s.ledger, C.At(now, tx)) && !tx.TxClaim?
    requires tx.TxComplete? && tx.item in s.ledger.db.items ==> Served(s, s.ledger.db.items[tx.item].cacheKey)
    requires !phase.Completing? && (PaidPhase(phase) ==> PaidPhase(pc.phase))
    ensures SysOk(Move(Tx(s, now, tx), o, pc.(phase := phase)))
  {
    TxKeeps(s, now, tx);
    TxKeepsPc(s, now, tx, o, pc);
    MoveKeeps(Tx(s, now, tx), o, pc.(phase := phase));
  }

  /** The other steps that write queue rows. */
  lemma QueueStepKeeps(s: Sys, o: Owner, pc: Pc, step: WorkerStep, now: Time)
    requires SysOk(s) && WorkerEnabled(s, o, pc, step, now) && PcOk(s, o, pc) && pc.Busy?
    requires step.DropsIds? || step.Checks? || step.Finishes? || step.Releases?
    ensures SysOk(WorkerNext(s, o, pc, step, now))
  {
    if step.DropsIds? {
      TxKeeps(s, now, C.TxWake(step.ids));
    } else if step.Checks? {
      TxMoveKeeps(s, o, pc, C.TxCheck(pc.item), WorkerNext(s, o, pc, step, now).pcs[o].phase, now);
    } else if step.Finishes? {
      TxMoveKeeps(s, o, pc, C.TxComplete(pc.item), Ending, now);
    } else {
      TxMoveKeeps(s, o, pc, C.TxRelease(pc.item, step.status, step.next, step.reason), Ending, now);
    }
  }

  lemma StepKeeps(s: Sys, e: Timed)
    requires SysOk(s) && Enabled(s, e)
    ensures SysOk(Next(s, e))
  {
    var s1 := s.(now := e.now);
    match e.event
    case Broker(tx) => TxKeeps(s1, e.now, tx);
    case Feed(write) => StoreKeeps(s1, write);
    case Harvester(a, lease) =>
    case Work(o, step) =>
      var pc := PcOf(s, o);
      if step.Claims? {
        ClaimStepKeeps(s1, o, pc, step.item, step.ttl, e.now);
      } else if step.PassesFence? {
        FenceKeeps(s1, o, pc, step.name, step.ttl, e.now);
      } else if step.Reserves? {
        ReserveKeeps(s1, o, pc, e.now);
      } else if step.Composes? || step.Records? || step.RecordsFailure? {
        RecordStepKeeps(s1, o, pc, step, e.now);
      } else if step.DropsIds? || step.Checks? || step.Finishes? || step.Releases? {
        QueueStepKeeps(s1, o, pc, step, e.now);
      } else {
        LocalStepKeeps(s1, o, pc, step, e.now);
      }
  }

  lemma {:induction false} RunKeeps(ss: seq<Sys>, es: seq<Timed>, i: nat)
    requires IsRun(ss, es) && i < |ss|
    ensures SysOk(ss[i])
  {
    if i > 0 {
      RunKeeps(ss, es, i - 1);
      StepKeeps(ss[i - 1], es[i - 1]);
    }
  }

  // ------------------------------------------------------------------ the theorems

  /** However workers overlap and whichever path finished it, a completed queue item has a readable
      completed cache entry for its key. */
  lemma CompletedItemsAreServed(ss: seq<Sys>, es: seq<Timed>, i: nat, r: RequestId)
    requires IsRun(ss, es) && i < |ss|
    requires r in ss[i].ledger.db.items && ss[i].ledger.db.items[r].status.Completed?
    ensures S.Readable(ss[i].store, ss[i].ledger.db.items[r].cacheKey)
  {
    RunKeeps(ss, es, i);
    var key := ss[i].ledger.db.items[r].cacheKey;
    assert Served(ss[i], key);
    var ids :| S.Lists(ss[i].store.rows, ss[i].store.entries[key], ids);
    S.ListsPasses(ss[i].store.rows, ss[i].store.entries[key], ids);
  }

  /** The attempt of `pc` is paid for: the row names the worker, the gate is closed, and every budget
      of the attempt was charged for exactly this attempt. */
  predicate Paid(s: Sys, o: Owner, pc: Pc)
    requires pc.Busy?
  {
    && Q.HoldsClaim(s.ledger.db, pc.item, o)
    && var item := s.ledger.db.items[pc.item];
       && item.attempts == pc.attempt && item.gateClosed
       && forall b :: b in item.members && Q.Active(item, b) ==>
            b in s.ledger.accounts && C.Attempt(pc.item, pc.attempt) in s.ledger.accounts[b].charges
  }

  lemma HeldIsPaid(s: Sys, o: Owner)
    requires SysOk(s) && PcOf(s, o).Busy? && PaidPhase(PcOf(s, o).phase)
    requires Q.HoldsClaim(s.ledger.db, PcOf(s, o).item, o)
    ensures Paid(s, o, PcOf(s, o))
  {
    var item := s.ledger.db.items[PcOf(s, o).item];
    assert PcOk(s, o, s.pcs[o]) && QI.ItemOk(item) && C.Backed(s.ledger, PcOf(s, o).item);
    forall b | b in item.members && Q.Active(item, b) ensures item.members[b].lastCharged == item.attempts {
      assert QI.MemberOk(item, item.members[b]);
    }
  }

  /** Whoever passes the second ownership gate does so with a paid attempt. No assumption on timing,
      and none on what stale workers do, is needed for that instant. */
  lemma SecondGateIsPaid(ss: seq<Sys>, es: seq<Timed>, i: nat, o: Owner)
    requires IsRun(ss, es) && i < |es| && es[i].event.Work? && es[i].event.owner == o && es[i].event.does.PassesFence?
    requires PcOf(ss[i + 1], o).Busy? && PcOf(ss[i + 1], o).phase.Fenced?
    ensures Paid(ss[i + 1], o, PcOf(ss[i + 1], o))
  {
    RunKeeps(ss, es, i + 1);
    HeldIsPaid(ss[i + 1], o);
  }

  // ------------------------------------------------------------------ workers on one item

  /** The worker has an item in hand and is within its last known claim, at some time. */
  predicate LiveAt(s: Sys, o: Owner, now: Time) {
    PcOf(s, o).Busy? && !PcOf(s, o).phase.Ending? && now < PcOf(s, o).until
  }

  predicate Live(s: Sys, o: Owner) { LiveAt(s, o, s.now) }

  predicate HandsBack(s: Sys, e: Timed) {
    e.event.Work? && (e.event.does.Releases? || e.event.does.Finishes?) && PcOf(s, e.event.owner).Busy?
  }

  /** Another worker is live on the item that is handed back. */
  predicate Shares(s: Sys, e: Timed, q: Owner)
    requires HandsBack(s, e)
  {
    q != e.event.owner && q in s.pcs && LiveAt(s, q, e.now) && s.pcs[q].item == PcOf(s, e.event.owner).item
  }

  ghost predicate Meddles(s: Sys, e: Timed) {
    HandsBack(s, e) && exists q: Owner :: Shares(s, e, q)
  }

  /** An item on which another worker is live is made claimable: released to the delayed state, and not refused. */
  ghost predicate Reopens(s: Sys, e: Timed) {
    && Meddles(s, e) && e.event.does.Releases? && e.event.does.status.Pending()
    && var r := PcOf(s, e.event.owner).item;
       r in s.ledger.db.items && !Q.OtherPending(s.ledger.db, r, s.ledger.db.items[r].cacheKey)
  }

  /** A worker hands its item back, or finishes it, before its claim ends. */
  predicate Timely(s: Sys, e: Timed) {
    HandsBack(s, e) ==> e.now < PcOf(s, e.event.owner).until
  }

  predicate NoDemand(item: Q.Item) { !item.unbudgeted && item.members == map[] }

  /** The item of a live worker is still its own, or nobody can claim it: it is terminal, and, in the strict sense,
      failed by the cancellation of its last demand. */
  predicate StillOwn(db: Q.Db, r: RequestId, o: Owner, until: Time, strict: bool) {
    r in db.items ==>
      || (Q.HoldsClaim(db, r, o) && db.items[r].claimedUntil == Some(until))
      || (!db.items[r].status.Pending() && (strict ==> db.items[r].status.Failed? && NoDemand(db.items[r])))
  }

  predicate Exclusive(s: Sys, strict: bool) {
    && (forall o :: o in s.pcs && Live(s, o) ==> StillOwn(s.ledger.db, s.pcs[o].item, o, s.pcs[o].until, strict))
    && (forall o, p :: o in s.pcs && p in s.pcs && o != p && Live(s, o) && Live(s, p) ==> s.pcs[o].item != s.pcs[p].item)
  }

  /** What a transaction may not do to an item for its worker to keep it. */
  predicate Spares(db: Q.Db, tx: C.Tx, r: RequestId, strict: bool) {
    (tx.TxRelease? || tx.TxComplete?) && tx.item == r && r in db.items ==>
      !strict && (tx.TxRelease? && tx.status.Pending() ==> Q.OtherPending(db, r, db.items[r].cacheKey))
  }

  /** Transactions on other items, or on this one by the broker, leave a live worker its item. */
  lemma TxKeepsOwn(s: Sys, now: Time, tx: C.Tx, r: RequestId, o: Owner, until: Time, strict: bool)
    requires C.LedgerOk(s.ledger) && C.Allowed(s.ledger, C.At(now, tx)) && now < until && r in s.ledger.issued
    requires StillOwn(s.ledger.db, r, o, until, strict) && Spares(s.ledger.db, tx, r, strict)
    requires tx.TxRenew? ==> tx.item != r || tx.owner != o
    ensures StillOwn(Tx(s, now, tx).ledger.db, r, o, until, strict)
  {
    var e := C.At(now, tx);
    if r in C.Apply(s.ledger.db, e).items {
      C.ItemsOrigin(s.ledger.db, e, r);
      if tx.TxRelease? || tx.TxComplete? {
        HandedBackRow(s.ledger.db, e, r, o, until, strict);
      } else {
        OwnRow(s.ledger.db, e, r, o, until, strict);
      }
    }
  }

  lemma HandedBackRow(db: Q.Db, e: C.Timed, r: RequestId, o: Owner, until: Time, strict: bool)
    requires r in db.items && StillOwn(db, r, o, until, strict) && Spares(db, e.tx, r, strict)
    requires e.tx.TxRelease? || e.tx.TxComplete?
    ensures StillOwn(C.Apply(db, e), r, o, until, strict)
  {}

  lemma OwnRow(db: Q.Db, e: C.Timed, r: RequestId, o: Owner, until: Time, strict: bool)
    requires C.Fits(db, e) && e.now < until && r in db.items && r in C.Apply(db, e).items && StillOwn(db, r, o, until, strict)
    requires !e.tx.TxRelease? && !e.tx.TxComplete?
    requires e.tx.TxRenew? ==> e.tx.item != r || e.tx.owner != o
    ensures StillOwn(C.Apply(db, e), r, o, until, strict)
  {
    if e.tx.TxCancel? && Q.TiedTo(db.items[r], e.tx.budget) {
      assert C.Apply(db, e).items[r] == Q.CancelledItem(db.items[r], e.tx.budget, e.tx.error, e.now);
    }
  }

  /** The queue transaction of a step, if it has one. */
  ghost function WorkerTx(s: Sys, o: Owner, pc: Pc, step: WorkerStep, now: Time): Option<C.Tx>
    requires WorkerEnabled(s, o, pc, step, now)
  {
    match step
    case Claims(r, ttl) => Some(C.TxClaim(r, o, ttl))
    case DropsIds(ids) => if L.OwnedAmong(s.holds, ids, o) == {} then None else Some(C.TxWake(ids))
    case PassesFence(name, ttl) =>
      if L.Fence(Tables(s), pc.item, o, name, ttl, pc.ids, now).1.None? then Some(C.TxRenew(pc.item, o, ttl)) else None
    case Reserves => Some(C.TxReserve(pc.item))
    case Checks => Some(C.TxCheck(pc.item))
    case Finishes => Some(C.TxComplete(pc.item))
    case Releases(status, next, reason) => Some(C.TxRelease(pc.item, status, next, reason))
    case _ => None
  }

  ghost function TxOf(s: Sys, e: Timed): Option<C.Tx>
    requires Enabled(s, e)
  {
    match e.event
    case Broker(tx) => Some(tx)
    case Feed(_) => None
    case Harvester(_, _) => None
    case Work(o, step) => WorkerTx(s, o, PcOf(s, o), step, e.now)
  }

  lemma WorkerLedger(s: Sys, o: Owner, pc: Pc, step: WorkerStep, now: Time)
    requires WorkerEnabled(s, o, pc, step, now)
    ensures var tx := WorkerTx(s, o, pc, step, now); var s' := WorkerNext(s, o, pc, step, now);
      s'.now == s.now && s'.ledger == if tx.None? then s.ledger else C.Next(s.ledger, C.At(now, tx.value))
  {
    match step
    case PassesFence(name, ttl) =>
      var lost := L.Fence(Tables(s), pc.item, o, name, ttl, pc.ids, now).1;
      assert WorkerNext(s, o, pc, step, now) == AfterFence(s, o, pc, name, ttl, now);
    case _ =>
  }

  lemma LedgerOfNext(s: Sys, e: Timed)
    requires Enabled(s, e)
    ensures Next(s, e).now == e.now
    ensures Next(s, e).ledger == if TxOf(s, e).None? then s.ledger else C.Next(s.ledger, C.At(e.now, TxOf(s, e).value))
  {
    if e.event.Work? {
      WorkerLedger(s.(now := e.now), e.event.owner, PcOf(s, e.event.owner), e.event.does, e.now);
    }
  }

  lemma TxIsAllowed(s: Sys, e: Timed)
    requires Enabled(s, e)
    ensures TxOf(s, e).Some? ==> C.Allowed(s.ledger, C.At(e.now, TxOf(s, e).value))
  {}

  /** Only a worker's own steps change its variables. */
  lemma PcOfOthers(s: Sys, e: Timed, o: Owner)
    requires Enabled(s, e) && !(e.event.Work? && e.event.owner == o)
    ensures PcOf(Next(s, e), o) == PcOf(s, o)
  {}

  /** Only claiming and the fence change its claim. */
  lemma PcOfOwn(s: Sys, e: Timed, o: Owner)
    requires Enabled(s, e) && e.event.Work? && e.event.owner == o && !e.event.does.Claims? && PcOf(Next(s, e), o).Busy?
    ensures var pc, pc' := PcOf(s, o), PcOf(Next(s, e), o);
        && pc.Busy? && pc'.item == pc.item && pc'.attempt == pc.attempt
        && (pc'.until != pc.until ==> e.event.does.PassesFence? && TxOf(s, e).Some?)
        && (pc.phase.Ending? ==> pc'.phase.Ending?)
        && (HandsBack(s, e) ==> pc'.phase.Ending?)
  {}

  lemma PcOfNext(s: Sys, e: Timed, o: Owner)
    requires Enabled(s, e)
    ensures !(e.event.Work? && e.event.owner == o) ==> PcOf(Next(s, e), o) == PcOf(s, o)
    ensures var pc, pc' := PcOf(s, o), PcOf(Next(s, e), o);
      e.event.Work? && e.event.owner == o && !e.event.does.Claims? && pc'.Busy? ==>
        && pc.Busy? && pc'.item == pc.item && pc'.attempt == pc.attempt
        && (pc'.until != pc.until ==> e.event.does.PassesFence? && TxOf(s, e).Some?)
        && (pc.phase.Ending? ==> pc'.phase.Ending?)
        && (HandsBack(s, e) ==> pc'.phase.Ending?)
  {
    if !(e.event.Work? && e.event.owner == o) {
      PcOfOthers(s, e, o);
    } else if !e.event.does.Claims? && PcOf(Next(s, e), o).Busy? {
      PcOfOwn(s, e, o);
    }
  }

  lemma FenceOwns(s: Sys, e: Timed)
    requires Enabled(s, e) && e.event.Work? && e.event.does.PassesFence? && TxOf(s, e).Some?
    ensures var o := e.event.owner; var pc := PcOf(s, o);
      Q.HoldsClaim(Next(s, e).ledger.db, pc.item, o) && PcOf(Next(s, e), o).until == e.now + e.event.does.ttl
      && Next(s, e).ledger.db.items[pc.item].claimedUntil == Some(e.now + e.event.does.ttl)
  {}

  /** Any step but its own claim, fence and hand-back leaves a live worker its item, if it is spared. */
  lemma OtherStepKeepsOwn(s: Sys, e: Timed, o: Owner, strict: bool)
    requires SysOk(s) && Enabled(s, e) && Exclusive(s, strict) && LiveAt(s, o, e.now)
    requires if strict then !Meddles(s, e) else !Reopens(s, e)
    requires e.event.Work? && e.event.owner == o ==>
               !e.event.does.Claims? && !e.event.does.PassesFence? && !e.event.does.Releases? && !e.event.does.Finishes?
    ensures StillOwn(Next(s, e).ledger.db, PcOf(s, o).item, o, PcOf(s, o).until, strict)
  {
    LedgerOfNext(s, e);
    TxIsAllowed(s, e);
    var pc := PcOf(s, o);
    assert Live(s, o) && PcOk(s, o, pc);
    if TxOf(s, e).Some? {
      var tx := TxOf(s, e).value;
      if (tx.TxRelease? || tx.TxComplete?) && tx.item == pc.item {
        assert Shares(s, e, o);
      }
      TxKeepsOwn(s, e.now, tx, pc.item, o, pc.until, strict);
    }
  }

  lemma OwnFenceKeepsOwn(s: Sys, e: Timed, o: Owner, strict: bool)
    requires Enabled(s, e) && Exclusive(s, strict) && Live(Next(s, e), o)
    requires e.event.Work? && e.event.owner == o && e.event.does.PassesFence?
    ensures StillOwn(Next(s, e).ledger.db, PcOf(Next(s, e), o).item, o, PcOf(Next(s, e), o).until, strict)
  {
    PcOfNext(s, e, o);
    LedgerOfNext(s, e);
    if TxOf(s, e).Some? {
      FenceOwns(s, e);
    } else {
      assert Live(s, o);
    }
  }

  lemma LiveKeepsOwn(s: Sys, e: Timed, o: Owner, strict: bool)
    requires SysOk(s) && Enabled(s, e) && Exclusive(s, strict) && Live(Next(s, e), o)
    requires if strict then !Meddles(s, e) else !Reopens(s, e)
    ensures StillOwn(Next(s, e).ledger.db, PcOf(Next(s, e), o).item, o, PcOf(Next(s, e), o).until, strict)
  {
    var mine := e.event.Work? && e.event.owner == o;
    if mine && e.event.does.PassesFence? {
      OwnFenceKeepsOwn(s, e, o, strict);
    } else if mine && e.event.does.Claims? {
      LedgerOfNext(s, e);
    } else {
      PcOfNext(s, e, o);
      LedgerOfNext(s, e);
      OtherStepKeepsOwn(s, e, o, strict);
    }
  }

  lemma ClaimsNewItem(s: Sys, e: Timed, o: Owner, p: Owner)
    requires Enabled(s, e) && Exclusive(s, false) && e.event.Work? && e.event.owner == o && e.event.does.Claims?
    requires p != o && Live(s, p) && e.now < PcOf(s, p).until
    ensures PcOf(s, p).item != e.event.does.item
  {
    assert p in s.pcs;
  }

  lemma StrictIsExclusive(s: Sys, strict: bool)
    requires Exclusive(s, strict)
    ensures Exclusive(s, false)
  {
    forall o | o in s.pcs && Live(s, o) ensures StillOwn(s.ledger.db, s.pcs[o].item, o, s.pcs[o].until, false) {
      assert StillOwn(s.ledger.db, s.pcs[o].item, o, s.pcs[o].until, strict);
    }
  }

  lemma ExclusiveKeeps(s: Sys, e: Timed, strict: bool)
    requires SysOk(s) && Enabled(s, e) && Exclusive(s, strict)
    requires if strict then !Meddles(s, e) else !Reopens(s, e)
    ensures Exclusive(Next(s, e), strict)
  {
    var s' := Next(s, e);
    forall o | o in s'.pcs && Live(s', o) ensures StillOwn(s'.ledger.db, s'.pcs[o].item, o, s'.pcs[o].until, strict) {
      LiveKeepsOwn(s, e, o, strict);
    }
    StrictIsExclusive(s, strict);
    forall o, p | o in s'.pcs && p in s'.pcs && o != p && Live(s', o) && Live(s', p)
      ensures s'.pcs[o].item != s'.pcs[p].item
    {
      OneClaims(s, e, o, p);
    }
  }

  lemma OneClaims(s: Sys, e: Timed, o: Owner, p: Owner)
    requires SysOk(s) && Enabled(s, e) && Exclusive(s, false) && o != p && Live(Next(s, e), o) && Live(Next(s, e), p)
    ensures PcOf(Next(s, e), o).item != PcOf(Next(s, e), p).item
  {
    LedgerOfNext(s, e);
    PcOfNext(s, e, o);
    PcOfNext(s, e, p);
    if e.event.Work? && e.event.does.Claims? && e.event.owner in {o, p} {
      ClaimsNewItem(s, e, e.event.owner, if e.event.owner == o then p else o);
    } else {
      LiveBefore(s, e, o);
      LiveBefore(s, e, p);
    }
  }

  lemma LiveBefore(s: Sys, e: Timed, o: Owner)
    requires SysOk(s) && Enabled(s, e) && Live(Next(s, e), o)
    requires !(e.event.Work? && e.event.does.Claims? && e.event.owner == o)
    ensures PcOf(s, o).Busy? && !PcOf(s, o).phase.Ending? && PcOf(Next(s, e), o).item == PcOf(s, o).item && o in s.pcs
  {
    LedgerOfNext(s, e);
    PcOfNext(s, e, o);
  }

  lemma {:induction false} RunIsExclusive(ss: seq<Sys>, es: seq<Timed>, i: nat, strict: bool)
    requires IsRun(ss, es) && i < |ss|
    requires forall k :: 0 <= k < i ==> if strict then !Meddles(ss[k], es[k]) else !Reopens(ss[k], es[k])
    ensures Exclusive(ss[i], strict)
    decreases i
  {
    if i > 0 {
      RunIsExclusive(ss, es, i - 1, strict);
      RunKeeps(ss, es, i - 1);
      ExclusiveKeeps(ss[i - 1], es[i - 1], strict);
    }
  }

  /** In every run in which no release reopens an item on which another worker is live, no two workers within their
      claims ever work on the same item. */
  lemma OneLiveWorkerPerItem(ss: seq<Sys>, es: seq<Timed>, i: nat, o: Owner, p: Owner)
    requires IsRun(ss, es) && i < |ss| && o != p && Live(ss[i], o) && Live(ss[i], p)
    requires forall k :: 0 <= k < i ==> !Reopens(ss[k], es[k])
    ensures PcOf(ss[i], o).item != PcOf(ss[i], p).item
  {
    RunIsExclusive(ss, es, i, false);
    assert o in ss[i].pcs && p in ss[i].pcs;
  }

  /** That hypothesis is exact, step by step: exclusion is kept if and only if the step reopens no such item. */
  lemma ExclusionKeptExactly(ss: seq<Sys>, es: seq<Timed>, i: nat)
    requires IsRun(ss, es) && i < |es| && Exclusive(ss[i], false)
    ensures Exclusive(ss[i + 1], false) <==> !Reopens(ss[i], es[i])
  {
    RunKeeps(ss, es, i);
    if Reopens(ss[i], es[i]) {
      var q: Owner :| Shares(ss[i], es[i], q);
      ReopenedRow(ss[i], es[i], q);
    } else {
      ExclusiveKeeps(ss[i], es[i], false);
    }
  }

  lemma ReopenedRow(s: Sys, e: Timed, q: Owner)
    requires SysOk(s) && Enabled(s, e) && Reopens(s, e) && Shares(s, e, q)
    ensures q in Next(s, e).pcs && Next(s, e).pcs[q] == s.pcs[q] && Live(Next(s, e), q)
    ensures var db := Next(s, e).ledger.db; s.pcs[q].item in db.items && db.items[s.pcs[q].item].status == e.event.does.status
    ensures !Exclusive(Next(s, e), false)
  {
    LedgerOfNext(s, e);
    PcOfNext(s, e, q);
    var r := s.pcs[q].item;
    assert Next(s, e).ledger.db.items[r].status == e.event.does.status;
    assert !StillOwn(Next(s, e).ledger.db, r, q, s.pcs[q].until, false);
  }

  /** And once such an item is claimed again while its worker is live, two workers are live on it. */
  lemma ReopenedItemIsShared(ss: seq<Sys>, es: seq<Timed>, i: nat, q: Owner)
    requires IsRun(ss, es) && i + 1 < |es| && Reopens(ss[i], es[i]) && Shares(ss[i], es[i], q)
    requires var next := es[i + 1];
             next.event.Work? && next.event.does.Claims? && next.event.does.item == ss[i].pcs[q].item
             && next.event.owner != q && next.event.does.ttl > 0.0 && next.now < ss[i].pcs[q].until
    ensures var s, p := ss[i + 2], es[i + 1].event.owner;
            p != q && Live(s, p) && Live(s, q) && PcOf(s, p).item == PcOf(s, q).item
  {
    RunKeeps(ss, es, i);
    ReopenedRow(ss[i], es[i], q);
    LedgerOfNext(ss[i + 1], es[i + 1]);
    PcOfNext(ss[i + 1], es[i + 1], q);
  }

  /** A live worker, not the one that acts, no longer holds the claim that it held. */
  predicate Loses(s: Sys, after: Q.Db, e: Timed, p: Owner) {
    && e.event.Work? && p != e.event.owner && p in s.pcs && LiveAt(s, p, e.now)
    && Q.HoldsClaim(s.ledger.db, s.pcs[p].item, p) && !Q.HoldsClaim(after, s.pcs[p].item, p)
  }

  /** The row of the item that is handed back names another worker that is live on it. */
  predicate NamesOther(s: Sys, e: Timed, q: Owner)
    requires HandsBack(s, e)
  {
    Shares(s, e, q) && Q.HoldsClaim(s.ledger.db, PcOf(s, e.event.owner).item, q)
  }

  lemma HandedBackClaims(db: Q.Db, e: C.Timed, r: RequestId)
    requires QI.PendingUnique(db) && C.Fits(db, e)
    requires (e.tx.TxRelease? || e.tx.TxComplete?) && e.tx.item == r
    ensures forall q: RequestId, p: Owner :: q != r && Q.HoldsClaim(db, q, p) ==> Q.HoldsClaim(C.Apply(db, e), q, p)
    ensures forall p: Owner :: Q.HoldsClaim(db, r, p) ==> !Q.HoldsClaim(C.Apply(db, e), r, p)
  {
    if r in db.items && db.items[r].status.Pending() {
      NoOtherPending(db, r);
    }
  }

  lemma HandBackRows(s: Sys, e: Timed)
    requires SysOk(s) && Enabled(s, e) && HandsBack(s, e)
    ensures var after, r := Next(s, e).ledger.db, PcOf(s, e.event.owner).item;
            && (forall q: RequestId, p: Owner :: q != r && Q.HoldsClaim(s.ledger.db, q, p) ==> Q.HoldsClaim(after, q, p))
            && (forall p: Owner :: Q.HoldsClaim(s.ledger.db, r, p) ==> !Q.HoldsClaim(after, r, p))
  {
    LedgerOfNext(s, e);
    TxIsAllowed(s, e);
    HandedBackClaims(s.ledger.db, C.At(e.now, TxOf(s, e).value), PcOf(s, e.event.owner).item);
  }

  /** A hand-back takes an item from a live worker if and only if the row names a live worker other than the one
      that hands it back. The unique index never saves it: the row is pending, so no other one of its key is. */
  lemma HandBackTakesExactly(ss: seq<Sys>, es: seq<Timed>, i: nat)
    requires IsRun(ss, es) && i < |es| && HandsBack(ss[i], es[i])
    ensures var s, e, after := ss[i], es[i], ss[i + 1].ledger.db;
            (exists p: Owner :: Loses(s, after, e, p)) <==> exists q: Owner :: NamesOther(s, e, q)
  {
    var s, e, after := ss[i], es[i], ss[i + 1].ledger.db;
    RunKeeps(ss, es, i);
    HandBackRows(s, e);
    forall p: Owner | Loses(s, after, e, p) ensures NamesOther(s, e, p) {
    }
    forall q: Owner | NamesOther(s, e, q) ensures Loses(s, after, e, q) {
    }
  }

  lemma NoOtherPending(db: Q.Db, r: RequestId)
    requires QI.PendingUnique(db) && r in db.items && db.items[r].status.Pending()
    ensures !Q.OtherPending(db, r, db.items[r].cacheKey)
  {
    forall q | q in db.items && q != r ensures !Q.IsPendingFor(db, db.items[r].cacheKey, q) {
      assert !QI.Clash(db.items[q], db.items[r]);
    }
  }

  ghost predicate IsTimelyRun(ss: seq<Sys>, es: seq<Timed>) {
    IsRun(ss, es) && forall i :: 0 <= i < |es| ==> Timely(ss[i], es[i])
  }

  lemma TimelyDoesNotMeddle(s: Sys, e: Timed)
    requires Exclusive(s, true) && Enabled(s, e) && Timely(s, e)
    ensures !Meddles(s, e)
  {
    if Meddles(s, e) {
      var q: Owner :| Shares(s, e, q);
      assert Live(s, q) && Live(s, e.event.owner);
    }
  }

  /** Handing back in time is enough: then the worker that hands back is the only live one on its item. */
  lemma {:induction false} TimelyRunIsExclusive(ss: seq<Sys>, es: seq<Timed>, i: nat)
    requires IsTimelyRun(ss, es) && i < |ss|
    ensures Exclusive(ss[i], true)
    ensures i < |es| ==> !Meddles(ss[i], es[i])
    decreases i
  {
    if i > 0 {
      TimelyRunIsExclusive(ss, es, i - 1);
      RunKeeps(ss, es, i - 1);
      ExclusiveKeeps(ss[i - 1], es[i - 1], true);
    }
    if i < |es| {
      TimelyDoesNotMeddle(ss[i], es[i]);
    }
  }

  /** Somebody still waits for the running attempt: unbudgeted demand, or a budget that takes part in it, exists, and
      has no deadline or one that lies ahead. */
  predicate Wanted(item: Q.Item, budgets: Q.Budgets, now: Time) {
    item.unbudgeted
    || exists b :: b in item.members && item.members[b].firstAttempt <= item.attempts && b in budgets
                   && (budgets[b].deadline.None? || now < budgets[b].deadline.value)
  }

  lemma CheckedIsWanted(db: Q.Db, r: RequestId, now: Time)
    requires Q.CheckDeadlines(db, r, now).1.None?
    ensures r in db.items && !NoDemand(db.items[r])
    ensures var db' := Q.CheckDeadlines(db, r, now).0; r in db'.items && Wanted(db'.items[r], db'.budgets, now)
    ensures forall o :: Q.HoldsClaim(db, r, o) ==> Q.HoldsClaim(Q.CheckDeadlines(db, r, now).0, r, o)
  {
    var item := db.items[r];
    var gone := Q.ExpiredGone(item, db.budgets, now);
    QI.DetachedMembers(item, gone);
    if !item.unbudgeted {
      var b :| b in item.members && Q.Active(item, b) && b !in gone;
      assert Q.Active(Q.DetachedIfAny(item, gone), b);
    }
  }

  lemma ChecksPass(s: Sys, e: Timed, o: Owner)
    requires Enabled(s, e) && e.event.Work? && e.event.owner == o && e.event.does.Checks?
    requires PcOf(s, o).Busy? && PcOf(Next(s, e), o).Busy? && PcOf(Next(s, e), o).phase.Cleared?
    ensures Q.CheckDeadlines(s.ledger.db, PcOf(s, o).item, e.now).1.None?
    ensures Next(s, e).ledger.db == Q.CheckDeadlines(s.ledger.db, PcOf(s, o).item, e.now).0
    ensures PcOf(Next(s, e), o).item == PcOf(s, o).item
  {
    LedgerOfNext(s, e);
  }

  lemma CheckClaims(db: Q.Db, r: RequestId, now: Time, o: Owner)
    ensures Q.HoldsClaim(db, r, o) <==> Q.HoldsClaim(Q.CheckDeadlines(db, r, now).0, r, o)
  {}

  /** In every run, a worker that passed the second gate and whose final deadline check then succeeds goes to the
      network for an item that somebody still wants: unbudgeted demand, or a budget of the running attempt whose
      deadline has not passed. Its attempt is paid if and only if the row named it when it checked. */
  lemma FetchIsPaidExactly(ss: seq<Sys>, es: seq<Timed>, i: nat, o: Owner)
    requires IsRun(ss, es) && i < |es|
    requires es[i].event.Work? && es[i].event.owner == o && es[i].event.does.Checks?
    requires PcOf(ss[i], o).Busy? && PcOf(ss[i], o).phase.Fenced?
    requires PcOf(ss[i + 1], o).Busy? && PcOf(ss[i + 1], o).phase.Cleared?
    ensures var s, pc := ss[i + 1], PcOf(ss[i + 1], o);
      && (Paid(s, o, pc) <==> Q.HoldsClaim(ss[i].ledger.db, PcOf(ss[i], o).item, o))
      && pc.item in s.ledger.db.items
      && Wanted(s.ledger.db.items[pc.item], s.ledger.db.budgets, es[i].now)
  {
    RunKeeps(ss, es, i + 1);
    ChecksPass(ss[i], es[i], o);
    var r := PcOf(ss[i], o).item;
    CheckedIsWanted(ss[i].ledger.db, r, es[i].now);
    CheckClaims(ss[i].ledger.db, r, es[i].now, o);
    if Q.HoldsClaim(ss[i].ledger.db, r, o) {
      HeldIsPaid(ss[i + 1], o);
    }
  }

  /** In a timely run the row names every worker that checks within its fence, so its attempt is paid. */
  lemma FetchIsPaidAndWanted(ss: seq<Sys>, es: seq<Timed>, i: nat, o: Owner)
    requires IsTimelyRun(ss, es) && i < |es|
    requires es[i].event.Work? && es[i].event.owner == o && es[i].event.does.Checks?
    requires PcOf(ss[i], o).Busy? && PcOf(ss[i], o).phase.Fenced? && es[i].now < PcOf(ss[i], o).until
    requires PcOf(ss[i + 1], o).Busy? && PcOf(ss[i + 1], o).phase.Cleared?
    ensures var s, pc := ss[i + 1], PcOf(ss[i + 1], o);
      && Paid(s, o, pc)
      && Wanted(s.ledger.db.items[pc.item], s.ledger.db.budgets, es[i].now)
  {
    TimelyRunIsExclusive(ss, es, i);
    FetchIsPaidExactly(ss, es, i, o);
    assert o in ss[i].pcs && Live(ss[i], o);
    ChecksPass(ss[i], es[i], o);
    CheckedIsWanted(ss[i].ledger.db, PcOf(ss[i], o).item, es[i].now);
  }
}
