/** When a worker goes on and when it leaves its item, said in the columns of the rows that its transactions find. */
module WorkerMeaning {
  import opened Common
  import opened Worker
  import opened QueueMeaning
  import Q = Queue
  import C = Charges
  import L = Leases

  ghost function Does(s: Sys, o: Owner, step: WorkerStep, now: Time): Sys
    requires Enabled(s, At(now, Work(o, step)))
  {
    Next(s, At(now, Work(o, step)))
  }

  /** The worker has the item, the lease and the ids. */
  predicate HasLease(s: Sys, o: Owner, name: L.LeaseName) { name in s.leases && s.leases[name].owner == o }

  predicate HasItem(s: Sys, o: Owner, r: RequestId) {
    r in s.ledger.db.items && s.ledger.db.items[r].status.Claimed? && s.ledger.db.items[r].claimedBy == Some(o)
  }

  predicate HasIds(s: Sys, o: Owner, ids: set<PaperId>) { forall id :: id in ids ==> id in s.holds && s.holds[id].owner == o }

  /** A worker passes a fence exactly when lease, item and ids are its own; then all three are extended, and it goes on
      in the order gate, charge, check, gate, check. A fence that fails changes no row, and only a worker that lost
      nothing but ids still has the item to hand back. */
  lemma FenceStep(s: Sys, o: Owner, name: L.LeaseName, ttl: Time, now: Time)
    requires Enabled(s, At(now, Work(o, PassesFence(name, ttl))))
    ensures var pc, s' := PcOf(s, o), Does(s, o, PassesFence(name, ttl), now);
            if HasLease(s, o, name) && HasItem(s, o, pc.item) && HasIds(s, o, pc.ids)
            then
              && PcOf(s', o) == pc.(until := now + ttl, phase := match pc.phase
                                                                case Planning => Gate1
                                                                case Gate1 => Gated
                                                                case Checked => Gate2
                                                                case _ => Fenced)
              && L.Stands(Tables(s'), o, name, pc.ids, now + ttl)
              && HasItem(s', o, pc.item) && s'.ledger.db.items[pc.item].claimedUntil == Some(now + ttl)
            else
              && PcOf(s', o) == pc.(phase := if HasLease(s, o, name) && HasItem(s, o, pc.item) then Leaving else Ending)
              && s'.leases == s.leases && s'.holds == s.holds && s'.ledger == s.ledger
  {
    var pc := PcOf(s, o);
    L.FenceIsAllOrNothing(Tables(s), pc.item, o, name, ttl, pc.ids, now);
  }

  /** A worker goes on with the ids it wants exactly when nobody else has an unexpired reservation of one of them; it
      then holds them all. */
  lemma ReservesIdsStep(s: Sys, o: Owner, ids: set<PaperId>, ttl: Time, now: Time)
    requires Enabled(s, At(now, Work(o, ReservesIds(ids, ttl)))) && ids != {}
    ensures var pc, s' := PcOf(s, o), Does(s, o, ReservesIds(ids, ttl), now);
            if forall id :: id in ids && id in s.holds && s.holds[id].expires > now ==> s.holds[id].owner == o
            then PcOf(s', o) == pc.(ids := ids) && HasIds(s', o, ids) && forall id :: id in ids ==> s'.holds[id].expires == now + ttl
            else PcOf(s', o) == pc.(phase := Leaving)
  {
    L.IdsAreReservedExactly(s.holds, ids, o, PcOf(s, o).item, ttl, now);
  }

  /** It keeps them exactly when all are still its own. */
  lemma KeepsIdsStep(s: Sys, o: Owner, ids: set<PaperId>, ttl: Time, now: Time)
    requires Enabled(s, At(now, Work(o, KeepsIds(ids, ttl))))
    ensures var pc, s' := PcOf(s, o), Does(s, o, KeepsIds(ids, ttl), now);
            if HasIds(s, o, ids)
            then PcOf(s', o) == pc.(ids := ids) && HasIds(s', o, ids) && forall id :: id in ids ==> s'.holds[id].expires == now + ttl
            else PcOf(s', o) == pc.(phase := Leaving) && s'.holds == s.holds
  {
    L.OwnHoldsAreExtended(s.holds, ids, o, ttl, now);
  }

  /** It goes on to the charged state exactly when somebody pays for the attempt or the demand is unbudgeted. */
  lemma ReservesStep(s: Sys, o: Owner, now: Time)
    requires Enabled(s, At(now, Work(o, Reserves)))
    ensures var pc, s', db := PcOf(s, o), Does(s, o, Reserves, now), s.ledger.db;
            PcOf(s', o) == pc.(phase :=
              if pc.item in db.items
                 && (db.items[pc.item].unbudgeted
                     || exists b :: TakesPart(db.items[pc.item], b) && Stays(db.items[pc.item], db.budgets, b, now))
              then Reserved else Leaving)
  {
    Reservation(s.ledger.db, PcOf(s, o).item, now);
  }

  /** It goes to the network exactly when, at its last check, the item is there and some demand is unbudgeted or in time;
      the same holds of the check right after the charge. */
  lemma ChecksStep(s: Sys, o: Owner, now: Time)
    requires Enabled(s, At(now, Work(o, Checks)))
    ensures var pc, s', db := PcOf(s, o), Does(s, o, Checks, now), s.ledger.db;
            PcOf(s', o) == pc.(phase :=
              if pc.item in db.items
                 && (db.items[pc.item].unbudgeted || exists b :: TakesPart(db.items[pc.item], b) && InTime(db.budgets, b, now))
              then (if pc.phase.Reserved? then Checked else Cleared) else Leaving)
  {
    DeadlineCheck(s.ledger.db, PcOf(s, o).item, now);
  }
}
