/** Leases, reservations of ids for fetching, and the fence that a worker passes before network I/O.
    Times of acquisition are written but never read, so they are not kept. */
module Leases {
  import opened Common
  import Q = Queue

  type LeaseName = nat

  datatype Lease = Lease(owner: Owner, expires: Time)

  /** A row of id_fetch_reservations. */
  datatype Hold = Hold(owner: Owner, request: RequestId, expires: Time)

  /** The tables that several processes coordinate through. */
  datatype Tables = Tables(db: Q.Db, leases: map<LeaseName, Lease>, holds: map<PaperId, Hold>)

  // ------------------------------------------------------------------ leases

  predicate Owns(ls: map<LeaseName, Lease>, name: LeaseName, owner: Owner) {
    name in ls && ls[name].owner == owner
  }

  /** acquire_lease is refused while another owner's lease is unexpired. */
  predicate Refused(ls: map<LeaseName, Lease>, name: LeaseName, owner: Owner, now: Time) {
    name in ls && ls[name].owner != owner && ls[name].expires > now
  }

  function Acquire(ls: map<LeaseName, Lease>, name: LeaseName, owner: Owner, ttl: Time, now: Time): (map<LeaseName, Lease>, bool) {
    if Refused(ls, name, owner, now) then (ls, false) else (ls[name := Lease(owner, now + ttl)], true)
  }

  datatype Renewal = Renewal(name: LeaseName, owner: Owner, ttl: Time)

  /** renew_leases_if_owned: all of them or none. The names are distinct, or the call is an error
      (`None`). */
  function RenewIfOwned(ls: map<LeaseName, Lease>, rs: seq<Renewal>, now: Time): Option<(map<LeaseName, Lease>, bool)> {
    if exists i, j :: 0 <= i < j < |rs| && rs[i].name == rs[j].name then None
    else if exists i :: 0 <= i < |rs| && !Owns(ls, rs[i].name, rs[i].owner) then Some((ls, false))
    else Some((Renewed(ls, rs, now), true))
  }

  function Renewed(ls: map<LeaseName, Lease>, rs: seq<Renewal>, now: Time): map<LeaseName, Lease>
    decreases |rs|
  {
    if rs == [] then ls
    else
      var r := rs[|rs| - 1];
      Renewed(ls, rs[..|rs| - 1], now)[r.name := Lease(r.owner, now + r.ttl)]
  }

  function ReleaseLease(ls: map<LeaseName, Lease>, name: LeaseName, owner: Owner): map<LeaseName, Lease> {
    if Owns(ls, name, owner) then ls - {name} else ls
  }

  // ------------------------------------------------------------------ id reservations

  function Unexpired(hs: map<PaperId, Hold>, now: Time): map<PaperId, Hold> {
    map id | id in hs && hs[id].expires > now :: hs[id]
  }

  predicate HeldByOther(hs: map<PaperId, Hold>, ids: set<PaperId>, owner: Owner) {
    exists id :: id in ids && id in hs && hs[id].owner != owner
  }

  predicate HoldsAll(hs: map<PaperId, Hold>, ids: set<PaperId>, owner: Owner) {
    forall id :: id in ids ==> id in hs && hs[id].owner == owner
  }

  function Held(hs: map<PaperId, Hold>, ids: set<PaperId>, owner: Owner, request: RequestId, until: Time): map<PaperId, Hold> {
    hs + map id | id in ids :: Hold(owner, request, until)
  }

  /** acquire_id_fetch_reservations: all ids or none, after dropping what has expired. */
  function AcquireHolds(hs: map<PaperId, Hold>, ids: set<PaperId>, owner: Owner, request: RequestId, ttl: Time, now: Time)
    : (map<PaperId, Hold>, bool)
  {
    if ids == {} then (hs, true)
    else if HeldByOther(Unexpired(hs, now), ids, owner) then (Unexpired(hs, now), false)
    else (Held(Unexpired(hs, now), ids, owner, request, now + ttl), true)
  }

  function Extended(hs: map<PaperId, Hold>, ids: set<PaperId>, until: Time): map<PaperId, Hold> {
    map id | id in hs :: if id in ids then hs[id].(expires := until) else hs[id]
  }

  /** renew_id_fetch_reservations: it extends what is owned, expired or not, and never takes back. */
  function RenewHolds(hs: map<PaperId, Hold>, ids: set<PaperId>, owner: Owner, ttl: Time, now: Time): (map<PaperId, Hold>, bool) {
    if HoldsAll(hs, ids, owner) then (Extended(hs, ids, now + ttl), true) else (hs, false)
  }

  function OwnedAmong(hs: map<PaperId, Hold>, ids: set<PaperId>, owner: Owner): set<PaperId> {
    set id | id in ids && id in hs && hs[id].owner == owner
  }

  /** release_id_fetch_reservations: if any of the reservations was still owned, items waiting for any
      of the ids are woken. */
  function ReleaseHolds(t: Tables, ids: set<PaperId>, owner: Owner, now: Time): Tables {
    var mine := OwnedAmong(t.holds, ids, owner);
    if mine == {} then t
    else t.(holds := t.holds - mine, db := Q.Wake(t.db, ids, now))
  }

  // ------------------------------------------------------------------ the fence

  datatype Lost = LostLease | LostClaim | LostIds

  /** renew_worker_fetch_ownership: the lease, the claim and the reservations are checked and extended
      in one transaction. */
  function Fence(t: Tables, r: RequestId, owner: Owner, name: LeaseName, ttl: Time, ids: set<PaperId>, now: Time)
    : (Tables, Option<Lost>)
  {
    if !Owns(t.leases, name, owner) then (t, Some(LostLease))
    else if !Q.HoldsClaim(t.db, r, owner) then (t, Some(LostClaim))
    else if !HoldsAll(t.holds, ids, owner) then (t, Some(LostIds))
    else (Tables(Q.RenewClaim(t.db, r, owner, ttl, now),
                 t.leases[name := Lease(owner, now + ttl)],
                 Extended(t.holds, ids, now + ttl)), None)
  }

  // ------------------------------------------------------------------ runs of other actors

  /** What an actor may do to the coordination tables; `QueueWrite` is any other queue transaction. */
  datatype Step =
    | TakeLease(name: LeaseName, ttl: Time)
    | RenewLeases(renewals: seq<(LeaseName, Time)>)
    | DropLease(name: LeaseName)
    | TakeHolds(ids: set<PaperId>, request: RequestId, ttl: Time)
    | KeepHolds(ids: set<PaperId>, ttl: Time)
    | DropHolds(ids: set<PaperId>)
    | PassFence(request: RequestId, name: LeaseName, ttl: Time, ids: set<PaperId>)
    | QueueWrite(db: Q.Db)

  datatype Act = Act(actor: Owner, now: Time, step: Step)

  function Renewals(actor: Owner, rs: seq<(LeaseName, Time)>): seq<Renewal> {
    seq(|rs|, i requires 0 <= i < |rs| => Renewal(rs[i].0, actor, rs[i].1))
  }

  function Next(t: Tables, a: Act): Tables {
    match a.step
    case TakeLease(name, ttl) => t.(leases := Acquire(t.leases, name, a.actor, ttl, a.now).0)
    case RenewLeases(rs) =>
      (match RenewIfOwned(t.leases, Renewals(a.actor, rs), a.now)
       case None => t
       case Some(p) => t.(leases := p.0))
    case DropLease(name) => t.(leases := ReleaseLease(t.leases, name, a.actor))
    case TakeHolds(ids, r, ttl) => t.(holds := AcquireHolds(t.holds, ids, a.actor, r, ttl, a.now).0)
    case KeepHolds(ids, ttl) => t.(holds := RenewHolds(t.holds, ids, a.actor, ttl, a.now).0)
    case DropHolds(ids) => ReleaseHolds(t, ids, a.actor, a.now)
    case PassFence(r, name, ttl, ids) => Fence(t, r, a.actor, name, ttl, ids, a.now).0
    case QueueWrite(db) => t.(db := db)
  }

  function Run(t: Tables, acts: seq<Act>): Tables
    decreases |acts|
  {
    if acts == [] then t else Run(Next(t, acts[0]), acts[1..])
  }

  /** The owner's lease and reservations stand until `until`. */
  predicate Stands(t: Tables, owner: Owner, name: LeaseName, ids: set<PaperId>, until: Time) {
    && name in t.leases && t.leases[name] == Lease(owner, until)
    && forall id :: id in ids ==> id in t.holds && t.holds[id].owner == owner && t.holds[id].expires == until
  }

  lemma {:induction false} OthersKeepRenewed(ls: map<LeaseName, Lease>, rs: seq<Renewal>, now: Time, name: LeaseName)
    requires forall i :: 0 <= i < |rs| ==> rs[i].name != name
    ensures name in Renewed(ls, rs, now) <==> name in ls
    ensures name in ls ==> Renewed(ls, rs, now)[name] == ls[name]
    decreases |rs|
  {
    if rs != [] {
      OthersKeepRenewed(ls, rs[..|rs| - 1], now, name);
    }
  }

  lemma StepKeepsStanding(t: Tables, a: Act, owner: Owner, name: LeaseName, ids: set<PaperId>, until: Time)
    requires Stands(t, owner, name, ids, until) && a.actor != owner && a.now < until
    ensures Stands(Next(t, a), owner, name, ids, until)
  {
    if a.step.RenewLeases? {
      var rs := Renewals(a.actor, a.step.renewals);
      if RenewIfOwned(t.leases, rs, a.now).Some? && RenewIfOwned(t.leases, rs, a.now).value.1 {
        forall i | 0 <= i < |rs| ensures rs[i].name != name {
          assert Owns(t.leases, rs[i].name, rs[i].owner);
        }
        OthersKeepRenewed(t.leases, rs, a.now, name);
      }
    }
  }

  /** Others acting before the time-to-live is over, in any order. */
  predicate OthersBefore(acts: seq<Act>, owner: Owner, until: Time) {
    forall i :: 0 <= i < |acts| ==> acts[i].actor != owner && acts[i].now < until
  }

  lemma {:induction false} OthersKeepStanding(t: Tables, acts: seq<Act>, owner: Owner, name: LeaseName, ids: set<PaperId>, until: Time)
    requires Stands(t, owner, name, ids, until) && OthersBefore(acts, owner, until)
    ensures Stands(Run(t, acts), owner, name, ids, until)
    decreases |acts|
  {
    if acts != [] {
      StepKeepsStanding(t, acts[0], owner, name, ids, until);
      OthersKeepStanding(Next(t, acts[0]), acts[1..], owner, name, ids, until);
    }
  }

  /** After a worker passed the fence at `t0`, whatever others do in the meantime, before `t0 + ttl` no
      other owner can take the lease, pass the fence of the same lease, or reserve any of its ids. */
  lemma FenceExcludesOthers(t: Tables, r: RequestId, owner: Owner, name: LeaseName, ttl: Time, ids: set<PaperId>, t0: Time,
                            acts: seq<Act>, other: Owner, now: Time)
    requires Fence(t, r, owner, name, ttl, ids, t0).1.None?
    requires OthersBefore(acts, owner, t0 + ttl) && other != owner && now < t0 + ttl
    ensures var t' := Run(Fence(t, r, owner, name, ttl, ids, t0).0, acts);
      && (forall d :: !Acquire(t'.leases, name, other, d, now).1)
      && (forall q, d, js :: Fence(t', q, other, name, d, js, now) == (t', Some(LostLease)))
      && (forall q, d, js :: js * ids != {} ==> !AcquireHolds(t'.holds, js, other, q, d, now).1)
      && (forall d, js :: js * ids != {} ==> !RenewHolds(t'.holds, js, other, d, now).1)
  {
    OthersKeepStanding(Fence(t, r, owner, name, ttl, ids, t0).0, acts, owner, name, ids, t0 + ttl);
    var t' := Run(Fence(t, r, owner, name, ttl, ids, t0).0, acts);
    forall js: set<PaperId> | js * ids != {}
      ensures HeldByOther(Unexpired(t'.holds, now), js, other) && !HoldsAll(t'.holds, js, other)
    {
      var id :| id in js * ids;
      assert id in Unexpired(t'.holds, now);
    }
  }

  /** A fence that fails changes nothing; one that passes found all three rows owned and leaves them
      owned for the whole time-to-live. */
  lemma FenceIsAllOrNothing(t: Tables, r: RequestId, owner: Owner, name: LeaseName, ttl: Time, ids: set<PaperId>, now: Time)
    ensures var (t', lost) := Fence(t, r, owner, name, ttl, ids, now);
      && (lost.Some? ==> t' == t)
      && (lost.None? <==> Owns(t.leases, name, owner) && Q.HoldsClaim(t.db, r, owner) && HoldsAll(t.holds, ids, owner))
      && (lost.None? ==> Stands(t', owner, name, ids, now + ttl) && Q.HoldsClaim(t'.db, r, owner)
                         && t'.db.items[r].claimedUntil == Some(now + ttl))
  {}

  /** Two owners never both pass the fence of one lease within the time-to-live of the first. */
  lemma FencesExcludeEachOther(t: Tables, r: RequestId, owner: Owner, name: LeaseName, ttl: Time, ids: set<PaperId>, t0: Time,
                               acts: seq<Act>, i: nat)
    requires Fence(t, r, owner, name, ttl, ids, t0).1.None? && OthersBefore(acts, owner, t0 + ttl)
    requires i < |acts| && acts[i].step.PassFence? && acts[i].step.name == name
    ensures var before := Run(Fence(t, r, owner, name, ttl, ids, t0).0, acts[..i]);
      Next(before, acts[i]) == before
  {
    FenceExcludesOthers(t, r, owner, name, ttl, ids, t0, acts[..i], acts[i].actor, acts[i].now);
  }

  // ------------------------------------------------------------------ what is granted

  /** A lease is granted exactly when there is none, it is one's own, or it has expired; granting it changes no other,
      and it then keeps others out until it expires and no longer. */
  lemma LeaseIsGrantedExactly(ls: map<LeaseName, Lease>, name: LeaseName, owner: Owner, ttl: Time, now: Time, other: Owner, later: Time)
    requires other != owner
    ensures var (after, granted) := Acquire(ls, name, owner, ttl, now);
      && (granted <==> name !in ls || ls[name].owner == owner || ls[name].expires <= now)
      && (!granted ==> after == ls)
      && (granted ==> name in after && after == ls[name := after[name]] && Owns(after, name, owner))
      && (granted ==> (Acquire(after, name, other, ttl, later).1 <==> later >= now + ttl))
  {}

  /** Ids are reserved, all together, exactly when no other owner has an unexpired reservation of one of them. What has
      expired is dropped, and no other reservation moves. */
  lemma IdsAreReservedExactly(hs: map<PaperId, Hold>, ids: set<PaperId>, owner: Owner, request: RequestId, ttl: Time, now: Time)
    ensures AcquireHolds(hs, {}, owner, request, ttl, now) == (hs, true)
    ensures var (after, granted) := AcquireHolds(hs, ids, owner, request, ttl, now);
      ids != {} ==>
      && (granted <==> forall id :: id in ids && id in hs && hs[id].expires > now ==> hs[id].owner == owner)
      && (forall id :: id in after && (!granted || id !in ids) <==> id in hs && hs[id].expires > now && (!granted || id !in ids))
      && (forall id :: id in after && (!granted || id !in ids) ==> after[id] == hs[id])
      && (granted ==> forall id :: id in ids ==> id in after && after[id] == Hold(owner, request, now + ttl))
  {
    var unexpired := Unexpired(hs, now);
    assert forall id :: id in unexpired <==> id in hs && hs[id].expires > now;
  }

  /** Reservations are extended, all together, exactly when all are one's own, expired or not; no other moves. */
  lemma OwnHoldsAreExtended(hs: map<PaperId, Hold>, ids: set<PaperId>, owner: Owner, ttl: Time, now: Time)
    ensures var (after, renewed) := RenewHolds(hs, ids, owner, ttl, now);
      && (renewed <==> forall id :: id in ids ==> id in hs && hs[id].owner == owner)
      && after.Keys == hs.Keys
      && (forall id :: id in hs ==>
            after[id] == if renewed && id in ids then Hold(owner, hs[id].request, now + ttl) else hs[id])
  {}

  /** Giving reservations back drops one's own among the ids, and nobody else's. If there are any, the items that wait
      for the ids are woken. */
  lemma OnlyOwnAreReleased(t: Tables, ids: set<PaperId>, owner: Owner, now: Time)
    ensures var after := ReleaseHolds(t, ids, owner, now).holds;
      && (forall id :: id in after <==> id in t.holds && !(id in ids && t.holds[id].owner == owner))
      && (forall id :: id in after ==> after[id] == t.holds[id])
    ensures ReleaseHolds(t, ids, owner, now).leases == t.leases
    ensures ReleaseHolds(t, ids, owner, now).db ==
              if exists id :: id in ids && id in t.holds && t.holds[id].owner == owner then Q.Wake(t.db, ids, now) else t.db
  {
    assert forall id :: id in OwnedAmong(t.holds, ids, owner) <==> id in ids && id in t.holds && t.holds[id].owner == owner;
  }

  lemma {:induction false} RenewedExtends(ls: map<LeaseName, Lease>, rs: seq<Renewal>, now: Time, k: nat)
    requires k < |rs| && forall i, j :: 0 <= i < j < |rs| ==> rs[i].name != rs[j].name
    ensures var after := Renewed(ls, rs, now);
            rs[k].name in after && after[rs[k].name] == Lease(rs[k].owner, now + rs[k].ttl)
    decreases |rs|
  {
    if k < |rs| - 1 {
      RenewedExtends(ls, rs[..|rs| - 1], now, k);
      assert rs[k].name != rs[|rs| - 1].name;
    }
  }

  /** Several leases are extended together, exactly when their names differ and all are one's own; no other moves. */
  lemma RenewalIsAllOrNone(ls: map<LeaseName, Lease>, rs: seq<Renewal>, now: Time)
    ensures match RenewIfOwned(ls, rs, now)
            case None => exists i, j :: 0 <= i < j < |rs| && rs[i].name == rs[j].name
            case Some((after, renewed)) =>
              && (forall i, j :: 0 <= i < j < |rs| ==> rs[i].name != rs[j].name)
              && (renewed <==> forall i :: 0 <= i < |rs| ==> rs[i].name in ls && ls[rs[i].name].owner == rs[i].owner)
              && (!renewed ==> after == ls)
              && (renewed ==> forall i :: 0 <= i < |rs| ==>
                    rs[i].name in after && after[rs[i].name] == Lease(rs[i].owner, now + rs[i].ttl))
              && (forall name :: (forall i :: 0 <= i < |rs| ==> rs[i].name != name) ==>
                    (name in after <==> name in ls) && (name in ls ==> after[name] == ls[name]))
  {
    if !(exists i, j :: 0 <= i < j < |rs| && rs[i].name == rs[j].name) {
      forall k: nat | k < |rs| ensures rs[k].name in Renewed(ls, rs, now)
                                       && Renewed(ls, rs, now)[rs[k].name] == Lease(rs[k].owner, now + rs[k].ttl) {
        RenewedExtends(ls, rs, now, k);
      }
      forall name | forall i :: 0 <= i < |rs| ==> rs[i].name != name
        ensures (name in Renewed(ls, rs, now) <==> name in ls) && (name in ls ==> Renewed(ls, rs, now)[name] == ls[name]) {
        OthersKeepRenewed(ls, rs, now, name);
      }
    }
  }

  /** Giving a lease back frees it for anyone at once, if it is still one's own, and touches nobody else's. */
  lemma OwnLeaseIsGivenBack(ls: map<LeaseName, Lease>, name: LeaseName, owner: Owner, other: Owner, ttl: Time, now: Time)
    ensures var after := ReleaseLease(ls, name, owner);
            && (forall l :: l in after <==> l in ls && !(l == name && ls[l].owner == owner))
            && (forall l :: l in after ==> after[l] == ls[l])
            && (name in ls && ls[name].owner == owner ==> Acquire(after, name, other, ttl, now).1)
  {
  }
}
