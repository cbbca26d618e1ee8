/** Requests for explicit ids: which of them a worker fetches, and the answer it composes from papers that were
    there and papers that came. */
module IdLists {
  import opened Common
  import opened Papers
  import C = Cache
  import L = Leases
  import QueueStore
  import PaperStore

  /** _IdListFetchPlan. `fetch` holds the ids of the reduced request. */
  datatype Plan = Plan(
    requested: seq<PaperId>, fetch: Option<seq<PaperId>>, reserved: seq<PaperId>, papers: map<PaperId, Paper>,
    blockedUntil: Option<Time>)

  /** The ids that have no paper, in order. */
  function Missing(ids: seq<PaperId>, papers: map<PaperId, Paper>): (missing: seq<PaperId>)
    ensures forall id :: id in missing <==> id in ids && id !in papers
    ensures C.Distinct(ids) ==> C.Distinct(missing)
    decreases |ids|
  {
    if ids == [] then []
    else
      var before := Missing(ids[..|ids| - 1], papers);
      var last := ids[|ids| - 1];
      assert ids == ids[..|ids| - 1] + [last];
      if last in papers then before else before + [last]
  }

  /** The missing ids stand in the order of the list, at ascending places. */
  lemma {:induction false} MissingInOrder(ids: seq<PaperId>, papers: map<PaperId, Paper>) returns (places: seq<nat>)
    ensures C.Ascend(places, Missing(ids, papers), ids)
    decreases |ids|
  {
    places := [];
    if ids != [] {
      var init, last := ids[..|ids| - 1], ids[|ids| - 1];
      places := MissingInOrder(init, papers);
      C.AscendMore(places, Missing(init, papers), init, last);
      assert init + [last] == ids;
      places := if last in papers then places else places + [|init|];
    }
  }

  function SetOf(ids: seq<PaperId>): set<PaperId> { set id | id in ids }

  ghost predicate Reads(papers: map<PaperId, Paper>, rows: PaperRows, ids: seq<PaperId>) {
    && (forall id :: id in papers <==> id in ids && Get(rows, id).Some?)
    && (forall id :: id in papers ==> Some(papers[id]) == Get(rows, id))
  }

  predicate HoldsUntil(holds: map<PaperId, L.Hold>, ids: seq<PaperId>, owner: Owner, until: Time) {
    forall id :: id in ids ==> id in holds && holds[id].owner == owner && holds[id].expires == until
  }

  /** What a plan says of the papers that were read: everything is there, or somebody else is fetching some of it, or
      exactly the missing ids are to be fetched and their reservations are the worker's own. */
  ghost predicate PlanOk(plan: Plan, holds: map<PaperId, L.Hold>, owner: Owner, until: Time) {
    && (plan.fetch.None? && plan.blockedUntil.None? <==> Missing(plan.requested, plan.papers) == [])
    && (plan.fetch.Some? ==>
        && plan.blockedUntil.None?
        && plan.fetch.value == plan.reserved
        && SetOf(plan.reserved) == SetOf(Missing(plan.requested, plan.papers))
        && HoldsUntil(holds, plan.reserved, owner, until))
  }

  // Planning and revalidating are several transactions. Each is a method of its own that assumes nothing about what
  // the one before it left in the tables, so that others may act in between.

  /** The read of _plan_id_list_fetch, for a request that asks for nothing but ids. */
  method ReadRequested(store: PaperStore.Store, idList: seq<PaperId>)
    returns (requested: seq<PaperId>, papers: map<PaperId, Paper>)
    ensures requested == C.Dedup(idList) && Reads(papers, store.rows, requested)
  {
    requested := PaperStore.DistinctIds(idList);
    papers := store.GetPapersByIds(requested);
  }

  /** The rest of _plan_id_list_fetch, whatever the papers read before: the missing ids are reserved, all or none. */
  method PlanIdListFetch(queue: QueueStore.Store, requested: seq<PaperId>, papers: map<PaperId, Paper>, owner: Owner,
                         r: RequestId, ttl: Time, now: Time)
    returns (plan: Plan)
    modifies queue`holds
    ensures plan.requested == requested && plan.papers == papers
    ensures PlanOk(plan, queue.holds, owner, now + ttl)
    ensures plan.blockedUntil.Some? ==>
              exists id :: id in requested && id !in papers && id in queue.holds && queue.holds[id].owner != owner
  {
    var missing := Missing(requested, papers);
    if missing == [] {
      return Plan(requested, None, [], papers, None);
    }
    assert missing[0] in SetOf(missing);
    var acquired, blockedUntil := queue.AcquireIdFetchReservations(SetOf(missing), owner, r, ttl, now);
    if blockedUntil.Some? {
      return Plan(requested, None, [], papers, blockedUntil);
    }
    return Plan(requested, Some(missing), missing, papers, None);
  }

  /** The release of _revalidate_id_list_fetch_plan: reservations of papers that arrived meanwhile are given back. */
  method ReleaseArrived(queue: QueueStore.Store, plan: Plan, papers: map<PaperId, Paper>, owner: Owner, now: Time)
    modifies queue`holds, queue`items
    ensures forall id :: id in plan.reserved && id in papers ==> id !in queue.holds || queue.holds[id].owner != owner
    ensures forall id :: id in queue.holds ==> id in old(queue.holds) && queue.holds[id] == old(queue.holds)[id]
    ensures forall id :: id in old(queue.holds) && !(id in plan.reserved && id in papers) ==> id in queue.holds
  {
    var arrived := set id | id in plan.reserved && id in papers;
    assert forall id :: id in plan.reserved && id in papers ==> id in arrived;
    if arrived != {} {
      ghost var before := queue.Tables();
      queue.ReleaseIdFetchReservations(arrived, owner, now);
      assert forall id :: id in arrived && id in before.holds && before.holds[id].owner == owner ==> id in L.OwnedAmong(before.holds, arrived, owner);
    }
  }

  /** Every id that is missing now was reserved. */
  predicate AllReserved(plan: Plan, papers: map<PaperId, Paper>) {
    forall id :: id in plan.requested && id !in papers ==> id in plan.reserved
  }

  lemma KeptIsMissing(plan: Plan, papers: map<PaperId, Paper>)
    requires forall id :: id in plan.reserved ==> id in plan.requested
    ensures SetOf(Missing(plan.reserved, papers)) == SetOf(Missing(plan.requested, papers)) <==> AllReserved(plan, papers)
  {
    var kept, missing := Missing(plan.reserved, papers), Missing(plan.requested, papers);
    if SetOf(kept) == SetOf(missing) {
      forall id | id in plan.requested && id !in papers ensures id in plan.reserved {
        assert id in SetOf(missing);
      }
    }
  }

  /** The rest of _revalidate_id_list_fetch_plan: what is missing now is fetched if it was reserved and still is;
      ids that went missing without a reservation, and lost reservations, block the fetch. */
  method Revalidate(queue: QueueStore.Store, plan: Plan, papers: map<PaperId, Paper>, owner: Owner, ttl: Time, poll: Time, now: Time)
    returns (next: Plan)
    requires forall id :: id in plan.reserved ==> id in plan.requested
    modifies queue`holds
    ensures if plan.reserved == [] then next == plan && queue.holds == old(queue.holds)
            else next.requested == plan.requested && next.papers == papers && PlanOk(next, queue.holds, owner, now + ttl)
    ensures plan.reserved != [] ==> forall id :: id in next.reserved <==> id in plan.reserved && id !in papers
    ensures plan.reserved != [] ==>
              (next.fetch.Some? <==>
               && Missing(plan.requested, papers) != []
               && AllReserved(plan, papers)
               && L.HoldsAll(old(queue.holds), SetOf(Missing(plan.reserved, papers)), owner))
  {
    if plan.reserved == [] {
      return plan;
    }
    var missing := Missing(plan.requested, papers);
    var kept := Missing(plan.reserved, papers);
    if missing == [] {
      return Plan(plan.requested, None, [], papers, None);
    }
    assert missing[0] in missing;
    assert missing[0] in SetOf(missing);
    KeptIsMissing(plan, papers);
    if SetOf(kept) != SetOf(missing) {
      return Plan(plan.requested, None, kept, papers, Some(now + poll));
    }
    var renewed := queue.RenewIdFetchReservations(SetOf(kept), owner, ttl, now);
    if !renewed {
      return Plan(plan.requested, None, kept, papers, Some(now + poll));
    }
    return Plan(plan.requested, Some(kept), kept, papers, None);
  }

  // ------------------------------------------------------------------ the answer

  /** A paper serves a requested id when it has that id or, for a base id, any id of the family. */
  predicate Serves(p: Paper, id: PaperId) { p.id == id || (id.version.None? && p.id.family == id.family) }

  /** What the lookup table of an answer promises: it has what was there and, under its own id and its base id,
      every paper of `papers`; and what it has serves the id or was there. */
  ghost predicate LookupOk(lookup: map<PaperId, Paper>, cached: map<PaperId, Paper>, papers: seq<Paper>) {
    && (forall id :: id in cached ==> id in lookup)
    && (forall p :: p in papers ==> Placed(lookup, papers, p))
    && (forall id :: id in lookup ==> Justified(lookup, cached, papers, id))
  }

  predicate Placed(lookup: map<PaperId, Paper>, papers: seq<Paper>, p: Paper) {
    p.id in lookup && Base(p.id) in lookup && lookup[p.id].id == p.id && lookup[p.id] in papers
  }

  predicate Justified(lookup: map<PaperId, Paper>, cached: map<PaperId, Paper>, papers: seq<Paper>, id: PaperId)
    requires id in lookup
  {
    (id in cached && lookup[id] == cached[id]) || (lookup[id] in papers && Serves(lookup[id], id))
  }

  /** _add_id_list_paper_lookup. */
  method AddLookup(lookup: map<PaperId, Paper>, p: Paper, ghost cached: map<PaperId, Paper>, ghost papers: seq<Paper>)
    returns (more: map<PaperId, Paper>)
    requires LookupOk(lookup, cached, papers)
    ensures LookupOk(more, cached, papers + [p])
    ensures lookup.Keys + {p.id} <= more.Keys && more[p.id] == p
    ensures forall id :: id in lookup && id != p.id ==> more[id] == lookup[id]
  {
    more := lookup[p.id := p];
    var base := PaperId(p.id.family, None);
    if base != p.id && base !in more {
      more := more[base := p];
    }
    ghost var all := papers + [p];
    forall q | q in all ensures Placed(more, all, q) {
      assert q == p || (q in papers && Placed(lookup, papers, q));
    }
    forall id | id in more ensures Justified(more, cached, all, id) {
      assert id == p.id || id == base || Justified(lookup, cached, papers, id);
    }
  }

  /** The papers of a table under the requested ids, in order. */
  function Values(requested: seq<PaperId>, cached: map<PaperId, Paper>): (papers: seq<Paper>)
    requires forall id :: id in cached ==> id in requested
    ensures forall p :: p in papers <==> p in cached.Values
  {
    ValuesOf(requested, cached)
  }

  function ValuesOf(requested: seq<PaperId>, cached: map<PaperId, Paper>): (papers: seq<Paper>)
    ensures forall p :: p in papers <==> exists id :: id in requested && id in cached && cached[id] == p
    decreases |requested|
  {
    if requested == [] then []
    else
      var last := requested[|requested| - 1];
      assert requested == requested[..|requested| - 1] + [last];
      ValuesOf(requested[..|requested| - 1], cached) + if last in cached then [cached[last]] else []
  }

  /** _id_list_paper_lookup: cached papers under their own ids too, then the fetched ones, which win. */
  method BuildLookup(requested: seq<PaperId>, cached: map<PaperId, Paper>, fetched: seq<Paper>)
    returns (lookup: map<PaperId, Paper>)
    requires forall id :: id in cached ==> id in requested
    ensures LookupOk(lookup, cached, Values(requested, cached) + fetched)
    ensures forall p :: p in fetched ==> Wins(lookup, fetched, p)
  {
    lookup := cached;
    ghost var papers: seq<Paper> := [];
    for k := 0 to |requested|
      invariant papers == ValuesOf(requested[..k], cached)
      invariant LookupOk(lookup, cached, papers)
    {
      assert requested[..k + 1][..k] == requested[..k];
      if requested[k] in cached {
        lookup := AddLookup(lookup, cached[requested[k]], cached, papers);
        papers := papers + [cached[requested[k]]];
      }
    }
    assert requested[..|requested|] == requested;
    lookup := AddFetched(lookup, fetched, cached, papers);
  }

  /** A fetched paper is found under its own id, unless a later one with that id came. */
  ghost predicate Wins(lookup: map<PaperId, Paper>, fetched: seq<Paper>, p: Paper) {
    p.id in lookup && lookup[p.id] in fetched
  }

  method AddFetched(lookup: map<PaperId, Paper>, fetched: seq<Paper>, ghost cached: map<PaperId, Paper>, ghost papers: seq<Paper>)
    returns (more: map<PaperId, Paper>)
    requires LookupOk(lookup, cached, papers)
    ensures LookupOk(more, cached, papers + fetched)
    ensures forall p :: p in fetched ==> Wins(more, fetched, p)
  {
    more := lookup;
    for k := 0 to |fetched|
      invariant LookupOk(more, cached, papers + fetched[..k])
      invariant forall i :: 0 <= i < k ==> Wins(more, fetched, fetched[i])
    {
      assert papers + fetched[..k + 1] == papers + fetched[..k] + [fetched[k]];
      ghost var held := more;
      more := AddLookup(more, fetched[k], cached, papers + fetched[..k]);
      forall i | 0 <= i < k + 1 ensures Wins(more, fetched, fetched[i]) {
        if fetched[i].id != fetched[k].id {
          assert Wins(held, fetched, fetched[i]);
        }
      }
    }
    assert fetched[..|fetched|] == fetched;
  }

  /** Each paper stands where the request first asks for its id, and these places ascend. */
  ghost predicate InOrder(places: seq<nat>, papers: seq<Paper>, requested: seq<PaperId>, lookup: map<PaperId, Paper>, n: nat)
    requires n <= |requested| && forall id :: id in requested ==> id in lookup
  {
    && |places| == |papers|
    && (forall i, j :: 0 <= i < j < |places| ==> places[i] < places[j])
    && (forall i :: 0 <= i < |places| ==> StandsAt(places[i], papers[i], requested, lookup, n))
  }

  predicate StandsAt(at: nat, p: Paper, requested: seq<PaperId>, lookup: map<PaperId, Paper>, n: nat)
    requires n <= |requested| && forall id :: id in requested ==> id in lookup
  {
    at < n && lookup[requested[at]] == p && forall k :: 0 <= k < at ==> lookup[requested[k]].id != p.id
  }

  lemma OneMoreInOrder(places: seq<nat>, papers: seq<Paper>, requested: seq<PaperId>, lookup: map<PaperId, Paper>, k: nat)
    requires k < |requested| && forall id :: id in requested ==> id in lookup
    requires InOrder(places, papers, requested, lookup, k)
    ensures InOrder(places, papers, requested, lookup, k + 1)
    ensures (forall i :: 0 <= i < k ==> lookup[requested[i]].id != lookup[requested[k]].id) ==>
              InOrder(places + [k], papers + [lookup[requested[k]]], requested, lookup, k + 1)
  {
    forall i | 0 <= i < |places| ensures places[i] < k && StandsAt(places[i], papers[i], requested, lookup, k + 1) {
      assert StandsAt(places[i], papers[i], requested, lookup, k);
    }
  }

  /** _ordered_id_list_papers: one paper per paper id, in the order of the request. */
  method OrderedPapers(requested: seq<PaperId>, lookup: map<PaperId, Paper>) returns (papers: seq<Paper>)
    requires forall id :: id in requested ==> id in lookup
    ensures forall i, j :: 0 <= i < j < |papers| ==> papers[i].id != papers[j].id
    ensures forall p :: p in papers ==> exists id :: id in requested && lookup[id] == p
    ensures forall id :: id in requested ==> exists p :: p in papers && p.id == lookup[id].id
    ensures exists places: seq<nat> :: InOrder(places, papers, requested, lookup, |requested|)
  {
    papers := [];
    var seen: set<PaperId> := {};
    ghost var places: seq<nat> := [];
    for k := 0 to |requested|
      invariant seen == set p | p in papers :: p.id
      invariant forall i, j :: 0 <= i < j < |papers| ==> papers[i].id != papers[j].id
      invariant forall p :: p in papers ==> exists id :: id in requested && lookup[id] == p
      invariant forall i :: 0 <= i < k ==> lookup[requested[i]].id in seen
      invariant InOrder(places, papers, requested, lookup, k)
    {
      var paper := lookup[requested[k]];
      if paper.id !in seen {
        assert requested[k] in requested;
        OneMoreInOrder(places, papers, requested, lookup, k);
        places := places + [k];
        seen := seen + {paper.id};
        papers := papers + [paper];
      } else {
        OneMoreInOrder(places, papers, requested, lookup, k);
      }
    }
    forall id | id in requested ensures exists p :: p in papers && p.id == lookup[id].id {
      var i :| 0 <= i < |requested| && requested[i] == id;
      assert lookup[requested[i]].id in seen;
    }
  }

  /** A requested id nobody can answer: it was not there, and no paper serves it. */
  predicate Unanswered(id: PaperId, plan: Plan, fetched: seq<Paper>) {
    && id !in plan.papers
    && (forall p :: p in fetched ==> !Serves(p, id))
    && (forall other :: other in plan.papers ==> !Serves(plan.papers[other], id))
  }

  lemma InLookup(id: PaperId, plan: Plan, fetched: seq<Paper>, lookup: map<PaperId, Paper>)
    requires forall id :: id in plan.papers ==> id in plan.requested
    requires LookupOk(lookup, plan.papers, Values(plan.requested, plan.papers) + fetched)
    ensures id in lookup <==> !Unanswered(id, plan, fetched)
  {
    var papers := Values(plan.requested, plan.papers) + fetched;
    if id in lookup {
      assert Justified(lookup, plan.papers, papers, id);
    } else {
      forall p | p in fetched ensures !Serves(p, id) {
        assert p in papers && Placed(lookup, papers, p);
      }
      forall other | other in plan.papers ensures !Serves(plan.papers[other], id) {
        assert plan.papers[other] in plan.papers.Values;
        assert plan.papers[other] in papers && Placed(lookup, papers, plan.papers[other]);
      }
    }
  }

  /** The answer of a fetched id list, or nothing when upstream omitted a requested id: each paper once, only papers
      that were there or came, and one of its family for every requested id. */
  method ComposeAnswer(plan: Plan, fetched: seq<Paper>) returns (answer: Option<seq<Paper>>)
    requires forall id :: id in plan.papers ==> id in plan.requested && plan.papers[id].id.family == id.family
    ensures answer.None? <==> exists id :: id in plan.requested && Unanswered(id, plan, fetched)
    ensures answer.Some? ==>
              && (forall i, j :: 0 <= i < j < |answer.value| ==> answer.value[i].id != answer.value[j].id)
              && (forall p :: p in answer.value ==> p in fetched || p in plan.papers.Values)
              && (forall id :: id in plan.requested ==> exists p :: p in answer.value && p.id.family == id.family)
  {
    var lookup := BuildLookup(plan.requested, plan.papers, fetched);
    forall id ensures id in lookup <==> !Unanswered(id, plan, fetched) {
      InLookup(id, plan, fetched, lookup);
    }
    if exists id :: id in plan.requested && id !in lookup {
      return None;
    }
    var ordered := OrderedPapers(plan.requested, lookup);
    FamiliesMatch(plan, fetched, lookup);
    return Some(ordered);
  }

  lemma FamiliesMatch(plan: Plan, fetched: seq<Paper>, lookup: map<PaperId, Paper>)
    requires forall id :: id in plan.papers ==> id in plan.requested && plan.papers[id].id.family == id.family
    requires LookupOk(lookup, plan.papers, Values(plan.requested, plan.papers) + fetched)
    ensures forall id :: id in lookup ==> lookup[id].id.family == id.family && (lookup[id] in fetched || lookup[id] in plan.papers.Values)
  {
    forall id | id in lookup
      ensures lookup[id].id.family == id.family && (lookup[id] in fetched || lookup[id] in plan.papers.Values)
    {
      assert Justified(lookup, plan.papers, Values(plan.requested, plan.papers) + fetched, id);
    }
  }
}
