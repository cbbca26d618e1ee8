/** The paper, cache and OAI record tables as the store updates and reads them, each method proved against the
    functions that the theorems about papers, cache entries and harvests speak of. */
module PaperStore {
  import opened Common
  import opened Papers
  import C = Cache
  import H = Harvest

  class Store {
    var rows: PaperRows
    var entries: map<CacheKey, C.Entry>
    var records: map<nat, H.Record>

    function Cached(): C.Store
      reads `rows, `entries
    {
      C.Store(rows, entries)
    }

    constructor ()
      ensures rows == map[] && entries == map[] && records == map[]
    {
      rows, entries, records := map[], map[], map[];
    }

    // ---------------------------------------------------------------- papers

    /** _upsert_paper_conn, after _legacy_paper_for_existing_oai_base_row. */
    method UpsertPaper(paper: Paper) returns (id: PaperId)
      modifies `rows
      ensures (rows, id) == Upsert(old(rows), paper)
    {
      var p := paper;
      if p.oaiId.None? && p.id.version.Some? {
        var base := PaperId(p.id.family, None);
        var family := Family(rows, p.id);
        var unversioned := forall x :: x in family ==> x.version.None?;
        assert unversioned <==> Versioned(rows, p.id) == {} by {
          assert forall x :: x in Versioned(rows, p.id) <==> x in family && x.version.Some?;
        }
        if base in family && unversioned && rows[base].oaiId.Some? {
          p := p.(id := base, version := None);
        }
      }
      assert p == LegacyAlias(rows, paper);
      if p.id in rows {
        var held := rows[p.id];
        if p.oaiId.None? {
          p := p.(oaiId := held.oaiId, oaiStamp := held.oaiStamp, oaiSets := held.oaiSets, deleted := held.deleted);
        }
      }
      rows := rows[p.id := p];
      return p.id;
    }

    /** _upsert_paper_conn of _oai_paper_for_existing_version_family. */
    method UpsertOaiPaper(paper: Paper)
      modifies `rows
      ensures rows == OaiUpsert(old(rows), paper)
    {
      var p, family := paper, Family(rows, paper.id);
      if family != {} && paper.id !in family {
        var target := FindBest(family);
        p := p.(id := target, version := if target.version.Some? then target.version else p.version);
      }
      assert p == OaiAlias(rows, paper);
      var id := UpsertPaper(p);
    }

    /** _upsert_oai_records_conn: the counts of records, of papers upserted and of deletions. */
    method UpsertOaiRecords(rs: seq<H.Record>) returns (processed: nat, upserted: nat, deleted: nat)
      modifies `rows, `records
      ensures H.World(rows, records) == H.ApplyRecords(H.World(old(rows), old(records)), rs)
      ensures processed == |rs| && upserted == H.Upserted(rs) && deleted == H.Deleted(rs)
    {
      upserted, deleted := 0, 0;
      for k := 0 to |rs|
        invariant H.World(rows, records) == H.ApplyRecords(H.World(old(rows), old(records)), rs[..k])
        invariant upserted == H.Upserted(rs[..k]) && deleted == H.Deleted(rs[..k])
      {
        assert rs[..k + 1][..k] == rs[..k];
        var r := rs[k];
        if r.paper.Some? && !r.deleted {
          UpsertOaiPaper(r.paper.value);
          upserted := upserted + 1;
        }
        records := records[r.oaiId := r];
        if r.deleted {
          deleted := deleted + 1;
          if r.paperId.Some? {
            MarkFamilyDeleted(r.paperId.value, r.oaiId, r.stamp, r.sets);
          }
        }
      }
      assert rs[..|rs|] == rs;
      processed := |rs|;
    }

    method MarkFamilyDeleted(id: PaperId, oaiId: nat, stamp: Option<int>, sets: nat)
      modifies `rows
      ensures rows == Tombstone(old(rows), id, oaiId, stamp, sets)
    {
      var family := Family(rows, id);
      rows := map x | x in rows ::
        if x in family
        then rows[x].(deleted := true, oaiId := Some(oaiId), oaiStamp := if stamp.Some? then stamp else rows[x].oaiStamp,
                      oaiSets := sets)
        else rows[x];
    }

    /** _oai_base_paper_row_for_versioned_read. */
    method OaiBaseRow(id: PaperId) returns (row: Option<Paper>)
      ensures row == if id.version.Some? && Base(id) in rows && rows[Base(id)].oaiId.Some? then Some(rows[Base(id)]) else None
    {
      if id.version.None? {
        return None;
      }
      var base := PaperId(id.family, None);
      return if base in rows && rows[base].oaiId.Some? then Some(rows[base]) else None;
    }

    /** _latest_versioned_paper_row_for_base_read. */
    method LatestVersionedRow(id: PaperId) returns (row: Option<Paper>)
      ensures row == if id.version.Some? || Versioned(rows, id) == {} then None else Some(rows[Best(Versioned(rows, id))])
    {
      var matching := Versioned(rows, id);
      if id.version.Some? || matching == {} {
        return None;
      }
      var latest := FindBest(matching);
      return Some(rows[latest]);
    }

    /** get_paper. */
    method GetPaper(id: PaperId) returns (paper: Option<Paper>)
      ensures paper == Get(rows, id)
    {
      if id in rows {
        return Some(rows[id]);
      }
      paper := OaiBaseRow(id);
      if paper.None? {
        paper := LatestVersionedRow(id);
      }
    }

    /** get_papers_by_ids: one query finds the rows that have a requested id; each other id is then looked for
        under its two aliases. For each id that is what a single lookup finds. */
    method GetPapersByIds(ids: seq<PaperId>) returns (found: map<PaperId, Paper>)
      ensures forall id :: id in found <==> id in ids && Get(rows, id).Some?
      ensures forall id :: id in found ==> Some(found[id]) == Get(rows, id)
    {
      found := map[];
      if ids == [] {
        return;
      }
      var requested := DistinctIds(ids);
      var rowsById := map id | id in requested && id in rows :: rows[id];
      for k := 0 to |requested|
        invariant forall id :: id in found <==> id in requested[..k] && Get(rows, id).Some?
        invariant forall id :: id in found ==> Some(found[id]) == Get(rows, id)
      {
        var id := requested[k];
        assert id in requested && requested[..k + 1] == requested[..k] + [id];
        var row := if id in rowsById then Some(rowsById[id]) else None;
        if row.None? {
          row := OaiBaseRow(id);
        }
        if row.None? {
          row := LatestVersionedRow(id);
        }
        if row.Some? {
          found := found[id := row.value];
        }
      }
      assert requested[..|requested|] == requested;
    }

    /** mark_paper_deleted. */
    method MarkPaperDeleted(id: PaperId, oaiId: Option<nat>, stamp: Option<int>, sets: nat)
      modifies `rows
      ensures rows == MarkDeleted(old(rows), id, oaiId, stamp, sets)
    {
      if id in rows {
        var p := rows[id].(deleted := true, oaiSets := sets);
        if oaiId.Some? {
          p := p.(oaiId := oaiId);
        }
        if stamp.Some? {
          p := p.(oaiStamp := stamp);
        }
        rows := rows[id := p];
      }
    }

    // ---------------------------------------------------------------- cache entries

    /** record_completed_cache_entry. */
    method RecordCompletedCacheEntry(key: CacheKey, papers: seq<Paper>, total: Option<nat>, requests: nat,
                                     requestedAt: Time, completedAt: Time, interval: Time)
      modifies `rows, `entries
      ensures Cached() == C.RecordCompleted(old(Cached()), key, papers, total, requests, requestedAt, completedAt, interval)
    {
      var ids, matched: seq<PaperId> := [], [];
      for k := 0 to |papers|
        invariant (rows, ids) == C.UpsertAll(old(rows), papers[..k])
        invariant matched == C.Dedup(ids)
        invariant entries == old(entries)
      {
        assert papers[..k + 1][..k] == papers[..k];
        var id := UpsertPaper(papers[k]);
        assert (ids + [id])[..|ids|] == ids;
        ids := ids + [id];
        if id !in matched {
          matched := matched + [id];
        }
      }
      assert papers[..|papers|] == papers;
      var upstreamTotal := if key in entries then entries[key].upstreamTotal + requests else requests;
      var matches: map<PaperId, nat> := map[];
      for position := 0 to |matched|
        invariant matches == C.PositionsOf(matched[..position])
      {
        assert matched[..position + 1][..position] == matched[..position];
        matches := matches[matched[position] := position];
      }
      assert matched[..|matched|] == matched;
      entries := entries[key := C.Entry(
        C.EntryCompleted, requestedAt, Some(completedAt), Some(completedAt + interval), None, upstreamTotal,
        |matched|, total, None, matches)];
    }

    /** record_cache_failure. */
    method RecordCacheFailure(key: CacheKey, status: C.EntryStatus, failure: nat, cooldown: Option<Time>,
                              requests: nat, requestedAt: Time)
      modifies `entries
      ensures Cached() == C.RecordFailure(old(Cached()), key, status, failure, cooldown, requests, requestedAt)
    {
      if key !in entries {
        entries := entries[key := C.Entry(status, requestedAt, None, None, cooldown, requests, 0, None, Some(failure), map[])];
        return;
      }
      var held := entries[key];
      entries := entries[key := held.(
        status := if held.status.EntryCompleted? then C.EntryCompleted else status, requestedAt := requestedAt,
        cooldownUntil := cooldown, upstreamTotal := held.upstreamTotal + requests, failure := Some(failure))];
    }

    /** _completed_cache_integrity_failure: the positions, in order, are compared with 0, 1, 2, ... */
    method CompletedCacheIntegrityFailure(entry: C.Entry) returns (damage: Option<C.Damage>)
      ensures damage == C.IntegrityFailure(rows, entry)
    {
      if |entry.matches| != entry.resultCount {
        return Some(C.MatchCountMismatch);
      }
      var joined := set id | id in entry.matches && id in rows;
      if |joined| != entry.resultCount {
        return Some(C.PaperJoinMismatch);
      }
      var ids := OrderedMatches(entry.matches, entry.matches.Keys);
      SortedIsRange(entry.matches, ids);
      if exists i :: 0 <= i < |ids| && entry.matches[ids[i]] != i {
        return Some(C.SortPositionGap);
      }
      return None;
    }

    /** get_cached_papers. */
    method GetCachedPapers(key: CacheKey) returns (papers: seq<Paper>)
      requires WellKeyed(rows)
      ensures forall p :: p in papers ==> p.id in rows && p == rows[p.id]
      ensures if key in entries then C.ReadsAs(Cached(), key, Ids(papers)) else papers == []
    {
      papers := [];
      if key !in entries {
        return;
      }
      var m := entries[key].matches;
      var order := OrderedMatches(m, set id | id in m && id in rows);
      for k := 0 to |order|
        invariant |papers| == k && forall i :: 0 <= i < k ==> order[i] in rows && papers[i] == rows[order[i]]
      {
        assert order[k] in order;
        papers := papers + [rows[order[k]]];
      }
      assert Ids(papers) == order;
    }
  }

  function Ids(papers: seq<Paper>): (ids: seq<PaperId>)
    ensures |ids| == |papers| && forall i :: 0 <= i < |papers| ==> ids[i] == papers[i].id
  {
    seq(|papers|, i requires 0 <= i < |papers| => papers[i].id)
  }

  /** dict.fromkeys. */
  method DistinctIds(ids: seq<PaperId>) returns (distinct: seq<PaperId>)
    ensures distinct == C.Dedup(ids)
    ensures forall id :: id in distinct <==> id in ids
  {
    distinct := [];
    for k := 0 to |ids|
      invariant distinct == C.Dedup(ids[..k])
    {
      assert ids[..k + 1][..k] == ids[..k];
      if ids[k] !in distinct {
        distinct := distinct + [ids[k]];
      }
    }
    assert ids[..|ids|] == ids;
    C.DedupKeepsAll(ids);
  }

  /** max over _version_family_merge_preference. */
  method FindBest(ids: set<PaperId>) returns (best: PaperId)
    requires ids != {} && forall x, y :: x in ids && y in ids ==> x.family == y.family
    ensures best == Best(ids)
  {
    best :| best in ids;
    var todo := ids - {best};
    while todo != {}
      invariant todo <= ids && best in ids - todo
      invariant forall y :: y in ids && y !in todo ==> AtLeast(best, y)
    {
      var x :| x in todo;
      todo := todo - {x};
      if !AtLeast(best, x) {
        best := x;
      }
    }
    assert IsBest(ids, best);
    BestIsUnique(ids, best, Best(ids));
  }

  ghost predicate Ordered(m: map<PaperId, nat>, ids: seq<PaperId>, chosen: set<PaperId>) {
    && (forall id :: id in ids <==> id in chosen)
    && chosen <= m.Keys
    && (forall i, j :: 0 <= i < j < |ids| ==> ids[i] != ids[j] && m[ids[i]] <= m[ids[j]])
  }

  /** ORDER BY sort_position, over the matches of an entry. */
  method OrderedMatches(m: map<PaperId, nat>, chosen: set<PaperId>) returns (ids: seq<PaperId>)
    requires chosen <= m.Keys
    ensures Ordered(m, ids, chosen) && |ids| == |chosen|
  {
    ids := [];
    var todo := chosen;
    while todo != {}
      invariant todo <= chosen && Ordered(m, ids, chosen - todo) && |ids| + |todo| == |chosen|
      invariant forall i, x :: 0 <= i < |ids| && x in todo ==> m[ids[i]] <= m[x]
    {
      var next := First(m, todo);
      assert forall id :: id in ids + [next] <==> id in chosen - (todo - {next});
      todo := todo - {next};
      ids := ids + [next];
    }
    assert chosen - todo == chosen;
  }

  method First(m: map<PaperId, nat>, ids: set<PaperId>) returns (first: PaperId)
    requires ids != {} && ids <= m.Keys
    ensures first in ids && forall x :: x in ids ==> m[first] <= m[x]
  {
    first :| first in ids;
    var todo := ids - {first};
    while todo != {}
      invariant todo <= ids && first in ids
      invariant forall x :: x in ids && x !in todo ==> m[first] <= m[x]
    {
      var x :| x in todo;
      todo := todo - {x};
      if m[x] < m[first] {
        first := x;
      }
    }
  }

  // ------------------------------------------------------------------ sorted positions

  lemma {:induction false} FewInSeq(xs: seq<nat>, n: nat, lo: nat)
    requires forall p: nat :: lo <= p < lo + n ==> p in xs
    ensures n <= |xs|
    decreases n
  {
    if n > 0 {
      assert lo in xs;
      var i :| 0 <= i < |xs| && xs[i] == lo;
      var rest := xs[..i] + xs[i + 1..];
      forall p: nat | lo + 1 <= p < lo + 1 + (n - 1) ensures p in rest {
        assert p in xs;
        var j :| 0 <= j < |xs| && xs[j] == p;
        assert p == if j < i then rest[j] else rest[j - 1];
      }
      FewInSeq(rest, n - 1, lo + 1);
    }
  }

  /** A sorted list of n numbers is 0, 1, ..., n - 1 when all of these occur in it. */
  lemma CoveringIsRange(ps: seq<nat>, i: nat)
    requires (forall a, b :: 0 <= a < b < |ps| ==> ps[a] <= ps[b]) && i < |ps|
    requires forall p: nat :: p < |ps| ==> p in ps
    ensures ps[i] == i
  {
    if ps[i] > i {
      forall p: nat | 0 <= p < 0 + (i + 1) ensures p in ps[..i] {
        assert p in ps;
        var j :| 0 <= j < |ps| && ps[j] == p;
        assert ps[..i][j] == p;
      }
      FewInSeq(ps[..i], i + 1, 0);
    }
    if ps[i] < i {
      var n, tail := |ps| - i, ps[i + 1..];
      forall p: nat | i <= p < i + n ensures p in tail {
        assert p in ps;
        var j :| 0 <= j < |ps| && ps[j] == p;
        assert tail[j - i - 1] == p;
      }
      FewInSeq(tail, n, i);
    }
  }

  /** The positions of an entry, sorted, are a range exactly when none is missing. */
  lemma SortedIsRange(m: map<PaperId, nat>, ids: seq<PaperId>)
    requires Ordered(m, ids, m.Keys) && |ids| == |m|
    ensures (forall i :: 0 <= i < |ids| ==> m[ids[i]] == i) <==> forall p: nat :: p < |m| ==> p in m.Values
  {
    var ps := seq(|ids|, i requires 0 <= i < |ids| => m[ids[i]]);
    if forall p: nat :: p < |m| ==> p in m.Values {
      forall p: nat | p < |ps| ensures p in ps {
        assert p in m.Values;
        var id :| id in m && m[id] == p;
        var i :| 0 <= i < |ids| && ids[i] == id;
        assert ps[i] == p;
      }
      forall i | 0 <= i < |ids| ensures m[ids[i]] == i {
        CoveringIsRange(ps, i);
        assert ps[i] == m[ids[i]];
      }
    }
    if forall i :: 0 <= i < |ids| ==> m[ids[i]] == i {
      forall p: nat | p < |m| ensures p in m.Values {
        assert ids[p] in m && m[ids[p]] == p;
      }
    }
  }
}
