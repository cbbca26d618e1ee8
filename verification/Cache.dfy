/** Cache entries and their matches. A completed entry lists paper rows by position; it must stay
    readable whatever is written later. */
module Cache {
  import opened Common
  import opened Papers

  datatype EntryStatus = EntryCompleted | EntryFailed | EntryRateLimited

  /** A row of cache_entries with its rows of cache_matches, whose primary key is the entry and the
      paper id; the value is the sort position. */
  datatype Entry = Entry(
    status: EntryStatus, requestedAt: Time, completedAt: Option<Time>, refreshAfter: Option<Time>,
    cooldownUntil: Option<Time>, upstreamTotal: nat, resultCount: nat, total: Option<nat>,
    failure: Option<nat>, matches: map<PaperId, nat>)

  datatype Store = Store(rows: PaperRows, entries: map<CacheKey, Entry>)

  // ------------------------------------------------------------------ writing

  /** _upsert_paper_conn over a list: the rows afterwards and the row id of each paper. */
  function UpsertAll(rows: PaperRows, ps: seq<Paper>): (PaperRows, seq<PaperId>)
    decreases |ps|
  {
    if ps == [] then (rows, [])
    else
      var (before, ids) := UpsertAll(rows, ps[..|ps| - 1]);
      var (after, id) := Upsert(before, ps[|ps| - 1]);
      (after, ids + [id])
  }

  /** dict.fromkeys: the first occurrence of each id, in order. */
  function Dedup(ids: seq<PaperId>): seq<PaperId>
    decreases |ids|
  {
    if ids == [] then []
    else
      var before := Dedup(ids[..|ids| - 1]);
      if ids[|ids| - 1] in before then before else before + [ids[|ids| - 1]]
  }

  function PositionsOf(ids: seq<PaperId>): map<PaperId, nat>
    decreases |ids|
  {
    if ids == [] then map[] else PositionsOf(ids[..|ids| - 1])[ids[|ids| - 1] := |ids| - 1]
  }

  function Upstream(s: Store, key: CacheKey): nat {
    if key in s.entries then s.entries[key].upstreamTotal else 0
  }

  /** record_completed_cache_entry. */
  function RecordCompleted(s: Store, key: CacheKey, ps: seq<Paper>, total: Option<nat>, requests: nat,
                           requestedAt: Time, completedAt: Time, interval: Time): Store
  {
    var (rows, ids) := UpsertAll(s.rows, ps);
    var matched := Dedup(ids);
    Store(rows, s.entries[key := Entry(
      EntryCompleted, requestedAt, Some(completedAt), Some(completedAt + interval), None,
      Upstream(s, key) + requests, |matched|, total, None, PositionsOf(matched))])
  }

  /** record_cache_failure: a completed entry keeps its status and its papers. */
  function RecordFailure(s: Store, key: CacheKey, status: EntryStatus, failure: nat, cooldown: Option<Time>,
                         requests: nat, requestedAt: Time): Store
  {
    var total := Upstream(s, key) + requests;
    s.(entries := s.entries[key :=
      if key !in s.entries
      then Entry(status, requestedAt, None, None, cooldown, total, 0, None, Some(failure), map[])
      else
        var held := s.entries[key];
        held.(status := if held.status.EntryCompleted? then EntryCompleted else status,
              requestedAt := requestedAt, cooldownUntil := cooldown, upstreamTotal := total, failure := Some(failure))])
  }

  /** The cache half of enqueue_refresh_if_due, for a key without a pending queue item: whether a
      refresh is due now, and the refresh time stored. */
  function RefreshIfDue(s: Store, key: CacheKey, interval: Time, now: Time): (Store, bool) {
    if key !in s.entries || !s.entries[key].status.EntryCompleted? then (s, false)
    else
      var e := s.entries[key];
      var due :=
        if e.completedAt.None? then e.refreshAfter
        else if e.refreshAfter.None? || e.completedAt.value + interval < e.refreshAfter.value
        then Some(e.completedAt.value + interval)
        else e.refreshAfter;
      if due.Some? && due.value > now then (s.(entries := s.entries[key := e.(refreshAfter := due)]), false)
      else (s.(entries := s.entries[key := e.(refreshAfter := Some(now + interval))]), true)
  }

  // ------------------------------------------------------------------ reading

  datatype Damage = MatchCountMismatch | PaperJoinMismatch | SortPositionGap

  /** _completed_cache_integrity_failure. */
  function IntegrityFailure(rows: PaperRows, e: Entry): Option<Damage> {
    if |e.matches| != e.resultCount then Some(MatchCountMismatch)
    else if |set id | id in e.matches && id in rows| != e.resultCount then Some(PaperJoinMismatch)
    else if exists p :: 0 <= p < e.resultCount && p !in e.matches.Values then Some(SortPositionGap)
    else None
  }

  /** get_readable_completed_cache returns the entry. */
  predicate Readable(s: Store, key: CacheKey) {
    key in s.entries && s.entries[key].status.EntryCompleted? && IntegrityFailure(s.rows, s.entries[key]).None?
  }

  /** What get_cached_papers may return: the matched rows that exist, ordered by position. */
  predicate ReadsAs(s: Store, key: CacheKey, ids: seq<PaperId>) {
    && key in s.entries
    && var m := s.entries[key].matches;
       && (forall i :: 0 <= i < |ids| ==> ids[i] in m && ids[i] in s.rows)
       && (forall i, j :: 0 <= i < j < |ids| ==> ids[i] != ids[j] && m[ids[i]] <= m[ids[j]])
       && (forall id :: id in m && id in s.rows ==> id in ids)
  }

  // ------------------------------------------------------------------ lists

  predicate Distinct(ids: seq<PaperId>) {
    forall i, j :: 0 <= i < j < |ids| ==> ids[i] != ids[j]
  }

  lemma {:induction false} DedupKeepsAll(ids: seq<PaperId>)
    ensures Distinct(Dedup(ids)) && forall id :: id in Dedup(ids) <==> id in ids
    decreases |ids|
  {
    if ids != [] {
      DedupKeepsAll(ids[..|ids| - 1]);
      assert ids == ids[..|ids| - 1] + [ids[|ids| - 1]];
    }
  }

  /** Some ids of a list stand at ascending places of it. */
  ghost predicate Ascend(places: seq<nat>, some: seq<PaperId>, ids: seq<PaperId>) {
    && |places| == |some|
    && (forall i, j :: 0 <= i < j < |places| ==> places[i] < places[j])
    && (forall i :: 0 <= i < |places| ==> places[i] < |ids| && ids[places[i]] == some[i])
  }

  lemma AscendMore(places: seq<nat>, some: seq<PaperId>, ids: seq<PaperId>, last: PaperId)
    requires Ascend(places, some, ids)
    ensures Ascend(places, some, ids + [last]) && Ascend(places + [|ids|], some + [last], ids + [last])
  {
  }

  /** No id stands in the list before its place. */
  predicate First(places: seq<nat>, some: seq<PaperId>, ids: seq<PaperId>) {
    forall i, k :: 0 <= i < |places| && i < |some| && 0 <= k < places[i] && k < |ids| ==> ids[k] != some[i]
  }

  lemma FirstMore(places: seq<nat>, some: seq<PaperId>, ids: seq<PaperId>, last: PaperId)
    requires Ascend(places, some, ids) && First(places, some, ids)
    ensures First(places, some, ids + [last])
    ensures last !in ids ==> First(places + [|ids|], some + [last], ids + [last])
  {
  }

  /** Without repetitions a list keeps its order: each id stands where it came first. */
  lemma {:induction false} DedupKeepsFirst(ids: seq<PaperId>) returns (places: seq<nat>)
    ensures Ascend(places, Dedup(ids), ids) && First(places, Dedup(ids), ids)
    decreases |ids|
  {
    places := [];
    if ids != [] {
      var init, last := ids[..|ids| - 1], ids[|ids| - 1];
      places := DedupKeepsFirst(init);
      DedupKeepsAll(init);
      AscendMore(places, Dedup(init), init, last);
      FirstMore(places, Dedup(init), init, last);
      assert init + [last] == ids;
      places := if last in Dedup(init) then places else places + [|init|];
    }
  }

  lemma {:induction false} PositionsAreIndices(ids: seq<PaperId>)
    requires Distinct(ids)
    ensures var m := PositionsOf(ids);
      && |m| == |ids|
      && (forall i :: 0 <= i < |ids| ==> ids[i] in m && m[ids[i]] == i)
      && (forall id :: id in m ==> id in ids)
    decreases |ids|
  {
    if ids != [] {
      var init := ids[..|ids| - 1];
      PositionsAreIndices(init);
      assert forall i :: 0 <= i < |init| ==> init[i] == ids[i];
      assert ids[|ids| - 1] !in init;
      assert ids == init + [ids[|ids| - 1]];
    }
  }

  lemma {:induction false} UpsertAllRows(rows: PaperRows, ps: seq<Paper>)
    requires WellKeyed(rows)
    ensures var (after, ids) := UpsertAll(rows, ps);
      && WellKeyed(after) && rows.Keys <= after.Keys && |ids| == |ps| && forall id :: id in ids ==> id in after
    decreases |ps|
  {
    if ps != [] {
      UpsertAllRows(rows, ps[..|ps| - 1]);
    }
  }

  /** Of several papers merged into one row, the row shows the last. */
  lemma {:induction false} LastPaperShows(rows: PaperRows, ps: seq<Paper>, j: nat)
    requires WellKeyed(rows) && j < |ps|
    requires |UpsertAll(rows, ps).1| == |ps|
    requires forall k :: j < k < |ps| ==> UpsertAll(rows, ps).1[k] != UpsertAll(rows, ps).1[j]
    ensures var (after, ids) := UpsertAll(rows, ps); ids[j] in after && after[ids[j]].content == ps[j].content
    decreases |ps|
  {
    var init := ps[..|ps| - 1];
    UpsertAllRows(rows, init);
    if j < |ps| - 1 {
      assert forall k :: 0 <= k < |init| ==> UpsertAll(rows, init).1[k] == UpsertAll(rows, ps).1[k];
      assert UpsertAll(rows, ps).1[|ps| - 1] != UpsertAll(rows, ps).1[j];
      LastPaperShows(rows, init, j);
    }
  }

  /** Strictly increasing positions below their number are 0, 1, 2, ... */
  lemma {:induction false} IncreasingIsRange(ps: seq<nat>, i: nat)
    requires i < |ps| && (forall a, b :: 0 <= a < b < |ps| ==> ps[a] < ps[b]) && forall a :: 0 <= a < |ps| ==> ps[a] < |ps|
    ensures ps[i] == i
  {
    PrefixAtLeast(ps, i);
    SuffixAtMost(ps, i);
  }

  lemma {:induction false} PrefixAtLeast(ps: seq<nat>, i: nat)
    requires i < |ps| && forall a, b :: 0 <= a < b < |ps| ==> ps[a] < ps[b]
    ensures ps[i] >= i
  {
    if i > 0 {
      PrefixAtLeast(ps, i - 1);
    }
  }

  lemma {:induction false} SuffixAtMost(ps: seq<nat>, i: nat)
    requires i < |ps| && (forall a, b :: 0 <= a < b < |ps| ==> ps[a] < ps[b]) && forall a :: 0 <= a < |ps| ==> ps[a] < |ps|
    ensures ps[i] <= i
    decreases |ps| - i
  {
    if i + 1 < |ps| {
      SuffixAtMost(ps, i + 1);
    }
  }

  // ------------------------------------------------------------------ the invariant

  /** A list of existing rows, each once: the shape of a completed entry. */
  ghost predicate Lists(rows: PaperRows, e: Entry, ids: seq<PaperId>) {
    && Distinct(ids)
    && (forall id :: id in ids ==> id in rows)
    && e.resultCount == |ids|
    && e.matches == PositionsOf(ids)
  }

  ghost predicate Sound(rows: PaperRows, e: Entry) {
    exists ids :: Lists(rows, e, ids)
  }

  ghost predicate StoreOk(s: Store) {
    WellKeyed(s.rows) && forall key :: key in s.entries && s.entries[key].status.EntryCompleted? ==> Sound(s.rows, s.entries[key])
  }

  lemma ListsPasses(rows: PaperRows, e: Entry, ids: seq<PaperId>)
    requires Lists(rows, e, ids)
    ensures IntegrityFailure(rows, e).None?
  {
    PositionsAreIndices(ids);
    assert (set id | id in e.matches && id in rows) == e.matches.Keys;
    assert |e.matches.Keys| == |e.matches|;
    forall p | 0 <= p < e.resultCount ensures p in e.matches.Values {
      assert ids[p] in e.matches && e.matches[ids[p]] == p;
    }
  }

  /** An id at each of the first positions. */
  ghost function Pick(e: Entry, n: nat): (ids: seq<PaperId>)
    requires forall p :: 0 <= p < n ==> p in e.matches.Values
    ensures |ids| == n && forall i :: 0 <= i < n ==> ids[i] in e.matches && e.matches[ids[i]] == i
  {
    if n == 0 then []
    else
      var p := n - 1;
      assert p in e.matches.Values;
      var id :| id in e.matches && e.matches[id] == p;
      Pick(e, n - 1) + [id]
  }

  lemma SameSize<T>(a: set<T>, b: set<T>)
    requires a <= b && |a| == |b|
    ensures a == b
  {
    assert |b - a| == 0;
  }

  /** As many ids as positions: the ids picked are all there are. */
  lemma PositionsAreAll(m: map<PaperId, nat>, ids: seq<PaperId>)
    requires |m| == |ids| && Distinct(ids) && forall i :: 0 <= i < |ids| ==> ids[i] in m && m[ids[i]] == i
    ensures m == PositionsOf(ids)
  {
    PositionsAreIndices(ids);
    var positions := PositionsOf(ids);
    assert |positions.Keys| == |positions| && |m.Keys| == |m|;
    forall id | id in positions ensures id in m && m[id] == positions[id] {
      var i :| 0 <= i < |ids| && ids[i] == id;
      assert positions[ids[i]] == i;
    }
    SameSize(positions.Keys, m.Keys);
  }

  /** The check passes exactly the entries that list existing rows, each once, at the positions 0, 1, 2, ... */
  lemma IntegrityExactly(rows: PaperRows, e: Entry)
    ensures IntegrityFailure(rows, e).None? <==> Sound(rows, e)
  {
    if Sound(rows, e) {
      var ids :| Lists(rows, e, ids);
      ListsPasses(rows, e, ids);
    }
    if IntegrityFailure(rows, e).None? {
      SameSize((set id | id in e.matches && id in rows), e.matches.Keys);
      assert forall id :: id in e.matches ==> id in (set id | id in e.matches && id in rows);
      var ids := Pick(e, e.resultCount);
      assert Distinct(ids);
      PositionsAreAll(e.matches, ids);
      assert Lists(rows, e, ids);
    }
  }

  /** Ids listed by increasing position are the list itself. */
  lemma OrderIsDetermined(ids: seq<PaperId>, read: seq<PaperId>)
    requires Distinct(ids) && Distinct(read) && forall id :: id in read <==> id in ids
    requires var m := PositionsOf(ids); forall i, j :: 0 <= i < j < |read| && read[i] in m && read[j] in m ==> m[read[i]] <= m[read[j]]
    ensures read == ids
  {
    var m := PositionsOf(ids);
    PositionsAreIndices(ids);
    DistinctSameLength(read, ids);
    forall i | 0 <= i < |read| ensures read[i] in m && 0 <= m[read[i]] < |read| && ids[m[read[i]]] == read[i] {
      assert read[i] in ids;
    }
    var ps := seq(|read|, i requires 0 <= i < |read| => m[read[i]]);
    forall a, b | 0 <= a < b < |ps| ensures ps[a] < ps[b] {
      assert ids[ps[a]] == read[a] && ids[ps[b]] == read[b];
    }
    forall i | 0 <= i < |ids| ensures read[i] == ids[i] {
      IncreasingIsRange(ps, i);
      assert ids[ps[i]] == read[i];
    }
  }

  lemma ListsReadsOnly(s: Store, key: CacheKey, ids: seq<PaperId>, read: seq<PaperId>)
    requires key in s.entries && Lists(s.rows, s.entries[key], ids)
    ensures ReadsAs(s, key, read) <==> read == ids
  {
    PositionsAreIndices(ids);
    if ReadsAs(s, key, read) {
      forall id ensures id in read <==> id in ids {}
      OrderIsDetermined(ids, read);
    }
  }

  lemma DistinctSameLength(xs: seq<PaperId>, ys: seq<PaperId>)
    requires Distinct(xs) && Distinct(ys) && forall id :: id in xs <==> id in ys
    ensures |xs| == |ys|
  {
    PositionsAreIndices(xs);
    PositionsAreIndices(ys);
    assert PositionsOf(xs).Keys == PositionsOf(ys).Keys;
    assert |PositionsOf(xs).Keys| == |PositionsOf(xs)| && |PositionsOf(ys).Keys| == |PositionsOf(ys)|;
  }

  lemma RecordedLists(s: Store, key: CacheKey, ps: seq<Paper>, total: Option<nat>, requests: nat,
                      requestedAt: Time, completedAt: Time, interval: Time)
    requires WellKeyed(s.rows)
    ensures var s' := RecordCompleted(s, key, ps, total, requests, requestedAt, completedAt, interval);
      Lists(s'.rows, s'.entries[key], Dedup(UpsertAll(s.rows, ps).1))
  {
    UpsertAllRows(s.rows, ps);
    DedupKeepsAll(UpsertAll(s.rows, ps).1);
  }

  // ------------------------------------------------------------------ runs

  datatype Step =
    | PaperWrite(write: Write)
    | Completes(key: CacheKey, papers: seq<Paper>, total: Option<nat>, requests: nat,
                requestedAt: Time, completedAt: Time, interval: Time)
    | Fails(key: CacheKey, status: EntryStatus, failure: nat, cooldown: Option<Time>, requests: nat, requestedAt: Time)
    | Refreshes(key: CacheKey, interval: Time, now: Time)

  ghost function Next(s: Store, e: Step): Store {
    match e
    case PaperWrite(w) => s.(rows := Written(s.rows, w))
    case Completes(key, ps, total, n, r, c, i) => RecordCompleted(s, key, ps, total, n, r, c, i)
    case Fails(key, status, f, cd, n, r) => RecordFailure(s, key, status, f, cd, n, r)
    case Refreshes(key, i, now) => RefreshIfDue(s, key, i, now).0
  }

  ghost function Run(s: Store, es: seq<Step>): Store
    decreases |es|
  {
    if es == [] then s else Run(Next(s, es[0]), es[1..])
  }

  /** Failures are recorded with a failure status; that is what every caller passes. */
  predicate Proper(e: Step) {
    e.Fails? ==> !e.status.EntryCompleted?
  }

  lemma RowsGrow(s: Store, e: Step)
    requires WellKeyed(s.rows)
    ensures WellKeyed(Next(s, e).rows) && s.rows.Keys <= Next(s, e).rows.Keys
  {
    if e.PaperWrite? {
      WrittenKeepsRows(s.rows, e.write);
    } else if e.Completes? {
      UpsertAllRows(s.rows, e.papers);
    }
  }

  /** One step: a completed entry stays completed, and only a new completion of the same key changes
      what it lists. */
  lemma StepKeepsEntry(s: Store, e: Step, key: CacheKey, ids: seq<PaperId>)
    requires WellKeyed(s.rows) && key in s.entries && s.entries[key].status.EntryCompleted?
    requires Lists(s.rows, s.entries[key], ids)
    ensures var s' := Next(s, e);
      && key in s'.entries && s'.entries[key].status.EntryCompleted?
      && (if e.Completes? && e.key == key
          then Lists(s'.rows, s'.entries[key], Dedup(UpsertAll(s.rows, e.papers).1))
          else Lists(s'.rows, s'.entries[key], ids))
  {
    RowsGrow(s, e);
    if e.Completes? {
      RecordedLists(s, e.key, e.papers, e.total, e.requests, e.requestedAt, e.completedAt, e.interval);
    }
  }

  lemma NextKeeps(s: Store, e: Step)
    requires StoreOk(s) && Proper(e)
    ensures StoreOk(Next(s, e))
  {
    var s' := Next(s, e);
    RowsGrow(s, e);
    forall key | key in s'.entries && s'.entries[key].status.EntryCompleted? ensures Sound(s'.rows, s'.entries[key]) {
      if key in s.entries && s.entries[key].status.EntryCompleted? {
        var ids :| Lists(s.rows, s.entries[key], ids);
        StepKeepsEntry(s, e, key, ids);
      } else if e.Completes? {
        RecordedLists(s, e.key, e.papers, e.total, e.requests, e.requestedAt, e.completedAt, e.interval);
      }
    }
  }

  lemma {:induction false} RunKeeps(s: Store, es: seq<Step>)
    requires StoreOk(s) && forall e :: e in es ==> Proper(e)
    ensures StoreOk(Run(s, es))
    decreases |es|
  {
    if es != [] {
      NextKeeps(s, es[0]);
      RunKeeps(Next(s, es[0]), es[1..]);
    }
  }

  // ------------------------------------------------------------------ the theorems

  /** In every reachable state each completed entry passes the integrity check. */
  lemma CompletedIsReadable(es: seq<Step>, key: CacheKey)
    requires forall e :: e in es ==> Proper(e)
    ensures var s := Run(Store(map[], map[]), es);
      key in s.entries && s.entries[key].status.EntryCompleted? ==> Readable(s, key)
  {
    RunKeeps(Store(map[], map[]), es);
    var s := Run(Store(map[], map[]), es);
    if key in s.entries && s.entries[key].status.EntryCompleted? {
      var ids :| Lists(s.rows, s.entries[key], ids);
      ListsPasses(s.rows, s.entries[key], ids);
    }
  }

  lemma {:induction false} ListStays(s: Store, es: seq<Step>, key: CacheKey, ids: seq<PaperId>)
    requires WellKeyed(s.rows) && key in s.entries && s.entries[key].status.EntryCompleted?
    requires Lists(s.rows, s.entries[key], ids)
    requires forall e :: e in es ==> !(e.Completes? && e.key == key)
    ensures var s' := Run(s, es);
      key in s'.entries && s'.entries[key].status.EntryCompleted? && Lists(s'.rows, s'.entries[key], ids)
    decreases |es|
  {
    if es != [] {
      StepKeepsEntry(s, es[0], key, ids);
      RowsGrow(s, es[0]);
      ListStays(Next(s, es[0]), es[1..], key, ids);
    }
  }

  /** Record a response, then do anything but record the same key again: the entry reads back exactly
      the rows of the response, each once, in the order of the response, for any input with duplicate
      or aliased papers. */
  lemma ReadsBackInOrder(s: Store, key: CacheKey, ps: seq<Paper>, total: Option<nat>, requests: nat,
                         requestedAt: Time, completedAt: Time, interval: Time, later: seq<Step>, read: seq<PaperId>)
    requires WellKeyed(s.rows)
    requires forall e :: e in later ==> !(e.Completes? && e.key == key)
    ensures var s1 := RecordCompleted(s, key, ps, total, requests, requestedAt, completedAt, interval);
      var s2 := Run(s1, later);
      && Readable(s2, key)
      && (ReadsAs(s2, key, read) <==> read == Dedup(UpsertAll(s.rows, ps).1))
  {
    var e := Completes(key, ps, total, requests, requestedAt, completedAt, interval);
    var s1 := Next(s, e);
    var ids := Dedup(UpsertAll(s.rows, ps).1);
    RowsGrow(s, e);
    RecordedLists(s, key, ps, total, requests, requestedAt, completedAt, interval);
    ListStays(s1, later, key, ids);
    var s2 := Run(s1, later);
    ListsPasses(s2.rows, s2.entries[key], ids);
    ListsReadsOnly(s2, key, ids, read);
  }

  // ------------------------------------------------------------------ failures and requests

  /** A failure hides no answer: what could be read before can be read after it, and nothing else. It shows beside the
      answer, and an entry that was never completed takes its status. */
  lemma FailureHidesNothing(s: Store, key: CacheKey, status: EntryStatus, failure: nat, cooldown: Option<Time>,
                            requests: nat, requestedAt: Time)
    requires !status.EntryCompleted?
    ensures var after := RecordFailure(s, key, status, failure, cooldown, requests, requestedAt);
            && after.rows == s.rows && after.entries.Keys == s.entries.Keys + {key}
            && (forall k :: k in s.entries && k != key ==> after.entries[k] == s.entries[k])
            && (forall k :: Readable(after, k) <==> Readable(s, k))
            && (key in s.entries ==> forall ids :: ReadsAs(after, key, ids) <==> ReadsAs(s, key, ids))
            && after.entries[key].failure == Some(failure) && after.entries[key].cooldownUntil == cooldown
            && after.entries[key].requestedAt == requestedAt
            && (key in s.entries ==>
                && after.entries[key].resultCount == s.entries[key].resultCount && after.entries[key].total == s.entries[key].total
                && after.entries[key].completedAt == s.entries[key].completedAt
                && after.entries[key].refreshAfter == s.entries[key].refreshAfter)
            && after.entries[key].status ==
                 (if key in s.entries && s.entries[key].status.EntryCompleted? then EntryCompleted else status)
  {
  }

  /** An answer clears what an earlier failure left; the entry counts the rows it lists, and no other entry moves. */
  lemma AnswerClearsFailure(s: Store, key: CacheKey, ps: seq<Paper>, total: Option<nat>, requests: nat,
                            requestedAt: Time, completedAt: Time, interval: Time)
    ensures var after := RecordCompleted(s, key, ps, total, requests, requestedAt, completedAt, interval);
            var e := after.entries[key];
            && after.entries == s.entries[key := e]
            && e.status.EntryCompleted? && e.failure.None? && e.cooldownUntil.None?
            && e.total == total && e.requestedAt == requestedAt && e.completedAt == Some(completedAt)
            && e.resultCount == |e.matches| && (forall id :: id in e.matches <==> id in UpsertAll(s.rows, ps).1)
  {
    var ids := UpsertAll(s.rows, ps).1;
    DedupKeepsAll(ids);
    PositionsAreIndices(Dedup(ids));
    forall id | id in Dedup(ids) ensures id in PositionsOf(Dedup(ids)) {
      var i :| 0 <= i < |Dedup(ids)| && Dedup(ids)[i] == id;
    }
  }

  /** The upstream requests that the steps of a run spent on a key. */
  function Spent(es: seq<Step>, key: CacheKey): nat
    decreases |es|
  {
    if es == [] then 0
    else (if (es[0].Completes? || es[0].Fails?) && es[0].key == key then es[0].requests else 0) + Spent(es[1..], key)
  }

  /** No request is lost or counted twice, whether it brought an answer or failed. */
  lemma {:induction false} RequestsAddUp(s: Store, es: seq<Step>, key: CacheKey)
    ensures Upstream(Run(s, es), key) == Upstream(s, key) + Spent(es, key)
    decreases |es|
  {
    if es != [] {
      RequestsAddUp(Next(s, es[0]), es[1..], key);
    }
  }

  // ------------------------------------------------------------------ refreshes

  /** A completed entry is due when its completion is as old as the interval, when its own date has come, or when it
      has neither; no other entry is. What is due waits for one interval more; what is not keeps the earlier date. */
  lemma DueExactly(s: Store, key: CacheKey, interval: Time, now: Time)
    ensures RefreshIfDue(s, key, interval, now).1 <==>
              && key in s.entries && s.entries[key].status.EntryCompleted?
              && var e := s.entries[key];
                 || (e.completedAt.Some? && e.completedAt.value + interval <= now)
                 || (e.refreshAfter.Some? && e.refreshAfter.value <= now)
                 || (e.completedAt.None? && e.refreshAfter.None?)
    ensures var (after, due) := RefreshIfDue(s, key, interval, now);
            if key !in s.entries || !s.entries[key].status.EntryCompleted? then after == s
            else
              var e, date := s.entries[key], after.entries[key].refreshAfter;
              && after == s.(entries := s.entries[key := e.(refreshAfter := date)])
              && date.Some?
              && (due ==> date.value == now + interval)
              && (!due ==>
                  && date.value > now
                  && (date == e.refreshAfter || (e.completedAt.Some? && date.value == e.completedAt.value + interval))
                  && (e.refreshAfter.Some? ==> date.value <= e.refreshAfter.value)
                  && (e.completedAt.Some? ==> date.value <= e.completedAt.value + interval))
  {
  }

  predicate Dates(s: Store, key: CacheKey, completedAt: Option<Time>, refreshAfter: Option<Time>) {
    key in s.entries && s.entries[key].status.EntryCompleted?
    && s.entries[key].completedAt == completedAt && s.entries[key].refreshAfter == refreshAfter
  }

  /** Papers, failures and other keys leave the dates of a completed entry alone. */
  lemma {:induction false} DatesStay(s: Store, es: seq<Step>, key: CacheKey, completedAt: Option<Time>, refreshAfter: Option<Time>)
    requires Dates(s, key, completedAt, refreshAfter)
    requires forall e :: e in es ==> !((e.Completes? || e.Refreshes?) && e.key == key)
    ensures Dates(Run(s, es), key, completedAt, refreshAfter)
    decreases |es|
  {
    if es != [] {
      assert es[0] in es;
      DatesStay(Next(s, es[0]), es[1..], key, completedAt, refreshAfter);
    }
  }

  /** What was completed with one interval is due, for a request with another, from the earlier of the two dates on,
      whatever papers and failures were written in between. */
  lemma DueFromTheEarlier(s: Store, key: CacheKey, ps: seq<Paper>, total: Option<nat>, requests: nat, requestedAt: Time,
                          completedAt: Time, interval: Time, es: seq<Step>, asked: Time, now: Time)
    requires forall e :: e in es ==> !((e.Completes? || e.Refreshes?) && e.key == key)
    ensures var s1 := RecordCompleted(s, key, ps, total, requests, requestedAt, completedAt, interval);
            RefreshIfDue(Run(s1, es), key, asked, now).1 <==> now >= completedAt + MinReal(interval, asked)
  {
    var s1 := RecordCompleted(s, key, ps, total, requests, requestedAt, completedAt, interval);
    DatesStay(s1, es, key, Some(completedAt), Some(completedAt + interval));
  }

  /** A refresh that came due does not hold its period: unless a completion follows, asking again within the interval
      makes another one due if and only if the old completion is as old as the interval by then. So there is one
      refresh per interval exactly when the entry was completed less than an interval before the second request. */
  lemma RefreshRepeatsExactly(s: Store, key: CacheKey, interval: Time, first: Time, second: Time, es: seq<Step>)
    requires RefreshIfDue(s, key, interval, first).1
    requires first <= second < first + interval
    requires forall e :: e in es ==> !((e.Completes? || e.Refreshes?) && e.key == key)
    ensures RefreshIfDue(Run(RefreshIfDue(s, key, interval, first).0, es), key, interval, second).1
            <==> s.entries[key].completedAt.Some? && s.entries[key].completedAt.value + interval <= second
  {
    var after := RefreshIfDue(s, key, interval, first).0;
    DatesStay(after, es, key, s.entries[key].completedAt, Some(first + interval));
  }

  /** The failing case exists: completed at 0, due and failed at 10, due again at 11. */
  lemma FailedRefreshRepeats(rows: PaperRows)
    ensures var s := Store(rows, map[1 := Entry(EntryCompleted, 0.0, Some(0.0), Some(10.0), None, 1, 0, Some(0), None, map[])]);
            var failed := RecordFailure(RefreshIfDue(s, 1, 10.0, 10.0).0, 1, EntryFailed, 3, None, 1, 10.5);
            RefreshIfDue(s, 1, 10.0, 10.0).1 && RefreshIfDue(failed, 1, 10.0, 11.0).1
  {
  }
}
