/** Requests for one cache key that join one pending item: what the item asks for does not depend on their order. */
module Joins {
  import opened Common
  import opened Queue

  /** One enqueue_request_for_work call for the cache key. */
  datatype Join = Join(request: Request, kind: WorkKind, budget: Option<BudgetId>, at: Time)

  /** The item after the calls: the first one queues it and the others join it. */
  function Joined(key: CacheKey, js: seq<Join>, default: Time): Item
    requires js != []
    decreases |js|
  {
    var n := |js| - 1;
    var last := js[n];
    if n == 0 then NewItem(key, last.request, last.kind, last.budget, last.at)
    else JoinedItem(Joined(key, js[..n], default), last.request, last.kind, last.budget, default, last.at)
  }

  predicate MaxOf(x: real, js: seq<Join>, default: Time) {
    && (exists j :: j in js && TimeoutOr(j.request, default) == x)
    && (forall j :: j in js ==> TimeoutOr(j.request, default) <= x)
  }

  predicate TopPriority(x: int, js: seq<Join>) {
    && (exists j :: j in js && j.request.priority == x)
    && (forall j :: j in js ==> j.request.priority <= x)
  }

  predicate AnyRefresh(js: seq<Join>) { exists j :: j in js && j.kind.RefreshCompleted? }

  predicate ShortestInterval(x: nat, js: seq<Join>) {
    && (exists j :: j in js && j.kind.RefreshCompleted? && j.request.refreshInterval == x)
    && (forall j :: j in js && j.kind.RefreshCompleted? ==> x <= j.request.refreshInterval)
  }

  predicate AnyUnbudgeted(js: seq<Join>) { exists j :: j in js && j.budget.None? }

  function Budgets(js: seq<Join>): set<BudgetId> {
    set j | j in js && j.budget.Some? :: j.budget.value
  }

  /** What the item asks for, said of all its requests at once. */
  predicate Merges(item: Item, js: seq<Join>, default: Time) {
    && TopPriority(item.request.priority, js)
    && MaxOf(TimeoutOr(item.request, default), js, default)
    && (item.workKind.RefreshCompleted? <==> AnyRefresh(js))
    && (item.workKind.RefreshCompleted? ==> ShortestInterval(item.request.refreshInterval, js))
    && (item.unbudgeted <==> AnyUnbudgeted(js))
    && item.members.Keys == Budgets(js)
  }

  lemma MergesRequest(item: Item, js: seq<Join>, j: Join, default: Time)
    requires Merges(item, js, default)
    ensures var merged, all := JoinedItem(item, j.request, j.kind, j.budget, default, j.at), js + [j];
            && TopPriority(merged.request.priority, all)
            && MaxOf(TimeoutOr(merged.request, default), all, default)
  {
    var all := js + [j];
    var top :| top in js && top.request.priority == item.request.priority;
    var slow :| slow in js && TimeoutOr(slow.request, default) == TimeoutOr(item.request, default);
    assert top in all && slow in all && all[|js|] == j;
  }

  lemma MergesKind(item: Item, js: seq<Join>, j: Join, default: Time)
    requires Merges(item, js, default)
    ensures var merged, all := JoinedItem(item, j.request, j.kind, j.budget, default, j.at), js + [j];
            && (merged.workKind.RefreshCompleted? <==> AnyRefresh(all))
            && (merged.workKind.RefreshCompleted? ==> ShortestInterval(merged.request.refreshInterval, all))
  {
    var all := js + [j];
    assert all[|js|] == j;
    if AnyRefresh(js) {
      var r :| r in js && r.kind.RefreshCompleted? && r.request.refreshInterval == item.request.refreshInterval;
      assert r in all;
    }
  }

  lemma MergesDemand(item: Item, js: seq<Join>, j: Join, default: Time)
    requires Merges(item, js, default)
    ensures var merged, all := JoinedItem(item, j.request, j.kind, j.budget, default, j.at), js + [j];
            && (merged.unbudgeted <==> AnyUnbudgeted(all))
            && merged.members.Keys == Budgets(all)
  {
    var all := js + [j];
    assert all[|js|] == j;
    if AnyUnbudgeted(js) {
      var u :| u in js && u.budget.None?;
      assert u in all;
    }
    forall b | b in Budgets(js) ensures b in Budgets(all) {
      var c :| c in js && c.budget == Some(b);
      assert c in all;
    }
    assert Budgets(all) == Budgets(js) + if j.budget.Some? then {j.budget.value} else {};
  }

  lemma {:induction false} JoinsMerge(key: CacheKey, js: seq<Join>, default: Time)
    requires js != []
    ensures Merges(Joined(key, js, default), js, default)
    decreases |js|
  {
    var n := |js| - 1;
    if n == 0 {
      assert js == [js[0]] && js[0] in js;
      assert Budgets(js) == if js[0].budget.Some? then {js[0].budget.value} else {};
    } else {
      JoinsMerge(key, js[..n], default);
      var item := Joined(key, js[..n], default);
      assert js[..n] + [js[n]] == js;
      MergesRequest(item, js[..n], js[n], default);
      MergesKind(item, js[..n], js[n], default);
      MergesDemand(item, js[..n], js[n], default);
    }
  }

  /** In whatever order the same requests come, the item asks for the same: the highest priority, the longest
      effective timeout, a refresh if any is one, with the shortest interval of those, unbudgeted demand if any
      came without a budget, and the budgets of all. */
  lemma OrderDoesNotMatter(key: CacheKey, js: seq<Join>, ks: seq<Join>, default: Time)
    requires js != [] && multiset(js) == multiset(ks)
    ensures ks != []
    ensures var a, b := Joined(key, js, default), Joined(key, ks, default);
            && a.request.priority == b.request.priority
            && TimeoutOr(a.request, default) == TimeoutOr(b.request, default)
            && a.workKind == b.workKind
            && (a.workKind.RefreshCompleted? ==> a.request.refreshInterval == b.request.refreshInterval)
            && a.unbudgeted == b.unbudgeted
            && a.members.Keys == b.members.Keys
  {
    assert js[0] in multiset(js);
    assert js[0] in ks;
    forall j ensures j in js <==> j in ks {
      assert j in js <==> j in multiset(js);
      assert j in ks <==> j in multiset(ks);
    }
    JoinsMerge(key, js, default);
    JoinsMerge(key, ks, default);
    SameRequests(Joined(key, js, default), Joined(key, ks, default), js, ks, default);
  }

  lemma SameRequests(a: Item, b: Item, js: seq<Join>, ks: seq<Join>, default: Time)
    requires Merges(a, js, default) && Merges(b, ks, default)
    requires forall j :: j in js <==> j in ks
    ensures a.request.priority == b.request.priority
    ensures TimeoutOr(a.request, default) == TimeoutOr(b.request, default)
    ensures a.workKind == b.workKind
    ensures a.workKind.RefreshCompleted? ==> a.request.refreshInterval == b.request.refreshInterval
    ensures a.unbudgeted == b.unbudgeted
    ensures a.members.Keys == b.members.Keys
  {
  }
}
