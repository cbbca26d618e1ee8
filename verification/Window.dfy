/** Complete-window sync: planning the pages that follow the first one, admitting them against three budgets, and
    the verdict that the pages together hold the whole window. */
module Window {
  import opened Common

  /** A readable completed cache entry of one page: what upstream said the total is, and the papers read back. */
  datatype Page = Page(total: Option<nat>, papers: seq<PaperId>)

  datatype Coverage = Unknown | Partial | Complete | Overflow

  datatype WindowError =
    | MissingTotal | WindowOverflow | EmptyPage | PageBudget | RequestBudget | DeadlineBudget | Overlap
    | PageError(category: nat)

  /** _MaintenanceTarget: the window's first request and what the sync job reports. */
  class Target {
    const start: nat
    const maxResults: nat
    var coverage: Coverage
    var resultCount: nat
    var total: Option<nat>
    var pagesTotal: nat
    var pagesCompleted: nat
    var error: Option<WindowError>

    constructor (start: nat, maxResults: nat)
      requires maxResults >= 1
      ensures this.start == start && this.maxResults == maxResults
      ensures coverage.Unknown? && total.None? && error.None? && resultCount == pagesTotal == pagesCompleted == 0
    {
      this.start, this.maxResults := start, maxResults;
      coverage, total, error := Unknown, None, None;
      resultCount, pagesTotal, pagesCompleted := 0, 0, 0;
    }

    /** The window ends with its first page. */
    method Stop(coverage: Coverage, resultCount: nat, total: Option<nat>, pagesCompleted: nat, error: Option<WindowError>)
      modifies this
      ensures this.coverage == coverage && this.resultCount == resultCount && this.total == total
      ensures this.pagesTotal == 1 && this.pagesCompleted == pagesCompleted && this.error == error
    {
      this.coverage, this.resultCount, this.total := coverage, resultCount, total;
      this.pagesTotal, this.pagesCompleted, this.error := 1, pagesCompleted, error;
    }
  }

  /** _MaintenanceBudget. */
  class Budget {
    const maxPages: nat
    const maxRequests: nat
    const deadline: Time
    var reserved: nat

    constructor (maxPages: nat, maxRequests: nat, deadline: Time)
      ensures this.maxPages == maxPages && this.maxRequests == maxRequests && this.deadline == deadline && reserved == 0
    {
      this.maxPages, this.maxRequests, this.deadline, reserved := maxPages, maxRequests, deadline, 0;
    }
  }

  // ------------------------------------------------------------------ tiling

  /** The number of follow-up pages the planner computes before it plans any. */
  function FollowupPages(next: nat, total: nat, m: nat): nat
    requires m >= 1
  {
    ((if total > next then total - next else 0) + m - 1) / m
  }

  /** The first result of each of `n` follow-up pages. */
  function Starts(next: nat, m: nat, n: nat): (starts: seq<nat>)
    ensures |starts| == n
    ensures forall i: nat :: i < n ==> starts[i] == StartOf(next, m, i)
    decreases n
  {
    if n == 0 then [] else Starts(next, m, n - 1) + [StartOf(next, m, n - 1)]
  }

  function StartOf(next: nat, m: nat, i: nat): nat { next + i * m }

  /** Page `i` covers position `p`: page 0 is the first one, with the results it has; a follow-up reaches to the
      next page or to the total. */
  predicate Covers(first: nat, next: nat, total: nat, m: nat, i: nat, p: nat) {
    if i == 0 then first <= p < next
    else StartOf(next, m, i - 1) <= p < StartOf(next, m, i - 1) + m && p < total
  }

  /** The page that has position `p`. */
  function PageOf(next: nat, m: nat, p: nat): nat
    requires m >= 1
  {
    if p < next then 0 else (p - next) / m + 1
  }

  lemma Multiples(k: int, m: nat)
    ensures k >= 1 ==> k * m >= m
    ensures k <= -1 ==> k * m + m <= 0
  {
    if k >= 1 {
      assert (k - 1) * m >= 0;
    } else if k <= -1 {
      assert (-k - 1) * m >= 0;
      assert (-k - 1) * m == -(k * m) - m;
    }
  }

  lemma Quotient(x: nat, m: nat, q: nat)
    requires m >= 1
    ensures x / m == q <==> q * m <= x < q * m + m
    ensures x / m > q <==> x >= q * m + m
  {
    var d := x / m;
    assert x == d * m + x % m;
    Multiples(d - q, m);
    assert (d - q) * m == d * m - q * m;
  }

  /** The number of pages is the computed one when the last of them reaches the total and is needed to. */
  lemma CountIsComputed(next: nat, total: nat, m: nat, n: nat)
    requires m >= 1 && StartOf(next, m, n) >= total && (n > 0 ==> StartOf(next, m, n - 1) < total)
    ensures n == FollowupPages(next, total, m)
  {
    var rest := if total > next then total - next else 0;
    Quotient(rest + m - 1, m, n);
    if n > 0 {
      assert (n - 1) * m == n * m - m;
    }
  }

  lemma PageIsPlanned(next: nat, total: nat, m: nat, p: nat)
    requires m >= 1 && p < total
    ensures PageOf(next, m, p) <= FollowupPages(next, total, m)
  {
    if p >= next {
      var k := (p - next) / m;
      Quotient(p - next, m, k);
      Quotient(total - next + m - 1, m, k);
    }
  }

  lemma FollowupCovers(next: nat, m: nat, p: nat, i: nat)
    requires m >= 1 && i > 0
    ensures StartOf(next, m, i - 1) <= p < StartOf(next, m, i - 1) + m <==> i == PageOf(next, m, p)
  {
    if p >= next {
      Quotient(p - next, m, i - 1);
    } else {
      Multiples(i - 1, m);
    }
  }

  /** The planned pages tile [first, total): position `p` of the window belongs to page PageOf(p) and to no other. */
  lemma PagesTile(first: nat, next: nat, total: nat, m: nat, p: nat, i: nat)
    requires m >= 1 && first <= next && first <= p < total
    ensures PageOf(next, m, p) <= FollowupPages(next, total, m)
    ensures Covers(first, next, total, m, i, p) <==> i == PageOf(next, m, p)
  {
    PageIsPlanned(next, total, m, p);
    if i > 0 {
      FollowupCovers(next, m, p, i);
    }
  }

  /** No planned page is empty: each starts inside the window. */
  lemma PagesStartInside(next: nat, total: nat, m: nat, i: nat)
    requires m >= 1 && i < FollowupPages(next, total, m)
    ensures next <= StartOf(next, m, i) < total
  {
    var rest := if total > next then total - next else 0;
    Quotient(rest + m - 1, m, i);
    assert i * m >= 0;
  }

  // ------------------------------------------------------------------ admission

  function Missing(starts: seq<nat>, cached: set<nat>): nat
    decreases |starts|
  {
    if starts == [] then 0
    else Missing(starts[..|starts| - 1], cached) + if starts[|starts| - 1] in cached then 0 else 1
  }

  /** The planned pages that have to be requested. */
  function Uncached(starts: seq<nat>, cached: set<nat>): set<nat> {
    set i: nat | i < |starts| && starts[i] !in cached
  }

  lemma {:induction false} MissingCounts(starts: seq<nat>, cached: set<nat>)
    ensures Missing(starts, cached) == |Uncached(starts, cached)|
    decreases |starts|
  {
    if starts != [] {
      var n := |starts| - 1;
      MissingCounts(starts[..n], cached);
      assert Uncached(starts, cached) == Uncached(starts[..n], cached) + if starts[n] in cached then {} else {n};
    }
  }

  function Times(n: nat, interval: Time): Time { n as real * interval }

  lemma TimesStep(n: nat, interval: Time)
    ensures Times(0, interval) == 0.0 && Times(n + 1, interval) == Times(n, interval) + interval
  {
    assert (n + 1) as real == n as real + 1.0;
  }

  /** _deadline_can_fit_requests. */
  predicate DeadlineFits(now: Time, deadline: Time, requests: nat, interval: Time, wait: Time) {
    now + MaxReal(0.0, wait) + Times(if requests > 0 then requests - 1 else 0, interval) <= deadline
  }

  /** Start times that respect the request interval and the wait before the first. */
  ghost predicate Spaced(times: seq<Time>, from: Time, interval: Time) {
    && (|times| > 0 ==> times[0] >= from)
    && (forall i: nat :: 0 < i < |times| ==> times[i] >= times[i - 1] + interval)
  }

  lemma {:induction false} SpacedLast(times: seq<Time>, from: Time, interval: Time, n: nat)
    requires Spaced(times, from, interval) && n < |times|
    ensures times[n] >= from + Times(n, interval)
    decreases n
  {
    if n == 0 {
      TimesStep(0, interval);
    } else {
      SpacedLast(times, from, interval, n - 1);
      TimesStep(n - 1, interval);
    }
  }

  /** Some spaced schedule of the requests starts the last one by the deadline. */
  ghost predicate CanFinish(requests: nat, from: Time, interval: Time, deadline: Time)
    requires requests > 0
  {
    exists times: seq<Time> :: |times| == requests && Spaced(times, from, interval) && times[requests - 1] <= deadline
  }

  /** The schedule that waits for nothing but the interval. */
  function Earliest(requests: nat, from: Time, interval: Time): (times: seq<Time>)
    requires requests > 0
    ensures |times| == requests && Spaced(times, from, interval) && times[requests - 1] == from + Times(requests - 1, interval)
  {
    if requests == 1 then
      TimesStep(0, interval);
      [from]
    else
      var before := Earliest(requests - 1, from, interval);
      TimesStep(requests - 2, interval);
      before + [from + Times(requests - 1, interval)]
  }

  /** The deadline check refuses exactly the batches for which no spacing of their requests ends in time. */
  lemma DeadlineCheckIsExact(now: Time, deadline: Time, requests: nat, interval: Time, wait: Time)
    requires requests > 0
    ensures DeadlineFits(now, deadline, requests, interval, wait) <==> CanFinish(requests, now + MaxReal(0.0, wait), interval, deadline)
  {
    var from := now + MaxReal(0.0, wait);
    var earliest := Earliest(requests, from, interval);
    if DeadlineFits(now, deadline, requests, interval, wait) {
      assert |earliest| == requests && Spaced(earliest, from, interval) && earliest[requests - 1] <= deadline;
    }
    forall times: seq<Time> | |times| == requests && Spaced(times, from, interval) && times[requests - 1] <= deadline
      ensures DeadlineFits(now, deadline, requests, interval, wait)
    {
      SpacedLast(times, from, interval, requests - 1);
    }
  }

  /** The first page lets the window be planned at all. */
  predicate Plannable(first: Option<Page>, start: nat, cap: nat) {
    && first.Some? && first.value.total.Some? && first.value.total.value <= cap
    && (|first.value.papers| > 0 || start >= first.value.total.value)
  }

  function Followups(target: Target, first: Page): seq<nat>
    requires first.total.Some? && target.maxResults >= 1
  {
    var next := target.start + |first.papers|;
    Starts(next, target.maxResults, FollowupPages(next, first.total.value, target.maxResults))
  }

  /** Why the follow-up pages are refused, if they are. */
  function Refusal(pages: nat, missing: nat, budget: Budget, started: Option<nat>, now: Time, interval: Time, wait: Time)
    : Option<WindowError>
  {
    if 1 + pages > budget.maxPages then Some(PageBudget)
    else if started.None? || started.value + missing > budget.maxRequests then Some(RequestBudget)
    else if missing > 0 && !DeadlineFits(now, budget.deadline, missing, interval, wait) then Some(DeadlineBudget)
    else None
  }

  /** The budgets of requests, which needs a durable counter, and of time. */
  predicate RequestsFit(started: Option<nat>, missing: nat, budget: Budget) {
    started.Some? && started.value + missing <= budget.maxRequests
  }

  ghost predicate TimeFits(missing: nat, budget: Budget, now: Time, interval: Time, wait: Time) {
    missing == 0 || CanFinish(missing, now + MaxReal(0.0, wait), interval, budget.deadline)
  }

  /** A plan is admitted exactly when all three are met, and refused with the error of the first that is not. */
  lemma AdmissionExactly(pages: nat, missing: nat, budget: Budget, started: Option<nat>, now: Time, interval: Time, wait: Time)
    ensures var refusal := Refusal(pages, missing, budget, started, now, interval, wait);
            && (refusal.None? <==> 1 + pages <= budget.maxPages && RequestsFit(started, missing, budget)
                                   && TimeFits(missing, budget, now, interval, wait))
            && (refusal == Some(PageBudget) <==> 1 + pages > budget.maxPages)
            && (refusal == Some(RequestBudget) <==>
                1 + pages <= budget.maxPages && (started.None? || started.value + missing > budget.maxRequests))
            && (refusal == Some(DeadlineBudget) <==>
                1 + pages <= budget.maxPages && RequestsFit(started, missing, budget)
                && !TimeFits(missing, budget, now, interval, wait))
  {
    if missing > 0 {
      DeadlineCheckIsExact(now, budget.deadline, missing, interval, wait);
    }
  }

  /** The loop that plans the pages from `first` on, counting those that are not cached. */
  method PlanPages(first: nat, total: nat, m: nat, cached: set<nat>) returns (starts: seq<nat>, missing: nat)
    requires m >= 1
    ensures starts == Starts(first, m, FollowupPages(first, total, m))
    ensures missing == Missing(starts, cached)
  {
    var next := first;
    starts, missing := [], 0;
    while next < total
      invariant starts == Starts(first, m, |starts|) && next == StartOf(first, m, |starts|)
      invariant |starts| > 0 ==> StartOf(first, m, |starts| - 1) < total
      invariant missing == Missing(starts, cached)
      decreases total - next
    {
      if next !in cached {
        missing := missing + 1;
      }
      assert (starts + [next])[..|starts|] == starts;
      assert (|starts| + 1) * m == |starts| * m + m;
      starts := starts + [next];
      next := next + m;
    }
    CountIsComputed(first, total, m, |starts|);
  }

  /** The first page of _plan_and_drain_complete_window_target: whether the window goes on from it, or stops, and why. */
  method CheckFirstPage(target: Target, first: Option<Page>, firstError: Option<nat>, cap: nat) returns (goesOn: bool)
    modifies target
    ensures goesOn <==>
              && first.Some? && first.value.total.Some? && first.value.total.value <= cap
              && (|first.value.papers| > 0 || target.start >= first.value.total.value)
    ensures goesOn ==> target.total == first.value.total && target.coverage == old(target.coverage)
    ensures !goesOn ==>
              && target.pagesTotal == 1 && target.pagesCompleted == (if first.Some? then 1 else 0)
              && target.resultCount == (if first.Some? then |first.value.papers| else 0)
              && (target.coverage.Overflow? <==> first.Some? && first.value.total.Some? && first.value.total.value > cap)
              && (!target.coverage.Overflow? ==> target.coverage.Partial?)
              && target.error == (if first.None? then (if firstError.Some? then Some(PageError(firstError.value)) else None)
                                  else if first.value.total.None? then Some(MissingTotal)
                                  else if first.value.total.value > cap then Some(WindowOverflow)
                                  else Some(EmptyPage))
  {
    if first.None? {
      target.Stop(Partial, 0, None, 0, if firstError.Some? then Some(PageError(firstError.value)) else None);
      return false;
    }
    var page := first.value;
    var count := |page.papers|;
    target.total := page.total;
    if page.total.None? {
      target.Stop(Partial, count, None, 1, Some(MissingTotal));
      return false;
    }
    if page.total.value > cap {
      target.Stop(Overflow, count, page.total, 1, Some(WindowOverflow));
      return false;
    }
    if count <= 0 && target.start < page.total.value {
      target.Stop(Partial, count, page.total, 1, Some(EmptyPage));
      return false;
    }
    return true;
  }

  /** _plan_and_drain_complete_window_target up to the drain: plans the follow-up pages, or stops the window.
      `cached` holds the starts whose page is readable already; `started` is the upstream budget's counter. */
  method PlanFollowups(target: Target, budget: Budget, first: Option<Page>, firstError: Option<nat>, cap: nat,
                       cached: set<nat>, started: Option<nat>, now: Time, interval: Time, wait: Time)
    returns (plan: Option<seq<nat>>)
    requires target.maxResults >= 1
    modifies target, budget
    ensures Plannable(first, target.start, cap) ==>
              var starts := Followups(target, first.value);
              var missing := Missing(starts, cached);
              var refusal := Refusal(|starts|, missing, budget, started, now, interval, wait);
              && target.total == first.value.total
              && if refusal.None?
                 then plan == Some(starts) && budget.reserved == started.value + missing
                      && target.coverage == old(target.coverage)
                 else plan.None? && target.coverage.Partial? && target.error == refusal
                      && target.resultCount == |first.value.papers| && target.pagesTotal == target.pagesCompleted == 1
    ensures plan.Some? ==>
              && Plannable(first, target.start, cap) && 1 + |plan.value| <= budget.maxPages
              && started.Some? && budget.reserved == started.value + |Uncached(plan.value, cached)| <= budget.maxRequests
              && TimeFits(|Uncached(plan.value, cached)|, budget, now, interval, wait)
    ensures !Plannable(first, target.start, cap) ==>
              plan.None? && target.error.Some? == (first.Some? || firstError.Some?) && !target.coverage.Complete?
  {
    var goesOn := CheckFirstPage(target, first, firstError, cap);
    if !goesOn {
      return None;
    }
    var page := first.value;
    var count := |page.papers|;
    var total := page.total.value;
    var next := target.start + count;
    if 1 + FollowupPages(next, total, target.maxResults) > budget.maxPages {
      target.Stop(Partial, count, page.total, 1, Some(PageBudget));
      return None;
    }
    var starts, missing := PlanPages(next, total, target.maxResults, cached);
    MissingCounts(starts, cached);
    AdmissionExactly(|starts|, missing, budget, started, now, interval, wait);
    if started.None? {
      target.Stop(Partial, count, page.total, 1, Some(RequestBudget));
      return None;
    }
    budget.reserved := started.value;
    if budget.reserved + missing > budget.maxRequests {
      target.Stop(Partial, count, page.total, 1, Some(RequestBudget));
      return None;
    }
    if missing > 0 && !DeadlineFits(now, budget.deadline, missing, interval, wait) {
      target.Stop(Partial, count, page.total, 1, Some(DeadlineBudget));
      return None;
    }
    budget.reserved := budget.reserved + missing;
    return Some(starts);
  }

  // ------------------------------------------------------------------ the verdict

  /** What a page brings to the verdict: nothing, with perhaps an error category, or a readable entry. */
  datatype PageState = Unreadable(category: Option<nat>) | Readable(page: Page)

  /** The papers of the readable pages, in page order. */
  function Results(pages: seq<PageState>): seq<PaperId>
    decreases |pages|
  {
    if pages == [] then []
    else Results(pages[..|pages| - 1]) + if pages[|pages| - 1].Readable? then pages[|pages| - 1].page.papers else []
  }

  function Families(papers: seq<PaperId>): set<nat> { set p | p in papers :: p.family }

  predicate AllReadable(pages: seq<PageState>) { forall i: nat :: i < |pages| ==> pages[i].Readable? }

  predicate DistinctFamilies(papers: seq<PaperId>) {
    forall i: nat, j: nat :: i < j < |papers| ==> papers[i].family != papers[j].family
  }

  lemma FamiliesAppend(a: seq<PaperId>, b: seq<PaperId>)
    ensures Families(a + b) == Families(a) + Families(b)
  {
    forall f | f in Families(a) + Families(b) ensures f in Families(a + b) {
      if f in Families(a) {
        var p :| p in a && p.family == f;
        assert p in a + b;
      } else {
        var p :| p in b && p.family == f;
        assert p in a + b;
      }
    }
  }

  lemma DistinctAppend(head: seq<PaperId>, last: PaperId)
    ensures DistinctFamilies(head + [last]) <==> DistinctFamilies(head) && last.family !in Families(head)
  {
    var papers := head + [last];
    if DistinctFamilies(papers) {
      forall i: nat, j: nat | i < j < |head| ensures head[i].family != head[j].family {
        assert papers[i].family != papers[j].family;
      }
      forall p | p in head ensures p.family != last.family {
        var i: nat :| i < |head| && head[i] == p;
        assert papers[i].family != papers[|head|].family;
      }
    }
    if DistinctFamilies(head) && last.family !in Families(head) {
      forall i: nat, j: nat | i < j < |papers| ensures papers[i].family != papers[j].family {
        assert papers[i] in head;
      }
    }
  }

  /** There are as many families as results exactly when no two results share one. */
  lemma {:induction false} OverlapExactly(papers: seq<PaperId>)
    ensures |Families(papers)| <= |papers|
    ensures |Families(papers)| == |papers| <==> DistinctFamilies(papers)
    decreases |papers|
  {
    if papers != [] {
      var n := |papers| - 1;
      var head, last := papers[..n], papers[n];
      OverlapExactly(head);
      assert papers == head + [last];
      FamiliesAppend(head, [last]);
      DistinctAppend(head, last);
      assert Families([last]) == {last.family};
    }
  }

  /** The total that was known, or else the first one that a readable page tells. */
  function TotalOf(total: Option<nat>, pages: seq<PageState>): Option<nat>
    decreases |pages|
  {
    if pages == [] then total
    else
      var before, last := TotalOf(total, pages[..|pages| - 1]), pages[|pages| - 1];
      if before.None? && last.Readable? then last.page.total else before
  }

  lemma {:induction false} TotalOfKnown(total: Option<nat>, pages: seq<PageState>)
    requires total.Some?
    ensures TotalOf(total, pages) == total
    decreases |pages|
  {
    if pages != [] {
      TotalOfKnown(total, pages[..|pages| - 1]);
    }
  }

  /** Enough results for the part of the window from its start on. */
  predicate Enough(results: nat, start: nat, total: Option<nat>) {
    total.Some? && results + start >= total.value
  }

  /** _finalize_complete_window_target: the verdict on the pages of a window. */
  method Finalize(target: Target, pages: seq<PageState>)
    modifies target
    ensures target.total == TotalOf(old(target.total), pages)
    ensures target.coverage.Complete? <==>
              && AllReadable(pages) && DistinctFamilies(Results(pages))
              && Enough(|Families(Results(pages))|, target.start, target.total)
    ensures !target.coverage.Complete? ==> target.coverage.Partial?
    ensures target.resultCount == |Families(Results(pages))| && target.pagesTotal == |pages|
    ensures target.pagesCompleted == |pages| <==> AllReadable(pages)
    ensures target.coverage.Complete? ==> target.error.None?
    ensures AllReadable(pages) && !DistinctFamilies(Results(pages)) ==> target.error == Some(Overlap)
  {
    var results, completed, families, total := 0, 0, {}, target.total;
    var error: Option<WindowError> := None;
    for k := 0 to |pages|
      invariant results == |Results(pages[..k])| && families == Families(Results(pages[..k]))
      invariant completed <= k && (completed == k <==> AllReadable(pages[..k]))
      invariant AllReadable(pages[..k]) ==> error.None?
      invariant total == TotalOf(old(target.total), pages[..k])
    {
      assert pages[..k + 1][..k] == pages[..k] && pages[..k + 1][k] == pages[k];
      assert AllReadable(pages[..k + 1]) <==> AllReadable(pages[..k]) && pages[k].Readable? by {
        assert forall i: nat :: i < k ==> pages[..k + 1][i] == pages[..k][i];
      }
      match pages[k]
      case Readable(page) =>
        FamiliesAppend(Results(pages[..k]), page.papers);
        results := results + |page.papers|;
        families := families + (set p | p in page.papers :: p.family);
        total := if total.None? then page.total else total;
        completed := completed + 1;
      case Unreadable(category) =>
        assert Results(pages[..k + 1]) == Results(pages[..k]);
        if error.None? && category.Some? {
          error := Some(PageError(category.value));
        }
    }
    assert pages[..|pages|] == pages;
    OverlapExactly(Results(pages));
    if results > |families| && error.None? {
      error := Some(Overlap);
    }
    var complete := completed == |pages| && results == |families| && total.Some? && |families| + target.start >= total.value;
    target.coverage := if complete then Complete else Partial;
    target.resultCount, target.total := |families|, total;
    target.pagesTotal, target.pagesCompleted, target.error := |pages|, completed, error;
  }

  /** "complete" is sound: when the pages draw from a result set of total - start distinct families, a complete
      verdict means that together they hold all of it; and a window that holds it, page by page and without
      overlap, is called complete. */
  lemma CompleteIsWhole(pages: seq<PageState>, start: nat, total: nat, results: set<nat>)
    requires start <= total && |results| == total - start
    requires Families(Results(pages)) <= results
    ensures |Families(Results(pages))| + start >= total <==> Families(Results(pages)) == results
  {
    var families := Families(Results(pages));
    if |families| + start >= total {
      SubsetOfSameSize(families, results);
    }
  }

  lemma {:induction false} SubsetOfSameSize(a: set<nat>, b: set<nat>)
    requires a <= b && |a| >= |b|
    ensures a == b
    decreases |a|
  {
    if a != {} {
      var x :| x in a;
      SubsetOfSameSize(a - {x}, b - {x});
      assert a == (a - {x}) + {x} && b == (b - {x}) + {x};
    } else {
      assert |b| == 0;
    }
  }

  // ------------------------------------------------------------------ a server that does not change

  function Least(a: nat, b: nat): nat { if a <= b then a else b }

  /** Each page holds the slice of the result list that it was planned for. */
  ghost predicate Slices(pages: seq<PageState>, results: seq<PaperId>, first: nat, next: nat, m: nat) {
    && first <= next <= |results| && m >= 1
    && AllReadable(pages)
    && |pages| == 1 + FollowupPages(next, |results|, m)
    && pages[0].page.papers == results[first..next]
    && forall i: nat :: 0 < i < |pages| ==> SliceAt(pages[i], results, StartOf(next, m, i - 1), m)
  }

  ghost predicate SliceAt(page: PageState, results: seq<PaperId>, at: nat, m: nat) {
    page.Readable? && at <= |results| && page.page.papers == results[at..Least(at + m, |results|)]
  }

  /** Where page `k` starts in the list, and where the page before it ends. */
  function Bound(results: nat, first: nat, next: nat, m: nat, k: nat): nat {
    if k == 0 then first else Least(StartOf(next, m, k - 1), results)
  }

  lemma {:induction false} JoinBounded(pages: seq<PageState>, results: seq<PaperId>, bounds: seq<nat>, k: nat)
    requires k < |pages| && |bounds| == |pages| + 1 && AllReadable(pages)
    requires forall i, j :: 0 <= i <= j < |bounds| ==> bounds[i] <= bounds[j] <= |results|
    requires forall i: nat :: i < |pages| ==> pages[i].page.papers == results[bounds[i]..bounds[i + 1]]
    ensures Results(pages[..k + 1]) == results[bounds[0]..bounds[k + 1]]
    decreases k
  {
    assert pages[..k + 1][..k] == pages[..k] && pages[..k + 1][k] == pages[k];
    if k == 0 {
      assert pages[..0] == [];
    } else {
      JoinBounded(pages, results, bounds, k - 1);
      SliceJoins(results, bounds[0], bounds[k], bounds[k + 1]);
    }
  }

  lemma BoundGrows(results: nat, first: nat, next: nat, m: nat, i: nat, j: nat)
    requires i <= j && first <= next <= results
    ensures Bound(results, first, next, m, i) <= Bound(results, first, next, m, j) <= results
  {
    if 0 < i {
      assert (j - i) * m >= 0;
      assert (j - 1) * m == (i - 1) * m + (j - i) * m;
    } else if 0 < j {
      assert (j - 1) * m >= 0;
    }
  }

  /** All the bounds of `n` pages. */
  function Bounds(results: nat, first: nat, next: nat, m: nat, n: nat): (bounds: seq<nat>)
    ensures |bounds| == n + 1 && forall i :: 0 <= i <= n ==> bounds[i] == Bound(results, first, next, m, i)
  {
    seq(n + 1, (i: int) requires 0 <= i => Bound(results, first, next, m, i))
  }

  lemma BoundsGrow(results: nat, first: nat, next: nat, m: nat, n: nat)
    requires first <= next <= results
    ensures var bounds := Bounds(results, first, next, m, n);
            forall i, j :: 0 <= i <= j < |bounds| ==> bounds[i] <= bounds[j] <= results
  {
    var bounds := Bounds(results, first, next, m, n);
    forall i, j | 0 <= i <= j < |bounds| ensures bounds[i] <= bounds[j] <= results {
      BoundGrows(results, first, next, m, i, j);
    }
  }

  /** The pages joined are the list from the first result to where the last page ends. */
  lemma SlicesJoin(pages: seq<PageState>, results: seq<PaperId>, first: nat, next: nat, m: nat)
    requires Slices(pages, results, first, next, m)
    ensures Results(pages) == results[first..Bound(|results|, first, next, m, |pages|)]
  {
    var bounds := Bounds(|results|, first, next, m, |pages|);
    BoundsGrow(|results|, first, next, m, |pages|);
    forall i: nat | i < |pages| ensures pages[i].page.papers == results[bounds[i]..bounds[i + 1]] {
      PageFits(pages, results, first, next, m, i);
    }
    JoinBounded(pages, results, bounds, |pages| - 1);
    assert pages[..|pages|] == pages;
  }

  lemma PageFits(pages: seq<PageState>, results: seq<PaperId>, first: nat, next: nat, m: nat, i: nat)
    requires Slices(pages, results, first, next, m) && i < |pages|
    ensures Bound(|results|, first, next, m, i) <= Bound(|results|, first, next, m, i + 1) <= |results|
    ensures pages[i].page.papers == results[Bound(|results|, first, next, m, i)..Bound(|results|, first, next, m, i + 1)]
  {
    BoundGrows(|results|, first, next, m, i, i + 1);
    if i > 0 {
      assert SliceAt(pages[i], results, StartOf(next, m, i - 1), m);
      NextStart(next, m, i);
    }
  }

  lemma NextStart(next: nat, m: nat, k: nat)
    requires k > 0
    ensures StartOf(next, m, k) == StartOf(next, m, k - 1) + m
  {
  }

  lemma SliceJoins(results: seq<PaperId>, a: nat, b: nat, c: nat)
    requires a <= b <= c <= |results|
    ensures results[a..b] + results[b..c] == results[a..c]
  {
  }

  lemma LastPageReaches(next: nat, total: nat, m: nat)
    requires m >= 1
    ensures StartOf(next, m, FollowupPages(next, total, m)) >= total
  {
    var rest := if total > next then total - next else 0;
    Quotient(rest + m - 1, m, FollowupPages(next, total, m));
  }

  /** When every planned page comes back as its slice of one fixed result list of distinct families, the pages hold
      the list from the first result on, in order, and the verdict is "complete". */
  lemma FixedResultsAreComplete(pages: seq<PageState>, results: seq<PaperId>, first: nat, next: nat, m: nat)
    requires Slices(pages, results, first, next, m) && DistinctFamilies(results)
    ensures Results(pages) == results[first..]
    ensures AllReadable(pages) && DistinctFamilies(Results(pages))
    ensures |Families(Results(pages))| + first == |results|
  {
    var k := |pages| - 1;
    SlicesJoin(pages, results, first, next, m);
    LastPageReaches(next, |results|, m);
    assert results[first..|results|] == results[first..];
    DistinctTail(results, first);
    OverlapExactly(results[first..]);
  }

  lemma DistinctTail(papers: seq<PaperId>, first: nat)
    requires DistinctFamilies(papers) && first <= |papers|
    ensures DistinctFamilies(papers[first..])
  {
  }
}
