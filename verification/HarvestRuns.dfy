/** What a harvest promises over whole runs: however owners crash, overtake each other and resume, the job
    is the sum of the pages committed, no token is consumed twice, I/O stays within the request budget, and a
    deterministic server leads every run to the result of one that nobody interrupted. */
module HarvestRuns {
  import opened Common
  import opened Harvest
  import opened HarvestInvariants

  // ------------------------------------------------------------------ counters are sums

  /** The records of the pages, one after the other. */
  function AllRecords(pages: seq<Page>): seq<Record>
    decreases |pages|
  {
    if pages == [] then [] else AllRecords(pages[..|pages| - 1]) + pages[|pages| - 1].records
  }

  lemma {:induction false} CountsAdd(a: seq<Record>, b: seq<Record>, stamp: Option<Day>, w: World)
    ensures Upserted(a + b) == Upserted(a) + Upserted(b)
    ensures Deleted(a + b) == Deleted(a) + Deleted(b)
    ensures MaxStamp(a + b, stamp) == MaxStamp(b, MaxStamp(a, stamp))
    ensures ApplyRecords(w, a + b) == ApplyRecords(ApplyRecords(w, a), b)
    decreases |b|
  {
    if b == [] {
      assert a + b == a;
    } else {
      var n := |b| - 1;
      assert (a + b)[..|a + b| - 1] == a + b[..n];
      CountsAdd(a, b[..n], stamp, w);
    }
  }

  /** Harvesting page by page is reading all the records at once. */
  lemma {:induction false} PagesAddUp(token: Option<Token>, pages: seq<Page>, w: World)
    ensures var p, rs := Snap(token, pages), AllRecords(pages);
            && p.pages == |pages|
            && p.processed == |rs| && p.upserted == Upserted(rs) && p.deleted == Deleted(rs)
            && p.stamp == MaxStamp(rs, None)
            && p.cursor == ConsumedAt(token, pages, |pages|)
            && WorldAfter(w, pages) == ApplyRecords(w, rs)
    decreases |pages|
  {
    if pages != [] {
      var n := |pages| - 1;
      PagesAddUp(token, pages[..n], w);
      CountsAdd(AllRecords(pages[..n]), pages[n].records, None, w);
    }
  }

  /** MaxStamp is the latest date of any record. */
  lemma {:induction false} StampIsLatest(rs: seq<Record>)
    ensures MaxStamp(rs, None).None? <==> forall r :: r in rs ==> r.stamp.None?
    ensures forall r :: r in rs && r.stamp.Some? ==> r.stamp.value <= MaxStamp(rs, None).value
    ensures MaxStamp(rs, None).Some? ==> exists r :: r in rs && r.stamp == MaxStamp(rs, None)
    decreases |rs|
  {
    if rs != [] {
      var n := |rs| - 1;
      StampIsLatest(rs[..n]);
      assert rs == rs[..n] + [rs[n]];
      assert rs[n] in rs;
      if MaxStamp(rs, None) == rs[n].stamp {
      } else if MaxStamp(rs[..n], None).Some? {
        var r :| r in rs[..n] && r.stamp == MaxStamp(rs[..n], None);
        assert r in rs;
      }
    }
  }

  /** While the job runs, whoever owns it, its columns are the sums over the pages committed so far, its cursor is
      the next token of the last of them, and the papers are those its records give. */
  lemma RunningJobSumsItsPages(req: Request, ss: seq<Sys>, acts: seq<Act>, i: nat)
    requires IsRun(req, ss, acts) && i < |ss|
    ensures var s := ss[i];
            var rs := AllRecords(s.commits);
            && s.world == ApplyRecords(ss[0].world, rs)
            && (s.job.status.Running? ==>
                && s.job.progress.pages == |s.commits|
                && s.job.progress.processed == |rs|
                && s.job.progress.upserted == Upserted(rs)
                && s.job.progress.deleted == Deleted(rs)
                && s.job.progress.stamp == MaxStamp(rs, None)
                && s.job.progress.cursor == ConsumedAt(req.token, s.commits, |s.commits|)
                && (s.job.finished <==> PagedOut(s.commits)))
  {
    RunKeeps(req, ss, acts, i);
    PagesAddUp(req.token, ss[i].commits, ss[0].world);
  }

  /** Each page is committed once, in order: a step commits the page its actor received as the next one, or leaves
      pages, counters, cursor, papers and page rows alone. */
  lemma CommitsAreOneByOne(req: Request, ss: seq<Sys>, acts: seq<Act>, i: nat)
    requires IsRun(req, ss, acts) && i < |acts| && acts[i].step.Commits?
    ensures var s, s', pc := ss[i], ss[i + 1], PcOf(ss[i], acts[i].actor);
            if s.job.status.Running? && pc.at.progress.pages == |s.commits|
            then s'.commits == s.commits + [pc.page] && s'.job.progress.pages == |s.commits| + 1
            else s' == s.(pcs := s.pcs[acts[i].actor := Over])
  {
    var s, pc := ss[i], PcOf(ss[i], acts[i].actor);
    RunKeeps(req, ss, acts, i);
    assert PcOk(req, s.commits, pc);
    SnapCursor(req.token, s.commits);
    assert s.commits[..|s.commits|] == s.commits;
    if s.job.status.Running? && pc.at.progress.pages == |s.commits| {
      assert CursorMatches(s.job, pc.at);
    }
  }

  // ------------------------------------------------------------------ tokens

  /** No two pages consumed the same token. */
  ghost predicate TokensDistinct(token: Option<Token>, cs: seq<Page>) {
    forall i: nat, j: nat :: i < j < |cs| ==> ConsumedAt(token, cs, i) != ConsumedAt(token, cs, j)
  }

  lemma CleanTokensDistinct(token: Option<Token>, cs: seq<Page>)
    requires Clean(token, cs)
    ensures TokensDistinct(token, cs)
    ensures forall j: nat :: 0 < j < |cs| ==> ConsumedAt(token, cs, j).Some?
  {
    forall j: nat | 0 < j < |cs|
      ensures ConsumedAt(token, cs, j).Some?
      ensures forall i: nat :: i < j ==> ConsumedAt(token, cs, i) != ConsumedAt(token, cs, j)
    {
      var head := cs[..j];
      assert Open(token, head);
      assert head[|head| - 1] == cs[j - 1];
      forall i: nat | i < j ensures ConsumedAt(token, cs, i) != ConsumedAt(token, cs, j) {
        assert ConsumedAt(token, head, i) == ConsumedAt(token, cs, i);
        if i < j - 1 && ConsumedAt(token, cs, i).Some? {
          assert ConsumedAt(token, cs, i).value in ConsumedBy(token, head, j - 1);
        }
      }
    }
  }

  /** Tokens consumed by committed pages are pairwise distinct, in every state that owners can bring about. */
  lemma NoTokenIsConsumedTwice(req: Request, ss: seq<Sys>, acts: seq<Act>, i: nat)
    requires IsRun(req, ss, acts) && i < |ss|
    ensures TokensDistinct(req.token, ss[i].commits)
  {
    RunKeeps(req, ss, acts, i);
    CleanTokensDistinct(req.token, ss[i].commits);
  }

  lemma {:induction false} DistinctTokensCount(token: Option<Token>, cs: seq<Page>, n: nat, tokens: set<Token>)
    requires TokensDistinct(token, cs) && n <= |cs|
    requires forall j: nat :: 0 < j < |cs| ==> ConsumedAt(token, cs, j).Some?
    requires forall j: nat :: 0 < j < n ==> ConsumedAt(token, cs, j).value in tokens
    ensures n <= |tokens| + 1
    decreases n
  {
    if n > 1 {
      var t := ConsumedAt(token, cs, n - 1).value;
      DistinctTokensCount(token, cs, n - 1, tokens - {t});
    }
  }

  /** Against a server with finitely many tokens no run commits more pages than there are tokens, plus the first. */
  lemma PagesAreBounded(req: Request, ss: seq<Sys>, acts: seq<Act>, i: nat, tokens: set<Token>)
    requires IsRun(req, ss, acts) && i < |ss|
    requires forall k: nat :: k < |acts| && acts[k].step.Receives? && acts[k].step.page.next.Some?
                              ==> acts[k].step.page.next.value in tokens
    ensures |ss[i].commits| <= |tokens| + 1
    ensures |ss[i].commits| <= req.maxPages
  {
    RunKeeps(req, ss, acts, i);
    CleanTokensDistinct(req.token, ss[i].commits);
    TokensCome(req, ss, acts, i, tokens);
    DistinctTokensCount(req.token, ss[i].commits, |ss[i].commits|, tokens);
  }

  predicate NextIn(page: Page, tokens: set<Token>) { page.next.Some? ==> page.next.value in tokens }

  lemma {:induction false} TokensCome(req: Request, ss: seq<Sys>, acts: seq<Act>, i: nat, tokens: set<Token>)
    requires IsRun(req, ss, acts) && i < |ss|
    requires forall k: nat :: k < |acts| && acts[k].step.Receives? && acts[k].step.page.next.Some?
                              ==> acts[k].step.page.next.value in tokens
    ensures forall k: nat :: k < |ss[i].commits| ==> NextIn(ss[i].commits[k], tokens)
    ensures forall o: Owner :: o in ss[i].pcs && ss[i].pcs[o].Got? ==> NextIn(ss[i].pcs[o].page, tokens)
    decreases i
  {
    if i > 0 {
      TokensCome(req, ss, acts, i - 1, tokens);
      PagesMove(req, ss[i - 1], acts[i - 1]);
    }
  }

  /** A page is held by the owner that received it, and committed by the owner that holds it. */
  lemma PagesMove(req: Request, s: Sys, a: Act)
    requires Enabled(s, a)
    ensures Goes(req, s, a).Got? ==> a.step.Receives? && Goes(req, s, a) == Got(PcOf(s, a.actor).at, a.step.page)
    ensures Effect(req, s, a).commits == s.commits
            || (PcOf(s, a.actor).Got? && CursorMatches(s.job, PcOf(s, a.actor).at)
                && Effect(req, s, a).commits == s.commits + [PcOf(s, a.actor).page])
  {
  }

  // ------------------------------------------------------------------ when a page lets the harvest go on

  /** The last page's next token is one that some page consumed, itself included. */
  ghost predicate ComesBack(token: Option<Token>, pages: seq<Page>)
    requires pages != []
  {
    exists i: nat :: i < |pages| && ConsumedAt(token, pages, i) == pages[|pages| - 1].next
  }

  lemma ConsumedByExactly(token: Option<Token>, pages: seq<Page>, n: nat, t: Token)
    requires n <= |pages|
    ensures t in ConsumedBy(token, pages, n) <==> exists i: nat :: i < n && ConsumedAt(token, pages, i) == Some(t)
  {
    if t in ConsumedBy(token, pages, n) {
      var i: nat :| i < n && ConsumedAt(token, pages, i).Some? && ConsumedAt(token, pages, i).value == t;
      assert ConsumedAt(token, pages, i) == Some(t);
    }
    if exists i: nat :: i < n && ConsumedAt(token, pages, i) == Some(t) {
      var i: nat :| i < n && ConsumedAt(token, pages, i) == Some(t);
      assert ConsumedAt(token, pages, i).value in ConsumedBy(token, pages, n);
    }
  }

  /** A further page follows exactly when the last page names a next token, has a record, and its token was consumed
      by no page so far. */
  lemma GoesOnExactly(token: Option<Token>, pages: seq<Page>)
    requires pages != []
    ensures var last := pages[|pages| - 1];
            Open(token, pages) <==> last.next.Some? && |last.records| > 0 && !ComesBack(token, pages)
  {
    var n := |pages| - 1;
    var last := pages[n];
    if last.next.Some? {
      ConsumedByExactly(token, pages, n, last.next.value);
      if ConsumedAt(token, pages, n) == last.next {
        assert ComesBack(token, pages);
      } else if last.next.value in ConsumedBy(token, pages, n) {
        var i: nat :| i < n && ConsumedAt(token, pages, i) == last.next;
        assert ComesBack(token, pages);
      }
    }
  }

  /** And which error is reported: the page's own token repeated, the token of an earlier page, or, when the token is
      new, a page without records. A page without a next token is never an error. */
  lemma ErrorsExactly(token: Option<Token>, pages: seq<Page>)
    requires pages != []
    ensures var n, last := |pages| - 1, pages[|pages| - 1];
            var own, earlier := ConsumedAt(token, pages, n) == last.next,
                                exists i: nat :: i < n && ConsumedAt(token, pages, i) == last.next;
            && (last.next.None? ==> LastFailure(token, pages).None?)
            && (LastFailure(token, pages) == Some(Repeated) <==> last.next.Some? && own)
            && (LastFailure(token, pages) == Some(Cycle) <==> last.next.Some? && !own && earlier)
            && (LastFailure(token, pages) == Some(NoProgress) <==> last.next.Some? && !own && !earlier && last.records == [])
  {
    var n := |pages| - 1;
    if pages[n].next.Some? {
      ConsumedByExactly(token, pages, n, pages[n].next.value);
    }
  }

  /** A server that does its part: a page with a next token has records, and no chain of its pages comes back to a
      token. */
  ghost predicate Healthy(server: Option<Token> -> Page, token: Option<Token>) {
    && (forall t: Option<Token> :: server(t).next.Some? ==> |server(t).records| > 0)
    && (forall pages: seq<Page> :: pages != [] && Served(server, token, pages) && pages[|pages| - 1].next.Some?
                                   ==> !ComesBack(token, pages))
  }

  lemma HealthyNeverFails(server: Option<Token> -> Page, token: Option<Token>, pages: seq<Page>)
    requires Healthy(server, token) && Served(server, token, pages)
    ensures LastFailure(token, pages).None?
  {
    if pages != [] && pages[|pages| - 1].next.Some? {
      GoesOnExactly(token, pages);
    }
  }

  // ------------------------------------------------------------------ requests

  /** Network I/O counted at the fence never exceeds the request budget, whoever does it; and the durable counter
      never falls behind it while the job runs. */
  lemma IoStaysInBudget(req: Request, ss: seq<Sys>, acts: seq<Act>, i: nat)
    requires IsRun(req, ss, acts) && i < |ss|
    ensures ss[i].io <= req.maxRequests
    ensures ss[i].job.status.Running? ==> ss[i].io <= ss[i].job.requests
  {
    RunKeepsIo(req, ss, acts, i);
  }

  // ------------------------------------------------------------------ a deterministic server

  /** Every page received is the one the server has for the token it was asked with. */
  ghost predicate Answers(server: Option<Token> -> Page, ss: seq<Sys>, acts: seq<Act>)
    requires |ss| == |acts| + 1
  {
    forall k: nat :: k < |acts| && acts[k].step.Receives? && PcOf(ss[k], acts[k].actor).Fetching?
                     ==> acts[k].step.page == server(PcOf(ss[k], acts[k].actor).at.progress.cursor)
  }

  ghost predicate Served(server: Option<Token> -> Page, token: Option<Token>, cs: seq<Page>) {
    forall k: nat :: k < |cs| ==> cs[k] == server(ConsumedAt(token, cs, k))
  }

  ghost predicate Holding(server: Option<Token> -> Page, pc: Pc) {
    pc.Got? ==> pc.page == server(pc.at.progress.cursor)
  }

  lemma {:induction false} RunIsServed(server: Option<Token> -> Page, req: Request, ss: seq<Sys>, acts: seq<Act>, i: nat)
    requires IsRun(req, ss, acts) && i < |ss| && Answers(server, ss, acts)
    ensures Served(server, req.token, ss[i].commits)
    ensures forall o: Owner :: o in ss[i].pcs ==> Holding(server, ss[i].pcs[o])
    decreases i
  {
    if i > 0 {
      var s, a := ss[i - 1], acts[i - 1];
      RunKeeps(req, ss, acts, i - 1);
      RunIsServed(server, req, ss, acts, i - 1);
      PagesMove(req, s, a);
      if ss[i].commits != s.commits {
        var pc := PcOf(s, a.actor);
        assert PcOk(req, s.commits, pc) && Holding(server, pc);
        CurrentOwner(req, s.commits, s.job, pc.at);
        ServedGrows(server, req.token, s.commits, pc.page);
      }
      assert Holding(server, Goes(req, s, a));
    }
  }

  lemma ServedGrows(server: Option<Token> -> Page, token: Option<Token>, cs: seq<Page>, page: Page)
    requires Served(server, token, cs) && page == server(ConsumedAt(token, cs, |cs|))
    ensures Served(server, token, cs + [page])
  {
    forall k: nat | k < |cs| + 1 ensures (cs + [page])[k] == server(ConsumedAt(token, cs + [page], k)) {
      assert ConsumedAt(token, cs + [page], k) == ConsumedAt(token, cs, k);
    }
  }

  lemma {:induction false} ServedPrefix(server: Option<Token> -> Page, token: Option<Token>, cs: seq<Page>, ds: seq<Page>, n: nat)
    requires Served(server, token, cs) && Served(server, token, ds)
    requires n <= |cs| && n <= |ds|
    ensures cs[..n] == ds[..n]
    decreases n
  {
    if n > 0 {
      ServedPrefix(server, token, cs, ds, n - 1);
      if n > 1 {
        assert cs[..n - 1][n - 2] == ds[..n - 1][n - 2];
      }
      assert ConsumedAt(token, cs, n - 1) == ConsumedAt(token, ds, n - 1);
      assert cs[..n] == cs[..n - 1] + [cs[n - 1]];
    }
  }

  /** Page sequences that both ran to the end are the same. */
  lemma EndsAgree(server: Option<Token> -> Page, token: Option<Token>, cs: seq<Page>, ds: seq<Page>)
    requires Served(server, token, cs) && Clean(token, cs) && !Open(token, cs)
    requires Served(server, token, ds) && Clean(token, ds) && !Open(token, ds)
    ensures cs == ds
  {
    var n := if |cs| < |ds| then |cs| else |ds|;
    ServedPrefix(server, token, cs, ds, n);
    assert cs[..|cs|] == cs && ds[..|ds|] == ds;
  }

  /** What a harvest that ran to its end reports. */
  function OutcomeOf(token: Option<Token>, cs: seq<Page>): Status {
    if LastFailure(token, cs).Some? then FailedToken(LastFailure(token, cs).value) else Completed
  }

  predicate Ended(status: Status) { status.Completed? || status.FailedToken? }

  lemma HealthyCompletes(server: Option<Token> -> Page, token: Option<Token>, pages: seq<Page>)
    requires Served(server, token, pages)
    ensures Healthy(server, token) ==> OutcomeOf(token, pages).Completed?
  {
    if Healthy(server, token) {
      HealthyNeverFails(server, token, pages);
    }
  }

  /** What one more page of the server adds to all that a harvest keeps. */
  lemma NextPage(server: Option<Token> -> Page, token: Option<Token>, pages: seq<Page>, page: Page, w: World)
    requires Served(server, token, pages) && Clean(token, pages) && Open(token, pages)
    requires page == server(Snap(token, pages).cursor)
    ensures var more, cursor, consumed := pages + [page], Snap(token, pages).cursor, ConsumedBy(token, pages, |pages|);
            && Served(server, token, more) && Clean(token, more)
            && Snap(token, more) == Advance(Snap(token, pages), page)
            && LastFailure(token, more) == TokenErrorOf(|page.records|, cursor, page.next, consumed)
            && PagedOut(more) == page.next.None?
            && ConsumedBy(token, more, |more|) == consumed + (if cursor.Some? then {cursor.value} else {})
            && WorldAfter(w, more) == ApplyRecords(WorldAfter(w, pages), page.records)
  {
    var consumed := ConsumedBy(token, pages, |pages|);
    SnapCursor(token, pages);
    CommittedSnap(token, pages, page, Local(Snap(token, pages), 0, consumed), consumed);
    ConsumedNext(token, pages, page);
    CleanGrows(token, pages, page);
    ServedGrows(server, token, pages, page);
    WorldGrows(w, pages, page);
  }

  /** Pages of a server with finitely many tokens that went on after each but the last. */
  lemma FewPages(server: Option<Token> -> Page, token: Option<Token>, pages: seq<Page>, tokens: set<Token>)
    requires forall t: Option<Token> :: NextIn(server(t), tokens)
    requires Served(server, token, pages) && Clean(token, pages)
    ensures |pages| <= |tokens| + 1
  {
    CleanTokensDistinct(token, pages);
    forall j: nat | 0 < j < |pages| ensures ConsumedAt(token, pages, j).value in tokens {
      assert NextIn(server(ConsumedAt(token, pages, j - 1)), tokens);
      assert pages[j - 1] == server(ConsumedAt(token, pages, j - 1));
    }
    DistinctTokensCount(token, pages, |pages|, tokens);
  }

  /** The variables of the page loop once a page was committed. */
  method AfterPage(progress: Progress, page: Page) returns (next: Progress)
    ensures next == Advance(progress, page)
  {
    next := Progress(progress.pages + 1, progress.processed + |page.records|,
                     progress.upserted + Upserted(page.records), progress.deleted + Deleted(page.records),
                     page.next, Or(page.responseDay, progress.response), MaxStamp(page.records, progress.stamp));
  }

  /** The page loop with one owner that nobody interrupts. `trouble` is what befalls the request of a page: nothing, a
      refusal of the limiter, a spent runtime budget or an upstream failure. The loop ends whatever the budgets,
      because each page after the first consumes a token that was not consumed before; it stops short exactly at a
      budget or at trouble, and with neither it reports what the server's pages say. */
  method HarvestUninterrupted(server: Option<Token> -> Page, trouble: nat -> Option<nat>, maxPages: nat, maxRequests: nat,
                              token: Option<Token>, ghost w: World, ghost tokens: set<Token>)
    returns (pages: seq<Page>, progress: Progress, outcome: Status, ghost world: World)
    requires forall t: Option<Token> :: NextIn(server(t), tokens)
    ensures Served(server, token, pages) && Clean(token, pages)
    ensures progress == Snap(token, pages) && world == WorldAfter(w, pages)
    ensures outcome.Stopped? <==> Open(token, pages)
    ensures outcome.Stopped? ==> |pages| >= maxPages || |pages| >= maxRequests || trouble(|pages|).Some?
    ensures !outcome.Stopped? ==> outcome == OutcomeOf(token, pages)
    ensures maxPages > |tokens| + 1 && maxRequests > |tokens| + 1 && (forall k: nat :: trouble(k).None?) ==> !outcome.Stopped?
    ensures Healthy(server, token) ==> outcome.Completed? || outcome.Stopped?
  {
    pages, world, progress := [], w, Fresh(token);
    var requests: nat, consumed: set<Token>, finishedPaging := 0, {}, false;
    while !finishedPaging
      invariant Served(server, token, pages) && Clean(token, pages)
      invariant LastFailure(token, pages).None? && finishedPaging == PagedOut(pages)
      invariant progress == Snap(token, pages) && requests == progress.pages == |pages|
      invariant consumed == ConsumedBy(token, pages, |pages|)
      invariant world == WorldAfter(w, pages)
      invariant pages != [] && !finishedPaging ==> progress.cursor.Some? && progress.cursor.value in tokens - consumed
      decreases if pages == [] then 1 else 0, !finishedPaging, tokens - consumed
    {
      if progress.pages >= maxPages || requests >= maxRequests || trouble(progress.pages).Some? {
        FewPages(server, token, pages, tokens);
        outcome := Stopped(if trouble(progress.pages).Some? then trouble(progress.pages).value else 0);
        return;
      }
      requests := requests + 1;
      var cursor := progress.cursor;
      var page := server(cursor);
      var error := TokenErrorOf(|page.records|, cursor, page.next, consumed);
      NextPage(server, token, pages, page, w);
      world := ApplyRecords(world, page.records);
      pages := pages + [page];
      progress := AfterPage(progress, page);
      if cursor.Some? {
        consumed := consumed + {cursor.value};
      }
      if error.Some? {
        HealthyCompletes(server, token, pages);
        outcome := FailedToken(error.value);
        return;
      }
      finishedPaging := page.next.None?;
    }
    outcome := Completed;
  }

  lemma PrefixOfEnd(server: Option<Token> -> Page, token: Option<Token>, cs: seq<Page>, alone: seq<Page>)
    requires Served(server, token, cs) && Clean(token, cs)
    requires Served(server, token, alone) && !Open(token, alone)
    ensures cs <= alone
  {
    var n := if |cs| < |alone| then |cs| else |alone|;
    ServedPrefix(server, token, cs, alone, n);
    assert cs[..|cs|] == cs && alone[..|alone|] == alone;
  }

  /** A job that ended has all its pages. */
  lemma EndIsClosed(token: Option<Token>, cs: seq<Page>, job: Job)
    requires JobOk(token, cs, job) && Ended(job.status)
    ensures !Open(token, cs)
    ensures job.status == OutcomeOf(token, cs) && job.progress == Snap(token, cs)
  {
  }

  /** Crash refinement. Against a deterministic server every run whose job ends, interrupted and resumed anywhere by
      anyone, has committed the pages of the uninterrupted run, with its counters, outcome, papers and watermark. */
  lemma CrashesChangeNothing(server: Option<Token> -> Page, req: Request, ss: seq<Sys>, acts: seq<Act>, i: nat, alone: seq<Page>)
    requires IsRun(req, ss, acts) && i < |ss| && Answers(server, ss, acts)
    requires Served(server, req.token, alone) && Clean(req.token, alone) && !Open(req.token, alone)
    ensures ss[i].commits <= alone
    ensures Ended(ss[i].job.status) ==>
              && ss[i].commits == alone
              && ss[i].job.status == OutcomeOf(req.token, alone)
              && ss[i].job.progress == Snap(req.token, alone)
              && ss[i].world == WorldAfter(ss[0].world, alone)
              && (ss[i].job.status.Completed? ==> ss[i].mark == MarkAfter(req, alone, ss[0].mark))
  {
    var s := ss[i];
    RunKeeps(req, ss, acts, i);
    RunIsServed(server, req, ss, acts, i);
    PrefixOfEnd(server, req.token, s.commits, alone);
    if Ended(s.job.status) {
      EndIsClosed(req.token, s.commits, s.job);
      EndsAgree(server, req.token, s.commits, alone);
    }
  }

  // ------------------------------------------------------------------ a job that ended

  /** An owner that gave up, on a budget or a failure, and now writes that. */
  predicate GivesUp(s: Sys, a: Act) {
    a.step.Finishes? && PcOf(s, a.actor).Failing? && PcOf(s, a.actor).outcome.Stopped?
  }

  /** The exact condition under which an ended job keeps its row: any step of any owner leaves it alone, except the
      finish of an owner that gave up, which asks for no status and always overwrites it. */
  lemma EndedJobChangesExactly(req: Request, ss: seq<Sys>, acts: seq<Act>, i: nat)
    requires IsRun(req, ss, acts) && i < |acts| && Ended(ss[i].job.status)
    ensures ss[i + 1].job == ss[i].job <==> !GivesUp(ss[i], acts[i])
  {
    var s, a := ss[i], acts[i];
    RunKeeps(req, ss, acts, i);
    assert PcOk(req, s.commits, PcOf(s, a.actor));
    if a.step.Finishes? {
      EndedFinish(req, s.commits, s.job, PcOf(s, a.actor));
    } else {
      OnlyRunningJobsMove(req, s, a);
    }
  }

  lemma OnlyRunningJobsMove(req: Request, s: Sys, a: Act)
    requires Enabled(s, a) && !a.step.Finishes? && !s.job.status.Running?
    ensures Effect(req, s, a).job == s.job
  {
  }

  lemma EndedFinish(req: Request, cs: seq<Page>, job: Job, pc: Pc)
    requires JobOk(req.token, cs, job) && Ended(job.status) && PcOk(req, cs, pc) && (pc.Marked? || pc.Failing?)
    ensures var job' := if pc.Marked? then Finished(job, Completed, pc.at, pc.at.progress.pages, None)
                        else Finished(job, pc.outcome, pc.at, pc.pages, pc.at.progress.cursor);
            job' == job <==> !(pc.Failing? && pc.outcome.Stopped?)
  {
    SnapCursor(req.token, cs);
    assert cs[..|cs|] == cs;
  }

  /** While nobody who gave up finishes, an ended job stays as it is. */
  lemma {:induction false} EndedJobStays(req: Request, ss: seq<Sys>, acts: seq<Act>, i: nat, j: nat)
    requires IsRun(req, ss, acts) && i <= j < |ss| && Ended(ss[i].job.status)
    requires forall k :: i <= k < j ==> !GivesUp(ss[k], acts[k])
    ensures ss[j].job == ss[i].job
    decreases j
  {
    if i < j {
      EndedJobStays(req, ss, acts, i, j - 1);
      EndedJobChangesExactly(req, ss, acts, j - 1);
    }
  }

  /** A summary of the first `n` committed pages, with the page that was tried after them counted or not. */
  ghost predicate Tells(token: Option<Token>, cs: seq<Page>, p: Progress, n: nat) {
    && n <= |cs| && n <= p.pages <= n + 1
    && var snap := Snap(token, cs[..n]);
       && p.processed == snap.processed && p.upserted == snap.upserted && p.deleted == snap.deleted
       && p.cursor == ConsumedAt(token, cs, n)
  }

  /** A job that was stopped, by whomever, tells the counters of some of its committed pages, from the first on, and the
      token of the page to go on with; its dates are those of all of them. */
  lemma {:induction false} StoppedJobTellsAPrefix(req: Request, ss: seq<Sys>, acts: seq<Act>, i: nat)
    requires IsRun(req, ss, acts) && i < |ss| && ss[i].job.status.Stopped?
    ensures exists n: nat :: Tells(req.token, ss[i].commits, ss[i].job.progress, n)
    ensures var snap := Snap(req.token, ss[i].commits);
            ss[i].job.progress.response == snap.response && ss[i].job.progress.stamp == snap.stamp
    decreases i
  {
    RunKeeps(req, ss, acts, i);
    if i > 0 {
      RunKeeps(req, ss, acts, i - 1);
      StopComesFrom(req, ss[i - 1], acts[i - 1]);
      if ss[i - 1].job.status.Stopped? && ss[i].job == ss[i - 1].job {
        StoppedJobTellsAPrefix(req, ss, acts, i - 1);
      }
    }
  }

  /** A job is stopped by a finish, which tells what its owner believed, or was stopped before. */
  lemma StopComesFrom(req: Request, s: Sys, a: Act)
    requires Enabled(s, a) && PcsOk(req, s.commits, s.pcs) && Effect(req, s, a).job.status.Stopped?
    ensures Effect(req, s, a).commits == s.commits
    ensures (s.job.status.Stopped? && Effect(req, s, a).job == s.job)
            || exists n: nat :: Tells(req.token, s.commits, Effect(req, s, a).job.progress, n)
  {
    if a.step.Finishes? {
      assert a.actor in s.pcs && PcOk(req, s.commits, s.pcs[a.actor]);
      StopTells(req, s.commits, s.job, PcOf(s, a.actor));
    } else {
      StatusStays(req, s, a);
      OnlyRunningJobsMove(req, s, a);
    }
  }

  lemma StopTells(req: Request, cs: seq<Page>, job: Job, pc: Pc)
    requires PcOk(req, cs, pc) && pc.Failing? && pc.outcome.Stopped?
    ensures Tells(req.token, cs, Finished(job, pc.outcome, pc.at, pc.pages, pc.at.progress.cursor).progress, pc.at.progress.pages)
  {
    var n := pc.at.progress.pages;
    SnapCursor(req.token, cs[..n]);
    assert ConsumedAt(req.token, cs[..n], n) == ConsumedAt(req.token, cs, n);
  }

  lemma StatusStays(req: Request, s: Sys, a: Act)
    requires Enabled(s, a) && !a.step.Finishes?
    ensures Effect(req, s, a).job.status == s.job.status
  {
  }

  /** The page loop goes on exactly while the owner's lease is its own and no budget of the request is used up. */
  lemma WithinBudgetExactly(req: Request, s: Sys, a: Act)
    requires Enabled(s, a) && a.step.Renews?
    ensures var at, pc := PcOf(s, a.actor).at, PcOf(Next(req, s, a), a.actor);
            && (pc.Budgeted? <==>
                && SCOPE in s.leases && s.leases[SCOPE].owner == a.actor
                && at.progress.pages < req.maxPages && at.requests < req.maxRequests && !a.step.pastDeadline)
            && (pc.Failing? <==>
                && SCOPE in s.leases && s.leases[SCOPE].owner == a.actor
                && (at.progress.pages >= req.maxPages || at.requests >= req.maxRequests || a.step.pastDeadline))
  {
  }

  // ------------------------------------------------------------------ the watermark

  /** The watermark moves only for an unbounded request all of whose pages are committed, and then each component
      to the later of what it was and what the pages gave; doing it again after a crash moves nothing. */
  lemma WatermarkMovesOnce(req: Request, ss: seq<Sys>, acts: seq<Act>, i: nat)
    requires IsRun(req, ss, acts) && i < |ss|
    ensures ss[i].mark != ss[0].mark ==>
              && req.unbounded && PagedOut(ss[i].commits) && LastFailure(req.token, ss[i].commits).None?
              && ss[i].mark == MarkAfter(req, ss[i].commits, ss[0].mark)
    ensures ss[i].job.status.Completed? && req.unbounded ==> ss[i].mark == MarkAfter(req, ss[i].commits, ss[0].mark)
  {
    RunKeeps(req, ss, acts, i);
  }
}
