/** What every step of a harvest keeps, whoever takes it: the durable job is a summary of the committed pages,
    what each owner believes is a summary of a prefix of them, and network I/O stays within the request budget. */
module HarvestInvariants {
  import opened Common
  import opened Harvest
  import L = Leases

  // ------------------------------------------------------------------ the invariant

  /** A further page may follow these. */
  predicate Open(token: Option<Token>, pages: seq<Page>) {
    LastFailure(token, pages).None? && !PagedOut(pages)
  }

  /** No page was committed after the last one or after a token error. */
  ghost predicate Clean(token: Option<Token>, pages: seq<Page>) {
    forall k: nat :: k < |pages| ==> Open(token, pages[..k])
  }

  ghost predicate RowsOk(token: Option<Token>, cs: seq<Page>, rows: map<nat, PageRow>) {
    && (forall i: nat :: i in rows ==> i <= |cs| && rows[i].hash == ConsumedAt(token, cs, i))
    && (forall i: nat :: i < |cs| ==> i in rows)
  }

  ghost predicate JobOk(token: Option<Token>, cs: seq<Page>, job: Job) {
    var snap := Snap(token, cs);
    && job.progress.response == snap.response
    && job.progress.stamp == snap.stamp
    && match job.status
       case Running => job.progress == snap && job.finished == PagedOut(cs) && job.failure == LastFailure(token, cs)
       case Completed => job.progress == snap && PagedOut(cs) && LastFailure(token, cs).None? && job.failure.None?
       case FailedToken(e) => job.progress == snap && LastFailure(token, cs) == Some(e) && job.failure == Some(e)
       case Stopped(_) => true
  }

  /** What an owner believes was true after some prefix of the committed pages. */
  ghost predicate Believes(token: Option<Token>, cs: seq<Page>, at: Local) {
    && at.progress.pages <= |cs|
    && at.progress == Snap(token, cs[..at.progress.pages])
  }

  /** The tokens an owner holds as consumed: those its pages consumed for sure; perhaps its own cursor and
      later ones, when a page row beyond its prefix was there to be read. */
  ghost predicate SeenOk(token: Option<Token>, cs: seq<Page>, at: Local)
    requires at.progress.pages <= |cs|
  {
    ConsumedBy(token, cs, at.progress.pages) <= at.seen <= Cursors(token, cs)
  }

  /** The tokens consumed by the pages, and the one that the next page will consume. */
  function Cursors(token: Option<Token>, cs: seq<Page>): set<Token> {
    ConsumedBy(token, cs, |cs|) +
    if ConsumedAt(token, cs, |cs|).Some? then {ConsumedAt(token, cs, |cs|).value} else {}
  }

  ghost predicate Working(req: Request, cs: seq<Page>, at: Local) {
    && Believes(req.token, cs, at)
    && SeenOk(req.token, cs, at)
    && Open(req.token, cs[..at.progress.pages])
  }

  ghost predicate PcOk(req: Request, cs: seq<Page>, pc: Pc) {
    match pc
    case Idle => true
    case Owning => true
    case Loaded(at, finished, failure) =>
      && Believes(req.token, cs, at)
      && finished == PagedOut(cs[..at.progress.pages])
      && failure == LastFailure(req.token, cs[..at.progress.pages])
    case Head(at) => Working(req, cs, at)
    case Budgeted(at) => Working(req, cs, at) && at.progress.pages < req.maxPages
    case Counted(at) => Working(req, cs, at) && at.progress.pages < req.maxPages
    case Fetching(at) => Working(req, cs, at) && at.progress.pages < req.maxPages
    case Got(at, _) => Working(req, cs, at) && at.progress.pages < req.maxPages
    case Paged(at) => PagedOutAt(req, cs, at)
    case Marked(at) => PagedOutAt(req, cs, at)
    case Failing(at, outcome, pages) =>
      && Believes(req.token, cs, at)
      && ((outcome.Stopped? && at.progress.pages <= pages <= at.progress.pages + 1) || (outcome.FailedToken? && pages == at.progress.pages == |cs|
                               && LastFailure(req.token, cs) == Some(outcome.error)))
    case Over => true
  }

  ghost predicate PagedOutAt(req: Request, cs: seq<Page>, at: Local) {
    && at.progress.pages == |cs|
    && at.progress == Snap(req.token, cs)
    && PagedOut(cs)
    && LastFailure(req.token, cs).None?
  }

  ghost predicate PcsOk(req: Request, cs: seq<Page>, pcs: map<Owner, Pc>) {
    forall o: Owner :: o in pcs ==> PcOk(req, cs, pcs[o])
  }

  /** The watermark is as it was, or moved once to the dates of the committed pages, all of them. */
  ghost predicate MarkOk(req: Request, cs: seq<Page>, mark0: Option<Mark>, mark: Option<Mark>) {
    || mark == mark0
    || (req.unbounded && Done(req.token, cs) && mark == MarkAfter(req, cs, mark0))
  }

  ghost predicate Done(token: Option<Token>, cs: seq<Page>) { PagedOut(cs) && LastFailure(token, cs).None? }

  function MarkAfter(req: Request, cs: seq<Page>, mark0: Option<Mark>): Option<Mark> {
    if req.unbounded then Some(SetMark(mark0, Snap(req.token, cs).response, Snap(req.token, cs).stamp)) else mark0
  }

  /** An owner that wrote the watermark left it written, and so did a completed job. */
  ghost predicate MarkedOk(req: Request, s: Sys, mark0: Option<Mark>) {
    && (s.job.status.Completed? ==> s.mark == MarkAfter(req, s.commits, mark0))
    && (forall o: Owner :: o in s.pcs && s.pcs[o].Marked? ==> s.mark == MarkAfter(req, s.commits, mark0))
  }

  ghost predicate Inv(req: Request, w: World, mark0: Option<Mark>, s: Sys) {
    && s.world == WorldAfter(w, s.commits)
    && |s.commits| <= req.maxPages
    && Clean(req.token, s.commits)
    && RowsOk(req.token, s.commits, s.rows)
    && JobOk(req.token, s.commits, s.job)
    && PcsOk(req, s.commits, s.pcs)
    && MarkOk(req, s.commits, mark0, s.mark)
    && MarkedOk(req, s, mark0)
  }

  // ------------------------------------------------------------------ reading the page rows

  lemma HashesBetween(token: Option<Token>, cs: seq<Page>, rows: map<nat, PageRow>)
    requires RowsOk(token, cs, rows)
    ensures ConsumedBy(token, cs, |cs|) <= Hashes(rows) <= Cursors(token, cs)
  {
    forall t | t in ConsumedBy(token, cs, |cs|) ensures t in Hashes(rows) {
      var i: nat :| i < |cs| && ConsumedAt(token, cs, i).Some? && ConsumedAt(token, cs, i).value == t;
      assert i in rows && rows[i].hash.Some?;
    }
    forall t | t in Hashes(rows) ensures t in Cursors(token, cs) {
      var i :| i in rows && rows[i].hash.Some? && rows[i].hash.value == t;
      if i < |cs| {
        assert t in ConsumedBy(token, cs, |cs|);
      }
    }
  }

  lemma ConsumedGrows(token: Option<Token>, cs: seq<Page>, n: nat)
    requires n <= |cs|
    ensures ConsumedBy(token, cs, n) <= ConsumedBy(token, cs, |cs|)
  {
  }

  lemma ConsumedNext(token: Option<Token>, cs: seq<Page>, page: Page)
    ensures ConsumedBy(token, cs + [page], |cs| + 1) == Cursors(token, cs)
    ensures Cursors(token, cs) <= Cursors(token, cs + [page])
  {
    var cs' := cs + [page];
    assert forall i: nat :: i <= |cs| ==> ConsumedAt(token, cs', i) == ConsumedAt(token, cs, i);
    forall t | t in Cursors(token, cs) ensures t in ConsumedBy(token, cs', |cs'|) {
      if t in ConsumedBy(token, cs, |cs|) {
        var i: nat :| i < |cs| && ConsumedAt(token, cs, i).Some? && ConsumedAt(token, cs, i).value == t;
        assert ConsumedAt(token, cs', i).value == t;
      } else {
        assert ConsumedAt(token, cs', |cs|).value == t;
      }
    }
    forall t | t in ConsumedBy(token, cs', |cs'|) ensures t in Cursors(token, cs) {
      var i: nat :| i < |cs'| && ConsumedAt(token, cs', i).Some? && ConsumedAt(token, cs', i).value == t;
      if i < |cs| {
        assert ConsumedAt(token, cs, i).value == t;
      }
    }
  }

  /** A row of a page that was not committed puts the owner's own cursor among the consumed tokens; the verdict
      on the next page is the same. */
  lemma OwnTokenIsHarmless(records: nat, cursor: Option<Token>, next: Option<Token>, consumed: set<Token>, seen: set<Token>)
    requires consumed <= seen <= consumed + (if cursor.Some? then {cursor.value} else {})
    ensures TokenErrorOf(records, cursor, next, seen) == TokenErrorOf(records, cursor, next, consumed)
  {
  }

  // ------------------------------------------------------------------ one more page

  lemma PrefixStays(req: Request, cs: seq<Page>, page: Page, pc: Pc)
    requires PcOk(req, cs, pc)
    requires Open(req.token, cs)
    ensures PcOk(req, cs + [page], pc)
  {
    var cs' := cs + [page];
    ConsumedNext(req.token, cs, page);
    if pc.Loaded? || pc.Head? || pc.Budgeted? || pc.Counted? || pc.Fetching? || pc.Got? || pc.Failing? {
      var n := pc.at.progress.pages;
      assert cs'[..n] == cs[..n];
      assert cs[..|cs|] == cs;
      ConsumedByPrefix(req.token, cs, [page], n);
    }
  }

  lemma CommittedSnap(token: Option<Token>, cs: seq<Page>, page: Page, at: Local, seen: set<Token>)
    requires at.progress == Snap(token, cs)
    requires ConsumedBy(token, cs, |cs|) <= seen <= Cursors(token, cs)
    ensures Snap(token, cs + [page]) == Advance(at.progress, page)
    ensures LastFailure(token, cs + [page]) == TokenErrorOf(|page.records|, at.progress.cursor, page.next, seen)
    ensures PagedOut(cs + [page]) == page.next.None?
  {
    var cs' := cs + [page];
    assert cs'[..|cs'| - 1] == cs;
    SnapCursor(token, cs);
    ConsumedByPrefix(token, cs, [page], |cs|);
    assert ConsumedAt(token, cs', |cs|) == ConsumedAt(token, cs, |cs|);
    OwnTokenIsHarmless(|page.records|, at.progress.cursor, page.next, ConsumedBy(token, cs, |cs|), seen);
  }

  lemma CleanGrows(token: Option<Token>, cs: seq<Page>, page: Page)
    requires Clean(token, cs) && Open(token, cs)
    ensures Clean(token, cs + [page])
  {
    var cs' := cs + [page];
    forall k: nat | k < |cs'| ensures Open(token, cs'[..k]) {
      assert cs'[..k] == if k < |cs| then cs[..k] else cs;
    }
  }

  lemma RowsGrow(token: Option<Token>, cs: seq<Page>, page: Page, rows: map<nat, PageRow>)
    requires RowsOk(token, cs, rows)
    ensures RowsOk(token, cs + [page], rows[|cs| := PageRow(ConsumedAt(token, cs, |cs|), true)])
  {
  }

  lemma WorldGrows(w: World, cs: seq<Page>, page: Page)
    ensures WorldAfter(w, cs + [page]) == ApplyRecords(WorldAfter(w, cs), page.records)
  {
    var cs' := cs + [page];
    assert cs'[..|cs'| - 1] == cs;
  }

  /** Owners whose cursor is the durable one have all the committed pages. */
  lemma CurrentOwner(req: Request, cs: seq<Page>, job: Job, at: Local)
    requires JobOk(req.token, cs, job) && Working(req, cs, at)
    requires CursorMatches(job, at)
    ensures at.progress.pages == |cs| && at.progress == job.progress == Snap(req.token, cs)
    ensures Open(req.token, cs)
    ensures at.progress.cursor == ConsumedAt(req.token, cs, |cs|)
  {
    SnapCursor(req.token, cs);
    assert cs[..|cs|] == cs;
  }

  lemma CommitterPc(req: Request, cs: seq<Page>, at: Local, page: Page)
    requires at.progress.pages == |cs| && at.progress == Snap(req.token, cs)
    requires SeenOk(req.token, cs, at)
    ensures PcOk(req, cs + [page], Committed(at, page))
  {
    var cs' := cs + [page];
    SnapCursor(req.token, cs);
    CommittedSnap(req.token, cs, page, at, at.seen);
    ConsumedNext(req.token, cs, page);
    assert cs'[..|cs'|] == cs';
  }

  /** No owner is past the end of the pages while a page can still be committed. */
  lemma CommitPcs(req: Request, s: Sys, o: Owner, at: Local, page: Page)
    requires PcsOk(req, s.commits, s.pcs) && JobOk(req.token, s.commits, s.job)
    requires Working(req, s.commits, at) && CursorMatches(s.job, at)
    ensures PcsOk(req, s.commits + [page], s.pcs[o := Committed(at, page)])
    ensures forall p: Owner :: p in s.pcs ==> !s.pcs[p].Marked?
  {
    CurrentOwner(req, s.commits, s.job, at);
    CommitterPc(req, s.commits, at, page);
    forall p: Owner | p in s.pcs ensures PcOk(req, s.commits + [page], s.pcs[p]) && !s.pcs[p].Marked? {
      PrefixStays(req, s.commits, page, s.pcs[p]);
    }
  }

  lemma {:induction false} StampStays(rs: seq<Record>, current: Option<Day>)
    ensures current.Some? ==> MaxStamp(rs, current).Some?
    decreases |rs|
  {
    if rs != [] {
      StampStays(rs[..|rs| - 1], current);
    }
  }

  lemma CommitJob(token: Option<Token>, cs: seq<Page>, job: Job, at: Local, page: Page)
    requires JobOk(token, cs, job) && job.status.Running?
    requires at.progress == Snap(token, cs) && ConsumedBy(token, cs, |cs|) <= at.seen <= Cursors(token, cs)
    ensures JobOk(token, cs + [page], job.(progress := Checkpoint(job.progress, at.progress, page),
                                           finished := page.next.None?, failure := Verdict(at, page)))
  {
    CommittedSnap(token, cs, page, at, at.seen);
    StampStays(page.records, at.progress.stamp);
  }

  /** A commit writes the next page, and everything durable stays determined by the pages. */
  lemma CommitKeeps(req: Request, w: World, mark0: Option<Mark>, s: Sys, a: Act)
    requires Inv(req, w, mark0, s) && Enabled(s, a) && a.step.Commits?
    requires CursorMatches(s.job, PcOf(s, a.actor).at)
    ensures Inv(req, w, mark0, Next(req, s, a))
  {
    var pc := PcOf(s, a.actor);
    var at, page := pc.at, pc.page;
    assert PcOk(req, s.commits, pc);
    CurrentOwner(req, s.commits, s.job, at);
    CommitJob(req.token, s.commits, s.job, at, page);
    RowsGrow(req.token, s.commits, page, s.rows);
    CleanGrows(req.token, s.commits, page);
    WorldGrows(w, s.commits, page);
    CommitPcs(req, s, a.actor, at, page);
  }

  // ------------------------------------------------------------------ the other steps

  /** A prefix of a clean run is open unless it is all of it. */
  lemma OnlyTheEndCloses(token: Option<Token>, cs: seq<Page>, n: nat)
    requires Clean(token, cs) && n <= |cs|
    ensures n == |cs| ==> cs[..n] == cs
    ensures n < |cs| ==> Open(token, cs[..n])
  {
  }

  lemma LoadedTokensOk(req: Request, s: Sys, at: Local)
    requires Clean(req.token, s.commits) && RowsOk(req.token, s.commits, s.rows)
    requires Believes(req.token, s.commits, at)
    ensures SeenOk(req.token, s.commits, at.(seen := Hashes(s.rows)))
    ensures Open(req.token, s.commits[..at.progress.pages])
            || (at.progress.pages == |s.commits| && s.commits[..at.progress.pages] == s.commits)
  {
    var cs, n := s.commits, at.progress.pages;
    OnlyTheEndCloses(req.token, cs, n);
    HashesBetween(req.token, cs, s.rows);
    ConsumedGrows(req.token, cs, n);
  }

  /** Reading the durable job or the page rows leaves an owner with a true summary. */
  lemma LoadStepOk(req: Request, s: Sys, a: Act)
    requires Enabled(s, a) && (a.step.LoadsJob? || a.step.LoadsTokens?)
    requires Clean(req.token, s.commits) && RowsOk(req.token, s.commits, s.rows) && JobOk(req.token, s.commits, s.job)
    requires PcOk(req, s.commits, PcOf(s, a.actor))
    ensures PcOk(req, s.commits, Goes(req, s, a))
  {
    var cs := s.commits;
    assert cs[..|cs|] == cs;
    if a.step.LoadsJob? {
      SnapCursor(req.token, cs);
    } else {
      LoadedTokensOk(req, s, PcOf(s, a.actor).at);
    }
  }

  lemma LocalStepOk(req: Request, s: Sys, a: Act)
    requires Enabled(s, a) && !a.step.Commits? && !a.step.LoadsJob? && !a.step.LoadsTokens?
    requires PcOk(req, s.commits, PcOf(s, a.actor))
    ensures PcOk(req, s.commits, Goes(req, s, a))
  {
  }

  lemma PcStepKeeps(req: Request, s: Sys, a: Act)
    requires Enabled(s, a) && !a.step.Commits?
    requires Clean(req.token, s.commits) && RowsOk(req.token, s.commits, s.rows) && JobOk(req.token, s.commits, s.job)
    requires PcsOk(req, s.commits, s.pcs)
    ensures Next(req, s, a).commits == s.commits
    ensures PcsOk(req, s.commits, Next(req, s, a).pcs)
  {
    assert PcOk(req, s.commits, PcOf(s, a.actor));
    if a.step.LoadsJob? || a.step.LoadsTokens? {
      LoadStepOk(req, s, a);
    } else {
      LocalStepOk(req, s, a);
    }
  }

  /** A page row is only ever written with the token that its page consumes. */
  lemma RowStepKeeps(req: Request, s: Sys, a: Act)
    requires Enabled(s, a) && !a.step.Commits?
    requires RowsOk(req.token, s.commits, s.rows) && PcsOk(req, s.commits, s.pcs)
    ensures RowsOk(req.token, s.commits, Effect(req, s, a).rows)
  {
    if a.step.Fails? {
      var at, cs := PcOf(s, a.actor).at, s.commits;
      var n := at.progress.pages;
      assert PcOk(req, cs, PcOf(s, a.actor));
      SnapCursor(req.token, cs[..n]);
      assert ConsumedAt(req.token, cs[..n], n) == ConsumedAt(req.token, cs, n);
    }
  }

  lemma JobStepKeeps(req: Request, s: Sys, a: Act)
    requires Enabled(s, a) && !a.step.Commits?
    requires JobOk(req.token, s.commits, s.job) && PcsOk(req, s.commits, s.pcs)
    ensures JobOk(req.token, s.commits, Effect(req, s, a).job)
  {
    if a.step.Finishes? {
      assert PcOk(req, s.commits, PcOf(s, a.actor));
      SnapCursor(req.token, s.commits);
      assert s.commits[..|s.commits|] == s.commits;
    }
  }

  lemma SetMarkIdempotent(held: Option<Mark>, response: Option<Day>, stamp: Option<Day>)
    ensures SetMark(Some(SetMark(held, response, stamp)), response, stamp) == SetMark(held, response, stamp)
  {
  }

  /** What leads to a written watermark, and what a step may do to one. */
  lemma MarkMoves(req: Request, s: Sys, a: Act)
    requires Enabled(s, a) && !a.step.Commits?
    requires PcOk(req, s.commits, PcOf(s, a.actor))
    ensures var s', snap := Effect(req, s, a), Snap(req.token, s.commits);
            && (if a.step.SetsMark? && req.unbounded
                then Done(req.token, s.commits) && s'.mark == Some(SetMark(s.mark, snap.response, snap.stamp))
                else s'.mark == s.mark)
            && (s'.job.status.Completed? ==> s.job.status.Completed? || PcOf(s, a.actor).Marked?)
            && (Goes(req, s, a).Marked? ==> a.step.SetsMark?)
  {
  }

  lemma MarkStepKeeps(req: Request, s: Sys, a: Act, mark0: Option<Mark>)
    requires Enabled(s, a) && !a.step.Commits?
    requires PcOk(req, s.commits, PcOf(s, a.actor))
    requires MarkOk(req, s.commits, mark0, s.mark) && MarkedOk(req, s, mark0)
    ensures MarkOk(req, s.commits, mark0, Next(req, s, a).mark)
    ensures MarkedOk(req, Next(req, s, a), mark0)
  {
    MarkMoves(req, s, a);
    var snap, s' := Snap(req.token, s.commits), Next(req, s, a);
    SetMarkIdempotent(mark0, snap.response, snap.stamp);
    forall o: Owner | o in s'.pcs && s'.pcs[o].Marked? ensures s'.mark == MarkAfter(req, s.commits, mark0) {
      if o != a.actor {
        assert s'.pcs[o] == s.pcs[o];
      }
    }
  }

  /** A stale checkpoint changes nothing durable. */
  lemma StaleCommitKeeps(req: Request, w: World, mark0: Option<Mark>, s: Sys, a: Act)
    requires Inv(req, w, mark0, s) && Enabled(s, a) && a.step.Commits?
    requires !CursorMatches(s.job, PcOf(s, a.actor).at)
    ensures Next(req, s, a) == s.(pcs := s.pcs[a.actor := Over])
    ensures Inv(req, w, mark0, Next(req, s, a))
  {
  }

  lemma EffectFrame(req: Request, s: Sys, a: Act)
    requires Enabled(s, a) && !a.step.Commits?
    ensures Effect(req, s, a).commits == s.commits && Effect(req, s, a).world == s.world
  {
  }

  lemma StepKeeps(req: Request, w: World, mark0: Option<Mark>, s: Sys, a: Act)
    requires Inv(req, w, mark0, s) && Enabled(s, a)
    ensures Inv(req, w, mark0, Next(req, s, a))
  {
    assert PcOk(req, s.commits, PcOf(s, a.actor));
    if a.step.Commits? {
      if CursorMatches(s.job, PcOf(s, a.actor).at) {
        CommitKeeps(req, w, mark0, s, a);
      } else {
        StaleCommitKeeps(req, w, mark0, s, a);
      }
    } else {
      EffectFrame(req, s, a);
      PcStepKeeps(req, s, a);
      RowStepKeeps(req, s, a);
      JobStepKeeps(req, s, a);
      MarkStepKeeps(req, s, a, mark0);
    }
  }

  lemma StartOk(req: Request, w: World, mark: Option<Mark>)
    ensures Inv(req, w, mark, Start(req, w, mark))
  {
  }

  lemma {:induction false} RunKeeps(req: Request, ss: seq<Sys>, acts: seq<Act>, i: nat)
    requires IsRun(req, ss, acts) && i < |ss|
    ensures Inv(req, ss[0].world, ss[0].mark, ss[i])
    decreases i
  {
    if i == 0 {
      StartOk(req, ss[0].world, ss[0].mark);
    } else {
      RunKeeps(req, ss, acts, i - 1);
      StepKeeps(req, ss[0].world, ss[0].mark, ss[i - 1], acts[i - 1]);
    }
  }

  // ------------------------------------------------------------------ network I/O

  predicate Holds(s: Sys, o: Owner) { SCOPE in s.leases && s.leases[SCOPE].owner == o }

  /** What the owner named by the lease row may assume about the I/O of the job. */
  predicate IoPcOk(req: Request, s: Sys, pc: Pc) {
    match pc
    case Loaded(at, _, _) => s.io <= at.requests
    case Head(at) => s.io <= at.requests
    case Budgeted(at) => s.io <= at.requests < req.maxRequests
    case Counted(at) => s.io < req.maxRequests && at.requests <= s.job.requests
                        && (s.job.status.Running? ==> s.io < at.requests)
    case Fetching(at) => s.job.status.Running? ==> s.io <= at.requests
    case Got(at, _) => s.job.status.Running? ==> s.io <= at.requests
    case _ => true
  }

  predicate IoOk(req: Request, s: Sys) {
    && s.io <= req.maxRequests
    && (s.job.status.Running? ==> s.io <= s.job.requests)
    && (SCOPE in s.leases ==> IoPcOk(req, s, PcOf(s, s.leases[SCOPE].owner)))
  }

  /** Only the owner named by the lease row does I/O, and a finished job stays finished. */
  lemma IoMoves(req: Request, s: Sys, a: Act)
    requires Enabled(s, a)
    requires PcOf(s, a.actor).Failing? ==> !PcOf(s, a.actor).outcome.Running?
    ensures var s' := Effect(req, s, a);
            && s'.io == s.io + (if a.step.PassesFence? && Goes(req, s, a).Fetching? then 1 else 0)
            && (s'.io > s.io ==> Holds(s, a.actor))
            && s.job.requests <= s'.job.requests
            && (s'.job.status.Running? ==> s.job.status.Running?)
            && (SCOPE in s'.leases ==> Holds(s', a.actor) || (SCOPE in s.leases && s'.leases[SCOPE] == s.leases[SCOPE]))
            && (Holds(s', a.actor) ==> Holds(s, a.actor) || a.step.Acquires?)
  {
  }

  lemma IoOfOthers(req: Request, s: Sys, a: Act)
    requires Enabled(s, a) && IoOk(req, s)
    requires PcOf(s, a.actor).Failing? ==> !PcOf(s, a.actor).outcome.Running?
    requires SCOPE in s.leases && !Holds(s, a.actor)
    ensures IoPcOk(req, Effect(req, s, a), PcOf(s, s.leases[SCOPE].owner))
  {
    IoMoves(req, s, a);
  }

  lemma IoOfActor(req: Request, s: Sys, a: Act)
    requires Enabled(s, a) && s.io <= req.maxRequests && (s.job.status.Running? ==> s.io <= s.job.requests)
    requires IoPcOk(req, s, PcOf(s, a.actor))
    requires PcOf(s, a.actor).Failing? ==> !PcOf(s, a.actor).outcome.Running?
    ensures IoPcOk(req, Effect(req, s, a), Goes(req, s, a))
    ensures Effect(req, s, a).io <= req.maxRequests
    ensures Effect(req, s, a).job.status.Running? ==> Effect(req, s, a).io <= Effect(req, s, a).job.requests
  {
  }

  lemma IoStepKeeps(req: Request, s: Sys, a: Act)
    requires Enabled(s, a) && IoOk(req, s)
    requires PcOf(s, a.actor).Failing? ==> !PcOf(s, a.actor).outcome.Running?
    ensures IoOk(req, Next(req, s, a))
  {
    IoMoves(req, s, a);
    if Holds(s, a.actor) {
      IoOfActor(req, s, a);
    } else if SCOPE in s.leases {
      IoOfOthers(req, s, a);
    }
  }

  lemma {:induction false} RunKeepsIo(req: Request, ss: seq<Sys>, acts: seq<Act>, i: nat)
    requires IsRun(req, ss, acts) && i < |ss|
    ensures IoOk(req, ss[i])
    decreases i
  {
    if i > 0 {
      RunKeeps(req, ss, acts, i - 1);
      RunKeepsIo(req, ss, acts, i - 1);
      assert PcOk(req, ss[i - 1].commits, PcOf(ss[i - 1], acts[i - 1].actor));
      IoStepKeeps(req, ss[i - 1], acts[i - 1]);
    }
  }
}
