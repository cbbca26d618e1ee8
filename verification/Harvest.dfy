/** An OAI-PMH harvest as a durable job: pages are committed by compare-and-swap on the cursor, and any
    number of owners may start, crash, resume, lose the scope lease, and go on acting when they no
    longer hold it. Client side of flow control, section 3.5 of OAI-PMH 2.0. */
module Harvest {
  import opened Common
  import L = Leases
  import P = Papers

  /** A resumption token, or its hash: the hash is taken to be injective. */
  type Token = nat
  type Day = int

  datatype Record = Record(
    oaiId: nat, paperId: Option<PaperId>, stamp: Option<Day>, deleted: bool, sets: nat, paper: Option<P.Paper>)

  datatype Page = Page(records: seq<Record>, responseDay: Option<Day>, next: Option<Token>)

  // ------------------------------------------------------------------ what a page writes

  datatype World = World(rows: P.PaperRows, records: map<nat, Record>)

  ghost function ApplyRecord(w: World, r: Record): World {
    var rows := if r.paper.Some? && !r.deleted then P.OaiUpsert(w.rows, r.paper.value) else w.rows;
    World(if r.deleted && r.paperId.Some? then P.Tombstone(rows, r.paperId.value, r.oaiId, r.stamp, r.sets) else rows,
          w.records[r.oaiId := r])
  }

  /** _upsert_oai_records_conn. */
  ghost function ApplyRecords(w: World, rs: seq<Record>): World
    decreases |rs|
  {
    if rs == [] then w else ApplyRecord(ApplyRecords(w, rs[..|rs| - 1]), rs[|rs| - 1])
  }

  function Upserted(rs: seq<Record>): nat
    decreases |rs|
  {
    if rs == [] then 0
    else Upserted(rs[..|rs| - 1]) + if rs[|rs| - 1].paper.Some? && !rs[|rs| - 1].deleted then 1 else 0
  }

  function Deleted(rs: seq<Record>): nat
    decreases |rs|
  {
    if rs == [] then 0 else Deleted(rs[..|rs| - 1]) + if rs[|rs| - 1].deleted then 1 else 0
  }

  /** _max_datestamp_seen. */
  function MaxStamp(rs: seq<Record>, current: Option<Day>): Option<Day>
    decreases |rs|
  {
    if rs == [] then current
    else
      var best := MaxStamp(rs[..|rs| - 1], current);
      var stamp := rs[|rs| - 1].stamp;
      if stamp.Some? && (best.None? || stamp.value > best.value) then stamp else best
  }

  // ------------------------------------------------------------------ progress

  /** The counters and the cursor of a harvest, durable or in an owner's variables. */
  datatype Progress = Progress(
    pages: nat, processed: nat, upserted: nat, deleted: nat,
    cursor: Option<Token>, response: Option<Day>, stamp: Option<Day>)

  function Or<T>(x: Option<T>, y: Option<T>): Option<T> { if x.Some? then x else y }

  /** An owner's variables after a page. */
  function Advance(p: Progress, page: Page): Progress {
    Progress(p.pages + 1, p.processed + |page.records|, p.upserted + Upserted(page.records),
             p.deleted + Deleted(page.records), page.next, Or(page.responseDay, p.response),
             MaxStamp(page.records, p.stamp))
  }

  /** The durable columns after checkpoint_oai_page, given what the owner believed. */
  function Checkpoint(durable: Progress, local: Progress, page: Page): Progress {
    var a := Advance(local, page);
    Progress(if durable.pages > a.pages then durable.pages else a.pages,
             durable.processed + |page.records|, durable.upserted + Upserted(page.records),
             durable.deleted + Deleted(page.records), page.next, Or(a.response, durable.response), Or(a.stamp, durable.stamp))
  }

  datatype TokenError = Repeated | Cycle | NoProgress

  /** _oai_token_error. */
  function TokenErrorOf(records: nat, consumed: Option<Token>, next: Option<Token>, seen: set<Token>): Option<TokenError> {
    if next.None? then None
    else if consumed == next then Some(Repeated)
    else if next.value in seen then Some(Cycle)
    else if records == 0 then Some(NoProgress)
    else None
  }

  // ------------------------------------------------------------------ state

  datatype Status = Running | Completed | FailedToken(error: TokenError) | Stopped(reason: nat)

  datatype Job = Job(status: Status, progress: Progress, requests: nat, finished: bool, failure: Option<TokenError>)

  /** A row of oai_pages: the token the page consumed, and whether the page was committed. */
  datatype PageRow = PageRow(hash: Option<Token>, completed: bool)

  /** A row of oai_watermarks. */
  datatype Mark = Mark(response: Option<Day>, stamp: Option<Day>)

  /** The request of the job: its limits, whether it moves the watermark, and where it starts. */
  datatype Request = Request(maxPages: nat, maxRequests: nat, unbounded: bool, token: Option<Token>)

  datatype Local = Local(progress: Progress, requests: nat, seen: set<Token>)

  datatype Pc =
    | Idle
    | Owning
    | Loaded(at: Local, finished: bool, failure: Option<TokenError>)
    | Head(at: Local)                    // top of the page loop
    | Budgeted(at: Local)                // the budget check passed
    | Counted(at: Local)                 // record_oai_request_started
    | Fetching(at: Local)                // both leases renewed: network I/O
    | Got(at: Local, page: Page)
    | Paged(at: Local)                   // the loop ended
    | Marked(at: Local)                  // the watermark is written
    | Failing(at: Local, outcome: Status, pages: nat)
    | Over

  const SCOPE: L.LeaseName := 1

  datatype Sys = Sys(
    job: Job, rows: map<nat, PageRow>, world: World, mark: Option<Mark>,
    leases: map<L.LeaseName, L.Lease>, pcs: map<Owner, Pc>,
    // what happened: owners that ever started, pages committed, fences passed
    started: set<Owner>, commits: seq<Page>, io: nat)

  datatype Step =
    | Acquires(ttl: Time)                 // acquire_lease of the scope, by a new owner
    | LoadsJob                            // get_running_oai_harvest
    | LoadsTokens                         // get_oai_consumed_token_hashes
    | Renews(ttl: Time, pastDeadline: bool) // renew_lease_if_owned, then the budget check
    | Counts                              // record_oai_request_started
    | PassesFence(ttl: Time, upstream: bool) // renew_leases_if_owned for scope and upstream
    | Receives(page: Page)
    | Fails(outcome: Status)              // refused, or an upstream failure: record_oai_page
    | Quits(outcome: Status)              // a budget ran out
    | Commits                             // checkpoint_oai_page
    | SetsMark                            // set_oai_watermark
    | Finishes                            // complete_oai_harvest_job
    | Drops                               // release_lease
    | Dies

  datatype Act = Act(actor: Owner, now: Time, step: Step)

  function PcOf(s: Sys, o: Owner): Pc { if o in s.pcs then s.pcs[o] else Idle }

  function Hashes(rows: map<nat, PageRow>): set<Token> {
    set i | i in rows && rows[i].hash.Some? :: rows[i].hash.value
  }

  predicate Enabled(s: Sys, a: Act) {
    var pc := PcOf(s, a.actor);
    match a.step
    case Acquires(_) => a.actor !in s.started
    case LoadsJob => pc.Owning?
    case LoadsTokens => pc.Loaded?
    case Renews(_, _) => pc.Head?
    case Counts => pc.Budgeted?
    case PassesFence(_, _) => pc.Counted?
    case Receives(_) => pc.Fetching?
    case Fails(outcome) => (pc.Budgeted? || pc.Fetching?) && outcome.Stopped?
    case Quits(outcome) => (pc.Budgeted? || pc.Counted? || pc.Fetching?) && outcome.Stopped?
    case Commits => pc.Got?
    case SetsMark => pc.Paged?
    case Finishes => pc.Marked? || pc.Failing?
    case Drops => true
    case Dies => true
  }

  /** One component of set_oai_watermark. */
  function Later(held: Option<Day>, new_: Option<Day>): Option<Day> {
    if new_.None? then held
    else if held.None? || new_.value >= held.value then new_
    else held
  }

  function SetMark(held: Option<Mark>, response: Option<Day>, stamp: Option<Day>): Mark {
    if held.None? then Mark(response, stamp)
    else Mark(Later(held.value.response, response), Later(held.value.stamp, stamp))
  }

  predicate CursorMatches(job: Job, at: Local) {
    job.status.Running? && job.progress.pages == at.progress.pages && job.progress.cursor == at.progress.cursor
  }

  /** The verdict on the page an owner received. */
  function Verdict(at: Local, page: Page): Option<TokenError> {
    TokenErrorOf(|page.records|, at.progress.cursor, page.next, at.seen)
  }

  /** An owner's variables after its page was committed. */
  function Paging(at: Local, page: Page): Local {
    Local(Advance(at.progress, page), at.requests,
          if at.progress.cursor.Some? then at.seen + {at.progress.cursor.value} else at.seen)
  }

  /** checkpoint_oai_page: all of it, or nothing when the durable cursor is another one. */
  ghost function AfterCommit(s: Sys, at: Local, page: Page): Sys {
    if !CursorMatches(s.job, at) then s
    else
      s.(job := s.job.(progress := Checkpoint(s.job.progress, at.progress, page),
                       finished := page.next.None?, failure := Verdict(at, page)),
         rows := s.rows[at.progress.pages := PageRow(at.progress.cursor, true)],
         world := ApplyRecords(s.world, page.records),
         commits := s.commits + [page])
  }

  function Finished(job: Job, outcome: Status, at: Local, pages: nat, token: Option<Token>): Job {
    job.(status := outcome, failure := if outcome.FailedToken? then Some(outcome.error) else None,
         progress := at.progress.(pages := pages, cursor := token, response := job.progress.response,
                                  stamp := job.progress.stamp))
  }

  /** _oai_budget_error, the runtime budget being spent at an arbitrary moment. */
  predicate OutOfBudget(req: Request, at: Local, pastDeadline: bool) {
    at.progress.pages >= req.maxPages || at.requests >= req.maxRequests || pastDeadline
  }

  /** What a step does to the shared state. */
  ghost function Effect(req: Request, s: Sys, a: Act): Sys
    requires Enabled(s, a)
  {
    var o, pc := a.actor, PcOf(s, a.actor);
    match a.step
    case Acquires(ttl) => s.(leases := L.Acquire(s.leases, SCOPE, o, ttl, a.now).0, started := s.started + {o})
    case LoadsJob => s
    case LoadsTokens => s
    case Renews(ttl, _) =>
      if L.Owns(s.leases, SCOPE, o) then s.(leases := s.leases[SCOPE := L.Lease(o, a.now + ttl)]) else s
    case Counts =>
      if s.job.status.Running? then s.(job := s.job.(requests := s.job.requests + 1)) else s
    case PassesFence(ttl, upstream) =>
      if L.Owns(s.leases, SCOPE, o) && upstream
      then s.(leases := s.leases[SCOPE := L.Lease(o, a.now + ttl)], io := s.io + 1)
      else s
    case Receives(_) => s
    case Fails(_) => s.(rows := s.rows[pc.at.progress.pages := PageRow(pc.at.progress.cursor, false)])
    case Quits(_) => s
    case Commits => AfterCommit(s, pc.at, pc.page)
    case SetsMark =>
      if req.unbounded then s.(mark := Some(SetMark(s.mark, pc.at.progress.response, pc.at.progress.stamp))) else s
    case Finishes =>
      s.(job := if pc.Marked? then Finished(s.job, Completed, pc.at, pc.at.progress.pages, None)
                else Finished(s.job, pc.outcome, pc.at, pc.pages, pc.at.progress.cursor))
    case Drops => s.(leases := L.ReleaseLease(s.leases, SCOPE, o))
    case Dies => s
  }

  /** Where a step takes its actor. */
  ghost function Goes(req: Request, s: Sys, a: Act): Pc
    requires Enabled(s, a)
  {
    var o, pc := a.actor, PcOf(s, a.actor);
    match a.step
    case Acquires(ttl) => if L.Acquire(s.leases, SCOPE, o, ttl, a.now).1 then Owning else Over
    case LoadsJob =>
      if s.job.status.Running? then Loaded(Local(s.job.progress, s.job.requests, {}), s.job.finished, s.job.failure)
      else Over
    case LoadsTokens =>
      var at := pc.at.(seen := Hashes(s.rows));
      if pc.failure.Some? then Failing(at, FailedToken(pc.failure.value), at.progress.pages)
      else if pc.finished then Paged(at)
      else Head(at)
    case Renews(_, pastDeadline) =>
      if !L.Owns(s.leases, SCOPE, o) then Over
      else if OutOfBudget(req, pc.at, pastDeadline) then Failing(pc.at, Stopped(0), pc.at.progress.pages)
      else Budgeted(pc.at)
    case Counts => Counted(pc.at.(requests := Effect(req, s, a).job.requests))
    case PassesFence(_, upstream) => if L.Owns(s.leases, SCOPE, o) && upstream then Fetching(pc.at) else Over
    case Receives(page) => Got(pc.at, page)
    case Fails(outcome) => Failing(pc.at, outcome, pc.at.progress.pages + 1)
    case Quits(outcome) => Failing(pc.at, outcome, pc.at.progress.pages)
    case Commits =>
      if !CursorMatches(s.job, pc.at) then Over else Committed(pc.at, pc.page)
    case SetsMark => Marked(pc.at)
    case Finishes => Over
    case Drops => Over
    case Dies => Over
  }

  /** The loop goes on, ends, or stops at a token error. */
  function Committed(at: Local, page: Page): Pc {
    var at', failure := Paging(at, page), Verdict(at, page);
    if failure.Some? then Failing(at', FailedToken(failure.value), at'.progress.pages)
    else if page.next.None? then Paged(at')
    else Head(at')
  }

  ghost function Next(req: Request, s: Sys, a: Act): (s': Sys)
    requires Enabled(s, a)
  {
    Effect(req, s, a).(pcs := s.pcs[a.actor := Goes(req, s, a)])
  }

  function Fresh(token: Option<Token>): Progress { Progress(0, 0, 0, 0, token, None, None) }

  /** A new job over some papers, records and watermark that are already there. */
  function Start(req: Request, w: World, mark: Option<Mark>): Sys {
    Sys(Job(Running, Fresh(req.token), 0, false, None), map[], w, mark, map[], map[], {}, [], 0)
  }

  ghost predicate IsRun(req: Request, ss: seq<Sys>, acts: seq<Act>) {
    && |ss| == |acts| + 1
    && ss[0] == Start(req, ss[0].world, ss[0].mark)
    && forall i :: 0 <= i < |acts| ==> Enabled(ss[i], acts[i]) && ss[i + 1] == Next(req, ss[i], acts[i])
  }

  // ------------------------------------------------------------------ the committed pages

  /** Progress after the given pages. */
  function Snap(token: Option<Token>, pages: seq<Page>): Progress
    decreases |pages|
  {
    if pages == [] then Fresh(token) else Advance(Snap(token, pages[..|pages| - 1]), pages[|pages| - 1])
  }

  /** The token that page `i` consumed. */
  function ConsumedAt(token: Option<Token>, pages: seq<Page>, i: nat): Option<Token>
    requires i <= |pages|
  {
    if i == 0 then token else pages[i - 1].next
  }

  /** The tokens consumed by the first `n` pages. */
  function ConsumedBy(token: Option<Token>, pages: seq<Page>, n: nat): set<Token>
    requires n <= |pages|
  {
    set i: nat | i < n && ConsumedAt(token, pages, i).Some? :: ConsumedAt(token, pages, i).value
  }

  /** The verdict of the last page, against the tokens that the pages before it consumed. */
  function LastFailure(token: Option<Token>, pages: seq<Page>): Option<TokenError> {
    if pages == [] then None
    else TokenErrorOf(|pages[|pages| - 1].records|, ConsumedAt(token, pages, |pages| - 1), pages[|pages| - 1].next,
                      ConsumedBy(token, pages, |pages| - 1))
  }

  predicate PagedOut(pages: seq<Page>) { pages != [] && pages[|pages| - 1].next.None? }

  ghost function WorldAfter(w: World, pages: seq<Page>): World
    decreases |pages|
  {
    if pages == [] then w else ApplyRecords(WorldAfter(w, pages[..|pages| - 1]), pages[|pages| - 1].records)
  }

  lemma SnapCursor(token: Option<Token>, pages: seq<Page>)
    ensures Snap(token, pages).pages == |pages| && Snap(token, pages).cursor == ConsumedAt(token, pages, |pages|)
    decreases |pages|
  {
    if pages != [] {
      SnapCursor(token, pages[..|pages| - 1]);
    }
  }

  lemma ConsumedByPrefix(token: Option<Token>, pages: seq<Page>, more: seq<Page>, n: nat)
    requires n <= |pages|
    ensures ConsumedBy(token, pages + more, n) == ConsumedBy(token, pages, n)
  {
    assert forall i: nat :: i < n ==> ConsumedAt(token, pages + more, i) == ConsumedAt(token, pages, i);
  }
}
