/** The durable tables of one OAI harvest job as the store updates them, each transaction proved to have the
    effect of the step that the runs of a harvest are made of. */
module HarvestStore {
  import opened Common
  import opened Harvest
  import PaperStore

  /** A row of oai_watermarks with the harvest that moved it last. */
  datatype MarkRow = MarkRow(days: Mark, harvest: nat, updatedAt: Time)

  function DaysOf(row: Option<MarkRow>): Option<Mark> { if row.None? then None else Some(row.value.days) }

  /** A component moves when its new value is known and not before the one held. */
  predicate Moves(held: Option<Day>, day: Option<Day>) {
    day.Some? && (held.None? || day.value >= held.value)
  }

  class Store {
    const papers: PaperStore.Store
    var job: Job
    var pageRows: map<nat, PageRow>
    var mark: Option<MarkRow>
    var currentWatermark: Option<Day>
    var completedAt: Option<Time>

    ghost function PaperWorld(): World
      reads papers
    {
      World(papers.rows, papers.records)
    }

    /** The shared state of a run holds these tables. */
    ghost predicate Shows(s: Sys)
      reads this, papers
    {
      s.job == job && s.rows == pageRows && s.mark == DaysOf(mark) && s.world == PaperWorld()
    }

    /** create_oai_harvest_job, beside the papers that are there. */
    constructor (papers: PaperStore.Store, token: Option<Token>, mark: Option<MarkRow>)
      ensures this.papers == papers && Shows(Start(Request(0, 0, false, token), PaperWorld(), DaysOf(mark)))
    {
      this.papers, this.mark := papers, mark;
      currentWatermark, completedAt := None, None;
      job, pageRows := Job(Running, Fresh(token), 0, false, None), map[];
    }

    /** checkpoint_oai_page, with the values the owner computed; `None` is the error it raises when the durable
        cursor is another one. `s` is any state of a run that shows these tables. */
    method CheckpointOaiPage(at: Local, page: Page, ghost s: Sys) returns (counts: Option<(nat, nat, nat)>)
      requires Shows(s)
      modifies this, papers
      ensures Shows(AfterCommit(s, at, page))
      ensures counts == if old(CursorMatches(job, at))
                        then Some((|page.records|, Upserted(page.records), Deleted(page.records))) else None
    {
      var index, cursor := at.progress.pages, at.progress.cursor;
      var lastResponse := if page.responseDay.Some? then page.responseDay else at.progress.response;
      var lastStamp := MaxStamp(page.records, at.progress.stamp);
      var error := TokenErrorOf(|page.records|, cursor, page.next, at.seen);
      if !job.status.Running? || job.progress.pages != index || job.progress.cursor != cursor {
        return None;
      }
      var processed, upserted, deleted := papers.UpsertOaiRecords(page.records);
      pageRows := pageRows[index := PageRow(cursor, true)];
      var p := job.progress;
      job := job.(
        progress := Progress(
          if p.pages > index + 1 then p.pages else index + 1,
          p.processed + processed, p.upserted + upserted, p.deleted + deleted, page.next,
          if lastResponse.Some? then lastResponse else p.response,
          if lastStamp.Some? then lastStamp else p.stamp),
        finished := page.next.None?, failure := error);
      assert job.progress == Checkpoint(p, at.progress, page);
      return Some((processed, upserted, deleted));
    }

    /** record_oai_page, for a page that was not fetched. */
    method RecordOaiPage(at: Local)
      modifies `pageRows
      ensures pageRows == old(pageRows)[at.progress.pages := PageRow(at.progress.cursor, false)]
    {
      pageRows := pageRows[at.progress.pages := PageRow(at.progress.cursor, false)];
    }

    /** get_oai_consumed_token_hashes. */
    method ConsumedTokenHashes() returns (hashes: set<Token>)
      ensures hashes == Hashes(pageRows)
    {
      hashes := {};
      var todo := pageRows.Keys;
      while todo != {}
        invariant todo <= pageRows.Keys
        invariant hashes == set i | i in pageRows.Keys - todo && pageRows[i].hash.Some? :: pageRows[i].hash.value
      {
        var i: nat :| i in todo;
        todo := todo - {i};
        if pageRows[i].hash.Some? {
          hashes := hashes + {pageRows[i].hash.value};
        }
      }
    }

    /** record_oai_request_started: the counter as it reads afterwards. */
    method RecordOaiRequestStarted() returns (requests: nat)
      modifies `job
      ensures job == if old(job).status.Running? then old(job).(requests := old(job).requests + 1) else old(job)
      ensures requests == job.requests
    {
      if job.status.Running? {
        job := job.(requests := job.requests + 1);
      }
      requests := job.requests;
    }

    /** set_oai_watermark: the row is credited to this harvest when a component moved. */
    method SetOaiWatermark(response: Option<Day>, stamp: Option<Day>, harvest: nat, now: Time)
      modifies `mark
      ensures DaysOf(mark) == Some(SetMark(DaysOf(old(mark)), response, stamp))
      ensures mark.Some? && (mark.value.harvest, mark.value.updatedAt) ==
                if old(mark).None? || Moves(old(mark).value.days.response, response) || Moves(old(mark).value.days.stamp, stamp)
                then (harvest, now) else (old(mark).value.harvest, old(mark).value.updatedAt)
    {
      if mark.None? {
        mark := Some(MarkRow(Mark(response, stamp), harvest, now));
        return;
      }
      var row := mark.value;
      if Moves(row.days.response, response) {
        row := row.(days := row.days.(response := response), harvest := harvest, updatedAt := now);
      }
      if Moves(row.days.stamp, stamp) {
        row := row.(days := row.days.(stamp := stamp), harvest := harvest, updatedAt := now);
      }
      mark := Some(row);
    }

    /** complete_oai_harvest_job, which asks neither for the status of the job nor for its owner. The error column
        of a stopped job is the reason in its status. */
    method CompleteOaiHarvestJob(outcome: Status, at: Local, pages: nat, token: Option<Token>, watermark: Option<Day>, now: Time)
      modifies `job, `currentWatermark, `completedAt
      ensures job == Finished(old(job), outcome, at, pages, token)
      ensures currentWatermark == watermark && completedAt == Some(now)
    {
      var p := job.progress;
      var error := match outcome case FailedToken(e) => Some(e) case _ => None;
      job := job.(status := outcome, failure := error,
                  progress := p.(pages := pages, processed := at.progress.processed, upserted := at.progress.upserted,
                                 deleted := at.progress.deleted, cursor := token));
      currentWatermark, completedAt := watermark, Some(now);
    }
  }
}
