/** A run in which a completed harvest job is reported as stopped: an owner whose request was refused finishes
    after its successor resumed the job and completed it. */
module StaleFinish {
  import opened Common
  import opened Harvest
  import L = Leases

  const LIMITS := Request(5, 5, false, None)
  const NOWHERE := World(map[], map[])
  const P0 := Fresh(None)
  const P1 := Progress(1, 0, 0, 0, None, None, None)
  const PAGE := Page([], None, None)
  const REFUSED := Stopped(1)

  function Before(p: Progress, requests: nat): Local { Local(p, requests, {}) }

  function State(job: Job, rows: map<nat, PageRow>, lease: Option<L.Lease>, one: Pc, two: Option<Pc>, commits: seq<Page>, io: nat): Sys {
    Sys(job, rows, NOWHERE, None, if lease.None? then map[] else map[SCOPE := lease.value],
        if two.None? then map[1 := one] else map[1 := one, 2 := two.value], if two.None? then {1} else {1, 2}, commits, io)
  }

  const BEGUN := Job(Running, P0, 0, false, None)
  const COUNTED := Job(Running, P0, 1, false, None)
  const PAGED := Job(Running, P1, 1, true, None)
  const DONE := Job(Completed, P1, 1, true, None)
  const OVERWRITTEN := Job(REFUSED, P0.(pages := 1), 1, true, None)
  const ROW := map[0 := PageRow(None, false)]
  const READ := map[0 := PageRow(None, true)]
  const FIRST := Some(L.Lease(1, 10.0))
  const SECOND := Some(L.Lease(2, 100.0))
  const STALLED := Failing(Before(P0, 0), REFUSED, 1)

  const S0 := Start(LIMITS, NOWHERE, None)
  const S1 := State(BEGUN, map[], FIRST, Owning, None, [], 0)
  const S2 := State(BEGUN, map[], FIRST, Loaded(Before(P0, 0), false, None), None, [], 0)
  const S3 := State(BEGUN, map[], FIRST, Head(Before(P0, 0)), None, [], 0)
  const S4 := State(BEGUN, map[], FIRST, Budgeted(Before(P0, 0)), None, [], 0)
  const S5 := State(BEGUN, ROW, FIRST, STALLED, None, [], 0)
  const S6 := State(BEGUN, ROW, SECOND, STALLED, Some(Owning), [], 0)
  const S7 := State(BEGUN, ROW, SECOND, STALLED, Some(Loaded(Before(P0, 0), false, None)), [], 0)
  const S8 := State(BEGUN, ROW, SECOND, STALLED, Some(Head(Before(P0, 0))), [], 0)
  const S9 := State(BEGUN, ROW, SECOND, STALLED, Some(Budgeted(Before(P0, 0))), [], 0)
  const S10 := State(COUNTED, ROW, SECOND, STALLED, Some(Counted(Before(P0, 1))), [], 0)
  const S11 := State(COUNTED, ROW, SECOND, STALLED, Some(Fetching(Before(P0, 1))), [], 1)
  const S12 := State(COUNTED, ROW, SECOND, STALLED, Some(Got(Before(P0, 1), PAGE)), [], 1)
  const S13 := State(PAGED, READ, SECOND, STALLED, Some(Paged(Before(P1, 1))), [PAGE], 1)
  const S14 := State(PAGED, READ, SECOND, STALLED, Some(Marked(Before(P1, 1))), [PAGE], 1)
  const S15 := State(DONE, READ, SECOND, STALLED, Some(Over), [PAGE], 1)

  ghost predicate RunTo(ss: seq<Sys>, acts: seq<Act>, s: Sys) {
    IsRun(LIMITS, ss, acts) && ss[|acts|] == s
  }

  ghost predicate Reachable(s: Sys) { exists ss, acts :: RunTo(ss, acts, s) }

  lemma Step(s: Sys, a: Act, s': Sys)
    requires Reachable(s) && Enabled(s, a)
    requires Effect(LIMITS, s, a) == s'.(pcs := s.pcs) && s.pcs[a.actor := Goes(LIMITS, s, a)] == s'.pcs
    ensures Reachable(s')
  {
    var ss, acts :| RunTo(ss, acts, s);
    assert RunTo(ss + [s'], acts + [a], s');
  }

  lemma FirstOwnerLoads()
    ensures Reachable(S3)
  {
    assert RunTo([S0], [], S0);
    Step(S0, Act(1, 0.0, Acquires(10.0)), S1);
    Step(S1, Act(1, 0.0, LoadsJob), S2);
    assert Hashes(S2.rows) == {};
    Step(S2, Act(1, 0.0, LoadsTokens), S3);
  }

  lemma FirstOwnerIsRefused()
    requires Reachable(S3)
    ensures Reachable(S5)
  {
    Step(S3, Act(1, 0.0, Renews(10.0, false)), S4);
    Step(S4, Act(1, 0.0, Fails(REFUSED)), S5);
  }

  lemma SecondOwnerLoads()
    requires Reachable(S5)
    ensures Reachable(S8)
  {
    Step(S5, Act(2, 20.0, Acquires(80.0)), S6);
    Step(S6, Act(2, 20.0, LoadsJob), S7);
    assert Hashes(S7.rows) == {};
    Step(S7, Act(2, 20.0, LoadsTokens), S8);
  }

  lemma SecondOwnerFetches()
    requires Reachable(S8)
    ensures Reachable(S12)
  {
    Step(S8, Act(2, 20.0, Renews(80.0, false)), S9);
    Step(S9, Act(2, 20.0, Counts), S10);
    Step(S10, Act(2, 20.0, PassesFence(80.0, true)), S11);
    Step(S11, Act(2, 20.0, Receives(PAGE)), S12);
  }

  lemma SecondOwnerCompletes()
    requires Reachable(S12)
    ensures Reachable(S15)
  {
    Step(S12, Act(2, 21.0, Commits), S13);
    Step(S13, Act(2, 21.0, SetsMark), S14);
    Step(S14, Act(2, 21.0, Finishes), S15);
  }

  /** "An ended job keeps its outcome" fails: there is a reachable state in which the job is completed, with its one
      page, and a step after which it reads as stopped. */
  lemma StaleFinishOverwrites()
    ensures exists s, a ::
              && Reachable(s) && Enabled(s, a) && s.job.status.Completed?
              && Next(LIMITS, s, a).job.status.Stopped?
  {
    FirstOwnerLoads();
    FirstOwnerIsRefused();
    SecondOwnerLoads();
    SecondOwnerFetches();
    SecondOwnerCompletes();
    assert Next(LIMITS, S15, Act(1, 30.0, Finishes)).job == OVERWRITTEN;
  }
}
