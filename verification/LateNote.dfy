/** A run that shows why the limiter's spacing needs the start of a request to be noted within the
    lease: before_request writes back the rate state it read before. */
module LateNote {
  import opened Common
  import L = Leases
  import opened Limiter

  const DEFAULTS := Settings(5.0, 3600.0, 2.0, 86400.0, 60.0, 120.0, 30.0, 30.0)

  function State(now: Time, lease: map<L.LeaseName, L.Lease>, rate: Rate, one: Pc, two: Pc, three: Pc, log: seq<Fetch>): Sys {
    Sys(now, lease, rate,
        (if one.Idle? then map[] else map[1 := one]) + (if now < 130.0 then map[] else map[2 := two])
        + (if now < 133.0 then map[] else map[3 := three]), log)
  }

  function Lease(owner: Owner, until: Time): map<L.LeaseName, L.Lease> { map[UPSTREAM := L.Lease(owner, until)] }

  const R0 := Rate(None, None, 0, None)
  const R1 := Rate(None, None, 0, Some(130.0))
  const R2 := Rate(Some(131.0), Some(3731.0), 1, Some(130.0))
  const R3 := Rate(None, None, 0, Some(0.0))
  const R4 := Rate(None, None, 0, Some(133.0))
  const STALLED := Renewed(120.0, 0.0, R0)
  const LATE := Waiting(120.0, 0.0)
  const BEGUN := [Fetch(2, 130.0, None, None, None)]
  const LIMITED := [Fetch(2, 130.0, Some(131.0), Some(3731.0), Some(Limited(None, 0.0)))]

  /** Actor 1 stalls between renewing the lease and noting the start; actor 2 meanwhile is rate limited;
      actor 1's late note overwrites the cooldown, and actor 3 goes straight to the network. */
  const A0 := Act(1, 0.0, Takes)
  const A1 := Act(1, 0.0, Reads(0.0))
  const A2 := Act(1, 0.0, Renews)
  const A3 := Act(2, 130.0, Takes)
  const A4 := Act(2, 130.0, Reads(130.0))
  const A5 := Act(2, 130.0, Renews)
  const A6 := Act(2, 130.0, WritesStart)
  const A7 := Act(2, 130.0, PassesFence(120.0))
  const A8 := Act(2, 130.0, Fetches)
  const A9 := Act(2, 131.0, ReadsEnd(131.0))
  const A10 := Act(2, 131.0, WritesEnd(Limited(None, 0.0)))
  const A11 := Act(2, 131.0, Drops)
  const A12 := Act(1, 132.0, WritesStart)
  const A13 := Act(3, 133.0, Takes)
  const A14 := Act(3, 133.0, Reads(133.0))
  const A15 := Act(3, 133.0, Renews)
  const A16 := Act(3, 133.0, WritesStart)
  const A17 := Act(3, 133.0, PassesFence(120.0))
  const A18 := Act(3, 133.0, Fetches)

  const S0 := START
  const S1 := State(0.0, Lease(1, 120.0), R0, Took(120.0, 0.0), Idle, Idle, [])
  const S2 := State(0.0, Lease(1, 120.0), R0, HasRead(120.0, 0.0, R0), Idle, Idle, [])
  const S3 := State(0.0, Lease(1, 120.0), R0, STALLED, Idle, Idle, [])
  const S4 := State(130.0, Lease(2, 250.0), R0, STALLED, Took(250.0, 130.0), Idle, [])
  const S5 := State(130.0, Lease(2, 250.0), R0, STALLED, HasRead(250.0, 130.0, R0), Idle, [])
  const S6 := State(130.0, Lease(2, 250.0), R0, STALLED, Renewed(250.0, 130.0, R0), Idle, [])
  const S7 := State(130.0, Lease(2, 250.0), R1, STALLED, Waiting(250.0, 130.0), Idle, [])
  const S8 := State(130.0, Lease(2, 250.0), R1, STALLED, Fenced(250.0, 130.0), Idle, [])
  const S9 := State(130.0, Lease(2, 250.0), R1, STALLED, Fetching(250.0, 0), Idle, BEGUN)
  const S10 := State(131.0, Lease(2, 250.0), R1, STALLED, Ended(250.0, 0, 131.0, R1), Idle, BEGUN)
  const S11 := State(131.0, Lease(2, 250.0), R2, STALLED, Dropping, Idle, LIMITED)
  const S12 := State(131.0, map[], R2, STALLED, Idle, Idle, LIMITED)
  const S13 := State(132.0, map[], R3, LATE, Idle, Idle, LIMITED)
  const S14 := State(133.0, Lease(3, 253.0), R3, LATE, Idle, Took(253.0, 133.0), LIMITED)
  const S15 := State(133.0, Lease(3, 253.0), R3, LATE, Idle, HasRead(253.0, 133.0, R3), LIMITED)
  const S16 := State(133.0, Lease(3, 253.0), R3, LATE, Idle, Renewed(253.0, 133.0, R3), LIMITED)
  const S17 := State(133.0, Lease(3, 253.0), R4, LATE, Idle, Waiting(253.0, 133.0), LIMITED)
  const S18 := State(133.0, Lease(3, 253.0), R4, LATE, Idle, Fenced(253.0, 133.0), LIMITED)
  const S19 := State(133.0, Lease(3, 253.0), R4, LATE, Idle, Fetching(253.0, 1), LIMITED + [Fetch(3, 133.0, None, None, None)])

  /** A run in which every request starts, and every outcome is recorded, within the lease. */
  ghost predicate RunTo(ss: seq<Sys>, acts: seq<Act>, s: Sys) {
    && IsRun(DEFAULTS, ss, acts) && ss[|acts|] == s
    && forall n :: 0 <= n < |acts| ==> TimelyFetch(ss[n], acts[n])
  }

  ghost predicate Reachable(s: Sys) {
    exists ss, acts :: RunTo(ss, acts, s)
  }

  lemma Step(s: Sys, a: Act, s': Sys)
    requires Reachable(s) && Enabled(s, a) && TimelyFetch(s, a)
    requires var n := Next(DEFAULTS, s, a);
      && n.now == s'.now && n.leases == s'.leases && n.rate == s'.rate && n.log == s'.log
      && n.pcs.Keys == s'.pcs.Keys && forall o :: o in n.pcs ==> n.pcs[o] == s'.pcs[o]
    ensures Reachable(s')
  {
    var ss, acts :| RunTo(ss, acts, s);
    assert Next(DEFAULTS, s, a).pcs == s'.pcs;
    assert RunTo(ss + [s'], acts + [a], s');
  }

  lemma FirstCooldown()
    ensures EffectiveCooldown(DEFAULTS, None, 1, 0.0) == 3600.0
  {
    assert Pow(DEFAULTS.multiplier, 0) == 1.0;
  }

  lemma FirstActorStalls()
    ensures Reachable(S3)
  {
    assert RunTo([S0], [], S0);
    Step(S0, A0, S1);
    Step(S1, A1, S2);
    Step(S2, A2, S3);
  }

  lemma SecondActorTakes()
    requires Reachable(S3)
    ensures Reachable(S5)
  {
    Step(S3, A3, S4);
    Step(S4, A4, S5);
  }

  lemma SecondActorStarts()
    requires Reachable(S5)
    ensures Reachable(S7)
  {
    Step(S5, A5, S6);
    Step(S6, A6, S7);
  }

  lemma SecondActorFetches()
    requires Reachable(S7)
    ensures Reachable(S9)
  {
    Step(S7, A7, S8);
    Step(S8, A8, S9);
  }

  lemma SecondActorEnds()
    requires Reachable(S9)
    ensures Reachable(S10)
  {
    Step(S9, A9, S10);
  }

  lemma SecondActorIsLimited()
    requires Reachable(S10)
    ensures Reachable(S11)
  {
    FirstCooldown();
    Step(S10, A10, S11);
  }

  lemma FirstActorWritesLate()
    requires Reachable(S11)
    ensures Reachable(S13)
  {
    Step(S11, A11, S12);
    Step(S12, A12, S13);
  }

  lemma ThirdActorReads()
    requires Reachable(S13)
    ensures Reachable(S15)
  {
    Step(S13, A13, S14);
    Step(S14, A14, S15);
  }

  lemma ThirdActorStarts()
    requires Reachable(S15)
    ensures Reachable(S17)
  {
    Step(S15, A15, S16);
    Step(S16, A16, S17);
  }

  lemma ThirdActorFetches()
    requires Reachable(S17)
    ensures Reachable(S19)
  {
    Step(S17, A17, S18);
    Step(S18, A18, S19);
  }

  /** Without that half of the hypothesis the spacing is lost: there is a run in which every request
      starts and every outcome is recorded within its lease, and still actor 3 fetches during the
      cooldown that actor 2 stored, and within the interval after its request. */
  lemma LateNoteBreaksSpacing()
    ensures DEFAULTS.Valid()
    ensures exists s ::
      && Reachable(s) && |s.log| == 2
      && s.log[0].end == Some(131.0) && s.log[0].cooldown == Some(3731.0) && s.log[1].start == 133.0
  {
    FirstActorStalls();
    SecondActorTakes();
    SecondActorStarts();
    SecondActorFetches();
    SecondActorEnds();
    SecondActorIsLimited();
    FirstActorWritesLate();
    ThirdActorReads();
    ThirdActorStarts();
    ThirdActorFetches();
    assert |S19.log| == 2;
  }
}
