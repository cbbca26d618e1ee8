/** The rate limiter: durable rate state guarded by one lease. Every method is a sequence of
    transactions, so other actors may act between any two of its steps. */
module Limiter {
  import opened Common
  import L = Leases

  datatype Settings = Settings(
    interval: Time, cooldownSeconds: Time, multiplier: real, maxCooldown: Time, jitter: Time,
    leaseTimeout: Time, requestTimeout: Time, storeTimeout: Time)
  {
    function Floor(): Time { MaxReal(cooldownSeconds, interval) }

    /** What HuldraSettings validates. */
    predicate Valid() {
      interval >= 3.0 && cooldownSeconds > 0.0 && multiplier >= 1.0 && maxCooldown >= Floor() && jitter >= 0.0
      && leaseTimeout > 0.0
    }
  }

  // ------------------------------------------------------------------ the length of a cooldown

  function Pow(x: real, n: nat): real { if n == 0 then 1.0 else x * Pow(x, n - 1) }

  /** A product, up to a cap. */
  function Scaled(x: real, y: real, cap: real): real { MinReal(x * y, cap) }

  /** The safety floor times a factor, up to the cap. */
  function Capped(st: Settings, factor: real): Time { Scaled(st.Floor(), factor, st.maxCooldown) }

  function Backoff(st: Settings, consecutive: nat): Time {
    Capped(st, Pow(st.multiplier, if consecutive == 0 then 0 else consecutive - 1))
  }

  function RetryAfter(retryAfter: Option<int>): Time {
    if retryAfter.Some? && retryAfter.value > 0 then retryAfter.value as real else 0.0
  }

  /** _effective_cooldown_seconds; `sample` is what the jitter source returned. */
  function EffectiveCooldown(st: Settings, retryAfter: Option<int>, consecutive: nat, sample: real): Time {
    var lower := MaxReal(Backoff(st, consecutive), RetryAfter(retryAfter));
    var sampled := if st.jitter > 0.0 then sample else 0.0;
    lower + MinReal(st.jitter, MaxReal(0.0, sampled))
  }

  lemma {:induction false} PowGrows(x: real, m: nat, n: nat)
    requires x >= 1.0 && m <= n
    ensures 1.0 <= Pow(x, m) <= Pow(x, n)
    decreases n
  {
    if n > 0 {
      PowGrows(x, 0, n - 1);
      if m < n {
        PowGrows(x, m, n - 1);
        ScaleGrows(1.0, x, Pow(x, n - 1));
      } else {
        ScaleGrows(1.0, x, Pow(x, n - 1));
      }
    }
  }

  lemma ScaleGrows(x: real, y: real, c: real)
    requires x <= y && c >= 0.0
    ensures x * c <= y * c && c * x <= c * y
  {}

  /** Backoff never shrinks as rate limits repeat, and stays between the safety floor and the cap. */
  lemma BackoffGrows(st: Settings, fewer: nat, consecutive: nat)
    requires st.Valid() && fewer <= consecutive
    ensures st.Floor() <= Backoff(st, fewer) <= Backoff(st, consecutive) <= st.maxCooldown
  {
    var m, n := if fewer == 0 then 0 else fewer - 1, if consecutive == 0 then 0 else consecutive - 1;
    PowGrows(st.multiplier, m, n);
    ScaleGrows(1.0, Pow(st.multiplier, m), st.Floor());
    ScaleGrows(Pow(st.multiplier, m), Pow(st.multiplier, n), st.Floor());
  }

  /** A delay, multiplied once more, up to the cap. */
  function Grow(st: Settings, delay: Time): Time {
    if st.multiplier * delay <= st.maxCooldown then st.multiplier * delay else st.maxCooldown
  }

  lemma GrowIsScaled(st: Settings, delay: Time)
    ensures Grow(st, delay) == Scaled(st.multiplier, delay, st.maxCooldown)
  {}

  lemma CapTimes(x: real, a: real, cap: real)
    requires x >= 1.0 && cap >= 0.0
    ensures MinReal(x * MinReal(a, cap), cap) == MinReal(x * a, cap)
  {
    if a > cap {
      ScaleGrows(1.0, x, cap);
      ScaleGrows(cap, a, x);
    }
  }

  lemma Regroup(f: real, x: real, p: real)
    ensures f * (x * p) == x * (f * p)
  {}

  lemma CapOneMore(f: real, x: real, p: real, cap: real)
    requires x >= 1.0 && cap >= 0.0
    ensures Scaled(f, x * p, cap) == Scaled(x, Scaled(f, p, cap), cap)
  {
    Regroup(f, x, p);
    CapTimes(x, f * p, cap);
  }

  lemma OneMoreFactor(st: Settings, factor: real)
    requires st.Valid()
    ensures Capped(st, st.multiplier * factor) == Grow(st, Capped(st, factor))
  {
    CapOneMore(st.Floor(), st.multiplier, factor, st.maxCooldown);
    GrowIsScaled(st, Capped(st, factor));
  }

  /** The first rate limit in a row gives the safety floor, and each one after it the multiplier times as much as
      the one before, up to the cap. */
  lemma BackoffMultiplies(st: Settings, n: nat)
    requires st.Valid()
    ensures Backoff(st, 0) == st.Floor() && Backoff(st, 1) == st.Floor()
    ensures n >= 1 ==> Backoff(st, n + 1) == Grow(st, Backoff(st, n))
  {
    assert Pow(st.multiplier, 0) == 1.0 && Capped(st, 1.0) == st.Floor();
    if n >= 1 {
      var power := Pow(st.multiplier, n - 1);
      assert Pow(st.multiplier, n) == st.multiplier * power;
      OneMoreFactor(st, power);
      assert Backoff(st, n + 1) == Capped(st, Pow(st.multiplier, n));
    }
  }

  /** A cooldown is at least the capped exponential backoff, at least what the server asked for, at
      least the safety floor, and exceeds the larger of the first two by the value the jitter source returned if
      that is in its range, and by no more than the jitter whatever it returned. Backoff never shrinks as rate limits repeat. */
  lemma CooldownBounds(st: Settings, retryAfter: Option<int>, consecutive: nat, sample: real, fewer: nat)
    requires st.Valid() && fewer <= consecutive
    ensures var c := EffectiveCooldown(st, retryAfter, consecutive, sample);
      && st.Floor() <= Backoff(st, fewer) <= Backoff(st, consecutive) <= st.maxCooldown
      && Backoff(st, consecutive) <= c && (retryAfter.Some? ==> retryAfter.value as real <= c)
      && c <= MaxReal(Backoff(st, consecutive), RetryAfter(retryAfter)) + st.jitter
      && (0.0 <= sample <= st.jitter ==> c == MaxReal(Backoff(st, consecutive), RetryAfter(retryAfter)) + sample)
  {
    BackoffGrows(st, fewer, consecutive);
  }

  // ------------------------------------------------------------------ state

  const UPSTREAM: L.LeaseName := 0

  /** The columns of rate_state that decide anything. */
  datatype Rate = Rate(lastRequestAt: Option<Time>, cooldownUntil: Option<Time>, consecutive: nat, startedAt: Option<Time>)

  datatype Outcome = Success | Failure | Limited(retryAfter: Option<int>, sample: real)

  /** A network request: when it started and, once its outcome was recorded, when it ended, the
      cooldown that was stored, and what the outcome was. */
  datatype Fetch = Fetch(actor: Owner, start: Time, end: Option<Time>, cooldown: Option<Time>, outcome: Option<Outcome>)

  /** Where an actor stands in before_request, the fetch, and after_*; `expires` is the end of the lease
      as it was last granted. */
  datatype Pc =
    | Idle
    | Took(expires: Time, since: Time)
    | HasRead(expires: Time, current: Time, rate: Rate)
    | Renewed(expires: Time, current: Time, rate: Rate)
    | Waiting(expires: Time, start: Time)
    | Fenced(expires: Time, start: Time)
    | Fetching(expires: Time, index: nat)
    | Ended(expires: Time, index: nat, current: Time, rate: Rate)
    | Dropping

  datatype Sys = Sys(now: Time, leases: map<L.LeaseName, L.Lease>, rate: Rate, pcs: map<Owner, Pc>, log: seq<Fetch>)

  datatype Step =
    | Takes                          // acquire_lease
    | Reads(current: Time)           // utc_now, then get_rate_state
    | Renews                         // renew_lease_if_owned
    | WritesStart                    // set_rate_state in before_request
    | PassesFence(ttl: Time)         // strict renewal right before network I/O, after the wait
    | Fetches                        // the network request starts
    | ReadsEnd(current: Time)        // utc_now, then get_rate_state in after_*
    | WritesEnd(outcome: Outcome)    // set_rate_state in after_*
    | Drops                          // release_lease
    | Dies

  datatype Act = Act(actor: Owner, now: Time, step: Step)

  function PcOf(s: Sys, o: Owner): Pc { if o in s.pcs then s.pcs[o] else Idle }

  /** _seconds_until_next_request. */
  function WaitSeconds(st: Settings, rate: Rate, current: Time): Time {
    if rate.lastRequestAt.None? then 0.0 else MaxReal(0.0, rate.lastRequestAt.value + st.interval - current)
  }

  function Ceil(x: real): real { -((-x).Floor as real) }

  function LeaseSeconds(st: Settings, wait: Time): Time {
    MaxReal(st.leaseTimeout, Ceil(wait + st.requestTimeout + st.storeTimeout + 5.0))
  }

  predicate Cooling(rate: Rate, current: Time) {
    rate.cooldownUntil.Some? && rate.cooldownUntil.value > current
  }

  predicate Enabled(s: Sys, a: Act) {
    var pc := PcOf(s, a.actor);
    a.now >= s.now &&
    match a.step
    case Takes => pc.Idle?
    case Reads(current) => pc.Took? && pc.since <= current <= a.now
    case Renews => pc.HasRead?
    case WritesStart => pc.Renewed?
    case PassesFence(_) => (pc.Waiting? || pc.Fenced?) && a.now >= pc.start
    case Fetches => pc.Fenced?
    case ReadsEnd(current) => pc.Fetching? && pc.index < |s.log| && s.log[pc.index].start <= current <= a.now
    case WritesEnd(_) => pc.Ended?
    case Drops => true
    case Dies => true
  }

  function RateAfter(st: Settings, rate: Rate, outcome: Outcome, current: Time): Rate {
    match outcome
    case Success => rate.(lastRequestAt := Some(current), cooldownUntil := None, consecutive := 0)
    case Failure => rate.(lastRequestAt := Some(current))
    case Limited(retryAfter, sample) =>
      rate.(lastRequestAt := Some(current), consecutive := rate.consecutive + 1,
            cooldownUntil := Some(current + EffectiveCooldown(st, retryAfter, rate.consecutive + 1, sample)))
  }

  function Stay(s: Sys, o: Owner, pc: Pc): Sys { s.(pcs := s.pcs[o := pc]) }

  function Next(st: Settings, s: Sys, a: Act): Sys
    requires Enabled(s, a)
  {
    var o, pc, s := a.actor, PcOf(s, a.actor), s.(now := a.now);
    match a.step
    case Takes =>
      var (ls, ok) := L.Acquire(s.leases, UPSTREAM, o, st.leaseTimeout, a.now);
      if ok then Stay(s.(leases := ls), o, Took(a.now + st.leaseTimeout, a.now)) else s
    case Reads(current) =>
      Stay(s, o, if Cooling(s.rate, current) then Dropping else HasRead(pc.expires, current, s.rate))
    case Renews =>
      var until := a.now + LeaseSeconds(st, WaitSeconds(st, pc.rate, pc.current));
      if L.Owns(s.leases, UPSTREAM, o)
      then Stay(s.(leases := s.leases[UPSTREAM := L.Lease(o, until)]), o, Renewed(until, pc.current, pc.rate))
      else Stay(s, o, Idle)
    case WritesStart =>
      var start := pc.current + WaitSeconds(st, pc.rate, pc.current);
      Stay(s.(rate := pc.rate.(startedAt := Some(start))), o, Waiting(pc.expires, start))
    case PassesFence(ttl) =>
      if L.Owns(s.leases, UPSTREAM, o)
      then Stay(s.(leases := s.leases[UPSTREAM := L.Lease(o, a.now + ttl)]), o, Fenced(a.now + ttl, pc.start))
      else Stay(s, o, Dropping)
    case Fetches => Stay(s.(log := s.log + [Fetch(o, a.now, None, None, None)]), o, Fetching(pc.expires, |s.log|))
    case ReadsEnd(current) => Stay(s, o, Ended(pc.expires, pc.index, current, s.rate))
    case WritesEnd(outcome) =>
      var rate := RateAfter(st, pc.rate, outcome, pc.current);
      var log :=
        if pc.index < |s.log|
        then s.log[pc.index := s.log[pc.index].(end := Some(pc.current), outcome := Some(outcome),
                                              cooldown := if outcome.Limited? then rate.cooldownUntil else None)]
        else s.log;
      Stay(s.(rate := rate, log := log), o, Dropping)
    case Drops => Stay(s.(leases := L.ReleaseLease(s.leases, UPSTREAM, o)), o, Idle)
    case Dies => Stay(s, o, Idle)
  }

  const START := Sys(0.0, map[], Rate(None, None, 0, None), map[], [])

  ghost predicate IsRun(st: Settings, ss: seq<Sys>, acts: seq<Act>) {
    && |ss| == |acts| + 1 && ss[0] == START
    && forall i :: 0 <= i < |acts| ==> Enabled(ss[i], acts[i]) && ss[i + 1] == Next(st, ss[i], acts[i])
  }

  predicate Granted(pc: Pc) { !pc.Idle? && !pc.Dropping? }

  /** The actor acts within the lease as it was last granted. */
  predicate InTime(s: Sys, a: Act) { Granted(PcOf(s, a.actor)) && a.now < PcOf(s, a.actor).expires }

  /** Outcomes are recorded, and requests started, within the lease. */
  predicate TimelyFetch(s: Sys, a: Act) { a.step.Fetches? || a.step.WritesEnd? ==> InTime(s, a) }

  /** The columns that say when the next request may start. */
  predicate SameGuards(x: Rate, y: Rate) { x.lastRequestAt == y.lastRequestAt && x.cooldownUntil == y.cooldownUntil }

  /** The note of a start writes back guards that are still the stored ones. */
  predicate Fresh(s: Sys, a: Act) {
    a.step.WritesStart? && PcOf(s, a.actor).Renewed? ==> SameGuards(PcOf(s, a.actor).rate, s.rate)
  }

  predicate Careful(s: Sys, a: Act) { TimelyFetch(s, a) && Fresh(s, a) }

  /** The start of a request, too, is noted within the lease. */
  predicate Timely(s: Sys, a: Act) { TimelyFetch(s, a) && (a.step.WritesStart? ==> InTime(s, a)) }

  // ------------------------------------------------------------------ the invariant

  predicate Live(s: Sys, o: Owner) { Granted(PcOf(s, o)) && s.now < PcOf(s, o).expires }

  /** The lease row still names the actor, even if it expired: nobody took it in between. */
  predicate Holder(s: Sys, o: Owner) { Granted(PcOf(s, o)) && L.Owns(s.leases, UPSTREAM, o) }

  /** Only one actor is live: the lease row names it. */
  predicate LeaseOk(s: Sys) {
    forall o :: o in s.pcs && Live(s, o) ==> UPSTREAM in s.leases && s.leases[UPSTREAM] == L.Lease(o, s.pcs[o].expires)
  }

  predicate Spaced(st: Settings, rate: Rate, start: Time) {
    && (rate.lastRequestAt.Some? ==> start >= rate.lastRequestAt.value + st.interval)
    && (rate.cooldownUntil.Some? ==> start >= rate.cooldownUntil.value)
  }

  /** What the holder of the lease remembers is still true. */
  predicate MemoryOk(st: Settings, s: Sys, pc: Pc) {
    match pc
    case HasRead(_, current, rate) => SameGuards(rate, s.rate) && !Cooling(rate, current)
    case Renewed(_, current, rate) => SameGuards(rate, s.rate) && !Cooling(rate, current)
    case Waiting(_, start) => Spaced(st, s.rate, start)
    case Fenced(_, start) => Spaced(st, s.rate, start) && s.now >= start
    case Fetching(_, index) => index + 1 == |s.log| && (s.rate.cooldownUntil.Some? ==> s.rate.cooldownUntil.value <= s.log[index].start)
    case Ended(_, index, current, rate) =>
      && index + 1 == |s.log| && SameGuards(rate, s.rate) && s.log[index].start <= current <= s.now
      && (rate.cooldownUntil.Some? ==> rate.cooldownUntil.value <= s.log[index].start)
    case _ => true
  }

  /** The rate state covers every recorded outcome. */
  predicate Covered(s: Sys, f: Fetch) {
    && f.start <= s.now
    && (f.end.Some? ==> s.rate.lastRequestAt.Some? && f.end.value <= s.rate.lastRequestAt.value)
    && (f.cooldown.Some? ==> f.cooldown.value <= s.now || (s.rate.cooldownUntil.Some? && f.cooldown.value <= s.rate.cooldownUntil.value))
  }

  predicate Apart(st: Settings, earlier: Fetch, later: Fetch) {
    && (earlier.end.Some? ==> later.start >= earlier.end.value + st.interval)
    && (earlier.cooldown.Some? ==> later.start >= earlier.cooldown.value)
  }

  predicate FetchOk(st: Settings, f: Fetch) {
    && (f.end.Some? ==> f.end.value >= f.start)
    && (f.end.None? <==> f.outcome.None?)
    && (f.cooldown.Some? ==> f.end.Some? && f.cooldown.value >= f.end.value + st.Floor())
  }

  predicate LogOk(st: Settings, s: Sys) {
    && (forall k :: 0 <= k < |s.log| ==> Covered(s, s.log[k]) && FetchOk(st, s.log[k]))
    && (forall j, k :: 0 <= j < k < |s.log| ==> Apart(st, s.log[j], s.log[k]))
  }

  predicate SysOk(st: Settings, s: Sys) {
    LeaseOk(s) && LogOk(st, s) && forall o :: o in s.pcs && Holder(s, o) ==> MemoryOk(st, s, s.pcs[o])
  }

  lemma StepKeepsLease(st: Settings, s: Sys, a: Act)
    requires st.Valid() && LeaseOk(s) && Enabled(s, a)
    ensures LeaseOk(Next(st, s, a))
  {}

  /** Time passes, and rate state is written that decides the same. */
  lemma QuietKeepsLog(st: Settings, s: Sys, s': Sys)
    requires LogOk(st, s) && s'.log == s.log && s'.now >= s.now
    requires s'.rate.lastRequestAt == s.rate.lastRequestAt && s'.rate.cooldownUntil == s.rate.cooldownUntil
    ensures LogOk(st, s')
  {}

  lemma FetchKeepsLog(st: Settings, s: Sys, a: Act)
    requires LogOk(st, s) && Enabled(s, a) && a.step.Fetches?
    requires MemoryOk(st, s, PcOf(s, a.actor))
    ensures LogOk(st, Next(st, s, a))
  {
    var log' := Next(st, s, a).log;
    assert forall k :: 0 <= k < |s.log| ==> log'[k] == s.log[k];
  }

  lemma EndKeepsLog(st: Settings, s: Sys, a: Act)
    requires st.Valid() && LogOk(st, s) && Enabled(s, a) && a.step.WritesEnd?
    requires MemoryOk(st, s, PcOf(s, a.actor))
    ensures LogOk(st, Next(st, s, a))
  {
    var pc := PcOf(s, a.actor);
    var log' := Next(st, s, a).log;
    assert forall k :: 0 <= k < pc.index ==> log'[k] == s.log[k];
    if a.step.outcome.Limited? {
      CooldownBounds(st, a.step.outcome.retryAfter, pc.rate.consecutive + 1, a.step.outcome.sample, 0);
    }
  }

  lemma StepKeepsLog(st: Settings, s: Sys, a: Act)
    requires st.Valid() && SysOk(st, s) && Enabled(s, a) && Careful(s, a)
    ensures LogOk(st, Next(st, s, a))
  {
    if InTime(s, a) {
      assert Live(s, a.actor) && Holder(s, a.actor) && MemoryOk(st, s, s.pcs[a.actor]);
    }
    if a.step.Fetches? {
      FetchKeepsLog(st, s, a);
    } else if a.step.WritesEnd? {
      EndKeepsLog(st, s, a);
    } else {
      QuietKeepsLog(st, s, Next(st, s, a));
    }
  }

  lemma OwnStepKeepsMemory(st: Settings, s: Sys, a: Act)
    requires st.Valid() && SysOk(st, s) && Enabled(s, a) && Careful(s, a) && Holder(Next(st, s, a), a.actor)
    ensures MemoryOk(st, Next(st, s, a), PcOf(Next(st, s, a), a.actor))
  {
    if Holder(s, a.actor) {
      assert MemoryOk(st, s, s.pcs[a.actor]);
    }
  }

  /** Only a live actor writes the guards or the log, and then nobody else holds the lease. */
  lemma HolderSeesNoWrite(st: Settings, s: Sys, a: Act, o: Owner)
    requires st.Valid() && LeaseOk(s) && Enabled(s, a) && Careful(s, a)
    requires o != a.actor && Holder(Next(st, s, a), o)
    ensures Holder(s, o) && PcOf(Next(st, s, a), o) == s.pcs[o]
    ensures SameGuards(Next(st, s, a).rate, s.rate) && Next(st, s, a).log == s.log && Next(st, s, a).now >= s.now
  {
    assert InTime(s, a) ==> Live(s, a.actor);
  }

  lemma MemoryStays(st: Settings, s: Sys, s': Sys, pc: Pc)
    requires MemoryOk(st, s, pc) && SameGuards(s'.rate, s.rate) && s'.log == s.log && s'.now >= s.now
    ensures MemoryOk(st, s', pc)
  {}

  lemma OtherStepKeepsMemory(st: Settings, s: Sys, a: Act, o: Owner)
    requires st.Valid() && SysOk(st, s) && Enabled(s, a) && Careful(s, a)
    requires o != a.actor && Holder(Next(st, s, a), o)
    ensures MemoryOk(st, Next(st, s, a), PcOf(Next(st, s, a), o))
  {
    HolderSeesNoWrite(st, s, a, o);
    MemoryStays(st, s, Next(st, s, a), s.pcs[o]);
  }

  ghost predicate CarefulUntil(ss: seq<Sys>, acts: seq<Act>, i: nat)
    requires |ss| == |acts| + 1 && i <= |acts|
  {
    forall k :: 0 <= k < i ==> Careful(ss[k], acts[k])
  }

  lemma {:induction false} CarefulRunKeeps(st: Settings, ss: seq<Sys>, acts: seq<Act>, i: nat)
    requires st.Valid() && IsRun(st, ss, acts) && i <= |acts| && CarefulUntil(ss, acts, i)
    ensures SysOk(st, ss[i])
  {
    if i > 0 {
      var s, a := ss[i - 1], acts[i - 1];
      CarefulRunKeeps(st, ss, acts, i - 1);
      StepKeepsLease(st, s, a);
      StepKeepsLog(st, s, a);
      forall o | o in ss[i].pcs && Holder(ss[i], o) ensures MemoryOk(st, ss[i], ss[i].pcs[o]) {
        if o == a.actor {
          OwnStepKeepsMemory(st, s, a);
        } else {
          OtherStepKeepsMemory(st, s, a, o);
        }
      }
    }
  }

  /** Actors are told apart by their owner tokens, and each is one sequence of steps: processes that share a token,
      as a resumed harvest does with its predecessor, are outside this model.

      In every careful run, whatever the interleaving: a request starts at least the interval after the
      recorded end of every earlier one, never inside a recorded cooldown, and after a rate limit at
      least the safety floor later. */
  lemma FetchesAreSpaced(st: Settings, ss: seq<Sys>, acts: seq<Act>, i: nat, j: nat, k: nat)
    requires st.Valid() && IsRun(st, ss, acts) && i <= |acts| && CarefulUntil(ss, acts, i) && j < k < |ss[i].log|
    ensures var earlier, later := ss[i].log[j], ss[i].log[k];
      && (earlier.end.Some? ==> later.start >= earlier.end.value + st.interval)
      && (earlier.cooldown.Some? ==>
            earlier.end.Some? && later.start >= earlier.cooldown.value && later.start >= earlier.end.value + st.Floor())
  {
    CarefulRunKeeps(st, ss, acts, i);
    assert Apart(st, ss[i].log[j], ss[i].log[k]) && FetchOk(st, ss[i].log[j]);
  }

  /** Acting within the lease, at the start note too, is careful: nobody else can have recorded an outcome. */
  lemma {:induction false} TimelyRunsAreCareful(st: Settings, ss: seq<Sys>, acts: seq<Act>, i: nat)
    requires st.Valid() && IsRun(st, ss, acts) && i <= |acts|
    requires forall k :: 0 <= k < i ==> Timely(ss[k], acts[k])
    ensures CarefulUntil(ss, acts, i)
    decreases i
  {
    if i > 0 {
      var s, a := ss[i - 1], acts[i - 1];
      TimelyRunsAreCareful(st, ss, acts, i - 1);
      CarefulRunKeeps(st, ss, acts, i - 1);
      if a.step.WritesStart? {
        assert Live(s, a.actor) && Holder(s, a.actor) && MemoryOk(st, s, s.pcs[a.actor]);
      }
    }
  }

  // ------------------------------------------------------------------ exactly when a note is safe

  /** The rate state knows every recorded outcome. */
  ghost predicate Knows(s: Sys) { forall k :: 0 <= k < |s.log| ==> Covered(s, s.log[k]) }

  predicate Earlier(x: Option<Time>, y: Option<Time>) { y.Some? && (x.None? || x.value < y.value) }

  /** A rate state that was read is the stored one, as far as its guards go, or an earlier one. */
  predicate Older(x: Rate, y: Rate) {
    (SameGuards(x, y) && x.consecutive == y.consecutive) || Earlier(x.lastRequestAt, y.lastRequestAt)
  }

  predicate Remembers(pc: Pc) { pc.HasRead? || pc.Renewed? || pc.Ended? }

  /** Guards only move forward, and the stored ones are those of recorded requests. */
  ghost predicate Forward(s: Sys) {
    && Recorded(s)
    && (forall o :: o in s.pcs ==> OnTrack(s, o, s.pcs[o]))
  }

  /** The stored guards are those of recorded requests. */
  ghost predicate Recorded(s: Sys) {
    && (s.rate.lastRequestAt.Some? ==> exists k :: 0 <= k < |s.log| && s.log[k].end == s.rate.lastRequestAt)
    && (s.rate.cooldownUntil.Some? ==> exists k :: 0 <= k < |s.log| && s.log[k].cooldown == s.rate.cooldownUntil)
  }

  predicate OnTrack(s: Sys, o: Owner, pc: Pc) {
    && (Remembers(pc) ==> Older(pc.rate, s.rate))
    && (pc.Fetching? && L.Owns(s.leases, UPSTREAM, o) ==> Unended(s, pc.index))
    && (pc.Ended? && L.Owns(s.leases, UPSTREAM, o) ==> Unended(s, pc.index))
  }

  /** The request has no recorded end yet, and started after the stored one. */
  predicate Unended(s: Sys, index: nat) {
    index < |s.log| && s.log[index].end.None?
    && (s.rate.lastRequestAt.Some? ==> s.log[index].start > s.rate.lastRequestAt.value)
  }

  lemma OwnStepOnTrack(st: Settings, s: Sys, a: Act)
    requires st.Valid() && SysOk(st, s) && Forward(s) && Enabled(s, a) && Careful(s, a)
    ensures OnTrack(Next(st, s, a), a.actor, PcOf(Next(st, s, a), a.actor))
  {
    if InTime(s, a) {
      assert Live(s, a.actor) && Holder(s, a.actor) && MemoryOk(st, s, s.pcs[a.actor]);
    }
  }

  lemma OtherStepOnTrack(st: Settings, s: Sys, a: Act, o: Owner)
    requires st.Valid() && SysOk(st, s) && Forward(s) && Enabled(s, a) && Careful(s, a) && o != a.actor && o in s.pcs
    ensures OnTrack(Next(st, s, a), o, s.pcs[o])
  {
    assert OnTrack(s, o, s.pcs[o]);
    if InTime(s, a) {
      assert Live(s, a.actor) && Holder(s, a.actor) && OnTrack(s, a.actor, s.pcs[a.actor]);
    }
  }

  lemma GuardsMoveForward(st: Settings, s: Sys, a: Act)
    requires st.Valid() && SysOk(st, s) && Forward(s) && Enabled(s, a) && Careful(s, a)
    ensures Forward(Next(st, s, a))
  {
    var s' := Next(st, s, a);
    forall o | o in s'.pcs ensures OnTrack(s', o, s'.pcs[o]) {
      if o == a.actor {
        OwnStepOnTrack(st, s, a);
      } else {
        OtherStepOnTrack(st, s, a, o);
      }
    }
    StoredGuardIsAnEnd(st, s, a);
  }

  lemma StoredGuardIsAnEnd(st: Settings, s: Sys, a: Act)
    requires st.Valid() && SysOk(st, s) && Forward(s) && Enabled(s, a) && Careful(s, a)
    ensures Recorded(Next(st, s, a))
  {
    if a.step.WritesEnd? {
      EndIsRecorded(st, s, a);
    } else {
      assert |Next(st, s, a).log| >= |s.log| && forall k :: 0 <= k < |s.log| ==> Next(st, s, a).log[k] == s.log[k];
      RecordedStays(s, Next(st, s, a));
    }
  }

  lemma RecordedStays(s: Sys, s': Sys)
    requires Recorded(s) && SameGuards(s'.rate, s.rate)
    requires |s'.log| >= |s.log| && forall k :: 0 <= k < |s.log| ==> s'.log[k] == s.log[k]
    ensures Recorded(s')
  {
    if s.rate.lastRequestAt.Some? {
      var k :| 0 <= k < |s.log| && s.log[k].end == s.rate.lastRequestAt;
      assert s'.log[k].end == s'.rate.lastRequestAt;
    }
    if s.rate.cooldownUntil.Some? {
      var k :| 0 <= k < |s.log| && s.log[k].cooldown == s.rate.cooldownUntil;
      assert s'.log[k].cooldown == s'.rate.cooldownUntil;
    }
  }

  lemma EndIsRecorded(st: Settings, s: Sys, a: Act)
    requires st.Valid() && SysOk(st, s) && Forward(s) && Enabled(s, a) && Careful(s, a) && a.step.WritesEnd?
    ensures Recorded(Next(st, s, a))
  {
    var s', index := Next(st, s, a), PcOf(s, a.actor).index;
    assert Live(s, a.actor) && Holder(s, a.actor) && OnTrack(s, a.actor, s.pcs[a.actor]) && MemoryOk(st, s, s.pcs[a.actor]);
    assert s'.log[index].end == s'.rate.lastRequestAt;
    if a.step.outcome.Limited? {
      assert s'.log[index].cooldown == s'.rate.cooldownUntil;
    } else if s'.rate.cooldownUntil.Some? {
      var k :| 0 <= k < |s.log| && s.log[k].cooldown == s.rate.cooldownUntil;
      assert FetchOk(st, s.log[k]);
      assert s'.log[k].cooldown == s'.rate.cooldownUntil;
    }
  }

  lemma {:induction false} CarefulRunMovesForward(st: Settings, ss: seq<Sys>, acts: seq<Act>, i: nat)
    requires st.Valid() && IsRun(st, ss, acts) && i <= |acts| && CarefulUntil(ss, acts, i)
    ensures Forward(ss[i])
    decreases i
  {
    if i > 0 {
      CarefulRunMovesForward(st, ss, acts, i - 1);
      CarefulRunKeeps(st, ss, acts, i - 1);
      GuardsMoveForward(st, ss[i - 1], acts[i - 1]);
    }
  }

  /** The exact condition: after a run that was careful so far, noting the start of a request leaves every recorded
      outcome known if and only if the guards the actor read are still the stored ones. A late note that is not
      fresh always discards an outcome. */
  lemma NoteIsSafeExactly(st: Settings, ss: seq<Sys>, acts: seq<Act>, i: nat)
    requires st.Valid() && IsRun(st, ss, acts) && i < |acts| && CarefulUntil(ss, acts, i)
    requires acts[i].step.WritesStart?
    ensures Knows(ss[i + 1]) <==> Fresh(ss[i], acts[i])
  {
    var s, s' := ss[i], ss[i + 1];
    CarefulRunKeeps(st, ss, acts, i);
    CarefulRunMovesForward(st, ss, acts, i);
    var pc := PcOf(s, acts[i].actor);
    if Fresh(s, acts[i]) {
      StepKeepsLog(st, s, acts[i]);
    } else {
      assert OnTrack(s, acts[i].actor, pc);
      var k :| 0 <= k < |s.log| && s.log[k].end == s.rate.lastRequestAt;
      assert s'.log[k] == s.log[k] && !Covered(s', s'.log[k]);
    }
  }

  // ------------------------------------------------------------------ repeated rate limits

  /** How many rate limits in a row the recorded outcomes end with: a success ends the row, a failure does not. */
  function Streak(log: seq<Fetch>): nat
    decreases |log|
  {
    if log == [] then 0
    else
      var front := log[..|log| - 1];
      match log[|log| - 1].outcome
      case None => Streak(front)
      case Some(Success) => 0
      case Some(Failure) => Streak(front)
      case Some(Limited(_, _)) => Streak(front) + 1
  }

  /** The cooldown of the k-th request, if it was rate limited, is that of its place in the row. */
  predicate CooldownOfPlace(st: Settings, log: seq<Fetch>, k: nat)
    requires k < |log|
  {
    var f := log[k];
    f.outcome.Some? && f.outcome.value.Limited? ==>
      f.end.Some? && f.cooldown == Some(f.end.value + EffectiveCooldown(st, f.outcome.value.retryAfter, Streak(log[..k + 1]), f.outcome.value.sample))
  }

  ghost predicate Counts(st: Settings, s: Sys) {
    s.rate.consecutive == Streak(s.log) && forall k: nat :: k < |s.log| ==> CooldownOfPlace(st, s.log, k)
  }

  lemma PlacesStay(st: Settings, log: seq<Fetch>, more: seq<Fetch>, k: nat)
    requires k < |log| && k < |more| && log[..k + 1] == more[..k + 1] && CooldownOfPlace(st, log, k)
    ensures CooldownOfPlace(st, more, k)
  {
    assert log[k] == log[..k + 1][k] == more[..k + 1][k] == more[k];
  }

  /** Recording the outcome of the last request. */
  lemma EndedRow(st: Settings, log: seq<Fetch>, f: Fetch)
    requires log != [] && log[|log| - 1].outcome.None? && f.outcome.Some?
    requires forall k: nat :: k < |log| ==> CooldownOfPlace(st, log, k)
    ensures var more := log[|log| - 1 := f];
            && Streak(more) == (match f.outcome.value case Success => 0 case Failure => Streak(log) case Limited(_, _) => Streak(log) + 1)
            && (CooldownOfPlace(st, more, |log| - 1) ==> forall k: nat :: k < |more| ==> CooldownOfPlace(st, more, k))
            && more[..|log|] == more
  {
    var n := |log| - 1;
    var more := log[n := f];
    assert more[..n] == log[..n] && more[..n + 1] == more;
    if CooldownOfPlace(st, more, n) {
      forall k: nat | k < |more| ensures CooldownOfPlace(st, more, k) {
        if k < n {
          assert more[..k + 1] == log[..k + 1];
          PlacesStay(st, log, more, k);
        }
      }
    }
  }

  /** What the end of a request writes. */
  ghost predicate Ends(st: Settings, s: Sys, s': Sys, index: nat, current: Time, outcome: Outcome) {
    && index + 1 == |s.log| && |s'.log| == |s.log| && s'.log == s.log[index := s'.log[index]]
    && s'.log[index].outcome == Some(outcome) && s'.log[index].end == Some(current)
    && (match outcome
        case Success => s'.rate.consecutive == 0
        case Failure => s'.rate.consecutive == s.rate.consecutive
        case Limited(retryAfter, sample) =>
          && s'.rate.consecutive == s.rate.consecutive + 1
          && s'.log[index].cooldown == Some(current + EffectiveCooldown(st, retryAfter, s'.rate.consecutive, sample)))
  }

  lemma EndWrites(st: Settings, s: Sys, a: Act)
    requires Enabled(s, a) && a.step.WritesEnd?
    requires PcOf(s, a.actor).index + 1 == |s.log| && PcOf(s, a.actor).rate.consecutive == s.rate.consecutive
    ensures Ends(st, s, Next(st, s, a), PcOf(s, a.actor).index, PcOf(s, a.actor).current, a.step.outcome)
  {
  }

  lemma EndsCount(st: Settings, s: Sys, s': Sys, index: nat, current: Time, outcome: Outcome)
    requires Counts(st, s) && Ends(st, s, s', index, current, outcome) && s.log[index].outcome.None?
    ensures Counts(st, s')
  {
    EndedRow(st, s.log, s'.log[index]);
    assert s'.log[..index + 1] == s'.log;
    assert CooldownOfPlace(st, s'.log, index);
  }

  lemma EndCounts(st: Settings, s: Sys, a: Act)
    requires st.Valid() && SysOk(st, s) && Forward(s) && Enabled(s, a) && Careful(s, a) && Counts(st, s) && a.step.WritesEnd?
    ensures Counts(st, Next(st, s, a))
  {
    HolderRemembers(st, s, a);
    EndWrites(st, s, a);
    EndsCount(st, s, Next(st, s, a), PcOf(s, a.actor).index, PcOf(s, a.actor).current, a.step.outcome);
  }

  lemma HolderRemembers(st: Settings, s: Sys, a: Act)
    requires SysOk(st, s) && Forward(s) && Enabled(s, a) && Careful(s, a) && a.step.WritesEnd?
    ensures var pc := PcOf(s, a.actor);
            pc.index + 1 == |s.log| && pc.rate.consecutive == s.rate.consecutive && s.log[pc.index].outcome.None?
  {
    assert Live(s, a.actor) && Holder(s, a.actor) && OnTrack(s, a.actor, s.pcs[a.actor]) && MemoryOk(st, s, s.pcs[a.actor]);
    assert FetchOk(st, s.log[PcOf(s, a.actor).index]);
  }

  lemma OtherStepCounts(st: Settings, s: Sys, a: Act)
    requires st.Valid() && SysOk(st, s) && Forward(s) && Enabled(s, a) && Careful(s, a) && Counts(st, s) && !a.step.WritesEnd?
    ensures Counts(st, Next(st, s, a))
  {
    if a.step.WritesStart? {
      assert OnTrack(s, a.actor, s.pcs[a.actor]);
    } else if a.step.Fetches? {
      var f := Next(st, s, a).log[|s.log|];
      assert Next(st, s, a).log == s.log + [f];
      StartCounts(st, s.log, f);
    }
  }

  /** A request that starts has no place yet. */
  lemma StartCounts(st: Settings, log: seq<Fetch>, f: Fetch)
    requires f.outcome.None? && forall k: nat :: k < |log| ==> CooldownOfPlace(st, log, k)
    ensures Streak(log + [f]) == Streak(log) && forall k: nat :: k < |log + [f]| ==> CooldownOfPlace(st, log + [f], k)
  {
    var more := log + [f];
    assert more[..|log|] == log;
    forall k: nat | k < |log| ensures CooldownOfPlace(st, more, k) {
      assert more[..k + 1] == log[..k + 1];
      PlacesStay(st, log, more, k);
    }
  }

  lemma {:induction false} CarefulRunCounts(st: Settings, ss: seq<Sys>, acts: seq<Act>, i: nat)
    requires st.Valid() && IsRun(st, ss, acts) && i <= |acts| && CarefulUntil(ss, acts, i)
    ensures Counts(st, ss[i])
    decreases i
  {
    if i > 0 {
      CarefulRunCounts(st, ss, acts, i - 1);
      CarefulRunKeeps(st, ss, acts, i - 1);
      CarefulRunMovesForward(st, ss, acts, i - 1);
      if acts[i - 1].step.WritesEnd? {
        EndCounts(st, ss[i - 1], acts[i - 1]);
      } else {
        OtherStepCounts(st, ss[i - 1], acts[i - 1]);
      }
    }
  }

  /** The safety floor, multiplied once for every rate limit in the row after the first, up to the cap. */
  function GrownFloor(st: Settings, place: nat): Time {
    if place <= 1 then st.Floor() else Grow(st, GrownFloor(st, place - 1))
  }

  lemma {:induction false} BackoffIsGrown(st: Settings, place: nat)
    requires st.Valid()
    ensures Backoff(st, place) == GrownFloor(st, place)
  {
    if place <= 1 {
      BackoffMultiplies(st, 0);
    } else {
      BackoffIsGrown(st, place - 1);
      BackoffMultiplies(st, place - 1);
    }
  }

  /** In every careful run the k-th rate limit since the last success stores a cooldown of at least the floor grown
      k - 1 times and at least what the server asked for, and of at most the larger of these and the jitter. */
  lemma RepeatedLimitsBackOff(st: Settings, ss: seq<Sys>, acts: seq<Act>, i: nat, k: nat)
    requires st.Valid() && IsRun(st, ss, acts) && i <= |acts| && CarefulUntil(ss, acts, i) && k < |ss[i].log|
    requires ss[i].log[k].outcome.Some? && ss[i].log[k].outcome.value.Limited?
    ensures var f, place := ss[i].log[k], Streak(ss[i].log[..k + 1]);
            && place >= 1 && f.end.Some? && f.cooldown.Some?
            && var length := f.cooldown.value - f.end.value;
               && GrownFloor(st, place) <= length
               && (f.outcome.value.retryAfter.Some? ==> f.outcome.value.retryAfter.value as real <= length)
               && length <= MaxReal(GrownFloor(st, place), RetryAfter(f.outcome.value.retryAfter)) + st.jitter
  {
    CarefulRunCounts(st, ss, acts, i);
    assert CooldownOfPlace(st, ss[i].log, k);
    var f, place := ss[i].log[k], Streak(ss[i].log[..k + 1]);
    CooldownBounds(st, f.outcome.value.retryAfter, place, f.outcome.value.sample, 0);
    BackoffIsGrown(st, place);
    assert ss[i].log[..k + 1][k] == f;
  }

  // ------------------------------------------------------------------ nobody is kept waiting for longer

  /** The cooldown that the recorded outcomes leave: that of the last rate limit, if no success came after it. */
  function LastCooldown(log: seq<Fetch>): Option<Time>
    decreases |log|
  {
    if log == [] then None
    else
      var front, last := log[..|log| - 1], log[|log| - 1];
      match last.outcome
      case None => LastCooldown(front)
      case Some(Success) => None
      case Some(Failure) => LastCooldown(front)
      case Some(Limited(_, _)) => last.cooldown
  }

  /** The end of the last request whose outcome was recorded, whatever it was. */
  function LastEnd(log: seq<Fetch>): Option<Time>
    decreases |log|
  {
    if log == [] then None
    else if log[|log| - 1].outcome.Some? then log[|log| - 1].end
    else LastEnd(log[..|log| - 1])
  }

  predicate GuardsOfLog(s: Sys) {
    s.rate.cooldownUntil == LastCooldown(s.log) && s.rate.lastRequestAt == LastEnd(s.log)
  }

  lemma EndRemembers(st: Settings, s: Sys, a: Act)
    requires SysOk(st, s) && Forward(s) && Enabled(s, a) && Careful(s, a) && a.step.WritesEnd? && GuardsOfLog(s)
    ensures GuardsOfLog(Next(st, s, a))
  {
    var pc, s' := PcOf(s, a.actor), Next(st, s, a);
    HolderRemembers(st, s, a);
    assert MemoryOk(st, s, pc) && SameGuards(pc.rate, s.rate);
    assert s'.log[..pc.index] == s.log[..pc.index];
  }

  lemma OtherStepRemembers(st: Settings, s: Sys, a: Act)
    requires SysOk(st, s) && Enabled(s, a) && Careful(s, a) && !a.step.WritesEnd? && GuardsOfLog(s)
    ensures GuardsOfLog(Next(st, s, a))
  {
    var s' := Next(st, s, a);
    if a.step.Fetches? {
      assert s'.log[..|s.log|] == s.log;
    }
  }

  lemma {:induction false} CarefulRunRemembers(st: Settings, ss: seq<Sys>, acts: seq<Act>, i: nat)
    requires st.Valid() && IsRun(st, ss, acts) && i <= |acts| && CarefulUntil(ss, acts, i)
    ensures GuardsOfLog(ss[i])
    decreases i
  {
    if i > 0 {
      CarefulRunRemembers(st, ss, acts, i - 1);
      CarefulRunKeeps(st, ss, acts, i - 1);
      CarefulRunMovesForward(st, ss, acts, i - 1);
      if acts[i - 1].step.WritesEnd? {
        EndRemembers(st, ss[i - 1], acts[i - 1]);
      } else {
        OtherStepRemembers(st, ss[i - 1], acts[i - 1]);
      }
    }
  }

  /** In every careful run a request is refused for a cooldown exactly when the last rate limit is followed by no
      success and its cooldown is not over; a request that goes on starts at once, or as soon as the interval after
      the last recorded end is over. */
  lemma WaitsNoLonger(st: Settings, ss: seq<Sys>, acts: seq<Act>, i: nat)
    requires st.Valid() && IsRun(st, ss, acts) && i < |acts| && CarefulUntil(ss, acts, i)
    requires acts[i].step.Reads?
    ensures var log, current, pc := ss[i].log, acts[i].step.current, PcOf(ss[i + 1], acts[i].actor);
            && (pc.Dropping? <==> LastCooldown(log).Some? && LastCooldown(log).value > current)
            && (!pc.Dropping? ==>
                && pc.HasRead? && pc.current == current
                && var start := current + WaitSeconds(st, pc.rate, current);
                   start == if LastEnd(log).Some? then MaxReal(current, LastEnd(log).value + st.interval) else current)
  {
    CarefulRunRemembers(st, ss, acts, i);
  }

  // ------------------------------------------------------------------ how long a request waits and a lease lasts

  /** The wait ends at the earliest time that is now or later and the interval after the last request. */
  lemma WaitIsLeast(st: Settings, rate: Rate, current: Time)
    ensures var start := current + WaitSeconds(st, rate, current);
            && start >= current && (rate.lastRequestAt.Some? ==> start >= rate.lastRequestAt.value + st.interval)
            && (start == current || (rate.lastRequestAt.Some? && start == rate.lastRequestAt.value + st.interval))
  {
  }

  /** The lease that before_request asks for outlasts the wait, the request and one wait for the store. */
  lemma LeaseOutlastsTheRequest(st: Settings, wait: Time)
    ensures LeaseSeconds(st, wait) >= st.leaseTimeout
    ensures LeaseSeconds(st, wait) >= wait + st.requestTimeout + st.storeTimeout + 5.0
  {
  }

  /** Spacing admits a request at `t`, as far as recorded outcomes go. */
  ghost predicate Admits(st: Settings, log: seq<Fetch>, t: Time) {
    forall k :: 0 <= k < |log| ==> Apart(st, log[k], Fetch(0, t, None, None, None))
  }

  /** From a time on, the earliest start that the guards of a rate state admit. */
  function EarliestStart(st: Settings, rate: Rate, from: Time): Time {
    var after := if rate.lastRequestAt.Some? then MaxReal(from, rate.lastRequestAt.value + st.interval) else from;
    if rate.cooldownUntil.Some? then MaxReal(after, rate.cooldownUntil.value) else after
  }

  /** The stored guards admit exactly the starts that spacing admits. */
  lemma GuardsAreExact(st: Settings, s: Sys, t: Time)
    requires SysOk(st, s) && Forward(s) && t >= s.now
    ensures Spaced(st, s.rate, t) <==> Admits(st, s.log, t)
  {
    if Spaced(st, s.rate, t) {
      forall k | 0 <= k < |s.log| ensures Apart(st, s.log[k], Fetch(0, t, None, None, None)) {
        assert Covered(s, s.log[k]);
      }
    }
  }

  /** A request that the noted rate state lets start at `t` although spacing forbids it. */
  ghost predicate LetsThrough(st: Settings, s: Sys, t: Time) {
    t >= s.now && Spaced(st, s.rate, t) && !Admits(st, s.log, t)
  }

  /** When a discarded outcome still matters: after a run that was careful so far, a note lets some request start too
      early if and only if the guards that were stored admit a start only later than those it writes. */
  lemma NoteBreaksSpacingExactly(st: Settings, ss: seq<Sys>, acts: seq<Act>, i: nat)
    requires st.Valid() && IsRun(st, ss, acts) && i < |acts| && CarefulUntil(ss, acts, i)
    requires acts[i].step.WritesStart?
    ensures var s, s' := ss[i], ss[i + 1];
            (exists t :: LetsThrough(st, s', t)) <==> EarliestStart(st, s.rate, s'.now) > EarliestStart(st, s'.rate, s'.now)
  {
    var s, s' := ss[i], ss[i + 1];
    CarefulRunKeeps(st, ss, acts, i);
    CarefulRunMovesForward(st, ss, acts, i);
    forall t | t >= s'.now ensures LetsThrough(st, s', t) <==> EarliestStart(st, s'.rate, s'.now) <= t < EarliestStart(st, s.rate, s'.now) {
      GuardsAreExact(st, s, t);
    }
    var first := EarliestStart(st, s'.rate, s'.now);
    if EarliestStart(st, s.rate, s'.now) > first {
      assert LetsThrough(st, s', first);
    }
  }

  /** Two actors, that is, two owner tokens, within their leases are never both between taking the lease and giving
      it back. */
  lemma OneActorHoldsTheLease(st: Settings, ss: seq<Sys>, acts: seq<Act>, i: nat, o: Owner, p: Owner)
    requires st.Valid() && IsRun(st, ss, acts) && i < |ss| && Live(ss[i], o) && Live(ss[i], p)
    ensures o == p
  {
    LeaseAlwaysOk(st, ss, acts, i);
    assert o in ss[i].pcs && p in ss[i].pcs;
  }

  lemma {:induction false} LeaseAlwaysOk(st: Settings, ss: seq<Sys>, acts: seq<Act>, i: nat)
    requires st.Valid() && IsRun(st, ss, acts) && i < |ss|
    ensures LeaseOk(ss[i])
  {
    if i > 0 {
      LeaseAlwaysOk(st, ss, acts, i - 1);
      StepKeepsLease(st, ss[i - 1], acts[i - 1]);
    }
  }
}
