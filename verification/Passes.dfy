/** How often workers get to the network: at most once for each attempt of an item, and for a budget at most as often
    as it was charged. Every fetch is preceded by its own pass of the second ownership gate. */
module Passes {
  import opened Common
  import opened Worker
  import Q = Queue
  import C = Charges

  type Try = (RequestId, nat)

  function TryOf(pc: Pc): Try
    requires pc.Busy?
  {
    (pc.item, pc.attempt)
  }

  /** The step takes its worker through the second gate. */
  ghost predicate IsPass(s: Sys, e: Timed) {
    && Enabled(s, e) && e.event.Work? && e.event.does.PassesFence?
    && PcOf(Next(s, e), e.event.owner).Busy? && PcOf(Next(s, e), e.event.owner).phase.Fenced?
  }

  /** The attempts for which a worker passed the second gate in the first `n` steps. */
  ghost function Passed(ss: seq<Sys>, es: seq<Timed>, n: nat): set<Try>
    requires |ss| == |es| + 1 && n <= |es|
    decreases n
  {
    if n == 0 then {}
    else
      Passed(ss, es, n - 1) +
      if IsPass(ss[n - 1], es[n - 1]) then {TryOf(PcOf(Next(ss[n - 1], es[n - 1]), es[n - 1].event.owner))} else {}
  }

  predicate Late(phase: Phase) { phase in {Fenced, Cleared, Completing, Leaving, Ending} }

  /** Attempts only grow, and every worker has its own. */
  ghost predicate TriesOk(s: Sys) {
    && (forall o :: o in s.pcs && s.pcs[o].Busy? && s.pcs[o].item in s.ledger.db.items ==>
          s.pcs[o].attempt <= s.ledger.db.items[s.pcs[o].item].attempts)
    && (forall o, p :: o in s.pcs && p in s.pcs && o != p && s.pcs[o].Busy? && s.pcs[p].Busy? ==>
          TryOf(s.pcs[o]) != TryOf(s.pcs[p]))
  }

  ghost predicate PassedOk(s: Sys, passed: set<Try>) {
    && (forall t :: t in passed ==>
          t.0 in s.ledger.issued && (t.0 in s.ledger.db.items ==> t.1 <= s.ledger.db.items[t.0].attempts))
    && (forall o :: o in s.pcs && s.pcs[o].Busy? && TryOf(s.pcs[o]) in passed ==> Late(s.pcs[o].phase))
  }

  // ------------------------------------------------------------------ one step

  /** An attempt number that was reached stays below the item's. */
  lemma AttemptsGrow(s: Sys, e: Timed, r: RequestId, n: nat)
    requires SysOk(s) && Enabled(s, e)
    requires r in s.ledger.issued && (r in s.ledger.db.items ==> n <= s.ledger.db.items[r].attempts)
    ensures r in Next(s, e).ledger.issued
    ensures r in Next(s, e).ledger.db.items ==> n <= Next(s, e).ledger.db.items[r].attempts
  {
    LedgerOfNext(s, e);
    TxIsAllowed(s, e);
    if TxOf(s, e).Some? {
      var tx := C.At(e.now, TxOf(s, e).value);
      if r in C.Apply(s.ledger.db, tx).items {
        C.ItemsOrigin(s.ledger.db, tx, r);
        C.ItemsEvolve(s.ledger.db, tx, r);
      }
    }
  }

  lemma ClaimTakesNewTry(s: Sys, e: Timed)
    requires Enabled(s, e) && e.event.Work? && e.event.does.Claims?
    ensures var r, pc := e.event.does.item, PcOf(Next(s, e), e.event.owner);
            && r in s.ledger.db.items
            && pc.Busy? && pc.item == r && pc.attempt == s.ledger.db.items[r].attempts + 1 && pc.phase.Planning?
            && r in Next(s, e).ledger.db.items && Next(s, e).ledger.db.items[r].attempts == pc.attempt
  {}

  lemma LateStaysLate(s: Sys, e: Timed)
    requires Enabled(s, e) && e.event.Work? && !e.event.does.Claims? && PcOf(Next(s, e), e.event.owner).Busy?
    requires Late(PcOf(s, e.event.owner).phase)
    ensures Late(PcOf(Next(s, e), e.event.owner).phase)
    ensures !IsPass(s, e)
  {}

  lemma TriesKeep(s: Sys, e: Timed)
    requires SysOk(s) && Enabled(s, e) && TriesOk(s)
    ensures TriesOk(Next(s, e))
  {
    var s' := Next(s, e);
    forall o | o in s'.pcs && s'.pcs[o].Busy? && s'.pcs[o].item in s'.ledger.db.items
      ensures s'.pcs[o].attempt <= s'.ledger.db.items[s'.pcs[o].item].attempts
    {
      TryKept(s, e, o);
    }
    forall o, p | o in s'.pcs && p in s'.pcs && o != p && s'.pcs[o].Busy? && s'.pcs[p].Busy?
      ensures TryOf(s'.pcs[o]) != TryOf(s'.pcs[p])
    {
      PcOfNext(s, e, o);
      PcOfNext(s, e, p);
      if e.event.Work? && e.event.does.Claims? {
        ClaimTakesNewTry(s, e);
      }
    }
  }

  lemma TryKept(s: Sys, e: Timed, o: Owner)
    requires SysOk(s) && Enabled(s, e) && TriesOk(s) && PcOf(Next(s, e), o).Busy?
    ensures var pc, items := PcOf(Next(s, e), o), Next(s, e).ledger.db.items; pc.item in items ==> pc.attempt <= items[pc.item].attempts
  {
    PcOfNext(s, e, o);
    if e.event.Work? && e.event.owner == o && e.event.does.Claims? {
      ClaimTakesNewTry(s, e);
    } else {
      assert PcOk(s, o, s.pcs[o]);
      AttemptsGrow(s, e, s.pcs[o].item, s.pcs[o].attempt);
    }
  }

  /** No step passes for an attempt that was passed before, and what is passed stays so. */
  lemma PassedKeep(s: Sys, e: Timed, passed: set<Try>)
    requires SysOk(s) && Enabled(s, e) && TriesOk(s) && PassedOk(s, passed)
    ensures PassedOk(Next(s, e), passed)
    ensures IsPass(s, e) ==> TryOf(PcOf(Next(s, e), e.event.owner)) !in passed
  {
    var s' := Next(s, e);
    forall t | t in passed
      ensures t.0 in s'.ledger.issued && (t.0 in s'.ledger.db.items ==> t.1 <= s'.ledger.db.items[t.0].attempts)
    {
      AttemptsGrow(s, e, t.0, t.1);
    }
    forall o | o in s'.pcs && s'.pcs[o].Busy? && TryOf(s'.pcs[o]) in passed
      ensures Late(s'.pcs[o].phase) && !(IsPass(s, e) && o == e.event.owner)
    {
      PcOfNext(s, e, o);
      if e.event.Work? && e.event.owner == o {
        if e.event.does.Claims? {
          ClaimTakesNewTry(s, e);
        } else {
          LateStaysLate(s, e);
        }
      }
    }
  }

  /** The pass itself is remembered. */
  lemma PassJoins(s: Sys, e: Timed, passed: set<Try>)
    requires SysOk(s) && Enabled(s, e) && TriesOk(Next(s, e)) && PassedOk(Next(s, e), passed) && IsPass(s, e)
    requires SysOk(Next(s, e))
    ensures PassedOk(Next(s, e), passed + {TryOf(PcOf(Next(s, e), e.event.owner))})
  {
    var s', o := Next(s, e), e.event.owner;
    assert o in s'.pcs && PcOk(s', o, s'.pcs[o]);
    forall p | p in s'.pcs && s'.pcs[p].Busy? && TryOf(s'.pcs[p]) == TryOf(s'.pcs[o]) ensures p == o {
    }
  }

  lemma {:induction false} RunRemembersPasses(ss: seq<Sys>, es: seq<Timed>, n: nat)
    requires IsRun(ss, es) && n <= |es|
    ensures TriesOk(ss[n]) && PassedOk(ss[n], Passed(ss, es, n))
    decreases n
  {
    if n > 0 {
      var s, e := ss[n - 1], es[n - 1];
      RunRemembersPasses(ss, es, n - 1);
      RunKeeps(ss, es, n - 1);
      RunKeeps(ss, es, n);
      TriesKeep(s, e);
      PassedKeep(s, e, Passed(ss, es, n - 1));
      if IsPass(s, e) {
        PassJoins(s, e, Passed(ss, es, n - 1));
      }
    }
  }

  lemma {:induction false} PassIsRemembered(ss: seq<Sys>, es: seq<Timed>, k: nat, n: nat)
    requires |ss| == |es| + 1 && k < n <= |es| && IsPass(ss[k], es[k])
    ensures TryOf(PcOf(Next(ss[k], es[k]), es[k].event.owner)) in Passed(ss, es, n)
    decreases n
  {
    if k < n - 1 {
      PassIsRemembered(ss, es, k, n - 1);
    }
  }

  // ------------------------------------------------------------------ the theorems

  /** In every run the second gate is passed at most once for each attempt of an item, by whatever workers. */
  lemma EachAttemptPassesOnce(ss: seq<Sys>, es: seq<Timed>, i: nat, j: nat)
    requires IsRun(ss, es) && i < j < |es| && IsPass(ss[i], es[i]) && IsPass(ss[j], es[j])
    ensures TryOf(PcOf(ss[i + 1], es[i].event.owner)) != TryOf(PcOf(ss[j + 1], es[j].event.owner))
  {
    RunRemembersPasses(ss, es, j);
    RunKeeps(ss, es, j);
    PassedKeep(ss[j], es[j], Passed(ss, es, j));
    PassIsRemembered(ss, es, i, j);
  }

  /** The steps in which a worker passed the second gate for an attempt that a budget takes part in. */
  ghost predicate IsPassFor(ss: seq<Sys>, es: seq<Timed>, b: BudgetId, k: nat)
    requires |ss| == |es| + 1
  {
    && k < |es| && IsPass(ss[k], es[k])
    && var r := PcOf(Next(ss[k], es[k]), es[k].event.owner).item;
       r in ss[k + 1].ledger.db.items && Q.Active(ss[k + 1].ledger.db.items[r], b)
  }

  ghost function PassesFor(ss: seq<Sys>, es: seq<Timed>, b: BudgetId, n: nat): set<nat>
    requires |ss| == |es| + 1
  {
    set k: nat | k < n && IsPassFor(ss, es, b, k)
  }

  /** The charges of a budget grow at their end. */
  ghost predicate Grown(s: Sys, s': Sys, b: BudgetId) {
    b in s.ledger.accounts ==>
      b in s'.ledger.accounts && s.ledger.accounts[b].charges <= s'.ledger.accounts[b].charges
  }

  lemma GrownTwice(s: Sys, s': Sys, s'': Sys, b: BudgetId)
    requires Grown(s, s', b) && Grown(s', s'', b)
    ensures Grown(s, s'', b)
  {
  }

  lemma ChargesStay(s: Sys, e: Timed, b: BudgetId)
    requires Enabled(s, e)
    ensures Grown(s, Next(s, e), b)
  {
    LedgerOfNext(s, e);
  }

  lemma {:induction false} ChargesStayInRun(ss: seq<Sys>, es: seq<Timed>, b: BudgetId, k: nat, n: nat)
    requires IsRun(ss, es) && k <= n < |ss|
    ensures Grown(ss[k], ss[n], b)
    decreases n
  {
    if k < n {
      var i := n - 1;
      ChargesStay(ss[i], es[i], b);
      ChargesStayInRun(ss, es, b, k, i);
      GrownTwice(ss[k], ss[i], ss[n], b);
    }
  }

  ghost function CauseAt(ss: seq<Sys>, es: seq<Timed>, k: nat): C.Cause
    requires |ss| == |es| + 1 && k < |es| && IsPass(ss[k], es[k])
  {
    var pc := PcOf(Next(ss[k], es[k]), es[k].event.owner);
    C.Attempt(pc.item, pc.attempt)
  }

  lemma PassIsCharged(ss: seq<Sys>, es: seq<Timed>, b: BudgetId, k: nat, n: nat)
    requires IsRun(ss, es) && k < n <= |es| && IsPassFor(ss, es, b, k)
    ensures b in ss[n].ledger.accounts && CauseAt(ss, es, k) in ss[n].ledger.accounts[b].charges
  {
    SecondGateIsPaid(ss, es, k, es[k].event.owner);
    ChargesStayInRun(ss, es, b, k + 1, n);
  }

  lemma NotLast(cs: seq<C.Cause>, c: C.Cause)
    requires c in cs && c != cs[|cs| - 1]
    ensures c in cs[..|cs| - 1]
  {
    var i :| 0 <= i < |cs| && cs[i] == c;
    assert cs[..|cs| - 1][i] == c;
  }

  lemma {:induction false} FewCauses(ks: set<nat>, f: map<nat, C.Cause>, cs: seq<C.Cause>)
    requires ks <= f.Keys && forall k :: k in ks ==> f[k] in cs
    requires forall j, k :: j in ks && k in ks && j != k ==> f[j] != f[k]
    ensures |ks| <= |cs|
    decreases |cs|
  {
    if ks != {} {
      var some :| some in ks;
      assert f[some] in cs;
      var last, front := cs[|cs| - 1], cs[..|cs| - 1];
      var rest := set k | k in ks && f[k] != last;
      forall k | k in rest ensures f[k] in front {
        NotLast(cs, f[k]);
      }
      FewCauses(rest, f, front);
      if rest != ks {
        var k :| k in ks && k !in rest;
        assert ks == rest + {k};
      }
    }
  }

  /** Over every run, workers pass the second gate for attempts that a budget takes part in at most as often as the
      budget was charged, and so at most as often as its limit allows. */
  lemma BudgetBoundsFetches(ss: seq<Sys>, es: seq<Timed>, b: BudgetId, n: nat)
    requires IsRun(ss, es) && n <= |es| && b in ss[n].ledger.accounts
    ensures |PassesFor(ss, es, b, n)| <= |ss[n].ledger.accounts[b].charges| <= ss[n].ledger.accounts[b].limit
  {
    var ks := PassesFor(ss, es, b, n);
    var f := map k: nat | k in ks :: CauseAt(ss, es, k);
    forall k | k in ks ensures f[k] in ss[n].ledger.accounts[b].charges {
      PassIsCharged(ss, es, b, k, n);
    }
    forall j, k | j in ks && k in ks && j != k ensures f[j] != f[k] {
      EachAttemptPassesOnce(ss, es, if j < k then j else k, if j < k then k else j);
    }
    FewCauses(ks, f, ss[n].ledger.accounts[b].charges);
    RunKeeps(ss, es, n);
    assert C.AccountOk(ss[n].ledger, b);
  }
}
