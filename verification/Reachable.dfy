/** What holds in every state the concurrent machine can reach. */
module Reachable {
  import opened Wrappers
  import opened Money
  import opened Database
  import opened Posting
  import opened Settlement
  import opened Serial
  import opened Evolution
  import opened Balances
  import opened Refunds
  import opened Keys
  import opened PaidOnce
  import opened Payouts
  import opened Machine
  import opened Invariant
  import opened Statements
  import opened Serializability
  import Reconcile

  /** Stored balances are derived balances and, where they must be, non-negative; refunds are
      bounded; committed keys are complete and faithful; and merchants have been paid the
      positive worth of each batch, which is what their settled payments were worth exactly
      when no batch found a negative amount. */
  lemma EveryState(cfg: Config, s0: Sys, trace: seq<Event>)
    requires Start(cfg, s0) && Exec(cfg, s0, trace).Some?
    ensures var s := Exec(cfg, s0, trace).value;
            && Run(cfg, s0.db, s.log) == Ok(s.db)
            && GoodDb(s.db) && Derived(s.db) && Validated(s.db.journal) && NonNegative(s.db.accounts)
            && RefundsBounded(s.db.journal) && KeysFaithful(cfg, s.db)
            && forall m ::
                 && PaidBy(s.db.journal, m) == SettledDue(cfg, s0.db, s.log, m)
                 && (PaidBy(s.db.journal, m) == SettledWorth(cfg, s0.db, s.log, m)
                     <==> BatchesCovered(cfg, s0.db, s.log, m))
  {
    var s := Exec(cfg, s0, trace).value;
    Serializable(cfg, s0, trace);
    RunKeepsGood(cfg, s0.db, s.log);
    RunDerived(cfg, s0.db, s.log);
    RunNonNegative(cfg, s0.db, s.log);
    RunRefundsBounded(cfg, s0.db, s.log);
    RunKeysFaithful(cfg, s0.db, s.log);
    forall m
      ensures PaidBy(s.db.journal, m) == SettledDue(cfg, s0.db, s.log, m)
      ensures PaidBy(s.db.journal, m) == SettledWorth(cfg, s0.db, s.log, m) <==> BatchesCovered(cfg, s0.db, s.log, m)
    {
      PaidOutIsDue(cfg, s0.db, s.log, m);
      PaidOutIsWorth(cfg, s0.db, s.log, m);
    }
  }

  /** A settlement in its payout loop over merchants whose history is friendly is never
      rejected, for insufficient funds or otherwise: its next statement goes through. */
  lemma FriendlyPayouts(cfg: Config, s0: Sys, trace: seq<Event>, pid: nat)
    requires Start(cfg, s0) && Exec(cfg, s0, trace).Some?
    requires var s := Exec(cfg, s0, trace).value;
             && pid in s.procs && s.procs[pid].SettleProc? && s.procs[pid].spc.Pay?
             && Run(cfg, s0.db, s.log).Ok? && FriendlyMerchants(cfg, s0.db, s.log, s.procs[pid].spc.merchants)
    ensures var s := Exec(cfg, s0, trace).value;
            && Next(cfg, s, Step(pid)).Some?
            && pid in Next(cfg, s, Step(pid)).value.procs && !Next(cfg, s, Step(pid)).value.procs[pid].Ended?
  {
    ExecKeeps(cfg, s0, trace);
    var s := Exec(cfg, s0, trace).value;
    var p := s.procs[pid];
    assert ProcOk(cfg, s.db, p);
    FriendlyArePayable(cfg, s0.db, s.log, p.spc.merchants);
    PayGoesOn(cfg, s, pid, p);
  }

  lemma PayGoesOn(cfg: Config, s: Sys, pid: nat, p: Proc)
    requires p.SettleProc? && p.spc.Pay? && SettlePcOk(cfg, s.db, p.spc) && Payable(cfg, s.db, p.spc.merchants)
    ensures StepSettle(cfg, s, pid, p).Some?
    ensures pid in StepSettle(cfg, s, pid, p).value.procs && !StepSettle(cfg, s, pid, p).value.procs[pid].Ended?
  {
    var c := p.spc;
    if c.k < |c.nets| {
      NextPayout(cfg, s.db, c.merchants, c.k, c.txns, c.b);
      RelockCovered(cfg, s.db, c.merchants, c.payouts, c.nets, c.k);
    }
  }

  /** No two transactions hold the same account, and the rows a posting read under its locks
      are the committed rows for as long as it runs: no update is lost. */
  lemma ReadsStayCurrent(cfg: Config, s0: Sys, trace: seq<Event>, pid: nat)
    requires Start(cfg, s0) && Exec(cfg, s0, trace).Some? && pid in Exec(cfg, s0, trace).value.procs
    ensures var s := Exec(cfg, s0, trace).value;
            var p := s.procs[pid];
            && (forall q | q in s.procs && q != pid :: Held(s.procs[q]) !! Held(p))
            && (p.PostProc? && p.pc.Write? ==>
                  forall a | a in p.pc.seen :: a in s.db.accounts && p.pc.seen[a] == s.db.accounts[a])
            && (p.PostProc? && p.pc.CommitPost? ==>
                  CheckPost(s.db.accounts, p.job.entry.legs, GuardVerdict(s.db.journal, p.job.guard)) == Ok(p.pc.nb))
  {
    ExecKeeps(cfg, s0, trace);
    var s := Exec(cfg, s0, trace).value;
    assert ProcOk(cfg, s.db, s.procs[pid]);
    forall q | q in s.procs && q != pid ensures Held(s.procs[q]) !! Held(s.procs[pid]) {
      assert Apart(s.procs[pid], s.procs[q]);
    }
  }

  /** The two netting queries agree, although each reads the latest committed data: at the
      commit of a settlement the ids it marks are exactly the pending payments its nets were
      computed from, and each net is captured minus refunded over its own ids. */
  lemma QueriesAgree(cfg: Config, s0: Sys, trace: seq<Event>, pid: nat, m: int, c: Currency)
    requires Start(cfg, s0) && Exec(cfg, s0, trace).Some?
    requires var s := Exec(cfg, s0, trace).value;
             pid in s.procs && s.procs[pid].SettleProc? && s.procs[pid].spc.CommitSettle?
    ensures var s := Exec(cfg, s0, trace).value;
            var q := s.procs[pid].spc;
            var pends := Pendings(s.db.journal, q.merchants);
            && q.marked == PendIds(pends) && q.count == |pends|
            && NetFor(q.nets, m, c) == OwedBy(s.db.journal, pends, m, c)
            && (HasGroup(q.nets, m, c) <==>
                  exists i | 0 <= i < |pends| :: pends[i].merchant == m && pends[i].currency == c)
  {
    ExecKeeps(cfg, s0, trace);
    var s := Exec(cfg, s0, trace).value;
    var q := s.procs[pid].spc;
    assert ProcOk(cfg, s.db, s.procs[pid]);
    NetsAreGroupSums(s.db.journal, Pendings(s.db.journal, q.merchants), m, c);
  }

  /** A reconciliation of any reachable state finds no drift, and is OK exactly when every raw
      journal entry committed so far was balanced in exact integers. */
  lemma ReconcileFindsNoDrift(cfg: Config, s0: Sys, trace: seq<Event>, rep: Reconcile.Report)
    requires Start(cfg, s0) && Exec(cfg, s0, trace).Some?
    requires Reconcile.Reports(Exec(cfg, s0, trace).value.db, rep)
    ensures rep.drift == [] && rep.conservationOk
    ensures rep.ok <==> BalancedEntries(Exec(cfg, s0, trace).value.log)
  {
    Serializable(cfg, s0, trace);
    Reconcile.ReachableReport(cfg, s0.db, Exec(cfg, s0, trace).value.log, rep);
  }
}
