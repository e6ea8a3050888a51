/** Every statement before a commit keeps the invariant. */
module Statements {
  import opened Wrappers
  import opened Int64
  import opened Money
  import opened Ledger
  import opened Database
  import opened Posting
  import opened Settlement
  import opened Serial
  import opened Machine
  import opened Invariant

  // ---------- posting steps ----------

  /** Having locked every row means having seen every account of the entry. */
  lemma AllSeen(ids: seq<int>, seen: map<int, Account>)
    requires Ascending(ids) && seen.Keys <= Elements(ids) && |seen| == |ids|
    ensures seen.Keys == Elements(ids)
  {
    AscendingSize(ids);
    SubsetFull(seen.Keys, Elements(ids));
  }

  lemma CheckedUnderLocks(db: Db, job: Job, seen: map<int, Account>)
    requires PostPcOk(db, job, Write(seen))
    ensures CheckPost(seen, job.entry.legs, Ok(())) ==
            CheckPost(db.accounts, job.entry.legs, GuardVerdict(db.journal, job.guard))
  {
    CheckPostFrame(seen, db.accounts, job.entry.legs, Ok(()));
    assert GuardVerdict(db.journal, job.guard) == Ok(());
  }

  /** A posting transaction that can run its next statement. */
  ghost predicate PostReady(cfg: Config, init: Db, s: Sys, pid: nat) {
    && Inv(cfg, init, s) && pid in s.procs && s.procs[pid].PostProc?
    && StepPost(s, pid, s.procs[pid]).Some?
  }

  lemma ClaimStep(cfg: Config, init: Db, s: Sys, pid: nat)
    requires PostReady(cfg, init, s, pid) && s.procs[pid].pc.Claim?
    ensures Inv(cfg, init, StepPost(s, pid, s.procs[pid]).value)
  {
    var p := s.procs[pid];
    assert ProcOk(cfg, s.db, p) && IdsOk(s.db, s.nextTxn, s.nextBatch, p);
    var r := if p.key == "" then p.(pc := Check)
             else if p.key in s.db.keys then p.(pc := ReadReplay)
             else p.(mine := Some(KeyRow(p.req, None, false)), pc := Check);
    Moved(cfg, init, s, pid, r, s.nextTxn, s.nextBatch);
  }

  lemma CheckNextOk(cfg: Config, s: Sys, pid: nat, p: Proc)
    requires p.PostProc? && p.pc.Check? && ValidateLegs(p.job.entry.legs).Ok?
    requires ProcOk(cfg, s.db, p) && IdsOk(s.db, s.nextTxn, s.nextBatch, p)
    ensures var r := p.(pc := Lock(0, map[]));
            ProcOk(cfg, s.db, r) && IdsOk(s.db, s.nextTxn, s.nextBatch, r) && Claims(s, pid, p, r)
  {}

  lemma CheckStep(cfg: Config, init: Db, s: Sys, pid: nat)
    requires PostReady(cfg, init, s, pid) && s.procs[pid].pc.Check?
    ensures Inv(cfg, init, StepPost(s, pid, s.procs[pid]).value)
  {
    var p := s.procs[pid];
    assert ProcOk(cfg, s.db, p) && IdsOk(s.db, s.nextTxn, s.nextBatch, p);
    if ValidateLegs(p.job.entry.legs).Err? {
      Failing(cfg, init, s, pid, ValidateLegs(p.job.entry.legs).error);
    } else {
      CheckNextOk(cfg, s, pid, p);
      Moved(cfg, init, s, pid, p.(pc := Lock(0, map[])), s.nextTxn, s.nextBatch);
    }
  }

  lemma LockDone(db: Db, job: Job, i: nat, seen: map<int, Account>)
    requires PostPcOk(db, job, Lock(i, seen)) && i == |PostLocks(job)| == |seen|
    ensures PostPcOk(db, job, RunGuard(seen))
  {
    assert PostLocks(job)[..i] == PostLocks(job);
    AllSeen(PostLocks(job), seen);
  }

  ghost function LockNext(db: Db, p: Proc): Proc
    requires p.PostProc? && p.pc.Lock? && p.pc.i < |PostLocks(p.job)|
  {
    var a := PostLocks(p.job)[p.pc.i];
    p.(pc := Lock(p.pc.i + 1, if a in db.accounts then p.pc.seen[a := db.accounts[a]] else p.pc.seen))
  }

  lemma LockNextOk(cfg: Config, s: Sys, pid: nat, p: Proc)
    requires p.PostProc? && p.pc.Lock? && p.pc.i < |PostLocks(p.job)|
    requires ProcOk(cfg, s.db, p) && IdsOk(s.db, s.nextTxn, s.nextBatch, p)
    requires var a := PostLocks(p.job)[p.pc.i]; a in s.db.accounts ==> FreeAccount(s, pid, a)
    ensures ProcOk(cfg, s.db, LockNext(s.db, p)) && IdsOk(s.db, s.nextTxn, s.nextBatch, LockNext(s.db, p))
    ensures Claims(s, pid, p, LockNext(s.db, p))
  {}

  lemma LockStep(cfg: Config, init: Db, s: Sys, pid: nat)
    requires PostReady(cfg, init, s, pid) && s.procs[pid].pc.Lock?
    ensures Inv(cfg, init, StepPost(s, pid, s.procs[pid]).value)
  {
    var p := s.procs[pid];
    assert ProcOk(cfg, s.db, p) && IdsOk(s.db, s.nextTxn, s.nextBatch, p);
    if p.pc.i < |PostLocks(p.job)| {
      LockNextOk(cfg, s, pid, p);
      Moved(cfg, init, s, pid, LockNext(s.db, p), s.nextTxn, s.nextBatch);
    } else {
      LockEnd(cfg, init, s, pid);
    }
  }

  lemma LockEndOk(cfg: Config, s: Sys, pid: nat, p: Proc)
    requires p.PostProc? && p.pc.Lock? && p.pc.i >= |PostLocks(p.job)| == |p.pc.seen|
    requires ProcOk(cfg, s.db, p) && IdsOk(s.db, s.nextTxn, s.nextBatch, p)
    ensures var r := p.(pc := RunGuard(p.pc.seen));
            ProcOk(cfg, s.db, r) && IdsOk(s.db, s.nextTxn, s.nextBatch, r) && Claims(s, pid, p, r)
  {
    LockDone(s.db, p.job, p.pc.i, p.pc.seen);
    LockEndClaims(s, pid, p);
  }

  lemma LockEndClaims(s: Sys, pid: nat, p: Proc)
    requires p.PostProc? && p.pc.Lock? && p.pc.i >= |PostLocks(p.job)|
    requires IdsOk(s.db, s.nextTxn, s.nextBatch, p)
    ensures IdsOk(s.db, s.nextTxn, s.nextBatch, p.(pc := RunGuard(p.pc.seen)))
    ensures Claims(s, pid, p, p.(pc := RunGuard(p.pc.seen)))
  {}

  lemma LockEnd(cfg: Config, init: Db, s: Sys, pid: nat)
    requires PostReady(cfg, init, s, pid) && s.procs[pid].pc.Lock?
    requires s.procs[pid].pc.i >= |PostLocks(s.procs[pid].job)|
    ensures Inv(cfg, init, StepPost(s, pid, s.procs[pid]).value)
  {
    var p := s.procs[pid];
    var seen := p.pc.seen;
    assert ProcOk(cfg, s.db, p) && IdsOk(s.db, s.nextTxn, s.nextBatch, p);
    if |seen| != |PostLocks(p.job)| {
      Failing(cfg, init, s, pid, AccountNotFound);
    } else {
      LockEndOk(cfg, s, pid, p);
      Moved(cfg, init, s, pid, p.(pc := RunGuard(seen)), s.nextTxn, s.nextBatch);
    }
  }

  lemma GuardNextOk(cfg: Config, s: Sys, pid: nat, p: Proc)
    requires p.PostProc? && p.pc.RunGuard? && ProcOk(cfg, s.db, p) && GuardVerdict(s.db.journal, p.job.guard).Ok?
    ensures var r := p.(pc := Write(p.pc.seen));
            ProcOk(cfg, s.db, r) && IdsOk(s.db, s.nextTxn, s.nextBatch, r) && Claims(s, pid, p, r)
  {}

  lemma GuardStep(cfg: Config, init: Db, s: Sys, pid: nat)
    requires PostReady(cfg, init, s, pid) && s.procs[pid].pc.RunGuard?
    ensures Inv(cfg, init, StepPost(s, pid, s.procs[pid]).value)
  {
    var p := s.procs[pid];
    assert ProcOk(cfg, s.db, p) && IdsOk(s.db, s.nextTxn, s.nextBatch, p);
    var g := GuardVerdict(s.db.journal, p.job.guard);
    if g.Err? {
      Failing(cfg, init, s, pid, g.error);
    } else {
      GuardNextOk(cfg, s, pid, p);
      Moved(cfg, init, s, pid, p.(pc := Write(p.pc.seen)), s.nextTxn, s.nextBatch);
    }
  }

  lemma WriteNextOk(cfg: Config, s: Sys, pid: nat, p: Proc, nb: map<int, Minor>)
    requires p.PostProc? && p.pc.Write? && SequencesOk(s)
    requires ProcOk(cfg, s.db, p) && IdsOk(s.db, s.nextTxn, s.nextBatch, p)
    requires CheckPost(p.pc.seen, p.job.entry.legs, Ok(())) == Ok(nb)
    ensures var r := p.(pc := Finish(nb, s.nextTxn));
            ProcOk(cfg, s.db, r) && IdsOk(s.db, s.nextTxn + 1, s.nextBatch, r) && Claims(s, pid, p, r)
  {
    CheckedUnderLocks(s.db, p.job, p.pc.seen);
  }

  lemma WriteStep(cfg: Config, init: Db, s: Sys, pid: nat)
    requires PostReady(cfg, init, s, pid) && s.procs[pid].pc.Write?
    ensures Inv(cfg, init, StepPost(s, pid, s.procs[pid]).value)
  {
    var p := s.procs[pid];
    assert ProcOk(cfg, s.db, p) && IdsOk(s.db, s.nextTxn, s.nextBatch, p);
    var r := CheckPost(p.pc.seen, p.job.entry.legs, Ok(()));
    if r.Err? {
      Failing(cfg, init, s, pid, r.error);
    } else {
      WriteNextOk(cfg, s, pid, p, r.value);
      Moved(cfg, init, s, pid, p.(pc := Finish(r.value, s.nextTxn)), s.nextTxn + 1, s.nextBatch);
    }
  }

  function FinishNext(p: Proc): Proc
    requires p.PostProc? && p.pc.Finish?
  {
    var mine := if p.mine.Some? then Some(KeyRow(p.mine.value.request, Some(p.pc.txn), true)) else None;
    p.(mine := mine, pc := CommitPost(p.pc.nb, p.pc.txn))
  }

  lemma FinishNextOk(cfg: Config, s: Sys, pid: nat, p: Proc)
    requires p.PostProc? && p.pc.Finish? && ProcOk(cfg, s.db, p) && IdsOk(s.db, s.nextTxn, s.nextBatch, p)
    ensures ProcOk(cfg, s.db, FinishNext(p)) && IdsOk(s.db, s.nextTxn, s.nextBatch, FinishNext(p))
    ensures Claims(s, pid, p, FinishNext(p))
  {}

  lemma FinishStep(cfg: Config, init: Db, s: Sys, pid: nat)
    requires PostReady(cfg, init, s, pid) && s.procs[pid].pc.Finish?
    ensures Inv(cfg, init, StepPost(s, pid, s.procs[pid]).value)
  {
    var p := s.procs[pid];
    assert ProcOk(cfg, s.db, p) && IdsOk(s.db, s.nextTxn, s.nextBatch, p);
    FinishNextOk(cfg, s, pid, p);
    Moved(cfg, init, s, pid, FinishNext(p), s.nextTxn, s.nextBatch);
  }

  /** Every statement of a posting before its commit keeps the invariant. */
  lemma PostStep(cfg: Config, init: Db, s: Sys, pid: nat)
    requires PostReady(cfg, init, s, pid) && !s.procs[pid].pc.CommitPost?
    ensures Inv(cfg, init, StepPost(s, pid, s.procs[pid]).value)
  {
    match s.procs[pid].pc
    case Claim => ClaimStep(cfg, init, s, pid);
    case ReadReplay => ReplayStep(cfg, init, s, pid);
    case Check => CheckStep(cfg, init, s, pid);
    case Lock(_, _) => LockStep(cfg, init, s, pid);
    case RunGuard(_) => GuardStep(cfg, init, s, pid);
    case Write(_) => WriteStep(cfg, init, s, pid);
    case Finish(_, _) => FinishStep(cfg, init, s, pid);
  }

  lemma ReplayStep(cfg: Config, init: Db, s: Sys, pid: nat)
    requires Inv(cfg, init, s) && pid in s.procs && s.procs[pid].PostProc? && s.procs[pid].pc.ReadReplay?
    ensures StepPost(s, pid, s.procs[pid]).Some? && Inv(cfg, init, StepPost(s, pid, s.procs[pid]).value)
  {
    var p := s.procs[pid];
    assert ProcOk(cfg, s.db, p);
    var row := s.db.keys[p.key];
    if row.request != p.req {
      Failing(cfg, init, s, pid, IdempotencyConflict);
    } else if !row.completed || row.txn.None? {
      Failing(cfg, init, s, pid, UnexpectedKeyState);
    } else {
      var op := ReplayOp(p.key, p.req, row.txn.value);
      LogExtends(cfg, init, s.log, s.db, op);
      assert row == KeyRow(p.req, Some(row.txn.value), true);
      var r := Ended(Replayed(row.txn.value));
      StaysApart(cfg, init, s, pid, r);
      LocalStep(cfg, init, s, With(s.(log := s.log + [op]), pid, r), pid);
    }
  }

  // ---------- settlement steps ----------

  lemma ResolveRead(cfg: Config, db: Db, ms: set<int>, cs: set<Currency>)
    requires CandidatesOk(db, ms, cs) && cs <= cfg.payout.Keys && cfg.payout.Values <= db.accounts.Keys
    ensures ResolvedOk(cfg, db, ms, PayoutMap(cfg, cs))
  {}

  /** The payout loop never waits: every account it re-locks is held. */
  lemma RelockCovered(cfg: Config, db: Db, ms: set<int>, po: map<Currency, int>, nets: seq<Net>, k: nat)
    requires GoodDb(db) && ResolvedOk(cfg, db, ms, po) && NetsOk(db, ms, nets) && k < |nets|
    ensures nets[k].merchant in LockSet(ms, po) && PayoutOf(po, nets[k].currency) in LockSet(ms, po)
  {
    NetsCovered(cfg, db, ms);
  }

  ghost predicate SettleReady(cfg: Config, init: Db, s: Sys, pid: nat) {
    && Inv(cfg, init, s) && pid in s.procs && s.procs[pid].SettleProc?
    && StepSettle(cfg, s, pid, s.procs[pid]).Some?
  }

  lemma CandidatesStep(cfg: Config, init: Db, s: Sys, pid: nat)
    requires SettleReady(cfg, init, s, pid) && s.procs[pid].spc.Candidates?
    ensures Inv(cfg, init, StepSettle(cfg, s, pid, s.procs[pid]).value)
  {
    var p := s.procs[pid];
    assert ProcOk(cfg, s.db, p);
    CandidatesRead(s.db);
    var pends := AllPendings(s.db);
    Moved(cfg, init, s, pid, p.(spc := Resolve(Merchants(pends), PendCurrencies(pends))), s.nextTxn, s.nextBatch);
  }

  lemma ResolveNextOk(cfg: Config, s: Sys, pid: nat, p: Proc)
    requires p.SettleProc? && p.spc.Resolve? && ProcOk(cfg, s.db, p) && cfg.payout.Values <= s.db.accounts.Keys
    requires p.spc.currencies <= cfg.payout.Keys
    ensures var r := p.(spc := LockAll(p.spc.merchants, PayoutMap(cfg, p.spc.currencies), 0));
            ProcOk(cfg, s.db, r) && IdsOk(s.db, s.nextTxn, s.nextBatch, r) && Claims(s, pid, p, r)
  {}

  lemma ResolveStep(cfg: Config, init: Db, s: Sys, pid: nat)
    requires SettleReady(cfg, init, s, pid) && s.procs[pid].spc.Resolve?
    ensures Inv(cfg, init, StepSettle(cfg, s, pid, s.procs[pid]).value)
  {
    var p := s.procs[pid];
    assert ProcOk(cfg, s.db, p);
    if p.spc.currencies <= cfg.payout.Keys {
      ResolveNextOk(cfg, s, pid, p);
      var r := p.(spc := LockAll(p.spc.merchants, PayoutMap(cfg, p.spc.currencies), 0));
      Moved(cfg, init, s, pid, r, s.nextTxn, s.nextBatch);
    } else {
      Failing(cfg, init, s, pid, NoPayoutAccount);
    }
  }

  ghost function LockAllNext(p: Proc): Proc
    requires p.SettleProc? && p.spc.LockAll?
  {
    var ms, po, i := p.spc.merchants, p.spc.payouts, p.spc.i;
    if i < |SettleLocks(ms, po)| then p.(spc := LockAll(ms, po, i + 1)) else p.(spc := QueryNets(ms, po))
  }

  lemma LockAllNextOk(cfg: Config, s: Sys, pid: nat, p: Proc)
    requires p.SettleProc? && p.spc.LockAll? && ProcOk(cfg, s.db, p)
    requires var ids := SettleLocks(p.spc.merchants, p.spc.payouts);
             p.spc.i < |ids| ==> FreeAccount(s, pid, ids[p.spc.i])
    ensures var r := LockAllNext(p);
            ProcOk(cfg, s.db, r) && IdsOk(s.db, s.nextTxn, s.nextBatch, r) && Claims(s, pid, p, r)
  {}

  lemma LockAllStep(cfg: Config, init: Db, s: Sys, pid: nat)
    requires SettleReady(cfg, init, s, pid) && s.procs[pid].spc.LockAll?
    ensures Inv(cfg, init, StepSettle(cfg, s, pid, s.procs[pid]).value)
  {
    var p := s.procs[pid];
    assert ProcOk(cfg, s.db, p);
    var ms, po, i := p.spc.merchants, p.spc.payouts, p.spc.i;
    if i < |SettleLocks(ms, po)| {
      assert SettleLocks(ms, po)[i] in Elements(SettleLocks(ms, po));
    }
    LockAllNextOk(cfg, s, pid, p);
    Moved(cfg, init, s, pid, LockAllNext(p), s.nextTxn, s.nextBatch);
  }

  lemma QueryNextOk(cfg: Config, s: Sys, pid: nat, p: Proc)
    requires p.SettleProc? && p.spc.QueryNets? && ProcOk(cfg, s.db, p)
    requires var nets := NetsOf(s.db.journal, Pendings(s.db.journal, p.spc.merchants));
             forall i | 0 <= i < |nets| :: InRange(nets[i].net)
    ensures var nets := NetsOf(s.db.journal, Pendings(s.db.journal, p.spc.merchants));
            var r := p.(spc := QueryIds(p.spc.merchants, p.spc.payouts, nets));
            ProcOk(cfg, s.db, r) && IdsOk(s.db, s.nextTxn, s.nextBatch, r) && Claims(s, pid, p, r)
  {}

  lemma QueryStep(cfg: Config, init: Db, s: Sys, pid: nat)
    requires SettleReady(cfg, init, s, pid) && s.procs[pid].spc.QueryNets?
    ensures Inv(cfg, init, StepSettle(cfg, s, pid, s.procs[pid]).value)
  {
    var p := s.procs[pid];
    assert ProcOk(cfg, s.db, p);
    var ms, po := p.spc.merchants, p.spc.payouts;
    var nets := NetsOf(s.db.journal, Pendings(s.db.journal, ms));
    if exists i | 0 <= i < |nets| :: !InRange(nets[i].net) {
      Failing(cfg, init, s, pid, QueryOverflow);
    } else {
      QueryNextOk(cfg, s, pid, p);
      Moved(cfg, init, s, pid, p.(spc := QueryIds(ms, po, nets)), s.nextTxn, s.nextBatch);
    }
  }

  lemma ListNextOk(cfg: Config, s: Sys, pid: nat, p: Proc)
    requires p.SettleProc? && p.spc.QueryIds? && ProcOk(cfg, s.db, p)
    ensures var pends := Pendings(s.db.journal, p.spc.merchants);
            var r := p.(spc := OpenBatch(p.spc.merchants, p.spc.payouts, p.spc.nets, PendIds(pends), |pends|));
            ProcOk(cfg, s.db, r) && IdsOk(s.db, s.nextTxn, s.nextBatch, r) && Claims(s, pid, p, r)
  {}

  lemma ListStep(cfg: Config, init: Db, s: Sys, pid: nat)
    requires SettleReady(cfg, init, s, pid) && s.procs[pid].spc.QueryIds?
    ensures Inv(cfg, init, StepSettle(cfg, s, pid, s.procs[pid]).value)
  {
    var p := s.procs[pid];
    assert ProcOk(cfg, s.db, p);
    var pends := Pendings(s.db.journal, p.spc.merchants);
    var r := p.(spc := OpenBatch(p.spc.merchants, p.spc.payouts, p.spc.nets, PendIds(pends), |pends|));
    ListNextOk(cfg, s, pid, p);
    Moved(cfg, init, s, pid, r, s.nextTxn, s.nextBatch);
  }

  function OpenNext(s: Sys, p: Proc): Proc
    requires p.SettleProc? && p.spc.OpenBatch?
  {
    var c := p.spc;
    p.(spc := Pay(c.merchants, c.payouts, c.nets, c.marked, c.count, s.nextBatch, 0, Batching(map[], []), []))
  }

  lemma OpenNextOk(cfg: Config, s: Sys, pid: nat, p: Proc)
    requires p.SettleProc? && p.spc.OpenBatch? && ProcOk(cfg, s.db, p) && SequencesOk(s)
    ensures ProcOk(cfg, s.db, OpenNext(s, p)) && IdsOk(s.db, s.nextTxn, s.nextBatch + 1, OpenNext(s, p))
    ensures Claims(s, pid, p, OpenNext(s, p))
  {}

  lemma OpenStep(cfg: Config, init: Db, s: Sys, pid: nat)
    requires SettleReady(cfg, init, s, pid) && s.procs[pid].spc.OpenBatch?
    ensures Inv(cfg, init, StepSettle(cfg, s, pid, s.procs[pid]).value)
  {
    var p := s.procs[pid];
    assert ProcOk(cfg, s.db, p);
    OpenNextOk(cfg, s, pid, p);
    Moved(cfg, init, s, pid, OpenNext(s, p), s.nextTxn, s.nextBatch + 1);
  }

  function PayNext(s: Sys, p: Proc, b: Batching): Proc
    requires p.SettleProc? && p.spc.Pay?
  {
    var c := p.spc;
    p.(spc := c.(k := c.k + 1, b := b, txns := if |b.rows| == |c.b.rows| then c.txns else c.txns + [s.nextTxn]))
  }

  lemma PayNextOk(cfg: Config, s: Sys, pid: nat, p: Proc, b: Batching)
    requires p.SettleProc? && p.spc.Pay? && p.spc.k < |p.spc.nets| && SequencesOk(s)
    requires ProcOk(cfg, s.db, p) && IdsOk(s.db, s.nextTxn, s.nextBatch, p)
    requires PayOne(s.db.accounts, p.spc.b, p.spc.payouts, p.spc.nets[p.spc.k], s.nextTxn) == Ok(b)
    ensures ProcOk(cfg, s.db, PayNext(s, p, b)) && IdsOk(s.db, s.nextTxn + 1, s.nextBatch, PayNext(s, p, b))
    ensures |b.rows| == |p.spc.b.rows| ==> IdsOk(s.db, s.nextTxn, s.nextBatch, PayNext(s, p, b))
    ensures Claims(s, pid, p, PayNext(s, p, b))
  {
    var c := p.spc;
    PayMore(s.db, c.payouts, c.nets, c.k, c.b, c.txns, s.nextTxn, b);
    PayNextIds(cfg, s, pid, p, b);
  }

  lemma PayNextIds(cfg: Config, s: Sys, pid: nat, p: Proc, b: Batching)
    requires p.SettleProc? && p.spc.Pay? && p.spc.k < |p.spc.nets| && SequencesOk(s)
    requires IdsOk(s.db, s.nextTxn, s.nextBatch, p)
    ensures IdsOk(s.db, s.nextTxn + 1, s.nextBatch, PayNext(s, p, b))
    ensures |b.rows| == |p.spc.b.rows| ==> IdsOk(s.db, s.nextTxn, s.nextBatch, PayNext(s, p, b))
    ensures Claims(s, pid, p, PayNext(s, p, b))
  {
    var c := p.spc;
    forall t | t in Elements(c.txns) ensures t < s.nextTxn && t !in Ids(s.db.journal) {}
    assert forall i | 0 <= i < |c.txns| :: c.txns[i] in Elements(c.txns);
  }

  lemma PayStep(cfg: Config, init: Db, s: Sys, pid: nat)
    requires SettleReady(cfg, init, s, pid) && s.procs[pid].spc.Pay?
    ensures Inv(cfg, init, StepSettle(cfg, s, pid, s.procs[pid]).value)
  {
    var p := s.procs[pid];
    var c := p.spc;
    assert ProcOk(cfg, s.db, p) && IdsOk(s.db, s.nextTxn, s.nextBatch, p);
    if c.k >= |c.nets| {
      PayDone(cfg, init, s, pid);
    } else {
      var r := PayOne(s.db.accounts, c.b, c.payouts, c.nets[c.k], s.nextTxn);
      if r.Err? {
        Failing(cfg, init, s, pid, r.error);
      } else {
        PayNextOk(cfg, s, pid, p, r.value);
        Moved(cfg, init, s, pid, PayNext(s, p, r.value),
              if |r.value.rows| == |c.b.rows| then s.nextTxn else s.nextTxn + 1, s.nextBatch);
      }
    }
  }

  lemma PayDoneOk(cfg: Config, s: Sys, pid: nat, p: Proc)
    requires p.SettleProc? && p.spc.Pay? && p.spc.k >= |p.spc.nets|
    requires ProcOk(cfg, s.db, p) && IdsOk(s.db, s.nextTxn, s.nextBatch, p)
    ensures var c := p.spc;
            var r := p.(spc := CommitSettle(c.merchants, c.payouts, c.nets, c.marked, c.count, c.batch, c.b, c.txns));
            ProcOk(cfg, s.db, r) && IdsOk(s.db, s.nextTxn, s.nextBatch, r) && Claims(s, pid, p, r)
  {}

  lemma PayDone(cfg: Config, init: Db, s: Sys, pid: nat)
    requires SettleReady(cfg, init, s, pid) && s.procs[pid].spc.Pay? && s.procs[pid].spc.k >= |s.procs[pid].spc.nets|
    ensures Inv(cfg, init, StepSettle(cfg, s, pid, s.procs[pid]).value)
  {
    var p := s.procs[pid];
    assert ProcOk(cfg, s.db, p) && IdsOk(s.db, s.nextTxn, s.nextBatch, p);
    PayDoneOk(cfg, s, pid, p);
    var c := p.spc;
    var r := p.(spc := CommitSettle(c.merchants, c.payouts, c.nets, c.marked, c.count, c.batch, c.b, c.txns));
    Moved(cfg, init, s, pid, r, s.nextTxn, s.nextBatch);
  }

  lemma SettleStep(cfg: Config, init: Db, s: Sys, pid: nat)
    requires SettleReady(cfg, init, s, pid) && !s.procs[pid].spc.CommitSettle?
    ensures Inv(cfg, init, StepSettle(cfg, s, pid, s.procs[pid]).value)
  {
    match s.procs[pid].spc
    case Candidates => CandidatesStep(cfg, init, s, pid);
    case Resolve(_, _) => ResolveStep(cfg, init, s, pid);
    case LockAll(_, _, _) => LockAllStep(cfg, init, s, pid);
    case QueryNets(_, _) => QueryStep(cfg, init, s, pid);
    case QueryIds(_, _, _) => ListStep(cfg, init, s, pid);
    case OpenBatch(_, _, _, _, _) => OpenStep(cfg, init, s, pid);
    case Pay(_, _, _, _, _, _, _, _, _) => PayStep(cfg, init, s, pid);
  }
}
