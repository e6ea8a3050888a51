/** Deadlock freedom and termination: ordering idempotency keys below account ids, every
    transaction waits for something above all it holds, and every statement uses up work. */
module Progress {
  import opened Wrappers
  import opened Money
  import opened Ledger
  import opened Database
  import opened Posting
  import opened Settlement
  import opened Serial
  import opened Evolution
  import opened Balances
  import opened Machine
  import opened Invariant
  import opened Statements
  import opened Serializability

  // ---------- who waits for what ----------

  ghost predicate Waits(cfg: Config, s: Sys, pid: nat) {
    pid in s.procs && !s.procs[pid].Ended? && Advance(cfg, s, pid).None?
  }

  /** The resource a transaction asks for next: 0 stands for its key, which is claimed before
      any account. */
  ghost function WaitRank(p: Proc): int {
    match p
    case PostProc(_, _, job, _, _, pc) =>
      (match pc case Lock(i, _) => if i < |PostLocks(job)| then PostLocks(job)[i] else 0 case _ => 0)
    case SettleProc(_, pc) =>
      (match pc
       case LockAll(m, po, i) => if i < |SettleLocks(m, po)| then SettleLocks(m, po)[i] else 0
       case _ => 0)
    case Ended(_) => 0
  }

  /** The transaction that has what `pid` waits for. */
  ghost predicate Blocks(s: Sys, pid: nat, q: nat) {
    && pid in s.procs && q in s.procs && q != pid
    && if WaitRank(s.procs[pid]) == 0
       then s.procs[pid].PostProc? && Claimed(s.procs[q]) == Some(s.procs[pid].key)
       else WaitRank(s.procs[pid]) in Held(s.procs[q])
  }

  lemma PostWaits(s: Sys, pid: nat, p: Proc)
    requires p.PostProc? && StepPost(s, pid, p).None?
    ensures p.pc.Claim? || (p.pc.Lock? && p.pc.i < |PostLocks(p.job)| && PostLocks(p.job)[p.pc.i] in s.db.accounts)
    ensures p.pc.Claim? ==> !FreeKey(s, pid, p.key)
    ensures p.pc.Lock? ==> !FreeAccount(s, pid, PostLocks(p.job)[p.pc.i])
  {}

  lemma SettleWaits(cfg: Config, s: Sys, pid: nat, p: Proc)
    requires p.SettleProc? && StepSettle(cfg, s, pid, p).None?
    requires GoodDb(s.db) && ProcOk(cfg, s.db, p)
    ensures p.spc.LockAll?
    ensures var ids := SettleLocks(p.spc.merchants, p.spc.payouts);
            p.spc.i < |ids| && ids[p.spc.i] in s.db.accounts && !FreeAccount(s, pid, ids[p.spc.i])
  {
    if p.spc.Pay? && p.spc.k < |p.spc.nets| {
      RelockCovered(cfg, s.db, p.spc.merchants, p.spc.payouts, p.spc.nets, p.spc.k);
    }
  }

  /** A transaction that cannot run its next statement waits for a lock or key that another
      transaction has; the payout loop of a settlement never waits. */
  lemma WaitsForHolder(cfg: Config, init: Db, s: Sys, pid: nat) returns (q: nat)
    requires Inv(cfg, init, s) && Waits(cfg, s, pid)
    ensures Blocks(s, pid, q)
    ensures WaitRank(s.procs[pid]) == 0 || WaitRank(s.procs[pid]) in s.db.accounts
  {
    var p := s.procs[pid];
    assert ProcOk(cfg, s.db, p);
    if p.PostProc? {
      PostWaits(s, pid, p);
      if p.pc.Claim? {
        q :| q in s.procs && q != pid && Claimed(s.procs[q]) == Some(p.key);
      } else {
        q :| q in s.procs && q != pid && PostLocks(p.job)[p.pc.i] in Held(s.procs[q]);
      }
    } else {
      SettleWaits(cfg, s, pid, p);
      q :| q in s.procs && q != pid && SettleLocks(p.spc.merchants, p.spc.payouts)[p.spc.i] in Held(s.procs[q]);
    }
  }

  lemma PrefixBelow(ids: seq<int>, i: nat, a: int)
    requires Ascending(ids) && i < |ids| && a in Elements(ids[..i])
    ensures a < ids[i]
  {}

  /** Everything a waiting transaction holds is below what it waits for. */
  lemma HoldsBelow(cfg: Config, init: Db, s: Sys, q: nat)
    requires Inv(cfg, init, s) && Waits(cfg, s, q)
    ensures forall a | a in Held(s.procs[q]) :: a < WaitRank(s.procs[q])
    ensures Claimed(s.procs[q]).Some? ==> WaitRank(s.procs[q]) in s.db.accounts
  {
    var p := s.procs[q];
    assert ProcOk(cfg, s.db, p);
    if p.PostProc? {
      PostWaits(s, q, p);
      if p.pc.Lock? {
        forall a | a in Held(p) ensures a < WaitRank(p) { PrefixBelow(PostLocks(p.job), p.pc.i, a); }
      }
    } else {
      SettleWaits(cfg, s, q, p);
      forall a | a in Held(p) ensures a < WaitRank(p) {
        PrefixBelow(SettleLocks(p.spc.merchants, p.spc.payouts), p.spc.i, a);
      }
    }
  }

  /** Along every wait the requested resource strictly rises, so no wait can close a cycle. */
  lemma WaitsRise(cfg: Config, init: Db, s: Sys, pid: nat, q: nat)
    requires Inv(cfg, init, s) && Waits(cfg, s, pid) && Blocks(s, pid, q) && Waits(cfg, s, q)
    ensures WaitRank(s.procs[pid]) < WaitRank(s.procs[q])
    ensures WaitRank(s.procs[q]) in s.db.accounts
  {
    HoldsBelow(cfg, init, s, q);
    var _ := WaitsForHolder(cfg, init, s, q);
    var r := WaitsForHolder(cfg, init, s, pid);
    if WaitRank(s.procs[pid]) != 0 {
      assert WaitRank(s.procs[pid]) in s.db.accounts;
    }
  }

  function Above(accounts: map<int, Account>, rank: int): set<int> { set a | a in accounts && a > rank }

  /** Following the holders from any waiting transaction reaches one that can run. */
  lemma FindRunnable(cfg: Config, init: Db, s: Sys, pid: nat) returns (r: nat)
    requires Inv(cfg, init, s) && pid in s.procs && !s.procs[pid].Ended?
    ensures r in s.procs && Advance(cfg, s, r).Some?
    decreases |Above(s.db.accounts, WaitRank(s.procs[pid]))|
  {
    if Advance(cfg, s, pid).Some? {
      r := pid;
    } else {
      var q := WaitsForHolder(cfg, init, s, pid);
      if Advance(cfg, s, q).Some? {
        r := q;
      } else {
        WaitsRise(cfg, init, s, pid, q);
        FewerAbove(s.db.accounts, WaitRank(s.procs[pid]), WaitRank(s.procs[q]));
        r := FindRunnable(cfg, init, s, q);
      }
    }
  }

  lemma FewerAbove(accounts: map<int, Account>, low: int, high: int)
    requires low < high && high in accounts
    ensures |Above(accounts, high)| < |Above(accounts, low)|
  {
    SmallerSet(Above(accounts, high), Above(accounts, low), high);
  }

  lemma SmallerSet(s: set<int>, t: set<int>, x: int)
    requires s <= t && x in t && x !in s
    ensures |s| < |t|
  {
    assert s <= t - {x};
    SubsetSize(s, t - {x});
  }

  lemma SubsetSize<T>(s: set<T>, t: set<T>)
    requires s <= t
    ensures |s| <= |t|
  {
    assert t == s + (t - s);
  }

  /** No reachable state is deadlocked: while some transaction has not ended, one can run. */
  lemma NoDeadlock(cfg: Config, s0: Sys, trace: seq<Event>, pid: nat) returns (r: nat)
    requires Start(cfg, s0) && Exec(cfg, s0, trace).Some?
    requires var s := Exec(cfg, s0, trace).value; pid in s.procs && !s.procs[pid].Ended?
    ensures Next(cfg, Exec(cfg, s0, trace).value, Step(r)).Some?
  {
    ExecKeeps(cfg, s0, trace);
    r := FindRunnable(cfg, s0.db, Exec(cfg, s0, trace).value, pid);
  }

  // ---------- how much work is left ----------

  /** Statements of the current attempt still to run, at most. */
  ghost function Left(n: nat, p: Proc): int {
    match p
    case PostProc(_, _, job, _, _, pc) =>
      (match pc
       case Claim => |PostLocks(job)| + 7
       case ReadReplay => 1
       case Check => |PostLocks(job)| + 6
       case Lock(i, _) => |PostLocks(job)| - i + 5
       case RunGuard(_) => 4
       case Write(_) => 3
       case Finish(_, _) => 2
       case CommitPost(_, _) => 1)
    case SettleProc(_, pc) =>
      (match pc
       case Candidates => 2 * n + 8
       case Resolve(_, _) => 2 * n + 7
       case LockAll(m, po, i) => |SettleLocks(m, po)| - i + n + 6
       case QueryNets(_, _) => n + 5
       case QueryIds(_, _, nets) => |nets| + 4
       case OpenBatch(_, _, nets, _, _) => |nets| + 3
       case Pay(_, _, nets, _, _, _, k, _, _) => |nets| - k + 2
       case CommitSettle(_, _, _, _, _, _, _, _) => 1)
    case Ended(_) => 0
  }

  /** Statements of one attempt. */
  ghost function Span(n: nat, p: Proc): nat {
    match p
    case PostProc(_, _, job, _, _, _) => |PostLocks(job)| + 7
    case SettleProc(_, _) => 2 * n + 8
    case Ended(_) => 0
  }

  /** Statements a transaction can still run, retries included; n is the number of accounts. */
  ghost function Budget(n: nat, p: Proc): int {
    if p.Ended? then 0 else (MAX_RETRIES - 1 - p.attempt) * (Span(n, p) + 1) + Left(n, p)
  }

  lemma LockSetSize(cfg: Config, db: Db, ms: set<int>, po: map<Currency, int>)
    requires ResolvedOk(cfg, db, ms, po)
    ensures |SettleLocks(ms, po)| <= |db.accounts|
  {
    AscendingSize(SettleLocks(ms, po));
    SubsetSize(LockSet(ms, po), db.accounts.Keys);
  }

  /** One net per merchant: an account has one currency. */
  lemma NetsSize(cfg: Config, db: Db, ms: set<int>, po: map<Currency, int>)
    requires GoodDb(db) && ResolvedOk(cfg, db, ms, po)
    ensures |NetsOf(db.journal, Pendings(db.journal, ms))| <= |db.accounts|
  {
    var pends := Pendings(db.journal, ms);
    var nets := NetsOf(db.journal, pends);
    NetsCovered(cfg, db, ms);
    NetsAreGroupSums(db.journal, pends, 0, "");
    var ids := seq(|nets|, i requires 0 <= i < |nets| => nets[i].merchant);
    forall i, j | 0 <= i < j < |ids| ensures ids[i] < ids[j] {
      assert nets[i].merchant <= nets[j].merchant && !IsFor(nets[i], nets[j].merchant, nets[j].currency);
    }
    AscendingSize(ids);
    SubsetSize(Elements(ids), db.accounts.Keys);
  }

  /** A transaction's next state: it has ended, or has less of the same attempt left. */
  ghost predicate Uses(n: nat, p: Proc, r: Proc) {
    && 0 <= Left(n, r) < Left(n, p)
    && (r.Ended? || (p.PostProc? && r.PostProc? && r.attempt == p.attempt && r.job == p.job)
        || (p.SettleProc? && r.SettleProc? && r.attempt == p.attempt))
  }

  ghost predicate Progresses(n: nat, p: Proc, after: Option<Sys>, pid: nat) {
    after.Some? ==> pid in after.value.procs && Uses(n, p, after.value.procs[pid])
  }

  lemma ClaimUses(s: Sys, pid: nat, p: Proc, n: nat)
    requires p.PostProc? && (p.pc.Claim? || p.pc.ReadReplay? || p.pc.Check?)
    ensures Progresses(n, p, StepPost(s, pid, p), pid)
  {
    match p.pc
    case Claim =>
    case ReadReplay =>
    case Check =>
  }

  lemma LockUses(s: Sys, pid: nat, p: Proc, n: nat)
    requires p.PostProc? && p.pc.Lock? && p.pc.i <= |PostLocks(p.job)|
    ensures Progresses(n, p, StepPost(s, pid, p), pid)
  {}

  lemma WriteUses(s: Sys, pid: nat, p: Proc, n: nat)
    requires p.PostProc? && (p.pc.RunGuard? || p.pc.Write? || p.pc.Finish? || p.pc.CommitPost?)
    ensures Progresses(n, p, StepPost(s, pid, p), pid)
  {
    match p.pc
    case RunGuard(_) =>
    case Write(_) =>
    case Finish(_, _) =>
    case CommitPost(_, _) =>
  }

  lemma PostUses(s: Sys, pid: nat, p: Proc, n: nat)
    requires p.PostProc? && PostPcOk(s.db, p.job, p.pc)
    ensures Progresses(n, p, StepPost(s, pid, p), pid)
  {
    if p.pc.Lock? {
      LockUses(s, pid, p, n);
    } else if p.pc.Claim? || p.pc.ReadReplay? || p.pc.Check? {
      ClaimUses(s, pid, p, n);
    } else {
      WriteUses(s, pid, p, n);
    }
  }

  lemma CandidatesUses(cfg: Config, s: Sys, pid: nat, p: Proc)
    requires p.SettleProc? && p.spc.Candidates?
    ensures Progresses(|s.db.accounts|, p, StepSettle(cfg, s, pid, p), pid)
  {}

  lemma ResolvedSize(cfg: Config, db: Db, ms: set<int>, cs: set<Currency>)
    requires CandidatesOk(db, ms, cs) && cs <= cfg.payout.Keys && cfg.payout.Values <= db.accounts.Keys
    ensures |SettleLocks(ms, PayoutMap(cfg, cs))| <= |db.accounts|
  {
    ResolveRead(cfg, db, ms, cs);
    LockSetSize(cfg, db, ms, PayoutMap(cfg, cs));
  }

  lemma ResolveUses(cfg: Config, s: Sys, pid: nat, p: Proc)
    requires p.SettleProc? && p.spc.Resolve?
    requires p.spc.currencies <= cfg.payout.Keys ==>
      |SettleLocks(p.spc.merchants, PayoutMap(cfg, p.spc.currencies))| <= |s.db.accounts|
    ensures Progresses(|s.db.accounts|, p, StepSettle(cfg, s, pid, p), pid)
  {}

  lemma LockAllUses(cfg: Config, s: Sys, pid: nat, p: Proc)
    requires p.SettleProc? && p.spc.LockAll? && p.spc.i <= |SettleLocks(p.spc.merchants, p.spc.payouts)|
    ensures Progresses(|s.db.accounts|, p, StepSettle(cfg, s, pid, p), pid)
  {}

  lemma QueryUses(cfg: Config, s: Sys, pid: nat, p: Proc)
    requires p.SettleProc? && p.spc.QueryNets?
    requires |NetsOf(s.db.journal, Pendings(s.db.journal, p.spc.merchants))| <= |s.db.accounts|
    ensures Progresses(|s.db.accounts|, p, StepSettle(cfg, s, pid, p), pid)
  {}

  lemma OpenUses(cfg: Config, s: Sys, pid: nat, p: Proc)
    requires p.SettleProc? && (p.spc.QueryIds? || p.spc.OpenBatch?)
    ensures Progresses(|s.db.accounts|, p, StepSettle(cfg, s, pid, p), pid)
  {}

  lemma PayUses(cfg: Config, s: Sys, pid: nat, p: Proc)
    requires p.SettleProc? && p.spc.Pay? && p.spc.k <= |p.spc.nets|
    ensures Progresses(|s.db.accounts|, p, StepSettle(cfg, s, pid, p), pid)
  {}

  lemma CommitUses(cfg: Config, s: Sys, pid: nat, p: Proc)
    requires p.SettleProc? && p.spc.CommitSettle?
    ensures Progresses(|s.db.accounts|, p, StepSettle(cfg, s, pid, p), pid)
  {}

  lemma SettleUses(cfg: Config, s: Sys, pid: nat, p: Proc)
    requires p.SettleProc? && GoodDb(s.db) && SettlePcOk(cfg, s.db, p.spc)
    requires cfg.payout.Values <= s.db.accounts.Keys
    ensures Progresses(|s.db.accounts|, p, StepSettle(cfg, s, pid, p), pid)
  {
    match p.spc
    case Candidates => CandidatesUses(cfg, s, pid, p);
    case Resolve(ms, cs) =>
      if cs <= cfg.payout.Keys { ResolvedSize(cfg, s.db, ms, cs); }
      ResolveUses(cfg, s, pid, p);
    case LockAll(_, _, _) => LockAllUses(cfg, s, pid, p);
    case QueryNets(ms, po) =>
      NetsSize(cfg, s.db, ms, po);
      QueryUses(cfg, s, pid, p);
    case QueryIds(_, _, _) => OpenUses(cfg, s, pid, p);
    case OpenBatch(_, _, _, _, _) => OpenUses(cfg, s, pid, p);
    case Pay(_, _, _, _, _, _, _, _, _) => PayUses(cfg, s, pid, p);
    case CommitSettle(_, _, _, _, _, _, _, _) => CommitUses(cfg, s, pid, p);
  }

  lemma AttemptsCost(k: int, span: nat)
    requires k >= 1
    ensures k * (span + 1) == (k - 1) * (span + 1) + span + 1
    ensures (k - 1) * (span + 1) >= 0
  {}

  lemma LeftPositive(cfg: Config, db: Db, n: nat, p: Proc)
    requires ProcOk(cfg, db, p)
    ensures if p.Ended? then Left(n, p) == 0 else Left(n, p) >= 1 && p.attempt < MAX_RETRIES
  {}

  lemma BudgetPositive(cfg: Config, db: Db, n: nat, p: Proc)
    requires ProcOk(cfg, db, p)
    ensures Budget(n, p) >= 0 && (!p.Ended? ==> Budget(n, p) >= Left(n, p) >= 1)
  {
    LeftPositive(cfg, db, n, p);
    if !p.Ended? { AttemptsCost(MAX_RETRIES - p.attempt, Span(n, p)); }
  }

  lemma BudgetUses(n: nat, p: Proc, r: Proc)
    requires Uses(n, p, r) && !p.Ended? && p.attempt < MAX_RETRIES
    ensures 0 <= Budget(n, r) < Budget(n, p)
  {
    AttemptsCost(MAX_RETRIES - p.attempt, Span(n, p));
    assert !r.Ended? ==> Span(n, r) == Span(n, p);
  }

  lemma StepUses(cfg: Config, s: Sys, pid: nat)
    requires Advance(cfg, s, pid).Some? && GoodDb(s.db) && cfg.payout.Values <= s.db.accounts.Keys
    requires ProcOk(cfg, s.db, s.procs[pid])
    ensures var t := Advance(cfg, s, pid).value;
            && pid in t.procs
            && 0 <= Budget(|s.db.accounts|, t.procs[pid]) < Budget(|s.db.accounts|, s.procs[pid])
  {
    var n, p := |s.db.accounts|, s.procs[pid];
    if p.PostProc? { PostUses(s, pid, p, n); } else { SettleUses(cfg, s, pid, p); }
    BudgetUses(n, p, Advance(cfg, s, pid).value.procs[pid]);
  }

  lemma RetryUses(cfg: Config, db: Db, p: Proc, n: nat)
    requires ProcOk(cfg, db, p) && !p.Ended? && p.attempt + 1 < MAX_RETRIES
    ensures 0 <= Budget(n, Retried(p)) < Budget(n, p)
  {
    LeftPositive(cfg, db, n, p);
    AttemptsCost(MAX_RETRIES - 1 - p.attempt, Span(n, p));
  }

  lemma FaultUses(cfg: Config, db: Db, s: Sys, pid: nat, p: Proc, retryable: bool, n: nat)
    requires ProcOk(cfg, db, p) && Rollback(s, pid, p, retryable).Some?
    ensures pid in Rollback(s, pid, p, retryable).value.procs
    ensures 0 <= Budget(n, Rollback(s, pid, p, retryable).value.procs[pid]) < Budget(n, p)
  {
    if retryable && p.attempt + 1 < MAX_RETRIES {
      RetryUses(cfg, db, p, n);
    } else {
      BudgetPositive(cfg, db, n, p);
    }
  }

  predicate Submits(e: Event) { e.Submit? || e.SubmitSettle? }

  /** An event concerns one transaction. */
  lemma OnlyItsOwn(cfg: Config, s: Sys, e: Event)
    requires Next(cfg, s, e).Some? && !Submits(e)
    ensures var t := Next(cfg, s, e).value;
            e.pid in s.procs && e.pid in t.procs && t.procs == s.procs[e.pid := t.procs[e.pid]]
  {
    match e
    case Step(pid) => AdvanceOwn(cfg, s, pid);
    case LoseAck(pid) => AdvanceOwn(cfg, s, pid);
    case Fault(pid, retryable) =>
  }

  /** Only the entry of `pid` may differ. */
  predicate OwnEntry(x: map<nat, Proc>, y: map<nat, Proc>, pid: nat) { pid in y && y == x[pid := y[pid]] }

  lemma CommitOwn(s: Sys, pid: nat, p: Proc)
    requires AtCommit(p)
    ensures OwnEntry(s.procs, CommitOf(s, pid, p).procs, pid)
  {}

  lemma ReplayOwn(s: Sys, pid: nat, p: Proc)
    requires p.PostProc? && p.pc.ReadReplay? && StepPost(s, pid, p).Some?
    ensures OwnEntry(s.procs, StepPost(s, pid, p).value.procs, pid)
  {}

  lemma PostOwn(s: Sys, pid: nat, p: Proc)
    requires p.PostProc? && StepPost(s, pid, p).Some?
    ensures OwnEntry(s.procs, StepPost(s, pid, p).value.procs, pid)
  {
    if p.pc.CommitPost? {
      CommitOwn(s, pid, p);
    } else if p.pc.ReadReplay? {
      ReplayOwn(s, pid, p);
    } else {
      PostPrivate(s, pid, p);
    }
  }

  lemma SettleOwn(cfg: Config, s: Sys, pid: nat, p: Proc)
    requires p.SettleProc? && StepSettle(cfg, s, pid, p).Some?
    ensures OwnEntry(s.procs, StepSettle(cfg, s, pid, p).value.procs, pid)
  {
    if p.spc.CommitSettle? { CommitOwn(s, pid, p); } else { SettlePrivate(cfg, s, pid, p); }
  }

  lemma AdvanceOwn(cfg: Config, s: Sys, pid: nat)
    requires Advance(cfg, s, pid).Some?
    ensures pid in s.procs && OwnEntry(s.procs, Advance(cfg, s, pid).value.procs, pid)
  {
    var p := s.procs[pid];
    if p.PostProc? { PostOwn(s, pid, p); } else { SettleOwn(cfg, s, pid, p); }
  }

  /** Every event but a submission uses up work of its own transaction. */
  lemma EventUses(cfg: Config, s: Sys, e: Event)
    requires Next(cfg, s, e).Some? && !Submits(e) && GoodDb(s.db) && cfg.payout.Values <= s.db.accounts.Keys
    requires e.pid in s.procs && ProcOk(cfg, s.db, s.procs[e.pid])
    ensures var t := Next(cfg, s, e).value;
            && e.pid in t.procs
            && 0 <= Budget(|s.db.accounts|, t.procs[e.pid]) < Budget(|s.db.accounts|, s.procs[e.pid])
  {
    match e
    case Step(pid) => StepUses(cfg, s, pid);
    case LoseAck(pid) => BudgetPositive(cfg, s.db, |s.db.accounts|, s.procs[pid]);
    case Fault(pid, retryable) => FaultUses(cfg, s.db, s, pid, s.procs[pid], retryable, |s.db.accounts|);
  }

  lemma NextAccounts(cfg: Config, init: Db, s: Sys, e: Event)
    requires Inv(cfg, init, s) && Next(cfg, s, e).Some?
    ensures |Next(cfg, s, e).value.db.accounts| == |s.db.accounts|
  {
    NextKeeps(cfg, init, s, e);
    RunKeepsGood(cfg, init, s.log);
    RunKeepsGood(cfg, init, Next(cfg, s, e).value.log);
    assert s.db.accounts.Keys == Next(cfg, s, e).value.db.accounts.Keys;
    assert |s.db.accounts| == |s.db.accounts.Keys|;
  }

  // ---------- every set of transactions ends ----------

  ghost function BudgetAt(n: nat, procs: map<nat, Proc>, q: int): int {
    if q >= 0 && q in procs then Budget(n, procs[q]) else 0
  }

  /** The work left in the whole system. */
  ghost function Work(s: Sys): int {
    SumOver(s.procs.Keys, q => BudgetAt(|s.db.accounts|, s.procs, q))
  }

  lemma WorkPositive(cfg: Config, init: Db, s: Sys)
    requires Inv(cfg, init, s)
    ensures Work(s) >= 0
  {
    var n := |s.db.accounts|;
    var f := (q: int) => BudgetAt(n, s.procs, q);
    forall q | q in s.procs.Keys ensures f(q) >= 0 { BudgetPositive(cfg, s.db, n, s.procs[q]); }
    SumOverPositive(s.procs.Keys, f);
  }

  lemma WorkMoves(n: nat, x: map<nat, Proc>, y: map<nat, Proc>, pid: nat)
    requires pid in x && pid in y && y == x[pid := y[pid]] && Budget(n, y[pid]) < Budget(n, x[pid])
    ensures SumOver(y.Keys, q => BudgetAt(n, y, q)) < SumOver(x.Keys, q => BudgetAt(n, x, q))
  {
    var f, g := (q: int) => BudgetAt(n, x, q), (q: int) => BudgetAt(n, y, q);
    assert y.Keys == x.Keys;
    SumOverRemove(x.Keys, f, pid);
    SumOverRemove(x.Keys, g, pid);
    SumOverEqual(x.Keys - {pid}, f, g);
  }

  lemma WorkDrops(cfg: Config, init: Db, s: Sys, e: Event)
    requires Inv(cfg, init, s) && Next(cfg, s, e).Some? && !Submits(e)
    ensures Work(Next(cfg, s, e).value) < Work(s)
  {
    var t := Next(cfg, s, e).value;
    OnlyItsOwn(cfg, s, e);
    EventUses(cfg, s, e);
    NextAccounts(cfg, init, s, e);
    WorkMoves(|s.db.accounts|, s.procs, t.procs, e.pid);
  }

  lemma ExecFrom(cfg: Config, s0: Sys, trace: seq<Event>, e: Event)
    requires Exec(cfg, s0, trace).Some?
    ensures Exec(cfg, s0, trace + [e]) == Next(cfg, Exec(cfg, s0, trace).value, e)
  {}

  /** Once no more transactions are submitted, at most Work(s) further events can happen:
      statements, rollbacks, retries and lost acknowledgements together. */
  lemma {:induction false} RunEnds(cfg: Config, s0: Sys, trace: seq<Event>, more: seq<Event>)
    requires Start(cfg, s0) && Exec(cfg, s0, trace).Some? && Exec(cfg, s0, trace + more).Some?
    requires forall i | 0 <= i < |more| :: !Submits(more[i])
    ensures |more| + Work(Exec(cfg, s0, trace + more).value) <= Work(Exec(cfg, s0, trace).value)
    ensures Work(Exec(cfg, s0, trace + more).value) >= 0
  {
    if more == [] {
      assert trace + more == trace;
      ReachedWork(cfg, s0, trace);
    } else {
      var t := trace + Front(more);
      assert t + [Last(more)] == trace + more && Front(trace + more) == t;
      RunEnds(cfg, s0, trace, Front(more));
      OneUses(cfg, s0, t, Last(more));
    }
  }

  lemma ReachedWork(cfg: Config, s0: Sys, trace: seq<Event>)
    requires Start(cfg, s0) && Exec(cfg, s0, trace).Some?
    ensures Work(Exec(cfg, s0, trace).value) >= 0
  {
    ExecKeeps(cfg, s0, trace);
    WorkPositive(cfg, s0.db, Exec(cfg, s0, trace).value);
  }

  lemma OneUses(cfg: Config, s0: Sys, trace: seq<Event>, e: Event)
    requires Start(cfg, s0) && Exec(cfg, s0, trace).Some? && Exec(cfg, s0, trace + [e]).Some? && !Submits(e)
    ensures 0 <= Work(Exec(cfg, s0, trace + [e]).value) < Work(Exec(cfg, s0, trace).value)
  {
    ExecFrom(cfg, s0, trace, e);
    ExecKeeps(cfg, s0, trace);
    WorkDrops(cfg, s0.db, Exec(cfg, s0, trace).value, e);
    ReachedWork(cfg, s0, trace + [e]);
  }

  ghost predicate AllEnded(s: Sys) { forall q | q in s.procs :: s.procs[q].Ended? }

  predicate OnlySteps(trace: seq<Event>) { forall i | 0 <= i < |trace| :: trace[i].Step? }

  /** One more statement of whichever transaction can run. */
  lemma RunOne(cfg: Config, s0: Sys, trace: seq<Event>) returns (e: Event)
    requires Start(cfg, s0) && Exec(cfg, s0, trace).Some? && !AllEnded(Exec(cfg, s0, trace).value)
    ensures e.Step? && Exec(cfg, s0, trace + [e]).Some?
    ensures 0 <= Work(Exec(cfg, s0, trace + [e]).value) < Work(Exec(cfg, s0, trace).value)
  {
    var s := Exec(cfg, s0, trace).value;
    var pid :| pid in s.procs && !s.procs[pid].Ended?;
    var r := NoDeadlock(cfg, s0, trace, pid);
    e := Step(r);
    ExecFrom(cfg, s0, trace, e);
    OneUses(cfg, s0, trace, e);
  }

  lemma Shift(trace: seq<Event>, e: Event, rest: seq<Event>)
    ensures trace + ([e] + rest) == trace + [e] + rest
    ensures e.Step? && OnlySteps(rest) ==> OnlySteps([e] + rest)
  {}

  /** From every reachable state, running whatever can run ends with every transaction
      committed or aborted. */
  lemma {:induction false} EveryoneEnds(cfg: Config, s0: Sys, trace: seq<Event>) returns (more: seq<Event>)
    requires Start(cfg, s0) && Exec(cfg, s0, trace).Some?
    ensures OnlySteps(more) && Exec(cfg, s0, trace + more).Some?
    ensures AllEnded(Exec(cfg, s0, trace + more).value)
    decreases Work(Exec(cfg, s0, trace).value)
  {
    if AllEnded(Exec(cfg, s0, trace).value) {
      more := [];
      assert trace + more == trace;
    } else {
      var e := RunOne(cfg, s0, trace);
      var rest := EveryoneEnds(cfg, s0, trace + [e]);
      more := [e] + rest;
      Shift(trace, e, rest);
    }
  }
}
