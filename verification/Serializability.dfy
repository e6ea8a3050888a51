/** Every interleaving commits exactly what a serial run in commit order commits. */
module Serializability {
  import opened Wrappers
  import opened Money
  import opened Ledger
  import opened Database
  import opened Posting
  import opened Settlement
  import opened Serial
  import opened Evolution
  import opened Machine
  import opened Invariant
  import opened Statements

  // ---------- commits ----------

  /** What a posting commits is what the atomic operation produces from the same database. */
  lemma PostCommits(cfg: Config, s: Sys, pid: nat, p: Proc)
    requires p.PostProc? && p.pc.CommitPost? && GoodDb(s.db)
    requires ProcOk(cfg, s.db, p) && IdsOk(s.db, s.nextTxn, s.nextBatch, p)
    ensures Apply(cfg, s.db, PostOp(p.key, p.req, p.pc.txn)) == Ok(CommitPosting(s, pid, p).db)
    ensures Touched(cfg, s.db, PostOp(p.key, p.req, p.pc.txn)) == Held(p)
  {}

  lemma SettlesTo(cfg: Config, db: Db, ms: set<int>, po: map<Currency, int>, nets: seq<Net>, marked: set<int>,
                  count: nat, batch: int, b: Batching, txns: seq<int>)
    requires GoodDb(db) && ResolvedOk(cfg, db, ms, po) && NetsOk(db, ms, nets) && MarkedOk(db, ms, marked, count)
    requires PayAll(db.accounts, po, nets, txns) == Ok(b) && |b.rows| == |txns|
    requires batch !in db.batches && FreshIds(db.journal, txns)
    ensures Apply(cfg, db, SettleOp(ms, batch, txns)) == Ok(Settled(db, b, marked, count, nets, batch))
  {}

  lemma OwnIds(s: Sys, p: Proc)
    requires p.SettleProc? && p.spc.CommitSettle? && IdsOk(s.db, s.nextTxn, s.nextBatch, p)
    ensures p.spc.batch !in s.db.batches && FreshIds(s.db.journal, p.spc.txns)
  {
    assert p.spc.batch in BatchesOf(p);
    assert forall i | 0 <= i < |p.spc.txns| :: p.spc.txns[i] in Elements(p.spc.txns);
  }

  /** What a settlement commits is what an atomic batch over the merchants it read produces. */
  lemma BatchCommits(cfg: Config, s: Sys, pid: nat, p: Proc)
    requires p.SettleProc? && p.spc.CommitSettle? && GoodDb(s.db)
    requires ProcOk(cfg, s.db, p) && IdsOk(s.db, s.nextTxn, s.nextBatch, p)
    ensures Apply(cfg, s.db, SettleOp(p.spc.merchants, p.spc.batch, p.spc.txns)) == Ok(CommitBatch(s, pid, p).db)
    ensures Touched(cfg, s.db, SettleOp(p.spc.merchants, p.spc.batch, p.spc.txns)) == Held(p)
  {
    var c := p.spc;
    assert c.nets[..|c.nets|] == c.nets;
    OwnIds(s, p);
    SettlesTo(cfg, s.db, c.merchants, c.payouts, c.nets, c.marked, c.count, c.batch, c.b, c.txns);
  }

  lemma GuardLocked(cfg: Config, db: Db, req: Request)
    requires Build(cfg, db, req).Ok? && Build(cfg, db, req).value.guard.Some?
    ensures var job := Build(cfg, db, req).value; job.guard.value.merchant in Accounts(job.entry.legs)
  {
    var legs := Build(cfg, db, req).value.entry.legs;
    assert legs[0].account in Accounts(legs);
  }

  /** A posting transaction's knowledge survives another transaction's commit. */
  lemma PostKnowledge(cfg: Config, db: Db, after: Db, touched: set<int>, q: Proc)
    requires GoodDb(db) && Evolves(db, after, touched) && touched !! Held(q)
    requires q.PostProc? && ProcOk(cfg, db, q)
    requires Claimed(q).Some? ==> q.key !in after.keys
    ensures ProcOk(cfg, after, q)
  {
    BuildFrozen(cfg, db, after, touched, q.req);
    if q.job.guard.Some? { GuardLocked(cfg, db, q.req); }
    match q.pc
    case Write(seen) => CheckFrozen(db, after, touched, q.job.entry.legs, q.job.guard);
    case Finish(nb, txn) => CheckFrozen(db, after, touched, q.job.entry.legs, q.job.guard);
    case CommitPost(nb, txn) => CheckFrozen(db, after, touched, q.job.entry.legs, q.job.guard);
    case _ =>
  }

  lemma CurrenciesFrozen(db: Db, after: Db, touched: set<int>, ms: set<int>)
    requires Evolves(db, after, touched)
    ensures CurrenciesOf(after.accounts, ms) == CurrenciesOf(db.accounts, ms)
  {}

  lemma PaidFrozen(cfg: Config, db: Db, after: Db, touched: set<int>, ms: set<int>, po: map<Currency, int>,
                   nets: seq<Net>, k: nat, b: Batching, txns: seq<int>)
    requires GoodDb(db) && Evolves(db, after, touched) && touched !! LockSet(ms, po)
    requires ResolvedOk(cfg, db, ms, po) && NetsOk(db, ms, nets) && PaidOk(db, po, nets, k, b, txns)
    ensures PaidOk(after, po, nets, k, b, txns)
  {
    NetsCovered(cfg, db, ms);
    assert Covered(nets[..k], po, LockSet(ms, po));
    PayAllFrame(after.accounts, db.accounts, po, nets[..k], txns, LockSet(ms, po));
  }

  /** A settlement's knowledge survives another transaction's commit: in particular the two
      netting queries see the same pending payments. */
  lemma SettleKnowledge(cfg: Config, db: Db, after: Db, touched: set<int>, q: Proc)
    requires GoodDb(db) && GoodDb(after) && Evolves(db, after, touched) && touched !! Held(q)
    requires q.SettleProc? && ProcOk(cfg, db, q)
    ensures ProcOk(cfg, after, q)
  {
    match q.spc
    case Candidates =>
    case Resolve(ms, cs) => CurrenciesFrozen(db, after, touched, ms);
    case LockAll(ms, po, i) => CurrenciesFrozen(db, after, touched, ms);
    case QueryNets(ms, po) => CurrenciesFrozen(db, after, touched, ms);
    case QueryIds(ms, po, nets) =>
      CurrenciesFrozen(db, after, touched, ms);
      NetsFrozen(db, after, touched, ms);
    case OpenBatch(ms, po, nets, marked, count) =>
      CurrenciesFrozen(db, after, touched, ms);
      NetsFrozen(db, after, touched, ms);
    case Pay(ms, po, nets, marked, count, batch, k, b, txns) =>
      CurrenciesFrozen(db, after, touched, ms);
      NetsFrozen(db, after, touched, ms);
      PaidFrozen(cfg, db, after, touched, ms, po, nets, k, b, txns);
    case CommitSettle(ms, po, nets, marked, count, batch, b, txns) =>
      CurrenciesFrozen(db, after, touched, ms);
      NetsFrozen(db, after, touched, ms);
      PaidFrozen(cfg, db, after, touched, ms, po, nets, |nets|, b, txns);
  }

  lemma Knowledge(cfg: Config, db: Db, after: Db, touched: set<int>, q: Proc)
    requires GoodDb(db) && GoodDb(after) && Evolves(db, after, touched) && touched !! Held(q)
    requires ProcOk(cfg, db, q)
    requires Claimed(q).Some? ==> q.key !in after.keys
    ensures ProcOk(cfg, after, q)
  {
    match q
    case PostProc(_, _, _, _, _, _) => PostKnowledge(cfg, db, after, touched, q);
    case SettleProc(_, _) => SettleKnowledge(cfg, db, after, touched, q);
    case Ended(_) =>
  }

  function OpOf(p: Proc): Op
    requires AtCommit(p)
  {
    if p.PostProc? then PostOp(p.key, p.req, p.pc.txn) else SettleOp(p.spc.merchants, p.spc.batch, p.spc.txns)
  }

  function CommitOf(s: Sys, pid: nat, p: Proc): Sys
    requires AtCommit(p)
  {
    if p.PostProc? then CommitPosting(s, pid, p) else CommitBatch(s, pid, p)
  }

  /** The ids and keys a commit adds are the transaction's own. */
  lemma CommitAdds(s: Sys, pid: nat, p: Proc)
    requires AtCommit(p) && GoodDb(s.db)
    requires p.SettleProc? ==> |p.spc.b.rows| == |p.spc.txns|
    requires p.SettleProc? ==> forall i | 0 <= i < |p.spc.txns| :: p.spc.b.rows[i].id == p.spc.txns[i]
    ensures var t := CommitOf(s, pid, p);
            && Ids(t.db.journal) <= Ids(s.db.journal) + TxnsOf(p)
            && t.db.batches.Keys <= s.db.batches.Keys + BatchesOf(p)
            && (forall k | k in t.db.keys :: k in s.db.keys || Claimed(p) == Some(k))
  {}

  lemma PaidIds(cfg: Config, db: Db, p: Proc)
    requires GoodDb(db) && ProcOk(cfg, db, p) && p.SettleProc? && p.spc.CommitSettle?
    ensures |p.spc.b.rows| == |p.spc.txns|
    ensures forall i | 0 <= i < |p.spc.txns| :: p.spc.b.rows[i].id == p.spc.txns[i]
  {
    var c := p.spc;
    assert c.nets[..|c.nets|] == c.nets;
    NetsCovered(cfg, db, c.merchants);
    PayAllRows(db.accounts, c.payouts, c.nets, c.txns, LockSet(c.merchants, c.payouts));
  }

  lemma OthersKeep(cfg: Config, init: Db, s: Sys, pid: nat, t: Sys, q: nat)
    requires Inv(cfg, init, s) && pid in s.procs && q in s.procs && q != pid
    requires GoodDb(t.db) && Evolves(s.db, t.db, Held(s.procs[pid]))
    requires Ids(t.db.journal) <= Ids(s.db.journal) + TxnsOf(s.procs[pid])
    requires t.db.batches.Keys <= s.db.batches.Keys + BatchesOf(s.procs[pid])
    requires forall k | k in t.db.keys :: k in s.db.keys || Claimed(s.procs[pid]) == Some(k)
    ensures ProcOk(cfg, t.db, s.procs[q]) && IdsOk(t.db, s.nextTxn, s.nextBatch, s.procs[q])
  {
    var o := s.procs[q];
    assert Apart(s.procs[pid], o) && ProcOk(cfg, s.db, o) && IdsOk(s.db, s.nextTxn, s.nextBatch, o);
    Knowledge(cfg, s.db, t.db, Held(s.procs[pid]), o);
  }

  /** A commit: the log grows by one operation, whose atomic effect is the new database. */
  lemma CommitIsAtomic(cfg: Config, init: Db, s: Sys, pid: nat)
    requires Inv(cfg, init, s) && pid in s.procs && AtCommit(s.procs[pid])
    ensures var p := s.procs[pid];
            var t := CommitOf(s, pid, p);
            && Apply(cfg, s.db, OpOf(p)) == Ok(t.db) && t.log == s.log + [OpOf(p)]
            && Run(cfg, init, t.log) == Ok(t.db)
            && GoodDb(t.db) && Evolves(s.db, t.db, Held(p))
            && Ids(t.db.journal) <= Ids(s.db.journal) + TxnsOf(p)
            && t.db.batches.Keys <= s.db.batches.Keys + BatchesOf(p)
            && (forall k | k in t.db.keys :: k in s.db.keys || Claimed(p) == Some(k))
  {
    var p := s.procs[pid];
    assert ProcOk(cfg, s.db, p) && IdsOk(s.db, s.nextTxn, s.nextBatch, p);
    if p.PostProc? {
      PostCommits(cfg, s, pid, p);
    } else {
      BatchCommits(cfg, s, pid, p);
      PaidIds(cfg, s.db, p);
    }
    LogExtends(cfg, init, s.log, s.db, OpOf(p));
    ApplyKeepsGood(cfg, s.db, OpOf(p));
    CommitAdds(s, pid, p);
  }

  lemma CommitStep(cfg: Config, init: Db, s: Sys, pid: nat)
    requires Inv(cfg, init, s) && pid in s.procs && AtCommit(s.procs[pid])
    ensures Inv(cfg, init, CommitOf(s, pid, s.procs[pid]))
  {
    var p := s.procs[pid];
    var t := CommitOf(s, pid, p);
    CommitIsAtomic(cfg, init, s, pid);
    CommitSequences(s, t, p);
    forall q | q in t.procs
      ensures ProcOk(cfg, t.db, t.procs[q]) && IdsOk(t.db, t.nextTxn, t.nextBatch, t.procs[q])
    {
      ProcKeeps(cfg, init, s, pid, t, q);
    }
    CommitApart(cfg, init, s, pid);
  }

  lemma ProcKeeps(cfg: Config, init: Db, s: Sys, pid: nat, t: Sys, q: nat)
    requires Inv(cfg, init, s) && pid in s.procs && q in t.procs
    requires pid in t.procs && t.procs == s.procs[pid := t.procs[pid]] && t.procs[pid].Ended?
    requires t.nextTxn == s.nextTxn && t.nextBatch == s.nextBatch
    requires GoodDb(t.db) && Evolves(s.db, t.db, Held(s.procs[pid]))
    requires Ids(t.db.journal) <= Ids(s.db.journal) + TxnsOf(s.procs[pid])
    requires t.db.batches.Keys <= s.db.batches.Keys + BatchesOf(s.procs[pid])
    requires forall k | k in t.db.keys :: k in s.db.keys || Claimed(s.procs[pid]) == Some(k)
    ensures ProcOk(cfg, t.db, t.procs[q]) && IdsOk(t.db, t.nextTxn, t.nextBatch, t.procs[q])
  {
    if q != pid { OthersKeep(cfg, init, s, pid, t, q); } else { EndedOk(cfg, t, t.procs[q]); }
  }

  lemma EndedOk(cfg: Config, t: Sys, p: Proc)
    requires p.Ended?
    ensures ProcOk(cfg, t.db, p) && IdsOk(t.db, t.nextTxn, t.nextBatch, p)
  {}

  lemma CommitSequences(s: Sys, t: Sys, p: Proc)
    requires SequencesOk(s) && IdsOk(s.db, s.nextTxn, s.nextBatch, p)
    requires t.nextTxn == s.nextTxn && t.nextBatch == s.nextBatch
    requires Ids(t.db.journal) <= Ids(s.db.journal) + TxnsOf(p)
    requires t.db.batches.Keys <= s.db.batches.Keys + BatchesOf(p)
    ensures SequencesOk(t)
  {}

  lemma CommitApart(cfg: Config, init: Db, s: Sys, pid: nat)
    requires Inv(cfg, init, s) && pid in s.procs && AtCommit(s.procs[pid])
    ensures var t := CommitOf(s, pid, s.procs[pid]);
            forall x, y | x in t.procs && y in t.procs && x != y :: Apart(t.procs[x], t.procs[y])
  {
    var t := CommitOf(s, pid, s.procs[pid]);
    forall x, y | x in t.procs && y in t.procs && x != y ensures Apart(t.procs[x], t.procs[y]) {
      if x != pid && y != pid { assert Apart(s.procs[x], s.procs[y]); } else { EndedApart(t.procs[x], t.procs[y]); }
    }
  }

  lemma EndedApart(p: Proc, q: Proc)
    requires p.Ended? || q.Ended?
    ensures Apart(p, q)
  {}

  // ---------- every event ----------

  lemma AdvanceKeeps(cfg: Config, init: Db, s: Sys, pid: nat)
    requires Inv(cfg, init, s) && Advance(cfg, s, pid).Some?
    ensures Inv(cfg, init, Advance(cfg, s, pid).value)
  {
    if s.procs[pid].PostProc? {
      PostAdvances(cfg, init, s, pid);
    } else {
      SettleAdvances(cfg, init, s, pid);
    }
  }

  lemma PostAdvances(cfg: Config, init: Db, s: Sys, pid: nat)
    requires PostReady(cfg, init, s, pid)
    ensures Inv(cfg, init, StepPost(s, pid, s.procs[pid]).value)
  {
    if s.procs[pid].pc.CommitPost? { CommitStep(cfg, init, s, pid); } else { PostStep(cfg, init, s, pid); }
  }

  lemma SettleAdvances(cfg: Config, init: Db, s: Sys, pid: nat)
    requires SettleReady(cfg, init, s, pid)
    ensures Inv(cfg, init, StepSettle(cfg, s, pid, s.procs[pid]).value)
  {
    if s.procs[pid].spc.CommitSettle? { CommitStep(cfg, init, s, pid); } else { SettleStep(cfg, init, s, pid); }
  }

  function Retried(p: Proc): Proc
    requires !p.Ended?
  {
    if p.PostProc? then p.(attempt := p.attempt + 1, mine := None, pc := Claim)
    else p.(attempt := p.attempt + 1, spc := Candidates)
  }

  lemma RetriedOk(cfg: Config, s: Sys, pid: nat, p: Proc)
    requires !p.Ended? && ProcOk(cfg, s.db, p) && p.attempt + 1 < MAX_RETRIES
    ensures ProcOk(cfg, s.db, Retried(p)) && IdsOk(s.db, s.nextTxn, s.nextBatch, Retried(p))
    ensures Claims(s, pid, p, Retried(p))
  {}

  lemma RollbackKeeps(cfg: Config, init: Db, s: Sys, pid: nat, retryable: bool)
    requires Inv(cfg, init, s) && pid in s.procs && Rollback(s, pid, s.procs[pid], retryable).Some?
    ensures Inv(cfg, init, Rollback(s, pid, s.procs[pid], retryable).value)
  {
    var p := s.procs[pid];
    assert ProcOk(cfg, s.db, p);
    if retryable && p.attempt + 1 < MAX_RETRIES {
      RetriedOk(cfg, s, pid, p);
      Moved(cfg, init, s, pid, Retried(p), s.nextTxn, s.nextBatch);
    } else {
      Failing(cfg, init, s, pid, Transient);
    }
  }

  lemma SubmitKeeps(cfg: Config, init: Db, s: Sys, pid: nat, r: Proc)
    requires Inv(cfg, init, s) && pid !in s.procs
    requires ProcOk(cfg, s.db, r) && Held(r) == {} && TxnsOf(r) == {} && BatchesOf(r) == {} && Claimed(r) == None
    requires TxnsDistinct(r)
    ensures Inv(cfg, init, With(s, pid, r))
  {
    LocalStep(cfg, init, s, With(s, pid, r), pid);
  }

  lemma CommitStays(cfg: Config, s: Sys, pid: nat)
    requires pid in s.procs && AtCommit(s.procs[pid]) && Advance(cfg, s, pid).Some?
    ensures pid in Advance(cfg, s, pid).value.procs
  {}

  lemma LoseAckKeeps(cfg: Config, init: Db, s: Sys, pid: nat)
    requires Inv(cfg, init, s) && pid in s.procs && AtCommit(s.procs[pid]) && Advance(cfg, s, pid).Some?
    ensures Inv(cfg, init, Fail(Advance(cfg, s, pid).value, pid, Lost))
  {
    AdvanceKeeps(cfg, init, s, pid);
    CommitStays(cfg, s, pid);
    Failing(cfg, init, Advance(cfg, s, pid).value, pid, Lost);
  }

  lemma RequestKeeps(cfg: Config, init: Db, s: Sys, pid: nat, key: string, req: Request)
    requires Inv(cfg, init, s) && Next(cfg, s, Submit(pid, key, req)).Some?
    ensures Inv(cfg, init, Next(cfg, s, Submit(pid, key, req)).value)
  {
    var job := Build(cfg, s.db, req);
    SubmitKeeps(cfg, init, s, pid,
      if job.Err? then Ended(Failed(job.error))
      else if !KeyAllowed(req, key) then Ended(Failed(KeyRequired))
      else PostProc(key, req, job.value, 0, None, Claim));
  }

  lemma NextKeeps(cfg: Config, init: Db, s: Sys, e: Event)
    requires Inv(cfg, init, s) && Next(cfg, s, e).Some?
    ensures Inv(cfg, init, Next(cfg, s, e).value)
  {
    match e
    case Submit(pid, key, req) => RequestKeeps(cfg, init, s, pid, key, req);
    case SubmitSettle(pid) => SubmitKeeps(cfg, init, s, pid, SettleProc(0, Candidates));
    case Step(pid) => AdvanceKeeps(cfg, init, s, pid);
    case LoseAck(pid) => LoseAckKeeps(cfg, init, s, pid);
    case Fault(pid, retryable) => RollbackKeeps(cfg, init, s, pid, retryable);
  }

  lemma {:induction false} ExecKeeps(cfg: Config, s0: Sys, trace: seq<Event>)
    requires Start(cfg, s0) && Exec(cfg, s0, trace).Some?
    ensures Inv(cfg, s0.db, Exec(cfg, s0, trace).value)
  {
    if trace != [] {
      ExecKeeps(cfg, s0, Front(trace));
      NextKeeps(cfg, s0.db, Exec(cfg, s0, Front(trace)).value, Last(trace));
    }
  }

  /** Serializability: whatever the interleaving of any number of postings, refunds, replays
      and settlements, with rollbacks, retries and lost acknowledgements, the committed
      database is the one reached by running the committed operations one at a time, in
      commit order, each from its request to its commit in one piece. */
  lemma Serializable(cfg: Config, s0: Sys, trace: seq<Event>)
    requires Start(cfg, s0) && Exec(cfg, s0, trace).Some?
    ensures var s := Exec(cfg, s0, trace).value; Run(cfg, s0.db, s.log) == Ok(s.db)
  {
    ExecKeeps(cfg, s0, trace);
  }
}
