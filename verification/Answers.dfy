/** What a client of the concurrent machine is told is true, duplicates are answered, retryable
    errors are retried, and a settlement settles all it set out to settle. */
module Answers {
  import opened Wrappers
  import opened Money
  import opened Ledger
  import opened Database
  import opened Posting
  import opened Settlement
  import opened Serial
  import opened Evolution
  import opened Keys
  import opened Coverage
  import opened SettlementLoops
  import opened Machine
  import opened Invariant
  import opened Statements
  import opened Serializability
  import opened ExactlyOnce

  // ---------- what an outcome means ----------

  /** Why a posting of the request fails on this database: its key is committed for another
      payload, or the atomic posting fails with this error. */
  ghost predicate PostFails(cfg: Config, db: Db, key: string, req: Request, e: LedgerError) {
    if key in db.keys then e == IdempotencyConflict && db.keys[key].request != req
    else forall t: int | t !in Ids(db.journal) :: Apply(cfg, db, PostOp(key, req, t)) == Err(e)
  }

  /** The answer of a transaction's own step says what happened to the database. */
  ghost predicate AnswerTrue(cfg: Config, s: Sys, p: Proc, t: Sys, o: Outcome) {
    match o
    case Committed(txn) =>
      && p.PostProc? && t.log == s.log + [PostOp(p.key, p.req, txn)]
      && Apply(cfg, s.db, PostOp(p.key, p.req, txn)) == Ok(t.db)
    case Replayed(txn) =>
      && p.PostProc? && t.log == s.log + [ReplayOp(p.key, p.req, txn)]
      && Apply(cfg, s.db, ReplayOp(p.key, p.req, txn)) == Ok(t.db) && t.db == s.db
    case SettledBatch(batch) =>
      && p.SettleProc? && p.spc.CommitSettle? && t.log == s.log + [SettleOp(p.spc.merchants, batch, p.spc.txns)]
      && Apply(cfg, s.db, SettleOp(p.spc.merchants, batch, p.spc.txns)) == Ok(t.db)
    case Failed(e) =>
      && t.db == s.db && t.log == s.log
      && (p.PostProc? ==> PostFails(cfg, s.db, p.key, p.req, e))
      && (p.SettleProc? ==> !p.spc.Candidates? && NoBatch(cfg, s.db, p.spc.merchants))
  }

  /** A refusal means that nothing the request could commit is accepted. */
  lemma FailureRefuses(cfg: Config, db: Db, key: string, req: Request, e: LedgerError, txn: int)
    requires PostFails(cfg, db, key, req, e)
    ensures Apply(cfg, db, PostOp(key, req, txn)).Err? && Apply(cfg, db, ReplayOp(key, req, txn)).Err?
  {}

  // ---------- postings ----------

  lemma CheckedFails(cfg: Config, db: Db, p: Proc, e: LedgerError)
    requires GoodDb(db) && p.PostProc? && ProcOk(cfg, db, p) && !p.pc.Claim? && !p.pc.ReadReplay?
    requires CheckPost(db.accounts, p.job.entry.legs, GuardVerdict(db.journal, p.job.guard)) == Err(e)
    ensures PostFails(cfg, db, p.key, p.req, e)
  {}

  lemma AllThere(db: Db, seen: map<int, Account>, ids: seq<int>)
    requires Ascending(ids) && Current(db, seen, Elements(ids)) && SawAll(db, seen, Elements(ids))
    requires Elements(ids) <= db.accounts.Keys
    ensures |seen| == |ids|
  {
    AscendingSize(ids);
    assert seen.Keys == Elements(ids);
    assert |seen| == |seen.Keys|;
  }

  /** Some account of the entry is missing when fewer rows came back than were asked for. */
  lemma MissingAccount(db: Db, job: Job, i: nat, seen: map<int, Account>)
    requires PostPcOk(db, job, Lock(i, seen)) && i == |PostLocks(job)| != |seen|
    ensures CheckPost(db.accounts, job.entry.legs, GuardVerdict(db.journal, job.guard)) == Err(AccountNotFound)
  {
    assert PostLocks(job)[..i] == PostLocks(job);
    if Accounts(job.entry.legs) <= db.accounts.Keys { AllThere(db, seen, PostLocks(job)); }
  }

  lemma CheckFails(cfg: Config, s: Sys, pid: nat, p: Proc, e: LedgerError)
    requires GoodDb(s.db) && p.PostProc? && ProcOk(cfg, s.db, p) && (p.pc.Check? || p.pc.Lock? || p.pc.RunGuard?)
    requires StepPost(s, pid, p).Some? && pid in StepPost(s, pid, p).value.procs
    requires StepPost(s, pid, p).value.procs[pid] == Ended(Failed(e))
    ensures CheckPost(s.db.accounts, p.job.entry.legs, GuardVerdict(s.db.journal, p.job.guard)) == Err(e)
  {
    if p.pc.Lock? { MissingAccount(s.db, p.job, p.pc.i, p.pc.seen); }
  }

  lemma WriteFails(cfg: Config, s: Sys, pid: nat, p: Proc, e: LedgerError)
    requires GoodDb(s.db) && p.PostProc? && ProcOk(cfg, s.db, p) && (p.pc.Write? || p.pc.Finish?)
    requires StepPost(s, pid, p).Some? && pid in StepPost(s, pid, p).value.procs
    requires StepPost(s, pid, p).value.procs[pid] == Ended(Failed(e))
    ensures CheckPost(s.db.accounts, p.job.entry.legs, GuardVerdict(s.db.journal, p.job.guard)) == Err(e)
  {
    if p.pc.Write? { CheckedUnderLocks(s.db, p.job, p.pc.seen); }
  }

  lemma CommitTrue(cfg: Config, init: Db, s: Sys, pid: nat)
    requires Inv(cfg, init, s) && pid in s.procs && AtCommit(s.procs[pid])
    ensures var t := CommitOf(s, pid, s.procs[pid]);
            pid in t.procs && t.procs[pid].Ended? && AnswerTrue(cfg, s, s.procs[pid], t, t.procs[pid].outcome)
  {
    CommitIsAtomic(cfg, init, s, pid);
  }

  lemma PostTrue(cfg: Config, init: Db, s: Sys, pid: nat)
    requires Inv(cfg, init, s) && pid in s.procs && s.procs[pid].PostProc? && !s.procs[pid].pc.CommitPost?
    requires StepPost(s, pid, s.procs[pid]).Some?
    requires var t := StepPost(s, pid, s.procs[pid]).value; pid in t.procs && t.procs[pid].Ended?
    ensures var t := StepPost(s, pid, s.procs[pid]).value;
            AnswerTrue(cfg, s, s.procs[pid], t, t.procs[pid].outcome)
  {
    var p := s.procs[pid];
    var t := StepPost(s, pid, p).value;
    assert ProcOk(cfg, s.db, p);
    if p.pc.ReadReplay? {
      KeyIsComplete(cfg, init, s, pid);
      ReplayEnded(cfg, s, pid, p);
    } else {
      PostFailed(s, pid, p);
      var e := t.procs[pid].outcome.error;
      if p.pc.Write? || p.pc.Finish? { WriteFails(cfg, s, pid, p, e); } else { CheckFails(cfg, s, pid, p, e); }
      CheckedFails(cfg, s.db, p, e);
    }
  }

  lemma ReplayEnded(cfg: Config, s: Sys, pid: nat, p: Proc)
    requires p.PostProc? && p.pc.ReadReplay? && p.key in s.db.keys
    requires s.db.keys[p.key].completed && s.db.keys[p.key].txn.Some?
    ensures StepPost(s, pid, p).Some? && pid in StepPost(s, pid, p).value.procs
    ensures var t := StepPost(s, pid, p).value;
            t.procs[pid].Ended? && AnswerTrue(cfg, s, p, t, t.procs[pid].outcome)
  {}

  /** Before its commit a posting can only end in a failure, which leaves everything else. */
  lemma PostFailed(s: Sys, pid: nat, p: Proc)
    requires p.PostProc? && !p.pc.ReadReplay? && !p.pc.CommitPost? && StepPost(s, pid, p).Some?
    requires pid in StepPost(s, pid, p).value.procs && StepPost(s, pid, p).value.procs[pid].Ended?
    ensures var t := StepPost(s, pid, p).value;
            t.db == s.db && t.log == s.log && t.procs[pid].outcome.Failed? && !p.pc.Claim? && !p.pc.Finish?
  {}

  // ---------- settlements ----------

  lemma NoRailFails(cfg: Config, db: Db, ms: set<int>, cs: set<Currency>)
    requires CandidatesOk(db, ms, cs) && !(cs <= cfg.payout.Keys)
    ensures NoBatch(cfg, db, ms)
  {}

  lemma PayoutFails(cfg: Config, db: Db, ms: set<int>, po: map<Currency, int>, nets: seq<Net>, k: nat, b: Batching,
                    txns: seq<int>, id: int)
    requires ResolvedOk(cfg, db, ms, po) && NetsOk(db, ms, nets) && PaidOk(db, po, nets, k, b, txns) && k < |nets|
    requires PayOne(db.accounts, b, po, nets[k], id).Err?
    ensures NoBatch(cfg, db, ms)
  {
    var e := PayOne(db.accounts, b, po, nets[k], id).error;
    forall ids: seq<int> ensures PayAll(db.accounts, po, nets, ids) == Err(e) {
      NetPrefix(nets, k);
      PayAllAnyIds(db.accounts, po, nets[..k], txns, ids);
      PayOneAnyId(db.accounts, po, nets, k, txns, ids, b, id);
      PayAllFails(db.accounts, po, nets, ids, k + 1);
    }
  }

  lemma PayOneAnyId(accounts: map<int, Account>, po: map<Currency, int>, nets: seq<Net>, k: nat, txns: seq<int>,
                    ids: seq<int>, b: Batching, id: int)
    requires k < |nets| && PayAll(accounts, po, nets[..k], txns) == Ok(b) && PayOne(accounts, b, po, nets[k], id).Err?
    requires PayAll(accounts, po, nets[..k], ids).Ok? && PayAll(accounts, po, nets[..k], ids).value.writes == b.writes
    requires Front(nets[..k + 1]) == nets[..k] && Last(nets[..k + 1]) == nets[k]
    ensures PayAll(accounts, po, nets[..k + 1], ids) == Err(PayOne(accounts, b, po, nets[k], id).error)
  {}

  lemma SettleFailed(cfg: Config, s: Sys, pid: nat, p: Proc)
    requires p.SettleProc? && !p.spc.CommitSettle? && StepSettle(cfg, s, pid, p).Some?
    requires SettlePcOk(cfg, s.db, p.spc)
    requires pid in StepSettle(cfg, s, pid, p).value.procs && StepSettle(cfg, s, pid, p).value.procs[pid].Ended?
    ensures var t := StepSettle(cfg, s, pid, p).value;
            t.db == s.db && t.log == s.log && t.procs[pid].outcome.Failed?
    ensures p.spc.Resolve? || p.spc.QueryNets? || p.spc.Pay?
    ensures p.spc.Resolve? ==> !(p.spc.currencies <= cfg.payout.Keys)
    ensures p.spc.QueryNets? ==> !Scannable(NetsOf(s.db.journal, Pendings(s.db.journal, p.spc.merchants)))
    ensures p.spc.Pay? ==> p.spc.k < |p.spc.nets|
                           && PayOne(s.db.accounts, p.spc.b, p.spc.payouts, p.spc.nets[p.spc.k], s.nextTxn).Err?
  {}

  lemma SettleTrue(cfg: Config, init: Db, s: Sys, pid: nat)
    requires Inv(cfg, init, s) && pid in s.procs && s.procs[pid].SettleProc? && !s.procs[pid].spc.CommitSettle?
    requires StepSettle(cfg, s, pid, s.procs[pid]).Some?
    requires var t := StepSettle(cfg, s, pid, s.procs[pid]).value; pid in t.procs && t.procs[pid].Ended?
    ensures var t := StepSettle(cfg, s, pid, s.procs[pid]).value;
            AnswerTrue(cfg, s, s.procs[pid], t, t.procs[pid].outcome)
  {
    var p := s.procs[pid];
    var c := p.spc;
    assert ProcOk(cfg, s.db, p);
    SettleFailed(cfg, s, pid, p);
    match c
    case Resolve(ms, cs) => NoRailFails(cfg, s.db, ms, cs);
    case QueryNets(ms, po) => OverflowFails(cfg, s.db, ms);
    case Pay(ms, po, nets, marked, count, batch, k, b, txns) =>
      PayoutFails(cfg, s.db, ms, po, nets, k, b, txns, s.nextTxn);
    case _ =>
  }

  // ---------- every answer ----------

  lemma CommitAdvances(cfg: Config, s: Sys, pid: nat)
    requires pid in s.procs && AtCommit(s.procs[pid])
    ensures Advance(cfg, s, pid) == Some(CommitOf(s, pid, s.procs[pid]))
  {}

  lemma PostAnswer(cfg: Config, init: Db, s: Sys, pid: nat, t: Sys)
    requires Inv(cfg, init, s) && pid in s.procs && s.procs[pid].PostProc? && !s.procs[pid].pc.CommitPost?
    requires Advance(cfg, s, pid) == Some(t) && pid in t.procs && t.procs[pid].Ended?
    ensures AnswerTrue(cfg, s, s.procs[pid], t, t.procs[pid].outcome)
  {
    PostTrue(cfg, init, s, pid);
  }

  lemma SettleAnswer(cfg: Config, init: Db, s: Sys, pid: nat, t: Sys)
    requires Inv(cfg, init, s) && pid in s.procs && s.procs[pid].SettleProc? && !s.procs[pid].spc.CommitSettle?
    requires Advance(cfg, s, pid) == Some(t) && pid in t.procs && t.procs[pid].Ended?
    ensures AnswerTrue(cfg, s, s.procs[pid], t, t.procs[pid].outcome)
  {
    SettleTrue(cfg, init, s, pid);
  }

  /** In every reachable state, when a transaction's own step ends it, its answer is true: what
      it says was committed is the atomic effect of its request, and when it says failed, no
      operation it could have committed is accepted. */
  lemma AnswersTrue(cfg: Config, s0: Sys, trace: seq<Event>, pid: nat)
    requires Start(cfg, s0) && Exec(cfg, s0, trace).Some?
    requires var s := Exec(cfg, s0, trace).value;
             && pid in s.procs && Next(cfg, s, Step(pid)).Some?
             && pid in Next(cfg, s, Step(pid)).value.procs && Next(cfg, s, Step(pid)).value.procs[pid].Ended?
    ensures var s := Exec(cfg, s0, trace).value;
            var t := Next(cfg, s, Step(pid)).value;
            AnswerTrue(cfg, s, s.procs[pid], t, t.procs[pid].outcome)
  {
    ExecKeeps(cfg, s0, trace);
    var s := Exec(cfg, s0, trace).value;
    var t := Next(cfg, s, Step(pid)).value;
    if AtCommit(s.procs[pid]) {
      CommitAdvances(cfg, s, pid);
      CommitTrue(cfg, s0.db, s, pid);
    } else if s.procs[pid].PostProc? {
      PostAnswer(cfg, s0.db, s, pid, t);
    } else {
      SettleAnswer(cfg, s0.db, s, pid, t);
    }
  }

  lemma LoseAckIs(cfg: Config, s: Sys, pid: nat)
    requires pid in s.procs && AtCommit(s.procs[pid])
    ensures Next(cfg, s, LoseAck(pid)) == Some(Fail(CommitOf(s, pid, s.procs[pid]), pid, Lost))
  {
    CommitAdvances(cfg, s, pid);
  }

  lemma LostCommit(cfg: Config, init: Db, s: Sys, pid: nat)
    requires Inv(cfg, init, s) && pid in s.procs && AtCommit(s.procs[pid])
    ensures var t := Fail(CommitOf(s, pid, s.procs[pid]), pid, Lost);
            && pid in t.procs && t.procs[pid] == Ended(Failed(Lost))
            && t.log == s.log + [OpOf(s.procs[pid])] && Apply(cfg, s.db, OpOf(s.procs[pid])) == Ok(t.db)
  {
    CommitIsAtomic(cfg, init, s, pid);
  }

  /** Only a lost acknowledgement leaves the client without a true answer: the commit it hides is
      the atomic effect of the transaction's operation. */
  lemma LostCommits(cfg: Config, s0: Sys, trace: seq<Event>, pid: nat)
    requires Start(cfg, s0) && Exec(cfg, s0, trace).Some?
    requires var s := Exec(cfg, s0, trace).value; pid in s.procs && AtCommit(s.procs[pid])
    ensures var s := Exec(cfg, s0, trace).value;
            && Next(cfg, s, LoseAck(pid)).Some?
            && var t := Next(cfg, s, LoseAck(pid)).value;
            && pid in t.procs && t.procs[pid] == Ended(Failed(Lost))
            && t.log == s.log + [OpOf(s.procs[pid])] && Apply(cfg, s.db, OpOf(s.procs[pid])) == Ok(t.db)
  {
    ExecKeeps(cfg, s0, trace);
    LoseAckIs(cfg, Exec(cfg, s0, trace).value, pid);
    LostCommit(cfg, s0.db, Exec(cfg, s0, trace).value, pid);
  }

  /** A fault commits nothing, and a transaction it ends is told so. */
  lemma FaultAnswered(cfg: Config, s: Sys, pid: nat, retryable: bool)
    requires Next(cfg, s, Fault(pid, retryable)).Some?
    ensures var t := Next(cfg, s, Fault(pid, retryable)).value;
            && t.db == s.db && t.log == s.log && pid in t.procs
            && (!retryable ==> t.procs[pid].Ended?)
            && (t.procs[pid].Ended? ==> t.procs[pid] == Ended(Failed(Transient)))
  {}

  /** A submission starts its transaction, or is refused at once: then nothing it could commit is
      accepted either. A refund without a key is refused, and no other request for its key. */
  lemma SubmissionAnswered(cfg: Config, s0: Sys, trace: seq<Event>, pid: nat, key: string, req: Request)
    requires Start(cfg, s0) && Exec(cfg, s0, trace).Some? && pid !in Exec(cfg, s0, trace).value.procs
    ensures var s := Exec(cfg, s0, trace).value;
            && Next(cfg, s, Submit(pid, key, req)).Some?
            && var t := Next(cfg, s, Submit(pid, key, req)).value;
            && t.db == s.db && t.log == s.log && pid in t.procs
            && if Build(cfg, s.db, req).Ok? && !(req.RefundReq? && key == "")
               then t.procs[pid] == PostProc(key, req, Build(cfg, s.db, req).value, 0, None, Claim)
               else t.procs[pid].Ended? && t.procs[pid].outcome.Failed? && Refuses(cfg, s.db, key, req)
  {
    ExecKeeps(cfg, s0, trace);
    var s := Exec(cfg, s0, trace).value;
    RunKeysFaithful(cfg, s0.db, s.log);
    if Build(cfg, s.db, req).Err? || (req.RefundReq? && key == "") { NotBuiltRefused(cfg, s.db, key, req); }
  }

  ghost predicate Refuses(cfg: Config, db: Db, key: string, req: Request) {
    forall t: int :: Apply(cfg, db, PostOp(key, req, t)).Err? && Apply(cfg, db, ReplayOp(key, req, t)).Err?
  }

  lemma NotBuiltRefused(cfg: Config, db: Db, key: string, req: Request)
    requires GoodDb(db) && KeysFaithful(cfg, db) && (Build(cfg, db, req).Err? || (req.RefundReq? && key == ""))
    ensures Refuses(cfg, db, key, req)
  {
    if key in db.keys { assert KeyFaithful(cfg, db, key); }
  }

  // ---------- while others run ----------

  /** An event of another transaction leaves this one alone. */
  lemma OthersSame(cfg: Config, s: Sys, e: Event, pid: nat)
    requires Next(cfg, s, e).Some? && e.pid != pid
    ensures var t := Next(cfg, s, e).value;
            (pid in t.procs <==> pid in s.procs) && (pid in s.procs ==> t.procs[pid] == s.procs[pid])
  {
    match e
    case Step(q) => AdvanceEnds(cfg, s, q);
    case LoseAck(q) => AdvanceEnds(cfg, s, q);
    case _ =>
  }

  lemma {:induction false} ExecKeepsFrom(cfg: Config, init: Db, u: Sys, trace: seq<Event>)
    requires Inv(cfg, init, u) && Exec(cfg, u, trace).Some?
    ensures Inv(cfg, init, Exec(cfg, u, trace).value)
  {
    if trace != [] {
      ExecKeepsFrom(cfg, init, u, Front(trace));
      NextKeeps(cfg, init, Exec(cfg, u, Front(trace)).value, Last(trace));
    }
  }

  /** The journal has grown and every committed key is as before. */
  predicate Later(db: Db, after: Db) {
    Grows(db.journal, after.journal) && forall k | k in db.keys :: k in after.keys && after.keys[k] == db.keys[k]
  }

  lemma LaterOn(x: Db, y: Db, z: Db)
    requires Later(x, y) && Later(y, z)
    ensures Later(x, z)
  {}

  lemma LoggedLater(cfg: Config, init: Db, log: seq<Op>, db: Db, more: seq<Op>, after: Db)
    requires GoodDb(db) && Run(cfg, init, log) == Ok(db) && Run(cfg, init, more) == Ok(after)
    requires |more| == |log| + 1 && more[..|log|] == log
    ensures Later(db, after)
  {
    assert Front(more) == log;
    ApplyKeepsGood(cfg, db, Last(more));
  }

  lemma StateLater(cfg: Config, init: Db, s: Sys, t: Sys)
    requires GoodDb(s.db) && Run(cfg, init, s.log) == Ok(s.db) && Run(cfg, init, t.log) == Ok(t.db)
    requires t.log == s.log || (|t.log| == |s.log| + 1 && t.log[..|s.log|] == s.log)
    ensures Later(s.db, t.db)
  {
    if t.log != s.log { LoggedLater(cfg, init, s.log, s.db, t.log, t.db); }
  }

  lemma EventLater(cfg: Config, init: Db, s: Sys, e: Event)
    requires Inv(cfg, init, s) && Next(cfg, s, e).Some?
    ensures Later(s.db, Next(cfg, s, e).value.db)
  {
    NextKeeps(cfg, init, s, e);
    CommitEnds(cfg, s, e);
    StateLater(cfg, init, s, Next(cfg, s, e).value);
  }

  lemma {:induction false} TraceLater(cfg: Config, init: Db, u: Sys, trace: seq<Event>)
    requires Inv(cfg, init, u) && Exec(cfg, u, trace).Some?
    ensures Later(u.db, Exec(cfg, u, trace).value.db)
  {
    if trace != [] {
      var s := Exec(cfg, u, Front(trace)).value;
      TraceLater(cfg, init, u, Front(trace));
      ExecKeepsFrom(cfg, init, u, Front(trace));
      EventLater(cfg, init, s, Last(trace));
      LaterOn(u.db, s.db, Exec(cfg, u, trace).value.db);
    }
  }

  lemma {:induction false} OthersOnly(cfg: Config, u: Sys, more: seq<Event>, pid: nat)
    requires pid in u.procs && Exec(cfg, u, more).Some? && forall e | e in more :: e.pid != pid
    ensures pid in Exec(cfg, u, more).value.procs && Exec(cfg, u, more).value.procs[pid] == u.procs[pid]
  {
    if more != [] {
      assert forall e | e in Front(more) :: e in more;
      OthersOnly(cfg, u, Front(more), pid);
      assert Last(more) in more;
      OthersSame(cfg, Exec(cfg, u, Front(more)).value, Last(more), pid);
    }
  }

  // ---------- duplicates ----------

  lemma ClaimReads(s: Sys, pid: nat, p: Proc)
    requires p.PostProc? && p.pc.Claim? && p.key in s.db.keys && p.key != "" && FreeKey(s, pid, p.key)
    ensures StepPost(s, pid, p) == Some(With(s, pid, p.(pc := ReadReplay)))
  {}

  /** A committed key is nobody's uncommitted insert. */
  lemma CommittedIsFree(cfg: Config, init: Db, s: Sys, pid: nat, key: string)
    requires Inv(cfg, init, s) && key in s.db.keys
    ensures FreeKey(s, pid, key) && key != ""
  {
    forall q | q in s.procs && q != pid ensures Claimed(s.procs[q]) != Some(key) {
      assert ProcOk(cfg, s.db, s.procs[q]);
    }
  }

  /** A duplicate of a committed request never waits, and reads the committed row next. */
  lemma DuplicateReads(cfg: Config, init: Db, s: Sys, pid: nat)
    requires Inv(cfg, init, s) && pid in s.procs && s.procs[pid].PostProc? && s.procs[pid].pc.Claim?
    requires s.procs[pid].key in s.db.keys
    ensures Next(cfg, s, Step(pid)) == Some(With(s, pid, s.procs[pid].(pc := ReadReplay)))
    ensures s.db.keys[s.procs[pid].key].completed && s.db.keys[s.procs[pid].key].txn.Some?
  {
    var p := s.procs[pid];
    CommittedIsFree(cfg, init, s, pid, p.key);
    ClaimReads(s, pid, p);
    RunKeysFaithful(cfg, init, s.log);
    assert KeyFaithful(cfg, s.db, p.key);
  }

  /** In every reachable state a duplicate of a committed request is answered by its own next two
      statements, without waiting and whatever others do between them: with the committed
      transaction if its payload is the committed one, and with a conflict otherwise. */
  lemma DuplicateEnds(cfg: Config, s0: Sys, trace: seq<Event>, pid: nat, more: seq<Event>)
    requires Start(cfg, s0) && Exec(cfg, s0, trace).Some?
    requires var s := Exec(cfg, s0, trace).value;
             && pid in s.procs && s.procs[pid].PostProc? && s.procs[pid].pc.Claim? && s.procs[pid].key in s.db.keys
    ensures var s := Exec(cfg, s0, trace).value;
            var p, row := s.procs[pid], s.db.keys[s.procs[pid].key];
            && row.completed && row.txn.Some? && Next(cfg, s, Step(pid)).Some?
            && var u := Next(cfg, s, Step(pid)).value;
               (forall e | e in more :: e.pid != pid) && Exec(cfg, u, more).Some? ==>
                 var v := Exec(cfg, u, more).value;
                 && Next(cfg, v, Step(pid)).Some?
                 && AnsweredWith(v, Next(cfg, v, Step(pid)).value, pid,
                                 if p.req == row.request then Replayed(row.txn.value) else Failed(IdempotencyConflict))
  {
    ExecKeeps(cfg, s0, trace);
    var s := Exec(cfg, s0, trace).value;
    DuplicateReads(cfg, s0.db, s, pid);
    var u := Next(cfg, s, Step(pid)).value;
    if (forall e | e in more :: e.pid != pid) && Exec(cfg, u, more).Some? {
      NextKeeps(cfg, s0.db, s, Step(pid));
      ReadAnswers(cfg, s0.db, u, more, pid, s.procs[pid].(pc := ReadReplay), s.db.keys[s.procs[pid].key]);
    }
  }

  /** The transaction has ended with this outcome, and nothing else of the tables has changed. */
  predicate AnsweredWith(v: Sys, t: Sys, pid: nat, o: Outcome) {
    t.db == v.db && pid in t.procs && t.procs[pid] == Ended(o)
  }

  lemma ReadAnswers(cfg: Config, init: Db, u: Sys, more: seq<Event>, pid: nat, p: Proc, row: KeyRow)
    requires Inv(cfg, init, u) && pid in u.procs && u.procs[pid] == p && p.PostProc? && p.pc.ReadReplay?
    requires p.key in u.db.keys && u.db.keys[p.key] == row && row.completed && row.txn.Some?
    requires (forall e | e in more :: e.pid != pid) && Exec(cfg, u, more).Some?
    ensures var v := Exec(cfg, u, more).value;
            && Next(cfg, v, Step(pid)).Some?
            && AnsweredWith(v, Next(cfg, v, Step(pid)).value, pid,
                            if p.req == row.request then Replayed(row.txn.value) else Failed(IdempotencyConflict))
  {
    OthersOnly(cfg, u, more, pid);
    TraceLater(cfg, init, u, more);
    ReplayAnswers(Exec(cfg, u, more).value, pid, p);
  }

  // ---------- retries ----------

  /** How often the transaction was rolled back with a retryable error. */
  function Retries(trace: seq<Event>, pid: nat): nat {
    if trace == [] then 0
    else Retries(Front(trace), pid) + (if Last(trace) == Fault(pid, true) then 1 else 0)
  }

  function AttemptOf(p: Proc): nat
    requires !p.Ended?
  {
    p.attempt
  }

  lemma StepKeepsAttempt(cfg: Config, s: Sys, pid: nat)
    requires Advance(cfg, s, pid).Some? && pid in Advance(cfg, s, pid).value.procs
    requires !Advance(cfg, s, pid).value.procs[pid].Ended?
    ensures !s.procs[pid].Ended? && AttemptOf(Advance(cfg, s, pid).value.procs[pid]) == AttemptOf(s.procs[pid])
  {
    if s.procs[pid].PostProc? {
      PostKeepsAttempt(s, pid, s.procs[pid]);
    } else {
      SettleKeepsAttempt(cfg, s, pid, s.procs[pid]);
    }
  }

  lemma PostKeepsAttempt(s: Sys, pid: nat, p: Proc)
    requires p.PostProc? && StepPost(s, pid, p).Some? && pid in StepPost(s, pid, p).value.procs
    requires !StepPost(s, pid, p).value.procs[pid].Ended?
    ensures var q := StepPost(s, pid, p).value.procs[pid];
            q.PostProc? && q.attempt == p.attempt && q.key == p.key && q.req == p.req && q.job == p.job
  {}

  /** Within one attempt the merchants of a settlement are those it read first. */
  lemma SettleKeepsAttempt(cfg: Config, s: Sys, pid: nat, p: Proc)
    requires p.SettleProc? && StepSettle(cfg, s, pid, p).Some? && pid in StepSettle(cfg, s, pid, p).value.procs
    requires !StepSettle(cfg, s, pid, p).value.procs[pid].Ended?
    ensures var q := StepSettle(cfg, s, pid, p).value.procs[pid];
            && q.SettleProc? && q.attempt == p.attempt && !q.spc.Candidates?
            && q.spc.merchants == if p.spc.Candidates? then Merchants(AllPendings(s.db)) else p.spc.merchants
  {}

  /** The attempt counter counts exactly the retryable errors. */
  lemma {:induction false} AttemptsCounted(cfg: Config, s0: Sys, trace: seq<Event>, pid: nat)
    requires Start(cfg, s0) && Exec(cfg, s0, trace).Some?
    ensures var procs := Exec(cfg, s0, trace).value.procs;
            && (pid !in procs ==> Retries(trace, pid) == 0)
            && (pid in procs && !procs[pid].Ended? ==> AttemptOf(procs[pid]) == Retries(trace, pid))
  {
    if trace != [] {
      AttemptsCounted(cfg, s0, Front(trace), pid);
      AttemptStep(cfg, Exec(cfg, s0, Front(trace)).value, Last(trace), pid, Retries(Front(trace), pid));
    }
  }

  lemma AttemptStep(cfg: Config, s: Sys, e: Event, pid: nat, n: nat)
    requires Next(cfg, s, e).Some? && (pid !in s.procs ==> n == 0)
    requires pid in s.procs && !s.procs[pid].Ended? ==> AttemptOf(s.procs[pid]) == n
    ensures var procs := Next(cfg, s, e).value.procs;
            var m := n + if e == Fault(pid, true) then 1 else 0;
            && (pid !in procs ==> m == 0)
            && (pid in procs && !procs[pid].Ended? ==> AttemptOf(procs[pid]) == m)
  {
    if e.pid != pid {
      OthersSame(cfg, s, e, pid);
    } else {
      match e
      case Step(_) => if !Next(cfg, s, e).value.procs[pid].Ended? { StepKeepsAttempt(cfg, s, pid); }
      case _ =>
    }
  }

  /** Where a retry starts: from the first statement, holding nothing. */
  function Restarted(p: Proc): Proc
    requires !p.Ended?
  {
    match p
    case PostProc(key, req, job, attempt, _, _) => PostProc(key, req, job, attempt + 1, None, Claim)
    case SettleProc(attempt, _) => SettleProc(attempt + 1, Candidates)
  }

  lemma RollbackRestarts(s: Sys, pid: nat, p: Proc)
    requires !p.Ended?
    ensures Rollback(s, pid, p, true)
         == Some(With(s, pid, if AttemptOf(p) < 24 then Restarted(p) else Ended(Failed(Transient))))
  {}

  /** A retryable error is retried, and commits nothing, until it is the 25th; only then does the
      transaction give up. */
  lemma RetriedTo25(cfg: Config, s0: Sys, trace: seq<Event>, pid: nat)
    requires Start(cfg, s0) && Exec(cfg, s0, trace).Some?
    requires pid in Exec(cfg, s0, trace).value.procs && !Exec(cfg, s0, trace).value.procs[pid].Ended?
    ensures var s := Exec(cfg, s0, trace).value;
            && Retries(trace, pid) < 25 && Next(cfg, s, Fault(pid, true)).Some?
            && var t := Next(cfg, s, Fault(pid, true)).value;
            && t.db == s.db && t.log == s.log && pid in t.procs
            && t.procs[pid] == if Retries(trace, pid) < 24 then Restarted(s.procs[pid]) else Ended(Failed(Transient))
  {
    ExecKeeps(cfg, s0, trace);
    AttemptsCounted(cfg, s0, trace, pid);
    var s := Exec(cfg, s0, trace).value;
    assert ProcOk(cfg, s.db, s.procs[pid]);
    RollbackRestarts(s, pid, s.procs[pid]);
  }

  // ---------- what a settlement covers ----------

  /** In this attempt the settlement keeps to these merchants; later attempts choose anew. */
  predicate KeepsTo(p: Proc, attempt: nat, merchants: set<int>) {
    p.Ended?
    || (p.SettleProc? && p.attempt >= attempt
        && (p.attempt == attempt ==> !p.spc.Candidates? && p.spc.merchants == merchants))
  }

  lemma EventKeepsTo(cfg: Config, s: Sys, e: Event, pid: nat, attempt: nat, merchants: set<int>)
    requires pid in s.procs && KeepsTo(s.procs[pid], attempt, merchants) && Next(cfg, s, e).Some?
    ensures pid in Next(cfg, s, e).value.procs
    ensures KeepsTo(Next(cfg, s, e).value.procs[pid], attempt, merchants)
  {
    if e.pid != pid {
      OthersSame(cfg, s, e, pid);
    } else {
      match e
      case Step(_) =>
        AdvanceEnds(cfg, s, pid);
        if !Next(cfg, s, e).value.procs[pid].Ended? { SettleKeepsAttempt(cfg, s, pid, s.procs[pid]); }
      case _ =>
    }
  }

  lemma {:induction false} TraceKeepsTo(cfg: Config, u: Sys, trace: seq<Event>, pid: nat, attempt: nat,
                                        merchants: set<int>)
    requires pid in u.procs && KeepsTo(u.procs[pid], attempt, merchants) && Exec(cfg, u, trace).Some?
    ensures pid in Exec(cfg, u, trace).value.procs
    ensures KeepsTo(Exec(cfg, u, trace).value.procs[pid], attempt, merchants)
  {
    if trace != [] {
      TraceKeepsTo(cfg, u, Front(trace), pid, attempt, merchants);
      EventKeepsTo(cfg, Exec(cfg, u, Front(trace)).value, Last(trace), pid, attempt, merchants);
    }
  }

  /** The payment of row k has been settled. */
  predicate NowSettled(before: seq<TxnRow>, after: seq<TxnRow>, k: nat) {
    k < |before| && k < |after| && SameTxn(before[k], after[k]) && after[k].settled && !after[k].pending
  }

  lemma BatchCovers(cfg: Config, was: Db, db: Db, merchants: set<int>, batch: int, txns: seq<int>, after: Db, k: nat)
    requires GoodDb(was) && GoodDb(db) && Grows(was.journal, db.journal) && merchants == Merchants(AllPendings(was))
    requires Apply(cfg, db, SettleOp(merchants, batch, txns)) == Ok(after)
    requires k < |was.journal| && Waiting(was.journal[k])
    ensures NowSettled(was.journal, after.journal, k)
  {
    var row := was.journal[k];
    assert RowOk(was.accounts, was.journal, row) && RowOk(db.accounts, db.journal, db.journal[k]);
    assert Awaits(row, row.legs[1].account);
    CandidateIff(was, row.legs[1].account);
    BatchSettles(cfg, db, merchants, batch, txns, k);
    if db.journal[k].pending { assert Awaits(db.journal[k], row.legs[1].account); }
  }

  /** A settlement that commits has settled every payment that waited when it read its
      candidates, whatever other transactions did in between. */
  lemma SettlesWhatWaited(cfg: Config, s0: Sys, first: seq<Event>, more: seq<Event>, pid: nat, k: nat)
    requires Start(cfg, s0) && Exec(cfg, s0, first).Some?
    requires var u := Exec(cfg, s0, first).value;
             && pid in u.procs && u.procs[pid].SettleProc? && u.procs[pid].spc.Candidates?
             && Next(cfg, u, Step(pid)).Some? && Exec(cfg, Next(cfg, u, Step(pid)).value, more).Some?
             && var s := Exec(cfg, Next(cfg, u, Step(pid)).value, more).value;
             && pid in s.procs && s.procs[pid].SettleProc? && s.procs[pid].spc.CommitSettle?
             && s.procs[pid].attempt == u.procs[pid].attempt
             && k < |u.db.journal| && Waiting(u.db.journal[k])
    ensures var u := Exec(cfg, s0, first).value;
            var s := Exec(cfg, Next(cfg, u, Step(pid)).value, more).value;
            && Next(cfg, s, Step(pid)).Some?
            && NowSettled(u.db.journal, Next(cfg, s, Step(pid)).value.db.journal, k)
  {
    ExecKeeps(cfg, s0, first);
    var u := Exec(cfg, s0, first).value;
    CommitCovers(cfg, s0.db, u, Next(cfg, u, Step(pid)).value, more, pid, k);
  }

  lemma CommitSettles(cfg: Config, init: Db, was: Db, s: Sys, pid: nat, merchants: set<int>, k: nat)
    requires GoodDb(was) && merchants == Merchants(AllPendings(was)) && k < |was.journal| && Waiting(was.journal[k])
    requires Inv(cfg, init, s) && Grows(was.journal, s.db.journal)
    requires pid in s.procs && s.procs[pid].SettleProc? && s.procs[pid].spc.CommitSettle?
    requires s.procs[pid].spc.merchants == merchants
    ensures NowSettled(was.journal, CommitOf(s, pid, s.procs[pid]).db.journal, k)
  {
    CommitIsAtomic(cfg, init, s, pid);
    BatchCovers(cfg, was, s.db, merchants, s.procs[pid].spc.batch, s.procs[pid].spc.txns,
                CommitOf(s, pid, s.procs[pid]).db, k);
  }

  lemma CommitCovers(cfg: Config, init: Db, u: Sys, v: Sys, more: seq<Event>, pid: nat, k: nat)
    requires Inv(cfg, init, u) && pid in u.procs && u.procs[pid].SettleProc? && u.procs[pid].spc.Candidates?
    requires Next(cfg, u, Step(pid)) == Some(v) && Exec(cfg, v, more).Some?
    requires var s := Exec(cfg, v, more).value;
             && pid in s.procs && s.procs[pid].SettleProc? && s.procs[pid].spc.CommitSettle?
             && s.procs[pid].attempt == u.procs[pid].attempt
    requires k < |u.db.journal| && Waiting(u.db.journal[k])
    ensures var s := Exec(cfg, v, more).value;
            && Next(cfg, s, Step(pid)).Some?
            && NowSettled(u.db.journal, Next(cfg, s, Step(pid)).value.db.journal, k)
  {
    var ms := Merchants(AllPendings(u.db));
    NextKeeps(cfg, init, u, Step(pid));
    CandidatesKept(cfg, u, v, pid, ms);
    TraceKeepsTo(cfg, v, more, pid, u.procs[pid].attempt, ms);
    TraceLater(cfg, init, v, more);
    ExecKeepsFrom(cfg, init, v, more);
    CommitAdvances(cfg, Exec(cfg, v, more).value, pid);
    CommitSettles(cfg, init, u.db, Exec(cfg, v, more).value, pid, ms, k);
  }

  lemma CandidatesKept(cfg: Config, u: Sys, v: Sys, pid: nat, ms: set<int>)
    requires pid in u.procs && u.procs[pid].SettleProc? && u.procs[pid].spc.Candidates?
    requires Next(cfg, u, Step(pid)) == Some(v) && ms == Merchants(AllPendings(u.db))
    ensures v.db == u.db && pid in v.procs && KeepsTo(v.procs[pid], u.procs[pid].attempt, ms)
  {}
}
