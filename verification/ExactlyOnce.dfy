/** Exactly-once keys under concurrency: duplicates, rollbacks, retries and lost
    acknowledgements (internal/store/idempotency.go). */
module ExactlyOnce {
  import opened Wrappers
  import opened Ledger
  import opened Database
  import opened Serial
  import opened Keys
  import opened Machine
  import opened Invariant
  import opened Serializability

  lemma ReplayAnswers(s: Sys, pid: nat, p: Proc)
    requires p.PostProc? && p.pc.ReadReplay? && p.key in s.db.keys
    requires s.db.keys[p.key].completed && s.db.keys[p.key].txn.Some?
    ensures StepPost(s, pid, p).Some?
    ensures var t := StepPost(s, pid, p).value;
            t.db == s.db && pid in t.procs && t.procs[pid] == Ended(
              if p.req == s.db.keys[p.key].request then Replayed(s.db.keys[p.key].txn.value)
              else Failed(IdempotencyConflict))
  {}

  lemma KeyIsComplete(cfg: Config, init: Db, s: Sys, pid: nat)
    requires Inv(cfg, init, s) && pid in s.procs && s.procs[pid].PostProc? && s.procs[pid].pc.ReadReplay?
    ensures var key := s.procs[pid].key;
            key in s.db.keys && s.db.keys[key].completed && s.db.keys[key].txn.Some?
  {
    assert ProcOk(cfg, s.db, s.procs[pid]);
    RunKeysFaithful(cfg, init, s.log);
    assert KeyFaithful(cfg, s.db, s.procs[pid].key);
  }

  /** No reachable database holds an unfinished key, so the unexpected-state branch is dead:
      a duplicate is answered with the committed transaction, or refused if its payload
      differs. */
  lemma DuplicateAnswered(cfg: Config, s0: Sys, trace: seq<Event>, pid: nat)
    requires Start(cfg, s0) && Exec(cfg, s0, trace).Some?
    requires var s := Exec(cfg, s0, trace).value;
             pid in s.procs && s.procs[pid].PostProc? && s.procs[pid].pc.ReadReplay?
    ensures var s := Exec(cfg, s0, trace).value;
            var p := s.procs[pid];
            && p.key in s.db.keys && s.db.keys[p.key].completed && s.db.keys[p.key].txn.Some?
            && Next(cfg, s, Step(pid)).Some?
            && var t := Next(cfg, s, Step(pid)).value;
               t.db == s.db && pid in t.procs && t.procs[pid] == Ended(
                 if p.req == s.db.keys[p.key].request then Replayed(s.db.keys[p.key].txn.value)
                 else Failed(IdempotencyConflict))
  {
    ExecKeeps(cfg, s0, trace);
    var s := Exec(cfg, s0, trace).value;
    KeyIsComplete(cfg, s0.db, s, pid);
    ReplayAnswers(s, pid, s.procs[pid]);
  }

  /** An attempt that is rolled back leaves its key claimable: nobody holds it and it is not
      committed, so the next claimant takes it. */
  lemma AbortLeavesKeyClaimable(cfg: Config, s0: Sys, trace: seq<Event>, pid: nat, retryable: bool, q: nat)
    requires Start(cfg, s0) && Exec(cfg, s0, trace).Some?
    requires var s := Exec(cfg, s0, trace).value;
             && pid in s.procs && Claimed(s.procs[pid]).Some?
             && Next(cfg, s, Fault(pid, retryable)).Some?
             && var t := Next(cfg, s, Fault(pid, retryable)).value;
                q in t.procs && t.procs[q].PostProc? && t.procs[q].pc.Claim? && t.procs[q].key == s.procs[pid].key
    ensures var s := Exec(cfg, s0, trace).value;
            var t := Next(cfg, s, Fault(pid, retryable)).value;
            && Next(cfg, t, Step(q)).Some?
            && Claimed(Next(cfg, t, Step(q)).value.procs[q]) == Some(s.procs[pid].key)
  {
    ExecKeeps(cfg, s0, trace);
    var s := Exec(cfg, s0, trace).value;
    AbortFreesKey(cfg, s0.db, s, pid, retryable, q);
    ClaimTakes(Next(cfg, s, Fault(pid, retryable)).value, q);
  }

  lemma AbortFreesKey(cfg: Config, init: Db, s: Sys, pid: nat, retryable: bool, q: nat)
    requires Inv(cfg, init, s) && pid in s.procs && Claimed(s.procs[pid]).Some?
    requires Rollback(s, pid, s.procs[pid], retryable).Some?
    ensures var t := Rollback(s, pid, s.procs[pid], retryable).value;
            FreeKey(t, q, s.procs[pid].key) && s.procs[pid].key !in t.db.keys && s.procs[pid].key != ""
  {}

  lemma ClaimTakes(t: Sys, q: nat)
    requires q in t.procs && t.procs[q].PostProc? && t.procs[q].pc.Claim?
    requires t.procs[q].key != "" && FreeKey(t, q, t.procs[q].key) && t.procs[q].key !in t.db.keys
    ensures StepPost(t, q, t.procs[q]).Some?
    ensures Claimed(StepPost(t, q, t.procs[q]).value.procs[q]) == Some(t.procs[q].key)
  {}

  /** In every reachable state each key has been posted at most once, counting duplicates,
      retries and commits whose acknowledgement was lost. */
  lemma ExactlyOncePosting(cfg: Config, s0: Sys, trace: seq<Event>, i: nat, j: nat)
    requires Start(cfg, s0) && Exec(cfg, s0, trace).Some?
    requires var log := Exec(cfg, s0, trace).value.log;
             i < j < |log| && log[i].PostOp? && log[j].PostOp? && log[i].key == log[j].key
    ensures Exec(cfg, s0, trace).value.log[i].key == ""
  {
    Serializable(cfg, s0, trace);
    KeyPostedOnce(cfg, s0.db, Exec(cfg, s0, trace).value.log, i, j);
  }

  /** Only a transaction's own last step commits anything, and it then ends for good: one
      submission, with all its internal retries, commits at most once. */
  lemma CommitEnds(cfg: Config, s: Sys, e: Event)
    requires Next(cfg, s, e).Some?
    ensures var t := Next(cfg, s, e).value;
            && (forall q | q in s.procs && q != e.pid :: q in t.procs && t.procs[q] == s.procs[q])
            && (e.pid in s.procs ==> !s.procs[e.pid].Ended?)
            && (t.log == s.log || (|t.log| == |s.log| + 1 && t.log[..|s.log|] == s.log
                                   && e.pid in t.procs && t.procs[e.pid].Ended?))
            && (t.db != s.db ==> t.log != s.log)
  {
    match e
    case Submit(_, _, _) =>
    case SubmitSettle(_) =>
    case Step(pid) => AdvanceEnds(cfg, s, pid);
    case LoseAck(pid) => AdvanceEnds(cfg, s, pid);
    case Fault(_, _) =>
  }

  /** A step of one transaction commits nothing, or ends it with one more logged operation. */
  predicate StepEnds(s: Sys, t: Sys, pid: nat) {
    && t.procs.Keys == s.procs.Keys + {pid} && (forall q | q in s.procs && q != pid :: t.procs[q] == s.procs[q])
    && (t.log == s.log || (|t.log| == |s.log| + 1 && t.log[..|s.log|] == s.log && t.procs[pid].Ended?))
    && (t.db != s.db ==> t.log != s.log)
  }

  lemma LogGrows(log: seq<Op>, op: Op)
    ensures |log + [op]| == |log| + 1 && (log + [op])[..|log|] == log
  {}

  lemma PostCommitEnds(s: Sys, pid: nat, p: Proc)
    requires p.PostProc? && p.pc.CommitPost?
    ensures StepEnds(s, CommitPosting(s, pid, p), pid)
  {
    LogGrows(s.log, PostOp(p.key, p.req, p.pc.txn));
  }

  lemma ReplayEnds(s: Sys, pid: nat, p: Proc)
    requires p.PostProc? && p.pc.ReadReplay? && StepPost(s, pid, p).Some?
    ensures StepEnds(s, StepPost(s, pid, p).value, pid)
  {
    if p.key in s.db.keys && s.db.keys[p.key].txn.Some? {
      LogGrows(s.log, ReplayOp(p.key, p.req, s.db.keys[p.key].txn.value));
    }
  }

  lemma PrivateEnds(s: Sys, t: Sys, pid: nat)
    requires Private(s, t, pid)
    ensures StepEnds(s, t, pid)
  {}

  lemma PostEnds(s: Sys, pid: nat, p: Proc)
    requires p.PostProc? && StepPost(s, pid, p).Some?
    ensures StepEnds(s, StepPost(s, pid, p).value, pid)
  {
    if p.pc.CommitPost? {
      PostCommitEnds(s, pid, p);
    } else if p.pc.ReadReplay? {
      ReplayEnds(s, pid, p);
    } else {
      PostPrivate(s, pid, p);
      PrivateEnds(s, StepPost(s, pid, p).value, pid);
    }
  }

  lemma BatchCommitEnds(s: Sys, pid: nat, p: Proc)
    requires p.SettleProc? && p.spc.CommitSettle?
    ensures StepEnds(s, CommitBatch(s, pid, p), pid)
  {
    LogGrows(s.log, SettleOp(p.spc.merchants, p.spc.batch, p.spc.txns));
  }

  lemma SettleEnds(cfg: Config, s: Sys, pid: nat, p: Proc)
    requires p.SettleProc? && StepSettle(cfg, s, pid, p).Some?
    ensures StepEnds(s, StepSettle(cfg, s, pid, p).value, pid)
  {
    if p.spc.CommitSettle? {
      BatchCommitEnds(s, pid, p);
    } else {
      SettlePrivate(cfg, s, pid, p);
      PrivateEnds(s, StepSettle(cfg, s, pid, p).value, pid);
    }
  }

  lemma AdvanceEnds(cfg: Config, s: Sys, pid: nat)
    requires Advance(cfg, s, pid).Some?
    ensures pid in s.procs && !s.procs[pid].Ended? && StepEnds(s, Advance(cfg, s, pid).value, pid)
  {
    if s.procs[pid].PostProc? { PostEnds(s, pid, s.procs[pid]); } else { SettleEnds(cfg, s, pid, s.procs[pid]); }
  }
}
