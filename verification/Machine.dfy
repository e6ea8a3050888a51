/** Concurrent transactions as a step machine under READ COMMITTED with row locks. Every
    statement that reads or locks shared rows is a step of its own; the statements that write
    rows nobody else can see before the commit are one step. */
module Machine {
  import opened Wrappers
  import opened Int64
  import opened Money
  import opened Ledger
  import opened Database
  import opened Posting
  import opened Settlement
  import opened Serial

  const MAX_RETRIES: nat := 25

  /** Where a posting transaction stands; each value names the statement to run next. */
  datatype PostPc =
    | Claim
    | ReadReplay
    | Check
    | Lock(i: nat, seen: map<int, Account>)
    | RunGuard(seen: map<int, Account>)
    | Write(seen: map<int, Account>)
    | Finish(nb: map<int, Minor>, txn: int)
    | CommitPost(nb: map<int, Minor>, txn: int)

  datatype SettlePc =
    | Candidates
    | Resolve(merchants: set<int>, currencies: set<Currency>)
    | LockAll(merchants: set<int>, payouts: map<Currency, int>, i: nat)
    | QueryNets(merchants: set<int>, payouts: map<Currency, int>)
    | QueryIds(merchants: set<int>, payouts: map<Currency, int>, nets: seq<Net>)
    | OpenBatch(merchants: set<int>, payouts: map<Currency, int>, nets: seq<Net>, marked: set<int>, count: nat)
    | Pay(merchants: set<int>, payouts: map<Currency, int>, nets: seq<Net>, marked: set<int>, count: nat,
          batch: int, k: nat, b: Batching, txns: seq<int>)
    | CommitSettle(merchants: set<int>, payouts: map<Currency, int>, nets: seq<Net>, marked: set<int>, count: nat,
                   batch: int, b: Batching, txns: seq<int>)

  datatype Outcome =
    | Committed(txn: int) | Replayed(txn: int) | SettledBatch(batch: int)
    | Failed(error: LedgerError)

  /** `mine` is the transaction's own, uncommitted idempotency_keys row. */
  datatype Proc =
    | PostProc(key: string, req: Request, job: Job, attempt: nat, mine: Option<KeyRow>, pc: PostPc)
    | SettleProc(attempt: nat, spc: SettlePc)
    | Ended(outcome: Outcome)

  datatype Sys = Sys(db: Db, log: seq<Op>, procs: map<nat, Proc>, nextTxn: int, nextBatch: int)

  datatype Event =
    | Submit(pid: nat, key: string, req: Request)
    | SubmitSettle(pid: nat)
    | Step(pid: nat)
    | LoseAck(pid: nat)
    | Fault(pid: nat, retryable: bool)

  // ---------- locks ----------

  ghost function PostLocks(job: Job): seq<int> { SortedIds(Accounts(job.entry.legs)) }

  ghost function SettleLocks(merchants: set<int>, payouts: map<Currency, int>): seq<int> {
    SortedIds(LockSet(merchants, payouts))
  }

  /** The account rows a transaction has locked. */
  ghost function Held(p: Proc): set<int> {
    match p
    case PostProc(_, _, job, _, _, pc) =>
      (match pc
       case Claim => {}
       case ReadReplay => {}
       case Check => {}
       case Lock(_, seen) => seen.Keys
       case RunGuard(seen) => seen.Keys
       case Write(seen) => seen.Keys
       case Finish(_, _) => Accounts(job.entry.legs)
       case CommitPost(_, _) => Accounts(job.entry.legs))
    case SettleProc(_, pc) =>
      (match pc
       case Candidates => {}
       case Resolve(_, _) => {}
       case LockAll(m, po, i) => if i <= |SettleLocks(m, po)| then Elements(SettleLocks(m, po)[..i]) else {}
       case QueryNets(m, po) => LockSet(m, po)
       case QueryIds(m, po, _) => LockSet(m, po)
       case OpenBatch(m, po, _, _, _) => LockSet(m, po)
       case Pay(m, po, _, _, _, _, _, _, _) => LockSet(m, po)
       case CommitSettle(m, po, _, _, _, _, _, _) => LockSet(m, po))
    case Ended(_) => {}
  }

  /** The idempotency key whose row a transaction has inserted and not yet committed. */
  function Claimed(p: Proc): Option<string> {
    if p.PostProc? && p.mine.Some? then Some(p.key) else None
  }

  ghost predicate FreeAccount(s: Sys, pid: nat, a: int) {
    forall q | q in s.procs && q != pid :: a !in Held(s.procs[q])
  }

  ghost predicate FreeKey(s: Sys, pid: nat, key: string) {
    forall q | q in s.procs && q != pid :: Claimed(s.procs[q]) != Some(key)
  }

  // ---------- steps ----------

  function With(s: Sys, pid: nat, p: Proc): Sys { s.(procs := s.procs[pid := p]) }

  function Fail(s: Sys, pid: nat, e: LedgerError): Sys { With(s, pid, Ended(Failed(e))) }

  function OwnKey(keys: map<string, KeyRow>, p: Proc): map<string, KeyRow>
    requires p.PostProc?
  {
    if p.mine.Some? then keys[p.key := p.mine.value] else keys
  }

  /** COMMIT of a posting: its rows become visible and its locks are released. */
  function CommitPosting(s: Sys, pid: nat, p: Proc): Sys
    requires p.PostProc? && p.pc.CommitPost?
  {
    var db := Db(Overlay(s.db.accounts, p.pc.nb), s.db.journal + [RowOf(p.job.entry, p.pc.txn)],
                 OwnKey(s.db.keys, p), s.db.batches);
    With(s.(db := db, log := s.log + [PostOp(p.key, p.req, p.pc.txn)]), pid, Ended(Committed(p.pc.txn)))
  }

  function CommitBatch(s: Sys, pid: nat, p: Proc): Sys
    requires p.SettleProc? && p.spc.CommitSettle?
  {
    var c := p.spc;
    With(s.(db := Settled(s.db, c.b, c.marked, c.count, c.nets, c.batch),
            log := s.log + [SettleOp(c.merchants, c.batch, c.txns)]), pid, Ended(SettledBatch(c.batch)))
  }

  /** The next statement of a posting transaction; None while it waits for a lock. */
  ghost function StepPost(s: Sys, pid: nat, p: Proc): Option<Sys>
    requires p.PostProc?
  {
    match p.pc
    case Claim =>
      if p.key == "" then Some(With(s, pid, p.(pc := Check)))
      else if !FreeKey(s, pid, p.key) then None
      else if p.key in s.db.keys then Some(With(s, pid, p.(pc := ReadReplay)))
      else Some(With(s, pid, p.(mine := Some(KeyRow(p.req, None, false)), pc := Check)))
    case ReadReplay =>
      if p.key !in s.db.keys then Some(Fail(s, pid, Transient))
      else
        var row := s.db.keys[p.key];
        if row.request != p.req then Some(Fail(s, pid, IdempotencyConflict))
        else if !row.completed || row.txn.None? then Some(Fail(s, pid, UnexpectedKeyState))
        else Some(With(s.(log := s.log + [ReplayOp(p.key, p.req, row.txn.value)]), pid, Ended(Replayed(row.txn.value))))
    case Check =>
      if ValidateLegs(p.job.entry.legs).Err? then Some(Fail(s, pid, ValidateLegs(p.job.entry.legs).error))
      else Some(With(s, pid, p.(pc := Lock(0, map[]))))
    case Lock(i, seen) =>
      var ids := PostLocks(p.job);
      if i >= |ids| then
        if |seen| != |ids| then Some(Fail(s, pid, AccountNotFound)) else Some(With(s, pid, p.(pc := RunGuard(seen))))
      else if ids[i] !in s.db.accounts then Some(With(s, pid, p.(pc := Lock(i + 1, seen))))
      else if !FreeAccount(s, pid, ids[i]) then None
      else Some(With(s, pid, p.(pc := Lock(i + 1, seen[ids[i] := s.db.accounts[ids[i]]]))))
    case RunGuard(seen) =>
      var g := GuardVerdict(s.db.journal, p.job.guard);
      if g.Err? then Some(Fail(s, pid, g.error)) else Some(With(s, pid, p.(pc := Write(seen))))
    case Write(seen) =>
      var r := CheckPost(seen, p.job.entry.legs, Ok(()));
      if r.Err? then Some(Fail(s, pid, r.error))
      else Some(With(s.(nextTxn := s.nextTxn + 1), pid, p.(pc := Finish(r.value, s.nextTxn))))
    case Finish(nb, txn) =>
      var mine := if p.mine.Some? then Some(KeyRow(p.mine.value.request, Some(txn), true)) else None;
      Some(With(s, pid, p.(mine := mine, pc := CommitPost(nb, txn))))
    case CommitPost(_, _) =>
      Some(CommitPosting(s, pid, p))
  }

  ghost function StepSettle(cfg: Config, s: Sys, pid: nat, p: Proc): Option<Sys>
    requires p.SettleProc?
  {
    match p.spc
    case Candidates =>
      var pends := AllPendings(s.db);
      Some(With(s, pid, p.(spc := Resolve(Merchants(pends), PendCurrencies(pends)))))
    case Resolve(ms, cs) =>
      if !(cs <= cfg.payout.Keys) then Some(Fail(s, pid, NoPayoutAccount))
      else Some(With(s, pid, p.(spc := LockAll(ms, PayoutMap(cfg, cs), 0))))
    case LockAll(ms, po, i) =>
      var ids := SettleLocks(ms, po);
      if i >= |ids| then
        if LockSet(ms, po) <= s.db.accounts.Keys then Some(With(s, pid, p.(spc := QueryNets(ms, po))))
        else Some(Fail(s, pid, AccountNotFound))
      else if ids[i] in s.db.accounts && !FreeAccount(s, pid, ids[i]) then None
      else Some(With(s, pid, p.(spc := LockAll(ms, po, i + 1))))
    case QueryNets(ms, po) =>
      var nets := NetsOf(s.db.journal, Pendings(s.db.journal, ms));
      if exists i | 0 <= i < |nets| :: !InRange(nets[i].net) then Some(Fail(s, pid, QueryOverflow))
      else Some(With(s, pid, p.(spc := QueryIds(ms, po, nets))))
    case QueryIds(ms, po, nets) =>
      var pends := Pendings(s.db.journal, ms);
      Some(With(s, pid, p.(spc := OpenBatch(ms, po, nets, PendIds(pends), |pends|))))
    case OpenBatch(ms, po, nets, marked, count) =>
      Some(With(s.(nextBatch := s.nextBatch + 1), pid,
                p.(spc := Pay(ms, po, nets, marked, count, s.nextBatch, 0, Batching(map[], []), []))))
    case Pay(ms, po, nets, marked, count, batch, k, b, txns) =>
      if k >= |nets| then Some(With(s, pid, p.(spc := CommitSettle(ms, po, nets, marked, count, batch, b, txns))))
      else if nets[k].net > 0 && !(nets[k].merchant in Held(p) && PayoutOf(po, nets[k].currency) in Held(p)) then None
      else
        var r := PayOne(s.db.accounts, b, po, nets[k], s.nextTxn);
        if r.Err? then Some(Fail(s, pid, r.error))
        else if |r.value.rows| == |b.rows| then
          Some(With(s, pid, p.(spc := Pay(ms, po, nets, marked, count, batch, k + 1, r.value, txns))))
        else
          Some(With(s.(nextTxn := s.nextTxn + 1), pid,
                    p.(spc := Pay(ms, po, nets, marked, count, batch, k + 1, r.value, txns + [s.nextTxn]))))
    case CommitSettle(_, _, _, _, _, _, _, _) =>
      Some(CommitBatch(s, pid, p))
  }

  /** Nothing but the entry of `pid` and the sequences differs. */
  ghost predicate Private(s: Sys, t: Sys, pid: nat) {
    && pid in t.procs
    && t == With(s.(nextTxn := t.nextTxn, nextBatch := t.nextBatch), pid, t.procs[pid])
  }

  /** Only a replay that answers and a commit reach beyond their own transaction. */
  lemma PostPrivate(s: Sys, pid: nat, p: Proc)
    requires p.PostProc? && !p.pc.ReadReplay? && !p.pc.CommitPost? && StepPost(s, pid, p).Some?
    ensures Private(s, StepPost(s, pid, p).value, pid)
  {}

  lemma SettlePrivate(cfg: Config, s: Sys, pid: nat, p: Proc)
    requires p.SettleProc? && !p.spc.CommitSettle? && StepSettle(cfg, s, pid, p).Some?
    ensures Private(s, StepSettle(cfg, s, pid, p).value, pid)
  {}

  ghost function Advance(cfg: Config, s: Sys, pid: nat): Option<Sys> {
    if pid !in s.procs then None
    else
      match s.procs[pid]
      case PostProc(_, _, _, _, _, _) => StepPost(s, pid, s.procs[pid])
      case SettleProc(_, _) => StepSettle(cfg, s, pid, s.procs[pid])
      case Ended(_) => None
  }

  predicate AtCommit(p: Proc) {
    (p.PostProc? && p.pc.CommitPost?) || (p.SettleProc? && p.spc.CommitSettle?)
  }

  /** Rollback: nothing of the attempt remains. A serialization failure or deadlock report is
      retried while attempts remain. */
  function Rollback(s: Sys, pid: nat, p: Proc, retryable: bool): Option<Sys> {
    if p.Ended? then None
    else if retryable && p.attempt + 1 < MAX_RETRIES then
      Some(With(s, pid,
        if p.PostProc? then p.(attempt := p.attempt + 1, mine := None, pc := Claim)
        else p.(attempt := p.attempt + 1, spc := Candidates)))
    else Some(Fail(s, pid, Transient))
  }

  ghost function Next(cfg: Config, s: Sys, e: Event): Option<Sys> {
    match e
    case Submit(pid, key, req) =>
      if pid in s.procs then None
      else
        var job := Build(cfg, s.db, req);
        if job.Err? then Some(Fail(s, pid, job.error))
        else if !KeyAllowed(req, key) then Some(Fail(s, pid, KeyRequired))
        else Some(With(s, pid, PostProc(key, req, job.value, 0, None, Claim)))
    case SubmitSettle(pid) =>
      if pid in s.procs then None else Some(With(s, pid, SettleProc(0, Candidates)))
    case Step(pid) => Advance(cfg, s, pid)
    case LoseAck(pid) =>
      if pid in s.procs && AtCommit(s.procs[pid]) && Advance(cfg, s, pid).Some?
      then Some(Fail(Advance(cfg, s, pid).value, pid, Lost)) else None
    case Fault(pid, retryable) =>
      if pid in s.procs then Rollback(s, pid, s.procs[pid], retryable) else None
  }

  /** The state after a trace of events from `s`. */
  ghost function Exec(cfg: Config, s: Sys, trace: seq<Event>): Option<Sys> {
    if trace == [] then Some(s)
    else
      var before := Exec(cfg, s, Front(trace));
      if before.None? then None else Next(cfg, before.value, Last(trace))
  }

  predicate Start(cfg: Config, s: Sys) {
    && InitDb(s.db) && s.log == [] && s.procs == map[]
    && cfg.payout.Values <= s.db.accounts.Keys && cfg.fxDesk.Values <= s.db.accounts.Keys
  }
}
