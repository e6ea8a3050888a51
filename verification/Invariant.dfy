/** What every in-flight transaction knows about the committed database, program counter by
    program counter: the invariant of the step machine. */
module Invariant {
  import opened Wrappers
  import opened Int64
  import opened Money
  import opened Ledger
  import opened Database
  import opened Posting
  import opened Settlement
  import opened Serial
  import opened Machine

  // ---------- what each program counter knows ----------

  /** The rows read under the locks are still the committed rows. */
  predicate Current(db: Db, seen: map<int, Account>, ids: set<int>) {
    seen.Keys <= ids && forall a | a in seen :: a in db.accounts && seen[a] == db.accounts[a]
  }

  /** No row that is there has been passed over. */
  predicate SawAll(db: Db, seen: map<int, Account>, ids: set<int>) {
    forall a | a in ids && a in db.accounts :: a in seen
  }

  ghost predicate PostPcOk(db: Db, job: Job, pc: PostPc) {
    var legs := job.entry.legs;
    match pc
    case Claim => true
    case ReadReplay => true
    case Check => true
    case Lock(i, seen) =>
      && ValidateLegs(legs).Ok? && i <= |PostLocks(job)|
      && Current(db, seen, Elements(PostLocks(job)[..i])) && SawAll(db, seen, Elements(PostLocks(job)[..i]))
    case RunGuard(seen) =>
      ValidateLegs(legs).Ok? && Current(db, seen, Accounts(legs)) && seen.Keys == Accounts(legs)
    case Write(seen) =>
      && ValidateLegs(legs).Ok? && Current(db, seen, Accounts(legs)) && seen.Keys == Accounts(legs)
      && GuardVerdict(db.journal, job.guard).Ok?
    case Finish(nb, _) => CheckPost(db.accounts, legs, GuardVerdict(db.journal, job.guard)) == Ok(nb)
    case CommitPost(nb, _) => CheckPost(db.accounts, legs, GuardVerdict(db.journal, job.guard)) == Ok(nb)
  }

  /** A claimed key is not committed, and its row is complete only at the commit. */
  predicate ClaimOk(db: Db, p: Proc)
    requires p.PostProc?
  {
    match p.pc
    case Claim => p.mine.None?
    case ReadReplay => p.mine.None? && p.key in db.keys
    case CommitPost(_, txn) =>
      if p.key == "" then p.mine.None? else p.mine == Some(KeyRow(p.req, Some(txn), true)) && p.key !in db.keys
    case _ =>
      if p.key == "" then p.mine.None? else p.mine == Some(KeyRow(p.req, None, false)) && p.key !in db.keys
  }

  predicate ResolvedOk(cfg: Config, db: Db, merchants: set<int>, payouts: map<Currency, int>) {
    && merchants <= db.accounts.Keys
    && CurrenciesOf(db.accounts, merchants) <= cfg.payout.Keys
    && payouts == PayoutMap(cfg, CurrenciesOf(db.accounts, merchants))
    && LockSet(merchants, payouts) <= db.accounts.Keys
  }

  /** The nets are those of the current journal. */
  predicate NetsOk(db: Db, merchants: set<int>, nets: seq<Net>) {
    && nets == NetsOf(db.journal, Pendings(db.journal, merchants))
    && forall i | 0 <= i < |nets| :: InRange(nets[i].net)
  }

  /** The second query listed the same pending payments the nets were computed from. */
  predicate MarkedOk(db: Db, merchants: set<int>, marked: set<int>, count: nat) {
    marked == PendIds(Pendings(db.journal, merchants)) && count == |Pendings(db.journal, merchants)|
  }

  ghost predicate SettlePcOk(cfg: Config, db: Db, pc: SettlePc) {
    match pc
    case Candidates => true
    case Resolve(ms, cs) => CandidatesOk(db, ms, cs)
    case LockAll(ms, po, i) => ResolvedOk(cfg, db, ms, po) && i <= |SettleLocks(ms, po)|
    case QueryNets(ms, po) => ResolvedOk(cfg, db, ms, po)
    case QueryIds(ms, po, nets) => ResolvedOk(cfg, db, ms, po) && NetsOk(db, ms, nets)
    case OpenBatch(ms, po, nets, marked, count) =>
      ResolvedOk(cfg, db, ms, po) && NetsOk(db, ms, nets) && MarkedOk(db, ms, marked, count)
    case Pay(ms, po, nets, marked, count, _, k, b, txns) =>
      && ResolvedOk(cfg, db, ms, po) && NetsOk(db, ms, nets) && MarkedOk(db, ms, marked, count)
      && PaidOk(db, po, nets, k, b, txns)
    case CommitSettle(ms, po, nets, marked, count, _, b, txns) =>
      && ResolvedOk(cfg, db, ms, po) && NetsOk(db, ms, nets) && MarkedOk(db, ms, marked, count)
      && PaidOk(db, po, nets, |nets|, b, txns)
  }

  ghost predicate ProcOk(cfg: Config, db: Db, p: Proc) {
    match p
    case PostProc(key, req, job, attempt, _, pc) =>
      && attempt < MAX_RETRIES && KeyAllowed(req, key) && Build(cfg, db, req) == Ok(job)
      && PostPcOk(db, job, pc) && ClaimOk(db, p)
    case SettleProc(attempt, pc) => attempt < MAX_RETRIES && SettlePcOk(cfg, db, pc)
    case Ended(_) => true
  }

  // ---------- ids taken from the sequences ----------

  function TxnsOf(p: Proc): set<int> {
    match p
    case PostProc(_, _, _, _, _, pc) =>
      (match pc case Finish(_, txn) => {txn} case CommitPost(_, txn) => {txn} case _ => {})
    case SettleProc(_, pc) =>
      (match pc
       case Pay(_, _, _, _, _, _, _, _, txns) => Elements(txns)
       case CommitSettle(_, _, _, _, _, _, _, txns) => Elements(txns)
       case _ => {})
    case Ended(_) => {}
  }

  function BatchesOf(p: Proc): set<int> {
    if p.SettleProc? && p.spc.Pay? then {p.spc.batch}
    else if p.SettleProc? && p.spc.CommitSettle? then {p.spc.batch} else {}
  }

  predicate DistinctSeq(s: seq<int>) { forall i, j | 0 <= i < j < |s| :: s[i] != s[j] }

  predicate TxnsDistinct(p: Proc) {
    && (p.SettleProc? && p.spc.Pay? ==> DistinctSeq(p.spc.txns))
    && (p.SettleProc? && p.spc.CommitSettle? ==> DistinctSeq(p.spc.txns))
  }

  predicate IdsOk(db: Db, nextTxn: int, nextBatch: int, p: Proc) {
    && (forall t | t in TxnsOf(p) :: t < nextTxn && t !in Ids(db.journal))
    && (forall b | b in BatchesOf(p) :: b < nextBatch && b !in db.batches)
    && TxnsDistinct(p)
  }

  /** Two transactions share no lock, no key and no id. */
  ghost predicate Apart(p: Proc, q: Proc) {
    && Held(p) !! Held(q) && TxnsOf(p) !! TxnsOf(q) && BatchesOf(p) !! BatchesOf(q)
    && (Claimed(p).Some? ==> Claimed(p) != Claimed(q))
  }

  predicate SequencesOk(s: Sys) {
    && (forall t | t in Ids(s.db.journal) :: t < s.nextTxn)
    && (forall b | b in s.db.batches :: b < s.nextBatch)
  }

  ghost predicate Inv(cfg: Config, init: Db, s: Sys) {
    && InitDb(init) && Run(cfg, init, s.log) == Ok(s.db) && GoodDb(s.db)
    && cfg.payout.Values <= s.db.accounts.Keys
    && SequencesOk(s)
    && (forall pid | pid in s.procs :: ProcOk(cfg, s.db, s.procs[pid]))
    && (forall pid | pid in s.procs :: IdsOk(s.db, s.nextTxn, s.nextBatch, s.procs[pid]))
    && (forall p, q | p in s.procs && q in s.procs && p != q :: Apart(s.procs[p], s.procs[q]))
  }

  // ---------- a step that commits nothing ----------

  lemma LogExtends(cfg: Config, init: Db, log: seq<Op>, db: Db, op: Op)
    requires Run(cfg, init, log) == Ok(db)
    ensures Run(cfg, init, log + [op]) == Apply(cfg, db, op)
  {
    assert Front(log + [op]) == log && Last(log + [op]) == op;
  }

  /** A step of one transaction that leaves the database alone disturbs nobody. */
  lemma LocalStep(cfg: Config, init: Db, s: Sys, t: Sys, pid: nat)
    requires Inv(cfg, init, s)
    requires pid in t.procs && t.procs == s.procs[pid := t.procs[pid]]
    requires t.db == s.db && Run(cfg, init, t.log) == Ok(t.db)
    requires t.nextTxn >= s.nextTxn && t.nextBatch >= s.nextBatch
    requires ProcOk(cfg, t.db, t.procs[pid]) && IdsOk(t.db, t.nextTxn, t.nextBatch, t.procs[pid])
    requires forall q | q in s.procs && q != pid :: Apart(t.procs[pid], s.procs[q])
    ensures Inv(cfg, init, t)
  {
    forall q | q in t.procs ensures IdsOk(t.db, t.nextTxn, t.nextBatch, t.procs[q]) {
      if q != pid { assert IdsOk(s.db, s.nextTxn, s.nextBatch, s.procs[q]); }
    }
    forall p, q | p in t.procs && q in t.procs && p != q ensures Apart(t.procs[p], t.procs[q]) {
      if p != pid && q != pid { assert Apart(s.procs[p], s.procs[q]); }
    }
  }

  /** The accounts, ids and key of a transaction's next state are its own or nobody's. */
  ghost predicate Claims(s: Sys, pid: nat, p: Proc, r: Proc) {
    && (forall a | a in Held(r) :: a in Held(p) || FreeAccount(s, pid, a))
    && (forall t | t in TxnsOf(r) :: t in TxnsOf(p) || t >= s.nextTxn)
    && (forall b | b in BatchesOf(r) :: b in BatchesOf(p) || b >= s.nextBatch)
    && (Claimed(r).Some? ==> Claimed(r) == Claimed(p) || FreeKey(s, pid, Claimed(r).value))
  }

  lemma StaysApart(cfg: Config, init: Db, s: Sys, pid: nat, r: Proc)
    requires Inv(cfg, init, s) && pid in s.procs && Claims(s, pid, s.procs[pid], r)
    ensures forall q | q in s.procs && q != pid :: Apart(r, s.procs[q])
  {
    var p := s.procs[pid];
    forall q | q in s.procs && q != pid ensures Apart(r, s.procs[q]) {
      var o := s.procs[q];
      assert Apart(p, o) && IdsOk(s.db, s.nextTxn, s.nextBatch, o);
      forall a ensures a !in Held(r) || a !in Held(o) {}
      forall x ensures x !in TxnsOf(r) || x !in TxnsOf(o) {}
      forall x ensures x !in BatchesOf(r) || x !in BatchesOf(o) {}
    }
  }

  lemma Moved(cfg: Config, init: Db, s: Sys, pid: nat, r: Proc, nextTxn: int, nextBatch: int)
    requires Inv(cfg, init, s) && pid in s.procs && Claims(s, pid, s.procs[pid], r)
    requires nextTxn >= s.nextTxn && nextBatch >= s.nextBatch
    requires ProcOk(cfg, s.db, r) && IdsOk(s.db, nextTxn, nextBatch, r)
    ensures Inv(cfg, init, With(s.(nextTxn := nextTxn, nextBatch := nextBatch), pid, r))
  {
    StaysApart(cfg, init, s, pid, r);
    LocalStep(cfg, init, s, With(s.(nextTxn := nextTxn, nextBatch := nextBatch), pid, r), pid);
  }

  lemma Failing(cfg: Config, init: Db, s: Sys, pid: nat, e: LedgerError)
    requires Inv(cfg, init, s) && pid in s.procs
    ensures Inv(cfg, init, Fail(s, pid, e))
  {
    Moved(cfg, init, s, pid, Ended(Failed(e)), s.nextTxn, s.nextBatch);
  }
}
