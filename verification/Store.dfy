/** The retry loop around a transaction (internal/store/store.go) and the operations that use
    it (internal/ops/ops.go, internal/ops/fx.go), on a database nobody else writes meanwhile;
    module Serializability removes that restriction. */
module Store {
  import opened Wrappers
  import opened Int64
  import opened Money
  import opened FxRate
  import opened Ledger
  import opened Database
  import opened Posting
  import opened Settlement
  import opened Serial
  import opened Evolution
  import opened Balances
  import opened Acceptance
  import opened Coverage
  import opened SettlementLoops
  import opened Session
  import Machine

  /** The function handed to runInTx. */
  datatype Work = PostWork(key: string, req: Request, job: Job) | SettleWork

  datatype Answer = PostAnswer(post: PostResult) | SettleAnswer(settlement: SettlementResult)

  /** What the server does to one attempt beyond running its statements. */
  datatype Fate =
    | Clean
    | Conflict
    | Broken
    | CommitConflict
    | CommitLost(applied: bool)

  predicate Retryable(f: Fate) { f.Conflict? || f.CommitConflict? }

  function FateAt(fates: seq<Fate>, i: nat): Fate { if i < |fates| then fates[i] else Clean }

  ghost predicate Runnable(cfg: Config, db: Db, work: Work) {
    work.PostWork? ==> Build(cfg, db, work.req) == Ok(work.job) && KeyAllowed(work.req, work.key)
  }

  /** The operation an answered attempt commits. */
  function OpFor(db: Db, work: Work, a: Answer): Op {
    match (work, a)
    case (PostWork(key, req, _), PostAnswer(res)) => PostedAs(key, req, res)
    case (_, SettleAnswer(res)) => SettleOp(Merchants(AllPendings(db)), res.batch, res.payoutTxns)
    case (SettleWork, PostAnswer(res)) => ReplayOp("", JournalReq([]), res.txn)
  }

  predicate Fits(work: Work, a: Answer) { work.PostWork? <==> a.PostAnswer? }

  /** No operation this work could commit succeeds. */
  ghost predicate Refused(cfg: Config, db: Db, work: Work) {
    match work
    case PostWork(key, req, _) =>
      && (forall t: int | t !in Ids(db.journal) :: Apply(cfg, db, PostOp(key, req, t)).Err?)
      && forall t: int :: Apply(cfg, db, ReplayOp(key, req, t)).Err?
    case SettleWork => NoBatch(cfg, db, Merchants(AllPendings(db)))
  }

  predicate Below(db: Db, nextTxn: int, nextBatch: int) {
    (forall t | t in Ids(db.journal) :: t < nextTxn) && (forall b | b in db.batches :: b < nextBatch)
  }

  lemma KeyedRefused(cfg: Config, db: Db, key: string, req: Request, job: Job, txn: int)
    requires Build(cfg, db, req) == Ok(job) && KeyAllowed(req, key) && GoodDb(db)
    requires txn !in Ids(db.journal) && KeyedPost(db, key, req, job, txn).Err?
    ensures Refused(cfg, db, PostWork(key, req, job))
  {}

  lemma BelowPost(db: Db, after: Db, row: TxnRow, nextTxn: int, nextBatch: int)
    requires Below(db, nextTxn, nextBatch) && row.id == nextTxn
    requires after.journal == db.journal + [row] && after.batches == db.batches
    ensures Below(after, nextTxn + 1, nextBatch)
  {
    forall t | t in Ids(after.journal) ensures t < nextTxn + 1 {
      var i :| 0 <= i < |after.journal| && after.journal[i].id == t;
      if i < |db.journal| { assert db.journal[i].id in Ids(db.journal); }
    }
  }

  lemma BelowSettle(cfg: Config, db: Db, merchants: set<int>, batch: int, txns: seq<int>, nextTxn: int, nextBatch: int)
    requires GoodDb(db) && Apply(cfg, db, SettleOp(merchants, batch, txns)).Ok?
    requires Below(db, nextTxn, nextBatch) && batch < nextBatch && forall t | t in txns :: t < nextTxn
    ensures Below(Apply(cfg, db, SettleOp(merchants, batch, txns)).value, nextTxn, nextBatch)
  {
    var b := SettleParts(cfg, db, merchants, batch, txns);
    RowIdsBelow(db.accounts, b, txns, LockSet(merchants, PayoutMap(cfg, CurrenciesOf(db.accounts, merchants))),
                nextTxn);
    var pends := Pendings(db.journal, merchants);
    BelowSettled(db, b, PendIds(pends), |pends|, NetsOf(db.journal, pends), batch, nextTxn, nextBatch);
  }

  lemma RowIdsBelow(accounts: map<int, Account>, b: Batching, txns: seq<int>, locked: set<int>, nextTxn: int)
    requires BatchingOk(accounts, b, txns, locked) && |b.rows| == |txns| && forall t | t in txns :: t < nextTxn
    ensures forall i | 0 <= i < |b.rows| :: b.rows[i].id < nextTxn
  {
    forall i | 0 <= i < |b.rows| ensures b.rows[i].id < nextTxn { assert IdAt(txns, i) in txns; }
  }

  lemma BelowSettled(db: Db, b: Batching, marked: set<int>, count: nat, nets: seq<Net>, batch: int, nextTxn: int,
                     nextBatch: int)
    requires Below(db, nextTxn, nextBatch) && batch < nextBatch
    requires forall i | 0 <= i < |b.rows| :: b.rows[i].id < nextTxn
    ensures Below(Settled(db, b, marked, count, nets, batch), nextTxn, nextBatch)
  {
    var j := Settled(db, b, marked, count, nets, batch).journal;
    forall t | t in Ids(j) ensures t < nextTxn {
      var i :| 0 <= i < |j| && j[i].id == t;
      if i < |db.journal| {
        assert db.journal[i].id in Ids(db.journal);
      } else {
        assert j[i] == b.rows[i - |db.journal|];
      }
    }
  }

  /** The statements of one attempt. */
  method RunBody(conn: Connection, work: Work) returns (r: Result<Answer, LedgerError>)
    requires GoodDb(conn.View()) && Below(conn.View(), conn.nextTxn, conn.nextBatch)
    requires Runnable(conn.cfg, conn.View(), work)
    modifies conn
    ensures conn.nextTxn >= old(conn.nextTxn) && conn.nextBatch >= old(conn.nextBatch)
    ensures r.Ok? ==>
      && Fits(work, r.value)
      && Apply(conn.cfg, old(conn.View()), OpFor(old(conn.View()), work, r.value)) == Ok(conn.View())
      && Below(conn.View(), conn.nextTxn, conn.nextBatch)
    ensures r.Err? ==> Refused(conn.cfg, old(conn.View()), work)
  {
    match work
    case PostWork(key, req, job) =>
      r := RunPost(conn, key, req, job);
    case SettleWork =>
      r := RunSettle(conn);
  }

  method RunPost(conn: Connection, key: string, req: Request, job: Job) returns (r: Result<Answer, LedgerError>)
    requires GoodDb(conn.View()) && Below(conn.View(), conn.nextTxn, conn.nextBatch)
    requires Build(conn.cfg, conn.View(), req) == Ok(job) && KeyAllowed(req, key)
    modifies conn
    ensures conn.nextTxn >= old(conn.nextTxn) && conn.nextBatch >= old(conn.nextBatch)
    ensures r.Ok? ==>
      && r.value.PostAnswer?
      && Apply(conn.cfg, old(conn.View()), PostedAs(key, req, r.value.post)) == Ok(conn.View())
      && Below(conn.View(), conn.nextTxn, conn.nextBatch)
    ensures r.Err? ==> Refused(conn.cfg, old(conn.View()), PostWork(key, req, job))
  {
    ghost var db, txn := conn.View(), conn.nextTxn;
    KeyedPostIsOp(conn.cfg, db, key, req, job, txn);
    var posted := conn.PostKeyed(key, req, job);
    if posted.Err? {
      KeyedRefused(conn.cfg, db, key, req, job, txn);
      return Err(posted.error);
    }
    if !posted.value.replayed {
      BelowPost(db, conn.View(), RowOf(job.entry, txn), txn, conn.nextBatch);
    }
    r := Ok(PostAnswer(posted.value));
  }

  method RunSettle(conn: Connection) returns (r: Result<Answer, LedgerError>)
    requires GoodDb(conn.View()) && Below(conn.View(), conn.nextTxn, conn.nextBatch)
    modifies conn
    ensures conn.nextTxn >= old(conn.nextTxn) && conn.nextBatch >= old(conn.nextBatch)
    ensures r.Ok? ==>
      && r.value.SettleAnswer?
      && Apply(conn.cfg, old(conn.View()), OpFor(old(conn.View()), SettleWork, r.value)) == Ok(conn.View())
      && Below(conn.View(), conn.nextTxn, conn.nextBatch)
    ensures r.Err? ==> Refused(conn.cfg, old(conn.View()), SettleWork)
  {
    ghost var db := conn.View();
    var done := conn.RunSettlement();
    if done.Err? {
      return Err(done.error);
    }
    BelowSettle(conn.cfg, db, Merchants(AllPendings(db)), done.value.batch, done.value.payoutTxns,
                conn.nextTxn, conn.nextBatch);
    r := Ok(SettleAnswer(done.value));
  }

  /** An operation this work may commit. */
  predicate IsOpOf(db: Db, work: Work, op: Op) {
    match work
    case PostWork(key, req, _) => (op.PostOp? || op.ReplayOp?) && op.key == key && op.req == req
    case SettleWork => op.SettleOp? && op.merchants == Merchants(AllPendings(db))
  }

  /** What an attempt that is not retried has answered, and `op` the operation it committed, if
      any. A conflict is never answered, and one at the commit only where the work is refused. */
  ghost predicate Answered(cfg: Config, before: Db, after: Db, work: Work, r: Result<Answer, LedgerError>,
                           op: Option<Op>, fate: Fate)
  {
    && (op.None? ==> after == before)
    && (op.Some? ==> IsOpOf(before, work, op.value) && Apply(cfg, before, op.value) == Ok(after))
    && match fate
       case Clean =>
         if r.Ok? then Fits(work, r.value) && op == Some(OpFor(before, work, r.value))
         else op.None? && Refused(cfg, before, work)
       case Conflict => false
       case Broken => r == Err(Transient) && op.None?
       case CommitConflict => r.Err? && op.None? && Refused(cfg, before, work)
       case CommitLost(applied) =>
         && r.Err?
         && if op.Some? then applied && r.error == Lost
            else Refused(cfg, before, work) || (!applied && r.error == Lost)
  }

  /** What a call of runInTx has done: every attempt but the last ended in a retryable error, and
      the last one answered, unless it was the 25th and retryable, too. */
  ghost predicate Ran(cfg: Config, before: Db, after: Db, work: Work, r: Result<Answer, LedgerError>, op: Option<Op>,
                      fates: seq<Fate>, attempts: nat)
  {
    && 1 <= attempts <= 25 && (forall i | 0 <= i < attempts - 1 :: Retryable(FateAt(fates, i)))
    && (|| Answered(cfg, before, after, work, r, op, FateAt(fates, attempts - 1))
        || (attempts == 25 && Retryable(FateAt(fates, 24)) && r == Err(Transient) && op.None? && after == before))
  }

  /** Attempts are retried for as long as there are any: after retryable errors only, a healthy
      attempt among the first 25 succeeds, unless the work is refused. */
  lemma HealthySucceeds(cfg: Config, before: Db, after: Db, work: Work, r: Result<Answer, LedgerError>, op: Option<Op>,
                        fates: seq<Fate>, attempts: nat, k: nat)
    requires Ran(cfg, before, after, work, r, op, fates, attempts) && !Refused(cfg, before, work)
    requires k < 25 && FateAt(fates, k).Clean? && forall i | 0 <= i < k :: Retryable(FateAt(fates, i))
    ensures attempts == k + 1 && r.Ok?
  {}

  /** The sender pays the desk in one currency; the desk pays the receiver in the other. */
  method ConversionLegs(from: int, deskIn: int, amount: Minor, c: Currency, deskOut: int,
                        to: int, out: Minor, d: Currency)
    returns (legs: seq<Leg>)
    requires amount > 0 && out > 0
    ensures legs == Pair(from, deskIn, amount, c) + Pair(deskOut, to, out, d) && Balanced(legs)
  {
    legs := [Leg(from, c, 0 - amount), Leg(deskIn, c, amount), Leg(deskOut, d, 0 - out), Leg(to, d, out)];
    FourLegs(legs);
  }

  /** A balanced entry that takes an amount of a currency from one account, gives it to another,
      and touches nobody else. */
  ghost predicate MovesExactly(legs: seq<Leg>, from: int, to: int, amount: int, c: Currency) {
    && Balanced(legs) && Accounts(legs) == {from, to} && (forall i | 0 <= i < |legs| :: legs[i].currency == c)
    && forall a :: AccountSum(legs, a) == (if a == to then amount else 0) - (if a == from then amount else 0)
  }

  lemma PairMoves(from: int, to: int, amount: Minor, c: Currency)
    requires amount > 0
    ensures MovesExactly(Pair(from, to, amount, c), from, to, amount, c)
  {
    var legs := Pair(from, to, amount, c);
    PairSums(legs[0], legs[1]);
    PairVanishes(legs);
  }

  class Store {
    const cfg: Config
    var db: Db
    var nextTxn: int
    var nextBatch: int

    constructor (cfg: Config, db: Db, nextTxn: int, nextBatch: int)
      ensures this.cfg == cfg && this.db == db && this.nextTxn == nextTxn && this.nextBatch == nextBatch
    {
      this.cfg, this.db, this.nextTxn, this.nextBatch := cfg, db, nextTxn, nextBatch;
    }

    ghost predicate Valid()
      reads this
    {
      GoodDb(db) && Below(db, nextTxn, nextBatch)
    }

    /** One attempt on a fresh transaction: an answer, or None if it is to be retried. */
    method Attempt(work: Work, fate: Fate) returns (r: Option<Result<Answer, LedgerError>>, ghost op: Option<Op>)
      requires Valid() && Runnable(cfg, db, work)
      modifies this
      ensures Valid()
      ensures r.None? ==> Retryable(fate) && db == old(db)
      ensures r.Some? ==> Answered(cfg, old(db), db, work, r.value, op, fate)
    {
      op := None;
      var conn := new Connection(cfg, db, nextTxn, nextBatch);
      var answer := RunBody(conn, work);
      nextTxn, nextBatch := conn.nextTxn, conn.nextBatch;
      if fate.Conflict? {
        return None, op;
      }
      if fate.Broken? {
        return Some(Err(Transient)), op;
      }
      if answer.Err? {
        return Some(Err(answer.error)), op;
      }
      if fate.CommitConflict? {
        return None, op;
      }
      if fate == CommitLost(false) {
        return Some(Err(Lost)), op;
      }
      op := Some(OpFor(db, work, answer.value));
      ApplyKeepsGood(cfg, db, op.value);
      db := conn.View();
      r := Some(if fate.CommitLost? then Err(Lost) else Ok(answer.value));
    }

    /** runInTx: a retryable error is retried up to 25 attempts, of which at most one commits; a
        failed attempt leaves nothing behind but used-up sequence numbers. */
    method RunInTx(work: Work, fates: seq<Fate>)
      returns (r: Result<Answer, LedgerError>, attempts: nat, ghost op: Option<Op>)
      requires Valid() && Runnable(cfg, db, work)
      modifies this
      ensures Valid()
      ensures Ran(cfg, old(db), db, work, r, op, fates, attempts)
    {
      attempts, op := 0, None;
      while attempts < Machine.MAX_RETRIES
        invariant attempts <= Machine.MAX_RETRIES
        invariant Valid() && db == old(db)
        invariant forall i | 0 <= i < attempts :: Retryable(FateAt(fates, i))
      {
        var fate := FateAt(fates, attempts);
        attempts := attempts + 1;
        var answer;
        answer, op := Attempt(work, fate);
        if answer.Some? {
          r := answer.value;
          return;
        }
      }
      r, op := Err(Transient), None;
    }

    // ----- the operations -----

    method Transfer(from: int, to: int, amount: Minor, c: Currency) returns (r: Result<Job, LedgerError>)
      ensures r == Build(cfg, db, TransferReq(from, to, amount, c))
      ensures r.Ok? <==> amount > 0 && from != to
      ensures r.Ok? ==> MovesExactly(r.value.entry.legs, from, to, amount, c)
    {
      if amount <= 0 {
        return Err(NonPositive);
      }
      if from == to {
        return Err(SameAccount);
      }
      var legs := [Leg(from, c, 0 - amount), Leg(to, c, amount)];
      PairMoves(from, to, amount, c);
      return Ok(Job(Entry(TxnKind.Transfer, None, legs, false), None));
    }

    method Payment(source: int, merchant: int, amount: Minor, c: Currency) returns (r: Result<Job, LedgerError>)
      ensures r == Build(cfg, db, PaymentReq(source, merchant, amount, c))
      ensures r.Ok? <==> amount > 0
      ensures r.Ok? ==> MovesExactly(r.value.entry.legs, source, merchant, amount, c)
    {
      if amount <= 0 {
        return Err(NonPositive);
      }
      var legs := [Leg(source, c, 0 - amount), Leg(merchant, c, amount)];
      PairMoves(source, merchant, amount, c);
      return Ok(Job(Entry(TxnKind.Payment, None, legs, true), None));
    }

    method Refund(payment: int, amount: Minor) returns (r: Result<Job, LedgerError>)
      ensures r == Build(cfg, db, RefundReq(payment, amount))
      ensures r.Ok? && GoodDb(db) ==> forall id: int :: ReversesPayment(db.journal, RowOf(r.value.entry, id))
      ensures GoodDb(db) ==> (r.Ok? <==> amount > 0 && IsRecorded(db.journal, payment))
    {
      if GoodDb(db) { RefundBuildable(cfg, db, payment, amount); }
      if amount <= 0 {
        return Err(NonPositive);
      }
      var pl :- GetPaymentLegs(db, payment);
      var legs := [Leg(pl.merchant, pl.currency, 0 - amount), Leg(pl.source, pl.currency, amount)];
      var guard := Guard(payment, pl.merchant, pl.captured, amount);
      if GoodDb(db) { BuildShape(cfg, db, RefundReq(payment, amount)); }
      return Ok(Job(Entry(TxnKind.Refund, Some(payment), legs, false), Some(guard)));
    }

    method ConvertFx(from: int, to: int, amount: Minor, rate: Rate) returns (r: Result<Job, LedgerError>)
      ensures r == Build(cfg, db, FxReq(from, to, amount, rate))
      ensures r.Ok? <==> CanConvert(cfg, db, from, to, amount, rate)
      ensures r.Ok? ==> Balanced(r.value.entry.legs)
                        && r.value.entry.legs == ConversionOf(cfg, db, from, to, amount, rate)
    {
      ConversionBuilt(cfg, db, from, to, amount, rate);
      if amount <= 0 {
        return Err(NonPositive);
      }
      if from !in db.accounts || to !in db.accounts {
        return Err(AccountNotFound);
      }
      var c, d := db.accounts[from].currency, db.accounts[to].currency;
      if c == d {
        return Err(SameCurrency);
      }
      var converted := Convert(rate, amount);
      if converted.Err? {
        return Err(LedgerError.BadRate);
      }
      var out := converted.value;
      if out <= 0 {
        return Err(NonPositive);
      }
      if c !in cfg.fxDesk || d !in cfg.fxDesk {
        return Err(AccountNotFound);
      }
      var legs := ConversionLegs(from, cfg.fxDesk[c], amount, c, cfg.fxDesk[d], to, out, d);
      return Ok(Job(Entry(TxnKind.Fx, None, legs, false), None));
    }

    method BuildJob(req: Request) returns (r: Result<Job, LedgerError>)
      ensures r == Build(cfg, db, req)
    {
      match req
      case TransferReq(from, to, amount, c) => r := Transfer(from, to, amount, c);
      case PaymentReq(source, merchant, amount, c) => r := Payment(source, merchant, amount, c);
      case RefundReq(payment, amount) => r := Refund(payment, amount);
      case FxReq(from, to, amount, rate) => r := ConvertFx(from, to, amount, rate);
      case JournalReq(legs) => r := Ok(Job(Entry(TxnKind.Transfer, None, legs, false), None));
    }

    /** A request from its arguments to its answer. */
    method Submit(key: string, req: Request, fates: seq<Fate>)
      returns (r: Result<PostResult, LedgerError>, attempts: nat, ghost op: Option<Op>)
      requires Valid()
      modifies this
      ensures Valid()
      ensures var job := Build(cfg, old(db), req);
              if job.Err? then r == Err(job.error) && op.None? && db == old(db)
              else if req.RefundReq? && key == "" then r == Err(KeyRequired) && op.None? && db == old(db)
              else Ran(cfg, old(db), db, PostWork(key, req, job.value),
                       if r.Ok? then Ok(PostAnswer(r.value)) else Err(r.error), op, fates, attempts)
    {
      attempts, op := 0, None;
      var job := BuildJob(req);
      if job.Err? {
        r := Err(job.error);
        return;
      }
      if !KeyAllowed(req, key) {
        r := Err(KeyRequired);
        return;
      }
      var answer;
      answer, attempts, op := RunInTx(PostWork(key, req, job.value), fates);
      r := if answer.Ok? then Ok(answer.value.post) else Err(answer.error);
    }

    method Settle(fates: seq<Fate>)
      returns (r: Result<SettlementResult, LedgerError>, attempts: nat, ghost op: Option<Op>)
      requires Valid()
      modifies this
      ensures Valid()
      ensures Ran(cfg, old(db), db, SettleWork, if r.Ok? then Ok(SettleAnswer(r.value)) else Err(r.error), op,
                  fates, attempts)
      ensures r.Ok? ==> AllSettled(old(db).journal, db.journal, r.value.batch)
    {
      var answer;
      ghost var before := db;
      answer, attempts, op := RunInTx(SettleWork, fates);
      if answer.Ok? {
        CandidatesSettled(cfg, before, answer.value.settlement.batch, answer.value.settlement.payoutTxns);
      }
      r := if answer.Ok? then Ok(answer.value.settlement) else Err(answer.error);
    }
  }
}
