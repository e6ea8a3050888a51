/** Settlement pays each payment exactly once: its captured amount less the refunds committed
    before its batch. */
module PaidOnce {
  import opened Wrappers
  import opened Int64
  import opened Money
  import opened Ledger
  import opened Database
  import opened Posting
  import opened Settlement
  import opened Serial
  import opened Evolution
  import opened Balances
  import opened Refunds

  // ---------- each payment is in at most one batch ----------

  function SettledIds(journal: seq<TxnRow>): set<int> {
    set i | 0 <= i < |journal| && journal[i].settled :: journal[i].id
  }

  /** The payments an operation settles when it runs on `db`. */
  function Settles(db: Db, op: Op): set<int> {
    if op.SettleOp? then PendIds(Pendings(db.journal, op.merchants)) else {}
  }

  lemma PostSettlesNothing(cfg: Config, db: Db, key: string, req: Request, txn: int)
    requires Apply(cfg, db, PostOp(key, req, txn)).Ok?
    ensures SettledIds(Apply(cfg, db, PostOp(key, req, txn)).value.journal) == SettledIds(db.journal)
  {
    var j := Apply(cfg, db, PostOp(key, req, txn)).value.journal;
    assert forall i | 0 <= i < |db.journal| :: j[i] == db.journal[i];
    assert !j[|db.journal|].settled;
    forall x ensures x in SettledIds(j) <==> x in SettledIds(db.journal) {
      if x in SettledIds(db.journal) {
        var i :| 0 <= i < |db.journal| && db.journal[i].settled && db.journal[i].id == x;
        assert j[i].settled;
      }
    }
  }

  lemma BatchSettles(db: Db, after: Db, b: Batching, merchants: set<int>, batch: int)
    requires GoodDb(db) && BatchEffect(db, after, b, PendIds(Pendings(db.journal, merchants)), batch)
    requires forall i | 0 <= i < |b.rows| :: !b.rows[i].settled
    ensures SettledIds(after.journal) == SettledIds(db.journal) + PendIds(Pendings(db.journal, merchants))
    ensures PendIds(Pendings(db.journal, merchants)) !! SettledIds(db.journal)
  {
    var j, marked := after.journal, PendIds(Pendings(db.journal, merchants));
    forall i | 0 <= i < |j|
      ensures j[i].settled <==> i < |db.journal| && (db.journal[i].settled || db.journal[i].id in marked)
      ensures i < |db.journal| ==> j[i].id == db.journal[i].id && !(db.journal[i].settled && db.journal[i].id in marked)
    {
      if i < |db.journal| {
        MarkedIff(db, merchants, i);
        assert j[i] == MarkRow(db.journal[i], marked, batch);
      } else {
        assert j[i] == b.rows[i - |db.journal|];
      }
    }
    forall x | x in marked ensures x in SettledIds(j) {
      var i := MarkedIndex(db, merchants, x);
      assert j[i].settled;
    }
    forall x | x in SettledIds(db.journal) ensures x in SettledIds(j) && x !in marked {
      var i :| 0 <= i < |db.journal| && db.journal[i].settled && db.journal[i].id == x;
      assert j[i].settled;
    }
  }

  lemma MarkedIndex(db: Db, merchants: set<int>, x: int) returns (i: nat)
    requires GoodDb(db) && x in PendIds(Pendings(db.journal, merchants))
    ensures i < |db.journal| && db.journal[i].id == x
  {
    var ps := Pendings(db.journal, merchants);
    var k :| 0 <= k < |ps| && ps[k].id == x;
    i := PendingsSource(db.accounts, db.journal, db.journal, merchants, k);
  }

  /** An operation settles only unsettled payments, and nothing is ever unsettled again. */
  lemma ApplySettles(cfg: Config, db: Db, op: Op)
    requires GoodDb(db) && Apply(cfg, db, op).Ok?
    ensures SettledIds(Apply(cfg, db, op).value.journal) == SettledIds(db.journal) + Settles(db, op)
    ensures Settles(db, op) !! SettledIds(db.journal)
  {
    match op
    case PostOp(key, req, txn) => PostSettlesNothing(cfg, db, key, req, txn);
    case ReplayOp(_, _, _) =>
    case SettleOp(merchants, batch, txns) =>
      var b := SettleParts(cfg, db, merchants, batch, txns);
      BatchSettles(db, Apply(cfg, db, op).value, b, merchants, batch);
  }

  /** The payments settled by the operation at position i of a log. */
  function BatchIds(cfg: Config, init: Db, log: seq<Op>, i: nat): set<int>
    requires i < |log| && Run(cfg, init, log[..i]).Ok?
  {
    Settles(Run(cfg, init, log[..i]).value, log[i])
  }

  /** Once settled, settled for the rest of the run. */
  lemma {:induction false} BatchStaysSettled(cfg: Config, init: Db, log: seq<Op>, i: nat)
    requires InitDb(init) && Run(cfg, init, log).Ok? && i < |log|
    ensures Run(cfg, init, log[..i]).Ok?
    ensures BatchIds(cfg, init, log, i) <= SettledIds(Run(cfg, init, log).value.journal)
    decreases |log|
  {
    RunPrefix(cfg, init, log, i);
    RunKeepsGood(cfg, init, Front(log));
    ApplySettles(cfg, Run(cfg, init, Front(log)).value, Last(log));
    if i < |log| - 1 {
      BatchStaysSettled(cfg, init, Front(log), i);
      assert Front(log)[..i] == log[..i] && Front(log)[i] == log[i];
    } else {
      assert log[..i] == Front(log);
    }
  }

  lemma NextApplies(cfg: Config, init: Db, log: seq<Op>, j: nat)
    requires Run(cfg, init, log).Ok? && j < |log|
    ensures Run(cfg, init, log[..j]).Ok? && Apply(cfg, Run(cfg, init, log[..j]).value, log[j]).Ok?
  {
    RunPrefix(cfg, init, log, j + 1);
    assert Front(log[..j + 1]) == log[..j] && Last(log[..j + 1]) == log[j];
  }

  lemma EarlierBatch(cfg: Config, init: Db, log: seq<Op>, i: nat, j: nat)
    requires i < j <= |log| && Run(cfg, init, log[..i]).Ok?
    ensures Run(cfg, init, log[..j][..i]).Ok? && BatchIds(cfg, init, log[..j], i) == BatchIds(cfg, init, log, i)
  {
    assert log[..j][..i] == log[..i] && log[..j][i] == log[i];
  }

  /** Each payment enters at most one batch. */
  lemma BatchesDisjoint(cfg: Config, init: Db, log: seq<Op>, i: nat, j: nat)
    requires InitDb(init) && Run(cfg, init, log).Ok? && i < j < |log|
    ensures Run(cfg, init, log[..i]).Ok? && Run(cfg, init, log[..j]).Ok?
    ensures BatchIds(cfg, init, log, i) !! BatchIds(cfg, init, log, j)
  {
    RunPrefix(cfg, init, log, i);
    NextApplies(cfg, init, log, j);
    RunKeepsGood(cfg, init, log[..j]);
    EarlierBatch(cfg, init, log, i, j);
    BatchStaysSettled(cfg, init, log[..j], i);
    ApplySettles(cfg, Run(cfg, init, log[..j]).value, log[j]);
  }

  predicate Batched(cfg: Config, init: Db, log: seq<Op>, i: int, x: int) {
    0 <= i < |log| && Run(cfg, init, log[..i]).Ok? && x in BatchIds(cfg, init, log, i)
  }

  ghost predicate InSomeBatch(cfg: Config, init: Db, log: seq<Op>, x: int) {
    exists i :: Batched(cfg, init, log, i, x)
  }

  lemma SameBatch(cfg: Config, init: Db, log: seq<Op>, i: int, x: int)
    requires log != []
    ensures 0 <= i < |log| - 1 ==> (Batched(cfg, init, Front(log), i, x) <==> Batched(cfg, init, log, i, x))
    ensures Run(cfg, init, Front(log)).Ok? ==>
      (Batched(cfg, init, log, |log| - 1, x) <==> x in Settles(Run(cfg, init, Front(log)).value, Last(log)))
  {
    if 0 <= i < |log| - 1 {
      assert Front(log)[..i] == log[..i] && Front(log)[i] == log[i];
    }
    assert log[..|log| - 1] == Front(log);
  }

  lemma BatchesSplit(cfg: Config, init: Db, log: seq<Op>, x: int)
    requires log != [] && Run(cfg, init, Front(log)).Ok?
    ensures InSomeBatch(cfg, init, log, x)
       <==> InSomeBatch(cfg, init, Front(log), x) || x in Settles(Run(cfg, init, Front(log)).value, Last(log))
  {
    forall i ensures 0 <= i < |log| - 1 ==> (Batched(cfg, init, Front(log), i, x) <==> Batched(cfg, init, log, i, x)) {
      SameBatch(cfg, init, log, i, x);
    }
    SameBatch(cfg, init, log, 0, x);
    if InSomeBatch(cfg, init, log, x) {
      var i :| Batched(cfg, init, log, i, x);
      assert i < |log| - 1 ==> Batched(cfg, init, Front(log), i, x);
    }
  }

  /** A payment is settled exactly when some batch of the log settled it. */
  lemma {:induction false} SettledIffBatched(cfg: Config, init: Db, log: seq<Op>, x: int)
    requires InitDb(init) && Run(cfg, init, log).Ok?
    ensures x in SettledIds(Run(cfg, init, log).value.journal) <==> InSomeBatch(cfg, init, log, x)
  {
    if log != [] {
      RunKeepsGood(cfg, init, Front(log));
      SettledIffBatched(cfg, init, Front(log), x);
      ApplySettles(cfg, Run(cfg, init, Front(log)).value, Last(log));
      BatchesSplit(cfg, init, log, x);
    }
  }

  lemma {:induction false} DistinctSize(ps: seq<Pend>)
    requires DistinctPends(ps)
    ensures |PendIds(ps)| == |ps|
  {
    if ps == [] {
      assert PendIds(ps) == {};
    } else {
      var n := |ps| - 1;
      DistinctSize(Front(ps));
      forall x ensures x in PendIds(ps) <==> x in PendIds(Front(ps)) + {ps[n].id} {
        if x in PendIds(Front(ps)) {
          var k :| 0 <= k < n && Front(ps)[k].id == x;
          assert ps[k].id == x;
        }
        if x in PendIds(ps) && x != ps[n].id {
          var k :| 0 <= k < |ps| && ps[k].id == x;
          assert Front(ps)[k].id == x;
        }
      }
      assert PendIds(ps) == PendIds(Front(ps)) + {ps[n].id};
      assert ps[n].id !in PendIds(Front(ps));
    }
  }

  /** The payments carrying a batch's id. */
  function Members(journal: seq<TxnRow>, batch: int): set<int> {
    set i | 0 <= i < |journal| && journal[i].batch == Some(batch) :: journal[i].id
  }

  /** Exactly the settled payments carry a batch, and each batch counts its payments. */
  predicate BatchesOk(db: Db) {
    && (forall i | 0 <= i < |db.journal| :: db.journal[i].settled <==> db.journal[i].batch.Some?)
    && (forall i | 0 <= i < |db.journal| && db.journal[i].batch.Some? :: db.journal[i].batch.value in db.batches)
    && (forall b | b in db.batches :: |Members(db.journal, b)| == db.batches[b].itemCount)
  }

  lemma PostKeepsBatches(cfg: Config, db: Db, key: string, req: Request, txn: int)
    requires BatchesOk(db) && Apply(cfg, db, PostOp(key, req, txn)).Ok?
    ensures BatchesOk(Apply(cfg, db, PostOp(key, req, txn)).value)
  {
    var after := Apply(cfg, db, PostOp(key, req, txn)).value;
    forall b | b in after.batches ensures |Members(after.journal, b)| == after.batches[b].itemCount {
      SameMembers(db.journal, after.journal, b);
    }
  }

  lemma SameMembers(x: seq<TxnRow>, y: seq<TxnRow>, b: int)
    requires |x| <= |y|
    requires forall i | 0 <= i < |x| :: x[i].id == y[i].id && (x[i].batch == Some(b) <==> y[i].batch == Some(b))
    requires forall i | |x| <= i < |y| :: y[i].batch != Some(b)
    ensures Members(y, b) == Members(x, b)
  {
    forall id | id in Members(x, b) ensures id in Members(y, b) {
      var i :| 0 <= i < |x| && x[i].batch == Some(b) && x[i].id == id;
      assert y[i].batch == Some(b);
    }
    forall id | id in Members(y, b) ensures id in Members(x, b) {
      var i :| 0 <= i < |y| && y[i].batch == Some(b) && y[i].id == id;
      assert x[i].batch == Some(b);
    }
  }

  lemma NewMembers(db: Db, y: seq<TxnRow>, merchants: set<int>, batch: int)
    requires GoodDb(db) && |db.journal| <= |y|
    requires forall i | 0 <= i < |db.journal| ::
      y[i] == MarkRow(db.journal[i], PendIds(Pendings(db.journal, merchants)), batch)
      && db.journal[i].batch != Some(batch)
    requires forall i | |db.journal| <= i < |y| :: y[i].batch != Some(batch)
    ensures Members(y, batch) == PendIds(Pendings(db.journal, merchants))
  {
    var marked := PendIds(Pendings(db.journal, merchants));
    forall id | id in marked ensures id in Members(y, batch) {
      var i := MarkedIndex(db, merchants, id);
      assert y[i].batch == Some(batch);
    }
  }

  lemma BatchKeepsBatches(db: Db, after: Db, b: Batching, merchants: set<int>, batch: int)
    requires GoodDb(db) && BatchesOk(db) && batch !in db.batches
    requires BatchEffect(db, after, b, PendIds(Pendings(db.journal, merchants)), batch)
    requires forall i | 0 <= i < |b.rows| :: !b.rows[i].settled && b.rows[i].batch.None?
    requires after.batches.Keys == db.batches.Keys + {batch}
    requires forall k | k in db.batches :: after.batches[k] == db.batches[k]
    requires after.batches[batch].itemCount == |PendIds(Pendings(db.journal, merchants))|
    ensures BatchesOk(after)
  {
    var marked := PendIds(Pendings(db.journal, merchants));
    forall i | 0 <= i < |after.journal|
      ensures i < |db.journal| ==> after.journal[i] == MarkRow(db.journal[i], marked, batch)
                                   && !(db.journal[i].settled && db.journal[i].id in marked)
      ensures i >= |db.journal| ==> !after.journal[i].settled && after.journal[i].batch.None?
    {
      if i < |db.journal| { MarkedIff(db, merchants, i); } else { assert after.journal[i] == b.rows[i - |db.journal|]; }
    }
    NewMembers(db, after.journal, merchants, batch);
    forall k | k in db.batches ensures Members(after.journal, k) == Members(db.journal, k) {
      SameMembers(db.journal, after.journal, k);
    }
  }

  lemma SettleKeepsBatches(cfg: Config, db: Db, merchants: set<int>, batch: int, txns: seq<int>)
    requires GoodDb(db) && BatchesOk(db) && Apply(cfg, db, SettleOp(merchants, batch, txns)).Ok?
    ensures BatchesOk(Apply(cfg, db, SettleOp(merchants, batch, txns)).value)
  {
    var b := SettleParts(cfg, db, merchants, batch, txns);
    PendingsDistinct(db.accounts, db.journal, db.journal, merchants);
    DistinctSize(Pendings(db.journal, merchants));
    BatchKeepsBatches(db, Apply(cfg, db, SettleOp(merchants, batch, txns)).value, b, merchants, batch);
  }

  /** After every run, exactly the settled payments carry a batch, and each batch's item count
      is the number of payments that carry it. */
  lemma {:induction false} RunBatchesOk(cfg: Config, init: Db, log: seq<Op>)
    requires InitDb(init) && Run(cfg, init, log).Ok?
    ensures BatchesOk(Run(cfg, init, log).value)
  {
    if log != [] {
      RunBatchesOk(cfg, init, Front(log));
      RunKeepsGood(cfg, init, Front(log));
      var db := Run(cfg, init, Front(log)).value;
      match Last(log)
      case PostOp(key, req, txn) => PostKeepsBatches(cfg, db, key, req, txn);
      case ReplayOp(_, _, _) =>
      case SettleOp(merchants, batch, txns) => SettleKeepsBatches(cfg, db, merchants, batch, txns);
    }
  }

  lemma SettledTotal(cfg: Config, db: Db, merchants: set<int>, batch: int, txns: seq<int>, after: Db)
    returns (b: Batching)
    requires GoodDb(db) && Settle(cfg, db, merchants, batch, txns) == Ok(after)
    ensures after.journal == Mark(db.journal, PendIds(Pendings(db.journal, merchants)), batch) + b.rows
    ensures batch in after.batches && after.batches[batch].netTotal == Wrap(TakenOut(b.rows))
  {
    b := SettleParts(cfg, db, merchants, batch, txns);
    PayAllTotal(db.accounts, PayoutMap(cfg, CurrenciesOf(db.accounts, merchants)),
                NetsOf(db.journal, Pendings(db.journal, merchants)), txns);
  }

  /** The total a batch records is what its payouts took out, in an int64. */
  lemma BatchTotal(cfg: Config, db: Db, merchants: set<int>, batch: int, txns: seq<int>) returns (b: Batching)
    requires GoodDb(db) && Apply(cfg, db, SettleOp(merchants, batch, txns)).Ok?
    ensures var after := Apply(cfg, db, SettleOp(merchants, batch, txns)).value;
            && after.journal == Mark(db.journal, PendIds(Pendings(db.journal, merchants)), batch) + b.rows
            && batch in after.batches && after.batches[batch].netTotal == Wrap(TakenOut(b.rows))
  {
    b := SettledTotal(cfg, db, merchants, batch, txns, Apply(cfg, db, SettleOp(merchants, batch, txns)).value);
  }

  // ---------- what each merchant is paid ----------

  /** What the pending payments of a merchant are worth when their batch runs. */
  function Worth(journal: seq<TxnRow>, pends: seq<Pend>, m: int): int {
    if pends == [] then 0
    else
      var p := Last(pends);
      Worth(journal, Front(pends), m) + (if p.merchant == m then Owed(journal, p) else 0)
  }

  /** Over a whole log: captured minus the refunds committed before the batch, summed over the
      payments of the merchant that each batch settled. */
  function SettledWorth(cfg: Config, init: Db, log: seq<Op>, m: int): int
    requires Run(cfg, init, log).Ok?
  {
    if log == [] then 0
    else
      var db := Run(cfg, init, Front(log)).value;
      SettledWorth(cfg, init, Front(log), m)
      + (if Last(log).SettleOp? then Worth(db.journal, Pendings(db.journal, Last(log).merchants), m) else 0)
  }

  lemma {:induction false} WorthIsGroup(journal: seq<TxnRow>, pends: seq<Pend>, m: int, c: Currency)
    requires forall k | 0 <= k < |pends| && pends[k].merchant == m :: pends[k].currency == c
    ensures Worth(journal, pends, m) == OwedBy(journal, pends, m, c)
  {
    if pends != [] {
      assert forall k | 0 <= k < |Front(pends)| :: Front(pends)[k] == pends[k];
      WorthIsGroup(journal, Front(pends), m, c);
    }
  }

  lemma {:induction false} NetForLast(nets: seq<Net>, m: int, c: Currency)
    requires nets != []
    ensures NetFor(nets, m, c) == NetFor(Front(nets), m, c) + (if IsFor(Last(nets), m, c) then Last(nets).net else 0)
  {
    if |nets| > 1 {
      NetForLast(nets[1..], m, c);
      assert Front(nets)[1..] == Front(nets[1..]) && Last(nets[1..]) == Last(nets);
    }
  }

  function Floor(x: int): nat { if x > 0 then x else 0 }

  lemma LastIsOnly(nets: seq<Net>, m: int, c: Currency)
    requires nets != [] && Grouped(nets) && Last(nets).merchant == m
    requires forall i | 0 <= i < |nets| && nets[i].merchant == m :: nets[i].currency == c
    ensures forall i | 0 <= i < |Front(nets)| :: Front(nets)[i].merchant != m
  {}

  /** A merchant of one currency has one net, and is paid it if it is positive. */
  lemma {:induction false} PaidIsNet(nets: seq<Net>, m: int, c: Currency)
    requires Grouped(nets)
    requires forall i | 0 <= i < |nets| && nets[i].merchant == m :: nets[i].currency == c
    ensures PaidNets(nets, m) == Floor(NetFor(nets, m, c))
  {
    if nets != [] {
      assert forall i | 0 <= i < |Front(nets)| :: Front(nets)[i] == nets[i];
      NetForLast(nets, m, c);
      if Last(nets).merchant == m {
        LastIsOnly(nets, m, c);
        NotPaid(Front(nets), m);
        NetForAbsent(Front(nets), m, c);
      } else {
        PaidIsNet(Front(nets), m, c);
      }
    }
  }

  lemma PendsHaveCurrency(db: Db, merchants: set<int>, m: int)
    requires GoodDb(db)
    ensures var pends := Pendings(db.journal, merchants);
            forall k | 0 <= k < |pends| && pends[k].merchant == m ::
              m in db.accounts && pends[k].currency == db.accounts[m].currency
  {
    var pends := Pendings(db.journal, merchants);
    forall k | 0 <= k < |pends| && pends[k].merchant == m
      ensures m in db.accounts && pends[k].currency == db.accounts[m].currency
    {
      var i := PendingsSource(db.accounts, db.journal, db.journal, merchants, k);
    }
  }

  /** The netting query's rows pay a merchant its worth, if that is positive. */
  lemma NetsPayDue(cfg: Config, db: Db, merchants: set<int>, m: int)
    requires GoodDb(db) && CurrenciesOf(db.accounts, merchants) <= cfg.payout.Keys
    ensures PaidNets(NetsOf(db.journal, Pendings(db.journal, merchants)), m)
         == Floor(Worth(db.journal, Pendings(db.journal, merchants), m))
  {
    var pends := Pendings(db.journal, merchants);
    var nets := NetsOf(db.journal, pends);
    var c := if m in db.accounts then db.accounts[m].currency else "";
    NetsCovered(cfg, db, merchants);
    NetsAreGroupSums(db.journal, pends, m, c);
    PaidIsNet(nets, m, c);
    PendsHaveCurrency(db, merchants, m);
    WorthIsGroup(db.journal, pends, m, c);
  }

  /** A batch pays a merchant the worth of the payments it settles, if that is positive. */
  lemma BatchPaysDue(cfg: Config, db: Db, merchants: set<int>, batch: int, txns: seq<int>, m: int) returns (b: Batching)
    requires GoodDb(db) && Apply(cfg, db, SettleOp(merchants, batch, txns)).Ok?
    ensures BatchEffect(db, Apply(cfg, db, SettleOp(merchants, batch, txns)).value, b,
                        PendIds(Pendings(db.journal, merchants)), batch)
    ensures PaidBy(b.rows, m) == Floor(Worth(db.journal, Pendings(db.journal, merchants), m))
    ensures PayAll(db.accounts, PayoutMap(cfg, CurrenciesOf(db.accounts, merchants)),
                   NetsOf(db.journal, Pendings(db.journal, merchants)), txns) == Ok(b)
    ensures CurrenciesOf(db.accounts, merchants) <= cfg.payout.Keys
  {
    b := SettleParts(cfg, db, merchants, batch, txns);
    NetsPayDue(cfg, db, merchants, m);
    PayAllSums(db.accounts, PayoutMap(cfg, CurrenciesOf(db.accounts, merchants)),
               NetsOf(db.journal, Pendings(db.journal, merchants)), txns, m);
  }

  lemma {:induction false} WorthNonNegative(journal: seq<TxnRow>, pends: seq<Pend>, m: int)
    requires AllOwed(journal, pends)
    ensures Worth(journal, pends, m) >= 0
  {
    if pends != [] {
      assert forall k | 0 <= k < |Front(pends)| :: Front(pends)[k] == pends[k];
      WorthNonNegative(journal, Front(pends), m);
    }
  }

  /** While refunds fit the int64 range, no merchant owes more than it captured. */
  lemma WorthCovered(db: Db, merchants: set<int>, m: int)
    requires GoodDb(db) && RefundsBounded(db.journal) && RefundsFit(db.journal)
    ensures Worth(db.journal, Pendings(db.journal, merchants), m) >= 0
  {
    PendsOwed(db, merchants);
    WorthNonNegative(db.journal, Pendings(db.journal, merchants), m);
  }

  lemma {:induction false} PaidByAppend(journal: seq<TxnRow>, rows: seq<TxnRow>, m: int)
    ensures PaidBy(journal + rows, m) == PaidBy(journal, m) + PaidBy(rows, m)
  {
    if rows == [] {
      assert journal + rows == journal;
    } else {
      assert Front(journal + rows) == journal + Front(rows) && Last(journal + rows) == Last(rows);
      PaidByAppend(journal, Front(rows), m);
    }
  }

  lemma {:induction false} PaidByMark(journal: seq<TxnRow>, ids: set<int>, batch: int, m: int)
    ensures PaidBy(Mark(journal, ids, batch), m) == PaidBy(journal, m)
  {
    if journal != [] {
      PaidByMark(Front(journal), ids, batch, m);
      assert Front(Mark(journal, ids, batch)) == Mark(Front(journal), ids, batch);
    }
  }

  lemma {:induction false} RefundedGrows(x: seq<TxnRow>, y: seq<TxnRow>, p: int)
    requires |x| <= |y| && forall i | 0 <= i < |x| :: SameTxn(x[i], y[i])
    ensures Refunded(x, p) <= Refunded(y, p)
    decreases |y|
  {
    if |y| > |x| {
      RefundedGrows(x, Front(y), p);
    } else if x != [] {
      RefundedGrows(Front(x), Front(y), p);
    }
  }

  /** Refund totals only grow, so a run that ends within the int64 range was always in it. */
  lemma FitEarlier(cfg: Config, db: Db, op: Op)
    requires GoodDb(db) && Apply(cfg, db, op).Ok? && RefundsFit(Apply(cfg, db, op).value.journal)
    ensures RefundsFit(db.journal)
  {
    var after := Apply(cfg, db, op).value;
    ApplyKeepsGood(cfg, db, op);
    forall i | 0 <= i < |db.journal| && db.journal[i].kind.Payment?
      ensures Refunded(db.journal, db.journal[i].id) <= MAX {
      RefundedGrows(db.journal, after.journal, db.journal[i].id);
      assert after.journal[i].kind.Payment? && after.journal[i].id == db.journal[i].id;
    }
  }

  /** The positive worths over a whole log. */
  function SettledDue(cfg: Config, init: Db, log: seq<Op>, m: int): nat
    requires Run(cfg, init, log).Ok?
  {
    if log == [] then 0
    else
      var db := Run(cfg, init, Front(log)).value;
      SettledDue(cfg, init, Front(log), m)
      + (if Last(log).SettleOp? then Floor(Worth(db.journal, Pendings(db.journal, Last(log).merchants), m)) else 0)
  }

  lemma PaidByApply(cfg: Config, db: Db, op: Op, m: int)
    requires GoodDb(db) && Apply(cfg, db, op).Ok?
    ensures PaidBy(Apply(cfg, db, op).value.journal, m) == PaidBy(db.journal, m)
      + (if op.SettleOp? then Floor(Worth(db.journal, Pendings(db.journal, op.merchants), m)) else 0)
  {
    match op
    case PostOp(key, req, txn) =>
      BuildShape(cfg, db, req);
      AppendRow(db.journal, RowOf(Build(cfg, db, req).value.entry, txn));
    case ReplayOp(_, _, _) =>
    case SettleOp(merchants, batch, txns) =>
      var b := BatchPaysDue(cfg, db, merchants, batch, txns, m);
      var marked := PendIds(Pendings(db.journal, merchants));
      PaidByMark(db.journal, marked, batch, m);
      PaidByAppend(Mark(db.journal, marked, batch), b.rows, m);
  }

  /** Over every run, each merchant has been paid out, batch by batch, the captured amounts of
      the payments settled less the refunds committed before, where that is positive. */
  lemma {:induction false} PaidOutIsDue(cfg: Config, init: Db, log: seq<Op>, m: int)
    requires InitDb(init) && Run(cfg, init, log).Ok?
    ensures PaidBy(Run(cfg, init, log).value.journal, m) == SettledDue(cfg, init, log, m)
  {
    if log != [] {
      RunKeepsGood(cfg, init, Front(log));
      PaidOutIsDue(cfg, init, Front(log), m);
      PaidByApply(cfg, Run(cfg, init, Front(log)).value, Last(log), m);
    }
  }

  /** Every batch of the log found the merchant's pending payments worth something or nothing,
      but not less: a net that settlement can pay. */
  predicate BatchesCovered(cfg: Config, init: Db, log: seq<Op>, m: int)
    requires Run(cfg, init, log).Ok?
  {
    log == []
    || (BatchesCovered(cfg, init, Front(log), m)
        && var db := Run(cfg, init, Front(log)).value;
           (Last(log).SettleOp? ==> Worth(db.journal, Pendings(db.journal, Last(log).merchants), m) >= 0))
  }

  lemma {:induction false} WorthIsDueIff(cfg: Config, init: Db, log: seq<Op>, m: int)
    requires Run(cfg, init, log).Ok?
    ensures SettledWorth(cfg, init, log, m) <= SettledDue(cfg, init, log, m)
    ensures SettledWorth(cfg, init, log, m) == SettledDue(cfg, init, log, m) <==> BatchesCovered(cfg, init, log, m)
  {
    if log != [] {
      WorthIsDueIff(cfg, init, Front(log), m);
    }
  }

  /** A merchant is never paid less than captured minus refunded over its settled payments, and
      exactly that if and only if no batch found it owed a negative amount. */
  lemma PaidOutIsWorth(cfg: Config, init: Db, log: seq<Op>, m: int)
    requires InitDb(init) && Run(cfg, init, log).Ok?
    ensures var paid := PaidBy(Run(cfg, init, log).value.journal, m);
            && paid >= SettledWorth(cfg, init, log, m)
            && (paid == SettledWorth(cfg, init, log, m) <==> BatchesCovered(cfg, init, log, m))
  {
    PaidOutIsDue(cfg, init, log, m);
    WorthIsDueIff(cfg, init, log, m);
  }

  /** While the refunds of each payment sum to an int64, no batch finds a negative amount. */
  lemma {:induction false} FitIsCovered(cfg: Config, init: Db, log: seq<Op>, m: int)
    requires InitDb(init) && Run(cfg, init, log).Ok? && RefundsFit(Run(cfg, init, log).value.journal)
    ensures BatchesCovered(cfg, init, log, m)
  {
    if log != [] {
      var db := Run(cfg, init, Front(log)).value;
      RunKeepsGood(cfg, init, Front(log));
      RunRefundsBounded(cfg, init, Front(log));
      FitEarlier(cfg, db, Last(log));
      FitIsCovered(cfg, init, Front(log), m);
      if Last(log).SettleOp? { WorthCovered(db, Last(log).merchants, m); }
    }
  }
}
