/** Integrity of every reachable database, and what a commit leaves alone: the facts that make
    values read under a lock stay true until the lock is released. */
module Evolution {
  import opened Wrappers
  import opened Ledger
  import opened Database
  import opened Posting
  import opened Settlement
  import opened Serial

  // ---------- every operation keeps the database good ----------

  /** The shapes of the entries the operations build. */
  lemma BuildShape(cfg: Config, db: Db, req: Request)
    requires GoodDb(db) && Build(cfg, db, req).Ok?
    ensures var e := Build(cfg, db, req).value.entry;
            && (e.kind.Payment? <==> e.pendingSettle)
            && (e.kind.Payment? ==> req.PaymentReq? && PairShape(e.legs))
            && (e.kind.Refund? <==> req.RefundReq?)
            && (e.kind.Refund? ==> forall id: int :: ReversesPayment(db.journal, RowOf(e, id)))
            && !e.kind.Settlement?
            && (e.refTxn.Some? <==> e.kind.Refund?)
  {
    if req.RefundReq? {
      var p := Find(db.journal, req.payment).value;
      var i := FindIndex(db.journal, req.payment);
      assert RowOk(db.accounts, db.journal, db.journal[i]);
      DecodeOrder(p.legs[0], p.legs[1]);
      assert p.legs == [p.legs[0], p.legs[1]];
    }
  }

  lemma UniqueAppend(journal: seq<TxnRow>, row: TxnRow)
    requires UniqueIds(journal) && row.id !in Ids(journal)
    ensures UniqueIds(journal + [row])
  {}

  lemma PostKeepsGood(cfg: Config, db: Db, key: string, req: Request, txn: int)
    requires GoodDb(db) && Apply(cfg, db, PostOp(key, req, txn)).Ok?
    ensures var after := Apply(cfg, db, PostOp(key, req, txn)).value;
            GoodDb(after) && Evolves(db, after, Touched(cfg, db, PostOp(key, req, txn)))
  {
    var job := Build(cfg, db, req).value;
    var g := GuardVerdict(db.journal, job.guard);
    var e := job.entry;
    var after := Apply(cfg, db, PostOp(key, req, txn)).value;
    BuildShape(cfg, db, req);
    PostEffect(db.accounts, e.legs, g);
    CheckedLegs(db.accounts, e.legs, g);
    var row := RowOf(e, txn);
    assert RowOk(db.accounts, db.journal, row);
    AppendKeepsRows(db, after, row);
  }

  lemma AppendKeepsRows(db: Db, after: Db, row: TxnRow)
    requires GoodDb(db) && after.journal == db.journal + [row] && RowOk(db.accounts, db.journal, row)
    requires after.accounts.Keys == db.accounts.Keys && row.id !in Ids(db.journal) && "" !in after.keys
    requires forall a | a in db.accounts :: after.accounts[a].currency == db.accounts[a].currency
    ensures GoodDb(after) && Grows(db.journal, after.journal)
  {
    UniqueAppend(db.journal, row);
    assert Grows(db.journal, after.journal);
    forall i | 0 <= i < |after.journal| ensures RowOk(after.accounts, after.journal, after.journal[i]) {
      GrowsRowOk(db.journal, after.journal, db.accounts, after.accounts,
                 if i < |db.journal| then db.journal[i] else row);
    }
  }

  lemma {:induction false} UniqueAppendAll(journal: seq<TxnRow>, rows: seq<TxnRow>, ids: seq<int>)
    requires UniqueIds(journal) && FreshIds(journal, ids) && |rows| == |ids|
    requires forall i | 0 <= i < |rows| :: rows[i].id == ids[i]
    ensures UniqueIds(journal + rows)
  {}

  lemma MarkSame(journal: seq<TxnRow>, ids: set<int>, batch: int)
    requires UniqueIds(journal)
    ensures var j := Mark(journal, ids, batch);
            UniqueIds(j) && Ids(j) == Ids(journal) && forall i | 0 <= i < |journal| :: SameTxn(journal[i], j[i])
  {}

  /** Settlement marks exactly the pending payments of its merchants. */
  lemma MarkedIff(db: Db, merchants: set<int>, i: nat)
    requires GoodDb(db) && i < |db.journal|
    ensures var row := db.journal[i];
            row.id in PendIds(Pendings(db.journal, merchants))
            <==> IsPending(row) && PairShape(row.legs) && row.legs[1].account in merchants
  {
    var row, ps := db.journal[i], Pendings(db.journal, merchants);
    assert RowOk(db.accounts, db.journal, row);
    if row.id in PendIds(ps) {
      var k :| 0 <= k < |ps| && ps[k].id == row.id;
      var j := PendingsSource(db.accounts, db.journal, db.journal, merchants, k);
      assert db.journal[j].id == db.journal[i].id;
      assert i == j;
    }
    if IsPending(row) && row.legs[1].account in merchants {
      PendingsComplete(db.accounts, db.journal, db.journal, merchants, i);
      var k :| 0 <= k < |ps| && ps[k] == PendOf(row);
      assert ps[k].id in PendIds(ps);
    }
  }

  lemma SettleParts(cfg: Config, db: Db, merchants: set<int>, batch: int, txns: seq<int>) returns (b: Batching)
    requires GoodDb(db) && Settle(cfg, db, merchants, batch, txns).Ok?
    ensures var payouts := PayoutMap(cfg, CurrenciesOf(db.accounts, merchants));
            var pends := Pendings(db.journal, merchants);
            var nets := NetsOf(db.journal, pends);
            var locked := LockSet(merchants, payouts);
            && Covered(nets, payouts, locked) && locked <= db.accounts.Keys
            && PayAll(db.accounts, payouts, nets, txns) == Ok(b)
            && BatchingOk(db.accounts, b, txns, locked) && |b.rows| == |txns|
            && PostedOnTop(db.accounts, b)
            && Settle(cfg, db, merchants, batch, txns) == Ok(Settled(db, b, PendIds(pends), |pends|, nets, batch))
  {
    var payouts := PayoutMap(cfg, CurrenciesOf(db.accounts, merchants));
    var nets := NetsOf(db.journal, Pendings(db.journal, merchants));
    NetsCovered(cfg, db, merchants);
    b := PayAll(db.accounts, payouts, nets, txns).value;
    PayAllRows(db.accounts, payouts, nets, txns, LockSet(merchants, payouts));
    PayAllEffect(db.accounts, payouts, nets, txns);
  }

  lemma SettleKeepsGood(cfg: Config, db: Db, merchants: set<int>, batch: int, txns: seq<int>)
    requires GoodDb(db) && Apply(cfg, db, SettleOp(merchants, batch, txns)).Ok?
    ensures var after := Apply(cfg, db, SettleOp(merchants, batch, txns)).value;
            GoodDb(after) && Evolves(db, after, Touched(cfg, db, SettleOp(merchants, batch, txns)))
  {
    var b := SettleParts(cfg, db, merchants, batch, txns);
    var pends := Pendings(db.journal, merchants);
    var locked := LockSet(merchants, PayoutMap(cfg, CurrenciesOf(db.accounts, merchants)));
    SettledKeepsGood(db, b, merchants, NetsOf(db.journal, pends), batch, txns, locked);
  }

  /** The rows a batch leaves behind: marked payments of its merchants, and its payouts. */
  lemma SettledRows(db: Db, b: Batching, merchants: set<int>, nets: seq<Net>, batch: int, txns: seq<int>,
                    locked: set<int>, i: nat)
    requires GoodDb(db) && BatchingOk(db.accounts, b, txns, locked)
    requires var pends := Pendings(db.journal, merchants);
             var after := Settled(db, b, PendIds(pends), |pends|, nets, batch);
             Grows(db.journal, after.journal) && i < |after.journal|
    ensures var pends := Pendings(db.journal, merchants);
            var after := Settled(db, b, PendIds(pends), |pends|, nets, batch);
            && RowOk(after.accounts, after.journal, after.journal[i])
            && (i < |db.journal| ==>
                  after.journal[i] == db.journal[i]
                  || (PairShape(db.journal[i].legs) && db.journal[i].legs[1].account in merchants))
            && (i >= |db.journal| ==> Accounts(after.journal[i].legs) <= locked)
  {
    var pends := Pendings(db.journal, merchants);
    var after := Settled(db, b, PendIds(pends), |pends|, nets, batch);
    if i < |db.journal| {
      SettledRow(db, after, merchants, batch, i);
    } else {
      assert after.journal[i] == b.rows[i - |db.journal|];
    }
  }

  lemma SettledGrows(db: Db, b: Batching, marked: set<int>, batch: int, txns: seq<int>, locked: set<int>)
    requires GoodDb(db) && FreshIds(db.journal, txns) && |b.rows| == |txns| && BatchingOk(db.accounts, b, txns, locked)
    ensures Grows(db.journal, Mark(db.journal, marked, batch) + b.rows)
  {
    MarkSame(db.journal, marked, batch);
    UniqueAppendAll(Mark(db.journal, marked, batch), b.rows, txns);
  }

  lemma SettledKeepsGood(db: Db, b: Batching, merchants: set<int>, nets: seq<Net>, batch: int, txns: seq<int>,
                         locked: set<int>)
    requires GoodDb(db) && merchants <= locked <= db.accounts.Keys
    requires FreshIds(db.journal, txns) && |b.rows| == |txns| && BatchingOk(db.accounts, b, txns, locked)
    ensures var pends := Pendings(db.journal, merchants);
            var after := Settled(db, b, PendIds(pends), |pends|, nets, batch);
            GoodDb(after) && Evolves(db, after, locked)
  {
    var pends := Pendings(db.journal, merchants);
    var after := Settled(db, b, PendIds(pends), |pends|, nets, batch);
    SettledGrows(db, b, PendIds(pends), batch, txns, locked);
    forall i | 0 <= i < |after.journal|
      ensures RowOk(after.accounts, after.journal, after.journal[i])
      ensures i < |db.journal| ==>
        (after.journal[i] == db.journal[i]
         || (PairShape(db.journal[i].legs) && db.journal[i].legs[1].account in merchants))
      ensures i >= |db.journal| ==> Accounts(after.journal[i].legs) <= locked
    {
      SettledRows(db, b, merchants, nets, batch, txns, locked, i);
    }
  }

  lemma SettledRow(db: Db, after: Db, merchants: set<int>, batch: int, i: nat)
    requires GoodDb(db) && i < |db.journal| && Grows(db.journal, after.journal)
    requires after.accounts.Keys == db.accounts.Keys
    requires forall a | a in db.accounts :: after.accounts[a].currency == db.accounts[a].currency
    requires after.journal[i] == MarkRow(db.journal[i], PendIds(Pendings(db.journal, merchants)), batch)
    ensures RowOk(after.accounts, after.journal, after.journal[i])
    ensures after.journal[i] == db.journal[i]
         || (PairShape(db.journal[i].legs) && db.journal[i].legs[1].account in merchants)
  {
    MarkedIff(db, merchants, i);
    GrowsRowOk(db.journal, after.journal, db.accounts, after.accounts, db.journal[i]);
  }

  /** Each operation keeps the database good and changes only what its locks allow. */
  lemma ApplyKeepsGood(cfg: Config, db: Db, op: Op)
    requires GoodDb(db) && Apply(cfg, db, op).Ok?
    ensures GoodDb(Apply(cfg, db, op).value) && Evolves(db, Apply(cfg, db, op).value, Touched(cfg, db, op))
  {
    match op
    case PostOp(key, req, txn) => PostKeepsGood(cfg, db, key, req, txn);
    case ReplayOp(_, _, _) =>
    case SettleOp(merchants, batch, txns) => SettleKeepsGood(cfg, db, merchants, batch, txns);
  }

  lemma {:induction false} RunKeepsGood(cfg: Config, init: Db, log: seq<Op>)
    requires InitDb(init) && Run(cfg, init, log).Ok?
    ensures GoodDb(Run(cfg, init, log).value)
    ensures Run(cfg, init, log).value.accounts.Keys == init.accounts.Keys
  {
    if log != [] {
      RunKeepsGood(cfg, init, Front(log));
      ApplyKeepsGood(cfg, Run(cfg, init, Front(log)).value, Last(log));
    }
  }

  // ---------- what stays true under a lock ----------

  /** While an account is locked by someone else, no commit changes the pending payments of
      that merchant. */
  lemma {:induction false} PendingsFrame(accounts: map<int, Account>, x: seq<TxnRow>, y: seq<TxnRow>, fx: seq<TxnRow>,
                                         fy: seq<TxnRow>, touched: set<int>, merchants: set<int>)
    requires touched !! merchants && |x| <= |y|
    requires forall i | 0 <= i < |x| :: RowOk(accounts, fx, x[i]) && SameTxn(x[i], y[i])
    requires forall i | 0 <= i < |x| :: y[i] == x[i] || (PairShape(x[i].legs) && x[i].legs[1].account in touched)
    requires forall i | |x| <= i < |y| :: Accounts(y[i].legs) <= touched
    requires forall i | 0 <= i < |y| :: RowOk(accounts, fy, y[i])
    ensures Pendings(y, merchants) == Pendings(x, merchants)
    decreases |y|
  {
    if |y| > |x| {
      PendingsOfPair(Last(y), merchants);
      if IsPending(Last(y)) {
        assert Last(y).legs[1].account in Accounts(Last(y).legs);
      }
      PendingsFrame(accounts, x, Front(y), fx, fy, touched, merchants);
    } else if x != [] {
      PendingsFrame(accounts, Front(x), Front(y), fx, fy, touched, merchants);
      PendingsOfPair(Last(x), merchants);
      PendingsOfPair(Last(y), merchants);
    }
  }

  /** ... nor the refunds charged to it. */
  lemma {:induction false} RefundedSoFarFrame(x: seq<TxnRow>, y: seq<TxnRow>, touched: set<int>, p: int, m: int)
    requires m !in touched && |x| <= |y|
    requires forall i | 0 <= i < |x| :: SameTxn(x[i], y[i])
    requires forall i | |x| <= i < |y| :: Accounts(y[i].legs) <= touched
    ensures RefundedSoFar(y, p, m) == RefundedSoFar(x, p, m)
    decreases |y|
  {
    if |y| > |x| {
      AccountSumOff(Last(y).legs, m);
      RefundedSoFarFrame(x, Front(y), touched, p, m);
    } else if x != [] {
      RefundedSoFarFrame(Front(x), Front(y), touched, p, m);
    }
  }

  lemma PairDebits(legs: seq<Leg>)
    requires PairShape(legs)
    ensures Debits(legs) == legs[1].amount == DebitSum(legs, legs[0].account)
    ensures forall a :: a != legs[0].account ==> DebitSum(legs, a) == 0
  {
    assert Front(legs) == [legs[0]] && Front([legs[0]]) == [];
    assert Debits([legs[0]]) == legs[1].amount;
    assert DebitSum([legs[0]], legs[0].account) == legs[1].amount;
    forall a | a != legs[0].account ensures DebitSum(legs, a) == 0 {
      assert DebitSum([legs[0]], a) == 0;
    }
  }

  /** The two refund queries agree: a payment's refunds debit its merchant only. */
  lemma {:induction false} RefundQueriesAgree(accounts: map<int, Account>, full: seq<TxnRow>, journal: seq<TxnRow>,
                                              p: int, m: int)
    requires forall i | 0 <= i < |journal| :: RowOk(accounts, full, journal[i])
    requires Find(full, p).Some? && PairShape(Find(full, p).value.legs)
    requires Find(full, p).value.legs[1].account == m
    ensures Refunded(journal, p) == RefundedSoFar(journal, p, m)
  {
    if journal != [] {
      RefundQueriesAgree(accounts, full, Front(journal), p, m);
      if RefundOf(Last(journal), p) {
        PairDebits(Last(journal).legs);
      }
    }
  }

  /** A payment of a locked merchant keeps its refunded total. */
  lemma RefundedFrame(db: Db, after: Db, touched: set<int>, p: int, m: int)
    requires GoodDb(db) && GoodDb(after) && Evolves(db, after, touched) && m !in touched
    requires Find(db.journal, p).Some? && PairShape(Find(db.journal, p).value.legs)
    requires Find(db.journal, p).value.legs[1].account == m
    ensures Refunded(after.journal, p) == Refunded(db.journal, p)
  {
    GrowsFind(db.journal, after.journal, p);
    RefundQueriesAgree(db.accounts, db.journal, db.journal, p, m);
    RefundQueriesAgree(after.accounts, after.journal, after.journal, p, m);
    RefundedSoFarFrame(db.journal, after.journal, touched, p, m);
  }

  /** The whole netting query is frozen for locked merchants. */
  lemma NetsFrozen(db: Db, after: Db, touched: set<int>, merchants: set<int>)
    requires GoodDb(db) && GoodDb(after) && Evolves(db, after, touched) && touched !! merchants
    ensures Pendings(after.journal, merchants) == Pendings(db.journal, merchants)
    ensures NetsOf(after.journal, Pendings(after.journal, merchants))
         == NetsOf(db.journal, Pendings(db.journal, merchants))
  {
    forall i | 0 <= i < |after.journal| ensures RowOk(db.accounts, after.journal, after.journal[i]) {
      assert RowOk(after.accounts, after.journal, after.journal[i]);
    }
    PendingsFrame(db.accounts, db.journal, after.journal, db.journal, after.journal, touched, merchants);
    var ps := Pendings(db.journal, merchants);
    forall k | 0 <= k < |ps| ensures Refunded(after.journal, ps[k].id) == Refunded(db.journal, ps[k].id) {
      var i := PendingsSource(db.accounts, db.journal, db.journal, merchants, k);
      FindRow(db.journal, i);
      RefundedFrame(db, after, touched, ps[k].id, ps[k].merchant);
    }
    NetsFrame(after.journal, db.journal, ps);
  }

  /** What a request builds never changes once it can be built. */
  lemma BuildFrozen(cfg: Config, db: Db, after: Db, touched: set<int>, req: Request)
    requires GoodDb(db) && Evolves(db, after, touched) && Build(cfg, db, req).Ok?
    ensures Build(cfg, after, req) == Build(cfg, db, req)
  {
    if req.RefundReq? {
      GrowsFind(db.journal, after.journal, req.payment);
    }
  }

  /** A posting checked under its locks keeps its verdict while others commit. */
  lemma CheckFrozen(db: Db, after: Db, touched: set<int>, legs: seq<Leg>, g: Option<Guard>)
    requires Evolves(db, after, touched) && touched !! Accounts(legs)
    requires g.Some? ==> g.value.merchant in Accounts(legs)
    ensures GuardVerdict(after.journal, g) == GuardVerdict(db.journal, g)
    ensures CheckPost(after.accounts, legs, GuardVerdict(after.journal, g))
         == CheckPost(db.accounts, legs, GuardVerdict(db.journal, g))
  {
    if g.Some? {
      RefundedSoFarFrame(db.journal, after.journal, touched, g.value.payment, g.value.merchant);
    }
    CheckPostFrame(after.accounts, db.accounts, legs, GuardVerdict(db.journal, g));
  }
}
