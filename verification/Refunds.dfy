/** The refund bound over every run, and what it means for settlement nets. */
module Refunds {
  import opened Wrappers
  import opened Int64
  import opened Money
  import opened Ledger
  import opened Database
  import opened Posting
  import opened Settlement
  import opened Serial
  import opened Evolution
  import opened Balances

  /** Refunds stay within the captured amount unless their total has left the int64 range. */
  predicate Bounded(journal: seq<TxnRow>, row: TxnRow)
    requires PairShape(row.legs)
  {
    Refunded(journal, row.id) <= row.legs[1].amount <==> Refunded(journal, row.id) <= MAX
  }

  predicate RefundsBounded(journal: seq<TxnRow>) {
    forall i | 0 <= i < |journal| && journal[i].kind.Payment? ::
      PairShape(journal[i].legs) && Bounded(journal, journal[i])
  }

  /** A refund names an existing payment. */
  lemma {:induction false} NothingRefunded(accounts: map<int, Account>, full: seq<TxnRow>, journal: seq<TxnRow>,
                                         id: int)
    requires forall i | 0 <= i < |journal| :: RowOk(accounts, full, journal[i])
    requires id !in Ids(full)
    ensures Refunded(journal, id) == 0
  {
    if journal != [] {
      NothingRefunded(accounts, full, Front(journal), id);
      FoundInIds(full, id);
    }
  }

  lemma FoundInIds(journal: seq<TxnRow>, id: int)
    ensures Find(journal, id).Some? ==> id in Ids(journal)
  {
    if Find(journal, id).Some? {
      var i := FindIndex(journal, id);
    }
  }

  lemma {:induction false} RefundedAppend(journal: seq<TxnRow>, rows: seq<TxnRow>, p: int)
    requires forall i | 0 <= i < |rows| :: !RefundOf(rows[i], p)
    ensures Refunded(journal + rows, p) == Refunded(journal, p)
  {
    if rows == [] {
      assert journal + rows == journal;
    } else {
      assert Front(journal + rows) == journal + Front(rows) && Last(journal + rows) == Last(rows);
      RefundedAppend(journal, Front(rows), p);
    }
  }

  /** The guard under the merchant's lock: a refund it admits keeps the payment bounded. */
  lemma RefundStep(cfg: Config, db: Db, key: string, payment: int, amount: Minor, txn: int)
    requires GoodDb(db) && RefundsBounded(db.journal)
    requires Apply(cfg, db, PostOp(key, RefundReq(payment, amount), txn)).Ok?
    ensures var after := Apply(cfg, db, PostOp(key, RefundReq(payment, amount), txn)).value;
            && Find(db.journal, payment).Some? && Find(db.journal, payment).value.kind.Payment?
            && PairShape(Find(db.journal, payment).value.legs)
            && Refunded(after.journal, payment) == Refunded(db.journal, payment) + amount
            && (Refunded(db.journal, payment) <= Find(db.journal, payment).value.legs[1].amount)
            && Bounded(after.journal, Find(db.journal, payment).value)
            && (Refunded(after.journal, payment) <= Find(db.journal, payment).value.legs[1].amount
                <==> Refunded(db.journal, payment) + amount <= MAX)
  {
    var p := Find(db.journal, payment).value;
    var i := FindIndex(db.journal, payment);
    assert RowOk(db.accounts, db.journal, db.journal[i]);
    DecodeOrder(p.legs[0], p.legs[1]);
    assert p.legs == [p.legs[0], p.legs[1]];
    var job := Build(cfg, db, RefundReq(payment, amount)).value;
    RefundQueriesAgree(db.accounts, db.journal, db.journal, payment, p.legs[1].account);
    AppendRow(db.journal, RowOf(job.entry, txn));
    PairDebits(job.entry.legs);
    GuardExactIff(Refunded(db.journal, payment), job.guard.value);
  }

  lemma PostKeepsBound(cfg: Config, db: Db, key: string, req: Request, txn: int)
    requires GoodDb(db) && RefundsBounded(db.journal) && Apply(cfg, db, PostOp(key, req, txn)).Ok?
    ensures RefundsBounded(Apply(cfg, db, PostOp(key, req, txn)).value.journal)
  {
    var after := Apply(cfg, db, PostOp(key, req, txn)).value;
    var row := RowOf(Build(cfg, db, req).value.entry, txn);
    BuildShape(cfg, db, req);
    if req.RefundReq? { RefundStep(cfg, db, key, req.payment, req.amount, txn); }
    forall i | 0 <= i < |after.journal| && after.journal[i].kind.Payment?
      ensures PairShape(after.journal[i].legs) && Bounded(after.journal, after.journal[i])
    {
      if req.RefundReq? && i < |db.journal| && db.journal[i].id == req.payment {
        FindRow(db.journal, i);
      } else {
        UntouchedBound(db, row, i);
      }
    }
  }

  /** A row bounds what it is worth as before, unless it is the payment a new refund is for. */
  lemma UntouchedBound(db: Db, row: TxnRow, i: nat)
    requires GoodDb(db) && RefundsBounded(db.journal) && row.id !in Ids(db.journal) && i <= |db.journal|
    requires row.kind.Payment? ==> PairShape(row.legs)
    requires i < |db.journal| ==> row.kind.Refund? ==> row.refTxn != Some(db.journal[i].id)
    requires (db.journal + [row])[i].kind.Payment?
    ensures var y := db.journal + [row]; PairShape(y[i].legs) && Bounded(y, y[i])
  {
    if i == |db.journal| {
      NothingRefunded(db.accounts, db.journal, db.journal, row.id);
      RefundedAppend(db.journal, [row], row.id);
    } else {
      RefundedAppend(db.journal, [row], db.journal[i].id);
    }
  }

  lemma BatchKeepsBound(db: Db, after: Db, b: Batching, marked: set<int>, batch: int)
    requires RefundsBounded(db.journal) && BatchEffect(db, after, b, marked, batch)
    ensures RefundsBounded(after.journal)
  {
    forall i | 0 <= i < |after.journal| && after.journal[i].kind.Payment?
      ensures PairShape(after.journal[i].legs) && Bounded(after.journal, after.journal[i])
    {
      assert forall k | 0 <= k < |b.rows| :: after.journal[|db.journal| + k] == b.rows[k];
      assert i < |db.journal|;
      RefundedAppend(Mark(db.journal, marked, batch), b.rows, db.journal[i].id);
      MarkQueries(db.journal, marked, batch, db.journal[i].id, 0, "");
    }
  }

  /** After every run, the refunds of each payment sum to at most its captured amount if and
      only if they sum to an int64 at all. */
  lemma {:induction false} RunRefundsBounded(cfg: Config, init: Db, log: seq<Op>)
    requires InitDb(init) && Run(cfg, init, log).Ok?
    ensures RefundsBounded(Run(cfg, init, log).value.journal)
  {
    if log != [] {
      RunRefundsBounded(cfg, init, Front(log));
      RunKeepsGood(cfg, init, Front(log));
      var db := Run(cfg, init, Front(log)).value;
      match Last(log)
      case PostOp(key, req, txn) => PostKeepsBound(cfg, db, key, req, txn);
      case ReplayOp(_, _, _) =>
      case SettleOp(merchants, batch, txns) =>
        var b := SettleHasEffect(cfg, db, merchants, batch, txns);
        BatchKeepsBound(db, Run(cfg, init, log).value, b, PendIds(Pendings(db.journal, merchants)), batch);
    }
  }

  /** A no-overflow state: every payment's refunds sum to an int64. */
  predicate RefundsFit(journal: seq<TxnRow>) {
    forall i | 0 <= i < |journal| && journal[i].kind.Payment? :: Refunded(journal, journal[i].id) <= MAX
  }

  // ---------- nets ----------

  lemma {:induction false} GroupNonNegative(journal: seq<TxnRow>, pends: seq<Pend>, m: int, c: Currency)
    requires AllOwed(journal, pends)
    ensures OwedBy(journal, pends, m, c) >= 0
    ensures OwedBy(journal, pends, m, c) == 0 <==>
      forall k | 0 <= k < |pends| && pends[k].merchant == m && pends[k].currency == c :: Owed(journal, pends[k]) == 0
  {
    if pends != [] {
      var rest := Front(pends);
      GroupNonNegative(journal, rest, m, c);
      assert forall k | 0 <= k < |rest| :: rest[k] == pends[k];
      assert forall k | 0 <= k < |pends| :: k == |pends| - 1 || pends[k] == rest[k];
    }
  }

  /** No pending payment has been refunded beyond its captured amount. */
  predicate AllOwed(journal: seq<TxnRow>, pends: seq<Pend>) {
    forall k | 0 <= k < |pends| :: Owed(journal, pends[k]) >= 0
  }

  lemma PendsOwed(db: Db, merchants: set<int>)
    requires GoodDb(db) && RefundsBounded(db.journal) && RefundsFit(db.journal)
    ensures AllOwed(db.journal, Pendings(db.journal, merchants))
  {
    var ps := Pendings(db.journal, merchants);
    forall k | 0 <= k < |ps| ensures Owed(db.journal, ps[k]) >= 0 {
      var i := PendingsSource(db.accounts, db.journal, db.journal, merchants, k);
      assert Bounded(db.journal, db.journal[i]);
    }
  }

  /** Every settlement net is non-negative, and the loop skips a merchant only when all of its
      pending payments are fully refunded. */
  lemma SkippedOnlyIfRefunded(db: Db, merchants: set<int>, i: nat)
    requires AllOwed(db.journal, Pendings(db.journal, merchants))
    requires i < |NetsOf(db.journal, Pendings(db.journal, merchants))|
    ensures var ps := Pendings(db.journal, merchants);
            var n := NetsOf(db.journal, ps)[i];
            && n.net >= 0
            && (n.net <= 0 <==>
                  forall k | 0 <= k < |ps| && ps[k].merchant == n.merchant && ps[k].currency == n.currency ::
                    Refunded(db.journal, ps[k].id) == ps[k].captured)
  {
    var ps := Pendings(db.journal, merchants);
    var nets := NetsOf(db.journal, ps);
    var n := nets[i];
    NetsAreGroupSums(db.journal, ps, n.merchant, n.currency);
    NetForRow(nets, i);
    GroupNonNegative(db.journal, ps, n.merchant, n.currency);
  }

  /** A wrapped guard: one unit was captured and refunded, and the largest amount is admitted. */
  lemma GuardWraps()
    ensures RefundVerdict(1, Guard(7, 3, 1, MAX)) == Ok(())
  {}
}
