/** Which merchants a settlement covers, and what a batch writes, in terms of the rows alone
    (internal/store/settlement.go). */
module Coverage {
  import opened Wrappers
  import opened Int64
  import opened Money
  import opened Ledger
  import opened Database
  import opened Settlement
  import opened Serial
  import opened Evolution

  // ---------- the candidates ----------

  /** A payment to the merchant that waits for its settlement. */
  predicate Awaits(row: TxnRow, m: int) {
    row.kind.Payment? && row.pending && !row.settled && |row.legs| == 2 && row.legs[1].account == m
  }

  predicate HasWaiting(journal: seq<TxnRow>, m: int) { exists i | 0 <= i < |journal| :: Awaits(journal[i], m) }

  /** The candidates are exactly the merchants with a payment that waits for its settlement. */
  lemma CandidateIff(db: Db, m: int)
    requires GoodDb(db)
    ensures m in Merchants(AllPendings(db)) <==> HasWaiting(db.journal, m)
  {
    var pends := AllPendings(db);
    if m in Merchants(pends) {
      var k :| 0 <= k < |pends| && pends[k].merchant == m;
      var i := PendingsSource(db.accounts, db.journal, db.journal, db.accounts.Keys, k);
      assert Awaits(db.journal[i], m);
    }
    if i :| 0 <= i < |db.journal| && Awaits(db.journal[i], m) {
      assert RowOk(db.accounts, db.journal, db.journal[i]);
      PendingsComplete(db.accounts, db.journal, db.journal, db.accounts.Keys, i);
      var k :| 0 <= k < |pends| && pends[k] == PendOf(db.journal[i]);
      assert pends[k].merchant == m;
    }
  }

  // ---------- what a batch settles ----------

  function SettledRow(row: TxnRow, batch: int): TxnRow {
    row.(pending := false, settled := true, batch := Some(batch))
  }

  /** A batch settles the waiting payments of its merchants and no other row. */
  lemma BatchSettles(cfg: Config, db: Db, merchants: set<int>, batch: int, txns: seq<int>, i: nat)
    requires GoodDb(db) && Apply(cfg, db, SettleOp(merchants, batch, txns)).Ok? && i < |db.journal|
    ensures var row, after := db.journal[i], Apply(cfg, db, SettleOp(merchants, batch, txns)).value;
            && |after.journal| >= |db.journal|
            && after.journal[i] == if exists m | m in merchants :: Awaits(row, m) then SettledRow(row, batch) else row
  {
    MarkedIff(db, merchants, i);
    var row := db.journal[i];
    assert RowOk(db.accounts, db.journal, row);
    if IsPending(row) && row.legs[1].account in merchants { assert Awaits(row, row.legs[1].account); }
  }

  /** The columns of a payment that waits for its settlement. */
  predicate Waiting(row: TxnRow) { row.kind.Payment? && row.pending && !row.settled }

  /** Every payment that waited is settled by this batch, and every other row is as before. */
  predicate AllSettled(before: seq<TxnRow>, after: seq<TxnRow>, batch: int) {
    && |before| <= |after|
    && forall i | 0 <= i < |before| ::
         after[i] == if Waiting(before[i]) then SettledRow(before[i], batch) else before[i]
  }

  /** A batch over the candidates settles everything that waited. */
  lemma CandidatesSettled(cfg: Config, db: Db, batch: int, txns: seq<int>)
    requires GoodDb(db) && Apply(cfg, db, SettleOp(Merchants(AllPendings(db)), batch, txns)).Ok?
    ensures var after := Apply(cfg, db, SettleOp(Merchants(AllPendings(db)), batch, txns)).value;
            AllSettled(db.journal, after.journal, batch)
  {
    var ms := Merchants(AllPendings(db));
    forall i | 0 <= i < |db.journal|
      ensures |Apply(cfg, db, SettleOp(ms, batch, txns)).value.journal| >= |db.journal|
      ensures var row := db.journal[i];
              Apply(cfg, db, SettleOp(ms, batch, txns)).value.journal[i]
              == if Waiting(row) then SettledRow(row, batch) else row
    {
      WaitingSettled(cfg, db, batch, txns, i);
    }
    assert |Apply(cfg, db, SettleOp(ms, batch, txns)).value.journal| >= |db.journal|;
  }

  lemma WaitingSettled(cfg: Config, db: Db, batch: int, txns: seq<int>, i: nat)
    requires GoodDb(db) && Apply(cfg, db, SettleOp(Merchants(AllPendings(db)), batch, txns)).Ok? && i < |db.journal|
    ensures var row, after := db.journal[i], Apply(cfg, db, SettleOp(Merchants(AllPendings(db)), batch, txns)).value;
            && |after.journal| >= |db.journal|
            && after.journal[i] == if Waiting(row) then SettledRow(row, batch) else row
  {
    BatchSettles(cfg, db, Merchants(AllPendings(db)), batch, txns, i);
    var row := db.journal[i];
    assert RowOk(db.accounts, db.journal, row);
    if Waiting(row) {
      assert Awaits(row, row.legs[1].account);
      CandidateIff(db, row.legs[1].account);
    }
  }

  // ---------- what a batch pays ----------

  /** A payout: what the merchant is owed in the currency goes to the payout account of that
      currency. */
  predicate Pays(cfg: Config, db: Db, merchants: set<int>, row: TxnRow, id: int, m: int, c: Currency) {
    && m in merchants && c in cfg.payout
    && 0 < OwedBy(db.journal, Pendings(db.journal, merchants), m, c) <= MAX
    && var n: Minor := OwedBy(db.journal, Pendings(db.journal, merchants), m, c);
       row == TxnRow(id, TxnKind.Settlement, None, false, false, None,
                     [Leg(m, c, 0 - n), Leg(cfg.payout[c], c, n)])
  }

  /** The payouts of the positive nets, in order. */
  function Payouts(payouts: map<Currency, int>, nets: seq<Net>, ids: seq<int>): seq<TxnRow> {
    if nets == [] then []
    else
      var rows := Payouts(payouts, Front(nets), ids);
      if 0 < Last(nets).net <= MAX then rows + [PayoutRow(payouts, Last(nets), IdAt(ids, |rows|))] else rows
  }

  lemma LastPayout(accounts: map<int, Account>, payouts: map<Currency, int>, nets: seq<Net>, ids: seq<int>)
    requires nets != [] && PayAll(accounts, payouts, nets, ids).Ok?
    ensures PayAll(accounts, payouts, Front(nets), ids).Ok? && Last(nets).net <= MAX
    ensures var x := PayAll(accounts, payouts, Front(nets), ids).value.rows;
            PayAll(accounts, payouts, nets, ids).value.rows ==
              if Last(nets).net > 0 then x + [PayoutRow(payouts, Last(nets), IdAt(ids, |x|))] else x
  {}

  lemma {:induction false} RowsArePayouts(accounts: map<int, Account>, payouts: map<Currency, int>, nets: seq<Net>,
                                          ids: seq<int>)
    requires PayAll(accounts, payouts, nets, ids).Ok?
    ensures PayAll(accounts, payouts, nets, ids).value.rows == Payouts(payouts, nets, ids)
    ensures forall k | 0 <= k < |nets| :: nets[k].net <= MAX
  {
    if nets != [] {
      LastPayout(accounts, payouts, nets, ids);
      RowsArePayouts(accounts, payouts, Front(nets), ids);
      assert forall k | 0 <= k < |nets| - 1 :: Front(nets)[k] == nets[k];
    }
  }

  lemma {:induction false} PayoutNet(payouts: map<Currency, int>, nets: seq<Net>, ids: seq<int>, i: nat)
    returns (k: nat)
    requires i < |Payouts(payouts, nets, ids)|
    ensures k < |nets| && 0 < nets[k].net <= MAX
    ensures Payouts(payouts, nets, ids)[i] == PayoutRow(payouts, nets[k], IdAt(ids, i))
  {
    if i < |Payouts(payouts, Front(nets), ids)| {
      k := PayoutNet(payouts, Front(nets), ids, i);
    } else {
      k := |nets| - 1;
    }
  }

  lemma {:induction false} NetPayout(payouts: map<Currency, int>, nets: seq<Net>, ids: seq<int>, k: nat)
    returns (i: nat)
    requires k < |nets| && 0 < nets[k].net <= MAX
    ensures i < |Payouts(payouts, nets, ids)|
    ensures Payouts(payouts, nets, ids)[i] == PayoutRow(payouts, nets[k], IdAt(ids, i))
  {
    if k < |nets| - 1 {
      i := NetPayout(payouts, Front(nets), ids, k);
    } else {
      i := |Payouts(payouts, Front(nets), ids)|;
    }
  }

  lemma NetPays(cfg: Config, db: Db, merchants: set<int>, k: nat, id: int)
    requires GoodDb(db) && CurrenciesOf(db.accounts, merchants) <= cfg.payout.Keys
    requires k < |NetsOf(db.journal, Pendings(db.journal, merchants))|
    requires 0 < NetsOf(db.journal, Pendings(db.journal, merchants))[k].net <= MAX
    ensures var n := NetsOf(db.journal, Pendings(db.journal, merchants))[k];
            var payouts := PayoutMap(cfg, CurrenciesOf(db.accounts, merchants));
            Pays(cfg, db, merchants, PayoutRow(payouts, n, id), id, n.merchant, n.currency)
  {
    var pends := Pendings(db.journal, merchants);
    var n := NetsOf(db.journal, pends)[k];
    NetsCovered(cfg, db, merchants);
    NetsAreGroupSums(db.journal, pends, n.merchant, n.currency);
    NetForRow(NetsOf(db.journal, pends), k);
  }

  lemma SettledJournal(db: Db, b: Batching, marked: set<int>, count: nat, nets: seq<Net>, batch: int)
    ensures var j := Settled(db, b, marked, count, nets, batch).journal;
            && |j| == |db.journal| + |b.rows|
            && forall i | 0 <= i < |b.rows| :: j[|db.journal| + i] == b.rows[i]
  {}

  lemma RailsKnown(cfg: Config, db: Db, merchants: set<int>, batch: int, txns: seq<int>)
    requires Settle(cfg, db, merchants, batch, txns).Ok?
    ensures CurrenciesOf(db.accounts, merchants) <= cfg.payout.Keys
  {}

  /** The new rows of a batch, one for each id it took. */
  lemma NewRows(cfg: Config, db: Db, merchants: set<int>, batch: int, txns: seq<int>, after: Db)
    requires GoodDb(db) && Settle(cfg, db, merchants, batch, txns) == Ok(after)
    ensures var nets := NetsOf(db.journal, Pendings(db.journal, merchants));
            var rows := Payouts(PayoutMap(cfg, CurrenciesOf(db.accounts, merchants)), nets, txns);
            && |rows| == |txns| && |after.journal| == |db.journal| + |txns|
            && (forall i | 0 <= i < |txns| :: after.journal[|db.journal| + i] == rows[i])
            && forall k | 0 <= k < |nets| :: nets[k].net <= MAX
  {
    var b := SettleParts(cfg, db, merchants, batch, txns);
    var pends := Pendings(db.journal, merchants);
    SettledJournal(db, b, PendIds(pends), |pends|, NetsOf(db.journal, pends), batch);
    RowsArePayouts(db.accounts, PayoutMap(cfg, CurrenciesOf(db.accounts, merchants)), NetsOf(db.journal, pends), txns);
  }

  lemma {:induction false} GroupRow(nets: seq<Net>, m: int, c: Currency) returns (k: nat)
    requires Grouped(nets) && NetFor(nets, m, c) != 0
    ensures k < |nets| && IsFor(nets[k], m, c) && nets[k].net == NetFor(nets, m, c)
  {
    if IsFor(nets[0], m, c) {
      k := 0;
      NetForRow(nets, 0);
    } else {
      var rest := nets[1..];
      assert forall i | 0 <= i < |rest| :: rest[i] == nets[i + 1];
      var l := GroupRow(rest, m, c);
      k := l + 1;
    }
  }

  /** Every new row of a batch pays one of its merchants what it is owed. */
  lemma BatchPays(cfg: Config, db: Db, merchants: set<int>, batch: int, txns: seq<int>, after: Db, i: nat)
    returns (m: int, c: Currency)
    requires GoodDb(db) && Settle(cfg, db, merchants, batch, txns) == Ok(after) && i < |txns|
    ensures |after.journal| == |db.journal| + |txns|
    ensures Pays(cfg, db, merchants, after.journal[|db.journal| + i], txns[i], m, c)
  {
    NewRows(cfg, db, merchants, batch, txns, after);
    RailsKnown(cfg, db, merchants, batch, txns);
    var nets := NetsOf(db.journal, Pendings(db.journal, merchants));
    var k := PayoutNet(PayoutMap(cfg, CurrenciesOf(db.accounts, merchants)), nets, txns, i);
    NetPays(cfg, db, merchants, k, txns[i]);
    m, c := nets[k].merchant, nets[k].currency;
  }

  /** ... and every merchant that is owed something is paid by one of them. */
  lemma OwedArePaid(cfg: Config, db: Db, merchants: set<int>, batch: int, txns: seq<int>, after: Db, m: int,
                    c: Currency)
    returns (i: nat)
    requires GoodDb(db) && Settle(cfg, db, merchants, batch, txns) == Ok(after)
    requires OwedBy(db.journal, Pendings(db.journal, merchants), m, c) > 0
    ensures |after.journal| == |db.journal| + |txns| && i < |txns|
    ensures Pays(cfg, db, merchants, after.journal[|db.journal| + i], txns[i], m, c)
  {
    NewRows(cfg, db, merchants, batch, txns, after);
    RailsKnown(cfg, db, merchants, batch, txns);
    var pends := Pendings(db.journal, merchants);
    var nets := NetsOf(db.journal, pends);
    NetsAreGroupSums(db.journal, pends, m, c);
    var k := GroupRow(nets, m, c);
    i := NetPayout(PayoutMap(cfg, CurrenciesOf(db.accounts, merchants)), nets, txns, k);
    NetPays(cfg, db, merchants, k, txns[i]);
  }
}
