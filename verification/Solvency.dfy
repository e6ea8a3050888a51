/** A merchant that is only credited from outside, and debited by settlement and by refunds of
    unsettled payments, always holds what its pending payments are worth. */
module Solvency {
  import opened Wrappers
  import opened Int64
  import opened Money
  import opened Ledger
  import opened Database
  import opened Posting
  import opened Settlement
  import opened Serial
  import opened Evolution
  import opened Balances
  import opened Refunds
  import opened PaidOnce

  // ---------- what a merchant is owed ----------

  predicate PendingFor(row: TxnRow, m: int) { IsPending(row) && PairShape(row.legs) && row.legs[1].account == m }

  /** Captured minus refunded, over the pending payments of a merchant. */
  function Owing(full: seq<TxnRow>, journal: seq<TxnRow>, m: int): int {
    if journal == [] then 0
    else
      var row := Last(journal);
      Owing(full, Front(journal), m)
      + (if PendingFor(row, m) then row.legs[1].amount - Refunded(full, row.id) else 0)
  }

  lemma WorthAppend(full: seq<TxnRow>, ps: seq<Pend>, p: Pend, m: int)
    ensures Worth(full, ps + [p], m) == Worth(full, ps, m) + (if p.merchant == m then Owed(full, p) else 0)
  {
    assert Front(ps + [p]) == ps && Last(ps + [p]) == p;
  }

  /** What the settlement query sums for a locked merchant is what it is owed. */
  lemma {:induction false} WorthIsOwing(accounts: map<int, Account>, full: seq<TxnRow>, journal: seq<TxnRow>,
                                        merchants: set<int>, m: int)
    requires forall i | 0 <= i < |journal| :: RowOk(accounts, full, journal[i])
    requires m in merchants
    ensures Worth(full, Pendings(journal, merchants), m) == Owing(full, journal, m)
  {
    if journal != [] {
      var row, ps := Last(journal), Pendings(Front(journal), merchants);
      WorthIsOwing(accounts, full, Front(journal), merchants, m);
      PendingsOfPair(row, merchants);
      if PendingsOf(row, merchants) == [] {
        assert ps + [] == ps;
      } else {
        WorthAppend(full, ps, PendOf(row), m);
      }
    }
  }

  lemma {:induction false} OwingFrame(x: seq<TxnRow>, y: seq<TxnRow>, journal: seq<TxnRow>, m: int)
    requires forall i | 0 <= i < |journal| && PendingFor(journal[i], m) ::
      Refunded(x, journal[i].id) == Refunded(y, journal[i].id)
    ensures Owing(x, journal, m) == Owing(y, journal, m)
  {
    if journal != [] {
      assert forall i | 0 <= i < |Front(journal)| :: Front(journal)[i] == journal[i];
      OwingFrame(x, y, Front(journal), m);
    }
  }

  /** A refund of a pending payment lowers what its merchant is owed by the refund. */
  lemma {:induction false} OwingRefund(x: seq<TxnRow>, y: seq<TxnRow>, journal: seq<TxnRow>, m: int, k: nat,
                                     amount: int)
    requires UniqueIds(journal) && k < |journal| && PendingFor(journal[k], m)
    requires forall i | 0 <= i < |journal| ::
      Refunded(y, journal[i].id) == Refunded(x, journal[i].id) + (if journal[i].id == journal[k].id then amount else 0)
    ensures Owing(y, journal, m) == Owing(x, journal, m) - amount
  {
    var front := Front(journal);
    assert forall i | 0 <= i < |front| :: front[i] == journal[i];
    if k == |front| {
      forall i | 0 <= i < |front| ensures Refunded(x, front[i].id) == Refunded(y, front[i].id) {
        assert journal[i].id != journal[k].id;
      }
      OwingFrame(x, y, front, m);
    } else {
      assert journal[k].id != journal[|front|].id;
      OwingRefund(x, y, front, m, k, amount);
    }
  }

  /** Marking settles all of a merchant's pending payments or none. */
  lemma {:induction false} OwingMarked(full: seq<TxnRow>, x: seq<TxnRow>, y: seq<TxnRow>, m: int, all: bool)
    requires |x| == |y|
    requires forall i | 0 <= i < |x| ::
      if all then !PendingFor(y[i], m) else (PendingFor(x[i], m) <==> PendingFor(y[i], m))
    requires forall i | 0 <= i < |x| :: SameTxn(x[i], y[i])
    ensures Owing(full, y, m) == if all then 0 else Owing(full, x, m)
  {
    if x != [] {
      assert forall i | 0 <= i < |Front(x)| :: Front(x)[i] == x[i] && Front(y)[i] == y[i];
      OwingMarked(full, Front(x), Front(y), m, all);
    }
  }

  lemma {:induction false} OwingAppend(full: seq<TxnRow>, x: seq<TxnRow>, rows: seq<TxnRow>, m: int)
    requires forall i | 0 <= i < |rows| :: !PendingFor(rows[i], m)
    ensures Owing(full, x + rows, m) == Owing(full, x, m)
  {
    if rows == [] {
      assert x + rows == x;
    } else {
      assert Front(x + rows) == x + Front(rows) && Last(x + rows) == Last(rows);
      OwingAppend(full, x, Front(rows), m);
    }
  }

  // ---------- the invariant ----------

  /** No payment to the merchant comes from the merchant itself. */
  predicate SourcesApart(journal: seq<TxnRow>, m: int) {
    forall i | 0 <= i < |journal| && journal[i].kind.Payment? ::
      PairShape(journal[i].legs) && (journal[i].legs[1].account == m ==> journal[i].legs[0].account != m)
  }

  predicate Solvent(db: Db, m: int) {
    && m in db.accounts && !db.accounts[m].allowNegative
    && SourcesApart(db.journal, m)
    && db.accounts[m].balance >= Owing(db.journal, db.journal, m)
    && db.accounts[m].balance >= 0
  }

  /** The account is neither a payout rail nor an FX desk. */
  predicate Ordinary(cfg: Config, m: int) { m !in cfg.payout.Values && m !in cfg.fxDesk.Values }

  /** Operations that debit the merchant only by settlement and by refunds of its unsettled
      payments. */
  predicate Friendly(db: Db, op: Op, m: int) {
    match op
    case PostOp(_, req, _) =>
      (match req
       case TransferReq(from, _, _, _) => from != m
       case PaymentReq(source, _, _, _) => source != m
       case RefundReq(payment, _) =>
         var p := Find(db.journal, payment);
         p.Some? && PairShape(p.value.legs) && p.value.legs[1].account == m ==> !p.value.settled
       case FxReq(from, _, _, _) => from != m
       case JournalReq(legs) => m !in Accounts(legs))
    case ReplayOp(_, _, _) => true
    case SettleOp(_, _, _) => true
  }

  predicate FriendlyRun(cfg: Config, init: Db, log: seq<Op>, m: int)
    requires Run(cfg, init, log).Ok?
  {
    log == [] || (FriendlyRun(cfg, init, Front(log), m) && Friendly(Run(cfg, init, Front(log)).value, Last(log), m))
  }

  /** A credit that is accepted does not wrap. */
  lemma CreditExact(balance: int, amount: int)
    requires 0 <= balance <= MAX && 0 <= amount <= MAX && Wrap(balance + amount) >= 0
    ensures Wrap(balance + amount) == balance + amount
  {}

  /** What a friendly entry, other than a refund of the merchant's own payment, does to it. */
  lemma EntryCredits(cfg: Config, db: Db, req: Request, m: int, txn: int, key: string)
    requires Build(cfg, db, req).Ok? && Ordinary(cfg, m) && Friendly(db, PostOp(key, req, txn), m)
    requires !req.RefundReq?
    ensures var legs := Build(cfg, db, req).value.entry.legs;
            0 <= AccountSum(legs, m) <= MAX
    ensures req.PaymentReq? ==>
      AccountSum(Build(cfg, db, req).value.entry.legs, m) == if req.merchant == m then req.amount else 0
  {
    var legs := Build(cfg, db, req).value.entry.legs;
    if req.JournalReq? {
      AccountSumOff(legs, m);
    } else if req.FxReq? {
      FourLegs(legs);
      assert cfg.fxDesk[db.accounts[req.from].currency] in cfg.fxDesk.Values;
      assert cfg.fxDesk[db.accounts[req.to].currency] in cfg.fxDesk.Values;
    } else {
      PairSums(legs[0], legs[1]);
      assert legs == [legs[0], legs[1]];
    }
  }

  /** What a row has done to a no-negative account. */
  predicate RowOn(db: Db, after: Db, row: TxnRow, m: int)
    requires m in db.accounts
  {
    && after.journal == db.journal + [row] && m in after.accounts && !after.accounts[m].allowNegative
    && after.accounts[m].balance >= 0
    && after.accounts[m].balance == Wrap(db.accounts[m].balance + AccountSum(row.legs, m))
  }

  lemma RowOnAccount(db: Db, after: Db, row: TxnRow, m: int)
    requires PostedRow(db, after, row) && m in db.accounts
    requires !db.accounts[m].allowNegative && db.accounts[m].balance >= 0
    ensures RowOn(db, after, row, m)
  {}

  /** After a posting a no-negative account is still not negative. */
  lemma PostedBalance(cfg: Config, db: Db, key: string, req: Request, txn: int, m: int) returns (row: TxnRow)
    requires Apply(cfg, db, PostOp(key, req, txn)).Ok? && m in db.accounts && !db.accounts[m].allowNegative
    requires db.accounts[m].balance >= 0
    ensures Build(cfg, db, req).Ok? && row == RowOf(Build(cfg, db, req).value.entry, txn)
    ensures RowOn(db, Apply(cfg, db, PostOp(key, req, txn)).value, row, m)
  {
    var e := PostHasEffect(cfg, db, key, req, txn);
    row := RowOf(e, txn);
    RowOnAccount(db, Apply(cfg, db, PostOp(key, req, txn)).value, row, m);
  }

  lemma SourcesAppend(db: Db, row: TxnRow, m: int)
    requires SourcesApart(db.journal, m)
    requires row.kind.Payment? ==> PairShape(row.legs) && row.legs[0].account != m
    ensures SourcesApart(db.journal + [row], m)
  {}

  lemma OwingPosted(journal: seq<TxnRow>, row: TxnRow, m: int)
    requires !row.kind.Refund?
    ensures Owing(journal + [row], journal + [row], m)
         <= Owing(journal, journal, m) + (if PendingFor(row, m) then row.legs[1].amount else 0)
  {
    forall i | 0 <= i < |journal| ensures Refunded(journal + [row], journal[i].id) == Refunded(journal, journal[i].id) {
      RefundedAppend(journal, [row], journal[i].id);
    }
    OwingFrame(journal + [row], journal, journal, m);
    AppendRow(journal, row);
  }

  /** Postings other than refunds keep a merchant solvent. */
  lemma PostKeepsSolvent(cfg: Config, db: Db, key: string, req: Request, txn: int, m: int)
    requires GoodDb(db) && Solvent(db, m) && Ordinary(cfg, m) && !req.RefundReq?
    requires Apply(cfg, db, PostOp(key, req, txn)).Ok? && Friendly(db, PostOp(key, req, txn), m)
    ensures Solvent(Apply(cfg, db, PostOp(key, req, txn)).value, m)
  {
    var row := PostedBalance(cfg, db, key, req, txn, m);
    BuildShape(cfg, db, req);
    EntryCredits(cfg, db, req, m, txn, key);
    Credited(db, Apply(cfg, db, PostOp(key, req, txn)).value, row, m);
  }

  lemma Credited(db: Db, after: Db, row: TxnRow, m: int)
    requires Solvent(db, m) && !row.kind.Refund? && RowOn(db, after, row, m)
    requires 0 <= AccountSum(row.legs, m) <= MAX
    requires row.kind.Payment? ==> PairShape(row.legs) && row.legs[0].account != m
    ensures Solvent(after, m)
  {
    CreditExact(db.accounts[m].balance, AccountSum(row.legs, m));
    SourcesAppend(db, row, m);
    OwingPosted(db.journal, row, m);
    if PendingFor(row, m) {
      PairSums(row.legs[0], row.legs[1]);
      assert row.legs == [row.legs[0], row.legs[1]];
    }
  }

  lemma RefundRows(db: Db, row: TxnRow, payment: int, amount: int, i: nat)
    requires GoodDb(db) && i < |db.journal| && row.kind.Refund? && row.refTxn == Some(payment)
    requires PairShape(row.legs) && row.legs[1].amount == amount
    ensures Refunded(db.journal + [row], db.journal[i].id)
         == Refunded(db.journal, db.journal[i].id) + (if db.journal[i].id == payment then amount else 0)
  {
    AppendRow(db.journal, row);
    PairDebits(row.legs);
  }

  lemma OwingRefunded(db: Db, row: TxnRow, k: nat, m: int)
    requires GoodDb(db) && k < |db.journal| && row.kind.Refund? && row.refTxn == Some(db.journal[k].id)
    requires PairShape(row.legs) && PairShape(db.journal[k].legs)
    requires db.journal[k].legs[1].account == m ==> PendingFor(db.journal[k], m)
    ensures Owing(db.journal + [row], db.journal + [row], m)
         == Owing(db.journal, db.journal, m) - (if db.journal[k].legs[1].account == m then row.legs[1].amount else 0)
  {
    var y := db.journal + [row];
    forall i | 0 <= i < |db.journal|
      ensures Refunded(y, db.journal[i].id)
           == Refunded(db.journal, db.journal[i].id)
             + (if db.journal[i].id == db.journal[k].id then row.legs[1].amount else 0) {
      RefundRows(db, row, db.journal[k].id, row.legs[1].amount, i);
    }
    AppendRow(db.journal, row);
    if db.journal[k].legs[1].account == m {
      OwingRefund(db.journal, y, db.journal, m, k, row.legs[1].amount);
    } else {
      forall i | 0 <= i < |db.journal| && PendingFor(db.journal[i], m)
        ensures Refunded(y, db.journal[i].id) == Refunded(db.journal, db.journal[i].id) {
        assert i != k && db.journal[i].id != db.journal[k].id;
      }
      OwingFrame(y, db.journal, db.journal, m);
    }
  }

  /** The refunded payment, and the legs of the refund. */
  lemma RefundParts(cfg: Config, db: Db, payment: int, amount: Minor, txn: int, m: int, row: TxnRow) returns (k: nat)
    requires GoodDb(db) && SourcesApart(db.journal, m) && Build(cfg, db, RefundReq(payment, amount)).Ok?
    requires row == RowOf(Build(cfg, db, RefundReq(payment, amount)).value.entry, txn)
    requires Friendly(db, PostOp("", RefundReq(payment, amount), txn), m)
    ensures k < |db.journal| && row.kind.Refund? && row.refTxn == Some(db.journal[k].id)
    ensures PairShape(row.legs) && PairShape(db.journal[k].legs) && row.legs[1].amount > 0
    ensures db.journal[k].legs[1].account == m ==> PendingFor(db.journal[k], m)
    ensures var d := db.journal[k].legs[1].account == m;
            && (d ==> AccountSum(row.legs, m) == 0 - row.legs[1].amount)
            && (!d ==> 0 <= AccountSum(row.legs, m) <= MAX)
  {
    BuildShape(cfg, db, RefundReq(payment, amount));
    assert ReversesPayment(db.journal, row);
    k := FindIndex(db.journal, payment);
    assert RowOk(db.accounts, db.journal, db.journal[k]);
    PairSums(row.legs[0], row.legs[1]);
    assert row.legs == [row.legs[0], row.legs[1]];
  }

  /** A refund of one of the merchant's unsettled payments lowers balance and debt alike; a
      refund of somebody else's payment may credit it. */
  lemma RefundKeepsSolvent(cfg: Config, db: Db, key: string, payment: int, amount: Minor, txn: int, m: int)
    requires GoodDb(db) && Solvent(db, m)
    requires Apply(cfg, db, PostOp(key, RefundReq(payment, amount), txn)).Ok?
    requires Friendly(db, PostOp(key, RefundReq(payment, amount), txn), m)
    ensures Solvent(Apply(cfg, db, PostOp(key, RefundReq(payment, amount), txn)).value, m)
  {
    var row := PostedBalance(cfg, db, key, RefundReq(payment, amount), txn, m);
    var k := RefundParts(cfg, db, payment, amount, txn, m, row);
    Debited(db, Apply(cfg, db, PostOp(key, RefundReq(payment, amount), txn)).value, row, k, m);
  }

  lemma Debited(db: Db, after: Db, row: TxnRow, k: nat, m: int)
    requires GoodDb(db) && Solvent(db, m) && RowOn(db, after, row, m)
    requires k < |db.journal| && row.kind.Refund? && row.refTxn == Some(db.journal[k].id)
    requires PairShape(row.legs) && PairShape(db.journal[k].legs) && row.legs[1].amount > 0
    requires db.journal[k].legs[1].account == m ==> PendingFor(db.journal[k], m)
    requires var d := db.journal[k].legs[1].account == m;
            && (d ==> AccountSum(row.legs, m) == 0 - row.legs[1].amount)
            && (!d ==> 0 <= AccountSum(row.legs, m) <= MAX)
    ensures Solvent(after, m)
  {
    SourcesAppend(db, row, m);
    OwingRefunded(db, row, k, m);
    if db.journal[k].legs[1].account != m {
      CreditExact(db.accounts[m].balance, AccountSum(row.legs, m));
    }
  }

  // ---------- a batch ----------

  lemma RefundedAfterBatch(db: Db, after: Db, b: Batching, marked: set<int>, batch: int, p: int)
    requires BatchEffect(db, after, b, marked, batch)
    ensures Refunded(after.journal, p) == Refunded(db.journal, p)
  {
    MarkQueries(db.journal, marked, batch, p, 0, "");
    RefundedAppend(Mark(db.journal, marked, batch), b.rows, p);
  }

  /** A batch settles all of a merchant's pending payments if it covers the merchant, and
      leaves them alone otherwise. */
  lemma OwingAfterBatch(db: Db, after: Db, b: Batching, merchants: set<int>, batch: int, m: int)
    requires GoodDb(db) && BatchEffect(db, after, b, PendIds(Pendings(db.journal, merchants)), batch)
    ensures Owing(after.journal, after.journal, m) == if m in merchants then 0 else Owing(db.journal, db.journal, m)
  {
    var marked := PendIds(Pendings(db.journal, merchants));
    var x, y := db.journal, Mark(db.journal, marked, batch);
    forall i | 0 <= i < |y| ensures Refunded(after.journal, y[i].id) == Refunded(x, y[i].id) {
      RefundedAfterBatch(db, after, b, marked, batch, y[i].id);
    }
    OwingAppend(after.journal, y, b.rows, m);
    OwingFrame(after.journal, x, y, m);
    forall i | 0 <= i < |x|
      ensures if m in merchants then !PendingFor(y[i], m) else (PendingFor(x[i], m) <==> PendingFor(y[i], m)) {
      MarkedIff(db, merchants, i);
      assert y[i] == MarkRow(x[i], marked, batch);
    }
    OwingMarked(x, x, y, m, m in merchants);
  }

  lemma SourcesAfterBatch(db: Db, after: Db, b: Batching, marked: set<int>, batch: int, m: int)
    requires BatchEffect(db, after, b, marked, batch) && SourcesApart(db.journal, m)
    ensures SourcesApart(after.journal, m)
  {}

  lemma {:induction false} NothingReceived(nets: seq<Net>, payouts: map<Currency, int>, m: int)
    requires forall i | 0 <= i < |nets| :: PayoutOf(payouts, nets[i].currency) != m
    ensures ReceivedNets(nets, payouts, m) == 0
  {
    if nets != [] {
      assert forall i | 0 <= i < |Front(nets)| :: Front(nets)[i] == nets[i];
      NothingReceived(Front(nets), payouts, m);
    }
  }

  lemma RailsApart(cfg: Config, db: Db, merchants: set<int>, m: int)
    requires GoodDb(db) && Ordinary(cfg, m) && CurrenciesOf(db.accounts, merchants) <= cfg.payout.Keys
    ensures var payouts := PayoutMap(cfg, CurrenciesOf(db.accounts, merchants));
            var nets := NetsOf(db.journal, Pendings(db.journal, merchants));
            forall i | 0 <= i < |nets| :: PayoutOf(payouts, nets[i].currency) != m
  {
    NetsCovered(cfg, db, merchants);
    var payouts := PayoutMap(cfg, CurrenciesOf(db.accounts, merchants));
    var nets := NetsOf(db.journal, Pendings(db.journal, merchants));
    forall i | 0 <= i < |nets| ensures PayoutOf(payouts, nets[i].currency) != m {
      assert cfg.payout[nets[i].currency] in cfg.payout.Values;
    }
  }

  /** The rows of a batch debit an ordinary account by what it is paid, and credit it nothing. */
  lemma OnlyPaid(cfg: Config, db: Db, merchants: set<int>, b: Batching, txns: seq<int>, m: int)
    requires GoodDb(db) && Ordinary(cfg, m) && CurrenciesOf(db.accounts, merchants) <= cfg.payout.Keys
    requires PayAll(db.accounts, PayoutMap(cfg, CurrenciesOf(db.accounts, merchants)),
                    NetsOf(db.journal, Pendings(db.journal, merchants)), txns) == Ok(b)
    ensures PostingSum(b.rows, m) == 0 - PaidBy(b.rows, m)
    ensures m !in merchants ==> PaidBy(b.rows, m) == 0
  {
    var payouts := PayoutMap(cfg, CurrenciesOf(db.accounts, merchants));
    var nets := NetsOf(db.journal, Pendings(db.journal, merchants));
    PayAllSums(db.accounts, payouts, nets, txns, m);
    RailsApart(cfg, db, merchants, m);
    NothingReceived(nets, payouts, m);
    if m !in merchants {
      NetsCovered(cfg, db, merchants);
      NotPaid(nets, m);
    }
  }

  /** What the rows of a batch do to an ordinary account: it is paid what it is owed. */
  lemma BatchDebits(cfg: Config, db: Db, merchants: set<int>, batch: int, txns: seq<int>, m: int) returns (b: Batching)
    requires GoodDb(db) && Ordinary(cfg, m) && Apply(cfg, db, SettleOp(merchants, batch, txns)).Ok?
    ensures BatchEffect(db, Apply(cfg, db, SettleOp(merchants, batch, txns)).value, b,
                        PendIds(Pendings(db.journal, merchants)), batch)
    ensures PostingSum(b.rows, m) == if m in merchants then 0 - Floor(Owing(db.journal, db.journal, m)) else 0
  {
    b := BatchPaysDue(cfg, db, merchants, batch, txns, m);
    OnlyPaid(cfg, db, merchants, b, txns, m);
    if m in merchants { WorthIsOwing(db.accounts, db.journal, db.journal, merchants, m); }
  }

  lemma BatchBalance(db: Db, after: Db, b: Batching, marked: set<int>, batch: int, m: int)
    requires BatchEffect(db, after, b, marked, batch) && m in db.accounts
    ensures m in after.accounts && after.accounts[m].allowNegative == db.accounts[m].allowNegative
    ensures after.accounts[m].balance == Wrap(db.accounts[m].balance + PostingSum(b.rows, m))
  {}

  /** A batch leaves a solvent merchant with exactly the surplus over what it was owed. */
  lemma SettleKeepsSolvent(cfg: Config, db: Db, merchants: set<int>, batch: int, txns: seq<int>, m: int)
    requires GoodDb(db) && Solvent(db, m) && Ordinary(cfg, m)
    requires Apply(cfg, db, SettleOp(merchants, batch, txns)).Ok?
    ensures var after := Apply(cfg, db, SettleOp(merchants, batch, txns)).value;
            && Solvent(after, m)
            && after.accounts[m].balance
               == db.accounts[m].balance - (if m in merchants then Floor(Owing(db.journal, db.journal, m)) else 0)
            && (m in merchants ==> Owing(after.journal, after.journal, m) == 0)
  {
    var b := BatchDebits(cfg, db, merchants, batch, txns, m);
    var after := Apply(cfg, db, SettleOp(merchants, batch, txns)).value;
    OwingAfterBatch(db, after, b, merchants, batch, m);
    SourcesAfterBatch(db, after, b, PendIds(Pendings(db.journal, merchants)), batch, m);
    BatchBalance(db, after, b, PendIds(Pendings(db.journal, merchants)), batch, m);
  }

  /** Over every friendly run, the merchant's balance covers the sum of its pending nets. */
  lemma {:induction false} RunSolvent(cfg: Config, init: Db, log: seq<Op>, m: int)
    requires InitDb(init) && Run(cfg, init, log).Ok?
    requires m in init.accounts && !init.accounts[m].allowNegative && Ordinary(cfg, m)
    requires FriendlyRun(cfg, init, log, m)
    ensures Solvent(Run(cfg, init, log).value, m)
  {
    if log != [] {
      RunKeepsGood(cfg, init, Front(log));
      RunSolvent(cfg, init, Front(log), m);
      StepSolvent(cfg, Run(cfg, init, Front(log)).value, Last(log), m);
    }
  }

  lemma StepSolvent(cfg: Config, db: Db, op: Op, m: int)
    requires GoodDb(db) && Solvent(db, m) && Ordinary(cfg, m) && Friendly(db, op, m) && Apply(cfg, db, op).Ok?
    ensures Solvent(Apply(cfg, db, op).value, m)
  {
    match op
    case PostOp(key, req, txn) =>
      if req.RefundReq? {
        RefundKeepsSolvent(cfg, db, key, req.payment, req.amount, txn, m);
      } else {
        PostKeepsSolvent(cfg, db, key, req, txn, m);
      }
    case ReplayOp(_, _, _) =>
    case SettleOp(merchants, batch, txns) => SettleKeepsSolvent(cfg, db, merchants, batch, txns, m);
  }
}
