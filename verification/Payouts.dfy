/** A settlement over solvent merchants is never rejected. */
module Payouts {
  import opened Wrappers
  import opened Int64
  import opened Money
  import opened Ledger
  import opened Database
  import opened Posting
  import opened Settlement
  import opened Serial
  import opened Evolution
  import opened Balances
  import opened PaidOnce
  import opened Solvency

  /** Payments carry known currencies: they passed Validate. */
  predicate KnownCurrencies(journal: seq<TxnRow>) {
    forall i | 0 <= i < |journal| && journal[i].kind.Payment? ::
      PairShape(journal[i].legs) && IsSupported(journal[i].legs[1].currency)
  }

  lemma PostKeepsKnown(cfg: Config, db: Db, key: string, req: Request, txn: int)
    requires GoodDb(db) && KnownCurrencies(db.journal) && Apply(cfg, db, PostOp(key, req, txn)).Ok?
    ensures KnownCurrencies(Apply(cfg, db, PostOp(key, req, txn)).value.journal)
  {
    BuildShape(cfg, db, req);
    ValidateAccepts(Build(cfg, db, req).value.entry.legs);
  }

  lemma BatchKeepsKnown(db: Db, after: Db, b: Batching, marked: set<int>, batch: int)
    requires BatchEffect(db, after, b, marked, batch) && KnownCurrencies(db.journal)
    ensures KnownCurrencies(after.journal)
  {}

  lemma {:induction false} RunKnown(cfg: Config, init: Db, log: seq<Op>)
    requires InitDb(init) && Run(cfg, init, log).Ok?
    ensures KnownCurrencies(Run(cfg, init, log).value.journal)
  {
    if log != [] {
      RunKnown(cfg, init, Front(log));
      RunKeepsGood(cfg, init, Front(log));
      var db := Run(cfg, init, Front(log)).value;
      match Last(log)
      case PostOp(key, req, txn) => PostKeepsKnown(cfg, db, key, req, txn);
      case ReplayOp(_, _, _) =>
      case SettleOp(merchants, batch, txns) =>
        var b := SettleHasEffect(cfg, db, merchants, batch, txns);
        BatchKeepsKnown(db, Run(cfg, init, log).value, b, PendIds(Pendings(db.journal, merchants)), batch);
    }
  }

  /** Every payout rail exists, has its currency and may go negative, as provisioned. */
  predicate RailsOk(cfg: Config, accounts: map<int, Account>) {
    forall c | c in cfg.payout ::
      && cfg.payout[c] in accounts && accounts[cfg.payout[c]].currency == c && accounts[cfg.payout[c]].allowNegative
  }

  /** A payout of at most the merchant's balance is accepted. */
  lemma PayoutAccepted(view: map<int, Account>, m: int, rail: int, x: Minor, c: Currency)
    requires m in view && rail in view && m != rail && 0 < x <= view[m].balance && IsSupported(c)
    requires view[m].currency == c && view[rail].currency == c && view[rail].allowNegative
    ensures CheckPost(view, Pair(m, rail, x, c), Ok(())).Ok?
  {
    var legs := Pair(m, rail, x, c);
    PairValid(m, rail, x, c);
    PairSums(legs[0], legs[1]);
    NewBalanceExact(view[m], legs, m);
  }

  /** A batch over merchants that can all pay. */
  ghost predicate Payable(cfg: Config, db: Db, merchants: set<int>) {
    && GoodDb(db) && KnownCurrencies(db.journal)
    && RailsOk(cfg, db.accounts) && CurrenciesOf(db.accounts, merchants) <= cfg.payout.Keys
    && forall m | m in merchants :: Solvent(db, m) && Ordinary(cfg, m)
  }

  function NetsFor(db: Db, merchants: set<int>): seq<Net> { NetsOf(db.journal, Pendings(db.journal, merchants)) }

  function PayoutsFor(cfg: Config, db: Db, merchants: set<int>): map<Currency, int> {
    PayoutMap(cfg, CurrenciesOf(db.accounts, merchants))
  }

  /** A merchant has one net, equal to what it is owed, so covered by its balance. */
  lemma NetIsCovered(cfg: Config, db: Db, merchants: set<int>, k: nat)
    requires Payable(cfg, db, merchants) && k < |NetsFor(db, merchants)|
    ensures var n := NetsFor(db, merchants)[k];
            && n.merchant in merchants && n.merchant in db.accounts && n.net <= db.accounts[n.merchant].balance
  {
    var pends, nets := Pendings(db.journal, merchants), NetsFor(db, merchants);
    var n := nets[k];
    NetsCovered(cfg, db, merchants);
    NetsAreGroupSums(db.journal, pends, n.merchant, n.currency);
    NetForRow(nets, k);
    forall i | 0 <= i < |pends| && pends[i].merchant == n.merchant ensures pends[i].currency == n.currency {
      var j := PendingsSource(db.accounts, db.journal, db.journal, merchants, i);
    }
    WorthIsGroup(db.journal, pends, n.merchant, n.currency);
    WorthIsOwing(db.accounts, db.journal, db.journal, merchants, n.merchant);
    assert Solvent(db, n.merchant);
  }

  lemma NetIsKnown(cfg: Config, db: Db, merchants: set<int>, k: nat)
    requires Payable(cfg, db, merchants) && k < |NetsFor(db, merchants)|
    ensures IsSupported(NetsFor(db, merchants)[k].currency)
  {
    var pends := Pendings(db.journal, merchants);
    var n := NetsFor(db, merchants)[k];
    NetsAreGroupSums(db.journal, pends, n.merchant, n.currency);
    assert IsFor(n, n.merchant, n.currency);
    var i :| 0 <= i < |pends| && pends[i].merchant == n.merchant && pends[i].currency == n.currency;
    var j := PendingsSource(db.accounts, db.journal, db.journal, merchants, i);
  }

  lemma OneNetEach(cfg: Config, db: Db, merchants: set<int>, i: nat, k: nat)
    requires Payable(cfg, db, merchants) && i < k < |NetsFor(db, merchants)|
    ensures NetsFor(db, merchants)[i].merchant != NetsFor(db, merchants)[k].merchant
  {
    NetsCovered(cfg, db, merchants);
    NetsAreGroupSums(db.journal, Pendings(db.journal, merchants), 0, "");
  }

  /** Until its own payout the loop leaves a merchant's balance alone. */
  lemma NotYetTouched(cfg: Config, db: Db, merchants: set<int>, k: nat, ids: seq<int>)
    requires Payable(cfg, db, merchants) && k < |NetsFor(db, merchants)|
    requires PayAll(db.accounts, PayoutsFor(cfg, db, merchants), NetsFor(db, merchants)[..k], ids).Ok?
    ensures var b := PayAll(db.accounts, PayoutsFor(cfg, db, merchants), NetsFor(db, merchants)[..k], ids).value;
            var m := NetsFor(db, merchants)[k].merchant;
            m in db.accounts && Overlay(db.accounts, b.writes)[m].balance == db.accounts[m].balance
  {
    var nets, payouts := NetsFor(db, merchants), PayoutsFor(cfg, db, merchants);
    var m := nets[k].merchant;
    NetIsCovered(cfg, db, merchants, k);
    PayAllEffect(db.accounts, payouts, nets[..k], ids);
    PayAllSums(db.accounts, payouts, nets[..k], ids, m);
    RailsApart(cfg, db, merchants, m);
    NothingReceived(nets[..k], payouts, m);
    forall i | 0 <= i < k ensures nets[..k][i].merchant != m { OneNetEach(cfg, db, merchants, i, k); }
    NotPaid(nets[..k], m);
  }

  lemma NextPayout(cfg: Config, db: Db, merchants: set<int>, k: nat, ids: seq<int>, b: Batching)
    requires Payable(cfg, db, merchants) && k < |NetsFor(db, merchants)|
    requires PayAll(db.accounts, PayoutsFor(cfg, db, merchants), NetsFor(db, merchants)[..k], ids) == Ok(b)
    requires InRange(NetsFor(db, merchants)[k].net)
    ensures forall id: int :: PayOne(db.accounts, b, PayoutsFor(cfg, db, merchants), NetsFor(db, merchants)[k], id).Ok?
  {
    var n := NetsFor(db, merchants)[k];
    NetIsCovered(cfg, db, merchants, k);
    NetIsKnown(cfg, db, merchants, k);
    NotYetTouched(cfg, db, merchants, k, ids);
    NetsCovered(cfg, db, merchants);
    if n.net > 0 {
      PayoutAccepted(Overlay(db.accounts, b.writes), n.merchant, cfg.payout[n.currency], n.net, n.currency);
    }
  }

  /** Every payout of the batch is accepted. */
  lemma {:induction false} AllPayoutsAccepted(cfg: Config, db: Db, merchants: set<int>, k: nat, ids: seq<int>)
    requires Payable(cfg, db, merchants) && k <= |NetsFor(db, merchants)| && Scannable(NetsFor(db, merchants))
    ensures PayAll(db.accounts, PayoutsFor(cfg, db, merchants), NetsFor(db, merchants)[..k], ids).Ok?
  {
    var nets, payouts := NetsFor(db, merchants), PayoutsFor(cfg, db, merchants);
    if k > 0 {
      AllPayoutsAccepted(cfg, db, merchants, k - 1, ids);
      assert Front(nets[..k]) == nets[..k - 1] && Last(nets[..k]) == nets[k - 1];
      NextPayout(cfg, db, merchants, k - 1, ids, PayAll(db.accounts, payouts, nets[..k - 1], ids).value);
    }
  }

  lemma RailsExist(cfg: Config, db: Db, merchants: set<int>)
    requires RailsOk(cfg, db.accounts) && merchants <= db.accounts.Keys
    ensures LockSet(merchants, PayoutsFor(cfg, db, merchants)) <= db.accounts.Keys
  {}

  /** The batch is accepted if and only if every net is an int64 and it has one id for each
      merchant that is owed something. */
  lemma BatchAccepted(cfg: Config, db: Db, merchants: set<int>, batch: int, txns: seq<int>)
    requires Payable(cfg, db, merchants) && batch !in db.batches && FreshIds(db.journal, txns)
    ensures var nets := NetsFor(db, merchants);
            Apply(cfg, db, SettleOp(merchants, batch, txns)).Ok? <==> Scannable(nets) && |txns| == Positive(nets)
  {
    var nets, payouts := NetsFor(db, merchants), PayoutsFor(cfg, db, merchants);
    var paid := PayAll(db.accounts, payouts, nets, txns);
    if Scannable(nets) {
      AllPayoutsAccepted(cfg, db, merchants, |nets|, txns);
      assert nets[..|nets|] == nets;
    }
    if paid.Ok? { PayAllCount(db.accounts, payouts, nets, txns); }
    assert merchants <= db.accounts.Keys by {
      forall m | m in merchants ensures m in db.accounts { assert Solvent(db, m); }
    }
    RailsExist(cfg, db, merchants);
  }

  /** Provisioned rails, and merchants that were debited only by settlement and by refunds of
      unsettled payments. */
  predicate FriendlyMerchants(cfg: Config, init: Db, log: seq<Op>, merchants: set<int>)
    requires Run(cfg, init, log).Ok?
  {
    && (forall m | m in merchants ::
          m in init.accounts && !init.accounts[m].allowNegative && Ordinary(cfg, m) && FriendlyRun(cfg, init, log, m))
    && RailsOk(cfg, Run(cfg, init, log).value.accounts)
    && CurrenciesOf(Run(cfg, init, log).value.accounts, merchants) <= cfg.payout.Keys
  }

  lemma FriendlyArePayable(cfg: Config, init: Db, log: seq<Op>, merchants: set<int>)
    requires InitDb(init) && Run(cfg, init, log).Ok? && FriendlyMerchants(cfg, init, log, merchants)
    ensures Payable(cfg, Run(cfg, init, log).value, merchants)
  {
    RunKeepsGood(cfg, init, log);
    RunKnown(cfg, init, log);
    forall m | m in merchants ensures Solvent(Run(cfg, init, log).value, m) && Ordinary(cfg, m) {
      RunSolvent(cfg, init, log, m);
    }
  }

  /** In every reachable state, a batch over merchants whose history is friendly, with new ids
      for its payouts, is accepted if and only if every net is an int64: never is one rejected
      for insufficient funds. */
  lemma SettlementAccepted(cfg: Config, init: Db, log: seq<Op>, merchants: set<int>, batch: int, txns: seq<int>)
    requires InitDb(init) && Run(cfg, init, log).Ok? && FriendlyMerchants(cfg, init, log, merchants)
    requires batch !in Run(cfg, init, log).value.batches && FreshIds(Run(cfg, init, log).value.journal, txns)
    ensures var db := Run(cfg, init, log).value;
            var nets := NetsFor(db, merchants);
            Apply(cfg, db, SettleOp(merchants, batch, txns)).Ok? <==> Scannable(nets) && |txns| == Positive(nets)
  {
    FriendlyArePayable(cfg, init, log, merchants);
    BatchAccepted(cfg, Run(cfg, init, log).value, merchants, batch, txns);
  }
}
