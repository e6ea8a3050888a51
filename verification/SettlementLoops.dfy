/** The loops of a settlement (internal/store/settlement.go) and what they add up to. */
module SettlementLoops {
  import opened Wrappers
  import opened Int64
  import opened Money
  import opened Ledger
  import opened Database
  import opened Posting
  import opened Settlement
  import opened Serial

  // ---------- candidates, payout accounts and lock order ----------

  /** unionSortedIDs: the map of payouts in any order, each id once, ascending. */
  method UnionSortedIds(merchants: seq<int>, payouts: map<Currency, int>) returns (ids: seq<int>)
    ensures ids == SortedIds(LockSet(Elements(merchants), payouts))
  {
    ids := [];
    for i := 0 to |merchants|
      invariant Elements(ids) == Elements(merchants[..i])
    {
      ElementsStep(merchants, i);
      ids := AddId(ids, merchants[i]);
    }
    assert merchants[..|merchants|] == merchants;
    ids := AddIds(ids, payouts.Values);
    ids := SortAscending(ids);
  }

  method AddId(ids: seq<int>, id: int) returns (r: seq<int>)
    ensures Elements(r) == Elements(ids) + {id}
  {
    r := if id in ids then ids else ids + [id];
  }

  method AddIds(ids: seq<int>, more: set<int>) returns (r: seq<int>)
    ensures Elements(r) == Elements(ids) + more
  {
    r := ids;
    var todo := more;
    while todo != {}
      invariant todo <= more && Elements(r) == Elements(ids) + (more - todo)
    {
      ghost var _ := Pick(todo);
      var p :| p in todo;
      r := AddId(r, p);
      todo := todo - {p};
    }
  }

  /** The payout account of each currency, looked up one by one. */
  method ResolvePayouts(cfg: Config, currencies: set<Currency>) returns (r: Result<map<Currency, int>, LedgerError>)
    ensures r == if currencies <= cfg.payout.Keys then Ok(PayoutMap(cfg, currencies)) else Err(NoPayoutAccount)
  {
    var payouts: map<Currency, int> := map[];
    var todo := currencies;
    while todo != {}
      invariant todo <= currencies && currencies - todo <= cfg.payout.Keys
      invariant payouts == PayoutMap(cfg, currencies - todo)
    {
      var c :| c in todo;
      if c !in cfg.payout {
        return Err(NoPayoutAccount);
      }
      payouts := payouts[c := cfg.payout[c]];
      todo := todo - {c};
    }
    assert currencies - {} == currencies;
    return Ok(payouts);
  }

  predicate HasCurrency(rows: seq<Net>, c: Currency) { exists k | 0 <= k < |rows| :: rows[k].currency == c }

  ghost predicate Split(rows: seq<Net>, merchants: seq<int>, currencies: set<Currency>) {
    && |merchants| == |rows| && (forall k | 0 <= k < |rows| :: merchants[k] == rows[k].merchant)
    && (forall k | 0 <= k < |rows| :: rows[k].currency in currencies)
    && (forall c | c in currencies :: HasCurrency(rows, c))
  }

  /** The row loop of candidateMerchants. */
  method SplitRows(rows: seq<Net>) returns (merchants: seq<int>, currencies: set<Currency>)
    ensures Split(rows, merchants, currencies)
  {
    merchants, currencies := [], {};
    for i := 0 to |rows|
      invariant Split(rows[..i], merchants, currencies)
    {
      ghost var before := currencies;
      merchants := merchants + [rows[i].merchant];
      currencies := currencies + {rows[i].currency};
      assert rows[..i + 1] == rows[..i] + [rows[i]];
      forall c | c in currencies ensures HasCurrency(rows[..i + 1], c) {
        if c in before {
          var k :| 0 <= k < i && rows[..i][k].currency == c;
          assert rows[..i + 1][k].currency == c;
        } else {
          assert rows[..i + 1][i].currency == c;
        }
      }
    }
    assert rows[..|rows|] == rows;
  }

  lemma CandidateOf(journal: seq<TxnRow>, pends: seq<Pend>, k: nat) returns (i: nat)
    requires k < |NetsOf(journal, pends)|
    ensures i < |pends| && IsFor(NetsOf(journal, pends)[k], pends[i].merchant, pends[i].currency)
  {
    var n := NetsOf(journal, pends)[k];
    NetsAreGroupSums(journal, pends, n.merchant, n.currency);
    assert IsFor(n, n.merchant, n.currency);
    i :| 0 <= i < |pends| && pends[i].merchant == n.merchant && pends[i].currency == n.currency;
  }

  lemma GroupOf(journal: seq<TxnRow>, pends: seq<Pend>, i: nat) returns (k: nat)
    requires i < |pends|
    ensures k < |NetsOf(journal, pends)| && IsFor(NetsOf(journal, pends)[k], pends[i].merchant, pends[i].currency)
  {
    NetsAreGroupSums(journal, pends, pends[i].merchant, pends[i].currency);
    k :| 0 <= k < |NetsOf(journal, pends)| && IsFor(NetsOf(journal, pends)[k], pends[i].merchant, pends[i].currency);
  }

  lemma MerchantsSplit(journal: seq<TxnRow>, pends: seq<Pend>, merchants: seq<int>, currencies: set<Currency>)
    requires Split(NetsOf(journal, pends), merchants, currencies)
    ensures Elements(merchants) == Merchants(pends)
  {
    forall m | m in Elements(merchants) ensures m in Merchants(pends) {
      var k :| 0 <= k < |merchants| && merchants[k] == m;
      var i := CandidateOf(journal, pends, k);
      assert pends[i].merchant == m;
    }
    forall m | m in Merchants(pends) ensures m in Elements(merchants) {
      var i :| 0 <= i < |pends| && pends[i].merchant == m;
      var k := GroupOf(journal, pends, i);
      assert merchants[k] == m;
    }
  }

  lemma CurrenciesSplit(journal: seq<TxnRow>, pends: seq<Pend>, merchants: seq<int>, currencies: set<Currency>)
    requires Split(NetsOf(journal, pends), merchants, currencies)
    ensures currencies == PendCurrencies(pends)
  {
    var rows := NetsOf(journal, pends);
    forall c | c in currencies ensures c in PendCurrencies(pends) {
      assert HasCurrency(rows, c);
      var k :| 0 <= k < |rows| && rows[k].currency == c;
      var i := CandidateOf(journal, pends, k);
      assert pends[i].currency == c;
    }
    forall c | c in PendCurrencies(pends) ensures c in currencies {
      var i :| 0 <= i < |pends| && pends[i].currency == c;
      var k := GroupOf(journal, pends, i);
      assert rows[k].currency == c;
    }
  }

  lemma SameIds(pends: seq<Pend>, ids: seq<int>)
    requires |ids| == |pends| && forall k | 0 <= k < |ids| :: ids[k] == pends[k].id
    ensures Elements(ids) == PendIds(pends)
  {}

  // ---------- the payout loop ----------

  lemma NetPrefix(nets: seq<Net>, k: nat)
    requires k < |nets|
    ensures Front(nets[..k + 1]) == nets[..k] && Last(nets[..k + 1]) == nets[k]
  {}

  /** The payout loop so far. */
  ghost predicate Paying(accounts: map<int, Account>, journal: seq<TxnRow>, payouts: map<Currency, int>, nets: seq<Net>,
                         k: nat, b: Batching, txns: seq<int>, first: int, now: Db)
  {
    && PaidOk(Db(accounts, journal, map[], map[]), payouts, nets, k, b, txns)
    && now.accounts == Overlay(accounts, b.writes) && now.journal == journal + b.rows
    && forall i | 0 <= i < |txns| :: txns[i] == first + i
  }

  lemma PaysOne(accounts: map<int, Account>, b: Batching, payouts: map<Currency, int>, n: Net, id: int,
                nb: map<int, Minor>)
    requires 0 < n.net <= MAX && CheckPost(Overlay(accounts, b.writes), PayoutLegs(payouts, n), Ok(())) == Ok(nb)
    ensures PayOne(accounts, b, payouts, n, id) == Ok(Batching(b.writes + nb, b.rows + [PayoutRow(payouts, n, id)]))
  {}

  lemma PaidNext(db: Db, payouts: map<Currency, int>, nets: seq<Net>, k: nat, b: Batching, txns: seq<int>, id: int,
                 nb: map<int, Minor>, r: Batching)
    requires PaidOk(db, payouts, nets, k, b, txns) && k < |nets| && 0 < nets[k].net <= MAX
    requires CheckPost(Overlay(db.accounts, b.writes), PayoutLegs(payouts, nets[k]), Ok(())) == Ok(nb)
    requires r == Batching(b.writes + nb, b.rows + [PayoutRow(payouts, nets[k], id)])
    ensures PaidOk(db, payouts, nets, k + 1, r, txns + [id])
  {
    PaysOne(db.accounts, b, payouts, nets[k], id, nb);
    PayMore(db, payouts, nets, k, b, txns, id, r);
  }

  lemma PayingNext(accounts: map<int, Account>, journal: seq<TxnRow>, payouts: map<Currency, int>, nets: seq<Net>,
                   k: nat, b: Batching, txns: seq<int>, first: int, now: Db, after: Db, nb: map<int, Minor>,
                   r: Batching, id: int)
    requires id == first + |txns| && Paying(accounts, journal, payouts, nets, k, b, txns, first, now)
    requires k < |nets| && 0 < nets[k].net <= MAX
    requires CheckPost(now.accounts, PayoutLegs(payouts, nets[k]), Ok(())) == Ok(nb)
    requires after.accounts == Overlay(now.accounts, nb)
    requires after.journal == now.journal + [PayoutRow(payouts, nets[k], id)]
    requires r == Batching(b.writes + nb, b.rows + [PayoutRow(payouts, nets[k], id)])
    ensures Paying(accounts, journal, payouts, nets, k + 1, r, txns + [id], first, after)
  {
    PaidNext(Db(accounts, journal, map[], map[]), payouts, nets, k, b, txns, id, nb, r);
    OverlayCompose(accounts, b.writes, nb);
  }

  lemma PayingStart(db: Db, payouts: map<Currency, int>, nets: seq<Net>, first: int)
    ensures Paying(db.accounts, db.journal, payouts, nets, 0, Batching(map[], []), [], first, db)
    ensures NetTotal(nets[..0]) == 0
  {}

  lemma NetTotalStep(nets: seq<Net>, k: nat)
    requires k < |nets|
    ensures NetTotal(nets[..k + 1])
            == if nets[k].net > 0 then Wrap(NetTotal(nets[..k]) + nets[k].net) else NetTotal(nets[..k])
  {
    NetPrefix(nets, k);
    WrapAdd(Outflow(nets[..k]), nets[k].net);
  }

  lemma PayingSkip(accounts: map<int, Account>, journal: seq<TxnRow>, payouts: map<Currency, int>, nets: seq<Net>,
                   k: nat, b: Batching, txns: seq<int>, first: int, now: Db)
    requires Paying(accounts, journal, payouts, nets, k, b, txns, first, now)
    requires k < |nets| && nets[k].net <= 0 && InRange(nets[k].net)
    ensures Paying(accounts, journal, payouts, nets, k + 1, b, txns, first, now)
  {
    PayMore(Db(accounts, journal, map[], map[]), payouts, nets, k, b, txns, 0, b);
  }

  ghost predicate NeverPays(accounts: map<int, Account>, payouts: map<Currency, int>, nets: seq<Net>, e: LedgerError) {
    forall ids: seq<int> :: PayAll(accounts, payouts, nets, ids) == Err(e)
  }

  lemma PayingFails(accounts: map<int, Account>, journal: seq<TxnRow>, payouts: map<Currency, int>, nets: seq<Net>,
                    k: nat, b: Batching, txns: seq<int>, first: int, now: Db, ids: seq<int>)
    requires Paying(accounts, journal, payouts, nets, k, b, txns, first, now)
    requires k < |nets| && 0 < nets[k].net <= MAX
    requires CheckPost(now.accounts, PayoutLegs(payouts, nets[k]), Ok(())).Err?
    ensures PayAll(accounts, payouts, nets, ids)
            == Err(CheckPost(now.accounts, PayoutLegs(payouts, nets[k]), Ok(())).error)
  {
    NetPrefix(nets, k);
    PayAllAnyIds(accounts, payouts, nets[..k], txns, ids);
    PayAllFails(accounts, payouts, nets, ids, k + 1);
  }

  // ---------- the whole batch ----------

  datatype SettlementResult = SettlementResult(batch: int, itemCount: int, merchantN: int, netTotal: Minor,
                                               payoutTxns: seq<int>)

  /** What the settlement knows under its locks. */
  predicate Prepared(cfg: Config, db: Db, ms: set<int>, payouts: map<Currency, int>, nets: seq<Net>, count: int,
                     ids: seq<int>)
  {
    && CurrenciesOf(db.accounts, ms) <= cfg.payout.Keys
    && payouts == PayoutMap(cfg, CurrenciesOf(db.accounts, ms))
    && LockSet(ms, payouts) <= db.accounts.Keys
    && nets == NetsOf(db.journal, Pendings(db.journal, ms)) && Scannable(nets)
    && count == |Pendings(db.journal, ms)| && Elements(ids) == PendIds(Pendings(db.journal, ms))
  }

  /** No batch over these merchants can commit. */
  ghost predicate NoBatch(cfg: Config, db: Db, ms: set<int>) {
    forall batch: int, txns: seq<int> :: Apply(cfg, db, SettleOp(ms, batch, txns)).Err?
  }

  lemma OverflowFails(cfg: Config, db: Db, ms: set<int>)
    requires !Scannable(NetsOf(db.journal, Pendings(db.journal, ms)))
    ensures NoBatch(cfg, db, ms)
  {
    var nets := NetsOf(db.journal, Pendings(db.journal, ms));
    var i :| 0 <= i < |nets| && !InRange(nets[i].net);
    var payouts := PayoutMap(cfg, CurrenciesOf(db.accounts, ms));
    forall batch: int, txns: seq<int> ensures Apply(cfg, db, SettleOp(ms, batch, txns)).Err? {
      NetPrefix(nets, i);
      PayAllFails(db.accounts, payouts, nets, txns, i + 1);
    }
  }

  /** What the statements of step 5 leave behind. */
  ghost predicate BatchPosted(db: Db, after: Db, payouts: map<Currency, int>, nets: seq<Net>, ids: seq<int>,
                              b: Batching, first: int, batch: int, res: SettlementResult)
  {
    && Paying(db.accounts, db.journal, payouts, nets, |nets|, b, res.payoutTxns, first,
              after.(journal := db.journal + b.rows))
    && after.journal == Mark(db.journal + b.rows, Elements(ids), batch)
    && after.keys == db.keys
    && after.batches == db.batches[batch := Batch(res.itemCount, res.netTotal)]
    && res.batch == batch && res.merchantN == |res.payoutTxns| && res.netTotal == NetTotal(nets)
  }

  /** A settlement either commits the atomic batch over its merchants and reports it, or no
      such batch can commit. */
  ghost predicate BatchOutcome(cfg: Config, db: Db, ms: set<int>, r: Result<SettlementResult, LedgerError>, after: Db) {
    match r
    case Ok(res) =>
      && Apply(cfg, db, SettleOp(ms, res.batch, res.payoutTxns)) == Ok(after)
      && res.itemCount == |Pendings(db.journal, ms)| && res.merchantN == |res.payoutTxns|
      && res.netTotal == NetTotal(NetsOf(db.journal, Pendings(db.journal, ms)))
    case Err(_) => NoBatch(cfg, db, ms)
  }

  lemma BatchFails(cfg: Config, db: Db, ms: set<int>, payouts: map<Currency, int>, nets: seq<Net>, count: int,
                   ids: seq<int>, e: LedgerError)
    requires Prepared(cfg, db, ms, payouts, nets, count, ids)
    requires NeverPays(db.accounts, payouts, nets, e)
    ensures NoBatch(cfg, db, ms)
  {}

  lemma NewRowIds(cfg: Config, db: Db, ms: set<int>, payouts: map<Currency, int>, nets: seq<Net>, b: Batching,
                  txns: seq<int>, first: int)
    requires GoodDb(db) && CurrenciesOf(db.accounts, ms) <= cfg.payout.Keys
    requires payouts == PayoutMap(cfg, CurrenciesOf(db.accounts, ms))
    requires nets == NetsOf(db.journal, Pendings(db.journal, ms))
    requires PayAll(db.accounts, payouts, nets, txns) == Ok(b) && |b.rows| == |txns|
    requires forall i | 0 <= i < |txns| :: txns[i] == first + i
    ensures forall x | x in Ids(b.rows) :: x >= first
  {
    NetsCovered(cfg, db, ms);
    PayAllRows(db.accounts, payouts, nets, txns, LockSet(ms, payouts));
    forall x | x in Ids(b.rows) ensures x >= first {
      var i :| 0 <= i < |b.rows| && b.rows[i].id == x;
      assert IdAt(txns, i) == first + i;
    }
  }

  lemma {:induction false} PendIdsKnown(journal: seq<TxnRow>, merchants: set<int>)
    ensures PendIds(Pendings(journal, merchants)) <= Ids(journal)
  {
    if journal != [] {
      var ps, qs := Pendings(Front(journal), merchants), PendingsOf(Last(journal), merchants);
      PendIdsKnown(Front(journal), merchants);
      LegIds(Last(journal).id, Last(journal).legs, merchants);
      var all: seq<Pend> := ps + qs;
      forall x | x in PendIds(all) ensures x in Ids(journal) {
        var k :| 0 <= k < |all| && all[k].id == x;
        if k < |ps| {
          assert x in PendIds(ps) && x in Ids(Front(journal));
          var i :| 0 <= i < |Front(journal)| && Front(journal)[i].id == x;
          assert journal[i].id == x;
        } else {
          assert qs[k - |ps|].id == x == journal[|journal| - 1].id;
        }
      }
    }
  }

  /** Marking after the payouts is marking before them: the new rows are not pending. */
  lemma MarkedFirst(cfg: Config, db: Db, ms: set<int>, payouts: map<Currency, int>, nets: seq<Net>, ids: seq<int>,
                    batch: int, b: Batching, txns: seq<int>, first: int)
    requires GoodDb(db) && Prepared(cfg, db, ms, payouts, nets, |Pendings(db.journal, ms)|, ids)
    requires PayAll(db.accounts, payouts, nets, txns) == Ok(b) && |b.rows| == |txns|
    requires forall i | 0 <= i < |txns| :: txns[i] == first + i
    requires forall t | t in Ids(db.journal) :: t < first
    ensures Mark(db.journal + b.rows, Elements(ids), batch) == Mark(db.journal, Elements(ids), batch) + b.rows
  {
    NewRowIds(cfg, db, ms, payouts, nets, b, txns, first);
    PendIdsKnown(db.journal, ms);
    MarkAppend(db.journal, b.rows, Elements(ids), batch);
  }

  lemma BatchOf(cfg: Config, db: Db, ms: set<int>, payouts: map<Currency, int>, nets: seq<Net>, ids: seq<int>,
                batch: int, b: Batching, first: int, after: Db, res: SettlementResult)
    requires Prepared(cfg, db, ms, payouts, nets, res.itemCount, ids)
    requires BatchPosted(db, after, payouts, nets, ids, b, first, batch, res) && nets[..|nets|] == nets
    requires batch !in db.batches && forall t | t in Ids(db.journal) :: t < first
    requires Mark(db.journal + b.rows, Elements(ids), batch) == Mark(db.journal, Elements(ids), batch) + b.rows
    ensures BatchOutcome(cfg, db, ms, Ok(res), after)
  {}

  lemma SettlementCommits(cfg: Config, db: Db, ms: set<int>, payouts: map<Currency, int>, nets: seq<Net>,
                          ids: seq<int>, batch: int, b: Batching, first: int, after: Db, res: SettlementResult)
    requires GoodDb(db) && Prepared(cfg, db, ms, payouts, nets, res.itemCount, ids)
    requires BatchPosted(db, after, payouts, nets, ids, b, first, batch, res)
    requires batch !in db.batches && forall t | t in Ids(db.journal) :: t < first
    ensures BatchOutcome(cfg, db, ms, Ok(res), after)
  {
    assert nets[..|nets|] == nets;
    MarkedFirst(cfg, db, ms, payouts, nets, ids, batch, b, res.payoutTxns, first);
    BatchOf(cfg, db, ms, payouts, nets, ids, batch, b, first, after, res);
  }

  lemma Overwritten(m: map<int, Batch>, k: int, x: Batch, y: Batch)
    ensures m[k := x][k := y] == m[k := y]
  {}
}
