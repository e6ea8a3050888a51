/** The ledger as a sequence of atomic operations: what each committed transaction does when
    it runs alone, and what every such run keeps. */
module Serial {
  import opened Wrappers
  import opened Int64
  import opened Money
  import opened Ledger
  import opened Database
  import opened Posting
  import opened Settlement

  /** A committed transaction. Ids come from sequences, which leave gaps. */
  datatype Op =
    | PostOp(key: string, req: Request, txn: int)
    | ReplayOp(key: string, req: Request, txn: int)
    | SettleOp(merchants: set<int>, batch: int, txns: seq<int>)

  function WithKey(keys: map<string, KeyRow>, key: string, row: KeyRow): map<string, KeyRow> {
    if key == "" then keys else keys[key := row]
  }

  /** The state after a job has been posted with the balances it computed. */
  function Posted(db: Db, key: string, req: Request, e: Entry, nb: map<int, Minor>, txn: int): Db {
    Db(Overlay(db.accounts, nb), db.journal + [RowOf(e, txn)],
       WithKey(db.keys, key, KeyRow(req, Some(txn), true)), db.batches)
  }

  predicate FreshIds(journal: seq<TxnRow>, ids: seq<int>) {
    && (forall i | 0 <= i < |ids| :: ids[i] !in Ids(journal))
    && (forall i, j | 0 <= i < j < |ids| :: ids[i] != ids[j])
  }

  /** One operation, from its request to its commit, run alone. */
  function Apply(cfg: Config, db: Db, op: Op): Result<Db, LedgerError> {
    match op
    case PostOp(key, req, txn) =>
      if !KeyAllowed(req, key) then Err(KeyRequired)
      else if key in db.keys || txn in Ids(db.journal) then Err(IdempotencyConflict)
      else
        var job :- Build(cfg, db, req);
        var nb :- CheckPost(db.accounts, job.entry.legs, GuardVerdict(db.journal, job.guard));
        Ok(Posted(db, key, req, job.entry, nb, txn))
    case ReplayOp(key, req, txn) =>
      if key in db.keys && db.keys[key] == KeyRow(req, Some(txn), true) then Ok(db) else Err(IdempotencyConflict)
    case SettleOp(merchants, batch, txns) =>
      if batch in db.batches || !FreshIds(db.journal, txns) then Err(IdempotencyConflict)
      else Settle(cfg, db, merchants, batch, txns)
  }

  /** Running a log of operations one at a time. */
  function Run(cfg: Config, db: Db, log: seq<Op>): Result<Db, LedgerError> {
    if log == [] then Ok(db)
    else
      var before :- Run(cfg, db, Front(log));
      Apply(cfg, before, Last(log))
  }

  lemma {:induction false} RunPrefix(cfg: Config, init: Db, log: seq<Op>, n: nat)
    requires n <= |log| && Run(cfg, init, log).Ok?
    ensures Run(cfg, init, log[..n]).Ok?
  {
    if n < |log| {
      RunPrefix(cfg, init, Front(log), n);
      assert Front(log)[..n] == log[..n];
    } else {
      assert log[..n] == log;
    }
  }

  /** New accounts hold nothing, and the empty key is no key. */
  predicate InitDb(db: Db) {
    && db.journal == [] && db.keys == map[] && db.batches == map[]
    && forall a | a in db.accounts :: a > 0 && db.accounts[a].balance == 0
  }

  // ---------- integrity of every reachable database ----------

  predicate PairShape(legs: seq<Leg>) {
    && |legs| == 2 && legs[0].amount < 0 && legs[1].amount == 0 - legs[0].amount
    && legs[0].currency == legs[1].currency
  }

  /** Foreign key, and the leg's currency is its account's. */
  predicate LegsOk(accounts: map<int, Account>, legs: seq<Leg>) {
    forall i | 0 <= i < |legs| ::
      legs[i].account in accounts && legs[i].currency == accounts[legs[i].account].currency
  }

  predicate ReversesPayment(journal: seq<TxnRow>, row: TxnRow) {
    && PairShape(row.legs) && row.refTxn.Some?
    && var p := Find(journal, row.refTxn.value);
    && p.Some? && p.value.kind.Payment? && PairShape(p.value.legs)
    && row.legs[0].account == p.value.legs[1].account && row.legs[1].account == p.value.legs[0].account
  }

  predicate RowOk(accounts: map<int, Account>, journal: seq<TxnRow>, row: TxnRow) {
    && LegsOk(accounts, row.legs)
    && (row.kind.Payment? || row.kind.Settlement? ==> PairShape(row.legs))
    && (row.kind.Refund? ==> ReversesPayment(journal, row))
    && (row.refTxn.Some? ==> row.kind.Refund?)
    && (row.kind.Payment? <==> row.pending || row.settled)
    && !(row.pending && row.settled)
  }

  predicate GoodDb(db: Db) {
    && UniqueIds(db.journal)
    && (forall a | a in db.accounts :: a > 0)
    && (forall i | 0 <= i < |db.journal| :: RowOk(db.accounts, db.journal, db.journal[i]))
    && "" !in db.keys
  }

  /** Everything but the settlement columns of a row is immutable. */
  predicate SameTxn(r: TxnRow, s: TxnRow) {
    r.id == s.id && r.kind == s.kind && r.refTxn == s.refTxn && r.legs == s.legs
  }

  predicate Grows(x: seq<TxnRow>, y: seq<TxnRow>) {
    && |x| <= |y| && UniqueIds(y)
    && forall i | 0 <= i < |x| :: SameTxn(x[i], y[i])
  }

  /** How a commit that held the locks `touched` changes the database. */
  predicate Evolves(db: Db, after: Db, touched: set<int>) {
    && after.accounts.Keys == db.accounts.Keys
    && (forall a | a in db.accounts ::
          && after.accounts[a].currency == db.accounts[a].currency
          && after.accounts[a].allowNegative == db.accounts[a].allowNegative)
    && (forall a | a in db.accounts && a !in touched :: after.accounts[a] == db.accounts[a])
    && Grows(db.journal, after.journal)
    && (forall i | 0 <= i < |db.journal| ::
          after.journal[i] == db.journal[i]
          || (PairShape(db.journal[i].legs) && db.journal[i].legs[1].account in touched))
    && (forall i | |db.journal| <= i < |after.journal| :: Accounts(after.journal[i].legs) <= touched)
    && (forall k | k in db.keys :: k in after.keys && after.keys[k] == db.keys[k])
  }

  /** The accounts whose locks an operation holds when it commits. */
  function Touched(cfg: Config, db: Db, op: Op): set<int> {
    match op
    case PostOp(_, req, _) => if Build(cfg, db, req).Ok? then Accounts(Build(cfg, db, req).value.entry.legs) else {}
    case ReplayOp(_, _, _) => {}
    case SettleOp(merchants, _, _) => LockSet(merchants, PayoutMap(cfg, CurrenciesOf(db.accounts, merchants)))
  }

  lemma GrowsFind(x: seq<TxnRow>, y: seq<TxnRow>, id: int)
    requires Grows(x, y) && Find(x, id).Some?
    ensures Find(y, id).Some? && SameTxn(Find(x, id).value, Find(y, id).value)
  {}

  lemma GrowsRowOk(x: seq<TxnRow>, y: seq<TxnRow>, accounts: map<int, Account>, after: map<int, Account>, row: TxnRow)
    requires Grows(x, y) && RowOk(accounts, x, row)
    requires accounts.Keys == after.Keys
    requires forall a | a in accounts :: after[a].currency == accounts[a].currency
    ensures RowOk(after, y, row)
  {
    if row.kind.Refund? {
      GrowsFind(x, y, row.refTxn.value);
    }
  }

  // ---------- pending payments ----------

  function PendOf(row: TxnRow): Pend
    requires PairShape(row.legs)
  {
    Pend(row.id, row.legs[1].account, row.legs[1].currency, row.legs[1].amount)
  }

  lemma PendingsOfPair(row: TxnRow, merchants: set<int>)
    requires row.kind.Payment? ==> PairShape(row.legs)
    ensures PendingsOf(row, merchants) ==
      if IsPending(row) && row.legs[1].account in merchants then [PendOf(row)] else []
  {
    if IsPending(row) {
      var legs := row.legs;
      assert Front(legs) == [legs[0]] && Front([legs[0]]) == [];
      assert PendingLegs(row.id, [legs[0]], merchants) == [];
    }
  }

  /** Each pending row of the query is one pending payment of one of the merchants. */
  lemma {:induction false} PendingsSource(accounts: map<int, Account>, full: seq<TxnRow>, journal: seq<TxnRow>,
                                          merchants: set<int>, k: nat) returns (i: nat)
    requires forall i | 0 <= i < |journal| :: RowOk(accounts, full, journal[i])
    requires k < |Pendings(journal, merchants)|
    ensures i < |journal| && IsPending(journal[i]) && PairShape(journal[i].legs)
    ensures Pendings(journal, merchants)[k] == PendOf(journal[i]) && journal[i].legs[1].account in merchants
    ensures var m := journal[i].legs[1].account;
            m in accounts && journal[i].legs[1].currency == accounts[m].currency
  {
    PendingsOfPair(Last(journal), merchants);
    var n := |Pendings(Front(journal), merchants)|;
    if k < n {
      i := PendingsSource(accounts, full, Front(journal), merchants, k);
    } else {
      i := |journal| - 1;
    }
  }

  /** Every pending payment of the merchants is in the query's result. */
  lemma {:induction false} PendingsComplete(accounts: map<int, Account>, full: seq<TxnRow>, journal: seq<TxnRow>,
                                            merchants: set<int>, i: nat)
    requires forall i | 0 <= i < |journal| :: RowOk(accounts, full, journal[i])
    requires i < |journal| && IsPending(journal[i]) && PairShape(journal[i].legs)
    requires journal[i].legs[1].account in merchants
    ensures PendOf(journal[i]) in Pendings(journal, merchants)
  {
    PendingsOfPair(Last(journal), merchants);
    if i < |journal| - 1 {
      PendingsComplete(accounts, full, Front(journal), merchants, i);
      assert Front(journal)[i] == journal[i];
    }
  }

  predicate DistinctPends(ps: seq<Pend>) { forall k, l | 0 <= k < l < |ps| :: ps[k].id != ps[l].id }

  lemma {:induction false} PendingsDistinct(accounts: map<int, Account>, full: seq<TxnRow>, journal: seq<TxnRow>,
                                            merchants: set<int>)
    requires UniqueIds(journal) && forall i | 0 <= i < |journal| :: RowOk(accounts, full, journal[i])
    ensures DistinctPends(Pendings(journal, merchants))
  {
    if journal != [] {
      var ps, qs := Pendings(journal, merchants), Pendings(Front(journal), merchants);
      PendingsDistinct(accounts, full, Front(journal), merchants);
      PendingsOfPair(Last(journal), merchants);
      assert ps == qs + PendingsOf(Last(journal), merchants);
      forall k, l | 0 <= k < l < |ps| ensures ps[k].id != ps[l].id {
        assert ps[k] == qs[k];
        if l == |qs| {
          var i := PendingsSource(accounts, full, Front(journal), merchants, k);
          assert Front(journal)[i] == journal[i] && journal[i].id != journal[|journal| - 1].id;
          assert ps[l].id == Last(journal).id;
        } else {
          assert ps[l] == qs[l] && qs[k].id != qs[l].id;
        }
      }
    }
  }

  /** The merchants with pending payments, over every account. */
  function AllPendings(db: Db): seq<Pend> { Pendings(db.journal, db.accounts.Keys) }

  function Merchants(pends: seq<Pend>): set<int> { set i | 0 <= i < |pends| :: pends[i].merchant }

  function PendCurrencies(pends: seq<Pend>): set<Currency> { set i | 0 <= i < |pends| :: pends[i].currency }

  /** The candidates were read without locks: their accounts exist and carry these currencies. */
  predicate CandidatesOk(db: Db, merchants: set<int>, currencies: set<Currency>) {
    merchants <= db.accounts.Keys && currencies == CurrenciesOf(db.accounts, merchants)
  }

  lemma CandidatesRead(db: Db)
    requires GoodDb(db)
    ensures CandidatesOk(db, Merchants(AllPendings(db)), PendCurrencies(AllPendings(db)))
  {
    var pends := AllPendings(db);
    var ms, cs := Merchants(pends), PendCurrencies(pends);
    forall k | 0 <= k < |pends|
      ensures pends[k].merchant in db.accounts && pends[k].currency == db.accounts[pends[k].merchant].currency
    {
      var i := PendingsSource(db.accounts, db.journal, db.journal, db.accounts.Keys, k);
    }
    forall c | c in cs ensures c in CurrenciesOf(db.accounts, ms) {
      var k :| 0 <= k < |pends| && pends[k].currency == c;
      assert pends[k].merchant in ms;
    }
    forall c | c in CurrenciesOf(db.accounts, ms) ensures c in cs {
      var m :| m in ms && m in db.accounts && db.accounts[m].currency == c;
      var k :| 0 <= k < |pends| && pends[k].merchant == m;
      assert pends[k].currency == c;
    }
  }

  // ---------- coverage of the settlement locks ----------

  /** Every posting has its account's currency, so every net's merchant and payout account
      are among the locked rows. */
  lemma NetsCovered(cfg: Config, db: Db, merchants: set<int>)
    requires GoodDb(db)
    requires CurrenciesOf(db.accounts, merchants) <= cfg.payout.Keys
    ensures var payouts := PayoutMap(cfg, CurrenciesOf(db.accounts, merchants));
            var nets := NetsOf(db.journal, Pendings(db.journal, merchants));
            && Covered(nets, payouts, LockSet(merchants, payouts))
            && forall i | 0 <= i < |nets| ::
                 && nets[i].merchant in merchants && nets[i].merchant in db.accounts
                 && nets[i].currency == db.accounts[nets[i].merchant].currency
                 && nets[i].currency in payouts
  {
    var payouts := PayoutMap(cfg, CurrenciesOf(db.accounts, merchants));
    var pends := Pendings(db.journal, merchants);
    var nets := NetsOf(db.journal, pends);
    forall i | 0 <= i < |nets|
      ensures nets[i].merchant in merchants && nets[i].merchant in db.accounts
      ensures nets[i].currency == db.accounts[nets[i].merchant].currency && nets[i].currency in payouts
    {
      var n := nets[i];
      NetsAreGroupSums(db.journal, pends, n.merchant, n.currency);
      assert IsFor(nets[i], n.merchant, n.currency);
      var k :| 0 <= k < |pends| && pends[k].merchant == n.merchant && pends[k].currency == n.currency;
      var j := PendingsSource(db.accounts, db.journal, db.journal, merchants, k);
      assert n.currency in CurrenciesOf(db.accounts, merchants);
    }
    forall i | 0 <= i < |nets| ensures PayoutOf(payouts, nets[i].currency) in payouts.Values {
      assert payouts[nets[i].currency] in payouts.Values;
    }
  }

  /** The payout rows: shape, ids and accounts. */
  predicate PayoutRowOk(accounts: map<int, Account>, row: TxnRow, locked: set<int>) {
    && row.kind.Settlement? && row.refTxn.None? && !row.pending && !row.settled && row.batch.None?
    && PairShape(row.legs) && LegsOk(accounts, row.legs)
    && Accounts(row.legs) <= locked
  }

  lemma PayoutRowFacts(accounts: map<int, Account>, w: map<int, Minor>, payouts: map<Currency, int>, n: Net, id: int,
                       locked: set<int>)
    requires 0 < n.net <= MAX && Covered([n], payouts, locked)
    requires CheckPost(Overlay(accounts, w), PayoutLegs(payouts, n), Ok(())).Ok?
    ensures PayoutRowOk(accounts, PayoutRow(payouts, n, id), locked)
  {
    assert IsFor([n][0], n.merchant, n.currency);
    var legs := PayoutLegs(payouts, n);
    PairSums(legs[0], legs[1]);
    assert legs == [legs[0], legs[1]];
    CheckedLegs(Overlay(accounts, w), legs, Ok(()));
  }

  lemma CheckedLegs(accounts: map<int, Account>, legs: seq<Leg>, g: Result<(), LedgerError>)
    requires CheckPost(accounts, legs, g).Ok?
    ensures LegsOk(accounts, legs)
  {}

  predicate BatchingOk(accounts: map<int, Account>, b: Batching, ids: seq<int>, locked: set<int>) {
    && (forall i | 0 <= i < |b.rows| :: PayoutRowOk(accounts, b.rows[i], locked) && b.rows[i].id == IdAt(ids, i))
    && b.writes.Keys <= locked
  }

  lemma PayOneRows(accounts: map<int, Account>, b: Batching, payouts: map<Currency, int>, n: Net, ids: seq<int>,
                   locked: set<int>)
    requires BatchingOk(accounts, b, ids, locked) && Covered([n], payouts, locked)
    requires PayOne(accounts, b, payouts, n, IdAt(ids, |b.rows|)).Ok?
    ensures BatchingOk(accounts, PayOne(accounts, b, payouts, n, IdAt(ids, |b.rows|)).value, ids, locked)
  {
    if n.net > 0 {
      var id := IdAt(ids, |b.rows|);
      PayoutRowFacts(accounts, b.writes, payouts, n, id, locked);
      var nb := CheckPost(Overlay(accounts, b.writes), PayoutLegs(payouts, n), Ok(())).value;
      assert nb.Keys == Accounts(PayoutRow(payouts, n, id).legs) <= locked;
    }
  }

  lemma {:induction false} PayAllRows(accounts: map<int, Account>, payouts: map<Currency, int>, nets: seq<Net>,
                                      ids: seq<int>, locked: set<int>)
    requires PayAll(accounts, payouts, nets, ids).Ok? && Covered(nets, payouts, locked)
    ensures BatchingOk(accounts, PayAll(accounts, payouts, nets, ids).value, ids, locked)
  {
    if nets != [] {
      CoveredParts(nets, payouts, locked);
      PayAllRows(accounts, payouts, Front(nets), ids, locked);
      PayOneRows(accounts, PayAll(accounts, payouts, Front(nets), ids).value, payouts, Last(nets), ids, locked);
    }
  }
}
