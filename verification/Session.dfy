/** The store's statements as a connection runs them (internal/store/postings.go,
    idempotency.go, settlement.go): a private view of the tables that reads its own writes. */
module Session {
  import opened Wrappers
  import opened Int64
  import opened Money
  import opened Ledger
  import opened Database
  import opened Posting
  import opened Settlement
  import opened Serial
  import opened Keys
  import opened Coverage
  import opened SettlementLoops

  /** ops.Result */
  datatype PostResult = PostResult(txn: int, replayed: bool)

  /** What a keyed posting does to the tables, and what it answers. */
  function KeyedPost(db: Db, key: string, req: Request, job: Job, txn: int): Result<(Db, PostResult), LedgerError> {
    if key != "" && key in db.keys then
      var row := db.keys[key];
      if row.request != req then Err(IdempotencyConflict)
      else if !row.completed || row.txn.None? then Err(UnexpectedKeyState)
      else Ok((db, PostResult(row.txn.value, true)))
    else
      var nb :- CheckPost(db.accounts, job.entry.legs, GuardVerdict(db.journal, job.guard));
      Ok((Posted(db, key, req, job.entry, nb, txn), PostResult(txn, false)))
  }

  /** The operation a keyed posting commits. */
  function PostedAs(key: string, req: Request, res: PostResult): Op {
    if res.replayed then ReplayOp(key, req, res.txn) else PostOp(key, req, res.txn)
  }

  /** A transaction of the journal has exactly the legs the request builds. */
  predicate HasLegsOf(cfg: Config, db: Db, txn: int, req: Request) {
    && Find(db.journal, txn).Some? && Build(cfg, db, req).Ok?
    && Find(db.journal, txn).value.legs == Build(cfg, db, req).value.entry.legs
  }

  lemma ReplayAnswer(cfg: Config, db: Db, key: string, req: Request, res: PostResult)
    requires res.replayed && Apply(cfg, db, ReplayOp(key, req, res.txn)).Ok?
    ensures key in db.keys && db.keys[key] == KeyRow(req, Some(res.txn), true) && res == PostResult(res.txn, true)
  {}

  lemma ReplayRefused(cfg: Config, db: Db, key: string, req: Request)
    requires key in db.keys && forall t: int :: Apply(cfg, db, ReplayOp(key, req, t)).Err?
    ensures db.keys[key].request != req || !db.keys[key].completed || db.keys[key].txn.None?
  {
    var row := db.keys[key];
    assert Apply(cfg, db, ReplayOp(key, req, if row.txn.Some? then row.txn.value else 0)).Err?;
  }

  /** Claiming and finishing a key together add its row. */
  lemma Finished(before: map<string, KeyRow>, after: map<string, KeyRow>, key: string)
    requires after - {key} == before - {key} && key in after
    ensures after == before[key := after[key]]
  {
    forall k | k in after && k != key ensures k in before && after[k] == before[k] {
      assert k in after - {key};
    }
    forall k | k in before && k != key ensures k in after { assert k in before - {key}; }
  }

  lemma KeyedPostIsOp(cfg: Config, db: Db, key: string, req: Request, job: Job, txn: int)
    requires Build(cfg, db, req) == Ok(job) && KeyAllowed(req, key) && "" !in db.keys && txn !in Ids(db.journal)
    ensures var r := KeyedPost(db, key, req, job, txn);
            if r.Ok? then Apply(cfg, db, PostedAs(key, req, r.value.1)) == Ok(r.value.0)
            else Apply(cfg, db, PostOp(key, req, txn)).Err?
                 && forall t: int :: Apply(cfg, db, ReplayOp(key, req, t)).Err?
  {}

  class Connection {
    const cfg: Config
    var accounts: map<int, Account>
    var journal: seq<TxnRow>
    var keys: map<string, KeyRow>
    var batches: map<int, Batch>
    var nextTxn: int
    var nextBatch: int

    constructor (cfg: Config, db: Db, nextTxn: int, nextBatch: int)
      ensures this.cfg == cfg && View() == db && this.nextTxn == nextTxn && this.nextBatch == nextBatch
    {
      this.cfg := cfg;
      accounts, journal, keys, batches := db.accounts, db.journal, db.keys, db.batches;
      this.nextTxn, this.nextBatch := nextTxn, nextBatch;
    }

    /** The tables as the open transaction sees them: committed rows and its own writes. */
    function View(): Db
      reads this
    {
      Db(accounts, journal, keys, batches)
    }

    method LockAccounts(ids: seq<int>) returns (r: Result<map<int, Account>, LedgerError>)
      requires Ascending(ids)
      ensures r == if Elements(ids) <= accounts.Keys then Ok(Rows(accounts, Elements(ids))) else Err(AccountNotFound)
    {
      var out: map<int, Account> := map[];
      for i := 0 to |ids|
        invariant out == Rows(accounts, Elements(ids[..i]))
      {
        ElementsStep(ids, i);
        if ids[i] in accounts {
          out := out[ids[i] := accounts[ids[i]]];
        }
      }
      assert ids[..|ids|] == ids;
      AllLocked(accounts, ids, out);
      if |out| != |ids| {
        return Err(AccountNotFound);
      }
      return Ok(out);
    }

    method RunGuard(guard: Option<Guard>) returns (r: Result<(), LedgerError>)
      ensures r == GuardVerdict(journal, guard)
      ensures guard.Some? ==>
        var g := guard.value;
        var prior := RefundedSoFar(journal, g.payment, g.merchant);
        prior <= g.captured && g.amount > 0 ==>
          ((r.Ok? <==> prior + g.amount <= g.captured) <==> prior + g.amount <= MAX)
    {
      if guard.None? {
        return Ok(());
      }
      var g := guard.value;
      var prior := RefundedSoFar(journal, g.payment, g.merchant);
      if prior <= g.captured && g.amount > 0 { GuardExactIff(prior, g); }
      if !InRange(prior) {
        return Err(QueryOverflow);
      }
      if Wrap(prior + g.amount) > g.captured {
        return Err(RefundExceedsCaptured);
      }
      return Ok(());
    }

    /** The header, then one INSERT per leg. */
    method InsertEntry(e: Entry) returns (txn: int)
      modifies `journal, `nextTxn
      ensures txn == old(nextTxn) && nextTxn == old(nextTxn) + 1
      ensures journal == old(journal) + [RowOf(e, txn)]
    {
      txn := nextTxn;
      nextTxn := nextTxn + 1;
      var header := RowOf(e.(legs := []), txn);
      journal := journal + [header];
      for i := 0 to |e.legs|
        invariant journal == old(journal) + [header.(legs := e.legs[..i])] && nextTxn == txn + 1
      {
        var n := |journal| - 1;
        journal := journal[n := journal[n].(legs := journal[n].legs + [e.legs[i]])];
        assert e.legs[..i + 1] == e.legs[..i] + [e.legs[i]];
      }
      assert e.legs[..|e.legs|] == e.legs;
    }

    /** One UPDATE per touched account, in any order. */
    method UpdateBalances(newBalances: map<int, Minor>)
      requires newBalances.Keys <= accounts.Keys
      modifies `accounts
      ensures accounts == Overlay(old(accounts), newBalances)
    {
      var todo := newBalances.Keys;
      while todo != {}
        invariant todo <= newBalances.Keys <= accounts.Keys
        invariant accounts == Overlay(old(accounts), newBalances - todo)
      {
        ghost var _ := Pick(todo);
        var id :| id in todo;
        accounts := accounts[id := accounts[id].(balance := newBalances[id])];
        todo := todo - {id};
      }
      assert newBalances - {} == newBalances;
    }

    /** postEntryTx: the single write path. */
    method PostEntryTx(e: Entry, guard: Option<Guard>) returns (r: Result<int, LedgerError>)
      modifies `accounts, `journal, `nextTxn
      ensures var checked := CheckPost(old(accounts), e.legs, GuardVerdict(old(journal), guard));
              if checked.Err? then
                && r == Err(checked.error)
                && accounts == old(accounts) && journal == old(journal) && nextTxn == old(nextTxn)
              else
                && r == Ok(old(nextTxn)) && nextTxn == old(nextTxn) + 1
                && accounts == Overlay(old(accounts), checked.value)
                && journal == old(journal) + [RowOf(e, old(nextTxn))]
    {
      var valid := Validate(e);
      if valid.Err? {
        return Err(valid.error);
      }
      var ids := DistinctSortedAccountIds(e.legs);
      var locked := LockAccounts(ids);
      if locked.Err? {
        return Err(locked.error);
      }
      var verdict := RunGuard(guard);
      if verdict.Err? {
        return Err(verdict.error);
      }
      var newBalances := Compute(locked.value, e.legs, accounts);
      if newBalances.Err? {
        return Err(newBalances.error);
      }
      var txn := InsertEntry(e);
      UpdateBalances(newBalances.value);
      return Ok(txn);
    }

    // ----- idempotency keys -----

    /** INSERT ... ON CONFLICT (key) DO NOTHING. Committed keys being complete, an unfinished row
        found afterwards is the caller's own. */
    method ClaimKey(key: string, req: Request) returns (claimed: bool)
      modifies `keys
      ensures claimed <==> key !in old(keys)
      ensures keys - {key} == old(keys) - {key} && key in keys
      ensures keys[key] == if claimed then KeyRow(req, None, false) else old(keys)[key]
      ensures KeysFaithful(cfg, old(View())) ==> (claimed <==> !keys[key].completed)
    {
      assert key in keys && KeysFaithful(cfg, View()) ==> KeyFaithful(cfg, View(), key);
      claimed := key !in keys;
      if claimed {
        keys := keys[key := KeyRow(req, None, false)];
      }
    }

    /** What is answered is the atomic replay of the request, and what is refused no operation
        under the key could have committed. With complete and faithful keys, the answer is a
        transaction with the legs this request builds, and only another payload is refused. */
    method ReadReplay(key: string, req: Request) returns (r: Result<PostResult, LedgerError>)
      ensures key !in keys ==> r == Err(Transient)
      ensures r.Ok? ==>
        r.value.replayed && Apply(cfg, View(), ReplayOp(key, req, r.value.txn)) == Ok(View())
      ensures key in keys && r.Err? ==>
        && r.error == (if keys[key].request != req then IdempotencyConflict else UnexpectedKeyState)
        && forall t: int :: Apply(cfg, View(), ReplayOp(key, req, t)).Err?
            && Apply(cfg, View(), PostOp(key, req, t)).Err?
      ensures key in keys && KeysFaithful(cfg, View()) ==>
        && (r.Ok? <==> keys[key].request == req)
        && (r.Ok? ==> HasLegsOf(cfg, View(), r.value.txn, req))
    {
      if key !in keys {
        return Err(Transient);
      }
      assert KeysFaithful(cfg, View()) ==> KeyFaithful(cfg, View(), key);
      var row := keys[key];
      if row.request != req {
        return Err(IdempotencyConflict);
      }
      if !row.completed || row.txn.None? {
        return Err(UnexpectedKeyState);
      }
      return Ok(PostResult(row.txn.value, true));
    }

    /** The transaction of PostEntryIdempotentGuarded, or of PostEntry without a key. */
    method PostKeyed(key: string, req: Request, job: Job) returns (r: Result<PostResult, LedgerError>)
      modifies `accounts, `journal, `keys, `nextTxn
      ensures nextTxn >= old(nextTxn) && (r.Ok? && !r.value.replayed ==> nextTxn == old(nextTxn) + 1)
      ensures var spec := KeyedPost(old(View()), key, req, job, old(nextTxn));
              if spec.Ok? then r == Ok(spec.value.1) && View() == spec.value.0 else r == Err(spec.error)
    {
      if key != "" {
        var claimed := ClaimKey(key, req);
        Finished(old(keys), keys, key);
        if !claimed {
          assert keys == old(keys);
          var replay := ReadReplay(key, req);
          if replay.Err? {
            ReplayRefused(cfg, View(), key, req);
            return Err(replay.error);
          }
          ReplayAnswer(cfg, View(), key, req, replay.value);
          return Ok(replay.value);
        }
      }
      var posted := PostEntryTx(job.entry, job.guard);
      if posted.Err? {
        return Err(posted.error);
      }
      if key != "" {
        keys := keys[key := KeyRow(req, Some(posted.value), true)];
        Finished(old(keys), keys, key);
      }
      return Ok(PostResult(posted.value, false));
    }

    // ----- settlement -----

    /** The distinct (merchant, currency) rows with pending payments, by merchant. */
    method CandidateMerchants() returns (merchants: seq<int>, currencies: set<Currency>)
      ensures Elements(merchants) == Merchants(AllPendings(View()))
      ensures currencies == PendCurrencies(AllPendings(View()))
      ensures GoodDb(View()) ==> forall m :: m in merchants <==> HasWaiting(journal, m)
    {
      var pends := Pendings(journal, accounts.Keys);
      merchants, currencies := SplitRows(NetsOf(journal, pends));
      MerchantsSplit(journal, pends, merchants, currencies);
      CurrenciesSplit(journal, pends, merchants, currencies);
      forall m | GoodDb(View()) ensures m in merchants <==> HasWaiting(journal, m) {
        CandidateIff(View(), m);
        assert m in merchants <==> m in Elements(merchants);
      }
    }

    /** The two netting queries, run one after the other under the locks. */
    method ComputeNetsLocked(merchants: seq<int>) returns (r: Result<(seq<Net>, int, seq<int>), LedgerError>)
      ensures var pends := Pendings(journal, Elements(merchants));
              var nets := NetsOf(journal, pends);
              if Scannable(nets) then
                r.Ok? && r.value.0 == nets && r.value.1 == |pends| && Elements(r.value.2) == PendIds(pends)
              else r == Err(QueryOverflow)
    {
      if merchants == [] {
        NobodyPending(journal);
        assert Elements(merchants) == {};
        return Ok(([], 0, []));
      }
      var pends := Pendings(journal, Elements(merchants));
      var rows := NetsOf(journal, pends);
      var nets: seq<Net> := [];
      for i := 0 to |rows|
        invariant nets == rows[..i] && Scannable(rows[..i])
      {
        if !InRange(rows[i].net) {
          return Err(QueryOverflow);
        }
        assert rows[..i + 1] == rows[..i] + [rows[i]];
        nets := nets + [rows[i]];
      }
      assert rows[..|rows|] == rows;
      var ids: seq<int> := [];
      for i := 0 to |pends|
        invariant |ids| == i && forall k | 0 <= k < i :: ids[k] == pends[k].id
      {
        ids := ids + [pends[i].id];
      }
      SameIds(pends, ids);
      return Ok((nets, |ids|, ids));
    }

    method PayMerchant(payouts: map<Currency, int>, mn: Net) returns (r: Result<int, LedgerError>)
      requires 0 < mn.net <= MAX
      modifies `accounts, `journal, `nextTxn
      ensures var checked := CheckPost(old(accounts), PayoutLegs(payouts, mn), Ok(()));
              if checked.Err? then r == Err(checked.error) && nextTxn == old(nextTxn)
              else
                && r == Ok(old(nextTxn)) && nextTxn == old(nextTxn) + 1
                && accounts == Overlay(old(accounts), checked.value)
                && journal == old(journal) + [PayoutRow(payouts, mn, old(nextTxn))]
    {
      var e := Entry(TxnKind.Settlement, None,
                     [Leg(mn.merchant, mn.currency, 0 - mn.net),
                       Leg(PayoutOf(payouts, mn.currency), mn.currency, mn.net)],
                     false);
      assert e.legs == PayoutLegs(payouts, mn);
      r := PostEntryTx(e, None);
    }

    method PayNext(payouts: map<Currency, int>, nets: seq<Net>, k: nat, txns: seq<int>, ghost b: Batching,
                   ghost before: Db, ghost first: int)
      returns (r: Result<seq<int>, LedgerError>, ghost after: Batching)
      requires k < |nets| && 0 < nets[k].net <= MAX && nextTxn == first + |txns|
      requires Paying(before.accounts, before.journal, payouts, nets, k, b, txns, first, View())
      modifies `accounts, `journal, `nextTxn
      ensures nextTxn >= old(nextTxn)
      ensures r.Ok? ==>
        && Paying(before.accounts, before.journal, payouts, nets, k + 1, after, r.value, first, View())
        && nextTxn == first + |r.value|
      ensures r.Err? ==> NeverPays(before.accounts, payouts, nets, r.error)
    {
      ghost var now := View();
      var posted := PayMerchant(payouts, nets[k]);
      after := b;
      if posted.Err? {
        forall ids: seq<int> ensures PayAll(before.accounts, payouts, nets, ids) == Err(posted.error) {
          PayingFails(before.accounts, before.journal, payouts, nets, k, b, txns, first, now, ids);
        }
        return Err(posted.error), b;
      }
      ghost var nb := CheckPost(now.accounts, PayoutLegs(payouts, nets[k]), Ok(())).value;
      after := Batching(b.writes + nb, b.rows + [PayoutRow(payouts, nets[k], posted.value)]);
      PayingNext(before.accounts, before.journal, payouts, nets, k, b, txns, first, now, View(), nb,
                 after, posted.value);
      r := Ok(txns + [posted.value]);
    }

    /** One payout per merchant that is still owed; each re-reads the transaction's writes. */
    method PayOut(payouts: map<Currency, int>, nets: seq<Net>)
      returns (r: Result<(Minor, seq<int>), LedgerError>, ghost b: Batching)
      requires Scannable(nets)
      modifies `accounts, `journal, `nextTxn
      ensures nextTxn >= old(nextTxn)
      ensures r.Ok? ==>
        && Paying(old(accounts), old(journal), payouts, nets, |nets|, b, r.value.1, old(nextTxn), View())
        && r.value.0 == NetTotal(nets) && nextTxn == old(nextTxn) + |r.value.1|
      ensures r.Err? ==> NeverPays(old(accounts), payouts, nets, r.error)
    {
      var netTotal: Minor := 0;
      var payoutTxns: seq<int> := [];
      ghost var before, first := View(), nextTxn;
      b := Batching(map[], []);
      PayingStart(before, payouts, nets, first);
      for k := 0 to |nets|
        invariant Paying(before.accounts, before.journal, payouts, nets, k, b, payoutTxns, first, View())
        invariant netTotal == NetTotal(nets[..k]) && nextTxn == first + |payoutTxns|
      {
        ghost var total := NetTotal(nets[..k + 1]);
        NetTotalStep(nets, k);
        if nets[k].net <= 0 {
          PayingSkip(before.accounts, before.journal, payouts, nets, k, b, payoutTxns, first, View());
          continue;
        }
        assert Wrap(netTotal + nets[k].net) == total;
        var more;
        more, b := PayNext(payouts, nets, k, payoutTxns, b, before, first);
        if more.Err? {
          r := Err(more.error);
          return;
        }
        payoutTxns := more.value;
        netTotal := Wrap(netTotal + nets[k].net);
      }
      assert nets[..|nets|] == nets;
      r := Ok((netTotal, payoutTxns));
    }

    /** The ids handed out so far lie below the sequences. */
    predicate Sequenced()
      reads this
    {
      && (forall t | t in Ids(journal) :: t < nextTxn) && (forall b | b in batches :: b < nextBatch)
    }

    method OpenBatch() returns (batch: int)
      modifies `batches, `nextBatch
      ensures batch == old(nextBatch) && nextBatch == batch + 1 && batches == old(batches)[batch := Batch(0, 0)]
    {
      batch := nextBatch;
      nextBatch := nextBatch + 1;
      batches := batches[batch := Batch(0, 0)];
    }

    method CloseBatch(ids: seq<int>, batch: int, itemCount: int, netTotal: Minor)
      modifies `journal, `batches
      ensures journal == Mark(old(journal), Elements(ids), batch)
      ensures batches == old(batches)[batch := Batch(itemCount, netTotal)]
    {
      batches := batches[batch := Batch(itemCount, netTotal)];
      if |ids| > 0 {
        journal := Mark(journal, Elements(ids), batch);
      } else {
        MarkNone(journal, batch);
        assert Elements(ids) == {};
      }
    }

    /** Steps 1 to 4 of RunSettlement: candidates, payout accounts, locks, nets. */
    method Prepare() returns (r: Result<(map<Currency, int>, seq<Net>, int, seq<int>), LedgerError>)
      requires GoodDb(View())
      ensures r.Ok? ==>
        Prepared(cfg, View(), Merchants(AllPendings(View())), r.value.0, r.value.1, r.value.2, r.value.3)
      ensures r.Err? ==> NoBatch(cfg, View(), Merchants(AllPendings(View())))
    {
      var merchants, currencies := CandidateMerchants();
      ghost var ms := Elements(merchants);
      CandidatesRead(View());
      var payouts := ResolvePayouts(cfg, currencies);
      if payouts.Err? {
        return Err(payouts.error);
      }
      var ids := UnionSortedIds(merchants, payouts.value);
      var locked := LockAccounts(ids);
      if locked.Err? {
        return Err(locked.error);
      }
      var q := ComputeNetsLocked(merchants);
      if q.Err? {
        OverflowFails(cfg, View(), ms);
        return Err(q.error);
      }
      r := Ok((payouts.value, q.value.0, q.value.1, q.value.2));
    }

    /** Step 5: create the batch, pay out, mark the payments settled. */
    method PostBatch(payouts: map<Currency, int>, nets: seq<Net>, itemCount: int, ids: seq<int>)
      returns (r: Result<SettlementResult, LedgerError>, ghost b: Batching)
      requires Scannable(nets)
      modifies `accounts, `journal, `batches, `nextTxn, `nextBatch
      ensures nextTxn >= old(nextTxn) && nextBatch == old(nextBatch) + 1
      ensures r.Ok? ==>
        && BatchPosted(old(View()), View(), payouts, nets, ids, b, old(nextTxn), old(nextBatch), r.value)
        && r.value.itemCount == itemCount && nextTxn == old(nextTxn) + |r.value.payoutTxns|
      ensures r.Err? ==> NeverPays(old(accounts), payouts, nets, r.error)
    {
      var batch := OpenBatch();
      var paid;
      paid, b := PayOut(payouts, nets);
      if paid.Err? {
        r := Err(paid.error);
        return;
      }
      var (netTotal, payoutTxns) := paid.value;
      CloseBatch(ids, batch, itemCount, netTotal);
      r := Ok(SettlementResult(batch, itemCount, |payoutTxns|, netTotal, payoutTxns));
      Overwritten(old(batches), batch, Batch(0, 0), Batch(itemCount, netTotal));
    }

    /** The transaction of RunSettlement: the batch over the candidates it read, which settles
        every payment that waited, or nothing that any such batch could commit. */
    method RunSettlement() returns (r: Result<SettlementResult, LedgerError>)
      requires GoodDb(View()) && Sequenced()
      modifies `accounts, `journal, `batches, `nextTxn, `nextBatch
      ensures nextTxn >= old(nextTxn) && nextBatch >= old(nextBatch)
      ensures BatchOutcome(cfg, old(View()), Merchants(AllPendings(old(View()))), r, View())
      ensures r.Ok? ==> AllSettled(old(journal), journal, r.value.batch)
      ensures r.Ok? ==> r.value.batch < nextBatch && forall t | t in r.value.payoutTxns :: t < nextTxn
    {
      ghost var db, first, batch := View(), nextTxn, nextBatch;
      ghost var ms := Merchants(AllPendings(View()));
      var prepared := Prepare();
      if prepared.Err? {
        return Err(prepared.error);
      }
      var (payouts, nets, itemCount, ids) := prepared.value;
      ghost var b;
      r, b := PostBatch(payouts, nets, itemCount, ids);
      if r.Err? {
        BatchFails(cfg, db, ms, payouts, nets, itemCount, ids, r.error);
      } else {
        SettlementCommits(cfg, db, ms, payouts, nets, ids, batch, b, first, View(), r.value);
        CandidatesSettled(cfg, db, r.value.batch, r.value.payoutTxns);
      }
    }
  }
}
