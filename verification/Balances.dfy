/** Derived balances equal stored balances, and money is conserved, in every reachable state. */
module Balances {
  import opened Wrappers
  import opened Int64
  import opened Money
  import opened Ledger
  import opened Database
  import opened Posting
  import opened Settlement
  import opened Serial
  import opened Evolution

  /** Each cached balance is the sum of the account's postings, in int64 arithmetic. */
  ghost predicate Derived(db: Db) {
    forall a | a in db.accounts :: db.accounts[a].balance == Wrap(PostingSum(db.journal, a))
  }

  /** Every entry of the journal passed Validate. */
  ghost predicate Validated(journal: seq<TxnRow>) {
    forall i | 0 <= i < |journal| :: NetsVanish(journal[i].legs)
  }

  // ---------- stored equals derived ----------

  lemma {:induction false} PostingSumAppend(journal: seq<TxnRow>, rows: seq<TxnRow>, a: int)
    ensures PostingSum(journal + rows, a) == PostingSum(journal, a) + PostingSum(rows, a)
  {
    if rows == [] {
      assert journal + rows == journal;
    } else {
      assert Front(journal + rows) == journal + Front(rows) && Last(journal + rows) == Last(rows);
      PostingSumAppend(journal, Front(rows), a);
    }
  }

  /** The row and the balances a posting leaves behind. */
  ghost predicate PostedRow(db: Db, after: Db, row: TxnRow) {
    && after.journal == db.journal + [row] && after.accounts.Keys == db.accounts.Keys
    && (forall a | a in db.accounts ::
          after.accounts[a].balance == Wrap(db.accounts[a].balance + AccountSum(row.legs, a)))
    && (forall a | a in db.accounts ::
          && after.accounts[a].allowNegative == db.accounts[a].allowNegative
          && (after.accounts[a] == db.accounts[a] || db.accounts[a].allowNegative || after.accounts[a].balance >= 0))
  }

  lemma PostHasEffect(cfg: Config, db: Db, key: string, req: Request, txn: int) returns (e: Entry)
    requires Apply(cfg, db, PostOp(key, req, txn)).Ok?
    ensures Build(cfg, db, req).Ok? && e == Build(cfg, db, req).value.entry
    ensures PostedRow(db, Apply(cfg, db, PostOp(key, req, txn)).value, RowOf(e, txn))
  {
    var job := Build(cfg, db, req).value;
    e := job.entry;
    var g := GuardVerdict(db.journal, job.guard);
    WritesRow(db, key, req, e, g, CheckPost(db.accounts, e.legs, g).value, txn);
  }

  lemma EffectWrites(db: Db, after: Db, row: TxnRow)
    requires Effect(db.accounts, row.legs, after.accounts) && after.journal == db.journal + [row]
    ensures PostedRow(db, after, row)
  {}

  lemma WritesAccounts(db: Db, after: Db, row: TxnRow, g: Result<(), LedgerError>)
    requires PostOn(db.accounts, row.legs, g) == Ok(after.accounts) && after.journal == db.journal + [row]
    ensures PostedRow(db, after, row)
  {
    PostEffect(db.accounts, row.legs, g);
    EffectWrites(db, after, row);
  }

  lemma WritesRow(db: Db, key: string, req: Request, e: Entry, g: Result<(), LedgerError>,
                  nb: map<int, Minor>, txn: int)
    requires CheckPost(db.accounts, e.legs, g) == Ok(nb)
    ensures PostedRow(db, Posted(db, key, req, e, nb, txn), RowOf(e, txn))
  {
    WritesAccounts(db, Posted(db, key, req, e, nb, txn), RowOf(e, txn), g);
  }

  lemma PostKeepsDerived(cfg: Config, db: Db, key: string, req: Request, txn: int)
    requires Derived(db) && Apply(cfg, db, PostOp(key, req, txn)).Ok?
    ensures Derived(Apply(cfg, db, PostOp(key, req, txn)).value)
  {
    var e := PostHasEffect(cfg, db, key, req, txn);
    RowKeepsDerived(db, Apply(cfg, db, PostOp(key, req, txn)).value, RowOf(e, txn));
  }

  lemma RowKeepsDerived(db: Db, after: Db, row: TxnRow)
    requires Derived(db) && PostedRow(db, after, row)
    ensures Derived(after)
  {}

  /** The journal and accounts a batch leaves behind. */
  ghost predicate BatchEffect(db: Db, after: Db, b: Batching, marked: set<int>, batch: int) {
    && after.accounts == Overlay(db.accounts, b.writes) && PostedOnTop(db.accounts, b)
    && after.journal == Mark(db.journal, marked, batch) + b.rows
    && after.keys == db.keys
    && forall i | 0 <= i < |b.rows| :: b.rows[i].kind.Settlement? && PairShape(b.rows[i].legs)
  }

  lemma PartsHaveEffect(db: Db, b: Batching, marked: set<int>, count: nat, nets: seq<Net>, batch: int, txns: seq<int>,
                        locked: set<int>)
    requires PostedOnTop(db.accounts, b) && BatchingOk(db.accounts, b, txns, locked)
    ensures BatchEffect(db, Settled(db, b, marked, count, nets, batch), b, marked, batch)
  {}

  lemma SettledHasEffect(cfg: Config, db: Db, merchants: set<int>, batch: int, txns: seq<int>, after: Db)
    returns (b: Batching)
    requires GoodDb(db) && Settle(cfg, db, merchants, batch, txns) == Ok(after)
    ensures BatchEffect(db, after, b, PendIds(Pendings(db.journal, merchants)), batch)
  {
    b := SettleParts(cfg, db, merchants, batch, txns);
    var pends := Pendings(db.journal, merchants);
    PartsHaveEffect(db, b, PendIds(pends), |pends|, NetsOf(db.journal, pends), batch, txns,
                    LockSet(merchants, PayoutMap(cfg, CurrenciesOf(db.accounts, merchants))));
  }

  lemma SettleHasEffect(cfg: Config, db: Db, merchants: set<int>, batch: int, txns: seq<int>) returns (b: Batching)
    requires GoodDb(db) && Apply(cfg, db, SettleOp(merchants, batch, txns)).Ok?
    ensures BatchEffect(db, Apply(cfg, db, SettleOp(merchants, batch, txns)).value, b,
                        PendIds(Pendings(db.journal, merchants)), batch)
  {
    b := SettledHasEffect(cfg, db, merchants, batch, txns, Apply(cfg, db, SettleOp(merchants, batch, txns)).value);
  }

  lemma BatchSums(db: Db, after: Db, b: Batching, marked: set<int>, batch: int, a: int)
    requires BatchEffect(db, after, b, marked, batch)
    ensures PostingSum(after.journal, a) == PostingSum(db.journal, a) + PostingSum(b.rows, a)
  {
    MarkQueries(db.journal, marked, batch, 0, a, "");
    PostingSumAppend(Mark(db.journal, marked, batch), b.rows, a);
  }

  lemma BatchBalances(db: Db, after: Db, b: Batching, marked: set<int>, batch: int, a: int)
    requires BatchEffect(db, after, b, marked, batch) && a in db.accounts
    ensures a in after.accounts && after.accounts[a].balance == Wrap(db.accounts[a].balance + PostingSum(b.rows, a))
  {}

  lemma BatchDerivedAt(db: Db, after: Db, b: Batching, marked: set<int>, batch: int, a: int)
    requires BatchEffect(db, after, b, marked, batch)
    requires a in db.accounts && db.accounts[a].balance == Wrap(PostingSum(db.journal, a))
    ensures after.accounts[a].balance == Wrap(PostingSum(after.journal, a))
  {
    BatchSums(db, after, b, marked, batch, a);
    BatchBalances(db, after, b, marked, batch, a);
    BalanceStep(0, PostingSum(db.journal, a), PostingSum(b.rows, a),
                db.accounts[a].balance, after.accounts[a].balance);
  }

  lemma BatchKeepsDerived(db: Db, after: Db, b: Batching, marked: set<int>, batch: int)
    requires Derived(db) && BatchEffect(db, after, b, marked, batch)
    ensures Derived(after)
  {
    forall a | a in after.accounts ensures after.accounts[a].balance == Wrap(PostingSum(after.journal, a)) {
      BatchDerivedAt(db, after, b, marked, batch, a);
    }
  }

  lemma PostKeepsValidated(cfg: Config, db: Db, key: string, req: Request, txn: int)
    requires Validated(db.journal) && Apply(cfg, db, PostOp(key, req, txn)).Ok?
    ensures Validated(Apply(cfg, db, PostOp(key, req, txn)).value.journal)
  {
    ValidateAccepts(Build(cfg, db, req).value.entry.legs);
  }

  lemma PairVanishes(legs: seq<Leg>)
    requires PairShape(legs)
    ensures Balanced(legs) && NetsVanish(legs)
  {
    PairSums(legs[0], legs[1]);
    assert legs == [legs[0], legs[1]];
  }

  /** A two-leg entry in a known currency passes Validate. */
  lemma PairValid(from: int, to: int, x: Minor, c: Currency)
    requires x > 0 && IsSupported(c)
    ensures ValidateLegs(Pair(from, to, x, c)).Ok? && Accounts(Pair(from, to, x, c)) == {from, to}
  {
    var legs := Pair(from, to, x, c);
    PairSums(legs[0], legs[1]);
    PairVanishes(legs);
    ValidateAccepts(legs);
  }

  lemma BatchKeepsBalanced(db: Db, after: Db, b: Batching, marked: set<int>, batch: int)
    requires BatchEffect(db, after, b, marked, batch)
    ensures Validated(db.journal) ==> Validated(after.journal)
    ensures AllBalanced(after.journal) <==> AllBalanced(db.journal)
  {
    forall i | 0 <= i < |after.journal|
      ensures i < |db.journal| ==> after.journal[i].legs == db.journal[i].legs
      ensures i >= |db.journal| ==> Balanced(after.journal[i].legs) && NetsVanish(after.journal[i].legs)
    {
      if i >= |db.journal| {
        assert after.journal[i] == b.rows[i - |db.journal|];
        PairVanishes(after.journal[i].legs);
      }
    }
    if AllBalanced(after.journal) {
      forall i | 0 <= i < |db.journal| ensures Balanced(db.journal[i].legs) {
        assert after.journal[i].legs == db.journal[i].legs;
      }
    }
  }

  /** Derived equals stored after every run of committed operations. */
  lemma {:induction false} RunDerived(cfg: Config, init: Db, log: seq<Op>)
    requires InitDb(init) && Run(cfg, init, log).Ok?
    ensures Derived(Run(cfg, init, log).value) && Validated(Run(cfg, init, log).value.journal)
  {
    if log != [] {
      RunDerived(cfg, init, Front(log));
      RunKeepsGood(cfg, init, Front(log));
      var db := Run(cfg, init, Front(log)).value;
      match Last(log)
      case PostOp(key, req, txn) =>
        PostKeepsDerived(cfg, db, key, req, txn);
        PostKeepsValidated(cfg, db, key, req, txn);
      case ReplayOp(_, _, _) =>
      case SettleOp(merchants, batch, txns) =>
        var b := SettleHasEffect(cfg, db, merchants, batch, txns);
        var marked := PendIds(Pendings(db.journal, merchants));
        BatchKeepsDerived(db, Run(cfg, init, log).value, b, marked, batch);
        BatchKeepsBalanced(db, Run(cfg, init, log).value, b, marked, batch);
    }
  }

  /** No account that may not go negative is below zero. */
  predicate NonNegative(accounts: map<int, Account>) {
    forall a | a in accounts :: accounts[a].allowNegative || accounts[a].balance >= 0
  }

  lemma BatchKeepsNonNegative(accounts: map<int, Account>, b: Batching)
    requires NonNegative(accounts) && PostedOnTop(accounts, b)
    ensures NonNegative(Overlay(accounts, b.writes))
  {}

  lemma PostKeepsNonNegative(db: Db, after: Db, row: TxnRow)
    requires NonNegative(db.accounts) && PostedRow(db, after, row)
    ensures NonNegative(after.accounts)
  {}

  /** After every run no account that may not go negative is below zero. */
  lemma {:induction false} RunNonNegative(cfg: Config, init: Db, log: seq<Op>)
    requires InitDb(init) && Run(cfg, init, log).Ok?
    ensures NonNegative(Run(cfg, init, log).value.accounts)
  {
    if log != [] {
      var db := Run(cfg, init, Front(log)).value;
      RunKeepsGood(cfg, init, Front(log));
      RunNonNegative(cfg, init, Front(log));
      match Last(log)
      case PostOp(key, req, txn) =>
        var e := PostHasEffect(cfg, db, key, req, txn);
        PostKeepsNonNegative(db, Run(cfg, init, log).value, RowOf(e, txn));
      case ReplayOp(_, _, _) =>
      case SettleOp(merchants, batch, txns) =>
        var b := SettleHasEffect(cfg, db, merchants, batch, txns);
        BatchKeepsNonNegative(db.accounts, b);
    }
  }

  /** The stored balance is the exact journal sum if and only if that sum is an int64. */
  lemma StoredIsDerivedIff(db: Db, a: int)
    requires Derived(db) && a in db.accounts
    ensures db.accounts[a].balance == PostingSum(db.journal, a) <==> InRange(PostingSum(db.journal, a))
  {}

  // ---------- sums over sets of accounts ----------

  ghost function SumOver(ids: set<int>, f: int -> int): int {
    if ids != {} then
      var x := Pick(ids);
      f(x) + SumOver(ids - {x}, f)
    else 0
  }

  lemma {:induction false} SumOverRemove(ids: set<int>, f: int -> int, x: int)
    requires x in ids
    ensures SumOver(ids, f) == f(x) + SumOver(ids - {x}, f)
  {
    var y := Pick(ids);
    if x != y {
      SumOverRemove(ids - {y}, f, x);
      assert ids - {y} - {x} == ids - {x} - {y};
      SumOverRemove(ids - {x}, f, y);
    }
  }

  lemma {:induction false} SumOverAdds(ids: set<int>, f: int -> int, g: int -> int, h: int -> int)
    requires forall a | a in ids :: h(a) == f(a) + g(a)
    ensures SumOver(ids, h) == SumOver(ids, f) + SumOver(ids, g)
  {
    if ids != {} {
      SumOverAdds(ids - {Pick(ids)}, f, g, h);
    }
  }

  lemma {:induction false} SumOverZero(ids: set<int>, f: int -> int)
    requires forall a | a in ids :: f(a) == 0
    ensures SumOver(ids, f) == 0
  {
    if ids != {} {
      SumOverZero(ids - {Pick(ids)}, f);
    }
  }

  lemma {:induction false} SumOverEqual(ids: set<int>, f: int -> int, g: int -> int)
    requires forall a | a in ids :: f(a) == g(a)
    ensures SumOver(ids, f) == SumOver(ids, g)
  {
    if ids != {} {
      SumOverEqual(ids - {Pick(ids)}, f, g);
    }
  }

  lemma {:induction false} SumOverPositive(ids: set<int>, f: int -> int)
    requires forall a | a in ids :: f(a) >= 0
    ensures SumOver(ids, f) >= 0
  {
    if ids != {} {
      SumOverPositive(ids - {Pick(ids)}, f);
    }
  }

  lemma {:induction false} SumOverSame(ids: set<int>, f: int -> int, g: int -> int)
    requires forall a | a in ids :: Same(f(a), g(a))
    ensures Same(SumOver(ids, f), SumOver(ids, g))
  {
    if ids != {} {
      var x := Pick(ids);
      SumOverSame(ids - {x}, f, g);
      var j :| f(x) == g(x) + j * TWO64;
      var k :| SumOver(ids - {x}, f) == SumOver(ids - {x}, g) + k * TWO64;
      SameIntro(SumOver(ids, f), SumOver(ids, g), j + k);
    } else {
      SameIntro(0, 0, 0);
    }
  }

  /** The accounts of a currency. */
  function Holders(accounts: map<int, Account>, c: Currency): set<int> {
    set a | a in accounts && accounts[a].currency == c
  }

  lemma LegSwap(ids: set<int>, l: Leg)
    ensures SumOver(ids, a => On(l, a)) == if l.account in ids then l.amount else 0
  {
    var f := a => On(l, a);
    if l.account in ids {
      SumOverRemove(ids, f, l.account);
      SumOverZero(ids - {l.account}, f);
    } else {
      SumOverZero(ids, f);
    }
  }

  lemma {:induction false} LegsSwap(accounts: map<int, Account>, legs: seq<Leg>, c: Currency)
    requires LegsOk(accounts, legs)
    ensures SumOver(Holders(accounts, c), a => AccountSum(legs, a)) == CurrencySum(legs, c)
  {
    var ids, f := Holders(accounts, c), (a: int) => AccountSum(legs, a);
    if legs == [] {
      SumOverZero(ids, f);
    } else {
      LegsSwap(accounts, Front(legs), c);
      LegSwap(ids, Last(legs));
      SumOverAdds(ids, a => AccountSum(Front(legs), a), a => On(Last(legs), a), f);
    }
  }

  /** Summing postings by account and then over a currency's accounts is summing them by
      currency. */
  lemma {:induction false} SumsSwap(accounts: map<int, Account>, journal: seq<TxnRow>, c: Currency)
    requires forall i | 0 <= i < |journal| :: LegsOk(accounts, journal[i].legs)
    ensures SumOver(Holders(accounts, c), a => PostingSum(journal, a)) == CurrencyTotal(journal, c)
  {
    var ids, f := Holders(accounts, c), (a: int) => PostingSum(journal, a);
    if journal == [] {
      SumOverZero(ids, f);
    } else {
      SumsSwap(accounts, Front(journal), c);
      LegsSwap(accounts, Last(journal).legs, c);
      SumOverAdds(ids, a => PostingSum(Front(journal), a), a => AccountSum(Last(journal).legs, a), f);
    }
  }

  // ---------- conservation ----------

  lemma {:induction false} TotalVanishes(journal: seq<TxnRow>, c: Currency)
    requires Validated(journal)
    ensures CurrencyTotal(journal, c) % TWO64 == 0
  {
    if journal != [] {
      assert Validated(Front(journal));
      TotalVanishes(Front(journal), c);
      assert NetsVanish(Last(journal).legs);
      assert CurrencySum(Last(journal).legs, c) % TWO64 == 0;
    }
  }

  /** SumBalancesByCurrency, for one currency; the scan fails outside the int64 range. */
  ghost function BalanceTotal(accounts: map<int, Account>, c: Currency): int {
    SumOver(Holders(accounts, c), a => if a in accounts then accounts[a].balance else 0)
  }

  lemma CommittedLegs(db: Db)
    requires GoodDb(db)
    ensures forall i | 0 <= i < |db.journal| :: LegsOk(db.accounts, db.journal[i].legs)
  {
    forall i | 0 <= i < |db.journal| ensures LegsOk(db.accounts, db.journal[i].legs) {
      assert RowOk(db.accounts, db.journal, db.journal[i]);
    }
  }

  /** In every currency the stored balances and the postings have the same total, modulo 2^64. */
  lemma TotalsSame(db: Db, c: Currency)
    requires GoodDb(db) && Derived(db)
    ensures Same(BalanceTotal(db.accounts, c), CurrencyTotal(db.journal, c))
  {
    CommittedLegs(db);
    SumsSwap(db.accounts, db.journal, c);
    var ids := Holders(db.accounts, c);
    var f := (a: int) => if a in db.accounts then db.accounts[a].balance else 0;
    var g := (a: int) => PostingSum(db.journal, a);
    forall a | a in ids ensures Same(f(a), g(a)) {
      WrapSame(PostingSum(db.journal, a));
    }
    SumOverSame(ids, f, g);
  }

  lemma MultipleVanishes(x: int, y: int)
    requires Same(x, y) && y % TWO64 == 0
    ensures InRange(x) ==> x == 0
    ensures InRange(y) ==> y == 0
  {
    var k :| x == y + k * TWO64;
    assert y == (y / TWO64) * TWO64;
    SameIntro(x, 0, y / TWO64 + k);
    WrapUnique(x, 0);
    WrapExact(x);
    WrapExact(y);
  }

  /** Both conservation queries, when they return at all, return zero for every currency. */
  lemma Conserved(db: Db, c: Currency)
    requires GoodDb(db) && Derived(db) && Validated(db.journal)
    ensures InRange(CurrencyTotal(db.journal, c)) ==> CurrencyTotal(db.journal, c) == 0
    ensures InRange(BalanceTotal(db.accounts, c)) ==> BalanceTotal(db.accounts, c) == 0
  {
    TotalVanishes(db.journal, c);
    TotalsSame(db, c);
    MultipleVanishes(BalanceTotal(db.accounts, c), CurrencyTotal(db.journal, c));
  }

  /** While every account's postings sum to an int64, the cached balances of a currency add up
      to exactly its postings: to zero, when every transaction balances. */
  lemma ConservedExactly(db: Db, c: Currency)
    requires GoodDb(db) && Derived(db)
    requires forall a | a in db.accounts :: InRange(PostingSum(db.journal, a))
    ensures BalanceTotal(db.accounts, c) == CurrencyTotal(db.journal, c)
    ensures AllBalanced(db.journal) ==> BalanceTotal(db.accounts, c) == 0
  {
    CommittedLegs(db);
    SumsSwap(db.accounts, db.journal, c);
    SumOverEqual(Holders(db.accounts, c), a => if a in db.accounts then db.accounts[a].balance else 0,
                 a => PostingSum(db.journal, a));
    if AllBalanced(db.journal) { BalancedTotals(db.journal, c); }
  }

  lemma {:induction false} BalancedTotals(journal: seq<TxnRow>, c: Currency)
    requires AllBalanced(journal)
    ensures CurrencyTotal(journal, c) == 0
  {
    if journal != [] {
      assert AllBalanced(Front(journal)) && Balanced(Last(journal).legs);
      BalancedTotals(Front(journal), c);
    }
  }

  // ---------- entries the payment operations build ----------

  ghost predicate AllBalanced(journal: seq<TxnRow>) {
    forall i | 0 <= i < |journal| :: Balanced(journal[i].legs)
  }

  /** The raw entries of a log, balanced in exact integers. */
  ghost predicate BalancedEntries(log: seq<Op>) {
    forall i | 0 <= i < |log| :: log[i].PostOp? && log[i].req.JournalReq? ==> Balanced(log[i].req.legs)
  }

  /** Transfers, payments, refunds and conversions are balanced by construction: every
      currency of the entry nets to exactly zero. */
  lemma BuildBalanced(cfg: Config, db: Db, req: Request)
    requires Build(cfg, db, req).Ok? && !req.JournalReq?
    ensures Balanced(Build(cfg, db, req).value.entry.legs)
  {
    var legs := Build(cfg, db, req).value.entry.legs;
    PairSums(legs[0], legs[1]);
    if req.FxReq? {
      PairSums(legs[2], legs[3]);
      FourLegs(legs);
    } else {
      assert legs == [legs[0], legs[1]];
    }
  }

  lemma FourLegs(legs: seq<Leg>)
    requires |legs| == 4
    ensures forall c: Currency ::
              CurrencySum(legs, c) == In(legs[0], c) + In(legs[1], c) + In(legs[2], c) + In(legs[3], c)
    ensures forall a: int :: AccountSum(legs, a) == On(legs[0], a) + On(legs[1], a) + On(legs[2], a) + On(legs[3], a)
  {
    assert Front(legs) == [legs[0], legs[1], legs[2]];
    assert Front(Front(legs)) == [legs[0], legs[1]];
    PairSums(legs[0], legs[1]);
    forall c: Currency
      ensures CurrencySum(legs, c) == In(legs[0], c) + In(legs[1], c) + In(legs[2], c) + In(legs[3], c) {
      assert CurrencySum(Front(legs), c) == CurrencySum([legs[0], legs[1]], c) + In(legs[2], c);
    }
    forall a: int
      ensures AccountSum(legs, a) == On(legs[0], a) + On(legs[1], a) + On(legs[2], a) + On(legs[3], a) {
      assert AccountSum(Front(legs), a) == AccountSum([legs[0], legs[1]], a) + On(legs[2], a);
    }
  }

  /** A journal is balanced transaction by transaction if and only if its raw entries are. */
  lemma {:induction false} RunBalancedIff(cfg: Config, init: Db, log: seq<Op>)
    requires InitDb(init) && Run(cfg, init, log).Ok?
    ensures AllBalanced(Run(cfg, init, log).value.journal) <==> BalancedEntries(log)
  {
    if log != [] {
      RunBalancedIff(cfg, init, Front(log));
      RunKeepsGood(cfg, init, Front(log));
      LogParts(log);
      ApplyBalancedIff(cfg, Run(cfg, init, Front(log)).value, Last(log));
    }
  }

  lemma ApplyBalancedIff(cfg: Config, db: Db, op: Op)
    requires GoodDb(db) && Apply(cfg, db, op).Ok?
    ensures AllBalanced(Apply(cfg, db, op).value.journal) <==> AllBalanced(db.journal) && BalancedEntries([op])
  {
    assert [op][0] == op;
    match op
    case PostOp(key, req, txn) =>
      var e := Build(cfg, db, req).value.entry;
      if !req.JournalReq? { BuildBalanced(cfg, db, req); }
      AppendBalanced(db.journal, RowOf(e, txn));
    case ReplayOp(_, _, _) =>
    case SettleOp(merchants, batch, txns) =>
      var b := SettleHasEffect(cfg, db, merchants, batch, txns);
      BatchKeepsBalanced(db, Apply(cfg, db, op).value, b, PendIds(Pendings(db.journal, merchants)), batch);
  }

  lemma LogParts(log: seq<Op>)
    requires log != []
    ensures BalancedEntries(log) <==> BalancedEntries(Front(log)) && BalancedEntries([Last(log)])
  {
    if BalancedEntries(Front(log)) && BalancedEntries([Last(log)]) {
      forall i | 0 <= i < |log| && log[i].PostOp? && log[i].req.JournalReq? ensures Balanced(log[i].req.legs) {
        if i < |log| - 1 { assert Front(log)[i] == log[i]; } else { assert [Last(log)][0] == log[i]; }
      }
    }
    if BalancedEntries(log) {
      assert forall i | 0 <= i < |log| - 1 :: Front(log)[i] == log[i];
    }
  }

  lemma AppendBalanced(journal: seq<TxnRow>, row: TxnRow)
    ensures AllBalanced(journal + [row]) <==> AllBalanced(journal) && Balanced(row.legs)
  {
    var j := journal + [row];
    if AllBalanced(j) {
      forall i | 0 <= i < |journal| ensures Balanced(journal[i].legs) { assert j[i] == journal[i]; }
      assert j[|journal|] == row;
    }
  }
}
