/** Two-leg transfers within a set of no-negative accounts: 64-bit arithmetic accepts and
    computes exactly what unbounded integers would. */
module Pools {
  import opened Wrappers
  import opened Int64
  import opened Money
  import opened Ledger
  import opened Database
  import opened Posting
  import opened Serial
  import opened Evolution
  import opened Balances

  function BalanceAt(accounts: map<int, Account>, a: int): int { if a in accounts then accounts[a].balance else 0 }

  ghost function Sum(accounts: map<int, Account>, pool: set<int>): int {
    SumOver(pool, a => BalanceAt(accounts, a))
  }

  /** No-negative accounts that hold an int64 total between them. */
  ghost predicate Pool(accounts: map<int, Account>, pool: set<int>, total: int) {
    && pool <= accounts.Keys && total <= MAX && Sum(accounts, pool) == total
    && forall a | a in pool :: !accounts[a].allowNegative && accounts[a].balance >= 0
  }

  /** The exact-integer rule for a transfer. */
  predicate Admissible(accounts: map<int, Account>, from: int, to: int, amount: int, c: Currency)
    requires from in accounts && to in accounts
  {
    && amount > 0 && from != to && IsSupported(c)
    && accounts[from].currency == c && accounts[to].currency == c
    && accounts[from].balance >= amount
  }

  lemma MemberBound(ids: set<int>, f: int -> int, x: int)
    requires x in ids && forall a | a in ids :: f(a) >= 0
    ensures f(x) <= SumOver(ids, f)
  {
    SumOverRemove(ids, f, x);
    SumOverPositive(ids - {x}, f);
  }

  lemma PairBound(ids: set<int>, f: int -> int, x: int, y: int)
    requires x in ids && y in ids && x != y && forall a | a in ids :: f(a) >= 0
    ensures f(x) + f(y) <= SumOver(ids, f)
  {
    SumOverRemove(ids, f, x);
    MemberBound(ids - {x}, f, y);
  }

  /** Each balance lies between 0 and the pool's total. */
  lemma PoolBounds(accounts: map<int, Account>, pool: set<int>, total: int, a: int)
    requires Pool(accounts, pool, total) && a in pool
    ensures 0 <= accounts[a].balance <= total
  {
    MemberBound(pool, x => BalanceAt(accounts, x), a);
  }

  lemma TransferAccepted(accounts: map<int, Account>, from: int, to: int, amount: Minor, c: Currency)
    requires from in accounts && to in accounts && Admissible(accounts, from, to, amount, c)
    requires accounts[to].balance >= 0 && accounts[from].balance + accounts[to].balance <= MAX
    ensures CheckPost(accounts, Pair(from, to, amount, c), Ok(())).Ok?
  {
    var legs := Pair(from, to, amount, c);
    PairValid(from, to, amount, c);
    PairSums(legs[0], legs[1]);
    NewBalanceExact(accounts[from], legs, from);
    NewBalanceExact(accounts[to], legs, to);
  }

  lemma TransferRefused(accounts: map<int, Account>, from: int, to: int, amount: Minor, c: Currency)
    requires from in accounts && to in accounts && amount > 0 && from != to
    requires !Admissible(accounts, from, to, amount, c)
    requires !accounts[from].allowNegative && accounts[from].balance >= 0
    ensures CheckPost(accounts, Pair(from, to, amount, c), Ok(())).Err?
  {
    var legs := Pair(from, to, amount, c);
    PairSums(legs[0], legs[1]);
    ValidateAccepts(legs);
    assert legs[0].account in Accounts(legs) && legs[1].account in Accounts(legs);
    NewBalanceExact(accounts[from], legs, from);
  }

  /** Accept or reject exactly as unbounded integers would. */
  lemma AcceptedIffAdmissible(cfg: Config, db: Db, key: string, from: int, to: int, amount: Minor, c: Currency,
                              txn: int, pool: set<int>, total: int)
    requires Pool(db.accounts, pool, total) && from in pool && to in pool
    requires key !in db.keys && txn !in Ids(db.journal)
    ensures Apply(cfg, db, PostOp(key, TransferReq(from, to, amount, c), txn)).Ok?
       <==> Admissible(db.accounts, from, to, amount, c)
  {
    if amount > 0 && from != to {
      PairBound(pool, a => BalanceAt(db.accounts, a), from, to);
      if Admissible(db.accounts, from, to, amount, c) {
        TransferAccepted(db.accounts, from, to, amount, c);
      } else {
        TransferRefused(db.accounts, from, to, amount, c);
      }
    }
  }

  /** The exact balances after a row of two opposite legs between accounts of the pool. */
  lemma PairExact(db: Db, after: Db, from: int, to: int, amount: Minor, c: Currency,
                  txn: int, pool: set<int>, total: int)
    requires Pool(db.accounts, pool, total) && from in pool && to in pool
    requires Admissible(db.accounts, from, to, amount, c)
    requires PostedRow(db, after, RowOf(Entry(Transfer, None, Pair(from, to, amount, c), false), txn))
    ensures after.accounts[from].balance == db.accounts[from].balance - amount
    ensures after.accounts[to].balance == db.accounts[to].balance + amount
    ensures forall a | a in db.accounts && a != from && a != to :: after.accounts[a].balance == db.accounts[a].balance
  {
    var legs := Pair(from, to, amount, c);
    PairBound(pool, a => BalanceAt(db.accounts, a), from, to);
    PairSums(legs[0], legs[1]);
  }

  /** An accepted transfer moves the exact amount and keeps the pool's total. */
  lemma TransferExact(cfg: Config, db: Db, key: string, from: int, to: int, amount: Minor, c: Currency, txn: int,
                      pool: set<int>, total: int)
    requires Pool(db.accounts, pool, total) && from in pool && to in pool
    requires Apply(cfg, db, PostOp(key, TransferReq(from, to, amount, c), txn)).Ok?
    ensures var after := Apply(cfg, db, PostOp(key, TransferReq(from, to, amount, c), txn)).value.accounts;
            && Pool(after, pool, total)
            && after[from].balance == db.accounts[from].balance - amount
            && after[to].balance == db.accounts[to].balance + amount
            && forall a | a in db.accounts && a != from && a != to :: after[a].balance == db.accounts[a].balance
  {
    var e := PostHasEffect(cfg, db, key, TransferReq(from, to, amount, c), txn);
    var after := Apply(cfg, db, PostOp(key, TransferReq(from, to, amount, c), txn)).value;
    AcceptedIffAdmissible(cfg, db, key, from, to, amount, c, txn, pool, total);
    PairExact(db, after, from, to, amount, c, txn, pool, total);
    Moved(db.accounts, after.accounts, from, to, amount, pool, total);
  }

  /** The total of the pool survives a move between two of its accounts. */
  lemma Moved(x: map<int, Account>, y: map<int, Account>, from: int, to: int, amount: int, pool: set<int>, total: int)
    requires Pool(x, pool, total) && from in pool && to in pool && from != to && x.Keys == y.Keys
    requires forall a | a in x :: y[a].allowNegative == x[a].allowNegative
    requires y[from].balance == x[from].balance - amount && y[to].balance == x[to].balance + amount
    requires forall a | a in x && a != from && a != to :: y[a].balance == x[a].balance
    requires forall a | a in pool :: y[a].balance >= 0
    ensures Pool(y, pool, total)
  {
    var f, g := (a: int) => BalanceAt(x, a), (a: int) => BalanceAt(y, a);
    SumOverRemove(pool, f, from);
    SumOverRemove(pool - {from}, f, to);
    SumOverRemove(pool, g, from);
    SumOverRemove(pool - {from}, g, to);
    SumOverEqual(pool - {from} - {to}, f, g);
  }

  /** Operations that move money within the pool by transfers only, or not at all. */
  predicate Confined(cfg: Config, db: Db, op: Op, pool: set<int>) {
    || Touched(cfg, db, op) !! pool
    || (op.PostOp? && op.req.TransferReq? && op.req.from in pool && op.req.to in pool)
  }

  predicate ConfinedRun(cfg: Config, start: Db, log: seq<Op>, pool: set<int>)
    requires Run(cfg, start, log).Ok?
  {
    log == [] || (ConfinedRun(cfg, start, Front(log), pool)
                  && Confined(cfg, Run(cfg, start, Front(log)).value, Last(log), pool))
  }

  lemma Untouched(x: map<int, Account>, y: map<int, Account>, pool: set<int>, total: int)
    requires Pool(x, pool, total) && x.Keys == y.Keys && forall a | a in pool :: y[a] == x[a]
    ensures Pool(y, pool, total)
  {
    SumOverEqual(pool, a => BalanceAt(x, a), a => BalanceAt(y, a));
  }

  lemma StepKeepsPool(cfg: Config, db: Db, op: Op, pool: set<int>, total: int)
    requires GoodDb(db) && Pool(db.accounts, pool, total) && Confined(cfg, db, op, pool) && Apply(cfg, db, op).Ok?
    ensures Pool(Apply(cfg, db, op).value.accounts, pool, total)
  {
    if Touched(cfg, db, op) !! pool {
      ApplyKeepsGood(cfg, db, op);
      Untouched(db.accounts, Apply(cfg, db, op).value.accounts, pool, total);
    } else {
      TransferExact(cfg, db, op.key, op.req.from, op.req.to, op.req.amount, op.req.currency, op.txn, pool, total);
    }
  }

  /** In every run the pool keeps its total, so every balance stays within [0, total]. */
  lemma {:induction false} RunKeepsPool(cfg: Config, start: Db, log: seq<Op>, pool: set<int>, total: int)
    requires GoodDb(start) && Pool(start.accounts, pool, total)
    requires Run(cfg, start, log).Ok? && ConfinedRun(cfg, start, log, pool)
    ensures GoodDb(Run(cfg, start, log).value) && Pool(Run(cfg, start, log).value.accounts, pool, total)
    ensures forall a | a in pool :: 0 <= Run(cfg, start, log).value.accounts[a].balance <= total
  {
    if log != [] {
      var db := Run(cfg, start, Front(log)).value;
      RunKeepsPool(cfg, start, Front(log), pool, total);
      ApplyKeepsGood(cfg, db, Last(log));
      StepKeepsPool(cfg, db, Last(log), pool, total);
    }
    forall a | a in pool ensures 0 <= Run(cfg, start, log).value.accounts[a].balance <= total {
      PoolBounds(Run(cfg, start, log).value.accounts, pool, total, a);
    }
  }
}
