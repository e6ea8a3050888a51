/** Netting and paying out pending payments (internal/store/settlement.go). */
module Settlement {
  import opened Wrappers
  import opened Int64
  import opened Money
  import opened Ledger
  import opened Database
  import opened Posting

  // ---------- the netting query ----------

  datatype Net = Net(merchant: int, currency: Currency, net: int)

  function Owed(journal: seq<TxnRow>, p: Pend): int { p.captured - Refunded(journal, p.id) }

  /** GROUP BY merchant, currency ORDER BY merchant, one pending row at a time. */
  function AddNet(nets: seq<Net>, m: int, c: Currency, x: int): seq<Net> {
    if nets == [] || m < nets[0].merchant then [Net(m, c, x)] + nets
    else if m == nets[0].merchant && c == nets[0].currency then [nets[0].(net := nets[0].net + x)] + nets[1..]
    else [nets[0]] + AddNet(nets[1..], m, c, x)
  }

  function NetsOf(journal: seq<TxnRow>, pends: seq<Pend>): seq<Net> {
    if pends == [] then []
    else
      var p := Last(pends);
      AddNet(NetsOf(journal, Front(pends)), p.merchant, p.currency, Owed(journal, p))
  }

  predicate IsFor(n: Net, m: int, c: Currency) { n.merchant == m && n.currency == c }

  /** The total of a group in the query's result. */
  function NetFor(nets: seq<Net>, m: int, c: Currency): int {
    if nets == [] then 0 else (if IsFor(nets[0], m, c) then nets[0].net else 0) + NetFor(nets[1..], m, c)
  }

  /** Captured minus refunded, summed over a group's own pending payments. */
  function OwedBy(journal: seq<TxnRow>, pends: seq<Pend>, m: int, c: Currency): int {
    if pends == [] then 0
    else
      var p := Last(pends);
      OwedBy(journal, Front(pends), m, c) + (if p.merchant == m && p.currency == c then Owed(journal, p) else 0)
  }

  /** Groups are distinct and ordered by merchant. */
  predicate Grouped(nets: seq<Net>) {
    forall i, j | 0 <= i < j < |nets| ::
      nets[i].merchant <= nets[j].merchant && !IsFor(nets[i], nets[j].merchant, nets[j].currency)
  }

  predicate HasGroup(nets: seq<Net>, m: int, c: Currency) { exists i | 0 <= i < |nets| :: IsFor(nets[i], m, c) }

  lemma HasGroupCons(n: Net, nets: seq<Net>, m: int, c: Currency)
    ensures HasGroup([n] + nets, m, c) <==> IsFor(n, m, c) || HasGroup(nets, m, c)
  {
    var s := [n] + nets;
    if IsFor(n, m, c) {
      assert IsFor(s[0], m, c);
    } else {
      if HasGroup(nets, m, c) {
        var i :| 0 <= i < |nets| && IsFor(nets[i], m, c);
        assert IsFor(s[i + 1], m, c);
      }
      if HasGroup(s, m, c) {
        var i :| 0 <= i < |s| && IsFor(s[i], m, c);
        assert IsFor(nets[i - 1], m, c);
      }
    }
  }

  lemma {:induction false} AddNetGroups(nets: seq<Net>, m: int, c: Currency, x: int, m': int, c': Currency)
    ensures HasGroup(AddNet(nets, m, c, x), m', c') <==> (m' == m && c' == c) || HasGroup(nets, m', c')
    ensures NetFor(AddNet(nets, m, c, x), m', c') == NetFor(nets, m', c') + (if m' == m && c' == c then x else 0)
  {
    if nets == [] || m < nets[0].merchant {
      HasGroupCons(Net(m, c, x), nets, m', c');
      assert ([Net(m, c, x)] + nets)[1..] == nets;
    } else {
      assert nets == [nets[0]] + nets[1..];
      HasGroupCons(nets[0], nets[1..], m', c');
      if m == nets[0].merchant && c == nets[0].currency {
        HasGroupCons(nets[0].(net := nets[0].net + x), nets[1..], m', c');
      } else {
        AddNetGroups(nets[1..], m, c, x, m', c');
        HasGroupCons(nets[0], AddNet(nets[1..], m, c, x), m', c');
        assert ([nets[0]] + AddNet(nets[1..], m, c, x))[1..] == AddNet(nets[1..], m, c, x);
      }
    }
  }

  lemma GroupedTail(nets: seq<Net>)
    requires Grouped(nets) && nets != []
    ensures Grouped(nets[1..])
    ensures forall i | 0 <= i < |nets[1..]| ::
      nets[0].merchant <= nets[1..][i].merchant && !IsFor(nets[0], nets[1..][i].merchant, nets[1..][i].currency)
  {}

  lemma GroupedCons(n: Net, nets: seq<Net>)
    requires Grouped(nets)
    requires forall i | 0 <= i < |nets| ::
               n.merchant <= nets[i].merchant && !IsFor(n, nets[i].merchant, nets[i].currency)
    ensures Grouped([n] + nets)
  {}

  lemma {:induction false} AddNetGrouped(nets: seq<Net>, m: int, c: Currency, x: int)
    requires Grouped(nets)
    ensures Grouped(AddNet(nets, m, c, x))
    ensures forall i | 0 <= i < |AddNet(nets, m, c, x)| ::
      var n := AddNet(nets, m, c, x)[i];
      (n.merchant == m && n.currency == c) || HasGroup(nets, n.merchant, n.currency)
    ensures |AddNet(nets, m, c, x)| <= |nets| + 1
  {
    if nets == [] || m < nets[0].merchant {
      GroupedCons(Net(m, c, x), nets);
    } else {
      GroupedTail(nets);
      if m == nets[0].merchant && c == nets[0].currency {
        GroupedCons(nets[0].(net := nets[0].net + x), nets[1..]);
      } else {
        var t := AddNet(nets[1..], m, c, x);
        AddNetGrouped(nets[1..], m, c, x);
        forall i | 0 <= i < |t|
          ensures nets[0].merchant <= t[i].merchant && !IsFor(nets[0], t[i].merchant, t[i].currency)
        {
          if HasGroup(nets[1..], t[i].merchant, t[i].currency) {
            var k :| 0 <= k < |nets[1..]| && IsFor(nets[1..][k], t[i].merchant, t[i].currency);
          }
        }
        GroupedCons(nets[0], t);
      }
    }
    var r := AddNet(nets, m, c, x);
    forall i | 0 <= i < |r|
      ensures (r[i].merchant == m && r[i].currency == c) || HasGroup(nets, r[i].merchant, r[i].currency)
    {
      AddNetGroups(nets, m, c, x, r[i].merchant, r[i].currency);
      assert IsFor(r[i], r[i].merchant, r[i].currency);
    }
  }

  /** The query's result: one row per group, whose net is the group's own captured minus refunded. */
  lemma {:induction false} NetsAreGroupSums(journal: seq<TxnRow>, pends: seq<Pend>, m: int, c: Currency)
    ensures NetFor(NetsOf(journal, pends), m, c) == OwedBy(journal, pends, m, c)
    ensures HasGroup(NetsOf(journal, pends), m, c)
      <==> exists i | 0 <= i < |pends| :: pends[i].merchant == m && pends[i].currency == c
    ensures Grouped(NetsOf(journal, pends))
  {
    if pends != [] {
      var p, rest := Last(pends), Front(pends);
      NetsAreGroupSums(journal, rest, m, c);
      AddNetGroups(NetsOf(journal, rest), p.merchant, p.currency, Owed(journal, p), m, c);
      AddNetGrouped(NetsOf(journal, rest), p.merchant, p.currency, Owed(journal, p));
      if i: int :| 0 <= i < |pends| && pends[i].merchant == m && pends[i].currency == c {
        if i < |rest| { assert rest[i] == pends[i]; }
      }
      if i: int :| 0 <= i < |rest| && rest[i].merchant == m && rest[i].currency == c {
        assert pends[i] == rest[i];
      }
      assert pends[|pends| - 1] == p;
    }
  }

  lemma {:induction false} NetForRow(nets: seq<Net>, i: nat)
    requires Grouped(nets) && i < |nets|
    ensures NetFor(nets, nets[i].merchant, nets[i].currency) == nets[i].net
  {
    if i == 0 {
      NetForAbsent(nets[1..], nets[0].merchant, nets[0].currency);
    } else {
      GroupedTail(nets);
      assert nets[1..][i - 1] == nets[i];
      NetForRow(nets[1..], i - 1);
    }
  }

  lemma {:induction false} NetForAbsent(nets: seq<Net>, m: int, c: Currency)
    requires forall i | 0 <= i < |nets| :: !IsFor(nets[i], m, c)
    ensures NetFor(nets, m, c) == 0
  {
    if nets != [] {
      NetForAbsent(nets[1..], m, c);
    }
  }

  /** The nets depend on the pending rows and their refunds only. */
  lemma {:induction false} NetsFrame(x: seq<TxnRow>, y: seq<TxnRow>, pends: seq<Pend>)
    requires forall i | 0 <= i < |pends| :: Refunded(x, pends[i].id) == Refunded(y, pends[i].id)
    ensures NetsOf(x, pends) == NetsOf(y, pends)
  {
    if pends != [] {
      NetsFrame(x, y, Front(pends));
    }
  }

  // ---------- the payout loop ----------

  /** Every net can be scanned into an int64. */
  predicate Scannable(nets: seq<Net>) { forall i | 0 <= i < |nets| :: InRange(nets[i].net) }

  /** How many merchants are still owed something. */
  function Positive(nets: seq<Net>): nat {
    if nets == [] then 0 else Positive(Front(nets)) + (if Last(nets).net > 0 then 1 else 0)
  }

  /** What a settlement transaction has written so far: balances and payout rows. */
  datatype Batching = Batching(writes: map<int, Minor>, rows: seq<TxnRow>)

  /** payouts[mn.currency]: Go yields 0 for a missing key. */
  function PayoutOf(payouts: map<Currency, int>, c: Currency): int { if c in payouts then payouts[c] else 0 }

  function PayoutLegs(payouts: map<Currency, int>, n: Net): seq<Leg>
    requires 0 < n.net <= MAX
  {
    Pair(n.merchant, PayoutOf(payouts, n.currency), n.net, n.currency)
  }

  function PayoutRow(payouts: map<Currency, int>, n: Net, id: int): TxnRow
    requires 0 < n.net <= MAX
  {
    RowOf(Entry(TxnKind.Settlement, None, PayoutLegs(payouts, n), false), id)
  }

  /** One iteration: postEntryTx re-reads the transaction's own writes. */
  function PayOne(accounts: map<int, Account>, b: Batching, payouts: map<Currency, int>, n: Net, id: int)
    : Result<Batching, LedgerError>
  {
    if !InRange(n.net) then Err(QueryOverflow)
    else if n.net <= 0 then Ok(b)
    else
      var nb :- CheckPost(Overlay(accounts, b.writes), PayoutLegs(payouts, n), Ok(()));
      Ok(Batching(b.writes + nb, b.rows + [PayoutRow(payouts, n, id)]))
  }

  function IdAt(ids: seq<int>, k: nat): int { if k < |ids| then ids[k] else 0 }

  function PayAll(accounts: map<int, Account>, payouts: map<Currency, int>, nets: seq<Net>, ids: seq<int>)
    : Result<Batching, LedgerError>
  {
    if nets == [] then Ok(Batching(map[], []))
    else
      var b :- PayAll(accounts, payouts, Front(nets), ids);
      PayOne(accounts, b, payouts, Last(nets), IdAt(ids, |b.rows|))
  }

  /** The exact total of the positive nets. */
  function Outflow(nets: seq<Net>): nat {
    if nets == [] then 0 else Outflow(Front(nets)) + (if Last(nets).net > 0 then Last(nets).net else 0)
  }

  /** net_total, accumulated in an int64. */
  function NetTotal(nets: seq<Net>): Minor { Wrap(Outflow(nets)) }

  function CurrenciesOf(accounts: map<int, Account>, merchants: set<int>): set<Currency> {
    set m | m in merchants && m in accounts :: accounts[m].currency
  }

  function PayoutMap(cfg: Config, currencies: set<Currency>): map<Currency, int> {
    map c | c in currencies && c in cfg.payout :: cfg.payout[c]
  }

  /** merchants ∪ payouts */
  function LockSet(merchants: set<int>, payouts: map<Currency, int>): set<int> { merchants + payouts.Values }

  function PendIds(pends: seq<Pend>): set<int> { set i | 0 <= i < |pends| :: pends[i].id }

  /** A settlement batch over the given merchants, in one piece. */
  function Settle(cfg: Config, db: Db, merchants: set<int>, batch: int, ids: seq<int>): Result<Db, LedgerError> {
    var currencies := CurrenciesOf(db.accounts, merchants);
    var payouts := PayoutMap(cfg, currencies);
    var pends := Pendings(db.journal, merchants);
    var nets := NetsOf(db.journal, pends);
    if !(currencies <= cfg.payout.Keys) then Err(NoPayoutAccount)
    else if !(LockSet(merchants, payouts) <= db.accounts.Keys) then Err(AccountNotFound)
    else
      var b :- PayAll(db.accounts, payouts, nets, ids);
      if |b.rows| != |ids| then Err(Transient)
      else Ok(Settled(db, b, PendIds(pends), |pends|, nets, batch))
  }

  /** The state a batch commits. */
  function Settled(db: Db, b: Batching, marked: set<int>, count: nat, nets: seq<Net>, batch: int): Db {
    db.(accounts := Overlay(db.accounts, b.writes),
        journal := Mark(db.journal, marked, batch) + b.rows,
        batches := db.batches[batch := Batch(count, NetTotal(nets))])
  }

  // ---------- properties of the payout loop ----------

  lemma OverlayCompose(accounts: map<int, Account>, w: map<int, Minor>, nb: map<int, Minor>)
    ensures Overlay(Overlay(accounts, w), nb) == Overlay(accounts, w + nb)
  {}

  /** The accounts a batch may touch. */
  predicate Covered(nets: seq<Net>, payouts: map<Currency, int>, locked: set<int>) {
    forall i | 0 <= i < |nets| :: nets[i].merchant in locked && PayoutOf(payouts, nets[i].currency) in locked
  }

  lemma PayOneFrame(x: map<int, Account>, y: map<int, Account>, b: Batching, payouts: map<Currency, int>, n: Net,
                    id: int, locked: set<int>)
    requires forall a | a in locked :: (a in x <==> a in y) && (a in x ==> x[a] == y[a])
    requires Covered([n], payouts, locked)
    ensures PayOne(x, b, payouts, n, id) == PayOne(y, b, payouts, n, id)
  {
    assert [n][0] == n;
    if 0 < n.net <= MAX {
      var legs := PayoutLegs(payouts, n);
      PairSums(legs[0], legs[1]);
      assert legs == [legs[0], legs[1]];
      CheckPostFrame(Overlay(x, b.writes), Overlay(y, b.writes), legs, Ok(()));
    }
  }

  /** The loop's result depends on the locked rows only. */
  lemma {:induction false} PayAllFrame(x: map<int, Account>, y: map<int, Account>, payouts: map<Currency, int>,
                                       nets: seq<Net>, ids: seq<int>, locked: set<int>)
    requires forall a | a in locked :: (a in x <==> a in y) && (a in x ==> x[a] == y[a])
    requires Covered(nets, payouts, locked)
    ensures PayAll(x, payouts, nets, ids) == PayAll(y, payouts, nets, ids)
  {
    if nets != [] {
      CoveredParts(nets, payouts, locked);
      PayAllFrame(x, y, payouts, Front(nets), ids, locked);
      var b := PayAll(x, payouts, Front(nets), ids);
      if b.Ok? {
        PayOneFrame(x, y, b.value, payouts, Last(nets), IdAt(ids, |b.value.rows|), locked);
      }
    }
  }

  lemma CoveredParts(nets: seq<Net>, payouts: map<Currency, int>, locked: set<int>)
    requires Covered(nets, payouts, locked) && nets != []
    ensures Covered(Front(nets), payouts, locked) && Covered([Last(nets)], payouts, locked)
  {}

  /** Further ids do not change what has been paid. */
  lemma {:induction false} PayAllIds(accounts: map<int, Account>, payouts: map<Currency, int>, nets: seq<Net>,
                                     ids: seq<int>, more: seq<int>)
    requires PayAll(accounts, payouts, nets, ids).Ok?
    requires |PayAll(accounts, payouts, nets, ids).value.rows| <= |ids|
    ensures PayAll(accounts, payouts, nets, ids + more) == PayAll(accounts, payouts, nets, ids)
  {
    if nets != [] {
      PayAllIds(accounts, payouts, Front(nets), ids, more);
    }
  }

  /** Whether a batch goes through, and what it does to the balances, does not depend on the
      ids the sequence hands out. */
  lemma {:induction false} PayAllAnyIds(accounts: map<int, Account>, payouts: map<Currency, int>, nets: seq<Net>,
                                        ids: seq<int>, other: seq<int>)
    ensures var r, s := PayAll(accounts, payouts, nets, ids), PayAll(accounts, payouts, nets, other);
            if r.Ok? then s.Ok? && r.value.writes == s.value.writes && |r.value.rows| == |s.value.rows|
            else s == r
  {
    if nets != [] {
      PayAllAnyIds(accounts, payouts, Front(nets), ids, other);
    }
  }

  /** A batch that fails at some merchant fails as a whole, with that merchant's error. */
  lemma {:induction false} PayAllFails(accounts: map<int, Account>, payouts: map<Currency, int>, nets: seq<Net>,
                                       ids: seq<int>, i: nat)
    requires i <= |nets| && PayAll(accounts, payouts, nets[..i], ids).Err?
    ensures PayAll(accounts, payouts, nets, ids) == PayAll(accounts, payouts, nets[..i], ids)
    decreases |nets|
  {
    if i < |nets| {
      assert Front(nets)[..i] == nets[..i];
      PayAllFails(accounts, payouts, Front(nets), ids, i);
    } else {
      assert nets[..i] == nets;
    }
  }

  predicate PaidOk(db: Db, payouts: map<Currency, int>, nets: seq<Net>, k: nat, b: Batching, txns: seq<int>) {
    k <= |nets| && |b.rows| == |txns| && PayAll(db.accounts, payouts, nets[..k], txns) == Ok(b)
  }

  /** One more payout: the loop so far, continued with the next net and a new id. */
  lemma PayMore(db: Db, po: map<Currency, int>, nets: seq<Net>, k: nat, b: Batching, txns: seq<int>,
                id: int, r: Batching)
    requires PaidOk(db, po, nets, k, b, txns) && k < |nets|
    requires PayOne(db.accounts, b, po, nets[k], id) == Ok(r)
    ensures PaidOk(db, po, nets, k + 1, r, if |r.rows| == |b.rows| then txns else txns + [id])
  {
    assert Front(nets[..k + 1]) == nets[..k] && Last(nets[..k + 1]) == nets[k];
    if nets[k].net > 0 {
      PayAllIds(db.accounts, po, nets[..k], txns, [id]);
      assert IdAt(txns + [id], |b.rows|) == id;
    }
  }

  /** The net of each merchant the loop has paid: the positive nets. */
  function PaidNets(nets: seq<Net>, m: int): int {
    if nets == [] then 0
    else
      var n := Last(nets);
      PaidNets(Front(nets), m) + (if n.merchant == m && n.net > 0 then n.net else 0)
  }

  /** The total paid out to a merchant by a list of payout rows. */
  function PaidBy(rows: seq<TxnRow>, m: int): nat {
    if rows == [] then 0
    else
      var row := Last(rows);
      PaidBy(Front(rows), m) + (if row.kind.Settlement? then DebitSum(row.legs, m) else 0)
  }

  /** The writes are exactly the rows, posted on top of the committed balances, and leave no
      no-negative account below zero. */
  ghost predicate PostedOnTop(accounts: map<int, Account>, b: Batching) {
    b.writes.Keys <= accounts.Keys && forall a | a in accounts :: PostedFor(accounts, b, a)
  }

  ghost predicate PostedFor(accounts: map<int, Account>, b: Batching, a: int)
    requires a in accounts
  {
    && Overlay(accounts, b.writes)[a].balance == Wrap(accounts[a].balance + PostingSum(b.rows, a))
    && (a in b.writes && !accounts[a].allowNegative ==> b.writes[a] >= 0)
  }

  lemma BalanceStep(start: int, posted: int, delta: int, view: Minor, after: Minor)
    requires view == Wrap(start + posted) && after == Wrap(view + delta)
    ensures after == Wrap(start + (posted + delta))
  {}

  lemma PostedFold(accounts: map<int, Account>, b: Batching, next: Batching, a: int, delta: int)
    requires a in accounts && PostedFor(accounts, b, a) && PostingSum(next.rows, a) == PostingSum(b.rows, a) + delta
    requires Overlay(accounts, next.writes)[a].balance == Wrap(Overlay(accounts, b.writes)[a].balance + delta)
    requires a in next.writes && !accounts[a].allowNegative ==> next.writes[a] >= 0
    ensures PostedFor(accounts, next, a)
  {
    BalanceStep(accounts[a].balance, PostingSum(b.rows, a), delta,
                Overlay(accounts, b.writes)[a].balance, Overlay(accounts, next.writes)[a].balance);
  }

  lemma PostedAt(accounts: map<int, Account>, b: Batching, row: TxnRow, nb: map<int, Minor>, a: int)
    requires a in accounts && PostedFor(accounts, b, a) && nb.Keys == Accounts(row.legs)
    requires Effect(Overlay(accounts, b.writes), row.legs, Overlay(accounts, b.writes + nb))
    ensures PostedFor(accounts, Batching(b.writes + nb, b.rows + [row]), a)
  {
    AppendRow(b.rows, row);
    PostedFold(accounts, b, Batching(b.writes + nb, b.rows + [row]), a, AccountSum(row.legs, a));
  }

  lemma ViewEffect(accounts: map<int, Account>, w: map<int, Minor>, legs: seq<Leg>, nb: map<int, Minor>)
    requires CheckPost(Overlay(accounts, w), legs, Ok(())) == Ok(nb)
    ensures Effect(Overlay(accounts, w), legs, Overlay(accounts, w + nb)) && nb.Keys == Accounts(legs)
  {
    PostEffect(Overlay(accounts, w), legs, Ok(()));
    OverlayCompose(accounts, w, nb);
  }

  lemma PostedStep(accounts: map<int, Account>, b: Batching, legs: seq<Leg>, row: TxnRow, nb: map<int, Minor>)
    requires PostedOnTop(accounts, b) && row.legs == legs
    requires CheckPost(Overlay(accounts, b.writes), legs, Ok(())) == Ok(nb)
    ensures PostedOnTop(accounts, Batching(b.writes + nb, b.rows + [row]))
  {
    ViewEffect(accounts, b.writes, legs, nb);
    var next := Batching(b.writes + nb, b.rows + [row]);
    forall a | a in accounts ensures PostedFor(accounts, next, a) {
      PostedAt(accounts, b, row, nb, a);
    }
  }

  lemma PayOneEffect(accounts: map<int, Account>, b: Batching, payouts: map<Currency, int>, n: Net, id: int)
    requires PostedOnTop(accounts, b) && 0 < n.net <= MAX
    requires PayOne(accounts, b, payouts, n, id).Ok?
    ensures PostedOnTop(accounts, PayOne(accounts, b, payouts, n, id).value)
  {
    var legs := PayoutLegs(payouts, n);
    PostedStep(accounts, b, legs, PayoutRow(payouts, n, id),
               CheckPost(Overlay(accounts, b.writes), legs, Ok(())).value);
  }

  lemma {:induction false} PayAllEffect(accounts: map<int, Account>, payouts: map<Currency, int>, nets: seq<Net>,
                                        ids: seq<int>)
    requires PayAll(accounts, payouts, nets, ids).Ok?
    ensures PostedOnTop(accounts, PayAll(accounts, payouts, nets, ids).value)
  {
    if nets != [] {
      PayAllEffect(accounts, payouts, Front(nets), ids);
      var b := PayAll(accounts, payouts, Front(nets), ids).value;
      if Last(nets).net > 0 {
        PayOneEffect(accounts, b, payouts, Last(nets), IdAt(ids, |b.rows|));
      }
    }
  }

  // ---------- what the payout rows add up to ----------

  /** The nets a loop has moved into an account as a payout rail. */
  function ReceivedNets(nets: seq<Net>, payouts: map<Currency, int>, a: int): int {
    if nets == [] then 0
    else
      var n := Last(nets);
      ReceivedNets(Front(nets), payouts, a) + (if PayoutOf(payouts, n.currency) == a && n.net > 0 then n.net else 0)
  }

  lemma PayoutRowSums(payouts: map<Currency, int>, n: Net, id: int, a: int)
    requires 0 < n.net <= MAX
    ensures AccountSum(PayoutRow(payouts, n, id).legs, a)
         == (if PayoutOf(payouts, n.currency) == a then n.net else 0) - (if n.merchant == a then n.net else 0)
    ensures DebitSum(PayoutRow(payouts, n, id).legs, a) == if n.merchant == a then n.net else 0
  {
    var legs := PayoutLegs(payouts, n);
    PairSums(legs[0], legs[1]);
    assert legs == [legs[0], legs[1]];
    assert Front(legs) == [legs[0]] && Front([legs[0]]) == [];
    assert DebitSum([legs[0]], a) == if n.merchant == a then n.net else 0;
  }

  /** Each account moves by the nets it receives as a payout rail less the nets it is paid
      out, however many payouts of the transaction touch it. */
  lemma {:induction false} PayAllSums(accounts: map<int, Account>, payouts: map<Currency, int>, nets: seq<Net>,
                                      ids: seq<int>, a: int)
    requires PayAll(accounts, payouts, nets, ids).Ok?
    ensures var rows := PayAll(accounts, payouts, nets, ids).value.rows;
            && PostingSum(rows, a) == ReceivedNets(nets, payouts, a) - PaidNets(nets, a)
            && PaidBy(rows, a) == PaidNets(nets, a)
  {
    if nets != [] {
      PayAllSums(accounts, payouts, Front(nets), ids, a);
      var b := PayAll(accounts, payouts, Front(nets), ids).value;
      if Last(nets).net > 0 {
        var row := PayoutRow(payouts, Last(nets), IdAt(ids, |b.rows|));
        PayoutRowSums(payouts, Last(nets), IdAt(ids, |b.rows|), a);
        AppendRow(b.rows, row);
      }
    }
  }

  /** What the rows of a batch take out of all accounts together. */
  function TakenOut(rows: seq<TxnRow>): nat {
    if rows == [] then 0 else TakenOut(Front(rows)) + Debits(Last(rows).legs)
  }

  /** A batch that goes through scanned every net and made one payout per positive net. */
  lemma {:induction false} PayAllCount(accounts: map<int, Account>, payouts: map<Currency, int>, nets: seq<Net>,
                                       ids: seq<int>)
    requires PayAll(accounts, payouts, nets, ids).Ok?
    ensures Scannable(nets) && |PayAll(accounts, payouts, nets, ids).value.rows| == Positive(nets)
  {
    if nets != [] {
      PayAllCount(accounts, payouts, Front(nets), ids);
      assert forall i | 0 <= i < |nets| - 1 :: nets[i] == Front(nets)[i];
    }
  }

  lemma PayoutDebits(payouts: map<Currency, int>, n: Net, id: int)
    requires 0 < n.net <= MAX
    ensures Debits(PayoutRow(payouts, n, id).legs) == n.net
  {
    var legs := PayoutLegs(payouts, n);
    assert Front(legs) == [legs[0]] && Front([legs[0]]) == [];
    assert Debits([legs[0]]) == n.net;
  }

  /** The total a batch reports is what its payouts take out. */
  lemma {:induction false} PayAllTotal(accounts: map<int, Account>, payouts: map<Currency, int>, nets: seq<Net>,
                                       ids: seq<int>)
    requires PayAll(accounts, payouts, nets, ids).Ok?
    ensures TakenOut(PayAll(accounts, payouts, nets, ids).value.rows) == Outflow(nets)
  {
    if nets != [] {
      PayAllTotal(accounts, payouts, Front(nets), ids);
      var b := PayAll(accounts, payouts, Front(nets), ids).value;
      if Last(nets).net > 0 {
        PayoutDebits(payouts, Last(nets), IdAt(ids, |b.rows|));
        AppendRow(b.rows, PayoutRow(payouts, Last(nets), IdAt(ids, |b.rows|)));
      }
    }
  }

  /** An account ends a batch with the nets it received as a payout rail less the nets it was
      paid out: a rail that is no merchant grows by exactly the sum of its currency's nets. */
  lemma RailGrows(accounts: map<int, Account>, payouts: map<Currency, int>, nets: seq<Net>, ids: seq<int>, b: Batching,
                  rail: int)
    requires PayAll(accounts, payouts, nets, ids) == Ok(b) && rail in accounts
    ensures Overlay(accounts, b.writes)[rail].balance
         == Wrap(accounts[rail].balance + (ReceivedNets(nets, payouts, rail) - PaidNets(nets, rail)))
    ensures (forall i | 0 <= i < |nets| :: nets[i].merchant != rail) ==> PaidNets(nets, rail) == 0
  {
    PayAllSums(accounts, payouts, nets, ids, rail);
    PayAllEffect(accounts, payouts, nets, ids);
    PostedOn(accounts, b, rail);
    if forall i | 0 <= i < |nets| :: nets[i].merchant != rail { NotPaid(nets, rail); }
  }

  lemma PostedOn(accounts: map<int, Account>, b: Batching, a: int)
    requires PostedOnTop(accounts, b) && a in accounts
    ensures Overlay(accounts, b.writes)[a].balance == Wrap(accounts[a].balance + PostingSum(b.rows, a))
  {}

  lemma {:induction false} NotPaid(nets: seq<Net>, m: int)
    requires forall i | 0 <= i < |nets| :: nets[i].merchant != m
    ensures PaidNets(nets, m) == 0
  {
    if nets != [] {
      assert forall i | 0 <= i < |Front(nets)| :: Front(nets)[i] == nets[i];
      NotPaid(Front(nets), m);
    }
  }
}
