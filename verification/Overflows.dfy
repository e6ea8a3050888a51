/** Runs that leave the int64 range, step by step: what the program then does. */
module Overflows {
  import opened Wrappers
  import opened Int64
  import opened Money
  import opened FxRate
  import opened Ledger
  import opened Database
  import opened Posting
  import opened Settlement
  import opened Serial
  import opened Evolution
  import opened Balances
  import opened Refunds
  import opened PaidOnce
  import FxDesk

  const EXTERNAL: int := 1

  const MERCHANT: int := 2

  const RAIL: int := 3

  function Books(external: Minor, merchant: Minor, rail: Minor): map<int, Account> {
    map[EXTERNAL := Account("USD", true, external), MERCHANT := Account("USD", false, merchant),
        RAIL := Account("USD", true, rail)]
  }

  /** What has been committed, as far as the runs below need it. */
  predicate At(db: Db, external: Minor, merchant: Minor, rail: Minor, journal: seq<TxnRow>, used: set<string>) {
    && db.accounts == Books(external, merchant, rail) && db.journal == journal && db.keys.Keys == used
    && db.batches == map[]
  }

  // ---------- two-leg entries ----------

  lemma PairBalances(view: map<int, Account>, from: int, to: int, x: Minor)
    requires from in view && to in view && from != to && x > 0
    ensures var legs := Pair(from, to, x, "USD");
            && NewBalance(view[from], legs, from) == Wrap(view[from].balance - x)
            && NewBalance(view[to], legs, to) == Wrap(view[to].balance + x)
  {
    var legs := Pair(from, to, x, "USD");
    PairSums(legs[0], legs[1]);
    NewBalanceExact(view[from], legs, from);
    NewBalanceExact(view[to], legs, to);
  }

  /** An entry between dollar accounts that leaves no no-negative one below zero. */
  lemma PairAccepted(view: map<int, Account>, from: int, to: int, x: Minor)
    requires from in view && to in view && from != to && x > 0
    requires view[from].currency == "USD" && view[to].currency == "USD"
    requires view[from].allowNegative || Wrap(view[from].balance - x) >= 0
    requires view[to].allowNegative || Wrap(view[to].balance + x) >= 0
    ensures CheckPost(view, Pair(from, to, x, "USD"), Ok(())) == Ok(NewBalances(view, Pair(from, to, x, "USD")))
  {
    PairValid(from, to, x, "USD");
    PairBalances(view, from, to, x);
  }

  lemma Written(view: map<int, Account>, nb: map<int, Minor>, from: int, to: int)
    requires from in view && to in view && nb.Keys == {from, to} && from != to
    ensures Overlay(view, nb) == view[from := view[from].(balance := nb[from])][to := view[to].(balance := nb[to])]
  {}

  lemma PairPosts(view: map<int, Account>, from: int, to: int, x: Minor, after: map<int, Account>)
    requires from in view && to in view && from != to && x > 0
    requires view[from].currency == "USD" && view[to].currency == "USD"
    requires view[from].allowNegative || Wrap(view[from].balance - x) >= 0
    requires view[to].allowNegative || Wrap(view[to].balance + x) >= 0
    requires after == view[from := view[from].(balance := Wrap(view[from].balance - x))]
                          [to := view[to].(balance := Wrap(view[to].balance + x))]
    ensures PostOn(view, Pair(from, to, x, "USD"), Ok(())) == Ok(after)
  {
    PairAccepted(view, from, to, x);
    PairBalances(view, from, to, x);
    PairValid(from, to, x, "USD");
    Written(view, NewBalances(view, Pair(from, to, x, "USD")), from, to);
  }

  lemma BooksAfter(e: Minor, m: Minor, rl: Minor, from: int, to: int, x: Minor, f: Minor, n: Minor, sl: Minor)
    requires from in Books(e, m, rl) && to in Books(e, m, rl) && from != to
    requires f == if from == EXTERNAL then Wrap(e - x) else if to == EXTERNAL then Wrap(e + x) else e
    requires n == if from == MERCHANT then Wrap(m - x) else if to == MERCHANT then Wrap(m + x) else m
    requires sl == if from == RAIL then Wrap(rl - x) else if to == RAIL then Wrap(rl + x) else rl
    ensures var view := Books(e, m, rl);
            Books(f, n, sl) == view[from := view[from].(balance := Wrap(view[from].balance - x))]
                                   [to := view[to].(balance := Wrap(view[to].balance + x))]
  {}

  lemma Moves(db: Db, from: int, to: int, x: Minor, journal: seq<TxnRow>, used: set<string>,
              e: Minor, m: Minor, rl: Minor, f: Minor, n: Minor, sl: Minor)
    requires At(db, e, m, rl, journal, used) && from in Books(e, m, rl) && to in Books(e, m, rl) && from != to && x > 0
    requires from == MERCHANT ==> Wrap(m - x) >= 0
    requires to == MERCHANT ==> Wrap(m + x) >= 0
    requires f == if from == EXTERNAL then Wrap(e - x) else if to == EXTERNAL then Wrap(e + x) else e
    requires n == if from == MERCHANT then Wrap(m - x) else if to == MERCHANT then Wrap(m + x) else m
    requires sl == if from == RAIL then Wrap(rl - x) else if to == RAIL then Wrap(rl + x) else rl
    ensures PostOn(db.accounts, Pair(from, to, x, "USD"), Ok(())) == Ok(Books(f, n, sl))
  {
    BooksAfter(e, m, rl, from, to, x, f, n, sl);
    PairPosts(db.accounts, from, to, x, Books(f, n, sl));
  }

  // ---------- the operations ----------

  function Pay(to: int, x: Minor, txn: int): Op { PostOp("", PaymentReq(EXTERNAL, to, x, "USD"), txn) }

  function Send(x: Minor, txn: int): Op { PostOp("", TransferReq(EXTERNAL, MERCHANT, x, "USD"), txn) }

  function GiveBack(key: string, x: Minor, txn: int): Op { PostOp(key, RefundReq(1, x), txn) }

  function PaymentRow(to: int, x: Minor, id: int): TxnRow
    requires x > 0
  {
    RowOf(Entry(Payment, None, Pair(EXTERNAL, to, x, "USD"), true), id)
  }

  function SendRow(x: Minor, id: int): TxnRow
    requires x > 0
  {
    RowOf(Entry(Transfer, None, Pair(EXTERNAL, MERCHANT, x, "USD"), false), id)
  }

  function RefundRow(x: Minor, id: int): TxnRow
    requires x > 0
  {
    RowOf(Entry(Refund, Some(1), Pair(MERCHANT, EXTERNAL, x, "USD"), false), id)
  }

  lemma Pays(cfg: Config, db: Db, e: Minor, m: Minor, rl: Minor, journal: seq<TxnRow>, used: set<string>,
             to: int, x: Minor, id: int, f: Minor, n: Minor, sl: Minor)
    requires At(db, e, m, rl, journal, used) && "" !in used && id !in Ids(journal) && x > 0
    requires to == MERCHANT || to == RAIL
    requires to == MERCHANT ==> Wrap(m + x) >= 0
    requires f == Wrap(e - x) && n == (if to == MERCHANT then Wrap(m + x) else m)
    requires sl == if to == RAIL then Wrap(rl + x) else rl
    ensures var r := Apply(cfg, db, Pay(to, x, id));
            r.Ok? && At(r.value, f, n, sl, journal + [PaymentRow(to, x, id)], used)
  {
    Moves(db, EXTERNAL, to, x, journal, used, e, m, rl, f, n, sl);
  }

  lemma Sends(cfg: Config, db: Db, e: Minor, m: Minor, rl: Minor, journal: seq<TxnRow>, used: set<string>,
              x: Minor, id: int, f: Minor, n: Minor)
    requires At(db, e, m, rl, journal, used) && "" !in used && id !in Ids(journal) && x > 0
    requires f == Wrap(e - x) && n == Wrap(m + x) >= 0
    ensures var r := Apply(cfg, db, Send(x, id));
            r.Ok? && At(r.value, f, n, rl, journal + [SendRow(x, id)], used)
  {
    Moves(db, EXTERNAL, MERCHANT, x, journal, used, e, m, rl, f, n, rl);
  }

  lemma RefundJob(cfg: Config, db: Db, x: Minor, prior: nat)
    requires x > 0 && Find(db.journal, 1) == Some(PaymentRow(MERCHANT, 1, 1))
    requires RefundedSoFar(db.journal, 1, MERCHANT) == prior <= MAX && Wrap(prior + x) <= 1
    ensures var job := Build(cfg, db, RefundReq(1, x));
            && job.Ok? && job.value.entry == Entry(Refund, Some(1), Pair(MERCHANT, EXTERNAL, x, "USD"), false)
            && GuardVerdict(db.journal, job.value.guard) == Ok(())
  {
    DecodeOrder(Leg(EXTERNAL, "USD", -1), Leg(MERCHANT, "USD", 1));
  }

  lemma GivesBack(cfg: Config, db: Db, e: Minor, m: Minor, rl: Minor, journal: seq<TxnRow>, used: set<string>,
                  key: string, x: Minor, id: int, prior: nat, f: Minor, n: Minor)
    requires At(db, e, m, rl, journal, used) && key != "" && key !in used && id !in Ids(journal) && x > 0
    requires Find(journal, 1) == Some(PaymentRow(MERCHANT, 1, 1))
    requires RefundedSoFar(journal, 1, MERCHANT) == prior <= MAX && Wrap(prior + x) <= 1
    requires f == Wrap(e + x) && n == Wrap(m - x) >= 0
    ensures var r := Apply(cfg, db, GiveBack(key, x, id));
            r.Ok? && At(r.value, f, n, rl, journal + [RefundRow(x, id)], used + {key})
  {
    RefundJob(cfg, db, x, prior);
    Moves(db, MERCHANT, EXTERNAL, x, journal, used, e, m, rl, f, n, rl);
  }

  lemma Continues(cfg: Config, init: Db, log: seq<Op>, op: Op)
    requires Run(cfg, init, log).Ok?
    ensures Run(cfg, init, log + [op]) == Apply(cfg, Run(cfg, init, log).value, op)
  {}

  // ---------- a stored balance that is not the sum of its postings ----------

  const TWO_PAYMENTS: seq<Op> := [] + [Pay(MERCHANT, MAX, 1)] + [Pay(RAIL, MAX, 2)]

  lemma MinusTwiceMax()
    ensures Wrap(-MAX - MAX) == 2
  {
    SameIntro(-MAX - MAX, 2, -1);
    WrapUnique(-MAX - MAX, 2);
  }

  /** Two payments of 2^63 - 1 out of one account leave it with a stored balance of 2. */
  lemma StoredIsNotDerived(cfg: Config, init: Db)
    requires InitDb(init) && init.accounts == Books(0, 0, 0)
    ensures Run(cfg, init, TWO_PAYMENTS).Ok?
    ensures var db := Run(cfg, init, TWO_PAYMENTS).value;
            db.accounts[EXTERNAL].balance == 2 && PostingSum(db.journal, EXTERNAL) == -2 * MAX
  {
    var first := [] + [Pay(MERCHANT, MAX, 1)];
    Continues(cfg, init, [], Pay(MERCHANT, MAX, 1));
    Pays(cfg, init, 0, 0, 0, [], {}, MERCHANT, MAX, 1, -MAX, MAX, 0);
    Continues(cfg, init, first, Pay(RAIL, MAX, 2));
    assert [] + [PaymentRow(MERCHANT, MAX, 1)] == [PaymentRow(MERCHANT, MAX, 1)];
    SecondPayment(cfg, Run(cfg, init, first).value, MAX, 2);
  }

  lemma TwoPayments(x: Minor, rows: seq<TxnRow>)
    requires x > 0 && rows == [PaymentRow(MERCHANT, x, 1), PaymentRow(RAIL, x, 2)]
    ensures PostingSum(rows, EXTERNAL) == -2 * x
  {
    var one, two := PaymentRow(MERCHANT, x, 1), PaymentRow(RAIL, x, 2);
    AppendRow([one], two);
    AppendRow([], one);
    assert [one] + [two] == rows && [] + [one] == [one];
    PairSums(one.legs[0], one.legs[1]);
    PairSums(two.legs[0], two.legs[1]);
    assert PostingSum([one], EXTERNAL) == 0 - x;
  }

  lemma SecondPayment(cfg: Config, db: Db, x: Minor, id: int)
    requires x == MAX && id == 2 && At(db, -MAX, MAX, 0, [PaymentRow(MERCHANT, x, 1)], {})
    ensures var r := Apply(cfg, db, Pay(RAIL, x, id));
            && r.Ok? && r.value.accounts == Books(2, MAX, MAX)
            && PostingSum(r.value.journal, EXTERNAL) == -2 * MAX
  {
    var rows := [PaymentRow(MERCHANT, x, 1)];
    MinusTwiceMax();
    Pays(cfg, db, -MAX, MAX, 0, rows, {}, RAIL, x, id, 2, MAX, MAX);
    assert rows + [PaymentRow(RAIL, x, id)] == [PaymentRow(MERCHANT, x, 1), PaymentRow(RAIL, x, 2)];
    TwoPayments(x, rows + [PaymentRow(RAIL, x, id)]);
  }

  // ---------- a payment refunded beyond its captured amount, then settled unpaid ----------

  const CREDITED: seq<Op> := [] + [Pay(MERCHANT, 1, 1)] + [Send(MAX - 1, 2)]

  const REFUNDED: seq<Op> := CREDITED + [GiveBack("a", 1, 3)] + [Send(1, 4)] + [GiveBack("b", MAX, 5)]

  const SETTLED: seq<Op> := REFUNDED + [SettleOp({MERCHANT}, 1, [])]

  function CreditedRows(): seq<TxnRow> { [PaymentRow(MERCHANT, 1, 1)] + [SendRow(MAX - 1, 2)] }

  function OneRefund(x: Minor): seq<TxnRow>
    requires x > 0
  {
    CreditedRows() + [RefundRow(x, 3)] + [SendRow(x, 4)]
  }

  function AllRows(x: Minor, y: Minor): seq<TxnRow>
    requires x > 0 && y > 0
  {
    OneRefund(x) + [RefundRow(y, 5)]
  }

  /** One row more, as the queries see it. */
  lemma RowAdds(j: seq<TxnRow>, row: TxnRow)
    requires row.id != 1 && !row.kind.Payment? && !row.kind.Settlement?
    requires row.kind.Refund? ==> row.refTxn == Some(1) && PairShape(row.legs) && row.legs[0].account == MERCHANT
    ensures var x := if row.kind.Refund? then row.legs[1].amount else 0;
            && Find(j + [row], 1) == Find(j, 1)
            && Refunded(j + [row], 1) == Refunded(j, 1) + x
            && RefundedSoFar(j + [row], 1, MERCHANT) == RefundedSoFar(j, 1, MERCHANT) + x
            && Pendings(j + [row], {MERCHANT}) == Pendings(j, {MERCHANT})
            && PaidBy(j + [row], MERCHANT) == PaidBy(j, MERCHANT)
            && Ids(j + [row]) == Ids(j) + {row.id}
  {
    AppendRow(j, row);
    if row.kind.Refund? { PairDebits(row.legs); }
    IdsAppend(j, row);
  }

  lemma IdsAppend(j: seq<TxnRow>, row: TxnRow)
    ensures Ids(j + [row]) == Ids(j) + {row.id}
  {
    var k := j + [row];
    assert k[|j|] == row;
    forall x | x in Ids(j) ensures x in Ids(k) {
      var i :| 0 <= i < |j| && j[i].id == x;
      assert k[i].id == x;
    }
  }

  /** What the queries say about a journal that starts with the one-unit payment. */
  predicate Queries(j: seq<TxnRow>, refunded: nat, ids: set<int>) {
    && Find(j, 1) == Some(PaymentRow(MERCHANT, 1, 1)) && j != [] && j[0] == PaymentRow(MERCHANT, 1, 1)
    && Refunded(j, 1) == refunded && RefundedSoFar(j, 1, MERCHANT) == refunded
    && Pendings(j, {MERCHANT}) == [Pend(1, MERCHANT, "USD", 1)] && PaidBy(j, MERCHANT) == 0 && Ids(j) == ids
  }

  lemma FirstRow(x: Minor, id: int)
    requires x == 1 && id == 1
    ensures Queries([PaymentRow(MERCHANT, x, id)], 0, {1})
  {
    var row := PaymentRow(MERCHANT, x, id);
    AppendRow([], row);
    assert [] + [row] == [row];
    PendingsOfPair(row, {MERCHANT});
    IdsAppend([], row);
    assert Ids([]) == {};
  }

  lemma NextRow(j: seq<TxnRow>, refunded: nat, ids: set<int>, row: TxnRow, more: nat)
    requires Queries(j, refunded, ids) && row.id !in ids && !row.kind.Payment? && !row.kind.Settlement?
    requires row.kind.Refund? ==> row.refTxn == Some(1) && PairShape(row.legs) && row.legs[0].account == MERCHANT
    requires more == if row.kind.Refund? then row.legs[1].amount else 0
    ensures Queries(j + [row], refunded + more, ids + {row.id})
  {
    assert j[0].id in Ids(j);
    RowAdds(j, row);
  }

  lemma CreditedQueries(x: Minor)
    requires x == 1
    ensures Queries(CreditedRows(), 0, {1, 2})
  {
    FirstRow(x, 1);
    NextRow([PaymentRow(MERCHANT, x, 1)], 0, {1}, SendRow(MAX - 1, 2), 0);
    assert {1} + {2} == {1, 2};
  }

  lemma RefundQueries(x: Minor)
    requires x == 1
    ensures Queries(CreditedRows() + [RefundRow(x, 3)], x, {1, 2, 3})
  {
    CreditedQueries(x);
    NextRow(CreditedRows(), 0, {1, 2}, RefundRow(x, 3), x);
    assert {1, 2} + {3} == {1, 2, 3};
  }

  lemma OneRefundQueries(x: Minor)
    requires x == 1
    ensures Queries(OneRefund(x), x, {1, 2, 3, 4})
  {
    RefundQueries(x);
    NextRow(CreditedRows() + [RefundRow(x, 3)], x, {1, 2, 3}, SendRow(x, 4), 0);
    assert {1, 2, 3} + {4} == {1, 2, 3, 4};
  }

  lemma AllQueries(x: Minor, y: Minor)
    requires x == 1 && y > 0
    ensures Queries(AllRows(x, y), x + y, {1, 2, 3, 4, 5})
  {
    OneRefundQueries(x);
    NextRow(OneRefund(x), x, {1, 2, 3, 4}, RefundRow(y, 5), y);
    assert {1, 2, 3, 4} + {5} == {1, 2, 3, 4, 5};
  }

  lemma Credited(cfg: Config, init: Db, y: Minor)
    requires InitDb(init) && init.accounts == Books(0, 0, 0) && y == MAX - 1
    ensures var r := Run(cfg, init, CREDITED); r.Ok? && At(r.value, -MAX, MAX, 0, CreditedRows(), {})
  {
    var first := [] + [Pay(MERCHANT, 1, 1)];
    FirstRow(1, 1);
    Continues(cfg, init, [], Pay(MERCHANT, 1, 1));
    Pays(cfg, init, 0, 0, 0, [], {}, MERCHANT, 1, 1, -1, 1, 0);
    assert [] + [PaymentRow(MERCHANT, 1, 1)] == [PaymentRow(MERCHANT, 1, 1)];
    Continues(cfg, init, first, Send(MAX - 1, 2));
    Sends(cfg, Run(cfg, init, first).value, -1, 1, 0, [PaymentRow(MERCHANT, 1, 1)], {}, y, 2, -MAX, MAX);
  }

  lemma FirstRefund(cfg: Config, db: Db, key: string, x: Minor, id: int)
    requires At(db, -MAX, MAX, 0, CreditedRows(), {}) && key == "a" && x == 1 && id == 3
    ensures var r := Apply(cfg, db, GiveBack(key, x, id));
            r.Ok? && At(r.value, 1 - MAX, MAX - 1, 0, CreditedRows() + [RefundRow(x, id)], {key})
  {
    CreditedQueries(x);
    GivesBack(cfg, db, -MAX, MAX, 0, CreditedRows(), {}, key, x, id, 0, 1 - MAX, MAX - 1);
  }

  lemma SecondCredit(cfg: Config, db: Db, x: Minor, id: int)
    requires x == 1 && id == 4 && At(db, 1 - MAX, MAX - 1, 0, CreditedRows() + [RefundRow(x, 3)], {"a"})
    ensures var r := Apply(cfg, db, Send(x, id)); r.Ok? && At(r.value, -MAX, MAX, 0, OneRefund(x), {"a"})
  {
    RefundQueries(x);
    Sends(cfg, db, 1 - MAX, MAX - 1, 0, CreditedRows() + [RefundRow(x, 3)], {"a"}, x, id, -MAX, MAX);
  }

  lemma SecondRefund(cfg: Config, db: Db, key: string, x: Minor, y: Minor, id: int)
    requires key == "b" && x == 1 && y == MAX && id == 5 && At(db, -MAX, MAX, 0, OneRefund(x), {"a"})
    ensures var r := Apply(cfg, db, GiveBack(key, y, id));
            r.Ok? && At(r.value, 0, 0, 0, AllRows(x, y), {"a", "b"})
  {
    OneRefundQueries(x);
    GuardWraps();
    GivesBack(cfg, db, -MAX, MAX, 0, OneRefund(x), {"a"}, key, y, id, 1, 0, 0);
  }

  /** The payment with id 1 captured one unit and is refunded 2^63 units. */
  lemma RefundedTooMuch(cfg: Config, init: Db)
    requires InitDb(init) && init.accounts == Books(0, 0, 0)
    ensures var r := Run(cfg, init, REFUNDED);
            && r.Ok? && At(r.value, 0, 0, 0, AllRows(1, MAX), {"a", "b"})
            && r.value.journal[0] == PaymentRow(MERCHANT, 1, 1) && Refunded(r.value.journal, 1) == MAX + 1
  {
    var a := CREDITED + [GiveBack("a", 1, 3)];
    var b := a + [Send(1, 4)];
    Credited(cfg, init, MAX - 1);
    Continues(cfg, init, CREDITED, GiveBack("a", 1, 3));
    FirstRefund(cfg, Run(cfg, init, CREDITED).value, "a", 1, 3);
    Continues(cfg, init, a, Send(1, 4));
    SecondCredit(cfg, Run(cfg, init, a).value, 1, 4);
    Continues(cfg, init, b, GiveBack("b", MAX, 5));
    SecondRefund(cfg, Run(cfg, init, b).value, "b", 1, MAX, 5);
    AllQueries(1, MAX);
  }

  /** A batch over the merchant: its one net is negative, so nothing is paid. */
  lemma SettlesUnpaid(cfg: Config, db: Db, j: seq<TxnRow>, ms: set<int>, batch: int)
    requires At(db, 0, 0, 0, j, {"a", "b"}) && Queries(j, MAX + 1, {1, 2, 3, 4, 5}) && ms == {MERCHANT}
    requires "USD" in cfg.payout && cfg.payout["USD"] == RAIL
    ensures Worth(j, Pendings(j, ms), MERCHANT) == -MAX
    ensures var r := Apply(cfg, db, SettleOp(ms, batch, []));
            && r.Ok? && |r.value.journal| == |j| && r.value.journal[0].settled && PaidBy(r.value.journal, MERCHANT) == 0
  {
    var pends := Pendings(j, ms);
    NegativeNet(j, ms, pends);
    OneCurrency(db.accounts, ms);
    RailsOnly(cfg, db.accounts, ms);
    NothingToPay(db.accounts, PayoutMap(cfg, CurrenciesOf(db.accounts, ms)), NetsOf(j, pends));
    MarkedUnpaid(j, pends, batch);
  }

  lemma NegativeNet(j: seq<TxnRow>, ms: set<int>, pends: seq<Pend>)
    requires Queries(j, MAX + 1, {1, 2, 3, 4, 5}) && ms == {MERCHANT} && pends == Pendings(j, ms)
    ensures pends == [Pend(1, MERCHANT, "USD", 1)] && Worth(j, pends, MERCHANT) == -MAX
    ensures NetsOf(j, pends) == [Net(MERCHANT, "USD", -MAX)]
  {
    var p := pends[0];
    assert pends == [p] && Front(pends) == [];
    assert Owed(j, p) == -MAX && NetsOf(j, Front(pends)) == [];
  }

  lemma NothingToPay(accounts: map<int, Account>, payouts: map<Currency, int>, nets: seq<Net>)
    requires nets == [Net(MERCHANT, "USD", -MAX)]
    ensures PayAll(accounts, payouts, nets, []) == Ok(Batching(map[], []))
  {
    assert Front(nets) == [];
  }

  lemma MarkedUnpaid(j: seq<TxnRow>, pends: seq<Pend>, batch: int)
    requires j != [] && j[0] == PaymentRow(MERCHANT, 1, 1) && PaidBy(j, MERCHANT) == 0
    requires pends == [Pend(1, MERCHANT, "USD", 1)]
    ensures var marked := Mark(j, PendIds(pends), batch) + [];
            |marked| == |j| && marked[0].settled && PaidBy(marked, MERCHANT) == 0
  {
    assert pends[0].id in PendIds(pends);
    PaidByMark(j, PendIds(pends), batch, MERCHANT);
    assert Mark(j, PendIds(pends), batch) + [] == Mark(j, PendIds(pends), batch);
  }

  lemma OneCurrency(accounts: map<int, Account>, ms: set<int>)
    requires ms == {MERCHANT} && MERCHANT in accounts && accounts[MERCHANT].currency == "USD"
    ensures CurrenciesOf(accounts, ms) == {"USD"}
  {
    assert MERCHANT in ms;
  }

  lemma RailsOnly(cfg: Config, accounts: map<int, Account>, ms: set<int>)
    requires ms == {MERCHANT} && MERCHANT in accounts && accounts[MERCHANT].currency == "USD" && RAIL in accounts
    requires "USD" in cfg.payout && cfg.payout["USD"] == RAIL
    ensures LockSet(ms, PayoutMap(cfg, CurrenciesOf(accounts, ms))) <= accounts.Keys
  {
    OneCurrency(accounts, ms);
  }

  /** The one payment of the merchant ends up settled and unpaid, although what it was worth to
      the merchant was not nothing but minus 2^63 + 1. */
  lemma SettledWithoutPay(cfg: Config, init: Db)
    requires InitDb(init) && init.accounts == Books(0, 0, 0) && "USD" in cfg.payout && cfg.payout["USD"] == RAIL
    ensures var r := Run(cfg, init, SETTLED);
            && r.Ok? && r.value.journal != [] && r.value.journal[0].settled && PaidBy(r.value.journal, MERCHANT) == 0
            && !BatchesCovered(cfg, init, SETTLED, MERCHANT) && SettledWorth(cfg, init, SETTLED, MERCHANT) < 0
  {
    var op := SettleOp({MERCHANT}, 1, []);
    RefundedTooMuch(cfg, init);
    AllQueries(1, MAX);
    Continues(cfg, init, REFUNDED, op);
    SettlesUnpaid(cfg, Run(cfg, init, REFUNDED).value, AllRows(1, MAX), {MERCHANT}, 1);
    assert Front(SETTLED) == REFUNDED && Last(SETTLED) == op;
    PaidOutIsWorth(cfg, init, SETTLED, MERCHANT);
  }

  // ---------- a conversion that is narrowed ----------

  function Desks(): map<int, Account> {
    map[1 := Account("USD", true, 0), 2 := Account("USD", true, 0), 3 := Account("EUR", true, 0),
        4 := Account("EUR", false, 0)]
  }

  const HUGE: Minor := 0x4000_0000_0000_0001

  const FOUR_TO_ONE: Rate := Rate(4, 1)

  /** 2^62 + 1 units at 4/1 convert to 4 units: the product is 2^64 + 4. */
  lemma ConvertNarrows(r: Rate, x: Minor)
    requires r == FOUR_TO_ONE && x == HUGE
    ensures ConvertValue(r, x) == 4 && !Convertible(r, x)
  {
    assert Quotient(r, x) == TWO64 + 4;
    SameIntro(TWO64 + 4, 4, 1);
    WrapUnique(TWO64 + 4, 4);
  }

  lemma NarrowedValid(x: Minor, legs: seq<Leg>)
    requires x > 0 && legs == Pair(1, 2, x, "USD") + Pair(3, 4, 4, "EUR")
    ensures ValidateLegs(legs).Ok? && Accounts(legs) == {1, 2, 3, 4}
    ensures AccountSum(legs, 4) == 4
  {
    FourLegs(legs);
    assert NetsVanish(legs);
    ValidateAccepts(legs);
    assert legs[0].account == 1 && legs[1].account == 2 && legs[2].account == 3 && legs[3].account == 4;
    forall a ensures a in Accounts(legs) <==> a in {1, 2, 3, 4} {
      assert legs[0].account in Accounts(legs) && legs[1].account in Accounts(legs);
      assert legs[2].account in Accounts(legs) && legs[3].account in Accounts(legs);
    }
  }

  lemma NarrowedAccepted(accounts: map<int, Account>, x: Minor, legs: seq<Leg>)
    requires accounts == Desks() && x > 0 && legs == Pair(1, 2, x, "USD") + Pair(3, 4, 4, "EUR")
    ensures CheckPost(accounts, legs, Ok(())).Ok?
  {
    NarrowedValid(x, legs);
    NewBalanceExact(accounts[4], legs, 4);
  }

  lemma NarrowedAccepts(cfg: Config, init: Db, x: Minor, r: Rate, id: int)
    requires InitDb(init) && init.accounts == Desks() && cfg.fxDesk == map["USD" := 2, "EUR" := 3]
    requires r.Usable() && x > 0 && ConvertValue(r, x) == 4
    ensures Apply(cfg, init, PostOp("", FxReq(1, 4, x, r), id)).Ok?
  {
    NarrowedBuild(cfg, init, x, r, 1, 4, 4);
    NarrowedAccepted(init.accounts, x, Pair(1, 2, x, "USD") + Pair(3, 4, 4, "EUR"));
  }

  lemma NarrowedBuild(cfg: Config, init: Db, x: Minor, r: Rate, source: int, target: int, y: Minor)
    requires init.accounts == Desks() && cfg.fxDesk == map["USD" := 2, "EUR" := 3] && source == 1 && target == 4
    requires r.Usable() && x > 0 && ConvertValue(r, x) == y && y > 0
    ensures Build(cfg, init, FxReq(source, target, x, r)).Ok?
    ensures var job := Build(cfg, init, FxReq(source, target, x, r)).value;
            job.guard.None? && job.entry.legs == Pair(source, 2, x, "USD") + Pair(3, target, y, "EUR")
  {}

  /** ConvertFX posts it: the desk takes 2^62 + 1 units and releases 4. */
  lemma NarrowedTrade(cfg: Config, init: Db, x: Minor, r: Rate, id: int)
    requires InitDb(init) && init.accounts == Desks() && cfg.fxDesk == map["USD" := 2, "EUR" := 3]
    requires r == FOUR_TO_ONE && x == HUGE
    ensures var op := PostOp("", FxReq(1, 4, x, r), id);
            && FxDesk.Trade(cfg, init, op, r, "USD", "EUR")
            && Apply(cfg, init, op).Ok?
            && FxDesk.Released(init, Apply(cfg, init, op).value, 3) == 4
            && FxDesk.Taken(init, Apply(cfg, init, op).value, 2) == x
            && !Close(r, 4, x, 1)
  {
    ConvertNarrows(r, x);
    NarrowedAccepts(cfg, init, x, r, id);
    NarrowedMoves(cfg, init, x, r, id);
  }

  lemma NarrowedMoves(cfg: Config, init: Db, x: Minor, r: Rate, id: int)
    requires InitDb(init) && init.accounts == Desks() && cfg.fxDesk == map["USD" := 2, "EUR" := 3]
    requires r.Usable() && x > 0 && ConvertValue(r, x) == 4
    requires Apply(cfg, init, PostOp("", FxReq(1, 4, x, r), id)).Ok?
    ensures var op := PostOp("", FxReq(1, 4, x, r), id);
            && FxDesk.Released(init, Apply(cfg, init, op).value, 3) == 4
            && FxDesk.Taken(init, Apply(cfg, init, op).value, 2) == x
  {
    FxDesk.TradeMoves(cfg, init, PostOp("", FxReq(1, 4, x, r), id), r, "USD", "EUR");
  }
}
