/** When a request is accepted and what it then writes, in terms of the rows alone
    (internal/ops/ops.go, internal/ops/fx.go, internal/store/postings.go). */
module Acceptance {
  import opened Wrappers
  import opened Int64
  import opened Money
  import opened FxRate
  import opened Ledger
  import opened Database
  import opened Posting
  import opened Serial
  import opened Evolution
  import opened Balances

  // ---------- one entry ----------

  predicate Carries(accounts: map<int, Account>, a: int, c: Currency) { a in accounts && accounts[a].currency == c }

  /** The account may go negative, or the change does not take it there, in an int64. */
  predicate Bears(accounts: map<int, Account>, a: int, change: int) {
    a in accounts && (accounts[a].allowNegative || Wrap(accounts[a].balance + change) >= 0)
  }

  /** Every account of an entry bears the sum of its legs. */
  predicate AllBear(accounts: map<int, Account>, legs: seq<Leg>) {
    forall i | 0 <= i < |legs| :: Bears(accounts, legs[i].account, AccountSum(legs, legs[i].account))
  }

  lemma BearsIff(accounts: map<int, Account>, legs: seq<Leg>, a: int)
    requires a in accounts
    ensures Bears(accounts, a, AccountSum(legs, a))
       <==> NewBalance(accounts[a], legs, a) >= 0 || accounts[a].allowNegative
  {
    NewBalanceExact(accounts[a], legs, a);
  }

  lemma OverdrawnIff(accounts: map<int, Account>, legs: seq<Leg>)
    requires Accounts(legs) <= accounts.Keys
    ensures Overdrawn(accounts, legs) <==> !AllBear(accounts, legs)
  {
    if AllBear(accounts, legs) {
      forall a | a in Accounts(legs) ensures NewBalance(accounts[a], legs, a) >= 0 || accounts[a].allowNegative {
        var i :| 0 <= i < |legs| && legs[i].account == a;
        assert Bears(accounts, legs[i].account, AccountSum(legs, legs[i].account));
        BearsIff(accounts, legs, a);
      }
    } else {
      var i :| 0 <= i < |legs| && !Bears(accounts, legs[i].account, AccountSum(legs, legs[i].account));
      assert legs[i].account in Accounts(legs);
      BearsIff(accounts, legs, legs[i].account);
    }
  }

  lemma MismatchIff(accounts: map<int, Account>, legs: seq<Leg>)
    ensures LegsOk(accounts, legs) <==> Accounts(legs) <= accounts.Keys && !Mismatch(accounts, legs)
  {
    if Accounts(legs) <= accounts.Keys && !Mismatch(accounts, legs) {
      forall i | 0 <= i < |legs| ensures legs[i].account in Accounts(legs) {}
    }
  }

  /** An entry is posted if and only if it validates, the guard agrees, every leg names an
      account of its currency, and every account it touches bears the sum of its legs. */
  lemma EntryAccepted(accounts: map<int, Account>, legs: seq<Leg>, g: Result<(), LedgerError>)
    ensures CheckPost(accounts, legs, g).Ok?
       <==> ValidateLegs(legs).Ok? && g.Ok? && LegsOk(accounts, legs) && AllBear(accounts, legs)
  {
    MismatchIff(accounts, legs);
    if Accounts(legs) <= accounts.Keys { OverdrawnIff(accounts, legs); }
  }

  /** What moving x from one account to another changes on an account; on one account it is
      nothing. */
  function Change(from: int, to: int, x: int, a: int): int {
    (if a == to then x else 0) - (if a == from then x else 0)
  }

  predicate CanMove(accounts: map<int, Account>, from: int, to: int, x: int, c: Currency) {
    && IsSupported(c) && Carries(accounts, from, c) && Carries(accounts, to, c)
    && Bears(accounts, from, Change(from, to, x, from)) && Bears(accounts, to, Change(from, to, x, to))
  }

  lemma PairRejected(legs: seq<Leg>, from: int, to: int, c: Currency)
    requires |legs| == 2 && legs[0].amount < 0 && legs[1].amount == 0 - legs[0].amount
    requires legs[0].currency == c && legs[1].currency == c
    ensures ValidateLegs(legs) == if IsSupported(c) then Ok(()) else Err(UnsupportedCurrency)
  {
    ValidateAccepts(legs);
    PairSums(legs[0], legs[1]);
    assert legs == [legs[0], legs[1]];
    assert Front(legs) == [legs[0]] && Front([legs[0]]) == [];
    assert IsSupported(c) ==> NetsVanish(legs);
    assert !IsSupported(c) ==> RejectedLeg([legs[0]]) == Some(UnsupportedCurrency);
  }

  lemma PairChecks(accounts: map<int, Account>, legs: seq<Leg>, from: int, to: int, x: Minor, c: Currency)
    requires x > 0 && legs == [Leg(from, c, 0 - x), Leg(to, c, x)]
    ensures LegsOk(accounts, legs) <==> Carries(accounts, from, c) && Carries(accounts, to, c)
    ensures AllBear(accounts, legs)
       <==> Bears(accounts, from, Change(from, to, x, from)) && Bears(accounts, to, Change(from, to, x, to))
  {
    PairSums(legs[0], legs[1]);
    assert legs == [legs[0], legs[1]];
  }

  lemma PairAccepted(accounts: map<int, Account>, from: int, to: int, x: Minor, c: Currency,
                     g: Result<(), LedgerError>)
    requires x > 0
    ensures CheckPost(accounts, Pair(from, to, x, c), g).Ok? <==> g.Ok? && CanMove(accounts, from, to, x, c)
  {
    var legs := Pair(from, to, x, c);
    EntryAccepted(accounts, legs, g);
    PairRejected(legs, from, to, c);
    PairChecks(accounts, legs, from, to, x, c);
  }

  /** Why a movement between two accounts is refused: the first of these that applies. */
  lemma PairRefused(accounts: map<int, Account>, from: int, to: int, x: Minor, c: Currency, g: Result<(), LedgerError>)
    requires x > 0 && CheckPost(accounts, Pair(from, to, x, c), g).Err?
    ensures CheckPost(accounts, Pair(from, to, x, c), g).error
         == if !IsSupported(c) then UnsupportedCurrency
            else if from !in accounts || to !in accounts then AccountNotFound
            else if g.Err? then g.error
            else if accounts[from].currency != c || accounts[to].currency != c then CurrencyMismatch
            else InsufficientFunds
  {
    var legs := Pair(from, to, x, c);
    PairRejected(legs, from, to, c);
    PairSums(legs[0], legs[1]);
    assert legs == [legs[0], legs[1]];
    assert legs[0].account in Accounts(legs) && legs[1].account in Accounts(legs);
  }

  // ---------- what an accepted request writes ----------

  /** Every account has changed by the sum of its legs, and in nothing but its balance. */
  predicate Moved(accounts: map<int, Account>, after: map<int, Account>, legs: seq<Leg>) {
    && after.Keys == accounts.Keys
    && forall a | a in accounts ::
         after[a] == accounts[a].(balance := Wrap(accounts[a].balance + AccountSum(legs, a)))
  }

  /** One new row, its balances, and under a key the completed key row; nothing else. */
  predicate Writes(db: Db, after: Db, key: string, req: Request, row: TxnRow) {
    && after.journal == db.journal + [row]
    && after.keys == (if key == "" then db.keys else db.keys[key := KeyRow(req, Some(row.id), true)])
    && after.batches == db.batches && Moved(db.accounts, after.accounts, row.legs)
  }

  /** Nobody has used the key, and the sequence has not given out the id. */
  predicate Unused(db: Db, key: string, txn: int) { key !in db.keys && txn !in Ids(db.journal) }

  lemma EffectMoves(accounts: map<int, Account>, after: map<int, Account>, legs: seq<Leg>)
    requires Effect(accounts, legs, after)
    ensures Moved(accounts, after, legs)
  {}

  lemma EntryMoves(accounts: map<int, Account>, legs: seq<Leg>, g: Result<(), LedgerError>, nb: map<int, Minor>)
    requires CheckPost(accounts, legs, g) == Ok(nb)
    ensures Moved(accounts, Overlay(accounts, nb), legs)
  {
    PostEffect(accounts, legs, g);
    EffectMoves(accounts, Overlay(accounts, nb), legs);
  }

  lemma PostedWrites(db: Db, key: string, req: Request, e: Entry, nb: map<int, Minor>, txn: int)
    requires Moved(db.accounts, Overlay(db.accounts, nb), e.legs)
    ensures Writes(db, Posted(db, key, req, e, nb, txn), key, req, RowOf(e, txn))
  {}

  lemma PostWrites(cfg: Config, db: Db, key: string, req: Request, txn: int)
    requires Apply(cfg, db, PostOp(key, req, txn)).Ok?
    ensures Build(cfg, db, req).Ok?
    ensures Writes(db, Apply(cfg, db, PostOp(key, req, txn)).value, key, req,
                   RowOf(Build(cfg, db, req).value.entry, txn))
  {
    var job := Build(cfg, db, req).value;
    var g := GuardVerdict(db.journal, job.guard);
    var nb := CheckPost(db.accounts, job.entry.legs, g).value;
    EntryMoves(db.accounts, job.entry.legs, g, nb);
    PostedWrites(db, key, req, job.entry, nb, txn);
  }

  // ---------- the requests ----------

  lemma TransferAccepted(cfg: Config, db: Db, key: string, from: int, to: int, x: Minor, c: Currency, txn: int)
    ensures var r := Apply(cfg, db, PostOp(key, TransferReq(from, to, x, c), txn));
            && (r.Ok? <==> Unused(db, key, txn) && x > 0 && from != to && CanMove(db.accounts, from, to, x, c))
            && (r.Ok? ==> Writes(db, r.value, key, TransferReq(from, to, x, c),
                  TxnRow(txn, Transfer, None, false, false, None, [Leg(from, c, 0 - x), Leg(to, c, x)])))
  {
    var req := TransferReq(from, to, x, c);
    if x > 0 { PairAccepted(db.accounts, from, to, x, c, Ok(())); }
    if Apply(cfg, db, PostOp(key, req, txn)).Ok? { PostWrites(cfg, db, key, req, txn); }
  }

  /** A payment moves the requested currency, and stays pending until it is settled. */
  lemma PaymentAccepted(cfg: Config, db: Db, key: string, source: int, merchant: int, x: Minor, c: Currency, txn: int)
    ensures var r := Apply(cfg, db, PostOp(key, PaymentReq(source, merchant, x, c), txn));
            && (r.Ok? <==> Unused(db, key, txn) && x > 0 && CanMove(db.accounts, source, merchant, x, c))
            && (r.Ok? ==> Writes(db, r.value, key, PaymentReq(source, merchant, x, c),
                  TxnRow(txn, Payment, None, true, false, None, [Leg(source, c, 0 - x), Leg(merchant, c, x)])))
  {
    var req := PaymentReq(source, merchant, x, c);
    if x > 0 { PairAccepted(db.accounts, source, merchant, x, c, Ok(())); }
    if Apply(cfg, db, PostOp(key, req, txn)).Ok? { PostWrites(cfg, db, key, req, txn); }
  }

  /** What is left of a payment covers the refund, compared in int64 arithmetic, and the money
      can go back from its merchant to its source in its currency. */
  predicate Refundable(db: Db, p: TxnRow, x: Minor) {
    && p.kind.Payment? && PairShape(p.legs)
    && InRange(Refunded(db.journal, p.id)) && Wrap(Refunded(db.journal, p.id) + x) <= p.legs[1].amount
    && CanMove(db.accounts, p.legs[1].account, p.legs[0].account, x, p.legs[0].currency)
  }

  /** The payment of row i decodes to its own legs. */
  lemma PaymentDecoded(db: Db, i: nat)
    requires GoodDb(db) && i < |db.journal| && db.journal[i].kind.Payment?
    ensures PairShape(db.journal[i].legs)
    ensures var legs := db.journal[i].legs;
            DecodePayment(Find(db.journal, db.journal[i].id))
            == Ok(PaymentLegs(legs[1].account, legs[0].account, legs[0].currency, legs[1].amount))
  {
    var row := db.journal[i];
    assert RowOk(db.accounts, db.journal, row);
    FindRow(db.journal, i);
    DecodeOrder(row.legs[0], row.legs[1]);
    assert row.legs == [row.legs[0], row.legs[1]];
  }

  /** A refund names a payment that exists; nothing else can be refunded. */
  lemma NoPayment(db: Db, payment: int)
    requires GoodDb(db)
    requires forall i | 0 <= i < |db.journal| :: db.journal[i].id == payment ==> !db.journal[i].kind.Payment?
    ensures DecodePayment(Find(db.journal, payment)) == Err(NotAPayment)
  {
    if Find(db.journal, payment).Some? { var i := FindIndex(db.journal, payment); }
  }

  lemma RefundBuilt(cfg: Config, db: Db, i: nat, x: Minor)
    requires GoodDb(db) && i < |db.journal| && db.journal[i].kind.Payment? && PairShape(db.journal[i].legs)
    ensures var p := db.journal[i];
            Build(cfg, db, RefundReq(p.id, x)) ==
              if x <= 0 then Err(NonPositive)
              else Ok(Job(Entry(Refund, Some(p.id),
                                Pair(p.legs[1].account, p.legs[0].account, x, p.legs[0].currency), false),
                          Some(Guard(p.id, p.legs[1].account, p.legs[1].amount, x))))
  {
    PaymentDecoded(db, i);
  }

  lemma GuardAdmits(db: Db, i: nat, x: Minor)
    requires GoodDb(db) && i < |db.journal| && db.journal[i].kind.Payment? && PairShape(db.journal[i].legs)
    ensures var p := db.journal[i];
            GuardVerdict(db.journal, Some(Guard(p.id, p.legs[1].account, p.legs[1].amount, x))).Ok?
            <==> InRange(Refunded(db.journal, p.id)) && Wrap(Refunded(db.journal, p.id) + x) <= p.legs[1].amount
    ensures var p := db.journal[i];
            var v := GuardVerdict(db.journal, Some(Guard(p.id, p.legs[1].account, p.legs[1].amount, x)));
            v.Err? ==>
              v.error == if InRange(Refunded(db.journal, p.id)) then RefundExceedsCaptured else QueryOverflow
  {
    FindRow(db.journal, i);
    RefundQueriesAgree(db.accounts, db.journal, db.journal, db.journal[i].id, db.journal[i].legs[1].account);
  }

  lemma PostAccepted(cfg: Config, db: Db, key: string, req: Request, txn: int, job: Job)
    requires Build(cfg, db, req) == Ok(job)
    ensures Apply(cfg, db, PostOp(key, req, txn)).Ok?
       <==> KeyAllowed(req, key) && Unused(db, key, txn)
            && CheckPost(db.accounts, job.entry.legs, GuardVerdict(db.journal, job.guard)).Ok?
  {}

  lemma RefundChecked(db: Db, i: nat, x: Minor)
    requires GoodDb(db) && i < |db.journal| && db.journal[i].kind.Payment? && PairShape(db.journal[i].legs) && x > 0
    ensures var p := db.journal[i];
            CheckPost(db.accounts, Pair(p.legs[1].account, p.legs[0].account, x, p.legs[0].currency),
                      GuardVerdict(db.journal, Some(Guard(p.id, p.legs[1].account, p.legs[1].amount, x)))).Ok?
            <==> Refundable(db, p, x)
  {
    var p := db.journal[i];
    GuardAdmits(db, i, x);
    PairAccepted(db.accounts, p.legs[1].account, p.legs[0].account, x, p.legs[0].currency,
                 GuardVerdict(db.journal, Some(Guard(p.id, p.legs[1].account, p.legs[1].amount, x))));
  }

  /** A refund of the payment in row i. */
  lemma RefundOfPayment(cfg: Config, db: Db, key: string, i: nat, x: Minor, txn: int)
    requires GoodDb(db) && i < |db.journal| && db.journal[i].kind.Payment? && PairShape(db.journal[i].legs)
    ensures Apply(cfg, db, PostOp(key, RefundReq(db.journal[i].id, x), txn)).Ok?
       <==> key != "" && Unused(db, key, txn) && x > 0 && Refundable(db, db.journal[i], x)
  {
    var p := db.journal[i];
    RefundBuilt(cfg, db, i, x);
    if x > 0 {
      RefundChecked(db, i, x);
      PostAccepted(cfg, db, key, RefundReq(p.id, x), txn, Build(cfg, db, RefundReq(p.id, x)).value);
    }
  }

  /** It takes the amount from the merchant, back to the source, in the payment's currency. */
  lemma RefundWrites(cfg: Config, db: Db, key: string, i: nat, x: Minor, txn: int)
    requires GoodDb(db) && i < |db.journal| && db.journal[i].kind.Payment? && PairShape(db.journal[i].legs)
    requires Apply(cfg, db, PostOp(key, RefundReq(db.journal[i].id, x), txn)).Ok?
    ensures var p := db.journal[i];
            Writes(db, Apply(cfg, db, PostOp(key, RefundReq(p.id, x), txn)).value, key, RefundReq(p.id, x),
                   TxnRow(txn, Refund, Some(p.id), false, false, None,
                          [Leg(p.legs[1].account, p.legs[0].currency, 0 - x),
                           Leg(p.legs[0].account, p.legs[0].currency, x)]))
  {
    RefundBuilt(cfg, db, i, x);
    PostWrites(cfg, db, key, RefundReq(db.journal[i].id, x), txn);
  }

  predicate IsPayment(row: TxnRow, id: int) { row.id == id && row.kind.Payment? }

  /** The journal holds the payment. */
  predicate IsRecorded(journal: seq<TxnRow>, payment: int) {
    exists i | 0 <= i < |journal| :: IsPayment(journal[i], payment)
  }

  lemma RefundBuildable(cfg: Config, db: Db, payment: int, x: Minor)
    requires GoodDb(db)
    ensures Build(cfg, db, RefundReq(payment, x)).Ok? <==> x > 0 && IsRecorded(db.journal, payment)
  {
    if i :| 0 <= i < |db.journal| && IsPayment(db.journal[i], payment) {
      PaymentDecoded(db, i);
    } else {
      forall i | 0 <= i < |db.journal| ensures db.journal[i].id == payment ==> !db.journal[i].kind.Payment? {
        assert !IsPayment(db.journal[i], payment);
      }
      NoPayment(db, payment);
    }
  }

  /** A refund is accepted if and only if it is keyed and names a payment that can still bear
      it. */
  lemma RefundAccepted(cfg: Config, db: Db, key: string, payment: int, x: Minor, txn: int)
    requires GoodDb(db)
    ensures Apply(cfg, db, PostOp(key, RefundReq(payment, x), txn)).Ok? <==>
      && key != "" && Unused(db, key, txn) && x > 0
      && exists i | 0 <= i < |db.journal| :: IsPayment(db.journal[i], payment) && Refundable(db, db.journal[i], x)
  {
    if i :| 0 <= i < |db.journal| && IsPayment(db.journal[i], payment) {
      PaymentDecoded(db, i);
      RefundOfPayment(cfg, db, key, i, x, txn);
      forall j | 0 <= j < |db.journal| && IsPayment(db.journal[j], payment) ensures j == i {}
    } else {
      forall i | 0 <= i < |db.journal| ensures db.journal[i].id == payment ==> !db.journal[i].kind.Payment? {
        assert !IsPayment(db.journal[i], payment);
      }
      NoPayment(db, payment);
    }
  }

  /** A conversion that can be built: two accounts of different currencies, a rate with both
      fields positive, amounts that are positive on both sides, and both desks. */
  predicate CanConvert(cfg: Config, db: Db, from: int, to: int, x: Minor, rate: Rate) {
    && x > 0 && from in db.accounts && to in db.accounts && db.accounts[from].currency != db.accounts[to].currency
    && rate.num > 0 && rate.den > 0 && ConvertValue(rate, x) > 0
    && db.accounts[from].currency in cfg.fxDesk && db.accounts[to].currency in cfg.fxDesk
  }

  /** The sender pays the desk of its currency; the other desk pays the receiver. */
  function ConversionOf(cfg: Config, db: Db, from: int, to: int, x: Minor, rate: Rate): seq<Leg>
    requires CanConvert(cfg, db, from, to, x, rate)
  {
    var c, d, y := db.accounts[from].currency, db.accounts[to].currency, ConvertValue(rate, x);
    [Leg(from, c, 0 - x), Leg(cfg.fxDesk[c], c, x), Leg(cfg.fxDesk[d], d, 0 - y), Leg(to, d, y)]
  }

  lemma PairsAppend(from: int, deskIn: int, x: Minor, c: Currency, deskOut: int, to: int, y: Minor, d: Currency)
    requires x > 0 && y > 0
    ensures Pair(from, deskIn, x, c) + Pair(deskOut, to, y, d)
         == [Leg(from, c, 0 - x), Leg(deskIn, c, x), Leg(deskOut, d, 0 - y), Leg(to, d, y)]
  {}

  /** ConvertFX refuses everything else, in particular a conversion within one currency. */
  lemma ConversionBuilt(cfg: Config, db: Db, from: int, to: int, x: Minor, rate: Rate)
    ensures Build(cfg, db, FxReq(from, to, x, rate)).Ok? <==> CanConvert(cfg, db, from, to, x, rate)
    ensures CanConvert(cfg, db, from, to, x, rate) ==>
      Build(cfg, db, FxReq(from, to, x, rate))
      == Ok(Job(Entry(Fx, None, ConversionOf(cfg, db, from, to, x, rate), false), None))
  {
    if CanConvert(cfg, db, from, to, x, rate) {
      var c, d := db.accounts[from].currency, db.accounts[to].currency;
      PairsAppend(from, cfg.fxDesk[c], x, c, cfg.fxDesk[d], to, ConvertValue(rate, x), d);
    }
  }

  lemma FourLegsValid(legs: seq<Leg>)
    requires |legs| == 4 && legs[0].amount < 0 && legs[1].amount == 0 - legs[0].amount
    requires legs[2].amount < 0 && legs[3].amount == 0 - legs[2].amount
    requires legs[0].currency == legs[1].currency && legs[2].currency == legs[3].currency
    ensures ValidateLegs(legs).Ok? <==> IsSupported(legs[0].currency) && IsSupported(legs[2].currency)
  {
    FourLegs(legs);
    assert NetsVanish(legs);
    ValidateAccepts(legs);
  }

  /** A conversion is accepted if and only if it can be built, both currencies are supported,
      the desks are accounts of their currencies, and all four accounts bear their legs. */
  lemma ConversionAccepted(cfg: Config, db: Db, key: string, from: int, to: int, x: Minor, rate: Rate, txn: int)
    ensures var r := Apply(cfg, db, PostOp(key, FxReq(from, to, x, rate), txn));
            && (r.Ok? <==>
                  && Unused(db, key, txn) && CanConvert(cfg, db, from, to, x, rate)
                  && var c, d := db.accounts[from].currency, db.accounts[to].currency;
                  && IsSupported(c) && IsSupported(d)
                  && Carries(db.accounts, cfg.fxDesk[c], c) && Carries(db.accounts, cfg.fxDesk[d], d)
                  && AllBear(db.accounts, ConversionOf(cfg, db, from, to, x, rate)))
            && (r.Ok? ==> Writes(db, r.value, key, FxReq(from, to, x, rate),
                  TxnRow(txn, Fx, None, false, false, None, ConversionOf(cfg, db, from, to, x, rate))))
  {
    var req := FxReq(from, to, x, rate);
    ConversionBuilt(cfg, db, from, to, x, rate);
    if CanConvert(cfg, db, from, to, x, rate) {
      var legs := ConversionOf(cfg, db, from, to, x, rate);
      FourLegsValid(legs);
      EntryAccepted(db.accounts, legs, Ok(()));
      ConversionMatches(db.accounts, legs);
    }
    if Apply(cfg, db, PostOp(key, req, txn)).Ok? { PostWrites(cfg, db, key, req, txn); }
  }

  lemma ConversionMatches(accounts: map<int, Account>, legs: seq<Leg>)
    requires |legs| == 4
    ensures LegsOk(accounts, legs) <==>
      && Carries(accounts, legs[0].account, legs[0].currency) && Carries(accounts, legs[1].account, legs[1].currency)
      && Carries(accounts, legs[2].account, legs[2].currency) && Carries(accounts, legs[3].account, legs[3].currency)
  {}

  /** What the desks and the customers must bear: the amount on one side, its conversion on the
      other, netted where a customer is a desk. */
  lemma ConversionSums(cfg: Config, db: Db, from: int, to: int, x: Minor, rate: Rate, a: int)
    requires CanConvert(cfg, db, from, to, x, rate)
    ensures var deskIn, deskOut := cfg.fxDesk[db.accounts[from].currency], cfg.fxDesk[db.accounts[to].currency];
            AccountSum(ConversionOf(cfg, db, from, to, x, rate), a)
            == Change(from, deskIn, x, a) + Change(deskOut, to, ConvertValue(rate, x), a)
  {
    FourLegs(ConversionOf(cfg, db, from, to, x, rate));
  }

  /** A raw entry is accepted if and only if it has two or more legs, none zero, in supported
      currencies whose sums are multiples of 2^64, on accounts of those currencies that bear
      them; it is written leg for leg. */
  lemma JournalAccepted(cfg: Config, db: Db, key: string, legs: seq<Leg>, txn: int)
    ensures var r := Apply(cfg, db, PostOp(key, JournalReq(legs), txn));
            && (r.Ok? <==>
                  && Unused(db, key, txn) && |legs| >= 2
                  && (forall i | 0 <= i < |legs| :: legs[i].amount != 0 && IsSupported(legs[i].currency))
                  && NetsVanish(legs) && LegsOk(db.accounts, legs) && AllBear(db.accounts, legs))
            && (r.Ok? ==> Writes(db, r.value, key, JournalReq(legs),
                  TxnRow(txn, Transfer, None, false, false, None, legs)))
  {
    ValidateAccepts(legs);
    EntryAccepted(db.accounts, legs, Ok(()));
    if Apply(cfg, db, PostOp(key, JournalReq(legs), txn)).Ok? { PostWrites(cfg, db, key, JournalReq(legs), txn); }
  }

  /** A request that cannot be built is refused for a reason that holds. */
  lemma BuildRefused(cfg: Config, db: Db, req: Request)
    requires GoodDb(db) && Build(cfg, db, req).Err?
    ensures match Build(cfg, db, req).error
            case NonPositive =>
              || ((req.TransferReq? || req.PaymentReq? || req.RefundReq? || req.FxReq?) && req.amount <= 0)
              || (req.FxReq? && req.rate.num > 0 && req.rate.den > 0 && ConvertValue(req.rate, req.amount) <= 0)
            case SameAccount => req.TransferReq? && req.from == req.to
            case NotAPayment => req.RefundReq? && !IsRecorded(db.journal, req.payment)
            case SameCurrency =>
              && req.FxReq? && req.from in db.accounts && req.to in db.accounts
              && db.accounts[req.from].currency == db.accounts[req.to].currency
            case BadRate => req.FxReq? && (req.rate.num <= 0 || req.rate.den <= 0)
            case AccountNotFound =>
              && req.FxReq?
              && (|| req.from !in db.accounts || req.to !in db.accounts
                  || db.accounts[req.from].currency !in cfg.fxDesk || db.accounts[req.to].currency !in cfg.fxDesk)
            case _ => false
  {
    if req.RefundReq? { RefundBuildable(cfg, db, req.payment, req.amount); }
  }

  /** Refund has no unkeyed form, and every other request has one. */
  lemma UnkeyedRefundOnly(req: Request)
    ensures KeyAllowed(req, "") <==> !req.RefundReq?
    ensures forall key: string | key != "" :: KeyAllowed(req, key)
  {}
}
