/** The FX desk's position over many conversions at one rate (internal/ops/fx.go). */
module FxDesk {
  import opened Int64
  import opened Money
  import opened FxRate
  import opened Ledger
  import opened Database
  import opened Posting
  import opened Serial
  import opened Evolution
  import opened Balances

  /** A conversion from currency c to currency d at the rate, between customers. */
  predicate Trade(cfg: Config, db: Db, op: Op, r: Rate, c: Currency, d: Currency)
    requires c in cfg.fxDesk && d in cfg.fxDesk
  {
    && op.PostOp? && op.req.FxReq? && op.req.rate == r && r.Usable()
    && op.req.from in db.accounts && db.accounts[op.req.from].currency == c && op.req.from != cfg.fxDesk[c]
    && op.req.to in db.accounts && db.accounts[op.req.to].currency == d && op.req.to != cfg.fxDesk[d]
  }

  /** Every operation is such a conversion or leaves the two desk accounts alone. */
  predicate DeskRun(cfg: Config, start: Db, log: seq<Op>, r: Rate, c: Currency, d: Currency)
    requires c in cfg.fxDesk && d in cfg.fxDesk && Run(cfg, start, log).Ok?
  {
    log == []
    || (DeskRun(cfg, start, Front(log), r, c, d)
        && var db := Run(cfg, start, Front(log)).value;
           (Trade(cfg, db, Last(log), r, c, d) || Touched(cfg, db, Last(log)) !! {cfg.fxDesk[c], cfg.fxDesk[d]}))
  }

  /** The amounts converted over a run. */
  function Traded(cfg: Config, start: Db, log: seq<Op>, r: Rate, c: Currency, d: Currency): seq<Minor>
    requires c in cfg.fxDesk && d in cfg.fxDesk && Run(cfg, start, log).Ok?
  {
    if log == [] then []
    else
      Traded(cfg, start, Front(log), r, c, d)
      + (if Trade(cfg, Run(cfg, start, Front(log)).value, Last(log), r, c, d) then [Last(log).req.amount] else [])
  }

  lemma {:induction false} PostingSumFrame(x: seq<TxnRow>, y: seq<TxnRow>, touched: set<int>, a: int)
    requires a !in touched && |x| <= |y|
    requires forall i | 0 <= i < |x| :: SameTxn(x[i], y[i])
    requires forall i | |x| <= i < |y| :: Accounts(y[i].legs) <= touched
    ensures PostingSum(y, a) == PostingSum(x, a)
    decreases |y|
  {
    if |y| > |x| {
      AccountSumOff(Last(y).legs, a);
      PostingSumFrame(x, Front(y), touched, a);
    } else if x != [] {
      PostingSumFrame(Front(x), Front(y), touched, a);
    }
  }

  lemma LeftAlone(cfg: Config, db: Db, op: Op, a: int)
    requires GoodDb(db) && Apply(cfg, db, op).Ok? && a !in Touched(cfg, db, op)
    ensures PostingSum(Apply(cfg, db, op).value.journal, a) == PostingSum(db.journal, a)
  {
    ApplyKeepsGood(cfg, db, op);
    PostingSumFrame(db.journal, Apply(cfg, db, op).value.journal, Touched(cfg, db, op), a);
  }

  /** One conversion: the sender is debited the amount and the desk takes it; the desk releases
      the rounded amount in the other currency and the receiver is credited it. */
  lemma TradeMoves(cfg: Config, db: Db, op: Op, r: Rate, c: Currency, d: Currency)
    requires c in cfg.fxDesk && d in cfg.fxDesk && c != d
    requires GoodDb(db) && Trade(cfg, db, op, r, c, d) && Apply(cfg, db, op).Ok?
    ensures var j := Apply(cfg, db, op).value.journal;
            && PostingSum(j, cfg.fxDesk[c]) == PostingSum(db.journal, cfg.fxDesk[c]) + op.req.amount
            && PostingSum(j, cfg.fxDesk[d]) == PostingSum(db.journal, cfg.fxDesk[d]) - ConvertValue(r, op.req.amount)
            && PostingSum(j, op.req.from) == PostingSum(db.journal, op.req.from) - op.req.amount
            && PostingSum(j, op.req.to) == PostingSum(db.journal, op.req.to) + ConvertValue(r, op.req.amount)
  {
    var e := PostHasEffect(cfg, db, op.key, op.req, op.txn);
    AppendRow(db.journal, RowOf(e, op.txn));
    FourLegs(e.legs);
    var g := GuardVerdict(db.journal, Build(cfg, db, op.req).value.guard);
    CheckedLegs(db.accounts, e.legs, g);
    assert e.legs[1].currency == c && e.legs[2].currency == d;
  }

  function Taken(x: Db, y: Db, desk: int): int { PostingSum(y.journal, desk) - PostingSum(x.journal, desk) }

  function Released(x: Db, y: Db, desk: int): int { PostingSum(x.journal, desk) - PostingSum(y.journal, desk) }

  lemma OneMore(r: Rate, amounts: seq<Minor>, amount: Minor)
    requires r.Usable()
    ensures FxRate.Total(amounts + [amount]) == FxRate.Total(amounts) + amount
    ensures TotalConverted(r, amounts + [amount]) == TotalConverted(r, amounts) + ConvertValue(r, amount)
  {}

  predicate AllPositive(amounts: seq<Minor>) { forall i | 0 <= i < |amounts| :: amounts[i] > 0 }

  /** The desk's postings are the amounts taken and the converted amounts released. */
  ghost predicate Booked(cfg: Config, start: Db, end: Db, r: Rate, c: Currency, d: Currency, amounts: seq<Minor>)
    requires c in cfg.fxDesk && d in cfg.fxDesk && r.Usable()
  {
    && Taken(start, end, cfg.fxDesk[c]) == FxRate.Total(amounts)
    && Released(start, end, cfg.fxDesk[d]) == TotalConverted(r, amounts)
    && AllPositive(amounts)
  }

  lemma BookedStep(cfg: Config, start: Db, db: Db, op: Op, r: Rate, c: Currency, d: Currency, amounts: seq<Minor>)
    requires c in cfg.fxDesk && d in cfg.fxDesk && c != d && r.Usable()
    requires GoodDb(db) && Apply(cfg, db, op).Ok? && Booked(cfg, start, db, r, c, d, amounts)
    requires Trade(cfg, db, op, r, c, d) || Touched(cfg, db, op) !! {cfg.fxDesk[c], cfg.fxDesk[d]}
    ensures Booked(cfg, start, Apply(cfg, db, op).value, r, c, d,
                   amounts + if Trade(cfg, db, op, r, c, d) then [op.req.amount] else [])
  {
    if Trade(cfg, db, op, r, c, d) {
      TradeMoves(cfg, db, op, r, c, d);
      OneMore(r, amounts, op.req.amount);
    } else {
      LeftAlone(cfg, db, op, cfg.fxDesk[c]);
      LeftAlone(cfg, db, op, cfg.fxDesk[d]);
      assert amounts + [] == amounts;
    }
  }

  lemma {:induction false} DeskBooked(cfg: Config, start: Db, log: seq<Op>, r: Rate, c: Currency, d: Currency)
    requires c in cfg.fxDesk && d in cfg.fxDesk && c != d && r.Usable()
    requires GoodDb(start) && Run(cfg, start, log).Ok? && DeskRun(cfg, start, log, r, c, d)
    ensures GoodDb(Run(cfg, start, log).value)
    ensures Booked(cfg, start, Run(cfg, start, log).value, r, c, d, Traded(cfg, start, log, r, c, d))
  {
    if log != [] {
      var db := Run(cfg, start, Front(log)).value;
      DeskBooked(cfg, start, Front(log), r, c, d);
      ApplyKeepsGood(cfg, db, Last(log));
      BookedStep(cfg, start, db, Last(log), r, c, d, Traded(cfg, start, Front(log), r, c, d));
    }
  }

  /** What the desk took and what it released over n conversions at a rate are off the exact
      rate by at most half a unit each if, and below 2^64 conversions only if, the result of
      each fits an int64. */
  lemma DeskPosition(cfg: Config, start: Db, log: seq<Op>, r: Rate, c: Currency, d: Currency)
    requires c in cfg.fxDesk && d in cfg.fxDesk && c != d && r.Usable()
    requires GoodDb(start) && Run(cfg, start, log).Ok? && DeskRun(cfg, start, log, r, c, d)
    ensures var end, amounts := Run(cfg, start, log).value, Traded(cfg, start, log, r, c, d);
            var close := Close(r, Released(start, end, cfg.fxDesk[d]), Taken(start, end, cfg.fxDesk[c]), |amounts|);
            && (AllConvertible(r, amounts) ==> close)
            && (|amounts| < TWO64 && close ==> AllConvertible(r, amounts))
  {
    DeskBooked(cfg, start, log, r, c, d);
    BookedClose(cfg, start, Run(cfg, start, log).value, r, c, d, Traded(cfg, start, log, r, c, d));
  }

  lemma BookedClose(cfg: Config, start: Db, end: Db, r: Rate, c: Currency, d: Currency, amounts: seq<Minor>)
    requires c in cfg.fxDesk && d in cfg.fxDesk && r.Usable() && Booked(cfg, start, end, r, c, d, amounts)
    ensures var close := Close(r, Released(start, end, cfg.fxDesk[d]), Taken(start, end, cfg.fxDesk[c]), |amounts|);
            && (AllConvertible(r, amounts) ==> close)
            && (|amounts| < TWO64 && close ==> AllConvertible(r, amounts))
  {
    DeskErrorIff(r, amounts);
  }
}
