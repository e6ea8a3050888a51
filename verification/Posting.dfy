/** The single write path (internal/store/postings.go) and the requests it serves
    (internal/ops/ops.go, internal/ops/fx.go, internal/store/payments.go). */
module Posting {
  import opened Wrappers
  import opened Int64
  import opened Money
  import opened FxRate
  import opened Ledger
  import opened Database

  // ---------- lock order ----------

  predicate Ascending(ids: seq<int>) { forall i, j | 0 <= i < j < |ids| :: ids[i] < ids[j] }

  function Elements<T>(s: seq<T>): set<T> { set x | x in s }

  lemma {:induction false} AscendingUnique(s: seq<int>, t: seq<int>)
    requires Ascending(s) && Ascending(t) && Elements(s) == Elements(t)
    ensures s == t
  {
    assert |t| > 0 ==> t[0] in Elements(t);
    if s != [] {
      assert s[0] in Elements(t) && |t| > 0;
      assert t[0] in Elements(s);
      assert s[0] == t[0];
      forall x ensures x in Elements(s[1..]) <==> x in Elements(t[1..]) {
        assert x in Elements(s[1..]) <==> x in Elements(s) && x != s[0] by { TailElements(s, x); }
        assert x in Elements(t[1..]) <==> x in Elements(t) && x != t[0] by { TailElements(t, x); }
      }
      AscendingUnique(s[1..], t[1..]);
      assert s == [s[0]] + s[1..] && t == [t[0]] + t[1..];
    }
  }

  lemma TailElements(s: seq<int>, x: int)
    requires Ascending(s) && s != []
    ensures x in Elements(s[1..]) <==> x in Elements(s) && x != s[0]
  {}

  function Insert(s: seq<int>, x: int): seq<int> {
    if s == [] || x < s[0] then [x] + s
    else if x == s[0] then s
    else [s[0]] + Insert(s[1..], x)
  }

  lemma {:induction false} InsertAscending(s: seq<int>, x: int)
    requires Ascending(s)
    ensures Ascending(Insert(s, x))
    ensures Insert(s, x) != [] && (Insert(s, x)[0] == x || (s != [] && s[0] < x && Insert(s, x)[0] == s[0]))
  {
    if s == [] || x < s[0] {
      ConsAscending(x, s);
    } else if x > s[0] {
      InsertAscending(s[1..], x);
      ConsAscending(s[0], Insert(s[1..], x));
    }
  }

  lemma {:induction false} InsertElements(s: seq<int>, x: int)
    ensures Elements(Insert(s, x)) == Elements(s) + {x}
  {
    if s == [] || x < s[0] {
      ConsElements(x, s);
    } else {
      ConsElements(s[0], s[1..]);
      assert [s[0]] + s[1..] == s;
      if x > s[0] {
        InsertElements(s[1..], x);
        ConsElements(s[0], Insert(s[1..], x));
      }
    }
  }

  lemma ConsAscending(x: int, s: seq<int>)
    requires Ascending(s) && (s != [] ==> x < s[0])
    ensures Ascending([x] + s)
  {}

  lemma ConsElements<T>(x: T, s: seq<T>)
    ensures Elements([x] + s) == {x} + Elements(s)
  {}

  ghost function Pick<T>(s: set<T>): (x: T)
    requires s != {}
    ensures x in s
  {
    var x :| x in s; x
  }

  /** The ascending enumeration of a finite set: the order in which accounts are locked. */
  ghost function SortedIds(ids: set<int>): (r: seq<int>)
    ensures Ascending(r) && Elements(r) == ids
  {
    if ids != {} then
      var x := Pick(ids);
      InsertAscending(SortedIds(ids - {x}), x);
      InsertElements(SortedIds(ids - {x}), x);
      Insert(SortedIds(ids - {x}), x)
    else []
  }

  /** sort.Slice with the ascending order. */
  method SortAscending(ids: seq<int>) returns (r: seq<int>)
    ensures r == SortedIds(Elements(ids))
  {
    r := [];
    for i := 0 to |ids|
      invariant Ascending(r) && Elements(r) == Elements(ids[..i])
    {
      InsertAscending(r, ids[i]);
      InsertElements(r, ids[i]);
      ElementsStep(ids, i);
      r := Insert(r, ids[i]);
    }
    assert ids[..|ids|] == ids;
    AscendingUnique(r, SortedIds(Elements(ids)));
  }

  lemma ElementsStep<T>(s: seq<T>, i: nat)
    requires i < |s|
    ensures Elements(s[..i + 1]) == Elements(s[..i]) + {s[i]}
  {}

  lemma LastIsNew(ids: seq<int>, n: nat)
    requires Ascending(ids) && n < |ids|
    ensures Ascending(ids[..n]) && ids[n] !in Elements(ids[..n])
  {
    assert forall k | 0 <= k < n :: ids[..n][k] == ids[k] < ids[n];
  }

  lemma {:induction false} AscendingSize(ids: seq<int>)
    requires Ascending(ids)
    ensures |Elements(ids)| == |ids|
  {
    if ids == [] {
      assert Elements(ids) == {};
    } else {
      var n := |ids| - 1;
      LastIsNew(ids, n);
      AscendingSize(ids[..n]);
      ElementsStep(ids, n);
      assert ids[..n + 1] == ids;
    }
  }

  lemma SubsetFull<T>(s: set<T>, t: set<T>)
    requires s <= t && |s| == |t|
    ensures s == t
  {
    assert t == s + (t - s) && |t| == |s| + |t - s|;
  }

  lemma AccountsStep(legs: seq<Leg>, i: nat)
    requires i < |legs|
    ensures Accounts(legs[..i + 1]) == Accounts(legs[..i]) + {legs[i].account}
  {}

  /** distinctSortedAccountIDs */
  method DistinctSortedAccountIds(legs: seq<Leg>) returns (ids: seq<int>)
    ensures ids == SortedIds(Accounts(legs))
  {
    var seen: set<int> := {};
    ids := [];
    for i := 0 to |legs|
      invariant seen == Elements(ids) == Accounts(legs[..i])
    {
      AccountsStep(legs, i);
      var a := legs[i].account;
      if a !in seen {
        seen := seen + {a};
        ids := ids + [a];
      }
    }
    assert legs[..|legs|] == legs;
    ids := SortAscending(ids);
  }

  // ---------- postEntryTx ----------

  /** int64(acc.Balance) + deltas[id], both sums wrapping. */
  function NewBalance(acc: Account, legs: seq<Leg>, a: int): Minor {
    Wrap(acc.balance + Wrap(AccountSum(legs, a)))
  }

  lemma NewBalanceExact(acc: Account, legs: seq<Leg>, a: int)
    ensures NewBalance(acc, legs, a) == Wrap(acc.balance + AccountSum(legs, a))
  {
    WrapAdd(acc.balance, AccountSum(legs, a));
  }

  predicate Mismatch(accounts: map<int, Account>, legs: seq<Leg>)
    requires Accounts(legs) <= accounts.Keys
  {
    exists i | 0 <= i < |legs| ::
      legs[i].account in Accounts(legs) && legs[i].currency != accounts[legs[i].account].currency
  }

  predicate Overdrawn(accounts: map<int, Account>, legs: seq<Leg>)
    requires Accounts(legs) <= accounts.Keys
  {
    exists a | a in Accounts(legs) :: NewBalance(accounts[a], legs, a) < 0 && !accounts[a].allowNegative
  }

  /** Steps 2 to 4 of postEntryTx on the locked rows: the new balances, or the rejection. */
  function CheckPost(accounts: map<int, Account>, legs: seq<Leg>, guarded: Result<(), LedgerError>)
    : Result<map<int, Minor>, LedgerError>
  {
    if ValidateLegs(legs).Err? then Err(ValidateLegs(legs).error)
    else if !(Accounts(legs) <= accounts.Keys) then Err(AccountNotFound)
    else if guarded.Err? then Err(guarded.error)
    else if Mismatch(accounts, legs) then Err(CurrencyMismatch)
    else if Overdrawn(accounts, legs) then Err(InsufficientFunds)
    else Ok(NewBalances(accounts, legs))
  }

  function NewBalances(accounts: map<int, Account>, legs: seq<Leg>): map<int, Minor>
    requires Accounts(legs) <= accounts.Keys
  {
    map a | a in Accounts(legs) :: NewBalance(accounts[a], legs, a)
  }

  /** The rows of `accounts` with some balances overwritten. */
  function Overlay(accounts: map<int, Account>, balances: map<int, Minor>): map<int, Account> {
    map a | a in accounts :: if a in balances then accounts[a].(balance := balances[a]) else accounts[a]
  }

  /** The accounts after a successful posting. */
  function PostOn(accounts: map<int, Account>, legs: seq<Leg>, guarded: Result<(), LedgerError>)
    : Result<map<int, Account>, LedgerError>
  {
    var nb :- CheckPost(accounts, legs, guarded);
    Ok(Overlay(accounts, nb))
  }

  /** Only the rows of the entry's own accounts matter. */
  lemma CheckPostFrame(x: map<int, Account>, y: map<int, Account>, legs: seq<Leg>, g: Result<(), LedgerError>)
    requires forall a | a in Accounts(legs) :: (a in x <==> a in y) && (a in x ==> x[a] == y[a])
    ensures CheckPost(x, legs, g) == CheckPost(y, legs, g)
  {
    if Accounts(legs) <= x.Keys {
      ChecksFrame(x, y, legs);
      ChecksFrame(y, x, legs);
      assert NewBalances(x, legs) == NewBalances(y, legs);
    }
  }

  lemma ChecksFrame(x: map<int, Account>, y: map<int, Account>, legs: seq<Leg>)
    requires Accounts(legs) <= x.Keys && Accounts(legs) <= y.Keys
    requires forall a | a in Accounts(legs) :: x[a] == y[a]
    ensures Mismatch(x, legs) ==> Mismatch(y, legs)
    ensures Overdrawn(x, legs) ==> Overdrawn(y, legs)
  {}

  /** Every account has moved by the sum of its legs, and a no-negative one that was touched is
      not below zero. */
  ghost predicate Effect(accounts: map<int, Account>, legs: seq<Leg>, after: map<int, Account>) {
    && after.Keys == accounts.Keys
    && forall a | a in accounts ::
         && after[a].currency == accounts[a].currency
         && after[a].allowNegative == accounts[a].allowNegative
         && after[a].balance == Wrap(accounts[a].balance + AccountSum(legs, a))
         && (a !in Accounts(legs) ==> after[a] == accounts[a])
         && (a in Accounts(legs) && !accounts[a].allowNegative ==> after[a].balance >= 0)
  }

  /** What a successful posting does to every account of the ledger. */
  lemma PostEffect(accounts: map<int, Account>, legs: seq<Leg>, g: Result<(), LedgerError>)
    requires PostOn(accounts, legs, g).Ok?
    ensures Effect(accounts, legs, PostOn(accounts, legs, g).value)
  {
    var after := PostOn(accounts, legs, g).value;
    forall a | a in accounts
      ensures after[a].balance == Wrap(accounts[a].balance + AccountSum(legs, a))
    {
      NewBalanceExact(accounts[a], legs, a);
      if a !in Accounts(legs) {
        AccountSumOff(legs, a);
      }
    }
  }

  // ---------- the loops of postEntryTx ----------

  /** A SELECT ... FOR UPDATE of the given rows. */
  function Rows(accounts: map<int, Account>, ids: set<int>): map<int, Account> {
    map a | a in ids && a in accounts :: accounts[a]
  }

  lemma AllLocked(accounts: map<int, Account>, ids: seq<int>, out: map<int, Account>)
    requires Ascending(ids) && out == Rows(accounts, Elements(ids))
    ensures |out| == |ids| <==> Elements(ids) <= accounts.Keys
  {
    AscendingSize(ids);
    assert |out| == |out.Keys|;
    if |out| == |ids| {
      SubsetFull(out.Keys, Elements(ids));
    } else {
      assert Elements(ids) <= accounts.Keys ==> out.Keys == Elements(ids);
    }
  }

  function Deltas(legs: seq<Leg>): map<int, Minor> {
    map a | a in Accounts(legs) :: Wrap(AccountSum(legs, a))
  }

  lemma DeltaAt(legs: seq<Leg>, i: nat)
    requires i < |legs|
    ensures var a := legs[i].account;
            var d := Deltas(legs[..i]);
            Wrap(AccountSum(legs[..i + 1], a)) == Wrap((if a in d then d[a] else 0) + legs[i].amount)
  {
    var a := legs[i].account;
    PrefixLegs(legs, i);
    if a !in Accounts(legs[..i]) { AccountSumOff(legs[..i], a); }
    WrapAdd(AccountSum(legs[..i], a), legs[i].amount);
  }

  lemma DeltaStep(legs: seq<Leg>, i: nat)
    requires i < |legs|
    ensures var d := Deltas(legs[..i]);
            var a := legs[i].account;
            var before := if a in d then d[a] else 0;
            Deltas(legs[..i + 1]) == d[a := Wrap(before + legs[i].amount)]
  {
    PrefixLegs(legs, i);
    AccountsStep(legs, i);
    DeltaAt(legs, i);
    forall a | a in Accounts(legs[..i]) && a != legs[i].account
      ensures AccountSum(legs[..i + 1], a) == AccountSum(legs[..i], a) {}
  }

  predicate Matches(accounts: map<int, Account>, legs: seq<Leg>) {
    forall k | 0 <= k < |legs| ::
      legs[k].account in accounts && legs[k].currency == accounts[legs[k].account].currency
  }

  lemma MatchesAll(accounts: map<int, Account>, legs: seq<Leg>)
    requires Matches(accounts, legs)
    ensures Accounts(legs) <= accounts.Keys && !Mismatch(accounts, legs)
  {}

  lemma MatchesStep(accounts: map<int, Account>, legs: seq<Leg>, i: nat)
    requires i < |legs| && Matches(accounts, legs[..i])
    ensures legs[i].account in Accounts(legs)
    ensures legs[i].account in accounts && legs[i].currency == accounts[legs[i].account].currency
      ==> Matches(accounts, legs[..i + 1])
  {}

  /** The loop over the legs: currencies must match, amounts add up per account. */
  method ComputeDeltas(accounts: map<int, Account>, legs: seq<Leg>) returns (r: Result<map<int, Minor>, LedgerError>)
    ensures !(Accounts(legs) <= accounts.Keys) ==> r.Err?
    ensures Accounts(legs) <= accounts.Keys ==>
      r == if Mismatch(accounts, legs) then Err(CurrencyMismatch) else Ok(Deltas(legs))
  {
    var deltas: map<int, Minor> := map[];
    for i := 0 to |legs|
      invariant deltas == Deltas(legs[..i]) && Matches(accounts, legs[..i])
    {
      var l := legs[i];
      MatchesStep(accounts, legs, i);
      if l.account !in accounts {
        return Err(AccountNotFound);
      }
      if l.currency != accounts[l.account].currency {
        return Err(CurrencyMismatch);
      }
      var before: int := if l.account in deltas then deltas[l.account] else 0;
      DeltaStep(legs, i);
      deltas := deltas[l.account := Wrap(before + l.amount)];
    }
    assert legs[..|legs|] == legs;
    MatchesAll(accounts, legs);
    return Ok(deltas);
  }

  /** The new balances computed so far. */
  ghost predicate Checked(accounts: map<int, Account>, legs: seq<Leg>, todo: set<int>, nb: map<int, Minor>) {
    && todo <= accounts.Keys && nb.Keys == accounts.Keys - todo
    && forall a | a in nb :: nb[a] == NewBalance(accounts[a], legs, a) && (nb[a] >= 0 || accounts[a].allowNegative)
  }

  lemma CheckedAll(accounts: map<int, Account>, legs: seq<Leg>, nb: map<int, Minor>)
    requires accounts.Keys == Accounts(legs) && Checked(accounts, legs, {}, nb)
    ensures !Overdrawn(accounts, legs) && nb == NewBalances(accounts, legs)
  {}

  /** The loop over the locked rows, in any order: the result does not depend on it. */
  method CheckBalances(accounts: map<int, Account>, deltas: map<int, Minor>, ghost legs: seq<Leg>)
    returns (r: Result<map<int, Minor>, LedgerError>)
    requires accounts.Keys == Accounts(legs) && deltas == Deltas(legs)
    ensures r == if Overdrawn(accounts, legs) then Err(InsufficientFunds) else Ok(NewBalances(accounts, legs))
  {
    var todo := accounts.Keys;
    var newBalances: map<int, Minor> := map[];
    while todo != {}
      invariant Checked(accounts, legs, todo, newBalances)
    {
      ghost var _ := Pick(todo);
      var id :| id in todo;
      var nb := Wrap(accounts[id].balance + deltas[id]);
      assert nb == NewBalance(accounts[id], legs, id);
      if nb < 0 && !accounts[id].allowNegative {
        return Err(InsufficientFunds);
      }
      newBalances := newBalances[id := nb];
      todo := todo - {id};
    }
    CheckedAll(accounts, legs, newBalances);
    return Ok(newBalances);
  }

  /** Steps 3 and 4 on the locked rows agree with the same steps on the whole table. */
  method Compute(locked: map<int, Account>, legs: seq<Leg>, ghost accounts: map<int, Account>)
    returns (r: Result<map<int, Minor>, LedgerError>)
    requires ValidateLegs(legs).Ok? && Accounts(legs) <= accounts.Keys && locked == Rows(accounts, Accounts(legs))
    ensures r == CheckPost(accounts, legs, Ok(()))
    ensures r.Ok? ==> r.value.Keys == Accounts(legs)
  {
    CheckPostFrame(locked, accounts, legs, Ok(()));
    var deltas := ComputeDeltas(locked, legs);
    if deltas.Err? {
      return Err(deltas.error);
    }
    r := CheckBalances(locked, deltas.value, legs);
  }

  // ---------- requests ----------

  /** store.PaymentLegs */
  datatype PaymentLegs = PaymentLegs(merchant: int, source: int, currency: Currency, captured: Minor)

  datatype Guard = Guard(payment: int, merchant: int, captured: Minor, amount: Minor)

  datatype Job = Job(entry: Entry, guard: Option<Guard>)

  /** The row loop of GetPaymentLegs, over the postings in the order they arrive. */
  function DecodeLegs(legs: seq<Leg>): PaymentLegs {
    if legs == [] then PaymentLegs(0, 0, "", 0)
    else
      var pl := DecodeLegs(Front(legs)).(currency := Last(legs).currency);
      if Last(legs).amount > 0 then pl.(merchant := Last(legs).account, captured := Last(legs).amount)
      else pl.(source := Last(legs).account)
  }

  function DecodePayment(row: Option<TxnRow>): Result<PaymentLegs, LedgerError> {
    if row.None? || !row.value.kind.Payment? then Err(NotAPayment)
    else
      var pl := DecodeLegs(row.value.legs);
      if |row.value.legs| != 2 || pl.merchant == 0 || pl.source == 0 then Err(NotAPayment) else Ok(pl)
  }

  method GetPaymentLegs(db: Db, payment: int) returns (r: Result<PaymentLegs, LedgerError>)
    ensures r == DecodePayment(Find(db.journal, payment))
  {
    var row := Find(db.journal, payment);
    if row.None? || !row.value.kind.Payment? {
      return Err(NotAPayment);
    }
    var legs := row.value.legs;
    var pl := PaymentLegs(0, 0, "", 0);
    var found := 0;
    for i := 0 to |legs|
      invariant found == i && pl == DecodeLegs(legs[..i])
    {
      PrefixLegs(legs, i);
      pl := pl.(currency := legs[i].currency);
      found := found + 1;
      if legs[i].amount > 0 {
        pl := pl.(merchant := legs[i].account, captured := legs[i].amount);
      } else {
        pl := pl.(source := legs[i].account);
      }
    }
    assert legs[..|legs|] == legs;
    if found != 2 || pl.merchant == 0 || pl.source == 0 {
      return Err(NotAPayment);
    }
    return Ok(pl);
  }

  /** The two postings of a payment decode to the same legs in either order. */
  lemma DecodeOrder(src: Leg, dst: Leg)
    requires src.amount < 0 < dst.amount && src.currency == dst.currency
    ensures DecodeLegs([src, dst]) == DecodeLegs([dst, src])
         == PaymentLegs(dst.account, src.account, src.currency, dst.amount)
  {}

  function Pair(from: int, to: int, amount: Minor, c: Currency): seq<Leg>
    requires amount > 0
  {
    [Leg(from, c, 0 - amount), Leg(to, c, amount)]
  }

  /** The entry and guard an operation builds before it posts. */
  function Build(cfg: Config, db: Db, req: Request): Result<Job, LedgerError> {
    match req
    case TransferReq(from, to, amount, c) =>
      if amount <= 0 then Err(NonPositive)
      else if from == to then Err(SameAccount)
      else Ok(Job(Entry(Transfer, None, Pair(from, to, amount, c), false), None))
    case PaymentReq(source, merchant, amount, c) =>
      if amount <= 0 then Err(NonPositive)
      else Ok(Job(Entry(Payment, None, Pair(source, merchant, amount, c), true), None))
    case RefundReq(payment, amount) =>
      if amount <= 0 then Err(NonPositive)
      else
        var pl :- DecodePayment(Find(db.journal, payment));
        Ok(Job(Entry(Refund, Some(payment), Pair(pl.merchant, pl.source, amount, pl.currency), false),
               Some(Guard(payment, pl.merchant, pl.captured, amount))))
    case FxReq(from, to, amount, rate) =>
      if amount <= 0 then Err(NonPositive)
      else if from !in db.accounts || to !in db.accounts then Err(AccountNotFound)
      else
        var c, d := db.accounts[from].currency, db.accounts[to].currency;
        if c == d then Err(SameCurrency)
        else if !rate.Usable() then Err(LedgerError.BadRate)
        else
          var out := ConvertValue(rate, amount);
          if out <= 0 then Err(NonPositive)
          else if c !in cfg.fxDesk || d !in cfg.fxDesk then Err(AccountNotFound)
          else Ok(Job(Entry(Fx, None,
            Pair(from, cfg.fxDesk[c], amount, c) + Pair(cfg.fxDesk[d], to, out, d), false), None))
    case JournalReq(legs) =>
      Ok(Job(Entry(Transfer, None, legs, false), None))
  }

  /** Refund has no unkeyed form: an empty key is refused. */
  predicate KeyAllowed(req: Request, key: string) { req.RefundReq? ==> key != "" }

  /** refundGuard: prior + amount > captured, in int64 arithmetic, is a rejection. */
  function RefundVerdict(prior: int, g: Guard): Result<(), LedgerError> {
    if !InRange(prior) then Err(QueryOverflow)
    else if Wrap(prior + g.amount) > g.captured then Err(RefundExceedsCaptured)
    else Ok(())
  }

  function GuardVerdict(journal: seq<TxnRow>, g: Option<Guard>): Result<(), LedgerError> {
    if g.None? then Ok(()) else RefundVerdict(RefundedSoFar(journal, g.value.payment, g.value.merchant), g.value)
  }

  /** The guard's wrapping comparison is the exact one if and only if the sum is an int64. */
  lemma GuardExactIff(prior: int, g: Guard)
    requires 0 <= prior <= g.captured && g.amount > 0
    ensures (RefundVerdict(prior, g).Ok? <==> prior + g.amount <= g.captured) <==> prior + g.amount <= MAX
  {}

  /** The row a job writes. */
  function RowOf(e: Entry, id: int): TxnRow {
    TxnRow(id, e.kind, e.refTxn, e.pendingSettle, false, None, e.legs)
  }
}
