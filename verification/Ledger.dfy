/** Journal entries and the balancing check (internal/ledger/types.go). */
module Ledger {
  import opened Wrappers
  import opened Int64
  import opened Money

  datatype TxnKind = Transfer | Payment | Refund | Fx | Settlement

  datatype Leg = Leg(account: int, currency: Currency, amount: Minor)

  datatype Entry = Entry(kind: TxnKind, refTxn: Option<int>, legs: seq<Leg>, pendingSettle: bool)

  datatype LedgerError =
    | TooFewLegs | ZeroLeg | UnsupportedCurrency | Unbalanced
    | AccountNotFound | CurrencyMismatch | InsufficientFunds
    | RefundExceedsCaptured | QueryOverflow
    | NonPositive | SameAccount | SameCurrency | NotAPayment | BadRate | KeyRequired
    | IdempotencyConflict | UnexpectedKeyState | NoPayoutAccount | Transient | Lost

  // ---------- sums over legs ----------

  function Front<T>(s: seq<T>): seq<T>
    requires s != []
  {
    s[..|s| - 1]
  }

  function Last<T>(s: seq<T>): T
    requires s != []
  {
    s[|s| - 1]
  }

  /** What one leg contributes to an account, and to a currency. */
  function On(l: Leg, a: int): int { if l.account == a then l.amount else 0 }

  function In(l: Leg, c: Currency): int { if l.currency == c then l.amount else 0 }

  /** Exact sum of the legs in one currency. */
  function CurrencySum(legs: seq<Leg>, c: Currency): int {
    if legs == [] then 0
    else CurrencySum(Front(legs), c) + In(Last(legs), c)
  }

  /** Exact sum of the legs on one account. */
  function AccountSum(legs: seq<Leg>, a: int): int {
    if legs == [] then 0
    else AccountSum(Front(legs), a) + On(Last(legs), a)
  }

  /** Absolute value of the negative legs on one account. */
  function DebitSum(legs: seq<Leg>, a: int): nat {
    if legs == [] then 0
    else DebitSum(Front(legs), a)
         + (if Last(legs).account == a && Last(legs).amount < 0 then 0 - Last(legs).amount else 0)
  }

  /** Absolute value of all negative legs. */
  function Debits(legs: seq<Leg>): nat {
    if legs == [] then 0
    else Debits(Front(legs)) + (if Last(legs).amount < 0 then 0 - Last(legs).amount else 0)
  }

  function Accounts(legs: seq<Leg>): set<int> { set i | 0 <= i < |legs| :: legs[i].account }

  function Currencies(legs: seq<Leg>): set<Currency> { set i | 0 <= i < |legs| :: legs[i].currency }

  lemma {:induction false} AccountSumOff(legs: seq<Leg>, a: int)
    requires a !in Accounts(legs)
    ensures AccountSum(legs, a) == 0 && DebitSum(legs, a) == 0
  {
    if legs != [] {
      assert Last(legs).account in Accounts(legs);
      assert a !in Accounts(Front(legs)) by {
        assert forall i | 0 <= i < |Front(legs)| :: Front(legs)[i] == legs[i];
      }
      AccountSumOff(Front(legs), a);
    }
  }

  lemma {:induction false} CurrencySumOff(legs: seq<Leg>, c: Currency)
    requires c !in Currencies(legs)
    ensures CurrencySum(legs, c) == 0
  {
    if legs != [] {
      assert Last(legs).currency in Currencies(legs);
      assert c !in Currencies(Front(legs)) by {
        assert forall i | 0 <= i < |Front(legs)| :: Front(legs)[i] == legs[i];
      }
      CurrencySumOff(Front(legs), c);
    }
  }

  /** The shape of every entry the payment operations build: pairs of opposite legs. */
  lemma PairSums(l0: Leg, l1: Leg)
    ensures forall a :: AccountSum([l0, l1], a) == On(l0, a) + On(l1, a)
    ensures forall c :: CurrencySum([l0, l1], c) == In(l0, c) + In(l1, c)
    ensures Accounts([l0, l1]) == {l0.account, l1.account}
  {
    var legs := [l0, l1];
    assert Front(legs) == [l0] && Front([l0]) == [];
    assert legs[0].account in Accounts(legs) && legs[1].account in Accounts(legs);
    forall a ensures AccountSum(legs, a) == On(l0, a) + On(l1, a) {
      assert AccountSum([l0], a) == On(l0, a);
    }
    forall c ensures CurrencySum(legs, c) == In(l0, c) + In(l1, c) {
      assert CurrencySum([l0], c) == In(l0, c);
    }
  }

  // ---------- Entry.Validate ----------

  /** The first leg the loop rejects, if any. */
  function RejectedLeg(legs: seq<Leg>): Option<LedgerError> {
    if legs == [] then None
    else if RejectedLeg(Front(legs)).Some? then RejectedLeg(Front(legs))
    else if Last(legs).amount == 0 then Some(ZeroLeg)
    else if !IsSupported(Last(legs).currency) then Some(UnsupportedCurrency)
    else None
  }

  function ValidateLegs(legs: seq<Leg>): Result<(), LedgerError> {
    if |legs| < 2 then Err(TooFewLegs)
    else if RejectedLeg(legs).Some? then Err(RejectedLeg(legs).value)
    else if exists i | 0 <= i < |legs| :: Wrap(CurrencySum(legs, legs[i].currency)) != 0 then Err(Unbalanced)
    else Ok(())
  }

  lemma PrefixLegs(legs: seq<Leg>, i: nat)
    requires i < |legs|
    ensures Front(legs[..i + 1]) == legs[..i] && Last(legs[..i + 1]) == legs[i]
  {}

  lemma {:induction false} RejectedPrefix(legs: seq<Leg>, i: nat)
    requires i <= |legs| && RejectedLeg(legs[..i]).Some?
    ensures RejectedLeg(legs) == RejectedLeg(legs[..i])
    decreases |legs|
  {
    if i == |legs| {
      assert legs[..i] == legs;
    } else {
      assert Front(legs)[..i] == legs[..i];
      RejectedPrefix(Front(legs), i);
    }
  }

  /** The loop's verdict on its next leg. */
  lemma RejectedStep(legs: seq<Leg>, i: nat)
    requires i < |legs| && RejectedLeg(legs[..i]).None?
    ensures legs[i].amount == 0 ==> RejectedLeg(legs) == Some(ZeroLeg)
    ensures legs[i].amount != 0 && !IsSupported(legs[i].currency) ==> RejectedLeg(legs) == Some(UnsupportedCurrency)
    ensures legs[i].amount != 0 && IsSupported(legs[i].currency) ==> RejectedLeg(legs[..i + 1]).None?
  {
    PrefixLegs(legs, i);
    if legs[i].amount == 0 || !IsSupported(legs[i].currency) { RejectedPrefix(legs, i + 1); }
  }

  method Validate(e: Entry) returns (r: Result<(), LedgerError>)
    ensures r == ValidateLegs(e.legs)
  {
    if |e.legs| < 2 {
      return Err(TooFewLegs);
    }
    var perCurrency :- SumPerCurrency(e.legs);
    r := CheckNets(e.legs, perCurrency);
  }

  /** What the per-currency map holds once these legs have been added. */
  ghost predicate Summed(m: map<Currency, Minor>, legs: seq<Leg>) {
    m.Keys == Currencies(legs) && forall c | c in m :: m[c] == Wrap(CurrencySum(legs, c))
  }

  lemma SummedStep(m: map<Currency, Minor>, legs: seq<Leg>, i: nat, before: int, after: Minor)
    requires i < |legs| && Summed(m, legs[..i])
    requires before == if legs[i].currency in m then m[legs[i].currency] else 0
    requires after == Wrap(before + legs[i].amount)
    ensures Summed(m[legs[i].currency := after], legs[..i + 1])
  {
    var c := legs[i].currency;
    PrefixLegs(legs, i);
    CurrenciesStep(legs, i);
    if c !in m { CurrencySumOff(legs[..i], c); }
    WrapAdd(CurrencySum(legs[..i], c), legs[i].amount);
  }

  /** The loop over the legs. */
  method SumPerCurrency(legs: seq<Leg>) returns (r: Result<map<Currency, Minor>, LedgerError>)
    ensures r.Err? ==> Some(r.error) == RejectedLeg(legs)
    ensures r.Ok? ==> RejectedLeg(legs).None? && Summed(r.value, legs)
  {
    var perCurrency: map<Currency, Minor> := map[];
    for i := 0 to |legs|
      invariant RejectedLeg(legs[..i]).None?
      invariant Summed(perCurrency, legs[..i])
    {
      var l := legs[i];
      RejectedStep(legs, i);
      if l.amount == 0 {
        return Err(ZeroLeg);
      }
      if !IsSupported(l.currency) {
        return Err(UnsupportedCurrency);
      }
      var before: int := if l.currency in perCurrency then perCurrency[l.currency] else 0;
      var after := Wrap(before + l.amount);
      SummedStep(perCurrency, legs, i, before, after);
      perCurrency := perCurrency[l.currency := after];
    }
    assert legs[..|legs|] == legs;
    return Ok(perCurrency);
  }

  /** The loop over the map, in any order. */
  method CheckNets(legs: seq<Leg>, perCurrency: map<Currency, Minor>) returns (r: Result<(), LedgerError>)
    requires Summed(perCurrency, legs)
    ensures r == if exists i | 0 <= i < |legs| :: Wrap(CurrencySum(legs, legs[i].currency)) != 0
                 then Err(Unbalanced) else Ok(())
  {
    var todo := perCurrency.Keys;
    while todo != {}
      invariant todo <= perCurrency.Keys
      invariant forall c | c in perCurrency.Keys - todo :: perCurrency[c] == 0
    {
      var c :| c in todo;
      if perCurrency[c] != 0 {
        var i :| 0 <= i < |legs| && legs[i].currency == c;
        return Err(Unbalanced);
      }
      todo := todo - {c};
    }
    forall i | 0 <= i < |legs| ensures Wrap(CurrencySum(legs, legs[i].currency)) == 0 {
      assert legs[i].currency in Currencies(legs);
    }
    return Ok(());
  }

  lemma CurrenciesStep(legs: seq<Leg>, i: nat)
    requires i < |legs|
    ensures Currencies(legs[..i + 1]) == Currencies(legs[..i]) + {legs[i].currency}
  {}

  lemma {:induction false} RejectedLegNone(legs: seq<Leg>)
    ensures RejectedLeg(legs).None? <==>
      forall i | 0 <= i < |legs| :: legs[i].amount != 0 && IsSupported(legs[i].currency)
  {
    if legs != [] {
      RejectedLegNone(Front(legs));
      assert forall i | 0 <= i < |legs| - 1 :: legs[i] == Front(legs)[i];
      assert forall i | 0 <= i < |legs| :: i == |legs| - 1 || legs[i] == Front(legs)[i];
    }
  }

  /** No money is created or destroyed: every currency nets to exactly zero. */
  ghost predicate Balanced(legs: seq<Leg>) {
    forall c: Currency :: CurrencySum(legs, c) == 0
  }

  ghost predicate NetsVanish(legs: seq<Leg>) {
    forall c: Currency :: CurrencySum(legs, c) % TWO64 == 0
  }

  ghost predicate NetsFit(legs: seq<Leg>) {
    forall c: Currency :: InRange(CurrencySum(legs, c))
  }

  lemma NetsVanishIff(legs: seq<Leg>)
    ensures NetsVanish(legs) <==> forall i | 0 <= i < |legs| :: Wrap(CurrencySum(legs, legs[i].currency)) == 0
  {
    forall c: Currency ensures CurrencySum(legs, c) % TWO64 == 0 <==> Wrap(CurrencySum(legs, c)) == 0 {
      WrapExact(CurrencySum(legs, c));
    }
    if forall i | 0 <= i < |legs| :: Wrap(CurrencySum(legs, legs[i].currency)) == 0 {
      forall c: Currency ensures CurrencySum(legs, c) % TWO64 == 0 {
        if c in Currencies(legs) {
          var i :| 0 <= i < |legs| && legs[i].currency == c;
        } else {
          CurrencySumOff(legs, c);
        }
      }
    }
  }

  /** Validate accepts exactly the entries with at least two legs, all non-zero and in known
      currencies, whose per-currency sums vanish modulo 2^64. */
  lemma ValidateAccepts(legs: seq<Leg>)
    ensures ValidateLegs(legs).Ok? <==>
      && |legs| >= 2
      && (forall i | 0 <= i < |legs| :: legs[i].amount != 0 && IsSupported(legs[i].currency))
      && NetsVanish(legs)
  {
    RejectedLegNone(legs);
    NetsVanishIff(legs);
  }

  predicate BadLeg(l: Leg) { l.amount == 0 || !IsSupported(l.currency) }

  /** The first bad leg decides the error of an entry of two or more legs. */
  lemma BadLegRefused(legs: seq<Leg>, i: nat)
    requires |legs| >= 2 && i < |legs| && BadLeg(legs[i]) && forall j | 0 <= j < i :: !BadLeg(legs[j])
    ensures ValidateLegs(legs) == Err(if legs[i].amount == 0 then ZeroLeg else UnsupportedCurrency)
  {
    RejectedLegNone(legs[..i]);
    RejectedStep(legs, i);
  }

  /** Without bad legs only too few of them or an unbalanced currency is refused. */
  lemma GoodLegsRefused(legs: seq<Leg>)
    requires ValidateLegs(legs).Err? && forall j | 0 <= j < |legs| :: !BadLeg(legs[j])
    ensures ValidateLegs(legs) == Err(if |legs| < 2 then TooFewLegs else Unbalanced)
    ensures |legs| < 2 || !NetsVanish(legs)
  {
    RejectedLegNone(legs);
    ValidateAccepts(legs);
  }

  /** An accepted entry is balanced in exact integers if and only if no currency's sum leaves
      the int64 range. */
  lemma ValidateBalances(legs: seq<Leg>)
    requires ValidateLegs(legs).Ok?
    ensures Balanced(legs) <==> NetsFit(legs)
  {
    ValidateAccepts(legs);
    if NetsFit(legs) {
      forall c: Currency ensures CurrencySum(legs, c) == 0 {
        assert CurrencySum(legs, c) % TWO64 == 0 && InRange(CurrencySum(legs, c));
      }
    }
    if Balanced(legs) {
      forall c: Currency ensures InRange(CurrencySum(legs, c)) {
        assert CurrencySum(legs, c) == 0;
      }
    }
  }

  /** A three-leg entry that creates 2^64 minor units and is accepted. */
  lemma ValidateWraps()
    ensures var legs := [Leg(1, "USD", MAX), Leg(2, "USD", MAX), Leg(3, "USD", 2)];
            ValidateLegs(legs).Ok? && !Balanced(legs)
  {
    var legs := [Leg(1, "USD", MAX), Leg(2, "USD", MAX), Leg(3, "USD", 2)];
    assert Front(legs) == [Leg(1, "USD", MAX), Leg(2, "USD", MAX)];
    PairSums(legs[0], legs[1]);
    assert CurrencySum(legs, "USD") == TWO64;
    RejectedLegNone(legs);
    WrapExact(TWO64);
  }
}
