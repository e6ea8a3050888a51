/** Exact rational FX conversion (internal/money/fx.go). */
module FxRate {
  import opened Wrappers
  import opened Int64

  datatype RateError = BadRate

  datatype Rate = Rate(num: Minor, den: Minor) {
    predicate Usable() { num > 0 && den > 0 }
  }

  /** Go's big.Int Quo truncates toward zero. */
  function Quo(n: int, d: int): int
    requires d > 0
  {
    if n >= 0 then n / d else -((-n) / d)
  }

  /** floor((f*Num + Den/2) / Den), before it is narrowed to 64 bits. */
  function Quotient(r: Rate, f: int): int
    requires r.Usable()
  {
    Quo(f * r.num + r.den / 2, r.den)
  }

  function ConvertValue(r: Rate, from: Minor): Minor
    requires r.Usable()
  {
    var f := if from < 0 then Wrap(0 - from) else from;
    var res := Wrap(Quotient(r, f));
    if from < 0 then Wrap(0 - res) else res
  }

  method Convert(r: Rate, from: Minor) returns (out: Result<Minor, RateError>)
    ensures out == if r.Usable() then Ok(ConvertValue(r, from)) else Err(BadRate)
  {
    if !r.Usable() {
      return Err(BadRate);
    }
    var neg := from < 0;
    var f: Minor := from;
    if neg {
      f := Wrap(0 - f);
    }
    var num: int := f * r.num;
    var half := r.den / 2;
    num := num + half;
    assert num == f * r.num + r.den / 2;
    assert Quo(num, r.den) == Quotient(r, f);
    var res: int := Wrap(Quo(num, r.den));
    if neg {
      res := Wrap(0 - res);
    }
    return Ok(res);
  }

  lemma MulMono(a: int, b: int, m: int)
    requires a <= b && m >= 0
    ensures a * m <= b * m
  {}

  lemma DivBounds(n: int, d: int)
    requires d > 0
    ensures n / d * d <= n < n / d * d + d
    ensures n >= 0 ==> n / d >= 0
  {
    assert n == n / d * d + n % d;
    if n >= 0 && n / d < 0 {
      MulMono(n / d, -1, d);
    }
  }

  /** Rounding half up, on plain integers: x is the numerator product, d the denominator. */
  lemma RoundBounds(x: int, d: int)
    requires x >= 0 && d > 0
    ensures (x + d / 2) / d >= 0
    ensures -d < 2 * ((x + d / 2) / d * d - x) <= d
  {
    DivBounds(x + d / 2, d);
  }

  /** `q` is a nearest integer to x/d, ties away from zero. */
  predicate Rounded(x: int, d: int, q: int)
    requires d > 0
  {
    if x >= 0 then -d < 2 * (q * d - x) <= d else -d <= 2 * (q * d - x) < d
  }

  lemma RoundedUnique(x: int, d: int, p: int, q: int)
    requires d > 0 && Rounded(x, d, p) && Rounded(x, d, q)
    ensures p == q
  {
    if p < q { MulMono(p + 1, q, d); }
    if q < p { MulMono(q + 1, p, d); }
  }

  lemma QuotientRounded(r: Rate, f: int)
    requires r.Usable() && f >= 0
    ensures f * r.num >= 0
    ensures Quotient(r, f) >= 0 && Rounded(f * r.num, r.den, Quotient(r, f))
  {
    MulMono(0, f, r.num);
    RoundBounds(f * r.num, r.den);
  }

  function Abs(x: int): nat { if x < 0 then 0 - x else x }

  /** The condition a caller can evaluate on its own arguments before converting: the
      rounded result, with its sign, is an int64. */
  predicate Convertible(r: Rate, from: Minor)
    requires r.Usable()
  {
    if from == MIN then r.num == 1 && r.den == 1
    else if from < 0 then Abs(from) * r.num + r.den / 2 < (MAX + 2) * r.den
    else from * r.num + r.den / 2 < (MAX + 1) * r.den
  }

  /** The exact rounded result for an amount that has a positive counterpart. */
  function Exact(r: Rate, from: int): int
    requires r.Usable()
  {
    if from < 0 then 0 - Quotient(r, 0 - from) else Quotient(r, from)
  }

  lemma ExactRounded(r: Rate, from: int)
    requires r.Usable()
    ensures Rounded(from * r.num, r.den, Exact(r, from))
  {
    if from < 0 {
      var f := 0 - from;
      QuotientRounded(r, f);
      MulMono(1, f, r.num);
      NegateProduct(from, r.num);
      NegateProduct(Exact(r, from), r.den);
    } else {
      QuotientRounded(r, from);
    }
  }

  lemma NegateProduct(a: int, b: int)
    ensures (0 - a) * b == 0 - a * b
  {}

  lemma ConvertIsExactWrapped(r: Rate, from: Minor)
    requires r.Usable() && from != MIN
    ensures ConvertValue(r, from) == Wrap(Exact(r, from))
  {
    if from < 0 {
      WrapNeg(Quotient(r, 0 - from));
    }
  }

  lemma QuotientBelow(r: Rate, f: int, limit: int)
    requires r.Usable() && f >= 0
    ensures Quotient(r, f) < limit <==> f * r.num + r.den / 2 < limit * r.den
  {
    MulMono(0, f, r.num);
    var n, d := f * r.num + r.den / 2, r.den;
    DivBounds(n, d);
    if n / d < limit {
      MulMono(n / d + 1, limit, d);
    } else {
      MulMono(limit, n / d, d);
    }
  }

  lemma ConvertibleIffInRange(r: Rate, from: Minor)
    requires r.Usable() && from != MIN
    ensures Convertible(r, from) <==> InRange(Exact(r, from))
  {
    QuotientRounded(r, Abs(from));
    QuotientBelow(r, Abs(from), if from < 0 then MAX + 2 else MAX + 1);
  }

  lemma ConvertMinimumByOne(r: Rate)
    requires r.num == 1 && r.den == 1
    ensures ConvertValue(r, MIN) == MIN
  {
    SameIntro(0 - MIN, MIN, 1);
    WrapUnique(0 - MIN, MIN);
  }

  /** Under the caller's condition the result is the nearest integer with ties away from
      zero; no other integer is. */
  lemma ConvertRounds(r: Rate, from: Minor)
    requires r.Usable() && Convertible(r, from)
    ensures Rounded(from * r.num, r.den, ConvertValue(r, from))
    ensures forall q: int :: Rounded(from * r.num, r.den, q) ==> q == ConvertValue(r, from)
  {
    if from == MIN {
      ConvertMinimumByOne(r);
    } else {
      ConvertIsExactWrapped(r, from);
      ConvertibleIffInRange(r, from);
      ExactRounded(r, from);
    }
    forall q: int | Rounded(from * r.num, r.den, q) ensures q == ConvertValue(r, from) {
      RoundedUnique(from * r.num, r.den, q, ConvertValue(r, from));
    }
  }

  /** `q` is a nearest integer to x/d, ties either way. */
  predicate Nearest(x: int, d: int, q: int) {
    2 * x - d <= 2 * (q * d) <= 2 * x + d
  }

  /** A rounded value that is no int64 is narrowed far away from the exact quotient. */
  lemma NarrowedIsFar(x: int, d: int, q: int)
    requires d > 0 && Rounded(x, d, q) && !InRange(q)
    ensures !Nearest(x, d, Wrap(q))
  {
    WrapSame(q);
    var k :| q == Wrap(q) + k * TWO64;
    var w: int := Wrap(q);
    if w < q {
      MulMono(w + 2, q, d);
      assert (w + 2) * d == w * d + 2 * d;
    } else {
      MulMono(q + 2, w, d);
      assert (q + 2) * d == q * d + 2 * d;
    }
  }

  lemma WrapFromAbove(q: int) returns (j: nat)
    requires q >= 0
    ensures Wrap(q) == q - j * TWO64 && (j == 0 <==> q <= MAX)
  {
    WrapSame(q);
    var k :| q == Wrap(q) + k * TWO64;
    j := k;
  }

  /** What Convert computes for the minimum int64, whose negation is itself. */
  lemma ConvertMinimum(r: Rate)
    requires r.Usable()
    ensures (MAX + 1) * r.num >= r.den / 2
    ensures ConvertValue(r, MIN) == Wrap(((MAX + 1) * r.num - r.den / 2) / r.den)
  {
    var d, y, half := r.den, (MAX + 1) * r.num, r.den / 2;
    var g := (y - half) / d;
    assert MIN * r.num + half == 0 - (y - half);
    SameIntro(0 - MIN, MIN, 1);
    WrapUnique(0 - MIN, MIN);
    assert Quotient(r, MIN) == 0 - g;
    WrapNeg(0 - g);
  }

  lemma MinimumQuotient(r: Rate) returns (g: int, j: nat)
    requires r.Usable()
    ensures (MAX + 1) * r.num >= r.den / 2
    ensures g == ((MAX + 1) * r.num - r.den / 2) / r.den
    ensures ConvertValue(r, MIN) == g - j * TWO64 && (j == 0 <==> g <= MAX)
  {
    ConvertMinimum(r);
    g := ((MAX + 1) * r.num - r.den / 2) / r.den;
    DivBounds((MAX + 1) * r.num - r.den / 2, r.den);
    j := WrapFromAbove(g);
  }

  /** The minimum int64 is converted correctly at rate 1/1 only. */
  lemma MinimumIsFar(num: int, d: int, w: int, j: nat)
    requires 0 < num <= MAX && 0 < d <= MAX && !(num == 1 && d == 1)
    requires (MAX + 1) * num >= d / 2
    requires w == ((MAX + 1) * num - d / 2) / d - j * TWO64
    requires j == 0 <==> ((MAX + 1) * num - d / 2) / d <= MAX
    requires InRange(w)
    ensures !Nearest(MIN * num, d, w)
  {
    var y := (MAX + 1) * num;
    var g := (y - d / 2) / d;
    DivBounds(y - d / 2, d);
    if j == 0 {
      MulMono(0, w, d);
    } else {
      MulMono(MAX + 1, g, d);
      MulMono(MIN, w, d);
      assert (MAX + 1) * d <= y - d / 2;
      NoneBetween(num, d, w * d);
    }
  }

  lemma NoneBetween(num: int, d: int, wd: int)
    requires 0 < num <= MAX && 0 < d <= MAX && !(num == 1 && d == 1)
    requires (MAX + 1) * d <= (MAX + 1) * num - d / 2
    requires MIN * d <= wd
    ensures 2 * wd > 2 * (MIN * num) + d
  {
  }

  lemma ConvertMinimumNearest(r: Rate)
    requires r.Usable() && !Convertible(r, MIN)
    ensures !Nearest(MIN * r.num, r.den, ConvertValue(r, MIN))
  {
    var num, d: int := r.num, r.den;
    ghost var w: int := ConvertValue(r, MIN);
    var g, j := MinimumQuotient(r);
    MinimumIsFar(num, d, w, j);
  }

  /** Convert returns a nearest integer exactly when the caller's condition holds. */
  lemma ConvertNearestIff(r: Rate, from: Minor)
    requires r.Usable()
    ensures Nearest(from * r.num, r.den, ConvertValue(r, from)) <==> Convertible(r, from)
  {
    if Convertible(r, from) {
      ConvertRounds(r, from);
    } else if from == MIN {
      ConvertMinimumNearest(r);
    } else {
      ConvertIsExactWrapped(r, from);
      ConvertibleIffInRange(r, from);
      ExactRounded(r, from);
      NarrowedIsFar(from * r.num, r.den, Exact(r, from));
    }
  }

  lemma ExactOdd(r: Rate, from: int)
    requires r.Usable()
    ensures Exact(r, 0 - from) == 0 - Exact(r, from)
  {
    if from == 0 {
      QuotientRounded(r, 0);
      RoundedUnique(0, r.den, Quotient(r, 0), 0);
    }
  }

  /** Converting the opposite amount gives the opposite result if and only if the result has
      one: it is not the minimum int64. */
  lemma ConvertOdd(r: Rate, from: Minor)
    requires r.Usable() && from != MIN
    ensures ConvertValue(r, 0 - from) == 0 - ConvertValue(r, from) <==> ConvertValue(r, from) != MIN
  {
    var x := Exact(r, from);
    ConvertIsExactWrapped(r, from);
    ConvertIsExactWrapped(r, 0 - from);
    ExactOdd(r, from);
    OppositeWraps(x);
  }

  lemma OppositeWraps(x: int)
    ensures Wrap(0 - x) == 0 - Wrap(x) <==> Wrap(x) != MIN
  {
    WrapNeg(x);
    WrapExact(0 - Wrap(x));
  }

  lemma RoundedMonotone(x: int, y: int, d: int, p: int, q: int)
    requires d > 0 && x <= y && Rounded(x, d, p) && Rounded(y, d, q)
    ensures p <= q
  {
    if p > q {
      MulMono(q + 1, p, d);
      if x == y { RoundedUnique(x, d, p, q); }
    }
  }

  lemma ConvertMonotone(r: Rate, a: Minor, b: Minor)
    requires r.Usable() && Convertible(r, a) && Convertible(r, b) && a <= b
    ensures ConvertValue(r, a) <= ConvertValue(r, b)
  {
    ConvertRounds(r, a);
    ConvertRounds(r, b);
    MulMono(a, b, r.num);
    RoundedMonotone(a * r.num, b * r.num, r.den, ConvertValue(r, a), ConvertValue(r, b));
  }

  function Inverse(r: Rate): Rate { Rate(r.den, r.num) }

  /** From the error of each leg: a*num ~ b*den and b*den ~ c*num. */
  lemma RoundTripError(num: int, den: int, a: int, b: int, c: int)
    requires num > 0 && den > 0
    requires Rounded(a * num, den, b) && Rounded(b * den, num, c)
    ensures 2 * num * Abs(c - a) <= num + den
  {
    var z := c - a;
    assert z * num == c * num - a * num;
    AbsProduct(z, num);
  }

  lemma RoundTripExact(num: int, den: int, a: int, b: int, c: int)
    requires num >= den > 0
    requires Rounded(a * num, den, b) && Rounded(b * den, num, c)
    ensures c == a
  {
    RoundTripError(num, den, a, b, c);
    var z: int := Abs(c - a);
    if z >= 1 {
      SmallFactor(num, den, z);
      RoundedUnique(a * num, den, b, a);
      RoundedUnique(b * den, num, c, b);
    }
  }

  lemma SmallFactor(num: int, den: int, z: int)
    requires num >= den > 0 && z >= 1 && 2 * num * z <= num + den
    ensures num == den
  {
    MulMono(1, z, 2 * num);
  }

  lemma AbsProduct(z: int, m: int)
    requires m > 0
    ensures Abs(z) * m == Abs(z * m) && 2 * m * Abs(z) == 2 * Abs(z * m)
  {
    if z < 0 { NegateProduct(z, m); MulMono(z, 0, m); } else { MulMono(0, z, m); }
  }

  /** Converting there and back changes an amount by at most (num + den) / (2 * num), so not
      at all when the target currency has the finer unit. */
  lemma ConvertRoundTrip(r: Rate, a: Minor)
    requires r.Usable() && Convertible(r, a) && Convertible(Inverse(r), ConvertValue(r, a))
    ensures var back := ConvertValue(Inverse(r), ConvertValue(r, a));
            && 2 * r.num * Abs(back - a) <= r.num + r.den
            && (r.num >= r.den ==> back == a)
  {
    ConvertRounds(r, a);
    ConvertRounds(Inverse(r), ConvertValue(r, a));
    var b := ConvertValue(r, a);
    var c := ConvertValue(Inverse(r), b);
    RoundTripError(r.num, r.den, a, b, c);
    if r.num >= r.den {
      RoundTripExact(r.num, r.den, a, b, c);
    }
  }

  function Total(amounts: seq<Minor>): int {
    if amounts == [] then 0 else Total(amounts[..|amounts| - 1]) + amounts[|amounts| - 1]
  }

  /** The sum of the amounts converted one by one. */
  function TotalConverted(r: Rate, amounts: seq<Minor>): int
    requires r.Usable()
  {
    if amounts == [] then 0
    else TotalConverted(r, amounts[..|amounts| - 1]) + ConvertValue(r, amounts[|amounts| - 1])
  }

  /** Off the exact rate by at most half a unit for each of n conversions. */
  predicate Close(r: Rate, released: int, taken: int, n: nat) { 2 * Abs(released * r.den - taken * r.num) <= n * r.den }

  /** n conversions put the desk at most n half-units of the denominator off the exact rate. */
  lemma {:induction false} DeskError(r: Rate, amounts: seq<Minor>)
    requires r.Usable() && forall i | 0 <= i < |amounts| :: Convertible(r, amounts[i])
    ensures Close(r, TotalConverted(r, amounts), Total(amounts), |amounts|)
  {
    if amounts != [] {
      var n := |amounts| - 1;
      DeskError(r, amounts[..n]);
      ConvertRounds(r, amounts[n]);
      DeskStep(TotalConverted(r, amounts[..n]), Total(amounts[..n]),
               ConvertValue(r, amounts[n]), amounts[n], r.num, r.den, n);
    }
  }

  lemma DeskStep(c: int, t: int, q: int, a: int, num: int, d: int, n: nat)
    requires d > 0 && Rounded(a * num, d, q)
    requires 2 * Abs(c * d - t * num) <= n * d
    ensures 2 * Abs((c + q) * d - (t + a) * num) <= (n + 1) * d
  {
    assert (c + q) * d == c * d + q * d;
    assert (t + a) * num == t * num + a * num;
    assert (n + 1) * d == n * d + d;
  }

  predicate AllConvertible(r: Rate, amounts: seq<Minor>)
    requires r.Usable()
  {
    forall i | 0 <= i < |amounts| :: Convertible(r, amounts[i])
  }

  /** The sum of the rounded results before they are narrowed to 64 bits. */
  function TotalExact(r: Rate, amounts: seq<Minor>): int
    requires r.Usable()
  {
    if amounts == [] then 0
    else TotalExact(r, amounts[..|amounts| - 1]) + Exact(r, amounts[|amounts| - 1])
  }

  lemma {:induction false} ExactDeskError(r: Rate, amounts: seq<Minor>)
    requires r.Usable()
    ensures Close(r, TotalExact(r, amounts), Total(amounts), |amounts|)
  {
    if amounts != [] {
      var n := |amounts| - 1;
      ExactDeskError(r, amounts[..n]);
      ExactRounded(r, amounts[n]);
      DeskStep(TotalExact(r, amounts[..n]), Total(amounts[..n]), Exact(r, amounts[n]), amounts[n], r.num, r.den, n);
    }
  }

  /** Narrowing a positive result loses nothing or at least 2^64. */
  lemma Narrowed(r: Rate, a: Minor)
    requires r.Usable() && a > 0
    ensures Convertible(r, a) ==> ConvertValue(r, a) == Exact(r, a)
    ensures !Convertible(r, a) ==> ConvertValue(r, a) <= Exact(r, a) - TWO64
  {
    ConvertIsExactWrapped(r, a);
    ConvertibleIffInRange(r, a);
    QuotientRounded(r, a);
    var j := WrapFromAbove(Exact(r, a));
  }

  lemma {:induction false} TotalNarrowed(r: Rate, amounts: seq<Minor>)
    requires r.Usable() && forall i | 0 <= i < |amounts| :: amounts[i] > 0
    ensures AllConvertible(r, amounts) ==> TotalConverted(r, amounts) == TotalExact(r, amounts)
    ensures !AllConvertible(r, amounts) ==> TotalConverted(r, amounts) <= TotalExact(r, amounts) - TWO64
  {
    if amounts != [] {
      var n := |amounts| - 1;
      var front := amounts[..n];
      TotalNarrowed(r, front);
      Narrowed(r, amounts[n]);
      AllButLast(r, amounts);
    }
  }

  lemma AllButLast(r: Rate, amounts: seq<Minor>)
    requires r.Usable() && amounts != []
    ensures AllConvertible(r, amounts)
       <==> AllConvertible(r, amounts[..|amounts| - 1]) && Convertible(r, amounts[|amounts| - 1])
  {
    var n := |amounts| - 1;
    assert forall i | 0 <= i < n :: amounts[..n][i] == amounts[i];
  }

  /** For positive amounts the error bound holds if, and below 2^64 conversions only if, each
      result fits an int64. */
  lemma DeskErrorIff(r: Rate, amounts: seq<Minor>)
    requires r.Usable() && forall i | 0 <= i < |amounts| :: amounts[i] > 0
    ensures var close := Close(r, TotalConverted(r, amounts), Total(amounts), |amounts|);
            && (AllConvertible(r, amounts) ==> close)
            && (|amounts| < TWO64 && close ==> AllConvertible(r, amounts))
  {
    ExactDeskError(r, amounts);
    TotalNarrowed(r, amounts);
    if !AllConvertible(r, amounts) && |amounts| < TWO64 {
      FarOff(TotalExact(r, amounts), TotalConverted(r, amounts), Total(amounts) * r.num, r.den, |amounts|);
    }
  }

  lemma FarOff(exact: int, narrowed: int, x: int, d: int, n: nat)
    requires d > 0 && narrowed <= exact - TWO64 && n < TWO64
    requires 2 * Abs(exact * d - x) <= n * d
    ensures 2 * Abs(narrowed * d - x) > n * d
  {
    MulMono(narrowed + n + 1, exact, d);
    assert (narrowed + n + 1) * d == narrowed * d + n * d + d;
  }

  /** Converting an amount in k pieces or in one go differs by at most (k + 1) / 2 units. */
  lemma SplitConversion(r: Rate, amounts: seq<Minor>)
    requires r.Usable() && forall i | 0 <= i < |amounts| :: Convertible(r, amounts[i])
    requires InRange(Total(amounts)) && Convertible(r, Total(amounts))
    ensures 2 * Abs(TotalConverted(r, amounts) - ConvertValue(r, Total(amounts))) <= |amounts| + 1
  {
    DeskError(r, amounts);
    ConvertRounds(r, Total(amounts));
    var c, q, d := TotalConverted(r, amounts), ConvertValue(r, Total(amounts)), r.den;
    SplitBound(c, q, Total(amounts) * r.num, d, |amounts|);
  }

  lemma SplitBound(c: int, q: int, x: int, d: int, k: nat)
    requires d > 0 && Rounded(x, d, q) && 2 * Abs(c * d - x) <= k * d
    ensures 2 * Abs(c - q) <= k + 1
  {
    TriangleStep(c * d, q * d, x, d, k * d);
    assert (c - q) * d == c * d - q * d;
    FewHalves(c - q, d, k);
  }

  lemma FewHalves(z: int, d: int, k: nat)
    requires d > 0 && 2 * Abs(z * d) <= k * d + d
    ensures 2 * Abs(z) <= k + 1
  {
    AbsProduct(z, d);
    var y := 2 * Abs(z);
    assert y * d == 2 * Abs(z * d);
    if y > k + 1 {
      MulMono(k + 2, y, d);
    }
  }

  lemma TriangleStep(cd: int, qd: int, x: int, d: int, kd: int)
    requires -d <= 2 * (qd - x) <= d && 2 * Abs(cd - x) <= kd
    ensures 2 * Abs(cd - qd) <= kd + d
  {}
}
