/** Decimal amounts (internal/money/money.go). Strings are sequences of code points. */
module Money {
  import opened Wrappers
  import opened Int64

  type Currency = string

  datatype MoneyError = UnknownCurrency | BadAmount

  const CURRENCY_DECIMALS: map<Currency, nat> :=
    map["USD" := 2, "EUR" := 2, "GBP" := 2, "CAD" := 2, "AUD" := 2]

  predicate IsSupported(c: Currency) { c in CURRENCY_DECIMALS }

  /** The most decimals whose scale is an int64: 10^18 < 2^63 <= 10^19. */
  const MAX_DECIMALS: nat := 18

  function Pow10(n: nat): nat {
    if n == 0 then 1 else 10 * Pow10(n - 1)
  }

  lemma {:induction false} Pow10Positive(n: nat)
    ensures Pow10(n) >= 1
  {
    if n != 0 { Pow10Positive(n - 1); }
  }

  lemma {:induction false} Pow10Sum(m: nat, n: nat)
    ensures Pow10(m + n) == Pow10(m) * Pow10(n)
  {
    if m != 0 {
      Pow10Sum(m - 1, n);
      assert 10 * (Pow10(m - 1) * Pow10(n)) == 10 * Pow10(m - 1) * Pow10(n);
    }
  }

  lemma {:induction false} Pow10Monotone(m: nat, n: nat)
    requires m <= n
    ensures Pow10(m) <= Pow10(n)
  {
    if m < n { Pow10Monotone(m, n - 1); }
  }

  lemma Pow10Fits(d: nat)
    requires d <= MAX_DECIMALS
    ensures 1 <= Pow10(d) <= MAX
  {
    Pow10Positive(d);
    Pow10Monotone(d, 18);
    assert Pow10(3) == 1000;
    Pow10Sum(3, 3);
    Pow10Sum(6, 6);
    Pow10Sum(12, 6);
  }

  /** The scale loop, wrapping at every multiplication. */
  method Scale(d: nat) returns (s: Minor)
    ensures s == Wrap(Pow10(d))
    ensures d <= MAX_DECIMALS ==> s == Pow10(d)
  {
    s := 1;
    for i := 0 to d
      invariant s == Wrap(Pow10(i))
    {
      WrapMul(Pow10(i), 10);
      s := Wrap(s * 10);
    }
    if d <= MAX_DECIMALS { Pow10Fits(d); }
  }

  // ---------- strings ----------

  /** unicode.IsSpace. */
  predicate IsSpace(c: char) {
    '\t' <= c <= '\r' || c == ' ' || c == 0x85 as char || c == 0xA0 as char || c == 0x1680 as char
    || 0x2000 as char <= c <= 0x200a as char || c == 0x2028 as char || c == 0x2029 as char
    || c == 0x202f as char || c == 0x205f as char || c == 0x3000 as char
  }

  function TrimLeft(s: string): string {
    if s != "" && IsSpace(s[0]) then TrimLeft(s[1..]) else s
  }

  function TrimRight(s: string): string {
    if s != "" && IsSpace(s[|s| - 1]) then TrimRight(s[..|s| - 1]) else s
  }

  /** strings.TrimSpace. */
  function Trim(s: string): string { TrimRight(TrimLeft(s)) }

  predicate IsDigit(c: char) { '0' <= c <= '9' }

  predicate AllDigits(s: string) { forall i | 0 <= i < |s| :: IsDigit(s[i]) }

  function DigitValue(c: char): nat
    requires IsDigit(c)
  {
    c as int - '0' as int
  }

  /** Positional value of a digit string. */
  function Value(s: string): nat
    requires AllDigits(s)
  {
    if s == "" then 0 else 10 * Value(s[..|s| - 1]) + DigitValue(s[|s| - 1])
  }

  /** strings.Cut at the first '.'. */
  function Cut(s: string): (r: (string, string, bool))
    ensures !r.2 ==> r.1 == ""
  {
    if s == "" then ("", "", false)
    else if s[0] == '.' then ("", s[1..], true)
    else var (a, b, found) := Cut(s[1..]); ([s[0]] + a, b, found)
  }

  function Zeros(n: nat): string {
    if n == 0 then "" else Zeros(n - 1) + "0"
  }

  // ---------- parsing ----------

  function ParseBody(d: nat, neg: bool, body: string): Result<Minor, MoneyError> {
    var (ip, fp, dot) := Cut(body);
    if ip == "" && fp == "" then Err(BadAmount)
    else if dot && |fp| > d then Err(BadAmount)
    else if !AllDigits(ip) || !AllDigits(fp) then Err(BadAmount)
    else
      PaddedDigits(fp, d - |fp|);
      Ok(Total(neg, Value(ip), Wrap(Pow10(d)), Value(fp + Zeros(d - |fp|))))
  }

  /** The exact amount whole*scale + frac with its sign, narrowed to 64 bits. */
  function Total(neg: bool, whole: int, sc: int, frac: int): Minor {
    Wrap(Signed(neg, whole * sc + frac))
  }

  function Signed(neg: bool, x: int): int { if neg then 0 - x else x }

  /** What ParseMajor returns for a currency with d decimals. */
  function ParseValue(d: nat, s: string): Result<Minor, MoneyError> {
    var t := Trim(s);
    if t == "" then Err(BadAmount)
    else if t[0] == '-' then ParseBody(d, true, t[1..])
    else if t[0] == '+' then ParseBody(d, false, t[1..])
    else ParseBody(d, false, t)
  }

  method ParseMajor(c: Currency, s: string) returns (r: Result<Minor, MoneyError>)
    ensures !IsSupported(c) ==> r == Err(UnknownCurrency)
    ensures IsSupported(c) ==> r == ParseValue(CURRENCY_DECIMALS[c], s)
  {
    if !IsSupported(c) {
      return Err(UnknownCurrency);
    }
    r := ParseDecimal(CURRENCY_DECIMALS[c], s);
  }

  /** The digit loop shared by the whole and the fractional part. */
  method ParseDigits(s: string) returns (r: Result<Minor, MoneyError>)
    ensures r == if AllDigits(s) then Ok(Wrap(Value(s))) else Err(BadAmount)
  {
    var acc: Minor := 0;
    for i := 0 to |s|
      invariant AllDigits(s[..i]) && acc == Wrap(Value(s[..i]))
    {
      if !IsDigit(s[i]) {
        return Err(BadAmount);
      }
      assert s[..i + 1][..i] == s[..i];
      WrapMul(Value(s[..i]), 10);
      WrapAdd(Value(s[..i]) * 10, DigitValue(s[i]));
      WrapAdd(acc * 10, DigitValue(s[i]));
      acc := Wrap(acc * 10 + DigitValue(s[i]));
    }
    assert s[..|s|] == s;
    return Ok(acc);
  }

  lemma {:induction false} PaddedDigits(fp: string, n: nat)
    ensures AllDigits(fp + Zeros(n)) == AllDigits(fp)
  {
    if n == 0 {
      assert fp + Zeros(0) == fp;
    } else {
      PaddedDigits(fp, n - 1);
      var t := fp + Zeros(n);
      assert t[..|t| - 1] == fp + Zeros(n - 1) && t[|t| - 1] == '0';
      assert forall i | 0 <= i < |t| - 1 :: t[i] == t[..|t| - 1][i];
    }
  }

  lemma {:induction false} PaddedValue(fp: string, n: nat)
    requires AllDigits(fp) && AllDigits(fp + Zeros(n))
    ensures Value(fp + Zeros(n)) == Value(fp) * Pow10(n)
  {
    if n == 0 {
      assert fp + Zeros(0) == fp;
    } else {
      PaddedDigits(fp, n - 1);
      PaddedValue(fp, n - 1);
      var t := fp + Zeros(n);
      assert t[..|t| - 1] == fp + Zeros(n - 1) && t[|t| - 1] == '0';
      assert Value(t) == 10 * (Value(fp) * Pow10(n - 1));
    }
  }

  lemma {:induction false} ZerosLength(n: nat)
    ensures |Zeros(n)| == n
  {
    if n != 0 { ZerosLength(n - 1); }
  }

  method ParseDecimal(d: nat, input: string) returns (r: Result<Minor, MoneyError>)
    ensures r == ParseValue(d, input)
  {
    var s := Trim(input);
    if s == "" {
      return Err(BadAmount);
    }
    var neg := false;
    if s[0] == '-' {
      neg := true;
      s := s[1..];
    } else if s[0] == '+' {
      s := s[1..];
    }
    r := ParseUnsigned(d, neg, s);
  }

  method ParseUnsigned(d: nat, neg: bool, s: string) returns (r: Result<Minor, MoneyError>)
    ensures r == ParseBody(d, neg, s)
  {
    var (intPart, fracPart, hasFrac) := Cut(s);
    if intPart == "" && fracPart == "" {
      return Err(BadAmount);
    }
    if hasFrac && |fracPart| > d {
      return Err(BadAmount);
    }
    PaddedDigits(fracPart, d - |fracPart|);
    var padded := PadRight(fracPart, d);
    var whole :- ParseDigits(intPart);
    var frac :- ParseDigits(padded);
    var sc := Scale(d);
    var total := Combine(neg, whole, sc, frac, Value(intPart), Value(padded));
    return Ok(total);
  }

  method Combine(neg: bool, whole: Minor, sc: Minor, frac: Minor, ghost w: int, ghost f: int)
    returns (total: Minor)
    requires whole == Wrap(w) && frac == Wrap(f)
    ensures total == Total(neg, w, sc, f)
  {
    var t: int := Wrap(whole * sc + frac);
    if neg {
      t := Wrap(0 - t);
    }
    TotalValue(w, sc, f, neg);
    total := t;
  }

  /** Right-pads the fraction to exactly d digits. */
  method PadRight(s: string, d: nat) returns (r: string)
    requires |s| <= d
    ensures r == s + Zeros(d - |s|)
  {
    r := s;
    ZerosLength(d - |s|);
    while |r| < d
      invariant |s| <= |r| <= d
      invariant r == s + Zeros(|r| - |s|)
    {
      ghost var k := |r| - |s|;
      assert s + Zeros(k) + "0" == s + Zeros(k + 1);
      r := r + "0";
    }
  }

  lemma TotalValue(whole: int, sc: int, frac: int, neg: bool)
    ensures var total := Wrap(Wrap(whole) * sc + Wrap(frac));
            Total(neg, whole, sc, frac) == if neg then Wrap(0 - total) else total
  {
    WrapMul(whole, sc);
    WrapAdd(Wrap(whole) * sc, frac);
    WrapAdd(Wrap(whole) * sc, Wrap(frac));
    WrapAdd(whole * sc, frac);
    WrapNeg(whole * sc + frac);
  }

  lemma {:induction false} CutNoDot(s: string)
    ensures var (a, b, dot) := Cut(s);
            && s == a + (if dot then "." + b else "")
            && (forall i | 0 <= i < |a| :: a[i] != '.')
  {
    if s != "" && s[0] != '.' {
      CutNoDot(s[1..]);
    }
  }

  // ---------- the accepted language ----------

  /** [sign] digits* [. digits*] */
  datatype Decimal = Decimal(sign: string, whole: string, dot: bool, frac: string) {
    predicate WellFormed(d: nat) {
      && sign in {"", "+", "-"}
      && AllDigits(whole) && AllDigits(frac)
      && whole + frac != ""
      && (!dot ==> frac == "")
      && |frac| <= d
    }

    /** d digits after the point, a point only before digits, and no superfluous leading zero. */
    predicate Canonical(d: nat) {
      |frac| == d && (dot <==> d != 0) && whole != "" && (|whole| == 1 || whole[0] != '0')
    }

    function Body(): string { whole + (if dot then "." + frac else "") }

    function Text(): string { sign + Body() }

    /** The amount in minor units the text denotes, as an exact integer. */
    function Denoted(d: nat): int
      requires WellFormed(d)
    {
      Signed(sign == "-", Value(whole) * Pow10(d) + Value(frac) * Pow10(d - |frac|))
    }
  }

  lemma {:induction false} CutBody(a: string, b: string)
    requires forall i | 0 <= i < |a| :: a[i] != '.'
    ensures Cut(a) == (a, "", false)
    ensures Cut(a + "." + b) == (a, b, true)
  {
    var t := a + "." + b;
    if a == "" {
      assert t[1..] == b;
    } else {
      CutBody(a[1..], b);
      assert t[0] == a[0] && t[1..] == a[1..] + "." + b;
      assert [a[0]] + a[1..] == a;
    }
  }

  lemma CutDecimal(t: Decimal)
    requires AllDigits(t.whole) && (!t.dot ==> t.frac == "")
    ensures Cut(t.Body()) == (t.whole, t.frac, t.dot)
  {
    forall i | 0 <= i < |t.whole| ensures t.whole[i] != '.' {
      assert IsDigit(t.whole[i]);
    }
    CutBody(t.whole, t.frac);
    assert t.Body() == if t.dot then t.whole + "." + t.frac else t.whole;
  }

  lemma BodyAccepted(d: nat, neg: bool, t: Decimal)
    requires d <= MAX_DECIMALS && t.WellFormed(d)
    ensures ParseBody(d, neg, t.Body())
         == Ok(Total(neg, Value(t.whole), Pow10(d), Value(t.frac) * Pow10(d - |t.frac|)))
  {
    CutDecimal(t);
    PaddedDigits(t.frac, d - |t.frac|);
    PaddedValue(t.frac, d - |t.frac|);
    assert Wrap(Pow10(d)) == Pow10(d) by { Pow10Fits(d); }
  }

  lemma DenotedTotal(d: nat, t: Decimal)
    requires t.WellFormed(d)
    ensures Total(t.sign == "-", Value(t.whole), Pow10(d), Value(t.frac) * Pow10(d - |t.frac|)) == Wrap(t.Denoted(d))
  {}

  /** A well-formed text is parsed to its value, which is exact if and only if the value is
      an int64. */
  lemma ParseExact(d: nat, s: string, t: Decimal)
    requires d <= MAX_DECIMALS && t.WellFormed(d) && t.Text() == Trim(s)
    ensures ParseValue(d, s) == Ok(Wrap(t.Denoted(d)))
    ensures ParseValue(d, s) == Ok(t.Denoted(d)) <==> InRange(t.Denoted(d))
  {
    SignSplit(d, s, t);
    BodyAccepted(d, t.sign == "-", t);
    DenotedTotal(d, t);
    WrapExact(t.Denoted(d));
  }

  lemma SignSplit(d: nat, s: string, t: Decimal)
    requires t.WellFormed(d) && t.Text() == Trim(s)
    ensures ParseValue(d, s) == ParseBody(d, t.sign == "-", t.Body())
  {
    var x := Trim(s);
    var body := t.Body();
    assert body != "" && body[0] != '-' && body[0] != '+' by {
      if t.whole != "" { assert body[0] == t.whole[0] && IsDigit(t.whole[0]); }
    }
    if t.sign == "" {
      assert x == body;
    } else {
      assert x[0] == t.sign[0] && x[1..] == body;
    }
  }

  lemma BodyRejected(d: nat, neg: bool, body: string) returns (t: Decimal)
    requires ParseBody(d, neg, body).Ok?
    ensures t.sign == "" && t.WellFormed(d) && t.Body() == body
  {
    var (a, b, dot) := Cut(body);
    CutNoDot(body);
    t := Decimal("", a, dot, b);
  }

  /** ParseMajor accepts exactly the texts of the grammar. */
  lemma ParseAccepts(d: nat, s: string)
    requires d <= MAX_DECIMALS
    ensures ParseValue(d, s).Ok? <==> exists t: Decimal :: t.WellFormed(d) && t.Text() == Trim(s)
  {
    forall t: Decimal | t.WellFormed(d) && t.Text() == Trim(s) ensures ParseValue(d, s).Ok? {
      ParseExact(d, s, t);
    }
    if ParseValue(d, s).Ok? {
      var x := Trim(s);
      var signed := x[0] == '-' || x[0] == '+';
      var body := if signed then x[1..] else x;
      var t := BodyRejected(d, x[0] == '-', body);
      var u := t.(sign := if signed then [x[0]] else "");
      assert x == u.sign + body && u.Body() == t.Body();
      assert u.WellFormed(d) && u.Text() == x;
    }
  }

  // ---------- formatting ----------

  function Digit(n: nat): (c: char)
    requires n < 10
    ensures IsDigit(c) && DigitValue(c) == n
  {
    ('0' as int + n) as char
  }

  /** %d of a non-negative number. */
  function Decimals(n: nat): string {
    if n < 10 then [Digit(n)] else Decimals(n / 10) + [Digit(n % 10)]
  }

  /** %d */
  function Plain(v: int): string {
    if v < 0 then "-" + Decimals(0 - v) else Decimals(v)
  }

  /** %0*d: zero-padded to a width that includes a minus sign. */
  function Padded(width: nat, v: int): string {
    if v < 0 then "-" + LeftPad(width - 1, Decimals(0 - v)) else LeftPad(width, Decimals(v))
  }

  function LeftPad(width: int, s: string): string {
    if |s| < width then Zeros(width - |s|) + s else s
  }

  /** Go's / and % truncate toward zero. */
  function TruncDiv(n: int, d: int): int
    requires d > 0
  {
    if n >= 0 then n / d else 0 - (0 - n) / d
  }

  function TruncMod(n: int, d: int): int
    requires d > 0
  {
    if n >= 0 then n % d else 0 - (0 - n) % d
  }

  function FormatParts(d: nat, sign: string, whole: int, frac: int): string {
    sign + Plain(whole) + (if d == 0 then "" else "." + Padded(d, frac))
  }

  function FormatScaled(d: nat, sc: int, m: Minor): string
    requires sc > 0
  {
    var v := if m < 0 then Wrap(0 - m) else m;
    FormatParts(d, if m < 0 then "-" else "", TruncDiv(v, sc), TruncMod(v, sc))
  }

  function FormatValue(d: nat, m: Minor): string
    requires d <= MAX_DECIMALS
  {
    Pow10Positive(d);
    FormatScaled(d, Pow10(d), m)
  }

  method FormatMajor(c: Currency, m: Minor) returns (r: Result<string, MoneyError>)
    ensures !IsSupported(c) ==> r == Err(UnknownCurrency)
    ensures IsSupported(c) ==> CURRENCY_DECIMALS[c] <= MAX_DECIMALS && r == Ok(FormatValue(CURRENCY_DECIMALS[c], m))
  {
    if !IsSupported(c) {
      return Err(UnknownCurrency);
    }
    var text := FormatDecimal(CURRENCY_DECIMALS[c], m);
    return Ok(text);
  }

  method FormatDecimal(d: nat, m: Minor) returns (text: string)
    requires d <= MAX_DECIMALS
    ensures text == FormatValue(d, m)
  {
    var sc := Scale(d);
    Pow10Fits(d);
    var v: int := m;
    var sign := "";
    if v < 0 {
      sign := "-";
      v := Wrap(0 - v);
    }
    var whole := TruncDiv(v, sc);
    var frac := TruncMod(v, sc);
    if d == 0 {
      return sign + Plain(whole) + "";
    }
    return sign + Plain(whole) + ("." + Padded(d, frac));
  }

  lemma {:induction false} DecimalsValue(n: nat)
    ensures Decimals(n) != "" && AllDigits(Decimals(n)) && Value(Decimals(n)) == n
  {
    if n < 10 {
      assert Decimals(n)[..0] == "";
    } else {
      DecimalsValue(n / 10);
      var s := Decimals(n);
      assert s[..|s| - 1] == Decimals(n / 10);
    }
  }

  /** No leading zero. */
  lemma {:induction false} DecimalsCanonical(n: nat)
    ensures |Decimals(n)| >= 1 && (n > 0 ==> Decimals(n)[0] != '0') && (n < 10 ==> |Decimals(n)| == 1)
  {
    if n >= 10 { DecimalsCanonical(n / 10); }
  }

  lemma {:induction false} DecimalsLength(n: nat, d: nat)
    requires n < Pow10(d) && d >= 1
    ensures |Decimals(n)| <= d
  {
    assert Pow10(1) == 10;
    if n >= 10 {
      DecimalsLength(n / 10, d - 1);
    }
  }

  lemma {:induction false} ZerosDigits(n: nat)
    ensures AllDigits(Zeros(n)) && Value(Zeros(n)) == 0
  {
    if n != 0 {
      ZerosDigits(n - 1);
      assert Zeros(n)[..|Zeros(n)| - 1] == Zeros(n - 1);
    }
  }

  lemma {:induction false} ZerosValue(n: nat, s: string)
    requires AllDigits(s)
    ensures AllDigits(Zeros(n) + s) && Value(Zeros(n) + s) == Value(s)
  {
    ZerosDigits(n);
    var t := Zeros(n) + s;
    if s == "" {
      assert t == Zeros(n);
    } else {
      ZerosValue(n, s[..|s| - 1]);
      assert t[..|t| - 1] == Zeros(n) + s[..|s| - 1];
    }
  }

  lemma {:induction false} TrimNone(s: string)
    requires s != "" && !IsSpace(s[0]) && !IsSpace(s[|s| - 1])
    ensures Trim(s) == s
  {}

  /** The text FormatMajor produces for every amount but the minimum int64: the canonical one
      that denotes it. */
  lemma FormatText(d: nat, m: Minor) returns (t: Decimal)
    requires d <= MAX_DECIMALS && m != MIN
    ensures t.WellFormed(d) && t.Text() == FormatValue(d, m) == Trim(FormatValue(d, m))
    ensures t.Denoted(d) == m && t.Canonical(d) && t.sign == if m < 0 then "-" else ""
  {
    Pow10Positive(d);
    t := ScaledText(d, Pow10(d), m);
  }

  lemma ScaledParts(d: nat, sc: int, m: Minor, v: nat)
    requires m != MIN && sc >= 1 && v == if m < 0 then 0 - m else m
    ensures FormatScaled(d, sc, m) == FormatParts(d, if m < 0 then "-" else "", TruncDiv(v, sc), TruncMod(v, sc))
  {}

  lemma ScaledText(d: nat, sc: int, m: Minor) returns (t: Decimal)
    requires d <= MAX_DECIMALS && m != MIN && sc == Pow10(d) >= 1
    ensures t.WellFormed(d) && t.Text() == FormatScaled(d, sc, m) == Trim(FormatScaled(d, sc, m))
    ensures t.Denoted(d) == m && t.Canonical(d) && t.sign == if m < 0 then "-" else ""
  {
    var v: nat := if m < 0 then 0 - m else m;
    SplitBounds(v, sc);
    ScaledParts(d, sc, m, v);
    var whole, frac := TruncDiv(v, sc), TruncMod(v, sc);
    t := PartsText(d, if m < 0 then "-" else "", whole, frac);
    DenotedParts(d, sc, t, whole, frac, v);
  }

  lemma PartsText(d: nat, sign: string, whole: nat, frac: nat) returns (t: Decimal)
    requires sign in {"", "-"} && frac < Pow10(d)
    ensures t.WellFormed(d) && |t.frac| == d && Value(t.whole) == whole && Value(t.frac) == frac
    ensures t.sign == sign && t.Text() == FormatParts(d, sign, whole, frac) == Trim(t.Text()) && t.Canonical(d)
  {
    DecimalsValue(whole);
    DecimalsCanonical(whole);
    var fs := PaddedFraction(d, frac);
    t := Decimal(sign, Decimals(whole), d != 0, fs);
    TextShape(t);
    EdgesNotSpace(t);
  }

  lemma TextShape(t: Decimal)
    ensures t.Text() == t.sign + t.whole + (if t.dot then "." + t.frac else "")
  {}

  lemma DenotedParts(d: nat, sc: int, t: Decimal, whole: nat, frac: nat, v: int)
    requires t.WellFormed(d) && |t.frac| == d && Value(t.whole) == whole && Value(t.frac) == frac
    requires v >= 0 && sc == Pow10(d) >= 1 && whole == TruncDiv(v, sc) && frac == TruncMod(v, sc)
    ensures t.Denoted(d) == Signed(t.sign == "-", v)
  {
    assert Pow10(d - |t.frac|) == 1;
    SplitValue(v, sc);
    assert Value(t.frac) * Pow10(d - |t.frac|) == frac;
  }

  lemma SplitValue(v: nat, sc: int)
    requires sc >= 1
    ensures TruncDiv(v, sc) * sc + TruncMod(v, sc) == v
  {}

  lemma SplitBounds(v: nat, sc: int)
    requires sc >= 1
    ensures TruncDiv(v, sc) >= 0 && 0 <= TruncMod(v, sc) < sc
  {}

  lemma PaddedFraction(d: nat, frac: nat) returns (fs: string)
    requires frac < Pow10(d)
    ensures |fs| == d && AllDigits(fs) && Value(fs) == frac
    ensures fs == if d == 0 then "" else Padded(d, frac)
  {
    if d == 0 {
      fs := "";
    } else {
      fs := LeftPad(d, Decimals(frac));
      DecimalsValue(frac);
      DecimalsLength(frac, d);
      ZerosLength(d - |Decimals(frac)|);
      ZerosValue(d - |Decimals(frac)|, Decimals(frac));
    }
  }

  lemma EdgesNotSpace(t: Decimal)
    requires t.sign in {"", "-"} && t.whole != "" && AllDigits(t.whole) && AllDigits(t.frac)
    requires t.dot <==> t.frac != ""
    ensures Trim(t.Text()) == t.Text()
  {
    var text := t.Text();
    assert text[0] == if t.sign == "-" then '-' else t.whole[0];
    assert text[|text| - 1] == if t.dot then t.frac[|t.frac| - 1] else t.whole[|t.whole| - 1];
    TrimNone(text);
  }

  /** The minimum int64 is printed with two minus signs. */
  lemma MinimumUnparsable(d: nat)
    requires d <= MAX_DECIMALS
    ensures ParseValue(d, FormatValue(d, MIN)).Err?
  {
    SameIntro(0 - MIN, MIN, 1);
    WrapUnique(0 - MIN, MIN);
    Pow10Fits(d);
    WholeNegative(Pow10(d));
    var whole, frac := TruncDiv(MIN, Pow10(d)), TruncMod(MIN, Pow10(d));
    assert FormatValue(d, MIN) == FormatParts(d, "-", whole, frac);
    TwoSigns(d, whole, frac);
  }

  lemma TwoSigns(d: nat, whole: int, frac: int)
    requires whole < 0
    ensures ParseValue(d, FormatParts(d, "-", whole, frac)).Err?
  {
    var text := FormatParts(d, "-", whole, frac);
    assert text[0] == '-' && text[1] == '-';
    TrimKeepsHead(text, 2);
    var x := Trim(text);
    assert x[0] == x[..2][0] && x[1] == x[..2][1];
    assert x[1..][0] == '-';
    if ParseBody(d, true, x[1..]).Ok? {
      var t := BodyRejected(d, true, x[1..]);
    }
  }

  lemma WholeNegative(sc: int)
    requires 1 <= sc <= MAX
    ensures TruncDiv(MIN, sc) < 0
  {}

  lemma {:induction false} TrimKeepsHead(s: string, n: nat)
    requires 0 < n <= |s| && forall i | 0 <= i < n :: !IsSpace(s[i])
    ensures |Trim(s)| >= n && Trim(s)[..n] == s[..n]
  {
    assert TrimLeft(s) == s;
    TrimRightKeepsHead(s, n);
  }

  lemma {:induction false} TrimRightKeepsHead(s: string, n: nat)
    requires 0 < n <= |s| && forall i | 0 <= i < n :: !IsSpace(s[i])
    ensures |TrimRight(s)| >= n && TrimRight(s)[..n] == s[..n]
  {
    if IsSpace(s[|s| - 1]) {
      TrimRightKeepsHead(s[..|s| - 1], n);
      assert s[..|s| - 1][..n] == s[..n];
    }
  }

  /** Parsing undoes formatting for every amount except the minimum int64. */
  lemma FormatParseRoundTrip(d: nat, m: Minor)
    requires d <= MAX_DECIMALS
    ensures ParseValue(d, FormatValue(d, m)) == Ok(m) <==> m != MIN
  {
    if m == MIN {
      MinimumUnparsable(d);
    } else {
      var t := FormatText(d, m);
      ParseExact(d, FormatValue(d, m), t);
    }
  }

  /** Printing what was parsed and parsing it again gives the same amount, for every accepted
      text in range that does not denote the minimum int64. */
  lemma Reparse(d: nat, s: string, t: Decimal)
    requires d <= MAX_DECIMALS && t.WellFormed(d) && t.Text() == Trim(s) && InRange(t.Denoted(d))
    ensures ParseValue(d, FormatValue(d, t.Denoted(d))) == ParseValue(d, s) <==> t.Denoted(d) != MIN
  {
    ParseExact(d, s, t);
    FormatParseRoundTrip(d, t.Denoted(d));
  }

  // ---------- white space ----------

  predicate AllSpace(s: string) { forall i | 0 <= i < |s| :: IsSpace(s[i]) }

  /** No white space at either end. */
  predicate Bare(s: string) { s != "" ==> !IsSpace(s[0]) && !IsSpace(s[|s| - 1]) }

  /** Of the ASCII characters, exactly tab, line feed, vertical tab, form feed, carriage return
      and space are white space. */
  lemma AsciiSpaces(c: char)
    requires c < 0x80 as char
    ensures IsSpace(c) <==> c as int in {9, 10, 11, 12, 13, 32}
  {}

  lemma {:induction false} TrimLeftSkips(a: string, s: string)
    requires AllSpace(a)
    ensures TrimLeft(a + s) == TrimLeft(s)
  {
    if a == "" {
      assert a + s == s;
    } else {
      assert (a + s)[1..] == a[1..] + s;
      TrimLeftSkips(a[1..], s);
    }
  }

  lemma {:induction false} TrimRightSkips(s: string, b: string)
    requires AllSpace(b)
    ensures TrimRight(s + b) == TrimRight(s)
  {
    if b == "" {
      assert s + b == s;
    } else {
      var t := s + b;
      assert t[..|t| - 1] == s + b[..|b| - 1];
      TrimRightSkips(s, b[..|b| - 1]);
    }
  }

  /** Trimming removes all white space around a text and nothing of the text. */
  lemma TrimSurrounded(a: string, t: string, b: string)
    requires AllSpace(a) && AllSpace(b) && Bare(t)
    ensures Trim(a + t + b) == t
  {
    assert a + t + b == a + (t + b);
    TrimLeftSkips(a, t + b);
    if t == "" {
      assert t + b == b + "";
      TrimLeftSkips(b, "");
    } else {
      assert TrimLeft(t + b) == t + b;
      TrimRightSkips(t, b);
    }
  }

  lemma BareKept(t: string)
    requires Bare(t)
    ensures Trim(t) == t
  {
    TrimSurrounded("", t, "");
    assert "" + t + "" == t;
  }

  /** White space around an amount does not change what it parses to. */
  lemma SpaceIgnored(d: nat, a: string, t: string, b: string)
    requires AllSpace(a) && AllSpace(b) && Bare(t)
    ensures ParseValue(d, a + t + b) == ParseValue(d, t)
  {
    TrimSurrounded(a, t, b);
    BareKept(t);
  }

  // ---------- the grammar, written out ----------

  lemma DenotesParsed(d: nat, s: string, t: Decimal, v: int)
    requires d <= MAX_DECIMALS && t.WellFormed(d) && t.Text() == Trim(s) && t.Denoted(d) == v
    ensures ParseValue(d, s) == Ok(Wrap(v))
  {
    ParseExact(d, s, t);
  }

  /** A sign or none, digits, and at most d digits after an optional point. */
  lemma AmountParsed(d: nat, sign: string, w: string, dot: bool, f: string, x: int)
    requires d <= MAX_DECIMALS && sign in {"", "+", "-"} && AllDigits(w) && AllDigits(f) && w + f != ""
    requires |f| <= d && (!dot ==> f == "") && Bare(sign + w + (if dot then "." + f else ""))
    requires x == Value(w) * Pow10(d) + Value(f) * Pow10(d - |f|)
    ensures ParseValue(d, sign + w + (if dot then "." + f else "")) == Ok(Wrap(if sign == "-" then 0 - x else x))
  {
    var t := Decimal(sign, w, dot, f);
    TextShape(t);
    BareKept(t.Text());
    TextDenotes(d, t, x, if sign == "-" then 0 - x else x);
    DenotesParsed(d, t.Text(), t, if sign == "-" then 0 - x else x);
  }

  lemma TextDenotes(d: nat, t: Decimal, x: int, v: int)
    requires t.WellFormed(d) && x == Value(t.whole) * Pow10(d) + Value(t.frac) * Pow10(d - |t.frac|)
    requires v == if t.sign == "-" then 0 - x else x
    ensures t.Denoted(d) == v
  {}

  /** Nothing else is an amount. */
  lemma OnlyAmounts(d: nat, s: string) returns (sign: string, w: string, dot: bool, f: string)
    requires d <= MAX_DECIMALS && ParseValue(d, s).Ok?
    ensures sign in {"", "+", "-"} && AllDigits(w) && AllDigits(f) && w + f != "" && |f| <= d && (!dot ==> f == "")
    ensures Trim(s) == sign + w + (if dot then "." + f else "")
  {
    ParseAccepts(d, s);
    var t: Decimal :| t.WellFormed(d) && t.Text() == Trim(s);
    TextShape(t);
    sign, w, dot, f := t.sign, t.whole, t.dot, t.frac;
  }

  // ---------- currencies ----------

  /** The five currencies, all with two decimals. */
  lemma FiveCurrencies(c: Currency)
    ensures IsSupported(c) <==> c in {"USD", "EUR", "GBP", "CAD", "AUD"}
    ensures IsSupported(c) ==> CURRENCY_DECIMALS[c] == 2
  {}

  lemma CentsValue(d: nat, w: int, f: int, v: int)
    requires d == 2 && v == 100 * w + f
    ensures v == w * Pow10(d) + f * Pow10(0)
  {
    assert Pow10(d) == 10 * Pow10(d - 1) && Pow10(d - 1) == 10 * Pow10(d - 2);
  }

  lemma CentsParsed(d: nat, w: string, f: string, v: int)
    requires d == 2 && w != "" && AllDigits(w) && |f| == d && AllDigits(f)
    requires v == Value(w) * Pow10(d) + Value(f) * Pow10(0)
    ensures ParseValue(d, w + "." + f) == Ok(Wrap(v))
  {
    CentsText(w, f);
    assert d - |f| == 0;
    AmountParsed(d, "", w, true, f, v);
  }

  lemma CentsText(w: string, f: string)
    requires w != "" && AllDigits(w) && |f| == 2 && AllDigits(f)
    ensures "" + w + ("." + f) == w + "." + f && Bare("" + w + ("." + f)) && w + f != ""
  {
    var s := "" + w + ("." + f);
    assert s == w + "." + f && s[0] == w[0] && s[|s| - 1] == f[1] && (w + f)[0] == w[0];
    DigitNoSpace(w[0]);
    DigitNoSpace(f[1]);
  }

  lemma DigitNoSpace(c: char)
    requires IsDigit(c)
    ensures !IsSpace(c)
  {}

  lemma CentsAmount(d: nat, w: string, f: string, whole: int, frac: int, v: int)
    requires d == 2 && w != "" && AllDigits(w) && |f| == d && AllDigits(f)
    requires whole == Value(w) && frac == Value(f) && v == 100 * whole + frac
    ensures ParseValue(d, w + "." + f) == Ok(Wrap(v))
  {
    CentsValue(d, whole, frac, v);
    CentsParsed(d, w, f, v);
  }

  /** In each of them the last two digits are hundredths: w.ff is 100 * w + ff. */
  lemma HundredthsParsed(c: Currency, d: nat, w: string, f: string, v: int)
    requires c in {"USD", "EUR", "GBP", "CAD", "AUD"} && d == CURRENCY_DECIMALS[c]
    requires w != "" && AllDigits(w) && |f| == 2 && AllDigits(f) && v == 100 * Value(w) + Value(f)
    ensures ParseValue(d, w + "." + f) == Ok(Wrap(v))
  {
    FiveCurrencies(c);
    CentsAmount(d, w, f, Value(w), Value(f), v);
  }

  lemma TwoDigits(s: string)
    requires |s| == 2 && AllDigits(s)
    ensures Value(s) == 10 * DigitValue(s[0]) + DigitValue(s[1])
  {
    var h := s[..|s| - 1];
    assert h[..|h| - 1] == "" && h[|h| - 1] == s[0];
    assert Value(h) == DigitValue(s[0]);
  }

  /** "12.34" is 1234. */
  lemma TwelveThirtyFour(c: Currency, d: nat, w: string, f: string)
    requires c in {"USD", "EUR", "GBP", "CAD", "AUD"} && d == CURRENCY_DECIMALS[c] && w == "12" && f == "34"
    ensures ParseValue(d, w + "." + f) == Ok(1234)
  {
    TwoDigits(w);
    TwoDigits(f);
    HundredthsParsed(c, d, w, f, 1234);
  }
}
