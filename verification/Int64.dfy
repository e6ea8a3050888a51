/** Two's-complement 64-bit arithmetic: every int64 operation of the program is an exact
    operation followed by `Wrap`. */
module Int64 {
  const TWO64: int := 0x1_0000_0000_0000_0000
  const MAX: int := 0x7fff_ffff_ffff_ffff
  const MIN: int := -0x8000_0000_0000_0000

  predicate InRange(x: int) { MIN <= x <= MAX }

  /** An int64 value; also the type of money amounts (minor units). */
  type Minor = x: int | MIN <= x <= MAX

  function Wrap(x: int): (r: Minor)
    ensures InRange(x) ==> r == x
  {
    (x - MIN) % TWO64 + MIN
  }

  /** Congruence modulo 2^64. */
  ghost predicate Same(x: int, y: int) { exists k: int :: x == y + k * TWO64 }

  lemma SameIntro(x: int, y: int, k: int)
    requires x == y + k * TWO64
    ensures Same(x, y)
  {}

  lemma WrapSame(x: int)
    ensures Same(x, Wrap(x)) && Same(Wrap(x), x)
  {
    var k := (x - MIN) / TWO64;
    SameIntro(x, Wrap(x), k);
    SameIntro(Wrap(x), x, -k);
  }

  lemma SameWrap(x: int, y: int)
    requires Same(x, y)
    ensures Wrap(x) == Wrap(y)
  {
    var k :| x == y + k * TWO64;
    var q := (y - MIN) / TWO64;
    var r := (y - MIN) % TWO64;
    assert x - MIN == (q + k) * TWO64 + r;
    assert 0 <= r < TWO64;
  }

  /** Wrapping is the only representative in range. */
  lemma WrapUnique(x: int, y: int)
    requires Same(x, y) && InRange(y)
    ensures Wrap(x) == y
  {
    SameWrap(x, y);
  }

  /** Wrapping at every step of a computation equals wrapping once at its end. */
  lemma WrapAdd(a: int, b: int)
    ensures Wrap(Wrap(a) + b) == Wrap(a + b)
    ensures Wrap(a + Wrap(b)) == Wrap(a + b)
    ensures Wrap(Wrap(a) + Wrap(b)) == Wrap(a + b)
  {
    WrapSame(a);
    WrapSame(b);
    var j :| a == Wrap(a) + j * TWO64;
    var k :| b == Wrap(b) + k * TWO64;
    SameIntro(Wrap(a) + b, a + b, -j);
    SameIntro(a + Wrap(b), a + b, -k);
    SameIntro(Wrap(a) + Wrap(b), a + b, -j - k);
    SameWrap(Wrap(a) + b, a + b);
    SameWrap(a + Wrap(b), a + b);
    SameWrap(Wrap(a) + Wrap(b), a + b);
  }

  lemma WrapMul(a: int, m: int)
    ensures Wrap(Wrap(a) * m) == Wrap(a * m)
  {
    WrapSame(a);
    var j :| a == Wrap(a) + j * TWO64;
    assert a * m == Wrap(a) * m + (j * m) * TWO64;
    SameIntro(Wrap(a) * m, a * m, -(j * m));
    SameWrap(Wrap(a) * m, a * m);
  }

  lemma WrapNeg(a: int)
    ensures Wrap(0 - Wrap(a)) == Wrap(0 - a)
  {
    WrapMul(a, -1);
  }

  /** A value wraps onto itself exactly when it is an int64, and onto 0 exactly when it is
      a multiple of 2^64. */
  lemma WrapExact(x: int)
    ensures Wrap(x) == x <==> InRange(x)
    ensures Wrap(x) == 0 <==> x % TWO64 == 0
  {
    WrapSame(x);
    if Wrap(x) == 0 {
      var k :| x == 0 + k * TWO64;
    }
    if x % TWO64 == 0 {
      SameIntro(x, 0, x / TWO64);
      WrapUnique(x, 0);
    }
  }
}
