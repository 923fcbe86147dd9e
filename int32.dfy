/** 32-bit signed integers as the Kotlin `Int` and the Rust `i32` of the source use them. */
module Int32 {
  import opened Wrappers

  const MIN: int := -0x8000_0000
  const MAX: int := 0x7fff_ffff
  const MODULUS: int := 0x1_0000_0000

  type Int32 = x: int | MIN <= x <= MAX

  /** Two's-complement wrap-around, the result of every Kotlin `Int` operation. */
  function Wrap(x: int): (r: Int32)
    ensures MIN <= x <= MAX ==> r == x
    ensures (r - x) % MODULUS == 0
  {
    (x - MIN) % MODULUS + MIN
  }

  /** Division truncating toward zero, as Kotlin's and Rust's `/` do. */
  function TruncDiv(a: int, b: int): (q: int)
    requires b != 0
    ensures (a >= 0) == (b > 0) || a == 0 ==> q >= 0
    ensures 0 <= a < b || -b < a <= 0 || 0 <= a < -b || b < a <= 0 ==> q == 0
  {
    var n := (if a < 0 then -a else a) / (if b < 0 then -b else b);
    if (a < 0) == (b < 0) then n else -n
  }

  /** The remainder that goes with `TruncDiv`: it has the sign of the dividend. */
  function TruncRem(a: int, b: int): (r: int)
    requires b != 0
    ensures a == b * TruncDiv(a, b) + r
    ensures a >= 0 ==> 0 <= r < (if b < 0 then -b else b)
    ensures a < 0 ==> -(if b < 0 then -b else b) < r <= 0
  {
    a - b * TruncDiv(a, b)
  }

  /** Kotlin `Int` arithmetic: every result wraps. */
  function KotlinAdd(a: Int32, b: Int32): Int32 { Wrap(a + b) }
  function KotlinSub(a: Int32, b: Int32): Int32 { Wrap(a - b) }
  function KotlinMul(a: Int32, b: Int32): Int32 { Wrap(a * b) }

  /** Kotlin `/` and `%` throw `ArithmeticException` on a zero divisor; `MIN / -1` wraps to `MIN`. */
  function KotlinDiv(a: Int32, b: Int32): (r: Result<Int32>)
    ensures r.Err? <==> b == 0
    ensures r.Ok? && !(a == MIN && b == -1) ==> r.value == TruncDiv(a, b)
    ensures a == MIN && b == -1 ==> r == Ok(MIN)
  {
    if b == 0 then Err("/ by zero")
    else
      TruncDivInRange(a, b);
      Ok(Wrap(TruncDiv(a, b)))
  }

  /** Only `MIN / -1` leaves the 32-bit range. */
  lemma TruncDivInRange(a: Int32, b: Int32)
    requires b != 0
    ensures !(a == MIN && b == -1) ==> MIN <= TruncDiv(a, b) <= MAX
  {
    var x: nat := if a < 0 then -(a as int) else a as int;
    var y: nat := if b < 0 then -(b as int) else b as int;
    var n := x / y;
    assert TruncDiv(a, b) == if (a < 0) == (b < 0) then n else -n;
    QuotientBound(x, y);
    if a == MIN && !(b == -1) {
      if y == 1 {
        assert b == 1 && n == x;
      } else {
        assert 2 * n <= x;
      }
    }
  }

  lemma QuotientBound(x: nat, y: nat)
    requires y >= 1
    ensures x / y <= x
    ensures y >= 2 ==> 2 * (x / y) <= x
  {
    var q := x / y;
    assert y * q <= x;
    ScaleUp(1, y, q);
    if y >= 2 {
      ScaleUp(2, y, q);
    }
  }

  lemma {:induction false} ScaleUp(a: nat, b: nat, c: nat)
    requires a <= b
    ensures a * c <= b * c
    decreases c
  {
    if c > 0 {
      ScaleUp(a, b, c - 1);
      assert a * c == a * (c - 1) + a;
      assert b * c == b * (c - 1) + b;
    }
  }

  function KotlinRem(a: Int32, b: Int32): (r: Result<Int32>)
    ensures r.Err? <==> b == 0
    ensures r.Ok? ==> r.value == TruncRem(a, b)
  {
    if b == 0 then Err("/ by zero") else Ok(Wrap(TruncRem(a, b)))
  }

  /** Rust `i32` arithmetic in a debug build: an overflow panics instead of wrapping. */
  function Checked(x: int): (r: Result<Int32>)
    ensures r.Ok? <==> MIN <= x <= MAX
    ensures r.Ok? ==> r.value == x
  {
    if MIN <= x <= MAX then Ok(x) else Err("attempt to compute with overflow")
  }

  /** A debug build panics exactly where Kotlin's wrap-around would change the value, and
      otherwise computes what Kotlin does. */
  lemma CheckedOrWraps(x: int)
    ensures Checked(x).Ok? <==> Wrap(x) == x
    ensures Checked(x).Ok? ==> Checked(x).value == Wrap(x)
  {
  }

  /** Wrapping negation undoes itself, `MIN` included (it is its own negation). */
  lemma WrapNegateTwice(v: Int32)
    ensures Wrap(-(Wrap(-(v as int)) as int)) == v
  {
    var w := Wrap(-(v as int));
    var u := Wrap(-(w as int));
    assert (w + v) % MODULUS == 0 by { assert w - -(v as int) == w + v; }
    assert (u + w) % MODULUS == 0 by { assert u - -(w as int) == u + w; }
    var k1, k2 := (u + w) / MODULUS, (w + v) / MODULUS;
    assert u + w == k1 * MODULUS;
    assert w + v == k2 * MODULUS;
    assert u - v == (k1 - k2) * MODULUS;
    assert -MODULUS < u - v < MODULUS;
  }

  /** Rust `/` and `%` panic on a zero divisor and on `MIN / -1`, in every build. */
  function RustDiv(a: Int32, b: Int32): (r: Result<Int32>)
    ensures r.Ok? <==> b != 0 && !(a == MIN && b == -1)
    ensures r.Ok? ==> r.value == TruncDiv(a, b)
  {
    if b == 0 then Err("attempt to divide by zero")
    else if a == MIN && b == -1 then Err("attempt to divide with overflow")
    else Checked(TruncDiv(a, b))
  }

  function RustRem(a: Int32, b: Int32): (r: Result<Int32>)
    ensures r.Ok? <==> b != 0 && !(a == MIN && b == -1)
    ensures r.Ok? ==> r.value == TruncRem(a, b)
  {
    if b == 0 then Err("attempt to calculate the remainder with a divisor of zero")
    else if a == MIN && b == -1 then Err("attempt to calculate the remainder with overflow")
    else Checked(TruncRem(a, b))
  }

  /** Where Rust's checked arithmetic succeeds, Kotlin's wrapping arithmetic agrees with it. */
  lemma KotlinAgreesWithRustDiv(a: Int32, b: Int32)
    requires RustDiv(a, b).Ok?
    ensures KotlinDiv(a, b) == RustDiv(a, b)
  {
  }

  lemma KotlinAgreesWithRustRem(a: Int32, b: Int32)
    requires RustRem(a, b).Ok?
    ensures KotlinRem(a, b) == RustRem(a, b)
  {
  }

  /** Wrapping after every addition equals wrapping once at the end, so a running Kotlin sum
      is the true sum wrapped. */
  lemma WrapAdd(a: int, b: int)
    ensures Wrap(Wrap(a) + b) == Wrap(a + b)
  {
    var x, y := Wrap(Wrap(a) + b), Wrap(a + b);
    assert (x - y) % MODULUS == 0 by {
      assert (x - (Wrap(a) + b)) % MODULUS == 0;
      assert (Wrap(a) - a) % MODULUS == 0;
      assert (y - (a + b)) % MODULUS == 0;
      ModSum(x - (Wrap(a) + b), Wrap(a) - a, -(y - (a + b)));
    }
    assert -MODULUS < x - y < MODULUS;
  }

  lemma ModSum(p: int, q: int, r: int)
    requires p % MODULUS == 0 && q % MODULUS == 0 && r % MODULUS == 0
    ensures (p + q + r) % MODULUS == 0
  {
    assert p == (p / MODULUS) * MODULUS;
    assert q == (q / MODULUS) * MODULUS;
    assert r == (r / MODULUS) * MODULUS;
    assert p + q + r == (p / MODULUS + q / MODULUS + r / MODULUS) * MODULUS;
  }
}
