/** Machine integers, the option and result types, and the bit helpers shared by the
    peripheral models. Rust's unsigned widths are subset types of `int`; a value that the
    source computes with wrap-around (its release build) is reduced explicitly. */
module Bits {

  const U8_LIMIT: int := 0x100
  const U16_LIMIT: int := 0x1_0000
  const U32_LIMIT: int := 0x1_0000_0000
  const U64_LIMIT: int := 0x1_0000_0000_0000_0000

  type u8 = x: int | 0 <= x < 0x100
  type u16 = x: int | 0 <= x < 0x1_0000
  type u32 = x: int | 0 <= x < 0x1_0000_0000
  type u64 = x: int | 0 <= x < 0x1_0000_0000_0000_0000

  datatype Option<T> = None | Some(value: T)

  datatype Result<T, E> = Ok(value: T) | Err(error: E)

  /** `nb::Result`: a value, or "not ready yet". */
  datatype NbResult<T> = Ready(value: T) | WouldBlock

  /** `x as u8`, and u8 arithmetic that wraps. */
  function Wrap8(x: int): (r: u8)
    ensures 0 <= x < U8_LIMIT ==> r == x
    ensures (r - x) % U8_LIMIT == 0
  {
    x % U8_LIMIT
  }

  /** `x as u16`, and u16 arithmetic that wraps. */
  function Wrap16(x: int): (r: u16)
    ensures 0 <= x < U16_LIMIT ==> r == x
    ensures (r - x) % U16_LIMIT == 0
  {
    x % U16_LIMIT
  }

  /** `x as u32`, and u32 arithmetic that wraps. */
  function Wrap32(x: int): (r: u32)
    ensures 0 <= x < U32_LIMIT ==> r == x
    ensures (r - x) % U32_LIMIT == 0
  {
    x % U32_LIMIT
  }

  /** `x as u64`, and u64 arithmetic that wraps. */
  function Wrap64(x: int): (r: u64)
    ensures 0 <= x < U64_LIMIT ==> r == x
    ensures (r - x) % U64_LIMIT == 0
  {
    x % U64_LIMIT
  }

  /** Adding a multiple of 2^32 does not change the wrapped value. */
  lemma WrapShift32(a: int, z: int)
    ensures Wrap32(a + z * U32_LIMIT) == Wrap32(a)
  {
  }

  /** Adding a multiple of 2^64 does not change the wrapped value. */
  lemma WrapShift64(a: int, z: int)
    ensures Wrap64(a + z * U64_LIMIT) == Wrap64(a)
  {
  }

  /** `(q * m + r) * y == r * y + (q * y) * m`. */
  lemma Distribute(q: int, m: int, r: int, y: int)
    ensures (q * m + r) * y == r * y + (q * y) * m
  {
    calc {
      (q * m + r) * y;
    ==
      q * m * y + r * y;
    ==
      r * y + (q * y) * m;
    }
  }

  /** Reducing modulo 2^32 before a further multiplication does not change the wrapped
      product. */
  lemma WrapMul32(x: int, y: int)
    ensures Wrap32(Wrap32(x) * y) == Wrap32(x * y)
  {
    var q, r := x / U32_LIMIT, x % U32_LIMIT;
    assert x == q * U32_LIMIT + r;
    Distribute(q, U32_LIMIT, r, y);
    WrapShift32(r * y, q * y);
  }

  /** Reducing modulo 2^64 before a further multiplication does not change the wrapped
      product. */
  lemma WrapMul64(x: int, y: int)
    ensures Wrap64(Wrap64(x) * y) == Wrap64(x * y)
  {
    var q, r := x / U64_LIMIT, x % U64_LIMIT;
    assert x == q * U64_LIMIT + r;
    Distribute(q, U64_LIMIT, r, y);
    WrapShift64(r * y, q * y);
  }

  /** Multiplying by a factor of at least 1 does not decrease a natural number. */
  lemma MulGrows(a: int, k: int)
    requires a >= 0 && k >= 1
    ensures a <= a * k
  {
    assert a * k == a + a * (k - 1);
  }

  /** Multiplication by a natural number is monotone. */
  lemma MulMonotone(a: int, b: int, c: int)
    requires a <= b && c >= 0
    ensures a * c <= b * c
  {
    assert b * c == a * c + (b - a) * c;
  }

  /** The quotient times the divisor does not exceed the dividend. */
  lemma DivTimesLe(a: int, d: int)
    requires a >= 0 && d > 0
    ensures 0 <= (a / d) * d <= a
  {
  }

  /** Dividing a natural number by a positive divisor does not increase it. */
  lemma DivLe(a: int, d: int)
    requires a >= 0 && d >= 1
    ensures 0 <= a / d <= a
  {
    DivTimesLe(a, d);
    MulGrows(a / d, d);
  }

  /** The quotient is the floor of the exact ratio. */
  lemma DivFloor(a: int, d: int)
    requires a >= 0 && d > 0
    ensures (a / d) * d <= a < (a / d + 1) * d
  {
    assert (a / d + 1) * d == (a / d) * d + d;
  }

  /** Dividing by a larger divisor does not give a larger quotient. */
  lemma DivAntitone(a: int, d1: int, d2: int)
    requires a >= 0 && 1 <= d1 <= d2
    ensures a / d2 <= a / d1
  {
    var q := a / d2;
    DivTimesLe(a, d2);
    MulMonotone(d1, d2, q);
    assert q * d1 <= a;
    DivFloor(a, d1);
    if q > a / d1 {
      MulMonotone(a / d1 + 1, q, d1);
    }
  }

  /** A positive multiple of `e` is at least `e`. */
  lemma MulAtLeast(k: int, e: int)
    requires k >= 1 && e > 0
    ensures k * e >= e
  {
    assert k * e == e + (k - 1) * e;
    assert (k - 1) * e >= 0;
  }

  /** Quotient and remainder are the only ones with `x == q * e + r` and `0 <= r < e`. */
  lemma DivUnique(x: int, e: int, q: int, r: int)
    requires e > 0 && x == q * e + r && 0 <= r < e
    ensures x / e == q && x % e == r
  {
    var q', r' := x / e, x % e;
    assert x == q' * e + r';
    if q' > q {
      assert (q' - q) * e == q' * e - q * e;
      MulAtLeast(q' - q, e);
    } else if q' < q {
      assert (q - q') * e == q * e - q' * e;
      MulAtLeast(q - q', e);
    }
  }

  /** `a * b * c == a * c * b`. */
  lemma Associate(a: int, b: int, c: int)
    ensures a * b * c == (a * c) * b
  {
  }

  /** Reducing modulo 2^32 before an addition does not change the wrapped sum. */
  lemma WrapAdd32(x: int, y: int)
    ensures Wrap32(Wrap32(x) + y) == Wrap32(x + y)
  {
  }

  /** Reducing modulo 2^64 before an addition does not change the wrapped sum. */
  lemma WrapAdd64(x: int, y: int)
    ensures Wrap64(Wrap64(x) + y) == Wrap64(x + y)
  {
  }

  /** The low word of a u64, `v as u32`. */
  function Lo32(v: u64): u32
  {
    v % U32_LIMIT
  }

  /** The high word of a u64, `(v >> 32) as u32`. */
  function Hi32(v: u64): u32
  {
    v / U32_LIMIT
  }

  /** `(hi as u64) << 32 | lo as u64`. */
  function Join64(hi: u32, lo: u32): (r: u64)
  {
    hi * U32_LIMIT + lo
  }

  /** Splitting a u64 into words and joining them are inverse, in both directions. */
  lemma SplitJoin(v: u64, hi: u32, lo: u32)
    ensures Join64(Hi32(v), Lo32(v)) == v
    ensures Hi32(Join64(hi, lo)) == hi && Lo32(Join64(hi, lo)) == lo
  {
    DivUnique(Join64(hi, lo), U32_LIMIT, hi, lo);
  }

  /** 2 to the power `k`. */
  function Pow2(k: nat): (r: int)
    ensures r >= 1
  {
    if k == 0 then 1 else 2 * Pow2(k - 1)
  }

  /** `a | b` on naturals, bit by bit from the least significant. */
  function Or(a: nat, b: nat): nat
    decreases a
  {
    if a == 0 then b
    else if b == 0 then a
    else 2 * Or(a / 2, b / 2) + (if a % 2 == 1 || b % 2 == 1 then 1 else 0)
  }

  /** The or of two `m`-bit numbers has `m` bits. */
  lemma {:induction false} OrBelow(a: nat, b: nat, m: nat)
    requires a < Pow2(m) && b < Pow2(m)
    ensures Or(a, b) < Pow2(m)
  {
    if a != 0 && b != 0 {
      assert m > 0;
      OrBelow(a / 2, b / 2, m - 1);
    }
  }

  /** A quotient is zero exactly when the dividend is below the divisor. */
  lemma DivZero(a: int, d: int)
    requires a >= 0 && d > 0
    ensures a / d == 0 <==> a < d
  {
    if a < d {
      DivUnique(a, d, 0, a);
    } else {
      DivFloor(a, d);
      if a / d == 0 {
        assert false;
      }
    }
  }

  /** A dividend below `b` times the divisor has a quotient below `b`. */
  lemma DivBelow(x: int, d: int, b: int)
    requires x >= 0 && d > 0
    ensures x < b * d ==> x / d < b
  {
    DivFloor(x, d);
    if x < b * d && x / d >= b {
      MulMonotone(b, x / d, d);
    }
  }

  /** `x as u32` truncates: it never increases a natural number. */
  lemma Wrap32Le(x: int)
    requires x >= 0
    ensures Wrap32(x) <= x
  {
    if x >= U32_LIMIT {
      DivFloor(x, U32_LIMIT);
      DivUnique(x, U32_LIMIT, x / U32_LIMIT, x % U32_LIMIT);
    }
  }

  /** Scaling by `f / d` with a floor and back by `d / f` with a floor never gives more
      than the start. */
  lemma ScaleRoundTrip(p: int, f: int, d: int)
    requires p >= 0 && f > 0 && d > 0
    ensures ((p * f) / d * d) / f <= p
  {
    MulMonotone(0, p, f);
    var q := (p * f) / d;
    DivTimesLe(p * f, d);
    var r := (q * d) / f;
    DivFloor(q * d, f);
    assert (p + 1) * f == p * f + f;
    if r > p {
      MulMonotone(p + 1, r, f);
    }
  }

  /** Division by a positive number is monotone. */
  lemma DivMonotone(a: int, b: int, d: int)
    requires 0 <= a <= b && d > 0
    ensures a / d <= b / d
  {
    DivTimesLe(a, d);
    DivFloor(b, d);
    if a / d > b / d {
      MulMonotone(b / d + 1, a / d, d);
    }
  }
}
