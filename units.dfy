/** Time, frequency and tick quantities (the `define!`, `define_u64!`, `convert!`,
    `multiply!` and `divide!` macros of src/units.rs). Every generated newtype is one
    `Quantity` tagged by its `Unit` and by its width: `U32` for the `ValueType` family
    (`Hertz`, `Ticks`, ...) and `U64` for the `LargeValueType` twins (`HertzU64`, ...).
    Arithmetic that overflows wraps, as a release build does; a division by zero panics in
    the source and is excluded by a precondition here. */
module Units {
  import opened Bits

  datatype Unit =
    | Hertz | KiloHertz | MegaHertz
    | NanoSeconds | MicroSeconds | MilliSeconds | Seconds
    | Ticks

  /** `ValueType` (u32) or `LargeValueType` (u64). */
  datatype Width = U32 | U64

  datatype Quantity = Quantity(unit: Unit, width: Width, value: int)

  predicate IsFrequency(u: Unit) { u == Hertz || u == KiloHertz || u == MegaHertz }

  predicate IsTime(u: Unit)
  {
    u == NanoSeconds || u == MicroSeconds || u == MilliSeconds || u == Seconds
  }

  function Limit(w: Width): int
  {
    if w == U32 then U32_LIMIT else U64_LIMIT
  }

  /** The primitive of width `w` holds the value. */
  predicate Valid(q: Quantity)
  {
    0 <= q.value < Limit(q.width)
  }

  /** Arithmetic in the primitive type of width `w`. */
  function Wrap(w: Width, x: int): (r: int)
    ensures 0 <= r < Limit(w)
    ensures 0 <= x < Limit(w) ==> r == x
  {
    if w == U32 then Wrap32(x) else Wrap64(x)
  }

  /** `Quantity::from(x)` and the extension methods `x.Hz()`, `x.ms()`, ... */
  function FromPrimitive(u: Unit, w: Width, x: int): (r: Quantity)
    requires 0 <= x < Limit(w)
    ensures Valid(r) && r.unit == u && r.width == w
  {
    Quantity(u, w, x)
  }

  /** `primitive::from(q)`. */
  function ToPrimitive(q: Quantity): (r: int)
    requires Valid(q)
    ensures 0 <= r < Limit(q.width)
  {
    q.value
  }

  /** Wrapping and unwrapping are inverse in both directions. */
  lemma WrapUnwrap(u: Unit, w: Width, x: int, q: Quantity)
    requires 0 <= x < Limit(w) && Valid(q)
    ensures ToPrimitive(FromPrimitive(u, w, x)) == x
    ensures FromPrimitive(q.unit, q.width, ToPrimitive(q)) == q
  {
  }

  /** `Q(a) / b`. */
  function DivPrimitive(q: Quantity, b: int): (r: Quantity)
    requires Valid(q) && 0 < b < Limit(q.width)
    ensures Valid(r) && r.unit == q.unit && r.width == q.width
    ensures r.value * b <= q.value < (r.value + 1) * b
  {
    Quantity(q.unit, q.width, q.value / b)
  }

  /** `Q(a) * b`, wrapping in the primitive type. */
  function MulPrimitive(q: Quantity, b: int): (r: Quantity)
    requires Valid(q) && 0 <= b < Limit(q.width)
    ensures Valid(r) && r.unit == q.unit && r.width == q.width
    ensures q.value * b < Limit(q.width) ==> r.value == q.value * b
  {
    Quantity(q.unit, q.width, Wrap(q.width, q.value * b))
  }

  /** `b * Q(a)`, wrapping in the primitive type. */
  function PrimitiveMul(b: int, q: Quantity): (r: Quantity)
    requires Valid(q) && 0 <= b < Limit(q.width)
    ensures Valid(r) && r.unit == q.unit && r.width == q.width
    ensures b * q.value < Limit(q.width) ==> r.value == b * q.value
  {
    Quantity(q.unit, q.width, Wrap(q.width, b * q.value))
  }

  /** Multiplying by a primitive commutes. */
  lemma MulCommutes(q: Quantity, b: int)
    requires Valid(q) && 0 <= b < Limit(q.width)
    ensures PrimitiveMul(b, q) == MulPrimitive(q, b)
  {
  }

  /** `Q(a) / Q(b)`: a primitive. */
  function DivQuantity(a: Quantity, b: Quantity): (r: int)
    requires Valid(a) && Valid(b) && a.unit == b.unit && a.width == b.width && b.value > 0
    ensures 0 <= r < Limit(a.width)
    ensures r * b.value <= a.value < (r + 1) * b.value
  {
    a.value / b.value
  }

  /** `Q(a) + Q(b)`, wrapping. */
  function Add(a: Quantity, b: Quantity): (r: Quantity)
    requires Valid(a) && Valid(b) && a.unit == b.unit && a.width == b.width
    ensures Valid(r) && r.unit == a.unit && r.width == a.width
    ensures a.value + b.value < Limit(a.width) ==> r.value == a.value + b.value
  {
    Quantity(a.unit, a.width, Wrap(a.width, a.value + b.value))
  }

  /** `Q(a) - Q(b)`, wrapping. */
  function Sub(a: Quantity, b: Quantity): (r: Quantity)
    requires Valid(a) && Valid(b) && a.unit == b.unit && a.width == b.width
    ensures Valid(r) && r.unit == a.unit && r.width == a.width
    ensures b.value <= a.value ==> r.value == a.value - b.value
  {
    Quantity(a.unit, a.width, Wrap(a.width, a.value - b.value))
  }

  /** Subtraction undoes addition, with or without wrap-around. */
  lemma AddThenSub(a: Quantity, b: Quantity)
    requires Valid(a) && Valid(b) && a.unit == b.unit && a.width == b.width
    ensures Sub(Add(a, b), b) == a
  {
    if a.width == U32 {
      WrapAdd32(a.value + b.value, -b.value);
    } else {
      WrapAdd64(a.value + b.value, -b.value);
    }
  }

  /** `From<Q> for QU64`. */
  function Widen(q: Quantity): (r: Quantity)
    requires Valid(q) && q.width == U32
    ensures Valid(r) && r.width == U64 && r.unit == q.unit && r.value == q.value
  {
    Quantity(q.unit, U64, q.value)
  }

  /** `TryFrom<QU64> for Q`: fails exactly when the value exceeds u32::MAX. */
  function Narrow(q: Quantity): (r: Option<Quantity>)
    requires Valid(q) && q.width == U64
    ensures r.Some? <==> q.value < U32_LIMIT
    ensures r.Some? ==>
      (Valid(r.value) && r.value.width == U32 && r.value.unit == q.unit
       && r.value.value == q.value)
  {
    if q.value < U32_LIMIT then Some(Quantity(q.unit, U32, q.value)) else None
  }

  /** Widening is lossless and narrowing undoes it; a successful narrowing widens back. */
  lemma WidenNarrow(q: Quantity, p: Quantity)
    requires Valid(q) && q.width == U32
    requires Valid(p) && p.width == U64
    ensures Narrow(Widen(q)) == Some(q)
    ensures Narrow(p).Some? ==> Widen(Narrow(p).value) == p
  {
  }

  /** The scale factor of each `convert!` instance; None where the source has no
      conversion. */
  function ConvertFactor(from: Unit, into: Unit): (r: Option<int>)
    ensures r.Some? ==> 0 < r.value <= 1_000_000_000
  {
    match (from, into)
    case (KiloHertz, Hertz) => Some(1000)
    case (MegaHertz, Hertz) => Some(1_000_000)
    case (MegaHertz, KiloHertz) => Some(1000)
    case (Seconds, MilliSeconds) => Some(1000)
    case (Seconds, MicroSeconds) => Some(1_000_000)
    case (Seconds, NanoSeconds) => Some(1_000_000_000)
    case (MilliSeconds, MicroSeconds) => Some(1000)
    case (MilliSeconds, NanoSeconds) => Some(1_000_000)
    case (MicroSeconds, NanoSeconds) => Some(1000)
    case _ => None
  }

  /** Every conversion goes from a coarser unit of one dimension to a finer one. */
  lemma ConvertKeepsDimension(from: Unit, into: Unit)
    requires ConvertFactor(from, into).Some?
    ensures IsFrequency(from) <==> IsFrequency(into)
    ensures IsTime(from) <==> IsTime(into)
    ensures from != Ticks && into != Ticks && from != into
  {
  }

  /** `From<From> for Into`, `From<From> for IntoU64` and `From<FromU64> for IntoU64`:
      the value times the factor, in the width of the target. */
  function Convert(q: Quantity, into: Unit, w: Width): (r: Quantity)
    requires Valid(q) && ConvertFactor(q.unit, into).Some?
    requires q.width == U64 ==> w == U64
    ensures Valid(r) && r.unit == into && r.width == w
    ensures q.value * ConvertFactor(q.unit, into).value < Limit(w)
      ==> r.value == q.value * ConvertFactor(q.unit, into).value
  {
    Quantity(into, w, Wrap(w, q.value * ConvertFactor(q.unit, into).value))
  }

  /** A u32 quantity converted into a U64 unit is scaled exactly: it is cast to u64 first,
      and no factor can then overflow. */
  lemma ConvertToU64IsExact(q: Quantity, into: Unit)
    requires Valid(q) && q.width == U32 && ConvertFactor(q.unit, into).Some?
    ensures Convert(q, into, U64).value == q.value * ConvertFactor(q.unit, into).value
  {
    var f := ConvertFactor(q.unit, into).value;
    assert q.value * f <= (U32_LIMIT - 1) * 1_000_000_000;
  }

  /** Two conversions in a row agree with the direct conversion, wrap-around included
      (MHz to kHz to Hz is MHz to Hz; s to ms to us is s to us; ...). */
  lemma ConvertChain(q: Quantity, mid: Unit, into: Unit, w: Width)
    requires Valid(q) && (q.width == U64 ==> w == U64)
    requires ConvertFactor(q.unit, mid).Some? && ConvertFactor(mid, into).Some?
    ensures ConvertFactor(q.unit, into).Some?
    ensures Convert(Convert(q, mid, w), into, w) == Convert(q, into, w)
  {
    var f1 := ConvertFactor(q.unit, mid).value;
    var f2 := ConvertFactor(mid, into).value;
    assert ConvertFactor(q.unit, into) == Some(f1 * f2);
    assert q.value * f1 * f2 == q.value * (f1 * f2);
    if w == U32 {
      WrapMul32(q.value * f1, f2);
    } else {
      WrapMul64(q.value * f1, f2);
    }
  }

  /** `(factor, divider)` of each `multiply!` instance: ticks = time * freq * factor /
      divider. */
  function MulParams(time: Unit, freq: Unit): (r: (int, int))
    requires IsTime(time) && IsFrequency(freq)
    ensures r.0 > 0 && r.1 > 0
  {
    match (time, freq)
    case (Seconds, Hertz) => (1, 1)
    case (Seconds, KiloHertz) => (1_000, 1)
    case (Seconds, MegaHertz) => (1_000_000, 1)
    case (MilliSeconds, Hertz) => (1, 1_000)
    case (MilliSeconds, KiloHertz) => (1, 1)
    case (MilliSeconds, MegaHertz) => (1_000, 1)
    case (MicroSeconds, Hertz) => (1, 1_000_000)
    case (MicroSeconds, KiloHertz) => (1, 1_000)
    case (MicroSeconds, MegaHertz) => (1, 1)
    case (NanoSeconds, Hertz) => (1, 1_000_000_000)
    case (NanoSeconds, KiloHertz) => (1, 1_000_000)
    case (NanoSeconds, MegaHertz) => (1, 1_000)
  }

  /** Nanoseconds in one unit of time. */
  function NanosPer(u: Unit): (r: int)
    requires IsTime(u)
    ensures r >= 1 && 1_000_000_000 % r == 0
  {
    match u
    case NanoSeconds => 1
    case MicroSeconds => 1_000
    case MilliSeconds => 1_000_000
    case Seconds => 1_000_000_000
  }

  /** Hertz in one unit of frequency. */
  function HertzPer(u: Unit): (r: int)
    requires IsFrequency(u)
    ensures r >= 1 && 1_000_000 % r == 0
  {
    match u
    case Hertz => 1
    case KiloHertz => 1_000
    case MegaHertz => 1_000_000
  }

  /** Each `multiply!` instance scales by the true ratio of its units: factor / divider
      equals (nanoseconds per time unit) * (hertz per frequency unit) / 10^9. */
  lemma MulParamsAreUnitRatios(time: Unit, freq: Unit)
    requires IsTime(time) && IsFrequency(freq)
    ensures MulParams(time, freq).0 * 1_000_000_000
      == MulParams(time, freq).1 * NanosPer(time) * HertzPer(freq)
  {
  }

  /** The conversion factors agree with the unit sizes. */
  lemma ConvertFactorIsUnitRatio(from: Unit, into: Unit)
    requires ConvertFactor(from, into).Some?
    ensures IsTime(from) ==> NanosPer(from) == ConvertFactor(from, into).value * NanosPer(into)
    ensures IsFrequency(from)
      ==> HertzPer(from) == ConvertFactor(from, into).value * HertzPer(into)
  {
  }

  /** `time * freq` with both in u32: computed in u64 and then truncated with `as u32`. With
      either operand in u64 the product is a `TicksU64` computed in u64. */
  function TimeTimesFreq(t: Quantity, f: Quantity): (r: Quantity)
    requires Valid(t) && Valid(f) && IsTime(t.unit) && IsFrequency(f.unit)
    ensures Valid(r) && r.unit == Ticks
    ensures r.width == (if t.width == U32 && f.width == U32 then U32 else U64)
  {
    var (factor, divider) := MulParams(t.unit, f.unit);
    var wide := Wrap64(Wrap64(t.value * f.value) * factor) / divider;
    if t.width == U32 && f.width == U32 then Quantity(Ticks, U32, Wrap32(wide))
    else Quantity(Ticks, U64, wide)
  }

  /** `freq * time`: with both in u32 the whole product is computed, and wraps, in u32;
      otherwise as for `time * freq`. */
  function FreqTimesTime(f: Quantity, t: Quantity): (r: Quantity)
    requires Valid(t) && Valid(f) && IsTime(t.unit) && IsFrequency(f.unit)
    ensures Valid(r) && r.unit == Ticks
    ensures r.width == (if t.width == U32 && f.width == U32 then U32 else U64)
  {
    var (factor, divider) := MulParams(t.unit, f.unit);
    if t.width == U32 && f.width == U32 then
      Quantity(Ticks, U32, Wrap32(Wrap32(f.value * t.value) * factor) / divider)
    else
      Quantity(Ticks, U64, Wrap64(Wrap64(f.value * t.value) * factor) / divider)
  }

  /** Both orders give `t * f * factor / divider` ticks when nothing overflows: for the u32
      forms, when the scaled product fits u32; for the u64 forms, when it fits u64. */
  lemma MultiplyExact(t: Quantity, f: Quantity)
    requires Valid(t) && Valid(f) && IsTime(t.unit) && IsFrequency(f.unit)
    requires t.value * f.value * MulParams(t.unit, f.unit).0
      < Limit(if t.width == U32 && f.width == U32 then U32 else U64)
    ensures TimeTimesFreq(t, f).value
      == t.value * f.value * MulParams(t.unit, f.unit).0 / MulParams(t.unit, f.unit).1
    ensures FreqTimesTime(f, t) == TimeTimesFreq(t, f)
  {
    var (factor, divider) := MulParams(t.unit, f.unit);
    var tf := t.value * f.value;
    MulMonotone(0, t.value, f.value);
    MulGrows(tf, factor);
    var p := tf * factor;
    assert f.value * t.value == tf;
    DivLe(p, divider);
    assert Wrap64(tf) == tf;
    assert Wrap64(tf * factor) == p;
  }

  /** For example `MilliSeconds(t) * Hertz(f) == Ticks(t * f / 1000)` when `t * f` fits
      u32. */
  lemma MillisTimesHertz(t: int, f: int)
    requires 0 <= t < U32_LIMIT && 0 <= f < U32_LIMIT && t * f < U32_LIMIT
    ensures TimeTimesFreq(Quantity(MilliSeconds, U32, t), Quantity(Hertz, U32, f))
      == Quantity(Ticks, U32, t * f / 1000)
  {
    MultiplyExact(Quantity(MilliSeconds, U32, t), Quantity(Hertz, U32, f));
  }

  /** The factor of each `divide!` instance as written (its divider is 1). */
  function DivFactor(freq: Unit): (r: int)
    requires IsFrequency(freq)
    ensures r == 1_000_000_000 / HertzPer(freq)
  {
    match freq
    case Hertz => 1_000_000_000
    case KiloHertz => 1_000_000
    case MegaHertz => 1_000
  }

  /** `Ticks(n) / freq` as written: `n * 1 / f / factor` nanoseconds, in u64 unless both
      operands are u32. */
  function TicksDivFreqAsWritten(n: Quantity, f: Quantity): (r: Quantity)
    requires Valid(n) && Valid(f) && n.unit == Ticks && IsFrequency(f.unit) && f.value > 0
    ensures Valid(r) && r.unit == NanoSeconds
    ensures r.width == (if n.width == U32 && f.width == U32 then U32 else U64)
    ensures r.value * f.value * DivFactor(f.unit) <= n.value
  {
    var w := if n.width == U32 && f.width == U32 then U32 else U64;
    var x := n.value * 1 / f.value;
    DivTimesLe(n.value, f.value);
    var d := DivFactor(f.unit);
    var y := x / d;
    DivTimesLe(x, d);
    MulMonotone(y * d, x, f.value);
    Associate(y, f.value, d);
    Quantity(NanoSeconds, w, y)
  }

  /** As written, one second's worth of ticks at 80 MHz comes out as 0 ns, not 10^9 ns. */
  lemma TicksDivFreqAsWrittenLosesTime()
    ensures TicksDivFreqAsWritten(Quantity(Ticks, U32, 80_000_000), Quantity(Hertz, U32, 80_000_000))
      == Quantity(NanoSeconds, U32, 0)
  {
  }

  /** `Ticks(n) / freq` as intended: `n * 10^9 / f_Hz` nanoseconds, the factor being
      applied to the tick count and not to the quotient, computed in u64. */
  function TicksDivFreq(n: Quantity, f: Quantity): (r: Quantity)
    requires Valid(n) && Valid(f) && n.unit == Ticks && IsFrequency(f.unit) && f.value > 0
    requires n.value * DivFactor(f.unit) < U64_LIMIT
    ensures Valid(r) && r.unit == NanoSeconds && r.width == U64
    ensures r.value * f.value <= n.value * DivFactor(f.unit) < (r.value + 1) * f.value
  {
    Quantity(NanoSeconds, U64, n.value * DivFactor(f.unit) / f.value)
  }

  /** The corrected division inverts multiplication: turning the nanoseconds back into ticks
      at the same frequency gives at most the ticks started from, and, up to 1 GHz, loses
      less than one tick. */
  lemma TicksDivFreqRoundTrip(n: Quantity, f: Quantity)
    requires Valid(n) && Valid(f) && n.unit == Ticks && f.unit == Hertz && f.value > 0
    requires f.width == U64 && n.value * DivFactor(f.unit) < U64_LIMIT
    ensures TimeTimesFreq(TicksDivFreq(n, f), f).value <= n.value
    ensures f.value <= 1_000_000_000 ==> n.value - 1 <= TimeTimesFreq(TicksDivFreq(n, f), f).value
  {
    var r := TicksDivFreq(n, f);
    var e := n.value * 1_000_000_000;
    var p := r.value * f.value;
    assert (r.value + 1) * f.value == p + f.value;
    assert p <= e < p + f.value;
    assert 0 <= p < U64_LIMIT;
    assert TimeTimesFreq(r, f).value == p / 1_000_000_000 by {
      assert MulParams(NanoSeconds, Hertz) == (1, 1_000_000_000);
      assert Wrap64(p) == p;
      assert Wrap64(p) * 1 == p;
      assert Wrap64(p * 1) == p;
    }
    assert p / 1_000_000_000 <= e / 1_000_000_000 == n.value;
    if f.value <= 1_000_000_000 && n.value > 0 {
      assert e - 1_000_000_000 < p;
      assert (e - 1_000_000_000) / 1_000_000_000 == n.value - 1;
    }
  }
}
