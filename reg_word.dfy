/** The 32-bit register word of the generated register-access crate (its generic `R` and
    `W` types), held as its 32 bits, least significant first. A field of `n` bits at bit
    `lo` is the slice `w[lo..lo + n]`, read as a little-endian number; writing it replaces
    that slice and nothing else, which is what the crate's `(bits & !(mask << lo)) |
    ((value & mask) << lo)` does. The crate's generic module is not part of this model. */
module RegisterWord {
  import opened Bits

  const WIDTH: nat := 32

  type Word = s: seq<bool> | |s| == WIDTH witness seq(32, _ => false)

  /** The reset value 0 of every register here. */
  const RESET: Word := seq(WIDTH, _ => false)

  /** A bit string read as a number, least significant bit first. */
  function ValueOf(s: seq<bool>): (r: nat)
    ensures r < Pow2(|s|)
  {
    if s == [] then 0 else (if s[0] then 1 else 0) + 2 * ValueOf(s[1..])
  }

  /** The low `n` bits of `v`, least significant first. */
  function BitsOf(v: nat, n: nat): (r: seq<bool>)
    ensures |r| == n
  {
    if n == 0 then [] else [v % 2 == 1] + BitsOf(v / 2, n - 1)
  }

  /** A number below `2^a` written in `a + b` bits: its `a` bits, then `b` clear bits. */
  lemma {:induction false} BitsOfNarrow(v: nat, a: nat, b: nat)
    requires v < Pow2(a)
    ensures BitsOf(v, a + b) == BitsOf(v, a) + BitsOf(0, b)
  {
    if a > 0 {
      BitsOfNarrow(v / 2, a - 1, b);
      assert BitsOf(v, a + b) == [v % 2 == 1] + BitsOf(v / 2, a - 1 + b);
    }
  }

  /** Zero's bits are all clear. */
  lemma {:induction false} BitsOfZero(n: nat)
    ensures BitsOf(0, n) == seq(n, _ => false)
  {
    if n > 0 {
      BitsOfZero(n - 1);
      assert BitsOf(0, n) == [false] + BitsOf(0, n - 1);
    }
  }

  /** A number of `n` bits survives the round trip through its bits. */
  lemma {:induction false} ValueOfBits(v: nat, n: nat)
    requires v < Pow2(n)
    ensures ValueOf(BitsOf(v, n)) == v
  {
    if n > 0 {
      ValueOfBits(v / 2, n - 1);
      assert BitsOf(v, n)[1..] == BitsOf(v / 2, n - 1);
    }
  }

  /** A bit string survives the round trip through its number. */
  lemma {:induction false} BitsOfValue(s: seq<bool>)
    ensures BitsOf(ValueOf(s), |s|) == s
  {
    if s != [] {
      BitsOfValue(s[1..]);
      var v := ValueOf(s);
      var b := if s[0] then 1 else 0;
      DivUnique(v, 2, ValueOf(s[1..]), b);
    }
  }

  /** `R::bits`: the word as a u32. */
  function ToU32(w: Word): (r: u32)
  {
    assert Pow2(WIDTH) == U32_LIMIT by { Pow2Of32(); }
    ValueOf(w)
  }

  /** `W::bits(x)` for a whole word. */
  function OfU32(x: u32): (r: Word)
  {
    BitsOf(x, WIDTH)
  }

  lemma Pow2Of32()
    ensures Pow2(32) == U32_LIMIT
  {
    assert Pow2(4) == 16;
    Pow2Sum(4, 4);
    Pow2Sum(8, 8);
    Pow2Sum(16, 16);
  }

  lemma {:induction false} Pow2Sum(a: nat, b: nat)
    ensures Pow2(a + b) == Pow2(a) * Pow2(b)
  {
    if a > 0 {
      Pow2Sum(a - 1, b);
      assert Pow2(a + b) == 2 * Pow2(a - 1 + b);
    }
  }

  /** The two views of a register agree: a u32 and its 32 bits. The reset word is 0. */
  lemma WordRoundTrip(w: Word, x: u32)
    ensures OfU32(ToU32(w)) == w
    ensures ToU32(OfU32(x)) == x
    ensures ToU32(RESET) == 0
  {
    BitsOfValue(w);
    Pow2Of32();
    ValueOfBits(x, WIDTH);
    AllClear(RESET);
  }

  lemma {:induction false} AllClear(s: seq<bool>)
    requires forall i :: 0 <= i < |s| ==> !s[i]
    ensures ValueOf(s) == 0
  {
    if s != [] {
      AllClear(s[1..]);
    }
  }

  /** The `n`-bit field at bit `lo`. */
  function Field(w: Word, lo: nat, n: nat): (r: nat)
    requires lo + n <= WIDTH
    ensures r < Pow2(n)
  {
    ValueOf(w[lo..lo + n])
  }

  /** The word with the `n`-bit field at `lo` replaced by `v` masked to `n` bits. */
  function WithField(w: Word, lo: nat, n: nat, v: nat): (r: Word)
    requires lo + n <= WIDTH
  {
    w[..lo] + BitsOf(v % Pow2(n), n) + w[lo + n..]
  }

  /** Reading a field after writing it gives the value masked to the field's width, and
      every bit outside the field is unchanged. */
  lemma FieldAfterWrite(w: Word, lo: nat, n: nat, v: nat)
    requires lo + n <= WIDTH
    ensures Field(WithField(w, lo, n, v), lo, n) == v % Pow2(n)
    ensures forall i :: 0 <= i < WIDTH && !(lo <= i < lo + n) ==> WithField(w, lo, n, v)[i] == w[i]
  {
    var b := BitsOf(v % Pow2(n), n);
    var u := w[..lo] + b + w[lo + n..];
    assert u[lo..lo + n] == b;
    ValueOfBits(v % Pow2(n), n);
  }

  /** Writing the value a field already holds leaves the word as it was. */
  lemma WriteFieldBack(w: Word, lo: nat, n: nat)
    requires lo + n <= WIDTH
    ensures WithField(w, lo, n, Field(w, lo, n)) == w
  {
    var mid := w[lo..lo + n];
    var v := ValueOf(mid);
    assert |mid| == n && v < Pow2(n);
    DivUnique(v, Pow2(n), 0, v);
    assert Field(w, lo, n) % Pow2(n) == v;
    BitsOfValue(mid);
    assert WithField(w, lo, n, Field(w, lo, n)) == w[..lo] + mid + w[lo + n..];
    assert w[..lo] + mid + w[lo + n..] == w;
  }

  /** A one-bit field is the bit itself. */
  lemma BitField(w: Word, k: nat, b: bool)
    requires k < WIDTH
    ensures Field(w, k, 1) == (if w[k] then 1 else 0)
    ensures WithField(w, k, 1, if b then 1 else 0) == w[k := b]
  {
    assert w[k..k + 1] == [w[k]];
    assert w[k..k + 1][1..] == [];
    var u := WithField(w, k, 1, if b then 1 else 0);
    assert BitsOf(if b then 1 else 0, 1) == [b];
    assert u == w[k := b];
  }

  /** The word with bit `k` alone set: the mask `1 << k`. */
  function Mask(k: nat): (r: Word)
    requires k < WIDTH
    ensures forall i :: 0 <= i < WIDTH ==> (r[i] <==> i == k)
  {
    seq(WIDTH, i => i == k)
  }

  /** The word `1 << k`: bit k alone set, and as a number `2^k`. */
  lemma MaskValue(k: nat)
    requires k < WIDTH
    ensures forall i :: 0 <= i < WIDTH ==> (Mask(k)[i] <==> i == k)
    ensures ToU32(Mask(k)) == Pow2(k)
  {
    SingleBitValue(Mask(k), k);
  }

  /** A bit string whose only set bit is bit `k` has the value `2^k`. */
  lemma {:induction false} SingleBitValue(s: seq<bool>, k: nat)
    requires k < |s|
    requires forall i :: 0 <= i < |s| ==> (s[i] <==> i == k)
    ensures ValueOf(s) == Pow2(k)
    decreases k
  {
    if k == 0 {
      AllClear(s[1..]);
    } else {
      SingleBitValue(s[1..], k - 1);
    }
  }

  /** `crate::W`: the value a write (from the reset value) or a modify (from the value
      read) builds before it is stored. */
  class Writer {
    var bits: Word

    constructor(bits: Word)
      ensures this.bits == bits
    {
      this.bits := bits;
    }
  }
}
