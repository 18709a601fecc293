/** The SPI controller of src/spi.rs: the clock-divider search behind `change_baudrate`,
    the read-back of the clock register, bit order and data mode, and the packing of 8-,
    16- and 32-bit items into the sixteen 32-bit data registers `W0..W15`. Frequencies are
    u32 Hertz values; the APB frequency is a field, as reported by the clock control. */
module Spi {
  import opened Bits

  /** The widest values of the 13-bit `clkdiv_pre` and 6-bit `clkcnt_n` fields. */
  const CLKDIV_PRE_MAX: int := 0x1fff
  const CLKCNT_N_MAX: int := 0x3f

  type Pre = x: int | 0 <= x <= 0x1fff
  type Cnt = x: int | 0 <= x <= 0x3f

  datatype Error = BaudrateTooHigh | BaudrateTooLow | ConversionFailed | PinError

  /** `nb::Error<Error>`: the operation would block, or failed. */
  datatype NbError = WouldBlock | Other(error: Error)

  /** The SPI clock register. */
  datatype ClockReg = ClockReg(equSysclk: bool, clkdivPre: Pre, clkcntN: Cnt, clkcntH: Cnt,
                               clkcntL: Cnt)

  datatype BitOrder = MSBFirst | LSBFirst

  datatype Polarity = IdleLow | IdleHigh
  datatype Phase = CaptureOnFirstTransition | CaptureOnSecondTransition

  /** An `embedded_hal::spi::Mode`. */
  datatype Mode = Mode(polarity: Polarity, phase: Phase)

  const MODE_0: Mode := Mode(IdleLow, CaptureOnFirstTransition)
  const MODE_1: Mode := Mode(IdleLow, CaptureOnSecondTransition)
  const MODE_2: Mode := Mode(IdleHigh, CaptureOnFirstTransition)
  const MODE_3: Mode := Mode(IdleHigh, CaptureOnSecondTransition)

  function Min(a: int, b: int): int
  {
    if a <= b then a else b
  }

  // ---------------------------------------------------------------------------------------
  // Clock dividers

  /** `divider_to_frequency`: the SPI clock for pre-divider `div1 + 1` and counter
      `div2 + 1`, the floor of the APB frequency over their product. */
  function DividerToFrequency(apb: u32, div1: Pre, div2: Cnt): (r: u32)
    ensures r * ((div1 + 1) * (div2 + 1)) <= apb < (r + 1) * ((div1 + 1) * (div2 + 1))
    ensures r <= apb
  {
    var d := (div1 + 1) * (div2 + 1);
    MulGrows(div1 + 1, div2 + 1);
    DivFloor(apb, d);
    DivLe(apb, d);
    apb / d
  }

  /** The frequency of the widest dividers, below which `change_baudrate` refuses. */
  function MinFrequency(apb: u32): (r: u32)
    ensures r == apb / 0x8_0000
  {
    DividerToFrequency(apb, CLKDIV_PRE_MAX, CLKCNT_N_MAX)
  }

  /** No setting of the dividers gives a frequency below `MinFrequency`. */
  lemma MinFrequencyIsLowest(apb: u32, div1: Pre, div2: Cnt)
    ensures MinFrequency(apb) <= DividerToFrequency(apb, div1, div2)
  {
    MulMonotone(div1 + 1, 0x2000, div2 + 1);
    MulMonotone(div2 + 1, 0x40, 0x2000);
    MulGrows(div1 + 1, div2 + 1);
    DivAntitone(apb, (div1 + 1) * (div2 + 1), 0x8_0000);
  }

  /** `x.abs()`. */
  function Abs(x: int): (r: nat)
    ensures r == x || r == -x
  {
    if x < 0 then -x else x
  }

  /** The pre-divider tried for counter `div2` and offset `v`:
      `(apb / (div2 + 1)) / baudrate - 1 + v`, clamped to `[0, 0x1fff]`. */
  function Candidate(apb: u32, baud: u32, div2: Cnt, v: int): (r: Pre)
    requires baud > 0
    ensures r == 0 || r == CLKDIV_PRE_MAX || r == (apb / (div2 + 1)) / baud - 1 + v
    ensures (apb / (div2 + 1)) / baud - 1 + v > CLKDIV_PRE_MAX ==> r == CLKDIV_PRE_MAX
    ensures (apb / (div2 + 1)) / baud - 1 + v <= 0 ==> r == 0
  {
    var g := (apb / (div2 + 1)) / baud - 1 + v;
    if g > CLKDIV_PRE_MAX then CLKDIV_PRE_MAX else if g <= 0 then 0 else g
  }

  /** The frequency of that candidate. */
  function CandidateFrequency(apb: u32, baud: u32, div2: Cnt, v: int): (r: u32)
    requires baud > 0
  {
    DividerToFrequency(apb, Candidate(apb, baud, div2, v), div2)
  }

  /** `f` is at least every candidate frequency not above `baud` among the counters
      `1..=0x3f` and offsets `-2..=1` that the search examines before `(div2, v)`. */
  ghost predicate BestBefore(apb: u32, baud: u32, f: int, div2: int, v: int)
    requires baud > 0
  {
    forall d: Cnt, u: int | 1 <= d && -2 <= u <= 1 && (d < div2 || (d == div2 && u < v)) ::
      CandidateFrequency(apb, baud, d, u) <= baud ==> CandidateFrequency(apb, baud, d, u) <= f
  }

  /** Every candidate frequency not above `baud` that the search examines before
      `(div2, v)` is strictly below `f`: `(div2, v)` is the first place `f` is reached. */
  ghost predicate FirstReached(apb: u32, baud: u32, f: int, div2: int, v: int)
    requires baud > 0
  {
    forall d: Cnt, u: int | 1 <= d && -2 <= u <= 1 && (d < div2 || (d == div2 && u < v)) ::
      CandidateFrequency(apb, baud, d, u) <= baud ==> CandidateFrequency(apb, baud, d, u) < f
  }

  /** `f` is at least every candidate frequency not above `baud`. */
  ghost predicate Best(apb: u32, baud: u32, f: int)
    requires baud > 0
  {
    BestBefore(apb, baud, f, CLKCNT_N_MAX + 1, -2)
  }

  /** Every candidate frequency not above `baud` is 0, so the search accepts none. */
  ghost predicate NoCandidate(apb: u32, baud: u32)
    requires baud > 0
  {
    Best(apb, baud, 0)
  }

  /** Finishing the offsets of one counter is starting the next counter. */
  lemma NextCounter(apb: u32, baud: u32, f: int, div2: int)
    requires baud > 0
    requires BestBefore(apb, baud, f, div2, 2)
    ensures BestBefore(apb, baud, f, div2 + 1, -2)
  {
  }

  /** A frequency above the best so far is reached first where it is found. */
  lemma FirstReachedAbove(apb: u32, baud: u32, g: int, f: int, div2: int, v: int)
    requires baud > 0 && g < f && BestBefore(apb, baud, g, div2, v)
    ensures FirstReached(apb, baud, f, div2, v)
  {
  }

  /** A best frequency stays best when raised. */
  lemma BestRaised(apb: u32, baud: u32, f: int, g: int)
    requires baud > 0 && f <= g && Best(apb, baud, f)
    ensures Best(apb, baud, g)
  {
  }

  /** The search of `change_baudrate` over the counters `1..=0x3f` and the offsets
      `-2..=1`: the best frequency not above `baud`, its dividers, and the offset at which
      it was first reached; a frequency equal to `baud` ends the search at once. With no
      candidate the dividers stay 1 and the frequency 0. */
  method FindDividers(apb: u32, baud: u32) returns (div1: Pre, div2: Cnt, best: u32, ghost chosen: int)
    requires 0 < baud < apb < 0x8000_0000
    ensures 1 <= div2 && best <= baud
    ensures best == 0 <==> NoCandidate(apb, baud)
    ensures best == 0 ==> div1 == 1 && div2 == 1
    ensures best != 0 ==> best == DividerToFrequency(apb, div1, div2)
    ensures Best(apb, baud, DividerToFrequency(apb, div1, div2))
    ensures !NoCandidate(apb, baud) ==>
      -2 <= chosen <= 1 && div1 == Candidate(apb, baud, div2, chosen)
      && FirstReached(apb, baud, best, div2, chosen)
  {
    div1, div2, best, chosen := 1, 1, 0, 0;
    label outer:
    for d2 := 1 to CLKCNT_N_MAX + 1
      invariant best <= baud && BestBefore(apb, baud, best, d2, -2)
      invariant (best == 0 && div1 == 1 && div2 == 1)
        || (1 <= div2 && -2 <= chosen <= 1 && div1 == Candidate(apb, baud, div2, chosen)
            && 0 < best == DividerToFrequency(apb, div1, div2)
            && FirstReached(apb, baud, best, div2, chosen))
    {
      for v := -2 to 2
        invariant best <= baud && BestBefore(apb, baud, best, d2, v)
        invariant (best == 0 && div1 == 1 && div2 == 1)
          || (1 <= div2 && -2 <= chosen <= 1 && div1 == Candidate(apb, baud, div2, chosen)
              && 0 < best == DividerToFrequency(apb, div1, div2)
              && FirstReached(apb, baud, best, div2, chosen))
      {
        var g := Candidate(apb, baud, d2, v);
        var f := DividerToFrequency(apb, g, d2);
        if f <= baud && Abs(baud - f) < Abs(baud - best) {
          FirstReachedAbove(apb, baud, best, f, d2, v);
          best, div1, div2 := f, g, d2;
          chosen := v;
          if baud == f {
            assert Best(apb, baud, best);
            break outer;
          }
        }
      }
      NextCounter(apb, baud, best, d2);
    }
    assert Best(apb, baud, best);
    if best != 0 {
      assert CandidateFrequency(apb, baud, div2, chosen) == best;
    }
    BestRaised(apb, baud, best, DividerToFrequency(apb, div1, div2));
  }

  // ---------------------------------------------------------------------------------------
  // Items in data registers

  /** Item sizes in bytes: `u8`, `u16` and `u32`. */
  predicate ItemSize(bytes: nat)
  {
    bytes == 1 || bytes == 2 || bytes == 4
  }

  function ItemBits(bytes: nat): (r: nat)
    requires ItemSize(bytes)
    ensures r == bytes * 8
  {
    if bytes == 1 then 8 else if bytes == 2 then 16 else 32
  }

  /** `4 / bytes`: the items per 32-bit word. */
  function Divider(bytes: nat): (r: nat)
    requires ItemSize(bytes)
    ensures 1 <= r <= 4
  {
    if bytes == 1 then 4 else if bytes == 2 then 2 else 1
  }

  /** `64 / bytes`: the items of one chunk, which fill the sixteen data registers. */
  function BufferItemCount(bytes: nat): (r: nat)
    requires ItemSize(bytes)
    ensures r == 16 * Divider(bytes)
  {
    if bytes == 1 then 64 else if bytes == 2 then 32 else 16
  }

  /** The divider and the chunk size are `4 / bytes` and `64 / bytes`: a word holds
      exactly `divider` items, and a chunk exactly fills the sixteen words. */
  lemma DividerIsQuotient(bytes: nat)
    requires ItemSize(bytes)
    ensures Divider(bytes) == 4 / bytes && Divider(bytes) * bytes == 4
    ensures BufferItemCount(bytes) == 64 / bytes && BufferItemCount(bytes) * bytes == 64
    ensures Divider(bytes) * ItemBits(bytes) == 32
  {
  }

  /** `n / divider`: the word that holds item `n`. */
  function WordOf(n: nat, bytes: nat): (r: nat)
    requires ItemSize(bytes)
    ensures r <= n
    ensures n < BufferItemCount(bytes) ==> r < 16
  {
    if bytes == 1 then n / 4 else if bytes == 2 then n / 2 else n
  }

  /** `n % divider`: the slot of item `n` within its word. */
  function SlotOf(n: nat, bytes: nat): (r: nat)
    requires ItemSize(bytes)
    ensures r < Divider(bytes)
  {
    if bytes == 1 then n % 4 else if bytes == 2 then n % 2 else 0
  }

  /** Word and slot are the quotient and remainder of the item index by the divider. */
  lemma WordSlot(n: nat, bytes: nat)
    requires ItemSize(bytes)
    ensures WordOf(n, bytes) == n / Divider(bytes) && SlotOf(n, bytes) == n % Divider(bytes)
    ensures n == WordOf(n, bytes) * Divider(bytes) + SlotOf(n, bytes)
  {
  }

  /** `(n + divider - 1) / divider`: the words that hold `n` items. */
  function WordsUsed(n: nat, bytes: nat): (r: nat)
    requires ItemSize(bytes)
    ensures n <= BufferItemCount(bytes) ==> r <= 16
    ensures SlotOf(n, bytes) == 0 ==> r == WordOf(n, bytes)
    ensures SlotOf(n, bytes) != 0 ==> r == WordOf(n, bytes) + 1
  {
    if bytes == 1 then (n + 3) / 4 else if bytes == 2 then (n + 1) / 2 else n
  }

  /** The words used are the quotient rounded up. */
  lemma WordsUsedIsCeiling(n: nat, bytes: nat)
    requires ItemSize(bytes)
    ensures WordsUsed(n, bytes) == (n + Divider(bytes) - 1) / Divider(bytes)
  {
  }

  /** From item `n` to item `n + 1`: the next slot of the same word, or slot 0 of the next
      word after the last slot. A full chunk ends at a word boundary. */
  lemma SlotNext(n: nat, bytes: nat)
    requires ItemSize(bytes)
    ensures SlotOf(n, bytes) + 1 < Divider(bytes) ==>
      WordOf(n + 1, bytes) == WordOf(n, bytes) && SlotOf(n + 1, bytes) == SlotOf(n, bytes) + 1
    ensures SlotOf(n, bytes) + 1 == Divider(bytes) <==> SlotOf(n + 1, bytes) == 0
    ensures SlotOf(n + 1, bytes) == 0 ==> WordOf(n + 1, bytes) == WordOf(n, bytes) + 1
    ensures SlotOf(BufferItemCount(bytes), bytes) == 0
  {
  }

  /** An item before item `n` lies in an earlier word, or in an earlier slot of the same
      word, and within the words that `n` items use. */
  lemma SlotOrder(k: nat, n: nat, bytes: nat)
    requires ItemSize(bytes) && k < n
    ensures WordOf(k, bytes) <= WordOf(n, bytes)
    ensures WordOf(k, bytes) == WordOf(n, bytes) ==> SlotOf(k, bytes) < SlotOf(n, bytes)
    ensures WordOf(k, bytes) < WordsUsed(n, bytes)
  {
  }

  /** `(count % divider) * bits`: the bit offset of slot `idx` within its word. */
  function ItemOffset(idx: nat, bytes: nat): (r: nat)
    requires ItemSize(bytes) && idx < Divider(bytes)
    ensures r + ItemBits(bytes) <= 32
  {
    if bytes == 1 then 8 * idx else if bytes == 2 then 16 * idx else 0
  }

  /** The offset of a slot is its index times the item width. */
  lemma ItemOffsetIsProduct(idx: nat, bytes: nat)
    requires ItemSize(bytes) && idx < Divider(bytes)
    ensures ItemOffset(idx, bytes) == idx * ItemBits(bytes)
  {
  }

  /** `2^off` for the offsets that occur. */
  function Weight(off: nat): (r: nat)
    requires off == 0 || off == 8 || off == 16 || off == 24 || off == 32
    ensures r > 0
  {
    if off == 0 then 1
    else if off == 8 then 0x100
    else if off == 16 then 0x1_0000
    else if off == 24 then 0x100_0000
    else 0x1_0000_0000
  }

  /** The values an item of `bytes` bytes can hold. */
  predicate Fits(v: int, bytes: nat)
    requires ItemSize(bytes)
  {
    0 <= v < Weight(ItemBits(bytes))
  }

  /** `(word >> off) & ((!0u32) >> (32 - bits))`: the item in slot `idx` of a word. */
  function Item(word: int, idx: nat, bytes: nat): (r: int)
    requires ItemSize(bytes) && idx < Divider(bytes)
    ensures Fits(r, bytes)
  {
    (word / Weight(ItemOffset(idx, bytes))) % Weight(ItemBits(bytes))
  }

  /** Item `k` of the sixteen words `regs`: slot `k % divider` of word `k / divider`. */
  function ItemAt(regs: seq<int>, k: nat, bytes: nat): (r: int)
    requires ItemSize(bytes) && |regs| == 16 && k < BufferItemCount(bytes)
    ensures Fits(r, bytes)
  {
    Item(regs[WordOf(k, bytes)], SlotOf(k, bytes), bytes)
  }

  /** The first `n` items held in the words `regs`. */
  function Unpack(regs: seq<int>, n: nat, bytes: nat): (r: seq<int>)
    requires ItemSize(bytes) && |regs| == 16 && n <= BufferItemCount(bytes)
    ensures |r| == n
    ensures forall k :: 0 <= k < n ==> r[k] == ItemAt(regs, k, bytes)
  {
    seq(n, k requires 0 <= k < n => ItemAt(regs, k, bytes))
  }

  /** The word holding item `count` after storing `v` into it: `v` alone in slot 0, otherwise
      `word | v << off`, which is an addition as the slots above hold no bits yet. */
  function NextBuffer(word: int, count: nat, v: int, bytes: nat): (r: int)
    requires ItemSize(bytes)
    ensures SlotOf(count, bytes) == 0 ==> r == v
  {
    var s := SlotOf(count, bytes);
    if s == 0 then v else word + v * Weight(ItemOffset(s, bytes))
  }

  /** Item `n` stored into its word `n / divider`. */
  function Place(regs: seq<int>, n: nat, bytes: nat, v: int): (r: seq<int>)
    requires ItemSize(bytes) && |regs| == 16 && n < BufferItemCount(bytes)
    ensures |r| == 16
  {
    var i := WordOf(n, bytes);
    regs[i := NextBuffer(regs[i], n, v, bytes)]
  }

  /** The words `regs` after storing the `n` items `items[pos..pos + n]` from slot 0 on,
      one after another. */
  function Pack(regs: seq<int>, items: seq<int>, pos: nat, n: nat, bytes: nat): (r: seq<int>)
    requires ItemSize(bytes) && |regs| == 16 && pos + n <= |items| && n <= BufferItemCount(bytes)
    ensures |r| == 16
  {
    if n == 0 then regs
    else Place(Pack(regs, items, pos, n - 1, bytes), n - 1, bytes, items[pos + n - 1])
  }

  /** Adding a multiple of `M * e`, a multiple of `e` whose quotient is a multiple of `M`,
      leaves the digit `(word / e) % M`. */
  lemma LowSlot(word: int, v: int, e: int, m: int, M: int)
    requires e > 0 && M > 0 && m > 0 && m % M == 0 && word >= 0
    ensures ((word + v * (m * e)) / e) % M == (word / e) % M
  {
    var a, b := word / e, word % e;
    assert word + v * (m * e) == (a + v * m) * e + b;
    DivUnique(word + v * (m * e), e, a + v * m, b);
    var k := m / M;
    assert v * m == (v * k) * M;
    DivUnique(a + v * m, M, a / M + v * k, a % M);
  }

  /** Below `W`, `word` leaves `v` as the digit of `word + v * W` at weight `W`. */
  lemma OwnSlot(word: int, v: int, W: int, M: int)
    requires W > 0 && 0 <= word < W && 0 <= v < M
    ensures ((word + v * W) / W) % M == v
    ensures word + v * W < M * W
  {
    DivUnique(word + v * W, W, v, word);
    DivUnique(v, M, 0, v);
    MulMonotone(v, M - 1, W);
  }

  /** `2^(8 * idx) == 2^(8 * j) * 2^(8 * (idx - j))`, the second factor a multiple of 256. */
  lemma WeightSplit(j: nat, idx: nat)
    requires j < idx < 4
    ensures Weight(8 * idx) == Weight(8 * (idx - j)) * Weight(8 * j)
    ensures Weight(8 * (idx - j)) % 0x100 == 0
    ensures idx + 1 < 4 ==> Weight(8 * (idx + 1)) == 0x100 * Weight(8 * idx)
  {
  }

  /** Storing `v` into the slot above the bits of `word` leaves the lower slots' items,
      puts `v` in slot `idx` and leaves the slots above clear. */
  lemma ItemStore(word: int, idx: nat, v: int, bytes: nat)
    requires ItemSize(bytes) && 0 < idx < Divider(bytes) && Fits(v, bytes)
    requires 0 <= word < Weight(ItemOffset(idx, bytes))
    ensures Item(word + v * Weight(ItemOffset(idx, bytes)), idx, bytes) == v
    ensures forall j :: 0 <= j < idx ==>
      Item(word + v * Weight(ItemOffset(idx, bytes)), j, bytes) == Item(word, j, bytes)
    ensures idx + 1 < Divider(bytes) ==>
      word + v * Weight(ItemOffset(idx, bytes)) < Weight(ItemOffset(idx + 1, bytes))
  {
    var W := Weight(ItemOffset(idx, bytes));
    var M := Weight(ItemBits(bytes));
    var w := word + v * W;
    OwnSlot(word, v, W, M);
    forall j | 0 <= j < idx
      ensures Item(w, j, bytes) == Item(word, j, bytes)
    {
      if bytes == 1 {
        WeightSplit(j, idx);
        LowSlot(word, v, Weight(8 * j), Weight(8 * (idx - j)), M);
      } else {
        assert j == 0 && W == M;
        LowSlot(word, v, 1, W, M);
      }
    }
    if idx + 1 < Divider(bytes) {
      WeightSplit(0, idx);
    }
  }

  /** A word holding only `v` holds it in slot 0, below slot 1. */
  lemma ItemFirst(v: int, bytes: nat)
    requires ItemSize(bytes) && Fits(v, bytes)
    ensures Item(v, 0, bytes) == v
    ensures 1 < Divider(bytes) ==> v < Weight(ItemOffset(1, bytes))
  {
  }

  /** The words hold the `n` items `items[pos..pos + n]`, and the word of a partly filled
      slot has no bits at or above that slot. */
  ghost predicate Packed(regs: seq<int>, items: seq<int>, pos: nat, n: nat, bytes: nat)
    requires ItemSize(bytes) && |regs| == 16 && pos + n <= |items| && n <= BufferItemCount(bytes)
  {
    (forall k :: 0 <= k < n ==> ItemAt(regs, k, bytes) == items[pos + k])
    && TopClear(regs, n, bytes)
  }

  /** When item `n` would go into a partly filled word, that word has no bits at or above
      its slot. */
  ghost predicate TopClear(regs: seq<int>, n: nat, bytes: nat)
    requires ItemSize(bytes) && |regs| == 16 && n <= BufferItemCount(bytes)
  {
    n < BufferItemCount(bytes) && SlotOf(n, bytes) != 0 ==>
      0 <= regs[WordOf(n, bytes)] < Weight(ItemOffset(SlotOf(n, bytes), bytes))
  }

  /** Placing one more item keeps the words packed. */
  lemma PlaceExtends(regs: seq<int>, items: seq<int>, pos: nat, n: nat, bytes: nat)
    requires ItemSize(bytes) && |regs| == 16 && pos + n < |items| && n < BufferItemCount(bytes)
    requires Fits(items[pos + n], bytes)
    requires Packed(regs, items, pos, n, bytes)
    ensures Packed(Place(regs, n, bytes, items[pos + n]), items, pos, n + 1, bytes)
  {
    var v := items[pos + n];
    SlotNext(n, bytes);
    var i, s := WordOf(n, bytes), SlotOf(n, bytes);
    var regs' := Place(regs, n, bytes, v);
    if s == 0 {
      ItemFirst(v, bytes);
    } else {
      ItemStore(regs[i], s, v, bytes);
    }
    forall k | 0 <= k < n + 1
      ensures ItemAt(regs', k, bytes) == items[pos + k]
    {
      if k < n {
        SlotOrder(k, n, bytes);
        assert ItemAt(regs, k, bytes) == items[pos + k];
      }
    }
  }

  /** Packing then unpacking gives back the items: a chunk written into the data registers
      is what a transaction of that length carries. */
  lemma {:induction false} PackUnpack(regs: seq<int>, items: seq<int>, pos: nat, n: nat, bytes: nat)
    requires ItemSize(bytes) && |regs| == 16 && pos + n <= |items| && n <= BufferItemCount(bytes)
    requires forall k :: pos <= k < pos + n ==> Fits(items[k], bytes)
    ensures Packed(Pack(regs, items, pos, n, bytes), items, pos, n, bytes)
    ensures Unpack(Pack(regs, items, pos, n, bytes), n, bytes) == items[pos..pos + n]
  {
    if n > 0 {
      var m := n - 1;
      PackUnpack(regs, items, pos, m, bytes);
      var p := Pack(regs, items, pos, m, bytes);
      PlaceExtends(p, items, pos, m, bytes);
      assert Pack(regs, items, pos, n, bytes) == Place(p, m, bytes, items[pos + m]);
    }
    var r := Pack(regs, items, pos, n, bytes);
    forall k | 0 <= k < n
      ensures Unpack(r, n, bytes)[k] == items[pos..pos + n][k]
    {
    }
  }

  /** Only the first `WordsUsed(n)` words matter to the first `n` items. */
  lemma UnpackUsed(regs: seq<int>, regs': seq<int>, n: nat, bytes: nat)
    requires ItemSize(bytes) && |regs| == |regs'| == 16 && n <= BufferItemCount(bytes)
    requires regs[..WordsUsed(n, bytes)] == regs'[..WordsUsed(n, bytes)]
    ensures Unpack(regs', n, bytes) == Unpack(regs, n, bytes)
  {
    forall k | 0 <= k < n
      ensures ItemAt(regs', k, bytes) == ItemAt(regs, k, bytes)
    {
      SlotOrder(k, n, bytes);
      assert regs[WordOf(k, bytes)] == regs[..WordsUsed(n, bytes)][WordOf(k, bytes)];
    }
  }

  /** Packing depends only on the items packed. */
  lemma {:induction false} PackSame(regs: seq<int>, a: seq<int>, b: seq<int>, pos: nat, n: nat, bytes: nat)
    requires ItemSize(bytes) && |regs| == 16 && pos + n <= |a| && pos + n <= |b|
    requires n <= BufferItemCount(bytes)
    requires forall k :: pos <= k < pos + n ==> a[k] == b[k]
    ensures Pack(regs, a, pos, n, bytes) == Pack(regs, b, pos, n, bytes)
  {
    if n > 0 {
      PackSame(regs, a, b, pos, n - 1, bytes);
    }
  }

  /** The chunk loop of `write_iter_internal`: stores the next `64 / bytes` items (or the
      rest) into the local buffer, `buffer[count / divider] = value` in slot 0 and
      `buffer[count / divider] |= value << off` in the other slots. */
  method PackInto(buffer: seq<int>, items: seq<int>, pos: nat, bytes: nat) returns (count: nat, packed: seq<int>)
    requires ItemSize(bytes) && |buffer| == 16 && pos < |items|
    ensures count == Min(BufferItemCount(bytes), |items| - pos) && count >= 1
    ensures packed == Pack(buffer, items, pos, count, bytes)
  {
    var B := BufferItemCount(bytes);
    count, packed := 0, buffer;
    while count < B && pos + count < |items|
      invariant count <= B && pos + count <= |items|
      invariant packed == Pack(buffer, items, pos, count, bytes)
    {
      var value := items[pos + count];
      var i := WordOf(count, bytes);
      packed := packed[i := NextBuffer(packed[i], count, value, bytes)];
      count := count + 1;
    }
  }

  /** The words `regs` with the partly filled word of slot `count` taken from `buffer`,
      where the chunk loop of `transfer_internal` keeps it until the word is written. */
  ghost function View(regs: seq<int>, count: nat, buffer: int, bytes: nat): (r: seq<int>)
    requires ItemSize(bytes) && |regs| == 16
    ensures |r| == 16
  {
    if count < BufferItemCount(bytes) && SlotOf(count, bytes) != 0 then
      regs[WordOf(count, bytes) := buffer]
    else
      regs
  }

  /** The registers after one step of the chunk loop of `transfer_internal`: the local word
      `buffer` is written to its register when `write`. */
  ghost function Written(regs: seq<int>, count: nat, buffer: int, write: bool, bytes: nat): (r: seq<int>)
    requires ItemSize(bytes) && |regs| == 16 && count < BufferItemCount(bytes)
    ensures |r| == 16
  {
    if write then regs[WordOf(count, bytes) := buffer] else regs
  }

  /** Storing item `count` into the local word extends the packed registers by that item,
      with the local word standing for its register. */
  lemma FillPack(before: seq<int>, w0: seq<int>, ws: seq<int>, item0: nat, count: nat, buffer: int, bytes: nat)
    requires ItemSize(bytes) && |before| == |w0| == 16 && count < BufferItemCount(bytes)
    requires item0 + count < |ws|
    requires View(before, count, buffer, bytes) == Pack(w0, ws, item0, count, bytes)
    ensures Pack(w0, ws, item0, count + 1, bytes)
      == Written(before, count, NextBuffer(buffer, count, ws[item0 + count], bytes), true, bytes)
  {
  }

  /** After the step, the local word stands for its register whether or not it was written:
      it is written at the last slot of a word, and otherwise the next item goes into the
      same word. */
  lemma FillView(before: seq<int>, count: nat, nb: int, write: bool, bytes: nat)
    requires ItemSize(bytes) && |before| == 16 && count < BufferItemCount(bytes)
    requires write || SlotOf(count, bytes) != Divider(bytes) - 1
    ensures View(Written(before, count, nb, write, bytes), count + 1, nb, bytes)
      == Written(before, count, nb, true, bytes)
    ensures write ==>
      (View(Written(before, count, nb, write, bytes), count + 1, nb, bytes)
       == Written(before, count, nb, write, bytes))
  {
    SlotNext(count, bytes);
  }

  /** Item `count` of a received chunk, unpacked from its word, is the item the device sent. */
  lemma ReadItem(regs: seq<int>, incoming: seq<int>, read0: nat, item: nat, count: nat, bytes: nat)
    requires ItemSize(bytes) && |regs| == 16 && read0 + count < item <= |incoming|
    requires item - read0 <= BufferItemCount(bytes)
    requires Unpack(regs, item - read0, bytes) == incoming[read0..item]
    ensures WordOf(count, bytes) < 16
    ensures Item(regs[WordOf(count, bytes)], SlotOf(count, bytes), bytes) == incoming[read0 + count]
  {
    assert Unpack(regs, item - read0, bytes)[count] == incoming[read0..item][count];
  }

  // ---------------------------------------------------------------------------------------
  // The controller

  /** An SPI controller: its clock, control, pin and user registers, its data registers
      and bit lengths, and the items carried on the bus so far. */
  class Controller {
    var apb: u32
    var clock: ClockReg
    var wrBitOrder: bool
    var rdBitOrder: bool
    var ckIdleEdge: bool
    var ckOutEdge: bool
    /** `W0..W15`. */
    var w: seq<int>
    var mosiDlen: int
    var misoDlen: int
    /** The items sent by every transaction started with `cmd.usr`, in order. */
    var sent: seq<int>

    ghost predicate Valid()
      reads this
    {
      |w| == 16
    }

    constructor(apb: u32)
      ensures Valid() && this.apb == apb && sent == []
      ensures clock == ClockReg(false, 0, 0, 0, 0)
    {
      this.apb := apb;
      clock := ClockReg(false, 0, 0, 0, 0);
      w := seq(16, _ => 0);
      sent := [];
    }

    /** `baudrate`: the APB frequency when the clock equals the system clock, otherwise
        the frequency of the dividers in the clock register. */
    function Baudrate(): (r: u32)
      reads this
      ensures r <= apb
      ensures clock.equSysclk ==> r == apb
      ensures !clock.equSysclk ==> r * ((clock.clkdivPre + 1) * (clock.clkcntN + 1)) <= apb
    {
      if clock.equSysclk then apb
      else DividerToFrequency(apb, clock.clkdivPre, clock.clkcntN)
    }

    /** `change_baudrate`. A rate above the APB frequency is too high; the APB frequency
        itself sets `clk_equ_sysclk`; a rate below the slowest divider is too low.
        Otherwise the search over counters `1..=0x3f` and four pre-dividers around
        `apb / (div2 + 1) / baudrate` keeps a candidate only when it is not above the rate
        and strictly closer than the best so far, stops at an exact match, and writes the
        best with `clkcnt_l = (div2 + 1) / 2` and `clkcnt_h = 0`. The frequency read back
        is then the highest candidate not above the rate, unless no candidate was accepted
        and the initial dividers 1 and 1 stay. The search divides by the rate, which must
        therefore be nonzero when it is reached; its i32 arithmetic needs an APB frequency
        below 2^31. */
    method ChangeBaudrate(baud: u32) returns (r: Result<(), Error>)
      requires apb < 0x8000_0000
      requires baud == 0 ==> apb == 0 || apb >= 0x8_0000
      modifies this`clock
      ensures r == Err(BaudrateTooHigh) <==> baud > apb
      ensures r == Err(BaudrateTooLow) <==> baud < apb && baud < MinFrequency(apb)
      ensures r.Err? ==> clock == old(clock)
      ensures baud == apb ==> r == Ok(()) && clock == ClockReg(true, 0, 0, 0, 0)
      ensures r.Ok? && baud != apb ==>
        baud > 0 && !clock.equSysclk && 1 <= clock.clkcntN && clock.clkcntH == 0
        && clock.clkcntL == (clock.clkcntN + 1) / 2 && Best(apb, baud, Baudrate())
        && (Baudrate() <= baud
            || (NoCandidate(apb, baud) && clock.clkdivPre == 1 && clock.clkcntN == 1))
      ensures r.Ok? && baud != apb && !NoCandidate(apb, baud) ==>
        exists v :: -2 <= v <= 1 && clock.clkdivPre == Candidate(apb, baud, clock.clkcntN, v)
          && 0 < Baudrate() <= baud && FirstReached(apb, baud, Baudrate(), clock.clkcntN, v)
    {
      if baud > apb {
        return Err(BaudrateTooHigh);
      }
      if baud == apb {
        clock := ClockReg(true, 0, 0, 0, 0);
        return Ok(());
      }
      if baud < MinFrequency(apb) {
        return Err(BaudrateTooLow);
      }
      var div1: Pre, div2: Cnt, best: u32;
      ghost var chosen: int;
      div1, div2, best, chosen := FindDividers(apb, baud);
      clock := ClockReg(false, div1, div2, 0, (div2 + 1) / 2);
      assert Baudrate() == DividerToFrequency(apb, div1, div2);
      if best != 0 {
        assert clock.clkdivPre == Candidate(apb, baud, clock.clkcntN, chosen);
      }
      r := Ok(());
    }

    /** `change_bit_order`: LSB first sets both the write and the read bit-order bits,
        MSB first clears both. */
    method ChangeBitOrder(order: BitOrder)
      modifies this`wrBitOrder, this`rdBitOrder
      ensures wrBitOrder == rdBitOrder == (order == LSBFirst)
    {
      match order
      case LSBFirst =>
        wrBitOrder, rdBitOrder := true, true;
      case MSBFirst =>
        wrBitOrder, rdBitOrder := false, false;
    }

    /** `change_data_mode`: the idle edge is the clock polarity, and the output edge is set
        exactly when polarity and phase differ (modes 1 and 2). */
    method ChangeDataMode(mode: Mode)
      modifies this`ckIdleEdge, this`ckOutEdge
      ensures ckIdleEdge == (mode.polarity == IdleHigh)
      ensures ckOutEdge == ((mode.polarity == IdleHigh) != (mode.phase == CaptureOnSecondTransition))
    {
      match mode
      case Mode(IdleLow, CaptureOnFirstTransition) =>
        ckIdleEdge, ckOutEdge := false, false;
      case Mode(IdleLow, CaptureOnSecondTransition) =>
        ckIdleEdge, ckOutEdge := false, true;
      case Mode(IdleHigh, CaptureOnFirstTransition) =>
        ckIdleEdge, ckOutEdge := true, true;
      case Mode(IdleHigh, CaptureOnSecondTransition) =>
        ckIdleEdge, ckOutEdge := true, false;
    }

    /** `new_internal`: a bus whose clock register starts at zero, then takes the data mode,
        the bit order and the baud rate of the configuration, in that order. The result is
        the baud-rate error, if any; the mode and the bit order are set either way. */
    static method New(apb: u32, mode: Mode, order: BitOrder, baud: u32)
      returns (c: Controller, r: Result<(), Error>)
      requires apb < 0x8000_0000
      requires baud == 0 ==> apb == 0 || apb >= 0x8_0000
      ensures fresh(c) && c.Valid() && c.apb == apb && c.sent == []
      ensures c.ckIdleEdge == (mode.polarity == IdleHigh)
      ensures c.ckOutEdge == ((mode.polarity == IdleHigh) != (mode.phase == CaptureOnSecondTransition))
      ensures c.wrBitOrder == c.rdBitOrder == (order == LSBFirst)
      ensures r == Err(BaudrateTooHigh) <==> baud > apb
      ensures r == Err(BaudrateTooLow) <==> baud < apb && baud < MinFrequency(apb)
      ensures r.Err? ==> c.clock == ClockReg(false, 0, 0, 0, 0)
      ensures baud == apb ==> r == Ok(()) && c.clock == ClockReg(true, 0, 0, 0, 0)
      ensures r.Ok? && baud != apb ==>
        baud > 0 && !c.clock.equSysclk && 1 <= c.clock.clkcntN && c.clock.clkcntH == 0
        && c.clock.clkcntL == (c.clock.clkcntN + 1) / 2 && Best(apb, baud, c.Baudrate())
        && (c.Baudrate() <= baud
            || (NoCandidate(apb, baud) && c.clock.clkdivPre == 1 && c.clock.clkcntN == 1))
      ensures r.Ok? && baud != apb && !NoCandidate(apb, baud) ==>
        exists v :: -2 <= v <= 1 && c.clock.clkdivPre == Candidate(apb, baud, c.clock.clkcntN, v)
          && 0 < c.Baudrate() <= baud && FirstReached(apb, baud, c.Baudrate(), c.clock.clkcntN, v)
    {
      c := new Controller(apb);
      c.ChangeDataMode(mode);
      c.ChangeBitOrder(order);
      r := c.ChangeBaudrate(baud);
    }

    /** Setting `cmd.usr`: a full-duplex transaction of `usr_mosi_dbitlen + 1` bits sends
        that many items from the data registers, and the items the device clocks in at the
        same time, `incoming[pos..pos + n]`, are left in the data registers in the same
        layout. */
    method StartTransaction(bytes: nat, incoming: seq<int>, pos: nat, n: nat)
      requires Valid() && ItemSize(bytes)
      requires mosiDlen + 1 == n * ItemBits(bytes) && 1 <= n <= BufferItemCount(bytes)
      requires pos + n <= |incoming|
      requires forall k :: 0 <= k < |incoming| ==> Fits(incoming[k], bytes)
      modifies this`sent, this`w
      ensures sent == old(sent) + Unpack(old(w), n, bytes)
      ensures w == Pack(old(w), incoming, pos, n, bytes) && Valid()
      ensures Unpack(w, n, bytes) == incoming[pos..pos + n]
    {
      PackUnpack(w, incoming, pos, n, bytes);
      sent := sent + Unpack(w, n, bytes);
      w := Pack(w, incoming, pos, n, bytes);
    }

    /** The step of `write_iter_internal` after packing a chunk of `count` items into
        `buffer`: its `WordsUsed` words are copied to the data registers, both bit lengths
        are set to `count * bits - 1`, and a transaction is started. */
    method LoadAndStart(buffer: seq<int>, count: nat, bytes: nat, incoming: seq<int>, pos: nat)
      requires Valid() && ItemSize(bytes) && |buffer| == 16
      requires 1 <= count <= BufferItemCount(bytes) && pos + count <= |incoming|
      requires forall k :: 0 <= k < |incoming| ==> Fits(incoming[k], bytes)
      modifies this`sent, this`mosiDlen, this`misoDlen, this`w
      ensures sent == old(sent) + Unpack(buffer, count, bytes) && Valid()
      ensures mosiDlen == misoDlen == count * ItemBits(bytes) - 1
      ensures Unpack(w, count, bytes) == incoming[pos..pos + count]
    {
      var used := WordsUsed(count, bytes);
      for i := 0 to used
        invariant |w| == 16 && w[..i] == buffer[..i] && sent == old(sent)
      {
        w := w[i := buffer[i]];
      }
      UnpackUsed(buffer, w, count, bytes);
      mosiDlen := count * ItemBits(bytes) - 1;
      misoDlen := count * ItemBits(bytes) - 1;
      StartTransaction(bytes, incoming, pos, count);
    }

    /** `write_iter_internal`: the items go out in chunks of `64 / bytes`; each chunk is
        packed into a local buffer, its `WordsUsed` words are copied to the data registers,
        both bit lengths are set to the chunk's bits minus one and a transaction is started.
        Every item is sent once, in order. `incoming` is what the device returns, item by
        item, and is discarded. */
    method WriteIterInternal(items: seq<int>, incoming: seq<int>, bytes: nat) returns (r: Result<(), Error>)
      requires Valid() && ItemSize(bytes) && |incoming| == |items|
      requires forall k :: 0 <= k < |items| ==> Fits(items[k], bytes)
      requires forall k :: 0 <= k < |incoming| ==> Fits(incoming[k], bytes)
      modifies this`sent, this`mosiDlen, this`misoDlen, this`w
      ensures r == Ok(()) && Valid()
      ensures sent == old(sent) + items
      ensures |items| > 0 ==> mosiDlen == misoDlen
    {
      var buffer: seq<int> := seq(16, _ => 0);
      var pos := 0;
      while pos < |items|
        invariant pos <= |items| && sent == old(sent) + items[..pos] && |w| == 16
        invariant pos > 0 ==> mosiDlen == misoDlen
        invariant |buffer| == 16
      {
        ghost var before := sent;
        var count;
        count, buffer := WriteChunk(buffer, items, incoming, pos, bytes);
        assert sent == old(sent) + items[..pos + count] by {
          assert items[..pos + count] == items[..pos] + items[pos..pos + count];
        }
        pos := pos + count;
      }
      assert items[..pos] == items;
      r := Ok(());
    }

    /** One chunk of `write_iter_internal`: the next `64 / bytes` items (or the rest) are
        packed into `buffer`, loaded into the data registers and sent. */
    method WriteChunk(buffer: seq<int>, items: seq<int>, incoming: seq<int>, pos: nat, bytes: nat)
      returns (count: nat, packed: seq<int>)
      requires Valid() && ItemSize(bytes) && |buffer| == 16 && pos < |items| == |incoming|
      requires forall k :: 0 <= k < |items| ==> Fits(items[k], bytes)
      requires forall k :: 0 <= k < |incoming| ==> Fits(incoming[k], bytes)
      modifies this`sent, this`mosiDlen, this`misoDlen, this`w
      ensures count == Min(BufferItemCount(bytes), |items| - pos) && count >= 1 && Valid()
      ensures packed == Pack(buffer, items, pos, count, bytes)
      ensures sent == old(sent) + items[pos..pos + count]
      ensures mosiDlen == misoDlen
    {
      count, packed := PackInto(buffer, items, pos, bytes);
      PackUnpack(buffer, items, pos, count, bytes);
      LoadAndStart(packed, count, bytes, incoming, pos);
    }

    /** The read-back loop of `transfer_internal`: after a transaction whose `item - read0`
        items were received, `words[read0..item]` take the items unpacked from the data
        registers by shift and mask, the loop stopping at the end of `words`. */
    method ReadBack(words: array<int>, incoming: seq<int>, read0: nat, item: nat, bytes: nat)
      returns (read: nat)
      requires Valid() && ItemSize(bytes) && |incoming| == words.Length
      requires read0 < item <= words.Length
      requires item - read0 == BufferItemCount(bytes)
        || (item == words.Length && item - read0 <= BufferItemCount(bytes))
      requires Unpack(w, item - read0, bytes) == incoming[read0..item]
      requires forall k :: 0 <= k < read0 ==> words[k] == incoming[k]
      modifies words
      ensures read == item
      ensures forall k :: 0 <= k < item ==> words[k] == incoming[k]
      ensures forall k :: item <= k < words.Length ==> words[k] == old(words[k])
    {
      read := read0;
      var B := BufferItemCount(bytes);
      for count := 0 to B
        invariant read == read0 + count && read <= item && (read == item ==> count == B)
        invariant forall k :: 0 <= k < read ==> words[k] == incoming[k]
        invariant forall k :: read <= k < words.Length ==> words[k] == old(words[k])
      {
        ReadItem(w, incoming, read0, item, count, bytes);
        words[read] := Item(w[WordOf(count, bytes)], SlotOf(count, bytes), bytes);
        read := read + 1;
        if read >= words.Length {
          break;
        }
      }
    }

    /** The chunk loop of `transfer_internal`: the next `64 / bytes` items of `words` (or
        the rest) are packed into a local word, `buffer = value` in slot 0 and
        `buffer |= value << off` in the other slots, and the word is written to the data
        register `W[count / divider]` when its last slot or the last item is reached. */
    method FillRegisters(words: seq<int>, item0: nat, bytes: nat) returns (count: nat)
      requires Valid() && ItemSize(bytes) && item0 < |words|
      modifies this`w
      ensures count == Min(BufferItemCount(bytes), |words| - item0) && count >= 1
      ensures w == Pack(old(w), words, item0, count, bytes) && Valid()
    {
      ghost var w0 := w;
      var B := BufferItemCount(bytes);
      var item, buffer := item0, 0;
      count := 0;
      while count < B && item < |words|
        invariant item == item0 + count && count <= B && item <= |words|
        invariant |w| == 16
        invariant View(w, count, buffer, bytes) == Pack(w0, words, item0, count, bytes)
        invariant item == |words| ==> View(w, count, buffer, bytes) == w
      {
        buffer := StoreItem(words, item0, count, buffer, bytes, w0);
        count, item := count + 1, item + 1;
      }
    }

    /** One step of the chunk loop of `transfer_internal`: item `item0 + count` goes into the
        local word `buffer`, which is written to its data register at the last slot of the
        word or at the last item. With the local word standing for its register until it is
        written, the registers then hold one item more. */
    method StoreItem(words: seq<int>, item0: nat, count: nat, buffer: int, bytes: nat, ghost w0: seq<int>)
      returns (next: int)
      requires Valid() && ItemSize(bytes) && |w0| == 16
      requires count < BufferItemCount(bytes) && item0 + count < |words|
      requires View(w, count, buffer, bytes) == Pack(w0, words, item0, count, bytes)
      modifies this`w
      ensures Valid()
      ensures View(w, count + 1, next, bytes) == Pack(w0, words, item0, count + 1, bytes)
      ensures item0 + count + 1 == |words| ==> View(w, count + 1, next, bytes) == w
    {
      var item := item0 + count;
      var value := words[item];
      ghost var before := w;
      next := NextBuffer(buffer, count, value, bytes);
      FillPack(before, w0, words, item0, count, buffer, bytes);
      var write := SlotOf(count, bytes) == Divider(bytes) - 1 || item == |words| - 1;
      if write {
        w := w[WordOf(count, bytes) := next];
      }
      FillView(before, count, next, write, bytes);
    }

    /** `transfer_internal`: full-duplex transfer of `words`. Each round first reads back
        the items of the previous chunk into `words`, then packs and sends the next chunk.
        Every item of `words` is sent once, in order, and `words` ends holding the items
        the device returned, and both bit lengths end set by the last chunk; an empty buffer
        leaves them as they were. The conversion back to the item type cannot fail, as the
        mask keeps only the item's bits. */
    method TransferInternal(words: array<int>, incoming: seq<int>, bytes: nat) returns (r: Result<(), Error>)
      requires Valid() && ItemSize(bytes) && |incoming| == words.Length
      requires forall k :: 0 <= k < words.Length ==> Fits(words[k], bytes)
      requires forall k :: 0 <= k < |incoming| ==> Fits(incoming[k], bytes)
      modifies this`sent, this`mosiDlen, this`misoDlen, this`w, words
      ensures r == Ok(()) && Valid()
      ensures words[..] == incoming
      ensures sent == old(sent) + old(words[..])
      ensures words.Length > 0 ==> mosiDlen == misoDlen
      ensures words.Length == 0 ==> mosiDlen == old(mosiDlen) && misoDlen == old(misoDlen)
    {
      var item, read := 0, 0;
      ghost var orig := words[..];
      while read < words.Length
        invariant Progress(words, orig, incoming, old(sent), read, item, bytes)
        invariant words.Length == 0 ==> mosiDlen == old(mosiDlen) && misoDlen == old(misoDlen)
        decreases (words.Length - read) + (words.Length - item)
      {
        read, item := TransferRound(words, orig, incoming, old(sent), read, item, bytes);
      }
      assert words[..] == incoming;
      r := Ok(());
    }

    /** The state of `transfer_internal` between rounds: the first `read` items of `words`
        hold what the device returned and the others are untouched; the first `item` items
        have been sent; the last chunk sent, of `item - read` items, waits in the data
        registers. */
    ghost predicate Progress(words: array<int>, orig: seq<int>, incoming: seq<int>, sent0: seq<int>,
                             read: nat, item: nat, bytes: nat)
      reads this, words
    {
      ItemSize(bytes) && |w| == 16 && |orig| == |incoming| == words.Length
      && read <= item <= words.Length
      && ((item == 0 && read == 0)
          || (read < item && item == read + Min(BufferItemCount(bytes), words.Length - read))
          || read == words.Length)
      && (forall k :: 0 <= k < read ==> words[k] == incoming[k])
      && (forall k :: read <= k < words.Length ==> words[k] == orig[k])
      && sent == sent0 + orig[..item]
      && (read < item ==> Unpack(w, item - read, bytes) == incoming[read..item])
      && (item > 0 ==> mosiDlen == misoDlen)
    }

    /** The state of `transfer_internal` once every item sent has been read back. */
    ghost predicate Drained(words: array<int>, orig: seq<int>, incoming: seq<int>, sent0: seq<int>,
                            read: nat, bytes: nat)
      reads this, words
    {
      ItemSize(bytes) && |w| == 16 && |orig| == |incoming| == words.Length && read <= words.Length
      && (forall k :: 0 <= k < read ==> words[k] == incoming[k])
      && (forall k :: read <= k < words.Length ==> words[k] == orig[k])
      && sent == sent0 + orig[..read]
      && (read > 0 ==> mosiDlen == misoDlen)
    }

    /** One round of `transfer_internal`: the items of the previous chunk are read back into
        `words`, then the next chunk is packed and sent. */
    method TransferRound(words: array<int>, ghost orig: seq<int>, incoming: seq<int>, ghost sent0: seq<int>,
                         read0: nat, item0: nat, bytes: nat)
      returns (read: nat, item: nat)
      requires Progress(words, orig, incoming, sent0, read0, item0, bytes) && read0 < words.Length
      requires forall k :: 0 <= k < |orig| ==> Fits(orig[k], bytes)
      requires forall k :: 0 <= k < |incoming| ==> Fits(incoming[k], bytes)
      modifies this`sent, this`mosiDlen, this`misoDlen, this`w, words
      ensures Progress(words, orig, incoming, sent0, read, item, bytes)
      ensures read0 <= read && item0 <= item && read + item > read0 + item0
    {
      read := ReadPrevious(words, orig, incoming, sent0, read0, item0, bytes);
      item := item0;
      if item < words.Length {
        item := SendNext(words, orig, incoming, sent0, item, bytes);
      }
    }

    /** The reading half of a round: the items of the previous chunk, if any, are read back. */
    method ReadPrevious(words: array<int>, ghost orig: seq<int>, incoming: seq<int>, ghost sent0: seq<int>,
                        read0: nat, item0: nat, bytes: nat)
      returns (read: nat)
      requires Progress(words, orig, incoming, sent0, read0, item0, bytes) && read0 < words.Length
      modifies words
      ensures Drained(words, orig, incoming, sent0, read, bytes) && read == item0
    {
      read := read0;
      if item0 > 0 {
        read := ReadBack(words, incoming, read0, item0, bytes);
      }
    }

    /** The sending half of a round: the next chunk is packed and sent. */
    method SendNext(words: array<int>, ghost orig: seq<int>, incoming: seq<int>, ghost sent0: seq<int>,
                    item0: nat, bytes: nat)
      returns (item: nat)
      requires Drained(words, orig, incoming, sent0, item0, bytes) && item0 < words.Length
      requires forall k :: 0 <= k < |orig| ==> Fits(orig[k], bytes)
      requires forall k :: 0 <= k < |incoming| ==> Fits(incoming[k], bytes)
      modifies this`sent, this`mosiDlen, this`misoDlen, this`w
      ensures Progress(words, orig, incoming, sent0, item0, item, bytes) && item > item0
    {
      var count := SendChunk(words[..], incoming, item0, bytes);
      assert sent == sent0 + orig[..item0 + count] by {
        assert words[..][item0..item0 + count] == orig[item0..item0 + count];
        assert orig[..item0 + count] == orig[..item0] + orig[item0..item0 + count];
      }
      item := item0 + count;
    }

    /** The sending half of a round of `transfer_internal`, from the first item not yet
        sent, `item0`, which is also the first item not yet read back. */
    method SendChunk(words: seq<int>, incoming: seq<int>, item0: nat, bytes: nat) returns (count: nat)
      requires Valid() && ItemSize(bytes) && |incoming| == |words| && item0 < |words|
      requires forall k :: item0 <= k < |words| ==> Fits(words[k], bytes)
      requires forall k :: 0 <= k < |incoming| ==> Fits(incoming[k], bytes)
      modifies this`sent, this`mosiDlen, this`misoDlen, this`w
      ensures count == Min(BufferItemCount(bytes), |words| - item0) && Valid()
      ensures sent == old(sent) + words[item0..item0 + count]
      ensures Unpack(w, count, bytes) == incoming[item0..item0 + count]
      ensures mosiDlen == misoDlen
    {
      ghost var wb := w;
      count := FillRegisters(words, item0, bytes);
      PackUnpack(wb, words, item0, count, bytes);
      mosiDlen := count * ItemBits(bytes) - 1;
      misoDlen := count * ItemBits(bytes) - 1;
      StartTransaction(bytes, incoming, item0, count);
    }

    /** `FullDuplex::read`: refused while a transaction runs (`busy`, the `cmd.usr` bit);
        otherwise the low `bits` bits of `W0`, which always convert to the item type. */
    function Read(bytes: nat, busy: bool): (r: Result<int, NbError>)
      reads this
      requires Valid() && ItemSize(bytes)
      ensures busy <==> r == Err(NbError.WouldBlock)
      ensures r.Ok? ==> Fits(r.value, bytes) && r.value == ItemAt(w, 0, bytes)
    {
      if busy then Err(NbError.WouldBlock) else Ok(w[0] % Weight(ItemBits(bytes)))
    }

    /** `FullDuplex::send`: refused while a transaction runs; otherwise both bit lengths are
        set to one item, the item is written to `W0` and a transaction starts. The item goes
        out, and the device's item `incoming` is what `read` then returns. */
    method Send(value: int, bytes: nat, busy: bool, incoming: int) returns (r: Result<(), NbError>)
      requires Valid() && ItemSize(bytes) && Fits(value, bytes) && Fits(incoming, bytes)
      modifies this`sent, this`mosiDlen, this`misoDlen, this`w
      ensures Valid()
      ensures busy ==> r == Err(NbError.WouldBlock) && sent == old(sent) && w == old(w)
                       && mosiDlen == old(mosiDlen) && misoDlen == old(misoDlen)
      ensures !busy ==>
        (r == Ok(()) && sent == old(sent) + [value]
         && mosiDlen == misoDlen == ItemBits(bytes) - 1 && Read(bytes, false) == Ok(incoming))
    {
      if busy {
        return Err(NbError.WouldBlock);
      }
      mosiDlen := ItemBits(bytes) - 1;
      misoDlen := ItemBits(bytes) - 1;
      w := w[0 := value];
      ItemFirst(value, bytes);
      ItemFirst(incoming, bytes);
      StartTransaction(bytes, [incoming], 0, 1);
      r := Ok(());
    }
  }
}
