/** `LightData` of examples/leds.rs: the colours of a strip of 23 LEDs, held in a
    fixed-size array the methods update in place. Channel arithmetic in `u8` wraps, as in
    a release build. */
module Leds {
  import opened Bits

  const NUM_LEDS: nat := 23
  const STEPS: u8 := 10
  const TOP_ROW: nat := 4
  const MID_ROW: nat := 10
  const BOT_ROW: nat := 9
  /** The channel value of the blue-green-red pattern. */
  const PATTERN_LEVEL: u8 := 0x10

  /** `RGB8`. */
  datatype Rgb8 = Rgb8(r: u8, g: u8, b: u8)

  const BLACK: Rgb8 := Rgb8(0, 0, 0)

  datatype Channel = Red | Green | Blue

  function WithChannel(c: Rgb8, ch: Channel, v: u8): (r: Rgb8)
  {
    match ch
    case Red => c.(r := v)
    case Green => c.(g := v)
    case Blue => c.(b := v)
  }

  /** LED k of `rgb`: blue on every third LED from 0, green from 1, red from 2. */
  function RgbPattern(k: nat): Rgb8
  {
    Rgb8(if k % 3 == 2 then PATTERN_LEVEL else 0, if k % 3 == 1 then PATTERN_LEVEL else 0,
         if k % 3 == 0 then PATTERN_LEVEL else 0)
  }

  /** Each LED of the pattern has exactly one channel lit, and the pattern repeats every
      three LEDs. */
  lemma RgbPatternShape(k: nat)
    ensures var c := RgbPattern(k);
      && (c.b == PATTERN_LEVEL <==> k % 3 == 0) && (c.g == PATTERN_LEVEL <==> k % 3 == 1)
      && (c.r == PATTERN_LEVEL <==> k % 3 == 2)
      && (c.r == 0 || c.g == 0) && (c.g == 0 || c.b == 0) && (c.r == 0 || c.b == 0)
      && c != BLACK
    ensures RgbPattern(k + 3) == RgbPattern(k)
  {
  }

  /** The LEDs `edit_row` colours: the top row is 0 to 3, the middle row 4 to 13, and any
      other row number means the bottom row, 14 to 22. */
  function RowRange(row: nat): (r: (nat, nat))
    ensures r.0 <= r.1 <= NUM_LEDS
  {
    if row == 0 then (0, TOP_ROW)
    else if row == 1 then (TOP_ROW, MID_ROW + TOP_ROW)
    else (MID_ROW + TOP_ROW, NUM_LEDS)
  }

  /** The three rows cover the strip end to end without overlap, with the row lengths
      the constants name. */
  lemma RowsPartition(row: nat)
    ensures RowRange(0).0 == 0 && RowRange(0).1 == RowRange(1).0 && RowRange(1).1 == RowRange(2).0
    ensures RowRange(2).1 == NUM_LEDS
    ensures RowRange(0).1 - RowRange(0).0 == TOP_ROW && RowRange(1).1 - RowRange(1).0 == MID_ROW
    ensures RowRange(2).1 - RowRange(2).0 == BOT_ROW
    ensures row >= 2 ==> RowRange(row) == RowRange(2)
  {
  }

  /** `as u8` on an integer, and `u8` addition in a release build: the value modulo
      256. */
  function Wrap8(x: int): (r: u8)
  {
    x % 256
  }

  /** `i16` division, which rounds toward zero. */
  function TruncDiv(a: int, b: nat): int
    requires b > 0
  {
    if a >= 0 then a / b else -((-a) / b)
  }

  /** One channel of LED i of `from_gradient`:
      `(from + (delta * i / (NUM_LEDS - 1)) as u8) as u8` with `delta = to - from` in
      `i16`. */
  function GradientChannel(from: u8, to: u8, i: nat): (r: u8)
    ensures i == 0 ==> r == from
  {
    Wrap8(from + Wrap8(TruncDiv((to - from) * i, NUM_LEDS - 1)))
  }

  function GradientAt(from: Rgb8, to: Rgb8, i: nat): Rgb8
  {
    Rgb8(GradientChannel(from.r, to.r, i), GradientChannel(from.g, to.g, i), GradientChannel(from.b, to.b, i))
  }

  /** Along the strip, each channel of the gradient is the start plus the step rounded
      toward zero, without wrapping: it stays between the two end colours, starts at
      `from` and ends at `to`. */
  lemma GradientChannelExact(from: u8, to: u8, i: nat)
    requires i <= NUM_LEDS - 1
    ensures GradientChannel(from, to, i) == from + TruncDiv((to - from) * i, NUM_LEDS - 1)
    ensures from <= to ==> from <= GradientChannel(from, to, i) <= to
    ensures to <= from ==> to <= GradientChannel(from, to, i) <= from
    ensures i == 0 ==> GradientChannel(from, to, i) == from
    ensures i == NUM_LEDS - 1 ==> GradientChannel(from, to, i) == to
  {
    if from <= to {
      GradientUp(from, to, i);
    } else {
      GradientDown(from, to, i);
    }
  }

  lemma GradientUp(from: u8, to: u8, i: nat)
    requires i <= NUM_LEDS - 1 && from <= to
    ensures GradientChannel(from, to, i) == from + (to - from) * i / 22
    ensures 0 <= (to - from) * i / 22 <= to - from
    ensures i == 0 ==> (to - from) * i / 22 == 0
    ensures i == NUM_LEDS - 1 ==> (to - from) * i / 22 == to - from
  {
    var d: nat := to - from;
    Scale(d, i);
    var q := d * i / 22;
    assert TruncDiv(d * i, 22) == q;
    assert Wrap8(q) == q;
    assert Wrap8(from + q) == from + q;
  }

  lemma GradientDown(from: u8, to: u8, i: nat)
    requires i <= NUM_LEDS - 1 && to < from
    ensures GradientChannel(from, to, i) == from - (from - to) * i / 22
    ensures TruncDiv((to - from) * i, NUM_LEDS - 1) == -((from - to) * i / 22)
    ensures 0 <= (from - to) * i / 22 <= from - to
    ensures i == 0 ==> (from - to) * i / 22 == 0
    ensures i == NUM_LEDS - 1 ==> (from - to) * i / 22 == from - to
  {
    var e: nat := from - to;
    Scale(e, i);
    var q := e * i / 22;
    assert (to - from) * i == -(e * i);
    assert TruncDiv((to - from) * i, 22) == -q;
    if q > 0 {
      WrapNegative(from, q);
    } else {
      assert Wrap8(from + Wrap8(0)) == from;
    }
  }

  /** `(from + (-q) as u8) as u8` is `from - q` when q is at most `from`. */
  lemma WrapNegative(from: u8, q: int)
    requires 0 < q <= from
    ensures Wrap8(from + Wrap8(-q)) == from - q
  {
    DivUnique(-q, 256, -1, 256 - q);
    DivUnique(from + 256 - q, 256, 1, from - q);
  }

  /** For 0 <= d and i <= 22, `d * i / 22` lies in [0, d], is 0 at i = 0 and d at
      i = 22. */
  lemma Scale(d: nat, i: nat)
    requires i <= 22
    ensures 0 <= d * i / 22 <= d
    ensures i == 0 ==> d * i / 22 == 0
    ensures i == 22 ==> d * i / 22 == d
  {
    assert d * i <= d * 22;
    DivMonotone(d * i, d * 22);
    assert d * 22 / 22 == d;
  }

  lemma DivMonotone(a: nat, b: nat)
    requires a <= b
    ensures a / 22 <= b / 22
  {
    var qa, qb := a / 22, b / 22;
    assert qa * 22 <= a;
    assert b < qb * 22 + 22;
  }

  /** An LED is lit on every channel. */
  predicate AllLit(c: Rgb8)
  {
    c.r > 0 && c.g > 0 && c.b > 0
  }

  /** `is_off` as written: no LED has all three channels lit. */
  predicate OffAsWritten(leds: seq<Rgb8>)
    ensures Off(leds) ==> OffAsWritten(leds)
  {
    forall k :: 0 <= k < |leds| ==> !AllLit(leds[k])
  }

  /** `is_off` as intended: every LED is dark. */
  predicate Off(leds: seq<Rgb8>)
    ensures Off(leds) ==> forall k :: 0 <= k < |leds| ==> Brightness(leds[k]) == 0
  {
    forall k :: 0 <= k < |leds| ==> leds[k] == BLACK
  }

  /** As written, a strip lit all red counts as off, and so does the `rgb` pattern. */
  lemma OffAsWrittenRedStrip()
    ensures OffAsWritten(seq(NUM_LEDS, _ => Rgb8(PATTERN_LEVEL, 0, 0)))
    ensures !Off(seq(NUM_LEDS, _ => Rgb8(PATTERN_LEVEL, 0, 0)))
    ensures OffAsWritten(seq(NUM_LEDS, k requires 0 <= k => RgbPattern(k)))
  {
    var red := seq(NUM_LEDS, _ => Rgb8(PATTERN_LEVEL, 0, 0));
    assert red[0] != BLACK;
    forall k | 0 <= k < NUM_LEDS
      ensures !AllLit(RgbPattern(k))
    {
      RgbPatternShape(k);
    }
  }

  /** The corrected test holds exactly when no channel of any LED is lit, and it implies
      the written one. */
  lemma OffMeansDark(leds: seq<Rgb8>)
    ensures Off(leds) <==> forall k :: 0 <= k < |leds| ==> leds[k].r == 0 && leds[k].g == 0 && leds[k].b == 0
    ensures Off(leds) ==> OffAsWritten(leds)
  {
  }

  /** The brightness of one LED: `r + g + b` in `u8`. */
  function Brightness(c: Rgb8): (r: u8)
    ensures c.r + c.g + c.b < 256 ==> r == c.r + c.g + c.b
    ensures r == 0 ==> c.r + c.g + c.b in {0, 256, 512}
  {
    Wrap8(c.r + c.g + c.b)
  }

  /** Below 256 the sum does not wrap: an LED whose channels total at most 255 has that
      total as its brightness. The default LED has brightness 30. */
  lemma BrightnessSum(c: Rgb8)
    ensures var sum: int := c.r + c.g + c.b;
      Brightness(c) == if sum < 256 then sum else if sum < 512 then sum - 256 else sum - 512
    ensures Brightness(Rgb8(STEPS, STEPS, STEPS)) == 30
  {
  }

  class LightData {
    const leds: array<Rgb8>

    predicate Valid()
      reads this
    {
      leds.Length == NUM_LEDS
    }

    /** `empty`: every LED dark. */
    constructor Empty()
      ensures Valid() && fresh(leds)
      ensures forall k :: 0 <= k < NUM_LEDS ==> leds[k] == BLACK
    {
      leds := new Rgb8[NUM_LEDS](_ => BLACK);
    }

    /** `default`: every LED at (10, 10, 10). */
    constructor Default()
      ensures Valid() && fresh(leds)
      ensures forall k :: 0 <= k < NUM_LEDS ==> leds[k] == Rgb8(STEPS, STEPS, STEPS)
    {
      leds := new Rgb8[NUM_LEDS](_ => Rgb8(STEPS, STEPS, STEPS));
    }

    /** `From<[RGB8; NUM_LEDS]>`. */
    constructor From(data: seq<Rgb8>)
      requires |data| == NUM_LEDS
      ensures Valid() && fresh(leds) && leds[..] == data
    {
      leds := new Rgb8[NUM_LEDS](k requires 0 <= k < NUM_LEDS => data[k]);
    }

    /** `rgb`: from `empty`, blue on every third LED, then green on every third from 1,
        then red on every third from 2. */
    constructor Rgb()
      ensures Valid() && fresh(leds)
      ensures forall k :: 0 <= k < NUM_LEDS ==> leds[k] == RgbPattern(k)
    {
      leds := new Rgb8[NUM_LEDS](_ => BLACK);
      new;
      StepBy3(leds, 0, Blue);
      if NUM_LEDS > 1 {
        StepBy3(leds, 1, Green);
      }
      if NUM_LEDS > 2 {
        StepBy3(leds, 2, Red);
      }
    }

    /** `from_gradient`: LED i takes `GradientAt(from, to, i)`. */
    constructor FromGradient(from: Rgb8, to: Rgb8)
      ensures Valid() && fresh(leds)
      ensures forall k :: 0 <= k < NUM_LEDS ==> leds[k] == GradientAt(from, to, k)
    {
      leds := new Rgb8[NUM_LEDS](_ => BLACK);
      new;
      for i := 0 to NUM_LEDS
        invariant forall k :: 0 <= k < i ==> leds[k] == GradientAt(from, to, k)
      {
        leds[i] := GradientAt(from, to, i);
      }
    }

    /** `get_led`. */
    function Get(index: nat): (r: Rgb8)
      requires Valid() && index < NUM_LEDS
      reads this, leds
      ensures Off(leds[..]) ==> r == BLACK
    {
      leds[index]
    }

    /** `set_color`: LED `led` alone changes. */
    method SetColor(led: nat, color: Rgb8)
      requires Valid() && led < NUM_LEDS
      modifies leds
      ensures leds[..] == old(leds[..])[led := color]
    {
      leds[led] := color;
    }

    /** `set_red`, `set_green` and `set_blue`: one channel of one LED. */
    method SetChannel(index: nat, ch: Channel, v: u8)
      requires Valid() && index < NUM_LEDS
      modifies leds
      ensures leds[..] == old(leds[..])[index := WithChannel(old(leds[index]), ch, v)]
    {
      leds[index] := WithChannel(leds[index], ch, v);
    }

    method SetRed(index: nat, red: u8)
      requires Valid() && index < NUM_LEDS
      modifies leds
      ensures leds[..] == old(leds[..])[index := old(leds[index]).(r := red)]
    {
      SetChannel(index, Red, red);
    }

    method SetGreen(index: nat, green: u8)
      requires Valid() && index < NUM_LEDS
      modifies leds
      ensures leds[..] == old(leds[..])[index := old(leds[index]).(g := green)]
    {
      SetChannel(index, Green, green);
    }

    method SetBlue(index: nat, blue: u8)
      requires Valid() && index < NUM_LEDS
      modifies leds
      ensures leds[..] == old(leds[..])[index := old(leds[index]).(b := blue)]
    {
      SetChannel(index, Blue, blue);
    }

    /** `set_lightness(lightness, led)`: all three channels of one LED. */
    method SetLightness(lightness: u8, led: nat)
      requires Valid() && led < NUM_LEDS
      modifies leds
      ensures leds[..] == old(leds[..])[led := Rgb8(lightness, lightness, lightness)]
    {
      leds[led] := Rgb8(lightness, lightness, lightness);
    }

    /** `set_color_all`: every LED. */
    method SetColorAll(color: Rgb8)
      requires Valid()
      modifies leds
      ensures forall k :: 0 <= k < NUM_LEDS ==> leds[k] == color
    {
      for i := 0 to NUM_LEDS
        invariant forall k :: 0 <= k < i ==> leds[k] == color
      {
        SetColor(i, color);
      }
    }

    /** `set_red_all`, `set_green_all` and `set_blue_all`: one channel of every LED, the
        other channels as they were. */
    method SetChannelAll(ch: Channel, v: u8)
      requires Valid()
      modifies leds
      ensures forall k :: 0 <= k < NUM_LEDS ==> leds[k] == WithChannel(old(leds[k]), ch, v)
    {
      for i := 0 to NUM_LEDS
        invariant forall k :: 0 <= k < i ==> leds[k] == WithChannel(old(leds[k]), ch, v)
        invariant forall k :: i <= k < NUM_LEDS ==> leds[k] == old(leds[k])
      {
        SetChannel(i, ch, v);
      }
    }

    /** `set_lightness_all`: every LED grey at `lightness`. */
    method SetLightnessAll(lightness: u8)
      requires Valid()
      modifies leds
      ensures forall k :: 0 <= k < NUM_LEDS ==> leds[k] == Rgb8(lightness, lightness, lightness)
    {
      for led := 0 to leds.Length
        invariant forall k :: 0 <= k < led ==> leds[k] == Rgb8(lightness, lightness, lightness)
      {
        SetLightness(lightness, led);
      }
    }

    /** `edit_row`: the LEDs of the row take the colour, all others keep theirs. */
    method EditRow(row: nat, color: Rgb8)
      requires Valid()
      modifies leds
      ensures forall k :: 0 <= k < NUM_LEDS ==>
        leds[k] == if RowRange(row).0 <= k < RowRange(row).1 then color else old(leds[k])
    {
      var (lo, hi) := RowRange(row);
      for led := lo to hi
        invariant forall k :: 0 <= k < NUM_LEDS ==>
          leds[k] == if lo <= k < led then color else old(leds[k])
      {
        leds[led] := color;
      }
    }

    /** `is_off` as written: false as soon as an LED with all three channels lit is
        found. */
    method IsOffAsWritten() returns (r: bool)
      requires Valid()
      ensures r == OffAsWritten(leds[..])
    {
      for i := 0 to NUM_LEDS
        invariant forall k :: 0 <= k < i ==> !AllLit(leds[k])
      {
        if AllLit(leds[i]) {
          return false;
        }
      }
      return true;
    }

    /** `is_off` as intended: false as soon as any channel of any LED is lit. */
    method IsOff() returns (r: bool)
      requires Valid()
      ensures r == Off(leds[..])
    {
      for i := 0 to NUM_LEDS
        invariant forall k :: 0 <= k < i ==> leds[k] == BLACK
      {
        if leds[i] != BLACK {
          return false;
        }
      }
      return true;
    }

    /** `get_brightness`: the largest LED brightness; the strip is never empty, so the
        `unwrap` cannot fail. */
    method GetBrightness() returns (r: u8)
      requires Valid()
      ensures forall k :: 0 <= k < NUM_LEDS ==> Brightness(leds[k]) <= r
      ensures exists k :: 0 <= k < NUM_LEDS && Brightness(leds[k]) == r
    {
      r := Brightness(leds[0]);
      for i := 1 to NUM_LEDS
        invariant forall k :: 0 <= k < i ==> Brightness(leds[k]) <= r
        invariant exists k :: 0 <= k < i && Brightness(leds[k]) == r
      {
        if Brightness(leds[i]) > r {
          r := Brightness(leds[i]);
        }
      }
    }
  }

  /** `iter_mut().skip(start).step_by(3)` setting one channel to `PATTERN_LEVEL`: the
      LEDs `start`, `start + 3`, ... change, the others do not. */
  method StepBy3(a: array<Rgb8>, start: nat, ch: Channel)
    requires start < 3
    modifies a
    ensures forall k :: 0 <= k < a.Length ==>
      a[k] == if k % 3 == start then WithChannel(old(a[k]), ch, PATTERN_LEVEL) else old(a[k])
  {
    var i := start;
    while i < a.Length
      invariant i % 3 == start && start <= i <= a.Length + 2
      invariant forall k :: 0 <= k < a.Length ==>
        a[k] == if k < i && k % 3 == start then WithChannel(old(a[k]), ch, PATTERN_LEVEL) else old(a[k])
      decreases a.Length - i
    {
      a[i] := WithChannel(a[i], ch, PATTERN_LEVEL);
      i := i + 3;
    }
  }
}
