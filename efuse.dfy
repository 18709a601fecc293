/** The eFuse decodes of src/efuse.rs. The eFuse words and fields are read by the source
    from the EFUSE peripheral; here they are parameters. */
module Efuse {
  import opened Bits
  import opened RegisterWord

  datatype ChipType = ESP32_D0WDQ6 | ESP32_D0WDQ5 | ESP32_D2WDQ5 | ESP32_PICOD2 | ESP32_PICOD4
                    | Unknown

  /** `u32::to_be_bytes`: most significant byte first. */
  function BeBytes(w: u32): (r: seq<u8>)
    ensures |r| == 4
    ensures r[0] as int * 0x100_0000 + r[1] as int * 0x1_0000 + r[2] as int * 0x100 + r[3] as int == w
  {
    var rest0 := w % 0x100_0000;
    var rest1 := rest0 % 0x1_0000;
    var b0: u8 := w / 0x100_0000;
    var b1: u8 := rest0 / 0x1_0000;
    var b2: u8 := rest1 / 0x100;
    var b3: u8 := rest1 % 0x100;
    [b0, b1, b2, b3]
  }

  /** `get_mac_address`: the two low bytes of the high CRC word followed by the four bytes
      of the low word, big-endian. */
  function MacAddress(macLow: u32, macHigh: u32): (r: seq<u8>)
    ensures |r| == 6
    ensures r[..2] == BeBytes(macHigh)[2..] && r[2..] == BeBytes(macLow)
  {
    var lo, hi := BeBytes(macLow), BeBytes(macHigh);
    [hi[2], hi[3], lo[0], lo[1], lo[2], lo[3]]
  }

  /** The MAC address, read as a 48-bit big-endian number, is the low 16 bits of the high
      word above the 32 bits of the low word. */
  lemma MacAddressValue(macLow: u32, macHigh: u32)
    ensures var m := MacAddress(macLow, macHigh);
      m[0] as int * 0x100_0000_0000 + m[1] as int * 0x1_0000_0000 + m[2] as int * 0x100_0000
        + m[3] as int * 0x1_0000 + m[4] as int * 0x100 + m[5] as int
      == (macHigh % 0x1_0000) * 0x1_0000_0000 + macLow
  {
    var hi := BeBytes(macHigh);
    DivUnique(macHigh, 0x1_0000, hi[0] as int * 0x100 + hi[1] as int, hi[2] as int * 0x100 + hi[3] as int);
  }

  /** Positions of the `EFUSE_BLK0_RDATA3` fields the chip queries read, from the ESP32
      technical reference manual: `rd_chip_ver_dis_app_cpu` (bit 0), `rd_chip_ver_dis_bt`
      (bit 1), `rd_chip_ver_pkg` (bits 9 to 11), `rd_chip_cpu_freq_low` (bit 12) and
      `rd_chip_cpu_freq_rated` (bit 13). */
  const DIS_APP_CPU: nat := 0
  const DIS_BT: nat := 1
  const PKG: nat := 9
  const PKG_WIDTH: nat := 3
  const CPU_FREQ_LOW: nat := 12
  const CPU_FREQ_RATED: nat := 13

  /** `get_core_count` over the `blk0_rdata3` word: one core when the APP CPU is disabled,
      else two. */
  function CoreCount(rdata3: Word): (r: u32)
    ensures r == 1 <==> Field(rdata3, DIS_APP_CPU, 1) == 1
    ensures r == 1 || r == 2
  {
    if rdata3[DIS_APP_CPU] then 1 else 2
  }

  /** `get_max_cpu_fequency`, in Hertz: 160 MHz when the chip is rated and the rating is
      low, else 240 MHz. */
  function MaxCpuFrequency(rdata3: Word): (r: u32)
    ensures r == 160_000_000 <==> Field(rdata3, CPU_FREQ_RATED, 1) == 1 && Field(rdata3, CPU_FREQ_LOW, 1) == 1
    ensures r == 160_000_000 || r == 240_000_000
  {
    if rdata3[CPU_FREQ_RATED] && rdata3[CPU_FREQ_LOW] then 160_000_000 else 240_000_000
  }

  /** `is_bluetooth_enabled`: the disable bit clear. */
  function BluetoothEnabled(rdata3: Word): (r: bool)
    ensures r <==> Field(rdata3, DIS_BT, 1) == 0
  {
    !rdata3[DIS_BT]
  }

  /** `get_chip_type` over the `blk0_rdata3` word: the package field decoded. */
  function ChipTypeOfWord(rdata3: Word): (r: ChipType)
    ensures r == Unknown <==> Field(rdata3, PKG, PKG_WIDTH) in {3, 6, 7}
  {
    ChipTypeOf(Field(rdata3, PKG, PKG_WIDTH))
  }

  /** The four chip queries read disjoint fields: writing any one field of the word
      changes the answer of its own query alone, and sets it as the field says. */
  lemma ChipQueriesIndependent(w: Word, v: nat, b: bool)
    ensures var x := w[DIS_APP_CPU := b];
      CoreCount(x) == (if b then 1 else 2) && MaxCpuFrequency(x) == MaxCpuFrequency(w)
      && BluetoothEnabled(x) == BluetoothEnabled(w) && ChipTypeOfWord(x) == ChipTypeOfWord(w)
    ensures var x := w[DIS_BT := b];
      BluetoothEnabled(x) == !b && CoreCount(x) == CoreCount(w)
      && MaxCpuFrequency(x) == MaxCpuFrequency(w) && ChipTypeOfWord(x) == ChipTypeOfWord(w)
    ensures var x := w[CPU_FREQ_LOW := b];
      MaxCpuFrequency(x) == (if b && w[CPU_FREQ_RATED] then 160_000_000 else 240_000_000)
      && CoreCount(x) == CoreCount(w) && BluetoothEnabled(x) == BluetoothEnabled(w)
      && ChipTypeOfWord(x) == ChipTypeOfWord(w)
    ensures var x := WithField(w, PKG, PKG_WIDTH, v);
      ChipTypeOfWord(x) == ChipTypeOf(v % 8) && CoreCount(x) == CoreCount(w)
      && BluetoothEnabled(x) == BluetoothEnabled(w) && MaxCpuFrequency(x) == MaxCpuFrequency(w)
  {
    FieldAfterWrite(w, PKG, PKG_WIDTH, v);
    assert Pow2(PKG_WIDTH) == 8;
    FieldsOutside(w, w[DIS_APP_CPU := b]);
    FieldsOutside(w, w[DIS_BT := b]);
    FieldsOutside(w, w[CPU_FREQ_LOW := b]);
  }

  /** A word that agrees with another on bits 9 to 11 has the same package field. */
  lemma FieldsOutside(w: Word, x: Word)
    requires forall i :: PKG <= i < PKG + PKG_WIDTH ==> x[i] == w[i]
    ensures Field(x, PKG, PKG_WIDTH) == Field(w, PKG, PKG_WIDTH)
  {
    assert x[PKG..PKG + PKG_WIDTH] == w[PKG..PKG + PKG_WIDTH];
  }

  /** `get_chip_type` over the package field. */
  function ChipTypeOf(pkg: nat): (r: ChipType)
    ensures r == Unknown <==> pkg !in {0, 1, 2, 4, 5}
  {
    match pkg
    case 0 => ESP32_D0WDQ6
    case 1 => ESP32_D0WDQ5
    case 2 => ESP32_D2WDQ5
    case 4 => ESP32_PICOD2
    case 5 => ESP32_PICOD4
    case _ => Unknown
  }

  /** Package codes of the known chip types. */
  function PackageCode(t: ChipType): (r: nat)
    requires t != Unknown
  {
    match t
    case ESP32_D0WDQ6 => 0
    case ESP32_D0WDQ5 => 1
    case ESP32_D2WDQ5 => 2
    case ESP32_PICOD2 => 4
    case ESP32_PICOD4 => 5
  }

  /** Every known chip type is decoded from exactly one package code. */
  lemma ChipTypeCodes(t: ChipType, pkg: nat)
    requires t != Unknown
    ensures ChipTypeOf(pkg) == t <==> pkg == PackageCode(t)
  {
  }

  /** `get_adc_vref`, in millivolts: None for an unprogrammed field; otherwise 1100 mV
      moved by `offset` steps of 7 mV, down when the sign bit (bit 4) is set. */
  function AdcVref(calibration: u8): (r: Option<int>)
    ensures r.None? <==> calibration == 0
    ensures r.Some? && calibration < 0x20 ==> 995 <= r.value <= 1205
    ensures r.Some? ==> (r.value == 1100 + 7 * (calibration % 0x10)
                         || r.value == 1100 - 7 * (calibration % 0x10))
    ensures r.Some? && calibration / 0x10 == 0 ==> r.value >= 1100
    ensures r.Some? && calibration / 0x10 != 0 ==> r.value <= 1100
    ensures r.Some? ==> (r.value == 1100 <==> calibration % 0x10 == 0)
  {
    if calibration == 0 then None
    else
      var sign, offset := calibration / 0x10, calibration % 0x10;
      if sign == 0 then Some(1100 + offset * 7) else Some(1100 - offset * 7)
  }

  /** `from_twos_complement(value, bits)`: the low `bits - 1` bits, less `2^(bits - 1)` when
      bit `bits - 1` is set. Bits above are ignored. The source panics outside
      `1 <= bits <= 16` (`bits - 1` underflows, the u16 power overflows). */
  function FromTwosComplement(value: u16, bits: nat): (r: int)
    requires 1 <= bits <= 16
    ensures -Pow2(bits - 1) <= r < Pow2(bits - 1)
  {
    var half := Pow2(bits - 1);
    var complement := value % half;
    var sign := (value / half) % 2;
    if sign == 0 then complement else complement - half
  }

  /** `x` as a `bits`-wide two's complement field. */
  function ToTwosComplement(x: int, bits: nat): (r: u16)
    requires 1 <= bits <= 16
    requires -Pow2(bits - 1) <= x < Pow2(bits - 1)
    ensures r < Pow2(bits)
  {
    MaxPow2(bits);
    if x >= 0 then x else Pow2(bits) + x
  }

  lemma MaxPow2(bits: nat)
    requires bits <= 16
    ensures Pow2(bits) <= U16_LIMIT
    decreases 16 - bits
  {
    if bits < 16 {
      MaxPow2(bits + 1);
    } else {
      assert Pow2(2) == 4 && Pow2(4) == 16 && Pow2(6) == 64 && Pow2(8) == 256;
      assert Pow2(10) == 1024 && Pow2(12) == 4096 && Pow2(14) == 0x4000 && Pow2(16) == U16_LIMIT;
    }
  }

  /** The decode is the inverse of the encode: every value in range comes back. */
  lemma TwosComplementRoundTrip(x: int, bits: nat)
    requires 1 <= bits <= 16
    requires -Pow2(bits - 1) <= x < Pow2(bits - 1)
    ensures FromTwosComplement(ToTwosComplement(x, bits), bits) == x
  {
    var half := Pow2(bits - 1);
    var v := ToTwosComplement(x, bits);
    if x >= 0 {
      DivUnique(v, half, 0, x);
    } else {
      DivUnique(v, half, 1, half + x);
    }
  }

  /** Conversely, a field value decodes to the number it is congruent to modulo
      `2^bits`: the decode only reinterprets the bit pattern. */
  lemma TwosComplementCongruent(value: u16, bits: nat)
    requires 1 <= bits <= 16
    ensures value < Pow2(bits) ==> ToTwosComplement(FromTwosComplement(value, bits), bits) == value
  {
    var half := Pow2(bits - 1);
    assert Pow2(bits) == 2 * half;
    if value < half {
      DivUnique(value, half, 0, value);
    } else if value < 2 * half {
      DivUnique(value, half, 1, value - half);
    }
  }

  /** The shared two-point rule: None when either point is unprogrammed, else each base
      moved by the point's two's complement offset (7 and 9 bits) in steps of 4. */
  function TwoPointCal(lowBase: int, highBase: int, low: u16, high: u16): (r: Option<(int, int)>)
    ensures r.None? <==> low == 0 || high == 0
    ensures r.Some? ==> lowBase - 256 <= r.value.0 <= lowBase + 252
    ensures r.Some? ==> highBase - 1024 <= r.value.1 <= highBase + 1020
    ensures r.Some? ==> (r.value.0 - lowBase) % 4 == 0 && (r.value.1 - highBase) % 4 == 0
    ensures r.Some? && low < 0x80 && high < 0x200 ==>
      ToTwosComplement((r.value.0 - lowBase) / 4, 7) == low && ToTwosComplement((r.value.1 - highBase) / 4, 9) == high
  {
    assert Pow2(6) == 64 && Pow2(8) == 256;
    TwosComplementCongruent(low, 7);
    TwosComplementCongruent(high, 9);
    if low == 0 || high == 0 then None
    else Some((lowBase + FromTwosComplement(low, 7) * 4, highBase + FromTwosComplement(high, 9) * 4))
  }

  /** `get_adc1_two_point_cal`: bases 278 (150 mV) and 3265 (850 mV). */
  function Adc1TwoPointCal(low: u16, high: u16): (r: Option<(int, int)>)
    ensures r.None? <==> low == 0 || high == 0
    ensures r.Some? ==> 22 <= r.value.0 <= 530 && 2241 <= r.value.1 <= 4285
    ensures r.Some? && low < 0x80 && high < 0x200 ==>
      ToTwosComplement((r.value.0 - 278) / 4, 7) == low && ToTwosComplement((r.value.1 - 3265) / 4, 9) == high
    ensures r.Some? ==> (r.value.0 - 278) % 4 == 0 && (r.value.1 - 3265) % 4 == 0
  {
    assert Pow2(6) == 64 && Pow2(8) == 256;
    TwoPointCal(278, 3265, low, high)
  }

  /** `get_adc2_two_point_cal`: bases 421 and 3406. */
  function Adc2TwoPointCal(low: u16, high: u16): (r: Option<(int, int)>)
    ensures r.None? <==> low == 0 || high == 0
    ensures r.Some? ==> 165 <= r.value.0 <= 673 && 2382 <= r.value.1 <= 4426
    ensures r.Some? && low < 0x80 && high < 0x200 ==>
      ToTwosComplement((r.value.0 - 421) / 4, 7) == low && ToTwosComplement((r.value.1 - 3406) / 4, 9) == high
    ensures r.Some? ==> (r.value.0 - 421) % 4 == 0 && (r.value.1 - 3406) % 4 == 0
  {
    assert Pow2(6) == 64 && Pow2(8) == 256;
    TwoPointCal(421, 3406, low, high)
  }
}
