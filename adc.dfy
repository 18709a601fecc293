/** The analog-to-digital converters of src/analog/adc.rs: the register setup that hands
    both converters to the RTC controller, the per-channel attenuation field update, the
    pin-to-channel tables and the non-blocking one-shot read. The SENS and RTCIO registers
    a converter uses are the fields of `SarUnit`; the done bit and the conversion result
    are read from the hardware and are parameters of `Read`. */
module Adc {
  import opened Bits
  import opened RegisterWord
  import opened AnalogConfig

  datatype Unit = Adc1 | Adc2

  /** The channel tables: the pin on each channel, channel number as index. */
  const ADC1_PINS: seq<nat> := [36, 37, 38, 39, 33, 32, 34, 35]
  const ADC2_PINS: seq<nat> := [4, 0, 2, 15, 13, 12, 14, 27, 25, 26]

  function Pins(u: Unit): seq<nat>
  {
    match u
    case Adc1 => ADC1_PINS
    case Adc2 => ADC2_PINS
  }

  /** `<PIN as Channel<ADCx>>::channel()`: None for a pin the converter cannot read. */
  function ChannelOf(pins: seq<nat>, pin: nat): (r: Option<nat>)
    ensures r.Some? ==> r.value < |pins| && pins[r.value] == pin
    ensures r.None? ==> pin !in pins
  {
    if pins == [] then None
    else if pins[0] == pin then Some(0)
    else match ChannelOf(pins[1..], pin)
      case None => None
      case Some(c) => Some(c + 1)
  }

  predicate Distinct(pins: seq<nat>)
  {
    forall i, j :: 0 <= i < j < |pins| ==> pins[i] != pins[j]
  }

  /** In a table without repeated pins, a pin's channel is its position. */
  lemma {:induction false} ChannelOfPosition(pins: seq<nat>, c: nat)
    requires Distinct(pins) && c < |pins|
    ensures ChannelOf(pins, pins[c]) == Some(c)
  {
    if c > 0 {
      assert pins[1..][c - 1] == pins[c];
      ChannelOfPosition(pins[1..], c - 1);
    }
  }

  /** Neither table repeats a pin. */
  lemma TablesDistinct(u: Unit)
    ensures Distinct(Pins(u))
  {
    var p := Pins(u);
    forall i, j | 0 <= i < j < |p|
      ensures p[i] != p[j]
    {
      if u == Adc1 {
        assert p[i] in {36, 37, 38, 39, 33, 32, 34, 35};
      }
    }
  }

  /** Every channel a table gives fits the configuration's ten slots. */
  lemma ChannelFits(u: Unit, pin: nat)
    ensures |Pins(Adc1)| == 8 && |Pins(Adc2)| == CHANNELS
    ensures ChannelOf(Pins(u), pin).Some? ==> ChannelOf(Pins(u), pin).value < CHANNELS
  {
  }

  /** ADC1 reads eight pins on channels 0 to 7 and ADC2 ten pins on channels 0 to 9; each
      pin is on exactly one channel, its position in the table, and a pin outside the
      table has no channel. */
  lemma ChannelTables(u: Unit, c: nat, pin: nat)
    ensures c < |Pins(u)| ==> ChannelOf(Pins(u), Pins(u)[c]) == Some(c)
    ensures ChannelOf(Pins(u), pin).Some? <==> pin in Pins(u)
  {
    if c < |Pins(u)| {
      TablesDistinct(u);
      ChannelOfPosition(Pins(u), c);
    }
  }

  /** The two bits of channel c in an attenuation register. */
  function Slot(w: Word, c: nat): seq<bool>
    requires c < CHANNELS
  {
    w[2 * c..2 * c + 2]
  }

  /** Writing channel c's field changes that slot to the attenuation and leaves the other
      slots and bits 20 to 31 as they were. */
  lemma WriteSlot(w: Word, c: nat, v: nat)
    requires c < CHANNELS
    ensures Slot(WithField(w, 2 * c, 2, v), c) == BitsOf(v % 4, 2)
    ensures forall d :: 0 <= d < CHANNELS && d != c ==> Slot(WithField(w, 2 * c, 2, v), d) == Slot(w, d)
    ensures WithField(w, 2 * c, 2, v)[20..] == w[20..]
  {
    assert Pow2(2) == 4;
    var u := WithField(w, 2 * c, 2, v);
    FieldAfterWrite(w, 2 * c, 2, v);
    assert u[2 * c..2 * c + 2] == BitsOf(v % 4, 2);
    forall d | 0 <= d < CHANNELS && d != c
      ensures Slot(u, d) == Slot(w, d)
    {
      assert forall i :: 2 * d <= i < 2 * d + 2 ==> u[i] == w[i];
    }
  }

  /** The slot a configured channel's setup leaves behind. */
  function Configured(reg: Word, atts: Attenuations, c: nat): seq<bool>
    requires c < CHANNELS
  {
    if atts[c].Some? then BitsOf(AttenuationBits(atts[c].value), 2) else Slot(reg, c)
  }

  /** The attenuation loop of the setup: for each configured channel c, bits 2c and
      2c + 1 become `attenuation as u8 & 0b11`; unconfigured channels and bits 20 to 31
      keep their value. */
  method ApplyAttenuations(reg: Word, atts: Attenuations) returns (r: Word)
    ensures forall c :: 0 <= c < CHANNELS ==> Slot(r, c) == Configured(reg, atts, c)
    ensures r[20..] == reg[20..]
  {
    r := reg;
    for channel := 0 to CHANNELS
      invariant forall c :: 0 <= c < CHANNELS ==> Slot(r, c) == (if c < channel then Configured(reg, atts, c) else Slot(reg, c))
      invariant r[20..] == reg[20..]
    {
      if atts[channel].Some? {
        var bits := AttenuationBits(atts[channel].value);
        WriteSlot(r, channel, bits);
        DivUnique(bits, 4, 0, bits);
        r := WithField(r, 2 * channel, 2, bits);
      }
    }
  }

  /** Reading an attenuation field back: a configured channel holds its attenuation's
      discriminant. */
  lemma ConfiguredReadsBack(reg: Word, atts: Attenuations, c: nat)
    requires c < CHANNELS && atts[c].Some?
    ensures ValueOf(Configured(reg, atts, c)) == AttenuationBits(atts[c].value)
    ensures AttenuationOf(ValueOf(Configured(reg, atts, c))) == atts[c]
  {
    assert Pow2(2) == 4;
    ValueOfBits(AttenuationBits(atts[c].value), 2);
  }

  /** The controls the setup forces so that the RTC controller drives the converter:
      digital control off, start and pad enable forced, hall power and phase forced, the
      SAR powered on by software, the amplifier off with its waits set to 1. */
  datatype RtcControl = RtcControl(
    digForce: bool, startForce: bool, enPadForce: bool, xpdHallForce: bool, hallPhaseForce: bool,
    forceXpdSar: nat, forceXpdAmp: nat, ampRstFbFsm: nat, ampShortRefFsm: nat, ampShortRefGndFsm: nat,
    sarAmpWait1: nat, sarAmpWait2: nat, sarAmpWait3: nat)

  const RTC_CONTROL: RtcControl := RtcControl(false, true, true, true, true, 3, 2, 0, 0, 0, 1, 1, 1)

  /** The registers of one converter: its bit width and sample bits, its attenuation
      register, the forced controls, the pad enable field, the writes to its start bit
      (oldest first) and, for ADC1, the hall sensor power of RTCIO. */
  class SarUnit {
    var bitWidth: nat
    var sampleBit: nat
    var atten: Word
    var control: RtcControl
    var enPad: nat
    var startWrites: seq<bool>
    var xpdHall: bool

    constructor(atten: Word)
      ensures this.atten == atten && startWrites == []
    {
      this.atten := atten;
      startWrites := [];
    }
  }

  /** `impl_adc_setup!`: the resolution goes to the bit width and the sample bits, every
      configured channel's attenuation to its field, and the RTC controller takes the
      converter. */
  method Setup(sar: SarUnit, resolution: Resolution, atts: Attenuations)
    modifies sar
    ensures sar.bitWidth == ResolutionBits(resolution) && sar.sampleBit == ResolutionBits(resolution)
    ensures forall c :: 0 <= c < CHANNELS ==> Slot(sar.atten, c) == Configured(old(sar.atten), atts, c)
    ensures sar.atten[20..] == old(sar.atten)[20..]
    ensures sar.control == RTC_CONTROL
    ensures sar.enPad == old(sar.enPad) && sar.startWrites == old(sar.startWrites) && sar.xpdHall == old(sar.xpdHall)
  {
    sar.bitWidth := ResolutionBits(resolution);
    sar.sampleBit := ResolutionBits(resolution);
    sar.atten := ApplyAttenuations(sar.atten, atts);
    sar.control := RTC_CONTROL;
  }

  /** What one call of `read` does for the channel asked for, given the converter's
      active channel and the done bit. */
  datatype Step = Step(active: Option<nat>, started: bool, result: NbResult<u16>)

  function ReadStep(active: Option<nat>, channel: nat, done: bool, data: u16): (r: Step)
    ensures r.started <==> active.None?
    ensures r.result.Ready? <==> done && (active.None? || active.value == channel)
    ensures r.result.Ready? ==> r.result.value == data && r.active.None?
  {
    if active.Some? && active.value != channel then Step(active, false, WouldBlock)
    else if !done then Step(Some(channel), active.None?, WouldBlock)
    else Step(None, active.None?, Ready(data))
  }

  /** The protocol of `read`: only one conversion is in flight; a read for another channel
      blocks without starting anything; a conversion starts only when none is active; a
      read that blocks on the done bit keeps its channel active; and a result ends the
      conversion. A channel's read returns a value only if no other channel was active. */
  lemma ReadProtocol(active: Option<nat>, channel: nat, done: bool, data: u16)
    ensures var s := ReadStep(active, channel, done, data);
      s.started <==> active.None?
    ensures var s := ReadStep(active, channel, done, data);
      s.result.Ready? <==> (done && (active.None? || active == Some(channel)))
    ensures var s := ReadStep(active, channel, done, data);
      s.result.Ready? ==> s.active.None? && s.result.value == data
    ensures var s := ReadStep(active, channel, done, data);
      s.result.WouldBlock? ==> s.active.Some? && (active.Some? ==> s.active == active)
  {
  }

  /** Reads in sequence: the channel whose conversion is running, and the reads that
      returned a value with their channel. */
  datatype ReadCall = ReadCall(channel: nat, done: bool, data: u16)

  function Results(active: Option<nat>, calls: seq<ReadCall>): seq<(nat, u16)>
    decreases |calls|
  {
    if calls == [] then []
    else
      var s := ReadStep(active, calls[0].channel, calls[0].done, calls[0].data);
      (if s.result.Ready? then [(calls[0].channel, s.result.value)] else []) + Results(s.active, calls[1..])
  }

  /** While a conversion for channel c is running, calls for other channels produce
      nothing until a call for c returns; the first result is therefore c's. */
  lemma {:induction false} FirstResultIsActive(c: nat, calls: seq<ReadCall>)
    requires |Results(Some(c), calls)| > 0
    ensures Results(Some(c), calls)[0].0 == c
  {
    var s := ReadStep(Some(c), calls[0].channel, calls[0].done, calls[0].data);
    if !s.result.Ready? {
      assert s.active == Some(c);
      assert Results(Some(c), calls) == Results(Some(c), calls[1..]);
      FirstResultIsActive(c, calls[1..]);
    }
  }

  /** `ADC<ADCx>`: the configured attenuations and the channel whose conversion is in
      progress. */
  class Converter {
    const unit: Unit
    const sar: SarUnit
    var attenuations: Attenuations
    var activeChannel: Option<nat>

    /** `ADC::adc1`: the setup plus the hall sensor connected or not as configured; no
        conversion in progress. */
    constructor Adc1Setup(config: Adc1Config, sar: SarUnit)
      modifies sar
      ensures unit == Adc1 && this.sar == sar
      ensures attenuations == config.attenuations && activeChannel == None
      ensures sar.bitWidth == ResolutionBits(config.resolution) && sar.sampleBit == ResolutionBits(config.resolution)
      ensures forall c :: 0 <= c < CHANNELS ==> Slot(sar.atten, c) == Configured(old(sar.atten), config.attenuations, c)
      ensures sar.atten[20..] == old(sar.atten)[20..]
      ensures sar.enPad == old(sar.enPad) && sar.startWrites == old(sar.startWrites)
      ensures sar.control == RTC_CONTROL && sar.xpdHall == config.hallSensor
    {
      Setup(sar, config.resolution, config.attenuations);
      sar.xpdHall := config.hallSensor;
      unit := Adc1;
      this.sar := sar;
      attenuations := config.attenuations;
      activeChannel := None;
    }

    /** `ADC::adc2`: the setup; no conversion in progress. */
    constructor Adc2Setup(config: Adc2Config, sar: SarUnit)
      modifies sar
      ensures unit == Adc2 && this.sar == sar
      ensures attenuations == config.attenuations && activeChannel == None
      ensures sar.bitWidth == ResolutionBits(config.resolution) && sar.sampleBit == ResolutionBits(config.resolution)
      ensures forall c :: 0 <= c < CHANNELS ==> Slot(sar.atten, c) == Configured(old(sar.atten), config.attenuations, c)
      ensures sar.atten[20..] == old(sar.atten)[20..]
      ensures sar.enPad == old(sar.enPad) && sar.startWrites == old(sar.startWrites)
      ensures sar.control == RTC_CONTROL && sar.xpdHall == old(sar.xpdHall)
    {
      Setup(sar, config.resolution, config.attenuations);
      unit := Adc2;
      this.sar := sar;
      attenuations := config.attenuations;
      activeChannel := None;
    }

    /** `OneShot::read` for a pin of this converter's table. A pin whose channel has no
        attenuation panics. Otherwise the converter follows `ReadStep`; a conversion that
        starts enables only the channel's pad (`1 << channel`) and writes the start bit
        low and then high. */
    method Read(pin: nat, done: bool, data: u16) returns (r: NbResult<u16>)
      requires ChannelOf(Pins(unit), pin).Some?
      requires attenuations[ChannelOf(Pins(unit), pin).value].Some?
      modifies this, sar
      ensures var s := ReadStep(old(activeChannel), ChannelOf(Pins(unit), pin).value, done, data);
        && r == s.result && activeChannel == s.active
        && sar.enPad == (if s.started then Pow2(ChannelOf(Pins(unit), pin).value) else old(sar.enPad))
        && sar.startWrites == old(sar.startWrites) + (if s.started then [false, true] else [])
      ensures attenuations == old(attenuations)
      ensures sar.atten == old(sar.atten) && sar.control == old(sar.control) && sar.xpdHall == old(sar.xpdHall)
      ensures sar.bitWidth == old(sar.bitWidth) && sar.sampleBit == old(sar.sampleBit)
    {
      ChannelFits(unit, pin);
      var channel := ChannelOf(Pins(unit), pin).value;
      if activeChannel.Some? {
        if activeChannel.value != channel {
          return WouldBlock;
        }
      } else {
        activeChannel := Some(channel);
        sar.enPad := Pow2(channel);
        sar.startWrites := sar.startWrites + [false];
        sar.startWrites := sar.startWrites + [true];
      }
      if !done {
        return WouldBlock;
      }
      activeChannel := None;
      r := Ready(data);
    }
  }
}
