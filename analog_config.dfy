/** The configuration of the two analog-to-digital converters in src/analog/config.rs: a
    read-out resolution and an optional attenuation per channel, plus the hall sensor for
    ADC1. `PIN::channel()` is passed as the channel number. */
module AnalogConfig {
  import opened Bits

  /** `Resolution`, with the discriminants 0b00 to 0b11. */
  datatype Resolution = Resolution9Bit | Resolution10Bit | Resolution11Bit | Resolution12Bit

  /** `Attenuation`, with the discriminants 0b00 to 0b11. */
  datatype Attenuation = Attenuation0dB | Attenuation2p5dB | Attenuation6dB | Attenuation11dB

  /** `resolution as u8`. */
  function ResolutionBits(r: Resolution): (v: nat)
    ensures v < 4
  {
    match r
    case Resolution9Bit => 0
    case Resolution10Bit => 1
    case Resolution11Bit => 2
    case Resolution12Bit => 3
  }

  function ResolutionOf(v: nat): Option<Resolution>
  {
    if v == 0 then Some(Resolution9Bit)
    else if v == 1 then Some(Resolution10Bit)
    else if v == 2 then Some(Resolution11Bit)
    else if v == 3 then Some(Resolution12Bit)
    else None
  }

  /** `attenuation as u8`. */
  function AttenuationBits(a: Attenuation): (v: nat)
    ensures v < 4
  {
    match a
    case Attenuation0dB => 0
    case Attenuation2p5dB => 1
    case Attenuation6dB => 2
    case Attenuation11dB => 3
  }

  function AttenuationOf(v: nat): Option<Attenuation>
  {
    if v == 0 then Some(Attenuation0dB)
    else if v == 1 then Some(Attenuation2p5dB)
    else if v == 2 then Some(Attenuation6dB)
    else if v == 3 then Some(Attenuation11dB)
    else None
  }

  /** The two encodings use exactly the values 0 to 3, one per variant. */
  lemma Encodings(r: Resolution, a: Attenuation, v: nat)
    ensures ResolutionOf(ResolutionBits(r)) == Some(r) && AttenuationOf(AttenuationBits(a)) == Some(a)
    ensures ResolutionOf(v).Some? <==> v < 4
    ensures ResolutionOf(v).Some? ==> ResolutionBits(ResolutionOf(v).value) == v
    ensures AttenuationOf(v).Some? <==> v < 4
    ensures AttenuationOf(v).Some? ==> AttenuationBits(AttenuationOf(v).value) == v
  {
  }

  const CHANNELS: nat := 10

  /** `[Option<Attenuation>; 10]`, a value copied into the converter on setup. */
  type Attenuations = s: seq<Option<Attenuation>> | |s| == CHANNELS witness seq(10, _ => None)

  const NO_ATTENUATIONS: Attenuations := seq(CHANNELS, _ => None)

  /** `Adc1Config`. */
  class Adc1Config {
    var resolution: Resolution
    var hallSensor: bool
    var attenuations: Attenuations

    /** `new`: 12-bit resolution, no hall sensor, no channel enabled. */
    constructor()
      ensures resolution == Resolution12Bit && !hallSensor
      ensures forall c :: 0 <= c < CHANNELS ==> attenuations[c] == None
    {
      resolution := Resolution12Bit;
      hallSensor := false;
      attenuations := NO_ATTENUATIONS;
    }

    /** `enable_pin`: the channel gets the attenuation; every other channel and the other
        settings are unchanged. */
    method EnablePin(channel: nat, attenuation: Attenuation)
      requires channel < CHANNELS
      modifies this
      ensures attenuations == old(attenuations)[channel := Some(attenuation)]
      ensures resolution == old(resolution) && hallSensor == old(hallSensor)
    {
      attenuations := attenuations[channel := Some(attenuation)];
    }

    /** `enable_hall_sensor`: only the hall flag changes. */
    method EnableHallSensor()
      modifies this
      ensures hallSensor
      ensures resolution == old(resolution) && attenuations == old(attenuations)
    {
      hallSensor := true;
    }
  }

  /** `Adc2Config`: as `Adc1Config` without the hall sensor. */
  class Adc2Config {
    var resolution: Resolution
    var attenuations: Attenuations

    constructor()
      ensures resolution == Resolution12Bit
      ensures forall c :: 0 <= c < CHANNELS ==> attenuations[c] == None
    {
      resolution := Resolution12Bit;
      attenuations := NO_ATTENUATIONS;
    }

    method EnablePin(channel: nat, attenuation: Attenuation)
      requires channel < CHANNELS
      modifies this
      ensures attenuations == old(attenuations)[channel := Some(attenuation)]
      ensures resolution == old(resolution)
    {
      attenuations := attenuations[channel := Some(attenuation)];
    }
  }
}
