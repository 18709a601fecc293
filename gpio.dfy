/** The pin drivers of src/gpio/mod.rs. Each pin type of the `gpio!` invocation becomes a
    pin number: its bank and bit, whether it can drive an output, and whether it has an
    RTC pad. The registers the drivers use are the fields of `Peripherals`: the pad
    configuration of IO_MUX, the pad driver bits and the input and output selectors of
    the GPIO matrix, and the RTC pad controls of RTCIO. The set and clear registers are
    the stateless registers the source's comments call them: each write to them is
    appended to a log, and what they read back is a parameter. */
module Gpio {
  import opened Bits
  import opened RegisterWord
  import OutSel = GpioFuncOutSelCfg
  import InSel = GpioFuncInSelCfg

  const PIN_COUNT: nat := 40
  const SIGNAL_COUNT: nat := 256
  /** `OutputSignal::GPIO`: the output selector value that hands the pad to the GPIO
      output register. */
  const GPIO_SIGNAL: nat := 256
  /** The input selector values of `connect_low_to_peripheral` and
      `connect_high_to_peripheral`. */
  const CONSTANT_LOW: nat := 0x30
  const CONSTANT_HIGH: nat := 0x38

  /** The pins the `gpio!` invocation declares: 0 to 23, 25 to 27 and 32 to 39. */
  predicate IsPin(pin: nat)
  {
    pin <= 23 || 25 <= pin <= 27 || 32 <= pin <= 39
  }

  /** Pins declared `IO`; 34 to 39 are `Input` only. */
  predicate IsOutputPin(pin: nat)
  {
    IsPin(pin) && pin <= 33
  }

  /** The pins of `impl_analog!`, each with its RTC pad number (`$pin_num` there). */
  const RTC_PADS: map<nat, nat> := map[36 := 0, 37 := 1, 38 := 2, 39 := 3, 34 := 4, 35 := 5,
    25 := 6, 26 := 7, 33 := 8, 32 := 9, 4 := 10, 0 := 11, 2 := 12, 15 := 13, 13 := 14,
    12 := 15, 14 := 16, 27 := 17]

  /** The RTC pad of a pin, None for a pin without one. */
  function RtcPad(pin: nat): (r: Option<nat>)
    ensures r.Some? <==> pin in RTC_PADS
    ensures r.Some? ==> r.value == RTC_PADS[pin] < 18
  {
    if pin in RTC_PADS then Some(RTC_PADS[pin]) else None
  }

  /** The RTC pads with pull resistors (the `$rue, $rde` of `impl_analog!`): the RTC pins
      that can drive an output. */
  predicate HasRtcPull(pin: nat)
  {
    RtcPad(pin).Some? && pin <= 33
  }

  /** The analog pins are exactly the pins declared with `RTC`; every one is a pin, and
      the analog pins that can drive an output are the ones with pulls. */
  lemma RtcPads(pin: nat)
    ensures RtcPad(pin).Some? ==> IsPin(pin) && RtcPad(pin).value < 18
    ensures HasRtcPull(pin) <==> RtcPad(pin).Some? && IsOutputPin(pin)
  {
  }

  /** The pins by RTC pad number: each pad belongs to one pin, so no two pins share a
      pad. */
  const RTC_PINS: seq<nat> := [36, 37, 38, 39, 34, 35, 25, 26, 33, 32, 4, 0, 2, 15, 13, 12, 14, 27]

  lemma RtcPinOfPad(p: nat)
    requires RtcPad(p).Some?
    ensures RTC_PINS[RtcPad(p).value] == p
  {
  }

  lemma RtcPadsDistinct(p: nat, q: nat)
    requires RtcPad(p).Some? && RtcPad(q).Some? && p != q
    ensures RtcPad(p).value != RtcPad(q).value
  {
    RtcPinOfPad(p);
    RtcPinOfPad(q);
  }

  datatype Bank = Bank0 | Bank1

  /** `impl_input_wrap!` and `impl_output_wrap!`: pins 0 to 31 use the `enable`, `out`
      and `in` registers, pins 32 to 39 the `enable1`, `out1` and `in1` registers. */
  function BankOf(pin: nat): Bank
  {
    if pin < 32 then Bank0 else Bank1
  }

  /** `$pin_num % 32`. */
  function BitOf(pin: nat): nat
  {
    pin % 32
  }

  /** A pin is its bank's base plus its bit, and the bit exists in a 32-bit register. */
  lemma BankBit(pin: nat)
    requires IsPin(pin)
    ensures BitOf(pin) < WIDTH
    ensures BankOf(pin) == Bank0 ==> BitOf(pin) == pin
    ensures BankOf(pin) == Bank1 ==> BitOf(pin) == pin - 32 && BitOf(pin) < 8
  {
    if pin >= 32 {
      DivUnique(pin, 32, 1, pin - 32);
    } else {
      DivUnique(pin, 32, 0, pin);
    }
  }

  /** `AlternateFunction`: `FunctionN` has the discriminant N - 1, which `mcu_sel` takes. */
  datatype AlternateFunction = Function1 | Function2 | Function3 | Function4 | Function5 | Function6

  function AlternateNumber(af: AlternateFunction): nat
  {
    match af
    case Function1 => 1
    case Function2 => 2
    case Function3 => 3
    case Function4 => 4
    case Function5 => 5
    case Function6 => 6
  }

  function AlternateBits(af: AlternateFunction): (r: nat)
    ensures r == AlternateNumber(af) - 1
  {
    match af
    case Function1 => 0
    case Function2 => 1
    case Function3 => 2
    case Function4 => 3
    case Function5 => 4
    case Function6 => 5
  }

  /** `DriveStrength`, with the discriminants 0 to 3. */
  datatype DriveStrength = I5mA | I10mA | I20mA | I40mA

  function DriveBits(s: DriveStrength): (r: nat)
    ensures r < 4
  {
    match s
    case I5mA => 0
    case I10mA => 1
    case I20mA => 2
    case I40mA => 3
  }

  /** The IO_MUX register of a pad: function select, input enable, pull-down, pull-up,
      drive strength, sleep select, and the sleep-mode output enable, input enable,
      pull-up, pull-down and drive strength. */
  datatype IoMux = IoMux(
    mcuSel: nat, funIe: bool, funWpd: bool, funWpu: bool, funDrv: nat, slpSel: bool,
    mcuOe: bool, mcuIe: bool, mcuWpu: bool, mcuWpd: bool, mcuDrv: nat)

  /** What `init_output` writes to the pad: the alternate function, no input, no pulls,
      20 mA and no sleep select; the sleep-mode settings stay. */
  function OutputMux(m: IoMux, af: AlternateFunction): (r: IoMux)
    ensures r.mcuSel == AlternateNumber(af) - 1 && !r.funIe && !r.funWpd && !r.funWpu
  {
    m.(mcuSel := AlternateBits(af), funIe := false, funWpd := false, funWpu := false,
       funDrv := DriveBits(I20mA), slpSel := false)
  }

  /** What `init_input` writes to the pad: function 3 (the GPIO matrix), input enabled,
      the pulls asked for and no sleep select; the drive strength and the sleep-mode
      settings stay. */
  function InputMux(m: IoMux, pullDown: bool, pullUp: bool): (r: IoMux)
    ensures r.mcuSel == AlternateNumber(Function3) - 1 && r.funIe
    ensures r.funWpd == pullDown && r.funWpu == pullUp && r.funDrv == m.funDrv
  {
    m.(mcuSel := AlternateBits(Function3), funIe := true, funWpd := pullDown, funWpu := pullUp, slpSel := false)
  }

  /** The pad an output leaves: the alternate function's selector, the input and both
      pulls off and 20 mA; nothing of the sleep-mode configuration changes. */
  lemma OutputMuxPad(m: IoMux, af: AlternateFunction)
    ensures var r := OutputMux(m, af);
      && r.mcuSel == AlternateNumber(af) - 1 && !r.funIe && !r.funWpd && !r.funWpu && r.funDrv == 2
      && !r.slpSel
      && r.mcuOe == m.mcuOe && r.mcuIe == m.mcuIe && r.mcuWpu == m.mcuWpu && r.mcuWpd == m.mcuWpd
      && r.mcuDrv == m.mcuDrv
  {
  }

  /** The pad an input leaves: function 3, input on, the pull-down and pull-up exactly as
      asked; drive strength and sleep-mode configuration untouched. */
  lemma InputMuxPad(m: IoMux, pullDown: bool, pullUp: bool)
    ensures var r := InputMux(m, pullDown, pullUp);
      && r.mcuSel == 2 && r.funIe && (r.funWpd <==> pullDown) && (r.funWpu <==> pullUp) && !r.slpSel
      && r.funDrv == m.funDrv && r.mcuOe == m.mcuOe && r.mcuIe == m.mcuIe && r.mcuWpu == m.mcuWpu
      && r.mcuWpd == m.mcuWpd && r.mcuDrv == m.mcuDrv
  {
  }

  /** `into_pull_up_input` as written: it calls `init_input(false, false)`. */
  function PullUpInputMuxAsWritten(m: IoMux): (r: IoMux)
    ensures r.funIe && !r.funWpu && !r.funWpd
  {
    InputMux(m, false, false)
  }

  /** As written, a pull-up input has no pull-up: it is configured exactly as a floating
      input. */
  lemma PullUpInputAsWrittenFloats(m: IoMux)
    ensures !PullUpInputMuxAsWritten(m).funWpu && !PullUpInputMuxAsWritten(m).funWpd
    ensures PullUpInputMuxAsWritten(m) == InputMux(m, false, false)
  {
  }

  /** `into_pull_up_input` as intended: `init_input(false, true)`, the mirror of
      `into_pull_down_input`'s `init_input(true, false)`. */
  function PullUpInputMux(m: IoMux): (r: IoMux)
    ensures r.funIe && r.funWpu && !r.funWpd
  {
    InputMux(m, false, true)
  }

  /** The corrected pull-up input enables the pull-up and only it, and mirrors the
      pull-down input. */
  lemma PullUpInputPulls(m: IoMux)
    ensures PullUpInputMux(m).funWpu && !PullUpInputMux(m).funWpd
    ensures PullUpInputMux(m) == InputMux(m, false, true) && PullUpInputMux(m) != InputMux(m, true, false)
  {
  }

  /** The pin whose RTC input enable `into_analog` clears, as written: Gpio35's entry
      names `adc1_fun_ie`, the input enable of GPIO34's pad. */
  function AnalogInputEnablePinAsWritten(pin: nat): (r: nat)
    ensures r == pin <==> pin != 35
  {
    if pin == 35 then 34 else pin
  }

  /** As written, making Gpio35 analog leaves its own input enabled and disables GPIO34's
      input instead. */
  lemma AnalogInputEnableAsWrittenExample()
    ensures AnalogInputEnablePinAsWritten(35) == 34 && RtcPad(34).Some? && RtcPad(35).Some?
  {
  }

  /** As intended: every analog pin clears its own input enable. */
  function AnalogInputEnablePin(pin: nat): (r: nat)
    ensures r == pin
  {
    pin
  }

  /** The corrected table differs from the written one only for Gpio35. */
  lemma AnalogInputEnableTables(pin: nat)
    ensures AnalogInputEnablePin(pin) == AnalogInputEnablePinAsWritten(pin) <==> pin != 35
  {
  }

  /** The alternate function `connect_*_with_options` picks: Function3 (the GPIO matrix)
      when forced, else the pin's entry for the signal, Function3 if it has none. The
      pin's table is a map from signal numbers. */
  function AlternateFor(table: map<nat, AlternateFunction>, signal: nat, force: bool): AlternateFunction
  {
    if force then Function3 else if signal in table then table[signal] else Function3
  }

  /** `connect_peripheral_to_output_with_options`: None where it panics, else the
      alternate function and the signal clipped to 256 for the output selector. */
  function OutputRoute(table: map<nat, AlternateFunction>, signal: nat, force: bool): (r: Option<(AlternateFunction, nat)>)
    ensures r.Some? ==> r.value.0 == AlternateFor(table, signal, force) && r.value.1 <= 256
    ensures r.Some? && r.value.0 == Function3 ==> r.value.1 == signal
  {
    var af := AlternateFor(table, signal, force);
    if af == Function3 && signal > 256 then None
    else Some((af, if signal <= 256 then signal else 256))
  }

  /** Output routing panics exactly when the GPIO matrix is chosen for a signal above
      256. Otherwise the selector fits the 9-bit field, a signal routed through the matrix
      is written unclipped, and only a signal the IO_MUX carries directly is clipped to
      256. A forced route always uses the matrix. */
  lemma OutputRouting(table: map<nat, AlternateFunction>, signal: nat, force: bool)
    ensures OutputRoute(table, signal, force).None? <==> AlternateFor(table, signal, force) == Function3 && signal > 256
    ensures OutputRoute(table, signal, force).Some? ==> var (af, sel) := OutputRoute(table, signal, force).value;
      && af == AlternateFor(table, signal, force) && sel <= 256 && sel < 512
      && (af == Function3 ==> sel == signal)
      && (sel != signal ==> af != Function3 && signal > 256 && sel == 256)
    ensures force ==> AlternateFor(table, signal, force) == Function3
    ensures !force && signal in table ==> AlternateFor(table, signal, force) == table[signal]
  {
  }

  /** `connect_input_to_peripheral_with_options`: None where it panics, else the
      alternate function and whether the signal's input selector is written. */
  function InputRoute(table: map<nat, AlternateFunction>, signal: nat, force: bool): (r: Option<(AlternateFunction, bool)>)
    ensures r.None? <==> AlternateFor(table, signal, force) == Function3 && signal > 256
    ensures r.Some? ==> (r.value.1 <==> signal < 256)
  {
    var af := AlternateFor(table, signal, force);
    if af == Function3 && signal > 256 then None else Some((af, signal < 256))
  }

  /** Input routing panics under the same condition as output routing and writes a
      selector only for signals below 256; signal 256 through the matrix neither panics
      nor writes anything. */
  lemma InputRouting(table: map<nat, AlternateFunction>, signal: nat, force: bool)
    ensures InputRoute(table, signal, force).None? <==> OutputRoute(table, signal, force).None?
    ensures InputRoute(table, signal, force).Some? ==>
      (InputRoute(table, signal, force).value.1 <==> signal < SIGNAL_COUNT)
    ensures signal == 256 && force ==> InputRoute(table, signal, force) == Some((Function3, false))
  {
  }

  /** A write to one of the stateless registers: the set and clear registers of the GPIO
      outputs and output enables of a bank, or the output-enable clear field of RTCIO. */
  datatype Target = OutSet | OutClear | EnableSet | EnableClear

  datatype StatelessWrite =
    | GpioWrite(target: Target, bank: Bank, mask: Word)
    | RtcEnableClear(field: nat)

  /** The write of `1 << $bit` to a register of the pin's bank. */
  function PinWrite(target: Target, pin: nat): StatelessWrite
    requires IsPin(pin)
  {
    BankBit(pin);
    GpioWrite(target, BankOf(pin), Mask(BitOf(pin)))
  }

  /** Each pin's write sets exactly its own bit of its own bank, so no two pins share a
      write. */
  lemma PinWritesDistinct(target: Target, p: nat, q: nat)
    requires IsPin(p) && IsPin(q) && p != q
    ensures PinWrite(target, p) != PinWrite(target, q)
    ensures PinWrite(target, p).mask[BitOf(p)]
  {
    BankBit(p);
    BankBit(q);
    if BankOf(p) == BankOf(q) {
      assert BitOf(p) != BitOf(q);
      assert PinWrite(target, p).mask[BitOf(p)] != PinWrite(target, q).mask[BitOf(p)];
    }
  }

  type PadFlags = s: seq<bool> | |s| == PIN_COUNT witness seq(40, _ => false)
  type PadNumbers = s: seq<nat> | |s| == PIN_COUNT witness seq(40, _ => 0)
  type PadMuxes = s: seq<IoMux> | |s| == PIN_COUNT witness seq(40, _ => IoMux(0, false, false, false, 0, false, false, false, false, false, 0))
  type OutSelectors = s: seq<Word> | |s| == PIN_COUNT witness seq(40, _ => RESET)
  type InSelectors = s: seq<Word> | |s| == SIGNAL_COUNT witness seq(256, _ => RESET)
  type RtcPadFlags = s: seq<bool> | |s| == 18 witness seq(18, _ => false)

  /** The GPIO matrix registers that keep their value: each pad's driver (`pin[n]`
      `pad_driver`, true for open drain), its output selector and every peripheral
      input's selector. */
  datatype Matrix = Matrix(padDriver: PadFlags, funcOutSel: OutSelectors, funcInSel: InSelectors)

  /** The RTCIO controls, per GPIO pin (mux select, function select, input enable,
      pull-up, pull-down) and per RTC pad (pad driver). */
  datatype RtcIo = RtcIo(muxSel: PadFlags, funSel: PadNumbers, funIe: PadFlags, pullUp: PadFlags,
                         pullDown: PadFlags, padDriver: RtcPadFlags)

  /** The registers of GPIO, IO_MUX and RTCIO the pin drivers use. */
  class Peripherals {
    var writes: seq<StatelessWrite>
    var matrix: Matrix
    var ioMux: PadMuxes
    var rtc: RtcIo

    constructor(matrix: Matrix, ioMux: PadMuxes, rtc: RtcIo)
      ensures this.matrix == matrix && this.ioMux == ioMux && this.rtc == rtc && writes == []
    {
      this.matrix := matrix;
      this.ioMux := ioMux;
      this.rtc := rtc;
      writes := [];
    }

    /** `disable_analog`: an RTC pin's pad goes back to the digital mux; on the other pins
        it does nothing. */
    method DisableAnalog(pin: nat)
      requires IsPin(pin)
      modifies this
      ensures rtc == if RtcPad(pin).Some? then old(rtc).(muxSel := old(rtc).muxSel[pin := false]) else old(rtc)
      ensures writes == old(writes) && matrix == old(matrix) && ioMux == old(ioMux)
    {
      if RtcPad(pin).Some? {
        rtc := rtc.(muxSel := rtc.muxSel[pin := false]);
      }
    }

    /** `init_output`: the pad leaves analog mode, its output is enabled (a write of its
        bit to the bank's enable set register), its driver is open drain as asked, its
        output selector's signal becomes the GPIO output, and IO_MUX gets `OutputMux`. */
    method InitOutput(pin: nat, alternate: AlternateFunction, openDrain: bool)
      requires IsOutputPin(pin)
      modifies this
      ensures writes == old(writes) + [PinWrite(EnableSet, pin)]
      ensures matrix == old(matrix).(padDriver := old(matrix).padDriver[pin := openDrain],
                                     funcOutSel := old(matrix).funcOutSel[pin := GpioSelector(old(matrix).funcOutSel[pin])])
      ensures ioMux == old(ioMux)[pin := OutputMux(old(ioMux)[pin], alternate)]
      ensures rtc == if RtcPad(pin).Some? then old(rtc).(muxSel := old(rtc).muxSel[pin := false]) else old(rtc)
    {
      DisableAnalog(pin);
      writes := writes + [PinWrite(EnableSet, pin)];
      matrix := matrix.(padDriver := matrix.padDriver[pin := openDrain],
                        funcOutSel := matrix.funcOutSel[pin := GpioSelector(matrix.funcOutSel[pin])]);
      ioMux := ioMux[pin := OutputMux(ioMux[pin], alternate)];
    }

    /** `init_input`: the pad leaves analog mode, its output is disabled (a write of its
        bit to the bank's enable clear register), its output selector's signal becomes the
        GPIO output, and IO_MUX gets `InputMux` with the pulls asked for. */
    method InitInput(pin: nat, pullDown: bool, pullUp: bool)
      requires IsPin(pin)
      modifies this
      ensures writes == old(writes) + [PinWrite(EnableClear, pin)]
      ensures matrix == old(matrix).(funcOutSel := old(matrix).funcOutSel[pin := GpioSelector(old(matrix).funcOutSel[pin])])
      ensures ioMux == old(ioMux)[pin := InputMux(old(ioMux)[pin], pullDown, pullUp)]
      ensures rtc == if RtcPad(pin).Some? then old(rtc).(muxSel := old(rtc).muxSel[pin := false]) else old(rtc)
    {
      DisableAnalog(pin);
      writes := writes + [PinWrite(EnableClear, pin)];
      matrix := matrix.(funcOutSel := matrix.funcOutSel[pin := GpioSelector(matrix.funcOutSel[pin])]);
      ioMux := ioMux[pin := InputMux(ioMux[pin], pullDown, pullUp)];
    }

    /** `into_floating_input` and `set_to_input`: an input with no pulls. */
    method IntoFloatingInput(pin: nat)
      requires IsPin(pin)
      modifies this
      ensures writes == old(writes) + [PinWrite(EnableClear, pin)]
      ensures ioMux == old(ioMux)[pin := InputMux(old(ioMux)[pin], false, false)]
      ensures matrix == old(matrix).(funcOutSel := old(matrix).funcOutSel[pin := GpioSelector(old(matrix).funcOutSel[pin])])
      ensures rtc == if RtcPad(pin).Some? then old(rtc).(muxSel := old(rtc).muxSel[pin := false]) else old(rtc)
    {
      InitInput(pin, false, false);
    }

    /** `into_pull_up_input` as written: no pull is enabled. */
    method IntoPullUpInputAsWritten(pin: nat)
      requires IsOutputPin(pin)
      modifies this
      ensures writes == old(writes) + [PinWrite(EnableClear, pin)]
      ensures ioMux == old(ioMux)[pin := PullUpInputMuxAsWritten(old(ioMux)[pin])]
      ensures !ioMux[pin].funWpu
      ensures matrix == old(matrix).(funcOutSel := old(matrix).funcOutSel[pin := GpioSelector(old(matrix).funcOutSel[pin])])
      ensures rtc == if RtcPad(pin).Some? then old(rtc).(muxSel := old(rtc).muxSel[pin := false]) else old(rtc)
    {
      InitInput(pin, false, false);
    }

    /** `into_pull_up_input` as intended: the pull-up is enabled. */
    method IntoPullUpInput(pin: nat)
      requires IsOutputPin(pin)
      modifies this
      ensures writes == old(writes) + [PinWrite(EnableClear, pin)]
      ensures ioMux == old(ioMux)[pin := PullUpInputMux(old(ioMux)[pin])]
      ensures ioMux[pin].funWpu && !ioMux[pin].funWpd
      ensures matrix == old(matrix).(funcOutSel := old(matrix).funcOutSel[pin := GpioSelector(old(matrix).funcOutSel[pin])])
      ensures rtc == if RtcPad(pin).Some? then old(rtc).(muxSel := old(rtc).muxSel[pin := false]) else old(rtc)
    {
      InitInput(pin, false, true);
    }

    /** `into_pull_down_input`: the pull-down is enabled and the pull-up is not. */
    method IntoPullDownInput(pin: nat)
      requires IsOutputPin(pin)
      modifies this
      ensures writes == old(writes) + [PinWrite(EnableClear, pin)]
      ensures ioMux == old(ioMux)[pin := InputMux(old(ioMux)[pin], true, false)]
      ensures ioMux[pin].funWpd && !ioMux[pin].funWpu
      ensures matrix == old(matrix).(funcOutSel := old(matrix).funcOutSel[pin := GpioSelector(old(matrix).funcOutSel[pin])])
      ensures rtc == if RtcPad(pin).Some? then old(rtc).(muxSel := old(rtc).muxSel[pin := false]) else old(rtc)
    {
      InitInput(pin, true, false);
    }

    /** `into_push_pull_output` and `set_to_push_pull_output`: Function3, not open drain. */
    method IntoPushPullOutput(pin: nat)
      requires IsOutputPin(pin)
      modifies this
      ensures writes == old(writes) + [PinWrite(EnableSet, pin)]
      ensures matrix == old(matrix).(padDriver := old(matrix).padDriver[pin := false],
                                     funcOutSel := old(matrix).funcOutSel[pin := GpioSelector(old(matrix).funcOutSel[pin])])
      ensures ioMux == old(ioMux)[pin := OutputMux(old(ioMux)[pin], Function3)]
      ensures rtc == if RtcPad(pin).Some? then old(rtc).(muxSel := old(rtc).muxSel[pin := false]) else old(rtc)
    {
      InitOutput(pin, Function3, false);
    }

    /** `into_open_drain_output` and `set_to_open_drain_output`: Function3, open drain. */
    method IntoOpenDrainOutput(pin: nat)
      requires IsOutputPin(pin)
      modifies this
      ensures writes == old(writes) + [PinWrite(EnableSet, pin)]
      ensures matrix == old(matrix).(padDriver := old(matrix).padDriver[pin := true],
                                     funcOutSel := old(matrix).funcOutSel[pin := GpioSelector(old(matrix).funcOutSel[pin])])
      ensures ioMux == old(ioMux)[pin := OutputMux(old(ioMux)[pin], Function3)]
      ensures rtc == if RtcPad(pin).Some? then old(rtc).(muxSel := old(rtc).muxSel[pin := false]) else old(rtc)
    {
      InitOutput(pin, Function3, true);
    }

    /** `into_alternate_1`, `_2`, `_4`, `_5` and `_6`: FunctionN, not open drain. */
    method IntoAlternate(pin: nat, af: AlternateFunction)
      requires IsOutputPin(pin) && af != Function3
      modifies this
      ensures writes == old(writes) + [PinWrite(EnableSet, pin)]
      ensures matrix == old(matrix).(padDriver := old(matrix).padDriver[pin := false],
                                     funcOutSel := old(matrix).funcOutSel[pin := GpioSelector(old(matrix).funcOutSel[pin])])
      ensures ioMux == old(ioMux)[pin := OutputMux(old(ioMux)[pin], af)]
      ensures ioMux[pin].mcuSel == AlternateNumber(af) - 1
      ensures rtc == if RtcPad(pin).Some? then old(rtc).(muxSel := old(rtc).muxSel[pin := false]) else old(rtc)
    {
      InitOutput(pin, af, false);
    }

    /** `into_analog` with the pin whose input enable it clears: the pad goes to the RTC
        mux with RTC function 1, a normal RTC pad driver and its RTC output disabled
        (`1 << $pin_num` to the RTCIO enable clear field); the named input enable and,
        where the pad has them, both pulls are cleared. */
    method IntoAnalogWith(pin: nat, inputEnablePin: nat)
      requires RtcPad(pin).Some? && inputEnablePin < PIN_COUNT
      modifies this
      ensures writes == old(writes) + [RtcEnableClear(Pow2(RtcPad(pin).value))]
      ensures rtc.muxSel == old(rtc.muxSel)[pin := true] && rtc.funSel == old(rtc.funSel)[pin := 0]
      ensures rtc.padDriver == old(rtc.padDriver)[RtcPad(pin).value := false]
      ensures rtc.funIe == old(rtc.funIe)[inputEnablePin := false]
      ensures rtc.pullUp == if HasRtcPull(pin) then old(rtc.pullUp)[pin := false] else old(rtc.pullUp)
      ensures rtc.pullDown == if HasRtcPull(pin) then old(rtc.pullDown)[pin := false] else old(rtc.pullDown)
      ensures matrix == old(matrix) && ioMux == old(ioMux)
    {
      var pad := RtcPad(pin).value;
      rtc := rtc.(muxSel := rtc.muxSel[pin := true], funSel := rtc.funSel[pin := 0],
                  padDriver := rtc.padDriver[pad := false], funIe := rtc.funIe[inputEnablePin := false]);
      writes := writes + [RtcEnableClear(Pow2(pad))];
      if HasRtcPull(pin) {
        ClearRtcPulls(pin);
      }
    }

    /** Both RTC pulls of a pad off. */
    method ClearRtcPulls(pin: nat)
      requires pin < PIN_COUNT
      modifies this
      ensures rtc == old(rtc).(pullUp := old(rtc).pullUp[pin := false], pullDown := old(rtc).pullDown[pin := false])
      ensures writes == old(writes) && matrix == old(matrix) && ioMux == old(ioMux)
    {
      rtc := rtc.(pullUp := rtc.pullUp[pin := false], pullDown := rtc.pullDown[pin := false]);
    }

    /** `into_analog` as written: Gpio35 clears GPIO34's input enable. */
    method IntoAnalogAsWritten(pin: nat)
      requires RtcPad(pin).Some?
      modifies this
      ensures rtc.funIe == old(rtc.funIe)[AnalogInputEnablePinAsWritten(pin) := false]
      ensures writes == old(writes) + [RtcEnableClear(Pow2(RtcPad(pin).value))]
      ensures rtc.muxSel == old(rtc.muxSel)[pin := true] && rtc.funSel == old(rtc.funSel)[pin := 0]
      ensures rtc.padDriver == old(rtc.padDriver)[RtcPad(pin).value := false]
      ensures rtc.pullUp == if HasRtcPull(pin) then old(rtc.pullUp)[pin := false] else old(rtc.pullUp)
      ensures rtc.pullDown == if HasRtcPull(pin) then old(rtc.pullDown)[pin := false] else old(rtc.pullDown)
      ensures matrix == old(matrix) && ioMux == old(ioMux)
    {
      IntoAnalogWith(pin, AnalogInputEnablePinAsWritten(pin));
    }

    /** `into_analog` as intended: every pin clears its own input enable. */
    method IntoAnalog(pin: nat)
      requires RtcPad(pin).Some?
      modifies this
      ensures rtc.funIe == old(rtc.funIe)[pin := false]
      ensures writes == old(writes) + [RtcEnableClear(Pow2(RtcPad(pin).value))]
      ensures rtc.muxSel == old(rtc.muxSel)[pin := true] && rtc.funSel == old(rtc.funSel)[pin := 0]
      ensures rtc.padDriver == old(rtc.padDriver)[RtcPad(pin).value := false]
      ensures rtc.pullUp == if HasRtcPull(pin) then old(rtc.pullUp)[pin := false] else old(rtc.pullUp)
      ensures rtc.pullDown == if HasRtcPull(pin) then old(rtc.pullDown)[pin := false] else old(rtc.pullDown)
      ensures matrix == old(matrix) && ioMux == old(ioMux)
    {
      IntoAnalogWith(pin, AnalogInputEnablePin(pin));
    }

    /** `set_high` and `set_low` of `OutputPin`: the pin's bit to the bank's output set or
        clear register. */
    method SetHigh(pin: nat)
      requires IsOutputPin(pin)
      modifies this
      ensures writes == old(writes) + [PinWrite(OutSet, pin)]
      ensures matrix == old(matrix) && ioMux == old(ioMux) && rtc == old(rtc)
    {
      writes := writes + [PinWrite(OutSet, pin)];
    }

    method SetLow(pin: nat)
      requires IsOutputPin(pin)
      modifies this
      ensures writes == old(writes) + [PinWrite(OutClear, pin)]
      ensures matrix == old(matrix) && ioMux == old(ioMux) && rtc == old(rtc)
    {
      writes := writes + [PinWrite(OutClear, pin)];
    }

    /** `toggle`: `set_low` exactly when `is_set_high` reads the pin's bit of the bank's
        output set register as set, else `set_high`. */
    method Toggle(pin: nat, outsRead: Word)
      requires IsOutputPin(pin)
      modifies this
      ensures writes == old(writes) + [PinWrite(if IsSetHigh(pin, outsRead) then OutClear else OutSet, pin)]
      ensures matrix == old(matrix) && ioMux == old(ioMux) && rtc == old(rtc)
    {
      if IsSetHigh(pin, outsRead) {
        SetLow(pin);
      } else {
        SetHigh(pin);
      }
    }

    /** `enable_output`: the pin's bit to the bank's enable set or clear register. */
    method EnableOutput(pin: nat, on: bool)
      requires IsOutputPin(pin)
      modifies this
      ensures writes == old(writes) + [PinWrite(if on then EnableSet else EnableClear, pin)]
      ensures matrix == old(matrix) && ioMux == old(ioMux) && rtc == old(rtc)
    {
      writes := writes + [PinWrite(if on then EnableSet else EnableClear, pin)];
    }

    /** `set_output_high`: `set_high` or `set_low`. */
    method SetOutputHigh(pin: nat, high: bool)
      requires IsOutputPin(pin)
      modifies this
      ensures writes == old(writes) + [PinWrite(if high then OutSet else OutClear, pin)]
      ensures matrix == old(matrix) && ioMux == old(ioMux) && rtc == old(rtc)
    {
      if high {
        SetHigh(pin);
      } else {
        SetLow(pin);
      }
    }

    /** `enable_open_drain`: only the pad driver bit changes. */
    method EnableOpenDrain(pin: nat, on: bool)
      requires IsOutputPin(pin)
      modifies this
      ensures matrix == old(matrix).(padDriver := old(matrix).padDriver[pin := on])
      ensures writes == old(writes) && ioMux == old(ioMux) && rtc == old(rtc)
    {
      matrix := matrix.(padDriver := matrix.padDriver[pin := on]);
    }

    /** The IO_MUX setters that change one field of one pad: `set_drive_strength`,
        `enable_input`, `sleep_mode`, `set_alternate_function` and the sleep-mode
        `set_drive_strength_in_sleep_mode`, `enable_output_in_sleep_mode`,
        `enable_input_in_sleep_mode`, `internal_pull_up_in_sleep_mode` and
        `internal_pull_down_in_sleep_mode`. The new pad is `m`, which differs from the old
        one in that field alone. */
    method SetPad(pin: nat, m: IoMux)
      requires IsPin(pin)
      modifies this
      ensures ioMux == old(ioMux)[pin := m]
      ensures writes == old(writes) && matrix == old(matrix) && rtc == old(rtc)
    {
      ioMux := ioMux[pin := m];
    }

    method SetDriveStrength(pin: nat, strength: DriveStrength)
      requires IsOutputPin(pin)
      modifies this
      ensures ioMux == old(ioMux)[pin := old(ioMux)[pin].(funDrv := DriveBits(strength))]
      ensures writes == old(writes) && matrix == old(matrix) && rtc == old(rtc)
    {
      SetPad(pin, ioMux[pin].(funDrv := DriveBits(strength)));
    }

    method SetDriveStrengthInSleepMode(pin: nat, strength: DriveStrength)
      requires IsOutputPin(pin)
      modifies this
      ensures ioMux == old(ioMux)[pin := old(ioMux)[pin].(mcuDrv := DriveBits(strength))]
      ensures writes == old(writes) && matrix == old(matrix) && rtc == old(rtc)
    {
      SetPad(pin, ioMux[pin].(mcuDrv := DriveBits(strength)));
    }

    method EnableOutputInSleepMode(pin: nat, on: bool)
      requires IsOutputPin(pin)
      modifies this
      ensures ioMux == old(ioMux)[pin := old(ioMux)[pin].(mcuOe := on)]
      ensures writes == old(writes) && matrix == old(matrix) && rtc == old(rtc)
    {
      SetPad(pin, ioMux[pin].(mcuOe := on));
    }

    method InternalPullUpInSleepMode(pin: nat, on: bool)
      requires IsOutputPin(pin)
      modifies this
      ensures ioMux == old(ioMux)[pin := old(ioMux)[pin].(mcuWpu := on)]
      ensures writes == old(writes) && matrix == old(matrix) && rtc == old(rtc)
    {
      SetPad(pin, ioMux[pin].(mcuWpu := on));
    }

    method InternalPullDownInSleepMode(pin: nat, on: bool)
      requires IsOutputPin(pin)
      modifies this
      ensures ioMux == old(ioMux)[pin := old(ioMux)[pin].(mcuWpd := on)]
      ensures writes == old(writes) && matrix == old(matrix) && rtc == old(rtc)
    {
      SetPad(pin, ioMux[pin].(mcuWpd := on));
    }

    method EnableInput(pin: nat, on: bool)
      requires IsPin(pin)
      modifies this
      ensures ioMux == old(ioMux)[pin := old(ioMux)[pin].(funIe := on)]
      ensures writes == old(writes) && matrix == old(matrix) && rtc == old(rtc)
    {
      SetPad(pin, ioMux[pin].(funIe := on));
    }

    method EnableInputInSleepMode(pin: nat, on: bool)
      requires IsPin(pin)
      modifies this
      ensures ioMux == old(ioMux)[pin := old(ioMux)[pin].(mcuIe := on)]
      ensures writes == old(writes) && matrix == old(matrix) && rtc == old(rtc)
    {
      SetPad(pin, ioMux[pin].(mcuIe := on));
    }

    method SleepMode(pin: nat, on: bool)
      requires IsPin(pin)
      modifies this
      ensures ioMux == old(ioMux)[pin := old(ioMux)[pin].(slpSel := on)]
      ensures writes == old(writes) && matrix == old(matrix) && rtc == old(rtc)
    {
      SetPad(pin, ioMux[pin].(slpSel := on));
    }

    method SetAlternateFunction(pin: nat, af: AlternateFunction)
      requires IsPin(pin)
      modifies this
      ensures ioMux == old(ioMux)[pin := old(ioMux)[pin].(mcuSel := AlternateBits(af))]
      ensures writes == old(writes) && matrix == old(matrix) && rtc == old(rtc)
    {
      SetPad(pin, ioMux[pin].(mcuSel := AlternateBits(af)));
    }

    /** `Pull::internal_pull_up` and `internal_pull_down`: through RTCIO on a pad with RTC
        pulls (errata 3.6), through IO_MUX on the other output pins. */
    method InternalPullUp(pin: nat, on: bool)
      requires IsOutputPin(pin)
      modifies this
      ensures HasRtcPull(pin) ==> rtc == old(rtc).(pullUp := old(rtc).pullUp[pin := on]) && ioMux == old(ioMux)
      ensures !HasRtcPull(pin) ==> ioMux == old(ioMux)[pin := old(ioMux)[pin].(funWpu := on)] && rtc == old(rtc)
      ensures writes == old(writes) && matrix == old(matrix)
    {
      if HasRtcPull(pin) {
        rtc := rtc.(pullUp := rtc.pullUp[pin := on]);
      } else {
        ioMux := ioMux[pin := ioMux[pin].(funWpu := on)];
      }
    }

    method InternalPullDown(pin: nat, on: bool)
      requires IsOutputPin(pin)
      modifies this
      ensures HasRtcPull(pin) ==> rtc == old(rtc).(pullDown := old(rtc).pullDown[pin := on]) && ioMux == old(ioMux)
      ensures !HasRtcPull(pin) ==> ioMux == old(ioMux)[pin := old(ioMux)[pin].(funWpd := on)] && rtc == old(rtc)
      ensures writes == old(writes) && matrix == old(matrix)
    {
      if HasRtcPull(pin) {
        rtc := rtc.(pullDown := rtc.pullDown[pin := on]);
      } else {
        ioMux := ioMux[pin := ioMux[pin].(funWpd := on)];
      }
    }

    /** `connect_peripheral_to_output_with_options`, for a route that does not panic: the
        pad takes the alternate function, and the pin's output selector gets the clipped
        signal and the three options; bits 12 to 31 of the selector keep their value.
        `connect_peripheral_to_output` is this with every option false. */
    method ConnectPeripheralToOutput(pin: nat, table: map<nat, AlternateFunction>, signal: nat,
                                     invert: bool, invertEnable: bool, enableFromGpio: bool, force: bool)
      requires IsOutputPin(pin) && OutputRoute(table, signal, force).Some?
      modifies this
      ensures var (af, sel) := OutputRoute(table, signal, force).value;
        && ioMux == old(ioMux)[pin := old(ioMux)[pin].(mcuSel := AlternateBits(af))]
        && matrix == old(matrix).(funcOutSel := old(matrix).funcOutSel[pin :=
             OutSel.Write(old(matrix).funcOutSel[pin], OutputFields(sel, invert, invertEnable, enableFromGpio))])
      ensures OutSel.Read(matrix.funcOutSel[pin]) == OutputFields(OutputRoute(table, signal, force).value.1, invert, invertEnable, enableFromGpio)
      ensures writes == old(writes) && rtc == old(rtc)
    {
      var (af, sel) := OutputRoute(table, signal, force).value;
      SetAlternateFunction(pin, af);
      var fields := OutputFields(sel, invert, invertEnable, enableFromGpio);
      OutSel.ReadAfterWrite(matrix.funcOutSel[pin], fields);
      DivUnique(sel, 512, 0, sel);
      matrix := matrix.(funcOutSel := matrix.funcOutSel[pin := OutSel.Write(matrix.funcOutSel[pin], fields)]);
    }

    /** `connect_input_to_peripheral_with_options`, for a route that does not panic: the
        pad takes the alternate function, and a signal below 256 has its input selector
        routed through the matrix from this pin, inverted as asked. No other selector
        changes. `connect_input_to_peripheral` is this with both options false. */
    method ConnectInputToPeripheral(pin: nat, table: map<nat, AlternateFunction>, signal: nat,
                                    invert: bool, force: bool)
      requires IsPin(pin) && InputRoute(table, signal, force).Some?
      modifies this
      ensures var (af, writesSelector) := InputRoute(table, signal, force).value;
        && ioMux == old(ioMux)[pin := old(ioMux)[pin].(mcuSel := AlternateBits(af))]
        && matrix == if writesSelector then old(matrix).(funcInSel := old(matrix).funcInSel[signal :=
             InSel.Write(old(matrix).funcInSel[signal], InputFields(pin, invert))])
           else old(matrix)
      ensures signal < SIGNAL_COUNT ==> InSel.Read(matrix.funcInSel[signal]) == InputFields(pin, invert)
      ensures writes == old(writes) && rtc == old(rtc)
    {
      var (af, writesSelector) := InputRoute(table, signal, force).value;
      SetAlternateFunction(pin, af);
      if signal < SIGNAL_COUNT {
        ConnectInput(signal, InputFields(pin, invert));
      }
    }

    /** `connect_low_to_peripheral` and `connect_high_to_peripheral`: the signal's input
        selector reads the constant 0x30 or 0x38 through the matrix, not inverted. The
        array `func_in_sel_cfg` has 256 entries, so a higher signal is an index out of
        bounds, a panic, None here with nothing written. */
    method ConnectConstantToPeripheral(signal: nat, high: bool) returns (r: Option<()>)
      modifies this
      ensures r.None? <==> signal >= SIGNAL_COUNT
      ensures r.None? ==> matrix == old(matrix)
      ensures r.Some? ==> matrix == old(matrix).(funcInSel := old(matrix).funcInSel[signal :=
        InSel.Write(old(matrix).funcInSel[signal], InSel.Fields(if high then CONSTANT_HIGH else CONSTANT_LOW, InSel.NoInvert, InSel.Route))])
      ensures r.Some? ==> InSel.Read(matrix.funcInSel[signal]).inSel == if high then CONSTANT_HIGH else CONSTANT_LOW
      ensures writes == old(writes) && ioMux == old(ioMux) && rtc == old(rtc)
    {
      if signal >= SIGNAL_COUNT {
        return None;
      }
      ConnectInput(signal, InSel.Fields(if high then CONSTANT_HIGH else CONSTANT_LOW, InSel.NoInvert, InSel.Route));
      r := Some(());
    }

    /** The write of a whole input selector whose pad number fits its six bits. */
    method ConnectInput(signal: nat, fields: InSel.Fields)
      requires signal < SIGNAL_COUNT && fields.inSel < 64
      modifies this
      ensures matrix == old(matrix).(funcInSel := old(matrix).funcInSel[signal := InSel.Write(old(matrix).funcInSel[signal], fields)])
      ensures InSel.Read(matrix.funcInSel[signal]) == fields
      ensures writes == old(writes) && ioMux == old(ioMux) && rtc == old(rtc)
    {
      InSel.ReadAfterWrite(matrix.funcInSel[signal], fields);
      DivUnique(fields.inSel, 64, 0, fields.inSel);
      matrix := matrix.(funcInSel := matrix.funcInSel[signal := InSel.Write(matrix.funcInSel[signal], fields)]);
    }
  }

  /** The output selector `init_output` and `init_input` leave: the GPIO output signal in
      bits 0 to 8, the rest as it was. */
  function GpioSelector(w: Word): (r: Word)
    ensures OutSel.Read(r).outSel == GPIO_SIGNAL
    ensures r[OutSel.OUT_SEL_WIDTH..] == w[OutSel.OUT_SEL_WIDTH..]
  {
    FieldAfterWrite(w, 0, OutSel.OUT_SEL_WIDTH, GPIO_SIGNAL);
    assert Pow2(9) == 512;
    DivUnique(GPIO_SIGNAL, 512, 0, GPIO_SIGNAL);
    WithField(w, 0, OutSel.OUT_SEL_WIDTH, GPIO_SIGNAL)
  }

  /** The four fields `connect_peripheral_to_output_with_options` writes: selector, output
      inversion, output enable from the GPIO register, output enable inversion. */
  function OutputFields(sel: nat, invert: bool, invertEnable: bool, enableFromGpio: bool): OutSel.Fields
  {
    OutSel.Fields(sel, OutSel.InvertVariant(invert), OutSel.OenSelVariant(enableFromGpio), OutSel.InvertVariant(invertEnable))
  }

  /** The three fields `connect_input_to_peripheral_with_options` writes: the pad, the
      inversion, and routing through the matrix. */
  function InputFields(pin: nat, invert: bool): (r: InSel.Fields)
    ensures pin < 64 ==> r.inSel < 64
  {
    InSel.Fields(pin, InSel.InvertVariant(invert), InSel.Route)
  }

  /** `is_set_high`: the pin's bit of the word read from the bank's output set register;
      `is_set_low` is its negation. */
  function IsSetHigh(pin: nat, outsRead: Word): (r: bool)
    requires IsPin(pin)
    ensures pin < 32 ==> (r <==> outsRead[pin])
    ensures pin >= 32 ==> (r <==> outsRead[pin - 32])
  {
    BankBit(pin);
    outsRead[BitOf(pin)]
  }

  function IsSetLow(pin: nat, outsRead: Word): (r: bool)
    requires IsPin(pin)
    ensures pin < 32 ==> (r <==> !outsRead[pin])
    ensures pin >= 32 ==> (r <==> !outsRead[pin - 32])
  {
    !IsSetHigh(pin, outsRead)
  }

  /** `InputPin::is_high`: the pin's bit of the bank's input register; `is_low` is its
      negation. It selects the bit as IsSetHigh does, but of the word read from the input
      register (`in`/`in1`) rather than the output set register (`out_w1ts`/`out1_w1ts`). */
  function IsHigh(pin: nat, inRead: Word): (r: bool)
    requires IsPin(pin)
    ensures pin < 32 ==> (r <==> inRead[pin])
    ensures pin >= 32 ==> (r <==> inRead[pin - 32])
  {
    BankBit(pin);
    inRead[BitOf(pin)]
  }

  function IsLow(pin: nat, inRead: Word): (r: bool)
    requires IsPin(pin)
    ensures pin < 32 ==> (r <==> !inRead[pin])
    ensures pin >= 32 ==> (r <==> !inRead[pin - 32])
  {
    !IsHigh(pin, inRead)
  }

  /** `is_set_low` is the negation of `is_set_high`, `is_low` of `is_high`, and both read
      the pin's own bit: the mask `1 << $bit` tested against the word. */
  lemma ReadsArePinBits(pin: nat, w: Word)
    requires IsPin(pin)
    ensures IsSetLow(pin, w) == !IsSetHigh(pin, w) && IsLow(pin, w) == !IsHigh(pin, w)
    ensures IsHigh(pin, w) <==> exists i :: 0 <= i < WIDTH && Mask(BitOf(pin))[i] && w[i]
  {
    BankBit(pin);
    assert Mask(BitOf(pin))[BitOf(pin)];
  }

  /** The bank's output register after a write to its set or clear register: the bits of
      the mask become 1 or 0 and the others keep their value. */
  function OutputAfter(outs: Word, w: StatelessWrite): (r: Word)
    requires w.GpioWrite? && (w.target == OutSet || w.target == OutClear)
    ensures forall i :: 0 <= i < WIDTH ==> r[i] == (if w.mask[i] then w.target == OutSet else outs[i])
  {
    seq(WIDTH, i requires 0 <= i < WIDTH => if w.mask[i] then w.target == OutSet else outs[i])
  }

  /** `toggle` writes the opposite of what `is_set_high` reads: a set output is cleared and
      a clear one is set. Applied to the output register it read, the write inverts the
      pin's bit and keeps every other bit of the bank. */
  lemma ToggleInverts(pin: nat, outsRead: Word)
    requires IsOutputPin(pin)
    ensures PinWrite(if IsSetHigh(pin, outsRead) then OutClear else OutSet, pin).target == OutClear <==> IsSetHigh(pin, outsRead)
    ensures PinWrite(if IsSetHigh(pin, outsRead) then OutClear else OutSet, pin).target == OutSet <==> IsSetLow(pin, outsRead)
    ensures var after := OutputAfter(outsRead, PinWrite(if IsSetHigh(pin, outsRead) then OutClear else OutSet, pin));
      after[BitOf(pin)] == !outsRead[BitOf(pin)]
      && forall i :: 0 <= i < WIDTH && i != BitOf(pin) ==> after[i] == outsRead[i]
  {
  }

  /** Two toggles in a row, each reading back the output register the previous one left,
      restore the register. */
  lemma ToggleTwiceRestores(pin: nat, outs: Word)
    requires IsOutputPin(pin)
    ensures var once := OutputAfter(outs, PinWrite(if IsSetHigh(pin, outs) then OutClear else OutSet, pin));
      OutputAfter(once, PinWrite(if IsSetHigh(pin, once) then OutClear else OutSet, pin)) == outs
  {
    var once := OutputAfter(outs, PinWrite(if IsSetHigh(pin, outs) then OutClear else OutSet, pin));
    ToggleInverts(pin, outs);
    ToggleInverts(pin, once);
    var twice := OutputAfter(once, PinWrite(if IsSetHigh(pin, once) then OutClear else OutSet, pin));
    assert forall i :: 0 <= i < WIDTH ==> twice[i] == outs[i];
  }
}
