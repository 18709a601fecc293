/** The RTC watchdog of src/clock_control/watchdog.rs: the period/tick conversions at the
    slow RTC frequency, the configuration read back from the registers, and the protected
    register sequences of `set_config`, `start`, `disable` and `feed`. Every register write
    is appended to a log, so the unlock-then-lock bracket and the order of the writes are
    part of the model. The slow RTC frequency comes from the clock configuration. */
module RtcWatchdog {
  import opened Bits
  import ClockControl

  const WATCHDOG_UNBLOCK_KEY: u32 := 0x50D8_3AA1
  const WATCHDOG_BLOCK_VALUE: u32 := 0x89AB_CDEF

  /** The stage actions, with the values of the 3-bit `wdt_stgN` fields as given for
      `RTC_CNTL_WDTCONFIG0_REG` in the ESP32 Technical Reference Manual; 5 to 7 are not
      actions. The register-access crate that names them is not part of this model. */
  datatype Action = Off | Interrupt | ResetCpu | ResetSystem | ResetRtc

  function ActionBits(a: Action): (r: nat)
    ensures r < 5
  {
    match a
    case Off => 0
    case Interrupt => 1
    case ResetCpu => 2
    case ResetSystem => 3
    case ResetRtc => 4
  }

  /** `wdt_stgN().variant()`: None for a value that is not an action. */
  function ActionOf(v: nat): (r: Option<Action>)
    ensures r.Some? ==> ActionBits(r.value) == v
  {
    if v == 0 then Some(Off)
    else if v == 1 then Some(Interrupt)
    else if v == 2 then Some(ResetCpu)
    else if v == 3 then Some(ResetSystem)
    else if v == 4 then Some(ResetRtc)
    else None
  }

  /** The field decodes exactly the values 0 to 4, and each action's value back to it. */
  lemma ActionRoundTrip(a: Action, v: nat)
    ensures ActionOf(ActionBits(a)) == Some(a)
    ensures ActionOf(v).None? <==> v >= 5
    ensures ActionOf(v).Some? ==> ActionBits(ActionOf(v).value) == v
  {
  }

  /** A reset-signal length, a 3-bit field every value of which is named. */
  type ResetDuration = d: nat | d < 8

  /** The fields of `wdtconfig0` the driver touches; `stg` holds the four raw stage
      fields. */
  datatype Config0 = Config0(
    stg0: nat, stg1: nat, stg2: nat, stg3: nat,
    en: bool, flashbootModEn: bool,
    cpuResetLength: ResetDuration, sysResetLength: ResetDuration,
    pauseInSlp: bool, procpuResetEn: bool, appcpuResetEn: bool)

  /** `WatchdogConfig`: four periods in microseconds, each with the action at its end. */
  datatype WatchdogConfig = WatchdogConfig(
    period1: u32, action1: Action, period2: u32, action2: Action,
    period3: u32, action3: Action, period4: u32, action4: Action,
    cpuResetDuration: ResetDuration, sysResetDuration: ResetDuration,
    pauseInSleep: bool, resetCpu: (bool, bool))

  datatype Write =
    | ProtectWrite(value: u32)
    | FeedWrite
    | Config0Write(conf: Config0)
    | HoldWrite(stage: nat, ticks: u32)

  /** The writes of `access_registers` around those of its closure. */
  function Protected(writes: seq<Write>): seq<Write>
  {
    [ProtectWrite(WATCHDOG_UNBLOCK_KEY)] + writes + [ProtectWrite(WATCHDOG_BLOCK_VALUE)]
  }

  /** `calc_period`: ticks of the slow clock to microseconds, `1e6 * value / slow` in u64
      (where it cannot overflow) truncated to u32. */
  function CalcPeriod(slow: u32, value: u32): (r: u32)
    requires slow > 0
    ensures 1_000_000 * value < U32_LIMIT * slow ==> r * slow <= 1_000_000 * value < (r + 1) * slow
  {
    DivFloor(1_000_000 * value, slow);
    DivBelow(1_000_000 * value, slow, U32_LIMIT);
    Wrap32(1_000_000 * value / slow)
  }

  /** `calc_ticks`: microseconds to ticks of the slow clock, `us * slow / 1e6` in u64
      truncated to u32. */
  function CalcTicks(slow: u32, us: u32): (r: u32)
    ensures us * slow < U32_LIMIT * 1_000_000 ==> r * 1_000_000 <= us * slow < (r + 1) * 1_000_000
  {
    MulMonotone(0, us, slow);
    DivFloor(us * slow, 1_000_000);
    DivBelow(us * slow, 1_000_000, U32_LIMIT);
    Wrap32(us * slow / 1_000_000)
  }

  /** Both conversions round down, so a period turned into ticks and back never grows,
      and ticks turned into a period and back never grow either. */
  lemma ConversionsRoundDown(slow: u32, us: u32, ticks: u32)
    requires slow > 0
    ensures CalcPeriod(slow, CalcTicks(slow, us)) <= us
    ensures CalcTicks(slow, CalcPeriod(slow, ticks)) <= ticks
  {
    TicksThenPeriod(slow, us);
    PeriodThenTicks(slow, ticks);
  }

  lemma TicksThenPeriod(slow: u32, us: u32)
    requires slow > 0
    ensures CalcPeriod(slow, CalcTicks(slow, us)) <= us
  {
    var t := us * slow / 1_000_000;
    MulMonotone(0, us, slow);
    Wrap32Le(t);
    var ticks := CalcTicks(slow, us);
    Wrap32Le(1_000_000 * ticks / slow);
    ChainDown(us, slow, 1_000_000, t, ticks, CalcPeriod(slow, ticks));
  }

  /** Scaling `a` by `f / d` with a floor, lowering the result, and scaling back with a
      floor never gives more than `a`. */
  lemma ChainDown(a: nat, f: nat, d: nat, t: nat, lower: nat, back: nat)
    requires f > 0 && d > 0 && t == a * f / d && lower <= t && back <= d * lower / f
    ensures back <= a
  {
    ScaleRoundTrip(a, f, d);
    MulMonotone(lower, t, d);
    assert d * lower == lower * d;
    DivMonotone(lower * d, t * d, f);
  }

  lemma PeriodThenTicks(slow: u32, ticks: u32)
    requires slow > 0
    ensures CalcTicks(slow, CalcPeriod(slow, ticks)) <= ticks
  {
    var p := 1_000_000 * ticks / slow;
    MulMonotone(0, ticks, 1_000_000);
    Wrap32Le(p);
    ScaleRoundTrip(ticks, 1_000_000, slow);
    MulMonotone(CalcPeriod(slow, ticks), p, slow);
    DivMonotone(CalcPeriod(slow, ticks) * slow, p * slow, 1_000_000);
    Wrap32Le(CalcPeriod(slow, ticks) * slow / 1_000_000);
  }

  /** With a slow clock of at most 1 MHz a period loses less than one tick's worth, plus
      one microsecond, in the round trip. */
  lemma PeriodRoundTripTight(slow: u32, us: u32)
    requires 0 < slow <= 1_000_000
    ensures us - CalcPeriod(slow, CalcTicks(slow, us)) <= 1_000_000 / slow + 1
  {
    var t := TicksFit(slow, us);
    var p := t * 1_000_000 / slow;
    ScaleRoundTrip(us, slow, 1_000_000);
    assert p <= us;
    assert 1_000_000 * t == t * 1_000_000;
    assert CalcPeriod(slow, t) == p;
    DivFloor(t * 1_000_000, slow);
    LossBound(us, slow, t, p);
  }

  /** At most 1 MHz, the ticks of a period are no more than its microseconds, so the
      truncation to u32 does not act. */
  lemma TicksFit(slow: u32, us: u32) returns (t: nat)
    requires 0 < slow <= 1_000_000
    ensures t == us * slow / 1_000_000 == CalcTicks(slow, us) && t <= us
    ensures us * slow < (t + 1) * 1_000_000
  {
    t := us * slow / 1_000_000;
    MulMonotone(slow, 1_000_000, us);
    DivMonotone(us * slow, us * 1_000_000, 1_000_000);
    DivUnique(us * 1_000_000, 1_000_000, us, 0);
    DivFloor(us * slow, 1_000_000);
  }

  lemma LossBound(us: nat, slow: nat, t: nat, p: nat)
    requires 0 < slow <= 1_000_000
    requires us * slow < (t + 1) * 1_000_000
    requires t * 1_000_000 < (p + 1) * slow
    ensures us - p <= 1_000_000 / slow + 1
  {
    var k := 1_000_000 / slow;
    DivFloor(1_000_000, slow);
    assert 1_000_000 < (k + 1) * slow;
    assert (t + 1) * 1_000_000 == 1_000_000 * t + 1_000_000;
    assert us * slow < (p + 1) * slow + (k + 1) * slow by {
      assert (p + 1) * slow + (k + 1) * slow == (p + k + 2) * slow;
    }
    assert us * slow < (p + k + 2) * slow;
    if us > p + k + 1 {
      MulMonotone(p + k + 2, us, slow);
    }
  }

  /** The watchdog registers of the RTC controller. */
  class Watchdog {
    /** `slow_rtc_frequency` of the clock configuration. */
    const slowRtcFrequency: u32
    var wprotect: u32
    var config0: Config0
    /** `wdtconfig1` to `wdtconfig4`: the hold time of each stage, in ticks. */
    var hold1: u32
    var hold2: u32
    var hold3: u32
    var hold4: u32
    var log: seq<Write>

    constructor(slowRtcFrequency: u32, wprotect: u32, config0: Config0, hold1: u32, hold2: u32, hold3: u32, hold4: u32)
      ensures this.slowRtcFrequency == slowRtcFrequency && this.wprotect == wprotect && this.config0 == config0
      ensures this.hold1 == hold1 && this.hold2 == hold2 && this.hold3 == hold3 && this.hold4 == hold4
      ensures log == []
    {
      this.slowRtcFrequency := slowRtcFrequency;
      this.wprotect := wprotect;
      this.config0 := config0;
      this.hold1, this.hold2, this.hold3, this.hold4 := hold1, hold2, hold3, hold4;
      log := [];
    }

    /** `config`, on a slow clock that is running (a reserved selector gives 0 Hz, and the
        division by it panics): UnsupportedWatchdogConfig when a stage field holds no action; otherwise
        the four actions and the hold times as periods, with the reset lengths and flags. */
    function Config(): (r: Result<WatchdogConfig, ClockControl.Error>)
      requires slowRtcFrequency > 0
      reads this
      ensures r.Err? <==> ActionOf(config0.stg0).None? || ActionOf(config0.stg1).None?
                          || ActionOf(config0.stg2).None? || ActionOf(config0.stg3).None?
      ensures r.Err? ==> r.error == ClockControl.UnsupportedWatchdogConfig
    {
      var c := config0;
      if ActionOf(c.stg0).None? || ActionOf(c.stg1).None? || ActionOf(c.stg2).None? || ActionOf(c.stg3).None? then
        Err(ClockControl.UnsupportedWatchdogConfig)
      else
        Ok(WatchdogConfig(
          CalcPeriod(slowRtcFrequency, hold1), ActionOf(c.stg0).value,
          CalcPeriod(slowRtcFrequency, hold2), ActionOf(c.stg1).value,
          CalcPeriod(slowRtcFrequency, hold3), ActionOf(c.stg2).value,
          CalcPeriod(slowRtcFrequency, hold4), ActionOf(c.stg3).value,
          c.cpuResetLength, c.sysResetLength, c.pauseInSlp, (c.procpuResetEn, c.appcpuResetEn)))
    }

    /** `set_config`: the four periods in ticks; then, unlocked, a feed, the stage actions
        with the watchdog enabled, flash-boot mode off and the reset settings, and the four
        hold times. Reading the configuration back gives the actions and settings written
        and periods no longer than those asked for. */
    method SetConfig(config: WatchdogConfig)
      modifies this`wprotect, this`config0, this`hold1, this`hold2, this`hold3, this`hold4, this`log
      ensures var per1, per2, per3, per4 := CalcTicks(slowRtcFrequency, config.period1), CalcTicks(slowRtcFrequency, config.period2),
                                            CalcTicks(slowRtcFrequency, config.period3), CalcTicks(slowRtcFrequency, config.period4);
        && config0 == old(config0).(stg0 := ActionBits(config.action1), stg1 := ActionBits(config.action2),
                                    stg2 := ActionBits(config.action3), stg3 := ActionBits(config.action4),
                                    en := true, flashbootModEn := false,
                                    cpuResetLength := config.cpuResetDuration, sysResetLength := config.sysResetDuration,
                                    pauseInSlp := config.pauseInSleep,
                                    procpuResetEn := config.resetCpu.0, appcpuResetEn := config.resetCpu.1)
        && hold1 == per1 && hold2 == per2 && hold3 == per3 && hold4 == per4
        && wprotect == WATCHDOG_BLOCK_VALUE
        && log == old(log) + Protected([FeedWrite, Config0Write(config0), HoldWrite(1, per1), HoldWrite(2, per2),
                                        HoldWrite(3, per3), HoldWrite(4, per4)])
      ensures slowRtcFrequency > 0 ==> Config().Ok?
      ensures slowRtcFrequency > 0 ==> var c := Config().value;
        && c.action1 == config.action1 && c.action2 == config.action2
        && c.action3 == config.action3 && c.action4 == config.action4
        && c.cpuResetDuration == config.cpuResetDuration && c.sysResetDuration == config.sysResetDuration
        && c.pauseInSleep == config.pauseInSleep && c.resetCpu == config.resetCpu
        && c.period1 <= config.period1 && c.period2 <= config.period2
        && c.period3 <= config.period3 && c.period4 <= config.period4
    {
      var slow := slowRtcFrequency;
      var per1, per2, per3, per4 := CalcTicks(slow, config.period1), CalcTicks(slow, config.period2),
                                    CalcTicks(slow, config.period3), CalcTicks(slow, config.period4);
      wprotect := WATCHDOG_UNBLOCK_KEY;
      config0 := config0.(stg0 := ActionBits(config.action1), stg1 := ActionBits(config.action2),
                          stg2 := ActionBits(config.action3), stg3 := ActionBits(config.action4),
                          en := true, flashbootModEn := false,
                          cpuResetLength := config.cpuResetDuration, sysResetLength := config.sysResetDuration,
                          pauseInSlp := config.pauseInSleep,
                          procpuResetEn := config.resetCpu.0, appcpuResetEn := config.resetCpu.1);
      hold1, hold2, hold3, hold4 := per1, per2, per3, per4;
      wprotect := WATCHDOG_BLOCK_VALUE;
      log := log + Protected([FeedWrite, Config0Write(config0), HoldWrite(1, per1), HoldWrite(2, per2),
                              HoldWrite(3, per3), HoldWrite(4, per4)]);
      ActionRoundTrip(config.action1, 0);
      ActionRoundTrip(config.action2, 0);
      ActionRoundTrip(config.action3, 0);
      ActionRoundTrip(config.action4, 0);
      if slow > 0 {
        ConversionsRoundDown(slow, config.period1, 0);
        ConversionsRoundDown(slow, config.period2, 0);
        ConversionsRoundDown(slow, config.period3, 0);
        ConversionsRoundDown(slow, config.period4, 0);
      }
    }

    /** `start`: unlocked, a feed, the period in ticks as stage 0's hold time, then stage
        0 resets the RTC, the watchdog is enabled and paused in sleep, flash-boot mode off;
        the other stages and settings are kept. */
    method Start(period: u32)
      modifies this`wprotect, this`config0, this`hold1, this`log
      ensures var per := CalcTicks(slowRtcFrequency, period);
        && hold1 == per
        && config0 == old(config0).(flashbootModEn := false, en := true, pauseInSlp := true, stg0 := ActionBits(ResetRtc))
        && wprotect == WATCHDOG_BLOCK_VALUE
        && log == old(log) + Protected([FeedWrite, HoldWrite(1, per), Config0Write(config0)])
    {
      var per := CalcTicks(slowRtcFrequency, period);
      wprotect := WATCHDOG_UNBLOCK_KEY;
      hold1 := per;
      config0 := config0.(flashbootModEn := false, en := true, pauseInSlp := true, stg0 := ActionBits(ResetRtc));
      wprotect := WATCHDOG_BLOCK_VALUE;
      log := log + Protected([FeedWrite, HoldWrite(1, per), Config0Write(config0)]);
    }

    /** `disable`: unlocked, a feed, then the watchdog and flash-boot mode switched off. */
    method Disable()
      modifies this`wprotect, this`config0, this`log
      ensures config0 == old(config0).(flashbootModEn := false, en := false)
      ensures wprotect == WATCHDOG_BLOCK_VALUE
      ensures log == old(log) + Protected([FeedWrite, Config0Write(config0)])
    {
      wprotect := WATCHDOG_UNBLOCK_KEY;
      config0 := config0.(flashbootModEn := false, en := false);
      wprotect := WATCHDOG_BLOCK_VALUE;
      log := log + Protected([FeedWrite, Config0Write(config0)]);
    }

    /** `feed`: unlocked, a feed. */
    method Feed()
      modifies this`wprotect, this`log
      ensures wprotect == WATCHDOG_BLOCK_VALUE
      ensures log == old(log) + Protected([FeedWrite])
    {
      wprotect := WATCHDOG_UNBLOCK_KEY;
      wprotect := WATCHDOG_BLOCK_VALUE;
      log := log + Protected([FeedWrite]);
    }
  }
}
