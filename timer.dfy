/** The general-purpose timers of src/timer/mod.rs: one timer's configuration register,
    its 64-bit load, counter and alarm registers split into 32-bit halves, and the
    `CountDown` start and wait built on them. Every register write is also appended to a
    log, so the order of the writes `start` makes is part of the model. */
module TimerGroup {
  import opened Bits
  import Units

  datatype Error = UnsupportedWatchdogConfig | OutOfRange

  /** The fields of the timer's configuration register `TxCONFIG`. */
  datatype Config = Config(
    en: bool, increase: bool, autoreload: bool, divider: u16,
    edgeIntEn: bool, levelIntEn: bool, alarmEn: bool)

  /** One register write. */
  datatype Write =
    | ConfigWrite(config: Config)
    | LoadLoWrite(lo: u32)
    | LoadHiWrite(hi: u32)
    | LoadWrite
    | UpdateWrite
    | AlarmHiWrite(hi: u32)
    | AlarmLoWrite(lo: u32)

  /** The value `set_divider` stores for an accepted divider: 65536 does not fit the 16-bit
      field and is stored as 0. */
  function DividerField(divider: u32): (r: u16)
    requires 2 <= divider <= 65536
    ensures divider < 65536 ==> r == divider
    ensures r == 0 <==> divider == 65536
  {
    if divider == 65536 then 0 else divider
  }

  /** The divider a field value stands for: 0 means 65536. */
  function DividerOf(field: u16): (r: nat)
    ensures 1 <= r <= 65536
  {
    if field == 0 then 65536 else field
  }

  /** Every accepted divider is the divider its stored field stands for. */
  lemma DividerRoundTrip(divider: u32)
    requires 2 <= divider <= 65536
    ensures DividerOf(DividerField(divider)) == divider
  {
  }

  /** The alarm `start` sets for a timeout of `timeout` nanoseconds: half the APB
      frequency (the divider is 2) times the timeout, through the units multiplication.
      The product wraps in u64, as in a release build, before the nanosecond scale. */
  function StartAlarm(apbFrequency: u32, timeout: u64): (r: u64)
    ensures r == ((apbFrequency / 2) * timeout % U64_LIMIT) / 1_000_000_000
  {
    var f := Units.Quantity(Units.Hertz, Units.U32, apbFrequency / 2);
    var t := Units.Quantity(Units.NanoSeconds, Units.U64, timeout);
    assert Units.MulParams(t.unit, f.unit) == (1, 1_000_000_000);
    assert f.value * t.value == (apbFrequency / 2) * timeout;
    var ticks := Units.FreqTimesTime(f, t);
    ticks.value
  }

  /** Without overflow the alarm is the timeout in ticks of the halved APB clock. */
  lemma StartAlarmExact(apbFrequency: u32, timeout: u64)
    requires (apbFrequency / 2) * timeout < U64_LIMIT
    ensures StartAlarm(apbFrequency, timeout) == (apbFrequency / 2) * timeout / 1_000_000_000
  {
    assert Wrap64((apbFrequency / 2) * timeout) == (apbFrequency / 2) * timeout;
  }

  class Timer {
    /** The APB frequency of the clock configuration. */
    const apbFrequency: u32
    var config: Config
    var loadLo: u32
    var loadHi: u32
    /** The 64-bit counter itself. The load trigger sets it; between calls it counts on
        its own, so a read takes its present value as a parameter. */
    var counter: u64
    /** The counter value as latched in `TxLO`/`TxHI` by the last update. */
    var lo: u32
    var hi: u32
    var alarmLo: u32
    var alarmHi: u32
    /** Every register write so far, oldest first. */
    var log: seq<Write>

    constructor(apbFrequency: u32, config: Config)
      ensures this.apbFrequency == apbFrequency && this.config == config
      ensures loadLo == 0 && loadHi == 0 && lo == 0 && hi == 0 && alarmLo == 0 && alarmHi == 0
      ensures log == []
    {
      this.apbFrequency := apbFrequency;
      this.config := config;
      loadLo, loadHi, lo, hi, alarmLo, alarmHi := 0, 0, 0, 0, 0, 0;
      log := [];
    }

    /** The configuration register written with `c`. */
    method WriteConfig(c: Config)
      modifies this`config, this`log
      ensures config == c && log == old(log) + [ConfigWrite(c)]
    {
      config := c;
      log := log + [ConfigWrite(c)];
    }

    /** `set_value`: the low word, then the high word, into the load registers, then the
        load trigger, which copies the two load words into the counter. */
    method SetValue(value: u64)
      modifies this`loadLo, this`loadHi, this`counter, this`log
      ensures loadLo == Lo32(value) && loadHi == Hi32(value) && counter == value
      ensures log == old(log) + [LoadLoWrite(Lo32(value)), LoadHiWrite(Hi32(value)), LoadWrite]
    {
      loadLo := Lo32(value);
      loadHi := Hi32(value);
      log := log + [LoadLoWrite(loadLo), LoadHiWrite(loadHi), LoadWrite];
      counter := Join64(loadHi, loadLo);
      SplitJoin(value, loadHi, loadLo);
    }

    /** `get_value`: the update trigger latches the counter's present value `now` into
        `TxLO`/`TxHI`, and the two latched words joined are that value. */
    method GetValue(now: u64) returns (r: u64)
      modifies this`counter, this`lo, this`hi, this`log
      ensures r == now && counter == now && lo == Lo32(now) && hi == Hi32(now)
      ensures log == old(log) + [UpdateWrite]
    {
      log := log + [UpdateWrite];
      counter := now;
      lo, hi := Lo32(now), Hi32(now);
      r := Join64(hi, lo);
      SplitJoin(now, hi, lo);
    }

    /** `get_alarm`: the two alarm words joined; nothing is written. */
    function GetAlarm(): (r: u64)
      reads this
      ensures Hi32(r) == alarmHi && Lo32(r) == alarmLo
    {
      SplitJoin(0, alarmHi, alarmLo);
      Join64(alarmHi, alarmLo)
    }

    /** `set_alarm`: the high word, then the low word. A later `get_alarm` returns the value
        (see `SplitJoin`). */
    method SetAlarm(value: u64)
      modifies this`alarmLo, this`alarmHi, this`log
      ensures alarmHi == Hi32(value) && alarmLo == Lo32(value) && GetAlarm() == value
      ensures log == old(log) + [AlarmHiWrite(Hi32(value)), AlarmLoWrite(Lo32(value))]
    {
      alarmHi := Hi32(value);
      alarmLo := Lo32(value);
      log := log + [AlarmHiWrite(alarmHi), AlarmLoWrite(alarmLo)];
      SplitJoin(value, alarmHi, alarmLo);
    }

    /** `enable`: only the enable bit changes. */
    method Enable(enable: bool)
      modifies this`config, this`log
      ensures config == old(config).(en := enable) && log == old(log) + [ConfigWrite(config)]
    {
      WriteConfig(config.(en := enable));
    }

    /** `increasing`: only the count-direction bit changes. */
    method Increasing(enable: bool)
      modifies this`config, this`log
      ensures config == old(config).(increase := enable) && log == old(log) + [ConfigWrite(config)]
    {
      WriteConfig(config.(increase := enable));
    }

    /** `autoreload`: only the auto-reload bit changes. */
    method Autoreload(enable: bool)
      modifies this`config, this`log
      ensures config == old(config).(autoreload := enable) && log == old(log) + [ConfigWrite(config)]
    {
      WriteConfig(config.(autoreload := enable));
    }

    /** `enable_edge_interrupt`: only the edge-interrupt bit changes. */
    method EnableEdgeInterrupt(enable: bool)
      modifies this`config, this`log
      ensures config == old(config).(edgeIntEn := enable) && log == old(log) + [ConfigWrite(config)]
    {
      WriteConfig(config.(edgeIntEn := enable));
    }

    /** `enable_level_interrupt`: only the level-interrupt bit changes. */
    method EnableLevelInterrupt(enable: bool)
      modifies this`config, this`log
      ensures config == old(config).(levelIntEn := enable) && log == old(log) + [ConfigWrite(config)]
    {
      WriteConfig(config.(levelIntEn := enable));
    }

    /** `enable_alarm`: only the alarm-enable bit changes. */
    method EnableAlarm(enable: bool)
      modifies this`config, this`log
      ensures config == old(config).(alarmEn := enable) && log == old(log) + [ConfigWrite(config)]
    {
      WriteConfig(config.(alarmEn := enable));
    }

    /** `alarm_active`: the alarm-enable bit. */
    function AlarmActive(): (r: bool)
      reads this
      ensures r == config.alarmEn
    {
      config.alarmEn
    }

    /** `set_divider`: `OutOfRange`, with nothing written, unless `2 <= divider <= 65536`;
        otherwise only the divider field changes, to `DividerField(divider)`. */
    method SetDivider(divider: u32) returns (r: Result<(), Error>)
      modifies this`config, this`log
      ensures r.Err? <==> divider <= 1 || divider > 65536
      ensures r.Err? ==> r.error == OutOfRange && config == old(config) && log == old(log)
      ensures r.Ok? ==> config == old(config).(divider := DividerField(divider))
                        && DividerOf(config.divider) == divider
                        && log == old(log) + [ConfigWrite(config)]
    {
      if divider <= 1 || divider > 65536 {
        return Err(OutOfRange);
      }
      WriteConfig(config.(divider := DividerField(divider)));
      r := Ok(());
    }

    /** `CountDown::start`: disable, divider 2, counter loaded with 0, the alarm set to the
        timeout in ticks, enable, in that order. */
    method Start(timeout: u64)
      modifies this
      ensures var c0 := old(config).(en := false);
        var c1 := c0.(divider := 2);
        var alarm := StartAlarm(apbFrequency, timeout);
        && config == c1.(en := true)
        && loadLo == 0 && loadHi == 0 && GetAlarm() == alarm
        && log == old(log) + [ConfigWrite(c0), ConfigWrite(c1), LoadLoWrite(0), LoadHiWrite(0), LoadWrite,
                              AlarmHiWrite(Hi32(alarm)), AlarmLoWrite(Lo32(alarm)), ConfigWrite(c1.(en := true))]
      ensures counter == 0 && lo == old(lo) && hi == old(hi)
    {
      Enable(false);
      var ok := SetDivider(2);
      SetValue(0);
      SetAlarm(StartAlarm(apbFrequency, timeout));
      Enable(true);
    }

    /** `CountDown::wait`: WouldBlock, writing nothing, while the alarm-enable bit is clear;
        otherwise the bit is written set again and the wait is over. */
    method Wait() returns (r: NbResult<()>)
      modifies this`config, this`log
      ensures r == WouldBlock <==> !old(config).alarmEn
      ensures r == WouldBlock ==> config == old(config) && log == old(log)
      ensures r.Ready? ==> config == old(config) && log == old(log) + [ConfigWrite(config)]
    {
      if !AlarmActive() {
        return WouldBlock;
      }
      EnableAlarm(true);
      r := Ready(());
    }
  }
}
