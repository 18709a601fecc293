# esp32-hal core, modelled in Dafny

This project models the integer, bit-field and routing logic of `esp32-hal`, the hardware
abstraction layer for the ESP32, together with the pieces of its peripheral access crate
that this logic relies on. Every peripheral register is a field of a Dafny class, in the
form its logic needs: a 32-bit word, a record of the register's fields (the LEDC timer
configuration, the UART `conf0`), the set of its set bits (the DPORT clock and reset
registers), or a sequence (the SPI data registers, the GPIO matrix and pads). A register
the driver only reads is a value passed in. Every register write is a field update or an
entry in a write log. The modules follow the crate:

- `Units` — the `define!`/`convert!`/`multiply!`/`divide!` quantity types and their
  arithmetic (src/units.rs); `Bits` and `RegisterWord` hold the shared integer and
  32-bit-word helpers.
- `Mem` — the word-aligned `memcpy`, `memcpy_reverse`, `memmove`, `memset*`, `memcmp`
  and `bcmp` over an `array` with its base address kept as an integer (src/mem.rs).
- `Spi`, `I2c`, `Serial`, `Ledc`, `TimerGroup` — the peripheral drivers: clock-divider
  search and data-register packing, the command-word encoder and bus timings, the UART
  baud divider and FIFO counts, the LEDC timer divisor, and the timer-group registers.
- `Efuse`, `Dport`, `Interrupt` — eFuse decoders, peripheral clock/reset masks, and the
  interrupt-level tables, CPU-interrupt mapping and dispatch choice.
- `ClockControl`, `RtcClk`, `Pll`, `FrequencyScaling`, `LockExecution`, `RtcWatchdog`,
  `TimerWatchdog` — clock scratch-register decoding, CPU frequency configuration, the PLL
  write sequences, frequency-scaling lock counters, the start/stop counter, and the two
  watchdogs.
- `AnalogConfig`, `Adc` — ADC pin configuration and the single-conversion state machine.
- `Gpio`, `GpioGeneric` — GPIO-matrix and IO_MUX routing, pin-mode setup, bank/bit
  mapping, and the generic pin type with its downgrade table. `GpioGeneric` models
  src/gpio.rs. The tree also holds src/gpio/mod.rs, and src/lib.rs declares only
  `pub mod gpio;`. rustc refuses a module that has both files (error E0761), so
  src/gpio.rs may never be compiled. Its two findings describe that file as written.
- `GpioRegisterBlock` and the `Gpio…W1ts`/`Gpio…W1tc`/`GpioFunc…SelCfg` modules — the
  register-block layout and the field readers and writers of the peripheral access crate.
- `Alloc` — the heap choice and fallback order of the general allocator and the lazily
  initialised locked heap; `RamAttribute` — the `#[ram]` link-section rule; `Leds` — the
  `LightData` LED array of the LED example.

Where the code as written and its evident intent differ, the model keeps both: an
`…AsWritten` member that follows the code, a lemma that exhibits the difference, and the
corrected member that the rest of the model uses (see "## Findings").

## Model

| member | source | states |
|---|---|---|
| Adc.ChannelOf | src/analog/adc.rs:230-236 | A pin's channel is a position of the converter's table holding that pin; a pin outside the table has none |
| Adc.ChannelOfPosition | src/analog/adc.rs:240-266 | In a table without repeated pins, the pin at position c is on channel c |
| Adc.TablesDistinct | src/analog/adc.rs:240-266 | Neither converter's table lists a pin twice |
| Adc.ChannelFits | src/analog/adc.rs:240-266 | ADC1 has eight pins and ADC2 ten; every channel fits the configuration's ten slots |
| Adc.ChannelTables | src/analog/adc.rs:240-266 | Each pin of a table is on exactly its own position's channel, and a pin has a channel exactly when the table lists it |
| Adc.WriteSlot | src/analog/adc.rs:57-62 | Writing channel c's two bits sets that slot to the attenuation and keeps every other slot and bits 20 to 31 |
| Adc.ApplyAttenuations | src/analog/adc.rs:52-64 | After the loop every configured channel's slot holds its attenuation, every unconfigured slot is unchanged, and bits 20 to 31 are kept |
| Adc.ConfiguredReadsBack | src/analog/adc.rs:56-59 | A configured channel's slot reads back as its attenuation |
| Adc.SarUnit.constructor | src/analog/adc.rs:40 | The SAR registers start from the given attenuation word with no conversion started |
| Adc.Setup | src/analog/adc.rs:36-108 | The resolution goes to both width fields, every configured attenuation to its slot, the controller to RTC with the fixed power and amplifier settings; nothing else changes |
| Adc.ReadProtocol | src/analog/adc.rs:193-225 | A conversion starts only when none is in flight; a call returns a value exactly when the conversion is done and is its own or a new one, and then no conversion is in flight; a blocked call keeps another channel's conversion |
| Adc.ReadStep | src/analog/adc.rs:193-225 | a call starts a conversion iff none is active; it returns a value iff the done bit is set and the active channel is none or its own; a value is the data register and leaves no channel active |
| Adc.FirstResultIsActive | src/analog/adc.rs:193-225 | While channel c converts, the first value any sequence of calls returns is c's |
| Adc.Converter.Adc1Setup | src/analog/adc.rs:112-146 | The setup is applied (bit width and sample bits from the resolution, each channel's attenuation field as configured with bits 20 to 31 kept, the RTC controller selected, the pad enables and start bit untouched), the hall sensor is connected exactly when configured, the attenuations are kept and no conversion is in flight |
| Adc.Converter.Adc2Setup | src/analog/adc.rs:150-171 | The setup is applied (bit width and sample bits from the resolution, each channel's attenuation field as configured with bits 20 to 31 kept, the RTC controller selected, the pad enables and start bit untouched) with the hall sensor untouched, the attenuations are kept and no conversion is in flight |
| Adc.Converter.Read | src/analog/adc.rs:186-226 | One step of the protocol: a started conversion selects the channel's pad and pulses the start bit low then high; the result and the conversion in flight follow the protocol; nothing else changes |
| Alloc.ExternalHeapEnd | src/alloc.rs:75-82 | The external heap ends at the smaller of the linker's end and the start plus the external RAM size |
| Alloc.IsInRangeAsWritten | src/alloc.rs:236-240 | As written, the test panics exactly when the heap was never initialised; otherwise it holds exactly for pointers in the heap's range |
| Alloc.IsInRange | src/alloc.rs:236-240 | A pointer is in range exactly when the heap exists and the pointer lies between its bottom and its top |
| Alloc.IsInRangeAgrees | src/alloc.rs:236-240 | Wherever the written test does not panic, the corrected one gives the same answer |
| Alloc.Initialised | src/alloc.rs:246-251 | An existing heap is kept; a missing one is created spanning exactly the linker's start to end |
| Alloc.LockedHeap.constructor | src/alloc.rs:225-234 | A locked heap starts with no heap and the given bounds |
| Alloc.LockedHeap.Alloc | src/alloc.rs:244-258 | The heap is initialised on first use and kept afterwards; the result is the first-fit block, or null |
| Alloc.LockedHeap.Dealloc | src/alloc.rs:260-268 | The block is handed back to the existing heap, whose range is kept |
| Alloc.Plan | src/alloc.rs:142-170 | DRAM is always among the heaps tried |
| Alloc.Tried | src/alloc.rs:142-170 | The heaps actually asked are a prefix of the plan |
| Alloc.FirstFoundIsFirst | src/alloc.rs:142-170 | The result is null exactly when no heap in the plan finds a block; otherwise it is the block of the first heap that finds one, every earlier heap having failed |
| Alloc.PlanShape | src/alloc.rs:142-197 | IRAM is tried exactly when allowed and the request is word-sized and word-aligned; external RAM comes first exactly for a request above the threshold and is tried at all exactly with the external RAM feature; without it and without IRAM only DRAM is tried |
| Alloc.DefaultPlan | src/alloc.rs:19-20 | The default allocator tries external RAM first above 32 KiB, never IRAM, then DRAM and external RAM; without the feature it tries DRAM alone |
| Alloc.DeallocRoute | src/alloc.rs:172-179 | A freed block goes to DRAM when DRAM holds it, else to IRAM when IRAM holds it, else to external RAM (with the feature) when that holds it |
| Alloc.DeallocRouteAsWritten | src/alloc.rs:172-179 | as written, freeing panics iff the first heap the route must ask is uninitialised (DRAM, then IRAM when DRAM does not hold the block, then external RAM with the feature); when it does not panic it picks the corrected route's heap |
| Alloc.DeallocAsWrittenPanics | src/alloc.rs:172-176 | As written, the default allocator panics when freeing a block from external RAM, because the IRAM heap was never initialised; the corrected route frees it |
| Alloc.DeallocReturnsToOwner | src/alloc.rs:172-179 | When the heaps do not overlap, a block goes back to the heap that holds it |
| Alloc.GeneralAllocator.constructor | src/alloc.rs:131-137 | The allocator keeps the threshold, the IRAM choice and its three heaps |
| Alloc.GeneralAllocator.Alloc | src/alloc.rs:142-170 | The result is the first block the plan finds; exactly the heaps asked are initialised and nothing is freed |
| Alloc.GeneralAllocator.AllocLarge | src/alloc.rs:144-149 | A large request asks external RAM first and always initialises it, then follows the rest of the plan |
| Alloc.GeneralAllocator.AllocRest | src/alloc.rs:152-169 | IRAM when eligible, then DRAM, then external RAM; exactly the heaps asked are initialised |
| Alloc.GeneralAllocator.AllocFallback | src/alloc.rs:163-169 | DRAM is always asked, IRAM never, and external RAM only after DRAM fails |
| Alloc.GeneralAllocator.Dealloc | src/alloc.rs:172-179 | The block is freed to exactly the heap the corrected route picks, or to none; no heap's range changes |
| Alloc.TriedStep | src/alloc.rs:142-170 | The first heap either serves the request or hands it to the rest of the plan |
| AnalogConfig.ResolutionBits | src/analog/config.rs:8-13 | A resolution's discriminant fits the two-bit width fields |
| AnalogConfig.AttenuationBits | src/analog/config.rs:17-22 | An attenuation's discriminant fits a two-bit attenuation slot |
| AnalogConfig.Encodings | src/analog/config.rs:8-22 | Both encodings are bijections between the four variants and the values 0 to 3: decoding an encoded value gives it back and every value below 4 decodes |
| AnalogConfig.Adc1Config.constructor | src/analog/config.rs:31-37 | 12-bit resolution, hall sensor off and no channel configured |
| AnalogConfig.Adc1Config.EnablePin | src/analog/config.rs:39-45 | Only the pin's channel changes, to the given attenuation |
| AnalogConfig.Adc1Config.EnableHallSensor | src/analog/config.rs:47-49 | Only the hall flag changes, to on |
| AnalogConfig.Adc2Config.constructor | src/analog/config.rs:58-63 | 12-bit resolution and no channel configured |
| AnalogConfig.Adc2Config.EnablePin | src/analog/config.rs:65-71 | Only the pin's channel changes, to the given attenuation |
| ClockControl.XtalFreqAsWrittenReadsFlag | src/clock_control/mod.rs:203-212 | as written, a 40 MHz crystal word with the ROM-log flag of src/rtc_clk.rs:7 set is read as 41 MHz |
| ClockControl.XtalFreq | src/clock_control/mod.rs:203-212 | corrected, an invalid word gives the 40 MHz default and a valid word gives an even value that is its low 15 bits or one below them |
| ClockControl.XtalFreqAsWritten | src/clock_control/mod.rs:203-212 | as written, an invalid word gives the corrected decode's 40 MHz, and a valid word gives the corrected decode plus the ROM-log bit 0 |
| ClockControl.XtalFreqIgnoresFlag | src/clock_control/mod.rs:203-212 | corrected, the crystal frequency of a valid word is its value with the ROM-log flag ignored, and agrees with xtal_freq_get |
| ClockControl.RoundMhz | src/clock_control/mod.rs:152-154 | the rounded frequency is a whole number of MHz within half a MHz of the input, halves rounding up |
| ClockControl.ApbFrequency | src/clock_control/mod.rs:142-155 | corrected, an invalid word gives the 40 MHz default and a valid word a whole number of MHz within half a MHz of its low 15 bits times 4096 Hz |
| ClockControl.ApbFrequencyAsWritten | src/clock_control/mod.rs:142-155 | as written, the result agrees with the corrected decode iff the word's low 15 bits decode to 40 MHz |
| ClockControl.ApbWord | src/clock_control/mod.rs:161-168 | the stored word's low half is the low half of x>>12, and for x>>12 below 0x10000 its high half is x>>12 as well |
| ClockControl.Pack | src/clock_control/mod.rs:164 | the word built from two 16-bit halves reads back as those halves |
| ClockControl.HighHalf | src/clock_control/mod.rs:164 | the high half of `v` or-ed with `v << 16` fits 16 bits |
| ClockControl.ApbWordDoubled | src/clock_control/mod.rs:161-168 | for 0 < x>>12 < 0xffff the stored APB word is x>>12 in both halves, a valid clock value |
| ClockControl.ApbRoundTrip | src/clock_control/mod.rs:142-168 | corrected, a whole number of MHz below 0x8000*4096 Hz stored by set_apb_frequency reads back unchanged from apb_frequency |
| ClockControl.RoundBack | src/clock_control/mod.rs:151-154 | any value within 4096 Hz below a whole number of MHz rounds to it |
| ClockControl.ApbAsWrittenIgnoresWord | src/clock_control/mod.rs:146-149 | as written, every valid word set_apb_frequency stores reads back as the 40 MHz default |
| ClockControl.ApbAsWrittenExample | src/clock_control/mod.rs:142-168 | 80 MHz is stored as 19531 in both halves and read back as 40 MHz as written, 80 MHz as corrected |
| ClockControl.ConfigMatchesRtcClk | src/clock_control/mod.rs:215-267 | with the corrected crystal decode (see Findings), the configuration in Hz has the same source, divider and error as the one of src/rtc_clk.rs in MHz, with a million times its frequencies |
| ClockControl.CpuFrequencyConfig | src/clock_control/mod.rs:215-267 | the configuration fails, with UnsupportedFreqConfig, iff APLL or a reserved PLL period is selected; otherwise the divider is positive, the frequency is the source frequency over it and never above it, the crystal configuration holds the crystal frequency of the corrected `xtal_freq` decode, which clears the ROM-log bit 0 (see Findings), a PLL or 8 MHz configuration runs at no more than 240 MHz, and the source is the crystal iff the crystal is selected |
| ClockControl.CpuFrequency | src/clock_control/mod.rs:171-176 | the CPU frequency never exceeds the crystal frequency when the crystal is selected, nor 240 MHz otherwise |
| ClockControl.CpuFrequencyZero | src/clock_control/mod.rs:171-176 | the CPU frequency is 0 Hz exactly for an unsupported configuration or a crystal divided below 1 Hz, and from the PLL it is 80, 160 or 240 MHz |
| ClockControl.SlowFrequency | src/clock_control/mod.rs:179-186 | the slow clock is 150 kHz, 32768 Hz or 33203 Hz for its three sources and 0 Hz for the reserved selector |
| ClockControl.XtalBias | src/clock_control/mod.rs:120-127 | the core voltage is 1.00 V below 2 MHz and 1.10 V otherwise |
| ClockControl.Controller.constructor | src/clock_control/mod.rs:82-95 | a CPU running from the PLL is switched to the 40 MHz crystal, undivided; otherwise the clock registers are kept |
| ClockControl.Controller.SetCpuFreqToXtal | src/clock_control/mod.rs:103-130 | the 10-bit divider field gets div-1 reduced to ten bits, the reference tick frequency/1 MHz - 1 (u32), the crystal is selected with the voltage for the frequency, and the configuration then read is the crystal divided by the field plus one: by div itself exactly when div is at most 0x400 |
| ClockControl.PreDivField | src/clock_control/mod.rs:108-111 | the field value written for div is below 0x400 and congruent to div-1 modulo 0x400, and is div-1 iff div is at most 0x400 |
| ClockControl.Controller.SetApbFrequency | src/clock_control/mod.rs:161-168 | store5 gets `v` or-ed with `v << 16`, with v = x>>12, and a whole number of MHz in range reads back |
| ClockControl.Controller.SetSlowSource | src/clock_control/mod.rs:189-193 | only the slow-clock selector changes, and the slow frequency becomes that source's |
| FrequencyScaling.Target | src/clock_control/dfs.rs:84-133 | the frequency the locks ask for is Max iff a CPU lock is held, Apb iff only APB locks are held, and Min iff no lock is held |
| FrequencyScaling.ThresholdsAreChanges | src/clock_control/dfs.rs:84-130 | taking one more lock changes the target frequency exactly when the lock and APB counters cross from 0 to 1 where the source switches frequency |
| FrequencyScaling.Calls | src/clock_control/dfs.rs:74-76 | the callbacks run once each, in registration order |
| FrequencyScaling.Dfs.constructor | src/clock_control/dfs.rs:15-62 | all lock counters start at 0 with no callbacks registered |
| FrequencyScaling.Dfs.DoCallbacks | src/clock_control/dfs.rs:66-77 | every registered callback is called once, in order |
| FrequencyScaling.Dfs.Select | src/clock_control/dfs.rs:85-131 | switching frequency records the frequency set |
| FrequencyScaling.Dfs.LockCpuFrequency | src/clock_control/dfs.rs:79-92 | the CPU counter rises by one, and the first lock switches to the maximum frequency and runs the callbacks; later locks change nothing else |
| FrequencyScaling.Dfs.UnlockCpuFrequency | src/clock_control/dfs.rs:94-108 | the CPU counter falls by one, and releasing the last lock switches to the APB frequency if APB locks remain and to the minimum otherwise, then runs the callbacks |
| FrequencyScaling.Dfs.LockApbFrequency | src/clock_control/dfs.rs:110-123 | the APB counter rises by one, and the first APB lock while no CPU lock is held switches to the APB frequency and runs the callbacks |
| FrequencyScaling.Dfs.UnlockApbFrequency | src/clock_control/dfs.rs:125-135 | the APB counter falls by one, and releasing the last lock while no CPU lock is held switches to the minimum frequency and runs the callbacks |
| FrequencyScaling.Dfs.LockAwake | src/clock_control/dfs.rs:137-147 | only the awake counter rises by one |
| FrequencyScaling.Dfs.UnlockAwake | src/clock_control/dfs.rs:149-156 | only the awake counter falls by one |
| FrequencyScaling.Dfs.AddCallback | src/clock_control/dfs.rs:164-182 | with ten callbacks registered the result is TooManyCallbacks and nothing changes; otherwise the callback is stored in the next slot and the count rises by one |
| Dport.EnableMaskBits | src/dport.rs:125-150 | below bit 64 the enable mask is the peripheral's own bit in its bank plus its companions: UART_MEM for the three UARTs, SIGNATURE and SECUREBOOT for AES, SECUREBOOT for SHA, SIGNATURE for RSA |
| Dport.EnableMask | src/dport.rs:121-180 | below bit 96 the enable mask holds the peripheral's own bit and at most the UART_MEM, SIGNATURE and SECUREBOOT bits besides, and it holds more than its own bit only for the UARTs, AES, SHA and RSA |
| Dport.CoreResetMask | src/dport.rs:158-163 | a peripheral of the third bank has a core reset bit iff it is EMAC, SDIO_HOST or SDIO_SLAVE |
| Dport.BtMaskAsWrittenOverlaps | src/dport.rs:108-110 | as written, the BT clock mask 0x61 shares bits 0 and 6 with WIFI_BT_CLK_MASK and the BT_LC mask 0x3000 lies outside it, contrary to their comments |
| Dport.WifiBtMaskAsWritten | src/dport.rs:107-111 | as written, the WiFi/BT group's clock mask differs from the corrected one exactly for BT (0x61) and BT_LC (0x3000) |
| Dport.DisableBtAsWrittenStopsCommon | src/dport.rs:212-220 | as written, disabling BT stops bits 0 and 6 of the clock shared with WiFi, and disabling BT_LC stops none of the documented BT bits |
| Dport.BtMaskDisjoint | src/dport.rs:107-111 | with the bits the comments name, the BT_LC and BT_BASEBAND masks lie inside the BT mask and clearing BT leaves every WiFi clock bit as it was |
| Dport.DisableAsWrittenKeepsUartMem | src/dport.rs:186-194 | as written, disabling any bank-0 peripheral other than UART_MEM never stops the UART_MEM clock |
| Dport.DisableMaskAsWritten | src/dport.rs:186-194 | as written, the bank-0 disable mask is at most the peripheral's own bit: for every peripheral other than UART_MEM it is the corrected mask without UART_MEM |
| Dport.DisableAsWrittenExample | src/dport.rs:186-194 | as written, disabling UART0 as the only running UART leaves UART_MEM running |
| Dport.DisableStopsUartMem | src/dport.rs:186-194 | corrected, disabling a UART stops UART_MEM exactly when no other UART is still clocked; any other peripheral clears only its own bit |
| Dport.DisableMask | src/dport.rs:186-194 | corrected, the bank-0 disable mask holds the peripheral's bit and at most UART_MEM besides, and holds UART_MEM iff the peripheral is UART_MEM or a UART with no other UART clocked |
| Dport.EnableThenDisable | src/dport.rs:125-194 | for a bank-0 peripheral without companions, enable followed by disable clears its clock bit and sets its reset bit and changes nothing else |
| Dport.Registers.constructor | src/dport.rs:121-124 | the model's clock and reset registers start empty |
| Dport.Registers.EnablePeripheral | src/dport.rs:121-180 | with the corrected BT and BT_LC masks (bits 11, 16, 17 and 16, 17; see Findings), enabling sets the peripheral's clock mask and clears its reset mask in the bank its number selects, touches only the core reset register in the third bank and no reset for WiFi/BT; no other register changes |
| Dport.Registers.DisablePeripheral | src/dport.rs:182-224 | with the corrected UART_MEM rule in bank 0 and the corrected BT and BT_LC masks (see Findings), disabling clears the clock mask and sets the reset mask in the selected bank, and only clears WiFi/BT clock bits; no other register changes |
| Dport.Registers.ResetPeripheral | src/dport.rs:226-253 | resetting pulses the peripheral's reset bits in two writes to the group's reset register, the first leaving the old value with them set and the second with them cleared, so the register ends with them clear and every other bit as before; the core reset mask in the third bank; nothing for WiFi/BT |
| Efuse.BeBytes | src/efuse.rs:35-36 | `to_be_bytes` gives four bytes whose big-endian value is the word |
| Efuse.MacAddress | src/efuse.rs:29-46 | the MAC is bytes 2 and 3 of the high word followed by all four bytes of the low word, big-endian |
| Efuse.MacAddressValue | src/efuse.rs:29-46 | read as a 48-bit big-endian number, the MAC is the low 16 bits of the high word above the low word |
| Efuse.CoreCount | src/efuse.rs:53-62 | read from the `blk0_rdata3` word, the core count is 1 iff the one-bit `chip_ver_dis_app_cpu` field (bit 0) is 1, and 2 otherwise |
| Efuse.MaxCpuFrequency | src/efuse.rs:69-80 | read from the word, the maximum CPU frequency is 160 MHz iff the `chip_cpu_freq_rated` (bit 13) and `chip_cpu_freq_low` (bit 12) fields are both 1, and 240 MHz otherwise |
| Efuse.BluetoothEnabled | src/efuse.rs:82-86 | read from the word, Bluetooth is enabled iff the `chip_ver_dis_bt` field (bit 1) is 0 |
| Efuse.ChipTypeOfWord | src/efuse.rs:88-99 | read from the word, the chip type is Unknown iff the 3-bit `chip_ver_pkg` field (bits 9..11) is 3, 6 or 7 |
| Efuse.ChipQueriesIndependent | src/efuse.rs:53-99 | the four queries read disjoint fields of the word: writing one field changes only its own query and the others answer as before |
| Efuse.ChipTypeOf | src/efuse.rs:88-99 | the package code gives Unknown exactly for codes other than 0, 1, 2, 4, 5 |
| Efuse.ChipTypeCodes | src/efuse.rs:91-98 | codes 0, 1, 2, 4, 5 give D0WDQ6, D0WDQ5, D2WDQ5, PICOD2, PICOD4, and each known chip type has exactly one code |
| Efuse.AdcVref | src/efuse.rs:105-128 | `get_adc_vref` is None iff the raw value is 0; otherwise 1100 plus or minus 7 times the low four bits: at least 1100 when bit 4 is clear, at most 1100 when it is set, exactly 1100 iff the low four bits are 0, and within [995, 1205] for a 5-bit value |
| Efuse.FromTwosComplement | src/efuse.rs:203-213 | `from_twos_complement(v, b)` lies in [-2^(b-1), 2^(b-1)) |
| Efuse.ToTwosComplement | src/efuse.rs:203-213 | the b-bit two's complement encoding of a value in range, below 2^b (the partner of the decoder) |
| Efuse.TwosComplementRoundTrip | src/efuse.rs:203-213 | decoding the b-bit encoding of x gives x back |
| Efuse.TwosComplementCongruent | src/efuse.rs:203-213 | encoding the decoding of a b-bit value gives the value back |
| Efuse.TwoPointCal | src/efuse.rs:159-200 | None iff either raw value is 0; otherwise each result differs from its base by a multiple of 4, lies within the range of the 7-bit and 9-bit offsets, and its quarter offset encodes back to the raw value, which fixes it as base plus four times the decoded offset |
| Efuse.Adc1TwoPointCal | src/efuse.rs:138-169 | ADC1: None iff either raw value is 0; else 278 and 3265 each moved by a multiple of 4 whose quarter encodes back to the raw 7-bit and 9-bit values, that is `(278 + 4 * tc(low, 7), 3265 + 4 * tc(high, 9))` |
| Efuse.Adc2TwoPointCal | src/efuse.rs:179-201 | ADC2: the same rule with bases 421 and 3406: moved by multiples of 4 whose quarters encode back to the raw values |
| Gpio.RtcPad | src/gpio/mod.rs:891-910 | A pin has an RTC pad exactly when `impl_analog!` lists it, and the pad is that row's number, below 18 |
| Gpio.RtcPads | src/gpio/mod.rs:891-910 | Every analog pin is a declared pin; the pads with RTC pull resistors are exactly the analog pins that are also outputs |
| Gpio.RtcPinOfPad | src/gpio/mod.rs:891-910 | The pad table can be read backwards: each RTC pad leads back to its own pin |
| Gpio.RtcPadsDistinct | src/gpio/mod.rs:891-910 | No two pins share an RTC pad |
| Gpio.BankBit | src/gpio/mod.rs:612-641 | Pins 0 to 31 use bank 0 with their own number as the bit; pins 32 to 39 use bank 1 with bit pin - 32; every bit fits a 32-bit register |
| Gpio.AlternateBits | src/gpio/mod.rs:200-209 | The `mcu_sel` value of FunctionN is N - 1 |
| Gpio.DriveBits | src/gpio/mod.rs:193-198 | A drive strength is encoded in the two bits of `fun_drv` |
| Gpio.OutputMuxPad | src/gpio/mod.rs:304-317 | An output pad has the alternate function's selector, its input and both pulls off, 20 mA drive and no sleep select; the sleep-mode fields are kept |
| Gpio.OutputMux | src/gpio/mod.rs:304-317 | the output pad selects the alternate function's number minus one and has its input and both pulls off |
| Gpio.InputMux | src/gpio/mod.rs:509-520 | the input pad selects function 3 (selector 2), has its input enabled, the pulls asked for and its drive strength kept |
| Gpio.InputMuxPad | src/gpio/mod.rs:509-520 | An input pad goes through the GPIO matrix with its input enabled, its pulls exactly as requested and no sleep select; drive strength and sleep-mode fields are kept |
| Gpio.PullUpInputAsWrittenFloats | src/gpio/mod.rs:282-285 | As written, `into_pull_up_input` enables neither pull; it configures the pad exactly as a floating input |
| Gpio.PullUpInputMuxAsWritten | src/gpio/mod.rs:282-285 | as written, the pull-up input pad has its input enabled and neither pull |
| Gpio.PullUpInputPulls | src/gpio/mod.rs:282-290 | The corrected pull-up input enables the pull-up and only it, so it is not the same as the pull-down input |
| Gpio.PullUpInputMux | src/gpio/mod.rs:282-290 | corrected, the pull-up input pad has its input enabled, the pull-up on and the pull-down off |
| Gpio.AnalogInputEnableAsWrittenExample | src/gpio/mod.rs:896-897 | As written, making Gpio35 analog clears GPIO34's input enable; both are RTC pins |
| Gpio.AnalogInputEnablePinAsWritten | src/gpio/mod.rs:892-909 | as written, the pin whose input enable is cleared is the pin itself for every pin except Gpio35 |
| Gpio.AnalogInputEnablePin | src/gpio/mod.rs:892-909 | corrected, every analog pin clears its own input enable |
| Gpio.AnalogInputEnableTables | src/gpio/mod.rs:892-909 | The corrected table clears each pin's own input enable and differs from the written one only at Gpio35 |
| Gpio.OutputRouting | src/gpio/mod.rs:445-462 | Output routing panics exactly when it picks the GPIO matrix for a signal above 256; otherwise the selector is the signal, or 256 when a direct function carries a higher signal; forcing always picks the matrix and an unforced listed signal uses its table entry |
| Gpio.OutputRoute | src/gpio/mod.rs:445-462 | a route that does not panic uses the alternate function picked and a selector of at most 256, and through the GPIO matrix the selector is the signal itself |
| Gpio.InputRouting | src/gpio/mod.rs:560-588 | Input routing panics under the same condition as output routing and writes a selector exactly when the signal is below 256 |
| Gpio.InputRoute | src/gpio/mod.rs:560-588 | input routing panics iff the GPIO matrix is picked for a signal above 256, and otherwise writes the input selector iff the signal is below 256 |
| Gpio.IsSetHigh | src/gpio/mod.rs:259-266 | the pin reads as set high iff its bit in its bank's output register is set: bit pin for bank 0, bit pin-32 for bank 1 |
| Gpio.IsHigh | src/gpio/mod.rs:487-493 | the pin reads high iff its bit in its bank's input register is set: bit pin for bank 0, bit pin-32 for bank 1 |
| Gpio.IsSetLow | src/gpio/mod.rs:264-268 | the pin reads as set low iff its bit in its bank's output set register is clear: bit pin for bank 0, bit pin-32 for bank 1 |
| Gpio.IsLow | src/gpio/mod.rs:491-493 | the pin reads low iff its bit in its bank's input register is clear: bit pin for bank 0, bit pin-32 for bank 1 |
| Gpio.PinWritesDistinct | src/gpio/mod.rs:245-255 | Each pin's stateless write sets its own bit of its own bank, so two pins never write the same thing |
| Gpio.GpioSelector | src/gpio/mod.rs:301-302 | The output selector `init_output` leaves reads back as the GPIO signal, and the other fields of the word are kept |
| Gpio.InputFields | src/gpio/mod.rs:580-587 | The input selector names the pin, which fits the six-bit field |
| Gpio.ReadsArePinBits | src/gpio/mod.rs:259-266 | `is_set_low` is the negation of `is_set_high` and `is_low` that of `is_high`; each reads exactly the pin's bit |
| Gpio.ToggleInverts | src/gpio/mod.rs:272-278 | `toggle` clears an output that reads set and sets one that reads clear: applied to the output register it read, its write inverts the pin's bit and keeps every other bit of the bank |
| Gpio.ToggleTwiceRestores | src/gpio/mod.rs:272-278 | two toggles in a row, each reading the output register the previous one left, restore the register |
| Gpio.Peripherals.constructor | src/gpio/mod.rs:694-700 | `split` starts from the given register state with nothing written |
| Gpio.Peripherals.DisableAnalog | src/gpio/mod.rs:862-864 | An RTC pin's pad goes back to the digital mux and nothing else changes; on other pins nothing changes |
| Gpio.Peripherals.InitOutput | src/gpio/mod.rs:292-318 | The pad leaves analog mode, its output is enabled, its open-drain bit and output selector are set and its IO_MUX pad holds the output configuration |
| Gpio.Peripherals.InitInput | src/gpio/mod.rs:497-521 | The pad leaves analog mode, its output is disabled, its output selector is set and its IO_MUX pad holds the input configuration with the requested pulls |
| Gpio.Peripherals.IntoFloatingInput | src/gpio/mod.rs:523-533 | Output disabled, `InputMux` with no pull, the pin's output selector routes the GPIO output (`init_input`/`init_output` set `func_out_sel` to 0x100), and the RTC mux select of an RTC pin is cleared; nothing else changes |
| Gpio.Peripherals.IntoPullUpInputAsWritten | src/gpio/mod.rs:282-285 | As written, output disabled and `InputMux` with no pull-up, the pin's output selector routes the GPIO output (`init_input`/`init_output` set `func_out_sel` to 0x100), and the RTC mux select of an RTC pin is cleared; nothing else changes |
| Gpio.Peripherals.IntoPullUpInput | src/gpio/mod.rs:282-285 | Output disabled and `InputMux` with its pull-up and no pull-down, the pin's output selector routes the GPIO output (`init_input`/`init_output` set `func_out_sel` to 0x100), and the RTC mux select of an RTC pin is cleared; nothing else changes |
| Gpio.Peripherals.IntoPullDownInput | src/gpio/mod.rs:287-290 | Output disabled and `InputMux` with its pull-down and no pull-up, the pin's output selector routes the GPIO output (`init_input`/`init_output` set `func_out_sel` to 0x100), and the RTC mux select of an RTC pin is cleared; nothing else changes |
| Gpio.Peripherals.IntoPushPullOutput | src/gpio/mod.rs:320-323 | Output enabled, not open drain, pad on the GPIO matrix (Function3), the pin's output selector routes the GPIO output (`init_input`/`init_output` set `func_out_sel` to 0x100), and the RTC mux select of an RTC pin is cleared; nothing else changes |
| Gpio.Peripherals.IntoOpenDrainOutput | src/gpio/mod.rs:325-328 | Output enabled, open drain, pad on the GPIO matrix (Function3), the pin's output selector routes the GPIO output (`init_input`/`init_output` set `func_out_sel` to 0x100), and the RTC mux select of an RTC pin is cleared; nothing else changes |
| Gpio.Peripherals.IntoAlternate | src/gpio/mod.rs:330-353 | Output enabled, not open drain, pad on the requested function, whose selector is its number minus one, the pin's output selector routes the GPIO output (`init_input`/`init_output` set `func_out_sel` to 0x100), and the RTC mux select of an RTC pin is cleared; nothing else changes |
| Gpio.Peripherals.IntoAnalogWith | src/gpio/mod.rs:829-859 | The pad moves to the RTC mux with function 0, push-pull, its output disabled through RTCIO, the given input enable cleared and its RTC pulls cleared where it has them; GPIO and IO_MUX are untouched |
| Gpio.Peripherals.IntoAnalogAsWritten | src/gpio/mod.rs:829-859 | As written, the input enable cleared is the table's, which for Gpio35 is GPIO34's; otherwise as Gpio.Peripherals.IntoAnalog: RTC mux with function 0, push-pull RTC pad, RTC output disabled, RTC pulls cleared where the pad has them, GPIO and IO_MUX untouched |
| Gpio.Peripherals.IntoAnalog | src/gpio/mod.rs:829-859 | The pin's own input enable is cleared, its pad is on the RTC mux with function 0 and a push-pull RTC driver, its RTC output is disabled, its RTC pulls are cleared where the pad has them, and GPIO and IO_MUX are untouched |
| Gpio.Peripherals.SetHigh | src/gpio/mod.rs:245-249 | One write of the pin's bit to its bank's output set register, nothing else |
| Gpio.Peripherals.SetLow | src/gpio/mod.rs:251-255 | One write of the pin's bit to its bank's output clear register, nothing else |
| Gpio.Peripherals.Toggle | src/gpio/mod.rs:272-278 | Clears the output when the read-back shows it set, else sets it |
| Gpio.Peripherals.EnableOutput | src/gpio/mod.rs:368-380 | One write of the pin's bit to the enable set or the enable clear register |
| Gpio.Peripherals.SetOutputHigh | src/gpio/mod.rs:382-390 | One write of the pin's bit to the output set or the output clear register |
| Gpio.Peripherals.EnableOpenDrain | src/gpio/mod.rs:399-402 | Only the pin's pad driver bit changes |
| Gpio.Peripherals.SetDriveStrength | src/gpio/mod.rs:392-397 | Only `fun_drv` of the pin's pad changes |
| Gpio.Peripherals.SetDriveStrengthInSleepMode | src/gpio/mod.rs:404-409 | Only `mcu_drv` of the pin's pad changes |
| Gpio.Peripherals.EnableOutputInSleepMode | src/gpio/mod.rs:425-430 | Only `mcu_oe` of the pin's pad changes |
| Gpio.Peripherals.InternalPullUpInSleepMode | src/gpio/mod.rs:411-416 | Only `mcu_wpu` of the pin's pad changes |
| Gpio.Peripherals.InternalPullDownInSleepMode | src/gpio/mod.rs:418-423 | Only `mcu_wpd` of the pin's pad changes |
| Gpio.Peripherals.EnableInput | src/gpio/mod.rs:535-540 | Only `fun_ie` of the pin's pad changes |
| Gpio.Peripherals.EnableInputInSleepMode | src/gpio/mod.rs:542-547 | Only `mcu_ie` of the pin's pad changes |
| Gpio.Peripherals.SleepMode | src/gpio/mod.rs:594-599 | Only `slp_sel` of the pin's pad changes |
| Gpio.Peripherals.SetAlternateFunction | src/gpio/mod.rs:601-607 | Only `mcu_sel` of the pin's pad changes, to the function's selector |
| Gpio.Peripherals.InternalPullUp | src/gpio/mod.rs:871-876 | A pad with RTC pulls has its pull-up set through RTCIO; any other output pad through IO_MUX `fun_wpu` |
| Gpio.Peripherals.InternalPullDown | src/gpio/mod.rs:878-883 | A pad with RTC pulls has its pull-down set through RTCIO; any other output pad through IO_MUX `fun_wpd` |
| Gpio.Peripherals.ConnectPeripheralToOutput | src/gpio/mod.rs:436-473 | The pad gets the routed function and the pin's output selector reads back exactly the clipped signal and the three flags |
| Gpio.Peripherals.ConnectInputToPeripheral | src/gpio/mod.rs:553-590 | The pad gets the routed function; for a signal below 256 the signal's input selector reads back this pin and the inversion, otherwise the matrix is untouched |
| Gpio.Peripherals.ConnectConstantToPeripheral | src/gpio/mod.rs:212-233 | A signal of 256 or more indexes past the 256 input selectors and panics (None, nothing written); otherwise the signal's input selector reads back the constant-low (0x30) or constant-high (0x38) source |
| GpioGeneric.DowngradeAsWrittenCollides | src/gpio.rs:128-164 | as written, Gpio20 and Gpio10 downgrade to the same generic pin 10 |
| GpioGeneric.DowngradeAsWritten | src/gpio.rs:128-164 | as written, downgrading keeps every pin's number except Gpio20's |
| GpioGeneric.Downgrade | src/gpio.rs:128-135 | corrected, a downgraded pin is still a pin of the chip |
| GpioGeneric.DowngradeTables | src/gpio.rs:142-188 | corrected, downgrading tells every pin apart, and it differs from the written table only at Gpio20 |
| GpioGeneric.GenericSet | src/gpio.rs:54-94 | corrected, the generic set_high/set_low writes a register iff the pin is at most 33, and otherwise reaches unreachable!() |
| GpioGeneric.GenericSetAsWritten | src/gpio.rs:54-94 | as written, the generic set_high/set_low writes a register iff the pin is at most 33, and always one of the bank 0 registers out_w1ts/out_w1tc |
| GpioGeneric.PinSet | src/gpio.rs:190-210 | a pin's own set_high writes a set register and set_low a clear register; the bank 1 registers are used iff the pin is 32 or above; the word is the pin's bit within its bank |
| GpioGeneric.Output | src/gpio.rs:227-265 | each output pin's impl_output! row has a bit below 32 and a 2-bit function select |
| GpioGeneric.OutputRowsMatchBanks | src/gpio.rs:227-265 | each row names the pin's own bank and bit within the bank, as the banked drivers in src/gpio/mod.rs compute them |
| GpioGeneric.GenericMatchesPin | src/gpio.rs:54-94 | corrected, setting or clearing a downgraded pin writes exactly what that pin's own driver writes |
| GpioGeneric.PinSetsDistinct | src/gpio.rs:196-210 | two different output pins never write the same register with the same mask |
| GpioGeneric.GenericSetAsWrittenMisroutes | src/gpio.rs:66-89 | as written, a downgraded Gpio32 drives GPIO0's output and not its own, and a downgraded Gpio20 drives GPIO10's |
| GpioGeneric.GpioOutputSelector | src/gpio.rs:217 | the word 0x100 selects output signal 256, the GPIO output register, with no inversion and the enable taken from the enable register |
| GpioGeneric.Registers.constructor | src/gpio.rs:104-110 | the drivers start from the given selector and function-select registers with no writes |
| GpioGeneric.Registers.SetPin | src/gpio.rs:199-209 | a pin's set_high/set_low writes 1 << $i to its bank's set or clear register and changes nothing else |
| GpioGeneric.Registers.GenericSetPin | src/gpio.rs:57-93 | the corrected generic set_high/set_low writes its register and changes nothing else |
| GpioGeneric.Registers.IntoPushPullOutput | src/gpio.rs:213-221 | into_push_pull_output writes 1 << $i to the bank's enable set register, 0x100 to the pin's output selector and the row's function select to the pad |
| I2c.OpcodeValue | src/i2c.rs:622-630 | the opcode discriminants RSTART 0, WRITE 1, READ 2, STOP 3, END 4 |
| I2c.Flag | src/i2c.rs:587-603 | a flag bit is 0 or 1 |
| I2c.Encode | src/i2c.rs:556-609 | the command word holds the length in bits 0-7 (0 for Start and Stop), bit 8 iff a Write checks its ack, bit 9 iff the expected ack is NACK (Start, Stop and Read count as NACK), bit 10 iff the ack value is NACK (Start, Stop and Write count as NACK), and the opcode from bit 11 up |
| I2c.Decode | src/i2c.rs:556-609 | a word decodes to a command exactly when its opcode field is at most STOP |
| I2c.DecodeEncode | src/i2c.rs:556-609 | `cmd >> 11` and `cmd & 0xff` with the three flag bits recover every command from its word |
| I2c.EncodeInjective | src/i2c.rs:556-609 | two commands with the same word are the same command |
| I2c.HalfCycle | src/i2c.rs:180 | `((80_000_000 / freq) / 2) as u16`: the half period in source-clock cycles whenever it fits u16 |
| I2c.TimingsAsWritten | src/i2c.rs:177-210 | as written, the timeout is `half_cycle * 20` taken modulo 2^16 |
| I2c.TimeoutWrapsAt10kHz | src/i2c.rs:188 | as written, at 10 kHz the half cycle is 4000 and the timeout 14464 instead of 80000 |
| I2c.TimingsFor | src/i2c.rs:180-188 | corrected: scl low and high, setup and hold are the half cycle, sda hold and sample half of it, and the timeout 20 half cycles without wrapping |
| I2c.HalfCyclePeriod | src/i2c.rs:180 | from 611 Hz up, two half cycles cover the bus period to within one source tick per half cycle |
| I2c.TimeoutAgrees | src/i2c.rs:188 | the written and corrected timeouts agree exactly when 20 half cycles fit u16 |
| I2c.OperationBit | src/i2c.rs:611-614 | WRITE is 0 and READ is 1 |
| I2c.InstanceOffset | src/i2c.rs:8-9 | the instance offset is I2C0's 0x13000 or I2C1's 0x27000 |
| I2c.FifoAddr | src/i2c.rs:5-15 | `fifo_addr` is the DPORT base for READ and the AHB base for WRITE, plus the instance offset, plus 0x1C |
| I2c.FifoAddrDistinct | src/i2c.rs:213-224 | the four FIFO addresses are distinct, and only reads go through the DPORT window |
| I2c.AddressByte | src/i2c.rs:242-290 | `addr << 1` or-ed with `op` ends in the operation bit and holds the 7-bit address above it |
| I2c.WriteProgram | src/i2c.rs:231-265 | `write` loads Start, one Write of `1 + len` bytes, and Stop |
| I2c.ReadProgram | src/i2c.rs:283-335 | the `read` program fits the sixteen command registers |
| I2c.WriteReadProgram | src/i2c.rs:372-449 | the `write_read` program fits the sixteen command registers |
| I2c.ReadTailShape | src/i2c.rs:301-335 | the read tail ends in Read(NACK, 1) and Stop, every earlier Read acks, and it asks for n bytes (1 when n is 0) |
| I2c.ReadTail | src/i2c.rs:301-335 | the read tail is three commands when more than one byte is asked and two otherwise, ending in Read(NACK, 1) and Stop |
| I2c.ReadProgramShape | src/i2c.rs:283-335 | for n in 1..256 `read` starts with Start, ends with Stop, and asks for exactly n bytes |
| I2c.WriteReadProgramShape | src/i2c.rs:389-449 | `write_read` writes `1 + len` bytes and then asks for exactly n bytes |
| I2c.Programmed | src/i2c.rs:232-265 | loading a program puts command i's word in register i and leaves the later registers unchanged |
| I2c.Loads | src/i2c.rs:238-248 | each byte written to the FIFO goes to the chosen port, in order |
| I2c.ApplyFilter | src/i2c.rs:144-174 | a threshold sets the filter's threshold and enables it; None only disables it |
| I2c.Controller.constructor | src/i2c.rs:26-110 | `new` resets the controller (the two writes of the pulse) and clocks it through DPORT, and leaves master mode, open-drain SDA and SCL, MSB first both ways, FIFO mode, interrupts disabled and all cleared (0x3FFF), empty FIFOs, both filters at 7 and enabled, the corrected timings I2c.TimingsFor for the frequency (timeout in u32), and the clock enabled |
| I2c.Controller.ResetFifo | src/i2c.rs:135-141 | both FIFOs end empty |
| I2c.Controller.SetFilter | src/i2c.rs:144-174 | each filter follows its argument |
| I2c.Controller.SetFrequency | src/i2c.rs:177-210 | the timing registers receive the corrected timings |
| I2c.Controller.LoadFifo | src/i2c.rs:238-248 | the bytes are appended to the transmit FIFO through the port |
| I2c.Controller.DrainFifo | src/i2c.rs:354-357 | the buffer receives the first bytes of the receive FIFO, in order, and they leave it |
| I2c.Controller.Write | src/i2c.rs:227-276 | `write` empties both FIFOs, sends the address byte and the data through the AHB port, loads the write program and starts; the receive FIFO stays empty; it returns Ok |
| I2c.Controller.Read | src/i2c.rs:279-360 | `read` sends the address byte through the DPORT port, loads the read program, starts, and fills the buffer with the first bytes received, the rest staying in the receive FIFO; it returns Ok |
| I2c.Controller.WriteRead | src/i2c.rs:363-472 | `write_read` sends address, data and the read address byte through the AHB port, loads the write-read program, starts, and fills the buffer with the first bytes received, the rest staying in the receive FIFO; it returns Ok |
| I2c.Controller.Reset | src/i2c.rs:113-121 | `reset` writes `perip_rst_en` twice, first with the controller's bit (I2C0 or I2C1) set and then with it cleared |
| I2c.Controller.Enable | src/i2c.rs:124-132 | `enable` sets the controller's clock bit and clears its reset bit, and changes no other bit |
| Interrupt.InternalTableAgrees | src/interrupt.rs:21-91 | a CPU interrupt is in CPU_INTERRUPT_INTERNAL iff the CPU-interrupt-to-interrupt table names an internal interrupt for it |
| Interrupt.CpuInterruptFor | src/interrupt.rs:281-290 | edge-triggered levels 0, 1, 3, 4, 7 and level-triggered levels 0-5 and 7 succeed, every other level is InvalidInterruptLevel, and every CPU interrupt chosen is below 32 |
| Interrupt.CpuInterruptForAgrees | src/interrupt.rs:20-54 | the CPU interrupt chosen for levels 1-5 belongs to that level and is edge-triggered iff edge was asked for; level 0 and level-triggered 7 fall back to internal interrupt 6; edge-triggered 7 is the NMI interrupt 14 |
| Interrupt.NoRouteToZero | src/interrupt.rs:34-54 | no level is ever routed to CPU interrupt 0 |
| Interrupt.UsedLevelsAsWrittenMissesLevel1 | src/interrupt.rs:36-56 | as written, CPU_INTERRUPT_USED_LEVELS enables CPU interrupt 0, which nothing is routed to, and not CPU interrupt 1, which level-triggered level 1 uses |
| Interrupt.UsedLevelsAreRouted | src/interrupt.rs:34-56 | corrected, the used-levels mask is exactly the set of CPU interrupts the two tables route peripherals to (other than the disabling interrupt 6) |
| Interrupt.Relevel | src/interrupt.rs:295-299 | after the update the interrupt is in the level entry asked for and in no other, and every other interrupt's membership is unchanged |
| Interrupt.RelevelExclusive | src/interrupt.rs:295-299 | updating one interrupt's level keeps every interrupt in at most one level entry |
| Interrupt.MapCheck | src/interrupt.rs:252-264 | map_interrupt fails with InvalidCPUInterrupt for a CPU interrupt of 32 or more, then with InternalInterruptsCannotBeMapped for internal interrupts, then with InvalidCore for a core other than 0 and 1, and succeeds otherwise |
| Interrupt.InterruptStatus | src/interrupt.rs:185-201 | the 96-bit status holds word 0 in bits 0-31, word 1 in bits 32-63 and word 2 in bits 64-95 |
| Interrupt.TrailingZeros | src/interrupt.rs:147-158 | trailing_zeros is the lowest member of the mask, or the width when the mask is empty |
| Interrupt.InternalChoice | src/interrupt.rs:142-153 | with internal interrupts pending at the level, the lowest pending one is chosen and named through the CPU-interrupt-to-interrupt table |
| Interrupt.PeripheralChoice | src/interrupt.rs:155-160 | otherwise the lowest interrupt both raised and configured at the level is chosen; there is none iff no such interrupt exists below the end of the interrupt numbering |
| Interrupt.Dispatch | src/interrupt.rs:140-161 | the handler prefers a pending internal interrupt of its level and falls back to the raised peripheral interrupts configured at that level |
| Interrupt.DispatchConfigured | src/interrupt.rs:142-161 | a peripheral interrupt dispatched at a level is configured at that level and at no other |
| Interrupt.Controller.constructor | src/interrupt.rs:93-94 | all level entries start empty, no mapping or cross-core interrupt is set |
| Interrupt.Controller.SetCpuInterrupt | src/interrupt.rs:207-226 | interrupts 0-3 raise their cross-core flag; any other number is InvalidCore and changes nothing |
| Interrupt.Controller.ClearCpuInterrupt | src/interrupt.rs:231-250 | interrupts 0-3 clear their cross-core flag; any other number is InvalidCore and changes nothing |
| Interrupt.Controller.MapInterrupt | src/interrupt.rs:252-270 | the interrupt's map entry of core 0 or core 1 becomes the CPU interrupt iff MapCheck reports no error; otherwise nothing changes |
| Interrupt.Controller.SetInterruptPriority | src/interrupt.rs:275-303 | an invalid level changes nothing; a valid one updates the level table first and then maps, so a failing map still leaves the table updated |
| Interrupt.Controller.Enable | src/interrupt.rs:305-308 | enable adds the (corrected) used-levels mask to the CPU's enabled interrupts |
| Ledc.SlowClockFrequency | src/ledc/timer.rs:195-201 | the slow clock is 8 MHz while apb_clk_sel is clear and the APB frequency once it is set |
| Ledc.SourceFrequency | src/ledc/timer.rs:207-212 | no source gives no frequency; RefTick gives the reference frequency, SlowClk the slow clock and APBClk the APB frequency |
| Ledc.Scaled | src/ledc/timer.rs:143-147 | the divisor's denominator, frequency times two to the duty, is at least 1 |
| Ledc.DivisorFor | src/ledc/timer.rs:146-147 | the divisor times the denominator lies within half a denominator of src*256, so the divisor is src*256/(frequency*2^duty) rounded to nearest |
| Ledc.RoundedQuotient | src/ledc/timer.rs:146-147 | adding half the denominator before dividing rounds to the nearest quotient |
| Ledc.DivisorZero | src/ledc/timer.rs:146-150 | the divisor is 0, and so rejected, iff src*256 is below half the denominator (rounded up) |
| Ledc.DivisorNearest | src/ledc/timer.rs:146-147 | no other integer divisor brings divisor*denominator closer to src*256 |
| Ledc.Nearest | src/ledc/timer.rs:146-147 | a quotient within half a denominator of the target is the nearest multiple |
| Ledc.TickSelect | src/ledc/timer.rs:217 | the tick-select bit is set for SlowClk (low speed) and APBClk (high speed) and clear for RefTick |
| Ledc.Timer.constructor | src/ledc/timer.rs:179-192 | a new timer has no duty, no clock source and is not configured |
| Ledc.Timer.GetFreq | src/ledc/timer.rs:133-135 | the timer has a frequency iff a clock source is chosen |
| Ledc.Timer.Configure | src/ledc/timer.rs:138-159 | with the bound corrected to the 18-bit field: duty and source are stored first; the result is Error::Divisor iff the divisor is 0 or at least 0x4_0000, and then the register and the configured flag are unchanged; otherwise the register holds source select, the divisor itself and duty, out of reset and unpaused, and the timer is configured |
| Ledc.Timer.ConfigureAsWritten | src/ledc/timer.rs:138-159 | as written: Error::Divisor iff the divisor is 0 or at least 0x10_0000; an accepted divisor reaches the register as its low 18 bits |
| Ledc.Timer.ConfigureWithLimit | src/ledc/timer.rs:138-159 | the steps of `configure` for a given bound: error iff the divisor is 0 or not below the bound, nothing written then; otherwise the register and the configured flag as above |
| Ledc.DivNumField | src/ledc/timer.rs:225-227 | the 18-bit `div_num` field keeps a divisor congruent to it modulo 0x4_0000, and keeps it unchanged iff it is below 0x4_0000 |
| Ledc.DivisorStored | src/ledc/timer.rs:149-153 | every divisor the corrected bound accepts is stored unchanged, and the bound as written accepts it too |
| Ledc.DivisorAsWrittenTruncated | src/ledc/timer.rs:146-153 | 50 Hz with a 10-bit duty from 80 MHz gives divisor 400000, accepted by the 20-bit check and stored as 137856 |
| Ledc.Timer.ConfigureHw | src/ledc/timer.rs:215-268 | the timer's register gets the source selection, reset and pause cleared, the divisor's low 18 bits and the duty; the update bit is cleared for low-speed timer 0, whose `write` starts from the reset value, and kept by every other timer's `modify` |
| Ledc.Timer.UpdateHw | src/ledc/timer.rs:271-290 | a low-speed timer sets its update bit; a high-speed timer's register is unchanged |
| Leds.RgbPatternShape | examples/leds.rs:29-48 | In the `rgb` pattern each LED has exactly one channel lit, blue for positions 0 mod 3, green for 1 and red for 2, and the pattern repeats every three LEDs |
| Leds.RowRange | examples/leds.rs:143-161 | Each row's range of LEDs lies within the strip |
| Leds.RowsPartition | examples/leds.rs:143-161 | The top, middle and bottom rows cover the strip end to end without overlap, with lengths 4, 10 and 9; any row number from 2 on means the bottom row |
| Leds.GradientChannelExact | examples/leds.rs:49-61 | Each gradient channel is the start plus the step rounded toward zero, never wraps, stays between the two end colours, and starts and ends exactly at them |
| Leds.GradientChannel | examples/leds.rs:49-61 | the wrapped u8 arithmetic of one gradient channel; LED 0 takes the start colour |
| Leds.OffAsWrittenRedStrip | examples/leds.rs:78-83 | As written, a strip lit all red counts as off, and so does the `rgb` pattern |
| Leds.OffMeansDark | examples/leds.rs:78-83 | The corrected test holds exactly when no channel of any LED is lit, and then the written test holds too |
| Leds.Off | examples/leds.rs:78-83 | corrected, every LED of a strip that is off has brightness 0 |
| Leds.OffAsWritten | examples/leds.rs:78-83 | as written, every strip that is truly dark counts as off |
| Leds.BrightnessSum | examples/leds.rs:62-68 | An LED's brightness is the sum of its channels modulo 256, and the default LED has brightness 30 |
| Leds.Brightness | examples/leds.rs:62-68 | an LED whose channels sum below 256 has that sum as brightness, and brightness 0 means the sum is 0, 256 or 512 |
| Leds.LightData.Empty | examples/leds.rs:165-169 | Every LED is dark |
| Leds.LightData.Default | examples/leds.rs:171-177 | Every LED is (10, 10, 10) |
| Leds.LightData.From | examples/leds.rs:179-183 | The LEDs are exactly the given colours |
| Leds.LightData.Rgb | examples/leds.rs:29-48 | LED k holds the `rgb` pattern's colour for k |
| Leds.LightData.FromGradient | examples/leds.rs:49-61 | LED i holds the gradient's colour for i |
| Leds.LightData.Get | examples/leds.rs:84-86 | on a strip that is off, every LED reads as black |
| Leds.LightData.SetColor | examples/leds.rs:116-118 | Only the given LED changes, to the colour |
| Leds.LightData.SetRed | examples/leds.rs:107-109 | Only the red channel of the given LED changes |
| Leds.LightData.SetGreen | examples/leds.rs:110-112 | Only the green channel of the given LED changes |
| Leds.LightData.SetBlue | examples/leds.rs:113-115 | Only the blue channel of the given LED changes |
| Leds.LightData.SetLightness | examples/leds.rs:134-138 | Only the given LED changes, to grey at the lightness |
| Leds.LightData.SetColorAll | examples/leds.rs:87-91 | Every LED takes the colour |
| Leds.LightData.SetChannelAll | examples/leds.rs:92-106 | One channel of every LED takes the value; the other channels keep theirs |
| Leds.LightData.SetLightnessAll | examples/leds.rs:119-123 | Every LED is grey at the lightness |
| Leds.LightData.EditRow | examples/leds.rs:143-161 | The LEDs of the row take the colour and every other LED keeps its own |
| Leds.LightData.IsOffAsWritten | examples/leds.rs:78-83 | The loop answers the written test of the whole strip |
| Leds.LightData.IsOff | examples/leds.rs:78-83 | The loop answers the corrected test of the whole strip |
| Leds.LightData.GetBrightness | examples/leds.rs:62-68 | The result is the largest LED brightness: no LED is brighter and some LED reaches it |
| Leds.StepBy3 | examples/leds.rs:32-45 | Stepping by three from `start` sets the channel on exactly the LEDs at `start` mod 3 and leaves the others unchanged |
| LockExecution.RunBalanced | src/lock_execute.rs:23-58 | a sequence of locks and drops runs iff no prefix drops more than it locked; then the count is locks minus drops, and start has run once more than stop exactly while the count is positive |
| LockExecution.Run | src/lock_execute.rs:23-58 | a run that does not fail has at most one action per use; with no action yet the count is 0, and otherwise the first action is a start |
| LockExecution.BalanceAppend | src/lock_execute.rs:33-55 | appending a start adds one to the start/stop balance, a stop takes one away |
| LockExecution.LockExecute.constructor | src/lock_execute.rs:16-21 | a new lock has count 0 and has run neither start nor stop |
| LockExecution.LockExecute.Lock | src/lock_execute.rs:23-42 | locking raises the count by one and runs start exactly when the count becomes 1 |
| LockExecution.LockExecute.Count | src/lock_execute.rs:44-46 | the count is returned, and it is positive iff start has run once more than stop |
| LockExecution.LockExecute.Drop | src/lock_execute.rs:49-58 | dropping a guard lowers the count by one and runs stop exactly when the count becomes 0 |
| Mem.WrappingNeg | src/mem.rs:23-24 | `wrapping_neg` of an address is the u32 that adds up with it to a multiple of 2^32 |
| Mem.BytesToAlign | src/mem.rs:23-24 | `x.wrapping_neg() % PTR_SIZE` is below the word size and brings x to a word boundary |
| Mem.CopyMeaning | src/mem.rs:19-45 | a copy of n bytes puts the source bytes at the destination and changes no byte outside it |
| Mem.FillMeaning | src/mem.rs:86-167 | a fill of n bytes sets every one of them to the fill byte and changes no byte outside them |
| Mem.CopyUpExtends | src/mem.rs:27-43 | copying upward k more bytes after the first i extends the copy, when the bytes still to be read were not overwritten |
| Mem.CopyDownExtends | src/mem.rs:56-72 | copying downward k more bytes below the j already copied extends the copy, when the bytes still to be read were not overwritten |
| Mem.FillExtends | src/mem.rs:91-107 | filling k more bytes after the first i extends the fill |
| Mem.CopyWord | src/mem.rs:34 | one word load and store copies those four bytes and changes nothing else |
| Mem.FillWord | src/mem.rs:100 | a word store of `[c as u8; 4]` fills those four bytes and changes nothing else |
| Mem.StoreCopyUpByte | src/mem.rs:28 | one byte store extends an upward copy by one byte |
| Mem.StoreCopyUpWord | src/mem.rs:34 | one word store extends an upward copy by a word |
| Mem.StoreCopyDownByte | src/mem.rs:57-58 | one byte store extends a downward copy by one byte |
| Mem.StoreCopyDownWord | src/mem.rs:63-64 | one word store extends a downward copy by a word |
| Mem.CopyUpBytes | src/mem.rs:40-43 | the last loop of `memcpy` completes the copy of all n bytes |
| Mem.CopyUpWords | src/mem.rs:33-36 | the word loop of `memcpy` keeps every access inside `[0, n)` and keeps the first i bytes copied |
| Mem.Memcpy | src/mem.rs:19-45 | `memcpy` returns dst, leaves `dst[0..n)` equal to the old `src[0..n)` and changes no other byte, for disjoint buffers and for a source above the destination |
| Mem.CopyDownBytes | src/mem.rs:69-72 | the last loop of `memcpy_reverse` completes the copy of all n bytes |
| Mem.CopyDownWords | src/mem.rs:62-65 | the word loop of `memcpy_reverse` stays inside the buffer and keeps the bytes from i upward copied |
| Mem.MemcpyReverse | src/mem.rs:48-74 | `memcpy_reverse` gives the same final memory as `memcpy`, for disjoint buffers and for a source below the destination |
| Mem.Memmove | src/mem.rs:77-83 | `memmove` returns dst and leaves `dst[0..n)` equal to the original source for every overlap, and changes no other byte |
| Mem.StoreFillByte | src/mem.rs:92 | one byte store extends a fill by one byte |
| Mem.StoreFillWord | src/mem.rs:100 | one word store extends a fill by a word |
| Mem.FillBytes | src/mem.rs:104-107 | the byte loop fills up to its end offset |
| Mem.FillWords | src/mem.rs:99-102 | the word loop fills up to its end offset, a whole number of words away |
| Mem.StoreFillChunk | src/mem.rs:128-131 | k consecutive word stores extend a fill by k words |
| Mem.Memset2 | src/mem.rs:86-111 | `memset2` returns s and sets every byte of `s[0..n)` to `c as u8`, changing no other byte |
| Mem.Memset3 | src/mem.rs:114-142 | `memset3` returns the advanced pointer `s + n` and sets every byte of `s[0..n)` to `c as u8`, changing no other byte |
| Mem.AlignTo | src/mem.rs:146 | `align_to_mut` splits the buffer into a prefix, whole aligned words and a postfix shorter than a word, adding up to n |
| Mem.FillChunks | src/mem.rs:153-159 | the exact chunks of one size are all filled, and the remainder left is smaller than the chunk size |
| Mem.Memset | src/mem.rs:145-167 | `memset` returns s and sets every byte of `s[0..n)` to `c as u8`, changing no other byte |
| Mem.Compare | src/mem.rs:170-195 | the C comparison of two byte strings lies in [-255, 255] |
| Mem.CompareZeroIffEqual | src/mem.rs:170-195 | the comparison is 0 exactly when the strings are equal |
| Mem.CompareSkipsEqualPrefix | src/mem.rs:174-193 | an equal prefix does not change the result |
| Mem.CompareAtFirstDifference | src/mem.rs:178-180 | the result is `a[i] - b[i]` at the first index where the strings differ |
| Mem.CompareAntisymmetric | src/mem.rs:170-195 | swapping the operands negates the comparison |
| Mem.CompareWord | src/mem.rs:175-181 | comparing a word byte by byte in address order either finds the whole comparison's result or extends the equal prefix by a word |
| Mem.CompareBytes | src/mem.rs:186-194 | the byte loop of `memcmp` returns the comparison of the whole strings |
| Mem.Memcmp | src/mem.rs:170-195 | `memcmp` returns 0 iff the n bytes are equal, and otherwise the difference at the first differing byte |
| Mem.Bcmp | src/mem.rs:198-200 | `bcmp` equals `memcmp` and is 0 exactly when the bytes are equal |
| GpioEnableW1ts.VariantRoundTrip | esp32/src/gpio/gpio_enable_w1ts_reg.rs:15-50 | The reader's variant and the writer's bit are inverse in both directions; `is_enable` holds exactly for a set bit and `is_disable` for a clear one |
| GpioEnableW1ts.PinBit | esp32/src/gpio/gpio_enable_w1ts_reg.rs:86-89 | Bit n becomes the value and the other 31 bits are unchanged |
| GpioEnableW1ts.PinSetBit | esp32/src/gpio/gpio_enable_w1ts_reg.rs:76-78 | Bit n becomes set; nothing else changes |
| GpioEnableW1ts.PinClearBit | esp32/src/gpio/gpio_enable_w1ts_reg.rs:81-83 | Bit n becomes clear; nothing else changes |
| GpioEnableW1ts.PinVariant | esp32/src/gpio/gpio_enable_w1ts_reg.rs:59-63 | Bit n becomes the variant's bit; nothing else changes |
| GpioEnableW1ts.PinEnable | esp32/src/gpio/gpio_enable_w1ts_reg.rs:71-73 | Bit n becomes set; nothing else changes |
| GpioEnableW1ts.PinDisable | esp32/src/gpio/gpio_enable_w1ts_reg.rs:66-68 | Bit n becomes clear; nothing else changes |
| GpioEnableW1ts.ReadAfterWrite | esp32/src/gpio/gpio_enable_w1ts_reg.rs:2509-2514 | Pin n reads what was written to it, other pins read as before, writes to different pins commute, and every pin reads clear after reset |
| GpioEnable1W1ts.VariantRoundTrip | esp32/src/gpio/gpio_enable1_w1ts_reg.rs:15-50 | The reader's variant and the writer's bit are inverse in both directions; `is_enable` holds exactly for a set bit |
| GpioEnable1W1ts.PinBit | esp32/src/gpio/gpio_enable1_w1ts_reg.rs:86-89 | Pin n's bit, n - 32, becomes the value and the other bits are unchanged |
| GpioEnable1W1ts.PinVariant | esp32/src/gpio/gpio_enable1_w1ts_reg.rs:59-63 | Bit n - 32 becomes the variant's bit; nothing else changes |
| GpioEnable1W1ts.PinEnable | esp32/src/gpio/gpio_enable1_w1ts_reg.rs:71-73 | Bit n - 32 becomes set; nothing else changes |
| GpioEnable1W1ts.PinDisable | esp32/src/gpio/gpio_enable1_w1ts_reg.rs:66-68 | Bit n - 32 becomes clear; nothing else changes |
| GpioEnable1W1ts.PinSetBit | esp32/src/gpio/gpio_enable1_w1ts_reg.rs:76-78 | Bit n - 32 becomes set; nothing else changes |
| GpioEnable1W1ts.PinClearBit | esp32/src/gpio/gpio_enable1_w1ts_reg.rs:81-83 | Bit n - 32 becomes clear; nothing else changes |
| GpioEnable1W1ts.ReadAfterWrite | esp32/src/gpio/gpio_enable1_w1ts_reg.rs:637-642 | Pin n reads what was written to it, other pins read as before, and bits 8 to 31 are never touched |
| GpioOut1W1tc.VariantRoundTrip | esp32/src/gpio/gpio_out1_w1tc_reg.rs:15-50 | The reader's variant and the writer's bit are inverse in both directions; `is_set` holds exactly for a set bit and `is_unset` for a clear one |
| GpioOut1W1tc.PinBit | esp32/src/gpio/gpio_out1_w1tc_reg.rs:86-89 | Pin n's bit, n - 32, becomes the value and the other bits are unchanged |
| GpioOut1W1tc.PinVariant | esp32/src/gpio/gpio_out1_w1tc_reg.rs:59-63 | Bit n - 32 becomes the variant's bit; nothing else changes |
| GpioOut1W1tc.PinSet | esp32/src/gpio/gpio_out1_w1tc_reg.rs:66-68 | Bit n - 32 becomes set; nothing else changes |
| GpioOut1W1tc.PinUnset | esp32/src/gpio/gpio_out1_w1tc_reg.rs:71-73 | Bit n - 32 becomes clear; nothing else changes |
| GpioOut1W1tc.PinSetBit | esp32/src/gpio/gpio_out1_w1tc_reg.rs:76-78 | Bit n - 32 becomes set; nothing else changes |
| GpioOut1W1tc.PinClearBit | esp32/src/gpio/gpio_out1_w1tc_reg.rs:81-83 | Bit n - 32 becomes clear; nothing else changes |
| GpioOut1W1tc.ReadAfterWrite | esp32/src/gpio/gpio_out1_w1tc_reg.rs:637-642 | Pin n reads what was written to it, other pins read as before, and bits 8 to 31 are never touched |
| GpioOutW1tc.PinAWBitIsHigh | esp32/src/gpio/gpio_out_w1tc_reg.rs:13-27 | The written bit is set exactly for HIGH |
| GpioOutW1tc.PinBit | esp32/src/gpio/gpio_out_w1tc_reg.rs:62-65 | Bit n becomes the value and the other bits are unchanged |
| GpioOutW1tc.PinVariant | esp32/src/gpio/gpio_out_w1tc_reg.rs:35-39 | Bit n becomes the variant's bit; nothing else changes |
| GpioOutW1tc.PinLow | esp32/src/gpio/gpio_out_w1tc_reg.rs:42-44 | Bit n becomes clear; nothing else changes |
| GpioOutW1tc.PinHigh | esp32/src/gpio/gpio_out_w1tc_reg.rs:47-49 | Bit n becomes set; nothing else changes |
| GpioOutW1tc.PinSetBit | esp32/src/gpio/gpio_out_w1tc_reg.rs:52-54 | Bit n becomes set; nothing else changes |
| GpioOutW1tc.PinClearBit | esp32/src/gpio/gpio_out_w1tc_reg.rs:57-59 | Bit n becomes clear; nothing else changes |
| GpioOutW1tc.HighFromReset | esp32/src/gpio/gpio_out_w1tc_reg.rs:4-9 | Setting pin n alone from the reset value stores the mask `1 << n` |
| GpioRegisterBlock.Run | esp32/src/gpio.rs:5-16 | A run of single registers declared back to back is documented at a four-byte stride from its base |
| GpioRegisterBlock.NoOverlap | esp32/src/gpio.rs:3-94 | In a `repr(C)` block every field ends no later than any later field starts |
| GpioRegisterBlock.DocumentedIsStart | esp32/src/gpio.rs:3-94 | When the documented offsets agree field by field with the summed sizes, each register's documented offset is where it starts |
| GpioRegisterBlock.RunDocumented | esp32/src/gpio.rs:5-16 | A run of registers agrees with its documented offsets from its base and takes four bytes per register |
| GpioRegisterBlock.DocumentedAppend | esp32/src/gpio.rs:3-94 | Agreement with the documented offsets and the block size compose over consecutive parts of the block |
| GpioRegisterBlock.LayoutDocumented | esp32/src/gpio.rs:3-94 | Every register the block declares lies at its documented offset, and the block takes 0x5a0 bytes |
| GpioRegisterBlock.LayoutMatchesDocumentation | esp32/src/gpio.rs:3-94 | For any two fields of the block, the first begins at its documented offset and ends before the second begins |
| GpioRegisterBlock.FuncInSelEntry | esp32/src/gpio.rs:35-39 | Entry k of the input-selector array lies inside the array, which runs from 0x130 to 0x530; the last output selector, for GPIO33, is at 0x59c |
| GpioFuncInSelCfg.VariantRoundTrip | esp32/src/gpio/gpio_func_in_sel_cfg/gpio_func_in_sel_cfg_reg.rs:29-144 | Each reader's variant inverts its writer's conversion to a bit, in both directions, for the inversion and the routing flag |
| GpioFuncInSelCfg.Read | esp32/src/gpio/gpio_func_in_sel_cfg/gpio_func_in_sel_cfg_reg.rs:183-198 | The pad number a selector reads fits its six bits |
| GpioFuncInSelCfg.InSelBits | esp32/src/gpio/gpio_func_in_sel_cfg/gpio_func_in_sel_cfg_reg.rs:22-25 | Bits 0 to 5 take the low six bits of the value and read back as the value modulo 64; bits 6 to 31 are unchanged |
| GpioFuncInSelCfg.InInvSelVariant | esp32/src/gpio/gpio_func_in_sel_cfg/gpio_func_in_sel_cfg_reg.rs:73-103 | Only bit 6 changes, to the inversion's bit |
| GpioFuncInSelCfg.SigInSelWrite | esp32/src/gpio/gpio_func_in_sel_cfg/gpio_func_in_sel_cfg_reg.rs:151-181 | Only bit 7 changes, to the routing flag's bit |
| GpioFuncInSelCfg.ReadAfterWrite | esp32/src/gpio/gpio_func_in_sel_cfg/gpio_func_in_sel_cfg_reg.rs:183-198 | Reading back the three written fields gives them again, the pad number modulo 64; a pin number or either constant source reads back exactly |
| GpioFuncInSelCfg.WriteKeepsHighBits | esp32/src/gpio/gpio_func_in_sel_cfg/gpio_func_in_sel_cfg_reg.rs:22-25 | The writers leave bits 8 to 31 as they were |
| GpioFuncInSelCfg.WriteBack | esp32/src/gpio/gpio_func_in_sel_cfg/gpio_func_in_sel_cfg_reg.rs:183-198 | Writing back the fields just read leaves the word unchanged |
| GpioFuncOutSelCfg.VariantRoundTrip | esp32/src/gpio/gpio_func_out_sel_cfg/gpio_func_out_sel_cfg_reg.rs:29-222 | Each reader's variant inverts its writer's conversion to a bit, in both directions, for the inversions and the enable source |
| GpioFuncOutSelCfg.Read | esp32/src/gpio/gpio_func_out_sel_cfg/gpio_func_out_sel_cfg_reg.rs:261-282 | The signal a selector reads fits its nine bits |
| GpioFuncOutSelCfg.OutSelBits | esp32/src/gpio/gpio_func_out_sel_cfg/gpio_func_out_sel_cfg_reg.rs:22-25 | Bits 0 to 8 take the low nine bits of the value and read back as the value modulo 512; bits 9 to 31 are unchanged |
| GpioFuncOutSelCfg.FlagBit | esp32/src/gpio/gpio_func_out_sel_cfg/gpio_func_out_sel_cfg_reg.rs:100-103 | Only the flag's own bit (9, 10 or 11) changes, to the value |
| GpioFuncOutSelCfg.OutInvSelVariant | esp32/src/gpio/gpio_func_out_sel_cfg/gpio_func_out_sel_cfg_reg.rs:73-103 | Only bit 9 changes, to the inversion's bit |
| GpioFuncOutSelCfg.OenSelWrite | esp32/src/gpio/gpio_func_out_sel_cfg/gpio_func_out_sel_cfg_reg.rs:151-181 | Only bit 10 changes, to the enable source's bit |
| GpioFuncOutSelCfg.OenInvSelVariant | esp32/src/gpio/gpio_func_out_sel_cfg/gpio_func_out_sel_cfg_reg.rs:229-259 | Only bit 11 changes, to the inversion's bit |
| GpioFuncOutSelCfg.ReadAfterWrite | esp32/src/gpio/gpio_func_out_sel_cfg/gpio_func_out_sel_cfg_reg.rs:261-282 | Reading back the four written fields gives them again, the signal modulo 512 |
| GpioFuncOutSelCfg.WriteKeepsHighBits | esp32/src/gpio/gpio_func_out_sel_cfg/gpio_func_out_sel_cfg_reg.rs:22-25 | The writers leave bits 12 to 31 as they were |
| GpioFuncOutSelCfg.WriteBack | esp32/src/gpio/gpio_func_out_sel_cfg/gpio_func_out_sel_cfg_reg.rs:261-282 | Writing back the fields just read leaves the word unchanged |
| Pll.Shl8 | src/clock_control/pll.rs:58-64 | a u8 left shift that does not overflow multiplies by the power of two |
| Pll.Pow2Eight | src/clock_control/pll.rs:58-64 | the powers of two the shifts by 3, 4, 6, 7 and 8 use |
| Pll.OrDouble | src/clock_control/pll.rs:58-64 | or-ing two doubled values doubles their or |
| Pll.OrShift | src/clock_control/pll.rs:58-64 | shifting both operands left by k shifts their or by k |
| Pll.OrDisjoint | src/clock_control/pll.rs:58-64 | or-ing a value shifted by k with one below 2^k adds them |
| Pll.LrefFields | src/clock_control/pll.rs:57-59 | for fields that fit their widths the lref byte is lref*128 + div10_8*16 + div_ref, and the three fields can be read back from it |
| Pll.GetLref | src/clock_control/pll.rs:57-59 | for fields within their widths the lref byte is lref*128 + div10_8*16 + div_ref |
| Pll.GetDiv7To0 | src/clock_control/pll.rs:60-62 | for fields within their widths, the div7_0 byte together with bits 4 to 6 of the lref byte gives the 11-bit feedback divider |
| Pll.LrefDigits | src/clock_control/pll.rs:57-59 | the three fields are recovered from the sum by division and remainder |
| Pll.OrThree | src/clock_control/pll.rs:58 | or-ing the three non-overlapping shifted fields adds them |
| Pll.DcurFields | src/clock_control/pll.rs:63-65 | for fields that fit the dcur byte is bw*64 + dcur, and both fields can be read back from it |
| Pll.GetDcur | src/clock_control/pll.rs:63-65 | for fields within their widths the dcur byte is bw*64 + dcur |
| Pll.TableBytes | src/clock_control/pll.rs:49-65 | the six configurations give lref 0x00, 0xcc, 0xcb and dcur 0xc6, 0x40, 0x40 for the 40, 26 and 24 MHz crystals |
| Pll.PllConfig | src/clock_control/pll.rs:112-135 | a configuration exists iff the crystal is 40, 26 or 24 MHz; div10_8 is 0 for 40 MHz and 4 otherwise, and div7_0 is 28 or 144 for 480 MHz and 32 or 224 for 320 MHz |
| Pll.EnableDelay | src/clock_control/pll.rs:141-145 | the enable delay is 80 us iff the slow RTC clock is the 150 kHz one, and 160 us otherwise |
| Pll.PllControl.constructor | src/clock_control/pll.rs:70 | the power-down bits and the crystal and slow-clock settings are the given ones, and nothing is written yet |
| Pll.PllControl.WriteI2c | src/clock_control/pll.rs:71-75 | one write to the internal I2C bus is recorded |
| Pll.PllControl.PllDisable | src/clock_control/pll.rs:77-89 | the internal bus power-down follows the APLL power-down, and the other three power-down bits are set |
| Pll.PllControl.PllEnable | src/clock_control/pll.rs:91-109 | all four power-down bits are cleared and the five calibration reset values are written in order |
| Pll.PllControl.SetPllFrequency | src/clock_control/pll.rs:111-149 | the two divider writes always happen; an unsupported crystal then gives UnsupportedPllConfig; otherwise lref, div7_0 and dcur are written and the enable delay follows |
| RamAttribute.Section | procmacros/src/lib.rs:29-43 | Only items that are not a static, a const or a function get no link section |
| RamAttribute.SectionTokens | procmacros/src/lib.rs:30-37 | The attribute's tokens are empty exactly when there is no section |
| RamAttribute.Ram | procmacros/src/lib.rs:25-26 | The expansion fails exactly when the input does not parse |
| RamAttribute.RamExpansion | procmacros/src/lib.rs:25-49 | The item's tokens come out unchanged after the attribute; statics and consts get `.data`, functions `.rwtext`; any other item gets no attribute and exactly the one error, which nothing else reports |
| RamAttribute.ArgumentsIgnored | procmacros/src/lib.rs:25 | The attribute's arguments do not affect the expansion |
| RamAttribute.SectionByKind | procmacros/src/lib.rs:29-43 | Two items of the same kind get the same attribute, whatever their contents |
| RegisterWord.ValueOfBits | esp32/src/gpio/gpio_func_in_sel_cfg/gpio_func_in_sel_cfg_reg.rs:183-198 | A number of n bits survives the round trip through its bit string |
| RegisterWord.BitsOfValue | esp32/src/gpio/gpio_func_in_sel_cfg/gpio_func_in_sel_cfg_reg.rs:183-198 | A bit string survives the round trip through its number |
| RegisterWord.WordRoundTrip | esp32/src/gpio/gpio_enable_w1ts_reg.rs:1-12 | A register's u32 and its 32 bits are the same value viewed two ways, in both directions, and the reset value 0 is the all-clear word |
| RegisterWord.FieldAfterWrite | esp32/src/gpio/gpio_func_in_sel_cfg/gpio_func_in_sel_cfg_reg.rs:22-25 | Reading a field after writing it gives the value masked to the field's width, and every bit outside the field keeps its value |
| RegisterWord.WriteFieldBack | esp32/src/gpio/gpio_func_in_sel_cfg/gpio_func_in_sel_cfg_reg.rs:183-198 | Writing back the value a field already holds leaves the word unchanged |
| RegisterWord.BitField | esp32/src/gpio/gpio_func_in_sel_cfg/gpio_func_in_sel_cfg_reg.rs:100-103 | A one-bit field is the bit itself, and writing it sets exactly that bit |
| RegisterWord.MaskValue | src/gpio/mod.rs:247 | The mask `1 << k` has bit k alone set, and as a number it is 2^k |
| RegisterWord.SingleBitValue | src/gpio/mod.rs:247 | A bit string whose only set bit is bit k has the value 2^k |
| RegisterWord.Writer.constructor | esp32/src/gpio/gpio_func_in_sel_cfg/gpio_func_in_sel_cfg_reg.rs:200-216 | A writer starts from the given word |
| RtcClk.Low16 | src/rtc_clk.rs:122-128 | the low half of a word is below 0x10000 |
| RtcClk.High16 | src/rtc_clk.rs:122 | the high half of a word is below 0x10000 |
| RtcClk.ValidIffDoubled | src/rtc_clk.rs:119-123 | a word is a valid clock value iff it holds one value other than 0 and 0xffff in both 16-bit halves |
| RtcClk.ClkValIsValid | src/rtc_clk.rs:119-123 | a valid word is its low half doubled into both halves, and that half is neither 0 nor 0xffff |
| RtcClk.ClkValOfDoubled | src/rtc_clk.rs:125-129 | a value doubled into both halves fits 32 bits and converts back to the value |
| RtcClk.RegValToClkVal | src/rtc_clk.rs:125-129 | the clock value is the low half of the word: below 0x10000, and the word is its high half times 0x10000 plus it |
| RtcClk.XtalFreqOfWord | src/rtc_clk.rs:106-117 | an invalid word gives 0; a valid word gives its value with the ROM-log bit (bit 0) cleared, so even values come back unchanged |
| RtcClk.XtalFreqGet | src/rtc_clk.rs:106-117 | an invalid word gives 0; a valid word gives an even value below 0xffff that is its low half or one below it |
| RtcClk.ReadConfigConsistent | src/rtc_clk.rs:44-103 | reading the configuration fails iff APLL or a reserved PLL period is selected; otherwise the divider is positive, the frequency is the source frequency over the divider, the source matches the selector, and from the crystal the divider is pre_div_cnt+1 over the crystal frequency |
| RtcClk.ReadConfig | src/rtc_clk.rs:44-103 | reading fails iff APLL or a reserved PLL period is selected; otherwise the divider is positive and the frequency is the source frequency over it; with the crystal selected the source is the crystal and the divider pre_div_cnt + 1 |
| RtcWatchdog.ActionBits | src/clock_control/watchdog.rs:13 | each stage action has a 3-bit code below 5 |
| RtcWatchdog.ActionOf | src/clock_control/watchdog.rs:106-121 | a stage field that reads as an action has that action's code |
| RtcWatchdog.ActionRoundTrip | src/clock_control/watchdog.rs:106-121 | an action's code reads back as that action; a stage field reads as no action iff its code is 5 or more, and a field that reads as an action is that action's code |
| RtcWatchdog.ConversionsRoundDown | src/clock_control/watchdog.rs:89-99 | converting microseconds to slow-clock ticks and back never gives more than the start value, in either direction |
| RtcWatchdog.CalcPeriod | src/clock_control/watchdog.rs:89-93 | when the quotient fits u32, the period is the floor of 1e6 * ticks / slow: r * slow <= 1e6 * ticks < (r + 1) * slow |
| RtcWatchdog.CalcTicks | src/clock_control/watchdog.rs:96-99 | when the quotient fits u32, the ticks are the floor of us * slow / 1e6: r * 1e6 <= us * slow < (r + 1) * 1e6 |
| RtcWatchdog.PeriodRoundTripTight | src/clock_control/watchdog.rs:89-99 | a period converted to ticks and back loses less than one tick's worth of microseconds, plus one |
| RtcWatchdog.TicksFit | src/clock_control/watchdog.rs:96-99 | for a slow clock of at most 1 MHz the tick count is us*slow/10^6 and fits 32 bits without truncation |
| RtcWatchdog.LossBound | src/clock_control/watchdog.rs:89-99 | two floor divisions in a row lose at most 10^6/slow + 1 |
| RtcWatchdog.Watchdog.constructor | src/clock_control/watchdog.rs:60-64 | the watchdog starts with the given registers and no writes |
| RtcWatchdog.Watchdog.Config | src/clock_control/watchdog.rs:102-140 | reading the configuration fails with UnsupportedWatchdogConfig iff a stage field holds no valid action |
| RtcWatchdog.Watchdog.SetConfig | src/clock_control/watchdog.rs:143-180 | between unblock key and block value it feeds, writes the four actions, enable, reset lengths, pause and CPU reset flags, and the four periods in ticks; the configuration then read back has the same actions and flags and periods no longer than the ones set |
| RtcWatchdog.Watchdog.Start | src/clock_control/watchdog.rs:187-206 | between unblock key and block value it feeds, sets the stage-0 period and enables with pause in sleep and stage-0 action RESETRTC |
| RtcWatchdog.Watchdog.Disable | src/clock_control/watchdog.rs:211-218 | between unblock key and block value it feeds and clears the enable and flash-boot bits |
| RtcWatchdog.Watchdog.Feed | src/clock_control/watchdog.rs:223-227 | between unblock key and block value it feeds |
| Serial.SclkFreq | src/serial.rs:18-19 | the source clock is 40 MHz with tick_ref_always_on set and 1 MHz without |
| Serial.ClkDiv | src/serial.rs:273 | clk_div is the floor of sclk*16 over the baud rate |
| Serial.FractionalPart | src/serial.rs:277 | the fractional field is the low four bits, below 16 |
| Serial.IntegralPart | src/serial.rs:275-277 | the integral field times 16 plus the fractional field is the divisor |
| Serial.Divisor | src/serial.rs:289 | `(clkdiv << 4)` or-ed with `frag` has clkdiv as its quotient by 16 and frag as its remainder |
| Serial.DivisorRoundTrip | src/serial.rs:273-289 | splitting clk_div into clkdiv and frag and joining them again gives clk_div back |
| Serial.BaudOf | src/serial.rs:289 | the baud rate read back is the floor of sclk*16 over the divider |
| Serial.BaudReadBack | src/serial.rs:268-290 | the divider is 0 iff the baud rate exceeds sclk*16; otherwise the rate read back is at least the one requested and exceeds it by less than one divider step |
| Serial.ReadBackBounds | src/serial.rs:273-289 | two floor divisions in a row give back at least the original divisor, within less than one step |
| Serial.StopFields | src/serial.rs:218-236 | dl1_en is set iff two stop bits were asked for; the stop-bit field is 1.5 for STOP1P5 and 1 otherwise (the two-stop-bit workaround) |
| Serial.StopBitsKept | src/serial.rs:218-236 | the field and dl1_en together still give the number of stop bits asked for |
| Serial.StopHalfBits | src/serial.rs:218-236 | a frame's stop time is 2 to 6 half bits, an odd number of them exactly for the 1.5-bit field, and at least two bits when dl1_en is set |
| Serial.ParityFields | src/serial.rs:253-265 | parity_en is set iff parity is asked for; None keeps the old parity bit; Odd sets the parity bit and Even clears it |
| Serial.ParityRoundTrip | src/serial.rs:253-265 | the two parity bits read back as the parity asked for |
| Serial.ParityOf | src/serial.rs:253-265 | the parity bits select no parity iff parity_en is clear, and odd parity iff both bits are set |
| Serial.CountFields | src/serial.rs:336-352 | the count is `(mem_cnt << 8)` or-ed with `fifo_cnt`: it fits 16 bits and its high and low bytes are the two counters |
| Serial.Count | src/serial.rs:336-352 | the count lies in the block of 256 values that the memory counter selects, and within 16 bits |
| Serial.Uart.RxCount | src/serial.rs:336-343 | the receive count is 0 iff both receive counters are 0 |
| Serial.Uart.TxCount | src/serial.rs:345-352 | the transmit count is 0 iff both transmit counters are 0, and below 128 iff no memory block is in use and the FIFO holds fewer than 128 bytes |
| Serial.CountZero | src/serial.rs:359-389 | the count is 0 iff both counters are 0 |
| Serial.CountBelow128 | src/serial.rs:398 | the count is below 128 iff mem_cnt is 0 and fifo_cnt is below 128 |
| Serial.Uart.constructor | src/serial.rs:168-186 | creating a UART resets it (the two writes of the pulse), clocks it with UART_MEM, programs the divider fields for the baud rate (the 20-bit `clkdiv` and the fraction, whole when `clk_div` fits), and sets stop bits, data bits and parity |
| Serial.Uart.Reset | src/serial.rs:188-193 | reset writes `perip_rst_en` twice, first with the UART's bit set and then with it cleared, leaving every other bit as before |
| Serial.Uart.Enable | src/serial.rs:195-201 | enable sets the UART and UART_MEM clock bits and clears the UART's reset bit |
| Serial.Uart.Disable | src/serial.rs:203-215 | disable clears the UART's clock and sets its reset bit, and UART_MEM keeps running iff another UART is still clocked |
| Serial.Uart.ChangeStopbits | src/serial.rs:218-236 | only the stop-bit field and dl1_en change, and together they give the stop bits asked for |
| Serial.Uart.ChangeDatabits | src/serial.rs:238-251 | only the data-bit field changes |
| Serial.Uart.ChangeParity | src/serial.rs:253-265 | only the parity bits change, and they read back as the parity asked for |
| Serial.Uart.ChangeBaudrate | src/serial.rs:268-281 | `clkdiv` holds the low 20 bits of `clk_div >> 4` and `clkdiv_frag` its low four bits, `clk_div` being sclk*16/baud; when `clk_div` fits 24 bits the two fields join back to it |
| Serial.ClkdivField | src/serial.rs:275-276 | the 20-bit `clkdiv` field keeps a value congruent to `clk_div >> 4` modulo 2^20, and keeps it whole iff `clk_div` is below 2^24 |
| Serial.ClkDivFits | src/serial.rs:268-277 | `clk_div` fits the register for every rate from the 1 MHz reference tick, and from the 40 MHz clock exactly for rates of at least 39 baud |
| Serial.SlowRateTruncated | src/serial.rs:268-290 | at 30 baud from the 40 MHz clock the integral part 1333333 is stored as 284757, and the rate read back is 140 baud |
| Serial.Uart.GetBaudrate | src/serial.rs:283-290 | a zero divider is the division by zero that panics (None); otherwise the rate read back is the floor of sclk*16 over the divider the fields form |
| Serial.Uart.Read | src/serial.rs:354-365 | read is WouldBlock iff the receive count is 0, and otherwise the byte in the receive FIFO |
| Serial.Uart.Flush | src/serial.rs:388-395 | flush is ready iff the transmit count is 0 |
| Serial.Uart.Write | src/serial.rs:397-405 | write queues the byte iff the transmit count is below 128, and otherwise is WouldBlock and queues nothing |
| Spi.DividerToFrequency | src/spi.rs:237-239 | `divider_to_frequency(apb, d1, d2)` is the floor of `apb / ((d1 + 1) * (d2 + 1))`, never above apb |
| Spi.MinFrequency | src/spi.rs:269 | the slowest rate the dividers reach is `apb / 0x80000` |
| Spi.MinFrequencyIsLowest | src/spi.rs:269-271 | no divider pair gives a lower frequency than the one `change_baudrate` tests against |
| Spi.Abs | src/spi.rs:289-290 | the absolute difference used to rank candidates |
| Spi.Candidate | src/spi.rs:279-284 | the pre-divider guess `apb / (div2 + 1) / baud - 1 + var`, clamped to [0, 0x1fff] |
| Spi.NextCounter | src/spi.rs:277-301 | the best candidate of the counters tried so far stays best when the next counter begins |
| Spi.BestRaised | src/spi.rs:288-299 | a best frequency stays best among all candidates when raised to a value not below it |
| Spi.ItemBits | src/spi.rs:383-384 | an item of size 1, 2 or 4 bytes has `bytes * 8` bits |
| Spi.Divider | src/spi.rs:385 | `divider = 4 / bytes` items per register word, between 1 and 4 |
| Spi.BufferItemCount | src/spi.rs:386 | `buffer_item_count = 64 / bytes`, sixteen words of items |
| Spi.DividerIsQuotient | src/spi.rs:383-386 | divider and item count are the exact quotients `4 / bytes` and `64 / bytes`, and a word holds exactly 32 bits of items |
| Spi.WordOf | src/spi.rs:400-424 | the word index of item k never exceeds k, and is below 16 inside a chunk |
| Spi.SlotOf | src/spi.rs:401-418 | the slot of item k within its word is below the divider |
| Spi.WordSlot | src/spi.rs:400-424 | item k goes to word `k / divider` at slot `k % divider` |
| Spi.WordsUsed | src/spi.rs:482 | the words of a chunk of n items: one more than the last full word when a word is partly used |
| Spi.WordsUsedIsCeiling | src/spi.rs:482 | the words written are `(count + divider - 1) / divider` |
| Spi.SlotNext | src/spi.rs:418-428 | the next item fills the next slot of the same word, or slot 0 of the next word after the last slot |
| Spi.SlotOrder | src/spi.rs:417-429 | earlier items sit in earlier words, or earlier slots of the same word, and in a word already used |
| Spi.ItemOffset | src/spi.rs:401-421 | slot i starts at bit `i * bits`, and the item ends within 32 bits |
| Spi.ItemOffsetIsProduct | src/spi.rs:401-421 | slot i starts exactly at bit offset `i * bits` |
| Spi.Weight | src/spi.rs:401-421 | the positional weight of a bit offset is positive |
| Spi.Item | src/spi.rs:400-402 | unpacking slot i of a word with shift and mask `!0 >> (32 - bits)` gives a value that fits the item width |
| Spi.ItemAt | src/spi.rs:400-402 | item k of the data registers fits the item width |
| Spi.Unpack | src/spi.rs:399-410 | the first n items of the registers, item k read from word `k / divider` |
| Spi.NextBuffer | src/spi.rs:418-422 | the first item of a word starts a new buffer value |
| Spi.Place | src/spi.rs:418-425 | storing one item leaves sixteen registers |
| Spi.Pack | src/spi.rs:417-478 | packing items leaves sixteen registers |
| Spi.ItemStore | src/spi.rs:421 | or-ing item v in at slot i makes slot i read v and leaves the lower slots as they were |
| Spi.ItemFirst | src/spi.rs:419-473 | an item stored as the whole word reads back at slot 0 and lies below slot 1 |
| Spi.PlaceExtends | src/spi.rs:417-429 | storing the next item keeps every item already packed readable and adds the new one |
| Spi.PackUnpack | src/spi.rs:400-478 | unpacking a packed chunk recovers exactly the items packed |
| Spi.UnpackUsed | src/spi.rs:482-484 | unpacking reads only the words the chunk used |
| Spi.PackSame | src/spi.rs:471-478 | packing depends only on the items packed |
| Spi.PackInto | src/spi.rs:468-478 | the chunk loop of `write_iter_internal` packs the next `min(64 / bytes, remaining)` items, at least one |
| Spi.FillPack | src/spi.rs:417-429 | the registers plus the pending buffer stay the packed form of the items seen |
| Spi.FillView | src/spi.rs:423-425 | a register write at the end of a word or of the items keeps the view of the registers |
| Spi.ReadItem | src/spi.rs:399-404 | reading item k from the registers gives the k-th incoming item of the chunk |
| Spi.Controller.constructor | src/spi.rs:193-224 | the struct built by `new_internal`, with the clock register written as zero, has sent nothing |
| Spi.Controller.New | src/spi.rs:186-234 | `new_internal` sets the data mode and the bit order of the configuration, then returns the baud-rate error of `change_baudrate` (too high iff above apb, too low iff below the slowest divider; the clock register stays zero then), or, as `change_baudrate` ensures, `clkcnt_h` 0 and `clkcnt_l` half the counter, a best candidate not above the rate, first reached in the search (else the 1/1 fallback) |
| Spi.Controller.Baudrate | src/spi.rs:320-330 | `baudrate()` is the APB frequency with `clk_equ_sysclk` set, and `divider_to_frequency` of the stored dividers otherwise |
| Spi.Controller.ChangeBaudrate | src/spi.rs:242-317 | too high iff above apb; apb itself sets `clk_equ_sysclk` with zero dividers; too low iff below the slowest divider; otherwise the counter is in [1, 0x3f], `clkcnt_l = (div2 + 1) / 2`, `clkcnt_h = 0`, and `baudrate()` reads back the best candidate, never above the rate; when some candidate is accepted, the stored pre-divider is the candidate of the stored counter at one of the offsets -2..1 and is the first place in search order where that frequency is reached; an error leaves the register unchanged |
| Spi.FirstReachedAbove | src/spi.rs:288-294 | a candidate strictly above the best so far is the first one in search order to reach its frequency |
| Spi.FindDividers | src/spi.rs:273-301 | the search ends with a positive counter; it finds no frequency (0, dividers 1 and 1) iff every candidate frequency not above the rate is 0; otherwise its frequency is that of the dividers it returns, at least every candidate not above the rate, and first reached at the offset whose pre-divider it keeps |
| Spi.Controller.ChangeBitOrder | src/spi.rs:333-344 | LSB first sets both bit-order bits and MSB first clears both |
| Spi.Controller.ChangeDataMode | src/spi.rs:347-368 | MODE_0/1/2/3 give (idle edge, out edge) = (0,0), (0,1), (1,1), (1,0) |
| Spi.Controller.StartTransaction | src/spi.rs:431-438 | starting a transfer sends the previous register contents and loads the incoming items |
| Spi.Controller.LoadAndStart | src/spi.rs:482-493 | the used words are written, both bit lengths are `count * bits - 1`, and the chunk is sent |
| Spi.Controller.WriteIterInternal | src/spi.rs:451-501 | `write_iter_internal` sends every item, in order, and returns Ok |
| Spi.Controller.WriteChunk | src/spi.rs:467-494 | one chunk sends the next `min(64 / bytes, remaining)` items |
| Spi.Controller.ReadBack | src/spi.rs:398-411 | reading back a chunk stores the incoming items into `words` in order and leaves the later words untouched |
| Spi.Controller.FillRegisters | src/spi.rs:413-429 | the write loop packs the next `min(64 / bytes, remaining)` words into the registers |
| Spi.Controller.StoreItem | src/spi.rs:418-428 | each item joins the buffer, and a full or final buffer is written to its register |
| Spi.Controller.TransferInternal | src/spi.rs:379-445 | `transfer_internal` sends the original words in order, replaces them with the incoming items, and returns Ok; both bit lengths are equal after a non-empty transfer, and an empty one leaves them as they were |
| Spi.Controller.TransferRound | src/spi.rs:393-440 | one round of the outer loop reads back the previous chunk, sends the next, and makes progress |
| Spi.Controller.ReadPrevious | src/spi.rs:398-411 | the read-back step catches up with the items sent |
| Spi.Controller.SendNext | src/spi.rs:413-439 | the send step sends at least one more item |
| Spi.Controller.SendChunk | src/spi.rs:413-439 | a chunk sends the next words and loads the incoming items for them |
| Spi.Controller.Read | src/spi.rs:525-537 | `read` blocks iff the bus is busy, and otherwise returns the low `bits` of register 0 |
| Spi.Controller.Send | src/spi.rs:539-557 | `send` blocks iff the bus is busy and then changes neither the registers, the bit lengths nor what was sent; otherwise it sets both bit lengths to `bits - 1`, sends the value, and a later `read` returns the incoming item |
| TimerGroup.DividerField | src/timer/mod.rs:253-258 | an accepted divider below 65536 is stored as itself, and the field is 0 iff the divider was 65536 |
| TimerGroup.DividerOf | src/timer/mod.rs:245-258 | the divider a field value stands for is between 1 and 65536 |
| TimerGroup.DividerRoundTrip | src/timer/mod.rs:249-258 | the stored field reads back as the divider that was set |
| TimerGroup.StartAlarm | src/timer/mod.rs:273 | the start alarm is half the APB frequency times the timeout in nanoseconds, wrapped to u64, over 10^9 |
| TimerGroup.StartAlarmExact | src/timer/mod.rs:273 | when the product fits 64 bits, the alarm is (apb/2)*timeout nanoseconds expressed in ticks, i.e. divided by 10^9 |
| TimerGroup.Timer.constructor | src/timer/mod.rs:57-83 | a timer starts with the given configuration, zero load, counter and alarm registers and no writes |
| TimerGroup.Timer.WriteConfig | src/timer/mod.rs:181-223 | a configuration write replaces the configuration register and is logged |
| TimerGroup.Timer.SetValue | src/timer/mod.rs:138-146 | the load registers get the low and the high 32 bits, written low, high, then the load strobe, which sets the counter to the value |
| TimerGroup.Timer.GetValue | src/timer/mod.rs:148-156 | the update strobe latches the counter's present value into the two counter registers, and the value returned, joined from them, is exactly that value |
| TimerGroup.Timer.GetAlarm | src/timer/mod.rs:158-166 | the alarm read back has the two alarm registers as its high and low halves |
| TimerGroup.Timer.SetAlarm | src/timer/mod.rs:168-179 | the alarm registers get the high then the low half, and reading the alarm gives the value back |
| TimerGroup.Timer.Enable | src/timer/mod.rs:181-183 | only the enable bit of the configuration changes |
| TimerGroup.Timer.Increasing | src/timer/mod.rs:185-191 | only the count-up bit changes |
| TimerGroup.Timer.Autoreload | src/timer/mod.rs:193-199 | only the autoreload bit changes |
| TimerGroup.Timer.EnableEdgeInterrupt | src/timer/mod.rs:201-207 | only the edge-interrupt enable bit changes |
| TimerGroup.Timer.EnableLevelInterrupt | src/timer/mod.rs:209-215 | only the level-interrupt enable bit changes |
| TimerGroup.Timer.EnableAlarm | src/timer/mod.rs:217-223 | only the alarm enable bit changes |
| TimerGroup.Timer.AlarmActive | src/timer/mod.rs:225-227 | the alarm is active iff the alarm enable bit is set |
| TimerGroup.Timer.SetDivider | src/timer/mod.rs:248-261 | the result is OutOfRange iff the divider is at most 1 or above 65536, and then nothing is written; otherwise only the divider field changes and reads back as the divider |
| TimerGroup.Timer.Start | src/timer/mod.rs:267-275 | start disables, sets divider 2, loads 0, sets the alarm to (apb/2)*timeout and enables, in that order; the counter is 0 and its latched registers are not touched |
| TimerGroup.Timer.Wait | src/timer/mod.rs:277-284 | wait is WouldBlock, writing nothing, iff the alarm enable bit is clear; otherwise it rewrites that bit set and is ready |
| TimerWatchdog.CalcPeriod | src/timer/watchdog.rs:89-97 | with the corrected division, the period of a tick count is the floor of ticks times 10^9 over the prescaled clock, which is positive |
| TimerWatchdog.CalcPeriodAsWritten | src/timer/watchdog.rs:89-97 | as written, the period times the prescaled clock times 10^9 never exceeds the ticks, so any tick count gives at most 4 ns |
| TimerWatchdog.TickFrequency | src/timer/watchdog.rs:97-102 | the prescaled clock is the APB frequency over the divider, rounded down |
| TimerWatchdog.CalcPeriodAsWrittenExample | src/timer/watchdog.rs:89-98 | as written, one second of ticks at 80 MHz undivided reads back as 0 ns; with the corrected division it is 10^9 ns |
| TimerWatchdog.TicksValue | src/timer/watchdog.rs:100-105 | when the u64 product does not wrap, the ticks are floor(f*period/10^9), and the narrowing to u32 fails iff that does not fit |
| TimerWatchdog.CalcTicksWithDivider | src/timer/watchdog.rs:101-105 | the ticks are `(apb / divider) * period` wrapped to u64, over 10^9, narrowed to u32; None, where `unwrap` panics, iff that value does not fit u32 |
| TimerWatchdog.ConversionsRoundDown | src/timer/watchdog.rs:89-118 | period to ticks to period, and ticks to period to ticks, never grow |
| TimerWatchdog.PeriodRoundTrip | src/timer/watchdog.rs:89-105 | a period converted to ticks and back is no longer than the start |
| TimerWatchdog.TicksRoundTrip | src/timer/watchdog.rs:89-105 | ticks converted to a period and back fit and are no more than the start |
| TimerWatchdog.Watchdog.constructor | src/timer/watchdog.rs:63-69 | the watchdog starts with the given registers and no writes |
| TimerWatchdog.Watchdog.Config | src/timer/watchdog.rs:121-143 | reading the configuration always succeeds, reports the stage actions, reset lengths and prescaler of the registers, and each stage's period is the floor of its hold ticks times 10^9 over the prescaled clock (the corrected conversion TimerWatchdog.CalcPeriod) |
| TimerWatchdog.Watchdog.SetConfig | src/timer/watchdog.rs:146-190 | between unblock key and block value it writes the prescaler first, so the periods are converted at the new divider, then feeds, writes actions and enables, the four periods and the interrupt enable; it reads back the same actions, reset lengths and divider and periods no longer than the ones set |
| TimerWatchdog.Watchdog.ClearInterrupt | src/timer/watchdog.rs:192-198 | the interrupt clear bit is written and nothing else |
| TimerWatchdog.Watchdog.Start | src/timer/watchdog.rs:205-222 | the period is converted at divider 1; between the keys it feeds, sets prescaler 1 and the stage-0 period, and enables with stage-0 action RESETSYSTEM |
| TimerWatchdog.Watchdog.Disable | src/timer/watchdog.rs:228-234 | between the keys it feeds and clears the enable and flash-boot bits |
| TimerWatchdog.Watchdog.Feed | src/timer/watchdog.rs:240-242 | between the keys it feeds |
| Units.Wrap | src/units.rs:28-29 | arithmetic in the primitive type stays below 2^32 or 2^64 and leaves values that fit unchanged |
| Units.FromPrimitive | src/units.rs:51-57 | `x.Hz()`, `x.ms()` and `Quantity::from(x)` build a quantity of the chosen unit and width holding x |
| Units.ToPrimitive | src/units.rs:60-64 | unwrapping a quantity gives a primitive of its width |
| Units.WrapUnwrap | src/units.rs:60-70 | wrapping then unwrapping gives the primitive back, and unwrapping then wrapping gives the quantity back |
| Units.DivPrimitive | src/units.rs:84-89 | `Q(a) / b` is the floor quotient of a by b, in the same unit and width |
| Units.MulPrimitive | src/units.rs:91-96 | `Q(a) * b` is `Q(a * b)` whenever the product fits the width |
| Units.PrimitiveMul | src/units.rs:98-103 | `b * Q(a)` is `Q(b * a)` whenever the product fits the width |
| Units.MulCommutes | src/units.rs:91-103 | `b * Q(a) == Q(a) * b`, wrap-around included |
| Units.DivQuantity | src/units.rs:105-110 | `Q(a) / Q(b)` is the floor quotient a / b as a primitive |
| Units.Add | src/units.rs:112-117 | `Q(a) + Q(b) == Q(a + b)` whenever the sum fits the width |
| Units.Sub | src/units.rs:119-124 | `Q(a) - Q(b) == Q(a - b)` whenever b is at most a |
| Units.AddThenSub | src/units.rs:112-124 | subtracting b undoes adding b, with or without wrap-around |
| Units.Widen | src/units.rs:146-150 | widening a u32 quantity to its U64 twin keeps unit and value |
| Units.Narrow | src/units.rs:151-156 | `TryFrom` back to u32 succeeds exactly when the value is at most u32::MAX, and then keeps the value |
| Units.WidenNarrow | src/units.rs:146-156 | narrowing a widened quantity gives it back, and a successful narrowing widens back to the original |
| Units.ConvertFactor | src/units.rs:324-354 | the factor of every `convert!` instance, between 1000 and 10^9; no other pair of units converts |
| Units.ConvertKeepsDimension | src/units.rs:324-354 | every conversion stays within frequencies or within times, never involves ticks, and changes the unit |
| Units.Convert | src/units.rs:163-181 | a conversion multiplies the value by the factor in the target width, exactly when the product fits |
| Units.ConvertToU64IsExact | src/units.rs:170-174 | converting a u32 quantity into a U64 unit casts first and is always exact |
| Units.ConvertChain | src/units.rs:324-354 | two conversions in a row (MHz to kHz to Hz, s to ms to us, ...) equal the direct conversion, wrap-around included |
| Units.MulParams | src/units.rs:356-405 | the factor and divider of every `multiply!` instance, both positive |
| Units.MulParamsAreUnitRatios | src/units.rs:356-405 | factor over divider is nanoseconds per time unit times hertz per frequency unit over 10^9 |
| Units.NanosPer | src/units.rs:301-320 | a time unit is a positive number of nanoseconds that divides a second |
| Units.HertzPer | src/units.rs:282-297 | a frequency unit is a positive number of hertz that divides a megahertz |
| Units.ConvertFactorIsUnitRatio | src/units.rs:324-354 | each conversion factor is the ratio of the two unit sizes |
| Units.TimeTimesFreq | src/units.rs:187-195 | time times frequency gives ticks, u32 only when both operands are u32 |
| Units.FreqTimesTime | src/units.rs:197-244 | frequency times time gives ticks, u32 only when both operands are u32 |
| Units.MultiplyExact | src/units.rs:187-244 | both orders of multiplication give `t * f * factor / divider` ticks when nothing overflows |
| Units.MillisTimesHertz | src/units.rs:187-202 | `MilliSeconds(t) * Hertz(f) == Ticks(t * f / 1000)` when `t * f` fits u32 |
| Units.DivFactor | src/units.rs:407-430 | the factor of each `divide!` instance is 10^9 over the hertz per frequency unit |
| Units.TicksDivFreqAsWritten | src/units.rs:248-279 | as written, `Ticks(n) / f` gives at most `n / (f * factor)` nanoseconds |
| Units.TicksDivFreqAsWrittenLosesTime | src/units.rs:251-256 | as written, 80 000 000 ticks at 80 MHz come out as 0 ns instead of 10^9 ns |
| Units.TicksDivFreq | src/units.rs:248-279 | corrected: `Ticks(n) / f` is the floor of `n * 10^9 / f_Hz` nanoseconds, in u64 |
| Units.TicksDivFreqRoundTrip | src/units.rs:187-279 | corrected division then multiplication at the same frequency gives at most the ticks started from, and up to 1 GHz loses less than one tick |

## Left out

- Register access itself (the PAC `read`/`write`/`modify`, volatile accesses and the silicon's write-1-to-set and write-1-to-clear behaviour): each register is a field and each write a field update or a log entry; values the hardware reports (done flags, FIFO counts, pending bits) are parameters.
- The generic svd2rust module (`R`, `W`, `Reg`) is not part of this model; the field accessors are modelled on a 32-bit word directly.
- Busy-wait polling loops (I2C and SPI completion, CPU start-up): their termination depends on the hardware, so the completion flags are inputs.
- Concurrency (`spin::Mutex`, `interrupt::free`, `CriticalSectionSpinLockMutex`, the second core): every operation is sequential.
- Floating point: `fade_into`, `set_lightness_percent`, `set_lightness_percent_all` and the `Strip` methods of the LED example, and the LEDC channel duty.
- Calls into ROM and other code we cannot see: the PLL's `write_i2c` calls become a log of writes; the `linked_list_allocator` heap is an oracle (the address or null it returns is a parameter); `syn` parsing in the `#[ram]` macro is a parameter that is None when the parse fails; the diagnostics `check_ram_function` prints are not modelled.
- The linker memory maps copied by build.rs (memory.x, ram.x, rom.x) are not part of this model, and neither is external RAM probing (src/external_ram.rs, src/memory.rs).
- The per-pin `(SIGNAL: FunctionN)` lists of the `gpio!` invocation (src/gpio/mod.rs:731-819), which give each pin's alternate functions, are a map parameter of the routing functions. The signal enumerations come from the module `mux`, which is not part of this model.
- `split` and the `Parts` structure of the GPIO driver are only the constructor of the register state.
- Gpio20 appears in the `impl_output!` list of src/gpio.rs with `func20_out_sel_cfg`, a register the PAC block does not have; the model gives Gpio20 an output selector entry all the same.
- `write_to_strip`, `iter_mut` and `get_iter` of the LED example are not modelled: they only hand the array to the LED driver.
- Timer `listen`/`unlisten`, `interrupt_active` and `clear_interrupt` of src/timer/mod.rs are not modelled (interrupt plumbing outside the counter logic).
- Serial `listen`/`unlisten` are unimplemented in the source; `is_idle`, `split` and `release` are not modelled.
- Integer overflow follows release builds: u8, u16 and u32 arithmetic wraps (written out with explicit wrap functions); the overflow panics of debug builds are not modelled.
- Facts taken from the ESP32 technical reference manual rather than from these files: the SENS shared controls, the `en_pad` width, the RTCIO and IO_MUX field layouts, the watchdog stage codes 0 to 4 in a 3-bit field, the 10-bit width of `APB_CTRL_PRE_DIV_CNT`, the 18-bit width of `LEDC_DIV_NUM`, the `blk0_rdata3` eFuse bit positions (APP CPU disable bit 0, Bluetooth disable bit 1, package bits 9 to 11, CPU frequency low and rated bits 12 and 13), and the interrupt numbers 69 to 74 of the internal CPU interrupts.
- Spi.Controller.ChangeBaudrate: when no candidate divider is accepted the initial dividers 1 and 1 stay; the model states this fallback and does not prove it unreachable. It requires an APB frequency below 2^31 (the search uses i32) and a nonzero rate once the search divides by it (the source panics there).
- Spi.Controller.New: requires an APB frequency below 2^31, because the baud-rate search of `change_baudrate` computes in i32, and a nonzero rate whenever that search divides by it (the source panics there).
- Spi.Controller.constructor: `init_pins`, the peripheral reset and clock enable, and the register defaults written to `slave`, `user`, `user1`, `ctrl`, `ctrl1` and `ctrl2` are not modelled; only the clock register, which the baud-rate search reads back, is. Spi.Controller.New chains the rest of `new_internal`.
- Mem.Memset3: requires `s > 0`. Once the leading bytes are filled up to a multiple of `LOOP_SIZE` (64 pointer-sized words, 256 bytes), the source computes `end.sub(LOOP_SIZE)`; a nonzero aligned pointer is at least 256, so this cannot go below address 0, which it could for a region starting at address 0 and shorter than 256 bytes.
- Mem.Memcpy: requires the buffers not to overlap, or the destination to lie below the source, the cases in which `memmove` calls it; Mem.MemcpyReverse the mirror case.
- I2c.HalfCycle: the contract states the exact half period only when it fits in u16; above that the value wraps as the `as u16` cast does.
- Units.Sub: the contract states the difference only when it does not underflow; the wrapped case is covered by Units.AddThenSub.
- Units.TicksDivFreq: requires `n * factor` to fit in u64, the width the corrected computation uses.
- TimerWatchdog.Watchdog.SetConfig: requires a nonzero divider, because `calc_ticks_with_divider` divides the APB frequency by it (src/timer/watchdog.rs:101), and every stage's ticks to fit in u32; the source panics otherwise.
- TimerWatchdog.Watchdog.Config: requires a nonzero prescaler no larger than the APB frequency, because `calc_period` divides the APB frequency by the prescaler and the ticks by that quotient (src/timer/watchdog.rs:96), and either division by zero panics. Its periods use the corrected tick-to-nanosecond conversion, TimerWatchdog.CalcPeriod; the source's own conversion is TimerWatchdog.CalcPeriodAsWritten (see Findings).
- RtcWatchdog.Watchdog.Config: requires a nonzero slow RTC frequency, because `calc_period` divides by it (src/clock_control/watchdog.rs:90-91).
- TimerWatchdog.Watchdog.Start: requires the ticks of the period to fit in u32; the source panics otherwise.
- ClockControl.CpuFrequencyConfig: the crystal frequency is the corrected `xtal_freq` decode, which clears the ROM-log bit 0; as written (src/clock_control/mod.rs:211) a flagged 40 MHz word gives a 41 MHz configuration.
- ClockControl.ConfigMatchesRtcClk: the agreement with src/rtc_clk.rs holds for the corrected crystal decode; as written, `xtal_freq` keeps the ROM-log bit and the two disagree for a flagged word.
- Dport.Registers.EnablePeripheral: sets the corrected BT and BT_LC masks (bits 11, 16, 17 and 16, 17), not the source's 0x61 and 0x3000; Dport.WifiBtMaskAsWritten is the written mask.
- Dport.Registers.DisablePeripheral: clears the corrected BT and BT_LC masks rather than the source's 0x61 and 0x3000, and stops UART_MEM after the last UART; Dport.WifiBtMaskAsWritten and Dport.DisableMaskAsWritten are the written masks.
- ClockControl.Controller.SetCpuFreqToXtal: requires a divider of at least 1; `div - 1` panics on u16 underflow otherwise.
- Ledc.Timer.Configure: requires a nonzero frequency; the source divides by it.
- Serial.Uart.ChangeBaudrate: requires a nonzero baud rate; the source divides by it (and so does the constructor).
- I2c.Controller.constructor: the pin setup of `new` (src/i2c.rs:51-65: SDA and SCL made open-drain outputs with input and pull-up enabled, routed to the controller's signals through the GPIO matrix, SDA driven high) is not modelled; the GPIO side is the Gpio.Peripherals methods of the same names, which the constructor does not call.
- I2c.Controller.constructor: requires a nonzero bus frequency; `set_frequency` divides by it. Its timings are the corrected I2c.TimingsFor, with the timeout computed in u32; the source's wrapping u16 timeout is I2c.TimingsAsWritten (see Findings).
- Adc.Converter.Read: requires the pin's channel to have an attenuation configured; the source panics otherwise.
- Gpio.Peripherals.ConnectPeripheralToOutput: requires a route that does not panic (a signal above 256 through the GPIO matrix panics).
- Gpio.Peripherals.ConnectInputToPeripheral: requires a route that does not panic, as for outputs.
- Alloc.LockedHeap.constructor: requires `start <= end`; the heap size `end - start` underflows otherwise.
- Alloc.LockedHeap.Dealloc: requires an initialised heap; the source unwraps it.
- Alloc.GeneralAllocator: the `Allocator` wrapper and the static instances around it are not modelled; the class is the allocator itself.

## Findings

| source | as written | input that shows it | evidently intended | confidence | as-written member | corrected member |
|---|---|---|---|---|---|---|
| src/clock_control/mod.rs:146-149 | `apb_frequency` returns the 40 MHz default when the scratch word is valid and decodes it when it is not | a valid word saved for 80 MHz reads back as 40 MHz | decode a valid word, default to 40 MHz otherwise | high, not executed | ClockControl.ApbFrequencyAsWritten, ClockControl.ApbAsWrittenIgnoresWord, ClockControl.ApbAsWrittenExample | ClockControl.ApbFrequency, ClockControl.ApbRoundTrip |
| src/dport.rs:186-194 | `disable_peripheral` starts from the peripheral's own bit and only removes UART_MEM from it, so UART_MEM is never cleared | disabling UART0, UART1 and UART2 leaves UART_MEM's clock on | clear UART_MEM once no UART clock is left | high, not executed | Dport.DisableMaskAsWritten, Dport.DisableAsWrittenKeepsUartMem, Dport.DisableAsWrittenExample | Dport.DisableMask, Dport.DisableStopsUartMem |
| src/units.rs:251-256 | `Ticks(n) / Hertz(f)` computes `n * 1 / f / 1_000_000_000` nanoseconds | 80_000_000 ticks at 80 MHz give 0 ns instead of 10^9 | `n * 10^9 / f` nanoseconds | high, not executed | Units.TicksDivFreqAsWritten, Units.TicksDivFreqAsWrittenLosesTime, TimerWatchdog.CalcPeriodAsWritten, TimerWatchdog.CalcPeriodAsWrittenExample | Units.TicksDivFreq, Units.TicksDivFreqRoundTrip, TimerWatchdog.CalcPeriod |
| src/gpio/mod.rs:282-285 | `into_pull_up_input` calls `init_input(false, false)` and enables no resistor | any pin made a pull-up input floats | enable the pull-up | high, not executed | Gpio.PullUpInputMuxAsWritten, Gpio.PullUpInputAsWrittenFloats, Gpio.Peripherals.IntoPullUpInputAsWritten | Gpio.PullUpInputMux, Gpio.PullUpInputPulls, Gpio.Peripherals.IntoPullUpInput |
| src/gpio.rs:164 | the `gpio!` table lists Gpio20 with pin number 10 | Gpio20 and Gpio10 downgrade to the same generic pin | Gpio20 downgrades to 20 | high, not executed | GpioGeneric.DowngradeAsWritten, GpioGeneric.DowngradeAsWrittenCollides | GpioGeneric.Downgrade, GpioGeneric.DowngradeTables |
| src/gpio.rs:66-89 | the generic `set_high`/`set_low` write pins 32 and 33 to the bank 0 registers `out_w1ts`/`out_w1tc` | a downgraded Gpio32 set high drives GPIO0 | use `out1_w1ts`/`out1_w1tc` as the per-pin drivers do | high, not executed | GpioGeneric.GenericSetAsWritten, GpioGeneric.GenericSetAsWrittenMisroutes | GpioGeneric.GenericSet, GpioGeneric.GenericMatchesPin |
| src/alloc.rs:236-240 | `is_in_range` unwraps the heap, which is only initialised on the first allocation | with external RAM, freeing a block at 0x3f80_0000 before the IRAM heap was used panics while the IRAM range is tested | an uninitialised heap contains no pointer | medium, not executed | Alloc.IsInRangeAsWritten, Alloc.DeallocRouteAsWritten, Alloc.DeallocAsWrittenPanics | Alloc.IsInRange, Alloc.DeallocRoute, Alloc.GeneralAllocator.Dealloc |
| src/i2c.rs:188 | the timeout `half_cycle * 20` is computed in u16 and wraps | at 10 kHz the timeout is 14464 cycles instead of 80000 | compute the timeout in the u32 width of its register | high, not executed | I2c.TimingsAsWritten, I2c.TimeoutWrapsAt10kHz | I2c.TimingsFor, I2c.TimeoutAgrees |
| src/dport.rs:108-110 | `BT_CLK_MASK` is 0x61 and `BT_LC_CLK_MASK` 0x3000, not the bits their comments name | the BT mask shares bits 0 and 6 with the WiFi/BT common mask | bits 11, 16 and 17, and bits 16 and 17 | medium, not executed | Dport.BtMaskAsWrittenOverlaps, Dport.WifiBtMaskAsWritten, Dport.DisableBtAsWrittenStopsCommon | Dport.BtMaskDisjoint, Dport.Registers.EnablePeripheral, Dport.Registers.DisablePeripheral |
| src/interrupt.rs:56 | `CPU_INTERRUPT_USED_LEVELS` has bit 0 set where level 1 routes to CPU interrupt 1 | a level-triggered interrupt at level 1 is never enabled | include CPU interrupt 1 | medium, not executed | Interrupt.UsedLevelsAsWrittenMissesLevel1 | Interrupt.UsedLevelsAreRouted |
| src/clock_control/mod.rs:211 | `xtal_freq` masks the word with 0x7fff, while src/rtc_clk.rs:7 puts the ROM-log flag in bits 0 and 16 | the word 0x00290029 (40 MHz with the flag) reads as 41 MHz | clear the flag bit 0, as `xtal_freq_get` does | medium, not executed | ClockControl.XtalFreqAsWritten, ClockControl.XtalFreqAsWrittenReadsFlag | ClockControl.XtalFreq, ClockControl.XtalFreqIgnoresFlag, ClockControl.CpuFrequencyConfig, ClockControl.ConfigMatchesRtcClk |
| src/gpio/mod.rs:897 | `into_analog` for Gpio35 clears `adc1_fun_ie`, GPIO34's input enable | making Gpio35 analog turns off GPIO34's digital input | clear `adc2_fun_ie`, Gpio35's own | high, not executed | Gpio.AnalogInputEnablePinAsWritten, Gpio.AnalogInputEnableAsWrittenExample, Gpio.Peripherals.IntoAnalogAsWritten | Gpio.AnalogInputEnablePin, Gpio.AnalogInputEnableTables, Gpio.Peripherals.IntoAnalog |
| src/ledc/timer.rs:149 | `configure` accepts any nonzero divisor below 0x10_0000 (20 bits), but the `div_num` field it is written to has 18 bits | 50 Hz with a 10-bit duty from the 80 MHz APB clock: divisor 400000 is accepted and stored as 137856, so the timer runs about 2.9 times too fast | reject divisors of 0x4_0000 or more, the largest the field holds | medium, not executed | Ledc.Timer.ConfigureAsWritten, Ledc.DivisorAsWrittenTruncated | Ledc.Timer.Configure, Ledc.DivisorStored |
| examples/leds.rs:78-83 | `is_off` reports on only while some LED has all three channels lit | a strip with every LED pure red counts as off | off means every channel of every LED is 0 | medium, not executed | Leds.OffAsWritten, Leds.LightData.IsOffAsWritten, Leds.OffAsWrittenRedStrip | Leds.Off, Leds.LightData.IsOff, Leds.OffMeansDark |
