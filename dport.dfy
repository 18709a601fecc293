/** Peripheral clock and reset control of src/dport.rs. A peripheral's number selects a
    register group: below 32 the `perip_clk_en`/`perip_rst_en` pair, below 64 the
    `peri_clk_en`/`peri_rst_en` pair, below 96 `wifi_clk_en` with `core_rst_en`, and from
    96 on the WiFi/Bluetooth clock masks in `wifi_clk_en`. A register is modelled by the
    set of its set bits: `r | mask` is a union and `r & !mask` a difference. */
module Dport {
  import opened Bits

  /** The numbers of the peripherals: 0..26 in the first group, 32..36 in the second,
      four in the third and 96..100 for WiFi and Bluetooth. */
  predicate IsPeripheral(n: nat)
  {
    n <= 26 || 32 <= n <= 36 || n == 68 || 77 <= n <= 79 || 96 <= n <= 100
  }

  /** `Peripheral`, by its discriminant `peripheral as u32`. */
  type Peripheral = n: nat | IsPeripheral(n)

  const TIMERS: Peripheral := 0
  const SPI0_SPI1: Peripheral := 1
  const UART0: Peripheral := 2
  const WDG: Peripheral := 3
  const I2S0: Peripheral := 4
  const UART1: Peripheral := 5
  const SPI2: Peripheral := 6
  const I2C0: Peripheral := 7
  const UHCI0: Peripheral := 8
  const RMT: Peripheral := 9
  const PCNT: Peripheral := 10
  const LEDC: Peripheral := 11
  const UHCI1: Peripheral := 12
  const TIMERGROUP0: Peripheral := 13
  const EFUSE: Peripheral := 14
  const TIMERGROUP1: Peripheral := 15
  const SPI3: Peripheral := 16
  const PWM0: Peripheral := 17
  const I2C1: Peripheral := 18
  const CAN: Peripheral := 19
  const PWM1: Peripheral := 20
  const I2S1: Peripheral := 21
  const SPI_DMA: Peripheral := 22
  const UART2: Peripheral := 23
  const UART_MEM: Peripheral := 24
  const PWM2: Peripheral := 25
  const PWM3: Peripheral := 26
  const AES: Peripheral := 32
  const SHA: Peripheral := 33
  const RSA: Peripheral := 34
  const SECUREBOOT: Peripheral := 35
  const SIGNATURE: Peripheral := 36
  const SDIO_SLAVE: Peripheral := 68
  const SDIO_HOST: Peripheral := 77
  const EMAC: Peripheral := 78
  const RNG: Peripheral := 79
  const WIFI: Peripheral := 96
  const BT: Peripheral := 97
  const WIFI_BT_COMMON: Peripheral := 98
  const BT_LC: Peripheral := 99
  const BT_BASEBAND: Peripheral := 100

  predicate IsUart(p: Peripheral)
  {
    p == UART0 || p == UART1 || p == UART2
  }

  /** A register: the indices of its set bits. */
  type Reg = set<nat>

  const UART_MEM_BIT: nat := 24
  /** `UART_MASK`: the clock bits of the three UARTs. */
  const UART_MASK: Reg := {2, 5, 23}

  const WIFI_CLK_MASK: Reg := {1, 2, 10}
  const WIFI_BT_CLK_MASK: Reg := {0, 3, 6, 7, 8, 9}
  const BT_BASEBAND_CLK_MASK: Reg := {11}

  /** `BT_CLK_MASK` (0x61) and `BT_LC_CLK_MASK` (0x3000) as written. Their comments give
      bits 11, 16, 17 and bits 16, 17. */
  const BT_CLK_MASK_AS_WRITTEN: Reg := {0, 5, 6}
  const BT_LC_CLK_MASK_AS_WRITTEN: Reg := {12, 13}

  /** The same masks with the bits their comments give (0x61 shifted to bit 11, 0x3 to
      bit 16). The model uses these. */
  const BT_CLK_MASK: Reg := {11, 16, 17}
  const BT_LC_CLK_MASK: Reg := {16, 17}

  const EMAC_RST_MASK: Reg := {7}
  const SDIO_HOST_RST_MASK: Reg := {6}
  const SDIO_SLAVE_RST_MASK: Reg := {5}

  /** The peripheral's own bit inside its register group. */
  function OwnMask(p: Peripheral): (r: Reg)
    requires p < 96
  {
    {p % 32}
  }

  /** The mask `enable_peripheral` applies: the peripheral's bit, with the UART memory
      for a UART and the signature and secure-boot blocks for the crypto blocks that use
      them; for the WiFi/Bluetooth group, the fixed clock masks. */
  function EnableMask(p: Peripheral): (r: Reg)
    ensures p < 96 ==> p % 32 in r && r <= {p % 32, UART_MEM_BIT, SIGNATURE_BIT, SECUREBOOT_BIT}
    ensures p < 96 && r != {p % 32} ==> IsUart(p) || p == AES || p == SHA || p == RSA
  {
    if p < 32 then OwnMask(p) + (if IsUart(p) then {UART_MEM_BIT} else {})
    else if p < 64 then
      OwnMask(p) + (if p == AES then {SIGNATURE_BIT, SECUREBOOT_BIT}
                    else if p == SHA then {SECUREBOOT_BIT}
                    else if p == RSA then {SIGNATURE_BIT}
                    else {})
    else if p < 96 then OwnMask(p)
    else WifiBtMask(p)
  }

  /** SIGNATURE and SECUREBOOT within the second group. */
  const SIGNATURE_BIT: nat := 4
  const SECUREBOOT_BIT: nat := 3

  /** The bits, by index within the register, a peripheral's enable switches on besides
      its own. */
  function Companions(p: Peripheral): set<nat>
  {
    if IsUart(p) then {24}
    else if p == AES then {3, 4}
    else if p == SHA then {3}
    else if p == RSA then {4}
    else {}
  }

  /** For every peripheral below 96, the enable mask is exactly its own bit and its
      companions. */
  lemma EnableMaskBits(p: Peripheral)
    requires p < 96
    ensures EnableMask(p) == {p % 32} + Companions(p)
  {
  }

  /** The clock mask of the WiFi/Bluetooth group. */
  function WifiBtMask(p: Peripheral): (r: Reg)
  {
    if p == WIFI then WIFI_CLK_MASK
    else if p == BT then BT_CLK_MASK
    else if p == WIFI_BT_COMMON then WIFI_BT_CLK_MASK
    else if p == BT_BASEBAND then BT_BASEBAND_CLK_MASK
    else if p == BT_LC then BT_LC_CLK_MASK
    else {}
  }

  /** The clock mask of the WiFi/Bluetooth group as written, with 0x61 for Bluetooth and
      0x3000 for its link controller; it differs from the corrected mask for those two
      alone. */
  function WifiBtMaskAsWritten(p: Peripheral): (r: Reg)
    ensures r == WifiBtMask(p) <==> p != BT && p != BT_LC
  {
    if p == WIFI then WIFI_CLK_MASK
    else if p == BT then BT_CLK_MASK_AS_WRITTEN
    else if p == WIFI_BT_COMMON then WIFI_BT_CLK_MASK
    else if p == BT_BASEBAND then BT_BASEBAND_CLK_MASK
    else if p == BT_LC then BT_LC_CLK_MASK_AS_WRITTEN
    else {}
  }

  /** As written, disabling Bluetooth stops bits 0 and 6 of the clock it shares with WiFi,
      and disabling the link controller leaves every bit of the documented Bluetooth mask
      running. */
  lemma DisableBtAsWrittenStopsCommon(w: Reg)
    ensures (w - WifiBtMaskAsWritten(BT)) * WIFI_BT_CLK_MASK == w * WIFI_BT_CLK_MASK - {0, 6}
    ensures (w - WifiBtMaskAsWritten(BT_LC)) * BT_CLK_MASK == w * BT_CLK_MASK
  {
  }

  /** As written, the Bluetooth mask overlaps the common WiFi/Bluetooth clock, so
      disabling Bluetooth stops bits 0 and 6 of the clock WiFi shares with it, and the
      link-controller mask is not a part of the Bluetooth mask. */
  lemma BtMaskAsWrittenOverlaps()
    ensures BT_CLK_MASK_AS_WRITTEN * WIFI_BT_CLK_MASK == {0, 6}
    ensures BT_LC_CLK_MASK_AS_WRITTEN !! BT_CLK_MASK_AS_WRITTEN
  {
  }

  /** With the documented bits, the Bluetooth mask is bits 11, 16 and 17; it holds the
      baseband and link-controller masks and shares no bit with the WiFi and common masks,
      so disabling Bluetooth leaves WiFi's clocks running. */
  lemma BtMaskDisjoint(w: Reg)
    ensures BT_LC_CLK_MASK <= BT_CLK_MASK && BT_BASEBAND_CLK_MASK <= BT_CLK_MASK
    ensures (w - BT_CLK_MASK) * (WIFI_CLK_MASK + WIFI_BT_CLK_MASK) == w * (WIFI_CLK_MASK + WIFI_BT_CLK_MASK)
  {
  }

  /** The `core_rst_en` bit of the peripherals that have one there. */
  function CoreResetMask(p: Peripheral): (r: Reg)
    ensures r != {} <==> p == EMAC || p == SDIO_HOST || p == SDIO_SLAVE
  {
    if p == EMAC then EMAC_RST_MASK
    else if p == SDIO_HOST then SDIO_HOST_RST_MASK
    else if p == SDIO_SLAVE then SDIO_SLAVE_RST_MASK
    else {}
  }

  /** The mask of `disable_peripheral` below 32, as written: it starts as the
      peripheral's bit, and when no other UART is clocked it loses the UART memory bit,
      which it only holds for UART_MEM itself. */
  function DisableMaskAsWritten(p: Peripheral, clk: Reg): (r: Reg)
    requires p < 32
    ensures r <= {p}
    ensures p != UART_MEM ==> r == DisableMask(p, clk) - {UART_MEM_BIT}
  {
    var mask := OwnMask(p);
    if (clk - mask) * UART_MASK == {} then mask - {UART_MEM_BIT} else mask
  }

  /** As written, disabling a UART never stops the UART memory clock: the last UART's
      disable leaves it running. */
  lemma DisableAsWrittenKeepsUartMem(p: Peripheral, clk: Reg)
    requires p < 32 && p != UART_MEM
    ensures UART_MEM_BIT in clk ==> UART_MEM_BIT in clk - DisableMaskAsWritten(p, clk)
  {
  }

  /** For instance, UART0 and the UART memory clocked, UART0 disabled: the memory's clock
      stays on. */
  lemma DisableAsWrittenExample()
    ensures {2, 24} - DisableMaskAsWritten(UART0, {2, 24}) == {24}
  {
  }

  /** The mask of `disable_peripheral` below 32 as evidently intended (and as
      `Serial::disable` does): a UART's disable also stops the UART memory when no other
      UART is clocked. The model uses this. */
  function DisableMask(p: Peripheral, clk: Reg): (r: Reg)
    requires p < 32
    ensures p in r && r <= {p, UART_MEM_BIT}
    ensures UART_MEM_BIT in r <==> p == UART_MEM || (IsUart(p) && (clk - {p}) * UART_MASK == {})
  {
    var mask := OwnMask(p);
    if IsUart(p) && (clk - mask) * UART_MASK == {} then mask + {UART_MEM_BIT} else mask
  }

  /** After disabling a UART, the UART memory is clocked exactly when it was before and
      another UART still is; every other peripheral's disable leaves it alone. */
  lemma DisableStopsUartMem(p: Peripheral, clk: Reg)
    requires p < 32 && p != UART_MEM
    ensures var after := clk - DisableMask(p, clk);
      p !in after
      && (IsUart(p) ==> (UART_MEM_BIT in after <==> UART_MEM_BIT in clk && after * UART_MASK != {}))
      && (!IsUart(p) ==> after == clk - {p})
  {
  }

  /** For a peripheral of the first group that is not a UART or the UART memory, enabling
      and then disabling leaves its clock off and its reset on, every other bit of both
      registers as before the enable. */
  lemma EnableThenDisable(p: Peripheral, clk: Reg, rst: Reg)
    requires p < 32 && !IsUart(p) && p != UART_MEM
    ensures var clk1, rst1 := clk + EnableMask(p), rst - EnableMask(p);
      var mask := DisableMask(p, clk1);
      var clk2, rst2 := clk1 - mask, rst1 + mask;
      clk2 == clk - {p} && rst2 == rst + {p}
  {
  }

  /** The DPORT clock and reset registers. */
  /** The three reset registers. */
  datatype ResetRegister = PeripRstEn | PeriRstEn | CoreRstEn

  /** One write to a reset register: the register and the bits the write leaves set. */
  datatype ResetWrite = ResetWrite(register: ResetRegister, value: Reg)

  class Registers {
    var peripClkEn: Reg
    var peripRstEn: Reg
    var periClkEn: Reg
    var periRstEn: Reg
    var wifiClkEn: Reg
    var coreRstEn: Reg
    /** The writes of the reset pulses, oldest first. */
    var resetLog: seq<ResetWrite>

    constructor ()
      ensures peripClkEn == peripRstEn == periClkEn == periRstEn == wifiClkEn == coreRstEn == {}
      ensures resetLog == []
    {
      peripClkEn, peripRstEn, periClkEn, periRstEn, wifiClkEn, coreRstEn := {}, {}, {}, {}, {}, {};
      resetLog := [];
    }

    /** `enable_peripheral`: the enable mask set in the group's clock register and
        cleared in its reset register; in the third group only the peripherals with a
        `core_rst_en` bit leave reset, and the WiFi/Bluetooth group has no reset. */
    method EnablePeripheral(p: Peripheral)
      modifies this
      ensures var n := p;
        if n < 32 then
          peripClkEn == old(peripClkEn) + EnableMask(p) && peripRstEn == old(peripRstEn) - EnableMask(p)
          && unchanged(this`periClkEn, this`periRstEn, this`wifiClkEn, this`coreRstEn)
        else if n < 64 then
          periClkEn == old(periClkEn) + EnableMask(p) && periRstEn == old(periRstEn) - EnableMask(p)
          && unchanged(this`peripClkEn, this`peripRstEn, this`wifiClkEn, this`coreRstEn)
        else
          wifiClkEn == old(wifiClkEn) + EnableMask(p)
          && coreRstEn == old(coreRstEn) - (if n < 96 then CoreResetMask(p) else {})
          && unchanged(this`peripClkEn, this`peripRstEn, this`periClkEn, this`periRstEn)
      ensures resetLog == old(resetLog)
    {
      var bitnr: nat := p;
      if bitnr < 32 {
        var mask := {bitnr};
        if IsUart(p) {
          mask := mask + {UART_MEM_BIT};
        }
        peripClkEn := peripClkEn + mask;
        peripRstEn := peripRstEn - mask;
      } else if bitnr < 64 {
        var mask := {bitnr - 32};
        if p == AES {
          mask := mask + {SIGNATURE_BIT} + {SECUREBOOT_BIT};
        } else if p == SHA {
          mask := mask + {SECUREBOOT_BIT};
        } else if p == RSA {
          mask := mask + {SIGNATURE_BIT};
        }
        periClkEn := periClkEn + mask;
        periRstEn := periRstEn - mask;
      } else if bitnr < 96 {
        var mask := {bitnr - 64};
        wifiClkEn := wifiClkEn + mask;
        var rstMask := CoreResetMask(p);
        coreRstEn := coreRstEn - rstMask;
      } else {
        var mask := WifiBtMask(p);
        wifiClkEn := wifiClkEn + mask;
      }
    }

    /** `disable_peripheral`, with the UART memory stopped after the last UART: the
        group's clock bits cleared and its reset bits set; the WiFi/Bluetooth group only
        loses its clock bits. */
    method DisablePeripheral(p: Peripheral)
      modifies this
      ensures var n := p;
        if n < 32 then
          var mask := DisableMask(p, old(peripClkEn));
          peripClkEn == old(peripClkEn) - mask && peripRstEn == old(peripRstEn) + mask
          && unchanged(this`periClkEn, this`periRstEn, this`wifiClkEn, this`coreRstEn)
        else if n < 64 then
          periClkEn == old(periClkEn) - OwnMask(p) && periRstEn == old(periRstEn) + OwnMask(p)
          && unchanged(this`peripClkEn, this`peripRstEn, this`wifiClkEn, this`coreRstEn)
        else if n < 96 then
          wifiClkEn == old(wifiClkEn) - OwnMask(p) && coreRstEn == old(coreRstEn) + CoreResetMask(p)
          && unchanged(this`peripClkEn, this`peripRstEn, this`periClkEn, this`periRstEn)
        else
          wifiClkEn == old(wifiClkEn) - WifiBtMask(p)
          && unchanged(this`peripClkEn, this`peripRstEn, this`periClkEn, this`periRstEn, this`coreRstEn)
      ensures resetLog == old(resetLog)
    {
      var bitnr: nat := p;
      if bitnr < 32 {
        var mask := {bitnr};
        if IsUart(p) && (peripClkEn - mask) * UART_MASK == {} {
          mask := mask + {UART_MEM_BIT};
        }
        peripClkEn := peripClkEn - mask;
        peripRstEn := peripRstEn + mask;
      } else if bitnr < 64 {
        var mask := {bitnr - 32};
        periClkEn := periClkEn - mask;
        periRstEn := periRstEn + mask;
      } else if bitnr < 96 {
        var mask := {bitnr - 64};
        wifiClkEn := wifiClkEn - mask;
        var rstMask := CoreResetMask(p);
        coreRstEn := coreRstEn + rstMask;
      } else {
        var mask := WifiBtMask(p);
        wifiClkEn := wifiClkEn - mask;
      }
    }

    /** `reset_peripheral`: the reset bits pulsed, two writes to the group's reset
        register, the first setting them and the second clearing them, so they end cleared
        with every other bit as before; nothing for the WiFi/Bluetooth group. */
    method ResetPeripheral(p: Peripheral)
      modifies this
      ensures var n := p;
        if n < 32 then
          peripRstEn == old(peripRstEn) - OwnMask(p)
          && resetLog == old(resetLog) + [ResetWrite(PeripRstEn, old(peripRstEn) + OwnMask(p)),
                                          ResetWrite(PeripRstEn, peripRstEn)]
          && unchanged(this`peripClkEn, this`periClkEn, this`periRstEn, this`wifiClkEn, this`coreRstEn)
        else if n < 64 then
          periRstEn == old(periRstEn) - OwnMask(p)
          && resetLog == old(resetLog) + [ResetWrite(PeriRstEn, old(periRstEn) + OwnMask(p)),
                                          ResetWrite(PeriRstEn, periRstEn)]
          && unchanged(this`peripClkEn, this`peripRstEn, this`periClkEn, this`wifiClkEn, this`coreRstEn)
        else if n < 96 then
          coreRstEn == old(coreRstEn) - CoreResetMask(p)
          && resetLog == old(resetLog) + [ResetWrite(CoreRstEn, old(coreRstEn) + CoreResetMask(p)),
                                          ResetWrite(CoreRstEn, coreRstEn)]
          && unchanged(this`peripClkEn, this`peripRstEn, this`periClkEn, this`periRstEn, this`wifiClkEn)
        else
          unchanged(this)
    {
      var bitnr: nat := p;
      if bitnr < 32 {
        var mask := {bitnr};
        peripRstEn := peripRstEn + mask;
        resetLog := resetLog + [ResetWrite(PeripRstEn, peripRstEn)];
        peripRstEn := peripRstEn - mask;
        resetLog := resetLog + [ResetWrite(PeripRstEn, peripRstEn)];
      } else if bitnr < 64 {
        var mask := {bitnr - 32};
        periRstEn := periRstEn + mask;
        resetLog := resetLog + [ResetWrite(PeriRstEn, periRstEn)];
        periRstEn := periRstEn - mask;
        resetLog := resetLog + [ResetWrite(PeriRstEn, periRstEn)];
      } else if bitnr < 96 {
        var rstMask := CoreResetMask(p);
        coreRstEn := coreRstEn + rstMask;
        resetLog := resetLog + [ResetWrite(CoreRstEn, coreRstEn)];
        coreRstEn := coreRstEn - rstMask;
        resetLog := resetLog + [ResetWrite(CoreRstEn, coreRstEn)];
      }
    }
  }
}
