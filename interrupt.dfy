/** Interrupt routing of src/interrupt.rs: the tables that take a priority level to a CPU
    interrupt, the per-level table of peripheral interrupts, the mapping registers that
    route a peripheral interrupt to a CPU interrupt, the cross-core software interrupts,
    and the choice of the interrupt a level handler serves.

    A 32-bit CPU interrupt word, the 128-bit level words and the 96-bit status word are
    modelled as the sets of their set bits. */
module Interrupt {
  import opened Bits

  datatype Error =
    | InvalidCore
    | InvalidCPUInterrupt
    | InvalidInterruptLevel
    | InternalInterruptsCannotBeMapped

  /** An interrupt word, as the set of the indices of its set bits. */
  type Mask = set<nat>

  /** The CPU interrupts that are edge triggered. */
  const CPU_INTERRUPT_EDGE: Mask := {10, 11, 22, 28, 29, 30}

  /** The CPU interrupts wired to the CPU's own sources (timers, software, profiling). */
  const CPU_INTERRUPT_INTERNAL: Mask := {6, 7, 11, 15, 16, 29}

  /** The CPU interrupts of each priority level; level 0 and levels 6 and 7 are empty. */
  const CPU_INTERRUPT_LEVELS: seq<Mask> := [
    {},
    {0, 1, 2, 3, 4, 5, 6, 7, 8, 9, 10, 12, 13, 17, 18},
    {19, 20, 21},
    {11, 22, 23, 27, 29},
    {24, 25, 28, 30},
    {26, 31},
    {},
    {}
  ]

  /** The CPU interrupt a level-triggered peripheral interrupt of each level is routed to;
      6 (an internal timer) stands for "not supported". */
  const INTERRUPT_TO_CPU_LEVEL: seq<u32> := [6, 1, 19, 23, 24, 31, 6, 6]

  /** The CPU interrupt an edge-triggered peripheral interrupt of each level is routed to. */
  const INTERRUPT_TO_CPU_EDGE: seq<u32> := [6, 10, 6, 22, 28, 31, 6, 14]

  /** The mask `enable` switches on, as written: CPU interrupt 0 where the level-1
      level-triggered route uses CPU interrupt 1. */
  const CPU_INTERRUPT_USED_LEVELS_AS_WRITTEN: Mask := {0, 10, 14, 19, 22, 23, 24, 28, 31}

  /** The mask `enable` evidently intends: the CPU interrupts the two route tables use. */
  const CPU_INTERRUPT_USED_LEVELS: Mask := {1, 10, 14, 19, 22, 23, 24, 28, 31}

  /** The internal interrupts, numbered after the 69 peripheral interrupts. */
  const INTERNAL_TIMER0_INTR: nat := 69
  const INTERNAL_SOFTWARE_LEVEL_1_INTR: nat := 70
  const INTERNAL_PROFILING_INTR: nat := 71
  const INTERNAL_TIMER1_INTR: nat := 72
  const INTERNAL_TIMER2_INTR: nat := 73
  const INTERNAL_SOFTWARE_LEVEL_3_INTR: nat := 74

  /** An interrupt of the chip, by its number. */
  type Interrupt = n: nat | n <= INTERNAL_SOFTWARE_LEVEL_3_INTR

  /** The internal interrupt behind each CPU interrupt, if any. */
  const CPU_INTERRUPT_TO_INTERRUPT: seq<Option<Interrupt>> := [
    None, None, None, None, None, None,
    Some(INTERNAL_TIMER0_INTR), Some(INTERNAL_SOFTWARE_LEVEL_1_INTR),
    None, None, None,
    Some(INTERNAL_PROFILING_INTR),
    None, None, None,
    Some(INTERNAL_TIMER1_INTR), Some(INTERNAL_TIMER2_INTR),
    None, None, None, None, None, None, None, None, None, None, None, None,
    Some(INTERNAL_SOFTWARE_LEVEL_3_INTR),
    None, None
  ]

  /** Every CPU interrupt of the internal mask has an internal interrupt behind it, and no
      other CPU interrupt has one, so the dispatcher's `unwrap` cannot fail. */
  lemma InternalTableAgrees(c: nat)
    ensures c in CPU_INTERRUPT_INTERNAL <==> c < 32 && CPU_INTERRUPT_TO_INTERRUPT[c].Some?
  {
    if c < 32 {
      assert c !in CPU_INTERRUPT_INTERNAL <==> CPU_INTERRUPT_TO_INTERRUPT[c] == None;
    }
  }

  /** The CPU interrupt `set_interrupt_priority` routes a peripheral interrupt of `level`
      to: edge-triggered levels 0, 1, 3, 4 and 7 and level-triggered levels 0 to 5 and 7
      are supported, anything else is `InvalidInterruptLevel`. */
  function CpuInterruptFor(level: u8, edge: bool): (r: Result<u32, Error>)
    ensures r.Ok? <==> (if edge then level in {0, 1, 3, 4, 7} else level <= 5 || level == 7)
    ensures r.Err? ==> r.error == InvalidInterruptLevel
    ensures r.Ok? ==> r.value < 32
  {
    if edge then
      if level in {0, 1, 3, 4, 7} then Ok(INTERRUPT_TO_CPU_EDGE[level]) else Err(InvalidInterruptLevel)
    else
      if level <= 5 || level == 7 then Ok(INTERRUPT_TO_CPU_LEVEL[level]) else Err(InvalidInterruptLevel)
  }

  /** The route tables agree with the CPU's own tables: a supported level 1 to 5 reaches a
      CPU interrupt of that level, edge triggered exactly when the request is; level 0
      (disable) and level-triggered level 7 park the interrupt on the internal timer
      interrupt 6, and edge-triggered level 7 reaches the NMI, CPU interrupt 14. */
  lemma CpuInterruptForAgrees(level: u8, edge: bool)
    requires CpuInterruptFor(level, edge).Ok?
    ensures var c := CpuInterruptFor(level, edge).value;
      && (1 <= level <= 5 ==> c in CPU_INTERRUPT_LEVELS[level] && (c in CPU_INTERRUPT_EDGE <==> edge))
      && (level == 0 || (level == 7 && !edge) ==> c == 6 && c in CPU_INTERRUPT_INTERNAL)
      && (level == 7 && edge ==> c == 14)
  {
  }

  /** CPU interrupt 0 is the target of no route. */
  lemma NoRouteToZero(level: u8, edge: bool)
    requires CpuInterruptFor(level, edge).Ok?
    ensures CpuInterruptFor(level, edge).value != 0
  {
  }

  /** As written, `enable` switches on CPU interrupt 0, which no route uses (see
      `NoRouteToZero`), and leaves off CPU interrupt 1, where every level-1
      level-triggered interrupt is routed. */
  lemma UsedLevelsAsWrittenMissesLevel1()
    ensures CpuInterruptFor(1, false) == Ok(1)
    ensures 1 !in CPU_INTERRUPT_USED_LEVELS_AS_WRITTEN && 0 in CPU_INTERRUPT_USED_LEVELS_AS_WRITTEN
  {
  }

  /** The corrected mask holds exactly the CPU interrupts of the supported routes other
      than the parking place 6: every such route's target is in it, and each of its members
      is the target of a named route. */
  lemma UsedLevelsAreRouted(level: u8, edge: bool)
    ensures (CpuInterruptFor(level, edge).Ok? && CpuInterruptFor(level, edge).value != 6
             ==> CpuInterruptFor(level, edge).value in CPU_INTERRUPT_USED_LEVELS)
    ensures CPU_INTERRUPT_USED_LEVELS == {
      CpuInterruptFor(1, false).value, CpuInterruptFor(2, false).value, CpuInterruptFor(3, false).value,
      CpuInterruptFor(4, false).value, CpuInterruptFor(5, false).value, CpuInterruptFor(1, true).value,
      CpuInterruptFor(3, true).value, CpuInterruptFor(4, true).value, CpuInterruptFor(7, true).value}
  {
  }

  /** Whether no interrupt appears in two levels of the level table. */
  predicate Exclusive(levels: seq<Mask>)
  {
    forall i, j, n :: 0 <= i < |levels| && 0 <= j < |levels| && n in levels[i] && n in levels[j] ==> i == j
  }

  /** The level table after `set_interrupt_priority` has moved interrupt `nr` to `level`:
      the interrupt is in the chosen entry and in no other, and the other interrupts keep
      their entries. */
  function Relevel(levels: seq<Mask>, nr: Interrupt, level: nat): (r: seq<Mask>)
    requires |levels| == 8 && level < 8
    ensures |r| == 8
    ensures forall i :: 0 <= i < 8 ==> (nr in r[i] <==> i == level)
    ensures forall i, m :: 0 <= i < 8 && m != nr ==> (m in r[i] <==> m in levels[i])
  {
    seq(8, i requires 0 <= i < 8 => if i == level then levels[i] + {nr} else levels[i] - {nr})
  }

  /** Moving an interrupt keeps every interrupt in at most one level. */
  lemma RelevelExclusive(levels: seq<Mask>, nr: Interrupt, level: nat)
    requires |levels| == 8 && level < 8
    requires Exclusive(levels)
    ensures Exclusive(Relevel(levels, nr, level))
  {
    var r := Relevel(levels, nr, level);
    forall i, j, n | 0 <= i < 8 && 0 <= j < 8 && n in r[i] && n in r[j]
      ensures i == j
    {
      if n != nr {
        assert n in levels[i] && n in levels[j];
      }
    }
  }

  /** The checks of `map_interrupt`, in the order the source makes them: the CPU
      interrupt, the interrupt (internal interrupts have no mapping register), then the
      core. */
  function MapCheck(core: u8, interrupt: Interrupt, cpuInterrupt: u32): (r: Option<Error>)
    ensures r == Some(InvalidCPUInterrupt) <==> cpuInterrupt >= 32
    ensures r == Some(InternalInterruptsCannotBeMapped) <==> cpuInterrupt < 32 && interrupt >= INTERNAL_TIMER0_INTR
    ensures r == Some(InvalidCore) <==> cpuInterrupt < 32 && interrupt < INTERNAL_TIMER0_INTR && core > 1
    ensures r == None <==> cpuInterrupt < 32 && interrupt < INTERNAL_TIMER0_INTR && core <= 1
  {
    if cpuInterrupt >= 32 then Some(InvalidCPUInterrupt)
    else if interrupt >= INTERNAL_TIMER0_INTR then Some(InternalInterruptsCannotBeMapped)
    else if core != 0 && core != 1 then Some(InvalidCore)
    else None
  }

  /** `get_interrupt_status`: the three 32-bit status words joined into one 96-bit word. */
  function InterruptStatus(w0: Mask, w1: Mask, w2: Mask): (r: Mask)
    ensures forall n :: n in r <==> ((n < 32 && n in w0) || (32 <= n < 64 && n - 32 in w1)
                                     || (64 <= n < 96 && n - 64 in w2))
  {
    (set b | b in w0 && b < 32) + (set b | b in w1 && b < 32 :: b + 32)
    + (set b | b in w2 && b < 32 :: b + 64)
  }

  /** The index of the lowest set bit at or above `k` of a `width`-bit word, or `width`
      when there is none. */
  function LowestFrom(s: Mask, k: nat, width: nat): (r: nat)
    requires k <= width
    ensures k <= r <= width
    ensures r < width ==> r in s
    ensures forall i :: k <= i < r ==> i !in s
    decreases width - k
  {
    if k == width then width else if k in s then k else LowestFrom(s, k + 1, width)
  }

  /** `trailing_zeros` of a `width`-bit word: the index of its lowest set bit, `width` for
      the zero word. */
  function TrailingZeros(s: Mask, width: nat): (r: nat)
    ensures r <= width
    ensures r < width ==> r in s
    ensures forall i :: 0 <= i < r ==> i !in s
  {
    LowestFrom(s, 0, width)
  }

  /** The interrupt a level handler serves: an internal interrupt behind a CPU interrupt
      (which the handler also clears), or a peripheral interrupt. */
  datatype Source = CpuInternal(cpuInterrupt: nat, interrupt: Interrupt) | Peripheral(interrupt: Interrupt)

  /** The pending internal CPU interrupts of `level`. */
  function InternalPending(level: nat, pending: Mask): Mask
    requires level < 8
  {
    pending * CPU_INTERRUPT_INTERNAL * CPU_INTERRUPT_LEVELS[level]
  }

  /** The first branch of `handle_interrupts`: the lowest pending internal CPU interrupt of
      the level and the internal interrupt behind it. */
  function InternalChoice(level: nat, pending: Mask): (r: Source)
    requires level < 8 && InternalPending(level, pending) != {}
    ensures r.CpuInternal?
    ensures r.cpuInterrupt in InternalPending(level, pending)
    ensures forall d :: d < r.cpuInterrupt ==> d !in InternalPending(level, pending)
    ensures CPU_INTERRUPT_TO_INTERRUPT[r.cpuInterrupt] == Some(r.interrupt)
  {
    var internal := InternalPending(level, pending);
    var c := TrailingZeros(internal, 32);
    var some :| some in internal;
    InternalTableAgrees(some);
    InternalTableAgrees(c);
    CpuInternal(c, CPU_INTERRUPT_TO_INTERRUPT[c].value)
  }

  /** The second branch: the lowest pending peripheral interrupt of the level, None where
      the conversion back to an interrupt panics (no bit set). */
  function PeripheralChoice(status: Mask, configured: Mask): (r: Option<Source>)
    ensures r.Some? ==>
      && r.value.Peripheral? && r.value.interrupt in status && r.value.interrupt in configured
      && (forall m :: m < r.value.interrupt && m in status ==> m !in configured)
    ensures r.None? <==> forall m :: m in status && m in configured ==> m > INTERNAL_SOFTWARE_LEVEL_3_INTR
  {
    var both := status * configured;
    var n := TrailingZeros(both, 128);
    assert forall m :: m in status && m in configured ==> m in both && m >= n;
    if n <= INTERNAL_SOFTWARE_LEVEL_3_INTR then Some(Peripheral(n)) else None
  }

  /** The selection logic of `handle_interrupts` for `level`, given the CPU's pending word
      and the interrupt status word of the running core: the lowest pending internal CPU
      interrupt of the level first, otherwise the lowest pending peripheral interrupt the
      level table assigns to the level; None where the source panics. */
  function Dispatch(level: nat, pending: Mask, status: Mask, levels: seq<Mask>): (r: Option<Source>)
    requires level < 8 && |levels| == 8
    ensures InternalPending(level, pending) != {} ==> r == Some(InternalChoice(level, pending))
    ensures InternalPending(level, pending) == {} ==> r == PeripheralChoice(status, levels[level])
  {
    if InternalPending(level, pending) != {} then Some(InternalChoice(level, pending))
    else PeripheralChoice(status, levels[level])
  }

  /** A served peripheral interrupt was assigned to the handler's level and, in an
      exclusive level table, to no other level. */
  lemma DispatchConfigured(level: nat, pending: Mask, status: Mask, levels: seq<Mask>)
    requires level < 8 && |levels| == 8
    requires Exclusive(levels)
    ensures var r := Dispatch(level, pending, status, levels);
      r.Some? && r.value.Peripheral? ==>
        forall j :: 0 <= j < 8 ==> (r.value.interrupt in levels[j] <==> j == level)
  {
  }

  /** The interrupt controller state the module writes: the level table, the two cores'
      mapping registers (one per peripheral interrupt), the four cross-core interrupt
      flags and the CPU's interrupt-enable word. */
  class Controller {
    var levels: seq<Mask>
    var proIntrMap: seq<u32>
    var appIntrMap: seq<u32>
    var fromCpu: seq<bool>
    var intEnable: Mask

    predicate Valid()
      reads this
    {
      |levels| == 8 && |proIntrMap| == INTERNAL_TIMER0_INTR && |appIntrMap| == INTERNAL_TIMER0_INTR
      && |fromCpu| == 4
    }

    /** The reset state: an empty level table, zero mapping registers, no cross-core
        interrupt raised and no CPU interrupt enabled. */
    constructor()
      ensures Valid()
      ensures levels == [{}, {}, {}, {}, {}, {}, {}, {}] && Exclusive(levels)
      ensures proIntrMap == seq(INTERNAL_TIMER0_INTR, _ => 0) && appIntrMap == proIntrMap
      ensures fromCpu == [false, false, false, false] && intEnable == {}
    {
      levels := [{}, {}, {}, {}, {}, {}, {}, {}];
      proIntrMap := seq(INTERNAL_TIMER0_INTR, _ => 0);
      appIntrMap := seq(INTERNAL_TIMER0_INTR, _ => 0);
      fromCpu := [false, false, false, false];
      intEnable := {};
    }

    /** `set_cpu_interrupt`: raises cross-core interrupt `nr`, 0 to 3; any other number
        is `InvalidCore` and changes nothing. */
    method SetCpuInterrupt(nr: u8) returns (r: Result<(), Error>)
      requires Valid()
      modifies this
      ensures Valid()
      ensures nr <= 3 ==> r == Ok(()) && fromCpu == old(fromCpu)[nr := true]
      ensures nr > 3 ==> r == Err(InvalidCore) && fromCpu == old(fromCpu)
      ensures unchanged(this`levels, this`proIntrMap, this`appIntrMap, this`intEnable)
    {
      if nr > 3 {
        return Err(InvalidCore);
      }
      fromCpu := fromCpu[nr := true];
      r := Ok(());
    }

    /** `clear_cpu_interrupt`: the same, lowering the flag. */
    method ClearCpuInterrupt(nr: u8) returns (r: Result<(), Error>)
      requires Valid()
      modifies this
      ensures Valid()
      ensures nr <= 3 ==> r == Ok(()) && fromCpu == old(fromCpu)[nr := false]
      ensures nr > 3 ==> r == Err(InvalidCore) && fromCpu == old(fromCpu)
      ensures unchanged(this`levels, this`proIntrMap, this`appIntrMap, this`intEnable)
    {
      if nr > 3 {
        return Err(InvalidCore);
      }
      fromCpu := fromCpu[nr := false];
      r := Ok(());
    }

    /** `map_interrupt`: after the checks of `MapCheck`, the interrupt's mapping register
        of the chosen core holds the CPU interrupt; on an error nothing changes. */
    method MapInterrupt(core: u8, interrupt: Interrupt, cpuInterrupt: u32) returns (r: Result<(), Error>)
      requires Valid()
      modifies this
      ensures Valid()
      ensures r.Err? <==> MapCheck(core, interrupt, cpuInterrupt).Some?
      ensures r.Err? ==> r.error == MapCheck(core, interrupt, cpuInterrupt).value
                         && proIntrMap == old(proIntrMap) && appIntrMap == old(appIntrMap)
      ensures r.Ok? && core == 0 ==> proIntrMap == old(proIntrMap)[interrupt := cpuInterrupt] && appIntrMap == old(appIntrMap)
      ensures r.Ok? && core == 1 ==> appIntrMap == old(appIntrMap)[interrupt := cpuInterrupt] && proIntrMap == old(proIntrMap)
      ensures unchanged(this`levels, this`fromCpu, this`intEnable)
    {
      var check := MapCheck(core, interrupt, cpuInterrupt);
      if check.Some? {
        return Err(check.value);
      }
      if core == 0 {
        proIntrMap := proIntrMap[interrupt := cpuInterrupt];
      } else {
        appIntrMap := appIntrMap[interrupt := cpuInterrupt];
      }
      r := Ok(());
    }

    /** `set_interrupt_priority`: an unsupported level is `InvalidInterruptLevel` with
        nothing changed; otherwise the interrupt is moved to `level` in the level table
        and then mapped to the level's CPU interrupt, so a mapping error still leaves the
        level table changed. */
    method SetInterruptPriority(core: u8, interrupt: Interrupt, level: u8, edge: bool) returns (r: Result<(), Error>)
      requires Valid()
      modifies this
      ensures Valid()
      ensures CpuInterruptFor(level, edge).Err? ==> r == Err(InvalidInterruptLevel) && unchanged(this)
      ensures CpuInterruptFor(level, edge).Ok? ==>
        var cpuInterrupt := CpuInterruptFor(level, edge).value;
        && level < 8
        && levels == Relevel(old(levels), interrupt, level)
        && (r.Err? <==> MapCheck(core, interrupt, cpuInterrupt).Some?)
        && (r.Err? ==> proIntrMap == old(proIntrMap) && appIntrMap == old(appIntrMap))
        && (r.Ok? && core == 0 ==> proIntrMap == old(proIntrMap)[interrupt := cpuInterrupt] && appIntrMap == old(appIntrMap))
        && (r.Ok? && core == 1 ==> appIntrMap == old(appIntrMap)[interrupt := cpuInterrupt] && proIntrMap == old(proIntrMap))
      ensures unchanged(this`fromCpu, this`intEnable)
    {
      var route := CpuInterruptFor(level, edge);
      if route.Err? {
        return Err(InvalidInterruptLevel);
      }
      var cpuInterrupt := route.value;
      var table := levels;
      for i := 0 to 8
        invariant |table| == 8
        invariant forall k :: 0 <= k < i ==> table[k] == old(levels)[k] - {interrupt}
        invariant forall k :: i <= k < 8 ==> table[k] == old(levels)[k]
      {
        table := table[i := table[i] - {interrupt}];
      }
      table := table[level := table[level] + {interrupt}];
      assert table == Relevel(old(levels), interrupt, level) by {
        forall k | 0 <= k < 8
          ensures table[k] == Relevel(old(levels), interrupt, level)[k]
        {
        }
      }
      levels := table;
      r := MapInterrupt(core, interrupt, cpuInterrupt);
    }

    /** `enable`: the CPU interrupts of the routes switched on, the others as they were. */
    method Enable()
      modifies this
      ensures intEnable == old(intEnable) + CPU_INTERRUPT_USED_LEVELS
      ensures unchanged(this`levels, this`proIntrMap, this`appIntrMap, this`fromCpu)
    {
      intEnable := intEnable + CPU_INTERRUPT_USED_LEVELS;
    }
  }
}
