/** Dynamic frequency scaling of src/clock_control/dfs.rs: the CPU and APB lock counters
    select the frequency (maximum while a CPU lock is held, the APB frequency while only APB
    locks are held, the minimum otherwise), the awake counter only counts, and the
    registered callbacks run after each frequency switch. The frequency setters and the
    callbacks are outside the model: a switch and each callback call are events appended to
    a log, a callback is an identifier. The locks are taken and released one at a time (the
    interrupt-free sections and the spin mutex make them sequential). */
module FrequencyScaling {
  import opened Bits

  const MAX_CALLBACKS: nat := 10

  datatype Error = TooManyCallbacks

  /** The frequencies `set_cpu_frequency_max`, `_apb` and `_min` select. */
  datatype Frequency = Max | Apb | Min

  datatype Event = SetFrequency(frequency: Frequency) | Callback(id: nat)

  /** The frequency the lock counts call for. */
  function Target(cpu: nat, apb: nat): (r: Frequency)
    ensures r == Max <==> cpu > 0
    ensures r == Apb <==> cpu == 0 && apb > 0
    ensures r == Min <==> cpu == 0 && apb == 0
  {
    if cpu > 0 then Max else if apb > 0 then Apb else Min
  }

  /** The thresholds the lock operations test are exactly the points where the frequency
      the counts call for changes: the first CPU lock, the last CPU unlock, and the first
      APB lock or last APB unlock while no CPU lock is held. */
  lemma ThresholdsAreChanges(cpu: nat, apb: nat)
    ensures Target(cpu + 1, apb) != Target(cpu, apb) <==> cpu + 1 == 1
    ensures Target(cpu, apb + 1) != Target(cpu, apb) <==> apb + 1 == 1 && cpu == 0
  {
  }

  /** The events of calling the callbacks `ids` in order. */
  function Calls(ids: seq<nat>): (r: seq<Event>)
    ensures |r| == |ids|
    ensures forall i :: 0 <= i < |ids| ==> r[i] == Callback(ids[i])
  {
    if ids == [] then [] else Calls(ids[..|ids| - 1]) + [Callback(ids[|ids| - 1])]
  }

  /** The lock counters of `DFS_MUTEX` and the callback table of `DFS`. `frequency` is the
      frequency last selected, None before the first selection. */
  class Dfs {
    var cpu: nat
    var apb: nat
    var awake: nat
    var frequency: Option<Frequency>
    const callbacks: array<nat>
    var nrCallbacks: nat
    var log: seq<Event>

    /** The frequency last selected is the one the counts call for. */
    predicate Valid()
      reads this
    {
      && callbacks.Length == MAX_CALLBACKS && nrCallbacks <= MAX_CALLBACKS
      && (frequency.None? ==> cpu == 0 && apb == 0)
      && (frequency.Some? ==> frequency.value == Target(cpu, apb))
    }

    /** The counters at zero, no frequency selected yet and no callback registered; the
        table is filled with the do-nothing callback, 0. */
    constructor()
      ensures Valid() && fresh(callbacks)
      ensures cpu == 0 && apb == 0 && awake == 0 && frequency.None?
      ensures nrCallbacks == 0 && callbacks[..] == seq(MAX_CALLBACKS, _ => 0) && log == []
    {
      cpu, apb, awake := 0, 0, 0;
      frequency := None;
      callbacks := new nat[MAX_CALLBACKS](_ => 0);
      nrCallbacks := 0;
      log := [];
    }

    /** `do_callbacks`: the registered callbacks, in the order they were added. */
    method DoCallbacks()
      requires nrCallbacks <= callbacks.Length
      modifies this`log
      ensures log == old(log) + Calls(callbacks[..nrCallbacks])
    {
      var nr := nrCallbacks;
      var i := 0;
      while i < nr
        invariant 0 <= i <= nr
        invariant log == old(log) + Calls(callbacks[..i])
      {
        assert callbacks[..i + 1][..i] == callbacks[..i];
        log := log + [Callback(callbacks[i])];
        i := i + 1;
      }
    }

    /** A frequency setter: the selection and its event. */
    method Select(f: Frequency)
      modifies this`frequency, this`log
      ensures frequency == Some(f) && log == old(log) + [SetFrequency(f)]
    {
      frequency := Some(f);
      log := log + [SetFrequency(f)];
    }

    /** `lock_cpu_frequency`: one more CPU lock; the first selects the maximum frequency
        and runs the callbacks. */
    method LockCpuFrequency()
      requires Valid()
      modifies this`cpu, this`frequency, this`log
      ensures Valid() && cpu == old(cpu) + 1
      ensures old(cpu) == 0 ==> frequency == Some(Max) && log == old(log) + [SetFrequency(Max)] + Calls(callbacks[..nrCallbacks])
      ensures old(cpu) != 0 ==> frequency == old(frequency) && log == old(log)
    {
      cpu := cpu + 1;
      if cpu == 1 {
        Select(Max);
        DoCallbacks();
      }
    }

    /** `unlock_cpu_frequency`, the drop of a CPU guard: one CPU lock fewer; the last
        selects the APB frequency while APB locks are held and the minimum otherwise, and
        runs the callbacks. */
    method UnlockCpuFrequency()
      requires Valid() && cpu > 0
      modifies this`cpu, this`frequency, this`log
      ensures Valid() && cpu == old(cpu) - 1
      ensures cpu == 0 ==> var f := if apb == 0 then Min else Apb;
        frequency == Some(f) && log == old(log) + [SetFrequency(f)] + Calls(callbacks[..nrCallbacks])
      ensures cpu != 0 ==> frequency == old(frequency) && log == old(log)
    {
      cpu := cpu - 1;
      if cpu == 0 {
        if apb == 0 {
          Select(Min);
        } else {
          Select(Apb);
        }
        DoCallbacks();
      }
    }

    /** `lock_apb_frequency`: one more APB lock; the first, while no CPU lock is held,
        selects the APB frequency and runs the callbacks. */
    method LockApbFrequency()
      requires Valid()
      modifies this`apb, this`frequency, this`log
      ensures Valid() && apb == old(apb) + 1
      ensures old(apb) == 0 && cpu == 0 ==> frequency == Some(Apb) && log == old(log) + [SetFrequency(Apb)] + Calls(callbacks[..nrCallbacks])
      ensures old(apb) != 0 || cpu != 0 ==> frequency == old(frequency) && log == old(log)
    {
      apb := apb + 1;
      if apb == 1 && cpu == 0 {
        Select(Apb);
        DoCallbacks();
      }
    }

    /** `unlock_apb_frequency`, the drop of an APB guard: one APB lock fewer; the last,
        while no CPU lock is held, selects the minimum and runs the callbacks. */
    method UnlockApbFrequency()
      requires Valid() && apb > 0
      modifies this`apb, this`frequency, this`log
      ensures Valid() && apb == old(apb) - 1
      ensures apb == 0 && cpu == 0 ==> frequency == Some(Min) && log == old(log) + [SetFrequency(Min)] + Calls(callbacks[..nrCallbacks])
      ensures apb != 0 || cpu != 0 ==> frequency == old(frequency) && log == old(log)
    {
      apb := apb - 1;
      if apb == 0 && cpu == 0 {
        Select(Min);
        DoCallbacks();
      }
    }

    /** `lock_awake`: only the awake counter changes. */
    method LockAwake()
      modifies this`awake
      ensures awake == old(awake) + 1
    {
      awake := awake + 1;
    }

    /** `unlock_awake`, the drop of an awake guard: only the awake counter changes. */
    method UnlockAwake()
      requires awake > 0
      modifies this`awake
      ensures awake == old(awake) - 1
    {
      awake := awake - 1;
    }

    /** `add_callback`: TooManyCallbacks, with the table untouched, once ten callbacks are
        registered; otherwise the callback goes into the next free entry. */
    method AddCallback(id: nat) returns (r: Result<(), Error>)
      requires Valid()
      modifies callbacks, this`nrCallbacks
      ensures Valid()
      ensures r.Err? <==> old(nrCallbacks) >= MAX_CALLBACKS
      ensures r.Err? ==> nrCallbacks == old(nrCallbacks) && callbacks[..] == old(callbacks[..])
      ensures r.Ok? ==> (nrCallbacks == old(nrCallbacks) + 1
                         && callbacks[..] == old(callbacks[..])[old(nrCallbacks) := id]
                         && callbacks[..nrCallbacks] == old(callbacks[..])[..old(nrCallbacks)] + [id])
    {
      if nrCallbacks >= MAX_CALLBACKS {
        return Err(TooManyCallbacks);
      }
      callbacks[nrCallbacks] := id;
      nrCallbacks := nrCallbacks + 1;
      r := Ok(());
    }
  }
}
