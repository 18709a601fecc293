/** The heap allocators of src/alloc.rs. A `LockedHeap` covers the address range its two
    linker symbols give and creates its `linked_list_allocator::Heap` on the first
    allocation; the heap's first-fit search is not modelled, so each allocation takes the
    address the search yields as a parameter (None when it finds no block). The
    `GeneralAllocator` tries the external, IRAM and DRAM heaps in the order its
    configuration and the request's layout select, and returns a block to the first heap
    whose range holds the pointer. Addresses are unbounded naturals; 0 is the null
    pointer. */
module Alloc {
  import opened Bits

  const DEFAULT_EXTERNAL_THRESHOLD: nat := 32 * 1024
  const DEFAULT_USE_IRAM: bool := false
  /** `core::mem::size_of::<u32>()`: the size and alignment IRAM needs. */
  const WORD_BYTES: nat := 4

  datatype Layout = Layout(size: nat, align: nat)

  datatype Memory = Dram | Iram | External

  /** The range of an initialised heap: `bottom()` and `top()` are its start and start
      plus size. */
  datatype Region = Region(bottom: nat, size: nat)
  {
    function Top(): nat { bottom + size }
  }

  /** The end of `EXTERNAL_HEAP`: the smaller of the linker's end and the start plus the
      external RAM size. */
  function ExternalHeapEnd(heapEnd: nat, start: nat, ramSize: nat): (r: nat)
    ensures r <= heapEnd && r <= start + ramSize
    ensures r == heapEnd || r == start + ramSize
  {
    if heapEnd <= start + ramSize then heapEnd else start + ramSize
  }

  /** `is_in_range` as written: it unwraps the heap, so on a heap that was never
      initialised it panics, which is None. An initialised heap holds exactly the
      pointers in the half-open range from its bottom to its top. */
  function IsInRangeAsWritten(heap: Option<Region>, ptr: nat): (r: Option<bool>)
    ensures r.None? <==> heap.None?
    ensures r.Some? ==> (r.value <==> heap.value.bottom <= ptr < heap.value.Top())
  {
    match heap
    case None => None
    case Some(h) => Some(h.bottom <= ptr && ptr < h.Top())
  }

  /** `is_in_range` as intended: a heap that was never initialised has handed out nothing
      and holds no pointer. */
  function IsInRange(heap: Option<Region>, ptr: nat): (r: bool)
    ensures r <==> heap.Some? && heap.value.bottom <= ptr < heap.value.Top()
  {
    heap.Some? && heap.value.bottom <= ptr < heap.value.Top()
  }

  /** The corrected test agrees with the written one wherever the written one does not
      panic. */
  lemma IsInRangeAgrees(heap: Option<Region>, ptr: nat)
    requires IsInRangeAsWritten(heap, ptr).Some?
    ensures IsInRange(heap, ptr) == IsInRangeAsWritten(heap, ptr).value
  {
  }

  /** The heap after the lazy initialisation of `alloc`: unchanged once created, else
      a heap at `start` of `end - start` bytes. */
  function Initialised(heap: Option<Region>, start: nat, end: nat): (r: Option<Region>)
    requires start <= end
    ensures r.Some? && (heap.Some? ==> r == heap)
    ensures heap.None? ==> r.value.bottom == start && r.value.Top() == end
  {
    if heap.Some? then heap else Some(Region(start, end - start))
  }

  /** A `LockedHeap` over `[start, end)`. */
  class LockedHeap {
    const start: nat
    const end: nat
    var heap: Option<Region>
    /** The blocks handed back with `dealloc`, in order. */
    var freed: seq<nat>

    /** `LockedHeap::new`: no heap yet. The linker places the end at or after the start. */
    constructor(start: nat, end: nat)
      requires start <= end
      ensures this.start == start && this.end == end && heap.None? && freed == []
    {
      this.start := start;
      this.end := end;
      heap := None;
      freed := [];
    }

    /** `alloc`: the heap is created on first use and keeps its range afterwards; the
        result is the block the first-fit search found, or null. The search hands out
        non-null addresses inside the heap. */
    method Alloc(layout: Layout, found: Option<nat>) returns (ptr: nat)
      requires start <= end
      requires found.Some? ==> 0 < found.value && start <= found.value < end
      modifies this
      ensures heap == Initialised(old(heap), start, end) && freed == old(freed)
      ensures ptr == if found.Some? then found.value else 0
    {
      if heap.None? {
        heap := Some(Region(start, end - start));
      }
      ptr := if found.Some? then found.value else 0;
    }

    /** `dealloc`: the block goes back to the heap, which must exist. */
    method Dealloc(ptr: nat)
      requires heap.Some?
      modifies this
      ensures freed == old(freed) + [ptr] && heap == old(heap)
    {
      freed := freed + [ptr];
    }
  }

  /** The heaps `GeneralAllocator::alloc` tries, in order, until one returns a non-null
      block: external first for a request above the threshold (only with `external_ram`),
      IRAM when allowed and the request is word-sized and word-aligned, then DRAM, and
      with `external_ram` external again as the last resort. */
  function Plan(externalRam: bool, threshold: nat, useIram: bool, layout: Layout): (r: seq<Memory>)
    ensures Dram in r
  {
    (if externalRam && layout.size > threshold then [External] else []) +
    (if useIram && layout.size >= WORD_BYTES && layout.align >= WORD_BYTES then [Iram] else []) +
    [Dram] +
    (if externalRam then [External] else [])
  }

  /** The answer of each heap's first-fit search during one call. A heap's state does not
      change between the two calls `alloc` may make on the external heap, so both get
      the same answer. */
  datatype Fits = Fits(dram: Option<nat>, iram: Option<nat>, external: Option<nat>)
  {
    function Of(m: Memory): Option<nat>
    {
      match m
      case Dram => dram
      case Iram => iram
      case External => external
    }
  }

  /** The block of the first heap in the plan that finds one, null if none does. */
  function FirstFound(plan: seq<Memory>, fits: Fits): (r: nat)
  {
    if plan == [] then 0
    else if fits.Of(plan[0]).Some? then fits.Of(plan[0]).value
    else FirstFound(plan[1..], fits)
  }

  /** The heaps the call actually asks, up to and including the first to succeed. */
  function Tried(plan: seq<Memory>, fits: Fits): (r: seq<Memory>)
    ensures |r| <= |plan| && r == plan[..|r|]
  {
    if plan == [] then []
    else if fits.Of(plan[0]).Some? then [plan[0]]
    else [plan[0]] + Tried(plan[1..], fits)
  }

  /** The result is the block of the first heap, in plan order, whose search succeeds,
      every heap before it having failed; it is null only when every heap in the plan
      fails. */
  lemma {:induction false} FirstFoundIsFirst(plan: seq<Memory>, fits: Fits)
    requires forall k :: 0 <= k < |plan| && fits.Of(plan[k]).Some? ==> fits.Of(plan[k]).value > 0
    ensures FirstFound(plan, fits) == 0 <==> forall k :: 0 <= k < |plan| ==> fits.Of(plan[k]).None?
    ensures FirstFound(plan, fits) != 0 ==>
      exists k :: 0 <= k < |plan| && fits.Of(plan[k]) == Some(FirstFound(plan, fits)) && (forall j :: 0 <= j < k ==> fits.Of(plan[j]).None?)
  {
    if plan != [] && fits.Of(plan[0]).None? {
      FirstFoundIsFirst(plan[1..], fits);
      var r := FirstFound(plan, fits);
      if r != 0 {
        var k :| 0 <= k < |plan[1..]| && fits.Of(plan[1..][k]) == Some(r)
          && (forall j :: 0 <= j < k ==> fits.Of(plan[1..][j]).None?);
        assert fits.Of(plan[k + 1]) == Some(r);
        assert forall j :: 0 <= j < k + 1 ==> fits.Of(plan[j]).None? by {
          forall j | 0 <= j < k + 1
            ensures fits.Of(plan[j]).None?
          {
            if j > 0 {
              assert plan[j] == plan[1..][j - 1];
            }
          }
        }
      } else {
        assert forall k :: 0 <= k < |plan| ==> fits.Of(plan[k]).None? by {
          forall k | 0 <= k < |plan|
            ensures fits.Of(plan[k]).None?
          {
            if k > 0 {
              assert plan[k] == plan[1..][k - 1];
            }
          }
        }
      }
    } else if plan != [] {
      assert fits.Of(plan[0]).value > 0;
    }
  }

  /** The plan's shape: IRAM is asked exactly when allowed and the request is word-sized
      and word-aligned, external first exactly for a request above the threshold with
      `external_ram`; without `external_ram` an IRAM-ineligible request goes to DRAM
      alone. */
  lemma PlanShape(externalRam: bool, threshold: nat, useIram: bool, layout: Layout)
    ensures Iram in Plan(externalRam, threshold, useIram, layout) <==>
      useIram && layout.size >= WORD_BYTES && layout.align >= WORD_BYTES
    ensures Plan(externalRam, threshold, useIram, layout)[0] == External <==> externalRam && layout.size > threshold
    ensures External in Plan(externalRam, threshold, useIram, layout) <==> externalRam
    ensures !externalRam && Iram !in Plan(externalRam, threshold, useIram, layout) ==>
      Plan(externalRam, threshold, useIram, layout) == [Dram]
  {
  }

  /** The default allocator: with `external_ram`, blocks above 32 KiB go to external RAM
      first, IRAM is never used, and DRAM then external RAM serve the rest; without it,
      every block comes from DRAM. */
  lemma DefaultPlan(layout: Layout)
    ensures Plan(true, DEFAULT_EXTERNAL_THRESHOLD, DEFAULT_USE_IRAM, layout) ==
      (if layout.size > 32768 then [External] else []) + [Dram, External]
    ensures Plan(false, DEFAULT_EXTERNAL_THRESHOLD, DEFAULT_USE_IRAM, layout) == [Dram]
  {
  }

  /** `dealloc` as written: the first heap, of DRAM, IRAM and (with `external_ram`)
      external, whose `is_in_range` holds. None is a panic in `is_in_range`, Some(None)
      a pointer no heap holds, which is ignored. */
  function DeallocRouteAsWritten(externalRam: bool, dram: Option<Region>, iram: Option<Region>,
                                 external: Option<Region>, ptr: nat): (r: Option<Option<Memory>>)
    ensures r.None? <==> (dram.None? || (!IsInRange(dram, ptr) && (iram.None?
                          || (!IsInRange(iram, ptr) && externalRam && external.None?))))
    ensures r.Some? ==> r.value == DeallocRoute(externalRam, dram, iram, external, ptr)
  {
    match IsInRangeAsWritten(dram, ptr)
    case None => None
    case Some(true) => Some(Some(Dram))
    case Some(false) =>
      match IsInRangeAsWritten(iram, ptr)
      case None => None
      case Some(true) => Some(Some(Iram))
      case Some(false) =>
        if !externalRam then Some(None)
        else match IsInRangeAsWritten(external, ptr)
          case None => None
          case Some(true) => Some(Some(External))
          case Some(false) => Some(None)
  }

  /** `dealloc` as intended, with the corrected `is_in_range`. */
  function DeallocRoute(externalRam: bool, dram: Option<Region>, iram: Option<Region>,
                        external: Option<Region>, ptr: nat): (r: Option<Memory>)
    ensures r == Some(Dram) <==> IsInRange(dram, ptr)
    ensures r == Some(Iram) <==> !IsInRange(dram, ptr) && IsInRange(iram, ptr)
    ensures r == Some(External) <==> externalRam && !IsInRange(dram, ptr) && !IsInRange(iram, ptr) && IsInRange(external, ptr)
  {
    if IsInRange(dram, ptr) then Some(Dram)
    else if IsInRange(iram, ptr) then Some(Iram)
    else if externalRam && IsInRange(external, ptr) then Some(External)
    else None
  }

  /** As written, the default allocator with `external_ram` panics when it frees a large
      block: the block came from external RAM, IRAM was never used, and `is_in_range`
      unwraps the IRAM heap that was never initialised. */
  lemma DeallocAsWrittenPanics()
    ensures DeallocRouteAsWritten(true, Some(Region(0x3ffb_0000, 0x1000)), None,
                                  Some(Region(0x3f80_0000, 0x40_0000)), 0x3f80_0000) == None
    ensures DeallocRoute(true, Some(Region(0x3ffb_0000, 0x1000)), None,
                         Some(Region(0x3f80_0000, 0x40_0000)), 0x3f80_0000) == Some(External)
  {
  }

  /** With the correction, a block goes back to the heap it came from, provided the
      heaps do not overlap: the heap that handed it out holds it and no other does. */
  lemma DeallocReturnsToOwner(externalRam: bool, dram: Option<Region>, iram: Option<Region>,
                              external: Option<Region>, ptr: nat, owner: Memory)
    requires owner == External ==> externalRam
    requires IsInRange(match owner case Dram => dram case Iram => iram case External => external, ptr)
    requires owner != Dram ==> !IsInRange(dram, ptr)
    requires owner != Iram ==> !IsInRange(iram, ptr)
    requires owner != External ==> !IsInRange(external, ptr)
    ensures DeallocRoute(externalRam, dram, iram, external, ptr) == Some(owner)
  {
  }

  /** `GeneralAllocator` with its three heaps; `externalRam` is the `external_ram`
      feature. */
  class GeneralAllocator {
    const externalRam: bool
    const externalThreshold: nat
    const useIram: bool
    const dram: LockedHeap
    const iram: LockedHeap
    const external: LockedHeap

    /** `GeneralAllocator::new` over the three heaps. */
    constructor(externalRam: bool, externalThreshold: nat, useIram: bool,
                dram: LockedHeap, iram: LockedHeap, external: LockedHeap)
      ensures this.externalRam == externalRam && this.externalThreshold == externalThreshold
      ensures this.useIram == useIram
      ensures this.dram == dram && this.iram == iram && this.external == external
    {
      this.externalRam := externalRam;
      this.externalThreshold := externalThreshold;
      this.useIram := useIram;
      this.dram := dram;
      this.iram := iram;
      this.external := external;
    }

    predicate Valid()
      reads this, dram, iram, external
    {
      dram != iram && dram != external && iram != external &&
      dram.start <= dram.end && iram.start <= iram.end && external.start <= external.end
    }

    /** The search answers are those of each heap: non-null addresses in its range. */
    predicate Answers(fits: Fits)
      reads this, dram, iram, external
    {
      (fits.dram.Some? ==> 0 < fits.dram.value && dram.start <= fits.dram.value < dram.end) &&
      (fits.iram.Some? ==> 0 < fits.iram.value && iram.start <= fits.iram.value < iram.end) &&
      (fits.external.Some? ==> 0 < fits.external.value && external.start <= fits.external.value < external.end)
    }

    function Tries(layout: Layout, fits: Fits): seq<Memory>
      reads this
    {
      Tried(Plan(externalRam, externalThreshold, useIram, layout), fits)
    }

    /** `GeneralAllocator::alloc`: the block of the first heap in the plan that finds
        one, null if none does; every heap asked is initialised, the others are as they
        were. */
    method Alloc(layout: Layout, fits: Fits) returns (ptr: nat)
      requires Valid() && Answers(fits)
      modifies dram, iram, external
      ensures ptr == FirstFound(Plan(externalRam, externalThreshold, useIram, layout), fits)
      ensures dram.heap == if Dram in Tries(layout, fits) then Initialised(old(dram.heap), dram.start, dram.end) else old(dram.heap)
      ensures iram.heap == if Iram in Tries(layout, fits) then Initialised(old(iram.heap), iram.start, iram.end) else old(iram.heap)
      ensures external.heap == if External in Tries(layout, fits) then Initialised(old(external.heap), external.start, external.end) else old(external.heap)
      ensures dram.freed == old(dram.freed) && iram.freed == old(iram.freed) && external.freed == old(external.freed)
    {
      var plan := Plan(externalRam, externalThreshold, useIram, layout);
      var bigFirst := externalRam && layout.size > externalThreshold;
      var withIram := useIram && layout.size >= WORD_BYTES && layout.align >= WORD_BYTES;
      var rest := (if withIram then [Iram] else []) + Fallback();
      if bigFirst {
        assert plan == [External] + rest;
        ptr := AllocLarge(layout, fits, withIram);
      } else {
        assert plan == rest;
        ptr := AllocRest(layout, fits, withIram);
      }
    }

    /** A request above the threshold with `external_ram`: the external heap first, then
        the rest of the plan. */
    method AllocLarge(layout: Layout, fits: Fits, withIram: bool) returns (ptr: nat)
      requires Valid() && Answers(fits)
      requires withIram <==> useIram && layout.size >= WORD_BYTES && layout.align >= WORD_BYTES
      modifies dram, iram, external
      ensures var plan := [External] + ((if withIram then [Iram] else []) + Fallback());
        && ptr == FirstFound(plan, fits)
        && dram.heap == (if Dram in Tried(plan, fits) then Initialised(old(dram.heap), dram.start, dram.end) else old(dram.heap))
        && iram.heap == (if Iram in Tried(plan, fits) then Initialised(old(iram.heap), iram.start, iram.end) else old(iram.heap))
        && external.heap == Initialised(old(external.heap), external.start, external.end)
        && External in Tried(plan, fits)
      ensures dram.freed == old(dram.freed) && iram.freed == old(iram.freed) && external.freed == old(external.freed)
    {
      var rest := (if withIram then [Iram] else []) + Fallback();
      TriedStep(External, rest, fits);
      var res := external.Alloc(layout, fits.external);
      if res != 0 {
        ptr := res;
        return;
      }
      ptr := AllocRest(layout, fits, withIram);
    }

    /** IRAM when eligible, then DRAM, then with `external_ram` the external heap. */
    method AllocRest(layout: Layout, fits: Fits, withIram: bool) returns (ptr: nat)
      requires Valid() && Answers(fits)
      requires withIram <==> useIram && layout.size >= WORD_BYTES && layout.align >= WORD_BYTES
      modifies dram, iram, external
      ensures var rest := (if withIram then [Iram] else []) + Fallback();
        && ptr == FirstFound(rest, fits)
        && dram.heap == (if Dram in Tried(rest, fits) then Initialised(old(dram.heap), dram.start, dram.end) else old(dram.heap))
        && iram.heap == (if Iram in Tried(rest, fits) then Initialised(old(iram.heap), iram.start, iram.end) else old(iram.heap))
        && external.heap == (if External in Tried(rest, fits) then Initialised(old(external.heap), external.start, external.end) else old(external.heap))
      ensures dram.freed == old(dram.freed) && iram.freed == old(iram.freed) && external.freed == old(external.freed)
    {
      if withIram {
        TriedStep(Iram, Fallback(), fits);
        var res := iram.Alloc(layout, fits.iram);
        if res != 0 {
          ptr := res;
          return;
        }
      } else {
        assert [] + Fallback() == Fallback();
      }
      ptr := AllocFallback(layout, fits);
    }

    /** DRAM, then with `external_ram` the external heap. */
    function Fallback(): seq<Memory>
      reads this
    {
      [Dram] + (if externalRam then [External] else [])
    }

    method AllocFallback(layout: Layout, fits: Fits) returns (ptr: nat)
      requires Valid() && Answers(fits)
      modifies dram, iram, external
      ensures ptr == FirstFound(Fallback(), fits)
      ensures dram.heap == Initialised(old(dram.heap), dram.start, dram.end)
      ensures iram.heap == old(iram.heap)
      ensures external.heap == (if External in Tried(Fallback(), fits) then Initialised(old(external.heap), external.start, external.end) else old(external.heap))
      ensures Dram in Tried(Fallback(), fits) && Iram !in Tried(Fallback(), fits)
      ensures dram.freed == old(dram.freed) && iram.freed == old(iram.freed) && external.freed == old(external.freed)
    {
      var tail := if externalRam then [External] else [];
      TriedStep(Dram, tail, fits);
      if externalRam {
        TriedStep(External, [], fits);
        assert [External] + [] == tail;
      }
      var res := dram.Alloc(layout, fits.dram);
      if res != 0 || !externalRam {
        ptr := res;
        return;
      }
      ptr := external.Alloc(layout, fits.external);
    }

    /** `GeneralAllocator::dealloc`, corrected: the block goes to the first heap holding
        it; a pointer no heap holds is ignored. */
    method Dealloc(ptr: nat)
      requires Valid()
      modifies dram, iram, external
      ensures var route := DeallocRoute(externalRam, old(dram.heap), old(iram.heap), old(external.heap), ptr);
        && dram.freed == old(dram.freed) + (if route == Some(Dram) then [ptr] else [])
        && iram.freed == old(iram.freed) + (if route == Some(Iram) then [ptr] else [])
        && external.freed == old(external.freed) + (if route == Some(External) then [ptr] else [])
      ensures dram.heap == old(dram.heap) && iram.heap == old(iram.heap) && external.heap == old(external.heap)
    {
      if IsInRange(dram.heap, ptr) {
        dram.Dealloc(ptr);
      } else if IsInRange(iram.heap, ptr) {
        iram.Dealloc(ptr);
      } else if externalRam && IsInRange(external.heap, ptr) {
        external.Dealloc(ptr);
      }
    }
  }

  /** One heap in front of the rest: it serves the request or the rest is asked. */
  lemma TriedStep(m: Memory, rest: seq<Memory>, fits: Fits)
    ensures FirstFound([m] + rest, fits) == if fits.Of(m).Some? then fits.Of(m).value else FirstFound(rest, fits)
    ensures Tried([m] + rest, fits) == if fits.Of(m).Some? then [m] else [m] + Tried(rest, fits)
  {
    assert ([m] + rest)[1..] == rest;
  }
}
