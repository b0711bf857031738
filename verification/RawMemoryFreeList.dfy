/**
 The free list of src/util/raw_memory_freelist.rs: the same operations over raw memory that
 is mapped block by block as the list grows.
 */
module RawMemoryFreeLists {
  import opened PackedWord
  import opened FreeListTable
  import opened FreeListModel
  import opened FreeListEncoding
  import opened FreeListInit
  import opened FreeLists

  const BYTES_IN_PAGE: int := 4096
  const BYTES_IN_UNIT: int := 8
  const BYTES_IN_ENTRY: int := 4
  const UNITS_IN_PAGE: int := 512

  // ---------- sizes ----------

  function PagesToBytes(pages: int): int {
    pages * BYTES_IN_PAGE
  }

  function BytesToPagesUp(bytes: int): int {
    (bytes + BYTES_IN_PAGE - 1) / BYTES_IN_PAGE
  }

  function UnitsPerBlock(pagesPerBlock: int): int {
    PagesToBytes(pagesPerBlock) / BYTES_IN_UNIT
  }

  function SizeInPages(units: int, heads: int): int {
    BytesToPagesUp((units + heads + 1) * BYTES_IN_UNIT)
  }

  function DefaultBlockSize(units: int, heads: int): int {
    if SizeInPages(units, heads) < 16 then SizeInPages(units, heads) else 16
  }

  /** The units that `blocks` mapped blocks have room for, beside the sentinels. */
  function Capacity(pagesPerBlock: int, heads: int, blocks: int): int {
    UnitsPerBlock(pagesPerBlock) - heads - 1 + (blocks - 1) * UnitsPerBlock(pagesPerBlock)
  }

  function CeilDiv(a: int, b: int): int
    requires 0 < b
  {
    (a + b - 1) / b
  }

  lemma DivBounds(x: int, b: int)
    requires 0 < b
    ensures x / b * b <= x < x / b * b + b
  {
  }

  lemma MulMono(p: int, q: int, b: int)
    requires 0 < b
    ensures p <= q ==> p * b <= q * b
    ensures p > q ==> p * b >= q * b + b
  {
    if p <= q {
      MulSplit(p, q - p, b);
    } else {
      MulSplit(q, p - q - 1, b);
      assert p * b == (q + (p - q - 1)) * b + b;
    }
  }

  lemma MulSplit(p: int, d: int, b: int)
    requires 0 < b && 0 <= d
    ensures (p + d) * b == p * b + d * b && d * b >= 0
  {
  }

  lemma CeilDivIs(a: int, b: int, q: int)
    requires 0 < b
    ensures CeilDiv(a, b) <= q <==> a <= q * b
  {
    DivBounds(a + b - 1, b);
    MulMono(CeilDiv(a, b), q, b);
  }

  /** size_in_pages is the least number of pages that hold the entries of all units, heads and the sentinel. */
  lemma SizeIsLeast(units: int, heads: int, pages: int)
    ensures SizeInPages(units, heads) <= pages <==> (units + heads + 1) * BYTES_IN_UNIT <= PagesToBytes(pages)
  {
    CeilDivIs((units + heads + 1) * BYTES_IN_UNIT, BYTES_IN_PAGE, pages);
  }

  /** The number of blocks that have room for `units`. */
  function BlocksFor(pagesPerBlock: int, heads: int, units: int): int
    requires 0 < pagesPerBlock
  {
    CeilDiv(units + heads + 1, UnitsPerBlock(pagesPerBlock))
  }

  /** The blocks that grow_freelist asks for when `blocks` are mapped. */
  function BlocksToAdd(pagesPerBlock: int, heads: int, blocks: int, required: int): int
    requires 0 < pagesPerBlock
  {
    if required > Capacity(pagesPerBlock, heads, blocks) then
      CeilDiv(required - Capacity(pagesPerBlock, heads, blocks), UnitsPerBlock(pagesPerBlock))
    else 0
  }

  /** The computed block count always satisfies the capacity assertion, and is the least that does. */
  lemma GrowthReachesCapacity(pagesPerBlock: int, heads: int, blocks: int, required: int)
    requires 0 < pagesPerBlock
    ensures var add := BlocksToAdd(pagesPerBlock, heads, blocks, required);
      && 0 <= add && required <= Capacity(pagesPerBlock, heads, blocks + add)
      && var needed := BlocksFor(pagesPerBlock, heads, required);
      blocks + add == (if needed > blocks then needed else blocks)
  {
    var u := UnitsPerBlock(pagesPerBlock);
    var total := BlocksFor(pagesPerBlock, heads, required);
    var missing := required - Capacity(pagesPerBlock, heads, blocks);
    assert Capacity(pagesPerBlock, heads, blocks) == blocks * u - heads - 1;
    CeilDivIs(required + heads + 1, u, total);
    CeilDivIs(required + heads + 1, u, total - 1);
    CeilDivIs(required + heads + 1, u, blocks);
    assert (total - blocks) * u == total * u - blocks * u;
    assert (total - 1 - blocks) * u == (total - 1) * u - blocks * u;
    CeilDivIs(missing, u, total - blocks);
    CeilDivIs(missing, u, total - blocks - 1);
    var add := BlocksToAdd(pagesPerBlock, heads, blocks, required);
    assert (blocks + add) * u == blocks * u + add * u;
    assert Capacity(pagesPerBlock, heads, blocks + add) == (blocks + add) * u - heads - 1;
  }

  // ---------- the limit ----------

  /** raise_high_water is not clipped at the limit. */
  predicate WithinLimit(base: int, limit: int, pagesPerBlock: int, blocks: int) {
    base + PagesToBytes(pagesPerBlock) * blocks <= limit
  }

  /**
   The assertion of `new` about the limit counts pages, but memory is mapped in whole blocks.
   Growth up to `maxUnits` stays below the limit exactly when the limit covers whole blocks.
   */
  lemma NeverClipped(base: int, limit: int, pagesPerBlock: int, heads: int, maxUnits: int)
    requires 0 < pagesPerBlock
    ensures (forall r :: r <= maxUnits ==> WithinLimit(base, limit, pagesPerBlock, BlocksFor(pagesPerBlock, heads, r)))
      <==> WithinLimit(base, limit, pagesPerBlock, BlocksFor(pagesPerBlock, heads, maxUnits))
  {
    var top := BlocksFor(pagesPerBlock, heads, maxUnits);
    var u := UnitsPerBlock(pagesPerBlock);
    CeilDivIs(maxUnits + heads + 1, u, top);
    forall r | r <= maxUnits
      ensures BlocksFor(pagesPerBlock, heads, r) * PagesToBytes(pagesPerBlock) <= top * PagesToBytes(pagesPerBlock)
    {
      CeilDivIs(r + heads + 1, u, top);
      MulMono(BlocksFor(pagesPerBlock, heads, r), top, PagesToBytes(pagesPerBlock));
    }
  }

  /** 17 pages in blocks of 16: `new` accepts the limit, and growth to the maximum runs past it. */
  lemma ClipIsReachable(base: int)
    ensures var heads, units, limit := 1, 8702, base + PagesToBytes(17);
      var ppb := DefaultBlockSize(units, heads);
      && base + PagesToBytes(SizeInPages(units, heads)) <= limit
      && !WithinLimit(base, limit, ppb, BlocksFor(ppb, heads, units))
  {
  }

  // ---------- addresses ----------

  const I32: int := 0x1_0000_0000

  /** The first entry index whose byte offset does not fit an `i32`. */
  const ADDRESSABLE: int := 0x2000_0000

  /** `(index << 2) as usize`: the shift drops what leaves the 32 bits, the cast extends the sign. */
  function ByteOffset(index: int): int {
    var bits := index * BYTES_IN_ENTRY % I32;
    if bits < I32 / 2 then bits else bits - I32
  }

  function EntryAddress(base: int, index: int): int {
    base + ByteOffset(index)
  }

  lemma OffsetIs(index: int)
    requires 0 <= index < 0x8000_0000
    ensures ByteOffset(index) == index * BYTES_IN_ENTRY <==> index < ADDRESSABLE
    ensures ADDRESSABLE <= index < 2 * ADDRESSABLE ==> ByteOffset(index) < 0
    ensures 2 * ADDRESSABLE <= index ==> ByteOffset(index) == ByteOffset(index - 2 * ADDRESSABLE)
  {
  }

  /** The bounds of `new` allow tables that get_entry and set_entry cannot address: exactly those of this size. */
  lemma EveryEntryAddressed(base: int, heads: nat, maxUnits: nat)
    requires heads <= MAX_HEADS && maxUnits <= MAX_UNITS
    ensures (forall i :: 0 <= i <= 2 * (maxUnits + heads) + 1 ==> EntryAddress(base, i) == base + i * BYTES_IN_ENTRY)
      <==> 2 * (maxUnits + heads) + 1 < ADDRESSABLE
  {
    IndexFits(heads, maxUnits);
    var last := 2 * (maxUnits + heads) + 1;
    OffsetIs(last);
    if last < ADDRESSABLE {
      forall i | 0 <= i <= last
        ensures EntryAddress(base, i) == base + i * BYTES_IN_ENTRY
      {
        OffsetIs(i);
      }
    } else {
      assert EntryAddress(base, last) != base + last * BYTES_IN_ENTRY;
    }
  }

  /** `new` accepts 2^28 units, and the entries of the last one are then looked for below the base. */
  lemma EntryBelowBase(base: int)
    ensures var heads, units := 1, 0x1000_0000;
      units <= MAX_UNITS && heads <= MAX_HEADS && EntryAddress(base, 2 * (units + heads)) == base - 2147483640
  {
  }

  // ---------- carving ----------

  /** Where the cursor of grow_list_by_blocks stands when its loop condition is evaluated for the `k`-th time. */
  function CarvingCursor(grain: int, oldMax: int, newMax: int, k: nat): int {
    newMax - (k + 1) * if grain < newMax - oldMax then grain else newMax - oldMax
  }

  /** The carving loop ends exactly if the list really grows, with a grain that is positive. */
  lemma CarvingEnds(grain: int, oldMax: int, newMax: int)
    ensures (exists k: nat :: CarvingCursor(grain, oldMax, newMax, k) < oldMax) <==> 0 < grain && oldMax < newMax
  {
    var g := if grain < newMax - oldMax then grain else newMax - oldMax;
    if 0 < g {
      var k := newMax - oldMax;
      MulMono(1, g, k + 1);
      assert CarvingCursor(grain, oldMax, newMax, k) < oldMax;
    } else {
      forall k: nat
        ensures CarvingCursor(grain, oldMax, newMax, k) >= oldMax
      {
        MulMono(1, k + 1, 1 - g);
      }
    }
  }

  /** Growth by 0 of a list with units: the cursor never leaves the end of the list. */
  lemma GrowthByNothingIsEndless(grain: int, units: nat, k: nat)
    requires 0 < grain
    ensures CarvingCursor(grain, units, units, k) == units
  {
  }

  /** How grow_freelist ends: the maximum is respected, the limit is hit, or the list has grown. */
  datatype Growth = Refused | PastLimit | Grew

  /** What growth from `was` (no heap at all if there were no units) to `units` starts from. */
  ghost function Grown(heads: nat, was: Heap, oldUnits: nat, units: nat): Heap
    requires oldUnits < units && (oldUnits > 0 ==> was.units == oldUnits)
  {
    if oldUnits == 0 then FreshHeap(heads, units) else ExtendHeap(was, units)
  }

  class RawMemoryFreeList {
    const list: FreeList
    const base: int
    const limit: int
    const maxUnits: nat
    const grain: int
    const pagesPerBlock: int
    var highWater: int
    var currentUnits: nat
    ghost var mapped: int  // the number of blocks mapped so far

    function MappedBlocks(): int
      requires 0 < pagesPerBlock
      reads this
    {
      BytesToPagesUp(highWater - base) / pagesPerBlock
    }

    function CurrentCapacity(): int
      requires 0 < pagesPerBlock
      reads this
    {
      Capacity(pagesPerBlock, list.heads, MappedBlocks())
    }

    /** The entries of the mapped memory: only those of the heads may have been written. */
    ghost predicate Untouched()
      reads this, list.table
    {
      forall u {:trigger Lo(list.table.entries, list.heads, u)} {:trigger Hi(list.table.entries, list.heads, u)} ::
        0 <= u && InTable(list.table.entries, list.heads, u) ==>
          Lo(list.table.entries, list.heads, u) == ZERO && Hi(list.table.entries, list.heads, u) == ZERO
    }

    ghost predicate Configured() {
      && list.head == -1 && 1 <= list.heads <= MAX_HEADS && maxUnits <= MAX_UNITS
      && 2 * (maxUnits + list.heads) + 1 < ADDRESSABLE && 0 < pagesPerBlock && 1 <= grain
    }

    /** The memory between `base` and `highWater` is whole blocks, and the table is that memory. */
    ghost predicate Mapped()
      reads this, list.table
    {
      && Configured() && 0 <= mapped
      && highWater == base + PagesToBytes(pagesPerBlock * mapped) <= limit
      && |list.table.entries| * BYTES_IN_ENTRY == PagesToBytes(pagesPerBlock * mapped)
    }

    ghost predicate Valid()
      reads this, list.table
    {
      && Mapped() && currentUnits <= maxUnits
      && (if currentUnits == 0 then Untouched() else list.Valid() && list.table.heap.units == currentUnits)
    }

    lemma MappedIsRead()
      requires Mapped()
      ensures MappedBlocks() == mapped
    {
      PagesRead(pagesPerBlock * mapped);
      MulDiv(pagesPerBlock, mapped);
    }

    /** A unit within the capacity has its two entries in mapped memory. */
    lemma CapacityIsMapped(unit: int)
      requires Mapped() && 0 - list.heads <= unit <= CurrentCapacity()
      ensures InTable(list.table.entries, list.heads, unit)
    {
      MappedIsRead();
      var u := UnitsPerBlock(pagesPerBlock);
      assert u == pagesPerBlock * UNITS_IN_PAGE;
      assert u + (mapped - 1) * u == mapped * u;
      assert mapped * (pagesPerBlock * UNITS_IN_PAGE) == (pagesPerBlock * mapped) * UNITS_IN_PAGE;
    }

    /** get_entry and set_entry reach the entries of every unit, and stay between the base and the high-water mark. */
    lemma EntriesInMemory(unit: int, index: int)
      requires Valid() && 0 < currentUnits && 0 - list.heads <= unit <= currentUnits
      requires index == 2 * (unit + list.heads) || index == 2 * (unit + list.heads) + 1
      ensures 0 <= index < |list.table.entries|
      ensures base <= EntryAddress(base, index) == base + index * BYTES_IN_ENTRY <= highWater - BYTES_IN_ENTRY
    {
      OffsetIs(index);
      EncodesSized(list.table.entries, list.table.heap);
    }

    constructor (base: int, limit: int, pagesPerBlock: int, units: nat, grain: int, heads: nat)
      requires units <= MAX_UNITS && 1 <= heads <= MAX_HEADS && 0 < pagesPerBlock && 1 <= grain
      requires 2 * (units + heads) + 1 < ADDRESSABLE && base + PagesToBytes(SizeInPages(units, heads)) <= limit
      ensures Valid() && currentUnits == 0 && fresh(list.table)
      ensures this.base == base && this.limit == limit && this.pagesPerBlock == pagesPerBlock && this.maxUnits == units
      ensures this.grain == grain && list.heads == heads && mapped == 0
    {
      this.list := new FreeList.Unmapped(heads);
      this.base := base;
      this.limit := limit;
      this.maxUnits := units;
      this.grain := grain;
      this.pagesPerBlock := pagesPerBlock;
      this.highWater := base;
      this.currentUnits := 0;
      this.mapped := 0;
    }

    /** raise_high_water: with fewer bytes left than the blocks take, the clipped extent is negative and mmap fails. */
    method RaiseHighWater(blocks: int) returns (ok: bool)
      requires Valid() && 0 < blocks
      modifies this`highWater, this`mapped, list.table`entries
      ensures Valid() && (ok <==> WithinLimit(base, limit, pagesPerBlock, old(mapped) + blocks))
      ensures mapped == old(mapped) + if ok then blocks else 0
      ensures !ok ==> highWater == old(highWater) && list.table.entries == old(list.table.entries)
    {
      hide Encodes, EncodesBut;
      var growExtent := PagesToBytes(pagesPerBlock * blocks);
      Distribute(pagesPerBlock, mapped, blocks);
      if highWater == limit {
        return false;
      }
      if highWater + growExtent > limit {
        growExtent := highWater - limit;
      }
      if growExtent < 0 {
        return false;
      }
      MapMemory(growExtent);
      highWater := highWater + growExtent;
      mapped := mapped + blocks;
      ok := true;
    }

    /** mmap: zeroed memory appears behind the table. */
    method MapMemory(bytes: int)
      requires 0 <= bytes && bytes % 8 == 0 && |list.table.entries| % 2 == 0
      modifies list.table`entries
      ensures |list.table.entries| * BYTES_IN_ENTRY == old(|list.table.entries|) * BYTES_IN_ENTRY + bytes
      ensures old(Untouched()) ==> Untouched()
      ensures old(list.Valid()) ==> list.Valid()
    {
      ghost var was := list.table.entries;
      list.table.entries := list.table.entries + seq(bytes / BYTES_IN_ENTRY, i => ZERO);
      forall u | 0 <= u && InTable(list.table.entries, list.heads, u)
        ensures InTable(was, list.heads, u) ==>
          Lo(list.table.entries, list.heads, u) == Lo(was, list.heads, u) &&
            Hi(list.table.entries, list.heads, u) == Hi(was, list.heads, u)
        ensures !InTable(was, list.heads, u) ==>
          Lo(list.table.entries, list.heads, u) == Hi(list.table.entries, list.heads, u) == ZERO
      {
      }
      if Encodes(was, list.table.heap) {
        MoreMemory(was, list.table.entries, list.table.heap);
      }
    }

    /** All of the range that growth adds, with the heads set up if this is the first growth. */
    method OpenRange(oldMax: nat, newMax: nat)
      requires Mapped() && oldMax < newMax <= MAX_UNITS && newMax <= CurrentCapacity()
      requires if oldMax == 0 then Untouched() else list.Valid() && list.table.heap.units == oldMax
      modifies list.table
      ensures list.Valid() && list.table.heap == Grown(list.heads, old(list.table.heap), oldMax, newMax)
      ensures |list.table.entries| == old(|list.table.entries|)
    {
      CapacityIsMapped(newMax);
      if oldMax == 0 {
        list.SetHeadSentinels();
      } else {
        ExtendEncodes(list.table.entries, list.table.heap, newMax);
        list.SetSize(oldMax, 1);
      }
      list.SetSentinel(newMax);
      if oldMax == 0 {
        FreshEncodes(list.table.entries, list.heads, newMax);
        list.table.heap := FreshHeap(list.heads, newMax);
      } else {
        list.table.heap := ExtendHeap(list.table.heap, newMax);
      }
    }

    /** grow_list_by_blocks, once `blocks` have been found to suffice. */
    method GrowListByBlocks(blocks: int, newMax: nat) returns (ok: bool, ghost d: int, ghost n: nat)
      requires Valid() && 0 <= blocks && newMax <= maxUnits && (currentUnits < newMax || currentUnits == newMax == 0)
      requires newMax <= Capacity(pagesPerBlock, list.heads, mapped + blocks)
      modifies this, list.table
      ensures Valid() && (ok <==> WithinLimit(base, limit, pagesPerBlock, old(mapped) + blocks))
      ensures !ok ==>
        Unchanged(old(currentUnits), old(list.table.entries), old(list.table.heap)) && mapped == old(mapped)
      ensures ok ==> currentUnits == newMax && mapped == old(mapped) + blocks
      ensures ok && newMax > 0 ==> HasGrown(old(list.table.heap), old(currentUnits), d, n)
    {
      hide EncodesBut, Carved, Capacity, FreshHeap, ExtendHeap, UnitsPerBlock, Singles;
      d, n, ok := 0, 0, true;
      if currentUnits > 0 {
        EncodesValid(list.table.entries, list.table.heap, {});
      }
      if newMax > 0 {
        RangeIsOpen(list.table.heap, list.heads, currentUnits, newMax);
      }
      MulSwap(pagesPerBlock, mapped);
      if blocks > 0 {
        ok := RaiseHighWater(blocks);
      }
      if !ok {
        return;
      }
      var oldMax := currentUnits;
      MappedIsRead();
      if newMax == 0 {
        CapacityIsMapped(0);
        list.SetHeadSentinels();
        return;
      }
      OpenRange(oldMax, newMax);
      currentUnits := newMax;
      var g := if grain < newMax - oldMax then grain else newMax - oldMax;
      d, n := list.CarveGrains(newMax - g, oldMax, g);
      CarvedUnits(Grown(list.heads, old(list.table.heap), oldMax, newMax), list.table.heap, -1, d, g, n);
    }

    ghost predicate Unchanged(units: nat, entries: Table, heap: Heap)
      reads this, list.table
    {
      currentUnits == units && list.table.entries == entries && list.table.heap == heap
    }

    function GrainFor(added: int): int {
      if grain < added then grain else added
    }

    /** The heap is `was` grown to the current number of units, with `n` free blocks carved from `d` upwards. */
    ghost predicate HasGrown(was: Heap, oldUnits: nat, d: int, n: nat)
      reads this, list.table
    {
      && oldUnits < currentUnits && (oldUnits > 0 ==> was.units == oldUnits)
      && var g := GrainFor(currentUnits - oldUnits);
      && oldUnits <= d < oldUnits + g && d + n * g == currentUnits
      && Carved(Grown(list.heads, was, oldUnits, currentUnits), list.table.heap, -1, d, g, n)
    }

    /** The blocks that grow_freelist asks for. */
    method BlocksNeeded(requiredUnits: int) returns (blocks: int)
      requires Valid()
      ensures blocks == BlocksToAdd(pagesPerBlock, list.heads, mapped, requiredUnits)
    {
      hide EncodesBut, Capacity;
      MappedIsRead();
      blocks := 0;
      if requiredUnits > CurrentCapacity() {
        var unitsRequested := requiredUnits - CurrentCapacity();
        blocks := (unitsRequested + UnitsPerBlock(pagesPerBlock) - 1) / UnitsPerBlock(pagesPerBlock);
      }
    }

    /** grow_freelist: add `units` units, unless that exceeds the maximum. */
    method GrowFreelist(units: int) returns (r: Growth, ghost d: int, ghost n: nat)
      requires Valid() && (units > 0 || units == currentUnits == 0)
      modifies this, list.table
      ensures Valid() && (r.Refused? <==> units + old(currentUnits) > maxUnits)
      ensures r.Grew? <==>
        && units + old(currentUnits) <= maxUnits
        && WithinLimit(base, limit, pagesPerBlock, BlocksFor(pagesPerBlock, list.heads, units + old(currentUnits)))
      ensures !r.Grew? ==>
        Unchanged(old(currentUnits), old(list.table.entries), old(list.table.heap)) && mapped == old(mapped)
      ensures r.Grew? ==> currentUnits == units + old(currentUnits)
      ensures r.Grew? && units > 0 ==> HasGrown(old(list.table.heap), old(currentUnits), d, n)
    {
      hide EncodesBut, Carved, Capacity, UnitsPerBlock, CeilDiv, WithinLimit;
      d, n := 0, 0;
      var requiredUnits := units + currentUnits;
      if requiredUnits > maxUnits {
        r := Refused;
        return;
      }
      MappedIsRead();
      var blocks := BlocksNeeded(requiredUnits);
      GrowthReachesCapacity(pagesPerBlock, list.heads, mapped, requiredUnits);
      LimitAtHighWater(base, limit, pagesPerBlock, mapped, BlocksFor(pagesPerBlock, list.heads, requiredUnits));
      var ok;
      ok, d, n := GrowListByBlocks(blocks, requiredUnits);
      r := if ok then Grew else PastLimit;
    }

    /** alloc: an empty list has not even heads to read. */
    method Alloc(size: int) returns (unit: int)
      requires Valid() && 1 <= size
      modifies list.table
      ensures Valid()
      ensures currentUnits == 0 ==> unit == FAILURE
      ensures currentUnits > 0 ==> (unit == FAILURE <==> NoneFits(old(list.table.heap), -1, size))
      ensures unit == FAILURE ==>
        list.table.heap == old(list.table.heap) && list.table.entries == old(list.table.entries)
      ensures unit != FAILURE ==> IsFirstFit(old(list.table.heap), -1, size, unit)
      ensures unit != FAILURE ==> list.table.heap == AllocAt(old(list.table.heap), -1, unit, size)
    {
      if currentUnits == 0 {
        return FAILURE;
      }
      unit := list.AllocFirstFit(size);
    }
  }

  lemma Distribute(p: int, m: int, n: int)
    requires 0 < p && 0 < n
    ensures p * (m + n) == p * m + p * n && PagesToBytes(p) * (m + n) == PagesToBytes(p * m) + PagesToBytes(p * n)
    ensures p * n > 0
  {
  }

  lemma MulSwap(p: int, m: int)
    ensures PagesToBytes(p) * m == PagesToBytes(p * m)
  {
  }

  /** Blocks that are mapped are within the limit, so only the ones to add can pass it. */
  lemma LimitAtHighWater(base: int, limit: int, pagesPerBlock: int, mapped: int, needed: int)
    requires 0 < pagesPerBlock && base + PagesToBytes(pagesPerBlock * mapped) <= limit
    ensures WithinLimit(base, limit, pagesPerBlock, if needed > mapped then needed else mapped)
      <==> WithinLimit(base, limit, pagesPerBlock, needed)
  {
    MulSwap(pagesPerBlock, mapped);
    MulMono(needed, mapped, PagesToBytes(pagesPerBlock));
  }

  lemma EncodesSized(t: Table, hp: Heap)
    requires Encodes(t, hp)
    ensures InTable(t, hp.heads, hp.units)
  {
  }

  lemma MulDiv(p: int, m: int)
    requires 0 < p
    ensures p * m / p == m
  {
    DivBounds(p * m, p);
    MulMono(p * m / p, m, p);
    MulMono(m, p * m / p, p);
  }

  lemma PagesRead(pages: int)
    ensures BytesToPagesUp(PagesToBytes(pages)) == pages
  {
  }

  lemma RangeIsOpen(was: Heap, heads: nat, oldMax: nat, newMax: nat)
    requires oldMax < newMax && (oldMax > 0 ==> was.units == oldMax && Tiled(was.blocks, was.units))
    ensures oldMax == 0 ==> Singles(FreshHeap(heads, newMax), 0, newMax) && FreshHeap(heads, newMax).units == newMax
    ensures oldMax > 0 ==> Singles(ExtendHeap(was, newMax), oldMax, newMax) && ExtendHeap(was, newMax).units == newMax
  {
    if oldMax > 0 {
      ExtendBlocks(was, newMax);
    } else {
      FreshUnits(heads, newMax);
    }
  }

  ghost predicate CoveredFree(hp: Heap, u: int) {
    exists s :: s in hp.blocks && s <= u < s + hp.blocks[s].size && hp.blocks[s].status.FreeOn?
  }

  lemma RemainderIs(x: int, g: int, n: int, r: int)
    requires 0 <= r < g && x == r + n * g
    ensures x % g == r
  {
    DivBounds(x, g);
    MulMono(x / g, n, g);
    MulMono(n, x / g, g);
  }

  lemma {:induction false} GridCell(d: int, g: int, n: nat, u: int) returns (s: int)
    requires 0 < g && d <= u < d + n * g
    ensures s in Grid(d, g, n) && s <= u < s + g
    decreases n
  {
    if u < d + g {
      s := d;
    } else {
      assert n * g == (n - 1) * g + g;
      s := GridCell(d + g, g, n - 1, u);
    }
  }

  /** What growth starts from: the blocks that were there, and single used units behind them. */
  lemma GrownBlocks(heads: nat, was: Heap, oldMax: nat, newMax: nat)
    requires oldMax < newMax && (oldMax > 0 ==> ValidHeap(was) && was.units == oldMax)
    ensures var base := Grown(heads, was, oldMax, newMax);
      && Singles(base, oldMax, newMax)
      && (forall s :: s in base.blocks && s < oldMax ==>
        oldMax > 0 && s in was.blocks && s + was.blocks[s].size <= oldMax)
      && (forall s :: s in base.blocks && s < oldMax ==> base.blocks[s] == was.blocks[s])
      && (oldMax > 0 ==> forall s :: s in was.blocks ==> s in base.blocks && s < oldMax)
  {
    RangeIsOpen(was, heads, oldMax, newMax);
    if oldMax > 0 {
      ExtendBlocks(was, newMax);
    }
  }

  lemma GrownLists(heads: nat, was: Heap, oldMax: nat, newMax: nat)
    requires oldMax < newMax && (oldMax > 0 ==> was.units == oldMax)
    ensures var base := Grown(heads, was, oldMax, newMax);
      if oldMax > 0 then base.lists == was.lists && base.fences == was.fences
      else base.fences == {} && base.lists.Keys == Range(0 - heads, 0) && forall h :: h in base.lists ==>
        base.lists[h] == []
  {
  }

  lemma CarvedKeeps(base: Heap, hp: Heap, h: int, d: int, g: int, n: nat)
    requires Carved(base, hp, h, d, g, n)
    ensures forall s :: s in base.blocks && s < d ==> s in hp.blocks && hp.blocks[s] == base.blocks[s]
    ensures h in base.lists && hp.lists == base.lists[h := Grid(d, g, n) + base.lists[h]] && hp.fences == base.fences
    ensures base.lists[h] == [] ==> hp.lists[h] == Grid(d, g, n)
  {
    var lists := base.lists[h := Grid(d, g, n) + base.lists[h]];
    assert lists.Keys == base.lists.Keys;
    assert forall f :: f in hp.lists ==> hp.lists[f] == lists[f];
  }

  /** Growth makes every new unit free exactly when the grain divides the number of units added. */
  lemma NewUnitsFree(base: Heap, hp: Heap, oldMax: nat, newMax: nat, g: int, d: int, n: nat)
    requires 0 < g && oldMax < newMax && oldMax <= d < oldMax + g && d + n * g == newMax
    requires Carved(base, hp, -1, d, g, n) && Singles(base, oldMax, newMax)
    requires forall s :: s in base.blocks && s < oldMax ==> s + base.blocks[s].size <= oldMax
    ensures (forall u :: oldMax <= u < newMax ==> CoveredFree(hp, u)) <==> (newMax - oldMax) % g == 0
  {
    GridMembers(d, g, n);
    RemainderIs(newMax - oldMax, g, n, d - oldMax);
    if d == oldMax {
      forall u | oldMax <= u < newMax
        ensures CoveredFree(hp, u)
      {
        var s := GridCell(d, g, n, u);
        assert s in hp.blocks && hp.blocks[s] == Block(g, FreeOn(-1));
      }
    } else {
      assert oldMax in base.blocks;
      forall s | s in hp.blocks && s <= oldMax < s + hp.blocks[s].size
        ensures hp.blocks[s].status.Used?
      {
        assert s == oldMax;
      }
      assert !CoveredFree(hp, oldMax);
    }
  }

  /**
   Growth, the first included, keeps every block that was there, puts the new blocks in front of the list, and
   makes every new unit free exactly when the grain divides the number of units added.
   */
  lemma GrowthMeaning(heads: nat, was: Heap, hp: Heap, oldMax: nat, newMax: nat, g: int, d: int, n: nat)
    requires oldMax < newMax && 0 < g && 0 < heads
    requires oldMax > 0 ==> ValidHeap(was) && was.units == oldMax && -1 in was.lists
    requires oldMax <= d < oldMax + g && d + n * g == newMax
    requires Carved(Grown(heads, was, oldMax, newMax), hp, -1, d, g, n)
    ensures (forall u :: oldMax <= u < newMax ==> CoveredFree(hp, u)) <==> (newMax - oldMax) % g == 0
    ensures oldMax > 0 ==> forall s :: s in was.blocks ==> s in hp.blocks && hp.blocks[s] == was.blocks[s]
    ensures oldMax > 0 ==> hp.fences == was.fences && hp.lists == was.lists[-1 := Grid(d, g, n) + was.lists[-1]]
    ensures oldMax == 0 ==> hp.fences == {} && hp.lists.Keys == Range(0 - heads, 0)
    ensures oldMax == 0 ==> forall h :: h in hp.lists ==> hp.lists[h] == if h == -1 then Grid(d, g, n) else []
  {
    GrownBlocks(heads, was, oldMax, newMax);
    GrownLists(heads, was, oldMax, newMax);
    var base := Grown(heads, was, oldMax, newMax);
    hide Grown, ValidHeap, Singles, CoveredFree, Carved;
    NewUnitsFree(base, hp, oldMax, newMax, g, d, n);
    CarvedKeeps(base, hp, -1, d, g, n);
  }
}
