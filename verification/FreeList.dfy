/**
 The `FreeList` operations of src/util/freelist.rs on the table of
 src/util/int_array_freelist.rs.  Child lists share the table of their parent, so the table
 is an object of its own; each list adds its head.
 */
module FreeLists {
  import opened PackedWord
  import opened FreeListTable
  import opened FreeListModel
  import opened FreeListEncoding
  import opened FreeListInit

  /** The shared entry table, with the heap it stands for. */
  class EntryTable {
    var entries: Table
    ghost var heap: Heap

    constructor (length: nat)
      ensures entries == seq(length, i => ZERO)
    {
      entries := seq(length, i => ZERO);
    }
  }

  class FreeList {
    const head: int
    const heads: nat
    const table: EntryTable

    predicate IsHeadOf(h: int) {
      0 - heads <= h < 0
    }

    ghost predicate Shaped()
      reads table
    {
      heads == table.heap.heads && head in table.heap.lists
    }

    /** The table is a faithful encoding of its heap and this list's head is one of its heads. */
    ghost predicate Valid()
      reads table
    {
      Shaped() && Encodes(table.entries, table.heap)
    }

    /** new: a list over a fresh table, with all units free in blocks of `grain`. */
    constructor New(units: nat, grain: int, heads: nat)
      requires units <= MAX_UNITS && 1 <= heads <= MAX_HEADS && 1 <= grain
      ensures Valid() && head == -1 && this.heads == heads && fresh(table)
      ensures GrainHeap(table.heap, heads, -1, units, grain)
    {
      this.head := -1;
      this.heads := heads;
      this.table := new EntryTable(2 * (units + 1 + heads));
      new;
      InitializeHeap(units, grain);
    }

    /** A list over a table without entries, as a raw memory list starts out. */
    constructor Unmapped(heads: nat)
      ensures head == -1 && this.heads == heads && fresh(table) && table.entries == []
    {
      this.head := -1;
      this.heads := heads;
      this.table := new EntryTable(0);
    }

    /** from_parent: a list with another head over the same table. */
    constructor FromParent(parent: FreeList, ordinal: nat)
      requires parent.Valid() && ordinal < parent.heads
      ensures Valid() && table == parent.table && head == -(1 + ordinal) && heads == parent.heads
    {
      head := -(1 + ordinal);
      heads := parent.heads;
      table := parent.table;
      new;
      assert IsHead(table.heap, head);
    }

    // ---------- reads ----------

    function GetLoEntry(unit: int): Word
      requires InTable(table.entries, heads, unit)
      reads table
    {
      Lo(table.entries, heads, unit)
    }

    function GetHiEntry(unit: int): Word
      requires InTable(table.entries, heads, unit)
      reads table
    {
      Hi(table.entries, heads, unit)
    }

    function GetSize(unit: int): int
      requires InTable(table.entries, heads, unit) && (GetHiEntry(unit).top ==> InTable(table.entries, heads, unit + 1))
      reads table
    {
      if GetHiEntry(unit).top then GetHiEntry(unit + 1).low else 1
    }

    function GetFree(unit: int): bool
      requires InTable(table.entries, heads, unit)
      reads table
    {
      GetLoEntry(unit).top
    }

    function IsCoalescable(unit: int): bool
      requires InTable(table.entries, heads, unit)
      reads table
    {
      !GetLoEntry(unit).second
    }

    function GetNext(unit: int): int
      requires InTable(table.entries, heads, unit)
      reads table
    {
      var next := GetHiEntry(unit).low;
      if next <= MAX_UNITS then next else head
    }

    function GetPrev(unit: int): int
      requires InTable(table.entries, heads, unit)
      reads table
    {
      var prev := GetLoEntry(unit).low;
      if prev <= MAX_UNITS then prev else head
    }

    function GetLeft(unit: int): int
      requires InTable(table.entries, heads, unit - 1)
      reads table
    {
      if GetHiEntry(unit - 1).top then unit - GetHiEntry(unit - 1).low else unit - 1
    }

    // ---------- writes of one entry or one tag ----------

    method SetLoEntry(unit: int, value: Word)
      requires InTable(table.entries, heads, unit)
      modifies table`entries
      ensures table.entries == PutLo(old(table.entries), heads, unit, value)
    {
      table.entries := table.entries[2 * (unit + heads) := value];
    }

    method SetHiEntry(unit: int, value: Word)
      requires InTable(table.entries, heads, unit)
      modifies table`entries
      ensures table.entries == PutHi(old(table.entries), heads, unit, value)
    {
      table.entries := table.entries[2 * (unit + heads) + 1 := value];
    }

    method SetSentinel(unit: int)
      requires InTable(table.entries, heads, unit) && IsLink(unit)
      modifies table`entries
      ensures table.entries == FreeListTable.SetSentinel(old(table.entries), heads, unit)
    {
      SetLoEntry(unit, Word(false, false, LinkLow(unit)));
      SetHiEntry(unit, Word(false, false, LinkLow(unit)));
    }

    method SetSize(unit: int, size: int)
      requires CanSetSize(table.entries, heads, unit, size)
      modifies table`entries
      ensures table.entries == FreeListTable.SetSize(old(table.entries), heads, unit, size)
    {
      var hi := GetHiEntry(unit);
      if size > 1 {
        SetHiEntry(unit, hi.(top := true));
        SetHiEntry(unit + 1, Word(true, false, size));
        SetHiEntry(unit + size - 1, Word(true, false, size));
      } else {
        SetHiEntry(unit, hi.(top := false));
      }
    }

    method SetFree(unit: int, isFree: bool)
      requires CanSetFree(table.entries, heads, unit)
      modifies table`entries
      ensures table.entries == FreeListTable.SetFree(old(table.entries), heads, unit, isFree)
    {
      var lo := GetLoEntry(unit);
      SetLoEntry(unit, lo.(top := isFree));
      var size := GetSize(unit);
      if size > 1 {
        lo := GetLoEntry(unit + size - 1);
        SetLoEntry(unit + size - 1, lo.(top := isFree));
      }
    }

    method SetNext(unit: int, next: int)
      requires InTable(table.entries, heads, unit) && IsLink(next)
      modifies table`entries
      ensures table.entries == FreeListTable.SetNext(old(table.entries), heads, unit, next)
    {
      var oldValue := GetHiEntry(unit);
      SetHiEntry(unit, oldValue.(low := LinkLow(next)));
    }

    method SetPrev(unit: int, prev: int)
      requires InTable(table.entries, heads, unit) && IsLink(prev)
      modifies table`entries
      ensures table.entries == FreeListTable.SetPrev(old(table.entries), heads, unit, prev)
    {
      var oldValue := GetLoEntry(unit);
      SetLoEntry(unit, oldValue.(low := LinkLow(prev)));
    }

    // ---------- list surgery ----------

    /** Put a block that is on no list at the front of this list. */
    method AddToFree(unit: int, ghost skip: set<int>)
      requires Shaped() && EncodesBut(table.entries, table.heap, skip)
      requires unit in table.heap.blocks && table.heap.blocks[unit].status.Used?
      modifies table
      ensures |table.entries| == old(|table.entries|)
      ensures Shaped() && table.heap == Enlist(old(table.heap), head, unit)
      ensures EncodesBut(table.entries, table.heap, skip - {unit})
    {
      hide EncodesBut, PutLo, LinkFirst;
      AddToFreeEncodes(table.entries, table.heap, skip, head, unit);
      SetFree(unit, true);
      LinkAtFront(unit);
      table.heap := Enlist(table.heap, head, unit);
    }

    method LinkAtFront(unit: int)
      requires CanLinkFirst(table.entries, heads, head, unit)
      modifies table`entries
      ensures table.entries == LinkFirst(old(table.entries), heads, head, unit)
    {
      var next := GetNext(head);
      SetNext(unit, next);
      SetNext(head, unit);
      SetPrev(unit, head);
      SetPrev(next, unit);
    }

    /** __remove_from_free: take a block off this list; its free flags stay as they were. */
    method RemoveFromFree(unit: int, ghost skip: set<int>)
      requires Shaped() && EncodesBut(table.entries, table.heap, skip)
      requires unit in table.heap.lists[head] && unit in table.heap.blocks && unit in skip
      modifies table
      ensures |table.entries| == old(|table.entries|)
      ensures Shaped() && table.heap == Delist(old(table.heap), head, unit)
      ensures EncodesBut(table.entries, table.heap, skip) && SameFlags(old(table.entries), table.entries, heads)
    {
      hide EncodesBut, PutLo, PutHi;
      EncodesValid(table.entries, table.heap, skip);
      UnlinkEncodes(table.entries, table.heap, skip, head, unit);
      UnlinkAt(table.entries, heads, head, unit);
      var next := GetNext(unit);
      var prev := GetPrev(unit);
      SetNext(prev, next);
      SetPrev(next, prev);
      table.heap := Delist(table.heap, head, unit);
    }

    // ---------- allocation ----------

    method Split(unit: int, size: int)
      requires Valid() && CanAlloc(table.heap, head, unit, size) && size < table.heap.blocks[unit].size
      modifies table
      ensures |table.entries| == old(|table.entries|)
      ensures Shaped() && table.heap == CutOff(old(table.heap), head, unit, size)
      ensures EncodesBut(table.entries, table.heap, {unit})
    {
      hide EncodesBut, Enlist;
      ghost var skip := {unit, unit + size};
      Skip(table.entries, table.heap, {}, skip);
      SplitValid(table.heap, unit, size);
      CutInTwo(unit, size, skip);
      AddToFree(unit + size, skip);
      assert skip - {unit + size} == {unit};
    }

    /** __split up to its add_to_free. */
    method CutInTwo(unit: int, size: int, ghost skip: set<int>)
      requires Shaped() && EncodesBut(table.entries, table.heap, skip) && {unit, unit + size} <= skip
      requires unit in table.heap.blocks && 0 < size < table.heap.blocks[unit].size
      modifies table
      ensures |table.entries| == old(|table.entries|)
      ensures Shaped() && table.heap == SplitBlock(old(table.heap), unit, size)
      ensures EncodesBut(table.entries, table.heap, skip)
    {
      hide EncodesBut, PutHi;
      SizeIsRead(table.entries, table.heap, skip, unit);
      SplitEncodes(table.entries, table.heap, skip, unit, size);
      var baseSize := GetSize(unit);
      SetSize(unit, size);
      SetSize(unit + size, baseSize - size);
      table.heap := SplitBlock(table.heap, unit, size);
    }

    /** The last two steps of __alloc: the block at `unit` leaves the list and becomes used. */
    method Take(unit: int)
      requires Shaped() && EncodesBut(table.entries, table.heap, {unit}) && unit in table.heap.lists[head]
      modifies table
      ensures |table.entries| == old(|table.entries|)
      ensures Valid() && table.heap == Delist(old(table.heap), head, unit)
    {
      hide EncodesBut, PutLo;
      EncodesValid(table.entries, table.heap, {unit});
      RemoveFromFree(unit, {unit});
      SetFreeEncodes(table.entries, table.heap, {unit}, unit, false);
      SetFree(unit, false);
      assert {unit} + {unit} == {} + {unit};
      Unskip(table.entries, table.heap, {}, unit);
    }

    /** __alloc: take `size` units from the free block at `unit`, whose size is `unitSize`. */
    method AllocAtUnit(size: int, unit: int, unitSize: int) returns (r: int)
      requires Valid() && CanAlloc(table.heap, head, unit, size) && unitSize == table.heap.blocks[unit].size
      modifies table
      ensures |table.entries| == old(|table.entries|)
      ensures Valid() && r == unit && table.heap == AllocAt(old(table.heap), head, unit, size)
    {
      if unitSize > size {
        Split(unit, size);
      } else {
        Skip(table.entries, table.heap, {}, {unit});
      }
      Take(unit);
      r := unit;
    }

    /** alloc_first_fit: the earliest list entry that fits. */
    method AllocFirstFit(size: int) returns (unit: int)
      requires Valid() && 1 <= size
      modifies table
      ensures |table.entries| == old(|table.entries|)
      ensures Valid()
      ensures unit == FAILURE <==> NoneFits(old(table.heap), head, size)
      ensures unit == FAILURE ==> table.heap == old(table.heap) && table.entries == old(table.entries)
      ensures unit != FAILURE ==> IsFirstFit(old(table.heap), head, size, unit)
      ensures unit != FAILURE ==> table.heap == AllocAt(old(table.heap), head, unit, size)
    {
      hide EncodesBut;
      EncodesValid(table.entries, table.heap, {});
      ghost var order := table.heap.lists[head];
      ghost var i := 0;
      RingOf(table.entries, table.heap, {}, head);
      unit := head;
      var s := 0;
      var searching := true;
      while searching
        invariant table.entries == old(table.entries) && table.heap == old(table.heap)
        invariant 0 <= i <= |order| + 1 && unit == Node(head, order, i)
        invariant searching ==> i <= |order|
        invariant !searching ==>
          && i > 0
          && (unit == head || (i <= |order| && unit in table.heap.blocks && s == table.heap.blocks[unit].size >= size))
        invariant forall j :: 0 <= j < i - 1 ==> !Fits(table.heap, order[j], size)
        invariant searching && i > 0 ==> !Fits(table.heap, order[i - 1], size)
        decreases |order| + 1 - i, searching
      {
        ReadRing(table.entries, heads, head, order, i);
        unit := GetNext(unit);
        i := i + 1;
        NodeCase(table.heap, head, i);
        if unit != head {
          SizeIsRead(table.entries, table.heap, {}, unit);
          s := GetSize(unit);
          searching := s < size;
        } else {
          searching := false;
        }
      }
      NodeCase(table.heap, head, i);
      if unit == head {
        unit := FAILURE;
      } else {
        assert FirstFitAt(table.heap, head, size, i - 1);
        unit := AllocAtUnit(size, unit, s);
      }
    }

    /** alloc_best_fit: a smallest list entry that fits; an exact one ends the search. */
    method AllocBestFit(size: int) returns (unit: int)
      requires Valid() && 1 <= size
      modifies table
      ensures |table.entries| == old(|table.entries|)
      ensures Valid()
      ensures unit == FAILURE <==> NoneFits(old(table.heap), head, size)
      ensures unit == FAILURE ==> table.heap == old(table.heap) && table.entries == old(table.entries)
      ensures unit != FAILURE ==> IsBestFit(old(table.heap), head, size, unit)
      ensures unit != FAILURE ==> table.heap == AllocAt(old(table.heap), head, unit, size)
    {
      hide EncodesBut;
      EncodesValid(table.entries, table.heap, {});
      ghost var order := table.heap.lists[head];
      ghost var i := 0;
      RingOf(table.entries, table.heap, {}, head);
      unit := head;
      var bestSize := I32_MAX;
      var bestUnit := I32_MAX;
      var searching := true;
      while searching
        invariant table.entries == old(table.entries) && table.heap == old(table.heap)
        invariant 0 <= i <= |order| + 1 && unit == Node(head, order, i)
        invariant searching ==> i <= |order|
        invariant BestAmong(table.heap, head, size, i, bestSize, bestUnit)
        invariant !searching ==> i == |order| + 1 || bestSize == size
        decreases |order| + 1 - i, searching
      {
        ReadRing(table.entries, heads, head, order, i);
        unit := GetNext(unit);
        i := i + 1;
        NodeCase(table.heap, head, i);
        if unit != head {
          SizeIsRead(table.entries, table.heap, {}, unit);
          var s := GetSize(unit);
          BestStep(table.heap, head, size, i, bestSize, bestUnit);
          if s >= size && s < bestSize {
            bestSize := s;
            bestUnit := unit;
            if s == size {
              searching := false;
            }
          }
        } else {
          searching := false;
        }
      }
      if bestSize == I32_MAX {
        unit := FAILURE;
      } else {
        BestIsBest(table.heap, head, size, i, bestSize, bestUnit);
        unit := AllocAtUnit(size, bestUnit, bestSize);
      }
    }

    /** alloc_from_unit: allocate from a given block, if it is free and large enough. */
    method AllocFromUnit(size: int, unit: int) returns (r: int)
      requires Valid() && 1 <= size && unit in table.heap.blocks
      requires table.heap.blocks[unit].status.FreeOn? ==> table.heap.blocks[unit].status.head == head
      modifies table
      ensures |table.entries| == old(|table.entries|)
      ensures Valid()
      ensures r == if CanAlloc(old(table.heap), head, unit, size) then unit else FAILURE
      ensures r == FAILURE ==> table.heap == old(table.heap) && table.entries == old(table.entries)
      ensures r != FAILURE ==> table.heap == AllocAt(old(table.heap), head, unit, size)
    {
      SizeIsRead(table.entries, table.heap, {}, unit);
      FlagIsRead(table.entries, table.heap, {}, unit);
      if GetFree(unit) {
        var s := GetSize(unit);
        if s >= size {
          r := AllocAtUnit(size, unit, s);
          return;
        }
      }
      r := FAILURE;
    }

    // ---------- release ----------

    /** What free reads to the left and right of `unit` is what lies there. */
    lemma NeighboursAreRead(unit: int)
      requires Valid() && unit in table.heap.blocks
      ensures InTable(table.entries, heads, unit) && InTable(table.entries, heads, unit - 1)
      ensures InTable(table.entries, heads, GetLeft(unit))
      ensures IsCoalescable(unit) && GetFree(GetLeft(unit)) <==> MergesLeft(table.heap, unit)
      ensures MergesLeft(table.heap, unit) ==> GetLeft(unit) == LeftOf(table.heap.blocks, table.heap.units, unit)
      ensures InTable(table.entries, heads, EndOf(table.heap.blocks, unit))
      ensures var right := EndOf(table.heap.blocks, unit);
        IsCoalescable(right) && GetFree(right) <==> MergesRight(table.heap, unit)
    {
      LeftIsRead(table.entries, table.heap, unit);
      RightIsRead(table.entries, table.heap, unit);
    }

    /** `start` and `end` are the first and last of the blocks that releasing `unit` merges. */
    ghost predicate Merging(hp: Heap, unit: int, start: int, end: int) {
      && CanFree(hp, head, unit) && start == MergeStart(hp, unit)
      && end == if MergesRight(hp, unit) then EndOf(hp.blocks, unit) else unit
    }

    /** The first half of __coalesce: free blocks at the two ends leave the list. */
    method Loosen(start: int, end: int, ghost unit: int)
      requires Valid() && Merging(table.heap, unit, start, end) && start != end
      modifies table
      ensures |table.entries| == old(|table.entries|)
      ensures Shaped() && EncodesBut(table.entries, table.heap, {start, end})
      ensures table.heap == Loosened(old(table.heap), head, unit)
    {
      hide EncodesBut, ValidHeap, EndOf;
      ghost var was, skip := table.heap, {start, end};
      EncodesValid(table.entries, was, {});
      EndsOfMerge(was, head, unit);
      FlagIsRead(table.entries, was, {}, end);
      FlagIsRead(table.entries, was, {}, start);
      Skip(table.entries, was, {}, skip);
      if GetFree(end) {
        RemoveFromFree(end, skip);
      }
      assert table.heap == DelistIf(was, head, MergesRight(was, unit), EndOf(was.blocks, unit));
      if GetFree(start) {
        RemoveFromFree(start, skip);
      }
    }

    /** __coalesce: the blocks from `start` to `end` become one used block. */
    method Coalesce(start: int, end: int, ghost unit: int)
      requires Valid() && Merging(table.heap, unit, start, end) && start != end
      modifies table
      ensures |table.entries| == old(|table.entries|)
      ensures Shaped() && EncodesBut(table.entries, table.heap, {start})
      ensures var was := old(table.heap);
        table.heap == JoinBlocks(Loosened(was, head, unit), start, MergeEnd(was, unit) - start)
    {
      hide EncodesBut, ValidHeap, PutHi, Loosened, JoinBlocks, JoinsCleanly;
      ghost var was, skip := table.heap, {start, end};
      ghost var total := MergeEnd(was, unit) - start;
      EncodesValid(table.entries, was, {});
      EndsOfMerge(was, head, unit);
      LoosenedSize(was, head, unit, end);
      LoosenedJoins(was, head, unit);
      Loosen(start, end, unit);
      SizeIsRead(table.entries, table.heap, skip, end);
      var size := GetSize(end);
      assert end - start + size == total;
      JoinEncodes(table.entries, table.heap, skip, start, total);
      JoinDrops(table.heap, start, total, end);
      SetSize(start, end - start + size);
      table.heap := JoinBlocks(table.heap, start, total);
      DropSkip(table.entries, table.heap, skip, {start});
    }

    /** free: release the used block at `unit`, merging it with free neighbours where that is allowed. */
    method Free(unit: int, returnCoalescedSize: bool) returns (freed: int)
      requires Valid() && CanFree(table.heap, head, unit)
      modifies table
      ensures |table.entries| == old(|table.entries|)
      ensures Valid() && table.heap == FreeAt(old(table.heap), head, unit)
      ensures freed == if returnCoalescedSize then MergeEnd(old(table.heap), unit) - MergeStart(old(table.heap), unit)
                       else old(table.heap).blocks[unit].size
    {
      hide EncodesBut, ValidHeap, MergesLeft, MergesRight, Loosened, JoinBlocks, Enlist;
      ghost var was := table.heap;
      EncodesValid(table.entries, was, {});
      SizeIsRead(table.entries, was, {}, unit);
      NeighboursAreRead(unit);
      EndsOfMerge(was, head, unit);
      freed := GetSize(unit);
      var left := GetLeft(unit);
      var start := if IsCoalescable(unit) && GetFree(left) then left else unit;
      var right := unit + GetSize(unit);
      var end := if IsCoalescable(right) && GetFree(right) then right else unit;
      ghost var joined := JoinBlocks(Loosened(was, head, unit), start, MergeEnd(was, unit) - start);
      LoosenedJoins(was, head, unit);
      JoinMeaning(Loosened(was, head, unit), start, MergeEnd(was, unit) - start);
      if start != end {
        Coalesce(start, end, unit);
      } else {
        NothingToJoin(was, head, unit);
        Skip(table.entries, table.heap, {}, {start});
      }
      if returnCoalescedSize {
        SizeIsRead(table.entries, joined, {start}, start);
        freed := GetSize(start);
      }
      AddToFree(start, {start});
      assert {start} - {start} == {};
    }

    // ---------- set-up ----------

    method SetUncoalescable(unit: int)
      requires Valid() && 0 <= unit <= table.heap.units
      modifies table
      ensures |table.entries| == old(|table.entries|)
      ensures Valid() && table.heap == old(table.heap).(fences := old(table.heap).fences + {unit})
    {
      SetFenceEncodes(table.entries, table.heap, unit, true);
      var lo := GetLoEntry(unit);
      SetLoEntry(unit, lo.(second := true));
      table.heap := table.heap.(fences := table.heap.fences + {unit});
    }

    method ClearUncoalescable(unit: int)
      requires Valid() && 0 <= unit <= table.heap.units
      modifies table
      ensures |table.entries| == old(|table.entries|)
      ensures Valid() && table.heap == old(table.heap).(fences := old(table.heap).fences - {unit})
    {
      SetFenceEncodes(table.entries, table.heap, unit, false);
      var lo := GetLoEntry(unit);
      SetLoEntry(unit, lo.(second := false));
      table.heap := table.heap.(fences := table.heap.fences - {unit});
    }

    /** Make the used units from `cursor` on one free block: set_size, then add_to_free. */
    method AddBlock(cursor: int, size: int)
      requires Valid() && JoinsCleanly(table.heap, cursor, size)
      modifies table
      ensures |table.entries| == old(|table.entries|)
      ensures Valid() && table.heap == Enlist(JoinBlocks(old(table.heap), cursor, size), head, cursor)
    {
      hide EncodesBut, ValidHeap, PutHi, Enlist;
      EncodesValid(table.entries, table.heap, {});
      Skip(table.entries, table.heap, {}, {cursor});
      JoinEncodes(table.entries, table.heap, {cursor}, cursor, size);
      JoinMeaning(table.heap, cursor, size);
      SetSize(cursor, size);
      table.heap := JoinBlocks(table.heap, cursor, size);
      AddToFree(cursor, {cursor});
      assert {cursor} - {cursor} == {};
    }

    /** The sentinel loop of initialize_heap: one empty ring per head. */
    method SetHeadSentinels()
      requires heads <= MAX_HEADS && 2 * heads <= |table.entries|
      modifies table`entries
      ensures |table.entries| == old(|table.entries|)
      ensures forall u {:trigger Lo(table.entries, heads, u)} {:trigger Hi(table.entries, heads, u)} ::
        InTable(table.entries, heads, u) ==>
          if u < 0 then
            Lo(table.entries, heads, u) == Hi(table.entries, heads, u) == Word(false, false, LinkLow(u))
          else
            && Lo(table.entries, heads, u) == old(Lo(table.entries, heads, u))
            && Hi(table.entries, heads, u) == old(Hi(table.entries, heads, u))
    {
      var i := 1;
      while i <= heads
        invariant 1 <= i <= heads + 1 && |table.entries| == old(|table.entries|)
        invariant forall u {:trigger Lo(table.entries, heads, u)} {:trigger Hi(table.entries, heads, u)} ::
          InTable(table.entries, heads, u) ==>
            if -i < u < 0 then
              Lo(table.entries, heads, u) == Hi(table.entries, heads, u) == Word(false, false, LinkLow(u))
            else
              && Lo(table.entries, heads, u) == old(Lo(table.entries, heads, u))
              && Hi(table.entries, heads, u) == old(Hi(table.entries, heads, u))
      {
        SetSentinel(-i);
        i := i + 1;
      }
    }

    /** initialize_heap on a zeroed table. */
    method InitializeHeap(units: nat, grain: int)
      requires units <= MAX_UNITS && 1 <= heads <= MAX_HEADS && 1 <= grain && IsHeadOf(head)
      requires table.entries == seq(2 * (units + 1 + heads), i => ZERO)
      modifies table
      ensures |table.entries| == old(|table.entries|)
      ensures Valid() && GrainHeap(table.heap, heads, head, units, grain)
    {
      SetHeadSentinels();
      SetSentinel(units);
      FreshEncodes(table.entries, heads, units);
      table.heap := FreshHeap(heads, units);
      CarveAll(units, grain);
    }

    /** The second half of initialize_heap: every unit goes onto this list. */
    method CarveAll(units: nat, grain: int)
      requires Valid() && table.heap == FreshHeap(heads, units) && 1 <= grain && IsHeadOf(head)
      modifies table
      ensures |table.entries| == old(|table.entries|)
      ensures Valid() && GrainHeap(table.heap, heads, head, units, grain)
    {
      hide EncodesBut, FreshHeap, Carved, GrainHeap;
      EncodesValid(table.entries, table.heap, {});
      FreshUnits(heads, units);
      var offset := units % grain;
      var cursor := units - offset;
      CarveNone(table.heap, head, units, offset);
      if offset > 0 {
        CarveStep(table.heap, table.heap, head, units, offset, 0);
        AddBlock(cursor, offset);
      }
      ghost var top := table.heap;
      TopSingles(top, heads, head, units, offset);
      cursor := cursor - grain;
      ghost var d, n := CarveGrains(cursor, 0, grain);
      AllCarved(top, table.heap, heads, head, units, grain, d, n);
    }

    /** The loop that carves blocks of `grain` units from `start` down as far as they fit above `bottom`. */
    method CarveGrains(start: int, bottom: int, grain: int) returns (ghost d: int, ghost n: nat)
      requires Valid() && 1 <= grain && Singles(table.heap, bottom, start + grain) && bottom <= start + grain
      requires start + grain == table.heap.units || start + grain in table.heap.blocks
      modifies table
      ensures |table.entries| == old(|table.entries|)
      ensures Valid() && Carved(old(table.heap), table.heap, head, d, grain, n)
      ensures bottom <= d < bottom + grain && d + n * grain == start + grain
    {
      hide EncodesBut, Enlist, JoinBlocks, Carved;
      ghost var base := table.heap;
      n := 0;
      var cursor := start;
      CarveNone(base, head, cursor + grain, grain);
      while cursor >= bottom
        invariant Valid() && Carved(base, table.heap, head, cursor + grain, grain, n)
        invariant table.heap.units == base.units && |table.entries| == old(|table.entries|)
        invariant cursor + grain + n * grain == start + grain && bottom <= cursor + grain
        invariant cursor + grain == table.heap.units || cursor + grain in table.heap.blocks
      {
        EncodesValid(table.entries, table.heap, {});
        CarveStep(base, table.heap, head, cursor + grain, grain, n);
        AddBlock(cursor, grain);
        CarvedUnits(base, table.heap, head, cursor, grain, n + 1);
        assert (n + 1) * grain == n * grain + grain;
        cursor := cursor - grain;
        n := n + 1;
      }
      d := cursor + grain;
    }
  }
}
