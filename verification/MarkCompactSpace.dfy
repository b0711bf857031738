/**
 The space of src/policy/markcompactspace.rs and the linear scan of src/util/linear_scan.rs:
 computing forwarding pointers, then moving every live object in place.
 */
module MarkCompactSpaces {
  import opened Wrappers
  import opened Compaction

  class MarkCompactSpace {
    const config: Config
    const regions: seq<Region>
    var mem: Memory
    var vo: set<int>
    var marks: set<int>

    function CurrentSize(obj: int): int
      reads this
    {
      match Load(mem, obj)
      case Head(size, _, _) => size
      case _ => 1
    }

    function AlignWhenCopied(obj: int): int
      reads this
    {
      match Load(mem, obj)
      case Head(_, align, _) => align
      case _ => 1
    }

    function OffsetWhenCopied(obj: int): int
      reads this
    {
      match Load(mem, obj)
      case Head(_, _, offset) => offset
      case _ => 0
    }

    ghost predicate Laid(objs: seq<Obj>)
      reads this
    {
      Compaction.Laid(config, regions, mem, vo, objs)
    }

    ghost predicate Forwarded(objs: seq<Obj>, slots: seq<Obj>)
      reads this
    {
      Compaction.Forwarded(config, mem, marks, objs, Live(objs, marks), slots)
    }

    method StoreHeaderForwardingPointer(obj: int, target: int)
      modifies this`mem
      ensures mem == old(mem)[obj - config.word := Ref(target)]
    {
      mem := mem[obj - config.word := Ref(target)];
    }

    // ---------- calculate_forwarding_pointer ----------

    /** The first `k` objects have been dealt with; the next slot goes to `to` of region `r` or later. */
    ghost predicate Calculated(objs: seq<Obj>, k: int, slots: seq<Obj>, r: int, to: int, toEnd: int)
      reads this
    {
      && 0 <= k <= |objs| && Laid(objs) && AllClear(config, mem, objs, k)
      && Placed(config, regions, Live(objs[..k], marks), slots) && Forwarded(objs[..k], slots)
      && 0 <= r < |regions| && toEnd == regions[r].end && SlotsBefore(slots, r, to)
      && Slid(config, regions, slots) && CursorOf(regions, slots, |slots|) == (r, to)
    }

    /** Where the next slot goes: at the cursor if it fits, else at the start of the next region. */
    method NextSlot(size: int, align: int, offset: int, r: int, to: int, end: int, ghost objs: seq<Obj>, ghost k: int)
      returns (r': int, to': int, end': int)
      requires ValidConfig(config) && WellLaid(config, regions, objs) && RoomInEarlierRegions(config, regions, objs)
      requires 0 <= k < |objs| && objs[k].size == size && objs[k].align == align && objs[k].offset == offset
      requires 0 <= objs[k].region < |regions| && TargetBehind(regions, objs, k, objs[k].region, r, to)
      requires end == regions[r].end
      ensures r <= r' <= objs[k].region && end' == regions[r'].end && (r' == r ==> to <= to')
      ensures InRegion(config, regions, objs[k].(addr := to' + config.header, region := r'))
      ensures FirstFit(config, regions, objs[k].(addr := to' + config.header, region := r'), r, to)
      ensures r' == objs[k].region ==> to' + config.header <= objs[k].addr
    {
      assert InRegion(config, regions, objs[k]);
      r', end' := r, end;
      AlignUpLeast(to, align, offset);
      if r == objs[k].region {
        FitsInOwnRegion(config, regions, objs, k, r, to);
      }
      to' := AlignUp(to, align, offset);
      if to' + (size + config.header) > end {
        r' := r + 1;
        to', end' := regions[r'].start, regions[r'].end;
        AlignUpLeast(to', align, offset);
        if r' == objs[k].region {
          FitsInOwnRegion(config, regions, objs, k, r', to');
        }
        to' := AlignUp(to', align, offset);
        assert to' + (size + config.header) <= end';
      }
    }

    /** The body of the inner loop for a marked object. */
    method PlaceObject(obj: int, r: int, to: int, end: int, ghost objs: seq<Obj>, ghost k: int, ghost slots: seq<Obj>)
      returns (r': int, to': int, end': int, ghost slots': seq<Obj>)
      requires Calculated(objs, k, slots, r, to, end) && RoomInEarlierRegions(config, regions, objs)
      requires k < |objs| && obj == objs[k].addr && obj in marks
      requires 0 <= objs[k].region < |regions| && TargetBehind(regions, objs, k, objs[k].region, r, to)
      modifies this`mem
      ensures Calculated(objs, k + 1, slots', r', to', end')
      ensures TargetBehind(regions, objs, k + 1, objs[k].region, r', to')
      ensures SameBodies(old(mem), mem, objs)
    {
      hide WellLaid, Holds, ValidRegions, Compaction.Forwarded, AllClear, Placed, SlotFor, RoomInEarlierRegions, Slid,
        FirstFit;
      ghost var f := objs[k].region;
      ObjectIsRead(config, regions, mem, vo, objs, k);
      var size := CurrentSize(obj);
      r', to', end' := NextSlot(size, AlignWhenCopied(obj), OffsetWhenCopied(obj), r, to, end, objs, k);
      var newObj := to' + config.header;
      ghost var slot := objs[k].(addr := newObj, region := r');
      NewSlot(config, regions, Live(objs[..k], marks), slots, objs[k], slot, r, to);
      SlideOne(config, regions, slots, slot, r, to);
      LiveStep(objs, marks, k);
      StoreForwards(config, regions, mem, vo, marks, objs, k, slots, slot);
      StoreKeepsLaid(config, regions, mem, vo, objs, k, newObj);
      StoreKeepsBodies(config, regions, mem, objs, k, newObj);
      StoreHeaderForwardingPointer(obj, newObj);
      slots' := slots + [slot];
      to' := newObj + size;
    }

    /** The inner loop: all objects of region `f`. */
    method CalculateRegion(f: int, r0: int, to0: int, end0: int, ghost objs: seq<Obj>, ghost k0: int,
                           ghost slots0: seq<Obj>)
      returns (r: int, to: int, end: int, ghost k: int, ghost slots: seq<Obj>)
      requires 0 <= f < |regions| && RoomInEarlierRegions(config, regions, objs)
      requires Calculated(objs, k0, slots0, r0, to0, end0) && TargetBehind(regions, objs, k0, f, r0, to0)
      requires ScanAt(objs, k0, f, regions[f].start)
      modifies this`mem
      ensures Calculated(objs, k, slots, r, to, end) && TargetBehind(regions, objs, k, f, r, to)
      ensures SameBodies(old(mem), mem, objs)
      ensures if f + 1 < |regions| then ScanAt(objs, k, f + 1, regions[f + 1].start) else k == |objs|
    {
      hide WellLaid, Holds, ValidRegions, Compaction.Forwarded, AllClear, Placed, RoomInEarlierRegions, TargetBehind,
        ScanAt, BitsAhead;
      r, to, end, k, slots := r0, to0, end0, k0, slots0;
      var it := new ObjectIterator(this, regions[f].start, regions[f].end);
      var more := true;
      while more
        invariant Calculated(objs, k, slots, r, to, end) && TargetBehind(regions, objs, k, f, r, to)
        invariant it.space == this && it.end == regions[f].end && regions[f].start <= it.cursor
        invariant more ==> ScanAt(objs, k, f, it.cursor)
        invariant !more ==> if f + 1 < |regions| then ScanAt(objs, k, f + 1, regions[f + 1].start) else k == |objs|
        invariant vo == old(vo) && marks == old(marks) && SameBodies(old(mem), mem, objs)
        decreases more, it.end - it.cursor
      {
        ghost var cursor := it.cursor;
        LaidBitsAhead(config, regions, mem, vo, objs, k, f, cursor);
        HeldAhead(mem, vo, objs, k);
        AheadHasSize(config, regions, mem, vo, objs, k, cursor, it.end);
        var found := it.Next();
        match found
        case None =>
          FindsNone(config, regions, objs, k, f, cursor, vo);
          more := false;
        case Some(obj) =>
          FindsNext(config, regions, objs, k, f, cursor, vo, obj);
          ObjectIsRead(config, regions, mem, vo, objs, k);
          if obj in marks {
            r, to, end, slots := PlaceObject(obj, r, to, end, objs, k, slots);
          } else {
            SkipForwards(config, mem, marks, objs, k, slots);
            TargetSkips(config, regions, objs, k, f, r, to);
          }
          k := k + 1;
      }
    }

    /**
     calculate_forwarding_pointer: give every marked object the next place that fits, region by
     region, and store its address in the object's header word.
     */
    method CalculateForwardingPointer(ghost objs: seq<Obj>) returns (ghost slots: seq<Obj>)
      requires Laid(objs) && RoomInEarlierRegions(config, regions, objs) && AllClear(config, mem, objs, 0)
      modifies this`mem
      ensures Laid(objs) && Placed(config, regions, Live(objs, marks), slots) && Forwarded(objs, slots)
      ensures Slid(config, regions, slots)
      ensures SameBodies(old(mem), mem, objs)
    {
      hide WellLaid, Holds, ValidRegions, RoomInEarlierRegions, ScanAt;
      ScanStart(config, regions, objs);
      PlacedNone(config, regions, marks, objs);
      slots := [];
      if |regions| == 0 {
        return;
      }
      var r, to, end := 0, regions[0].start, regions[0].end;
      ghost var k := 0;
      var f := 0;
      while f < |regions|
        invariant 0 <= f <= |regions| && Calculated(objs, k, slots, r, to, end)
        invariant if f < |regions| then
            ScanAt(objs, k, f, regions[f].start) && TargetBehind(regions, objs, k, f, r, to)
          else k == |objs|
        invariant vo == old(vo) && marks == old(marks) && SameBodies(old(mem), mem, objs)
      {
        r, to, end, k, slots := CalculateRegion(f, r, to, end, objs, k, slots);
        if f + 1 < |regions| {
          TargetNextRegion(regions, objs, k, f, r, to);
        }
        f := f + 1;
      }
      assert objs[..k] == objs;
    }

    // ---------- compact ----------

    method ClearHeaderForwardingPointer(obj: int)
      requires 0 <= config.word
      modifies this`mem
      ensures forall x :: Load(mem, x) == if obj - config.word <= x < obj then Zero else old(Load(mem, x))
    {
      var i := 0;
      while i < config.word
        invariant 0 <= i <= config.word
        invariant forall x ::
          Load(mem, x) == if obj - config.word <= x < obj - config.word + i then Zero else old(Load(mem, x))
      {
        ghost var was := mem;
        mem := mem[obj - config.word + i := Zero];
        assert forall x {:trigger Load(mem, x)} ::
          Load(mem, x) == if x == obj - config.word + i then Zero else Load(was, x);
        i := i + 1;
      }
    }

    /** copy_to: the binding moves the cells in ascending order, which is safe for a target at or below the source. */
    method CopyTo(from: int, to: int, size: int)
      requires 0 <= size && (to <= from || from + size <= to)
      modifies this`mem
      ensures forall x ::
        Load(mem, x) == if to <= x < to + size then old(Load(mem, x - to + from)) else old(Load(mem, x))
    {
      var i := 0;
      while i < size
        invariant 0 <= i <= size
        invariant forall x ::
          Load(mem, x) == if to <= x < to + i then old(Load(mem, x - to + from)) else old(Load(mem, x))
      {
        ghost var was := mem;
        mem := mem[to + i := Load(mem, from + i)];
        assert forall x {:trigger Load(mem, x)} ::
          Load(mem, x) == if x == to + i then Load(was, from + i) else Load(was, x);
        i := i + 1;
      }
    }

    /** Clear the header word of the target, then copy the body. */
    method MoveObject(obj: int, newObj: int, ghost o: Obj, ghost slot: Obj)
      requires ValidConfig(config) && ValidRegions(regions) && SlotFor(slot, o) && InRegion(config, regions, o)
      requires InRegion(config, regions, slot)
      requires obj == o.addr && newObj == slot.addr && Load(mem, obj) == Head(o.size, o.align, o.offset)
      modifies this`mem
      ensures CopiedTo(config, old(mem), mem, o, slot)
    {
      var size := CurrentSize(obj);
      ghost var mem0 := mem;
      ClearHeaderForwardingPointer(newObj);
      ghost var mem1 := mem;
      CopyTo(obj, newObj, size);
      forall x | InBody(slot, x)
        ensures Load(mem, x) == Load(mem0, x - slot.addr + o.addr)
      {
        assert Load(mem1, x - slot.addr + o.addr) == Load(mem0, x - slot.addr + o.addr);
      }
    }

    /** The first `k` objects have been visited; `mem0` is the memory that compaction started from. */
    ghost predicate Visited(mem0: Memory, vo0: set<int>, objs: seq<Obj>, alive: set<int>, slots: seq<Obj>, k: int)
      reads this
    {
      && 0 <= k <= |objs| && Compaction.Laid(config, regions, mem0, vo0, objs) &&
        Placed(config, regions, Live(objs, alive), slots)
      && Compaction.Forwarded(config, mem0, alive, objs, Live(objs, alive), slots)
      && Moved(config, mem0, mem, objs, alive, slots, k) && MovedBits(vo, objs, slots, |Live(objs[..k], alive)|, k)
    }

    /** The body of the inner loop; returns the end of the moved object, if it is alive. */
    method VisitObject(obj: int, to: int, ghost mem0: Memory, ghost vo0: set<int>, ghost objs: seq<Obj>,
                       ghost alive: set<int>, ghost slots: seq<Obj>, ghost k: int)
      returns (to': int)
      requires Visited(mem0, vo0, objs, alive, slots, k) && k < |objs| && obj == objs[k].addr
      modifies this`mem, this`vo
      ensures Visited(mem0, vo0, objs, alive, slots, k + 1)
      ensures var j := |Live(objs[..k + 1], alive)|;
        to' == if obj in alive && 0 < j <= |slots| then slots[j - 1].addr + slots[j - 1].size else to
    {
      hide WellLaid, Holds, ValidRegions, Compaction.Forwarded, Placed, Moved, MovedBits, Live, CopiedTo, SlotFor,
        InRegion;
      to' := to;
      ObjectIsRead(config, regions, mem0, vo0, objs, k);
      UnvisitedIsIntact(config, regions, mem0, mem, objs, alive, slots, k);
      HeaderIsRead(config, regions, mem0, objs, alive, slots, k);
      BitsStep(config, regions, vo, objs, alive, slots, k);
      LiveStep(objs, alive, k);
      var copiedSize := CurrentSize(obj);
      vo := vo - {obj};
      match Load(mem, obj - config.word)
      case Ref(newObj) =>
        NextSlotIs(config, regions, objs, alive, slots, k);
        ghost var j := |Live(objs[..k], alive)|;
        PlacedAt(config, regions, Live(objs, alive), slots, j);
        ghost var was := mem;
        MoveObject(obj, newObj, objs[k], slots[j]);
        MoveStep(config, regions, mem0, was, mem, objs, alive, slots, k);
        SetBit(vo, objs, slots, j, k + 1);
        vo := vo + {newObj};
        to' := newObj + copiedSize;
        SlotSize(slots[j], objs[k]);
      case _ =>
        MoveSkips(config, mem0, mem, objs, alive, slots, k);
    }

    /** The inner loop: all objects of region `f`, found by VO bits that change on the way. */
    method CompactRegion(f: int, to0: int, ghost mem0: Memory, ghost vo0: set<int>, ghost objs: seq<Obj>,
                         ghost alive: set<int>, ghost slots: seq<Obj>, ghost k0: int)
      returns (to: int, ghost k: int)
      requires 0 <= f < |regions| && Visited(mem0, vo0, objs, alive, slots, k0) && ScanAt(objs, k0, f, regions[f].start)
      requires to0 == LastEnd(slots, |Live(objs[..k0], alive)|)
      modifies this`mem, this`vo
      ensures Visited(mem0, vo0, objs, alive, slots, k)
      ensures if f + 1 < |regions| then ScanAt(objs, k, f + 1, regions[f + 1].start) else k == |objs|
      ensures to == LastEnd(slots, |Live(objs[..k], alive)|)
    {
      hide WellLaid, Holds, ValidRegions, Compaction.Forwarded, Placed, Moved, MovedBits, Live, ScanAt, BitsAhead;
      to, k := to0, k0;
      var it := new ObjectIterator(this, regions[f].start, regions[f].end);
      var more := true;
      while more
        invariant Visited(mem0, vo0, objs, alive, slots, k) && to == LastEnd(slots, |Live(objs[..k], alive)|)
        invariant it.space == this && it.end == regions[f].end && regions[f].start <= it.cursor
        invariant more ==> ScanAt(objs, k, f, it.cursor)
        invariant !more ==> if f + 1 < |regions| then ScanAt(objs, k, f + 1, regions[f + 1].start) else k == |objs|
        decreases more, it.end - it.cursor
      {
        ghost var cursor := it.cursor;
        MovedBitsAhead(config, regions, vo, objs, alive, slots, k, f, cursor);
        MovedAhead(config, regions, mem0, vo0, mem, objs, alive, slots, k);
        AheadHasSize(config, regions, mem, vo, objs, k, cursor, it.end);
        var found := it.Next();
        match found
        case None =>
          FindsNone(config, regions, objs, k, f, cursor, vo);
          more := false;
        case Some(obj) =>
          FindsNext(config, regions, objs, k, f, cursor, vo, obj);
          LiveStep(objs, alive, k);
          to := VisitObject(obj, to, mem0, vo0, objs, alive, slots, k);
          LiveCount(config, regions, objs, alive, slots, k + 1);
          k := k + 1;
      }
    }

    /**
     compact: move every object that has a forwarding pointer to where it points, in one pass
     over the regions.  Returns the end of the last object moved.
     */
    method Compact(ghost objs: seq<Obj>, ghost alive: set<int>, ghost slots: seq<Obj>) returns (to: int)
      requires Laid(objs) && Placed(config, regions, Live(objs, alive), slots)
      requires Compaction.Forwarded(config, mem, alive, objs, Live(objs, alive), slots)
      modifies this`mem, this`vo
      ensures Compacted(config, regions, old(mem), mem, vo, Live(objs, alive), slots)
      ensures to == LastEnd(slots, |slots|)
    {
      hide WellLaid, ValidRegions, Compaction.Forwarded, Placed, Live, ScanAt;
      ghost var mem0, vo0 := mem, vo;
      to := 0;
      ghost var k := 0;
      ScanStart(config, regions, objs);
      PlacedNone(config, regions, alive, objs);
      LiveCount(config, regions, objs, alive, slots, |objs|);
      assert objs[..|objs|] == objs;
      var f := 0;
      while f < |regions|
        invariant 0 <= f <= |regions| && Visited(mem0, vo0, objs, alive, slots, k)
        invariant if f < |regions| then ScanAt(objs, k, f, regions[f].start) else k == |objs|
        invariant to == LastEnd(slots, |Live(objs[..k], alive)|)
      {
        to, k := CompactRegion(f, to, mem0, vo0, objs, alive, slots, k);
        f := f + 1;
      }
      AllMoved(config, regions, mem0, vo0, mem, vo, objs, alive, slots);
    }
  }

  /** ObjectIterator: finds objects by their VO bits and steps over each by its size. */
  class ObjectIterator {
    const space: MarkCompactSpace
    const end: int
    var cursor: int

    constructor (space: MarkCompactSpace, start: int, end: int)
      ensures this.space == space && this.end == end && cursor == start
    {
      this.space := space;
      this.end := end;
      this.cursor := start;
    }

    method Next() returns (r: Option<int>)
      requires forall x :: x in space.vo && cursor <= x < end ==> 1 <= space.CurrentSize(x)
      modifies this
      ensures old(cursor) <= cursor
      ensures match r
        case None => end <= cursor && forall x :: x in space.vo ==> !(old(cursor) <= x < end)
        case Some(o) =>
          && o in space.vo && old(cursor) <= o < end && cursor == o + space.CurrentSize(o)
          && forall x :: x in space.vo ==> !(old(cursor) <= x < o)
    {
      while cursor < end
        invariant old(cursor) <= cursor
        invariant forall x :: x in space.vo ==> !(old(cursor) <= x < cursor)
      {
        if cursor in space.vo {
          var obj := cursor;
          cursor := cursor + space.CurrentSize(obj);
          return Some(obj);
        } else {
          cursor := cursor + 1;
        }
      }
      return None;
    }
  }
}
