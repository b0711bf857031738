/**
 What allocation and release mean, and what every run of them keeps.
 */
module FreeListTheorems {
  import opened PackedWord
  import opened FreeListModel
  import opened FreeListInit

  // ---------- meaning of one operation ----------

  lemma WithoutBehind(xs: seq<int>, f: int, u: int)
    requires u in xs && f != u && Distinct([f] + xs)
    ensures Without([f] + xs, u) == [f] + Without(xs, u)
  {
    var ys := [f] + xs;
    var i := Position(xs, u);
    assert ys[i + 1] == u;
    assert Position(ys, u) == i + 1;
  }

  /**
   Allocation turns the first `size` units of the chosen block into a used block, leaves the
   rest as a free block at the front of the list, and changes nothing else.
   */
  lemma AllocMeaning(hp: Heap, h: int, u: int, size: int)
    requires ValidHeap(hp) && CanAlloc(hp, h, u, size)
    ensures var r := AllocAt(hp, h, u, size); var z := hp.blocks[u].size;
      && r.heads == hp.heads && r.units == hp.units && r.fences == hp.fences && r.lists.Keys == hp.lists.Keys
      && r.blocks[u] == Block(size, Used)
      && r.blocks.Keys == hp.blocks.Keys + (if size < z then {u + size} else {})
      && (size < z ==> u + size !in hp.blocks && r.blocks[u + size] == Block(z - size, FreeOn(h)))
      && (forall s :: s in hp.blocks && s != u ==> r.blocks[s] == hp.blocks[s])
      && r.lists[h] == (if size < z then [u + size] else []) + Without(hp.lists[h], u)
      && (forall g :: g in hp.lists && g != h ==> r.lists[g] == hp.lists[g])
  {
    var cut := CutOff(hp, h, u, size);
    if size < hp.blocks[u].size {
      SplitValid(hp, u, size);
      WithoutBehind(hp.lists[h], u + size, u);
    } else {
      assert [] + Without(hp.lists[h], u) == Without(hp.lists[h], u);
    }
  }

  /** `r` is `hp` with everything in `[start, end)` replaced by one free block at the front of the list of `h`. */
  ghost predicate Released(hp: Heap, r: Heap, h: int, start: int, end: int) {
    && r.heads == hp.heads && r.units == hp.units && r.fences == hp.fences && r.lists.Keys == hp.lists.Keys
    && start in r.blocks && r.blocks[start] == Block(end - start, FreeOn(h))
    && (forall s :: s in r.blocks <==> s in hp.blocks && !(start < s < end))
    && (forall s :: s in r.blocks && s != start ==> r.blocks[s] == hp.blocks[s])
    && h in r.lists && |r.lists[h]| > 0 && r.lists[h][0] == start
    && (forall v :: v in r.lists[h] <==> v == start || (v in hp.lists[h] && !(start <= v < end)))
    && (forall g :: g in hp.lists && g != h ==> r.lists[g] == hp.lists[g])
  }

  lemma JoinAndEnlist(hp: Heap, loose: Heap, h: int, start: int, end: int)
    requires TakenOff(hp, loose, h, start, end) && start in hp.blocks && start < end
    ensures Released(hp, Enlist(JoinBlocks(loose, start, end - start), h, start), h, start, end)
  {
    var joined := JoinBlocks(loose, start, end - start);
    assert forall s :: s in loose.blocks.Keys <==> s in hp.blocks.Keys;
    var r := Enlist(joined, h, start);
    assert forall v :: v in r.lists[h] <==> v == start || v in loose.lists[h];
  }

  lemma MergeRange(hp: Heap, h: int, u: int)
    requires CanFree(hp, h, u)
    ensures ValidHeap(hp) && u in hp.blocks
    ensures MergeStart(hp, u) in hp.blocks && MergeStart(hp, u) <= u && u + hp.blocks[u].size <= MergeEnd(hp, u)
    ensures MergeStart(hp, u) < MergeEnd(hp, u)
  {
    MergeExtent(hp, u);
  }

  /**
   Release turns the used block and the free neighbours it may be merged with into one free
   block at the front of the list, and changes nothing else.
   */
  lemma FreeMeaning(hp: Heap, h: int, u: int)
    requires CanFree(hp, h, u)
    ensures Released(hp, FreeAt(hp, h, u), h, MergeStart(hp, u), MergeEnd(hp, u))
    ensures MergeStart(hp, u) <= u && u + hp.blocks[u].size <= MergeEnd(hp, u)
  {
    hide CanFree, Loosened, JoinBlocks, Enlist, TakenOff, Released, MergeStart, MergeEnd, ValidHeap;
    MergeRange(hp, h, u);
    LoosenedMeaning(hp, h, u);
    JoinAndEnlist(hp, Loosened(hp, h, u), h, MergeStart(hp, u), MergeEnd(hp, u));
  }

  /** A block that starts behind a fence is never merged into its left neighbour. */
  lemma FreeKeepsFences(hp: Heap, h: int, u: int, f: int)
    requires CanFree(hp, h, u) && f in hp.fences && f in hp.blocks
    ensures f in FreeAt(hp, h, u).blocks
  {
    FreeMeaning(hp, h, u);
    MergeExtent(hp, u);
    hide FreeAt;
  }

  lemma WithoutOrder(xs: seq<int>, u: int, v: int, w: int)
    requires Distinct(xs) && u in xs && v in xs && w in xs && v != u && w != u
    ensures v in Without(xs, u) && w in Without(xs, u)
    ensures Position(Without(xs, u), v) < Position(Without(xs, u), w) <==> Position(xs, v) < Position(xs, w)
  {
    WithoutMembers(xs, u);
    WithoutAt(xs, u, v);
    WithoutAt(xs, u, w);
  }

  lemma WithoutAt(xs: seq<int>, u: int, v: int)
    requires Distinct(xs) && u in xs && v in xs && v != u
    ensures v in Without(xs, u)
    ensures Position(Without(xs, u), v) == Position(xs, v) - if Position(xs, u) < Position(xs, v) then 1 else 0
  {
    WithoutMembers(xs, u);
    var ys, i := Without(xs, u), Position(xs, v) - if Position(xs, u) < Position(xs, v) then 1 else 0;
    assert ys[i] == v;
  }

  /** The blocks that stay on the list stay in their order. */
  lemma FreeKeepsOrder(hp: Heap, h: int, u: int, v: int, w: int)
    requires CanFree(hp, h, u) && h in FreeAt(hp, h, u).lists
    requires v in FreeAt(hp, h, u).lists[h] && w in FreeAt(hp, h, u).lists[h]
    requires v != MergeStart(hp, u) && w != MergeStart(hp, u)
    ensures v in hp.lists[h] && w in hp.lists[h]
    ensures Position(FreeAt(hp, h, u).lists[h], v) < Position(FreeAt(hp, h, u).lists[h], w) <==>
      Position(hp.lists[h], v) < Position(hp.lists[h], w)
  {
    LoosenedOrder(hp, h, u, v, w);
    FrontAt(Loosened(hp, h, u).lists[h], MergeStart(hp, u), v);
    FrontAt(Loosened(hp, h, u).lists[h], MergeStart(hp, u), w);
  }

  lemma FrontAt(xs: seq<int>, u: int, v: int)
    requires v in xs && u != v
    ensures v in [u] + xs && Position([u] + xs, v) >= 1
    ensures (Distinct(xs) ==> Position([u] + xs, v) == Position(xs, v) + 1)
  {
    var ys := [u] + xs;
    assert ys[Position(xs, v) + 1] == v;
  }

  lemma LoosenedOrder(hp: Heap, h: int, u: int, v: int, w: int)
    requires CanFree(hp, h, u) && v in Loosened(hp, h, u).lists[h] && w in Loosened(hp, h, u).lists[h]
    ensures v in hp.lists[h] && w in hp.lists[h] && Distinct(Loosened(hp, h, u).lists[h])
    ensures Position(Loosened(hp, h, u).lists[h], v) < Position(Loosened(hp, h, u).lists[h], w) <==>
      Position(hp.lists[h], v) < Position(hp.lists[h], w)
  {
    var right, left := EndOf(hp.blocks, u), LeftOrSelf(hp, u);
    var hp1 := DelistIf(hp, h, MergesRight(hp, u), right);
    LoosenedMeaning(hp, h, u);
    if MergesLeft(hp, u) {
      WithoutMembers(hp1.lists[h], left);
      WithoutOrder(hp1.lists[h], left, v, w);
    }
    if MergesRight(hp, u) {
      WithoutMembers(hp.lists[h], right);
      WithoutOrder(hp.lists[h], right, v, w);
    }
  }

  // ---------- conservation ----------

  /** The block at `s` covers unit `x`. */
  ghost predicate Covers(hp: Heap, s: int, x: int) {
    s in hp.blocks && s <= x < s + hp.blocks[s].size
  }

  ghost predicate FreeFor(hp: Heap, h: int, x: int) {
    exists s :: Covers(hp, s, x) && hp.blocks[s].status == FreeOn(h)
  }

  /** The units on the list of `h`. */
  ghost function FreeUnits(hp: Heap, h: int): set<int> {
    set x | 0 <= x < hp.units && FreeFor(hp, h, x)
  }

  ghost function Extent(u: int, size: int): set<int> {
    set x | u <= x < u + size && InExtent(u, size, x)
  }

  predicate InExtent(u: int, size: int, x: int) {
    u <= x < u + size
  }

  /** No unit lies in two blocks, and every unit lies in one. */
  lemma {:induction false} CoveredOnce(hp: Heap, x: int)
    requires ValidHeap(hp) && 0 <= x < hp.units
    ensures exists s :: Covers(hp, s, x)
    ensures forall s, r :: Covers(hp, s, x) && Covers(hp, r, x) ==> s == r
  {
    assert 0 in hp.blocks.Keys;
    var m := LastStartBefore(hp.blocks.Keys, x + 1);
    var e := EndOf(hp.blocks, m);
    assert e in hp.blocks.Keys ==> e > x;
    assert Covers(hp, m, x);
  }

  /** Allocation takes exactly the returned units off this head's list, and no other list loses or gains any. */
  lemma AllocConserves(hp: Heap, h: int, u: int, size: int)
    requires ValidHeap(hp) && CanAlloc(hp, h, u, size)
    ensures Extent(u, size) <= FreeUnits(hp, h)
    ensures FreeUnits(AllocAt(hp, h, u, size), h) == FreeUnits(hp, h) - Extent(u, size)
    ensures forall g :: g != h ==> FreeUnits(AllocAt(hp, h, u, size), g) == FreeUnits(hp, g)
  {
    hide ValidHeap;
    var r := AllocAt(hp, h, u, size);
    AllocMeaning(hp, h, u, size);
    forall x | 0 <= x < hp.units
      ensures u <= x < u + size ==> FreeFor(hp, h, x)
      ensures FreeFor(r, h, x) <==> FreeFor(hp, h, x) && !(u <= x < u + size)
      ensures forall g :: g != h ==> (FreeFor(r, g, x) <==> FreeFor(hp, g, x))
    {
      AllocUnit(hp, r, h, u, size, x);
    }
    assert u + size <= hp.units by {
      assert ValidHeap(r);
      BlockInside(r, u);
    }
    assert 0 <= u by {
      BlockInside(hp, u);
    }
    assert Extent(u, size) <= FreeUnits(hp, h);
  }

  lemma BlockInside(hp: Heap, u: int)
    requires ValidHeap(hp) && u in hp.blocks
    ensures 0 <= u && u + hp.blocks[u].size <= hp.units
  {
  }

  lemma AllocUnit(hp: Heap, r: Heap, h: int, u: int, size: int, x: int)
    requires ValidHeap(hp) && ValidHeap(r) && CanAlloc(hp, h, u, size) && 0 <= x < hp.units == r.units
    requires u in r.blocks && r.blocks[u] == Block(size, Used)
    requires r.blocks.Keys == hp.blocks.Keys + (if size < hp.blocks[u].size then {u + size} else {})
    requires size < hp.blocks[u].size ==>
      u + size !in hp.blocks && r.blocks[u + size] == Block(hp.blocks[u].size - size, FreeOn(h))
    requires forall s :: s in hp.blocks && s != u ==> r.blocks[s] == hp.blocks[s]
    ensures u <= x < u + size ==> FreeFor(hp, h, x)
    ensures FreeFor(r, h, x) <==> FreeFor(hp, h, x) && !(u <= x < u + size)
    ensures forall g :: g != h ==> (FreeFor(r, g, x) <==> FreeFor(hp, g, x))
  {
    CoveredOnce(hp, x);
    var s :| Covers(hp, s, x);
    CoveredOnce(r, x);
    if s == u {
      assert if x < u + size then Covers(r, u, x) else Covers(r, u + size, x);
    } else {
      assert Covers(r, s, x);
    }
  }

  /** Release puts exactly the block's units onto this head's list, and no other list loses or gains any. */
  lemma FreeConserves(hp: Heap, h: int, u: int)
    requires CanFree(hp, h, u)
    ensures Extent(u, hp.blocks[u].size) !! FreeUnits(hp, h)
    ensures FreeUnits(FreeAt(hp, h, u), h) == FreeUnits(hp, h) + Extent(u, hp.blocks[u].size)
    ensures forall g :: g != h ==> FreeUnits(FreeAt(hp, h, u), g) == FreeUnits(hp, g)
  {
    hide FreeAt, ValidHeap, MergesLeft, MergesRight, FreeFor;
    var r := FreeAt(hp, h, u);
    var size := hp.blocks[u].size;
    FreeShape(hp, h, u);
    BlockInside(hp, u);
    forall x | 0 <= x < hp.units
      ensures u <= x < u + size ==> !FreeFor(hp, h, x)
      ensures FreeFor(r, h, x) <==> FreeFor(hp, h, x) || u <= x < u + size
      ensures forall g :: g != h ==> (FreeFor(r, g, x) <==> FreeFor(hp, g, x))
    {
      FreeUnit(hp, h, u, x);
    }
    forall g | g != h
      ensures FreeUnits(r, g) == FreeUnits(hp, g)
    {
      forall x | 0 <= x < hp.units
        ensures FreeFor(r, g, x) <==> FreeFor(hp, g, x)
      {
        FreeUnit(hp, h, u, x);
      }
    }
  }

  lemma FreeShape(hp: Heap, h: int, u: int)
    requires CanFree(hp, h, u)
    ensures FreeAt(hp, h, u).units == hp.units && FreeAt(hp, h, u).heads == hp.heads
    ensures FreeAt(hp, h, u).fences == hp.fences
  {
    FreeMeaning(hp, h, u);
  }

  lemma FreeUnit(hp: Heap, h: int, u: int, x: int)
    requires CanFree(hp, h, u) && 0 <= x < hp.units
    ensures u <= x < u + hp.blocks[u].size ==> !FreeFor(hp, h, x)
    ensures FreeFor(FreeAt(hp, h, u), h, x) <==> FreeFor(hp, h, x) || u <= x < u + hp.blocks[u].size
    ensures forall g :: g != h ==> (FreeFor(FreeAt(hp, h, u), g, x) <==> FreeFor(hp, g, x))
  {
    hide FreeAt;
    var r := FreeAt(hp, h, u);
    var start, end := MergeStart(hp, u), MergeEnd(hp, u);
    FreeMeaning(hp, h, u);
    MergeExtent(hp, u);
    EndsOfMerge(hp, h, u);
    CoveredOnce(hp, x);
    CoveredOnce(r, x);
    var s :| Covers(hp, s, x);
    if u <= x < u + hp.blocks[u].size {
      assert s == u by { assert Covers(hp, u, x); }
    }
    if start <= x < end {
      assert Covers(r, start, x);
      assert start <= s < end;
      assert s == u || hp.blocks[s].status == FreeOn(h);
    } else {
      assert Covers(r, s, x);
    }
  }

  // ---------- maximal merging ----------

  /** No two neighbouring blocks are both free, unless a fence keeps them apart. */
  ghost predicate Merged(hp: Heap) {
    forall s {:trigger EndOf(hp.blocks, s)} :: s in hp.blocks && hp.blocks[s].status.FreeOn? ==>
      var r := EndOf(hp.blocks, s); r in hp.blocks && hp.blocks[r].status.FreeOn? ==> r in hp.fences
  }

  lemma AllocKeepsMerged(hp: Heap, h: int, u: int, size: int)
    requires ValidHeap(hp) && CanAlloc(hp, h, u, size) && Merged(hp)
    ensures Merged(AllocAt(hp, h, u, size))
  {
    hide AllocAt;
    var a := AllocAt(hp, h, u, size);
    AllocMeaning(hp, h, u, size);
    forall s | s in a.blocks && a.blocks[s].status.FreeOn? && EndOf(a.blocks, s) in a.blocks &&
      a.blocks[EndOf(a.blocks, s)].status.FreeOn?
      ensures EndOf(a.blocks, s) in a.fences
    {
      if s == u + size && size < hp.blocks[u].size {
        assert EndOf(a.blocks, s) == EndOf(hp.blocks, u);
      } else {
        assert EndOf(a.blocks, s) == EndOf(hp.blocks, s);
      }
    }
  }

  lemma FreeKeepsMerged(hp: Heap, h: int, u: int)
    requires CanFree(hp, h, u) && Merged(hp)
    ensures Merged(FreeAt(hp, h, u))
  {
    hide FreeAt;
    var a := FreeAt(hp, h, u);
    var start, end := MergeStart(hp, u), MergeEnd(hp, u);
    FreeMeaning(hp, h, u);
    MergeExtent(hp, u);
    EndsOfMerge(hp, h, u);
    forall s | s in a.blocks && a.blocks[s].status.FreeOn? && EndOf(a.blocks, s) in a.blocks &&
      a.blocks[EndOf(a.blocks, s)].status.FreeOn?
      ensures EndOf(a.blocks, s) in a.fences
    {
      if s == start {
        RightEdgeFenced(hp, h, u);
      } else {
        assert EndOf(a.blocks, s) == EndOf(hp.blocks, s);
        if EndOf(a.blocks, s) == start {
          LeftEdgeFenced(hp, h, u, s);
        }
      }
    }
  }

  /** What stays to the right of the merged block is in use or fenced off. */
  lemma RightEdgeFenced(hp: Heap, h: int, u: int)
    requires CanFree(hp, h, u) && Merged(hp)
    ensures var end := MergeEnd(hp, u); end in hp.blocks && hp.blocks[end].status.FreeOn? ==> end in hp.fences
  {
    var right := EndOf(hp.blocks, u);
    if MergesRight(hp, u) {
      assert EndOf(hp.blocks, right) == MergeEnd(hp, u);
    }
  }

  lemma LeftEdgeFenced(hp: Heap, h: int, u: int, s: int)
    requires CanFree(hp, h, u) && Merged(hp) && s in hp.blocks && hp.blocks[s].status.FreeOn?
    requires EndOf(hp.blocks, s) == MergeStart(hp, u)
    ensures MergeStart(hp, u) in hp.fences
  {
    if !MergesLeft(hp, u) {
      assert EndsAt(hp.blocks, s, u);
      LeftUnique(hp.blocks, hp.units, s, LeftOf(hp.blocks, hp.units, u), u);
    }
  }

  // ---------- separate heads ----------

  /** Each unit belongs to the zone of a head; zones meet only at fences and blocks do not straddle them. */
  ghost predicate Zoned(hp: Heap, zone: int -> int) {
    && (forall s :: s in hp.blocks && hp.blocks[s].status.FreeOn? ==> hp.blocks[s].status.head == zone(s))
    && (forall s, x :: Covers(hp, s, x) ==> zone(x) == zone(s))
    && (forall x :: 0 < x < hp.units && zone(x) != zone(x - 1) ==> x in hp.fences)
  }

  /** In a zoned heap every used block may be released to the head of its zone. */
  lemma ZonedMayFree(hp: Heap, zone: int -> int, u: int)
    requires ValidHeap(hp) && Zoned(hp, zone) && u in hp.blocks && hp.blocks[u].status.Used? && zone(u) in hp.lists
    ensures CanFree(hp, zone(u), u)
  {
    if MergesLeft(hp, u) {
      var l := LeftOf(hp.blocks, hp.units, u);
      assert Covers(hp, l, u - 1);
    }
    if MergesRight(hp, u) {
      var r := EndOf(hp.blocks, u);
      assert Covers(hp, u, r - 1);
    }
  }

  lemma AllocKeepsZones(hp: Heap, zone: int -> int, h: int, u: int, size: int)
    requires ValidHeap(hp) && CanAlloc(hp, h, u, size) && Zoned(hp, zone)
    ensures Zoned(AllocAt(hp, h, u, size), zone)
  {
    hide AllocAt, ValidHeap;
    var a := AllocAt(hp, h, u, size);
    AllocMeaning(hp, h, u, size);
    BlockInside(hp, u);
    forall s, x | Covers(a, s, x)
      ensures zone(x) == zone(s)
    {
      if s == u || (s == u + size && size < hp.blocks[u].size) {
        assert Covers(hp, u, x) && Covers(hp, u, s);
      } else {
        assert Covers(hp, s, x);
      }
    }
    forall s | s in a.blocks && a.blocks[s].status.FreeOn?
      ensures a.blocks[s].status.head == zone(s)
    {
      if s == u + size && size < hp.blocks[u].size {
        assert Covers(hp, u, s);
      }
    }
  }

  lemma FreeKeepsZones(hp: Heap, zone: int -> int, h: int, u: int)
    requires CanFree(hp, h, u) && Zoned(hp, zone) && zone(u) == h
    ensures Zoned(FreeAt(hp, h, u), zone)
  {
    hide FreeAt;
    var a := FreeAt(hp, h, u);
    FreeMeaning(hp, h, u);
    EndsOfMerge(hp, h, u);
    var start, end := MergeStart(hp, u), MergeEnd(hp, u);
    forall x | start <= x < end
      ensures zone(x) == h
    {
      MergedZone(hp, zone, h, u, x);
    }
    MergeExtent(hp, u);
    forall s, x | Covers(a, s, x)
      ensures zone(x) == zone(s)
    {
      if s != start {
        assert Covers(hp, s, x);
      }
    }
  }

  lemma MergedZone(hp: Heap, zone: int -> int, h: int, u: int, x: int)
    requires CanFree(hp, h, u) && Zoned(hp, zone) && zone(u) == h && MergeStart(hp, u) <= x < MergeEnd(hp, u)
    ensures zone(x) == h
  {
    MergeExtent(hp, u);
    EndsOfMerge(hp, h, u);
    CoveredOnce(hp, x);
    var s :| Covers(hp, s, x);
    assert MergeStart(hp, u) <= s < MergeEnd(hp, u);
    assert s == u || hp.blocks[s].status == FreeOn(h);
  }

  /** The list of `g` and all blocks in its zone are the same in both heaps. */
  ghost predicate SameZone(hp: Heap, r: Heap, zone: int -> int, g: int) {
    && g in hp.lists && g in r.lists && r.lists[g] == hp.lists[g]
    && (forall s :: zone(s) == g ==> (s in r.blocks <==> s in hp.blocks))
    && (forall s :: zone(s) == g && s in hp.blocks && s in r.blocks ==> r.blocks[s] == hp.blocks[s])
  }

  lemma AllocLeavesZone(hp: Heap, zone: int -> int, h: int, u: int, size: int, g: int)
    requires ValidHeap(hp) && CanAlloc(hp, h, u, size) && Zoned(hp, zone) && g in hp.lists && g != h
    ensures SameZone(hp, AllocAt(hp, h, u, size), zone, g)
  {
    hide AllocAt, ValidHeap;
    AllocMeaning(hp, h, u, size);
    if size < hp.blocks[u].size {
      assert Covers(hp, u, u + size);
    }
  }

  lemma FreeLeavesZone(hp: Heap, zone: int -> int, h: int, u: int, g: int)
    requires CanFree(hp, h, u) && Zoned(hp, zone) && zone(u) == h && g in hp.lists && g != h
    ensures SameZone(hp, FreeAt(hp, h, u), zone, g)
  {
    hide FreeAt;
    FreeMeaning(hp, h, u);
    forall x | MergeStart(hp, u) <= x < MergeEnd(hp, u)
      ensures zone(x) == h
    {
      MergedZone(hp, zone, h, u, x);
    }
  }

  // ---------- runs ----------

  datatype Op = Alloc(head: int, size: int) | AllocFrom(head: int, unit: int, size: int) | Release(head: int, unit: int)

  /** What one call of alloc, alloc_from_unit or free does; either fit may be compiled in. */
  ghost predicate Steps(hp: Heap, op: Op, r: Heap)
    requires ValidHeap(hp)
  {
    && op.head in hp.lists
    && match op
       case Alloc(h, size) =>
         1 <= size && if NoneFits(hp, h, size) then r == hp else Chooses(hp, h, size, r)
       case AllocFrom(h, u, size) =>
         && 1 <= size && u in hp.blocks && (hp.blocks[u].status.FreeOn? ==> hp.blocks[u].status.head == h)
         && if CanAlloc(hp, h, u, size) then r == AllocAt(hp, h, u, size) else r == hp
       case Release(h, u) =>
         CanFree(hp, h, u) && r == FreeAt(hp, h, u)
  }

  ghost predicate Chooses(hp: Heap, h: int, size: int, r: Heap)
    requires ValidHeap(hp) && h in hp.lists
  {
    exists u :: (IsFirstFit(hp, h, size, u) || IsBestFit(hp, h, size, u)) && r == AllocAt(hp, h, u, size)
  }

  /** `heaps[i]` is the heap after the first `i` operations on a valid heap. */
  ghost predicate IsRun(heaps: seq<Heap>, ops: seq<Op>) {
    && |heaps| == |ops| + 1 && ValidHeap(heaps[0])
    && (forall i :: 0 <= i < |ops| && ValidHeap(heaps[i]) ==> Steps(heaps[i], ops[i], heaps[i + 1]))
  }

  lemma StepKeeps(hp: Heap, op: Op, r: Heap)
    requires ValidHeap(hp) && Steps(hp, op, r)
    ensures ValidHeap(r) && r.units == hp.units && r.heads == hp.heads && r.fences == hp.fences
    ensures r.lists.Keys == hp.lists.Keys
    ensures Merged(hp) ==> Merged(r)
    ensures forall f :: f in hp.fences && f in hp.blocks ==> f in r.blocks
  {
    hide AllocAt, FreeAt;
    match op
    case Alloc(h, size) =>
      if !NoneFits(hp, h, size) {
        var u :| (IsFirstFit(hp, h, size, u) || IsBestFit(hp, h, size, u)) && r == AllocAt(hp, h, u, size);
        AllocMeaning(hp, h, u, size);
        if Merged(hp) { AllocKeepsMerged(hp, h, u, size); }
      }
    case AllocFrom(h, u, size) =>
      if CanAlloc(hp, h, u, size) {
        AllocMeaning(hp, h, u, size);
        if Merged(hp) { AllocKeepsMerged(hp, h, u, size); }
      }
    case Release(h, u) =>
      FreeMeaning(hp, h, u);
      if Merged(hp) { FreeKeepsMerged(hp, h, u); }
      forall f | f in hp.fences && f in hp.blocks
        ensures f in r.blocks
      {
        FreeKeepsFences(hp, h, u, f);
      }
  }

  /** Every run keeps the tiling, the lists and the fences, and stays fully merged once it is. */
  lemma {:induction false} RunKeeps(heaps: seq<Heap>, ops: seq<Op>)
    requires IsRun(heaps, ops)
    ensures var last := heaps[|ops|];
      ValidHeap(last) && last.units == heaps[0].units && last.heads == heaps[0].heads && last.fences == heaps[0].fences
    ensures Merged(heaps[0]) ==> Merged(heaps[|ops|])
    ensures forall f :: f in heaps[0].fences && f in heaps[0].blocks ==> f in heaps[|ops|].blocks
    decreases |ops|
  {
    if ops != [] {
      var n := |ops| - 1;
      RunKeeps(heaps[..n + 1], ops[..n]);
      StepKeeps(heaps[n], ops[n], heaps[n + 1]);
    }
  }

  /** Every operation goes through a head other than `g` and releases only units of its own zone. */
  ghost predicate KeepsOut(ops: seq<Op>, zone: int -> int, g: int) {
    forall i :: 0 <= i < |ops| ==> ops[i].head != g && (ops[i].Release? ==> zone(ops[i].unit) == ops[i].head)
  }

  lemma StepLeavesZone(hp: Heap, op: Op, r: Heap, zone: int -> int, g: int)
    requires ValidHeap(hp) && Steps(hp, op, r) && Zoned(hp, zone) && g in hp.lists && KeepsOut([op], zone, g)
    ensures Zoned(r, zone) && SameZone(hp, r, zone, g)
  {
    hide AllocAt, FreeAt;
    assert [op][0] == op;
    match op
    case Alloc(h, size) =>
      if !NoneFits(hp, h, size) {
        var u :| (IsFirstFit(hp, h, size, u) || IsBestFit(hp, h, size, u)) && r == AllocAt(hp, h, u, size);
        AllocKeepsZones(hp, zone, h, u, size);
        AllocLeavesZone(hp, zone, h, u, size, g);
      }
    case AllocFrom(h, u, size) =>
      if CanAlloc(hp, h, u, size) {
        AllocKeepsZones(hp, zone, h, u, size);
        AllocLeavesZone(hp, zone, h, u, size, g);
      }
    case Release(h, u) =>
      FreeKeepsZones(hp, zone, h, u);
      FreeLeavesZone(hp, zone, h, u, g);
  }

  /** Runs through other heads leave the list and the blocks of head `g` as they were. */
  lemma {:induction false} RunLeavesZone(heaps: seq<Heap>, ops: seq<Op>, zone: int -> int, g: int)
    requires IsRun(heaps, ops) && Zoned(heaps[0], zone) && g in heaps[0].lists && KeepsOut(ops, zone, g)
    ensures Zoned(heaps[|ops|], zone) && SameZone(heaps[0], heaps[|ops|], zone, g)
    decreases |ops|
  {
    if ops != [] {
      var n := |ops| - 1;
      RunKeeps(heaps[..n + 1], ops[..n]);
      RunLeavesZone(heaps[..n + 1], ops[..n], zone, g);
      assert KeepsOut([ops[n]], zone, g);
      StepLeavesZone(heaps[n], ops[n], heaps[n + 1], zone, g);
    }
  }

  /** A new list is fully merged exactly if it is made with a grain of at least its units. */
  lemma NewListMerged(hp: Heap, heads: nat, h: int, units: nat, grain: int)
    requires 0 < grain && ValidHeap(hp) && GrainHeap(hp, heads, h, units, grain)
    ensures Merged(hp) <==> units <= grain
  {
    GridMembers(0, grain, units / grain);
    if units <= grain {
      forall s | s in hp.blocks
        ensures EndOf(hp.blocks, s) !in hp.blocks
      {
        SingleBlock(hp, heads, h, units, grain, s);
      }
    } else {
      assert 0 in hp.blocks && EndOf(hp.blocks, 0) == grain;
    }
  }

  lemma SingleBlock(hp: Heap, heads: nat, h: int, units: nat, grain: int, s: int)
    requires 0 < grain && ValidHeap(hp) && GrainHeap(hp, heads, h, units, grain) && units <= grain && s in hp.blocks
    ensures s == 0 && EndOf(hp.blocks, s) == units && units !in hp.blocks
  {
    assert 0 in hp.blocks && EndOf(hp.blocks, 0) == units;
  }

  /** A list made with a grain of at least its units stays fully merged over every run. */
  lemma NewListStaysMerged(heaps: seq<Heap>, ops: seq<Op>, heads: nat, h: int, units: nat, grain: int)
    requires IsRun(heaps, ops) && 0 < units <= grain && GrainHeap(heaps[0], heads, h, units, grain)
    ensures ValidHeap(heaps[|ops|]) && Merged(heaps[|ops|])
  {
    NewListMerged(heaps[0], heads, h, units, grain);
    RunKeeps(heaps, ops);
  }
}
