/**
 How a free list comes into being and grows: fresh entries stand for used blocks of one
 unit, and grain-sized free blocks are carved out of them from the top down.
 */
module FreeListInit {
  import opened PackedWord
  import opened FreeListTable
  import opened FreeListModel
  import opened FreeListEncoding

  predicate Between(a: int, x: int, b: int) {
    a <= x < b
  }

  ghost function Range(a: int, b: int): set<int> {
    set x | a <= x < b && Between(a, x, b)
  }

  /** Every unit a used block of its own, every list empty. */
  ghost function FreshHeap(heads: nat, units: nat): Heap {
    var us, hs := Range(0, units), Range(0 - heads, 0);
    Heap(heads, units, map u | u in us :: Block(1, Used), map h | h in hs :: [], {})
  }

  lemma FreshValid(heads: nat, units: nat)
    requires 1 <= heads <= MAX_HEADS && units <= MAX_UNITS
    ensures ValidHeap(FreshHeap(heads, units))
  {
    var hp := FreshHeap(heads, units);
    forall s | s in hp.blocks
      ensures EndOf(hp.blocks, s) == units || EndOf(hp.blocks, s) in hp.blocks
    {
    }
  }

  /** Zeroed entries between heads and a bottom sentinel encode the fresh heap. */
  lemma FreshEncodes(t: Table, heads: nat, units: nat)
    requires 1 <= heads <= MAX_HEADS && units <= MAX_UNITS && InTable(t, heads, units)
    requires forall u {:trigger Lo(t, heads, u)} {:trigger Hi(t, heads, u)} ::
      0 <= u && u != units && InTable(t, heads, u) ==>
        Lo(t, heads, u) == ZERO && Hi(t, heads, u) == ZERO
    requires forall u :: 0 - heads <= u < 0 || u == units ==>
      Lo(t, heads, u) == Word(false, false, LinkLow(u)) && Hi(t, heads, u) == Word(false, false, LinkLow(u))
    ensures Encodes(t, FreshHeap(heads, units))
  {
    var hp := FreshHeap(heads, units);
    FreshValid(heads, units);
    forall h | h in hp.lists
      ensures Linked(t, heads, h, hp.lists[h])
    {
      assert Hop(t, heads, h, [], 0);
    }
  }

  // ---------- carving ----------

  /** `n` starts, `g` apart, from `d` upwards. */
  ghost function Grid(d: int, g: int, n: nat): seq<int>
    decreases n
  {
    if n == 0 then [] else [d] + Grid(d + g, g, n - 1)
  }

  lemma {:induction false} GridMembers(d: int, g: int, n: nat)
    requires 0 < g
    ensures forall s :: s in Grid(d, g, n) ==> d <= s && s + g <= d + n * g
    ensures |Grid(d, g, n)| == n && forall i :: 0 <= i < n ==> Grid(d, g, n)[i] == d + i * g
    decreases n
  {
    if n > 0 {
      GridMembers(d + g, g, n - 1);
      assert n * g == (n - 1) * g + g;
      forall i | 0 <= i < n
        ensures Grid(d, g, n)[i] == d + i * g
      {
        if i > 0 {
          assert Grid(d, g, n)[i] == Grid(d + g, g, n - 1)[i - 1];
          assert i * g == (i - 1) * g + g;
        }
      }
    }
  }

  /** `hp` is `base` with `n` free blocks of size `g` carved out of `[d, d + n * g)`, listed in order. */
  ghost predicate Carved(base: Heap, hp: Heap, h: int, d: int, g: int, n: nat) {
    && hp.heads == base.heads && hp.units == base.units && hp.fences == base.fences && hp.lists.Keys == base.lists.Keys
    && (forall s :: s in hp.blocks <==> s in base.blocks && (s < d || d + n * g <= s || s in Grid(d, g, n)))
    && (forall s :: s in hp.blocks && (s < d || d + n * g <= s) ==> hp.blocks[s] == base.blocks[s])
    && (forall s :: s in hp.blocks && d <= s < d + n * g ==> hp.blocks[s] == Block(g, FreeOn(h)))
    && h in hp.lists && hp.lists[h] == Grid(d, g, n) + base.lists[h]
    && (forall f :: f in base.lists && f != h ==> hp.lists[f] == base.lists[f])
  }

  ghost predicate Singles(hp: Heap, a: int, b: int) {
    forall u :: a <= u < b ==> u in hp.blocks && hp.blocks[u] == Block(1, Used)
  }

  lemma CarveNone(hp: Heap, h: int, d: int, g: int)
    requires h in hp.lists
    ensures Carved(hp, hp, h, d, g, 0)
  {
    assert Grid(d, g, 0) + hp.lists[h] == hp.lists[h];
  }

  lemma CarvedUnits(base: Heap, hp: Heap, h: int, d: int, g: int, n: nat)
    requires Carved(base, hp, h, d, g, n)
    ensures hp.units == base.units && hp.heads == base.heads
  {
  }

  lemma FreshUnits(heads: nat, units: nat)
    ensures FreshHeap(heads, units).units == units && Singles(FreshHeap(heads, units), 0, units)
  {
  }

  lemma CarveJoins(base: Heap, hp: Heap, h: int, d: int, g: int, n: nat)
    requires ValidHeap(hp) && 0 < g && Carved(base, hp, h, d, g, n)
    requires Singles(base, d - g, d) && (d == hp.units || d in hp.blocks)
    ensures JoinsCleanly(hp, d - g, g)
  {
  }

  lemma CarveStep(base: Heap, hp: Heap, h: int, d: int, g: int, n: nat)
    requires ValidHeap(hp) && 0 < g && Carved(base, hp, h, d, g, n)
    requires Singles(base, d - g, d) && (d == hp.units || d in hp.blocks)
    ensures JoinsCleanly(hp, d - g, g)
    ensures Carved(base, Enlist(JoinBlocks(hp, d - g, g), h, d - g), h, d - g, g, n + 1)
    ensures d - g in Enlist(JoinBlocks(hp, d - g, g), h, d - g).blocks
  {
    CarveJoins(base, hp, h, d, g, n);
    JoinMeaning(hp, d - g, g);
    GridMembers(d, g, n);
    CarveStepCore(base, hp, JoinBlocks(hp, d - g, g), h, d, g, n, d + n * g);
  }

  lemma CarveStepCore(base: Heap, hp: Heap, joined: Heap, h: int, d: int, g: int, n: nat, top: int)
    requires Carved(base, hp, h, d, g, n) && 0 < g && top == d + n * g
    requires Singles(base, d - g, d)
    requires forall s :: s in Grid(d, g, n) ==> d <= s
    requires joined.lists == hp.lists && joined.heads == hp.heads && joined.units == hp.units
    requires joined.fences == hp.fences
    requires forall s :: s in joined.blocks <==> s in hp.blocks && !(d - g < s < d)
    requires d - g in joined.blocks && joined.blocks[d - g] == Block(g, Used)
    requires forall s :: s in joined.blocks && s != d - g ==> joined.blocks[s] == hp.blocks[s]
    ensures Carved(base, Enlist(joined, h, d - g), h, d - g, g, n + 1)
  {
    var next := Enlist(joined, h, d - g);
    assert d - g + (n + 1) * g == top by {
      assert (n + 1) * g == n * g + g;
    }
    var grid := Grid(d, g, n);
    assert Grid(d - g, g, n + 1) == [d - g] + grid;
    assert forall s :: s in [d - g] + grid <==> s == d - g || s in grid;
    assert [d - g] + (grid + base.lists[h]) == ([d - g] + grid) + base.lists[h];
  }

  /** All of `[0, units)` free on the list of `h`, in blocks of `grain` units and a remainder, in address order. */
  ghost predicate GrainHeap(hp: Heap, heads: nat, h: int, units: nat, grain: int)
    requires 0 < grain
  {
    && hp.heads == heads && hp.units == units && hp.fences == {} && h in hp.lists
    && (forall s :: s in hp.blocks <==> s in hp.lists[h])
    && (forall s :: s in hp.blocks ==>
      hp.blocks[s] == Block(if s + grain <= units then grain else units - s, FreeOn(h)))
    && hp.lists[h] == Grid(0, grain, units / grain) + (if units % grain > 0 then [units - units % grain] else [])
    && (forall f :: f in hp.lists && f != h ==> hp.lists[f] == [])
  }

  /** The remainder at the top. */
  ghost predicate TopCarved(hp: Heap, heads: nat, h: int, units: nat, rest: int)
    requires 0 <= rest <= units
  {
    Carved(FreshHeap(heads, units), hp, h, units - rest, rest, if rest > 0 then 1 else 0)
  }

  lemma TopSingles(hp: Heap, heads: nat, h: int, units: nat, rest: int)
    requires 0 <= rest <= units && TopCarved(hp, heads, h, units, rest)
    ensures Singles(hp, 0, units - rest) && (units - rest == units || units - rest in hp.blocks)
  {
    if rest > 0 {
      assert Grid(units - rest, rest, 1) == [units - rest] + Grid(units, rest, 0);
    }
  }

  lemma SmallMultiple(m: int, g: int)
    requires 0 <= m * g < g
    ensures m == 0
  {
    assert (m - 1) * g < 0 <= m * g;
  }

  lemma WholeGrains(d: int, g: int, n: nat, q: nat)
    requires 0 <= d < g && d + n * g == q * g
    ensures d == 0 && n == q
  {
    assert d == (q - n) * g;
    SmallMultiple(q - n, g);
  }

  lemma AllCarved(top: Heap, hp: Heap, heads: nat, h: int, units: nat, grain: int, d: int, n: nat)
    requires 0 < grain && TopCarved(top, heads, h, units, units % grain) && 0 - heads <= h < 0
    requires Carved(top, hp, h, d, grain, n) && 0 <= d < grain && d + n * grain == units - units % grain
    ensures GrainHeap(hp, heads, h, units, grain)
  {
    WholeGrains(d, grain, n, units / grain);
    GridMembers(0, grain, n);
    AllCarvedCore(top, hp, heads, h, units, grain, units - units % grain, n);
  }

  lemma AllCarvedCore(top: Heap, hp: Heap, heads: nat, h: int, units: nat, grain: int, edge: int, n: nat)
    requires 0 < grain && edge == units - units % grain == n * grain && n == units / grain && 0 - heads <= h < 0
    requires TopCarved(top, heads, h, units, units % grain) && Carved(top, hp, h, 0, grain, n)
    requires forall s :: s in Grid(0, grain, n) ==> 0 <= s && s + grain <= edge
    ensures GrainHeap(hp, heads, h, units, grain)
  {
    var rest := units % grain;
    assert rest > 0 ==> Grid(edge, rest, 1) == [edge] + Grid(units, rest, 0) == [edge];
    assert top.lists[h] == if rest > 0 then [edge] else [];
    assert forall s :: s in hp.lists[h] <==> s in Grid(0, grain, n) || (rest > 0 && s == edge);
    assert forall s :: s in top.blocks ==>
      0 <= s < edge || (rest > 0 && s == edge && top.blocks[s] == Block(rest, FreeOn(h)));
    assert 0 + n * grain == edge;
    hide FreshHeap, TopCarved, Grid;
    assert forall s :: s in hp.blocks <==> s in hp.lists[h];
  }

  // ---------- growth ----------

  /** The heap with the units up to `n` added as used blocks of one unit. */
  ghost function ExtendHeap(hp: Heap, n: nat): Heap
    requires hp.units <= n
  {
    var us := Range(hp.units, n);
    hp.(units := n, blocks := hp.blocks + map u | u in us :: Block(1, Used))
  }

  lemma ExtendBlocks(hp: Heap, n: nat)
    requires Tiled(hp.blocks, hp.units) && hp.units < n
    ensures Singles(ExtendHeap(hp, n), hp.units, n)
    ensures forall s :: s in ExtendHeap(hp, n).blocks <==> s in hp.blocks || hp.units <= s < n
    ensures forall s :: s in hp.blocks ==> s < hp.units && ExtendHeap(hp, n).blocks[s] == hp.blocks[s]
  {
  }

  lemma ExtendTiles(blocks: map<int, Block>, units: nat, after: map<int, Block>, n: nat)
    requires Tiled(blocks, units) && units < n
    requires forall s :: s in after <==> s in blocks || units <= s < n
    requires forall s :: s in after ==> after[s].size == if s < units then blocks[s].size else 1
    ensures Tiled(after, n)
  {
    forall s | s in after
      ensures EndOf(after, s) == n || EndOf(after, s) in after
    {
      if s in blocks {
        assert EndOf(blocks, s) == EndOf(after, s);
      }
    }
  }

  lemma ExtendValid(hp: Heap, n: nat)
    requires ValidHeap(hp) && hp.units < n <= MAX_UNITS
    ensures ValidHeap(ExtendHeap(hp, n))
  {
    var r := ExtendHeap(hp, n);
    ExtendBlocks(hp, n);
    ExtendTiles(hp.blocks, hp.units, r.blocks, n);
    hide Tiled;
    ExtendThreads(hp, r);
  }

  lemma ExtendThreads(hp: Heap, r: Heap)
    requires Threaded(hp) && r.lists == hp.lists && r.heads == hp.heads && r.fences == hp.fences && hp.units <= r.units
    requires forall s :: s in hp.blocks ==> s in r.blocks && r.blocks[s] == hp.blocks[s]
    requires forall s :: s in r.blocks && r.blocks[s].status.FreeOn? ==> s in hp.blocks
    ensures Threaded(r)
  {
  }

  ghost predicate SameBut(t: Table, t': Table, k: nat, n: int) {
    && |t'| == |t|
    && (forall u {:trigger Lo(t', k, u)} :: InTable(t, k, u) && u != n ==> Lo(t', k, u) == Lo(t, k, u))
    && (forall u {:trigger Hi(t', k, u)} :: InTable(t, k, u) && u != n ==> Hi(t', k, u) == Hi(t, k, u))
  }

  lemma ExtendSizes(t: Table, t': Table, hp: Heap, n: nat)
    requires Tiled(hp.blocks, hp.units) && Tagged(t, hp, {}) && hp.units < n && InTable(t, hp.heads, n)
    requires SameBut(t, t', hp.heads, n)
    ensures Sized(t', ExtendHeap(hp, n)) && Flagged(t', ExtendHeap(hp, n), {})
  {
    var r := ExtendHeap(hp, n);
    ExtendBlocks(hp, n);
    forall s | s in r.blocks
      ensures SizeTags(t', hp.heads, s, r.blocks[s].size)
      ensures FreeTags(t', hp.heads, s, r.blocks[s].size, r.blocks[s].status.FreeOn?)
    {
      if s in hp.blocks {
        assert SizeTags(t, hp.heads, s, hp.blocks[s].size);
        assert FreeTags(t, hp.heads, s, hp.blocks[s].size, hp.blocks[s].status.FreeOn?);
      }
    }
  }

  lemma ExtendTags(t: Table, t': Table, hp: Heap, n: nat)
    requires Tiled(hp.blocks, hp.units) && Tagged(t, hp, {}) && hp.units < n && InTable(t, hp.heads, n)
    requires SameBut(t, t', hp.heads, n)
    requires !Lo(t', hp.heads, n).top && !Lo(t', hp.heads, n).second && !Hi(t', hp.heads, n).top
    ensures Tagged(t', ExtendHeap(hp, n), {})
  {
    ExtendSizes(t, t', hp, n);
    var r := ExtendHeap(hp, n);
    assert Guarded(t', r);
    assert Fenced(t', r);
    assert Blank(t', r);
  }

  /**
   Growth: the old bottom sentinel becomes an ordinary unit, the blank entries up to a new
   sentinel become used units, and nothing below changes.
   */
  lemma ExtendEncodes(t: Table, hp: Heap, n: nat)
    requires Encodes(t, hp) && hp.units < n <= MAX_UNITS && InTable(t, hp.heads, n)
    ensures CanSetSize(t, hp.heads, hp.units, 1)
    ensures Encodes(SetSentinel(SetSize(t, hp.heads, hp.units, 1), hp.heads, n), ExtendHeap(hp, n))
  {
    var t1 := SetSize(t, hp.heads, hp.units, 1);
    var t' := SetSentinel(t1, hp.heads, n);
    var r := ExtendHeap(hp, n);
    ExtendValid(hp, n);
    assert Guarded(t, hp);
    assert !Hi(t, hp.heads, hp.units).top;
    assert Hi(t1, hp.heads, hp.units) == Hi(t, hp.heads, hp.units);
    ExtendTags(t, t', hp, n);
    hide Tiled, Tagged, Guarded;
    forall h | h in r.lists
      ensures Linked(t', hp.heads, h, r.lists[h])
    {
      assert IsHead(hp, h);
      forall v | v == h || v in hp.lists[h]
        ensures v != n
      {
      }
      LinkedFrame(t, t', hp.heads, h, hp.lists[h]);
    }
  }

  /** Mapping more zeroed memory behind the table changes nothing it encodes. */
  lemma MoreMemory(t: Table, t': Table, hp: Heap)
    requires Encodes(t, hp) && t <= t' && |t| % 2 == 0 && forall i :: |t| <= i < |t'| ==> t'[i] == ZERO
    ensures Encodes(t', hp)
  {
    var k := hp.heads;
    assert forall u {:trigger Lo(t', k, u)} :: InTable(t, k, u) ==> Lo(t', k, u) == Lo(t, k, u);
    assert forall u {:trigger Hi(t', k, u)} :: InTable(t, k, u) ==> Hi(t', k, u) == Hi(t, k, u);
    forall s | s in hp.blocks
      ensures SizeTags(t', k, s, hp.blocks[s].size)
      ensures FreeTags(t', k, s, hp.blocks[s].size, hp.blocks[s].status.FreeOn?)
    {
      assert SizeTags(t, k, s, hp.blocks[s].size);
      assert FreeTags(t, k, s, hp.blocks[s].size, hp.blocks[s].status.FreeOn?);
    }
    forall h | h in hp.lists
      ensures Linked(t', k, h, hp.lists[h])
    {
      forall i | 0 <= i <= |hp.lists[h]|
        ensures Hop(t', k, h, hp.lists[h], i)
      {
        HopAt(t, k, h, hp.lists[h], i);
      }
    }
    assert Guarded(t', hp);
    assert Fenced(t', hp);
    assert Blank(t', hp);
  }
}
