/**
 What the packed free list of src/util/freelist.rs is a table of: blocks that tile
 `[0, units)`, one list of free blocks per head, and the units that must not be merged
 with their left neighbour.  The operations are stated here as functions on that value.
 */
module FreeListModel {
  import opened PackedWord

  datatype Status = Used | FreeOn(head: int)

  datatype Block = Block(size: int, status: Status)

  /** `fences` are the units marked uncoalescable; `lists[h]` is the list of head `h` in order. */
  datatype Heap = Heap(heads: nat, units: nat, blocks: map<int, Block>, lists: map<int, seq<int>>, fences: set<int>)

  // ---------- validity ----------

  predicate Bounded(hp: Heap) {
    1 <= hp.heads <= MAX_HEADS && hp.units <= MAX_UNITS
  }

  function EndOf(blocks: map<int, Block>, s: int): int
    requires s in blocks
  {
    s + blocks[s].size
  }

  /** The blocks cover `[0, units)` without gap or overlap. */
  ghost predicate Tiled(blocks: map<int, Block>, units: nat) {
    && (units > 0 ==> 0 in blocks)
    && (forall s :: s in blocks ==> 0 <= s && 1 <= blocks[s].size && s + blocks[s].size <= units)
    && (forall s {:trigger EndOf(blocks, s)} :: s in blocks ==> EndOf(blocks, s) == units || EndOf(blocks, s) in blocks)
    && (forall s, r :: s in blocks && r in blocks && s < r ==> s + blocks[s].size <= r)
  }

  ghost predicate Distinct(xs: seq<int>) {
    forall i, j :: 0 <= i < j < |xs| ==> xs[i] != xs[j]
  }

  ghost predicate IsHead(hp: Heap, h: int) {
    0 - hp.heads <= h < 0
  }

  /** Every free block is on the list of its head, once, and the lists hold nothing else. */
  ghost predicate Threaded(hp: Heap) {
    && (forall h :: h in hp.lists <==> IsHead(hp, h))
    && (forall h :: h in hp.lists ==> Distinct(hp.lists[h]))
    && (forall h, u {:trigger u in hp.lists[h]} :: h in hp.lists && u in hp.lists[h] ==>
      u in hp.blocks && hp.blocks[u].status == FreeOn(h))
    && (forall u :: u in hp.blocks && hp.blocks[u].status.FreeOn? ==>
          hp.blocks[u].status.head in hp.lists && u in hp.lists[hp.blocks[u].status.head])
  }

  ghost predicate ValidHeap(hp: Heap) {
    Bounded(hp) && Tiled(hp.blocks, hp.units) && Threaded(hp)
  }

  // ---------- neighbours ----------

  /** The block that ends where `unit` begins. */
  ghost predicate EndsAt(blocks: map<int, Block>, s: int, unit: int) {
    s in blocks && s + blocks[s].size == unit
  }

  lemma {:induction false} LastStartBefore(starts: set<int>, unit: int) returns (m: int)
    requires exists s :: s in starts && s < unit
    ensures m in starts && m < unit
    ensures forall s :: s in starts && s < unit ==> s <= m
    decreases |starts|
  {
    m :| m in starts && m < unit;
    if s :| s in starts && s < unit && m < s {
      var rest := starts - {m};
      assert s in rest;
      var n := LastStartBefore(rest, unit);
      assert forall r :: r in starts ==> r == m || r in rest;
      m := n;
    }
  }

  lemma LeftExists(blocks: map<int, Block>, units: nat, unit: int)
    requires Tiled(blocks, units) && 0 < unit <= units
    requires unit in blocks || unit == units
    ensures exists s :: EndsAt(blocks, s, unit)
  {
    assert 0 in blocks.Keys;
    var m := LastStartBefore(blocks.Keys, unit);
    var e := EndOf(blocks, m);
    assert e in blocks.Keys ==> e >= unit;
    assert EndsAt(blocks, m, unit);
  }

  ghost function LeftOf(blocks: map<int, Block>, units: nat, unit: int): (s: int)
    requires Tiled(blocks, units) && 0 < unit <= units
    requires unit in blocks || unit == units
    ensures EndsAt(blocks, s, unit) && s < unit
  {
    LeftExists(blocks, units, unit);
    var s :| EndsAt(blocks, s, unit);
    s
  }

  lemma LeftUnique(blocks: map<int, Block>, units: nat, s: int, r: int, unit: int)
    requires Tiled(blocks, units)
    requires EndsAt(blocks, s, unit) && EndsAt(blocks, r, unit)
    ensures s == r
  {
  }

  // ---------- elementary changes ----------

  ghost function Position(xs: seq<int>, u: int): (i: int)
    requires u in xs
    ensures 0 <= i < |xs| && xs[i] == u
  {
    var i :| 0 <= i < |xs| && xs[i] == u;
    i
  }

  ghost function Without(xs: seq<int>, u: int): seq<int>
    requires u in xs
  {
    var i := Position(xs, u);
    xs[..i] + xs[i + 1..]
  }

  lemma WithoutMembers(xs: seq<int>, u: int)
    requires u in xs && Distinct(xs)
    ensures Distinct(Without(xs, u))
    ensures forall v :: v in Without(xs, u) <==> v in xs && v != u
  {
    var i := Position(xs, u);
    var ys := Without(xs, u);
    forall v | v in xs && v != u
      ensures v in ys
    {
      var j :| 0 <= j < |xs| && xs[j] == v;
      assert ys[if j < i then j else j - 1] == v;
    }
  }

  /** Put a block that is on no list at the front of the list of `h`. */
  ghost function Enlist(hp: Heap, h: int, u: int): Heap
    requires u in hp.blocks && h in hp.lists
  {
    hp.(blocks := hp.blocks[u := hp.blocks[u].(status := FreeOn(h))], lists := hp.lists[h := [u] + hp.lists[h]])
  }

  /** Take a block off the list of `h`. */
  ghost function Delist(hp: Heap, h: int, u: int): Heap
    requires u in hp.blocks && h in hp.lists && u in hp.lists[h]
  {
    hp.(blocks := hp.blocks[u := hp.blocks[u].(status := Used)], lists := hp.lists[h := Without(hp.lists[h], u)])
  }

  /** Cut a block in two; the right part is on no list. */
  ghost function SplitBlock(hp: Heap, u: int, size: int): Heap
    requires u in hp.blocks
  {
    var b := hp.blocks[u];
    hp.(blocks := hp.blocks[u := b.(size := size)][u + size := Block(b.size - size, Used)])
  }

  /** Join all blocks that start in `[start, start + total)` into one that is on no list. */
  ghost function JoinBlocks(hp: Heap, start: int, total: int): Heap
  {
    var rest := map s | s in hp.blocks && !(start < s < start + total) :: hp.blocks[s];
    hp.(blocks := rest[start := Block(total, Used)])
  }

  lemma SameTiles(blocks: map<int, Block>, units: nat, after: map<int, Block>)
    requires Tiled(blocks, units)
    requires after.Keys == blocks.Keys && forall s :: s in blocks ==> after[s].size == blocks[s].size
    ensures Tiled(after, units)
  {
    forall s | s in after
      ensures EndOf(after, s) == units || EndOf(after, s) in after
    {
      assert EndOf(blocks, s) == EndOf(after, s);
    }
  }

  lemma EnlistThreads(hp: Heap, h: int, u: int)
    requires Threaded(hp) && h in hp.lists && u in hp.blocks && hp.blocks[u].status.Used?
    ensures Threaded(Enlist(hp, h, u))
  {
    var after := Enlist(hp, h, u);
    assert forall g :: g in hp.lists ==> u !in hp.lists[g];
    assert forall v :: v in after.lists[h] <==> v == u || v in hp.lists[h];
  }

  lemma EnlistValid(hp: Heap, h: int, u: int)
    requires ValidHeap(hp) && h in hp.lists && u in hp.blocks && hp.blocks[u].status.Used?
    ensures ValidHeap(Enlist(hp, h, u))
  {
    SameTiles(hp.blocks, hp.units, Enlist(hp, h, u).blocks);
    EnlistThreads(hp, h, u);
  }

  lemma DelistThreads(hp: Heap, h: int, u: int)
    requires Threaded(hp) && h in hp.lists && u in hp.lists[h]
    ensures Threaded(Delist(hp, h, u))
  {
    WithoutMembers(hp.lists[h], u);
    var after := Delist(hp, h, u);
    assert forall g :: g in hp.lists && g != h ==> u !in hp.lists[g];
  }

  lemma DelistValid(hp: Heap, h: int, u: int)
    requires ValidHeap(hp) && h in hp.lists && u in hp.lists[h]
    ensures ValidHeap(Delist(hp, h, u))
  {
    SameTiles(hp.blocks, hp.units, Delist(hp, h, u).blocks);
    DelistThreads(hp, h, u);
  }

  lemma SplitTiles(blocks: map<int, Block>, units: nat, u: int, size: int, left: Block, right: Block)
    requires Tiled(blocks, units) && u in blocks && 0 < size < blocks[u].size
    requires left.size == size && right.size == blocks[u].size - size
    ensures u + size !in blocks
    ensures Tiled(blocks[u := left][u + size := right], units)
  {
    var after := blocks[u := left][u + size := right];
    forall s | s in after
      ensures EndOf(after, s) == units || EndOf(after, s) in after
    {
      assert s in blocks || s == u + size;
      assert EndOf(blocks, u) == EndOf(after, u + size);
      if s in blocks && s != u {
        assert EndOf(blocks, s) == EndOf(after, s);
      }
    }
  }

  lemma SplitThreads(hp: Heap, u: int, size: int)
    requires Threaded(hp) && u in hp.blocks && u + size !in hp.blocks
    ensures Threaded(SplitBlock(hp, u, size))
  {
    var after := SplitBlock(hp, u, size);
    assert forall v :: v in hp.blocks ==> v in after.blocks && after.blocks[v].status == hp.blocks[v].status;
    assert forall v :: v in after.blocks ==> v in hp.blocks || v == u + size;
  }

  lemma SplitValid(hp: Heap, u: int, size: int)
    requires ValidHeap(hp) && u in hp.blocks && 0 < size < hp.blocks[u].size
    ensures ValidHeap(SplitBlock(hp, u, size)) && u + size !in hp.blocks
  {
    var b := hp.blocks[u];
    SplitTiles(hp.blocks, hp.units, u, size, b.(size := size), Block(b.size - size, Used));
    SplitThreads(hp, u, size);
  }

  ghost predicate JoinsCleanly(hp: Heap, start: int, total: int) {
    && start in hp.blocks && 0 < total
    && (start + total == hp.units || start + total in hp.blocks)
    && (forall s :: s in hp.blocks && start <= s < start + total ==> hp.blocks[s].status.Used?)
  }

  lemma JoinTiles(blocks: map<int, Block>, units: nat, start: int, total: int, after: map<int, Block>)
    requires Tiled(blocks, units) && start in blocks && 0 < total
    requires start + total == units || start + total in blocks
    requires forall s :: s in after <==> s in blocks && !(start < s < start + total)
    requires forall s :: s in after ==> after[s].size == if s == start then total else blocks[s].size
    ensures Tiled(after, units)
  {
    forall s | s in after
      ensures EndOf(after, s) == units || EndOf(after, s) in after
    {
      if s != start {
        assert EndOf(blocks, s) == EndOf(after, s);
      }
    }
  }

  lemma JoinThreads(hp: Heap, start: int, total: int)
    requires Threaded(hp) && JoinsCleanly(hp, start, total)
    ensures Threaded(JoinBlocks(hp, start, total))
  {
    var after := JoinBlocks(hp, start, total);
    assert forall v :: v in hp.blocks && hp.blocks[v].status.FreeOn? ==>
      v in after.blocks && after.blocks[v] == hp.blocks[v];
    assert forall v :: v in after.blocks && v != start ==> v in hp.blocks && after.blocks[v] == hp.blocks[v];
  }

  lemma JoinValid(hp: Heap, start: int, total: int)
    requires ValidHeap(hp) && JoinsCleanly(hp, start, total)
    ensures ValidHeap(JoinBlocks(hp, start, total))
  {
    JoinTiles(hp.blocks, hp.units, start, total, JoinBlocks(hp, start, total).blocks);
    JoinThreads(hp, start, total);
  }

  // ---------- allocation ----------

  ghost predicate CanAlloc(hp: Heap, h: int, u: int, size: int) {
    u in hp.blocks && hp.blocks[u].status == FreeOn(h) && 1 <= size <= hp.blocks[u].size
  }

  /** The part of the block at `u` that the request does not need goes to the front of the list. */
  ghost function CutOff(hp: Heap, h: int, u: int, size: int): (r: Heap)
    requires ValidHeap(hp) && CanAlloc(hp, h, u, size)
    ensures ValidHeap(r) && u in r.blocks && r.blocks[u] == Block(size, FreeOn(h)) && h in r.lists && u in r.lists[h]
  {
    if hp.blocks[u].size > size then
      SplitValid(hp, u, size);
      EnlistValid(SplitBlock(hp, u, size), h, u + size);
      Enlist(SplitBlock(hp, u, size), h, u + size)
    else hp
  }

  /** Allocate `size` units from the start of the free block at `u`. */
  ghost function AllocAt(hp: Heap, h: int, u: int, size: int): (r: Heap)
    requires ValidHeap(hp) && CanAlloc(hp, h, u, size)
    ensures ValidHeap(r)
  {
    DelistValid(CutOff(hp, h, u, size), h, u);
    Delist(CutOff(hp, h, u, size), h, u)
  }

  // ---------- release ----------

  ghost predicate MergesLeft(hp: Heap, u: int)
    requires ValidHeap(hp) && u in hp.blocks
  {
    u > 0 && u !in hp.fences && hp.blocks[LeftOf(hp.blocks, hp.units, u)].status.FreeOn?
  }

  ghost predicate MergesRight(hp: Heap, u: int)
    requires ValidHeap(hp) && u in hp.blocks
  {
    var r := EndOf(hp.blocks, u);
    r < hp.units && r !in hp.fences && hp.blocks[r].status.FreeOn?
  }

  ghost function MergeStart(hp: Heap, u: int): int
    requires ValidHeap(hp) && u in hp.blocks
  {
    if MergesLeft(hp, u) then LeftOf(hp.blocks, hp.units, u) else u
  }

  ghost function MergeEnd(hp: Heap, u: int): int
    requires ValidHeap(hp) && u in hp.blocks
  {
    var r := EndOf(hp.blocks, u);
    if MergesRight(hp, u) then EndOf(hp.blocks, r) else r
  }

  /** `u` is in use and the free neighbours it would be merged with are on the list of `h`. */
  ghost predicate CanFree(hp: Heap, h: int, u: int) {
    && ValidHeap(hp) && h in hp.lists && u in hp.blocks && hp.blocks[u].status.Used?
    && (MergesLeft(hp, u) ==> hp.blocks[LeftOf(hp.blocks, hp.units, u)].status == FreeOn(h))
    && (MergesRight(hp, u) ==> hp.blocks[EndOf(hp.blocks, u)].status == FreeOn(h))
  }

  ghost function DelistIf(hp: Heap, h: int, c: bool, u: int): (r: Heap)
    requires ValidHeap(hp) && h in hp.lists && (c ==> u in hp.lists[h])
    ensures ValidHeap(r) && r.heads == hp.heads && r.units == hp.units && r.fences == hp.fences
    ensures r.lists.Keys == hp.lists.Keys && r.blocks.Keys == hp.blocks.Keys
    ensures forall s :: s in hp.blocks ==>
      r.blocks[s] == if c && s == u then hp.blocks[s].(status := Used) else hp.blocks[s]
    ensures forall v :: v in r.lists[h] <==> v in hp.lists[h] && !(c && v == u)
    ensures forall g :: g in hp.lists && g != h ==> r.lists[g] == hp.lists[g]
  {
    if c then
      DelistValid(hp, h, u);
      WithoutMembers(hp.lists[h], u);
      Delist(hp, h, u)
    else hp
  }

  ghost function LeftOrSelf(hp: Heap, u: int): int
    requires ValidHeap(hp) && u in hp.blocks
  {
    if u > 0 then LeftOf(hp.blocks, hp.units, u) else u
  }

  /** The free neighbours of `u` taken off the list, right one first. */
  ghost function Loosened(hp: Heap, h: int, u: int): (r: Heap)
    requires CanFree(hp, h, u)
    ensures ValidHeap(r) && h in r.lists
  {
    var hp1 := DelistIf(hp, h, MergesRight(hp, u), EndOf(hp.blocks, u));
    DelistIf(hp1, h, MergesLeft(hp, u), LeftOrSelf(hp, u))
  }

  lemma MergeExtent(hp: Heap, u: int)
    requires ValidHeap(hp) && u in hp.blocks && hp.blocks[u].status.Used?
    ensures MergeStart(hp, u) <= u && u + hp.blocks[u].size <= MergeEnd(hp, u) <= hp.units
    ensures MergeStart(hp, u) in hp.blocks
    ensures MergeEnd(hp, u) == hp.units || MergeEnd(hp, u) in hp.blocks
    ensures forall s :: s in hp.blocks && MergeStart(hp, u) <= s < MergeEnd(hp, u) ==>
      s == u || (MergesLeft(hp, u) && s == MergeStart(hp, u)) || (MergesRight(hp, u) && s == EndOf(hp.blocks, u))
  {
  }

  /** `loose` is `hp` with everything that starts in `[start, end)` taken off the list of `h`. */
  ghost predicate TakenOff(hp: Heap, loose: Heap, h: int, start: int, end: int) {
    && loose.heads == hp.heads && loose.units == hp.units && loose.fences == hp.fences
    && loose.lists.Keys == hp.lists.Keys && loose.blocks.Keys == hp.blocks.Keys && h in hp.lists
    && (forall s :: s in hp.blocks && start <= s < end ==> loose.blocks[s] == hp.blocks[s].(status := Used))
    && (forall s :: s in hp.blocks && !(start <= s < end) ==> loose.blocks[s] == hp.blocks[s])
    && (forall v :: v in loose.lists[h] <==> v in hp.lists[h] && !(start <= v < end))
    && (forall g :: g in hp.lists && g != h ==> loose.lists[g] == hp.lists[g])
  }

  lemma LoosenedMeaning(hp: Heap, h: int, u: int)
    requires CanFree(hp, h, u)
    ensures TakenOff(hp, Loosened(hp, h, u), h, MergeStart(hp, u), MergeEnd(hp, u))
  {
    MergeExtent(hp, u);
    var r := Loosened(hp, h, u);
    var right, left := EndOf(hp.blocks, u), LeftOrSelf(hp, u);
    assert forall v :: v in r.lists[h] <==>
      v in hp.lists[h] && !(MergesRight(hp, u) && v == right) && !(MergesLeft(hp, u) && v == left);
    assert forall v :: v in hp.lists[h] ==> v in hp.blocks && v != u;
  }

  lemma LoosenedJoins(hp: Heap, h: int, u: int)
    requires CanFree(hp, h, u)
    ensures JoinsCleanly(Loosened(hp, h, u), MergeStart(hp, u), MergeEnd(hp, u) - MergeStart(hp, u))
  {
    LoosenedMeaning(hp, h, u);
    MergeExtent(hp, u);
  }

  /** The blocks at both ends of what free merges: free ones are on the list of `h`. */
  lemma EndsOfMerge(hp: Heap, h: int, u: int)
    requires CanFree(hp, h, u)
    ensures var start := MergeStart(hp, u);
      && start in hp.blocks && (hp.blocks[start].status.FreeOn? <==> MergesLeft(hp, u))
      && (MergesLeft(hp, u) ==> start in hp.lists[h] && start == LeftOrSelf(hp, u))
    ensures var last := if MergesRight(hp, u) then EndOf(hp.blocks, u) else u;
      && last in hp.blocks && (hp.blocks[last].status.FreeOn? <==> MergesRight(hp, u))
      && (MergesRight(hp, u) ==> last in hp.lists[h]) && EndOf(hp.blocks, last) == MergeEnd(hp, u)
      && MergeStart(hp, u) <= u <= last && (MergeStart(hp, u) == last ==> MergeStart(hp, u) == u)
  {
  }

  lemma NothingToJoin(hp: Heap, h: int, u: int)
    requires CanFree(hp, h, u) && !MergesLeft(hp, u) && !MergesRight(hp, u)
    ensures JoinBlocks(Loosened(hp, h, u), u, hp.blocks[u].size) == hp
    ensures MergeStart(hp, u) == u && MergeEnd(hp, u) == u + hp.blocks[u].size
  {
    MergeExtent(hp, u);
    assert JoinBlocks(hp, u, hp.blocks[u].size).blocks == hp.blocks;
  }

  lemma JoinMeaning(hp: Heap, start: int, total: int)
    requires start in hp.blocks
    ensures var r := JoinBlocks(hp, start, total);
      && start in r.blocks && r.blocks[start] == Block(total, Used)
      && r.lists == hp.lists && r.heads == hp.heads && r.units == hp.units && r.fences == hp.fences
      && (forall s :: s in r.blocks <==> s in hp.blocks && !(start < s < start + total))
      && (forall s :: s in r.blocks && s != start ==> r.blocks[s] == hp.blocks[s])
  {
  }

  lemma JoinDrops(hp: Heap, start: int, total: int, s: int)
    requires start in hp.blocks && start < s < start + total
    ensures s !in JoinBlocks(hp, start, total).blocks
    ensures JoinBlocks(hp, start, total).lists == hp.lists && JoinBlocks(hp, start, total).heads == hp.heads
  {
  }

  lemma LoosenedSize(hp: Heap, h: int, u: int, s: int)
    requires CanFree(hp, h, u) && s in hp.blocks
    ensures s in Loosened(hp, h, u).blocks && Loosened(hp, h, u).blocks[s].size == hp.blocks[s].size
    ensures MergeStart(hp, u) in Loosened(hp, h, u).blocks
  {
    LoosenedMeaning(hp, h, u);
    MergeExtent(hp, u);
  }

  /** Release the block at `u` to the list of `h`. */
  ghost function FreeAt(hp: Heap, h: int, u: int): (r: Heap)
    requires CanFree(hp, h, u)
    ensures ValidHeap(r)
  {
    var start := MergeStart(hp, u);
    var total := MergeEnd(hp, u) - start;
    LoosenedJoins(hp, h, u);
    JoinValid(Loosened(hp, h, u), start, total);
    EnlistValid(JoinBlocks(Loosened(hp, h, u), start, total), h, start);
    Enlist(JoinBlocks(Loosened(hp, h, u), start, total), h, start)
  }

  // ---------- the choice of a block ----------

  ghost predicate Fits(hp: Heap, u: int, size: int) {
    u in hp.blocks && size <= hp.blocks[u].size
  }

  ghost predicate NoneFits(hp: Heap, h: int, size: int)
    requires h in hp.lists
  {
    forall j :: 0 <= j < |hp.lists[h]| ==> !Fits(hp, hp.lists[h][j], size)
  }

  /** Position `i` of the list of `h` is the first whose block fits. */
  ghost predicate FirstFitAt(hp: Heap, h: int, size: int, i: int)
    requires h in hp.lists
  {
    && 0 <= i < |hp.lists[h]| && Fits(hp, hp.lists[h][i], size)
    && forall j :: 0 <= j < i ==> !Fits(hp, hp.lists[h][j], size)
  }

  ghost predicate IsFirstFit(hp: Heap, h: int, size: int, u: int)
    requires h in hp.lists
  {
    CanAlloc(hp, h, u, size) && exists i :: FirstFitAt(hp, h, size, i) && u == hp.lists[h][i]
  }

  /** Every block that fits at a position before `k` of the list of `h` is larger than `bestSize`. */
  ghost predicate LargerBefore(hp: Heap, h: int, size: int, k: int, bestSize: int)
    requires h in hp.lists
  {
    forall j :: 0 <= j < k && j < |hp.lists[h]| && Fits(hp, hp.lists[h][j], size) ==>
      bestSize < hp.blocks[hp.lists[h][j]].size
  }

  /** A smallest block that fits, and the first of its size on the list. */
  ghost predicate IsBestFit(hp: Heap, h: int, size: int, u: int)
    requires h in hp.lists
  {
    && CanAlloc(hp, h, u, size)
    && (forall j :: 0 <= j < |hp.lists[h]| && Fits(hp, hp.lists[h][j], size) ==>
          hp.blocks[u].size <= hp.blocks[hp.lists[h][j]].size)
    && exists k :: 0 <= k < |hp.lists[h]| && hp.lists[h][k] == u && LargerBefore(hp, h, size, k, hp.blocks[u].size)
  }

  lemma MembersAreUnits(hp: Heap, h: int, j: int)
    requires ValidHeap(hp) && h in hp.lists && 0 <= j < |hp.lists[h]|
    ensures 0 <= hp.lists[h][j] && hp.lists[h][j] in hp.blocks && hp.blocks[hp.lists[h][j]].status == FreeOn(h)
  {
    assert hp.lists[h][j] in hp.lists[h];
  }

  /**
   `best` is a smallest fitting block, of size `bestSize`, among the first `i` entries, and the first of
   its size; `I32_MAX` stands for none.
   */
  ghost predicate BestAmong(hp: Heap, h: int, size: int, i: int, bestSize: int, best: int)
    requires h in hp.lists
  {
    && (bestSize != I32_MAX ==>
          && best in hp.lists[h] && Fits(hp, best, size) && hp.blocks[best].size == bestSize
          && exists k :: 0 <= k < |hp.lists[h]| && hp.lists[h][k] == best && LargerBefore(hp, h, size, k, bestSize))
    && (forall j :: 0 <= j < i && j < |hp.lists[h]| && Fits(hp, hp.lists[h][j], size) ==>
          bestSize <= hp.blocks[hp.lists[h][j]].size)
  }

  lemma BestStep(hp: Heap, h: int, size: int, i: int, bestSize: int, best: int)
    requires ValidHeap(hp) && h in hp.lists && 0 < i <= |hp.lists[h]| && BestAmong(hp, h, size, i - 1, bestSize, best)
    ensures hp.lists[h][i - 1] in hp.blocks
    ensures var u := hp.lists[h][i - 1];
      if size <= hp.blocks[u].size < bestSize then BestAmong(hp, h, size, i, hp.blocks[u].size, u)
      else BestAmong(hp, h, size, i, bestSize, best)
  {
    MembersAreUnits(hp, h, i - 1);
  }

  lemma BestIsBest(hp: Heap, h: int, size: int, i: int, bestSize: int, best: int)
    requires ValidHeap(hp) && h in hp.lists && 1 <= size && BestAmong(hp, h, size, i, bestSize, best)
    requires i > |hp.lists[h]| || bestSize == size
    ensures bestSize != I32_MAX ==> IsBestFit(hp, h, size, best)
    ensures bestSize == I32_MAX && i > |hp.lists[h]| ==> NoneFits(hp, h, size)
  {
    forall j | 0 <= j < |hp.lists[h]| && Fits(hp, hp.lists[h][j], size)
      ensures hp.blocks[hp.lists[h][j]].size < I32_MAX && bestSize <= hp.blocks[hp.lists[h][j]].size
    {
      MembersAreUnits(hp, h, j);
    }
  }
}
