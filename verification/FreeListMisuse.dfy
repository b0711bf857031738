/**
 What src/util/freelist.rs does outside the preconditions of its operations.  Sizes that are not positive are
 accepted: the size test lets the first block of the list pass, and the writes of __split then go to the unit
 itself or in front of it.  So are blocks on the list of another head, whose links are taken for the own head's.
 */
module FreeListMisuse {
  import opened PackedWord
  import opened FreeListTable
  import opened FreeListModel
  import opened FreeListEncoding
  import opened FreeListTheorems

  // ---------- the writes of __alloc, for any size ----------

  predicate CanSetAnySize(t: Table, k: nat, u: int, size: int) {
    InTable(t, k, u) && (size > 1 ==> CanSetSize(t, k, u, size))
  }

  /** set_size: everything that is not more than 1 clears the MULTI flag. */
  function SetAnySize(t: Table, k: nat, u: int, size: int): (r: Table)
    requires CanSetAnySize(t, k, u, size)
    ensures |r| == |t|
  {
    if size > 1 then SetSize(t, k, u, size) else PutHi(t, k, u, Hi(t, k, u).(top := false))
  }

  /** The two size tags of __split. */
  predicate Retags(t: Table, k: nat, u: int, size: int, z: int, t': Table) {
    && CanSetAnySize(t, k, u, size) && CanSetAnySize(SetAnySize(t, k, u, size), k, u + size, z - size)
    && t' == SetAnySize(SetAnySize(t, k, u, size), k, u + size, z - size)
  }

  /** add_to_free. */
  predicate Links(t: Table, k: nat, h: int, v: int, t': Table) {
    CanAddToFree(t, k, h, v) && t' == AddToFree(t, k, h, v)
  }

  /** __remove_from_free and set_free. */
  predicate Takes(t: Table, k: nat, h: int, u: int, t': Table) {
    CanUnlink(t, k, h, u) && CanSetFree(Unlink(t, k, h, u), k, u) && t' == SetFree(Unlink(t, k, h, u), k, u, false)
  }

  ghost predicate Splits(t: Table, k: nat, h: int, u: int, size: int, z: int, t': Table) {
    exists t1 :: Retags(t, k, u, size, z, t1) && Links(t1, k, h, u + size, t')
  }

  /** __alloc of `size` units from the block of `z` units at `u`, with all accesses inside the table. */
  ghost predicate Allocates(t: Table, k: nat, h: int, u: int, size: int, z: int, t': Table) {
    if z > size then exists t2 :: Splits(t, k, h, u, size, z, t2) && Takes(t2, k, h, u, t')
    else Takes(t, k, h, u, t')
  }

  // ---------- positive sizes ----------

  lemma AnySizeIsSize(t: Table, k: nat, u: int, size: int)
    requires CanSetSize(t, k, u, size)
    ensures CanSetAnySize(t, k, u, size) && SetAnySize(t, k, u, size) == SetSize(t, k, u, size)
  {
  }

  lemma PositiveRetags(t: Table, hp: Heap, u: int, size: int, t1: Table)
    requires Encodes(t, hp) && u in hp.blocks && 0 < size < hp.blocks[u].size
    requires Retags(t, hp.heads, u, size, hp.blocks[u].size, t1)
    ensures EncodesBut(t1, SplitBlock(hp, u, size), {u, u + size})
  {
    hide EncodesBut, SetSize, SetAnySize, CanSetAnySize, CanSetSize;
    var skip, k, z := {u, u + size}, hp.heads, hp.blocks[u].size;
    Skip(t, hp, {}, skip);
    SplitEncodes(t, hp, skip, u, size);
    AnySizeIsSize(t, k, u, size);
    AnySizeIsSize(SetSize(t, k, u, size), k, u + size, z - size);
  }

  lemma CutOffLinks(hp: Heap, h: int, u: int, size: int)
    requires ValidHeap(hp) && CanAlloc(hp, h, u, size) && size < hp.blocks[u].size
    ensures var r := SplitBlock(hp, u, size);
      && h in r.lists && u + size in r.blocks && r.blocks[u + size].status.Used? && r.heads == hp.heads
      && CutOff(hp, h, u, size) == Enlist(r, h, u + size)
  {
  }

  lemma PositiveLink(t: Table, hp: Heap, skip: set<int>, h: int, u: int, t': Table)
    requires EncodesBut(t, hp, skip) && h in hp.lists && u in hp.blocks && hp.blocks[u].status.Used?
    requires Links(t, hp.heads, h, u, t')
    ensures EncodesBut(t', Enlist(hp, h, u), skip - {u})
  {
    hide EncodesBut, AddToFree, CanAddToFree, Enlist;
    AddToFreeEncodes(t, hp, skip, h, u);
  }

  lemma PositiveSplit(t: Table, hp: Heap, h: int, u: int, size: int, t2: Table)
    requires Encodes(t, hp) && ValidHeap(hp) && CanAlloc(hp, h, u, size) && size < hp.blocks[u].size
    requires Splits(t, hp.heads, h, u, size, hp.blocks[u].size, t2)
    ensures EncodesBut(t2, CutOff(hp, h, u, size), {u})
  {
    hide EncodesBut, ValidHeap, CutOff, SplitBlock, Enlist, AddToFree, Retags, CanAddToFree, Links;
    var t1 :| Retags(t, hp.heads, u, size, hp.blocks[u].size, t1) && Links(t1, hp.heads, h, u + size, t2);
    PositiveRetags(t, hp, u, size, t1);
    CutOffLinks(hp, h, u, size);
    PositiveLink(t1, SplitBlock(hp, u, size), {u, u + size}, h, u + size, t2);
    assert {u, u + size} - {u + size} == {u};
  }

  lemma PositiveTake(t: Table, hp: Heap, h: int, u: int, t': Table)
    requires EncodesBut(t, hp, {u}) && h in hp.lists && u in hp.lists[h] && u in hp.blocks
    requires Takes(t, hp.heads, h, u, t')
    ensures Encodes(t', Delist(hp, h, u))
  {
    hide EncodesBut, SetFree, Unlink, CanSetFree, CanUnlink;
    UnlinkEncodes(t, hp, {u}, h, u);
    var t1, hp1 := Unlink(t, hp.heads, h, u), Delist(hp, h, u);
    SetFreeEncodes(t1, hp1, {u}, u, false);
    assert {u} + {u} == {} + {u};
    Unskip(t', hp1, {}, u);
  }

  /** The writes for a positive size give the heap that allocation is meant to give. */
  lemma PositiveAlloc(t: Table, hp: Heap, h: int, u: int, size: int, t': Table)
    requires Encodes(t, hp) && CanAlloc(hp, h, u, size) && Allocates(t, hp.heads, h, u, size, hp.blocks[u].size, t')
    ensures ValidHeap(hp) && Encodes(t', AllocAt(hp, h, u, size))
  {
    hide EncodesBut, Takes, Splits;
    EncodesValid(t, hp, {});
    if size < hp.blocks[u].size {
      var t2 :| Splits(t, hp.heads, h, u, size, hp.blocks[u].size, t2) && Takes(t2, hp.heads, h, u, t');
      PositiveSplit(t, hp, h, u, size, t2);
      PositiveTake(t2, CutOff(hp, h, u, size), h, u, t');
    } else {
      Skip(t, hp, {}, {u});
      PositiveTake(t, hp, h, u, t');
    }
  }

  // ---------- what an encoding shows ----------

  /** The blocks other than the one at `u` are as they were. */
  ghost predicate OthersKept(hp: Heap, r: Heap, u: int) {
    && r.heads == hp.heads
    && forall s :: s in hp.blocks && s != u ==> s in r.blocks && r.blocks[s] == hp.blocks[s]
  }

  /** Where a link of the ring of `h` leads to is free, and its size is tagged. */
  lemma LinkIsRead(t: Table, r: Heap, h: int, p: int, v: int)
    requires Encodes(t, r) && h in r.lists && (p == h || p in r.lists[h]) && 0 <= v && IsLink(v)
    requires InTable(t, r.heads, p) && Hi(t, r.heads, p).low == LinkLow(v)
    ensures v in r.blocks && SizeTags(t, r.heads, v, r.blocks[v].size) && Lo(t, r.heads, v).top
  {
    var order := r.lists[h];
    RingOf(t, r, {}, h);
    assert IsHead(r, h);
    var j := if p == h then 0 else Position(order, p) + 1;
    HopAt(t, r.heads, h, order, j);
    LinkDecodes(v);
    LinkDecodes(Node(h, order, j + 1));
    assert Node(h, order, j + 1) == v;
    MembersAreUnits(r, h, j);
    assert FreeTags(t, r.heads, v, r.blocks[v].size, true);
  }

  // ---------- what the writes leave alone ----------

  /** __split of a size that is not positive writes tags between the unit in front and the end of the block only. */
  lemma TagsFrame(t: Table, k: nat, u: int, m: int, z: int, t': Table)
    requires 0 <= m && 0 < z && Retags(t, k, u, 0 - m, z, t')
    ensures |t'| == |t| && InTable(t, k, u) && InTable(t, k, u - m)
    ensures forall x {:trigger Lo(t', k, x)} :: InTable(t, k, x) ==> Lo(t', k, x) == Lo(t, k, x)
    ensures forall x {:trigger Hi(t', k, x)} :: InTable(t, k, x) && !(u - m <= x < u + z) ==>
      Hi(t', k, x) == Hi(t, k, x)
    ensures z + m > 1 ==>
      InTable(t, k, u - m + 1) && Hi(t', k, u - m).top && Hi(t', k, u - m + 1) == Word(true, false, z + m)
  {
  }

  /** set_free touches flags of low entries only. */
  lemma FreeFrame(t: Table, k: nat, u: int, free: bool)
    requires CanSetFree(t, k, u)
    ensures var t' := SetFree(t, k, u, free);
      && |t'| == |t| && Lo(t', k, u).top == free
      && (forall x {:trigger Hi(t', k, x)} :: InTable(t, k, x) ==> Hi(t', k, x) == Hi(t, k, x))
      && (forall x {:trigger Lo(t', k, x)} :: InTable(t, k, x) ==> Lo(t', k, x).low == Lo(t, k, x).low)
  {
  }

  /** Who leads to `u` on its list, and where the list begins. */
  lemma RingFacts(t: Table, hp: Heap, h: int, u: int) returns (first: int, p: int)
    requires Encodes(t, hp) && h in hp.lists && u in hp.lists[h] && u in hp.blocks
    ensures 0 - hp.heads <= h < 0 <= u && 1 <= hp.blocks[u].size && IsLink(u) && IsLink(h)
    ensures InTable(t, hp.heads, h) && Next(t, hp.heads, h, h) == first && 0 <= first <= MAX_UNITS
    ensures InTable(t, hp.heads, p) && InTable(t, hp.heads, u) && Hi(t, hp.heads, p).low == LinkLow(u)
    ensures Prev(t, hp.heads, h, u) == p && (p == h <==> first == u)
    ensures p != h ==> p in hp.blocks && hp.blocks[p].status == FreeOn(h) && p != u && 0 <= p
    ensures !(u <= p < u + hp.blocks[u].size)
  {
    var k, order, i := hp.heads, hp.lists[h], Position(hp.lists[h], u);
    first, p := order[0], Node(h, order, i);
    assert IsHead(hp, h);
    RingOf(t, hp, {}, h);
    ReadRing(t, k, h, order, 0);
    ReadRing(t, k, h, order, i);
    HopAt(t, k, h, order, i);
    MembersAreUnits(hp, h, 0);
    MembersAreUnits(hp, h, i);
    if i > 0 {
      MembersAreUnits(hp, h, i - 1);
    }
  }

  // ---------- size 0 ----------

  /** Linking the unit once more and unlinking it: its predecessor still leads to it. */
  lemma ZeroLinks(t: Table, k: nat, h: int, u: int, first: int, p: int)
    requires CanLinkFirst(t, k, h, u) && h < 0 <= u && Next(t, k, h, h) == first && 0 <= first <= MAX_UNITS
    requires InTable(t, k, p) && Hi(t, k, p).low == LinkLow(u) && p != u && (p == h <==> first == u)
    requires CanUnlink(LinkFirst(t, k, h, u), k, h, u)
    ensures var t' := Unlink(LinkFirst(t, k, h, u), k, h, u); |t'| == |t| && Hi(t', k, p).low == LinkLow(u)
  {
    var t4 := LinkFirst(t, k, h, u);
    LinkDecodes(u);
    LinkDecodes(h);
    LinkDecodes(first);
    if first == u {
      assert Hi(t4, k, u).low == LinkLow(u) && Lo(t4, k, u).low == LinkLow(u) && Hi(t4, k, h).low == LinkLow(u);
    } else {
      assert Hi(t4, k, u).low == LinkLow(first) && Lo(t4, k, u).low == LinkLow(h) && Hi(t4, k, p).low == LinkLow(u);
    }
  }

  /** After the call the predecessor still leads to the block, and the block is marked used. */
  lemma ZeroWrites(t: Table, t1: Table, t2: Table, t': Table, k: nat, h: int, u: int, z: int, first: int, p: int)
    requires Retags(t, k, u, 0, z, t1) && Links(t1, k, h, u, t2) && Takes(t2, k, h, u, t')
    requires 0 < z && h < 0 <= u && !(u <= p < u + z)
    requires InTable(t, k, h) && Next(t, k, h, h) == first && 0 <= first <= MAX_UNITS
    requires InTable(t, k, p) && Hi(t, k, p).low == LinkLow(u) && (p == h <==> first == u)
    ensures |t'| == |t| && InTable(t, k, u) && Hi(t', k, p).low == LinkLow(u) && !Lo(t', k, u).top
  {
    hide SetFree, LinkFirst, Unlink, Retags;
    TagsFrame(t, k, u, 0, z, t1);
    FreeFrame(t1, k, u, true);
    var t3 := SetFree(t1, k, u, true);
    ZeroLinks(t3, k, h, u, first, p);
    FreeFrame(Unlink(t2, k, h, u), k, u, false);
  }

  /** A block that is marked used cannot be where a link of its list leads. */
  lemma UsedOnList(t: Table, hp: Heap, h: int, u: int, p: int, r: Heap)
    requires OthersKept(hp, r, u) && 0 - hp.heads <= h < 0 <= u && IsLink(u)
    requires p == h || (p in hp.blocks && hp.blocks[p].status == FreeOn(h) && p != u)
    requires InTable(t, r.heads, p) && Hi(t, r.heads, p).low == LinkLow(u) && InTable(t, r.heads, u)
    requires !Lo(t, r.heads, u).top
    ensures !Encodes(t, r)
  {
    if Encodes(t, r) {
      assert IsHead(r, h);
      assert p != h ==> r.blocks[p].status == FreeOn(h);
      LinkIsRead(t, r, h, p, u);
    }
  }

  lemma ZeroBreaks(t: Table, hp: Heap, h: int, u: int, t': Table, r: Heap)
    requires Encodes(t, hp) && h in hp.lists && u in hp.lists[h] && u in hp.blocks && OthersKept(hp, r, u)
    requires Allocates(t, hp.heads, h, u, 0, hp.blocks[u].size, t')
    ensures !Encodes(t', r)
  {
    hide EncodesBut, Takes, Retags, Links, OthersKept;
    var k, z := hp.heads, hp.blocks[u].size;
    var first, p := RingFacts(t, hp, h, u);
    var t2 :| Splits(t, k, h, u, 0, z, t2) && Takes(t2, k, h, u, t');
    var t1 :| Retags(t, k, u, 0, z, t1) && Links(t1, k, h, u, t2);
    ZeroWrites(t, t1, t2, t', k, h, u, z, first, p);
    SameHeads(hp, r, u);
    UsedOnList(t', hp, h, u, p, r);
  }

  lemma SameHeads(hp: Heap, r: Heap, u: int)
    requires OthersKept(hp, r, u)
    ensures r.heads == hp.heads
  {
  }

  // ---------- negative sizes ----------

  lemma LinkedInFront(t: Table, k: nat, h: int, u: int, v: int, first: int)
    requires CanLinkFirst(t, k, h, v) && h < 0 && v != u && InTable(t, k, u)
    requires 0 <= v ==> Next(t, k, h, h) == first && 0 <= first
    ensures var t' := LinkFirst(t, k, h, v);
      && (forall x {:trigger Hi(t', k, x)} :: InTable(t, k, x) ==> Hi(t', k, x).top == Hi(t, k, x).top)
      && (forall x {:trigger Hi(t', k, x)} :: InTable(t, k, x) && x != v && x != h ==> Hi(t', k, x) == Hi(t, k, x))
      && Hi(t', k, h).low == LinkLow(v)
      && (0 <= v ==> Lo(t', k, u).low == if first == u then LinkLow(v) else Lo(t, k, u).low)
  {
  }

  lemma TakenOut(t: Table, k: nat, h: int, u: int, p: int)
    requires CanUnlink(t, k, h, u) && Prev(t, k, h, u) == p
    ensures var t' := Unlink(t, k, h, u);
      && (forall x {:trigger Hi(t', k, x)} :: InTable(t, k, x) ==> Hi(t', k, x).top == Hi(t, k, x).top)
      && (forall x {:trigger Hi(t', k, x)} :: InTable(t, k, x) && x != p ==> Hi(t', k, x) == Hi(t, k, x))
  {
  }

  /** Linking `v` and unlinking `u` keeps flags, and the size written at `v + 1` unless `u` hangs on it. */
  lemma NegativeLinks(t: Table, k: nat, h: int, u: int, v: int, first: int, p: int)
    requires CanLinkFirst(t, k, h, v) && CanUnlink(LinkFirst(t, k, h, v), k, h, u) && h < 0 && v != u
    requires InTable(t, k, u)
    requires 0 <= v ==> Next(t, k, h, h) == first && 0 <= first
    requires Prev(t, k, h, u) == p && (p == h <==> first == u) && (p == h || 0 <= p)
    ensures var t' := Unlink(LinkFirst(t, k, h, v), k, h, u);
      |t'| == |t| && forall x {:trigger Hi(t', k, x)} :: InTable(t, k, x) ==> Hi(t', k, x).top == Hi(t, k, x).top
    ensures var t' := Unlink(LinkFirst(t, k, h, v), k, h, u);
      0 <= v ==>
        && Hi(t', k, h).low == LinkLow(v)
        && (InTable(t, k, v + 1) && p != v + 1 ==> Hi(t', k, v + 1) == Hi(t, k, v + 1))
  {
    var t4 := LinkFirst(t, k, h, v);
    hide LinkFirst, Unlink;
    LinkDecodes(v);
    LinkedInFront(t, k, h, u, v, first);
    TakenOut(t4, k, h, u, Prev(t4, k, h, u));
  }

  /** After the call a block of more than one unit seems to start in front of the one that was asked for. */
  lemma NegativeWrites(t: Table, t1: Table, t2: Table, t': Table, k: nat, h: int, u: int, m: int, z: int, first: int,
                       p: int)
    requires Retags(t, k, u, 0 - m, z, t1) && Links(t1, k, h, u - m, t2) && Takes(t2, k, h, u, t')
    requires 0 < m && 0 < z && h < 0 <= u && InTable(t, k, h) && InTable(t, k, u)
    requires Next(t, k, h, h) == first && 0 <= first
    requires Prev(t, k, h, u) == p && (p == h <==> first == u) && (p == h || 0 <= p)
    ensures |t'| == |t| && IsLink(u - m) && InTable(t, k, u - m) && InTable(t, k, u - m + 1) && Hi(t', k, u - m).top
    ensures 0 <= u - m ==> Hi(t', k, h).low == LinkLow(u - m) && (p != u - m + 1 ==> Hi(t', k, u - m + 1).low == z + m)
  {
    hide SetFree, LinkFirst, Unlink, Retags;
    var v := u - m;
    TagsFrame(t, k, u, m, z, t1);
    FreeFrame(t1, k, v, true);
    var t3 := SetFree(t1, k, v, true);
    NegativeLinks(t3, k, h, u, v, first, p);
    FreeFrame(Unlink(t2, k, h, u), k, u, false);
  }

  /** No heap that keeps the other blocks has that block. */
  lemma NoRoomInFront(t: Table, hp: Heap, h: int, u: int, v: int, total: int, p: int, r: Heap)
    requires ValidHeap(hp) && OthersKept(hp, r, u) && u in hp.blocks && v < u && h in hp.lists
    requires 0 - hp.heads <= h < 0 && IsLink(v) && InTable(t, r.heads, v) && InTable(t, r.heads, v + 1)
    requires InTable(t, r.heads, h)
    requires total > u - v && Hi(t, r.heads, v).top && (p == h || p in hp.blocks)
    requires 0 <= v ==> Hi(t, r.heads, h).low == LinkLow(v) && (p != v + 1 ==> Hi(t, r.heads, v + 1).low == total)
    ensures !Encodes(t, r)
  {
    if Encodes(t, r) {
      assert Guarded(t, r) && (v < 0 ==> IsHead(r, v));
      assert IsHead(r, h);
      if v >= 0 {
        CoveredOnce(hp, v);
        var s :| Covers(hp, s, v);
        assert s in r.blocks && r.blocks[s] == hp.blocks[s] && s + hp.blocks[s].size <= u;
        LinkIsRead(t, r, h, h, v);
      }
    }
  }

  lemma NegativeBreaks(t: Table, hp: Heap, h: int, u: int, m: int, t': Table, r: Heap)
    requires Encodes(t, hp) && h in hp.lists && u in hp.lists[h] && u in hp.blocks && 0 < m && OthersKept(hp, r, u)
    requires Allocates(t, hp.heads, h, u, 0 - m, hp.blocks[u].size, t')
    ensures !Encodes(t', r)
  {
    hide EncodesBut, ValidHeap, Takes, Retags, Links, OthersKept;
    var k, z := hp.heads, hp.blocks[u].size;
    var first, p := RingFacts(t, hp, h, u);
    EncodesValid(t, hp, {});
    var t2 :| Splits(t, k, h, u, 0 - m, z, t2) && Takes(t2, k, h, u, t');
    var t1 :| Retags(t, k, u, 0 - m, z, t1) && Links(t1, k, h, u + (0 - m), t2);
    NegativeWrites(t, t1, t2, t', k, h, u, m, z, first, p);
    SameHeads(hp, r, u);
    NoRoomInFront(t', hp, h, u, u - m, z + m, p, r);
  }

  // ---------- the condition ----------

  lemma AllocKeepsOthers(hp: Heap, h: int, u: int, size: int)
    requires ValidHeap(hp) && CanAlloc(hp, h, u, size)
    ensures OthersKept(hp, AllocAt(hp, h, u, size), u)
  {
    hide AllocAt;
    AllocMeaning(hp, h, u, size);
  }

  /**
   What an allocation is meant to leave, an encoding in which all other blocks are as they were, it leaves
   exactly for positive sizes, whichever free block of the list is chosen.
   */
  lemma AllocNeedsPositiveSize(t: Table, hp: Heap, h: int, u: int, size: int, t': Table)
    requires Encodes(t, hp) && h in hp.lists && u in hp.lists[h] && u in hp.blocks && size <= hp.blocks[u].size
    requires Allocates(t, hp.heads, h, u, size, hp.blocks[u].size, t')
    ensures (exists r :: OthersKept(hp, r, u) && Encodes(t', r)) <==> size >= 1
  {
    hide Allocates, EncodesBut, ValidHeap, OthersKept;
    EncodesValid(t, hp, {});
    if size >= 1 {
      MembersAreUnits(hp, h, Position(hp.lists[h], u));
      PositiveAlloc(t, hp, h, u, size, t');
      AllocKeepsOthers(hp, h, u, size);
    } else {
      forall r | OthersKept(hp, r, u)
        ensures !Encodes(t', r)
      {
        if size == 0 {
          ZeroBreaks(t, hp, h, u, t', r);
        } else {
          NegativeBreaks(t, hp, h, u, 0 - size, t', r);
        }
      }
    }
  }

  // ---------- blocks of another list ----------

  /** The links around a unit of the list of `f`, as a list with head `h` reads them. */
  lemma ForeignLinks(t: Table, hp: Heap, h: int, f: int, u: int)
    requires Encodes(t, hp) && f in hp.lists && u in hp.lists[f]
    ensures var k, order, i := hp.heads, hp.lists[f], Position(hp.lists[f], u);
      && InTable(t, k, u) && IsLink(u) && 0 - k <= f < 0 <= u
      && InTable(t, k, f) && (i == 0 ==> Hi(t, k, f).low == LinkLow(u))
      && Prev(t, k, h, u) == (if i == 0 then h else order[i - 1])
      && Next(t, k, h, u) == (if i == |order| - 1 then h else order[i + 1])
      && (i > 0 ==> order[i - 1] in hp.blocks && hp.blocks[order[i - 1]].status == FreeOn(f) && order[i - 1] != u
                    && 0 <= order[i - 1] && InTable(t, k, order[i - 1]))
      && (i < |order| - 1 ==> 0 <= order[i + 1] && order[i + 1] != u && InTable(t, k, order[i + 1]))
  {
    var k, order, i := hp.heads, hp.lists[f], Position(hp.lists[f], u);
    assert IsHead(hp, f);
    RingOf(t, hp, {}, f);
    ReadRing(t, k, f, order, i);
    ReadRing(t, k, f, order, i + 1);
    HopAt(t, k, f, order, i);
    HopAt(t, k, f, order, i + 1);
    LinkDecodes(f);
    MembersAreUnits(hp, f, i);
    if i > 0 {
      MembersAreUnits(hp, f, i - 1);
    }
    if i < |order| - 1 {
      MembersAreUnits(hp, f, i + 1);
    }
  }

  /** What __remove_from_free and set_free write, given what they read. */
  lemma TakeWrites(t: Table, k: nat, h: int, u: int, t': Table)
    requires Takes(t, k, h, u, t')
    ensures |t'| == |t| && InTable(t, k, u) && InTable(t, k, Next(t, k, h, u)) && InTable(t, k, Prev(t, k, h, u))
    ensures IsLink(h)
    ensures !Lo(t', k, u).top
    ensures forall x {:trigger Hi(t', k, x)} :: InTable(t, k, x) && x != Prev(t, k, h, u) ==>
      Hi(t', k, x).low == Hi(t, k, x).low
    ensures Next(t, k, h, u) == h ==> Hi(t', k, Prev(t, k, h, u)).low == LinkLow(h)
  {
    hide SetFree;
    FreeFrame(Unlink(t, k, h, u), k, u, false);
  }

  /** No link inside the ring of `f` leads to another head. */
  lemma RingStaysHome(t: Table, r: Heap, f: int, p: int, h: int)
    requires Encodes(t, r) && f in r.lists && p in r.lists[f] && IsLink(h) && h < 0 && h != f
    ensures InTable(t, r.heads, p) && Hi(t, r.heads, p).low != LinkLow(h)
  {
    var order := r.lists[f];
    var j := Position(order, p);
    RingOf(t, r, {}, f);
    HopAt(t, r.heads, f, order, j + 1);
    if j + 1 < |order| {
      MembersAreUnits(r, f, j + 1);
    }
  }

  lemma ForeignFirst(t: Table, hp: Heap, h: int, f: int, u: int, t': Table, r: Heap)
    requires Encodes(t, hp) && h in hp.lists && f in hp.lists && f != h && u in hp.lists[f] && OthersKept(hp, r, u)
    requires Takes(t, hp.heads, h, u, t') && Position(hp.lists[f], u) == 0
    ensures !Encodes(t', r)
  {
    ForeignLinks(t, hp, h, f, u);
    TakeWrites(t, hp.heads, h, u, t');
    SameHeads(hp, r, u);
    hide Takes, EncodesBut, OthersKept;
    UsedOnList(t', hp, f, u, f, r);
  }

  lemma ForeignLast(t: Table, hp: Heap, h: int, f: int, u: int, t': Table, r: Heap)
    requires Encodes(t, hp) && h in hp.lists && f in hp.lists && f != h && u in hp.lists[f] && OthersKept(hp, r, u)
    requires Takes(t, hp.heads, h, u, t') && 0 < Position(hp.lists[f], u) == |hp.lists[f]| - 1
    ensures !Encodes(t', r)
  {
    ForeignLinks(t, hp, h, f, u);
    TakeWrites(t, hp.heads, h, u, t');
    var p := hp.lists[f][|hp.lists[f]| - 2];
    HeadIsNegative(t, hp, h);
    assert r.heads == hp.heads && p in r.blocks && r.blocks[p].status == FreeOn(f);
    hide Takes, OthersKept;
    if Encodes(t', r) {
      assert IsHead(r, f);
      RingStaysHome(t', r, f, p, h);
    }
  }

  lemma HeadIsNegative(t: Table, hp: Heap, h: int)
    requires Encodes(t, hp) && h in hp.lists
    ensures h < 0
  {
    assert IsHead(hp, h);
  }

  lemma ForeignInner(t: Table, hp: Heap, h: int, f: int, u: int, t': Table)
    requires Encodes(t, hp) && f in hp.lists && u in hp.lists[f] && u in hp.blocks
    requires Takes(t, hp.heads, h, u, t') && 0 < Position(hp.lists[f], u) < |hp.lists[f]| - 1
    ensures Encodes(t', Delist(hp, f, u)) && OthersKept(hp, Delist(hp, f, u), u)
  {
    ForeignLinks(t, hp, h, f, u);
    ForeignLinks(t, hp, f, f, u);
    assert IsHead(hp, f);
    RingOf(t, hp, {}, f);
    assert Takes(t, hp.heads, f, u, t');
    hide Takes, EncodesBut;
    Skip(t, hp, {}, {u});
    PositiveTake(t, hp, f, u, t');
  }

  /**
   Taking a whole block through a head on whose list it is not leaves an encoding in which the other blocks are as
   they were exactly if the block is neither first nor last on its own list.
   */
  lemma TakeNeedsOwnList(t: Table, hp: Heap, h: int, f: int, u: int, t': Table)
    requires Encodes(t, hp) && h in hp.lists && f in hp.lists && f != h && u in hp.lists[f] && u in hp.blocks
    requires Takes(t, hp.heads, h, u, t')
    ensures (exists r :: OthersKept(hp, r, u) && Encodes(t', r)) <==> 0 < Position(hp.lists[f], u) < |hp.lists[f]| - 1
  {
    hide Takes, EncodesBut, OthersKept;
    if 0 < Position(hp.lists[f], u) < |hp.lists[f]| - 1 {
      ForeignInner(t, hp, h, f, u, t');
    } else {
      forall r | OthersKept(hp, r, u)
        ensures !Encodes(t', r)
      {
        if Position(hp.lists[f], u) == 0 {
          ForeignFirst(t, hp, h, f, u, t', r);
        } else {
          ForeignLast(t, hp, h, f, u, t', r);
        }
      }
    }
  }
}
