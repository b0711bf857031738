/**
 When a table is a faithful encoding of a heap, and that each group of writes of
 src/util/freelist.rs turns an encoding of one heap into an encoding of the next.
 Entries inside a block are never mentioned beyond its two size tags and its two free
 flags: whatever stale flags, sizes and links lie there do not matter.
 */
module FreeListEncoding {
  import opened PackedWord
  import opened FreeListTable
  import opened FreeListModel

  // ---------- the encoding ----------

  ghost predicate SizeTags(t: Table, k: nat, s: int, z: int) {
    && 1 <= z < LOW_RANGE && InTable(t, k, s) && InTable(t, k, s + z - 1)
    && (Hi(t, k, s).top <==> z > 1)
    && (z > 1 ==> Hi(t, k, s + 1) == Word(true, false, z) && Hi(t, k, s + z - 1) == Word(true, false, z))
  }

  ghost predicate FreeTags(t: Table, k: nat, s: int, z: int, free: bool) {
    && InTable(t, k, s) && InTable(t, k, s + z - 1)
    && Lo(t, k, s).top == free && Lo(t, k, s + z - 1).top == free
  }

  /** Both ends of every block carry its size. */
  ghost predicate Sized(t: Table, hp: Heap) {
    forall s :: s in hp.blocks ==> SizeTags(t, hp.heads, s, hp.blocks[s].size)
  }

  /** Both ends of every block, except those in `skip`, say whether it is free. */
  ghost predicate Flagged(t: Table, hp: Heap, skip: set<int>) {
    forall s :: s in hp.blocks && s !in skip ==>
      FreeTags(t, hp.heads, s, hp.blocks[s].size, hp.blocks[s].status.FreeOn?)
  }

  ghost predicate Fenced(t: Table, hp: Heap) {
    && (forall u :: u in hp.fences ==> 0 <= u <= hp.units)
    && InTable(t, hp.heads, hp.units)
    && (forall u {:trigger u in hp.fences} {:trigger Lo(t, hp.heads, u)} :: 0 <= u <= hp.units ==>
          (u in hp.fences <==> Lo(t, hp.heads, u).second))
  }

  /** The heads before the first unit and the sentinel after the last one look like used single units. */
  ghost predicate Guarded(t: Table, hp: Heap) {
    forall u :: IsHead(hp, u) || u == hp.units ==>
      InTable(t, hp.heads, u) && !Lo(t, hp.heads, u).top && !Hi(t, hp.heads, u).top
  }

  /** Entries beyond the bottom sentinel have never been written. */
  ghost predicate Blank(t: Table, hp: Heap) {
    forall u {:trigger Lo(t, hp.heads, u)} {:trigger Hi(t, hp.heads, u)} :: hp.units < u && InTable(t, hp.heads, u) ==>
      Lo(t, hp.heads, u) == ZERO && Hi(t, hp.heads, u) == ZERO
  }

  /** Position `i` of the ring that starts at the head, visits the list and returns to the head. */
  function Node(h: int, order: seq<int>, i: int): int
    requires 0 <= i <= |order| + 1
  {
    if i == 0 || i == |order| + 1 then h else order[i - 1]
  }

  ghost predicate Chain(t: Table, k: nat, a: int, b: int) {
    && InTable(t, k, a) && InTable(t, k, b) && IsLink(a) && IsLink(b)
    && Hi(t, k, a).low == LinkLow(b) && Lo(t, k, b).low == LinkLow(a)
  }

  ghost predicate Hop(t: Table, k: nat, h: int, order: seq<int>, i: int)
    requires 0 <= i <= |order|
  {
    Chain(t, k, Node(h, order, i), Node(h, order, i + 1))
  }

  /** The stored links run once around the ring, `prev` inverse to `next`. */
  ghost predicate Linked(t: Table, k: nat, h: int, order: seq<int>) {
    forall i {:trigger Hop(t, k, h, order, i)} :: 0 <= i <= |order| ==> Hop(t, k, h, order, i)
  }

  ghost predicate AllLinked(t: Table, hp: Heap) {
    forall h :: h in hp.lists ==> Linked(t, hp.heads, h, hp.lists[h])
  }

  ghost predicate Tagged(t: Table, hp: Heap, skip: set<int>) {
    Sized(t, hp) && Flagged(t, hp, skip) && Fenced(t, hp) && Guarded(t, hp) && Blank(t, hp)
  }

  /** `t` encodes `hp`, except that the free flags of the blocks in `skip` may be wrong. */
  ghost predicate EncodesBut(t: Table, hp: Heap, skip: set<int>) {
    && ValidHeap(hp) && InTable(t, hp.heads, hp.units)
    && Tagged(t, hp, skip) && AllLinked(t, hp)
  }

  ghost predicate Encodes(t: Table, hp: Heap) {
    EncodesBut(t, hp, {})
  }

  // ---------- rings ----------

  /** The nodes of a ring: a head, and list members that are distinct units. */
  ghost predicate Ring(t: Table, k: nat, h: int, order: seq<int>) {
    && h < 0 && Distinct(order) && (forall j :: 0 <= j < |order| ==> 0 <= order[j]) && Linked(t, k, h, order)
  }

  lemma HopAt(t: Table, k: nat, h: int, order: seq<int>, i: int)
    requires Linked(t, k, h, order) && 0 <= i <= |order|
    ensures Chain(t, k, Node(h, order, i), Node(h, order, i + 1))
  {
    assert Hop(t, k, h, order, i);
  }

  lemma LinkedFrame(t: Table, t': Table, k: nat, h: int, order: seq<int>)
    requires Linked(t, k, h, order) && |t'| == |t|
    requires forall u :: (u == h || u in order) && InTable(t, k, u) ==>
      Hi(t', k, u).low == Hi(t, k, u).low && Lo(t', k, u).low == Lo(t, k, u).low
    ensures Linked(t', k, h, order)
  {
    forall i | 0 <= i <= |order|
      ensures Hop(t', k, h, order, i)
    {
      HopAt(t, k, h, order, i);
    }
  }

  lemma ReadRing(t: Table, k: nat, h: int, order: seq<int>, i: int)
    requires Ring(t, k, h, order) && 0 <= i <= |order|
    ensures InTable(t, k, Node(h, order, i)) && Next(t, k, h, Node(h, order, i)) == Node(h, order, i + 1)
    ensures InTable(t, k, Node(h, order, i + 1)) && Prev(t, k, h, Node(h, order, i + 1)) == Node(h, order, i)
  {
    HopAt(t, k, h, order, i);
    LinkDecodes(Node(h, order, i));
    LinkDecodes(Node(h, order, i + 1));
  }

  lemma LinkFirstRing(t: Table, k: nat, h: int, order: seq<int>, u: int)
    requires Ring(t, k, h, order) && u !in order && 0 <= u
    requires InTable(t, k, u) && IsLink(u) && IsLink(h) && InTable(t, k, h)
    ensures InTable(t, k, Next(t, k, h, h))
    ensures Linked(LinkFirst(t, k, h, u), k, h, [u] + order)
  {
    ReadRing(t, k, h, order, 0);
    var next := Node(h, order, 1);
    var t' := LinkFirst(t, k, h, u);
    var order' := [u] + order;
    forall i | 0 <= i <= |order'|
      ensures Hop(t', k, h, order', i)
    {
      if i == 0 {
        HopAt(t, k, h, order, 0);
      } else {
        HopAt(t, k, h, order, i - 1);
        assert Node(h, order', i + 1) == Node(h, order, i);
        if i > 1 {
          assert Node(h, order', i) == Node(h, order, i - 1) == order[i - 2];
          assert Node(h, order, i) != next;
        }
      }
    }
  }

  lemma UnlinkRing(t: Table, k: nat, h: int, order: seq<int>, p: int)
    requires Ring(t, k, h, order) && 0 <= p < |order| && IsLink(h)
    ensures InTable(t, k, order[p])
    ensures InTable(t, k, Next(t, k, h, order[p])) && InTable(t, k, Prev(t, k, h, order[p]))
    ensures Next(t, k, h, order[p]) == Node(h, order, p + 2) && Prev(t, k, h, order[p]) == Node(h, order, p)
    ensures Linked(Unlink(t, k, h, order[p]), k, h, order[..p] + order[p + 1..])
  {
    ReadRing(t, k, h, order, p);
    ReadRing(t, k, h, order, p + 1);
    HopAt(t, k, h, order, p);
    HopAt(t, k, h, order, p + 1);
    var prev, next := Node(h, order, p), Node(h, order, p + 2);
    var t' := Unlink(t, k, h, order[p]);
    var order' := order[..p] + order[p + 1..];
    forall i | 0 <= i <= |order'|
      ensures Hop(t', k, h, order', i)
    {
      if i < p {
        HopAt(t, k, h, order, i);
        assert Node(h, order', i) == Node(h, order, i) != prev;
        assert Node(h, order', i + 1) == Node(h, order, i + 1) != next;
      } else if i == p {
        assert Node(h, order', i) == prev && Node(h, order', i + 1) == next;
      } else {
        HopAt(t, k, h, order, i + 1);
        assert Node(h, order', i) == Node(h, order, i + 1) != prev;
        assert Node(h, order', i + 1) == Node(h, order, i + 2) != next;
      }
    }
  }

  // ---------- changes to links only ----------

  /** The two tables differ at most in the links of heads and of block starts. */
  ghost predicate LinksOnly(t: Table, t': Table, hp: Heap) {
    && |t'| == |t|
    && (forall u {:trigger Hi(t', hp.heads, u)} :: InTable(t, hp.heads, u) ==>
          && Hi(t', hp.heads, u).top == Hi(t, hp.heads, u).top
          && (!IsHead(hp, u) && u !in hp.blocks ==> Hi(t', hp.heads, u) == Hi(t, hp.heads, u)))
    && (forall u {:trigger Lo(t', hp.heads, u)} :: InTable(t, hp.heads, u) ==>
          && Lo(t', hp.heads, u).top == Lo(t, hp.heads, u).top
          && Lo(t', hp.heads, u).second == Lo(t, hp.heads, u).second
          && (!IsHead(hp, u) && u !in hp.blocks ==> Lo(t', hp.heads, u) == Lo(t, hp.heads, u)))
  }

  lemma InsideNotStart(hp: Heap, s: int, u: int)
    requires Tiled(hp.blocks, hp.units) && s in hp.blocks && s < u < s + hp.blocks[s].size
    ensures u !in hp.blocks && !IsHead(hp, u) && u < hp.units
  {
  }

  lemma LinksOnlyKeepsSizes(t: Table, t': Table, hp: Heap)
    requires Tiled(hp.blocks, hp.units) && Sized(t, hp) && LinksOnly(t, t', hp)
    ensures Sized(t', hp)
  {
    forall s | s in hp.blocks
      ensures SizeTags(t', hp.heads, s, hp.blocks[s].size)
    {
      var z := hp.blocks[s].size;
      assert SizeTags(t, hp.heads, s, z);
      if z > 1 {
        InsideNotStart(hp, s, s + 1);
        InsideNotStart(hp, s, s + z - 1);
      }
    }
  }

  lemma LinksOnlyKeepsTags(t: Table, t': Table, hp: Heap, skip: set<int>)
    requires Tiled(hp.blocks, hp.units) && Tagged(t, hp, skip) && LinksOnly(t, t', hp)
    ensures Tagged(t', hp, skip)
  {
    LinksOnlyKeepsSizes(t, t', hp);
  }

  lemma EncodesValid(t: Table, hp: Heap, skip: set<int>)
    requires EncodesBut(t, hp, skip)
    ensures ValidHeap(hp) && InTable(t, hp.heads, hp.units)
  {
  }

  lemma SizeIsRead(t: Table, hp: Heap, skip: set<int>, u: int)
    requires EncodesBut(t, hp, skip) && u in hp.blocks
    ensures InTable(t, hp.heads, u) && (Hi(t, hp.heads, u).top ==> InTable(t, hp.heads, u + 1))
    ensures Size(t, hp.heads, u) == hp.blocks[u].size >= 1
  {
    assert SizeTags(t, hp.heads, u, hp.blocks[u].size);
  }

  lemma FlagIsRead(t: Table, hp: Heap, skip: set<int>, u: int)
    requires EncodesBut(t, hp, skip) && u in hp.blocks && u !in skip
    ensures InTable(t, hp.heads, u) && Lo(t, hp.heads, u).top == hp.blocks[u].status.FreeOn?
  {
    assert FreeTags(t, hp.heads, u, hp.blocks[u].size, hp.blocks[u].status.FreeOn?);
  }

  /** A node of the ring that is not the head is a free block of the list. */
  lemma NodeCase(hp: Heap, h: int, i: int)
    requires ValidHeap(hp) && h in hp.lists && 0 <= i <= |hp.lists[h]| + 1
    ensures var u := Node(h, hp.lists[h], i);
      if u == h then
        i == 0 || i == |hp.lists[h]| + 1
      else
        && 1 <= i <= |hp.lists[h]| && u == hp.lists[h][i - 1]
        && 0 <= u && u in hp.blocks && hp.blocks[u].status == FreeOn(h)
  {
    assert IsHead(hp, h);
    if 1 <= i <= |hp.lists[h]| {
      MembersAreUnits(hp, h, i - 1);
    }
  }

  lemma RingOf(t: Table, hp: Heap, skip: set<int>, h: int)
    requires EncodesBut(t, hp, skip) && h in hp.lists
    ensures Ring(t, hp.heads, h, hp.lists[h]) && IsLink(h) && InTable(t, hp.heads, h)
  {
    assert IsHead(hp, h);
    forall j | 0 <= j < |hp.lists[h]|
      ensures 0 <= hp.lists[h][j]
    {
      MembersAreUnits(hp, h, j);
    }
  }

  // ---------- frames ----------

  ghost predicate SameHi(t: Table, t': Table, k: nat) {
    |t'| == |t| && forall v {:trigger Hi(t', k, v)} :: InTable(t, k, v) ==> Hi(t', k, v) == Hi(t, k, v)
  }

  lemma SizedFrame(t: Table, t': Table, hp: Heap)
    requires Sized(t, hp) && SameHi(t, t', hp.heads)
    ensures Sized(t', hp)
  {
    forall s | s in hp.blocks
      ensures SizeTags(t', hp.heads, s, hp.blocks[s].size)
    {
      assert SizeTags(t, hp.heads, s, hp.blocks[s].size);
    }
  }

  /** A table encodes the tags of any heap with the same sizes, if the changed statuses are skipped. */
  lemma TaggedSame(t: Table, hp: Heap, hp': Heap, skip: set<int>)
    requires Tagged(t, hp, skip) && hp'.heads == hp.heads && hp'.units == hp.units && hp'.fences == hp.fences
    requires hp'.blocks.Keys == hp.blocks.Keys
    requires forall s :: s in hp.blocks ==> hp'.blocks[s].size == hp.blocks[s].size
    requires forall s :: s in hp.blocks && s !in skip ==> hp'.blocks[s].status == hp.blocks[s].status
    ensures Tagged(t, hp', skip)
  {
    forall s | s in hp'.blocks
      ensures s in hp.blocks && SizeTags(t, hp.heads, s, hp'.blocks[s].size)
    {
      assert s in hp.blocks.Keys;
    }
  }

  lemma AllLinkedFrame(t: Table, t': Table, hp: Heap)
    requires AllLinked(t, hp) && |t'| == |t|
    requires forall v {:trigger Hi(t', hp.heads, v)} {:trigger Lo(t', hp.heads, v)} :: InTable(t, hp.heads, v) ==>
      Hi(t', hp.heads, v).low == Hi(t, hp.heads, v).low && Lo(t', hp.heads, v).low == Lo(t, hp.heads, v).low
    ensures AllLinked(t', hp)
  {
    forall h | h in hp.lists
      ensures Linked(t', hp.heads, h, hp.lists[h])
    {
      LinkedFrame(t, t', hp.heads, h, hp.lists[h]);
    }
  }

  // ---------- set_free ----------

  lemma SetFreeFlags(t: Table, hp: Heap, skip: set<int>, u: int, t': Table)
    requires Tiled(hp.blocks, hp.units) && Flagged(t, hp, skip) && u in hp.blocks && |t'| == |t|
    requires forall v :: InTable(t, hp.heads, v) && v != u && v != u + hp.blocks[u].size - 1 ==>
      Lo(t', hp.heads, v) == Lo(t, hp.heads, v)
    ensures Flagged(t', hp, skip + {u})
  {
    forall s | s in hp.blocks && s !in skip + {u}
      ensures FreeTags(t', hp.heads, s, hp.blocks[s].size, hp.blocks[s].status.FreeOn?)
    {
      assert FreeTags(t, hp.heads, s, hp.blocks[s].size, hp.blocks[s].status.FreeOn?);
      assert s < u || u + hp.blocks[u].size <= s;
    }
  }

  lemma GuardedAfterFree(t: Table, hp: Heap, u: int, t': Table)
    requires Tiled(hp.blocks, hp.units) && Guarded(t, hp) && u in hp.blocks && SameHi(t, t', hp.heads)
    requires forall v :: InTable(t, hp.heads, v) && v != u && v != u + hp.blocks[u].size - 1 ==>
      Lo(t', hp.heads, v) == Lo(t, hp.heads, v)
    ensures Guarded(t', hp)
    ensures Blank(t, hp) ==> Blank(t', hp)
  {
  }

  /** set_free touches the free flags of one block and nothing else. */
  lemma SetFreeEncodes(t: Table, hp: Heap, skip: set<int>, u: int, free: bool)
    requires EncodesBut(t, hp, skip) && u in hp.blocks
    ensures CanSetFree(t, hp.heads, u)
    ensures EncodesBut(SetFree(t, hp.heads, u, free), hp, skip + {u})
    ensures FreeTags(SetFree(t, hp.heads, u, free), hp.heads, u, hp.blocks[u].size, free)
  {
    var k, z := hp.heads, hp.blocks[u].size;
    assert SizeTags(t, k, u, z);
    assert Size(t, k, u) == z;
    var t' := SetFree(t, k, u, free);
    SetFreeFlags(t, hp, skip, u, t');
    SizedFrame(t, t', hp);
    GuardedAfterFree(t, hp, u, t');
    AllLinkedFrame(t, t', hp);
    assert Fenced(t', hp);
  }

  lemma Unskip(t: Table, hp: Heap, skip: set<int>, u: int)
    requires EncodesBut(t, hp, skip + {u}) && u in hp.blocks
    requires FreeTags(t, hp.heads, u, hp.blocks[u].size, hp.blocks[u].status.FreeOn?)
    ensures EncodesBut(t, hp, skip)
  {
  }

  lemma Skip(t: Table, hp: Heap, skip: set<int>, skip': set<int>)
    requires EncodesBut(t, hp, skip) && skip <= skip'
    ensures EncodesBut(t, hp, skip')
  {
  }

  lemma DropSkip(t: Table, hp: Heap, skip: set<int>, skip': set<int>)
    requires EncodesBut(t, hp, skip) && forall s :: s in skip && s !in skip' ==> s !in hp.blocks
    ensures EncodesBut(t, hp, skip')
  {
  }

  // ---------- add_to_free ----------

  lemma OtherListsApart(hp: Heap, h: int, g: int, v: int)
    requires ValidHeap(hp) && h in hp.lists && g in hp.lists && g != h && v in hp.lists[g]
    ensures v !in hp.lists[h] && v != h && v != g
  {
    assert IsHead(hp, h) && IsHead(hp, g);
  }

  /** Link changes at nodes of the ring of `h` and at used blocks leave the other rings alone. */
  lemma OtherRings(t: Table, t': Table, hp: Heap, hp': Heap, h: int, u: int)
    requires ValidHeap(hp) && AllLinked(t, hp) && h in hp.lists && |t'| == |t|
    requires u in hp.blocks && (hp.blocks[u].status == FreeOn(h) || hp.blocks[u].status.Used?)
    requires forall v :: InTable(t, hp.heads, v) && v != h && v != u && v !in hp.lists[h] ==>
      Hi(t', hp.heads, v).low == Hi(t, hp.heads, v).low && Lo(t', hp.heads, v).low == Lo(t, hp.heads, v).low
    requires hp'.heads == hp.heads && hp'.lists.Keys == hp.lists.Keys
    requires forall g :: g in hp.lists && g != h ==> hp'.lists[g] == hp.lists[g]
    requires Linked(t', hp.heads, h, hp'.lists[h])
    ensures AllLinked(t', hp')
  {
    forall g | g in hp'.lists
      ensures Linked(t', hp.heads, g, hp'.lists[g])
    {
      assert g in hp'.lists.Keys;
      if g != h {
        forall v | v == g || v in hp.lists[g]
          ensures v != h && v != u && v !in hp.lists[h]
        {
          assert IsHead(hp, g);
          if v in hp.lists[g] {
            OtherListsApart(hp, h, g, v);
          }
        }
        LinkedFrame(t, t', hp.heads, g, hp.lists[g]);
      }
    }
  }

  /** `t'` differs from `t` at most in the links of `a`, `b` and `c`. */
  ghost predicate LinksAt(t: Table, t': Table, k: nat, a: int, b: int, c: int) {
    && |t'| == |t|
    && (forall v {:trigger Hi(t', k, v)} :: InTable(t, k, v) ==>
          Hi(t', k, v).top == Hi(t, k, v).top && (v != a && v != b && v != c ==> Hi(t', k, v) == Hi(t, k, v)))
    && (forall v {:trigger Lo(t', k, v)} :: InTable(t, k, v) ==>
          && Lo(t', k, v).top == Lo(t, k, v).top && Lo(t', k, v).second == Lo(t, k, v).second
          && (v != a && v != b && v != c ==> Lo(t', k, v) == Lo(t, k, v)))
  }

  ghost predicate SameFlags(t: Table, t': Table, k: nat) {
    |t'| == |t| && forall v {:trigger Lo(t', k, v)} :: InTable(t, k, v) ==> Lo(t', k, v).top == Lo(t, k, v).top
  }

  lemma LinkFirstAt(t: Table, k: nat, h: int, u: int)
    requires CanLinkFirst(t, k, h, u)
    ensures LinksAt(t, LinkFirst(t, k, h, u), k, h, u, Next(t, k, h, h))
  {
  }

  lemma UnlinkAt(t: Table, k: nat, h: int, u: int)
    requires CanUnlink(t, k, h, u)
    ensures LinksAt(t, Unlink(t, k, h, u), k, u, Prev(t, k, h, u), Next(t, k, h, u))
  {
  }

  ghost predicate OnRing(hp: Heap, h: int, v: int)
    requires h in hp.lists
  {
    v == h || v in hp.lists[h]
  }

  /** A change of links around the ring of `h` and at `u` keeps all tags and all other rings. */
  lemma RingChange(t: Table, t': Table, hp: Heap, hp': Heap, skip: set<int>, h: int, u: int, a: int, b: int)
    requires EncodesBut(t, hp, skip) && h in hp.lists && u in skip
    requires u in hp.blocks && (hp.blocks[u].status == FreeOn(h) || hp.blocks[u].status.Used?)
    requires OnRing(hp, h, a) && OnRing(hp, h, b) && LinksAt(t, t', hp.heads, a, u, b)
    requires ValidHeap(hp') && hp'.heads == hp.heads && hp'.units == hp.units && hp'.fences == hp.fences
    requires hp'.blocks.Keys == hp.blocks.Keys && hp'.lists.Keys == hp.lists.Keys
    requires forall s :: s in hp.blocks ==> hp'.blocks[s].size == hp.blocks[s].size
    requires forall s :: s in hp.blocks && s != u ==> hp'.blocks[s] == hp.blocks[s]
    requires forall g :: g in hp.lists && g != h ==> hp'.lists[g] == hp.lists[g]
    requires Linked(t', hp.heads, h, hp'.lists[h])
    ensures EncodesBut(t', hp', skip)
  {
    OtherRings(t, t', hp, hp', h, u);
    LinksAreLinksOnly(t, t', hp, h, u, a, b);
    LinksOnlyKeepsTags(t, t', hp, skip);
    TaggedSame(t', hp, hp', skip);
  }

  lemma LinksAreLinksOnly(t: Table, t': Table, hp: Heap, h: int, u: int, a: int, b: int)
    requires Threaded(hp) && h in hp.lists && u in hp.blocks
    requires OnRing(hp, h, a) && OnRing(hp, h, b) && LinksAt(t, t', hp.heads, a, u, b)
    ensures LinksOnly(t, t', hp)
  {
    assert IsHead(hp, h);
    assert IsHead(hp, a) || a in hp.blocks;
    assert IsHead(hp, b) || b in hp.blocks;
  }

  /** The links of the list of `h` after `u` is put in front; the flags are set beforehand. */
  lemma LinkFirstEncodes(t: Table, hp: Heap, skip: set<int>, h: int, u: int)
    requires EncodesBut(t, hp, skip) && h in hp.lists && u in hp.blocks && hp.blocks[u].status.Used? && u in skip
    ensures CanLinkFirst(t, hp.heads, h, u)
    ensures EncodesBut(LinkFirst(t, hp.heads, h, u), Enlist(hp, h, u), skip)
  {
    var k, order := hp.heads, hp.lists[h];
    RingOf(t, hp, skip, h);
    assert SizeTags(t, k, u, hp.blocks[u].size);
    LinkFirstRing(t, k, h, order, u);
    LinkFirstAt(t, k, h, u);
    ReadRing(t, k, h, order, 0);
    EnlistValid(hp, h, u);
    RingChange(t, LinkFirst(t, k, h, u), hp, Enlist(hp, h, u), skip, h, u, h, Node(h, order, 1));
  }

  predicate CanAddToFree(t: Table, k: nat, h: int, u: int) {
    CanSetFree(t, k, u) && CanLinkFirst(SetFree(t, k, u, true), k, h, u)
  }

  /** The whole of add_to_free. */
  function AddToFree(t: Table, k: nat, h: int, u: int): (r: Table)
    requires CanAddToFree(t, k, h, u)
    ensures |r| == |t|
  {
    LinkFirst(SetFree(t, k, u, true), k, h, u)
  }

  lemma AddToFreeEncodes(t: Table, hp: Heap, skip: set<int>, h: int, u: int)
    requires EncodesBut(t, hp, skip) && h in hp.lists && u in hp.blocks && hp.blocks[u].status.Used?
    ensures CanAddToFree(t, hp.heads, h, u)
    ensures EncodesBut(AddToFree(t, hp.heads, h, u), Enlist(hp, h, u), skip - {u})
  {
    var k := hp.heads;
    SetFreeEncodes(t, hp, skip, u, true);
    var t1 := SetFree(t, k, u, true);
    LinkFirstEncodes(t1, hp, skip + {u}, h, u);
    LinkFirstAt(t1, k, h, u);
    assert (skip - {u}) + {u} == skip + {u};
    Unskip(LinkFirst(t1, k, h, u), Enlist(hp, h, u), skip - {u}, u);
  }

  // ---------- __remove_from_free ----------

  lemma UnlinkEncodes(t: Table, hp: Heap, skip: set<int>, h: int, u: int)
    requires EncodesBut(t, hp, skip) && h in hp.lists && u in hp.lists[h] && u in skip
    ensures CanUnlink(t, hp.heads, h, u)
    ensures EncodesBut(Unlink(t, hp.heads, h, u), Delist(hp, h, u), skip)
  {
    var k, order, p := hp.heads, hp.lists[h], Position(hp.lists[h], u);
    RingOf(t, hp, skip, h);
    UnlinkRing(t, k, h, order, p);
    UnlinkAt(t, k, h, u);
    DelistValid(hp, h, u);
    RingChange(t, Unlink(t, k, h, u), hp, Delist(hp, h, u), skip, h, u, Node(h, order, p), Node(h, order, p + 2));
  }

  // ---------- set_size ----------

  /** Only the size tags between `a` and `b` differ; links outside are kept, as is the link of `a`. */
  ghost predicate TagsWithin(t: Table, t': Table, k: nat, a: int, b: int) {
    && |t'| == |t|
    && (forall v {:trigger Lo(t', k, v)} :: InTable(t, k, v) ==> Lo(t', k, v) == Lo(t, k, v))
    && (forall v {:trigger Hi(t', k, v)} :: InTable(t, k, v) && !(a <= v < b) ==> Hi(t', k, v) == Hi(t, k, v))
    && (InTable(t, k, a) ==> Hi(t', k, a).low == Hi(t, k, a).low)
  }

  lemma SetSizeTags(t: Table, k: nat, u: int, size: int)
    requires CanSetSize(t, k, u, size)
    ensures TagsWithin(t, SetSize(t, k, u, size), k, u, u + size)
    ensures SizeTags(SetSize(t, k, u, size), k, u, size)
  {
    assert |SetSize(t, k, u, size)| == |t|;
  }

  /** `hp'` has the blocks of `hp` outside `[a, b)`; those inside are skipped and only the first may be free. */
  ghost predicate Reshaped(hp: Heap, hp': Heap, skip: set<int>, a: int, b: int) {
    && hp'.heads == hp.heads && hp'.units == hp.units && hp'.fences == hp.fences && hp'.lists == hp.lists
    && 0 <= a && b <= hp.units && a in hp'.blocks
    && (forall s :: s in hp'.blocks && !(a <= s < b) ==> s in hp.blocks && hp'.blocks[s] == hp.blocks[s])
    && (forall s :: s in hp'.blocks && a <= s < b ==> s in skip)
    && (forall s :: s in hp'.blocks && a < s < b ==> hp'.blocks[s].status.Used?)
  }

  /** A change of size tags inside `[a, b)` keeps everything that lies outside it. */
  lemma SizeChange(t: Table, t': Table, hp: Heap, hp': Heap, skip: set<int>, a: int, b: int)
    requires EncodesBut(t, hp, skip) && ValidHeap(hp')
    requires TagsWithin(t, t', hp.heads, a, b) && Reshaped(hp, hp', skip, a, b)
    requires forall s :: s in hp'.blocks && a <= s < b ==> SizeTags(t', hp.heads, s, hp'.blocks[s].size)
    ensures EncodesBut(t', hp', skip)
  {
    SizeChangeTags(t, t', hp, hp', skip, a, b);
    SizeChangeLinks(t, t', hp, hp', skip, a, b);
  }

  lemma SizeChangeLinks(t: Table, t': Table, hp: Heap, hp': Heap, skip: set<int>, a: int, b: int)
    requires ValidHeap(hp') && AllLinked(t, hp)
    requires TagsWithin(t, t', hp.heads, a, b) && Reshaped(hp, hp', skip, a, b)
    ensures AllLinked(t', hp')
  {
    forall h | h in hp.lists
      ensures Linked(t', hp.heads, h, hp.lists[h])
    {
      assert IsHead(hp', h);
      forall v | v == h || v in hp'.lists[h]
        ensures v == a || !(a <= v < b)
      {
      }
      LinkedFrame(t, t', hp.heads, h, hp.lists[h]);
    }
  }

  lemma SizeChangeSizes(t: Table, t': Table, hp: Heap, hp': Heap, a: int, b: int)
    requires Sized(t, hp) && TagsWithin(t, t', hp.heads, a, b)
    requires Tiled(hp'.blocks, hp'.units) && hp'.heads == hp.heads && a in hp'.blocks
    requires forall s :: s in hp'.blocks && !(a <= s < b) ==> s in hp.blocks && hp'.blocks[s] == hp.blocks[s]
    requires forall s :: s in hp'.blocks && a <= s < b ==> SizeTags(t', hp.heads, s, hp'.blocks[s].size)
    ensures Sized(t', hp')
  {
    forall s | s in hp'.blocks
      ensures SizeTags(t', hp.heads, s, hp'.blocks[s].size)
    {
      if !(a <= s < b) {
        assert SizeTags(t, hp.heads, s, hp.blocks[s].size);
        assert s < a ==> s + hp'.blocks[s].size <= a;
      }
    }
  }

  lemma SizeChangeFlags(t: Table, t': Table, hp: Heap, hp': Heap, skip: set<int>)
    requires Flagged(t, hp, skip) && hp'.heads == hp.heads && |t'| == |t|
    requires forall v {:trigger Lo(t', hp.heads, v)} :: InTable(t, hp.heads, v) ==>
      Lo(t', hp.heads, v) == Lo(t, hp.heads, v)
    requires forall s :: s in hp'.blocks && s !in skip ==> s in hp.blocks && hp'.blocks[s] == hp.blocks[s]
    ensures Flagged(t', hp', skip)
  {
  }

  lemma SizeChangeTags(t: Table, t': Table, hp: Heap, hp': Heap, skip: set<int>, a: int, b: int)
    requires Tagged(t, hp, skip) && Tiled(hp'.blocks, hp'.units)
    requires TagsWithin(t, t', hp.heads, a, b) && Reshaped(hp, hp', skip, a, b)
    requires forall s :: s in hp'.blocks && a <= s < b ==> SizeTags(t', hp.heads, s, hp'.blocks[s].size)
    ensures Tagged(t', hp', skip)
  {
    SizeChangeSizes(t, t', hp, hp', a, b);
    SizeChangeFlags(t, t', hp, hp', skip);
    assert Guarded(t', hp');
    assert Fenced(t', hp');
  }

  predicate CanSplitSizes(t: Table, k: nat, u: int, size: int, rest: int) {
    CanSetSize(t, k, u, size) && CanSetSize(SetSize(t, k, u, size), k, u + size, rest)
  }

  /** __split up to its add_to_free: the block at `u` keeps its place in its list. */
  function SplitSizes(t: Table, k: nat, u: int, size: int, rest: int): Table
    requires CanSplitSizes(t, k, u, size, rest)
  {
    SetSize(SetSize(t, k, u, size), k, u + size, rest)
  }

  lemma SplitSizeTags(t: Table, k: nat, u: int, size: int, rest: int)
    requires SizeTags(t, k, u, size + rest) && 0 < size && 0 < rest
    ensures CanSplitSizes(t, k, u, size, rest)
    ensures TagsWithin(t, SplitSizes(t, k, u, size, rest), k, u, u + size + rest)
    ensures SizeTags(SplitSizes(t, k, u, size, rest), k, u, size)
    ensures SizeTags(SplitSizes(t, k, u, size, rest), k, u + size, rest)
  {
    SetSizeTags(t, k, u, size);
    var t1 := SetSize(t, k, u, size);
    SetSizeTags(t1, k, u + size, rest);
    SplitKeepsLeft(t1, SetSize(t1, k, u + size, rest), k, u, size, u + size + rest);
  }

  lemma SplitKeepsLeft(t: Table, t': Table, k: nat, u: int, size: int, e: int)
    requires SizeTags(t, k, u, size) && TagsWithin(t, t', k, u + size, e)
    ensures SizeTags(t', k, u, size)
  {
  }

  lemma SplitReshapes(hp: Heap, u: int, size: int, skip: set<int>)
    requires ValidHeap(hp) && u in hp.blocks && 0 < size < hp.blocks[u].size && {u, u + size} <= skip
    ensures Reshaped(hp, SplitBlock(hp, u, size), skip, u, u + hp.blocks[u].size)
    ensures forall s :: s in SplitBlock(hp, u, size).blocks && u <= s < u + hp.blocks[u].size ==>
      s == u || s == u + size
  {
  }

  lemma SplitRetagged(t: Table, t': Table, hp: Heap, skip: set<int>, u: int, size: int)
    requires EncodesBut(t, hp, skip) && u in hp.blocks && 0 < size < hp.blocks[u].size && {u, u + size} <= skip
    requires TagsWithin(t, t', hp.heads, u, u + hp.blocks[u].size)
    requires SizeTags(t', hp.heads, u, size) && SizeTags(t', hp.heads, u + size, hp.blocks[u].size - size)
    ensures EncodesBut(t', SplitBlock(hp, u, size), skip)
  {
    var hp' := SplitBlock(hp, u, size);
    hide SizeTags, TagsWithin, Reshaped, EncodesBut;
    EncodesValid(t, hp, skip);
    SplitValid(hp, u, size);
    SplitReshapes(hp, u, size, skip);
    assert hp'.blocks[u].size == size && hp'.blocks[u + size].size == hp.blocks[u].size - size;
    hide SplitBlock, ValidHeap;
    SizeChange(t, t', hp, hp', skip, u, u + hp.blocks[u].size);
  }

  lemma SplitEncodes(t: Table, hp: Heap, skip: set<int>, u: int, size: int)
    requires EncodesBut(t, hp, skip) && u in hp.blocks && 0 < size < hp.blocks[u].size && {u, u + size} <= skip
    ensures CanSplitSizes(t, hp.heads, u, size, hp.blocks[u].size - size)
    ensures EncodesBut(SplitSizes(t, hp.heads, u, size, hp.blocks[u].size - size), SplitBlock(hp, u, size), skip)
  {
    var z := hp.blocks[u].size;
    assert SizeTags(t, hp.heads, u, z);
    SplitSizeTags(t, hp.heads, u, size, z - size);
    SplitRetagged(t, SplitSizes(t, hp.heads, u, size, z - size), hp, skip, u, size);
  }

  lemma JoinReshapes(hp: Heap, start: int, total: int, skip: set<int>)
    requires ValidHeap(hp) && JoinsCleanly(hp, start, total) && start in skip
    ensures Reshaped(hp, JoinBlocks(hp, start, total), skip, start, start + total)
    ensures forall s :: s in JoinBlocks(hp, start, total).blocks && start <= s < start + total ==> s == start
  {
    assert start + total <= hp.units;
  }

  lemma JoinEncodes(t: Table, hp: Heap, skip: set<int>, start: int, total: int)
    requires EncodesBut(t, hp, skip) && JoinsCleanly(hp, start, total) && start in skip
    ensures CanSetSize(t, hp.heads, start, total)
    ensures EncodesBut(SetSize(t, hp.heads, start, total), JoinBlocks(hp, start, total), skip)
  {
    JoinReshapes(hp, start, total, skip);
    assert SizeTags(t, hp.heads, start, hp.blocks[start].size);
    SetSizeTags(t, hp.heads, start, total);
    JoinValid(hp, start, total);
    SizeChange(t, SetSize(t, hp.heads, start, total), hp, JoinBlocks(hp, start, total), skip, start, start + total);
  }

  // ---------- reads of free ----------

  /** get_left finds the block to the left from its last entry; the first unit finds a head that is not free. */
  lemma LeftIsRead(t: Table, hp: Heap, u: int)
    requires Encodes(t, hp) && u in hp.blocks
    ensures InTable(t, hp.heads, u) && InTable(t, hp.heads, u - 1)
    ensures var left := if Hi(t, hp.heads, u - 1).top then u - Hi(t, hp.heads, u - 1).low else u - 1;
      && InTable(t, hp.heads, left)
      && (!Lo(t, hp.heads, u).second && Lo(t, hp.heads, left).top <==> MergesLeft(hp, u))
      && (MergesLeft(hp, u) ==> left == LeftOf(hp.blocks, hp.units, u))
  {
    assert SizeTags(t, hp.heads, u, hp.blocks[u].size);
    if u == 0 {
      assert IsHead(hp, -1);
    } else {
      var l := LeftOf(hp.blocks, hp.units, u);
      assert SizeTags(t, hp.heads, l, hp.blocks[l].size);
      assert FreeTags(t, hp.heads, l, hp.blocks[l].size, hp.blocks[l].status.FreeOn?);
    }
  }

  lemma RightIsRead(t: Table, hp: Heap, u: int)
    requires Encodes(t, hp) && u in hp.blocks
    ensures InTable(t, hp.heads, EndOf(hp.blocks, u))
    ensures !Lo(t, hp.heads, EndOf(hp.blocks, u)).second && Lo(t, hp.heads, EndOf(hp.blocks, u)).top <==>
      MergesRight(hp, u)
  {
    var r := EndOf(hp.blocks, u);
    if r < hp.units {
      assert FreeTags(t, hp.heads, r, hp.blocks[r].size, hp.blocks[r].status.FreeOn?);
    }
  }

  // ---------- set_uncoalescable and clear_uncoalescable ----------

  lemma SetFenceEncodes(t: Table, hp: Heap, u: int, fenced: bool)
    requires Encodes(t, hp) && 0 <= u <= hp.units
    ensures InTable(t, hp.heads, u)
    ensures Encodes(SetFence(t, hp.heads, u, fenced),
      hp.(fences := if fenced then hp.fences + {u} else hp.fences - {u}))
  {
    var t' := SetFence(t, hp.heads, u, fenced);
    var hp' := hp.(fences := if fenced then hp.fences + {u} else hp.fences - {u});
    SizedFrame(t, t', hp);
    AllLinkedFrame(t, t', hp);
    assert ValidHeap(hp');
    assert Flagged(t', hp', {});
  }
}
