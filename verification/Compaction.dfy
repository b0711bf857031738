/**
 Lisp-2 sliding compaction of src/policy/markcompactspace.rs.

 Addresses count units of the minimum alignment.  An object occupies `[addr, addr + size)` and
 its first cell tells its size and alignment; `HEADER` units are reserved in front of it, the
 last `WORD` of which are the header word for the forwarding pointer.
 */
module Compaction {

  datatype Region = Region(start: int, end: int)

  /** An object, or the place reserved for one: `region` is the index of the region it lies in. */
  datatype Obj = Obj(addr: int, size: int, align: int, offset: int, region: int)

  datatype Cell = Zero | Head(size: int, align: int, offset: int) | Ref(target: int) | Data(value: int)

  /** HEADER_RESERVED_IN_BYTES and GC_EXTRA_HEADER_BYTES, in units. */
  datatype Config = Config(header: int, word: int)

  predicate ValidConfig(c: Config) {
    1 <= c.word <= c.header
  }

  // ---------- alignment ----------

  predicate Aligned(x: int, align: int, offset: int) {
    align <= 1 || (x + offset) % align == 0
  }

  /** align_allocation_no_fill: the mask of the source is the remainder, alignments being powers of two. */
  function AlignUp(x: int, align: int, offset: int): int {
    if align <= 1 then x else x + (-offset - x) % align
  }

  lemma MultipleMod(q: int, m: int)
    requires 0 < m
    ensures (q * m) % m == 0
  {
    var d := q - q * m / m;
    assert d * m == q * m % m;
    assert (d - 1) * m == d * m - m;
    assert d < 1;
  }

  lemma NonNegMultiple(q: int, m: int, delta: int)
    requires 0 <= delta < m && 0 <= q * m + delta
    ensures delta <= q * m + delta
  {
    if q < 0 {
      NegativeMultiple(q, m);
    } else {
      ProductSign(q, m);
    }
  }

  lemma ProductSign(a: int, b: int)
    requires 0 <= a && 0 <= b
    ensures 0 <= a * b
  {
  }

  lemma NegativeMultiple(q: int, m: int)
    requires q < 0 < m
    ensures q * m <= -m
  {
    ProductSign(-1 - q, m);
    assert (-1 - q) * m == -m - q * m;
  }

  /** The result is the least aligned address at or after `x`. */
  lemma AlignUpLeast(x: int, align: int, offset: int)
    ensures x <= AlignUp(x, align, offset) && Aligned(AlignUp(x, align, offset), align, offset)
    ensures forall y :: x <= y && Aligned(y, align, offset) ==> AlignUp(x, align, offset) <= y
  {
    if align > 1 {
      var n := -offset - x;
      var q, delta := n / align, n % align;
      assert n == q * align + delta;
      MultipleMod(-q, align);
      assert x + delta + offset == -q * align;
      forall y | x <= y && Aligned(y, align, offset)
        ensures x + delta <= y
      {
        var p := (y + offset) / align;
        assert y + offset == p * align;
        assert y - x == (p + q) * align + delta;
        NonNegMultiple(p + q, align, delta);
      }
    }
  }

  // ---------- layouts ----------

  ghost predicate ValidRegions(regions: seq<Region>) {
    && (forall i :: 0 <= i < |regions| ==> regions[i].start < regions[i].end)
    && (forall i, j :: 0 <= i < j < |regions| ==>
          regions[i].end <= regions[j].start || regions[j].end <= regions[i].start)
  }

  /** The object and its reserved header lie in its region, and the reservation is aligned. */
  ghost predicate InRegion(c: Config, regions: seq<Region>, o: Obj) {
    && 0 <= o.region < |regions| && 1 <= o.size
    && regions[o.region].start <= o.addr - c.header && o.addr + o.size <= regions[o.region].end
    && Aligned(o.addr - c.header, o.align, o.offset)
  }

  /** `a` ends before the reservation of `b` begins, in the order in which regions are visited. */
  predicate Before(c: Config, a: Obj, b: Obj) {
    a.region < b.region || (a.region == b.region && a.addr + a.size <= b.addr - c.header)
  }

  /** Objects in visiting order, inside their regions, aligned and apart. */
  ghost predicate WellLaid(c: Config, regions: seq<Region>, objs: seq<Obj>) {
    && (forall i :: 0 <= i < |objs| ==> InRegion(c, regions, objs[i]))
    && (forall i, j :: 0 <= i < j < |objs| ==> Before(c, objs[i], objs[j]))
  }

  /** `slot` is a place for `o` that is not behind it. */
  predicate SlotFor(slot: Obj, o: Obj) {
    && slot.size == o.size && slot.align == o.align && slot.offset == o.offset
    && (slot.region < o.region || (slot.region == o.region && slot.addr <= o.addr))
  }

  /** `slots` is a layout of the objects `live`, in their order, with none moved backwards. */
  ghost predicate Placed(c: Config, regions: seq<Region>, live: seq<Obj>, slots: seq<Obj>) {
    && |slots| == |live| && WellLaid(c, regions, slots)
    && forall i :: 0 <= i < |slots| ==> SlotFor(slots[i], live[i])
  }

  /** The marked objects, in order. */
  ghost function Live(objs: seq<Obj>, marks: set<int>): seq<Obj> {
    if objs == [] then []
    else Live(objs[..|objs| - 1], marks) + (if objs[|objs| - 1].addr in marks then [objs[|objs| - 1]] else [])
  }

  lemma LiveStep(objs: seq<Obj>, marks: set<int>, k: int)
    requires 0 <= k < |objs|
    ensures Live(objs[..k + 1], marks) == Live(objs[..k], marks) + (if objs[k].addr in marks then [objs[k]] else [])
  {
    assert objs[..k + 1][..k] == objs[..k];
  }

  /** Two reservations of one layout do not overlap. */
  lemma Apart(c: Config, regions: seq<Region>, a: Obj, b: Obj)
    requires ValidConfig(c) && ValidRegions(regions) && InRegion(c, regions, a) && InRegion(c, regions, b)
    requires Before(c, a, b)
    ensures a.addr + a.size <= b.addr - c.header || b.addr + b.size <= a.addr - c.header
  {
  }

  // ---------- memory ----------

  type Memory = map<int, Cell>

  function Load(mem: Memory, x: int): Cell {
    if x in mem then mem[x] else Zero
  }

  /** The memory and VO bits hold exactly the objects `objs`. */
  ghost predicate Holds(mem: Memory, vo: set<int>, objs: seq<Obj>) {
    && (forall i :: 0 <= i < |objs| ==>
      objs[i].addr in vo && Load(mem, objs[i].addr) == Head(objs[i].size, objs[i].align, objs[i].offset))
    && (forall x :: x in vo ==> exists i :: 0 <= i < |objs| && objs[i].addr == x)
  }

  /** The header word of `o` is clear. */
  ghost predicate HeaderClear(c: Config, mem: Memory, o: Obj) {
    forall x :: o.addr - c.word <= x < o.addr ==> Load(mem, x) == Zero
  }

  // ---------- the linear scan ----------

  /** The scan of region `f` is at `cursor`: the first `k` objects are behind it, the others ahead. */
  ghost predicate ScanAt(objs: seq<Obj>, k: int, f: int, cursor: int) {
    && 0 <= k <= |objs|
    && (forall i :: 0 <= i < k ==> objs[i].region < f || (objs[i].region == f && objs[i].addr + objs[i].size <= cursor))
    && (forall i :: k <= i < |objs| ==> f < objs[i].region || (objs[i].region == f && cursor <= objs[i].addr))
  }

  /** Between `cursor` and `end`, VO bits are set for exactly the objects from the `k`-th on. */
  ghost predicate BitsAhead(vo: set<int>, objs: seq<Obj>, k: int, cursor: int, end: int)
    requires 0 <= k
  {
    && (forall i :: k <= i < |objs| ==> objs[i].addr in vo)
    && (forall x :: x in vo && cursor <= x < end ==> exists i :: k <= i < |objs| && objs[i].addr == x)
  }

  lemma EarlierIsAhead(c: Config, regions: seq<Region>, objs: seq<Obj>, k: int, f: int, cursor: int, i: int)
    requires ValidConfig(c) && WellLaid(c, regions, objs) && ScanAt(objs, k, f, cursor)
    requires k < i < |objs| && objs[i].region == f
    ensures cursor <= objs[k].addr < objs[i].addr
  {
    assert Before(c, objs[k], objs[i]) && InRegion(c, regions, objs[k]);
  }

  /** The first VO bit at or after the cursor is that of the next object. */
  lemma FindsNext(c: Config, regions: seq<Region>, objs: seq<Obj>, k: int, f: int, cursor: int, vo: set<int>, o: int)
    requires ValidConfig(c) && ValidRegions(regions) && 0 <= f < |regions| && WellLaid(c, regions, objs)
    requires ScanAt(objs, k, f, cursor) && regions[f].start <= cursor && BitsAhead(vo, objs, k, cursor, regions[f].end)
    requires o in vo && cursor <= o < regions[f].end && forall x :: x in vo ==> !(cursor <= x < o)
    ensures k < |objs| && objs[k].addr == o && objs[k].region == f
    ensures ScanAt(objs, k + 1, f, o + objs[k].size)
  {
    var i :| k <= i < |objs| && objs[i].addr == o;
    assert InRegion(c, regions, objs[i]);
    assert objs[i].region == f;
    if k < i {
      EarlierIsAhead(c, regions, objs, k, f, cursor, i);
    }
    forall j | k + 1 <= j < |objs|
      ensures f < objs[j].region || (objs[j].region == f && o + objs[k].size <= objs[j].addr)
    {
      assert Before(c, objs[k], objs[j]);
    }
  }

  /** Without a VO bit ahead, the region is done. */
  lemma FindsNone(c: Config, regions: seq<Region>, objs: seq<Obj>, k: int, f: int, cursor: int, vo: set<int>)
    requires ValidConfig(c) && ValidRegions(regions) && 0 <= f < |regions| && WellLaid(c, regions, objs)
    requires ScanAt(objs, k, f, cursor) && BitsAhead(vo, objs, k, cursor, regions[f].end)
    requires forall x :: x in vo ==> !(cursor <= x < regions[f].end)
    ensures f + 1 < |regions| ==> ScanAt(objs, k, f + 1, regions[f + 1].start)
    ensures f + 1 == |regions| ==> k == |objs|
  {
    forall i | k <= i < |objs|
      ensures f < objs[i].region < |regions| && regions[objs[i].region].start <= objs[i].addr
    {
      assert InRegion(c, regions, objs[i]);
    }
    assert k < |objs| ==> f < objs[k].region < |regions|;
  }

  // ---------- placement ----------

  /** All slots end before address `to` of region `r`. */
  ghost predicate SlotsBefore(slots: seq<Obj>, r: int, to: int) {
    forall i :: 0 <= i < |slots| ==>
      slots[i].region < r || (slots[i].region == r && slots[i].addr + slots[i].size <= to)
  }

  /** The end of the part of region `f` that the first `k` objects take up. */
  ghost function ScannedEnd(regions: seq<Region>, objs: seq<Obj>, k: int, f: int): int
    requires 0 <= f < |regions| && 0 <= k <= |objs|
  {
    if k > 0 && objs[k - 1].region == f then objs[k - 1].addr + objs[k - 1].size else regions[f].start
  }

  /** Every region before that of an object has room for it, which the source asserts when it moves on. */
  ghost predicate RoomInEarlierRegions(c: Config, regions: seq<Region>, objs: seq<Obj>) {
    forall i, r :: 0 <= i < |objs| && 0 <= r < objs[i].region && r < |regions| ==>
      AlignUp(regions[r].start, objs[i].align, objs[i].offset) + c.header + objs[i].size <= regions[r].end
  }

  /** The cursor of the target never overtakes the scan. */
  ghost predicate TargetBehind(regions: seq<Region>, objs: seq<Obj>, k: int, f: int, r: int, to: int)
    requires 0 <= f < |regions| && 0 <= k <= |objs|
  {
    && 0 <= r <= f && regions[r].start <= to
    && (r == f ==> to <= ScannedEnd(regions, objs, k, f))
  }

  /** In its own region an object always fits at or before its old place. */
  lemma FitsInOwnRegion(c: Config, regions: seq<Region>, objs: seq<Obj>, k: int, f: int, to: int)
    requires ValidConfig(c) && WellLaid(c, regions, objs) && 0 <= k < |objs| && objs[k].region == f
    requires 0 <= f < |regions|
    requires to <= ScannedEnd(regions, objs, k, f)
    ensures var a := AlignUp(to, objs[k].align, objs[k].offset);
      && to <= a <= objs[k].addr - c.header && a + c.header + objs[k].size <= regions[f].end
      && Aligned(a, objs[k].align, objs[k].offset)
  {
    assert InRegion(c, regions, objs[k]);
    if k > 0 {
      assert Before(c, objs[k - 1], objs[k]);
    }
    AlignUpLeast(to, objs[k].align, objs[k].offset);
  }

  /** A new slot behind all others keeps the placement. */
  lemma AddSlot(c: Config, regions: seq<Region>, live: seq<Obj>, slots: seq<Obj>, o: Obj, slot: Obj, to: int)
    requires ValidConfig(c) && Placed(c, regions, live, slots)
    requires SlotsBefore(slots, slot.region, to) && to <= slot.addr - c.header
    requires InRegion(c, regions, slot) && SlotFor(slot, o)
    ensures Placed(c, regions, live + [o], slots + [slot])
    ensures SlotsBefore(slots + [slot], slot.region, slot.addr + slot.size)
  {
  }

  lemma NewSlot(c: Config, regions: seq<Region>, live: seq<Obj>, slots: seq<Obj>, o: Obj, slot: Obj, r: int, to: int)
    requires ValidConfig(c) && Placed(c, regions, live, slots) && SlotsBefore(slots, r, to)
    requires r <= slot.region && (slot.region == r ==> to <= slot.addr - c.header)
    requires InRegion(c, regions, slot) && SlotFor(slot, o)
    ensures Placed(c, regions, live + [o], slots + [slot])
    ensures SlotsBefore(slots + [slot], slot.region, slot.addr + slot.size)
  {
    AddSlot(c, regions, live, slots, o, slot, slot.addr - c.header);
  }

  // ---------- sliding ----------

  ghost predicate NoneAligned(slot: Obj, from: int, to: int) {
    forall y :: from <= y < to ==> !Aligned(y, slot.align, slot.offset)
  }

  /** No reservation for the slot fits into region `r` from `to` on. */
  ghost predicate NoRoom(c: Config, regions: seq<Region>, slot: Obj, r: int, to: int)
    requires 0 <= r < |regions|
  {
    forall y :: to <= y && Aligned(y, slot.align, slot.offset) ==> y + c.header + slot.size > regions[r].end
  }

  /** The slot is the first place that fits from `to` of region `r` on: there, or else at the start of the next one. */
  ghost predicate FirstFit(c: Config, regions: seq<Region>, slot: Obj, r: int, to: int) {
    && 0 <= r < |regions|
    && (if slot.region == r then
          to <= slot.addr - c.header && NoneAligned(slot, to, slot.addr - c.header)
        else
          && slot.region == r + 1 < |regions| && NoRoom(c, regions, slot, r, to)
          && NoneAligned(slot, regions[r + 1].start, slot.addr - c.header))
  }

  /** Where the search for the `i`-th slot begins. */
  ghost function CursorOf(regions: seq<Region>, slots: seq<Obj>, i: int): (int, int)
    requires 0 <= i <= |slots| && |regions| > 0
  {
    if i == 0 then (0, regions[0].start) else (slots[i - 1].region, slots[i - 1].addr + slots[i - 1].size)
  }

  ghost predicate SlidAt(c: Config, regions: seq<Region>, slots: seq<Obj>, i: int)
    requires 0 <= i < |slots| && |regions| > 0
  {
    FirstFit(c, regions, slots[i], CursorOf(regions, slots, i).0, CursorOf(regions, slots, i).1)
  }

  /** Every slot is the first place that fits behind the one before it. */
  ghost predicate Slid(c: Config, regions: seq<Region>, slots: seq<Obj>) {
    && (slots != [] ==> |regions| > 0)
    && forall i :: 0 <= i < |slots| ==> SlidAt(c, regions, slots, i)
  }

  lemma SlideOne(c: Config, regions: seq<Region>, slots: seq<Obj>, slot: Obj, r: int, to: int)
    requires |regions| > 0 && Slid(c, regions, slots) && CursorOf(regions, slots, |slots|) == (r, to)
    requires FirstFit(c, regions, slot, r, to)
    ensures Slid(c, regions, slots + [slot])
    ensures CursorOf(regions, slots + [slot], |slots| + 1) == (slot.region, slot.addr + slot.size)
  {
    var more := slots + [slot];
    forall i | 0 <= i < |more|
      ensures SlidAt(c, regions, more, i)
    {
      assert CursorOf(regions, more, i) == CursorOf(regions, slots, i);
      assert i < |slots| ==> SlidAt(c, regions, slots, i);
    }
  }

  /** `a` does not lie behind `b`, in the order in which regions are visited. */
  predicate NotBehind(a: Obj, b: Obj) {
    a.region < b.region || (a.region == b.region && a.addr <= b.addr)
  }

  predicate SameShape(a: Obj, b: Obj) {
    a.size == b.size && a.align == b.align && a.offset == b.offset
  }

  lemma FirstFitIsLeast(c: Config, regions: seq<Region>, slot: Obj, r: int, to: int, other: Obj, q: int, from: int)
    requires FirstFit(c, regions, slot, r, to) && InRegion(c, regions, other) && SameShape(slot, other)
    requires q < other.region || (q == other.region && from <= other.addr - c.header)
    requires r < q || (r == q && to <= from)
    ensures NotBehind(slot, other)
  {
    assert Aligned(other.addr - c.header, slot.align, slot.offset);
    if slot.region == other.region && slot.region == r {
      assert !(to <= other.addr - c.header < slot.addr - c.header);
    }
  }

  /** No layout that keeps the order puts any of the objects before its slot: the space cannot be packed tighter. */
  lemma {:induction false} SlidIsLeast(c: Config, regions: seq<Region>, slots: seq<Obj>, others: seq<Obj>, i: int)
    requires Slid(c, regions, slots) && WellLaid(c, regions, others) && |others| == |slots|
    requires forall j :: 0 <= j < |slots| ==> SameShape(slots[j], others[j])
    requires 0 <= i < |slots|
    ensures NotBehind(slots[i], others[i])
  {
    assert SlidAt(c, regions, slots, i) && InRegion(c, regions, others[i]);
    if i == 0 {
      FirstFitIsLeast(c, regions, slots[0], 0, regions[0].start, others[0], others[0].region,
        regions[others[0].region].start);
    } else {
      SlidIsLeast(c, regions, slots, others, i - 1);
      var a, b := slots[i - 1], others[i - 1];
      assert Before(c, b, others[i]);
      FirstFitIsLeast(c, regions, slots[i], a.region, a.addr + a.size, others[i], b.region, b.addr + b.size);
    }
  }

  // ---------- forwarding pointers ----------

  /** The space holds the objects `objs`, well laid, and nothing else. */
  ghost predicate Laid(c: Config, regions: seq<Region>, mem: Memory, vo: set<int>, objs: seq<Obj>) {
    ValidConfig(c) && ValidRegions(regions) && WellLaid(c, regions, objs) && Holds(mem, vo, objs)
  }

  /** The header word of each live object points to its slot, and those of the other objects are clear. */
  ghost predicate Forwarded(c: Config, mem: Memory, marks: set<int>, objs: seq<Obj>, live: seq<Obj>, slots: seq<Obj>) {
    && |slots| == |live|
    && (forall i :: 0 <= i < |live| ==> Load(mem, live[i].addr - c.word) == Ref(slots[i].addr))
    && (forall i :: 0 <= i < |objs| && objs[i].addr !in marks ==> HeaderClear(c, mem, objs[i]))
  }

  ghost predicate AllClear(c: Config, mem: Memory, objs: seq<Obj>, k: int)
    requires 0 <= k
  {
    forall i :: k <= i < |objs| ==> HeaderClear(c, mem, objs[i])
  }

  lemma {:induction false} LiveMembers(objs: seq<Obj>, marks: set<int>, i: int) returns (j: int)
    requires 0 <= i < |Live(objs, marks)|
    ensures 0 <= j < |objs| && objs[j] == Live(objs, marks)[i] && objs[j].addr in marks
    decreases |objs|
  {
    var front := objs[..|objs| - 1];
    if i < |Live(front, marks)| {
      j := LiveMembers(front, marks, i);
    } else {
      j := |objs| - 1;
    }
  }

  /** A write to the header word of one object disturbs no other object. */
  lemma HeaderWriteApart(c: Config, regions: seq<Region>, objs: seq<Obj>, k: int, i: int, x: int)
    requires ValidConfig(c) && ValidRegions(regions) && WellLaid(c, regions, objs) && 0 <= k < |objs| && 0 <= i < |objs|
    requires objs[k].addr - c.word <= x < objs[k].addr
    ensures x != objs[i].addr
    ensures i != k ==> !(objs[i].addr - c.header <= x < objs[i].addr + objs[i].size)
  {
    assert InRegion(c, regions, objs[i]) && InRegion(c, regions, objs[k]);
    if i < k {
      Apart(c, regions, objs[i], objs[k]);
    } else if k < i {
      Apart(c, regions, objs[k], objs[i]);
    }
  }

  /** The header word of another object stays clear. */
  lemma StoreKeepsClear(c: Config, regions: seq<Region>, mem: Memory, objs: seq<Obj>, k: int, i: int, target: int)
    requires ValidConfig(c) && ValidRegions(regions) && WellLaid(c, regions, objs) && 0 <= k < |objs| && 0 <= i < |objs|
    requires i != k
    requires HeaderClear(c, mem, objs[i])
    ensures HeaderClear(c, mem[objs[k].addr - c.word := Ref(target)], objs[i])
  {
    HeaderWriteApart(c, regions, objs, k, i, objs[k].addr - c.word);
    assert InRegion(c, regions, objs[i]);
    var mem' := mem[objs[k].addr - c.word := Ref(target)];
    forall x | objs[i].addr - c.word <= x < objs[i].addr
      ensures Load(mem', x) == Zero
    {
      assert Load(mem, x) == Zero;
    }
  }

  lemma StoreKeepsLaid(c: Config, regions: seq<Region>, mem: Memory, vo: set<int>, objs: seq<Obj>, k: int, target: int)
    requires Laid(c, regions, mem, vo, objs) && 0 <= k < |objs| && AllClear(c, mem, objs, k)
    ensures var mem' := mem[objs[k].addr - c.word := Ref(target)];
      Laid(c, regions, mem', vo, objs) && AllClear(c, mem', objs, k + 1)
  {
    var x := objs[k].addr - c.word;
    forall i | 0 <= i < |objs|
      ensures x != objs[i].addr
    {
      HeaderWriteApart(c, regions, objs, k, i, x);
    }
    forall i | k + 1 <= i < |objs|
      ensures HeaderClear(c, mem[x := Ref(target)], objs[i])
    {
      StoreKeepsClear(c, regions, mem, objs, k, i, target);
    }
  }

  lemma StoreForwards(c: Config, regions: seq<Region>, mem: Memory, vo: set<int>, marks: set<int>, objs: seq<Obj>,
                      k: int, slots: seq<Obj>, slot: Obj)
    requires Laid(c, regions, mem, vo, objs) && 0 <= k < |objs| && objs[k].addr in marks
    requires Forwarded(c, mem, marks, objs[..k], Live(objs[..k], marks), slots)
    ensures var mem' := mem[objs[k].addr - c.word := Ref(slot.addr)];
      Forwarded(c, mem', marks, objs[..k + 1], Live(objs[..k + 1], marks), slots + [slot])
  {
    hide HeaderClear, Live, WellLaid, Holds, ValidRegions;
    var x := objs[k].addr - c.word;
    var mem' := mem[x := Ref(slot.addr)];
    var live := Live(objs[..k], marks);
    LiveStep(objs, marks, k);
    forall i | 0 <= i < |live| + 1
      ensures Load(mem', (live + [objs[k]])[i].addr - c.word) == Ref((slots + [slot])[i].addr)
    {
      if i < |live| {
        var j := LiveMembers(objs[..k], marks, i);
        HeadersDiffer(c, regions, objs, k, j);
      }
    }
    forall i | 0 <= i < k + 1 && objs[i].addr !in marks
      ensures HeaderClear(c, mem', objs[i])
    {
      assert objs[..k][i] == objs[i];
      StoreKeepsClear(c, regions, mem, objs, k, i, slot.addr);
    }
  }

  lemma HeadersDiffer(c: Config, regions: seq<Region>, objs: seq<Obj>, k: int, j: int)
    requires ValidConfig(c) && ValidRegions(regions) && WellLaid(c, regions, objs) && 0 <= j < k < |objs|
    ensures objs[j].addr != objs[k].addr
  {
    HeaderWriteApart(c, regions, objs, j, k, objs[j].addr - 1);
    assert InRegion(c, regions, objs[k]);
  }

  lemma SkipForwards(c: Config, mem: Memory, marks: set<int>, objs: seq<Obj>, k: int, slots: seq<Obj>)
    requires 0 <= k < |objs| && objs[k].addr !in marks && AllClear(c, mem, objs, k)
    requires Forwarded(c, mem, marks, objs[..k], Live(objs[..k], marks), slots)
    ensures Forwarded(c, mem, marks, objs[..k + 1], Live(objs[..k + 1], marks), slots) && AllClear(c, mem, objs, k + 1)
    ensures Live(objs[..k + 1], marks) == Live(objs[..k], marks)
  {
    LiveStep(objs, marks, k);
  }

  lemma ObjectIsRead(c: Config, regions: seq<Region>, mem: Memory, vo: set<int>, objs: seq<Obj>, k: int)
    requires Laid(c, regions, mem, vo, objs) && 0 <= k < |objs|
    ensures InRegion(c, regions, objs[k])
    ensures Load(mem, objs[k].addr) == Head(objs[k].size, objs[k].align, objs[k].offset)
  {
  }

  /** While the objects stay where they are, the VO bits ahead of the scan are theirs. */
  lemma LaidBitsAhead(c: Config, regions: seq<Region>, mem: Memory, vo: set<int>, objs: seq<Obj>, k: int, f: int,
                      cursor: int)
    requires Laid(c, regions, mem, vo, objs) && 0 <= f < |regions| && ScanAt(objs, k, f, cursor)
    requires regions[f].start <= cursor
    ensures BitsAhead(vo, objs, k, cursor, regions[f].end)
  {
    forall x | x in vo && cursor <= x < regions[f].end
      ensures exists i :: k <= i < |objs| && objs[i].addr == x
    {
      var i :| 0 <= i < |objs| && objs[i].addr == x;
      assert InRegion(c, regions, objs[i]);
      assert k <= i;
    }
  }

  lemma AheadHasSize(c: Config, regions: seq<Region>, mem: Memory, vo: set<int>, objs: seq<Obj>, k: int, cursor: int,
                     end: int)
    requires WellLaid(c, regions, objs) && 0 <= k && BitsAhead(vo, objs, k, cursor, end)
    requires forall i :: k <= i < |objs| ==>
      Load(mem, objs[i].addr) == Head(objs[i].size, objs[i].align, objs[i].offset)
    ensures forall x :: x in vo && cursor <= x < end ==> Load(mem, x).Head? && 1 <= Load(mem, x).size
  {
    forall x | x in vo && cursor <= x < end
      ensures Load(mem, x).Head? && 1 <= Load(mem, x).size
    {
      var i :| k <= i < |objs| && objs[i].addr == x;
      assert InRegion(c, regions, objs[i]);
    }
  }

  lemma ScanStart(c: Config, regions: seq<Region>, objs: seq<Obj>)
    requires ValidConfig(c) && WellLaid(c, regions, objs)
    ensures |regions| > 0 ==> ScanAt(objs, 0, 0, regions[0].start)
    ensures |regions| == 0 ==> objs == []
  {
    forall i | 0 <= i < |objs|
      ensures 0 <= objs[i].region < |regions| && regions[objs[i].region].start <= objs[i].addr
    {
      assert InRegion(c, regions, objs[i]);
    }
    assert |objs| > 0 ==> 0 <= objs[0].region < |regions|;
  }

  lemma TargetNextRegion(regions: seq<Region>, objs: seq<Obj>, k: int, f: int, r: int, to: int)
    requires 0 <= f && f + 1 < |regions| && 0 <= k <= |objs| && TargetBehind(regions, objs, k, f, r, to)
    ensures TargetBehind(regions, objs, k, f + 1, r, to)
  {
  }

  /** An object that gets no slot only moves the scan on. */
  lemma TargetSkips(c: Config, regions: seq<Region>, objs: seq<Obj>, k: int, f: int, r: int, to: int)
    requires ValidConfig(c) && WellLaid(c, regions, objs) && 0 <= k < |objs| && objs[k].region == f
    requires 0 <= f < |regions|
    requires TargetBehind(regions, objs, k, f, r, to)
    ensures TargetBehind(regions, objs, k + 1, f, r, to)
  {
    assert InRegion(c, regions, objs[k]);
    if k > 0 {
      assert Before(c, objs[k - 1], objs[k]);
    }
  }

  lemma HeldAhead(mem: Memory, vo: set<int>, objs: seq<Obj>, k: int)
    requires Holds(mem, vo, objs) && 0 <= k
    ensures forall i :: k <= i < |objs| ==> Load(mem, objs[i].addr) == Head(objs[i].size, objs[i].align, objs[i].offset)
  {
  }

  lemma PlacedNone(c: Config, regions: seq<Region>, marks: set<int>, objs: seq<Obj>)
    ensures Live(objs[..0], marks) == [] && Placed(c, regions, [], [])
  {
  }

  // ---------- moving ----------

  predicate InBody(o: Obj, x: int) {
    o.addr <= x < o.addr + o.size
  }

  /** The header word and the body: what compaction reads of an object. */
  predicate InWhole(c: Config, o: Obj, x: int) {
    o.addr - c.word <= x < o.addr + o.size
  }

  /** No object has changed between the two memories, except for its header word. */
  ghost predicate SameBodies(mem: Memory, mem': Memory, objs: seq<Obj>) {
    forall i, x :: 0 <= i < |objs| && InBody(objs[i], x) ==> Load(mem', x) == Load(mem, x)
  }

  lemma StoreKeepsBodies(c: Config, regions: seq<Region>, mem: Memory, objs: seq<Obj>, k: int, target: int)
    requires ValidConfig(c) && ValidRegions(regions) && WellLaid(c, regions, objs) && 0 <= k < |objs|
    ensures SameBodies(mem, mem[objs[k].addr - c.word := Ref(target)], objs)
  {
    forall i, x | 0 <= i < |objs| && InBody(objs[i], x)
      ensures x != objs[k].addr - c.word
    {
      if x == objs[k].addr - c.word && i != k {
        HeaderWriteApart(c, regions, objs, k, i, x);
      }
    }
  }

  /** `slot` holds the body that `o` had in `mem0`, behind a clear header word. */
  ghost predicate Arrived(c: Config, mem0: Memory, mem: Memory, o: Obj, slot: Obj) {
    && HeaderClear(c, mem, slot)
    && forall x :: InBody(slot, x) ==> Load(mem, x) == Load(mem0, x - slot.addr + o.addr)
  }

  /** The header word and body of `o` are as in `mem0`. */
  ghost predicate Intact(c: Config, mem0: Memory, mem: Memory, o: Obj) {
    forall x :: InWhole(c, o, x) ==> Load(mem, x) == Load(mem0, x)
  }

  /** After the first `k` objects: the live ones among them have arrived, the others are untouched. */
  ghost predicate Moved(c: Config, mem0: Memory, mem: Memory, objs: seq<Obj>, alive: set<int>, slots: seq<Obj>,
                        k: int) {
    && 0 <= k <= |objs| && |Live(objs[..k], alive)| <= |slots|
    && (forall i :: 0 <= i < |Live(objs[..k], alive)| ==> Arrived(c, mem0, mem, Live(objs[..k], alive)[i], slots[i]))
    && (forall i :: k <= i < |objs| ==> Intact(c, mem0, mem, objs[i]))
  }

  /** What clearing the header word of `slot` and copying `o` there does to memory. */
  ghost predicate CopiedTo(c: Config, mem: Memory, mem': Memory, o: Obj, slot: Obj) {
    && (forall x :: slot.addr - c.word <= x < slot.addr ==> Load(mem', x) == Zero)
    && (forall x :: InBody(slot, x) ==> Load(mem', x) == Load(mem, x - slot.addr + o.addr))
    && (forall x :: !InWhole(c, slot, x) ==> Load(mem', x) == Load(mem, x))
  }

  /** A slot for `o` does not reach into anything that lies behind `o`. */
  lemma SlotClearOfLater(c: Config, regions: seq<Region>, slot: Obj, o: Obj, later: Obj)
    requires ValidConfig(c) && ValidRegions(regions) && SlotFor(slot, o) && Before(c, o, later)
    requires InRegion(c, regions, slot) && InRegion(c, regions, o) && InRegion(c, regions, later)
    ensures slot.addr + slot.size <= later.addr - c.header || later.addr + later.size <= slot.addr - c.header
  {
  }

  lemma IntactApart(c: Config, mem0: Memory, mem: Memory, mem': Memory, o: Obj, slot: Obj, other: Obj)
    requires ValidConfig(c) && CopiedTo(c, mem, mem', o, slot) && Intact(c, mem0, mem, other)
    requires slot.addr + slot.size <= other.addr - c.header || other.addr + other.size <= slot.addr - c.header
    ensures Intact(c, mem0, mem', other)
  {
  }

  lemma ArrivedApart(c: Config, mem0: Memory, mem: Memory, mem': Memory, o: Obj, slot: Obj, was: Obj, other: Obj)
    requires ValidConfig(c) && CopiedTo(c, mem, mem', o, slot) && Arrived(c, mem0, mem, was, other) && 0 <= other.size
    requires slot.addr + slot.size <= other.addr - c.header || other.addr + other.size <= slot.addr - c.header
    ensures Arrived(c, mem0, mem', was, other)
  {
    forall x | other.addr - c.word <= x < other.addr
      ensures Load(mem', x) == Zero
    {
      assert Load(mem, x) == Zero;
      assert !InWhole(c, slot, x);
    }
    forall x | InBody(other, x)
      ensures Load(mem', x) == Load(mem0, x - other.addr + was.addr)
    {
      assert !InWhole(c, slot, x);
    }
  }

  lemma JustArrived(c: Config, mem0: Memory, mem: Memory, mem': Memory, o: Obj, slot: Obj)
    requires CopiedTo(c, mem, mem', o, slot) && Intact(c, mem0, mem, o) && slot.size == o.size && ValidConfig(c)
    ensures Arrived(c, mem0, mem', o, slot)
  {
    forall x | InBody(slot, x)
      ensures Load(mem', x) == Load(mem0, x - slot.addr + o.addr)
    {
      assert InWhole(c, o, x - slot.addr + o.addr);
    }
  }

  /** One live object is moved: everything that had arrived stays, everything still to come is untouched. */
  lemma MoveStep(c: Config, regions: seq<Region>, mem0: Memory, mem: Memory, mem': Memory, objs: seq<Obj>,
                 alive: set<int>, slots: seq<Obj>, k: int)
    requires ValidConfig(c) && ValidRegions(regions) && WellLaid(c, regions, objs) && 0 <= k < |objs|
    requires objs[k].addr in alive
    requires Placed(c, regions, Live(objs, alive), slots) && Moved(c, mem0, mem, objs, alive, slots, k)
    requires var j := |Live(objs[..k], alive)|;
      j < |slots| && SlotFor(slots[j], objs[k]) && CopiedTo(c, mem, mem', objs[k], slots[j])
    ensures Moved(c, mem0, mem', objs, alive, slots, k + 1)
  {
    hide Live, SlotFor, CopiedTo, Arrived, Intact, ValidRegions, Aligned;
    var live := Live(objs[..k], alive);
    var j := |live|;
    LiveStep(objs, alive, k);
    JustArrived(c, mem0, mem, mem', objs[k], slots[j]) by {
      SlotSize(slots[j], objs[k]);
    }
    forall i | 0 <= i < j
      ensures Arrived(c, mem0, mem', live[i], slots[i])
    {
      Apart(c, regions, slots[i], slots[j]);
      assert InRegion(c, regions, slots[i]);
      ArrivedApart(c, mem0, mem, mem', objs[k], slots[j], live[i], slots[i]);
    }
    forall i | k + 1 <= i < |objs|
      ensures Intact(c, mem0, mem', objs[i])
    {
      SlotClearOfLater(c, regions, slots[j], objs[k], objs[i]);
      IntactApart(c, mem0, mem, mem', objs[k], slots[j], objs[i]);
    }
  }

  lemma SlotSize(slot: Obj, o: Obj)
    requires SlotFor(slot, o)
    ensures slot.size == o.size
  {
  }

  lemma MoveSkips(c: Config, mem0: Memory, mem: Memory, objs: seq<Obj>, alive: set<int>, slots: seq<Obj>, k: int)
    requires 0 <= k < |objs| && objs[k].addr !in alive && Moved(c, mem0, mem, objs, alive, slots, k)
    ensures Moved(c, mem0, mem, objs, alive, slots, k + 1)
  {
    LiveStep(objs, alive, k);
  }

  lemma {:induction false} LivePrefix(objs: seq<Obj>, alive: set<int>, k: int)
    requires 0 <= k <= |objs|
    ensures Live(objs[..k], alive) <= Live(objs, alive)
    decreases |objs| - k
  {
    if k == |objs| {
      assert objs[..k] == objs;
    } else {
      LivePrefix(objs, alive, k + 1);
      LiveStep(objs, alive, k);
    }
  }

  /** The slot of the next live object is the next slot. */
  lemma NextSlotIs(c: Config, regions: seq<Region>, objs: seq<Obj>, alive: set<int>, slots: seq<Obj>, k: int)
    requires 0 <= k < |objs| && objs[k].addr in alive && Placed(c, regions, Live(objs, alive), slots)
    ensures var j := |Live(objs[..k], alive)|;
      j < |slots| && j < |Live(objs, alive)| && Live(objs, alive)[j] == objs[k] && SlotFor(slots[j], objs[k])
  {
    var j := |Live(objs[..k], alive)|;
    LivePrefix(objs, alive, k + 1);
    LiveStep(objs, alive, k);
    assert Live(objs[..k + 1], alive)[j] == objs[k];
  }

  // ---------- VO bits while moving ----------

  /** The VO bits are those of the slots filled so far and of the objects still to be visited. */
  ghost predicate MovedBits(vo: set<int>, objs: seq<Obj>, slots: seq<Obj>, j: int, k: int) {
    && 0 <= j <= |slots| && 0 <= k <= |objs|
    && (forall i :: 0 <= i < j ==> slots[i].addr in vo)
    && (forall i :: k <= i < |objs| ==> objs[i].addr in vo)
    && (forall x :: x in vo ==>
      (exists i :: 0 <= i < j && slots[i].addr == x) || (exists i :: k <= i < |objs| && objs[i].addr == x))
  }

  /** A slot filled for an earlier object is not the address of a later one. */
  lemma SlotBehind(c: Config, regions: seq<Region>, slot: Obj, o: Obj, later: Obj)
    requires ValidConfig(c) && ValidRegions(regions) && SlotFor(slot, o) && Before(c, o, later)
    requires InRegion(c, regions, slot) && InRegion(c, regions, o) && InRegion(c, regions, later)
    ensures slot.addr != later.addr
  {
    SlotClearOfLater(c, regions, slot, o, later);
  }

  /** `slots[i]` belongs to an object before the `k`-th. */
  lemma FilledFor(c: Config, regions: seq<Region>, objs: seq<Obj>, alive: set<int>, slots: seq<Obj>, k: int, i: int)
    returns (m: int)
    requires Placed(c, regions, Live(objs, alive), slots) && 0 <= k <= |objs| && 0 <= i < |Live(objs[..k], alive)|
    ensures 0 <= m < k && i < |slots| && SlotFor(slots[i], objs[m])
  {
    LivePrefix(objs, alive, k);
    m := LiveMembers(objs[..k], alive, i);
  }

  lemma UnsetBit(vo: set<int>, objs: seq<Obj>, slots: seq<Obj>, j: int, k: int)
    requires MovedBits(vo, objs, slots, j, k) && k < |objs|
    requires forall i :: 0 <= i < j ==> slots[i].addr != objs[k].addr
    requires forall i :: k + 1 <= i < |objs| ==> objs[i].addr != objs[k].addr
    ensures MovedBits(vo - {objs[k].addr}, objs, slots, j, k + 1)
  {
    forall x | x in vo - {objs[k].addr}
      ensures (exists i :: 0 <= i < j && slots[i].addr == x) || (exists i :: k + 1 <= i < |objs| && objs[i].addr == x)
    {
      if i :| k <= i < |objs| && objs[i].addr == x {
        assert k + 1 <= i;
      }
    }
  }

  lemma SetBit(vo: set<int>, objs: seq<Obj>, slots: seq<Obj>, j: int, k: int)
    requires MovedBits(vo, objs, slots, j, k) && j < |slots|
    ensures MovedBits(vo + {slots[j].addr}, objs, slots, j + 1, k)
  {
    forall x | x in vo + {slots[j].addr}
      ensures (exists i :: 0 <= i < j + 1 && slots[i].addr == x) || (exists i :: k <= i < |objs| && objs[i].addr == x)
    {
      if i :| 0 <= i < j && slots[i].addr == x {
        assert i < j + 1;
      }
    }
  }

  lemma BitsStep(c: Config, regions: seq<Region>, vo: set<int>, objs: seq<Obj>, alive: set<int>, slots: seq<Obj>,
                 k: int)
    requires ValidConfig(c) && ValidRegions(regions) && WellLaid(c, regions, objs) && 0 <= k < |objs|
    requires Placed(c, regions, Live(objs, alive), slots) && MovedBits(vo, objs, slots, |Live(objs[..k], alive)|, k)
    ensures MovedBits(vo - {objs[k].addr}, objs, slots, |Live(objs[..k], alive)|, k + 1)
  {
    hide SlotFor, Live;
    var j := |Live(objs[..k], alive)|;
    forall i | 0 <= i < j
      ensures slots[i].addr != objs[k].addr
    {
      var m := FilledFor(c, regions, objs, alive, slots, k, i);
      SlotBehind(c, regions, slots[i], objs[m], objs[k]);
    }
    forall i | k + 1 <= i < |objs|
      ensures objs[i].addr != objs[k].addr
    {
      HeadersDiffer(c, regions, objs, i, k);
    }
    UnsetBit(vo, objs, slots, j, k);
  }

  /** The bits set while moving lie behind the scan, so it meets each object once and nothing else. */
  lemma MovedBitsAhead(c: Config, regions: seq<Region>, vo: set<int>, objs: seq<Obj>, alive: set<int>, slots: seq<Obj>,
                       k: int, f: int, cursor: int)
    requires ValidConfig(c) && ValidRegions(regions) && WellLaid(c, regions, objs) && 0 <= f < |regions|
    requires ScanAt(objs, k, f, cursor) && regions[f].start <= cursor
    requires Placed(c, regions, Live(objs, alive), slots) && MovedBits(vo, objs, slots, |Live(objs[..k], alive)|, k)
    ensures BitsAhead(vo, objs, k, cursor, regions[f].end)
  {
    forall i | 0 <= i < |Live(objs[..k], alive)|
      ensures !(cursor <= slots[i].addr < regions[f].end)
    {
      var m := FilledFor(c, regions, objs, alive, slots, k, i);
      assert InRegion(c, regions, slots[i]) && InRegion(c, regions, objs[m]);
    }
  }

  // ---------- the outcome ----------

  /** Every live object has arrived in its slot and the space holds exactly the slots, ready for the next cycle. */
  ghost predicate Compacted(c: Config, regions: seq<Region>, mem0: Memory, mem: Memory, vo: set<int>, live: seq<Obj>,
                            slots: seq<Obj>) {
    && Laid(c, regions, mem, vo, slots) && AllClear(c, mem, slots, 0)
    && |slots| == |live| && forall i :: 0 <= i < |live| ==> Arrived(c, mem0, mem, live[i], slots[i])
  }

  lemma AllMoved(c: Config, regions: seq<Region>, mem0: Memory, vo0: set<int>, mem: Memory, vo: set<int>,
                 objs: seq<Obj>, alive: set<int>, slots: seq<Obj>)
    requires Laid(c, regions, mem0, vo0, objs) && Placed(c, regions, Live(objs, alive), slots)
    requires Moved(c, mem0, mem, objs, alive, slots, |objs|) && MovedBits(vo, objs, slots, |Live(objs, alive)|, |objs|)
    ensures Compacted(c, regions, mem0, mem, vo, Live(objs, alive), slots)
  {
    assert objs[..|objs|] == objs;
    var live := Live(objs, alive);
    forall i | 0 <= i < |slots|
      ensures Load(mem, slots[i].addr) == Head(slots[i].size, slots[i].align, slots[i].offset)
    {
      var m := LiveMembers(objs, alive, i);
      assert Arrived(c, mem0, mem, live[i], slots[i]);
      assert InRegion(c, regions, slots[i]) && InBody(slots[i], slots[i].addr);
    }
  }

  // ---------- what compaction reads ----------

  lemma UnvisitedIsIntact(c: Config, regions: seq<Region>, mem0: Memory, mem: Memory, objs: seq<Obj>, alive: set<int>,
                          slots: seq<Obj>, k: int)
    requires ValidConfig(c) && Moved(c, mem0, mem, objs, alive, slots, k) && k < |objs| && InRegion(c, regions, objs[k])
    ensures Load(mem, objs[k].addr) == Load(mem0, objs[k].addr)
    ensures Load(mem, objs[k].addr - c.word) == Load(mem0, objs[k].addr - c.word)
  {
    assert Intact(c, mem0, mem, objs[k]);
    assert InWhole(c, objs[k], objs[k].addr) && InWhole(c, objs[k], objs[k].addr - c.word);
  }

  /** The header word tells the live objects, and where each goes. */
  lemma HeaderIsRead(c: Config, regions: seq<Region>, mem: Memory, objs: seq<Obj>, alive: set<int>, slots: seq<Obj>,
                     k: int)
    requires ValidConfig(c) && Forwarded(c, mem, alive, objs, Live(objs, alive), slots) && 0 <= k < |objs|
    requires Placed(c, regions, Live(objs, alive), slots)
    ensures var j := |Live(objs[..k], alive)|;
      if objs[k].addr in alive then j < |slots| && Load(mem, objs[k].addr - c.word) == Ref(slots[j].addr)
      else Load(mem, objs[k].addr - c.word) == Zero
  {
    hide Live, WellLaid, SlotFor;
    if objs[k].addr in alive {
      NextSlotIs(c, regions, objs, alive, slots, k);
    } else {
      assert HeaderClear(c, mem, objs[k]);
    }
  }

  lemma PlacedAt(c: Config, regions: seq<Region>, live: seq<Obj>, slots: seq<Obj>, j: int)
    requires Placed(c, regions, live, slots) && 0 <= j < |slots|
    ensures InRegion(c, regions, slots[j])
  {
  }

  lemma MovedAhead(c: Config, regions: seq<Region>, mem0: Memory, vo0: set<int>, mem: Memory, objs: seq<Obj>,
                   alive: set<int>, slots: seq<Obj>, k: int)
    requires Laid(c, regions, mem0, vo0, objs) && Moved(c, mem0, mem, objs, alive, slots, k)
    ensures forall i :: k <= i < |objs| ==> Load(mem, objs[i].addr) == Head(objs[i].size, objs[i].align, objs[i].offset)
  {
    forall i | k <= i < |objs|
      ensures Load(mem, objs[i].addr) == Load(mem0, objs[i].addr)
    {
      assert InRegion(c, regions, objs[i]) && Intact(c, mem0, mem, objs[i]);
      assert InWhole(c, objs[i], objs[i].addr);
    }
  }

  /** The end of the last of the first `j` slots. */
  ghost function LastEnd(slots: seq<Obj>, j: int): int {
    if 0 < j <= |slots| then slots[j - 1].addr + slots[j - 1].size else 0
  }

  lemma LiveCount(c: Config, regions: seq<Region>, objs: seq<Obj>, alive: set<int>, slots: seq<Obj>, k: int)
    requires 0 <= k <= |objs| && Placed(c, regions, Live(objs, alive), slots)
    ensures |Live(objs[..k], alive)| <= |slots| == |Live(objs, alive)|
  {
    LivePrefix(objs, alive, k);
  }

  // ---------- the whole cycle ----------

  /** Where a reference points after the cycle: to the slot of its target, if the target is live. */
  ghost predicate Retargets(live: seq<Obj>, slots: seq<Obj>, was: Cell, now: Cell)
    requires |slots| == |live|
  {
    match was
    case Ref(t) => now.Ref? &&
      if exists j :: 0 <= j < |live| && live[j].addr == t
      then exists j :: 0 <= j < |live| && live[j].addr == t && now.target == slots[j].addr
      else now.target == t
    case _ => now == was
  }

  /** Between the two passes every cell of every live object is mapped once; headers and dead objects are as before. */
  ghost predicate RefsUpdated(c: Config, mem: Memory, mem': Memory, objs: seq<Obj>, alive: set<int>, slots: seq<Obj>) {
    && |slots| == |Live(objs, alive)|
    && (forall i, x :: 0 <= i < |objs| && InBody(objs[i], x) && objs[i].addr in alive ==>
          Retargets(Live(objs, alive), slots, Load(mem, x), Load(mem', x)))
    && (forall i, x :: 0 <= i < |objs| && InBody(objs[i], x) && objs[i].addr !in alive ==>
      Load(mem', x) == Load(mem, x))
    && (forall i, x :: 0 <= i < |objs| && InWhole(c, objs[i], x) && x < objs[i].addr ==> Load(mem', x) == Load(mem, x))
  }

  lemma UpdateKeepsHeader(c: Config, regions: seq<Region>, mem: Memory, mem': Memory, objs: seq<Obj>, alive: set<int>,
                          slots: seq<Obj>, i: int)
    requires ValidConfig(c) && RefsUpdated(c, mem, mem', objs, alive, slots) && 0 <= i < |objs|
    requires InRegion(c, regions, objs[i])
    ensures Load(mem', objs[i].addr - c.word) == Load(mem, objs[i].addr - c.word)
    ensures Load(mem, objs[i].addr).Head? ==> Load(mem', objs[i].addr) == Load(mem, objs[i].addr)
    ensures HeaderClear(c, mem, objs[i]) ==> HeaderClear(c, mem', objs[i])
  {
    assert InBody(objs[i], objs[i].addr) && InWhole(c, objs[i], objs[i].addr - c.word);
    forall x | objs[i].addr - c.word <= x < objs[i].addr
      ensures Load(mem', x) == Load(mem, x)
    {
      assert InWhole(c, objs[i], x);
    }
  }

  /** Updating references leaves what compaction needs: the objects and their forwarding pointers. */
  lemma UpdateKeepsForwarding(c: Config, regions: seq<Region>, mem: Memory, mem': Memory, vo: set<int>, objs: seq<Obj>,
                              alive: set<int>, slots: seq<Obj>)
    requires Laid(c, regions, mem, vo, objs) && Forwarded(c, mem, alive, objs, Live(objs, alive), slots)
    requires RefsUpdated(c, mem, mem', objs, alive, slots)
    ensures Laid(c, regions, mem', vo, objs) && Forwarded(c, mem', alive, objs, Live(objs, alive), slots)
  {
    hide RefsUpdated, HeaderClear, ValidRegions, Live, InRegion;
    forall i | 0 <= i < |objs|
      ensures Load(mem', objs[i].addr) == Load(mem, objs[i].addr)
      ensures Load(mem', objs[i].addr - c.word) == Load(mem, objs[i].addr - c.word)
      ensures HeaderClear(c, mem, objs[i]) ==> HeaderClear(c, mem', objs[i])
    {
      UpdateKeepsHeader(c, regions, mem, mem', objs, alive, slots, i);
    }
    forall i | 0 <= i < |Live(objs, alive)|
      ensures Load(mem', Live(objs, alive)[i].addr - c.word) == Ref(slots[i].addr)
    {
      var j := LiveMembers(objs, alive, i);
    }
  }

  lemma CellPreserved(c: Config, mem0: Memory, mem1: Memory, mem2: Memory, objs: seq<Obj>, alive: set<int>,
                      slots: seq<Obj>, i: int, x: int)
    requires RefsUpdated(c, mem0, mem1, objs, alive, slots) && 0 <= i < |slots| && InBody(Live(objs, alive)[i], x)
    requires Arrived(c, mem1, mem2, Live(objs, alive)[i], slots[i]) && slots[i].size == Live(objs, alive)[i].size
    ensures Retargets(Live(objs, alive), slots, Load(mem0, x),
      Load(mem2, x - Live(objs, alive)[i].addr + slots[i].addr))
  {
    hide Retargets, Live;
    var o := Live(objs, alive)[i];
    var j := LiveMembers(objs, alive, i);
    assert InBody(slots[i], x - o.addr + slots[i].addr);
    assert x - o.addr + slots[i].addr - slots[i].addr + o.addr == x;
    assert InBody(objs[j], x);
  }

  /**
   Meaning is preserved: after the cycle every live object lies in its slot with the same cells,
   except that references to live objects point to their slots; distinct objects have distinct
   slots, so the object graph is the same up to renaming.
   */
  lemma GraphPreserved(c: Config, regions: seq<Region>, mem0: Memory, mem1: Memory, mem2: Memory, vo: set<int>,
                       objs: seq<Obj>, alive: set<int>, slots: seq<Obj>)
    requires RefsUpdated(c, mem0, mem1, objs, alive, slots)
    requires Compacted(c, regions, mem1, mem2, vo, Live(objs, alive), slots)
    requires Placed(c, regions, Live(objs, alive), slots)
    ensures forall i, x :: 0 <= i < |slots| && InBody(Live(objs, alive)[i], x) ==>
      Retargets(Live(objs, alive), slots, Load(mem0, x), Load(mem2, x - Live(objs, alive)[i].addr + slots[i].addr))
    ensures forall i, j :: 0 <= i < j < |slots| ==> slots[i].addr != slots[j].addr
  {
    hide RefsUpdated, Retargets, Arrived, Holds, AllClear, Live, ValidRegions;
    forall i, x | 0 <= i < |slots| && InBody(Live(objs, alive)[i], x)
      ensures Retargets(Live(objs, alive), slots, Load(mem0, x),
        Load(mem2, x - Live(objs, alive)[i].addr + slots[i].addr))
    {
      CellPreserved(c, mem0, mem1, mem2, objs, alive, slots, i, x);
    }
    forall i, j | 0 <= i < j < |slots|
      ensures slots[i].addr != slots[j].addr
    {
      Apart(c, regions, slots[i], slots[j]);
    }
  }

  /** The slots leave as much room in earlier regions as their objects did. */
  lemma RoomForSlots(c: Config, regions: seq<Region>, objs: seq<Obj>, alive: set<int>, slots: seq<Obj>)
    requires RoomInEarlierRegions(c, regions, objs) && Placed(c, regions, Live(objs, alive), slots)
    ensures RoomInEarlierRegions(c, regions, slots)
  {
    hide WellLaid, Live, AlignUp;
    forall i, r | 0 <= i < |slots| && 0 <= r < slots[i].region && r < |regions|
      ensures AlignUp(regions[r].start, slots[i].align, slots[i].offset) + c.header + slots[i].size <= regions[r].end
    {
      var j := LiveMembers(objs, alive, i);
      assert SlotFor(slots[i], objs[j]);
    }
  }

  lemma BodiesKept(mem: Memory, mem': Memory, objs: seq<Obj>, alive: set<int>, i: int, x: int)
    requires SameBodies(mem, mem', objs) && 0 <= i < |Live(objs, alive)| && InBody(Live(objs, alive)[i], x)
    ensures Load(mem', x) == Load(mem, x)
  {
    hide Live;
    var j := LiveMembers(objs, alive, i);
    assert InBody(objs[j], x);
  }

  /**
   A whole cycle: forwarding pointers are calculated (`mem` to `mem0`), references updated (to `mem1`) and objects
   moved (to `mem2`).  The graph is that of the memory before the cycle, and the next cycle can begin.
   */
  lemma CycleMeaning(c: Config, regions: seq<Region>, mem: Memory, mem0: Memory, mem1: Memory, mem2: Memory,
                     vo: set<int>, objs: seq<Obj>, alive: set<int>, slots: seq<Obj>)
    requires RoomInEarlierRegions(c, regions, objs) && Placed(c, regions, Live(objs, alive), slots)
    requires SameBodies(mem, mem0, objs) && RefsUpdated(c, mem0, mem1, objs, alive, slots)
    requires Compacted(c, regions, mem1, mem2, vo, Live(objs, alive), slots)
    ensures forall i, x :: 0 <= i < |slots| && InBody(Live(objs, alive)[i], x) ==>
      Retargets(Live(objs, alive), slots, Load(mem, x), Load(mem2, x - Live(objs, alive)[i].addr + slots[i].addr))
    ensures forall i, j :: 0 <= i < j < |slots| ==> slots[i].addr != slots[j].addr
    ensures Laid(c, regions, mem2, vo, slots) && AllClear(c, mem2, slots, 0) && RoomInEarlierRegions(c, regions, slots)
  {
    hide RefsUpdated, Retargets, Arrived, Laid, AllClear, Live, SameBodies, RoomInEarlierRegions, InBody, WellLaid,
      SlotFor, InRegion;
    RoomForSlots(c, regions, objs, alive, slots);
    GraphPreserved(c, regions, mem0, mem1, mem2, vo, objs, alive, slots);
    var live := Live(objs, alive);
    forall i, x | 0 <= i < |slots| && InBody(live[i], x)
      ensures Retargets(live, slots, Load(mem, x), Load(mem2, x - live[i].addr + slots[i].addr))
    {
      BodiesKept(mem, mem0, objs, alive, i, x);
    }
    hide Compacted, Placed;
  }
}
