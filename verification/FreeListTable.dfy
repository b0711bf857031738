/**
 The entry table of the packed free list and the straight-line writes that
 src/util/freelist.rs makes to it.  A table is a sequence of entries, two per unit; heads
 have negative unit numbers and come first.
 */
module FreeListTable {
  import opened PackedWord

  type Table = seq<Word>

  predicate InTable(t: Table, k: nat, u: int) {
    0 <= u + k && 2 * (u + k) + 1 < |t|
  }

  function Lo(t: Table, k: nat, u: int): Word
    requires InTable(t, k, u)
  {
    t[2 * (u + k)]
  }

  function Hi(t: Table, k: nat, u: int): Word
    requires InTable(t, k, u)
  {
    t[2 * (u + k) + 1]
  }

  function PutLo(t: Table, k: nat, u: int, w: Word): (r: Table)
    requires InTable(t, k, u)
    ensures |r| == |t|
    ensures forall v {:trigger Lo(r, k, v)} :: InTable(t, k, v) ==> Lo(r, k, v) == if v == u then w else Lo(t, k, v)
    ensures forall v {:trigger Hi(r, k, v)} :: InTable(t, k, v) ==> Hi(r, k, v) == Hi(t, k, v)
  {
    t[2 * (u + k) := w]
  }

  function PutHi(t: Table, k: nat, u: int, w: Word): (r: Table)
    requires InTable(t, k, u)
    ensures |r| == |t|
    ensures forall v {:trigger Hi(r, k, v)} :: InTable(t, k, v) ==> Hi(r, k, v) == if v == u then w else Hi(t, k, v)
    ensures forall v {:trigger Lo(r, k, v)} :: InTable(t, k, v) ==> Lo(r, k, v) == Lo(t, k, v)
  {
    t[2 * (u + k) + 1 := w]
  }

  // ---------- reads ----------

  function Size(t: Table, k: nat, u: int): int
    requires InTable(t, k, u) && (Hi(t, k, u).top ==> InTable(t, k, u + 1))
  {
    if Hi(t, k, u).top then Hi(t, k, u + 1).low else 1
  }

  /** A stored link that is not a unit is read as the head `h` of the list that reads it. */
  function Link(low: Low, h: int): int {
    if low <= MAX_UNITS then low else h
  }

  function Next(t: Table, k: nat, h: int, u: int): int
    requires InTable(t, k, u)
  {
    Link(Hi(t, k, u).low, h)
  }

  function Prev(t: Table, k: nat, h: int, u: int): int
    requires InTable(t, k, u)
  {
    Link(Lo(t, k, u).low, h)
  }

  // ---------- writes ----------

  predicate IsLink(x: int) {
    -MAX_HEADS <= x <= MAX_UNITS
  }

  function SetNext(t: Table, k: nat, u: int, x: int): (r: Table)
    requires InTable(t, k, u) && IsLink(x)
    ensures |r| == |t|
  {
    PutHi(t, k, u, Hi(t, k, u).(low := LinkLow(x)))
  }

  function SetPrev(t: Table, k: nat, u: int, x: int): (r: Table)
    requires InTable(t, k, u) && IsLink(x)
    ensures |r| == |t|
  {
    PutLo(t, k, u, Lo(t, k, u).(low := LinkLow(x)))
  }

  predicate CanSetSize(t: Table, k: nat, u: int, size: int) {
    InTable(t, k, u) && InTable(t, k, u + size - 1) && 1 <= size < LOW_RANGE
  }

  function SetSize(t: Table, k: nat, u: int, size: int): (r: Table)
    requires CanSetSize(t, k, u, size)
    ensures |r| == |t|
  {
    if size > 1 then
      var t1 := PutHi(t, k, u, Hi(t, k, u).(top := true));
      var t2 := PutHi(t1, k, u + 1, Word(true, false, size));
      PutHi(t2, k, u + size - 1, Word(true, false, size))
    else
      PutHi(t, k, u, Hi(t, k, u).(top := false))
  }

  predicate CanSetFree(t: Table, k: nat, u: int) {
    && InTable(t, k, u) && (Hi(t, k, u).top ==> InTable(t, k, u + 1))
    && 1 <= Size(t, k, u) && InTable(t, k, u + Size(t, k, u) - 1)
  }

  function SetFree(t: Table, k: nat, u: int, free: bool): (r: Table)
    requires CanSetFree(t, k, u)
    ensures |r| == |t|
  {
    var t1 := PutLo(t, k, u, Lo(t, k, u).(top := free));
    var last := u + Size(t, k, u) - 1;
    if Size(t, k, u) > 1 then PutLo(t1, k, last, Lo(t1, k, last).(top := free)) else t1
  }

  function SetSentinel(t: Table, k: nat, u: int): (r: Table)
    requires InTable(t, k, u) && IsLink(u)
    ensures |r| == |t|
  {
    PutHi(PutLo(t, k, u, Word(false, false, LinkLow(u))), k, u, Word(false, false, LinkLow(u)))
  }

  function SetFence(t: Table, k: nat, u: int, fenced: bool): (r: Table)
    requires InTable(t, k, u)
    ensures |r| == |t|
  {
    PutLo(t, k, u, Lo(t, k, u).(second := fenced))
  }

  predicate CanLinkFirst(t: Table, k: nat, h: int, u: int) {
    InTable(t, k, u) && InTable(t, k, h) && IsLink(u) && IsLink(h) && InTable(t, k, Next(t, k, h, h))
  }

  /** The four link writes of add_to_free, after the block is marked free. */
  function LinkFirst(t: Table, k: nat, h: int, u: int): (r: Table)
    requires CanLinkFirst(t, k, h, u)
    ensures |r| == |t|
  {
    var next := Next(t, k, h, h);
    var t1 := SetNext(t, k, u, next);
    var t2 := SetNext(t1, k, h, u);
    var t3 := SetPrev(t2, k, u, h);
    SetPrev(t3, k, next, u)
  }

  predicate CanUnlink(t: Table, k: nat, h: int, u: int) {
    InTable(t, k, u) && IsLink(h) && InTable(t, k, Next(t, k, h, u)) && InTable(t, k, Prev(t, k, h, u))
  }

  /** The two link writes of __remove_from_free. */
  function Unlink(t: Table, k: nat, h: int, u: int): (r: Table)
    requires CanUnlink(t, k, h, u)
    ensures |r| == |t|
  {
    var next := Next(t, k, h, u);
    var prev := Prev(t, k, h, u);
    SetPrev(SetNext(t, k, prev, next), k, next, prev)
  }
}
