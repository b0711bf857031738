/**
 The large object space without reference counting and log bits (src/policy/largeobjectspace.rs) and
 its treadmill (src/util/treadmill.rs), on values.
 */
module LargeObjects {

  const MARK_BIT: bv8 := 1
  const NURSERY_BIT: bv8 := 2
  const LOS_BIT_MASK: bv8 := 3

  /** `bits` holds the mark and nursery bits; `released` counts how often the pages of an object were released. */
  datatype Space = Space(
    markState: bv8, inNurseryGc: bool, bits: map<nat, bv8>,
    from: set<nat>, to: set<nat>, collect: set<nat>, alloc: set<nat>, released: multiset<nat>)

  function BitsOf(s: Space, o: nat): bv8 {
    if o in s.bits then s.bits[o] else 0
  }

  predicate InNursery(s: Space, o: nat) {
    BitsOf(s, o) & NURSERY_BIT == NURSERY_BIT
  }

  function Objects(s: Space): set<nat> {
    s.from + s.to + s.collect + s.alloc
  }

  function FreshBits(before: bv8, markState: bv8, nursery: bool): bv8 {
    (before & !LOS_BIT_MASK) | markState | (if nursery then NURSERY_BIT else 0)
  }

  function MarkedBits(before: bv8, markState: bv8): bv8 {
    (before & !LOS_BIT_MASK) | markState
  }

  /** initialize_object_metadata. */
  function Initialized(s: Space, o: nat, nursery: bool): Space {
    var t := s.(bits := s.bits[o := FreshBits(BitsOf(s, o), s.markState, nursery)]);
    if nursery then t.(alloc := s.alloc + {o}) else t.(to := s.to + {o})
  }

  function Flipped(s: Space, fullHeap: bool): Space {
    var t := s.(alloc := s.collect, collect := s.alloc);
    if fullHeap then t.(from := s.to, to := s.from) else t
  }

  function Prepared(s: Space, fullHeap: bool): Space {
    var t := if fullHeap then s.(markState := MARK_BIT - s.markState) else s;
    Flipped(t, fullHeap).(inNurseryGc := !fullHeap)
  }

  function MarkMask(s: Space): bv8 {
    if s.inNurseryGc then LOS_BIT_MASK else MARK_BIT
  }

  /** Whether test_and_mark succeeds. */
  predicate CanMark(s: Space, o: nat) {
    BitsOf(s, o) & MarkMask(s) != s.markState
  }

  function Marked(s: Space, o: nat): Space {
    s.(bits := s.bits[o := MarkedBits(BitsOf(s, o), s.markState)])
  }

  function Moved(s: Space, o: nat, nursery: bool): Space {
    if nursery then s.(collect := s.collect - {o}, to := s.to + {o})
    else s.(from := s.from - {o}, to := s.to + {o})
  }

  /** Whether trace_object moves and enqueues the object. */
  predicate Catches(s: Space, o: nat) {
    (!s.inNurseryGc || InNursery(s, o)) && CanMark(s, o)
  }

  function Traced(s: Space, o: nat): Space {
    if Catches(s, o) then Moved(Marked(s, o), o, InNursery(s, o)) else s
  }

  /** release: sweep the nursery and, in a full collection, the from-space. */
  function Released(s: Space, fullHeap: bool): Space {
    var t := s.(collect := {}, released := s.released + multiset(s.collect));
    if fullHeap then t.(from := {}, released := t.released + multiset(s.from)) else t
  }

  // ---------- the invariants ----------

  /** The bits of an object, cut to the two that the space uses. */
  predicate Has(s: Space, o: nat, value: bv8) {
    BitsOf(s, o) & LOS_BIT_MASK == value
  }

  ghost predicate Disjoint(s: Space) {
    && s.from !! s.to && s.from !! s.collect && s.from !! s.alloc
    && s.to !! s.collect && s.to !! s.alloc && s.collect !! s.alloc
  }

  ghost predicate AllHave(s: Space, objects: set<nat>, value: bv8) {
    forall o :: o in objects ==> Has(s, o, value)
  }

  /** Between collections: new objects are in the nursery, all others are marked. */
  ghost predicate Resting(s: Space) {
    && s.markState <= 1 && Disjoint(s) && s.from == {} && s.collect == {}
    && AllHave(s, s.to, s.markState) && AllHave(s, s.alloc, s.markState | NURSERY_BIT)
  }

  /** During a collection: the candidates that were not traced yet have their old bits. */
  ghost predicate Collecting(s: Space, fullHeap: bool) {
    && s.markState <= 1 && Disjoint(s) && s.alloc == {} && s.inNurseryGc == !fullHeap
    && AllHave(s, s.to, s.markState)
    && (if fullHeap then
          AllHave(s, s.from, MARK_BIT - s.markState) && AllHave(s, s.collect, (MARK_BIT - s.markState) | NURSERY_BIT)
        else
          s.from == {} && AllHave(s, s.collect, s.markState | NURSERY_BIT))
  }

  /** Objects that nobody traced. */
  ghost function Doomed(s: Space): set<nat> {
    s.from + s.collect
  }

  // ---------- single objects ----------

  /** Of the metadata only the two bits of `o` change, and they become `value`. */
  ghost predicate OnlyBits(s: Space, t: Space, o: nat, value: bv8) {
    && Has(t, o, value) && BitsOf(t, o) & !LOS_BIT_MASK == BitsOf(s, o) & !LOS_BIT_MASK
    && (forall p :: p != o ==> BitsOf(t, p) == BitsOf(s, p))
    && t.markState == s.markState && t.inNurseryGc == s.inNurseryGc && t.released == s.released
  }

  /** An allocated object is in the nursery, with its bit; one that the collector made is marked, in the to-space. */
  ghost predicate IsMade(s: Space, t: Space, o: nat, nursery: bool) {
    && OnlyBits(s, t, o, if nursery then s.markState | NURSERY_BIT else s.markState)
    && t.alloc == (if nursery then s.alloc + {o} else s.alloc)
    && t.to == (if nursery then s.to else s.to + {o})
    && t.from == s.from && t.collect == s.collect
  }

  lemma BitsSet(s: Space, t: Space, o: nat, value: bv8, low: bv8)
    requires t.bits == s.bits[o := value] && value & LOS_BIT_MASK == low
    requires value & !LOS_BIT_MASK == BitsOf(s, o) & !LOS_BIT_MASK
    requires t.markState == s.markState && t.inNurseryGc == s.inNurseryGc && t.released == s.released
    ensures OnlyBits(s, t, o, low)
  {
  }

  lemma FreshValue(before: bv8, markState: bv8, nursery: bool)
    requires markState <= 1
    ensures FreshBits(before, markState, nursery) & LOS_BIT_MASK ==
      if nursery then markState | NURSERY_BIT else markState
    ensures FreshBits(before, markState, nursery) & !LOS_BIT_MASK == before & !LOS_BIT_MASK
  {
  }

  lemma InitializedMeaning(s: Space, o: nat, nursery: bool)
    requires s.markState <= 1
    ensures IsMade(s, Initialized(s, o, nursery), o, nursery)
  {
    hide FreshBits;
    var t, value := Initialized(s, o, nursery), FreshBits(BitsOf(s, o), s.markState, nursery);
    FreshValue(BitsOf(s, o), s.markState, nursery);
    assert t.bits == s.bits[o := value] && BitsOf(t, o) == value;
    BitsSet(s, t, o, value, if nursery then s.markState | NURSERY_BIT else s.markState);
    hide OnlyBits;
  }

  lemma MarkedValue(before: bv8, markState: bv8)
    requires markState <= 1
    ensures MarkedBits(before, markState) & LOS_BIT_MASK == markState
    ensures MarkedBits(before, markState) & !LOS_BIT_MASK == before & !LOS_BIT_MASK
  {
  }

  /** Marking sets the mark bit to the current state, clears the nursery bit, and touches nothing else. */
  lemma MarkedMeaning(s: Space, o: nat)
    requires s.markState <= 1
    ensures OnlyBits(s, Marked(s, o), o, s.markState)
    ensures Marked(s, o) == s.(bits := Marked(s, o).bits)
  {
    MarkedValue(BitsOf(s, o), s.markState);
    hide MarkedBits;
  }

  lemma InitializedKeeps(s: Space, o: nat, nursery: bool)
    requires Resting(s) && o !in Objects(s)
    ensures Resting(Initialized(s, o, nursery)) && Objects(Initialized(s, o, nursery)) == Objects(s) + {o}
  {
  }

  /** Objects that the collector puts into the space are marked already. */
  lemma PromotedKeeps(s: Space, o: nat, fullHeap: bool)
    requires Collecting(s, fullHeap) && o !in Objects(s)
    ensures Collecting(Initialized(s, o, false), fullHeap)
    ensures Doomed(Initialized(s, o, false)) == Doomed(s) && Objects(Initialized(s, o, false)) == Objects(s) + {o}
  {
  }

  lemma PreparedKeeps(s: Space, fullHeap: bool)
    requires Resting(s)
    ensures Collecting(Prepared(s, fullHeap), fullHeap)
    ensures Objects(Prepared(s, fullHeap)) == Objects(s)
    ensures Doomed(Prepared(s, fullHeap)) == if fullHeap then s.alloc + s.to else s.alloc
  {
  }

  /** trace_object moves exactly the candidates, once. */
  lemma TracedKeeps(s: Space, o: nat, fullHeap: bool)
    requires Collecting(s, fullHeap) && o in Objects(s)
    ensures Catches(s, o) <==> o in Doomed(s)
    ensures o in Doomed(s) ==> (InNursery(s, o) <==> o in s.collect)
    ensures Collecting(Traced(s, o), fullHeap)
    ensures Doomed(Traced(s, o)) == Doomed(s) - {o} && Objects(Traced(s, o)) == Objects(s)
  {
  }

  lemma ReleasedRests(s: Space, fullHeap: bool)
    requires Collecting(s, fullHeap)
    ensures Resting(Released(s, fullHeap))
  {
  }

  lemma ReleasedKeeps(s: Space, fullHeap: bool)
    requires Collecting(s, fullHeap)
    ensures Resting(Released(s, fullHeap))
    ensures Released(s, fullHeap).released == s.released + multiset(Doomed(s))
    ensures Objects(Released(s, fullHeap)) == Objects(s) - Doomed(s)
  {
    ReleasedRests(s, fullHeap);
    assert s.collect !! s.from && s.to !! s.from && s.to !! s.collect && s.alloc == {};
    assert !fullHeap ==> s.from == {};
    hide Collecting, Resting;
    assert Objects(Released(s, fullHeap)) == s.to == Objects(s) - Doomed(s);
    assert Doomed(s) == s.collect + s.from;
    hide Objects;
    DisjointUnion(s.collect, s.from);
    Regroup(s.released, multiset(s.collect), multiset(s.from));
  }

  lemma Regroup(a: multiset<nat>, b: multiset<nat>, c: multiset<nat>)
    ensures (a + b) + c == a + (b + c)
  {
  }

  lemma DisjointUnion(a: set<nat>, b: set<nat>)
    requires a !! b
    ensures multiset(a + b) == multiset(a) + multiset(b)
  {
  }

  // ---------- a whole collection ----------

  function TracedAll(s: Space, order: seq<nat>): Space
    decreases |order|
  {
    if order == [] then s else Traced(TracedAll(s, order[..|order| - 1]), order[|order| - 1])
  }

  ghost function SetOf(xs: seq<nat>): set<nat> {
    set x | x in xs
  }

  lemma {:induction false} TracedAllKeeps(s: Space, order: seq<nat>, fullHeap: bool)
    requires Collecting(s, fullHeap) && SetOf(order) <= Objects(s)
    ensures Collecting(TracedAll(s, order), fullHeap)
    ensures Doomed(TracedAll(s, order)) == Doomed(s) - SetOf(order) && Objects(TracedAll(s, order)) == Objects(s)
    ensures TracedAll(s, order).released == s.released
    decreases |order|
  {
    if order != [] {
      var front, o := order[..|order| - 1], order[|order| - 1];
      assert order == front + [o];
      assert SetOf(order) == SetOf(front) + {o};
      TracedAllKeeps(s, front, fullHeap);
      assert o in SetOf(order);
      TracedKeeps(TracedAll(s, front), o, fullHeap);
      hide Collecting, Objects, Traced, Doomed;
      assert Doomed(s) - SetOf(front) - {o} == Doomed(s) - SetOf(order);
      TracedReleasesNothing(TracedAll(s, front), o);
    }
  }

  lemma TracedReleasesNothing(s: Space, o: nat)
    ensures Traced(s, o).released == s.released
  {
  }

  // ---------- the order does not matter ----------

  /** What tracing a set of objects makes of the space. */
  ghost function TracedSet(s: Space, objects: set<nat>): Space {
    var caught := Doomed(s) * objects;
    var keys := s.bits.Keys + caught;
    s.(bits := map o | o in keys :: if o in caught then MarkedBits(BitsOf(s, o), s.markState) else BitsOf(s, o),
       from := s.from - objects, collect := s.collect - objects, to := s.to + caught)
  }

  /** The same of one object. */
  ghost predicate ObjectTraced(s: Space, t: Space, objects: set<nat>, o: nat) {
    var caught := o in Doomed(s) && o in objects;
    && (o in t.bits <==> o in s.bits || caught)
    && BitsOf(t, o) == (if caught then MarkedBits(BitsOf(s, o), s.markState) else BitsOf(s, o))
    && (o in t.from <==> o in s.from && o !in objects) && (o in t.collect <==> o in s.collect && o !in objects)
    && (o in t.to <==> o in s.to || caught) && (o in t.alloc <==> o in s.alloc)
  }

  lemma TracedSetIs(s: Space, t: Space, objects: set<nat>)
    requires forall o: nat :: ObjectTraced(s, t, objects, o)
    requires t.markState == s.markState && t.inNurseryGc == s.inNurseryGc && t.released == s.released
    ensures t == TracedSet(s, objects)
  {
    var r := TracedSet(s, objects);
    assert forall o: nat :: ObjectTraced(s, t, objects, o) ==> (o in t.bits <==> o in r.bits);
    assert t.bits.Keys == r.bits.Keys;
    forall o | o in t.bits
      ensures t.bits[o] == r.bits[o]
    {
      assert ObjectTraced(s, t, objects, o);
    }
    assert t.bits == r.bits;
    assert forall o: nat :: ObjectTraced(s, t, objects, o) ==>
      (o in t.from <==> o in r.from) && (o in t.to <==> o in r.to);
    assert forall o: nat :: ObjectTraced(s, t, objects, o) ==>
      (o in t.collect <==> o in r.collect) && (o in t.alloc <==> o in r.alloc);
    assert t.from == r.from && t.to == r.to && t.collect == r.collect && t.alloc == r.alloc;
  }

  lemma TracedOne(s: Space, t: Space, objects: set<nat>, o: nat, p: nat, fullHeap: bool)
    requires Collecting(s, fullHeap) && Collecting(t, fullHeap) && t.markState == s.markState
    requires ObjectTraced(s, t, objects, p) && (p == o ==> p in Objects(t))
    ensures ObjectTraced(s, Traced(t, o), objects + {o}, p)
  {
    if p == o {
      TracedKeeps(t, o, fullHeap);
    }
  }

  /** Tracing objects one after the other, in any order and however often, is tracing their set. */
  lemma {:induction false} TracedAllIsSet(s: Space, order: seq<nat>, fullHeap: bool)
    requires Collecting(s, fullHeap) && SetOf(order) <= Objects(s)
    ensures TracedAll(s, order) == TracedSet(s, SetOf(order))
    decreases |order|
  {
    if order == [] {
      forall p: nat
        ensures ObjectTraced(s, s, {}, p)
      {
      }
      TracedSetIs(s, s, SetOf(order));
    } else {
      var front, o := order[..|order| - 1], order[|order| - 1];
      assert order == front + [o];
      assert o in SetOf(order) && SetOf(order) == SetOf(front) + {o};
      TracedAllIsSet(s, front, fullHeap);
      TracedAllKeeps(s, front, fullHeap);
      var t := TracedAll(s, front);
      forall p: nat
        ensures ObjectTraced(s, Traced(t, o), SetOf(order), p)
      {
        assert ObjectTraced(s, t, SetOf(front), p);
        TracedOne(s, t, SetOf(front), o, p, fullHeap);
      }
      TracedSetIs(s, Traced(t, o), SetOf(order));
    }
  }

  function Collection(s: Space, fullHeap: bool, order: seq<nat>): Space {
    Released(TracedAll(Prepared(s, fullHeap), order), fullHeap)
  }

  /**
   A collection releases exactly the candidates that were not traced, each of them once; the others
   survive as marked objects, and the space is ready for the next collection.
   */
  lemma CollectionReleasesUntraced(s: Space, fullHeap: bool, order: seq<nat>)
    requires Resting(s) && SetOf(order) <= Objects(s)
    ensures var candidates := if fullHeap then s.alloc + s.to else s.alloc;
      var t := Collection(s, fullHeap, order);
      && t.released == s.released + multiset(candidates - SetOf(order))
      && t.to == Objects(s) - (candidates - SetOf(order)) && t.alloc == {}
      && Resting(t)
  {
    var p := Prepared(s, fullHeap);
    PreparedKeeps(s, fullHeap);
    TracedAllKeeps(p, order, fullHeap);
    ReleasedKeeps(TracedAll(p, order), fullHeap);
    hide TracedAll;
  }

  // ---------- any sequence of operations ----------

  /** The operations of mutators and of the collector. */
  datatype Op =
    | Allocate(o: nat, nursery: bool)
    | Prepare(fullHeap: bool)
    | Trace(o: nat)
    | Promote(o: nat)
    | Release

  datatype Phase = Mutating | Full | Nursery

  /** `born` counts how often a place became an object. */
  datatype State = State(space: Space, phase: Phase, born: multiset<nat>)

  predicate Enabled(s: State, op: Op) {
    match op
    case Allocate(o, _) => s.phase == Mutating && o !in Objects(s.space)
    case Prepare(_) => s.phase == Mutating
    case Trace(o) => s.phase != Mutating && o in Objects(s.space)
    case Promote(o) => s.phase != Mutating && o !in Objects(s.space)
    case Release => s.phase != Mutating
  }

  function Apply(s: State, op: Op): State
    requires Enabled(s, op)
  {
    match op
    case Allocate(o, nursery) => s.(space := Initialized(s.space, o, nursery), born := s.born + multiset{o})
    case Prepare(fullHeap) => s.(space := Prepared(s.space, fullHeap), phase := if fullHeap then Full else Nursery)
    case Trace(o) => s.(space := Traced(s.space, o))
    case Promote(o) => s.(space := Initialized(s.space, o, false), born := s.born + multiset{o})
    case Release => s.(space := Released(s.space, s.phase == Full), phase := Mutating)
  }

  predicate IsRun(s: State, ops: seq<Op>)
    decreases |ops|
  {
    ops == [] || (Enabled(s, ops[0]) && IsRun(Apply(s, ops[0]), ops[1..]))
  }

  function Run(s: State, ops: seq<Op>): State
    requires IsRun(s, ops)
    decreases |ops|
  {
    if ops == [] then s else Run(Apply(s, ops[0]), ops[1..])
  }

  ghost predicate Inv(s: State) {
    && (if s.phase == Mutating then Resting(s.space) else Collecting(s.space, s.phase == Full))
    && s.born == s.space.released + multiset(Objects(s.space))
  }

  lemma OneMore(objects: set<nat>, o: nat)
    requires o !in objects
    ensures multiset(objects + {o}) == multiset(objects) + multiset{o}
  {
    DisjointUnion(objects, {o});
  }

  lemma StepKeeps(s: State, op: Op)
    requires Inv(s) && Enabled(s, op)
    ensures Inv(Apply(s, op))
  {
    hide Resting, Collecting, Objects, Doomed, Traced, Initialized, Prepared, Released;
    var full, space := s.phase == Full, s.space;
    match op
    case Allocate(o, nursery) =>
      InitializedKeeps(space, o, nursery);
      OneMore(Objects(space), o);
      Regroup(space.released, multiset(Objects(space)), multiset{o});
      KeepsReleased(space, o, nursery, true);
    case Prepare(fullHeap) =>
      PreparedKeeps(space, fullHeap);
      KeepsReleased(space, 0, true, fullHeap);
    case Trace(o) =>
      TracedKeeps(space, o, full);
      TracedReleasesNothing(space, o);
    case Promote(o) =>
      PromotedKeeps(space, o, full);
      OneMore(Objects(space), o);
      Regroup(space.released, multiset(Objects(space)), multiset{o});
      KeepsReleased(space, o, false, true);
    case Release =>
      ReleasedKeeps(space, full);
      LeftAndReleased(space);
      Regroup(space.released, multiset(Doomed(space)), multiset(Objects(space) - Doomed(space)));
  }

  lemma KeepsReleased(s: Space, o: nat, nursery: bool, fullHeap: bool)
    ensures Initialized(s, o, nursery).released == s.released == Prepared(s, fullHeap).released
  {
  }

  lemma LeftAndReleased(s: Space)
    ensures multiset(Objects(s)) == multiset(Doomed(s)) + multiset(Objects(s) - Doomed(s))
  {
    DisjointUnion(Doomed(s), Objects(s) - Doomed(s));
    assert Objects(s) == Doomed(s) + (Objects(s) - Doomed(s));
  }

  /**
   Over any sequence of allocations and collections the four sets stay disjoint, bits agree with the sets,
   and every object ever made is either still in one of the sets or was released once.
   */
  lemma {:induction false} RunKeeps(s: State, ops: seq<Op>)
    requires Inv(s) && IsRun(s, ops)
    ensures Inv(Run(s, ops))
    ensures Disjoint(Run(s, ops).space)
    ensures Run(s, ops).phase == Mutating ==> Run(s, ops).space.from == {} && Run(s, ops).space.collect == {}
    decreases |ops|
  {
    if ops != [] {
      StepKeeps(s, ops[0]);
      RunKeeps(Apply(s, ops[0]), ops[1..]);
    }
  }

  // ---------- the fate of an object ----------

  /** Where the object is on its way through one collection. */
  ghost predicate OnItsWay(s: State, o: nat, young: bool, traced: bool) {
    if s.phase == Mutating then
      if young then o in s.space.alloc else o in s.space.to
    else if (young || s.phase == Full) && !traced then
      o in Doomed(s.space)
    else
      o in s.space.to
  }

  lemma FateStep(s: State, o: nat, young: bool, traced: bool, op: Op)
    requires Inv(s) && Enabled(s, op) && op != Release && OnItsWay(s, o, young, traced)
    requires s.phase == Mutating ==> !traced
    ensures var t := Apply(s, op);
      && OnItsWay(t, o, young, traced || op == Trace(o)) && t.space.released == s.space.released
      && (t.phase == Mutating ==> !traced && op != Trace(o))
  {
    match op
    case Allocate(_, _) =>
    case Prepare(fullHeap) =>
      PreparedKeeps(s.space, fullHeap);
      assert young ==> o in Doomed(Prepared(s.space, fullHeap));
    case Trace(p) =>
      TracedKeeps(s.space, p, s.phase == Full);
      TracedOthers(s.space, p, o, s.phase == Full);
    case Promote(_) =>
  }

  lemma TracedOthers(s: Space, p: nat, o: nat, fullHeap: bool)
    requires Collecting(s, fullHeap) && p in Objects(s) && o in Objects(s)
    ensures o in Traced(s, p).to <==> o in s.to || (o == p && o in Doomed(s))
    ensures Traced(s, p).released == s.released
  {
    TracedKeeps(s, p, fullHeap);
  }

  lemma {:induction false} FateRun(s: State, o: nat, young: bool, traced: bool, ops: seq<Op>)
    requires Inv(s) && IsRun(s, ops) && Release !in ops && OnItsWay(s, o, young, traced)
    requires s.phase == Mutating ==> !traced
    ensures var t := Run(s, ops);
      Inv(t) && OnItsWay(t, o, young, traced || Trace(o) in ops) && t.space.released == s.space.released
    decreases |ops|
  {
    hide Inv, Enabled, Apply, OnItsWay;
    if ops != [] {
      assert ops == [ops[0]] + ops[1..];
      FateStep(s, o, young, traced, ops[0]);
      StepKeeps(s, ops[0]);
      FateRun(Apply(s, ops[0]), o, young, traced || ops[0] == Trace(o), ops[1..]);
    }
  }

  lemma {:induction false} RunSnoc(s: State, ops: seq<Op>, op: Op)
    requires IsRun(s, ops + [op])
    ensures IsRun(s, ops) && Enabled(Run(s, ops), op) && Run(s, ops + [op]) == Apply(Run(s, ops), op)
    decreases |ops|
  {
    hide Enabled, Apply;
    if ops == [] {
      assert ([] + [op])[1..] == [] && ([] + [op])[0] == op;
    } else {
      assert (ops + [op])[1..] == ops[1..] + [op] && (ops + [op])[0] == ops[0];
      RunSnoc(Apply(s, ops[0]), ops[1..], op);
    }
  }

  /**
   What one collection, with any allocations before it, means for an object: it survives exactly if it was traced,
   or is old and the collection is one of the nursery; otherwise it is released, once.
   */
  lemma CollectionDecides(s: State, o: nat, ops: seq<Op>)
    requires Inv(s) && s.phase == Mutating && o in Objects(s.space)
    requires IsRun(s, ops + [Release]) && Release !in ops
    ensures IsRun(s, ops)
    ensures var t, young, full := Run(s, ops + [Release]), o in s.space.alloc, Run(s, ops).phase == Full;
      if Trace(o) in ops || (!young && !full) then
        o in t.space.to && t.space.released[o] == s.space.released[o]
      else
        o !in Objects(t.space) && t.space.released[o] == s.space.released[o] + 1
  {
    var young := o in s.space.alloc;
    RunSnoc(s, ops, Release);
    FateRun(s, o, young, false, ops);
    hide IsRun, Run;
    var p := Run(s, ops);
    ReleasedKeeps(p.space, p.phase == Full);
    ReleaseDecides(p, o);
  }

  lemma ReleaseDecides(p: State, o: nat)
    requires Inv(p) && p.phase != Mutating && o in Objects(p.space)
    ensures var t := Released(p.space, p.phase == Full);
      if o in Doomed(p.space) then o !in Objects(t) && t.released[o] == p.space.released[o] + 1
      else o in t.to && t.released[o] == p.space.released[o]
  {
    ReleasedKeeps(p.space, p.phase == Full);
  }

  /** An object allocated into the nursery and traced by nobody is released by the next collection, of either kind. */
  lemma NurseryGarbageIsReleased(s: State, o: nat, ops: seq<Op>)
    requires Inv(s) && IsRun(s, [Allocate(o, true)] + ops + [Release]) && Release !in ops && Trace(o) !in ops
    ensures var t := Run(s, [Allocate(o, true)] + ops + [Release]);
      o !in Objects(t.space) && t.space.released[o] == s.space.released[o] + 1
  {
    var all, first := [Allocate(o, true)] + ops + [Release], Allocate(o, true);
    assert all[0] == first && all[1..] == ops + [Release];
    var r := Apply(s, first);
    StepKeeps(s, first);
    assert o in r.space.alloc && r.space.released == s.space.released;
    assert IsRun(r, ops + [Release]) && Run(s, all) == Run(r, ops + [Release]);
    hide IsRun, Run;
    CollectionDecides(r, o, ops);
  }

  lemma EmptySpace()
    ensures Inv(State(Space(0, false, map[], {}, {}, {}, {}, multiset{}), Mutating, multiset{}))
  {
  }
}
