/** The code of the treadmill and of the large object space. */
module LargeObjectSpaces {
  import opened LargeObjects

  method NewBits(oldValue: bv8, markState: bv8, alloc: bool) returns (newValue: bv8)
    ensures newValue == FreshBits(oldValue, markState, alloc)
  {
    newValue := (oldValue & !LOS_BIT_MASK) | markState;
    if alloc {
      newValue := newValue | NURSERY_BIT;
    }
  }

  /** Whether the masked bits have the value already. */
  method SameBits(ghost s: Space, ghost o: nat, oldValue: bv8, mask: bv8, value: bv8) returns (same: bool)
    requires oldValue == BitsOf(s, o) && mask == MarkMask(s) && value == s.markState
    ensures same <==> !CanMark(s, o)
  {
    same := oldValue & mask == value;
  }

  lemma ZeroIsNotNursery()
    ensures 0 & NURSERY_BIT != NURSERY_BIT
  {
  }

  class TreadMill {
    var fromSpace: set<nat>
    var toSpace: set<nat>
    var collectNursery: set<nat>
    var allocNursery: set<nat>

    constructor ()
      ensures fromSpace == toSpace == collectNursery == allocNursery == {}
    {
      fromSpace, toSpace, collectNursery, allocNursery := {}, {}, {}, {};
    }

    method AddToTreadmill(obj: nat, nursery: bool)
      modifies this
      ensures allocNursery == if nursery then old(allocNursery) + {obj} else old(allocNursery)
      ensures toSpace == if nursery then old(toSpace) else old(toSpace) + {obj}
      ensures fromSpace == old(fromSpace) && collectNursery == old(collectNursery)
    {
      if nursery {
        allocNursery := allocNursery + {obj};
      } else {
        toSpace := toSpace + {obj};
      }
    }

    /** collect_nursery and collect: empty the set and return what was in it, each object once. */
    method Drain(nursery: bool) returns (vals: seq<nat>)
      modifies this
      ensures multiset(vals) == multiset(if nursery then old(collectNursery) else old(fromSpace))
      ensures collectNursery == if nursery then {} else old(collectNursery)
      ensures fromSpace == if nursery then old(fromSpace) else {}
      ensures toSpace == old(toSpace) && allocNursery == old(allocNursery)
    {
      ghost var all := if nursery then collectNursery else fromSpace;
      var rest := if nursery then collectNursery else fromSpace;
      vals := [];
      while rest != {}
        invariant rest <= all && multiset(vals) + multiset(rest) == multiset(all)
        decreases |rest|
      {
        var o :| o in rest;
        vals := vals + [o];
        rest := rest - {o};
      }
      if nursery {
        collectNursery := {};
      } else {
        fromSpace := {};
      }
    }

    method Copy(obj: nat, isInNursery: bool)
      requires obj in if isInNursery then collectNursery else fromSpace
      modifies this
      ensures collectNursery == if isInNursery then old(collectNursery) - {obj} else old(collectNursery)
      ensures fromSpace == if isInNursery then old(fromSpace) else old(fromSpace) - {obj}
      ensures toSpace == old(toSpace) + {obj} && allocNursery == old(allocNursery)
    {
      if isInNursery {
        collectNursery := collectNursery - {obj};
      } else {
        fromSpace := fromSpace - {obj};
      }
      toSpace := toSpace + {obj};
    }

    method Flip(fullHeap: bool)
      modifies this
      ensures allocNursery == old(collectNursery) && collectNursery == old(allocNursery)
      ensures if fullHeap then fromSpace == old(toSpace) && toSpace == old(fromSpace)
              else fromSpace == old(fromSpace) && toSpace == old(toSpace)
    {
      allocNursery, collectNursery := collectNursery, allocNursery;
      if fullHeap {
        fromSpace, toSpace := toSpace, fromSpace;
      }
    }
  }

  class LargeObjectSpace {
    const treadmill: TreadMill
    var markState: bv8
    var inNurseryGc: bool
    var bits: map<nat, bv8>
    var released: multiset<nat>

    constructor (treadmill: TreadMill)
      requires treadmill.fromSpace == treadmill.toSpace == treadmill.collectNursery == treadmill.allocNursery == {}
      ensures this.treadmill == treadmill && Resting(Value()) && Objects(Value()) == {}
    {
      this.treadmill := treadmill;
      markState, inNurseryGc, bits, released := 0, false, map[], multiset{};
    }

    function Value(): Space
      reads this, treadmill
    {
      Space(markState, inNurseryGc, bits, treadmill.fromSpace, treadmill.toSpace,
            treadmill.collectNursery, treadmill.allocNursery, released)
    }

    method InitializeObjectMetadata(obj: nat, alloc: bool)
      modifies this, treadmill
      ensures Value() == Initialized(old(Value()), obj, alloc)
      ensures old(markState) <= 1 ==> IsMade(old(Value()), Value(), obj, alloc)
    {
      if markState <= 1 {
        InitializedMeaning(Value(), obj, alloc);
      }
      hide FreshBits, IsMade;
      var oldValue := if obj in bits then bits[obj] else 0;
      var newValue := NewBits(oldValue, markState, alloc);
      bits := bits[obj := newValue];
      treadmill.AddToTreadmill(obj, alloc);
    }

    method Prepare(fullHeap: bool)
      modifies this, treadmill
      ensures Value() == Prepared(old(Value()), fullHeap)
      ensures old(Resting(Value())) ==>
        && Collecting(Value(), fullHeap) && Objects(Value()) == old(Objects(Value()))
        && Doomed(Value()) == old(treadmill.allocNursery) + if fullHeap then old(treadmill.toSpace) else {}
    {
      ghost var was := Value();
      if Resting(was) {
        PreparedKeeps(was, fullHeap);
      }
      hide Resting, Collecting;
      if fullHeap {
        markState := MARK_BIT - markState;
      }
      treadmill.Flip(fullHeap);
      inNurseryGc := !fullHeap;
    }

    method TestAndMark(obj: nat, value: bv8) returns (marked: bool)
      requires value == markState
      modifies this`bits
      ensures marked <==> CanMark(old(Value()), obj)
      ensures Value() == if marked then Marked(old(Value()), obj) else old(Value())
      ensures marked && value <= 1 ==> OnlyBits(old(Value()), Value(), obj, value)
    {
      if value <= 1 {
        MarkedMeaning(Value(), obj);
      }
      hide MarkedBits, CanMark, OnlyBits;
      var mask := if inNurseryGc then LOS_BIT_MASK else MARK_BIT;
      var oldValue := if obj in bits then bits[obj] else 0;
      var done := SameBits(Value(), obj, oldValue, mask, value);
      if done {
        return false;
      }
      bits := bits[obj := MarkedBits(oldValue, value)];
      return true;
    }

    /** trace_object of an object of the space, during a collection: whether it was enqueued. */
    method TraceObject(obj: nat, ghost fullHeap: bool) returns (enqueued: bool)
      requires Collecting(Value(), fullHeap) && obj in Objects(Value())
      modifies this, treadmill
      ensures Value() == Traced(old(Value()), obj)
      ensures enqueued <==> obj in Doomed(old(Value()))
      ensures Collecting(Value(), fullHeap) && Doomed(Value()) == Doomed(old(Value())) - {obj}
    {
      ghost var was := Value();
      TracedKeeps(was, obj, fullHeap);
      hide Collecting, CanMark;
      enqueued := false;
      var nurseryObject := obj in bits && bits[obj] & NURSERY_BIT == NURSERY_BIT;
      assert nurseryObject == InNursery(was, obj) by {
        ZeroIsNotNursery();
      }
      if !inNurseryGc || nurseryObject {
        var marked := TestAndMark(obj, markState);
        if marked {
          treadmill.Copy(obj, nurseryObject);
          enqueued := true;
        }
      }
    }

    method SweepLargePages(sweepNursery: bool)
      modifies this, treadmill
      ensures Value() == if sweepNursery
        then old(Value()).(collect := {}, released := old(released) + multiset(old(treadmill.collectNursery)))
        else old(Value()).(from := {}, released := old(released) + multiset(old(treadmill.fromSpace)))
    {
      var dead := treadmill.Drain(sweepNursery);
      var i := 0;
      while i < |dead|
        invariant i <= |dead| && released == old(released) + multiset(dead[..i])
        invariant markState == old(markState) && inNurseryGc == old(inNurseryGc) && bits == old(bits)
        modifies this`released
      {
        assert dead[..i + 1] == dead[..i] + [dead[i]];
        released := released + multiset{dead[i]};
        i := i + 1;
      }
      assert dead[..i] == dead;
    }

    method Release(fullHeap: bool)
      modifies this, treadmill
      ensures Value() == Released(old(Value()), fullHeap)
      ensures old(Collecting(Value(), fullHeap)) ==> Resting(Value())
    {
      ghost var was := Value();
      if Collecting(was, fullHeap) {
        ReleasedRests(was, fullHeap);
      }
      hide Resting, Collecting;
      SweepLargePages(true);
      if fullHeap {
        SweepLargePages(false);
      }
    }
  }
}
