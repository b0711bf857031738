/** The packets that trace the object graph (PlanProcessEdges in src/scheduler/gc_work.rs). */
module ProcessEdges {
  import opened Wrappers
  import opened Tracing

  ghost function SetOf(xs: seq<Slot>): set<Slot> {
    set s | s in xs
  }

  ghost function Queued(ps: seq<seq<Slot>>): set<Slot> {
    set p, s | p in ps && s in p :: s
  }

  lemma QueuedPlus(ps: seq<seq<Slot>>, p: seq<Slot>)
    ensures Queued(ps + [p]) == Queued(ps) + SetOf(p)
  {
    assert forall q :: q in ps + [p] <==> q in ps || q == p;
  }

  lemma QueuedWithout(ps: seq<seq<Slot>>, i: nat)
    requires i < |ps|
    ensures Queued(ps) == Queued(ps[..i] + ps[i + 1..]) + SetOf(ps[i])
  {
    assert ps == ps[..i] + [ps[i]] + ps[i + 1..];
    assert forall q :: q in ps <==> q in ps[..i] + ps[i + 1..] || q == ps[i];
  }

  /** How often each slot waits in a packet. */
  ghost function Bags(ps: seq<seq<Slot>>): multiset<Slot> {
    if ps == [] then multiset{} else Bags(ps[..|ps| - 1]) + multiset(ps[|ps| - 1])
  }

  lemma BagsPlus(ps: seq<seq<Slot>>, p: seq<Slot>)
    ensures Bags(ps + [p]) == Bags(ps) + multiset(p)
  {
    assert (ps + [p])[..|ps|] == ps;
  }

  /** The fields of `n` before field `k` that hold a reference. */
  ghost function PushedUpTo(g: Graph, n: nat, k: nat): set<Slot>
    requires n in g.size && k <= g.size[n] && forall j :: 0 <= j < g.size[n] ==> Field(n, j) in g.slots
  {
    set j | 0 <= j < k && g.slots[Field(n, j)].Some? :: Field(n, j)
  }

  lemma PushedNext(g: Graph, n: nat, k: nat)
    requires n in g.size && k < g.size[n] && forall j :: 0 <= j < g.size[n] ==> Field(n, j) in g.slots
    ensures PushedUpTo(g, n, k + 1) == PushedUpTo(g, n, k) + if g.slots[Field(n, k)].Some? then {Field(n, k)} else {}
    ensures Field(n, k) !in PushedUpTo(g, n, k)
  {
  }

  lemma OneMoreSlot(slots: set<Slot>, s: Slot)
    requires s !in slots
    ensures multiset(slots + {s}) == multiset(slots) + multiset{s}
  {
  }

  lemma PushedEnds(g: Graph, n: nat)
    requires n in g.size && forall j :: 0 <= j < g.size[n] ==> Field(n, j) in g.slots
    ensures PushedUpTo(g, n, 0) == {} && PushedUpTo(g, n, g.size[n]) == Pushed(g, n)
  {
  }

  lemma Origin(g: Graph, roots: set<nat>, h: Heap, pending: set<Slot>, s: Slot) returns (was: Slot)
    requires TraceInv(g, roots, h, pending) && s in pending
    ensures Needed(g, roots, h, was) && Image(h, was) == s
  {
    was :| Needed(g, roots, h, was) && Image(h, was) == s;
  }

  lemma BecomesRedirected(g: Graph, h: Heap, was: Slot, s: Slot)
    requires Image(h, was) == s && was in g.slots && s in h.graph.slots
    requires Redirected(h, g.slots[was], h.graph.slots[s])
    ensures RedirectedSlot(g, h, was)
  {
  }

  lemma CanProcessHas(h: Heap, s: Slot)
    requires CanProcess(h, s)
    ensures s in h.graph.slots
  {
  }

  /** The slot refers to one of the objects. */
  ghost predicate Holds(h: Heap, s: Slot, objects: set<nat>) {
    s in h.graph.slots && h.graph.slots[s].Some? && h.graph.slots[s].value in objects
  }

  /** What processing slot `s` means for it and for another pending slot `x`. */
  lemma PassOver(g: Graph, roots: set<nat>, h: Heap, pending: set<Slot>, was: Slot, s: Slot, x: Slot, objects: set<nat>)
    requires TraceInv(g, roots, h, pending) && Needed(g, roots, h, was) && Image(h, was) == s && x in pending
    requires CanProcess(h, s)
    ensures IsDone(g, roots, h, x) || x == s ==> IsDone(g, roots, AfterSlot(h, s), x)
    ensures x != s ==> (Holds(AfterSlot(h, s), x, objects) == Holds(h, x, objects))
  {
    hide TraceInv, AfterSlot, Needed, Image;
    SlotKeeps(g, roots, h, pending, was);
    BecomesRedirected(g, AfterSlot(h, s), was, s);
    if IsDone(g, roots, h, x) {
      var a :| Needed(g, roots, h, a) && Image(h, a) == x && RedirectedSlot(g, h, a);
      DoneStays(g, roots, h, pending, a, was);
    }
    if x != s {
      var a := Origin(g, roots, h, pending, x);
      Content(g, roots, h, pending, a);
      CanProcessHas(h, x);
      OtherContentStays(g, roots, h, pending, a, was);
    }
  }

  /** Taking a slot off the pending ones, unless it is pending elsewhere too. */
  lemma Leave(g: Graph, roots: set<nat>, h: Heap, pending: set<Slot>, s: Slot, rest: set<Slot>)
    requires TraceInv(g, roots, h, pending - {s}) && InScope(g, roots, h, s)
    requires pending - {s} <= rest <= pending
    ensures TraceInv(g, roots, h, rest)
  {
    assert PendingInScope(g, roots, h, rest);
    TraceGrows(g, roots, h, pending - {s}, rest);
  }

  /** The packets since `was` were flushed from buffers of `limit` slots, and the buffer is not full. */
  ghost predicate Buffered(was: seq<seq<Slot>>, packets: seq<seq<Slot>>, next: seq<Slot>, limit: nat) {
    && |next| < limit && |was| <= |packets| && packets[..|was|] == was
    && forall j :: |was| <= j < |packets| ==> |packets[j]| == limit
  }

  lemma BufferedStart(packets: seq<seq<Slot>>, next: seq<Slot>, limit: nat)
    ensures |next| < limit ==> Buffered(packets, packets, next, limit)
  {
  }

  /** The slots `more` have become pending, once each. */
  ghost predicate Gained(p0: set<Slot>, b0: multiset<Slot>, p: set<Slot>, b: multiset<Slot>, more: set<Slot>) {
    p == p0 + more && b == b0 + multiset(more)
  }

  lemma GainOne(p0: set<Slot>, b0: multiset<Slot>, p: set<Slot>, b: multiset<Slot>, more: set<Slot>, s: Slot)
    requires Gained(p0, b0, p, b, more) && s !in more
    ensures Gained(p0, b0, p + {s}, b + multiset{s}, more + {s})
  {
    OneMoreSlot(more, s);
  }

  lemma GainNone(p: set<Slot>, b: multiset<Slot>)
    ensures Gained(p, b, p, b, {})
  {
  }

  lemma GainedSlots(p0: set<Slot>, b0: multiset<Slot>, p: set<Slot>, b: multiset<Slot>, more: set<Slot>)
    requires Gained(p0, b0, p, b, more)
    ensures p == p0 + more
  {
  }

  /** One worker with the packet it executes, and the packets that wait. */
  class TracePacket {
    const bufferSize: nat
    var heap: Heap
    var nextSlots: seq<Slot>
    var packets: seq<seq<Slot>>

    constructor (heap: Heap, packets: seq<seq<Slot>>, bufferSize: nat)
      ensures this.heap == heap && this.packets == packets && nextSlots == [] && this.bufferSize == bufferSize
    {
      this.heap, this.packets, this.nextSlots, this.bufferSize := heap, packets, [], bufferSize;
    }

    ghost function Pending(): set<Slot>
      reads this
    {
      SetOf(nextSlots) + Queued(packets)
    }

    /** How often each slot is pending. */
    ghost function Bag(): multiset<Slot>
      reads this
    {
      multiset(nextSlots) + Bags(packets)
    }

    /** How many slots the buffer holds before it is flushed. */
    function Limit(): nat {
      if bufferSize == 0 then 1 else bufferSize
    }

    /** flush: what was pushed becomes a packet. */
    method Flush()
      modifies this`nextSlots, this`packets
      ensures nextSlots == [] && Pending() == old(Pending()) && Bag() == old(Bag())
      ensures packets == if old(nextSlots) == [] then old(packets) else old(packets) + [old(nextSlots)]
    {
      if nextSlots != [] {
        var slots := nextSlots;
        QueuedPlus(packets, slots);
        BagsPlus(packets, slots);
        nextSlots := [];
        packets := packets + [slots];
      }
    }

    /** The body of the closure in enqueue: push one slot, and flush if the buffer is full. */
    method Push(s: Slot, ghost was: seq<seq<Slot>>, ghost p0: set<Slot>, ghost b0: multiset<Slot>,
                ghost more: set<Slot>)
      requires Gained(p0, b0, Pending(), Bag(), more) && s !in more
      modifies this`nextSlots, this`packets
      ensures Gained(p0, b0, Pending(), Bag(), more + {s})
      ensures old(Buffered(was, packets, nextSlots, Limit())) ==> Buffered(was, packets, nextSlots, Limit())
    {
      hide Queued, Bags, Gained;
      GainOne(p0, b0, Pending(), Bag(), more, s);
      nextSlots := nextSlots + [s];
      assert Pending() == old(Pending()) + {s} && Bag() == old(Bag()) + multiset{s};
      if |nextSlots| >= bufferSize {
        Flush();
      }
    }

    /** enqueue: push the fields of `n` that hold a reference, flushing whenever the buffer is full. */
    method Enqueue(n: nat)
      requires n in heap.graph.size && forall k :: 0 <= k < heap.graph.size[n] ==> Field(n, k) in heap.graph.slots
      modifies this`nextSlots, this`packets
      ensures Gained(old(Pending()), old(Bag()), Pending(), Bag(), Pushed(heap.graph, n))
      ensures Pushed(heap.graph, n) == {} ==> nextSlots == old(nextSlots) && packets == old(packets)
      ensures |old(nextSlots)| < Limit() ==> Buffered(old(packets), packets, nextSlots, Limit())
    {
      hide PushedUpTo, Pushed, Queued, Bags, Gained, Buffered, SetOf;
      ghost var p0, b0, was := Pending(), Bag(), packets;
      var g, k := heap.graph, 0;
      PushedEnds(g, n);
      GainNone(p0, b0);
      BufferedStart(packets, nextSlots, Limit());
      while k < g.size[n]
        invariant k <= g.size[n] && heap.graph == g
        invariant Gained(p0, b0, Pending(), Bag(), PushedUpTo(g, n, k))
        invariant PushedUpTo(g, n, k) == {} ==> nextSlots == old(nextSlots) && packets == was
        invariant |old(nextSlots)| < Limit() ==> Buffered(was, packets, nextSlots, Limit())
      {
        PushedNext(g, n, k);
        if g.slots[Field(n, k)].Some? {
          Push(Field(n, k), was, p0, b0, PushedUpTo(g, n, k));
        }
        k := k + 1;
      }
    }

    /** trace_object of the mark or the copy trace. */
    method TraceObject(o: nat) returns (n: nat)
      requires IsNew(heap, o) ==> CanVisit(heap, o)
      modifies this
      ensures heap == AfterTrace(old(heap), o) && n == TraceResult(old(heap), o)
      ensures IsNew(old(heap), o) ==>
        && CanVisit(old(heap), o)
        && Gained(old(Pending()), old(Bag()), Pending(), Bag(), Pushed(Visited(old(heap), o).graph, n))
      ensures (IsNew(old(heap), o) ==> CanVisit(old(heap), o) && Pushed(Visited(old(heap), o).graph, n) == {}) ==>
          nextSlots == old(nextSlots) && packets == old(packets)
    {
      hide Gained;
      if InToSpace(heap, o) {
        return o;
      }
      if o in heap.forward {
        return heap.forward[o];
      }
      n := if heap.moving then heap.next else o;
      VisitSlots(heap, o);
      heap := Visited(heap, o);
      Enqueue(n);
    }

    /** __process_slot. */
    method ProcessSlot(s: Slot)
      requires CanProcess(heap, s)
      modifies this
      ensures heap == AfterSlot(old(heap), s)
      ensures Pending() == old(Pending()) + PushedBy(old(heap), s)
      ensures PushedBy(old(heap), s) == {} ==> nextSlots == old(nextSlots) && packets == old(packets)
    {
      hide Gained;
      match heap.graph.slots[s] {
        case None => return;
        case Some(o) =>
          ghost var was := heap;
          var n := TraceObject(o);
          assert IsNew(was, o) ==> PushedBy(was, s) == Pushed(Visited(was, o).graph, n);
          if IsNew(was, o) {
            GainedSlots(old(Pending()), old(Bag()), Pending(), Bag(), Pushed(Visited(was, o).graph, n));
          }
          if heap.moving && n != o {
            heap := Store(heap, s, n);
          }
      }
    }

    /** Process slots one after the other; all of them are redirected afterwards. */
    method ProcessAll(slots: seq<Slot>, ghost g: Graph, ghost roots: set<nat>)
      requires TraceInv(g, roots, heap, Pending() + SetOf(slots))
      modifies this
      ensures TraceInv(g, roots, heap, Pending())
      ensures forall i :: 0 <= i < |slots| ==> IsDone(g, roots, heap, slots[i])
      ensures Unvisited(g, heap) <= Unvisited(g, old(heap))
      ensures Unvisited(g, heap) == Unvisited(g, old(heap)) ==> nextSlots == old(nextSlots) && packets == old(packets)
    {
      hide TraceInv, AfterSlot, PushedBy, CanProcess, Needed, Image, RedirectedSlot;
      var i := 0;
      assert slots[0..] == slots;
      while i < |slots|
        invariant i <= |slots|
        invariant TraceInv(g, roots, heap, Pending() + SetOf(slots[i..]))
        invariant forall j :: 0 <= j < i ==> IsDone(g, roots, heap, slots[j])
        invariant Unvisited(g, heap) <= Unvisited(g, old(heap))
        invariant Unvisited(g, heap) == Unvisited(g, old(heap)) ==>
          nextSlots == old(nextSlots) && packets == old(packets)
      {
        ghost var h, pending := heap, Pending() + SetOf(slots[i..]);
        ghost var was := Origin(g, roots, h, pending, slots[i]);
        SlotKeeps(g, roots, h, pending, was);
        SlotProgress(g, roots, h, pending, was);
        forall j | 0 <= j < i
          ensures IsDone(g, roots, AfterSlot(h, slots[i]), slots[j])
        {
          ghost var a :| Needed(g, roots, h, a) && Image(h, a) == slots[j] && RedirectedSlot(g, h, a);
          DoneStays(g, roots, h, pending, a, was);
        }
        ProcessSlot(slots[i]);
        assert RedirectedSlot(g, heap, was) by {
          BecomesRedirected(g, heap, was, slots[i]);
        }
        assert slots[i..] == [slots[i]] + slots[i + 1..];
        Leave(g, roots, heap, pending + PushedBy(h, slots[i]), slots[i], Pending() + SetOf(slots[i + 1..]));
        i := i + 1;
      }
      assert Pending() + SetOf(slots[i..]) == Pending();
    }

    /** The second pass over the slots of a packet: nothing changes. */
    method ProcessAgain(slots: seq<Slot>, ghost g: Graph, ghost roots: set<nat>)
      requires TraceInv(g, roots, heap, Pending())
      requires forall i :: 0 <= i < |slots| ==> IsDone(g, roots, heap, slots[i])
      modifies this
      ensures heap == old(heap) && nextSlots == old(nextSlots) && packets == old(packets)
    {
      hide TraceInv, AfterSlot, PushedBy, CanProcess, Needed, Image, RedirectedSlot;
      var i := 0;
      while i < |slots|
        invariant i <= |slots|
        invariant heap == old(heap) && nextSlots == old(nextSlots) && packets == old(packets)
      {
        ghost var was :| Needed(g, roots, heap, was) && Image(heap, was) == slots[i] && RedirectedSlot(g, heap, was);
        DoneIsIdle(g, roots, heap, Pending(), was);
        ProcessSlot(slots[i]);
        i := i + 1;
      }
    }

    /**
     The first pass over weak roots of Immix: slots of objects in blocks that are evacuated are redirected, and if
     there are none, nothing happens.
     */
    method ProcessWeak(slots: seq<Slot>, defrag: set<nat>, ghost g: Graph, ghost roots: set<nat>)
      requires TraceInv(g, roots, heap, Pending() + SetOf(slots))
      modifies this
      ensures TraceInv(g, roots, heap, Pending() + SetOf(slots))
      ensures forall i :: 0 <= i < |slots| && Holds(old(heap), slots[i], defrag) ==> IsDone(g, roots, heap, slots[i])
      ensures (forall i :: 0 <= i < |slots| ==> !Holds(old(heap), slots[i], defrag)) ==>
        heap == old(heap) && nextSlots == old(nextSlots) && packets == old(packets)
      ensures Unvisited(g, heap) <= Unvisited(g, old(heap))
      ensures Unvisited(g, heap) == Unvisited(g, old(heap)) ==> nextSlots == old(nextSlots) && packets == old(packets)
    {
      hide TraceInv, AfterSlot, PushedBy, CanProcess, Needed, Image, RedirectedSlot, IsDone;
      var i := 0;
      while i < |slots|
        invariant i <= |slots| && TraceInv(g, roots, heap, Pending() + SetOf(slots))
        invariant forall j :: 0 <= j < i && Holds(old(heap), slots[j], defrag) ==> IsDone(g, roots, heap, slots[j])
        invariant forall j :: i <= j < |slots| ==>
          IsDone(g, roots, heap, slots[j]) || (Holds(heap, slots[j], defrag) == Holds(old(heap), slots[j], defrag))
        invariant (forall j :: 0 <= j < |slots| ==> !Holds(old(heap), slots[j], defrag)) ==>
          heap == old(heap) && nextSlots == old(nextSlots) && packets == old(packets)
        invariant Unvisited(g, heap) <= Unvisited(g, old(heap))
        invariant Unvisited(g, heap) == Unvisited(g, old(heap)) ==>
          nextSlots == old(nextSlots) && packets == old(packets)
      {
        ghost var h, pending := heap, Pending() + SetOf(slots);
        ghost var was := Origin(g, roots, h, pending, slots[i]);
        SlotKeeps(g, roots, h, pending, was);
        SlotProgress(g, roots, h, pending, was);
        assert slots[i] in h.graph.slots by {
          CanProcessHas(h, slots[i]);
        }
        if heap.graph.slots[slots[i]].Some? && heap.graph.slots[slots[i]].value in defrag {
          forall j | 0 <= j < |slots|
            ensures IsDone(g, roots, h, slots[j]) || j == i ==> IsDone(g, roots, AfterSlot(h, slots[i]), slots[j])
            ensures slots[j] != slots[i] ==>
              (Holds(AfterSlot(h, slots[i]), slots[j], defrag) == Holds(h, slots[j], defrag))
          {
            PassOver(g, roots, h, pending, was, slots[i], slots[j], defrag);
          }
          ProcessSlot(slots[i]);
          Leave(g, roots, heap, pending + PushedBy(h, slots[i]), slots[i], Pending() + SetOf(slots));
        }
        i := i + 1;
      }
    }

    /**
     __process_slots: two passes over the packet's slots, the first of which skips some weak roots, then over what
     was pushed and not flushed, until nothing is left in the buffer.  `defrag` is given for weak roots of Immix.
     */
    method ProcessSlots(slots: seq<Slot>, defrag: Option<set<nat>>, ghost g: Graph, ghost roots: set<nat>)
      requires TraceInv(g, roots, heap, Pending() + SetOf(slots)) && nextSlots == []
      modifies this
      ensures TraceInv(g, roots, heap, Pending()) && nextSlots == []
      ensures Unvisited(g, heap) <= Unvisited(g, old(heap))
      ensures Unvisited(g, heap) == Unvisited(g, old(heap)) ==> packets == old(packets)
    {
      hide TraceInv, IsDone;
      match defrag {
        case Some(evacuated) =>
          ProcessWeak(slots, evacuated, g, roots);
          ProcessAll(slots, g, roots);
        case None =>
          ProcessAll(slots, g, roots);
          ProcessAgain(slots, g, roots);
      }
      while nextSlots != []
        invariant TraceInv(g, roots, heap, Pending())
        invariant Unvisited(g, heap) <= Unvisited(g, old(heap))
        invariant Unvisited(g, heap) == Unvisited(g, old(heap)) ==> nextSlots == [] && packets == old(packets)
        decreases Unvisited(g, heap), |nextSlots|
      {
        var pushed := nextSlots;
        assert Pending() == SetOf([]) + Queued(packets) + SetOf(pushed);
        nextSlots := [];
        ProcessAll(pushed, g, roots);
      }
    }

    /** Packets are executed, in any order, until none is left: the trace is complete. */
    method RunPackets(ghost g: Graph, ghost roots: set<nat>)
      requires Start(g, roots, heap) && nextSlots == []
      requires forall s :: s in Queued(packets) <==> s.Root? && s.id in roots
      modifies this
      ensures Isomorphic(g, roots, heap) && ScannedOnce(heap)
      ensures packets == [] && nextSlots == []
    {
      StartInv(g, roots, heap, Pending());
      hide TraceInv, Isomorphic, ScannedOnce;
      while packets != []
        invariant TraceInv(g, roots, heap, Pending()) && nextSlots == []
        decreases Unvisited(g, heap), |packets|
      {
        var i :| 0 <= i < |packets|;
        var slots := packets[i];
        QueuedWithout(packets, i);
        ghost var before := Pending();
        packets := packets[..i] + packets[i + 1..];
        assert Pending() + SetOf(slots) == before;
        var defrag: Option<set<nat>> := *;
        ProcessSlots(slots, defrag, g, roots);
      }
      assert Pending() == {};
      TraceComplete(g, roots, heap);
    }
  }
}
