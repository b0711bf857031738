/**
 Tracing the object graph: the mark trace of src/policy/markcompactspace.rs and the copy trace of
 src/policy/copyspace.rs, driven by the packets of src/scheduler/gc_work.rs.
 */
module Tracing {
  import opened Wrappers

  /** A place that holds a reference: a root, or field `k` of object `obj`. */
  datatype Slot = Root(id: nat) | Field(obj: nat, k: nat)

  /** The number of fields of every object, and what every slot holds. */
  datatype Graph = Graph(size: map<nat, nat>, slots: map<Slot, Option<nat>>)

  predicate IsSlot(g: Graph, roots: set<nat>, s: Slot) {
    match s
    case Root(r) => r in roots
    case Field(o, k) => o in g.size && k < g.size[o]
  }

  /** Every slot holds nothing or an object of the graph. */
  ghost predicate WellFormed(g: Graph, roots: set<nat>) {
    forall s :: IsSlot(g, roots, s) ==> s in g.slots && (g.slots[s].Some? ==> g.slots[s].value in g.size)
  }

  /**
   The heap during a trace. `forward` maps every object visited so far to itself (mark trace) or to
   its copy (copy trace); `scanned` lists the objects whose fields were enqueued.
   Objects from `base` on are copies.
   */
  datatype Heap = Heap(graph: Graph, forward: map<nat, nat>, scanned: seq<nat>, next: nat, base: nat, moving: bool)

  /** Whether trace_object returns `o` itself without looking at it: it is not in the from-space. */
  predicate InToSpace(h: Heap, o: nat) {
    h.moving && o >= h.base
  }

  /** The fields of a copy hold what the fields of the original hold. */
  function Copied(g: Graph, o: nat, n: nat): Graph
    requires o in g.size && forall k :: 0 <= k < g.size[o] ==> Field(o, k) in g.slots
  {
    Graph(g.size[n := g.size[o]], g.slots + map k | 0 <= k < g.size[o] :: Field(n, k) := g.slots[Field(o, k)])
  }

  predicate CanVisit(h: Heap, o: nat) {
    o in h.graph.size && forall k :: 0 <= k < h.graph.size[o] ==> Field(o, k) in h.graph.slots
  }

  /** The first visit of an object: mark or copy it, and enqueue it. */
  function Visited(h: Heap, o: nat): Heap
    requires CanVisit(h, o)
  {
    if h.moving then
      h.(graph := Copied(h.graph, o, h.next), forward := h.forward[o := h.next],
         scanned := h.scanned + [h.next], next := h.next + 1)
    else
      h.(forward := h.forward[o := o], scanned := h.scanned + [o])
  }

  predicate IsNew(h: Heap, o: nat) {
    !InToSpace(h, o) && o !in h.forward
  }

  /** The heap and the result of trace_object. */
  function AfterTrace(h: Heap, o: nat): Heap
    requires IsNew(h, o) ==> CanVisit(h, o)
  {
    if IsNew(h, o) then Visited(h, o) else h
  }

  function TraceResult(h: Heap, o: nat): nat {
    if InToSpace(h, o) then o
    else if o in h.forward then h.forward[o]
    else if h.moving then h.next
    else o
  }

  predicate CanProcess(h: Heap, s: Slot) {
    s in h.graph.slots
    && (h.graph.slots[s].Some? && IsNew(h, h.graph.slots[s].value) ==> CanVisit(h, h.graph.slots[s].value))
  }

  function Store(h: Heap, s: Slot, o: nat): Heap {
    h.(graph := h.graph.(slots := h.graph.slots[s := Some(o)]))
  }

  /** __process_slot. */
  function AfterSlot(h: Heap, s: Slot): Heap
    requires CanProcess(h, s)
  {
    match h.graph.slots[s]
    case None => h
    case Some(o) =>
      var n := TraceResult(h, o);
      if h.moving && n != o then Store(AfterTrace(h, o), s, n) else AfterTrace(h, o)
  }

  /** The slots that enqueueing object `n` pushes: its fields that hold a reference. */
  function Pushed(g: Graph, n: nat): (r: set<Slot>)
    requires n in g.size && forall k :: 0 <= k < g.size[n] ==> Field(n, k) in g.slots
  {
    set k | 0 <= k < g.size[n] && g.slots[Field(n, k)].Some? :: Field(n, k)
  }

  lemma PushedAre(g: Graph, n: nat, s: Slot)
    requires n in g.size && forall k :: 0 <= k < g.size[n] ==> Field(n, k) in g.slots
    ensures s in Pushed(g, n) <==> s.Field? && s.obj == n && s.k < g.size[n] && g.slots[s].Some?
  {
  }

  /** The slots that processing slot `s` pushes. */
  function PushedBy(h: Heap, s: Slot): set<Slot>
    requires CanProcess(h, s)
  {
    match h.graph.slots[s]
    case None => {}
    case Some(o) => if IsNew(h, o) then Pushed(Visited(h, o).graph, TraceResult(h, o)) else {}
  }

  // ---------- reachability ----------

  ghost predicate Edge(g: Graph, o: nat, q: nat) {
    o in g.size && exists k :: 0 <= k < g.size[o] && Field(o, k) in g.slots && g.slots[Field(o, k)] == Some(q)
  }

  ghost predicate IsRootOf(g: Graph, roots: set<nat>, o: nat) {
    exists r :: r in roots && Root(r) in g.slots && g.slots[Root(r)] == Some(o)
  }

  ghost predicate IsPath(g: Graph, roots: set<nat>, p: seq<nat>) {
    |p| > 0 && IsRootOf(g, roots, p[0]) && forall i :: 0 <= i < |p| - 1 ==> Edge(g, p[i], p[i + 1])
  }

  ghost predicate Reachable(g: Graph, roots: set<nat>, o: nat) {
    exists p :: IsPath(g, roots, p) && p[|p| - 1] == o
  }

  lemma RootIsReachable(g: Graph, roots: set<nat>, o: nat)
    requires IsRootOf(g, roots, o)
    ensures Reachable(g, roots, o)
  {
    assert IsPath(g, roots, [o]);
  }

  lemma TargetIsReachable(g: Graph, roots: set<nat>, o: nat, q: nat)
    requires Reachable(g, roots, o) && Edge(g, o, q)
    ensures Reachable(g, roots, q)
  {
    var p :| IsPath(g, roots, p) && p[|p| - 1] == o;
    assert IsPath(g, roots, p + [q]);
  }

  /** A set that holds the roots and is closed under edges holds everything reachable. */
  lemma {:induction false} ClosedHoldsPath(g: Graph, roots: set<nat>, closed: set<nat>, p: seq<nat>)
    requires IsPath(g, roots, p)
    requires forall o :: IsRootOf(g, roots, o) ==> o in closed
    requires forall o, q :: o in closed && Edge(g, o, q) ==> q in closed
    ensures p[|p| - 1] in closed
    decreases |p|
  {
    if |p| > 1 {
      var front := p[..|p| - 1];
      assert IsPath(g, roots, front);
      ClosedHoldsPath(g, roots, closed, front);
      assert Edge(g, p[|p| - 2], p[|p| - 1]);
    }
  }

  // ---------- the invariant of a trace ----------

  /** What a slot that held `x` must hold when everything is traced. */
  ghost predicate Redirected(h: Heap, x: Option<nat>, y: Option<nat>) {
    match x
    case None => y == None
    case Some(o) => o in h.forward && y == Some(h.forward[o])
  }

  /** The slots that have to be redirected: the roots and the fields of the visited objects. */
  ghost predicate Needed(g: Graph, roots: set<nat>, h: Heap, was: Slot) {
    IsSlot(g, roots, was) && (was.Field? ==> was.obj in h.forward)
  }

  /** The slot that now stands for slot `was` of the original graph. */
  ghost function Image(h: Heap, was: Slot): Slot {
    if was.Field? && was.obj in h.forward then Field(h.forward[was.obj], was.k) else was
  }

  /** The slot is redirected, or pending and untouched. */
  ghost predicate SlotOk(g: Graph, h: Heap, pending: set<Slot>, was: Slot) {
    && was in g.slots && Image(h, was) in h.graph.slots
    && (|| Redirected(h, g.slots[was], h.graph.slots[Image(h, was)])
        || (Image(h, was) in pending && h.graph.slots[Image(h, was)] == g.slots[was]))
  }

  ghost predicate SlotsOk(g: Graph, roots: set<nat>, h: Heap, pending: set<Slot>) {
    forall was :: Needed(g, roots, h, was) ==> SlotOk(g, h, pending, was)
  }

  ghost predicate InScope(g: Graph, roots: set<nat>, h: Heap, s: Slot) {
    exists was :: Needed(g, roots, h, was) && Image(h, was) == s
  }

  ghost predicate PendingInScope(g: Graph, roots: set<nat>, h: Heap, pending: set<Slot>) {
    forall s :: s in pending ==> InScope(g, roots, h, s)
  }

  /** The original objects stay as they are. */
  ghost predicate Originals(g: Graph, h: Heap) {
    && h.base <= h.next
    && (forall o :: o in g.size ==> o < h.base && o in h.graph.size && h.graph.size[o] == g.size[o])
    && (forall o :: o in h.graph.size ==> o in g.size || h.base <= o < h.next)
    && (forall o, k :: o in g.size && 0 <= k < g.size[o] ==>
          Field(o, k) in h.graph.slots && Field(o, k) in g.slots && h.graph.slots[Field(o, k)] == g.slots[Field(o, k)])
  }

  ghost predicate Forwards(g: Graph, h: Heap) {
    && (forall o :: o in h.forward ==>
          o in g.size && h.forward[o] in h.graph.size && h.graph.size[h.forward[o]] == g.size[o])
    && (forall o :: o in h.forward ==> if h.moving then h.base <= h.forward[o] < h.next else h.forward[o] == o)
    && (forall o, p :: o in h.forward && p in h.forward && h.forward[o] == h.forward[p] ==> o == p)
  }

  ghost predicate OnlyReachable(g: Graph, roots: set<nat>, h: Heap) {
    forall o :: o in h.forward ==> Reachable(g, roots, o)
  }

  ghost predicate NoDuplicates(xs: seq<nat>) {
    forall i, j :: 0 <= i < j < |xs| ==> xs[i] != xs[j]
  }

  /** The objects enqueued are the visited ones, each of them once. */
  ghost predicate ScannedOnce(h: Heap) {
    NoDuplicates(h.scanned) && forall n :: n in h.scanned <==> n in h.forward.Values
  }

  ghost predicate TraceInv(g: Graph, roots: set<nat>, h: Heap, pending: set<Slot>) {
    && WellFormed(g, roots) && Originals(g, h) && Forwards(g, h) && SlotsOk(g, roots, h, pending)
    && OnlyReachable(g, roots, h) && ScannedOnce(h) && PendingInScope(g, roots, h, pending)
  }

  ghost predicate Start(g: Graph, roots: set<nat>, h: Heap) {
    && WellFormed(g, roots) && h.graph == g && h.forward == map[] && h.scanned == []
    && h.next == h.base && forall o :: o in g.size ==> o < h.base
  }

  lemma StartInv(g: Graph, roots: set<nat>, h: Heap, pending: set<Slot>)
    requires Start(g, roots, h)
    requires forall s :: s in pending <==> s.Root? && s.id in roots
    ensures TraceInv(g, roots, h, pending)
  {
    forall o, k | o in g.size && 0 <= k < g.size[o]
      ensures Field(o, k) in g.slots
    {
      assert IsSlot(g, roots, Field(o, k));
    }
    forall s | s in pending
      ensures InScope(g, roots, h, s)
    {
      assert Needed(g, roots, h, s) && Image(h, s) == s;
    }
  }

  // ---------- the first visit of an object ----------

  /** What a first visit does to the slots. */
  lemma VisitSlots(h: Heap, o: nat)
    requires CanVisit(h, o)
    ensures var t := Visited(h, o);
      && (forall s :: s in h.graph.slots && !(h.moving && s.Field? && s.obj == h.next) ==>
            s in t.graph.slots && t.graph.slots[s] == h.graph.slots[s])
      && (forall k :: 0 <= k < h.graph.size[o] ==>
            Field(t.forward[o], k) in t.graph.slots &&
              t.graph.slots[Field(t.forward[o], k)] == h.graph.slots[Field(o, k)])
      && t.graph.size == if h.moving then h.graph.size[h.next := h.graph.size[o]] else h.graph.size
  {
  }

  lemma VisitKeepsOriginals(g: Graph, h: Heap, o: nat)
    requires Originals(g, h) && o in g.size && CanVisit(h, o)
    ensures Originals(g, Visited(h, o))
  {
    VisitSlots(h, o);
    hide Copied;
  }

  lemma VisitKeepsForwards(g: Graph, h: Heap, o: nat)
    requires Originals(g, h) && Forwards(g, h) && o in g.size && o !in h.forward && CanVisit(h, o)
    ensures Forwards(g, Visited(h, o)) && Visited(h, o).forward[o] !in h.forward.Values
  {
    var t := Visited(h, o);
    VisitSizes(g, h, o);
    hide Copied, Originals, Visited, CanVisit;
    assert forall p :: p in h.forward ==> h.forward[p] != t.forward[o];
  }

  lemma VisitSizes(g: Graph, h: Heap, o: nat)
    requires Originals(g, h) && o in g.size && CanVisit(h, o)
    ensures var t := Visited(h, o);
      && t.forward == h.forward[o := t.forward[o]] && t.moving == h.moving && t.base == h.base
      && t.forward[o] in t.graph.size && t.graph.size[t.forward[o]] == g.size[o]
      && (forall p :: p in h.graph.size ==> p in t.graph.size && t.graph.size[p] == h.graph.size[p])
      && t.forward[o] == (if h.moving then h.next else o) && o < h.base <= h.next <= t.next
      && (h.moving ==> t.next == h.next + 1)
  {
  }

  lemma VisitScansOnce(g: Graph, h: Heap, o: nat)
    requires Originals(g, h) && Forwards(g, h) && ScannedOnce(h) && o in g.size && o !in h.forward && CanVisit(h, o)
    ensures ScannedOnce(Visited(h, o))
  {
    var t := Visited(h, o);
    var n := t.forward[o];
    VisitKeepsForwards(g, h, o);
    assert t.scanned == h.scanned + [n] && t.forward == h.forward[o := n];
    hide Copied, Originals, Forwards, Visited, CanVisit;
    OneMoreValue(h.forward, o, n);
    assert n !in h.scanned;
  }

  lemma OneMoreValue(forward: map<nat, nat>, o: nat, n: nat)
    requires o !in forward
    ensures forward[o := n].Values == forward.Values + {n}
  {
    assert forall p :: p in forward ==> forward[o := n][p] == forward[p];
    assert forward[o := n][o] == n;
  }

  lemma VisitKeepsSlots(g: Graph, roots: set<nat>, h: Heap, pending: set<Slot>, o: nat)
    requires WellFormed(g, roots) && Originals(g, h) && Forwards(g, h) && SlotsOk(g, roots, h, pending)
    requires o in g.size && o !in h.forward && CanVisit(h, o)
    ensures var t := Visited(h, o); SlotsOk(g, roots, t, pending + Pushed(t.graph, t.forward[o]))
  {
    var t := Visited(h, o);
    var n := t.forward[o];
    VisitSlots(h, o);
    forall was | Needed(g, roots, t, was)
      ensures SlotOk(g, t, pending + Pushed(t.graph, n), was)
    {
      hide Copied;
      if was.Field? && was.obj == o {
        assert t.graph.slots[Field(n, was.k)] == g.slots[was];
      } else {
        assert Needed(g, roots, h, was);
        assert SlotOk(g, h, pending, was);
        assert Image(t, was) == Image(h, was);
        hide Pushed;
        StaysRedirected(g, h, t, was);
      }
    }
  }

  lemma StaysRedirected(g: Graph, h: Heap, t: Heap, was: Slot)
    requires was in g.slots && forall p :: p in h.forward ==> p in t.forward && t.forward[p] == h.forward[p]
    ensures forall y :: Redirected(h, g.slots[was], y) ==> Redirected(t, g.slots[was], y)
  {
  }

  lemma VisitKeepsScope(g: Graph, roots: set<nat>, h: Heap, pending: set<Slot>, o: nat)
    requires Originals(g, h) && Forwards(g, h) && PendingInScope(g, roots, h, pending)
    requires o in g.size && o !in h.forward && CanVisit(h, o)
    ensures var t := Visited(h, o); PendingInScope(g, roots, t, pending + Pushed(t.graph, t.forward[o]))
  {
    var t := Visited(h, o);
    var n := t.forward[o];
    forall s | s in pending + Pushed(t.graph, n)
      ensures InScope(g, roots, t, s)
    {
      if s in pending {
        ScopeGrows(g, roots, h, o, s);
      } else {
        assert Needed(g, roots, t, Field(o, s.k)) && Image(t, Field(o, s.k)) == s;
      }
    }
  }

  lemma ScopeGrows(g: Graph, roots: set<nat>, h: Heap, o: nat, s: Slot)
    requires o !in h.forward && CanVisit(h, o) && InScope(g, roots, h, s)
    ensures InScope(g, roots, Visited(h, o), s)
  {
    var was :| Needed(g, roots, h, was) && Image(h, was) == s;
    assert Needed(g, roots, Visited(h, o), was) && Image(Visited(h, o), was) == s;
  }

  lemma VisitKeeps(g: Graph, roots: set<nat>, h: Heap, pending: set<Slot>, o: nat)
    requires TraceInv(g, roots, h, pending)
    requires o in g.size && o !in h.forward && CanVisit(h, o) && Reachable(g, roots, o)
    ensures var t := Visited(h, o); TraceInv(g, roots, t, pending + Pushed(t.graph, t.forward[o]))
  {
    VisitKeepsOriginals(g, h, o);
    VisitKeepsForwards(g, h, o);
    VisitScansOnce(g, h, o);
    VisitKeepsSlots(g, roots, h, pending, o);
    VisitKeepsScope(g, roots, h, pending, o);
    hide WellFormed, Originals, Forwards, SlotsOk, ScannedOnce, PendingInScope, Reachable, Copied;
  }

  // ---------- processing a slot ----------

  /** What a slot that has to be redirected can hold. */
  lemma Content(g: Graph, roots: set<nat>, h: Heap, pending: set<Slot>, was: Slot)
    requires TraceInv(g, roots, h, pending) && Needed(g, roots, h, was)
    ensures CanProcess(h, Image(h, was)) && was in g.slots
    ensures h.graph.slots[Image(h, was)].Some? ==>
      var o := h.graph.slots[Image(h, was)].value;
      && (o in g.size || Redirected(h, g.slots[was], Some(o)))
      && (!Redirected(h, g.slots[was], Some(o)) ==> g.slots[was] == Some(o) && o in g.size && Reachable(g, roots, o))
      && (IsNew(h, o) ==> !Redirected(h, g.slots[was], Some(o)))
  {
    assert SlotOk(g, h, pending, was);
    var s := Image(h, was);
    if h.graph.slots[s].Some? && !Redirected(h, g.slots[was], h.graph.slots[s]) {
      var o := h.graph.slots[s].value;
      ContentIsReachable(g, roots, h, was, o);
    }
  }

  lemma ContentIsReachable(g: Graph, roots: set<nat>, h: Heap, was: Slot, o: nat)
    requires WellFormed(g, roots) && OnlyReachable(g, roots, h) && Needed(g, roots, h, was)
    requires was in g.slots && g.slots[was] == Some(o)
    ensures o in g.size && Reachable(g, roots, o)
  {
    if was.Root? {
      assert IsRootOf(g, roots, o);
      RootIsReachable(g, roots, o);
    } else {
      assert Edge(g, was.obj, o);
      TargetIsReachable(g, roots, was.obj, o);
    }
  }

  /** Different slots of the original graph have different images. */
  lemma ImageInjective(g: Graph, roots: set<nat>, h: Heap, a: Slot, b: Slot)
    requires Forwards(g, h) && Needed(g, roots, h, a) && Needed(g, roots, h, b) && Image(h, a) == Image(h, b)
    ensures a == b
  {
  }

  /** Once its slot is redirected, it need not be pending. */
  lemma DropKeeps(g: Graph, roots: set<nat>, h: Heap, pending: set<Slot>, was: Slot)
    requires TraceInv(g, roots, h, pending) && Needed(g, roots, h, was) && was in g.slots
    requires Image(h, was) in h.graph.slots && Redirected(h, g.slots[was], h.graph.slots[Image(h, was)])
    ensures TraceInv(g, roots, h, pending - {Image(h, was)})
  {
    forall a | Needed(g, roots, h, a)
      ensures SlotOk(g, h, pending - {Image(h, was)}, a)
    {
      assert SlotOk(g, h, pending, a);
      if Image(h, a) == Image(h, was) {
        ImageInjective(g, roots, h, a, was);
      }
    }
  }

  lemma StoreKeepsSlots(g: Graph, roots: set<nat>, h: Heap, pending: set<Slot>, was: Slot, o: nat)
    requires WellFormed(g, roots) && Forwards(g, h) && SlotsOk(g, roots, h, pending)
    requires Needed(g, roots, h, was) && was in g.slots && g.slots[was] == Some(o) && o in h.forward
    ensures SlotsOk(g, roots, Store(h, Image(h, was), h.forward[o]), pending)
  {
    var t := Store(h, Image(h, was), h.forward[o]);
    forall a | Needed(g, roots, t, a)
      ensures SlotOk(g, t, pending, a)
    {
      assert Needed(g, roots, h, a) && Image(t, a) == Image(h, a);
      assert SlotOk(g, h, pending, a);
      if Image(h, a) == Image(h, was) {
        ImageInjective(g, roots, h, a, was);
      }
    }
  }

  lemma StoreKeeps(g: Graph, roots: set<nat>, h: Heap, pending: set<Slot>, was: Slot, o: nat)
    requires TraceInv(g, roots, h, pending) && h.moving
    requires Needed(g, roots, h, was) && was in g.slots && g.slots[was] == Some(o) && o in h.forward
    ensures TraceInv(g, roots, Store(h, Image(h, was), h.forward[o]), pending)
  {
    var t := Store(h, Image(h, was), h.forward[o]);
    StoreKeepsSlots(g, roots, h, pending, was, o);
    assert Originals(g, t);
    hide SlotsOk, WellFormed, Originals;
    forall s | s in pending
      ensures InScope(g, roots, t, s)
    {
      var a :| Needed(g, roots, h, a) && Image(h, a) == s;
      assert Needed(g, roots, t, a) && Image(t, a) == s;
    }
  }

  lemma TraceGrows(g: Graph, roots: set<nat>, h: Heap, pending: set<Slot>, more: set<Slot>)
    requires TraceInv(g, roots, h, pending) && pending <= more && PendingInScope(g, roots, h, more)
    ensures TraceInv(g, roots, h, more)
  {
    forall was | Needed(g, roots, h, was)
      ensures SlotOk(g, h, more, was)
    {
      assert SlotOk(g, h, pending, was);
    }
  }

  /** The step before a store: the object that the slot refers to has been visited. */
  lemma TraceKeeps(g: Graph, roots: set<nat>, h: Heap, pending: set<Slot>, was: Slot)
    requires TraceInv(g, roots, h, pending) && Needed(g, roots, h, was)
    requires CanProcess(h, Image(h, was)) && h.graph.slots[Image(h, was)].Some?
    ensures var s, o := Image(h, was), h.graph.slots[Image(h, was)].value;
      var t := AfterTrace(h, o);
      && TraceInv(g, roots, t, pending + PushedBy(h, s)) && Needed(g, roots, t, was) && Image(t, was) == s
      && s in t.graph.slots && t.graph.slots[s] == Some(o)
      && (o in g.size ==> o in t.forward && TraceResult(h, o) == t.forward[o])
  {
    var s := Image(h, was);
    var o := h.graph.slots[s].value;
    Content(g, roots, h, pending, was);
    if IsNew(h, o) {
      VisitKeeps(g, roots, h, pending, o);
      VisitSlots(h, o);
      assert was.Field? ==> was.obj != o;
    } else {
      assert pending + PushedBy(h, s) == pending;
    }
  }

  /** __process_slot: afterwards the slot is redirected, and the new slots are pending. */
  lemma SlotKeeps(g: Graph, roots: set<nat>, h: Heap, pending: set<Slot>, was: Slot)
    requires TraceInv(g, roots, h, pending) && Needed(g, roots, h, was)
    ensures CanProcess(h, Image(h, was))
    ensures var s := Image(h, was);
      var t := AfterSlot(h, s);
      && TraceInv(g, roots, t, pending + PushedBy(h, s) - {s})
      && Needed(g, roots, t, was) && Image(t, was) == s && was in g.slots && s in t.graph.slots
      && Redirected(t, g.slots[was], t.graph.slots[s])
  {
    var s := Image(h, was);
    Content(g, roots, h, pending, was);
    match h.graph.slots[s]
    case None =>
      assert SlotOk(g, h, pending, was);
      DropKeeps(g, roots, h, pending, was);
      assert pending + PushedBy(h, s) == pending;
    case Some(o) =>
      TraceKeeps(g, roots, h, pending, was);
      var t := AfterTrace(h, o);
      var more := pending + PushedBy(h, s);
      Settles(g, roots, h, pending, was, o);
      if h.moving && TraceResult(h, o) != o {
        StoreKeeps(g, roots, t, more, was, o);
        DropKeeps(g, roots, Store(t, s, t.forward[o]), more, was);
      } else {
        DropKeeps(g, roots, t, more, was);
      }
  }

  /** A result that differs from the object is stored into a slot that held the original object. */
  lemma Settles(g: Graph, roots: set<nat>, h: Heap, pending: set<Slot>, was: Slot, o: nat)
    requires TraceInv(g, roots, h, pending) && Needed(g, roots, h, was) && was in g.slots
    requires CanProcess(h, Image(h, was)) && h.graph.slots[Image(h, was)] == Some(o)
    requires TraceInv(g, roots, AfterTrace(h, o), pending + PushedBy(h, Image(h, was)))
    requires o in g.size ==> o in AfterTrace(h, o).forward && TraceResult(h, o) == AfterTrace(h, o).forward[o]
    ensures h.moving && TraceResult(h, o) != o ==>
      g.slots[was] == Some(o) && o in AfterTrace(h, o).forward && TraceResult(h, o) == AfterTrace(h, o).forward[o]
    ensures !(h.moving && TraceResult(h, o) != o) ==> Redirected(AfterTrace(h, o), g.slots[was], Some(o))
  {
    Content(g, roots, h, pending, was);
    hide SlotsOk, PendingInScope, OnlyReachable, ScannedOnce, WellFormed, Copied;
  }

  // ---------- when nothing is pending ----------

  /**
   The traced heap is an isomorphic image of the part of the graph that the roots reach: exactly the
   reachable objects were visited, different objects have different images, and every root and every
   field refers to the image of what it referred to.
   */
  ghost predicate Isomorphic(g: Graph, roots: set<nat>, h: Heap) {
    && (forall o :: o in h.forward <==> Reachable(g, roots, o))
    && (forall o, p :: o in h.forward && p in h.forward && h.forward[o] == h.forward[p] ==> o == p)
    && (forall o :: o in h.forward ==>
      o in g.size && h.forward[o] in h.graph.size && h.graph.size[h.forward[o]] == g.size[o])
    && (forall was :: Needed(g, roots, h, was) ==> RedirectedSlot(g, h, was))
  }

  ghost predicate RedirectedSlot(g: Graph, h: Heap, was: Slot) {
    was in g.slots && Image(h, was) in h.graph.slots && Redirected(h, g.slots[was], h.graph.slots[Image(h, was)])
  }

  lemma NothingPending(g: Graph, roots: set<nat>, h: Heap, was: Slot)
    requires SlotsOk(g, roots, h, {}) && Needed(g, roots, h, was)
    ensures RedirectedSlot(g, h, was)
  {
    assert SlotOk(g, h, {}, was);
  }

  /** With nothing pending, the visited objects are closed under edges and hold the roots. */
  lemma VisitsAllReachable(g: Graph, roots: set<nat>, h: Heap, o: nat)
    requires WellFormed(g, roots) && SlotsOk(g, roots, h, {}) && Reachable(g, roots, o)
    ensures o in h.forward
  {
    forall o | IsRootOf(g, roots, o)
      ensures o in h.forward
    {
      var r :| r in roots && Root(r) in g.slots && g.slots[Root(r)] == Some(o);
      NothingPending(g, roots, h, Root(r));
    }
    forall o, q | o in h.forward && Edge(g, o, q)
      ensures q in h.forward
    {
      var k :| 0 <= k < g.size[o] && Field(o, k) in g.slots && g.slots[Field(o, k)] == Some(q);
      NothingPending(g, roots, h, Field(o, k));
    }
    hide SlotsOk, WellFormed, Edge, IsRootOf;
    var p :| IsPath(g, roots, p) && p[|p| - 1] == o;
    ClosedHoldsPath(g, roots, h.forward.Keys, p);
  }

  /** A trace that has nothing left to do has computed the transitive closure, whatever its order. */
  lemma TraceComplete(g: Graph, roots: set<nat>, h: Heap)
    requires TraceInv(g, roots, h, {})
    ensures Isomorphic(g, roots, h) && ScannedOnce(h)
    ensures !h.moving ==> forall o :: o in h.scanned <==> Reachable(g, roots, o)
  {
    hide Reachable, RedirectedSlot, SlotsOk, WellFormed, Originals, NoDuplicates;
    forall was | Needed(g, roots, h, was)
      ensures RedirectedSlot(g, h, was)
    {
      NothingPending(g, roots, h, was);
    }
    forall o | Reachable(g, roots, o)
      ensures o in h.forward
    {
      VisitsAllReachable(g, roots, h, o);
    }
    if !h.moving {
      assert forall o :: o in h.forward.Values <==> o in h.forward;
    }
  }

  // ---------- passing over slots again ----------

  /** The slot stands for a slot of the graph and is redirected. */
  ghost predicate IsDone(g: Graph, roots: set<nat>, h: Heap, s: Slot) {
    exists was :: Needed(g, roots, h, was) && Image(h, was) == s && RedirectedSlot(g, h, was)
  }

  /** A slot that is done stays done. */
  lemma DoneStays(g: Graph, roots: set<nat>, h: Heap, pending: set<Slot>, a: Slot, b: Slot)
    requires TraceInv(g, roots, h, pending) && Needed(g, roots, h, a) && RedirectedSlot(g, h, a)
    requires Needed(g, roots, h, b) && CanProcess(h, Image(h, b))
    ensures var t := AfterSlot(h, Image(h, b));
      Needed(g, roots, t, a) && Image(t, a) == Image(h, a) && RedirectedSlot(g, t, a)
  {
    SlotKeeps(g, roots, h, pending, b);
    if Image(h, a) == Image(h, b) {
      ImageInjective(g, roots, h, a, b);
    } else {
      OtherSlotStays(g, roots, h, pending, a, b);
    }
  }

  lemma OtherSlotStays(g: Graph, roots: set<nat>, h: Heap, pending: set<Slot>, a: Slot, b: Slot)
    requires TraceInv(g, roots, h, pending) && Needed(g, roots, h, a) && RedirectedSlot(g, h, a)
    requires Needed(g, roots, h, b) && CanProcess(h, Image(h, b)) && Image(h, a) != Image(h, b)
    ensures var t := AfterSlot(h, Image(h, b));
      Needed(g, roots, t, a) && Image(t, a) == Image(h, a) && RedirectedSlot(g, t, a)
  {
    hide Copied, SlotsOk, PendingInScope, ScannedOnce, OnlyReachable, WellFormed, Reachable;
    Content(g, roots, h, pending, b);
    var s := Image(h, b);
    if h.graph.slots[s].Some? {
      var o := h.graph.slots[s].value;
      if IsNew(h, o) {
        VisitSlots(h, o);
        assert Image(AfterTrace(h, o), a) == Image(h, a);
        assert AfterTrace(h, o).graph.slots[Image(h, a)] == h.graph.slots[Image(h, a)];
      }
      hide Visited, Originals;
      assert RedirectedSlot(g, AfterTrace(h, o), a);
    }
  }

  /** Processing a slot leaves what other slots hold. */
  lemma OtherContentStays(g: Graph, roots: set<nat>, h: Heap, pending: set<Slot>, a: Slot, b: Slot)
    requires TraceInv(g, roots, h, pending) && Needed(g, roots, h, a) && Needed(g, roots, h, b)
    requires CanProcess(h, Image(h, b)) && Image(h, a) in h.graph.slots && Image(h, a) != Image(h, b)
    ensures var t := AfterSlot(h, Image(h, b));
      Image(h, a) in t.graph.slots && t.graph.slots[Image(h, a)] == h.graph.slots[Image(h, a)]
  {
    hide Copied, SlotsOk, PendingInScope, ScannedOnce, OnlyReachable, WellFormed, Reachable;
    var s := Image(h, b);
    if h.graph.slots[s].Some? && IsNew(h, h.graph.slots[s].value) {
      VisitSlots(h, h.graph.slots[s].value);
    }
  }

  /** Processing a slot that is done changes nothing and pushes nothing. */
  lemma DoneIsIdle(g: Graph, roots: set<nat>, h: Heap, pending: set<Slot>, was: Slot)
    requires TraceInv(g, roots, h, pending) && Needed(g, roots, h, was) && RedirectedSlot(g, h, was)
    ensures CanProcess(h, Image(h, was))
    ensures AfterSlot(h, Image(h, was)) == h && PushedBy(h, Image(h, was)) == {}
  {
    Content(g, roots, h, pending, was);
  }

  // ---------- any interleaving ----------

  /** Slots processed one after the other, in any order and by any worker. */
  ghost predicate IsTrace(h: Heap, pending: set<Slot>, order: seq<Slot>)
    decreases |order|
  {
    order == [] ||
    (&& order[0] in pending && CanProcess(h, order[0])
     && IsTrace(AfterSlot(h, order[0]), pending + PushedBy(h, order[0]) - {order[0]}, order[1..]))
  }

  ghost function Traced(h: Heap, order: seq<Slot>, pending: set<Slot>): (Heap, set<Slot>)
    requires IsTrace(h, pending, order)
    decreases |order|
  {
    if order == [] then (h, pending)
    else Traced(AfterSlot(h, order[0]), order[1..], pending + PushedBy(h, order[0]) - {order[0]})
  }

  /** However the workers interleave, an exhausted trace has computed the transitive closure. */
  lemma {:induction false} AnyOrder(g: Graph, roots: set<nat>, h: Heap, pending: set<Slot>, order: seq<Slot>)
    requires TraceInv(g, roots, h, pending) && IsTrace(h, pending, order)
    ensures var (t, rest) := Traced(h, order, pending);
      TraceInv(g, roots, t, rest) && (rest == {} ==> Isomorphic(g, roots, t) && ScannedOnce(t))
    decreases |order|
  {
    hide Isomorphic, ScannedOnce, AfterSlot, PushedBy;
    if order == [] {
      if pending == {} {
        TraceComplete(g, roots, h);
      }
    } else {
      var was :| Needed(g, roots, h, was) && Image(h, was) == order[0];
      SlotKeeps(g, roots, h, pending, was);
      AnyOrder(g, roots, AfterSlot(h, order[0]), pending + PushedBy(h, order[0]) - {order[0]}, order[1..]);
    }
  }

  // ---------- termination ----------

  /** The objects that can still be visited. */
  ghost function Unvisited(g: Graph, h: Heap): set<nat> {
    g.size.Keys - h.forward.Keys
  }

  /** A slot either pushes nothing and visits nothing, or visits a new object. */
  lemma SlotProgress(g: Graph, roots: set<nat>, h: Heap, pending: set<Slot>, was: Slot)
    requires TraceInv(g, roots, h, pending) && Needed(g, roots, h, was) && CanProcess(h, Image(h, was))
    ensures var t := AfterSlot(h, Image(h, was));
      && Unvisited(g, t) <= Unvisited(g, h)
      && (Unvisited(g, t) == Unvisited(g, h) ==> PushedBy(h, Image(h, was)) == {})
  {
    Content(g, roots, h, pending, was);
    if h.graph.slots[Image(h, was)].Some? && IsNew(h, h.graph.slots[Image(h, was)].value) {
      var o := h.graph.slots[Image(h, was)].value;
      assert o in Unvisited(g, h) && o !in Unvisited(g, AfterSlot(h, Image(h, was)));
    }
  }
}
