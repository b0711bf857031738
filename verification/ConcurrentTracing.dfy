/**
 The copy trace by several workers at once: every access to the metadata of an object is a step, so are the load
 and the store of a slot, the copying of an object, its enqueueing and its scanning, and any interleaving is a run.
 CopySpace::trace_object of src/policy/copyspace.rs, __process_slot of src/scheduler/gc_work.rs and the forwarding
 protocol of src/util/object_forwarding.rs together.
 */
module ConcurrentTracing {
  import opened Wrappers
  import opened Sums
  import opened Tracing
  import F = ObjectForwarding

  /** What a worker does with a slot that it took. */
  datatype Job =
    | Free
    | Calling(slot: Slot, o: nat)              // in trace_object
    | Owing(slot: Slot, o: nat, copy: nat)     // in trace_object, has made the copy and not enqueued it yet
    | Updating(slot: Slot, o: nat, copy: nat)  // before the store

  /** `nodes` are enqueued and not scanned yet; `enqueued` lists all that ever were. */
  datatype State = State(
    forwarding: F.State, heap: Heap, queue: set<Slot>, nodes: set<nat>, enqueued: seq<nat>, jobs: seq<Job>)

  datatype Step =
    | Take(w: nat, slot: Slot)
    | Access(w: nat, action: F.Action)
    | Return(w: nat)
    | Write(w: nat)
    | Scan(n: nat)

  predicate IsWorker(s: State, w: nat) {
    w < |s.jobs| == |s.forwarding.workers|
  }

  predicate InTrace(x: Job) {
    x.Calling? || x.Owing?
  }

  predicate CanScan(h: Heap, n: nat) {
    n in h.graph.size && forall k :: 0 <= k < h.graph.size[n] ==> Field(n, k) in h.graph.slots
  }

  predicate Enabled(s: State, step: Step) {
    match step
    case Take(w, slot) =>
      && IsWorker(s, w) && s.jobs[w].Free? && slot in s.queue && slot in s.heap.graph.slots
      && (s.heap.graph.slots[slot].Some? && !InToSpace(s.heap, s.heap.graph.slots[slot].value) ==>
            F.Enabled(s.forwarding, F.Step(w, F.Begin(s.heap.graph.slots[slot].value))))
    case Access(w, action) =>
      && IsWorker(s, w) && InTrace(s.jobs[w]) && !action.Begin? && !action.Leave?
      && F.Enabled(s.forwarding, F.Step(w, action)) && (action.MakeCopy? ==> CanVisit(s.heap, s.jobs[w].o))
    case Return(w) => IsWorker(s, w) && InTrace(s.jobs[w]) && F.Enabled(s.forwarding, F.Step(w, F.Leave))
    case Write(w) => IsWorker(s, w) && s.jobs[w].Updating?
    case Scan(n) => n in s.nodes && CanScan(s.heap, n)
  }

  function ResultOf(x: F.Worker, o: nat): nat {
    if x.Returned? && x.result.Copy? then x.result.address else o
  }

  function Taken(s: State, w: nat, slot: Slot): State
    requires Enabled(s, Take(w, slot))
  {
    var t := s.(queue := s.queue - {slot});
    match s.heap.graph.slots[slot]
    case None => t
    case Some(o) =>
      if InToSpace(s.heap, o) then t
      else
        t.(forwarding := F.Apply(s.forwarding, F.Step(w, F.Begin(o))), jobs := s.jobs[w := Calling(slot, o)])
  }

  function Accessed(s: State, w: nat, action: F.Action): State
    requires Enabled(s, Access(w, action))
  {
    var t, x := s.(forwarding := F.Apply(s.forwarding, F.Step(w, action))), s.jobs[w];
    if action.MakeCopy? then
      t.(heap := Visited(s.heap, x.o), jobs := s.jobs[w := Owing(x.slot, x.o, s.forwarding.next)])
    else t
  }

  /** The end of trace_object: the worker that made the copy enqueues it. */
  function Returned(s: State, w: nat): State
    requires Enabled(s, Return(w))
  {
    var x, n := s.jobs[w], ResultOf(s.forwarding.workers[w], s.jobs[w].o);
    var t := s.(forwarding := F.Apply(s.forwarding, F.Step(w, F.Leave)), jobs := s.jobs[w := Updating(x.slot, x.o, n)]);
    if s.forwarding.workers[w].copied then t.(nodes := s.nodes + {n}, enqueued := s.enqueued + [n]) else t
  }

  function Apply(s: State, step: Step): State
    requires Enabled(s, step)
  {
    match step
    case Take(w, slot) => Taken(s, w, slot)
    case Access(w, action) => Accessed(s, w, action)
    case Return(w) => Returned(s, w)
    case Write(w) => s.(heap := Store(s.heap, s.jobs[w].slot, s.jobs[w].copy), jobs := s.jobs[w := Free])
    case Scan(n) => s.(queue := s.queue + Pushed(s.heap.graph, n), nodes := s.nodes - {n})
  }

  predicate IsRun(s: State, steps: seq<Step>)
    decreases |steps|
  {
    steps == [] || (Enabled(s, steps[0]) && IsRun(Apply(s, steps[0]), steps[1..]))
  }

  function Run(s: State, steps: seq<Step>): State
    requires IsRun(s, steps)
    decreases |steps|
  {
    if steps == [] then s else Run(Apply(s, steps[0]), steps[1..])
  }

  /** The roots are queued, nothing is forwarded, and all workers are free. */
  ghost predicate Initial(g: Graph, roots: set<nat>, s: State) {
    && Start(g, roots, s.heap) && s.heap.moving && (forall x :: x in s.queue <==> x.Root? && x.id in roots)
    && s.nodes == {} && s.enqueued == [] && (forall w :: 0 <= w < |s.jobs| ==> s.jobs[w].Free?)
    && F.Initial(s.forwarding) && |s.forwarding.workers| == |s.jobs| && s.forwarding.next == s.heap.next
    && (forall o :: o in g.size ==> o < |s.forwarding.headers|)
  }

  ghost predicate Finished(s: State) {
    s.queue == {} && s.nodes == {} && forall w :: 0 <= w < |s.jobs| ==> s.jobs[w].Free?
  }

  // ---------- the invariant ----------

  /** The slot stands for one that held `o` in the original graph. */
  ghost predicate Held(g: Graph, roots: set<nat>, h: Heap, slot: Slot, o: nat) {
    exists was :: Needed(g, roots, h, was) && Image(h, was) == slot && was in g.slots && g.slots[was] == Some(o)
  }

  /** The worker has made a copy. */
  predicate HasCopied(x: F.Worker) {
    x.Stamping? || x.Storing? || x.Finishing? || (x.Returned? && x.copied)
  }

  predicate Maps(h: Heap, o: nat, n: nat) {
    o in h.forward && h.forward[o] == n
  }

  ghost predicate JobOk(g: Graph, roots: set<nat>, h: Heap, x: Job, y: F.Worker) {
    match x
    case Free => y.Idle?
    case Calling(slot, o) => Held(g, roots, h, slot, o) && F.Traces(y) && y.o == o && !HasCopied(y)
    case Owing(slot, o, n) => Held(g, roots, h, slot, o) && Maps(h, o, n) && HasCopied(y) && y.o == o
    case Updating(slot, o, n) => Held(g, roots, h, slot, o) && Maps(h, o, n) && y.Idle?
  }

  ghost predicate JobsOk(g: Graph, roots: set<nat>, s: State) {
    |s.jobs| == |s.forwarding.workers| &&
    forall w :: 0 <= w < |s.jobs| ==> JobOk(g, roots, s.heap, s.jobs[w], s.forwarding.workers[w])
  }

  /** The copies that the protocol made are those of the trace. */
  ghost predicate Linked(g: Graph, s: State) {
    && F.Inv(s.forwarding) && s.heap.moving && s.forwarding.next == s.heap.next
    && (forall o :: o in g.size ==> o < |s.forwarding.copies|)
    && (forall o :: 0 <= o < |s.forwarding.copies| ==> SameCopy(s.heap, s.forwarding.copies, o))
  }

  predicate SameCopy(h: Heap, copies: seq<seq<nat>>, o: nat)
    requires o < |copies|
  {
    if o in h.forward then copies[o] == [h.forward[o]] else copies[o] == []
  }

  /** The slot is queued, some worker holds it, or its object will be scanned. */
  ghost predicate Awaited(s: State, x: Slot) {
    || x in s.queue
    || (exists w :: 0 <= w < |s.jobs| && !s.jobs[w].Free? && s.jobs[w].slot == x)
    || (x.Field? && (x.obj in s.nodes || exists w :: 0 <= w < |s.jobs| && Owes(s.jobs[w], x.obj)))
  }

  predicate Owes(x: Job, n: nat) {
    x.Owing? && x.copy == n
  }

  ghost predicate AllAwaited(s: State, pending: set<Slot>) {
    forall x :: x in pending ==> Awaited(s, x)
  }

  /** The copies that are still to be enqueued. */
  function Debts(jobs: seq<Job>): multiset<nat> {
    if jobs == [] then multiset{} else Debts(jobs[..|jobs| - 1]) + Debt(jobs[|jobs| - 1])
  }

  function Debt(x: Job): multiset<nat> {
    if x.Owing? then multiset{x.copy} else multiset{}
  }

  /** What is queued or enqueued belongs to the traced part of the heap. */
  ghost predicate InHand(g: Graph, roots: set<nat>, s: State) {
    && (forall x :: x in s.queue ==> InScope(g, roots, s.heap, x))
    && (forall n :: n in s.nodes ==> n in s.heap.forward.Values)
  }

  ghost predicate Inv(g: Graph, roots: set<nat>, s: State, pending: set<Slot>) {
    && TraceInv(g, roots, s.heap, pending) && AllAwaited(s, pending) && InHand(g, roots, s)
    && Linked(g, s) && JobsOk(g, roots, s)
    && multiset(s.heap.scanned) == multiset(s.enqueued) + Debts(s.jobs)
  }

  lemma AddBoth(a: multiset<nat>, b: multiset<nat>, c: multiset<nat>, d: multiset<nat>, more: multiset<nat>)
    requires a + b == c + d
    ensures (a + more) + b == (c + more) + d
  {
    assert (a + more) + b == (a + b) + more;
    assert (c + more) + d == (c + d) + more;
  }

  lemma SwapLast(a: multiset<nat>, b: multiset<nat>, c: multiset<nat>)
    ensures (a + b) + c == (a + c) + b
  {
  }

  lemma {:induction false} DebtsMove(jobs: seq<Job>, w: nat, x: Job)
    requires w < |jobs|
    ensures Debts(jobs[w := x]) + Debt(jobs[w]) == Debts(jobs) + Debt(x)
  {
    hide Debt;
    var last, front, moved := |jobs| - 1, jobs[..|jobs| - 1], jobs[w := x];
    assert Debts(jobs) == Debts(front) + Debt(jobs[last]);
    assert Debts(moved) == Debts(moved[..last]) + Debt(moved[last]);
    if w == last {
      assert moved[..last] == front;
      SwapLast(Debts(front), Debt(x), Debt(jobs[last]));
    } else {
      assert moved[..last] == front[w := x];
      DebtsMove(front, w, x);
      AddBoth(Debts(front[w := x]), Debt(jobs[w]), Debts(front), Debt(x), Debt(jobs[last]));
    }
  }

  lemma DebtsSame(jobs: seq<Job>, w: nat, x: Job)
    requires w < |jobs| && Debt(jobs[w]) == Debt(x)
    ensures Debts(jobs[w := x]) == Debts(jobs)
  {
    hide Debts;
    DebtsMove(jobs, w, x);
    assert Debts(jobs[w := x]) == Debts(jobs[w := x]) + Debt(x) - Debt(x);
    assert Debts(jobs) == Debts(jobs) + Debt(x) - Debt(x);
  }

  lemma {:induction false} NoDebts(jobs: seq<Job>)
    requires forall w :: 0 <= w < |jobs| ==> jobs[w].Free?
    ensures Debts(jobs) == multiset{}
  {
    if jobs != [] {
      NoDebts(jobs[..|jobs| - 1]);
    }
  }

  lemma InitialInv(g: Graph, roots: set<nat>, s: State)
    requires Initial(g, roots, s)
    ensures Inv(g, roots, s, s.queue)
  {
    StartInv(g, roots, s.heap, s.queue);
    F.InitialInv(s.forwarding);
    NoDebts(s.jobs);
  }

  // ---------- frames ----------

  /** The heap only learns of more visited objects. */
  ghost predicate Grows(h: Heap, t: Heap) {
    forall o :: o in h.forward ==> Maps(t, o, h.forward[o])
  }

  lemma HeldStays(g: Graph, roots: set<nat>, h: Heap, t: Heap, slot: Slot, o: nat)
    requires Held(g, roots, h, slot, o) && Grows(h, t)
    requires slot.Field? ==> forall p :: p in t.forward && p !in h.forward ==> slot.obj != p
    ensures Held(g, roots, t, slot, o)
  {
    var was :| Needed(g, roots, h, was) && Image(h, was) == slot && was in g.slots && g.slots[was] == Some(o);
    assert Needed(g, roots, t, was) && Image(t, was) == slot;
  }

  lemma JobStays(g: Graph, roots: set<nat>, h: Heap, t: Heap, x: Job, y: F.Worker)
    requires JobOk(g, roots, h, x, y) && Grows(h, t) && Forwards(g, h) && h.moving
    requires forall p :: p in t.forward && p !in h.forward ==> p < h.base
    ensures JobOk(g, roots, t, x, y)
  {
    if !x.Free? {
      hide Held;
      HeldIsCopy(g, roots, h, x.slot, x.o);
      HeldStays(g, roots, h, t, x.slot, x.o);
    }
  }

  lemma HeldIsCopy(g: Graph, roots: set<nat>, h: Heap, slot: Slot, o: nat)
    requires Held(g, roots, h, slot, o) && Forwards(g, h) && h.moving
    ensures slot.Field? ==> slot.obj >= h.base
  {
  }

  // ---------- taking a slot ----------

  /** What a worker that takes a slot finds there. */
  lemma SlotContent(g: Graph, roots: set<nat>, h: Heap, pending: set<Slot>, slot: Slot)
    requires TraceInv(g, roots, h, pending) && InScope(g, roots, h, slot) && h.moving
    ensures slot in h.graph.slots
    ensures match h.graph.slots[slot]
      case None => TraceInv(g, roots, h, pending - {slot})
      case Some(o) => if InToSpace(h, o) then TraceInv(g, roots, h, pending - {slot}) else Held(g, roots, h, slot, o)
  {
    var was :| Needed(g, roots, h, was) && Image(h, was) == slot;
    Content(g, roots, h, pending, was);
    assert SlotOk(g, h, pending, was);
    match h.graph.slots[slot]
    case None => DropKeeps(g, roots, h, pending, was);
    case Some(o) =>
      if InToSpace(h, o) {
        assert Redirected(h, g.slots[was], Some(o));
        DropKeeps(g, roots, h, pending, was);
      } else {
        assert !Redirected(h, g.slots[was], Some(o));
      }
  }

  lemma TakeAwaits(s: State, w: nat, slot: Slot, pending: set<Slot>, rest: set<Slot>)
    requires Enabled(s, Take(w, slot)) && AllAwaited(s, pending) && rest <= pending
    requires slot in rest ==> !Taken(s, w, slot).jobs[w].Free?
    ensures AllAwaited(Taken(s, w, slot), rest)
  {
    var t := Taken(s, w, slot);
    forall x | x in rest
      ensures Awaited(t, x)
    {
      assert Awaited(s, x);
      JobsElsewhere(s, t, w, x);
    }
  }

  /** Replacing the job of a free worker frees nobody else of a slot or a debt. */
  lemma JobsElsewhere(s: State, t: State, w: nat, x: Slot)
    requires w < |s.jobs| == |t.jobs| && s.jobs[w].Free? && forall v :: 0 <= v < |s.jobs| && v != w ==>
      t.jobs[v] == s.jobs[v]
    ensures forall v :: 0 <= v < |s.jobs| && !s.jobs[v].Free? && s.jobs[v].slot == x ==>
      !t.jobs[v].Free? && t.jobs[v].slot == x
    ensures x.Field? ==> forall v :: 0 <= v < |s.jobs| && Owes(s.jobs[v], x.obj) ==> Owes(t.jobs[v], x.obj)
  {
  }

  lemma BeginIs(s: F.State, w: nat, o: nat)
    requires F.Enabled(s, F.Step(w, F.Begin(o)))
    ensures F.Apply(s, F.Step(w, F.Begin(o))) == s.(workers := s.workers[w := F.Reading(o)])
  {
  }

  /** The jobs and the protocol after a worker has begun to trace `o`. */
  lemma TakeBegins(g: Graph, roots: set<nat>, s: State, t: State, w: nat, slot: Slot, o: nat)
    requires Linked(g, s) && JobsOk(g, roots, s) && IsWorker(s, w) && s.jobs[w].Free?
    requires F.Enabled(s.forwarding, F.Step(w, F.Begin(o))) && Held(g, roots, s.heap, slot, o)
    requires t.forwarding == F.Apply(s.forwarding, F.Step(w, F.Begin(o)))
    requires t.jobs == s.jobs[w := Calling(slot, o)] && t.heap == s.heap
    ensures Linked(g, t) && JobsOk(g, roots, t) && Debts(t.jobs) == Debts(s.jobs)
  {
    BeginIs(s.forwarding, w, o);
    F.StepKeeps(s.forwarding, F.Step(w, F.Begin(o)));
    hide F.Enabled, F.Apply, F.Inv, Held, Debts;
    DebtsSame(s.jobs, w, Calling(slot, o));
  }

  lemma TakeKeeps(g: Graph, roots: set<nat>, s: State, pending: set<Slot>, w: nat, slot: Slot) returns (rest: set<Slot>)
    requires Inv(g, roots, s, pending) && Enabled(s, Take(w, slot))
    ensures Inv(g, roots, Taken(s, w, slot), rest)
  {
    var t := Taken(s, w, slot);
    SlotContent(g, roots, s.heap, pending, slot);
    rest := if t.jobs[w].Free? then pending - {slot} else pending;
    TakeAwaits(s, w, slot, pending, rest);
    hide TraceInv, AllAwaited, Held, InScope, Debts, Linked, JobsOk, F.Enabled, F.Apply;
    if !t.jobs[w].Free? {
      TakeBegins(g, roots, s, t, w, slot, t.jobs[w].o);
    } else {
      assert t == s.(queue := s.queue - {slot});
      SameJobs(g, roots, s, t);
    }
  }

  lemma SameJobs(g: Graph, roots: set<nat>, s: State, t: State)
    requires Linked(g, s) && JobsOk(g, roots, s)
    requires t.forwarding == s.forwarding && t.heap == s.heap && t.jobs == s.jobs
    ensures Linked(g, t) && JobsOk(g, roots, t)
  {
  }

  // ---------- scanning ----------

  /** Slots that hold nothing need not be pending. */
  lemma DropEmpty(g: Graph, roots: set<nat>, h: Heap, pending: set<Slot>, gone: set<Slot>)
    requires TraceInv(g, roots, h, pending) && forall x :: x in gone ==> x in h.graph.slots && h.graph.slots[x] == None
    ensures TraceInv(g, roots, h, pending - gone)
  {
    forall was | Needed(g, roots, h, was)
      ensures SlotOk(g, h, pending - gone, was)
    {
      assert SlotOk(g, h, pending, was);
    }
  }

  lemma ScanAwaits(s: State, n: nat, pending: set<Slot>)
    requires Enabled(s, Scan(n)) && AllAwaited(s, pending)
    requires forall x :: x in pending && x.Field? && x.obj == n && 0 <= x.k < s.heap.graph.size[n] ==>
      x in Pushed(s.heap.graph, n)
    requires forall x :: x in pending && x.Field? && x.obj == n ==> 0 <= x.k < s.heap.graph.size[n]
    ensures AllAwaited(Apply(s, Scan(n)), pending)
  {
    var t := Apply(s, Scan(n));
    forall x | x in pending
      ensures Awaited(t, x)
    {
      assert Awaited(s, x);
    }
  }

  /** A pending field of a copy is one of its fields. */
  lemma PendingField(g: Graph, roots: set<nat>, h: Heap, pending: set<Slot>, x: Slot)
    requires Forwards(g, h) && PendingInScope(g, roots, h, pending) && x in pending && x.Field? && h.moving
    ensures x.obj in h.graph.size && x.k < h.graph.size[x.obj]
  {
  }

  lemma PushedInScope(g: Graph, roots: set<nat>, h: Heap, n: nat, x: Slot)
    requires Forwards(g, h) && n in h.forward.Values && CanScan(h, n) && x in Pushed(h.graph, n)
    ensures InScope(g, roots, h, x)
  {
    var o :| o in h.forward && h.forward[o] == n;
    assert Needed(g, roots, h, Field(o, x.k)) && Image(h, Field(o, x.k)) == x;
  }

  lemma ScanKeeps(g: Graph, roots: set<nat>, s: State, pending: set<Slot>, n: nat) returns (rest: set<Slot>)
    requires Inv(g, roots, s, pending) && Enabled(s, Scan(n))
    ensures Inv(g, roots, Apply(s, Scan(n)), rest)
  {
    var h := s.heap;
    var gone := set x | x in pending && x.Field? && x.obj == n && x in h.graph.slots && h.graph.slots[x] == None;
    DropEmpty(g, roots, h, pending, gone);
    rest := pending - gone;
    forall x | x in rest && x.Field? && x.obj == n
      ensures x.k < h.graph.size[n] && x in Pushed(h.graph, n)
    {
      PendingField(g, roots, h, pending, x);
    }
    assert AllAwaited(s, rest);
    ScanAwaits(s, n, rest);
    forall x | x in Pushed(h.graph, n)
      ensures InScope(g, roots, h, x)
    {
      PushedInScope(g, roots, h, n, x);
    }
    hide TraceInv, AllAwaited, InScope, F.Inv, JobOk, Pushed;
  }

  // ---------- storing ----------

  lemma StoreInScope(g: Graph, roots: set<nat>, h: Heap, slot: Slot, n: nat, x: Slot)
    requires InScope(g, roots, h, x)
    ensures InScope(g, roots, Store(h, slot, n), x)
  {
    var was :| Needed(g, roots, h, was) && Image(h, was) == x;
    assert Needed(g, roots, Store(h, slot, n), was) && Image(Store(h, slot, n), was) == x;
  }

  /** Storing the copy into the slot: the slot is redirected. */
  lemma WriteTraces(g: Graph, roots: set<nat>, h: Heap, pending: set<Slot>, slot: Slot, o: nat, n: nat)
    requires TraceInv(g, roots, h, pending) && h.moving && Held(g, roots, h, slot, o) && Maps(h, o, n)
    ensures TraceInv(g, roots, Store(h, slot, n), pending - {slot})
  {
    var was :| Needed(g, roots, h, was) && Image(h, was) == slot && was in g.slots && g.slots[was] == Some(o);
    StoreKeeps(g, roots, h, pending, was, o);
    DropKeeps(g, roots, Store(h, slot, n), pending, was);
  }

  lemma WriteAwaits(s: State, w: nat, pending: set<Slot>)
    requires Enabled(s, Write(w)) && AllAwaited(s, pending)
    ensures AllAwaited(Apply(s, Write(w)), pending - {s.jobs[w].slot})
  {
    var t := Apply(s, Write(w));
    forall x | x in pending && x != s.jobs[w].slot
      ensures Awaited(t, x)
    {
      assert Awaited(s, x);
      assert forall v :: 0 <= v < |s.jobs| && !s.jobs[v].Free? && s.jobs[v].slot == x ==> t.jobs[v] == s.jobs[v];
      assert x.Field? ==> forall v :: 0 <= v < |s.jobs| && Owes(s.jobs[v], x.obj) ==> t.jobs[v] == s.jobs[v];
    }
  }

  lemma WriterIsFree(g: Graph, roots: set<nat>, h: Heap, t: Heap, x: Job, y: F.Worker)
    requires JobOk(g, roots, h, x, y) && x.Updating?
    ensures JobOk(g, roots, t, Free, y)
  {
  }

  lemma WriteJobs(g: Graph, roots: set<nat>, s: State, w: nat)
    requires JobsOk(g, roots, s) && Forwards(g, s.heap) && s.heap.moving && Enabled(s, Write(w))
    ensures JobsOk(g, roots, Apply(s, Write(w)))
  {
    hide JobOk, Forwards;
    var t, x := Apply(s, Write(w)), s.jobs[w];
    forall v | 0 <= v < |t.jobs|
      ensures JobOk(g, roots, t.heap, t.jobs[v], t.forwarding.workers[v])
    {
      assert JobOk(g, roots, s.heap, s.jobs[v], s.forwarding.workers[v]);
      if v == w {
        WriterIsFree(g, roots, s.heap, t.heap, x, s.forwarding.workers[v]);
      } else {
        JobStays(g, roots, s.heap, t.heap, s.jobs[v], s.forwarding.workers[v]);
      }
    }
  }

  lemma SameForward(g: Graph, s: State, t: State)
    requires Linked(g, s) && t.forwarding == s.forwarding
    requires t.heap.forward == s.heap.forward && t.heap.moving == s.heap.moving && t.heap.next == s.heap.next
    ensures Linked(g, t)
  {
    hide F.Inv;
    forall o | 0 <= o < |t.forwarding.copies|
      ensures SameCopy(t.heap, t.forwarding.copies, o)
    {
      assert SameCopy(s.heap, s.forwarding.copies, o);
    }
  }

  lemma WriteRest(g: Graph, roots: set<nat>, s: State, w: nat)
    requires Linked(g, s) && InHand(g, roots, s) && Enabled(s, Write(w))
    ensures Linked(g, Apply(s, Write(w))) && InHand(g, roots, Apply(s, Write(w)))
    ensures Debts(Apply(s, Write(w)).jobs) == Debts(s.jobs)
  {
    var t, x := Apply(s, Write(w)), s.jobs[w];
    hide F.Inv, InScope, Debts;
    DebtsSame(s.jobs, w, Free);
    SameForward(g, s, t);
    forall y | y in s.queue
      ensures InScope(g, roots, t.heap, y)
    {
      StoreInScope(g, roots, s.heap, x.slot, x.copy, y);
    }
  }

  lemma WriteKeeps(g: Graph, roots: set<nat>, s: State, pending: set<Slot>, w: nat) returns (rest: set<Slot>)
    requires Inv(g, roots, s, pending) && Enabled(s, Write(w))
    ensures Inv(g, roots, Apply(s, Write(w)), rest)
  {
    var x := s.jobs[w];
    assert JobOk(g, roots, s.heap, x, s.forwarding.workers[w]) && Forwards(g, s.heap);
    assert s.heap.moving;
    rest := pending - {x.slot};
    hide AllAwaited, InHand, Debts, Linked, JobsOk, TraceInv, Forwards;
    WriteTraces(g, roots, s.heap, pending, x.slot, x.o, x.copy);
    WriteAwaits(s, w, pending);
    WriteJobs(g, roots, s, w);
    WriteRest(g, roots, s, w);
  }

  // ---------- inside trace_object ----------

  lemma AccessEffect(s: F.State, w: nat, action: F.Action)
    requires F.Enabled(s, F.Step(w, action)) && !action.Begin? && !action.Leave?
    ensures var t, x := F.Apply(s, F.Step(w, action)), s.workers[w];
      && F.Traces(x) && x.o < |s.copies| && (action.MakeCopy? <==> x.Copying?)
      && t.workers == s.workers[w := t.workers[w]] && F.Traces(t.workers[w]) && t.workers[w].o == x.o
      && (if x.Copying? then
            && t.copies == s.copies[x.o := s.copies[x.o] + [s.next]] && t.next == s.next + 1
            && t.workers[w] == F.Stamping(x.o, s.next)
          else
            t.copies == s.copies && t.next == s.next && (HasCopied(t.workers[w]) <==> HasCopied(x)))
  {
  }

  /** Accesses other than the copying change only what the worker knows. */
  lemma AccessKeeps(g: Graph, roots: set<nat>, s: State, pending: set<Slot>, w: nat, action: F.Action)
    requires Inv(g, roots, s, pending) && Enabled(s, Access(w, action)) && !action.MakeCopy?
    ensures Inv(g, roots, Accessed(s, w, action), pending)
  {
    var t := Accessed(s, w, action);
    assert t == s.(forwarding := t.forwarding);
    AccessEffect(s.forwarding, w, action);
    F.StepKeeps(s.forwarding, F.Step(w, action));
    hide F.Enabled, F.Apply, F.Inv;
    AccessRest(g, roots, s, t, pending, w);
  }

  lemma AccessRest(g: Graph, roots: set<nat>, s: State, t: State, pending: set<Slot>, w: nat)
    requires Inv(g, roots, s, pending) && IsWorker(s, w) && InTrace(s.jobs[w]) && t == s.(forwarding := t.forwarding)
    requires F.Inv(t.forwarding) && t.forwarding.copies == s.forwarding.copies && t.forwarding.next == s.forwarding.next
    requires |t.forwarding.workers| == |s.forwarding.workers|
    requires t.forwarding.workers == s.forwarding.workers[w := t.forwarding.workers[w]]
    requires F.Traces(t.forwarding.workers[w]) && F.Traces(s.forwarding.workers[w])
    requires t.forwarding.workers[w].o == s.forwarding.workers[w].o
    requires HasCopied(t.forwarding.workers[w]) <==> HasCopied(s.forwarding.workers[w])
    ensures Inv(g, roots, t, pending)
  {
    hide F.Inv, TraceInv, Held, HasCopied, Debts;
    forall x | x in pending
      ensures Awaited(t, x)
    {
      assert Awaited(s, x);
    }
    forall v | 0 <= v < |t.jobs|
      ensures JobOk(g, roots, t.heap, t.jobs[v], t.forwarding.workers[v])
    {
      assert JobOk(g, roots, s.heap, s.jobs[v], s.forwarding.workers[v]);
    }
  }

  /** The object that a worker is about to copy has not been visited. */
  lemma CopyIsNew(g: Graph, roots: set<nat>, s: State, pending: set<Slot>, w: nat)
    requires Inv(g, roots, s, pending) && Enabled(s, Access(w, F.MakeCopy))
    ensures s.jobs[w].Calling? && s.forwarding.workers[w] == F.Copying(s.jobs[w].o)
    ensures Held(g, roots, s.heap, s.jobs[w].slot, s.jobs[w].o)
    ensures s.jobs[w].o in g.size && Reachable(g, roots, s.jobs[w].o) && s.jobs[w].o !in s.heap.forward
    ensures s.jobs[w].o < s.heap.base && s.jobs[w].o < |s.forwarding.copies| && s.forwarding.copies[s.jobs[w].o] == []
  {
    var h, x := s.heap, s.jobs[w];
    assert JobOk(g, roots, h, x, s.forwarding.workers[w]);
    assert F.Knows(s.forwarding, s.forwarding.workers[w]);
    assert SameCopy(h, s.forwarding.copies, x.o);
    var was :| Needed(g, roots, h, was) && Image(h, was) == x.slot && was in g.slots && g.slots[was] == Some(x.o);
    ContentIsReachable(g, roots, h, was, x.o);
    hide TraceInv, Reachable, JobsOk, F.Inv;
  }

  lemma CopyJobs(g: Graph, roots: set<nat>, s: State, t: State, w: nat, o: nat)
    requires JobsOk(g, roots, s) && Forwards(g, s.heap) && s.heap.moving && IsWorker(s, w) && o < s.heap.base
    requires s.jobs[w].Calling? && s.jobs[w].o == o && Held(g, roots, s.heap, s.jobs[w].slot, o)
    requires o !in s.heap.forward && t.heap.forward == s.heap.forward[o := s.forwarding.next]
    requires t.jobs == s.jobs[w := Owing(s.jobs[w].slot, o, s.forwarding.next)]
    requires t.forwarding.workers == s.forwarding.workers[w := F.Stamping(o, s.forwarding.next)]
    ensures JobsOk(g, roots, t)
  {
    hide Held, Forwards;
    var slot := s.jobs[w].slot;
    assert Grows(s.heap, t.heap);
    HeldIsCopy(g, roots, s.heap, slot, o);
    HeldStays(g, roots, s.heap, t.heap, slot, o);
    forall v | 0 <= v < |t.jobs|
      ensures JobOk(g, roots, t.heap, t.jobs[v], t.forwarding.workers[v])
    {
      if v != w {
        assert JobOk(g, roots, s.heap, s.jobs[v], s.forwarding.workers[v]);
        JobStays(g, roots, s.heap, t.heap, s.jobs[v], s.forwarding.workers[v]);
      }
    }
  }

  lemma CopyAwaits(s: State, t: State, w: nat, pending: set<Slot>)
    requires IsWorker(s, w) && s.jobs[w].Calling? && AllAwaited(s, pending)
    requires t.queue == s.queue && t.nodes == s.nodes && CanScan(t.heap, s.forwarding.next)
    requires t.jobs == s.jobs[w := Owing(s.jobs[w].slot, s.jobs[w].o, s.forwarding.next)]
    ensures AllAwaited(t, pending + Pushed(t.heap.graph, s.forwarding.next))
  {
    assert Owes(t.jobs[w], s.forwarding.next);
    forall x | x in pending + Pushed(t.heap.graph, s.forwarding.next)
      ensures Awaited(t, x)
    {
      if x in pending {
        assert Awaited(s, x);
        assert forall v :: 0 <= v < |s.jobs| && !s.jobs[v].Free? && s.jobs[v].slot == x ==> t.jobs[v].slot == x;
        assert x.Field? ==> forall v :: 0 <= v < |s.jobs| && Owes(s.jobs[v], x.obj) ==> t.jobs[v] == s.jobs[v];
      }
    }
  }

  lemma CopyLinks(g: Graph, s: State, t: State, o: nat)
    requires Linked(g, s) && F.Inv(t.forwarding) && o < |s.forwarding.copies| && s.forwarding.copies[o] == []
    requires t.heap.forward == s.heap.forward[o := s.forwarding.next] && t.heap.moving && t.heap.next == s.heap.next + 1
    requires t.forwarding.copies == s.forwarding.copies[o := [] + [s.forwarding.next]]
    requires t.forwarding.next == s.forwarding.next + 1
    ensures Linked(g, t)
  {
    hide F.Inv;
    forall p | 0 <= p < |t.forwarding.copies|
      ensures SameCopy(t.heap, t.forwarding.copies, p)
    {
      assert SameCopy(s.heap, s.forwarding.copies, p);
    }
  }

  lemma CopyInHand(g: Graph, roots: set<nat>, s: State, t: State, o: nat)
    requires InHand(g, roots, s) && o !in s.heap.forward && CanVisit(s.heap, o)
    requires t.heap == Visited(s.heap, o) && t.queue == s.queue && t.nodes == s.nodes
    ensures InHand(g, roots, t)
  {
    forall x | x in t.queue
      ensures InScope(g, roots, t.heap, x)
    {
      ScopeGrows(g, roots, s.heap, o, x);
    }
    hide InScope, Copied;
    forall n | n in t.nodes
      ensures n in t.heap.forward.Values
    {
      var p :| p in s.heap.forward && s.heap.forward[p] == n;
      assert t.heap.forward[p] == n;
    }
  }

  lemma CopyVisits(g: Graph, h: Heap, o: nat)
    requires Originals(g, h) && o in g.size && CanVisit(h, o) && h.moving
    ensures var t := Visited(h, o);
      && t.forward == h.forward[o := h.next] && t.moving && t.next == h.next + 1 && t.scanned == h.scanned + [h.next]
      && CanScan(t, h.next)
  {
    VisitSlots(h, o);
    hide Copied;
  }

  /** What the copying does to the heap and to the protocol. */
  lemma CopyEffect(g: Graph, roots: set<nat>, s: State, pending: set<Slot>, w: nat)
    requires Inv(g, roots, s, pending) && Enabled(s, Access(w, F.MakeCopy))
    ensures var t, o, n := Accessed(s, w, F.MakeCopy), s.jobs[w].o, s.forwarding.next;
      && CanScan(t.heap, n) && TraceInv(g, roots, t.heap, pending + Pushed(t.heap.graph, n))
      && t.heap.forward == s.heap.forward[o := n] && t.heap.moving && t.heap.next == s.heap.next + 1
      && t.heap.scanned == s.heap.scanned + [n]
  {
    CopyIsNew(g, roots, s, pending, w);
    assert Originals(g, s.heap);
    CopyVisits(g, s.heap, s.jobs[w].o);
    hide Inv, JobsOk, AllAwaited, TraceInv, Originals, Visited, Held, Reachable, Pushed, F.Enabled, F.Apply;
    VisitKeeps(g, roots, s.heap, pending, s.jobs[w].o);
  }

  lemma CopyForwards(s: State, w: nat)
    requires F.Inv(s.forwarding) && Enabled(s, Access(w, F.MakeCopy))
    requires s.forwarding.workers[w] == F.Copying(s.jobs[w].o)
    ensures s.jobs[w].o < |s.forwarding.copies|
    ensures var t, o, n := F.Apply(s.forwarding, F.Step(w, F.MakeCopy)), s.jobs[w].o, s.forwarding.next;
      && F.Inv(t) && t.copies == s.forwarding.copies[o := s.forwarding.copies[o] + [n]] && t.next == n + 1
      && t.workers == s.forwarding.workers[w := F.Stamping(o, n)]
  {
    AccessEffect(s.forwarding, w, F.MakeCopy);
    F.StepKeeps(s.forwarding, F.Step(w, F.MakeCopy));
    hide F.Inv, F.Enabled, F.Apply;
  }

  lemma CopyDebts(s: State, t: State, w: nat, n: nat)
    requires IsWorker(s, w) && s.jobs[w].Calling? && t.jobs == s.jobs[w := Owing(s.jobs[w].slot, s.jobs[w].o, n)]
    requires multiset(s.heap.scanned) == multiset(s.enqueued) + Debts(s.jobs)
    requires t.heap.scanned == s.heap.scanned + [n] && t.enqueued == s.enqueued
    ensures multiset(t.heap.scanned) == multiset(t.enqueued) + Debts(t.jobs)
  {
    DebtsMove(s.jobs, w, t.jobs[w]);
    hide Debts;
    assert Debts(t.jobs) == Debts(s.jobs) + multiset{n};
  }

  lemma CopyKeeps(g: Graph, roots: set<nat>, s: State, pending: set<Slot>, w: nat) returns (rest: set<Slot>)
    requires Inv(g, roots, s, pending) && Enabled(s, Access(w, F.MakeCopy))
    ensures Inv(g, roots, Accessed(s, w, F.MakeCopy), rest)
  {
    var t, o, n := Accessed(s, w, F.MakeCopy), s.jobs[w].o, s.forwarding.next;
    CopyIsNew(g, roots, s, pending, w);
    CopyEffect(g, roots, s, pending, w);
    assert Forwards(g, s.heap) && Linked(g, s) && s.heap.moving && F.Inv(s.forwarding);
    hide TraceInv, F.Inv, F.Enabled, F.Apply, Forwards, Visited, Held, Reachable, Pushed, Debts, AllAwaited, InHand,
      Linked, JobsOk, CanVisit, CanScan;
    rest := pending + Pushed(t.heap.graph, n);
    CopyForwards(s, w);
    CopyAwaits(s, t, w, pending);
    CopyJobs(g, roots, s, t, w, o);
    CopyLinks(g, s, t, o);
    CopyInHand(g, roots, s, t, o);
    CopyDebts(s, t, w, n);
  }

  // ---------- the end of trace_object ----------

  /** Whoever returns from trace_object has the copy, and owes it exactly if it made the copy. */
  lemma ReturnsCopy(g: Graph, roots: set<nat>, s: State, pending: set<Slot>, w: nat)
    requires Inv(g, roots, s, pending) && Enabled(s, Return(w))
    ensures var x, y := s.jobs[w], s.forwarding.workers[w];
      && y.Returned? && Held(g, roots, s.heap, x.slot, x.o) && Maps(s.heap, x.o, ResultOf(y, x.o))
      && (y.copied <==> x.Owing?) && (x.Owing? ==> x.copy == ResultOf(y, x.o))
      && F.Apply(s.forwarding, F.Step(w, F.Leave)) == s.forwarding.(workers := s.forwarding.workers[w := F.Idle])
  {
    var x, y := s.jobs[w], s.forwarding.workers[w];
    assert JobOk(g, roots, s.heap, x, y);
    assert F.Knows(s.forwarding, y);
    assert SameCopy(s.heap, s.forwarding.copies, x.o);
    hide TraceInv, Held, F.Inv, JobsOk;
  }

  lemma ReturnJobs(g: Graph, roots: set<nat>, s: State, t: State, w: nat, n: nat)
    requires JobsOk(g, roots, s) && IsWorker(s, w) && InTrace(s.jobs[w]) && t.heap == s.heap
    requires Held(g, roots, s.heap, s.jobs[w].slot, s.jobs[w].o) && Maps(s.heap, s.jobs[w].o, n)
    requires t.jobs == s.jobs[w := Updating(s.jobs[w].slot, s.jobs[w].o, n)]
    requires t.forwarding.workers == s.forwarding.workers[w := F.Idle]
    ensures JobsOk(g, roots, t)
  {
    hide Held;
  }

  lemma ReturnAwaits(s: State, t: State, w: nat, n: nat, pending: set<Slot>)
    requires IsWorker(s, w) && InTrace(s.jobs[w]) && AllAwaited(s, pending) && t.queue == s.queue
    requires t.jobs == s.jobs[w := Updating(s.jobs[w].slot, s.jobs[w].o, n)]
    requires s.nodes <= t.nodes && (s.jobs[w].Owing? ==> s.jobs[w].copy in t.nodes)
    ensures AllAwaited(t, pending)
  {
    forall x | x in pending
      ensures Awaited(t, x)
    {
      assert Awaited(s, x);
      assert forall v :: 0 <= v < |s.jobs| && !s.jobs[v].Free? && s.jobs[v].slot == x ==>
        !t.jobs[v].Free? && t.jobs[v].slot == x;
      assert x.Field? ==> forall v :: 0 <= v < |s.jobs| && Owes(s.jobs[v], x.obj) ==> v == w || t.jobs[v] == s.jobs[v];
    }
  }

  lemma ReturnLinks(g: Graph, s: State, t: State, w: nat)
    requires Linked(g, s) && Enabled(s, Return(w)) && t.heap == s.heap
    requires t.forwarding == F.Apply(s.forwarding, F.Step(w, F.Leave))
    requires t.forwarding == s.forwarding.(workers := s.forwarding.workers[w := F.Idle])
    ensures Linked(g, t)
  {
    F.StepKeeps(s.forwarding, F.Step(w, F.Leave));
    hide F.Inv, F.Apply, F.Enabled;
  }

  lemma ReturnDebts(s: State, t: State, w: nat, n: nat)
    requires IsWorker(s, w) && InTrace(s.jobs[w]) && t.jobs == s.jobs[w := Updating(s.jobs[w].slot, s.jobs[w].o, n)]
    requires t.enqueued == if s.jobs[w].Owing? then s.enqueued + [s.jobs[w].copy] else s.enqueued
    ensures multiset(t.enqueued) + Debts(t.jobs) == multiset(s.enqueued) + Debts(s.jobs)
  {
    DebtsMove(s.jobs, w, t.jobs[w]);
    hide Debts;
    assert multiset(t.enqueued) == multiset(s.enqueued) + Debt(s.jobs[w]);
    assert Debts(t.jobs) + Debt(s.jobs[w]) == Debts(s.jobs);
  }

  lemma ReturnKeeps(g: Graph, roots: set<nat>, s: State, pending: set<Slot>, w: nat)
    requires Inv(g, roots, s, pending) && Enabled(s, Return(w))
    ensures Inv(g, roots, Returned(s, w), pending)
  {
    var t, n := Returned(s, w), ResultOf(s.forwarding.workers[w], s.jobs[w].o);
    ReturnsCopy(g, roots, s, pending, w);
    hide TraceInv, AllAwaited, Linked, JobsOk, Held, Debts, F.Apply, F.Enabled, InScope, ResultOf;
    ReturnJobs(g, roots, s, t, w, n);
    ReturnAwaits(s, t, w, n, pending);
    ReturnLinks(g, s, t, w);
    ReturnDebts(s, t, w, n);
  }

  // ---------- the theorem ----------

  lemma StepKeeps(g: Graph, roots: set<nat>, s: State, pending: set<Slot>, step: Step) returns (rest: set<Slot>)
    requires Inv(g, roots, s, pending) && Enabled(s, step)
    ensures Inv(g, roots, Apply(s, step), rest)
  {
    hide Inv;
    match step
    case Take(w, slot) => rest := TakeKeeps(g, roots, s, pending, w, slot);
    case Access(w, action) =>
      if action.MakeCopy? {
        rest := CopyKeeps(g, roots, s, pending, w);
      } else {
        rest := pending;
        AccessKeeps(g, roots, s, pending, w, action);
      }
    case Return(w) =>
      rest := pending;
      ReturnKeeps(g, roots, s, pending, w);
    case Write(w) => rest := WriteKeeps(g, roots, s, pending, w);
    case Scan(n) => rest := ScanKeeps(g, roots, s, pending, n);
  }

  lemma {:induction false} RunKeeps(g: Graph, roots: set<nat>, s: State, pending: set<Slot>, steps: seq<Step>)
    returns (rest: set<Slot>)
    requires Inv(g, roots, s, pending) && IsRun(s, steps)
    ensures Inv(g, roots, Run(s, steps), rest)
    decreases |steps|
  {
    hide Inv, Enabled, Apply;
    if steps == [] {
      rest := pending;
    } else {
      rest := StepKeeps(g, roots, s, pending, steps[0]);
      rest := RunKeeps(g, roots, Apply(s, steps[0]), rest, steps[1..]);
    }
  }

  /**
   However the accesses of the workers interleave, when everything is finished the heap is an isomorphic image of
   the part of the graph that the roots reach, and every copy was enqueued exactly once.
   */
  lemma ConcurrentTraceComplete(g: Graph, roots: set<nat>, s: State, steps: seq<Step>)
    requires Initial(g, roots, s) && IsRun(s, steps) && Finished(Run(s, steps))
    ensures var t := Run(s, steps);
      && Isomorphic(g, roots, t.heap)
      && NoDuplicates(t.enqueued) && (forall n :: n in t.enqueued <==> n in t.heap.forward.Values)
  {
    var t := Run(s, steps);
    InitialInv(g, roots, s);
    var pending := RunKeeps(g, roots, s, s.queue, steps);
    NothingAwaited(t, pending);
    TraceComplete(g, roots, t.heap);
    NoDebts(t.jobs);
    hide IsRun, Run, Initial, Isomorphic, Debts;
    SameContents(t.heap.scanned, t.enqueued);
  }

  lemma NotAwaited(t: State, x: Slot)
    requires Finished(t)
    ensures !Awaited(t, x)
  {
  }

  lemma NothingAwaited(t: State, pending: set<Slot>)
    requires Finished(t) && AllAwaited(t, pending)
    ensures pending == {}
  {
    hide Awaited;
    forall x
      ensures x !in pending
    {
      NotAwaited(t, x);
    }
  }

  lemma SameContents(a: seq<nat>, b: seq<nat>)
    requires multiset(a) == multiset(b) && NoDuplicates(a)
    ensures NoDuplicates(b) && forall n :: n in b <==> n in a
  {
    assert forall n :: n in b <==> n in multiset(b);
    assert forall n :: n in a <==> n in multiset(a);
    forall n | n in a
      ensures multiset(a)[n] == 1
    {
      CountOne(a, n);
    }
    forall i, j | 0 <= i < j < |b|
      ensures b[i] != b[j]
    {
      if b[i] == b[j] {
        CountTwo(b, i, j);
        assert false;
      }
    }
  }

  lemma {:induction false} CountOne(a: seq<nat>, n: nat)
    requires NoDuplicates(a) && n in a
    ensures multiset(a)[n] == 1
  {
    var i :| 0 <= i < |a| && a[i] == n;
    assert a == a[..i] + [n] + a[i + 1..];
    assert n !in a[..i] && n !in a[i + 1..];
  }

  lemma CountTwo(b: seq<nat>, i: int, j: int)
    requires 0 <= i < j < |b| && b[i] == b[j]
    ensures multiset(b)[b[i]] >= 2
  {
    assert b == b[..j] + [b[j]] + b[j + 1..];
    assert b[i] in b[..j];
  }

  // ---------- nobody is stuck ----------

  lemma HeldIsOriginal(g: Graph, roots: set<nat>, h: Heap, slot: Slot, o: nat)
    requires WellFormed(g, roots) && Originals(g, h) && Held(g, roots, h, slot, o)
    ensures o in g.size && CanVisit(h, o)
  {
    var was :| Needed(g, roots, h, was) && Image(h, was) == slot && was in g.slots && g.slots[was] == Some(o);
    assert IsSlot(g, roots, was);
  }

  lemma BusyCanGoOn(g: Graph, roots: set<nat>, s: State, pending: set<Slot>, w: nat) returns (step: Step)
    requires Inv(g, roots, s, pending) && w < |s.jobs| && !s.jobs[w].Free?
    ensures Enabled(s, step) && !step.Take? && !step.Scan? && step.w == w
  {
    var x, y := s.jobs[w], s.forwarding.workers[w];
    assert JobOk(g, roots, s.heap, x, y) && F.Knows(s.forwarding, y);
    assert WellFormed(g, roots) && Originals(g, s.heap) && |s.forwarding.copies| == |s.forwarding.headers|;
    HeldIsOriginal(g, roots, s.heap, x.slot, x.o);
    hide Inv, JobsOk, Linked, Held, WellFormed, Originals, CanVisit, F.Inv;
    step := if x.Updating? then Write(w) else if y.Returned? then Return(w) else Access(w, F.NextAccess(y));
  }

  lemma SlotCanBeTaken(g: Graph, roots: set<nat>, s: State, pending: set<Slot>, w: nat, slot: Slot)
    requires Inv(g, roots, s, pending) && w < |s.jobs| && s.jobs[w].Free? && slot in s.queue
    ensures Enabled(s, Take(w, slot))
  {
    SlotContent(g, roots, s.heap, pending, slot);
    assert JobOk(g, roots, s.heap, s.jobs[w], s.forwarding.workers[w]) &&
      |s.forwarding.copies| == |s.forwarding.headers|;
    if s.heap.graph.slots[slot].Some? && !InToSpace(s.heap, s.heap.graph.slots[slot].value) {
      HeldIsOriginal(g, roots, s.heap, slot, s.heap.graph.slots[slot].value);
    }
    hide TraceInv, F.Inv, Held, JobOk, AllAwaited;
  }

  lemma NodeCanBeScanned(g: Graph, roots: set<nat>, s: State, pending: set<Slot>, n: nat)
    requires Inv(g, roots, s, pending) && n in s.nodes
    ensures Enabled(s, Scan(n))
  {
    var o :| o in s.heap.forward && s.heap.forward[o] == n;
    forall k | 0 <= k < s.heap.graph.size[n]
      ensures Field(n, k) in s.heap.graph.slots
    {
      assert Needed(g, roots, s.heap, Field(o, k));
      assert SlotOk(g, s.heap, pending, Field(o, k));
    }
  }

  lemma {:induction false} SameWorkers(s: State, steps: seq<Step>)
    requires IsRun(s, steps)
    ensures |Run(s, steps).jobs| == |s.jobs|
    decreases |steps|
  {
    if steps != [] {
      SameWorkers(Apply(s, steps[0]), steps[1..]);
    }
  }

  // ---------- the trace comes to its end ----------

  /** The objects that can still be visited, the copies to enqueue or scan, the slots to take, the accesses to make. */
  ghost function ToVisit(g: Graph, s: State): nat {
    |Unvisited(g, s.heap)|
  }

  function ToScan(s: State): nat {
    |s.nodes| + |Debts(s.jobs)|
  }

  function JobEffort(fw: F.State, x: Job, y: F.Worker): nat
    requires F.Traces(y) ==> y.o < |fw.headers|
  {
    match x
    case Free => 0
    case Updating(_, _, _) => 1
    case _ => 2 + F.Effort(fw, y)
  }

  ghost predicate Sized(s: State) {
    |s.jobs| == |s.forwarding.workers| &&
    forall w :: 0 <= w < |s.jobs| && F.Traces(s.forwarding.workers[w]) ==>
      s.forwarding.workers[w].o < |s.forwarding.headers|
  }

  ghost function Efforts(s: State): seq<nat>
    requires Sized(s)
  {
    seq(|s.jobs|, w requires 0 <= w < |s.jobs| => JobEffort(s.forwarding, s.jobs[w], s.forwarding.workers[w]))
  }

  ghost function ToDo(s: State): nat
    requires Sized(s)
  {
    Sum(Efforts(s))
  }

  /** Less is left to do, in this order. */
  ghost predicate Less(g: Graph, t: State, s: State)
    requires Sized(s) && Sized(t)
  {
    || ToVisit(g, t) < ToVisit(g, s)
    || (ToVisit(g, t) == ToVisit(g, s) &&
        (|| ToScan(t) < ToScan(s)
         || (ToScan(t) == ToScan(s) &&
             (|| |t.queue| < |s.queue|
              || (|t.queue| == |s.queue| && ToDo(t) < ToDo(s))))))
  }

  /** An access that finds another worker still copying the object. */
  predicate Waits(s: State, step: Step)
    requires Enabled(s, step)
  {
    step.Access? && F.Waits(s.forwarding, F.Step(step.w, step.action))
  }

  lemma InvSized(g: Graph, roots: set<nat>, s: State, pending: set<Slot>)
    requires Inv(g, roots, s, pending)
    ensures Sized(s)
  {
    forall w | 0 <= w < |s.jobs| && F.Traces(s.forwarding.workers[w])
      ensures s.forwarding.workers[w].o < |s.forwarding.headers|
    {
      assert F.Knows(s.forwarding, s.forwarding.workers[w]);
    }
  }

  lemma DebtsCount(jobs: seq<Job>, w: nat, x: Job)
    requires w < |jobs|
    ensures |Debts(jobs[w := x])| + |Debt(jobs[w])| == |Debts(jobs)| + |Debt(x)|
  {
    DebtsMove(jobs, w, x);
    hide Debts;
    assert |Debts(jobs[w := x]) + Debt(jobs[w])| == |Debts(jobs[w := x])| + |Debt(jobs[w])|;
    assert |Debts(jobs) + Debt(x)| == |Debts(jobs)| + |Debt(x)|;
  }

  /** One worker has less to do, and no other one more. */
  lemma OneWorksOff(s: State, t: State, w: nat)
    requires Sized(s) && Sized(t) && |t.jobs| == |s.jobs| && w < |s.jobs|
    requires JobEffort(t.forwarding, t.jobs[w], t.forwarding.workers[w]) <
             JobEffort(s.forwarding, s.jobs[w], s.forwarding.workers[w])
    requires forall v :: 0 <= v < |s.jobs| && v != w ==>
      JobEffort(t.forwarding, t.jobs[v], t.forwarding.workers[v]) <=
      JobEffort(s.forwarding, s.jobs[v], s.forwarding.workers[v])
    ensures ToDo(t) < ToDo(s)
  {
    SumLess(Efforts(t), Efforts(s), w);
  }

  lemma TakeLowers(g: Graph, s: State, w: nat, slot: Slot)
    requires Enabled(s, Take(w, slot)) && Sized(s) && Sized(Taken(s, w, slot))
    ensures Less(g, Taken(s, w, slot), s)
  {
    var t := Taken(s, w, slot);
    assert |t.queue| < |s.queue|;
    if !t.jobs[w].Free? {
      DebtsSame(s.jobs, w, t.jobs[w]);
    }
    hide Debts;
  }

  lemma ScanLowers(g: Graph, s: State, n: nat)
    requires Enabled(s, Scan(n)) && Sized(s) && Sized(Apply(s, Scan(n)))
    ensures Less(g, Apply(s, Scan(n)), s)
  {
    assert |s.nodes - {n}| < |s.nodes|;
    hide Debts;
  }

  lemma WriteLowers(g: Graph, s: State, w: nat)
    requires Enabled(s, Write(w)) && Sized(s) && Sized(Apply(s, Write(w)))
    ensures Less(g, Apply(s, Write(w)), s)
  {
    var t := Apply(s, Write(w));
    DebtsSame(s.jobs, w, Free);
    OneWorksOff(s, t, w);
    hide Debts, ToDo;
  }

  lemma ReturnWorksOff(s: State, t: State, w: nat, n: nat)
    requires Sized(s) && Sized(t) && IsWorker(s, w) && InTrace(s.jobs[w])
    requires t.jobs == s.jobs[w := Updating(s.jobs[w].slot, s.jobs[w].o, n)]
    requires t.forwarding == s.forwarding.(workers := s.forwarding.workers[w := F.Idle])
    ensures ToDo(t) < ToDo(s)
  {
    SameHeaders(s.forwarding, t.forwarding);
    hide F.Effort;
    OneWorksOff(s, t, w);
  }

  lemma ReturnScans(s: State, t: State, w: nat, n: nat)
    requires IsWorker(s, w) && InTrace(s.jobs[w])
    requires t.jobs == s.jobs[w := Updating(s.jobs[w].slot, s.jobs[w].o, n)]
    requires t.nodes == if s.jobs[w].Owing? then s.nodes + {n} else s.nodes
    ensures ToScan(t) <= ToScan(s)
  {
    DebtsCount(s.jobs, w, t.jobs[w]);
    hide Debts;
  }

  lemma ReturnLowers(g: Graph, roots: set<nat>, s: State, pending: set<Slot>, w: nat)
    requires Inv(g, roots, s, pending) && Enabled(s, Return(w)) && Sized(s) && Sized(Returned(s, w))
    ensures Less(g, Returned(s, w), s)
  {
    var t, n := Returned(s, w), ResultOf(s.forwarding.workers[w], s.jobs[w].o);
    ReturnsCopy(g, roots, s, pending, w);
    hide Inv, F.Apply, F.Enabled, Debts, Held, Sized, ToDo, ToScan, ResultOf, Maps;
    ReturnWorksOff(s, t, w, n);
    ReturnScans(s, t, w, n);
  }

  lemma SameHeaders(s: F.State, t: F.State)
    requires t.headers == s.headers
    ensures forall y: F.Worker {:trigger F.Effort(t, y)} ::
      (F.Traces(y) ==> y.o < |s.headers|) ==> F.Effort(t, y) == F.Effort(s, y)
  {
  }

  lemma CopyLowers(g: Graph, roots: set<nat>, s: State, pending: set<Slot>, w: nat)
    requires Inv(g, roots, s, pending) && Enabled(s, Access(w, F.MakeCopy))
    requires Sized(s) && Sized(Accessed(s, w, F.MakeCopy))
    ensures Less(g, Accessed(s, w, F.MakeCopy), s)
  {
    var t, o := Accessed(s, w, F.MakeCopy), s.jobs[w].o;
    CopyIsNew(g, roots, s, pending, w);
    CopyEffect(g, roots, s, pending, w);
    hide Inv, TraceInv, F.Apply, F.Enabled, Debts, Visited, Pushed, Reachable, Sized, Held;
    VisitsOneMore(g, s.heap, t.heap, o, s.forwarding.next);
  }

  lemma VisitsOneMore(g: Graph, h: Heap, t: Heap, o: nat, n: nat)
    requires o in g.size && o !in h.forward && t.forward == h.forward[o := n]
    ensures |Unvisited(g, t)| < |Unvisited(g, h)|
  {
    assert Unvisited(g, t) == Unvisited(g, h) - {o} && o in Unvisited(g, h);
  }

  lemma AccessLowers(g: Graph, roots: set<nat>, s: State, pending: set<Slot>, w: nat, action: F.Action)
    requires Inv(g, roots, s, pending) && Enabled(s, Access(w, action)) && !action.MakeCopy?
    requires Sized(s) && Sized(Accessed(s, w, action)) && !Waits(s, Access(w, action))
    ensures Less(g, Accessed(s, w, action), s)
  {
    var t, step := Accessed(s, w, action), F.Step(w, action);
    assert F.Inv(s.forwarding);
    hide Inv;
    F.AccessLowers(s.forwarding, step);
    forall v | 0 <= v < |s.jobs| && v != w
      ensures JobEffort(t.forwarding, t.jobs[v], t.forwarding.workers[v]) <=
              JobEffort(s.forwarding, s.jobs[v], s.forwarding.workers[v])
    {
      F.OthersNotHarder(s.forwarding, step, v);
    }
    hide F.Inv, F.Apply, F.Enabled, F.Waits, F.Effort;
    OneWorksOff(s, t, w);
    hide ToDo;
  }

  /** Every step but a wait leaves less to do. */
  lemma StepLowers(g: Graph, roots: set<nat>, s: State, pending: set<Slot>, step: Step)
    requires Inv(g, roots, s, pending) && Enabled(s, step) && Sized(s) && Sized(Apply(s, step)) && !Waits(s, step)
    ensures Less(g, Apply(s, step), s)
  {
    hide Inv, Sized, Less;
    match step
    case Take(w, slot) => TakeLowers(g, s, w, slot);
    case Access(w, action) =>
      if action.MakeCopy? {
        CopyLowers(g, roots, s, pending, w);
      } else {
        AccessLowers(g, roots, s, pending, w, action);
      }
    case Return(w) => ReturnLowers(g, roots, s, pending, w);
    case Write(w) => WriteLowers(g, s, w);
    case Scan(n) => ScanLowers(g, s, n);
  }

  /** Who makes a worker wait is inside trace_object, and does not wait itself. */
  lemma OwnerGoesOn(g: Graph, roots: set<nat>, s: State, pending: set<Slot>, step: Step) returns (other: Step)
    requires Inv(g, roots, s, pending) && Enabled(s, step) && Waits(s, step)
    ensures Enabled(s, other) && !Waits(s, other)
  {
    var o := s.forwarding.workers[step.w].o;
    assert F.HeaderOk(s.forwarding, o);
    var v :| 0 <= v < |s.forwarding.workers| && F.Owns(s.forwarding.workers[v], o);
    assert JobOk(g, roots, s.heap, s.jobs[v], s.forwarding.workers[v]);
    hide F.HeaderOk;
    other := BusyCanGoOn(g, roots, s, pending, v);
    hide Inv;
  }

  /** Unless the trace is finished, some step can be taken that is no wait. */
  lemma UsefulStep(g: Graph, roots: set<nat>, s: State, pending: set<Slot>) returns (step: Step)
    requires Inv(g, roots, s, pending) && |s.jobs| > 0 && !Finished(s)
    ensures Enabled(s, step) && !Waits(s, step)
  {
    hide Inv, Enabled;
    if w :| 0 <= w < |s.jobs| && !s.jobs[w].Free? {
      step := BusyCanGoOn(g, roots, s, pending, w);
      if Waits(s, step) {
        step := OwnerGoesOn(g, roots, s, pending, step);
      }
    } else if slot :| slot in s.queue {
      SlotCanBeTaken(g, roots, s, pending, 0, slot);
      step := Take(0, slot);
    } else {
      var n :| n in s.nodes;
      NodeCanBeScanned(g, roots, s, pending, n);
      step := Scan(n);
    }
  }

  /** In every state that a run reaches, the trace is finished or some step can be taken that leaves less to do. */
  lemma TraceGoesOn(g: Graph, roots: set<nat>, s: State, steps: seq<Step>)
    requires Initial(g, roots, s) && IsRun(s, steps) && |s.jobs| > 0
    ensures Sized(Run(s, steps))
    ensures Finished(Run(s, steps)) || exists step :: Enabled(Run(s, steps), step) && Lowers(g, Run(s, steps), step)
  {
    var t := Run(s, steps);
    InitialInv(g, roots, s);
    var pending := RunKeeps(g, roots, s, s.queue, steps);
    SameWorkers(s, steps);
    InvSized(g, roots, t, pending);
    hide Inv, Enabled, Run, IsRun, Initial, Sized, Apply, Less, Waits, Finished;
    if !Finished(t) {
      var step := UsefulStep(g, roots, t, pending);
      var rest := StepKeeps(g, roots, t, pending, step);
      InvSized(g, roots, Apply(t, step), rest);
      StepLowers(g, roots, t, pending, step);
    }
  }

  ghost predicate Lowers(g: Graph, s: State, step: Step)
    requires Enabled(s, step) && Sized(s)
  {
    Sized(Apply(s, step)) && Less(g, Apply(s, step), s)
  }

  lemma {:induction false} CanFinish(g: Graph, roots: set<nat>, s: State, pending: set<Slot>) returns (steps: seq<Step>)
    requires Inv(g, roots, s, pending) && |s.jobs| > 0 && Sized(s)
    ensures IsRun(s, steps) && Finished(Run(s, steps))
    decreases ToVisit(g, s), ToScan(s), |s.queue|, ToDo(s)
  {
    hide Inv, Enabled, Apply, Waits, Sized, ToVisit, ToScan, ToDo, Finished;
    if Finished(s) {
      steps := [];
    } else {
      var step := UsefulStep(g, roots, s, pending);
      var t := Apply(s, step);
      var rest := StepKeeps(g, roots, s, pending, step);
      InvSized(g, roots, t, rest);
      StepLowers(g, roots, s, pending, step);
      SameJobCount(s, step);
      var more := CanFinish(g, roots, t, rest);
      steps := [step] + more;
      assert steps[0] == step && steps[1..] == more;
    }
  }

  lemma SameJobCount(s: State, step: Step)
    requires Enabled(s, step)
    ensures |Apply(s, step).jobs| == |s.jobs|
  {
  }

  lemma {:induction false} RunPlus(s: State, a: seq<Step>, b: seq<Step>)
    requires IsRun(s, a) && IsRun(Run(s, a), b)
    ensures IsRun(s, a + b) && Run(s, a + b) == Run(Run(s, a), b)
    decreases |a|
  {
    hide Enabled, Apply;
    if a == [] {
      assert a + b == b;
    } else {
      assert (a + b)[1..] == a[1..] + b && (a + b)[0] == a[0];
      RunPlus(Apply(s, a[0]), a[1..], b);
    }
  }

  /** From every state that a run reaches, the trace can be brought to its end, and is then complete. */
  lemma TraceCanFinish(g: Graph, roots: set<nat>, s: State, steps: seq<Step>) returns (more: seq<Step>)
    requires Initial(g, roots, s) && IsRun(s, steps) && |s.jobs| > 0
    ensures IsRun(s, steps + more) && Finished(Run(s, steps + more)) && Isomorphic(g, roots, Run(s, steps + more).heap)
  {
    var t := Run(s, steps);
    InitialInv(g, roots, s);
    var pending := RunKeeps(g, roots, s, s.queue, steps);
    SameWorkers(s, steps);
    InvSized(g, roots, t, pending);
    hide Inv, Run, IsRun, Initial, Sized, Finished, Isomorphic;
    more := CanFinish(g, roots, t, pending);
    RunPlus(s, steps, more);
    ConcurrentTraceComplete(g, roots, s, steps + more);
  }
}
