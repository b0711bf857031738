/**
 Several workers trace large objects at the same time: the read of the nursery bit, the atomic
 test-and-mark and the two treadmill updates of trace_object are separate steps.
 */
module LargeObjectRaces {
  import opened Sums
  import opened LargeObjects

  datatype Tracer =
    | Idle
    | Looked(o: nat, nursery: bool)   // has read the nursery bit
    | Won(o: nat, nursery: bool)      // has marked the object
    | Removed(o: nat)                 // has taken the object out of its set

  datatype Race = Race(space: Space, tracers: seq<Tracer>, enqueued: multiset<nat>)

  datatype Action = Look(target: nat) | Mark | Remove | Insert

  datatype Step = Step(w: nat, action: Action)

  predicate Enabled(r: Race, objects: set<nat>, step: Step) {
    step.w < |r.tracers| &&
    match step.action
    case Look(o) => r.tracers[step.w].Idle? && o in objects
    case Mark => r.tracers[step.w].Looked?
    case Remove => r.tracers[step.w].Won?
    case Insert => r.tracers[step.w].Removed?
  }

  function Put(r: Race, w: nat, x: Tracer): Race
    requires w < |r.tracers|
  {
    r.(tracers := r.tracers[w := x])
  }

  function Taken(s: Space, o: nat, nursery: bool): Space {
    if nursery then s.(collect := s.collect - {o}) else s.(from := s.from - {o})
  }

  function Apply(r: Race, objects: set<nat>, step: Step): Race
    requires Enabled(r, objects, step)
  {
    var w := step.w;
    match r.tracers[w]
    case Idle =>
      var o := step.action.target;
      if !r.space.inNurseryGc || InNursery(r.space, o) then Put(r, w, Looked(o, InNursery(r.space, o))) else r
    case Looked(o, nursery) =>
      if CanMark(r.space, o) then Put(r, w, Won(o, nursery)).(space := Marked(r.space, o)) else Put(r, w, Idle)
    case Won(o, nursery) => Put(r, w, Removed(o)).(space := Taken(r.space, o, nursery))
    case Removed(o) =>
      Put(r, w, Idle).(space := r.space.(to := r.space.to + {o}), enqueued := r.enqueued + multiset{o})
  }

  predicate IsRun(r: Race, objects: set<nat>, steps: seq<Step>)
    decreases |steps|
  {
    steps == [] || (Enabled(r, objects, steps[0]) && IsRun(Apply(r, objects, steps[0]), objects, steps[1..]))
  }

  function Run(r: Race, objects: set<nat>, steps: seq<Step>): Race
    requires IsRun(r, objects, steps)
    decreases |steps|
  {
    if steps == [] then r else Run(Apply(r, objects, steps[0]), objects, steps[1..])
  }

  // ---------- the invariant ----------

  predicate IsMarked(s: Space, o: nat) {
    Has(s, o, s.markState)
  }

  /** In which of the sets an object is. */
  function Where(s: Space, o: nat): (bool, bool, bool, bool) {
    (o in s.from, o in s.to, o in s.collect, o in s.alloc)
  }

  predicate Moves(x: Tracer, o: nat) {
    (x.Won? || x.Removed?) && x.o == o
  }

  ghost predicate Flying(r: Race, o: nat) {
    exists w :: 0 <= w < |r.tracers| && Moves(r.tracers[w], o)
  }

  /** An object is untouched, or it was caught by one worker, which moves it to the to-space. */
  ghost predicate ObjectOk(s0: Space, r: Race, o: nat) {
    if o !in Doomed(s0) || !IsMarked(r.space, o) then
      && BitsOf(r.space, o) == BitsOf(s0, o) && (o in r.space.bits <==> o in s0.bits)
      && Where(r.space, o) == Where(s0, o) && !Flying(r, o) && r.enqueued[o] == 0
    else
      && BitsOf(r.space, o) == MarkedBits(BitsOf(s0, o), s0.markState) && o in r.space.bits
      && (!Flying(r, o) ==> Where(r.space, o) == (false, true, false, false) && r.enqueued[o] == 1)
  }

  ghost predicate TracerOk(s0: Space, r: Race, x: Tracer) {
    match x
    case Idle => true
    case Looked(o, nursery) =>
      o in Objects(s0) && (r.space.inNurseryGc ==> nursery) && (!IsMarked(r.space, o) ==> nursery == InNursery(s0, o))
    case Won(o, nursery) =>
      o in Doomed(s0) && IsMarked(r.space, o) && nursery == InNursery(s0, o) && Where(r.space, o) == Where(s0, o)
      && r.enqueued[o] == 0
    case Removed(o) =>
      o in Doomed(s0) && IsMarked(r.space, o) && Where(r.space, o) == (false, false, false, false) && r.enqueued[o] == 0
  }

  predicate Clash(x: Tracer, y: Tracer) {
    (x.Won? || x.Removed?) && Moves(y, x.o)
  }

  predicate SameSettings(s: Space, t: Space) {
    s.markState == t.markState && s.inNurseryGc == t.inNurseryGc && s.released == t.released
  }

  ghost predicate Inv(s0: Space, fullHeap: bool, r: Race) {
    && Collecting(s0, fullHeap)
    && SameSettings(r.space, s0)
    && (forall o: nat {:trigger ObjectOk(s0, r, o)} :: ObjectOk(s0, r, o))
    && (forall w :: 0 <= w < |r.tracers| ==> TracerOk(s0, r, r.tracers[w]))
    && (forall v, w :: 0 <= v < w < |r.tracers| ==> !Clash(r.tracers[v], r.tracers[w]))
  }

  ghost predicate Start(s0: Space, fullHeap: bool, r: Race) {
    Collecting(s0, fullHeap) && r.space == s0 && r.enqueued == multiset{} && forall w :: 0 <= w < |r.tracers| ==>
      r.tracers[w].Idle?
  }

  /** What Collecting says about the bits of one object. */
  lemma BitsFacts(s0: Space, fullHeap: bool, o: nat)
    requires Collecting(s0, fullHeap)
    ensures o in Doomed(s0) ==> !IsMarked(s0, o) && CanMark(s0, o) && (InNursery(s0, o) <==> o in s0.collect)
    ensures o in Doomed(s0) ==>
      Where(s0, o) == if InNursery(s0, o) then (false, false, true, false) else (true, false, false, false)
    ensures o in Objects(s0) && o !in Doomed(s0) ==> o in s0.to && IsMarked(s0, o) && !InNursery(s0, o)
  {
  }

  lemma MarkedStops(s: Space, o: nat)
    requires IsMarked(s, o) && s.markState <= 1
    ensures !CanMark(s, o)
  {
  }

  lemma MarkMarks(s: Space, o: nat)
    requires s.markState <= 1
    ensures IsMarked(Marked(s, o), o)
    ensures forall p :: p != o ==> BitsOf(Marked(s, o), p) == BitsOf(s, p)
  {
  }

  lemma StartInv(s0: Space, fullHeap: bool, r: Race)
    requires Start(s0, fullHeap, r)
    ensures Inv(s0, fullHeap, r)
  {
    forall o: nat
      ensures ObjectOk(s0, r, o)
    {
      BitsFacts(s0, fullHeap, o);
    }
  }

  // ---------- one step ----------

  function TargetOf(r: Race, step: Step): nat
    requires step.w < |r.tracers|
  {
    match r.tracers[step.w]
    case Idle => if step.action.Look? then step.action.target else 0
    case Looked(o, _) => o
    case Won(o, _) => o
    case Removed(o) => o
  }

  /** A step touches one object and one tracer. */
  lemma Frame(r: Race, objects: set<nat>, step: Step, p: nat)
    requires Enabled(r, objects, step) && p != TargetOf(r, step)
    ensures var t := Apply(r, objects, step);
      && BitsOf(t.space, p) == BitsOf(r.space, p) && (p in t.space.bits <==> p in r.space.bits) &&
        Where(t.space, p) == Where(r.space, p)
      && t.enqueued[p] == r.enqueued[p]
      && (Moves(t.tracers[step.w], p) <==> Moves(r.tracers[step.w], p))
  {
  }

  lemma Shape(r: Race, objects: set<nat>, step: Step)
    requires Enabled(r, objects, step)
    ensures var t := Apply(r, objects, step);
      && |t.tracers| == |r.tracers| && t.tracers == r.tracers[step.w := t.tracers[step.w]]
      && SameSettings(t.space, r.space)
      && (!t.tracers[step.w].Idle? ==> t.tracers[step.w].o == TargetOf(r, step))
  {
  }

  lemma FlyingFrame(r: Race, t: Race, w: nat, p: nat)
    requires w < |r.tracers| && |t.tracers| == |r.tracers| && t.tracers == r.tracers[w := t.tracers[w]]
    requires Moves(t.tracers[w], p) <==> Moves(r.tracers[w], p)
    ensures Flying(t, p) <==> Flying(r, p)
  {
    if Flying(r, p) {
      var v :| 0 <= v < |r.tracers| && Moves(r.tracers[v], p);
      assert Moves(t.tracers[v], p);
    }
    if Flying(t, p) {
      var v :| 0 <= v < |t.tracers| && Moves(t.tracers[v], p);
      assert Moves(r.tracers[v], p);
    }
  }

  lemma OtherObjectOk(s0: Space, fullHeap: bool, r: Race, step: Step, p: nat)
    requires Inv(s0, fullHeap, r) && Enabled(r, Objects(s0), step) && p != TargetOf(r, step)
    ensures ObjectOk(s0, Apply(r, Objects(s0), step), p)
  {
    var t := Apply(r, Objects(s0), step);
    Frame(r, Objects(s0), step, p);
    Shape(r, Objects(s0), step);
    FlyingFrame(r, t, step.w, p);
    assert ObjectOk(s0, r, p);
    hide Apply, Flying, Inv, Where;
  }

  /** A worker that wins the race marks a candidate that nobody else touched, and its nursery read is right. */
  lemma WinnerIsRight(s0: Space, fullHeap: bool, r: Race, w: nat)
    requires Inv(s0, fullHeap, r) && w < |r.tracers| && r.tracers[w].Looked? && CanMark(r.space, r.tracers[w].o)
    ensures var o := r.tracers[w].o;
      && o in Doomed(s0) && !IsMarked(r.space, o) && !Flying(r, o) && r.enqueued[o] == 0
      && r.tracers[w].nursery == InNursery(s0, o) && Where(r.space, o) == Where(s0, o)
  {
    var o := r.tracers[w].o;
    assert TracerOk(s0, r, r.tracers[w]) && ObjectOk(s0, r, o);
    BitsFacts(s0, fullHeap, o);
    if IsMarked(r.space, o) {
      MarkedStops(r.space, o);
    }
    hide Inv, CanMark, Flying;
  }

  lemma TargetOk(s0: Space, fullHeap: bool, r: Race, step: Step)
    requires Inv(s0, fullHeap, r) && Enabled(r, Objects(s0), step)
    ensures ObjectOk(s0, Apply(r, Objects(s0), step), TargetOf(r, step))
    ensures TracerOk(s0, Apply(r, Objects(s0), step), Apply(r, Objects(s0), step).tracers[step.w])
  {
    var o, w, t := TargetOf(r, step), step.w, Apply(r, Objects(s0), step);
    assert ObjectOk(s0, r, o) && TracerOk(s0, r, r.tracers[w]);
    BitsFacts(s0, fullHeap, o);
    match r.tracers[w]
    case Idle =>
      Shape(r, Objects(s0), step);
      FlyingFrame(r, t, w, o);
      hide Inv;
    case Looked(_, nursery) =>
      MarkOk(s0, fullHeap, r, step);
    case Won(_, nursery) =>
      assert Moves(t.tracers[w], o);
      hide Inv;
    case Removed(_) =>
      NobodyElse(s0, fullHeap, r, w);
      LandsAlone(r, t, w, o);
      hide Inv;
  }

  lemma MarkOk(s0: Space, fullHeap: bool, r: Race, step: Step)
    requires Inv(s0, fullHeap, r) && Enabled(r, Objects(s0), step) && r.tracers[step.w].Looked?
    ensures ObjectOk(s0, Apply(r, Objects(s0), step), TargetOf(r, step))
    ensures TracerOk(s0, Apply(r, Objects(s0), step), Apply(r, Objects(s0), step).tracers[step.w])
  {
    var o, w, t := TargetOf(r, step), step.w, Apply(r, Objects(s0), step);
    assert ObjectOk(s0, r, o) && TracerOk(s0, r, r.tracers[w]);
    if CanMark(r.space, o) {
      WinnerIsRight(s0, fullHeap, r, w);
      MarkMarks(r.space, o);
      assert Moves(t.tracers[w], o);
    } else {
      FlyingFrame(r, t, w, o);
    }
    hide Inv;
  }

  /** Only one worker moves an object. */
  lemma NobodyElse(s0: Space, fullHeap: bool, r: Race, w: nat)
    requires Inv(s0, fullHeap, r) && w < |r.tracers| && (r.tracers[w].Won? || r.tracers[w].Removed?)
    ensures forall v :: 0 <= v < |r.tracers| && v != w ==> !Moves(r.tracers[v], r.tracers[w].o)
  {
    forall v | 0 <= v < |r.tracers| && v != w
      ensures !Moves(r.tracers[v], r.tracers[w].o)
    {
      assert v < w ==> !Clash(r.tracers[v], r.tracers[w]);
      assert w < v ==> !Clash(r.tracers[w], r.tracers[v]);
    }
  }

  lemma LandsAlone(r: Race, t: Race, w: nat, o: nat)
    requires w < |r.tracers| && |t.tracers| == |r.tracers| && t.tracers == r.tracers[w := Idle]
    requires forall v :: 0 <= v < |r.tracers| && v != w ==> !Moves(r.tracers[v], o)
    ensures !Flying(t, o)
  {
  }

  lemma OtherTracerOk(s0: Space, fullHeap: bool, r: Race, step: Step, v: nat)
    requires Inv(s0, fullHeap, r) && Enabled(r, Objects(s0), step) && v < |r.tracers| && v != step.w
    ensures TracerOk(s0, Apply(r, Objects(s0), step), r.tracers[v])
  {
    var t, x := Apply(r, Objects(s0), step), r.tracers[v];
    Shape(r, Objects(s0), step);
    assert TracerOk(s0, r, x);
    if !x.Idle? {
      if x.o != TargetOf(r, step) {
        Frame(r, Objects(s0), step, x.o);
      } else {
        assert ObjectOk(s0, r, x.o);
        SameTarget(s0, fullHeap, r, step, v);
      }
    }
  }

  /** Two workers with the same object: only one of them moves it. */
  lemma SameTarget(s0: Space, fullHeap: bool, r: Race, step: Step, v: nat)
    requires Inv(s0, fullHeap, r) && Enabled(r, Objects(s0), step) && v < |r.tracers| && v != step.w
    requires !r.tracers[v].Idle? && r.tracers[v].o == TargetOf(r, step)
    ensures TracerOk(s0, Apply(r, Objects(s0), step), r.tracers[v])
  {
    var t, x, y := Apply(r, Objects(s0), step), r.tracers[v], r.tracers[step.w];
    assert TracerOk(s0, r, x) && TracerOk(s0, r, y);
    if x.Won? || x.Removed? {
      NobodyElse(s0, fullHeap, r, v);
      assert ObjectOk(s0, r, x.o) && Moves(x, x.o);
      MarkedStops(r.space, x.o);
    } else {
      if y.Looked? && CanMark(r.space, x.o) {
        MarkMarks(r.space, x.o);
      }
    }
  }

  lemma StepKeepsClash(s0: Space, fullHeap: bool, r: Race, step: Step, v: nat, w: nat)
    requires Inv(s0, fullHeap, r) && Enabled(r, Objects(s0), step) && v < w < |r.tracers|
    ensures !Clash(Apply(r, Objects(s0), step).tracers[v], Apply(r, Objects(s0), step).tracers[w])
  {
    var t := Apply(r, Objects(s0), step);
    assert !Clash(r.tracers[v], r.tracers[w]);
    Shape(r, Objects(s0), step);
    var y := r.tracers[step.w];
    if y.Looked? && CanMark(r.space, y.o) {
      WinnerIsRight(s0, fullHeap, r, step.w);
      assert !Moves(r.tracers[v], y.o) && !Moves(r.tracers[w], y.o);
    }
    hide Inv;
  }

  lemma StepKeeps(s0: Space, fullHeap: bool, r: Race, step: Step)
    requires Inv(s0, fullHeap, r) && Enabled(r, Objects(s0), step)
    ensures Inv(s0, fullHeap, Apply(r, Objects(s0), step))
  {
    var t := Apply(r, Objects(s0), step);
    Shape(r, Objects(s0), step);
    hide Apply, Enabled, ObjectOk, TracerOk, Clash, Objects;
    TargetOk(s0, fullHeap, r, step);
    forall o: nat
      ensures ObjectOk(s0, t, o)
    {
      if o != TargetOf(r, step) {
        OtherObjectOk(s0, fullHeap, r, step, o);
      }
    }
    forall v | 0 <= v < |t.tracers|
      ensures TracerOk(s0, t, t.tracers[v])
    {
      if v != step.w {
        OtherTracerOk(s0, fullHeap, r, step, v);
      }
    }
    forall v, w | 0 <= v < w < |t.tracers|
      ensures !Clash(t.tracers[v], t.tracers[w])
    {
      StepKeepsClash(s0, fullHeap, r, step, v, w);
    }
  }

  lemma {:induction false} RunKeeps(s0: Space, fullHeap: bool, r: Race, steps: seq<Step>)
    requires Inv(s0, fullHeap, r) && IsRun(r, Objects(s0), steps)
    ensures Inv(s0, fullHeap, Run(r, Objects(s0), steps))
    decreases |steps|
  {
    hide Inv, Objects;
    if steps != [] {
      StepKeeps(s0, fullHeap, r, steps[0]);
      RunKeeps(s0, fullHeap, Apply(r, Objects(s0), steps[0]), steps[1..]);
    }
  }

  // ---------- every object that is looked at ----------

  /** The objects that trace_object was called for, in order. */
  function LookedAt(steps: seq<Step>): seq<nat> {
    if steps == [] then []
    else if steps[0].action.Look? then [steps[0].action.target] + LookedAt(steps[1..])
    else LookedAt(steps[1..])
  }

  /** The object is marked, or a worker is about to try. */
  ghost predicate Caught(r: Race, o: nat) {
    IsMarked(r.space, o) || exists w :: 0 <= w < |r.tracers| && r.tracers[w].Looked? && r.tracers[w].o == o
  }

  lemma UnmarkedIsOld(s0: Space, fullHeap: bool, r: Race, o: nat)
    requires Inv(s0, fullHeap, r) && o in Doomed(s0) && !IsMarked(r.space, o)
    ensures CanMark(r.space, o) && (!r.space.inNurseryGc || InNursery(r.space, o))
  {
    assert ObjectOk(s0, r, o);
    BitsFacts(s0, fullHeap, o);
  }

  lemma MarkedStays(r: Race, objects: set<nat>, step: Step, o: nat)
    requires Enabled(r, objects, step) && IsMarked(r.space, o) && r.space.markState <= 1
    ensures IsMarked(Apply(r, objects, step).space, o)
  {
    var x := r.tracers[step.w];
    assert Apply(r, objects, step).space.bits ==
      if x.Looked? && CanMark(r.space, x.o) then Marked(r.space, x.o).bits else r.space.bits;
    hide Apply, Enabled, Marked, CanMark;
    if x.Looked? {
      MarkMarks(r.space, x.o);
    }
  }

  lemma CaughtStays(s0: Space, fullHeap: bool, r: Race, step: Step, o: nat)
    requires Inv(s0, fullHeap, r) && Enabled(r, Objects(s0), step) && o in Doomed(s0) && Caught(r, o)
    ensures Caught(Apply(r, Objects(s0), step), o)
  {
    var t := Apply(r, Objects(s0), step);
    if IsMarked(r.space, o) {
      MarkedStays(r, Objects(s0), step, o);
    } else {
      UnmarkedIsOld(s0, fullHeap, r, o);
      var w :| 0 <= w < |r.tracers| && r.tracers[w].Looked? && r.tracers[w].o == o;
      if w == step.w {
        MarkMarks(r.space, o);
      } else {
        Shape(r, Objects(s0), step);
        assert t.tracers[w] == r.tracers[w];
      }
    }
  }

  lemma LookCatches(s0: Space, fullHeap: bool, r: Race, step: Step)
    requires Inv(s0, fullHeap, r) && Enabled(r, Objects(s0), step) && step.action.Look?
    requires step.action.target in Doomed(s0)
    ensures Caught(Apply(r, Objects(s0), step), step.action.target)
  {
    var o, t := step.action.target, Apply(r, Objects(s0), step);
    if IsMarked(r.space, o) {
      MarkedStays(r, Objects(s0), step, o);
    } else {
      UnmarkedIsOld(s0, fullHeap, r, o);
      assert t.tracers[step.w].Looked? && t.tracers[step.w].o == o;
    }
  }

  lemma {:induction false} RunCatches(s0: Space, fullHeap: bool, r: Race, steps: seq<Step>, o: nat)
    requires Inv(s0, fullHeap, r) && IsRun(r, Objects(s0), steps) && o in Doomed(s0)
    requires Caught(r, o) || o in LookedAt(steps)
    ensures Caught(Run(r, Objects(s0), steps), o)
    decreases |steps|
  {
    hide Inv, Objects, Doomed, Caught, Enabled, Apply;
    if steps != [] {
      var t := Apply(r, Objects(s0), steps[0]);
      if Caught(r, o) {
        CaughtStays(s0, fullHeap, r, steps[0], o);
      } else if steps[0].action == Look(o) {
        LookCatches(s0, fullHeap, r, steps[0]);
      }
      StepKeeps(s0, fullHeap, r, steps[0]);
      RunCatches(s0, fullHeap, t, steps[1..], o);
    }
  }

  /** Nobody has an object that it was not called for. */
  ghost predicate Called(r: Race, seen: set<nat>) {
    && (forall w :: 0 <= w < |r.tracers| && !r.tracers[w].Idle? ==> r.tracers[w].o in seen)
    && (forall o :: o in r.enqueued ==> o in seen)
  }

  lemma {:induction false} RunCalls(r: Race, objects: set<nat>, steps: seq<Step>, seen: set<nat>)
    requires IsRun(r, objects, steps) && Called(r, seen)
    ensures Called(Run(r, objects, steps), seen + SetOf(LookedAt(steps))) && SetOf(LookedAt(steps)) <= objects
    decreases |steps|
  {
    if steps == [] {
      assert seen + SetOf([]) == seen;
    } else {
      var t := Apply(r, objects, steps[0]);
      var more := if steps[0].action.Look? then seen + {steps[0].action.target} else seen;
      StepCalls(r, objects, steps[0], seen, more);
      hide Apply, Enabled, Called;
      RunCalls(t, objects, steps[1..], more);
      assert seen + SetOf(LookedAt(steps)) == more + SetOf(LookedAt(steps[1..]));
    }
  }

  lemma StepCalls(r: Race, objects: set<nat>, step: Step, seen: set<nat>, more: set<nat>)
    requires Enabled(r, objects, step) && Called(r, seen)
    requires more == if step.action.Look? then seen + {step.action.target} else seen
    ensures Called(Apply(r, objects, step), more)
    ensures step.action.Look? ==> step.action.target in objects
  {
  }

  // ---------- the theorem ----------

  predicate AllIdle(r: Race) {
    forall w :: 0 <= w < |r.tracers| ==> r.tracers[w].Idle?
  }

  lemma DoneObject(s0: Space, fullHeap: bool, t: Race, o: nat, seen: set<nat>)
    requires Inv(s0, fullHeap, t) && AllIdle(t) && Called(t, seen) && (o in Doomed(s0) && o in seen ==> Caught(t, o))
    ensures ObjectTraced(s0, t.space, seen, o) && t.enqueued[o] == if o in Doomed(s0) && o in seen then 1 else 0
  {
    assert ObjectOk(s0, t, o) && !Flying(t, o);
    BitsFacts(s0, fullHeap, o);
  }

  lemma WhenDone(s0: Space, fullHeap: bool, t: Race, seen: set<nat>)
    requires Inv(s0, fullHeap, t) && AllIdle(t) && Called(t, seen)
    requires forall o :: o in Doomed(s0) && o in seen ==> Caught(t, o)
    ensures t.space == TracedSet(s0, seen) && t.enqueued == multiset(Doomed(s0) * seen)
  {
    forall o: nat
      ensures ObjectTraced(s0, t.space, seen, o) && t.enqueued[o] == multiset(Doomed(s0) * seen)[o]
    {
      DoneObject(s0, fullHeap, t, o, seen);
    }
    TracedSetIs(s0, t.space, seen);
  }

  /**
   However the workers race, when all of them are done the space is what tracing the objects one after the other
   would have made of it, and the objects of the collected sets that were traced are enqueued, once each.
   */
  lemma RaceIsATrace(s0: Space, fullHeap: bool, r: Race, steps: seq<Step>)
    requires Start(s0, fullHeap, r) && IsRun(r, Objects(s0), steps)
    requires AllIdle(Run(r, Objects(s0), steps))
    ensures var t := Run(r, Objects(s0), steps);
      && t.space == TracedAll(s0, LookedAt(steps))
      && t.enqueued == multiset(Doomed(s0) * SetOf(LookedAt(steps)))
  {
    var t, seen := Run(r, Objects(s0), steps), SetOf(LookedAt(steps));
    StartInv(s0, fullHeap, r);
    RunKeeps(s0, fullHeap, r, steps);
    RunCalls(r, Objects(s0), steps, {});
    assert {} + seen == seen;
    hide IsRun, Run, Inv, Start, Called, Caught;
    forall o | o in Doomed(s0) && o in seen
      ensures Caught(t, o)
    {
      RunCatches(s0, fullHeap, r, steps, o);
    }
    WhenDone(s0, fullHeap, t, seen);
    TracedAllIsSet(s0, LookedAt(steps), fullHeap);
  }

  /**
   A whole collection with racing workers: exactly the candidates that no worker traced are released, once each,
   and the space is ready for the next collection.
   */
  lemma RacingCollection(s: Space, fullHeap: bool, r: Race, steps: seq<Step>)
    requires Resting(s) && r.space == Prepared(s, fullHeap) && r.enqueued == multiset{} && AllIdle(r)
    requires IsRun(r, Objects(r.space), steps) && AllIdle(Run(r, Objects(r.space), steps))
    ensures var candidates := if fullHeap then s.alloc + s.to else s.alloc;
      var t := Released(Run(r, Objects(r.space), steps).space, fullHeap);
      && t.released == s.released + multiset(candidates - SetOf(LookedAt(steps)))
      && t.to == Objects(s) - (candidates - SetOf(LookedAt(steps))) && t.alloc == {}
      && Resting(t)
  {
    PreparedKeeps(s, fullHeap);
    RaceIsATrace(r.space, fullHeap, r, steps);
    RunCalls(r, Objects(r.space), steps, {});
    hide IsRun, Run, LookedAt, Resting, TracedAll;
    CollectionReleasesUntraced(s, fullHeap, LookedAt(steps));
  }

  /** No live object is released: a traced candidate is in the to-space when all workers are done. */
  lemma TracedSurvives(s0: Space, fullHeap: bool, r: Race, steps: seq<Step>, i: nat)
    requires Start(s0, fullHeap, r) && IsRun(r, Objects(s0), steps)
    requires AllIdle(Run(r, Objects(s0), steps)) && i < |steps| && steps[i].action.Look?
    ensures var t, o := Run(r, Objects(s0), steps), steps[i].action.target;
      o in t.space.to && o !in Doomed(t.space) && (o in Doomed(s0) ==> t.enqueued[o] == 1)
  {
    var o := steps[i].action.target;
    RaceIsATrace(s0, fullHeap, r, steps);
    RunCalls(r, Objects(s0), steps, {});
    LookIsSeen(steps, i);
    hide IsRun, Run, LookedAt, TracedAll, TracedSet, Collecting;
    TracedAllIsSet(s0, LookedAt(steps), fullHeap);
    SeenSurvives(s0, fullHeap, SetOf(LookedAt(steps)), o);
  }

  lemma SeenSurvives(s: Space, fullHeap: bool, seen: set<nat>, o: nat)
    requires Collecting(s, fullHeap) && o in seen && o in Objects(s)
    ensures o in TracedSet(s, seen).to && o !in Doomed(TracedSet(s, seen))
    ensures o in Doomed(s) ==> multiset(Doomed(s) * seen)[o] == 1
  {
  }

  lemma {:induction false} LookIsSeen(steps: seq<Step>, i: nat)
    requires i < |steps| && steps[i].action.Look?
    ensures steps[i].action.target in LookedAt(steps)
    decreases |steps|
  {
    if i > 0 {
      LookIsSeen(steps[1..], i - 1);
    }
  }

  // ---------- every trace returns ----------

  function Effort(x: Tracer): nat {
    match x
    case Idle => 0
    case Looked(_, _) => 3
    case Won(_, _) => 2
    case Removed(_) => 1
  }

  function NextAction(x: Tracer): Action
    requires !x.Idle?
  {
    match x
    case Looked(_, _) => Mark
    case Won(_, _) => Remove
    case Removed(_) => Insert
  }

  function Efforts(r: Race): seq<nat> {
    seq(|r.tracers|, w requires 0 <= w < |r.tracers| => Effort(r.tracers[w]))
  }

  /** A worker inside trace_object can always go on, and every step but a call brings its worker closer to returning. */
  lemma StepLowers(r: Race, objects: set<nat>, step: Step)
    requires Enabled(r, objects, step) && !step.action.Look?
    ensures Sum(Efforts(Apply(r, objects, step))) < Sum(Efforts(r))
  {
    Shape(r, objects, step);
    var t := Apply(r, objects, step);
    assert Effort(t.tracers[step.w]) < Effort(r.tracers[step.w]);
    SumLess(Efforts(t), Efforts(r), step.w);
  }

  /** From every state the workers can all return, without a further call. */
  lemma {:induction false} RaceCanEnd(r: Race, objects: set<nat>) returns (steps: seq<Step>)
    ensures IsRun(r, objects, steps) && AllIdle(Run(r, objects, steps)) && LookedAt(steps) == []
    decreases Sum(Efforts(r))
  {
    if w :| 0 <= w < |r.tracers| && !r.tracers[w].Idle? {
      var step := Step(w, NextAction(r.tracers[w]));
      StepLowers(r, objects, step);
      hide Apply;
      var rest := RaceCanEnd(Apply(r, objects, step), objects);
      steps := [step] + rest;
      assert steps[0] == step && steps[1..] == rest;
    } else {
      steps := [];
    }
  }
}
