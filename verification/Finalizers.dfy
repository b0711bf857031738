/** The table of finalizable objects (src/util/finalizable_processor.rs). */
module Finalizers {
  import opened Wrappers

  /** A registration: the object, and the finalizer it was registered with. */
  datatype Finalizable = Finalizable(reference: nat, finalizer: nat)

  type Finalizables = seq<Finalizable>

  /** What the collection knows when it scans the table: which objects are live, and where objects move. */
  datatype World = World(live: set<nat>, forward: map<nat, nat>)

  function KeptAlive(w: World, f: Finalizable): Finalizable {
    if f.reference in w.forward then f.(reference := w.forward[f.reference]) else f
  }

  predicate IsLive(w: World, f: Finalizable) {
    f.reference in w.live
  }

  datatype Tables = Tables(candidates: Finalizables, nurseryIndex: nat, ready: Finalizables)

  /** The live ones of a list, kept alive. */
  function Survivors(w: World, fs: Finalizables): (r: Finalizables)
    decreases |fs|
  {
    if fs == [] then []
    else Survivors(w, fs[..|fs| - 1]) + if IsLive(w, fs[|fs| - 1]) then [KeptAlive(w, fs[|fs| - 1])] else []
  }

  /** The dead ones of a list. */
  function Dead(w: World, fs: Finalizables): (r: Finalizables)
    decreases |fs|
  {
    if fs == [] then []
    else Dead(w, fs[..|fs| - 1]) + if IsLive(w, fs[|fs| - 1]) then [] else [fs[|fs| - 1]]
  }

  function AllKeptAlive(w: World, fs: Finalizables): (r: Finalizables)
    ensures |r| == |fs| && forall i :: 0 <= i < |fs| ==> r[i] == KeptAlive(w, fs[i])
  {
    seq(|fs|, i requires 0 <= i < |fs| => KeptAlive(w, fs[i]))
  }

  function StartOf(t: Tables, nursery: bool): nat {
    if nursery then t.nurseryIndex else 0
  }

  /** scan. */
  function Scanned(t: Tables, w: World, nursery: bool): Tables
    requires t.nurseryIndex <= |t.candidates|
  {
    var start := StartOf(t, nursery);
    var all := t.candidates + t.ready;
    var candidates := all[..start] + Survivors(w, all[start..]);
    Tables(candidates, |candidates|, AllKeptAlive(w, Dead(w, all[start..])))
  }

  /** The entries for an object, in order, and the others. */
  function EntriesOf(fs: Finalizables, o: nat): Finalizables
    decreases |fs|
  {
    if fs == [] then []
    else EntriesOf(fs[..|fs| - 1], o) + if fs[|fs| - 1].reference == o then [fs[|fs| - 1]] else []
  }

  function OthersThan(fs: Finalizables, o: nat): Finalizables
    decreases |fs|
  {
    if fs == [] then []
    else OthersThan(fs[..|fs| - 1], o) + if fs[|fs| - 1].reference == o then [] else [fs[|fs| - 1]]
  }

  // ---------- what becomes of each entry ----------

  /** The indices `which`, in order. */
  ghost predicate InOrder(index: seq<nat>, which: set<nat>) {
    && (forall i, j :: 0 <= i < j < |index| ==> index[i] < index[j])
    && (forall i :: i in which <==> i in index)
  }

  /** The entry stands for the same registration, and refers to where its object is now. */
  predicate Follows(w: World, f: Finalizable, g: Finalizable) {
    && g.finalizer == f.finalizer
    && g.reference == if f.reference in w.forward then w.forward[f.reference] else f.reference
  }

  /** `r` holds what follows the entries of `fs` at the indices `which`, in order, and nothing else. */
  ghost predicate Following(w: World, fs: Finalizables, which: set<nat>, r: Finalizables) {
    exists index :: InOrder(index, which) && FollowingAt(w, fs, index, r)
  }

  ghost predicate FollowingAt(w: World, fs: Finalizables, index: seq<nat>, r: Finalizables) {
    |r| == |index| && forall j :: 0 <= j < |r| ==> index[j] < |fs| && Follows(w, fs[index[j]], r[j])
  }

  /** `r` holds the entries of `fs` at the indices `which`, in order, and nothing else. */
  ghost predicate Taken(fs: Finalizables, which: set<nat>, r: Finalizables) {
    exists index :: InOrder(index, which) && TakenAt(fs, index, r)
  }

  ghost predicate TakenAt(fs: Finalizables, index: seq<nat>, r: Finalizables) {
    |r| == |index| && forall j :: 0 <= j < |r| ==> index[j] < |fs| && r[j] == fs[index[j]]
  }

  ghost function LiveAt(w: World, fs: Finalizables, live: bool): set<nat> {
    set i: nat | i < |fs| && (fs[i].reference in w.live) == live
  }

  ghost function EntriesAt(fs: Finalizables, o: nat, of: bool): set<nat> {
    set i: nat | i < |fs| && (fs[i].reference == o) == of
  }

  lemma OneMore(index: seq<nat>, which: set<nat>, n: nat)
    requires InOrder(index, which) && forall i :: i in which ==> i < n
    ensures InOrder(index + [n], which + {n})
  {
    var more := index + [n];
    forall i, j | 0 <= i < j < |more|
      ensures more[i] < more[j]
    {
      assert index[i] in index;
    }
  }

  lemma {:induction false} SurvivorsAre(w: World, fs: Finalizables) returns (index: seq<nat>)
    ensures InOrder(index, LiveAt(w, fs, true)) && FollowingAt(w, fs, index, Survivors(w, fs))
    decreases |fs|
  {
    index := [];
    if fs != [] {
      var n := |fs| - 1;
      index := SurvivorsAre(w, fs[..n]);
      if fs[n].reference in w.live {
        OneMore(index, LiveAt(w, fs[..n], true), n);
        assert LiveAt(w, fs, true) == LiveAt(w, fs[..n], true) + {n};
        index := index + [n];
      } else {
        assert LiveAt(w, fs, true) == LiveAt(w, fs[..n], true);
      }
    }
  }

  lemma {:induction false} DeadAre(w: World, fs: Finalizables) returns (index: seq<nat>)
    ensures InOrder(index, LiveAt(w, fs, false)) && TakenAt(fs, index, Dead(w, fs))
    decreases |fs|
  {
    index := [];
    if fs != [] {
      var n := |fs| - 1;
      index := DeadAre(w, fs[..n]);
      if fs[n].reference in w.live {
        assert LiveAt(w, fs, false) == LiveAt(w, fs[..n], false);
      } else {
        OneMore(index, LiveAt(w, fs[..n], false), n);
        assert LiveAt(w, fs, false) == LiveAt(w, fs[..n], false) + {n};
        index := index + [n];
      }
    }
  }

  lemma {:induction false} EntriesAre(fs: Finalizables, o: nat) returns (index: seq<nat>)
    ensures InOrder(index, EntriesAt(fs, o, true)) && TakenAt(fs, index, EntriesOf(fs, o))
    decreases |fs|
  {
    index := [];
    if fs != [] {
      var n := |fs| - 1;
      index := EntriesAre(fs[..n], o);
      if fs[n].reference == o {
        OneMore(index, EntriesAt(fs[..n], o, true), n);
        assert EntriesAt(fs, o, true) == EntriesAt(fs[..n], o, true) + {n};
        index := index + [n];
      } else {
        assert EntriesAt(fs, o, true) == EntriesAt(fs[..n], o, true);
      }
    }
  }

  lemma {:induction false} OthersAre(fs: Finalizables, o: nat) returns (index: seq<nat>)
    ensures InOrder(index, EntriesAt(fs, o, false)) && TakenAt(fs, index, OthersThan(fs, o))
    decreases |fs|
  {
    index := [];
    if fs != [] {
      var n := |fs| - 1;
      index := OthersAre(fs[..n], o);
      if fs[n].reference == o {
        assert EntriesAt(fs, o, false) == EntriesAt(fs[..n], o, false);
      } else {
        OneMore(index, EntriesAt(fs[..n], o, false), n);
        assert EntriesAt(fs, o, false) == EntriesAt(fs[..n], o, false) + {n};
        index := index + [n];
      }
    }
  }

  /**
   What a scan does, entry by entry: those before the start index are untouched; behind it, the entries of live
   objects are candidates and all others are ready, in order, with references to where the objects are now.
   */
  ghost predicate ScanDone(t: Tables, w: World, start: nat, r: Tables) {
    var all := t.candidates + t.ready;
    && start <= |t.candidates| && start <= |r.candidates| == r.nurseryIndex
    && r.candidates[..start] == t.candidates[..start]
    && Following(w, all[start..], LiveAt(w, all[start..], true), r.candidates[start..])
    && Following(w, all[start..], LiveAt(w, all[start..], false), r.ready)
  }

  lemma ScanMeaning(t: Tables, w: World, nursery: bool)
    requires t.nurseryIndex <= |t.candidates|
    ensures ScanDone(t, w, if nursery then t.nurseryIndex else 0, Scanned(t, w, nursery))
  {
    var start, all, r := StartOf(t, nursery), t.candidates + t.ready, Scanned(t, w, nursery);
    var live := SurvivorsAre(w, all[start..]);
    var dead := DeadAre(w, all[start..]);
    assert r.candidates[start..] == Survivors(w, all[start..]);
    assert FollowingAt(w, all[start..], dead, r.ready);
  }

  // ---------- conservation ----------

  /** How many registrations of finalizer `x` a list holds. */
  function Count(fs: Finalizables, x: nat): nat
    decreases |fs|
  {
    if fs == [] then 0 else Count(fs[..|fs| - 1], x) + if fs[|fs| - 1].finalizer == x then 1 else 0
  }

  lemma {:induction false} CountPlus(a: Finalizables, b: Finalizables, x: nat)
    ensures Count(a + b, x) == Count(a, x) + Count(b, x)
    decreases |b|
  {
    if b == [] {
      assert a + b == a;
    } else {
      var last := |b| - 1;
      assert (a + b)[..|a + b| - 1] == a + b[..last];
      CountPlus(a, b[..last], x);
    }
  }

  lemma {:induction false} SplitConserves(w: World, fs: Finalizables, x: nat)
    ensures Count(fs, x) == Count(Survivors(w, fs), x) + Count(Dead(w, fs), x)
    decreases |fs|
  {
    if fs != [] {
      var front, f := fs[..|fs| - 1], fs[|fs| - 1];
      SplitConserves(w, front, x);
      CountPlus(Survivors(w, front), if IsLive(w, f) then [KeptAlive(w, f)] else [], x);
      CountPlus(Dead(w, front), if IsLive(w, f) then [] else [f], x);
    }
  }

  lemma {:induction false} KeepingConserves(w: World, fs: Finalizables, x: nat)
    ensures Count(AllKeptAlive(w, fs), x) == Count(fs, x)
    decreases |fs|
  {
    if fs != [] {
      KeepingConserves(w, fs[..|fs| - 1], x);
      assert AllKeptAlive(w, fs)[..|fs| - 1] == AllKeptAlive(w, fs[..|fs| - 1]);
    }
  }

  /** A scan neither loses nor duplicates a registration. */
  lemma ScanConserves(t: Tables, w: World, nursery: bool, x: nat)
    requires t.nurseryIndex <= |t.candidates|
    ensures var r := Scanned(t, w, nursery);
      Count(r.candidates, x) + Count(r.ready, x) == Count(t.candidates, x) + Count(t.ready, x)
  {
    var start := StartOf(t, nursery);
    var all := t.candidates + t.ready;
    assert all == all[..start] + all[start..];
    CountPlus(t.candidates, t.ready, x);
    CountPlus(all[..start], all[start..], x);
    CountPlus(all[..start], Survivors(w, all[start..]), x);
    SplitConserves(w, all[start..], x);
    KeepingConserves(w, Dead(w, all[start..]), x);
  }

  lemma {:induction false} DrainConserves(fs: Finalizables, o: nat, x: nat)
    ensures Count(fs, x) == Count(EntriesOf(fs, o), x) + Count(OthersThan(fs, o), x)
    decreases |fs|
  {
    if fs != [] {
      var front, f := fs[..|fs| - 1], fs[|fs| - 1];
      DrainConserves(front, o, x);
      CountPlus(EntriesOf(front, o), if f.reference == o then [f] else [], x);
      CountPlus(OthersThan(front, o), if f.reference == o then [] else [f], x);
    }
  }

  /** Exactly the entries for the object are taken out. */
  lemma {:induction false} DrainSeparates(fs: Finalizables, o: nat)
    ensures forall f :: f in EntriesOf(fs, o) <==> f in fs && f.reference == o
    ensures forall f :: f in OthersThan(fs, o) <==> f in fs && f.reference != o
    decreases |fs|
  {
    if fs != [] {
      var front, f := fs[..|fs| - 1], fs[|fs| - 1];
      DrainSeparates(front, o);
      assert fs == front + [f];
    }
  }

  // ---------- nursery scans ----------

  lemma {:induction false} SurvivorsPlus(w: World, a: Finalizables, b: Finalizables)
    ensures Survivors(w, a + b) == Survivors(w, a) + Survivors(w, b)
    ensures Dead(w, a + b) == Dead(w, a) + Dead(w, b)
    decreases |b|
  {
    if b == [] {
      assert a + b == a;
    } else {
      var last := |b| - 1;
      assert (a + b)[..|a + b| - 1] == a + b[..last];
      SurvivorsPlus(w, a, b[..last]);
    }
  }

  predicate LiveAndUnmoved(w: World, f: Finalizable) {
    IsLive(w, f) && KeptAlive(w, f) == f
  }

  /** Exactly the lists of live and unmoved objects survive as they are. */
  lemma {:induction false} SurviveUnchanged(w: World, fs: Finalizables)
    ensures |Survivors(w, fs)| <= |fs|
    ensures Survivors(w, fs) == fs <==> forall i :: 0 <= i < |fs| ==> LiveAndUnmoved(w, fs[i])
    ensures |Survivors(w, fs)| == |fs| ==> Dead(w, fs) == []
    decreases |fs|
  {
    if fs != [] {
      var front, f := fs[..|fs| - 1], fs[|fs| - 1];
      assert fs == front + [f];
      SurviveUnchanged(w, front);
      if Survivors(w, fs) == fs {
        assert |Survivors(w, front)| == |front| && IsLive(w, f);
        assert Survivors(w, fs)[..|front|] == Survivors(w, front) == front;
      }
    }
  }

  /** The tables after the two kinds of scan, with the earlier candidates apart. */
  lemma ScansCompared(t: Tables, w: World, early: Finalizables, late: Finalizables)
    requires t.nurseryIndex <= |t.candidates|
    requires early == t.candidates[..t.nurseryIndex] && late == t.candidates[t.nurseryIndex..] + t.ready
    ensures Scanned(t, w, false).candidates == Survivors(w, early) + Survivors(w, late)
    ensures Scanned(t, w, true).candidates == early + Survivors(w, late)
    ensures Scanned(t, w, false).ready == AllKeptAlive(w, Dead(w, early) + Dead(w, late))
    ensures Scanned(t, w, true).ready == AllKeptAlive(w, Dead(w, late))
  {
    var all := t.candidates + t.ready;
    assert all[0..] == all == early + late && all[..0] == [];
    assert all[..t.nurseryIndex] == early && all[t.nurseryIndex..] == late;
    SurvivorsPlus(w, early, late);
    hide Survivors, Dead, AllKeptAlive;
  }

  /** A nursery scan does what a full scan does exactly if all earlier candidates are live and unmoved. */
  lemma NurseryScanIsFullScan(t: Tables, w: World)
    requires t.nurseryIndex <= |t.candidates|
    ensures Scanned(t, w, true) == Scanned(t, w, false) <==>
            forall i :: 0 <= i < t.nurseryIndex ==> LiveAndUnmoved(w, t.candidates[i])
  {
    var early, late := t.candidates[..t.nurseryIndex], t.candidates[t.nurseryIndex..] + t.ready;
    ScansCompared(t, w, early, late);
    SurviveUnchanged(w, early);
    assert forall i :: 0 <= i < |early| ==> early[i] == t.candidates[i];
    hide Survivors, Dead, LiveAndUnmoved, AllKeptAlive;
    if Scanned(t, w, true) == Scanned(t, w, false) {
      SamePrefix(Survivors(w, early), early, Survivors(w, late));
    }
    if Survivors(w, early) == early {
      assert [] + Dead(w, late) == Dead(w, late);
    }
  }

  lemma SamePrefix(a: Finalizables, b: Finalizables, c: Finalizables)
    requires a + c == b + c
    ensures a == b
  {
    assert |a| == |b|;
    assert a == (a + c)[..|a|] && b == (b + c)[..|b|];
  }

  // ---------- any sequence of operations ----------

  datatype Op =
    | Add(f: Finalizable)
    | Scan(world: World, nursery: bool)
    | Forward(world: World)
    | GetReady
    | GetAll
    | GetFor(o: nat)

  /** `added` and `handed` list the registrations that came in and that were given to the binding. */
  datatype State = State(tables: Tables, added: Finalizables, handed: Finalizables)

  /** What get_ready_object gives out: the last one, if there is one. */
  function LastReady(t: Tables): Finalizables {
    if t.ready == [] then [] else [t.ready[|t.ready| - 1]]
  }

  function Popped(t: Tables): Tables {
    if t.ready == [] then t else t.(ready := t.ready[..|t.ready| - 1])
  }

  function Drained(t: Tables, o: nat): Tables {
    Tables(OthersThan(t.candidates, o), 0, OthersThan(t.ready, o))
  }

  function Forwarded(t: Tables, w: World): Tables {
    t.(candidates := AllKeptAlive(w, t.candidates), ready := AllKeptAlive(w, t.ready))
  }

  function Apply(s: State, op: Op): State
    requires s.tables.nurseryIndex <= |s.tables.candidates|
  {
    var t := s.tables;
    match op
    case Add(f) => s.(tables := t.(candidates := t.candidates + [f]), added := s.added + [f])
    case Scan(w, nursery) => s.(tables := Scanned(t, w, nursery))
    case Forward(w) => s.(tables := Forwarded(t, w))
    case GetReady => s.(tables := Popped(t), handed := s.handed + LastReady(t))
    case GetAll => s.(tables := Tables([], 0, []), handed := s.handed + (t.candidates + t.ready))
    case GetFor(o) =>
      s.(tables := Drained(t, o), handed := s.handed + (EntriesOf(t.candidates, o) + EntriesOf(t.ready, o)))
  }

  /** All registrations of `x` are candidates, or ready, or were handed out. */
  predicate Conserved(s: State, x: nat) {
    Count(s.tables.candidates, x) + Count(s.tables.ready, x) + Count(s.handed, x) == Count(s.added, x)
  }

  ghost predicate Inv(s: State) {
    s.tables.nurseryIndex <= |s.tables.candidates| && forall x :: Conserved(s, x)
  }

  lemma ReadyConserves(t: Tables, x: nat)
    ensures Count(Popped(t).ready, x) + Count(LastReady(t), x) == Count(t.ready, x)
  {
    assert t.ready == Popped(t).ready + LastReady(t);
    CountPlus(Popped(t).ready, LastReady(t), x);
  }

  lemma GetForConserves(t: Tables, o: nat, x: nat)
    ensures Count(Drained(t, o).candidates, x) + Count(Drained(t, o).ready, x)
         + Count(EntriesOf(t.candidates, o) + EntriesOf(t.ready, o), x) == Count(t.candidates, x) + Count(t.ready, x)
  {
    DrainConserves(t.candidates, o, x);
    DrainConserves(t.ready, o, x);
    CountPlus(EntriesOf(t.candidates, o), EntriesOf(t.ready, o), x);
  }

  lemma ForwardConserves(t: Tables, w: World, x: nat)
    ensures Count(Forwarded(t, w).candidates, x) + Count(Forwarded(t, w).ready, x) == Count(t.candidates, x) +
      Count(t.ready, x)
  {
    KeepingConserves(w, t.candidates, x);
    KeepingConserves(w, t.ready, x);
  }

  lemma StepConserves(s: State, op: Op, x: nat)
    requires s.tables.nurseryIndex <= |s.tables.candidates| && Conserved(s, x)
    ensures Conserved(Apply(s, op), x)
  {
    assert Count([], x) == 0;
    hide Count, Scanned, Forwarded, LastReady, EntriesOf, OthersThan;
    var t := s.tables;
    match op
    case Add(f) =>
      CountPlus(t.candidates, [f], x);
      CountPlus(s.added, [f], x);
    case Scan(w, nursery) =>
      ScanConserves(t, w, nursery, x);
    case Forward(w) =>
      ForwardConserves(t, w, x);
    case GetReady =>
      ReadyConserves(t, x);
      CountPlus(s.handed, LastReady(t), x);
    case GetAll =>
      CountPlus(t.candidates, t.ready, x);
      CountPlus(s.handed, t.candidates + t.ready, x);
    case GetFor(o) =>
      GetForConserves(t, o, x);
      CountPlus(s.handed, EntriesOf(t.candidates, o) + EntriesOf(t.ready, o), x);
  }

  lemma StepKeeps(s: State, op: Op)
    requires Inv(s)
    ensures Inv(Apply(s, op))
  {
    forall x: nat
      ensures Conserved(Apply(s, op), x)
    {
      StepConserves(s, op, x);
    }
    hide Conserved;
  }

  function Run(s: State, ops: seq<Op>): State
    requires Inv(s)
    decreases |ops|
  {
    if ops == [] then s
    else
      StepKeeps(s, ops[0]);
      Run(Apply(s, ops[0]), ops[1..])
  }

  /** Over every sequence of operations no registration is lost, duplicated or handed out twice. */
  lemma {:induction false} RunKeeps(s: State, ops: seq<Op>)
    requires Inv(s)
    ensures Inv(Run(s, ops))
    decreases |ops|
  {
    if ops != [] {
      StepKeeps(s, ops[0]);
      RunKeeps(Apply(s, ops[0]), ops[1..]);
    }
  }

  // ---------- what scans have not seen ----------

  /** The candidates that a nursery scan would look at. */
  function Unscanned(t: Tables): Finalizables
    requires t.nurseryIndex <= |t.candidates|
  {
    t.candidates[t.nurseryIndex..]
  }

  /** Operations that neither scan nor hand out or move the entries of object `o`. */
  predicate LeavesAlone(op: Op, o: nat) {
    op.Add? || op.GetReady? || (op.GetFor? && op.o != o)
  }

  lemma UnscannedStep(s: State, op: Op, f: Finalizable)
    requires Inv(s) && LeavesAlone(op, f.reference) && f in Unscanned(s.tables)
    ensures Inv(Apply(s, op)) && f in Unscanned(Apply(s, op).tables)
  {
    StepKeeps(s, op);
    var t := s.tables;
    var i :| t.nurseryIndex <= i < |t.candidates| && t.candidates[i] == f;
    hide Inv;
    match op
    case Add(x) => assert (t.candidates + [x])[i] == f;
    case GetReady =>
    case GetFor(o) => DrainSeparates(t.candidates, o);
  }

  lemma {:induction false} UnscannedRun(s: State, ops: seq<Op>, f: Finalizable)
    requires Inv(s) && f in Unscanned(s.tables) && forall i :: 0 <= i < |ops| ==> LeavesAlone(ops[i], f.reference)
    ensures Inv(Run(s, ops)) && f in Unscanned(Run(s, ops).tables)
    decreases |ops|
  {
    if ops != [] {
      UnscannedStep(s, ops[0], f);
      UnscannedRun(Apply(s, ops[0]), ops[1..], f);
    }
  }

  /** A registration is behind the nursery index, in the reach of both kinds of scan, until one has looked at it. */
  lemma NewEntryIsUnscanned(s: State, f: Finalizable, ops: seq<Op>)
    requires Inv(s) && forall i :: 0 <= i < |ops| ==> LeavesAlone(ops[i], f.reference)
    ensures var t := Run(s, [Add(f)] + ops).tables; t.nurseryIndex <= |t.candidates| && f in Unscanned(t)
  {
    StepKeeps(s, Add(f));
    var t := s.tables;
    assert (t.candidates + [f])[|t.candidates|] == f;
    UnscannedRun(Apply(s, Add(f)), ops, f);
    assert ([Add(f)] + ops)[1..] == ops;
  }

  lemma EmptyTables()
    ensures Inv(State(Tables([], 0, []), [], []))
  {
  }

  // ---------- the code ----------

  class FinalizableProcessor {
    var candidates: Finalizables
    var nurseryIndex: nat
    var readyForFinalize: Finalizables

    constructor ()
      ensures Value() == Tables([], 0, [])
    {
      candidates, nurseryIndex, readyForFinalize := [], 0, [];
    }

    function Value(): Tables
      reads this
    {
      Tables(candidates, nurseryIndex, readyForFinalize)
    }

    method Add(f: Finalizable)
      modifies this
      ensures Value() == old(Value()).(candidates := old(candidates) + [f])
    {
      candidates := candidates + [f];
    }

    /** The loop of scan: what was drained goes back, or becomes ready. */
    method Sort(w: World, drained: Finalizables)
      requires readyForFinalize == []
      modifies this`candidates, this`readyForFinalize
      ensures candidates == old(candidates) + Survivors(w, drained) && readyForFinalize == Dead(w, drained)
    {
      var i := 0;
      assert Survivors(w, drained[..0]) == [] == Dead(w, drained[..0]);
      hide Survivors, Dead, KeptAlive;
      while i < |drained|
        invariant i <= |drained|
        invariant candidates == old(candidates) + Survivors(w, drained[..i])
        invariant readyForFinalize == Dead(w, drained[..i])
      {
        var f := drained[i];
        NextOne(w, drained, i);
        if f.reference in w.live {
          candidates := candidates + [KeptAlive(w, f)];
        } else {
          readyForFinalize := readyForFinalize + [f];
        }
        i := i + 1;
      }
      assert drained[..i] == drained;
    }

    method Scan(w: World, nursery: bool)
      requires nurseryIndex <= |candidates|
      modifies this
      ensures Value() == Scanned(old(Value()), w, nursery)
      ensures ScanDone(old(Value()), w, if nursery then old(nurseryIndex) else 0, Value())
    {
      hide ScanDone, Follows, Survivors, Dead, KeptAlive, AllKeptAlive;
      ScanMeaning(Value(), w, nursery);
      var start := if nursery then nurseryIndex else 0;
      candidates := candidates + readyForFinalize;
      readyForFinalize := [];
      var drained := candidates[start..];
      candidates := candidates[..start];
      Sort(w, drained);
      ForwardFinalizable(w);
      nurseryIndex := |candidates|;
    }

    method ForwardFinalizable(w: World)
      modifies this`readyForFinalize
      ensures readyForFinalize == AllKeptAlive(w, old(readyForFinalize))
      ensures |readyForFinalize| == |old(readyForFinalize)|
      ensures forall i :: 0 <= i < |readyForFinalize| ==> Follows(w, old(readyForFinalize)[i], readyForFinalize[i])
    {
      var i := 0;
      while i < |readyForFinalize|
        invariant i <= |readyForFinalize| == |old(readyForFinalize)|
        invariant forall j :: 0 <= j < |readyForFinalize| ==>
          readyForFinalize[j] == if j < i then KeptAlive(w, old(readyForFinalize)[j]) else old(readyForFinalize)[j]
      {
        readyForFinalize := readyForFinalize[i := KeptAlive(w, readyForFinalize[i])];
        i := i + 1;
      }
    }

    method ForwardCandidate(w: World)
      modifies this`candidates
      ensures candidates == AllKeptAlive(w, old(candidates))
      ensures |candidates| == |old(candidates)|
      ensures forall i :: 0 <= i < |candidates| ==> Follows(w, old(candidates)[i], candidates[i])
    {
      var i := 0;
      while i < |candidates|
        invariant i <= |candidates| == |old(candidates)|
        invariant forall j :: 0 <= j < |candidates| ==>
          candidates[j] == if j < i then KeptAlive(w, old(candidates)[j]) else old(candidates)[j]
      {
        candidates := candidates[i := KeptAlive(w, candidates[i])];
        i := i + 1;
      }
    }

    method GetReadyObject() returns (f: Option<Finalizable>)
      modifies this
      ensures Value() == Popped(old(Value()))
      ensures match f
        case None => old(readyForFinalize) == []
        case Some(x) => old(readyForFinalize) == readyForFinalize + [x]
      ensures forall x ::
        (Count(readyForFinalize, x) ==
         old(Count(readyForFinalize, x)) - if f.Some? && f.value.finalizer == x then 1 else 0)
    {
      if readyForFinalize == [] {
        return None;
      }
      f := Some(readyForFinalize[|readyForFinalize| - 1]);
      readyForFinalize := readyForFinalize[..|readyForFinalize| - 1];
    }

    method GetAllFinalizers() returns (r: Finalizables)
      modifies this
      ensures r == old(candidates) + old(readyForFinalize) && Value() == Tables([], 0, [])
    {
      r := candidates + readyForFinalize;
      candidates, readyForFinalize, nurseryIndex := [], [], 0;
    }

    method GetFinalizersFor(o: nat) returns (r: Finalizables)
      modifies this
      ensures Value() == Drained(old(Value()), o)
      ensures r == EntriesOf(old(candidates), o) + EntriesOf(old(readyForFinalize), o)
    {
      var fromCandidates, fromReady;
      candidates, fromCandidates := DrainFilter(candidates, o);
      readyForFinalize, fromReady := DrainFilter(readyForFinalize, o);
      nurseryIndex := 0;
      r := fromCandidates + fromReady;
    }
  }

  lemma NextOne(w: World, fs: Finalizables, i: nat)
    requires i < |fs|
    ensures Survivors(w, fs[..i + 1]) == Survivors(w, fs[..i]) + if IsLive(w, fs[i]) then [KeptAlive(w, fs[i])] else []
    ensures Dead(w, fs[..i + 1]) == Dead(w, fs[..i]) + if IsLive(w, fs[i]) then [] else [fs[i]]
  {
    assert fs[..i + 1][..i] == fs[..i];
  }

  /** Draining takes exactly the entries of the object, and both parts stay in order. */
  lemma DrainMeaning(fs: Finalizables, o: nat)
    ensures Taken(fs, EntriesAt(fs, o, true), EntriesOf(fs, o)) && Taken(fs, EntriesAt(fs, o, false), OthersThan(fs, o))
  {
    var entries := EntriesAre(fs, o);
    var others := OthersAre(fs, o);
  }

  /** Take the entries for an object out of a vector, one after the other. */
  method DrainFilter(fs: Finalizables, o: nat) returns (vec: Finalizables, ret: Finalizables)
    ensures vec == OthersThan(fs, o) && ret == EntriesOf(fs, o)
    ensures Taken(fs, EntriesAt(fs, o, true), ret) && Taken(fs, EntriesAt(fs, o, false), vec)
  {
    hide Taken, EntriesAt;
    DrainMeaning(fs, o);
    vec, ret := fs, [];
    ghost var seen: nat := 0;
    var i := 0;
    while i < |vec|
      invariant 0 <= i <= |vec| && seen <= |fs| && vec[i..] == fs[seen..]
      invariant vec[..i] == OthersThan(fs[..seen], o) && ret == EntriesOf(fs[..seen], o)
      decreases |vec| - i
    {
      assert vec[i..][0] == vec[i] == fs[seen] && vec[i..][1..] == fs[seen..][1..];
      assert fs[..seen + 1][..seen] == fs[..seen];
      if vec[i].reference == o {
        ret := ret + [vec[i]];
        ghost var before := vec;
        vec := vec[..i] + vec[i + 1..];
        assert vec[i..] == before[i..][1..] && vec[..i] == before[..i];
      } else {
        assert vec[..i + 1] == vec[..i] + [vec[i]] && vec[i + 1..] == vec[i..][1..];
        i := i + 1;
      }
      seen := seen + 1;
    }
    assert |fs[seen..]| == 0;
    assert fs[..seen] == fs && vec[..i] == vec;
  }
}
