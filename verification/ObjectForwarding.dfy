/**
 The forwarding protocol of src/util/object_forwarding.rs as CopySpace::trace_object of
 src/policy/copyspace.rs uses it: any number of workers trace any objects of a from-space, and every
 atomic access to the metadata of an object is one step.
 */
module ObjectForwarding {
  import opened Wrappers

  // ---------- the packed word ----------

  const FORWARDED: bv64 := 3
  const FORWARDING_POINTER_MASK: bv64 := 0x00ff_ffff_ffff_fff8

  /** The forwarding word when bits and pointer are stored together. */
  function Pack(pointer: bv64, shift: bv6): bv64 {
    pointer | (FORWARDED << shift)
  }

  function ReadPointer(word: bv64): bv64 {
    word & FORWARDING_POINTER_MASK
  }

  function ReadBits(word: bv64, shift: bv6): bv64 {
    (word >> shift) & 3
  }

  /** Addresses of objects: aligned to 8 and below 2^56. */
  predicate IsAddress(a: bv64) {
    a & 7 == 0 && a < 0x0100_0000_0000_0000
  }

  predicate OutsideMask(shift: bv6) {
    (FORWARDED << shift) & FORWARDING_POINTER_MASK == 0
  }

  lemma PointerReadsBack(pointer: bv64, shift: bv6)
    requires IsAddress(pointer) && OutsideMask(shift)
    ensures ReadPointer(Pack(pointer, shift)) == pointer
  {
  }

  lemma BitsReadBack(pointer: bv64, shift: bv6)
    requires IsAddress(pointer) && shift != 63
    ensures ReadBits(Pack(pointer, shift), shift) == FORWARDED
  {
  }

  /**
   The packed word gives back the pointer and the bits, for every address, exactly if the shifted bits
   lie outside the pointer mask and inside the word.
   */
  lemma PackedRoundTrip(shift: bv6)
    ensures (forall p :: IsAddress(p) ==>
                ReadPointer(Pack(p, shift)) == p && ReadBits(Pack(p, shift), shift) == FORWARDED)
            <==> OutsideMask(shift) && shift != 63
  {
    if OutsideMask(shift) && shift != 63 {
      forall p | IsAddress(p)
        ensures ReadPointer(Pack(p, shift)) == p && ReadBits(Pack(p, shift), shift) == FORWARDED
      {
        PointerReadsBack(p, shift);
        BitsReadBack(p, shift);
      }
    } else {
      assert IsAddress(0) && (ReadPointer(Pack(0, shift)) != 0 || ReadBits(Pack(0, shift), shift) != FORWARDED);
    }
  }

  /** The offsets that work: the two lowest and the eight highest. */
  lemma WorkingShifts(shift: bv6)
    ensures OutsideMask(shift) <==> shift <= 1 || shift >= 56
  {
  }

  // ---------- the protocol ----------

  datatype Bits = NotTriggered | Being | Forwarded

  /** The metadata of an object. `stamped`: on_after_forwarding has set the extra metadata of its copy. */
  datatype Header = Header(bits: Bits, pointer: Option<nat>, stamped: bool)

  datatype Result = Itself | Copy(address: nat)

  datatype Worker =
    | Idle
    | Reading(o: nat)                         // attempt_to_forward, before the load
    | Trying(o: nat)                          // before the compare-and-exchange
    | Copying(o: nat)                         // forward_object
    | Stamping(o: nat, copy: nat)             // before on_after_forwarding
    | Storing(o: nat, copy: nat)              // before the pointer, or the packed word, is stored
    | Finishing(o: nat, copy: nat)            // before the bits are stored
    | Spinning(o: nat, seen: Bits)            // spin_and_get_forwarded_object
    | Fetching(o: nat)                        // before the pointer is read
    | Returned(o: nat, result: Result, copied: bool)

  /** `copies[o]` lists all copies made of object `o`; `packed`: bits and pointer share one word. */
  datatype State = State(headers: seq<Header>, copies: seq<seq<nat>>, workers: seq<Worker>, next: nat, packed: bool)

  datatype Action =
    | Begin(target: nat) | Load | Exchange | MakeCopy | Stamp | StoreWord | StoreBits | Spin | Fetch | Leave

  datatype Step = Step(w: nat, action: Action)

  predicate Traces(x: Worker) {
    !x.Idle?
  }

  predicate Enabled(s: State, step: Step) {
    && step.w < |s.workers| && |s.copies| == |s.headers|
    && (Traces(s.workers[step.w]) ==> s.workers[step.w].o < |s.headers|)
    && var x := s.workers[step.w];
    match step.action
    case Begin(o) => x.Idle? && o < |s.headers|
    case Load => x.Reading?
    case Exchange => x.Trying?
    case MakeCopy => x.Copying?
    case Stamp => x.Stamping?
    case StoreWord => x.Storing?
    case StoreBits => x.Finishing?
    case Spin => x.Spinning?
    case Fetch => x.Fetching?
    case Leave => x.Returned?
  }

  function Put(s: State, w: nat, x: Worker): State
    requires w < |s.workers|
  {
    s.(workers := s.workers[w := x])
  }

  function PutHeader(s: State, o: nat, x: Header): State
    requires o < |s.headers|
  {
    s.(headers := s.headers[o := x])
  }

  function Fetched(pointer: Option<nat>): Result {
    if pointer.Some? then Copy(pointer.value) else Itself
  }

  function Apply(s: State, step: Step): State
    requires Enabled(s, step)
  {
    var w := step.w;
    match s.workers[w]
    case Idle => Put(s, w, Reading(step.action.target))
    case Reading(o) =>
      Put(s, w, if s.headers[o].bits == NotTriggered then Trying(o) else Spinning(o, s.headers[o].bits))
    case Trying(o) =>
      if s.headers[o].bits == NotTriggered then PutHeader(Put(s, w, Copying(o)), o, s.headers[o].(bits := Being))
      else Put(s, w, Reading(o))
    case Copying(o) =>
      Put(s, w, Stamping(o, s.next)).(copies := s.copies[o := s.copies[o] + [s.next]], next := s.next + 1)
    case Stamping(o, c) => PutHeader(Put(s, w, Storing(o, c)), o, s.headers[o].(stamped := true))
    case Storing(o, c) =>
      if s.packed then
        PutHeader(Put(s, w, Returned(o, Copy(c), true)), o, s.headers[o].(pointer := Some(c), bits := Forwarded))
      else
        PutHeader(Put(s, w, Finishing(o, c)), o, s.headers[o].(pointer := Some(c)))
    case Finishing(o, c) => PutHeader(Put(s, w, Returned(o, Copy(c), true)), o, s.headers[o].(bits := Forwarded))
    case Spinning(o, seen) =>
      (match seen
       case Being => Put(s, w, Spinning(o, s.headers[o].bits))
       case Forwarded => Put(s, w, Fetching(o))
       case NotTriggered => Put(s, w, Returned(o, Itself, false)))
    case Fetching(o) => Put(s, w, Returned(o, Fetched(s.headers[o].pointer), false))
    case Returned(_, _, _) => Put(s, w, Idle)
  }

  predicate Initial(s: State) {
    && |s.copies| == |s.headers|
    && (forall o :: 0 <= o < |s.headers| ==> s.headers[o] == Header(NotTriggered, None, false) && s.copies[o] == [])
    && (forall w :: 0 <= w < |s.workers| ==> s.workers[w] == Idle)
  }

  predicate IsRun(s: State, steps: seq<Step>)
    decreases |steps|
  {
    steps == [] || (Enabled(s, steps[0]) && IsRun(Apply(s, steps[0]), steps[1..]))
  }

  function Run(s: State, steps: seq<Step>): State
    requires IsRun(s, steps)
    decreases |steps|
  {
    if steps == [] then s else Run(Apply(s, steps[0]), steps[1..])
  }

  // ---------- the invariant ----------

  /** The worker that won the race for object `o`. */
  predicate Owns(x: Worker, o: nat) {
    (x.Copying? || x.Stamping? || x.Storing? || x.Finishing?) && x.o == o
  }

  /** What a worker knows about the object it traces. */
  predicate Knows(s: State, x: Worker)
    requires |s.copies| == |s.headers|
  {
    !Traces(x) ||
    (x.o < |s.headers| && KnowsOf(x, s.headers[x.o], s.copies[x.o]))
  }

  predicate KnowsOf(x: Worker, header: Header, copies: seq<nat>) {
    match x
    case Copying(_) => header.bits == Being && copies == []
    case Stamping(_, c) => header.bits == Being && copies == [c]
    case Storing(_, c) => header.bits == Being && copies == [c] && header.stamped
    case Finishing(_, c) => header.bits == Being && copies == [c] && header.stamped && header.pointer == Some(c)
    case Spinning(_, seen) => seen != NotTriggered && header.bits != NotTriggered &&
      (seen == Forwarded ==> header.bits == Forwarded)
    case Fetching(_) => header.bits == Forwarded
    case Returned(_, r, _) => header.bits == Forwarded && r.Copy? && copies == [r.address]
    case _ => true
  }

  ghost predicate HeaderOk(s: State, o: nat)
    requires o < |s.headers| == |s.copies|
  {
    match s.headers[o].bits
    case NotTriggered => s.copies[o] == []
    case Being => exists w :: 0 <= w < |s.workers| && Owns(s.workers[w], o)
    case Forwarded => |s.copies[o]| == 1 && s.headers[o].pointer == Some(s.copies[o][0]) && s.headers[o].stamped
  }

  ghost predicate Inv(s: State) {
    && |s.copies| == |s.headers|
    && (forall w :: 0 <= w < |s.workers| ==> Knows(s, s.workers[w]))
    && (forall o :: 0 <= o < |s.headers| ==> HeaderOk(s, o))
    && (forall v, w :: 0 <= v < w < |s.workers| ==> !Clash(s.workers[v], s.workers[w]))
  }

  /** Two workers that own the same object. */
  predicate Clash(x: Worker, y: Worker) {
    Traces(x) && Traces(y) && x.o == y.o && Owns(x, x.o) && Owns(y, y.o)
  }

  lemma InitialInv(s: State)
    requires Initial(s)
    ensures Inv(s)
  {
  }

  /** Only the owner of an object, or the worker that becomes its owner, changes it. */
  lemma Effects(s: State, step: Step, o: nat)
    requires Enabled(s, step) && o < |s.headers| && Knows(s, s.workers[step.w])
    ensures var t, w := Apply(s, step), step.w;
      && |t.headers| == |s.headers| && |t.copies| == |s.copies| && t.workers == s.workers[w := t.workers[w]]
      && (Owns(t.workers[w], o) ==> Owns(s.workers[w], o) || s.headers[o].bits == NotTriggered)
      && (!Owns(s.workers[w], o) && !Owns(t.workers[w], o) ==>
            t.headers[o] == s.headers[o] && t.copies[o] == s.copies[o])
      && (Owns(s.workers[w], o) && !Owns(t.workers[w], o) ==>
            && t.headers[o].bits == Forwarded && |t.copies[o]| == 1
            && t.headers[o].pointer == Some(t.copies[o][0]) && t.headers[o].stamped)
      && (Owns(t.workers[w], o) ==> t.headers[o].bits == Being)
  {
  }

  /** What the worker of a step knows afterwards. */
  lemma StepKnows(s: State, step: Step)
    requires Inv(s) && Enabled(s, step)
    ensures Knows(Apply(s, step), Apply(s, step).workers[step.w])
  {
    var x := s.workers[step.w];
    assert Knows(s, x);
    if Traces(x) {
      assert HeaderOk(s, x.o);
    }
    hide Inv;
  }

  /** What another worker knows stays true. */
  lemma OtherKnows(s: State, step: Step, w: nat)
    requires Inv(s) && Enabled(s, step) && w < |s.workers| && w != step.w
    ensures Knows(Apply(s, step), Apply(s, step).workers[w])
  {
    var x, y := s.workers[step.w], s.workers[w];
    assert Knows(s, x) && Knows(s, y);
    if Traces(y) {
      Effects(s, step, y.o);
      assert HeaderOk(s, y.o);
      assert !Clash(y, x) && !Clash(x, y);
    }
    hide Inv;
  }

  lemma StepKeepsClash(s: State, step: Step, v: nat, w: nat)
    requires Inv(s) && Enabled(s, step) && v < w < |s.workers|
    ensures !Clash(Apply(s, step).workers[v], Apply(s, step).workers[w])
  {
    var x, y, t := s.workers[v], s.workers[w], Apply(s, step);
    assert Knows(s, x) && Knows(s, y) && Knows(s, s.workers[step.w]) && !Clash(x, y);
    if Traces(x) {
      Effects(s, step, x.o);
    }
    if Traces(y) {
      Effects(s, step, y.o);
    }
    hide Inv, Apply, Enabled;
  }

  lemma StepKeepsHeader(s: State, step: Step, o: nat)
    requires Inv(s) && Enabled(s, step) && o < |s.headers|
    ensures HeaderOk(Apply(s, step), o)
  {
    var t := Apply(s, step);
    assert Knows(s, s.workers[step.w]) && HeaderOk(s, o);
    Effects(s, step, o);
    hide Inv, Apply, Enabled, Knows;
    if t.headers[o].bits == Being && !Owns(t.workers[step.w], o) {
      var w :| 0 <= w < |s.workers| && Owns(s.workers[w], o);
      assert Owns(t.workers[w], o);
    }
  }

  lemma StepKeeps(s: State, step: Step)
    requires Inv(s) && Enabled(s, step)
    ensures Inv(Apply(s, step))
  {
    var t := Apply(s, step);
    assert |t.headers| == |s.headers| && |t.copies| == |s.copies| && |t.workers| == |s.workers|;
    hide Apply, Enabled, Knows, HeaderOk, Clash;
    forall w | 0 <= w < |t.workers|
      ensures Knows(t, t.workers[w])
    {
      if w == step.w {
        StepKnows(s, step);
      } else {
        OtherKnows(s, step, w);
      }
    }
    forall v, w | 0 <= v < w < |t.workers|
      ensures !Clash(t.workers[v], t.workers[w])
    {
      StepKeepsClash(s, step, v, w);
    }
    forall o | 0 <= o < |t.headers|
      ensures HeaderOk(t, o)
    {
      StepKeepsHeader(s, step, o);
    }
  }

  // ---------- how states change ----------

  function Rank(b: Bits): nat {
    match b
    case NotTriggered => 0
    case Being => 1
    case Forwarded => 2
  }

  /** Later states: the bits only move forward, and a copy that was made stays the only one. */
  ghost predicate Later(s: State, t: State) {
    && |s.headers| == |t.headers| == |s.copies| == |t.copies|
    && (forall o :: 0 <= o < |s.headers| ==> Rank(s.headers[o].bits) <= Rank(t.headers[o].bits))
    && (forall o :: 0 <= o < |s.copies| && s.copies[o] != [] ==> t.copies[o] == s.copies[o])
  }

  /** One step moves the bits of one object, by one state: from 00 to 10, or from 10 to 11. */
  lemma StepMovesForward(s: State, step: Step)
    requires Inv(s) && Enabled(s, step)
    ensures Later(s, Apply(s, step))
    ensures forall o :: 0 <= o < |s.headers| ==> Rank(Apply(s, step).headers[o].bits) <= Rank(s.headers[o].bits) + 1
  {
    assert Knows(s, s.workers[step.w]);
  }

  lemma {:induction false} RunKeeps(s: State, steps: seq<Step>)
    requires Inv(s) && IsRun(s, steps)
    ensures Inv(Run(s, steps)) && Later(s, Run(s, steps))
    decreases |steps|
  {
    if steps != [] {
      StepKeeps(s, steps[0]);
      StepMovesForward(s, steps[0]);
      RunKeeps(Apply(s, steps[0]), steps[1..]);
    }
  }

  ghost predicate Reachable(s: State) {
    exists start, steps :: Initial(start) && IsRun(start, steps) && Run(start, steps) == s
  }

  lemma ReachableInv(s: State)
    requires Reachable(s)
    ensures Inv(s)
  {
    var start, steps :| Initial(start) && IsRun(start, steps) && Run(start, steps) == s;
    InitialInv(start);
    RunKeeps(start, steps);
  }

  // ---------- the theorems ----------

  /** Every object is copied at most once, and by one worker at a time. */
  lemma CopiedOnce(s: State, o: nat)
    requires Reachable(s) && o < |s.headers|
    ensures o < |s.copies| && |s.copies[o]| <= 1
    ensures forall v, w :: 0 <= v < w < |s.workers| ==> !(Owns(s.workers[v], o) && Owns(s.workers[w], o))
  {
    ReachableInv(s);
    assert HeaderOk(s, o);
    if s.headers[o].bits == Being {
      var w :| 0 <= w < |s.workers| && Owns(s.workers[w], o);
      assert Knows(s, s.workers[w]);
    }
    forall v, w | 0 <= v < w < |s.workers|
      ensures !(Owns(s.workers[v], o) && Owns(s.workers[w], o))
    {
      assert !Clash(s.workers[v], s.workers[w]);
    }
  }

  /** A trace never returns the object itself, and whoever traces an object, whenever, gets the same copy. */
  lemma SameResult(s: State, steps: seq<Step>, v: nat, w: nat)
    requires Reachable(s) && IsRun(s, steps)
    requires v < |s.workers| && w < |Run(s, steps).workers|
    requires s.workers[v].Returned? && Run(s, steps).workers[w].Returned?
    requires s.workers[v].o == Run(s, steps).workers[w].o
    ensures s.workers[v].result.Copy? && s.workers[v].result == Run(s, steps).workers[w].result
  {
    ReachableInv(s);
    RunKeeps(s, steps);
    assert Knows(s, s.workers[v]) && Knows(Run(s, steps), Run(s, steps).workers[w]);
  }

  /** Whoever sees FORWARDED also sees the pointer to the copy and the extra metadata. */
  lemma ForwardedIsComplete(s: State, o: nat)
    requires Reachable(s) && o < |s.headers| && s.headers[o].bits == Forwarded
    ensures s.headers[o].stamped && o < |s.copies| && |s.copies[o]| == 1 && s.headers[o].pointer == Some(s.copies[o][0])
  {
    ReachableInv(s);
    assert HeaderOk(s, o);
  }

  /** A spinning worker always waits for a worker that owns the object and can go on. */
  lemma SpinnerIsServed(s: State, w: nat)
    requires Reachable(s) && w < |s.workers| && s.workers[w].Spinning? && s.workers[w].o < |s.headers|
    requires s.headers[s.workers[w].o].bits != Forwarded
    ensures exists v, action ::
      0 <= v < |s.workers| && Owns(s.workers[v], s.workers[w].o) && Enabled(s, Step(v, action))
  {
    ReachableInv(s);
    var o := s.workers[w].o;
    assert Knows(s, s.workers[w]) && HeaderOk(s, o);
    var v :| 0 <= v < |s.workers| && Owns(s.workers[v], o);
    var x := s.workers[v];
    var action :=
      if x.Copying? then MakeCopy else if x.Stamping? then Stamp else if x.Storing? then StoreWord else StoreBits;
    assert Enabled(s, Step(v, action));
  }

  // ---------- every trace returns ----------

  /** The next access of a worker inside trace_object. */
  function NextAccess(x: Worker): Action {
    match x
    case Reading(_) => Load
    case Trying(_) => Exchange
    case Copying(_) => MakeCopy
    case Stamping(_, _) => Stamp
    case Storing(_, _) => StoreWord
    case Finishing(_, _) => StoreBits
    case Spinning(_, _) => Spin
    case Fetching(_) => Fetch
    case _ => Leave
  }

  predicate IsAccess(action: Action) {
    !action.Begin? && !action.Leave?
  }

  /** How many more accesses a worker can make before it returns, not counting those that find it has to wait. */
  function Effort(s: State, x: Worker): nat
    requires Traces(x) ==> x.o < |s.headers|
  {
    match x
    case Idle => 0
    case Reading(o) => if s.headers[o].bits == NotTriggered then 8 else 4
    case Trying(o) => if s.headers[o].bits == NotTriggered then 7 else 5
    case Copying(_) => 6
    case Stamping(_, _) => 5
    case Storing(_, _) => 4
    case Finishing(_, _) => 3
    case Spinning(_, seen) => if seen == Being then 3 else 2
    case Fetching(_) => 1
    case Returned(_, _, _) => 0
  }

  /** The access finds that another worker is still copying the object. */
  predicate Waits(s: State, step: Step)
    requires Enabled(s, step)
  {
    var x := s.workers[step.w];
    x.Spinning? && x.seen == Being && s.headers[x.o].bits == Being
  }

  /** Every access but a wait brings its worker closer to returning, a lost exchange too; a wait changes nothing. */
  lemma AccessLowers(s: State, step: Step)
    requires Inv(s) && Enabled(s, step) && IsAccess(step.action)
    ensures var t, w := Apply(s, step), step.w;
      && Traces(s.workers[w]) && Traces(t.workers[w]) && t.workers[w].o == s.workers[w].o < |t.headers|
      && if Waits(s, step) then t == s else Effort(t, t.workers[w]) < Effort(s, s.workers[w])
  {
    assert Knows(s, s.workers[step.w]);
    if Waits(s, step) {
      var t, w := Apply(s, step), step.w;
      assert t.workers == s.workers;
    }
    hide Inv;
  }

  /** No step of a worker makes it harder for another one. */
  lemma OthersNotHarder(s: State, step: Step, v: nat)
    requires Inv(s) && Enabled(s, step) && v < |s.workers| && v != step.w
    ensures var t := Apply(s, step);
      && v < |t.workers| && t.workers[v] == s.workers[v]
      && (Traces(s.workers[v]) ==> s.workers[v].o < |t.headers| == |s.headers|)
      && Effort(t, t.workers[v]) <= Effort(s, s.workers[v])
  {
    assert Knows(s, s.workers[v]);
    StepMovesForward(s, step);
    hide Inv;
  }

  /** All steps are accesses of worker `w`. */
  ghost predicate OnlyBy(steps: seq<Step>, w: nat) {
    forall i :: 0 <= i < |steps| ==> steps[i].w == w && IsAccess(steps[i].action)
  }

  /** The worker has the one copy of the object. */
  ghost predicate HasCopy(s: State, w: nat, o: nat) {
    && w < |s.workers| && s.workers[w].Returned? && s.workers[w].o == o && s.workers[w].result.Copy?
    && o < |s.copies| && s.copies[o] == [s.workers[w].result.address]
  }

  /** The worker makes the copy itself, unless somebody else has begun before. */
  predicate WillCopy(s: State, w: nat)
    requires w < |s.workers| && Traces(s.workers[w]) && s.workers[w].o < |s.headers|
  {
    var x := s.workers[w];
    if x.Returned? then x.copied else s.headers[x.o].bits == NotTriggered || Owns(x, x.o)
  }

  ghost predicate NobodyElseOwns(s: State, w: nat, o: nat) {
    forall v :: 0 <= v < |s.workers| && v != w ==> !Owns(s.workers[v], o)
  }

  /** One access of a worker that no other worker keeps waiting. */
  lemma StepAlone(s: State, w: nat)
    requires Inv(s) && w < |s.workers| && Traces(s.workers[w]) && !s.workers[w].Returned?
    requires NobodyElseOwns(s, w, s.workers[w].o)
    ensures s.workers[w].o < |s.headers| && Enabled(s, Step(w, NextAccess(s.workers[w])))
    ensures var t, o := Apply(s, Step(w, NextAccess(s.workers[w]))), s.workers[w].o;
      && |t.workers| == |s.workers| && Traces(t.workers[w]) && t.workers[w].o == o < |t.headers|
      && NobodyElseOwns(t, w, o) && Effort(t, t.workers[w]) < Effort(s, s.workers[w])
      && (WillCopy(t, w) <==> WillCopy(s, w))
  {
    var x := s.workers[w];
    assert Knows(s, x) && HeaderOk(s, x.o);
    hide Inv;
  }

  /**
   Left alone, a worker that traces an object returns with the one copy of it; it has made the copy itself exactly
   if nobody had begun to, or it had begun itself.
   */
  lemma {:induction false} ReturnsAlone(s: State, w: nat) returns (steps: seq<Step>)
    requires Inv(s) && w < |s.workers| && Traces(s.workers[w]) && NobodyElseOwns(s, w, s.workers[w].o)
    ensures s.workers[w].o < |s.headers|
    ensures OnlyBy(steps, w) && IsRun(s, steps) && HasCopy(Run(s, steps), w, s.workers[w].o)
    ensures Run(s, steps).workers[w].copied <==> WillCopy(s, w)
    decreases if s.workers[w].o < |s.headers| then Effort(s, s.workers[w]) else 0
  {
    assert Knows(s, s.workers[w]);
    if s.workers[w].Returned? {
      steps := [];
    } else {
      var step := Step(w, NextAccess(s.workers[w]));
      StepAlone(s, w);
      StepKeeps(s, step);
      hide Inv, Enabled, Apply, NobodyElseOwns, WillCopy, Effort, HasCopy;
      var rest := ReturnsAlone(Apply(s, step), w);
      steps := [step] + rest;
      assert steps[0] == step && steps[1..] == rest;
    }
  }

  /** The same from every reachable state. */
  lemma TraceReturns(s: State, w: nat) returns (steps: seq<Step>)
    requires Reachable(s) && w < |s.workers| && Traces(s.workers[w]) && NobodyElseOwns(s, w, s.workers[w].o)
    ensures s.workers[w].o < |s.headers|
    ensures OnlyBy(steps, w) && IsRun(s, steps) && HasCopy(Run(s, steps), w, s.workers[w].o)
    ensures Run(s, steps).workers[w].copied <==> WillCopy(s, w)
  {
    ReachableInv(s);
    steps := ReturnsAlone(s, w);
  }

  lemma {:induction false} RunLeavesOthers(s: State, steps: seq<Step>, w: nat)
    requires IsRun(s, steps) && OnlyBy(steps, w)
    ensures |Run(s, steps).workers| == |s.workers|
    ensures forall v :: 0 <= v < |s.workers| && v != w ==> Run(s, steps).workers[v] == s.workers[v]
    decreases |steps|
  {
    if steps != [] {
      assert steps[0].w == w && OnlyBy(steps[1..], w);
      RunLeavesOthers(Apply(s, steps[0]), steps[1..], w);
    }
  }

  lemma {:induction false} RunPlus(s: State, a: seq<Step>, b: seq<Step>)
    requires IsRun(s, a) && IsRun(Run(s, a), b)
    ensures IsRun(s, a + b) && Run(s, a + b) == Run(Run(s, a), b)
    decreases |a|
  {
    hide Enabled, Apply;
    if a == [] {
      assert a + b == b;
    } else {
      assert (a + b)[1..] == a[1..] + b && (a + b)[0] == a[0];
      RunPlus(Apply(s, a[0]), a[1..], b);
    }
  }

  /** Whoever traces an object can be served: the owner returns first, if another worker owns it. */
  lemma EveryTraceCanReturn(s: State, w: nat) returns (steps: seq<Step>)
    requires Reachable(s) && w < |s.workers| && Traces(s.workers[w])
    ensures IsRun(s, steps) && HasCopy(Run(s, steps), w, s.workers[w].o)
  {
    var o := s.workers[w].o;
    ReachableInv(s);
    if v :| 0 <= v < |s.workers| && v != w && Owns(s.workers[v], o) {
      OwnerIsAlone(s, v, o);
      var first := ReturnsAlone(s, v);
      RunLeavesOthers(s, first, v);
      RunKeeps(s, first);
      assert NobodyElseOwns(Run(s, first), w, o);
      hide Inv, IsRun, Run, Reachable, Later;
      var second := ReturnsAlone(Run(s, first), w);
      RunPlus(s, first, second);
      steps := first + second;
    } else {
      steps := ReturnsAlone(s, w);
    }
  }

  lemma OwnerIsAlone(s: State, v: nat, o: nat)
    requires Inv(s) && v < |s.workers| && Owns(s.workers[v], o)
    ensures NobodyElseOwns(s, v, o)
  {
    forall u | 0 <= u < |s.workers| && u != v
      ensures !Owns(s.workers[u], o)
    {
      assert u < v ==> !Clash(s.workers[u], s.workers[v]);
      assert v < u ==> !Clash(s.workers[v], s.workers[u]);
    }
  }
}
