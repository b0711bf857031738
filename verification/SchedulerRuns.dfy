/** Runs that the protocol allows, step by step: where its assumptions are needed. */
module SchedulerRuns {
  import opened Wrappers
  import opened Sums
  import opened WorkBuckets
  import opened WorkerGoals
  import opened SchedulerProtocol
  import opened SchedulerInvariants
  import opened SchedulerTheorems
  import opened SchedulerTermination

  // ---------- reaching states ----------

  lemma {:induction false} RunSnoc(s: State, steps: seq<Step>, step: Step)
    requires IsRun(s, steps) && Enabled(Run(s, steps), step) && !Panics(Run(s, steps), step)
    ensures IsRun(s, steps + [step]) && Run(s, steps + [step]) == Apply(Run(s, steps), step)
    decreases |steps|
  {
    hide Enabled, Panics, Apply;
    if steps == [] {
      assert [] + [step] == [step] && [step][1..] == [];
    } else {
      RunSnoc(Apply(s, steps[0]), steps[1..], step);
      assert (steps + [step])[1..] == steps[1..] + [step];
    }
  }

  ghost predicate StepsTo(s: State, step: Step, t: State) {
    Enabled(s, step) && !Panics(s, step) && Apply(s, step) == t
  }

  lemma ReachableStep(s: State, step: Step, t: State)
    requires Reachable(s) && StepsTo(s, step, t)
    ensures Reachable(t)
  {
    hide Enabled, Panics, Apply, Initial, IsRun, Run;
    var start, steps :| Initial(start) && IsRun(start, steps) && Run(start, steps) == s;
    RunSnoc(start, steps, step);
    assert Run(start, steps + [step]) == t;
  }

  lemma InitialReachable(s: State)
    requires Initial(s)
    ensures Reachable(s)
  {
    assert Run(s, []) == s;
  }

  /** There is nothing that worker `w` could find. */
  ghost predicate NothingFor(s: State, w: nat) {
    && IsWorker(s, w) && s.designated[w] == multiset{} && s.local[w] == multiset{} && s.front == Empty
    && (forall b :: 1 <= b < |s.buckets| ==> !s.buckets[b].active || s.buckets[b].count == 0)
    && (forall v :: 0 <= v < |s.local| ==> s.local[v] == multiset{})
  }

  lemma Moves(s: State, w: nat, x: Worker, y: Worker)
    requires w < |s.workers|
    ensures Become(Become(s, w, x), w, y) == Become(s, w, y)
  {
    assert s.workers[w := x][w := y] == s.workers[w := y];
  }

  lemma AdvanceStep(s: State, w: nat, pos: nat, slow: bool)
    requires NothingFor(s, w) && pos < EndOfSweep(s)
    ensures StepsTo(Become(s, w, Sweeping(pos, false, slow)), Poll(w, Advance),
      Become(s, w, Sweeping(pos + 1, false, slow)))
  {
    Moves(s, w, Sweeping(pos, false, slow), Sweeping(pos + 1, false, slow));
  }

  lemma {:induction false} SweepsThrough(s: State, w: nat, pos: nat, slow: bool)
    requires NothingFor(s, w) && pos <= EndOfSweep(s) && Reachable(Become(s, w, Sweeping(pos, false, slow)))
    ensures Reachable(Become(s, w, Sweeping(EndOfSweep(s), false, slow)))
    decreases EndOfSweep(s) - pos
  {
    assert w < |s.workers|;
    hide Reachable, NothingFor, StepsTo;
    if pos < EndOfSweep(s) {
      AdvanceStep(s, w, pos, slow);
      ReachableStep(Become(s, w, Sweeping(pos, false, slow)), Poll(w, Advance),
        Become(s, w, Sweeping(pos + 1, false, slow)));
      SweepsThrough(s, w, pos + 1, slow);
    }
  }

  lemma SweepEnds(s: State, w: nat)
    requires NothingFor(s, w) && s.workers[w].Polling?
    ensures var end := EndOfSweep(s);
      && StepsTo(s, Poll(w, BeginSweep), Become(s, w, Sweeping(0, false, false)))
      && StepsTo(Become(s, w, Sweeping(end, false, false)), Poll(w, EndSweep), Become(s, w, Sweeping(0, false, true)))
      && StepsTo(Become(s, w, Sweeping(end, false, true)), Poll(w, EndSweep), Become(s, w, Parking))
  {
    var end := EndOfSweep(s);
    Moves(s, w, Sweeping(end, false, false), Sweeping(0, false, true));
    Moves(s, w, Sweeping(end, false, true), Parking);
  }

  /** A worker that finds nothing sweeps twice and then parks. */
  lemma FindsNothing(s: State, w: nat)
    requires Reachable(s) && NothingFor(s, w) && s.workers[w].Polling?
    ensures Reachable(Become(s, w, Parking))
  {
    assert w < |s.workers|;
    hide Reachable, NothingFor, StepsTo;
    var end := EndOfSweep(s);
    SweepEnds(s, w);
    ReachableStep(s, Poll(w, BeginSweep), Become(s, w, Sweeping(0, false, false)));
    SweepsThrough(s, w, 0, false);
    ReachableStep(Become(s, w, Sweeping(end, false, false)), Poll(w, EndSweep), Become(s, w, Sweeping(0, false, true)));
    SweepsThrough(s, w, 0, true);
    ReachableStep(Become(s, w, Sweeping(end, false, true)), Poll(w, EndSweep), Become(s, w, Parking));
  }

  // ---------- a request that comes while the workers exit ----------

  const COLLECTING: Goals := Goals(Some(Gc), false, false)

  const CLOSED: Buckets :=
    [Bucket(true, false, 0, false), Bucket(false, false, 0, false), Bucket(false, false, 0, false)]

  /** One worker, no packets. */
  function Lone(x: Worker, goals: Goals, asking: bool, forking: bool, group: Group, holder: Option<Goal>): State {
    State([x], [multiset{}], [multiset{}], CLOSED, Empty, 0, 0, goals, asking, if asking then 1 else 0, false, forking,
      group, holder)
  }

  lemma ForkIsRequested()
    ensures Reachable(Lone(Polling, Goals(None, false, true), false, false, Surrendered([]), None))
  {
    var none := Goals(None, false, false);
    var s0 := Lone(Polling, none, false, false, Spawned, None);
    var s1 := Lone(Polling, none, false, true, Surrendered([]), None);
    var s2 := Lone(Polling, none, false, true, Surrendered([]), Some(StopForFork));
    var s3 := Lone(Polling, Goals(None, false, true), false, false, Surrendered([]), None);
    assert StepsTo(s0, Mutator(PrepareFork), s1);
    assert StepsTo(s1, Mutator(EnterFork), s2);
    assert StepsTo(s2, Mutator(RequestFork(None)), s3);
    InitialReachable(s0);
    hide Reachable, StepsTo;
    ReachableStep(s0, Mutator(PrepareFork), s1);
    ReachableStep(s1, Mutator(EnterFork), s2);
    ReachableStep(s2, Mutator(RequestFork(None)), s3);
  }

  lemma LoneExits()
    ensures Reachable(Lone(Exiting, Goals(Some(StopForFork), false, false), false, false, Surrendered([]), None))
  {
    var s3 := Lone(Polling, Goals(None, false, true), false, false, Surrendered([]), None);
    var s4 := Lone(Parking, Goals(None, false, true), false, false, Surrendered([]), None);
    var s5 := Lone(Exiting, Goals(Some(StopForFork), false, false), false, false, Surrendered([]), None);
    ForkIsRequested();
    assert NothingFor(s3, 0);
    assert Become(s3, 0, Parking) == s4;
    assert StepsTo(s4, Monitor(0, LastPark), s5) by {
      assert s4.designated[0] == multiset{};
    }
    hide Reachable, StepsTo, NothingFor;
    FindsNothing(s3, 0);
    ReachableStep(s4, Monitor(0, LastPark), s5);
  }

  /** The panic of on_all_workers_exited is real: a mutator asks for a collection while the last worker surrenders. */
  lemma LastSurrenderCanPanic() returns (s: State)
    ensures Reachable(s) && Enabled(s, Monitor(0, Surrender)) && Panics(s, Monitor(0, Surrender))
  {
    var stop := Goals(Some(StopForFork), false, false);
    var s5 := Lone(Exiting, stop, false, false, Surrendered([]), None);
    var s6 := Lone(Exiting, stop, true, false, Surrendered([]), None);
    s := Lone(Exiting, stop, true, false, Surrendered([]), Some(Gc));
    LoneExits();
    assert StepsTo(s5, Mutator(Swap), s6);
    assert StepsTo(s6, Mutator(EnterGc), s);
    hide Reachable, StepsTo;
    ReachableStep(s5, Mutator(Swap), s6);
    ReachableStep(s6, Mutator(EnterGc), s);
  }

  // ---------- respawning before everybody has surrendered ----------

  /** respawn takes the workers that are in the group, without looking how many there are. */
  function RespawnGiven(s: State): State
    requires s.group.Surrendered?
  {
    s.(workers := seq(|s.workers|,
      w requires 0 <= w < |s.workers| => if w in s.group.workers then Polling else s.workers[w]),
       group := Spawned)
  }

  lemma SomeoneIsLeft(s: State) returns (w: nat)
    requires Inv(s) && s.goals.current == Some(StopForFork)
    ensures s.group.Surrendered? && IsWorker(s, w) && w !in s.group.workers
    ensures s.workers[w].Exiting? || (s.workers[w] == Parked(true) && s.parked > 0)
  {
    assert Forking(s) && Shape(s) && Counted(s);
    hide Inv;
    w :| 0 <= w < |s.workers| && !s.workers[w].Exited?;
    assert Leaving(s.workers[w]) && w !in s.group.workers;
    hide Forking;
    CountUpdate(s.workers, w, Polling);
  }

  lemma LeavesAlone(s: State, w: nat)
    requires IsWorker(s, w) && s.goals.current == Some(StopForFork) && s.holder == None && s.parked > 0
    requires s.workers[w].Parked?
    ensures StepsTo(s, Monitor(w, Unpark), Become(s, w, Exiting).(parked := s.parked - 1))
  {
  }

  /** Respawning while the workers are leaving lets one of them panic: it has no group to surrender to. */
  lemma EarlyRespawnPanics(s: State) returns (w: nat, steps: seq<Step>)
    requires Reachable(s) && s.goals.current == Some(StopForFork) && s.holder == None
    ensures s.group.Surrendered? && IsRun(RespawnGiven(s), steps)
    ensures var t := Run(RespawnGiven(s), steps); Enabled(t, Monitor(w, Surrender)) && Panics(t, Monitor(w, Surrender))
  {
    ReachableInv(s);
    w := SomeoneIsLeft(s);
    hide Inv, Reachable;
    var t := RespawnGiven(s);
    assert t.workers[w] == s.workers[w];
    steps := [];
    if s.workers[w].Parked? {
      LeavesAlone(t, w);
      assert IsRun(Apply(t, Monitor(w, Unpark)), []);
      RunCons(t, Monitor(w, Unpark), []);
      steps := [Monitor(w, Unpark)] + [];
      hide IsRun, Run;
    }
  }

  // ---------- stopping comes to its end ----------

  function ToLeave(x: Worker): nat {
    if x.Exited? then 0 else if x.Exiting? then 1 else 2
  }

  function AllToLeave(ws: seq<Worker>): seq<nat> {
    seq(|ws|, w requires 0 <= w < |ws| => ToLeave(ws[w]))
  }

  lemma LeavesFurther(ws: seq<Worker>, w: nat, x: Worker)
    requires w < |ws| && ToLeave(x) < ToLeave(ws[w])
    ensures Sum(AllToLeave(ws[w := x])) < Sum(AllToLeave(ws))
  {
    SumLess(AllToLeave(ws[w := x]), AllToLeave(ws), w);
  }

  lemma SurrenderLeaves(s: State, w: nat)
    requires IsWorker(s, w) && s.workers[w].Exiting? && s.group.Surrendered? && s.holder == None
    ensures Enabled(s, Monitor(w, Surrender)) && !Panics(s, Monitor(w, Surrender))
    ensures var t := Apply(s, Monitor(w, Surrender));
      t.workers == s.workers[w := Exited] && t.holder == None && |t.group.workers| == |s.group.workers| + 1
  {
  }

  /** One worker goes on with leaving. */
  lemma LeaveStep(s: State) returns (step: Step)
    requires Inv(s) && s.goals.current == Some(StopForFork) && s.holder == None
    ensures step.Monitor? && Enabled(s, step) && !Panics(s, step)
    ensures var t := Apply(s, step);
      Inv(t) && t.holder == None && Sum(AllToLeave(t.workers)) < Sum(AllToLeave(s.workers))
      && (t.goals.current == Some(StopForFork) || (t.goals.current == None && AllExited(t.workers)))
  {
    var w := SomeoneIsLeft(s);
    if s.workers[w].Exiting? {
      step := Monitor(w, Surrender);
      SurrenderLeaves(s, w);
      LeavesFurther(s.workers, w, Exited);
    } else {
      step := Monitor(w, Unpark);
      LeavesAlone(s, w);
      LeavesFurther(s.workers, w, Exiting);
    }
    StepKeeps(s, step);
    StopStep(s, step);
    hide Inv, Apply, Enabled, Panics;
  }

  lemma {:induction false} LeaversExit(s: State) returns (steps: seq<Step>)
    requires Inv(s) && s.goals.current == Some(StopForFork) && s.holder == None
    ensures IsRun(s, steps) && AllExited(Run(s, steps).workers) && Run(s, steps).goals.current == None
    ensures forall i :: 0 <= i < |steps| ==> steps[i].Monitor?
    decreases Sum(AllToLeave(s.workers))
  {
    hide Inv, Apply, Enabled, Panics, AllExited;
    var step := LeaveStep(s);
    var t, rest := Apply(s, step), [];
    if t.goals.current == Some(StopForFork) {
      rest := LeaversExit(t);
    }
    RunCons(s, step, rest);
    steps := [step] + rest;
  }

  /** In every reachable state: workers that are to stop can all surrender, which clears the goal. */
  lemma StopCanEnd(s: State) returns (steps: seq<Step>)
    requires Reachable(s) && s.goals.current == Some(StopForFork) && s.holder == None
    ensures IsRun(s, steps) && AllExited(Run(s, steps).workers) && Run(s, steps).goals.current == None
    ensures forall i :: 0 <= i < |steps| ==> steps[i].Monitor?
  {
    ReachableInv(s);
    hide Inv, Reachable, IsRun, Run;
    steps := LeaversExit(s);
  }

  // ---------- opening the first stages ----------

  /** `t` is `s` after a worker has opened the first stage, and the second one too if `both`, and told everybody. */
  ghost predicate Paused(s: State, w: nat, both: bool, t: State) {
    && IsWorker(s, w) && |s.buckets| >= 3
    && t == s.(workers := t.workers, buckets := t.buckets) && |t.workers| == |s.workers| && |t.buckets| == |s.buckets|
    && t.workers[w] == Polling
    && (forall v :: 0 <= v < |s.workers| && v != w ==> t.workers[v] == Notified(s.workers[v]))
    && t.buckets[1] == s.buckets[1].(active := true)
    && t.buckets[2] == (if both then s.buckets[2].(active := true) else s.buckets[2])
    && (forall b :: 0 <= b < |s.buckets| && b != 1 && b != 2 ==> t.buckets[b] == s.buckets[b])
  }

  function Opening(s: State, w: nat, p: Phase, both: bool): State
    requires IsWorker(s, w) && |s.buckets| >= 3
  {
    var bs := s.buckets[1 := s.buckets[1].(active := true)];
    s.(workers := s.workers[w := Pausing(p)], buckets := if both then bs[2 := bs[2].(active := true)] else bs)
  }

  lemma OpensFirst(s: State, w: nat)
    requires IsWorker(s, w) && |s.buckets| >= 3 && s.workers[w] == Pausing(Cleared)
    ensures StepsTo(s, Pauser(w, OpenFirst), Opening(s, w, FirstOpen, false))
    ensures StepsTo(Opening(s, w, FirstOpen, false), Pauser(w, ReadEmpty),
                    Opening(s, w, if s.buckets[1].IsEmpty() then FirstEmpty else Opened, false))
  {
    var p := if s.buckets[1].IsEmpty() then FirstEmpty else Opened;
    assert s.workers[w := Pausing(FirstOpen)][w := Pausing(p)] == s.workers[w := Pausing(p)];
  }

  lemma OpensSecond(s: State, w: nat)
    requires IsWorker(s, w) && |s.buckets| >= 3
    ensures StepsTo(Opening(s, w, FirstEmpty, false), Pauser(w, ReadParked(true)),
                    Opening(s, w, if s.parked + 1 == |s.workers| then OthersParked else Opened, false))
    ensures StepsTo(Opening(s, w, OthersParked, false), Pauser(w, OpenSecond), Opening(s, w, Opened, true))
  {
    var p := if s.parked + 1 == |s.workers| then OthersParked else Opened;
    assert s.workers[w := Pausing(FirstEmpty)][w := Pausing(p)] == s.workers[w := Pausing(p)];
    assert s.workers[w := Pausing(OthersParked)][w := Pausing(Opened)] == s.workers[w := Pausing(Opened)];
  }

  lemma TellsEverybody(s: State, w: nat, both: bool) returns (t: State)
    requires IsWorker(s, w) && |s.buckets| >= 3
    ensures StepsTo(Opening(s, w, Opened, both), Pauser(w, NotifyPaused), t) && Paused(s, w, both, t)
  {
    t := Apply(Opening(s, w, Opened, both), Pauser(w, NotifyPaused));
  }

  lemma RunStep(s: State, step: Step, t: State, rest: seq<Step>)
    requires StepsTo(s, step, t) && IsRun(t, rest)
    ensures IsRun(s, [step] + rest) && Run(s, [step] + rest) == Run(t, rest)
  {
    RunCons(s, step, rest);
  }

  lemma RunEnds(s: State, step: Step, t: State)
    requires StepsTo(s, step, t)
    ensures IsRun(s, [step]) && Run(s, [step]) == t
  {
    assert [step][1..] == [];
  }

  /**
   notify_mutators_paused without interference: the first stage is opened, the second one exactly if the first is
   empty and all other workers are parked, and every parked worker is notified.
   */
  lemma PauseAlone(s: State, w: nat) returns (steps: seq<Step>)
    requires IsWorker(s, w) && |s.buckets| >= 3 && s.workers[w] == Pausing(Cleared)
    ensures IsRun(s, steps) && forall i :: 0 <= i < |steps| ==> steps[i].Pauser? && steps[i].w == w
    ensures Paused(s, w, s.buckets[1].IsEmpty() && s.parked + 1 == |s.workers|, Run(s, steps))
  {
    var empty, quiet := s.buckets[1].IsEmpty(), s.parked + 1 == |s.workers|;
    OpensFirst(s, w);
    OpensSecond(s, w);
    hide StepsTo, IsRun, Run, Opening, Paused;
    var t := TellsEverybody(s, w, empty && quiet);
    steps := [Pauser(w, NotifyPaused)];
    RunEnds(Opening(s, w, Opened, empty && quiet), Pauser(w, NotifyPaused), t);
    if empty {
      if quiet {
        RunStep(Opening(s, w, OthersParked, false), Pauser(w, OpenSecond), Opening(s, w, Opened, true), steps);
        steps := [Pauser(w, OpenSecond)] + steps;
      }
      var p := if quiet then OthersParked else Opened;
      RunStep(Opening(s, w, FirstEmpty, false), Pauser(w, ReadParked(true)), Opening(s, w, p, false), steps);
      steps := [Pauser(w, ReadParked(true))] + steps;
    }
    var q := if empty then FirstEmpty else Opened;
    RunStep(Opening(s, w, FirstOpen, false), Pauser(w, ReadEmpty), Opening(s, w, q, false), steps);
    steps := [Pauser(w, ReadEmpty)] + steps;
    RunStep(s, Pauser(w, OpenFirst), Opening(s, w, FirstOpen, false), steps);
    steps := [Pauser(w, OpenFirst)] + steps;
  }

  // ---------- why nobody may overtake ----------

  /** Two workers and three stages, the first of them always done; `m` is the designated work of the second worker. */
  datatype Two = Two(x: Worker, y: Worker, open: int, count: nat, front: Front, m: multiset<nat>, goals: Goals)

  /** `open` stages are open, and the last one has `count` packets. */
  function Stages3(open: int, count: nat): Buckets {
    [Bucket(true, false, 0, false), Bucket(open >= 1, false, 0, false), Bucket(open >= 2, false, count, false)]
  }

  function Pair(p: Two, parked: nat, flag: bool, requesters: nat, paused: bool, holder: Option<Goal>): State {
    State([p.x, p.y], [multiset{}, multiset{}], [multiset{}, p.m], Stages3(p.open, p.count), p.front, 0, parked,
          p.goals, flag, requesters, paused, false, Spawned, holder)
  }

  lemma PairRequests()
    ensures Reachable(Pair(Two(Polling, Polling, 0, 0, Empty, multiset{}, Goals(None, true, false)), 0, true, 0, false,
      None))
  {
    var p := Two(Polling, Polling, 0, 0, Empty, multiset{}, Goals(None, false, false));
    var s0, s1 := Pair(p, 0, false, 0, false, None), Pair(p, 0, true, 1, false, None);
    var s2 := Pair(p, 0, true, 1, false, Some(Gc));
    var s3 := Pair(p.(goals := Goals(None, true, false)), 0, true, 0, false, None);
    assert StepsTo(s0, Mutator(Swap), s1);
    assert StepsTo(s1, Mutator(EnterGc), s2);
    assert StepsTo(s2, Mutator(RequestGc(None)), s3);
    InitialReachable(s0);
    hide Reachable, StepsTo;
    ReachableStep(s0, Mutator(Swap), s1);
    ReachableStep(s1, Mutator(EnterGc), s2);
    ReachableStep(s2, Mutator(RequestGc(None)), s3);
  }

  lemma PairParks()
    ensures Reachable(Pair(Two(Parking, Parked(false), 0, 0, Empty, multiset{}, Goals(None, true, false)), 1, true, 0,
      false, None))
  {
    var p := Two(Polling, Polling, 0, 0, Empty, multiset{}, Goals(None, true, false));
    var s0 := Pair(p, 0, true, 0, false, None);
    var s1 := Pair(p.(y := Parking), 0, true, 0, false, None);
    var s2 := Pair(p.(y := Parked(false)), 1, true, 0, false, None);
    PairRequests();
    assert NothingFor(s0, 1) && Become(s0, 1, Parking) == s1;
    assert StepsTo(s1, Monitor(1, Park), s2);
    assert NothingFor(s2, 0) &&
      Become(s2, 0, Parking) == Pair(p.(x := Parking, y := Parked(false)), 1, true, 0, false, None);
    hide Reachable, StepsTo, NothingFor;
    FindsNothing(s0, 1);
    ReachableStep(s1, Monitor(1, Park), s2);
    FindsNothing(s2, 0);
  }

  lemma PairIsAnswered()
    ensures Reachable(Pair(Two(Sweeping(0, false, true), Parked(false), 0, 0, Schedule, multiset{}, COLLECTING), 1,
      true, 0, false, None))
  {
    var p := Two(Parking, Parked(false), 0, 0, Empty, multiset{}, Goals(None, true, false));
    var q := Two(Sweeping(0, false, true), Parked(false), 0, 0, Schedule, multiset{}, COLLECTING);
    var s0, s1 := Pair(p, 1, true, 0, false, None), Pair(q, 1, true, 0, false, None);
    PairParks();
    assert StepsTo(s0, Monitor(0, LastPark), s1);
    hide Reachable, StepsTo;
    ReachableStep(s0, Monitor(0, LastPark), s1);
  }

  lemma PairSchedules()
    ensures Reachable(Pair(Two(Scheduling(false), Parked(false), 0, 0, Empty, multiset{}, COLLECTING), 1, true, 0,
      false, None))
  {
    var p := Two(Sweeping(0, false, true), Parked(false), 0, 0, Schedule, multiset{}, COLLECTING);
    var s0 := Pair(p, 1, true, 0, false, None);
    var s1 := Pair(p.(x := Sweeping(1, false, true)), 1, true, 0, false, None);
    var s2 := Pair(p.(x := Scheduling(false), front := Empty), 1, true, 0, false, None);
    PairIsAnswered();
    assert StepsTo(s0, Poll(0, Advance), s1);
    assert StepsTo(s1, Poll(0, TakeFront), s2);
    hide Reachable, StepsTo;
    ReachableStep(s0, Poll(0, Advance), s1);
    ReachableStep(s1, Poll(0, TakeFront), s2);
  }

  lemma PairIssues()
    ensures Reachable(Pair(Two(Polling, Parked(false), 0, 1, Stop, multiset{}, COLLECTING), 1, true, 0, false, None))
  {
    var p := Two(Scheduling(false), Parked(false), 0, 0, Empty, multiset{}, COLLECTING);
    var s0 := Pair(p, 1, true, 0, false, None);
    var s1 := Pair(p.(count := 1), 1, true, 0, false, None);
    var s2 := Pair(p.(x := Scheduling(true), count := 1, front := Stop), 1, true, 0, false, None);
    var s3 := Pair(p.(x := Polling, count := 1, front := Stop), 1, true, 0, false, None);
    PairSchedules();
    assert StepsTo(s0, Packet(0, AddBucket(2)), s1);
    assert StepsTo(s1, Packet(0, IssueStop), s2);
    assert StepsTo(s2, Packet(0, Finish), s3);
    hide Reachable, StepsTo;
    ReachableStep(s0, Packet(0, AddBucket(2)), s1);
    ReachableStep(s1, Packet(0, IssueStop), s2);
    ReachableStep(s2, Packet(0, Finish), s3);
  }

  lemma PairSeesStop()
    ensures Reachable(Pair(Two(Sweeping(1, false, false), Parked(false), 0, 1, Stop, multiset{}, COLLECTING), 1, true,
      0, false, None))
  {
    var p := Two(Polling, Parked(false), 0, 1, Stop, multiset{}, COLLECTING);
    var s0 := Pair(p, 1, true, 0, false, None);
    var s1 := Pair(p.(x := Sweeping(0, false, false)), 1, true, 0, false, None);
    var s2 := Pair(p.(x := Sweeping(1, false, false)), 1, true, 0, false, None);
    PairIssues();
    assert StepsTo(s0, Poll(0, BeginSweep), s1);
    assert StepsTo(s1, Poll(0, Advance), s2);
    hide Reachable, StepsTo;
    ReachableStep(s0, Poll(0, BeginSweep), s1);
    ReachableStep(s1, Poll(0, Advance), s2);
  }

  lemma PairTakesStop()
    ensures Reachable(Pair(Two(Pausing(Stopping), Parked(false), 0, 1, Empty, multiset{}, COLLECTING), 1, true, 0,
      false, None))
  {
    var p := Two(Sweeping(1, false, false), Parked(false), 0, 1, Stop, multiset{}, COLLECTING);
    var s0 := Pair(p, 1, true, 0, false, None);
    var s1 := Pair(p.(x := Pausing(Stopping), front := Empty), 1, true, 0, false, None);
    PairSeesStop();
    assert StepsTo(s0, Poll(0, TakeFront), s1);
    hide Reachable, StepsTo;
    ReachableStep(s0, Poll(0, TakeFront), s1);
  }

  lemma PairOpensFirst()
    ensures Reachable(Pair(Two(Pausing(FirstEmpty), Parked(false), 1, 1, Empty, multiset{}, COLLECTING), 1, false, 0,
      true, None))
  {
    var p := Two(Pausing(Stopping), Parked(false), 0, 1, Empty, multiset{}, COLLECTING);
    var s0 := Pair(p, 1, true, 0, false, None);
    var s1 := Pair(p.(x := Pausing(Cleared)), 1, false, 0, true, None);
    var s2 := Pair(p.(x := Pausing(FirstOpen), open := 1), 1, false, 0, true, None);
    var s3 := Pair(p.(x := Pausing(FirstEmpty), open := 1), 1, false, 0, true, None);
    PairTakesStop();
    assert StepsTo(s0, Pauser(0, Pause), s1);
    assert StepsTo(s1, Pauser(0, OpenFirst), s2);
    assert StepsTo(s2, Pauser(0, ReadEmpty), s3);
    hide Reachable, StepsTo;
    ReachableStep(s0, Pauser(0, Pause), s1);
    ReachableStep(s1, Pauser(0, OpenFirst), s2);
    ReachableStep(s2, Pauser(0, ReadEmpty), s3);
  }

  lemma PairOpensSecond()
    ensures Reachable(Pair(Two(Pausing(Opened), Parked(false), 2, 1, Empty, multiset{}, COLLECTING), 1, false, 0, true,
      None))
  {
    var p := Two(Pausing(FirstEmpty), Parked(false), 1, 1, Empty, multiset{}, COLLECTING);
    var s0 := Pair(p, 1, false, 0, true, None);
    var s1 := Pair(p.(x := Pausing(OthersParked)), 1, false, 0, true, None);
    var s2 := Pair(p.(x := Pausing(Opened), open := 2), 1, false, 0, true, None);
    PairOpensFirst();
    assert StepsTo(s0, Pauser(0, ReadParked(true)), s1);
    assert StepsTo(s1, Pauser(0, OpenSecond), s2);
    hide Reachable, StepsTo;
    ReachableStep(s0, Pauser(0, ReadParked(true)), s1);
    ReachableStep(s1, Pauser(0, OpenSecond), s2);
  }

  lemma PairNotifies()
    ensures Reachable(Pair(Two(Polling, Parked(true), 2, 1, Empty, multiset{}, COLLECTING), 1, false, 0, true, None))
  {
    var p := Two(Pausing(Opened), Parked(false), 2, 1, Empty, multiset{}, COLLECTING);
    var s0 := Pair(p, 1, false, 0, true, None);
    var s1 := Pair(p.(x := Polling, y := Parked(true)), 1, false, 0, true, None);
    PairOpensSecond();
    assert NotifyAll(s0.workers)[0 := Polling] == s1.workers;
    assert StepsTo(s0, Pauser(0, NotifyPaused), s1);
    hide Reachable, StepsTo;
    ReachableStep(s0, Pauser(0, NotifyPaused), s1);
  }

  /** Position `1 + b` of the sweep when the packet of the last stage is still there. */
  lemma PairSweeps(pos: nat)
    requires pos < 3
    ensures var p := Two(Sweeping(pos, false, false), Parked(true), 2, 1, Empty, multiset{}, COLLECTING);
      StepsTo(Pair(p, 1, false, 0, true, None), Poll(0, Advance),
              Pair(p.(x := Sweeping(pos + 1, false, false)), 1, false, 0, true, None))
  {
  }

  lemma PairFinds()
    ensures Reachable(Pair(Two(Sweeping(3, false, false), Parked(true), 2, 1, Empty, multiset{}, COLLECTING), 1, false,
      0, true, None))
  {
    var p := Two(Polling, Parked(true), 2, 1, Empty, multiset{}, COLLECTING);
    var s0 := Pair(p, 1, false, 0, true, None);
    var s1 := Pair(p.(x := Sweeping(0, false, false)), 1, false, 0, true, None);
    var s2 := Pair(p.(x := Sweeping(1, false, false)), 1, false, 0, true, None);
    var s3 := Pair(p.(x := Sweeping(2, false, false)), 1, false, 0, true, None);
    PairNotifies();
    assert StepsTo(s0, Poll(0, BeginSweep), s1);
    hide Reachable, StepsTo, Pair;
    ReachableStep(s0, Poll(0, BeginSweep), s1);
    PairSweeps(0);
    ReachableStep(s1, Poll(0, Advance), s2);
    PairSweeps(1);
    ReachableStep(s2, Poll(0, Advance), s3);
    PairSweeps(2);
    ReachableStep(s3, Poll(0, Advance), Pair(p.(x := Sweeping(3, false, false)), 1, false, 0, true, None));
  }

  lemma PairTakes()
    ensures Reachable(Pair(Two(Running(2), Parked(true), 2, 0, Empty, multiset{}, COLLECTING), 1, false, 0, true, None))
  {
    var p := Two(Sweeping(3, false, false), Parked(true), 2, 1, Empty, multiset{}, COLLECTING);
    var s0 := Pair(p, 1, false, 0, true, None);
    var s1 := Pair(p.(x := Running(2), count := 0), 1, false, 0, true, None);
    PairFinds();
    TakeBucketShape(s0, 0, 2);
    assert StepsTo(s0, Poll(0, TakeBucket(2, 0)), s1) by {
      hide DoPoll;
    }
    hide Reachable, StepsTo;
    ReachableStep(s0, Poll(0, TakeBucket(2, 0)), s1);
  }

  /** The second worker is notified and has designated work, everything else is done. */
  function Waiting(x: Worker): State {
    Pair(Two(x, Parked(true), 2, 0, Empty, multiset{2}, COLLECTING), 1, false, 0, true, None)
  }

  lemma WaitingReached()
    ensures Reachable(Waiting(Parking))
  {
    var p := Two(Running(2), Parked(true), 2, 0, Empty, multiset{}, COLLECTING);
    var s0, s1, s2 := Pair(p, 1, false, 0, true, None), Waiting(Running(2)), Waiting(Polling);
    PairTakes();
    assert multiset{} + multiset{2} == multiset{2};
    assert StepsTo(s0, Packet(0, AddDesignated(1)), s1);
    assert StepsTo(s1, Packet(0, Finish), s2);
    assert NothingFor(s2, 0) && Become(s2, 0, Parking) == Waiting(Parking);
    hide Reachable, StepsTo, NothingFor, Waiting;
    ReachableStep(s0, Packet(0, AddDesignated(1)), s1);
    ReachableStep(s1, Packet(0, Finish), s2);
    FindsNothing(s2, 0);
  }

  lemma WaitingSweeps(pos: nat)
    requires pos < 6
    ensures var s := Waiting(Sweeping(pos, false, true));
      Enabled(s, Poll(0, Advance)) && !Panics(s, Poll(0, Advance)) &&
        Apply(s, Poll(0, Advance)) == Waiting(Sweeping(pos + 1, false, true))
  {
  }

  lemma WaitingParks()
    ensures var s := Waiting(Sweeping(6, false, true));
      Enabled(s, Poll(0, EndSweep)) && !Panics(s, Poll(0, EndSweep)) && Apply(s, Poll(0, EndSweep)) == Waiting(Parking)
    ensures var s := Waiting(Parking);
      Enabled(s, Monitor(0, LastPark)) && !Panics(s, Monitor(0, LastPark)) &&
        Apply(s, Monitor(0, LastPark)) == Waiting(Sweeping(0, false, true))
  {
    var s := Waiting(Parking);
    assert s.designated[1] != multiset{};
    assert HasDesignated(s);
    assert NotifyAll(s.workers)[0 := Sweeping(0, false, true)] == [Sweeping(0, false, true), Parked(true)];
  }

  function Sweep(n: nat): seq<Step> {
    if n == 0 then [Poll(0, EndSweep)] else [Poll(0, Advance)] + Sweep(n - 1)
  }

  lemma {:induction false} SweepRuns(n: nat)
    requires n <= 6
    ensures IsRun(Waiting(Sweeping(6 - n, false, true)), Sweep(n))
    ensures Run(Waiting(Sweeping(6 - n, false, true)), Sweep(n)) == Waiting(Parking)
  {
    WaitingParks();
    hide Enabled, Apply, Panics, Waiting;
    if n == 0 {
      RunCons(Waiting(Sweeping(6, false, true)), Poll(0, EndSweep), []);
      assert [Poll(0, EndSweep)] + [] == Sweep(0);
    } else {
      WaitingSweeps(6 - n);
      SweepRuns(n - 1);
      RunCons(Waiting(Sweeping(6 - n, false, true)), Poll(0, Advance), Sweep(n - 1));
    }
  }

  /**
   A worker that parks last while a notified worker with designated work waits may go on for ever:
   it wakes itself, sweeps, and parks again, and the state is what it was.
   */
  lemma OvertakingGoesInCircles() returns (steps: seq<Step>)
    ensures Reachable(Waiting(Parking)) && |steps| > 0
    ensures IsRun(Waiting(Parking), steps) && Run(Waiting(Parking), steps) == Waiting(Parking)
  {
    WaitingReached();
    WaitingParks();
    SweepRuns(6);
    hide Reachable, Panics, Enabled, Apply, Waiting, IsRun, Run;
    RunCons(Waiting(Parking), Monitor(0, LastPark), Sweep(6));
    steps := [Monitor(0, LastPark)] + Sweep(6);
  }
}
