/** The protocol does not deadlock: with something to do, some worker that is up can take a step. */
module SchedulerProgress {
  import opened Wrappers
  import opened WorkBuckets
  import opened WorkerGoals
  import opened SchedulerProtocol
  import opened SchedulerInvariants
  import opened SchedulerSteps
  import opened SchedulerLastPark
  import opened SchedulerTheorems

  // ---------- sweeps stay inside the queues ----------

  predicate InSweep(s: State, x: Worker) {
    x.Sweeping? ==> x.pos <= EndOfSweep(s)
  }

  ghost predicate SweepsBounded(s: State) {
    forall w :: 0 <= w < |s.workers| ==> InSweep(s, s.workers[w])
  }

  /** No step changes the number of workers or buckets, or lets another worker sweep. */
  lemma PollBounds(s: State, w: nat, step: PollStep)
    requires SweepsBounded(s) && CanPoll(s, w, step)
    ensures SweepsBounded(DoPoll(s, w, step))
  {
    assert InSweep(s, s.workers[w]);
    assert EndOfSweep(DoPoll(s, w, step)) == EndOfSweep(s);
  }

  lemma PacketBounds(s: State, w: nat, step: PacketStep)
    requires SweepsBounded(s) && CanPacket(s, w, step)
    ensures SweepsBounded(DoPacket(s, w, step))
  {
    assert EndOfSweep(DoPacket(s, w, step)) == EndOfSweep(s);
  }

  lemma PauseBounds(s: State, w: nat, step: PauseStep)
    requires SweepsBounded(s) && CanPause(s, w, step)
    ensures SweepsBounded(DoPause(s, w, step))
  {
    assert EndOfSweep(DoPause(s, w, step)) == EndOfSweep(s);
  }

  lemma CallbackKeepsLength(s: State)
    requires OpenUpTo(s.buckets, s.progress)
    ensures Callback(s).Outcome? ==> |Callback(s).scene.buckets| == |s.buckets|
  {
    hide OpenFrom, HasSentinel;
  }

  lemma MonitorBounds(s: State, w: nat, step: ParkStep)
    requires SweepsBounded(s) && CanMonitor(s, w, step)
    ensures SweepsBounded(DoMonitor(s, w, step))
  {
    if step == LastPark {
      CallbackKeepsLength(s);
      hide Callback;
    }
  }

  lemma MutatorBounds(s: State, step: MutatorStep)
    requires SweepsBounded(s) && CanMutator(s, step)
    ensures SweepsBounded(DoMutator(s, step))
  {
    assert EndOfSweep(DoMutator(s, step)) == EndOfSweep(s);
  }

  lemma StepBounds(s: State, step: Step)
    requires SweepsBounded(s) && Enabled(s, step)
    ensures SweepsBounded(Apply(s, step))
  {
    hide SweepsBounded, CanPacket, CanPoll, CanPause, CanMonitor, CanMutator, DoPacket, DoPoll, DoPause, DoMonitor,
      DoMutator;
    match step
    case Packet(w, x) => PacketBounds(s, w, x);
    case Poll(w, x) => PollBounds(s, w, x);
    case Monitor(w, x) => MonitorBounds(s, w, x);
    case Pauser(w, x) => PauseBounds(s, w, x);
    case Mutator(x) => MutatorBounds(s, x);
  }

  lemma {:induction false} RunBounds(s: State, steps: seq<Step>)
    requires SweepsBounded(s) && IsRun(s, steps)
    ensures SweepsBounded(Run(s, steps))
    decreases |steps|
  {
    hide SweepsBounded, Enabled, Apply;
    if steps != [] {
      StepBounds(s, steps[0]);
      RunBounds(Apply(s, steps[0]), steps[1..]);
    }
  }

  lemma ReachableBounds(s: State)
    requires Reachable(s)
    ensures SweepsBounded(s)
  {
    var start, steps :| Initial(start) && IsRun(start, steps) && Run(start, steps) == s;
    hide IsRun, Run;
    RunBounds(start, steps);
  }

  // ---------- the next step of a worker ----------

  /** What a worker that is up does next, if its packet has nothing more to add. */
  ghost function NextOf(s: State, w: nat): Step
    requires IsWorker(s, w) && Awake(s.workers[w])
  {
    match s.workers[w]
    case Running(_) => Packet(w, Finish)
    case Scheduling(issued) => Packet(w, if issued then Finish else IssueStop)
    case Pausing(p) => Pauser(w, NextPause(p))
    case Polling =>
      if s.local[w] != multiset{} then Poll(w, TakeLocal(Some1(s.local[w]))) else Poll(w, BeginSweep)
    case Sweeping(_, _, _) => Poll(w, NextPoll(s, w))
    case Parking => Monitor(w, if s.parked + 1 == |s.workers| then LastPark else Park)
    case Parked(_) => Monitor(w, Unpark)
    case Exiting => Monitor(w, Surrender)
    case Exited => Monitor(w, Surrender)
  }

  function NextPause(p: Phase): PauseStep {
    match p
    case Stopping => Pause
    case Cleared => OpenFirst
    case FirstOpen => ReadEmpty
    case FirstEmpty => ReadParked(true)
    case OthersParked => OpenSecond
    case Opened => NotifyPaused
  }

  ghost function Some1(m: multiset<nat>): (i: nat)
    requires m != multiset{}
    ensures i in m
  {
    var i :| i in m;
    i
  }

  /** A sweeping worker takes what it finds, and goes on otherwise. */
  ghost function NextPoll(s: State, w: nat): PollStep
    requires IsWorker(s, w) && s.workers[w].Sweeping?
  {
    var pos := s.workers[w].pos;
    if pos >= EndOfSweep(s) then EndSweep
    else if NothingAt(s, w) then Advance
    else if pos == 0 then TakeDesignated(Some1(s.designated[w]))
    else if pos == 1 then TakeFront
    else if pos <= |s.buckets| then TakeBucket(pos - 1, 0)
    else Steal(pos - 1 - |s.buckets|, Some1(s.local[pos - 1 - |s.buckets|]))
  }

  lemma SweeperCanGoOn(s: State, w: nat)
    requires IsWorker(s, w) && s.workers[w].Sweeping? && InSweep(s, s.workers[w])
    ensures Enabled(s, NextOf(s, w))
  {
  }

  lemma PauserCanGoOn(s: State, w: nat)
    requires Inv(s) && IsWorker(s, w) && s.workers[w].Pausing?
    ensures Enabled(s, NextOf(s, w))
  {
    assert PhaseHolds(s, s.workers[w].phase) && !Idle(s.workers[w]);
    assert Requested(s) && GoalHolds(s) && Shape(s);
    hide Inv, CanPacket, CanPoll, CanMonitor;
  }

  lemma ParkerCanGoOn(s: State, w: nat)
    requires Inv(s) && s.holder == None && IsWorker(s, w)
    requires s.workers[w].Parking? || s.workers[w] == Parked(true)
    ensures Enabled(s, NextOf(s, w))
  {
    assert Counted(s) && Shape(s);
    hide Inv, CanPacket, CanPoll, CanPause;
    CountUpdate(s.workers, w, Polling);
  }

  lemma OthersCanGoOn(s: State, w: nat)
    requires IsWorker(s, w)
    requires s.workers[w].Running? || s.workers[w].Scheduling? || s.workers[w].Polling? || s.workers[w].Exiting?
    ensures Enabled(s, NextOf(s, w))
  {
  }

  /** A worker that is up can always take its next step, unless it has to wait for the mutex. */
  lemma AwakeCanGoOn(s: State, w: nat)
    requires Inv(s) && s.holder == None && SweepsBounded(s) && IsWorker(s, w) && Awake(s.workers[w])
    ensures Enabled(s, NextOf(s, w))
  {
    assert InSweep(s, s.workers[w]);
    hide Inv, SweepsBounded, InSweep, NextOf, Enabled;
    match s.workers[w]
    case Pausing(_) => PauserCanGoOn(s, w);
    case Sweeping(_, _, _) => SweeperCanGoOn(s, w);
    case Parking => ParkerCanGoOn(s, w);
    case Parked(_) => ParkerCanGoOn(s, w);
    case _ => OthersCanGoOn(s, w);
  }

  /** A worker for notify_one to wake. */
  lemma SomeoneToWake(s: State) returns (woken: Option<nat>)
    ensures Wakes(s, woken)
  {
    if v :| 0 <= v < |s.workers| && s.workers[v] == Parked(false) {
      woken := Some(v);
    } else {
      woken := None;
    }
  }

  /** The step with which a mutator leaves make_request. */
  predicate Releases(step: Step) {
    step.Mutator? && (step.mutator.RequestGc? || step.mutator.RequestFork?)
  }

  /** A mutator that holds the mutex can always finish its request and release it. */
  lemma HolderCanGoOn(s: State) returns (step: Step)
    requires HolderRequests(s) && s.holder.Some?
    ensures Releases(step) && Enabled(s, step) && !Panics(s, step)
    ensures Apply(s, step).holder == None && Apply(s, step).goals.current == s.goals.current
  {
    var woken := SomeoneToWake(s);
    match s.holder.value
    case Gc => step := Mutator(RequestGc(woken));
    case StopForFork => step := Mutator(RequestFork(woken));
  }

  /**
   No deadlock: in every reachable state with a goal to reach or a request to serve, unless all workers have
   exited, there is a worker that is up or notified and whose next step can be taken.  While a mutator holds the
   mutex it is the mutator that can take a step, and that step releases the mutex.
   */
  lemma NeverDeadlocks(s: State)
    requires Reachable(s) && !AllExited(s.workers)
    requires s.goals.current.Some? || s.goals.gcRequested || s.goals.forkRequested
    ensures s.holder == None ==> exists w: nat {:trigger IsWorker(s, w)} ::
      IsWorker(s, w) && Awake(s.workers[w]) && Enabled(s, NextOf(s, w)) && !Panics(s, NextOf(s, w))
    ensures s.holder.Some? ==> exists step ::
      Releases(step) && Enabled(s, step) && !Panics(s, step) && Apply(s, step).holder == None
  {
    ReachableInv(s);
    ReachableBounds(s);
    NeverStalls(s);
    assert HolderRequests(s) && Shape(s);
    var w :| 0 <= w < |s.workers| && Awake(s.workers[w]);
    assert IsWorker(s, w);
    hide Inv, SweepsBounded, Enabled, Panics, Apply, NextOf, Releases, Reachable;
    if s.holder == None {
      AwakeCanGoOn(s, w);
      PanicsWhen(s, NextOf(s, w));
    } else {
      var step := HolderCanGoOn(s);
    }
  }
}
