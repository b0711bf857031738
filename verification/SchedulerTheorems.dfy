/** What holds in every state that the scheduler protocol can reach. */
module SchedulerTheorems {
  import opened Wrappers
  import opened WorkBuckets
  import opened WorkerGoals
  import opened SchedulerProtocol
  import opened SchedulerInvariants
  import opened SchedulerSteps
  import opened SchedulerLastPark

  lemma PacketKeeps(s: State, w: nat, step: PacketStep)
    requires Inv(s) && CanPacket(s, w, step)
    ensures Inv(DoPacket(s, w, step))
  {
    PacketKeepsQueues(s, w, step);
    PacketKeepsCoverage(s, w, step);
    PacketKeepsOrder(s, w, step);
    PacketKeepsFlight(s, w, step);
    PacketKeepsOpening(s, w, step);
    PacketKeepsEarly(s, w, step);
    PacketKeepsForking(s, w, step);
  }

  lemma PollKeeps(s: State, w: nat, step: PollStep)
    requires Inv(s) && CanPoll(s, w, step)
    ensures Inv(DoPoll(s, w, step))
  {
    PollKeepsQueues(s, w, step);
    PollKeepsCoverage(s, w, step);
    PollKeepsOrder(s, w, step);
    PollKeepsFlight(s, w, step);
    PollKeepsOpening(s, w, step);
    PollKeepsEarly(s, w, step);
    PollKeepsForking(s, w, step);
  }

  lemma PauseKeeps(s: State, w: nat, step: PauseStep)
    requires Inv(s) && CanPause(s, w, step)
    ensures Inv(DoPause(s, w, step))
  {
    PauseKeepsQueues(s, w, step);
    PauseKeepsRequested(s, w, step);
    PauseKeepsCoverage(s, w, step);
    PauseKeepsOrder(s, w, step);
    PauseKeepsFlight(s, w, step);
    PauseKeepsOpening(s, w, step);
    PauseKeepsEarly(s, w, step);
    PauseKeepsForking(s, w, step);
  }

  lemma MonitorKeeps(s: State, w: nat, step: ParkStep)
    requires Inv(s) && CanMonitor(s, w, step)
    ensures Inv(DoMonitor(s, w, step))
  {
    if step == LastPark {
      LastParkKeeps(s, w);
    } else {
      hide Shape, Counted, LocalsOwned, Coverage, Ordered, FlightOnTop, Opening1, GoalHolds, EarlyOpening, Requested,
        Forking,
        SomebodyAwake, AfterLastPark, Resumed;
      MonitorKeepsQueues(s, w, step);
      MonitorKeepsCoverage(s, w, step);
      MonitorKeepsFlight(s, w, step);
      MonitorKeepsOpening(s, w, step);
      MonitorKeepsEarly(s, w, step);
      MonitorKeepsForking(s, w, step);
      MonitorKeepsAwake(s, w, step);
    }
  }

  lemma MutatorKeeps(s: State, step: MutatorStep)
    requires Inv(s) && CanMutator(s, step)
    ensures Inv(DoMutator(s, step))
  {
    MutatorKeepsQueues(s, step);
    MutatorKeepsCoverage(s, step);
    MutatorKeepsFlight(s, step);
    MutatorKeepsOpening(s, step);
    MutatorKeepsEarly(s, step);
    MutatorKeepsForking(s, step);
    MutatorKeepsAwake(s, step);
  }

  lemma StepKeeps(s: State, step: Step)
    requires Inv(s) && Enabled(s, step)
    ensures Inv(Apply(s, step))
  {
    hide Inv, CanPacket, CanPoll, CanPause, CanMonitor, CanMutator, DoPacket, DoPoll, DoPause, DoMonitor, DoMutator;
    match step
    case Packet(w, x) => PacketKeeps(s, w, x);
    case Poll(w, x) => PollKeeps(s, w, x);
    case Monitor(w, x) => MonitorKeeps(s, w, x);
    case Pauser(w, x) => PauseKeeps(s, w, x);
    case Mutator(x) => MutatorKeeps(s, x);
  }

  lemma {:induction false} RunKeeps(s: State, steps: seq<Step>)
    requires Inv(s) && IsRun(s, steps)
    ensures Inv(Run(s, steps))
    decreases |steps|
  {
    hide Inv, Enabled, Apply;
    if steps != [] {
      StepKeeps(s, steps[0]);
      RunKeeps(Apply(s, steps[0]), steps[1..]);
    }
  }

  /** A state that some run reaches. */
  ghost predicate Reachable(s: State) {
    exists start, steps :: Initial(start) && IsRun(start, steps) && Run(start, steps) == s
  }

  lemma ReachableInv(s: State)
    requires Reachable(s)
    ensures Inv(s)
  {
    hide Inv, Initial, IsRun, Run;
    var start, steps :| Initial(start) && IsRun(start, steps) && Run(start, steps) == s;
    InitialInv(start);
    RunKeeps(start, steps);
  }

  // ---------- the theorems ----------

  /**
   No lost work: whenever the last worker parks, every open bucket and every local queue is empty
   and no packet is being executed, although packets are added without the monitor's mutex.
   */
  lemma LastParkedFindsNothing(s: State, w: nat)
    requires Reachable(s) && Enabled(s, Monitor(w, LastPark))
    ensures forall b :: 0 <= b < |s.buckets| && s.buckets[b].active ==> s.buckets[b].count == 0
    ensures s.front == Empty
    ensures forall v :: 0 <= v < |s.workers| ==> s.local[v] == multiset{}
    ensures forall v :: 0 <= v < |s.workers| && v != w ==> s.workers[v].Parked?
  {
    ReachableInv(s);
    LastParkFacts(s, w);
    forall b | 0 <= b < |s.buckets| && s.buckets[b].active
      ensures s.buckets[b].count == 0
    {
      assert !Ready(s, b);
    }
    assert !Ready(s, 0);
  }

  /** A packet of stage `i` is waiting, owned by a queue, or being executed. */
  ghost predicate Unfinished(s: State, i: nat)
    requires i < |s.buckets|
  {
    || s.buckets[i].count > 0 || s.buckets[i].sentinel
    || (exists v :: 0 <= v < |s.workers| && s.workers[v] == Running(i))
    || (exists v :: 0 <= v < |s.local| && i in s.local[v])
    || (exists v :: 0 <= v < |s.designated| && i in s.designated[v])
  }

  /**
   Stage order: while a packet of a stop-the-world stage is being executed, all packets of the
   earlier stages have finished.  This includes a second stage that was opened early.
   */
  lemma StagesRunInOrder(s: State, w: nat, i: nat)
    requires Reachable(s) && w < |s.workers| && s.workers[w].Running? && 1 <= i < s.workers[w].stage
    ensures s.workers[w].stage < |s.buckets| && !Unfinished(s, i)
  {
    ReachableInv(s);
    var j := s.workers[w].stage;
    assert TopStage(s.buckets, j);
    assert Done(s.buckets[i]);
    forall v | 0 <= v < |s.workers|
      ensures s.workers[v] != Running(i) && i !in s.local[v] && i !in s.designated[v]
    {
      assert !TopStage(s.buckets, i);
      assert QueueOnTop(s.buckets, s.local[v]) && QueueOnTop(s.buckets, s.designated[v]);
    }
  }

  /** The last parked worker ends the collection exactly if no packet, sentinel or designated work is left. */
  lemma CollectionEndsWhenDone(s: State, w: nat)
    requires Reachable(s) && Enabled(s, Monitor(w, LastPark)) && s.goals.current == Some(Gc)
    ensures AfterLastPark(s, w).goals.current != Some(Gc) <==> (forall i :: 1 <= i < |s.buckets| ==> !Unfinished(s, i))
    ensures AfterLastPark(s, w).goals.current != Some(Gc) ==>
      && AllClosed(AfterLastPark(s, w).buckets) && !AfterLastPark(s, w).paused && s.paused
      && forall i :: 1 <= i < |s.buckets| ==> !Unfinished(s, i)
  {
    ReachableInv(s);
    LastParkFacts(s, w);
    UnfinishedMeaning(s, w);
    hide Inv, Unfinished;
    EndsIff(s, w);
  }

  lemma UnfinishedMeaning(s: State, w: nat)
    requires Inv(s) && Gathered(s, w) && NothingLeft(s)
    ensures (forall i :: 1 <= i < |s.buckets| ==> !Unfinished(s, i)) <==> AllDone(s.buckets) && !HasDesignated(s)
  {
    forall v, i | 0 <= v < |s.designated| && i in s.designated[v]
      ensures 1 <= i < |s.buckets|
    {
      assert QueueOnTop(s.buckets, s.designated[v]);
      assert TopStage(s.buckets, i);
    }
    if AllDone(s.buckets) && !HasDesignated(s) {
      forall i | 1 <= i < |s.buckets|
        ensures !Unfinished(s, i)
      {
        assert Done(s.buckets[i]);
      }
    }
    if HasDesignated(s) {
      var v :| 0 <= v < |s.designated| && s.designated[v] != multiset{};
      var i :| i in s.designated[v];
      assert Unfinished(s, i);
    }
    if !AllDone(s.buckets) {
      var i :| 1 <= i < |s.buckets| && !Done(s.buckets[i]);
      assert Unfinished(s, i);
    }
  }

  lemma EndsIff(s: State, w: nat)
    requires Inv(s) && Gathered(s, w) && NothingLeft(s) && CanMonitor(s, w, LastPark) && s.goals.current == Some(Gc)
    requires !HasDesignated(s) && !HasSentinel(s.buckets) ==> Drained(s)
    requires Callback(s) != Panic
    ensures AfterLastPark(s, w).goals.current != Some(Gc) <==> AllDone(s.buckets) && !HasDesignated(s)
    ensures AfterLastPark(s, w).goals.current != Some(Gc) ==>
      AllClosed(AfterLastPark(s, w).buckets) && !AfterLastPark(s, w).paused && s.paused
  {
    InvParts(s, w);
    if !HasDesignated(s) && !HasSentinel(s.buckets) {
      FoundIff(s);
      ClosedBuckets(OpenFrom(s.buckets, s.progress + 1).buckets);
    }
    hide Inv, Gathered, NothingLeft, Drained, OpenFrom, Settle, Deactivated, AllClosed, Ordered, OpenUpTo;
    assert HasSentinel(s.buckets) ==> !AllDone(s.buckets);
    forall t: State, verdict | IsWorker(t, w)
      ensures SameScene(Settle(t, w, verdict), t)
    {
      SettleKeepsScene(t, w, verdict);
    }
  }

  predicate SameScene(s: State, t: State) {
    SceneOf(s) == SceneOf(t)
  }

  /** update_buckets finds a stage exactly if some stage has something left to do. */
  lemma FoundIff(s: State)
    requires Shape(s) && Drained(s)
    ensures OpenFrom(s.buckets, s.progress + 1).found <= 0 <==> AllDone(s.buckets)
  {
    var bs := s.buckets;
    ResumeIsRestart(bs, s.progress, 1);
    DrainedIsQuiet(s);
    OpenWidens(bs, 1);
    if AllDone(bs) {
      DoneFindsNothing(bs, 1);
    }
    if OpenFrom(bs, 1).found <= 0 {
      NothingMeansAll(bs, 1);
    }
  }

  lemma SettleKeepsScene(s: State, w: nat, verdict: Verdict)
    requires IsWorker(s, w)
    ensures SameScene(Settle(s, w, verdict), s)
  {
  }

  // ---------- requests ----------

  /**
   request_flag is up exactly while one request is on its way: a mutator is between raising the flag
   and making the request, the request is pending, or its collection has not stopped the mutators yet.
   */
  lemma FlagMeansOneRequest(s: State)
    requires Reachable(s)
    ensures s.flag <==> s.requesters > 0 || s.goals.gcRequested || (s.goals.current == Some(Gc) && !s.paused)
    ensures s.requesters <= 1 && !(s.requesters == 1 && s.goals.gcRequested)
    ensures s.goals.current == Some(Gc) && !s.paused ==> s.requesters == 0 && !s.goals.gcRequested
  {
    ReachableInv(s);
  }

  lemma PanicsWhen(s: State, step: Step)
    requires Inv(s) && Enabled(s, step)
    ensures Panics(s, step) <==>
      step.Monitor? && step.monitor == Surrender && SurrendersLast(s) && s.holder == Some(Gc)
  {
    if step.Monitor? && step.monitor == LastPark {
      LastParkFacts(s, step.w);
    } else if step.Monitor? && step.monitor == Surrender {
      ForkingFacts(s, step.w);
      assert s.holder.Some? ==> s.holder.value == Gc;
    }
    hide Inv;
  }

  lemma ForkingFacts(s: State, w: nat)
    requires Inv(s) && IsWorker(s, w) && s.workers[w].Exiting?
    ensures s.group.Surrendered? && s.holder != Some(StopForFork)
  {
  }

  /**
   Of all the panics and assertions of the monitor, the callback and the worker group only one is ever reached:
   the last worker surrenders while a mutator that requests a collection holds the mutex.
   */
  lemma PanicsOnlyAtLastSurrender(s: State, step: Step)
    requires Reachable(s) && Enabled(s, step)
    ensures Panics(s, step) <==>
      step.Monitor? && step.monitor == Surrender && SurrendersLast(s) && s.holder == Some(Gc)
  {
    ReachableInv(s);
    hide Inv, Enabled, Panics, Reachable;
    PanicsWhen(s, step);
  }

  /** A request for a collection stays pending until its collection starts. */
  lemma RequestIsServed(s: State, step: Step)
    requires Reachable(s) && Enabled(s, step) && s.goals.gcRequested
    ensures var t := Apply(s, step);
      t.goals.gcRequested || (s.goals.current != Some(Gc) && t.goals.current == Some(Gc) && t.front == Schedule)
  {
    ReachableInv(s);
    if step.Monitor? && step.monitor == LastPark {
      LastParkServes(s, step.w);
    } else {
      RequestStays(s, step);
    }
    hide Inv, Enabled, Apply;
  }

  lemma RequestStays(s: State, step: Step)
    requires Enabled(s, step) && s.goals.gcRequested && !(step.Monitor? && step.monitor == LastPark)
    ensures Apply(s, step).goals.gcRequested
  {
    hide CanPacket, CanPoll, CanPause, DoPacket, DoPoll, DoPause;
    match step
    case Packet(w, x) => PacketKeepsGoals(s, w, x);
    case Poll(w, x) => PollKeepsGoals(s, w, x);
    case Pauser(w, x) => PauseKeepsGoals(s, w, x);
    case Monitor(w, x) =>
    case Mutator(x) =>
  }

  /** What only the monitor and the mutators change. */
  predicate SameRequests(s: State, t: State) {
    t.goals == s.goals && t.group == s.group && t.requesters == s.requesters && t.holder == s.holder
  }

  lemma PacketKeepsGoals(s: State, w: nat, step: PacketStep)
    requires CanPacket(s, w, step)
    ensures SameRequests(s, DoPacket(s, w, step))
  {
  }

  lemma PollKeepsGoals(s: State, w: nat, step: PollStep)
    requires CanPoll(s, w, step)
    ensures SameRequests(s, DoPoll(s, w, step))
  {
  }

  lemma PauseKeepsGoals(s: State, w: nat, step: PauseStep)
    requires CanPause(s, w, step)
    ensures SameRequests(s, DoPause(s, w, step))
  {
  }

  lemma MonitorKeepsRequests(s: State, w: nat, step: ParkStep)
    requires CanMonitor(s, w, step)
    ensures var t := DoMonitor(s, w, step);
      t.requesters == s.requesters && t.holder == s.holder && (t.group.Surrendered? <==> s.group.Surrendered?)
  {
    hide Callback, OpenUpTo;
  }

  /** Only mutators move requesters and the mutex they hold. */
  lemma WorkersKeepRequests(s: State, step: Step)
    requires Enabled(s, step) && !step.Mutator?
    ensures var t := Apply(s, step);
      t.requesters == s.requesters && t.holder == s.holder && (t.group.Surrendered? <==> s.group.Surrendered?)
  {
    hide CanPacket, CanPoll, CanPause, CanMonitor, DoPacket, DoPoll, DoPause, DoMonitor;
    match step
    case Packet(w, x) => PacketKeepsGoals(s, w, x);
    case Poll(w, x) => PollKeepsGoals(s, w, x);
    case Pauser(w, x) => PauseKeepsGoals(s, w, x);
    case Monitor(w, x) => MonitorKeepsRequests(s, w, x);
  }

  lemma LastParkServes(s: State, w: nat)
    requires Inv(s) && CanMonitor(s, w, LastPark) && s.goals.gcRequested
    ensures var t := AfterLastPark(s, w);
      s.goals.current != Some(Gc) && t.goals.current == Some(Gc) && t.front == Schedule
  {
    LastParkFacts(s, w);
    InvParts(s, w);
    hide Inv, Base, Gathered, NothingLeft, OpenFrom, Drained, Settle, HasDesignated, HasSentinel;
    var r := Respond(SceneOf(s));
    SettleKeepsScene(WithScene(s, r.scene), w, r.verdict);
  }

  /** A request to stop for a fork stays pending until that is the goal, whatever else is requested. */
  lemma ForkIsServed(s: State, step: Step)
    requires Reachable(s) && Enabled(s, step) && s.goals.forkRequested
    ensures var t := Apply(s, step); t.goals.forkRequested || t.goals.current == Some(StopForFork)
  {
    ReachableInv(s);
    if step.Monitor? && step.monitor == LastPark {
      LastParkForks(s, step.w);
    } else {
      ForkStays(s, step);
    }
    hide Inv, Enabled, Apply;
  }

  lemma ForkStays(s: State, step: Step)
    requires Enabled(s, step) && s.goals.forkRequested && !(step.Monitor? && step.monitor == LastPark)
    ensures Apply(s, step).goals.forkRequested
  {
    hide CanPacket, CanPoll, CanPause, DoPacket, DoPoll, DoPause;
    match step
    case Packet(w, x) => PacketKeepsGoals(s, w, x);
    case Poll(w, x) => PollKeepsGoals(s, w, x);
    case Pauser(w, x) => PauseKeepsGoals(s, w, x);
    case Monitor(w, x) =>
    case Mutator(x) =>
  }

  lemma LastParkForks(s: State, w: nat)
    requires Inv(s) && CanMonitor(s, w, LastPark) && s.goals.forkRequested
    ensures var t := AfterLastPark(s, w); t.goals.forkRequested || t.goals.current == Some(StopForFork)
  {
    LastParkFacts(s, w);
    InvParts(s, w);
    hide Inv, Base, Gathered, NothingLeft, OpenFrom, Drained, Settle, HasDesignated, HasSentinel, OpenUpTo;
    var r := Callback(s);
    SettleKeepsScene(WithScene(s, r.scene), w, r.verdict);
  }

  /** With a goal to reach or a request to serve, some worker is up or notified, or all have exited. */
  lemma NeverStalls(s: State)
    requires Reachable(s)
    requires s.goals.current.Some? || s.goals.gcRequested || s.goals.forkRequested
    ensures AllExited(s.workers) || exists w :: 0 <= w < |s.workers| && Awake(s.workers[w])
  {
    ReachableInv(s);
  }

  /**
   Whom the last parked worker wakes: nobody and it parks too if no goal is left, itself alone if it starts a
   collection, and everybody if it found work or the workers are to exit.
   */
  lemma LastParkWakes(s: State, w: nat)
    requires Reachable(s) && Enabled(s, Monitor(w, LastPark))
    ensures var t := AfterLastPark(s, w);
      && (t.goals.current == None ==> t.workers == s.workers[w := Parked(false)] && t.parked == s.parked + 1)
      && (t.front == Schedule ==>
            t.goals.current == Some(Gc) && t.workers == s.workers[w := Resumed(t.goals)] && t.parked == s.parked)
      && (t.goals.current.Some? && t.front != Schedule ==>
            && t.workers[w] == Resumed(t.goals) && t.parked == s.parked
            && forall v :: 0 <= v < |t.workers| && v != w ==> t.workers[v] == Parked(true))
      && (t.front == Schedule <==> s.goals.gcRequested)
  {
    ReachableInv(s);
    LastParkedFindsNothing(s, w);
    LastParkFacts(s, w);
    InvParts(s, w);
    VerdictMeaning(s);
    assert IsWorker(s, w) && OpenUpTo(s.buckets, s.progress);
    hide Inv, Base, NothingLeft, Drained, OpenUpTo, Reachable, Enabled, Callback, Settle, Resumed;
    SettleWakes(WithScene(s, Callback(s).scene), w, Callback(s).verdict);
  }

  /** The verdicts of the callback. */
  lemma VerdictMeaning(s: State)
    requires OpenUpTo(s.buckets, s.progress) && Callback(s).Outcome? && s.front == Empty
    requires s.goals.current == Some(Gc) ==> !s.goals.gcRequested
    ensures var r := Callback(s);
      && (r.verdict == ParkSelf <==> r.scene.goals.current == None)
      && (r.verdict == WakeSelf <==> r.scene.front == Schedule)
      && (r.scene.front == Schedule <==> s.goals.gcRequested)
      && (r.scene.front == Schedule ==> r.scene.goals.current == Some(Gc))
  {
    hide OpenFrom, HasDesignated, HasSentinel, OpenUpTo, ScheduleSentinels, Deactivated;
  }

  lemma SettleWakes(s: State, w: nat, verdict: Verdict)
    requires Gathered(s, w)
    ensures var t := Settle(s, w, verdict);
      && t.goals == s.goals && t.front == s.front
      && match verdict
         case ParkSelf => t.workers == s.workers[w := Parked(false)] && t.parked == s.parked + 1
         case WakeSelf => t.workers == s.workers[w := Resumed(s.goals)] && t.parked == s.parked
         case WakeAll =>
           && t.parked == s.parked && |t.workers| == |s.workers| && t.workers[w] == Resumed(s.goals)
           && forall v :: 0 <= v < |t.workers| && v != w ==> t.workers[v] == Parked(true)
  {
  }

  // ---------- forking ----------

  /** parked_workers counts the workers inside the parked section. */
  lemma ParkedIsCounted(s: State)
    requires Reachable(s)
    ensures s.parked == CountParked(s.workers)
  {
    ReachableInv(s);
  }

  // The rule of src/mmtk.rs:284: from prepare_to_fork to after_fork nobody allocates, so nobody asks for a collection.

  predicate FollowsForkRule(s: State, step: Step) {
    (step == Mutator(Swap) ==> s.group == Spawned) && (step == Mutator(PrepareFork) ==> s.requesters == 0)
  }

  predicate IsRuleRun(s: State, steps: seq<Step>)
    decreases |steps|
  {
    steps == [] ||
    (Enabled(s, steps[0]) && !Panics(s, steps[0]) && FollowsForkRule(s, steps[0]) &&
      IsRuleRun(Apply(s, steps[0]), steps[1..]))
  }

  predicate NobodyAsks(s: State) {
    s.group.Surrendered? ==> s.requesters == 0
  }

  lemma RuleStep(s: State, step: Step)
    requires Enabled(s, step) && FollowsForkRule(s, step) && NobodyAsks(s)
    ensures NobodyAsks(Apply(s, step))
  {
    if !step.Mutator? {
      hide Enabled, Apply;
      WorkersKeepRequests(s, step);
    }
  }

  lemma {:induction false} RuleRunKeeps(s: State, steps: seq<Step>)
    requires NobodyAsks(s) && IsRuleRun(s, steps)
    ensures IsRun(s, steps) && NobodyAsks(Run(s, steps))
    decreases |steps|
  {
    hide Enabled, Panics, Apply, FollowsForkRule, NobodyAsks;
    if steps != [] {
      RuleStep(s, steps[0]);
      RuleRunKeeps(Apply(s, steps[0]), steps[1..]);
    }
  }

  /** A VM that follows the rule never sees the panic. */
  lemma ForkRuleAvoidsPanic(start: State, steps: seq<Step>, step: Step)
    requires Initial(start) && IsRuleRun(start, steps)
    ensures IsRun(start, steps)
    ensures Enabled(Run(start, steps), step) ==> !Panics(Run(start, steps), step)
  {
    RuleRunKeeps(start, steps);
    InitialInv(start);
    RunKeeps(start, steps);
    var s := Run(start, steps);
    assert HolderRequests(s);
    hide Inv, Enabled, Panics, IsRun, Run, IsRuleRun, Initial;
    if Enabled(s, step) {
      PanicsWhen(s, step);
    }
  }

  /** The goal to stop is cleared by the surrender of the last worker, and by nothing else. */
  lemma StopEndsWhenAllExited(s: State, step: Step)
    requires Reachable(s) && Enabled(s, step) && !Panics(s, step) && s.goals.current == Some(StopForFork)
    ensures var t := Apply(s, step);
      && (t.goals.current == Some(StopForFork) || t.goals.current == None)
      && (t.goals.current == None <==> AllExited(t.workers))
      && (t.goals.current == None ==> step.Monitor? && step.monitor == Surrender)
      && (t.goals.current == None ==> t.group.Surrendered? && multiset(t.group.workers) == multiset(Below(|t.workers|)))
  {
    ReachableInv(s);
    StepKeeps(s, step);
    var t := Apply(s, step);
    StopStep(s, step);
    if t.goals.current == None {
      EachOnce(t);
    }
    hide Inv, Apply;
  }

  lemma StopStep(s: State, step: Step)
    requires Inv(s) && Enabled(s, step) && s.goals.current == Some(StopForFork)
    ensures var t := Apply(s, step);
      && (t.goals.current == Some(StopForFork) || t.goals.current == None)
      && (t.goals.current == None <==> AllExited(t.workers))
      && (t.goals.current == None ==> step.Monitor? && step.monitor == Surrender)
  {
    if step.Monitor? && step.monitor == Surrender {
      GiveOne(s.workers, step.w, s.group.workers);
    } else {
      var v :| 0 <= v < |s.workers| && !s.workers[v].Exited?;
      hide Inv;
      StopOthers(s, step, v);
    }
  }

  /** While the workers leave, they do nothing but leave. */
  lemma StopLimits(s: State, step: Step)
    requires Forking(s) && Enabled(s, step) && s.goals.current == Some(StopForFork)
    ensures step.Mutator? || (step.Monitor? && step.monitor != LastPark && step.monitor != Park)
  {
    if !step.Mutator? {
      assert Leaving(s.workers[step.w]);
    }
    hide Forking;
  }

  lemma StopOthers(s: State, step: Step, v: nat)
    requires Inv(s) && Enabled(s, step) && s.goals.current == Some(StopForFork)
    requires v < |s.workers| && !s.workers[v].Exited? && !(step.Monitor? && step.monitor == Surrender)
    ensures Apply(s, step).goals.current == Some(StopForFork) && v < |Apply(s, step).workers|
    ensures !Apply(s, step).workers[v].Exited?
  {
    StopLimits(s, step);
    hide CanPacket, CanPoll, CanPause, DoPacket, DoPoll, DoPause;
    if step.Mutator? {
      StopMutators(s, step.mutator, v);
    } else {
      StopMonitor(s, step.w, step.monitor, v);
    }
  }

  lemma StopMutators(s: State, step: MutatorStep, v: nat)
    requires Inv(s) && CanMutator(s, step) && s.goals.current == Some(StopForFork)
    requires v < |s.workers| && !s.workers[v].Exited?
    ensures DoMutator(s, step).goals.current == Some(StopForFork)
    ensures v < |DoMutator(s, step).workers| && !DoMutator(s, step).workers[v].Exited?
  {
    if step == Respawn {
      RespawnFindsAll(s);
    }
    hide Inv;
  }

  lemma StopMonitor(s: State, w: nat, step: ParkStep, v: nat)
    requires CanMonitor(s, w, step) && s.goals.current == Some(StopForFork) && (step == Unpark || step == Signal)
    requires v < |s.workers| && !s.workers[v].Exited?
    ensures DoMonitor(s, w, step).goals.current == Some(StopForFork)
    ensures v < |DoMonitor(s, w, step).workers| && !DoMonitor(s, w, step).workers[v].Exited?
  {
  }

  lemma EachOnce(t: State)
    requires Inv(t) && AllExited(t.workers)
    ensures t.group.Surrendered? && multiset(t.group.workers) == multiset(Below(|t.workers|))
  {
    assert t.workers[0].Exited?;
    var given := t.group.workers;
    DistinctMultiset(given);
    assert Members(given) == Below(|t.workers|);
  }

  lemma {:induction false} DistinctMultiset(xs: seq<nat>)
    requires NoDuplicates(xs)
    ensures multiset(xs) == multiset(Members(xs))
  {
    if xs != [] {
      var front, last := xs[..|xs| - 1], xs[|xs| - 1];
      assert xs == front + [last];
      DistinctMultiset(front);
      assert last !in Members(front);
    }
  }

  /** Respawning gets back exactly the original workers, and all of them run again. */
  lemma RespawnGetsEverybody(s: State)
    requires Reachable(s) && Enabled(s, Mutator(Respawn))
    ensures multiset(s.group.workers) == multiset(Below(|s.workers|))
    ensures AllExited(s.workers) && s.goals.current == None && s.parked == 0
    ensures var t := Apply(s, Mutator(Respawn));
      && t == s.(workers := t.workers, group := Spawned) && |t.workers| == |s.workers|
      && forall w :: 0 <= w < |t.workers| ==> t.workers[w] == Polling
  {
    ReachableInv(s);
    RespawnFindsAll(s);
    EachOnce(s);
    NoneParked(s.workers);
  }
}
