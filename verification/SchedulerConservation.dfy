/** Packets are neither lost nor made up: what each step does to the number of packets of every stage. */
module SchedulerConservation {
  import opened Wrappers
  import opened Sums
  import opened WorkBuckets
  import opened WorkerGoals
  import opened SchedulerProtocol
  import opened SchedulerInvariants
  import opened SchedulerSteps
  import opened SchedulerLastPark
  import opened SchedulerTheorems

  // ---------- the packets of a stage ----------

  function Copies(queues: seq<multiset<nat>>, i: nat): seq<nat> {
    seq(|queues|, w requires 0 <= w < |queues| => queues[w][i])
  }

  function Runs(x: Worker, i: nat): nat {
    if x == Running(i) then 1 else 0
  }

  function Runners(ws: seq<Worker>, i: nat): seq<nat> {
    seq(|ws|, w requires 0 <= w < |ws| => Runs(ws[w], i))
  }

  /** All packets of stage `i`: in its bucket, its sentinel, in local and designated queues, and being executed. */
  function Total(s: State, i: nat): nat
    requires i < |s.buckets|
  {
    Held(s.buckets[i]) + Sum(Copies(s.local, i)) + Sum(Copies(s.designated, i)) + Sum(Runners(s.workers, i))
  }

  lemma QueueMoves(queues: seq<multiset<nat>>, w: nat, m: multiset<nat>, i: nat)
    requires w < |queues|
    ensures Sum(Copies(queues[w := m], i)) == Sum(Copies(queues, i)) - queues[w][i] + m[i]
  {
    SumUpdate(Copies(queues, i), w, m[i]);
    assert Copies(queues[w := m], i) == Copies(queues, i)[w := m[i]];
  }

  lemma WorkerMoves(ws: seq<Worker>, w: nat, x: Worker, i: nat)
    requires w < |ws|
    ensures Sum(Runners(ws[w := x], i)) == Sum(Runners(ws, i)) - Runs(ws[w], i) + Runs(x, i)
  {
    SumUpdate(Runners(ws, i), w, Runs(x, i));
    assert Runners(ws[w := x], i) == Runners(ws, i)[w := Runs(x, i)];
  }

  /** Workers that neither begin nor stop to execute packets. */
  lemma SameRunners(ws: seq<Worker>, vs: seq<Worker>, i: nat)
    requires |vs| == |ws| && forall w :: 0 <= w < |ws| ==> ws[w] == vs[w] || (!ws[w].Running? && !vs[w].Running?)
    ensures Runners(vs, i) == Runners(ws, i)
  {
  }

  // ---------- single steps ----------

  /** What a step adds to the packets of stage `i`, and takes away by finishing one. */
  function Added(s: State, step: Step, i: nat): nat
    requires Enabled(s, step) && i < |s.buckets|
  {
    match step
    case Packet(_, AddBucket(b)) => if b == i then 1 else 0
    case Packet(_, AddLocal(b)) => if b == i then 1 else 0
    case Packet(w, AddDesignated(_)) => if s.workers[w].stage == i then 1 else 0
    case Packet(_, SetSentinel(b)) => if b == i && !s.buckets[b].sentinel then 1 else 0
    case Mutator(MutatorAdd(b)) => if b == i then 1 else 0
    case _ => 0
  }

  function Finished(s: State, step: Step, i: nat): nat
    requires Enabled(s, step)
  {
    match step
    case Packet(w, Finish) => Runs(s.workers[w], i)
    case _ => 0
  }

  lemma PacketTotals(s: State, w: nat, step: PacketStep, i: nat)
    requires CanPacket(s, w, step) && i < |s.buckets|
    ensures |DoPacket(s, w, step).buckets| == |s.buckets|
    ensures Total(DoPacket(s, w, step), i) + Finished(s, Packet(w, step), i) == Total(s, i) +
      Added(s, Packet(w, step), i)
  {
    var t := DoPacket(s, w, step);
    match step
    case AddLocal(b) => QueueMoves(s.local, w, s.local[w] + multiset{b}, i);
    case AddDesignated(v) => QueueMoves(s.designated, v, s.designated[v] + multiset{s.workers[w].stage}, i);
    case IssueStop => WorkerMoves(s.workers, w, Scheduling(true), i);
    case Finish => WorkerMoves(s.workers, w, Polling, i);
    case _ =>
  }

  /** A worker takes a packet out of a queue, or keeps looking. */
  lemma PollTotals(s: State, w: nat, step: PollStep, i: nat)
    requires CanPoll(s, w, step) && i < |s.buckets|
    ensures |DoPoll(s, w, step).buckets| == |s.buckets| && Total(DoPoll(s, w, step), i) == Total(s, i)
  {
    if step.TakeDesignated? || step.TakeLocal? || step.TakeBucket? || step.Steal? {
      TakeTotals(s, w, step, i);
    } else {
      SameRunners(s.workers, DoPoll(s, w, step).workers, i);
      hide Sum;
    }
  }

  lemma TakeTotals(s: State, w: nat, step: PollStep, i: nat)
    requires CanPoll(s, w, step) && i < |s.buckets|
    requires step.TakeDesignated? || step.TakeLocal? || step.TakeBucket? || step.Steal?
    ensures |DoPoll(s, w, step).buckets| == |s.buckets| && Total(DoPoll(s, w, step), i) == Total(s, i)
  {
    hide Sum, NothingAt;
    WorkerMoves(s.workers, w, DoPoll(s, w, step).workers[w], i);
    match step
    case TakeDesignated(j) => QueueMoves(s.designated, w, s.designated[w] - multiset{j}, i);
    case TakeLocal(j) => QueueMoves(s.local, w, s.local[w] - multiset{j}, i);
    case TakeBucket(b, batch) => QueueMoves(s.local, w, WithCopies(s.local[w], b, batch), i);
    case Steal(v, j) => QueueMoves(s.local, v, s.local[v] - multiset{j}, i);
  }

  lemma MonitorTotals(s: State, w: nat, step: ParkStep, i: nat)
    requires CanMonitor(s, w, step) && step != LastPark && i < |s.buckets|
    ensures |DoMonitor(s, w, step).buckets| == |s.buckets| && Total(DoMonitor(s, w, step), i) == Total(s, i)
  {
    SameRunners(s.workers, DoMonitor(s, w, step).workers, i);
  }

  lemma PauseTotals(s: State, w: nat, step: PauseStep, i: nat)
    requires CanPause(s, w, step) && i < |s.buckets|
    ensures |DoPause(s, w, step).buckets| == |s.buckets| && Total(DoPause(s, w, step), i) == Total(s, i)
  {
    SameRunners(s.workers, DoPause(s, w, step).workers, i);
  }

  lemma MutatorTotals(s: State, step: MutatorStep, i: nat)
    requires CanMutator(s, step) && i < |s.buckets| && (step == Respawn ==> AllExited(s.workers))
    ensures |DoMutator(s, step).buckets| == |s.buckets|
    ensures Total(DoMutator(s, step), i) == Total(s, i) + Added(s, Mutator(step), i)
  {
    SameRunners(s.workers, DoMutator(s, step).workers, i);
  }

  // ---------- the last parked worker ----------

  lemma SentinelsHold(bs: Buckets, i: nat)
    requires i < |bs|
    ensures |ScheduleSentinels(bs)| == |bs| && Held(ScheduleSentinels(bs)[i]) == Held(bs[i])
  {
    SentinelsBecomePackets(bs);
  }

  lemma OpeningHolds(bs: Buckets, from: nat, i: nat)
    requires 1 <= from <= |bs| && i < |bs|
    ensures |OpenFrom(bs, from).buckets| == |bs| && Held(OpenFrom(bs, from).buckets[i]) == Held(bs[i])
  {
    OpenWidens(bs, from);
  }

  lemma ClosingHolds(bs: Buckets, i: nat)
    requires i < |bs|
    ensures |Deactivated(bs)| == |bs| && Held(Deactivated(bs)[i]) == Held(bs[i])
  {
  }

  /** The callback moves packets only between a bucket and its sentinel. */
  lemma CallbackHolds(s: State, i: nat)
    requires |s.buckets| >= 1 && OpenUpTo(s.buckets, s.progress) && s.progress < |s.buckets| && i < |s.buckets|
    requires Callback(s).Outcome?
    ensures var bs := Callback(s).scene.buckets; |bs| == |s.buckets| && Held(bs[i]) == Held(s.buckets[i])
  {
    SentinelsHold(s.buckets, i);
    OpeningHolds(s.buckets, s.progress + 1, i);
    ClosingHolds(OpenFrom(s.buckets, s.progress + 1).buckets, i);
    hide OpenFrom, ScheduleSentinels, Deactivated, HasSentinel, HasDesignated, Held, OpenUpTo;
  }

  lemma SettleTotals(s: State, w: nat, verdict: Verdict, i: nat)
    requires IsWorker(s, w) && s.workers[w].Parking? && i < |s.buckets|
    ensures Settle(s, w, verdict).buckets == s.buckets && Total(Settle(s, w, verdict), i) == Total(s, i)
  {
    SameRunners(s.workers, Settle(s, w, verdict).workers, i);
  }

  lemma LastParkTotals(s: State, w: nat, i: nat)
    requires CanMonitor(s, w, LastPark) && s.progress < |s.buckets| && i < |s.buckets|
    ensures |AfterLastPark(s, w).buckets| == |s.buckets| && Total(AfterLastPark(s, w), i) == Total(s, i)
  {
    if Callback(s).Outcome? {
      CallbackHolds(s, i);
      SettleTotals(WithScene(s, Callback(s).scene), w, Callback(s).verdict, i);
      hide Callback, Settle, Held;
    }
  }

  // ---------- all steps ----------

  lemma ProgressBounded(s: State)
    requires Shape(s)
    ensures s.progress < |s.buckets|
  {
  }

  /**
   Every step keeps the number of packets of every stage, but for the one that it adds and the one that a worker
   finishes.  Taking a batch, stealing, scheduling sentinels, opening and closing stages lose nothing.
   */
  lemma StepConserves(s: State, step: Step, i: nat)
    requires Inv(s) && Enabled(s, step) && i < |s.buckets|
    ensures |Apply(s, step).buckets| == |s.buckets|
    ensures Total(Apply(s, step), i) + Finished(s, step, i) == Total(s, i) + Added(s, step, i)
  {
    hide CanPacket, CanPoll, CanPause, CanMonitor, CanMutator, DoPacket, DoPoll, DoPause, DoMonitor, DoMutator, Total;
    match step
    case Packet(w, x) => PacketTotals(s, w, x, i);
    case Poll(w, x) => PollTotals(s, w, x, i);
    case Pauser(w, x) => PauseTotals(s, w, x, i);
    case Monitor(w, x) => MonitorConserves(s, w, x, i);
    case Mutator(x) => MutatorConserves(s, x, i);
  }

  lemma MonitorConserves(s: State, w: nat, step: ParkStep, i: nat)
    requires Inv(s) && CanMonitor(s, w, step) && i < |s.buckets|
    ensures |DoMonitor(s, w, step).buckets| == |s.buckets| && Total(DoMonitor(s, w, step), i) == Total(s, i)
  {
    assert Shape(s);
    hide Inv, Total, AfterLastPark;
    if step == LastPark {
      ProgressBounded(s);
      LastParkTotals(s, w, i);
    } else {
      MonitorTotals(s, w, step, i);
    }
  }

  lemma MutatorConserves(s: State, step: MutatorStep, i: nat)
    requires Inv(s) && CanMutator(s, step) && i < |s.buckets|
    ensures |DoMutator(s, step).buckets| == |s.buckets|
    ensures Total(DoMutator(s, step), i) == Total(s, i) + Added(s, Mutator(step), i)
  {
    assert Forking(s) && Shape(s);
    hide Inv, Total;
    if step == Respawn {
      RespawnFindsAll(s);
    }
    MutatorTotals(s, step, i);
  }

  lemma PacketDesignates(s: State, w: nat, step: PacketStep, v: nat)
    requires CanPacket(s, w, step) && v < |s.designated|
    ensures |DoPacket(s, w, step).designated| == |s.designated|
    ensures DoPacket(s, w, step).designated[v] ==
      s.designated[v] + if step == AddDesignated(v) then multiset{s.workers[w].stage} else multiset{}
  {
  }

  lemma PollDesignated(s: State, w: nat, step: PollStep, v: nat)
    requires CanPoll(s, w, step) && v < |s.designated|
    ensures |DoPoll(s, w, step).designated| == |s.designated|
    ensures DoPoll(s, w, step).designated[v] ==
      s.designated[v] - if step.TakeDesignated? && w == v then multiset{step.i} else multiset{}
  {
  }

  lemma MonitorDesignated(s: State, w: nat, step: ParkStep)
    requires CanMonitor(s, w, step)
    ensures DoMonitor(s, w, step).designated == s.designated
  {
    hide Callback, OpenUpTo;
  }

  lemma PauseDesignated(s: State, w: nat, step: PauseStep)
    requires CanPause(s, w, step)
    ensures DoPause(s, w, step).designated == s.designated
  {
  }

  /** Designated work comes only from packets that designate it, and leaves only to the worker that it is for. */
  lemma DesignatedStays(s: State, step: Step, v: nat)
    requires Enabled(s, step) && v < |s.designated|
    ensures |Apply(s, step).designated| == |s.designated|
    ensures Apply(s, step).designated[v] ==
      match step
      case Packet(w, AddDesignated(u)) => s.designated[v] + if u == v then multiset{s.workers[w].stage} else multiset{}
      case Poll(w, TakeDesignated(i)) => s.designated[v] - if w == v then multiset{i} else multiset{}
      case _ => s.designated[v]
  {
    hide CanPacket, CanPoll, CanPause, CanMonitor, DoPacket, DoPoll, DoPause, DoMonitor;
    match step
    case Packet(w, x) => PacketDesignates(s, w, x, v);
    case Poll(w, x) => PollDesignated(s, w, x, v);
    case Pauser(w, x) => PauseDesignated(s, w, x);
    case Monitor(w, x) => MonitorDesignated(s, w, x);
    case Mutator(x) =>
  }

  lemma PacketLocal(s: State, w: nat, step: PacketStep, v: nat)
    requires CanPacket(s, w, step) && v < |s.local|
    ensures |DoPacket(s, w, step).local| == |s.local|
    ensures DoPacket(s, w, step).local[v] ==
      s.local[v] + if step.AddLocal? && w == v then multiset{step.b} else multiset{}
  {
  }

  /** What the local queue of worker `v` gains and loses when worker `w` polls, as copies of packets of stage `i`. */
  lemma PollLocal(s: State, w: nat, step: PollStep, v: nat, i: nat)
    requires CanPoll(s, w, step) && v < |s.local|
    ensures |DoPoll(s, w, step).local| == |s.local|
    ensures DoPoll(s, w, step).local[v][i] ==
      match step
      case TakeLocal(j) => s.local[v][i] - if w == v && i == j then 1 else 0
      case Steal(u, j) => s.local[v][i] - if u == v && i == j then 1 else 0
      case TakeBucket(b, batch) => s.local[v][i] + if w == v && i == b then batch else 0
      case _ => s.local[v][i]
  {
  }

  lemma MonitorLocal(s: State, w: nat, step: ParkStep)
    requires CanMonitor(s, w, step)
    ensures DoMonitor(s, w, step).local == s.local
  {
    hide Callback, OpenUpTo;
  }

  lemma PauseLocal(s: State, w: nat, step: PauseStep)
    requires CanPause(s, w, step)
    ensures DoPause(s, w, step).local == s.local
  {
  }

  /** A local queue grows by what its worker adds and takes in batches, and shrinks by what it or a thief takes. */
  lemma LocalStays(s: State, step: Step, v: nat, i: nat)
    requires Enabled(s, step) && v < |s.local|
    ensures |Apply(s, step).local| == |s.local|
    ensures Apply(s, step).local[v][i] ==
      match step
      case Packet(w, AddLocal(b)) => s.local[v][i] + if w == v && i == b then 1 else 0
      case Poll(w, TakeLocal(j)) => s.local[v][i] - if w == v && i == j then 1 else 0
      case Poll(_, Steal(u, j)) => s.local[v][i] - if u == v && i == j then 1 else 0
      case Poll(w, TakeBucket(b, batch)) => s.local[v][i] + if w == v && i == b then batch else 0
      case _ => s.local[v][i]
  {
    hide CanPacket, CanPoll, CanPause, CanMonitor, DoPacket, DoPoll, DoPause, DoMonitor;
    match step
    case Packet(w, x) => PacketLocal(s, w, x, v);
    case Poll(w, x) => PollLocal(s, w, x, v, i);
    case Pauser(w, x) => PauseLocal(s, w, x);
    case Monitor(w, x) => MonitorLocal(s, w, x);
    case Mutator(x) =>
  }

  // ---------- runs ----------

  function AllAdded(s: State, steps: seq<Step>, i: nat): nat
    requires IsRun(s, steps)
    decreases |steps|
  {
    if steps == [] then 0
    else (if i < |s.buckets| then Added(s, steps[0], i) else 0) + AllAdded(Apply(s, steps[0]), steps[1..], i)
  }

  function AllFinished(s: State, steps: seq<Step>, i: nat): nat
    requires IsRun(s, steps)
    decreases |steps|
  {
    if steps == [] then 0 else Finished(s, steps[0], i) + AllFinished(Apply(s, steps[0]), steps[1..], i)
  }

  lemma {:induction false} RunConserves(s: State, steps: seq<Step>, i: nat)
    requires Inv(s) && IsRun(s, steps) && i < |s.buckets|
    ensures |Run(s, steps).buckets| == |s.buckets|
    ensures Total(Run(s, steps), i) + AllFinished(s, steps, i) == Total(s, i) + AllAdded(s, steps, i)
    decreases |steps|
  {
    hide Inv, Enabled, Apply, Total, Panics, Added, Finished;
    if steps != [] {
      StepConserves(s, steps[0], i);
      StepKeeps(s, steps[0]);
      RunConserves(Apply(s, steps[0]), steps[1..], i);
    }
  }

  lemma InitialTotal(s: State, i: nat)
    requires Initial(s) && i < |s.buckets|
    ensures Total(s, i) == 0
  {
    AllZero(Copies(s.local, i));
    AllZero(Copies(s.designated, i));
    AllZero(Runners(s.workers, i));
  }

  lemma {:induction false} AllZero(xs: seq<nat>)
    ensures Sum(xs) == 0 <==> forall i :: 0 <= i < |xs| ==> xs[i] == 0
  {
    if xs != [] {
      AllZero(xs[..|xs| - 1]);
      assert forall i :: 0 <= i < |xs| - 1 ==> xs[i] == xs[..|xs| - 1][i];
    }
  }

  /** A stage that has nothing unfinished has no packets. */
  lemma UnfinishedTotal(s: State, i: nat)
    requires i < |s.buckets|
    ensures Unfinished(s, i) <==> Total(s, i) > 0
  {
    AllZero(Copies(s.local, i));
    AllZero(Copies(s.designated, i));
    AllZero(Runners(s.workers, i));
    assert forall v :: 0 <= v < |s.local| ==> Copies(s.local, i)[v] == s.local[v][i];
    assert forall v :: 0 <= v < |s.designated| ==> Copies(s.designated, i)[v] == s.designated[v][i];
    assert forall v :: 0 <= v < |s.workers| ==> Runners(s.workers, i)[v] == Runs(s.workers[v], i);
    hide Sum;
  }

  /**
   No packet is lost, and none is executed twice: when a collection ends, as many packets of every stage have been
   finished as were ever added to it.
   */
  lemma CollectionFinishesWhatWasAdded(start: State, steps: seq<Step>, w: nat, i: nat)
    requires Initial(start) && IsRun(start, steps) && 1 <= i < |start.buckets|
    requires Enabled(Run(start, steps), Monitor(w, LastPark)) && Run(start, steps).goals.current == Some(Gc)
    requires AfterLastPark(Run(start, steps), w).goals.current != Some(Gc)
    ensures AllFinished(start, steps, i) == AllAdded(start, steps, i)
  {
    var s := Run(start, steps);
    InitialInv(start);
    RunConserves(start, steps, i);
    InitialTotal(start, i);
    assert Reachable(s);
    hide Inv, IsRun, Run, Initial, Total, AllAdded, AllFinished, Reachable;
    CollectionEndsWhenDone(s, w);
    UnfinishedTotal(s, i);
  }
}
