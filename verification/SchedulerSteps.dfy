/** Every step of the scheduler protocol keeps its invariants. */
module SchedulerSteps {
  import opened Wrappers
  import opened WorkBuckets
  import opened WorkerGoals
  import opened SchedulerProtocol
  import opened SchedulerInvariants

  // ---------- frames ----------

  predicate SameActive(bs: Buckets, cs: Buckets) {
    |bs| == |cs| && forall b :: 0 <= b < |bs| ==> bs[b].active == cs[b].active
  }

  lemma SameTop(bs: Buckets, cs: Buckets)
    requires SameActive(bs, cs)
    ensures forall i {:trigger TopStage(cs, i)} :: TopStage(bs, i) <==> TopStage(cs, i)
  {
  }

  predicate SameRole(x: Worker, y: Worker) {
    x.Scheduling? || x.Pausing? || y.Scheduling? || y.Pausing? ==> x == y
  }

  ghost predicate SameRoles(ws: seq<Worker>, vs: seq<Worker>) {
    |ws| == |vs| && forall w :: 0 <= w < |ws| ==> SameRole(ws[w], vs[w])
  }

  /** Steps of workers that neither schedule nor pause, and that open no bucket. */
  lemma RolesKept(s: State, t: State)
    requires Opening1(s) && SameActive(s.buckets, t.buckets) && SameRoles(s.workers, t.workers)
    requires t.front == s.front && t.paused == s.paused
    ensures Opening1(t)
  {
    forall w | 0 <= w < |t.workers| && t.workers[w].Pausing?
      ensures PhaseHolds(t, t.workers[w].phase)
    {
      assert s.workers[w] == t.workers[w];
    }
    assert forall w :: 0 <= w < |t.workers| ==> SameRole(s.workers[w], t.workers[w]);
  }

  lemma GoalKept(s: State, t: State)
    requires GoalHolds(s) && SameActive(s.buckets, t.buckets) && SameRoles(s.workers, t.workers)
    requires t.front == s.front && t.paused == s.paused && t.goals.current == s.goals.current
    requires t.goals.current != Some(Gc) ==> forall w :: 0 <= w < |t.workers| ==> Idle(t.workers[w])
    ensures GoalHolds(t)
  {
    if s.goals.current == Some(Gc) && !s.buckets[1].active && s.front == Empty {
      var w :| 0 <= w < |s.workers| && Opener(s.workers[w]);
      assert SameRole(s.workers[w], t.workers[w]);
      assert Opener(t.workers[w]);
    }
  }

  /** Workers that see at least what they saw. */
  ghost predicate SeeMore(ws: seq<Worker>, vs: seq<Worker>, b: nat) {
    |ws| == |vs| && forall w :: 0 <= w < |ws| && Sees(ws[w], b) ==> Sees(vs[w], b)
  }

  lemma CoverKept(ws: seq<Worker>, vs: seq<Worker>, b: nat)
    requires Covered(ws, b) && SeeMore(ws, vs, b)
    ensures Covered(vs, b)
  {
    var w :| 0 <= w < |ws| && Sees(ws[w], b);
    assert Sees(vs[w], b);
  }

  ghost predicate NobodyReads(ws: seq<Worker>) {
    forall v :: 0 <= v < |ws| ==> ws[v] != Pausing(FirstEmpty) && ws[v] != Pausing(OthersParked)
  }

  lemma ClosedMeansNobodyReads(s: State)
    requires Opening1(s) && |s.buckets| >= 3 && !s.buckets[1].active
    ensures NobodyReads(s.workers)
  {
    assert forall v :: 0 <= v < |s.workers| && s.workers[v].Pausing? ==> PhaseHolds(s, s.workers[v].phase);
  }

  /** Steps that do not touch the first stage and let no resting worker do more. */
  lemma EarlyKept(s: State, t: State)
    requires EarlyOpening(s) && |t.workers| == |s.workers| && |t.buckets| == |s.buckets| && t.local == s.local
    requires SameRoles(s.workers, t.workers) && SeeMore(s.workers, t.workers, 1)
    requires NobodyReads(s.workers) ||
      (t.buckets[1] == s.buckets[1] &&
       forall v :: 0 <= v < |s.workers| && Resting(s.workers[v]) ==> Resting(t.workers[v]))
    ensures EarlyOpening(t)
  {
    hide Sees;
    forall v | 0 <= v < |t.workers| && t.workers[v] == Pausing(FirstEmpty) && t.buckets[1].count > 0
      ensures exists u :: 0 <= u < |t.workers| && u != v && Sees(t.workers[u], 1)
    {
      assert SameRole(s.workers[v], t.workers[v]);
      var u :| 0 <= u < |s.workers| && u != v && Sees(s.workers[u], 1);
      assert Sees(t.workers[u], 1);
    }
    assert forall v :: 0 <= v < |t.workers| ==> SameRole(s.workers[v], t.workers[v]);
  }

  lemma CountKept(s: State, t: State)
    requires Counted(s) && t.parked == s.parked && |t.workers| == |s.workers|
    requires forall w :: 0 <= w < |s.workers| ==> (s.workers[w].Parked? <==> t.workers[w].Parked?)
    ensures Counted(t)
  {
    CountSame(s.workers, t.workers);
  }

  /** Nobody leaves. */
  lemma ForkKept(s: State, t: State, w: nat, y: Worker)
    requires Forking(s) && w < |s.workers| && !Leaving(s.workers[w]) && !Leaving(y)
    requires t.workers == s.workers[w := y] && t.goals == s.goals && t.group == s.group && t.forking == s.forking
    ensures Forking(t)
  {
  }

  lemma AwakeWitness(s: State, w: nat)
    requires w < |s.workers| && Awake(s.workers[w])
    ensures SomebodyAwake(s)
  {
  }

  // ---------- packets ----------

  lemma PacketKeepsQueues(s: State, w: nat, step: PacketStep)
    requires Shape(s) && LocalsOwned(s) && Counted(s) && SomebodyAwake(s) && Requested(s) && CanPacket(s, w, step)
    ensures var t := DoPacket(s, w, step);
      Shape(t) && LocalsOwned(t) && Counted(t) && SomebodyAwake(t) && Requested(t)
  {
    CountKept(s, DoPacket(s, w, step));
    AwakeWitness(DoPacket(s, w, step), w);
  }

  lemma PacketKeepsCoverage(s: State, w: nat, step: PacketStep)
    requires Shape(s) && Coverage(s) && CanPacket(s, w, step)
    ensures Coverage(DoPacket(s, w, step))
  {
    var t := DoPacket(s, w, step);
    forall b | 0 <= b < |t.buckets| && Ready(t, b)
      ensures Covered(t.workers, b)
    {
      assert Sees(t.workers[w], b);
    }
  }

  lemma PacketKeepsOrder(s: State, w: nat, step: PacketStep)
    requires Shape(s) && Ordered(s.buckets) && FlightOnTop(s) && Opening1(s) && CanPacket(s, w, step)
    ensures Ordered(DoPacket(s, w, step).buckets)
  {
    var x := s.workers[w];
    if x.Running? {
      assert TopStage(s.buckets, x.stage);
    }
    assert x.Pausing? ==> PhaseHolds(s, x.phase);
  }

  lemma PacketKeepsFlight(s: State, w: nat, step: PacketStep)
    requires Shape(s) && FlightOnTop(s) && CanPacket(s, w, step)
    ensures FlightOnTop(DoPacket(s, w, step))
  {
    var t := DoPacket(s, w, step);
    SameTop(s.buckets, t.buckets);
    if step.AddLocal? {
      assert TopStage(s.buckets, s.workers[w].stage);
      assert step.b == s.workers[w].stage;
      assert QueueOnTop(s.buckets, s.local[w]);
      assert QueueOnTop(t.buckets, t.local[w]);
    } else if step.AddDesignated? {
      assert QueueOnTop(s.buckets, s.designated[step.v]) && QueueLate(s.designated[step.v]);
      assert QueueOnTop(t.buckets, t.designated[step.v]) && QueueLate(t.designated[step.v]);
    } else {
      QueuesFrame(s, t);
    }
  }

  lemma QueuesFrame(s: State, t: State)
    requires FlightOnTop(s) && SameActive(s.buckets, t.buckets) && t.local == s.local && t.designated == s.designated
    requires |t.workers| == |s.workers|
    requires forall w :: 0 <= w < |t.workers| && t.workers[w].Running? ==> t.workers[w] == s.workers[w]
    ensures FlightOnTop(t)
  {
    SameTop(s.buckets, t.buckets);
    forall w | 0 <= w < |t.workers|
      ensures QueueOnTop(t.buckets, t.local[w]) && QueueOnTop(t.buckets, t.designated[w])
    {
      assert QueueOnTop(s.buckets, s.local[w]) && QueueOnTop(s.buckets, s.designated[w]);
    }
  }

  lemma PacketKeepsOpening(s: State, w: nat, step: PacketStep)
    requires Shape(s) && Opening1(s) && GoalHolds(s) && CanPacket(s, w, step)
    ensures Opening1(DoPacket(s, w, step)) && GoalHolds(DoPacket(s, w, step))
  {
    var t := DoPacket(s, w, step);
    if step == IssueStop {
      assert !Idle(s.workers[w]);
      IssueStopOpens(s, w);
    } else if s.workers[w] == Scheduling(true) && step == Finish {
      assert !Idle(s.workers[w]);
      PlannerLeaves(s, w);
    } else {
      RolesKept(s, t);
      GoalKept(s, t);
    }
  }

  lemma IssueStopOpens(s: State, w: nat)
    requires Shape(s) && Opening1(s) && GoalHolds(s) && IsWorker(s, w) && s.workers[w] == Scheduling(false)
    ensures var t := Become(s, w, Scheduling(true)).(front := Stop);
      Opening1(t) && GoalHolds(t)
  {
    assert !Idle(s.workers[w]);
  }

  lemma PlannerLeaves(s: State, w: nat)
    requires Shape(s) && Opening1(s) && GoalHolds(s) && IsWorker(s, w) && s.workers[w] == Scheduling(true)
    ensures Opening1(Become(s, w, Polling)) && GoalHolds(Become(s, w, Polling))
  {
    var t := Become(s, w, Polling);
    assert !Idle(s.workers[w]);
    if !s.buckets[1].active && s.front == Empty {
      var v :| 0 <= v < |s.workers| && Opener(s.workers[v]);
      assert Opener(t.workers[v]);
    }
    forall v | 0 <= v < |t.workers| && t.workers[v].Pausing?
      ensures PhaseHolds(t, t.workers[v].phase)
    {
      assert s.workers[v] == t.workers[v];
    }
  }

  lemma PacketKeepsEarly(s: State, w: nat, step: PacketStep)
    requires Shape(s) && Opening1(s) && FlightOnTop(s) && EarlyOpening(s) && CanPacket(s, w, step)
    ensures EarlyOpening(DoPacket(s, w, step))
  {
    var t := DoPacket(s, w, step);
    forall v | 0 <= v < |t.workers| && t.workers[v] == Pausing(FirstEmpty) && t.buckets[1].count > 0
      ensures exists u :: 0 <= u < |t.workers| && u != v && Sees(t.workers[u], 1)
    {
      assert v != w && Sees(t.workers[w], 1);
    }
    assert !Resting(s.workers[w]) && s.workers[w] != Pausing(OthersParked);
    assert forall v :: 0 <= v < |t.workers| ==> t.workers[v] != Pausing(OthersParked);
  }

  lemma PacketKeepsForking(s: State, w: nat, step: PacketStep)
    requires Forking(s) && CanPacket(s, w, step)
    ensures Forking(DoPacket(s, w, step))
  {
    hide Forking;
    var t := DoPacket(s, w, step);
    ForkKept(s, t, w, t.workers[w]);
  }

  // ---------- polling ----------

  lemma PollKeepsQueues(s: State, w: nat, step: PollStep)
    requires Shape(s) && LocalsOwned(s) && Counted(s) && SomebodyAwake(s) && Requested(s) && CanPoll(s, w, step)
    ensures var t := DoPoll(s, w, step);
      Shape(t) && LocalsOwned(t) && Counted(t) && SomebodyAwake(t) && Requested(t)
  {
    CountKept(s, DoPoll(s, w, step));
    AwakeWitness(DoPoll(s, w, step), w);
  }

  lemma PollKeepsCoverage(s: State, w: nat, step: PollStep)
    requires Shape(s) && Coverage(s) && CanPoll(s, w, step)
    ensures Coverage(DoPoll(s, w, step))
  {
    var t := DoPoll(s, w, step);
    forall b | 0 <= b < |t.buckets| && Ready(t, b)
      ensures Covered(t.workers, b)
    {
      assert Ready(s, b);
      assert Sees(s.workers[w], b) ==> Sees(t.workers[w], b);
      CoverKept(s.workers, t.workers, b);
    }
  }

  lemma PollKeepsOrder(s: State, w: nat, step: PollStep)
    requires Shape(s) && Ordered(s.buckets) && CanPoll(s, w, step)
    ensures Ordered(DoPoll(s, w, step).buckets)
  {
  }

  /** A packet taken from an open bucket belongs to the last open stage. */
  lemma ReadyIsTop(s: State, b: nat)
    requires Ordered(s.buckets) && IsStage(s, b) && s.buckets[b].active && s.buckets[b].count > 0
    ensures TopStage(s.buckets, b)
  {
  }

  /** What a polling step leaves alone. */
  lemma PollFrame(s: State, w: nat, step: PollStep)
    requires CanPoll(s, w, step)
    ensures var t := DoPoll(s, w, step);
      && w < |s.workers| && (s.workers[w].Polling? || s.workers[w].Sweeping?) && IsWorker(t, w)
      && t.workers == s.workers[w := t.workers[w]] && !Leaving(t.workers[w])
      && SameActive(s.buckets, t.buckets) && t.goals == s.goals && t.group == s.group && t.forking == s.forking
      && t.paused == s.paused && |t.local| == |s.local| && |t.designated| == |s.designated|
      && (step != TakeFront ==> !t.workers[w].Scheduling? && !t.workers[w].Pausing?)
      && (step != TakeFront ==> t.front == s.front)
  {
  }

  lemma SubQueue(bs: Buckets, cs: Buckets, p: multiset<nat>, q: multiset<nat>)
    requires SameActive(bs, cs) && QueueOnTop(bs, p)
    requires forall i :: i in q ==> i in p || TopStage(bs, i)
    ensures QueueOnTop(cs, q)
  {
    SameTop(bs, cs);
  }

  lemma PollKeepsLocals(s: State, w: nat, step: PollStep, v: nat)
    requires Ordered(s.buckets) && CanPoll(s, w, step) && v < |s.workers| && QueueOnTop(s.buckets, s.local[v])
    ensures QueueOnTop(DoPoll(s, w, step).buckets, DoPoll(s, w, step).local[v])
  {
    hide QueueOnTop, TopStage, Ordered, NothingAt;
    if step.TakeBucket? {
      ReadyIsTop(s, step.b);
    }
    SubQueue(s.buckets, DoPoll(s, w, step).buckets, s.local[v], DoPoll(s, w, step).local[v]);
  }

  lemma PollKeepsDesignated(s: State, w: nat, step: PollStep, v: nat)
    requires CanPoll(s, w, step) && v < |s.workers|
    requires QueueOnTop(s.buckets, s.designated[v]) && QueueLate(s.designated[v])
    ensures var t := DoPoll(s, w, step); QueueOnTop(t.buckets, t.designated[v]) && QueueLate(t.designated[v])
  {
    hide QueueOnTop, TopStage, NothingAt;
    SubQueue(s.buckets, DoPoll(s, w, step).buckets, s.designated[v], DoPoll(s, w, step).designated[v]);
  }

  /** The packet a worker starts to run belongs to the last open stage. */
  lemma StartsOnTop(s: State, w: nat, step: PollStep)
    requires Ordered(s.buckets) && FlightOnTop(s) && CanPoll(s, w, step) && DoPoll(s, w, step).workers[w].Running?
    ensures TopStage(s.buckets, DoPoll(s, w, step).workers[w].stage)
  {
    match step
    case TakeDesignated(i) => assert QueueOnTop(s.buckets, s.designated[w]);
    case TakeLocal(i) => assert QueueOnTop(s.buckets, s.local[w]);
    case TakeBucket(b, _) => ReadyIsTop(s, b);
    case Steal(v, i) => assert QueueOnTop(s.buckets, s.local[v]);
    case _ =>
  }

  lemma PollKeepsFlight(s: State, w: nat, step: PollStep)
    requires Shape(s) && Ordered(s.buckets) && FlightOnTop(s) && CanPoll(s, w, step)
    ensures FlightOnTop(DoPoll(s, w, step))
  {
    var t := DoPoll(s, w, step);
    PollFrame(s, w, step);
    if t.workers[w].Running? {
      StartsOnTop(s, w, step);
    }
    forall v | 0 <= v < |t.workers|
      ensures QueueOnTop(t.buckets, t.local[v]) && QueueOnTop(t.buckets, t.designated[v]) && QueueLate(t.designated[v])
    {
      PollKeepsLocals(s, w, step, v);
      PollKeepsDesignated(s, w, step, v);
    }
    hide DoPoll, CanPoll, Ordered, Shape, QueueOnTop, QueueLate;
    SameTop(s.buckets, t.buckets);
  }

  lemma PollKeepsOpening(s: State, w: nat, step: PollStep)
    requires Shape(s) && Opening1(s) && GoalHolds(s) && FlightOnTop(s) && Ordered(s.buckets) && CanPoll(s, w, step)
    ensures Opening1(DoPoll(s, w, step)) && GoalHolds(DoPoll(s, w, step))
  {
    hide DoPoll, CanPoll, Opening1, Ordered, FlightOnTop, TopStage;
    var t := DoPoll(s, w, step);
    if step == TakeFront {
      FrontIsTaken(s, w);
    } else {
      PollFrame(s, w, step);
      RolesKept(s, t);
      if t.workers[w].Running? {
        StartsOnTop(s, w, step);
        TopIsOpen(s.buckets, t.workers[w].stage);
      }
      GoalKept(s, t);
    }
  }

  lemma TopIsOpen(bs: Buckets, i: nat)
    requires TopStage(bs, i)
    ensures !AllClosed(bs)
  {
  }

  lemma FrontIsTaken(s: State, w: nat)
    requires Shape(s) && Opening1(s) && GoalHolds(s) && CanPoll(s, w, TakeFront)
    ensures Opening1(DoPoll(s, w, TakeFront)) && GoalHolds(DoPoll(s, w, TakeFront))
  {
    assert Opener(DoPoll(s, w, TakeFront).workers[w]);
  }

  lemma PollKeepsEarly(s: State, w: nat, step: PollStep)
    requires Shape(s) && LocalsOwned(s) && Opening1(s) && FlightOnTop(s) && EarlyOpening(s) && CanPoll(s, w, step)
    ensures EarlyOpening(DoPoll(s, w, step))
  {
    hide DoPoll, CanPoll, LocalsOwned, FlightOnTop, Shape, Opening1, Sees;
    var t := DoPoll(s, w, step);
    PollFrame(s, w, step);
    forall v | 0 <= v < |t.workers| && t.workers[v] == Pausing(FirstEmpty) && t.buckets[1].count > 0
      ensures exists u :: 0 <= u < |t.workers| && u != v && Sees(t.workers[u], 1)
    {
      EarlyFirst(s, v, w, step);
      var u :| 0 <= u < |s.workers| && u != v && Sees(s.workers[u], 1);
      if u == w {
        StillSees(s, w, step);
      }
      assert Sees(t.workers[u], 1);
    }
    forall v | 0 <= v < |t.workers| && t.workers[v] == Pausing(OthersParked)
      ensures t.buckets[1].count == 0
      ensures forall u :: 0 <= u < |t.workers| && u != v ==> Resting(t.workers[u]) && t.local[u] == multiset{}
    {
      NothingToTake(s, v, w, step);
    }
  }

  lemma EarlyFirst(s: State, v: nat, w: nat, step: PollStep)
    requires Shape(s) && Opening1(s) && CanPoll(s, w, step)
    requires v < |s.workers| && DoPoll(s, w, step).workers[v] == Pausing(FirstEmpty)
    requires DoPoll(s, w, step).buckets[1].count > 0
    ensures v != w && s.workers[v] == Pausing(FirstEmpty) && s.buckets[1].count > 0 && s.buckets[1].active
  {
    assert s.workers[v] == Pausing(FirstEmpty);
    assert PhaseHolds(s, FirstEmpty);
  }

  lemma StillSees(s: State, w: nat, step: PollStep)
    requires Shape(s) && CanPoll(s, w, step) && Sees(s.workers[w], 1)
    requires DoPoll(s, w, step).buckets[1].count > 0 && s.buckets[1].active
    ensures Sees(DoPoll(s, w, step).workers[w], 1)
  {
  }

  /** While the pausing worker is about to open the second stage, the others find nothing. */
  lemma NothingToTake(s: State, v: nat, w: nat, step: PollStep)
    requires Shape(s) && LocalsOwned(s) && Opening1(s) && FlightOnTop(s) && EarlyOpening(s) && CanPoll(s, w, step)
    requires v < |s.workers| && DoPoll(s, w, step).workers[v] == Pausing(OthersParked)
    ensures v != w && s.workers[v] == Pausing(OthersParked) && Resting(DoPoll(s, w, step).workers[w])
    ensures DoPoll(s, w, step).local == s.local && DoPoll(s, w, step).buckets == s.buckets
  {
    assert v != w && s.workers[v] == Pausing(OthersParked);
    assert PhaseHolds(s, OthersParked) && Resting(s.workers[w]);
    assert QueueOnTop(s.buckets, s.designated[w]) && QueueLate(s.designated[w]);
    assert s.local[v] == multiset{};
  }

  lemma PollKeepsForking(s: State, w: nat, step: PollStep)
    requires Forking(s) && CanPoll(s, w, step)
    ensures Forking(DoPoll(s, w, step))
  {
    hide Forking, DoPoll, CanPoll;
    PollFrame(s, w, step);
    ForkKept(s, DoPoll(s, w, step), w, DoPoll(s, w, step).workers[w]);
  }

  // ---------- pausing ----------

  lemma PauseKeepsQueues(s: State, w: nat, step: PauseStep)
    requires Shape(s) && LocalsOwned(s) && Counted(s) && SomebodyAwake(s) && CanPause(s, w, step)
    ensures var t := DoPause(s, w, step); Shape(t) && LocalsOwned(t) && Counted(t) && SomebodyAwake(t)
  {
    CountKept(s, DoPause(s, w, step));
    AwakeWitness(DoPause(s, w, step), w);
  }

  lemma PauseKeepsRequested(s: State, w: nat, step: PauseStep)
    requires Requested(s) && Opening1(s) && GoalHolds(s) && CanPause(s, w, step)
    ensures Requested(DoPause(s, w, step))
  {
    assert !Idle(s.workers[w]) && PhaseHolds(s, s.workers[w].phase);
  }

  lemma PauseKeepsCoverage(s: State, w: nat, step: PauseStep)
    requires CanPause(s, w, step)
    ensures Coverage(DoPause(s, w, step))
  {
    var t := DoPause(s, w, step);
    forall b | 0 <= b < |t.buckets| && Ready(t, b)
      ensures Covered(t.workers, b)
    {
      assert Sees(t.workers[w], b);
    }
  }

  lemma PauseKeepsOrder(s: State, w: nat, step: PauseStep)
    requires Shape(s) && Ordered(s.buckets) && Opening1(s) && EarlyOpening(s) && CanPause(s, w, step)
    ensures Ordered(DoPause(s, w, step).buckets)
  {
    assert PhaseHolds(s, s.workers[w].phase);
  }

  /** When the second stage is opened early, no packet is in flight. */
  lemma NothingInFlight(s: State, w: nat)
    requires Shape(s) && LocalsOwned(s) && Opening1(s) && FlightOnTop(s) && EarlyOpening(s) && IsWorker(s, w)
    requires s.workers[w] == Pausing(OthersParked) || s.workers[w] == Pausing(Cleared)
    ensures forall v :: 0 <= v < |s.workers| ==> !s.workers[v].Running?
    ensures forall v :: 0 <= v < |s.workers| ==> s.local[v] == multiset{} && s.designated[v] == multiset{}
  {
    assert PhaseHolds(s, s.workers[w].phase);
    forall v | 0 <= v < |s.workers|
      ensures !s.workers[v].Running? && s.local[v] == multiset{} && s.designated[v] == multiset{}
    {
      assert QueueOnTop(s.buckets, s.local[v]) && QueueOnTop(s.buckets, s.designated[v]) && QueueLate(s.designated[v]);
    }
  }

  lemma PauseKeepsFlight(s: State, w: nat, step: PauseStep)
    requires Shape(s) && LocalsOwned(s) && Opening1(s) && FlightOnTop(s) && EarlyOpening(s) && CanPause(s, w, step)
    ensures FlightOnTop(DoPause(s, w, step))
  {
    var t := DoPause(s, w, step);
    if step == OpenFirst || step == OpenSecond {
      NothingInFlight(s, w);
    } else {
      QueuesFrame(s, t);
    }
  }

  lemma PauseKeepsOpening(s: State, w: nat, step: PauseStep)
    requires Shape(s) && Opening1(s) && GoalHolds(s) && EarlyOpening(s) && CanPause(s, w, step)
    ensures Opening1(DoPause(s, w, step)) && GoalHolds(DoPause(s, w, step))
  {
    var t := DoPause(s, w, step);
    PauseKeepsGoal(s, w, step);
    assert PhaseHolds(s, s.workers[w].phase);
    assert forall v :: 0 <= v < |s.workers| && s.workers[v].Scheduling? ==> LaterClosed(s.buckets);
    if step == OpenSecond {
      assert forall v :: 0 <= v < |s.workers| && v != w ==> Resting(s.workers[v]);
    }
    hide Opening1, GoalHolds, EarlyOpening, DisabledEmpty, OpenUpTo;
    PauserMoves(s, t, w);
  }

  lemma PauserMoves(s: State, t: State, w: nat)
    requires Opening1(s) && w < |s.workers| == |t.workers| && s.workers[w].Pausing? && t.front == s.front
    requires forall v :: 0 <= v < |s.workers| && v != w ==> SameRole(s.workers[v], t.workers[v])
    requires !t.workers[w].Scheduling? && (t.workers[w].Pausing? ==> PhaseHolds(t, t.workers[w].phase))
    requires forall v :: 0 <= v < |t.workers| && t.workers[v].Scheduling? ==> LaterClosed(t.buckets)
    ensures Opening1(t)
  {
  }

  lemma PauseKeepsGoal(s: State, w: nat, step: PauseStep)
    requires Opening1(s) && GoalHolds(s) && CanPause(s, w, step)
    ensures GoalHolds(DoPause(s, w, step))
  {
    assert PhaseHolds(s, s.workers[w].phase) && !Idle(s.workers[w]);
    if step == Pause {
      assert Opener(DoPause(s, w, step).workers[w]);
    }
  }

  lemma PauseKeepsEarly(s: State, w: nat, step: PauseStep)
    requires Shape(s) && LocalsOwned(s) && Counted(s) && Opening1(s) && EarlyOpening(s) && CanPause(s, w, step)
    ensures EarlyOpening(DoPause(s, w, step))
  {
    var t := DoPause(s, w, step);
    assert forall v :: 0 <= v < |s.workers| && v != w ==> !s.workers[v].Pausing?;
    hide Opening1;
    if t.workers[w] == Pausing(OthersParked) {
      OthersAreParked(s.workers, w);
      ParkedSeeNothing(s, w);
    }
    hide Counted, OpenUpTo, LocalsOwned;
  }

  lemma ParkedSeeNothing(s: State, w: nat)
    requires LocalsOwned(s) && EarlyOpening(s) && w < |s.workers| && s.workers[w] == Pausing(FirstEmpty)
    requires forall v :: 0 <= v < |s.workers| && v != w ==> s.workers[v].Parked?
    ensures s.buckets[1].count == 0
    ensures forall v :: 0 <= v < |s.workers| ==> s.local[v] == multiset{}
  {
  }

  lemma PauseKeepsForking(s: State, w: nat, step: PauseStep)
    requires Forking(s) && CanPause(s, w, step)
    ensures Forking(DoPause(s, w, step))
  {
    ExitsKept(s, DoPause(s, w, step), w);
  }

  lemma ExitsKept(s: State, t: State, w: nat)
    requires Forking(s) && w < |s.workers| == |t.workers| && !Leaving(s.workers[w])
    requires forall v :: 0 <= v < |s.workers| ==> (s.workers[v].Exited? <==> t.workers[v].Exited?)
    requires forall v :: 0 <= v < |s.workers| ==> (s.workers[v].Exiting? <==> t.workers[v].Exiting?)
    requires t.goals == s.goals && t.group == s.group && t.forking == s.forking
    ensures Forking(t)
  {
  }

  // ---------- parking ----------

  lemma MonitorKeepsQueues(s: State, w: nat, step: ParkStep)
    requires Shape(s) && LocalsOwned(s) && Counted(s) && Requested(s) && Forking(s)
    requires CanMonitor(s, w, step) && step != LastPark
    ensures var t := DoMonitor(s, w, step); Shape(t) && LocalsOwned(t) && Counted(t) && Requested(t)
  {
    assert s.workers[w].Exiting? ==> s.goals.current == Some(StopForFork);
    hide Forking;
    MonitorCounts(s, w, step);
    hide Counted;
  }

  lemma MonitorCounts(s: State, w: nat, step: ParkStep)
    requires Counted(s) && CanMonitor(s, w, step) && step != LastPark
    ensures Counted(DoMonitor(s, w, step))
  {
    CountUpdate(s.workers, w, DoMonitor(s, w, step).workers[w]);
  }

  lemma MonitorKeepsCoverage(s: State, w: nat, step: ParkStep)
    requires Shape(s) && Coverage(s) && CanMonitor(s, w, step) && step != LastPark
    ensures Coverage(DoMonitor(s, w, step))
  {
    var t := DoMonitor(s, w, step);
    forall b | 0 <= b < |t.buckets| && Ready(t, b)
      ensures Covered(t.workers, b)
    {
      assert Ready(s, b);
      CoverKept(s.workers, t.workers, b);
    }
  }

  lemma MonitorKeepsFlight(s: State, w: nat, step: ParkStep)
    requires Shape(s) && FlightOnTop(s) && Ordered(s.buckets) && CanMonitor(s, w, step) && step != LastPark
    ensures FlightOnTop(DoMonitor(s, w, step)) && Ordered(DoMonitor(s, w, step).buckets)
  {
    QueuesFrame(s, DoMonitor(s, w, step));
  }

  lemma MonitorKeepsOpening(s: State, w: nat, step: ParkStep)
    requires Shape(s) && Opening1(s) && GoalHolds(s) && Forking(s) && CanMonitor(s, w, step) && step != LastPark
    ensures Opening1(DoMonitor(s, w, step)) && GoalHolds(DoMonitor(s, w, step))
  {
    hide Opening1;
    var t := DoMonitor(s, w, step);
    RolesKept(s, t);
    if step != Surrender {
      GoalKept(s, t);
    }
  }

  lemma MonitorKeepsEarly(s: State, w: nat, step: ParkStep)
    requires Shape(s) && EarlyOpening(s) && Forking(s) && CanMonitor(s, w, step) && step != LastPark
    ensures EarlyOpening(DoMonitor(s, w, step))
  {
    hide Forking, EarlyOpening, Ordered, OpenUpTo, DisabledEmpty;
    if v :| 0 <= v < |s.workers| && s.workers[v].Pausing? {
      NobodyLeaves(s, v);
    }
    EarlyKept(s, DoMonitor(s, w, step));
  }

  lemma NobodyLeaves(s: State, v: nat)
    requires Forking(s) && v < |s.workers| && !Leaving(s.workers[v])
    ensures s.goals.current != Some(StopForFork)
    ensures forall w :: 0 <= w < |s.workers| ==> !s.workers[w].Exiting? && !s.workers[w].Exited?
  {
  }

  lemma MonitorKeepsAwake(s: State, w: nat, step: ParkStep)
    requires Shape(s) && Counted(s) && Forking(s) && SomebodyAwake(s) && CanMonitor(s, w, step) && step != LastPark
    ensures SomebodyAwake(DoMonitor(s, w, step))
  {
    var t := DoMonitor(s, w, step);
    if step == Park {
      var v := AnotherUp(s, w);
      assert !Leaving(s.workers[w]);
      assert Awake(t.workers[v]);
    } else if step == Surrender {
      if exists v :: 0 <= v < |s.workers| && v != w && !s.workers[v].Exited? {
        var v :| 0 <= v < |s.workers| && v != w && !s.workers[v].Exited?;
        assert Awake(t.workers[v]);
      }
    } else {
      assert Awake(t.workers[w]);
    }
  }

  /** A worker that is not the last one to park leaves another one that is not parked. */
  lemma AnotherUp(s: State, w: nat) returns (v: nat)
    requires Counted(s) && w < |s.workers| && s.workers[w].Parking? && s.parked + 1 != |s.workers|
    ensures v < |s.workers| && v != w && !s.workers[v].Parked?
  {
    if forall v :: 0 <= v < |s.workers| && v != w ==> s.workers[v].Parked? {
      AllCounted(s.workers[w := Parked(false)]);
      CountUpdate(s.workers, w, Parked(false));
      assert false;
    }
    v :| 0 <= v < |s.workers| && v != w && !s.workers[v].Parked?;
  }

  lemma {:induction false} AllCounted(ws: seq<Worker>)
    requires forall w :: 0 <= w < |ws| ==> ws[w].Parked?
    ensures CountParked(ws) == |ws|
  {
    if ws != [] {
      AllCounted(ws[..|ws| - 1]);
    }
  }

  lemma MonitorKeepsForking(s: State, w: nat, step: ParkStep)
    requires Forking(s) && CanMonitor(s, w, step) && step != LastPark
    ensures Forking(DoMonitor(s, w, step))
  {
    var t := DoMonitor(s, w, step);
    if step == Surrender {
      SurrenderKeepsForking(s, w);
    } else if s.goals.current == Some(StopForFork) {
      assert !s.workers[w].Exited? && Leaving(s.workers[w]);
      assert !t.workers[w].Exited? && Leaving(t.workers[w]);
    }
  }

  lemma SurrenderKeepsForking(s: State, w: nat)
    requires Forking(s) && IsWorker(s, w) && s.workers[w].Exiting?
    ensures Forking(AfterSurrender(s, w))
  {
    var t := AfterSurrender(s, w);
    GiveOne(s.workers, w, s.group.workers);
    hide GivenBack, NoDuplicates;
  }

  lemma GiveOne(ws: seq<Worker>, w: nat, given: seq<nat>)
    requires GivenBack(ws, given) && w < |ws| && ws[w].Exiting?
    ensures GivenBack(ws[w := Exited], given + [w])
    ensures |given| + 1 == |ws| <==> AllExited(ws[w := Exited])
  {
    var more := given + [w];
    assert forall v :: 0 <= v < |ws| ==> (v in more <==> v in given || v == w);
    if |more| == |ws| {
      AllGiven(more, |ws|);
    } else if AllExited(ws[w := Exited]) {
      forall v | 0 <= v < |ws|
        ensures v in more
      {
        assert ws[w := Exited][v].Exited?;
      }
      TooFew(more, |ws|);
      assert false;
    }
  }

  ghost function Below(n: nat): (r: set<nat>)
    ensures |r| == n && forall i :: i in r <==> 0 <= i < n
  {
    if n == 0 then {} else Below(n - 1) + {n - 1}
  }

  ghost function Members(xs: seq<nat>): (r: set<nat>)
    ensures forall i :: i in r <==> i in xs
    ensures |r| <= |xs| && (NoDuplicates(xs) ==> |r| == |xs|)
  {
    if xs == [] then {} else
      assert xs == xs[..|xs| - 1] + [xs[|xs| - 1]];
      Members(xs[..|xs| - 1]) + {xs[|xs| - 1]}
  }

  lemma SubsetCardinality(a: set<nat>, b: set<nat>)
    requires a <= b
    ensures |a| <= |b| && (|a| == |b| ==> a == b)
  {
    assert b == a + (b - a);
    assert |b| == |a| + |b - a|;
  }

  /** As many different workers as there are: all of them. */
  lemma AllGiven(given: seq<nat>, n: nat)
    requires NoDuplicates(given) && |given| == n && forall i :: 0 <= i < |given| ==> given[i] < n
    ensures forall w :: 0 <= w < n ==> w in given
  {
    SubsetCardinality(Members(given), Below(n));
    assert forall w :: 0 <= w < n ==> w in Below(n);
  }

  lemma TooFew(given: seq<nat>, n: nat)
    requires forall w :: 0 <= w < n ==> w in given
    requires NoDuplicates(given) && forall i :: 0 <= i < |given| ==> given[i] < n
    ensures |given| == n
  {
    assert Members(given) == Below(n);
  }

  // ---------- mutators ----------

  lemma MutatorKeepsQueues(s: State, step: MutatorStep)
    requires Shape(s) && LocalsOwned(s) && Counted(s) && Requested(s) && Forking(s) && CanMutator(s, step)
    ensures var t := DoMutator(s, step); Shape(t) && LocalsOwned(t) && Counted(t) && Requested(t)
  {
    var t := DoMutator(s, step);
    if step == Respawn {
      RespawnFindsAll(s);
      NoneParked(s.workers);
      NoneParked(t.workers);
    } else {
      CountSame(s.workers, t.workers);
    }
  }

  /** Respawning takes over all the workers. */
  lemma RespawnFindsAll(s: State)
    requires Forking(s) && |s.workers| >= 1 && CanMutator(s, Respawn)
    ensures AllExited(s.workers) && s.goals.current == None && !s.forking && !s.goals.forkRequested
  {
    AllGiven(s.group.workers, |s.workers|);
    assert s.workers[0].Exited?;
  }

  lemma MutatorKeepsCoverage(s: State, step: MutatorStep)
    requires Shape(s) && Coverage(s) && Forking(s) && CanMutator(s, step)
    ensures Coverage(DoMutator(s, step))
  {
    var t := DoMutator(s, step);
    if step == Respawn {
      RespawnFindsAll(s);
    }
    forall b | 0 <= b < |t.buckets| && Ready(t, b)
      ensures Covered(t.workers, b)
    {
      assert Ready(s, b);
      CoverKept(s.workers, t.workers, b);
    }
  }

  lemma MutatorKeepsFlight(s: State, step: MutatorStep)
    requires Shape(s) && FlightOnTop(s) && Ordered(s.buckets) && GoalHolds(s) && CanMutator(s, step)
    ensures FlightOnTop(DoMutator(s, step)) && Ordered(DoMutator(s, step).buckets)
  {
    QueuesFrame(s, DoMutator(s, step));
  }

  lemma MutatorRoles(s: State, step: MutatorStep)
    requires CanMutator(s, step) && (step == Respawn ==> AllExited(s.workers))
    ensures var t := DoMutator(s, step);
      && SameActive(s.buckets, t.buckets) && SameRoles(s.workers, t.workers)
      && t.front == s.front && t.paused == s.paused && t.goals.current == s.goals.current
      && ((forall w :: 0 <= w < |s.workers| ==> Idle(s.workers[w])) ==> forall w :: 0 <= w < |t.workers| ==>
        Idle(t.workers[w]))
  {
  }

  lemma MutatorKeepsOpening(s: State, step: MutatorStep)
    requires Shape(s) && Opening1(s) && GoalHolds(s) && Forking(s) && CanMutator(s, step)
    ensures Opening1(DoMutator(s, step)) && GoalHolds(DoMutator(s, step))
  {
    hide Opening1, Ordered, OpenUpTo, DisabledEmpty, AllClosed;
    var t := DoMutator(s, step);
    if step == Respawn {
      RespawnFindsAll(s);
    }
    hide Forking;
    MutatorRoles(s, step);
    hide DoMutator, CanMutator, SameRole;
    RolesKept(s, t);
    GoalKept(s, t);
  }

  lemma MutatorKeepsEarly(s: State, step: MutatorStep)
    requires Shape(s) && Opening1(s) && EarlyOpening(s) && Forking(s) && CanMutator(s, step)
    ensures EarlyOpening(DoMutator(s, step))
  {
    hide EarlyOpening, Forking;
    if step == Respawn {
      RespawnFindsAll(s);
    }
    if step.MutatorAdd? && step.b == 1 {
      ClosedMeansNobodyReads(s);
    }
    hide Opening1;
    EarlyKept(s, DoMutator(s, step));
  }

  lemma MutatorKeepsForking(s: State, step: MutatorStep)
    requires |s.workers| >= 1 && Forking(s) && CanMutator(s, step)
    ensures Forking(DoMutator(s, step))
  {
    if step == Respawn {
      RespawnFindsAll(s);
    } else if step.RequestGc? || step.RequestFork? {
      SignalKeepsForking(s, DoMutator(s, step));
    }
  }

  lemma SignalKeepsForking(s: State, t: State)
    requires Forking(s) && |t.workers| == |s.workers|
    requires forall v :: 0 <= v < |s.workers| ==> t.workers[v] == s.workers[v] || t.workers[v] == Notified(s.workers[v])
    requires t.goals.current == s.goals.current && t.group == s.group
    requires (t.goals.forkRequested || t.forking) == (s.goals.forkRequested || s.forking)
    requires !(t.forking && t.goals.forkRequested)
    ensures Forking(t)
  {
    if s.goals.current == Some(StopForFork) {
      var v :| 0 <= v < |s.workers| && !s.workers[v].Exited?;
      assert !t.workers[v].Exited?;
    }
  }

  lemma MutatorKeepsAwake(s: State, step: MutatorStep)
    requires Shape(s) && Forking(s) && SomebodyAwake(s) && CanMutator(s, step)
    ensures SomebodyAwake(DoMutator(s, step))
  {
    var t := DoMutator(s, step);
    if step == Respawn {
      assert Awake(t.workers[0]);
    } else if step.RequestGc? || step.RequestFork? {
      match step.woken
      case Some(v) => assert Awake(t.workers[v]) || t.workers == s.workers;
      case None =>
        if !AllExited(s.workers) {
          var v :| 0 <= v < |s.workers| && !s.workers[v].Exited?;
          assert Awake(t.workers[v]);
        }
    }
  }
}
