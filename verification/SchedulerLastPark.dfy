/** What the last parked worker finds, and what its callback keeps. */
module SchedulerLastPark {
  import opened Wrappers
  import opened WorkBuckets
  import opened WorkerGoals
  import opened SchedulerProtocol
  import opened SchedulerInvariants
  import opened SchedulerSteps

  /** Everybody but `w` is parked, and `w` is about to be. */
  ghost predicate Gathered(s: State, w: nat) {
    IsWorker(s, w) && s.workers[w].Parking? && forall v :: 0 <= v < |s.workers| && v != w ==> s.workers[v].Parked?
  }

  /** Nothing that could be executed is left in an open bucket, a local queue or the front. */
  ghost predicate NothingLeft(s: State) {
    && |s.local| == |s.workers|
    && (forall b :: 0 <= b < |s.buckets| ==> !Ready(s, b))
    && (forall v :: 0 <= v < |s.workers| ==> s.local[v] == multiset{})
    && (forall v :: 0 <= v < |s.workers| ==> Idle(s.workers[v]))
  }

  lemma LastParkGathers(s: State, w: nat)
    requires Counted(s) && CanMonitor(s, w, LastPark)
    ensures Gathered(s, w)
  {
    OthersAreParked(s.workers, w);
  }

  /** No lost work: when the callback of the last parked worker runs, everything open is drained. */
  lemma NoLostWork(s: State, w: nat)
    requires Shape(s) && LocalsOwned(s) && Coverage(s) && Gathered(s, w)
    ensures NothingLeft(s)
  {
    forall b | 0 <= b < |s.buckets|
      ensures !Ready(s, b)
    {
      assert forall v :: 0 <= v < |s.workers| ==> !Sees(s.workers[v], b);
      assert !Covered(s.workers, b);
    }
  }

  /** The goal is not to stop, and no further collection was requested during this one. */
  lemma CallbackFacts(s: State, w: nat)
    requires Shape(s) && GoalHolds(s) && Requested(s) && Forking(s) && Gathered(s, w) && NothingLeft(s)
    ensures s.goals.current != Some(StopForFork)
    ensures s.goals.current == Some(Gc) ==>
      s.buckets[1].active && s.paused && !s.goals.gcRequested && s.requesters == 0 && !s.flag
    ensures s.front == Empty
    ensures Callback(s) != Panic
  {
    assert !Leaving(s.workers[w]);
    assert !Ready(s, 0);
    assert forall v :: 0 <= v < |s.workers| ==> !Opener(s.workers[v]);
  }

  /** All invariants but those that speak of who is awake. */
  ghost predicate Base(s: State) {
    && Shape(s) && Counted(s) && LocalsOwned(s) && Ordered(s.buckets) && FlightOnTop(s)
    && Opening1(s) && GoalHolds(s) && EarlyOpening(s) && Requested(s) && HolderRequests(s)
  }

  // ---------- waking up ----------

  lemma SettleKeepsBase(s: State, w: nat, verdict: Verdict)
    requires Base(s) && Gathered(s, w)
    ensures Base(Settle(s, w, verdict))
  {
    hide Ordered, FlightOnTop, Opening1, EarlyOpening, Requested, Counted, LocalsOwned, DisabledEmpty, OpenUpTo;
    var t := Settle(s, w, verdict);
    SettleQueues(s, w, verdict);
    QueuesFrame(s, t);
    RolesKept(s, t);
    GoalKept(s, t);
    EarlyKept(s, t);
  }

  lemma SettleQueues(s: State, w: nat, verdict: Verdict)
    requires Shape(s) && Counted(s) && LocalsOwned(s) && Requested(s) && Gathered(s, w)
    ensures var t := Settle(s, w, verdict); Shape(t) && Counted(t) && LocalsOwned(t) && Requested(t)
  {
    var t := Settle(s, w, verdict);
    CountUpdate(s.workers, w, t.workers[w]);
    CountSame(s.workers[w := t.workers[w]], t.workers);
  }

  lemma SettleKeepsCoverage(s: State, w: nat, verdict: Verdict)
    requires GoalHolds(s) && Gathered(s, w) && (verdict == ParkSelf ==> s.goals.current == None)
    ensures Coverage(Settle(s, w, verdict))
  {
    var t := Settle(s, w, verdict);
    forall b | 0 <= b < |t.buckets| && Ready(t, b)
      ensures Covered(t.workers, b)
    {
      assert s.goals.current == Some(Gc);
      assert Sees(t.workers[w], b);
    }
  }

  lemma SettleKeepsAwake(s: State, w: nat, verdict: Verdict)
    requires Gathered(s, w)
    requires verdict == ParkSelf ==> s.goals == Goals(None, false, false)
    ensures SomebodyAwake(Settle(s, w, verdict))
  {
    if verdict != ParkSelf {
      assert Awake(Settle(s, w, verdict).workers[w]);
    }
  }

  lemma SettleKeepsForking(s: State, w: nat, verdict: Verdict)
    requires Forking(s) && Gathered(s, w)
    ensures Forking(Settle(s, w, verdict))
  {
    ExitsKept(s, Settle(s, w, verdict), w);
  }

  // ---------- what the callback does ----------

  /** Designated packets or sentinels were found: nothing else changes. */
  lemma SentinelsKeepBase(s: State, w: nat)
    requires Base(s) && Gathered(s, w)
    ensures Base(s.(buckets := ScheduleSentinels(s.buckets)))
  {
    var t := s.(buckets := ScheduleSentinels(s.buckets));
    SentinelsKeepOrder(s.buckets);
    QueuesFrame(s, t);
    RolesKept(s, t);
    GoalKept(s, t);
    EarlyKept(s, t);
  }

  lemma GatheredIdle(s: State, w: nat)
    requires Gathered(s, w)
    ensures NoPausing(s.workers) && NoScheduling(s.workers) && NobodyReads(s.workers)
    ensures forall v :: 0 <= v < |s.workers| ==> Idle(s.workers[v])
  {
  }

  /** The state in which the last parked worker looks for the next stage to open. */
  ghost predicate Drained(s: State) {
    && NothingLeft(s) && !HasDesignated(s) && !HasSentinel(s.buckets) && |s.buckets| >= 3
    && s.goals.current == Some(Gc) && s.buckets[1].active && s.paused && s.front == Empty
    && !s.flag && !s.goals.gcRequested && s.requesters == 0
  }

  lemma DrainedIsQuiet(s: State)
    requires Shape(s) && Drained(s)
    ensures Quiet(s.buckets)
  {
    forall b | 1 <= b < |s.buckets| && s.buckets[b].active
      ensures Done(s.buckets[b])
    {
      assert !Ready(s, b);
    }
  }

  /** What update_buckets makes of a drained state. */
  lemma UpdateFacts(s: State)
    requires Shape(s) && Ordered(s.buckets) && Drained(s)
    ensures var r := OpenFrom(s.buckets, s.progress + 1);
      && Ordered(r.buckets) && DisabledEmpty(r.buckets)
      && r.buckets[0] == s.buckets[0] && r.buckets[1] == s.buckets[1]
      && (r.found == NOTHING || (1 <= r.found && OpenUpTo(r.buckets, r.found)))
      && r == OpenFrom(s.buckets, 1)
  {
    DrainedIsQuiet(s);
    ResumeIsRestart(s.buckets, s.progress, 1);
    OpenKeepsOrder(s.buckets, 1);
    OpenWidens(s.buckets, 1);
    OpenedUpTo(s.buckets, 1);
  }

  /** With nothing in flight, the other invariants do not depend on which stages are open. */
  lemma EmptyKeepsFlight(s: State, w: nat, t: State)
    requires Gathered(s, w) && NothingLeft(s) && !HasDesignated(s)
    requires t.workers == s.workers && t.local == s.local && t.designated == s.designated
    ensures FlightOnTop(t)
  {
    forall v | 0 <= v < |t.workers|
      ensures t.local[v] == multiset{} && t.designated[v] == multiset{} && !t.workers[v].Running?
    {
      assert s.designated[v] == multiset{};
    }
  }

  lemma OpenKeepsBase(s: State, w: nat, found: nat)
    requires Base(s) && Gathered(s, w) && Drained(s)
    requires OpenFrom(s.buckets, s.progress + 1).found == found
    ensures Base(s.(buckets := OpenFrom(s.buckets, s.progress + 1).buckets, progress := found))
  {
    hide OpenFrom, Ordered, DisabledEmpty;
    var t := s.(buckets := OpenFrom(s.buckets, s.progress + 1).buckets, progress := found);
    UpdateFacts(s);
    EmptyKeepsFlight(s, w, t);
    GatheredIdle(s, w);
    hide FlightOnTop, OpenUpTo, Drained;
    EarlyKept(s, t);
  }

  function FinishedState(s: State): State
    requires OpenUpTo(s.buckets, s.progress)
  {
    WithScene(s, Finished(SceneOf(s).(buckets := OpenFrom(s.buckets, s.progress + 1).buckets, progress := 0)))
  }

  lemma FinishKeepsBase(s: State, w: nat)
    requires Base(s) && Gathered(s, w) && Drained(s)
    ensures Base(FinishedState(s)) && Gathered(FinishedState(s), w)
    ensures FinishedState(s).goals.current == None && FinishedState(s).front == Empty
  {
    hide OpenFrom, Ordered, DisabledEmpty;
    var t := FinishedState(s);
    UpdateFacts(s);
    var bs := OpenFrom(s.buckets, s.progress + 1).buckets;
    ClosedBuckets(bs);
    EmptyKeepsFlight(s, w, t);
    GatheredIdle(s, w);
    hide FlightOnTop, Deactivated;
    EarlyKept(s, t);
  }

  lemma ClosedBuckets(bs: Buckets)
    requires |bs| >= 3
    ensures AllClosed(Deactivated(bs)) && Ordered(Deactivated(bs))
    ensures !bs[0].disabled ==> DisabledEmpty(Deactivated(bs))
    ensures OpenUpTo(Deactivated(bs), 0) && Deactivated(bs)[0] == bs[0]
    ensures Deactivated(bs)[1].sentinel == bs[1].sentinel
  {
  }

  function Responded(s: State): State {
    WithScene(s, Respond(SceneOf(s)).scene)
  }

  lemma RespondKeepsBase(s: State, w: nat)
    requires Base(s) && Gathered(s, w) && s.goals.current == None
    ensures Base(Responded(s)) && Gathered(Responded(s), w)
  {
    hide Ordered, DisabledEmpty, FlightOnTop;
    var t := Responded(s);
    GatheredIdle(s, w);
    QueuesFrame(s, t);
    EarlyKept(s, t);
    if s.goals.gcRequested {
      assert t.front == Schedule;
    }
  }

  lemma RespondKeepsForking(s: State, w: nat)
    requires Forking(s) && Gathered(s, w) && s.goals.current == None
    ensures Forking(Settle(Responded(s), w, Respond(SceneOf(s)).verdict))
  {
    var t := Settle(Responded(s), w, Respond(SceneOf(s)).verdict);
    NobodyLeaves(s, w);
    if t.goals.current == Some(StopForFork) {
      assert !t.workers[w].Exited?;
      assert forall v :: 0 <= v < |t.workers| ==> Leaving(t.workers[v]);
    }
  }

  lemma RespondKeeps(s: State, w: nat)
    requires Base(s) && Forking(s) && Gathered(s, w) && s.goals.current == None
    ensures Inv(Settle(Responded(s), w, Respond(SceneOf(s)).verdict))
  {
    hide Settle, Forking, GoalHolds;
    var t, verdict := Responded(s), Respond(SceneOf(s)).verdict;
    RespondKeepsBase(s, w);
    SettleKeepsBase(t, w, verdict);
    SettleKeepsCoverage(t, w, verdict);
    SettleKeepsAwake(t, w, verdict);
    RespondKeepsForking(s, w);
  }

  lemma WakeAllKeeps(s: State, w: nat)
    requires Base(s) && Forking(s) && Gathered(s, w)
    ensures Inv(Settle(s, w, WakeAll))
  {
    hide Settle, Forking, GoalHolds;
    SettleKeepsBase(s, w, WakeAll);
    SettleKeepsCoverage(s, w, WakeAll);
    SettleKeepsAwake(s, w, WakeAll);
    SettleKeepsForking(s, w, WakeAll);
  }

  /** Forking speaks of the workers, the goals and the group only. */
  lemma ForkFrame(s: State, t: State, w: nat)
    requires Forking(s) && w < |s.workers| && !Leaving(s.workers[w])
    requires t.workers == s.workers && t.group == s.group && t.forking == s.forking
    requires t.goals.forkRequested == s.goals.forkRequested && t.goals.current != Some(StopForFork)
    ensures Forking(t)
  {
    NobodyLeaves(s, w);
  }

  lemma LastParkFacts(s: State, w: nat)
    requires Inv(s) && CanMonitor(s, w, LastPark)
    ensures Gathered(s, w) && NothingLeft(s) && Callback(s) != Panic
    ensures s.goals.current == Some(Gc) && !HasDesignated(s) && !HasSentinel(s.buckets) ==> Drained(s)
    ensures s.goals.current != Some(StopForFork)
  {
    LastParkGathers(s, w);
    NoLostWork(s, w);
    CallbackFacts(s, w);
  }

  lemma LastParkKeeps(s: State, w: nat)
    requires Inv(s) && CanMonitor(s, w, LastPark)
    ensures Inv(AfterLastPark(s, w))
  {
    LastParkFacts(s, w);
    InvParts(s, w);
    AnswerCases(s, w);
    hide Inv, Base, Settle, CanMonitor, Drained, Forking, AfterLastPark, Callback, Responded;
    if s.goals.current == None {
      RespondKeeps(s, w);
    } else if HasDesignated(s) {
      WakeAllKeeps(s, w);
    } else if HasSentinel(s.buckets) {
      SentinelsKeep(s, w);
    } else if OpenFrom(s.buckets, s.progress + 1).found > 0 {
      OpeningKeeps(s, w);
    } else {
      FinishKeeps(s, w);
    }
  }

  /** The callback before the end of a collection. */
  lemma AnswerCases(s: State, w: nat)
    requires IsWorker(s, w) && OpenUpTo(s.buckets, s.progress) && Callback(s) != Panic
    ensures s.goals.current == None ==>
      AfterLastPark(s, w) == Settle(Responded(s), w, Respond(SceneOf(s)).verdict)
    ensures s.goals.current == Some(Gc) && HasDesignated(s) ==> AfterLastPark(s, w) == Settle(s, w, WakeAll)
    ensures s.goals.current == Some(Gc) && !HasDesignated(s) && HasSentinel(s.buckets) ==>
      AfterLastPark(s, w) == Settle(s.(buckets := ScheduleSentinels(s.buckets)), w, WakeAll)
    ensures s.goals.current == Some(Gc) && !HasDesignated(s) && !HasSentinel(s.buckets) ==>
      var r := OpenFrom(s.buckets, s.progress + 1);
      r.found > 0 ==> AfterLastPark(s, w) == Settle(s.(buckets := r.buckets, progress := r.found), w, WakeAll)
  {
    hide Settle, OpenFrom, HasSentinel, HasDesignated, ScheduleSentinels;
  }

  lemma InvParts(s: State, w: nat)
    requires Inv(s) && Gathered(s, w)
    ensures Base(s) && Forking(s) && OpenUpTo(s.buckets, s.progress)
    ensures s.goals.current == Some(Gc) ==> !s.goals.gcRequested
  {
    NoLostWork(s, w);
    CallbackFacts(s, w);
  }

  lemma SentinelsKeep(s: State, w: nat)
    requires Base(s) && Forking(s) && Gathered(s, w)
    ensures Inv(Settle(s.(buckets := ScheduleSentinels(s.buckets)), w, WakeAll))
  {
    hide Base, Forking, Inv, Settle;
    var t := s.(buckets := ScheduleSentinels(s.buckets));
    SentinelsKeepBase(s, w);
    if s.goals.current != Some(StopForFork) {
      ForkFrame(s, t, w);
    } else {
      LeavingNotParking(s, w);
    }
    WakeAllKeeps(t, w);
  }

  lemma LeavingNotParking(s: State, w: nat)
    requires Forking(s) && Gathered(s, w)
    ensures s.goals.current != Some(StopForFork)
  {
    NobodyLeaves(s, w);
  }

  lemma OpeningKeeps(s: State, w: nat)
    requires Base(s) && Forking(s) && Gathered(s, w) && Drained(s) && OpenUpTo(s.buckets, s.progress)
    requires OpenFrom(s.buckets, s.progress + 1).found > 0
    ensures var r := OpenFrom(s.buckets, s.progress + 1);
      Inv(Settle(s.(buckets := r.buckets, progress := r.found), w, WakeAll))
  {
    hide Base, Forking, Inv, Settle, OpenFrom, OpenUpTo;
    var r := OpenFrom(s.buckets, s.progress + 1);
    var t := s.(buckets := r.buckets, progress := r.found);
    OpenKeepsBase(s, w, r.found);
    ForkFrame(s, t, w);
    WakeAllKeeps(t, w);
  }

  lemma FinishKeeps(s: State, w: nat)
    requires Base(s) && Forking(s) && Gathered(s, w) && Drained(s) && OpenUpTo(s.buckets, s.progress)
    requires OpenFrom(s.buckets, s.progress + 1).found <= 0
    ensures Inv(AfterLastPark(s, w))
  {
    FinishLeads(s, w);
    hide Base, Forking, Inv, Settle, OpenFrom, OpenUpTo, AfterLastPark;
    FinishKeepsBase(s, w);
    ForkFrame(s, FinishedState(s), w);
    RespondKeeps(FinishedState(s), w);
  }

  /** A collection with nothing left to do ends, and then the pending requests are served. */
  lemma FinishLeads(s: State, w: nat)
    requires IsWorker(s, w) && OpenUpTo(s.buckets, s.progress)
    requires s.goals.current == Some(Gc) && !s.goals.gcRequested && !HasDesignated(s) && !HasSentinel(s.buckets)
    requires OpenFrom(s.buckets, s.progress + 1).found <= 0
    ensures AfterLastPark(s, w) == Settle(Responded(FinishedState(s)), w, Respond(SceneOf(FinishedState(s))).verdict)
    ensures FinishedState(s).workers == s.workers && FinishedState(s).group == s.group
    ensures FinishedState(s).forking == s.forking && FinishedState(s).goals == s.goals.(current := None)
  {
    hide OpenFrom, Settle, HasDesignated, HasSentinel;
  }
}
