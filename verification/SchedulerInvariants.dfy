/** What every step of the scheduler protocol keeps. */
module SchedulerInvariants {
  import opened Wrappers
  import opened WorkBuckets
  import opened WorkerGoals
  import opened SchedulerProtocol

  // ---------- counting parked workers ----------

  function CountParked(ws: seq<Worker>): nat {
    if ws == [] then 0 else CountParked(ws[..|ws| - 1]) + if ws[|ws| - 1].Parked? then 1 else 0
  }

  lemma {:induction false} CountSame(ws: seq<Worker>, vs: seq<Worker>)
    requires |ws| == |vs| && forall w :: 0 <= w < |ws| ==> (ws[w].Parked? <==> vs[w].Parked?)
    ensures CountParked(ws) == CountParked(vs)
  {
    if ws != [] {
      CountSame(ws[..|ws| - 1], vs[..|vs| - 1]);
    }
  }

  lemma {:induction false} CountUpdate(ws: seq<Worker>, w: nat, x: Worker)
    requires w < |ws|
    ensures CountParked(ws[w := x]) ==
      CountParked(ws) + (if x.Parked? then 1 else 0) - (if ws[w].Parked? then 1 else 0)
  {
    var last := |ws| - 1;
    if w == last {
      assert ws[w := x][..last] == ws[..last];
    } else {
      assert ws[w := x][..last] == ws[..last][w := x];
      CountUpdate(ws[..last], w, x);
    }
  }

  lemma {:induction false} CountAtMost(ws: seq<Worker>)
    ensures CountParked(ws) <= |ws|
    ensures CountParked(ws) == |ws| ==> forall v :: 0 <= v < |ws| ==> ws[v].Parked?
  {
    if ws != [] {
      CountAtMost(ws[..|ws| - 1]);
      assert forall v :: 0 <= v < |ws| - 1 ==> ws[v] == ws[..|ws| - 1][v];
    }
  }

  /** If only one worker is not counted, all others are parked. */
  lemma OthersAreParked(ws: seq<Worker>, w: nat)
    requires w < |ws| && !ws[w].Parked? && CountParked(ws) + 1 == |ws|
    ensures forall v :: 0 <= v < |ws| && v != w ==> ws[v].Parked?
  {
    CountUpdate(ws, w, Parked(false));
    CountAtMost(ws[w := Parked(false)]);
    assert forall v :: 0 <= v < |ws| && v != w ==> ws[v] == ws[w := Parked(false)][v];
  }

  // ---------- the invariants ----------

  ghost predicate Shape(s: State) {
    && |s.workers| >= 1 && |s.buckets| >= 3 && |s.local| == |s.designated| == |s.workers|
    && s.buckets[0] == Bucket(true, false, 0, false) && !s.buckets[1].sentinel
    && DisabledEmpty(s.buckets) && OpenUpTo(s.buckets, s.progress)
  }

  ghost predicate Counted(s: State) {
    s.parked == CountParked(s.workers)
  }

  /** Only a worker that executes or is about to take a packet has packets in its local queue. */
  ghost predicate LocalsOwned(s: State) {
    |s.local| == |s.workers| &&
    forall w :: 0 <= w < |s.workers| && s.local[w] != multiset{} ==> s.workers[w].Running? || s.workers[w].Polling?
  }

  predicate Busy(x: Worker) {
    x.Running? || x.Scheduling? || x.Pausing? || x.Polling?
  }

  /** The worker will still look at bucket `b` before it parks. */
  predicate Sees(x: Worker, b: nat) {
    Busy(x) || (x.Sweeping? && (x.retry || !x.slow || x.pos <= 1 + b))
  }

  ghost predicate Covered(ws: seq<Worker>, b: nat) {
    exists w :: 0 <= w < |ws| && Sees(ws[w], b)
  }

  predicate Ready(s: State, b: nat)
    requires b < |s.buckets|
  {
    if b == 0 then s.front != Empty
    else s.buckets[b].active && !s.buckets[b].disabled && s.buckets[b].count > 0
  }

  /** Whatever can be taken from a bucket will be seen by some worker. */
  ghost predicate Coverage(s: State) {
    forall b :: 0 <= b < |s.buckets| && Ready(s, b) ==> Covered(s.workers, b)
  }

  /** `i` is the last open stage. */
  ghost predicate TopStage(bs: Buckets, i: nat) {
    1 <= i < |bs| && bs[i].active && forall j :: i < j < |bs| ==> !bs[j].active
  }

  ghost predicate QueueOnTop(bs: Buckets, queue: multiset<nat>) {
    forall i :: i in queue ==> TopStage(bs, i)
  }

  ghost predicate QueueLate(queue: multiset<nat>) {
    forall i :: i in queue ==> i >= 2
  }

  /** Every packet that left its bucket and has not finished belongs to the last open stage. */
  ghost predicate FlightOnTop(s: State) {
    && |s.local| == |s.designated| == |s.workers|
    && (forall w :: 0 <= w < |s.workers| && s.workers[w].Running? ==> TopStage(s.buckets, s.workers[w].stage))
    && (forall w :: 0 <= w < |s.workers| ==> QueueOnTop(s.buckets, s.local[w]))
    && (forall w :: 0 <= w < |s.workers| ==> QueueOnTop(s.buckets, s.designated[w]))
    && (forall w :: 0 <= w < |s.workers| ==> QueueLate(s.designated[w]))
  }

  predicate AllClosed(bs: Buckets) {
    forall b :: 1 <= b < |bs| ==> !bs[b].active
  }

  predicate OnlyFirst(bs: Buckets) {
    |bs| >= 3 && bs[1].active && forall b :: 2 <= b < |bs| ==> !bs[b].active
  }

  predicate LaterClosed(bs: Buckets) {
    forall b :: 2 <= b < |bs| ==> !bs[b].active
  }

  ghost predicate NoScheduling(ws: seq<Worker>) {
    forall w :: 0 <= w < |ws| ==> !ws[w].Scheduling?
  }

  ghost predicate NoPausing(ws: seq<Worker>) {
    forall w :: 0 <= w < |ws| ==> !ws[w].Pausing?
  }

  ghost predicate NoUnissued(ws: seq<Worker>) {
    forall w :: 0 <= w < |ws| ==> ws[w] != Scheduling(false)
  }

  /** The packets that lead to the opening of the first stage: one of them at a time. */
  ghost predicate Opening1(s: State) {
    && (s.front != Empty ==> AllClosed(s.buckets) && !s.paused && NoPausing(s.workers) && NoUnissued(s.workers))
    && (s.front == Schedule ==> NoScheduling(s.workers))
    && (forall w :: 0 <= w < |s.workers| && s.workers[w].Scheduling? ==>
          && LaterClosed(s.buckets)
          && forall v :: 0 <= v < |s.workers| && v != w ==> !s.workers[v].Scheduling?)
    && (forall w :: 0 <= w < |s.workers| && s.workers[w] == Scheduling(false) ==>
          s.front == Empty && AllClosed(s.buckets) && !s.paused && NoPausing(s.workers))
    && (forall w :: 0 <= w < |s.workers| && s.workers[w].Pausing? ==>
          && s.front == Empty && NoUnissued(s.workers) && PhaseHolds(s, s.workers[w].phase)
          && forall v :: 0 <= v < |s.workers| && v != w ==> !s.workers[v].Pausing?)
  }

  predicate PhaseHolds(s: State, p: Phase) {
    match p
    case Stopping => AllClosed(s.buckets) && !s.paused
    case Cleared => AllClosed(s.buckets) && s.paused
    case Opened => |s.buckets| >= 3 && s.buckets[1].active && s.paused
    case _ => OnlyFirst(s.buckets) && s.paused
  }

  /** While the first stage is closed, something will open it. */
  ghost predicate WillOpen(s: State) {
    s.front != Empty || exists w :: 0 <= w < |s.workers| && Opener(s.workers[w])
  }

  predicate Opener(x: Worker) {
    x == Scheduling(false) || x == Pausing(Stopping) || x == Pausing(Cleared)
  }

  /** Collections run only while the Gc goal is current. */
  ghost predicate GoalHolds(s: State) {
    && |s.buckets| >= 3
    && (s.goals.current == Some(Gc) ==> s.buckets[1].active || WillOpen(s))
    && (s.goals.current != Some(Gc) ==>
          AllClosed(s.buckets) && s.front == Empty && !s.paused && forall w :: 0 <= w < |s.workers| ==>
            Idle(s.workers[w]))
    && (s.buckets[1].active ==> s.paused)
    && (AllClosed(s.buckets) || s.buckets[1].active)
  }

  predicate Idle(x: Worker) {
    !x.Running? && !x.Scheduling? && !x.Pausing?
  }

  /** The second stage is opened early only when the first one is finished. */
  ghost predicate EarlyOpening(s: State) {
    && |s.buckets| >= 3 && |s.local| == |s.workers|
    && (forall w :: 0 <= w < |s.workers| && s.workers[w] == Pausing(FirstEmpty) && s.buckets[1].count > 0 ==>
          exists v :: 0 <= v < |s.workers| && v != w && Sees(s.workers[v], 1))
    && (forall w :: 0 <= w < |s.workers| && s.workers[w] == Pausing(OthersParked) ==>
          && s.buckets[1].count == 0
          && forall v :: 0 <= v < |s.workers| && v != w ==> Resting(s.workers[v]) && s.local[v] == multiset{})
  }

  predicate Resting(x: Worker) {
    x.Parked? || x.Sweeping? || x.Parking?
  }

  /** request_flag is up exactly while one request is on its way to a pause. */
  ghost predicate Requested(s: State) {
    && s.requesters + (if s.goals.gcRequested then 1 else 0)
       + (if s.goals.current == Some(Gc) && !s.paused then 1 else 0) == (if s.flag then 1 else 0)
    && (s.paused ==> s.goals.current == Some(Gc) && !s.flag)
  }

  /** Who holds the mutex has not finished its request. */
  ghost predicate HolderRequests(s: State) {
    (s.holder == Some(Gc) ==> s.requesters > 0) && (s.holder == Some(StopForFork) ==> s.forking)
  }

  ghost predicate AllExited(ws: seq<Worker>) {
    forall w :: 0 <= w < |ws| ==> ws[w].Exited?
  }

  predicate Leaving(x: Worker) {
    x == Parked(true) || x.Exiting? || x.Exited?
  }

  ghost predicate NoDuplicates(xs: seq<nat>) {
    forall i, j :: 0 <= i < j < |xs| ==> xs[i] != xs[j]
  }

  /** Workers exit only for a fork, and each of them is surrendered once. */
  ghost predicate Forking(s: State) {
    && (s.goals.current == Some(StopForFork) ==>
          && (forall w :: 0 <= w < |s.workers| ==> Leaving(s.workers[w]))
          && s.group.Surrendered? && !s.forking && !s.goals.forkRequested
          && exists w :: 0 <= w < |s.workers| && !s.workers[w].Exited?)
    && (s.forking || s.goals.forkRequested ==> s.group == Surrendered([]))
    && !(s.forking && s.goals.forkRequested)
    && (forall w :: 0 <= w < |s.workers| && s.workers[w].Exiting? ==> s.goals.current == Some(StopForFork))
    && (forall w :: 0 <= w < |s.workers| && s.workers[w].Exited? ==>
          s.goals.current == Some(StopForFork) || (AllExited(s.workers) && s.goals.current == None))
    && (s.group == Spawned ==> forall w :: 0 <= w < |s.workers| ==> !s.workers[w].Exited?)
    && (s.group.Surrendered? ==> GivenBack(s.workers, s.group.workers))
  }

  ghost predicate GivenBack(ws: seq<Worker>, given: seq<nat>) {
    && NoDuplicates(given)
    && (forall i :: 0 <= i < |given| ==> given[i] < |ws|)
    && (forall w :: 0 <= w < |ws| ==> (w in given <==> ws[w].Exited?))
  }

  predicate Awake(x: Worker) {
    x != Parked(false) && !x.Exited?
  }

  /** With a goal to reach or a request to serve, some worker is up or notified. */
  ghost predicate SomebodyAwake(s: State) {
    (s.goals.current.Some? || s.goals.gcRequested || s.goals.forkRequested) ==>
      AllExited(s.workers) || exists w :: 0 <= w < |s.workers| && Awake(s.workers[w])
  }

  ghost predicate Inv(s: State) {
    && Shape(s) && Counted(s) && LocalsOwned(s) && Coverage(s) && Ordered(s.buckets) && FlightOnTop(s)
    && Opening1(s) && GoalHolds(s) && EarlyOpening(s) && Requested(s) && HolderRequests(s) && Forking(s)
    && SomebodyAwake(s)
  }

  lemma InitialInv(s: State)
    requires Initial(s)
    ensures Inv(s)
  {
    NoneParked(s.workers);
  }

  lemma {:induction false} NoneParked(ws: seq<Worker>)
    requires forall w :: 0 <= w < |ws| ==> !ws[w].Parked?
    ensures CountParked(ws) == 0
  {
    if ws != [] {
      NoneParked(ws[..|ws| - 1]);
    }
  }
}
