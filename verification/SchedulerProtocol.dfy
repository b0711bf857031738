/**
 GC workers, work buckets and the worker monitor as a state machine: every step is one atomic
 action of a worker thread or of a mutator, and any interleaving is a run.
 src/scheduler/{scheduler,worker,worker_monitor,work_bucket}.rs, src/plan/gc_requester.rs.
 */
module SchedulerProtocol {
  import opened Wrappers
  import opened WorkBuckets
  import opened WorkerGoals

  /**
   Where a worker is.
   `Running(i)` executes a packet of stage `i`, `Scheduling` the ScheduleCollection packet
   (`issued`: it has added the StopMutators packet), `Pausing` the StopMutators packet.
   `Sweeping(pos, retry, slow)` polls the queues: position 0 is its designated queue, `1 + b`
   bucket `b`, and `1 + |buckets| + v` the local queue of worker `v`.
   `Parked` waits on the condition variable.
   */
  datatype Worker =
    | Running(stage: nat)
    | Scheduling(issued: bool)
    | Pausing(phase: Phase)
    | Polling
    | Sweeping(pos: nat, retry: bool, slow: bool)
    | Parking
    | Parked(notified: bool)
    | Exiting
    | Exited

  /** How far notify_mutators_paused has come. */
  datatype Phase = Stopping | Cleared | FirstOpen | FirstEmpty | OthersParked | Opened

  datatype Group = Spawned | Surrendered(workers: seq<nat>)

  datatype State = State(
    workers: seq<Worker>,
    local: seq<multiset<nat>>,       // the stages of the packets in the local queues
    designated: seq<multiset<nat>>,  // the stages of the packets in the designated queues
    buckets: Buckets,
    front: Front,                    // the content of the Unconstrained bucket
    progress: nat,                   // bucket_update_progress
    parked: nat,
    goals: Goals,
    flag: bool,                      // request_flag
    requesters: nat,                 // mutators between the swap and the end of make_request
    paused: bool,                    // the mutators are stopped
    forking: bool,                   // a mutator is between prepare_surrender_buffer and the end of make_request
    group: Group,
    holder: Option<Goal>)            // a mutator inside make_request holds the mutex of the monitor

  /** What a packet does while a worker executes it. */
  datatype PacketStep =
    | AddBucket(b: nat)
    | AddLocal(b: nat)
    | AddDesignated(v: nat)
    | SetSentinel(b: nat)
    | Disable(b: nat)
    | IssueStop
    | Finish

  /** How a worker looks for the next packet. `Miss` is a steal that has to be retried. */
  datatype PollStep =
    | TakeDesignated(i: nat)
    | TakeLocal(i: nat)
    | BeginSweep
    | TakeFront
    | TakeBucket(b: nat, batch: nat)
    | Steal(v: nat, i: nat)
    | Miss
    | Advance
    | EndSweep

  /** The monitor. `Unpark` may be spurious; `Signal` is a notification for an added packet. */
  datatype ParkStep = Park | LastPark | Unpark | Signal | Surrender

  /** notify_mutators_paused. */
  datatype PauseStep = Pause | OpenFirst | ReadEmpty | ReadParked(quiet: bool) | OpenSecond | NotifyPaused

  /** make_request takes two steps: it acquires the mutex, then it sets the request, notifies and releases. */
  datatype MutatorStep =
    | Swap
    | EnterGc
    | RequestGc(woken: Option<nat>)
    | PrepareFork
    | EnterFork
    | RequestFork(woken: Option<nat>)
    | MutatorAdd(b: nat)
    | Respawn

  datatype Step =
    | Packet(w: nat, packet: PacketStep)
    | Poll(w: nat, poll: PollStep)
    | Monitor(w: nat, monitor: ParkStep)
    | Pauser(w: nat, pauser: PauseStep)
    | Mutator(mutator: MutatorStep)

  // ---------- the steps ----------

  predicate IsWorker(s: State, w: nat) {
    w < |s.workers| && |s.local| == |s.workers| == |s.designated|
  }

  /** Where a packet that `x` executes may add packets: to its own or to a later stage. */
  predicate MayAdd(x: Worker, b: nat) {
    match x
    case Running(i) => i <= b
    case Scheduling(_) => true
    case Pausing(p) => p == Stopping
    case _ => false
  }

  predicate IsStage(s: State, b: nat) {
    1 <= b < |s.buckets|
  }

  /** A sweeping worker finds nothing at its position. */
  predicate NothingAt(s: State, w: nat)
    requires IsWorker(s, w) && s.workers[w].Sweeping?
  {
    var pos := s.workers[w].pos;
    if pos == 0 then s.designated[w] == multiset{}
    else if pos == 1 then s.front == Empty
    else if pos <= |s.buckets| then
      var b := s.buckets[pos - 1];
      b.disabled || !b.active || b.count == 0
    else
      var v := pos - 1 - |s.buckets|;
      v < |s.local| && (v == w || s.local[v] == multiset{})
  }

  function EndOfSweep(s: State): nat {
    1 + |s.buckets| + |s.workers|
  }

  /** notify_one wakes a waiting worker, if there is one. */
  predicate Wakes(s: State, woken: Option<nat>) {
    match woken
    case Some(v) => v < |s.workers| && s.workers[v] == Parked(false)
    case None => forall v :: 0 <= v < |s.workers| ==> s.workers[v] != Parked(false)
  }

  predicate CanPacket(s: State, w: nat, step: PacketStep) {
    IsWorker(s, w) &&
    var x := s.workers[w];
    match step
    case AddBucket(b) => MayAdd(x, b) && IsStage(s, b) && !s.buckets[b].disabled
    case AddLocal(b) =>
      x.Running? && x.stage <= b && IsStage(s, b) && s.buckets[b].active && !s.buckets[b].disabled
    case AddDesignated(v) => IsWorker(s, v) && x.Running? && x.stage >= 2
    case SetSentinel(b) =>
      (x.Running? || x.Scheduling?) && MayAdd(x, b) && IsStage(s, b) && b >= 2 && !s.buckets[b].disabled
    case Disable(b) => x.Scheduling? && IsStage(s, b) && Done(s.buckets[b])
    case IssueStop => x == Scheduling(false)
    case Finish => x.Running? || x == Scheduling(true)
  }

  predicate CanPoll(s: State, w: nat, step: PollStep) {
    IsWorker(s, w) &&
    var x := s.workers[w];
    match step
    case TakeDesignated(i) => (x.Polling? || (x.Sweeping? && x.pos == 0)) && i in s.designated[w]
    case TakeLocal(i) => x.Polling? && i in s.local[w]
    case BeginSweep => x.Polling? && s.local[w] == multiset{}
    case TakeFront => x.Sweeping? && x.pos == 1 && s.front != Empty
    case TakeBucket(b, batch) =>
      x.Sweeping? && IsStage(s, b) && x.pos == 1 + b
      && s.buckets[b].active && !s.buckets[b].disabled && s.buckets[b].count >= 1 + batch
    case Steal(v, i) =>
      x.Sweeping? && IsWorker(s, v) && v != w && x.pos == 1 + |s.buckets| + v && i in s.local[v]
    case Miss => x.Sweeping? && 1 <= x.pos < EndOfSweep(s)
    case Advance => x.Sweeping? && x.pos < EndOfSweep(s) && NothingAt(s, w)
    case EndSweep => x.Sweeping? && x.pos == EndOfSweep(s)
  }

  predicate CanMonitor(s: State, w: nat, step: ParkStep) {
    IsWorker(s, w) &&
    var x := s.workers[w];
    match step
    case Park => x.Parking? && s.holder == None && s.parked + 1 != |s.workers|
    case LastPark =>
      x.Parking? && s.holder == None && s.parked + 1 == |s.workers| && OpenUpTo(s.buckets, s.progress)
    case Unpark => x.Parked? && s.holder == None && s.parked > 0
    case Signal => x.Parked?
    case Surrender => x.Exiting?
  }

  predicate CanPause(s: State, w: nat, step: PauseStep) {
    IsWorker(s, w) && |s.buckets| >= 3 &&
    var x := s.workers[w];
    match step
    case Pause => x == Pausing(Stopping) && s.requesters == 0
    case OpenFirst => x == Pausing(Cleared)
    case ReadEmpty => x == Pausing(FirstOpen)
    case ReadParked(_) => x == Pausing(FirstEmpty)
    case OpenSecond => x == Pausing(OthersParked)
    case NotifyPaused => x == Pausing(Opened)
  }

  predicate CanMutator(s: State, step: MutatorStep) {
    match step
    case Swap => !s.paused && !s.flag
    case EnterGc => s.requesters > 0 && s.holder == None
    case RequestGc(woken) => s.requesters > 0 && s.holder == Some(Gc) && Wakes(s, woken)
    case PrepareFork => s.group == Spawned && !s.forking
    case EnterFork => s.forking && s.holder == None
    case RequestFork(woken) => s.forking && s.holder == Some(StopForFork) && Wakes(s, woken)
    case MutatorAdd(b) => !s.paused && IsStage(s, b) && !s.buckets[b].active && !s.buckets[b].disabled
    case Respawn => s.group.Surrendered? && |s.group.workers| == |s.workers|
  }

  predicate Enabled(s: State, step: Step) {
    match step
    case Packet(w, x) => CanPacket(s, w, x)
    case Poll(w, x) => CanPoll(s, w, x)
    case Monitor(w, x) => CanMonitor(s, w, x)
    case Pauser(w, x) => CanPause(s, w, x)
    case Mutator(x) => CanMutator(s, x)
  }

  /** How a worker leaves the parked section. */
  function Resumed(goals: Goals): Worker {
    if goals.current == Some(StopForFork) then Exiting else Sweeping(0, false, true)
  }

  function Notified(x: Worker): Worker {
    if x.Parked? then Parked(true) else x
  }

  function NotifyAll(ws: seq<Worker>): (r: seq<Worker>)
    ensures |r| == |ws|
    ensures forall w {:trigger r[w]} :: 0 <= w < |ws| ==> r[w] == Notified(ws[w])
  {
    seq(|ws|, w requires 0 <= w < |ws| => Notified(ws[w]))
  }

  function Woken(ws: seq<Worker>, woken: Option<nat>): seq<Worker> {
    if woken.Some? && woken.value < |ws| then ws[woken.value := Notified(ws[woken.value])] else ws
  }

  function SceneOf(s: State): Scene {
    Scene(s.goals, s.buckets, s.front, s.progress, s.paused)
  }

  predicate HasDesignated(s: State) {
    exists v :: 0 <= v < |s.designated| && s.designated[v] != multiset{}
  }

  function Callback(s: State): Outcome
    requires OpenUpTo(s.buckets, s.progress)
  {
    OnLastParked(SceneOf(s), HasDesignated(s))
  }

  /** The surrender that completes the group, after which on_all_workers_exited is called. */
  predicate SurrendersLast(s: State) {
    s.group.Surrendered? && |s.group.workers| + 1 == |s.workers|
  }

  /** A step that makes the program panic: `try_lock` in on_all_workers_exited does not wait for the mutex. */
  predicate Panics(s: State, step: Step)
    requires Enabled(s, step)
  {
    match step
    case Monitor(_, LastPark) => Callback(s) == Panic
    case Monitor(_, Surrender) => s.group == Spawned || (SurrendersLast(s) && s.holder.Some?)
    case _ => false
  }

  function WithScene(s: State, r: Scene): State {
    s.(goals := r.goals, buckets := r.buckets, front := r.front, progress := r.progress, paused := r.paused)
  }

  /** The last parked worker carries out the verdict of the callback. */
  function Settle(s: State, w: nat, verdict: Verdict): State
    requires IsWorker(s, w)
  {
    match verdict
    case ParkSelf => s.(workers := s.workers[w := Parked(false)], parked := s.parked + 1)
    case WakeSelf => s.(workers := s.workers[w := Resumed(s.goals)])
    case WakeAll => s.(workers := NotifyAll(s.workers)[w := Resumed(s.goals)])
  }

  function AfterLastPark(s: State, w: nat): State
    requires IsWorker(s, w) && OpenUpTo(s.buckets, s.progress)
  {
    match Callback(s)
    case Panic => s
    case Outcome(r, verdict) => Settle(WithScene(s, r), w, verdict)
  }

  function Become(s: State, w: nat, x: Worker): State
    requires w < |s.workers|
  {
    s.(workers := s.workers[w := x])
  }

  function PutBucket(s: State, b: nat, x: Bucket): State
    requires b < |s.buckets|
  {
    s.(buckets := s.buckets[b := x])
  }

  function AfterSurrender(s: State, w: nat): State
    requires IsWorker(s, w)
  {
    if s.group == Spawned then s
    else
      var given := s.group.workers + [w];
      var t := Become(s, w, Exited).(group := Surrendered(given));
      if SurrendersLast(s) then t.(goals := t.goals.(current := None)) else t
  }

  /** A batch of packets goes to a local queue. */
  function WithCopies(m: multiset<nat>, b: nat, batch: nat): (r: multiset<nat>)
    ensures forall i: nat :: i in r ==> i in m || i == b
  {
    var r: multiset<nat> := m[b := m[b] + batch];
    r
  }

  function DoPacket(s: State, w: nat, step: PacketStep): State
    requires CanPacket(s, w, step)
  {
    match step
    case AddBucket(b) => PutBucket(s, b, s.buckets[b].(count := s.buckets[b].count + 1))
    case AddLocal(b) => s.(local := s.local[w := s.local[w] + multiset{b}])
    case AddDesignated(v) =>
      s.(designated := s.designated[v := s.designated[v] + multiset{s.workers[w].stage}])
    case SetSentinel(b) => PutBucket(s, b, s.buckets[b].(sentinel := true))
    case Disable(b) => PutBucket(s, b, s.buckets[b].(disabled := true))
    case IssueStop => Become(s, w, Scheduling(true)).(front := Stop)
    case Finish => Become(s, w, Polling)
  }

  function DoPoll(s: State, w: nat, step: PollStep): State
    requires CanPoll(s, w, step)
  {
    var x := s.workers[w];
    match step
    case TakeDesignated(i) =>
      Become(s, w, Running(i)).(designated := s.designated[w := s.designated[w] - multiset{i}])
    case TakeLocal(i) => Become(s, w, Running(i)).(local := s.local[w := s.local[w] - multiset{i}])
    case BeginSweep => Become(s, w, Sweeping(0, false, false))
    case TakeFront =>
      Become(s, w, if s.front == Schedule then Scheduling(false) else Pausing(Stopping)).(front := Empty)
    case TakeBucket(b, batch) =>
      PutBucket(Become(s, w, Running(b)), b, s.buckets[b].(count := s.buckets[b].count - 1 - batch))
        .(local := s.local[w := WithCopies(s.local[w], b, batch)])
    case Steal(v, i) => Become(s, w, Running(i)).(local := s.local[v := s.local[v] - multiset{i}])
    case Miss => Become(s, w, Sweeping(x.pos + 1, true, x.slow))
    case Advance => Become(s, w, Sweeping(x.pos + 1, x.retry, x.slow))
    case EndSweep =>
      Become(s, w,
             if x.retry then Sweeping(0, false, x.slow)
             else if !x.slow then Sweeping(0, false, true)
             else Parking)
  }

  function DoMonitor(s: State, w: nat, step: ParkStep): State
    requires CanMonitor(s, w, step)
  {
    match step
    case Park => Become(s, w, Parked(false)).(parked := s.parked + 1)
    case LastPark => AfterLastPark(s, w)
    case Unpark => Become(s, w, Resumed(s.goals)).(parked := s.parked - 1)
    case Signal => Become(s, w, Parked(true))
    case Surrender => AfterSurrender(s, w)
  }

  function DoPause(s: State, w: nat, step: PauseStep): State
    requires CanPause(s, w, step)
  {
    match step
    case Pause => Become(s, w, Pausing(Cleared)).(paused := true, flag := false)
    case OpenFirst => PutBucket(Become(s, w, Pausing(FirstOpen)), 1, s.buckets[1].(active := true))
    case ReadEmpty => Become(s, w, Pausing(if s.buckets[1].IsEmpty() then FirstEmpty else Opened))
    case ReadParked(quiet) =>
      Become(s, w, Pausing(if s.parked + 1 == |s.workers| && quiet then OthersParked else Opened))
    case OpenSecond => PutBucket(Become(s, w, Pausing(Opened)), 2, s.buckets[2].(active := true))
    case NotifyPaused => s.(workers := NotifyAll(s.workers)[w := Polling])
  }

  function DoMutator(s: State, step: MutatorStep): State
    requires CanMutator(s, step)
  {
    match step
    case Swap => s.(flag := true, requesters := s.requesters + 1)
    case EnterGc => s.(holder := Some(Gc))
    case RequestGc(woken) =>
      var t := s.(requesters := s.requesters - 1, holder := None);
      if s.goals.gcRequested then t
      else t.(goals := s.goals.(gcRequested := true), workers := Woken(s.workers, woken))
    case PrepareFork => s.(group := Surrendered([]), forking := true)
    case EnterFork => s.(holder := Some(StopForFork))
    case RequestFork(woken) =>
      var t := s.(forking := false, holder := None);
      if s.goals.forkRequested then t
      else t.(goals := s.goals.(forkRequested := true), workers := Woken(s.workers, woken))
    case MutatorAdd(b) => PutBucket(s, b, s.buckets[b].(count := s.buckets[b].count + 1))
    case Respawn => s.(workers := seq(|s.workers|, _ => Polling), group := Spawned)
  }

  function Apply(s: State, step: Step): State
    requires Enabled(s, step)
  {
    match step
    case Packet(w, x) => DoPacket(s, w, x)
    case Poll(w, x) => DoPoll(s, w, x)
    case Monitor(w, x) => DoMonitor(s, w, x)
    case Pauser(w, x) => DoPause(s, w, x)
    case Mutator(x) => DoMutator(s, x)
  }

  /** Freshly spawned workers and closed, empty buckets. */
  predicate Initial(s: State) {
    && |s.workers| >= 1 && |s.buckets| >= 3 && |s.local| == |s.designated| == |s.workers|
    && (forall w :: 0 <= w < |s.workers| ==> s.workers[w] == Polling)
    && (forall w :: 0 <= w < |s.workers| ==> s.local[w] == multiset{})
    && (forall w :: 0 <= w < |s.workers| ==> s.designated[w] == multiset{})
    && s.buckets[0] == Bucket(true, false, 0, false)
    && (forall b :: 1 <= b < |s.buckets| ==> s.buckets[b] == Bucket(false, false, 0, false))
    && s.front == Empty && s.progress == 0 && s.parked == 0
    && s.goals == Goals(None, false, false)
    && !s.flag && s.requesters == 0 && !s.paused && !s.forking && s.group == Spawned && s.holder == None
  }

  function Run(s: State, steps: seq<Step>): State
    requires IsRun(s, steps)
    decreases |steps|
  {
    if steps == [] then s else Run(Apply(s, steps[0]), steps[1..])
  }

  /** Every step of the list can be taken when its turn comes; a panic would end the run. */
  predicate IsRun(s: State, steps: seq<Step>)
    decreases |steps|
  {
    steps == [] ||
    (Enabled(s, steps[0]) && !Panics(s, steps[0]) && IsRun(Apply(s, steps[0]), steps[1..]))
  }
}
