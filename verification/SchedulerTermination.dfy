/**
 Collections end: if the packets add nothing more, every step of a worker that is up makes a measure
 smaller or ends the collection, except for a last park while all designated work waits for workers that
 are notified already.
 */
module SchedulerTermination {
  import opened Wrappers
  import opened Sums
  import opened WorkBuckets
  import opened WorkerGoals
  import opened SchedulerProtocol
  import opened SchedulerInvariants
  import opened SchedulerSteps
  import opened SchedulerLastPark
  import opened SchedulerTheorems
  import opened SchedulerProgress

  // ---------- the measure ----------

  /** How far the collection is from having opened its first stages. */
  function StartWeight(x: Worker): nat {
    match x
    case Scheduling(issued) => if issued then 0 else 8
    case Pausing(p) => PauseWeight(p)
    case _ => 0
  }

  function PauseWeight(p: Phase): nat {
    match p
    case Stopping => 6
    case Cleared => 5
    case FirstOpen => 4
    case FirstEmpty => 3
    case OthersParked => 2
    case Opened => 1
  }

  function FrontWeight(f: Front): nat {
    match f
    case Empty => 0
    case Schedule => 9
    case Stop => 7
  }

  /** A stage that is still to be opened, and a sentinel that is still to be scheduled. */
  function StageWeight(b: Bucket): nat {
    (if !b.active && !b.disabled then 1 else 0) + (if b.sentinel then 1 else 0)
  }

  /** The packets that a worker owns. */
  function Load(s: State, w: nat): nat
    requires IsWorker(s, w)
  {
    |s.local[w]| + |s.designated[w]| + (if s.workers[w].Running? then 1 else 0)
  }

  /** The worker will not look at its designated queue before it parks. */
  predicate LooksAway(x: Worker) {
    x == Parked(false) || x.Parking? || (x.Sweeping? && x.pos > 0 && x.slow && !x.retry)
  }

  function Overlooked(s: State, w: nat): nat
    requires IsWorker(s, w)
  {
    if s.designated[w] != multiset{} && LooksAway(s.workers[w]) then 1 else 0
  }

  /** How far a worker is from parking, or from executing a packet. */
  function Rank(end: nat, x: Worker): nat {
    match x
    case Running(_) => 0
    case Scheduling(_) => 2 * end + 5
    case Pausing(_) => 0
    case Polling => 2 * end + 4
    case Sweeping(pos, retry, slow) =>
      2 + (if retry then end + 1 else 0) + (if slow then 0 else end + 1) + (if pos <= end then end - pos else 0)
    case Parking => 1
    case Parked(notified) => if notified then end + 3 else 0
    case Exiting => 0
    case Exited => 0
  }

  function Starts(s: State): seq<nat> {
    seq(|s.workers|, w requires 0 <= w < |s.workers| => StartWeight(s.workers[w]))
  }

  function Stages(bs: Buckets): seq<nat> {
    seq(|bs|, b requires 0 <= b < |bs| => StageWeight(bs[b]))
  }

  function Counts(bs: Buckets): seq<nat> {
    seq(|bs|, b requires 0 <= b < |bs| => bs[b].count)
  }

  predicate Sized(s: State) {
    |s.local| == |s.designated| == |s.workers|
  }

  function Loads(s: State): seq<nat>
    requires Sized(s)
  {
    seq(|s.workers|, w requires 0 <= w < |s.workers| => Load(s, w))
  }

  function Overlooks(s: State): seq<nat>
    requires Sized(s)
  {
    seq(|s.workers|, w requires 0 <= w < |s.workers| => Overlooked(s, w))
  }

  function Ranks(s: State): seq<nat> {
    seq(|s.workers|, w requires 0 <= w < |s.workers| => Rank(EndOfSweep(s), s.workers[w]))
  }

  function ToStart(s: State): nat {
    FrontWeight(s.front) + Sum(Starts(s))
  }

  function ToOpen(s: State): nat {
    Sum(Stages(s.buckets))
  }

  function ToRun(s: State): nat
    requires Sized(s)
  {
    Sum(Counts(s.buckets)) + Sum(Loads(s))
  }

  function ToNotice(s: State): nat
    requires Sized(s)
  {
    Sum(Overlooks(s))
  }

  function ToPark(s: State): nat {
    Sum(Ranks(s))
  }

  /** Less is left to do, in the order of these five parts. */
  ghost predicate Less(t: State, s: State)
    requires Sized(s) && Sized(t)
  {
    || ToStart(t) < ToStart(s)
    || (ToStart(t) == ToStart(s) &&
        (|| ToOpen(t) < ToOpen(s)
         || (ToOpen(t) == ToOpen(s) &&
             (|| ToRun(t) < ToRun(s)
              || (ToRun(t) == ToRun(s) &&
                  (|| ToNotice(t) < ToNotice(s)
                   || (ToNotice(t) == ToNotice(s) && ToPark(t) < ToPark(s))))))))
  }

  // ---------- changing one worker ----------

  /** Of the workers only `w` changes. */
  predicate OneMoves(s: State, t: State, w: nat) {
    && IsWorker(s, w) && IsWorker(t, w) && |t.workers| == |s.workers| && |t.buckets| == |s.buckets|
    && (forall v :: 0 <= v < |s.workers| && v != w ==> t.workers[v] == s.workers[v])
  }

  predicate SameDesignated(s: State, t: State, w: nat)
    requires OneMoves(s, t, w)
  {
    forall v :: 0 <= v < |s.workers| && v != w ==> t.designated[v] == s.designated[v]
  }

  predicate SameLocal(s: State, t: State, w: nat)
    requires OneMoves(s, t, w)
  {
    forall v :: 0 <= v < |s.workers| && v != w ==> t.local[v] == s.local[v]
  }

  lemma StartsMove(s: State, t: State, w: nat)
    requires OneMoves(s, t, w)
    ensures Sum(Starts(t)) == Sum(Starts(s)) - StartWeight(s.workers[w]) + StartWeight(t.workers[w])
  {
    SumUpdate(Starts(s), w, StartWeight(t.workers[w]));
    assert Starts(t) == Starts(s)[w := StartWeight(t.workers[w])];
  }

  lemma RanksMove(s: State, t: State, w: nat)
    requires OneMoves(s, t, w)
    ensures ToPark(t) == ToPark(s) - Rank(EndOfSweep(s), s.workers[w]) + Rank(EndOfSweep(s), t.workers[w])
  {
    SumUpdate(Ranks(s), w, Rank(EndOfSweep(s), t.workers[w]));
    assert Ranks(t) == Ranks(s)[w := Rank(EndOfSweep(s), t.workers[w])];
  }

  lemma LoadsMove(s: State, t: State, w: nat)
    requires OneMoves(s, t, w) && SameLocal(s, t, w) && SameDesignated(s, t, w)
    ensures Sum(Loads(t)) == Sum(Loads(s)) - Load(s, w) + Load(t, w)
  {
    SumUpdate(Loads(s), w, Load(t, w));
    assert Loads(t) == Loads(s)[w := Load(t, w)];
  }

  lemma OverlooksMove(s: State, t: State, w: nat)
    requires OneMoves(s, t, w) && SameDesignated(s, t, w)
    ensures ToNotice(t) == ToNotice(s) - Overlooked(s, w) + Overlooked(t, w)
  {
    SumUpdate(Overlooks(s), w, Overlooked(t, w));
    assert Overlooks(t) == Overlooks(s)[w := Overlooked(t, w)];
  }

  /** A step of one worker that starts and opens nothing, takes over packets at most, and lowers its own rank. */
  lemma RankLess(s: State, t: State, w: nat)
    requires OneMoves(s, t, w) && SameDesignated(s, t, w) && t.front == s.front
    requires ToOpen(t) == ToOpen(s) && ToRun(t) == ToRun(s) && Overlooked(t, w) <= Overlooked(s, w)
    requires StartWeight(t.workers[w]) == StartWeight(s.workers[w])
    requires Rank(EndOfSweep(s), t.workers[w]) < Rank(EndOfSweep(s), s.workers[w])
    ensures Less(t, s)
  {
    StartsMove(s, t, w);
    RanksMove(s, t, w);
    OverlooksMove(s, t, w);
    hide Starts, Ranks, Loads, Overlooks, Overlooked, Rank, StartWeight, Sum, ToOpen, ToRun, ToNotice, ToPark;
  }

  /** The same, if the worker owns as many packets as before. */
  lemma OwnRankLess(s: State, t: State, w: nat)
    requires OneMoves(s, t, w) && SameLocal(s, t, w) && SameDesignated(s, t, w) && t.front == s.front
    requires t.buckets == s.buckets && Load(t, w) == Load(s, w) && Overlooked(t, w) <= Overlooked(s, w)
    requires StartWeight(t.workers[w]) == StartWeight(s.workers[w])
    requires Rank(EndOfSweep(s), t.workers[w]) < Rank(EndOfSweep(s), s.workers[w])
    ensures Less(t, s)
  {
    LoadsMove(s, t, w);
    hide Loads, Overlooked, Rank, StartWeight, Sum, Load, Less;
    RankLess(s, t, w);
  }

  lemma FinishLess(s: State, w: nat)
    requires IsWorker(s, w) && s.workers[w].Running?
    ensures Less(Become(s, w, Polling), s)
  {
    var t := Become(s, w, Polling);
    StartsMove(s, t, w);
    LoadsMove(s, t, w);
    hide Starts, Loads, Sum, ToOpen, ToNotice, ToPark;
  }

  lemma IssueLess(s: State, w: nat)
    requires IsWorker(s, w) && s.workers[w] == Scheduling(false) && s.front == Empty
    ensures Less(DoPacket(s, w, IssueStop), s)
  {
    var t := DoPacket(s, w, IssueStop);
    StartsMove(s, t, w);
    hide Starts, Sum;
  }

  lemma ScheduledLess(s: State, w: nat)
    requires IsWorker(s, w) && s.workers[w] == Scheduling(true)
    ensures Less(Become(s, w, Polling), s)
  {
    OwnRankLess(s, Become(s, w, Polling), w);
  }

  lemma PausingLess(s: State, w: nat, step: PauseStep)
    requires CanPause(s, w, step) && s.workers[w].Pausing?
    ensures Sized(DoPause(s, w, step)) && Less(DoPause(s, w, step), s)
  {
    var t := DoPause(s, w, step);
    SumLess(Starts(t), Starts(s), w);
  }

  // ---------- polling ----------

  lemma TakeOne(m: multiset<nat>, i: nat)
    requires i in m
    ensures |m - multiset{i}| == |m| - 1
  {
    assert m == (m - multiset{i}) + multiset{i};
  }

  lemma TakeLocalLess(s: State, w: nat, i: nat)
    requires CanPoll(s, w, TakeLocal(i))
    ensures Sized(DoPoll(s, w, TakeLocal(i))) && Less(DoPoll(s, w, TakeLocal(i)), s)
  {
    var t := DoPoll(s, w, TakeLocal(i));
    TakeOne(s.local[w], i);
    hide Less;
    OwnRankLess(s, t, w);
  }

  lemma BeginSweepLess(s: State, w: nat)
    requires CanPoll(s, w, BeginSweep)
    ensures Sized(DoPoll(s, w, BeginSweep)) && Less(DoPoll(s, w, BeginSweep), s)
  {
    hide Less;
    OwnRankLess(s, DoPoll(s, w, BeginSweep), w);
  }

  /** Steps of a sweeping worker that take no packet from a bucket or from another worker. */
  lemma SweepingLess(s: State, w: nat, step: PollStep)
    requires CanPoll(s, w, step) && s.workers[w].Sweeping? && InSweep(s, s.workers[w])
    requires step.Advance? || step.EndSweep? || step.TakeDesignated?
    ensures Sized(DoPoll(s, w, step)) && Less(DoPoll(s, w, step), s)
  {
    var t := DoPoll(s, w, step);
    if step.TakeDesignated? {
      TakeOne(s.designated[w], step.i);
    }
    hide Less;
    OwnRankLess(s, t, w);
  }

  lemma TakeFrontLess(s: State, w: nat)
    requires CanPoll(s, w, TakeFront)
    ensures Sized(DoPoll(s, w, TakeFront)) && Less(DoPoll(s, w, TakeFront), s)
  {
    var t := DoPoll(s, w, TakeFront);
    StartsMove(s, t, w);
    hide Starts, Sum;
  }

  lemma OneFromBucket(bs: Buckets, b: nat)
    requires b < |bs| && bs[b].count > 0
    ensures var cs := bs[b := bs[b].(count := bs[b].count - 1)];
      Sum(Counts(cs)) == Sum(Counts(bs)) - 1 && Sum(Stages(cs)) == Sum(Stages(bs))
  {
    var cs := bs[b := bs[b].(count := bs[b].count - 1)];
    SumUpdate(Counts(bs), b, bs[b].count - 1);
    assert Counts(cs) == Counts(bs)[b := bs[b].count - 1];
    assert Stages(cs) == Stages(bs);
  }

  lemma NoCopies(m: multiset<nat>, b: nat)
    ensures WithCopies(m, b, 0) == m
  {
  }

  lemma TakeBucketShape(s: State, w: nat, b: nat)
    requires CanPoll(s, w, TakeBucket(b, 0))
    ensures DoPoll(s, w, TakeBucket(b, 0)) ==
      s.(workers := s.workers[w := Running(b)],
        buckets := s.buckets[b := s.buckets[b].(count := s.buckets[b].count - 1)])
  {
    NoCopies(s.local[w], b);
    hide WithCopies;
    assert s.local[w := s.local[w]] == s.local;
  }

  lemma MovesFromBucket(s: State, t: State, w: nat, b: nat)
    requires IsWorker(s, w) && s.workers[w].Sweeping? && b < |s.buckets| && s.buckets[b].count > 0
    requires t == s.(workers := s.workers[w := Running(b)],
                     buckets := s.buckets[b := s.buckets[b].(count := s.buckets[b].count - 1)])
    ensures ToOpen(t) == ToOpen(s) && ToRun(t) == ToRun(s)
  {
    OneFromBucket(s.buckets, b);
    LoadsMove(s, t, w);
    hide Sum, Counts, Stages, Loads;
  }

  lemma TakeBucketLess(s: State, w: nat, b: nat)
    requires CanPoll(s, w, TakeBucket(b, 0)) && InSweep(s, s.workers[w])
    ensures Sized(DoPoll(s, w, TakeBucket(b, 0))) && Less(DoPoll(s, w, TakeBucket(b, 0)), s)
  {
    var t := DoPoll(s, w, TakeBucket(b, 0));
    TakeBucketShape(s, w, b);
    hide Less, DoPoll, ToOpen, ToRun;
    MovesFromBucket(s, t, w, b);
    RankLess(s, t, w);
  }

  /** One worker owns a packet less, another one a packet more. */
  lemma LoadsShift(s: State, t: State, v: nat, w: nat)
    requires Sized(s) && Sized(t) && |t.workers| == |s.workers| && v < |s.workers| && w < |s.workers| && v != w
    requires forall u :: 0 <= u < |s.workers| && u != v && u != w ==> Load(t, u) == Load(s, u)
    requires Load(s, v) == Load(t, v) + 1 && Load(t, w) == Load(s, w) + 1
    ensures Sum(Loads(t)) == Sum(Loads(s))
  {
    var xs := Loads(s);
    var ys: seq<nat> := xs[v := Load(t, v)];
    SumUpdate(xs, v, Load(t, v));
    SumUpdate(ys, w, Load(t, w));
    assert Loads(t) == ys[w := Load(t, w)];
  }

  lemma StealLess(s: State, w: nat, v: nat, i: nat)
    requires CanPoll(s, w, Steal(v, i)) && InSweep(s, s.workers[w])
    ensures Sized(DoPoll(s, w, Steal(v, i))) && Less(DoPoll(s, w, Steal(v, i)), s)
  {
    var t := DoPoll(s, w, Steal(v, i));
    TakeOne(s.local[v], i);
    LoadsShift(s, t, v, w);
    hide Less, Sum, Loads;
    RankLess(s, t, w);
  }

  lemma SweepLess(s: State, w: nat)
    requires IsWorker(s, w) && s.workers[w].Sweeping? && InSweep(s, s.workers[w])
    ensures CanPoll(s, w, NextPoll(s, w)) && Sized(DoPoll(s, w, NextPoll(s, w)))
    ensures Less(DoPoll(s, w, NextPoll(s, w)), s)
  {
    SweeperCanGoOn(s, w);
    var step := NextPoll(s, w);
    hide DoPoll, NothingAt, CanPoll, InSweep, Less;
    match step
    case TakeFront => TakeFrontLess(s, w);
    case TakeBucket(b, _) => TakeBucketLess(s, w, b);
    case Steal(v, i) => StealLess(s, w, v, i);
    case _ => SweepingLess(s, w, step);
  }

  // ---------- parking ----------

  lemma ParkLess(s: State, w: nat)
    requires CanMonitor(s, w, Park)
    ensures Less(DoMonitor(s, w, Park), s)
  {
    OwnRankLess(s, DoMonitor(s, w, Park), w);
  }

  lemma UnparkLess(s: State, w: nat)
    requires CanMonitor(s, w, Unpark) && s.workers[w] == Parked(true) && s.goals.current == Some(Gc)
    ensures Less(DoMonitor(s, w, Unpark), s)
  {
    OwnRankLess(s, DoMonitor(s, w, Unpark), w);
  }

  /** The last parked worker wakes everybody: nobody was starting anything, and nobody is now. */
  lemma WakeKeepsStarts(s: State, t: State, w: nat)
    requires Gathered(s, w) && t.workers == NotifyAll(s.workers)[w := Sweeping(0, false, true)]
    ensures Starts(t) == Starts(s)
  {
  }

  /** Designated work waits for a worker that has not been notified. */
  ghost predicate HasUnnotified(s: State)
    requires Sized(s)
  {
    exists v :: 0 <= v < |s.workers| && s.designated[v] != multiset{} && s.workers[v] != Parked(true)
  }

  lemma DesignatedLess(s: State, w: nat)
    requires Gathered(s, w) && HasUnnotified(s) && s.goals.current == Some(Gc)
    ensures Sized(Settle(s, w, WakeAll)) && Less(Settle(s, w, WakeAll), s)
  {
    var t := Settle(s, w, WakeAll);
    WakeKeepsStarts(s, t, w);
    assert Loads(t) == Loads(s);
    var v :| 0 <= v < |s.workers| && s.designated[v] != multiset{} && s.workers[v] != Parked(true);
    assert Overlooks(s)[v] == 1 && Overlooks(t)[v] == 0;
    assert AtMost(Overlooks(t), Overlooks(s));
    SumLess(Overlooks(t), Overlooks(s), v);
    hide Starts, Loads, Overlooks, Sum;
  }

  /** If all of them have been notified, waking them again leaves as much to do as there was. */
  lemma DesignatedNotLess(s: State, w: nat)
    requires Gathered(s, w) && Sized(s) && !HasUnnotified(s) && s.goals.current == Some(Gc)
    ensures Sized(Settle(s, w, WakeAll)) && !Less(Settle(s, w, WakeAll), s)
  {
    var t := Settle(s, w, WakeAll);
    WakeKeepsStarts(s, t, w);
    assert Loads(t) == Loads(s);
    assert AtMost(Overlooks(s), Overlooks(t));
    SumAtMost(Overlooks(s), Overlooks(t));
    assert AtMost(Ranks(s), Ranks(t));
    SumAtMost(Ranks(s), Ranks(t));
    hide Starts, Loads, Overlooks, Ranks, Sum;
  }

  /** Something of a stage was done: a sentinel was scheduled or a stage opened. */
  lemma StageLess(s: State, w: nat, bs: Buckets, progress: nat, b: nat)
    requires Gathered(s, w) && s.goals.current == Some(Gc) && AtMost(Stages(bs), Stages(s.buckets))
    requires b < |bs| && Stages(bs)[b] < Stages(s.buckets)[b]
    ensures var t := Settle(s.(buckets := bs, progress := progress), w, WakeAll); Sized(t) && Less(t, s)
  {
    var t := Settle(s.(buckets := bs, progress := progress), w, WakeAll);
    WakeKeepsStarts(s, t, w);
    SumLess(Stages(bs), Stages(s.buckets), b);
    hide Starts, Stages, Sum;
  }

  lemma SentinelLess(s: State, w: nat)
    requires Gathered(s, w) && s.goals.current == Some(Gc) && HasSentinel(s.buckets)
    ensures var t := Settle(s.(buckets := ScheduleSentinels(s.buckets)), w, WakeAll); Sized(t) && Less(t, s)
  {
    var b :| 0 <= b < |s.buckets| && s.buckets[b].active && s.buckets[b].sentinel;
    assert AtMost(Stages(ScheduleSentinels(s.buckets)), Stages(s.buckets));
    StageLess(s, w, ScheduleSentinels(s.buckets), s.progress, b);
  }

  lemma OpeningLess(s: State, w: nat)
    requires Gathered(s, w) && s.goals.current == Some(Gc) && OpenUpTo(s.buckets, s.progress)
    requires OpenFrom(s.buckets, s.progress + 1).found > 0
    ensures var r := OpenFrom(s.buckets, s.progress + 1);
      var t := Settle(s.(buckets := r.buckets, progress := r.found), w, WakeAll); Sized(t) && Less(t, s)
  {
    var r := OpenFrom(s.buckets, s.progress + 1);
    FoundWasClosed(s.buckets, s.progress + 1);
    OpenWidens(s.buckets, s.progress + 1);
    hide OpenFrom, Less, Settle;
    assert AtMost(Stages(r.buckets), Stages(s.buckets));
    StageLess(s, w, r.buckets, r.found, r.found);
  }

  lemma WakeKeepsGoal(s: State, w: nat)
    requires IsWorker(s, w)
    ensures Settle(s, w, WakeAll).goals == s.goals
  {
  }

  lemma LastParkLess(s: State, w: nat)
    requires Inv(s) && CanMonitor(s, w, LastPark) && s.goals.current == Some(Gc) && Sized(s)
    ensures Sized(AfterLastPark(s, w))
    ensures AfterLastPark(s, w).goals.current != Some(Gc) || Less(AfterLastPark(s, w), s) <==>
      (HasDesignated(s) ==> HasUnnotified(s))
  {
    LastParkFacts(s, w);
    InvParts(s, w);
    AnswerCases(s, w);
    hide Inv, Base, Settle, CanMonitor, Drained, Forking, AfterLastPark, Callback, Responded, Less, OpenFrom,
      HasSentinel, HasDesignated,
      HasUnnotified;
    if HasDesignated(s) {
      WakeKeepsGoal(s, w);
      if HasUnnotified(s) {
        DesignatedLess(s, w);
      } else {
        DesignatedNotLess(s, w);
      }
    } else if HasSentinel(s.buckets) {
      SentinelLess(s, w);
    } else if OpenFrom(s.buckets, s.progress + 1).found > 0 {
      OpeningLess(s, w);
    } else {
      EndsHere(s, w);
    }
  }

  lemma EndsHere(s: State, w: nat)
    requires IsWorker(s, w) && OpenUpTo(s.buckets, s.progress)
    requires s.goals.current == Some(Gc) && !s.goals.gcRequested && !HasDesignated(s) && !HasSentinel(s.buckets)
    requires OpenFrom(s.buckets, s.progress + 1).found <= 0
    ensures Sized(AfterLastPark(s, w)) && AfterLastPark(s, w).goals.current != Some(Gc)
  {
    FinishLeads(s, w);
    hide AfterLastPark, OpenFrom, HasDesignated, HasSentinel, OpenUpTo;
  }

  // ---------- the theorem ----------

  /** Nobody parks last while there is designated work and all of it waits for workers that are notified already. */
  ghost predicate Fair(s: State, w: nat)
    requires IsWorker(s, w) && Awake(s.workers[w])
  {
    NextOf(s, w) == Monitor(w, LastPark) && HasDesignated(s) ==> HasUnnotified(s)
  }

  /** The next step of the worker brings the collection closer to its end, or ends it. */
  ghost predicate Advances(s: State, w: nat)
    requires Sized(s) && IsWorker(s, w) && Awake(s.workers[w])
  {
    Enabled(s, NextOf(s, w)) &&
    var t := Apply(s, NextOf(s, w));
    Sized(t) && (t.goals.current != Some(Gc) || Less(t, s))
  }

  lemma PacketAdvances(s: State, w: nat)
    requires IsWorker(s, w) && (s.workers[w].Running? || s.workers[w].Scheduling?)
    requires s.workers[w] == Scheduling(false) ==> s.front == Empty
    ensures Advances(s, w)
  {
    hide Less;
    match s.workers[w]
    case Running(_) => FinishLess(s, w);
    case Scheduling(issued) =>
      if issued {
        ScheduledLess(s, w);
      } else {
        IssueLess(s, w);
      }
  }

  lemma PauseAdvances(s: State, w: nat)
    requires IsWorker(s, w) && s.workers[w].Pausing? && Enabled(s, NextOf(s, w))
    ensures Advances(s, w)
  {
    hide Less;
    PausingLess(s, w, NextPause(s.workers[w].phase));
    hide DoPause, CanPause;
  }

  lemma PollAdvances(s: State, w: nat)
    requires IsWorker(s, w) && (s.workers[w].Polling? || s.workers[w].Sweeping?) && InSweep(s, s.workers[w])
    ensures Advances(s, w)
  {
    if s.workers[w].Sweeping? {
      SweepLess(s, w);
    } else if s.local[w] != multiset{} {
      assert CanPoll(s, w, TakeLocal(Some1(s.local[w])));
      TakeLocalLess(s, w, Some1(s.local[w]));
    } else {
      assert CanPoll(s, w, BeginSweep);
      BeginSweepLess(s, w);
    }
    hide Less, DoPoll, CanPoll, NextPoll;
  }

  lemma UnparkAdvances(s: State, w: nat)
    requires Sized(s) && s.goals.current == Some(Gc) && IsWorker(s, w) && s.workers[w] == Parked(true)
    requires Enabled(s, NextOf(s, w))
    ensures Advances(s, w)
  {
    hide Less;
    UnparkLess(s, w);
  }

  lemma ParkAdvances(s: State, w: nat)
    requires Sized(s) && IsWorker(s, w) && s.workers[w].Parking? && s.parked + 1 != |s.workers| && s.holder == None
    ensures Advances(s, w)
  {
    hide Less;
    ParkLess(s, w);
  }

  lemma LastParkAdvances(s: State, w: nat)
    requires Inv(s) && s.goals.current == Some(Gc) && IsWorker(s, w) && s.workers[w].Parking?
    requires s.parked + 1 == |s.workers|
    requires Sized(s) && Enabled(s, NextOf(s, w))
    ensures Advances(s, w) <==> Fair(s, w)
  {
    hide Inv, Less, AfterLastPark, HasDesignated, HasUnnotified;
    LastParkLess(s, w);
  }

  /**
   While packets add nothing more, the next step of a worker that is up brings the collection closer to
   its end, however the workers are scheduled, exactly if it is fair.
   */
  lemma NextStepIsProgress(s: State, w: nat)
    requires Inv(s) && SweepsBounded(s) && s.goals.current == Some(Gc) && Sized(s) && s.holder == None
    requires IsWorker(s, w) && Awake(s.workers[w])
    ensures Advances(s, w) <==> Fair(s, w)
  {
    AwakeCanGoOn(s, w);
    assert InSweep(s, s.workers[w]);
    GcStates(s, w);
    OnlyLastParkUnfair(s, w);
    hide Inv, SweepsBounded, InSweep, Advances, Enabled, NextOf, Fair;
    match s.workers[w]
    case Running(_) => PacketAdvances(s, w);
    case Scheduling(_) => PacketAdvances(s, w);
    case Pausing(_) => PauseAdvances(s, w);
    case Polling => PollAdvances(s, w);
    case Sweeping(_, _, _) => PollAdvances(s, w);
    case Parking =>
      if s.parked + 1 == |s.workers| {
        LastParkAdvances(s, w);
      } else {
        ParkAdvances(s, w);
      }
    case Parked(_) => UnparkAdvances(s, w);
  }

  lemma OnlyLastParkUnfair(s: State, w: nat)
    requires Sized(s) && IsWorker(s, w) && Awake(s.workers[w])
    ensures !(s.workers[w].Parking? && s.parked + 1 == |s.workers|) ==> Fair(s, w)
  {
    hide HasDesignated, HasUnnotified, NextPoll;
  }

  lemma GcStates(s: State, w: nat)
    requires Inv(s) && s.goals.current == Some(Gc) && IsWorker(s, w) && Awake(s.workers[w])
    ensures !s.workers[w].Exiting? && !s.workers[w].Exited?
    ensures s.workers[w] == Scheduling(false) ==> s.front == Empty
  {
  }

  lemma AwakeWorker(s: State) returns (w: nat)
    requires Inv(s) && s.goals.current == Some(Gc)
    ensures IsWorker(s, w) && Awake(s.workers[w])
  {
    assert SomebodyAwake(s) && Forking(s) && Shape(s);
    hide Inv;
    assert !s.workers[0].Exited?;
    hide Forking;
    w :| 0 <= w < |s.workers| && Awake(s.workers[w]);
  }

  /** A worker to run next: a notified one if there is one. */
  lemma FairWorker(s: State) returns (w: nat)
    requires Inv(s) && Sized(s) && s.goals.current == Some(Gc)
    ensures IsWorker(s, w) && Awake(s.workers[w]) && Fair(s, w)
  {
    w := AwakeWorker(s);
    hide Inv, NextOf;
    if v :| 0 <= v < |s.workers| && s.workers[v] == Parked(true) {
      w := v;
      OnlyLastParkUnfair(s, w);
    }
  }

  /** Some worker brings the collection closer to its end, and all invariants stay. */
  lemma OneStep(s: State) returns (step: Step)
    requires Inv(s) && SweepsBounded(s) && s.goals.current == Some(Gc) && Sized(s) && s.holder == None
    ensures Enabled(s, step) && !Panics(s, step) && !step.Mutator?
    ensures var t := Apply(s, step);
      t.holder == None && Inv(t) && SweepsBounded(t) && Sized(t) && (t.goals.current != Some(Gc) || Less(t, s))
  {
    var w := FairWorker(s);
    step := NextOf(s, w);
    assert !step.Mutator?;
    hide Inv, SweepsBounded, Apply, Enabled, NextOf, Fair, Less, Panics;
    NextStepIsProgress(s, w);
    PanicsWhen(s, step);
    WorkersKeepRequests(s, step);
    StepKeeps(s, step);
    StepBounds(s, step);
  }

  lemma {:induction false} CollectionCanEnd(s: State) returns (steps: seq<Step>)
    requires Inv(s) && SweepsBounded(s) && s.goals.current == Some(Gc) && Sized(s) && s.holder == None
    ensures IsRun(s, steps) && Run(s, steps).goals.current != Some(Gc)
    ensures forall i :: 0 <= i < |steps| ==> !steps[i].Mutator?
    decreases ToStart(s), ToOpen(s), ToRun(s), ToNotice(s), ToPark(s)
  {
    hide Inv, SweepsBounded, Apply, Enabled, Panics, ToStart, ToOpen, ToRun, ToNotice, ToPark;
    var step := OneStep(s);
    var t := Apply(s, step);
    var rest := [];
    if t.goals.current == Some(Gc) {
      rest := CollectionCanEnd(t);
    }
    RunCons(s, step, rest);
    steps := [step] + rest;
  }

  lemma RunCons(s: State, step: Step, rest: seq<Step>)
    requires Enabled(s, step) && !Panics(s, step) && IsRun(Apply(s, step), rest)
    ensures IsRun(s, [step] + rest) && Run(s, [step] + rest) == Run(Apply(s, step), rest)
  {
    hide Enabled, Apply, Panics;
    assert ([step] + rest)[1..] == rest;
  }

  /**
   In every reachable state: a collection that has started can be brought to its end by the workers alone, once
   a mutator that is inside make_request, if there is one, has released the mutex.
   */
  lemma EveryCollectionCanEnd(s: State) returns (steps: seq<Step>)
    requires Reachable(s) && s.goals.current == Some(Gc)
    ensures IsRun(s, steps) && Run(s, steps).goals.current != Some(Gc)
    ensures forall i :: 0 <= i < |steps| && steps[i].Mutator? ==> i == 0 && s.holder.Some? && Releases(steps[i])
  {
    ReachableInv(s);
    ReachableBounds(s);
    assert Shape(s) && HolderRequests(s);
    hide Inv, SweepsBounded, Reachable, IsRun, Run, Enabled, Apply, Panics;
    if s.holder == None {
      steps := CollectionCanEnd(s);
    } else {
      var step := HolderCanGoOn(s);
      StepKeeps(s, step);
      StepBounds(s, step);
      var t := Apply(s, step);
      InvSized(t);
      var rest := CollectionCanEnd(t);
      RunCons(s, step, rest);
      steps := [step] + rest;
    }
  }

  lemma InvSized(s: State)
    requires Inv(s)
    ensures Sized(s)
  {
  }
}
