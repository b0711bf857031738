/**
 The work buckets of src/scheduler/work_bucket.rs and the way src/scheduler/scheduler.rs
 opens them.  Stage 0 is `Unconstrained`; the stop-the-world stages start at 1.
 */
module WorkBuckets {

  /** `count` is the number of packets in the bucket's queues. */
  datatype Bucket = Bucket(active: bool, disabled: bool, count: nat, sentinel: bool) {
    predicate IsEmpty() {
      disabled || count == 0
    }

    predicate IsDrained() {
      active && IsEmpty()
    }
  }

  type Buckets = seq<Bucket>

  /** are_buckets_drained for the stop-the-world stages before `i`: the open condition of stage `i`. */
  predicate DrainedBefore(bs: Buckets, i: nat)
    requires i <= |bs|
  {
    forall j :: 1 <= j < i ==> bs[j].IsDrained() || bs[j].disabled
  }

  /** Whether `update` opens bucket `i`: the first stop-the-world stage has no open condition. */
  predicate Opens(bs: Buckets, i: nat)
    requires i < |bs|
  {
    2 <= i && !bs[i].active && DrainedBefore(bs, i)
  }

  datatype Opening = Opening(buckets: Buckets, found: int)

  const NOTHING: int := -1

  /**
   Open buckets from stage `i` on, one after the other, until one of them has something to do.
   `found` is that stage.
   */
  function OpenFrom(bs: Buckets, i: nat): (r: Opening)
    requires 1 <= i <= |bs|
    ensures |r.buckets| == |bs|
    ensures r.found == NOTHING || i <= r.found < |bs|
    decreases |bs| - i
  {
    if i == |bs| then Opening(bs, NOTHING)
    else if bs[i].disabled || bs[i].active || !Opens(bs, i) then OpenFrom(bs, i + 1)
    else
      var b := bs[i].(active := true);
      if b.count > 0 then Opening(bs[i := b], i)
      else if b.sentinel then Opening(bs[i := b.(count := b.count + 1, sentinel := false)], i)
      else OpenFrom(bs[i := b], i + 1)
  }

  /** Every stage up to `p` is open or disabled. */
  predicate OpenUpTo(bs: Buckets, p: nat) {
    p < |bs| && forall j :: 1 <= j <= p ==> bs[j].active || bs[j].disabled
  }

  /** Starting after the stages that are already open is the same as starting from the first. */
  lemma {:induction false} ResumeIsRestart(bs: Buckets, p: nat, i: nat)
    requires OpenUpTo(bs, p) && 1 <= i <= p + 1
    ensures OpenFrom(bs, i) == OpenFrom(bs, p + 1)
    decreases p + 1 - i
  {
    if i < p + 1 {
      ResumeIsRestart(bs, p, i + 1);
    }
  }

  /** Opening only activates buckets, and moves at most the sentinel of the one it finds. */
  predicate Widened(bs: Buckets, r: Buckets) {
    && |r| == |bs|
    && forall j :: 0 <= j < |bs| ==>
         && (bs[j].active ==> r[j] == bs[j]) && r[j].disabled == bs[j].disabled
         && (r[j].sentinel ==> bs[j].sentinel)
         && r[j].count + (if r[j].sentinel then 1 else 0) == bs[j].count + (if bs[j].sentinel then 1 else 0)
  }

  /** The stage that is found was closed. */
  lemma {:induction false} FoundWasClosed(bs: Buckets, i: nat)
    requires 1 <= i <= |bs| && OpenFrom(bs, i).found != NOTHING
    ensures var r := OpenFrom(bs, i);
      1 <= r.found < |bs| && !bs[r.found].active && !bs[r.found].disabled && r.buckets[r.found].active
    decreases |bs| - i
  {
    if i < |bs| {
      if bs[i].disabled || bs[i].active || !Opens(bs, i) {
        FoundWasClosed(bs, i + 1);
      } else if bs[i].count == 0 && !bs[i].sentinel {
        FoundWasClosed(bs[i := bs[i].(active := true)], i + 1);
      }
    }
  }

  lemma {:induction false} OpenWidens(bs: Buckets, i: nat)
    requires 1 <= i <= |bs|
    ensures Widened(bs, OpenFrom(bs, i).buckets)
    decreases |bs| - i
  {
    if i < |bs| {
      if bs[i].disabled || bs[i].active || !Opens(bs, i) {
        OpenWidens(bs, i + 1);
      } else if bs[i].count == 0 && !bs[i].sentinel {
        OpenWidens(bs[i := bs[i].(active := true)], i + 1);
      }
    }
  }

  // ---------- order and completeness of opening ----------

  predicate Done(b: Bucket) {
    b.count == 0 && !b.sentinel
  }

  /** Disabled buckets hold nothing. */
  predicate DisabledEmpty(bs: Buckets) {
    forall j :: 0 <= j < |bs| && bs[j].disabled ==> Done(bs[j])
  }

  /** Before an open stage, every stage is open or disabled, and finished. */
  ghost predicate Ordered(bs: Buckets) {
    forall a, b :: 1 <= a < b < |bs| && bs[b].active ==> (bs[a].active || bs[a].disabled) && Done(bs[a])
  }

  /** Every open stop-the-world stage is finished. */
  predicate Quiet(bs: Buckets) {
    forall j :: 1 <= j < |bs| && bs[j].active ==> Done(bs[j])
  }

  lemma OpenOne(bs: Buckets, i: nat)
    requires 1 <= i < |bs| && Ordered(bs) && DisabledEmpty(bs) && Quiet(bs) && Opens(bs, i) && !bs[i].disabled
    ensures forall b :: i < b < |bs| ==> !bs[b].active
    ensures Ordered(bs[i := bs[i].(active := true)]) && DisabledEmpty(bs[i := bs[i].(active := true)])
    ensures bs[i].sentinel ==> Ordered(bs[i := bs[i].(active := true, count := bs[i].count + 1, sentinel := false)])
    ensures Done(bs[i]) ==> Quiet(bs[i := bs[i].(active := true)])
  {
  }

  /** A stage is opened only when all earlier ones are finished. */
  lemma {:induction false} OpenKeepsOrder(bs: Buckets, i: nat)
    requires 1 <= i <= |bs| && Ordered(bs) && DisabledEmpty(bs) && Quiet(bs)
    ensures var r := OpenFrom(bs, i); Ordered(r.buckets) && DisabledEmpty(r.buckets)
    ensures var r := OpenFrom(bs, i);
      if r.found == NOTHING then Quiet(r.buckets)
      else i <= r.found < |bs| && r.buckets[r.found].active && r.buckets[r.found].count > 0
    decreases |bs| - i
  {
    if i < |bs| {
      if bs[i].disabled || bs[i].active || !Opens(bs, i) {
        OpenKeepsOrder(bs, i + 1);
      } else {
        OpenOne(bs, i);
        if bs[i].count == 0 && !bs[i].sentinel {
          OpenKeepsOrder(bs[i := bs[i].(active := true)], i + 1);
        }
      }
    }
  }

  /** If nothing is found once the stages before `i` are open, then every stage is open or disabled, and finished. */
  lemma {:induction false} NothingMeansAll(bs: Buckets, i: nat)
    requires 1 <= i <= |bs| && DisabledEmpty(bs) && Quiet(bs)
    requires forall j :: 1 <= j < i ==> bs[j].active || bs[j].disabled
    requires i == 1 ==> |bs| == 1 || bs[1].active || bs[1].disabled
    requires OpenFrom(bs, i).found == NOTHING
    ensures forall j :: 1 <= j < |bs| ==>
      (OpenFrom(bs, i).buckets[j].active || OpenFrom(bs, i).buckets[j].disabled) && Done(OpenFrom(bs, i).buckets[j])
    decreases |bs| - i
  {
    if i < |bs| {
      if bs[i].disabled || bs[i].active {
        NothingMeansAll(bs, i + 1);
      } else {
        assert Opens(bs, i);
        NothingMeansAll(bs[i := bs[i].(active := true)], i + 1);
      }
    }
  }

  predicate AllDone(bs: Buckets) {
    forall j :: 1 <= j < |bs| ==> Done(bs[j])
  }

  /** If nothing is left to do, no stage is found. */
  lemma {:induction false} DoneFindsNothing(bs: Buckets, i: nat)
    requires 1 <= i <= |bs| && AllDone(bs)
    ensures OpenFrom(bs, i).found == NOTHING
    decreases |bs| - i
  {
    if i < |bs| {
      if bs[i].disabled || bs[i].active || !Opens(bs, i) {
        DoneFindsNothing(bs, i + 1);
      } else {
        DoneFindsNothing(bs[i := bs[i].(active := true)], i + 1);
      }
    }
  }

  // ---------- sentinels ----------

  /** maybe_schedule_sentinel on an open bucket. */
  function Flushed(b: Bucket): Bucket {
    if b.active && b.sentinel then b.(count := b.count + 1, sentinel := false) else b
  }

  /** Every open bucket turns its sentinel into a packet. */
  function ScheduleSentinels(bs: Buckets): Buckets {
    seq(|bs|, j requires 0 <= j < |bs| => Flushed(bs[j]))
  }

  function Closed(b: Bucket): Bucket {
    b.(active := false, disabled := false)
  }

  function Deactivated(bs: Buckets): Buckets {
    seq(|bs|, j requires 0 <= j < |bs| => if j == 0 then bs[j] else Closed(bs[j]))
  }

  predicate HasSentinel(bs: Buckets) {
    exists j :: 0 <= j < |bs| && bs[j].active && bs[j].sentinel
  }

  /** What a bucket holds: its packets, and the sentinel that will become one. */
  function Held(b: Bucket): nat {
    b.count + if b.sentinel then 1 else 0
  }

  /** In open buckets the sentinel has become a packet; nothing else has changed. */
  ghost predicate SentinelsScheduled(bs: Buckets, r: Buckets) {
    && |r| == |bs|
    && forall j :: 0 <= j < |bs| ==>
         if bs[j].active then r[j] == Bucket(true, bs[j].disabled, Held(bs[j]), false) else r[j] == bs[j]
  }

  lemma SentinelsBecomePackets(bs: Buckets)
    ensures SentinelsScheduled(bs, ScheduleSentinels(bs))
  {
  }

  /** All stages are closed and enabled, and keep what they hold. */
  ghost predicate StagesClosed(bs: Buckets, r: Buckets) {
    && |r| == |bs| && (|bs| > 0 ==> r[0] == bs[0])
    && forall j :: 1 <= j < |bs| ==> r[j] == Bucket(false, false, bs[j].count, bs[j].sentinel)
  }

  lemma SentinelsKeepOrder(bs: Buckets)
    requires Ordered(bs) && DisabledEmpty(bs)
    ensures Ordered(ScheduleSentinels(bs)) && DisabledEmpty(ScheduleSentinels(bs))
  {
  }

  lemma NoSentinelNoChange(bs: Buckets)
    requires !HasSentinel(bs)
    ensures ScheduleSentinels(bs) == bs
  {
  }

  lemma NothingBehindLast(bs: Buckets)
    requires |bs| >= 1
    ensures OpenFrom(bs, |bs|) == Opening(bs, NOTHING)
  {
  }

  /** What the last parked worker finds: designated work, then sentinels, then the next stage to open. */
  const ELSEWHERE: int := 0

  function MoreWork(bs: Buckets, designated: bool): Opening
    requires |bs| >= 1
  {
    if designated then Opening(bs, ELSEWHERE)
    else if HasSentinel(bs) then Opening(ScheduleSentinels(bs), ELSEWHERE)
    else OpenFrom(bs, 1)
  }

  // ---------- the code ----------

  /** The part of GCWorkScheduler that opens buckets. */
  class BucketScheduler {
    var buckets: Buckets
    var progress: nat

    ghost predicate Valid()
      reads this
    {
      |buckets| >= 3 && buckets[0].active && OpenUpTo(buckets, progress)
    }

    /** update: open bucket `i` if its condition holds. */
    method UpdateBucket(i: nat) returns (didOpen: bool)
      requires i < |buckets|
      modifies this`buckets
      ensures didOpen <==> Opens(old(buckets), i)
      ensures buckets == if didOpen then old(buckets)[i := old(buckets)[i].(active := true)] else old(buckets)
    {
      if 2 <= i && !buckets[i].active && DrainedBefore(buckets, i) {
        buckets := buckets[i := buckets[i].(active := true)];
        return true;
      }
      return false;
    }

    method MaybeScheduleSentinel(i: nat) returns (scheduled: bool)
      requires i < |buckets|
      modifies this`buckets
      ensures scheduled == old(buckets[i].sentinel)
      ensures buckets ==
        if scheduled then old(buckets)[i := old(buckets)[i].(count := old(buckets)[i].count + 1,
          sentinel := false)] else old(buckets)
    {
      scheduled := buckets[i].sentinel;
      if scheduled {
        buckets := buckets[i := buckets[i].(count := buckets[i].count + 1, sentinel := false)];
      }
    }

    /** One round of the loop of update_buckets. */
    method TryStage(i: nat) returns (didOpen: bool, newPackets: bool)
      requires 1 <= i < |buckets|
      modifies this`buckets
      ensures newPackets ==> didOpen && OpenFrom(old(buckets), i) == Opening(buckets, i)
      ensures !newPackets ==> |buckets| == old(|buckets|) && OpenFrom(old(buckets), i) == OpenFrom(buckets, i + 1)
    {
      didOpen, newPackets := false, false;
      if !buckets[i].disabled && !buckets[i].active {
        didOpen := UpdateBucket(i);
        if didOpen {
          newPackets := !buckets[i].IsDrained();
          if !newPackets {
            newPackets := MaybeScheduleSentinel(i);
          }
        }
      }
    }

    /**
     update_buckets: resume behind the stages opened so far, and open until a bucket has work.
     What it opens is what a scan from the first stage would open.
     */
    method UpdateBuckets() returns (more: bool)
      requires Valid()
      modifies this
      ensures Valid()
      ensures buckets == OpenFrom(old(buckets), 1).buckets
      ensures more <==> OpenFrom(old(buckets), 1).found != NOTHING
      ensures progress == if more then OpenFrom(old(buckets), 1).found else 0
    {
      hide OpenFrom;
      ghost var was := buckets;
      ResumeIsRestart(was, progress, 1);
      OpenWidens(was, 1);
      var bucketsUpdated, newPackets := false, false;
      var startIndex := progress + 1;
      OpenedUpTo(was, startIndex);
      var newProgress: nat := |buckets|;
      var i := startIndex;
      while i < |buckets| && !newPackets
        invariant 1 <= startIndex <= i <= |buckets| == |was|
        invariant newPackets ==>
          bucketsUpdated && newProgress < |buckets| && OpenFrom(was, startIndex) == Opening(buckets, newProgress)
        invariant !newPackets ==> OpenFrom(was, startIndex) == OpenFrom(buckets, i)
        decreases |buckets| - i, !newPackets
      {
        var didOpen;
        didOpen, newPackets := TryStage(i);
        bucketsUpdated := bucketsUpdated || didOpen;
        if newPackets {
          newProgress := i;
        } else {
          i := i + 1;
        }
      }
      if !newPackets {
        NothingBehindLast(buckets);
      }
      progress := if bucketsUpdated && newPackets then newProgress else 0;
      more := bucketsUpdated && newPackets;
    }

    /** schedule_sentinels. */
    method AddSentinels() returns (newPackets: bool)
      modifies this`buckets
      ensures buckets == ScheduleSentinels(old(buckets))
      ensures SentinelsScheduled(old(buckets), buckets)
      ensures newPackets <==> HasSentinel(old(buckets))
    {
      newPackets := false;
      ghost var was := buckets;
      var id := 0;
      while id < |buckets|
        invariant id <= |buckets| == |was|
        invariant forall j :: 0 <= j < |was| ==> buckets[j] == if j < id then Flushed(was[j]) else was[j]
        invariant newPackets <==> exists j :: 0 <= j < id && was[j].active && was[j].sentinel
      {
        if buckets[id].active {
          var scheduled := MaybeScheduleSentinel(id);
          newPackets := newPackets || scheduled;
        }
        id := id + 1;
      }
    }

    /** deactivate_all. */
    method DeactivateAll()
      modifies this
      ensures buckets == Deactivated(old(buckets)) && StagesClosed(old(buckets), buckets)
      ensures progress == 0
    {
      ghost var was := buckets;
      var id := 0;
      while id < |buckets|
        invariant id <= |buckets| == |was|
        invariant forall j :: 0 <= j < |was| ==> buckets[j] == if 1 <= j < id then Closed(was[j]) else was[j]
      {
        if id != 0 {
          buckets := buckets[id := buckets[id].(active := false, disabled := false)];
        }
        id := id + 1;
      }
      progress := 0;
    }

    /**
     find_more_work_for_workers, where `designated` says for each worker whether somebody
     designated work to it.
     */
    method FindMoreWork(designated: seq<bool>) returns (more: bool)
      requires Valid()
      modifies this
      ensures Valid()
      ensures var r := MoreWork(old(buckets), true in designated);
        && buckets == r.buckets && more == (r.found != NOTHING)
        && progress == if r.found == ELSEWHERE then old(progress) else if more then r.found else 0
    {
      var i := 0;
      while i < |designated|
        invariant i <= |designated| && true !in designated[..i]
      {
        if designated[i] {
          return true;
        }
        i := i + 1;
      }
      assert designated == designated[..i];
      var scheduled := AddSentinels();
      if scheduled {
        return true;
      }
      NoSentinelNoChange(old(buckets));
      more := UpdateBuckets();
    }
  }

  /** The stages up to the one that is found are open or disabled. */
  lemma {:induction false} OpenedUpTo(bs: Buckets, i: nat)
    requires 1 <= i <= |bs| && forall j :: 1 <= j < i ==> bs[j].active || bs[j].disabled
    ensures var r := OpenFrom(bs, i); r.found != NOTHING ==> 0 <= r.found && OpenUpTo(r.buckets, r.found)
    decreases |bs| - i
  {
    if i < |bs| {
      if bs[i].disabled || bs[i].active {
        OpenedUpTo(bs, i + 1);
      } else if !Opens(bs, i) {
        StuckFindsNothing(bs, i, i + 1);
      } else if bs[i].count == 0 && !bs[i].sentinel {
        OpenedUpTo(bs[i := bs[i].(active := true)], i + 1);
      }
    }
  }

  /** Behind a stage that stays closed nothing opens. */
  lemma {:induction false} StuckFindsNothing(bs: Buckets, k: nat, i: nat)
    requires 1 <= k < i <= |bs| && !bs[k].active && !bs[k].disabled
    ensures OpenFrom(bs, i) == Opening(bs, NOTHING)
    decreases |bs| - i
  {
    if i < |bs| {
      assert !Opens(bs, i);
      StuckFindsNothing(bs, k, i + 1);
    }
  }
}
