/**
 The goals of the workers (src/scheduler/worker_goals.rs), and what the last parked worker does
 about them (on_last_parked and respond_to_requests of src/scheduler/scheduler.rs).
 */
module WorkerGoals {
  import opened Wrappers
  import opened WorkBuckets

  datatype Goal = Gc | StopForFork

  datatype Goals = Goals(current: Option<Goal>, gcRequested: bool, forkRequested: bool)

  /** The requested goal of the highest priority becomes current. */
  function PollNext(g: Goals): Goals {
    if g.gcRequested then Goals(Some(Gc), false, g.forkRequested)
    else if g.forkRequested then Goals(Some(StopForFork), false, false)
    else g
  }

  /** What waits in the `Unconstrained` bucket. */
  datatype Front = Empty | Schedule | Stop

  /** What the monitor's callback reads and changes. */
  datatype Scene = Scene(goals: Goals, buckets: Buckets, front: Front, progress: nat, paused: bool)

  datatype Verdict = ParkSelf | WakeSelf | WakeAll

  datatype Outcome = Outcome(scene: Scene, verdict: Verdict) | Panic

  function Respond(scene: Scene): Outcome {
    var goals := PollNext(scene.goals);
    if scene.goals.gcRequested then Outcome(scene.(goals := goals, front := Schedule), WakeSelf)
    else if scene.goals.forkRequested then Outcome(scene.(goals := goals), WakeAll)
    else Outcome(scene, ParkSelf)
  }

  /** The end of a collection: close all buckets, resume the mutators, clear the goal. */
  function Finished(scene: Scene): Scene {
    scene.(buckets := Deactivated(scene.buckets), progress := 0, paused := false,
           goals := scene.goals.(current := None))
  }

  function OnLastParked(scene: Scene, designated: bool): Outcome
    requires OpenUpTo(scene.buckets, scene.progress)
  {
    match scene.goals.current
    case None => Respond(scene)
    case Some(StopForFork) => Panic
    case Some(Gc) =>
      if scene.goals.gcRequested then Panic
      else if designated then Outcome(scene, WakeAll)
      else if HasSentinel(scene.buckets) then Outcome(scene.(buckets := ScheduleSentinels(scene.buckets)), WakeAll)
      else
        var r := OpenFrom(scene.buckets, scene.progress + 1);
        if r.found > 0 then Outcome(scene.(buckets := r.buckets, progress := r.found), WakeAll)
        else Respond(Finished(scene.(buckets := r.buckets, progress := 0)))
  }

  // ---------- the code ----------

  class GoalTable {
    var current: Option<Goal>
    var gcRequested: bool
    var forkRequested: bool

    constructor ()
      ensures Value() == Goals(None, false, false)
    {
      current, gcRequested, forkRequested := None, false, false;
    }

    function Value(): Goals
      reads this
    {
      Goals(current, gcRequested, forkRequested)
    }

    /** set_request: true if the goal was not requested before. */
    method SetRequest(goal: Goal) returns (changed: bool)
      modifies this
      ensures changed == !(if goal == Gc then old(gcRequested) else old(forkRequested))
      ensures gcRequested == (old(gcRequested) || goal == Gc)
      ensures forkRequested == (old(forkRequested) || goal == StopForFork)
      ensures current == old(current)
    {
      match goal
      case Gc => changed := !gcRequested; gcRequested := true;
      case StopForFork => changed := !forkRequested; forkRequested := true;
    }

    /** poll_next_goal. */
    method PollNextGoal() returns (goal: Option<Goal>)
      modifies this
      ensures Value() == PollNext(old(Value()))
      ensures goal == None <==> !old(gcRequested) && !old(forkRequested)
      ensures goal != None ==> goal == current
    {
      if gcRequested {
        gcRequested := false;
        current := Some(Gc);
        return current;
      }
      if forkRequested {
        forkRequested := false;
        current := Some(StopForFork);
        return current;
      }
      return None;
    }

    /** on_current_goal_completed. */
    method CompleteCurrentGoal()
      modifies this
      ensures Value() == old(Value()).(current := None)
    {
      current := None;
    }
  }

  /** The scheduler as the last parked worker sees it. */
  class LastParkedScheduler {
    const goals: GoalTable
    const work: BucketScheduler
    var front: Front
    var paused: bool

    constructor (goals: GoalTable, work: BucketScheduler)
      ensures this.goals == goals && this.work == work && front == Empty && !paused
    {
      this.goals, this.work, front, paused := goals, work, Empty, false;
    }

    function Value(): Scene
      reads this, goals, work
    {
      Scene(goals.Value(), work.buckets, front, work.progress, paused)
    }

    /** on_gc_finished, then on_current_goal_completed. */
    method OnGcFinished()
      modifies this, goals, work
      ensures Value() == Finished(old(Value()))
    {
      work.DeactivateAll();
      paused := false;
      goals.CompleteCurrentGoal();
    }

    /** respond_to_requests. */
    method RespondToRequests() returns (verdict: Verdict)
      modifies this, goals
      ensures Outcome(Value(), verdict) == Respond(old(Value()))
    {
      var goal := goals.PollNextGoal();
      match goal {
        case None => return ParkSelf;
        case Some(Gc) =>
          front := Schedule;
          return WakeSelf;
        case Some(StopForFork) => return WakeAll;
      }
    }

    /** on_last_parked, when neither of its assertions fails. */
    method Run(designated: seq<bool>) returns (verdict: Verdict)
      requires work.Valid()
      requires OnLastParked(Value(), true in designated) != Panic
      modifies this, goals, work
      ensures Outcome(Value(), verdict) == OnLastParked(old(Value()), true in designated)
    {
      match goals.current {
        case None =>
          verdict := RespondToRequests();
        case Some(_) =>
          assert goals.current == Some(Gc);
          ResumeIsRestart(work.buckets, work.progress, 1);
          var more := work.FindMoreWork(designated);
          if more {
            return WakeAll;
          }
          OnGcFinished();
          verdict := RespondToRequests();
      }
    }
  }
}
