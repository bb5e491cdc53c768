/** /cancel only changes the row. Workers do not look at it, so whether a cancellation lasts depends on the tasks. */
module Cancellation {
  import opened Wrappers
  import opened JobTable
  import opened Pipeline
  import opened Steps
  import opened JobTableInvariants
  import opened AtRest

  /** The task may still write the status of its row. Only a preflight that is about to stop will not. */
  predicate MayWrite(s: State, t: Task) {
    !(t.stage.Chaining? && Decide(s.cfg, t.msg.quality, t.stage.meta) != Chain)
  }

  /** Nothing is left that may write the status of the job: no task, and no round of the sweep that read its row. */
  ghost predicate LeftAlone(s: State, job: JobId) {
    && (forall t :: t in s.tasks && t.msg.job == job ==> !MayWrite(s, t))
    && !SweepPending(s, job)
  }

  /** The round under way has still to queue the job, or to give up on it. */
  predicate SweepPending(s: State, job: JobId) {
    job in s.round && !(Requeued(s.round[job].row) && s.round[job].queued)
  }

  ghost predicate CancelledOrGone(s: State, job: JobId) {
    job in s.jobs ==> s.jobs[job].status == CANCELLED
  }

  ghost predicate TapsOther(r: Run, job: JobId) {
    forall i :: 0 <= i < |r.steps| ==> !(r.steps[i].Tap? && r.steps[i].job == job)
  }

  /** However the system runs on from here without a tap on the job, the job ends up cancelled or removed. */
  ghost predicate CancelIsFinal(s: State, job: JobId) {
    forall r :: IsRun(r) && r.states[0] == s && TapsOther(r, job) ==> CancelledOrGone(r.states[|r.steps|], job)
  }

  lemma StaysCancelledStep(s: State, step: Step, job: JobId)
    requires Enabled(s, step) && !(step.Tap? && step.job == job)
    requires job in s.issued && CancelledOrGone(s, job) && LeftAlone(s, job)
    ensures var s' := Apply(s, step); job in s'.issued && CancelledOrGone(s', job)
  {
    hide Left, Bag, NewMsg, IsCacheHit, IsCacheMiss, CacheText, Decide;
  }

  /** A step on a cancelled job that is left alone leaves no task of the job behind. */
  lemma NothingNew(s: State, step: Step, job: JobId)
    requires Enabled(s, step) && !(step.Tap? && step.job == job)
    requires job in s.issued && CancelledOrGone(s, job) && LeftAlone(s, job)
    ensures Left(s, step).Some? ==> Left(s, step).value.msg.job != job
  {
    hide Apply, JobsAfter, IsCacheHit, IsCacheMiss, CacheText, Decide;
    if Taken(step).Some? {
      var taken := Taken(step).value;
      assert taken in s.tasks;
      if taken.msg.job == job { assert !MayWrite(s, taken); }
    }
  }

  lemma LeftAloneStep(s: State, step: Step, job: JobId)
    requires Enabled(s, step) && !(step.Tap? && step.job == job)
    requires job in s.issued && CancelledOrGone(s, job) && LeftAlone(s, job)
    ensures LeftAlone(Apply(s, step), job)
  {
    NothingNew(s, step, job);
    NotRead(s, step, job);
    hide Enabled, Left, Taken, JobsAfter, RoundAfter, Decide, SweepPending;
    forall t | t in Apply(s, step).tasks && t.msg.job == job ensures !MayWrite(Apply(s, step), t) {
      TaskFrom(s, step, t);
    }
  }

  /** The sweep does not read a row that is not RUNNING. */
  lemma NotRead(s: State, step: Step, job: JobId)
    requires Enabled(s, step) && CancelledOrGone(s, job) && !SweepPending(s, job)
    ensures !SweepPending(Apply(s, step), job)
  {
    hide Left, Taken, Bag, NewMsg, JobsAfter, IsCacheHit, IsCacheMiss, CacheText, Decide;
  }

  lemma {:induction false} StaysCancelled(r: Run, i: nat, job: JobId)
    requires IsRun(r) && i < |r.states| && TapsOther(r, job)
    requires job in r.states[0].issued && CancelledOrGone(r.states[0], job) && LeftAlone(r.states[0], job)
    ensures job in r.states[i].issued && CancelledOrGone(r.states[i], job) && LeftAlone(r.states[i], job)
  {
    hide Apply, Enabled, LeftAlone, CancelledOrGone;
    if i > 0 {
      StaysCancelled(r, i - 1, job);
      assert StepTo(r.states[i - 1], r.steps[i - 1], r.states[i]);
      StaysCancelledStep(r.states[i - 1], r.steps[i - 1], job);
      LeftAloneStep(r.states[i - 1], r.steps[i - 1], job);
    }
  }

  /** How many steps before its next write of the status a task can be. */
  function Distance(stage: Stage): nat {
    match stage
    case Posting => 2
    case Queued => 1
    case Chaining(_) => 1
    case _ => 0
  }

  /** One step in which a task writes the status of its row. */
  lemma TaskWritesNow(s: State, job: JobId, t: Task) returns (step: Step)
    requires job in s.jobs && t in s.tasks && t.msg.job == job && Distance(t.stage) == 0
    ensures Enabled(s, step) && !step.Tap? && !CancelledOrGone(Apply(s, step), job)
  {
    hide Left, Bag, IsCacheHit, IsCacheMiss, CacheText;
    match t.stage {
      case Fetching => step := PreflightFail(t.msg, 0);
      case Delivering(file) => step := PreflightDeliver(t.msg, file, 0);
      case DownloadQueued => step := DownloadStart(t.msg, 0);
      case _ => step := DownloadFail(t.msg, t.stage, 0);
    }
  }

  /** The cache query moves a queued message on. */
  lemma QueuedMovesOn(s: State, msg: Msg) returns (step: Step, to: Stage)
    requires Task(msg, Queued) in s.tasks
    ensures StepTo(s, step, Moved(s, s.jobs, msg, Queued, Some(to)))
    ensures !step.Tap? && (to.Fetching? || to.Delivering?)
  {
    hide CacheText;
    step := LookupAnswers(s, msg);
    if step.PreflightHit? {
      HitStep(s, msg, step.cached);
      to := Delivering(s.jobs[step.cached].fileId.value);
    } else {
      to := Fetching;
      MissStep(s, msg);
    }
  }

  /** Any other task that may write can come one step closer. */
  lemma TaskComesCloser(s: State, t: Task) returns (step: Step, next: State, left: Task)
    requires t in s.tasks && MayWrite(s, t) && Distance(t.stage) > 0
    ensures StepTo(s, step, next) && !step.Tap? && next.jobs == s.jobs && MayWrite(next, left)
    ensures left in next.tasks && left.msg == t.msg && Distance(left.stage) < Distance(t.stage)
  {
    hide StepTo, Decide;
    var to;
    if t.stage.Posting? {
      step, to := Enqueue(t.msg), Queued;
      PostStep(s, t.msg, true);
    } else if t.stage.Queued? {
      step, to := QueuedMovesOn(s, t.msg);
    } else {
      step, to := PreflightEnd(t.msg, t.stage.meta), DownloadQueued;
      EndStep(s, t.msg, t.stage.meta);
    }
    next, left := Moved(s, s.jobs, t.msg, t.stage, Some(to)), Task(t.msg, to);
  }

  /** A run at whose end a task may write the job can go on until the task has done so. */
  lemma {:induction false} TaskWrites(before: Run, job: JobId, t: Task) returns (r: Run)
    requires IsRun(before) && TapsOther(before, job)
    requires job in Last(before).jobs && t in Last(before).tasks && t.msg.job == job && MayWrite(Last(before), t)
    ensures IsRun(r) && r.states[0] == before.states[0] && TapsOther(r, job) && !CancelledOrGone(Last(r), job)
    decreases Distance(t.stage)
  {
    hide StepTo, CancelledOrGone, MayWrite, Distance;
    var s := Last(before);
    if Distance(t.stage) == 0 {
      var step := TaskWritesNow(s, job, t);
      StepIsTo(s, step);
      r := Extend(before, step, Apply(s, step));
    } else {
      var step, next, left := TaskComesCloser(s, t);
      r := TaskWrites(Extend(before, step, next), job, left);
    }
  }

  lemma StepIsTo(s: State, step: Step)
    requires Enabled(s, step)
    ensures StepTo(s, step, Apply(s, step))
  {
  }

  /** A round of the sweep that has still to queue the job, or to give up on it, leads there as well. */
  lemma SweepWrites(s: State, job: JobId) returns (r: Run)
    requires job in s.jobs && SweepPending(s, job)
    ensures IsRun(r) && r.states[0] == s && TapsOther(r, job) && !CancelledOrGone(Last(r), job)
  {
    var seen := s.round[job];
    if Requeued(seen.row) {
      var t := Task(SweepMsg(job, seen.row), Queued);
      var next := s.(round := s.round[job := seen.(queued := true)], tasks := s.tasks + multiset{t});
      QueueStep(s, job);
      hide StepTo;
      r := Extend(Still(s), SweepQueue(job), next);
      r := TaskWrites(r, job, t);
    } else {
      var next := s.(jobs := s.jobs[job := WriteBack(s.jobs[job], seen.row, 0)], round := s.round - {job});
      WriteStep(s, job, 0);
      hide StepTo;
      r := Extend(Still(s), SweepWrite(job, 0), next);
    }
  }

  /**
   A cancelled job stays cancelled through every continuation, as long as nobody taps its menu, exactly
   when no task is left that may write its row and no round of the sweep has it still to queue or to give up on.
   */
  lemma CancelFinalExactly(s: State, job: JobId)
    requires job in s.jobs && job in s.issued && s.jobs[job].status == CANCELLED
    ensures CancelIsFinal(s, job) <==> LeftAlone(s, job)
  {
    assert CancelledOrGone(s, job);
    hide Apply, Enabled, MayWrite, CancelledOrGone, TapsOther, SweepPending;
    if LeftAlone(s, job) {
      forall r | IsRun(r) && r.states[0] == s && TapsOther(r, job) ensures CancelledOrGone(r.states[|r.steps|], job) {
        StaysCancelled(r, |r.steps|, job);
      }
    } else if SweepPending(s, job) {
      var r := SweepWrites(s, job);
    } else {
      var t :| t in s.tasks && t.msg.job == job && MayWrite(s, t);
      assert TapsOther(Still(s), job) by { NoTaps(s, job); }
      var r := TaskWrites(Still(s), job, t);
    }
  }

  lemma NoTaps(s: State, job: JobId)
    ensures TapsOther(Still(s), job)
  {
  }
}
