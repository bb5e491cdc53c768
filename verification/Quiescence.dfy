/** The pipeline comes to rest by itself. */
module Quiescence {
  import opened Wrappers
  import opened Sums
  import opened Text
  import opened JobTable
  import opened Pipeline
  import opened JobTableInvariants

  /** What is left to do for a task. */
  function Rank(t: Task): nat {
    match t.stage
    case Posting => 14
    case Queued => 13
    case Fetching => 12
    case Chaining(_) => 9
    case DownloadQueued => 8
    case Downloading => 5
    case Compressing => 2
    case Delivering(_) => 1
    case Notifying => 1
  }

  function RankOf(t: Option<Task>): nat { if t.Some? then Rank(t.value) else 0 }

  function RecoveriesLeft(row: DownloadJob): nat {
    if row.retryCount < MAX_RECOVERIES then MAX_RECOVERIES - row.retryCount else 0
  }

  /** What the sweep may still cause for a row it has not read: recoveries, and giving up on a RUNNING row. */
  function Credit(row: DownloadJob): nat {
    16 * RecoveriesLeft(row) + (if row.status == RUNNING then 2 else 0)
  }

  /** What a row that the sweep has read may still cause in this round. */
  function Debt(seen: Seen): nat {
    if !Requeued(seen.row) then 1 else if seen.queued then 3 else 17
  }

  /** What the sweep may still cause for a job, from its row and its entry in the round. */
  function JobWeight(row: Option<DownloadJob>, seen: Option<Seen>): nat {
    if seen.None? then if row.Some? then Credit(row.value) else 0
    else
      // one recovery is set aside for the round
      Debt(seen.value)
      + (if row.Some? && RecoveriesLeft(row.value) > 0 then 16 * (RecoveriesLeft(row.value) - 1) else 0)
  }

  function Get<V>(m: map<JobId, V>, job: JobId): Option<V> { if job in m then Some(m[job]) else None }

  ghost function Weight(s: State): JobId -> nat { (job: JobId) => JobWeight(Get(s.jobs, job), Get(s.round, job)) }

  ghost function Measure(s: State): nat { Sum(s.issued.Keys, Weight(s)) + Total(s.tasks, Rank) }

  // ------------------------------------------------------------------ the tasks

  lemma TasksMeasure(s: State, step: Step)
    requires Enabled(s, step)
    ensures var taken, left := Taken(step), Left(s, step);
            Total(Apply(s, step).tasks, Rank) + RankOf(taken) == Total(s.tasks, Rank) + RankOf(left)
  {
    hide JobsAfter, RoundAfter, Left, Taken;
    BagMeasure(s.tasks, Taken(step), Left(s, step));
  }

  lemma BagMeasure(tasks: multiset<Task>, taken: Option<Task>, left: Option<Task>)
    requires taken.Some? ==> taken.value in tasks
    ensures Total(tasks - Bag(taken) + Bag(left), Rank) + RankOf(taken) == Total(tasks, Rank) + RankOf(left)
  {
    hide Total;
    var rest := tasks - Bag(taken);
    if taken.Some? { TotalTakeOut(tasks, Rank, taken.value); } else { assert rest == tasks; }
    if left.Some? { TotalAdd(rest, Rank, left.value); } else { assert rest + Bag(left) == rest; }
  }

  // ------------------------------------------------------------------ the rows

  /** The most a step can add to the weight of its job. */
  function Gain(step: Step): nat {
    if step.PreflightMark? || step.DownloadStart? || step.DownloadRefresh? then 2
    else if step.Create? then 48
    else 0
  }

  /** What a sweep pays for its step. */
  function Paid(step: Step): nat {
    if step.SweepBegin? || step.SweepWrite? then 1 else if step.SweepQueue? then 14 else 0
  }

  /** The job whose row or entry a step touches; of the many rows that a round reads, one of them. */
  ghost function Subject(s: State, step: Step): (subject: Option<JobId>)
    requires Enabled(s, step)
    ensures step.SweepBegin? ==> subject.Some? && subject.value in RoundAfter(s, step)
  {
    match step
    case Create(job, _, _, _, _) => Some(job)
    case Tap(job, _) => Some(job)
    case Cancel(job, _) => Some(job)
    case PreflightDeliver(msg, _, _) => Some(msg.job)
    case PreflightFail(msg, _) => Some(msg.job)
    case PreflightMark(msg, _, _) => Some(msg.job)
    case DownloadStart(msg, _) => Some(msg.job)
    case DownloadRefresh(msg, _) => Some(msg.job)
    case DownloadDone(msg, _, _, _) => Some(msg.job)
    case DownloadFail(msg, _, _) => Some(msg.job)
    case SweepBegin(now) =>
      var rows := StaleRows(s.jobs, now - STALE_AFTER);
      assert exists job :: job in rows;
      var job :| job in rows;
      Some(job)
    case SweepQueue(job) => Some(job)
    case SweepWrite(job, _) => Some(job)
    case _ => None
  }

  /** A job that is not the subject keeps its row, unless it is cleared. */
  lemma RowElsewhere(s: State, step: Step, job: JobId)
    requires Enabled(s, step) && Subject(s, step) != Some(job)
    ensures Get(Apply(s, step).jobs, job) == Get(s.jobs, job) || Get(Apply(s, step).jobs, job) == None
  {
    hide Left, Taken, Bag, NewMsg, UpdateRow, WriteBack, RoundAfter, IsCacheHit, IsCacheMiss, CacheText;
  }

  /** It keeps its entry too, unless a round starts or fails. */
  lemma EntryElsewhere(s: State, step: Step, job: JobId)
    requires Enabled(s, step) && Subject(s, step) != Some(job)
    ensures !step.SweepBegin? && !step.SweepRollback? ==> Get(Apply(s, step).round, job) == Get(s.round, job)
    ensures step.SweepBegin? ==> Get(s.round, job) == None && Get(Apply(s, step).jobs, job) == Get(s.jobs, job)
    ensures step.SweepBegin? && Get(Apply(s, step).round, job).Some? ==>
              job in s.jobs && s.jobs[job].status == RUNNING
              && Get(Apply(s, step).round, job) == Some(Seen(s.jobs[job], false))
    ensures step.SweepRollback? ==> Get(Apply(s, step).round, job) == None
  {
    hide Left, Taken, Bag, NewMsg, IsCacheHit, IsCacheMiss, CacheText, UpdateJobStatus;
  }

  /** A row cannot become heavier by losing what made it heavy. */
  lemma LighterRow(row: Option<DownloadJob>, next: Option<DownloadJob>, seen: Option<Seen>)
    requires next.Some? ==> row.Some? && next.value.retryCount == row.value.retryCount
                            && (next.value.status == RUNNING ==> row.value.status == RUNNING)
    ensures JobWeight(next, seen) <= JobWeight(row, seen)
  {
  }

  /** Reading a row sets one recovery aside, or gives up the RUNNING flag of a row that has none left. */
  lemma ReadWeight(row: DownloadJob)
    requires row.status == RUNNING
    ensures JobWeight(Some(row), Some(Seen(row, false))) + 1 <= JobWeight(Some(row), None)
  {
  }

  lemma DroppedWeight(row: Option<DownloadJob>, seen: Seen)
    requires row.Some? ==> row.value.retryCount == seen.row.retryCount
    requires seen.queued ==> Requeued(seen.row)
    ensures JobWeight(row, None) <= JobWeight(row, Some(seen)) + 15
  {
  }

  lemma EntryAgrees(s: State, job: JobId)
    requires Consistent(s) && job in s.round
    ensures s.round[job].queued ==> Requeued(s.round[job].row)
    ensures job in s.jobs ==> s.jobs[job].retryCount == s.round[job].row.retryCount
    ensures job in s.issued
  {
    assert EntryOk(s, job);
  }

  /** The weight of a job that is not the subject does not rise, except when a round it is in fails. */
  lemma WeightElsewhere(s: State, step: Step, job: JobId)
    requires Consistent(s) && Enabled(s, step) && Subject(s, step) != Some(job)
    ensures Weight(Apply(s, step))(job)
            <= Weight(s)(job) + (if step.SweepRollback? && job in s.round then 15 else 0)
  {
    hide Apply, Enabled, Consistent, Subject, JobWeight, Requeued;
    RowElsewhere(s, step, job);
    EntryElsewhere(s, step, job);
    if job in s.round { EntryAgrees(s, job); }
    var row, seen := Get(s.jobs, job), Get(s.round, job);
    LighterRow(row, Get(Apply(s, step).jobs, job), Get(Apply(s, step).round, job));
    if step.SweepRollback? && seen.Some? { DroppedWeight(row, seen.value); }
    if step.SweepBegin? && Get(Apply(s, step).round, job).Some? { ReadWeight(row.value); }
  }

  /** A status update adds the RUNNING flag at most. */
  lemma UpdateWeight(jobs: Table, seen: Option<Seen>, job: JobId, status: JobStatus, columns: Columns, now: Time)
    ensures JobWeight(Get(UpdateJobStatus(jobs, job, status, columns, now), job), seen)
            <= JobWeight(Get(jobs, job), seen) + (if status == RUNNING then 2 else 0)
  {
  }

  lemma WorkerWeight(s: State, step: Step, job: JobId)
    requires Enabled(s, step) && Subject(s, step) == Some(job) && Taken(step).Some?
    ensures Weight(Apply(s, step))(job) <= Weight(s)(job) + Gain(step)
  {
    var jobs, seen := s.jobs, Get(s.round, job);
    hide Left, Bag, NewMsg, IsCacheHit, IsCacheMiss, CacheText, UpdateJobStatus, JobWeight, LastUpload, Get;
    match step
    case PreflightDeliver(_, file, now) => UpdateWeight(jobs, seen, job, DONE, NO_COLUMNS.(fileId := Some(Some(file))), now);
    case PreflightFail(_, now) => UpdateWeight(jobs, seen, job, FAILED, NO_COLUMNS, now);
    case PreflightMark(msg, _, now) =>
      UpdateWeight(jobs, seen, job, RUNNING, NO_COLUMNS.(urlHash := Some(CacheText(msg.url, msg.quality))), now);
    case DownloadStart(_, now) => UpdateWeight(jobs, seen, job, RUNNING, NO_COLUMNS.(heartbeatAt := Some(now)), now);
    case DownloadRefresh(_, now) => UpdateWeight(jobs, seen, job, RUNNING, NO_COLUMNS.(heartbeatAt := Some(now)), now);
    case DownloadDone(msg, _, uploads, now) =>
      UpdateWeight(jobs, seen, job, DONE, NO_COLUMNS.(fileId := Some(LastUpload(msg, uploads))), now);
    case DownloadFail(_, _, now) => UpdateWeight(jobs, seen, job, FAILED, NO_COLUMNS, now);
    case _ =>
  }

  lemma QueueWeight(row: Option<DownloadJob>, seen: Seen)
    requires Requeued(seen.row) && !seen.queued
    ensures JobWeight(row, Some(seen.(queued := true))) + 14 == JobWeight(row, Some(seen))
  {
  }

  lemma WriteWeight(row: DownloadJob, seen: Seen, now: Time)
    requires row.retryCount == seen.row.retryCount && (Requeued(seen.row) ==> seen.queued)
    ensures JobWeight(Some(WriteBack(row, seen.row, now)), None) + 1 <= JobWeight(Some(row), Some(seen))
  {
  }

  lemma SweepWeight(s: State, step: Step, job: JobId)
    requires Consistent(s) && Enabled(s, step) && Subject(s, step) == Some(job)
    requires step.SweepBegin? || step.SweepQueue? || step.SweepWrite?
    ensures Weight(Apply(s, step))(job) + Paid(step) <= Weight(s)(job)
  {
    hide Left, Taken, Bag, NewMsg, Consistent, JobWeight, Requeued, WriteBack;
    if job in s.round { EntryAgrees(s, job); }
    match step
    case SweepBegin(_) => ReadWeight(s.jobs[job]);
    case SweepQueue(_) => QueueWeight(Get(s.jobs, job), s.round[job]);
    case SweepWrite(_, now) => WriteWeight(s.jobs[job], s.round[job], now);
    case _ =>
  }

  lemma CreateWeight(s: State, step: Step)
    requires Consistent(s) && Enabled(s, step) && step.Create?
    ensures Weight(Apply(s, step))(step.job) <= Weight(s)(step.job) + 48
  {
    hide Left, Taken, Bag, NewMsg, NoColon, RowOk;
    if step.job in s.round { EntryAgrees(s, step.job); }
    hide Consistent;
  }

  lemma TapOrCancelWeight(s: State, step: Step, job: JobId)
    requires Enabled(s, step) && Subject(s, step) == Some(job) && (step.Tap? || step.Cancel?)
    ensures Weight(Apply(s, step))(job) <= Weight(s)(job)
  {
    hide Left, Taken, Bag, NewMsg, NoColon, JobWeight;
    LighterRow(Get(s.jobs, job), Get(Apply(s, step).jobs, job), Get(s.round, job));
  }

  lemma WeightHere(s: State, step: Step, job: JobId)
    requires Consistent(s) && Enabled(s, step) && Subject(s, step) == Some(job)
    ensures Weight(Apply(s, step))(job) + Paid(step) <= Weight(s)(job) + Gain(step)
  {
    if Taken(step).Some? { WorkerWeight(s, step, job); }
    else if step.SweepBegin? || step.SweepQueue? || step.SweepWrite? { SweepWeight(s, step, job); }
    else if step.Create? { CreateWeight(s, step); }
    else { TapOrCancelWeight(s, step, job); }
    hide Apply, Enabled, Consistent, Weight;
  }

  lemma WeightsElsewhere(s: State, step: Step)
    requires Consistent(s) && Enabled(s, step)
    ensures forall job :: Subject(s, step) != Some(job) ==>
              Weight(Apply(s, step))(job) <= Weight(s)(job) + (if step.SweepRollback? && job in s.round then 15 else 0)
  {
    hide Apply, Enabled, Consistent, Weight, Subject;
    forall job | Subject(s, step) != Some(job)
      ensures Weight(Apply(s, step))(job) <= Weight(s)(job) + (if step.SweepRollback? && job in s.round then 15 else 0)
    {
      WeightElsewhere(s, step, job);
    }
  }

  /** The weights of all jobs together. Only the job of the step may gain, and a failed round its rows. */
  lemma JobsMeasure(s: State, step: Step)
    requires Consistent(s) && Enabled(s, step)
    ensures Sum(Apply(s, step).issued.Keys, Weight(Apply(s, step))) + Paid(step)
            <= Sum(s.issued.Keys, Weight(s)) + Gain(step) + (if step.SweepRollback? then Times(15, |s.round|) else 0)
  {
    hide Apply, Enabled, Consistent, Weight, Subject, Paid, Gain;
    Issued(s, step);
    WeightsElsewhere(s, step);
    var keys, subject := Apply(s, step).issued.Keys, Subject(s, step);
    if subject.Some? && subject.value in keys {
      WeightHere(s, step, subject.value);
      ChangeOne(keys, Weight(Apply(s, step)), Weight(s), subject.value);
    } else {
      AtMost(keys, Weight(Apply(s, step)), Weight(s), if step.SweepRollback? then s.round.Keys else {}, 15);
    }
  }

  /** Only creation issues a job, which had no weight before; a paying step is about a job that was issued. */
  lemma Issued(s: State, step: Step)
    requires Consistent(s) && Enabled(s, step)
    ensures Sum(Apply(s, step).issued.Keys, Weight(s)) == Sum(s.issued.Keys, Weight(s))
    ensures Subject(s, step).Some? && Subject(s, step).value !in Apply(s, step).issued ==> Paid(step) == 0
    ensures step.SweepRollback? ==> Subject(s, step) == None
    ensures Subject(s, step) == None ==> Paid(step) == 0
  {
    hide Left, Bag, NewMsg, IsCacheHit, IsCacheMiss, CacheText, JobsAfter;
    if step.Create? {
      var keys := Apply(s, step).issued.Keys;
      TakeOut(keys, Weight(s), step.job);
      assert keys - {step.job} == s.issued.Keys;
    }
    if step.SweepBegin? { assert Subject(s, step).value in s.jobs; }
    if step.SweepQueue? || step.SweepWrite? { EntryAgrees(s, step.job); }
  }

  // ------------------------------------------------------------------ the measure

  lemma RankDrops(s: State, step: Step)
    requires Enabled(s, step)
    ensures IsPipelineStep(step) ==> RankOf(Left(s, step)) + Gain(step) < RankOf(Taken(step)) + Paid(step)
    ensures !IsPipelineStep(step) ==> RankOf(Left(s, step)) + Gain(step) <= RankOf(Taken(step)) + Paid(step) + Input(step)
  {
    hide Decide, IsCacheHit, IsCacheMiss;
  }

  /** What a user can add: 62 for a new job, 14 for a tap. */
  function Input(step: Step): nat {
    if step.Create? then 62 else if step.Tap? then 14 else 0
  }

  /** What a step that is no progress can add: a user's input, or 15 for each row of a round that fails. */
  ghost function Budget(s: State, step: Step): nat {
    Input(step) + if step.SweepRollback? then Times(15, |s.round|) else 0
  }

  /** Every step in which the system goes on strictly lowers the measure. */
  lemma PipelineStepDecreases(s: State, step: Step)
    requires Consistent(s) && Enabled(s, step) && IsPipelineStep(step)
    ensures Measure(Apply(s, step)) < Measure(s)
  {
    assert !step.SweepRollback?;
    hide Apply, Enabled, Consistent, Left, Taken, Gain, Paid, RankOf, IsPipelineStep, Sum, Total, Weight;
    TasksMeasure(s, step);
    JobsMeasure(s, step);
    RankDrops(s, step);
  }

  lemma OtherStepBudget(s: State, step: Step)
    requires Consistent(s) && Enabled(s, step) && !IsPipelineStep(step)
    ensures Measure(Apply(s, step)) <= Measure(s) + Budget(s, step)
  {
    hide Apply, Enabled, Consistent, Left, Taken, Gain, Paid, RankOf, IsPipelineStep, Input, Times, Sum, Total, Weight;
    TasksMeasure(s, step);
    JobsMeasure(s, step);
    RankDrops(s, step);
  }

  /** A run of such steps alone is no longer than the measure of the state it starts in. */
  lemma {:induction false} RestReached(r: Run, i: nat)
    requires IsRun(r) && Consistent(r.states[0]) && i < |r.states|
    requires forall k :: 0 <= k < |r.steps| ==> IsPipelineStep(r.steps[k])
    ensures Consistent(r.states[i]) && Measure(r.states[i]) + i <= Measure(r.states[0])
  {
    hide Apply, Enabled, Measure, Consistent;
    if i > 0 {
      RestReached(r, i - 1);
      assert StepTo(r.states[i - 1], r.steps[i - 1], r.states[i]);
      ConsistentKept(r.states[i - 1], r.steps[i - 1]);
      PipelineStepDecreases(r.states[i - 1], r.steps[i - 1]);
    }
  }

  /** The steps among the first n in which the system goes on, and the budget of the others. */
  ghost function OwnSteps(r: Run, n: nat): nat
    requires n <= |r.steps|
  {
    if n == 0 then 0 else OwnSteps(r, n - 1) + (if IsPipelineStep(r.steps[n - 1]) then 1 else 0)
  }

  ghost function Allowance(r: Run, n: nat): nat
    requires n <= |r.steps| && |r.states| == |r.steps| + 1
  {
    if n == 0 then 0 else Allowance(r, n - 1) + Budget(r.states[n - 1], r.steps[n - 1])
  }

  lemma NothingAtFirst(cfg: Config)
    ensures Measure(Init(cfg)) == 0
  {
  }

  /**
   Over a whole behaviour: the workers and the sweep take at most 62 steps per job created, 14 per tap and 15
   per row of a round that failed.
   */
  lemma {:induction false} WorkBoundedByInputs(r: Run, n: nat)
    requires IsBehaviour(r) && n <= |r.steps|
    ensures Measure(r.states[n]) + OwnSteps(r, n) <= Allowance(r, n)
  {
    hide Apply, Enabled, Measure, IsPipelineStep, Budget, Consistent;
    if n == 0 {
      NothingAtFirst(r.states[0].cfg);
    } else {
      var s, step := r.states[n - 1], r.steps[n - 1];
      WorkBoundedByInputs(r, n - 1);
      AlwaysConsistent(r, n - 1);
      assert StepTo(s, step, r.states[n]);
      if IsPipelineStep(step) { PipelineStepDecreases(s, step); } else { OtherStepBudget(s, step); }
    }
  }
}
