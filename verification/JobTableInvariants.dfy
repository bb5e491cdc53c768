/** What every step of the pipeline keeps about the job table and the tasks that refer to it. */
module JobTableInvariants {
  import opened Wrappers
  import opened Text
  import opened JobTable
  import opened Pipeline

  /** The row of a job that was created with the given url. */
  predicate RowOk(row: DownloadJob, url: string) {
    && row.url == url
    && row.formatRequested.Some? && NoColon(row.formatRequested.value)
    && (row.status == RUNNING ==> row.startedAt.Some?)
    && (row.status in {DONE, CANCELLED} ==> row.completedAt.Some?)
    && (row.status == FAILED && row.completedAt.None? ==> row.retryCount > MAX_RECOVERIES)
  }

  ghost predicate TableOk(jobs: Table, issued: map<JobId, string>) {
    forall job :: job in jobs ==> job in issued && RowOk(jobs[job], issued[job])
  }

  /**
   What the round of the sweep remembers of a job: the row as it was, whose retry count nobody else has changed
   since. Only a row to be revived gets a message.
   */
  ghost predicate EntryOk(s: State, job: JobId)
    requires job in s.round
  {
    var seen := s.round[job];
    && job in s.issued && RowOk(seen.row, s.issued[job])
    && (seen.queued ==> Requeued(seen.row))
    && (job in s.jobs ==> s.jobs[job].retryCount == seen.row.retryCount)
  }

  ghost predicate RoundOk(s: State) {
    forall job :: job in s.round ==> EntryOk(s, job)
  }

  predicate MsgConsistent(issued: map<JobId, string>, m: Msg) {
    m.job in issued && m.url == issued[m.job] && NoColon(m.quality)
  }

  /**
   Every row and every task carries the url its job was created with; finished rows are stamped, except
   those the sweep gave up on; the texts hashed for the cache have a colon-free quality.
   */
  ghost predicate Consistent(s: State) {
    && TableOk(s.jobs, s.issued)
    && RoundOk(s)
    && (forall t :: t in s.tasks ==> MsgConsistent(s.issued, t.msg))
  }

  lemma ConsistentKept(s: State, step: Step)
    requires Consistent(s) && Enabled(s, step)
    ensures Consistent(Apply(s, step))
  {
    TasksKept(s, step);
    RowsKept(s, step);
    RoundKept(s, step);
    hide Left, Taken, Bag, JobsAfter, RoundAfter, Enabled, TableOk, RoundOk, MsgConsistent;
  }

  lemma TasksKept(s: State, step: Step)
    requires Consistent(s) && Enabled(s, step)
    ensures forall t :: t in Apply(s, step).tasks ==> MsgConsistent(Apply(s, step).issued, t.msg)
  {
    var s' := Apply(s, step);
    var p := (m: Msg) => MsgConsistent(s'.issued, m);
    assert EveryMsg(s, p) by { hide JobsAfter, Left, Taken, NewMsg; }
    NewMsgConsistent(s, step);
    EveryMsgKept(s, step, p);
    hide Apply, MsgConsistent, Consistent, Enabled;
  }

  lemma NewMsgConsistent(s: State, step: Step)
    requires Consistent(s) && Enabled(s, step)
    ensures NewMsg(s, step).Some? ==> MsgConsistent(Apply(s, step).issued, NewMsg(s, step).value)
  {
    hide JobsAfter, Left, Taken, Bag, IsCacheHit, IsCacheMiss, CacheText;
  }

  lemma UpdateKeepsOk(jobs: Table, issued: map<JobId, string>, job: JobId, status: JobStatus, columns: Columns, now: Time)
    requires TableOk(jobs, issued)
    ensures TableOk(UpdateJobStatus(jobs, job, status, columns, now), issued)
  {
    hide NoColon;
  }

  lemma RowsKeptByWorker(s: State, step: Step)
    requires TableOk(s.jobs, s.issued) && Enabled(s, step) && Taken(step).Some?
    ensures TableOk(JobsAfter(s, step), s.issued)
  {
    var jobs, issued := s.jobs, s.issued;
    hide TableOk, IsCacheHit, IsCacheMiss, CacheText, UpdateJobStatus, LastUpload;
    match step
    case PreflightDeliver(msg, file, now) => UpdateKeepsOk(jobs, issued, msg.job, DONE, NO_COLUMNS.(fileId := Some(Some(file))), now);
    case PreflightFail(msg, now) => UpdateKeepsOk(jobs, issued, msg.job, FAILED, NO_COLUMNS, now);
    case PreflightMark(msg, _, now) =>
      UpdateKeepsOk(jobs, issued, msg.job, RUNNING, NO_COLUMNS.(urlHash := Some(CacheText(msg.url, msg.quality))), now);
    case DownloadStart(msg, now) => UpdateKeepsOk(jobs, issued, msg.job, RUNNING, NO_COLUMNS.(heartbeatAt := Some(now)), now);
    case DownloadRefresh(msg, now) => UpdateKeepsOk(jobs, issued, msg.job, RUNNING, NO_COLUMNS.(heartbeatAt := Some(now)), now);
    case DownloadDone(msg, _, uploads, now) =>
      UpdateKeepsOk(jobs, issued, msg.job, DONE, NO_COLUMNS.(fileId := Some(LastUpload(msg, uploads))), now);
    case DownloadFail(msg, _, now) => UpdateKeepsOk(jobs, issued, msg.job, FAILED, NO_COLUMNS, now);
    case _ =>
  }

  lemma RowsKept(s: State, step: Step)
    requires Consistent(s) && Enabled(s, step)
    ensures TableOk(JobsAfter(s, step), Apply(s, step).issued)
  {
    if Taken(step).Some? {
      RowsKeptByWorker(s, step);
      hide Left, NewMsg, Bag, JobsAfter, TableOk;
    } else {
      hide Left, NewMsg, Bag, NoColon;
    }
  }

  /** Nobody but the sweep writes the retry count of a row. */
  lemma RetryCountNeverDrops(s: State, step: Step, job: JobId)
    requires Consistent(s) && Enabled(s, step) && job in s.jobs && job in Apply(s, step).jobs
    ensures Apply(s, step).jobs[job].retryCount
            == s.jobs[job].retryCount + (if step.SweepWrite? && step.job == job then 1 else 0)
  {
    hide Left, Taken, Bag, NewMsg, IsCacheHit, IsCacheMiss, CacheText, NoColon, RowOk, RoundAfter;
    assert job in s.issued;
    if step.SweepWrite? && step.job == job { assert EntryOk(s, job); }
    hide Consistent, EntryOk;
  }

  lemma RoundKept(s: State, step: Step)
    requires Consistent(s) && Enabled(s, step)
    ensures RoundOk(Apply(s, step))
  {
    forall job | job in Apply(s, step).round ensures EntryOk(Apply(s, step), job) {
      EntryKept(s, step, job);
    }
  }

  lemma EntryKept(s: State, step: Step, job: JobId)
    requires Consistent(s) && Enabled(s, step) && job in Apply(s, step).round
    ensures EntryOk(Apply(s, step), job)
  {
    hide Left, Taken, Bag, NewMsg, JobsAfter, CacheText, NoColon, RowOk, IsCacheHit, IsCacheMiss;
    if step.SweepBegin? {
      EntryRead(s, step, job);
    } else {
      assert EntryOk(s, job);
      if job in s.jobs && job in Apply(s, step).jobs { RetryCountNeverDrops(s, step, job); }
      OnlyCreateAddsRows(s, step);
      hide Consistent;
    }
  }

  lemma EntryRead(s: State, step: Step, job: JobId)
    requires Consistent(s) && Enabled(s, step) && step.SweepBegin? && job in Apply(s, step).round
    ensures EntryOk(Apply(s, step), job)
  {
    hide Left, Taken, Bag, NewMsg, NoColon, RowOk;
    assert job in s.jobs;
  }

  lemma {:induction false} AlwaysConsistent(r: Run, i: nat)
    requires IsBehaviour(r) && i < |r.states|
    ensures Consistent(r.states[i])
  {
    if i > 0 {
      AlwaysConsistent(r, i - 1);
      assert StepTo(r.states[i - 1], r.steps[i - 1], r.states[i]);
      ConsistentKept(r.states[i - 1], r.steps[i - 1]);
    }
  }

  /** Only Create adds a row, and only under an id never used before. */
  lemma OnlyCreateAddsRows(s: State, step: Step)
    requires Enabled(s, step)
    ensures Apply(s, step).jobs.Keys <= s.jobs.Keys + (if step.Create? then {step.job} else {})
    ensures step.Create? ==> step.job !in s.issued
    ensures s.issued.Keys <= Apply(s, step).issued.Keys
  {
  }

  /** No worker, sweep or tap recreates a row that was removed: a job once issued and now gone stays gone. */
  lemma {:induction false} RemovedStaysRemoved(r: Run, i: nat, k: nat, job: JobId)
    requires IsRun(r) && i <= k < |r.states|
    requires job in r.states[i].issued && job !in r.states[i].jobs
    ensures job in r.states[k].issued && job !in r.states[k].jobs
  {
    hide Apply, Enabled;
    if i < k {
      RemovedStaysRemoved(r, i, k - 1, job);
      assert StepTo(r.states[k - 1], r.steps[k - 1], r.states[k]);
      OnlyCreateAddsRows(r.states[k - 1], r.steps[k - 1]);
    }
  }

  /** Clearing removes exactly the rows of the user, and no task. */
  lemma ClearRemovesUser(s: State, user: UserId)
    ensures var s' := Apply(s, Clear(user));
            && (forall job :: job in s'.jobs <==> job in s.jobs && s.jobs[job].userId != user)
            && (forall job :: job in s'.jobs ==> s'.jobs[job] == s.jobs[job])
            && s'.tasks == s.tasks
  {
  }

  // ------------------------------------------------------------------ DONE rows and their file

  ghost predicate DoneHasFile(s: State) {
    forall job :: job in s.jobs && s.jobs[job].status == DONE ==> s.jobs[job].fileId.Some?
  }

  /** The finished download uploaded something, or its row is gone. */
  ghost predicate UploadsSomething(s: State, step: Step) {
    step.DownloadDone? && step.uploads == [] ==> step.msg.job !in s.jobs
  }

  lemma DoneHasFileStep(s: State, step: Step)
    requires Enabled(s, step) && DoneHasFile(s)
    ensures DoneHasFile(Apply(s, step)) <==> UploadsSomething(s, step)
  {
    hide Left, NewMsg, Bag;
    var s' := Apply(s, step);
    if UploadsSomething(s, step) {
      forall job | job in s'.jobs && s'.jobs[job].status == DONE ensures s'.jobs[job].fileId.Some? {
        assert job in s.jobs || step.Create?;
      }
    } else {
      assert s'.jobs[step.msg.job].status == DONE;
    }
  }

  /**
   Every DONE row holds a file id, in every state, exactly when no download of an existing job finishes
   with an empty upload list.
   */
  lemma DoneHasFileExactly(r: Run)
    requires IsBehaviour(r)
    ensures (forall i :: 0 <= i < |r.states| ==> DoneHasFile(r.states[i]))
       <==> (forall i :: 0 <= i < |r.steps| ==> UploadsSomething(r.states[i], r.steps[i]))
  {
    if forall i :: 0 <= i < |r.states| ==> DoneHasFile(r.states[i]) {
      forall i | 0 <= i < |r.steps| ensures UploadsSomething(r.states[i], r.steps[i]) {
        assert StepTo(r.states[i], r.steps[i], r.states[i + 1]);
        DoneHasFileStep(r.states[i], r.steps[i]);
      }
    }
    if forall i :: 0 <= i < |r.steps| ==> UploadsSomething(r.states[i], r.steps[i]) {
      forall i | 0 <= i < |r.states| ensures DoneHasFile(r.states[i]) {
        DoneHasFileUpTo(r, i);
      }
    }
  }

  lemma {:induction false} DoneHasFileUpTo(r: Run, i: nat)
    requires IsBehaviour(r) && i < |r.states|
    requires forall k :: 0 <= k < |r.steps| ==> UploadsSomething(r.states[k], r.steps[k])
    ensures DoneHasFile(r.states[i])
  {
    hide Apply, Enabled, UploadsSomething;
    if i > 0 {
      DoneHasFileUpTo(r, i - 1);
      assert StepTo(r.states[i - 1], r.steps[i - 1], r.states[i]);
      DoneHasFileStep(r.states[i - 1], r.steps[i - 1]);
    }
  }

  // ------------------------------------------------------------------ FAILED rows and their completion time

  ghost predicate FailedStamped(s: State) {
    forall job :: job in s.jobs && s.jobs[job].status == FAILED ==> s.jobs[job].completedAt.Some?
  }

  /** The sweep gives up on a row that was never completed. */
  predicate GivesUpUnstamped(s: State, step: Step) {
    step.SweepWrite? && step.job in s.round && !Requeued(s.round[step.job].row)
    && step.job in s.jobs && s.jobs[step.job].completedAt.None?
  }

  lemma FailedStampedStep(s: State, step: Step)
    requires Enabled(s, step) && FailedStamped(s)
    ensures FailedStamped(Apply(s, step)) <==> !GivesUpUnstamped(s, step)
  {
    hide Left, Taken, Bag, NewMsg, RoundAfter, CacheText, IsCacheHit, IsCacheMiss;
    var s' := Apply(s, step);
    if GivesUpUnstamped(s, step) {
      assert s'.jobs[step.job].status == FAILED && s'.jobs[step.job].completedAt.None?;
    } else {
      forall job | job in s'.jobs && s'.jobs[job].status == FAILED ensures s'.jobs[job].completedAt.Some? {
        assert job in s.jobs || step.Create?;
      }
    }
  }

  /** Every FAILED row is stamped, in every state, exactly when the sweep never gives up on a row never completed. */
  lemma FailedStampedExactly(r: Run)
    requires IsBehaviour(r)
    ensures (forall i :: 0 <= i < |r.states| ==> FailedStamped(r.states[i]))
       <==> (forall i :: 0 <= i < |r.steps| ==> !GivesUpUnstamped(r.states[i], r.steps[i]))
  {
    hide Apply, Enabled, GivesUpUnstamped, FailedStamped;
    if forall i :: 0 <= i < |r.states| ==> FailedStamped(r.states[i]) {
      forall i | 0 <= i < |r.steps| ensures !GivesUpUnstamped(r.states[i], r.steps[i]) {
        assert StepTo(r.states[i], r.steps[i], r.states[i + 1]);
        FailedStampedStep(r.states[i], r.steps[i]);
      }
    }
    if forall i :: 0 <= i < |r.steps| ==> !GivesUpUnstamped(r.states[i], r.steps[i]) {
      forall i | 0 <= i < |r.states| ensures FailedStamped(r.states[i]) {
        FailedStampedUpTo(r, i);
      }
    }
  }

  lemma {:induction false} FailedStampedUpTo(r: Run, i: nat)
    requires IsBehaviour(r) && i < |r.states|
    requires forall k :: 0 <= k < |r.steps| ==> !GivesUpUnstamped(r.states[k], r.steps[k])
    ensures FailedStamped(r.states[i])
  {
    hide Apply, Enabled, GivesUpUnstamped;
    if i > 0 {
      FailedStampedUpTo(r, i - 1);
      assert StepTo(r.states[i - 1], r.steps[i - 1], r.states[i]);
      FailedStampedStep(r.states[i - 1], r.steps[i - 1]);
    }
  }
}
