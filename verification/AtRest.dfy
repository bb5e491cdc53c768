/** States in which the system has nothing left to do, and which jobs can be unfinished there. */
module AtRest {
  import opened Wrappers
  import opened Text
  import opened JobTable
  import opened Pipeline
  import opened Steps

  /** No step of the system is possible, now or at any later clock reading; dying is not progress. */
  ghost predicate Rest(s: State) {
    forall step :: !IsInput(step) && !step.Dies? ==> !Enabled(s, step)
  }

  /** A matching row than which no other match completed later can be found whenever there is a match. */
  lemma {:induction false} LatestMatch(jobs: Table, hash: string, keys: set<JobId>) returns (best: JobId)
    requires keys <= jobs.Keys
    requires exists k :: k in keys && CacheMatch(jobs[k], hash)
    ensures best in keys && CacheMatch(jobs[best], hash)
    ensures forall k :: k in keys && CacheMatch(jobs[k], hash) ==> NotLater(jobs[k].completedAt, jobs[best].completedAt)
  {
    var k :| k in keys && CacheMatch(jobs[k], hash);
    if exists x :: x in keys - {k} && CacheMatch(jobs[x], hash) {
      best := LatestMatch(jobs, hash, keys - {k});
      if NotLater(jobs[best].completedAt, jobs[k].completedAt) { best := k; }
    } else {
      best := k;
      assert keys == (keys - {k}) + {k};
    }
  }

  /** The cache query always has an answer: a miss, or some latest match. */
  lemma LookupAnswers(s: State, msg: Msg) returns (step: Step)
    requires Task(msg, Queued) in s.tasks
    ensures Enabled(s, step) && IsPipelineStep(step) && (step == PreflightMiss(msg) || (step.PreflightHit? && step.msg == msg))
  {
    var hash := CacheText(msg.url, msg.quality);
    if IsCacheMiss(s.jobs, hash) {
      step := PreflightMiss(msg);
    } else {
      var cached := LatestMatch(s.jobs, hash, s.jobs.Keys);
      step := PreflightHit(msg, cached);
      assert IsCacheHit(s.jobs, hash, cached);
    }
  }

  /** Every task can always go on. */
  lemma TaskGoesOn(s: State, t: Task) returns (step: Step)
    requires t in s.tasks
    ensures Enabled(s, step) && IsPipelineStep(step) && !step.Dies? && Taken(step) == Some(t)
  {
    match t.stage
    case Posting => step := Enqueue(t.msg);
    case Queued => step := LookupAnswers(s, t.msg);
    case Fetching => step := PreflightFail(t.msg, 0);
    case Delivering(file) => step := PreflightDeliver(t.msg, file, 0);
    case Chaining(meta) => step := PreflightEnd(t.msg, meta);
    case DownloadQueued => step := DownloadStart(t.msg, 0);
    case Downloading => step := DownloadFail(t.msg, Downloading, 0);
    case Compressing => step := DownloadFail(t.msg, Compressing, 0);
    case Notifying => step := DownloadEnd(t.msg);
  }

  /** A round of the sweep can always go on with a row that is still there. */
  lemma RoundGoesOn(s: State, job: JobId) returns (step: Step)
    requires job in s.round && job in s.jobs
    ensures Enabled(s, step) && IsPipelineStep(step) && !step.Dies? && (step.SweepQueue? || step.SweepWrite?)
  {
    step := if Requeued(s.round[job].row) && !s.round[job].queued then SweepQueue(job) else SweepWrite(job, 0);
  }

  lemma RoundCanFail(s: State) returns (step: Step)
    requires s.round != map[]
    ensures Enabled(s, step) && !IsInput(step) && !step.Dies?
  {
    step := SweepRollback;
  }

  /** A RUNNING row with a heartbeat becomes stale in time. */
  lemma RoundCanStart(s: State, job: JobId) returns (step: Step)
    requires s.round == map[] && job in s.jobs && s.jobs[job].status == RUNNING && s.jobs[job].heartbeatAt.Some?
    ensures Enabled(s, step) && !IsInput(step) && !step.Dies?
  {
    var now := s.jobs[job].heartbeatAt.value + STALE_AFTER + 1;
    assert job in StaleRows(s.jobs, now - STALE_AFTER);
    step := SweepBegin(now);
  }

  ghost predicate NoHeartbeats(s: State) {
    forall job :: job in s.jobs && s.jobs[job].status == RUNNING ==> s.jobs[job].heartbeatAt.None?
  }

  /**
   The system is at rest exactly when no task is queued or running, no round of the sweep is under way, and no
   RUNNING row has a heartbeat. A row without a heartbeat is out of the reach of the sweep.
   */
  lemma RestExactly(s: State)
    ensures Rest(s) <==> (s.tasks == multiset{} && s.round == map[] && NoHeartbeats(s))
  {
    if Rest(s) {
      if s.tasks != multiset{} {
        var t :| t in s.tasks;
        var step := TaskGoesOn(s, t);
      }
      if s.round != map[] { var step := RoundCanFail(s); }
      forall job | job in s.jobs && s.jobs[job].status == RUNNING ensures s.jobs[job].heartbeatAt.None? {
        if s.jobs[job].heartbeatAt.Some? { var step := RoundCanStart(s, job); }
      }
    } else {
      hide IsCacheHit, IsCacheMiss;
    }
  }

  // ------------------------------------------------------------------ jobs that do not finish

  /** A row no download has started for, and that is not finished. */
  predicate Waiting(row: DownloadJob) {
    row.status == PENDING || (row.status == RUNNING && row.heartbeatAt.None?)
  }

  predicate BeforeDownload(stage: Stage) {
    stage.Posting? || stage.Queued? || stage.Fetching? || stage.Delivering? || stage.Chaining? || stage.DownloadQueued?
  }

  /**
   The step lets go of a task that was on its way to the download: the task dies, in a handler or a worker, or
   preflight stops at the quality menu, at the large-file question, or on an empty format list.
   */
  predicate LetsGo(s: State, step: Step, job: JobId) {
    || (step.Dies? && step.task.msg.job == job && BeforeDownload(step.task.stage))
    || (step.PreflightEnd? && step.msg.job == job && Decide(s.cfg, step.msg.quality, step.meta) != Chain)
  }

  /** It was the last such task of a job whose row is still waiting. */
  ghost predicate Strands(s: State, step: Step, job: JobId) {
    && LetsGo(s, step, job) && job in s.jobs && Waiting(s.jobs[job])
    && forall t :: t in s.tasks - Bag(Taken(step)) && t.msg.job == job ==> !BeforeDownload(t.stage)
  }

  ghost predicate Covered(s: State, job: JobId) {
    job in s.jobs && Waiting(s.jobs[job]) ==> exists t :: t in s.tasks && t.msg.job == job && BeforeDownload(t.stage)
  }

  /** Unless a step lets go of it, a waiting job keeps a task that is on its way to the download. */
  lemma CoveredKept(s: State, step: Step, job: JobId)
    requires Enabled(s, step) && Covered(s, job) && !LetsGo(s, step, job)
    ensures Covered(Apply(s, step), job)
  {
    var s' := Apply(s, step);
    if job in s'.jobs && Waiting(s'.jobs[job]) {
      if job in s.jobs && Waiting(s.jobs[job]) {
        var t :| t in s.tasks && t.msg.job == job && BeforeDownload(t.stage);
        StillCovered(s, step, job, t);
      } else {
        NewlyCovered(s, step, job);
      }
    }
  }

  lemma StillCovered(s: State, step: Step, job: JobId, t: Task)
    requires Enabled(s, step) && !LetsGo(s, step, job)
    requires t in s.tasks && t.msg.job == job && BeforeDownload(t.stage)
    requires job in s.jobs && job in Apply(s, step).jobs && Waiting(Apply(s, step).jobs[job])
    ensures Covered(Apply(s, step), job)
  {
    var s' := Apply(s, step);
    if Taken(step) == Some(t) {
      assert Left(s, step).Some? && Left(s, step).value.msg.job == job && BeforeDownload(Left(s, step).value.stage);
      assert Left(s, step).value in s'.tasks;
    } else {
      assert t in s'.tasks;
    }
  }

  /** Only creation and the RUNNING mark of preflight make a job wait, and both come with its task. */
  lemma NewlyCovered(s: State, step: Step, job: JobId)
    requires Enabled(s, step) && !LetsGo(s, step, job)
    requires job in s.jobs ==> !Waiting(s.jobs[job])
    requires job in Apply(s, step).jobs && Waiting(Apply(s, step).jobs[job])
    ensures Covered(Apply(s, step), job)
  {
    MakesWait(s, step, job);
    assert Left(s, step).Some? && Left(s, step).value.msg.job == job && BeforeDownload(Left(s, step).value.stage);
    assert Left(s, step).value in Apply(s, step).tasks;
  }

  lemma MakesWait(s: State, step: Step, job: JobId)
    requires Enabled(s, step)
    requires job in s.jobs ==> !Waiting(s.jobs[job])
    requires job in Apply(s, step).jobs && Waiting(Apply(s, step).jobs[job])
    ensures (step.Create? && step.job == job) || (step.PreflightMark? && step.msg.job == job)
  {
    hide Left, Bag, Taken, IsCacheHit, IsCacheMiss, CacheText;
  }

  /** A covered job stays covered exactly until a step strands it. */
  lemma CoveredExactly(s: State, step: Step, job: JobId)
    requires Enabled(s, step) && Covered(s, job)
    ensures Covered(Apply(s, step), job) <==> !Strands(s, step, job)
  {
    if !LetsGo(s, step, job) {
      CoveredKept(s, step, job);
    } else {
      NothingElse(s, step, job);
      var s' := Apply(s, step);
      hide Apply, Enabled, Decide, Waiting, BeforeDownload;
      if job in s.jobs && Waiting(s.jobs[job]) && !Strands(s, step, job) {
        var t :| t in s.tasks - Bag(Taken(step)) && t.msg.job == job && BeforeDownload(t.stage);
        assert t in s'.tasks;
      }
    }
  }

  /** A step that lets go of a task does nothing else. */
  lemma NothingElse(s: State, step: Step, job: JobId)
    requires Enabled(s, step) && LetsGo(s, step, job)
    ensures Apply(s, step).jobs == s.jobs && Apply(s, step).tasks == s.tasks - Bag(Taken(step))
  {
    hide Decide, BeforeDownload, CacheText, IsCacheHit, IsCacheMiss, StaleRows, Requeued, RoundAfter, UpdateJobStatus;
    match step
    case Dies(_) => NothingLeft(s, step);
    case PreflightEnd(_, _) => NothingLeft(s, step);
  }

  lemma NothingLeft(s: State, step: Step)
    requires Enabled(s, step) && Left(s, step) == None
    ensures Apply(s, step).tasks == s.tasks - Bag(Taken(step))
  {
    hide Enabled, Left, Taken, JobsAfter, RoundAfter;
    assert s.tasks - Bag(Taken(step)) + Bag(None) == s.tasks - Bag(Taken(step));
  }

  lemma InitCovered(cfg: Config, job: JobId)
    ensures Covered(Init(cfg), job)
  {
  }

  lemma {:induction false} CoveredUpTo(r: Run, n: nat, job: JobId)
    requires IsBehaviour(r) && n < |r.states|
    requires forall i :: 0 <= i < n ==> !Strands(r.states[i], r.steps[i], job)
    ensures Covered(r.states[n], job)
  {
    hide Apply, Enabled, Strands, Covered;
    if n == 0 {
      InitCovered(r.states[0].cfg, job);
    } else {
      CoveredUpTo(r, n - 1, job);
      assert StepTo(r.states[n - 1], r.steps[n - 1], r.states[n]);
      CoveredExactly(r.states[n - 1], r.steps[n - 1], job);
    }
  }

  /** A job is covered in every state of a behaviour exactly when no step of it strands the job. */
  lemma AlwaysCoveredExactly(r: Run, job: JobId)
    requires IsBehaviour(r)
    ensures (forall i :: 0 <= i < |r.states| ==> Covered(r.states[i], job))
       <==> (forall i :: 0 <= i < |r.steps| ==> !Strands(r.states[i], r.steps[i], job))
  {
    hide Apply, Enabled, Strands, Covered;
    if forall i :: 0 <= i < |r.steps| ==> !Strands(r.states[i], r.steps[i], job) {
      forall i | 0 <= i < |r.states| ensures Covered(r.states[i], job) { CoveredUpTo(r, i, job); }
    }
    if forall i :: 0 <= i < |r.states| ==> Covered(r.states[i], job) {
      forall i | 0 <= i < |r.steps| ensures !Strands(r.states[i], r.steps[i], job) {
        assert StepTo(r.states[i], r.steps[i], r.states[i + 1]);
        CoveredExactly(r.states[i], r.steps[i], job);
      }
    }
  }

  /** At rest, exactly the covered jobs are finished. */
  lemma FinishedExactly(s: State, job: JobId)
    requires Rest(s) && job in s.jobs
    ensures s.jobs[job].status in {DONE, FAILED, CANCELLED} <==> Covered(s, job)
  {
    hide Rest;
    RestExactly(s);
  }

  /** A job that is not covered was stranded, and has not been covered since. */
  lemma {:induction false} StrandedBefore(r: Run, n: nat, job: JobId) returns (i: nat)
    requires IsBehaviour(r) && n <= |r.steps| && !Covered(r.states[n], job)
    ensures i < n && Strands(r.states[i], r.steps[i], job)
    ensures forall k :: i < k <= n ==> !Covered(r.states[k], job)
  {
    hide Apply, Enabled, Strands, Covered;
    if n == 0 {
      i := 0;
      InitCovered(r.states[0].cfg, job);
    } else if Covered(r.states[n - 1], job) {
      i := n - 1;
      assert StepTo(r.states[i], r.steps[i], r.states[n]);
      CoveredExactly(r.states[i], r.steps[i], job);
    } else {
      i := StrandedBefore(r, n - 1, job);
    }
  }

  /** The job is covered again after the first n steps. */
  ghost predicate CoveredAfter(r: Run, n: nat, job: JobId) {
    exists k :: n < k < |r.states| && Covered(r.states[k], job)
  }

  /**
   Which jobs finish, whatever else dies: once a behaviour is at rest, a row is DONE, FAILED or CANCELLED
   exactly when the job was covered again after every step that stranded it. No death of a download strands a
   job, nor that of a message while another is on its way.
   */
  lemma EveryJobFinishes(r: Run, job: JobId)
    requires IsBehaviour(r) && Rest(Last(r)) && job in Last(r).jobs
    ensures Last(r).jobs[job].status in {DONE, FAILED, CANCELLED}
       <==> forall i :: 0 <= i < |r.steps| && Strands(r.states[i], r.steps[i], job) ==> CoveredAfter(r, i, job)
  {
    hide Apply, Enabled, Strands, Covered, Rest;
    FinishedExactly(Last(r), job);
    if !Covered(Last(r), job) {
      var i := StrandedBefore(r, |r.steps|, job);
      assert !CoveredAfter(r, i, job);
    } else {
      assert forall i :: 0 <= i < |r.steps| ==> CoveredAfter(r, i, job);
    }
  }

  lemma LostSteps(cfg: Config, job: JobId, user: UserId, url: string, quality: string, now: Time)
    returns (created: State, sent: State, last: State)
    requires NoColon(quality)
    ensures var m := Msg(job, url, quality);
            && StepTo(Init(cfg), Create(job, user, url, quality, now), created)
            && StepTo(created, Enqueue(m), sent) && StepTo(sent, Dies(Task(m, Queued)), last)
    ensures last.jobs == map[job := NewJob(user, url, quality, now)] && last.tasks == multiset{} && last.round == map[]
  {
    var m := Msg(job, url, quality);
    CreateStep(Init(cfg), job, user, url, quality, now);
    hide StepTo, NewJob;
    created := State(cfg, map[][job := NewJob(user, url, quality, now)], map[][job := url],
                     multiset{} + multiset{Task(m, Posting)}, map[]);
    PostStep(created, m, true);
    sent := Moved(created, created.jobs, m, Posting, Some(Queued));
    DiesStep(sent, Task(m, Queued));
    last := sent.(tasks := sent.tasks - multiset{Task(m, Queued)});
  }

  /**
   A lost message strands its job: whatever the job, if the worker that got its first message dies, the system
   is at rest with the row PENDING.
   */
  lemma LostMessageStrandsJob(cfg: Config, job: JobId, user: UserId, url: string, quality: string, now: Time)
    returns (r: Run)
    requires NoColon(quality)
    ensures IsBehaviour(r) && Rest(Last(r))
    ensures var m := Msg(job, url, quality);
            r.steps == [Create(job, user, url, quality, now), Enqueue(m), Dies(Task(m, Queued))]
    ensures job in Last(r).jobs && Last(r).jobs[job].status == PENDING
  {
    hide StepTo, Rest;
    var m := Msg(job, url, quality);
    var created, sent, last := LostSteps(cfg, job, user, url, quality, now);
    AtRestWhenEmpty(last);
    var first := Extend(Still(Init(cfg)), Create(job, user, url, quality, now), created);
    r := Extend(Extend(first, Enqueue(m), sent), Dies(Task(m, Queued)), last);
  }

  lemma AtRestWhenEmpty(s: State)
    requires s.tasks == multiset{} && s.round == map[] && forall job :: job in s.jobs ==> s.jobs[job].status != RUNNING
    ensures Rest(s)
  {
    RestExactly(s);
  }
}
