/** Every step spelled out: the state it leads to. */
module Steps {
  import opened Wrappers
  import opened Text
  import opened JobTable
  import opened Pipeline

  function Moved(s: State, jobs: Table, msg: Msg, from: Stage, to: Option<Stage>): State {
    s.(jobs := jobs,
       tasks := s.tasks - multiset{Task(msg, from)} + Bag(if to.Some? then Some(Task(msg, to.value)) else None))
  }

  lemma CreateStep(s: State, job: JobId, user: UserId, url: string, quality: string, now: Time)
    requires job !in s.issued && NoColon(quality)
    ensures StepTo(s, Create(job, user, url, quality, now),
                   s.(jobs := s.jobs[job := NewJob(user, url, quality, now)], issued := s.issued[job := url],
                      tasks := s.tasks + multiset{Task(Msg(job, url, quality), Posting)}))
  {
    assert s.tasks - Bag(None) == s.tasks;
    hide NoColon, NewJob;
  }

  lemma TapStep(s: State, job: JobId, quality: string)
    requires job in s.jobs && NoColon(quality)
    ensures StepTo(s, Tap(job, quality),
                   s.(jobs := s.jobs[job := s.jobs[job].(formatRequested := Some(quality))],
                      tasks := s.tasks + multiset{Task(Msg(job, s.jobs[job].url, quality), Posting)}))
  {
    assert s.tasks - Bag(None) == s.tasks;
    hide NoColon;
  }

  lemma PostStep(s: State, msg: Msg, sent: bool)
    requires Task(msg, Posting) in s.tasks
    ensures StepTo(s, if sent then Enqueue(msg) else Dies(Task(msg, Posting)),
                   Moved(s, s.jobs, msg, Posting, if sent then Some(Queued) else None))
  {
  }

  lemma CancelStep(s: State, job: JobId, now: Time)
    ensures StepTo(s, Step.Cancel(job, now), s.(jobs := CancelJob(s.jobs, job, now)))
  {
  }

  lemma ClearStep(s: State, user: UserId)
    ensures StepTo(s, Clear(user), s.(jobs := ClearUserHistory(s.jobs, user)))
  {
  }

  lemma MissStep(s: State, msg: Msg)
    requires Task(msg, Queued) in s.tasks && IsCacheMiss(s.jobs, CacheText(msg.url, msg.quality))
    ensures StepTo(s, PreflightMiss(msg), Moved(s, s.jobs, msg, Queued, Some(Fetching)))
  {
  }

  lemma HitStep(s: State, msg: Msg, cached: JobId)
    requires Task(msg, Queued) in s.tasks && IsCacheHit(s.jobs, CacheText(msg.url, msg.quality), cached)
    ensures s.jobs[cached].fileId.Some?
    ensures StepTo(s, PreflightHit(msg, cached), Moved(s, s.jobs, msg, Queued, Some(Delivering(s.jobs[cached].fileId.value))))
  {
  }

  lemma DeliverStep(s: State, msg: Msg, file: File, now: Time)
    requires Task(msg, Delivering(file)) in s.tasks
    ensures var jobs := UpdateJobStatus(s.jobs, msg.job, DONE, NO_COLUMNS.(fileId := Some(Some(file))), now);
            StepTo(s, PreflightDeliver(msg, file, now), Moved(s, jobs, msg, Delivering(file), None))
  {
  }

  lemma FailPreflightStep(s: State, msg: Msg, now: Time)
    requires Task(msg, Fetching) in s.tasks
    ensures var jobs := UpdateJobStatus(s.jobs, msg.job, FAILED, NO_COLUMNS, now);
            StepTo(s, PreflightFail(msg, now), Moved(s, jobs, msg, Fetching, None))
  {
  }

  lemma MarkStep(s: State, msg: Msg, meta: Metadata, now: Time)
    requires Task(msg, Fetching) in s.tasks
    ensures var hash := CacheText(msg.url, msg.quality);
            var jobs := UpdateJobStatus(s.jobs, msg.job, RUNNING, NO_COLUMNS.(urlHash := Some(hash)), now);
            StepTo(s, PreflightMark(msg, meta, now), Moved(s, jobs, msg, Fetching, Some(Chaining(meta))))
  {
  }

  lemma EndStep(s: State, msg: Msg, meta: Metadata)
    requires Task(msg, Chaining(meta)) in s.tasks
    ensures var to := if Decide(s.cfg, msg.quality, meta) == Chain then Some(DownloadQueued) else None;
            StepTo(s, PreflightEnd(msg, meta), Moved(s, s.jobs, msg, Chaining(meta), to))
  {
    hide Decide;
  }

  lemma StartStep(s: State, msg: Msg, now: Time)
    requires Task(msg, DownloadQueued) in s.tasks
    ensures var jobs := UpdateJobStatus(s.jobs, msg.job, RUNNING, NO_COLUMNS.(heartbeatAt := Some(now)), now);
            StepTo(s, DownloadStart(msg, now), Moved(s, jobs, msg, DownloadQueued, Some(Downloading)))
  {
  }

  lemma RefreshStep(s: State, msg: Msg, now: Time)
    requires Task(msg, Downloading) in s.tasks
    ensures var jobs := UpdateJobStatus(s.jobs, msg.job, RUNNING, NO_COLUMNS.(heartbeatAt := Some(now)), now);
            StepTo(s, DownloadRefresh(msg, now), Moved(s, jobs, msg, Downloading, Some(Compressing)))
  {
  }

  lemma DoneStep(s: State, msg: Msg, stage: Stage, uploads: seq<string>, now: Time)
    requires Task(msg, stage) in s.tasks && (stage == Downloading || stage == Compressing)
    ensures var jobs := UpdateJobStatus(s.jobs, msg.job, DONE, NO_COLUMNS.(fileId := Some(LastUpload(msg, uploads))), now);
            StepTo(s, DownloadDone(msg, stage, uploads, now), Moved(s, jobs, msg, stage, Some(Notifying)))
  {
  }

  lemma FailStep(s: State, msg: Msg, stage: Stage, now: Time)
    requires Task(msg, stage) in s.tasks && InTry(stage)
    ensures var jobs := UpdateJobStatus(s.jobs, msg.job, FAILED, NO_COLUMNS, now);
            StepTo(s, DownloadFail(msg, stage, now), Moved(s, jobs, msg, stage, None))
  {
  }

  lemma EndDownloadStep(s: State, msg: Msg)
    requires Task(msg, Notifying) in s.tasks
    ensures StepTo(s, DownloadEnd(msg), Moved(s, s.jobs, msg, Notifying, None))
  {
  }

  lemma DiesStep(s: State, task: Task)
    requires task in s.tasks
    ensures StepTo(s, Dies(task), s.(tasks := s.tasks - multiset{task}))
  {
    assert s.tasks - multiset{task} + Bag(None) == s.tasks - multiset{task};
  }

  // ------------------------------------------------------------------ a round of the sweep

  lemma NothingMoves(s: State)
    ensures s.tasks - Bag(None) + Bag(None) == s.tasks
  {
  }

  lemma BeginStep(s: State, now: Time)
    requires s.round == map[] && StaleRows(s.jobs, now - STALE_AFTER) != map[]
    ensures StepTo(s, SweepBegin(now), s.(round := Read(s.jobs, now - STALE_AFTER)))
  {
    NothingMoves(s);
    hide Bag, Read, StaleRows;
  }

  lemma QueueStep(s: State, job: JobId)
    requires job in s.round && Requeued(s.round[job].row) && !s.round[job].queued
    ensures StepTo(s, SweepQueue(job),
                   s.(round := s.round[job := s.round[job].(queued := true)],
                      tasks := s.tasks + multiset{Task(SweepMsg(job, s.round[job].row), Queued)}))
  {
    assert s.tasks - Bag(None) == s.tasks;
    hide Requeued, SweepMsg;
  }

  lemma WriteStep(s: State, job: JobId, now: Time)
    requires job in s.round && job in s.jobs && (Requeued(s.round[job].row) ==> s.round[job].queued)
    ensures StepTo(s, SweepWrite(job, now),
                   s.(jobs := s.jobs[job := WriteBack(s.jobs[job], s.round[job].row, now)], round := s.round - {job}))
  {
    NothingMoves(s);
    hide Bag, WriteBack, Requeued;
  }

  lemma RollbackStep(s: State)
    requires s.round != map[]
    ensures StepTo(s, SweepRollback, s.(round := map[]))
  {
    NothingMoves(s);
    hide Bag;
  }
}
