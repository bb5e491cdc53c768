/**
 How long DONE lasts. Workers close a row without looking at it, the last notice of a download can still fail
 it, and a round of the sweep may have read it before it was finished. What keeps a row DONE is that every task
 left of the job only delivers, stops, or is bound to hit the cache on the job's own row.
 */
module Completion {
  import opened Wrappers
  import opened Text
  import opened JobTable
  import opened Pipeline
  import opened Steps
  import opened Journeys
  import opened Cancellation

  function MsgText(m: Msg): string { CacheText(m.url, m.quality) }

  /** The task will not undo the finished row of its job. */
  predicate Harmless(cfg: Config, row: DownloadJob, t: Task) {
    match t.stage
    case Posting => CacheMatch(row, MsgText(t.msg))
    case Queued => CacheMatch(row, MsgText(t.msg))
    case Delivering(_) => true
    case Chaining(meta) => Decide(cfg, t.msg.quality, meta) != Chain
    case _ => false
  }

  /** The round of the sweep will not undo it either: it has only its heartbeat to write, or such a message to queue. */
  predicate SweepHarmless(row: DownloadJob, job: JobId, seen: Seen) {
    Requeued(seen.row) && (seen.queued || CacheMatch(row, MsgText(SweepMsg(job, seen.row))))
  }

  ghost predicate TasksHarmless(s: State, job: JobId)
    requires job in s.jobs
  {
    forall t :: t in s.tasks && t.msg.job == job ==> Harmless(s.cfg, s.jobs[job], t)
  }

  /** The job is DONE and nothing is left that can undo it, or its row is gone. */
  ghost predicate Settled(s: State, job: JobId) {
    job in s.jobs ==>
      && s.jobs[job].status == DONE && TasksHarmless(s, job)
      && (job in s.round ==> SweepHarmless(s.jobs[job], job, s.round[job]))
  }

  ghost predicate DoneOrGone(s: State, job: JobId) {
    job in s.jobs ==> s.jobs[job].status == DONE
  }

  /** However the system runs on from here without a tap on the job, the job stays DONE or its row is cleared. */
  ghost predicate DoneIsFinal(s: State, job: JobId) {
    forall r :: IsRun(r) && r.states[0] == s && TapsOther(r, job) ==> DoneOrGone(r.states[|r.steps|], job)
  }

  // ------------------------------------------------------------------ settled jobs stay settled

  /** The row is at least as good a match as before. */
  predicate StillDone(row: DownloadJob, next: DownloadJob) {
    next.status == DONE && next.urlHash == row.urlHash && (row.fileId.Some? ==> next.fileId.Some?)
  }

  lemma SettledRow(s: State, step: Step, job: JobId)
    requires Enabled(s, step) && !(step.Tap? && step.job == job)
    requires job in s.issued && Settled(s, job) && job in Apply(s, step).jobs
    ensures job in s.jobs && StillDone(s.jobs[job], Apply(s, step).jobs[job])
  {
    hide Left, Bag, NewMsg, RoundAfter, CacheText, IsCacheHit, Decide, MsgText;
    if Taken(step).Some? && Taken(step).value.msg.job == job && job in s.jobs {
      assert Harmless(s.cfg, s.jobs[job], Taken(step).value);
    }
  }

  /** A message bound to hit does not miss. */
  lemma NoMiss(s: State, msg: Msg)
    requires msg.job in s.jobs && CacheMatch(s.jobs[msg.job], MsgText(msg))
    ensures !IsCacheMiss(s.jobs, CacheText(msg.url, msg.quality))
  {
  }

  lemma NewTaskHarmless(s: State, step: Step, job: JobId, t: Task)
    requires Enabled(s, step) && !(step.Tap? && step.job == job)
    requires job in s.issued && Settled(s, job) && job in s.jobs
    requires Left(s, step) == Some(t) && t.msg.job == job
    ensures Harmless(s.cfg, s.jobs[job], t)
  {
    hide JobsAfter, RoundAfter, IsCacheHit, CacheText, Decide, CacheMatch, IsCacheMiss, Requeued, SweepQuality;
    if Taken(step).Some? {
      var taken := Taken(step).value;
      assert taken.msg == t.msg && Harmless(s.cfg, s.jobs[job], taken);
      if step.PreflightMiss? { NoMiss(s, t.msg); }
    }
  }

  lemma HarmlessKept(cfg: Config, row: DownloadJob, next: DownloadJob, t: Task)
    requires Harmless(cfg, row, t) && StillDone(row, next)
    ensures Harmless(cfg, next, t)
  {
  }

  lemma SettledTasks(s: State, step: Step, job: JobId)
    requires Enabled(s, step) && !(step.Tap? && step.job == job)
    requires job in s.issued && Settled(s, job) && job in Apply(s, step).jobs
    ensures TasksHarmless(Apply(s, step), job)
  {
    hide Enabled, Left, Taken, JobsAfter, RoundAfter, Harmless, StillDone;
    SettledRow(s, step, job);
    forall t | t in Apply(s, step).tasks && t.msg.job == job
      ensures Harmless(s.cfg, Apply(s, step).jobs[job], t)
    {
      TaskFrom(s, step, t);
      if t !in s.tasks { NewTaskHarmless(s, step, job, t); }
      HarmlessKept(s.cfg, s.jobs[job], Apply(s, step).jobs[job], t);
    }
  }

  /** The sweep does not read a row that is not RUNNING, and what it has read stays as it was. */
  lemma SettledRound(s: State, step: Step, job: JobId)
    requires Enabled(s, step) && !(step.Tap? && step.job == job)
    requires job in s.issued && Settled(s, job) && job in Apply(s, step).jobs && job in Apply(s, step).round
    ensures SweepHarmless(Apply(s, step).jobs[job], job, Apply(s, step).round[job])
  {
    SettledRow(s, step, job);
    hide Left, Taken, Bag, NewMsg, JobsAfter, IsCacheHit, IsCacheMiss, CacheText, Decide, TasksHarmless, MsgText, SweepMsg;
  }

  lemma SettledStep(s: State, step: Step, job: JobId)
    requires Enabled(s, step) && !(step.Tap? && step.job == job)
    requires job in s.issued && Settled(s, job)
    ensures job in Apply(s, step).issued && Settled(Apply(s, step), job)
  {
    var s' := Apply(s, step);
    assert job in s'.issued by { hide JobsAfter, RoundAfter, Left, Taken; }
    hide Apply, Enabled, TasksHarmless, SweepHarmless;
    if job in s'.jobs {
      SettledRow(s, step, job);
      SettledTasks(s, step, job);
      if job in s'.round { SettledRound(s, step, job); }
    }
  }

  lemma {:induction false} StaysDone(r: Run, i: nat, job: JobId)
    requires IsRun(r) && i < |r.states| && TapsOther(r, job)
    requires job in r.states[0].issued && Settled(r.states[0], job)
    ensures job in r.states[i].issued && Settled(r.states[i], job)
  {
    hide Apply, Enabled, Settled;
    if i > 0 {
      StaysDone(r, i - 1, job);
      assert StepTo(r.states[i - 1], r.steps[i - 1], r.states[i]);
      SettledStep(r.states[i - 1], r.steps[i - 1], job);
    }
  }

  // ------------------------------------------------------------------ what undoes a finished row

  /** The rows that the cache may serve from under the hash. */
  ghost function Matches(jobs: Table, hash: string): set<JobId> { set k | k in jobs && CacheMatch(jobs[k], hash) }

  /** A length that no hash in the table reaches. */
  lemma {:induction false} LongerThanAll(jobs: Table, keys: set<JobId>) returns (n: nat)
    requires keys <= jobs.Keys
    ensures forall k :: k in keys && jobs[k].urlHash.Some? ==> |jobs[k].urlHash.value| < n
  {
    if keys == {} {
      n := 0;
    } else {
      var k :| k in keys;
      n := LongerThanAll(jobs, keys - {k});
      if jobs[k].urlHash.Some? && |jobs[k].urlHash.value| >= n { n := |jobs[k].urlHash.value| + 1; }
    }
  }

  /** For any url there is a quality that the cache does not know. */
  lemma FreshQuality(jobs: Table, url: string) returns (q: string)
    ensures NoColon(q) && forall k :: k in jobs ==> jobs[k].urlHash != Some(CacheText(url, q))
  {
    var n := LongerThanAll(jobs, jobs.Keys);
    q := seq(n, _ => 'x');
    assert |CacheText(url, q)| > n;
  }

  function TappedRow(row: DownloadJob, q: string): DownloadJob { row.(formatRequested := Some(q)) }

  lemma StillMissing(jobs: Table, k: JobId, q: string)
    requires k in jobs && forall i :: i in jobs ==> jobs[i].urlHash != Some(CacheText(jobs[k].url, q))
    ensures IsCacheMiss(jobs[k := TappedRow(jobs[k], q)], CacheText(jobs[k].url, q))
  {
    hide CacheText;
  }

  /** A tap with an unknown quality takes another job's row out of the cache: its second preflight fails. */
  lemma Unmatch(before: Run, k: JobId) returns (r: Run, q: string)
    requires IsRun(before) && k in Last(before).jobs
    ensures IsRun(r)
    ensures var s := Last(before);
            var m := Msg(k, s.jobs[k].url, q);
            && Continues(before, r, [Tap(k, q), Enqueue(m), PreflightMiss(m), PreflightFail(m, 0)])
            && Last(r) == s.(jobs := s.jobs[k := UpdateRow(TappedRow(s.jobs[k], q), FAILED, NO_COLUMNS, 0)])
  {
    var s := Last(before);
    q := FreshQuality(s.jobs, s.jobs[k].url);
    var m := Msg(k, s.jobs[k].url, q);
    StillMissing(s.jobs, k, q);
    hide StepTo, CacheText, IsCacheMiss, UpdateRow, NoColon;
    r := Taps(before, k, q);
    r := Misses(r, m, s.tasks);
    assert UpdateJobStatus(Last(r).jobs, k, FAILED, NO_COLUMNS, 0)
           == s.jobs[k := UpdateRow(TappedRow(s.jobs[k], q), FAILED, NO_COLUMNS, 0)];
    hide UpdateJobStatus;
    r := Fails(r, m, 0, s.tasks);
  }

  lemma TapsOtherMore(before: Run, r: Run, more: seq<Step>, job: JobId)
    requires TapsOther(before, job) && Continues(before, r, more)
    requires forall i :: 0 <= i < |more| ==> !(more[i].Tap? && more[i].job == job)
    ensures TapsOther(r, job) && r.states[0] == before.states[0]
  {
  }

  /** One row fewer matches. */
  lemma MatchesDrop(jobs: Table, k: JobId, q: string, hash: string)
    requires k in Matches(jobs, hash)
    ensures var next := jobs[k := UpdateRow(TappedRow(jobs[k], q), FAILED, NO_COLUMNS, 0)];
            Matches(next, hash) == Matches(jobs, hash) - {k}
  {
  }

  /** Whatever else the cache holds, a run can go on until the query for the hash misses, unless the job's own row matches. */
  lemma {:induction false} ReachMiss(before: Run, job: JobId, hash: string) returns (r: Run)
    requires IsRun(before) && TapsOther(before, job) && job in Last(before).jobs
    requires !CacheMatch(Last(before).jobs[job], hash)
    ensures IsRun(r) && TapsOther(r, job) && r.states[0] == before.states[0]
    ensures Last(r) == Last(before).(jobs := Last(r).jobs)
    ensures job in Last(r).jobs && Last(r).jobs[job] == Last(before).jobs[job] && IsCacheMiss(Last(r).jobs, hash)
    decreases |Matches(Last(before).jobs, hash)|
  {
    var s := Last(before);
    if Matches(s.jobs, hash) == {} {
      r := before;
      NoMatches(s.jobs, hash);
    } else {
      var k :| k in Matches(s.jobs, hash);
      assert k != job;
      var next, q := Unmatch(before, k);
      var m := Msg(k, s.jobs[k].url, q);
      TapsOtherMore(before, next, [Tap(k, q), Enqueue(m), PreflightMiss(m), PreflightFail(m, 0)], job);
      MatchesDrop(s.jobs, k, q, hash);
      hide IsRun, TapsOther, Matches, CacheMatch, IsCacheMiss, UpdateRow;
      r := ReachMiss(next, job, hash);
    }
  }

  lemma NoMatches(jobs: Table, hash: string)
    requires Matches(jobs, hash) == {}
    ensures IsCacheMiss(jobs, hash)
  {
    forall k | k in jobs ensures !CacheMatch(jobs[k], hash) {
      assert k !in Matches(jobs, hash);
    }
  }

  /** How many acts a task is away from its next write of the row, a cache miss counting as two. */
  function ActsBefore(stage: Stage): nat {
    match stage
    case Posting => 3
    case Queued => 2
    case Chaining(_) => 1
    case _ => 0
  }

  lemma OtherTasks(tasks: multiset<Task>, t: Task)
    requires t in tasks
    ensures tasks - multiset{t} + multiset{t} == tasks
  {
  }

  /** A task that is about to write the row undoes it. */
  lemma UndoneNow(before: Run, job: JobId, t: Task) returns (r: Run)
    requires IsRun(before) && TapsOther(before, job) && job in Last(before).jobs
    requires t in Last(before).tasks && t.msg.job == job && ActsBefore(t.stage) == 0 && !t.stage.Delivering?
    ensures IsRun(r) && TapsOther(r, job) && r.states[0] == before.states[0] && !DoneOrGone(Last(r), job)
  {
    hide IsRun, TapsOther;
    var rest := Last(before).tasks - multiset{t};
    OtherTasks(Last(before).tasks, t);
    if t.stage.Fetching? {
      r := Fails(before, t.msg, 0, rest);
      TapsOtherMore(before, r, [PreflightFail(t.msg, 0)], job);
    } else if t.stage.DownloadQueued? {
      r := Starts(before, t.msg, 0, rest);
      TapsOtherMore(before, r, [DownloadStart(t.msg, 0)], job);
    } else {
      r := FailsDownload(before, t.msg, t.stage, 0, rest);
      TapsOtherMore(before, r, [DownloadFail(t.msg, t.stage, 0)], job);
    }
  }

  /** A task that is not harmless can go on until it has undone the row. */
  lemma {:induction false} TaskUndoes(before: Run, job: JobId, t: Task) returns (r: Run)
    requires IsRun(before) && TapsOther(before, job) && job in Last(before).jobs
    requires t in Last(before).tasks && t.msg.job == job && !Harmless(Last(before).cfg, Last(before).jobs[job], t)
    ensures IsRun(r) && TapsOther(r, job) && r.states[0] == before.states[0] && !DoneOrGone(Last(r), job)
    decreases ActsBefore(t.stage)
  {
    hide IsRun, TapsOther, DoneOrGone, CacheMatch, IsCacheMiss, CacheText, Decide;
    if ActsBefore(t.stage) == 0 {
      r := UndoneNow(before, job, t);
    } else if t.stage.Queued? {
      var missing := ReachMiss(before, job, MsgText(t.msg));
      OtherTasks(Last(missing).tasks, t);
      var next := Misses(missing, t.msg, Last(missing).tasks - multiset{t});
      TapsOtherMore(missing, next, [PreflightMiss(t.msg)], job);
      r := TaskUndoes(next, job, Task(t.msg, Fetching));
    } else {
      var rest := Last(before).tasks - multiset{t};
      OtherTasks(Last(before).tasks, t);
      if t.stage.Posting? {
        var next := Posts(before, t.msg, rest);
        TapsOtherMore(before, next, [Enqueue(t.msg)], job);
        r := TaskUndoes(next, job, Task(t.msg, Queued));
      } else {
        var next := Ends(before, t.msg, t.stage.meta, rest);
        TapsOtherMore(before, next, [PreflightEnd(t.msg, t.stage.meta)], job);
        r := TaskUndoes(next, job, Task(t.msg, DownloadQueued));
      }
    }
  }

  /** So can a round of the sweep. */
  lemma SweepUndoes(s: State, job: JobId) returns (r: Run)
    requires job in s.jobs && job in s.round && !SweepHarmless(s.jobs[job], job, s.round[job])
    ensures IsRun(r) && r.states[0] == s && TapsOther(r, job) && !DoneOrGone(Last(r), job)
  {
    var seen := s.round[job];
    hide CacheMatch, CacheText;
    if Requeued(seen.row) {
      var t := Task(SweepMsg(job, seen.row), Queued);
      QueueStep(s, job);
      hide StepTo;
      r := Then(Still(s), SweepQueue(job),
                s.(round := s.round[job := seen.(queued := true)], tasks := s.tasks + multiset{t}));
      r := TaskUndoes(r, job, t);
    } else {
      WriteStep(s, job, 0);
      hide StepTo;
      r := Then(Still(s), SweepWrite(job, 0),
                s.(jobs := s.jobs[job := WriteBack(s.jobs[job], seen.row, 0)], round := s.round - {job}));
    }
  }

  /**
   A finished job stays DONE through every continuation, as long as nobody taps its menu and until its row is
   cleared, exactly when nothing left can undo it: its tasks only deliver, stop, or are bound to hit the cache on
   its own row, and a round that has read it has at most such a message to queue.
   */
  lemma DoneFinalExactly(s: State, job: JobId)
    requires job in s.jobs && job in s.issued && s.jobs[job].status == DONE
    ensures DoneIsFinal(s, job) <==> Settled(s, job)
  {
    hide Apply, Enabled, Harmless, SweepHarmless, DoneOrGone;
    if Settled(s, job) {
      forall r | IsRun(r) && r.states[0] == s && TapsOther(r, job) ensures DoneOrGone(r.states[|r.steps|], job) {
        StaysDone(r, |r.steps|, job);
        SettledIsDone(r.states[|r.steps|], job);
      }
    } else if !TasksHarmless(s, job) {
      var t :| t in s.tasks && t.msg.job == job && !Harmless(s.cfg, s.jobs[job], t);
      var r := TaskUndoes(Still(s), job, t);
    } else {
      var r := SweepUndoes(s, job);
    }
  }

  lemma SettledIsDone(s: State, job: JobId)
    requires Settled(s, job)
    ensures DoneOrGone(s, job)
  {
  }

  // ------------------------------------------------------------------ the last notice

  /**
   A behaviour in which DONE turns into FAILED: for any request and any uploads, the first job ever is downloaded,
   uploaded and closed, and then its last notice raises. The file id stays on the row.
   */
  lemma LastNoticeUndoesDone(cfg: Config, msg: Msg, user: UserId, meta: Metadata, uploads: seq<string>, now: Time)
    returns (r: Run)
    requires NoColon(msg.quality) && Decide(cfg, msg.quality, meta) == Chain
    ensures IsBehaviour(r)
    ensures r.steps == BeginningSteps(msg, user, meta, now)
                       + [DownloadDone(msg, Downloading, uploads, now), DownloadFail(msg, Notifying, now)]
    ensures var n := |r.steps|;
            && msg.job in r.states[n - 1].jobs && r.states[n - 1].jobs[msg.job].status == DONE
            && msg.job in r.states[n].jobs && r.states[n].jobs[msg.job].status == FAILED
            && r.states[n].jobs[msg.job].fileId == LastUpload(msg, uploads)
  {
    hide Decide, DownloadingRow, BeginningSteps, LastUpload;
    var begun := FirstDownload(cfg, msg, user, meta, now);
    var done := Uploads(begun, msg, uploads, now, multiset{});
    r := FailsDownload(done, msg, Notifying, now, multiset{});
    Through(begun, done, [DownloadDone(msg, Downloading, uploads, now)]);
    Through(done, r, [DownloadFail(msg, Notifying, now)]);
  }
}
