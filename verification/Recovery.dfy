/** The stale-job sweep: how often it can revive a job. */
module Recovery {
  import opened Wrappers
  import opened Text
  import opened JobTable
  import opened Pipeline
  import opened Steps
  import opened Journeys
  import opened JobTableInvariants
  import opened Quiescence

  /** The sweep puts the job back on the preflight queue. */
  predicate Revives(step: Step, job: JobId) { step.SweepQueue? && step.job == job }

  /** A round fails after having queued the job, so that its row does not record it. */
  ghost predicate Unrecorded(s: State, step: Step, job: JobId) {
    step.SweepRollback? && job in s.round && s.round[job].queued
  }

  /** How often the sweep revived the job in the first n steps. */
  ghost function Revivals(r: Run, job: JobId, n: nat): nat
    requires n <= |r.steps|
  {
    if n == 0 then 0 else Revivals(r, job, n - 1) + (if Revives(r.steps[n - 1], job) then 1 else 0)
  }

  /** How many of these are not on record. */
  ghost function Failures(r: Run, job: JobId, n: nat): nat
    requires IsRun(r) && n <= |r.steps|
  {
    if n == 0 then 0
    else Failures(r, job, n - 1) + (if Unrecorded(r.states[n - 1], r.steps[n - 1], job) then 1 else 0)
  }

  function Capped(retryCount: nat): nat { if retryCount <= MAX_RECOVERIES then retryCount else MAX_RECOVERIES }

  /** The revivals of a job are on record, on its row or in the round under way, except those of failed rounds. */
  ghost predicate Recorded(s: State, job: JobId, revivals: nat, failures: nat) {
    if job in s.round then
      revivals == Capped(s.round[job].row.retryCount) + failures + (if s.round[job].queued then 1 else 0)
    else if job in s.jobs then revivals == Capped(s.jobs[job].retryCount) + failures
    else if job in s.issued then revivals <= MAX_RECOVERIES + failures
    else revivals == 0 && failures == 0
  }

  lemma RecordedKept(s: State, step: Step, job: JobId, revivals: nat, failures: nat)
    requires Consistent(s) && Enabled(s, step) && Recorded(s, job, revivals, failures)
    ensures Recorded(Apply(s, step), job, revivals + (if Revives(step, job) then 1 else 0),
                     failures + (if Unrecorded(s, step, job) then 1 else 0))
  {
    if step.SweepBegin? || step.SweepQueue? || step.SweepWrite? || step.SweepRollback? {
      RecordedBySweep(s, step, job, revivals, failures);
    } else {
      RecordedByOthers(s, step, job, revivals, failures);
    }
  }

  lemma ReadRecorded(s: State, threshold: Time, job: JobId, revivals: nat, failures: nat)
    requires s.round == map[] && Recorded(s, job, revivals, failures)
    ensures Recorded(s.(round := Read(s.jobs, threshold)), job, revivals, failures)
  {
    hide Stale;
  }

  lemma QueuedRecorded(s: State, k: JobId, t: Task, job: JobId, revivals: nat, failures: nat)
    requires k in s.round && !s.round[k].queued && Recorded(s, job, revivals, failures)
    ensures Recorded(s.(round := s.round[k := s.round[k].(queued := true)], tasks := s.tasks + multiset{t}),
                     job, revivals + (if k == job then 1 else 0), failures)
  {
  }

  lemma WrittenRecorded(s: State, k: JobId, now: Time, job: JobId, revivals: nat, failures: nat)
    requires k in s.round && k in s.jobs && (Requeued(s.round[k].row) <==> s.round[k].queued)
    requires Recorded(s, job, revivals, failures)
    ensures Recorded(s.(jobs := s.jobs[k := WriteBack(s.jobs[k], s.round[k].row, now)], round := s.round - {k}),
                     job, revivals, failures)
  {
  }

  lemma RolledBackRecorded(s: State, job: JobId, revivals: nat, failures: nat)
    requires Consistent(s) && Recorded(s, job, revivals, failures)
    ensures Recorded(s.(round := map[]), job, revivals,
                     failures + (if job in s.round && s.round[job].queued then 1 else 0))
  {
    if job in s.round { assert EntryOk(s, job); }
    hide Consistent, RowOk;
  }

  lemma RecordedBySweep(s: State, step: Step, job: JobId, revivals: nat, failures: nat)
    requires Consistent(s) && Enabled(s, step) && Recorded(s, job, revivals, failures)
    requires step.SweepBegin? || step.SweepQueue? || step.SweepWrite? || step.SweepRollback?
    ensures Recorded(Apply(s, step), job, revivals + (if Revives(step, job) then 1 else 0),
                     failures + (if Unrecorded(s, step, job) then 1 else 0))
  {
    hide Left, Taken, Bag, NewMsg, RowOk, Recorded, JobsAfter, RoundAfter, Apply, StaleRows, Read, WriteBack, SweepMsg,
         IsCacheHit, IsCacheMiss, CacheText;
    match step
    case SweepBegin(now) => BeginStep(s, now); ReadRecorded(s, now - STALE_AFTER, job, revivals, failures);
    case SweepQueue(k) =>
      QueueStep(s, k);
      QueuedRecorded(s, k, Task(SweepMsg(k, s.round[k].row), Queued), job, revivals, failures);
    case SweepWrite(k, now) =>
      assert EntryOk(s, k);
      WriteStep(s, k, now);
      WrittenRecorded(s, k, now, job, revivals, failures);
    case SweepRollback => RollbackStep(s); RolledBackRecorded(s, job, revivals, failures);
    case _ =>
  }

  lemma RecordedByOthers(s: State, step: Step, job: JobId, revivals: nat, failures: nat)
    requires Consistent(s) && Enabled(s, step) && Recorded(s, job, revivals, failures)
    requires !(step.SweepBegin? || step.SweepQueue? || step.SweepWrite? || step.SweepRollback?)
    ensures Recorded(Apply(s, step), job, revivals, failures)
  {
    hide Left, Taken, Bag, NewMsg, RowOk, Requeued, IsCacheHit, IsCacheMiss, CacheText;
    assert job in s.jobs ==> job in s.issued;
    assert job in s.round ==> job in s.issued by { if job in s.round { EntryAgrees(s, job); } }
    if step.Create? && step.job == job {
      hide Consistent;
    } else {
      if job in s.jobs && job in Apply(s, step).jobs { RetryCountNeverDrops(s, step, job); }
      OnlyCreateAddsRows(s, step);
      hide Consistent, JobsAfter;
    }
  }

  /**
   In every behaviour: beyond the revivals of rounds that failed, the sweep puts a job back on the queue at most
   three times. The retry count of a row outside a round says how often.
   */
  lemma {:induction false} AtMostThreeRevivals(r: Run, job: JobId, n: nat)
    requires IsBehaviour(r) && n <= |r.steps|
    ensures Revivals(r, job, n) <= 3 + Failures(r, job, n)
    ensures Recorded(r.states[n], job, Revivals(r, job, n), Failures(r, job, n))
  {
    hide Apply, Enabled, Recorded;
    if n == 0 {
      NothingRecorded(r.states[0].cfg, job);
    } else {
      AtMostThreeRevivals(r, job, n - 1);
      AlwaysConsistent(r, n - 1);
      assert StepTo(r.states[n - 1], r.steps[n - 1], r.states[n]);
      RecordedKept(r.states[n - 1], r.steps[n - 1], job, Revivals(r, job, n - 1), Failures(r, job, n - 1));
    }
    AlwaysConsistent(r, n);
    RecordedBound(r.states[n], job, Revivals(r, job, n), Failures(r, job, n));
  }

  lemma NothingRecorded(cfg: Config, job: JobId)
    ensures Recorded(Init(cfg), job, 0, 0)
  {
  }

  lemma RecordedBound(s: State, job: JobId, revivals: nat, failures: nat)
    requires Consistent(s) && Recorded(s, job, revivals, failures)
    ensures revivals <= MAX_RECOVERIES + failures
  {
    if job in s.round { assert EntryOk(s, job); }
  }

  // ------------------------------------------------------------------ rounds that fail

  /** A round that queues the job and fails. */
  lemma FailingRound(s: State, job: JobId, now: Time) returns (queueing: State, failing: State)
    requires s.round == map[] && job in s.jobs && Stale(s.jobs[job], now - STALE_AFTER) && Requeued(s.jobs[job])
    ensures StepTo(s, SweepBegin(now), queueing) && StepTo(queueing, SweepQueue(job), failing)
    ensures StepTo(failing, SweepRollback, s.(tasks := s.tasks + multiset{Task(SweepMsg(job, s.jobs[job]), Queued)}))
  {
    assert job in StaleRows(s.jobs, now - STALE_AFTER);
    queueing := s.(round := Read(s.jobs, now - STALE_AFTER));
    failing := queueing.(round := queueing.round[job := Seen(s.jobs[job], true)],
                         tasks := s.tasks + multiset{Task(SweepMsg(job, s.jobs[job]), Queued)});
    BeginStep(s, now);
    QueueStep(queueing, job);
    RollbackStep(failing);
    hide StepTo, Stale, Requeued, SweepMsg;
  }

  /** A run goes on with such a round. */
  lemma FailingRoundOn(before: Run, job: JobId, now: Time) returns (r: Run)
    requires IsRun(before) && Last(before).round == map[] && job in Last(before).jobs
    requires Stale(Last(before).jobs[job], now - STALE_AFTER) && Requeued(Last(before).jobs[job])
    ensures IsRun(r) && r.states[0] == before.states[0]
    ensures r.steps == before.steps + [SweepBegin(now), SweepQueue(job), SweepRollback]
    ensures var s := Last(before);
            Last(r) == s.(tasks := s.tasks + multiset{Task(SweepMsg(job, s.jobs[job]), Queued)})
  {
    var s := Last(before);
    var queueing, failing := FailingRound(s, job, now);
    hide StepTo, Stale, Requeued, SweepMsg;
    var next := s.(tasks := s.tasks + multiset{Task(SweepMsg(job, s.jobs[job]), Queued)});
    r := Extend(Extend(Extend(before, SweepBegin(now), queueing), SweepQueue(job), failing), SweepRollback, next);
  }

  /** One round after the other, each with its own reading of the clock. */
  function FailingRounds(job: JobId, times: seq<Time>): seq<Step> {
    if times == [] then []
    else FailingRounds(job, times[..|times| - 1]) + [SweepBegin(times[|times| - 1]), SweepQueue(job), SweepRollback]
  }

  /**
   Without the exception there is no bound: from any state in which the sweep finds a job to revive, and for any
   readings of the clock at which the row is stale, rounds that fail after queueing put the job on the preflight
   queue once each and leave its row as it was.
   */
  lemma {:induction false} FailingRoundsUnbounded(s: State, job: JobId, times: seq<Time>) returns (r: Run)
    requires s.round == map[] && job in s.jobs && Requeued(s.jobs[job])
    requires forall i :: 0 <= i < |times| ==> Stale(s.jobs[job], times[i] - STALE_AFTER)
    ensures IsRun(r) && r.steps == FailingRounds(job, times) && r.states[0] == s
    ensures Last(r) == s.(tasks := Last(r).tasks)
    ensures var t := Task(SweepMsg(job, s.jobs[job]), Queued); Last(r).tasks[t] == s.tasks[t] + |times|
    decreases |times|
  {
    hide StepTo, IsRun, Last, Stale, Requeued, SweepMsg;
    if times == [] {
      r := Still(s);
    } else {
      var most := times[..|times| - 1];
      assert forall i :: 0 <= i < |most| ==> most[i] == times[i];
      var before := FailingRoundsUnbounded(s, job, most);
      r := FailingRoundOn(before, job, times[|times| - 1]);
    }
  }

  // ------------------------------------------------------------------ a job nothing else touches

  /** How often the sweep wrote the row in the first n steps. */
  ghost function SweepsOf(r: Run, job: JobId, n: nat): nat
    requires n <= |r.steps|
  {
    if n == 0 then 0
    else SweepsOf(r, job, n - 1) + (if r.steps[n - 1].SweepWrite? && r.steps[n - 1].job == job then 1 else 0)
  }

  /** Every step either is the sweep writing the row or leaves it as it is. */
  ghost predicate OnlySwept(r: Run, job: JobId)
    requires IsRun(r)
  {
    forall i :: 0 <= i < |r.steps| ==>
      (r.steps[i].SweepWrite? && r.steps[i].job == job)
      || (job in r.states[i].jobs && job in r.states[i + 1].jobs && r.states[i + 1].jobs[job] == r.states[i].jobs[job])
  }

  /**
   In any run in which nothing but the sweep touches a RUNNING job, the sweep writes it at most once more than
   it has recoveries left, so at most four times, and it is FAILED exactly from that last time on.
   */
  lemma {:induction false} LastSweepFails(r: Run, job: JobId, n: nat)
    requires IsRun(r) && n <= |r.steps| && OnlySwept(r, job) && Consistent(r.states[0])
    requires job in r.states[0].jobs && r.states[0].jobs[job].status == RUNNING
    ensures Consistent(r.states[n]) && job in r.states[n].jobs
    ensures var retries := r.states[0].jobs[job].retryCount;
            var left := if retries < 3 then 3 - retries else 0;
            && SweepsOf(r, job, n) <= left + 1 <= 4
            && r.states[n].jobs[job].retryCount == r.states[0].jobs[job].retryCount + SweepsOf(r, job, n)
            && r.states[n].jobs[job].status == (if SweepsOf(r, job, n) == left + 1 then FAILED else RUNNING)
    ensures r.states[n].jobs[job].status == FAILED ==> job !in r.states[n].round
  {
    hide Apply, Enabled, Consistent;
    if n > 0 {
      LastSweepFails(r, job, n - 1);
      assert StepTo(r.states[n - 1], r.steps[n - 1], r.states[n]);
      ConsistentKept(r.states[n - 1], r.steps[n - 1]);
      RowSwept(r.states[n - 1], r.steps[n - 1], job);
    }
  }

  /** What the sweep writes to a row and when it reads one; of any other step nothing is said. */
  lemma RowSwept(s: State, step: Step, job: JobId)
    requires Consistent(s) && Enabled(s, step) && job in s.jobs
    ensures var s' := Apply(s, step);
            && (step.SweepWrite? && step.job == job ==>
                  job in s.round && job !in s'.round && job in s'.jobs
                  && s'.jobs[job].retryCount == s.jobs[job].retryCount + 1
                  && s'.jobs[job].completedAt == s.jobs[job].completedAt
                  && s'.jobs[job].status == if Requeued(s.jobs[job]) then s.jobs[job].status else FAILED)
            && (job in s'.round && job !in s.round ==> s.jobs[job].status == RUNNING)
  {
    assert step.SweepWrite? ==> EntryOk(s, step.job);
    hide Left, Taken, Bag, NewMsg, RowOk, Consistent;
    if step.SweepWrite? {
      WriteStep(s, step.job, step.now);
      hide JobsAfter, RoundAfter;
    } else {
      hide JobsAfter;
    }
  }

  /** Which rows a round reads, and how long it remembers them. */
  lemma RoundMembership(s: State, step: Step, job: JobId)
    requires Enabled(s, step)
    ensures var s' := Apply(s, step);
            if step.SweepBegin? then
              job !in s.round
              && (job in s'.round <==> job in s.jobs && Stale(s.jobs[job], step.now - STALE_AFTER))
            else if step.SweepRollback? || (step.SweepWrite? && step.job == job) then job !in s'.round
            else job in s'.round <==> job in s.round
  {
    hide Left, Taken, Bag, NewMsg, JobsAfter, Stale, IsCacheHit, IsCacheMiss, CacheText;
  }

  // ------------------------------------------------------------------ rounds by the clock

  /** A round starts more than 300 seconds after the last heartbeat of the row. */
  ghost predicate Due(s: State, step: Step, job: JobId) {
    && step.SweepBegin? && job in s.jobs && s.jobs[job].heartbeatAt.Some?
    && s.jobs[job].heartbeatAt.value + 300 < step.now
  }

  /** How many rounds among the first n steps started like that. */
  ghost function RoundsDue(r: Run, job: JobId, n: nat): nat
    requires IsRun(r) && n <= |r.steps|
  {
    if n == 0 then 0 else RoundsDue(r, job, n - 1) + (if Due(r.states[n - 1], r.steps[n - 1], job) then 1 else 0)
  }

  /** How many rounds that had read the job failed. */
  ghost function RoundsFailed(r: Run, job: JobId, n: nat): nat
    requires IsRun(r) && n <= |r.steps|
  {
    if n == 0 then 0
    else RoundsFailed(r, job, n - 1) + (if r.steps[n - 1].SweepRollback? && job in r.states[n - 1].round then 1 else 0)
  }

  /** Every due round ends in a write of the row or fails, as long as the row is RUNNING. */
  lemma {:induction false} DueRoundsCount(r: Run, job: JobId, n: nat)
    requires IsRun(r) && n <= |r.steps| && OnlySwept(r, job) && Consistent(r.states[0])
    requires job in r.states[0].jobs && r.states[0].jobs[job].status == RUNNING && job !in r.states[0].round
    ensures job in r.states[n].jobs && r.states[n].jobs[job].completedAt == r.states[0].jobs[job].completedAt
    ensures r.states[n].jobs[job].status == RUNNING ==>
              RoundsDue(r, job, n)
              == SweepsOf(r, job, n) + RoundsFailed(r, job, n) + (if job in r.states[n].round then 1 else 0)
    ensures r.states[n].jobs[job].status == FAILED ==>
              RoundsDue(r, job, n) >= SweepsOf(r, job, n) + RoundsFailed(r, job, n)
  {
    hide Apply, Enabled, Consistent;
    if n > 0 {
      var s, step := r.states[n - 1], r.steps[n - 1];
      DueRoundsCount(r, job, n - 1);
      LastSweepFails(r, job, n - 1);
      LastSweepFails(r, job, n);
      assert StepTo(s, step, r.states[n]);
      RowSwept(s, step, job);
      RoundMembership(s, step, job);
    }
  }

  /**
   The recovery bound by the clock. In any run in which nothing but the sweep touches a RUNNING row, each round
   that starts more than 300 seconds after its last heartbeat and does not fail counts: outside a round, the
   row is FAILED if and only if there were more of them than it had recoveries left. So after four it is FAILED.
   It is never stamped completed.
   */
  lemma FourthSweepFails(r: Run, job: JobId, n: nat)
    requires IsRun(r) && n <= |r.steps| && OnlySwept(r, job) && Consistent(r.states[0])
    requires job in r.states[0].jobs && r.states[0].jobs[job].status == RUNNING && job !in r.states[0].round
    ensures job in r.states[n].jobs && r.states[n].jobs[job].completedAt == r.states[0].jobs[job].completedAt
    ensures job !in r.states[n].round ==>
              (r.states[n].jobs[job].status == FAILED
               <==> RoundsDue(r, job, n) > RoundsFailed(r, job, n)
                    + var retries := r.states[0].jobs[job].retryCount; if retries < 3 then 3 - retries else 0)
    ensures job !in r.states[n].round && RoundsDue(r, job, n) >= RoundsFailed(r, job, n) + 4 ==>
              r.states[n].jobs[job].status == FAILED
  {
    hide Consistent;
    DueRoundsCount(r, job, n);
    LastSweepFails(r, job, n);
  }

  // ------------------------------------------------------------------ when a round reads a job

  /** The step stamps the heartbeat of the row: the download starts or compresses, or the sweep writes the row. */
  ghost function StampedAt(s: State, step: Step, job: JobId): Option<Time> {
    if job !in s.jobs then None
    else match step
      case DownloadStart(msg, now) => if msg.job == job then Some(now) else None
      case DownloadRefresh(msg, now) => if msg.job == job then Some(now) else None
      case SweepWrite(k, now) => if k == job then Some(now) else None
      case _ => None
  }

  /** The last stamp among the first n steps. */
  ghost function LastStamp(r: Run, job: JobId, n: nat): Option<Time>
    requires IsRun(r) && n <= |r.steps|
  {
    if n == 0 then None
    else
      var stamp := StampedAt(r.states[n - 1], r.steps[n - 1], job);
      if stamp.Some? then stamp else LastStamp(r, job, n - 1)
  }

  lemma HeartbeatStep(s: State, step: Step, job: JobId)
    requires Enabled(s, step) && job in Apply(s, step).jobs
    ensures Apply(s, step).jobs[job].heartbeatAt
            == if StampedAt(s, step, job).Some? then StampedAt(s, step, job)
               else if job in s.jobs && !(step.Create? && step.job == job) then s.jobs[job].heartbeatAt else None
  {
    hide Left, Taken, Bag, NewMsg, RoundAfter, CacheText, IsCacheHit, IsCacheMiss;
  }

  lemma {:induction false} HeartbeatIsLastStamp(r: Run, job: JobId, n: nat)
    requires IsBehaviour(r) && n <= |r.steps|
    ensures job in r.states[n].jobs ==> r.states[n].jobs[job].heartbeatAt == LastStamp(r, job, n)
    ensures job !in r.states[n].issued ==> LastStamp(r, job, n) == None
  {
    hide Apply, Enabled, StampedAt;
    if n > 0 {
      var s, step := r.states[n - 1], r.steps[n - 1];
      HeartbeatIsLastStamp(r, job, n - 1);
      AlwaysConsistent(r, n - 1);
      assert StepTo(s, step, r.states[n]);
      if job in r.states[n].jobs { HeartbeatStep(s, step, job); }
      OnlyCreateAddsRows(s, step);
      StampedOnlyIfThere(s, step, job);
    }
  }

  lemma StampedOnlyIfThere(s: State, step: Step, job: JobId)
    requires Consistent(s)
    ensures job !in s.issued ==> StampedAt(s, step, job) == None
    ensures job in s.jobs ==> job in s.issued
  {
    hide RowOk;
  }

  /**
   When a round reads a job, whether or not its download is under way: in any behaviour, exactly when its row is
   RUNNING and the last time a download started or refreshed it, or the sweep wrote it, lies more than 300 seconds
   before the round. So a download that is stamped within five minutes of every round is never swept.
   */
  lemma ReadExactly(r: Run, job: JobId, n: nat)
    requires IsBehaviour(r) && n < |r.steps| && r.steps[n].SweepBegin?
    ensures job in r.states[n + 1].round
       <==> job in r.states[n].jobs && r.states[n].jobs[job].status == RUNNING
            && LastStamp(r, job, n).Some? && LastStamp(r, job, n).value + 300 < r.steps[n].now
  {
    hide Apply, Enabled, LastStamp;
    assert StepTo(r.states[n], r.steps[n], r.states[n + 1]);
    HeartbeatIsLastStamp(r, job, n);
    RoundMembership(r.states[n], r.steps[n], job);
  }

  // ------------------------------------------------------------------ a download that is swept

  /** The row of the download as the sweep leaves it. */
  function SweptRow(msg: Msg, user: UserId, start: Time, now: Time): DownloadJob {
    DownloadingRow(msg, user, start).(heartbeatAt := Some(now), retryCount := 1)
  }

  lemma SweptOnce(msg: Msg, user: UserId, start: Time, now: Time)
    requires start + 300 < now && msg.quality != ""
    ensures var row := DownloadingRow(msg, user, start);
            && Stale(row, now - STALE_AFTER) && Requeued(row) && SweepMsg(msg.job, row) == msg
            && WriteBack(row, row, now) == SweptRow(msg, user, start, now)
    ensures IsCacheMiss(map[msg.job := SweptRow(msg, user, start, now)], CacheText(msg.url, msg.quality))
  {
    hide CacheText;
  }

  /** A system with one job. */
  function One(cfg: Config, msg: Msg, row: DownloadJob, tasks: multiset<Task>, round: map<JobId, Seen>): State {
    State(cfg, map[msg.job := row], map[msg.job := msg.url], tasks, round)
  }

  lemma OneRead(cfg: Config, msg: Msg, row: DownloadJob, tasks: multiset<Task>, now: Time)
    requires Stale(row, now - STALE_AFTER)
    ensures StepTo(One(cfg, msg, row, tasks, map[]), SweepBegin(now),
                   One(cfg, msg, row, tasks, map[msg.job := Seen(row, false)]))
  {
    hide Stale;
    var s := One(cfg, msg, row, tasks, map[]);
    assert msg.job in StaleRows(s.jobs, now - STALE_AFTER);
    BeginStep(s, now);
    assert Read(s.jobs, now - STALE_AFTER) == map[msg.job := Seen(row, false)];
    hide StepTo;
  }

  lemma OneQueued(cfg: Config, msg: Msg, row: DownloadJob, tasks: multiset<Task>)
    requires Requeued(row)
    ensures StepTo(One(cfg, msg, row, tasks, map[msg.job := Seen(row, false)]), SweepQueue(msg.job),
                   One(cfg, msg, row, tasks + multiset{Task(SweepMsg(msg.job, row), Queued)}, map[msg.job := Seen(row, true)]))
  {
    hide StepTo, Requeued, SweepMsg;
    var s := One(cfg, msg, row, tasks, map[msg.job := Seen(row, false)]);
    QueueStep(s, msg.job);
    assert s.round[msg.job := Seen(row, true)] == map[msg.job := Seen(row, true)];
  }

  lemma OneWritten(cfg: Config, msg: Msg, row: DownloadJob, tasks: multiset<Task>, now: Time)
    ensures StepTo(One(cfg, msg, row, tasks, map[msg.job := Seen(row, true)]), SweepWrite(msg.job, now),
                   One(cfg, msg, WriteBack(row, row, now), tasks, map[]))
  {
    hide StepTo, WriteBack;
    var s := One(cfg, msg, row, tasks, map[msg.job := Seen(row, true)]);
    WriteStep(s, msg.job, now);
    assert s.jobs[msg.job := WriteBack(row, row, now)] == map[msg.job := WriteBack(row, row, now)];
    assert s.round - {msg.job} == map[];
  }

  /** The first job ever is swept while its download runs. */
  lemma SweptWhileDownloading(cfg: Config, msg: Msg, user: UserId, meta: Metadata, start: Time, now: Time) returns (r: Run)
    requires NoColon(msg.quality) && msg.quality != "" && Decide(cfg, msg.quality, meta) == Chain
    requires start + 300 < now
    ensures IsBehaviour(r)
    ensures r.steps == BeginningSteps(msg, user, meta, start)
                       + [SweepBegin(now), SweepQueue(msg.job), SweepWrite(msg.job, now)]
    ensures Last(r) == One(cfg, msg, SweptRow(msg, user, start, now),
                           multiset{Task(msg, Downloading)} + multiset{Task(msg, Queued)}, map[])
  {
    SweptOnce(msg, user, start, now);
    hide Decide, DownloadingRow, SweptRow, BeginningSteps, StepTo, CacheText, IsCacheMiss, Requeued, SweepMsg, WriteBack, Stale;
    var row, tasks := DownloadingRow(msg, user, start), multiset{Task(msg, Downloading)};
    r := FirstDownload(cfg, msg, user, meta, start);
    var begun := r;
    OneRead(cfg, msg, row, tasks, now);
    r := Then(r, SweepBegin(now), One(cfg, msg, row, tasks, map[msg.job := Seen(row, false)]));
    OneQueued(cfg, msg, row, tasks);
    tasks := tasks + multiset{Task(msg, Queued)};
    r := Then(r, SweepQueue(msg.job), One(cfg, msg, row, tasks, map[msg.job := Seen(row, true)]));
    OneWritten(cfg, msg, row, tasks, now);
    r := Then(r, SweepWrite(msg.job, now), One(cfg, msg, SweptRow(msg, user, start, now), tasks, map[]));
    Through(begun, r, [SweepBegin(now), SweepQueue(msg.job), SweepWrite(msg.job, now)]);
  }

  /**
   The sweep can revive a job whose download is under way: for any request, whenever a download takes more than
   five minutes, a round can queue it again, and then the same job is downloaded twice at the same time.
   */
  lemma DownloadedTwice(cfg: Config, msg: Msg, user: UserId, meta: Metadata, start: Time, now: Time) returns (r: Run)
    requires NoColon(msg.quality) && msg.quality != "" && Decide(cfg, msg.quality, meta) == Chain
    requires start + 300 < now
    ensures IsBehaviour(r)
    ensures r.steps == BeginningSteps(msg, user, meta, start)
                       + [SweepBegin(now), SweepQueue(msg.job), SweepWrite(msg.job, now)]
                       + [PreflightMiss(msg), PreflightMark(msg, meta, now), PreflightEnd(msg, meta), DownloadStart(msg, now)]
    ensures Last(r).tasks == multiset{Task(msg, Downloading), Task(msg, Downloading)}
  {
    SweptOnce(msg, user, start, now);
    hide Decide, DownloadingRow, SweptRow, BeginningSteps, CacheText, IsCacheMiss, Requeued, SweepMsg, WriteBack;
    var swept := SweptWhileDownloading(cfg, msg, user, meta, start, now);
    var rest := multiset{Task(msg, Downloading)};
    var prepared := Prepares(swept, msg, meta, now, rest);
    Through(swept, prepared, [PreflightMiss(msg), PreflightMark(msg, meta, now), PreflightEnd(msg, meta)]);
    r := Starts(prepared, msg, now, rest);
    Through(prepared, r, [DownloadStart(msg, now)]);
  }
}
