/** What the time stamps on a row mean, and what the cache query makes of them. */
module Stamps {
  import opened Wrappers
  import opened Text
  import opened JobTable
  import opened Pipeline
  import opened JobTableInvariants

  /** The step closes the row: it delivers, finishes, fails, or cancels it while it is active. */
  ghost function ClosedAt(s: State, step: Step, job: JobId): Option<Time> {
    if job !in s.jobs then None
    else match step
      case PreflightDeliver(msg, _, now) => if msg.job == job then Some(now) else None
      case PreflightFail(msg, now) => if msg.job == job then Some(now) else None
      case DownloadDone(msg, _, _, now) => if msg.job == job then Some(now) else None
      case DownloadFail(msg, _, now) => if msg.job == job then Some(now) else None
      case Cancel(k, now) =>
        if k == job && (s.jobs[job].status == PENDING || s.jobs[job].status == RUNNING) then Some(now) else None
      case _ => None
  }

  /** The step marks the row RUNNING. */
  ghost function StartedAt(s: State, step: Step, job: JobId): Option<Time> {
    if job !in s.jobs then None
    else match step
      case PreflightMark(msg, _, now) => if msg.job == job then Some(now) else None
      case DownloadStart(msg, now) => if msg.job == job then Some(now) else None
      case DownloadRefresh(msg, now) => if msg.job == job then Some(now) else None
      case _ => None
  }

  /** When the job was last closed in the first n steps. */
  ghost function LastClosed(r: Run, job: JobId, n: nat): Option<Time>
    requires IsRun(r) && n <= |r.steps|
  {
    if n == 0 then None
    else
      var at := ClosedAt(r.states[n - 1], r.steps[n - 1], job);
      if at.Some? then at else LastClosed(r, job, n - 1)
  }

  /** When the job was last marked RUNNING in the first n steps. */
  ghost function LastStarted(r: Run, job: JobId, n: nat): Option<Time>
    requires IsRun(r) && n <= |r.steps|
  {
    if n == 0 then None
    else
      var at := StartedAt(r.states[n - 1], r.steps[n - 1], job);
      if at.Some? then at else LastStarted(r, job, n - 1)
  }

  lemma StampsStep(s: State, step: Step, job: JobId)
    requires Enabled(s, step) && job in Apply(s, step).jobs
    ensures var next := Apply(s, step).jobs[job];
            var there := job in s.jobs && !(step.Create? && step.job == job);
            && next.completedAt == (if ClosedAt(s, step, job).Some? then ClosedAt(s, step, job)
                                    else if there then s.jobs[job].completedAt else None)
            && next.startedAt == (if StartedAt(s, step, job).Some? then StartedAt(s, step, job)
                                  else if there then s.jobs[job].startedAt else None)
  {
    hide Left, Taken, Bag, NewMsg, RoundAfter, CacheText, IsCacheHit, IsCacheMiss;
  }

  lemma OnlyIfThere(s: State, step: Step, job: JobId)
    requires Consistent(s)
    ensures job !in s.issued ==> ClosedAt(s, step, job) == None && StartedAt(s, step, job) == None
    ensures job in s.jobs ==> job in s.issued
  {
    hide RowOk;
  }

  /**
   In any behaviour, completed_at is the time at which the row was last closed, and started_at the time at which
   it was last marked RUNNING. Giving up on a row in a sweep is not closing it.
   */
  lemma {:induction false} StampsAreLast(r: Run, job: JobId, n: nat)
    requires IsBehaviour(r) && n <= |r.steps|
    ensures job in r.states[n].jobs ==>
              r.states[n].jobs[job].completedAt == LastClosed(r, job, n)
              && r.states[n].jobs[job].startedAt == LastStarted(r, job, n)
    ensures job !in r.states[n].issued ==> LastClosed(r, job, n) == None && LastStarted(r, job, n) == None
  {
    hide Apply, Enabled, ClosedAt, StartedAt;
    if n > 0 {
      var s, step := r.states[n - 1], r.steps[n - 1];
      StampsAreLast(r, job, n - 1);
      AlwaysConsistent(r, n - 1);
      assert StepTo(s, step, r.states[n]);
      if job in r.states[n].jobs { StampsStep(s, step, job); }
      OnlyCreateAddsRows(s, step);
      OnlyIfThere(s, step, job);
    }
  }

  /** A finished job that the cache may serve from under the text of a message. */
  ghost predicate Serves(s: State, k: JobId, msg: Msg) {
    && k in s.jobs && s.jobs[k].status == DONE && s.jobs[k].urlHash == Some(msg.url + ":" + msg.quality)
    && s.jobs[k].fileId.Some?
  }

  /** In any behaviour, a hit serves the match that was closed last. */
  lemma HitServesLatest(r: Run, n: nat, k: JobId)
    requires IsBehaviour(r) && n < |r.steps| && r.steps[n].PreflightHit?
    ensures Serves(r.states[n], r.steps[n].cached, r.steps[n].msg)
    ensures Serves(r.states[n], k, r.steps[n].msg) ==>
              && LastClosed(r, k, n).Some? && LastClosed(r, r.steps[n].cached, n).Some?
              && LastClosed(r, k, n).value <= LastClosed(r, r.steps[n].cached, n).value
  {
    var s, cached := r.states[n], r.steps[n].cached;
    assert StepTo(s, r.steps[n], r.states[n + 1]);
    HitMatches(s, r.steps[n]);
    AlwaysConsistent(r, n);
    StampsAreLast(r, k, n);
    StampsAreLast(r, cached, n);
    hide IsBehaviour, Enabled, Apply, LastClosed, LastStarted;
    if Serves(s, k, r.steps[n].msg) {
      DoneIsStamped(s, k);
      DoneIsStamped(s, cached);
      NoneLater(s, r.steps[n], k);
    }
  }

  lemma HitMatches(s: State, step: Step)
    requires Enabled(s, step) && step.PreflightHit?
    ensures Serves(s, step.cached, step.msg)
  {
  }

  lemma DoneIsStamped(s: State, k: JobId)
    requires Consistent(s) && k in s.jobs && s.jobs[k].status == DONE
    ensures s.jobs[k].completedAt.Some?
  {
  }

  lemma NoneLater(s: State, step: Step, k: JobId)
    requires Enabled(s, step) && step.PreflightHit? && Serves(s, k, step.msg) && s.jobs[step.cached].completedAt.Some?
    ensures s.jobs[k].completedAt.Some? && s.jobs[k].completedAt.value <= s.jobs[step.cached].completedAt.value
  {
  }

  /** Conversely a miss means that there is none. */
  lemma MissMeansNone(r: Run, n: nat, k: JobId)
    requires IsBehaviour(r) && n < |r.steps| && r.steps[n].PreflightMiss?
    ensures !Serves(r.states[n], k, r.steps[n].msg)
  {
    assert StepTo(r.states[n], r.steps[n], r.states[n + 1]);
  }
}
