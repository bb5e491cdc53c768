/** Stretches of runs: what the handlers and workers do for one job while nothing else happens. */
module Journeys {
  import opened Wrappers
  import opened Text
  import opened JobTable
  import opened Pipeline
  import opened Steps

  /** The run starts like the other one. */
  predicate Continues(before: Run, r: Run, more: seq<Step>) {
    before.states != [] && before.states <= r.states && r.steps == before.steps + more
  }

  lemma Through(before: Run, r: Run, more: seq<Step>)
    requires IsRun(before) && IsRun(r) && Continues(before, r, more)
    ensures r.states[|before.steps|] == Last(before)
    ensures IsBehaviour(before) ==> IsBehaviour(r)
  {
    hide StepTo;
  }

  /** One more step. */
  lemma Then(before: Run, step: Step, next: State) returns (r: Run)
    requires IsRun(before) && StepTo(Last(before), step, next)
    ensures IsRun(r) && Last(r) == next && Continues(before, r, [step])
  {
    hide StepTo;
    r := Extend(before, step, next);
  }

  lemma Swap(rest: multiset<Task>, a: Task, b: Task)
    ensures rest + multiset{a} - multiset{a} + Bag(Some(b)) == rest + multiset{b}
    ensures rest + multiset{a} - multiset{a} + Bag(None) == rest
  {
  }

  /** A user asks for a job and its message is queued. */
  lemma Sends(before: Run, job: JobId, user: UserId, url: string, quality: string, now: Time) returns (r: Run)
    requires IsRun(before) && job !in Last(before).issued && NoColon(quality)
    ensures IsRun(r)
    ensures var m := Msg(job, url, quality);
            Continues(before, r, [Create(job, user, url, quality, now), Enqueue(m)])
    ensures var s := Last(before);
            Last(r) == s.(jobs := s.jobs[job := NewJob(user, url, quality, now)], issued := s.issued[job := url],
                          tasks := s.tasks + multiset{Task(Msg(job, url, quality), Queued)})
  {
    hide StepTo, NewJob;
    var s, m := Last(before), Msg(job, url, quality);
    var created := s.(jobs := s.jobs[job := NewJob(user, url, quality, now)], issued := s.issued[job := url],
                      tasks := s.tasks + multiset{Task(m, Posting)});
    CreateStep(s, job, user, url, quality, now);
    var first := Then(before, Create(job, user, url, quality, now), created);
    PostStep(created, m, true);
    Swap(s.tasks, Task(m, Posting), Task(m, Queued));
    r := Then(first, Enqueue(m), Moved(created, created.jobs, m, Posting, Some(Queued)));
  }

  /** A user taps a quality and the message is queued. */
  lemma Taps(before: Run, job: JobId, quality: string) returns (r: Run)
    requires IsRun(before) && job in Last(before).jobs && NoColon(quality)
    ensures IsRun(r)
    ensures var m := Msg(job, Last(before).jobs[job].url, quality); Continues(before, r, [Tap(job, quality), Enqueue(m)])
    ensures var s := Last(before);
            Last(r) == s.(jobs := s.jobs[job := s.jobs[job].(formatRequested := Some(quality))],
                          tasks := s.tasks + multiset{Task(Msg(job, s.jobs[job].url, quality), Queued)})
  {
    hide StepTo;
    var s := Last(before);
    var m := Msg(job, s.jobs[job].url, quality);
    var tapped := s.(jobs := s.jobs[job := s.jobs[job].(formatRequested := Some(quality))],
                     tasks := s.tasks + multiset{Task(m, Posting)});
    TapStep(s, job, quality);
    var first := Then(before, Tap(job, quality), tapped);
    PostStep(tapped, m, true);
    Swap(s.tasks, Task(m, Posting), Task(m, Queued));
    r := Then(first, Enqueue(m), Moved(tapped, tapped.jobs, m, Posting, Some(Queued)));
  }

  function Marked(jobs: Table, msg: Msg, now: Time): Table {
    UpdateJobStatus(jobs, msg.job, RUNNING, NO_COLUMNS.(urlHash := Some(CacheText(msg.url, msg.quality))), now)
  }

  /** A queued message misses the cache. `rest` is what else is queued or running. */
  lemma Misses(before: Run, msg: Msg, rest: multiset<Task>) returns (r: Run)
    requires IsRun(before) && Last(before).tasks == rest + multiset{Task(msg, Queued)}
    requires IsCacheMiss(Last(before).jobs, CacheText(msg.url, msg.quality))
    ensures IsRun(r) && Continues(before, r, [PreflightMiss(msg)])
    ensures Last(r) == Last(before).(tasks := rest + multiset{Task(msg, Fetching)})
  {
    var s := Last(before);
    MissStep(s, msg);
    hide StepTo, CacheText, IsCacheMiss;
    Swap(rest, Task(msg, Queued), Task(msg, Fetching));
    r := Then(before, PreflightMiss(msg), Moved(s, s.jobs, msg, Queued, Some(Fetching)));
  }

  lemma Marks(before: Run, msg: Msg, meta: Metadata, now: Time, rest: multiset<Task>) returns (r: Run)
    requires IsRun(before) && Last(before).tasks == rest + multiset{Task(msg, Fetching)}
    ensures IsRun(r) && Continues(before, r, [PreflightMark(msg, meta, now)])
    ensures var s := Last(before);
            Last(r) == s.(jobs := Marked(s.jobs, msg, now), tasks := rest + multiset{Task(msg, Chaining(meta))})
  {
    hide StepTo, UpdateJobStatus, CacheText;
    var s := Last(before);
    MarkStep(s, msg, meta, now);
    Swap(rest, Task(msg, Fetching), Task(msg, Chaining(meta)));
    r := Then(before, PreflightMark(msg, meta, now), Moved(s, Marked(s.jobs, msg, now), msg, Fetching, Some(Chaining(meta))));
  }

  lemma Ends(before: Run, msg: Msg, meta: Metadata, rest: multiset<Task>) returns (r: Run)
    requires IsRun(before) && Last(before).tasks == rest + multiset{Task(msg, Chaining(meta))}
    ensures IsRun(r) && Continues(before, r, [PreflightEnd(msg, meta)])
    ensures var s := Last(before);
            Last(r) == s.(tasks := rest + Bag(if Decide(s.cfg, msg.quality, meta) == Chain
                                              then Some(Task(msg, DownloadQueued)) else None))
  {
    hide StepTo, Decide;
    var s := Last(before);
    EndStep(s, msg, meta);
    Swap(rest, Task(msg, Chaining(meta)), Task(msg, DownloadQueued));
    var to := if Decide(s.cfg, msg.quality, meta) == Chain then Some(DownloadQueued) else None;
    r := Then(before, PreflightEnd(msg, meta), Moved(s, s.jobs, msg, Chaining(meta), to));
  }

  /** Preflight after a cache miss. */
  lemma Prepares(before: Run, msg: Msg, meta: Metadata, now: Time, rest: multiset<Task>) returns (r: Run)
    requires IsRun(before) && Last(before).tasks == rest + multiset{Task(msg, Queued)}
    requires IsCacheMiss(Last(before).jobs, CacheText(msg.url, msg.quality))
    ensures IsRun(r)
    ensures Continues(before, r, [PreflightMiss(msg), PreflightMark(msg, meta, now), PreflightEnd(msg, meta)])
    ensures var s := Last(before);
            Last(r) == s.(jobs := Marked(s.jobs, msg, now),
                          tasks := rest + Bag(if Decide(s.cfg, msg.quality, meta) == Chain
                                              then Some(Task(msg, DownloadQueued)) else None))
  {
    hide Marked, CacheText, Decide, IsCacheMiss, IsRun, Last;
    r := Misses(before, msg, rest);
    r := Marks(r, msg, meta, now, rest);
    r := Ends(r, msg, meta, rest);
  }

  function Started(jobs: Table, msg: Msg, now: Time): Table {
    UpdateJobStatus(jobs, msg.job, RUNNING, NO_COLUMNS.(heartbeatAt := Some(now)), now)
  }

  lemma Starts(before: Run, msg: Msg, now: Time, rest: multiset<Task>) returns (r: Run)
    requires IsRun(before) && Last(before).tasks == rest + multiset{Task(msg, DownloadQueued)}
    ensures IsRun(r) && Continues(before, r, [DownloadStart(msg, now)])
    ensures var s := Last(before);
            Last(r) == s.(jobs := Started(s.jobs, msg, now), tasks := rest + multiset{Task(msg, Downloading)})
  {
    hide StepTo, UpdateJobStatus;
    var s := Last(before);
    StartStep(s, msg, now);
    Swap(rest, Task(msg, DownloadQueued), Task(msg, Downloading));
    r := Then(before, DownloadStart(msg, now), Moved(s, Started(s.jobs, msg, now), msg, DownloadQueued, Some(Downloading)));
  }

  function Done(jobs: Table, msg: Msg, uploads: seq<string>, now: Time): Table {
    UpdateJobStatus(jobs, msg.job, DONE, NO_COLUMNS.(fileId := Some(LastUpload(msg, uploads))), now)
  }

  /** The download is uploaded and the row closed; the last notice is still to be sent. */
  lemma Uploads(before: Run, msg: Msg, uploads: seq<string>, now: Time, rest: multiset<Task>) returns (r: Run)
    requires IsRun(before) && Last(before).tasks == rest + multiset{Task(msg, Downloading)}
    ensures IsRun(r) && Continues(before, r, [DownloadDone(msg, Downloading, uploads, now)])
    ensures var s := Last(before);
            Last(r) == s.(jobs := Done(s.jobs, msg, uploads, now), tasks := rest + multiset{Task(msg, Notifying)})
  {
    hide StepTo, UpdateJobStatus;
    var s := Last(before);
    DoneStep(s, msg, Downloading, uploads, now);
    Swap(rest, Task(msg, Downloading), Task(msg, Notifying));
    r := Then(before, DownloadDone(msg, Downloading, uploads, now),
              Moved(s, Done(s.jobs, msg, uploads, now), msg, Downloading, Some(Notifying)));
  }

  /** The last notice is sent. */
  lemma Notifies(before: Run, msg: Msg, rest: multiset<Task>) returns (r: Run)
    requires IsRun(before) && Last(before).tasks == rest + multiset{Task(msg, Notifying)}
    ensures IsRun(r) && Continues(before, r, [DownloadEnd(msg)]) && Last(r) == Last(before).(tasks := rest)
  {
    hide StepTo;
    var s := Last(before);
    EndDownloadStep(s, msg);
    Swap(rest, Task(msg, Notifying), Task(msg, Notifying));
    r := Then(before, DownloadEnd(msg), Moved(s, s.jobs, msg, Notifying, None));
  }

  /** Preflight cannot fetch the metadata. */
  lemma Fails(before: Run, msg: Msg, now: Time, rest: multiset<Task>) returns (r: Run)
    requires IsRun(before) && Last(before).tasks == rest + multiset{Task(msg, Fetching)}
    ensures IsRun(r) && Continues(before, r, [PreflightFail(msg, now)])
    ensures var s := Last(before);
            Last(r) == s.(jobs := UpdateJobStatus(s.jobs, msg.job, FAILED, NO_COLUMNS, now), tasks := rest)
  {
    hide StepTo, UpdateJobStatus;
    var s := Last(before);
    FailPreflightStep(s, msg, now);
    Swap(rest, Task(msg, Fetching), Task(msg, Fetching));
    var jobs := UpdateJobStatus(s.jobs, msg.job, FAILED, NO_COLUMNS, now);
    r := Then(before, PreflightFail(msg, now), Moved(s, jobs, msg, Fetching, None));
  }

  /** A download raises, in the middle or at its last notice. */
  lemma FailsDownload(before: Run, msg: Msg, stage: Stage, now: Time, rest: multiset<Task>) returns (r: Run)
    requires IsRun(before) && Last(before).tasks == rest + multiset{Task(msg, stage)} && InTry(stage)
    ensures IsRun(r) && Continues(before, r, [DownloadFail(msg, stage, now)])
    ensures var s := Last(before);
            Last(r) == s.(jobs := UpdateJobStatus(s.jobs, msg.job, FAILED, NO_COLUMNS, now), tasks := rest)
  {
    hide StepTo, UpdateJobStatus;
    var s := Last(before);
    FailStep(s, msg, stage, now);
    Swap(rest, Task(msg, stage), Task(msg, stage));
    var jobs := UpdateJobStatus(s.jobs, msg.job, FAILED, NO_COLUMNS, now);
    r := Then(before, DownloadFail(msg, stage, now), Moved(s, jobs, msg, stage, None));
  }

  /** A handler queues its message. */
  lemma Posts(before: Run, msg: Msg, rest: multiset<Task>) returns (r: Run)
    requires IsRun(before) && Last(before).tasks == rest + multiset{Task(msg, Posting)}
    ensures IsRun(r) && Continues(before, r, [Enqueue(msg)])
    ensures Last(r) == Last(before).(tasks := rest + multiset{Task(msg, Queued)})
  {
    hide StepTo;
    var s := Last(before);
    PostStep(s, msg, true);
    Swap(rest, Task(msg, Posting), Task(msg, Queued));
    r := Then(before, Enqueue(msg), Moved(s, s.jobs, msg, Posting, Some(Queued)));
  }

  function Delivered(jobs: Table, msg: Msg, file: File, now: Time): Table {
    UpdateJobStatus(jobs, msg.job, DONE, NO_COLUMNS.(fileId := Some(Some(file))), now)
  }

  /** A queued message hits the cache; the file found is still to be delivered. */
  lemma Hits(before: Run, msg: Msg, cached: JobId, rest: multiset<Task>) returns (r: Run)
    requires IsRun(before) && Last(before).tasks == rest + multiset{Task(msg, Queued)}
    requires IsCacheHit(Last(before).jobs, CacheText(msg.url, msg.quality), cached)
    ensures cached in Last(before).jobs && Last(before).jobs[cached].fileId.Some?
    ensures IsRun(r) && Continues(before, r, [PreflightHit(msg, cached)])
    ensures var s := Last(before);
            Last(r) == s.(tasks := rest + multiset{Task(msg, Delivering(s.jobs[cached].fileId.value))})
  {
    var s := Last(before);
    HitStep(s, msg, cached);
    hide StepTo, CacheText;
    var to := Delivering(s.jobs[cached].fileId.value);
    Swap(rest, Task(msg, Queued), Task(msg, to));
    r := Then(before, PreflightHit(msg, cached), Moved(s, s.jobs, msg, Queued, Some(to)));
  }

  lemma Delivers(before: Run, msg: Msg, file: File, now: Time, rest: multiset<Task>) returns (r: Run)
    requires IsRun(before) && Last(before).tasks == rest + multiset{Task(msg, Delivering(file))}
    ensures IsRun(r) && Continues(before, r, [PreflightDeliver(msg, file, now)])
    ensures var s := Last(before); Last(r) == s.(jobs := Delivered(s.jobs, msg, file, now), tasks := rest)
  {
    hide StepTo, UpdateJobStatus;
    var s := Last(before);
    DeliverStep(s, msg, file, now);
    Swap(rest, Task(msg, Delivering(file)), Task(msg, Delivering(file)));
    r := Then(before, PreflightDeliver(msg, file, now), Moved(s, Delivered(s.jobs, msg, file, now), msg, Delivering(file), None));
  }

  // ------------------------------------------------------------------ a whole download

  function BeginningSteps(msg: Msg, user: UserId, meta: Metadata, now: Time): seq<Step> {
    [Create(msg.job, user, msg.url, msg.quality, now), Enqueue(msg), PreflightMiss(msg), PreflightMark(msg, meta, now),
     PreflightEnd(msg, meta), DownloadStart(msg, now)]
  }

  /** The row of the first job ever while its download runs. */
  function DownloadingRow(msg: Msg, user: UserId, now: Time): DownloadJob {
    NewJob(user, msg.url, msg.quality, now).(status := RUNNING, urlHash := Some(CacheText(msg.url, msg.quality)),
                                             heartbeatAt := Some(now), startedAt := Some(now))
  }

  /** The first job ever, up to its download, for any request that preflight passes on. */
  lemma FirstDownload(cfg: Config, msg: Msg, user: UserId, meta: Metadata, now: Time) returns (r: Run)
    requires NoColon(msg.quality) && Decide(cfg, msg.quality, meta) == Chain
    ensures IsBehaviour(r) && r.steps == BeginningSteps(msg, user, meta, now)
    ensures Last(r) == State(cfg, map[msg.job := DownloadingRow(msg, user, now)], map[msg.job := msg.url],
                             multiset{Task(msg, Downloading)}, map[])
  {
    FirstRows(msg, user, now);
    hide CacheText, Decide, UpdateJobStatus, NewJob, DownloadingRow, NoColon, Marked, Started;
    r := Still(Init(cfg));
    r := Sends(r, msg.job, user, msg.url, msg.quality, now);
    r := Prepares(r, msg, meta, now, multiset{});
    r := Starts(r, msg, now, multiset{});
  }

  lemma FirstRows(msg: Msg, user: UserId, now: Time)
    ensures var sent := map[][msg.job := NewJob(user, msg.url, msg.quality, now)];
            && IsCacheMiss(sent, CacheText(msg.url, msg.quality))
            && Started(Marked(sent, msg, now), msg, now) == map[msg.job := DownloadingRow(msg, user, now)]
  {
    hide CacheText;
  }
}
