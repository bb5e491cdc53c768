/**
 The download pipeline as a step system. The state is the job table, the queued messages of the two
 workers, and the runs in progress, kept apart by how far each has got. A step is one atomic act of one
 actor: a user, the preflight worker, the download worker, or the stale-job sweep. Runs interleave freely.
 */
module Pipeline {
  import opened Wrappers
  import opened Text
  import opened Formats
  import opened JobTable

  datatype Config = Config(localApi: bool, warnMb: int, maxSizeMb: int)

  /** The part of the extracted metadata that decides how preflight goes on. */
  datatype Metadata = Metadata(isYoutube: bool, formats: seq<FormatInfo>)

  /** A task message. The format selector of a download message is a function of url and quality. */
  datatype Msg = Msg(job: JobId, url: string, quality: string)

  /** How far a task has got: with the handler that asks for it, queued for a worker, or run up to some await. */
  datatype Stage =
    | Posting                   // the handler has written the row and has still to queue the message
    | Queued                    // on the preflight queue
    | Fetching                  // preflight, after a cache miss
    | Delivering(file: File)    // preflight, after a cache hit: the row is still to be closed
    | Chaining(meta: Metadata)  // preflight, metadata fetched and the row marked RUNNING
    | DownloadQueued            // on the download queue
    | Downloading               // download, the row marked RUNNING
    | Compressing               // download, after the heartbeat refresh before compression
    | Notifying                 // download, the row set DONE and the last notice still to be sent

  datatype Task = Task(msg: Msg, stage: Stage)

  /** A row as the round of the sweep under way read it, and whether its message has been queued. */
  datatype Seen = Seen(row: DownloadJob, queued: bool)

  /**
   Messages are taken from a queue when delivered and are not acknowledged: a run that dies loses its message.
   `issued` remembers every job id ever created, with its url; ids are never issued twice (uuid4). `round` holds
   the rows that the sweep has read and not yet written.
   */
  datatype State =
    State(cfg: Config, jobs: Table, issued: map<JobId, string>, tasks: multiset<Task>, round: map<JobId, Seen>)

  function Init(cfg: Config): State { State(cfg, map[], map[], multiset{}, map[]) }

  datatype Outcome = ShowMenu | WarnLargeFile | Raise | Chain

  /** How preflight_task ends once it has marked the row. */
  function Decide(cfg: Config, quality: string, meta: Metadata): Outcome {
    if meta.isYoutube && quality == "best" then ShowMenu
    else
      var choice := Choose(meta.formats, quality, cfg.maxSizeMb * 1024 * 1024);
      if choice.IndexError? then Raise
      else
        var size := if choice.Chosen? then choice.format.Size() else 0;
        if size > (if cfg.localApi then 2000 else cfg.warnMb) * 1024 * 1024 then WarnLargeFile
        else Chain
  }

  /**
   Which outcome is the right one, for the right choice `c` of a format: the menu exactly for "best" on YouTube;
   otherwise the IndexError exactly for "audio" or "best" on an empty list; otherwise the large-file question
   exactly when the chosen format is larger than 2000 MB, or than the warning limit without a local server, an
   unknown size counting as nothing; and the download in all other cases.
   */
  ghost predicate IsRightOutcome(cfg: Config, quality: string, meta: Metadata, c: Choice, outcome: Outcome) {
    var menu := meta.isYoutube && quality == "best";
    var raise := meta.formats == [] && (quality == "audio" || quality == "best");
    var bytes := match c case Chosen(f) => (match f.filesize case Some(v) => v case None => 0) case _ => 0;
    var large := bytes > (if cfg.localApi then 2000 * 1_048_576 else cfg.warnMb * 1_048_576);
    && (outcome == ShowMenu <==> menu)
    && (outcome == Raise <==> !menu && raise)
    && (outcome == WarnLargeFile <==> !menu && !raise && large)
    && (outcome == Chain <==> !menu && !raise && !large)
  }

  /** The four outcomes of preflight, each exactly. */
  lemma OutcomesExactly(cfg: Config, quality: string, meta: Metadata, c: Choice)
    requires IsRightChoice(meta.formats, quality, cfg.maxSizeMb * 1_048_576, c)
    ensures IsRightOutcome(cfg, quality, meta, c, Decide(cfg, quality, meta))
  {
    var limit := cfg.maxSizeMb * 1024 * 1024;
    assert limit == cfg.maxSizeMb * 1_048_576;
    ChoiceIsRight(meta.formats, quality, limit);
    RightChoiceUnique(meta.formats, quality, limit, c, Choose(meta.formats, quality, limit));
    assert c.IndexError? <==> meta.formats == [] && (quality == "audio" || quality == "best");
    hide Choose, IsRightChoice;
  }

  /** With a warning limit, a known size above it is what it takes. */
  lemma WarnedExactly(cfg: Config, quality: string, meta: Metadata, c: Choice)
    requires IsRightChoice(meta.formats, quality, cfg.maxSizeMb * 1_048_576, c) && cfg.warnMb >= 0
    requires !(meta.isYoutube && quality == "best")
    ensures Decide(cfg, quality, meta) == WarnLargeFile
       <==> c.Chosen? && c.format.filesize.Some?
            && c.format.filesize.value > (if cfg.localApi then 2000 else cfg.warnMb) * 1_048_576
  {
    OutcomesExactly(cfg, quality, meta, c);
    if c.Chosen? { RaisesOnlyEmpty(meta.formats, quality, cfg.maxSizeMb * 1_048_576, c); }
    hide Decide, IsRightChoice;
  }

  lemma RaisesOnlyEmpty(formats: seq<FormatInfo>, quality: string, maxBytes: int, c: Choice)
    requires IsRightChoice(formats, quality, maxBytes, c) && c.Chosen?
    ensures formats != []
  {
  }

  /**
   The large-file question is asked only when nothing fits: as long as the warning limit is not below the size
   limit, a numeric quality with a fitting format goes straight to the download.
   */
  lemma FittingFormatIsDownloaded(cfg: Config, quality: string, meta: Metadata)
    requires ParseInt(quality).Some? && 0 <= cfg.maxSizeMb <= (if cfg.localApi then 2000 else cfg.warnMb)
    requires exists f :: f in meta.formats && f.Fits(TargetHeight(quality), cfg.maxSizeMb * 1024 * 1024)
    ensures Decide(cfg, quality, meta) == Chain
  {
    var limit := cfg.maxSizeMb * 1024 * 1024;
    NumericNotNamed(quality);
    TallestFitting(meta.formats, quality, limit);
    hide Choose;
  }

  /** A tap on an offered height at which something fits ends the second preflight in a download. */
  lemma TapLeadsToDownload(cfg: Config, meta: Metadata, h: nat)
    requires Offered(meta.formats, h) && 0 <= cfg.maxSizeMb <= (if cfg.localApi then 2000 else cfg.warnMb)
    requires exists f :: f in meta.formats && f.height == Some(h) && f.Fits(h, cfg.maxSizeMb * 1024 * 1024)
    ensures Decide(cfg, Quality(Video(h)), meta) == Chain
  {
    ParseDecimal(h);
    FittingFormatIsDownloaded(cfg, Quality(Video(h)), meta);
  }

  datatype Step =
    // users
    | Create(job: JobId, user: UserId, url: string, quality: string, now: Time)
    | Tap(job: JobId, quality: string)
    | Cancel(job: JobId, now: Time)
    | Clear(user: UserId)
    // the handler of a creation or a tap goes on
    | Enqueue(msg: Msg)
    // preflight worker
    | PreflightMiss(msg: Msg)
    | PreflightHit(msg: Msg, cached: JobId)
    | PreflightDeliver(msg: Msg, file: File, now: Time)
    | PreflightFail(msg: Msg, now: Time)
    | PreflightMark(msg: Msg, meta: Metadata, now: Time)
    | PreflightEnd(msg: Msg, meta: Metadata)
    // download worker
    | DownloadStart(msg: Msg, now: Time)
    | DownloadRefresh(msg: Msg, now: Time)
    | DownloadDone(msg: Msg, stage: Stage, uploads: seq<string>, now: Time)
    | DownloadFail(msg: Msg, stage: Stage, now: Time)
    | DownloadEnd(msg: Msg)
    // a task is lost: worker crash, task timeout, or an exception that nothing catches
    | Dies(task: Task)
    // a round of the sweep: the query, a message, a row of the commit, or the end of a round that fails,
    // whose messages have been queued all the same
    | SweepBegin(now: Time)
    | SweepQueue(job: JobId)
    | SweepWrite(job: JobId, now: Time)
    | SweepRollback

  predicate InTry(stage: Stage) { stage == Downloading || stage == Compressing || stage == Notifying }

  /** The task a step takes up. */
  function Taken(step: Step): Option<Task> {
    match step
    case Enqueue(msg) => Some(Task(msg, Posting))
    case PreflightMiss(msg) => Some(Task(msg, Queued))
    case PreflightHit(msg, _) => Some(Task(msg, Queued))
    case PreflightDeliver(msg, file, _) => Some(Task(msg, Delivering(file)))
    case PreflightFail(msg, _) => Some(Task(msg, Fetching))
    case PreflightMark(msg, _, _) => Some(Task(msg, Fetching))
    case PreflightEnd(msg, meta) => Some(Task(msg, Chaining(meta)))
    case DownloadStart(msg, _) => Some(Task(msg, DownloadQueued))
    case DownloadRefresh(msg, _) => Some(Task(msg, Downloading))
    case DownloadDone(msg, stage, _, _) => Some(Task(msg, stage))
    case DownloadFail(msg, stage, _) => Some(Task(msg, stage))
    case DownloadEnd(msg) => Some(Task(msg, Notifying))
    case Dies(task) => Some(task)
    case _ => None
  }

  /** When a step can happen. */
  ghost predicate Enabled(s: State, step: Step) {
    && (Taken(step).Some? ==> Taken(step).value in s.tasks)
    && match step
       case Create(job, _, _, quality, _) => job !in s.issued && NoColon(quality)
       case Tap(job, quality) => job in s.jobs && NoColon(quality)
       case PreflightMiss(msg) => IsCacheMiss(s.jobs, CacheText(msg.url, msg.quality))
       case PreflightHit(msg, cached) => IsCacheHit(s.jobs, CacheText(msg.url, msg.quality), cached)
       case DownloadDone(_, stage, _, _) => stage == Downloading || stage == Compressing
       case DownloadFail(_, stage, _) => InTry(stage)
       case SweepBegin(now) => s.round == map[] && StaleRows(s.jobs, now - STALE_AFTER) != map[]
       case SweepQueue(job) => job in s.round && Requeued(s.round[job].row) && !s.round[job].queued
       case SweepWrite(job, _) =>
         job in s.round && job in s.jobs && (Requeued(s.round[job].row) ==> s.round[job].queued)
       case SweepRollback => s.round != map[]
       case _ => true
  }

  /** The file id a finished download stores: that of the last part, or NULL when nothing was uploaded. */
  function LastUpload(msg: Msg, uploads: seq<string>): Option<File> {
    if uploads == [] then None else Some(File(uploads[|uploads| - 1], Key(msg.url, msg.quality)))
  }

  /** The table after a step. */
  ghost function JobsAfter(s: State, step: Step): Table
    requires Enabled(s, step)
  {
    var jobs := s.jobs;
    match step
    case Create(job, user, url, quality, now) => jobs[job := NewJob(user, url, quality, now)]
    case Tap(job, quality) => jobs[job := jobs[job].(formatRequested := Some(quality))]
    case Cancel(job, now) => CancelJob(jobs, job, now)
    case Clear(user) => ClearUserHistory(jobs, user)
    case PreflightDeliver(msg, file, now) => UpdateJobStatus(jobs, msg.job, DONE, NO_COLUMNS.(fileId := Some(Some(file))), now)
    case PreflightFail(msg, now) => UpdateJobStatus(jobs, msg.job, FAILED, NO_COLUMNS, now)
    case PreflightMark(msg, _, now) =>
      UpdateJobStatus(jobs, msg.job, RUNNING, NO_COLUMNS.(urlHash := Some(CacheText(msg.url, msg.quality))), now)
    case DownloadStart(msg, now) => UpdateJobStatus(jobs, msg.job, RUNNING, NO_COLUMNS.(heartbeatAt := Some(now)), now)
    case DownloadRefresh(msg, now) => UpdateJobStatus(jobs, msg.job, RUNNING, NO_COLUMNS.(heartbeatAt := Some(now)), now)
    case DownloadDone(msg, _, uploads, now) =>
      UpdateJobStatus(jobs, msg.job, DONE, NO_COLUMNS.(fileId := Some(LastUpload(msg, uploads))), now)
    case DownloadFail(msg, _, now) => UpdateJobStatus(jobs, msg.job, FAILED, NO_COLUMNS, now)
    case SweepWrite(job, now) => jobs[job := WriteBack(jobs[job], s.round[job].row, now)]
    case _ => jobs
  }

  /** What the round has still to write after a step. */
  ghost function RoundAfter(s: State, step: Step): map<JobId, Seen>
    requires Enabled(s, step)
  {
    match step
    case SweepBegin(now) => Read(s.jobs, now - STALE_AFTER)
    case SweepQueue(job) => s.round[job := s.round[job].(queued := true)]
    case SweepWrite(job, _) => s.round - {job}
    case SweepRollback => map[]
    case _ => s.round
  }

  function Read(jobs: Table, threshold: Time): map<JobId, Seen> {
    var rows := StaleRows(jobs, threshold);
    map job | job in rows :: Seen(rows[job], false)
  }

  function SweepMsg(job: JobId, row: DownloadJob): Msg { Msg(job, row.url, SweepQuality(row)) }

  /** The message that a user's handler or the sweep makes up. */
  ghost function NewMsg(s: State, step: Step): Option<Msg>
    requires Enabled(s, step)
  {
    match step
    case Create(job, _, url, quality, _) => Some(Msg(job, url, quality))
    case Tap(job, quality) => Some(Msg(job, s.jobs[job].url, quality))
    case SweepQueue(job) => Some(SweepMsg(job, s.round[job].row))
    case _ => None
  }

  /** The task a step leaves behind. */
  ghost function Left(s: State, step: Step): Option<Task>
    requires Enabled(s, step)
  {
    match step
    case Enqueue(msg) => Some(Task(msg, Queued))
    case PreflightMiss(msg) => Some(Task(msg, Fetching))
    case PreflightHit(msg, cached) => Some(Task(msg, Delivering(s.jobs[cached].fileId.value)))
    case PreflightMark(msg, meta, _) => Some(Task(msg, Chaining(meta)))
    case PreflightEnd(msg, meta) => if Decide(s.cfg, msg.quality, meta) == Chain then Some(Task(msg, DownloadQueued)) else None
    case DownloadStart(msg, _) => Some(Task(msg, Downloading))
    case DownloadRefresh(msg, _) => Some(Task(msg, Compressing))
    case DownloadDone(msg, _, _, _) => Some(Task(msg, Notifying))
    case _ =>
      var m := NewMsg(s, step);
      if m.Some? then Some(Task(m.value, if step.SweepQueue? then Queued else Posting)) else None
  }

  function Bag(t: Option<Task>): multiset<Task> { if t.Some? then multiset{t.value} else multiset{} }

  ghost function Apply(s: State, step: Step): State
    requires Enabled(s, step)
  {
    State(s.cfg, JobsAfter(s, step),
          if step.Create? then s.issued[step.job := step.url] else s.issued,
          s.tasks - Bag(Taken(step)) + Bag(Left(s, step)),
          RoundAfter(s, step))
  }

  ghost predicate StepTo(s: State, step: Step, s': State) {
    Enabled(s, step) && s' == Apply(s, step)
  }

  lemma TaskFrom(s: State, step: Step, t: Task)
    requires Enabled(s, step) && t in Apply(s, step).tasks
    ensures t in s.tasks || Left(s, step) == Some(t)
  {
    hide Left, Taken, JobsAfter, Enabled;
  }

  /** Workers only pass messages on: what holds of all messages and of a newly queued one goes on holding. */
  lemma EveryMsgKept(s: State, step: Step, p: Msg -> bool)
    requires Enabled(s, step) && EveryMsg(s, p)
    requires NewMsg(s, step).Some? ==> p(NewMsg(s, step).value)
    ensures EveryMsg(Apply(s, step), p)
  {
  }

  /** `p` holds of the message of every queued task and every run. */
  ghost predicate EveryMsg(s: State, p: Msg -> bool) {
    forall t :: t in s.tasks ==> p(t.msg)
  }

  // ------------------------------------------------------------------ runs

  /** A finite behaviour: the states passed through and the steps between them. */
  datatype Run = Run(states: seq<State>, steps: seq<Step>)

  ghost predicate IsRun(r: Run) {
    && |r.states| == |r.steps| + 1
    && forall i :: 0 <= i < |r.steps| ==> StepTo(r.states[i], r.steps[i], r.states[i + 1])
  }

  ghost function Last(r: Run): State
    requires IsRun(r)
  {
    r.states[|r.steps|]
  }

  ghost function Still(s: State): (r: Run)
    ensures IsRun(r) && r.steps == [] && r.states[0] == s && Last(r) == s
  {
    Run([s], [])
  }

  lemma ExtendedIsRun(r: Run, step: Step, next: State)
    requires IsRun(r) && StepTo(Last(r), step, next)
    ensures IsRun(Run(r.states + [next], r.steps + [step]))
  {
    hide StepTo;
    var e := Run(r.states + [next], r.steps + [step]);
    forall i | 0 <= i < |e.steps| ensures StepTo(e.states[i], e.steps[i], e.states[i + 1]) {
      assert i < |r.steps| ==> StepTo(r.states[i], r.steps[i], r.states[i + 1]);
    }
  }

  ghost function Extend(r: Run, step: Step, next: State): (e: Run)
    requires IsRun(r) && StepTo(Last(r), step, next)
    ensures IsRun(e) && e.steps == r.steps + [step] && e.states == r.states + [next]
    ensures Last(e) == next
  {
    hide StepTo;
    ExtendedIsRun(r, step, next);
    Run(r.states + [next], r.steps + [step])
  }

  /** A behaviour of the system: a run from the empty table and the empty queues. */
  ghost predicate IsBehaviour(r: Run) {
    IsRun(r) && r.states[0] == Init(r.states[0].cfg)
  }

  /** Steps that only users take. */
  predicate IsInput(step: Step) { step.Create? || step.Tap? || step.Cancel? || step.Clear? }

  /** Steps in which the system goes on with its work: those of the workers, and of a sweep that does not fail. */
  predicate IsPipelineStep(step: Step) { !IsInput(step) && !step.SweepRollback? }
}
