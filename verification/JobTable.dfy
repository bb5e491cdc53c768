/**
 The download_jobs table and the statements that change it (database/models.py, database/crud.py),
 as functions from table to table.
 */
module JobTable {
  import opened Wrappers

  type JobId = string
  type UserId = string
  type Time = int  // whole seconds

  /** What a user asked for: the two inputs of the cache hash. */
  datatype Key = Key(url: string, quality: string)

  /**
   A Telegram file id. `origin` is the request whose download produced the file; it is carried along for
   the theorems and no step ever reads it to decide anything.
   */
  datatype File = File(id: string, origin: Key)

  datatype JobStatus = PENDING | RUNNING | DONE | FAILED | CANCELLED

  datatype DownloadJob = DownloadJob(
    userId: UserId,
    url: string,
    urlHash: Option<string>,
    fileId: Option<File>,
    status: JobStatus,
    heartbeatAt: Option<Time>,
    retryCount: nat,
    formatRequested: Option<string>,
    createdAt: Time,
    startedAt: Option<Time>,
    completedAt: Option<Time>)
  {
    /** PENDING or RUNNING: what /cancel may act on. */
    predicate Active() { status == PENDING || status == RUNNING }
  }

  type Table = map<JobId, DownloadJob>

  /** The extra columns an update_job_status call names; None is a column it leaves out. */
  datatype Columns = Columns(urlHash: Option<string>, heartbeatAt: Option<Time>, fileId: Option<Option<File>>)

  const NO_COLUMNS := Columns(None, None, None)
  const MAX_RECOVERIES := 3
  const STALE_AFTER := 300

  /** The text whose SHA-256 is the cache key. The digest is taken to be injective, so it is its text. */
  function CacheText(url: string, quality: string): string { url + ":" + quality }

  function NewJob(user: UserId, url: string, quality: string, now: Time): DownloadJob {
    DownloadJob(user, url, None, None, PENDING, None, 0, Some(quality), now, None, None)
  }

  function UpdateRow(row: DownloadJob, status: JobStatus, columns: Columns, now: Time): DownloadJob {
    row.(status := status,
         urlHash := if columns.urlHash.Some? then columns.urlHash else row.urlHash,
         heartbeatAt := if columns.heartbeatAt.Some? then columns.heartbeatAt else row.heartbeatAt,
         fileId := if columns.fileId.Some? then columns.fileId.value else row.fileId,
         startedAt := if status == RUNNING then Some(now) else row.startedAt,
         completedAt := if status in {DONE, FAILED, CANCELLED} then Some(now) else row.completedAt)
  }

  /** The unconditional UPDATE ... WHERE id = job: a row that is gone stays gone. */
  function UpdateJobStatus(jobs: Table, job: JobId, status: JobStatus, columns: Columns, now: Time): Table {
    if job in jobs then jobs[job := UpdateRow(jobs[job], status, columns, now)] else jobs
  }

  /** The conditional UPDATE of /cancel. */
  function CancelJob(jobs: Table, job: JobId, now: Time): Table {
    if job in jobs && jobs[job].Active()
    then jobs[job := jobs[job].(status := CANCELLED, completedAt := Some(now))]
    else jobs
  }

  function ClearUserHistory(jobs: Table, user: UserId): Table {
    map job | job in jobs && jobs[job].userId != user :: jobs[job]
  }

  /** WHERE status = RUNNING AND heartbeat_at < threshold: a NULL heartbeat never matches. */
  predicate Stale(row: DownloadJob, threshold: Time) {
    row.status == RUNNING && row.heartbeatAt.Some? && row.heartbeatAt.value < threshold
  }

  /** The rows that the query of the sweep finds. */
  function StaleRows(jobs: Table, threshold: Time): Table {
    map job | job in jobs && Stale(jobs[job], threshold) :: jobs[job]
  }

  /**
   What the sweep writes to a row that it read as `seen`: the columns it assigned, and no others. Giving up
   leaves completed_at alone.
   */
  function WriteBack(row: DownloadJob, seen: DownloadJob, now: Time): DownloadJob {
    row.(heartbeatAt := Some(now),
         retryCount := seen.retryCount + 1,
         status := if seen.retryCount + 1 > MAX_RECOVERIES then FAILED else row.status)
  }

  predicate Requeued(seen: DownloadJob) { seen.retryCount + 1 <= MAX_RECOVERIES }

  /** format_requested or "720". */
  function SweepQuality(row: DownloadJob): string {
    if row.formatRequested.None? || row.formatRequested.value == "" then "720" else row.formatRequested.value
  }

  predicate CacheMatch(row: DownloadJob, hash: string) {
    row.urlHash == Some(hash) && row.status == DONE && row.fileId.Some?
  }

  /** ORDER BY column DESC, where SQL puts NULL first. */
  predicate NotLater(a: Option<Time>, b: Option<Time>) {
    b.None? || (a.Some? && a.value <= b.value)
  }

  /** A row that the cache query may return: a match than which no other match completed later. */
  ghost predicate IsCacheHit(jobs: Table, hash: string, job: JobId) {
    && job in jobs
    && CacheMatch(jobs[job], hash)
    && forall k :: k in jobs && CacheMatch(jobs[k], hash) ==> NotLater(jobs[k].completedAt, jobs[job].completedAt)
  }

  ghost predicate IsCacheMiss(jobs: Table, hash: string) {
    forall k :: k in jobs ==> !CacheMatch(jobs[k], hash)
  }
}
