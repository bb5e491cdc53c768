/**
 The job table and the task queues as mutable state, with the procedures that act on them. Each procedure is
 one run of the step system of Pipeline, given back as a ghost value.
 */
module PipelineMachine {
  import opened Wrappers
  import opened Text
  import opened Formats
  import opened JobTable
  import opened Pipeline
  import opened Steps
  import opened AtRest

  class Bot {
    const cfg: Config
    var jobs: Table
    var tasks: multiset<Task>
    var round: map<JobId, Seen>
    ghost var issued: map<JobId, string>

    constructor (cfg: Config)
      ensures this.cfg == cfg && Now() == Init(cfg)
    {
      this.cfg := cfg;
      jobs, tasks, round, issued := map[], multiset{}, map[], map[];
    }

    ghost function Now(): State
      reads this
    {
      State(cfg, jobs, issued, tasks, round)
    }

    // ---------------------------------------------------------------- database/crud.py

    method UpdateStatus(job: JobId, status: JobStatus, columns: Columns, now: Time)
      modifies this`jobs
      ensures jobs == UpdateJobStatus(old(jobs), job, status, columns, now)
      ensures job !in old(jobs) ==> jobs == old(jobs)
      ensures job in old(jobs) ==>
                var was := old(jobs)[job];
                jobs == old(jobs)[job := was.(
                  status := status,
                  urlHash := if columns.urlHash.Some? then columns.urlHash else was.urlHash,
                  heartbeatAt := if columns.heartbeatAt.Some? then columns.heartbeatAt else was.heartbeatAt,
                  fileId := if columns.fileId.Some? then columns.fileId.value else was.fileId,
                  startedAt := if status == RUNNING then Some(now) else was.startedAt,
                  completedAt := if status == DONE || status == FAILED || status == CANCELLED then Some(now)
                                 else was.completedAt)]
    {
      if job in jobs {
        var row := jobs[job].(status := status);
        if columns.urlHash.Some? { row := row.(urlHash := columns.urlHash); }
        if columns.heartbeatAt.Some? { row := row.(heartbeatAt := columns.heartbeatAt); }
        if columns.fileId.Some? { row := row.(fileId := columns.fileId.value); }
        if status == RUNNING {
          row := row.(startedAt := Some(now));
        } else if status == DONE || status == FAILED || status == CANCELLED {
          row := row.(completedAt := Some(now));
        }
        jobs := jobs[job := row];
      }
    }

    method Cancel(job: JobId, now: Time) returns (success: bool)
      modifies this`jobs
      ensures jobs == CancelJob(old(jobs), job, now)
      ensures success <==> job in old(jobs) && (old(jobs)[job].status == PENDING || old(jobs)[job].status == RUNNING)
      ensures jobs == if success then old(jobs)[job := old(jobs)[job].(status := CANCELLED, completedAt := Some(now))]
                      else old(jobs)
    {
      success := job in jobs && (jobs[job].status == PENDING || jobs[job].status == RUNNING);
      if success {
        jobs := jobs[job := jobs[job].(status := CANCELLED, completedAt := Some(now))];
      }
    }

    method GetActiveJobByUser(user: UserId) returns (job: Option<JobId>)
      ensures job.Some? ==>
                && job.value in jobs && jobs[job.value].userId == user
                && (jobs[job.value].status == PENDING || jobs[job.value].status == RUNNING)
                && forall k :: k in jobs && jobs[k].userId == user ==>
                     jobs[k].status == PENDING || jobs[k].status == RUNNING ==> jobs[k].createdAt <= jobs[job.value].createdAt
      ensures job.None? <==> forall k :: k in jobs && jobs[k].userId == user ==>
                                jobs[k].status != PENDING && jobs[k].status != RUNNING
    {
      job := None;
      var rest := jobs.Keys;
      while rest != {}
        invariant rest <= jobs.Keys
        invariant forall k :: k in jobs && k !in rest && jobs[k].userId == user ==>
                    jobs[k].status == PENDING || jobs[k].status == RUNNING ==>
                      job.Some? && job.value in jobs && jobs[k].createdAt <= jobs[job.value].createdAt
        invariant job.Some? ==> job.value in jobs && jobs[job.value].userId == user
                                && (jobs[job.value].status == PENDING || jobs[job.value].status == RUNNING)
        decreases rest
      {
        var k :| k in rest;
        rest := rest - {k};
        if jobs[k].userId == user && (jobs[k].status == PENDING || jobs[k].status == RUNNING)
           && (job.None? || jobs[job.value].createdAt < jobs[k].createdAt) {
          job := Some(k);
        }
      }
    }

    method ClearHistory(user: UserId)
      modifies this`jobs
      ensures StepTo(old(Now()), Clear(user), Now())
      ensures forall k :: k in jobs <==> k in old(jobs) && old(jobs)[k].userId != user
      ensures forall k :: k in jobs ==> jobs[k] == old(jobs)[k]
    {
      ClearStep(Now(), user);
      hide StepTo;
      jobs := map job | job in jobs && jobs[job].userId != user :: jobs[job];
    }

    // ---------------------------------------------------------------- handlers

    /** The row of a new job, committed before the user is answered. */
    method CreateJob(job: JobId, user: UserId, url: string, quality: string, now: Time)
      requires job !in issued && NoColon(quality)
      modifies this`jobs, this`tasks, this`issued
      ensures StepTo(old(Now()), Create(job, user, url, quality, now), Now())
      ensures jobs == old(jobs)[job := DownloadJob(user, url, None, None, PENDING, None, 0, Some(quality), now, None, None)]
      ensures tasks == old(tasks) + multiset{Task(Msg(job, url, quality), Posting)}
    {
      CreateStep(Now(), job, user, url, quality, now);
      hide StepTo, NoColon;
      var row := DownloadJob(user, url, None, None, PENDING, None, 0, Some(quality), now, None, None);
      assert row == NewJob(user, url, quality, now);
      hide NewJob;
      jobs := jobs[job := row];
      issued := issued[job := url];
      tasks := tasks + multiset{Task(Msg(job, url, quality), Posting)};
    }

    /** The rest of a handler: the message is queued, or an exception on the way there ends the handler. */
    method Post(msg: Msg, sent: bool, ghost before: Run) returns (ghost r: Run)
      requires Task(msg, Posting) in tasks && IsRun(before) && Last(before) == Now()
      modifies this`tasks
      ensures IsRun(r) && r.states[0] == before.states[0] && Last(r) == Now()
      ensures r.steps == before.steps + [if sent then Enqueue(msg) else Dies(Task(msg, Posting))]
      ensures tasks == old(tasks) - multiset{Task(msg, Posting)} + if sent then multiset{Task(msg, Queued)} else multiset{}
    {
      PostStep(Now(), msg, sent);
      hide StepTo;
      Move(msg, Posting, if sent then Some(Queued) else None);
      r := Extend(before, if sent then Enqueue(msg) else Dies(Task(msg, Posting)), Now());
    }

    /** _process_download: the new job starts at "best" for a YouTube link and at the user's setting otherwise. */
    method ProcessDownload(job: JobId, user: UserId, url: string, isYoutube: bool, setting: string, now: Time, sent: bool)
      returns (ghost r: Run)
      requires job !in issued && NoColon(setting)
      modifies this`jobs, this`tasks, this`issued
      ensures IsRun(r) && r.states[0] == old(Now()) && Last(r) == Now()
      ensures var m := Msg(job, url, if isYoutube then "best" else setting);
              && r.steps == [Create(job, user, url, m.quality, now), if sent then Enqueue(m) else Dies(Task(m, Posting))]
              && jobs == old(jobs)[job := DownloadJob(user, url, None, None, PENDING, None, 0, Some(m.quality), now, None, None)]
              && tasks == old(tasks) + if sent then multiset{Task(m, Queued)} else multiset{}
    {
      hide StepTo, NoColon;
      var quality := if isYoutube then "best" else setting;
      BestIsPlain();
      CreateJob(job, user, url, quality, now);
      r := Extend(Still(old(Now())), Create(job, user, url, quality, now), Now());
      r := Post(Msg(job, url, quality), sent, r);
    }

    method ChooseQuality(job: JobId, quality: string)
      requires job in jobs && NoColon(quality)
      modifies this`jobs, this`tasks
      ensures StepTo(old(Now()), Tap(job, quality), Now())
      ensures jobs == old(jobs)[job := old(jobs)[job].(formatRequested := Some(quality))]
      ensures tasks == old(tasks) + multiset{Task(Msg(job, old(jobs)[job].url, quality), Posting)}
    {
      TapStep(Now(), job, quality);
      hide StepTo;
      jobs := jobs[job := jobs[job].(formatRequested := Some(quality))];
      tasks := tasks + multiset{Task(Msg(job, jobs[job].url, quality), Posting)};
    }

    /**
     handle_quality_selection, from the raw callback data. `edited` is whether the message edit succeeds, and
     `parse` is uuid.UUID, None where it raises.
     */
    method HandleQualitySelection(data: string, edited: bool, parse: string -> Option<JobId>, sent: bool)
      returns (ghost r: Run)
      modifies this`jobs, this`tasks
      ensures IsRun(r) && r.states[0] == old(Now()) && Last(r) == Now()
      ensures var parts := Split(data);
              if |parts| >= 3 && edited && parse(parts[1]).Some? && parse(parts[1]).value in old(jobs) then
                var job := parse(parts[1]).value;
                var m := Msg(job, old(jobs)[job].url, parts[2]);
                && r.steps == [Tap(job, parts[2]), if sent then Enqueue(m) else Dies(Task(m, Posting))]
                && jobs == old(jobs)[job := old(jobs)[job].(formatRequested := Some(parts[2]))]
                && tasks == old(tasks) + if sent then multiset{Task(m, Queued)} else multiset{}
              else r.steps == [] && Now() == old(Now())
    {
      hide StepTo;
      var parts := Split(data);
      r := Still(Now());
      if |parts| < 3 { return; }
      if !edited { return; }
      var job, quality := parse(parts[1]), parts[2];
      if job.None? || job.value !in jobs { return; }
      var url := jobs[job.value].url;
      ChooseQuality(job.value, quality);
      r := Extend(r, Tap(job.value, quality), Now());
      r := Post(Msg(job.value, url, quality), sent, r);
    }

    /** cancel_command: cancels a newest active job of the user, and nothing else. */
    method CancelCommand(user: UserId, now: Time) returns (cancelled: Option<JobId>)
      modifies this`jobs
      ensures cancelled.Some? ==>
                var job := cancelled.value;
                && job in old(jobs) && old(jobs)[job].userId == user
                && (old(jobs)[job].status == PENDING || old(jobs)[job].status == RUNNING)
                && (forall k :: k in old(jobs) && old(jobs)[k].userId == user ==>
                      old(jobs)[k].status == PENDING || old(jobs)[k].status == RUNNING ==>
                        old(jobs)[k].createdAt <= old(jobs)[job].createdAt)
                && StepTo(old(Now()), Step.Cancel(job, now), Now())
                && jobs == old(jobs)[job := old(jobs)[job].(status := CANCELLED, completedAt := Some(now))]
      ensures cancelled.None? ==> Now() == old(Now())
      ensures cancelled.None? <==> forall k :: k in old(jobs) && old(jobs)[k].userId == user ==>
                                      old(jobs)[k].status != PENDING && old(jobs)[k].status != RUNNING
    {
      hide StepTo;
      cancelled := GetActiveJobByUser(user);
      if cancelled.Some? {
        CancelStep(Now(), cancelled.value, now);
        var success := Cancel(cancelled.value, now);
      }
    }

    // ---------------------------------------------------------------- the atomic acts of the workers

    method Move(msg: Msg, from: Stage, to: Option<Stage>)
      requires Task(msg, from) in tasks
      modifies this`tasks
      ensures tasks == old(tasks) - multiset{Task(msg, from)} + Bag(if to.Some? then Some(Task(msg, to.value)) else None)
    {
      tasks := tasks - multiset{Task(msg, from)};
      if to.Some? { tasks := tasks + multiset{Task(msg, to.value)}; }
    }

    /** SELECT ... ORDER BY completed_at DESC LIMIT 1. */
    method FindCached(hash: string) returns (best: Option<JobId>)
      ensures best.Some? ==> IsCacheHit(jobs, hash, best.value)
      ensures best.None? ==> IsCacheMiss(jobs, hash)
      ensures if best.Some? then IsLatest(jobs, hash, best.value) else NoneDone(jobs, hash)
    {
      hide IsLatest, NoneDone;
      best := None;
      var rest := jobs.Keys;
      while rest != {}
        invariant rest <= jobs.Keys
        invariant best.Some? ==> best.value in jobs && CacheMatch(jobs[best.value], hash)
        invariant forall k :: k in jobs && k !in rest && CacheMatch(jobs[k], hash) ==>
                    best.Some? && NotLater(jobs[k].completedAt, jobs[best.value].completedAt)
        decreases rest
      {
        var k :| k in rest;
        rest := rest - {k};
        if CacheMatch(jobs[k], hash) && (best.None? || NotLater(jobs[best.value].completedAt, jobs[k].completedAt)) {
          best := Some(k);
        }
      }
      if best.Some? { HitIsLatest(jobs, hash, best.value); } else { MissIsNone(jobs, hash); }
    }

    /** The cache query of preflight, on delivery of the message. */
    method Lookup(msg: Msg) returns (file: Option<File>, ghost step: Step)
      requires Task(msg, Queued) in tasks
      modifies this`tasks
      ensures StepTo(old(Now()), step, Now())
      ensures file.None? ==> step == PreflightMiss(msg) && tasks == old(tasks) - multiset{Task(msg, Queued)} + multiset{Task(msg, Fetching)}
      ensures file.Some? ==> step.PreflightHit? && step.msg == msg && step.cached in jobs && jobs[step.cached].fileId == file
                             && tasks == old(tasks) - multiset{Task(msg, Queued)} + multiset{Task(msg, Delivering(file.value))}
      ensures if file.Some? then IsLatest(jobs, msg.url + ":" + msg.quality, step.cached)
              else NoneDone(jobs, msg.url + ":" + msg.quality)
    {
      CacheTextIs(msg.url, msg.quality);
      hide CacheText, StepTo, IsCacheHit, IsCacheMiss, IsLatest, NoneDone;
      var best := FindCached(CacheText(msg.url, msg.quality));
      if best.Some? {
        step := PreflightHit(msg, best.value);
        file := TakeHit(msg, best.value);
      } else {
        file := None;
        step := PreflightMiss(msg);
        MissStep(Now(), msg);
        Move(msg, Queued, Some(Fetching));
      }
    }

    method TakeHit(msg: Msg, cached: JobId) returns (file: Option<File>)
      requires Task(msg, Queued) in tasks && IsCacheHit(jobs, CacheText(msg.url, msg.quality), cached)
      modifies this`tasks
      ensures StepTo(old(Now()), PreflightHit(msg, cached), Now())
      ensures file.Some? && cached in jobs && jobs[cached].fileId == file
      ensures tasks == old(tasks) - multiset{Task(msg, Queued)} + multiset{Task(msg, Delivering(file.value))}
    {
      HitStep(Now(), msg, cached);
      hide CacheText, StepTo;
      file := jobs[cached].fileId;
      Move(msg, Queued, Some(Delivering(file.value)));
    }

    method Close(msg: Msg, file: File, now: Time)
      requires Task(msg, Delivering(file)) in tasks
      modifies this`jobs, this`tasks
      ensures StepTo(old(Now()), PreflightDeliver(msg, file, now), Now())
      ensures msg.job !in old(jobs) ==> jobs == old(jobs)
      ensures msg.job in old(jobs) ==> jobs == old(jobs)[msg.job := old(jobs)[msg.job].(status := DONE, fileId := Some(file), completedAt := Some(now))]
      ensures tasks == old(tasks) - multiset{Task(msg, Delivering(file))}
    {
      hide StepTo, UpdateJobStatus;
      DeliverStep(Now(), msg, file, now);
      UpdateStatus(msg.job, DONE, NO_COLUMNS.(fileId := Some(Some(file))), now);
      Move(msg, Delivering(file), None);
    }

    method FailPreflight(msg: Msg, now: Time)
      requires Task(msg, Fetching) in tasks
      modifies this`jobs, this`tasks
      ensures StepTo(old(Now()), PreflightFail(msg, now), Now())
      ensures msg.job !in old(jobs) ==> jobs == old(jobs)
      ensures msg.job in old(jobs) ==> jobs == old(jobs)[msg.job := old(jobs)[msg.job].(status := FAILED, completedAt := Some(now))]
      ensures tasks == old(tasks) - multiset{Task(msg, Fetching)}
    {
      hide StepTo, UpdateJobStatus;
      FailPreflightStep(Now(), msg, now);
      UpdateStatus(msg.job, FAILED, NO_COLUMNS, now);
      Move(msg, Fetching, None);
    }

    method Mark(msg: Msg, meta: Metadata, now: Time)
      requires Task(msg, Fetching) in tasks
      modifies this`jobs, this`tasks
      ensures StepTo(old(Now()), PreflightMark(msg, meta, now), Now())
      ensures msg.job !in old(jobs) ==> jobs == old(jobs)
      ensures msg.job in old(jobs) ==> jobs == old(jobs)[msg.job := old(jobs)[msg.job].(status := RUNNING, urlHash := Some(msg.url + ":" + msg.quality), startedAt := Some(now))]
      ensures tasks == old(tasks) - multiset{Task(msg, Fetching)} + multiset{Task(msg, Chaining(meta))}
    {
      hide StepTo, UpdateJobStatus, CacheText;
      CacheTextIs(msg.url, msg.quality);
      MarkStep(Now(), msg, meta, now);
      UpdateStatus(msg.job, RUNNING, NO_COLUMNS.(urlHash := Some(CacheText(msg.url, msg.quality))), now);
      Move(msg, Fetching, Some(Chaining(meta)));
    }

    /** The quality menu, the large-file question, or the download. The rows of buttons are empty but for the menu. */
    method EndPreflight(msg: Msg, meta: Metadata) returns (outcome: Outcome, menu: seq<seq<Button>>)
      requires Task(msg, Chaining(meta)) in tasks
      modifies this`tasks
      ensures StepTo(old(Now()), PreflightEnd(msg, meta), Now())
      ensures forall c :: IsRightChoice(meta.formats, msg.quality, cfg.maxSizeMb * 1_048_576, c) ==>
                IsRightOutcome(cfg, msg.quality, meta, c, outcome)
      ensures outcome == ShowMenu <==> meta.isYoutube && msg.quality == "best"
      ensures if outcome == ShowMenu then IsMenu(meta.formats, Flatten(menu)) else menu == []
      ensures tasks == old(tasks) - multiset{Task(msg, Chaining(meta))}
                       + if outcome == Chain then multiset{Task(msg, DownloadQueued)} else multiset{}
    {
      hide IsMenu, StepTo, Flatten;
      menu := [];
      if meta.isYoutube && msg.quality == "best" {
        outcome := ShowMenu;
        menu := BuildQualityMenu(meta.formats);
      } else {
        outcome := SizeCheck(msg.quality, meta);
      }
      RightOutcome(cfg, msg.quality, meta);
      EndStep(Now(), msg, meta);
      assert outcome == Decide(cfg, msg.quality, meta);
      hide Decide, IsRightChoice, IsRightOutcome;
      Move(msg, Chaining(meta), if outcome == Chain then Some(DownloadQueued) else None);
    }

    method SizeCheck(quality: string, meta: Metadata) returns (outcome: Outcome)
      requires !(meta.isYoutube && quality == "best")
      ensures outcome == Decide(cfg, quality, meta)
      ensures forall c :: IsRightChoice(meta.formats, quality, cfg.maxSizeMb * 1_048_576, c) ==>
                IsRightOutcome(cfg, quality, meta, c, outcome)
    {
      RightOutcome(cfg, quality, meta);
      hide IsRightChoice, IsRightOutcome;
      var choice := SelectBestFormat(meta.formats, quality, cfg.maxSizeMb);
      if choice.IndexError? { return Raise; }
      var size := if choice.Chosen? && choice.format.filesize.Some? then choice.format.filesize.value else 0;
      var warn := false;
      if !cfg.localApi && size > cfg.warnMb * 1024 * 1024 {
        warn := true;
      } else if cfg.localApi && size > 2000 * 1024 * 1024 {
        warn := true;
      }
      outcome := if warn then WarnLargeFile else Chain;
    }

    method StartDownload(msg: Msg, now: Time)
      requires Task(msg, DownloadQueued) in tasks
      modifies this`jobs, this`tasks
      ensures StepTo(old(Now()), DownloadStart(msg, now), Now())
      ensures msg.job !in old(jobs) ==> jobs == old(jobs)
      ensures msg.job in old(jobs) ==> jobs == old(jobs)[msg.job := old(jobs)[msg.job].(status := RUNNING, heartbeatAt := Some(now), startedAt := Some(now))]
      ensures tasks == old(tasks) - multiset{Task(msg, DownloadQueued)} + multiset{Task(msg, Downloading)}
    {
      hide StepTo, UpdateJobStatus;
      StartStep(Now(), msg, now);
      UpdateStatus(msg.job, RUNNING, NO_COLUMNS.(heartbeatAt := Some(now)), now);
      Move(msg, DownloadQueued, Some(Downloading));
    }

    method RefreshHeartbeat(msg: Msg, now: Time)
      requires Task(msg, Downloading) in tasks
      modifies this`jobs, this`tasks
      ensures StepTo(old(Now()), DownloadRefresh(msg, now), Now())
      ensures msg.job !in old(jobs) ==> jobs == old(jobs)
      ensures msg.job in old(jobs) ==> jobs == old(jobs)[msg.job := old(jobs)[msg.job].(status := RUNNING, heartbeatAt := Some(now), startedAt := Some(now))]
      ensures tasks == old(tasks) - multiset{Task(msg, Downloading)} + multiset{Task(msg, Compressing)}
    {
      hide StepTo, UpdateJobStatus;
      RefreshStep(Now(), msg, now);
      UpdateStatus(msg.job, RUNNING, NO_COLUMNS.(heartbeatAt := Some(now)), now);
      Move(msg, Downloading, Some(Compressing));
    }

    method FinishDownload(msg: Msg, stage: Stage, uploads: seq<string>, lastFileId: Option<string>, now: Time)
      requires Task(msg, stage) in tasks && (stage == Downloading || stage == Compressing)
      requires lastFileId == if uploads == [] then None else Some(uploads[|uploads| - 1])
      modifies this`jobs, this`tasks
      ensures StepTo(old(Now()), DownloadDone(msg, stage, uploads, now), Now())
      ensures var file := if uploads == [] then None else Some(File(uploads[|uploads| - 1], Key(msg.url, msg.quality)));
              && (msg.job !in old(jobs) ==> jobs == old(jobs))
              && (msg.job in old(jobs) ==>
                    jobs == old(jobs)[msg.job := old(jobs)[msg.job].(status := DONE, fileId := file, completedAt := Some(now))])
      ensures tasks == old(tasks) - multiset{Task(msg, stage)} + multiset{Task(msg, Notifying)}
    {
      hide StepTo, UpdateJobStatus, LastUpload;
      DoneStep(Now(), msg, stage, uploads, now);
      LastUploadOf(msg, uploads, lastFileId);
      var file := if lastFileId.Some? then Some(File(lastFileId.value, Key(msg.url, msg.quality))) else None;
      UpdateStatus(msg.job, DONE, NO_COLUMNS.(fileId := Some(file)), now);
      Move(msg, stage, Some(Notifying));
    }

    method FailDownload(msg: Msg, stage: Stage, now: Time)
      requires Task(msg, stage) in tasks && InTry(stage)
      modifies this`jobs, this`tasks
      ensures StepTo(old(Now()), DownloadFail(msg, stage, now), Now())
      ensures msg.job !in old(jobs) ==> jobs == old(jobs)
      ensures msg.job in old(jobs) ==> jobs == old(jobs)[msg.job := old(jobs)[msg.job].(status := FAILED, completedAt := Some(now))]
      ensures tasks == old(tasks) - multiset{Task(msg, stage)}
    {
      hide StepTo, UpdateJobStatus;
      FailStep(Now(), msg, stage, now);
      UpdateStatus(msg.job, FAILED, NO_COLUMNS, now);
      Move(msg, stage, None);
    }

    method EndDownload(msg: Msg)
      requires Task(msg, Notifying) in tasks
      modifies this`tasks
      ensures StepTo(old(Now()), DownloadEnd(msg), Now())
      ensures tasks == old(tasks) - multiset{Task(msg, Notifying)}
    {
      EndDownloadStep(Now(), msg);
      hide StepTo;
      Move(msg, Notifying, None);
    }

    // ---------------------------------------------------------------- the task procedures, undisturbed

    /**
     preflight_task. `fetched` is what the metadata extraction gives, None for any of its errors. `hit` is the row
     that the cache serves from: the match completed last, and None exactly when there is no match.
     */
    method PreflightTask(msg: Msg, fetched: Option<Metadata>, now: Time)
      returns (outcome: Option<Outcome>, menu: seq<seq<Button>>, ghost hit: Option<JobId>, ghost r: Run)
      requires Task(msg, Queued) in tasks
      modifies this`jobs, this`tasks
      ensures if hit.Some? then IsLatest(old(jobs), msg.url + ":" + msg.quality, hit.value)
              else NoneDone(old(jobs), msg.url + ":" + msg.quality)
      ensures hit.Some? ==> hit.value in old(jobs) && old(jobs)[hit.value].fileId.Some?
      ensures IsRun(r) && r.states[0] == old(Now()) && Last(r) == Now()
      ensures r.steps == if hit.Some?
                         then [PreflightHit(msg, hit.value)] + [PreflightDeliver(msg, old(jobs)[hit.value].fileId.value, now)]
                         else [PreflightMiss(msg)] + if fetched.None? then [PreflightFail(msg, now)]
                                                     else [PreflightMark(msg, fetched.value, now), PreflightEnd(msg, fetched.value)]
      // the row afterwards
      ensures msg.job !in old(jobs) ==> jobs == old(jobs)
      ensures msg.job in old(jobs) ==>
                var was := old(jobs)[msg.job];
                jobs == old(jobs)[msg.job :=
                  if hit.Some? then was.(status := DONE, fileId := old(jobs)[hit.value].fileId, completedAt := Some(now))
                  else if fetched.None? then was.(status := FAILED, completedAt := Some(now))
                  else was.(status := RUNNING, urlHash := Some(msg.url + ":" + msg.quality), startedAt := Some(now))]
      // the outcome, the menu and what is left of the task
      ensures outcome.Some? <==> hit.None? && fetched.Some?
      ensures outcome.Some? ==> forall c :: IsRightChoice(fetched.value.formats, msg.quality, cfg.maxSizeMb * 1_048_576, c) ==>
                IsRightOutcome(cfg, msg.quality, fetched.value, c, outcome.value)
      ensures if outcome == Some(ShowMenu) then IsMenu(fetched.value.formats, Flatten(menu)) else menu == []
      ensures tasks == old(tasks) - multiset{Task(msg, Queued)}
                       + if outcome == Some(Chain) then multiset{Task(msg, DownloadQueued)} else multiset{}
    {
      hide StepTo, IsRun, Last, IsMenu, Flatten, IsLatest, NoneDone, IsRightChoice, IsRightOutcome;
      menu, outcome := [], None;
      var file, first := Lookup(msg);
      r := Start(old(Now()), first, Now());
      if file.Some? {
        hit := Some(first.cached);
        r := Serve(msg, file.value, now, r);
        MovesTwice(old(tasks), Task(msg, Queued), Task(msg, Delivering(file.value)), multiset{});
      } else {
        hit := None;
        outcome, menu, r := AfterMiss(msg, fetched, now, r);
        MovesTwice(old(tasks), Task(msg, Queued), Task(msg, Fetching),
                   if outcome == Some(Chain) then multiset{Task(msg, DownloadQueued)} else multiset{});
      }
    }

    /** preflight_task after a cache miss. */
    method AfterMiss(msg: Msg, fetched: Option<Metadata>, now: Time, ghost before: Run)
      returns (outcome: Option<Outcome>, menu: seq<seq<Button>>, ghost r: Run)
      requires Task(msg, Fetching) in tasks && IsRun(before) && Last(before) == Now()
      modifies this`jobs, this`tasks
      ensures IsRun(r) && r.states[0] == before.states[0] && Last(r) == Now()
      ensures r.steps == before.steps + if fetched.None? then [PreflightFail(msg, now)]
                                        else [PreflightMark(msg, fetched.value, now), PreflightEnd(msg, fetched.value)]
      ensures msg.job !in old(jobs) ==> jobs == old(jobs)
      ensures msg.job in old(jobs) ==>
                var was := old(jobs)[msg.job];
                jobs == old(jobs)[msg.job :=
                  if fetched.None? then was.(status := FAILED, completedAt := Some(now))
                  else was.(status := RUNNING, urlHash := Some(msg.url + ":" + msg.quality), startedAt := Some(now))]
      ensures outcome.Some? <==> fetched.Some?
      ensures outcome.Some? ==> forall c :: IsRightChoice(fetched.value.formats, msg.quality, cfg.maxSizeMb * 1_048_576, c) ==>
                IsRightOutcome(cfg, msg.quality, fetched.value, c, outcome.value)
      ensures if outcome == Some(ShowMenu) then IsMenu(fetched.value.formats, Flatten(menu)) else menu == []
      ensures tasks == old(tasks) - multiset{Task(msg, Fetching)}
                       + if outcome == Some(Chain) then multiset{Task(msg, DownloadQueued)} else multiset{}
    {
      hide StepTo, IsRun, Last, IsMenu, Flatten, IsRightChoice, IsRightOutcome;
      menu, outcome := [], None;
      if fetched.None? {
        r := GiveUp(msg, now, before);
        MovesTwice(old(tasks), Task(msg, Fetching), Task(msg, Fetching), multiset{});
      } else {
        var o;
        o, menu, r := Prepare(msg, fetched.value, now, before);
        outcome := Some(o);
      }
    }

    method Serve(msg: Msg, file: File, now: Time, ghost before: Run) returns (ghost r: Run)
      requires Task(msg, Delivering(file)) in tasks && IsRun(before) && Last(before) == Now()
      modifies this`jobs, this`tasks
      ensures IsRun(r) && r.states[0] == before.states[0] && Last(r) == Now()
      ensures r.steps == before.steps + [PreflightDeliver(msg, file, now)]
      ensures msg.job !in old(jobs) ==> jobs == old(jobs)
      ensures msg.job in old(jobs) ==>
                jobs == old(jobs)[msg.job := old(jobs)[msg.job].(status := DONE, fileId := Some(file), completedAt := Some(now))]
      ensures tasks == old(tasks) - multiset{Task(msg, Delivering(file))}
    {
      hide StepTo;
      Close(msg, file, now);
      r := Extend(before, PreflightDeliver(msg, file, now), Now());
    }

    method GiveUp(msg: Msg, now: Time, ghost before: Run) returns (ghost r: Run)
      requires Task(msg, Fetching) in tasks && IsRun(before) && Last(before) == Now()
      modifies this`jobs, this`tasks
      ensures IsRun(r) && r.states[0] == before.states[0] && Last(r) == Now()
      ensures r.steps == before.steps + [PreflightFail(msg, now)]
      ensures msg.job !in old(jobs) ==> jobs == old(jobs)
      ensures msg.job in old(jobs) ==>
                jobs == old(jobs)[msg.job := old(jobs)[msg.job].(status := FAILED, completedAt := Some(now))]
      ensures tasks == old(tasks) - multiset{Task(msg, Fetching)}
    {
      hide StepTo;
      FailPreflight(msg, now);
      r := Extend(before, PreflightFail(msg, now), Now());
    }

    /** preflight_task once the metadata is there. */
    method Prepare(msg: Msg, meta: Metadata, now: Time, ghost before: Run)
      returns (outcome: Outcome, menu: seq<seq<Button>>, ghost r: Run)
      requires Task(msg, Fetching) in tasks && IsRun(before) && Last(before) == Now()
      modifies this`jobs, this`tasks
      ensures IsRun(r) && r.states[0] == before.states[0] && Last(r) == Now()
      ensures r.steps == before.steps + [PreflightMark(msg, meta, now), PreflightEnd(msg, meta)]
      ensures msg.job !in old(jobs) ==> jobs == old(jobs)
      ensures msg.job in old(jobs) ==>
                jobs == old(jobs)[msg.job := old(jobs)[msg.job].(
                  status := RUNNING, urlHash := Some(msg.url + ":" + msg.quality), startedAt := Some(now))]
      ensures forall c :: IsRightChoice(meta.formats, msg.quality, cfg.maxSizeMb * 1_048_576, c) ==>
                IsRightOutcome(cfg, msg.quality, meta, c, outcome)
      ensures if outcome == ShowMenu then IsMenu(meta.formats, Flatten(menu)) else menu == []
      ensures tasks == old(tasks) - multiset{Task(msg, Fetching)}
                       + if outcome == Chain then multiset{Task(msg, DownloadQueued)} else multiset{}
    {
      hide StepTo, IsMenu, Flatten, IsRightChoice, IsRightOutcome;
      Mark(msg, meta, now);
      r := Extend(before, PreflightMark(msg, meta, now), Now());
      outcome, menu := EndPreflight(msg, meta);
      r := Extend(r, PreflightEnd(msg, meta), Now());
    }

    /** The upload loop: stops at the first part that raises, and keeps the id of the last part. */
    method UploadAll(parts: seq<Option<string>>) returns (ok: bool, uploads: seq<string>, lastFileId: Option<string>)
      ensures ok <==> forall k :: 0 <= k < |parts| ==> parts[k].Some?
      ensures ok ==> uploads == Ids(parts) && lastFileId == if parts == [] then None else parts[|parts| - 1]
    {
      uploads, lastFileId := [], None;
      for i := 0 to |parts|
        invariant |uploads| == i && forall k :: 0 <= k < i ==> parts[k] == Some(uploads[k])
        invariant lastFileId == if i == 0 then None else parts[i - 1]
      {
        if parts[i].None? { return false, uploads, lastFileId; }
        lastFileId := parts[i];
        uploads := uploads + [parts[i].value];
      }
      ok := true;
    }

    /** download_task up to the uploads. */
    method BeginDownload(msg: Msg, downloaded: bool, compress: bool, start: Time, refresh: Time)
      returns (stage: Stage, ghost r: Run)
      requires Task(msg, DownloadQueued) in tasks
      modifies this`jobs, this`tasks
      ensures IsRun(r) && r.states[0] == old(Now()) && Last(r) == Now()
      ensures r.steps == DownloadBegin(msg, downloaded && compress, start, refresh)
      ensures stage == if downloaded && compress then Compressing else Downloading
      ensures var stamp := Some(if downloaded && compress then refresh else start);
              && (msg.job !in old(jobs) ==> jobs == old(jobs))
              && (msg.job in old(jobs) ==>
                    jobs == old(jobs)[msg.job := old(jobs)[msg.job].(status := RUNNING, heartbeatAt := stamp, startedAt := stamp)])
      ensures tasks == old(tasks) - multiset{Task(msg, DownloadQueued)} + multiset{Task(msg, stage)}
    {
      hide StepTo;
      StartDownload(msg, start);
      r := Extend(Still(old(Now())), DownloadStart(msg, start), Now());
      stage := Downloading;
      if downloaded && compress {
        RefreshHeartbeat(msg, refresh);
        r := Extend(r, DownloadRefresh(msg, refresh), Now());
        stage := Compressing;
      }
    }

    /** The last steps of download_task. */
    method ConcludeDownload(msg: Msg, stage: Stage, failed: bool, uploads: seq<string>, lastFileId: Option<string>,
                            notified: bool, close: Time, notice: Time, ghost before: Run) returns (ghost r: Run)
      requires Task(msg, stage) in tasks && (stage == Downloading || stage == Compressing)
      requires lastFileId == if uploads == [] then None else Some(uploads[|uploads| - 1])
      requires IsRun(before) && Last(before) == Now()
      modifies this`jobs, this`tasks
      ensures IsRun(r) && r.states[0] == before.states[0] && Last(r) == Now()
      ensures r.steps == before.steps + DownloadTail(msg, stage, failed, uploads, notified, close, notice)
      ensures msg.job !in old(jobs) ==> jobs == old(jobs)
      ensures msg.job in old(jobs) ==>
                var was := old(jobs)[msg.job];
                jobs == old(jobs)[msg.job := was.(
                  status := if !failed && notified then DONE else FAILED,
                  fileId := if failed then was.fileId
                            else if uploads == [] then None
                            else Some(File(uploads[|uploads| - 1], Key(msg.url, msg.quality))),
                  completedAt := Some(if !failed && !notified then notice else close))]
      ensures tasks == old(tasks) - multiset{Task(msg, stage)}
    {
      hide StepTo;
      if failed {
        FailDownload(msg, stage, close);
        r := Extend(before, DownloadFail(msg, stage, close), Now());
      } else {
        FinishDownload(msg, stage, uploads, lastFileId, close);
        r := Extend(before, DownloadDone(msg, stage, uploads, close), Now());
        MovesTwice(old(tasks), Task(msg, stage), Task(msg, Notifying), multiset{});
        if notified {
          EndDownload(msg);
          r := Extend(r, DownloadEnd(msg), Now());
        } else {
          FailDownload(msg, Notifying, notice);
          r := Extend(r, DownloadFail(msg, Notifying, notice), Now());
        }
      }
    }

    /**
     download_task. `downloaded`, `compressed` and `notified` say whether those calls succeed, `parts` holds
     the file id of each upload, None where it raises, and the times are the clock readings of its updates. The
     row ends DONE, with the id of the last part, exactly when everything including the last notice succeeds.
     */
    method DownloadTask(msg: Msg, downloaded: bool, compress: bool, compressed: bool, parts: seq<Option<string>>,
                        notified: bool, start: Time, refresh: Time, close: Time, notice: Time) returns (ghost r: Run)
      requires Task(msg, DownloadQueued) in tasks
      modifies this`jobs, this`tasks
      ensures IsRun(r) && r.states[0] == old(Now()) && Last(r) == Now()
      ensures var stage := if downloaded && compress then Compressing else Downloading;
              var uploaded := forall k :: 0 <= k < |parts| ==> parts[k].Some?;
              r.steps == DownloadBegin(msg, downloaded && compress, start, refresh)
                         + if !downloaded || (compress && !compressed) || !uploaded
                           then DownloadTail(msg, stage, true, [], notified, close, notice)
                           else DownloadTail(msg, stage, false, Ids(parts), notified, close, notice)
      ensures msg.job !in old(jobs) ==> jobs == old(jobs)
      ensures msg.job in old(jobs) ==>
                var was := old(jobs)[msg.job];
                var ok := downloaded && (compress ==> compressed) && forall k :: 0 <= k < |parts| ==> parts[k].Some?;
                var stamp := Some(if downloaded && compress then refresh else start);
                jobs == old(jobs)[msg.job := was.(
                  status := if ok && notified then DONE else FAILED,
                  heartbeatAt := stamp,
                  startedAt := stamp,
                  fileId := if !ok then was.fileId
                            else if parts == [] then None
                            else Some(File(parts[|parts| - 1].value, Key(msg.url, msg.quality))),
                  completedAt := Some(if ok && !notified then notice else close))]
      ensures tasks == old(tasks) - multiset{Task(msg, DownloadQueued)}
    {
      hide StepTo, DownloadBegin, DownloadTail;
      var stage;
      stage, r := BeginDownload(msg, downloaded, compress, start, refresh);
      ghost var begun := jobs;
      var failed := !downloaded || (compress && !compressed);
      var uploads, lastFileId := [], None;
      if !failed {
        var ok;
        ok, uploads, lastFileId := UploadAll(parts);
        failed := !ok;
      }
      if failed { uploads, lastFileId := [], None; }
      r := ConcludeDownload(msg, stage, failed, uploads, lastFileId, notified, close, notice, r);
      if msg.job in old(jobs) { WritesTwice(old(jobs), msg.job, begun[msg.job], jobs[msg.job]); }
      MovesTwice(old(tasks), Task(msg, DownloadQueued), Task(msg, stage), multiset{});
    }

    // ---------------------------------------------------------------- bot/main.py

    /** The loop body of the sweep: `continue` for a row to give up on, a message for any other. */
    method Requeue(job: JobId)
      requires job in round && !round[job].queued
      modifies this`tasks, this`round
      ensures Requeued(old(round)[job].row) ==> StepTo(old(Now()), SweepQueue(job), Now())
      ensures Requeued(old(round)[job].row) ==>
                round == old(round)[job := Seen(old(round)[job].row, true)]
                && tasks == old(tasks) + multiset{Task(SweepMsg(job, old(round)[job].row), Queued)}
      ensures !Requeued(old(round)[job].row) ==> Now() == old(Now())
      ensures var row := old(round)[job].row;
              var quality := if row.formatRequested == None || row.formatRequested == Some("") then "720"
                             else row.formatRequested.value;
              tasks == old(tasks) + if row.retryCount + 1 <= 3 then multiset{Task(Msg(job, row.url, quality), Queued)}
                                    else multiset{}
    {
      var seen := round[job];
      if seen.row.retryCount + 1 > MAX_RECOVERIES { return; }
      QueueStep(Now(), job);
      hide StepTo;
      tasks := tasks + multiset{Task(SweepMsg(job, seen.row), Queued)};
      round := round[job := seen.(queued := true)];
    }

    /** The loop of the sweep over the rows it has read. */
    method RequeueAll(rows: Table, ghost before: RoundRun) returns (ghost after: RoundRun)
      requires round.Keys == rows.Keys && forall job :: job in rows ==> round[job] == Seen(rows[job], false)
      requires before.Reaches(Now())
      modifies this`tasks, this`round
      ensures after == before.(run := after.run) && after.Reaches(Now())
      ensures round.Keys == rows.Keys && forall job :: job in rows ==> round[job] == Seen(rows[job], Requeued(rows[job]))
      ensures forall t :: tasks[t] == old(tasks)[t] + (if Asks(rows, t) then 1 else 0)
    {
      hide StepTo, RoundRun.Reaches, Requeued, SweepMsg, Grown;
      NotGrown(tasks, rows);
      after := before;
      var rest := rows.Keys;
      while rest != {}
        invariant rest <= rows.Keys && round.Keys == rows.Keys
        invariant forall job :: job in rows ==> round[job] == Seen(rows[job], job !in rest && Requeued(rows[job]))
        invariant Grown(old(tasks), tasks, rows, rest)
        invariant after == before.(run := after.run) && after.Reaches(Now())
        decreases rest
      {
        var job :| job in rest;
        GrownBy(old(tasks), tasks, rows, rest, job);
        rest := rest - {job};
        ghost var was := Now();
        Requeue(job);
        if Requeued(rows[job]) { after := after.Go(was, SweepQueue(job), Now()); }
      }
      AllGrown(old(tasks), tasks, rows);
    }

    /** The commit: what was assigned to each row is written. */
    method Commit(rows: Table, clock: JobId -> Time, ghost before: RoundRun) returns (ghost after: RoundRun)
      requires round.Keys == rows.Keys && rows.Keys <= jobs.Keys
      requires forall job :: job in rows ==> round[job] == Seen(rows[job], Requeued(rows[job]))
      requires before.Reaches(Now()) && before.clock == clock
      modifies this`jobs, this`round
      ensures after == before.(run := after.run) && after.Reaches(Now())
      ensures round == map[] && jobs.Keys == old(jobs).Keys
      ensures forall job :: job in jobs ==>
                jobs[job] == if job in rows then WriteBack(old(jobs)[job], rows[job], clock(job)) else old(jobs)[job]
    {
      hide StepTo, RoundRun.Reaches, Requeued, WriteBack;
      after := before;
      while round != map[]
        invariant round.Keys <= rows.Keys && jobs.Keys == old(jobs).Keys
        invariant forall job :: job in round ==> round[job] == Seen(rows[job], Requeued(rows[job]))
        invariant forall job :: job in jobs ==>
                    jobs[job] == if job in rows && job !in round then WriteBack(old(jobs)[job], rows[job], clock(job))
                                 else old(jobs)[job]
        invariant after == before.(run := after.run) && after.Reaches(Now())
        decreases round.Keys
      {
        var job :| job in round.Keys;
        ghost var was := Now();
        Write(job, clock(job));
        after := after.Go(was, SweepWrite(job, clock(job)), Now());
      }
    }

    /** One row of the commit. */
    method Write(job: JobId, now: Time)
      requires job in round && job in jobs && (Requeued(round[job].row) ==> round[job].queued)
      modifies this`jobs, this`round
      ensures StepTo(old(Now()), SweepWrite(job, now), Now())
      ensures jobs == old(jobs)[job := WriteBack(old(jobs)[job], old(round)[job].row, now)] && round == old(round) - {job}
      ensures var seen := old(round)[job].row;
              jobs[job] == old(jobs)[job].(heartbeatAt := Some(now), retryCount := seen.retryCount + 1,
                                           status := if seen.retryCount + 1 > 3 then FAILED else old(jobs)[job].status)
    {
      WriteStep(Now(), job, now);
      hide StepTo, Requeued;
      var seen := round[job].row;
      var row := jobs[job].(heartbeatAt := Some(now), retryCount := seen.retryCount + 1);
      if seen.retryCount + 1 > MAX_RECOVERIES { row := row.(status := FAILED); }
      assert row == WriteBack(jobs[job], seen, now);
      hide WriteBack;
      jobs := jobs[job := row];
      round := round - {job};
    }

    method Sweep(start: Time, clock: JobId -> Time) returns (ghost r: Run)
      requires round == map[]
      modifies this`jobs, this`tasks, this`round
      ensures IsRun(r) && r.states[0] == old(Now()) && Last(r) == Now()
      ensures r.steps == [] || IsRound(r.steps, start, clock)
      ensures round == map[] && jobs.Keys == old(jobs).Keys
      ensures forall job :: job in jobs ==>
                jobs[job] == if Stale(old(jobs)[job], start - STALE_AFTER)
                             then WriteBack(old(jobs)[job], old(jobs)[job], clock(job)) else old(jobs)[job]
      ensures forall t :: tasks[t] == old(tasks)[t] + (if Asks(StaleRows(old(jobs), start - STALE_AFTER), t) then 1 else 0)
    {
      hide StepTo, Stale, WriteBack, Requeued, SweepMsg;
      var rows := StaleRows(jobs, start - STALE_AFTER);
      if rows == map[] {
        assert forall job :: job in jobs ==> job !in rows;
        r := Still(Now());
        return;
      }
      BeginStep(Now(), start);
      round := Read(jobs, start - STALE_AFTER);
      ghost var before := FirstOf(old(Now()), Now(), start, clock);
      before := RequeueAll(rows, before);
      before := Commit(rows, clock, before);
      r := before.run;
    }

    /**
     One round of _recover_stale_jobs that does not fail, undisturbed. The query reads the clock at `start`, and
     `clock` gives the reading taken for each row. Exactly the RUNNING rows with a heartbeat more than 300 seconds
     before are written, and exactly those recovered less than three times get a message.
     */
    method RecoverStaleJobs(start: Time, clock: JobId -> Time) returns (ghost r: Run)
      requires round == map[]
      modifies this`jobs, this`tasks, this`round
      ensures IsRun(r) && r.states[0] == old(Now()) && Last(r) == Now()
      ensures r.steps == [] || IsRound(r.steps, start, clock)
      ensures round == map[] && jobs.Keys == old(jobs).Keys
      ensures forall job :: job in jobs ==>
                var was := old(jobs)[job];
                jobs[job] ==
                  if was.status == RUNNING && was.heartbeatAt.Some? && was.heartbeatAt.value + 300 < start then
                    was.(heartbeatAt := Some(clock(job)), retryCount := was.retryCount + 1,
                         status := if was.retryCount + 1 > 3 then FAILED else RUNNING)
                  else was
      ensures forall t :: tasks[t] == old(tasks)[t] + (if AskedBySweep(old(jobs), start, t) then 1 else 0)
    {
      r := Sweep(start, clock);
      hide IsRun, IsRound, Stale, WriteBack, Asks, AskedBySweep;
      forall job | job in jobs { SweptExactly(old(jobs)[job], start, clock(job)); }
      forall t ensures Asks(StaleRows(old(jobs), start - STALE_AFTER), t) <==> AskedBySweep(old(jobs), start, t) {
        AsksExactly(old(jobs), start, t);
      }
    }
  }

  /** The tasks have grown by the messages of all rows but the rest. */
  ghost predicate Grown(before: multiset<Task>, after: multiset<Task>, rows: Table, rest: set<JobId>) {
    forall t :: after[t] == before[t] + (if t.msg.job !in rest && Asks(rows, t) then 1 else 0)
  }

  lemma NotGrown(tasks: multiset<Task>, rows: Table)
    ensures Grown(tasks, tasks, rows, rows.Keys)
  {
  }

  lemma GrownBy(before: multiset<Task>, after: multiset<Task>, rows: Table, rest: set<JobId>, job: JobId)
    requires Grown(before, after, rows, rest) && job in rest && job in rows
    ensures Grown(before, if Requeued(rows[job]) then after + multiset{Task(SweepMsg(job, rows[job]), Queued)} else after,
                  rows, rest - {job})
  {
    hide Requeued;
  }

  lemma AllGrown(before: multiset<Task>, after: multiset<Task>, rows: Table)
    requires Grown(before, after, rows, {})
    ensures forall t :: after[t] == before[t] + (if Asks(rows, t) then 1 else 0)
  {
    hide Asks;
  }

  /** The steps of a round of the sweep that does not fail. */
  ghost predicate IsRound(steps: seq<Step>, start: Time, clock: JobId -> Time) {
    && steps != [] && steps[0] == SweepBegin(start)
    && forall i :: 0 < i < |steps| ==>
         steps[i].SweepQueue? || (steps[i].SweepWrite? && steps[i].now == clock(steps[i].job))
  }

  /** A round under way, from the state in which it started. */
  datatype RoundRun = RoundRun(first: State, start: Time, clock: JobId -> Time, run: Run) {
    ghost predicate Reaches(s: State) {
      IsRun(run) && run.states[0] == first && Last(run) == s && IsRound(run.steps, start, clock)
    }

    lemma Go(s: State, step: Step, next: State) returns (after: RoundRun)
      requires Reaches(s) && StepTo(s, step, next)
      requires step.SweepQueue? || (step.SweepWrite? && step.now == clock(step.job))
      ensures after == this.(run := after.run) && after.Reaches(next)
    {
      hide StepTo;
      var longer := Extend(run, step, next);
      assert IsRound(longer.steps, start, clock);
      after := this.(run := longer);
    }
  }

  lemma FirstOf(first: State, next: State, start: Time, clock: JobId -> Time) returns (r: RoundRun)
    requires StepTo(first, SweepBegin(start), next)
    ensures r == RoundRun(first, start, clock, r.run) && r.Reaches(next)
  {
    hide StepTo;
    r := RoundRun(first, start, clock, Extend(Still(first), SweepBegin(start), next));
  }

  /** The message of a row that is more than five minutes stale and was recovered less than three times. */
  predicate AskedBySweep(jobs: Table, start: Time, t: Task) {
    && t.stage == Queued && t.msg.job in jobs
    && var row := jobs[t.msg.job];
       && row.status == RUNNING && row.heartbeatAt.Some? && row.heartbeatAt.value + 300 < start && row.retryCount < 3
       && t.msg.url == row.url
       && t.msg.quality == (match row.formatRequested
                            case Some(q) => if q == "" then "720" else q
                            case None => "720")
  }

  lemma AsksExactly(jobs: Table, start: Time, t: Task)
    ensures Asks(StaleRows(jobs, start - STALE_AFTER), t) <==> AskedBySweep(jobs, start, t)
  {
  }

  lemma SweptExactly(row: DownloadJob, start: Time, now: Time)
    ensures Stale(row, start - STALE_AFTER)
       <==> row.status == RUNNING && row.heartbeatAt.Some? && row.heartbeatAt.value + 300 < start
    ensures Stale(row, start - STALE_AFTER) ==>
              WriteBack(row, row, now)
              == row.(heartbeatAt := Some(now), retryCount := row.retryCount + 1,
                      status := if row.retryCount + 1 > 3 then FAILED else RUNNING)
  {
  }

  /** The message that the sweep queues for one of the rows it has read. */
  predicate Asks(rows: Table, t: Task) {
    t.msg.job in rows && Requeued(rows[t.msg.job]) && t == Task(SweepMsg(t.msg.job, rows[t.msg.job]), Queued)
  }

  /** A finished row with the hash and a file, than which no other such row was completed later. */
  ghost predicate IsLatest(jobs: Table, hash: string, best: JobId) {
    && best in jobs && jobs[best].status == DONE && jobs[best].urlHash == Some(hash) && jobs[best].fileId.Some?
    && (jobs[best].completedAt.Some? ==>
          forall k :: k in jobs && jobs[k].status == DONE && jobs[k].urlHash == Some(hash) && jobs[k].fileId.Some? ==>
            jobs[k].completedAt.Some? && jobs[k].completedAt.value <= jobs[best].completedAt.value)
  }

  ghost predicate NoneDone(jobs: Table, hash: string) {
    forall k :: k in jobs ==> !(jobs[k].status == DONE && jobs[k].urlHash == Some(hash) && jobs[k].fileId.Some?)
  }

  ghost function Start(s: State, step: Step, next: State): (r: Run)
    requires StepTo(s, step, next)
    ensures IsRun(r) && r.steps == [step] && r.states[0] == s && Last(r) == next
  {
    hide StepTo;
    Extend(Still(s), step, next)
  }

  /** A task that moves twice. */
  lemma MovesTwice(tasks: multiset<Task>, a: Task, b: Task, c: multiset<Task>)
    ensures tasks - multiset{a} + multiset{b} - multiset{b} + c == tasks - multiset{a} + c
    ensures tasks - multiset{a} + multiset{b} - multiset{b} == tasks - multiset{a}
    ensures tasks - multiset{a} + multiset{} == tasks - multiset{a}
  {
  }

  lemma WritesTwice(jobs: Table, job: JobId, a: DownloadJob, b: DownloadJob)
    ensures jobs[job := a][job := b] == jobs[job := b]
  {
  }

  lemma BestIsPlain()
    ensures NoColon("best")
  {
  }

  lemma CacheTextIs(url: string, quality: string)
    ensures CacheText(url, quality) == url + ":" + quality
  {
  }

  /** The outcome is right for every right choice, of which there is one. */
  lemma RightOutcome(cfg: Config, quality: string, meta: Metadata)
    ensures forall c :: IsRightChoice(meta.formats, quality, cfg.maxSizeMb * 1_048_576, c) ==>
              IsRightOutcome(cfg, quality, meta, c, Decide(cfg, quality, meta))
  {
    hide IsRightChoice, IsRightOutcome, Decide;
    forall c | IsRightChoice(meta.formats, quality, cfg.maxSizeMb * 1_048_576, c)
      ensures IsRightOutcome(cfg, quality, meta, c, Decide(cfg, quality, meta))
    {
      OutcomesExactly(cfg, quality, meta, c);
    }
  }

  lemma HitIsLatest(jobs: Table, hash: string, best: JobId)
    requires IsCacheHit(jobs, hash, best)
    ensures IsLatest(jobs, hash, best)
  {
  }

  lemma MissIsNone(jobs: Table, hash: string)
    requires IsCacheMiss(jobs, hash)
    ensures NoneDone(jobs, hash)
  {
  }

  function Ids(parts: seq<Option<string>>): (ids: seq<string>)
    requires forall k :: 0 <= k < |parts| ==> parts[k].Some?
    ensures |ids| == |parts| && forall k :: 0 <= k < |parts| ==> parts[k] == Some(ids[k])
  {
    seq(|parts|, k requires 0 <= k < |parts| => parts[k].value)
  }

  lemma LastUploadOf(msg: Msg, uploads: seq<string>, lastFileId: Option<string>)
    requires lastFileId == if uploads == [] then None else Some(uploads[|uploads| - 1])
    ensures LastUpload(msg, uploads)
            == if lastFileId.Some? then Some(File(lastFileId.value, Key(msg.url, msg.quality))) else None
  {
  }

  function DownloadBegin(msg: Msg, refreshed: bool, start: Time, refresh: Time): seq<Step> {
    [DownloadStart(msg, start)] + if refreshed then [DownloadRefresh(msg, refresh)] else []
  }

  function DownloadTail(msg: Msg, stage: Stage, failed: bool, uploads: seq<string>, notified: bool, close: Time, notice: Time):
    seq<Step>
  {
    if failed then [DownloadFail(msg, stage, close)]
    else [DownloadDone(msg, stage, uploads, close), if notified then DownloadEnd(msg) else DownloadFail(msg, Notifying, notice)]
  }
}
