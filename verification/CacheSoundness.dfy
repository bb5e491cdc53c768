/** The content cache: when a DONE row's hash tells the truth about its file. */
module CacheSoundness {
  import opened Wrappers
  import opened Text
  import opened JobTable
  import opened Pipeline
  import opened JobTableInvariants

  /** A row the cache may serve from holds a file that was produced for exactly the request hashed on it. */
  predicate SoundRow(row: DownloadJob) {
    row.status == DONE && row.urlHash.Some? && row.fileId.Some? ==>
      row.urlHash.value == CacheText(row.fileId.value.origin.url, row.fileId.value.origin.quality)
  }

  ghost predicate Sound(s: State) {
    forall job :: job in s.jobs ==> SoundRow(s.jobs[job])
  }

  /** A cached delivery under way carries a file with the colon-free quality and the url of its message. */
  ghost predicate DeliversRequested(s: State) {
    forall t :: t in s.tasks && t.stage.Delivering? ==> t.stage.file.origin == Key(t.msg.url, t.msg.quality)
  }

  /** Files were produced for requests with colon-free qualities. */
  ghost predicate OriginsPlain(s: State) {
    && (forall job :: job in s.jobs && s.jobs[job].fileId.Some? ==> NoColon(s.jobs[job].fileId.value.origin.quality))
    && (forall t :: t in s.tasks && t.stage.Delivering? ==> NoColon(t.stage.file.origin.quality))
  }

  /** Equal cache texts come from equal requests. */
  lemma CacheTextInjective(a: Key, b: Key)
    requires NoColon(a.quality) && NoColon(b.quality)
    requires CacheText(a.url, a.quality) == CacheText(b.url, b.quality)
    ensures a == b
  {
    LastColonUnique(a.url, a.quality, b.url, b.quality);
  }

  /** With a colon in a quality the cache text is ambiguous. */
  lemma ColonMakesTextAmbiguous()
    ensures CacheText("http", "//x:720") == CacheText("http://x", "720")
  {
    assert CacheText("http", "//x:720") == "http://x:720";
  }

  /**
   The guard of a completing step: the row it closes is gone, was never marked with a hash, or is still
   marked with the hash of the request that the step completes.
   */
  predicate ClosesOwnHash(s: State, msg: Msg) {
    msg.job in s.jobs && s.jobs[msg.job].urlHash.Some? ==> s.jobs[msg.job].urlHash.value == CacheText(msg.url, msg.quality)
  }

  predicate HashMatches(s: State, step: Step) {
    match step
    case PreflightDeliver(msg, _, _) => ClosesOwnHash(s, msg)
    case DownloadDone(msg, _, uploads, _) => uploads != [] ==> ClosesOwnHash(s, msg)
    case _ => true
  }

  /** Only completing a job can break soundness, and it does so exactly when the guard fails. */
  lemma SoundStep(s: State, step: Step)
    requires Enabled(s, step) && Sound(s) && DeliversRequested(s)
    ensures Sound(Apply(s, step)) <==> HashMatches(s, step)
  {
    hide Left, Bag, NewMsg, IsCacheHit, IsCacheMiss, CacheText;
    var s' := Apply(s, step);
    if HashMatches(s, step) {
      forall job | job in s'.jobs ensures SoundRow(s'.jobs[job]) {
        if job in s.jobs { assert SoundRow(s.jobs[job]); }
      }
    } else {
      assert !SoundRow(s'.jobs[step.msg.job]);
    }
  }

  lemma OriginsPlainKept(s: State, step: Step)
    requires Enabled(s, step) && Consistent(s) && OriginsPlain(s)
    ensures OriginsPlain(Apply(s, step))
  {
    OriginsOfRows(s, step);
    OriginsOfTasks(s, step);
  }

  lemma OriginsOfRows(s: State, step: Step)
    requires Enabled(s, step) && Consistent(s) && OriginsPlain(s)
    ensures var jobs := Apply(s, step).jobs;
            forall job :: job in jobs && jobs[job].fileId.Some? ==> NoColon(jobs[job].fileId.value.origin.quality)
  {
    hide Left, Bag, NewMsg, IsCacheHit, IsCacheMiss, CacheText, NoColon;
    if step.DownloadDone? || step.PreflightDeliver? { assert MsgConsistent(s.issued, Taken(step).value.msg); }
  }

  lemma OriginsOfTasks(s: State, step: Step)
    requires Enabled(s, step) && OriginsPlain(s)
    ensures forall t :: t in Apply(s, step).tasks && t.stage.Delivering? ==> NoColon(t.stage.file.origin.quality)
  {
    OnlyHitsStartDeliveries(s, step);
    hide Apply, NoColon, CacheText, Decide;
  }

  /** A hit on a sound table finds a file produced for the request at hand. */
  lemma HitFindsRequested(s: State, msg: Msg, cached: JobId)
    requires Consistent(s) && OriginsPlain(s) && Sound(s)
    requires Task(msg, Queued) in s.tasks && IsCacheHit(s.jobs, CacheText(msg.url, msg.quality), cached)
    ensures s.jobs[cached].fileId.value.origin == Key(msg.url, msg.quality)
  {
    var row := s.jobs[cached];
    assert SoundRow(row);
    assert MsgConsistent(s.issued, Task(msg, Queued).msg);
    CacheTextInjective(row.fileId.value.origin, Key(msg.url, msg.quality));
  }

  lemma DeliversRequestedKept(s: State, step: Step)
    requires Enabled(s, step) && Consistent(s) && OriginsPlain(s) && Sound(s) && DeliversRequested(s)
    ensures DeliversRequested(Apply(s, step))
  {
    if step.PreflightHit? { HitFindsRequested(s, step.msg, step.cached); }
    OnlyHitsStartDeliveries(s, step);
    hide Apply, Enabled, Consistent, OriginsPlain, Sound, Left, NoColon, CacheText;
  }

  lemma LeftByHit(s: State, step: Step, t: Task)
    requires Enabled(s, step) && Left(s, step) == Some(t) && t.stage.Delivering?
    ensures step.PreflightHit? && t == Task(step.msg, Delivering(s.jobs[step.cached].fileId.value))
  {
    hide CacheText, NoColon, Decide, IsCacheHit, IsCacheMiss, NewMsg, Taken;
  }

  lemma OnlyHitsStartDeliveries(s: State, step: Step)
    requires Enabled(s, step)
    ensures forall t :: t in Apply(s, step).tasks && t.stage.Delivering? ==>
              t in s.tasks
              || (step.PreflightHit? && t == Task(step.msg, Delivering(s.jobs[step.cached].fileId.value)))
  {
    forall t | t in Apply(s, step).tasks && t.stage.Delivering? && t !in s.tasks
      ensures step.PreflightHit? && t == Task(step.msg, Delivering(s.jobs[step.cached].fileId.value))
    {
      TaskFrom(s, step, t);
      LeftByHit(s, step, t);
    }
    hide Apply, Left, Taken, IsCacheHit, IsCacheMiss;
  }

  lemma {:induction false} OriginsPlainUpTo(r: Run, i: nat)
    requires IsBehaviour(r) && i < |r.states|
    ensures OriginsPlain(r.states[i])
  {
    hide Apply, Enabled;
    if i > 0 {
      OriginsPlainUpTo(r, i - 1);
      AlwaysConsistent(r, i - 1);
      assert StepTo(r.states[i - 1], r.steps[i - 1], r.states[i]);
      OriginsPlainKept(r.states[i - 1], r.steps[i - 1]);
    }
  }

  lemma {:induction false} SoundUpTo(r: Run, i: nat)
    requires IsBehaviour(r) && i < |r.states|
    requires forall k :: 0 <= k < i ==> HashMatches(r.states[k], r.steps[k])
    ensures Sound(r.states[i]) && DeliversRequested(r.states[i])
  {
    hide Apply, Enabled, HashMatches;
    if i > 0 {
      SoundUpTo(r, i - 1);
      OriginsPlainUpTo(r, i - 1);
      AlwaysConsistent(r, i - 1);
      assert StepTo(r.states[i - 1], r.steps[i - 1], r.states[i]);
      SoundStep(r.states[i - 1], r.steps[i - 1]);
      DeliversRequestedKept(r.states[i - 1], r.steps[i - 1]);
    }
  }

  /**
   The cache is sound in every state of a behaviour exactly when every step that completes a job finds its
   row unmarked or still marked with the hash of the request it completes.
   */
  lemma CacheSoundExactly(r: Run)
    requires IsBehaviour(r)
    ensures (forall i :: 0 <= i < |r.states| ==> Sound(r.states[i]))
       <==> (forall i :: 0 <= i < |r.steps| ==> HashMatches(r.states[i], r.steps[i]))
  {
    hide Apply, Enabled, HashMatches, Sound;
    if forall i :: 0 <= i < |r.steps| ==> HashMatches(r.states[i], r.steps[i]) {
      forall i | 0 <= i < |r.states| ensures Sound(r.states[i]) { SoundUpTo(r, i); }
    }
    if forall i :: 0 <= i < |r.states| ==> Sound(r.states[i]) {
      forall i | 0 <= i < |r.steps| ensures HashMatches(r.states[i], r.steps[i]) { MatchesUpTo(r, i); }
    }
  }

  lemma {:induction false} MatchesUpTo(r: Run, i: nat)
    requires IsBehaviour(r) && i < |r.steps|
    requires forall k :: 0 <= k < |r.states| ==> Sound(r.states[k])
    ensures forall k :: 0 <= k <= i ==> HashMatches(r.states[k], r.steps[k])
  {
    hide Apply, Enabled, HashMatches, Sound;
    if i > 0 { MatchesUpTo(r, i - 1); }
    SoundUpTo(r, i);
    assert StepTo(r.states[i], r.steps[i], r.states[i + 1]);
    SoundStep(r.states[i], r.steps[i]);
  }

  /** In a sound behaviour every cached delivery hands over a file downloaded for exactly the request it answers. */
  lemma HitsDeliverWhatWasAsked(r: Run, i: nat)
    requires IsBehaviour(r) && i < |r.steps| && r.steps[i].PreflightDeliver?
    requires forall k :: 0 <= k < i ==> HashMatches(r.states[k], r.steps[k])
    ensures r.steps[i].file.origin == Key(r.steps[i].msg.url, r.steps[i].msg.quality)
  {
    SoundUpTo(r, i);
    assert StepTo(r.states[i], r.steps[i], r.states[i + 1]);
  }

  // ------------------------------------------------------------------ jobs with one quality

  /** All the tasks of a job ask for the quality on its row, and so do its hash and a sweep that has read it. */
  ghost predicate OneQuality(s: State) {
    && (forall job :: job in s.jobs ==> OneQualityRow(s.jobs[job]))
    && (forall t :: t in s.tasks && t.msg.job in s.jobs ==> s.jobs[t.msg.job].formatRequested == Some(t.msg.quality))
    && (forall job :: job in s.round && job in s.jobs ==>
          s.round[job].row.formatRequested == s.jobs[job].formatRequested)
  }

  predicate OneQualityRow(row: DownloadJob) {
    && row.formatRequested.Some? && row.formatRequested.value != ""
    && (row.urlHash.Some? ==> row.urlHash.value == CacheText(row.url, row.formatRequested.value))
  }

  /** Users name a quality when they create a job and do not change it afterwards. */
  predicate KeepsQuality(s: State, step: Step) {
    && (step.Create? ==> step.quality != "")
    && (step.Tap? && step.job in s.jobs ==> s.jobs[step.job].formatRequested == Some(step.quality))
  }

  lemma OneQualityRowsKept(s: State, step: Step)
    requires Enabled(s, step) && Consistent(s) && OneQuality(s) && KeepsQuality(s, step)
    ensures forall job :: job in Apply(s, step).jobs ==> OneQualityRow(Apply(s, step).jobs[job])
  {
    hide Left, Bag, NewMsg, IsCacheHit, IsCacheMiss, CacheText, NoColon;
    var s' := Apply(s, step);
    if step.PreflightMark? { assert MsgConsistent(s.issued, Taken(step).value.msg); }
    forall job | job in s'.jobs ensures OneQualityRow(s'.jobs[job]) {
      if job in s.jobs { assert RowOk(s.jobs[job], s.issued[job]) && OneQualityRow(s.jobs[job]); }
    }
  }

  /** The quality on a row does not change. */
  lemma FormatKept(s: State, step: Step, job: JobId)
    requires Enabled(s, step) && KeepsQuality(s, step) && job in Apply(s, step).jobs && job in s.issued
    ensures job in s.jobs && Apply(s, step).jobs[job].formatRequested == s.jobs[job].formatRequested
  {
    hide Left, Bag, NewMsg, IsCacheHit, IsCacheMiss, CacheText, NoColon;
  }

  lemma OneQualityTasksKept(s: State, step: Step)
    requires Enabled(s, step) && Consistent(s) && OneQuality(s) && KeepsQuality(s, step)
    ensures var s' := Apply(s, step);
            forall t :: t in s'.tasks && t.msg.job in s'.jobs ==> s'.jobs[t.msg.job].formatRequested == Some(t.msg.quality)
  {
    var s' := Apply(s, step);
    forall t | t in s'.tasks && t.msg.job in s'.jobs ensures s'.jobs[t.msg.job].formatRequested == Some(t.msg.quality) {
      if t in s.tasks {
        assert MsgConsistent(s.issued, t.msg);
        FormatKept(s, step, t.msg.job);
      } else {
        TaskFrom(s, step, t);
        NewTaskQuality(s, step, t);
      }
    }
  }

  lemma OneQualityRoundKept(s: State, step: Step)
    requires Enabled(s, step) && Consistent(s) && OneQuality(s) && KeepsQuality(s, step)
    ensures var s' := Apply(s, step);
            forall job :: job in s'.round && job in s'.jobs ==>
              s'.round[job].row.formatRequested == s'.jobs[job].formatRequested
  {
    var s' := Apply(s, step);
    forall job | job in s'.round && job in s'.jobs
      ensures s'.round[job].row.formatRequested == s'.jobs[job].formatRequested
    {
      RoundEntryFrom(s, step, job);
      FormatKept(s, step, job);
    }
  }

  /** An entry of the round was there before, or has just been read from the table. */
  lemma RoundEntryFrom(s: State, step: Step, job: JobId)
    requires Enabled(s, step) && Consistent(s) && job in Apply(s, step).round
    ensures job in s.issued
    ensures (job in s.round && Apply(s, step).round[job].row == s.round[job].row)
            || (job in s.jobs && Apply(s, step).round[job].row == s.jobs[job])
  {
    if job in s.round { assert EntryOk(s, job); }
    hide JobsAfter, Left, Taken, Bag, NewMsg, CacheText, NoColon, IsCacheHit, IsCacheMiss, EntryOk;
  }

  lemma NewTaskQuality(s: State, step: Step, t: Task)
    requires Enabled(s, step) && Consistent(s) && OneQuality(s) && KeepsQuality(s, step)
    requires Left(s, step) == Some(t) && t.msg.job in Apply(s, step).jobs
    ensures Apply(s, step).jobs[t.msg.job].formatRequested == Some(t.msg.quality)
  {
    hide CacheText, NoColon, IsCacheHit, IsCacheMiss, Decide;
    if Taken(step).Some? {
      assert MsgConsistent(s.issued, Taken(step).value.msg);
      FormatKept(s, step, t.msg.job);
      hide JobsAfter, Consistent;
    } else if !step.Create? {
      if step.SweepQueue? { assert EntryOk(s, t.msg.job); }
      FormatKept(s, step, t.msg.job);
      assert OneQualityRow(s.jobs[t.msg.job]);
      hide JobsAfter, Consistent;
    }
  }

  lemma {:induction false} OneQualityUpTo(r: Run, i: nat)
    requires IsBehaviour(r) && i < |r.states|
    requires forall k :: 0 <= k < |r.steps| ==> KeepsQuality(r.states[k], r.steps[k])
    ensures OneQuality(r.states[i])
  {
    hide Apply, Enabled, KeepsQuality;
    if i > 0 {
      OneQualityUpTo(r, i - 1);
      AlwaysConsistent(r, i - 1);
      assert StepTo(r.states[i - 1], r.steps[i - 1], r.states[i]);
      OneQualityRowsKept(r.states[i - 1], r.steps[i - 1]);
      OneQualityTasksKept(r.states[i - 1], r.steps[i - 1]);
      OneQualityRoundKept(r.states[i - 1], r.steps[i - 1]);
    }
  }

  lemma OneQualityMatches(s: State, step: Step)
    requires Enabled(s, step) && Consistent(s) && OneQuality(s)
    ensures HashMatches(s, step)
  {
    hide Apply, Left, CacheText, NoColon, IsCacheHit, IsCacheMiss;
    if step.PreflightDeliver? || step.DownloadDone? {
      var msg := step.msg;
      assert MsgConsistent(s.issued, Taken(step).value.msg);
      if msg.job in s.jobs { assert OneQualityRow(s.jobs[msg.job]) && RowOk(s.jobs[msg.job], s.issued[msg.job]); }
    }
  }

  /**
   Where every job keeps the one quality it was created with, the cache is sound in every state, whatever
   the workers, the sweep and cancellations do.
   */
  lemma OneQualityIsSound(r: Run)
    requires IsBehaviour(r)
    requires forall k :: 0 <= k < |r.steps| ==> KeepsQuality(r.states[k], r.steps[k])
    ensures forall i :: 0 <= i < |r.states| ==> Sound(r.states[i])
    ensures forall i :: 0 <= i < |r.steps| ==> HashMatches(r.states[i], r.steps[i])
  {
    hide Apply, Enabled, KeepsQuality, HashMatches, Sound;
    forall i | 0 <= i < |r.steps| ensures HashMatches(r.states[i], r.steps[i]) {
      OneQualityUpTo(r, i);
      AlwaysConsistent(r, i);
      assert StepTo(r.states[i], r.steps[i], r.states[i + 1]);
      OneQualityMatches(r.states[i], r.steps[i]);
    }
    CacheSoundExactly(r);
  }
}
