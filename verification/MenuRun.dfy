/**
 A behaviour in which the quality menu makes the cache serve the wrong file. Three users send the same YouTube
 link. The first is shown the menu and downloads at 720. The second is shown the menu and taps 720 as well: the
 tap hits the cache, and closes the row with the hash that the "best" preflight before the menu left on it. The
 third gets the 720 file instead of the menu.
 */
module MenuRun {
  import opened Wrappers
  import opened Text
  import opened Formats
  import opened JobTable
  import opened Pipeline
  import opened Journeys
  import opened CacheSoundness

  const URL := "https://www.youtube.com/watch?v=dQw4w9WgXcQ"
  const FIRST := "1b4e28ba-2fa1-41d2-883f-0016d3cca427"
  const SECOND := "6fa459ea-ee8a-4ca4-894e-db77e160355e"
  const THIRD := "886313e1-3b8a-4372-9b90-0c9aee199e5d"
  const CONFIG := Config(false, 200, 49)
  const HD := FormatInfo("22", Some(720), Some(5), Some("avc1"))
  const YOUTUBE := Metadata(true, [HD])
  const FILE := File("f", Key(URL, "720"))

  function Best(job: JobId): Msg { Msg(job, URL, "best") }
  function At720(job: JobId): Msg { Msg(job, URL, "720") }
  function BestText(): string { CacheText(URL, "best") }
  function Text720(): string { CacheText(URL, "720") }

  /** The row of a user who has been shown the menu. */
  function Shown(user: UserId, now: Time): DownloadJob {
    NewJob(user, URL, "best", now).(status := RUNNING, urlHash := Some(BestText()), startedAt := Some(now))
  }

  function Tapped(user: UserId, now: Time): DownloadJob { Shown(user, now).(formatRequested := Some("720")) }

  /** The row of the first user, downloaded at 720. */
  function Downloaded(user: UserId, now: Time): DownloadJob {
    Tapped(user, now).(urlHash := Some(Text720()), heartbeatAt := Some(now), status := DONE, fileId := Some(FILE),
                       completedAt := Some(now))
  }

  /** The row of the second user, served from the cache. */
  function Served(user: UserId, now: Time): DownloadJob {
    Tapped(user, now).(status := DONE, fileId := Some(FILE), completedAt := Some(now))
  }

  lemma Texts()
    ensures BestText() != Text720() && NoColon("720") && NoColon("best")
    ensures FIRST != SECOND && SECOND != THIRD && FIRST != THIRD
  {
    assert |BestText()| == |Text720()| + 1;
    assert FIRST[0] == '1' && SECOND[0] == '6' && THIRD[0] == '8';
  }

  lemma Height720()
    ensures Quality(Video(720)) == "720" && TargetHeight("720") == 720
  {
    assert Decimal(72) == "72";
    assert Decimal(720) == Decimal(72) + [Digit(0)] == "720";
    ParseDecimal(720);
  }

  lemma Decisions()
    ensures Decide(CONFIG, "720", YOUTUBE) == Chain && Decide(CONFIG, "best", YOUTUBE) == ShowMenu
  {
    Height720();
    var limit := CONFIG.maxSizeMb * 1024 * 1024;
    ChoiceIsRight([HD], "720", limit);
    assert Choose([HD], "720", limit).format == HD;
  }

  lemma ButtonOffered()
    ensures Offered(YOUTUBE.formats, 720) && "720" == Quality(Video(720))
  {
    Height720();
    assert HD in YOUTUBE.formats;
  }

  // ------------------------------------------------------------------ the stretches

  function MenuSteps(job: JobId, user: UserId, now: Time): seq<Step> {
    [Create(job, user, URL, "best", now), Enqueue(Best(job)), PreflightMiss(Best(job)),
     PreflightMark(Best(job), YOUTUBE, now), PreflightEnd(Best(job), YOUTUBE)]
  }

  lemma MissWithNew(jobs: Table, job: JobId, user: UserId, now: Time)
    requires IsCacheMiss(jobs, BestText())
    ensures IsCacheMiss(jobs[job := NewJob(user, URL, "best", now)], BestText())
    ensures Marked(jobs[job := NewJob(user, URL, "best", now)], Best(job), now) == jobs[job := Shown(user, now)]
  {
    hide CacheText;
  }

  /** A user sends the link and is shown the menu. */
  lemma SendsLink(before: Run, job: JobId, user: UserId, now: Time) returns (r: Run)
    requires IsRun(before) && Last(before).cfg == CONFIG && Last(before).tasks == multiset{}
    requires job !in Last(before).issued && IsCacheMiss(Last(before).jobs, BestText())
    ensures IsRun(r) && Continues(before, r, MenuSteps(job, user, now))
    ensures var s := Last(before);
            Last(r) == s.(jobs := s.jobs[job := Shown(user, now)], issued := s.issued[job := URL])
  {
    Texts();
    Decisions();
    MissWithNew(Last(before).jobs, job, user, now);
    hide CacheText, Decide, NewJob, Shown, Marked, NoColon, IsCacheMiss;
    var sent := Sends(before, job, user, URL, "best", now);
    assert Last(sent).tasks == multiset{} + multiset{Task(Best(job), Queued)};
    r := Prepares(sent, Best(job), YOUTUBE, now, multiset{});
    Through(sent, r, [PreflightMiss(Best(job)), PreflightMark(Best(job), YOUTUBE, now), PreflightEnd(Best(job), YOUTUBE)]);
  }

  function TapSteps(job: JobId): seq<Step> { [Tap(job, "720"), Enqueue(At720(job))] }

  lemma TapsMenu(before: Run, job: JobId, user: UserId, now: Time) returns (r: Run)
    requires IsRun(before) && Last(before).tasks == multiset{}
    requires job in Last(before).jobs && Last(before).jobs[job] == Shown(user, now)
    ensures IsRun(r) && Continues(before, r, TapSteps(job))
    ensures var s := Last(before);
            Last(r) == s.(jobs := s.jobs[job := Tapped(user, now)], tasks := multiset{} + multiset{Task(At720(job), Queued)})
  {
    Texts();
    hide NoColon, BestText;
    r := Taps(before, job, "720");
  }

  lemma Overwrite(m: Table, k: JobId, a: DownloadJob, b: DownloadJob)
    ensures m[k := a][k := b] == m[k := b]
  {
  }

  /** A user sends the link, is shown the menu, and taps 720. */
  lemma Comes(before: Run, job: JobId, user: UserId, now: Time) returns (r: Run)
    requires IsRun(before) && Last(before).cfg == CONFIG && Last(before).tasks == multiset{}
    requires job !in Last(before).issued && IsCacheMiss(Last(before).jobs, BestText())
    ensures IsRun(r) && Continues(before, r, MenuSteps(job, user, now) + TapSteps(job))
    ensures var s := Last(before);
            Last(r) == s.(jobs := s.jobs[job := Tapped(user, now)], issued := s.issued[job := URL],
                          tasks := multiset{} + multiset{Task(At720(job), Queued)})
  {
    hide IsRun, Last, Shown, Tapped, MenuSteps, TapSteps, IsCacheMiss, BestText;
    var s := Last(before);
    var sent := SendsLink(before, job, user, now);
    r := TapsMenu(sent, job, user, now);
    Overwrite(s.jobs, job, Shown(user, now), Tapped(user, now));
    assert before.states <= r.states;
  }

  function ServeSteps(job: JobId, cached: JobId, now: Time): seq<Step> {
    [PreflightHit(At720(job), cached), PreflightDeliver(At720(job), FILE, now)]
  }

  lemma RowServed(jobs: Table, job: JobId, user: UserId, now: Time)
    requires job in jobs && jobs[job] == Tapped(user, now)
    ensures Delivered(jobs, At720(job), FILE, now) == jobs[job := Served(user, now)]
  {
    hide CacheText;
  }

  /** The tap hits the cache. */
  lemma ServesTapped(before: Run, job: JobId, user: UserId, now: Time, cached: JobId) returns (r: Run)
    requires IsRun(before) && Last(before).tasks == multiset{} + multiset{Task(At720(job), Queued)}
    requires job in Last(before).jobs && Last(before).jobs[job] == Tapped(user, now)
    requires IsCacheHit(Last(before).jobs, Text720(), cached) && Last(before).jobs[cached].fileId == Some(FILE)
    ensures IsRun(r) && Continues(before, r, ServeSteps(job, cached, now))
    ensures var s := Last(before); Last(r) == s.(jobs := s.jobs[job := Served(user, now)], tasks := multiset{})
  {
    RowServed(Last(before).jobs, job, user, now);
    hide CacheText, Tapped, Served, Delivered, IsCacheHit;
    r := Hits(before, At720(job), cached, multiset{});
    r := Delivers(r, At720(job), FILE, now, multiset{});
  }

  function DownloadSteps(job: JobId, now: Time): seq<Step> {
    var m := At720(job);
    [PreflightMiss(m), PreflightMark(m, YOUTUBE, now), PreflightEnd(m, YOUTUBE), DownloadStart(m, now),
     DownloadDone(m, Downloading, ["f"], now), DownloadEnd(m)]
  }

  lemma RowDownloaded(jobs: Table, job: JobId, user: UserId, now: Time)
    requires job in jobs && jobs[job] == Tapped(user, now)
    ensures Done(Started(Marked(jobs, At720(job), now), At720(job), now), At720(job), ["f"], now)
            == jobs[job := Downloaded(user, now)]
  {
    hide CacheText;
  }

  lemma DownloadsTapped(before: Run, job: JobId, user: UserId, now: Time) returns (r: Run)
    requires IsRun(before) && Last(before).cfg == CONFIG
    requires Last(before).tasks == multiset{} + multiset{Task(At720(job), Queued)}
    requires job in Last(before).jobs && Last(before).jobs[job] == Tapped(user, now)
    requires IsCacheMiss(Last(before).jobs, Text720())
    ensures IsRun(r) && Continues(before, r, DownloadSteps(job, now))
    ensures var s := Last(before); Last(r) == s.(jobs := s.jobs[job := Downloaded(user, now)], tasks := multiset{})
  {
    Decisions();
    RowDownloaded(Last(before).jobs, job, user, now);
    hide CacheText, Decide, Tapped, Downloaded, Marked, Started, Done, IsCacheMiss;
    var m, none := At720(job), multiset{};
    r := Prepares(before, m, YOUTUBE, now, none);
    r := Starts(r, m, now, none);
    r := Uploads(r, m, ["f"], now, none);
    r := Notifies(r, m, none);
  }

  /** The table when the first user has been served, and the second. */
  function TableOne(): Table { map[][FIRST := Downloaded("x", 1)] }
  function TableTwo(): Table { TableOne()[SECOND := Served("y", 2)] }

  lemma CacheOne()
    ensures IsCacheMiss(TableOne(), BestText())
    ensures IsCacheHit(TableOne()[SECOND := Tapped("y", 2)], Text720(), FIRST)
    ensures TableOne()[SECOND := Tapped("y", 2)][FIRST].fileId == Some(FILE)
    ensures TableOne()[SECOND := Tapped("y", 2)][SECOND := Served("y", 2)] == TableTwo()
  {
    Texts();
    hide CacheText, BestText, Text720;
  }

  lemma CacheTwo()
    ensures IsCacheHit(TableTwo()[THIRD := NewJob("z", URL, "best", 3)], BestText(), SECOND)
    ensures TableTwo()[THIRD := NewJob("z", URL, "best", 3)][SECOND].fileId == Some(FILE)
  {
    Texts();
    hide CacheText, BestText, Text720;
  }

  function PartOne(): (steps: seq<Step>)
    ensures |steps| == 13
  {
    MenuSteps(FIRST, "x", 1) + TapSteps(FIRST) + DownloadSteps(FIRST, 1)
  }

  function PartTwo(): (steps: seq<Step>)
    ensures |steps| == 9 && steps[4] == PreflightEnd(Best(SECOND), YOUTUBE) && steps[5] == Tap(SECOND, "720")
  {
    MenuSteps(SECOND, "y", 2) + TapSteps(SECOND) + ServeSteps(SECOND, FIRST, 2)
  }

  function Story(): seq<Step> {
    PartOne() + PartTwo() + [Create(THIRD, "z", URL, "best", 3), Enqueue(Best(THIRD)), PreflightHit(Best(THIRD), SECOND)]
  }

  lemma FirstUser() returns (r: Run)
    ensures IsBehaviour(r) && r.steps == PartOne()
    ensures Last(r) == State(CONFIG, TableOne(), map[][FIRST := URL], multiset{}, map[])
  {
    NothingCached();
    var start := Still(Init(CONFIG));
    hide CacheText, Shown, Tapped, Downloaded, MenuSteps, TapSteps, DownloadSteps, IsCacheMiss, BestText, Text720;
    var came := Comes(start, FIRST, "x", 1);
    r := DownloadsTapped(came, FIRST, "x", 1);
    Overwrite(map[], FIRST, Tapped("x", 1), Downloaded("x", 1));
    Through(start, came, came.steps);
    Through(came, r, DownloadSteps(FIRST, 1));
  }

  lemma NothingCached()
    ensures IsCacheMiss(map[], BestText()) && IsCacheMiss(map[][FIRST := Tapped("x", 1)], Text720())
  {
    hide CacheText;
  }

  lemma SecondUser() returns (r: Run)
    ensures IsBehaviour(r) && r.steps == PartOne() + PartTwo()
    ensures Last(r) == State(CONFIG, TableTwo(), map[][FIRST := URL][SECOND := URL], multiset{}, map[])
  {
    Texts();
    CacheOne();
    hide CacheText, Tapped, Served, IsCacheHit, IsCacheMiss, BestText, Text720, TableOne, TableTwo, PartOne, MenuSteps, TapSteps,
         ServeSteps;
    var first := FirstUser();
    var came := Comes(first, SECOND, "y", 2);
    r := ServesTapped(came, SECOND, "y", 2, FIRST);
    Through(first, came, MenuSteps(SECOND, "y", 2) + TapSteps(SECOND));
    Through(came, r, ServeSteps(SECOND, FIRST, 2));
    assert r.steps == PartOne() + PartTwo();
  }

  /**
   The behaviour in full. The button tapped is on the menu shown; after the tap's hit is closed the cache is
   unsound; and the third request, for "best", is answered with a file downloaded at 720.
   */
  lemma MenuBreaksCache() returns (r: Run)
    ensures IsBehaviour(r) && r.steps == Story()
    ensures r.steps[17] == PreflightEnd(Best(SECOND), YOUTUBE) && Decide(CONFIG, "best", YOUTUBE) == ShowMenu
    ensures Offered(YOUTUBE.formats, 720) && r.steps[18] == Tap(SECOND, Quality(Video(720)))
    ensures !Sound(r.states[22])
    ensures Task(Best(THIRD), Delivering(FILE)) in Last(r).tasks
    ensures Best(THIRD).quality == "best" && FILE.origin == Key(Best(THIRD).url, "720")
  {
    Texts();
    Decisions();
    ButtonOffered();
    CacheTwo();
    ServedUnsound();
    var second := SecondUser();
    hide CacheText, Decide, Offered, NoColon, Downloaded, Served, NewJob, IsCacheHit, TableTwo, Sound, PartOne, PartTwo;
    r := Sends(second, THIRD, "z", URL, "best", 3);
    r := Hits(r, Best(THIRD), SECOND, multiset{});
    Through(second, r, [Create(THIRD, "z", URL, "best", 3), Enqueue(Best(THIRD)), PreflightHit(Best(THIRD), SECOND)]);
  }

  lemma ServedUnsound()
    ensures !Sound(State(CONFIG, TableTwo(), map[][FIRST := URL][SECOND := URL], multiset{}, map[]))
  {
    Texts();
    hide CacheText, BestText, Text720;
    var s := State(CONFIG, TableTwo(), map[][FIRST := URL][SECOND := URL], multiset{}, map[]);
    assert s.jobs[SECOND] == Served("y", 2);
    ServedRow();
  }

  lemma ServedRow()
    ensures !SoundRow(Served("y", 2))
  {
    Texts();
    assert FILE.origin == Key(URL, "720");
  }
}
