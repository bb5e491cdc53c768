/** The registry of cookie files (utils/cookies.py, database/crud.py): which one is active per platform. */
module Cookies {
  import opened Wrappers

  datatype CookieFile = CookieFile(platform: string, filename: string, isActive: bool)

  /** The rows of cookie_files in the order in which they were added. */
  type Rows = seq<CookieFile>

  /** MultipleResultsFound, raised by scalar_one_or_none. */
  datatype DbError = MultipleResultsFound

  /** UPDATE ... SET is_active = false WHERE platform = ... */
  function DeactivateAll(rows: Rows, platform: string): (r: Rows)
    ensures |r| == |rows|
    ensures forall i :: 0 <= i < |rows| ==>
              r[i] == (if rows[i].platform == platform then rows[i].(isActive := false) else rows[i])
  {
    seq(|rows|, i requires 0 <= i < |rows| => if rows[i].platform == platform then rows[i].(isActive := false) else rows[i])
  }

  /** Registering a file: the others of its platform are switched off, then it is added as active. */
  function Register(rows: Rows, platform: string, filename: string): Rows {
    DeactivateAll(rows, platform) + [CookieFile(platform, filename, true)]
  }

  /** The row is the last one registered for its platform. */
  ghost predicate LastOfPlatform(rows: Rows, i: nat)
    requires i < |rows|
  {
    forall j :: i < j < |rows| ==> rows[j].platform != rows[i].platform
  }

  /** A row of the platform is active exactly when it is the last one registered for the platform. */
  ghost predicate LastIsActive(rows: Rows, platform: string) {
    forall i :: 0 <= i < |rows| && rows[i].platform == platform ==> (rows[i].isActive <==> LastOfPlatform(rows, i))
  }

  ghost predicate OneActive(rows: Rows) {
    forall platform :: LastIsActive(rows, platform)
  }

  lemma RegisterKeepsOneActive(rows: Rows, platform: string, filename: string)
    requires OneActive(rows)
    ensures OneActive(Register(rows, platform, filename))
  {
    var r := Register(rows, platform, filename);
    forall p ensures LastIsActive(r, p) {
      assert LastIsActive(rows, p);
      forall i | 0 <= i < |r| && r[i].platform == p ensures r[i].isActive <==> LastOfPlatform(r, i) {
        if i < |rows| {
          assert forall j :: 0 <= j < |rows| ==> r[j].platform == rows[j].platform;
          assert r[|rows|].platform == platform;
          if p != platform { assert LastOfPlatform(r, i) <==> LastOfPlatform(rows, i); }
        }
      }
    }
  }

  // ------------------------------------------------------------------ looking up

  /** How many rows have the platform and the name. */
  function Copies(rows: Rows, platform: string, filename: string): nat {
    if rows == [] then 0
    else Copies(rows[..|rows| - 1], platform, filename)
         + (if rows[|rows| - 1].platform == platform && rows[|rows| - 1].filename == filename then 1 else 0)
  }

  function ActiveCount(rows: Rows, platform: string): nat {
    if rows == [] then 0
    else ActiveCount(rows[..|rows| - 1], platform)
         + (if rows[|rows| - 1].platform == platform && rows[|rows| - 1].isActive then 1 else 0)
  }

  predicate Named(row: CookieFile, platform: string, filename: string) {
    row.platform == platform && row.filename == filename
  }

  predicate ActiveOn(row: CookieFile, platform: string) { row.platform == platform && row.isActive }

  /** None, one or more rows have the platform and the name. */
  lemma {:induction false} CopiesExactly(rows: Rows, platform: string, filename: string)
    ensures Copies(rows, platform, filename) == 0 <==> forall i :: 0 <= i < |rows| ==> !Named(rows[i], platform, filename)
    ensures Copies(rows, platform, filename) > 1
       <==> exists i, j :: 0 <= i < j < |rows| && Named(rows[i], platform, filename) && Named(rows[j], platform, filename)
  {
    if rows != [] {
      var before := rows[..|rows| - 1];
      CopiesExactly(before, platform, filename);
      assert forall i :: 0 <= i < |before| ==> before[i] == rows[i];
      if Named(rows[|before|], platform, filename) && Copies(before, platform, filename) > 0 {
        var i :| 0 <= i < |before| && Named(before[i], platform, filename);
        assert Named(rows[i], platform, filename);
      }
    }
  }

  /** None, one or more rows of the platform are active. */
  lemma {:induction false} ActiveExactly(rows: Rows, platform: string)
    ensures ActiveCount(rows, platform) == 0 <==> forall i :: 0 <= i < |rows| ==> !ActiveOn(rows[i], platform)
    ensures ActiveCount(rows, platform) > 1
       <==> exists i, j :: 0 <= i < j < |rows| && ActiveOn(rows[i], platform) && ActiveOn(rows[j], platform)
  {
    if rows != [] {
      var before := rows[..|rows| - 1];
      ActiveExactly(before, platform);
      assert forall i :: 0 <= i < |before| ==> before[i] == rows[i];
      if ActiveOn(rows[|before|], platform) && ActiveCount(before, platform) > 0 {
        var i :| 0 <= i < |before| && ActiveOn(before[i], platform);
        assert ActiveOn(rows[i], platform);
      }
    }
  }

  /** The last row of a platform, if any. */
  function LastRow(rows: Rows, platform: string): (last: Option<CookieFile>)
    ensures last.None? ==> forall i :: 0 <= i < |rows| ==> rows[i].platform != platform
    ensures last.Some? ==> last.value in rows && last.value.platform == platform
  {
    if rows == [] then None
    else if rows[|rows| - 1].platform == platform then Some(rows[|rows| - 1])
    else LastRow(rows[..|rows| - 1], platform)
  }

  /** At most one row of the platform is active, and it is the last one registered. */
  lemma {:induction false} OnlyLastIsActive(rows: Rows, platform: string)
    requires LastIsActive(rows, platform)
    ensures ActiveCount(rows, platform) == (if LastRow(rows, platform).Some? then 1 else 0)
    ensures LastRow(rows, platform).Some? ==> LastRow(rows, platform).value.isActive
    ensures forall i :: 0 <= i < |rows| && rows[i].platform == platform && rows[i].isActive ==>
              LastRow(rows, platform) == Some(rows[i])
  {
    if rows != [] {
      var before, last := rows[..|rows| - 1], |rows| - 1;
      assert forall i :: 0 <= i < |before| ==> rows[i] == before[i];
      assert LastOfPlatform(rows, last);
      if rows[last].platform == platform {
        forall i | 0 <= i < |before| ensures !(before[i].platform == platform && before[i].isActive) {
          if rows[i].platform == platform { assert !LastOfPlatform(rows, i); }
        }
        NoneActive(before, platform);
      } else {
        forall i | 0 <= i < |before| && before[i].platform == platform ensures before[i].isActive <==> LastOfPlatform(before, i) {
          assert LastOfPlatform(rows, i) <==> LastOfPlatform(before, i);
        }
        OnlyLastIsActive(before, platform);
      }
    }
  }

  lemma {:induction false} NoneActive(rows: Rows, platform: string)
    requires forall i :: 0 <= i < |rows| ==> !(rows[i].platform == platform && rows[i].isActive)
    ensures ActiveCount(rows, platform) == 0
  {
    if rows != [] { NoneActive(rows[..|rows| - 1], platform); }
  }

  // ------------------------------------------------------------------ discovery

  /** A file found on disk. Discovery goes through the platforms, and through the *.txt files of each. */
  datatype Found = Found(platform: string, filename: string)

  /** One file found, of which there is at most one row: registered unless it is known. */
  function Meet(rows: Rows, f: Found): Rows {
    if Copies(rows, f.platform, f.filename) == 1 then rows else Register(rows, f.platform, f.filename)
  }

  /** What discovery makes of the rows; None when a lookup raises, and the transaction is rolled back. */
  function Discover(rows: Rows, found: seq<Found>): Option<Rows>
    decreases |found|
  {
    if found == [] then Some(rows)
    else if Copies(rows, found[0].platform, found[0].filename) > 1 then None
    else Discover(Meet(rows, found[0]), found[1..])
  }

  lemma CopiesAfterRegister(rows: Rows, platform: string, filename: string, p: string, f: string)
    ensures Copies(Register(rows, platform, filename), p, f)
            == Copies(rows, p, f) + (if platform == p && filename == f then 1 else 0)
  {
    var r := Register(rows, platform, filename);
    assert r[..|r| - 1] == DeactivateAll(rows, platform);
    CopiesSameNames(rows, DeactivateAll(rows, platform), p, f);
  }

  lemma {:induction false} CopiesSameNames(a: Rows, b: Rows, platform: string, filename: string)
    requires |a| == |b| && forall i :: 0 <= i < |a| ==> a[i].platform == b[i].platform && a[i].filename == b[i].filename
    ensures Copies(a, platform, filename) == Copies(b, platform, filename)
  {
    if a != [] { CopiesSameNames(a[..|a| - 1], b[..|b| - 1], platform, filename); }
  }

  lemma MeetCopies(rows: Rows, f: Found, g: Found)
    requires Copies(rows, f.platform, f.filename) <= 1
    ensures Copies(Meet(rows, f), g.platform, g.filename) == if g == f then 1 else Copies(rows, g.platform, g.filename)
  {
    CopiesAfterRegister(rows, f.platform, f.filename, g.platform, g.filename);
    hide Copies, Register;
  }

  lemma {:induction false} DiscoverCopies(rows: Rows, found: seq<Found>, g: Found)
    requires Discover(rows, found).Some?
    ensures Copies(Discover(rows, found).value, g.platform, g.filename)
            == if g in found then 1 else Copies(rows, g.platform, g.filename)
    decreases |found|
  {
    hide Copies, Meet;
    if found != [] {
      MeetCopies(rows, found[0], g);
      DiscoverCopies(Meet(rows, found[0]), found[1..], g);
      assert found == [found[0]] + found[1..];
    }
  }

  lemma {:induction false} DiscoverRaises(rows: Rows, found: seq<Found>)
    ensures Discover(rows, found).None? <==> exists f :: f in found && Copies(rows, f.platform, f.filename) > 1
    decreases |found|
  {
    hide Copies, Meet;
    if found != [] && Copies(rows, found[0].platform, found[0].filename) <= 1 {
      var next := Meet(rows, found[0]);
      forall g: Found ensures Copies(next, g.platform, g.filename) > 1 <==> Copies(rows, g.platform, g.filename) > 1 {
        MeetCopies(rows, found[0], g);
      }
      DiscoverRaises(next, found[1..]);
      assert found == [found[0]] + found[1..];
    }
  }

  /**
   Discovery raises exactly when some file it finds already has two rows. When it does not, every found file
   has exactly one row afterwards, and the number of rows of any other file is unchanged.
   */
  lemma DiscoverExactly(rows: Rows, found: seq<Found>)
    ensures Discover(rows, found).None? <==> exists f :: f in found && Copies(rows, f.platform, f.filename) > 1
    ensures Discover(rows, found).Some? ==>
              forall g: Found :: Copies(Discover(rows, found).value, g.platform, g.filename)
                                 == if g in found then 1 else Copies(rows, g.platform, g.filename)
  {
    DiscoverRaises(rows, found);
    if Discover(rows, found).Some? {
      forall g: Found ensures Copies(Discover(rows, found).value, g.platform, g.filename)
                              == if g in found then 1 else Copies(rows, g.platform, g.filename) {
        DiscoverCopies(rows, found, g);
      }
    }
  }

  lemma {:induction false} DiscoverKeepsOneActive(rows: Rows, found: seq<Found>)
    requires OneActive(rows) && Discover(rows, found).Some?
    ensures OneActive(Discover(rows, found).value)
    decreases |found|
  {
    hide Register, OneActive;
    if found != [] {
      var f := found[0];
      RegisterKeepsOneActive(rows, f.platform, f.filename);
      DiscoverKeepsOneActive(Meet(rows, f), found[1..]);
    }
  }

  lemma {:induction false} NothingToDiscover(rows: Rows, found: seq<Found>)
    requires forall i :: 0 <= i < |found| ==> Copies(rows, found[i].platform, found[i].filename) == 1
    ensures Discover(rows, found) == Some(rows)
  {
    if found != [] { NothingToDiscover(rows, found[1..]); }
  }

  /** Discovering an unchanged directory again changes nothing. */
  lemma DiscoveryIsIdempotent(rows: Rows, found: seq<Found>)
    requires Discover(rows, found).Some?
    ensures Discover(Discover(rows, found).value, found) == Discover(rows, found)
  {
    DiscoverExactly(rows, found);
    var after := Discover(rows, found).value;
    forall i | 0 <= i < |found| ensures Copies(after, found[i].platform, found[i].filename) == 1 {
      assert found[i] in found;
    }
    NothingToDiscover(after, found);
  }

  /** Two uploads within one second get the same file name, and from then on discovery of that file raises. */
  lemma SameSecondUploadsBlockDiscovery(rows: Rows, platform: string, filename: string, found: seq<Found>)
    requires Found(platform, filename) in found
    ensures Discover(Register(Register(rows, platform, filename), platform, filename), found) == None
  {
    var once := Register(rows, platform, filename);
    CopiesAfterRegister(rows, platform, filename, platform, filename);
    CopiesAfterRegister(once, platform, filename, platform, filename);
    DiscoverExactly(Register(once, platform, filename), found);
  }

  // ------------------------------------------------------------------ runs

  datatype Event = Upload(platform: string, filename: string) | Discovery(found: seq<Found>)

  /** One event; a discovery that raises leaves the rows as they were. */
  function Happen(rows: Rows, e: Event): Rows {
    match e
    case Upload(platform, filename) => Register(rows, platform, filename)
    case Discovery(found) => Discover(rows, found).GetOr(rows)
  }

  function History(events: seq<Event>): Rows {
    if events == [] then [] else Happen(History(events[..|events| - 1]), events[|events| - 1])
  }

  /** After any serial run of uploads and discoveries, get_active_cookie finds at most one row per platform: the last. */
  lemma {:induction false} ActiveCookieUnambiguous(events: seq<Event>, platform: string)
    ensures OneActive(History(events))
    ensures ActiveCount(History(events), platform) <= 1
    ensures forall i :: 0 <= i < |History(events)| && History(events)[i].platform == platform && History(events)[i].isActive ==>
              LastRow(History(events), platform) == Some(History(events)[i])
  {
    if events != [] {
      var before, e := History(events[..|events| - 1]), events[|events| - 1];
      ActiveCookieUnambiguous(events[..|events| - 1], platform);
      match e
      case Upload(p, f) => RegisterKeepsOneActive(before, p, f);
      case Discovery(found) => if Discover(before, found).Some? { DiscoverKeepsOneActive(before, found); }
    }
    assert LastIsActive(History(events), platform);
    OnlyLastIsActive(History(events), platform);
  }

  // ------------------------------------------------------------------ the registry

  class Registry {
    var rows: Rows

    constructor ()
      ensures rows == [] && OneActive(rows)
    {
      rows := [];
    }

    method DeactivateAllCookies(platform: string)
      modifies this
      ensures rows == DeactivateAll(old(rows), platform)
    {
      rows := DeactivateAll(rows, platform);
    }

    /** scalar_one_or_none over platform and file name. */
    method Find(platform: string, filename: string) returns (r: Result<bool, DbError>)
      ensures r == if Copies(rows, platform, filename) > 1 then Err(MultipleResultsFound) else Ok(Copies(rows, platform, filename) == 1)
      ensures r.Err? <==> exists i, j :: 0 <= i < j < |rows| && Named(rows[i], platform, filename) && Named(rows[j], platform, filename)
      ensures r == Ok(false) <==> forall i :: 0 <= i < |rows| ==> !Named(rows[i], platform, filename)
    {
      CopiesExactly(rows, platform, filename);
      var n := Copies(rows, platform, filename);
      if n > 1 { return Err(MultipleResultsFound); }
      r := Ok(n == 1);
    }

    /**
     get_active_cookie: raises exactly when two rows are active, finds nothing exactly when none is, and is the
     last row registered while the registry is in order.
     */
    method GetActiveCookie(platform: string) returns (r: Result<Option<CookieFile>, DbError>)
      ensures r.Err? <==> exists i, j :: 0 <= i < j < |rows| && ActiveOn(rows[i], platform) && ActiveOn(rows[j], platform)
      ensures r.Ok? ==> (r.value.None? <==> forall i :: 0 <= i < |rows| ==> !ActiveOn(rows[i], platform))
      ensures r.Ok? && r.value.Some? ==> r.value.value in rows && r.value.value.platform == platform && r.value.value.isActive
      ensures OneActive(rows) ==> r == Ok(LastRow(rows, platform))
    {
      if LastIsActive(rows, platform) { OnlyLastIsActive(rows, platform); }
      ActiveExactly(rows, platform);
      var found: Option<CookieFile> := None;
      var count := 0;
      for i := 0 to |rows|
        invariant count == ActiveCount(rows[..i], platform)
        invariant found.Some? <==> count > 0
        invariant found.Some? ==> exists k :: 0 <= k < i && rows[k] == found.value && rows[k].platform == platform && rows[k].isActive
      {
        assert rows[..i + 1][..i] == rows[..i];
        if rows[i].platform == platform && rows[i].isActive {
          found := Some(rows[i]);
          count := count + 1;
        }
      }
      assert rows[..|rows|] == rows;
      r := if count > 1 then Err(MultipleResultsFound) else Ok(found);
    }

    /** The database part of save_cookie_file. */
    method SaveCookieFile(platform: string, filename: string)
      modifies this
      ensures rows == Register(old(rows), platform, filename)
      ensures |rows| == |old(rows)| + 1 && rows[|old(rows)|] == CookieFile(platform, filename, true)
      ensures forall i :: 0 <= i < |old(rows)| ==>
                rows[i] == old(rows)[i].(isActive := old(rows)[i].isActive && old(rows)[i].platform != platform)
      ensures OneActive(old(rows)) ==> OneActive(rows)
    {
      if OneActive(rows) { RegisterKeepsOneActive(rows, platform, filename); }
      DeactivateAllCookies(platform);
      rows := rows + [CookieFile(platform, filename, true)];
    }

    /** discover_local_cookies over what the directories hold; a failing lookup rolls everything back. */
    method DiscoverLocalCookies(found: seq<Found>) returns (ok: bool)
      modifies this
      ensures ok <==> Discover(old(rows), found).Some?
      ensures rows == Happen(old(rows), Discovery(found))
      ensures OneActive(old(rows)) ==> OneActive(rows)
    {
      if OneActive(rows) && Discover(rows, found).Some? { DiscoverKeepsOneActive(rows, found); }
      var before := rows;
      for i := 0 to |found|
        invariant Discover(before, found) == Discover(rows, found[i..])
      {
        var known := Find(found[i].platform, found[i].filename);
        if known.Err? {
          rows := before;
          return false;
        }
        if !known.value {
          DeactivateAllCookies(found[i].platform);
          rows := rows + [CookieFile(found[i].platform, found[i].filename, true)];
        }
        assert found[i..][1..] == found[i + 1..];
      }
      assert found[|found|..] == [];
      ok := true;
    }
  }
}
