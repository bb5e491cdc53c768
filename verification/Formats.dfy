/** Choosing a format (utils/ytdlp.py, select_best_format) and offering qualities (workers/preflight.py). */
module Formats {
  import opened Wrappers
  import opened Text

  datatype FormatInfo = FormatInfo(formatId: string, height: Option<int>, filesize: Option<int>, vcodec: Option<string>)
  {
    function Height(): int { height.GetOr(0) }
    function Size(): int { filesize.GetOr(0) }
    predicate HasVideo() { vcodec != Some("none") }
    predicate AudioOnly() { vcodec == Some("none") || vcodec == None }
    /** Not above the target height and not known to exceed the size limit. */
    predicate Fits(target: int, maxBytes: int) {
      HasVideo() && Height() <= target && (filesize.None? || filesize.value <= maxBytes)
    }
  }

  // ------------------------------------------------------------------ choosing

  /** A Python sort key; size-only keys have a constant first component. */
  datatype SortKey = SortKey(major: int, minor: int) {
    predicate Less(other: SortKey) {
      major < other.major || (major == other.major && minor < other.minor)
    }
  }

  function SizeKey(f: FormatInfo): SortKey { SortKey(0, f.Size()) }
  function HeightThenSize(f: FormatInfo): SortKey { SortKey(f.Height(), f.Size()) }

  /**
   `r` is the earliest of the maximal elements, under `key`, of those elements of `fs` that satisfy `p`.
   */
  ghost predicate IsEarliestMax(fs: seq<FormatInfo>, p: FormatInfo -> bool, key: FormatInfo -> SortKey, r: FormatInfo) {
    exists i :: 0 <= i < |fs| && IsEarliestMaxAt(fs, p, key, i) && fs[i] == r
  }

  ghost predicate IsEarliestMaxAt(fs: seq<FormatInfo>, p: FormatInfo -> bool, key: FormatInfo -> SortKey, i: nat)
    requires i < |fs|
  {
    && p(fs[i])
    && (forall j :: 0 <= j < |fs| && p(fs[j]) ==> !key(fs[i]).Less(key(fs[j])))
    && (forall j :: 0 <= j < i && p(fs[j]) ==> key(fs[j]).Less(key(fs[i])))
  }

  /** `x` goes before the first element that is not greater: with its equals, the earlier stays first. */
  function Insert(x: FormatInfo, sorted: seq<FormatInfo>, key: FormatInfo -> SortKey): (r: seq<FormatInfo>)
    ensures |r| == |sorted| + 1
  {
    if sorted == [] || !key(x).Less(key(sorted[0])) then [x] + sorted
    else [sorted[0]] + Insert(x, sorted[1..], key)
  }

  /** sorted(fs, key=key, reverse=True): descending, and stable although reversed. */
  function Sorted(fs: seq<FormatInfo>, key: FormatInfo -> SortKey): (r: seq<FormatInfo>)
    ensures |r| == |fs|
  {
    if fs == [] then [] else Insert(fs[0], Sorted(fs[1..], key), key)
  }

  function Filter(fs: seq<FormatInfo>, p: FormatInfo -> bool): seq<FormatInfo> {
    if fs == [] then [] else (if p(fs[0]) then [fs[0]] else []) + Filter(fs[1..], p)
  }

  const AUDIO_ONLY: FormatInfo -> bool := (f: FormatInfo) => f.AudioOnly()
  const WITH_VIDEO: FormatInfo -> bool := (f: FormatInfo) => f.HasVideo()
  const ANY: FormatInfo -> bool := f => true
  function Fitting(target: int, maxBytes: int): FormatInfo -> bool { (f: FormatInfo) => f.Fits(target, maxBytes) }

  /** NoFormat is the source's None; IndexError is what indexing an empty sorted list raises. */
  datatype Choice = Chosen(format: FormatInfo) | NoFormat | IndexError

  function LargestOr(preferred: seq<FormatInfo>, all: seq<FormatInfo>): Choice {
    if preferred != [] then Chosen(Sorted(preferred, SizeKey)[0])
    else if all != [] then Chosen(Sorted(all, SizeKey)[0])
    else IndexError
  }

  function TargetHeight(quality: string): int { ParseInt(quality).GetOr(720) }

  function Choose(formats: seq<FormatInfo>, quality: string, maxBytes: int): Choice {
    if quality == "audio" then LargestOr(Filter(formats, AUDIO_ONLY), formats)
    else if quality == "best" then LargestOr(Filter(formats, WITH_VIDEO), formats)
    else
      var target := TargetHeight(quality);
      var candidates := Filter(formats, Fitting(target, maxBytes));
      if candidates != [] then Chosen(Sorted(candidates, HeightThenSize)[0])
      else if formats != [] then Chosen(Sorted(formats, SizeKey)[0])
      else NoFormat
  }

  method SelectBestFormat(formats: seq<FormatInfo>, quality: string, maxSizeMb: int) returns (choice: Choice)
    ensures choice == Choose(formats, quality, maxSizeMb * 1024 * 1024)
  {
    var maxBytes := maxSizeMb * 1024 * 1024;
    if quality == "audio" {
      return LargestOr(Filter(formats, AUDIO_ONLY), formats);
    }
    if quality == "best" {
      return LargestOr(Filter(formats, WITH_VIDEO), formats);
    }
    var target := TargetHeight(quality);
    ghost var fits := Fitting(target, maxBytes);
    var candidates := [];
    for i := 0 to |formats|
      invariant candidates == Filter(formats[..i], fits)
    {
      var f := formats[i];
      FilterAppend(formats[..i], f, fits);
      assert formats[..i + 1] == formats[..i] + [f];
      if f.vcodec == Some("none") {
        continue;
      }
      var h := f.height.GetOr(0);
      if h <= target && (f.filesize.None? || f.filesize.value <= maxBytes) {
        candidates := candidates + [f];
      }
    }
    assert formats[..|formats|] == formats;
    if candidates != [] {
      choice := Chosen(Sorted(candidates, HeightThenSize)[0]);
    } else if formats != [] {
      choice := Chosen(Sorted(formats, SizeKey)[0]);
    } else {
      choice := NoFormat;
    }
  }

  lemma {:induction false} FilterAppend(fs: seq<FormatInfo>, f: FormatInfo, p: FormatInfo -> bool)
    ensures Filter(fs + [f], p) == Filter(fs, p) + (if p(f) then [f] else [])
  {
    if fs == [] {
      assert fs + [f] == [f];
    } else {
      hide Filter;
      FilterAppend(fs[1..], f, p);
      FilterCons(fs[0], fs[1..] + [f], p);
      FilterCons(fs[0], fs[1..], p);
      assert fs + [f] == [fs[0]] + (fs[1..] + [f]) && fs == [fs[0]] + fs[1..];
    }
  }

  // ------------------------------------------------------------------ what a stable sort is

  ghost predicate Descending(fs: seq<FormatInfo>, key: FormatInfo -> SortKey) {
    forall i, j :: 0 <= i < j < |fs| ==> !key(fs[i]).Less(key(fs[j]))
  }

  function HasKey(key: FormatInfo -> SortKey, k: SortKey): FormatInfo -> bool { (f: FormatInfo) => key(f) == k }

  /** A stable descending arrangement: the elements of each key are those of the list, in the order of the list. */
  ghost predicate IsStableSort(fs: seq<FormatInfo>, sorted: seq<FormatInfo>, key: FormatInfo -> SortKey) {
    Descending(sorted, key) && forall k :: Filter(sorted, HasKey(key, k)) == Filter(fs, HasKey(key, k))
  }

  lemma {:induction false} FilterMembers(fs: seq<FormatInfo>, p: FormatInfo -> bool)
    ensures forall f :: f in Filter(fs, p) <==> f in fs && p(f)
  {
    if fs != [] {
      FilterMembers(fs[1..], p);
      assert fs == [fs[0]] + fs[1..];
    }
  }

  lemma {:induction false} InsertMembers(x: FormatInfo, sorted: seq<FormatInfo>, key: FormatInfo -> SortKey)
    ensures forall f :: f in Insert(x, sorted, key) <==> f == x || f in sorted
  {
    if sorted == [] || !key(x).Less(key(sorted[0])) {
    } else {
      InsertMembers(x, sorted[1..], key);
      assert sorted == [sorted[0]] + sorted[1..];
    }
  }

  lemma {:induction false} InsertDescends(x: FormatInfo, sorted: seq<FormatInfo>, key: FormatInfo -> SortKey)
    requires Descending(sorted, key)
    ensures Descending(Insert(x, sorted, key), key)
  {
    if sorted == [] || !key(x).Less(key(sorted[0])) {
    } else {
      var rest := Insert(x, sorted[1..], key);
      InsertDescends(x, sorted[1..], key);
      InsertMembers(x, sorted[1..], key);
      forall j | 0 <= j < |rest| ensures !key(sorted[0]).Less(key(rest[j])) {
        assert rest[j] in rest;
      }
    }
  }

  lemma FilterCons(f: FormatInfo, fs: seq<FormatInfo>, p: FormatInfo -> bool)
    ensures Filter([f] + fs, p) == (if p(f) then [f] else []) + Filter(fs, p)
  {
    assert ([f] + fs)[1..] == fs;
  }

  /** Inserting puts the element in front of its equals and leaves everything else in place. */
  lemma {:induction false} InsertStable(x: FormatInfo, sorted: seq<FormatInfo>, key: FormatInfo -> SortKey, k: SortKey)
    ensures Filter(Insert(x, sorted, key), HasKey(key, k))
            == (if key(x) == k then [x] else []) + Filter(sorted, HasKey(key, k))
  {
    var p := HasKey(key, k);
    hide Filter;
    if sorted == [] || !key(x).Less(key(sorted[0])) {
      FilterCons(x, sorted, p);
    } else {
      InsertStable(x, sorted[1..], key, k);
      FilterCons(sorted[0], Insert(x, sorted[1..], key), p);
      assert sorted == [sorted[0]] + sorted[1..];
      FilterCons(sorted[0], sorted[1..], p);
    }
  }

  /** The sort is one, so it is a permutation, too. */
  lemma {:induction false} SortedIsStable(fs: seq<FormatInfo>, key: FormatInfo -> SortKey)
    ensures IsStableSort(fs, Sorted(fs, key), key)
  {
    if fs != [] {
      var rest := Sorted(fs[1..], key);
      SortedIsStable(fs[1..], key);
      InsertDescends(fs[0], rest, key);
      forall k ensures Filter(Sorted(fs, key), HasKey(key, k)) == Filter(fs, HasKey(key, k)) {
        InsertStable(fs[0], rest, key, k);
        assert Filter(rest, HasKey(key, k)) == Filter(fs[1..], HasKey(key, k));
      }
    }
  }

  /** The head of any stable descending arrangement is the earliest maximum of the list. */
  lemma StableHeadIsEarliestMax(fs: seq<FormatInfo>, sorted: seq<FormatInfo>, key: FormatInfo -> SortKey)
    requires IsStableSort(fs, sorted, key) && sorted != []
    ensures IsEarliestMax(fs, ANY, key, sorted[0])
  {
    var top := sorted[0];
    var same := HasKey(key, key(top));
    assert Filter(sorted, same)[0] == top;
    var i := FirstOfFilter(fs, same);
    forall j | 0 <= j < |fs| ensures !key(top).Less(key(fs[j])) {
      FilterMembers(fs, HasKey(key, key(fs[j])));
      FilterMembers(sorted, HasKey(key, key(fs[j])));
      assert fs[j] in Filter(fs, HasKey(key, key(fs[j])));
    }
    assert IsEarliestMaxAt(fs, ANY, key, i);
  }

  /** Where the first element that passes a filter stands. */
  lemma {:induction false} FirstOfFilter(fs: seq<FormatInfo>, p: FormatInfo -> bool) returns (i: nat)
    requires Filter(fs, p) != []
    ensures i < |fs| && fs[i] == Filter(fs, p)[0] && p(fs[i]) && forall j :: 0 <= j < i ==> !p(fs[j])
  {
    if p(fs[0]) {
      i := 0;
    } else {
      var k := FirstOfFilter(fs[1..], p);
      i := k + 1;
    }
  }

  /** Filtering first and then sorting gives the earliest maximum among the elements that pass the filter. */
  lemma SortedFirstIsEarliestMax(fs: seq<FormatInfo>, p: FormatInfo -> bool, key: FormatInfo -> SortKey)
    requires Filter(fs, p) != []
    ensures IsEarliestMax(fs, p, key, Sorted(Filter(fs, p), key)[0])
  {
    var kept := Filter(fs, p);
    SortedIsStable(kept, key);
    StableHeadIsEarliestMax(kept, Sorted(kept, key), key);
    hide Sorted, IsStableSort;
    EarliestMaxUnfiltered(fs, p, key, Sorted(kept, key)[0]);
  }

  lemma {:induction false} EarliestMaxUnfiltered(fs: seq<FormatInfo>, p: FormatInfo -> bool, key: FormatInfo -> SortKey, r: FormatInfo)
    requires IsEarliestMax(Filter(fs, p), ANY, key, r)
    ensures IsEarliestMax(fs, p, key, r)
  {
    var kept := Filter(fs, p);
    var i :| 0 <= i < |kept| && IsEarliestMaxAt(kept, ANY, key, i) && kept[i] == r;
    var at := PlaceOfFiltered(fs, p, i);
    FilterMembers(fs, p);
    forall j | 0 <= j < |fs| && p(fs[j]) ensures !key(r).Less(key(fs[j])) {
      assert fs[j] in kept;
    }
    assert IsEarliestMaxAt(fs, p, key, at);
  }

  /** Where the i-th element that passes a filter stands: all that pass before it are among the first i. */
  lemma {:induction false} PlaceOfFiltered(fs: seq<FormatInfo>, p: FormatInfo -> bool, i: nat) returns (at: nat)
    requires i < |Filter(fs, p)|
    ensures at < |fs| && fs[at] == Filter(fs, p)[i] && p(fs[at])
    ensures forall j :: 0 <= j < at && p(fs[j]) ==> fs[j] in Filter(fs, p)[..i]
  {
    if p(fs[0]) && i == 0 {
      at := 0;
    } else {
      var rest := Filter(fs[1..], p);
      var k := if p(fs[0]) then i - 1 else i;
      var before := PlaceOfFiltered(fs[1..], p, k);
      at := before + 1;
      assert Filter(fs, p)[..i] == (if p(fs[0]) then [fs[0]] else []) + rest[..k];
      forall j | 0 <= j < at && p(fs[j]) ensures fs[j] in Filter(fs, p)[..i] {
        if j > 0 { assert fs[1..][j - 1] in rest[..k]; }
      }
    }
  }

  lemma {:induction false} FilterEmpty(fs: seq<FormatInfo>, p: FormatInfo -> bool)
    ensures Filter(fs, p) == [] <==> forall i :: 0 <= i < |fs| ==> !p(fs[i])
  {
    if fs != [] {
      FilterEmpty(fs[1..], p);
      assert forall i :: 1 <= i < |fs| ==> fs[i] == fs[1..][i - 1];
      assert Filter(fs, p) == [] ==> !p(fs[0]) && Filter(fs[1..], p) == [];
    }
  }

  lemma {:induction false} FilterAll(fs: seq<FormatInfo>)
    ensures Filter(fs, ANY) == fs
  {
    if fs != [] { FilterAll(fs[1..]); }
  }

  /** The earliest maximum is one element. */
  lemma EarliestMaxUnique(fs: seq<FormatInfo>, p: FormatInfo -> bool, key: FormatInfo -> SortKey, a: FormatInfo, b: FormatInfo)
    requires IsEarliestMax(fs, p, key, a) && IsEarliestMax(fs, p, key, b)
    ensures a == b
  {
    var i :| 0 <= i < |fs| && IsEarliestMaxAt(fs, p, key, i) && fs[i] == a;
    var j :| 0 <= j < |fs| && IsEarliestMaxAt(fs, p, key, j) && fs[j] == b;
    assert !(i < j) && !(j < i);
  }

  function Wanted(quality: string, maxBytes: int): FormatInfo -> bool {
    if quality == "audio" then AUDIO_ONLY
    else if quality == "best" then WITH_VIDEO
    else Fitting(TargetHeight(quality), maxBytes)
  }

  /** What the choice should be, said without sorting or filtering. */
  ghost predicate IsRightChoice(formats: seq<FormatInfo>, quality: string, maxBytes: int, choice: Choice) {
    var wanted := Wanted(quality, maxBytes);
    var named := quality == "audio" || quality == "best";
    if formats == [] then choice == (if named then IndexError else NoFormat)
    else
      && choice.Chosen?
      && if exists f :: f in formats && wanted(f)
         then IsEarliestMax(formats, wanted, if named then SizeKey else HeightThenSize, choice.format)
         else IsEarliestMax(formats, ANY, SizeKey, choice.format)
  }

  lemma ChoiceIsRight(formats: seq<FormatInfo>, quality: string, maxBytes: int)
    ensures IsRightChoice(formats, quality, maxBytes, Choose(formats, quality, maxBytes))
  {
    var wanted := Wanted(quality, maxBytes);
    FilterEmpty(formats, wanted);
    if Filter(formats, wanted) != [] {
      SortedFirstIsEarliestMax(formats, wanted, SizeKey);
      SortedFirstIsEarliestMax(formats, wanted, HeightThenSize);
    } else if formats != [] {
      FilterAll(formats);
      SortedFirstIsEarliestMax(formats, ANY, SizeKey);
    }
  }

  /** There is one right choice. */
  lemma RightChoiceUnique(formats: seq<FormatInfo>, quality: string, maxBytes: int, a: Choice, b: Choice)
    requires IsRightChoice(formats, quality, maxBytes, a) && IsRightChoice(formats, quality, maxBytes, b)
    ensures a == b
  {
    if formats != [] {
      var wanted := Wanted(quality, maxBytes);
      var key := if quality == "audio" || quality == "best" then SizeKey else HeightThenSize;
      hide IsEarliestMax;
      if exists f :: f in formats && wanted(f) {
        EarliestMaxUnique(formats, wanted, key, a.format, b.format);
      } else {
        EarliestMaxUnique(formats, ANY, SizeKey, a.format, b.format);
      }
    }
  }

  // ------------------------------------------------------------------ the choice, rule by rule

  /** "audio": the largest format without a video codec, the earliest of equals; an unknown size counts as zero. */
  lemma AudioChoice(formats: seq<FormatInfo>, maxBytes: int) returns (i: nat)
    requires exists f :: f in formats && (f.vcodec == Some("none") || f.vcodec == None)
    ensures i < |formats| && Choose(formats, "audio", maxBytes) == Chosen(formats[i])
    ensures formats[i].vcodec == Some("none") || formats[i].vcodec == None
    ensures forall j :: 0 <= j < |formats| && (formats[j].vcodec == Some("none") || formats[j].vcodec == None) ==>
              && formats[j].filesize.GetOr(0) <= formats[i].filesize.GetOr(0)
              && (j < i ==> formats[j].filesize.GetOr(0) < formats[i].filesize.GetOr(0))
  {
    ChoiceIsRight(formats, "audio", maxBytes);
    i :| 0 <= i < |formats| && IsEarliestMaxAt(formats, AUDIO_ONLY, SizeKey, i)
         && formats[i] == Choose(formats, "audio", maxBytes).format;
  }

  /** "best": the largest format that has video, the earliest of equals, whatever its size. */
  lemma BestChoice(formats: seq<FormatInfo>, maxBytes: int) returns (i: nat)
    requires exists f :: f in formats && f.vcodec != Some("none")
    ensures i < |formats| && Choose(formats, "best", maxBytes) == Chosen(formats[i])
    ensures formats[i].vcodec != Some("none")
    ensures forall j :: 0 <= j < |formats| && formats[j].vcodec != Some("none") ==>
              && formats[j].filesize.GetOr(0) <= formats[i].filesize.GetOr(0)
              && (j < i ==> formats[j].filesize.GetOr(0) < formats[i].filesize.GetOr(0))
  {
    ChoiceIsRight(formats, "best", maxBytes);
    i :| 0 <= i < |formats| && IsEarliestMaxAt(formats, WITH_VIDEO, SizeKey, i)
         && formats[i] == Choose(formats, "best", maxBytes).format;
  }

  /**
   Any other quality, a number or else 720: of the formats with video that are not taller and not known to be
   too large, the tallest, then the largest, then the earliest.
   */
  lemma HeightChoice(formats: seq<FormatInfo>, quality: string, maxBytes: int) returns (i: nat)
    requires quality != "audio" && quality != "best"
    requires exists f :: f in formats && AtMost(f, ParseInt(quality).GetOr(720), maxBytes)
    ensures i < |formats| && Choose(formats, quality, maxBytes) == Chosen(formats[i])
    ensures var f := formats[i];
            && f.vcodec != Some("none") && f.height.GetOr(0) <= ParseInt(quality).GetOr(720)
            && (f.filesize.Some? ==> f.filesize.value <= maxBytes)
    ensures forall j :: 0 <= j < |formats| && AtMost(formats[j], ParseInt(quality).GetOr(720), maxBytes) ==>
              var f, g := formats[i], formats[j];
              && g.height.GetOr(0) <= f.height.GetOr(0)
              && (g.height.GetOr(0) == f.height.GetOr(0) ==>
                    g.filesize.GetOr(0) <= f.filesize.GetOr(0) && (j < i ==> g.filesize.GetOr(0) < f.filesize.GetOr(0)))
  {
    ChoiceIsRight(formats, quality, maxBytes);
    hide Choose, ParseInt;
    i :| 0 <= i < |formats| && IsEarliestMaxAt(formats, Fitting(TargetHeight(quality), maxBytes), HeightThenSize, i)
         && formats[i] == Choose(formats, quality, maxBytes).format;
  }

  /** With nothing that qualifies, any quality takes the largest of all formats, the earliest of equals. */
  lemma FallbackChoice(formats: seq<FormatInfo>, quality: string, maxBytes: int) returns (i: nat)
    requires formats != []
    requires forall f :: f in formats ==>
               if quality == "audio" then f.vcodec.Some? && f.vcodec.value != "none"
               else if quality == "best" then f.vcodec == Some("none")
               else !AtMost(f, ParseInt(quality).GetOr(720), maxBytes)
    ensures i < |formats| && Choose(formats, quality, maxBytes) == Chosen(formats[i])
    ensures forall j :: 0 <= j < |formats| ==>
              && formats[j].filesize.GetOr(0) <= formats[i].filesize.GetOr(0)
              && (j < i ==> formats[j].filesize.GetOr(0) < formats[i].filesize.GetOr(0))
  {
    ChoiceIsRight(formats, quality, maxBytes);
    hide Choose, ParseInt;
    i :| 0 <= i < |formats| && IsEarliestMaxAt(formats, ANY, SizeKey, i)
         && formats[i] == Choose(formats, quality, maxBytes).format;
  }

  /** With video, no taller than the height, and not known to be larger than the bytes. */
  predicate AtMost(f: FormatInfo, height: int, bytes: int) {
    f.vcodec != Some("none") && f.height.GetOr(0) <= height && (f.filesize.Some? ==> f.filesize.value <= bytes)
  }

  lemma NumericNotNamed(quality: string)
    requires ParseInt(quality).Some?
    ensures quality != "audio" && quality != "best"
  {
    assert ParseInt("audio").None? && ParseInt("best").None?;
  }

  /** For a numeric quality at which something fits, the choice fits, and nothing that fits is taller. */
  lemma TallestFitting(formats: seq<FormatInfo>, quality: string, maxBytes: int)
    requires ParseInt(quality).Some? && exists f :: f in formats && f.Fits(TargetHeight(quality), maxBytes)
    ensures var choice := Choose(formats, quality, maxBytes);
            && choice.Chosen? && choice.format in formats && choice.format.Fits(TargetHeight(quality), maxBytes)
            && forall f :: f in formats && f.Fits(TargetHeight(quality), maxBytes) ==> f.Height() <= choice.format.Height()
  {
    NumericNotNamed(quality);
    ChoiceIsRight(formats, quality, maxBytes);
    hide Choose, ParseInt, TargetHeight;
    var target, choice := TargetHeight(quality), Choose(formats, quality, maxBytes);
    assert Wanted(quality, maxBytes) == Fitting(target, maxBytes);
    assert forall f: FormatInfo :: Fitting(target, maxBytes)(f) == f.Fits(target, maxBytes);
    assert IsEarliestMax(formats, Fitting(target, maxBytes), HeightThenSize, choice.format);
    forall f | f in formats && f.Fits(target, maxBytes) ensures f.Height() <= choice.format.Height() {
      assert !HeightThenSize(choice.format).Less(HeightThenSize(f));
    }
  }

  /** Asking for more never yields less: as long as something fits the lower target. */
  lemma RaisingTargetNeverLowersHeight(formats: seq<FormatInfo>, low: string, high: string, maxBytes: int)
    requires ParseInt(low).Some? && ParseInt(high).Some? && ParseInt(low).value <= ParseInt(high).value
    requires exists f :: f in formats && f.Fits(TargetHeight(low), maxBytes)
    ensures Choose(formats, low, maxBytes).Chosen? && Choose(formats, high, maxBytes).Chosen?
    ensures Choose(formats, low, maxBytes).format.Height() <= Choose(formats, high, maxBytes).format.Height()
  {
    hide Choose, ParseInt;
    TallestFitting(formats, low, maxBytes);
    assert Choose(formats, low, maxBytes).format.Fits(TargetHeight(high), maxBytes);
    TallestFitting(formats, high, maxBytes);
  }

  // ------------------------------------------------------------------ the menu

  datatype Button = Video(height: nat) | Audio

  const MIN_HEIGHT := 144

  function Quality(b: Button): (q: string)
    ensures NoColon(q)
    ensures b == Audio ==> q == "audio"
    ensures b.Video? ==> ParseInt(q) == Some(b.height)
  {
    match b
    case Video(h) => ParseDecimal(h); Decimal(h)
    case Audio => "audio"
  }

  function CallbackData(job: string, b: Button): string { "dl_q" + ":" + (job + ":" + Quality(b)) }

  /** The height belongs in the menu. */
  ghost predicate Offered(formats: seq<FormatInfo>, h: int) {
    h >= MIN_HEIGHT && exists f :: f in formats && f.HasVideo() && f.height == Some(h)
  }

  ghost predicate StrictlyDescending(hs: seq<nat>) {
    forall i, j :: 0 <= i < j < |hs| ==> hs[i] > hs[j]
  }

  function Videos(hs: seq<nat>): (bs: seq<Button>)
    ensures |bs| == |hs|
    ensures forall i :: 0 <= i < |hs| ==> bs[i] == Video(hs[i])
  {
    if hs == [] then [] else [Video(hs[0])] + Videos(hs[1..])
  }

  /** The right menu for a format list: every offered height once, tallest first, and then audio. */
  ghost predicate IsMenu(formats: seq<FormatInfo>, buttons: seq<Button>) {
    exists hs: seq<nat> :: IsHeightList(formats, hs) && buttons == Videos(hs) + [Audio]
  }

  ghost predicate IsHeightList(formats: seq<FormatInfo>, hs: seq<nat>) {
    StrictlyDescending(hs) && forall h: nat :: h in hs <==> Offered(formats, h)
  }

  function Flatten(rows: seq<seq<Button>>): seq<Button> {
    if rows == [] then [] else rows[0] + Flatten(rows[1..])
  }

  lemma {:induction false} FlattenAppend(rows: seq<seq<Button>>, row: seq<Button>)
    ensures Flatten(rows + [row]) == Flatten(rows) + row
  {
    if rows == [] {
      assert rows + [row] == [row];
    } else {
      assert (rows + [row])[1..] == rows[1..] + [row];
      FlattenAppend(rows[1..], row);
    }
  }

  function InsertDescending(h: nat, hs: seq<nat>): seq<nat> {
    if hs == [] || h >= hs[0] then [h] + hs else [hs[0]] + InsertDescending(h, hs[1..])
  }

  /** buttons.sort(key=height, reverse=True) on the heights. */
  function SortDescending(hs: seq<nat>): seq<nat> {
    if hs == [] then [] else InsertDescending(hs[0], SortDescending(hs[1..]))
  }

  lemma {:induction false} InsertKeepsOrder(h: nat, hs: seq<nat>)
    requires StrictlyDescending(hs) && h !in hs
    ensures StrictlyDescending(InsertDescending(h, hs))
    ensures forall x :: x in InsertDescending(h, hs) <==> x == h || x in hs
  {
    if hs == [] || h >= hs[0] {
    } else {
      InsertKeepsOrder(h, hs[1..]);
      var t := InsertDescending(h, hs[1..]);
      forall j | 0 <= j < |t| ensures hs[0] > t[j] {
        assert t[j] in t;
        if t[j] != h { assert t[j] in hs[1..]; }
      }
      assert hs == [hs[0]] + hs[1..];
    }
  }

  lemma {:induction false} SortOrders(hs: seq<nat>)
    requires forall i, j :: 0 <= i < j < |hs| ==> hs[i] != hs[j]
    ensures StrictlyDescending(SortDescending(hs))
    ensures forall x :: x in SortDescending(hs) <==> x in hs
  {
    if hs != [] {
      SortOrders(hs[1..]);
      InsertKeepsOrder(hs[0], SortDescending(hs[1..]));
      assert hs == [hs[0]] + hs[1..];
    }
  }

  /** The collecting loop of the menu. */
  method CollectHeights(formats: seq<FormatInfo>) returns (heights: seq<nat>)
    ensures forall h: nat :: h in heights <==> Offered(formats, h)
    ensures forall h: nat :: h in heights <==>
              h >= 144 && exists f :: f in formats && f.vcodec != Some("none") && f.height == Some(h)
    ensures forall a, b :: 0 <= a < b < |heights| ==> heights[a] != heights[b]
  {
    var seen: set<int> := {};
    heights := [];
    for i := 0 to |formats|
      invariant forall h :: h in seen <==> h in heights
      invariant forall h: nat :: h in heights <==> Offered(formats[..i], h)
      invariant forall a, b :: 0 <= a < b < |heights| ==> heights[a] != heights[b]
    {
      var f := formats[i];
      assert formats[..i + 1] == formats[..i] + [f];
      ghost var before := heights;
      if f.vcodec != Some("none") && f.height.Some? && f.height.value != 0 {
        var h := f.height.value;
        if h !in seen && h >= MIN_HEIGHT {
          seen := seen + {h};
          heights := heights + [h];
        }
      }
      forall h: nat ensures h in heights <==> Offered(formats[..i + 1], h) {
        assert Offered(formats[..i + 1], h) <==>
          Offered(formats[..i], h) || (h >= MIN_HEIGHT && f.HasVideo() && f.height == Some(h));
        assert h in heights ==> h in before || f.height == Some(h);
      }
    }
    assert formats[..|formats|] == formats;
  }

  /** for i in range(0, len(buttons), 2): a row of buttons[i:i+2]. */
  method RowsOfTwo(buttons: seq<Button>) returns (rows: seq<seq<Button>>)
    ensures Flatten(rows) == buttons
    ensures forall k :: 0 <= k < |rows| - 1 ==> |rows[k]| == 2
    ensures rows != [] ==> 1 <= |rows[|rows| - 1]| <= 2
  {
    rows := [];
    var i := 0;
    while i < |buttons|
      invariant 0 <= i
      invariant Flatten(rows) == buttons[..if i < |buttons| then i else |buttons|]
      invariant i < |buttons| ==> forall k :: 0 <= k < |rows| ==> |rows[k]| == 2
      invariant forall k :: 0 <= k < |rows| - 1 ==> |rows[k]| == 2
      invariant rows != [] ==> 1 <= |rows[|rows| - 1]| <= 2
    {
      var end := if i + 2 <= |buttons| then i + 2 else |buttons|;
      FlattenAppend(rows, buttons[i..end]);
      assert buttons[..i] + buttons[i..end] == buttons[..end];
      rows := rows + [buttons[i..end]];
      i := i + 2;
    }
    assert buttons[..|buttons|] == buttons;
  }

  /** The quality menu: the right buttons in rows of two, only the last of which may be shorter. */
  method BuildQualityMenu(formats: seq<FormatInfo>) returns (rows: seq<seq<Button>>)
    ensures IsMenu(formats, Flatten(rows))
    ensures var buttons := Flatten(rows);
            && buttons != [] && buttons[|buttons| - 1] == Audio
            && (forall i :: 0 <= i < |buttons| - 1 ==> buttons[i].Video?)
            && (forall i, j :: 0 <= i < j < |buttons| - 1 ==> buttons[i].height > buttons[j].height)
            && forall h: nat :: Video(h) in buttons <==>
                 h >= 144 && exists f :: f in formats && f.vcodec != Some("none") && f.height == Some(h)
    ensures rows != [] && (forall i :: 0 <= i < |rows| - 1 ==> |rows[i]| == 2) && 1 <= |rows[|rows| - 1]| <= 2
  {
    var heights := CollectHeights(formats);
    SortOrders(heights);
    heights := SortDescending(heights);
    assert IsHeightList(formats, heights);
    var buttons := Videos(heights) + [Audio];
    forall h: nat { VideosHave(heights, h); }
    rows := RowsOfTwo(buttons);
    assert Flatten([]) == [];
  }

  /** The buttons are those of the heights. */
  lemma VideosHave(heights: seq<nat>, h: nat)
    ensures Video(h) in Videos(heights) + [Audio] <==> h in heights
  {
    if h in heights {
      var i :| 0 <= i < |heights| && heights[i] == h;
      assert (Videos(heights) + [Audio])[i] == Video(h);
    }
  }

  /** The contract leaves no choice: two right menus are equal. */
  lemma MenuUnique(formats: seq<FormatInfo>, a: seq<Button>, b: seq<Button>)
    requires IsMenu(formats, a) && IsMenu(formats, b)
    ensures a == b
  {
    var hs: seq<nat> :| IsHeightList(formats, hs) && a == Videos(hs) + [Audio];
    var ks: seq<nat> :| IsHeightList(formats, ks) && b == Videos(ks) + [Audio];
    DescendingUnique(hs, ks);
  }

  lemma {:induction false} DescendingUnique(hs: seq<nat>, ks: seq<nat>)
    requires StrictlyDescending(hs) && StrictlyDescending(ks)
    requires forall h: nat :: h in hs <==> h in ks
    ensures hs == ks
  {
    if hs == [] {
      assert forall i :: 0 <= i < |ks| ==> ks[i] in hs;
    } else {
      assert hs[0] in ks && ks != [];
      assert ks[0] in hs;
      assert hs[0] == ks[0];
      forall h: nat ensures h in hs[1..] <==> h in ks[1..] {
        assert h in hs[1..] <==> h in hs && h != hs[0] by { assert hs == [hs[0]] + hs[1..]; }
        assert h in ks[1..] <==> h in ks && h != ks[0] by { assert ks == [ks[0]] + ks[1..]; }
      }
      DescendingUnique(hs[1..], ks[1..]);
    }
  }

  /** handle_quality_selection splits the data of a button back into the job and the quality it was built from. */
  lemma TapRecoversButton(job: string, b: Button)
    requires NoColon(job)
    ensures Split(CallbackData(job, b)) == ["dl_q", job, if b == Audio then "audio" else Decimal(b.height)]
  {
    SplitJoin("dl_q", job + ":" + Quality(b));
    SplitJoin(job, Quality(b));
    SplitPlain(Quality(b));
  }

  /**
   Menu, tap and choice agree: tapping the button of a height at which some format fits the size limit
   chooses a fitting format of exactly that height.
   */
  lemma TappedHeightIsChosen(formats: seq<FormatInfo>, h: nat, maxBytes: int)
    requires Offered(formats, h)
    requires exists f :: f in formats && f.height == Some(h) && f.Fits(h, maxBytes)
    ensures var choice := Choose(formats, Quality(Video(h)), maxBytes);
            choice.Chosen? && choice.format in formats && choice.format.height == Some(h) && choice.format.Fits(h, maxBytes)
  {
    hide Choose, ParseInt;
    ParseDecimal(h);
    TallestFitting(formats, Quality(Video(h)), maxBytes);
  }

  /** Tapping Audio chooses the largest format without a video codec when there is one. */
  lemma TappedAudioIsAudioOnly(formats: seq<FormatInfo>, job: string, maxBytes: int)
    requires NoColon(job)
    requires exists f :: f in formats && (f.vcodec == Some("none") || f.vcodec == None)
    ensures var parts := Split(CallbackData(job, Audio));
            && |parts| == 3 && parts[1] == job
            && var choice := Choose(formats, parts[2], maxBytes);
               && choice.Chosen? && choice.format in formats
               && (choice.format.vcodec == Some("none") || choice.format.vcodec == None)
               && forall f :: f in formats && (f.vcodec == Some("none") || f.vcodec == None) ==>
                    f.filesize.GetOr(0) <= choice.format.filesize.GetOr(0)
  {
    TapRecoversButton(job, Audio);
    hide Choose, CallbackData;
    var i := AudioChoice(formats, maxBytes);
  }
}
