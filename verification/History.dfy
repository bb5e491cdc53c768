/** The paginated download history (handlers/history.py) over a newest-first list of jobs. */
module History {
  import opened Wrappers

  const PAGE_SIZE := 5

  /** math.ceil(total / PAGE_SIZE) or 1. */
  function TotalPages(total: nat): nat { if total == 0 then 1 else (total + PAGE_SIZE - 1) / PAGE_SIZE }

  /** max(1, min(requested, total_pages)). */
  function Clamp(requested: int, pages: nat): int {
    var m := if requested <= pages then requested else pages;
    if m < 1 then 1 else m
  }

  /** A line of the message: the printed number and the job it describes. */
  datatype Line<T> = Line(number: nat, job: T)

  datatype Message<T> =
    | Empty
    | Page(lines: seq<Line<T>>, page: nat, pages: nat, prev: Option<nat>, next: Option<nat>)

  /** LIMIT and OFFSET of get_user_history. */
  function Slice<T>(jobs: seq<T>, limit: nat, offset: nat): seq<T> {
    if offset >= |jobs| then []
    else if offset + limit >= |jobs| then jobs[offset..]
    else jobs[offset..offset + limit]
  }

  /** Every job with its 1-based rank. */
  function Numbered<T>(jobs: seq<T>): (lines: seq<Line<T>>)
    ensures |lines| == |jobs|
    ensures forall k :: 0 <= k < |jobs| ==> lines[k] == Line(k + 1, jobs[k])
  {
    seq(|jobs|, k requires 0 <= k < |jobs| => Line(k + 1, jobs[k]))
  }

  /** What page p shows: the jobs of ranks 5p - 4 to 5p. */
  function PageLines<T>(jobs: seq<T>, page: nat): seq<Line<T>>
    requires 1 <= page <= TotalPages(|jobs|)
  {
    var offset := (page - 1) * PAGE_SIZE;
    var end := if offset + PAGE_SIZE <= |jobs| then offset + PAGE_SIZE else |jobs|;
    Numbered(jobs)[offset..end]
  }

  method BuildHistoryMessage<T>(jobs: seq<T>, requested: int) returns (m: Message<T>)
    ensures m.Empty? <==> jobs == []
    ensures m.Page? ==>
              && m.pages == TotalPages(|jobs|) && m.page == Clamp(requested, m.pages) && 1 <= m.page <= m.pages
              && m.lines == PageLines(jobs, m.page) && 1 <= |m.lines| <= PAGE_SIZE
              && m.prev == (if m.page > 1 then Some(m.page - 1) else None)
              && m.next == (if m.page < m.pages then Some(m.page + 1) else None)
    ensures m.Page? ==>
              && 5 * (m.pages - 1) < |jobs| <= 5 * m.pages
              && m.page == (if requested < 1 then 1 else if requested > m.pages then m.pages else requested)
              && |m.lines| == (if m.page < m.pages then 5 else |jobs| - 5 * (m.page - 1))
              && forall k :: 0 <= k < |m.lines| ==> m.lines[k] == Line(5 * (m.page - 1) + k + 1, jobs[5 * (m.page - 1) + k])
  {
    var pages := TotalPages(|jobs|);
    var page := Clamp(requested, pages);
    var shown := Slice(jobs, PAGE_SIZE, (page - 1) * PAGE_SIZE);
    if shown == [] {
      return Empty;
    }
    var lines := [];
    for i := 1 to |shown| + 1
      invariant |lines| == i - 1
      invariant forall k :: 0 <= k < i - 1 ==> lines[k] == Line((page - 1) * PAGE_SIZE + k + 1, shown[k])
    {
      var number := (page - 1) * PAGE_SIZE + i;
      lines := lines + [Line(number, shown[i - 1])];
    }
    m := Page(lines, page, pages, if page > 1 then Some(page - 1) else None, if page < pages then Some(page + 1) else None);
  }

  /** Reading from a page on by following Next until it is gone. */
  function ReadFrom<T>(jobs: seq<T>, page: nat): seq<Line<T>>
    requires 1 <= page <= TotalPages(|jobs|)
    decreases TotalPages(|jobs|) - page
  {
    PageLines(jobs, page) + if page < TotalPages(|jobs|) then ReadFrom(jobs, page + 1) else []
  }

  lemma {:induction false} ReadFromIsRest<T>(jobs: seq<T>, page: nat)
    requires 1 <= page <= TotalPages(|jobs|)
    ensures (page - 1) * PAGE_SIZE <= |jobs| && ReadFrom(jobs, page) == Numbered(jobs)[(page - 1) * PAGE_SIZE..]
    decreases TotalPages(|jobs|) - page
  {
    if page < TotalPages(|jobs|) {
      ReadFromIsRest(jobs, page + 1);
    }
  }

  /** Reading all pages in order shows every job once, in order, with its rank printed. */
  lemma PagesPartition<T>(jobs: seq<T>)
    ensures ReadFrom(jobs, 1) == Numbered(jobs)
  {
    ReadFromIsRest(jobs, 1);
  }

  /** The job of rank k + 1 is shown on page k / 5 + 1 and on no other. */
  lemma EachJobOnOnePage<T>(jobs: seq<T>, k: nat, page: nat)
    requires k < |jobs| && 1 <= page <= TotalPages(|jobs|)
    ensures (exists line :: line in PageLines(jobs, page) && line.number == k + 1) <==> page == k / 5 + 1
    ensures k / 5 + 1 <= TotalPages(|jobs|)
  {
    var offset := (page - 1) * PAGE_SIZE;
    var lines := PageLines(jobs, page);
    forall i | 0 <= i < |lines| ensures lines[i].number == offset + i + 1 {
      assert lines[i] == Numbered(jobs)[offset + i];
    }
    if page == k / PAGE_SIZE + 1 {
      assert lines[k - offset].number == k + 1;
    }
  }

  /**
   There are as many pages of five as it takes, and one when there is nothing. A requested page before the first
   becomes the first, one after the last becomes the last, and any other is kept. The page is not empty.
   */
  lemma ClampedPageIsValid(requested: int, total: nat)
    ensures var pages := TotalPages(total);
            if total == 0 then pages == 1 else 5 * (pages - 1) < total <= 5 * pages
    ensures requested < 1 ==> Clamp(requested, TotalPages(total)) == 1
    ensures requested > TotalPages(total) ==> Clamp(requested, TotalPages(total)) == TotalPages(total)
    ensures 1 <= requested <= TotalPages(total) ==> Clamp(requested, TotalPages(total)) == requested
    ensures total > 0 ==> 5 * (Clamp(requested, TotalPages(total)) - 1) < total
  {
  }
}
