/** Paging through sequences that grow at the end: pulled changes and stock history. */
module Paging {
  import opened Types

  ghost predicate Sorted<T>(items: seq<T>, at: T -> nat) {
    && (forall i :: 0 <= i < |items| ==> at(items[i]) >= 1)
    && (forall i, j :: 0 <= i < j < |items| ==> at(items[i]) < at(items[j]))
  }

  /** WHERE cursor > low AND cursor <= high */
  function Window<T>(items: seq<T>, at: T -> nat, low: nat, high: nat): seq<T> {
    if items == [] then []
    else
      var last := items[|items| - 1];
      Window(items[..|items| - 1], at, low, high) + if low < at(last) <= high then [last] else []
  }

  function Later(a: nat, b: nat): nat {
    if a < b then b else a
  }

  /** WHERE cursor > low */
  function Above<T>(items: seq<T>, at: T -> nat, low: nat): seq<T> {
    Window(items, at, low, Later(low, Latest(items, at)))
  }

  /** COALESCE(MAX(cursor), 0) */
  function Latest<T>(items: seq<T>, at: T -> nat): nat {
    if items == [] then 0 else at(items[|items| - 1])
  }

  /** LIMIT n */
  function First<T>(items: seq<T>, n: nat): seq<T> {
    if |items| <= n then items else items[..n]
  }

  // ---- windows of sorted items are slices

  function Position<T>(items: seq<T>, at: T -> nat, c: int): (n: nat)
    ensures n <= |items|
  {
    if items == [] || at(items[|items| - 1]) <= c then |items| else Position(items[..|items| - 1], at, c)
  }

  lemma {:induction false} PositionSplits<T>(items: seq<T>, at: T -> nat, c: int)
    requires Sorted(items, at)
    ensures forall i :: 0 <= i < |items| ==> (at(items[i]) <= c <==> i < Position(items, at, c))
  {
    if items != [] && at(items[|items| - 1]) > c {
      var front := items[..|items| - 1];
      PositionSplits(front, at, c);
      assert forall i :: 0 <= i < |front| ==> front[i] == items[i];
    }
  }

  lemma {:induction false} WindowIsSlice<T>(items: seq<T>, at: T -> nat, low: nat, high: nat)
    requires Sorted(items, at) && low <= high
    ensures Position(items, at, low) <= Position(items, at, high)
    ensures Window(items, at, low, high) == items[Position(items, at, low)..Position(items, at, high)]
  {
    PositionSplits(items, at, low);
    PositionSplits(items, at, high);
    var a, b := Position(items, at, low), Position(items, at, high);
    if items != [] {
      var front, last := items[..|items| - 1], items[|items| - 1];
      WindowIsSlice(front, at, low, high);
      PositionSplits(front, at, low);
      PositionSplits(front, at, high);
      var c, d := Position(front, at, low), Position(front, at, high);
      assert forall i :: 0 <= i < |front| ==> front[i] == items[i];
      assert items[a..b] == front[c..d] + if low < at(last) <= high then [last] else [];
    }
  }

  lemma WindowJoins<T>(items: seq<T>, at: T -> nat, low: nat, mid: nat, high: nat)
    requires Sorted(items, at) && low <= mid <= high
    ensures Window(items, at, low, high) == Window(items, at, low, mid) + Window(items, at, mid, high)
  {
    WindowIsSlice(items, at, low, mid);
    WindowIsSlice(items, at, mid, high);
    WindowIsSlice(items, at, low, high);
  }

  lemma PositionIs<T>(items: seq<T>, at: T -> nat, c: nat, n: nat)
    requires Sorted(items, at) && 1 <= n < |items|
    requires at(items[n - 1]) <= c < at(items[n])
    ensures Position(items, at, c) == n
  {
    PositionSplits(items, at, c);
  }

  /** The first n of a window are the window up to the cursor of the n-th. */
  lemma FirstIsWindow<T>(items: seq<T>, at: T -> nat, low: nat, high: nat, n: nat)
    requires Sorted(items, at) && low <= high && 1 <= n < |Window(items, at, low, high)|
    ensures var w := Window(items, at, low, high);
            low < at(w[n - 1]) <= high && w[..n] == Window(items, at, low, at(w[n - 1]))
  {
    WindowIsSlice(items, at, low, high);
    PositionSplits(items, at, low);
    PositionSplits(items, at, high);
    var a, b := Position(items, at, low), Position(items, at, high);
    var w := Window(items, at, low, high);
    assert w == items[a..b] && w[n - 1] == items[a + n - 1];
    var c := at(items[a + n - 1]);
    PositionIs(items, at, c, a + n);
    WindowIsSlice(items, at, low, c);
    assert w[..n] == items[a..a + n];
  }

  /** Items appended later lie above every window of the earlier ones. */
  lemma {:induction false} WindowFrozen<T>(items: seq<T>, more: seq<T>, at: T -> nat, low: nat, high: nat)
    requires items <= more && Sorted(more, at) && high <= Latest(items, at)
    ensures Window(more, at, low, high) == Window(items, at, low, high)
  {
    if |more| > |items| {
      var front, last := more[..|more| - 1], more[|more| - 1];
      assert high < at(last) by {
        assert items != [] ==> more[|items| - 1] == items[|items| - 1];
      }
      WindowFrozen(items, front, at, low, high);
    } else {
      assert items == more;
    }
  }

  lemma AboveIsAll<T>(items: seq<T>, at: T -> nat, low: nat, high: nat)
    requires Sorted(items, at) && low <= high && Latest(items, at) <= high
    ensures Window(items, at, low, high) == Above(items, at, low)
  {
    var top := Later(low, Latest(items, at));
    WindowIsSlice(items, at, low, high);
    WindowIsSlice(items, at, low, top);
    PositionSplits(items, at, high);
    PositionSplits(items, at, top);
    assert Position(items, at, high) == Position(items, at, top) by {
      assert forall i :: 0 <= i < |items| ==> at(items[i]) <= Latest(items, at);
    }
  }

  // ---- Pull

  datatype Page<T> = Page(records: seq<T>, next: nat, hasMore: bool)

  function PullPage<T>(log: seq<T>, at: T -> nat, cursor: nat, limit: nat): Page<T> {
    var found := Above(log, at, cursor);
    var records := First(found, limit);
    Page(records, if records == [] then cursor else at(records[|records| - 1]), |found| > limit)
  }

  method Pull<T>(log: seq<T>, at: T -> nat, cursor: nat, limit: nat) returns (page: Page<T>)
    requires limit >= 1
    ensures page == PullPage(log, at, cursor, limit)
  {
    var rows := First(Above(log, at, cursor), limit + 1);
    var changes: seq<T> := [];
    for i := 0 to |rows|
      invariant changes == rows[..i]
    {
      changes := changes + [rows[i]];
    }
    var hasMore := |changes| > limit;
    if hasMore {
      changes := changes[..limit];
    }
    var next := cursor;
    if |changes| > 0 {
      next := at(changes[|changes| - 1]);
    }
    page := Page(changes, next, hasMore);
  }

  /** A page is the window between its cursors; the last page reaches the end of the log as it was. */
  lemma PageIsWindow<T>(log: seq<T>, at: T -> nat, cursor: nat, limit: nat)
    requires Sorted(log, at) && limit >= 1
    ensures var page := PullPage(log, at, cursor, limit);
            && cursor <= page.next <= Later(cursor, Latest(log, at))
            && page.records == Window(log, at, cursor, page.next)
            && (!page.hasMore ==> page.records == Above(log, at, cursor) && page.next == Later(cursor, Latest(log, at)))
            && |Above(log, at, page.next)| ==
                 (if |Above(log, at, cursor)| > limit then |Above(log, at, cursor)| - limit else 0)
            && (page.hasMore <==> |Above(log, at, cursor)| > limit)
  {
    var page := PullPage(log, at, cursor, limit);
    var found := Above(log, at, cursor);
    var top := Later(cursor, Latest(log, at));
    WindowIsSlice(log, at, cursor, top);
    PositionSplits(log, at, cursor);
    PositionSplits(log, at, top);
    if page.hasMore {
      FirstIsWindow(log, at, cursor, top, limit);
    } else if found == [] {
      EmptyAbove(log, at, cursor);
    } else {
      assert found[|found| - 1] == log[|log| - 1];
    }
    WindowJoins(log, at, cursor, page.next, top);
    AboveIsAll(log, at, page.next, top);
  }

  lemma EmptyAbove<T>(log: seq<T>, at: T -> nat, cursor: nat)
    requires Sorted(log, at) && Above(log, at, cursor) == []
    ensures Latest(log, at) <= cursor
    ensures Window(log, at, cursor, cursor) == []
  {
    var top := Later(cursor, Latest(log, at));
    WindowIsSlice(log, at, cursor, top);
    WindowIsSlice(log, at, cursor, cursor);
    PositionSplits(log, at, cursor);
    PositionSplits(log, at, top);
    if log != [] {
      assert at(log[|log| - 1]) <= cursor <==> |log| - 1 < Position(log, at, cursor);
    }
  }

  // ---- a client that follows the pages while others append

  /** Each page is read from the log as it is at that moment; earlier logs are prefixes of later ones. */
  ghost predicate Growing<T>(logs: seq<seq<T>>, at: T -> nat) {
    && (forall i :: 0 <= i < |logs| ==> Sorted(logs[i], at))
    && (forall i, j :: 0 <= i < j < |logs| ==> logs[i] <= logs[j])
  }

  /** What the client has after one page per log, and the last page's `next` and `hasMore`. */
  function Followed<T>(logs: seq<seq<T>>, at: T -> nat, start: nat, limit: nat): Page<T> {
    if logs == [] then Page([], start, true)
    else
      var before := Followed(logs[..|logs| - 1], at, start, limit);
      var page := PullPage(logs[|logs| - 1], at, before.next, limit);
      Page(before.records + page.records, page.next, page.hasMore)
  }

  lemma Unaffected<T>(items: seq<T>, more: seq<T>, at: T -> nat, low: nat, high: nat)
    requires items <= more && Sorted(more, at) && low <= high <= Later(low, Latest(items, at))
    ensures Window(more, at, low, high) == Window(items, at, low, high)
  {
    if high <= Latest(items, at) {
      WindowFrozen(items, more, at, low, high);
    } else {
      NothingInside(more, at, low, high);
      NothingInside(items, at, low, high);
    }
  }

  /** Paging is exact: whatever is appended between the pages, the client has received precisely the
      entries above its start cursor up to its current one, each once and in order; once a page says that
      there is no more, that is every entry of the log as that page saw it. */
  lemma {:induction false} FollowedIsExact<T>(logs: seq<seq<T>>, at: T -> nat, start: nat, limit: nat)
    requires Growing(logs, at) && logs != [] && limit >= 1
    ensures var last := logs[|logs| - 1];
            var r := Followed(logs, at, start, limit);
            && start <= r.next <= Later(start, Latest(last, at))
            && r.records == Window(last, at, start, r.next)
            && (!r.hasMore ==> r.records == Above(last, at, start))
  {
    var front, last := logs[..|logs| - 1], logs[|logs| - 1];
    var before := Followed(front, at, start, limit);
    PageIsWindow(last, at, before.next, limit);
    var page := PullPage(last, at, before.next, limit);
    if front == [] {
      WindowIsSlice(last, at, start, start);
    } else {
      assert forall i :: 0 <= i < |front| ==> front[i] == logs[i];
      FollowedIsExact(front, at, start, limit);
      var previous := front[|front| - 1];
      assert previous <= last;
      LatestGrows(previous, last, at);
      Unaffected(previous, last, at, start, before.next);
    }
    WindowJoins(last, at, start, before.next, page.next);
    if !page.hasMore {
      AboveIsAll(last, at, start, page.next);
    }
  }

  lemma LatestGrows<T>(items: seq<T>, more: seq<T>, at: T -> nat)
    requires items <= more && Sorted(more, at)
    ensures Latest(items, at) <= Latest(more, at)
  {
    if items != [] {
      assert items[|items| - 1] == more[|items| - 1];
    }
  }

  /** The client's loop; what remains above the cursor falls with every page, so once nobody appends it ends. */
  method PullAll<T>(log: seq<T>, at: T -> nat, start: nat, limit: nat) returns (entries: seq<T>, cursor: nat)
    requires limit >= 1 && Sorted(log, at)
    ensures entries == Above(log, at, start)
    ensures cursor == Later(start, Latest(log, at))
  {
    entries, cursor := [], start;
    WindowIsSlice(log, at, start, start);
    var hasMore := true;
    while hasMore
      invariant start <= cursor <= Later(start, Latest(log, at))
      invariant entries == Window(log, at, start, cursor)
      invariant !hasMore ==> cursor == Later(start, Latest(log, at))
      decreases |Above(log, at, cursor)|, hasMore
    {
      PageIsWindow(log, at, cursor, limit);
      var page := Pull(log, at, cursor, limit);
      WindowJoins(log, at, start, cursor, page.next);
      entries, cursor, hasMore := entries + page.records, page.next, page.hasMore;
    }
  }

  // ---- history pages with a frozen end

  function Frozen<T>(items: seq<T>, at: T -> nat, until: nat): nat {
    if until == 0 then Latest(items, at) else until
  }

  function HistoryPage<T>(items: seq<T>, at: T -> nat, after: nat, until: nat, limit: nat): Page<T> {
    var found := Window(items, at, after, Frozen(items, at, until));
    var records := First(found, limit);
    Page(records,
         if |found| > limit && records != [] then at(records[|records| - 1]) else Frozen(items, at, until),
         |found| > limit)
  }

  /** History: refuses impossible bounds, and otherwise answers a page and the end it is frozen at. */
  method History<T>(items: seq<T>, at: T -> nat, after: int, until: int, limit: int) returns (r: Result<(Page<T>, nat)>)
    ensures r == if 0 <= after && 0 <= until && (until == 0 || after <= until) && 1 <= limit <= 500
            then Ok((HistoryPage(items, at, after, until, limit), Frozen(items, at, until)))
                 else Err(Business(InvalidArgument, 0))
  {
    if after < 0 || until < 0 || (until != 0 && after > until) || limit < 1 || limit > 500 {
      return Err(Business(InvalidArgument, 0));
    }
    var page, frozen := Collect(items, at, after, until, limit);
    r := Ok((page, frozen));
  }

  /** The loop reads one row more than it keeps. */
  method Collect<T>(items: seq<T>, at: T -> nat, after: nat, until: nat, limit: nat)
    returns (page: Page<T>, frozen: nat)
    requires limit >= 1
    ensures page == HistoryPage(items, at, after, until, limit) && frozen == Frozen(items, at, until)
  {
    frozen := if until == 0 then Latest(items, at) else until;
    var found := Window(items, at, after, frozen);
    var rows := First(found, limit + 1);
    var records: seq<T> := [];
    var next := after;
    var hasMore := false;
    var i := 0;
    while i < |rows| && !hasMore
      invariant 0 <= i <= |rows|
      invariant hasMore ==> |records| == limit < |rows| && records == rows[..limit]
      invariant !hasMore ==> i <= limit && records == rows[..i]
      invariant records != [] ==> next == at(records[|records| - 1])
      decreases |rows| - i, !hasMore
    {
      if |records| == limit {
        hasMore := true;
      } else {
        records := records + [rows[i]];
        next := at(rows[i]);
        i := i + 1;
      }
    }
    if !hasMore {
      next := frozen;
    }
    page := Page(records, next, hasMore);
  }

  /** ImportHistory refuses an end beyond the family's records, and a start beyond the end. */
  method ImportHistory<T>(items: seq<T>, at: T -> nat, after: nat, until: nat, limit: nat) returns (r: Result<Page<T>>)
    requires limit >= 1
    ensures r == if after <= Frozen(items, at, until) <= Latest(items, at)
                 then Ok(HistoryPage(items, at, after, until, limit))
                 else Err(Business(ValidationFailed, 0))
  {
    var frozen := if until == 0 then Latest(items, at) else until;
    if frozen > Latest(items, at) || after > frozen {
      return Err(Business(ValidationFailed, 0));
    }
    var page, _ := Collect(items, at, after, until, limit);
    r := Ok(page);
  }

  /** `next` never moves back, except for a first page asked from beyond the newest record. */
  lemma HistoryMovesForward<T>(items: seq<T>, at: T -> nat, after: nat, until: nat, limit: nat)
    requires Sorted(items, at) && limit >= 1 && (until != 0 ==> after <= until)
    ensures HistoryPage(items, at, after, until, limit).next < after <==> until == 0 && Latest(items, at) < after
  {
    var frozen := Frozen(items, at, until);
    var found := Window(items, at, after, frozen);
    if after <= frozen {
      if |found| > limit {
        FirstIsWindow(items, at, after, frozen, limit);
      }
    } else {
      NothingInside(items, at, after, frozen);
    }
  }

  lemma {:induction false} NothingInside<T>(items: seq<T>, at: T -> nat, low: nat, high: nat)
    requires high <= low
    ensures Window(items, at, low, high) == []
  {
    if items != [] {
      NothingInside(items[..|items| - 1], at, low, high);
    }
  }

  /** The pages of one listing: the first asks for a fresh end, the others repeat the one it was told, and a
      page that says there is no more is the last. */
  function Listing<T>(snapshots: seq<seq<T>>, at: T -> nat, after: nat, limit: nat): Page<T>
    requires snapshots != []
  {
    if |snapshots| == 1 then HistoryPage(snapshots[0], at, after, 0, limit)
    else
      var before := Listing(snapshots[..|snapshots| - 1], at, after, limit);
      if !before.hasMore then before
      else
        var page := HistoryPage(snapshots[|snapshots| - 1], at, before.next, Latest(snapshots[0], at), limit);
        Page(before.records + page.records, page.next, page.hasMore)
  }

  /** Following the pages of a listing delivers exactly the records that existed when it began, each once
      and in order, whatever is recorded meanwhile. */
  lemma {:induction false} ListingIsExact<T>(snapshots: seq<seq<T>>, at: T -> nat, after: nat, limit: nat)
    requires snapshots != [] && Growing(snapshots, at) && limit >= 1
    requires after <= Latest(snapshots[0], at)
    ensures Lists(Listing(snapshots, at, after, limit), snapshots[0], at, after)
  {
    var until := Latest(snapshots[0], at);
    if |snapshots| == 1 {
      HistoryPageIsWindow(snapshots[0], at, after, 0, limit);
    } else {
      var front, last := snapshots[..|snapshots| - 1], snapshots[|snapshots| - 1];
      assert forall i :: 0 <= i < |front| ==> front[i] == snapshots[i];
      ListingIsExact(front, at, after, limit);
      if Listing(front, at, after, limit).hasMore {
        ListingStep(snapshots[0], last, at, after, limit, Listing(front, at, after, limit));
      }
    }
  }

  ghost predicate Lists<T>(r: Page<T>, items: seq<T>, at: T -> nat, after: nat) {
    && after <= r.next <= Latest(items, at)
    && r.records == Window(items, at, after, r.next)
    && (if r.hasMore then Latest(items, at) > 0 else r.records == Above(items, at, after))
  }

  lemma ListingStep<T>(items: seq<T>, last: seq<T>, at: T -> nat, after: nat, limit: nat, before: Page<T>)
    requires items <= last && Sorted(items, at) && Sorted(last, at) && limit >= 1
    requires before.hasMore && Lists(before, items, at, after)
    ensures var page := HistoryPage(last, at, before.next, Latest(items, at), limit);
            Lists(Page(before.records + page.records, page.next, page.hasMore), items, at, after)
  {
    var page := HistoryPage(last, at, before.next, Latest(items, at), limit);
    HistoryPageIsWindow(last, at, before.next, Latest(items, at), limit);
    WindowFrozen(items, last, at, before.next, page.next);
    WindowJoins(items, at, after, before.next, page.next);
  }

  /** A history page is the window between its cursors within the frozen end: everything when that is no more than
      the limit, and otherwise the first `limit` records; it says that there is more exactly then. */
  lemma HistoryPageIsWindow<T>(items: seq<T>, at: T -> nat, after: nat, until: nat, limit: nat)
    requires Sorted(items, at) && limit >= 1 && after <= Frozen(items, at, until)
    ensures var page := HistoryPage(items, at, after, until, limit);
            && after <= page.next <= Frozen(items, at, until)
            && page.records == Window(items, at, after, page.next)
            && (page.hasMore <==> |Window(items, at, after, Frozen(items, at, until))| > limit)
            && (page.hasMore ==> |page.records| == limit && Latest(items, at) > 0)
            && (!page.hasMore ==> page.next == Frozen(items, at, until))
  {
    if |Window(items, at, after, Frozen(items, at, until))| > limit {
      FirstIsWindow(items, at, after, Frozen(items, at, until), limit);
    }
  }
}
