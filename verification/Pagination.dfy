/** Cursor pagination: `crates/api/pagination.rs` over the store's list queries
  * (`crates/store/src/order.rs`) and the engine's backstop (`crates/engine/order.rs`). */
module Pagination {
  import opened Prelude
  import opened Monetary

  datatype Row = Row(id: nat, createdAt: int)

  /** `None` starts from the newest row. */
  type Cursor = Option<int>

  const MAX_LIST_LIMIT := 200

  datatype PageConfig = PageConfig(defaultPageSize: i64, maxPageSize: i64)

  /** `resolve` for the limit: out of range is an error, not a clamp. */
  function ResolveLimit(config: PageConfig, limit: Option<i64>): Result<i64, string> {
    if limit.None? then Ok(config.defaultPageSize)
    else if 1 <= limit.value <= config.maxPageSize then Ok(limit.value)
    else Err("limit_invalid")
  }

  function FetchLimit(limit: i64): i64 {
    if limit == I64_MAX then I64_MAX else limit + 1
  }

  function Clamp(limit: i64): (n: nat)
    ensures 1 <= n <= MAX_LIST_LIMIT
  {
    if limit < 1 then 1 else if limit > MAX_LIST_LIMIT then MAX_LIST_LIMIT else limit
  }

  predicate Sorted(rows: seq<Row>) {
    forall i, j :: 0 <= i < j < |rows| ==> rows[i].createdAt >= rows[j].createdAt
  }

  predicate IsBefore(row: Row, before: Cursor) {
    before.None? || row.createdAt < before.value
  }

  /** Rows created strictly before the cursor, newest first. */
  function Older(rows: seq<Row>, before: Cursor): (r: seq<Row>)
    ensures |r| <= |rows|
    ensures forall row :: row in r <==> row in rows && IsBefore(row, before)
  {
    if rows == [] then []
    else (if IsBefore(rows[0], before) then [rows[0]] else []) + Older(rows[1..], before)
  }

  function Take<T>(rows: seq<T>, n: nat): seq<T> {
    if |rows| <= n then rows else rows[..n]
  }

  /** The engine's list call. */
  function List(rows: seq<Row>, before: Cursor, limit: i64): seq<Row> {
    Take(Older(rows, before), Clamp(limit))
  }

  /** Whatever the caller asks for, it gets the newest rows before the cursor: at least
    * one of them if there is any, and 200 at most. */
  lemma ListedRows(rows: seq<Row>, before: Cursor, limit: i64)
    ensures var all, n := Older(rows, before), if limit <= 0 then 1 else if limit >= 200 then 200 else limit;
            List(rows, before, limit) == if |all| <= n then all else all[..n]
  {
  }

  datatype Page = Page(data: seq<Row>, hasMore: bool, nextBefore: Cursor)

  function PageOf(items: seq<Row>, limit: nat): Page
    requires limit >= 1
  {
    var data := Take(items, limit);
    Page(data, |items| > limit, if |items| > limit then Some(data[limit - 1].createdAt) else None)
  }

  /** `finish`: trim the over-fetched rows in place and read off the cursor. */
  method Finish(items: seq<Row>, limit: nat) returns (page: Page)
    requires limit >= 1
    ensures page == PageOf(items, limit)
    ensures page.hasMore <==> page.nextBefore.Some?
  {
    var kept := items;
    var hasMore := |kept| > limit;
    if |kept| > limit {
      kept := kept[..limit];
    }
    var nextBefore := None;
    if hasMore && |kept| > 0 {
      nextBefore := Some(kept[|kept| - 1].createdAt);
    }
    return Page(kept, hasMore, nextBefore);
  }

  // -------------------------------------------------------------- the backstop

  function PageFor(rows: seq<Row>, before: Cursor, limit: i64): Page
    requires limit >= 1
  {
    PageOf(List(rows, before, FetchLimit(limit)), limit)
  }

  /** A page of this size never misreports whether anything is left. */
  ghost predicate TellsTheTruth(limit: i64)
    requires limit >= 1
  {
    forall rows, before :: PageFor(rows, before, limit).hasMore <==> |Older(rows, before)| > limit
  }

  lemma OlderThanNothing(rows: seq<Row>)
    ensures Older(rows, None) == rows
  {
  }

  /** The engine's clamp never swallows the extra row exactly when the page size
    * stays below the clamp. */
  lemma BackstopKeepsTheExtraRow(limit: i64)
    requires limit >= 1
    ensures TellsTheTruth(limit) <==> limit < 200
  {
    if limit >= MAX_LIST_LIMIT {
      var rows := seq(limit + 1, i requires i >= 0 => Row(i, 0));
      OlderThanNothing(rows);
      assert !PageFor(rows, None, limit).hasMore && |Older(rows, None)| > limit;
    }
  }

  /** With the default sizes, 10 and 100, every limit `resolve` accepts is safe. It
    * resolves to itself, and no limit to the default. */
  lemma AcceptedLimitsAreSafe(config: PageConfig, limit: Option<i64>)
    requires 1 <= config.defaultPageSize <= config.maxPageSize < 200
    ensures var r := ResolveLimit(config, limit);
            && (r.Ok? <==> limit.None? || 1 <= limit.value <= config.maxPageSize)
            && (r.Ok? ==> r.value == (if limit.Some? then limit.value else config.defaultPageSize) && TellsTheTruth(r.value))
            && (r.Err? ==> r.error == "limit_invalid")
  {
  }

  // ------------------------------------------------------------ following pages

  lemma {:induction false} OlderSorted(rows: seq<Row>, before: Cursor)
    requires Sorted(rows)
    ensures Sorted(Older(rows, before))
  {
    if rows != [] {
      OlderSorted(rows[1..], before);
      var tail := Older(rows[1..], before);
      assert forall i :: 0 <= i < |tail| ==> tail[i] in tail;
    }
  }

  lemma {:induction false} OlderAgain(rows: seq<Row>, before: Cursor, cursor: int)
    requires before.Some? ==> cursor <= before.value
    ensures Older(Older(rows, before), Some(cursor)) == Older(rows, Some(cursor))
  {
    if rows != [] {
      OlderAgain(rows[1..], before, cursor);
      var head, tail := if IsBefore(rows[0], before) then [rows[0]] else [], Older(rows[1..], before);
      assert Older(rows, before) == head + tail;
      if head != [] {
        assert (head + tail)[1..] == tail;
      } else {
        assert head + tail == tail;
      }
    }
  }

  lemma {:induction false} OlderIsSuffix(rows: seq<Row>, cursor: int, k: nat)
    requires Sorted(rows) && k <= |rows|
    requires forall i :: 0 <= i < k ==> rows[i].createdAt >= cursor
    requires k < |rows| ==> rows[k].createdAt < cursor
    ensures Older(rows, Some(cursor)) == rows[k..]
  {
    if k == 0 {
      AllOlder(rows, cursor);
    } else {
      OlderIsSuffix(rows[1..], cursor, k - 1);
      assert rows[1..][k - 1..] == rows[k..];
    }
  }

  lemma {:induction false} AllOlder(rows: seq<Row>, cursor: int)
    requires forall i :: 0 <= i < |rows| ==> rows[i].createdAt < cursor
    ensures Older(rows, Some(cursor)) == rows
  {
    if rows != [] {
      AllOlder(rows[1..], cursor);
    }
  }

  lemma {:induction false} OlderSkipsPage(rows: seq<Row>, k: nat)
    requires Sorted(rows) && 0 < k < |rows|
    ensures |Older(rows, Some(rows[k - 1].createdAt))| <= |rows| - k
    ensures rows[k].createdAt == rows[k - 1].createdAt ==> |Older(rows, Some(rows[k - 1].createdAt))| < |rows| - k
    ensures rows[k].createdAt < rows[k - 1].createdAt ==> Older(rows, Some(rows[k - 1].createdAt)) == rows[k..]
  {
    var cursor := rows[k - 1].createdAt;
    var m := FirstOlder(rows, cursor, k);
    OlderIsSuffix(rows, cursor, m);
  }

  lemma {:induction false} FirstOlder(rows: seq<Row>, cursor: int, k: nat) returns (m: nat)
    requires Sorted(rows) && 0 < k <= |rows| && rows[k - 1].createdAt >= cursor
    ensures k <= m <= |rows| && (forall i :: 0 <= i < m ==> rows[i].createdAt >= cursor)
    ensures m < |rows| ==> rows[m].createdAt < cursor
    decreases |rows| - k
  {
    if k == |rows| || rows[k].createdAt < cursor {
      return k;
    }
    m := FirstOlder(rows, cursor, k + 1);
  }

  /** Everything a client collects from `rows` by following `next_before`. */
  function Crawl(rows: seq<Row>, limit: nat): (r: seq<Row>)
    requires Sorted(rows) && limit >= 1
    ensures |r| <= |rows|
    decreases |rows|
  {
    if |rows| <= limit then rows
    else
      var cursor := rows[limit - 1].createdAt;
      OlderSorted(rows, Some(cursor));
      OlderSkipsPage(rows, limit);
      rows[..limit] + Crawl(Older(rows, Some(cursor)), limit)
  }

  /** No page of this size ends between two rows created at the same instant. */
  predicate NoTieSplit(rows: seq<Row>, limit: nat)
    requires limit >= 1
  {
    |rows| <= limit || (rows[limit].createdAt != rows[limit - 1].createdAt && NoTieSplit(rows[limit..], limit))
  }

  /** The client sees every row, once and in order, exactly when no page boundary
    * falls inside a tie; otherwise some rows are lost. */
  lemma {:induction false} CompleteIffNoTieSplit(rows: seq<Row>, limit: nat)
    requires Sorted(rows) && limit >= 1
    ensures Crawl(rows, limit) == rows <==> NoTieSplit(rows, limit)
    ensures !NoTieSplit(rows, limit) ==> |Crawl(rows, limit)| < |rows|
    decreases |rows|
  {
    hide Older;
    if |rows| > limit {
      var rest := Older(rows, Some(rows[limit - 1].createdAt));
      OlderSorted(rows, Some(rows[limit - 1].createdAt));
      OlderSkipsPage(rows, limit);
      assert Crawl(rows, limit) == rows[..limit] + Crawl(rest, limit);
      if rows[limit].createdAt < rows[limit - 1].createdAt {
        CompleteIffNoTieSplit(rows[limit..], limit);
        hide Crawl, NoTieSplit, Sorted;
        PrefixCancels(rows, limit, Crawl(rest, limit));
      }
    }
  }

  lemma PrefixCancels<T>(rows: seq<T>, k: nat, tail: seq<T>)
    requires k <= |rows|
    ensures rows[..k] + tail == rows <==> tail == rows[k..]
  {
  }

  predicate DistinctTimes(rows: seq<Row>) {
    forall i, j :: 0 <= i < j < |rows| ==> rows[i].createdAt != rows[j].createdAt
  }

  lemma {:induction false} DistinctTimesNeverSplit(rows: seq<Row>, limit: nat)
    requires DistinctTimes(rows) && limit >= 1
    ensures NoTieSplit(rows, limit)
    decreases |rows|
  {
    if |rows| > limit {
      DistinctTimesNeverSplit(rows[limit..], limit);
    }
  }

  /** What the first `k` pages of a crawl over `rows` leave unread. */
  function RestAt(rows: seq<Row>, limit: nat, k: nat): seq<Row>
    requires limit >= 1
  {
    if k == 0 then rows
    else
      var rest := RestAt(rows, limit, k - 1);
      if |rest| > limit then Older(rest, Some(rest[limit - 1].createdAt)) else []
  }

  /** `tables(k)` is the table as it stands at the client's `k`-th request, and the
    * cursor of page `k` is what that request answers if pages are left. Between the
    * two requests nothing older than that cursor comes or goes. */
  ghost predicate OnlyGainsNewer(tables: nat -> seq<Row>, start: Cursor, limit: nat)
    requires limit >= 1
  {
    && (forall i :: Sorted(tables(i)))
    && forall k: nat :: var rest := RestAt(Older(tables(0), start), limit, k);
                        |rest| > limit ==> var cursor := Some(rest[limit - 1].createdAt);
                                           Older(tables(k + 1), cursor) == Older(tables(k), cursor)
  }

  /** A row that is not older than the cursor can come or go unnoticed. */
  lemma {:induction false} NewerRowIsInvisible(a: seq<Row>, row: Row, b: seq<Row>, cursor: int)
    requires row.createdAt >= cursor
    ensures Older(a + [row] + b, Some(cursor)) == Older(a + b, Some(cursor))
  {
    if a == [] {
      assert (a + [row] + b)[1..] == b && a + b == b;
    } else {
      NewerRowIsInvisible(a[1..], row, b, cursor);
      assert (a + [row] + b)[1..] == a[1..] + [row] + b && (a + b)[1..] == a[1..] + b;
    }
  }

  datatype Insertion = Insertion(at: nat, row: Row)

  function Inserted(rows: seq<Row>, x: Insertion): seq<Row> {
    var at := if x.at <= |rows| then x.at else |rows|;
    rows[..at] + [x.row] + rows[at..]
  }

  function InsertedAll(rows: seq<Row>, added: seq<Insertion>): seq<Row> {
    if added == [] then rows else Inserted(InsertedAll(rows, added[..|added| - 1]), added[|added| - 1])
  }

  ghost predicate Gains(before: seq<Row>, after: seq<Row>, cursor: int) {
    exists added :: after == InsertedAll(before, added) && NoneOlderThan(added, cursor)
  }

  predicate NoneOlderThan(added: seq<Insertion>, cursor: int) {
    forall x :: x in added ==> x.row.createdAt >= cursor
  }

  /** While the client holds the cursor of page `k`, rows are inserted anywhere in the
    * order as long as none of them is older than that cursor: they may well be older
    * than rows the client has already read. */
  ghost predicate GrowsByInsertion(tables: nat -> seq<Row>, start: Cursor, limit: nat)
    requires limit >= 1
  {
    && (forall i :: Sorted(tables(i)))
    && forall k: nat :: var rest := RestAt(Older(tables(0), start), limit, k);
                        |rest| > limit ==> Gains(tables(k), tables(k + 1), rest[limit - 1].createdAt)
  }

  lemma {:induction false} InsertionsAreInvisible(rows: seq<Row>, added: seq<Insertion>, cursor: int)
    requires NoneOlderThan(added, cursor)
    ensures Older(InsertedAll(rows, added), Some(cursor)) == Older(rows, Some(cursor))
    decreases |added|
  {
    hide Older, Inserted;
    if added != [] {
      var earlier, x := added[..|added| - 1], added[|added| - 1];
      assert x in added && forall y :: y in earlier ==> y in added;
      InsertionsAreInvisible(rows, earlier, cursor);
      InsertionIsInvisible(InsertedAll(rows, earlier), x, cursor);
    }
  }

  lemma InsertionIsInvisible(rows: seq<Row>, x: Insertion, cursor: int)
    requires x.row.createdAt >= cursor
    ensures Older(Inserted(rows, x), Some(cursor)) == Older(rows, Some(cursor))
  {
    hide Older;
    var at := if x.at <= |rows| then x.at else |rows|;
    NewerRowIsInvisible(rows[..at], x.row, rows[at..], cursor);
    assert rows[..at] + rows[at..] == rows;
  }

  /** Such insertions leave every page the client has yet to read as it was. */
  lemma InsertionsOnlyGainNewer(tables: nat -> seq<Row>, start: Cursor, limit: nat)
    requires limit >= 1 && GrowsByInsertion(tables, start, limit)
    ensures OnlyGainsNewer(tables, start, limit)
  {
    hide Older, InsertedAll, NoneOlderThan, RestAt, Sorted;
    forall k: nat | |RestAt(Older(tables(0), start), limit, k)| > limit
      ensures var cursor := Some(RestAt(Older(tables(0), start), limit, k)[limit - 1].createdAt);
              Older(tables(k + 1), cursor) == Older(tables(k), cursor)
    {
      var cursor := RestAt(Older(tables(0), start), limit, k)[limit - 1].createdAt;
      var added :| tables(k + 1) == InsertedAll(tables(k), added) && NoneOlderThan(added, cursor);
      InsertionsAreInvisible(tables(k), added, cursor);
    }
  }

  /** What one request adds to the crawl. */
  lemma CrawlStep(rows: seq<Row>, before: Cursor, limit: i64)
    requires Sorted(rows) && 1 <= limit < MAX_LIST_LIMIT
    ensures var rest, page := Older(rows, before), PageFor(rows, before, limit);
            && Sorted(rest) && (page.hasMore <==> |rest| > limit)
            && (page.hasMore ==> page.nextBefore == Some(rest[limit - 1].createdAt)
                                 && Sorted(Older(rest, page.nextBefore))
                                 && Crawl(rest, limit) == page.data + Crawl(Older(rest, page.nextBefore), limit))
            && (!page.hasMore ==> page.nextBefore == None && Crawl(rest, limit) == page.data)
  {
    OlderSorted(rows, before);
    var rest := Older(rows, before);
    assert List(rows, before, FetchLimit(limit)) == Take(rest, limit + 1);
    if |rest| > limit {
      assert Take(Take(rest, limit + 1), limit) == rest[..limit];
      OlderSorted(rest, Some(rest[limit - 1].createdAt));
    }
  }

  /** The client's loop: ask, keep the page, go on while `next_before` is set. */
  method FetchAll(tables: nat -> seq<Row>, limit: i64, start: Cursor) returns (all: seq<Row>)
    requires 1 <= limit < MAX_LIST_LIMIT && OnlyGainsNewer(tables, start, limit)
    ensures Sorted(Older(tables(0), start)) && all == Crawl(Older(tables(0), start), limit)
    ensures all == Older(tables(0), start) <==> NoTieSplit(Older(tables(0), start), limit)
    ensures DistinctTimes(Older(tables(0), start)) ==> all == Older(tables(0), start)
  {
    hide NoTieSplit, DistinctTimes, Older, Crawl, List, PageOf, Take, Clamp, FetchLimit, Sorted, RestAt;
    hide OnlyGainsNewer;
    ghost var first := Older(tables(0), start);
    all := [];
    var before, request, more := start, 0, true;
    FirstRest(tables, start, limit);
    ghost var rest := first;
    while more
      invariant Sorted(first) && Sorted(rest)
      invariant more ==> rest == Older(tables(request), before) && rest == RestAt(first, limit, request)
      invariant Crawl(first, limit) == all + if more then Crawl(rest, limit) else []
      decreases more, |rest|
    {
      var fetched := List(tables(request), before, FetchLimit(limit));
      var page := Finish(fetched, limit);
      TablesSorted(tables, start, limit, request);
      CrawlStep(tables(request), before, limit);
      assert page == PageFor(tables(request), before, limit);
      if page.hasMore {
        var cursor := page.nextBefore.value;
        NextRest(tables, request, before, limit, start, cursor);
        Associative(all, page.data, Crawl(Older(rest, Some(cursor)), limit));
        rest := Older(rest, Some(cursor));
      }
      all := all + page.data;
      more, before, request := page.nextBefore.Some?, page.nextBefore, request + 1;
    }
    CompleteIffNoTieSplit(first, limit);
    if DistinctTimes(first) {
      PaginationIsComplete(first, limit);
    }
  }

  /** The same for a table that only grows: whatever is inserted meanwhile, the
    * client gets every row it set out to read, once and newest first, exactly when
    * no page boundary splits a tie, and in particular when all times differ. */
  method FetchAllWhileGrowing(tables: nat -> seq<Row>, limit: i64, start: Cursor) returns (all: seq<Row>)
    requires 1 <= limit < MAX_LIST_LIMIT && GrowsByInsertion(tables, start, limit)
    ensures all == Older(tables(0), start) <==> NoTieSplit(Older(tables(0), start), limit)
    ensures DistinctTimes(Older(tables(0), start)) ==> all == Older(tables(0), start)
  {
    InsertionsOnlyGainNewer(tables, start, limit);
    all := FetchAll(tables, limit, start);
  }

  lemma TablesSorted(tables: nat -> seq<Row>, start: Cursor, limit: nat, i: nat)
    requires limit >= 1 && OnlyGainsNewer(tables, start, limit)
    ensures Sorted(tables(i))
  {
  }

  lemma FirstRest(tables: nat -> seq<Row>, start: Cursor, limit: nat)
    requires limit >= 1 && OnlyGainsNewer(tables, start, limit)
    ensures var first := Older(tables(0), start); Sorted(first) && RestAt(first, limit, 0) == first
  {
    OlderSorted(tables(0), start);
  }

  /** The next request answers from what the page before it left unread. */
  lemma NextRest(tables: nat -> seq<Row>, k: nat, before: Cursor, limit: nat, start: Cursor, cursor: int)
    requires limit >= 1 && OnlyGainsNewer(tables, start, limit)
    requires var rest := RestAt(Older(tables(0), start), limit, k);
             rest == Older(tables(k), before) && |rest| > limit && cursor == rest[limit - 1].createdAt
    ensures var next := RestAt(Older(tables(0), start), limit, k + 1);
            && next == Older(Older(tables(k), before), Some(cursor)) == Older(tables(k + 1), Some(cursor))
            && Sorted(next) && |next| < |Older(tables(k), before)|
  {
    var rest := Older(tables(k), before);
    OlderSorted(tables(k), before);
    OlderSorted(rest, Some(cursor));
    OlderSkipsPage(rest, limit);
    assert rest[limit - 1] in rest;
    OlderAgain(tables(k), before, cursor);
  }

  /** With distinct creation times the crawl is all the rows, once and in order. */
  lemma PaginationIsComplete(rows: seq<Row>, limit: nat)
    requires 1 <= limit && Sorted(rows) && DistinctTimes(rows)
    ensures Crawl(rows, limit) == rows
  {
    DistinctTimesNeverSplit(rows, limit);
    CompleteIffNoTieSplit(rows, limit);
  }
}
