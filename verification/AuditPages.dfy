/** Cursor pagination of the audit log, followed page by page to the end, also while newer rows keep arriving. */
module AuditPages {
  import opened Lists
  import opened StableSort

  datatype Row = Row(id: nat, timestamp: int)
  datatype Page = Page(data: seq<Row>, hasMore: bool, nextCursor: Option<nat>)

  /** Ids are the table's key. */
  ghost predicate Keyed(log: seq<Row>) {
    forall i, j :: 0 <= i < j < |log| ==> log[i].id != log[j].id
  }

  /** Where a cursor's row stands, from place i on; a cursor that names no row finds nothing. */
  function PositionFrom(log: seq<Row>, id: nat, i: nat): (p: nat)
    requires i <= |log|
    ensures i <= p <= |log|
    ensures p < |log| ==> log[p].id == id
    ensures forall j :: i <= j < p ==> log[j].id != id
    decreases |log| - i
  {
    if i == |log| || log[i].id == id then i else PositionFrom(log, id, i + 1)
  }

  function Position(log: seq<Row>, id: nat): (p: nat)
    ensures p <= |log|
    ensures p < |log| ==> log[p].id == id
    ensures forall j :: 0 <= j < p ==> log[j].id != id
  {
    PositionFrom(log, id, 0)
  }

  /** The rows behind the cursor, in the database's order, newest first. */
  function Behind(log: seq<Row>, cursor: Option<nat>): seq<Row> {
    match cursor
    case None => log
    case Some(id) =>
      var p := Position(log, id);
      if p < |log| then log[p + 1..] else []
  }

  function PageAt(log: seq<Row>, cursor: Option<nat>, limit: nat): Page
    requires limit >= 1
  {
    var rows := Behind(log, cursor);
    var data := Take(rows, limit);
    Page(data, |rows| > limit, if |rows| > limit then Some(data[limit - 1].id) else None)
  }

  // ---- The log grows in front ------------------------------------------------------------------------------

  function Timestamp(): Row -> int { (r: Row) => r.timestamp }

  /** The rows as the query orders them. */
  function NewestFirst(written: seq<Row>): seq<Row> {
    Sort(written, Timestamp())
  }

  lemma {:induction false} InsertInFront(s: seq<Row>, x: Row)
    requires forall y :: y in s ==> y.timestamp < x.timestamp
    ensures Insert(s, x, Timestamp()) == [x] + s
  {
    if s != [] {
      var n := |s| - 1;
      assert s[n] in s && s == s[..n] + [s[n]];
      InsertInFront(s[..n], x);
    }
  }

  lemma InFrontGrows(log: seq<Row>, x: Row)
    requires Keyed(log) && forall y :: y in log ==> y.id != x.id
    ensures Grows(log, [x] + log)
  {
    assert ([x] + log)[1..] == log;
    assert forall i :: 0 <= i < |log| ==> log[i] in log;
  }

  lemma SortedMembers(written: seq<Row>)
    ensures forall y :: y in NewestFirst(written) ==> y in written
  {
    SortPermutes(written, Timestamp());
    forall y | y in NewestFirst(written) ensures y in written {
      assert y in multiset(NewestFirst(written)) && y in multiset(written);
    }
  }

  lemma SortAppend(written: seq<Row>, x: Row)
    ensures NewestFirst(written + [x]) == Insert(NewestFirst(written), x, Timestamp())
  {
    assert (written + [x])[..|written|] == written;
  }

  /** A row written later than all the others comes before them, which stay as they were. */
  lemma LaterRowInFront(written: seq<Row>, x: Row)
    requires forall y :: y in written ==> y.timestamp < x.timestamp && y.id != x.id
    requires Keyed(NewestFirst(written))
    ensures Grows(NewestFirst(written), NewestFirst(written + [x]))
  {
    SortedMembers(written);
    SortAppend(written, x);
    InsertInFront(NewestFirst(written), x);
    InFrontGrows(NewestFirst(written), x);
  }

  // ---- Following the cursor --------------------------------------------------------------------------------

  /** Rows written in between are newer, so they come first; nothing is ever removed. */
  ghost predicate Grows(older: seq<Row>, newer: seq<Row>) {
    |older| <= |newer| && newer[|newer| - |older|..] == older && Keyed(newer)
  }

  ghost predicate GrowsAt(logs: nat -> seq<Row>, k: nat) {
    Grows(logs(k), logs(k + 1))
  }

  /** The log as each call finds it. */
  ghost predicate History(logs: nat -> seq<Row>) {
    Keyed(logs(0)) && forall k: nat :: GrowsAt(logs, k)
  }

  predicate Names(log: seq<Row>, cursor: Option<nat>) {
    cursor.Some? ==> Position(log, cursor.value) < |log|
  }

  lemma PositionIs(log: seq<Row>, i: nat)
    requires Keyed(log) && i < |log|
    ensures Position(log, log[i].id) == i
  {
    var p := Position(log, log[i].id);
    assert p <= i && log[p].id == log[i].id;
  }

  /** Behind a cursor nothing changes when rows arrive in front. */
  lemma BehindGrows(older: seq<Row>, newer: seq<Row>, cursor: nat)
    requires Keyed(older) && Grows(older, newer) && Names(older, Some(cursor))
    ensures Names(newer, Some(cursor)) && Behind(newer, Some(cursor)) == Behind(older, Some(cursor))
  {
    var i, shift := Position(older, cursor), |newer| - |older|;
    assert newer[shift..][i] == newer[shift + i];
    PositionIs(newer, shift + i);
    assert newer[shift + i + 1..] == newer[shift..][i + 1..];
  }

  lemma BehindNext(log: seq<Row>, cursor: Option<nat>, limit: nat)
    requires limit >= 1 && Keyed(log) && Names(log, cursor) && PageAt(log, cursor, limit).hasMore
    ensures var next := PageAt(log, cursor, limit).nextCursor;
            next.Some? && Names(log, next) && Behind(log, next) == Behind(log, cursor)[limit..]
  {
    var at := if cursor.Some? then Position(log, cursor.value) + 1 else 0;
    assert Behind(log, cursor) == log[at..];
    var last := at + limit - 1;
    assert PageAt(log, cursor, limit).data == log[at..][..limit] && log[at..][..limit][limit - 1] == log[last];
    assert PageAt(log, cursor, limit).nextCursor == Some(log[last].id);
    PositionIs(log, last);
    assert log[at..][limit..] == log[last + 1..];
  }

  lemma {:induction false} AllKeyed(logs: nat -> seq<Row>, k: nat)
    requires History(logs)
    ensures Keyed(logs(k))
  {
    if k > 0 { assert GrowsAt(logs, k - 1); }
  }

  /** The next call, on the log as it is by then, finds exactly the rows this page left. */
  lemma NextCall(logs: nat -> seq<Row>, k: nat, cursor: Option<nat>, limit: nat)
    requires History(logs) && limit >= 1 && Names(logs(k), cursor) && PageAt(logs(k), cursor, limit).hasMore
    ensures var next := PageAt(logs(k), cursor, limit).nextCursor;
            Names(logs(k + 1), next) && Behind(logs(k + 1), next) == Behind(logs(k), cursor)[limit..]
  {
    AllKeyed(logs, k);
    BehindNext(logs(k), cursor, limit);
    assert GrowsAt(logs, k);
    BehindGrows(logs(k), logs(k + 1), PageAt(logs(k), cursor, limit).nextCursor.value);
  }

  /** The pages a client gets by following the cursor from call k on, until there is none. */
  ghost function Follow(logs: nat -> seq<Row>, k: nat, cursor: Option<nat>, limit: nat): seq<Page>
    requires History(logs) && limit >= 1 && Names(logs(k), cursor)
    decreases |Behind(logs(k), cursor)|
  {
    var page := PageAt(logs(k), cursor, limit);
    if page.nextCursor.None? then [page]
    else
      NextCall(logs, k, cursor, limit);
      [page] + Follow(logs, k + 1, page.nextCursor, limit)
  }

  function Joined(pages: seq<seq<Row>>): seq<Row> {
    if pages == [] then [] else pages[0] + Joined(pages[1..])
  }

  /** The number of pages the rows need: one for none, otherwise the ceiling of their quotient. */
  ghost predicate Needs(rows: nat, limit: nat, calls: nat) {
    if rows == 0 then calls == 1 else (calls - 1) * limit < rows <= calls * limit
  }

  lemma JoinedFirst(page: seq<Row>, rest: seq<seq<Row>>)
    ensures Joined([page] + rest) == page + Joined(rest)
  {
    assert ([page] + rest)[1..] == rest;
  }

  /**
   * Either this page is the last and holds all that is left, or it holds a full page and the next call sees the rest.
   */
  lemma FollowUnfolds(logs: nat -> seq<Row>, k: nat, cursor: Option<nat>, limit: nat)
    requires History(logs) && limit >= 1 && Names(logs(k), cursor)
    ensures var page, rows := PageAt(logs(k), cursor, limit), Behind(logs(k), cursor);
            if page.nextCursor.None? then |rows| <= limit && page.data == rows
                && Follow(logs, k, cursor, limit) == [page]
            else limit < |rows| && page.data == rows[..limit] && Names(logs(k + 1), page.nextCursor)
                 && Behind(logs(k + 1), page.nextCursor) == rows[limit..]
                 && Follow(logs, k, cursor, limit) == [page] + Follow(logs, k + 1, page.nextCursor, limit)
  {
    if PageAt(logs(k), cursor, limit).nextCursor.Some? { NextCall(logs, k, cursor, limit); }
  }

  /** The same rows cut into pages, with no log and no cursor. */
  function Chop(rows: seq<Row>, limit: nat): (r: seq<seq<Row>>)
    requires limit >= 1
    decreases |rows|
  {
    if |rows| <= limit then [rows] else [rows[..limit]] + Chop(rows[limit..], limit)
  }

  function DataOf(pages: seq<Page>): (r: seq<seq<Row>>)
    ensures |r| == |pages|
  {
    if pages == [] then [] else [pages[0].data] + DataOf(pages[1..])
  }

  lemma DataFirst(page: Page, rest: seq<Page>)
    ensures DataOf([page] + rest) == [page.data] + DataOf(rest)
    ensures DataOf([page]) == [page.data]
  {
    assert ([page] + rest)[1..] == rest;
  }

  lemma {:induction false} FollowChops(logs: nat -> seq<Row>, k: nat, cursor: Option<nat>, limit: nat)
    requires History(logs) && limit >= 1 && Names(logs(k), cursor)
    ensures DataOf(Follow(logs, k, cursor, limit)) == Chop(Behind(logs(k), cursor), limit)
    decreases |Behind(logs(k), cursor)|
  {
    FollowUnfolds(logs, k, cursor, limit);
    var page := PageAt(logs(k), cursor, limit);
    if page.nextCursor.Some? {
      FollowChops(logs, k + 1, page.nextCursor, limit);
      DataFirst(page, Follow(logs, k + 1, page.nextCursor, limit));
    } else {
      DataFirst(page, []);
    }
  }

  lemma {:induction false} ChopJoins(rows: seq<Row>, limit: nat)
    requires limit >= 1
    ensures Joined(Chop(rows, limit)) == rows
    decreases |rows|
  {
    if |rows| <= limit {
      JoinedFirst(rows, []);
      assert [rows] + [] == [rows];
    } else {
      ChopJoins(rows[limit..], limit);
      JoinedFirst(rows[..limit], Chop(rows[limit..], limit));
    }
  }

  lemma {:induction false} ChopCounts(rows: seq<Row>, limit: nat)
    requires limit >= 1
    ensures Needs(|rows|, limit, |Chop(rows, limit)|)
    decreases |rows|
  {
    if |rows| > limit {
      ChopCounts(rows[limit..], limit);
      OneMoreCall(|rows|, limit, |Chop(rows[limit..], limit)|);
    }
  }

  lemma OneMoreCall(rows: nat, limit: nat, calls: nat)
    requires 1 <= limit < rows && Needs(rows - limit, limit, calls)
    ensures Needs(rows, limit, calls + 1)
  {
    assert (calls + 1) * limit == calls * limit + limit && (calls - 1) * limit == calls * limit - limit;
  }

  /**
   * Following the cursor from the start, over a log that keeps growing, returns every row the first call could see,
   * once and in order, in as many calls as those rows need; and not one row more.
   */
  lemma WholeLogOnce(logs: nat -> seq<Row>, limit: nat)
    requires History(logs) && limit >= 1
    ensures Joined(DataOf(Follow(logs, 0, None, limit))) == logs(0)
    ensures Needs(|logs(0)|, limit, |Follow(logs, 0, None, limit)|)
  {
    FollowChops(logs, 0, None, limit);
    ChopJoins(logs(0), limit);
    ChopCounts(logs(0), limit);
  }

  class AuditLogsService {
    var log: seq<Row>

    constructor (log: seq<Row>)
      ensures this.log == log
    {
      this.log := log;
    }

    method FindMany(cursor: Option<nat>, take: nat) returns (rows: seq<Row>)
      ensures rows == Take(Behind(log, cursor), take)
    {
      rows := Take(Behind(log, cursor), take);
    }

    /**
     * One row more than the page is fetched and dropped again. A limit of 0 fails on a log with rows: there is no
     * last row to name.
     */
    method FindAll(cursor: Option<nat>, limit: nat) returns (page: Option<Page>)
      ensures limit >= 1 ==> page == Some(PageAt(log, cursor, limit))
      ensures limit == 0 ==> page == if Behind(log, cursor) == [] then Some(Page([], false, None)) else None
    {
      var logs := FindMany(cursor, limit + 1);
      var hasMore := false;
      if |logs| > limit {
        hasMore := true;
        logs := logs[..|logs| - 1];
        if logs == [] { return None; }
      }
      assert limit >= 1 ==> logs == Take(Behind(log, cursor), limit);
      page := Some(Page(logs, hasMore, if hasMore then Some(logs[|logs| - 1].id) else None));
    }
  }
}
