// Keyset pagination of a video's metric snapshots, newest first.
module HistoryPaging {
  import opened Basics

  datatype Row = Row(createdAt: Time, id: Id)

  // A table snapshot; id is the primary key.
  ghost predicate Keyed(rows: set<Row>) {
    forall r, s :: r in rows && s in rows && r.id == s.id ==> r == s
  }

  predicate Newer(r: Row, s: Row) {
    r.createdAt > s.createdAt || (r.createdAt == s.createdAt && r.id > s.id)
  }

  ghost predicate IsNewest(rows: set<Row>, m: Row) {
    m in rows && forall r :: r in rows && r != m ==> Newer(m, r)
  }

  lemma {:induction false} NewestExists(rows: set<Row>)
    requires rows != {}
    ensures exists m :: IsNewest(rows, m)
    decreases rows
  {
    var r :| r in rows;
    if rows - {r} == {} {
      assert rows == {r};
      assert IsNewest(rows, r);
    } else {
      NewestExists(rows - {r});
      var m :| IsNewest(rows - {r}, m);
      if Newer(r, m) {
        assert forall x :: x in rows && x != r ==> x in rows - {r};
        assert IsNewest(rows, r);
      } else {
        assert IsNewest(rows, m);
      }
    }
  }

  // ORDER BY created_at DESC, id DESC
  ghost function OrderBy(rows: set<Row>): seq<Row> {
    if rows == {} then []
    else
      NewestExists(rows);
      var m :| IsNewest(rows, m);
      [m] + OrderBy(rows - {m})
  }

  // The rows that come after the cursor row.
  ghost function Older(rows: set<Row>, cursor: Row): set<Row> {
    set r | r in rows && Newer(cursor, r)
  }

  function Min(x: nat, y: nat): nat { if x < y then x else y }

  datatype Page = Page(items: seq<Row>, nextCursor: Option<Id>)

  datatype HistoryError = InvalidCursor

  // query.limit || 20
  function PageSize(limit: nat): nat { if limit == 0 then 20 else limit }

  ghost predicate HasId(rows: set<Row>, id: Id) { exists r :: r in rows && r.id == id }

  ghost function Take(sorted: seq<Row>, size: nat): Page
    requires size >= 1
  {
    var items := sorted[..Min(size + 1, |sorted|)];
    var page := items[..Min(size, |items|)];
    Page(page, if |items| > size then Some(page[|page| - 1].id) else None)
  }

  ghost function History(rows: set<Row>, cursor: Option<Id>, limit: nat): Result<Page, HistoryError> {
    match cursor
    case None => Success(Take(OrderBy(rows), PageSize(limit)))
    case Some(id) =>
      if !HasId(rows, id) then Failure(InvalidCursor)
      else
        var r :| r in rows && r.id == id;
        Success(Take(OrderBy(Older(rows, r)), PageSize(limit)))
  }

  // ------------------------------------------------------------------------

  lemma {:induction false} OrderByContents(rows: set<Row>)
    ensures |OrderBy(rows)| == |rows|
    ensures forall r :: r in OrderBy(rows) <==> r in rows
    ensures forall i, j :: 0 <= i < j < |OrderBy(rows)| ==> Newer(OrderBy(rows)[i], OrderBy(rows)[j])
    decreases rows
  {
    if rows != {} {
      NewestExists(rows);
      var m :| IsNewest(rows, m) && OrderBy(rows) == [m] + OrderBy(rows - {m});
      OrderByContents(rows - {m});
      forall i, j | 0 <= i < j < |OrderBy(rows)| ensures Newer(OrderBy(rows)[i], OrderBy(rows)[j]) {
        if i == 0 { assert OrderBy(rows)[j] in OrderBy(rows - {m}); }
      }
    }
  }

  lemma OlderSkipsTheNewest(rows: set<Row>, m: Row, x: Row)
    requires IsNewest(rows, m) && x in rows && x != m
    ensures Older(rows, x) == Older(rows - {m}, x)
  {
  }

  lemma OlderThanTheNewest(rows: set<Row>, m: Row)
    requires IsNewest(rows, m)
    ensures Older(rows, m) == rows - {m}
  {
  }

  // What follows a row in the order is the order of the rows older than it.
  lemma {:induction false} RestIsOlder(rows: set<Row>, j: nat)
    requires j < |OrderBy(rows)|
    ensures OrderBy(rows)[j + 1..] == OrderBy(Older(rows, OrderBy(rows)[j]))
    decreases j
  {
    NewestExists(rows);
    var m :| IsNewest(rows, m) && OrderBy(rows) == [m] + OrderBy(rows - {m});
    var rest := OrderBy(rows - {m});
    if j == 0 {
      OlderThanTheNewest(rows, m);
    } else {
      var x := rest[j - 1];
      RestIsOlder(rows - {m}, j - 1);
      assert x in rows - {m} by { OrderByContents(rows - {m}); }
      OlderSkipsTheNewest(rows, m, x);
      assert OrderBy(rows)[j + 1..] == rest[j..];
    }
  }

  // ------------------------------------------------------------------------
  // A walk: request after request, each following the cursor of the page before,
  // against whatever the table holds by then.

  ghost predicate OnlyNewerArrive(first: set<Row>, now: set<Row>) {
    && first <= now
    && Keyed(now)
    && forall r, s :: r in now && r !in first && s in first ==> Newer(r, s)
  }

  ghost function CursorOf(pages: seq<Page>, i: nat): Option<Id>
    requires i <= |pages|
  {
    if i == 0 then None else pages[i - 1].nextCursor
  }

  ghost predicate Answers(rows: set<Row>, cursor: Option<Id>, limit: nat, page: Page) {
    History(rows, cursor, limit) == Success(page)
  }

  ghost predicate IsWalk(tables: seq<set<Row>>, pages: seq<Page>, limit: nat)
    decreases |pages|
  {
    && pages != [] && |tables| == |pages|
    && OnlyNewerArrive(tables[0], tables[|pages| - 1])
    && Answers(tables[|pages| - 1], CursorOf(pages, |pages| - 1), limit, pages[|pages| - 1])
    && (|pages| > 1 ==>
          && CursorOf(pages, |pages| - 1).Some?
          && IsWalk(tables[..|pages| - 1], pages[..|pages| - 1], limit))
  }

  ghost function Concat(pages: seq<Page>): seq<Row> {
    if pages == [] then [] else Concat(pages[..|pages| - 1]) + pages[|pages| - 1].items
  }

  lemma NextPage(first: set<Row>, now: set<Row>, j: nat, limit: nat)
    requires OnlyNewerArrive(first, now) && j < |OrderBy(first)|
    ensures History(now, Some(OrderBy(first)[j].id), limit)
         == Success(Take(OrderBy(first)[j + 1..], PageSize(limit)))
  {
    var x := OrderBy(first)[j];
    OrderByContents(first);
    assert x in first;
    assert x in now && HasId(now, x.id);
    assert Older(now, x) == Older(first, x);
    RestIsOlder(first, j);
  }

  // The rows delivered so far, and the cursor left after them.
  ghost predicate Delivered(all: seq<Row>, count: nat, pages: seq<Page>) {
    && Concat(pages) == all[..Min(count, |all|)]
    && (CursorOf(pages, |pages|).None? <==> pages == [] || |all| <= count)
    && (CursorOf(pages, |pages|).Some? ==> 0 < count < |all| && CursorOf(pages, |pages|).value == all[count - 1].id)
  }

  lemma DeliverOneMore(all: seq<Row>, count: nat, pages: seq<Page>, size: nat, page: Page)
    requires size >= 1 && count <= |all| && Delivered(all, count, pages)
    requires page == Take(all[count..], size)
    ensures Delivered(all, count + size, pages + [page])
  {
    assert (pages + [page])[..|pages|] == pages;
    var rest := all[count..];
    assert page.items == rest[..Min(size, |rest|)];
    assert all[..count] + rest[..Min(size, |rest|)] == all[..Min(count + size, |all|)];
  }

  lemma FollowCursor(first: set<Row>, now: set<Row>, limit: nat, count: nat, pages: seq<Page>, page: Page)
    requires Delivered(OrderBy(first), count, pages) && CursorOf(pages, |pages|).Some?
    requires OnlyNewerArrive(first, now) && Answers(now, CursorOf(pages, |pages|), limit, page)
    ensures Delivered(OrderBy(first), count + PageSize(limit), pages + [page])
  {
    NextPage(first, now, count - 1, limit);
    DeliverOneMore(OrderBy(first), count, pages, PageSize(limit), page);
  }

  lemma FirstPage(first: set<Row>, limit: nat, page: Page)
    requires Answers(first, None, limit, page)
    ensures Delivered(OrderBy(first), PageSize(limit), [page])
  {
    var all := OrderBy(first);
    assert all[0..] == all && [] + [page] == [page];
    DeliverOneMore(all, 0, [], PageSize(limit), page);
  }

  // pages * size, added up page by page.
  function RowsIn(pages: nat, limit: nat): nat {
    if pages == 0 then 0 else RowsIn(pages - 1, limit) + PageSize(limit)
  }

  lemma {:induction false} RowsInIsProduct(pages: nat, limit: nat)
    ensures RowsIn(pages, limit) == pages * PageSize(limit)
    ensures RowsIn(pages, limit) >= pages
  {
    if pages > 0 { RowsInIsProduct(pages - 1, limit); }
  }

  // After k pages a walk has delivered exactly the first k * size rows of the
  // order the table had at the start, and it stops exactly when none are left.
  lemma {:induction false} WalkDelivers(tables: seq<set<Row>>, pages: seq<Page>, limit: nat)
    requires IsWalk(tables, pages, limit)
    ensures Delivered(OrderBy(tables[0]), RowsIn(|pages|, limit), pages)
    decreases |pages|
  {
    var n := |pages|;
    var front := pages[..n - 1];
    assert pages == front + [pages[n - 1]];
    if n == 1 {
      FirstPage(tables[0], limit, pages[0]);
    } else {
      WalkDelivers(tables[..n - 1], front, limit);
      assert CursorOf(pages, n - 1) == CursorOf(front, n - 1);
      FollowCursor(tables[0], tables[n - 1], limit, RowsIn(n - 1, limit), front, pages[n - 1]);
    }
  }

  // A walk never gets stuck: while a cursor is left, the next request succeeds.
  // It has fewer pages than the table had rows, so it comes to an end.
  lemma WalkContinues(tables: seq<set<Row>>, pages: seq<Page>, limit: nat, now: set<Row>) returns (page: Page)
    requires IsWalk(tables, pages, limit) && pages[|pages| - 1].nextCursor.Some?
    requires OnlyNewerArrive(tables[0], now)
    ensures IsWalk(tables + [now], pages + [page], limit)
    ensures |pages| < |tables[0]|
  {
    WalkDelivers(tables, pages, limit);
    var count := RowsIn(|pages|, limit);
    RowsInIsProduct(|pages|, limit);
    assert |OrderBy(tables[0])| == |tables[0]| by { OrderByContents(tables[0]); }
    page := PageAfter(tables[0], now, limit, count, pages);
    ExtendWalk(tables, pages, limit, now, page);
  }

  lemma PageAfter(first: set<Row>, now: set<Row>, limit: nat, count: nat, pages: seq<Page>) returns (page: Page)
    requires Delivered(OrderBy(first), count, pages) && CursorOf(pages, |pages|).Some? && OnlyNewerArrive(first, now)
    ensures Answers(now, CursorOf(pages, |pages|), limit, page)
  {
    NextPage(first, now, count - 1, limit);
    page := Take(OrderBy(first)[count..], PageSize(limit));
  }

  lemma ExtendWalk(tables: seq<set<Row>>, pages: seq<Page>, limit: nat, now: set<Row>, page: Page)
    requires IsWalk(tables, pages, limit) && pages[|pages| - 1].nextCursor.Some?
    requires OnlyNewerArrive(tables[0], now)
    requires Answers(now, pages[|pages| - 1].nextCursor, limit, page)
    ensures IsWalk(tables + [now], pages + [page], limit)
  {
    assert (tables + [now])[..|pages|] == tables && (pages + [page])[..|pages|] == pages;
    assert CursorOf(pages + [page], |pages|) == pages[|pages| - 1].nextCursor;
  }

  // Pages a history of so many rows takes; an empty one takes one.
  function PagesFor(rows: nat, size: nat): nat
    requires size >= 1
  {
    if rows == 0 then 1 else (rows - 1) / size + 1
  }

  lemma PagesForIs(rows: nat, size: nat, pages: nat)
    requires size >= 1 && pages >= 1 && rows <= pages * size
    requires pages > 1 ==> (pages - 1) * size < rows
    ensures pages == PagesFor(rows, size)
  {
    if rows > 0 {
      QuotientIs(rows - 1, size, pages - 1);
    } else if pages > 1 {
      LessTimes(0, pages - 1, size);
    }
  }

  lemma QuotientIs(x: nat, size: nat, q: nat)
    requires size >= 1 && q * size <= x && x < (q + 1) * size
    ensures x / size == q
  {
    Quotient(x, size);
    if x / size < q { LessTimes(x / size + 1, q, size); }
    if x / size > q { LessTimes(q + 1, x / size, size); }
  }

  lemma Quotient(x: nat, size: nat)
    requires size >= 1
    ensures x / size * size <= x < (x / size + 1) * size
  {
  }

  lemma LessTimes(a: nat, b: nat, size: nat)
    requires a <= b
    ensures a * size <= b * size
  {
  }

  // A finished walk is the whole history: nothing skipped, nothing repeated, and
  // in no more and no fewer pages than the rows take.
  lemma WalkIsComplete(tables: seq<set<Row>>, pages: seq<Page>, limit: nat)
    requires IsWalk(tables, pages, limit) && pages[|pages| - 1].nextCursor.None?
    ensures Concat(pages) == OrderBy(tables[0])
    ensures forall r :: r in Concat(pages) <==> r in tables[0]
    ensures forall i, j :: 0 <= i < j < |Concat(pages)| ==> Newer(Concat(pages)[i], Concat(pages)[j])
    ensures |Concat(pages)| == |tables[0]|
    ensures |pages| == PagesFor(|tables[0]|, PageSize(limit))
  {
    WalkDelivers(tables, pages, limit);
    OrderByContents(tables[0]);
    PagesOfWalk(tables, pages, limit);
  }

  lemma PagesOfWalk(tables: seq<set<Row>>, pages: seq<Page>, limit: nat)
    requires IsWalk(tables, pages, limit) && pages[|pages| - 1].nextCursor.None?
    ensures |pages| == PagesFor(|tables[0]|, PageSize(limit))
  {
    var n := |pages|;
    WalkDelivers(tables, pages, limit);
    OrderByContents(tables[0]);
    RowsInIsProduct(n, limit);
    RowsInIsProduct(n - 1, limit);
    if n > 1 {
      WalkDelivers(tables[..n - 1], pages[..n - 1], limit);
      assert CursorOf(pages, n - 1) == CursorOf(pages[..n - 1], n - 1);
    }
    PagesForIs(|tables[0]|, PageSize(limit), n);
  }

  lemma TakeTakes(sorted: seq<Row>, size: nat)
    requires size >= 1
    ensures var page := Take(sorted, size);
            && page.items == sorted[..Min(size, |sorted|)]
            && (page.nextCursor.Some? <==> |page.items| < |sorted|)
            && (page.nextCursor.Some? ==> |page.items| == size && page.nextCursor.value == page.items[size - 1].id)
  {
  }

  // Latest first, and by identifier among simultaneous ones.
  ghost predicate NewestFirst(items: seq<Row>) {
    forall i, j :: 0 <= i < j < |items| ==>
      items[i].createdAt >= items[j].createdAt && (items[i].createdAt == items[j].createdAt ==> items[i].id > items[j].id)
  }

  ghost predicate LeavesOlder(rows: set<Row>, items: seq<Row>) {
    forall r, s :: r in items && s in rows && s !in items ==>
      s.createdAt <= r.createdAt && (s.createdAt == r.createdAt ==> s.id < r.id)
  }

  // The newest of some rows, as many as fit, with a cursor at the last one exactly if
  // there are more.
  ghost predicate PageOf(rows: set<Row>, page: Page, size: nat) {
    && |page.items| == Min(size, |rows|)
    && (forall r :: r in page.items ==> r in rows) && NewestFirst(page.items) && LeavesOlder(rows, page.items)
    && (page.nextCursor.Some? <==> |rows| > size)
    && (page.nextCursor.Some? ==> |page.items| > 0 && page.nextCursor.value == page.items[|page.items| - 1].id)
  }

  lemma PrefixIsNewer(sorted: seq<Row>, n: nat, r: Row, s: Row)
    requires forall i, j :: 0 <= i < j < |sorted| ==> Newer(sorted[i], sorted[j])
    requires n <= |sorted| && r in sorted[..n] && s in sorted && s !in sorted[..n]
    ensures Newer(r, s)
  {
    var i :| 0 <= i < n && sorted[i] == r;
    var j :| 0 <= j < |sorted| && sorted[j] == s;
    assert forall k :: 0 <= k < n ==> sorted[k] in sorted[..n];
  }

  lemma PrefixIsNewest(rows: set<Row>, n: nat)
    requires n <= |OrderBy(rows)|
    ensures |OrderBy(rows)| == |rows| && forall r :: r in OrderBy(rows)[..n] ==> r in rows
    ensures NewestFirst(OrderBy(rows)[..n]) && LeavesOlder(rows, OrderBy(rows)[..n])
  {
    var sorted := OrderBy(rows);
    OrderByContents(rows);
    forall r, s | r in sorted[..n] && s in rows && s !in sorted[..n] ensures Newer(r, s) {
      PrefixIsNewer(sorted, n, r, s);
    }
    forall i, j | 0 <= i < j < n ensures Newer(sorted[..n][i], sorted[..n][j]) {
      assert Newer(sorted[i], sorted[j]);
    }
  }

  lemma PageHolds(rows: set<Row>, size: nat)
    requires size >= 1
    ensures PageOf(rows, Take(OrderBy(rows), size), size)
  {
    TakeTakes(OrderBy(rows), size);
    PrefixIsNewest(rows, Min(size, |OrderBy(rows)|));
  }

  // The first page holds the newest rows, as many as were asked for, or twenty.
  lemma FirstPageIsNewest(rows: set<Row>, limit: nat)
    ensures History(rows, None, limit).Success?
    ensures PageOf(rows, History(rows, None, limit).value, if limit == 0 then 20 else limit)
  {
    PageHolds(rows, if limit == 0 then 20 else limit);
  }

  // A page from a cursor holds the newest of the rows that are older than its row.
  lemma NextPageIsOlder(rows: set<Row>, c: Row, limit: nat)
    requires Keyed(rows) && c in rows
    ensures var older := set r | r in rows && r.createdAt <= c.createdAt && (r.createdAt == c.createdAt ==> r.id < c.id);
            && History(rows, Some(c.id), limit).Success?
            && PageOf(older, History(rows, Some(c.id), limit).value, if limit == 0 then 20 else limit)
  {
    assert HasId(rows, c.id);
    var older := set r | r in rows && r.createdAt <= c.createdAt && (r.createdAt == c.createdAt ==> r.id < c.id);
    assert Older(rows, c) == older;
    PageHolds(older, if limit == 0 then 20 else limit);
  }

  // A cursor that is no row of the table is refused.
  lemma UnknownCursor(rows: set<Row>, id: Id, limit: nat)
    ensures History(rows, Some(id), limit) == Failure(InvalidCursor) <==> forall r :: r in rows ==> r.id != id
  {
  }
}
