/** Keyset paging over the audit tables (server/src/hyproxy/admin/routes/viewers.py).

    A row is its id; the filters of a request are one predicate on ids. */
module KeysetPaging {
  import opened Prelude

  type Ids = seq<nat>

  type Filter = nat -> bool

  datatype Page = Page(items: Ids, nextCursor: Option<nat>)

  predicate Below(id: nat, cursor: Option<nat>) {
    cursor.None? || id < cursor.value
  }

  /** The query: matching rows below the cursor, newest first. The table is held in
      commit order, which is id order. */
  function Matching(rows: Ids, keep: Filter, cursor: Option<nat>): Ids {
    if rows == [] then []
    else
      var last := rows[|rows| - 1];
      (if keep(last) && Below(last, cursor) then [last] else []) + Matching(rows[..|rows| - 1], keep, cursor)
  }

  /** One request. One row more than the page is fetched to learn whether any is left. */
  function Fetch(rows: Ids, keep: Filter, cursor: Option<nat>, limit: nat): Page {
    var matching := Matching(rows, keep, cursor);
    var fetched := matching[..Min(|matching|, limit + 1)];
    var hasMore := |fetched| > limit;
    var items := fetched[..Min(|fetched|, limit)];
    Page(items, if hasMore && items != [] then Some(items[|items| - 1]) else None)
  }

  /** The table at each request, in id order whatever happened in between. */
  ghost predicate Sorted(tables: nat -> Ids) {
    forall i: nat :: Ascending(tables(i))
  }

  /** Rows are only added. A transaction that took its id early may commit late, so a
      row can appear below others that were there before it. */
  ghost predicate Additive(tables: nat -> Ids) {
    Sorted(tables) && forall i: nat, id | id in tables(i) :: id in tables(i + 1)
  }

  /** Rows are only added, and each is above all before it: transactions commit in the
      order of their ids. */
  ghost predicate Growing(tables: nat -> Ids) {
    Sorted(tables) && forall i: nat :: tables(i) <= tables(i + 1)
  }

  /** A client following `next_cursor` until it is null, from request `i` on. */
  ghost function Follow(tables: nat -> Ids, keep: Filter, i: nat, cursor: Option<nat>, limit: nat):
      (pages: seq<Page>)
    ensures pages != []
    decreases if cursor.None? then 1 else 0, if cursor.Some? then cursor.value else 0
  {
    var page := Fetch(tables(i), keep, cursor, limit);
    if page.nextCursor.None? then [page]
    else
      CursorDescends(tables(i), keep, cursor, limit);
      [page] + Follow(tables, keep, i + 1, page.nextCursor, limit)
  }

  function Items(pages: seq<Page>): Ids {
    if pages == [] then [] else pages[0].items + Items(pages[1..])
  }

  /** The request that decides about a row: the first whose page reaches down to it. */
  function Deciding(pages: seq<Page>, id: nat): (k: nat)
    ensures pages != [] ==> k < |pages|
  {
    if |pages| <= 1 || pages[0].nextCursor.None? || pages[0].nextCursor.value <= id then 0
    else 1 + Deciding(pages[1..], id)
  }

  lemma {:induction false} MatchingMembers(rows: Ids, keep: Filter, cursor: Option<nat>, id: nat)
    ensures id in Matching(rows, keep, cursor) <==> id in rows && keep(id) && Below(id, cursor)
  {
    if rows != [] {
      var last := |rows| - 1;
      MatchingMembers(rows[..last], keep, cursor, id);
      assert rows == rows[..last] + [rows[last]];
    }
  }

  lemma PrefixAscending(rows: Ids)
    requires Ascending(rows) && rows != []
    ensures Ascending(rows[..|rows| - 1])
    ensures var front := rows[..|rows| - 1]; forall id :: id in front ==> id < rows[|rows| - 1]
  {
    var front := rows[..|rows| - 1];
    forall i, j | 0 <= i < j < |front| ensures front[i] < front[j] { assert rows[i] < rows[j]; }
    forall id | id in front ensures id < rows[|rows| - 1] {
      var j :| 0 <= j < |front| && front[j] == id;
      assert rows[j] < rows[|rows| - 1];
    }
  }

  predicate Descending(ids: Ids) {
    forall i, j :: 0 <= i < j < |ids| ==> ids[i] > ids[j]
  }

  lemma {:induction false} MatchingDescends(rows: Ids, keep: Filter, cursor: Option<nat>)
    requires Ascending(rows)
    ensures Descending(Matching(rows, keep, cursor))
  {
    if rows != [] {
      var last := |rows| - 1;
      var rest := Matching(rows[..last], keep, cursor);
      PrefixAscending(rows);
      MatchingDescends(rows[..last], keep, cursor);
      var all := Matching(rows, keep, cursor);
      if all != rest {
        forall i, j | 0 <= i < j < |all| ensures all[i] > all[j] {
          assert all[j] == rest[j - 1] && rest[j - 1] in rest;
          MatchingMembers(rows[..last], keep, cursor, rest[j - 1]);
        }
      }
    }
  }

  /** Moving the cursor to a matching row leaves exactly what follows it in the list. */
  lemma {:induction false} CursorCuts(rows: Ids, keep: Filter, cursor: Option<nat>, m: nat)
    requires Ascending(rows) && m < |Matching(rows, keep, cursor)|
    ensures Matching(rows, keep, Some(Matching(rows, keep, cursor)[m])) == Matching(rows, keep, cursor)[m + 1..]
    decreases |rows|
  {
    var all := Matching(rows, keep, cursor);
    var last := rows[|rows| - 1];
    var front := rows[..|rows| - 1];
    var rest := Matching(front, keep, cursor);
    PrefixAscending(rows);
    if keep(last) && Below(last, cursor) {
      assert all == [last] + rest;
      if m == 0 {
        EverythingBelow(front, keep, cursor, last);
      } else {
        CursorCuts(front, keep, cursor, m - 1);
        assert all[m] == rest[m - 1] && rest[m - 1] in rest;
        MatchingMembers(front, keep, cursor, rest[m - 1]);
        assert all[m + 1..] == rest[m..];
      }
    } else {
      assert all == rest;
      CursorCuts(front, keep, cursor, m);
      assert rest[m] in rest;
      MatchingMembers(front, keep, cursor, rest[m]);
    }
  }

  lemma {:induction false} EverythingBelow(rows: Ids, keep: Filter, cursor: Option<nat>, top: nat)
    requires forall id :: id in rows ==> id < top
    requires Below(top, cursor)
    ensures Matching(rows, keep, Some(top)) == Matching(rows, keep, cursor)
  {
    if rows != [] {
      var front := rows[..|rows| - 1];
      assert forall id :: id in front ==> id in rows;
      assert rows[|rows| - 1] in rows;
      EverythingBelow(front, keep, cursor, top);
    }
  }

  /** The next cursor is the last item of the page, a matching row below the cursor. */
  lemma CursorDescends(rows: Ids, keep: Filter, cursor: Option<nat>, limit: nat)
    requires Fetch(rows, keep, cursor, limit).nextCursor.Some?
    ensures
      var next := Fetch(rows, keep, cursor, limit).nextCursor.value;
      next in rows && keep(next) && Below(next, cursor)
  {
    var all := Matching(rows, keep, cursor);
    var next := all[limit - 1];
    assert next in all;
    MatchingMembers(rows, keep, cursor, next);
  }

  predicate Window(rows: Ids, keep: Filter, cursor: Option<nat>, page: Page, id: nat) {
    id in page.items <==>
      id in rows && keep(id) && Below(id, cursor) && (page.nextCursor.Some? ==> page.nextCursor.value <= id)
  }

  /** Every page but the last is full, and none is more than full. */
  lemma PagesAreFull(rows: Ids, keep: Filter, cursor: Option<nat>, limit: nat)
    requires limit >= 1
    ensures
      var page := Fetch(rows, keep, cursor, limit);
      && |page.items| <= limit && (page.nextCursor.Some? ==> |page.items| == limit)
      && (page.nextCursor.None? ==> page.items == Matching(rows, keep, cursor))
      && page.items <= Matching(rows, keep, cursor)
  {
  }

  /** A page holds exactly the matching rows between its cursor and the next. */
  lemma PageIsAWindow(rows: Ids, keep: Filter, cursor: Option<nat>, limit: nat, id: nat)
    requires Ascending(rows) && limit >= 1
    ensures
      var page := Fetch(rows, keep, cursor, limit);
      Descending(page.items) && Window(rows, keep, cursor, page, id)
  {
    var all := Matching(rows, keep, cursor);
    var page := Fetch(rows, keep, cursor, limit);
    MatchingDescends(rows, keep, cursor);
    MatchingMembers(rows, keep, cursor, id);
    if page.nextCursor.Some? {
      assert page.items == all[..limit] && page.nextCursor.value == all[limit - 1];
      PrefixCuts(all, limit, id);
    } else {
      assert page.items == all;
    }
  }

  lemma PrefixCuts(ids: Ids, n: nat, id: nat)
    requires Descending(ids) && 1 <= n <= |ids|
    ensures Descending(ids[..n])
    ensures id in ids[..n] <==> id in ids && ids[n - 1] <= id
  {
    if id in ids {
      var k :| 0 <= k < |ids| && ids[k] == id;
      assert k < n ==> ids[..n][k] == id;
    }
  }

  lemma FirstPage(page: Page, rest: seq<Page>, id: nat)
    requires page.nextCursor.Some? <==> rest != []
    ensures
      var pages := [page] + rest;
      && Items(pages) == page.items + Items(rest)
      && Deciding(pages, id) ==
           if page.nextCursor.None? || page.nextCursor.value <= id then 0 else 1 + Deciding(rest, id)
  {
    assert ([page] + rest)[1..] == rest;
  }

  /** A row is returned exactly when its deciding request finds it. */
  ghost predicate Decided(tables: nat -> Ids, keep: Filter, i: nat, cursor: Option<nat>, pages: seq<Page>, id: nat) {
    id in Items(pages) <==> Below(id, cursor) && keep(id) && id in tables(i + Deciding(pages, id))
  }

  lemma DecidedStep(tables: nat -> Ids, keep: Filter, i: nat, cursor: Option<nat>, page: Page, rest: seq<Page>,
      id: nat)
    requires page.nextCursor.Some? && Below(page.nextCursor.value, cursor) && rest != []
    requires Window(tables(i), keep, cursor, page, id)
    requires Decided(tables, keep, i + 1, page.nextCursor, rest, id)
    ensures Decided(tables, keep, i, cursor, [page] + rest, id)
  {
    FirstPage(page, rest, id);
    assert i + 1 + Deciding(rest, id) == i + (1 + Deciding(rest, id));
  }

  lemma {:induction false} FollowDecides(tables: nat -> Ids, keep: Filter, i: nat, cursor: Option<nat>, limit: nat,
      id: nat)
    requires Sorted(tables) && limit >= 1
    ensures Decided(tables, keep, i, cursor, Follow(tables, keep, i, cursor, limit), id)
    decreases if cursor.None? then 1 else 0, if cursor.Some? then cursor.value else 0
  {
    var page := Fetch(tables(i), keep, cursor, limit);
    PageIsAWindow(tables(i), keep, cursor, limit, id);
    if page.nextCursor.Some? {
      CursorDescends(tables(i), keep, cursor, limit);
      FollowDecides(tables, keep, i + 1, page.nextCursor, limit, id);
      DecidedStep(tables, keep, i, cursor, page, Follow(tables, keep, i + 1, page.nextCursor, limit), id);
    } else {
      FirstPage(page, [], id);
      assert [page] + [] == [page];
    }
  }

  lemma {:induction false} FollowDescends(tables: nat -> Ids, keep: Filter, i: nat, cursor: Option<nat>, limit: nat)
    requires Sorted(tables) && limit >= 1
    ensures Descending(Items(Follow(tables, keep, i, cursor, limit)))
    decreases if cursor.None? then 1 else 0, if cursor.Some? then cursor.value else 0
  {
    var page := Fetch(tables(i), keep, cursor, limit);
    var pages := Follow(tables, keep, i, cursor, limit);
    PageIsAWindow(tables(i), keep, cursor, limit, 0);
    if page.nextCursor.Some? {
      CursorDescends(tables(i), keep, cursor, limit);
      FollowDescends(tables, keep, i + 1, page.nextCursor, limit);
      var rest := Follow(tables, keep, i + 1, page.nextCursor, limit);
      assert pages == [page] + rest;
      FirstPage(page, rest, 0);
      forall a, b | a in page.items && b in Items(rest) ensures a > b {
        PageIsAWindow(tables(i), keep, cursor, limit, a);
        FollowDecides(tables, keep, i + 1, page.nextCursor, limit, b);
        assert Decided(tables, keep, i + 1, page.nextCursor, rest, b);
      }
      DescendingJoins(page.items, Items(rest));
    } else {
      FirstPage(page, [], 0);
      assert pages == [page] + [];
    }
  }

  lemma DescendingJoins(front: Ids, back: Ids)
    requires Descending(front) && Descending(back)
    requires forall a, b :: a in front && b in back ==> a > b
    ensures Descending(front + back)
  {
    var all := front + back;
    forall i, j | 0 <= i < j < |all| ensures all[i] > all[j] {
      if i < |front| <= j { assert front[i] in front && back[j - |front|] in back; }
    }
  }

  /** Whatever happens to the table between the requests, following the cursor ends,
      the rows come newest first and none twice, and a matching row is returned exactly
      when it is there at the one request that decides about it. */
  lemma EachRowIsDecidedOnce(tables: nat -> Ids, keep: Filter, limit: nat)
    requires Sorted(tables) && limit >= 1
    ensures
      var pages := Follow(tables, keep, 0, None, limit);
      && Descending(Items(pages))
      && forall id :: id in Items(pages) <==> keep(id) && id in tables(Deciding(pages, id))
  {
    FollowDescends(tables, keep, 0, None, limit);
    var pages := Follow(tables, keep, 0, None, limit);
    forall id ensures id in Items(pages) <==> keep(id) && id in tables(Deciding(pages, id)) {
      FollowDecides(tables, keep, 0, None, limit, id);
    }
  }

  lemma {:induction false} RowsStay(tables: nat -> Ids, i: nat, k: nat, id: nat)
    requires Additive(tables) && i <= k && id in tables(i)
    ensures id in tables(k)
    decreases k - i
  {
    if i < k {
      assert id in tables(i + 1);
      RowsStay(tables, i + 1, k, id);
    }
  }

  /** Where rows are only added, in whatever order: a matching row is returned exactly
      when it was committed by the request that decides about it. So no row of the first
      request's table is missed, and a row committed late, below ids that were there
      before, may be returned or missed. */
  lemma LateRowsAreDecidedByTheirRequest(tables: nat -> Ids, keep: Filter, limit: nat, id: nat, since: nat)
    requires Additive(tables) && limit >= 1
    requires keep(id) && id in tables(since) && (since > 0 ==> id !in tables(since - 1))
    ensures
      var pages := Follow(tables, keep, 0, None, limit);
      id in Items(pages) <==> since <= Deciding(pages, id)
  {
    EachRowIsDecidedOnce(tables, keep, limit);
    var k := Deciding(Follow(tables, keep, 0, None, limit), id);
    if since <= k {
      RowsStay(tables, since, k, id);
    } else if id in tables(k) {
      RowsStay(tables, k, since - 1, id);
    }
  }

  lemma TwoRows(keep: Filter)
    requires keep(1) && keep(3)
    ensures Fetch([1, 3], keep, None, 1) == Page([3], Some(3))
    ensures Fetch([1, 3], keep, Some(3), 1) == Page([1], None)
  {
    assert [1, 3][..1] == [1] && [1][..0] == [];
    assert Matching([1], keep, None) == [1] && Matching([1, 3], keep, None) == [3, 1];
    assert Matching([1], keep, Some(3)) == [1] && Matching([1, 3], keep, Some(3)) == [1];
  }

  /** Row 2 commits between the first page and the second. */
  function Soon(i: nat): Ids { if i == 0 then [1, 3] else [1, 2, 3] }

  /** Row 2 commits after the second page. */
  function Late(i: nat): Ids { if i <= 1 then [1, 3] else [1, 2, 3] }

  lemma SecondPageDecides(tables: nat -> Ids, keep: Filter)
    requires keep(1) && keep(3) && tables(0) == [1, 3]
    ensures var k := Deciding(Follow(tables, keep, 0, None, 1), 2);
            k >= 1 && (tables(1) == [1, 3] ==> k == 1)
  {
    TwoRows(keep);
    var first, rest := Page([3], Some(3)), Follow(tables, keep, 1, Some(3), 1);
    assert Follow(tables, keep, 0, None, 1) == [first] + rest;
    FirstPage(first, rest, 2);
    if tables(1) == [1, 3] { assert rest == [Page([1], None)]; }
  }

  lemma SoonIsReturned(keep: Filter)
    requires keep(1) && keep(2) && keep(3)
    ensures Additive(Soon) && 2 in Items(Follow(Soon, keep, 0, None, 1))
  {
    FollowDecides(Soon, keep, 0, None, 1, 2);
    SecondPageDecides(Soon, keep);
  }

  lemma LateIsMissed(keep: Filter)
    requires keep(1) && keep(2) && keep(3)
    ensures Additive(Late) && 2 !in Items(Follow(Late, keep, 0, None, 1))
  {
    FollowDecides(Late, keep, 0, None, 1, 2);
    SecondPageDecides(Late, keep);
  }

  /** Both happen to the same late row: committed after the first page it is returned,
      committed after the second it is missed. */
  lemma LateRowsGoEitherWay(keep: Filter)
    requires keep(1) && keep(2) && keep(3)
    ensures Additive(Soon) && 2 !in Soon(0) && 2 in Items(Follow(Soon, keep, 0, None, 1))
    ensures Additive(Late) && 2 in Late(2) && 2 !in Items(Follow(Late, keep, 0, None, 1))
  {
    SoonIsReturned(keep);
    LateIsMissed(keep);
  }

  lemma {:induction false} TableGrows(tables: nat -> Ids, k: nat)
    requires Growing(tables)
    ensures tables(0) <= tables(k)
    decreases k
  {
    if k > 0 {
      TableGrows(tables, k - 1);
      assert tables(k - 1) <= tables(k - 1 + 1);
    }
  }

  lemma NothingSlipsBelow(rows: Ids, grown: Ids, cursor: nat, id: nat)
    requires Ascending(grown) && rows <= grown && cursor in rows && id < cursor
    ensures id in grown <==> id in rows
  {
    var m :| 0 <= m < |rows| && rows[m] == cursor;
    assert grown[m] == cursor;
    if id in grown {
      var j :| 0 <= j < |grown| && grown[j] == id;
      assert j < m && rows[j] == id;
    }
  }

  /** Where rows commit in id order, however many are added between the pages, the
      pages end to end are the matching rows of the table as it was at the first
      request, each once, newest first. */
  lemma PagesAreTheFirstSnapshot(tables: nat -> Ids, keep: Filter, limit: nat)
    requires Growing(tables) && limit >= 1
    ensures
      var items := Items(Follow(tables, keep, 0, None, limit));
      && Descending(items)
      && forall id :: id in items <==> id in tables(0) && keep(id)
  {
    EachRowIsDecidedOnce(tables, keep, limit);
    var pages := Follow(tables, keep, 0, None, limit);
    forall id ensures id in tables(Deciding(pages, id)) <==> id in tables(0) {
      var k := Deciding(pages, id);
      if k > 0 {
        CursorDescends(tables(0), keep, None, limit);
        TableGrows(tables, k);
        NothingSlipsBelow(tables(0), tables(k), pages[0].nextCursor.value, id);
      }
    }
  }
}
