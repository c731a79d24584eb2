/** Keyset pages over (occurred_at, id), requested one after the other while the table may change. */
module Pagination {
  import opened Common
  import opened Ordering

  datatype Page = Page(items: seq<Key>, next: Option<Key>)

  datatype Result = Ok(page: Page) | InvalidLimit

  const MAX_LIMIT := 100

  function Above(table: set<Key>, cursor: Option<Key>): set<Key> {
    set k | k in table && (cursor.None? || Before(cursor.value, k))
  }

  /** One query for `limit + 1` rows above the cursor; the surplus row only tells that there is more. */
  function PageAt(table: set<Key>, cursor: Option<Key>, limit: nat): Page {
    var rows := Take(Sorted(Above(table, cursor)), limit + 1);
    var hasMore := |rows| > limit;
    var items := Take(rows, limit);
    Page(items, if hasMore && items != [] then Some(items[|items| - 1]) else None)
  }

  function Paginate(table: set<Key>, cursor: Option<Key>, limit: int): Result {
    if 1 <= limit <= MAX_LIMIT then Ok(PageAt(table, cursor, limit)) else InvalidLimit
  }

  /** Following the cursors; `tables[k]` is the table when the k-th page is requested. */
  function Walk(tables: seq<set<Key>>, cursor: Option<Key>, limit: nat): seq<Page> {
    if tables == [] then []
    else
      var page := PageAt(tables[0], cursor, limit);
      if page.next.None? then [page] else [page] + Walk(tables[1..], page.next, limit)
  }

  predicate Completed(pages: seq<Page>) {
    pages != [] && pages[|pages| - 1].next.None?
  }

  function Items(pages: seq<Page>): seq<Key> {
    if pages == [] then [] else pages[0].items + Items(pages[1..])
  }

  /** The rows after the n-th are the greater ones. */
  lemma RowsAfter(rows: seq<Key>, n: nat, k: Key)
    requires Increasing(rows) && 1 <= n <= |rows|
    ensures k in rows[n..] <==> k in rows && Before(rows[n - 1], k)
  {
    if k in rows {
      var i :| 0 <= i < |rows| && rows[i] == k;
      if i >= n {
        assert rows[n..][i - n] == k;
      } else {
        assert i < n - 1 ==> Before(k, rows[n - 1]);
      }
    }
  }

  /** Above the n-th row of a result lie exactly the rows after it. */
  lemma AboveNthRow(table: set<Key>, cursor: Option<Key>, n: nat)
    requires 1 <= n <= |Sorted(Above(table, cursor))|
    ensures var rows := Sorted(Above(table, cursor));
      Sorted(Above(table, Some(rows[n - 1]))) == rows[n..]
  {
    var rows := Sorted(Above(table, cursor));
    var last := rows[n - 1];
    assert last in rows;
    hide Sorted, Increasing;
    forall k
      ensures k in rows[n..] <==> k in Above(table, Some(last))
    {
      RowsAfter(rows, n, k);
    }
    SuffixIncreases(rows, n);
    SortedIsUnique(rows[n..], Above(table, Some(last)));
  }

  lemma SuffixIncreases(rows: seq<Key>, n: nat)
    requires Increasing(rows) && n <= |rows|
    ensures Increasing(rows[n..])
  {
  }

  /** A page is a prefix of the rows above its cursor; the next cursor leaves exactly the others. */
  lemma PageIsPrefix(table: set<Key>, cursor: Option<Key>, limit: nat)
    requires limit >= 1
    ensures var page, rows := PageAt(table, cursor, limit), Sorted(Above(table, cursor));
      && page.items == Take(rows, limit)
      && (page.next.Some? <==> |rows| > limit)
      && (page.next.Some? ==> page.next.value == rows[limit - 1] && page.next.value in Above(table, cursor)
                              && Sorted(Above(table, page.next)) == rows[limit..])
  {
    var page, rows := PageAt(table, cursor, limit), Sorted(Above(table, cursor));
    assert Take(Take(rows, limit + 1), limit) == Take(rows, limit);
    if page.next.Some? {
      assert page.next.value == rows[limit - 1];
      assert rows[limit - 1] in rows;
      AboveNthRow(table, cursor, limit);
    }
  }

  /** A row of the table above the cursor is on the page or above the next cursor. */
  lemma PageOrLater(table: set<Key>, cursor: Option<Key>, limit: nat, k: Key)
    requires limit >= 1 && k in Above(table, cursor)
    ensures var page := PageAt(table, cursor, limit);
      k in page.items || (page.next.Some? && Before(page.next.value, k))
  {
    PageIsPrefix(table, cursor, limit);
    var rows := Sorted(Above(table, cursor));
    assert k in rows;
    var i :| 0 <= i < |rows| && rows[i] == k;
    if i < limit { assert Take(rows, limit)[i] == k; }
  }

  lemma PageIncreases(table: set<Key>, cursor: Option<Key>, limit: nat)
    requires limit >= 1
    ensures Increasing(PageAt(table, cursor, limit).items)
  {
    PageIsPrefix(table, cursor, limit);
  }

  /** A row of a page lies between its cursor and the next one. */
  lemma PageBounds(table: set<Key>, cursor: Option<Key>, limit: nat, k: Key)
    requires limit >= 1 && k in PageAt(table, cursor, limit).items
    ensures var page := PageAt(table, cursor, limit);
      k in Above(table, cursor) && (page.next.Some? ==> k == page.next.value || Before(k, page.next.value))
  {
    PageIsPrefix(table, cursor, limit);
    var items, rows := PageAt(table, cursor, limit).items, Sorted(Above(table, cursor));
    var i :| 0 <= i < |items| && items[i] == k;
    assert rows[i] == k && rows[i] in rows;
  }

  lemma WalkItems(tables: seq<set<Key>>, cursor: Option<Key>, limit: nat)
    requires tables != []
    ensures var page := PageAt(tables[0], cursor, limit);
      Items(Walk(tables, cursor, limit))
      == page.items + (if page.next.None? then [] else Items(Walk(tables[1..], page.next, limit)))
  {
    var page := PageAt(tables[0], cursor, limit);
    if page.next.None? {
      assert Items([page][1..]) == [];
    } else {
      var rest := Walk(tables[1..], page.next, limit);
      assert ([page] + rest)[1..] == rest;
    }
  }

  lemma PageFits(table: set<Key>, cursor: Option<Key>, limit: nat)
    requires limit >= 1
    ensures var page := PageAt(table, cursor, limit);
      && (forall k | k in page.items :: cursor.Some? ==> Before(cursor.value, k))
      && (page.next.Some? ==> forall k | k in page.items :: k == page.next.value || Before(k, page.next.value))
      && (page.next.Some? && cursor.Some? ==> Before(cursor.value, page.next.value))
  {
    var page := PageAt(table, cursor, limit);
    PageIsPrefix(table, cursor, limit);
    forall k | k in page.items
      ensures k in Above(table, cursor) && (page.next.Some? ==> k == page.next.value || Before(k, page.next.value))
    {
      PageBounds(table, cursor, limit, k);
    }
  }

  /** The pages together are strictly increasing, so no row comes twice; all of them lie above the first cursor. */
  lemma {:induction false} WalkIncreases(tables: seq<set<Key>>, cursor: Option<Key>, limit: nat)
    requires limit >= 1
    ensures var items := Items(Walk(tables, cursor, limit));
      Increasing(items) && forall k | k in items :: cursor.Some? ==> Before(cursor.value, k)
    decreases |tables|
  {
    if tables == [] {
    } else {
      WalkItems(tables, cursor, limit);
      PageFits(tables[0], cursor, limit);
      PageIncreases(tables[0], cursor, limit);
      var page := PageAt(tables[0], cursor, limit);
      if page.next.Some? {
        WalkIncreases(tables[1..], page.next, limit);
        Glue(page.items, Items(Walk(tables[1..], page.next, limit)), page.next.value);
      }
    }
  }

  lemma Glue(a: seq<Key>, b: seq<Key>, pivot: Key)
    requires Increasing(a) && Increasing(b)
    requires forall k | k in a :: k == pivot || Before(k, pivot)
    requires forall k | k in b :: Before(pivot, k)
    ensures Increasing(a + b)
  {
    forall i, j | 0 <= i < j < |a + b|
      ensures Before((a + b)[i], (a + b)[j])
    {
      if i < |a| { assert (a + b)[i] in a; }
      if j >= |a| { assert (a + b)[j] in b; }
    }
  }

  /** Every row on a page was in the table when that page was requested. */
  lemma {:induction false} WalkInventsNothing(tables: seq<set<Key>>, cursor: Option<Key>, limit: nat)
    requires limit >= 1
    ensures var pages := Walk(tables, cursor, limit);
      |pages| <= |tables| && forall t :: 0 <= t < |pages| ==> forall k | k in pages[t].items :: k in tables[t]
    decreases |tables|
  {
    if tables == [] {
    } else {
      var page := PageAt(tables[0], cursor, limit);
      forall k | k in page.items
        ensures k in tables[0]
      {
        PageBounds(tables[0], cursor, limit, k);
      }
      if page.next.Some? {
        WalkInventsNothing(tables[1..], page.next, limit);
      }
    }
  }

  /** The row is in the table at each of the first `n` requests. */
  predicate Throughout(tables: seq<set<Key>>, n: nat, k: Key) {
    n <= |tables| && forall t :: 0 <= t < n ==> k in tables[t]
  }

  /**
   Whatever is inserted and deleted between the requests: a completed walk returns every row that was above
   the first cursor and in the table throughout.
   */
  lemma {:induction false} WalkMissesNothing(tables: seq<set<Key>>, cursor: Option<Key>, limit: nat, k: Key)
    requires limit >= 1 && Completed(Walk(tables, cursor, limit))
    requires cursor.Some? ==> Before(cursor.value, k)
    requires Throughout(tables, |Walk(tables, cursor, limit)|, k)
    ensures k in Items(Walk(tables, cursor, limit))
    decreases |tables|
  {
    hide PageAt, Items, Before, Sorted;
    var page := PageAt(tables[0], cursor, limit);
    assert k in tables[0];
    PageOrLater(tables[0], cursor, limit, k);
    WalkItems(tables, cursor, limit);
    if k !in page.items {
      RestIsCompleted(tables, cursor, limit, k);
      WalkMissesNothing(tables[1..], page.next, limit, k);
    }
  }

  lemma RestIsCompleted(tables: seq<set<Key>>, cursor: Option<Key>, limit: nat, k: Key)
    requires limit >= 1 && Completed(Walk(tables, cursor, limit)) && PageAt(tables[0], cursor, limit).next.Some?
    requires Throughout(tables, |Walk(tables, cursor, limit)|, k)
    ensures var rest := Walk(tables[1..], PageAt(tables[0], cursor, limit).next, limit);
      Completed(rest) && Throughout(tables[1..], |rest|, k)
  {
    hide PageAt;
    var page := PageAt(tables[0], cursor, limit);
    var pages, rest := Walk(tables, cursor, limit), Walk(tables[1..], page.next, limit);
    assert pages == [page] + rest;
    assert rest != [] && rest[|rest| - 1] == pages[|pages| - 1];
    assert forall t :: 0 <= t < |rest| ==> tables[1..][t] == tables[t + 1];
  }

  /** So each such row comes exactly once. */
  lemma WalkReturnsExactlyOnce(tables: seq<set<Key>>, cursor: Option<Key>, limit: nat, k: Key)
    requires limit >= 1 && Completed(Walk(tables, cursor, limit))
    requires cursor.Some? ==> Before(cursor.value, k)
    requires Throughout(tables, |Walk(tables, cursor, limit)|, k)
    ensures multiset(Items(Walk(tables, cursor, limit)))[k] == 1
  {
    WalkMissesNothing(tables, cursor, limit, k);
    WalkIncreases(tables, cursor, limit);
    IncreasingHoldsOnce(Items(Walk(tables, cursor, limit)), k);
  }

  lemma {:induction false} IncreasingHoldsOnce(keys: seq<Key>, k: Key)
    requires Increasing(keys) && k in keys
    ensures multiset(keys)[k] == 1
  {
    var init, last := keys[..|keys| - 1], keys[|keys| - 1];
    assert keys == init + [last];
    if k == last {
      assert k !in init;
    } else {
      IncreasingHoldsOnce(init, k);
    }
  }

  /** Number of pages needed for `n` rows. */
  function PagesFor(n: nat, limit: nat): nat
    requires limit >= 1
  {
    if n <= limit then 1 else 1 + PagesFor(n - limit, limit)
  }

  /** A page and what lies above its next cursor are all the rows, and the page is full if there is more. */
  lemma PageAndRemainder(table: set<Key>, cursor: Option<Key>, limit: nat)
    requires limit >= 1
    ensures var page, all := PageAt(table, cursor, limit), Above(table, cursor);
      && (page.next.Some? <==> |all| > limit)
      && (page.next.None? ==> page.items == Sorted(all))
      && (page.next.Some? ==>
            && |Above(table, page.next)| == |all| - limit
            && page.items + Sorted(Above(table, page.next)) == Sorted(all))
  {
    PageIsPrefix(table, cursor, limit);
    var page, rows := PageAt(table, cursor, limit), Sorted(Above(table, cursor));
    if page.next.Some? {
      var next := Above(table, page.next);
      assert Sorted(next) == rows[limit..];
      assert page.items == rows[..limit];
      Split(rows, page.items, Sorted(next), limit);
    }
  }

  lemma Split(rows: seq<Key>, a: seq<Key>, b: seq<Key>, n: nat)
    requires n <= |rows| && a == rows[..n] && b == rows[n..]
    ensures a + b == rows && |b| == |rows| - n
  {
  }

  predicate Constant(tables: seq<set<Key>>, table: set<Key>) {
    forall t :: 0 <= t < |tables| ==> tables[t] == table
  }

  /**
   On a table that does not change, the walk ends after as many requests as the rows above the cursor need,
   and the pages are those rows, in order.
   */
  lemma {:induction false} WalkOfConstantTable(tables: seq<set<Key>>, table: set<Key>, cursor: Option<Key>, limit: nat)
    requires limit >= 1 && Constant(tables, table)
    requires |tables| >= PagesFor(|Above(table, cursor)|, limit)
    ensures var pages := Walk(tables, cursor, limit);
      && Completed(pages)
      && |pages| == PagesFor(|Above(table, cursor)|, limit)
      && Items(pages) == Sorted(Above(table, cursor))
    decreases |Above(table, cursor)|
  {
    hide PageAt, Sorted, Above;
    assert tables[0] == table;
    PageAndRemainder(table, cursor, limit);
    WalkItems(tables, cursor, limit);
    var page := PageAt(table, cursor, limit);
    if page.next.Some? {
      assert Constant(tables[1..], table);
      WalkOfConstantTable(tables[1..], table, page.next, limit);
    }
  }

  /** Every admitted limit gives that; any other is refused before the query. */
  lemma EveryLimitWalksTheTable(tables: seq<set<Key>>, table: set<Key>, limit: int)
    requires Constant(tables, table) && |tables| > |table|
    ensures Paginate(table, None, limit).Ok? <==> 1 <= limit <= 100
    ensures 1 <= limit <= 100 ==>
      var pages := Walk(tables, None, limit);
      Completed(pages) && Items(pages) == Sorted(table)
  {
    if 1 <= limit <= 100 {
      assert Above(table, None) == table;
      PagesAreFew(|table|, limit);
      WalkOfConstantTable(tables, table, None, limit);
    }
  }

  lemma {:induction false} PagesAreFew(n: nat, limit: nat)
    requires limit >= 1
    ensures PagesFor(n, limit) <= n + 1
  {
    if n > limit { PagesAreFew(n - limit, limit); }
  }
}
