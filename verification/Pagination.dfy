// The delivery list: keyset pages, and what a client that follows the cursors gets.
module Pagination {
  import opened Common
  import Pipeline

  datatype Row = Row(id: nat, createdAt: int, tenant: nat, status: Pipeline.Status)
  datatype Cursor = Cursor(createdAt: int, id: nat)
  datatype Query = Query(tenant: nat, status: Option<Pipeline.Status>)
  datatype Page = Page(rows: seq<Row>, next: Option<Cursor>)

  const PAGE_SIZE: nat := 20

  type Table = seq<Row>

  predicate UniqueIds(table: Table) {
    table == [] || ((forall r :: r in table[1..] ==> r.id != table[0].id) && UniqueIds(table[1..]))
  }

  // ---- the query ----

  predicate Below(row: Row, cursor: Option<Cursor>) {
    || cursor == None
    || row.createdAt < cursor.value.createdAt
    || (row.createdAt == cursor.value.createdAt && row.id < cursor.value.id)
  }

  predicate Matches(row: Row, q: Query, cursor: Option<Cursor>) {
    row.tenant == q.tenant && (q.status.Some? ==> row.status == q.status.value) && Below(row, cursor)
  }

  function Select(table: Table, q: Query, cursor: Option<Cursor>): seq<Row> {
    if table == [] then []
    else (if Matches(table[0], q, cursor) then [table[0]] else []) + Select(table[1..], q, cursor)
  }

  // ORDER BY created_at DESC, id DESC
  predicate Precedes(a: Row, b: Row) {
    a.createdAt > b.createdAt || (a.createdAt == b.createdAt && a.id > b.id)
  }

  function Insert(row: Row, rows: seq<Row>): seq<Row> {
    if rows == [] || !Precedes(rows[0], row) then [row] + rows else [rows[0]] + Insert(row, rows[1..])
  }

  function SortDesc(rows: seq<Row>): seq<Row> {
    if rows == [] then [] else Insert(rows[0], SortDesc(rows[1..]))
  }

  function FindMany(table: Table, q: Query, cursor: Option<Cursor>, take: nat): seq<Row> {
    var rows := SortDesc(Select(table, q, cursor));
    if |rows| <= take then rows else rows[..take]
  }

  function List(table: Table, q: Query, cursor: Option<Cursor>): Page {
    var rows := FindMany(table, q, cursor, PAGE_SIZE + 1);
    var hasMore := |rows| > PAGE_SIZE;
    var page := if hasMore then rows[..PAGE_SIZE] else rows;
    Page(page, if hasMore && page != [] then Some(CursorAt(page[|page| - 1])) else None)
  }

  function CursorAt(row: Row): Cursor {
    Cursor(row.createdAt, row.id)
  }

  // ---- a client that follows the cursors ----

  // What it has collected, and whether it has come to a page without a cursor.
  datatype Walked = Walked(rows: seq<Row>, done: bool)

  // The i-th request meets the table as it then is.
  function Walk(tables: seq<Table>, q: Query, cursor: Option<Cursor>): Walked {
    if tables == [] then Walked([], false)
    else
      var page := List(tables[0], q, cursor);
      if page.next == None then Walked(page.rows, true)
      else
        var rest := Walk(tables[1..], q, page.next);
        Walked(page.rows + rest.rows, rest.done)
  }

  // ---- sorting ----

  predicate Descending(rows: seq<Row>) {
    forall i, k :: 0 <= i < k < |rows| ==> Precedes(rows[i], rows[k])
  }

  lemma MembersOf(a: seq<Row>, b: seq<Row>)
    ensures forall r :: r in a + b <==> r in a || r in b
  {
  }

  // Everything in `a` comes before everything in `b`.
  lemma Joined(a: seq<Row>, b: seq<Row>)
    requires Descending(a) && Descending(b) && forall x, y :: x in a && y in b ==> Precedes(x, y)
    ensures Descending(a + b)
  {
  }

  lemma {:induction false} InsertKeepsOrder(row: Row, rows: seq<Row>)
    requires Descending(rows) && forall r :: r in rows ==> r.id != row.id
    ensures Descending(Insert(row, rows)) && |Insert(row, rows)| == |rows| + 1
    ensures forall r :: r in Insert(row, rows) <==> r == row || r in rows
  {
    if rows == [] {
    } else if Precedes(rows[0], row) {
      assert rows == [rows[0]] + rows[1..];
      InsertKeepsOrder(row, rows[1..]);
      Joined([rows[0]], Insert(row, rows[1..]));
    } else {
      Joined([row], rows);
    }
  }

  lemma {:induction false} SortDescSorts(rows: seq<Row>)
    requires UniqueIds(rows)
    ensures Descending(SortDesc(rows)) && |SortDesc(rows)| == |rows|
    ensures forall r :: r in SortDesc(rows) <==> r in rows
  {
    if rows != [] {
      SortDescSorts(rows[1..]);
      InsertKeepsOrder(rows[0], SortDesc(rows[1..]));
      assert rows == [rows[0]] + rows[1..];
    }
  }

  lemma {:induction false} SelectSelects(table: Table, q: Query, cursor: Option<Cursor>)
    requires UniqueIds(table)
    ensures UniqueIds(Select(table, q, cursor))
    ensures forall r :: r in Select(table, q, cursor) <==> r in table && Matches(r, q, cursor)
  {
    if table != [] {
      var rest := Select(table[1..], q, cursor);
      SelectSelects(table[1..], q, cursor);
      assert table == [table[0]] + table[1..];
      MembersOf([table[0]], table[1..]);
      assert UniqueIds(rest) && forall r :: r in rest ==> r in table[1..];
      if Matches(table[0], q, cursor) {
        assert Select(table, q, cursor) == [table[0]] + rest && ([table[0]] + rest)[1..] == rest;
        MembersOf([table[0]], rest);
      } else {
        assert Select(table, q, cursor) == rest;
      }
    }
  }

  // The rows a walk from `cursor` should give, in order.
  function Wanted(table: Table, q: Query, cursor: Option<Cursor>): seq<Row> {
    SortDesc(Select(table, q, cursor))
  }

  lemma WantedIs(table: Table, q: Query, cursor: Option<Cursor>)
    requires UniqueIds(table)
    ensures Descending(Wanted(table, q, cursor))
    ensures forall r :: r in Wanted(table, q, cursor) <==> r in table && Matches(r, q, cursor)
  {
    SelectSelects(table, q, cursor);
    SortDescSorts(Select(table, q, cursor));
  }

  lemma HasMember(rows: seq<Row>)
    ensures rows != [] ==> exists r :: r in rows
  {
    if rows != [] {
      assert rows[0] in rows;
    }
  }

  lemma {:induction false} DescendingIsUnique(a: seq<Row>, b: seq<Row>)
    requires Descending(a) && Descending(b) && forall r :: r in a <==> r in b
    ensures a == b
  {
    if a == [] || b == [] {
      HasMember(a);
      HasMember(b);
    } else {
      assert a[0] in b && b[0] in a;
      assert a[0] == b[0];
      assert a == [a[0]] + a[1..] && b == [b[0]] + b[1..];
      assert a[0] !in a[1..] && b[0] !in b[1..];
      MembersOf([a[0]], a[1..]);
      MembersOf([b[0]], b[1..]);
      DescendingIsUnique(a[1..], b[1..]);
    }
  }

  // ---- one page ----

  // A page is the first rows wanted; its cursor, if any, leaves exactly the rest.
  lemma PageSplitsWanted(table: Table, q: Query, cursor: Option<Cursor>)
    requires UniqueIds(table)
    ensures var page := List(table, q, cursor); var wanted := Wanted(table, q, cursor);
      && (page.next == None <==> |wanted| <= PAGE_SIZE)
      && (page.next == None ==> page.rows == wanted)
      && (page.next.Some? ==> |page.rows| == PAGE_SIZE && wanted == page.rows + Wanted(table, q, page.next))
  {
    var wanted := Wanted(table, q, cursor);
    if |wanted| > PAGE_SIZE {
      assert wanted[..PAGE_SIZE + 1][..PAGE_SIZE] == wanted[..PAGE_SIZE];
      RestIsWanted(table, q, cursor, PAGE_SIZE - 1);
    }
  }

  // Behind the cursor of the i-th row wanted come exactly the rows after it.
  lemma RestIsWanted(table: Table, q: Query, cursor: Option<Cursor>, i: nat)
    requires UniqueIds(table) && i < |Wanted(table, q, cursor)|
    ensures var wanted := Wanted(table, q, cursor);
      Wanted(table, q, Some(CursorAt(wanted[i]))) == wanted[i + 1..]
  {
    var wanted := Wanted(table, q, cursor);
    var rest, next := wanted[i + 1..], Some(CursorAt(wanted[i]));
    WantedIs(table, q, cursor);
    WantedIs(table, q, next);
    assert wanted[i] in wanted && Matches(wanted[i], q, cursor);
    forall r
      ensures r in rest <==> r in Wanted(table, q, next)
    {
      RestIsBelow(wanted, i, r);
      assert Below(r, next) ==> Below(r, cursor);
    }
    DescendingIsUnique(rest, Wanted(table, q, next));
  }

  lemma RestIsBelow(rows: seq<Row>, i: nat, r: Row)
    requires Descending(rows) && i < |rows|
    ensures r in rows[i + 1..] <==> r in rows && Below(r, Some(CursorAt(rows[i])))
  {
    assert rows == rows[..i + 1] + rows[i + 1..];
    MembersOf(rows[..i + 1], rows[i + 1..]);
    assert forall k :: 0 <= k < |rows| ==> (Below(rows[k], Some(CursorAt(rows[i]))) <==> i < k);
  }

  // ---- the walk over a table at rest ----

  function PagesFor(n: nat): nat {
    if n == 0 then 1 else (n + PAGE_SIZE - 1) / PAGE_SIZE
  }

  // Over one table the walk ends after ceil(n / 20) pages and has then collected the
  // wanted rows, all of them, in order, each once.
  lemma {:induction false} WalkIsComplete(table: Table, tables: seq<Table>, q: Query, cursor: Option<Cursor>)
    requires UniqueIds(table) && forall i :: 0 <= i < |tables| ==> tables[i] == table
    ensures var w := Walk(tables, q, cursor); var wanted := Wanted(table, q, cursor);
      && (w.done <==> PagesFor(|wanted|) <= |tables|)
      && (w.done ==> w.rows == wanted)
      && w.rows <= wanted
    decreases |tables|
  {
    if tables != [] {
      PageSplitsWanted(table, q, cursor);
      var page := List(table, q, cursor);
      if page.next.Some? {
        WalkIsComplete(table, tables[1..], q, page.next);
      }
    }
  }

  // ---- the walk over a table in use ----

  lemma PageIsWanted(table: Table, q: Query, cursor: Option<Cursor>)
    requires UniqueIds(table)
    ensures Descending(List(table, q, cursor).rows)
    ensures forall r :: r in List(table, q, cursor).rows ==> Below(r, cursor)
  {
    PageSplitsWanted(table, q, cursor);
    WantedIs(table, q, cursor);
    var page, wanted := List(table, q, cursor), Wanted(table, q, cursor);
    assert wanted == page.rows + wanted[|page.rows|..];
    MembersOf(page.rows, wanted[|page.rows|..]);
  }

  // The last of some descending rows is above all below its cursor, and so are the others.
  lemma LastIsAbove(rows: seq<Row>, y: Row)
    requires Descending(rows) && rows != [] && Below(y, Some(CursorAt(rows[|rows| - 1])))
    ensures forall x :: x in rows ==> Precedes(x, y)
  {
    var last := rows[|rows| - 1];
    assert Precedes(last, y);
    forall x | x in rows
      ensures Precedes(x, y)
    {
      assert x == last || Precedes(x, last);
    }
  }

  lemma PageIsAboveItsCursor(table: Table, q: Query, cursor: Option<Cursor>, y: Row)
    requires UniqueIds(table) && List(table, q, cursor).next.Some? && Below(y, List(table, q, cursor).next)
    ensures Below(y, cursor) && forall x :: x in List(table, q, cursor).rows ==> Precedes(x, y)
  {
    var rows := List(table, q, cursor).rows;
    PageIsWanted(table, q, cursor);
    LastIsAbove(rows, y);
    assert rows[|rows| - 1] in rows;
  }

  lemma {:induction false} WalkGoesDown(tables: seq<Table>, q: Query, cursor: Option<Cursor>)
    requires forall i :: 0 <= i < |tables| ==> UniqueIds(tables[i])
    ensures Descending(Walk(tables, q, cursor).rows)
    ensures forall r :: r in Walk(tables, q, cursor).rows ==> Below(r, cursor)
    decreases |tables|
  {
    if tables != [] {
      var page := List(tables[0], q, cursor);
      PageIsWanted(tables[0], q, cursor);
      if page.next.Some? {
        var rest := Walk(tables[1..], q, page.next).rows;
        WalkGoesDown(tables[1..], q, page.next);
        forall y | y in rest
          ensures Below(y, cursor) && forall x :: x in page.rows ==> Precedes(x, y)
        {
          PageIsAboveItsCursor(tables[0], q, cursor, y);
        }
        Joined(page.rows, rest);
        MembersOf(page.rows, rest);
      }
    }
  }

  // Whatever is inserted, removed or changed between the requests, the pages repeat
  // no row, and a finished walk has every row that was there and matched throughout.
  lemma {:induction false} StableRowsAreSeenOnce(tables: seq<Table>, q: Query, cursor: Option<Cursor>, row: Row)
    requires forall i :: 0 <= i < |tables| ==> UniqueIds(tables[i]) && row in tables[i]
    requires Matches(row, q, cursor) && Walk(tables, q, cursor).done
    ensures row in Walk(tables, q, cursor).rows
    ensures Descending(Walk(tables, q, cursor).rows)
    decreases |tables|
  {
    WalkGoesDown(tables, q, cursor);
    PageSplitsWanted(tables[0], q, cursor);
    WantedIs(tables[0], q, cursor);
    var page := List(tables[0], q, cursor);
    if row !in page.rows {
      WantedIs(tables[0], q, page.next);
      assert row in Wanted(tables[0], q, page.next);
      StableRowsAreSeenOnce(tables[1..], q, page.next, row);
    }
  }
  // What a client gets that starts without a cursor and follows it to the end, told by
  // the rows' columns: the tenant's rows, of the status asked for if any, newest first
  // and by descending id, each once.
  lemma WalkReturns(table: Table, tables: seq<Table>, tenant: nat, status: Option<Pipeline.Status>)
    requires UniqueIds(table) && forall i :: 0 <= i < |tables| ==> tables[i] == table
    requires Walk(tables, Query(tenant, status), None).done
    ensures var rows := Walk(tables, Query(tenant, status), None).rows;
      && (forall r :: r in rows <==> r in table && r.tenant == tenant && (status == None || status == Some(r.status)))
      && (forall i, k :: 0 <= i < k < |rows| ==>
           rows[i].createdAt > rows[k].createdAt || (rows[i].createdAt == rows[k].createdAt && rows[i].id > rows[k].id))
  {
    WalkIsComplete(table, tables, Query(tenant, status), None);
    WantedIs(table, Query(tenant, status), None);
    assert Descending(Walk(tables, Query(tenant, status), None).rows);
  }
}
