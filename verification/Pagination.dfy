/** Keyset pages of the review store (persistence/review_store.py): rows in descending order of instant and
    identifier, a page at a time, each page from the cursor the one before handed back. A row is the key the
    pages are ordered by; what a filter leaves at each fetch is a parameter, and so is the collation of the
    identifiers. */
module Pagination {
  import opened Domain
  import Cursor

  datatype Row = Row(at: Time, id: string)

  type Collation = (string, string) -> bool

  ghost predicate StrictTotal(less: Collation) {
    && (forall a :: !less(a, a))
    && (forall a, b, c :: less(a, b) && less(b, c) ==> less(a, c))
    && (forall a, b :: a == b || less(a, b) || less(b, a))
  }

  /** The row comes after the other in the descending order. */
  predicate Below(less: Collation, a: Row, b: Row) {
    a.at < b.at || (a.at == b.at && less(a.id, b.id))
  }

  lemma BelowIsStrictTotal(less: Collation)
    requires StrictTotal(less)
    ensures forall a :: !Below(less, a, a)
    ensures forall a, b, c :: Below(less, a, b) && Below(less, b, c) ==> Below(less, a, c)
    ensures forall a, b :: a == b || Below(less, a, b) || Below(less, b, a)
  {
  }

  lemma {:induction false} FirstExists(less: Collation, rows: set<Row>)
    requires StrictTotal(less) && rows != {}
    ensures exists m :: IsFirst(less, rows, m)
    decreases |rows|
  {
    BelowIsStrictTotal(less);
    var z :| z in rows;
    var rest := rows - {z};
    if rest == {} {
      assert rows == {z};
      assert IsFirst(less, rows, z);
    } else {
      FirstExists(less, rest);
      var m :| IsFirst(less, rest, m);
      assert IsFirst(less, rows, if Below(less, m, z) then z else m);
    }
  }

  ghost predicate IsFirst(less: Collation, rows: set<Row>, m: Row) {
    m in rows && forall x :: x in rows ==> x == m || Below(less, x, m)
  }

  /** One sorted scan: the rows in descending order. */
  ghost function Scan(less: Collation, rows: set<Row>): seq<Row>
    requires StrictTotal(less)
    decreases |rows|
  {
    if rows == {} then []
    else
      FirstExists(less, rows);
      var m :| IsFirst(less, rows, m);
      [m] + Scan(less, rows - {m})
  }

  ghost predicate Descending(less: Collation, s: seq<Row>) {
    forall i, j :: 0 <= i < j < |s| ==> Below(less, s[j], s[i])
  }

  lemma DescendingCons(less: Collation, m: Row, t: seq<Row>)
    requires Descending(less, t) && forall i :: 0 <= i < |t| ==> Below(less, t[i], m)
    ensures Descending(less, [m] + t)
  {
    var s := [m] + t;
    forall i, j | 0 <= i < j < |s| ensures Below(less, s[j], s[i]) {
      assert s[j] == t[j - 1];
      assert i > 0 ==> s[i] == t[i - 1];
    }
  }

  ghost predicate Lists(s: seq<Row>, rows: set<Row>) {
    |s| == |rows| && forall x :: x in s <==> x in rows
  }

  lemma ListsCons(s: seq<Row>, rows: set<Row>, m: Row)
    requires m in rows && Lists(s, rows - {m})
    ensures Lists([m] + s, rows)
  {
    forall x ensures x in [m] + s <==> x in rows {
      assert x in rows <==> x == m || x in rows - {m};
    }
  }

  /** The row a scan starts with, and the scan of the others. */
  lemma ScanStep(less: Collation, rows: set<Row>) returns (m: Row)
    requires StrictTotal(less) && rows != {}
    ensures IsFirst(less, rows, m) && Scan(less, rows) == [m] + Scan(less, rows - {m})
  {
    m := Scan(less, rows)[0];
  }

  lemma {:induction false} ScanLists(less: Collation, rows: set<Row>)
    requires StrictTotal(less)
    ensures Lists(Scan(less, rows), rows) && Descending(less, Scan(less, rows))
    decreases |rows|
  {
    if rows != {} {
      var m := ScanStep(less, rows);
      var t := Scan(less, rows - {m});
      ScanLists(less, rows - {m});
      ListsCons(t, rows, m);
      forall i | 0 <= i < |t| ensures Below(less, t[i], m) {
        assert t[i] in rows - {m};
      }
      DescendingCons(less, m, t);
    }
  }

  ghost function RowsBelow(less: Collation, rows: set<Row>, from: Option<Row>): set<Row> {
    set x | x in rows && (from.Some? ==> Below(less, x, from.value))
  }

  lemma BelowFirst(less: Collation, rows: set<Row>, m: Row)
    requires StrictTotal(less) && IsFirst(less, rows, m)
    ensures RowsBelow(less, rows, Some(m)) == rows - {m}
  {
  }

  lemma BelowLater(less: Collation, rows: set<Row>, m: Row, x: Row)
    requires StrictTotal(less) && IsFirst(less, rows, m) && x in rows - {m}
    ensures RowsBelow(less, rows, Some(x)) == RowsBelow(less, rows - {m}, Some(x))
  {
    assert !Below(less, m, x);
  }

  /** The rows below a row of a scan are the rest of the scan. */
  lemma {:induction false} ScanBelow(less: Collation, rows: set<Row>, k: nat)
    requires StrictTotal(less) && k < |Scan(less, rows)|
    ensures Scan(less, RowsBelow(less, rows, Some(Scan(less, rows)[k]))) == Scan(less, rows)[k + 1..]
    decreases k
  {
    var m := ScanStep(less, rows);
    var t := Scan(less, rows - {m});
    if k == 0 {
      BelowFirst(less, rows, m);
      assert ([m] + t)[1..] == t;
    } else {
      ScanLists(less, rows - {m});
      assert t[k - 1] in rows - {m};
      BelowLater(less, rows, m, t[k - 1]);
      ScanBelow(less, rows - {m}, k - 1);
      assert ([m] + t)[k + 1..] == t[k..];
    }
  }

  /** Going on from a row of a scan leaves fewer rows: the rest of the scan. */
  lemma ScanOn(less: Collation, rows: set<Row>, from: Option<Row>, k: nat)
    requires StrictTotal(less) && k < |Scan(less, RowsBelow(less, rows, from))|
    ensures var found := Scan(less, RowsBelow(less, rows, from));
            Scan(less, RowsBelow(less, rows, Some(found[k]))) == found[k + 1..]
            && |RowsBelow(less, rows, Some(found[k]))| < |RowsBelow(less, rows, from)|
  {
    var below := RowsBelow(less, rows, from);
    var x := Scan(less, below)[k];
    ScanLists(less, below);
    assert x in below;
    ScanBelow(less, below, k);
    BelowNested(less, rows, from, x);
    ScanLists(less, RowsBelow(less, rows, Some(x)));
  }

  lemma BelowNested(less: Collation, rows: set<Row>, from: Option<Row>, x: Row)
    requires StrictTotal(less) && x in RowsBelow(less, rows, from)
    ensures RowsBelow(less, RowsBelow(less, rows, from), Some(x)) == RowsBelow(less, rows, Some(x))
  {
    if from.Some? {
      forall y | Below(less, y, x) ensures Below(less, y, from.value) {
        BelowTransitive(less, y, x, from.value);
      }
    }
  }

  lemma BelowTransitive(less: Collation, a: Row, b: Row, c: Row)
    requires StrictTotal(less) && Below(less, a, b) && Below(less, b, c)
    ensures Below(less, a, c)
  {
  }

  // ---- Pages ----

  datatype Page = Page(items: seq<Row>, next: Option<string>, total: nat)

  datatype Fetched = Fetched(page: Page) | BadCursor

  /** The first rows of a query, one more than the page holds, with their keys: the visible ones, and the
      cursor of the last visible one if there are more. Without room for one, the index of the last visible
      row is negative and names the last row fetched. */
  function PageOf(format: Time -> string, rows: seq<Row>, total: nat, limit: nat): Page {
    if |rows| > limit then
      var last := rows[if limit == 0 then |rows| - 1 else limit - 1];
      Page(rows[..limit], Some(Cursor.Encode(format, last.at, last.id)), total)
    else Page(rows, None, total)
  }

  /** The rows a query with a limit hands back. */
  ghost function Query(less: Collation, rows: set<Row>, from: Option<Row>, limit: nat): seq<Row>
    requires StrictTotal(less)
  {
    var found := Scan(less, RowsBelow(less, rows, from));
    found[..if |found| < limit + 1 then |found| else limit + 1]
  }

  ghost function Fetch(less: Collation, format: Time -> string, parse: string -> Option<Time>, rows: set<Row>,
                       cursor: Option<string>, limit: nat): Fetched
    requires StrictTotal(less)
  {
    match Cursor.Decode(parse, cursor)
    case InvalidCursor => BadCursor
    case Start => Fetched(PageOf(format, Query(less, rows, None, limit), |rows|, limit))
    case After(at, id) => Fetched(PageOf(format, Query(less, rows, Some(Row(at, id)), limit), |rows|, limit))
  }

  /** What following the cursors collects, and whether it got to the end. */
  datatype Walk = Walk(items: seq<Row>, ended: bool)

  /** Following the cursors, one table for each fetch: the matching rows may differ each time. */
  ghost function Follow(less: Collation, format: Time -> string, parse: string -> Option<Time>, tables: seq<set<Row>>,
                        cursor: Option<string>, limit: nat): Walk
    requires StrictTotal(less)
    decreases |tables|
  {
    if tables == [] then Walk([], false)
    else
      match Fetch(less, format, parse, tables[0], cursor, limit)
      case BadCursor => Walk([], false)
      case Fetched(page) =>
        if page.next.None? then Walk(page.items, true)
        else
          var rest := Follow(less, format, parse, tables[1..], page.next, limit);
          Walk(page.items + rest.items, rest.ended)
  }

  /** The cursor stands for a row the pages got to, or for the start. */
  ghost predicate PointsTo(parse: string -> Option<Time>, cursor: Option<string>, from: Option<Row>) {
    Cursor.Decode(parse, cursor) == (if from.None? then Cursor.Start else Cursor.After(from.value.at, from.value.id))
  }

  /** The index whose key the next cursor encodes. */
  function LastIndex(limit: nat): nat {
    if limit == 0 then 0 else limit - 1
  }

  /** One fetch: the first rows below the cursor, and a cursor that points to the last one it passed. */
  lemma FetchPage(less: Collation, format: Time -> string, parse: string -> Option<Time>, rows: set<Row>,
                  cursor: Option<string>, from: Option<Row>, limit: nat)
    requires StrictTotal(less) && Cursor.Lossless(format, parse) && PointsTo(parse, cursor, from)
    ensures var found := Scan(less, RowsBelow(less, rows, from));
            var r := Fetch(less, format, parse, rows, cursor, limit);
            && r.Fetched? && r.page.total == |rows|
            && (|found| <= limit ==> r.page.items == found && r.page.next.None?)
            && (|found| > limit ==>
                  r.page.items == found[..limit] && r.page.next.Some?
                  && PointsTo(parse, r.page.next, Some(found[LastIndex(limit)])))
  {
    var found := Scan(less, RowsBelow(less, rows, from));
    if |found| > limit {
      var last := found[LastIndex(limit)];
      Cursor.RoundTrip(format, parse, last.at, last.id);
    }
  }

  /** A fetch is refused exactly when it has a cursor that stands for no row: its text is not one that parses as an
      instant, a separator and an identifier. */
  lemma RefusesExactly(less: Collation, format: Time -> string, parse: string -> Option<Time>, rows: set<Row>,
                       cursor: Option<string>, limit: nat)
    requires StrictTotal(less)
    ensures Fetch(less, format, parse, rows, cursor, limit).BadCursor?
       <==> cursor.Some? && forall at, identifier :: !Cursor.StandsFor(parse, cursor.value, at, identifier)
  {
    if cursor.Some? {
      forall at, identifier
        ensures Cursor.StandsFor(parse, cursor.value, at, identifier)
           <==> Cursor.Decode(parse, cursor) == Cursor.After(at, identifier)
      {
        Cursor.DecodesExactly(parse, cursor.value, at, identifier);
      }
      var position := Cursor.Decode(parse, cursor);
      assert position.After? ==> Cursor.StandsFor(parse, cursor.value, position.at, position.identifier);
    }
  }

  /** Following the cursors: the first page, and the rest from where it ends. */
  lemma FollowPage(less: Collation, format: Time -> string, parse: string -> Option<Time>, tables: seq<set<Row>>,
                   cursor: Option<string>, from: Option<Row>, limit: nat)
    returns (next: Option<string>)
    requires StrictTotal(less) && Cursor.Lossless(format, parse) && PointsTo(parse, cursor, from) && tables != []
    ensures var found := Scan(less, RowsBelow(less, tables[0], from));
            var walk := Follow(less, format, parse, tables, cursor, limit);
            if |found| <= limit then walk == Walk(found, true)
            else
              var rest := Follow(less, format, parse, tables[1..], next, limit);
              PointsTo(parse, next, Some(found[LastIndex(limit)]))
                && walk == Walk(found[..limit] + rest.items, rest.ended)
  {
    FetchPage(less, format, parse, tables[0], cursor, from, limit);
    next := Fetch(less, format, parse, tables[0], cursor, limit).page.next;
  }

  // ---- A table that stays as it is ----

  ghost predicate AllSame(tables: seq<set<Row>>, rows: set<Row>) {
    forall i :: 0 <= i < |tables| ==> tables[i] == rows
  }

  lemma SameRest(tables: seq<set<Row>>, rows: set<Row>)
    requires AllSame(tables, rows) && tables != []
    ensures AllSame(tables[1..], rows) && tables[0] == rows
  {
  }

  /** A page and the rest of the scan. */
  lemma PagesJoin(found: seq<Row>, limit: nat)
    requires |found| > limit
    ensures if limit == 0 then found[..limit] == [] else found[..limit] + found[LastIndex(limit) + 1..] == found
  {
  }

  /** Following the cursors over one table takes at most one fetch more than it has rows below the cursor, and
      collects the sorted scan, or nothing if a page holds no row. */
  lemma {:induction false} FollowScans(less: Collation, format: Time -> string, parse: string -> Option<Time>,
                                       rows: set<Row>, tables: seq<set<Row>>, cursor: Option<string>, from: Option<Row>,
                                       limit: nat)
    requires StrictTotal(less) && Cursor.Lossless(format, parse) && PointsTo(parse, cursor, from)
    requires AllSame(tables, rows) && |tables| > |RowsBelow(less, rows, from)|
    ensures Follow(less, format, parse, tables, cursor, limit)
         == Walk(if limit == 0 then [] else Scan(less, RowsBelow(less, rows, from)), true)
    decreases |tables|
  {
    var found := Scan(less, RowsBelow(less, rows, from));
    SameRest(tables, rows);
    var next := FollowPage(less, format, parse, tables, cursor, from, limit);
    if |found| > limit {
      var k := LastIndex(limit);
      ScanOn(less, rows, from, k);
      FollowScans(less, format, parse, rows, tables[1..], next, Some(found[k]), limit);
      PagesJoin(found, limit);
    } else if limit == 0 {
      assert found == [];
    }
  }

  /** Following the cursors from the first page collects exactly the sorted scan, if and only if pages hold a
      row or there is none. */
  lemma PagesAreOneScan(less: Collation, format: Time -> string, parse: string -> Option<Time>, rows: set<Row>,
                        tables: seq<set<Row>>, limit: nat)
    requires StrictTotal(less) && Cursor.Lossless(format, parse)
    requires AllSame(tables, rows) && |tables| > |rows|
    ensures var walk := Follow(less, format, parse, tables, None, limit);
            walk.ended && (walk.items == Scan(less, rows) <==> limit >= 1 || rows == {})
  {
    assert RowsBelow(less, rows, None) == rows;
    FollowScans(less, format, parse, rows, tables, None, None, limit);
    ScanLists(less, rows);
  }

  // ---- Tables that change between fetches ----

  ghost predicate AllBelow(less: Collation, s: seq<Row>, from: Option<Row>) {
    from.Some? ==> forall i :: 0 <= i < |s| ==> Below(less, s[i], from.value)
  }

  /** The visible rows of a page descend from below the cursor down to the row the next cursor points to. */
  lemma PageDescends(less: Collation, rows: set<Row>, from: Option<Row>, n: nat)
    requires StrictTotal(less) && n <= |Scan(less, RowsBelow(less, rows, from))|
    ensures var found := Scan(less, RowsBelow(less, rows, from));
            Descending(less, found[..n]) && AllBelow(less, found, from)
  {
    var found := Scan(less, RowsBelow(less, rows, from));
    ScanLists(less, RowsBelow(less, rows, from));
    forall i | 0 <= i < |found| && from.Some? ensures Below(less, found[i], from.value) {
      assert found[i] in RowsBelow(less, rows, from);
    }
  }

  /** Whatever changes between fetches, the collected rows descend, from below the cursor: none comes twice. */
  lemma {:induction false} FollowDescends(less: Collation, format: Time -> string, parse: string -> Option<Time>,
                                          tables: seq<set<Row>>, cursor: Option<string>, from: Option<Row>, limit: nat)
    requires StrictTotal(less) && Cursor.Lossless(format, parse) && PointsTo(parse, cursor, from)
    ensures var items := Follow(less, format, parse, tables, cursor, limit).items;
            Descending(less, items) && AllBelow(less, items, from)
    decreases |tables|
  {
    if tables != [] {
      var found := Scan(less, RowsBelow(less, tables[0], from));
      var next := FollowPage(less, format, parse, tables, cursor, from, limit);
      PageDescends(less, tables[0], from, if |found| > limit then limit else |found|);
      if |found| > limit {
        var rest := Follow(less, format, parse, tables[1..], next, limit).items;
        FollowDescends(less, format, parse, tables[1..], next, Some(found[LastIndex(limit)]), limit);
        DescendingJoin(less, found, limit, rest, from);
      } else {
        assert found[..|found|] == found;
      }
    }
  }

  /** The visible rows of a page and what the next cursor leads to. */
  lemma DescendingJoin(less: Collation, found: seq<Row>, limit: nat, rest: seq<Row>, from: Option<Row>)
    requires StrictTotal(less) && limit < |found| && Descending(less, found[..limit]) && AllBelow(less, found, from)
    requires Descending(less, rest) && AllBelow(less, rest, Some(found[LastIndex(limit)]))
    ensures Descending(less, found[..limit] + rest) && AllBelow(less, found[..limit] + rest, from)
  {
    var last, s := found[LastIndex(limit)], found[..limit] + rest;
    forall i, j | 0 <= i < j < |s| ensures Below(less, s[j], s[i]) {
      if i < limit <= j {
        assert Below(less, s[j], last) by { assert s[j] == rest[j - limit]; }
        if i < limit - 1 {
          assert Below(less, found[..limit][limit - 1], found[..limit][i]);
          BelowTransitive(less, s[j], last, s[i]);
        }
      } else if limit <= i {
        assert s[j] == rest[j - limit] && s[i] == rest[i - limit];
      } else {
        assert s[j] == found[..limit][j] && s[i] == found[..limit][i];
      }
    }
    forall i | 0 <= i < |s| && from.Some? ensures Below(less, s[i], from.value) {
      if limit <= i {
        assert s[i] == rest[i - limit];
        BelowTransitive(less, s[i], last, from.value);
      }
    }
  }

  /** A row that matches at every fetch is collected by the end. */
  lemma {:induction false} StableRowCollected(less: Collation, format: Time -> string, parse: string -> Option<Time>,
                                              tables: seq<set<Row>>, cursor: Option<string>, from: Option<Row>,
                                              limit: nat, x: Row)
    requires StrictTotal(less) && Cursor.Lossless(format, parse) && PointsTo(parse, cursor, from) && limit >= 1
    requires (forall i :: 0 <= i < |tables| ==> x in tables[i]) && (from.Some? ==> Below(less, x, from.value))
    requires Follow(less, format, parse, tables, cursor, limit).ended
    ensures x in Follow(less, format, parse, tables, cursor, limit).items
    decreases |tables|
  {
    var below := RowsBelow(less, tables[0], from);
    var found := Scan(less, below);
    var next := FollowPage(less, format, parse, tables, cursor, from, limit);
    ScanLists(less, below);
    assert x in below && x in found;
    var k :| 0 <= k < |found| && found[k] == x;
    if k < limit {
      assert |found| > limit ==> found[..limit][k] == x;
    } else {
      assert k > LastIndex(limit) ==> Below(less, found[k], found[LastIndex(limit)]);
      StableRowCollected(less, format, parse, tables[1..], next, Some(found[LastIndex(limit)]), limit, x);
    }
  }

  /** Rows may appear and vanish between fetches: a row that matches throughout is collected exactly once. */
  lemma StableRowOnce(less: Collation, format: Time -> string, parse: string -> Option<Time>, tables: seq<set<Row>>,
                      limit: nat, x: Row)
    requires StrictTotal(less) && Cursor.Lossless(format, parse) && limit >= 1
    requires forall i :: 0 <= i < |tables| ==> x in tables[i]
    requires Follow(less, format, parse, tables, None, limit).ended
    ensures var items := Follow(less, format, parse, tables, None, limit).items;
            exists k :: 0 <= k < |items| && items[k] == x && forall j :: 0 <= j < |items| && items[j] == x ==> j == k
  {
    StableRowCollected(less, format, parse, tables, None, None, limit, x);
    FollowDescends(less, format, parse, tables, None, None, limit);
    var items := Follow(less, format, parse, tables, None, limit).items;
    var k :| 0 <= k < |items| && items[k] == x;
    assert !Below(less, x, x);
  }
}
