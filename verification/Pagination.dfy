/**
 Listing the jobs of a repository page by page. Each page is one query, run on the table as it is then, and
 the client sends back the cursor of each page until it gets none. Creation times survive being printed as a
 cursor and parsed again.
 */
module Pagination {
  import opened Wrappers
  import opened Sets
  import opened Decimal

  datatype Row = Row(id: nat, repo: nat, createdAt: int)

  type Table = set<Row>

  const DEFAULT_LIMIT: nat := 50
  const MAX_LIMIT: nat := 100

  /** The page size of a request; a missing parameter reads as the empty string. */
  function ParseLimit(raw: string): nat {
    match ParseInt64(raw)
    case None => DEFAULT_LIMIT
    case Some(n) => if n < 1 then DEFAULT_LIMIT else if n > MAX_LIMIT then MAX_LIMIT else n
  }

  /** A page size is always between 1 and 100, and a number in that range is taken as it is. */
  lemma LimitOfNumeral(n: int, raw: string)
    ensures 1 <= ParseLimit(raw) <= 100 && (ParseInt64(raw).None? ==> ParseLimit(raw) == 50)
    ensures ParseLimit(Format(n)) == n <==> 1 <= n <= 100
    ensures n > 100 ==> ParseLimit(Format(n)) == if n < 0x8000_0000_0000_0000 then 100 else 50
    ensures n < 1 ==> ParseLimit(Format(n)) == 50
  {
    ParseFormat(n);
  }

  // -- One page --

  function Below(t: Table, repo: nat, cursor: int): set<Row> {
    set r | r in t && r.repo == repo && r.createdAt < cursor
  }

  ghost predicate Descending(rows: seq<Row>) {
    forall i, j :: 0 <= i < j < |rows| ==> rows[i].createdAt >= rows[j].createdAt
  }

  /** A row left off a page is no newer than the rows on it, and the page is full. */
  ghost predicate LeftOff(page: seq<Row>, limit: nat, r: Row) {
    |page| == limit && forall i :: 0 <= i < |page| ==> r.createdAt <= page[i].createdAt
  }

  /** The answers the query may give: rows created at the same time come in any order. */
  ghost predicate IsPage(t: Table, repo: nat, cursor: int, limit: nat, page: seq<Row>) {
    && |page| <= limit && Descending(page) && Distinct(page)
    && (forall r :: r in page ==> r in Below(t, repo, cursor))
    && (forall r :: r in Below(t, repo, cursor) && r !in page ==> LeftOff(page, limit, r))
  }

  function NextCursor(page: seq<Row>, limit: nat): Option<int> {
    if |page| == limit && page != [] then Some(page[|page| - 1].createdAt) else None
  }

  /** One request: the newest rows below the cursor, at most `limit` of them. */
  method ListJobs(t: Table, repo: nat, cursor: int, limit: nat) returns (page: seq<Row>, next: Option<int>)
    requires limit >= 1
    ensures IsPage(t, repo, cursor, limit, page)
    ensures next == NextCursor(page, limit)
    ensures next == if |page| == limit then Some(page[limit - 1].createdAt) else None
    ensures forall r :: r in page ==> r in t && r.repo == repo && r.createdAt < cursor
    ensures forall r :: r in t && r.repo == repo && r.createdAt < cursor && r !in page ==>
              |page| == limit && r.createdAt <= page[limit - 1].createdAt
    ensures next.None? ==> forall r :: r in Below(t, repo, cursor) ==> r in page
    ensures next.Some? ==> next.value < cursor
  {
    ghost var rest;
    page, rest := OrderedQuery(Below(t, repo, cursor), NewestFirst(), Some(limit));
    next := None;
    if |page| == limit {
      next := Some(page[|page| - 1].createdAt);
      assert page[|page| - 1] in Below(t, repo, cursor);
    }
  }

  function NewestFirst(): Row -> int {
    (r: Row) => -r.createdAt
  }

  // -- Following the cursors --

  /** The pages a client gets from `cursor` on, the i-th answered from the i-th table. */
  ghost predicate IsListing(tables: seq<Table>, repo: nat, cursor: int, limit: nat, pages: seq<seq<Row>>)
    decreases |pages|
  {
    && |tables| == |pages| >= 1
    && IsPage(tables[0], repo, cursor, limit, pages[0])
    && match NextCursor(pages[0], limit)
       case None => |pages| == 1
       case Some(next) => |pages| > 1 && IsListing(tables[1..], repo, next, limit, pages[1..])
  }

  function Flatten(pages: seq<seq<Row>>): seq<Row> {
    if pages == [] then [] else pages[0] + Flatten(pages[1..])
  }

  /** Rows are never deleted: every page is answered from a table holding at least `start`. */
  ghost predicate Holds(tables: seq<Table>, start: Table) {
    forall i :: 0 <= i < |tables| ==> start <= tables[i]
  }

  lemma LastIsOldest(page: seq<Row>, limit: nat, r: Row)
    requires Descending(page) && NextCursor(page, limit).Some? && r in page
    ensures r.createdAt >= NextCursor(page, limit).value
  {
  }

  /** Every listed row lies below the cursor, belongs to the repository and was in one of the tables. */
  lemma {:induction false} ListedBelow(tables: seq<Table>, repo: nat, cursor: int, limit: nat, pages: seq<seq<Row>>, r: Row)
    requires IsListing(tables, repo, cursor, limit, pages) && r in Flatten(pages)
    ensures r.repo == repo && r.createdAt < cursor && exists i :: 0 <= i < |tables| && r in tables[i]
    decreases |pages|
  {
    if r in pages[0] {
      assert r in Below(tables[0], repo, cursor);
    } else {
      var next := NextCursor(pages[0], limit).value;
      ListedBelow(tables[1..], repo, next, limit, pages[1..], r);
      assert pages[0][|pages[0]| - 1] in Below(tables[0], repo, cursor);
      var i :| 0 <= i < |tables[1..]| && r in tables[1..][i];
      assert r in tables[i + 1];
    }
  }

  /** However the table changes between pages, the listing is in descending order and repeats no row. */
  lemma {:induction false} ListingIsOrdered(tables: seq<Table>, repo: nat, cursor: int, limit: nat, pages: seq<seq<Row>>)
    requires IsListing(tables, repo, cursor, limit, pages)
    ensures Descending(Flatten(pages)) && Distinct(Flatten(pages))
    decreases |pages|
  {
    var page, rest := pages[0], Flatten(pages[1..]);
    if |pages| > 1 {
      var next := NextCursor(page, limit).value;
      ListingIsOrdered(tables[1..], repo, next, limit, pages[1..]);
      forall a, b | a in page && b in rest ensures a.createdAt > b.createdAt {
        LastIsOldest(page, limit, a);
        ListedBelow(tables[1..], repo, next, limit, pages[1..], b);
      }
      Joined(page, rest);
    } else {
      assert Flatten(pages) == page;
    }
  }

  lemma Joined(a: seq<Row>, b: seq<Row>)
    requires Descending(a) && Distinct(a) && Descending(b) && Distinct(b)
    requires forall x, y :: x in a && y in b ==> x.createdAt > y.createdAt
    ensures Descending(a + b) && Distinct(a + b)
  {
    forall i, j | 0 <= i < j < |a + b|
      ensures (a + b)[i].createdAt >= (a + b)[j].createdAt && (a + b)[i] != (a + b)[j]
    {
      if i < |a| <= j {
        assert (a + b)[i] in a && (a + b)[j] in b;
      }
    }
  }

  /** A full page ends between this row and another created at the same time. */
  ghost predicate Skips(page: seq<Row>, limit: nat, r: Row) {
    r !in page && NextCursor(page, limit) == Some(r.createdAt)
  }

  ghost predicate Skipped(pages: seq<seq<Row>>, limit: nat, r: Row) {
    exists i :: 0 <= i < |pages| && Skips(pages[i], limit, r)
  }

  lemma SkippedLater(pages: seq<seq<Row>>, limit: nat, r: Row)
    requires pages != []
    ensures Skipped(pages, limit, r) <==> Skips(pages[0], limit, r) || Skipped(pages[1..], limit, r)
  {
    if Skipped(pages[1..], limit, r) {
      var i :| 0 <= i < |pages[1..]| && Skips(pages[1..][i], limit, r);
      assert Skips(pages[i + 1], limit, r);
    }
    if i :| 0 <= i < |pages| && Skips(pages[i], limit, r) {
      assert i > 0 ==> Skips(pages[1..][i - 1], limit, r);
    }
  }

  /** A row at or above the cursor ties with no later page end. */
  lemma {:induction false} NotSkippedAbove(
    tables: seq<Table>, repo: nat, cursor: int, limit: nat, pages: seq<seq<Row>>, r: Row)
    requires IsListing(tables, repo, cursor, limit, pages) && r.createdAt >= cursor
    ensures !Skipped(pages, limit, r) && r !in Flatten(pages)
    decreases |pages|
  {
    SkippedLater(pages, limit, r);
    var page := pages[0];
    assert r !in Below(tables[0], repo, cursor);
    if NextCursor(page, limit).Some? {
      assert page[|page| - 1] in Below(tables[0], repo, cursor);
      NotSkippedAbove(tables[1..], repo, NextCursor(page, limit).value, limit, pages[1..], r);
    } else {
      assert pages[1..] == [];
    }
  }

  /**
   Exactly which rows a listing shows. A row there from the start is listed unless a full page ends between
   it and another row created at the same time; rows inserted meanwhile, of any age, make no difference.
   */
  lemma {:induction false} ListedExactlyWhen(
    tables: seq<Table>, repo: nat, cursor: int, limit: nat, pages: seq<seq<Row>>, start: Table, r: Row)
    requires limit >= 1 && IsListing(tables, repo, cursor, limit, pages) && Holds(tables, start)
    requires r in Below(start, repo, cursor)
    ensures r in Flatten(pages) <==> !Skipped(pages, limit, r)
    decreases |pages|
  {
    var page := pages[0];
    assert start <= tables[0] && r in Below(tables[0], repo, cursor);
    SkippedLater(pages, limit, r);
    match NextCursor(page, limit)
    case None =>
      assert r in page && pages[1..] == [];
    case Some(next) =>
      if r.createdAt >= next {
        if r in page {
          LastIsOldest(page, limit, r);
        } else {
          assert LeftOff(page, limit, r);
        }
        NotSkippedAbove(tables[1..], repo, next, limit, pages[1..], r);
      } else {
        if r in page {
          LastIsOldest(page, limit, r);
          assert false;
        }
        assert Holds(tables[1..], start);
        ListedExactlyWhen(tables[1..], repo, next, limit, pages[1..], start, r);
      }
  }

  /** No two rows of the repository were created at the same time. */
  ghost predicate DistinctTimes(t: Table, repo: nat) {
    forall a, b | a in t && b in t && a.repo == repo && b.repo == repo && a.createdAt == b.createdAt :: a == b
  }

  lemma NoneSkipped(tables: seq<Table>, repo: nat, cursor: int, limit: nat, pages: seq<seq<Row>>, start: Table, r: Row)
    requires IsListing(tables, repo, cursor, limit, pages) && Holds(tables, start) && r in start && r.repo == repo
    requires forall i :: 0 <= i < |tables| ==> DistinctTimes(tables[i], repo)
    ensures !Skipped(pages, limit, r)
    decreases |pages|
  {
    SkippedLater(pages, limit, r);
    var page := pages[0];
    if NextCursor(page, limit).Some? {
      assert page[|page| - 1] in Below(tables[0], repo, cursor);
      assert start <= tables[0] && DistinctTimes(tables[0], repo);
      assert Holds(tables[1..], start);
      NoneSkipped(tables[1..], repo, NextCursor(page, limit).value, limit, pages[1..], start, r);
    } else {
      assert pages[1..] == [];
    }
  }

  /** The only rows below the first cursor are those of `start`: whatever was inserted since is newer. */
  ghost predicate OnlyNewer(tables: seq<Table>, repo: nat, cursor: int, start: Table) {
    forall i :: 0 <= i < |tables| ==> Below(tables[i], repo, cursor) == Below(start, repo, cursor)
  }

  lemma {:induction false} PagesAreFull(tables: seq<Table>, repo: nat, cursor: int, limit: nat, pages: seq<seq<Row>>)
    requires limit >= 1 && IsListing(tables, repo, cursor, limit, pages)
    ensures |Flatten(pages)| / limit + 1 == |pages|
    ensures 0 <= |Flatten(pages)| - (|pages| - 1) * limit < limit
    decreases |pages|
  {
    if |pages| > 1 {
      PagesAreFull(tables[1..], repo, NextCursor(pages[0], limit).value, limit, pages[1..]);
      assert |Flatten(pages)| == limit + |Flatten(pages[1..])|;
      assert (|pages| - 1) * limit == (|pages| - 2) * limit + limit;
    } else {
      assert Flatten(pages) == pages[0];
    }
    Quotient(|Flatten(pages)|, limit, |pages| - 1);
  }

  lemma Quotient(n: nat, d: nat, q: nat)
    requires d >= 1 && 0 <= n - q * d < d
    ensures n / d == q
  {
    var q', r' := n / d, n % d;
    assert (q - q') * d == r' - (n - q * d);
    Multiple(q - q', d);
    Multiple(q' - q, d);
  }

  lemma Multiple(k: int, d: nat)
    ensures k >= 1 ==> k * d >= d
    ensures -k * d == -(k * d)
  {
    if k >= 1 {
      assert k * d == (k - 1) * d + d;
    }
  }

  ghost function ToSet(rows: seq<Row>): set<Row> {
    set r | r in rows
  }

  lemma {:induction false} DistinctSize(rows: seq<Row>)
    requires Distinct(rows)
    ensures |ToSet(rows)| == |rows|
  {
    if rows != [] {
      var n := |rows| - 1;
      DistinctSize(rows[..n]);
      assert rows[n] !in rows[..n];
      assert ToSet(rows) == ToSet(rows[..n]) + {rows[n]};
    }
  }

  /** Even with equal creation times, the full pages of a listing hold no more rows than there were at the start. */
  lemma ListingStops(tables: seq<Table>, repo: nat, cursor: int, limit: nat, pages: seq<seq<Row>>, start: Table)
    requires limit >= 1 && IsListing(tables, repo, cursor, limit, pages)
    requires OnlyNewer(tables, repo, cursor, start)
    ensures ToSet(Flatten(pages)) <= Below(start, repo, cursor)
    ensures (|pages| - 1) * limit <= |Below(start, repo, cursor)|
  {
    forall r | r in Flatten(pages) ensures r in Below(start, repo, cursor) {
      ListedBelow(tables, repo, cursor, limit, pages, r);
      var i :| 0 <= i < |tables| && r in tables[i];
      assert r in Below(tables[i], repo, cursor);
    }
    ListingIsOrdered(tables, repo, cursor, limit, pages);
    DistinctSize(Flatten(pages));
    PagesAreFull(tables, repo, cursor, limit, pages);
    var listed, there := ToSet(Flatten(pages)), Below(start, repo, cursor);
    assert there == listed + (there - listed);
  }

  /**
   With distinct creation times, and only newer rows arriving, a listing shows exactly the rows that were
   there below the first cursor, each once and newest first, in n / limit + 1 pages.
   */
  lemma ListingIsComplete(tables: seq<Table>, repo: nat, cursor: int, limit: nat, pages: seq<seq<Row>>, start: Table)
    requires limit >= 1 && IsListing(tables, repo, cursor, limit, pages)
    requires Holds(tables, start) && OnlyNewer(tables, repo, cursor, start)
    requires forall i :: 0 <= i < |tables| ==> DistinctTimes(tables[i], repo)
    ensures ToSet(Flatten(pages)) == Below(start, repo, cursor)
    ensures Descending(Flatten(pages)) && Distinct(Flatten(pages))
    ensures |pages| == |Below(start, repo, cursor)| / limit + 1
  {
    forall r | r in Below(start, repo, cursor) ensures r in Flatten(pages) {
      ListedExactlyWhen(tables, repo, cursor, limit, pages, start, r);
      NoneSkipped(tables, repo, cursor, limit, pages, start, r);
    }
    ListingStops(tables, repo, cursor, limit, pages, start);
    ListingIsOrdered(tables, repo, cursor, limit, pages);
    DistinctSize(Flatten(pages));
    PagesAreFull(tables, repo, cursor, limit, pages);
  }

  /** Jobs created at the same microsecond can be lost: with a page size of one the second is never shown. */
  lemma TieIsSkipped(repo: nat, at: int)
    ensures var a, b := Row(0, repo, at), Row(1, repo, at);
            var pages := [[a], []];
            IsListing([{a, b}, {a, b}], repo, at + 1, 1, pages) && b !in Flatten(pages)
  {
    var a, b := Row(0, repo, at), Row(1, repo, at);
    var pages := [[a], []];
    assert pages[1..] == [[]];
    assert Flatten([[]]) == [];
    assert IsListing([{a, b}], repo, at, 1, [[]]);
    assert [{a, b}, {a, b}][1..] == [{a, b}];
  }

  // -- Which rows are always shown --

  /** The table does not change while it is listed. */
  function Still(t: Table, n: nat): seq<Table> {
    seq(n, _ => t)
  }

  /** The row is in every listing from the cursor, whatever the page size and the order of equal times. */
  ghost predicate AlwaysListed(t: Table, repo: nat, cursor: int, r: Row) {
    forall limit: nat, pages | limit >= 1 && IsListing(Still(t, |pages|), repo, cursor, limit, pages) ::
      r in Flatten(pages)
  }

  /** No other row of the repository was created at the same time. */
  ghost predicate IsAlone(t: Table, repo: nat, r: Row) {
    forall o :: o in t && o.repo == repo && o.createdAt == r.createdAt ==> o == r
  }

  lemma {:induction false} InFlatten(pages: seq<seq<Row>>, i: nat, r: Row)
    requires i < |pages| && r in pages[i]
    ensures r in Flatten(pages)
  {
    if i > 0 {
      InFlatten(pages[1..], i - 1, r);
    }
  }

  lemma AloneIsListed(t: Table, repo: nat, cursor: int, r: Row, limit: nat, pages: seq<seq<Row>>)
    requires r in Below(t, repo, cursor) && IsAlone(t, repo, r)
    requires limit >= 1 && IsListing(Still(t, |pages|), repo, cursor, limit, pages)
    ensures r in Flatten(pages)
  {
    ListedExactlyWhen(Still(t, |pages|), repo, cursor, limit, pages, t, r);
    if i :| 0 <= i < |pages| && Skips(pages[i], limit, r) {
      var last := pages[i][|pages[i]| - 1];
      InFlatten(pages, i, last);
      ListedBelow(Still(t, |pages|), repo, cursor, limit, pages, last);
    }
  }

  lemma OneRowPage(t: Table, repo: nat, cursor: int, x: Row)
    requires x in Below(t, repo, cursor) && forall o :: o in Below(t, repo, cursor) ==> o.createdAt <= x.createdAt
    ensures IsPage(t, repo, cursor, 1, [x]) && NextCursor([x], 1) == Some(x.createdAt)
    ensures |Below(t, repo, x.createdAt)| < |Below(t, repo, cursor)|
  {
    SubsetSize(Below(t, repo, x.createdAt), Below(t, repo, cursor) - {x});
  }

  lemma PutFirst(t: Table, repo: nat, cursor: int, x: Row, rest: seq<seq<Row>>)
    requires IsPage(t, repo, cursor, 1, [x]) && IsListing(Still(t, |rest|), repo, x.createdAt, 1, rest)
    ensures IsListing(Still(t, |rest| + 1), repo, cursor, 1, [[x]] + rest)
    ensures Flatten([[x]] + rest) == [x] + Flatten(rest)
  {
    var pages := [[x]] + rest;
    assert pages[1..] == rest && Still(t, |pages|)[1..] == Still(t, |rest|);
  }

  /** Pages of one row, taking the rival `o` wherever row `r` could have been taken. */
  lemma {:induction false} ListingWithout(t: Table, repo: nat, cursor: int, r: Row, o: Row)
    returns (pages: seq<seq<Row>>)
    requires o in t && o.repo == repo && o != r && o.createdAt == r.createdAt
    ensures IsListing(Still(t, |pages|), repo, cursor, 1, pages) && r !in Flatten(pages)
    decreases |Below(t, repo, cursor)|
  {
    var below := Below(t, repo, cursor);
    if below == {} {
      pages := [[]];
      assert pages[1..] == [];
    } else {
      var x := LeastExists(below, NewestFirst());
      if x.createdAt == r.createdAt {
        x := o;
      }
      OneRowPage(t, repo, cursor, x);
      var rest := ListingWithout(t, repo, x.createdAt, r, o);
      PutFirst(t, repo, cursor, x, rest);
      pages := [[x]] + rest;
    }
  }

  /** A row is in every listing of a table that does not change exactly when no other row shares its time. */
  lemma AlwaysListedExactlyWhen(t: Table, repo: nat, cursor: int, r: Row)
    requires r in Below(t, repo, cursor)
    ensures AlwaysListed(t, repo, cursor, r) <==> IsAlone(t, repo, r)
  {
    if IsAlone(t, repo, r) {
      forall limit: nat, pages | limit >= 1 && IsListing(Still(t, |pages|), repo, cursor, limit, pages)
        ensures r in Flatten(pages)
      {
        AloneIsListed(t, repo, cursor, r, limit, pages);
      }
    } else {
      var o :| o in t && o.repo == repo && o.createdAt == r.createdAt && o != r;
      var pages := ListingWithout(t, repo, cursor, r, o);
    }
  }
}
