/** Paged listings of files and jobs over a fixed order of the rows. */
module Pagination {
  import opened Basics
  import opened Wrappers
  import opened Keys
  import opened Store

  datatype Page<T> = Page(data: seq<T>, total: nat, page: nat, limit: nat, totalPages: nat)

  function Min(a: nat, b: nat): nat {
    if a < b then a else b
  }

  /** `limit` rows from `offset` on, as far as there are any. */
  function Slice<T>(rows: seq<T>, offset: nat, limit: nat): seq<T> {
    rows[Min(offset, |rows|)..Min(offset + limit, |rows|)]
  }

  /** `Math.ceil(total / limit)`. */
  function CeilDiv(total: nat, limit: nat): nat
    requires limit > 0
  {
    (total + limit - 1) / limit
  }

  function Filter<T>(rows: seq<T>, keep: T -> bool): seq<T> {
    if rows == [] then []
    else if keep(rows[0]) then [rows[0]] + Filter(rows[1..], keep)
    else Filter(rows[1..], keep)
  }

  function ListPage<T>(rows: seq<T>, keep: T -> bool, page: nat, limit: nat): Page<T>
    requires page >= 1 && limit >= 1
  {
    var matching := Filter(rows, keep);
    Page(Slice(matching, (page - 1) * limit, limit), |matching|, page, limit, CeilDiv(|matching|, limit))
  }

  /** A user's files that are not deleted; `matches` is the test of the search, when there is one. */
  function KeepFile(userId: Id, search: Option<string -> bool>): FileRow -> bool {
    (f: FileRow) => f.userId == userId && f.status != Deleted && (search.Some? ==> search.value(f.originalName))
  }

  function KeepJob(userId: Id, status: Option<JobStatus>, fileId: Option<Id>): JobRow -> bool {
    (j: JobRow) => j.userId == userId && (status.Some? ==> j.status == status.value) && (fileId.Some? ==> j.fileId == fileId.value)
  }

  function ListFiles(rows: seq<FileRow>, userId: Id, search: Option<string -> bool>, page: nat, limit: nat): Page<FileRow>
    requires page >= 1 && limit >= 1
  {
    ListPage(rows, KeepFile(userId, search), page, limit)
  }

  function ListJobs(rows: seq<JobRow>, userId: Id, status: Option<JobStatus>, fileId: Option<Id>, page: nat, limit: nat): Page<JobRow>
    requires page >= 1 && limit >= 1
  {
    ListPage(rows, KeepJob(userId, status, fileId), page, limit)
  }

  // ---- Arithmetic ------------------------------------------------------------

  lemma CeilDivBounds(total: nat, limit: nat)
    requires limit > 0
    ensures var n := CeilDiv(total, limit);
            && n * limit >= total
            && (n > 0 ==> (n - 1) * limit < total)
            && (n == 0 <==> total == 0)
  {
    var n := CeilDiv(total, limit);
    assert total + limit - 1 == n * limit + (total + limit - 1) % limit;
    if n > 0 {
      assert (n - 1) * limit == n * limit - limit;
      Multiply(1, n, limit);
    }
  }

  // ---- The pages partition the matching rows ---------------------------------

  /** The data of pages `1` to `n`, one after the other. */
  function Pages<T>(rows: seq<T>, keep: T -> bool, limit: nat, n: nat): seq<T>
    requires limit >= 1
  {
    if n == 0 then [] else Pages(rows, keep, limit, n - 1) + ListPage(rows, keep, n, limit).data
  }

  lemma {:induction false} PagesArePrefix<T>(rows: seq<T>, keep: T -> bool, limit: nat, n: nat)
    requires limit >= 1
    ensures Pages(rows, keep, limit, n) == Filter(rows, keep)[..Min(n * limit, |Filter(rows, keep)|)]
  {
    if n > 0 {
      PagesArePrefix(rows, keep, limit, n - 1);
      assert n * limit == (n - 1) * limit + limit;
    }
  }

  /** The pages, taken in order, are exactly the matching rows. */
  lemma PagesPartition<T>(rows: seq<T>, keep: T -> bool, limit: nat)
    requires limit >= 1
    ensures Pages(rows, keep, limit, CeilDiv(|Filter(rows, keep)|, limit)) == Filter(rows, keep)
  {
    var all := Filter(rows, keep);
    PagesArePrefix(rows, keep, limit, CeilDiv(|all|, limit));
    CeilDivBounds(|all|, limit);
    assert all[..|all|] == all;
  }

  /** All pages but the last are full, the last is not empty, and those beyond are. */
  lemma PageSizes<T>(rows: seq<T>, keep: T -> bool, page: nat, limit: nat)
    requires page >= 1 && limit >= 1
    ensures var p := ListPage(rows, keep, page, limit);
            && (page < p.totalPages ==> |p.data| == limit)
            && (page == p.totalPages ==> 1 <= |p.data| <= limit)
            && (page > p.totalPages ==> p.data == [])
            && (p.totalPages == 0 <==> p.total == 0)
  {
    var p := ListPage(rows, keep, page, limit);
    CeilDivBounds(p.total, limit);
    assert page * limit == (page - 1) * limit + limit;
    if page < p.totalPages {
      Multiply(page, p.totalPages - 1, limit);
    } else if page > p.totalPages {
      Multiply(p.totalPages, page - 1, limit);
    }
  }

  /** Each page says how many rows all pages together hold. */
  lemma TotalIsExact<T>(rows: seq<T>, keep: T -> bool, page: nat, limit: nat)
    requires page >= 1 && limit >= 1
    ensures var p := ListPage(rows, keep, page, limit);
            p.total == |Pages(rows, keep, limit, p.totalPages)| && p.page == page && p.limit == limit
  {
    PagesPartition(rows, keep, limit);
  }

  /** Row `i` of the matching rows is on page `i / limit + 1` and on no other. */
  lemma RowIsOnOnePage<T>(rows: seq<T>, keep: T -> bool, i: nat, page: nat, limit: nat)
    requires page >= 1 && limit >= 1 && i < |Filter(rows, keep)|
    ensures var offset := (page - 1) * limit;
            && (offset <= i < offset + limit <==> page == i / limit + 1)
            && (page == i / limit + 1 ==>
                  && i - offset < |ListPage(rows, keep, page, limit).data|
                  && ListPage(rows, keep, page, limit).data[i - offset] == Filter(rows, keep)[i])
  {
    var q := i / limit;
    assert i == q * limit + i % limit;
    if page - 1 < q {
      Multiply(page, q, limit);
      assert page * limit == (page - 1) * limit + limit;
    } else if page - 1 > q {
      Multiply(q + 1, page - 1, limit);
      assert (q + 1) * limit == q * limit + limit;
    }
  }

  /** The matching rows are those rows that match, each as often as it occurs. */
  lemma {:induction false} FilterKeepsExactly<T>(rows: seq<T>, keep: T -> bool, x: T)
    ensures multiset(Filter(rows, keep))[x] == if keep(x) then multiset(rows)[x] else 0
  {
    if rows != [] {
      FilterKeepsExactly(rows[1..], keep, x);
      assert rows == [rows[0]] + rows[1..];
    }
  }

  /** The matching rows come in the order of the table: those before any point in it come first. */
  lemma {:induction false} FilterKeepsOrder<T>(rows: seq<T>, keep: T -> bool, n: nat)
    requires n <= |rows|
    ensures Filter(rows, keep) == Filter(rows[..n], keep) + Filter(rows[n..], keep)
  {
    if n == 0 {
      assert rows[0..] == rows;
    } else {
      FilterKeepsOrder(rows[1..], keep, n - 1);
      assert rows[..n][1..] == rows[1..][..n - 1] && rows[n..] == rows[1..][n - 1..];
    }
  }

  /** A row is on some page exactly if it is in the table and matches. */
  lemma ListedExactly<T>(rows: seq<T>, keep: T -> bool, limit: nat, x: T)
    requires limit >= 1
    ensures (exists page | page >= 1 :: x in ListPage(rows, keep, page, limit).data) <==> x in rows && keep(x)
  {
    var matching := Filter(rows, keep);
    FilterKeepsExactly(rows, keep, x);
    assert x in multiset(matching) <==> x in matching;
    assert x in multiset(rows) <==> x in rows;
    if x in matching {
      var page := PageShowing(rows, keep, limit, x);
    }
  }

  lemma PageShowing<T>(rows: seq<T>, keep: T -> bool, limit: nat, x: T) returns (page: nat)
    requires limit >= 1 && x in Filter(rows, keep)
    ensures page >= 1 && x in ListPage(rows, keep, page, limit).data
  {
    var i :| 0 <= i < |Filter(rows, keep)| && Filter(rows, keep)[i] == x;
    page := i / limit + 1;
    RowIsOnOnePage(rows, keep, i, page, limit);
  }

  /** A file is listed on some page exactly if it is the caller's, not deleted, and passes the search. */
  lemma FilesListedExactly(rows: seq<FileRow>, userId: Id, search: Option<string -> bool>, limit: nat, file: FileRow)
    requires limit >= 1
    ensures (exists page | page >= 1 :: file in ListFiles(rows, userId, search, page, limit).data)
            <==> file in rows && file.userId == userId && file.status != Deleted
                 && (search.Some? ==> search.value(file.originalName))
  {
    ListedExactly(rows, KeepFile(userId, search), limit, file);
    assert forall page | page >= 1 ::
        ListFiles(rows, userId, search, page, limit) == ListPage(rows, KeepFile(userId, search), page, limit);
  }

  /** A job is listed on some page exactly if it is the caller's and has the status and file asked for. */
  lemma JobsListedExactly(rows: seq<JobRow>, userId: Id, status: Option<JobStatus>, fileId: Option<Id>, limit: nat, job: JobRow)
    requires limit >= 1
    ensures (exists page | page >= 1 :: job in ListJobs(rows, userId, status, fileId, page, limit).data)
            <==> job in rows && job.userId == userId
                 && (status.Some? ==> job.status == status.value) && (fileId.Some? ==> job.fileId == fileId.value)
  {
    ListedExactly(rows, KeepJob(userId, status, fileId), limit, job);
    assert forall page | page >= 1 ::
        ListJobs(rows, userId, status, fileId, page, limit) == ListPage(rows, KeepJob(userId, status, fileId), page, limit);
  }

  // ---- Each page from an order of its own ------------------------------------

  /** The latest rows come first; rows of the same time in any order. */
  ghost predicate LatestFirst<T(!new)>(rows: seq<T>, time: T -> int) {
    forall i, j | 0 <= i < j < |rows| :: time(rows[i]) >= time(rows[j])
  }

  ghost predicate TimesDiffer<T(!new)>(rows: seq<T>, time: T -> int) {
    forall i, j | 0 <= i < j < |rows| :: time(rows[i]) != time(rows[j])
  }

  /** With distinct times there is one order only. */
  lemma {:induction false} OneOrder<T(!new)>(a: seq<T>, b: seq<T>, time: T -> int)
    requires multiset(a) == multiset(b) && LatestFirst(a, time) && LatestFirst(b, time) && TimesDiffer(a, time)
    ensures a == b
    decreases |a|
  {
    assert |a| == |multiset(a)| == |b|;
    if a != [] {
      SameFirst(a, b, time);
      assert a == [a[0]] + a[1..] && b == [b[0]] + b[1..];
      assert multiset(a[1..]) == multiset(a) - multiset{a[0]};
      assert multiset(b[1..]) == multiset(b) - multiset{b[0]};
      OneOrder(a[1..], b[1..], time);
    }
  }

  lemma SameFirst<T(!new)>(a: seq<T>, b: seq<T>, time: T -> int)
    requires a != [] && b != [] && multiset(a) == multiset(b)
    requires LatestFirst(a, time) && LatestFirst(b, time) && TimesDiffer(a, time)
    ensures a[0] == b[0]
  {
    assert b[0] in multiset(a) && a[0] in multiset(b);
    var i :| 0 <= i < |a| && a[i] == b[0];
    var j :| 0 <= j < |b| && b[j] == a[0];
    assert time(b[0]) >= time(b[j]) && time(a[0]) >= time(a[i]);
  }

  /** Pages `1` to `n`, page `k` taken from the order `orders(k)` of the rows. */
  function PagesOf<T>(orders: nat -> seq<T>, keep: T -> bool, limit: nat, n: nat): seq<T>
    requires limit >= 1
  {
    if n == 0 then [] else PagesOf(orders, keep, limit, n - 1) + ListPage(orders(n), keep, n, limit).data
  }

  lemma {:induction false} PagesOfOneOrder<T>(orders: nat -> seq<T>, rows: seq<T>, keep: T -> bool, limit: nat, n: nat)
    requires limit >= 1 && forall k | 1 <= k <= n :: orders(k) == rows
    ensures PagesOf(orders, keep, limit, n) == Pages(rows, keep, limit, n)
  {
    if n > 0 {
      PagesOfOneOrder(orders, rows, keep, limit, n - 1);
    }
  }

  /**
   Let each page come from a query that orders the same rows by time, latest first, as it
   likes otherwise.  If all times differ the pages still are exactly the matching rows.
   */
  lemma DistinctTimesPartition<T(!new)>(orders: nat -> seq<T>, rows: seq<T>, keep: T -> bool, time: T -> int, limit: nat)
    requires limit >= 1 && LatestFirst(rows, time) && TimesDiffer(rows, time)
    requires forall k: nat :: multiset(orders(k)) == multiset(rows) && LatestFirst(orders(k), time)
    ensures PagesOf(orders, keep, limit, CeilDiv(|Filter(rows, keep)|, limit)) == Filter(rows, keep)
  {
    var n := CeilDiv(|Filter(rows, keep)|, limit);
    forall k: nat | 1 <= k <= n ensures orders(k) == rows {
      OneOrder(rows, orders(k), time);
    }
    PagesOfOneOrder(orders, rows, keep, limit, n);
    PagesPartition(rows, keep, limit);
  }

  /** Rows 1 and 2 have the same time, and the two pages of one row each both show row 1. */
  ghost predicate RepeatsRow(orders: nat -> seq<int>) {
    && (forall k: nat :: multiset(orders(k)) == multiset{1, 2} && LatestFirst(orders(k), _ => 0))
    && PagesOf(orders, _ => true, 1, 2) == [1, 1]
  }

  /** With a tie they need not be: two pages of one row each can show the same row twice. */
  lemma TiesCanRepeatRows()
    ensures exists orders: nat -> seq<int> :: RepeatsRow(orders)
  {
    var orders: nat -> seq<int> := k => if k == 2 then [2, 1] else [1, 2];
    TiedPages(orders);
    assert RepeatsRow(orders);
  }

  lemma TiedPages(orders: nat -> seq<int>)
    requires orders(1) == [1, 2] && orders(2) == [2, 1]
    ensures PagesOf(orders, _ => true, 1, 2) == [1, 1]
  {
    var all := (_: int) => true;
    assert Filter([2], all) == [2] && Filter([1], all) == [1];
    assert [1, 2][1..] == [2] && [2, 1][1..] == [1];
    assert Filter([1, 2], all) == [1, 2] && Filter([2, 1], all) == [2, 1];
    assert ListPage(orders(1), all, 1, 1).data == [1] && ListPage(orders(2), all, 2, 1).data == [1];
    assert PagesOf(orders, all, 1, 1) == [1];
  }
}
