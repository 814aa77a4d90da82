/**
 Pages that come from separate queries: each of them orders the rows by time, and rows of
 the same time as it likes.  Exactly when the pages still partition the matching rows.
 */
module PageOrders {
  import Basics
  import opened Pagination

  /** Every query orders the same rows, latest first. */
  ghost predicate AreOrders<T(!new)>(orders: nat -> seq<T>, rows: seq<T>, time: T -> int) {
    forall k: nat :: multiset(orders(k)) == multiset(rows) && LatestFirst(orders(k), time)
  }

  /** However the queries order the rows, each matching row is on the pages exactly once. */
  ghost predicate AlwaysPartition<T(!new)>(rows: seq<T>, keep: T -> bool, time: T -> int, limit: nat)
    requires limit >= 1
  {
    var matching := Filter(rows, keep);
    forall orders: nat -> seq<T> | AreOrders(orders, rows, time) ::
      multiset(PagesOf(orders, keep, limit, CeilDiv(|matching|, limit))) == multiset(matching)
  }

  /** The last row of the page and the first of the next have the same time. */
  predicate TiedAfter<T>(matching: seq<T>, time: T -> int, limit: nat, page: nat) {
    0 < page * limit < |matching| && time(matching[page * limit - 1]) == time(matching[page * limit])
  }

  ghost predicate NoTies<T(!new)>(matching: seq<T>, time: T -> int, limit: nat) {
    forall page: nat :: !TiedAfter(matching, time, limit, page)
  }

  ghost predicate Unique<T(!new)>(rows: seq<T>) {
    forall i, j | 0 <= i < j < |rows| :: rows[i] != rows[j]
  }

  // ---- Filters of sorted rows -------------------------------------------------

  lemma {:induction false} FilterIsPart<T(!new)>(rows: seq<T>, keep: T -> bool)
    ensures forall x | x in Filter(rows, keep) :: x in rows && keep(x)
  {
    if rows != [] {
      FilterIsPart(rows[1..], keep);
    }
  }

  lemma InRest<T>(rows: seq<T>, x: T) returns (k: nat)
    requires rows != [] && x in rows[1..]
    ensures 1 <= k < |rows| && rows[k] == x
  {
    var i :| 0 <= i < |rows[1..]| && rows[1..][i] == x;
    k := i + 1;
  }

  lemma {:induction false} FilterKeepsSorted<T(!new)>(rows: seq<T>, keep: T -> bool, time: T -> int)
    requires LatestFirst(rows, time)
    ensures LatestFirst(Filter(rows, keep), time)
  {
    if rows != [] {
      FilterKeepsSorted(rows[1..], keep, time);
      FilterIsPart(rows[1..], keep);
      var rest, first := Filter(rows[1..], keep), rows[0];
      forall i | 0 <= i < |rest| ensures time(first) >= time(rest[i]) {
        var k := InRest(rows, rest[i]);
      }
      assert LatestFirst([first] + rest, time);
      assert Filter(rows, keep) == if keep(first) then [first] + rest else rest;
    }
  }

  lemma {:induction false} FilterKeepsUnique<T(!new)>(rows: seq<T>, keep: T -> bool)
    requires Unique(rows)
    ensures Unique(Filter(rows, keep))
  {
    if rows != [] {
      FilterKeepsUnique(rows[1..], keep);
      FilterIsPart(rows[1..], keep);
      var rest, first := Filter(rows[1..], keep), rows[0];
      forall i | 0 <= i < |rest| ensures rest[i] != first {
        var k := InRest(rows, rest[i]);
      }
      assert Unique([first] + rest);
      assert Filter(rows, keep) == if keep(first) then [first] + rest else rest;
    }
  }

  lemma FilterOfSameRows<T(!new)>(a: seq<T>, b: seq<T>, keep: T -> bool)
    requires multiset(a) == multiset(b)
    ensures multiset(Filter(a, keep)) == multiset(Filter(b, keep))
  {
    forall x: T ensures multiset(Filter(a, keep))[x] == multiset(Filter(b, keep))[x] {
      FilterKeepsExactly(a, keep, x);
      FilterKeepsExactly(b, keep, x);
    }
  }

  lemma {:induction false} FilterAll<T(!new)>(rows: seq<T>, keep: T -> bool)
    requires forall x | x in rows :: keep(x)
    ensures Filter(rows, keep) == rows
  {
    if rows != [] {
      FilterAll(rows[1..], keep);
    }
  }

  lemma {:induction false} FilterNone<T(!new)>(rows: seq<T>, keep: T -> bool)
    requires forall x | x in rows :: !keep(x)
    ensures Filter(rows, keep) == []
  {
    if rows != [] {
      FilterNone(rows[1..], keep);
    }
  }

  /** In sorted rows those from some time on come first. */
  lemma {:induction false} LateOnesComeFirst<T(!new)>(rows: seq<T>, time: T -> int, t: int)
    requires LatestFirst(rows, time)
    ensures Filter(rows, x => time(x) >= t) <= rows
  {
    var late := x => time(x) >= t;
    if rows != [] {
      if late(rows[0]) {
        LateOnesComeFirst(rows[1..], time, t);
        assert Filter(rows, late) == [rows[0]] + Filter(rows[1..], late);
      } else {
        FilterNone(rows, late);
      }
    }
  }

  // ---- Without ties the pages agree -------------------------------------------

  /** Where the time changes, any two orders have the same rows before. */
  lemma CutsAgree<T(!new)>(a: seq<T>, b: seq<T>, time: T -> int, i: nat)
    requires multiset(a) == multiset(b) && LatestFirst(a, time) && LatestFirst(b, time)
    requires i <= |a| && (0 < i < |a| ==> time(a[i - 1]) != time(a[i]))
    ensures |a| == |b| && multiset(a[..i]) == multiset(b[..i])
  {
    assert |multiset(a)| == |a| && |multiset(b)| == |b|;
    if i == |a| {
      assert a[..i] == a && b[..i] == b;
    } else if i > 0 {
      var t := time(a[i - 1]);
      var late := x => time(x) >= t;
      LateOnes(a, time, i);
      FilterOfSameRows(a, b, late);
      assert |multiset(Filter(b, late))| == |Filter(b, late)| && |multiset(Filter(a, late))| == i;
      LateOnesComeFirst(b, time, t);
      assert b[..i] == Filter(b, late);
    }
  }

  lemma LateOnes<T(!new)>(a: seq<T>, time: T -> int, i: nat)
    requires LatestFirst(a, time) && 0 < i < |a| && time(a[i - 1]) != time(a[i])
    ensures Filter(a, x => time(x) >= time(a[i - 1])) == a[..i]
  {
    var late := x => time(x) >= time(a[i - 1]);
    FilterKeepsOrder(a, late, i);
    FilterAll(a[..i], late);
    FilterNone(a[i..], late);
  }

  lemma SliceIsDifference<T>(a: seq<T>, lo: nat, hi: nat)
    requires lo <= hi <= |a|
    ensures multiset(a[..hi]) == multiset(a[..lo]) + multiset(a[lo..hi])
  {
    assert a[..hi] == a[..lo] + a[lo..hi];
  }

  lemma SlicesAgree<T(!new)>(a: seq<T>, b: seq<T>, time: T -> int, lo: nat, hi: nat)
    requires multiset(a) == multiset(b) && LatestFirst(a, time) && LatestFirst(b, time) && lo <= hi <= |a|
    requires 0 < lo < |a| ==> time(a[lo - 1]) != time(a[lo])
    requires 0 < hi < |a| ==> time(a[hi - 1]) != time(a[hi])
    ensures |a| == |b| && multiset(a[lo..hi]) == multiset(b[lo..hi])
  {
    CutsAgree(a, b, time, lo);
    CutsAgree(a, b, time, hi);
    SliceIsDifference(a, lo, hi);
    SliceIsDifference(b, lo, hi);
    assert multiset(a[lo..hi]) == multiset(a[..hi]) - multiset(a[..lo]);
    assert multiset(b[lo..hi]) == multiset(b[..hi]) - multiset(b[..lo]);
  }

  /** Where page `page` ends, or all the rows do. */
  function PageEnd(total: nat, limit: nat, page: nat): nat {
    Min(page * limit, total)
  }

  lemma PageIsSlice<T>(rows: seq<T>, keep: T -> bool, limit: nat, n: nat)
    requires limit >= 1 && n >= 1
    ensures var all := Filter(rows, keep);
            && PageEnd(|all|, limit, n - 1) <= PageEnd(|all|, limit, n)
            && ListPage(rows, keep, n, limit).data == all[PageEnd(|all|, limit, n - 1)..PageEnd(|all|, limit, n)]
  {
    assert n * limit == (n - 1) * limit + limit;
  }

  lemma NoTieAtEnd<T>(all: seq<T>, time: T -> int, limit: nat, page: nat)
    requires !TiedAfter(all, time, limit, page)
    ensures var i := PageEnd(|all|, limit, page); 0 < i < |all| ==> time(all[i - 1]) != time(all[i])
  {}

  lemma PageAgrees<T(!new)>(rows: seq<T>, order: seq<T>, keep: T -> bool, time: T -> int, limit: nat, n: nat)
    requires limit >= 1 && n >= 1 && LatestFirst(rows, time) && multiset(order) == multiset(rows) && LatestFirst(order, time)
    requires NoTies(Filter(rows, keep), time, limit)
    ensures multiset(ListPage(order, keep, n, limit).data) == multiset(ListPage(rows, keep, n, limit).data)
  {
    var a, b := Filter(rows, keep), Filter(order, keep);
    FilterOfSameRows(rows, order, keep);
    FilterKeepsSorted(rows, keep, time);
    FilterKeepsSorted(order, keep, time);
    NoTieAtEnd(a, time, limit, n - 1);
    NoTieAtEnd(a, time, limit, n);
    PageIsSlice(rows, keep, limit, n);
    PageIsSlice(order, keep, limit, n);
    SlicesAgree(a, b, time, PageEnd(|a|, limit, n - 1), PageEnd(|a|, limit, n));
  }

  lemma JoinsAgree<T>(a: seq<T>, b: seq<T>, c: seq<T>, d: seq<T>)
    requires multiset(a) == multiset(b) && multiset(c) == multiset(d)
    ensures multiset(a + c) == multiset(b + d)
  {}

  lemma {:induction false} PagesAgree<T(!new)>(orders: nat -> seq<T>, rows: seq<T>, keep: T -> bool, time: T -> int, limit: nat, n: nat)
    requires limit >= 1 && LatestFirst(rows, time) && AreOrders(orders, rows, time) && NoTies(Filter(rows, keep), time, limit)
    ensures multiset(PagesOf(orders, keep, limit, n)) == multiset(Pages(rows, keep, limit, n))
  {
    if n > 0 {
      PagesAgree(orders, rows, keep, time, limit, n - 1);
      PageAgrees(rows, orders(n), keep, time, limit, n);
      JoinsAgree(PagesOf(orders, keep, limit, n - 1), Pages(rows, keep, limit, n - 1),
                 ListPage(orders(n), keep, n, limit).data, ListPage(rows, keep, n, limit).data);
    }
  }

  lemma NoTiesPartition<T(!new)>(rows: seq<T>, keep: T -> bool, time: T -> int, limit: nat)
    requires limit >= 1 && LatestFirst(rows, time) && NoTies(Filter(rows, keep), time, limit)
    ensures AlwaysPartition(rows, keep, time, limit)
  {
    var n := CeilDiv(|Filter(rows, keep)|, limit);
    PagesPartition(rows, keep, limit);
    forall orders: nat -> seq<T> | AreOrders(orders, rows, time)
      ensures multiset(PagesOf(orders, keep, limit, n)) == multiset(Pages(rows, keep, limit, n))
    {
      PagesAgree(orders, rows, keep, time, limit, n);
    }
  }

  // ---- A tie across a page boundary loses a row -------------------------------

  /** Where in the table row `m` of the matching rows is. */
  lemma {:induction false} Locate<T>(rows: seq<T>, keep: T -> bool, m: nat) returns (i: nat)
    requires m < |Filter(rows, keep)|
    ensures i < |rows| && keep(rows[i]) && rows[i] == Filter(rows, keep)[m]
    ensures Filter(rows[..i], keep) == Filter(rows, keep)[..m]
    ensures Filter(rows[i + 1..], keep) == Filter(rows, keep)[m + 1..]
  {
    if keep(rows[0]) && m == 0 {
      i := 0;
    } else {
      var i' := Locate(rows[1..], keep, if keep(rows[0]) then m - 1 else m);
      i := i' + 1;
      assert rows[..i][1..] == rows[1..][..i'] && rows[i + 1..] == rows[1..][i' + 1..];
    }
  }

  lemma FilterOfOne<T>(x: T, keep: T -> bool)
    ensures Filter([x], keep) == if keep(x) then [x] else []
  {
    assert [x][1..] == [];
  }

  lemma FilterOfJoin<T>(a: seq<T>, b: seq<T>, keep: T -> bool)
    ensures Filter(a + b, keep) == Filter(a, keep) + Filter(b, keep)
  {
    FilterKeepsOrder(a + b, keep, |a|);
    assert (a + b)[..|a|] == a && (a + b)[|a|..] == b;
  }

  lemma SwapKeepsOrder<T(!new)>(a: seq<T>, x: T, b: seq<T>, y: T, c: seq<T>, time: T -> int)
    requires time(x) == time(y) && LatestFirst(a + [x] + b + [y] + c, time)
    ensures LatestFirst(a + [y] + b + [x] + c, time)
    ensures multiset(a + [y] + b + [x] + c) == multiset(a + [x] + b + [y] + c)
  {
    var before, after := a + [x] + b + [y] + c, a + [y] + b + [x] + c;
    assert forall n | 0 <= n < |before| :: time(after[n]) == time(before[n]);
  }

  lemma LocateTwo<T>(rows: seq<T>, keep: T -> bool, m: nat) returns (a: seq<T>, x: T, b: seq<T>, y: T, c: seq<T>)
    requires m + 1 < |Filter(rows, keep)|
    ensures var all := Filter(rows, keep);
            && rows == a + [x] + b + [y] + c && keep(x) && keep(y) && x == all[m] && y == all[m + 1]
            && Filter(a, keep) == all[..m] && Filter(b, keep) == [] && Filter(c, keep) == all[m + 2..]
  {
    var i := Locate(rows, keep, m);
    var rest := rows[i + 1..];
    var j := Locate(rest, keep, 0);
    a, x, b, y, c := rows[..i], rows[i], rest[..j], rest[j], rest[j + 1..];
    assert rest == b + [y] + c && rows == a + [x] + rest;
  }

  /** The order with two rows of the same time exchanged. */
  lemma Exchanged<T(!new)>(rows: seq<T>, keep: T -> bool, time: T -> int, m: nat) returns (swapped: seq<T>)
    requires LatestFirst(rows, time) && m + 1 < |Filter(rows, keep)|
    requires time(Filter(rows, keep)[m]) == time(Filter(rows, keep)[m + 1])
    ensures multiset(swapped) == multiset(rows) && LatestFirst(swapped, time)
    ensures IsExchanged(Filter(swapped, keep), Filter(rows, keep), m)
  {
    var a, x, b, y, c := LocateTwo(rows, keep, m);
    swapped := a + [y] + b + [x] + c;
    SwapKeepsOrder(a, x, b, y, c, time);
    FilterOfSwapped(a, y, b, x, c, keep);
  }

  predicate IsExchanged<T(==)>(other: seq<T>, all: seq<T>, m: nat) {
    m + 1 < |all| && other == all[..m] + [all[m + 1]] + [all[m]] + all[m + 2..]
  }

  lemma FilterOfSwapped<T>(a: seq<T>, y: T, b: seq<T>, x: T, c: seq<T>, keep: T -> bool)
    requires keep(x) && keep(y) && Filter(b, keep) == []
    ensures Filter(a + [y] + b + [x] + c, keep) == Filter(a, keep) + [y] + [x] + Filter(c, keep)
  {
    FilterOfJoin(a + [y] + b + [x], c, keep);
    FilterOfJoin(a + [y] + b, [x], keep);
    FilterOfJoin(a + [y], b, keep);
    FilterOfJoin(a, [y], keep);
    FilterOfOne(x, keep);
    FilterOfOne(y, keep);
  }

  /** The row at `b` is on the page that begins there, and on no other. */
  lemma PageWithout<T(!new)>(rows: seq<T>, keep: T -> bool, limit: nat, page: nat, n: nat)
    requires limit >= 1 && n >= 1 && n != page + 1 && Unique(rows) && page * limit < |Filter(rows, keep)|
    ensures Filter(rows, keep)[page * limit] !in ListPage(rows, keep, n, limit).data
  {
    FilterKeepsUnique(rows, keep);
    PageIsSlice(rows, keep, limit, n);
    PageSliceWithout(Filter(rows, keep), limit, page, n);
  }

  lemma PageSliceWithout<T(!new)>(all: seq<T>, limit: nat, page: nat, n: nat)
    requires limit >= 1 && n >= 1 && n != page + 1 && Unique(all) && page * limit < |all|
    requires PageEnd(|all|, limit, n - 1) <= PageEnd(|all|, limit, n)
    ensures all[page * limit] !in all[PageEnd(|all|, limit, n - 1)..PageEnd(|all|, limit, n)]
  {
    BeginsElsewhere(|all|, limit, page, n);
    SliceWithout(all, PageEnd(|all|, limit, n - 1), PageEnd(|all|, limit, n), page * limit);
  }

  lemma BeginsElsewhere(total: nat, limit: nat, page: nat, n: nat)
    requires limit >= 1 && n >= 1 && n != page + 1 && page * limit < total
    ensures page * limit < PageEnd(total, limit, n - 1) || PageEnd(total, limit, n) <= page * limit
  {
    if n <= page {
      Basics.Multiply(n, page, limit);
    } else {
      Basics.Multiply(page + 1, n - 1, limit);
      assert (page + 1) * limit == page * limit + limit;
    }
  }

  lemma SliceWithout<T(!new)>(all: seq<T>, lo: nat, hi: nat, b: nat)
    requires Unique(all) && lo <= hi <= |all| && b < |all| && (b < lo || hi <= b)
    ensures all[b] !in all[lo..hi]
  {}

  /** With rows `b - 1` and `b` exchanged the page that begins at `b` lacks row `b`. */
  lemma ExchangedWithout<T(!new)>(rows: seq<T>, swapped: seq<T>, keep: T -> bool, limit: nat, page: nat)
    requires limit >= 1 && Unique(rows) && 0 < page * limit < |Filter(rows, keep)|
    requires IsExchanged(Filter(swapped, keep), Filter(rows, keep), page * limit - 1)
    ensures Filter(rows, keep)[page * limit] !in ListPage(swapped, keep, page + 1, limit).data
  {
    FilterKeepsUnique(rows, keep);
    RestWithout(Filter(rows, keep), Filter(swapped, keep), page * limit);
  }

  lemma RestWithout<T(!new)>(all: seq<T>, other: seq<T>, b: nat)
    requires Unique(all) && 0 < b < |all| && IsExchanged(other, all, b - 1)
    ensures |other| == |all| && forall k | b <= k < |other| :: other[k] != all[b]
  {}

  /** The queries agree but for that of one page. */
  ghost predicate AllBut<T(!new)>(orders: nat -> seq<T>, rows: seq<T>, swapped: seq<T>, page: nat) {
    forall k: nat :: orders(k) == if k == page + 1 then swapped else rows
  }

  lemma {:induction false} NoPageShows<T(!new)>(rows: seq<T>, swapped: seq<T>, orders: nat -> seq<T>, keep: T -> bool, limit: nat, page: nat, n: nat)
    requires limit >= 1 && Unique(rows) && 0 < page * limit < |Filter(rows, keep)|
    requires IsExchanged(Filter(swapped, keep), Filter(rows, keep), page * limit - 1) && AllBut(orders, rows, swapped, page)
    ensures Filter(rows, keep)[page * limit] !in PagesOf(orders, keep, limit, n)
  {
    if n > 0 {
      NoPageShows(rows, swapped, orders, keep, limit, page, n - 1);
      if n == page + 1 {
        ExchangedWithout(rows, swapped, keep, limit, page);
      } else {
        PageWithout(rows, keep, limit, page, n);
      }
    }
  }

  lemma TieLosesRow<T(!new)>(rows: seq<T>, keep: T -> bool, time: T -> int, limit: nat, page: nat)
    requires limit >= 1 && LatestFirst(rows, time) && Unique(rows) && TiedAfter(Filter(rows, keep), time, limit, page)
    ensures !AlwaysPartition(rows, keep, time, limit)
  {
    var all := Filter(rows, keep);
    var swapped := Exchanged(rows, keep, time, page * limit - 1);
    var orders: nat -> seq<T> := k => if k == page + 1 then swapped else rows;
    assert AllBut(orders, rows, swapped, page);
    OrdersLoseRow(rows, swapped, orders, keep, time, limit, page);
  }

  lemma OrdersLoseRow<T(!new)>(rows: seq<T>, swapped: seq<T>, orders: nat -> seq<T>, keep: T -> bool, time: T -> int, limit: nat, page: nat)
    requires limit >= 1 && Unique(rows) && 0 < page * limit < |Filter(rows, keep)|
    requires IsExchanged(Filter(swapped, keep), Filter(rows, keep), page * limit - 1) && AllBut(orders, rows, swapped, page)
    requires LatestFirst(rows, time) && LatestFirst(swapped, time) && multiset(swapped) == multiset(rows)
    ensures !AlwaysPartition(rows, keep, time, limit)
  {
    var all := Filter(rows, keep);
    var n := CeilDiv(|all|, limit);
    NoPageShows(rows, swapped, orders, keep, limit, page, n);
    LostRow(all, PagesOf(orders, keep, limit, n), page * limit);
    assert AreOrders(orders, rows, time);
  }

  lemma LostRow<T>(all: seq<T>, pages: seq<T>, b: nat)
    requires b < |all| && all[b] !in pages
    ensures multiset(pages) != multiset(all)
  {
    assert all[b] in multiset(all) && all[b] !in multiset(pages);
  }

  /**
   Let each page come from a query that orders the same distinct rows by time, and rows of
   the same time as it likes.  The pages show each matching row exactly once, whatever the
   queries do, exactly if no two rows on either side of a page boundary have the same time.
   */
  lemma PagesPartitionExactly<T(!new)>(rows: seq<T>, keep: T -> bool, time: T -> int, limit: nat)
    requires limit >= 1 && LatestFirst(rows, time) && Unique(rows)
    ensures AlwaysPartition(rows, keep, time, limit) <==> NoTies(Filter(rows, keep), time, limit)
  {
    if NoTies(Filter(rows, keep), time, limit) {
      NoTiesPartition(rows, keep, time, limit);
    } else {
      var page: nat :| TiedAfter(Filter(rows, keep), time, limit, page);
      TieLosesRow(rows, keep, time, limit, page);
    }
  }
}
