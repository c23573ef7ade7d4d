/** Pagination: the cursors the gateway hands out for a fixed list, and the loops that collect a list
    from Core page by page. A cursor is modelled by the offset it encodes. */
module Paging {
  import opened Basics
  import opened WikiSearch

  datatype Page<T> = Page(items: seq<T>, next: Option<nat>)

  /** `s.slice(from, to)` for `from <= to`. */
  function Slice<T>(s: seq<T>, from: nat, to: nat): seq<T>
    requires from <= to
  {
    s[Min(from, |s|)..Min(to, |s|)]
  }

  function PageSize(limit: Number): nat {
    Bounded(limit, 1, 100, 50)
  }

  /** One page of a Wiki: the next cursor counts the items returned. */
  function WikiPage<T>(all: seq<T>, cursor: Option<nat>, limit: Number): Page<T> {
    var offset := if cursor.Some? then cursor.value else 0;
    var items := Slice(all, offset, offset + PageSize(limit));
    Page(items, if offset + |items| < |all| then Some(offset + |items|) else None)
  }

  /** One page of a profile's scenes: the next cursor counts the items asked for. */
  function ScenePage<T>(entries: seq<T>, cursor: Option<nat>, limit: Number): Page<T> {
    var offset := if cursor.Some? then cursor.value else 0;
    var size := PageSize(limit);
    Page(Slice(entries, offset, offset + size), if offset + size < |entries| then Some(offset + size) else None)
  }

  /** The two ways of computing a cursor never differ, whatever the cursor. */
  lemma CursorsAgree<T>(all: seq<T>, cursor: Option<nat>, limit: Number)
    ensures WikiPage(all, cursor, limit) == ScenePage(all, cursor, limit)
  {
  }

  /** The pages a client sees that follows `next_cursor` until it is null, asking for `limitOf(k)` items on
      its k-th request. */
  function Follow<T>(all: seq<T>, cursor: Option<nat>, limitOf: nat -> Number, k: nat): seq<seq<T>>
    decreases |all| - (if cursor.Some? then Min(cursor.value, |all|) else 0)
  {
    var page := WikiPage(all, cursor, limitOf(k));
    [page.items] + (if page.next.Some? then Follow(all, page.next, limitOf, k + 1) else [])
  }

  /** Following the cursors gives the rest of the list, each item once and in order, whatever page sizes are
      asked for and wherever the walk starts. */
  lemma {:induction false} FollowIsLossless<T>(all: seq<T>, cursor: Option<nat>, limitOf: nat -> Number, k: nat)
    ensures Flatten(Follow(all, cursor, limitOf, k)) == all[(if cursor.Some? then Min(cursor.value, |all|) else 0)..]
    decreases |all| - (if cursor.Some? then Min(cursor.value, |all|) else 0)
  {
    var page := WikiPage(all, cursor, limitOf(k));
    if page.next.Some? {
      FollowIsLossless(all, page.next, limitOf, k + 1);
      assert Follow(all, cursor, limitOf, k)[1..] == Follow(all, page.next, limitOf, k + 1);
    } else {
      assert Follow(all, cursor, limitOf, k)[1..] == [];
    }
  }

  function PageCount(n: nat, p: nat): nat
    requires p > 0
  {
    if n <= p then 1 else 1 + PageCount(n - p, p)
  }

  lemma {:induction false} PageCountIsCeiling(n: nat, p: nat)
    requires p > 0
    ensures PageCount(n, p) == Max(1, (n + p - 1) / p)
  {
    if n > p {
      PageCountIsCeiling(n - p, p);
      Quotient(n - 1, p);
    } else if n > 0 {
      QuotientIs(n - 1 + p, p, 1, n - 1);
    } else {
      QuotientIs(p - 1, p, 0, p - 1);
    }
  }

  lemma {:induction false} FollowCount<T>(all: seq<T>, cursor: Option<nat>, limit: Number, k: nat)
    requires cursor.Some? ==> cursor.value < |all|
    ensures |Follow(all, cursor, _ => limit, k)| == PageCount(|all| - (if cursor.Some? then cursor.value else 0), PageSize(limit))
    decreases |all| - (if cursor.Some? then cursor.value else 0)
  {
    var page := WikiPage(all, cursor, limit);
    if page.next.Some? {
      FollowCount(all, page.next, limit, k + 1);
    }
  }

  /** With one page size p, a walk through n items takes max(1, ceil(n / p)) requests. */
  lemma FollowLength<T>(all: seq<T>, limit: Number)
    ensures var p := PageSize(limit); |Follow(all, None, _ => limit, 0)| == Max(1, (|all| + p - 1) / p)
  {
    FollowCount(all, None, limit, 0);
    PageCountIsCeiling(|all|, PageSize(limit));
  }

  lemma QuotientIs(n: nat, p: nat, q: nat, r: nat)
    requires r < p && n == q * p + r
    ensures n / p == q
  {
    var d := n / p - q;
    assert d * p == r - n % p;
    assert d >= 1 ==> d * p >= p;
    assert d <= -1 ==> d * p <= -1 * p;
  }

  lemma Quotient(a: nat, p: nat)
    requires p > 0
    ensures (a + p) / p == 1 + a / p && (a >= p ==> a / p >= 1)
  {
    var q, r := a / p, a % p;
    assert (q + 1) * p == q * p + p;
    QuotientIs(a + p, p, q + 1, r);
  }

  // ----- Collecting a list from Core -----

  const CORE_PAGE: nat := 100

  /** What the collecting loop ends with when the server holds `all` throughout and reports `total` with
      every page, or nothing. */
  function Collected<T>(all: seq<T>, total: Option<int>): seq<T> {
    var wanted := if total.Some? then Max(1, total.value) else 1;
    all[..Min(|all|, (wanted + CORE_PAGE - 1) / CORE_PAGE * CORE_PAGE)]
  }

  /** The loop of `metaPages` and of `listAccessibleAssetIds`. A missing total is replaced by the number of
      items collected so far. */
  method MetaPages<T>(server: seq<T>, total: Option<int>) returns (all: seq<T>)
    ensures all == Collected(server, total)
  {
    all := [];
    var offset := 0;
    while true
      invariant offset % CORE_PAGE == 0 && offset == |all| <= |server| && all == server[..offset]
      invariant offset > 0 ==> total.Some? && offset < total.value
      decreases |server| - offset
    {
      var items := Slice(server, offset, offset + CORE_PAGE);
      all := all + items;
      assert all == server[..|all|];
      if |items| < CORE_PAGE || |all| >= (if total.Some? then total.value else |all|) {
        break;
      }
      offset := offset + CORE_PAGE;
    }
  }

  /** The loop is lossless if and only if the server's total covers the list up to its last page; without a
      total, if and only if one page is enough. */
  lemma CollectedIsLossless<T>(server: seq<T>, total: Option<int>)
    ensures Collected(server, total) == server <==>
              |server| <= CORE_PAGE || (total.Some? && (|server| + CORE_PAGE - 1) / CORE_PAGE <= (total.value + CORE_PAGE - 1) / CORE_PAGE)
    ensures total == Some(|server|) ==> Collected(server, total) == server
    ensures Collected(server, total) <= server
  {
  }


  /** A page holds the whole part of the size asked for, between 1 and 100, and 50 when none is given. */
  lemma PageSizeIs(limit: Number)
    ensures var n := PageSize(limit);
            if limit.None? then n == 50
            else if limit.value < 1.0 then n == 1
            else if limit.value >= 100.0 then n == 100
            else n as real <= limit.value < n as real + 1.0
  {
  }
}
