/** Searching several Wikis at once: the hits of each Wiki get the reciprocal-rank score 1 / (60 + rank + 1),
    all hits are sorted by score with JavaScript's stable sort, and the first `limit` are kept. */
module WikiSearch {
  import opened Basics

  /** A hit as a Wiki returns it; without a path, id or ref it has no stable path. */
  datatype Item = Item(path: Option<string>, title: string)
  datatype Outcome = Answered(items: seq<Item>) | Failed(error: string)
  datatype Hit = Hit(wiki: nat, rank: nat, item: Item)

  datatype Warning = Warning(wiki: nat, error: string)
  datatype Search = Found(results: seq<Hit>, warnings: seq<Warning>) | AllFailed(warnings: seq<Warning>) | MissingPath

  function Score(rank: nat): real {
    1.0 / (60.0 + rank as real + 1.0)
  }

  /** A numeric argument; `None` when it is not finite. */
  type Number = Option<real>

  function Bounded(value: Number, min: int, max: int, fallback: int): int {
    if value.Some? then Max(min, Min(max, value.value.Floor)) else fallback
  }

  /** One Wiki's hits from an index on. */
  function HitsOf(wiki: nat, items: seq<Item>, from: nat): seq<Hit>
    decreases |items| - from
  {
    if from >= |items| then [] else [Hit(wiki, from, items[from])] + HitsOf(wiki, items, from + 1)
  }

  function ItemsOf(o: Outcome): seq<Item> {
    if o.Answered? then o.items else []
  }

  /** `outcomes.flatMap(...)`, for the Wikis before the given index. */
  function Flat(outcomes: seq<Outcome>, n: nat): seq<Hit>
    requires n <= |outcomes|
  {
    if n == 0 then [] else Flat(outcomes, n - 1) + HitsOf(n - 1, ItemsOf(outcomes[n - 1]), 0)
  }

  function Warnings(outcomes: seq<Outcome>, n: nat): seq<Warning>
    requires n <= |outcomes|
  {
    if n == 0 then [] else
      Warnings(outcomes, n - 1) +
      (if outcomes[n - 1].Failed? && outcomes[n - 1].error != "" then [Warning(n - 1, outcomes[n - 1].error)] else [])
  }

  // ----- The stable sort -----

  function Insert(h: Hit, sorted: seq<Hit>): seq<Hit> {
    if sorted == [] || Score(h.rank) >= Score(sorted[0].rank) then [h] + sorted else [sorted[0]] + Insert(h, sorted[1..])
  }

  function Sort(hits: seq<Hit>): seq<Hit> {
    if hits == [] then [] else Insert(hits[0], Sort(hits[1..]))
  }

  function SearchWikis(outcomes: seq<Outcome>, limit: Number): Search {
    var warnings := Warnings(outcomes, |outcomes|);
    if outcomes == [] then Found([], [])
    else if |warnings| == |outcomes| then AllFailed(warnings)
    else
      var hits := Flat(outcomes, |outcomes|);
      if exists k :: 0 <= k < |hits| && hits[k].item.path.None? then MissingPath
      else Found(Take(Sort(hits), Bounded(limit, 1, 20, 10)), warnings)
  }

  function Take<T>(s: seq<T>, n: nat): seq<T> {
    if |s| <= n then s else s[..n]
  }

  // ----- What a stable sort is -----

  predicate Descending(hits: seq<Hit>) {
    forall j, k :: 0 <= j < k < |hits| ==> Score(hits[j].rank) >= Score(hits[k].rank)
  }

  /** The hits with one score, in order. */
  function WithScore(hits: seq<Hit>, score: real): seq<Hit> {
    if hits == [] then [] else (if Score(hits[0].rank) == score then [hits[0]] else []) + WithScore(hits[1..], score)
  }

  /** `sorted` rearranges `hits` by falling score and leaves hits of equal score in their order. */
  ghost predicate IsStableSort(hits: seq<Hit>, sorted: seq<Hit>) {
    Descending(sorted) && forall score :: WithScore(sorted, score) == WithScore(hits, score)
  }

  lemma {:induction false} InsertIsStable(h: Hit, sorted: seq<Hit>)
    requires Descending(sorted)
    ensures Descending(Insert(h, sorted))
    ensures Insert(h, sorted) != [] && (Insert(h, sorted)[0] == h || (sorted != [] && Insert(h, sorted)[0] == sorted[0]))
    ensures forall score :: WithScore(Insert(h, sorted), score) == (if Score(h.rank) == score then [h] else []) + WithScore(sorted, score)
  {
    if sorted == [] || Score(h.rank) >= Score(sorted[0].rank) {
      assert ([h] + sorted)[1..] == sorted;
    } else {
      InsertIsStable(h, sorted[1..]);
      var rest := Insert(h, sorted[1..]);
      assert ([sorted[0]] + rest)[1..] == rest;
    }
  }

  lemma {:induction false} SortIsStable(hits: seq<Hit>)
    ensures IsStableSort(hits, Sort(hits))
  {
    if hits != [] {
      SortIsStable(hits[1..]);
      InsertIsStable(hits[0], Sort(hits[1..]));
    }
  }

  lemma {:induction false} ScoreOccurs(hits: seq<Hit>, score: real)
    ensures WithScore(hits, score) != [] <==> exists k :: 0 <= k < |hits| && Score(hits[k].rank) == score
  {
    if hits != [] {
      ScoreOccurs(hits[1..], score);
      assert forall k :: 1 <= k < |hits| ==> hits[k] == hits[1..][k - 1];
    }
  }

  lemma TopScoreOccurs(a: seq<Hit>, b: seq<Hit>)
    requires Descending(b) && a != []
    requires forall score :: WithScore(a, score) == WithScore(b, score)
    ensures b != [] && Score(b[0].rank) >= Score(a[0].rank)
  {
    ScoreOccurs(a, Score(a[0].rank));
    ScoreOccurs(b, Score(a[0].rank));
  }

  lemma SameTopScore(a: seq<Hit>, b: seq<Hit>)
    requires Descending(a) && Descending(b)
    requires forall score :: WithScore(a, score) == WithScore(b, score)
    ensures (a == [] <==> b == []) && (a != [] ==> Score(a[0].rank) == Score(b[0].rank))
  {
    if a != [] {
      TopScoreOccurs(a, b);
    }
    if b != [] {
      TopScoreOccurs(b, a);
    }
  }

  /** There is only one stable sort, so nothing depends on the algorithm behind `sort`. */
  lemma {:induction false} StableSortIsUnique(a: seq<Hit>, b: seq<Hit>)
    requires Descending(a) && Descending(b)
    requires forall score :: WithScore(a, score) == WithScore(b, score)
    ensures a == b
  {
    SameTopScore(a, b);
    if a != [] {
      var top := Score(a[0].rank);
      assert WithScore(a, top)[0] == a[0] && WithScore(b, top)[0] == b[0];
      forall score
        ensures WithScore(a[1..], score) == WithScore(b[1..], score)
      {
        var first := if score == top then [a[0]] else [];
        assert WithScore(a, score) == first + WithScore(a[1..], score);
        assert WithScore(b, score) == first + WithScore(b[1..], score);
        assert WithScore(a[1..], score) == WithScore(a, score)[|first|..];
      }
      StableSortIsUnique(a[1..], b[1..]);
    }
  }

  // ----- The rank-major interleave -----

  /** The hits of one rank, in Wiki order, for the Wikis before the given index. */
  function Row(outcomes: seq<Outcome>, n: nat, rank: nat): seq<Hit>
    requires n <= |outcomes|
  {
    if n == 0 then [] else
      Row(outcomes, n - 1, rank) +
      (if rank < |ItemsOf(outcomes[n - 1])| then [Hit(n - 1, rank, ItemsOf(outcomes[n - 1])[rank])] else [])
  }

  function Depth(outcomes: seq<Outcome>, n: nat): (d: nat)
    requires n <= |outcomes|
    ensures forall k :: 0 <= k < n ==> |ItemsOf(outcomes[k])| <= d
  {
    if n == 0 then 0 else Max(Depth(outcomes, n - 1), |ItemsOf(outcomes[n - 1])|)
  }

  /** All hits from a rank on: first that whole row, then the next one, and so on. */
  function RankMajor(outcomes: seq<Outcome>, rank: nat): seq<Hit>
    decreases Depth(outcomes, |outcomes|) - rank
  {
    if rank >= Depth(outcomes, |outcomes|) then [] else Row(outcomes, |outcomes|, rank) + RankMajor(outcomes, rank + 1)
  }

  lemma ScoreFalls(j: nat, k: nat)
    ensures j < k <==> Score(j) > Score(k)
    ensures j == k <==> Score(j) == Score(k)
  {
    if j < k {
      ReciprocalFalls(61.0 + j as real, 61.0 + k as real);
    } else if k < j {
      ReciprocalFalls(61.0 + k as real, 61.0 + j as real);
    }
  }

  lemma ReciprocalFalls(x: real, y: real)
    requires 0.0 < x < y
    ensures 1.0 / x > 1.0 / y
  {
    assert 1.0 / x - 1.0 / y == (y - x) / (x * y);
  }

  function WithRank(hits: seq<Hit>, rank: nat): seq<Hit> {
    if hits == [] then [] else (if hits[0].rank == rank then [hits[0]] else []) + WithRank(hits[1..], rank)
  }

  lemma {:induction false} ScoreIsRank(hits: seq<Hit>, rank: nat)
    ensures WithScore(hits, Score(rank)) == WithRank(hits, rank)
  {
    if hits != [] {
      ScoreFalls(hits[0].rank, rank);
      ScoreIsRank(hits[1..], rank);
    }
  }

  lemma {:induction false} WithRankOfConcat(a: seq<Hit>, b: seq<Hit>, rank: nat)
    ensures WithRank(a + b, rank) == WithRank(a, rank) + WithRank(b, rank)
  {
    if a == [] {
      assert a + b == b;
    } else {
      var first := if a[0].rank == rank then [a[0]] else [];
      assert (a + b)[0] == a[0] && (a + b)[1..] == a[1..] + b;
      WithRankOfConcat(a[1..], b, rank);
      AppendAssociates(first, WithRank(a[1..], rank), WithRank(b, rank));
    }
  }

  lemma WithRankOfCons(first: Hit, rest: seq<Hit>, rank: nat)
    ensures WithRank([first] + rest, rank) == (if first.rank == rank then [first] else []) + WithRank(rest, rank)
  {
    assert ([first] + rest)[1..] == rest;
  }

  lemma {:induction false} OneWikiByRank(wiki: nat, items: seq<Item>, from: nat, rank: nat)
    ensures WithRank(HitsOf(wiki, items, from), rank) == if from <= rank < |items| then [Hit(wiki, rank, items[rank])] else []
    decreases |items| - from
  {
    if from < |items| {
      var first, rest := Hit(wiki, from, items[from]), HitsOf(wiki, items, from + 1);
      OneWikiByRank(wiki, items, from + 1, rank);
      assert HitsOf(wiki, items, from) == [first] + rest;
      WithRankOfCons(first, rest, rank);
    }
  }

  lemma AppendByRank(before: seq<Hit>, hits: seq<Hit>, row: seq<Hit>, last: seq<Hit>, rank: nat)
    requires WithRank(before, rank) == row && WithRank(hits, rank) == last
    ensures WithRank(before + hits, rank) == row + last
  {
    WithRankOfConcat(before, hits, rank);
  }

  lemma {:induction false} FlatByRank(outcomes: seq<Outcome>, n: nat, rank: nat)
    requires n <= |outcomes|
    ensures WithRank(Flat(outcomes, n), rank) == Row(outcomes, n, rank)
  {
    if n > 0 {
      var items := ItemsOf(outcomes[n - 1]);
      var last := if rank < |items| then [Hit(n - 1, rank, items[rank])] else [];
      FlatByRank(outcomes, n - 1, rank);
      OneWikiByRank(n - 1, items, 0, rank);
      AppendByRank(Flat(outcomes, n - 1), HitsOf(n - 1, items, 0), Row(outcomes, n - 1, rank), last, rank);
    }
  }

  lemma {:induction false} RowHasOneRank(outcomes: seq<Outcome>, n: nat, rank: nat)
    requires n <= |outcomes|
    ensures forall k :: 0 <= k < |Row(outcomes, n, rank)| ==> Row(outcomes, n, rank)[k].rank == rank
  {
    if n > 0 {
      RowHasOneRank(outcomes, n - 1, rank);
    }
  }

  lemma {:induction false} SameRankFilter(hits: seq<Hit>, common: nat, rank: nat)
    requires forall k :: 0 <= k < |hits| ==> hits[k].rank == common
    ensures WithRank(hits, rank) == if common == rank then hits else []
  {
    if hits != [] {
      SameRankFilter(hits[1..], common, rank);
    }
  }

  lemma {:induction false} RowBeyondDepth(outcomes: seq<Outcome>, n: nat, rank: nat)
    requires n <= |outcomes| && rank >= Depth(outcomes, n)
    ensures Row(outcomes, n, rank) == []
  {
    if n > 0 {
      RowBeyondDepth(outcomes, n - 1, rank);
    }
  }

  ghost predicate RanksRise(hits: seq<Hit>, from: nat) {
    && (forall k :: 0 <= k < |hits| ==> hits[k].rank >= from)
    && (forall j, k :: 0 <= j < k < |hits| ==> hits[j].rank <= hits[k].rank)
  }

  lemma {:induction false} RankMajorRises(outcomes: seq<Outcome>, from: nat)
    ensures RanksRise(RankMajor(outcomes, from), from)
    decreases Depth(outcomes, |outcomes|) - from
  {
    if from < Depth(outcomes, |outcomes|) {
      RowHasOneRank(outcomes, |outcomes|, from);
      RankMajorRises(outcomes, from + 1);
    }
  }

  lemma RisingRanksDescend(hits: seq<Hit>)
    requires RanksRise(hits, 0)
    ensures Descending(hits)
  {
    forall j, k | 0 <= j < k < |hits|
      ensures Score(hits[j].rank) >= Score(hits[k].rank)
    {
      ScoreFalls(hits[j].rank, hits[k].rank);
    }
  }

  lemma {:induction false} RankMajorByRank(outcomes: seq<Outcome>, from: nat, rank: nat)
    ensures WithRank(RankMajor(outcomes, from), rank) == if from <= rank then Row(outcomes, |outcomes|, rank) else []
    decreases Depth(outcomes, |outcomes|) - from
  {
    if from < Depth(outcomes, |outcomes|) {
      var row := Row(outcomes, |outcomes|, from);
      RowHasOneRank(outcomes, |outcomes|, from);
      SameRankFilter(row, from, rank);
      RankMajorByRank(outcomes, from + 1, rank);
      if from == rank {
        AppendByRank(row, RankMajor(outcomes, from + 1), row, [], rank);
        assert row + [] == row;
      } else {
        AppendByRank(row, RankMajor(outcomes, from + 1), [], if from < rank then Row(outcomes, |outcomes|, rank) else [], rank);
      }
    } else if from <= rank {
      RowBeyondDepth(outcomes, |outcomes|, rank);
    }
  }

  /** Two lists that agree rank by rank agree score by score. */
  lemma SameByRankSameByScore(a: seq<Hit>, b: seq<Hit>, score: real)
    requires forall rank: nat :: WithRank(a, rank) == WithRank(b, rank)
    ensures WithScore(a, score) == WithScore(b, score)
  {
    ScoreOccurs(a, score);
    ScoreOccurs(b, score);
    if k :| 0 <= k < |a| && Score(a[k].rank) == score {
      ScoreIsRank(a, a[k].rank);
      ScoreIsRank(b, a[k].rank);
    } else if k :| 0 <= k < |b| && Score(b[k].rank) == score {
      ScoreIsRank(a, b[k].rank);
      ScoreIsRank(b, b[k].rank);
    }
  }

  /** Sorting all hits by score gives the rank-major interleave: every Wiki's best hit in Wiki order, then
      every second hit, and so on. */
  lemma SortIsRankMajor(outcomes: seq<Outcome>)
    ensures Sort(Flat(outcomes, |outcomes|)) == RankMajor(outcomes, 0)
  {
    var hits, rows := Flat(outcomes, |outcomes|), RankMajor(outcomes, 0);
    SortIsStable(hits);
    RankMajorRises(outcomes, 0);
    RisingRanksDescend(rows);
    forall rank: nat
      ensures WithRank(hits, rank) == WithRank(rows, rank)
    {
      FlatByRank(outcomes, |outcomes|, rank);
      RankMajorByRank(outcomes, 0, rank);
    }
    forall score
      ensures WithScore(Sort(hits), score) == WithScore(rows, score)
    {
      SameByRankSameByScore(hits, rows, score);
    }
    StableSortIsUnique(Sort(hits), rows);
  }

  /** The whole search: its hits are the first `limit` of the interleave. */
  lemma SearchIsInterleave(outcomes: seq<Outcome>, limit: Number)
    ensures var s := SearchWikis(outcomes, limit);
            s.Found? ==> s.results == Take(RankMajor(outcomes, 0), Bounded(limit, 1, 20, 10))
    ensures SearchWikis(outcomes, limit).AllFailed? <==>
              outcomes != [] && forall k :: 0 <= k < |outcomes| ==> outcomes[k].Failed? && outcomes[k].error != ""
  {
    SortIsRankMajor(outcomes);
    WarningsCount(outcomes, |outcomes|);
  }

  lemma {:induction false} WarningsCount(outcomes: seq<Outcome>, n: nat)
    requires n <= |outcomes|
    ensures |Warnings(outcomes, n)| <= n
    ensures |Warnings(outcomes, n)| == n <==> forall k :: 0 <= k < n ==> outcomes[k].Failed? && outcomes[k].error != ""
  {
    if n > 0 {
      WarningsCount(outcomes, n - 1);
    }
  }

  // ----- How a search ends -----

  predicate HasFailed(o: Outcome) {
    o.Failed? && o.error != ""
  }

  ghost predicate EveryoneFailed(outcomes: seq<Outcome>) {
    outcomes != [] && forall k :: 0 <= k < |outcomes| ==> HasFailed(outcomes[k])
  }

  /** Some Wiki answered with a hit that has no path. */
  ghost predicate LacksPath(outcomes: seq<Outcome>) {
    exists k :: 0 <= k < |outcomes| && outcomes[k].Answered? && exists item :: item in outcomes[k].items && item.path.None?
  }

  /** The failed Wikis with what they said, each once and in order. */
  ghost predicate AreWarnings(outcomes: seq<Outcome>, n: nat, warnings: seq<Warning>)
    requires n <= |outcomes|
  {
    && (forall i, j :: 0 <= i < j < |warnings| ==> warnings[i].wiki < warnings[j].wiki)
    && (forall w :: w in warnings <==> w.wiki < n && HasFailed(outcomes[w.wiki]) && w.error == outcomes[w.wiki].error)
  }

  lemma OneWikiMore(outcomes: seq<Outcome>, n: nat, before: seq<Warning>, last: seq<Warning>)
    requires n < |outcomes| && AreWarnings(outcomes, n, before)
    requires last == if HasFailed(outcomes[n]) then [Warning(n, outcomes[n].error)] else []
    ensures AreWarnings(outcomes, n + 1, before + last)
  {
    assert forall i :: 0 <= i < |before| ==> before[i] in before;
  }

  lemma {:induction false} WarningsAre(outcomes: seq<Outcome>, n: nat)
    requires n <= |outcomes|
    ensures AreWarnings(outcomes, n, Warnings(outcomes, n))
  {
    if n > 0 {
      WarningsAre(outcomes, n - 1);
      OneWikiMore(outcomes, n - 1, Warnings(outcomes, n - 1),
                  if HasFailed(outcomes[n - 1]) then [Warning(n - 1, outcomes[n - 1].error)] else []);
    }
  }

  lemma {:induction false} OneWikiPaths(wiki: nat, items: seq<Item>, from: nat)
    ensures (exists h :: h in HitsOf(wiki, items, from) && h.item.path.None?) <==> (exists k :: from <= k < |items| && items[k].path.None?)
    decreases |items| - from
  {
    if from < |items| {
      OneWikiPaths(wiki, items, from + 1);
      assert HitsOf(wiki, items, from) == [Hit(wiki, from, items[from])] + HitsOf(wiki, items, from + 1);
      assert Hit(wiki, from, items[from]) in HitsOf(wiki, items, from);
    }
  }

  lemma {:induction false} FlatPaths(outcomes: seq<Outcome>, n: nat)
    requires n <= |outcomes|
    ensures (exists h :: h in Flat(outcomes, n) && h.item.path.None?) <==> LacksPath(outcomes[..n])
  {
    if n > 0 {
      var o := outcomes[n - 1];
      FlatPaths(outcomes, n - 1);
      OneWikiPaths(n - 1, ItemsOf(o), 0);
      LacksPathOfSnoc(outcomes[..n - 1], o);
      assert outcomes[..n] == outcomes[..n - 1] + [o];
    }
  }

  lemma LacksPathOfSnoc(outcomes: seq<Outcome>, o: Outcome)
    ensures LacksPath(outcomes + [o]) <==> LacksPath(outcomes) || exists k :: 0 <= k < |ItemsOf(o)| && ItemsOf(o)[k].path.None?
  {
    var more := outcomes + [o];
    assert more[|outcomes|] == o && forall k :: 0 <= k < |outcomes| ==> more[k] == outcomes[k];
    if k :| 0 <= k < |ItemsOf(o)| && ItemsOf(o)[k].path.None? {
      assert more[|outcomes|].Answered? && ItemsOf(o)[k] in more[|outcomes|].items;
    }
    if LacksPath(more) && !LacksPath(outcomes) {
      var item :| item in more[|outcomes|].items && item.path.None?;
      var k :| 0 <= k < |o.items| && o.items[k] == item;
      assert ItemsOf(o)[k].path.None?;
    }
  }

  /** A search fails as a whole if and only if there are Wikis and every one failed with a message, and on a hit
      without a path if and only if not all failed; in every other case it has results. Either way, but for the
      missing path, it names the Wikis that failed. */
  lemma SearchEnds(outcomes: seq<Outcome>, limit: Number)
    ensures var s := SearchWikis(outcomes, limit);
            && (s.AllFailed? <==> EveryoneFailed(outcomes))
            && (s.MissingPath? <==> !EveryoneFailed(outcomes) && LacksPath(outcomes))
            && (s.Found? <==> !EveryoneFailed(outcomes) && !LacksPath(outcomes))
            && (!s.MissingPath? ==> AreWarnings(outcomes, |outcomes|, s.warnings))
  {
    WarningsAre(outcomes, |outcomes|);
    WarningsCount(outcomes, |outcomes|);
    FlatPaths(outcomes, |outcomes|);
    assert outcomes[..|outcomes|] == outcomes;
    var hits := Flat(outcomes, |outcomes|);
    assert (exists k :: 0 <= k < |hits| && hits[k].item.path.None?) <==> (exists h :: h in hits && h.item.path.None?);
  }

  /** The limit a search keeps to: the whole part of the one asked for, between 1 and 20, and 10 when none is given. */
  lemma LimitIs(limit: Number)
    ensures var n := Bounded(limit, 1, 20, 10);
            if limit.None? then n == 10
            else if limit.value < 1.0 then n == 1
            else if limit.value >= 20.0 then n == 20
            else n as real <= limit.value < n as real + 1.0
  {
  }

  // ----- What a reader of the results may rely on -----

  predicate IsHit(outcomes: seq<Outcome>, h: Hit) {
    h.wiki < |outcomes| && outcomes[h.wiki].Answered? && h.rank < |outcomes[h.wiki].items| && h.item == outcomes[h.wiki].items[h.rank]
  }

  predicate Before(h: Hit, g: Hit) {
    h.rank < g.rank || (h.rank == g.rank && h.wiki < g.wiki)
  }

  lemma {:induction false} RowIsComplete(outcomes: seq<Outcome>, n: nat, rank: nat)
    requires n <= |outcomes|
    ensures forall h :: h in Row(outcomes, n, rank) <==> h.wiki < n && h.rank == rank && IsHit(outcomes, h)
  {
    if n > 0 {
      RowIsComplete(outcomes, n - 1, rank);
    }
  }

  /** In rank-major order, so also without repetition. */
  ghost predicate Ordered(hits: seq<Hit>) {
    forall j, k :: 0 <= j < k < |hits| ==> Before(hits[j], hits[k])
  }

  lemma {:induction false} RowIsOrdered(outcomes: seq<Outcome>, n: nat, rank: nat)
    requires n <= |outcomes|
    ensures Ordered(Row(outcomes, n, rank))
    ensures forall k :: 0 <= k < |Row(outcomes, n, rank)| ==> Row(outcomes, n, rank)[k].wiki < n && Row(outcomes, n, rank)[k].rank == rank
  {
    if n > 0 {
      RowIsOrdered(outcomes, n - 1, rank);
      var before, row := Row(outcomes, n - 1, rank), Row(outcomes, n, rank);
      assert forall k :: 0 <= k < |before| ==> row[k] == before[k];
      assert forall k :: |before| <= k < |row| ==> row[k].wiki == n - 1 && row[k].rank == rank;
    }
  }

  lemma {:induction false} RankMajorIsComplete(outcomes: seq<Outcome>, from: nat)
    ensures forall h :: h in RankMajor(outcomes, from) <==> h.rank >= from && IsHit(outcomes, h)
    decreases Depth(outcomes, |outcomes|) - from
  {
    if from < Depth(outcomes, |outcomes|) {
      RowIsComplete(outcomes, |outcomes|, from);
      RankMajorIsComplete(outcomes, from + 1);
    }
  }

  lemma {:induction false} RankMajorIsOrdered(outcomes: seq<Outcome>, from: nat)
    ensures Ordered(RankMajor(outcomes, from))
    decreases Depth(outcomes, |outcomes|) - from
  {
    if from < Depth(outcomes, |outcomes|) {
      RowIsOrdered(outcomes, |outcomes|, from);
      RankMajorIsOrdered(outcomes, from + 1);
      RankMajorRises(outcomes, from + 1);
      ConcatIsOrdered(Row(outcomes, |outcomes|, from), RankMajor(outcomes, from + 1), from);
    }
  }

  lemma ConcatIsOrdered(row: seq<Hit>, rest: seq<Hit>, rank: nat)
    requires Ordered(row) && Ordered(rest) && RanksRise(rest, rank + 1)
    requires forall k :: 0 <= k < |row| ==> row[k].rank == rank
    ensures Ordered(row + rest)
  {
  }

  /** Results are distinct real hits in rank-major order, and no hit is shown while a better placed one of
      any Wiki is left out; when all hits fit, all are shown. */
  lemma ResultsAreFair(outcomes: seq<Outcome>, limit: Number)
    requires SearchWikis(outcomes, limit).Found? && outcomes != []
    ensures var results, n := SearchWikis(outcomes, limit).results, Bounded(limit, 1, 20, 10);
            && |results| <= n
            && (forall j, k :: 0 <= j < k < |results| ==> Before(results[j], results[k]))
            && (forall h :: h in results ==> IsHit(outcomes, h))
            && (forall g :: IsHit(outcomes, g) && g !in results ==> |results| == n && forall h :: h in results ==> Before(h, g))
  {
    SearchIsInterleave(outcomes, limit);
    RankMajorIsOrdered(outcomes, 0);
    RankMajorIsComplete(outcomes, 0);
    var all, n := RankMajor(outcomes, 0), Bounded(limit, 1, 20, 10);
    var results := Take(all, n);
    forall g | IsHit(outcomes, g) && g !in results
      ensures |results| == n && forall h :: h in results ==> Before(h, g)
    {
      assert all[..|results|] == results;
    }
  }

  function NonEmpty(outcomes: seq<Outcome>, n: nat): nat
    requires n <= |outcomes|
  {
    if n == 0 then 0 else NonEmpty(outcomes, n - 1) + (if ItemsOf(outcomes[n - 1]) != [] then 1 else 0)
  }

  lemma {:induction false} FirstRowSize(outcomes: seq<Outcome>, n: nat)
    requires n <= |outcomes|
    ensures |Row(outcomes, n, 0)| == NonEmpty(outcomes, n)
  {
    if n > 0 {
      FirstRowSize(outcomes, n - 1);
    }
  }

  lemma FirstRowTaken(row: seq<Hit>, rest: seq<Hit>, n: nat)
    requires Ordered(row + rest)
    ensures (forall h :: h in row ==> h in Take(row + rest, n)) <==> |row| <= n
  {
    var all := row + rest;
    if |row| <= n {
      forall h | h in row
        ensures h in Take(all, n)
      {
        var k :| 0 <= k < |row| && row[k] == h;
        assert Take(all, n)[k] == h;
      }
    } else {
      assert all[n] == row[n] && row[n] in row;
      assert forall k :: 0 <= k < n ==> Before(all[k], all[n]);
    }
  }

  lemma FirstRowShown(outcomes: seq<Outcome>, n: nat)
    ensures (forall h :: h in Row(outcomes, |outcomes|, 0) ==> h in Take(RankMajor(outcomes, 0), n))
            <==> |Row(outcomes, |outcomes|, 0)| <= n
  {
    RankMajorIsOrdered(outcomes, 0);
    if Depth(outcomes, |outcomes|) == 0 {
      RowBeyondDepth(outcomes, |outcomes|, 0);
    } else {
      FirstRowTaken(Row(outcomes, |outcomes|, 0), RankMajor(outcomes, 1), n);
    }
  }

  /** Every Wiki that found something has its best hit among the results if and only if there are no more
      such Wikis than the limit allows. */
  lemma TopHitsShown(outcomes: seq<Outcome>, limit: Number)
    requires SearchWikis(outcomes, limit).Found? && outcomes != []
    ensures (forall h :: IsHit(outcomes, h) && h.rank == 0 ==> h in SearchWikis(outcomes, limit).results)
            <==> NonEmpty(outcomes, |outcomes|) <= Bounded(limit, 1, 20, 10)
  {
    SearchIsInterleave(outcomes, limit);
    FirstRowSize(outcomes, |outcomes|);
    RowIsComplete(outcomes, |outcomes|, 0);
    FirstRowShown(outcomes, Bounded(limit, 1, 20, 10));
  }
}
