/** The `retrieve` node of triage.graph.ts: every search adds to what earlier rounds found, keeps the best hit
    of each chunk and cuts the list to eight. Cutting early loses nothing: the scores kept are those that one
    merge over everything ever retrieved would keep. */
module Retrieval {
  import opened Collections
  import opened Prelude

  type ChunkId = string

  datatype Hit = Hit(chunkId: ChunkId, section: Option<string>, score: real)

  const RETRIEVE_K: nat := 6
  const KEEP: nat := RETRIEVE_K + 2

  // ---------- the node's computation ----------

  /** Position of a chunk in the insertion-ordered map `merged`, or its size. */
  function IndexOf(merged: seq<Hit>, id: ChunkId): (i: nat)
    ensures i <= |merged|
    ensures i < |merged| ==> merged[i].chunkId == id
    ensures forall k :: 0 <= k < i ==> merged[k].chunkId != id
  {
    if merged == [] || merged[0].chunkId == id then 0 else 1 + IndexOf(merged[1..], id)
  }

  function MergeOne(merged: seq<Hit>, h: Hit): seq<Hit> {
    var i := IndexOf(merged, h.chunkId);
    if i == |merged| then merged + [h]
    else if merged[i].score < h.score then merged[i := h]
    else merged
  }

  function MergeAll(hs: seq<Hit>): seq<Hit> {
    if hs == [] then [] else MergeOne(MergeAll(hs[..|hs| - 1]), hs[|hs| - 1])
  }

  /** `sort((a, b) => b.score - a.score)`: stable, best first. */
  function SortByScore(hs: seq<Hit>): (r: seq<Hit>)
    ensures |r| == |hs| && forall g :: g in r <==> g in hs
  {
    if hs == [] then []
    else
      assert hs == hs[..|hs| - 1] + [hs[|hs| - 1]];
      Insert(SortByScore(hs[..|hs| - 1]), hs[|hs| - 1])
  }

  /** `h` goes behind every hit scoring no less than it. */
  function Insert(sorted: seq<Hit>, h: Hit): (r: seq<Hit>)
    ensures |r| == |sorted| + 1 && forall g :: g in r <==> g in sorted || g == h
  {
    if sorted == [] || sorted[0].score < h.score then [h] + sorted
    else
      assert sorted == [sorted[0]] + sorted[1..];
      [sorted[0]] + Insert(sorted[1..], h)
  }

  function Take(hs: seq<Hit>, n: nat): seq<Hit> {
    if |hs| <= n then hs else hs[..n]
  }

  function Admitted(results: seq<Hit>, exclude: set<ChunkId>): (r: seq<Hit>)
    ensures forall h :: h in r <==> h in results && h.chunkId !in exclude
  {
    if results == [] then []
    else (if results[0].chunkId in exclude then [] else [results[0]]) + Admitted(results[1..], exclude)
  }

  function Merged(hits: seq<Hit>, found: seq<Hit>): seq<Hit> {
    Take(SortByScore(MergeAll(hits + found)), KEEP)
  }

  method Retrieve(hits: seq<Hit>, results: seq<Hit>, excluded: seq<ChunkId>) returns (out: seq<Hit>)
    ensures out == Merged(hits, Admitted(results, set id | id in excluded))
  {
    var exclude := set id | id in excluded;
    var found := Admitted(results, exclude);
    var all := hits + found;
    var merged: seq<Hit> := [];
    for k := 0 to |all|
      invariant merged == MergeAll(all[..k])
    {
      var h := all[k];
      var i := IndexOf(merged, h.chunkId);
      assert all[..k + 1][..k] == all[..k];
      if i == |merged| {
        merged := merged + [h];
      } else if merged[i].score < h.score {
        merged := merged[i := h];
      }
    }
    assert all[..|all|] == all;
    out := Take(SortByScore(merged), KEEP);
  }

  // ---------- what the computation means ----------

  ghost predicate Distinct(hs: seq<Hit>) {
    forall i, j :: 0 <= i < j < |hs| ==> hs[i].chunkId != hs[j].chunkId
  }

  ghost predicate BestFirst(hs: seq<Hit>) {
    forall i, j :: 0 <= i < j < |hs| ==> hs[i].score >= hs[j].score
  }

  /** The chunks some hit of which scores at least `t`. */
  ghost function AtLeast(hs: seq<Hit>, t: real): set<ChunkId> {
    set h | h in hs && h.score >= t :: h.chunkId
  }

  /** `list` is what is left of `all` once each chunk keeps its best hit and the best `KEEP` of them stay. */
  ghost predicate TopOf(list: seq<Hit>, all: seq<Hit>) {
    && Distinct(list)
    && BestFirst(list)
    && (forall h :: h in list ==> h in all)
    && (forall t: real :: AtLeast(list, t) <= AtLeast(all, t))
    && (forall t: real :: |AtLeast(list, t)| == Min(KEEP, |AtLeast(all, t)|))
  }

  /** `list` holds a hit of the same chunk that is no worse. */
  ghost predicate Covered(h: Hit, list: seq<Hit>) {
    exists m :: m in list && m.chunkId == h.chunkId && m.score >= h.score
  }

  lemma MergeOneMeaning(was: seq<Hit>, h: Hit)
    requires Distinct(was)
    ensures Distinct(MergeOne(was, h))
    ensures forall g :: g in MergeOne(was, h) ==> g in was || g == h
    ensures Covered(h, MergeOne(was, h))
    ensures forall g :: Covered(g, was) ==> Covered(g, MergeOne(was, h))
  {
    var i := IndexOf(was, h.chunkId);
    var now := MergeOne(was, h);
    assert now[i] in now && now[i].chunkId == h.chunkId && now[i].score >= h.score;
    forall g | Covered(g, was)
      ensures Covered(g, now)
    {
      var m :| m in was && m.chunkId == g.chunkId && m.score >= g.score;
      var k :| 0 <= k < |was| && was[k] == m;
      assert now[k] in now;
    }
  }

  /** Merging keeps one hit per chunk, one that was retrieved, and none better was. */
  lemma {:induction false} MergeAllMeaning(hs: seq<Hit>)
    ensures Distinct(MergeAll(hs))
    ensures forall h :: h in MergeAll(hs) ==> h in hs
    ensures forall h :: h in hs ==> Covered(h, MergeAll(hs))
  {
    if hs != [] {
      var rest, last := hs[..|hs| - 1], hs[|hs| - 1];
      MergeAllMeaning(rest);
      MergeOneMeaning(MergeAll(rest), last);
      assert forall h :: h in hs <==> h in rest || h == last by {
        assert hs == rest + [last];
      }
    }
  }

  lemma SameChunksAtLeast(hs: seq<Hit>, t: real)
    ensures AtLeast(MergeAll(hs), t) == AtLeast(hs, t)
  {
    MergeAllMeaning(hs);
    forall h | h in hs && h.score >= t
      ensures h.chunkId in AtLeast(MergeAll(hs), t)
    {
      assert Covered(h, MergeAll(hs));
    }
  }

  lemma {:induction false} InsertSorted(sorted: seq<Hit>, h: Hit)
    requires BestFirst(sorted)
    ensures BestFirst(Insert(sorted, h))
  {
    if sorted != [] && sorted[0].score >= h.score {
      InsertSorted(sorted[1..], h);
      var tail := Insert(sorted[1..], h);
      forall k | 0 <= k < |tail|
        ensures sorted[0].score >= tail[k].score
      {
        assert tail[k] in tail;
      }
    }
  }

  lemma {:induction false} InsertDistinct(sorted: seq<Hit>, h: Hit)
    requires Distinct(sorted) && forall g :: g in sorted ==> g.chunkId != h.chunkId
    ensures Distinct(Insert(sorted, h))
  {
    if sorted != [] && sorted[0].score >= h.score {
      InsertDistinct(sorted[1..], h);
      var tail := Insert(sorted[1..], h);
      forall k | 0 <= k < |tail|
        ensures sorted[0].chunkId != tail[k].chunkId
      {
        assert tail[k] in tail && sorted[0] in sorted;
      }
    } else {
      assert forall k :: 0 <= k < |sorted| ==> sorted[k] in sorted;
    }
  }

  lemma {:induction false} SortMeaning(hs: seq<Hit>)
    ensures BestFirst(SortByScore(hs))
    ensures Distinct(hs) ==> Distinct(SortByScore(hs))
  {
    if hs != [] {
      var rest := hs[..|hs| - 1];
      SortMeaning(rest);
      InsertSorted(SortByScore(rest), hs[|hs| - 1]);
      if Distinct(hs) {
        InsertDistinct(SortByScore(rest), hs[|hs| - 1]);
      }
    }
  }

  /** The hits with this score, in order. */
  function OfScore(hs: seq<Hit>, x: real): seq<Hit> {
    if hs == [] then [] else (if hs[0].score == x then [hs[0]] else []) + OfScore(hs[1..], x)
  }

  lemma {:induction false} OfScoreMore(hs: seq<Hit>, h: Hit, x: real)
    ensures OfScore(hs + [h], x) == OfScore(hs, x) + if h.score == x then [h] else []
  {
    if hs != [] {
      OfScoreMore(hs[1..], h, x);
      assert (hs + [h])[1..] == hs[1..] + [h];
    }
  }

  lemma {:induction false} NoneOfScore(hs: seq<Hit>, x: real)
    requires forall h :: h in hs ==> h.score != x
    ensures OfScore(hs, x) == []
  {
    if hs != [] { NoneOfScore(hs[1..], x); }
  }

  lemma {:induction false} InsertKeepsOrder(sorted: seq<Hit>, h: Hit, x: real)
    requires BestFirst(sorted)
    ensures OfScore(Insert(sorted, h), x) == OfScore(sorted, x) + if h.score == x then [h] else []
  {
    if sorted == [] || sorted[0].score < h.score {
      if h.score == x { NoneOfScore(sorted, x); }
      assert ([h] + sorted)[1..] == sorted;
    } else {
      InsertKeepsOrder(sorted[1..], h, x);
      assert Insert(sorted, h)[1..] == Insert(sorted[1..], h);
    }
  }

  /** Sorting keeps hits with the same score in order. */
  lemma {:induction false} SortKeepsOrder(hs: seq<Hit>, x: real)
    ensures OfScore(SortByScore(hs), x) == OfScore(hs, x)
  {
    if hs != [] {
      var rest, last := hs[..|hs| - 1], hs[|hs| - 1];
      SortMeaning(rest);
      SortKeepsOrder(rest, x);
      InsertKeepsOrder(SortByScore(rest), last, x);
      OfScoreMore(rest, last, x);
      assert hs == rest + [last];
    }
  }

  lemma BestApart(hs: seq<Hit>, t: real)
    requires hs != [] && Distinct(hs) && BestFirst(hs)
    ensures Distinct(hs[1..]) && BestFirst(hs[1..])
    ensures hs[0].score < t ==> AtLeast(hs, t) == {}
    ensures hs[0].score >= t ==> hs[0].chunkId !in AtLeast(hs[1..], t)
    ensures hs[0].score >= t ==> AtLeast(hs, t) == {hs[0].chunkId} + AtLeast(hs[1..], t)
  {
    assert forall h :: h in hs <==> h == hs[0] || h in hs[1..];
    forall h | h in hs[1..]
      ensures h.chunkId != hs[0].chunkId
    {
      var k :| 0 <= k < |hs[1..]| && hs[1..][k] == h;
      assert hs[k + 1] == h;
    }
  }

  /** In a best-first list of distinct chunks, those scoring at least `t` are a prefix, one position each. */
  lemma {:induction false} PrefixAtLeast(hs: seq<Hit>, t: real) returns (n: nat)
    requires Distinct(hs) && BestFirst(hs)
    ensures n <= |hs| && n == |AtLeast(hs, t)|
    ensures forall i :: 0 <= i < n ==> hs[i].score >= t
    ensures forall i :: n <= i < |hs| ==> hs[i].score < t
  {
    n := 0;
    if hs == [] {
      assert AtLeast(hs, t) == {};
    } else {
      BestApart(hs, t);
      if hs[0].score >= t {
        var m := PrefixAtLeast(hs[1..], t);
        n := m + 1;
        forall i | 0 < i < |hs|
          ensures hs[i].score >= t <==> i < n
        {
          assert hs[i] == hs[1..][i - 1];
        }
      }
    }
  }

  lemma TakeAtLeast(hs: seq<Hit>, t: real)
    requires Distinct(hs) && BestFirst(hs)
    ensures AtLeast(Take(hs, KEEP), t) <= AtLeast(hs, t)
    ensures |AtLeast(Take(hs, KEEP), t)| == Min(KEEP, |AtLeast(hs, t)|)
  {
    var top := Take(hs, KEEP);
    var n := PrefixAtLeast(hs, t);
    var m := PrefixAtLeast(top, t);
    if m < |top| {
      assert top[m] == hs[m];
    }
    if n < |top| {
      assert top[n] == hs[n];
    }
  }

  lemma SubsetMin(part: set<ChunkId>, whole: set<ChunkId>, more: set<ChunkId>)
    requires part <= whole && |part| == Min(KEEP, |whole|)
    ensures Min(KEEP, |part + more|) == Min(KEEP, |whole + more|)
  {
    if |whole| <= KEEP {
      Subset(part, whole);
    } else {
      Subset(part, part + more);
      Subset(whole, whole + more);
    }
  }

  lemma AtLeastAppend(a: seq<Hit>, b: seq<Hit>, t: real)
    ensures AtLeast(a + b, t) == AtLeast(a, t) + AtLeast(b, t)
  {
  }

  lemma AtLeastSame(a: seq<Hit>, b: seq<Hit>, t: real)
    requires forall h :: h in a <==> h in b
    ensures AtLeast(a, t) == AtLeast(b, t)
  {
  }

  lemma RoundAtLeast(hits: seq<Hit>, all: seq<Hit>, found: seq<Hit>, t: real)
    requires TopOf(hits, all)
    ensures AtLeast(Merged(hits, found), t) <= AtLeast(all + found, t)
    ensures |AtLeast(Merged(hits, found), t)| == Min(KEEP, |AtLeast(all + found, t)|)
  {
    var m := MergeAll(hits + found);
    MergeAllMeaning(hits + found);
    SortMeaning(m);
    TakeAtLeast(SortByScore(m), t);
    SameChunksAtLeast(hits + found, t);
    AtLeastSame(SortByScore(m), m, t);
    AtLeastAppend(hits, found, t);
    AtLeastAppend(all, found, t);
    SubsetMin(AtLeast(hits, t), AtLeast(all, t), AtLeast(found, t));
  }

  /** The node's list itself: distinct, best first, and nothing that was not retrieved. */
  lemma MergedMeaning(hits: seq<Hit>, found: seq<Hit>)
    ensures Distinct(Merged(hits, found)) && BestFirst(Merged(hits, found))
    ensures forall h :: h in Merged(hits, found) ==> h in hits || h in found
    ensures |Merged(hits, found)| <= KEEP
  {
    MergeAllMeaning(hits + found);
    SortMeaning(MergeAll(hits + found));
    var sorted := SortByScore(MergeAll(hits + found));
    assert forall h :: h in Merged(hits, found) ==> h in sorted;
  }

  /** One more round keeps the list a top of everything retrieved. */
  lemma RoundKeepsTop(hits: seq<Hit>, all: seq<Hit>, found: seq<Hit>)
    requires TopOf(hits, all)
    ensures TopOf(Merged(hits, found), all + found)
  {
    MergedMeaning(hits, found);
    forall t: real
      ensures AtLeast(Merged(hits, found), t) <= AtLeast(all + found, t)
      ensures |AtLeast(Merged(hits, found), t)| == Min(KEEP, |AtLeast(all + found, t)|)
    {
      RoundAtLeast(hits, all, found, t);
    }
  }

  function Scores(hs: seq<Hit>): seq<real> {
    seq(|hs|, i requires 0 <= i < |hs| => hs[i].score)
  }

  /** A top is determined, as far as scores go, by what it is the top of. */
  lemma TopScoresUnique(a: seq<Hit>, b: seq<Hit>, all: seq<Hit>)
    requires TopOf(a, all) && TopOf(b, all)
    ensures Scores(a) == Scores(b)
  {
    TopNotBetter(a, b, all);
    TopNotBetter(b, a, all);
  }

  lemma TopNotBetter(a: seq<Hit>, b: seq<Hit>, all: seq<Hit>)
    requires TopOf(a, all) && TopOf(b, all)
    ensures |a| <= |b|
    ensures forall i :: 0 <= i < |a| ==> a[i].score <= b[i].score
  {
    forall i | 0 <= i < |a|
      ensures i < |b| && a[i].score <= b[i].score
    {
      var n := PrefixAtLeast(a, a[i].score);
      var m := PrefixAtLeast(b, a[i].score);
      assert i < n == m;
    }
    if |a| > 0 { assert a[|a| - 1].score <= b[|a| - 1].score; }
  }

  /** The rounds since the last reset, one list of fresh hits each. */
  function Incremental(rounds: seq<seq<Hit>>): seq<Hit> {
    if rounds == [] then [] else Merged(Incremental(rounds[..|rounds| - 1]), rounds[|rounds| - 1])
  }

  lemma NothingIsTopOfNothing()
    ensures TopOf([], [])
  {
    assert forall t: real :: AtLeast([], t) == {};
  }

  lemma {:induction false} IncrementalIsTop(rounds: seq<seq<Hit>>)
    ensures TopOf(Incremental(rounds), Flatten(rounds))
  {
    if rounds == [] {
      NothingIsTopOfNothing();
    } else {
      IncrementalIsTop(rounds[..|rounds| - 1]);
      RoundKeepsTop(Incremental(rounds[..|rounds| - 1]), Flatten(rounds[..|rounds| - 1]), rounds[|rounds| - 1]);
    }
  }

  /** Retrieving in rounds and retrieving everything at once keep the same scores. */
  lemma IncrementalEqualsBatch(rounds: seq<seq<Hit>>)
    ensures TopOf(Incremental(rounds), Flatten(rounds))
    ensures Scores(Incremental(rounds)) == Scores(Merged([], Flatten(rounds)))
  {
    IncrementalIsTop(rounds);
    NothingIsTopOfNothing();
    RoundKeepsTop([], [], Flatten(rounds));
    assert [] + Flatten(rounds) == Flatten(rounds);
    TopScoresUnique(Incremental(rounds), Merged([], Flatten(rounds)), Flatten(rounds));
  }
}
