/** Entries of contents that stand alone, below a title or without one: whether they are dropped (rag/chunker.ts `tocLines`). */
module TocAlone {
  import opened Prelude
  import opened Toc
  import opened TocContents

  // ---------- what makes a series contents ----------

  /** How many of the entries begin like a numbered heading. */
  function Numbered(r: Reader, texts: seq<string>, entries: seq<Entry>): nat
    requires InLines(texts, entries)
  {
    |set k: nat | 0 <= k < |entries| && r.isHeadingStart(texts[entries[k].from])|
  }

  /** Three entries or more, below a title; or without one, if no leader is a mere bar, and all have dots or at least two in
      three begin like a numbered heading. */
  ghost predicate LooksLikeContents(r: Reader, texts: seq<string>, entries: seq<Entry>)
    requires InLines(texts, entries)
  {
    && |entries| >= 3
    && (|| (exists title: nat :: TitleAbove(r, texts, title, entries[0].from) && texts[title] != "")
        || (&& (forall e :: e in entries ==> !e.weak)
            && ((forall e :: e in entries ==> e.dots) || 3 * Numbered(r, texts, entries) >= 2 * |entries|)))
  }

  lemma {:induction false} NumberedMeaning(r: Reader, texts: seq<string>, entries: seq<Entry>)
    requires InLines(texts, entries)
    ensures NumberedEntries(r, texts, entries) == Numbered(r, texts, entries)
  {
    var some := set k: nat | 0 <= k < |entries| && r.isHeadingStart(texts[entries[k].from]);
    if entries != [] {
      var rest := entries[1..];
      NumberedMeaning(r, texts, rest);
      var fewer := set k: nat | 0 <= k < |rest| && r.isHeadingStart(texts[rest[k].from]);
      OneUp(fewer, some, r.isHeadingStart(texts[entries[0].from]));
    }
  }

  /** The same numbers, each one more. */
  lemma {:induction false} Shifted(fewer: set<nat>, up: set<nat>)
    requires forall k: nat :: k in up <==> k > 0 && k - 1 in fewer
    ensures |up| == |fewer|
    decreases fewer
  {
    if fewer != {} {
      var k :| k in fewer;
      assert k + 1 - 1 in fewer && k + 1 in up;
      Shifted(fewer - {k}, up - {k + 1});
    } else {
      assert forall k: nat :: k !in up;
      assert up == {};
    }
  }

  /** And zero, if it belongs to them. */
  lemma OneUp(fewer: set<nat>, some: set<nat>, first: bool)
    requires forall k: nat :: k in some <==> (k == 0 && first) || (k > 0 && k - 1 in fewer)
    ensures |some| == |fewer| + if first then 1 else 0
  {
    var up := some - {0};
    Shifted(fewer, up);
    assert 0 in some <==> first;
    assert some == up + if first then {0} else {};
  }

  lemma TitledByLine(r: Reader, texts: seq<string>, title: nat, first: nat)
    requires TitleAbove(r, texts, title, first) && texts[title] != ""
    ensures PrevText(texts, first) == Some(title)
  {
    var j := PrevText(texts, first).value;
    NonBlankMeaning(texts, title + 1, first, j);
  }

  lemma TitledMeaning(r: Reader, texts: seq<string>, first: nat)
    requires Sane(r) && first < |texts|
    ensures Titled(r, texts, first) <==> exists title: nat :: TitleAbove(r, texts, title, first) && texts[title] != ""
  {
    var before := PrevText(texts, first);
    if Titled(r, texts, first) {
      AllBlank(texts, before.value + 1, first);
      assert TitleAbove(r, texts, before.value, first);
    }
    if title: nat :| TitleAbove(r, texts, title, first) && texts[title] != "" {
      TitledByLine(r, texts, title, first);
    }
  }

  /** What the scan accepts as contents when a series ends. */
  lemma AcceptedIff(r: Reader, texts: seq<string>, entries: seq<Entry>)
    requires Sane(r) && InLines(texts, entries)
    ensures Accepted(r, texts, entries) <==> LooksLikeContents(r, texts, entries)
  {
    NumberedMeaning(r, texts, entries);
    if entries != [] { TitledMeaning(r, texts, entries[0].from); }
  }

  // ---------- a series that ends ----------

  /** Nothing below line `n` belongs to a series that is under way there: the text ends, or three lines that end no entry
      follow. */
  ghost predicate EndsBelow(r: Reader, texts: seq<string>, n: nat)
    requires n <= |texts|
  {
    var below := NonBlank(texts, n, |texts|);
    forall k :: 0 <= k < |below| && k <= WRAP_LINES && below[k] < |texts| ==> Plain(r, texts[below[k]])
  }

  /** Blocks and entries that came since stand below this line. */
  ghost predicate FarBelow(st: Scan, base: seq<Block>, line: nat) {
    && base <= st.blocks
    && (forall k :: |base| <= k < |st.blocks| ==> st.blocks[k].from > line)
    && (forall k :: 0 <= k < |st.series| ==> st.series[k].from > line)
    && forall k :: 0 <= k < |st.pending| ==> st.pending[k] > line
  }

  lemma ClosedFarBelow(r: Reader, texts: seq<string>, st: Scan, base: seq<Block>, line: nat)
    requires InLines(texts, st.series) && FarBelow(st, base, line) && line < |texts| && texts[line] != "" && !r.isTitle(texts[line])
    ensures FarBelow(Closed(r, texts, st), base, line)
  {
  }

  lemma StepFarBelow(r: Reader, texts: seq<string>, st: Scan, i: nat, base: seq<Block>, line: nat)
    requires i < |texts| && WellFormed(texts, st, i) && FarBelow(st, base, line)
    requires line < i && texts[line] != "" && !r.isTitle(texts[line])
    ensures FarBelow(StepLine(r, texts, st, i), base, line)
  {
    ClosedFarBelow(r, texts, st, base, line);
    ClosedFarBelow(r, texts, st.(pending := st.pending + [i]), base, line);
  }

  lemma {:induction false} RunFarBelow(r: Reader, texts: seq<string>, from: nat, n: nat, base: seq<Block>, line: nat)
    requires line < from <= n <= |texts| && FarBelow(Run(r, texts, from), base, line)
    requires texts[line] != "" && !r.isTitle(texts[line])
    ensures FarBelow(Run(r, texts, n), base, line)
    decreases n - from
  {
    if from < n {
      StepFarBelow(r, texts, Run(r, texts, from), from, base, line);
      RunFarBelow(r, texts, from + 1, n, base, line);
    }
  }

  // ---------- dropped or kept ----------

  lemma ClosedBlocks(r: Reader, texts: seq<string>, st: Scan, pending: seq<nat>, entries: seq<Entry>, after: Scan)
    requires InLines(texts, entries) && entries == st.series && after == Closed(r, texts, st.(pending := pending))
    ensures after.series == [] && after.pending == pending && after.since == st.since
    ensures after.blocks == st.blocks + if Accepted(r, texts, entries) then [BlockOf(r, texts, entries)] else []
  {
  }

  /** The blocks of the whole text: those above, this series if it is accepted, and others below it. */
  ghost predicate BlocksAround(r: Reader, texts: seq<string>, above: seq<Block>, entries: seq<Entry>)
    requires InLines(texts, entries) && entries != []
  {
    var base, all := above + (if Accepted(r, texts, entries) then [BlockOf(r, texts, entries)] else []), TocBlocks(r, texts);
    base <= all && forall k :: |base| <= k < |all| ==> all[k].from > entries[|entries| - 1].to
  }

  lemma EndsWithText(r: Reader, texts: seq<string>, n: nat, entries: seq<Entry>)
    requires n <= |texts| && Run(r, texts, n).series == entries && Run(r, texts, n).pending == []
    requires InLines(texts, entries) && entries != []
    requires |NonBlank(texts, n, |texts|)| <= WRAP_LINES && EndsBelow(r, texts, n)
    ensures BlocksAround(r, texts, Run(r, texts, n).blocks, entries)
  {
    var below := NonBlank(texts, n, |texts|);
    AllPlainBelow(r, texts, n, |texts|);
    ReadPlain(r, texts, n, |texts|);
    ClosedBlocks(r, texts, Run(r, texts, n), [] + below, entries, Closed(r, texts, Run(r, texts, |texts|)));
  }

  lemma AllPlainBelow(r: Reader, texts: seq<string>, n: nat, m: nat)
    requires n <= m <= |texts| && EndsBelow(r, texts, n) && |NonBlank(texts, n, m)| <= WRAP_LINES + 1
    ensures AllPlain(r, texts, n, m)
  {
    NonBlankSplit(texts, n, m, |texts|);
    var near, below := NonBlank(texts, n, m), NonBlank(texts, n, |texts|);
    forall i | n <= i < m && i < |texts| && texts[i] != ""
      ensures Plain(r, texts[i])
    {
      NonBlankMeaning(texts, n, m, i);
      var k :| 0 <= k < |near| && near[k] == i;
      assert below[k] == i;
    }
  }

  lemma EndsWithLines(r: Reader, texts: seq<string>, n: nat, entries: seq<Entry>)
    requires Sane(r) && n <= |texts| && Run(r, texts, n).series == entries && Run(r, texts, n).pending == []
    requires InLines(texts, entries) && entries != [] && entries[|entries| - 1].to + 1 == n
    requires |NonBlank(texts, n, |texts|)| > WRAP_LINES && EndsBelow(r, texts, n)
    ensures BlocksAround(r, texts, Run(r, texts, n).blocks, entries)
  {
    var t := NonBlank(texts, n, |texts|)[WRAP_LINES];
    ThirdLine(r, texts, n, t);
    LinesFrom(texts, n, t);
    TwoLinesWait(r, texts, n, t, NonBlank(texts, n, t));
    WaitsCloses(r, texts, Run(r, texts, n), NonBlank(texts, n, t), t, entries);
    LastLineEnds(r, texts, n, entries);
    LaterBelow(r, texts, t + 1, Run(r, texts, t + 1).blocks, entries[|entries| - 1].to);
  }

  lemma TwoLinesWait(r: Reader, texts: seq<string>, n: nat, t: nat, two: seq<nat>)
    requires n <= t <= |texts| && two == NonBlank(texts, n, t) && |two| == WRAP_LINES && AllPlain(r, texts, n, t)
    requires Run(r, texts, n).pending == []
    ensures Run(r, texts, t) == Run(r, texts, n).(pending := two)
  {
    ReadPlain(r, texts, n, t);
    assert [] + two == two;
  }

  lemma LaterBelow(r: Reader, texts: seq<string>, from: nat, base: seq<Block>, line: nat)
    requires line < from <= |texts| && FarBelow(Run(r, texts, from), base, line) && texts[line] != "" && !r.isTitle(texts[line])
    ensures base <= TocBlocks(r, texts) && forall k :: |base| <= k < |TocBlocks(r, texts)| ==> TocBlocks(r, texts)[k].from > line
  {
    RunFarBelow(r, texts, from, |texts|, base, line);
    ClosedFarBelow(r, texts, Run(r, texts, |texts|), base, line);
  }

  lemma LinesFrom(texts: seq<string>, n: nat, t: nat)
    requires t <= |texts|
    ensures forall k :: 0 <= k < |NonBlank(texts, n, t)| ==> NonBlank(texts, n, t)[k] >= n
  {
    forall k | 0 <= k < |NonBlank(texts, n, t)|
      ensures NonBlank(texts, n, t)[k] >= n
    {
      NonBlankSuffix(texts, n, t, k);
    }
  }

  lemma ThirdLine(r: Reader, texts: seq<string>, n: nat, t: nat)
    requires n <= |texts| && |NonBlank(texts, n, |texts|)| > WRAP_LINES && t == NonBlank(texts, n, |texts|)[WRAP_LINES]
    requires EndsBelow(r, texts, n)
    ensures n <= t < |texts| && Plain(r, texts[t]) && |NonBlank(texts, n, t)| == WRAP_LINES && AllPlain(r, texts, n, t)
  {
    NonBlankSuffix(texts, n, |texts|, WRAP_LINES);
    NonBlankSplit(texts, n, t, |texts|);
    AllPlainBelow(r, texts, n, t);
  }

  lemma WaitsCloses(r: Reader, texts: seq<string>, st: Scan, two: seq<nat>, t: nat, entries: seq<Entry>)
    requires t < |texts| && Run(r, texts, t) == st.(pending := two) && |two| == WRAP_LINES && st.series == entries && InLines(texts, entries)
    requires Plain(r, texts[t]) && entries != [] && forall k :: 0 <= k < |two| ==> two[k] > entries[|entries| - 1].to
    requires t > entries[|entries| - 1].to
    ensures var after := Run(r, texts, t + 1);
            && after.blocks == st.blocks + (if Accepted(r, texts, entries) then [BlockOf(r, texts, entries)] else [])
            && FarBelow(after, after.blocks, entries[|entries| - 1].to)
  {
    ClosedBlocks(r, texts, st, two + [t], entries, Closed(r, texts, st.(pending := two + [t])));
  }

  lemma LastLineEnds(r: Reader, texts: seq<string>, n: nat, entries: seq<Entry>)
    requires Sane(r) && n <= |texts| && Run(r, texts, n).series == entries && entries != []
    ensures var line := entries[|entries| - 1].to; line < |texts| && texts[line] != "" && !r.isTitle(texts[line])
  {
    RunInv(r, texts, n);
    assert OkAt(r, texts, entries, |entries| - 1);
    EntryIsNoTitle(r, texts, entries[|entries| - 1]);
  }

  /** Lines of blocks above are not lines of this series. */
  lemma NotAbove(r: Reader, texts: seq<string>, n: nat, i: nat)
    requires Sane(r) && n <= |texts| && Run(r, texts, n).series != [] && i >= Run(r, texts, n).series[0].from
    ensures i !in Removed(Run(r, texts, n).blocks)
  {
    var st := Run(r, texts, n);
    RunInv(r, texts, n);
    RemovedMeaning(st.blocks, i);
    if i in Removed(st.blocks) {
      var k :| 0 <= k < |st.blocks| && InBlock(st.blocks[k], i);
      var last := |st.blocks| - 1;
      if k < last {
        BlocksApart(r, texts, st.blocks, k, last);
        assert BlockOkAt(r, texts, st.blocks, last);
        BlockSpans(r, texts, st.blocks[last]);
      }
    }
  }

  lemma RemovedAround(r: Reader, texts: seq<string>, above: seq<Block>, entries: seq<Entry>, i: nat)
    requires InLines(texts, entries) && entries != [] && BlocksAround(r, texts, above, entries)
    requires entries[0].from <= i <= entries[|entries| - 1].to && i !in Removed(above)
    ensures i in Removed(TocBlocks(r, texts)) <==> Accepted(r, texts, entries)
  {
    var all := TocBlocks(r, texts);
    RemovedMeaning(all, i);
    RemovedMeaning(above, i);
    if Accepted(r, texts, entries) {
      assert all[|above|] == BlockOf(r, texts, entries) && InBlock(all[|above|], i);
    }
    assert forall k :: 0 <= k < |above| ==> all[k] == above[k] && !InBlock(above[k], i);
  }

  /** A series that ends: its lines are dropped if and only if it looks like contents. */
  lemma SeriesRemovedIff(r: Reader, texts: seq<string>, n: nat, entries: seq<Entry>, i: nat)
    requires Sane(r) && n <= |texts| && Run(r, texts, n).series == entries && Run(r, texts, n).pending == []
    requires InLines(texts, entries) && entries != [] && entries[|entries| - 1].to + 1 == n && EndsBelow(r, texts, n)
    requires entries[0].from <= i <= entries[|entries| - 1].to
    ensures i in Removed(TocBlocks(r, texts)) <==> LooksLikeContents(r, texts, entries)
  {
    if |NonBlank(texts, n, |texts|)| <= WRAP_LINES {
      EndsWithText(r, texts, n, entries);
    } else {
      EndsWithLines(r, texts, n, entries);
    }
    NotAbove(r, texts, n, i);
    RemovedAround(r, texts, Run(r, texts, n).blocks, entries, i);
    AcceptedIff(r, texts, entries);
  }

  // ---------- entries one below the other ----------

  /** Entries one below the other, pages in order, each as its last line reads; the first is one line, no series is under way
      there, and no title is two or three lines of text above it, so that what is between is not taken for its beginning. */
  ghost predicate Listed(r: Reader, texts: seq<string>, entries: seq<Entry>) {
    && entries != [] && InLines(texts, entries)
    && (forall k :: 0 <= k < |entries| ==> ReadAs(r, texts, entries, k))
    && (forall k :: 0 < k < |entries| ==> Follows(texts, entries, k))
    && entries[0].from == entries[0].to && r.tail(texts[entries[0].to]).Some? && Apart(r, texts, entries)
    && NoTitleAbove(r, texts, entries[0].from)
  }

  ghost predicate NoTitleAbove(r: Reader, texts: seq<string>, i: nat)
    requires i <= |texts|
  {
    var above := NonBlank(texts, 0, i);
    forall k :: |above| - 3 <= k < |above| - 1 && 0 <= k && above[k] < |texts| ==> !r.isTitle(texts[above[k]])
  }

  ghost predicate ReadAs(r: Reader, texts: seq<string>, entries: seq<Entry>, k: nat)
    requires k < |entries|
  {
    var e := entries[k];
    && Written(r, texts, e)
    && var tail := r.tail(texts[e.to]);
       e.weak == (tail.Some? && tail.value.weak) && e.dots == (tail.Some? && tail.value.dots)
  }

  lemma NoneWraps(r: Reader, texts: seq<string>, st: Scan, i: nat)
    requires i < |texts| && WellFormed(texts, st, i) && st.series == [] && st.since <= i && st.pending == NonBlank(texts, st.since, i)
    requires NoTitleAbove(r, texts, i)
    ensures Wrapped(r, texts, [], st.pending, true) == []
  {
    var before, above, n := NonBlank(texts, 0, st.since), NonBlank(texts, 0, i), |st.pending|;
    NonBlankSplit(texts, 0, st.since, i);
    assert forall k :: 0 <= k < n ==> above[|before| + k] == st.pending[k];
    if n > 1 { assert above[|before| + (n - 2)] == st.pending[n - 2]; }
    if n > 2 { assert above[|before| + (n - 3)] == st.pending[n - 3]; }
  }

  lemma FirstRead(r: Reader, texts: seq<string>, entries: seq<Entry>)
    requires Sane(r) && Listed(r, texts, entries)
    ensures ReadTo(r, texts, entries, 0)
  {
    var i := entries[0].to;
    assert ReadAs(r, texts, entries, 0);
    RunInv(r, texts, i);
    var st := Run(r, texts, i);
    NoneWraps(r, texts, st, i);
    EntryStep(r, texts, st, i);
    assert EntryAt(r, texts, st, i) == entries[0];
    assert [] + [entries[0]] == entries[..1];
  }

  lemma NextRead(r: Reader, texts: seq<string>, st: Scan, entries: seq<Entry>, k: nat, ws: seq<nat>)
    requires 0 < k < |entries| && ReadAs(r, texts, entries, k) && WellFormed(texts, st, entries[k].to)
    requires st.series == entries[..k] && st.pending == ws && ws == NonBlank(texts, entries[k].from, entries[k].to)
    requires entries[k - 1].page <= entries[k].page
    ensures var next := StepLine(r, texts, st, entries[k].to); next.series == entries[..k + 1] && next.pending == []
  {
    var e := entries[k];
    LinesOfEntry(r, texts, e, ws);
    if e.from == e.to { assert ws == []; }
    EntryStep(r, texts, st, e.to);
    assert EntryAt(r, texts, st, e.to) == e;
    assert entries[..k] + [e] == entries[..k + 1];
  }

  lemma {:induction false} ListedRead(r: Reader, texts: seq<string>, entries: seq<Entry>, k: nat)
    requires k < |entries| && InLines(texts, entries) && ReadTo(r, texts, entries, 0)
    requires forall j :: 0 < j < |entries| ==> ReadAs(r, texts, entries, j) && Follows(texts, entries, j)
    ensures ReadTo(r, texts, entries, k)
  {
    if k > 0 {
      ListedRead(r, texts, entries, k - 1);
      OneMoreRead(r, texts, entries, k);
    }
  }

  /** Behind this entry the series is all of them so far. */
  ghost predicate ReadTo(r: Reader, texts: seq<string>, entries: seq<Entry>, k: nat)
    requires k < |entries| && InLines(texts, entries)
  {
    var st := Run(r, texts, entries[k].to + 1);
    st.series == entries[..k + 1] && st.pending == []
  }

  lemma OneMoreRead(r: Reader, texts: seq<string>, entries: seq<Entry>, k: nat)
    requires 0 < k < |entries| && InLines(texts, entries) && ReadAs(r, texts, entries, k) && Follows(texts, entries, k)
    requires ReadTo(r, texts, entries, k - 1)
    ensures ReadTo(r, texts, entries, k)
  {
    var at, e := entries[k - 1].to + 1, entries[k];
    LinesWait(r, texts, at, e);
    NextRead(r, texts, Run(r, texts, e.to), entries, k, NonBlank(texts, e.from, e.to));
  }

  lemma LinesWait(r: Reader, texts: seq<string>, at: nat, e: Entry)
    requires Written(r, texts, e) && at <= e.from && NonBlank(texts, at, e.from) == [] && Run(r, texts, at).pending == []
    ensures Run(r, texts, e.to) == Run(r, texts, at).(pending := NonBlank(texts, e.from, e.to))
  {
    BlankIsPlain(r, texts, at, e.from, e.to);
    ReadPlain(r, texts, at, e.to);
    assert [] + NonBlank(texts, e.from, e.to) == NonBlank(texts, e.from, e.to);
  }

  lemma SeriesListed(r: Reader, texts: seq<string>, entries: seq<Entry>, n: nat)
    requires Sane(r) && Listed(r, texts, entries) && n == entries[|entries| - 1].to + 1
    ensures n <= |texts| && Run(r, texts, n).series == entries && Run(r, texts, n).pending == []
  {
    FirstRead(r, texts, entries);
    ListedRead(r, texts, entries, |entries| - 1);
    assert entries[..|entries|] == entries;
  }

  /** Entries one below the other that nothing continues, whether under a title or not: their lines are dropped if and only if
      they look like contents. */
  lemma ListedRemovedIff(r: Reader, texts: seq<string>, entries: seq<Entry>, i: nat)
    requires Sane(r) && Listed(r, texts, entries) && EndsBelow(r, texts, entries[|entries| - 1].to + 1)
    requires entries[0].from <= i <= entries[|entries| - 1].to
    ensures i in Removed(TocBlocks(r, texts)) <==> LooksLikeContents(r, texts, entries)
  {
    var n := entries[|entries| - 1].to + 1;
    SeriesListed(r, texts, entries, n);
    SeriesRemovedIff(r, texts, n, entries, i);
  }
}
