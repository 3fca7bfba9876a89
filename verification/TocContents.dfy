/** Contents whose entries may take several lines: they go whole if their title is found (rag/chunker.ts `tocLines`). */
module TocContents {
  import opened Collections
  import opened Prelude
  import opened Toc

  /** An entry as written: up to two lines of text and the line that ends it, with a page as its tail or as its whole text. */
  ghost predicate Written(r: Reader, texts: seq<string>, e: Entry) {
    && e.from <= e.to < |texts| && texts[e.from] != "" && texts[e.to] != ""
    && |NonBlank(texts, e.from, e.to)| <= WRAP_LINES && AllPlain(r, texts, e.from, e.to)
    && EndsEntry(r, texts[e.to], e.page) && (r.tail(texts[e.to]).None? ==> e.from < e.to)
  }

  ghost predicate AllPlain(r: Reader, texts: seq<string>, a: nat, b: nat) {
    forall i :: a <= i < b && i < |texts| && texts[i] != "" ==> Plain(r, texts[i])
  }

  /** Entries one below the other, pages in order, and the first right below its title; one that ends with a bare page begins
      like a numbered heading, which its title does not. */
  ghost predicate Contents(r: Reader, texts: seq<string>, title: nat, entries: seq<Entry>) {
    && title < |texts| && r.isTitle(texts[title]) && entries != [] && InLines(texts, entries)
    && (forall k :: 0 <= k < |entries| ==> WrittenAt(r, texts, entries, k))
    && (forall k :: 0 < k < |entries| ==> Follows(texts, entries, k))
    && title < entries[0].from && NonBlank(texts, title + 1, entries[0].from) == []
    && (r.tail(texts[entries[0].to]).None? ==>
          r.isHeadingStart(texts[entries[0].from]) && !r.isHeadingStart(texts[title]))
  }

  ghost predicate WrittenAt(r: Reader, texts: seq<string>, entries: seq<Entry>, k: nat)
    requires k < |entries|
  {
    Written(r, texts, entries[k])
  }

  // ---------- reading on ----------

  lemma PlainStep(r: Reader, texts: seq<string>, st: Scan, i: nat)
    requires i < |texts| && WellFormed(texts, st, i) && Plain(r, texts[i]) && (st.series == [] || |st.pending| < WRAP_LINES)
    ensures StepLine(r, texts, st, i) == st.(pending := st.pending + [i])
  {
  }

  /** Blank lines change nothing, and plain ones wait, as long as no series is under way or there is room for them. */
  lemma {:induction false} ReadPlain(r: Reader, texts: seq<string>, a: nat, b: nat)
    requires a <= b <= |texts| && AllPlain(r, texts, a, b)
    requires Run(r, texts, a).series == [] || |Run(r, texts, a).pending| + |NonBlank(texts, a, b)| <= WRAP_LINES
    ensures Run(r, texts, b) == Run(r, texts, a).(pending := Run(r, texts, a).pending + NonBlank(texts, a, b))
    decreases b
  {
    var st := Run(r, texts, a);
    if a == b {
      assert st.pending + [] == st.pending;
    } else {
      ReadPlain(r, texts, a, b - 1);
      PlainLine(r, texts, st, NonBlank(texts, a, b - 1), b - 1);
    }
  }

  lemma PlainLine(r: Reader, texts: seq<string>, first: Scan, read: seq<nat>, i: nat)
    requires i < |texts| && Run(r, texts, i) == first.(pending := first.pending + read)
    requires texts[i] != "" ==> Plain(r, texts[i]) && (first.series == [] || |first.pending| + |read| < WRAP_LINES)
    ensures Run(r, texts, i + 1) == first.(pending := first.pending + if texts[i] != "" then read + [i] else read)
  {
    if texts[i] != "" {
      PlainStep(r, texts, Run(r, texts, i), i);
      Associates(first.pending, read, [i]);
    }
  }

  // ---------- the first entry ----------

  lemma WrappedByPage(r: Reader, texts: seq<string>, pending: seq<nat>, before: seq<nat>, title: nat, ws: seq<nat>)
    requires PendingIn(texts, pending) && pending == before + [title] + ws && 0 < |ws| <= WRAP_LINES
    requires title < |texts| && ws[0] < |texts| && r.isHeadingStart(texts[ws[0]]) && !r.isHeadingStart(texts[title])
    ensures Wrapped(r, texts, [], pending, false) == ws
  {
    var recent := LastOf(pending, WRAP_LINES);
    if |ws| == 1 {
      assert recent == [title, ws[0]];
      assert FirstHeading(r, texts, recent) == 1 by { assert recent[1..] == [ws[0]]; }
      assert recent[1..] == ws;
    } else {
      assert recent == ws;
      assert ws[0..] == ws;
    }
  }

  lemma WrappedByTail(r: Reader, texts: seq<string>, pending: seq<nat>, before: seq<nat>, title: nat, ws: seq<nat>) returns (m: nat)
    requires PendingIn(texts, pending) && pending == before + [title] + ws && |ws| <= WRAP_LINES
    requires title < |texts| && r.isTitle(texts[title])
    ensures 0 < m <= |before| + 1 && m <= |pending| && r.isTitle(texts[pending[m - 1]])
    ensures Wrapped(r, texts, [], pending, true) == pending[m..]
  {
    var n := |pending|;
    assert pending[|before|] == title;
    m := if n > 2 && r.isTitle(texts[pending[n - 3]]) then n - 2 else if n > 1 && r.isTitle(texts[pending[n - 2]]) then n - 1 else n;
  }

  /** Lines above the title, the title and the lines of the first entry wait: the entry begins right below a title. */
  lemma WrappedFirst(r: Reader, texts: seq<string>, pending: seq<nat>, before: seq<nat>, title: nat, ws: seq<nat>, hasTail: bool)
    returns (m: nat)
    requires PendingIn(texts, pending) && pending == before + [title] + ws && |ws| <= WRAP_LINES
    requires title < |texts| && r.isTitle(texts[title]) && PendingIn(texts, ws)
    requires !hasTail ==> ws != [] && r.isHeadingStart(texts[ws[0]]) && !r.isHeadingStart(texts[title])
    ensures 0 < m <= |before| + 1 && m <= |pending| && r.isTitle(texts[pending[m - 1]])
    ensures Wrapped(r, texts, [], pending, hasTail) == pending[m..]
  {
    if hasTail {
      m := WrappedByTail(r, texts, pending, before, title, ws);
    } else {
      WrappedByPage(r, texts, pending, before, title, ws);
      m := |before| + 1;
      assert pending[|before|] == title && pending[m..] == ws;
    }
  }

  lemma TitledAt(r: Reader, texts: seq<string>, a: nat, b: nat, pending: seq<nat>, m: nat, last: nat)
    requires b < |texts| && pending == NonBlank(texts, a, b) && 0 < m <= |pending| && m - 1 <= last < |pending|
    ensures var from := if m < |pending| then pending[m] else b;
            from <= b && PrevText(texts, from) == Some(pending[m - 1]) && pending[m - 1] <= pending[last]
  {
    PendingOrdered(texts, a, b, m - 1, last);
    if m < |pending| {
      PrevPending(texts, a, b, m);
      NonBlankSuffix(texts, a, b, m);
    } else {
      NonBlankSuffix(texts, a, b, m - 1);
      NothingBetween(texts, pending[m - 1], b);
    }
  }

  /** What the scan has when the first `k` entries are read. */
  ghost predicate Read(r: Reader, texts: seq<string>, title: nat, entries: seq<Entry>, k: nat, st: Scan)
    requires 0 < k <= |entries|
  {
    && |st.series| == k && st.pending == [] && Caught(r, texts, st.series, title)
    && st.series[k - 1].to == entries[k - 1].to && st.series[k - 1].page == entries[k - 1].page
  }

  lemma FirstEntryEnds(r: Reader, texts: seq<string>, st: Scan, title: nat, e: Entry, before: seq<nat>, ws: seq<nat>)
    requires Written(r, texts, e) && WellFormed(texts, st, e.to) && st.series == [] && st.pending == NonBlank(texts, st.since, e.to)
    requires st.since <= e.to && st.pending == before + [title] + ws && |ws| <= WRAP_LINES && title < |texts| && r.isTitle(texts[title])
    requires PendingIn(texts, ws) && (r.tail(texts[e.to]).None? ==>
               ws != [] && r.isHeadingStart(texts[ws[0]]) && !r.isHeadingStart(texts[title]))
    ensures Read(r, texts, title, [e], 1, StepLine(r, texts, st, e.to))
  {
    var i := e.to;
    var m := WrappedFirst(r, texts, st.pending, before, title, ws, r.tail(texts[i]).Some?);
    TitledAt(r, texts, st.since, i, st.pending, m, |before|);
    assert st.pending[|before|] == title;
    var from := if m < |st.pending| then st.pending[m] else i;
    var entry := EntryAt(r, texts, st, i);
    assert entry.from == from && entry.page == e.page;
    EntryStep(r, texts, st, i);
    assert [] + [entry] == [entry];
  }

  // ---------- the others ----------

  lemma NextEntryEnds(r: Reader, texts: seq<string>, st: Scan, title: nat, entries: seq<Entry>, k: nat, ws: seq<nat>)
    requires 0 < k < |entries| && Written(r, texts, entries[k]) && WellFormed(texts, st, entries[k].to)
    requires Read(r, texts, title, entries, k, st.(pending := [])) && st.pending == ws
    requires ws == NonBlank(texts, entries[k].from, entries[k].to) && entries[k - 1].page <= entries[k].page
    ensures Read(r, texts, title, entries, k + 1, StepLine(r, texts, st, entries[k].to))
  {
    var e := entries[k];
    if r.tail(texts[e.to]).None? { NonBlankMeaning(texts, e.from, e.to, e.from); }
    EntryStep(r, texts, st, e.to);
    var entry := EntryAt(r, texts, st, e.to);
    if ws != [] { NonBlankMeaning(texts, e.from, e.to, ws[0]); }
    CaughtGrows(r, texts, st.series, entry, title);
  }

  // ---------- the lines of an entry ----------

  lemma WrittenLines(r: Reader, texts: seq<string>, entries: seq<Entry>, title: nat, k: nat)
    requires Contents(r, texts, title, entries) && k < |entries|
    ensures Written(r, texts, entries[k])
    ensures k > 0 ==> Follows(texts, entries, k)
  {
    assert WrittenAt(r, texts, entries, k);
    if k > 0 { assert Follows(texts, entries, k); }
  }

  lemma BlankIsPlain(r: Reader, texts: seq<string>, a: nat, b: nat, c: nat)
    requires a <= b <= c <= |texts| && NonBlank(texts, a, b) == [] && AllPlain(r, texts, b, c)
    ensures AllPlain(r, texts, a, c) && NonBlank(texts, a, c) == NonBlank(texts, b, c)
  {
    NonBlankSplit(texts, a, b, c);
    assert [] + NonBlank(texts, b, c) == NonBlank(texts, b, c);
    forall i | a <= i < c && i < |texts| && texts[i] != ""
      ensures Plain(r, texts[i])
    {
      if i < b { NonBlankMeaning(texts, a, b, i); }
    }
  }

  // ---------- whether the title is found ----------

  /** No series is under way where the first entry ends. */
  predicate Apart(r: Reader, texts: seq<string>, entries: seq<Entry>)
    requires entries != [] && entries[0].to <= |texts|
  {
    Run(r, texts, entries[0].to).series == []
  }

  lemma WaitStep(r: Reader, texts: seq<string>, st: Scan, i: nat)
    requires i < |texts| && WellFormed(texts, st, i) && (texts[i] != "" ==> Plain(r, texts[i]))
    ensures var next := StepLine(r, texts, st, i); next.since == st.since && (next.series == [] || next.series == st.series)
  {
  }

  lemma {:induction false} SinceStays(r: Reader, texts: seq<string>, a: nat, b: nat)
    requires a <= b <= |texts| && AllPlain(r, texts, a, b)
    ensures Run(r, texts, b).since == Run(r, texts, a).since
    ensures Run(r, texts, b).series == [] || Run(r, texts, b).series == Run(r, texts, a).series
    decreases b
  {
    if a < b {
      SinceStays(r, texts, a, b - 1);
      WaitStep(r, texts, Run(r, texts, b - 1), b - 1);
    }
  }

  lemma TitleIsPlain(r: Reader, line: string)
    requires Sane(r) && r.isTitle(line)
    ensures Plain(r, line)
  {
    assert !EndsInDigit(line);
  }

  lemma LinesBelowTitle(r: Reader, texts: seq<string>, title: nat, entries: seq<Entry>)
    requires Sane(r) && Contents(r, texts, title, entries)
    ensures AllPlain(r, texts, title, entries[0].to)
    ensures NonBlank(texts, title, entries[0].to) == [title] + NonBlank(texts, entries[0].from, entries[0].to)
  {
    var e := entries[0];
    WrittenLines(r, texts, entries, title, 0);
    TitleIsPlain(r, texts[title]);
    BlankIsPlain(r, texts, title + 1, e.from, e.to);
    NonBlankSplit(texts, title, title + 1, e.to);
    assert NonBlank(texts, title, title) == [];
    assert NonBlank(texts, title, title + 1) == [title];
  }

  /** Where the first entry ends, the title and its lines wait, below whatever waits above the title. */
  lemma TitleWaits(r: Reader, texts: seq<string>, title: nat, entries: seq<Entry>) returns (before: seq<nat>)
    requires Sane(r) && Contents(r, texts, title, entries)
    ensures var e, st := entries[0], Run(r, texts, entries[0].to);
            st.since <= title && st.pending == before + [title] + NonBlank(texts, e.from, e.to)
  {
    var e := entries[0];
    WrittenLines(r, texts, entries, title, 0);
    LinesBelowTitle(r, texts, title, entries);
    SinceStays(r, texts, title, e.to);
    RunInv(r, texts, title);
    RunInv(r, texts, e.to);
    var since := Run(r, texts, e.to).since;
    before := NonBlank(texts, since, title);
    NonBlankSplit(texts, since, title, e.to);
    Associates(before, [title], NonBlank(texts, e.from, e.to));
  }

  lemma ReadFirst(r: Reader, texts: seq<string>, title: nat, entries: seq<Entry>)
    requires Sane(r) && Contents(r, texts, title, entries) && Apart(r, texts, entries)
    ensures Read(r, texts, title, entries, 1, Run(r, texts, entries[0].to + 1))
  {
    var e := entries[0];
    WrittenLines(r, texts, entries, title, 0);
    var before := TitleWaits(r, texts, title, entries);
    RunInv(r, texts, e.to);
    var ws := NonBlank(texts, e.from, e.to);
    LinesOfEntry(r, texts, e, ws);
    FirstEntryEnds(r, texts, Run(r, texts, e.to), title, e, before, ws);
  }

  lemma PrevOfFirst(texts: seq<string>, last: nat, b: nat)
    requires last < b <= |texts| && texts[last] != "" && NonBlank(texts, last + 1, b) != []
    ensures var first := NonBlank(texts, last + 1, b)[0]; first <= |texts| && PrevText(texts, first) == Some(last)
  {
    var first := NonBlank(texts, last + 1, b)[0];
    NonBlankSuffix(texts, last + 1, b, 0);
    NonBlankSplit(texts, last, last + 1, first);
    assert NonBlank(texts, last, last) == [];
    assert NonBlank(texts, last, last + 1) == [last];
    NothingBetween(texts, last, first);
  }

  /** With a series under way the first entry begins at the line below that series, no later than at the title. */
  lemma TitleSwallowed(r: Reader, texts: seq<string>, title: nat, entries: seq<Entry>)
    requires Sane(r) && Contents(r, texts, title, entries) && !Apart(r, texts, entries)
    ensures var st := Run(r, texts, entries[0].to + 1);
            st.series != [] && !Titled(r, texts, st.series[|st.series| - 1].from) && st.series[|st.series| - 1].from <= title
  {
    var e := entries[0];
    WrittenLines(r, texts, entries, title, 0);
    var before := TitleWaits(r, texts, title, entries);
    RunInv(r, texts, e.to);
    TitleIn(texts, Run(r, texts, e.to).since, e.to, before, title, NonBlank(texts, e.from, e.to));
    BelowSeries(r, texts, Run(r, texts, e.to), e.to);
    EntryStep(r, texts, Run(r, texts, e.to), e.to);
  }

  /** The first line that waits below a series is right below its last entry, which is no title. */
  lemma BelowSeries(r: Reader, texts: seq<string>, st: Scan, n: nat)
    requires Sane(r) && Inv(r, texts, st, n) && st.series != [] && st.pending != []
    ensures st.pending[0] < |texts| && !Titled(r, texts, st.pending[0])
  {
    var last := st.series[|st.series| - 1];
    assert OkAt(r, texts, st.series, |st.series| - 1);
    EntryIsNoTitle(r, texts, last);
    PrevOfFirst(texts, last.to, n);
    NonBlankSuffix(texts, st.since, n, 0);
  }

  lemma TitleIn(texts: seq<string>, a: nat, b: nat, before: seq<nat>, title: nat, ws: seq<nat>)
    requires b <= |texts| && NonBlank(texts, a, b) == before + [title] + ws
    ensures NonBlank(texts, a, b)[0] <= title
  {
    assert NonBlank(texts, a, b)[|before|] == title;
    PendingOrdered(texts, a, b, 0, |before|);
  }

  /** The entry read first begins right below a title if and only if no series is under way where it ends. */
  lemma TitleFoundIff(r: Reader, texts: seq<string>, title: nat, entries: seq<Entry>)
    requires Sane(r) && Contents(r, texts, title, entries)
    ensures var st := Run(r, texts, entries[0].to + 1);
            st.series != [] && (Titled(r, texts, st.series[|st.series| - 1].from) <==> Apart(r, texts, entries))
  {
    if Apart(r, texts, entries) {
      ReadFirst(r, texts, title, entries);
    } else {
      TitleSwallowed(r, texts, title, entries);
    }
  }

  /** No series is, if the two lines of text above the title end no entry. */
  lemma DetachedIsApart(r: Reader, texts: seq<string>, title: nat, entries: seq<Entry>)
    requires Sane(r) && Contents(r, texts, title, entries) && Detached(r, texts, title)
    ensures Apart(r, texts, entries)
  {
    AfterTitle(r, texts, title);
    LinesBelowTitle(r, texts, title, entries);
    WrittenLines(r, texts, entries, title, 0);
    SinceStays(r, texts, title + 1, entries[0].to);
  }

  lemma LinesOfEntry(r: Reader, texts: seq<string>, e: Entry, ws: seq<nat>)
    requires Written(r, texts, e) && ws == NonBlank(texts, e.from, e.to)
    ensures PendingIn(texts, ws) && (e.from < e.to ==> ws != [] && ws[0] == e.from)
  {
    forall k | 0 <= k < |ws|
      ensures ws[k] < |texts|
    {
      NonBlankSuffix(texts, e.from, e.to, k);
    }
    if e.from < e.to {
      NonBlankSplit(texts, e.from, e.from + 1, e.to);
      assert NonBlank(texts, e.from, e.from + 1) == NonBlank(texts, e.from, e.from) + [e.from];
      assert NonBlank(texts, e.from, e.from) == [];
    }
  }

  // ---------- all of them ----------

  lemma ReadNext(r: Reader, texts: seq<string>, title: nat, entries: seq<Entry>, k: nat)
    requires Sane(r) && Contents(r, texts, title, entries) && 0 < k < |entries|
    requires Read(r, texts, title, entries, k, Run(r, texts, entries[k - 1].to + 1))
    ensures Read(r, texts, title, entries, k + 1, Run(r, texts, entries[k].to + 1))
  {
    var at, e := entries[k - 1].to + 1, entries[k];
    WrittenLines(r, texts, entries, title, k);
    BlankIsPlain(r, texts, at, e.from, e.to);
    ReadPlain(r, texts, at, e.to);
    var ws := NonBlank(texts, e.from, e.to);
    assert [] + ws == ws;
    NextEntryEnds(r, texts, Run(r, texts, e.to), title, entries, k, ws);
  }

  lemma {:induction false} AllRead(r: Reader, texts: seq<string>, title: nat, entries: seq<Entry>, k: nat)
    requires Sane(r) && Contents(r, texts, title, entries) && Apart(r, texts, entries) && 0 < k <= |entries|
    ensures Read(r, texts, title, entries, k, Run(r, texts, entries[k - 1].to + 1))
  {
    if k == 1 {
      ReadFirst(r, texts, title, entries);
    } else {
      AllRead(r, texts, title, entries, k - 1);
      ReadNext(r, texts, title, entries, k - 1);
    }
  }

  /** Contents of three entries or more go whole, however their entries wrap, from the title down to the last page number,
      whatever stands above and follows them, if no series is under way where the first entry ends. */
  lemma ContentsAreRemoved(r: Reader, texts: seq<string>, title: nat, entries: seq<Entry>, i: nat)
    requires Sane(r) && Contents(r, texts, title, entries) && Apart(r, texts, entries) && |entries| >= MIN_ENTRIES
    requires title <= i <= entries[|entries| - 1].to
    ensures i in Removed(TocBlocks(r, texts))
  {
    var n := |entries|;
    AllRead(r, texts, title, entries, n);
    WrittenLines(r, texts, entries, title, n - 1);
    SeriesRemoved(r, texts, entries[n - 1].to + 1, Run(r, texts, entries[n - 1].to + 1).series, title, i);
  }

  // ---------- a title too close below another series ----------

  /** A line with page `page` behind a gap, that begins no numbered heading. */
  predicate Row(r: Reader, line: string, page: nat) {
    line != "" && r.tail(line) == Some(Tail(page, false, false)) && !r.isHeadingStart(line) && !r.isTitle(line)
  }

  lemma RowStep(r: Reader, texts: seq<string>, st: Scan, i: nat, page: nat)
    requires i < |texts| && WellFormed(texts, st, i) && Row(r, texts[i], page)
    requires st.series != [] && |st.series| < MIN_ENTRIES
    ensures StepLine(r, texts, st, i)
         == Scan((if page < st.series[|st.series| - 1].page then [] else st.series) + [RowEntry(st, i, page)], [], st.blocks, i + 1)
  {
    assert [] + [RowEntry(st, i, page)] == [RowEntry(st, i, page)];
  }

  function RowEntry(st: Scan, i: nat, page: nat): Entry {
    Entry(if st.pending != [] then st.pending[0] else i, i, page, false, false)
  }

  lemma RowRun(r: Reader, texts: seq<string>, n: nat, page: nat, st: Scan, next: Scan)
    requires n < |texts| && Run(r, texts, n) == st && Row(r, texts[n], page) && st.series != [] && |st.series| < MIN_ENTRIES
    requires next == Scan((if page < st.series[|st.series| - 1].page then [] else st.series) + [RowEntry(st, n, page)], [], st.blocks, n + 1)
    ensures Run(r, texts, n + 1) == next
  {
    RowStep(r, texts, st, n, page);
  }

  lemma FirstRow(r: Reader, texts: seq<string>, n: nat, page: nat, e: Entry)
    requires n == 0 < |texts| && Row(r, texts[0], page) && e == Entry(0, 0, page, false, false)
    ensures Run(r, texts, n + 1) == Scan([e], [], [], 1)
  {
    assert [] + [e] == [e];
    assert Wrapped(r, texts, [], [], true) == [];
  }

  lemma TitleRun(r: Reader, texts: seq<string>, n: nat, st: Scan)
    requires n < |texts| && Run(r, texts, n) == st && Plain(r, texts[n]) && st.pending == []
    ensures Run(r, texts, n + 1) == st.(pending := [n])
  {
    PlainStep(r, texts, st, n);
    assert st.pending + [n] == [n];
  }

  /** A row of a table, the title right below it, and three entries of contents with gaps: the title counts as the second
      line of a row, and the series without a title is kept as text. */
  lemma TitleTooClose(r: Reader, texts: seq<string>, first: nat)
    requires first == 0 && |texts| == 5 && Row(r, texts[0], 7) && r.isTitle(texts[1]) && Plain(r, texts[1])
    requires !r.isHeadingStart(texts[1]) && Row(r, texts[2], 1) && Row(r, texts[3], 2) && Row(r, texts[4], 3)
    ensures Contents(r, texts, 1, [Entry(2, 2, 1, false, false), Entry(3, 3, 2, false, false), Entry(4, 4, 3, false, false)])
    ensures TocBlocks(r, texts) == []
  {
    var e0, e1, e2, e3 := Entry(0, 0, 7, false, false), Entry(1, 2, 1, false, false), Entry(3, 3, 2, false, false), Entry(4, 4, 3, false, false);
    FirstRow(r, texts, first, 7, e0);
    TitleRun(r, texts, first + 1, Scan([e0], [], [], 1));
    assert [] + [e1] == [e1];
    RowRun(r, texts, first + 2, 1, Scan([e0], [1], [], 1), Scan([e1], [], [], 3));
    assert [e1] + [e2] == [e1, e2];
    RowRun(r, texts, first + 3, 2, Scan([e1], [], [], 3), Scan([e1, e2], [], [], 4));
    assert [e1, e2] + [e3] == [e1, e2, e3];
    RowRun(r, texts, first + 4, 3, Scan([e1, e2], [], [], 4), Scan([e1, e2, e3], [], [], 5));
    NotTaken(r, texts, [e1, e2, e3]);
    RowsAreContents(r, texts, [Entry(2, 2, 1, false, false), e2, e3]);
  }

  lemma RowsAreContents(r: Reader, texts: seq<string>, entries: seq<Entry>)
    requires |texts| == 5 && r.isTitle(texts[1]) && Row(r, texts[2], 1) && Row(r, texts[3], 2) && Row(r, texts[4], 3)
    requires entries == [Entry(2, 2, 1, false, false), Entry(3, 3, 2, false, false), Entry(4, 4, 3, false, false)]
    ensures Contents(r, texts, 1, entries)
  {
    forall k | 0 <= k < |entries|
      ensures WrittenAt(r, texts, entries, k)
    {
      assert NonBlank(texts, entries[k].from, entries[k].to) == [];
    }
    assert NonBlank(texts, 2, 2) == [] && NonBlank(texts, 3, 3) == [] && NonBlank(texts, 4, 4) == [];
  }

  lemma NotTaken(r: Reader, texts: seq<string>, entries: seq<Entry>)
    requires |texts| == 5 && !r.isTitle(texts[0]) && texts[0] != "" && |entries| == 3 && InLines(texts, entries)
    requires entries[0].from == 1 && !entries[0].dots
    requires forall k :: 0 <= k < 3 ==> !r.isHeadingStart(texts[entries[k].from])
    ensures !Accepted(r, texts, entries)
  {
    assert PrevText(texts, 1) == Some(0);
    NoneNumbered(r, texts, entries);
  }

  lemma {:induction false} NoneNumbered(r: Reader, texts: seq<string>, entries: seq<Entry>)
    requires InLines(texts, entries) && forall k :: 0 <= k < |entries| ==> !r.isHeadingStart(texts[entries[k].from])
    ensures NumberedEntries(r, texts, entries) == 0
  {
    if entries != [] { NoneNumbered(r, texts, entries[1..]); }
  }
}
