/** Removal of an automatic table of contents (rag/chunker.ts `tocLines`): which lines go, and why no other line does. */
module Toc {
  import opened Prelude
  import T = Text

  datatype Tail = Tail(page: nat, weak: bool, dots: bool)

  /** What the scanner reads in a line: the tail of an entry, the word "Contents", the start of a numbered heading. */
  datatype Reader = Reader(tail: string -> Option<Tail>, isTitle: string -> bool, isHeadingStart: string -> bool)

  /** All that matters of the three: an entry's tail ends in a digit, the word "Contents" with its optional colon does not. */
  ghost predicate Sane(r: Reader) {
    && (forall line :: r.tail(line).Some? ==> EndsInDigit(line))
    && (forall line :: r.isTitle(line) ==> line != "" && !EndsInDigit(line))
  }

  predicate EndsInDigit(line: string) {
    line != "" && T.IsDigit(line[|line| - 1])
  }

  datatype Entry = Entry(from: nat, to: nat, page: nat, weak: bool, dots: bool)

  const MIN_ENTRIES: nat := 3
  const WRAP_LINES: nat := 2

  // ---------- page numbers ----------

  /** Start of the run of at most four digits that ends the line. */
  function PageStart(line: string): (start: nat)
    ensures start <= |line|
    ensures start < |line| ==> T.IsDigit(line[|line| - 1])
  {
    var n := |line|;
    if n == 0 || !T.IsDigit(line[n - 1]) then n
    else if n == 1 || !T.IsDigit(line[n - 2]) then n - 1
    else if n == 2 || !T.IsDigit(line[n - 3]) then n - 2
    else if n == 3 || !T.IsDigit(line[n - 4]) then n - 3
    else n - 4
  }

  function NumberOf(digits: string): nat {
    if digits == "" then 0
    else
      var c := digits[|digits| - 1];
      NumberOf(digits[..|digits| - 1]) * 10 + if T.IsDigit(c) then c as nat - '0' as nat else 0
  }

  predicate IsBarePage(line: string) {
    1 <= |line| <= 4 && forall i :: 0 <= i < |line| ==> T.IsDigit(line[i])
  }

  predicate IsLeader(c: char) {
    c in " \t.…·_|-"
  }

  function LeaderStart(line: string, end: nat): (start: nat)
    requires end <= |line|
    ensures start <= end
    ensures forall i :: start <= i < end ==> IsLeader(line[i])
    ensures start > 0 ==> !IsLeader(line[start - 1])
  {
    if end > 0 && IsLeader(line[end - 1]) then LeaderStart(line, end - 1) else end
  }

  predicate IsDot(c: char) {
    c in ".…·_-"
  }

  /** `/[.…·_-]{3,}|(?:\.[ \t]){3,}/`. */
  predicate HasDots(leader: string) {
    || (exists i {:trigger leader[i]} :: 0 <= i < |leader| - 2 && IsDot(leader[i]) && IsDot(leader[i + 1]) && IsDot(leader[i + 2]))
    || (exists i {:trigger leader[i]} :: 0 <= i < |leader| - 5 && Spaced(leader, i) && Spaced(leader, i + 2) && Spaced(leader, i + 4))
  }

  predicate Spaced(leader: string, i: nat)
    requires i + 1 < |leader|
  {
    leader[i] == '.' && (leader[i + 1] == ' ' || leader[i + 1] == '\t')
  }

  /** `/\t| {2,}/`. */
  predicate HasGap(leader: string) {
    '\t' in leader || exists i {:trigger leader[i]} :: 0 <= i < |leader| - 1 && leader[i] == ' ' && leader[i + 1] == ' '
  }

  /** The tail of an entry, up to the class of letters. */
  function TailOf(isLetter: char -> bool, line: string): Option<Tail> {
    var at := PageStart(line);
    var start := LeaderStart(line, at);
    var leader := line[start..at];
    var weak := '|' in leader && !HasDots(leader);
    if at == |line| || !(exists i :: 0 <= i < start && isLetter(line[i])) then None
    else if weak || HasDots(leader) || HasGap(leader) then Some(Tail(NumberOf(line[at..]), weak, HasDots(leader)))
    else None
  }

  method TocTail(isLetter: char -> bool, line: string) returns (tail: Option<Tail>)
    ensures tail == TailOf(isLetter, line)
  {
    var at := PageStart(line);
    if at == |line| {
      return None;
    }
    var start := at;
    while start > 0 && IsLeader(line[start - 1])
      invariant 0 <= start <= at
      invariant LeaderStart(line, start) == LeaderStart(line, at)
    {
      start := start - 1;
    }
    var leader := line[start..at];
    if !(exists i :: 0 <= i < start && isLetter(line[i])) {
      return None;
    }
    var dots := HasDots(leader);
    var weak := '|' in leader && !dots;
    if !weak && !dots && !HasGap(leader) {
      return None;
    }
    return Some(Tail(NumberOf(line[at..]), weak, dots));
  }

  function ReaderOf(isLetter: char -> bool, isTitle: string -> bool, isHeadingStart: string -> bool): Reader {
    Reader(line => TailOf(isLetter, line), isTitle, isHeadingStart)
  }

  lemma ReaderIsSane(isLetter: char -> bool, isTitle: string -> bool, isHeadingStart: string -> bool)
    requires forall line :: isTitle(line) ==> line != "" && !EndsInDigit(line)
    ensures Sane(ReaderOf(isLetter, isTitle, isHeadingStart))
  {
  }

  // ---------- the scan ----------

  /** A run of removed lines: the entries found in it, and its first line. */
  datatype Block = Block(from: nat, entries: seq<Entry>)

  /** `series`, `pending` and what was removed so far; `since` is the line behind the last entry. */
  datatype Scan = Scan(series: seq<Entry>, pending: seq<nat>, blocks: seq<Block>, since: nat)

  function PrevText(texts: seq<string>, i: nat): (j: Option<nat>)
    requires i <= |texts|
    ensures j.Some? ==> j.value < i && texts[j.value] != "" && forall k :: j.value < k < i ==> texts[k] == ""
    ensures j.None? ==> forall k :: 0 <= k < i ==> texts[k] == ""
  {
    if i == 0 then None else if texts[i - 1] != "" then Some(i - 1) else PrevText(texts, i - 1)
  }

  predicate Titled(r: Reader, texts: seq<string>, first: nat)
    requires first < |texts|
  {
    var before := PrevText(texts, first);
    before.Some? && r.isTitle(texts[before.value])
  }

  function NumberedEntries(r: Reader, texts: seq<string>, entries: seq<Entry>): nat
    requires InLines(texts, entries)
  {
    if entries == [] then 0
    else (if r.isHeadingStart(texts[entries[0].from]) then 1 else 0) + NumberedEntries(r, texts, entries[1..])
  }

  predicate InLines(texts: seq<string>, entries: seq<Entry>) {
    forall k :: 0 <= k < |entries| ==> entries[k].from <= entries[k].to < |texts|
  }

  /** Whether a series is taken for contents. */
  predicate Accepted(r: Reader, texts: seq<string>, entries: seq<Entry>)
    requires InLines(texts, entries)
  {
    && |entries| >= MIN_ENTRIES
    && (Titled(r, texts, entries[0].from) ||
        (&& (forall k :: 0 <= k < |entries| ==> !entries[k].weak)
         && ((forall k :: 0 <= k < |entries| ==> entries[k].dots)
             || NumberedEntries(r, texts, entries) * 3 >= |entries| * 2)))
  }

  function BlockOf(r: Reader, texts: seq<string>, entries: seq<Entry>): Block
    requires InLines(texts, entries) && entries != []
  {
    var first := entries[0].from;
    Block(if Titled(r, texts, first) then PrevText(texts, first).value else first, entries)
  }

  function Closed(r: Reader, texts: seq<string>, st: Scan): Scan
    requires InLines(texts, st.series)
  {
    if Accepted(r, texts, st.series) then st.(series := [], blocks := st.blocks + [BlockOf(r, texts, st.series)])
    else st.(series := [])
  }

  function LastOf(pending: seq<nat>, n: nat): seq<nat> {
    if |pending| <= n then pending else pending[|pending| - n..]
  }

  predicate PendingIn(texts: seq<string>, pending: seq<nat>) {
    forall k :: 0 <= k < |pending| ==> pending[k] < |texts|
  }

  /** The first line of `recent` that starts like a numbered heading, or its length. */
  function FirstHeading(r: Reader, texts: seq<string>, recent: seq<nat>): (k: nat)
    requires PendingIn(texts, recent)
    ensures k <= |recent|
  {
    if recent == [] || r.isHeadingStart(texts[recent[0]]) then 0 else 1 + FirstHeading(r, texts, recent[1..])
  }

  /** The lines above a page number that belong to its entry. */
  function Wrapped(r: Reader, texts: seq<string>, series: seq<Entry>, pending: seq<nat>, hasTail: bool): seq<nat>
    requires PendingIn(texts, pending)
  {
    var recent := LastOf(pending, WRAP_LINES);
    var n := |pending|;
    if series != [] then pending
    else if hasTail then
      if n > 2 && r.isTitle(texts[pending[n - 3]]) then pending[n - 2..]
      else if n > 1 && r.isTitle(texts[pending[n - 2]]) then pending[n - 1..]
      else []
    else recent[FirstHeading(r, texts, recent)..]
  }

  predicate WellFormed(texts: seq<string>, st: Scan, n: nat) {
    && n <= |texts|
    && InLines(texts, st.series)
    && forall k :: 0 <= k < |st.pending| ==> st.pending[k] < n
  }

  /** A line that ends no entry waits; a third one in a row ends the series. */
  function Waits(r: Reader, texts: seq<string>, st: Scan, i: nat): (next: Scan)
    requires i < |texts| && WellFormed(texts, st, i)
    ensures WellFormed(texts, next, i + 1)
  {
    var next := st.(pending := st.pending + [i]);
    if |next.pending| > WRAP_LINES then Closed(r, texts, next) else next
  }

  /** A line that ends an entry with the given page; a page that falls ends the series before it. */
  function Ends(r: Reader, texts: seq<string>, st: Scan, i: nat, wrapped: seq<nat>, page: nat): (next: Scan)
    requires i < |texts| && WellFormed(texts, st, i) && forall k :: 0 <= k < |wrapped| ==> wrapped[k] < i
    ensures WellFormed(texts, next, i + 1)
  {
    var end := r.tail(texts[i]);
    var next := if st.series != [] && page < st.series[|st.series| - 1].page then Closed(r, texts, st) else st;
    var entry := Entry(
      if wrapped != [] then wrapped[0] else i, i, page,
      end.Some? && end.value.weak, end.Some? && end.value.dots);
    next.(series := next.series + [entry], pending := [], since := i + 1)
  }

  function StepLine(r: Reader, texts: seq<string>, st: Scan, i: nat): (next: Scan)
    requires i < |texts| && WellFormed(texts, st, i)
    ensures WellFormed(texts, next, i + 1)
  {
    var line := texts[i];
    var end := r.tail(line);
    var wrapped := Wrapped(r, texts, st.series, st.pending, end.Some?);
    if line == "" then st
    else if end.None? && (wrapped == [] || !IsBarePage(line)) then Waits(r, texts, st, i)
    else Ends(r, texts, st, i, wrapped, if end.Some? then end.value.page else NumberOf(line))
  }

  function Run(r: Reader, texts: seq<string>, n: nat): (st: Scan)
    requires n <= |texts|
    ensures WellFormed(texts, st, n)
  {
    if n == 0 then Scan([], [], [], 0) else StepLine(r, texts, Run(r, texts, n - 1), n - 1)
  }

  function TocBlocks(r: Reader, texts: seq<string>): seq<Block> {
    Closed(r, texts, Run(r, texts, |texts|)).blocks
  }

  // ---------- soundness ----------

  /** The lines with text from `a` up to but not including `b`. */
  function NonBlank(texts: seq<string>, a: nat, b: nat): seq<nat>
    requires b <= |texts|
    decreases b
  {
    if a >= b then []
    else NonBlank(texts, a, b - 1) + if texts[b - 1] != "" then [b - 1] else []
  }

  lemma {:induction false} NonBlankMeaning(texts: seq<string>, a: nat, b: nat, j: nat)
    requires b <= |texts|
    ensures j in NonBlank(texts, a, b) <==> a <= j < b && texts[j] != ""
    decreases b
  {
    if a < b {
      NonBlankMeaning(texts, a, b - 1, j);
      var before := NonBlank(texts, a, b - 1);
      var last := if texts[b - 1] != "" then [b - 1] else [];
      assert NonBlank(texts, a, b) == before + last;
      InConcat(before, last, j);
    }
  }

  lemma InConcat<T>(a: seq<T>, b: seq<T>, x: T)
    ensures x in a + b <==> x in a || x in b
  {
  }

  lemma {:induction false} NonBlankSuffix(texts: seq<string>, a: nat, b: nat, k: nat)
    requires b <= |texts| && k < |NonBlank(texts, a, b)|
    ensures a <= NonBlank(texts, a, b)[k] < b && texts[NonBlank(texts, a, b)[k]] != ""
    ensures NonBlank(texts, NonBlank(texts, a, b)[k], b) == NonBlank(texts, a, b)[k..]
    ensures k == 0 ==> NonBlank(texts, a, NonBlank(texts, a, b)[k]) == []
    decreases b
  {
    var all := NonBlank(texts, a, b);
    var before := NonBlank(texts, a, b - 1);
    if k < |before| {
      NonBlankSuffix(texts, a, b - 1, k);
      assert all[k] == before[k];
    } else {
      assert all[k] == b - 1 && all[k..] == [b - 1];
      assert NonBlank(texts, b - 1, b - 1) == [];
    }
  }

  /** The line that ends an entry carries its page: as a tail, or as its whole text. */
  predicate EndsEntry(r: Reader, line: string, page: nat) {
    if r.tail(line).Some? then page == r.tail(line).value.page else IsBarePage(line) && page == NumberOf(line)
  }

  ghost predicate EntryOk(r: Reader, texts: seq<string>, e: Entry) {
    && e.from <= e.to < |texts|
    && texts[e.from] != ""
    && EndsEntry(r, texts[e.to], e.page)
    && |NonBlank(texts, e.from, e.to + 1)| <= WRAP_LINES + 1
  }

  /** Ordered entries, pages that never decrease, and nothing but blank lines in between. */
  ghost predicate SeriesOk(r: Reader, texts: seq<string>, entries: seq<Entry>) {
    && (forall k :: 0 <= k < |entries| ==> OkAt(r, texts, entries, k))
    && (forall k :: 0 < k < |entries| ==> Follows(texts, entries, k))
  }

  ghost predicate OkAt(r: Reader, texts: seq<string>, entries: seq<Entry>, k: nat)
    requires k < |entries|
  {
    EntryOk(r, texts, entries[k])
  }

  ghost predicate Follows(texts: seq<string>, entries: seq<Entry>, k: nat)
    requires 0 < k < |entries|
  {
    var e, f := entries[k - 1], entries[k];
    e.to < f.from <= |texts| && e.page <= f.page && NonBlank(texts, e.to + 1, f.from) == []
  }

  function End(b: Block): nat {
    if b.entries == [] then 0 else b.entries[|b.entries| - 1].to
  }

  ghost predicate BlockOk(r: Reader, texts: seq<string>, b: Block) {
    BlockShape(r, texts, b) && Accepted(r, texts, b.entries)
  }

  ghost predicate BlockShape(r: Reader, texts: seq<string>, b: Block) {
    && SeriesOk(r, texts, b.entries)
    && |b.entries| >= MIN_ENTRIES
    && InLines(texts, b.entries)
    && (b.from == b.entries[0].from || TitleAbove(r, texts, b.from, b.entries[0].from))
  }

  ghost predicate TitleAbove(r: Reader, texts: seq<string>, title: nat, first: nat) {
    title < first < |texts| && r.isTitle(texts[title]) && NonBlank(texts, title + 1, first) == []
  }

  ghost predicate BlocksOk(r: Reader, texts: seq<string>, blocks: seq<Block>) {
    && (forall k :: 0 <= k < |blocks| ==> BlockOkAt(r, texts, blocks, k))
    && (forall k :: 0 < k < |blocks| ==> Below(blocks, k))
  }

  ghost predicate BlockOkAt(r: Reader, texts: seq<string>, blocks: seq<Block>, k: nat)
    requires k < |blocks|
  {
    BlockOk(r, texts, blocks[k])
  }

  ghost predicate Below(blocks: seq<Block>, k: nat)
    requires 0 < k < |blocks|
  {
    End(blocks[k - 1]) < blocks[k].from
  }

  /** The series under way and the blocks removed lie above line `since`, in this order. */
  ghost predicate Kept(r: Reader, texts: seq<string>, series: seq<Entry>, blocks: seq<Block>, since: nat) {
    && since <= |texts|
    && SeriesOk(r, texts, series)
    && (series != [] ==> series[|series| - 1].to + 1 == since)
    && BlocksOk(r, texts, blocks)
    && (blocks != [] ==> End(blocks[|blocks| - 1]) < if series != [] then series[0].from else since)
  }

  ghost predicate Inv(r: Reader, texts: seq<string>, st: Scan, n: nat) {
    && st.since <= n <= |texts|
    && st.pending == NonBlank(texts, st.since, n)
    && (st.series != [] ==> |st.pending| <= WRAP_LINES)
    && Kept(r, texts, st.series, st.blocks, st.since)
  }

  lemma EntryIsNoTitle(r: Reader, texts: seq<string>, e: Entry)
    requires Sane(r) && EntryOk(r, texts, e)
    ensures texts[e.to] != "" && !r.isTitle(texts[e.to])
  {
    var line := texts[e.to];
    assert line != "" && T.IsDigit(line[|line| - 1]);
  }

  lemma {:induction false} SeriesOrdered(r: Reader, texts: seq<string>, entries: seq<Entry>, k: nat)
    requires SeriesOk(r, texts, entries) && k < |entries|
    ensures entries[0].from <= entries[k].from && entries[0].page <= entries[k].page
  {
    if k > 0 {
      SeriesOrdered(r, texts, entries, k - 1);
      assert OkAt(r, texts, entries, k - 1);
      assert Follows(texts, entries, k);
    }
  }

  lemma AllBlank(texts: seq<string>, a: nat, b: nat)
    requires b <= |texts| && forall j :: a <= j < b ==> texts[j] == ""
    ensures NonBlank(texts, a, b) == []
  {
    var gap := NonBlank(texts, a, b);
    if gap != [] {
      assert gap[0] in gap;
      NonBlankMeaning(texts, a, b, gap[0]);
    }
  }

  lemma BlockMade(r: Reader, texts: seq<string>, entries: seq<Entry>)
    requires SeriesOk(r, texts, entries) && InLines(texts, entries) && Accepted(r, texts, entries)
    ensures BlockOk(r, texts, BlockOf(r, texts, entries))
  {
    var first := entries[0].from;
    assert OkAt(r, texts, entries, 0);
    if Titled(r, texts, first) {
      AllBlank(texts, PrevText(texts, first).value + 1, first);
    }
  }

  /** The title above a series is not a line of an earlier block. */
  lemma BlockBelow(r: Reader, texts: seq<string>, entries: seq<Entry>, last: Entry)
    requires Sane(r) && InLines(texts, entries) && entries != [] && EntryOk(r, texts, last) && last.to < entries[0].from
    ensures last.to < BlockOf(r, texts, entries).from
  {
    EntryIsNoTitle(r, texts, last);
  }

  lemma DropSeries(r: Reader, texts: seq<string>, series: seq<Entry>, blocks: seq<Block>, since: nat)
    requires Kept(r, texts, series, blocks, since)
    ensures InLines(texts, series) && (series != [] ==> series[0].from < since)
    ensures Kept(r, texts, [], blocks, since)
  {
    forall k | 0 <= k < |series|
      ensures series[k].from <= series[k].to < |texts|
    {
      assert OkAt(r, texts, series, k);
    }
    if series != [] {
      SeriesOrdered(r, texts, series, |series| - 1);
      assert OkAt(r, texts, series, |series| - 1);
    }
  }

  lemma SeriesSpans(r: Reader, texts: seq<string>, entries: seq<Entry>)
    requires SeriesOk(r, texts, entries) && entries != []
    ensures entries[0].from <= entries[|entries| - 1].to < |texts|
  {
    var last := |entries| - 1;
    SeriesOrdered(r, texts, entries, last);
    assert OkAt(r, texts, entries, last);
  }

  lemma LastBlockBelow(r: Reader, texts: seq<string>, series: seq<Entry>, last: Block)
    requires Sane(r) && InLines(texts, series) && series != []
    requires SeriesOk(r, texts, last.entries) && last.entries != [] && End(last) < series[0].from
    ensures End(last) < BlockOf(r, texts, series).from
  {
    var e := last.entries[|last.entries| - 1];
    assert OkAt(r, texts, last.entries, |last.entries| - 1);
    BlockBelow(r, texts, series, e);
  }

  lemma KeepBlock(r: Reader, texts: seq<string>, series: seq<Entry>, blocks: seq<Block>, since: nat)
    requires Sane(r) && Kept(r, texts, series, blocks, since) && series != []
    requires InLines(texts, series) && Accepted(r, texts, series)
    ensures Kept(r, texts, [], blocks + [BlockOf(r, texts, series)], since)
  {
    var b := BlockOf(r, texts, series);
    BlockMade(r, texts, series);
    if blocks != [] {
      var last := blocks[|blocks| - 1];
      assert BlockOkAt(r, texts, blocks, |blocks| - 1);
      LastBlockBelow(r, texts, series, last);
    }
    KeepMadeBlock(r, texts, series, blocks, since, b);
  }

  lemma KeepMadeBlock(r: Reader, texts: seq<string>, series: seq<Entry>, blocks: seq<Block>, since: nat, b: Block)
    requires BlocksOk(r, texts, blocks) && since <= |texts| && series != [] && series[|series| - 1].to + 1 == since
    requires BlockOk(r, texts, b) && b.entries == series && (blocks != [] ==> End(blocks[|blocks| - 1]) < b.from)
    ensures Kept(r, texts, [], blocks + [b], since)
  {
    OneMoreBlock(r, texts, blocks, b);
    KeptWithoutSeries(r, texts, blocks + [b], since);
  }

  lemma KeptWithoutSeries(r: Reader, texts: seq<string>, blocks: seq<Block>, since: nat)
    requires BlocksOk(r, texts, blocks) && since <= |texts|
    requires blocks != [] ==> End(blocks[|blocks| - 1]) < since
    ensures Kept(r, texts, [], blocks, since)
  {
  }

  lemma CloseKept(r: Reader, texts: seq<string>, st: Scan)
    requires Sane(r) && Kept(r, texts, st.series, st.blocks, st.since)
    ensures InLines(texts, st.series)
    ensures Kept(r, texts, [], Closed(r, texts, st).blocks, st.since)
  {
    DropSeries(r, texts, st.series, st.blocks, st.since);
    if Accepted(r, texts, st.series) {
      KeepBlock(r, texts, st.series, st.blocks, st.since);
    }
  }

  lemma OneMoreBlock(r: Reader, texts: seq<string>, blocks: seq<Block>, b: Block)
    requires BlocksOk(r, texts, blocks) && BlockOk(r, texts, b)
    requires blocks != [] ==> End(blocks[|blocks| - 1]) < b.from
    ensures BlocksOk(r, texts, blocks + [b])
  {
    var now := blocks + [b];
    forall k | 0 < k < |now|
      ensures Below(now, k)
    {
      if k < |blocks| { assert Below(blocks, k); }
    }
    forall k | 0 <= k < |now|
      ensures BlockOkAt(r, texts, now, k)
    {
      if k < |blocks| { assert BlockOkAt(r, texts, blocks, k); }
    }
  }

  lemma OneMoreEntry(r: Reader, texts: seq<string>, series: seq<Entry>, since: nat, e: Entry)
    requires SeriesOk(r, texts, series) && EntryOk(r, texts, e) && since <= e.from
    requires series != [] ==>
               series[|series| - 1].to + 1 == since && series[|series| - 1].page <= e.page && NonBlank(texts, since, e.from) == []
    ensures SeriesOk(r, texts, series + [e])
  {
    var now := series + [e];
    forall k | 0 < k < |now|
      ensures Follows(texts, now, k)
    {
      if k < |series| { assert Follows(texts, series, k); }
    }
    forall k | 0 <= k < |now|
      ensures OkAt(r, texts, now, k)
    {
      if k < |series| { assert OkAt(r, texts, series, k); }
    }
  }

  lemma AppendKept(r: Reader, texts: seq<string>, series: seq<Entry>, blocks: seq<Block>, since: nat, e: Entry)
    requires Kept(r, texts, series, blocks, since) && EntryOk(r, texts, e) && since <= e.from
    requires series != [] ==> series[|series| - 1].page <= e.page && NonBlank(texts, since, e.from) == []
    ensures Kept(r, texts, series + [e], blocks, e.to + 1)
  {
    OneMoreEntry(r, texts, series, since, e);
    var now := series + [e];
    assert now[|now| - 1] == e && (series != [] ==> now[0] == series[0]);
  }

  /** The entry a page number on line `i` makes, with the pending lines that wrap into it. */
  lemma EntryMade(r: Reader, texts: seq<string>, st: Scan, i: nat)
    requires Inv(r, texts, st, i) && i < |texts| && PendingIn(texts, st.pending) && texts[i] != ""
    ensures var wrapped := Wrapped(r, texts, st.series, st.pending, r.tail(texts[i]).Some?);
            var from := if wrapped != [] then wrapped[0] else i;
            && st.since <= from <= i && texts[from] != ""
            && |NonBlank(texts, from, i + 1)| <= WRAP_LINES + 1
            && (st.series != [] ==> NonBlank(texts, st.since, from) == [])
  {
    var wrapped := Wrapped(r, texts, st.series, st.pending, r.tail(texts[i]).Some?);
    if wrapped == [] {
      assert NonBlank(texts, i, i) == [];
      assert NonBlank(texts, i, i + 1) == [i];
    } else {
      var k := |st.pending| - |wrapped|;
      assert wrapped == st.pending[k..];
      NonBlankSuffix(texts, st.since, i, k);
      assert NonBlank(texts, wrapped[0], i + 1) == wrapped + [i];
    }
  }

  predicate MakesEntry(r: Reader, texts: seq<string>, st: Scan, i: nat)
    requires i < |texts| && PendingIn(texts, st.pending)
  {
    && texts[i] != ""
    && (r.tail(texts[i]).Some?
        || (Wrapped(r, texts, st.series, st.pending, false) != [] && IsBarePage(texts[i])))
  }

  /** The entry that line `i` makes. */
  function EntryAt(r: Reader, texts: seq<string>, st: Scan, i: nat): Entry
    requires i < |texts| && PendingIn(texts, st.pending)
  {
    var end := r.tail(texts[i]);
    var wrapped := Wrapped(r, texts, st.series, st.pending, end.Some?);
    Entry(if wrapped != [] then wrapped[0] else i, i, if end.Some? then end.value.page else NumberOf(texts[i]),
          end.Some? && end.value.weak, end.Some? && end.value.dots)
  }

  lemma EntryAtOk(r: Reader, texts: seq<string>, st: Scan, i: nat)
    requires Sane(r) && i < |texts| && WellFormed(texts, st, i) && Inv(r, texts, st, i) && MakesEntry(r, texts, st, i)
    ensures EntryOk(r, texts, EntryAt(r, texts, st, i)) && st.since <= EntryAt(r, texts, st, i).from
    ensures st.series != [] ==> NonBlank(texts, st.since, EntryAt(r, texts, st, i).from) == []
  {
    EntryMade(r, texts, st, i);
  }

  lemma EntryStep(r: Reader, texts: seq<string>, st: Scan, i: nat)
    requires i < |texts| && WellFormed(texts, st, i) && MakesEntry(r, texts, st, i)
    ensures var e := EntryAt(r, texts, st, i);
            var next := if st.series != [] && e.page < st.series[|st.series| - 1].page then Closed(r, texts, st) else st;
            StepLine(r, texts, st, i) == Scan(next.series + [e], [], next.blocks, i + 1)
  {
  }

  lemma EntryStepInv(r: Reader, texts: seq<string>, st: Scan, i: nat)
    requires Sane(r) && i < |texts| && WellFormed(texts, st, i) && Inv(r, texts, st, i) && MakesEntry(r, texts, st, i)
    ensures Inv(r, texts, StepLine(r, texts, st, i), i + 1)
  {
    EntryStep(r, texts, st, i);
    EntryAtOk(r, texts, st, i);
    NewEntryInv(r, texts, st, i, EntryAt(r, texts, st, i), StepLine(r, texts, st, i));
  }

  lemma NewEntryInv(r: Reader, texts: seq<string>, st: Scan, i: nat, e: Entry, after: Scan)
    requires Sane(r) && i < |texts| && WellFormed(texts, st, i) && Inv(r, texts, st, i)
    requires EntryOk(r, texts, e) && e.to == i && st.since <= e.from
    requires st.series != [] ==> NonBlank(texts, st.since, e.from) == []
    requires var next := if st.series != [] && e.page < st.series[|st.series| - 1].page then Closed(r, texts, st) else st;
             after == Scan(next.series + [e], [], next.blocks, i + 1)
    ensures Inv(r, texts, after, i + 1)
  {
    if st.series != [] && e.page < st.series[|st.series| - 1].page {
      CloseKept(r, texts, st);
      AppendKept(r, texts, [], Closed(r, texts, st).blocks, st.since, e);
      assert [] + [e] == [e];
    } else {
      AppendKept(r, texts, st.series, st.blocks, st.since, e);
    }
    assert NonBlank(texts, i + 1, i + 1) == [];
  }

  lemma StepInv(r: Reader, texts: seq<string>, st: Scan, i: nat)
    requires Sane(r) && i < |texts| && WellFormed(texts, st, i) && Inv(r, texts, st, i)
    ensures Inv(r, texts, StepLine(r, texts, st, i), i + 1)
  {
    if MakesEntry(r, texts, st, i) {
      EntryStepInv(r, texts, st, i);
    } else if texts[i] != "" {
      CloseKept(r, texts, st.(pending := st.pending + [i]));
    }
  }

  lemma {:induction false} RunInv(r: Reader, texts: seq<string>, n: nat)
    requires Sane(r) && n <= |texts|
    ensures Inv(r, texts, Run(r, texts, n), n)
  {
    if n > 0 {
      RunInv(r, texts, n - 1);
      StepInv(r, texts, Run(r, texts, n - 1), n - 1);
    } else {
      assert NonBlank(texts, 0, 0) == [];
    }
  }

  lemma SeriesPrefix(r: Reader, texts: seq<string>, entries: seq<Entry>, n: nat)
    requires SeriesOk(r, texts, entries) && n <= |entries|
    ensures SeriesOk(r, texts, entries[..n])
  {
    forall k | 0 <= k < n
      ensures OkAt(r, texts, entries[..n], k)
    {
      assert OkAt(r, texts, entries, k);
    }
    forall k | 0 < k < n
      ensures Follows(texts, entries[..n], k)
    {
      assert Follows(texts, entries, k);
    }
  }

  lemma {:induction false} EntryOfLine(r: Reader, texts: seq<string>, entries: seq<Entry>, i: nat) returns (k: nat)
    requires SeriesOk(r, texts, entries) && entries != [] && i < |texts|
    requires entries[0].from <= i <= entries[|entries| - 1].to && texts[i] != ""
    ensures k < |entries| && entries[k].from <= i <= entries[k].to
  {
    k := |entries| - 1;
    assert OkAt(r, texts, entries, k);
    if i < entries[k].from {
      assert Follows(texts, entries, k);
      if entries[k - 1].to < i {
        NonBlankMeaning(texts, entries[k - 1].to + 1, entries[k].from, i);
        assert false;
      }
      SeriesPrefix(r, texts, entries, k);
      k := EntryOfLine(r, texts, entries[..k], i);
    }
  }

  lemma BlockSpans(r: Reader, texts: seq<string>, b: Block)
    requires BlockShape(r, texts, b)
    ensures b.from <= b.entries[0].from <= End(b) < |texts|
  {
    SeriesSpans(r, texts, b.entries);
  }

  lemma {:induction false} BlocksApart(r: Reader, texts: seq<string>, blocks: seq<Block>, j: nat, k: nat)
    requires BlocksOk(r, texts, blocks) && j < k < |blocks|
    ensures End(blocks[j]) < blocks[k].from
  {
    assert Below(blocks, k);
    if j < k - 1 {
      BlocksApart(r, texts, blocks, j, k - 1);
      assert BlockOkAt(r, texts, blocks, k - 1);
      BlockSpans(r, texts, blocks[k - 1]);
    }
  }

  lemma RemovedBlocksOk(r: Reader, texts: seq<string>)
    requires Sane(r)
    ensures BlocksOk(r, texts, TocBlocks(r, texts))
  {
    RunInv(r, texts, |texts|);
    CloseKept(r, texts, Run(r, texts, |texts|));
  }

  predicate InBlock(b: Block, i: nat) {
    b.from <= i <= End(b)
  }

  function Interval(from: nat, to: nat): (lines: set<nat>)
    ensures forall i :: i in lines <==> from <= i <= to
  {
    if to < from then {} else if to == 0 then {to} else Interval(from, to - 1) + {to}
  }

  /** The lines that go. */
  function Removed(blocks: seq<Block>): set<nat> {
    if blocks == [] then {}
    else
      var b := blocks[|blocks| - 1];
      Removed(blocks[..|blocks| - 1]) + Interval(b.from, End(b))
  }

  lemma {:induction false} RemovedMeaning(blocks: seq<Block>, i: nat)
    ensures i in Removed(blocks) <==> exists k :: 0 <= k < |blocks| && InBlock(blocks[k], i)
  {
    if blocks != [] {
      RemovedMeaning(blocks[..|blocks| - 1], i);
      if k :| 0 <= k < |blocks| && InBlock(blocks[k], i) && k < |blocks| - 1 {
        assert InBlock(blocks[..|blocks| - 1][k], i);
      }
    }
  }

  lemma LineAbove(r: Reader, texts: seq<string>, title: nat, first: nat, i: nat)
    requires TitleAbove(r, texts, title, first) && title <= i < first && texts[i] != ""
    ensures i == title
  {
    if i != title {
      NonBlankMeaning(texts, title + 1, first, i);
    }
  }

  lemma LineOfBlock(r: Reader, texts: seq<string>, b: Block, i: nat) returns (e: nat)
    requires BlockShape(r, texts, b) && InBlock(b, i) && i < |texts| && texts[i] != ""
    ensures e < |b.entries|
    ensures b.entries[e].from <= i <= b.entries[e].to
            || (i == b.from && r.isTitle(texts[i]) && i < b.entries[0].from && NonBlank(texts, i + 1, b.entries[0].from) == [])
  {
    e := 0;
    if b.entries[0].from <= i {
      e := EntryOfLine(r, texts, b.entries, i);
    } else {
      LineAbove(r, texts, b.from, b.entries[0].from, i);
    }
  }

  /** Why a line with text goes: it lies in exactly one block, a run of at least three entries in order of pages, and
      there it belongs to an entry or is the title directly above the first one. */
  lemma RemovalIsSound(r: Reader, texts: seq<string>, i: nat) returns (k: nat, e: nat)
    requires Sane(r) && i in Removed(TocBlocks(r, texts)) && i < |texts| && texts[i] != ""
    ensures var blocks := TocBlocks(r, texts);
            && k < |blocks| && BlockOk(r, texts, blocks[k])
            && (forall m :: 0 <= m < |blocks| && m != k ==> !InBlock(blocks[m], i))
            && e < |blocks[k].entries|
            && (blocks[k].entries[e].from <= i <= blocks[k].entries[e].to
                || (i == blocks[k].from && r.isTitle(texts[i]) && i < blocks[k].entries[0].from
                    && NonBlank(texts, i + 1, blocks[k].entries[0].from) == []))
  {
    var blocks := TocBlocks(r, texts);
    RemovedBlocksOk(r, texts);
    RemovedMeaning(blocks, i);
    k :| 0 <= k < |blocks| && InBlock(blocks[k], i);
    forall m | 0 <= m < |blocks| && m != k
      ensures !InBlock(blocks[m], i)
    {
      BlocksApart(r, texts, blocks, if m < k then m else k, if m < k then k else m);
    }
    assert BlockOkAt(r, texts, blocks, k);
    e := LineOfBlock(r, texts, blocks[k], i);
  }

  // ---------- completeness ----------

  /** A line that cannot end an entry. */
  predicate Plain(r: Reader, line: string) {
    line != "" && r.tail(line).None? && !IsBarePage(line)
  }

  /** No series can still be under way at a line below two plain ones, or at the top of the text. */
  predicate Detached(r: Reader, texts: seq<string>, at: nat)
    requires at < |texts|
  {
    var above := LastOf(NonBlank(texts, 0, at), WRAP_LINES);
    forall k :: 0 <= k < |above| && above[k] < |texts| ==> Plain(r, texts[above[k]])
  }

  lemma {:induction false} NonBlankSplit(texts: seq<string>, a: nat, m: nat, b: nat)
    requires a <= m <= b <= |texts|
    ensures NonBlank(texts, a, b) == NonBlank(texts, a, m) + NonBlank(texts, m, b)
    decreases b
  {
    if m < b {
      NonBlankSplit(texts, a, m, b - 1);
    } else {
      assert NonBlank(texts, m, m) == [];
    }
  }

  /** The last entry's line would be among the lines that end no entry. */
  lemma LastOfPlain(r: Reader, texts: seq<string>, all: seq<nat>, pending: seq<nat>, last: Entry)
    requires EntryOk(r, texts, last) && |pending| < WRAP_LINES
    requires all != [] && |pending| < |all| && all[|all| - |pending| - 1] == last.to
    ensures !(forall k :: 0 <= k < |LastOf(all, WRAP_LINES)| && LastOf(all, WRAP_LINES)[k] < |texts| ==>
                Plain(r, texts[LastOf(all, WRAP_LINES)[k]]))
  {
    var above := LastOf(all, WRAP_LINES);
    var k := |above| - |pending| - 1;
    assert above[k] == last.to;
    assert !Plain(r, texts[above[k]]);
  }

  lemma LineBeforePending(texts: seq<string>, line: nat, at: nat)
    requires line < at <= |texts| && texts[line] != ""
    ensures var all, pending := NonBlank(texts, 0, at), NonBlank(texts, line + 1, at);
            |pending| < |all| && all[|all| - |pending| - 1] == line
  {
    NonBlankSplit(texts, 0, line + 1, at);
    assert NonBlank(texts, 0, line + 1) == NonBlank(texts, 0, line) + [line];
  }

  lemma DetachedPending(r: Reader, texts: seq<string>, at: nat)
    requires Sane(r) && at < |texts| && Detached(r, texts, at)
    ensures var st := Run(r, texts, at); st.series == [] || |st.pending| >= WRAP_LINES
  {
    var st := Run(r, texts, at);
    RunInv(r, texts, at);
    if st.series != [] && |st.pending| < WRAP_LINES {
      var last := st.series[|st.series| - 1];
      assert OkAt(r, texts, st.series, |st.series| - 1);
      LastOfSeries(r, texts, st.pending, last, at);
    }
  }

  lemma LastOfSeries(r: Reader, texts: seq<string>, pending: seq<nat>, last: Entry, at: nat)
    requires Sane(r) && EntryOk(r, texts, last) && last.to < at <= |texts|
    requires pending == NonBlank(texts, last.to + 1, at) && |pending| < WRAP_LINES
    ensures at < |texts| ==> !Detached(r, texts, at)
  {
    EntryIsNoTitle(r, texts, last);
    LineBeforePending(texts, last.to, at);
    LastOfPlain(r, texts, NonBlank(texts, 0, at), pending, last);
  }

  /** Behind the title line nothing is under way, and the title is the last pending line. */
  lemma AfterTitle(r: Reader, texts: seq<string>, title: nat)
    requires Sane(r) && title < |texts| && r.isTitle(texts[title]) && Detached(r, texts, title)
    ensures var st := Run(r, texts, title + 1);
            st.series == [] && st.pending != [] && st.pending[|st.pending| - 1] == title
  {
    DetachedPending(r, texts, title);
    var line := texts[title];
    assert !EndsInDigit(line);
    assert !IsBarePage(line);
  }

  /** A series that will be removed from line `title` or above on. */
  ghost predicate Caught(r: Reader, texts: seq<string>, series: seq<Entry>, title: nat) {
    InLines(texts, series) && series != [] && Titled(r, texts, series[0].from) && BlockOf(r, texts, series).from <= title
  }

  lemma PrevOfNonBlank(texts: seq<string>, a: nat, b: nat, k: nat)
    requires b <= |texts| && 0 < k < |NonBlank(texts, a, b)|
    ensures NonBlank(texts, a, b)[k] <= |texts|
    ensures PrevText(texts, NonBlank(texts, a, b)[k]) == Some(NonBlank(texts, a, b)[k - 1])
  {
    var all := NonBlank(texts, a, b);
    NonBlankSuffix(texts, a, b, k - 1);
    NonBlankSuffix(texts, a, b, k);
    var i, j := all[k - 1], all[k];
    assert NonBlank(texts, i, b) == all[k - 1..];
    assert NonBlank(texts, i, b)[1] == j;
    NonBlankSplit(texts, i, j, b);
    assert |NonBlank(texts, i, j)| == 1;
    NothingBetween(texts, i, j);
  }

  lemma NothingBetween(texts: seq<string>, i: nat, j: nat)
    requires i < j <= |texts| && texts[i] != "" && |NonBlank(texts, i, j)| <= 1
    ensures PrevText(texts, j) == Some(i)
  {
    var all := NonBlank(texts, i, j);
    NonBlankMeaning(texts, i, j, i);
    var p := PrevText(texts, j).value;
    NonBlankMeaning(texts, i, j, p);
    assert all[0] == p && all[0] == i;
  }

  lemma PrevPending(texts: seq<string>, a: nat, b: nat, k: nat)
    requires b <= |texts| && 0 < k < |NonBlank(texts, a, b)|
    ensures var all := NonBlank(texts, a, b);
            && all[k] <= b && PrevText(texts, all[k]) == Some(all[k - 1]) && all[k - 1] <= all[|all| - 1]
  {
    PrevOfNonBlank(texts, a, b, k);
    PendingOrdered(texts, a, b, k - 1, |NonBlank(texts, a, b)| - 1);
    NonBlankSuffix(texts, a, b, k);
  }

  lemma PendingOrdered(texts: seq<string>, a: nat, b: nat, j: nat, k: nat)
    requires b <= |texts| && j <= k < |NonBlank(texts, a, b)|
    ensures NonBlank(texts, a, b)[j] <= NonBlank(texts, a, b)[k]
  {
    var all := NonBlank(texts, a, b);
    NonBlankSuffix(texts, a, b, j);
    assert all[k] in NonBlank(texts, all[j], b) by {
      assert all[j..][k - j] == all[k];
    }
    NonBlankMeaning(texts, all[j], b, all[k]);
  }

  lemma CaughtGrows(r: Reader, texts: seq<string>, series: seq<Entry>, e: Entry, title: nat)
    requires Caught(r, texts, series, title) && e.from <= e.to < |texts|
    ensures Caught(r, texts, series + [e], title)
  {
  }

  /** `entries` is under way with more to come, or was removed as part of a block. */
  ghost predicate Survives(r: Reader, texts: seq<string>, entries: seq<Entry>, st: Scan) {
    entries <= st.series || exists k :: 0 <= k < |st.blocks| && CaughtIn(r, texts, entries, st.blocks[k])
  }

  ghost predicate CaughtIn(r: Reader, texts: seq<string>, entries: seq<Entry>, b: Block) {
    entries != [] && entries <= b.entries && InLines(texts, b.entries) && b == BlockOf(r, texts, b.entries)
  }

  lemma ClosedSurvives(r: Reader, texts: seq<string>, entries: seq<Entry>, st: Scan, title: nat)
    requires InLines(texts, st.series) && |entries| >= MIN_ENTRIES && Caught(r, texts, entries, title)
    requires Survives(r, texts, entries, st)
    ensures exists k :: 0 <= k < |Closed(r, texts, st).blocks| && CaughtIn(r, texts, entries, Closed(r, texts, st).blocks[k])
  {
    var after := Closed(r, texts, st);
    if entries <= st.series {
      assert st.series[0] == entries[0];
      assert CaughtIn(r, texts, entries, after.blocks[|st.blocks|]);
    } else {
      var k :| 0 <= k < |st.blocks| && CaughtIn(r, texts, entries, st.blocks[k]);
      assert CaughtIn(r, texts, entries, after.blocks[k]);
    }
  }

  lemma StepSurvives(r: Reader, texts: seq<string>, entries: seq<Entry>, st: Scan, i: nat, title: nat)
    requires i < |texts| && WellFormed(texts, st, i) && |entries| >= MIN_ENTRIES && Caught(r, texts, entries, title)
    requires Survives(r, texts, entries, st)
    ensures Survives(r, texts, entries, StepLine(r, texts, st, i))
  {
    ClosedSurvives(r, texts, entries, st, title);
    ClosedSurvives(r, texts, entries, st.(pending := st.pending + [i]), title);
  }

  lemma {:induction false} RunSurvives(r: Reader, texts: seq<string>, entries: seq<Entry>, from: nat, n: nat, title: nat)
    requires from <= n <= |texts| && |entries| >= MIN_ENTRIES && Caught(r, texts, entries, title)
    requires Survives(r, texts, entries, Run(r, texts, from))
    ensures Survives(r, texts, entries, Run(r, texts, n))
    decreases n - from
  {
    if from < n {
      StepSurvives(r, texts, entries, Run(r, texts, from), from, title);
      RunSurvives(r, texts, entries, from + 1, n, title);
    }
  }

  lemma CaughtBlockSpans(r: Reader, texts: seq<string>, entries: seq<Entry>, b: Block, title: nat, i: nat)
    requires Caught(r, texts, entries, title) && CaughtIn(r, texts, entries, b) && BlockShape(r, texts, b)
    requires title <= i <= entries[|entries| - 1].to
    ensures InBlock(b, i)
  {
    assert b.entries[0] == entries[0] && b.entries[|entries| - 1] == entries[|entries| - 1];
    SeriesToOrdered(r, texts, b.entries, |entries| - 1, |b.entries| - 1);
  }

  lemma CaughtRemoved(r: Reader, texts: seq<string>, entries: seq<Entry>, blocks: seq<Block>, k: nat, title: nat, i: nat)
    requires BlocksOk(r, texts, blocks) && k < |blocks| && CaughtIn(r, texts, entries, blocks[k])
    requires Caught(r, texts, entries, title) && title <= i <= entries[|entries| - 1].to
    ensures i in Removed(blocks)
  {
    assert BlockOkAt(r, texts, blocks, k);
    CaughtBlockSpans(r, texts, entries, blocks[k], title, i);
    RemovedMeaning(blocks, i);
  }

  lemma SurvivorRemoved(r: Reader, texts: seq<string>, entries: seq<Entry>, title: nat, i: nat)
    requires Sane(r) && |entries| >= MIN_ENTRIES && Caught(r, texts, entries, title)
    requires Survives(r, texts, entries, Run(r, texts, |texts|)) && title <= i <= entries[|entries| - 1].to
    ensures i in Removed(TocBlocks(r, texts))
  {
    ClosedSurvives(r, texts, entries, Run(r, texts, |texts|), title);
    var blocks := TocBlocks(r, texts);
    var k :| 0 <= k < |blocks| && CaughtIn(r, texts, entries, blocks[k]);
    RemovedBlocksOk(r, texts);
    CaughtRemoved(r, texts, entries, blocks, k, title, i);
  }

  lemma SeriesRemoved(r: Reader, texts: seq<string>, n: nat, entries: seq<Entry>, title: nat, i: nat)
    requires Sane(r) && n <= |texts| && entries == Run(r, texts, n).series
    requires |entries| >= MIN_ENTRIES && Caught(r, texts, entries, title)
    requires title <= i <= entries[|entries| - 1].to
    ensures i in Removed(TocBlocks(r, texts))
  {
    RunSurvives(r, texts, entries, n, |texts|, title);
    SurvivorRemoved(r, texts, entries, title, i);
  }

  lemma {:induction false} SeriesToOrdered(r: Reader, texts: seq<string>, entries: seq<Entry>, j: nat, k: nat)
    requires SeriesOk(r, texts, entries) && j <= k < |entries|
    ensures entries[j].to <= entries[k].to
  {
    if j < k {
      SeriesToOrdered(r, texts, entries, j, k - 1);
      assert OkAt(r, texts, entries, k);
      assert Follows(texts, entries, k);
    }
  }

  // ---------- the method ----------

  method CloseSeries(r: Reader, texts: seq<string>, series: seq<Entry>, drop: set<nat>) returns (out: set<nat>)
    requires InLines(texts, series)
    ensures out == if Accepted(r, texts, series)
                   then drop + Interval(BlockOf(r, texts, series).from, series[|series| - 1].to) else drop
  {
    out := drop;
    if |series| < MIN_ENTRIES {
      return;
    }
    var first := series[0].from;
    var before := PrevText(texts, first);
    var titled := before.Some? && r.isTitle(texts[before.value]);
    if !titled && exists k :: 0 <= k < |series| && series[k].weak {
      return;
    }
    if !titled && !(forall k :: 0 <= k < |series| ==> series[k].dots) {
      var numbered := NumberedEntries(r, texts, series);
      if numbered * 3 < |series| * 2 {
        return;
      }
    }
    var i := if titled then before.value else first;
    ghost var from := i;
    while i <= series[|series| - 1].to
      invariant from <= i
      invariant forall j :: j in out <==> j in drop || (from <= j < i && j <= series[|series| - 1].to)
    {
      out := out + {i};
      i := i + 1;
    }
  }

  method AddEntry(r: Reader, texts: seq<string>, ghost st: Scan, i: nat, wrapped: seq<nat>, page: nat, end: Option<Tail>,
                  drop: set<nat>, series: seq<Entry>)
    returns (drop': set<nat>, series': seq<Entry>)
    requires i < |texts| && WellFormed(texts, st, i) && (forall k :: 0 <= k < |wrapped| ==> wrapped[k] < i)
    requires end == r.tail(texts[i]) && st.series == series && drop == Removed(st.blocks)
    ensures var next := Ends(r, texts, st, i, wrapped, page); series' == next.series && drop' == Removed(next.blocks)
  {
    drop', series' := drop, series;
    if series != [] && page < series[|series| - 1].page {
      drop' := CloseSeries(r, texts, series, drop);
      series' := [];
      ClosedRemoves(r, texts, st);
    }
    var from := if wrapped != [] then wrapped[0] else i;
    series' := series' + [Entry(from, i, page, end.Some? && end.value.weak, end.Some? && end.value.dots)];
  }

  method ReadLine(isLetter: char -> bool, r: Reader, texts: seq<string>, i: nat, ghost st: Scan, drop: set<nat>, series: seq<Entry>, pending: seq<nat>)
    returns (drop': set<nat>, series': seq<Entry>, pending': seq<nat>)
    requires i < |texts| && WellFormed(texts, st, i) && r.tail(texts[i]) == TailOf(isLetter, texts[i])
    requires st.series == series && st.pending == pending && drop == Removed(st.blocks)
    ensures var next := StepLine(r, texts, st, i);
            series' == next.series && pending' == next.pending && drop' == Removed(next.blocks)
  {
    drop', series', pending' := drop, series, pending;
    var line := texts[i];
    if line == "" {
      return;
    }
    var end := TocTail(isLetter, line);
    var wrapped := WrappedLines(r, texts, series, pending, end.Some?);
    if end.None? && (wrapped == [] || !IsBarePage(line)) {
      pending' := pending + [i];
      if |pending'| > WRAP_LINES {
        drop' := CloseSeries(r, texts, series, drop);
        series' := [];
        ClosedRemoves(r, texts, st.(pending := pending'));
      }
      return;
    }
    drop', series' := AddEntry(r, texts, st, i, wrapped, if end.Some? then end.value.page else NumberOf(line), end, drop, series);
    pending' := [];
  }

  lemma ClosedRemoves(r: Reader, texts: seq<string>, st: Scan)
    requires InLines(texts, st.series)
    ensures Removed(Closed(r, texts, st).blocks)
         == if Accepted(r, texts, st.series)
            then Removed(st.blocks) + Interval(BlockOf(r, texts, st.series).from, st.series[|st.series| - 1].to)
            else Removed(st.blocks)
  {
    if Accepted(r, texts, st.series) {
      var b := BlockOf(r, texts, st.series);
      assert (st.blocks + [b])[..|st.blocks|] == st.blocks;
    }
  }

  /** One state of the scan follows from the one before. */
  ghost predicate Chained(r: Reader, texts: seq<string>, states: seq<Scan>, i: nat)
    requires i < |texts| && i + 1 < |states|
  {
    WellFormed(texts, states[i], i) && states[i + 1] == StepLine(r, texts, states[i], i)
  }

  lemma {:induction false} States(r: Reader, texts: seq<string>, n: nat) returns (states: seq<Scan>)
    requires n <= |texts|
    ensures |states| == n + 1 && states[0] == Run(r, texts, 0) && states[n] == Run(r, texts, n)
    ensures forall i :: 0 <= i < n ==> Chained(r, texts, states, i)
  {
    if n == 0 {
      states := [Run(r, texts, 0)];
    } else {
      var before := States(r, texts, n - 1);
      states := before + [Run(r, texts, n)];
      forall i | 0 <= i < n
        ensures Chained(r, texts, states, i)
      {
        if i < n - 1 { assert Chained(r, texts, before, i); }
      }
    }
  }

  /** The loop over the lines. */
  method ScanLines(isLetter: char -> bool, r: Reader, texts: seq<string>, ghost states: seq<Scan>)
    returns (drop: set<nat>, series: seq<Entry>)
    requires forall line :: r.tail(line) == TailOf(isLetter, line)
    requires |states| == |texts| + 1 && states[0] == Scan([], [], [], 0)
    requires forall i :: 0 <= i < |texts| ==> Chained(r, texts, states, i)
    ensures series == states[|texts|].series && drop == Removed(states[|texts|].blocks)
  {
    drop := {};
    series := [];
    var pending: seq<nat> := [];
    for i := 0 to |texts|
      invariant series == states[i].series && pending == states[i].pending && drop == Removed(states[i].blocks)
    {
      assert Chained(r, texts, states, i);
      drop, series, pending := ReadLine(isLetter, r, texts, i, states[i], drop, series, pending);
    }
  }

  method TocLines(
    isLetter: char -> bool, isTitle: string -> bool, isHeadingStart: string -> bool, lines: seq<string>)
    returns (drop: set<nat>)
    ensures drop == Removed(TocBlocks(ReaderOf(isLetter, isTitle, isHeadingStart), T.TrimAll(lines)))
  {
    var r := ReaderOf(isLetter, isTitle, isHeadingStart);
    var texts := T.TrimAll(lines);
    ghost var states := States(r, texts, |texts|);
    var series: seq<Entry>;
    drop, series := ScanLines(isLetter, r, texts, states);
    ClosedRemoves(r, texts, states[|texts|]);
    drop := CloseSeries(r, texts, series, drop);
  }

  method WrappedLines(r: Reader, texts: seq<string>, series: seq<Entry>, pending: seq<nat>, hasTail: bool)
    returns (wrapped: seq<nat>)
    requires PendingIn(texts, pending)
    ensures wrapped == Wrapped(r, texts, series, pending, hasTail)
  {
    var recent := LastOf(pending, WRAP_LINES);
    wrapped := [];
    if series != [] {
      wrapped := pending;
    } else if hasTail {
      for n := 1 to |recent| + 1
        invariant wrapped == if n > 2 && |pending| > 2 && r.isTitle(texts[pending[|pending| - 3]]) then pending[|pending| - 2..]
                             else if n > 1 && |pending| > 1 && r.isTitle(texts[pending[|pending| - 2]]) then pending[|pending| - 1..]
                             else []
      {
        if n < |pending| && r.isTitle(texts[pending[|pending| - n - 1]]) {
          wrapped := pending[|pending| - n..];
        }
      }
    } else {
      var k := FirstHeading(r, texts, recent);
      if k < |recent| {
        wrapped := recent[k..];
      }
    }
  }
}
