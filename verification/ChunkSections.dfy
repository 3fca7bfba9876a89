/** Where a chunk comes from: its text, its section and its path (rag/chunker.ts `chunkByHeadings`, `sectionLabel`, `windows`). */
module ChunkSections {
  import opened Chunker
  import opened Collections
  import opened Prelude
  import T = Text
  import V = Windows
  import W = Words

  // ---------- the lines of a section ----------

  function TrimmedEnds(lines: seq<string>, i: nat, j: nat): (body: seq<string>)
    requires i <= j <= |lines|
    ensures |body| == j - i && forall k :: 0 <= k < j - i ==> body[k] == T.TrimEnd(lines[i + k])
  {
    seq(j - i, k requires 0 <= k < j - i => T.TrimEnd(lines[i + k]))
  }

  /** No heading between these lines, and one right above the first, unless that is the first of the text. */
  ghost predicate Under(p: Parser, lines: seq<string>, i: nat, j: nat)
    requires i <= j <= |lines|
  {
    && (i > 0 ==> HeadingAt(p, lines, i - 1).Some?)
    && forall k :: i <= k < j ==> HeadingAt(p, lines, k).None?
  }

  /** The section holds these lines, and its path is the outline of the headings above. */
  ghost predicate Holds(p: Parser, lines: seq<string>, s: Section, i: nat, j: nat) {
    && i <= j <= |lines| && Under(p, lines, i, j) && (j < |lines| ==> HeadingAt(p, lines, j).Some?)
    && s.body == TrimmedEnds(lines, i, j) && s.path == Outline(HeadingsTo(p, lines, i))
  }

  ghost predicate HoldsSome(p: Parser, lines: seq<string>, s: Section) {
    exists i: nat, j: nat :: Holds(p, lines, s, i, j)
  }

  /** The open section after some lines. */
  ghost predicate Open(p: Parser, lines: seq<string>, st: Scan, i: nat, n: nat) {
    && i <= n <= |lines| && Under(p, lines, i, n)
    && st.body == TrimmedEnds(lines, i, n) && st.path == Outline(HeadingsTo(p, lines, i))
  }

  lemma OneMoreLine(p: Parser, lines: seq<string>, st: Scan, i: nat, n: nat)
    requires n < |lines| && Open(p, lines, st, i, n) && HeadingAt(p, lines, n).None?
    ensures Open(p, lines, st.(body := st.body + [T.TrimEnd(lines[n])]), i, n + 1)
  {
    TrimmedMore(lines, i, n);
    UnderMore(p, lines, i, n);
    var more := TrimmedEnds(lines, i, n + 1);
    assert st.body + [T.TrimEnd(lines[n])] == more;
  }

  lemma UnderMore(p: Parser, lines: seq<string>, i: nat, n: nat)
    requires i <= n < |lines| && Under(p, lines, i, n) && HeadingAt(p, lines, n).None?
    ensures Under(p, lines, i, n + 1)
  {
  }

  lemma TrimmedMore(lines: seq<string>, i: nat, n: nat)
    requires i <= n < |lines|
    ensures TrimmedEnds(lines, i, n) + [T.TrimEnd(lines[n])] == TrimmedEnds(lines, i, n + 1)
  {
  }

  lemma LineRead(p: Parser, lines: seq<string>, i: nat, n: nat, before: Scan, st: Scan)
    requires n < |lines| && before == Run(p, lines, n) && st == Run(p, lines, n + 1) && HeadingAt(p, lines, n).None?
    requires Open(p, lines, before, i, n)
    ensures Open(p, lines, st, i, n + 1) && st.sections == before.sections
  {
    StepReads(p, lines, n);
    OneMoreLine(p, lines, before, i, n);
  }

  lemma HeadingRead(p: Parser, lines: seq<string>, i: nat, n: nat, before: Scan, st: Scan)
    requires n < |lines| && before == Run(p, lines, n) && st == Run(p, lines, n + 1) && HeadingAt(p, lines, n).Some?
    requires Open(p, lines, before, i, n)
    ensures Open(p, lines, st, n + 1, n + 1) && st.sections == before.sections + [Section(before.path, before.body)]
    ensures HoldsSome(p, lines, Section(before.path, before.body))
  {
    StepReads(p, lines, n);
    assert Holds(p, lines, Section(before.path, before.body), i, n);
    ScanPaths(p, lines, n + 1);
  }

  ghost predicate AllHold(p: Parser, lines: seq<string>, sections: seq<Section>) {
    forall s :: s in sections ==> HoldsSome(p, lines, s)
  }

  lemma OneMoreHolds(p: Parser, lines: seq<string>, sections: seq<Section>, s: Section)
    requires AllHold(p, lines, sections) && HoldsSome(p, lines, s)
    ensures AllHold(p, lines, sections + [s])
  {
  }

  lemma StepHolds(p: Parser, lines: seq<string>, i: nat, n: nat, before: Scan, st: Scan) returns (next: nat)
    requires n < |lines| && before == Run(p, lines, n) && st == Run(p, lines, n + 1)
    requires Open(p, lines, before, i, n) && AllHold(p, lines, before.sections)
    ensures Open(p, lines, st, next, n + 1) && AllHold(p, lines, st.sections)
  {
    if HeadingAt(p, lines, n).None? {
      LineRead(p, lines, i, n, before, st);
      next := i;
    } else {
      HeadingRead(p, lines, i, n, before, st);
      OneMoreHolds(p, lines, before.sections, Section(before.path, before.body));
      next := n + 1;
    }
  }

  lemma NothingOpen(p: Parser, lines: seq<string>)
    ensures Open(p, lines, Run(p, lines, 0), 0, 0) && AllHold(p, lines, Run(p, lines, 0).sections)
  {
  }

  lemma {:induction false} ScanHolds(p: Parser, lines: seq<string>, n: nat, st: Scan) returns (i: nat)
    requires n <= |lines| && st == Run(p, lines, n)
    ensures Open(p, lines, st, i, n) && AllHold(p, lines, st.sections)
    decreases n
  {
    if n == 0 {
      NothingOpen(p, lines);
      i := 0;
    } else {
      var before := Run(p, lines, n - 1);
      i := ScanHolds(p, lines, n - 1, before);
      i := StepHolds(p, lines, i, n - 1, before, st);
    }
  }

  /** Every section holds the lines between two headings, or up to the first or from the last one on. */
  lemma SectionsHold(p: Parser, lines: seq<string>)
    ensures forall s :: s in Sections(p, lines) ==> HoldsSome(p, lines, s)
  {
    var st := Run(p, lines, |lines|);
    var i := ScanHolds(p, lines, |lines|, st);
    assert Holds(p, lines, Section(st.path, st.body), i, |lines|);
    OneMoreHolds(p, lines, st.sections, Section(st.path, st.body));
  }

  // ---------- the last heading ----------

  lemma {:induction false} LastIsOpen(headings: seq<Heading>)
    requires headings != []
    ensures Outline(headings) != [] && Outline(headings)[|Outline(headings)| - 1] == headings[|headings| - 1]
  {
    var n := |headings| - 1;
    OutlineGrows(headings[..n], headings[n]);
    assert headings == headings[..n] + [headings[n]];
  }

  lemma {:induction false} NoHeadings(p: Parser, lines: seq<string>, n: nat)
    requires n <= |lines| && forall k :: 0 <= k < n ==> HeadingAt(p, lines, k).None?
    ensures HeadingsTo(p, lines, n) == []
  {
    if n > 0 { NoHeadings(p, lines, n - 1); }
  }

  // ---------- the words of a chunk ----------

  /** These words follow one another in the text. */
  ghost predicate IsPart(part: seq<string>, words: seq<string>) {
    exists a: nat :: PartAt(part, words, a)
  }

  ghost predicate PartAt(part: seq<string>, words: seq<string>, a: nat) {
    a + |part| <= |words| && words[a..a + |part|] == part
  }

  lemma {:induction false} WindowsFromAreParts(words: seq<string>, start: nat, max: nat, step: nat)
    requires start < |words| && step > 0
    ensures forall w :: w in V.WindowsFrom(words, start, max, step) ==> IsPart(w, words)
    decreases |words| - start
  {
    assert PartAt(words[start..Min(start + max, |words|)], words, start);
    if start + max < |words| && start + step < |words| { WindowsFromAreParts(words, start + step, max, step); }
  }

  lemma WindowsAreParts(words: seq<string>, max: nat, overlap: int)
    ensures forall w :: w in V.Windows(words, max, overlap) ==> IsPart(w, words)
  {
    if |words| <= max {
      assert PartAt(words, words, 0);
    } else {
      WindowsFromAreParts(words, 0, max, V.StepOf(max, overlap));
    }
  }

  lemma GroupParts(p: Parser, o: Options, s: Section, order: nat)
    ensures forall c :: c in Group(p, o, s, order) ==> IsPart(W.WordsOf(c.content), W.WordsOfAll(s.body))
  {
    var g, words := Group(p, o, s, order), W.WordsOfAll(s.body);
    GroupWords(p, o, s, order);
    WindowsAreParts(words, o.maxWords, o.overlapWords);
    forall c | c in g
      ensures IsPart(W.WordsOf(c.content), words)
    {
      var k: nat :| k < |g| && g[k] == c;
      assert ContentsOf(g)[k] == W.WordsOf(c.content) && ContentsOf(g)[k] in ContentsOf(g);
    }
  }

  lemma {:induction false} TrimmedWords(lines: seq<string>, i: nat, j: nat)
    requires i <= j <= |lines|
    ensures W.WordsOfAll(TrimmedEnds(lines, i, j)) == W.WordsOfAll(lines[i..j])
    decreases j - i
  {
    if i < j {
      TrimmedWords(lines, i + 1, j);
      W.TrimEndWords(lines[i]);
      assert TrimmedEnds(lines, i, j)[1..] == TrimmedEnds(lines, i + 1, j) && lines[i..j][1..] == lines[i + 1..j];
    }
  }

  // ---------- where a chunk comes from ----------

  /** The chunk is named after the heading right above line `i`, and its path are the titles of the headings open there; above
      the first heading it has neither. */
  ghost predicate NamedAt(p: Parser, lines: seq<string>, c: Chunk, i: nat)
    requires i <= |lines| && (i > 0 ==> HeadingAt(p, lines, i - 1).Some?)
  {
    if i == 0 then c.section == None && c.path == []
    else
      && c.section == Some(p.name(HeadingAt(p, lines, i - 1).value))
      && c.path == TitlesOf(Outline(HeadingsTo(p, lines, i)))
      && c.path != [] && c.path[|c.path| - 1] == HeadingAt(p, lines, i - 1).value.title
  }

  /** Its words stand between two headings, or up to the first or from the last on, and it is named after the one above. */
  ghost predicate From(p: Parser, lines: seq<string>, c: Chunk, i: nat, j: nat) {
    && i <= j <= |lines| && Under(p, lines, i, j) && (j < |lines| ==> HeadingAt(p, lines, j).Some?)
    && IsPart(W.WordsOf(c.content), W.WordsOfAll(lines[i..j]))
    && NamedAt(p, lines, c, i)
  }

  lemma ChunkNamed(p: Parser, o: Options, s: Section, order: nat, c: Chunk)
    requires c in Group(p, o, s, order)
    ensures c.section == (if s.path == [] then None else Some(p.name(s.path[|s.path| - 1]))) && c.path == TitlesOf(s.path)
  {
    var content := ContentOf(s.body);
    var words := W.SplitSpaces(content);
    OverNamed(p, s.path, content, |words| <= o.maxWords, V.Windows(words, o.maxWords, o.overlapWords), order, c);
  }

  lemma OverNamed(p: Parser, path: seq<Heading>, content: string, whole: bool, ws: seq<seq<string>>, order: nat, c: Chunk)
    requires c in GroupOver(p, path, content, whole, ws, order)
    ensures c.section == (if path == [] then None else Some(p.name(path[|path| - 1]))) && c.path == TitlesOf(path)
  {
    var k: nat :| k < |ws| && GroupOver(p, path, content, whole, ws, order)[k] == c;
    GroupAt(p, path, content, whole, ws, order, k);
  }

  lemma HeadingAbove(p: Parser, lines: seq<string>, i: nat)
    requires 0 < i <= |lines| && HeadingAt(p, lines, i - 1).Some?
    ensures var path := Outline(HeadingsTo(p, lines, i));
            path != [] && path[|path| - 1] == HeadingAt(p, lines, i - 1).value
  {
    LastIsOpen(HeadingsTo(p, lines, i));
  }

  lemma NamedAfter(p: Parser, lines: seq<string>, c: Chunk, path: seq<Heading>, i: nat)
    requires i <= |lines| && (i > 0 ==> HeadingAt(p, lines, i - 1).Some?) && path == Outline(HeadingsTo(p, lines, i))
    requires c.section == (if path == [] then None else Some(p.name(path[|path| - 1]))) && c.path == TitlesOf(path)
    ensures NamedAt(p, lines, c, i)
  {
    if i > 0 { HeadingAbove(p, lines, i); }
  }

  lemma SectionFrom(p: Parser, o: Options, lines: seq<string>, s: Section, order: nat, c: Chunk, i: nat, j: nat)
    requires Holds(p, lines, s, i, j) && c in Group(p, o, s, order)
    ensures From(p, lines, c, i, j)
  {
    ChunkNamed(p, o, s, order, c);
    NamedAfter(p, lines, c, s.path, i);
    GroupParts(p, o, s, order);
    TrimmedWords(lines, i, j);
  }

  lemma {:induction false} InSomeGroup(p: Parser, o: Options, sections: seq<Section>, c: Chunk) returns (s: Section, order: nat)
    requires c in Flatten(Groups(p, o, sections))
    ensures s in sections && c in Group(p, o, s, order)
  {
    var n := |sections| - 1;
    GroupsOfMore(p, o, sections[..n], sections[n]);
    LastApart(sections, []);
    NothingAdded(sections[..n] + [sections[n]], []);
    order := |Flatten(Groups(p, o, sections[..n]))|;
    if c in Group(p, o, sections[n], order) {
      s := sections[n];
    } else {
      s, order := InSomeGroup(p, o, sections[..n], c);
    }
  }

  // ---------- the text it shows, and the text that is embedded ----------

  /** Its words, one space apart. */
  function OneLine(words: seq<string>): string {
    T.Join(words, " ")
  }

  /** A chunk shows the lines it comes from if they are short enough, with their blank lines thinned out and nothing blank around
      them, and else its words one space apart; these are embedded behind the titles of its path. */
  ghost predicate Shows(o: Options, c: Chunk, body: seq<string>) {
    var words := W.WordsOf(c.content);
    && c.content == (if |W.WordsOfAll(body)| <= o.maxWords then T.Trim(W.Collapse(T.Join(body, "\n"))) else OneLine(words))
    && c.embedText == (if c.path == [] then OneLine(words) else T.Join(c.path, " › ") + "\n\n" + OneLine(words))
  }

  lemma OneShows(p: Parser, o: Options, body: seq<string>, path: seq<Heading>, whole: bool, window: seq<string>, order: nat, c: Chunk)
    requires W.AllWords(window) && (whole ==> W.WordsOf(ContentOf(body)) == window)
    requires whole == (|W.WordsOfAll(body)| <= o.maxWords) && c == ChunkOf(p, path, ContentOf(body), whole, window, order)
    ensures Shows(o, c, body)
  {
    W.JoinedWords(window);
    assert TitlesOf(path) == [] <==> path == [];
  }

  lemma OverShows(p: Parser, o: Options, body: seq<string>, path: seq<Heading>, ws: seq<seq<string>>, order: nat, c: Chunk)
    requires var whole, words := |W.WordsOfAll(body)| <= o.maxWords, W.WordsOfAll(body);
             && W.WordsOf(ContentOf(body)) == words
             && (forall w :: w in ws ==> W.AllWords(w) && (whole ==> w == words))
             && c in GroupOver(p, path, ContentOf(body), whole, ws, order)
    ensures Shows(o, c, body)
  {
    var whole := |W.WordsOfAll(body)| <= o.maxWords;
    var k: nat :| k < |ws| && GroupOver(p, path, ContentOf(body), whole, ws, order)[k] == c;
    assert ws[k] in ws;
    GroupAt(p, path, ContentOf(body), whole, ws, order, k);
    OneShows(p, o, body, path, whole, ws[k], order + k, c);
  }

  lemma GroupShows(p: Parser, o: Options, s: Section, order: nat, c: Chunk)
    requires c in Group(p, o, s, order)
    ensures Shows(o, c, s.body)
  {
    var content, words := ContentOf(s.body), W.WordsOfAll(s.body);
    ContentWords(s.body);
    W.WordsAreWords(content);
    WindowsAreWords(words, o);
    OverShows(p, o, s.body, s.path, V.Windows(words, o.maxWords, o.overlapWords), order, c);
  }

  /** Every chunk of a text comes from lines below one heading, the nearest above, after which it is named; it shows them, and
      is embedded with them behind its path. */
  lemma ChunksComeFrom(p: Parser, o: Options, text: string, c: Chunk) returns (i: nat, j: nat)
    requires c in Chunks(p, o, text)
    ensures var lines := Blanked(LinesOf(text), TocOf(p, LinesOf(text))); From(p, lines, c, i, j) && Shows(o, c, TrimmedEnds(lines, i, j))
  {
    var lines := Blanked(LinesOf(text), TocOf(p, LinesOf(text)));
    SectionsHold(p, lines);
    var s, order := InSomeGroup(p, o, SectionsOf(p, text), c);
    i, j :| Holds(p, lines, s, i, j);
    SectionFrom(p, o, lines, s, order, c, i, j);
    GroupShows(p, o, s, order, c);
  }

  // ---------- blank lines ----------

  function Newlines(n: nat): string {
    if n == 0 then "" else "\n" + Newlines(n - 1)
  }

  lemma {:induction false} RunOfNewlines(n: nat)
    ensures |Newlines(n)| == n && W.NewlineRun(Newlines(n)) == n
  {
    if n > 0 {
      RunOfNewlines(n - 1);
      assert Newlines(n)[1..] == Newlines(n - 1);
    }
  }

  /** A run of line breaks becomes two if it is longer. */
  lemma RunsAreThinned(n: nat)
    ensures W.Collapse(Newlines(n)) == Newlines(Min(n, 2))
  {
    RunOfNewlines(n);
    assert Newlines(n)[n..] == "" && Newlines(n)[..n] == Newlines(n);
    assert Newlines(2) == "\n" + ("\n" + "");
  }

  lemma {:induction false} RunStops(a: string, c: char, b: string)
    requires c != '\n'
    ensures W.NewlineRun(a + [c] + b) == W.NewlineRun(a)
  {
    var whole := a + [c] + b;
    if a == "" {
      assert whole[0] == c;
    } else {
      assert whole[0] == a[0] && whole[1..] == a[1..] + [c] + b;
      RunStops(a[1..], c, b);
    }
  }

  /** What stands before and after another character is thinned by itself. */
  lemma {:induction false} ThinnedApart(a: string, c: char, b: string)
    requires c != '\n'
    ensures W.Collapse(a + [c] + b) == W.Collapse(a) + [c] + W.Collapse(b)
    decreases |a|
  {
    var whole, n := a + [c] + b, W.NewlineRun(a);
    RunStops(a, c, b);
    if a == "" {
      assert whole[0] == c && whole[1..] == b;
    } else if n == 0 {
      assert whole[0] == a[0] && whole[1..] == a[1..] + [c] + b;
      ThinnedApart(a[1..], c, b);
      FourParts([a[0]], W.Collapse(a[1..]), [c], W.Collapse(b));
    } else {
      assert whole[n..] == a[n..] + [c] + b && whole[..n] == a[..n];
      ThinnedApart(a[n..], c, b);
      FourParts(W.Kept(a), W.Collapse(a[n..]), [c], W.Collapse(b));
    }
  }
}
