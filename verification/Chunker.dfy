/** Cutting a specification into chunks by its headings (rag/chunker.ts `chunkByHeadings`). */
module Chunker {
  import opened Collections
  import opened Prelude
  import T = Text
  import Toc
  import W = Words
  import V = Windows

  datatype Heading = Heading(level: nat, title: string, number: Option<string>)

  datatype Options = Options(maxWords: nat, overlapWords: int)

  const DEFAULTS := Options(220, 40)

  datatype Chunk = Chunk(section: Option<string>, path: seq<string>, content: string, embedText: string, order: nat)

  /** What is read in the text by patterns: letters and titles of contents, headings where they stand, the section's name. */
  datatype Parser = Parser(
    isLetter: char -> bool,
    isTitle: string -> bool,
    isHeadingStart: string -> bool,
    heading: (seq<string>, nat, bool, bool) -> Option<Heading>,
    name: Heading -> string)

  // ---------- lines ----------

  /** `replace(/\r\n?/g, '\n')`. */
  function Newlines(s: string): string {
    if s == "" then ""
    else if s[0] != '\r' then [s[0]] + Newlines(s[1..])
    else if |s| > 1 && s[1] == '\n' then "\n" + Newlines(s[2..])
    else "\n" + Newlines(s[1..])
  }

  /** The lines of the contents put out: empty from here on. */
  function Blanked(lines: seq<string>, drop: set<nat>): (out: seq<string>)
    ensures |out| == |lines|
  {
    seq(|lines|, i requires 0 <= i < |lines| => if i in drop then "" else lines[i])
  }

  function TocOf(p: Parser, lines: seq<string>): set<nat> {
    Toc.Removed(Toc.TocBlocks(Toc.ReaderOf(p.isLetter, p.isTitle, p.isHeadingStart), T.TrimAll(lines)))
  }

  // ---------- sections ----------

  datatype Section = Section(path: seq<Heading>, body: seq<string>)

  datatype Scan = Scan(sections: seq<Section>, path: seq<Heading>, body: seq<string>, prevIsHeading: bool, atStart: bool)

  const START := Scan([], [], [], false, true)

  /** `path.filter((h) => h.level < level)`. */
  function Above(path: seq<Heading>, level: nat): seq<Heading> {
    if path == [] then []
    else Above(path[..|path| - 1], level) + if path[|path| - 1].level < level then [path[|path| - 1]] else []
  }

  function Advance(st: Scan, line: string, blank: bool, heading: Option<Heading>): Scan {
    if heading.Some? then
      Scan(st.sections + [Section(st.path, st.body)], Above(st.path, heading.value.level) + [heading.value], [],
           true, st.atStart && blank)
    else
      Scan(st.sections, st.path, st.body + [line], false, st.atStart && blank)
  }

  function StepLine(p: Parser, lines: seq<string>, st: Scan, i: nat): Scan
    requires i < |lines|
  {
    Advance(st, T.TrimEnd(lines[i]), T.Trim(lines[i]) == "", p.heading(lines, i, st.prevIsHeading, st.atStart))
  }

  function Run(p: Parser, lines: seq<string>, n: nat): Scan
    requires n <= |lines|
  {
    if n == 0 then START else StepLine(p, lines, Run(p, lines, n - 1), n - 1)
  }

  function Sections(p: Parser, lines: seq<string>): seq<Section> {
    var st := Run(p, lines, |lines|);
    st.sections + [Section(st.path, st.body)]
  }

  // ---------- chunks ----------

  function ContentOf(body: seq<string>): string {
    T.Trim(W.Collapse(T.Join(body, "\n")))
  }

  function TitlesOf(path: seq<Heading>): seq<string> {
    seq(|path|, k requires 0 <= k < |path| => path[k].title)
  }

  /** `titles.join(' › ')`. */
  function Trail(titles: seq<string>): string {
    T.Join(titles, " › ")
  }

  /** What a chunk shows: the section's text as it stands if it fits in one, else the words of a window. */
  function Shown(content: string, whole: bool, window: seq<string>): string {
    if whole then content else T.Join(window, " ")
  }

  function ChunkOf(p: Parser, path: seq<Heading>, content: string, whole: bool, window: seq<string>, order: nat): Chunk {
    var part := T.Join(window, " ");
    Chunk(
      if path == [] then None else Some(p.name(path[|path| - 1])),
      TitlesOf(path),
      Shown(content, whole, window),
      if path == [] then part else Trail(TitlesOf(path)) + "\n\n" + part,
      order)
  }

  function GroupOver(p: Parser, path: seq<Heading>, content: string, whole: bool, ws: seq<seq<string>>, order: nat): seq<Chunk> {
    seq(|ws|, k requires 0 <= k < |ws| => ChunkOf(p, path, content, whole, ws[k], order + k))
  }

  /** The chunks of one section, the first of them with the given order. */
  function Group(p: Parser, o: Options, s: Section, order: nat): (g: seq<Chunk>) {
    var content := ContentOf(s.body);
    if content == "" then [] else
      var words := W.SplitSpaces(content);
      GroupOver(p, s.path, content, |words| <= o.maxWords, V.Windows(words, o.maxWords, o.overlapWords), order)
  }

  function Groups(p: Parser, o: Options, sections: seq<Section>): (gs: seq<seq<Chunk>>)
    ensures |gs| == |sections|
  {
    if sections == [] then [] else
      var before := Groups(p, o, sections[..|sections| - 1]);
      before + [Group(p, o, sections[|sections| - 1], |Flatten(before)|)]
  }

  function LinesOf(text: string): seq<string> {
    T.SplitLines(Newlines(text))
  }

  function SectionsOf(p: Parser, text: string): seq<Section> {
    Sections(p, Blanked(LinesOf(text), TocOf(p, LinesOf(text))))
  }

  function Chunks(p: Parser, o: Options, text: string): seq<Chunk> {
    Flatten(Groups(p, o, SectionsOf(p, text)))
  }

  // ---------- the loops of the program ----------

  lemma GroupsOfMore(p: Parser, o: Options, sections: seq<Section>, s: Section)
    ensures Groups(p, o, sections + [s]) == Groups(p, o, sections) + [Group(p, o, s, |Flatten(Groups(p, o, sections))|)]
    ensures Flatten(Groups(p, o, sections + [s]))
         == Flatten(Groups(p, o, sections)) + Group(p, o, s, |Flatten(Groups(p, o, sections))|)
  {
    var more := sections + [s];
    assert more[..|more| - 1] == sections;
    var groups := Groups(p, o, sections);
    var grown := groups + [Group(p, o, s, |Flatten(groups)|)];
    assert grown[..|grown| - 1] == groups;
  }

  method PushWindows(
    p: Parser, path: seq<Heading>, content: string, whole: bool, windows: seq<seq<string>>, chunks: seq<Chunk>)
    returns (out: seq<Chunk>)
    ensures out == chunks + GroupOver(p, path, content, whole, windows, |chunks|)
  {
    out := chunks;
    ghost var group := GroupOver(p, path, content, whole, windows, |chunks|);
    for k := 0 to |windows|
      invariant out == chunks + group[..k]
    {
      TakeMore(chunks, group, k);
      out := out + [ChunkOf(p, path, content, whole, windows[k], |out|)];
    }
  }

  method Flush(p: Parser, o: Options, path: seq<Heading>, body: seq<string>, chunks: seq<Chunk>)
    returns (out: seq<Chunk>)
    ensures out == chunks + Group(p, o, Section(path, body), |chunks|)
  {
    var content := ContentOf(body);
    if content == "" {
      return chunks;
    }
    var words := W.SplitSpaces(content);
    var windows := V.CutWindows(words, o.maxWords, o.overlapWords);
    out := PushWindows(p, path, content, |words| <= o.maxWords, windows, chunks);
  }

  method ChunkByHeadings(p: Parser, o: Options, text: string) returns (chunks: seq<Chunk>)
    ensures chunks == Chunks(p, o, text)
  {
    var read := T.SplitLines(Newlines(text));
    var drop := Toc.TocLines(p.isLetter, p.isTitle, p.isHeadingStart, read);
    var lines := Blanked(read, drop);
    chunks := [];
    var path: seq<Heading> := [];
    var body: seq<string> := [];
    var prevIsHeading, atStart := false, true;
    ghost var st := START;
    for i := 0 to |lines|
      invariant st == Run(p, lines, i)
      invariant path == st.path && body == st.body && prevIsHeading == st.prevIsHeading && atStart == st.atStart
      invariant chunks == Flatten(Groups(p, o, st.sections))
    {
      var line := T.TrimEnd(lines[i]);
      var heading := p.heading(lines, i, prevIsHeading, atStart);
      prevIsHeading := heading.Some?;
      if T.Trim(lines[i]) != "" {
        atStart := false;
      }
      if heading.Some? {
        GroupsOfMore(p, o, st.sections, Section(path, body));
        chunks := Flush(p, o, path, body, chunks);
        body := [];
        path := Above(path, heading.value.level) + [heading.value];
      } else {
        body := body + [line];
      }
      st := StepLine(p, lines, st, i);
    }
    GroupsOfMore(p, o, st.sections, Section(path, body));
    chunks := Flush(p, o, path, body, chunks);
  }

  // ---------- the path ----------

  ghost predicate Increasing(path: seq<Heading>) {
    forall k :: 0 < k < |path| ==> Steps(path, k)
  }

  ghost predicate Steps(path: seq<Heading>, k: nat)
    requires 0 < k < |path|
  {
    path[k - 1].level < path[k].level
  }

  /** The headings among the first n lines. */
  function HeadingsTo(p: Parser, lines: seq<string>, n: nat): seq<Heading>
    requires n <= |lines|
  {
    if n == 0 then [] else
      var heading := HeadingAt(p, lines, n - 1);
      HeadingsTo(p, lines, n - 1) + if heading.Some? then [heading.value] else []
  }

  predicate BlankTo(lines: seq<string>, n: nat)
    requires n <= |lines|
  {
    forall i :: 0 <= i < n ==> T.Trim(lines[i]) == ""
  }

  /** The heading in a line: what the pattern finds there, told of the line above and of the text so far. */
  function HeadingAt(p: Parser, lines: seq<string>, i: nat): Option<Heading>
    requires i < |lines|
  {
    p.heading(lines, i, i > 0 && HeadingAt(p, lines, i - 1).Some?, BlankTo(lines, i))
  }

  ghost predicate OpenAfter(h: Heading, later: seq<Heading>) {
    forall k :: 0 <= k < |later| ==> h.level < later[k].level
  }

  /** The open headings: those that all later headings are below. */
  ghost function Outline(headings: seq<Heading>): seq<Heading> {
    if headings == [] then []
    else (if OpenAfter(headings[0], headings[1..]) then [headings[0]] else []) + Outline(headings[1..])
  }

  lemma AboveFront(h: Heading, path: seq<Heading>, level: nat)
    ensures Above([h] + path, level) == Above([h], level) + Above(path, level)
  {
    if path == [] {
      assert [h] + path == [h];
    } else {
      AboveFront(h, path[..|path| - 1], level);
      assert ([h] + path)[..|path|] == [h] + path[..|path| - 1];
    }
  }

  lemma OutlineOf(headings: seq<Heading>, first: Heading, later: seq<Heading>)
    requires headings == [first] + later
    ensures Outline(headings) == (if OpenAfter(first, later) then [first] else []) + Outline(later)
  {
    assert headings[1..] == later;
  }

  lemma AboveJoined(first: Heading, open: bool, path: seq<Heading>, h: Heading)
    ensures (if open && first.level < h.level then [first] else []) + (Above(path, h.level) + [h])
         == Above((if open then [first] else []) + path, h.level) + [h]
  {
    if open {
      AboveFront(first, path, h.level);
      AboveOne(first, h.level);
      Associates(Above([first], h.level), Above(path, h.level), [h]);
    } else {
      assert [] + path == path;
    }
  }

  lemma OutlineOfOne(headings: seq<Heading>, none: seq<Heading>, h: Heading)
    requires none == [] && headings == none + [h]
    ensures Outline(headings) == Above(Outline(none), h.level) + [h]
  {
    OutlineOf(headings, h, none);
  }

  lemma {:induction false} OutlineGrows(headings: seq<Heading>, h: Heading)
    ensures Outline(headings + [h]) == Above(Outline(headings), h.level) + [h]
  {
    if headings == [] {
      OutlineOfOne(headings + [h], headings, h);
    } else {
      var first, rest := headings[0], headings[1..];
      OutlineGrows(rest, h);
      GrownBy(first, rest, h, headings, headings + [h], rest + [h]);
    }
  }

  lemma GrownBy(first: Heading, rest: seq<Heading>, h: Heading, before: seq<Heading>, after: seq<Heading>, later: seq<Heading>)
    requires before == [first] + rest && after == [first] + later && later == rest + [h]
    requires Outline(later) == Above(Outline(rest), h.level) + [h]
    ensures Outline(after) == Above(Outline(before), h.level) + [h]
  {
    OutlineOf(before, first, rest);
    OutlineOf(after, first, later);
    OpenAfterMore(first, rest, h);
    AboveJoined(first, OpenAfter(first, rest), Outline(rest), h);
  }

  lemma AboveOne(h: Heading, level: nat)
    ensures Above([h], level) == if h.level < level then [h] else []
  {
    assert [h][..0] == [];
  }

  lemma OpenAfterMore(first: Heading, rest: seq<Heading>, h: Heading)
    ensures OpenAfter(first, rest + [h]) <==> OpenAfter(first, rest) && first.level < h.level
  {
    assert (rest + [h])[|rest|] == h;
    if OpenAfter(first, rest + [h]) {
      assert forall k :: 0 <= k < |rest| ==> rest[k] == (rest + [h])[k];
    }
  }

  lemma BlankMore(lines: seq<string>, n: nat)
    requires n < |lines|
    ensures BlankTo(lines, n + 1) == (BlankTo(lines, n) && T.Trim(lines[n]) == "")
  {
  }

  lemma {:induction false} ScanReads(p: Parser, lines: seq<string>, n: nat)
    requires n <= |lines|
    ensures Run(p, lines, n).prevIsHeading == (n > 0 && HeadingAt(p, lines, n - 1).Some?)
    ensures Run(p, lines, n).atStart == BlankTo(lines, n)
  {
    if n > 0 {
      ScanReads(p, lines, n - 1);
      BlankMore(lines, n - 1);
      var st := Run(p, lines, n - 1);
      assert HeadingAt(p, lines, n - 1) == p.heading(lines, n - 1, st.prevIsHeading, st.atStart);
    }
  }

  lemma StepReads(p: Parser, lines: seq<string>, i: nat)
    requires i < |lines|
    ensures Run(p, lines, i + 1)
         == Advance(Run(p, lines, i), T.TrimEnd(lines[i]), T.Trim(lines[i]) == "", HeadingAt(p, lines, i))
  {
    ScanReads(p, lines, i);
  }

  ghost predicate PathsTo(headings: seq<Heading>, st: Scan) {
    && st.path == Outline(headings)
    && |st.sections| == |headings|
    && forall k :: 0 <= k < |headings| ==> st.sections[k].path == Outline(headings[..k])
  }

  lemma AdvancePaths(headings: seq<Heading>, st: Scan, line: string, blank: bool, heading: Option<Heading>)
    requires PathsTo(headings, st)
    ensures PathsTo(headings + if heading.Some? then [heading.value] else [], Advance(st, line, blank, heading))
  {
    if heading.Some? {
      OutlineGrows(headings, heading.value);
      var now := headings + [heading.value];
      assert forall k :: 0 <= k <= |headings| ==> now[..k] == headings[..k];
      assert headings[..|headings|] == headings;
    } else {
      assert headings + [] == headings;
    }
  }

  /** Every heading closes a section, and a section's path is what is then open of the headings above it. */
  lemma {:induction false} ScanPaths(p: Parser, lines: seq<string>, n: nat)
    requires n <= |lines|
    ensures PathsTo(HeadingsTo(p, lines, n), Run(p, lines, n))
  {
    if n > 0 {
      ScanPaths(p, lines, n - 1);
      StepReads(p, lines, n - 1);
      AdvancePaths(HeadingsTo(p, lines, n - 1), Run(p, lines, n - 1), T.TrimEnd(lines[n - 1]), T.Trim(lines[n - 1]) == "",
                   HeadingAt(p, lines, n - 1));
    }
  }

  lemma {:induction false} AboveIncreasing(path: seq<Heading>, level: nat)
    requires Increasing(path)
    ensures Increasing(Above(path, level))
    ensures forall h :: h in Above(path, level) ==> h in path && h.level < level
    ensures Above(path, level) != [] ==> path != [] && Above(path, level)[|Above(path, level)| - 1].level <= path[|path| - 1].level
  {
    if path != [] {
      var shorter, last := path[..|path| - 1], path[|path| - 1];
      assert forall k :: 0 < k < |shorter| ==> (Steps(path, k) <==> Steps(shorter, k));
      AboveIncreasing(shorter, level);
      if |path| > 1 { assert Steps(path, |path| - 1); }
      var above := Above(shorter, level);
      var out := Above(path, level);
      forall k | 0 < k < |out|
        ensures Steps(out, k)
      {
        if k < |above| { assert Steps(above, k); }
      }
    }
  }

  lemma PathGrows(path: seq<Heading>, h: Heading)
    requires Increasing(path)
    ensures Increasing(Above(path, h.level) + [h])
  {
    AboveIncreasing(path, h.level);
    var above := Above(path, h.level);
    var out := above + [h];
    forall k | 0 < k < |out|
      ensures Steps(out, k)
    {
      if k < |above| { assert Steps(above, k); } else { assert above[k - 1] in above; }
    }
  }

  lemma {:induction false} OutlineIncreases(headings: seq<Heading>)
    ensures Increasing(Outline(headings))
  {
    if headings != [] {
      var n := |headings| - 1;
      OutlineIncreases(headings[..n]);
      OutlineGrows(headings[..n], headings[n]);
      PathGrows(Outline(headings[..n]), headings[n]);
      assert headings == headings[..n] + [headings[n]];
    }
  }

  /** Section by section: the path has strictly growing levels, and holds the headings above that are still open. */
  lemma PathsAreOutlines(p: Parser, lines: seq<string>)
    ensures var headings := HeadingsTo(p, lines, |lines|);
            && |Sections(p, lines)| == |headings| + 1
            && forall k :: 0 <= k <= |headings| ==>
                 Sections(p, lines)[k].path == Outline(headings[..k]) && Increasing(Outline(headings[..k]))
  {
    var headings, st := HeadingsTo(p, lines, |lines|), Run(p, lines, |lines|);
    ScanPaths(p, lines, |lines|);
    OpenBehind(headings, st, Sections(p, lines));
    forall k | 0 <= k <= |headings|
      ensures Increasing(Outline(headings[..k]))
    {
      OutlineIncreases(headings[..k]);
    }
  }

  lemma OpenBehind(headings: seq<Heading>, st: Scan, sections: seq<Section>)
    requires PathsTo(headings, st) && sections == st.sections + [Section(st.path, st.body)]
    ensures |sections| == |headings| + 1 && forall k :: 0 <= k <= |headings| ==> sections[k].path == Outline(headings[..k])
  {
    assert headings[..|headings|] == headings;
  }

  // ---------- no word is lost ----------

  /** The words of a line, none if it is a line of the contents. */
  function LineWords(lines: seq<string>, drop: set<nat>, i: nat): seq<string>
    requires i < |lines|
  {
    if i in drop then [] else W.WordsOf(lines[i])
  }

  /** The words of the first n lines that are neither headings nor lines of the contents. */
  function KeptWords(p: Parser, lines: seq<string>, drop: set<nat>, n: nat): seq<string>
    requires n <= |lines|
  {
    if n == 0 then []
    else
      KeptWords(p, lines, drop, n - 1)
      + if HeadingAt(p, Blanked(lines, drop), n - 1).Some? then [] else LineWords(lines, drop, n - 1)
  }

  function BodyWords(sections: seq<Section>): seq<string> {
    if sections == [] then [] else BodyWords(sections[..|sections| - 1]) + W.WordsOfAll(sections[|sections| - 1].body)
  }

  lemma BodyWordsMore(sections: seq<Section>, s: Section)
    ensures BodyWords(sections + [s]) == BodyWords(sections) + W.WordsOfAll(s.body)
  {
    assert (sections + [s])[..|sections|] == sections;
  }

  function ScanWords(st: Scan): seq<string> {
    BodyWords(st.sections) + W.WordsOfAll(st.body)
  }

  lemma AdvanceKeepsWords(st: Scan, line: string, blank: bool, heading: Option<Heading>, words: seq<string>)
    requires W.WordsOf(line) == words
    ensures ScanWords(Advance(st, line, blank, heading)) == ScanWords(st) + if heading.Some? then [] else words
  {
    if heading.Some? {
      BodyWordsMore(st.sections, Section(st.path, st.body));
    } else {
      LineKeepsWords(st.body, line);
      Associates(BodyWords(st.sections), W.WordsOfAll(st.body), words);
    }
  }

  lemma LineKeepsWords(body: seq<string>, line: string)
    ensures W.WordsOfAll(body + [line]) == W.WordsOfAll(body) + W.WordsOf(line)
  {
    W.WordsOfAllConcat(body, [line]);
    assert W.WordsOfAll([line][1..]) == [];
  }

  lemma BlankedWords(lines: seq<string>, drop: set<nat>, i: nat)
    requires i < |lines|
    ensures W.WordsOf(T.TrimEnd(Blanked(lines, drop)[i])) == LineWords(lines, drop, i)
  {
    W.TrimEndWords(Blanked(lines, drop)[i]);
  }

  lemma StepKeepsWords(p: Parser, lines: seq<string>, i: nat, words: seq<string>)
    requires i < |lines| && W.WordsOf(T.TrimEnd(lines[i])) == words
    ensures ScanWords(Run(p, lines, i + 1))
         == ScanWords(Run(p, lines, i)) + if HeadingAt(p, lines, i).Some? then [] else words
  {
    StepReads(p, lines, i);
    AdvanceKeepsWords(Run(p, lines, i), T.TrimEnd(lines[i]), T.Trim(lines[i]) == "", HeadingAt(p, lines, i), words);
  }

  lemma {:induction false} ScanKeepsWords(p: Parser, lines: seq<string>, drop: set<nat>, n: nat)
    requires n <= |lines|
    ensures ScanWords(Run(p, Blanked(lines, drop), n)) == KeptWords(p, lines, drop, n)
  {
    if n > 0 {
      ScanKeepsWords(p, lines, drop, n - 1);
      BlankedWords(lines, drop, n - 1);
      StepKeepsWords(p, Blanked(lines, drop), n - 1, LineWords(lines, drop, n - 1));
    }
  }

  lemma SectionsKeepWords(p: Parser, text: string)
    ensures BodyWords(SectionsOf(p, text)) == KeptWords(p, LinesOf(text), TocOf(p, LinesOf(text)), |LinesOf(text)|)
  {
    var lines, drop := LinesOf(text), TocOf(p, LinesOf(text));
    var st := Run(p, Blanked(lines, drop), |lines|);
    ScanKeepsWords(p, lines, drop, |lines|);
    BodyWordsMore(st.sections, Section(st.path, st.body));
  }

  lemma ContentWords(body: seq<string>)
    ensures W.WordsOf(ContentOf(body)) == W.WordsOfAll(body)
    ensures ContentOf(body) != "" ==> W.SplitSpaces(ContentOf(body)) == W.WordsOfAll(body)
  {
    var joined := T.Join(body, "\n");
    W.JoinWords(body, '\n');
    W.CollapseWords("", joined);
    assert "" + joined == joined && "" + W.Collapse(joined) == W.Collapse(joined);
    W.TrimWords(W.Collapse(joined));
    if ContentOf(body) != "" {
      W.SplitIsWords(ContentOf(body));
    }
  }

  function ContentsOf(g: seq<Chunk>): (words: seq<seq<string>>) {
    seq(|g|, k requires 0 <= k < |g| => W.WordsOf(g[k].content))
  }

  lemma WordsWithin(window: seq<string>, words: seq<string>)
    requires V.Within(window, words) && W.AllWords(words)
    ensures W.AllWords(window)
  {
    forall k | 0 <= k < |window|
      ensures W.IsWord(window[k])
    {
      assert window[k] in window;
    }
  }

  lemma ContentsAt(g: seq<Chunk>, k: nat, content: string, whole: bool, window: seq<string>)
    requires k < |g| && g[k].content == Shown(content, whole, window)
    requires W.AllWords(window)
    requires whole ==> W.WordsOf(content) == window
    ensures ContentsOf(g)[k] == window
  {
    if !whole {
      W.JoinedWords(window);
    }
  }

  lemma ContentsAre(g: seq<Chunk>, content: string, words: seq<string>, whole: bool, ws: seq<seq<string>>)
    requires |g| == |ws|
    requires forall k :: 0 <= k < |ws| ==> g[k].content == Shown(content, whole, ws[k])
    requires forall k :: 0 <= k < |ws| ==> W.AllWords(ws[k]) && (whole ==> ws[k] == words)
    requires W.WordsOf(content) == words
    ensures ContentsOf(g) == ws
  {
    forall k | 0 <= k < |ws|
      ensures ContentsOf(g)[k] == ws[k]
    {
      ContentsAt(g, k, content, whole, ws[k]);
    }
  }

  lemma GroupShows(p: Parser, path: seq<Heading>, content: string, whole: bool, ws: seq<seq<string>>, order: nat)
    ensures |GroupOver(p, path, content, whole, ws, order)| == |ws|
    ensures forall k :: 0 <= k < |ws| ==>
              GroupOver(p, path, content, whole, ws, order)[k].content == Shown(content, whole, ws[k])
  {
  }

  lemma GroupOverWords(
    p: Parser, path: seq<Heading>, content: string, words: seq<string>, whole: bool, ws: seq<seq<string>>, order: nat)
    requires forall w :: w in ws ==> W.AllWords(w) && (whole ==> w == words)
    requires W.WordsOf(content) == words
    ensures ContentsOf(GroupOver(p, path, content, whole, ws, order)) == ws
  {
    var g := GroupOver(p, path, content, whole, ws, order);
    GroupShows(p, path, content, whole, ws, order);
    forall k | 0 <= k < |ws|
      ensures W.AllWords(ws[k]) && (whole ==> ws[k] == words)
    {
      assert ws[k] in ws;
    }
    ContentsAre(g, content, words, whole, ws);
  }

  lemma WindowsAreWords(words: seq<string>, o: Options)
    requires W.AllWords(words)
    ensures forall w :: w in V.Windows(words, o.maxWords, o.overlapWords) ==> W.AllWords(w)
  {
    V.WindowsFit(words, o.maxWords, o.overlapWords);
    forall w | w in V.Windows(words, o.maxWords, o.overlapWords)
      ensures W.AllWords(w)
    {
      WordsWithin(w, words);
    }
  }

  /** The words of a section's chunks are the windows over the words of its body; a body without words gives no chunk. */
  lemma GroupWords(p: Parser, o: Options, s: Section, order: nat)
    ensures W.WordsOfAll(s.body) == [] ==> Group(p, o, s, order) == []
    ensures W.WordsOfAll(s.body) != [] ==>
              ContentsOf(Group(p, o, s, order)) == V.Windows(W.WordsOfAll(s.body), o.maxWords, o.overlapWords)
  {
    var content, words := ContentOf(s.body), W.WordsOfAll(s.body);
    ContentWords(s.body);
    if content != "" {
      W.WordsAreWords(content);
      WindowsAreWords(words, o);
      GroupOverWords(p, s.path, content, words, |words| <= o.maxWords, V.Windows(words, o.maxWords, o.overlapWords), order);
    }
  }

  // ---------- the document ----------

  /** The words of the document, read back from its chunks: in each section the words a window repeats are dropped. */
  function Recovered(o: Options, groups: seq<seq<Chunk>>): seq<string> {
    if groups == [] then []
    else
      Recovered(o, groups[..|groups| - 1])
      + V.Unwindow(ContentsOf(groups[|groups| - 1]), V.Repeated(o.maxWords, o.overlapWords))
  }

  ghost predicate AllLossless(o: Options, sections: seq<Section>) {
    forall s :: s in sections ==> V.Lossless(W.WordsOfAll(s.body), o.maxWords, o.overlapWords)
  }

  lemma GroupKeepsWords(p: Parser, o: Options, s: Section, order: nat)
    ensures Conserved(V.Lossless(W.WordsOfAll(s.body), o.maxWords, o.overlapWords),
                      V.Unwindow(ContentsOf(Group(p, o, s, order)), V.Repeated(o.maxWords, o.overlapWords)),
                      W.WordsOfAll(s.body))
  {
    GroupWords(p, o, s, order);
    V.WindowsKeepWords(W.WordsOfAll(s.body), o.maxWords, o.overlapWords);
  }

  lemma RecoveredMore(o: Options, groups: seq<seq<Chunk>>, g: seq<Chunk>)
    ensures Recovered(o, groups + [g])
         == Recovered(o, groups) + V.Unwindow(ContentsOf(g), V.Repeated(o.maxWords, o.overlapWords))
  {
    assert (groups + [g])[..|groups|] == groups;
  }

  lemma AllLosslessMore(o: Options, sections: seq<Section>, s: Section)
    ensures AllLossless(o, sections + [s])
       <==> AllLossless(o, sections) && V.Lossless(W.WordsOfAll(s.body), o.maxWords, o.overlapWords)
  {
    assert (sections + [s])[|sections|] == s;
    if AllLossless(o, sections + [s]) {
      forall t | t in sections
        ensures V.Lossless(W.WordsOfAll(t.body), o.maxWords, o.overlapWords)
      {
        assert t in sections + [s];
      }
    }
  }

  ghost predicate Conserved(lossless: bool, back: seq<string>, words: seq<string>) {
    if lossless then back == words else |back| < |words|
  }

  lemma ConservedMore(a: bool, back: seq<string>, words: seq<string>, b: bool, backMore: seq<string>, wordsMore: seq<string>)
    requires Conserved(a, back, words) && Conserved(b, backMore, wordsMore)
    ensures Conserved(a && b, back + backMore, words + wordsMore)
  {
  }

  lemma {:induction false} GroupsKeepWords(p: Parser, o: Options, sections: seq<Section>)
    ensures Conserved(AllLossless(o, sections), Recovered(o, Groups(p, o, sections)), BodyWords(sections))
  {
    if sections != [] {
      var before, last := sections[..|sections| - 1], sections[|sections| - 1];
      GroupsKeepWords(p, o, before);
      GroupsKeepWordsMore(p, o, before, last);
      LastApart(sections, []);
      NothingAdded(before + [last], []);
    }
  }

  lemma GroupsKeepWordsMore(p: Parser, o: Options, sections: seq<Section>, s: Section)
    requires Conserved(AllLossless(o, sections), Recovered(o, Groups(p, o, sections)), BodyWords(sections))
    ensures Conserved(AllLossless(o, sections + [s]), Recovered(o, Groups(p, o, sections + [s])), BodyWords(sections + [s]))
  {
    var groups := Groups(p, o, sections);
    var g, words := Group(p, o, s, |Flatten(groups)|), W.WordsOfAll(s.body);
    GroupsOfMore(p, o, sections, s);
    RecoveredMore(o, groups, g);
    BodyWordsMore(sections, s);
    AllLosslessMore(o, sections, s);
    GroupKeepsWords(p, o, s, |Flatten(groups)|);
    ConservedMore(AllLossless(o, sections), Recovered(o, groups), BodyWords(sections),
                  V.Lossless(words, o.maxWords, o.overlapWords),
                  V.Unwindow(ContentsOf(g), V.Repeated(o.maxWords, o.overlapWords)), words);
  }

  /**
   * Without the words that windows repeat, the chunks read in order give exactly the words of all lines that are
   * neither headings nor contents - if and only if every section is short enough for one chunk, or windows hold a
   * word and their overlap is not negative.
   */
  lemma TextIsConserved(p: Parser, o: Options, text: string)
    ensures var lines, drop := LinesOf(text), TocOf(p, LinesOf(text));
            AllLossless(o, SectionsOf(p, text))
            <==> Recovered(o, Groups(p, o, SectionsOf(p, text))) == KeptWords(p, lines, drop, |lines|)
  {
    SectionsKeepWords(p, text);
    GroupsKeepWords(p, o, SectionsOf(p, text));
  }

  /** With the default sizes nothing is ever lost. */
  lemma DefaultsConserve(p: Parser, text: string)
    ensures var lines, drop := LinesOf(text), TocOf(p, LinesOf(text));
            Recovered(DEFAULTS, Groups(p, DEFAULTS, SectionsOf(p, text))) == KeptWords(p, lines, drop, |lines|)
  {
    TextIsConserved(p, DEFAULTS, text);
  }

  ghost predicate Numbered(chunks: seq<Chunk>, from: nat) {
    forall k :: 0 <= k < |chunks| ==> chunks[k].order == from + k
  }

  lemma GroupIsNumbered(p: Parser, o: Options, s: Section, order: nat)
    ensures Numbered(Group(p, o, s, order), order)
  {
    var content := ContentOf(s.body);
    var words := W.SplitSpaces(content);
    GroupOverIsNumbered(p, s.path, content, |words| <= o.maxWords, V.Windows(words, o.maxWords, o.overlapWords), order);
  }

  lemma GroupOverIsNumbered(p: Parser, path: seq<Heading>, content: string, whole: bool, ws: seq<seq<string>>, order: nat)
    ensures Numbered(GroupOver(p, path, content, whole, ws, order), order)
  {
  }

  lemma NumberedMore(before: seq<Chunk>, more: seq<Chunk>)
    requires Numbered(before, 0) && Numbered(more, |before|)
    ensures Numbered(before + more, 0)
  {
  }

  lemma {:induction false} OrdersGrow(p: Parser, o: Options, sections: seq<Section>)
    ensures Numbered(Flatten(Groups(p, o, sections)), 0)
  {
    if sections != [] {
      var n := |sections| - 1;
      OrdersGrow(p, o, sections[..n]);
      GroupsOfMore(p, o, sections[..n], sections[n]);
      var before := Flatten(Groups(p, o, sections[..n]));
      GroupIsNumbered(p, o, sections[n], |before|);
      NumberedMore(before, Group(p, o, sections[n], |before|));
      LastApart(sections, []);
      NothingAdded(sections[..n] + [sections[n]], []);
    }
  }

  lemma GroupFits(p: Parser, o: Options, s: Section, order: nat)
    ensures forall c :: c in Group(p, o, s, order) ==> Fits(o, W.WordsOf(c.content))
  {
    var words, g := W.WordsOfAll(s.body), Group(p, o, s, order);
    GroupWords(p, o, s, order);
    V.WindowsFit(words, o.maxWords, o.overlapWords);
    forall k | 0 <= k < |g|
      ensures Fits(o, W.WordsOf(g[k].content))
    {
      assert ContentsOf(g)[k] == W.WordsOf(g[k].content);
      assert ContentsOf(g)[k] in ContentsOf(g);
    }
  }

  predicate Fits(o: Options, words: seq<string>) {
    |words| <= o.maxWords && (o.maxWords >= 1 ==> words != [])
  }

  lemma {:induction false} GroupsFit(p: Parser, o: Options, sections: seq<Section>)
    ensures forall c :: c in Flatten(Groups(p, o, sections)) ==> Fits(o, W.WordsOf(c.content))
  {
    if sections != [] {
      var n := |sections| - 1;
      GroupsFit(p, o, sections[..n]);
      GroupsOfMore(p, o, sections[..n], sections[n]);
      GroupFits(p, o, sections[n], |Flatten(Groups(p, o, sections[..n]))|);
      LastApart(sections, []);
      NothingAdded(sections[..n] + [sections[n]], []);
    }
  }

  /** Chunks are numbered from zero without a gap; none is longer than allowed, none is empty. */
  lemma ChunksAreNumberedAndFit(p: Parser, o: Options, text: string)
    ensures Numbered(Chunks(p, o, text), 0)
    ensures forall c :: c in Chunks(p, o, text) ==> Fits(o, W.WordsOf(c.content))
  {
    OrdersGrow(p, o, SectionsOf(p, text));
    GroupsFit(p, o, SectionsOf(p, text));
  }

  // ---------- the lines hold all words of the text ----------

  lemma {:induction false} NewlinesKeepWords(before: string, s: string)
    ensures W.WordsOf(before + Newlines(s)) == W.WordsOf(before + s)
    decreases |s|
  {
    if s == "" {
    } else if s[0] != '\r' {
      NewlinesKeepWords(before + [s[0]], s[1..]);
      Associates(before, [s[0]], Newlines(s[1..]));
      HeadApart(before, s);
    } else {
      var rest := s[if |s| > 1 && s[1] == '\n' then 2 else 1..];
      NewlinesKeepWords("", rest);
      assert "" + Newlines(rest) == Newlines(rest) && "" + rest == rest;
      W.WordsConcat(before, '\n', Newlines(rest));
      Associates(before, "\n", Newlines(rest));
      ReturnSeparates(before, s, rest);
    }
  }

  lemma ReturnSeparates(before: string, s: string, rest: string)
    requires s != "" && s[0] == '\r'
    requires rest == s[if |s| > 1 && s[1] == '\n' then 2 else 1..]
    ensures W.WordsOf(before + s) == W.WordsOf(before) + W.WordsOf(rest)
  {
    HeadApart(before, s);
    W.WordsConcat(before, '\r', s[1..]);
    if |s| > 1 && s[1] == '\n' {
      assert s[1..][1..] == rest;
    }
  }

  /** Splitting the text into lines, whatever its line ends, keeps its words. */
  lemma LinesKeepWords(text: string)
    ensures W.WordsOfAll(LinesOf(text)) == W.WordsOf(text)
  {
    NewlinesKeepWords("", text);
    assert "" + text == text && "" + Newlines(text) == Newlines(text);
    T.LinesMeaning(Newlines(text));
    W.JoinWords(LinesOf(text), '\n');
  }

  // ---------- what is embedded ----------

  /** A chunk is embedded with its words behind the words of its trail of titles, whether it shows its text whole or not. */
  predicate EmbedsTrail(c: Chunk) {
    && (c.path == [] ==> c.section.None? && W.WordsOf(c.embedText) == W.WordsOf(c.content))
    && (c.path != [] ==> c.section.Some? && W.WordsOf(c.embedText) == W.WordsOf(Trail(c.path)) + W.WordsOf(c.content))
  }

  lemma PartWords(trail: string, part: string, words: seq<string>)
    requires W.WordsOf(part) == words
    ensures W.WordsOf(trail + "\n\n" + part) == W.WordsOf(trail) + words
  {
    W.NewlinesSeparate(trail, "\n\n", part);
  }

  lemma ChunkEmbeds(p: Parser, path: seq<Heading>, content: string, whole: bool, window: seq<string>, order: nat, c: Chunk)
    requires W.AllWords(window) && (whole ==> W.WordsOf(content) == window)
    requires c == ChunkOf(p, path, content, whole, window, order)
    ensures EmbedsTrail(c)
  {
    W.JoinedWords(window);
    PartWords(Trail(TitlesOf(path)), T.Join(window, " "), window);
    assert TitlesOf(path) == [] <==> path == [];
  }

  lemma GroupEmbeds(p: Parser, o: Options, s: Section, order: nat)
    ensures forall c :: c in Group(p, o, s, order) ==> EmbedsTrail(c)
  {
    var content, words := ContentOf(s.body), W.WordsOfAll(s.body);
    ContentWords(s.body);
    if content != "" {
      W.WordsAreWords(content);
      WindowsAreWords(words, o);
      GroupOverEmbeds(p, s.path, content, words, |words| <= o.maxWords, V.Windows(words, o.maxWords, o.overlapWords), order);
    }
  }

  lemma GroupOverEmbeds(
    p: Parser, path: seq<Heading>, content: string, words: seq<string>, whole: bool, ws: seq<seq<string>>, order: nat)
    requires forall w :: w in ws ==> W.AllWords(w) && (whole ==> w == words)
    requires W.WordsOf(content) == words
    ensures forall c :: c in GroupOver(p, path, content, whole, ws, order) ==> EmbedsTrail(c)
  {
    var g := GroupOver(p, path, content, whole, ws, order);
    forall c | c in g
      ensures EmbedsTrail(c)
    {
      var k: nat :| k < |g| && g[k] == c;
      assert ws[k] in ws;
      GroupAt(p, path, content, whole, ws, order, k);
      ChunkEmbeds(p, path, content, whole, ws[k], order + k, c);
    }
  }

  lemma GroupAt(p: Parser, path: seq<Heading>, content: string, whole: bool, ws: seq<seq<string>>, order: nat, k: nat)
    requires k < |ws|
    ensures GroupOver(p, path, content, whole, ws, order)[k] == ChunkOf(p, path, content, whole, ws[k], order + k)
  {
  }

  lemma {:induction false} GroupsEmbed(p: Parser, o: Options, sections: seq<Section>)
    ensures forall c :: c in Flatten(Groups(p, o, sections)) ==> EmbedsTrail(c)
  {
    if sections != [] {
      var n := |sections| - 1;
      GroupsEmbed(p, o, sections[..n]);
      GroupsOfMore(p, o, sections[..n], sections[n]);
      GroupEmbeds(p, o, sections[n], |Flatten(Groups(p, o, sections[..n]))|);
      LastApart(sections, []);
      NothingAdded(sections[..n] + [sections[n]], []);
    }
  }

  lemma ChunksEmbedTheirTrail(p: Parser, o: Options, text: string)
    ensures forall c :: c in Chunks(p, o, text) ==> EmbedsTrail(c)
  {
    GroupsEmbed(p, o, SectionsOf(p, text));
  }
}
