/** When a line ends like an entry of contents (rag/chunker.ts `tocTail`). */
module TocTails {
  import opened Prelude
  import opened Toc
  import T = Text

  // ---------- page numbers ----------

  predicate Digits(s: string) {
    forall i :: 0 <= i < |s| ==> T.IsDigit(s[i])
  }

  function Value(c: char): nat
    requires T.IsDigit(c)
  {
    c as nat - '0' as nat
  }

  /** A page number of up to four digits, place by place. */
  lemma PageReads(s: string)
    requires 1 <= |s| <= 4 && Digits(s)
    ensures NumberOf(s)
         == match |s|
            case 1 => Value(s[0])
            case 2 => 10 * Value(s[0]) + Value(s[1])
            case 3 => 100 * Value(s[0]) + 10 * Value(s[1]) + Value(s[2])
            case _ => 1000 * Value(s[0]) + 100 * Value(s[1]) + 10 * Value(s[2]) + Value(s[3])
  {
    OneMoreDigit(s);
    if |s| > 1 { OneMoreDigit(s[..|s| - 1]); }
    if |s| > 2 { OneMoreDigit(s[..|s| - 1][..|s| - 2]); }
    if |s| > 3 { OneMoreDigit(s[..|s| - 1][..|s| - 2][..|s| - 3]); }
  }

  lemma OneMoreDigit(s: string)
    requires s != "" && Digits(s)
    ensures NumberOf(s) == 10 * NumberOf(s[..|s| - 1]) + Value(s[|s| - 1])
    ensures |s| == 1 ==> NumberOf(s) == Value(s[0])
  {
    if |s| == 1 { assert s[..0] == ""; }
  }

  /** A line is a bare page if and only if it is nothing but what the tail of a line reads as its page. */
  lemma BarePageIff(line: string)
    ensures IsBarePage(line) <==> line != "" && PageStart(line) == 0
  {
  }

  // ---------- leaders ----------

  /** What may stand between a title and its page. */
  predicate LeaderChar(c: char) {
    c == ' ' || c == '\t' || c == '.' || c == '…' || c == '·' || c == '_' || c == '|' || c == '-'
  }

  predicate DotChar(c: char) {
    c == '.' || c == '…' || c == '·' || c == '_' || c == '-'
  }

  ghost predicate ThreeDots(s: string, i: nat) {
    i + 2 < |s| && DotChar(s[i]) && DotChar(s[i + 1]) && DotChar(s[i + 2])
  }

  predicate Blank(c: char) {
    c == ' ' || c == '\t'
  }

  ghost predicate ThreeSpacedDots(s: string, i: nat) {
    && i + 5 < |s| && s[i] == '.' && Blank(s[i + 1]) && s[i + 2] == '.' && Blank(s[i + 3]) && s[i + 4] == '.' && Blank(s[i + 5])
  }

  /** Three dots or dashes in a row, or three dots each with a space behind it. */
  ghost predicate Dotted(s: string) {
    exists i: nat :: ThreeDots(s, i) || ThreeSpacedDots(s, i)
  }

  ghost predicate TwoSpaces(s: string, i: nat) {
    i + 1 < |s| && s[i] == ' ' && s[i + 1] == ' '
  }

  /** A tab or two spaces in a row. */
  ghost predicate Gap(s: string) {
    '\t' in s || exists i: nat :: TwoSpaces(s, i)
  }

  lemma DotMeaning(c: char)
    ensures IsDot(c) <==> DotChar(c)
  {
  }

  lemma DotsFound(s: string)
    requires Dotted(s)
    ensures HasDots(s)
  {
    var i: nat :| ThreeDots(s, i) || ThreeSpacedDots(s, i);
    if ThreeDots(s, i) {
      DotMeaning(s[i]);
      DotMeaning(s[i + 1]);
      DotMeaning(s[i + 2]);
    } else {
      assert Spaced(s, i) && Spaced(s, i + 2) && Spaced(s, i + 4);
    }
  }

  lemma DotsMeaning(s: string)
    ensures HasDots(s) <==> Dotted(s)
  {
    if Dotted(s) { DotsFound(s); }
    if i :| 0 <= i < |s| - 2 && IsDot(s[i]) && IsDot(s[i + 1]) && IsDot(s[i + 2]) {
      assert ThreeDots(s, i);
    }
    if i :| 0 <= i < |s| - 5 && Spaced(s, i) && Spaced(s, i + 2) && Spaced(s, i + 4) {
      assert ThreeSpacedDots(s, i);
    }
  }

  lemma GapMeaning(s: string)
    ensures HasGap(s) <==> Gap(s)
  {
    if i :| 0 <= i < |s| - 1 && s[i] == ' ' && s[i + 1] == ' ' {
      assert TwoSpaces(s, i);
    }
    if i: nat :| TwoSpaces(s, i) {
      assert s[i] == ' ' && s[i + 1] == ' ';
    }
  }

  // ---------- tails ----------

  /** The line is a text with a letter that a leader may not continue, a leader and a page of up to four digits. */
  ghost predicate Splits(isLetter: char -> bool, line: string, title: string, leader: string, page: string) {
    && line == title + leader + page
    && (exists i :: 0 <= i < |title| && isLetter(title[i]))
    && (title != "" ==> !LeaderChar(title[|title| - 1]))
    && (forall i :: 0 <= i < |leader| ==> LeaderChar(leader[i]))
    && 1 <= |page| <= 4 && Digits(page)
  }

  /** The leader is of dots or has a gap, or is a bar. */
  ghost predicate Leads(leader: string) {
    Dotted(leader) || Gap(leader) || '|' in leader
  }

  lemma LeaderMeaning(c: char)
    ensures IsLeader(c) <==> LeaderChar(c)
  {
  }

  lemma {:induction false} LeaderFound(line: string, end: nat, start: nat)
    requires start <= end <= |line| && (forall i :: start <= i < end ==> IsLeader(line[i]))
    requires start > 0 ==> !IsLeader(line[start - 1])
    ensures LeaderStart(line, end) == start
    decreases end
  {
    if start < end { LeaderFound(line, end - 1, start); }
  }

  lemma PageFound(line: string, at: nat)
    requires at < |line| && |line| - at <= 4 && Digits(line[at..]) && at > 0 && !T.IsDigit(line[at - 1])
    ensures PageStart(line) == at
  {
    assert forall i :: at <= i < |line| ==> line[i] == line[at..][i - at];
  }

  lemma TailFound(isLetter: char -> bool, line: string, title: string, leader: string, page: string)
    requires Splits(isLetter, line, title, leader, page) && Leads(leader)
    ensures TailOf(isLetter, line) == Some(Tail(NumberOf(page), '|' in leader && !Dotted(leader), Dotted(leader)))
  {
    var start, at := |title|, |title| + |leader|;
    assert line[at..] == page && line[start..at] == leader && line[..start] == title;
    assert line[at - 1] == leader[|leader| - 1] && LeaderChar(line[at - 1]);
    PageFound(line, at);
    forall i | start <= i < at
      ensures IsLeader(line[i])
    {
      assert line[i] == leader[i - start];
    }
    if start > 0 { assert line[start - 1] == title[start - 1]; }
    LeaderFound(line, at, start);
    var k :| 0 <= k < |title| && isLetter(title[k]);
    assert isLetter(line[k]);
    DotsMeaning(leader);
    GapMeaning(leader);
  }

  lemma TailSplits(isLetter: char -> bool, line: string) returns (title: string, leader: string, page: string)
    requires TailOf(isLetter, line).Some?
    ensures Splits(isLetter, line, title, leader, page) && Leads(leader)
    ensures TailOf(isLetter, line) == Some(Tail(NumberOf(page), '|' in leader && !Dotted(leader), Dotted(leader)))
  {
    var at := PageStart(line);
    var start := LeaderStart(line, at);
    title, leader, page := line[..start], line[start..at], line[at..];
    PartsOfLine(isLetter, line, start, at, title, leader, page);
    DotsMeaning(leader);
    GapMeaning(leader);
  }

  lemma PageDigits(line: string, at: nat)
    requires at == PageStart(line) && at < |line|
    ensures |line| - at <= 4 && forall i :: at <= i < |line| ==> T.IsDigit(line[i])
  {
  }

  lemma PartsOfLine(isLetter: char -> bool, line: string, start: nat, at: nat, title: string, leader: string, page: string)
    requires at == PageStart(line) && at < |line| && start == LeaderStart(line, at) && exists i :: 0 <= i < start && isLetter(line[i])
    requires title == line[..start] && leader == line[start..at] && page == line[at..]
    ensures Splits(isLetter, line, title, leader, page)
  {
    PageDigits(line, at);
    assert line == title + leader + page;
    var k :| 0 <= k < start && isLetter(line[k]);
    assert isLetter(title[k]);
    LeaderIs(line, start, at, leader);
    if start > 0 { assert title[start - 1] == line[start - 1] && !IsLeader(line[start - 1]); }
  }

  lemma LeaderIs(line: string, start: nat, at: nat, leader: string)
    requires at <= |line| && start == LeaderStart(line, at) && leader == line[start..at]
    ensures forall i :: 0 <= i < |leader| ==> LeaderChar(leader[i])
  {
    forall i | 0 <= i < |leader|
      ensures LeaderChar(leader[i])
    {
      assert leader[i] == line[start + i] && IsLeader(line[start + i]);
    }
  }

  /** A line ends like an entry if and only if it is such a text, a leader and a page; then the tail tells the page, whether
      the leader is of dots, and whether it is a mere bar. */
  lemma TailIff(isLetter: char -> bool, line: string, t: Tail)
    ensures TailOf(isLetter, line) == Some(t)
            <==> exists title: string, leader: string, page: string ::
                   && Splits(isLetter, line, title, leader, page) && Leads(leader)
                   && t == Tail(NumberOf(page), '|' in leader && !Dotted(leader), Dotted(leader))
  {
    if TailOf(isLetter, line) == Some(t) {
      var title, leader, page := TailSplits(isLetter, line);
    }
    if title: string, leader: string, page: string :|
      Splits(isLetter, line, title, leader, page) && Leads(leader)
      && t == Tail(NumberOf(page), '|' in leader && !Dotted(leader), Dotted(leader))
    {
      TailFound(isLetter, line, title, leader, page);
    }
  }

  // ---------- entries over several lines ----------

  lemma {:induction false} FirstIsHeading(r: Reader, texts: seq<string>, recent: seq<nat>)
    requires PendingIn(texts, recent)
    ensures var k := FirstHeading(r, texts, recent);
            && (k < |recent| ==> r.isHeadingStart(texts[recent[k]]))
            && forall j :: 0 <= j < k ==> !r.isHeadingStart(texts[recent[j]])
  {
    if recent != [] && !r.isHeadingStart(texts[recent[0]]) {
      FirstIsHeading(r, texts, recent[1..]);
      var k := FirstHeading(r, texts, recent[1..]);
      forall j | 0 <= j < 1 + k
        ensures !r.isHeadingStart(texts[recent[j]])
      {
        if j > 0 { assert recent[j] == recent[1..][j - 1]; }
      }
    }
  }

  /** What stands above a page belongs to its entry: in a series all that ended no entry; at the first entry, of the last two
      such lines, those from the first that starts like a heading on if the page stands alone, and else those below a title. */
  lemma WrapsFrom(r: Reader, texts: seq<string>, series: seq<Entry>, pending: seq<nat>, hasTail: bool) returns (m: nat)
    requires PendingIn(texts, pending)
    ensures m <= |pending| && Wrapped(r, texts, series, pending, hasTail) == pending[m..]
    ensures series != [] ==> m == 0
    ensures series == [] ==>
              && m + 2 >= |pending|
              && (m < |pending| ==> if hasTail then m > 0 && r.isTitle(texts[pending[m - 1]]) else r.isHeadingStart(texts[pending[m]]))
              && forall j :: 0 <= j < m && j + 2 >= |pending| ==>
                   if hasTail then j > 0 ==> !r.isTitle(texts[pending[j - 1]]) else !r.isHeadingStart(texts[pending[j]])
  {
    var n := |pending|;
    if series != [] {
      m := 0;
    } else if hasTail {
      m := if n > 2 && r.isTitle(texts[pending[n - 3]]) then n - 2 else if n > 1 && r.isTitle(texts[pending[n - 2]]) then n - 1 else n;
    } else {
      var recent := LastOf(pending, WRAP_LINES);
      FirstIsHeading(r, texts, recent);
      m := n - |recent| + FirstHeading(r, texts, recent);
      forall j | n - |recent| <= j < n
        ensures pending[j] == recent[j - (n - |recent|)]
      {
      }
    }
  }
}
