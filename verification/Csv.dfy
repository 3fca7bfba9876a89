/** The journal's CSV scanner (journal-parser.ts `splitCsv`), what it makes of any text, and the round trip with its printer
    (make-journal-fixtures.ts `csvCell` and the record printer of `main`). */
module Csv {
  import opened Collections
  import opened Prelude
  import T = Text

  const QUOTE := '"'
  const CR := '\r'
  const LF := '\n'

  /** The scanner's local variables. */
  datatype Scan = Scan(records: seq<seq<string>>, row: seq<string>, cell: string, quoted: bool)
  {
    function Put(c: char): Scan {
      this.(cell := cell + [c])
    }

    function EndCell(): Scan {
      this.(row := row + [cell], cell := "")
    }

    function EndRecord(): Scan {
      Scan(records + [row + [cell]], [], "", quoted)
    }
  }

  const START := Scan([], [], "", false)

  /** How many characters the scanner consumes at the front of `rest`: a doubled quote inside
      quotes and a CR LF pair outside them are taken as one. */
  function Width(rest: string, st: Scan, delimiter: char): (n: nat)
    requires rest != ""
    ensures 1 <= n <= |rest|
  {
    if |rest| > 1 && (if st.quoted then rest[0] == QUOTE && rest[1] == QUOTE
                      else rest[0] == CR && rest[1] == LF && delimiter != CR)
    then 2 else 1
  }

  function Step(rest: string, st: Scan, delimiter: char): Scan
    requires rest != ""
  {
    var ch := rest[0];
    if st.quoted then
      if ch != QUOTE then st.Put(ch)
      else if Width(rest, st, delimiter) == 2 then st.Put(QUOTE)
      else st.(quoted := false)
    else if ch == QUOTE then st.(quoted := true)
    else if ch == delimiter then st.EndCell()
    else if ch == LF || ch == CR then st.EndRecord()
    else st.Put(ch)
  }

  function ScanAll(rest: string, st: Scan, delimiter: char): Scan
    decreases |rest|
  {
    if rest == "" then st
    else ScanAll(rest[Width(rest, st, delimiter)..], Step(rest, st, delimiter), delimiter)
  }

  function Finish(st: Scan): seq<seq<string>> {
    if st.cell != "" || st.row != [] then st.EndRecord().records else st.records
  }

  function Split(text: string, delimiter: char): seq<seq<string>> {
    Finish(ScanAll(text, START, delimiter))
  }

  method SplitCsv(text: string, delimiter: char) returns (records: seq<seq<string>>)
    ensures records == Split(text, delimiter)
  {
    records := [];
    var row: seq<string> := [];
    var cell := "";
    var quoted := false;
    var i := 0;
    while i < |text|
      invariant 0 <= i <= |text|
      invariant ScanAll(text[i..], Scan(records, row, cell, quoted), delimiter) == ScanAll(text, START, delimiter)
    {
      ghost var at, before := i, Scan(records, row, cell, quoted);
      var ch := text[i];
      if quoted {
        if ch == QUOTE {
          if i + 1 < |text| && text[i + 1] == QUOTE {
            cell := cell + [QUOTE];
            i := i + 1;
          } else {
            quoted := false;
          }
        } else {
          cell := cell + [ch];
        }
      } else if ch == QUOTE {
        quoted := true;
      } else if ch == delimiter {
        row := row + [cell];
        cell := "";
      } else if ch == LF || ch == CR {
        if ch == CR && i + 1 < |text| && text[i + 1] == LF {
          i := i + 1;
        }
        row := row + [cell];
        records := records + [row];
        row := [];
        cell := "";
      } else {
        cell := cell + [ch];
      }
      i := i + 1;
      assert text[at..][Width(text[at..], before, delimiter)..] == text[i..];
    }
    assert text[i..] == "";
    if |cell| > 0 || |row| > 0 {
      row := row + [cell];
      records := records + [row];
    }
  }

  // ---------- what a text means ----------

  /** What a text is written with: a plain character, a stretch in quotes, a separator or a line break. */
  datatype Token = Plain(c: char) | Quoted(value: string) | Separator | Break(eol: string)

  predicate Separates(d: char) {
    d != QUOTE && d != CR && d != LF
  }

  predicate LineBreak(eol: string) {
    eol == "\n" || eol == "\r\n" || eol == "\r"
  }

  function DoubleQuotes(value: string): string {
    if value == "" then ""
    else (if value[0] == QUOTE then [QUOTE, QUOTE] else [value[0]]) + DoubleQuotes(value[1..])
  }

  function WriteToken(t: Token, d: char): string {
    match t
    case Plain(c) => [c]
    case Quoted(value) => [QUOTE] + DoubleQuotes(value) + [QUOTE]
    case Separator => [d]
    case Break(eol) => eol
  }

  /** The text; `open` is a last stretch whose closing quote is missing. */
  function Write(ts: seq<Token>, open: Option<string>, d: char): string {
    if ts == [] then (if open.Some? then [QUOTE] + DoubleQuotes(open.value) else "")
    else WriteToken(ts[0], d) + Write(ts[1..], open, d)
  }

  predicate BeginsWith(s: string, c: char) {
    s != "" && s[0] == c
  }

  /** The token cannot be read otherwise in front of this text. */
  predicate Reads(t: Token, next: string, d: char) {
    match t
    case Plain(c) => c != d && c != QUOTE && c != CR && c != LF
    case Quoted(_) => !BeginsWith(next, QUOTE)
    case Separator => true
    case Break(eol) => LineBreak(eol) && (eol == "\r" ==> !BeginsWith(next, LF))
  }

  predicate WellWritten(ts: seq<Token>, open: Option<string>, d: char) {
    ts == [] || (Reads(ts[0], Write(ts[1..], open, d), d) && WellWritten(ts[1..], open, d))
  }

  function Joined(value: string, table: seq<seq<string>>): (more: seq<seq<string>>)
    requires table != [] && table[0] != []
    ensures more != [] && more[0] != []
  {
    [[value + table[0][0]] + table[0][1..]] + table[1..]
  }

  /** The cells, row by row: breaks part rows, separators part cells, all else is text. */
  function Table(ts: seq<Token>, open: Option<string>): (table: seq<seq<string>>)
    ensures table != [] && table[0] != []
  {
    if ts == [] then [[if open.Some? then open.value else ""]]
    else
      var rest := Table(ts[1..], open);
      match ts[0]
      case Plain(c) => Joined([c], rest)
      case Quoted(value) => Joined(value, rest)
      case Separator => [[""] + rest[0]] + rest[1..]
      case Break(_) => [[""]] + rest
  }

  /** A last row that is one empty cell is no record. */
  function Records(table: seq<seq<string>>): seq<seq<string>>
    requires table != []
  {
    if table[|table| - 1] == [""] then table[..|table| - 1] else table
  }

  lemma HeadTail<T>(value: seq<T>, rest: seq<T>, before: seq<T>)
    requires value != []
    ensures (value + rest)[0] == value[0] && (value + rest)[1..] == value[1..] + rest
    ensures before + [value[0]] + value[1..] == before + value
  {
  }

  lemma QuotedChar(c: char, printed: string, next: string, st: Scan, d: char)
    requires st.quoted && printed == if c == QUOTE then [QUOTE, QUOTE] else [c]
    ensures ScanAll(printed + next, st, d) == ScanAll(next, st.Put(c), d)
  {
    var s := printed + next;
    assert s[Width(s, st, d)..] == next;
  }

  /** In quotes all is text. */
  lemma {:induction false} QuotedBody(value: string, rest: string, st: Scan, d: char)
    requires st.quoted
    requires rest == "" || (BeginsWith(rest, QUOTE) && !BeginsWith(rest[1..], QUOTE))
    ensures ScanAll(DoubleQuotes(value) + rest, st, d) == ScanAll(rest, st.(cell := st.cell + value), d)
    decreases |value|
  {
    if value == "" {
      assert DoubleQuotes(value) + rest == rest && st.cell + value == st.cell;
    } else {
      var first := if value[0] == QUOTE then [QUOTE, QUOTE] else [value[0]];
      Associates(first, DoubleQuotes(value[1..]), rest);
      QuotedChar(value[0], first, DoubleQuotes(value[1..]) + rest, st, d);
      QuotedBody(value[1..], rest, st.Put(value[0]), d);
      HeadTail(value, rest, st.cell);
    }
  }

  function TokenRead(t: Token, st: Scan): Scan {
    match t
    case Plain(c) => st.Put(c)
    case Quoted(value) => st.(cell := st.cell + value)
    case Separator => st.EndCell()
    case Break(_) => st.EndRecord()
  }

  lemma QuotedRead(value: string, next: string, st: Scan, d: char)
    requires !st.quoted && !BeginsWith(next, QUOTE)
    ensures ScanAll([QUOTE] + DoubleQuotes(value) + [QUOTE] + next, st, d) == ScanAll(next, st.(cell := st.cell + value), d)
  {
    var tail := [QUOTE] + next;
    assert tail[1..] == next;
    assert [QUOTE] + DoubleQuotes(value) + [QUOTE] + next == [QUOTE] + (DoubleQuotes(value) + tail);
    assert ([QUOTE] + (DoubleQuotes(value) + tail))[1..] == DoubleQuotes(value) + tail;
    QuotedBody(value, tail, st.(quoted := true), d);
  }

  lemma OneRead(t: Token, next: string, st: Scan, d: char)
    requires Separates(d) && !st.quoted && Reads(t, next, d)
    ensures ScanAll(WriteToken(t, d) + next, st, d) == ScanAll(next, TokenRead(t, st), d)
  {
    if t.Quoted? {
      QuotedRead(t.value, next, st, d);
    } else {
      var s := WriteToken(t, d) + next;
      assert s[|WriteToken(t, d)|..] == next;
      assert Width(s, st, d) == |WriteToken(t, d)|;
    }
  }

  lemma OpenRead(value: string, st: Scan, d: char)
    requires !st.quoted
    ensures ScanAll([QUOTE] + DoubleQuotes(value), st, d) == st.(cell := st.cell + value, quoted := true)
  {
    var s := [QUOTE] + DoubleQuotes(value);
    assert s[1..] == DoubleQuotes(value) + "";
    QuotedBody(value, "", st.(quoted := true), d);
  }

  /** What was read of the present row stands in front of the table. */
  function Behind(st: Scan, table: seq<seq<string>>): seq<seq<string>>
    requires table != [] && table[0] != []
  {
    [st.row + [st.cell + table[0][0]] + table[0][1..]] + table[1..]
  }

  lemma TokenInFront(t: Token, rest: seq<seq<string>>, st: Scan, table: seq<seq<string>>)
    requires rest != [] && rest[0] != []
    requires match t
             case Plain(c) => table == Joined([c], rest)
             case Quoted(value) => table == Joined(value, rest)
             case Separator => table == [[""] + rest[0]] + rest[1..]
             case Break(_) => table == [[""]] + rest
    ensures st.records + Records(Behind(st, table))
         == TokenRead(t, st).records + Records(Behind(TokenRead(t, st), rest))
  {
    match t
    case Plain(c) => assert st.cell + ([c] + rest[0][0]) == st.cell + [c] + rest[0][0];
    case Quoted(value) => assert st.cell + (value + rest[0][0]) == st.cell + value + rest[0][0];
    case Separator => CellInFront(st, rest, table);
    case Break(_) => RowInFront(st, rest, table);
  }

  lemma CellInFront(st: Scan, rest: seq<seq<string>>, table: seq<seq<string>>)
    requires rest != [] && rest[0] != [] && table == [[""] + rest[0]] + rest[1..]
    ensures Behind(st, table) == Behind(st.EndCell(), rest)
  {
    assert table[0][1..] == rest[0] && table[1..] == rest[1..];
    assert st.cell + "" == st.cell && "" + rest[0][0] == rest[0][0];
    assert st.row + [st.cell] + rest[0] == st.row + [st.cell] + [rest[0][0]] + rest[0][1..];
  }

  lemma BehindBreak(st: Scan, rest: seq<seq<string>>, table: seq<seq<string>>)
    requires table == [[""]] + rest
    ensures Behind(st, table) == [st.row + [st.cell]] + rest
  {
    assert table[0] == [""] && table[1..] == rest && st.cell + "" == st.cell;
    NothingAdded(st.row + [st.cell], table[0][1..]);
  }

  lemma RowInFront(st: Scan, rest: seq<seq<string>>, table: seq<seq<string>>)
    requires rest != [] && rest[0] != [] && table == [[""]] + rest
    ensures st.records + Records(Behind(st, table)) == st.EndRecord().records + Records(Behind(st.EndRecord(), rest))
  {
    var row := st.row + [st.cell];
    BehindBreak(st, rest, table);
    NothingBehind(st.EndRecord(), rest);
    RecordInFront(row, rest);
    Associates(st.records, [row], Records(rest));
  }

  lemma NothingBehind(st: Scan, table: seq<seq<string>>)
    requires st.row == [] && st.cell == "" && table != [] && table[0] != []
    ensures Behind(st, table) == table
  {
    assert "" + table[0][0] == table[0][0];
    assert [] + [table[0][0]] + table[0][1..] == table[0];
  }

  lemma RecordInFront(row: seq<string>, rest: seq<seq<string>>)
    requires rest != []
    ensures Records([row] + rest) == [row] + Records(rest)
  {
    var all := [row] + rest;
    assert all[|all| - 1] == rest[|rest| - 1];
    assert all[..|all| - 1] == [row] + rest[..|rest| - 1];
  }

  lemma FinishRead(value: string, st: Scan, after: Scan, table: seq<seq<string>>)
    requires table == [[value]] && after.cell == st.cell + value && after.row == st.row && after.records == st.records
    ensures Finish(after) == st.records + Records(Behind(st, table))
  {
    var row := st.row + [st.cell + value];
    assert table[0][1..] == [] && table[1..] == [];
    assert st.row + [st.cell + table[0][0]] + table[0][1..] == row;
    assert Behind(st, table) == [row];
    if after.cell == "" && after.row == [] {
      assert row == [""];
    } else {
      assert row != [""] by { if st.row == [] { assert row[0] == after.cell; } }
    }
  }

  lemma {:induction false} TokensRead(ts: seq<Token>, open: Option<string>, st: Scan, d: char)
    requires Separates(d) && !st.quoted && WellWritten(ts, open, d)
    ensures Finish(ScanAll(Write(ts, open, d), st, d)) == st.records + Records(Behind(st, Table(ts, open)))
    decreases |ts|
  {
    if ts == [] {
      var value := if open.Some? then open.value else "";
      if open.Some? { OpenRead(open.value, st, d); } else { assert st.cell + value == st.cell; }
      FinishRead(value, st, ScanAll(Write(ts, open, d), st, d), Table(ts, open));
    } else {
      OneRead(ts[0], Write(ts[1..], open, d), st, d);
      TokensRead(ts[1..], open, TokenRead(ts[0], st), d);
      TokenInFront(ts[0], Table(ts[1..], open), st, Table(ts, open));
    }
  }

  /** Whatever a text is written with, its records are the cells between separators, row by row; only a last row that is
      one empty cell is left out. */
  lemma SplitMeaning(ts: seq<Token>, open: Option<string>, d: char)
    requires Separates(d) && WellWritten(ts, open, d)
    ensures Split(Write(ts, open, d), d) == Records(Table(ts, open))
  {
    TokensRead(ts, open, START, d);
    NothingBehind(START, Table(ts, open));
    assert [] + Records(Table(ts, open)) == Records(Table(ts, open));
  }

  // ---------- every text means something ----------

  /** The text behind an opening quote: up to the quote that closes it, if there is one. */
  lemma {:induction false} UpToQuote(s: string) returns (value: string, rest: Option<string>)
    ensures s == DoubleQuotes(value) + if rest.Some? then [QUOTE] + rest.value else ""
    ensures rest.Some? ==> |rest.value| < |s| && !BeginsWith(rest.value, QUOTE)
    decreases |s|
  {
    if s == "" {
      value, rest := "", None;
    } else if s[0] != QUOTE {
      value, rest := UpToQuote(s[1..]);
      QuotedMore(s[0], value, rest, s[1..], s);
      value := [s[0]] + value;
    } else if BeginsWith(s[1..], QUOTE) {
      value, rest := UpToQuote(s[2..]);
      QuotedMore(QUOTE, value, rest, s[2..], s);
      value := [QUOTE] + value;
    } else {
      value, rest := "", Some(s[1..]);
    }
  }

  lemma QuotedMore(c: char, value: string, rest: Option<string>, after: string, s: string)
    requires after == DoubleQuotes(value) + if rest.Some? then [QUOTE] + rest.value else ""
    requires s == (if c == QUOTE then [QUOTE, QUOTE] else [c]) + after
    ensures s == DoubleQuotes([c] + value) + if rest.Some? then [QUOTE] + rest.value else ""
  {
    assert ([c] + value)[1..] == value;
  }

  lemma InFront(t: Token, ts: seq<Token>, open: Option<string>, d: char, next: string, text: string) returns (all: seq<Token>)
    requires WellWritten(ts, open, d) && Write(ts, open, d) == next && Reads(t, next, d) && text == WriteToken(t, d) + next
    ensures WellWritten(all, open, d) && Write(all, open, d) == text
  {
    all := [t] + ts;
    assert all[1..] == ts;
  }

  /** Every text is written so, with any separator. */
  lemma {:induction false} EveryTextIsWritten(text: string, d: char) returns (ts: seq<Token>, open: Option<string>)
    requires Separates(d)
    ensures WellWritten(ts, open, d) && Write(ts, open, d) == text
    decreases |text|
  {
    if text == "" {
      ts, open := [], None;
    } else if text[0] == QUOTE {
      var value, rest := UpToQuote(text[1..]);
      if rest.None? {
        ts, open := [], Some(value);
      } else {
        ts, open := EveryTextIsWritten(rest.value, d);
        assert text == WriteToken(Quoted(value), d) + rest.value;
        ts := InFront(Quoted(value), ts, open, d, rest.value, text);
      }
    } else {
      var t := FirstToken(text, d);
      ts, open := EveryTextIsWritten(text[|WriteToken(t, d)|..], d);
      ts := InFront(t, ts, open, d, text[|WriteToken(t, d)|..], text);
    }
  }

  lemma FirstToken(text: string, d: char) returns (t: Token)
    requires Separates(d) && text != "" && text[0] != QUOTE
    ensures var n := |WriteToken(t, d)|; 0 < n <= |text| && text == WriteToken(t, d) + text[n..] && Reads(t, text[n..], d)
  {
    if text[0] == d {
      t := Separator;
    } else if text[0] == LF {
      t := Break("\n");
    } else if text[0] == CR {
      t := if BeginsWith(text[1..], LF) then Break("\r\n") else Break("\r");
    } else {
      t := Plain(text[0]);
    }
  }

  // ---------- the printer ----------

  predicate NeedsQuotes(value: string, d: char) {
    d in value || QUOTE in value || CR in value || LF in value
  }

  function CsvCell(value: string, d: char): string {
    if NeedsQuotes(value, d) then [QUOTE] + DoubleQuotes(value) + [QUOTE] else value
  }

  /** `row.map(csvCell).join(d)`. */
  function PrintRow(row: seq<string>, d: char): string {
    if row == [] then ""
    else if |row| == 1 then CsvCell(row[0], d)
    else CsvCell(row[0], d) + [d] + PrintRow(row[1..], d)
  }

  /** Every record followed by a line break. The generator writes LF; the scanner also reads CR LF
      (section 2 of RFC 4180) and a lone CR. */
  function Print(rows: seq<seq<string>>, eol: string, d: char): string {
    if rows == [] then "" else PrintRow(rows[0], d) + eol + Print(rows[1..], eol, d)
  }

  /** The same with the line break behind the last record left out. */
  function PrintOpen(rows: seq<seq<string>>, eol: string, d: char): string
    requires rows != []
  {
    Print(rows[..|rows| - 1], eol, d) + PrintRow(rows[|rows| - 1], d)
  }

  /** A record as the scanner sees it: the printer writes one without cells as an empty line, which is one empty cell. */
  function ReadBack(row: seq<string>): (cells: seq<string>)
    ensures cells != []
  {
    if row == [] then [""] else row
  }

  function ReadBackAll(rows: seq<seq<string>>): seq<seq<string>> {
    seq(|rows|, i requires 0 <= i < |rows| => ReadBack(rows[i]))
  }

  function Chars(value: string): seq<Token> {
    if value == "" then [] else [Plain(value[0])] + Chars(value[1..])
  }

  function CellTokens(value: string, d: char): seq<Token> {
    if NeedsQuotes(value, d) then [Quoted(value)] else Chars(value)
  }

  /** Tokens behind a cell: nothing more, a separator or a line break. */
  predicate EndsCell(ts: seq<Token>) {
    ts == [] || ts[0].Separator? || ts[0].Break?
  }

  /** These tokens are well written, and this is their text and their table. */
  ghost predicate Writes(ts: seq<Token>, text: string, table: seq<seq<string>>, d: char) {
    WellWritten(ts, None, d) && Write(ts, None, d) == text && Table(ts, None) == table
  }

  lemma JoinedNothing(table: seq<seq<string>>)
    requires table != [] && table[0] != []
    ensures Joined("", table) == table
  {
    assert "" + table[0][0] == table[0][0];
    assert [table[0][0]] + table[0][1..] == table[0];
  }

  lemma JoinedMore(value: string, table: seq<seq<string>>)
    requires value != "" && table != [] && table[0] != []
    ensures Joined([value[0]], Joined(value[1..], table)) == Joined(value, table)
  {
    assert [value[0]] + (value[1..] + table[0][0]) == value + table[0][0];
  }

  lemma OneMore(t: Token, rest: seq<Token>, text: string, d: char, all: seq<Token>)
    requires WellWritten(rest, None, d) && Write(rest, None, d) == text && Reads(t, text, d) && all == [t] + rest
    ensures WellWritten(all, None, d) && Write(all, None, d) == WriteToken(t, d) + text
    ensures Table(all, None) == Table([t] + rest, None)
  {
    assert all[1..] == rest;
  }

  lemma OnePlain(c: char, rest: seq<Token>, text: string, table: seq<seq<string>>, d: char, all: seq<Token>)
    requires Writes(rest, text, table, d) && Reads(Plain(c), text, d) && all == [Plain(c)] + rest
    ensures table != [] && table[0] != [] && Writes(all, [c] + text, Joined([c], table), d)
  {
    OneMore(Plain(c), rest, text, d, all);
    assert all[1..] == rest;
  }

  lemma {:induction false} PlainTokens(value: string, rest: seq<Token>, text: string, table: seq<seq<string>>, d: char, all: seq<Token>)
    requires !NeedsQuotes(value, d) && Writes(rest, text, table, d) && all == Chars(value) + rest
    ensures table != [] && table[0] != [] && Writes(all, value + text, Joined(value, table), d)
    decreases |value|
  {
    if value == "" {
      assert all == rest && "" + text == text;
      JoinedNothing(table);
    } else {
      assert value[0] in value;
      var more := Chars(value[1..]) + rest;
      PlainTokens(value[1..], rest, text, table, d, more);
      CharInFront(value, rest, more, text, all);
      OnePlain(value[0], more, value[1..] + text, Joined(value[1..], table), d, all);
      JoinedMore(value, table);
    }
  }

  lemma CharInFront(value: string, rest: seq<Token>, more: seq<Token>, text: string, all: seq<Token>)
    requires value != "" && more == Chars(value[1..]) + rest && all == Chars(value) + rest
    ensures all == [Plain(value[0])] + more && value + text == [value[0]] + (value[1..] + text)
  {
    HeadInFront(value, text);
    Associates([Plain(value[0])], Chars(value[1..]), rest);
  }

  lemma CellPrinted(value: string, rest: seq<Token>, text: string, table: seq<seq<string>>, d: char, all: seq<Token>)
    requires Separates(d) && Writes(rest, text, table, d) && EndsCell(rest) && all == CellTokens(value, d) + rest
    ensures table != [] && table[0] != [] && Writes(all, CsvCell(value, d) + text, Joined(value, table), d)
  {
    if NeedsQuotes(value, d) {
      OneMore(Quoted(value), rest, text, d, all);
      assert all[1..] == rest;
    } else {
      PlainTokens(value, rest, text, table, d, all);
    }
  }

  lemma SeparatorPrinted(rest: seq<Token>, text: string, table: seq<seq<string>>, d: char, all: seq<Token>)
    requires Writes(rest, text, table, d) && all == [Separator] + rest
    ensures table != [] && Writes(all, [d] + text, [[""] + table[0]] + table[1..], d)
  {
    OneMore(Separator, rest, text, d, all);
    assert all[1..] == rest;
  }

  function RowTokens(row: seq<string>, d: char): seq<Token> {
    if row == [] then []
    else if |row| == 1 then CellTokens(row[0], d)
    else CellTokens(row[0], d) + ([Separator] + RowTokens(row[1..], d))
  }

  /** A row in front of the end or of a line break takes the place of the empty cell there. */
  lemma {:induction false} RowPrinted(row: seq<string>, rest: seq<Token>, text: string, others: seq<seq<string>>, d: char, all: seq<Token>)
    requires Separates(d) && Writes(rest, text, [[""]] + others, d) && (rest == [] || rest[0].Break?)
    requires all == RowTokens(row, d) + rest
    ensures Writes(all, PrintRow(row, d) + text, [ReadBack(row)] + others, d)
    decreases |row|
  {
    if row == [] {
      assert all == rest && "" + text == text;
    } else if |row| == 1 {
      CellPrinted(row[0], rest, text, [[""]] + others, d, all);
      CellAlone(row[0], others);
      assert row == [row[0]];
    } else {
      var behind := RowTokens(row[1..], d) + rest;
      RowPrinted(row[1..], rest, text, others, d, behind);
      var more := [Separator] + behind;
      SeparatorPrinted(behind, PrintRow(row[1..], d) + text, [ReadBack(row[1..])] + others, d, more);
      ThreeInFront(CellTokens(row[0], d), Separator, RowTokens(row[1..], d), rest, behind);
      ThreeInFront(CsvCell(row[0], d), d, PrintRow(row[1..], d), text, PrintRow(row[1..], d) + text);
      CellPrinted(row[0], more, [d] + (PrintRow(row[1..], d) + text), [[""] + ReadBack(row[1..])] + others, d, all);
      CellThen(row, others);
    }
  }

  lemma ThreeInFront<A>(a: seq<A>, x: A, b: seq<A>, rest: seq<A>, behind: seq<A>)
    requires behind == b + rest
    ensures a + ([x] + b) + rest == a + ([x] + behind) && a + [x] + b + rest == a + ([x] + behind)
  {
  }

  lemma CellAlone(value: string, others: seq<seq<string>>)
    ensures Joined(value, [[""]] + others) == [[value]] + others
  {
    var table := [[""]] + others;
    assert table[0][1..] == [] && table[1..] == others;
    assert value + "" == value && [value] + [] == [value];
  }

  lemma CellThen(row: seq<string>, others: seq<seq<string>>)
    requires |row| > 1
    ensures Joined(row[0], [[""] + ReadBack(row[1..])] + others) == [ReadBack(row)] + others
  {
    var table := [[""] + ReadBack(row[1..])] + others;
    assert table[0][1..] == row[1..] && table[1..] == others;
    assert row[0] + "" == row[0] && row == [row[0]] + row[1..];
  }

  function TokensOf(rows: seq<seq<string>>, eol: string, d: char): seq<Token> {
    if rows == [] then [] else RowTokens(rows[0], d) + ([Break(eol)] + TokensOf(rows[1..], eol, d))
  }

  /** A printed record begins with no LF. */
  lemma NoStrayLf(row: seq<string>, text: string, d: char)
    requires Separates(d) && !BeginsWith(text, LF)
    ensures !BeginsWith(PrintRow(row, d) + text, LF)
  {
    if row != [] && row[0] != "" {
      assert row[0][0] in row[0];
    }
  }

  lemma {:induction false} PrintedStart(rows: seq<seq<string>>, eol: string, d: char, text: string)
    requires Separates(d) && eol == "\r" && !BeginsWith(text, LF)
    ensures !BeginsWith(Print(rows, eol, d) + text, LF)
  {
    if rows != [] {
      var rest := eol + (Print(rows[1..], eol, d) + text);
      NoStrayLf(rows[0], rest, d);
      FourParts(PrintRow(rows[0], d), eol, Print(rows[1..], eol, d), text);
      Associates(eol, Print(rows[1..], eol, d), text);
    }
  }

  lemma BreakPrinted(eol: string, rest: seq<Token>, text: string, table: seq<seq<string>>, d: char, all: seq<Token>)
    requires LineBreak(eol) && (eol == "\r" ==> !BeginsWith(text, LF)) && Writes(rest, text, table, d) && all == [Break(eol)] + rest
    ensures Writes(all, eol + text, [[""]] + table, d)
  {
    OneMore(Break(eol), rest, text, d, all);
    assert all[1..] == rest;
  }

  lemma {:induction false} RowsPrinted(
    rows: seq<seq<string>>, eol: string, tail: seq<Token>, text: string, table: seq<seq<string>>, d: char, all: seq<Token>)
    requires Separates(d) && LineBreak(eol) && (eol == "\r" ==> !BeginsWith(text, LF)) && Writes(tail, text, table, d)
    requires all == TokensOf(rows, eol, d) + tail
    ensures Writes(all, Print(rows, eol, d) + text, ReadBackAll(rows) + table, d)
    decreases |rows|
  {
    if rows == [] {
      assert all == tail && "" + text == text && ReadBackAll(rows) + table == table;
    } else {
      var rest, behind := TokensOf(rows[1..], eol, d) + tail, Print(rows[1..], eol, d) + text;
      RowsPrinted(rows[1..], eol, tail, text, table, d, rest);
      if eol == "\r" { PrintedStart(rows[1..], eol, d, text); }
      ThreeInFront(RowTokens(rows[0], d), Break(eol), TokensOf(rows[1..], eol, d), tail, rest);
      LineInFront(PrintRow(rows[0], d), eol, Print(rows[1..], eol, d), text, behind);
      RowBack(rows, table);
      LinePrinted(rows[0], eol, rest, behind, ReadBackAll(rows[1..]) + table, d, all);
    }
  }

  lemma LinePrinted(row: seq<string>, eol: string, rest: seq<Token>, behind: string, others: seq<seq<string>>, d: char, all: seq<Token>)
    requires Separates(d) && LineBreak(eol) && (eol == "\r" ==> !BeginsWith(behind, LF)) && Writes(rest, behind, others, d)
    requires all == RowTokens(row, d) + ([Break(eol)] + rest)
    ensures Writes(all, PrintRow(row, d) + (eol + behind), [ReadBack(row)] + others, d)
  {
    BreakPrinted(eol, rest, behind, others, d, [Break(eol)] + rest);
    RowPrinted(row, [Break(eol)] + rest, eol + behind, others, d, all);
  }

  lemma LineInFront(line: string, eol: string, others: string, text: string, behind: string)
    requires behind == others + text
    ensures line + eol + others + text == line + (eol + behind)
  {
    FourParts(line, eol, others, text);
    Associates(eol, others, text);
  }

  lemma RowBack(rows: seq<seq<string>>, table: seq<seq<string>>)
    requires rows != []
    ensures [ReadBack(rows[0])] + (ReadBackAll(rows[1..]) + table) == ReadBackAll(rows) + table
  {
  }

  /** Reading back what was printed, whatever the cells hold (quotes, separators, CR and LF included):
      the same records, but for a record without cells, which comes back as one empty cell. */
  lemma PrintThenSplit(rows: seq<seq<string>>, eol: string, d: char)
    requires LineBreak(eol) && Separates(d)
    ensures Split(Print(rows, eol, d), d) == ReadBackAll(rows)
  {
    var ts := TokensOf(rows, eol, d);
    NothingAdded(ts, []);
    NothingAdded(Print(rows, eol, d), "");
    RowsPrinted(rows, eol, [], "", [[""]], d, ts);
    TableRead(ts, Print(rows, eol, d), ReadBackAll(rows) + [[""]], d);
    assert (ReadBackAll(rows) + [[""]])[..|rows|] == ReadBackAll(rows);
  }

  /** The round trip returns the same rows if and only if every row has a cell. */
  lemma RoundTrip(rows: seq<seq<string>>, eol: string, d: char)
    requires LineBreak(eol) && Separates(d)
    ensures (Split(Print(rows, eol, d), d) == rows) <==> ([] !in rows)
  {
    PrintThenSplit(rows, eol, d);
    if [] in rows {
      var i :| 0 <= i < |rows| && rows[i] == [];
      assert ReadBackAll(rows)[i] == [""];
    }
  }

  lemma OpenPrinted(rows: seq<seq<string>>, eol: string, d: char)
    requires LineBreak(eol) && Separates(d) && rows != []
    ensures Split(PrintOpen(rows, eol, d), d) == Records(ReadBackAll(rows))
  {
    var before, last := rows[..|rows| - 1], rows[|rows| - 1];
    var tail, ts := RowTokens(last, d), TokensOf(before, eol, d) + RowTokens(last, d);
    LastPrinted(last, d);
    RowsPrinted(before, eol, tail, PrintRow(last, d), [ReadBack(last)], d, ts);
    LastBack(rows, before, last);
    TableRead(ts, PrintOpen(rows, eol, d), ReadBackAll(rows), d);
  }

  lemma LastBack(rows: seq<seq<string>>, before: seq<seq<string>>, last: seq<string>)
    requires rows != [] && before == rows[..|rows| - 1] && last == rows[|rows| - 1]
    ensures ReadBackAll(before) + [ReadBack(last)] == ReadBackAll(rows)
  {
  }

  lemma TableRead(ts: seq<Token>, text: string, table: seq<seq<string>>, d: char)
    requires Separates(d) && Writes(ts, text, table, d)
    ensures table != [] && Split(text, d) == Records(table)
  {
    SplitMeaning(ts, None, d);
  }

  lemma LastPrinted(row: seq<string>, d: char)
    requires Separates(d)
    ensures Writes(RowTokens(row, d), PrintRow(row, d), [ReadBack(row)], d) && !BeginsWith(PrintRow(row, d), LF)
  {
    NothingAdded(RowTokens(row, d), []);
    NothingAdded(PrintRow(row, d), "");
    NoStrayLf(row, "", d);
    assert [[""]] + [] == [[""]] && [ReadBack(row)] + [] == [ReadBack(row)];
    RowPrinted(row, [], "", [], d, RowTokens(row, d));
  }

  /** Without the line break behind the last record the same is read back if and only if that record is more than an empty
      line. */
  lemma OpenReadBackIff(rows: seq<seq<string>>, eol: string, d: char)
    requires LineBreak(eol) && Separates(d) && rows != []
    ensures Split(PrintOpen(rows, eol, d), d) == Split(Print(rows, eol, d), d)
            <==> rows[|rows| - 1] != [] && rows[|rows| - 1] != [""]
  {
    OpenPrinted(rows, eol, d);
    PrintThenSplit(rows, eol, d);
  }

  // ---------- which separator ----------

  function Count(s: string, c: char): nat {
    if s == "" then 0 else (if s[0] == c then 1 else 0) + Count(s[1..], c)
  }

  function FirstWritten(lines: seq<string>): string {
    if lines == [] then "" else if T.Trim(lines[0]) != "" then lines[0] else FirstWritten(lines[1..])
  }

  /** `detectDelimiter`: what the first line with text has more of. */
  function DetectDelimiter(text: string): char {
    var line := FirstWritten(T.SplitLines(text));
    if Count(line, ';') > Count(line, ',') then ';' else ','
  }

  /** Cells of a header: not blank, and neither quotes nor either separator in them. */
  predicate HeaderCell(cell: string) {
    T.Trim(cell) != "" && !NeedsQuotes(cell, ';') && !NeedsQuotes(cell, ',')
  }

  lemma {:induction false} CountBoth(a: string, b: string, c: char)
    ensures Count(a + b, c) == Count(a, c) + Count(b, c)
  {
    if a == "" {
      assert a + b == b;
    } else {
      HeadInFront(a, b);
      assert (a + b)[1..] == a[1..] + b;
      CountBoth(a[1..], b, c);
    }
  }

  lemma {:induction false} NoneCounted(s: string, c: char)
    requires c !in s
    ensures Count(s, c) == 0
  {
    if s != "" { NoneCounted(s[1..], c); }
  }

  lemma {:induction false} StartStops(s: string, k: nat)
    requires k < |s| && !T.IsSpace(s[k])
    ensures T.TrimStart(s) != "" && !T.IsSpace(T.TrimStart(s)[0])
  {
    if T.IsSpace(s[0]) { StartStops(s[1..], k - 1); }
  }

  lemma {:induction false} EndStops(s: string)
    requires s != "" && !T.IsSpace(s[0])
    ensures T.TrimEnd(s) != ""
  {
    if T.IsSpace(s[|s| - 1]) { EndStops(s[..|s| - 1]); }
  }

  lemma NotBlank(s: string, k: nat)
    requires k < |s| && !T.IsSpace(s[k])
    ensures T.Trim(s) != ""
  {
    StartStops(s, k);
    EndStops(T.TrimStart(s));
  }

  /** A header has one separator between two cells, and none of the other kind. */
  lemma {:induction false} SeparatorsCounted(row: seq<string>, d: char, other: char)
    requires row != [] && (d == ';' || d == ',') && (other == ';' || other == ',') && d != other
    requires forall cell :: cell in row ==> HeaderCell(cell)
    ensures Count(PrintRow(row, d), d) == |row| - 1 && Count(PrintRow(row, d), other) == 0
    ensures LF !in PrintRow(row, d) && T.Trim(PrintRow(row, d)) != ""
  {
    assert row[0] in row;
    NoneCounted(row[0], d);
    NoneCounted(row[0], other);
    if |row| > 1 {
      SeparatorsCounted(row[1..], d, other);
      MoreCounted(row[0], PrintRow(row[1..], d), d, other);
    }
  }

  lemma MoreCounted(cell: string, rest: string, d: char, other: char)
    requires (d == ';' || d == ',') && (other == ';' || other == ',') && d != other && Count(cell, d) == Count(cell, other) == 0
    ensures Count(cell + [d] + rest, d) == 1 + Count(rest, d) && Count(cell + [d] + rest, other) == Count(rest, other)
    ensures T.Trim(cell + [d] + rest) != ""
  {
    var more := [d] + rest;
    assert more[1..] == rest;
    Associates(cell, [d], rest);
    CountBoth(cell, more, d);
    CountBoth(cell, more, other);
    NotBlank(cell + more, |cell|);
  }

  lemma {:induction false} FirstLine(line: string, rest: string)
    requires LF !in line
    ensures T.SplitLines(line + "\n" + rest)[0] == line && T.SplitLines(line)[0] == line
  {
    var text := line + "\n" + rest;
    if line == "" {
      assert text[0] == LF;
    } else {
      assert text[1..] == line[1..] + "\n" + rest && text[0] == line[0];
      FirstLine(line[1..], rest);
      assert [line[0]] + line[1..] == line;
    }
  }

  lemma HeaderDetected(line: string, text: string, n: nat, d: char, other: char)
    requires (d == ';' && other == ',' && n > 0) || (d == ',' && other == ';')
    requires Count(line, d) == n && Count(line, other) == 0 && T.Trim(line) != ""
    requires T.SplitLines(text)[0] == line
    ensures DetectDelimiter(text) == d
  {
  }

  lemma WithCr(line: string, c: char)
    requires c != CR
    ensures Count(line + "\r", c) == Count(line, c)
  {
    CountBoth(line, "\r", c);
    NoneCounted("\r", c);
  }

  lemma {:induction false} BlankNoMore(line: string)
    requires T.Trim(line) != ""
    ensures T.Trim(line + "\r") != ""
  {
    var k := WrittenAt(line);
    NotBlank(line + "\r", k);
  }

  lemma {:induction false} WrittenAt(s: string) returns (k: nat)
    requires T.Trim(s) != ""
    ensures k < |s| && !T.IsSpace(s[k])
  {
    k := 0;
    if T.IsSpace(s[0]) {
      var rest := s[1..];
      k := WrittenAt(rest);
      k := k + 1;
    }
  }

  /** A journal printed with either separator under a header of at least two plain cells is read with that separator. */
  lemma SeparatorDetected(rows: seq<seq<string>>, eol: string, d: char)
    requires (d == ';' || d == ',') && (eol == "\n" || eol == "\r\n")
    requires rows != [] && |rows[0]| > 1 && forall cell :: cell in rows[0] ==> HeaderCell(cell)
    ensures DetectDelimiter(Print(rows, eol, d)) == d && DetectDelimiter(PrintOpen(rows, eol, d)) == d
  {
    SeparatorInHeader(rows[0], eol, Print(rows[1..], eol, d), d);
    if |rows| == 1 {
      AloneInHeader(rows[0], d);
      assert Print(rows[..0], eol, d) + PrintRow(rows[0], d) == PrintRow(rows[0], d);
    } else {
      var before := rows[..|rows| - 1];
      assert before[0] == rows[0];
      SeparatorInHeader(rows[0], eol, Print(before[1..], eol, d) + PrintRow(rows[|rows| - 1], d), d);
      Associates(PrintRow(rows[0], d) + eol, Print(before[1..], eol, d), PrintRow(rows[|rows| - 1], d));
    }
  }

  lemma AloneInHeader(header: seq<string>, d: char)
    requires (d == ';' || d == ',') && |header| > 1 && forall cell :: cell in header ==> HeaderCell(cell)
    ensures DetectDelimiter(PrintRow(header, d)) == d
  {
    var line, other := PrintRow(header, d), if d == ';' then ',' else ';';
    SeparatorsCounted(header, d, other);
    FirstLine(line, "");
    HeaderDetected(line, line, |header| - 1, d, other);
  }

  lemma SeparatorInHeader(header: seq<string>, eol: string, rest: string, d: char)
    requires (d == ';' || d == ',') && (eol == "\n" || eol == "\r\n")
    requires |header| > 1 && forall cell :: cell in header ==> HeaderCell(cell)
    ensures DetectDelimiter(PrintRow(header, d) + eol + rest) == d
  {
    var line, other := PrintRow(header, d), if d == ';' then ',' else ';';
    SeparatorsCounted(header, d, other);
    if eol == "\n" {
      FirstLine(line, rest);
      HeaderDetected(line, line + eol + rest, |header| - 1, d, other);
    } else {
      WithCr(line, d);
      WithCr(line, other);
      BlankNoMore(line);
      CrLf(line, eol, rest);
      HeaderDetected(line + "\r", line + eol + rest, |header| - 1, d, other);
    }
  }

  lemma CrLf(line: string, eol: string, rest: string)
    requires LF !in line && eol == "\r\n"
    ensures T.SplitLines(line + eol + rest)[0] == line + "\r"
  {
    FirstLine(line + "\r", rest);
    assert line + eol + rest == line + "\r" + "\n" + rest;
  }

  /** Such a journal is read back as it was, whichever separator it is written with. */
  lemma JournalReadBack(rows: seq<seq<string>>, eol: string, d: char)
    requires (d == ';' || d == ',') && (eol == "\n" || eol == "\r\n")
    requires rows != [] && |rows[0]| > 1 && forall cell :: cell in rows[0] ==> HeaderCell(cell)
    ensures var text := Print(rows, eol, d); Split(text, DetectDelimiter(text)) == ReadBackAll(rows)
    ensures var text := PrintOpen(rows, eol, d); Split(text, DetectDelimiter(text)) == Records(ReadBackAll(rows))
  {
    SeparatorDetected(rows, eol, d);
    PrintThenSplit(rows, eol, d);
    OpenPrinted(rows, eol, d);
  }
}
