/** Characters, lines and trimming, as the patterns and string functions of the program read them. */
module Text {
  import opened Collections

  predicate IsDigit(c: char) {
    '0' <= c <= '9'
  }

  predicate IsSpace(c: char) {
    c in " \t\n\r\U{000B}\U{000C}\U{00A0}\U{1680}\U{2028}\U{2029}\U{202F}\U{205F}\U{3000}\U{FEFF}" || '\U{2000}' <= c <= '\U{200A}'
  }

  function TrimStart(s: string): string {
    if s != "" && IsSpace(s[0]) then TrimStart(s[1..]) else s
  }

  function TrimEnd(s: string): string {
    if s != "" && IsSpace(s[|s| - 1]) then TrimEnd(s[..|s| - 1]) else s
  }

  function Trim(s: string): string {
    TrimEnd(TrimStart(s))
  }

  function SplitLines(s: string): (lines: seq<string>)
    ensures lines != []
  {
    if s == "" then [""]
    else
      var rest := SplitLines(s[1..]);
      if s[0] == '\n' then [""] + rest else [[s[0]] + rest[0]] + rest[1..]
  }

  function TrimAll(lines: seq<string>): seq<string> {
    if lines == [] then [] else [Trim(lines[0])] + TrimAll(lines[1..])
  }

  /** `parts.join(separator)`. */
  function Join(parts: seq<string>, separator: string): string {
    if parts == [] then "" else if |parts| == 1 then parts[0] else parts[0] + separator + Join(parts[1..], separator)
  }

  // ---------- lines and blanks ----------

  /** The lines of a text are what stands between its line breaks. */
  lemma {:induction false} LinesMeaning(s: string)
    ensures Join(SplitLines(s), "\n") == s
    ensures forall line :: line in SplitLines(s) ==> '\n' !in line
  {
    if s != "" {
      LinesMeaning(s[1..]);
      var rest := SplitLines(s[1..]);
      assert s == [s[0]] + s[1..];
      if s[0] == '\n' {
        assert ([""] + rest)[1..] == rest;
      } else {
        FirstLineJoined(s[0], rest);
        assert rest[0] in rest;
      }
    }
  }

  lemma FirstLineJoined(c: char, rest: seq<string>)
    requires rest != []
    ensures Join([[c] + rest[0]] + rest[1..], "\n") == [c] + Join(rest, "\n")
  {
    var lines := [[c] + rest[0]] + rest[1..];
    assert lines[1..] == rest[1..];
    if |rest| > 1 { FourParts([c], rest[0], "\n", Join(rest[1..], "\n")); }
  }

  /** Trimming takes the blanks off both ends and nothing else. */
  lemma TrimMeaning(s: string) returns (a: nat, b: nat)
    ensures a <= b <= |s| && Trim(s) == s[a..b]
    ensures forall k :: 0 <= k < a || b <= k < |s| ==> IsSpace(s[k])
    ensures a < b ==> !IsSpace(s[a]) && !IsSpace(s[b - 1])
  {
    a := StartMeaning(s);
    b := EndMeaning(s[a..]);
    b := a + b;
    assert s[a..][..b - a] == s[a..b];
    forall k | b <= k < |s|
      ensures IsSpace(s[k])
    {
      assert s[a..][k - a] == s[k];
    }
    if a < b { assert s[a..][b - a - 1] == s[b - 1]; }
  }

  lemma {:induction false} StartMeaning(s: string) returns (a: nat)
    ensures a <= |s| && TrimStart(s) == s[a..] && (forall k :: 0 <= k < a ==> IsSpace(s[k]))
    ensures a < |s| ==> !IsSpace(s[a])
  {
    a := 0;
    if s != "" && IsSpace(s[0]) {
      var rest := s[1..];
      a := StartMeaning(rest);
      assert rest[a..] == s[a + 1..] && forall k :: 0 <= k < a ==> rest[k] == s[k + 1];
      a := a + 1;
    }
  }

  lemma {:induction false} EndMeaning(s: string) returns (b: nat)
    ensures b <= |s| && TrimEnd(s) == s[..b] && (forall k :: b <= k < |s| ==> IsSpace(s[k]))
    ensures b > 0 ==> !IsSpace(s[b - 1])
  {
    b := |s|;
    if s != "" && IsSpace(s[|s| - 1]) {
      var rest := s[..|s| - 1];
      b := EndMeaning(rest);
      assert rest[..b] == s[..b];
    }
  }
}
