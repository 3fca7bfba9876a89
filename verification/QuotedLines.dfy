/** Which remarks of several lines the gate protects: an unsafe piece betrays it unless a piece cut before shields it. */
module QuotedLines {
  import opened Collections
  import opened Faithfulness
  import opened Prelude
  import opened Quotations
  import opened Text

  // ---------- a number that is lost ----------

  /** No reference to `r` can be in the text, nor come back by cuts. */
  ghost predicate Dead(t: string, r: string) {
    !Occurs(r, t) || !Occurs("§", t)
  }

  lemma DeadStays(t: string, piece: string, r: string)
    requires piece != "" && r != "" && SpaceFree(r) && Dead(t, r)
    ensures Dead(ReplaceAll(t, piece), r)
  {
    if Occurs(r, ReplaceAll(t, piece)) { ReplacedOccurs(t, piece, r); }
    if Occurs("§", ReplaceAll(t, piece)) { ReplacedOccurs(t, piece, "§"); }
  }

  lemma RefOccurs(t: string, r: string)
    requires RefersTo(t, r)
    ensures !Dead(t, r)
  {
    var k: nat :| k < |t| && RefAt(t, k) == Some(r);
    RefIs(t, k, r);
    assert OccursAt(r, t, NumberStart(t, k));
    assert t[k..k + 1] == "§" && OccursAt("§", t, k);
  }

  lemma NumberIsWord(r: string)
    requires IsNumber(r)
    ensures r != "" && SpaceFree(r)
  {
  }

  /** If it is cut at all, the number is lost. */
  ghost predicate Kills(s: string, piece: string, r: string)
    requires piece != ""
  {
    Occurs(piece, s) ==> Dead(ReplaceAll(s, piece), r)
  }

  ghost predicate Intact(t: string, s: string, r: string) {
    t == s || Dead(t, r)
  }

  lemma OneCut(t: string, s: string, piece: string, r: string)
    requires piece != "" && r != "" && SpaceFree(r) && Intact(t, s, r) && Kills(s, piece, r)
    ensures Intact(ReplaceAll(t, piece), s, r)
  {
    if Dead(t, r) {
      DeadStays(t, piece, r);
    } else if !Occurs(piece, s) {
      NothingToReplace(s, piece);
    }
  }

  lemma {:induction false} EarlierCuts(s: string, pieces: seq<string>, r: string)
    requires AllLong(pieces) && r != "" && SpaceFree(r)
    requires forall piece :: piece in pieces ==> piece != "" && Kills(s, piece, r)
    requires forall piece :: piece in pieces ==> WithoutDot(piece) != "" && Kills(s, WithoutDot(piece), r)
    ensures Intact(CutOutAll(s, pieces), s, r)
  {
    if pieces != [] {
      var n := |pieces| - 1;
      var before, piece := CutOutAll(s, pieces[..n]), pieces[n];
      assert piece in pieces;
      EarlierCuts(s, pieces[..n], r);
      OneCut(before, s, piece, r);
      OneCut(ReplaceAll(before, piece), s, WithoutDot(piece), r);
    }
  }

  lemma DeadCut(t: string, piece: string, r: string)
    requires |piece| >= MIN_QUOTE && r != "" && SpaceFree(r) && Dead(t, r)
    ensures Dead(CutOut(t, piece), r)
  {
    DeadStays(t, piece, r);
    DeadStays(ReplaceAll(t, piece), WithoutDot(piece), r);
  }

  // ---------- a cut through the number ----------

  lemma {:induction false} FirstOccurrence(piece: string, s: string, from: nat) returns (a: nat)
    requires from <= |s| && exists i: nat :: from <= i <= |s| && OccursAt(piece, s, i)
    ensures from <= a <= |s| && OccursAt(piece, s, a) && forall i: nat :: from <= i < a ==> !OccursAt(piece, s, i)
    decreases |s| - from
  {
    if OccursAt(piece, s, from) {
      a := from;
    } else {
      var i: nat :| from <= i <= |s| && OccursAt(piece, s, i);
      a := FirstOccurrence(piece, s, from + 1);
    }
  }

  ghost predicate OnlyAt(r: string, s: string, i0: nat) {
    forall i: nat :: OccursAt(r, s, i) ==> i == i0
  }

  /** Every occurrence of the piece shares a place with the number. */
  ghost predicate Crosses(piece: string, s: string, i0: nat, n: nat) {
    forall a: nat :: OccursAt(piece, s, a) ==> a < i0 + n && i0 < a + |piece|
  }

  lemma Covers(r: string, t: string, i: nat, j: nat)
    requires OccursAt(r, t, i) && i <= j < i + |r|
    ensures t[j] in r
  {
    assert r[j - i] == t[j];
  }

  lemma WordBeforeBlank(r: string, before: string, after: string, t: string, i: nat)
    requires t == before + " " + after && SpaceFree(r) && OccursAt(r, t, i)
    ensures i + |r| <= |before| || i > |before|
  {
    assert |before| < |t| && t[|before|] == ' ';
    if i <= |before| < i + |r| { Covers(r, t, i, |before|); }
  }

  lemma InFirst(r: string, before: string, after: string, t: string, i: nat)
    requires t == before + after && i + |r| <= |before|
    ensures OccursAt(r, t, i) <==> OccursAt(r, before, i)
  {
    assert t[i..i + |r|] == before[i..i + |r|];
  }

  lemma InSecond(r: string, before: string, after: string, t: string, i: nat)
    requires t == before + after && |before| <= i
    ensures OccursAt(r, t, i) <==> OccursAt(r, after, i - |before|)
  {
    if i + |r| <= |t| { assert t[i..i + |r|] == after[i - |before|..i - |before| + |r|]; }
  }

  /** A cut through the only place of a number leaves none. */
  lemma CutThrough(s: string, piece: string, r: string, i0: nat)
    requires piece != "" && r != "" && SpaceFree(r) && OnlyAt(r, s, i0) && Crosses(piece, s, i0, |r|) && Occurs(piece, s)
    ensures !Occurs(r, ReplaceAll(s, piece))
  {
    var a := FirstOccurrence(piece, s, 0);
    var before, rest := s[..a], s[a + |piece|..];
    assert s == before + piece + rest;
    FirstCut(before, piece, rest);
    if Occurs(r, ReplaceAll(s, piece)) {
      NotLeft(s, before, piece, rest, r, i0, ReplaceAll(s, piece));
    }
  }

  lemma NotLeft(s: string, before: string, piece: string, rest: string, r: string, i0: nat, t: string)
    requires piece != "" && r != "" && SpaceFree(r) && s == before + piece + rest && t == before + " " + ReplaceAll(rest, piece)
    requires OnlyAt(r, s, i0) && Occurs(r, t)
    ensures i0 + |r| <= |before| || |before| + |piece| <= i0
  {
    var i: nat :| i <= |t| && OccursAt(r, t, i);
    var after := ReplaceAll(rest, piece);
    WordBeforeBlank(r, before, after, t, i);
    if i + |r| <= |before| {
      FourParts(before, " ", after, "");
      assert t == before + (" " + after);
      InFirst(r, before, " " + after, t, i);
      assert s == before + (piece + rest);
      InFirst(r, before, piece + rest, s, i);
    } else {
      InSecond(r, before + " ", after, t, i);
      assert Occurs(r, after);
      ReplacedOccurs(rest, piece, r);
      var y: nat :| y <= |rest| && OccursAt(r, rest, y);
      InSecond(r, before + piece, rest, s, |before| + |piece| + y);
    }
  }

  // ---------- a number in front of the piece ----------

  lemma NumberGoesOn(r: string, j: nat)
    requires IsNumber(r) && j < |r|
    ensures Continues(r, j) && forall c :: c in r ==> IsDigit(c) || c == '.'
  {
  }

  lemma GoesOnInside(r: string, s: string, i: nat, m: nat)
    requires IsNumber(r) && OccursAt(r, s, i) && i <= m < i + |r|
    ensures Continues(s, m)
  {
    NumberGoesOn(r, m - i);
    assert r[m - i] == s[m];
    if m + 1 < i + |r| { assert r[m - i + 1] == s[m + 1]; }
  }

  lemma FrontOnly(piece: string, n: nat, s: string, r: string)
    requires n > |piece| && s == "§" + Nines(n) + piece
    requires RefAt(s, 0) == Some(r) && NumberStart(s, 0) == 1 && |r| > n
    ensures OnlyAt(r, s, 1)
  {
    RefIs(s, 0, r);
    var m := 1 + |r|;
    forall i: nat | OccursAt(r, s, i)
      ensures i == 1
    {
      if i == 0 {
        GoesOnInside(r, s, 0, 0);
      } else if 1 < i < m {
        GoesOnInside(r, s, i, m);
      }
    }
  }

  lemma BehindNines(x: string, piece: string, n: nat, s: string, a: nat)
    requires s == "§" + Nines(n) + piece && a >= n + 1 && OccursAt(x, s, a)
    ensures OccursAt(x, piece, a - (n + 1))
  {
    InSecond(x, "§" + Nines(n), piece, s, a);
  }

  lemma EarlierCrossesFront(x: string, piece: string, n: nat, s: string, r: string)
    requires |x| > 1 && s == "§" + Nines(n) + piece && |r| > n && !Occurs(x, piece)
    ensures Crosses(x, s, 1, |r|)
  {
    forall a: nat | OccursAt(x, s, a)
      ensures a < 1 + |r| && 1 < a + |x|
    {
      if a >= n + 1 { BehindNines(x, piece, n, s, a); }
    }
  }

  lemma KillsIfCrossing(s: string, x: string, r: string, i0: nat)
    requires x != "" && IsNumber(r) && OnlyAt(r, s, i0) && Crosses(x, s, i0, |r|)
    ensures Kills(s, x, r)
  {
    NumberIsWord(r);
    if Occurs(x, s) { CutThrough(s, x, r, i0); }
  }

  /** What a piece cut before must not do: occur in the piece. */
  ghost predicate Shields(x: string, piece: string) {
    Occurs(WithoutDot(x), piece)
  }

  lemma ShorterOccurs(x: string, piece: string)
    requires x != "" && Occurs(x, piece)
    ensures Occurs(WithoutDot(x), piece)
  {
    var i: nat :| i <= |piece| && OccursAt(x, piece, i);
    assert piece[i..i + |WithoutDot(x)|] == piece[i..i + |x|][..|WithoutDot(x)|];
    assert OccursAt(WithoutDot(x), piece, i);
  }

  /** A number in front: whatever is cut before, the cut of the piece takes it away. */
  lemma FrontIsLost(pieces: seq<string>, k: nat, n: nat, s: string, r: string)
    requires AllLong(pieces) && k < |pieces| && n > |pieces[k]| && s == "§" + Nines(n) + pieces[k]
    requires RefAt(s, 0) == Some(r) && NumberStart(s, 0) == 1 && |r| > n
    requires forall j :: 0 <= j < k ==> !Shields(pieces[j], pieces[k])
    ensures Dead(CutOutAll(s, pieces), r)
  {
    var piece := pieces[k];
    RefIs(s, 0, r);
    NumberIsWord(r);
    FrontOnly(piece, n, s, r);
    forall x | x in pieces[..k]
      ensures Kills(s, x, r) && Kills(s, WithoutDot(x), r)
    {
      var j: nat :| j < k && pieces[..k][j] == x;
      assert !Shields(pieces[j], piece);
      if Occurs(x, piece) { ShorterOccurs(x, piece); }
      EarlierCrossesFront(x, piece, n, s, r);
      KillsIfCrossing(s, x, r, 1);
      EarlierCrossesFront(WithoutDot(x), piece, n, s, r);
      KillsIfCrossing(s, WithoutDot(x), r, 1);
    }
    EarlierCuts(s, pieces[..k], r);
    PieceCrossesFront(piece, n, s, r);
    KillsIfCrossing(s, piece, r, 1);
    DeadStays(ReplaceAll(s, piece), WithoutDot(piece), r);
    DeadLasts(r);
    CutAtLast(s, pieces, k, t => Dead(t, r), Texts(s, pieces));
  }

  lemma PieceCrossesFront(piece: string, n: nat, s: string, r: string)
    requires |piece| > 1 && s == "§" + Nines(n) + piece && |r| > n
    ensures Crosses(piece, s, 1, |r|) && Occurs(piece, s)
  {
    assert s[n + 1..n + 1 + |piece|] == piece;
    assert OccursAt(piece, s, n + 1);
  }

  lemma DeadRefersNot(t: string, r: string)
    requires Dead(t, r)
    ensures !RefersTo(t, r)
  {
    if RefersTo(t, r) { RefOccurs(t, r); }
  }

  /** What a cut leaves as it is. */
  ghost predicate Lasts(dead: string -> bool) {
    forall t: string, piece: string :: |piece| >= MIN_QUOTE && dead(t) ==> dead(CutOut(t, piece))
  }

  lemma OneMoreLasts(before: string, piece: string, after: string, dead: string -> bool)
    requires |piece| >= MIN_QUOTE && after == CutOut(before, piece) && Lasts(dead)
    ensures dead(before) ==> dead(after)
  {
  }

  lemma {:induction false} Spreads(ds: seq<bool>, k: nat, n: nat)
    requires k <= n < |ds| && ds[k] && forall j :: k <= j < n && ds[j] ==> ds[j + 1]
    ensures ds[n]
  {
    if k < n { Spreads(ds, k, n - 1); }
  }

  /** The text after each number of pieces. */
  function Texts(s: string, pieces: seq<string>): (ts: seq<string>)
    requires AllLong(pieces)
    ensures |ts| == |pieces| + 1 && forall j :: 0 <= j <= |pieces| ==> ts[j] == CutOutAll(s, pieces[..j])
  {
    seq(|pieces| + 1, j requires 0 <= j <= |pieces| => CutOutAll(s, pieces[..j]))
  }

  lemma TextCut(s: string, pieces: seq<string>, ts: seq<string>, j: nat)
    requires AllLong(pieces) && ts == Texts(s, pieces) && j < |pieces|
    ensures ts[j + 1] == CutOut(ts[j], pieces[j])
  {
    OneMorePiece(s, pieces, j);
  }

  /** Once the piece is cut in the text it was quoted in, what that makes true lasts to the end. */
  lemma CutAtLast(s: string, pieces: seq<string>, k: nat, dead: string -> bool, ts: seq<string>)
    requires AllLong(pieces) && k < |pieces| && Lasts(dead) && ts == Texts(s, pieces)
    requires (ts[k] == s || dead(ts[k])) && dead(CutOut(s, pieces[k]))
    ensures dead(CutOutAll(s, pieces))
  {
    var ds := seq(|ts|, j requires 0 <= j < |ts| => dead(ts[j]));
    TextCut(s, pieces, ts, k);
    OneMoreLasts(ts[k], pieces[k], ts[k + 1], dead);
    forall j | k < j < |pieces| && ds[j]
      ensures ds[j + 1]
    {
      TextCut(s, pieces, ts, j);
      OneMoreLasts(ts[j], pieces[j], ts[j + 1], dead);
    }
    Spreads(ds, k + 1, |pieces|);
    assert pieces[..|pieces|] == pieces;
  }

  lemma DeadLasts(r: string)
    requires r != "" && SpaceFree(r)
    ensures Lasts(t => Dead(t, r))
  {
    forall t: string, piece: string | |piece| >= MIN_QUOTE && Dead(t, r)
      ensures Dead(CutOut(t, piece), r)
    {
      DeadCut(t, piece, r);
    }
  }

  // ---------- a number behind the piece ----------

  lemma BackOnly(q: string, k: nat, n: nat, s: string, r: string)
    requires n > |q| && s == q + Nines(n) && k < |q| && RefAt(s, k) == Some(r) && RefEnd(s, k) == |s| && |r| >= n
    ensures OnlyAt(r, s, NumberStart(s, k)) && NumberStart(s, k) <= |q|
  {
    RefIs(s, k, r);
    var f := NumberStart(s, k);
    NumberGoesOn(r, 0);
    forall i: nat | OccursAt(r, s, i)
      ensures i == f
    {
      if i < f { Covers(r, s, i, f - 1); }
    }
  }

  lemma EarlierCrossesBack(x: string, q: string, n: nat, s: string, f: nat, r: string)
    requires x != "" && s == q + Nines(n) && f <= |q| && f + |r| == |s| && !Occurs(x, q)
    ensures Crosses(x, s, f, |r|)
  {
    forall a: nat | OccursAt(x, s, a)
      ensures a < f + |r| && f < a + |x|
    {
      if a + |x| <= |q| { InFirst(x, q, Nines(n), s, a); }
    }
  }

  lemma PrefixShields(x: string, q: string, piece: string)
    requires q <= piece && Occurs(x, q)
    ensures Occurs(x, piece)
  {
    var i: nat :| i <= |q| && OccursAt(x, q, i);
    assert piece[i..i + |x|] == q[i..i + |x|];
    assert OccursAt(x, piece, i);
  }

  lemma NoSignInNines(n: nat, q: string)
    requires Occurs("§", q)
    ensures !Occurs(q, Nines(n)) && !Occurs("§", " " + Nines(n))
  {
    var nines, t := Nines(n), " " + Nines(n);
    assert forall c :: c in nines ==> c == '9';
    assert forall c :: c in t ==> c == '9' || c == ' ';
    SignIn(q);
    if Occurs(q, nines) { PartIn(q, nines, '§'); }
    if Occurs("§", t) { SignIn(t); }
  }

  lemma PartIn(q: string, t: string, c: char)
    requires Occurs(q, t) && c in q
    ensures c in t
  {
    var a: nat :| a <= |t| && OccursAt(q, t, a);
    var i :| 0 <= i < |q| && q[i] == c;
    assert t[a..a + |q|][i] == t[a + i];
  }

  /** The piece, or what it is without its dot, is cut in front of the nines, and its sign with it. */
  lemma SignIsLost(q: string, n: nat, s: string, r: string)
    requires q != "" && s == q + Nines(n) && Occurs("§", q)
    ensures Dead(ReplaceAll(s, q), r)
  {
    assert s == "" + q + Nines(n);
    FirstCut("", q, Nines(n));
    NoSignInNines(n, q);
    NothingToReplace(Nines(n), q);
    assert ReplaceAll(s, q) == " " + Nines(n);
  }

  lemma DottedIsAbsent(piece: string, n: nat, s: string)
    requires piece != "" && WithoutDot(piece) != piece && s == WithoutDot(piece) + Nines(n)
    ensures ReplaceAll(s, piece) == s
  {
    forall a: nat | a <= |s|
      ensures !OccursAt(piece, s, a)
    {
      if a + |piece| <= |s| { assert s[a + |piece| - 1] == '9' && s[a..a + |piece|][|piece| - 1] == s[a + |piece| - 1]; }
    }
    NothingToReplace(s, piece);
  }

  lemma PieceCutBehind(piece: string, q: string, n: nat, s: string, r: string)
    requires |piece| >= MIN_QUOTE && (q == piece || q == WithoutDot(piece)) && s == q + Nines(n) && Occurs("§", q)
    requires r != "" && SpaceFree(r)
    ensures Dead(CutOut(s, piece), r)
  {
    if q == piece {
      SignIsLost(q, n, s, r);
      DeadStays(ReplaceAll(s, piece), WithoutDot(piece), r);
    } else {
      DottedIsAbsent(piece, n, s);
      SignIsLost(q, n, s, r);
    }
  }

  lemma BackIsLost(pieces: seq<string>, k: nat, q: string, i: nat, n: nat, s: string, r: string)
    requires AllLong(pieces) && k < |pieces| && (q == pieces[k] || q == WithoutDot(pieces[k]))
    requires n > |q| && s == q + Nines(n) && i < |q| && RefAt(s, i) == Some(r) && RefEnd(s, i) == |s| && |r| >= n
    requires forall j :: 0 <= j < k ==> !Shields(pieces[j], pieces[k])
    ensures Dead(CutOutAll(s, pieces), r)
  {
    RefIs(s, i, r);
    NumberIsWord(r);
    BackOnly(q, i, n, s, r);
    var f := NumberStart(s, i);
    forall x | x in pieces[..k]
      ensures Kills(s, x, r) && Kills(s, WithoutDot(x), r)
    {
      var j: nat :| j < k && pieces[..k][j] == x;
      EarlierKillsBehind(pieces[j], q, pieces[k], n, s, f, r);
    }
    EarlierCuts(s, pieces[..k], r);
    SignInFront(q, i, n, s);
    PieceCutBehind(pieces[k], q, n, s, r);
    DeadLasts(r);
    CutAtLast(s, pieces, k, t => Dead(t, r), Texts(s, pieces));
  }

  lemma SignInFront(q: string, i: nat, n: nat, s: string)
    requires s == q + Nines(n) && i < |q| && s[i] == '§'
    ensures Occurs("§", q)
  {
    assert q[i..i + 1] == "§";
    assert OccursAt("§", q, i);
  }

  lemma EarlierKillsBehind(x: string, q: string, piece: string, n: nat, s: string, f: nat, r: string)
    requires |x| >= MIN_QUOTE && IsNumber(r) && s == q + Nines(n) && f <= |q| && f + |r| == |s| && OnlyAt(r, s, f)
    requires q <= piece && !Shields(x, piece)
    ensures Kills(s, x, r) && Kills(s, WithoutDot(x), r)
  {
    if Occurs(x, piece) { ShorterOccurs(x, piece); }
    KillsBehind(x, q, piece, n, s, f, r);
    KillsBehind(WithoutDot(x), q, piece, n, s, f, r);
  }

  lemma KillsBehind(x: string, q: string, piece: string, n: nat, s: string, f: nat, r: string)
    requires x != "" && IsNumber(r) && s == q + Nines(n) && f <= |q| && f + |r| == |s| && OnlyAt(r, s, f)
    requires q <= piece && !Occurs(x, piece)
    ensures Kills(s, x, r)
  {
    if Occurs(x, q) { PrefixShields(x, q, piece); }
    EarlierCrossesBack(x, q, n, s, f, r);
    KillsIfCrossing(s, x, r, f);
  }

  // ---------- which remarks are protected ----------

  lemma {:induction false} LinesAreShort(s: string, k: nat)
    requires k < |SplitLines(s)|
    ensures |SplitLines(s)[k]| <= |s|
    decreases |s|
  {
    if k == 0 {
      FirstLine(s);
    } else {
      LaterLine(s, k);
      LinesAreShort(s[1..], if s[0] == '\n' then k - 1 else k);
    }
  }

  lemma PieceBounds(remarkText: string, piece: string)
    requires piece in QuotePieces(remarkText)
    ensures MIN_QUOTE <= |piece| <= |remarkText| && !IsSpace(piece[0])
  {
    PieceIs(remarkText, piece);
    if piece == Trim(remarkText) {
      var a := Trimmed(remarkText);
    } else {
      var k :| 0 <= k < |SplitLines(remarkText)| && piece == Trim(SplitLines(remarkText)[k]);
      var a := Trimmed(SplitLines(remarkText)[k]);
      LinesAreShort(remarkText, k);
    }
  }

  ghost predicate SafeAt(pieces: seq<string>, k: nat)
    requires k < |pieces|
  {
    SafePiece(pieces[k]) && SafePiece(WithoutDot(pieces[k]))
  }

  /** No piece cut before it occurs in it. */
  ghost predicate Unshielded(pieces: seq<string>, k: nat)
    requires k < |pieces|
  {
    forall j :: 0 <= j < k ==> !Shields(pieces[j], pieces[k])
  }

  /** An unsafe piece that nothing shields hides a reference of some draft. */
  lemma UnsafeLineHides(remarkText: string, k: nat) returns (rationale: string)
    requires k < |QuotePieces(remarkText)| && !SafeAt(QuotePieces(remarkText), k) && Unshielded(QuotePieces(remarkText), k)
    ensures !NothingHidden(rationale, remarkText)
  {
    var pieces := QuotePieces(remarkText);
    var piece := pieces[k];
    assert piece in pieces;
    PieceBounds(remarkText, piece);
    var n, r := |remarkText| + 1, "";
    if Continues(piece, 0) {
      rationale := "§" + Nines(n) + piece;
      r := NumberInFront(piece, n, rationale);
      FrontIsLost(pieces, k, n, rationale, r);
    } else {
      if !OpenEnd(piece) { DotCut(piece); }
      var q := if OpenEnd(piece) then piece else WithoutDot(piece);
      var i: nat :| i < |q| && OpenAt(q, i);
      rationale := q + Nines(n);
      r := NumberBehind(q, i, n, rationale);
      BackIsLost(pieces, k, q, i, n, rationale, r);
    }
    DeadRefersNot(CutOutAll(rationale, pieces), r);
    if RefersTo(remarkText, r) { NoRoom(remarkText, r); }
  }

  lemma UnsafeLineBetrays(remarkText: string, k: nat)
    requires k < |QuotePieces(remarkText)| && !SafeAt(QuotePieces(remarkText), k) && Unshielded(QuotePieces(remarkText), k)
    ensures !Protected(remarkText)
  {
    var rationale := UnsafeLineHides(remarkText, k);
    GateProtectsIff(rationale, remarkText);
    var input :| Draft(input, rationale, remarkText) && Issues(input) == [] && !AllSupported(input);
  }

  /** No piece occurs in a later one that is not safe, unless they are the same. */
  ghost predicate NoneShielded(remarkText: string) {
    forall j, k :: 0 <= j < k < |QuotePieces(remarkText)| && !SafeAt(QuotePieces(remarkText), k) ==>
      QuotePieces(remarkText)[j] == QuotePieces(remarkText)[k] || !Shields(QuotePieces(remarkText)[j], QuotePieces(remarkText)[k])
  }

  lemma {:induction false} FirstUnsafe(pieces: seq<string>, n: nat) returns (k: nat)
    requires n < |pieces| && !SafeAt(pieces, n)
    ensures k <= n && !SafeAt(pieces, k) && forall j :: 0 <= j < k ==> SafeAt(pieces, j)
  {
    k := n;
    if exists j :: 0 <= j < n && !SafeAt(pieces, j) {
      var j :| 0 <= j < n && !SafeAt(pieces, j);
      k := FirstUnsafe(pieces, j);
    }
  }

  /** For a remark of any number of lines in which no piece occurs in a later one that is not safe: the gate lets no
      unsupported reference through, whatever draft and citations, if and only if all its pieces are safe to quote. */
  lemma LinesProtectedIff(remarkText: string)
    requires NoneShielded(remarkText)
    ensures Protected(remarkText) <==> SafeToQuote(remarkText)
  {
    var pieces := QuotePieces(remarkText);
    if SafeToQuote(remarkText) {
      SafeProtects(remarkText);
    } else {
      var piece :| piece in pieces && !(SafePiece(piece) && SafePiece(WithoutDot(piece)));
      var m: nat :| m < |pieces| && pieces[m] == piece;
      assert !SafeAt(pieces, m);
      var k := FirstUnsafe(pieces, m);
      forall j | 0 <= j < k
        ensures !Shields(pieces[j], pieces[k])
      {
        assert SafeAt(pieces, j);
        assert pieces[j] != pieces[k];
      }
      UnsafeLineBetrays(remarkText, k);
    }
  }
}
