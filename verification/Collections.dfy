/** Facts about sequences and sets, whatever they hold. */
module Collections {

  function Flatten<T>(groups: seq<seq<T>>): seq<T> {
    if groups == [] then [] else Flatten(groups[..|groups| - 1]) + groups[|groups| - 1]
  }

  lemma Associates<T>(a: seq<T>, b: seq<T>, c: seq<T>)
    ensures a + (b + c) == (a + b) + c
  {
  }

  lemma OneInFront<T>(x: T, a: seq<T>, b: seq<T>, xa: seq<T>, xab: seq<T>)
    requires xa == [x] + a && xab == [x] + (a + b)
    ensures xab == xa + b
  {
  }

  lemma NothingAdded<T>(s: seq<T>, none: seq<T>)
    requires none == []
    ensures s + none == s
  {
  }

  lemma HeadApart<T>(before: seq<T>, s: seq<T>)
    requires s != []
    ensures before + s == before + [s[0]] + s[1..]
  {
  }

  lemma HeadInFront<T>(a: seq<T>, b: seq<T>)
    requires a != []
    ensures a + b == [a[0]] + (a[1..] + b)
  {
  }

  lemma HeadOfThree<T>(a: seq<T>, b: seq<T>, c: seq<T>)
    requires a != []
    ensures a + b + c == [a[0]] + (a[1..] + b + c) && a == [a[0]] + a[1..]
  {
  }

  lemma FourParts<T>(a: seq<T>, b: seq<T>, c: seq<T>, d: seq<T>)
    ensures a + b + c + d == a + (b + c + d)
  {
  }

  lemma LastApart<T>(s: seq<T>, none: seq<T>)
    requires s != [] && none == []
    ensures s == s[..|s| - 1] + [s[|s| - 1]] + none
  {
  }

  lemma CutApart<T>(s: seq<T>, n: nat)
    requires n <= |s|
    ensures s == s[..n] + s[n..]
  {
  }

  lemma Halves<T>(a: seq<T>, b: seq<T>)
    ensures (a + b)[..|a|] == a && (a + b)[|a|..] == b
  {
  }

  lemma CutWhole<T>(first: seq<T>, rest: seq<T>, d: nat)
    requires d <= |first|
    ensures (first + rest)[d..] == first[d..] + rest
  {
  }

  lemma Meets<T>(s: seq<T>, a: nat, b: nat)
    requires a <= b <= |s|
    ensures s[a..b] + s[b..] == s[a..]
  {
  }

  lemma Shift<T>(s: seq<T>, a: nat, b: nat)
    requires a + b <= |s|
    ensures s[a..][b..] == s[a + b..]
  {
  }

  lemma ToTheEnd<T>(s: seq<T>, n: nat)
    requires n <= |s|
    ensures s[n..] == s[n..|s|]
  {
  }

  lemma PartOfPart<T>(s: seq<T>, a: nat, b: nat, c: nat, d: nat)
    requires a <= b <= |s| && c <= d <= b - a
    ensures s[a..b][c..d] == s[a + c..a + d]
  {
    var part, same := s[a..b][c..d], s[a + c..a + d];
    assert |part| == |same| && forall k :: 0 <= k < |part| ==> part[k] == same[k];
  }

  lemma TakeMore<T>(before: seq<T>, s: seq<T>, k: nat)
    requires k < |s|
    ensures before + s[..k + 1] == before + s[..k] + [s[k]]
  {
  }

  /** No more elements, and as many only if they are the same. */
  lemma Subset<T>(a: set<T>, b: set<T>)
    requires a <= b
    ensures |a| <= |b| && (|a| == |b| ==> a == b)
  {
    assert b == a + (b - a);
  }
}
