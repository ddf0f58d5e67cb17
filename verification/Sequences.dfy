// Small facts about sequences that printers and scanners lean on.
module Sequences {
  predicate Distinct<T(==)>(s: seq<T>) {
    forall i, j :: 0 <= i < j < |s| ==> s[i] != s[j]
  }

  lemma Regroup<T>(a: seq<T>, b: seq<T>, c: seq<T>)
    ensures a + (b + c) == (a + b) + c
  {
  }

  lemma HeadAndTail<T>(s: seq<T>)
    requires s != []
    ensures [s[0]] + s[1..] == s
  {
  }

  lemma Cons<T>(x: T, s: seq<T>)
    ensures ([x] + s)[0] == x && ([x] + s)[1..] == s
  {
  }

  lemma Nothing<T>(s: seq<T>)
    ensures [] + s == s && s + [] == s
  {
  }

  // The tail of what is left from position i on.
  lemma Rest<T>(s: seq<T>, i: nat)
    requires i < |s|
    ensures s[i..] == [s[i]] + s[i + 1..] && s[i..][0] == s[i] && s[i..][1..] == s[i + 1..]
  {
  }

  // The head of a concatenation stays outside.
  lemma ConcatTail<T>(a: seq<T>, b: seq<T>)
    requires a != []
    ensures (a + b)[0] == a[0] && (a + b)[1..] == a[1..] + b
  {
  }

  lemma SplitAt<T>(s: seq<T>, i: nat)
    requires i <= |s|
    ensures s[..i] + s[i..] == s
  {
  }

  // The two parts of a concatenation.
  lemma Parts<T>(a: seq<T>, b: seq<T>)
    ensures a <= a + b && (a + b)[..|a|] == a && (a + b)[|a|..] == b
  {
  }
}
