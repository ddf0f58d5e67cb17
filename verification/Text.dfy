// Trimming, lower-casing, joining and splitting into words, shared by the scanners and
// printers. Letter case is ASCII.
module Text {
  // White space as Go's unicode.IsSpace sees it.
  predicate IsSpace(c: char) {
    var u := c as int;
    || 0x9 <= u <= 0xD || u == 0x20 || u == 0x85 || u == 0xA0 || u == 0x1680 || 0x2000 <= u <= 0x200A
    || u == 0x2028 || u == 0x2029 || u == 0x202F || u == 0x205F || u == 0x3000
  }

  const SPACE: char -> bool := (c: char) => IsSpace(c)

  function TrimLeft(s: string, p: char -> bool): string {
    if s != [] && p(s[0]) then TrimLeft(s[1..], p) else s
  }

  function TrimRight(s: string, p: char -> bool): string {
    if s != [] && p(s[|s| - 1]) then TrimRight(s[..|s| - 1], p) else s
  }

  function TrimBy(s: string, p: char -> bool): string {
    TrimRight(TrimLeft(s, p), p)
  }

  function Trim(s: string): string {
    TrimBy(s, SPACE)
  }

  function LowerChar(c: char): char {
    if 'A' <= c <= 'Z' then (c as int + 32) as char else c
  }

  // Trimming takes away what space surrounds a text, and nothing else.
  lemma TrimTakesTheSpace(s: string, p: char -> bool) returns (a: nat, b: nat)
    ensures a <= b <= |s| && TrimBy(s, p) == s[a..b]
    ensures forall i :: 0 <= i < a || b <= i < |s| ==> p(s[i])
    ensures a < b ==> !p(s[a]) && !p(s[b - 1])
  {
    a := TrimLeftDrops(s, p);
    var left := TrimLeft(s, p);
    var k := TrimRightKeeps(left, p);
    b := a + k;
    assert left[..k] == s[a..b];
    forall i | b <= i < |s| ensures p(s[i]) {
      assert s[i] == left[i - a];
    }
  }

  const WHITE_SPACE: seq<int> := [
    0x9, 0xA, 0xB, 0xC, 0xD, 0x20, 0x85, 0xA0, 0x1680, 0x2000, 0x2001, 0x2002, 0x2003, 0x2004, 0x2005, 0x2006,
    0x2007, 0x2008, 0x2009, 0x200A, 0x2028, 0x2029, 0x202F, 0x205F, 0x3000
  ]

  lemma SpaceIsWhiteSpace(c: char)
    ensures IsSpace(c) <==> c as int in WHITE_SPACE
  {
    var u := c as int;
    assert forall k :: 0 <= k < 5 ==> WHITE_SPACE[k] == 0x9 + k;
    assert forall k :: 9 <= k < 20 ==> WHITE_SPACE[k] == 0x2000 + k - 9;
    if 0x9 <= u <= 0xD {
      assert WHITE_SPACE[u - 0x9] == u;
    }
    if 0x2000 <= u <= 0x200A {
      assert WHITE_SPACE[u - 0x2000 + 9] == u;
    }
  }

  // So trimming takes away the white space of Unicode around a text.
  lemma TrimTakesWhiteSpace(s: string) returns (a: nat, b: nat)
    ensures a <= b <= |s| && Trim(s) == s[a..b]
    ensures forall i :: 0 <= i < a || b <= i < |s| ==> s[i] as int in WHITE_SPACE
    ensures a < b ==> s[a] as int !in WHITE_SPACE && s[b - 1] as int !in WHITE_SPACE
  {
    a, b := TrimTakesTheSpace(s, SPACE);
    forall c ensures IsSpace(c) <==> c as int in WHITE_SPACE {
      SpaceIsWhiteSpace(c);
    }
  }

  lemma {:induction false} TrimLeftDrops(s: string, p: char -> bool) returns (k: nat)
    ensures k <= |s| && TrimLeft(s, p) == s[k..] && forall i :: 0 <= i < k ==> p(s[i])
    ensures k < |s| ==> !p(s[k])
  {
    k := 0;
    if s != [] && p(s[0]) {
      var rest := TrimLeftDrops(s[1..], p);
      k := rest + 1;
      assert s[1..][rest..] == s[k..];
      assert forall i :: 0 < i < k ==> s[i] == s[1..][i - 1];
    }
  }

  lemma {:induction false} TrimRightKeeps(s: string, p: char -> bool) returns (k: nat)
    ensures k <= |s| && TrimRight(s, p) == s[..k] && forall i :: k <= i < |s| ==> p(s[i])
    ensures k > 0 ==> !p(s[k - 1])
  {
    k := |s|;
    if s != [] && p(s[|s| - 1]) {
      k := TrimRightKeeps(s[..|s| - 1], p);
      assert s[..|s| - 1][..k] == s[..k];
    } else {
      assert s[..k] == s;
    }
  }

  const CAPITALS := "ABCDEFGHIJKLMNOPQRSTUVWXYZ"
  const SMALL := "abcdefghijklmnopqrstuvwxyz"

  lemma AlphabetsAreRanges(c: char)
    ensures c in CAPITALS <==> 'A' <= c <= 'Z'
    ensures c in SMALL <==> 'a' <= c <= 'z'
  {
    LettersInOrder();
    if 'A' <= c <= 'Z' {
      assert CAPITALS[c as int - 65] == c;
    }
    if 'a' <= c <= 'z' {
      assert SMALL[c as int - 97] == c;
    }
  }

  lemma LettersInOrder()
    ensures |CAPITALS| == |SMALL| == 26
    ensures forall k :: 0 <= k < 26 ==> CAPITALS[k] as int == 65 + k
    ensures forall k :: 0 <= k < 26 ==> SMALL[k] as int == 97 + k
  {
  }

  // Lower-casing takes every capital to the small letter at its place in the alphabet, and leaves
  // everything else alone.
  lemma LowerIsTheSmallLetter(c: char)
    ensures |CAPITALS| == |SMALL| == 26
    ensures forall k :: 0 <= k < 26 ==> LowerChar(CAPITALS[k]) == SMALL[k]
    ensures c !in CAPITALS ==> LowerChar(c) == c
  {
    LettersInOrder();
    AlphabetsAreRanges(c);
  }

  function Lower(s: string): string {
    seq(|s|, i requires 0 <= i < |s| => LowerChar(s[i]))
  }

  function Join(parts: seq<string>, sep: string): string {
    if parts == [] then "" else if |parts| == 1 then parts[0] else parts[0] + sep + Join(parts[1..], sep)
  }

  lemma {:induction false} JoinAppend(parts: seq<string>, last: string, sep: string)
    ensures Join(parts + [last], sep) == if parts == [] then last else Join(parts, sep) + sep + last
  {
    var all := parts + [last];
    if |parts| > 1 {
      JoinAppend(parts[1..], last, sep);
      assert all[1..] == parts[1..] + [last];
    } else if |parts| == 1 {
      assert all[1..] == [last];
    }
  }

  // How many leading characters are word characters.
  function RunLength(s: string, p: char -> bool): (k: nat)
    ensures k <= |s| && (forall i :: 0 <= i < k ==> p(s[i])) && (k < |s| ==> !p(s[k]))
  {
    if s == [] || !p(s[0]) then 0 else 1 + RunLength(s[1..], p)
  }

  // The maximal runs of word characters, in order.
  function Words(s: string, p: char -> bool): seq<string>
    decreases |s|
  {
    if s == [] then []
    else if !p(s[0]) then Words(s[1..], p)
    else
      var k := RunLength(s, p);
      [s[..k]] + Words(s[k..], p)
  }

  // A word at position i: word characters, with none on either side.
  predicate WordAt(s: string, p: char -> bool, word: string, i: nat) {
    && 0 < |word| && i + |word| <= |s| && s[i..i + |word|] == word
    && (forall k :: 0 <= k < |word| ==> p(word[k]))
    && (i == 0 || !p(s[i - 1]))
    && (i + |word| == |s| || !p(s[i + |word|]))
  }

  predicate HasWord(s: string, p: char -> bool, word: string) {
    exists i: nat :: i < |s| && WordAt(s, p, word, i)
  }

  // Dropping a prefix that does not cut a word keeps the words after it.
  lemma WordAtShifts(s: string, p: char -> bool, word: string, k: nat, i: nat)
    requires 0 < k <= |s| && k <= i
    requires !p(s[k - 1]) || (k < |s| ==> !p(s[k]))
    ensures WordAt(s, p, word, i) <==> WordAt(s[k..], p, word, i - k)
  {
    if 0 < |word| && i + |word| <= |s| {
      assert s[k..][i - k..i - k + |word|] == s[i..i + |word|];
      if s[i..i + |word|] == word {
        assert word[0] == s[i];
      }
    }
  }

  lemma WordInside(s: string, p: char -> bool, word: string, k: nat, i: nat)
    requires k == RunLength(s, p) && 0 < i < k
    ensures !WordAt(s, p, word, i)
  {
  }

  // Words lists exactly the words that stand alone in the text.
  lemma {:induction false} WordsStandAlone(s: string, p: char -> bool, word: string)
    ensures word in Words(s, p) <==> HasWord(s, p, word)
    decreases |s|
  {
    if s != [] {
      var k := if p(s[0]) then RunLength(s, p) else 1;
      WordsStandAlone(s[k..], p, word);
      FirstWord(s, p, word, k);
      assert p(s[0]) ==> Words(s, p) == [s[..k]] + Words(s[k..], p);
    }
  }

  lemma FirstWord(s: string, p: char -> bool, word: string, k: nat)
    requires s != [] && k == if p(s[0]) then RunLength(s, p) else 1
    ensures HasWord(s, p, word) <==> (p(s[0]) && word == s[..k]) || HasWord(s[k..], p, word)
  {
    if i: nat :| i < |s| && WordAt(s, p, word, i) {
      if i >= k {
        WordAtShifts(s, p, word, k, i);
      } else if i > 0 {
        WordInside(s, p, word, k, i);
      } else {
        assert word[0] == s[0];
        WholeRun(s, p, word);
      }
    }
    if j: nat :| j < |s[k..]| && WordAt(s[k..], p, word, j) {
      WordAtShifts(s, p, word, k, j + k);
    }
    if p(s[0]) && word == s[..k] {
      assert WordAt(s, p, word, 0);
    }
  }

  lemma WholeRun(s: string, p: char -> bool, word: string)
    requires s != [] && p(s[0]) && WordAt(s, p, word, 0)
    ensures word == s[..RunLength(s, p)]
  {
    assert word == s[..|word|];
  }
}
