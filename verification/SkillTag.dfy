// Technology tags read from a job description by dictionary: a phrase pass for terms with
// punctuation, a word pass for bare tokens. Texts are ASCII.
module SkillTag {
  import opened Text
  import opened Ordering
  import opened Sequences

  // ---------- Normalising ----------

  // The position of the first such character, or the length.
  function Find(s: string, c: char): (i: nat)
    ensures i <= |s| && (i < |s| ==> s[i] == c) && c !in s[..i]
  {
    if s == [] || s[0] == c then 0 else 1 + Find(s[1..], c)
  }

  // Every tag, from '<' to the next '>', becomes a space.
  function StripTags(s: string): string
    decreases |s|
  {
    if s == [] then []
    else if s[0] == '<' && '>' in s then " " + StripTags(s[Find(s, '>') + 1..])
    else [s[0]] + StripTags(s[1..])
  }

  function Normalize(text: string): string {
    Trim(Lower(StripTags(text)))
  }

  // ---------- Matching a phrase ----------

  predicate Alnum(c: char) {
    'a' <= c <= 'z' || '0' <= c <= '9'
  }

  predicate AlnumAt(s: string, i: int) {
    0 <= i < |s| && Alnum(s[i])
  }

  predicate IsBounded(s: string, start: int, end: int) {
    if AlnumAt(s, start - 1) || (0 <= start - 1 < |s| && s[start - 1] == '.') then false else !AlnumAt(s, end)
  }

  predicate OccursAt(s: string, term: string, i: nat) {
    i + |term| <= |s| && s[i..i + |term|] == term
  }

  // The first occurrence at or after `from`.
  method Index(s: string, term: string, from: nat) returns (i: int)
    requires from <= |s|
    ensures i < 0 ==> forall k: nat :: k >= from ==> !OccursAt(s, term, k)
    ensures i >= 0 ==> i >= from && OccursAt(s, term, i) && forall k: nat :: from <= k < i ==> !OccursAt(s, term, k)
  {
    i := from;
    while i + |term| <= |s|
      invariant i >= from && forall k: nat :: from <= k < i ==> !OccursAt(s, term, k)
      decreases |s| - i
    {
      if s[i..i + |term|] == term {
        return;
      }
      i := i + 1;
    }
    i := -1;
  }

  ghost predicate StandsAlone(s: string, term: string) {
    exists i: nat :: OccursAt(s, term, i) && IsBounded(s, i, i + |term|)
  }

  const LETTERS_AND_DIGITS := SMALL + "0123456789"

  // The text is cut in three around an occurrence: neither a letter, a digit nor a dot comes right
  // before, and neither a letter nor a digit right after.
  ghost predicate Cut(s: string, before: string, term: string, after: string) {
    && s == before + term + after
    && (before != [] ==> before[|before| - 1] !in LETTERS_AND_DIGITS && before[|before| - 1] != '.')
    && (after != [] ==> after[0] !in LETTERS_AND_DIGITS)
  }

  lemma AlnumIsALetterOrDigit(c: char)
    ensures Alnum(c) <==> c in LETTERS_AND_DIGITS
  {
    AlphabetsAreRanges(c);
    assert forall k :: 0 <= k < 10 ==> "0123456789"[k] as int == 48 + k;
    if '0' <= c <= '9' {
      assert "0123456789"[c as int - 48] == c;
    }
  }

  lemma CutAt(s: string, term: string, i: nat)
    requires OccursAt(s, term, i)
    ensures IsBounded(s, i, i + |term|) <==> Cut(s, s[..i], term, s[i + |term|..])
  {
    forall c ensures Alnum(c) <==> c in LETTERS_AND_DIGITS {
      AlnumIsALetterOrDigit(c);
    }
    assert s == s[..i] + term + s[i + |term|..];
  }

  lemma StandingAloneIsACut(s: string, term: string)
    ensures StandsAlone(s, term) <==> exists before, after :: Cut(s, before, term, after)
  {
    if i: nat :| OccursAt(s, term, i) && IsBounded(s, i, i + |term|) {
      CutAt(s, term, i);
    }
    if before, after :| Cut(s, before, term, after) {
      var i := |before|;
      assert s[i..i + |term|] == term && s[..i] == before && s[i + |term|..] == after;
      CutAt(s, term, i);
      assert OccursAt(s, term, i) && IsBounded(s, i, i + |term|);
    }
  }

  // Every occurrence is considered, overlapping ones included.
  method ContainsTerm(norm: string, term: string) returns (found: bool)
    requires term != ""
    ensures found <==> exists before, after :: Cut(norm, before, term, after)
    ensures found <==> StandsAlone(norm, term)
  {
    StandingAloneIsACut(norm, term);
    var start := 0;
    while true
      invariant start <= |norm|
      invariant forall i: nat :: i < start && OccursAt(norm, term, i) ==> !IsBounded(norm, i, i + |term|)
      decreases |norm| - start
    {
      var i := Index(norm, term, start);
      if i < 0 {
        return false;
      }
      if IsBounded(norm, i, i + |term|) {
        return true;
      }
      start := i + 1;
    }
    found := false;
  }

  // ---------- Tagging ----------

  datatype PhraseAlias = PhraseAlias(term: string, canonical: string)

  function WordTokens(norm: string): seq<string> {
    Words(norm, c => Alnum(c))
  }

  ghost predicate TaggedByPhrase(phrases: seq<PhraseAlias>, norm: string, c: string) {
    exists k :: 0 <= k < |phrases| && phrases[k].canonical == c && StandsAlone(norm, phrases[k].term)
  }

  ghost predicate TaggedByWord(words: map<string, string>, norm: string, c: string) {
    exists w :: w in words && words[w] == c && HasWord(norm, c => Alnum(c), w)
  }

  // The tags, in ascending order and without duplicates, are exactly those of the phrases
  // and words that stand alone in the normalised text.
  method Parse(text: string, phrases: seq<PhraseAlias>, words: map<string, string>) returns (tags: seq<string>)
    requires forall k :: 0 <= k < |phrases| ==> phrases[k].term != ""
    ensures Ascending(tags)
    ensures forall c :: c in tags <==> TaggedByPhrase(phrases, Normalize(text), c) || TaggedByWord(words,
              Normalize(text), c)
  {
    var norm := Normalize(text);
    var found: set<string> := {};
    for k := 0 to |phrases|
      invariant forall c :: c in found <==> TaggedByPhrase(phrases[..k], norm, c)
    {
      var contained := ContainsTerm(norm, phrases[k].term);
      OnePhraseMore(phrases, norm, k);
      if contained {
        found := found + {phrases[k].canonical};
      }
    }
    assert phrases[..|phrases|] == phrases;
    var tokens := WordTokens(norm);
    for k := 0 to |tokens|
      invariant forall c :: c in found <==> TaggedByPhrase(phrases, norm, c) || ListedBefore(words, tokens, k, c)
    {
      if tokens[k] in words {
        found := found + {words[tokens[k]]};
      }
    }
    forall c
      ensures ListedBefore(words, tokens, |tokens|, c) <==> TaggedByWord(words, norm, c)
    {
      ListedIsTagged(words, norm, c);
    }
    tags := SortedKeys(found);
  }

  lemma OnePhraseMore(phrases: seq<PhraseAlias>, norm: string, k: nat)
    requires k < |phrases|
    ensures forall c :: TaggedByPhrase(phrases[..k + 1], norm, c) <==>
                          TaggedByPhrase(phrases[..k], norm, c) || (phrases[k].canonical == c && StandsAlone(norm,
                              phrases[k].term))
  {
    var more := phrases[..k + 1];
    forall c
      ensures TaggedByPhrase(more, norm, c) <==>
                TaggedByPhrase(phrases[..k], norm, c) ||
                          (phrases[k].canonical == c && StandsAlone(norm, phrases[k].term))
    {
      assert more[k] == phrases[k];
      if i :| 0 <= i < k && phrases[..k][i].canonical == c && StandsAlone(norm, phrases[..k][i].term) {
        assert more[i] == phrases[..k][i];
      }
      if i :| 0 <= i < |more| && more[i].canonical == c && StandsAlone(norm, more[i].term) {
        assert i < k ==> phrases[..k][i] == more[i];
      }
    }
  }

  ghost predicate ListedBefore(words: map<string, string>, tokens: seq<string>, k: nat, c: string)
    requires k <= |tokens|
  {
    exists i :: 0 <= i < k && tokens[i] in words && words[tokens[i]] == c
  }

  lemma ListedIsTagged(words: map<string, string>, norm: string, c: string)
    ensures ListedBefore(words, WordTokens(norm), |WordTokens(norm)|, c) <==> TaggedByWord(words, norm, c)
  {
    var tokens := WordTokens(norm);
    var p := (c: char) => Alnum(c);
    if i :| 0 <= i < |tokens| && tokens[i] in words && words[tokens[i]] == c {
      WordsStandAlone(norm, c => Alnum(c), tokens[i]);
    }
    if w :| w in words && words[w] == c && HasWord(norm, c => Alnum(c), w) {
      WordsStandAlone(norm, c => Alnum(c), w);
      assert w in tokens;
    }
  }

  // ---------- Normalising is idempotent ----------

  // A '<' that starts no tag, and nothing that could close it.
  predicate NoTag(s: string) {
    forall i :: 0 <= i < |s| && s[i] == '<' ==> '>' !in s[i..]
  }

  lemma {:induction false} StrippedHasNoTag(s: string)
    ensures NoTag(StripTags(s))
    ensures '>' !in s ==> StripTags(s) == s
    decreases |s|
  {
    if s != [] {
      if s[0] == '<' && '>' in s {
        var rest := s[Find(s, '>') + 1..];
        StrippedHasNoTag(rest);
        NoTagAfter(' ', StripTags(rest));
      } else {
        StrippedHasNoTag(s[1..]);
        assert s == [s[0]] + s[1..];
        if s[0] != '<' {
          NoTagAfter(s[0], StripTags(s[1..]));
        } else {
          NoTagWithoutEnd(s);
        }
      }
    }
  }

  lemma NoTagWithoutEnd(s: string)
    requires '>' !in s
    ensures NoTag(s)
  {
    forall i | 0 <= i < |s| ensures '>' !in s[i..] {
      assert forall k :: 0 <= k < |s| - i ==> s[i..][k] in s;
    }
  }

  lemma NoTagAfter(c: char, s: string)
    requires NoTag(s) && c != '<'
    ensures NoTag([c] + s)
  {
    var t := [c] + s;
    forall i | 0 <= i < |t| && t[i] == '<' ensures '>' !in t[i..] {
      assert t[i..] == s[i - 1..];
    }
  }

  lemma {:induction false} NoTagIsKept(s: string)
    requires NoTag(s)
    ensures StripTags(s) == s
    decreases |s|
  {
    if s != [] {
      assert s[0..] == s;
      forall i | 0 <= i < |s[1..]| && s[1..][i] == '<' ensures '>' !in s[1..][i..] {
        assert s[1..][i..] == s[i + 1..];
      }
      NoTagIsKept(s[1..]);
    }
  }

  // s is a stretch of t.
  ghost predicate Inside(s: string, t: string) {
    exists i: nat :: OccursAt(t, s, i)
  }

  lemma NoTagInside(s: string, t: string)
    requires Inside(s, t) && NoTag(t)
    ensures NoTag(s)
  {
    var at: nat :| OccursAt(t, s, at);
    forall i | 0 <= i < |s| && s[i] == '<' ensures '>' !in s[i..] {
      assert t[at + i] == '<';
      assert forall k :: 0 <= k < |s| - i ==> s[i..][k] == t[at + i..][k];
    }
  }

  lemma TrimInside(s: string)
    ensures Inside(Trim(s), s) && Trim(Trim(s)) == Trim(s)
  {
    var a, b := TrimTakesTheSpace(s, SPACE);
    assert OccursAt(s, Trim(s), a);
    if a < b {
      Untrimmed(Trim(s));
    }
  }

  // A text with no space around it is left alone.
  lemma Untrimmed(s: string)
    requires s != [] ==> !IsSpace(s[0]) && !IsSpace(s[|s| - 1])
    ensures Trim(s) == s
  {
  }

  lemma LowerKeepsNoTag(s: string)
    requires NoTag(s)
    ensures NoTag(Lower(s)) && Lower(Lower(s)) == Lower(s)
  {
    forall i | 0 <= i < |s| && Lower(s)[i] == '<' ensures '>' !in Lower(s)[i..] {
      assert s[i] == '<';
      assert forall k :: 0 <= k < |s| - i && Lower(s)[i..][k] == '>' ==> s[i..][k] == '>';
    }
  }

  lemma LowerInside(s: string, t: string)
    requires Inside(s, t) && Lower(t) == t
    ensures Lower(s) == s
  {
    var at: nat :| OccursAt(t, s, at);
    forall i | 0 <= i < |s| ensures LowerChar(s[i]) == s[i] {
      assert LowerChar(t[at + i]) == Lower(t)[at + i];
    }
  }

  lemma NormalizeIsIdempotent(text: string)
    ensures Normalize(Normalize(text)) == Normalize(text)
  {
    var stripped := StripTags(text);
    var lower := Lower(stripped);
    StrippedHasNoTag(text);
    LowerKeepsNoTag(stripped);
    TrimInside(lower);
    NoTagInside(Normalize(text), lower);
    NoTagIsKept(Normalize(text));
    LowerInside(Normalize(text), lower);
  }

  // ---------- What normalising keeps ----------

  // The first tag becomes a space: nothing before it is one, and what is after it is stripped
  // likewise. With NoTagIsKept this is all there is to stripping.
  lemma {:induction false} FirstTagIsStripped(before: string, tag: string, after: string)
    requires '<' !in before && '>' !in tag
    ensures StripTags(before + ("<" + tag + ">" + after)) == before + (" " + StripTags(after))
    decreases |before|
  {
    var rest := "<" + tag + ">" + after;
    if before == [] {
      Nothing(rest);
      Nothing(" " + StripTags(after));
      TagEnds(tag, after);
    } else {
      ConcatTail(before, rest);
      FirstTagIsStripped(before[1..], tag, after);
      assert before == [before[0]] + before[1..];
    }
  }

  lemma TagEnds(tag: string, after: string)
    requires '>' !in tag
    ensures var s := "<" + tag + ">" + after;
            '>' in s && Find(s, '>') == |tag| + 1 && s[Find(s, '>') + 1..] == after
  {
    var s := "<" + tag + ">" + after;
    assert s[|tag| + 1] == '>';
    assert forall i :: 0 < i <= |tag| ==> s[i] == tag[i - 1];
    var k := Find(s, '>');
    forall i | 0 <= i < k ensures s[i] != '>' {
      assert s[..k][i] == s[i];
    }
  }

  // No capital, no space around, no tag.
  predicate NoCapital(s: string) {
    forall i :: 0 <= i < |s| ==> s[i] !in CAPITALS
  }

  predicate IsNormal(s: string) {
    && NoCapital(s)
    && (s != [] ==> !IsSpace(s[0]) && !IsSpace(s[|s| - 1]))
    && NoTag(s)
  }

  lemma LowerHasNoCapital(s: string)
    ensures NoCapital(Lower(s))
    ensures NoCapital(s) ==> Lower(s) == s
  {
    forall i | 0 <= i < |s| ensures Lower(s)[i] !in CAPITALS && (s[i] !in CAPITALS ==> Lower(s)[i] == s[i]) {
      AlphabetsAreRanges(s[i]);
      AlphabetsAreRanges(Lower(s)[i]);
    }
  }

  lemma TrimHasNoCapital(s: string)
    requires NoCapital(s)
    ensures NoCapital(Trim(s))
    ensures Trim(s) != [] ==> !IsSpace(Trim(s)[0]) && !IsSpace(Trim(s)[|Trim(s)| - 1])
  {
    var a, b := TrimTakesTheSpace(s, SPACE);
    assert forall i :: 0 <= i < b - a ==> s[a..b][i] == s[a + i];
  }

  // The normal texts are exactly those that normalising leaves alone, and all it gives.
  lemma NormalTextsAreTheFixedPoints(text: string)
    ensures Normalize(text) == text <==> IsNormal(text)
    ensures IsNormal(Normalize(text))
  {
    NormalizedIsNormal(text);
    if IsNormal(text) {
      NoTagIsKept(text);
      LowerHasNoCapital(text);
      Untrimmed(text);
    }
  }

  lemma NormalizedIsNormal(text: string)
    ensures IsNormal(Normalize(text))
  {
    var stripped := StripTags(text);
    var lower := Lower(stripped);
    StrippedHasNoTag(text);
    LowerKeepsNoTag(stripped);
    LowerHasNoCapital(stripped);
    TrimInside(lower);
    NoTagInside(Normalize(text), lower);
    TrimHasNoCapital(lower);
  }

  // Without a tag, a text is only lower-cased, and loses the space around it.
  lemma UntaggedTextIsLowered(text: string) returns (a: nat, b: nat)
    requires NoTag(text)
    ensures a <= b <= |text| && Normalize(text) == Lower(text)[a..b]
    ensures forall i :: 0 <= i < a || b <= i < |text| ==> IsSpace(Lower(text)[i])
  {
    NoTagIsKept(text);
    a, b := TrimTakesTheSpace(Lower(text), SPACE);
  }
}
