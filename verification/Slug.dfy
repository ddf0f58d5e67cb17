// Slugs: names as lower-case words joined by hyphens, and job slugs that end in a short code
// of the job's key. Names are ASCII, as transliteration leaves them.
module Slugs {
  import opened Text
  import opened Sequences

  predicate WordChar(c: char) {
    'a' <= c <= 'z' || 'A' <= c <= 'Z' || '0' <= c <= '9'
  }

  predicate SlugChar(c: char) {
    'a' <= c <= 'z' || '0' <= c <= '9'
  }

  const WORD: char -> bool := (c: char) => WordChar(c)

  // The words of a name, lower-cased and joined by single hyphens.
  function SlugOf(name: string): string {
    Lower(Join(Words(name, WORD), "-"))
  }

  // Lower-case letters and digits in non-empty groups separated by single hyphens.
  predicate IsSlug(s: string) {
    && (forall i :: 0 <= i < |s| ==> SlugChar(s[i]) || s[i] == '-')
    && (s != [] ==> s[0] != '-' && s[|s| - 1] != '-')
    && (forall i :: 0 <= i < |s| - 1 ==> s[i] != '-' || s[i + 1] != '-')
  }

  // ---------- The loop computes the words ----------

  function TrimHyphens(s: string): string {
    if s != [] && s[|s| - 1] == '-' then TrimHyphens(s[..|s| - 1]) else s
  }

  predicate EndsInWord(s: string) {
    s != [] && WordChar(s[|s| - 1])
  }

  // The words after one more character.
  function Extended(words: seq<string>, inWord: bool, c: char): seq<string>
    requires inWord ==> words != []
  {
    if !WordChar(c) then words
    else if inWord then words[..|words| - 1] + [words[|words| - 1] + [c]]
    else words + [[c]]
  }

  // A text that starts with a word of length k.
  lemma FirstWordIs(s: string, k: nat)
    requires 0 < k <= |s| && (forall i :: 0 <= i < k ==> WordChar(s[i])) && (k < |s| ==> !WordChar(s[k]))
    ensures RunLength(s, WORD) == k && Words(s, WORD) == [s[..k]] + Words(s[k..], WORD)
  {
  }

  lemma {:induction false} WordsExtend(s: string, c: char)
    ensures EndsInWord(s) ==> Words(s, WORD) != []
    ensures Words(s + [c], WORD) == Extended(Words(s, WORD), EndsInWord(s), c)
    decreases |s|
  {
    var t := s + [c];
    if s == [] {
      assert t == [c] && t[1..] == [];
      if WordChar(c) {
        FirstWordIs(t, 1);
        assert t[..1] == [c];
      }
    } else if !WordChar(s[0]) {
      assert t[1..] == s[1..] + [c];
      WordsExtend(s[1..], c);
    } else {
      var k := RunLength(s, WORD);
      if k < |s| {
        LaterWordsExtend(s, c, k);
      } else {
        WholeWordExtends(s, c);
      }
    }
  }

  lemma SplitLonger(s: string, c: char, k: nat)
    requires k < |s|
    ensures (s + [c])[..k] == s[..k] && (s + [c])[k..] == s[k..] + [c] && (s + [c])[k] == s[k]
  {
  }

  lemma FirstOfLonger(s: string, c: char, k: nat)
    requires 0 < k < |s| && k == RunLength(s, WORD)
    ensures Words(s + [c], WORD) == [s[..k]] + Words(s[k..] + [c], WORD)
  {
    SplitLonger(s, c, k);
    StillTheFirstWord(s, s + [c], k);
  }

  lemma StillTheFirstWord(s: string, t: string, k: nat)
    requires 0 < k < |s| && k == RunLength(s, WORD) && s <= t
    ensures Words(t, WORD) == [t[..k]] + Words(t[k..], WORD)
  {
    FirstWordIs(t, k);
  }

  lemma LaterWordsExtend(s: string, c: char, k: nat)
    requires 0 < k < |s| && k == RunLength(s, WORD)
    ensures EndsInWord(s) ==> Words(s, WORD) != []
    ensures Words(s + [c], WORD) == Extended(Words(s, WORD), EndsInWord(s), c)
    decreases |s|, 0
  {
    var rest := s[k..];
    assert EndsInWord(rest) == EndsInWord(s);
    assert Words(s, WORD) == [s[..k]] + Words(rest, WORD) by {
      FirstWordIs(s, k);
    }
    FirstOfLonger(s, c, k);
    WordsExtend(rest, c);
    LaterExtends(s[..k], Words(rest, WORD), EndsInWord(s), c);
  }

  lemma LaterExtends(first: string, words: seq<string>, inWord: bool, c: char)
    requires inWord ==> words != []
    ensures Extended([first] + words, inWord, c) == [first] + Extended(words, inWord, c)
  {
    if inWord {
      assert ([first] + words)[..|words|] == [first] + words[..|words| - 1];
      Regroup([first], words[..|words| - 1], [words[|words| - 1] + [c]]);
    } else {
      Regroup([first], words, [[c]]);
    }
  }

  lemma OneWord(s: string)
    requires s != [] && forall i :: 0 <= i < |s| ==> WordChar(s[i])
    ensures Words(s, WORD) == [s]
  {
    FirstWordIs(s, |s|);
    assert s[..|s|] == s && s[|s|..] == [];
  }

  lemma WordAndOther(s: string, c: char)
    requires s != [] && (forall i :: 0 <= i < |s| ==> WordChar(s[i])) && !WordChar(c)
    ensures Words(s + [c], WORD) == [s]
  {
    var t := s + [c];
    assert Words(t, WORD) == [t[..|s|]] + Words(t[|s|..], WORD) by {
      assert forall i :: 0 <= i < |s| ==> t[i] == s[i];
      FirstWordIs(t, |s|);
    }
    assert t[..|s|] == s && t[|s|..] == [c];
    NoWord(c);
  }

  lemma WholeWordExtends(s: string, c: char)
    requires s != [] && RunLength(s, WORD) == |s|
    ensures Words(s, WORD) == [s]
    ensures Words(s + [c], WORD) == if WordChar(c) then [s + [c]] else [s]
  {
    assert forall i :: 0 <= i < |s| ==> WordChar(s[i]);
    OneWord(s);
    if WordChar(c) {
      OneWord(s + [c]);
    } else {
      WordAndOther(s, c);
    }
  }

  lemma NoWord(c: char)
    requires !WordChar(c)
    ensures Words([c], WORD) == []
  {
    assert [c][1..] == [];
  }

  lemma LowerConcat(a: string, b: string)
    ensures Lower(a + b) == Lower(a) + Lower(b)
  {
  }

  // What the builder holds after a prefix of the name.
  function Built(s: string): string {
    SlugOf(s) + if Words(s, WORD) != [] && !EndsInWord(s) then "-" else ""
  }

  lemma BuiltInWord(s: string, c: char)
    requires WordChar(c) && EndsInWord(s)
    ensures Built(s + [c]) == Built(s) + [LowerChar(c)]
  {
    WordsExtend(s, c);
    var words := Words(s, WORD);
    var init, last := words[..|words| - 1], words[|words| - 1];
    assert words == init + [last];
    JoinAppend(init, last, "-");
    JoinAppend(init, last + [c], "-");
    assert Join(Words(s + [c], WORD), "-") == Join(words, "-") + [c];
    LowerConcat(Join(words, "-"), [c]);
    assert Lower([c]) == [LowerChar(c)];
  }

  lemma BuiltNewWord(s: string, c: char)
    requires WordChar(c) && !EndsInWord(s)
    ensures Built(s + [c]) == Built(s) + [LowerChar(c)]
  {
    WordsExtend(s, c);
    var joined := Join(Words(s, WORD), "-");
    JoinAppend(Words(s, WORD), [c], "-");
    assert Lower([c]) == [LowerChar(c)] && Lower("-") == "-";
    LowerConcat(joined, "-");
    LowerConcat(joined + "-", [c]);
  }

  lemma BuiltExtends(s: string, c: char)
    ensures Built(s + [c]) ==
              if WordChar(c) then Built(s) + [LowerChar(c)]
              else if Built(s) != [] && EndsInWord(s) then Built(s) + "-"
              else Built(s)
    ensures EndsInWord(s) ==> Built(s) != []
  {
    NonEmptyWords(s);
    JoinIsEmpty(Words(s, WORD));
    if WordChar(c) {
      if EndsInWord(s) {
        BuiltInWord(s, c);
      } else {
        BuiltNewWord(s, c);
      }
    }
    WordsExtend(s, c);
  }

  lemma {:induction false} NonEmptyWords(s: string)
    ensures forall i :: 0 <= i < |Words(s, WORD)| ==> Words(s, WORD)[i] != []
    decreases |s|
  {
    if s != [] {
      NonEmptyWords(if WordChar(s[0]) then s[RunLength(s, WORD)..] else s[1..]);
    }
  }

  lemma JoinIsEmpty(words: seq<string>)
    requires forall i :: 0 <= i < |words| ==> words[i] != []
    ensures Join(words, "-") == [] <==> words == []
    ensures Lower(Join(words, "-")) == [] <==> words == []
  {
    if words != [] {
      assert words[0] != [];
    }
  }

  lemma PrefixExtends(name: string, i: nat)
    requires i < |name|
    ensures EndsInWord(name[..i + 1]) == WordChar(name[i])
    ensures Built(name[..i + 1]) ==
              if WordChar(name[i]) then Built(name[..i]) + [LowerChar(name[i])]
              else if Built(name[..i]) != [] && EndsInWord(name[..i]) then Built(name[..i]) + "-"
              else Built(name[..i])
  {
    assert name[..i + 1] == name[..i] + [name[i]];
    BuiltExtends(name[..i], name[i]);
  }

  lemma TrimmedIsTheSlug(name: string)
    ensures TrimHyphens(Built(name)) == SlugOf(name)
  {
    SlugIsNormal(name);
    var slug := SlugOf(name);
    assert TrimHyphens(slug) == slug;
    assert slug + "" == slug && (slug + "-")[..|slug|] == slug;
  }

  method Slug(name: string) returns (slug: string)
    ensures slug == SlugOf(name) == Spelled(name, Positions(name))
  {
    var b := "";
    var prevHyphen := false;
    for i := 0 to |name|
      invariant b == Built(name[..i])
      invariant prevHyphen <==> b != [] && !EndsInWord(name[..i])
    {
      var r := name[i];
      PrefixExtends(name, i);
      if WordChar(r) {
        b := b + [LowerChar(r)];
        prevHyphen := false;
      } else if |b| > 0 && !prevHyphen {
        b := b + "-";
        prevHyphen := true;
      }
    }
    assert name[..|name|] == name;
    TrimmedIsTheSlug(name);
    SlugIsSpelled(name);
    slug := TrimHyphens(b);
  }

  // ---------- What a slug keeps of a name ----------

  // An ASCII letter of either case, or a digit.
  predicate Kept(c: char) {
    c in CAPITALS || c in SMALL || c in "0123456789"
  }

  // The positions of the characters kept, in order.
  function Positions(name: string): (at: seq<nat>)
    ensures forall k :: 0 <= k < |at| ==> at[k] < |name| && Kept(name[at[k]])
  {
    if name == [] then []
    else
      var last := |name| - 1;
      var before := Positions(name[..last]);
      if Kept(name[last]) then before + [last] else before
  }

  lemma {:induction false} PositionsAreExact(name: string)
    ensures var at := Positions(name);
            && (forall k, l :: 0 <= k < l < |at| ==> at[k] < at[l])
            && (forall i :: 0 <= i < |name| ==> (i in at <==> Kept(name[i])))
  {
    if name != [] {
      var init, last := name[..|name| - 1], |name| - 1;
      PositionsAreExact(init);
      var before, at := Positions(init), Positions(name);
      forall i | 0 <= i < |name| ensures i in at <==> Kept(name[i]) {
        if i == last && Kept(name[i]) {
          assert at[|at| - 1] == i;
        } else if i < last {
          assert name[i] == init[i] && (i in at <==> i in before);
        }
      }
    }
  }

  // The characters at the given positions in lower case, with a hyphen before each that does not
  // directly follow the one before.
  function Spelled(name: string, at: seq<nat>): string
    requires forall k :: 0 <= k < |at| ==> at[k] < |name|
  {
    if at == [] then ""
    else
      var last := |at| - 1;
      Spelled(name, at[..last])
      + (if last > 0 && at[last] != at[last - 1] + 1 then "-" else "")
      + [LowerChar(name[at[last]])]
  }

  lemma DigitsAreARange(c: char)
    ensures c in "0123456789" <==> '0' <= c <= '9'
  {
    assert forall k :: 0 <= k < 10 ==> "0123456789"[k] as int == 48 + k;
    if '0' <= c <= '9' {
      assert "0123456789"[c as int - 48] == c;
    }
  }

  lemma KeptIsAWordChar(c: char)
    ensures Kept(c) <==> WordChar(c)
    ensures Kept(c) ==> LowerChar(c) != '-'
  {
    AlphabetsAreRanges(c);
    DigitsAreARange(c);
  }

  lemma {:induction false} SpelledFromAPrefix(name: string, longer: string, at: seq<nat>)
    requires (forall k :: 0 <= k < |at| ==> at[k] < |name|) && name <= longer
    ensures Spelled(name, at) == Spelled(longer, at)
  {
    if at != [] {
      SpelledFromAPrefix(name, longer, at[..|at| - 1]);
    }
  }

  // A name that ends in a character kept ends its positions there.
  lemma PositionsEndInTheWord(s: string)
    ensures var at := Positions(s);
            && (EndsInWord(s) <==> at != [] && at[|at| - 1] == |s| - 1)
            && (Words(s, WORD) == [] <==> at == [])
  {
    var at := Positions(s);
    if s != [] {
      KeptIsAWordChar(s[|s| - 1]);
    }
    WordsArePositions(s);
  }

  lemma {:induction false} WordsArePositions(s: string)
    ensures Words(s, WORD) == [] <==> forall i :: 0 <= i < |s| ==> !Kept(s[i])
    ensures Words(s, WORD) == [] <==> Positions(s) == []
    decreases |s|
  {
    if s != [] {
      var init, c := s[..|s| - 1], s[|s| - 1];
      assert s == init + [c];
      WordsArePositions(init);
      WordsExtend(init, c);
      KeptIsAWordChar(c);
    }
  }

  lemma SlugExtends(s: string, c: char)
    ensures SlugOf(s + [c]) ==
              if !Kept(c) then SlugOf(s)
              else SlugOf(s) + (if Words(s, WORD) != [] && !EndsInWord(s) then "-" else "") + [LowerChar(c)]
  {
    KeptIsAWordChar(c);
    WordsExtend(s, c);
    if Kept(c) {
      BuiltExtends(s, c);
      assert Built(s + [c]) == SlugOf(s + [c]) + "" == SlugOf(s + [c]);
    }
  }

  // For every name: its slug is its ASCII letters and digits, lower-cased and in order, with one
  // hyphen between two of them exactly when something else stood between them.
  lemma {:induction false} SlugIsSpelled(name: string)
    ensures SlugOf(name) == Spelled(name, Positions(name))
  {
    if name != [] {
      var init, c := name[..|name| - 1], name[|name| - 1];
      assert name == init + [c];
      SlugIsSpelled(init);
      SlugExtends(init, c);
      PositionsEndInTheWord(init);
      var before, at := Positions(init), Positions(name);
      SpelledFromAPrefix(init, name, before);
      if Kept(c) {
        assert at == before + [|init|] && at[..|before|] == before;
      }
    }
  }

  // A text without its hyphens.
  function Unhyphenated(s: string): string {
    if s == [] then [] else (if s[0] == '-' then [] else [s[0]]) + Unhyphenated(s[1..])
  }

  // The characters kept, lower-cased.
  function Letters(name: string): string {
    var at := Positions(name);
    seq(|at|, k requires 0 <= k < |at| => LowerChar(name[at[k]]))
  }

  lemma {:induction false} UnhyphenatedJoins(a: string, b: string)
    ensures Unhyphenated(a + b) == Unhyphenated(a) + Unhyphenated(b)
  {
    if a == [] {
      Nothing(b);
      Nothing(Unhyphenated(b));
    } else {
      UnhyphenatedJoins(a[1..], b);
      ConcatTail(a, b);
    }
  }

  lemma {:induction false} SpelledWithoutHyphens(name: string, at: seq<nat>)
    requires forall k :: 0 <= k < |at| ==> at[k] < |name| && LowerChar(name[at[k]]) != '-'
    ensures Unhyphenated(Spelled(name, at)) == seq(|at|, k requires 0 <= k < |at| => LowerChar(name[at[k]]))
  {
    if at != [] {
      var init, last := at[..|at| - 1], at[|at| - 1];
      SpelledWithoutHyphens(name, init);
      var hyphen := if |at| > 1 && last != at[|at| - 2] + 1 then "-" else "";
      UnhyphenatedEnds(Spelled(name, init), hyphen, LowerChar(name[last]));
    }
  }

  lemma UnhyphenatedEnds(s: string, hyphen: string, c: char)
    requires hyphen in ["", "-"] && c != '-'
    ensures Unhyphenated(s + hyphen + [c]) == Unhyphenated(s) + [c]
  {
    UnhyphenatedJoins(s + hyphen, [c]);
    UnhyphenatedJoins(s, hyphen);
    assert [c][1..] == "" && "-"[1..] == "" && Unhyphenated("") == "";
    Nothing(Unhyphenated(s));
  }

  lemma SlugKeepsTheLetters(name: string)
    ensures Unhyphenated(SlugOf(name)) == Letters(name)
  {
    SlugIsSpelled(name);
    var at := Positions(name);
    forall k | 0 <= k < |at| ensures LowerChar(name[at[k]]) != '-' {
      KeptIsAWordChar(name[at[k]]);
    }
    SpelledWithoutHyphens(name, at);
  }

  // ---------- The normal form ----------

  predicate IsWord(w: string) {
    w != [] && forall i :: 0 <= i < |w| ==> SlugChar(w[i])
  }

  lemma {:induction false} JoinedWordsAreASlug(words: seq<string>)
    requires forall i :: 0 <= i < |words| ==> IsWord(words[i])
    ensures IsSlug(Join(words, "-"))
    ensures words != [] ==> Join(words, "-") != []
  {
    if |words| > 1 {
      JoinedWordsAreASlug(words[1..]);
      HyphenJoins(words[0], Join(words[1..], "-"));
    } else if |words| == 1 {
      WordIsASlug(words[0]);
    }
  }

  lemma WordIsASlug(w: string)
    requires IsWord(w)
    ensures IsSlug(w)
  {
  }

  lemma HyphenJoins(a: string, b: string)
    requires IsSlug(a) && IsSlug(b) && a != [] && b != []
    ensures IsSlug(a + "-" + b)
  {
    var s := a + "-" + b;
    assert s[0] == a[0] && s[|s| - 1] == b[|b| - 1];
    forall i | 0 <= i < |s| ensures SlugChar(s[i]) || s[i] == '-' {
      assert s[i] == if i < |a| then a[i] else if i == |a| then '-' else b[i - |a| - 1];
    }
    forall i | 0 <= i < |s| - 1 ensures s[i] != '-' || s[i + 1] != '-' {
      if i + 1 < |a| {
        assert s[i] == a[i] && s[i + 1] == a[i + 1];
      } else if i > |a| {
        assert s[i] == b[i - |a| - 1] && s[i + 1] == b[i - |a|];
      } else if i == |a| {
        assert s[i + 1] == b[0];
      } else {
        assert s[i] == a[|a| - 1];
      }
    }
  }

  function LowerAll(words: seq<string>): seq<string> {
    if words == [] then [] else [Lower(words[0])] + LowerAll(words[1..])
  }

  lemma {:induction false} LowerJoins(words: seq<string>)
    ensures Lower(Join(words, "-")) == Join(LowerAll(words), "-") && |LowerAll(words)| == |words|
  {
    if |words| > 1 {
      LowerJoins(words[1..]);
      LowerConcat(words[0], "-");
      LowerConcat(words[0] + "-", Join(words[1..], "-"));
      assert Lower("-") == "-";
      assert LowerAll(words)[1..] == LowerAll(words[1..]);
    }
  }

  lemma {:induction false} LoweredWords(s: string)
    ensures forall i :: 0 <= i < |LowerAll(Words(s, WORD))| ==> IsWord(LowerAll(Words(s, WORD))[i])
    decreases |s|
  {
    if s != [] {
      if WordChar(s[0]) {
        var k := RunLength(s, WORD);
        LoweredWords(s[k..]);
        assert Words(s, WORD) == [s[..k]] + Words(s[k..], WORD);
        assert Words(s, WORD)[1..] == Words(s[k..], WORD);
        assert IsWord(Lower(s[..k]));
      } else {
        LoweredWords(s[1..]);
      }
    }
  }

  // Every slug is in normal form.
  lemma SlugIsNormal(name: string)
    ensures IsSlug(SlugOf(name))
  {
    LowerJoins(Words(name, WORD));
    LoweredWords(name);
    JoinedWordsAreASlug(LowerAll(Words(name, WORD)));
  }

  lemma {:induction false} NormalWordsJoinBack(s: string)
    requires IsSlug(s)
    ensures Join(Words(s, WORD), "-") == s
    decreases |s|
  {
    if s != [] {
      assert WordChar(s[0]);
      var k := RunLength(s, WORD);
      FirstWordIs(s, k);
      if k == |s| {
        assert s[..k] == s && s[k..] == [];
      } else {
        assert s[k] == '-' && k + 1 < |s|;
        RestIsASlug(s, k);
        NormalWordsJoinBack(s[k + 1..]);
        FirstWordJoins(s, k);
      }
    }
  }

  lemma JoinedHead(head: string, words: seq<string>)
    requires words != []
    ensures Join([head] + words, "-") == head + "-" + Join(words, "-")
  {
    assert ([head] + words)[1..] == words;
  }

  lemma AroundTheHyphen(s: string, k: nat)
    requires k < |s| && s[k] == '-'
    ensures s[..k] + "-" + s[k + 1..] == s && s[k..][1..] == s[k + 1..] && s[k..][0] == '-'
  {
  }

  lemma FirstWordJoins(s: string, k: nat)
    requires 0 < k && k + 1 < |s| && s[k] == '-' && WordChar(s[k + 1])
    requires Words(s, WORD) == [s[..k]] + Words(s[k..], WORD)
    requires Join(Words(s[k + 1..], WORD), "-") == s[k + 1..]
    ensures Join(Words(s, WORD), "-") == s
  {
    AroundTheHyphen(s, k);
    assert Words(s[k..], WORD) == Words(s[k + 1..], WORD);
    assert Words(s[k + 1..], WORD) != [];
    JoinedHead(s[..k], Words(s[k + 1..], WORD));
  }

  lemma RestIsASlug(s: string, k: nat)
    requires IsSlug(s) && k + 1 < |s| && s[k] == '-'
    ensures IsSlug(s[k + 1..])
  {
    var rest := s[k + 1..];
    assert forall i :: 0 <= i < |rest| ==> rest[i] == s[k + 1 + i];
    forall i | 0 <= i < |rest| - 1 ensures rest[i] != '-' || rest[i + 1] != '-' {
      assert rest[i] == s[k + 1 + i] && rest[i + 1] == s[k + 2 + i];
    }
  }

  // The slugs are exactly the fixed points: slugging is idempotent.
  lemma FixedPointsAreTheSlugs(s: string)
    ensures SlugOf(s) == s <==> IsSlug(s)
    ensures SlugOf(SlugOf(s)) == SlugOf(s)
  {
    SlugIsNormal(s);
    NormalIsFixed(SlugOf(s));
    if IsSlug(s) {
      NormalIsFixed(s);
    }
  }

  lemma NormalIsFixed(s: string)
    requires IsSlug(s)
    ensures SlugOf(s) == s
  {
    NormalWordsJoinBack(s);
    assert Lower(s) == s;
  }

  // ---------- Job slugs ----------

  const SHORTCODE_LENGTH := 8

  // A prefix of a hash in lower-case base 32.
  type ShortCode = s: string | |s| == SHORTCODE_LENGTH && IsWord(s) witness "aaaaaaaa"

  function Segments(title: string, company: string, code: ShortCode): seq<string> {
    (if SlugOf(title) != "" then [SlugOf(title)] else [])
    + (if SlugOf(company) != "" then [SlugOf(company)] else [])
    + [code]
  }

  function JobSlugOf(title: string, company: string, code: ShortCode): string {
    Join(Segments(title, company, code), "-")
  }

  // A part that is there, and the hyphen after it.
  function Before(part: string): string {
    if part == "" then "" else part + "-"
  }

  // Title first, then company, then code; an empty part leaves no trace.
  lemma JobSlugIsInOrder(title: string, company: string, code: ShortCode)
    ensures JobSlugOf(title, company, code) == Before(SlugOf(title)) + Before(SlugOf(company)) + code
  {
    var t, c := SlugOf(title), SlugOf(company);
    var head := Segments(title, company, code)[..|Segments(title, company, code)| - 1];
    assert Segments(title, company, code) == head + [code];
    JoinAppend(head, code, "-");
    if t != "" && c != "" {
      assert head == [t, c] && [t, c][1..] == [c];
    }
  }

  method JobSlug(title: string, company: string, code: ShortCode) returns (slug: string)
    ensures slug == JobSlugOf(title, company, code)
    ensures slug == Before(SlugOf(title)) + Before(SlugOf(company)) + code
  {
    var segments: seq<string> := [];
    var t := Slug(title);
    if t != "" {
      segments := segments + [t];
    }
    var c := Slug(company);
    if c != "" {
      segments := segments + [c];
    }
    segments := segments + [code];
    assert segments == Segments(title, company, code);
    slug := Join(segments, "-");
    JobSlugIsInOrder(title, company, code);
  }

  predicate EndsIn(s: string, suffix: string) {
    |s| >= |suffix| && s[|s| - |suffix|..] == suffix
  }

  // A job slug is never empty, is a slug, and always ends in its short code.
  lemma JobSlugEndsInItsCode(title: string, company: string, code: ShortCode)
    ensures var slug := JobSlugOf(title, company, code);
            EndsIn(slug, code) && |code| == 8 && IsSlug(slug) && SlugOf(slug) == slug
  {
    var head := Segments(title, company, code)[..|Segments(title, company, code)| - 1];
    assert Segments(title, company, code) == head + [code];
    JoinAppend(head, code, "-");
    SlugIsNormal(title);
    SlugIsNormal(company);
    WordIsASlug(code);
    if head != [] {
      if |head| == 2 {
        assert head[1..] == [SlugOf(company)];
        HyphenJoins(head[0], head[1]);
      }
      HyphenJoins(Join(head, "-"), code);
    }
    NormalIsFixed(JobSlugOf(title, company, code));
  }

  // Slugs that end in different codes differ, whatever comes before.
  lemma CodesTellSlugsApart(a: string, b: string, codeA: ShortCode, codeB: ShortCode)
    requires EndsIn(a, codeA) && EndsIn(b, codeB) && codeA != codeB
    ensures a != b
  {
  }
}
