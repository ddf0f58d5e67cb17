// Plain text rendered as minimal HTML: paragraphs, line breaks and escaped text, nothing
// else. A parser of that HTML gets the text's lines back.
module TextToHtml {
  import opened Wrappers
  import opened Text
  import opened Sequences

  // ---------- Splitting ----------

  function Prepend(c: char, parts: seq<string>): seq<string>
    requires parts != []
  {
    [[c] + parts[0]] + parts[1..]
  }

  function SplitLines(s: string): (r: seq<string>)
    ensures r != []
  {
    if s == [] then [""]
    else if s[0] == '\n' then [""] + SplitLines(s[1..])
    else Prepend(s[0], SplitLines(s[1..]))
  }

  // At each blank line, from the left.
  function SplitParagraphs(s: string): (r: seq<string>)
    ensures r != []
  {
    if s == [] then [""]
    else if "\n\n" <= s then [""] + SplitParagraphs(s[2..])
    else Prepend(s[0], SplitParagraphs(s[1..]))
  }

  // The lines of a text are what its newlines separate.
  lemma {:induction false} LinesJoinBack(s: string)
    ensures Join(SplitLines(s), "\n") == s
    ensures forall i :: 0 <= i < |SplitLines(s)| ==> '\n' !in SplitLines(s)[i]
  {
    if s != [] {
      LinesJoinBack(s[1..]);
      JoinWithHead(s[0], SplitLines(s[1..]), "\n");
      HeadAndTail(s);
    }
  }

  lemma JoinWithHead(c: char, parts: seq<string>, sep: string)
    requires parts != []
    ensures Join([""] + parts, sep) == sep + Join(parts, sep)
    ensures Join(Prepend(c, parts), sep) == [c] + Join(parts, sep)
  {
    assert ([""] + parts)[1..] == parts;
    assert Prepend(c, parts)[1..] == parts[1..];
    if |parts| > 1 {
      Regroup([c], parts[0], sep + Join(parts[1..], sep));
      Regroup([c] + parts[0], sep, Join(parts[1..], sep));
      Regroup(parts[0], sep, Join(parts[1..], sep));
    }
  }

  // No blank line inside, and none that starts at the last character.
  predicate OneParagraph(part: string, last: bool) {
    && (forall i :: 0 <= i < |part| - 1 ==> part[i] != '\n' || part[i + 1] != '\n')
    && (!last && part != [] ==> part[|part| - 1] != '\n')
  }

  // The paragraphs are what blank lines separate, each taken as early as possible.
  lemma {:induction false} ParagraphsJoinBack(s: string)
    ensures Join(SplitParagraphs(s), "\n\n") == s
    decreases |s|
  {
    if s != [] {
      HeadAndTail(s);
      if "\n\n" <= s {
        ParagraphsJoinBack(s[2..]);
        JoinWithHead(s[0], SplitParagraphs(s[2..]), "\n\n");
        assert s == "\n\n" + s[2..];
      } else {
        ParagraphsJoinBack(s[1..]);
        JoinWithHead(s[0], SplitParagraphs(s[1..]), "\n\n");
      }
    }
  }

  lemma {:induction false} ParagraphsAreWhole(s: string)
    ensures var ps := SplitParagraphs(s);
            && (forall i :: 0 <= i < |ps| ==> OneParagraph(ps[i], i == |ps| - 1))
            && (ps[0] != [] ==> s != [] && ps[0][0] == s[0])
            && (|ps| > 1 && ps[0] == [] ==> "\n\n" <= s)
    decreases |s|
  {
    if s != [] {
      if "\n\n" <= s {
        ParagraphsAreWhole(s[2..]);
      } else {
        ParagraphsAreWhole(s[1..]);
        FirstStaysOne(s, SplitParagraphs(s[1..]));
      }
    }
  }

  lemma StartsBlank(s: string)
    ensures "\n\n" <= s <==> |s| > 1 && s[0] == '\n' && s[1] == '\n'
  {
  }

  lemma FirstStaysOne(s: string, rest: seq<string>)
    requires s != [] && !("\n\n" <= s) && rest != [] && OneParagraph(rest[0], |rest| == 1)
    requires rest[0] != [] ==> |s| > 1 && rest[0][0] == s[1]
    requires |rest| > 1 && rest[0] == [] ==> "\n\n" <= s[1..]
    ensures OneParagraph([s[0]] + rest[0], |rest| == 1)
  {
    var part := [s[0]] + rest[0];
    forall i | 0 <= i < |part| - 1 ensures part[i] != '\n' || part[i + 1] != '\n' {
      assert i > 0 ==> part[i] == rest[0][i - 1] && part[i + 1] == rest[0][i];
    }
    StartsBlank(s);
    StartsBlank(s[1..]);
  }

  // ---------- Rendering ----------

  function Entity(c: char): string {
    if c == '&' then "&amp;"
    else if c == '<' then "&lt;"
    else if c == '>' then "&gt;"
    else if c == '\'' then "&#39;"
    else if c == '"' then "&#34;"
    else [c]
  }

  function Escaped(s: string): string {
    if s == [] then [] else Entity(s[0]) + Escaped(s[1..])
  }

  // The trimmed lines that are not empty.
  function Kept(lines: seq<string>): seq<string> {
    if lines == [] then [] else (if Trim(lines[0]) == "" then [] else [Trim(lines[0])]) + Kept(lines[1..])
  }

  function EscapedAll(lines: seq<string>): seq<string> {
    if lines == [] then [] else [Escaped(lines[0])] + EscapedAll(lines[1..])
  }

  // The kept lines of each paragraph that has some.
  function Groups(paragraphs: seq<string>): seq<seq<string>> {
    if paragraphs == [] then []
    else
      var kept := Kept(SplitLines(paragraphs[0]));
      (if kept == [] then [] else [kept]) + Groups(paragraphs[1..])
  }

  function Render(groups: seq<seq<string>>): string {
    if groups == [] then "" else "<p>" + Join(EscapedAll(groups[0]), "<br>") + "</p>" + Render(groups[1..])
  }

  method KeptLines(para: string) returns (kept: seq<string>)
    ensures kept == EscapedAll(Kept(SplitLines(para)))
  {
    var lines := SplitLines(para);
    kept := [];
    for i := 0 to |lines|
      invariant kept + EscapedAll(Kept(lines[i..])) == EscapedAll(Kept(lines))
    {
      var s := Trim(lines[i]);
      ghost var rest := Kept(lines[i + 1..]);
      Rest(lines, i);
      if s != "" {
        Cons(s, rest);
        Regroup(kept, [Escaped(s)], EscapedAll(rest));
        kept := kept + [Escaped(s)];
      } else {
        Nothing(rest);
      }
    }
    Nothing(kept);
  }

  lemma RenderFirst(lines: seq<string>, rest: seq<seq<string>>)
    ensures Render([lines] + rest) == "<p>" + Join(EscapedAll(lines), "<br>") + "</p>" + Render(rest)
  {
    Cons(lines, rest);
  }

  method TextToHtml(text: string) returns (b: string)
    ensures b == Render(Groups(SplitParagraphs(text)))
  {
    var paragraphs := SplitParagraphs(text);
    b := "";
    for i := 0 to |paragraphs|
      invariant b + Render(Groups(paragraphs[i..])) == Render(Groups(paragraphs))
    {
      var kept := KeptLines(paragraphs[i]);
      ghost var lines := Kept(SplitLines(paragraphs[i]));
      ghost var rest := Groups(paragraphs[i + 1..]);
      Rest(paragraphs, i);
      EscapedAllLength(lines);
      if |kept| == 0 {
        Nothing(rest);
        continue;
      }
      RenderFirst(lines, rest);
      Regroup(b, "<p>" + Join(kept, "<br>") + "</p>", Render(rest));
      Regroup(b, "<p>" + Join(kept, "<br>"), "</p>");
      Regroup(b, "<p>", Join(kept, "<br>"));
      b := b + "<p>";
      b := b + Join(kept, "<br>");
      b := b + "</p>";
    }
    Nothing(b);
  }

  lemma {:induction false} EscapedAllLength(lines: seq<string>)
    ensures |EscapedAll(lines)| == |lines|
  {
    if lines != [] {
      EscapedAllLength(lines[1..]);
    }
  }

  // ---------- Parsing it back ----------

  datatype Token = Character(c: char) | Open | Break | Close

  datatype Mode = Plain | InEntity(name: string) | InTag(name: string)

  datatype Move = Move(mode: Mode, tokens: seq<Token>)

  function Named(name: string): Option<char> {
    if name == "amp" then Some('&')
    else if name == "lt" then Some('<')
    else if name == "gt" then Some('>')
    else if name == "#39" then Some('\'')
    else if name == "#34" then Some('"')
    else None
  }

  function Tag(name: string): Option<Token> {
    if name == "p" then Some(Open) else if name == "br" then Some(Break) else if name == "/p" then Some(Close) else None
  }

  // Characters that must be escaped are refused bare.
  function Next(m: Mode, c: char): Option<Move> {
    match m
    case Plain =>
      if c == '&' then Some(Move(InEntity(""), []))
      else if c == '<' then Some(Move(InTag(""), []))
      else if c == '>' || c == '\'' || c == '"' then None
      else Some(Move(Plain, [Character(c)]))
    case InEntity(name) =>
      if c != ';' then Some(Move(InEntity(name + [c]), []))
      else (match Named(name) case None => None case Some(d) => Some(Move(Plain, [Character(d)])))
    case InTag(name) =>
      if c != '>' then Some(Move(InTag(name + [c]), []))
      else (match Tag(name) case None => None case Some(t) => Some(Move(Plain, [t])))
  }

  function Tokenize(m: Mode, s: string): Option<seq<Token>>
    decreases |s|
  {
    if s == [] then (if m.Plain? then Some([]) else None)
    else
      match Next(m, s[0])
      case None => None
      case Some(move) =>
        match Tokenize(move.mode, s[1..])
        case None => None
        case Some(more) => Some(move.tokens + more)
  }

  // The paragraph being read: its finished lines and the current one.
  datatype Reader = Between | Within(lines: seq<string>, line: string)

  function Assemble(r: Reader, tokens: seq<Token>): Option<seq<seq<string>>>
    decreases |tokens|
  {
    if tokens == [] then (if r.Between? then Some([]) else None)
    else
      match (r, tokens[0])
      case (Between, Open) => Assemble(Within([], ""), tokens[1..])
      case (Within(lines, line), Character(c)) => Assemble(Within(lines, line + [c]), tokens[1..])
      case (Within(lines, line), Break) => Assemble(Within(lines + [line], ""), tokens[1..])
      case (Within(lines, line), Close) =>
        (match Assemble(Between, tokens[1..])
         case None => None
         case Some(more) => Some([lines + [line]] + more))
      case _ => None
  }

  function Parse(s: string): Option<seq<seq<string>>> {
    match Tokenize(Plain, s)
    case None => None
    case Some(tokens) => Assemble(Between, tokens)
  }

  // ---------- What the tokens are ----------

  lemma {:induction false} TokenizeConcat(m: Mode, a: string, b: string)
    requires Tokenize(m, a).Some? && Tokenize(Plain, b).Some?
    ensures Tokenize(m, a + b) == Some(Tokenize(m, a).value + Tokenize(Plain, b).value)
    decreases |a|
  {
    if a == [] {
      assert a + b == b;
      assert [] + Tokenize(Plain, b).value == Tokenize(Plain, b).value;
    } else {
      var move := Next(m, a[0]).value;
      TokenizeConcat(move.mode, a[1..], b);
      ConcatTail(a, b);
      Regroup(move.tokens, Tokenize(move.mode, a[1..]).value, Tokenize(Plain, b).value);
    }
  }

  lemma TokenizeSilent(m: Mode, s: string)
    requires s != [] && Next(m, s[0]).Some? && Next(m, s[0]).value.tokens == []
    ensures Tokenize(m, s) == Tokenize(Next(m, s[0]).value.mode, s[1..])
  {
    match Tokenize(Next(m, s[0]).value.mode, s[1..])
    case None =>
    case Some(more) => assert [] + more == more;
  }

  // The rest of an entity's name, or of a tag's.
  lemma {:induction false} TokenizeName(m: Mode, rest: string, end: char)
    requires !m.Plain? && end == (if m.InEntity? then ';' else '>') && end !in rest
    ensures Tokenize(m, rest + [end]) ==
              if m.InEntity? then (match Named(m.name + rest) case None => None case Some(c) => Some([Character(c)]))
              else (match Tag(m.name + rest) case None => None case Some(t) => Some([t]))
    decreases |rest|
  {
    var s := rest + [end];
    if rest == [] {
      assert s[1..] == [] && m.name + rest == m.name;
      match Next(m, s[0])
      case None =>
      case Some(move) => assert move.tokens + [] == move.tokens;
    } else {
      var longer := if m.InEntity? then InEntity(m.name + [rest[0]]) else InTag(m.name + [rest[0]]);
      assert s[1..] == rest[1..] + [end];
      assert longer.name + rest[1..] == m.name + rest;
      TokenizeName(longer, rest[1..], end);
      TokenizeSilent(m, s);
    }
  }

  lemma TokenizeNamed(name: string, c: char)
    requires Named(name) == Some(c) && ';' !in name
    ensures Tokenize(Plain, "&" + (name + ";")) == Some([Character(c)])
  {
    TokenizeName(InEntity(""), name, ';');
    assert "" + name == name;
    TokenizeSilent(Plain, "&" + (name + ";"));
    assert ("&" + (name + ";"))[1..] == name + ";";
  }

  lemma TokenizeTag(name: string, t: Token)
    requires Tag(name) == Some(t) && '>' !in name
    ensures Tokenize(Plain, "<" + (name + ">")) == Some([t])
  {
    TokenizeName(InTag(""), name, '>');
    assert "" + name == name;
    TokenizeSilent(Plain, "<" + (name + ">"));
    assert ("<" + (name + ">"))[1..] == name + ">";
  }

  lemma TokenizeTags()
    ensures Tokenize(Plain, "<p>") == Some([Open])
    ensures Tokenize(Plain, "<br>") == Some([Break])
    ensures Tokenize(Plain, "</p>") == Some([Close])
  {
    TokenizeTag("p", Open);
    TokenizeTag("br", Break);
    TokenizeTag("/p", Close);
    assert "<p>" == "<" + ("p" + ">") && "<br>" == "<" + ("br" + ">") && "</p>" == "<" + ("/p" + ">");
  }

  lemma TokenizeEntity(c: char)
    ensures Tokenize(Plain, Entity(c)) == Some([Character(c)])
  {
    if c == '&' {
      TokenizeNamed("amp", c);
      assert Entity(c) == "&" + ("amp" + ";");
    } else if c == '<' {
      TokenizeNamed("lt", c);
      assert Entity(c) == "&" + ("lt" + ";");
    } else if c == '>' {
      TokenizeNamed("gt", c);
      assert Entity(c) == "&" + ("gt" + ";");
    } else if c == '\'' {
      TokenizeNamed("#39", c);
      assert Entity(c) == "&" + ("#39" + ";");
    } else if c == '"' {
      TokenizeNamed("#34", c);
      assert Entity(c) == "&" + ("#34" + ";");
    } else {
      assert [c][1..] == [] && [Character(c)] + [] == [Character(c)];
    }
  }

  function Characters(s: string): seq<Token> {
    if s == [] then [] else [Character(s[0])] + Characters(s[1..])
  }

  lemma {:induction false} TokenizeEscaped(s: string)
    ensures Tokenize(Plain, Escaped(s)) == Some(Characters(s))
  {
    if s != [] {
      TokenizeEntity(s[0]);
      TokenizeEscaped(s[1..]);
      TokenizeConcat(Plain, Entity(s[0]), Escaped(s[1..]));
    }
  }

  function LineTokens(lines: seq<string>): seq<Token>
    requires lines != []
  {
    Characters(lines[0]) + if |lines| == 1 then [Close] else [Break] + LineTokens(lines[1..])
  }

  lemma {:induction false} TokenizeLines(lines: seq<string>)
    requires lines != []
    ensures Tokenize(Plain, Join(EscapedAll(lines), "<br>") + "</p>") == Some(LineTokens(lines))
  {
    EscapedAllLength(lines);
    TokenizeTags();
    TokenizeEscaped(lines[0]);
    if |lines| == 1 {
      TokenizeConcat(Plain, Escaped(lines[0]), "</p>");
    } else {
      var others := Join(EscapedAll(lines[1..]), "<br>") + "</p>";
      TokenizeLines(lines[1..]);
      TokenizeConcat(Plain, "<br>", others);
      TokenizeConcat(Plain, Escaped(lines[0]), "<br>" + others);
      Cons(Escaped(lines[0]), EscapedAll(lines[1..]));
      Regroup(Escaped(lines[0]) + "<br>", Join(EscapedAll(lines[1..]), "<br>"), "</p>");
      Regroup(Escaped(lines[0]), "<br>", others);
    }
  }

  function GroupTokens(groups: seq<seq<string>>): seq<Token>
    requires forall i :: 0 <= i < |groups| ==> groups[i] != []
  {
    if groups == [] then [] else [Open] + LineTokens(groups[0]) + GroupTokens(groups[1..])
  }

  lemma TokenizeGroup(lines: seq<string>)
    requires lines != []
    ensures Tokenize(Plain, "<p>" + (Join(EscapedAll(lines), "<br>") + "</p>")) == Some([Open] + LineTokens(lines))
  {
    TokenizeTags();
    TokenizeLines(lines);
    TokenizeConcat(Plain, "<p>", Join(EscapedAll(lines), "<br>") + "</p>");
  }

  lemma FirstGroupRendered(groups: seq<seq<string>>)
    requires groups != []
    ensures Render(groups) == ("<p>" + (Join(EscapedAll(groups[0]), "<br>") + "</p>")) + Render(groups[1..])
  {
    Regroup("<p>", Join(EscapedAll(groups[0]), "<br>"), "</p>");
  }

  lemma {:induction false} TokenizeRendered(groups: seq<seq<string>>)
    requires forall i :: 0 <= i < |groups| ==> groups[i] != []
    ensures Tokenize(Plain, Render(groups)) == Some(GroupTokens(groups))
  {
    if groups != [] {
      TokenizeGroup(groups[0]);
      TokenizeRendered(groups[1..]);
      FirstGroupRendered(groups);
      TokenizeConcat(Plain, "<p>" + (Join(EscapedAll(groups[0]), "<br>") + "</p>"), Render(groups[1..]));
    }
  }

  // ---------- What the tokens give back ----------

  lemma {:induction false} AssembleCharacters(lines: seq<string>, line: string, s: string, rest: seq<Token>)
    ensures Assemble(Within(lines, line), Characters(s) + rest) == Assemble(Within(lines, line + s), rest)
    decreases |s|
  {
    if s == [] {
      Nothing(line);
      Nothing(rest);
    } else {
      Regroup([Character(s[0])], Characters(s[1..]), rest);
      Cons(Character(s[0]), Characters(s[1..]) + rest);
      Regroup(line, [s[0]], s[1..]);
      HeadAndTail(s);
      AssembleCharacters(lines, line + [s[0]], s[1..], rest);
    }
  }

  lemma {:induction false} AssembleLines(done: seq<string>, lines: seq<string>, rest: seq<Token>)
    requires lines != [] && Assemble(Between, rest).Some?
    ensures Assemble(Within(done, ""), LineTokens(lines) + rest) == Some([done + lines] + Assemble(Between, rest).value)
    decreases |lines|
  {
    if |lines| == 1 {
      var after := [Close] + rest;
      Regroup(Characters(lines[0]), [Close], rest);
      AssembleCharacters(done, "", lines[0], after);
      Cons(Close, rest);
      Nothing(lines[0]);
      assert done + [lines[0]] == done + lines;
    } else {
      var after := [Break] + (LineTokens(lines[1..]) + rest);
      Regroup(Characters(lines[0]), [Break] + LineTokens(lines[1..]), rest);
      Regroup([Break], LineTokens(lines[1..]), rest);
      AssembleCharacters(done, "", lines[0], after);
      AssembleLines(done + [lines[0]], lines[1..], rest);
      Cons(Break, LineTokens(lines[1..]) + rest);
      Nothing(lines[0]);
      Regroup(done, [lines[0]], lines[1..]);
      HeadAndTail(lines);
    }
  }

  lemma {:induction false} AssembleGroups(groups: seq<seq<string>>)
    requires forall i :: 0 <= i < |groups| ==> groups[i] != []
    ensures Assemble(Between, GroupTokens(groups)) == Some(groups)
  {
    if groups != [] {
      var rest := GroupTokens(groups[1..]);
      AssembleGroups(groups[1..]);
      AssembleLines([], groups[0], rest);
      Regroup([Open], LineTokens(groups[0]), rest);
      Cons(Open, LineTokens(groups[0]) + rest);
      Nothing(groups[0]);
      HeadAndTail(groups);
    }
  }

  lemma {:induction false} GroupsAreNotEmpty(paragraphs: seq<string>)
    ensures forall i :: 0 <= i < |Groups(paragraphs)| ==> Groups(paragraphs)[i] != []
  {
    if paragraphs != [] {
      GroupsAreNotEmpty(paragraphs[1..]);
    }
  }

  // Parsing the HTML of any text recovers its kept lines, paragraph by paragraph.
  lemma ParsingRecoversTheLines(text: string)
    ensures Parse(Render(Groups(SplitParagraphs(text)))) == Some(Groups(SplitParagraphs(text)))
  {
    GroupsAreNotEmpty(SplitParagraphs(text));
    TokenizeRendered(Groups(SplitParagraphs(text)));
    AssembleGroups(Groups(SplitParagraphs(text)));
  }

  // ---------- Splitting loses nothing ----------

  function Flatten(groups: seq<seq<string>>): seq<string> {
    if groups == [] then [] else groups[0] + Flatten(groups[1..])
  }

  lemma {:induction false} KeptConcat(a: seq<string>, b: seq<string>)
    ensures Kept(a + b) == Kept(a) + Kept(b)
  {
    if a == [] {
      assert a + b == b;
    } else {
      KeptConcat(a[1..], b);
      ConcatTail(a, b);
      Regroup(if Trim(a[0]) == "" then [] else [Trim(a[0])], Kept(a[1..]), Kept(b));
    }
  }

  lemma {:induction false} GroupsConcat(a: seq<string>, b: seq<string>)
    ensures Groups(a + b) == Groups(a) + Groups(b)
  {
    if a == [] {
      Nothing(b);
      Nothing(Groups(b));
    } else {
      GroupsConcat(a[1..], b);
      ConcatTail(a, b);
      var kept := Kept(SplitLines(a[0]));
      Regroup(if kept == [] then [] else [kept], Groups(a[1..]), Groups(b));
    }
  }

  // Line by line and paragraph by paragraph: a line is kept trimmed unless it is blank, a paragraph
  // is its kept lines unless there are none.
  lemma KeptPieceByPiece(line: string, para: string)
    ensures Kept([line]) == if Trim(line) == "" then [] else [Trim(line)]
    ensures Groups([para]) == if Kept(SplitLines(para)) == [] then [] else [Kept(SplitLines(para))]
  {
    assert [line][1..] == [] && [para][1..] == [];
  }

  // The lines of all paragraphs.
  function AllLines(paragraphs: seq<string>): seq<string> {
    if paragraphs == [] then [] else SplitLines(paragraphs[0]) + AllLines(paragraphs[1..])
  }

  lemma {:induction false} FlattenedGroups(paragraphs: seq<string>)
    ensures Flatten(Groups(paragraphs)) == Kept(AllLines(paragraphs))
  {
    if paragraphs != [] {
      var kept := Kept(SplitLines(paragraphs[0]));
      var rest := Groups(paragraphs[1..]);
      FlattenedGroups(paragraphs[1..]);
      KeptConcat(SplitLines(paragraphs[0]), AllLines(paragraphs[1..]));
      assert Flatten(Groups(paragraphs)) == kept + Flatten(rest) by {
        if kept == [] {
          assert Groups(paragraphs) == rest;
        } else {
          assert ([kept] + rest)[1..] == rest;
        }
      }
    }
  }

  // Dropping the empty lines at paragraph breaks makes no difference to the kept ones.
  lemma {:induction false} ParagraphsHaveTheLines(s: string)
    ensures Kept(AllLines(SplitParagraphs(s))) == Kept(SplitLines(s))
    ensures SplitLines(SplitParagraphs(s)[0])[0] == SplitLines(s)[0]
    ensures Kept(SplitLines(SplitParagraphs(s)[0])[1..] + AllLines(SplitParagraphs(s)[1..])) == Kept(SplitLines(s)[1..])
    decreases |s|
  {
    var ps := SplitParagraphs(s);
    if s == [] {
      assert SplitLines("")[1..] + AllLines([]) == [];
      assert ps[1..] == [];
      assert AllLines(ps) == [""];
    } else if "\n\n" <= s {
      var rest := SplitParagraphs(s[2..]);
      ParagraphsHaveTheLines(s[2..]);
      assert ps[1..] == rest;
      assert s[1..][1..] == s[2..];
      assert SplitLines(s) == [""] + ([""] + SplitLines(s[2..]));
      assert AllLines(ps) == [""] + AllLines(rest);
      KeptConcat([""], AllLines(rest));
      KeptConcat([""], [""] + SplitLines(s[2..]));
      KeptConcat([""], SplitLines(s[2..]));
      KeptOfBlank();
      assert SplitLines(ps[0])[1..] + AllLines(rest) == AllLines(rest);
      assert SplitLines(s)[1..] == [""] + SplitLines(s[2..]);
    } else {
      var rest := SplitParagraphs(s[1..]);
      ParagraphsHaveTheLines(s[1..]);
      FirstParagraph(s);
    }
  }

  lemma KeptOfBlank()
    ensures Kept([""]) == []
  {
    assert Trim("") == "";
  }

  lemma FirstParagraph(s: string)
    requires s != [] && !("\n\n" <= s)
    requires var rest := SplitParagraphs(s[1..]);
             && SplitLines(rest[0])[0] == SplitLines(s[1..])[0]
             && Kept(SplitLines(rest[0])[1..] + AllLines(rest[1..])) == Kept(SplitLines(s[1..])[1..])
             && Kept(AllLines(rest)) == Kept(SplitLines(s[1..]))
    ensures Kept(AllLines(SplitParagraphs(s))) == Kept(SplitLines(s))
    ensures SplitLines(SplitParagraphs(s)[0])[0] == SplitLines(s)[0]
    ensures Kept(SplitLines(SplitParagraphs(s)[0])[1..] + AllLines(SplitParagraphs(s)[1..])) == Kept(SplitLines(s)[1..])
  {
    var rest := SplitParagraphs(s[1..]);
    var ps := SplitParagraphs(s);
    var inner, outer := SplitLines(rest[0]), SplitLines(s[1..]);
    assert ps[0] == [s[0]] + rest[0] && ps[1..] == rest[1..] && ps[0][1..] == rest[0];
    assert AllLines(ps) == SplitLines(ps[0]) + AllLines(rest[1..]);
    assert AllLines(rest) == inner + AllLines(rest[1..]);
    if s[0] == '\n' {
      assert SplitLines(ps[0]) == [""] + inner && SplitLines(s) == [""] + outer;
      KeptAfterHead("", inner, outer, AllLines(rest[1..]));
      assert SplitLines(ps[0])[1..] == inner && SplitLines(s)[1..] == outer;
    } else {
      var head := [s[0]] + inner[0];
      assert SplitLines(ps[0]) == [head] + inner[1..] && SplitLines(s) == [head] + outer[1..];
      KeptAfterHead(head, inner[1..], outer[1..], AllLines(rest[1..]));
      assert SplitLines(ps[0])[1..] == inner[1..] && SplitLines(s)[1..] == outer[1..];
    }
  }

  lemma KeptAfterHead(head: string, inner: seq<string>, outer: seq<string>, later: seq<string>)
    requires Kept(inner + later) == Kept(outer)
    ensures Kept([head] + inner + later) == Kept([head] + outer)
  {
    KeptConcat([head], inner + later);
    KeptConcat([head], outer);
    assert [head] + inner + later == [head] + (inner + later);
  }

  // The lines recovered are exactly the trimmed non-empty lines of the text, in order.
  lemma NoLineIsLost(text: string)
    ensures Flatten(Groups(SplitParagraphs(text))) == Kept(SplitLines(text))
  {
    FlattenedGroups(SplitParagraphs(text));
    ParagraphsHaveTheLines(text);
  }

  // ---------- Only three tags ----------

  predicate TagAt(s: string, i: nat)
    requires i < |s|
  {
    "<p>" <= s[i..] || "<br>" <= s[i..] || "</p>" <= s[i..]
  }

  predicate OnlyTags(s: string) {
    forall i :: 0 <= i < |s| && s[i] == '<' ==> TagAt(s, i)
  }

  lemma OnlyTagsConcat(a: string, b: string)
    requires OnlyTags(a) && OnlyTags(b)
    ensures OnlyTags(a + b)
  {
    var s := a + b;
    forall i | 0 <= i < |s| && s[i] == '<'
      ensures TagAt(s, i)
    {
      if i < |a| {
        assert TagAt(a, i);
        assert s[i..] == a[i..] + b;
      } else {
        assert TagAt(b, i - |a|);
        assert s[i..] == b[i - |a|..];
      }
    }
  }

  lemma {:induction false} EscapedHasNoTags(s: string)
    ensures '<' !in Escaped(s)
  {
    if s != [] {
      EscapedHasNoTags(s[1..]);
      assert '<' !in Entity(s[0]);
    }
  }

  lemma {:induction false} JoinedHasOnlyTags(lines: seq<string>)
    ensures OnlyTags(Join(EscapedAll(lines), "<br>"))
  {
    EscapedAllLength(lines);
    if lines != [] {
      EscapedHasNoTags(lines[0]);
      assert OnlyTags(Escaped(lines[0])) by {
        forall i | 0 <= i < |Escaped(lines[0])| ensures Escaped(lines[0])[i] != '<' {
          assert Escaped(lines[0])[i] in Escaped(lines[0]);
        }
      }
      if |lines| > 1 {
        assert EscapedAll(lines)[1..] == EscapedAll(lines[1..]);
        JoinedHasOnlyTags(lines[1..]);
        TagsAreTags();
        OnlyTagsConcat(Escaped(lines[0]), "<br>");
        OnlyTagsConcat(Escaped(lines[0]) + "<br>", Join(EscapedAll(lines[1..]), "<br>"));
      }
    }
  }

  lemma TagsAreTags()
    ensures OnlyTags("<p>") && OnlyTags("<br>") && OnlyTags("</p>")
  {
    assert "<p>"[0..] == "<p>" && "<br>"[0..] == "<br>" && "</p>"[0..] == "</p>";
  }

  // Whatever the text, the only tags in the output are <p>, <br> and </p>.
  lemma {:induction false} RenderedHasOnlyTags(groups: seq<seq<string>>)
    ensures OnlyTags(Render(groups))
  {
    if groups != [] {
      RenderedHasOnlyTags(groups[1..]);
      JoinedHasOnlyTags(groups[0]);
      TagsAreTags();
      var body := Join(EscapedAll(groups[0]), "<br>");
      OnlyTagsConcat("<p>", body);
      OnlyTagsConcat("<p>" + body, "</p>");
      OnlyTagsConcat("<p>" + body + "</p>", Render(groups[1..]));
    }
  }
}
