// Repairing model output: raw control characters inside JSON string literals become escape
// sequences. The strict grammar of section 7 of RFC 8259 then reads what a lenient reader,
// for which such characters stand for themselves, reads in the original.
module JsonRepair {
  import opened Wrappers
  import opened Sequences

  // ---------- The repair ----------

  predicate Control(c: char) {
    c as int < 0x20
  }

  function HexDigit(n: nat): char
    requires n < 16
  {
    if n < 10 then '0' + n as char else 'a' + (n - 10) as char
  }

  function Escape(c: char): string
    requires Control(c)
  {
    if c == '\n' then "\\n"
    else if c == '\t' then "\\t"
    else if c == '\r' then "\\r"
    else "\\u00" + [HexDigit(c as int / 16), HexDigit(c as int % 16)]
  }

  // Where the scanner is: in a string literal, and right after its escape character.
  datatype Scanner = Scanner(inString: bool, escaped: bool)

  const START := Scanner(false, false)

  function Advance(st: Scanner, c: char): Scanner {
    if st.escaped then st.(escaped := false)
    else if c == '\\' && st.inString then st.(escaped := true)
    else if c == '"' then st.(inString := !st.inString)
    else st
  }

  function Written(st: Scanner, c: char): string {
    if !st.escaped && st.inString && Control(c) then Escape(c) else [c]
  }

  function Repaired(st: Scanner, s: string): string
    decreases |s|
  {
    if s == [] then [] else Written(st, s[0]) + Repaired(Advance(st, s[0]), s[1..])
  }

  method RepairJsonControlChars(s: string) returns (b: string)
    ensures b == Repaired(START, s)
  {
    b := "";
    var inString, escaped := false, false;
    for i := 0 to |s|
      invariant b + Repaired(Scanner(inString, escaped), s[i..]) == Repaired(START, s)
    {
      var r := s[i];
      ghost var st, rest := Scanner(inString, escaped), s[i + 1..];
      Rest(s, i);
      Regroup(b, Written(st, r), Repaired(Advance(st, r), rest));
      if escaped {
        b := b + [r];
        escaped := false;
      } else if r == '\\' && inString {
        b := b + [r];
        escaped := true;
      } else if r == '"' {
        b := b + [r];
        inString := !inString;
      } else if inString && Control(r) {
        b := b + Escape(r);
      } else {
        b := b + [r];
      }
    }
    Nothing(b);
  }

  // ---------- Reading JSON text ----------

  // A structural character, or a string literal as its UTF-16 code units and characters.
  datatype Token = Structure(c: char) | Text(units: seq<int>)

  datatype Mode = Outside | Inside(units: seq<int>) | Escaped(units: seq<int>) | Hex(units: seq<int>, digits: nat,
      value: int)

  datatype Move = Move(mode: Mode, tokens: seq<Token>)

  function HexValue(c: char): Option<int> {
    if '0' <= c <= '9' then Some(c as int - '0' as int)
    else if 'a' <= c <= 'f' then Some(c as int - 'a' as int + 10)
    else if 'A' <= c <= 'F' then Some(c as int - 'A' as int + 10)
    else None
  }

  function Unescaped(c: char): Option<int> {
    if c == '"' || c == '\\' || c == '/' then Some(c as int)
    else if c == 'b' then Some(8)
    else if c == 't' then Some(9)
    else if c == 'n' then Some(10)
    else if c == 'f' then Some(12)
    else if c == 'r' then Some(13)
    else None
  }

  function Next(lenient: bool, m: Mode, c: char): Option<Move> {
    match m
    case Outside => if c == '"' then Some(Move(Inside([]), [])) else Some(Move(Outside, [Structure(c)]))
    case Inside(units) =>
      if c == '"' then Some(Move(Outside, [Text(units)]))
      else if c == '\\' then Some(Move(Escaped(units), []))
      else if c < ' ' && !lenient then None
      else Some(Move(Inside(units + [c as int]), []))
    case Escaped(units) =>
      if c == 'u' then Some(Move(Hex(units, 0, 0), []))
      else (match Unescaped(c) case Some(u) => Some(Move(Inside(units + [u]), [])) case None => None)
    case Hex(units, digits, value) =>
      match HexValue(c)
      case None => None
      case Some(d) =>
        if digits >= 3 then Some(Move(Inside(units + [16 * value + d]), []))
        else Some(Move(Hex(units, digits + 1, 16 * value + d), []))
  }

  // None: the text is not JSON, lexically.
  function Decode(lenient: bool, m: Mode, s: string): Option<seq<Token>>
    decreases |s|
  {
    if s == [] then (if m.Outside? then Some([]) else None)
    else
      match Next(lenient, m, s[0])
      case None => None
      case Some(move) =>
        match Decode(lenient, move.mode, s[1..])
        case None => None
        case Some(rest) => Some(move.tokens + rest)
  }

  // ---------- The repair preserves meaning ----------

  // The scanner's state for a reader's mode; inside a \\u escape it thinks it is in plain text.
  function View(m: Mode): Scanner {
    Scanner(!m.Outside?, m.Escaped?)
  }

  lemma DecodeFirst(lenient: bool, m: Mode, c: char, rest: string)
    ensures Decode(lenient, m, [c] + rest) ==
              match Next(lenient, m, c)
              case None => None
              case Some(move) => (match Decode(lenient, move.mode, rest) case None => None
                  case Some(tokens) => Some(move.tokens + tokens))
  {
    assert ([c] + rest)[1..] == rest;
  }

  lemma DecodeSilent(lenient: bool, m: Mode, c: char, rest: string)
    requires Next(lenient, m, c).Some? && Next(lenient, m, c).value.tokens == []
    ensures Decode(lenient, m, [c] + rest) == Decode(lenient, Next(lenient, m, c).value.mode, rest)
  {
    DecodeFirst(lenient, m, c, rest);
    match Decode(lenient, Next(lenient, m, c).value.mode, rest)
    case None =>
    case Some(tokens) => assert [] + tokens == tokens;
  }

  lemma HexDigitValue(n: nat)
    requires n < 16
    ensures HexValue(HexDigit(n)) == Some(n)
  {
  }

  lemma DecodeHexEscape(units: seq<int>, c: char, rest: string)
    requires Control(c)
    ensures Decode(false, Inside(units), "\\u00" + [HexDigit(c as int / 16), HexDigit(c as int % 16)] + rest) ==
              Decode(false, Inside(units + [c as int]), rest)
  {
    var high, low := HexDigit(c as int / 16), HexDigit(c as int % 16);
    HexDigitValue(c as int / 16);
    HexDigitValue(c as int % 16);
    DecodeDigits(units, c as int / 16, c as int % 16, high, low, rest);
    DecodeZeros(units, [high] + ([low] + rest));
    assert "\\u00" + [high, low] + rest == ['\\'] + (['u'] + (['0'] + (['0'] + ([high] + ([low] + rest)))));
  }

  lemma DecodeZeros(units: seq<int>, rest: string)
    ensures Decode(false, Inside(units), ['\\'] + (['u'] + (['0'] + (['0'] + rest)))) == Decode(false, Hex(units,
            2, 0), rest)
  {
    DecodeSilent(false, Hex(units, 1, 0), '0', rest);
    DecodeSilent(false, Hex(units, 0, 0), '0', ['0'] + rest);
    DecodeSilent(false, Escaped(units), 'u', ['0'] + (['0'] + rest));
    DecodeSilent(false, Inside(units), '\\', ['u'] + (['0'] + (['0'] + rest)));
  }

  lemma DecodeDigits(units: seq<int>, a: int, b: int, high: char, low: char, rest: string)
    requires HexValue(high) == Some(a) && HexValue(low) == Some(b)
    ensures Decode(false, Hex(units, 2, 0), [high] + ([low] + rest)) ==
              Decode(false, Inside(units + [16 * a + b]), rest)
  {
    DecodeSilent(false, Hex(units, 3, a), low, rest);
    DecodeSilent(false, Hex(units, 2, 0), high, [low] + rest);
  }

  lemma DecodeShortEscape(units: seq<int>, c: char, name: char, rest: string)
    requires name != 'u' && Unescaped(name) == Some(c as int)
    ensures Decode(false, Inside(units), "\\" + [name] + rest) == Decode(false, Inside(units + [c as int]), rest)
  {
    DecodeSilent(false, Escaped(units), name, rest);
    DecodeSilent(false, Inside(units), '\\', [name] + rest);
    assert "\\" + [name] + rest == ['\\'] + ([name] + rest);
  }

  lemma DecodeEscape(units: seq<int>, c: char, rest: string)
    requires Control(c)
    ensures Decode(false, Inside(units), Escape(c) + rest) == Decode(false, Inside(units + [c as int]), rest)
  {
    if c == '\n' {
      DecodeShortEscape(units, c, 'n', rest);
    } else if c == '\t' {
      DecodeShortEscape(units, c, 't', rest);
    } else if c == '\r' {
      DecodeShortEscape(units, c, 'r', rest);
    } else {
      DecodeHexEscape(units, c, rest);
    }
  }

  // One character: the strict reader goes through what was written for it just as the
  // lenient one goes through the character.
  lemma WrittenReadsAsMeant(m: Mode, c: char, rest: string)
    ensures Next(true, m, c).None? ==> Decode(false, m, Written(View(m), c) + rest) == None
    ensures Next(true, m, c).Some? ==>
              var move := Next(true, m, c).value;
              && View(move.mode) == Advance(View(m), c)
              && Decode(false, m, Written(View(m), c) + rest) ==
                 match Decode(false, move.mode, rest) case None => None case Some(tokens) => Some(move.tokens + tokens)
  {
    if m.Inside? && Control(c) {
      DecodeEscape(m.units, c, rest);
      match Decode(false, Inside(m.units + [c as int]), rest)
      case None =>
      case Some(tokens) => assert [] + tokens == tokens;
    } else if m.Hex? && Control(c) {
      assert Escape(c)[0] == '\\';
      assert (Escape(c) + rest)[0] == '\\';
    } else {
      DecodeFirst(false, m, c, rest);
    }
  }

  // For every text: strict decoding of the repaired text is lenient decoding of the original,
  // and one fails exactly when the other does.
  lemma {:induction false} RepairPreservesMeaning(m: Mode, s: string)
    ensures Decode(false, m, Repaired(View(m), s)) == Decode(true, m, s)
    decreases |s|
  {
    if s != [] {
      var rest := Repaired(Advance(View(m), s[0]), s[1..]);
      WrittenReadsAsMeant(m, s[0], rest);
      if Next(true, m, s[0]).Some? {
        RepairPreservesMeaning(Next(true, m, s[0]).value.mode, s[1..]);
      }
    }
  }

  lemma StrictReadsTheRepaired(s: string)
    ensures Decode(false, Outside, Repaired(START, s)) == Decode(true, Outside, s)
  {
    RepairPreservesMeaning(Outside, s);
  }

  // ---------- The repair changes nothing else ----------

  function Scanned(st: Scanner, s: string): Scanner
    decreases |s|
  {
    if s == [] then st else Scanned(Advance(st, s[0]), s[1..])
  }

  lemma {:induction false} ScannedConcat(st: Scanner, a: string, b: string)
    ensures Scanned(st, a + b) == Scanned(Scanned(st, a), b)
    decreases |a|
  {
    if a == [] {
      assert a + b == b;
    } else {
      assert (a + b)[1..] == a[1..] + b;
      ScannedConcat(Advance(st, a[0]), a[1..], b);
    }
  }

  lemma ScannedEscape(c: char)
    requires Control(c)
    ensures Scanned(Scanner(true, false), Escape(c)) == Scanner(true, false)
  {
    var st := Scanner(true, false);
    var e := Escape(c);
    ScannedConcat(st, e[..2], e[2..]);
    assert e == e[..2] + e[2..];
    assert Scanned(st, e[..2]) == st by {
      assert e[..2][1..] == [e[1]] && [e[1]][1..] == [];
      assert Scanned(Scanner(true, true), [e[1]]) == Scanned(st, []);
      assert Advance(st, e[0]) == Scanner(true, true);
    }
    forall i | 2 <= i < |e| ensures e[i] != '"' && e[i] != '\\' {
    }
    PlainTextKeepsTheState(st, e[2..]);
  }

  lemma {:induction false} PlainTextKeepsTheState(st: Scanner, s: string)
    requires !st.escaped && forall i :: 0 <= i < |s| ==> s[i] != '"' && s[i] != '\\'
    ensures Scanned(st, s) == st
  {
    if s != [] {
      PlainTextKeepsTheState(st, s[1..]);
    }
  }

  lemma {:induction false} RepairedConcat(st: Scanner, a: string, b: string)
    ensures Repaired(st, a + b) == Repaired(st, a) + Repaired(Scanned(st, a), b)
    decreases |a|
  {
    if a == [] {
      assert a + b == b;
    } else {
      assert (a + b)[1..] == a[1..] + b;
      RepairedConcat(Advance(st, a[0]), a[1..], b);
    }
  }

  lemma {:induction false} RepairKeepsTheState(st: Scanner, s: string)
    ensures Scanned(st, Repaired(st, s)) == Scanned(st, s)
    decreases |s|
  {
    if s != [] {
      var rest := Repaired(Advance(st, s[0]), s[1..]);
      ScannedConcat(st, Written(st, s[0]), rest);
      if !st.escaped && st.inString && Control(s[0]) {
        ScannedEscape(s[0]);
      } else {
        assert Scanned(st, [s[0]]) == Advance(st, s[0]) by {
          assert [s[0]][1..] == [];
        }
      }
      RepairKeepsTheState(Advance(st, s[0]), s[1..]);
    }
  }

  // At every position of the input, a scanner of the output so far is in the same state.
  lemma RepairKeepsTheStateEverywhere(s: string, i: nat)
    requires i <= |s|
    ensures Repaired(START, s[..i]) <= Repaired(START, s)
    ensures Scanned(START, Repaired(START, s[..i])) == Scanned(START, s[..i])
  {
    RepairKeepsTheState(START, s[..i]);
    RepairedConcat(START, s[..i], s[i..]);
    SplitAt(s, i);
    Parts(Repaired(START, s[..i]), Repaired(Scanned(START, s[..i]), s[i..]));
  }

  // No raw control character inside a string literal, other than right after a backslash.
  predicate Clean(st: Scanner, s: string)
    decreases |s|
  {
    s != [] ==> !(!st.escaped && st.inString && Control(s[0])) && Clean(Advance(st, s[0]), s[1..])
  }

  lemma {:induction false} RepairNeverShortens(st: Scanner, s: string)
    ensures |Repaired(st, s)| >= |s|
    decreases |s|
  {
    if s != [] {
      RepairNeverShortens(Advance(st, s[0]), s[1..]);
    }
  }

  // Exactly the clean texts are left alone.
  lemma {:induction false} CleanTextsAreKept(st: Scanner, s: string)
    ensures Repaired(st, s) == s <==> Clean(st, s)
    decreases |s|
  {
    if s != [] {
      var rest := Repaired(Advance(st, s[0]), s[1..]);
      CleanTextsAreKept(Advance(st, s[0]), s[1..]);
      RepairNeverShortens(Advance(st, s[0]), s[1..]);
      if !st.escaped && st.inString && Control(s[0]) {
        assert |Repaired(st, s)| > |s|;
      } else {
        assert Repaired(st, s) == [s[0]] + rest;
        assert ([s[0]] + rest)[1..] == rest;
        assert s == [s[0]] + s[1..];
      }
    }
  }

  lemma {:induction false} CleanConcat(st: Scanner, a: string, b: string)
    ensures Clean(st, a + b) <==> Clean(st, a) && Clean(Scanned(st, a), b)
    decreases |a|
  {
    if a == [] {
      assert a + b == b;
    } else {
      assert (a + b)[1..] == a[1..] + b;
      CleanConcat(Advance(st, a[0]), a[1..], b);
    }
  }

  lemma {:induction false} PlainTextIsClean(st: Scanner, s: string)
    requires forall i :: 0 <= i < |s| ==> !Control(s[i])
    ensures Clean(st, s)
    decreases |s|
  {
    if s != [] {
      PlainTextIsClean(Advance(st, s[0]), s[1..]);
    }
  }

  lemma {:induction false} RepairedIsClean(st: Scanner, s: string)
    ensures Clean(st, Repaired(st, s))
    decreases |s|
  {
    if s != [] {
      var rest := Repaired(Advance(st, s[0]), s[1..]);
      RepairedIsClean(Advance(st, s[0]), s[1..]);
      CleanConcat(st, Written(st, s[0]), rest);
      if !st.escaped && st.inString && Control(s[0]) {
        ScannedEscape(s[0]);
        PlainTextIsClean(st, Escape(s[0]));
      } else {
        assert [s[0]][1..] == [];
        assert Scanned(st, [s[0]]) == Advance(st, s[0]);
      }
    }
  }

  lemma RepairIsIdempotent(s: string)
    ensures Repaired(START, Repaired(START, s)) == Repaired(START, s)
  {
    RepairedIsClean(START, s);
    CleanTextsAreKept(START, Repaired(START, s));
  }

  // Text the strict reader already accepts is clean, so the repair never touches a valid
  // payload.
  lemma {:induction false} ValidTextIsClean(m: Mode, s: string)
    requires Decode(false, m, s).Some?
    ensures Clean(View(m), s)
    decreases |s|
  {
    if s != [] {
      var move := Next(false, m, s[0]).value;
      assert View(move.mode) == Advance(View(m), s[0]);
      ValidTextIsClean(move.mode, s[1..]);
    }
  }

  lemma ValidPayloadIsKept(s: string)
    requires Decode(false, Outside, s).Some?
    ensures Repaired(START, s) == s
  {
    ValidTextIsClean(Outside, s);
    CleanTextsAreKept(START, s);
  }
}
