// JavaScript numbers, as the decimals they are printed as: what String() prints (section
// 6.1.6.1.20 of ECMA-262) and what Number() reads (section 7.1.4.1).
module Numbers {
  import opened Wrappers
  import opened Decimal
  import opened Sequences
  import opened Text

  // A finite number is 0.d1d2...dk times ten to the power `point`.
  datatype Number = Finite(negative: bool, digits: string, point: int) | Infinite(negative: bool)

  // Neither the first nor the last digit is 0; zero has no digits and one sign.
  predicate Normal(n: Number) {
    n.Finite? ==>
      && (forall i :: 0 <= i < |n.digits| ==> IsDigit(n.digits[i]))
      && if n.digits == "" then !n.negative && n.point == 0 else n.digits[0] != '0' && n.digits[|n.digits| - 1] != '0'
  }

  const ZERO := Finite(false, "", 0)

  type Amount = n: Number | Normal(n) witness ZERO

  function Zeros(k: nat): string {
    seq(k, _ => '0')
  }

  // ---------- Printing ----------

  function Sign(negative: bool): string {
    if negative then "-" else ""
  }

  function Printed(a: Amount): string {
    match a
    case Infinite(negative) => Sign(negative) + "Infinity"
    case Finite(negative, digits, point) => Sign(negative) + if digits == "" then "0" else Magnitude(digits, point)
  }

  // Plain digits up to 21 places, a few zeros after the point, or else an exponent.
  function Magnitude(digits: string, point: int): string
    requires digits != ""
  {
    if |digits| <= point <= 21 then digits + Zeros(point - |digits|)
    else if 0 < point <= 21 then digits[..point] + ("." + digits[point..])
    else if -6 < point <= 0 then "0" + ("." + (Zeros(-point) + digits))
    else digits[..1] + ((if |digits| == 1 then "" else "." + digits[1..]) + Exponent(point - 1))
  }

  function Exponent(e: int): string {
    if e < 0 then "e-" + Digits(-e) else "e+" + Digits(e)
  }

  // ---------- Reading ----------

  // White space as String.prototype.trim and Number see it.
  predicate IsJsSpace(c: char) {
    (IsSpace(c) && c as int != 0x85) || c as int == 0xFEFF
  }

  const JS_SPACE: char -> bool := (c: char) => IsJsSpace(c)
  const IS_DIGIT: char -> bool := (c: char) => IsDigit(c)
  const IS_ZERO: char -> bool := (c: char) => c == '0'

  // 0.s times ten to the power `point`, in normal form.
  function Normalized(negative: bool, s: string, point: int): Number {
    var z := RunLength(s, IS_ZERO);
    var digits := TrimRight(s[z..], IS_ZERO);
    if digits == "" then ZERO else Finite(negative, digits, point - z)
  }

  // What follows the digits: nothing, or an exponent.
  function ReadExponent(s: string): Option<int> {
    if s == "" then Some(0)
    else if s[0] != 'e' && s[0] != 'E' then None
    else
      var body := if |s| > 1 && s[1] in "+-" then s[2..] else s[1..];
      if !AllDigits(body) then None
      else if s[1] == '-' then Some(-(Value(body) as int))
      else Some(Value(body))
  }

  // What follows the whole part: a fraction, perhaps, and the rest.
  function Fraction(s: string): (digits: string)
    ensures DigitsOnly(digits)
  {
    if s != "" && s[0] == '.' then s[1..][..RunLength(s[1..], IS_DIGIT)] else ""
  }

  function AfterFraction(s: string): string {
    if s != "" && s[0] == '.' then s[1..][RunLength(s[1..], IS_DIGIT)..] else s
  }

  // The digits, at least one, and how many of them the point and the exponent put before it.
  function Assembled(negative: bool, whole: string, rest: string): Option<Number> {
    var exponent := ReadExponent(AfterFraction(rest));
    if whole + Fraction(rest) == "" || exponent.None? then None
    else Some(Normalized(negative, whole + Fraction(rest), |whole| + exponent.value))
  }

  function ReadDecimal(negative: bool, s: string): Option<Number> {
    var whole := RunLength(s, IS_DIGIT);
    Assembled(negative, s[..whole], s[whole..])
  }

  // The digits of 0x, 0o and 0b literals, which have no sign.
  function RadixDigit(c: char): nat {
    if IsDigit(c) then DigitValue(c)
    else if 'a' <= c <= 'f' then c as int - 'a' as int + 10
    else if 'A' <= c <= 'F' then c as int - 'A' as int + 10
    else 16
  }

  function Radix(s: string): Option<nat> {
    if |s| < 2 || s[0] != '0' then None
    else if s[1] in "xX" then Some(16)
    else if s[1] in "oO" then Some(8)
    else if s[1] in "bB" then Some(2)
    else None
  }

  function RadixValue(s: string, radix: nat): Option<nat> {
    if s == "" then Some(0)
    else
      var before, d := RadixValue(s[..|s| - 1], radix), RadixDigit(s[|s| - 1]);
      if before.None? || d >= radix then None else Some(before.value * radix + d)
  }

  function OfNat(n: nat): Number {
    Normalized(false, Digits(n), |Digits(n)|)
  }

  function ReadNumeral(s: string): Option<Number> {
    var radix := Radix(s);
    if radix.Some? then
      if |s| == 2 || RadixValue(s[2..], radix.value).None? then None
      else Some(OfNat(RadixValue(s[2..], radix.value).value))
    else
      var negative := s != "" && s[0] == '-';
      var body := if s != "" && s[0] in "+-" then s[1..] else s;
      if body == "Infinity" then Some(Infinite(negative)) else ReadDecimal(negative, body)
  }

  // Number(text); None is NaN.
  function ToNumber(text: string): (r: Option<Amount>)
  {
    var s := TrimBy(text, JS_SPACE);
    if s == "" then Some(ZERO)
    else
      NumeralIsNormal(s);
      ReadNumeral(s)
  }

  // The trimmed characters are the white space of Unicode and the byte order mark, but not U+0085.
  lemma JsSpaceIsWhiteSpace(c: char)
    ensures IsJsSpace(c) <==> c as int in (set u | u in WHITE_SPACE) - {0x85} + {0xFEFF}
  {
    SpaceIsWhiteSpace(c);
  }

  // ---------- What is read is in normal form ----------

  predicate DigitsOnly(s: string) {
    forall i :: 0 <= i < |s| ==> IsDigit(s[i])
  }

  lemma {:induction false} WithoutLastZeros(s: string)
    ensures var t := TrimRight(s, IS_ZERO);
            t <= s && (t != "" ==> t[|t| - 1] != '0')
  {
    if s != "" && s[|s| - 1] == '0' {
      WithoutLastZeros(s[..|s| - 1]);
    }
  }

  lemma NormalizedIsNormal(negative: bool, s: string, point: int)
    requires DigitsOnly(s)
    ensures Normal(Normalized(negative, s, point))
  {
    var z := RunLength(s, IS_ZERO);
    WithoutLastZeros(s[z..]);
  }

  lemma DecimalIsNormal(negative: bool, s: string)
    ensures ReadDecimal(negative, s).Some? ==> Normal(ReadDecimal(negative, s).value)
  {
    var whole := RunLength(s, IS_DIGIT);
    var exponent := ReadExponent(AfterFraction(s[whole..]));
    if exponent.Some? {
      NormalizedIsNormal(negative, s[..whole] + Fraction(s[whole..]), whole + exponent.value);
    }
  }

  lemma NumeralIsNormal(s: string)
    ensures ReadNumeral(s).Some? ==> Normal(ReadNumeral(s).value)
  {
    var radix := Radix(s);
    if radix.Some? {
      if |s| > 2 && RadixValue(s[2..], radix.value).Some? {
        var n := RadixValue(s[2..], radix.value).value;
        DigitsRoundTrip(n);
        NormalizedIsNormal(false, Digits(n), |Digits(n)|);
      }
    } else {
      DecimalIsNormal(s != "" && s[0] == '-', if s != "" && s[0] in "+-" then s[1..] else s);
    }
  }

  // ---------- What is printed is read back ----------

  lemma {:induction false} RunIs(a: string, b: string, p: char -> bool)
    requires (forall i :: 0 <= i < |a| ==> p(a[i])) && (b != "" ==> !p(b[0]))
    ensures RunLength(a + b, p) == |a|
  {
    if a == "" {
      assert a + b == b;
    } else {
      ConcatTail(a, b);
      RunIs(a[1..], b, p);
    }
  }

  lemma {:induction false} ZerosAreTrimmed(s: string, k: nat)
    requires s != "" ==> s[|s| - 1] != '0'
    ensures TrimRight(s + Zeros(k), IS_ZERO) == s
  {
    if k == 0 {
      assert s + Zeros(k) == s;
    } else {
      ZerosAreTrimmed(s, k - 1);
      assert (s + Zeros(k))[..|s| + k - 1] == s + Zeros(k - 1);
    }
  }

  // Zeros on either side of the digits only move the point.
  lemma NormalizedDigits(negative: bool, before: nat, digits: string, after: nat, point: int)
    requires Normal(Finite(negative, digits, point)) && digits != ""
    ensures Normalized(negative, Zeros(before) + (digits + Zeros(after)), point + before) ==
              Finite(negative, digits, point)
  {
    var s := Zeros(before) + (digits + Zeros(after));
    RunIs(Zeros(before), digits + Zeros(after), IS_ZERO);
    Parts(Zeros(before), digits + Zeros(after));
    ZerosAreTrimmed(digits, after);
  }

  lemma NormalizedText(negative: bool, digits: string, point: int, s: string, after: nat)
    requires Normal(Finite(negative, digits, point)) && digits != "" && s == digits + Zeros(after)
    ensures Normalized(negative, s, point) == Finite(negative, digits, point)
  {
    NormalizedDigits(negative, 0, digits, after, point);
    assert Zeros(0) + s == s;
  }

  predicate IsTail(s: string) {
    s != "" ==> s[0] == 'e'
  }

  lemma FractionIsRead(fraction: string, tail: string)
    requires DigitsOnly(fraction) && IsTail(tail)
    ensures Fraction("." + (fraction + tail)) == fraction && AfterFraction("." + (fraction + tail)) == tail
  {
    RunIs(fraction, tail, IS_DIGIT);
    Parts(".", fraction + tail);
    Parts(fraction, tail);
  }

  // A numeral comes apart into its whole part, its fraction and its exponent.
  lemma WholeIsRead(negative: bool, whole: string, rest: string)
    requires DigitsOnly(whole) && (rest != "" ==> !IsDigit(rest[0]))
    ensures ReadDecimal(negative, whole + rest) == Assembled(negative, whole, rest)
  {
    RunIs(whole, rest, IS_DIGIT);
    Parts(whole, rest);
  }

  lemma PartsAreAssembled(negative: bool, whole: string, rest: string, fraction: string, tail: string, e: int)
    requires whole != "" && Fraction(rest) == fraction && AfterFraction(rest) == tail && ReadExponent(tail) == Some(e)
    ensures Assembled(negative, whole, rest) == Some(Normalized(negative, whole + fraction, |whole| + e))
  {
  }

  lemma DottedIsRead(negative: bool, whole: string, fraction: string, tail: string, e: int)
    requires DigitsOnly(whole) && whole != "" && DigitsOnly(fraction) && IsTail(tail) && ReadExponent(tail) == Some(e)
    ensures ReadDecimal(negative, whole + ("." + (fraction + tail))) ==
              Some(Normalized(negative, whole + fraction, |whole| + e))
  {
    FractionIsRead(fraction, tail);
    PartsAreAssembled(negative, whole, "." + (fraction + tail), fraction, tail, e);
    WholeIsRead(negative, whole, "." + (fraction + tail));
  }

  lemma NoFraction(tail: string)
    requires IsTail(tail)
    ensures Fraction(tail) == "" && AfterFraction(tail) == tail
  {
  }

  lemma UndottedIsRead(negative: bool, whole: string, tail: string, e: int)
    requires DigitsOnly(whole) && whole != "" && IsTail(tail) && ReadExponent(tail) == Some(e)
    ensures ReadDecimal(negative, whole + tail) == Some(Normalized(negative, whole, |whole| + e))
  {
    NoFraction(tail);
    PartsAreAssembled(negative, whole, tail, "", tail, e);
    WholeIsRead(negative, whole, tail);
    Nothing(whole);
  }

  lemma ExponentIsRead(e: int)
    ensures Exponent(e)[0] == 'e' && ReadExponent(Exponent(e)) == Some(e)
  {
    DigitsRoundTrip(if e < 0 then -e else e);
    assert Exponent(e)[2..] == Digits(if e < 0 then -e else e);
  }

  // The four forms a magnitude is printed in: what is read, and that it is the number.
  lemma PlainIsRead(negative: bool, digits: string, point: int)
    requires Normal(Finite(negative, digits, point)) && digits != "" && |digits| <= point
    ensures ReadDecimal(negative, digits + Zeros(point - |digits|)) == Some(Finite(negative, digits, point))
  {
    var s := digits + Zeros(point - |digits|);
    assert DigitsOnly(s);
    PlainWithoutExponent(negative, s);
    NormalizedText(negative, digits, point, s, point - |digits|);
  }

  lemma PointInsideIsRead(negative: bool, digits: string, point: int)
    requires Normal(Finite(negative, digits, point)) && 0 < point < |digits|
    ensures ReadDecimal(negative, digits[..point] + ("." + digits[point..])) == Some(Finite(negative, digits, point))
  {
    assert digits + Zeros(0) == digits;
    SplitAt(digits, point);
    DottedWithoutExponent(negative, digits[..point], digits[point..]);
    NormalizedText(negative, digits, point, digits, 0);
  }

  lemma PointBeforeIsRead(negative: bool, digits: string, point: int)
    requires Normal(Finite(negative, digits, point)) && digits != "" && point <= 0
    ensures ReadDecimal(negative, "0" + ("." + (Zeros(-point) + digits))) == Some(Finite(negative, digits, point))
  {
    assert DigitsOnly(Zeros(-point) + digits);
    OneMoreZero(digits, -point);
    DottedWithoutExponent(negative, "0", Zeros(-point) + digits);
    NormalizedDigits(negative, 1 - point, digits, 0, point);
  }

  lemma ScientificIsRead(negative: bool, digits: string, point: int)
    requires Normal(Finite(negative, digits, point)) && digits != ""
    ensures var more := if |digits| == 1 then "" else "." + digits[1..];
            ReadDecimal(negative, digits[..1] + (more + Exponent(point - 1))) == Some(Finite(negative, digits, point))
  {
    assert digits + Zeros(0) == digits;
    SplitAt(digits, 1);
    WithExponent(negative, digits, point - 1);
    NormalizedText(negative, digits, point, digits, 0);
  }

  lemma OneMoreZero(digits: string, k: nat)
    ensures Zeros(k + 1) + (digits + Zeros(0)) == "0" + (Zeros(k) + digits)
  {
  }

  lemma DottedWithoutExponent(negative: bool, whole: string, fraction: string)
    requires DigitsOnly(whole) && whole != "" && DigitsOnly(fraction)
    ensures ReadDecimal(negative, whole + ("." + fraction)) == Some(Normalized(negative, whole + fraction, |whole|))
  {
    Nothing(fraction);
    DottedIsRead(negative, whole, fraction, "", 0);
  }

  lemma PlainWithoutExponent(negative: bool, whole: string)
    requires DigitsOnly(whole) && whole != ""
    ensures ReadDecimal(negative, whole) == Some(Normalized(negative, whole, |whole|))
    ensures whole + "" == whole
  {
    Nothing(whole);
    UndottedIsRead(negative, whole, "", 0);
  }

  lemma WithExponent(negative: bool, digits: string, e: int)
    requires DigitsOnly(digits) && digits != ""
    ensures var more := if |digits| == 1 then "" else "." + digits[1..];
            ReadDecimal(negative, digits[..1] + (more + Exponent(e))) == Some(Normalized(negative, digits, 1 + e))
  {
    ExponentIsRead(e);
    if |digits| == 1 {
      OneDigitWithExponent(negative, digits, Exponent(e), e);
    } else {
      DigitsWithExponent(negative, digits, Exponent(e), e);
    }
  }

  lemma OneDigitWithExponent(negative: bool, digits: string, tail: string, e: int)
    requires DigitsOnly(digits) && |digits| == 1 && IsTail(tail) && ReadExponent(tail) == Some(e)
    ensures ReadDecimal(negative, digits[..1] + ("" + tail)) == Some(Normalized(negative, digits, 1 + e))
  {
    Nothing(tail);
    assert digits[..1] == digits;
    UndottedIsRead(negative, digits, tail, e);
  }

  lemma DigitsWithExponent(negative: bool, digits: string, tail: string, e: int)
    requires DigitsOnly(digits) && |digits| > 1 && IsTail(tail) && ReadExponent(tail) == Some(e)
    ensures ReadDecimal(negative, digits[..1] + (("." + digits[1..]) + tail)) ==
              Some(Normalized(negative, digits, 1 + e))
  {
    SplitAt(digits, 1);
    PointedWithExponent(negative, digits[..1], digits[1..], tail, e);
  }

  lemma PointedWithExponent(negative: bool, first: string, fraction: string, tail: string, e: int)
    requires DigitsOnly(first) && |first| == 1 && DigitsOnly(fraction) && IsTail(tail) && ReadExponent(tail) == Some(e)
    ensures ReadDecimal(negative, first + (("." + fraction) + tail)) ==
              Some(Normalized(negative, first + fraction, 1 + e))
  {
    Regroup(".", fraction, tail);
    DottedIsRead(negative, first, fraction, tail, e);
  }

  lemma MagnitudeIsRead(negative: bool, digits: string, point: int)
    requires Normal(Finite(negative, digits, point)) && digits != ""
    ensures ReadDecimal(negative, Magnitude(digits, point)) == Some(Finite(negative, digits, point))
  {
    if |digits| <= point <= 21 {
      PlainIsRead(negative, digits, point);
    } else if 0 < point <= 21 {
      PointInsideIsRead(negative, digits, point);
    } else if -6 < point <= 0 {
      PointBeforeIsRead(negative, digits, point);
    } else {
      ScientificIsRead(negative, digits, point);
    }
  }

  // An exponent is printed exactly from 1e21 on and below 1e-6, and elsewhere a point exactly where
  // there is a fraction.
  lemma FormOfPrinted(a: Amount)
    requires a.Finite? && a.digits != ""
    ensures 'e' in Printed(a) <==> a.point > 21 || a.point < -5
    ensures 'e' !in Printed(a) ==> ('.' in Printed(a) <==> |a.digits| > a.point)
  {
    DigitsHaveNoSigns(a.digits);
    DigitsHaveNoSigns(Zeros(if a.point > |a.digits| then a.point - |a.digits| else 0));
    DigitsHaveNoSigns(Zeros(if a.point < 0 then -a.point else 0));
    var m := Magnitude(a.digits, a.point);
    InConcat(Sign(a.negative), m, 'e');
    InConcat(Sign(a.negative), m, '.');
    if |a.digits| <= a.point <= 21 {
    } else if 0 < a.point <= 21 {
      DottedHasAPoint(a.digits[..a.point], a.digits[a.point..]);
      DigitsHaveNoSigns(a.digits[..a.point]);
      DigitsHaveNoSigns(a.digits[a.point..]);
    } else if -6 < a.point <= 0 {
      DottedHasAPoint("0", Zeros(-a.point) + a.digits);
    } else {
      var rest := (if |a.digits| == 1 then "" else "." + a.digits[1..]) + Exponent(a.point - 1);
      assert Exponent(a.point - 1)[0] == 'e';
      InConcat(if |a.digits| == 1 then "" else "." + a.digits[1..], Exponent(a.point - 1), 'e');
      InConcat(a.digits[..1], rest, 'e');
    }
  }

  lemma InConcat(a: string, b: string, c: char)
    ensures c in a + b <==> c in a || c in b
  {
  }

  lemma DigitsHaveNoSigns(s: string)
    requires DigitsOnly(s)
    ensures 'e' !in s && '.' !in s
  {
  }

  lemma DottedHasAPoint(a: string, b: string)
    ensures '.' in a + ("." + b)
    ensures 'e' !in a && 'e' !in b ==> 'e' !in a + ("." + b)
  {
    assert (a + ("." + b))[|a|] == '.';
  }

  predicate NumeralChar(c: char) {
    IsDigit(c) || c in ".e+-Infity"
  }

  predicate Numeral(s: string) {
    s != "" && forall i :: 0 <= i < |s| ==> NumeralChar(s[i])
  }

  lemma NumeralsJoin(a: string, b: string)
    requires Numeral(a) && Numeral(b)
    ensures Numeral(a + b) && (a + b)[0] == a[0]
  {
  }

  lemma DigitsAreANumeral(digits: string)
    requires DigitsOnly(digits) && digits != ""
    ensures Numeral(digits)
  {
  }

  lemma ExponentIsANumeral(e: int)
    ensures Numeral(Exponent(e))
  {
    var m := if e < 0 then -e else e;
    DigitsRoundTrip(m);
    DigitsAreANumeral(Digits(m));
    NumeralsJoin(if e < 0 then "e-" else "e+", Digits(m));
  }

  lemma MagnitudeIsANumeral(digits: string, point: int)
    requires DigitsOnly(digits) && digits != ""
    ensures Numeral(Magnitude(digits, point)) && IsDigit(Magnitude(digits, point)[0])
  {
    if |digits| <= point <= 21 {
      DigitsAreANumeral(digits + Zeros(point - |digits|));
    } else if 0 < point <= 21 {
      DigitsAreANumeral(digits[..point]);
      DigitsAreANumeral(digits[point..]);
      NumeralsJoin(".", digits[point..]);
      NumeralsJoin(digits[..point], "." + digits[point..]);
    } else if -6 < point <= 0 {
      DigitsAreANumeral(Zeros(-point) + digits);
      NumeralsJoin(".", Zeros(-point) + digits);
      NumeralsJoin("0", "." + (Zeros(-point) + digits));
    } else {
      ScientificIsANumeral(digits, Exponent(point - 1), point - 1);
    }
  }

  lemma ScientificIsANumeral(digits: string, tail: string, e: int)
    requires DigitsOnly(digits) && digits != "" && tail == Exponent(e)
    ensures var s := digits[..1] + ((if |digits| == 1 then "" else "." + digits[1..]) + tail);
            Numeral(s) && IsDigit(s[0])
  {
    ExponentIsANumeral(e);
    DigitsAreANumeral(digits[..1]);
    if |digits| == 1 {
      Nothing(tail);
      NumeralsJoin(digits[..1], tail);
    } else {
      DigitsAreANumeral(digits[1..]);
      NumeralsJoin(".", digits[1..]);
      NumeralsJoin("." + digits[1..], tail);
      NumeralsJoin(digits[..1], ("." + digits[1..]) + tail);
    }
  }

  lemma NumeralsAreNotTrimmed(s: string)
    requires Numeral(s)
    ensures TrimBy(s, JS_SPACE) == s && Radix(s).None?
  {
    assert NumeralChar(s[0]) && NumeralChar(s[|s| - 1]);
    assert |s| > 1 ==> NumeralChar(s[1]);
  }

  lemma SignIsRead(negative: bool, body: string)
    requires Numeral(body) && body[0] !in "+-"
    ensures var s := Sign(negative) + body;
            ToNumber(s) == if body == "Infinity" then Some(Infinite(negative)) else ReadDecimal(negative, body)
  {
    var s := Sign(negative) + body;
    NumeralsAreNotTrimmed(s);
    assert negative ==> s[0] == '-' && s[1..] == body;
    assert !negative ==> s == body;
  }

  // Every number JavaScript prints is read back.
  lemma PrintedIsRead(a: Amount)
    ensures Printed(a) != "" && ToNumber(Printed(a)) == Some(a)
  {
    match a
    case Infinite(negative) => SignIsRead(negative, "Infinity");
    case Finite(negative, digits, point) =>
      if digits == "" {
        SignIsRead(negative, "0");
        ZeroIsRead();
      } else {
        MagnitudeIsANumeral(digits, point);
        SignIsRead(negative, Magnitude(digits, point));
        MagnitudeIsRead(negative, digits, point);
      }
  }

  lemma ZeroIsRead()
    ensures ReadDecimal(false, "0") == Some(ZERO)
  {
    PlainWithoutExponent(false, "0");
    RunIs("0", "", IS_ZERO);
    assert "0" + "" == "0";
  }

  // ---------- What they are worth, and what a server that reads integers makes of them ----------

  predicate Integral(a: Amount) {
    a.Finite? && |a.digits| <= a.point
  }

  function WholeDigits(digits: string, more: nat): nat
    requires DigitsOnly(digits)
  {
    assert DigitsOnly(digits + Zeros(more));
    Value(digits + Zeros(more))
  }

  function IntegerOf(a: Amount): int
    requires Integral(a)
  {
    var n: int := WholeDigits(a.digits, a.point - |a.digits|);
    if a.negative then -n else n
  }

  function Pow10(k: nat): (r: nat)
    ensures r > 0
  {
    if k == 0 then 1 else 10 * Pow10(k - 1)
  }

  function Scale(k: int): real {
    if k >= 0 then Pow10(k) as real else 1.0 / Pow10(-k) as real
  }

  function Scaled(digits: string, k: int): real
    requires DigitsOnly(digits)
  {
    Value(digits) as real * Scale(k)
  }

  // The value of a finite number.
  function Worth(a: Amount): real
    requires a.Finite?
  {
    var x := Scaled(a.digits, a.point - |a.digits|);
    if a.negative then -x else x
  }

  // n >= a.
  predicate Reaches(n: int, a: Amount) {
    match a
    case Infinite(negative) => negative
    case Finite(_, _, _) => n as real >= Worth(a)
  }

  lemma {:induction false} ValueOfPadded(s: string, k: nat)
    requires DigitsOnly(s)
    ensures DigitsOnly(s + Zeros(k)) && Value(s + Zeros(k)) == Value(s) * Pow10(k)
  {
    if k == 0 {
      assert s + Zeros(0) == s;
    } else {
      ValueOfPadded(s, k - 1);
      var t := s + Zeros(k);
      assert t[..|t| - 1] == s + Zeros(k - 1);
      assert t[|t| - 1] == '0';
    }
  }

  lemma RealProduct(m: nat, n: nat)
    ensures (m * n) as real == m as real * n as real
  {
  }

  lemma ScaledIsWhole(digits: string, k: nat)
    requires DigitsOnly(digits)
    ensures Scaled(digits, k) == WholeDigits(digits, k) as real
  {
    var v, p := Value(digits), Pow10(k);
    assert Scaled(digits, k) == v as real * p as real;
    assert WholeDigits(digits, k) == v * p by {
      ValueOfPadded(digits, k);
    }
    RealProduct(v, p);
  }

  // A whole number is worth its digits.
  lemma IntegerIsTheWorth(a: Amount)
    requires Integral(a)
    ensures Worth(a) == IntegerOf(a) as real
  {
    ScaledIsWhole(a.digits, a.point - |a.digits|);
  }

  // A number with a fraction is worth its digits, shifted behind the point.
  lemma FractionsAreTheWorth(a: Amount)
    requires a.Finite? && !Integral(a)
    ensures Worth(a) * Pow10(|a.digits| - a.point) as real ==
              if a.negative then -(Value(a.digits) as real) else Value(a.digits) as real
  {
    var scale := Pow10(|a.digits| - a.point) as real;
    assert 1.0 / scale * scale == 1.0;
    assert Value(a.digits) as real * (1.0 / scale) * scale == Value(a.digits) as real * (1.0 / scale * scale);
  }

  // A digit counts for its place: that many tens as there are digits after it.
  lemma {:induction false} ValueIsPositional(c: char, s: string)
    requires IsDigit(c) && DigitsOnly(s)
    ensures DigitsOnly([c] + s) && Value([c] + s) == (c as int - '0' as int) * Pow10(|s|) + Value(s)
    decreases |s|
  {
    var t := [c] + s;
    if s == [] {
      assert t[..0] == [];
    } else {
      var init := s[..|s| - 1];
      assert t[..|t| - 1] == [c] + init;
      ValueIsPositional(c, init);
      var d, p: int := c as int - '0' as int, Pow10(|init|);
      assert Value(t) == 10 * (d * p + Value(init)) + DigitValue(s[|s| - 1]);
      TensMove(d, p);
    }
  }

  lemma TensMove(d: int, p: int)
    ensures 10 * (d * p) == d * (10 * p)
  {
  }

  lemma ReachingIsAtLeast(a: Amount)
    requires Integral(a)
    ensures forall n: int :: Reaches(n, a) <==> n >= IntegerOf(a)
  {
    IntegerIsTheWorth(a);
  }

  // What a 64-bit integer can hold of it.
  predicate Sendable(a: Amount) {
    Integral(a) && MIN_INT64 <= IntegerOf(a) <= MAX_INT64
  }

  lemma {:induction false} ValueOfLong(s: string, k: nat)
    requires DigitsOnly(s) && |s| > k && s[0] != '0'
    ensures Value(s) >= Pow10(k)
    decreases |s|
  {
    if |s| == 1 {
      assert s[..0] == "";
    } else {
      ValueOfLong(s[..|s| - 1], if k == 0 then 0 else k - 1);
    }
  }

  lemma TooLong(s: string)
    requires DigitsOnly(s) && |s| >= 20 && s[0] != '0'
    ensures Value(s) > MAX_INT64 + 1
  {
    ValueOfLong(s, 19);
    BillionsOfBillions();
  }

  lemma BillionsOfBillions()
    ensures Pow10(19) == 10_000_000_000_000_000_000
  {
    assert Pow10(7) == 10_000_000;
    assert Pow10(13) == 1_000_000 * Pow10(7);
    assert Pow10(19) == 1_000_000 * Pow10(13);
  }

  // An amount that is not whole, or too large, is not printed as an integer of 64 bits.
  lemma AtoiOfBody(negative: bool, body: string)
    requires body != "" && body[0] !in "+-"
    ensures Atoi(Sign(negative) + body) ==
              if !AllDigits(body) then None
              else
                var n: int := if negative then -(Value(body) as int) else Value(body);
                if MIN_INT64 <= n <= MAX_INT64 then Some(n) else None
  {
    var s := Sign(negative) + body;
    assert negative ==> s[0] == '-' && s[1..] == body;
    assert !negative ==> s == body;
  }

  lemma HasOtherThanDigits(digits: string, point: int)
    requires DigitsOnly(digits) && digits != "" && !(|digits| <= point <= 21)
    ensures !AllDigits(Magnitude(digits, point))
  {
    var s := Magnitude(digits, point);
    if 0 < point <= 21 {
      assert s[point] == '.';
    } else if -6 < point <= 0 {
      assert s[1] == '.';
    } else {
      assert s[1] == if |digits| == 1 then 'e' else '.';
    }
  }

  lemma AtoiOfWhole(negative: bool, digits: string, k: nat)
    requires DigitsOnly(digits) && digits != ""
    ensures var n: int := if negative then -(WholeDigits(digits, k) as int) else WholeDigits(digits, k);
            Atoi(Sign(negative) + (digits + Zeros(k))) == if MIN_INT64 <= n <= MAX_INT64 then Some(n) else None
  {
    assert IsDigit(digits[0]);
    AtoiOfBody(negative, digits + Zeros(k));
  }

  lemma AtoiOfOther(a: Amount)
    requires a.Finite? && a.digits != "" && !(|a.digits| <= a.point <= 21)
    ensures Atoi(Printed(a)).None? && !Sendable(a)
  {
    MagnitudeIsANumeral(a.digits, a.point);
    HasOtherThanDigits(a.digits, a.point);
    AtoiOfBody(a.negative, Magnitude(a.digits, a.point));
    if Integral(a) {
      LargeIsNotSent(a);
    }
  }

  lemma LargeIsNotSent(a: Amount)
    requires Integral(a) && a.digits != "" && a.point >= 20
    ensures !Sendable(a)
  {
    TooLong(a.digits + Zeros(a.point - |a.digits|));
  }

  lemma AtoiOfMagnitude(a: Amount)
    requires a.Finite? && a.digits != ""
    ensures Atoi(Printed(a)) == if Sendable(a) then Some(IntegerOf(a)) else None
  {
    if |a.digits| <= a.point <= 21 {
      AtoiOfWhole(a.negative, a.digits, a.point - |a.digits|);
    } else {
      AtoiOfOther(a);
    }
  }

  lemma AtoiOfZero()
    ensures Atoi("0") == Some(0) && Integral(ZERO) && IntegerOf(ZERO) == 0
  {
    AtoiOfBody(false, "0");
    assert Sign(false) + "0" == "0" && "" + Zeros(0) == "";
  }

  // The server's Atoi reads the printed number if and only if it is an integer of 64 bits,
  // and then reads that integer.
  lemma AtoiReadsPrinted(a: Amount)
    ensures Atoi(Printed(a)) == if Sendable(a) then Some(IntegerOf(a)) else None
  {
    match a
    case Infinite(negative) => AtoiOfBody(negative, "Infinity");
    case Finite(_, digits, point) =>
      if digits == "" {
        AtoiOfZero();
      } else {
        AtoiOfMagnitude(a);
      }
  }

  // However short they are to write, numbers of twenty digits or more never reach the server.
  lemma LargeIsLost(a: Amount)
    requires Integral(a) && a.digits != "" && a.point >= 20
    ensures ToNumber(Printed(a)) == Some(a) && Atoi(Printed(a)).None?
  {
    PrintedIsRead(a);
    LargeIsNotSent(a);
    AtoiReadsPrinted(a);
  }

  // 1e20 is whole and printed in plain digits, but it is no 64-bit integer.
  lemma OneE20IsLost()
    ensures var a := Finite(false, "1", 21);
            && Normal(a) && Integral(a) && Printed(a) == "100000000000000000000"
            && ToNumber("100000000000000000000") == Some(a) && Atoi("100000000000000000000").None?
  {
    var a: Amount := Finite(false, "1", 21);
    OneE20IsPrinted(a);
    LargeIsLost(a);
  }

  lemma OneE20IsPrinted(a: Amount)
    requires a.Finite? && !a.negative && a.digits == "1" && a.point == 21
    ensures Printed(a) == "100000000000000000000"
  {
    assert Zeros(20) == "00000000000000000000";
  }
}
