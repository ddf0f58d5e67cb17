// Decimal numerals: how integers are printed (Go's strconv.Itoa, JavaScript's String) and
// read back (Go's strconv.Atoi).
module Decimal {
  import opened Wrappers

  const MIN_INT64: int := -0x8000_0000_0000_0000
  const MAX_INT64: int := 0x7fff_ffff_ffff_ffff

  predicate IsDigit(c: char) {
    '0' <= c <= '9'
  }

  predicate AllDigits(s: string) {
    s != [] && forall i :: 0 <= i < |s| ==> IsDigit(s[i])
  }

  function DigitValue(c: char): nat
    requires IsDigit(c)
  {
    c as int - '0' as int
  }

  function Digits(n: nat): string {
    var last := ['0' + (n % 10) as char];
    if n < 10 then last else Digits(n / 10) + last
  }

  function Itoa(n: int): string {
    if n < 0 then "-" + Digits(-n) else Digits(n)
  }

  function Value(s: string): nat
    requires forall i :: 0 <= i < |s| ==> IsDigit(s[i])
  {
    if s == [] then 0 else 10 * Value(s[..|s| - 1]) + DigitValue(s[|s| - 1])
  }

  // An optional sign, at least one digit, and a value that fits in 64 bits.
  function Atoi(s: string): Option<int> {
    var body := if s != [] && s[0] in "+-" then s[1..] else s;
    if !AllDigits(body) then None
    else
      var n: int := if s[0] == '-' then 0 - Value(body) as int else Value(body);
      if MIN_INT64 <= n <= MAX_INT64 then Some(n) else None
  }

  lemma {:induction false} DigitsRoundTrip(n: nat)
    ensures AllDigits(Digits(n)) && Value(Digits(n)) == n
  {
    var last := ['0' + (n % 10) as char];
    if n < 10 {
      assert Digits(n) == last && last[..0] == [];
    } else {
      DigitsRoundTrip(n / 10);
      assert Digits(n)[..|Digits(n)| - 1] == Digits(n / 10);
    }
  }

  lemma SignedDigits(n: nat)
    requires n <= MAX_INT64 + 1
    ensures n <= MAX_INT64 ==> Atoi(Digits(n)) == Some(n)
    ensures Atoi("-" + Digits(n)) == Some(0 - n)
  {
    var s := "-" + Digits(n);
    DigitsRoundTrip(n);
    assert IsDigit(Digits(n)[0]);
    assert s[0] == '-' && s[1..] == Digits(n);
  }

  // Reading a printed integer gives it back.
  lemma AtoiReadsItoa(n: int)
    requires MIN_INT64 <= n <= MAX_INT64
    ensures Atoi(Itoa(n)) == Some(n)
  {
    SignedDigits(if n < 0 then -n else n);
  }
}
