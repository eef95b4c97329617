/** Decimal numbers, written and read. */
module Numerals {
  import opened Outcomes

  predicate IsDigit(c: char) {
    '0' <= c <= '9'
  }

  function DigitChar(d: nat): char
    requires d < 10
  {
    ('0' as int + d) as char
  }

  function DigitValue(c: char): nat
    requires IsDigit(c)
  {
    c as int - '0' as int
  }

  function Digits(n: nat): string {
    if n < 10 then [DigitChar(n)] else Digits(n / 10) + [DigitChar(n % 10)]
  }

  function Decimal(i: int): string {
    if i < 0 then "-" + Digits(-i) else Digits(i)
  }

  function ParseDigits(s: string): Option<nat>
    decreases |s|
  {
    if s == "" then Some(0)
    else
      var before := ParseDigits(s[..|s| - 1]);
      if before.Some? && IsDigit(s[|s| - 1]) then Some(10 * before.value + DigitValue(s[|s| - 1])) else None
  }

  const MAX_INT := 0x7fff_ffff_ffff_ffff

  predicate InRange(n: int) {
    -MAX_INT - 1 <= n <= MAX_INT
  }

  /** A signed decimal number that fits an int. */
  function ParseInt(s: string): Option<int> {
    var signed := s != "" && (s[0] == '-' || s[0] == '+');
    var digits := if signed then s[1..] else s;
    if digits == "" then None
    else match ParseDigits(digits)
      case None => None
      case Some(n) =>
        var i: int := n;
        var v := if signed && s[0] == '-' then -i else i;
        if InRange(v) then Some(v) else None
  }

  lemma {:induction false} DigitsParse(n: nat)
    ensures ParseDigits(Digits(n)) == Some(n)
    ensures Digits(n) != "" && forall c :: c in Digits(n) ==> IsDigit(c)
  {
    var last := DigitChar(n % 10);
    assert IsDigit(last) && DigitValue(last) == n % 10;
    if n < 10 {
      assert [last][..0] == "";
    } else {
      DigitsParse(n / 10);
      assert Digits(n)[..|Digits(n)| - 1] == Digits(n / 10);
    }
  }

  /** What can be read holds digits, after at most a sign. */
  lemma {:induction false} ParsedAreDigits(s: string)
    requires ParseDigits(s).Some?
    ensures forall c :: c in s ==> IsDigit(c)
    decreases |s|
  {
    if s != "" {
      ParsedAreDigits(s[..|s| - 1]);
      assert s == s[..|s| - 1] + [s[|s| - 1]];
    }
  }
}
