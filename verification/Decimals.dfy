/** Decimal numerals, as `str` prints and `int` reads them. */
module Decimals {
  import opened Models

  function Digit(d: nat): char
    requires d < 10
  {
    "0123456789"[d]
  }

  function Dec(n: nat): (s: string)
    ensures s != "" && forall i :: 0 <= i < |s| ==> '0' <= s[i] <= '9'
  {
    if n < 10 then [Digit(n)] else Dec(n / 10) + [Digit(n % 10)]
  }

  predicate IsDigit(c: char) {
    '0' <= c <= '9'
  }

  /** The ASCII characters that `str.strip` removes. */
  predicate IsSpace(c: char) {
    c == ' ' || '\t' <= c <= '\r' || 28 as char <= c <= 31 as char
  }

  function Strip(s: string): string {
    if s == "" then ""
    else if IsSpace(s[0]) then Strip(s[1..])
    else if IsSpace(s[|s| - 1]) then Strip(s[..|s| - 1])
    else s
  }

  /** Digits, with single underscores allowed between them. */
  function ParseDigits(s: string): Option<nat> {
    if s == "" || !IsDigit(s[|s| - 1]) then None
    else
      var d := s[|s| - 1] as int - '0' as int;
      if |s| == 1 then Some(d)
      else
        var rest := s[..|s| - 1];
        match ParseDigits(if rest[|rest| - 1] == '_' then rest[..|rest| - 1] else rest)
        case None => None
        case Some(n) => Some(10 * n + d)
  }

  function Sign(c: char): int {
    if c == '-' then -1 else 1
  }

  /** `int(...)` on ASCII text; `None` where it raises. */
  function ParseInt(s: string): Option<int> {
    var t := Strip(s);
    if t == "" then None
    else
      match ParseDigits(if t[0] == '-' || t[0] == '+' then t[1..] else t)
      case None => None
      case Some(n) => Some(Sign(t[0]) * n)
  }

  lemma {:induction false} ParseDigitsDec(n: nat)
    ensures ParseDigits(Dec(n)) == Some(n)
  {
    if n >= 10 {
      ParseDigitsDec(n / 10);
      assert Dec(n)[..|Dec(n)| - 1] == Dec(n / 10);
    }
  }

  lemma ParseDec(n: nat)
    ensures ParseInt(Dec(n)) == Some(n)
  {
    ParseDigitsDec(n);
    assert Strip(Dec(n)) == Dec(n);
  }

  lemma DecIsInjective(m: nat, n: nat)
    requires Dec(m) == Dec(n)
    ensures m == n
  {
    ParseDec(m);
    ParseDec(n);
  }

  function IntText(n: int): string {
    if n < 0 then ['-'] + Dec(-n) else Dec(n)
  }

  lemma ParseMinus(digits: string, n: int)
    requires digits != "" && forall i :: 0 <= i < |digits| ==> IsDigit(digits[i])
    requires ParseDigits(digits).Some? && ParseDigits(digits).value == n
    ensures ParseInt(['-'] + digits).Some? && ParseInt(['-'] + digits).value == -n
  {
    var t := ['-'] + digits;
    assert t[|t| - 1] == digits[|digits| - 1];
    assert Strip(t) == t && t[1..] == digits;
  }

  /** The id that a client sends in its header is the id that the server reads. */
  lemma HeaderRoundTrip(n: int)
    ensures ParseInt(IntText(n)) == Some(n)
  {
    if n < 0 {
      ParseDigitsDec(-n);
      ParseMinus(Dec(-n), -n);
    } else {
      ParseDec(n);
    }
  }
}
