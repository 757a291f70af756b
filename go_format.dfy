/**
  The pieces of Go's formatting and integer arithmetic the connection strings
  rely on: the `%d` and `%t` verbs, and `/` on integers, which truncates
  toward zero (Dafny's `/` is Euclidean).
*/
module GoFormat {
  import opened Wrappers

  predicate IsDigit(c: char) {
    '0' <= c <= '9'
  }

  predicate AllDigits(s: string) {
    forall i :: 0 <= i < |s| ==> IsDigit(s[i])
  }

  function DigitChar(d: nat): (c: char)
    requires d < 10
    ensures IsDigit(c) && c as int - '0' as int == d
  {
    ('0' as int + d) as char
  }

  /** Decimal digits of a natural number, most significant first, without leading zeros. */
  function Digits(n: nat): (s: string)
    ensures |s| >= 1 && AllDigits(s)
    ensures (s[0] == '0') <==> n == 0
    decreases n
  {
    if n < 10 then [DigitChar(n)] else Digits(n / 10) + [DigitChar(n % 10)]
  }

  /** The value of a string of decimal digits. */
  function DigitsValue(s: string): nat
    requires AllDigits(s)
    decreases |s|
  {
    if |s| == 0 then 0 else DigitsValue(s[..|s| - 1]) * 10 + (s[|s| - 1] as int - '0' as int)
  }

  /** Go's `%d` verb applied to a signed integer. */
  function Itoa(n: int): (s: string)
    ensures |s| >= 1
    ensures forall i :: 0 <= i < |s| ==> IsDigit(s[i]) || (i == 0 && s[i] == '-')
    ensures (s[0] == '-') <==> n < 0
  {
    if n < 0 then "-" + Digits(-n) else Digits(n)
  }

  /** Reads back what `Itoa` writes: an optional minus sign followed by at least one digit. */
  function Atoi(s: string): Option<int> {
    if |s| >= 2 && s[0] == '-' && AllDigits(s[1..]) then Some(-(DigitsValue(s[1..]) as int))
    else if |s| >= 1 && AllDigits(s) then Some(DigitsValue(s))
    else None
  }

  /** Go's `%t` verb. */
  function FormatBool(b: bool): string {
    if b then "true" else "false"
  }

  /** Go's `ms / 1000` on `int`: the quotient truncated toward zero. */
  function TruncDiv1000(ms: int): (q: int)
    ensures -1000 < ms - q * 1000 < 1000
    ensures ms >= 0 ==> ms - q * 1000 >= 0
    ensures ms <= 0 ==> ms - q * 1000 <= 0
  {
    if ms >= 0 then ms / 1000 else -((-ms) / 1000)
  }

  lemma {:induction false} DigitsRoundTrip(n: nat)
    ensures DigitsValue(Digits(n)) == n
    decreases n
  {
    if n >= 10 {
      DigitsRoundTrip(n / 10);
      var s := Digits(n);
      assert s[..|s| - 1] == Digits(n / 10);
    }
  }

  /** `%d` followed by parsing gives the number back. */
  lemma AtoiItoa(n: int)
    ensures Atoi(Itoa(n)) == Some(n)
  {
    if n < 0 {
      var s := Itoa(n);
      assert s[1..] == Digits(-n);
      DigitsRoundTrip(-n);
    } else {
      DigitsRoundTrip(n);
    }
  }

  /**
    Go's quotient against Dafny's Euclidean one: they agree on non-negative
    dividends and on multiples of 1000, and otherwise Go's is one larger.
  */
  lemma TruncDivContraEuclidea(ms: int)
    ensures ms >= 0 || ms % 1000 == 0 ==> TruncDiv1000(ms) == ms / 1000
    ensures ms < 0 && ms % 1000 != 0 ==> TruncDiv1000(ms) == ms / 1000 + 1
  {
  }
}
