/** The decimal text in which a server sends an id: `snprintf("%d")` one way, `atoi` the other. */
module Numerals {

  function Digit(d: nat): char
    requires d < 10
  {
    '0' + d as char
  }

  predicate IsDigit(c: char) {
    '0' <= c <= '9'
  }

  function Decimal(n: nat): (s: string)
    ensures forall c :: c in s ==> IsDigit(c)
  {
    if n < 10 then [Digit(n)] else Decimal(n / 10) + [Digit(n % 10)]
  }

  /** `atoi` of a text without blanks or a sign: the digits up to the first other character. */
  function Atoi(s: string, value: nat := 0): nat {
    if s == "" || !IsDigit(s[0]) then value
    else Atoi(s[1..], 10 * value + (s[0] as nat - '0' as nat))
  }

  lemma {:induction false} AtoiAppend(s: string, t: string, value: nat)
    requires forall c :: c in s ==> IsDigit(c)
    ensures Atoi(s + t, value) == Atoi(t, Atoi(s, value))
  {
    if s == "" {
      assert s + t == t;
    } else {
      assert (s + t)[1..] == s[1..] + t;
      assert s[0] in s;
      AtoiAppend(s[1..], t, 10 * value + (s[0] as nat - '0' as nat));
    }
  }

  /** The id survives the trip through its text. */
  lemma {:induction false} AtoiDecimal(n: nat)
    ensures Atoi(Decimal(n)) == n
  {
    if n >= 10 {
      AtoiDecimal(n / 10);
      AtoiAppend(Decimal(n / 10), [Digit(n % 10)], 0);
      assert [Digit(n % 10)][1..] == "";
    } else {
      assert Decimal(n)[1..] == "";
    }
  }
}
