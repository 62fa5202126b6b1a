/** Decimal printing of non-negative integers, as strconv.Itoa and %d print them. */
module Decimal {

  function DigitChar(n: nat): char
    requires n < 10
  {
    '0' + n as char
  }

  function DigitValue(c: char): nat {
    if '0' <= c <= '9' then c as nat - '0' as nat else 0
  }

  function Itoa(n: nat): string {
    if n < 10 then [DigitChar(n)] else Itoa(n / 10) + [DigitChar(n % 10)]
  }

  /** Reads a string of digits back, most significant digit first. */
  function Value(s: string): nat {
    if s == [] then 0 else 10 * Value(s[..|s| - 1]) + DigitValue(s[|s| - 1])
  }

  /** Digits only, at least one, and no superfluous leading zero. */
  predicate Canonical(s: string) {
    && s != []
    && (forall i | 0 <= i < |s| :: '0' <= s[i] <= '9')
    && (s[0] == '0' ==> |s| == 1)
  }

  lemma {:induction false} ItoaRoundTrip(n: nat)
    ensures Value(Itoa(n)) == n
    ensures Canonical(Itoa(n))
    ensures Itoa(n)[0] == '0' ==> n == 0
  {
    if n >= 10 {
      ItoaRoundTrip(n / 10);
      assert Itoa(n)[..|Itoa(n)| - 1] == Itoa(n / 10);
    } else {
      assert Value([]) == 0;
      assert Itoa(n)[..0] == [];
    }
  }

  lemma ItoaStep(a: nat, d: nat)
    requires a > 0 && d < 10
    ensures Itoa(10 * a + d) == Itoa(a) + [DigitChar(d)]
  {
    assert (10 * a + d) / 10 == a && (10 * a + d) % 10 == d;
  }

  lemma FrontCanonical(s: string)
    requires Canonical(s) && |s| > 1
    ensures Canonical(s[..|s| - 1]) && s[0] != '0' && s[..|s| - 1][0] == s[0]
  {
  }

  lemma {:induction false} ValueRoundTrip(s: string)
    requires Canonical(s)
    ensures Itoa(Value(s)) == s
    ensures s[0] != '0' ==> Value(s) > 0
  {
    var rest, last := s[..|s| - 1], s[|s| - 1];
    assert DigitChar(DigitValue(last)) == last;
    assert Value(s) == 10 * Value(rest) + DigitValue(last);
    if rest == [] {
      assert s == [last];
    } else {
      FrontCanonical(s);
      ValueRoundTrip(rest);
      ItoaStep(Value(rest), DigitValue(last));
      assert s == rest + [last];
    }
  }

  lemma ItoaInjective(m: nat, n: nat)
    requires Itoa(m) == Itoa(n)
    ensures m == n
  {
    ItoaRoundTrip(m);
    ItoaRoundTrip(n);
  }
}
