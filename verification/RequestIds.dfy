/** Relay request ids: the clock reading, a dash and a sequence number. */
module RequestIds {
  function Digit(d: nat): char
    requires d < 10
  {
    '0' + d as char
  }

  function Digits(n: nat): (s: string)
    ensures |s| > 0 && forall i :: 0 <= i < |s| ==> '0' <= s[i] <= '9'
  {
    if n < 10 then [Digit(n)] else Digits(n / 10) + [Digit(n % 10)]
  }

  function Decimal(n: int): string {
    if n < 0 then "-" + Digits(-n) else Digits(n)
  }

  function RequestId(clock: int, seqNo: nat): string {
    Decimal(clock) + "-" + Digits(seqNo)
  }

  lemma {:induction false} DigitsInjective(m: nat, n: nat)
    requires Digits(m) == Digits(n)
    ensures m == n
    decreases m + n
  {
    var s := Digits(m);
    assert s[|s| - 1] == Digit(m % 10) == Digit(n % 10);
    assert m % 10 == n % 10;
    if m >= 10 && n >= 10 {
      assert Digits(m / 10) == s[..|s| - 1] == Digits(n / 10);
      DigitsInjective(m / 10, n / 10);
    }
  }

  lemma NoDashAfter(a: string, m: nat)
    ensures var s := a + "-" + Digits(m); forall i :: |a| < i < |s| ==> s[i] != '-'
  {
    var s := a + "-" + Digits(m);
    forall i | |a| < i < |s|
      ensures s[i] != '-'
    {
      assert s[i] == Digits(m)[i - |a| - 1];
    }
  }

  /** The text after the last dash is the sequence number, whatever stands before it. */
  lemma SuffixUnique(a: string, m: nat, b: string, n: nat)
    requires a + "-" + Digits(m) == b + "-" + Digits(n)
    ensures a == b && m == n
  {
    var s := a + "-" + Digits(m);
    NoDashAfter(a, m);
    NoDashAfter(b, n);
    assert s[|a|] == '-' && s[|b|] == '-';
    assert a == s[..|a|] == b;
    assert Digits(m) == s[|a| + 1..] == Digits(n);
    DigitsInjective(m, n);
  }

  /** Distinct sequence numbers give distinct ids, for any clock, even one that runs backwards. */
  lemma RequestIdInjective(c: int, m: nat, d: int, n: nat)
    requires RequestId(c, m) == RequestId(d, n)
    ensures m == n
  {
    SuffixUnique(Decimal(c), m, Decimal(d), n);
  }
}
