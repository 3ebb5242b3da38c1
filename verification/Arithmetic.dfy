// Integer facts that several models share.
module Arithmetic {
  function Min(a: int, b: int): int {
    if a <= b then a else b
  }

  function Max(a: int, b: int): int {
    if a >= b then a else b
  }

  lemma Scale(a: nat, b: nat, d: nat)
    requires a <= b
    ensures a * d <= b * d
  {
  }

  // The two digits of a mixed-radix number are read back by division.
  lemma Digits(a: nat, b: nat, d: nat)
    requires b < d
    ensures (a * d + b) / d == a && (a * d + b) % d == b
  {
    var n := a * d + b;
    assert n == (n / d) * d + n % d;
    if n / d < a {
      Scale(n / d + 1, a, d);
    } else if n / d > a {
      Scale(a + 1, n / d, d);
    }
  }

  lemma DigitsInjective(a: nat, b: nat, a': nat, b': nat, d: nat)
    requires b < d && b' < d && a * d + b == a' * d + b'
    ensures a == a' && b == b'
  {
    Digits(a, b, d);
    Digits(a', b', d);
  }
}
