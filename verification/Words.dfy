/** 64-bit machine words. Timestamps and clock offsets are plain integers below 2^64 whose
    additions and subtractions wrap; `Signed` is the two's-complement reading of a word. */
module Words {
  const TWO32: int := 0x1_0000_0000
  const TWO63: int := 0x8000_0000_0000_0000
  const TWO64: int := 0x1_0000_0000_0000_0000

  type Word = n: int | 0 <= n < TWO64

  function Wrap(n: int): Word {
    n % TWO64
  }

  function Add(a: Word, b: Word): Word {
    Wrap(a + b)
  }

  function Sub(a: Word, b: Word): Word {
    Wrap(a - b)
  }

  function Neg(a: Word): Word {
    Wrap(0 - a)
  }

  // A word and its negation add up to zero; the signed readings differ in sign, but for -2^63.
  lemma NegCancels(a: Word)
    ensures Add(a, Neg(a)) == 0
    ensures a != TWO63 ==> Signed(Neg(a)) == -Signed(a)
  {
    assert Neg(a) == if a == 0 then 0 else TWO64 - a;
  }

  function Signed(w: Word): int {
    if w < TWO63 then w else w - TWO64
  }

  // A wrapped value reads back as itself exactly when it fits a signed 64-bit word.
  lemma SignedOfWrap(n: int)
    ensures Signed(Wrap(n)) == n <==> -TWO63 <= n < TWO63
  {
    if -TWO63 <= n < 0 {
      assert Wrap(n) == n + TWO64;
    }
  }

  lemma WrapOfSigned(w: Word)
    ensures Wrap(Signed(w)) == w
  {
  }

  // Wrapping early or late makes no difference to a sum.
  lemma WrapAdd(a: int, b: int)
    ensures Wrap(Wrap(a) + b) == Wrap(a + b) && Wrap(b + Wrap(a)) == Wrap(b + a)
  {
    var q := a / TWO64;
    assert Wrap(a) == a - q * TWO64;
    SameResidue(Wrap(a) + b, a + b, q);
  }

  lemma WrapSub(a: int, b: int)
    ensures Wrap(a - Wrap(b)) == Wrap(a - b)
  {
    var q := b / TWO64;
    assert Wrap(b) == b - q * TWO64;
    SameResidue(a - b, a - Wrap(b), q);
  }

  lemma SameResidue(a: int, b: int, q: int)
    requires b == a + q * TWO64
    ensures Wrap(a) == Wrap(b)
  {
    assert b == TWO64 * (q + a / TWO64) + a % TWO64;
    assert b / TWO64 == q + a / TWO64;
  }
}
