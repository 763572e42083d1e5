/**
 Arithmetic on machine words, modulo 2^32.

 Each lemma about bits unfolds one operation, so that the others stay symbols.
 */
module Words {
  import opened Machine

  lemma AddRotates(k: bv32, x: bv32, c: bv32)
    ensures (k + x) + c == x + (c + k)
  {
  }

  lemma SumLeft(u: bv32, k: bv32, x: bv32, c: bv32)
    requires u == k + x
    ensures Sum(u, c) == (k + x) + c
  {
  }

  lemma SumRight(u: bv32, k: bv32, x: bv32, c: bv32)
    requires u == k + x
    ensures Sum(c, u) == c + (k + x)
  {
  }

  lemma SumRotates(k: bv32, x: bv32, c: bv32)
    ensures Sum(Sum(k, x), c) == Sum(x, Sum(c, k))
  {
    SumLeft(k + x, k, x, c);
    SumRight(c + k, c, k, x);
    AddRotates(k, x, c);
  }

  lemma OffsetMoves(k: Word, x: Word, c: Word)
    ensures Indexed(Alu(Add, k, x), c) == Indexed(x, Indexed(c, k))
  {
    hide Sum;
    SumRotates(k.bits, x.bits, c.bits);
  }

  lemma DiffSum(u: bv32, a: bv32, x: bv32)
    requires u == a + x
    ensures Difference(u, x) == a
  {
  }

  lemma SumDiff(u: bv32, a: bv32, x: bv32)
    requires u == a - x
    ensures Sum(u, x) == a
  {
  }

  lemma DifferenceSum(a: bv32, x: bv32)
    ensures Difference(Sum(a, x), x) == a
  {
    DiffSum(a + x, a, x);
  }

  lemma SumDifference(a: bv32, x: bv32)
    ensures Sum(Difference(a, x), x) == a
  {
    SumDiff(a - x, a, x);
  }

  /** Subtracting before comparing is adding to what is compared with, modulo 2^32. */
  lemma SubtractEquals(a: Word, x: Word, y: Word)
    ensures Alu(Sub, a, x) == y <==> a == Alu(Add, y, x)
  {
    hide Sum, Difference;
    DifferenceSum(y.bits, x.bits);
    SumDifference(a.bits, x.bits);
  }

  /** x - y is zero exactly if x is y. */
  lemma SubtractZero(a: Word, x: Word)
    ensures Alu(Sub, a, x) == ZERO <==> a == x
  {
    SubtractEquals(a, x, ZERO);
    ZeroSum(x.bits);
    hide Sum, Difference;
  }

  lemma ZeroSum(x: bv32)
    ensures Sum(0, x) == x
  {
  }

  lemma OnesMask(a: bv32)
    ensures Both(a, 0xffff_ffff) == a && Both(a, 0) == 0
  {
  }

  /** Adding changes a word exactly if what is added is not zero. */
  lemma AddChanges(k: Word, x: Word)
    ensures Alu(Add, k, x) == x <==> k == ZERO
  {
    hide Sum, Difference;
    DifferenceSum(k.bits, x.bits);
    NoDifference(x.bits);
    ZeroSum(x.bits);
  }

  lemma NoDifference(x: bv32)
    ensures Difference(x, x) == 0
  {
  }

  /** Adding what was subtracted gives back the word. */
  lemma AddBack(a: Word, x: Word)
    ensures Alu(Add, Alu(Sub, a, x), x) == a
  {
    hide Sum, Difference;
    SumDifference(a.bits, x.bits);
  }

  lemma SumZero(a: Word)
    ensures Alu(Add, a, ZERO) == a
  {
  }

  /** Masking twice is masking once. */
  lemma MaskTwice(a: bv32, k: bv32)
    ensures Both(Both(a, k), k) == Both(a, k)
  {
    BothBoth(a & k, a, k);
  }

  lemma BothBoth(u: bv32, a: bv32, k: bv32)
    requires u == a & k
    ensures Both(u, k) == u
  {
  }

  lemma DiffLeft(u: bv32, a: bv32, c: bv32)
    requires u == a + c
    ensures Difference(u, a) == c
  {
  }

  lemma SumLess(a: bv32, c: bv32)
    ensures Difference(Sum(a, c), a) == c
  {
    DiffLeft(a + c, a, c);
  }

  lemma SumCancels(a: bv32, c: bv32, d: bv32)
    requires Sum(a, c) == Sum(a, d)
    ensures c == d
  {
    hide Sum, Difference;
    SumLess(a, c);
    SumLess(a, d);
  }

  /** Sums with different words are different. */
  lemma SumInjective(a: Word, c: Word, d: Word)
    ensures Alu(Add, a, c) == Alu(Add, a, d) <==> c == d
  {
    hide Sum, Difference;
    if Alu(Add, a, c) == Alu(Add, a, d) { SumCancels(a.bits, c.bits, d.bits); }
  }

  /** The quotient is what the number is made of. */
  lemma QuotientIs(n: nat, d: nat, q: nat, r: nat)
    requires d > 0 && n == q * d + r && r < d
    ensures n / d == q && n % d == r
  {
    var k := n / d;
    assert n == k * d + n % d;
    if k < q { Farther(k, q, d); }
    if q < k { Farther(q, k, d); }
  }

  lemma Farther(i: nat, j: nat, d: nat)
    requires i < j
    ensures i * d + d <= j * d
  {
    assert j * d == (i + 1) * d + (j - i - 1) * d;
  }
}
