/**
 What the machine's operations do to the numbers that words stand for.

 Bits and numbers are kept apart. A lemma about bits is about bits only; what it means for numbers follows by
 induction, with the operations on bits hidden.
 */
module Numerals {
  import opened Machine
  import Words

  const WORDS: nat := 0x1_0000_0000

  function Inc(w: Word): Word { Word(w.bits + 1) }
  function Dec(w: Word): Word { Word(w.bits - 1) }
  predicate Less(v: Word, w: Word) { v.bits < w.bits }
  const FULL: Word := Word(0xffff_ffff)

  function Low(w: Word): nat {
    if Odd(w) then 1 else 0
  }

  lemma HalfIs(x: bv32, h: bv32)
    requires h == x >> 1
    ensures Half(Word(x)) == Word(h)
  {
  }

  lemma OddIs(x: bv32)
    ensures Odd(Word(x)) <==> x & 1 == 1
  {
  }

  lemma HalfOfZero()
    ensures Half(ZERO) == ZERO && !Odd(ZERO)
  {
  }

  lemma NumberHalf(w: Word)
    ensures Number(w) == 2 * Number(Half(w)) + Low(w)
    ensures Number(Half(w)) == Number(w) / 2 && Low(w) == Number(w) % 2
  {
    hide Half, Odd;
    HalfOfZero();
  }

  // ---------------------------------------------------------------------------------------
  // Counting
  // ---------------------------------------------------------------------------------------

  lemma IncBits(w: Word)
    requires w != FULL
    ensures Odd(w) ==> Half(Inc(w)) == Inc(Half(w)) && !Odd(Inc(w)) && Half(w) != FULL
    ensures !Odd(w) ==> Half(Inc(w)) == Half(w) && Odd(Inc(w))
  {
  }

  /** The next word stands for the next number. */
  lemma {:induction false} NumberInc(w: Word)
    requires w != FULL
    ensures Number(Inc(w)) == Number(w) + 1
    decreases Number(w)
  {
    hide Half, Odd, Inc, FULL, Number;
    IncBits(w);
    NumberHalf(w);
    NumberHalf(Inc(w));
    if Odd(w) { NumberInc(Half(w)); }
  }

  lemma DecBits(w: Word)
    requires w != ZERO
    ensures Inc(Dec(w)) == w && Dec(w) != FULL
  {
  }

  lemma NumberDec(w: Word)
    requires w != ZERO
    ensures Number(w) == Number(Dec(w)) + 1
  {
    hide Inc, Dec, FULL, Number, ZERO;
    DecBits(w);
    NumberInc(Dec(w));
  }

  lemma NumberZero(w: Word)
    ensures Number(w) == 0 <==> w == ZERO
  {
    hide Dec, ZERO;
    if w != ZERO { NumberDec(w); }
  }

  // ---------------------------------------------------------------------------------------
  // Order
  // ---------------------------------------------------------------------------------------

  lemma HalfLess(v: Word, w: Word)
    requires Less(Half(v), Half(w))
    ensures Less(v, w)
  {
  }

  lemma LessOneWay(v: Word, w: Word)
    requires Less(v, w)
    ensures !Less(w, v) && v != w
  {
  }

  lemma HalfEqual(v: Word, w: Word)
    requires Half(v) == Half(w)
    ensures Odd(v) == Odd(w) ==> v == w
    ensures !Odd(v) && Odd(w) ==> Less(v, w)
  {
  }

  lemma ZeroLeast(w: Word)
    ensures (Less(ZERO, w) <==> w != ZERO) && !Less(w, ZERO)
  {
  }

  /** The words and the numbers they stand for compare alike. */
  ghost predicate Alike(v: Word, w: Word) {
    && (Less(v, w) <==> Number(v) < Number(w)) && (Less(w, v) <==> Number(w) < Number(v))
    && (v == w <==> Number(v) == Number(w))
  }

  lemma LessAlike(v: Word, w: Word)
    requires Less(v, w) && Number(v) < Number(w)
    ensures Alike(v, w) && Alike(w, v)
  {
    hide Less, Number;
    LessOneWay(v, w);
  }

  lemma EqualAlike(w: Word)
    ensures Alike(w, w)
  {
    hide Less, Number;
    if Less(w, w) { LessOneWay(w, w); }
  }

  lemma HalvesAlike(v: Word, w: Word)
    requires Half(v) == Half(w)
    ensures Alike(v, w)
  {
    hide Half, Odd, Less, Number, Alike;
    NumberHalf(v);
    NumberHalf(w);
    HalfEqual(v, w);
    HalfEqual(w, v);
    if Odd(v) == Odd(w) { EqualAlike(v); } else if Odd(v) { LessAlike(w, v); } else { LessAlike(v, w); }
  }

  lemma HalfLessAlike(v: Word, w: Word)
    requires Alike(Half(v), Half(w)) && Number(Half(v)) < Number(Half(w))
    ensures Alike(v, w) && Alike(w, v)
  {
    hide Half, Odd, Less, Number;
    NumberHalf(v);
    NumberHalf(w);
    HalfLess(v, w);
    hide Alike;
    LessAlike(v, w);
  }

  lemma AlikeBack(v: Word, w: Word)
    requires Alike(v, w)
    ensures Alike(w, v)
  {
    hide Less, Number;
  }

  /** Larger words stand for larger numbers, and different words for different numbers. */
  lemma {:induction false} NumberOrder(v: Word, w: Word)
    ensures Alike(v, w)
    decreases Number(v)
  {
    hide Half, Odd, Less, Number, ZERO, Alike;
    if v == ZERO {
      ZeroAlike(w);
    } else {
      NumberHalf(v);
      NumberZero(v);
      NumberOrder(Half(v), Half(w));
      if Number(Half(v)) < Number(Half(w)) {
        HalfLessAlike(v, w);
      } else if Number(Half(w)) < Number(Half(v)) {
        AlikeBack(Half(v), Half(w));
        HalfLessAlike(w, v);
      } else {
        AlikeSame(Half(v), Half(w));
        HalvesAlike(v, w);
      }
    }
  }

  lemma AlikeSame(v: Word, w: Word)
    requires Alike(v, w) && Number(v) == Number(w)
    ensures v == w
  {
  }

  lemma ZeroAlike(w: Word)
    ensures Alike(ZERO, w)
  {
    hide Less, Number, ZERO;
    ZeroLeast(w);
    NumberZero(w);
    NumberZero(ZERO);
  }

  // ---------------------------------------------------------------------------------------
  // Range
  // ---------------------------------------------------------------------------------------

  /** All but the lowest four bits, and the lowest four. */
  function Drop4(w: Word): Word {
    Half(Half(Half(Half(w))))
  }

  function Low4(w: Word): (n: nat)
    ensures n < 16
  {
    Low(w) + 2 * Low(Half(w)) + 4 * Low(Half(Half(w))) + 8 * Low(Half(Half(Half(w))))
  }

  lemma NumberDrop4(w: Word)
    ensures Number(w) == 16 * Number(Drop4(w)) + Low4(w)
  {
    hide Half, Low, Number;
    NumberHalf(w);
    NumberHalf(Half(w));
    NumberHalf(Half(Half(w)));
    NumberHalf(Half(Half(Half(w))));
  }

  lemma FullDigit(v: Word, w: Word)
    requires Drop4(v) == w && Odd(v) && Odd(Half(v)) && Odd(Half(Half(v))) && Odd(Half(Half(Half(v))))
    ensures Number(v) == 16 * Number(w) + 15
  {
    hide Half, Number, Odd, Drop4;
    NumberDrop4(v);
  }

  lemma FullNumber()
    ensures Number(FULL) == WORDS - 1
  {
    hide Number;
    NumberZero(ZERO);
    FullDigit(Word(0xf), ZERO);
    FullDigit(Word(0xff), Word(0xf));
    FullDigit(Word(0xfff), Word(0xff));
    FullDigit(Word(0xffff), Word(0xfff));
    FullDigit(Word(0xf_ffff), Word(0xffff));
    FullDigit(Word(0xff_ffff), Word(0xf_ffff));
    FullDigit(Word(0xfff_ffff), Word(0xff_ffff));
    FullDigit(FULL, Word(0xfff_ffff));
  }

  lemma FullMost(w: Word)
    ensures !Less(FULL, w)
  {
  }

  lemma NumberRange(w: Word)
    ensures Number(w) < WORDS && (w == FULL <==> Number(w) == WORDS - 1)
  {
    hide Number, Less;
    FullNumber();
    FullMost(w);
    NumberOrder(w, FULL);
  }

  lemma AppendBits(w: Word, odd: bool)
    requires Less(w, Word(0x8000_0000))
    ensures Half(Append(w, odd)) == w && Odd(Append(w, odd)) == odd
  {
  }

  lemma TopBit()
    ensures Number(Word(0x8000_0000)) == 0x8000_0000
  {
    hide Number;
    FullNumber();
    NumberHalf(FULL);
    assert Half(FULL) == Word(0x7fff_ffff) && Odd(FULL) && Inc(Word(0x7fff_ffff)) == Word(0x8000_0000);
    NumberInc(Word(0x7fff_ffff));
  }

  /** Every number below 2^32 has a word. */
  lemma {:induction false} NumeralNumber(n: nat)
    requires n < WORDS
    ensures Number(Numeral(n)) == n
  {
    hide Number, Append, Less;
    if n == 0 {
      NumberZero(ZERO);
    } else {
      var w, odd := Numeral(n / 2), n % 2 == 1;
      NumeralNumber(n / 2);
      TopBit();
      NumberOrder(w, Word(0x8000_0000));
      AppendBits(w, odd);
      NumberHalf(Append(w, odd));
    }
  }

  /** Each operation on words, in terms of its operation on bits. */
  lemma AluBits(a: Word, b: Word)
    ensures Alu(Add, a, b) == Word(Sum(a.bits, b.bits)) && Alu(Sub, a, b) == Word(Difference(a.bits, b.bits))
    ensures Alu(Mul, a, b) == Word(Product(a.bits, b.bits)) && Alu(And, a, b) == Word(Both(a.bits, b.bits))
    ensures Alu(Or, a, b) == Word(Either(a.bits, b.bits)) && Alu(Xor, a, b) == Word(OneOf(a.bits, b.bits))
    ensures Alu(Lsh, a, b) == Word(Left(a.bits, b.bits)) && Alu(Rsh, a, b) == Word(Right(a.bits, b.bits))
    ensures Alu(Div, a, b) == Quotient(a, b) && Alu(Mod, a, b) == Remainder(a, b)
  {
    hide Sum, Difference, Product, Quotient, Remainder, Both, Either, OneOf, Left, Right;
  }

  // ---------------------------------------------------------------------------------------
  // Sums, differences and products
  // ---------------------------------------------------------------------------------------

  lemma ModInc(n: nat)
    ensures (n + 1) % WORDS == if n % WORDS == WORDS - 1 then 0 else n % WORDS + 1
  {
  }

  lemma ModSum(m: nat, k: nat)
    ensures (m % WORDS + k) % WORDS == (m + k) % WORDS
  {
  }

  lemma IncFull()
    ensures Inc(FULL) == ZERO
  {
  }

  /** Counting goes round. */
  lemma NumberNext(w: Word, n: nat)
    requires Number(w) == n % WORDS
    ensures Number(Inc(w)) == (n + 1) % WORDS
  {
    hide Inc, FULL, Number, ZERO;
    ModInc(n);
    NumberRange(w);
    if w == FULL {
      IncFull();
      NumberZero(ZERO);
    } else {
      NumberInc(w);
    }
  }

  lemma SumBits(x: bv32, y: bv32)
    ensures Sum(x, y) == (x + (y - 1)) + 1
  {
  }

  lemma SumOf(x: bv32, y: bv32, u: bv32, v: bv32)
    requires u == y - 1 && v == x + (y - 1)
    ensures Sum(x, u) == v && Inc(Word(v)) == Word(x + (y - 1) + 1)
  {
  }

  lemma SumStep(a: Word, b: Word)
    ensures Alu(Add, a, ZERO) == a && Alu(Add, a, b) == Inc(Alu(Add, a, Dec(b)))
  {
    hide Alu, Sum, Inc;
    Words.SumZero(a);
    AluBits(a, b);
    AluBits(a, Dec(b));
    SumBits(a.bits, b.bits);
    SumOf(a.bits, b.bits, b.bits - 1, a.bits + (b.bits - 1));
  }

  lemma {:induction false} NumberSum(a: Word, b: Word)
    ensures Number(Alu(Add, a, b)) == (Number(a) + Number(b)) % WORDS
    decreases Number(b)
  {
    hide Inc, Dec, Number, ZERO, Alu;
    SumStep(a, b);
    NumberZero(b);
    if b == ZERO {
      NumberRange(a);
    } else {
      NumberDec(b);
      NumberSum(a, Dec(b));
      NumberNext(Alu(Add, a, Dec(b)), Number(a) + Number(Dec(b)));
    }
  }

  lemma ModDifference(a: nat, b: nat, d: nat)
    requires a < WORDS && b < WORDS && d < WORDS && a == (d + b) % WORDS
    ensures d == (a - b) % WORDS
  {
    assert d + b < WORDS ==> a == d + b;
    assert d + b >= WORDS ==> a == d + b - WORDS;
  }

  lemma NumberDifference(a: Word, b: Word)
    ensures Number(Alu(Sub, a, b)) == (Number(a) - Number(b)) % WORDS
  {
    hide Number, Alu;
    var d := Alu(Sub, a, b);
    Words.AddBack(a, b);
    NumberSum(d, b);
    NumberRange(a);
    NumberRange(b);
    NumberRange(d);
    ModDifference(Number(a), Number(b), Number(d));
  }

  lemma ProductBits(x: bv32, y: bv32)
    ensures Product(x, y) == x * (y - 1) + x && Product(x, 0) == 0
  {
  }

  lemma ProductOf(x: bv32, y: bv32, u: bv32, v: bv32)
    requires u == y - 1 && v == x * (y - 1)
    ensures Product(x, u) == v && Sum(v, x) == x * (y - 1) + x
  {
  }

  lemma ProductStep(a: Word, b: Word)
    ensures Alu(Mul, a, ZERO) == ZERO && Alu(Mul, a, b) == Alu(Add, Alu(Mul, a, Dec(b)), a)
  {
    hide Alu, Sum, Product;
    AluBits(a, ZERO);
    AluBits(a, b);
    AluBits(a, Dec(b));
    ProductBits(a.bits, b.bits);
    ProductOf(a.bits, b.bits, b.bits - 1, a.bits * (b.bits - 1));
    AluBits(Alu(Mul, a, Dec(b)), a);
  }

  lemma {:induction false} NumberProduct(a: Word, b: Word)
    ensures Number(Alu(Mul, a, b)) == (Number(a) * Number(b)) % WORDS
    decreases Number(b)
  {
    hide Dec, Number, ZERO, Alu;
    ProductStep(a, b);
    NumberZero(b);
    if b == ZERO {
    } else {
      var p := Alu(Mul, a, Dec(b));
      NumberDec(b);
      NumberProduct(a, Dec(b));
      NumberSum(p, a);
      OneMore(Number(a), Number(Dec(b)), Number(p));
    }
  }

  lemma OneMore(m: nat, n: nat, p: nat)
    requires p == (m * n) % WORDS
    ensures (p + m) % WORDS == (m * (n + 1)) % WORDS
  {
    ModSum(m * n, m);
  }

  lemma NegateIs(a: Word)
    ensures Negate(a) == Alu(Sub, ZERO, a)
  {
    hide Alu;
    AluBits(ZERO, a);
  }

  /** The negative of a word stands for what is missing to 2^32. */
  lemma NumberNegate(a: Word)
    ensures Number(Negate(a)) == (0 - Number(a)) % WORDS
  {
    hide Number, Alu, Negate, ZERO;
    NegateIs(a);
    NumberZero(ZERO);
    NumberDifference(ZERO, a);
    NumberRange(a);
  }

  // ---------------------------------------------------------------------------------------
  // Quotients and remainders
  // ---------------------------------------------------------------------------------------

  lemma QuotientFits(n: nat, d: nat)
    requires d > 0
    ensures n / d <= n && n % d < d && n == n / d * d + n % d
  {
    assert n == n / d * d + n % d;
    NotLess(n / d, d);
  }

  lemma NotLess(q: nat, d: nat)
    requires d > 0
    ensures q <= q * d
  {
  }

  lemma NumberQuotient(a: Word, b: Word)
    requires Number(b) > 0
    ensures Number(Alu(Div, a, b)) == Number(a) / Number(b) && Number(Alu(Mod, a, b)) == Number(a) % Number(b)
  {
    hide Number, Numeral, Alu;
    AluBits(a, b);
    NumberRange(a);
    NumberRange(b);
    QuotientFits(Number(a), Number(b));
    NumeralNumber(Number(a) / Number(b));
    NumeralNumber(Number(a) % Number(b));
  }

  // ---------------------------------------------------------------------------------------
  // Single bits
  // ---------------------------------------------------------------------------------------

  /** Bit i, counted from the lowest. */
  predicate Bit(w: Word, i: nat)
    decreases i
  {
    if i == 0 then Odd(w) else Bit(Half(w), i - 1)
  }

  lemma BothBits(x: bv32, y: bv32, z: bv32, u: bv32, v: bv32)
    requires z == Both(x, y) && u == x >> 1 && v == y >> 1
    ensures z >> 1 == Both(u, v) && (z & 1 == 1 <==> (x & 1 == 1) && (y & 1 == 1))
  {
  }

  lemma BothHalfBits(x: bv32, y: bv32, z: bv32, u: bv32, v: bv32)
    requires z == Both(x, y) && u == x >> 1 && v == y >> 1
    ensures Half(Word(x)) == Word(u) && Half(Word(y)) == Word(v) && Half(Word(z)) == Word(Both(u, v))
    ensures Odd(Word(z)) <==> Odd(Word(x)) && Odd(Word(y))
  {
    hide Both, Half, Odd;
    BothBits(x, y, z, u, v);
    HalfIs(x, u);
    HalfIs(y, v);
    HalfIs(z, Both(u, v));
    OddIs(x);
    OddIs(y);
    OddIs(z);
  }

  lemma BothHalf(a: Word, b: Word)
    ensures Half(Alu(And, a, b)) == Alu(And, Half(a), Half(b)) && (Odd(Alu(And, a, b)) <==> Odd(a) && Odd(b))
  {
    hide Alu, Both, Half, Odd;
    var x, y := a.bits, b.bits;
    BothHalfBits(x, y, Both(x, y), x >> 1, y >> 1);
    AluBits(a, b);
    AluBits(Half(a), Half(b));
  }

  lemma EitherBits(x: bv32, y: bv32, z: bv32, u: bv32, v: bv32)
    requires z == Either(x, y) && u == x >> 1 && v == y >> 1
    ensures z >> 1 == Either(u, v) && (z & 1 == 1 <==> (x & 1 == 1) || (y & 1 == 1))
  {
  }

  lemma EitherHalfBits(x: bv32, y: bv32, z: bv32, u: bv32, v: bv32)
    requires z == Either(x, y) && u == x >> 1 && v == y >> 1
    ensures Half(Word(x)) == Word(u) && Half(Word(y)) == Word(v) && Half(Word(z)) == Word(Either(u, v))
    ensures Odd(Word(z)) <==> Odd(Word(x)) || Odd(Word(y))
  {
    hide Either, Half, Odd;
    EitherBits(x, y, z, u, v);
    HalfIs(x, u);
    HalfIs(y, v);
    HalfIs(z, Either(u, v));
    OddIs(x);
    OddIs(y);
    OddIs(z);
  }

  lemma EitherHalf(a: Word, b: Word)
    ensures Half(Alu(Or, a, b)) == Alu(Or, Half(a), Half(b)) && (Odd(Alu(Or, a, b)) <==> Odd(a) || Odd(b))
  {
    hide Alu, Either, Half, Odd;
    var x, y := a.bits, b.bits;
    EitherHalfBits(x, y, Either(x, y), x >> 1, y >> 1);
    AluBits(a, b);
    AluBits(Half(a), Half(b));
  }

  lemma OneOfBits(x: bv32, y: bv32, z: bv32, u: bv32, v: bv32)
    requires z == OneOf(x, y) && u == x >> 1 && v == y >> 1
    ensures z >> 1 == OneOf(u, v) && (z & 1 == 1 <==> (x & 1 == 1) != (y & 1 == 1))
  {
  }

  lemma OneOfHalfBits(x: bv32, y: bv32, z: bv32, u: bv32, v: bv32)
    requires z == OneOf(x, y) && u == x >> 1 && v == y >> 1
    ensures Half(Word(x)) == Word(u) && Half(Word(y)) == Word(v) && Half(Word(z)) == Word(OneOf(u, v))
    ensures Odd(Word(z)) <==> Odd(Word(x)) != Odd(Word(y))
  {
    hide OneOf, Half, Odd;
    OneOfBits(x, y, z, u, v);
    HalfIs(x, u);
    HalfIs(y, v);
    HalfIs(z, OneOf(u, v));
    OddIs(x);
    OddIs(y);
    OddIs(z);
  }

  lemma OneOfHalf(a: Word, b: Word)
    ensures Half(Alu(Xor, a, b)) == Alu(Xor, Half(a), Half(b)) && (Odd(Alu(Xor, a, b)) <==> Odd(a) != Odd(b))
  {
    hide Alu, OneOf, Half, Odd;
    var x, y := a.bits, b.bits;
    OneOfHalfBits(x, y, OneOf(x, y), x >> 1, y >> 1);
    AluBits(a, b);
    AluBits(Half(a), Half(b));
  }

  lemma {:induction false} BitwiseAt(a: Word, b: Word, i: nat)
    ensures Bit(Alu(And, a, b), i) == (Bit(a, i) && Bit(b, i))
    ensures Bit(Alu(Or, a, b), i) == (Bit(a, i) || Bit(b, i))
    ensures Bit(Alu(Xor, a, b), i) == (Bit(a, i) != Bit(b, i))
    decreases i
  {
    hide Alu, Half, Odd;
    BothHalf(a, b);
    EitherHalf(a, b);
    OneOfHalf(a, b);
    if i > 0 { BitwiseAt(Half(a), Half(b), i - 1); }
  }

  function Pow2(n: nat): (p: nat)
    ensures p > 0
  {
    if n == 0 then 1 else 2 * Pow2(n - 1)
  }

  lemma {:induction false} PowSum(m: nat, n: nat)
    ensures Pow2(m + n) == Pow2(m) * Pow2(n)
  {
    if m > 0 {
      PowSum(m - 1, n);
      Associates(Pow2(m - 1), Pow2(n));
    }
  }

  lemma Associates(m: nat, n: nat)
    ensures 2 * (m * n) == (2 * m) * n
  {
  }

  lemma Pow32()
    ensures Pow2(32) == WORDS
  {
    assert Pow2(4) == 16;
    PowSum(4, 4);
    PowSum(8, 8);
    PowSum(16, 16);
  }

  /** The same in the lowest n bits. */
  ghost predicate SameBits(v: Word, w: Word, n: nat) {
    forall i :: 0 <= i < n ==> Bit(v, i) == Bit(w, i)
  }

  lemma SameHalves(v: Word, w: Word, n: nat)
    requires n > 0 && SameBits(v, w, n)
    ensures Odd(v) == Odd(w) && SameBits(Half(v), Half(w), n - 1)
  {
    hide Half, Odd;
    assert Bit(v, 0) == Bit(w, 0);
    forall i | 0 <= i < n - 1 ensures Bit(Half(v), i) == Bit(Half(w), i) {
      assert Bit(v, i + 1) == Bit(w, i + 1);
    }
  }

  lemma {:induction false} BitsDetermine(v: Word, w: Word, n: nat)
    requires SameBits(v, w, n) && Number(v) < Pow2(n) && Number(w) < Pow2(n)
    ensures Number(v) == Number(w)
    decreases n
  {
    hide Half, Odd, Number, SameBits;
    if n > 0 {
      SameHalves(v, w, n);
      NumberHalf(v);
      NumberHalf(w);
      BitsDetermine(Half(v), Half(w), n - 1);
    }
  }

  /** Words with the same bits are the same. */
  lemma SameWord(v: Word, w: Word)
    ensures SameBits(v, w, 32) <==> v == w
  {
    hide Bit, Number, Less;
    if SameBits(v, w, 32) {
      Pow32();
      NumberRange(v);
      NumberRange(w);
      BitsDetermine(v, w, 32);
      NumberOrder(v, w);
    }
  }

  // ---------------------------------------------------------------------------------------
  // Shifts
  // ---------------------------------------------------------------------------------------

  lemma LeftBits(x: bv32, y: bv32)
    requires 0 < y < 32
    ensures x << y == (x << (y - 1)) << 1
  {
  }

  lemma LeftOf(x: bv32, y: bv32, u: bv32, z: bv32)
    requires 0 < y < 32 && u == y - 1 && z == x << (y - 1)
    ensures u < 32 && Left(x, u) == z && Left(x, y) == (x << (y - 1)) << 1
  {
    LeftBits(x, y);
  }

  lemma DoubleBits(x: bv32, z: bv32)
    requires z == x
    ensures Sum(z, z) == x << 1
  {
  }

  lemma RightBits(x: bv32, y: bv32)
    requires 0 < y < 32
    ensures x >> y == (x >> (y - 1)) >> 1
  {
  }

  lemma RightOf(x: bv32, y: bv32, u: bv32, z: bv32)
    requires 0 < y < 32 && u == y - 1 && z == x >> (y - 1)
    ensures u < 32 && Right(x, u) == z && Right(x, y) == (x >> (y - 1)) >> 1
  {
    RightBits(x, y);
  }

  lemma NoShift(x: bv32)
    ensures Left(x, 0) == x && Right(x, 0) == x
  {
  }

  lemma LeftStep(a: Word, b: Word)
    requires b != ZERO && Less(b, Word(32))
    ensures Less(Dec(b), Word(32)) && Alu(Lsh, a, b) == Alu(Add, Alu(Lsh, a, Dec(b)), Alu(Lsh, a, Dec(b)))
  {
    hide Alu, Sum, Left;
    var x, y := a.bits, b.bits;
    var z := x << (y - 1);
    LeftOf(x, y, y - 1, z);
    DoubleBits(x << (y - 1), z);
    AluBits(a, b);
    AluBits(a, Dec(b));
    AluBits(Word(z), Word(z));
  }

  lemma RightHalf(x: bv32, y: bv32, u: bv32, z: bv32)
    requires 0 < y < 32 && u == y - 1 && z == x >> (y - 1)
    ensures u < 32 && Right(x, u) == z && Half(Word(z)) == Word(Right(x, y))
  {
    hide Right, Half;
    RightOf(x, y, u, z);
    HalfIs(z, Right(x, y));
  }

  lemma RightStep(a: Word, b: Word)
    requires b != ZERO && Less(b, Word(32))
    ensures Less(Dec(b), Word(32)) && Alu(Rsh, a, b) == Half(Alu(Rsh, a, Dec(b)))
  {
    hide Alu, Right, Half;
    RightHalf(a.bits, b.bits, b.bits - 1, a.bits >> (b.bits - 1));
    AluBits(a, b);
    AluBits(a, Dec(b));
  }

  lemma ShiftNone(a: Word)
    ensures Alu(Lsh, a, ZERO) == a && Alu(Rsh, a, ZERO) == a
  {
    hide Alu, Left, Right;
    AluBits(a, ZERO);
    NoShift(a.bits);
  }

  lemma Number32()
    ensures Number(Word(32)) == 32
  {
    hide Number;
    NumberDrop4(Word(32));
    NumberHalf(Word(2));
    NumberHalf(Word(1));
    NumberZero(ZERO);
  }

  lemma {:induction false} NumberLeft(a: Word, b: Word)
    requires Number(b) < 32
    ensures Number(Alu(Lsh, a, b)) == (Number(a) * Pow2(Number(b))) % WORDS
    decreases Number(b)
  {
    hide Dec, Number, ZERO, Alu, Less;
    NumberZero(b);
    if b == ZERO {
      ShiftNone(a);
      NumberRange(a);
    } else {
      Below32(b);
      LeftStep(a, b);
      NumberDec(b);
      NumberLeft(a, Dec(b));
      var w := Alu(Lsh, a, Dec(b));
      NumberSum(w, w);
      Doubles(Number(a), Pow2(Number(Dec(b))), Number(w));
    }
  }

  lemma Doubles(m: nat, p: nat, w: nat)
    requires w == (m * p) % WORDS
    ensures (w + w) % WORDS == (m * (2 * p)) % WORDS
  {
    ModSum(m * p, w);
    ModSum(m * p, m * p);
    assert m * (2 * p) == m * p + m * p;
  }

  lemma Below32(b: Word)
    ensures Number(b) < 32 <==> Less(b, Word(32))
  {
    hide Number, Less;
    Number32();
    NumberOrder(b, Word(32));
  }

  lemma {:induction false} NumberRight(a: Word, b: Word)
    requires Number(b) < 32
    ensures Number(Alu(Rsh, a, b)) == Number(a) / Pow2(Number(b))
    decreases Number(b)
  {
    hide Dec, Number, ZERO, Alu, Less, Half;
    NumberZero(b);
    if b == ZERO {
      ShiftNone(a);
    } else {
      Below32(b);
      RightStep(a, b);
      NumberDec(b);
      NumberRight(a, Dec(b));
      NumberHalf(Alu(Rsh, a, Dec(b)));
      HalvedTwice(Number(a), Pow2(Number(Dec(b))));
    }
  }

  lemma HalvedTwice(n: nat, p: nat)
    requires p > 0
    ensures n / p / 2 == n / (2 * p)
  {
    var q := n / p;
    var r, h := n % p, q / 2;
    assert n == q * p + r;
    assert q == 2 * h + q % 2;
    assert n == h * (2 * p) + (q % 2 * p + r);
    Words.QuotientIs(n, 2 * p, h, q % 2 * p + r);
  }

  lemma ShiftedOut(a: Word, b: Word)
    requires !Less(b, Word(32))
    ensures Alu(Lsh, a, b) == ZERO && Alu(Rsh, a, b) == ZERO
  {
    hide Alu;
    AluBits(a, b);
  }

  lemma AllShifted(m: nat, n: nat)
    requires n >= 32 && m < WORDS
    ensures (m * Pow2(n)) % WORDS == 0 && m / Pow2(n) == 0
  {
    Pow32();
    PowSum(n - 32, 32);
    var k := Pow2(n - 32);
    hide Pow2;
    Regroup(m, k);
    Multiple(m * k);
    AtLeast(k);
    Words.QuotientIs(m, Pow2(n), 0, m);
  }

  lemma Regroup(m: nat, k: nat)
    ensures m * (k * WORDS) == (m * k) * WORDS
  {
  }

  lemma AtLeast(k: nat)
    requires k > 0
    ensures k * WORDS >= WORDS
  {
  }

  lemma Multiple(k: nat)
    ensures (k * WORDS) % WORDS == 0
  {
  }

  /** Shifts multiply and divide by powers of two. */
  lemma NumberShift(a: Word, b: Word)
    ensures Number(Alu(Lsh, a, b)) == (Number(a) * Pow2(Number(b))) % WORDS
    ensures Number(Alu(Rsh, a, b)) == Number(a) / Pow2(Number(b))
  {
    hide Number, ZERO, Alu, Less, Pow2;
    Below32(b);
    if Number(b) < 32 {
      NumberLeft(a, b);
      NumberRight(a, b);
    } else {
      ShiftedOut(a, b);
      NumberZero(ZERO);
      NumberRange(a);
      AllShifted(Number(a), Number(b));
    }
  }

  // ---------------------------------------------------------------------------------------
  // What the operations compute
  // ---------------------------------------------------------------------------------------

  /** r is the result of the operation on a and b, said of numbers and of single bits. */
  ghost predicate Computes(op: AluOp, a: Word, b: Word, r: Word) {
    match op
    case Add => Number(r) == (Number(a) + Number(b)) % WORDS
    case Sub => Number(r) == (Number(a) - Number(b)) % WORDS
    case Mul => Number(r) == (Number(a) * Number(b)) % WORDS
    case Div => Number(r) * Number(b) <= Number(a) < Number(r) * Number(b) + Number(b)
    case Mod => Number(r) < Number(b) && (Number(a) - Number(r)) % Number(b) == 0
    case And => forall i :: 0 <= i < 32 ==> Bit(r, i) == (Bit(a, i) && Bit(b, i))
    case Or => forall i :: 0 <= i < 32 ==> Bit(r, i) == (Bit(a, i) || Bit(b, i))
    case Xor => forall i :: 0 <= i < 32 ==> Bit(r, i) == (Bit(a, i) != Bit(b, i))
    case Lsh => Number(r) == (Number(a) * Pow2(Number(b))) % WORDS
    case Rsh => Number(r) == Number(a) / Pow2(Number(b))
  }

  lemma SameNumber(v: Word, w: Word)
    ensures Number(v) == Number(w) <==> v == w
  {
    hide Number, Less;
    NumberOrder(v, w);
  }

  lemma DividesExactly(a: nat, b: nat, q: nat)
    requires b > 0
    ensures q * b <= a < q * b + b <==> q == a / b
  {
    QuotientFits(a, b);
    if q * b <= a < q * b + b { Words.QuotientIs(a, b, q, a - q * b); }
  }

  lemma LeavesExactly(a: nat, b: nat, r: nat)
    requires b > 0
    ensures r < b && (a - r) % b == 0 <==> r == a % b
  {
    QuotientFits(a, b);
    if r == a % b {
      Words.QuotientIs(a - r, b, a / b, 0);
    } else if r < b && (a - r) % b == 0 {
      Divided(a - r, b);
      if a >= r {
        Words.QuotientIs(a, b, (a - r) / b, r);
      } else {
        Negative(a - r, b);
      }
      assert false;
    }
  }

  lemma Divided(n: int, b: nat)
    requires b > 0
    ensures n == n / b * b + n % b
  {
  }

  lemma Negative(n: int, b: nat)
    requires n < 0 && n + b > 0
    ensures n % b != 0
  {
    assert n % b == (n + b) % b;
  }

  /** The arithmetic operations compute what they should, and nothing else satisfies what they should. */
  lemma ArithmeticExact(op: AluOp, a: Word, b: Word, r: Word)
    requires op in {Add, Sub, Mul, Lsh, Rsh}
    ensures Computes(op, a, b, r) <==> r == Alu(op, a, b)
  {
    hide Number, Alu, Pow2, Bit;
    SameNumber(r, Alu(op, a, b));
    NumberSum(a, b);
    NumberDifference(a, b);
    NumberProduct(a, b);
    NumberShift(a, b);
  }

  lemma DivisionExact(op: AluOp, a: Word, b: Word, r: Word)
    requires op in {Div, Mod} && Number(b) > 0
    ensures Computes(op, a, b, r) <==> r == Alu(op, a, b)
  {
    hide Number, Alu, Pow2, Bit;
    SameNumber(r, Alu(op, a, b));
    NumberQuotient(a, b);
    DividesExactly(Number(a), Number(b), Number(r));
    LeavesExactly(Number(a), Number(b), Number(r));
  }

  lemma BitwiseExact(op: AluOp, a: Word, b: Word, r: Word)
    requires op in {And, Or, Xor}
    ensures Computes(op, a, b, r) <==> r == Alu(op, a, b)
  {
    hide Number, Alu, Pow2, Bit;
    SameWord(r, Alu(op, a, b));
    forall i: nat
      ensures Bit(Alu(And, a, b), i) == (Bit(a, i) && Bit(b, i))
      ensures Bit(Alu(Or, a, b), i) == (Bit(a, i) || Bit(b, i))
      ensures Bit(Alu(Xor, a, b), i) == (Bit(a, i) != Bit(b, i))
    {
      BitwiseAt(a, b, i);
    }
  }

  /** Every operation gives the word that stands for the right number, or has the right bits, and no other. */
  lemma AluExact(op: AluOp, a: Word, b: Word, r: Word)
    requires op in {Div, Mod} ==> Number(b) > 0
    ensures Computes(op, a, b, r) <==> r == Alu(op, a, b)
  {
    hide Computes, Alu, Number;
    match op
    case Add | Sub | Mul | Lsh | Rsh => ArithmeticExact(op, a, b, r);
    case Div | Mod => DivisionExact(op, a, b, r);
    case And | Or | Xor => BitwiseExact(op, a, b, r);
  }

  lemma NotLessIs(a: Word, b: Word)
    ensures Compare(Jgt, a, b) == Less(b, a) && Compare(Jge, a, b) == !Less(a, b)
  {
  }

  lemma CommonBit(a: Word, b: Word)
    ensures Compare(Jset, a, b) <==> Alu(And, a, b) != ZERO
  {
    hide Alu, Both;
    AluBits(a, b);
  }

  lemma {:induction false} ZeroBit(i: nat)
    ensures !Bit(ZERO, i)
  {
    HalfOfZero();
    if i > 0 { ZeroBit(i - 1); }
  }

  /** The comparisons compare numbers; Jset looks for a bit that is set in both. */
  lemma CompareExact(a: Word, b: Word)
    ensures Compare(Jeq, a, b) <==> Number(a) == Number(b)
    ensures Compare(Jgt, a, b) <==> Number(a) > Number(b)
    ensures Compare(Jge, a, b) <==> Number(a) >= Number(b)
    ensures Compare(Jset, a, b) <==> exists i :: 0 <= i < 32 && Bit(a, i) && Bit(b, i)
  {
    assert Compare(Jeq, a, b) <==> a == b;
    hide Number, Alu, Bit, Compare, Less, ZERO;
    NotLessIs(a, b);
    NumberOrder(a, b);
    CommonExact(a, b);
  }

  lemma CommonExact(a: Word, b: Word)
    ensures Compare(Jset, a, b) <==> exists i :: 0 <= i < 32 && Bit(a, i) && Bit(b, i)
  {
    hide Number, Alu, Bit, Compare, Less, ZERO;
    var w := Alu(And, a, b);
    CommonBit(a, b);
    SameWord(w, ZERO);
    forall i: nat ensures Bit(w, i) == (Bit(a, i) && Bit(b, i)) && !Bit(ZERO, i) {
      BitwiseAt(a, b, i);
      ZeroBit(i);
    }
    if w != ZERO {
      var i :| 0 <= i < 32 && Bit(w, i) != Bit(ZERO, i);
      assert Bit(a, i) && Bit(b, i);
      assert exists i :: 0 <= i < 32 && Bit(a, i) && Bit(b, i);
    } else {
      assert forall i :: 0 <= i < 32 ==> !Bit(w, i);
    }
  }

  // ---------------------------------------------------------------------------------------
  // Header lengths
  // ---------------------------------------------------------------------------------------

  lemma NibbleBits(x: bv32)
    ensures Drop4(Word(x & 0xf)) == ZERO && Low4(Word(x & 0xf)) == Low4(Word(x))
  {
  }

  lemma FourTimes(x: bv32, z: bv32)
    requires z == x & 0xf
    ensures HeaderLength(Word(x)) == Alu(Add, Alu(Add, Word(z), Word(z)), Alu(Add, Word(z), Word(z)))
  {
  }

  /** The offset of an indexed load wraps around. */
  lemma NumberIndexed(x: Word, k: Word)
    ensures Number(Indexed(x, k)) == (Number(x) + Number(k)) % WORDS
  {
    hide Number, Alu, Sum;
    AluBits(x, k);
    NumberSum(x, k);
  }

  /** A header length is four times the low four bits of its byte. */
  lemma NumberHeader(byte: Word)
    ensures Number(HeaderLength(byte)) == 4 * (Number(byte) % 16)
  {
    hide Number, Alu, HeaderLength, Drop4, Low4;
    var z := byte.bits & 0xf;
    NibbleBits(byte.bits);
    NumberDrop4(byte);
    NumberDrop4(Word(z));
    NumberZero(ZERO);
    FourTimes(byte.bits, z);
    NumberSum(Word(z), Word(z));
    NumberSum(Alu(Add, Word(z), Word(z)), Alu(Add, Word(z), Word(z)));
  }
}
