/**
 Families of bit-vector sets, and that they behave as mathematical sets.

 The optimizer keeps one vector of 32-bit words per block or per edge. The vectors are the rows
 of a two-dimensional array here; module Layout shows that the slices the optimizer carves out
 of one allocation are such rows.
 */
module BitSets {

  function Mask(k: nat): bv32
    requires k < 32
  {
    1 << k
  }

  predicate Meets(w: bv32, mask: bv32) {
    w & mask != 0
  }

  function OrOf(v: bv32, w: bv32): bv32 {
    v | w
  }

  function AndOf(v: bv32, w: bv32): bv32 {
    v & w
  }

  /** Bit k of a word. */
  predicate Bit(w: bv32, k: nat)
    requires k < 32
  {
    Meets(w, Mask(k))
  }

  lemma MaskIsOneBit(k: nat)
    requires k < 32
    ensures Mask(k) & (Mask(k) - 1) == 0 && Mask(k) != 0
  {
  }

  lemma MasksAreDisjoint(j: nat, k: nat)
    requires j < 32 && k < 32 && j != k
    ensures !Meets(Mask(j), Mask(k))
  {
  }

  lemma MeetsItself(m: bv32)
    requires m != 0
    ensures Meets(m, m)
  {
  }

  lemma AndMeets(v: bv32, w: bv32, m: bv32)
    requires m & (m - 1) == 0
    ensures Meets(v & w, m) == (Meets(v, m) && Meets(w, m))
  {
  }

  lemma OrMeets(v: bv32, w: bv32, m: bv32)
    ensures Meets(v | w, m) == (Meets(v, m) || Meets(w, m))
  {
    OrUnderMask(v, w, m);
    OrIsZero(v & m, w & m);
  }

  lemma OrUnderMask(v: bv32, w: bv32, m: bv32)
    ensures (v | w) & m == (v & m) | (w & m)
  {
  }

  lemma OrIsZero(x: bv32, y: bv32)
    ensures x | y == 0 <==> x == 0 && y == 0
  {
  }

  lemma BitInsert(w: bv32, j: nat, k: nat)
    requires j < 32 && k < 32
    ensures Bit(w | Mask(k), j) == (j == k || Bit(w, j))
  {
    hide Mask, Meets;
    OrMeets(w, Mask(k), Mask(j));
    if j == k {
      MaskIsOneBit(k);
      MeetsItself(Mask(k));
    } else {
      MasksAreDisjoint(k, j);
    }
  }

  lemma BitAnd(v: bv32, w: bv32, j: nat)
    requires j < 32
    ensures Bit(AndOf(v, w), j) == (Bit(v, j) && Bit(w, j))
  {
    hide Mask, Meets;
    MaskIsOneBit(j);
    AndMeets(v, w, Mask(j));
  }

  lemma BitOr(v: bv32, w: bv32, j: nat)
    requires j < 32
    ensures Bit(OrOf(v, w), j) == (Bit(v, j) || Bit(w, j))
  {
    hide Mask, Meets;
    OrMeets(v, w, Mask(j));
  }

  lemma BitConst(j: nat)
    requires j < 32
    ensures !Bit(0, j) && Bit(0xFFFFFFFF, j)
  {
  }

  class Family {
    const words: array2<bv32>

    constructor (count: nat, width: nat)
      ensures words.Length0 == count && words.Length1 == width && fresh(words)
    {
      words := new bv32[count, width];
    }

    /** How many elements a set can hold. */
    function Capacity(): nat {
      32 * words.Length1
    }

    predicate Fits(a: nat) {
      a < Capacity()
    }

    /** Everything a set can hold. */
    ghost function Full(): set<nat> {
      set a: nat | a < Capacity() && Fits(a)
    }

    ghost predicate Has(c: nat, a: nat)
      reads words
      requires c < words.Length0 && a < Capacity()
    {
      Bit(words[c, a / 32], a % 32)
    }

    /** The set held by row c. */
    ghost function Set(c: nat): set<nat>
      reads words
      requires c < words.Length0
    {
      set a: nat | a < Capacity() && Has(c, a)
    }

    /** All rows. */
    ghost function Rows(): (rows: seq<set<nat>>)
      reads words
      ensures |rows| == words.Length0
    {
      seq(words.Length0, (c: nat) requires c < words.Length0 reads words => Set(c))
    }

    method Member(c: nat, a: nat) returns (yes: bool)
      requires c < words.Length0 && a < Capacity()
      ensures yes == (a in Set(c)) && Set(c) == Rows()[c]
    {
      yes := Bit(words[c, a / 32], a % 32);
    }

    /** Makes every row but the listed ones full, and those empty. */
    method Reset(full: bool, except: set<nat>)
      modifies words
      ensures forall c :: 0 <= c < |Rows()| ==> Rows()[c] == if full != (c in except) then Full() else {}
    {
      forall c, w | 0 <= c < words.Length0 && 0 <= w < words.Length1 {
        words[c, w] := if full != (c in except) then 0xFFFFFFFF else 0;
      }
      forall j | 0 <= j < 32 ensures !Bit(0, j) && Bit(0xFFFFFFFF, j) { BitConst(j); }
    }

    method Insert(c: nat, a: nat)
      requires c < words.Length0 && a < Capacity()
      modifies words
      ensures Rows() == old(Rows())[c := old(Rows())[c] + {a}]
    {
      hide Bit, Mask;
      words[c, a / 32] := words[c, a / 32] | Mask(a % 32);
      forall b: nat | b < Capacity() ensures Has(c, b) == (b == a || old(Has(c, b))) {
        BitInsert(old(words[c, a / 32]), b % 32, a % 32);
      }
      assert Set(c) == old(Set(c)) + {a};
      assert forall d :: 0 <= d < words.Length0 && d != c ==> Set(d) == old(Set(d));
    }

    /** Ands the words of row c with those of row d. */
    method AndWords(c: nat, d: nat)
      requires c < words.Length0 && d < words.Length0
      modifies words
      ensures forall e, v :: 0 <= e < words.Length0 && 0 <= v < words.Length1 ==>
                words[e, v] == if e == c then AndOf(old(words[c, v]), old(words[d, v])) else old(words[e, v])
    {
      for w := 0 to words.Length1
        invariant forall e, v :: 0 <= e < words.Length0 && 0 <= v < words.Length1 ==>
                    words[e, v] == if e == c && v < w then AndOf(old(words[c, v]), old(words[d, v])) else old(words[e, v])
      {
        words[c, w] := AndOf(words[c, w], words[d, w]);
      }
    }

    /** Row c becomes its intersection with row d. */
    method Intersect(c: nat, d: nat)
      requires c < words.Length0 && d < words.Length0
      modifies words
      ensures Rows() == old(Rows())[c := old(Rows())[c] * old(Rows())[d]]
    {
      hide Bit, Mask, AndOf;
      AndWords(c, d);
      forall a: nat | a < Capacity() ensures Has(c, a) == (old(Has(c, a)) && old(Has(d, a))) {
        BitAnd(old(words[c, a / 32]), old(words[d, a / 32]), a % 32);
      }
      assert Set(c) == old(Set(c)) * old(Set(d));
      assert forall e :: 0 <= e < words.Length0 && e != c ==> Set(e) == old(Set(e));
    }

    /** Ors the words of row c with those of row d. */
    method OrWords(c: nat, d: nat)
      requires c < words.Length0 && d < words.Length0
      modifies words
      ensures forall e, v :: 0 <= e < words.Length0 && 0 <= v < words.Length1 ==>
                words[e, v] == if e == c then OrOf(old(words[c, v]), old(words[d, v])) else old(words[e, v])
    {
      for w := 0 to words.Length1
        invariant forall e, v :: 0 <= e < words.Length0 && 0 <= v < words.Length1 ==>
                    words[e, v] == if e == c && v < w then OrOf(old(words[c, v]), old(words[d, v])) else old(words[e, v])
      {
        words[c, w] := OrOf(words[c, w], words[d, w]);
      }
    }

    /** Row c becomes its union with row d. */
    method Union(c: nat, d: nat)
      requires c < words.Length0 && d < words.Length0
      modifies words
      ensures Rows() == old(Rows())[c := old(Rows())[c] + old(Rows())[d]]
    {
      hide Bit, Mask, OrOf;
      OrWords(c, d);
      forall a: nat | a < Capacity() ensures Has(c, a) == (old(Has(c, a)) || old(Has(d, a))) {
        BitOr(old(words[c, a / 32]), old(words[d, a / 32]), a % 32);
      }
      assert Set(c) == old(Set(c)) + old(Set(d));
      assert forall e :: 0 <= e < words.Length0 && e != c ==> Set(e) == old(Set(e));
    }
  }
}
