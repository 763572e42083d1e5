/**
 Sizing and laying out the optimizer's bit sets: overflow tests in machine arithmetic, and the
 slices of the one allocation that holds all sets.
 */
module Layout {

  const WORD: nat := 4
  const BITS_PER_WORD: nat := 32
  const UINT: nat := 0x1_0000_0000

  datatype Option<T> = None | Some(value: T)

  // ---------------------------------------------------------------------------------------
  // Overflow tests
  // ---------------------------------------------------------------------------------------

  /** Multiplies in a machine word and divides back; None if that does not give b again. */
  function Times(a: nat, b: nat, modulus: nat): (r: Option<nat>)
    requires a > 0 && modulus > 0
  {
    var product := a * b % modulus;
    if product / a != b then None else Some(product)
  }

  lemma DivBounds(n: nat, a: nat)
    requires a > 0
    ensures n / a * a <= n < (n / a + 1) * a
  {
  }

  lemma Monotone(i: nat, j: nat, w: nat)
    requires i <= j
    ensures i * w <= j * w
  {
  }

  lemma Quotient(n: nat, a: nat, b: nat)
    requires a > 0 && n == a * b
    ensures n / a == b
  {
    var q := n / a;
    DivBounds(n, a);
    if q < b { Monotone(q + 1, b, a); }
    if b < q { Monotone(b + 1, q, a); }
  }

  lemma Remainder(n: nat, modulus: nat)
    requires modulus > 0
    ensures if n < modulus then n % modulus == n else n % modulus < n
  {
  }

  lemma Smaller(n: nat, a: nat, b: nat)
    requires a > 0 && n < a * b
    ensures n / a < b
  {
  }

  lemma DivideBack(n: nat, m: nat, a: nat, b: nat)
    requires a > 0 && n == a * b && m <= n
    ensures m / a == b <==> m == n
  {
    Quotient(n, a, b);
    if m < n { Smaller(m, a, b); }
  }

  /** Dividing back tells exactly whether the product fits. */
  lemma TimesExact(a: nat, b: nat, modulus: nat)
    requires a > 0 && modulus > 0
    ensures Times(a, b, modulus) == if a * b < modulus then Some(a * b) else None
  {
    Remainder(a * b, modulus);
    DivideBack(a * b, a * b % modulus, a, b);
  }

  /** The sizes the optimizer settles on. */
  datatype Sizes = Sizes(edges: nat, nodeWords: nat, edgeWords: nat, blockBytes: nat, edgeBytes: nat)

  /** The bytes for count vectors of width words, unit bytes each word, or None if a product does not fit. */
  method VectorBytes(count: nat, width: nat, unit: nat, sizeMax: nat) returns (r: Option<nat>)
    requires 0 < count < UINT && 0 < width < UINT && 0 < unit <= sizeMax && sizeMax >= UINT - 1
    ensures r == if count * width >= UINT || count * width * unit > sizeMax then None else Some(count * width * unit)
  {
    TimesExact(count, width, UINT);
    r := Times(count, width, UINT);
    if r == None { return; }
    Positive(count, width);
    TimesExact(r.value, unit, sizeMax + 1);
    r := Times(r.value, unit, sizeMax + 1);
  }

  /** Computes all sizes, or None if one of them does not fit: 32 bits for counts, size_t for bytes. */
  method ComputeSizes(blocks: nat, sizeMax: nat) returns (r: Option<Sizes>)
    requires 0 < blocks < UINT && sizeMax >= UINT - 1
    ensures r == if TooComplex(blocks, sizeMax) then None else Some(SizesFor(blocks))
  {
    var edges := 2 * blocks % UINT;
    if edges / 2 != blocks { return None; }
    var edgeWords, nodeWords := edges / BITS_PER_WORD + 1, blocks / BITS_PER_WORD + 1;
    var blockBytes := VectorBytes(blocks, nodeWords, 2 * WORD, sizeMax);
    if blockBytes == None { return None; }
    var edgeBytes := VectorBytes(edges, edgeWords, WORD, sizeMax);
    if edgeBytes == None { return None; }
    if blockBytes.value > sizeMax - edgeBytes.value { return None; }
    return Some(Sizes(edges, nodeWords, edgeWords, blockBytes.value, edgeBytes.value));
  }

  lemma Positive(a: nat, b: nat)
    requires a > 0 && b > 0
    ensures a * b > 0
  {
  }

  ghost function SizesFor(blocks: nat): Sizes {
    var n, e := blocks / BITS_PER_WORD + 1, 2 * blocks / BITS_PER_WORD + 1;
    Sizes(2 * blocks, n, e, blocks * n * (2 * WORD), 2 * blocks * e * WORD)
  }

  /** Some size, taken without wrapping, does not fit where it is kept. */
  ghost predicate TooComplex(blocks: nat, sizeMax: nat) {
    var s := SizesFor(blocks);
    || s.edges >= UINT || blocks * s.nodeWords >= UINT || s.edges * s.edgeWords >= UINT
    || s.blockBytes + s.edgeBytes > sizeMax
  }

  // ---------------------------------------------------------------------------------------
  // Slices
  // ---------------------------------------------------------------------------------------

  /** A stretch of words of the allocation. */
  datatype Slice = Slice(start: nat, words: nat)

  /** The slices follow each other without gap from word 0 to word n. */
  ghost predicate Tiled(all: seq<Slice>, n: nat) {
    if all == [] then n == 0
    else
      var last := all[|all| - 1];
      last.start + last.words == n && Tiled(all[..|all| - 1], last.start)
  }

  lemma TiledAdd(all: seq<Slice>, n: nat, w: nat)
    requires Tiled(all, n)
    ensures Tiled(all + [Slice(n, w)], n + w)
  {
    assert (all + [Slice(n, w)])[..|all|] == all;
  }

  /** Slices do not overlap. */
  lemma {:induction false} TiledDisjoint(all: seq<Slice>, n: nat, i: nat, j: nat)
    requires Tiled(all, n) && i < j < |all|
    ensures all[i].start + all[i].words <= all[j].start && all[j].start + all[j].words <= n
  {
    var k := |all| - 1;
    if j < k {
      TiledDisjoint(all[..k], all[k].start, i, j);
    } else {
      TiledWithin(all[..k], all[k].start, i);
    }
  }

  lemma {:induction false} TiledWithin(all: seq<Slice>, n: nat, i: nat)
    requires Tiled(all, n) && i < |all|
    ensures all[i].start + all[i].words <= n
  {
    var k := |all| - 1;
    if i < k { TiledWithin(all[..k], all[k].start, i); }
  }

  /** Every word belongs to a slice. */
  lemma {:induction false} TiledCovers(all: seq<Slice>, n: nat, w: nat) returns (i: nat)
    requires Tiled(all, n) && w < n
    ensures i < |all| && all[i].start <= w < all[i].start + all[i].words
  {
    var k := |all| - 1;
    if all[k].start <= w { i := k; } else { i := TiledCovers(all[..k], all[k].start, w); }
  }

  /** The sets of every block and edge, by block. */
  datatype Sets = Sets(dom: seq<Slice>, closure: seq<Slice>, et: seq<Slice>, ef: seq<Slice>)

  lemma TimesStep(i: nat, w: nat)
    ensures (i + 1) * w == i * w + w
  {
  }

  /** count slices of w words each, from word p on. */
  method Slices(count: nat, w: nat, p: nat, ghost before: seq<Slice>) returns (slices: seq<Slice>, p': nat)
    requires Tiled(before, p)
    ensures |slices| == count && (forall i :: 0 <= i < count ==> slices[i].words == w)
    ensures p' == p + count * w && Tiled(before + slices, p')
  {
    slices, p' := [], p;
    assert before + [] == before;
    hide Tiled;
    for i := 0 to count
      invariant |slices| == i && (forall j :: 0 <= j < i ==> slices[j].words == w)
      invariant p' == p + i * w && Tiled(before + slices, p')
    {
      TiledAdd(before + slices, p', w);
      TimesStep(i, w);
      assert before + slices + [Slice(p', w)] == before + (slices + [Slice(p', w)]);
      slices := slices + [Slice(p', w)];
      p' := p' + w;
    }
  }

  /** The true and false edge slices, alternating. */
  ghost function Alternating(et: seq<Slice>, ef: seq<Slice>): seq<Slice>
    requires |et| == |ef|
  {
    if et == [] then [] else Alternating(et[..|et| - 1], ef[..|ef| - 1]) + [et[|et| - 1], ef[|ef| - 1]]
  }

  method EdgeSlices(count: nat, w: nat, p: nat, ghost before: seq<Slice>) returns (et: seq<Slice>, ef: seq<Slice>, p': nat)
    requires Tiled(before, p)
    ensures |et| == |ef| == count && forall i :: 0 <= i < count ==> et[i].words == ef[i].words == w
    ensures p' == p + count * w + count * w && Tiled(before + Alternating(et, ef), p')
  {
    et, ef, p' := [], [], p;
    assert before + [] == before;
    hide Tiled, Alternating;
    for i := 0 to count
      invariant |et| == |ef| == i && forall j :: 0 <= j < i ==> et[j].words == ef[j].words == w
      invariant p' == p + i * w + i * w && Tiled(before + Alternating(et, ef), p')
    {
      ghost var all := before + Alternating(et, ef);
      TimesStep(i, w);
      TiledAdd(all, p', w);
      TiledAdd(all + [Slice(p', w)], p' + w, w);
      assert all + [Slice(p', w)] + [Slice(p' + w, w)] == before + (Alternating(et, ef) + [Slice(p', w), Slice(p' + w, w)]);
      AlternatingAdd(et, ef, Slice(p', w), Slice(p' + w, w));
      et, ef := et + [Slice(p', w)], ef + [Slice(p' + w, w)];
      p' := p' + w + w;
    }
  }

  lemma AlternatingAdd(et: seq<Slice>, ef: seq<Slice>, a: Slice, b: Slice)
    requires |et| == |ef|
    ensures Alternating(et + [a], ef + [b]) == Alternating(et, ef) + [a, b]
  {
    assert (et + [a])[..|et|] == et && (ef + [b])[..|ef|] == ef;
  }

  /** Cuts the allocation into the sets of all blocks and edges. They tile it exactly, and their bits
      suffice for all block numbers and all edge numbers. */
  method Carve(blocks: nat, sizes: Sizes) returns (sets: Sets)
    requires blocks > 0 && sizes == SizesFor(blocks)
    ensures |sets.dom| == |sets.closure| == |sets.et| == |sets.ef| == blocks
    ensures (sizes.blockBytes + sizes.edgeBytes) % WORD == 0
    ensures Tiled(sets.dom + sets.closure + Alternating(sets.et, sets.ef), (sizes.blockBytes + sizes.edgeBytes) / WORD)
    ensures forall i :: 0 <= i < blocks ==>
      && blocks <= BITS_PER_WORD * sets.dom[i].words && blocks <= BITS_PER_WORD * sets.closure[i].words
      && sizes.edges <= BITS_PER_WORD * sets.et[i].words && sizes.edges <= BITS_PER_WORD * sets.ef[i].words
  {
    var dom, p1 := Slices(blocks, sizes.nodeWords, 0, []);
    assert [] + dom == dom;
    var closure, p2 := Slices(blocks, sizes.nodeWords, p1, dom);
    var et, ef, p3 := EdgeSlices(blocks, sizes.edgeWords, p2, dom + closure);
    TotalWords(blocks, sizes, p3);
    BitsSuffice(blocks);
    sets := Sets(dom, closure, et, ef);
  }

  lemma TotalWords(blocks: nat, sizes: Sizes, p: nat)
    requires sizes == SizesFor(blocks)
    requires p == blocks * sizes.nodeWords + blocks * sizes.nodeWords + blocks * sizes.edgeWords + blocks * sizes.edgeWords
    ensures sizes.blockBytes + sizes.edgeBytes == p * WORD
    ensures (sizes.blockBytes + sizes.edgeBytes) / WORD == p && (sizes.blockBytes + sizes.edgeBytes) % WORD == 0
  {
    var a, b := blocks * sizes.nodeWords, blocks * sizes.edgeWords;
    assert 2 * blocks * sizes.edgeWords == b + b;
  }

  lemma BitsSuffice(blocks: nat)
    ensures blocks <= BITS_PER_WORD * SizesFor(blocks).nodeWords
    ensures SizesFor(blocks).edges <= BITS_PER_WORD * SizesFor(blocks).edgeWords
  {
  }
}
