/**
 The virtual machine the optimizer reasons about: registers, statements, branches.

 A machine state is one sequence of 18 words: scratch memory M[0..15], then the accumulator
 A, then the index register X. The optimizer calls these 18 entities "atoms" and treats them
 alike in its analyses, so the model does too. Words are `bv32`, so all arithmetic is modulo
 2^32.
 */
module Machine {

  const A_ATOM: nat := 16
  const X_ATOM: nat := 17
  const N_ATOMS: nat := 18

  /** A 32-bit machine word. */
  datatype Word = Word(bits: bv32)

  const ZERO: Word := Word(0)

  /** All bits but the lowest, and the lowest. */
  function Half(w: Word): Word { Word(w.bits >> 1) }
  predicate Odd(w: Word) { w.bits & 1 == 1 }

  /** A word with one more bit, the lowest. */
  function Append(w: Word, odd: bool): Word { Word((w.bits << 1) | (if odd then 1 else 0)) }

  lemma HalfIsLess(w: Word)
    ensures w != ZERO ==> Half(w).bits < w.bits
  {
  }

  /** The number a word stands for. */
  function Number(w: Word): nat
    decreases w.bits
  {
    HalfIsLess(w);
    if w == ZERO then 0 else 2 * Number(Half(w)) + (if Odd(w) then 1 else 0)
  }

  /** The word that stands for a number. */
  function Numeral(n: nat): Word {
    if n == 0 then ZERO else Append(Numeral(n / 2), n % 2 == 1)
  }

  type MemIndex = m: nat | m < 16
  type Regs = r: seq<Word> | |r| == 18 witness seq(18, i => ZERO)

  datatype Size = W | H | B

  /** A packet as the filter sees it: a total load function of size and offset, and a length.
      The pairs (Size, Word) are finitely many, so a map with a default is any total function. */
  datatype Packet = Packet(data: map<(Size, Word), Word>, len: Word) {
    function Load(size: Size, offset: Word): Word {
      if (size, offset) in data then data[(size, offset)] else ZERO
    }
  }

  datatype AluOp = Add | Sub | Mul | Div | Mod | And | Or | Xor | Lsh | Rsh

  // Bit operations, one function each, so that a proof unfolds only those it is about.

  function Sum(x: bv32, y: bv32): bv32 { x + y }
  function Difference(x: bv32, y: bv32): bv32 { x - y }
  function Product(x: bv32, y: bv32): bv32 { x * y }
  function Both(x: bv32, y: bv32): bv32 { x & y }
  function Either(x: bv32, y: bv32): bv32 { x | y }
  function OneOf(x: bv32, y: bv32): bv32 { x ^ y }
  function Left(x: bv32, y: bv32): bv32 { if y < 32 then x << y else 0 }
  function Right(x: bv32, y: bv32): bv32 { if y < 32 then x >> y else 0 }

  // Division and modulus of numbers; by zero they give zero.

  function Ratio(n: nat, d: nat): nat { if d == 0 then 0 else n / d }
  function Rest(n: nat, d: nat): nat { if d == 0 then 0 else n % d }

  function Quotient(a: Word, b: Word): Word { Numeral(Ratio(Number(a), Number(b))) }
  function Remainder(a: Word, b: Word): Word { Numeral(Rest(Number(a), Number(b))) }

  /** Binary operators. Shifts by 32 or more shift all bits out. Division and modulus by zero
      never happen in the runs the theorems speak about; the model gives them the value 0. */
  function Alu(op: AluOp, a: Word, b: Word): Word {
    var x, y := a.bits, b.bits;
    match op
    case Add => Word(Sum(x, y))
    case Sub => Word(Difference(x, y))
    case Mul => Word(Product(x, y))
    case Div => Quotient(a, b)
    case Mod => Remainder(a, b)
    case And => Word(Both(x, y))
    case Or => Word(Either(x, y))
    case Xor => Word(OneOf(x, y))
    case Lsh => Word(Left(x, y))
    case Rsh => Word(Right(x, y))
  }

  /** The offset an indexed load reads at. */
  function Indexed(x: Word, k: Word): Word {
    Word(Sum(x.bits, k.bits))
  }

  /** What ldxb makes of the byte it loads: four times the low nibble. */
  function HeaderLength(byte: Word): Word {
    Word(4 * (byte.bits & 0xf))
  }

  function Negate(a: Word): Word {
    Word(0 - a.bits)
  }

  /** A side-effect statement of a block. Nop is a deleted statement. */
  datatype Stmt =
    | Nop
    | LdAbs(size: Size, k: Word)
    | LdInd(size: Size, k: Word)
    | LdLen
    | LdImm(k: Word)
    | LdMem(m: MemIndex)
    | LdxImm(k: Word)
    | LdxMem(m: MemIndex)
    | LdxMsh(k: Word)
    | St(m: MemIndex)
    | Stx(m: MemIndex)
    | AluK(op: AluOp, k: Word)
    | AluX(op: AluOp)
    | Neg
    | Tax
    | Txa

  datatype Cmp = Jeq | Jgt | Jge | Jset
  datatype Src = SrcK | SrcX

  /** The statement that ends a block: a comparison of A with a constant or with X, or a return. */
  datatype Branch = Jmp(cmp: Cmp, src: Src, k: Word) | Ret(k: Word)

  /** The word a statement writes into the atom it defines. */
  function Value(s: Stmt, p: Packet, r: Regs): Word
    requires s != Nop
  {
    match s
    case LdAbs(size, k) => p.Load(size, k)
    case LdInd(size, k) => p.Load(size, Indexed(r[X_ATOM], k))
    case LdLen => p.len
    case LdImm(k) => k
    case LdMem(m) => r[m]
    case LdxImm(k) => k
    case LdxMem(m) => r[m]
    case LdxMsh(k) => HeaderLength(p.Load(B, k))
    case St(_) => r[A_ATOM]
    case Stx(_) => r[X_ATOM]
    case AluK(op, k) => Alu(op, r[A_ATOM], k)
    case AluX(op) => Alu(op, r[A_ATOM], r[X_ATOM])
    case Neg => Negate(r[A_ATOM])
    case Tax => r[A_ATOM]
    case Txa => r[X_ATOM]
  }

  /** The atom a statement defines. */
  function Target(s: Stmt): (a: nat)
    requires s != Nop
    ensures a < N_ATOMS
  {
    match s
    case LdxImm(_) => X_ATOM
    case LdxMem(_) => X_ATOM
    case LdxMsh(_) => X_ATOM
    case Tax => X_ATOM
    case St(m) => m
    case Stx(m) => m
    case _ => A_ATOM
  }

  function Exec(s: Stmt, p: Packet, r: Regs): Regs {
    if s == Nop then r else r[Target(s) := Value(s, p, r)]
  }

  /** The state after the first n statements. */
  ghost function Run(stmts: seq<Stmt>, n: nat, p: Packet, r: Regs): Regs
    requires n <= |stmts|
  {
    if n == 0 then r else Exec(stmts[n - 1], p, Run(stmts, n - 1, p, r))
  }

  lemma RunNext(stmts: seq<Stmt>, n: nat, p: Packet, r: Regs)
    requires n < |stmts|
    ensures Run(stmts, n + 1, p, r) == Exec(stmts[n], p, Run(stmts, n, p, r))
  {
  }

  ghost function RunAll(stmts: seq<Stmt>, p: Packet, r: Regs): Regs {
    Run(stmts, |stmts|, p, r)
  }

  predicate Compare(cmp: Cmp, a: Word, b: Word) {
    match cmp
    case Jeq => a == b
    case Jgt => a.bits > b.bits
    case Jge => a.bits >= b.bits
    case Jset => Both(a.bits, b.bits) != 0
  }

  function Operand(s: Branch, r: Regs): Word
    requires s.Jmp?
  {
    if s.src == SrcK then s.k else r[X_ATOM]
  }

  /** Whether the branch goes to its true successor. */
  predicate Taken(s: Branch, r: Regs)
    requires s.Jmp?
  {
    Compare(s.cmp, r[A_ATOM], Operand(s, r))
  }

  /** Runs of lists that agree on the first n statements agree. */
  lemma {:induction false} RunPrefix(s: seq<Stmt>, t: seq<Stmt>, n: nat, p: Packet, r: Regs)
    requires n <= |s| && n <= |t| && s[..n] == t[..n]
    ensures Run(s, n, p, r) == Run(t, n, p, r)
  {
    if n > 0 {
      assert s[..n - 1] == s[..n][..n - 1] && t[..n - 1] == t[..n][..n - 1];
      assert s[n - 1] == s[..n][n - 1] && t[n - 1] == t[..n][n - 1];
      RunPrefix(s, t, n - 1, p, r);
    }
  }

  /** A statement list without its deleted statements. */
  ghost function Kept(stmts: seq<Stmt>): seq<Stmt> {
    if stmts == [] then []
    else
      var n := |stmts| - 1;
      if stmts[n] == Nop then Kept(stmts[..n]) else Kept(stmts[..n]) + [stmts[n]]
  }

  lemma {:induction false} KeptPrefix(stmts: seq<Stmt>, n: nat)
    requires n <= |stmts|
    ensures Kept(stmts[..n]) <= Kept(stmts)
    decreases |stmts| - n
  {
    if n < |stmts| {
      KeptPrefix(stmts, n + 1);
      assert stmts[..n + 1][..n] == stmts[..n];
    } else {
      assert stmts[..n] == stmts;
    }
  }

  /** Deleted statements do nothing: lists that keep the same statements have the same effect. */
  lemma {:induction false} RunKept(stmts: seq<Stmt>, p: Packet, r: Regs)
    ensures RunAll(stmts, p, r) == RunAll(Kept(stmts), p, r)
  {
    if stmts != [] {
      var n := |stmts| - 1;
      var k := Kept(stmts[..n]);
      RunKept(stmts[..n], p, r);
      RunPrefix(stmts, stmts[..n], n, p, r);
      if stmts[n] != Nop { RunPrefix(k + [stmts[n]], k, |k|, p, r); }
    }
  }

  /** The number of statements in a list, deleted ones not counted. */
  method Slength(stmts: seq<Stmt>) returns (n: nat)
    ensures n == |Kept(stmts)|
  {
    n := 0;
    for i := 0 to |stmts|
      invariant n == |Kept(stmts[..i])|
    {
      assert stmts[..i + 1][..i] == stmts[..i];
      if stmts[i] != Nop { n := n + 1; }
    }
    assert stmts[..|stmts|] == stmts;
  }
}
