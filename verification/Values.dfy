/**
 Value numbering: what value numbers denote, the table that hands them out, and the rewriting of
 statements whose operands are known.
 */
module Values {
  import opened Machine
  import opened Numerals
  import opened Flow
  import opened Liveness

  /** A value number; 0 means the value is unknown. */
  const VAL_UNKNOWN: nat := 0

  /** What a table entry says its number stands for: an operation on constants and on the values
      of other numbers. */
  datatype Expr =
    | Imm(k: Word)
    | Abs(size: Size, k: Word)
    | Ind(size: Size, k: Word, v: nat)
    | Len
    | Msh(k: Word)
    | NegOf(v: nat)
    | BinK(op: AluOp, v: nat, w: nat)
    | BinX(op: AluOp, v: nat, w: nat)

  /** The greatest value number an expression refers to. */
  function MaxOperand(e: Expr): nat {
    match e
    case Ind(_, _, v) => v
    case NegOf(v) => v
    case BinK(_, v, w) => Max(v, w)
    case BinX(_, v, w) => Max(v, w)
    case _ => 0
  }

  /** Entry i has number i + 1, refers to smaller numbers only, and no entry occurs twice. */
  ghost predicate Table(t: seq<Expr>) {
    && (forall i :: 0 <= i < |t| ==> MaxOperand(t[i]) <= i)
    && (forall i, j :: 0 <= i < j < |t| ==> t[i] != t[j])
  }

  /** The word a value number denotes for a packet. */
  ghost function Den(t: seq<Expr>, v: nat, p: Packet): Word
    requires Table(t) && v <= |t|
    decreases v
  {
    if v == 0 then ZERO
    else
      match t[v - 1]
      case Imm(k) => k
      case Abs(size, k) => p.Load(size, k)
      case Ind(size, k, w) => p.Load(size, Indexed(Den(t, w, p), k))
      case Len => p.len
      case Msh(k) => HeaderLength(p.Load(B, k))
      case NegOf(w) => Negate(Den(t, w, p))
      case BinK(op, w, x) => Alu(op, Den(t, w, p), Den(t, x, p))
      case BinX(op, w, x) => Alu(op, Den(t, w, p), Den(t, x, p))
  }

  /** Denotations do not change when the table grows. */
  lemma {:induction false} DenGrows(t: seq<Expr>, t': seq<Expr>, v: nat, p: Packet)
    requires Table(t) && Table(t') && t <= t' && v <= |t|
    ensures Den(t, v, p) == Den(t', v, p)
    decreases v
  {
    if v > 0 {
      assert t[v - 1] == t'[v - 1];
      match t[v - 1]
      case Ind(_, _, w) => DenGrows(t, t', w, p);
      case NegOf(w) => DenGrows(t, t', w, p);
      case BinK(_, w, x) => DenGrows(t, t', w, p); DenGrows(t, t', x, p);
      case BinX(_, w, x) => DenGrows(t, t', w, p); DenGrows(t, t', x, p);
      case _ =>
    }
  }

  /** A table of value numbers, one per register. */
  type Vals = v: seq<nat> | |v| == 18 witness seq(18, i => 0)

  ghost predicate InTable(t: seq<Expr>, val: Vals) {
    forall a :: 0 <= a < N_ATOMS ==> val[a] <= |t|
  }

  /** Every known value number is what its register holds. */
  ghost predicate Consistent(t: seq<Expr>, val: Vals, p: Packet, r: Regs)
    requires Table(t) && InTable(t, val)
  {
    forall a :: 0 <= a < N_ATOMS && val[a] != VAL_UNKNOWN ==> r[a] == Den(t, val[a], p)
  }

  lemma ConsistentGrows(t: seq<Expr>, t': seq<Expr>, val: Vals, p: Packet, r: Regs)
    requires Table(t) && Table(t') && t <= t' && InTable(t, val)
    ensures InTable(t', val) && (Consistent(t, val, p, r) <==> Consistent(t', val, p, r))
  {
    forall a | 0 <= a < N_ATOMS ensures Den(t, val[a], p) == Den(t', val[a], p) { DenGrows(t, t', val[a], p); }
  }

  /** The constant a number is known to be. */
  ghost predicate IsConst(t: seq<Expr>, v: nat) {
    0 < v <= |t| && t[v - 1].Imm?
  }

  /** Distinct constants have distinct numbers: equal numbers exactly for equal constants. */
  lemma ConstInjective(t: seq<Expr>, v: nat, w: nat)
    requires Table(t) && IsConst(t, v) && IsConst(t, w)
    ensures v == w <==> t[v - 1].k == t[w - 1].k
  {
  }

  // ---------------------------------------------------------------------------------------
  // What rewriting one statement has to keep
  // ---------------------------------------------------------------------------------------

  /** val is the number of e. */
  ghost predicate IsEntry(t: seq<Expr>, val: nat, e: Expr) {
    0 < val <= |t| && t[val - 1] == e
  }

  /** The registers whose numbers the statement hands to the table are known. */
  predicate Known(s: Stmt, val: Vals) {
    match s
    case LdInd(_, _) => val[X_ATOM] != VAL_UNKNOWN
    case Neg => val[A_ATOM] != VAL_UNKNOWN
    case AluK(_, _) => val[A_ATOM] != VAL_UNKNOWN
    case AluX(_) => val[A_ATOM] != VAL_UNKNOWN && val[X_ATOM] != VAL_UNKNOWN
    case _ => true
  }

  /** Only the number of the register a statement defines changes; if the operands are known, that number
      is unknown exactly if the statement copies a register whose number is. */
  ghost predicate Framed(s: Stmt, val: Vals, val': Vals) {
    if s == Nop then val' == val
    else
      && val' == val[Target(s) := val'[Target(s)]]
      && (Known(s, val) ==> (val'[Target(s)] == VAL_UNKNOWN <==> Moves(s) && val[MoveSource(s)] == VAL_UNKNOWN))
  }

  /** In every state that val describes, s' does what s does, and val' describes the outcome. */
  ghost predicate Sound(t: seq<Expr>, val: Vals, s: Stmt, t': seq<Expr>, s': Stmt, val': Vals)
    requires Table(t) && InTable(t, val) && Table(t') && InTable(t', val')
  {
    forall p, r :: Consistent(t, val, p, r) ==>
      Exec(s', p, r) == Exec(s, p, r) && Consistent(t', val', p, Exec(s, p, r))
  }

  /** In every state that val describes, s writes what v denotes. */
  ghost predicate Writes(t: seq<Expr>, val: Vals, s: Stmt, v: nat)
    requires Table(t) && InTable(t, val)
  {
    s != Nop && v <= |t| && forall p, r :: Consistent(t, val, p, r) ==> Value(s, p, r) == Den(t, v, p)
  }

  lemma SoundGrows(t: seq<Expr>, t': seq<Expr>, val: Vals, s: Stmt, s': Stmt, val': Vals)
    requires Table(t) && Table(t') && t <= t' && InTable(t, val) && InTable(t', val')
    requires InTable(t', val) && Sound(t', val, s, t', s', val')
    ensures Sound(t, val, s, t', s', val')
  {
    forall p, r | Consistent(t, val, p, r)
      ensures Exec(s', p, r) == Exec(s, p, r) && Consistent(t', val', p, Exec(s, p, r))
    {
      ConsistentGrows(t, t', val, p, r);
    }
  }

  /** Numbers the register a statement defines, deleting the statement if the register already
      holds that value. */
  function VStore(s: Stmt, val: Vals, a: nat, v: nat, alter: bool): (Stmt, Vals)
    requires a < N_ATOMS
  {
    if alter && v != VAL_UNKNOWN && val[a] == v then (Nop, val) else (s, val[a := v])
  }

  /** Replacing a statement by one that writes the same value is sound. */
  lemma SetSound(t: seq<Expr>, val: Vals, s: Stmt, s1: Stmt, v: nat)
    requires Table(t) && InTable(t, val) && s != Nop && s1 != Nop && Target(s1) == Target(s)
    requires Writes(t, val, s, v) && Writes(t, val, s1, v)
    ensures InTable(t, val[Target(s) := v]) && Sound(t, val, s, t, s1, val[Target(s) := v])
  {
    hide Den, Value;
  }

  lemma StoreSound(t: seq<Expr>, val: Vals, s: Stmt, s1: Stmt, v: nat, alter: bool)
    requires Table(t) && InTable(t, val) && s != Nop && s1 != Nop && Target(s1) == Target(s) && v <= |t|
    requires if v != VAL_UNKNOWN then Writes(t, val, s, v) && Writes(t, val, s1, v) else s1 == s
    ensures var (s', val') := VStore(s1, val, Target(s), v, alter);
      InTable(t, val') && Sound(t, val, s, t, s', val')
  {
    hide Den, Value;
    if v != VAL_UNKNOWN { SetSound(t, val, s, s1, v); }
    var (s', val') := VStore(s1, val, Target(s), v, alter);
    forall p, r | Consistent(t, val, p, r)
      ensures Exec(s', p, r) == Exec(s, p, r) && Consistent(t, val', p, Exec(s, p, r))
    {
      if s' == Nop { assert r[Target(s) := r[Target(s)]] == r; }
    }
  }

  /** Deleting a statement that leaves its register as it is is sound. */
  lemma DeleteSound(t: seq<Expr>, val: Vals, s: Stmt)
    requires Table(t) && InTable(t, val) && s != Nop
    requires forall p, r :: Consistent(t, val, p, r) ==> Value(s, p, r) == r[Target(s)]
    ensures Sound(t, val, s, t, Nop, val)
  {
    hide Den, Value;
    forall p, r | Consistent(t, val, p, r) ensures Exec(s, p, r) == r {
      assert r[Target(s) := r[Target(s)]] == r;
    }
  }

  // ---------------------------------------------------------------------------------------
  // What statements write
  // ---------------------------------------------------------------------------------------

  /** The expression a statement computes, from the numbers of its operands; w numbers its
      constant. */
  function ExprOf(s: Stmt, val: Vals, w: nat): Expr
    requires s != Nop
  {
    match s
    case LdAbs(size, k) => Abs(size, k)
    case LdInd(size, k) => Ind(size, k, val[X_ATOM])
    case LdLen => Len
    case LdImm(k) => Imm(k)
    case LdxImm(k) => Imm(k)
    case LdxMsh(k) => Msh(k)
    case Neg => NegOf(val[A_ATOM])
    case AluK(op, _) => BinK(op, val[A_ATOM], w)
    case AluX(op) => BinX(op, val[A_ATOM], val[X_ATOM])
    case _ => Len
  }

  predicate Moves(s: Stmt) {
    s.LdMem? || s.LdxMem? || s.St? || s.Stx? || s.Tax? || s.Txa?
  }

  /** A statement with known operands writes what its expression's number denotes. */
  lemma WritesEntry(t: seq<Expr>, val: Vals, s: Stmt, v: nat, w: nat)
    requires Table(t) && InTable(t, val) && s != Nop && !Moves(s) && Known(s, val)
    requires s.AluK? ==> IsEntry(t, w, Imm(s.k))
    requires IsEntry(t, v, ExprOf(s, val, w))
    ensures Writes(t, val, s, v)
  {
    hide Alu, Indexed, HeaderLength, Negate;
    forall p, r | Consistent(t, val, p, r) ensures Value(s, p, r) == Den(t, v, p) {
      if s.AluK? { assert Den(t, w, p) == s.k; }
    }
  }

  /** The register a move copies. */
  function MoveSource(s: Stmt): (a: nat)
    requires Moves(s)
    ensures a < N_ATOMS
  {
    match s
    case LdMem(m) => m
    case LdxMem(m) => m
    case St(_) => A_ATOM
    case Stx(_) => X_ATOM
    case Tax => A_ATOM
    case Txa => X_ATOM
  }

  lemma WritesMove(t: seq<Expr>, val: Vals, s: Stmt)
    requires Table(t) && InTable(t, val) && Moves(s) && val[MoveSource(s)] != VAL_UNKNOWN
    ensures Writes(t, val, s, val[MoveSource(s)])
  {
  }

  /** A constant load writes what a constant's number denotes. */
  lemma WritesConst(t: seq<Expr>, val: Vals, k: Word, v: nat)
    requires Table(t) && InTable(t, val) && IsEntry(t, v, Imm(k))
    ensures Writes(t, val, LdImm(k), v) && Writes(t, val, LdxImm(k), v)
  {
  }

  lemma IndexedCommutes(x: Word, k: Word)
    ensures Indexed(x, k) == Indexed(k, x)
  {
  }

  /** An indexed load with a constant index is an absolute load. */
  lemma WritesIndConst(t: seq<Expr>, val: Vals, size: Size, k: Word, c: Word, v: nat)
    requires Table(t) && InTable(t, val) && IsEntry(t, val[X_ATOM], Imm(c)) && IsEntry(t, v, Abs(size, Indexed(k, c)))
    ensures Writes(t, val, LdInd(size, k), v)
  {
    IndexedCommutes(c, k);
    hide Indexed, Alu, HeaderLength, Negate;
    forall p, r | Consistent(t, val, p, r) ensures Value(LdInd(size, k), p, r) == Den(t, v, p) {
      assert r[X_ATOM] == Den(t, val[X_ATOM], p) == c;
    }
  }

  /** An operation on constants writes the constant it folds to. */
  lemma WritesFolded(t: seq<Expr>, val: Vals, s: Stmt, a: Word, x: Word, v: nat)
    requires Table(t) && InTable(t, val) && IsEntry(t, val[A_ATOM], Imm(a))
    requires match s
      case Neg => IsEntry(t, v, Imm(Negate(a)))
      case AluK(op, k) => IsEntry(t, v, Imm(Alu(op, a, k)))
      case AluX(op) => IsEntry(t, val[X_ATOM], Imm(x)) && IsEntry(t, v, Imm(Alu(op, a, x)))
      case _ => false
    ensures Writes(t, val, s, v)
  {
    hide Alu, Negate, Indexed, HeaderLength;
  }

  /** The result of an operation on the constants a and x. */
  function Folding(s: Stmt, a: Word, x: Word): Word
    requires Arithmetic(s)
  {
    match s
    case Neg => Negate(a)
    case AluK(op, k) => Alu(op, a, k)
    case AluX(op) => Alu(op, a, x)
  }

  /** The operation divides by a constant zero. */
  predicate DividesByZero(s: Stmt, x: Word) {
    match s
    case AluK(op, k) => (op.Div? || op.Mod?) && k == ZERO
    case AluX(op) => (op.Div? || op.Mod?) && x == ZERO
    case _ => false
  }

  /** The operation, on the constants a and x, computes k, said of numbers and of single bits. */
  ghost predicate FoldsTo(s: Stmt, a: Word, x: Word, k: Word) {
    match s
    case Neg => Number(k) == (0 - Number(a)) % WORDS
    case AluK(op, y) => Computes(op, a, y, k)
    case AluX(op) => Computes(op, a, x, k)
    case _ => false
  }

  /** It computes that word and no other. */
  lemma FoldingExact(s: Stmt, a: Word, x: Word, k: Word)
    requires Arithmetic(s) && !DividesByZero(s, x)
    ensures FoldsTo(s, a, x, k) <==> k == Folding(s, a, x)
  {
    hide Alu, Negate, Number, Computes;
    match s
    case Neg =>
      NumberNegate(a);
      SameNumber(k, Negate(a));
    case AluK(op, y) =>
      NumberZero(y);
      AluExact(op, a, y, k);
    case AluX(op) =>
      NumberZero(x);
      AluExact(op, a, x, k);
  }

  /** The operands of an operation are known to be the constants a and x. */
  ghost predicate ConstOperands(t: seq<Expr>, val: Vals, s: Stmt, a: Word, x: Word) {
    Arithmetic(s) && IsEntry(t, val[A_ATOM], Imm(a)) && (s.AluX? ==> IsEntry(t, val[X_ATOM], Imm(x)))
  }

  /** s' writes k into A, if A and X hold a and x. */
  predicate Wrote(s': Stmt, a: Word, x: Word, k: Word) {
    match s'
    case Nop => k == a
    case LdImm(c) => k == c
    case Txa => k == x
    case _ => false
  }

  /** An operation on constants is no operation any more, and what it leaves in A is what the operation computes. */
  ghost predicate FoldsRight(t: seq<Expr>, val: Vals, s: Stmt, s': Stmt) {
    forall a, x :: ConstOperands(t, val, s, a, x) ==> exists k :: Wrote(s', a, x, k) && FoldsTo(s, a, x, k)
  }

  lemma SoundFolds(t: seq<Expr>, val: Vals, s: Stmt, t': seq<Expr>, s': Stmt, val': Vals)
    requires Table(t) && InTable(t, val) && Table(t') && InTable(t', val') && Sound(t, val, s, t', s', val')
    requires Simplified(s, s') && Folded(t, val, s') && !Rejects(t, s, val)
    ensures FoldsRight(t, val, s, s')
  {
    hide Alu, Negate, FoldsTo;
    forall a, x | ConstOperands(t, val, s, a, x) ensures exists k :: Wrote(s', a, x, k) && FoldsTo(s, a, x, k) {
      var p := Packet(map[], ZERO);
      var r := Denoted(t, val, p);
      assert Consistent(t, val, p, r);
      assert Exec(s', p, r)[A_ATOM] == Exec(s, p, r)[A_ATOM];
      assert r[A_ATOM] == a && (s.AluX? ==> r[X_ATOM] == x);
      NotByZero(t, val, s, a, x);
      FoldingExact(s, a, x, Folding(s, a, x));
      WroteFolding(t, val, s, s', a, x, p, r);
    }
  }

  lemma WroteFolding(t: seq<Expr>, val: Vals, s: Stmt, s': Stmt, a: Word, x: Word, p: Packet, r: Regs)
    requires ConstOperands(t, val, s, a, x) && Simplified(s, s') && Folded(t, val, s')
    requires r[A_ATOM] == a && (s.AluX? ==> r[X_ATOM] == x) && Exec(s', p, r)[A_ATOM] == Exec(s, p, r)[A_ATOM]
    ensures Wrote(s', a, x, Folding(s, a, x))
  {
    hide Alu, Negate, Indexed, HeaderLength;
    assert IsConst(t, val[A_ATOM]) && (s.AluX? ==> IsConst(t, val[X_ATOM]));
  }

  lemma NothingFolds(t: seq<Expr>, val: Vals, s: Stmt, s': Stmt)
    requires !Arithmetic(s) || !Known(s, val)
    ensures FoldsRight(t, val, s, s')
  {
    hide FoldsTo, Wrote;
  }

  lemma NotByZero(t: seq<Expr>, val: Vals, s: Stmt, a: Word, x: Word)
    requires ConstOperands(t, val, s, a, x) && !Rejects(t, s, val)
    ensures !DividesByZero(s, x)
  {
  }

  /** A state that the numbers describe. */
  ghost function Denoted(t: seq<Expr>, val: Vals, p: Packet): Regs
    requires Table(t) && InTable(t, val)
  {
    seq(18, (i: nat) requires i < 18 => Den(t, val[i], p))
  }

  /** An operation with a constant index register is an operation with that constant. */
  lemma WritesConstX(t: seq<Expr>, val: Vals, op: AluOp, x: Word, v: nat, w: nat)
    requires Table(t) && InTable(t, val) && val[A_ATOM] != VAL_UNKNOWN
    requires IsEntry(t, val[X_ATOM], Imm(x)) && IsEntry(t, w, Imm(x)) && IsEntry(t, v, BinK(op, val[A_ATOM], w))
    ensures Writes(t, val, AluX(op), v)
  {
    hide Alu, Negate, Indexed, HeaderLength;
  }

  /** Operators that leave A alone when the constant is zero. */
  predicate ZeroIsIdentity(op: AluOp) {
    op.Add? || op.Lsh? || op.Rsh? || op.Or? || op.Xor?
  }

  /** Operators that give zero when the constant is zero. */
  predicate ZeroIsZero(op: AluOp) {
    op.Mul? || op.And?
  }

  /** Operators that give X when A is zero. */
  predicate ZeroGivesX(op: AluOp) {
    op.Add? || op.Or? || op.Xor?
  }

  /** Operators that give zero when A is zero. */
  predicate ZeroGivesZero(op: AluOp) {
    op.Mul? || op.Div? || op.Mod? || op.And? || op.Lsh? || op.Rsh?
  }

  lemma ZeroRight(op: AluOp, a: Word)
    ensures ZeroIsIdentity(op) ==> Alu(op, a, ZERO) == a
    ensures ZeroIsZero(op) ==> Alu(op, a, ZERO) == ZERO
  {
  }

  lemma ZeroLeft(op: AluOp, x: Word)
    ensures ZeroGivesX(op) ==> Alu(op, ZERO, x) == x
    ensures ZeroGivesZero(op) ==> Alu(op, ZERO, x) == ZERO
  {
  }

  /** These are all the operators of which that is true, but for subtraction and for division by zero. */
  lemma ZeroOperators(op: AluOp)
    ensures ZeroIsIdentity(op) <==> !op.Sub? && forall a :: Alu(op, a, ZERO) == a
    ensures ZeroIsZero(op) <==> !op.Div? && !op.Mod? && forall a :: Alu(op, a, ZERO) == ZERO
    ensures ZeroGivesX(op) <==> forall x :: Alu(op, ZERO, x) == x
    ensures ZeroGivesZero(op) <==> forall x :: Alu(op, ZERO, x) == ZERO
  {
    hide Alu, ZERO;
    OnesAndZeros(op, Word(1));
    forall a ensures ZeroIsIdentity(op) ==> Alu(op, a, ZERO) == a { ZeroRight(op, a); }
    forall a ensures ZeroIsZero(op) ==> Alu(op, a, ZERO) == ZERO { ZeroRight(op, a); }
    forall x ensures ZeroGivesX(op) ==> Alu(op, ZERO, x) == x { ZeroLeft(op, x); }
    forall x ensures ZeroGivesZero(op) ==> Alu(op, ZERO, x) == ZERO { ZeroLeft(op, x); }
  }

  lemma OnesAndZeros(op: AluOp, one: Word)
    requires one == Word(1)
    ensures one != ZERO
    ensures Alu(op, one, ZERO) == one <==> op in {Add, Sub, Or, Xor, Lsh, Rsh}
    ensures Alu(op, one, ZERO) == ZERO <==> op in {Mul, Div, Mod, And}
    ensures Alu(op, ZERO, one) == one <==> op in {Add, Or, Xor}
    ensures Alu(op, ZERO, one) == ZERO <==> op !in {Add, Sub, Or, Xor}
  {
  }

  /** What becomes of an operation with a constant zero, or on an A that is known to be zero. */
  ghost predicate ZeroRules(t: seq<Expr>, val: Vals, s: Stmt, s': Stmt) {
    && (s.AluK? && s.k == ZERO ==> (ZeroIsIdentity(s.op) ==> s' == Nop) && (ZeroIsZero(s.op) ==> s' == LdImm(ZERO)))
    && (s.AluX? && !IsConst(t, val[X_ATOM]) && IsEntry(t, val[A_ATOM], Imm(ZERO)) ==>
          (ZeroGivesX(s.op) ==> s' == Txa) && (ZeroGivesZero(s.op) ==> s' == Nop))
  }

  /** What rewriting does to a statement that is not refused: constants and zeros are made use of. */
  ghost predicate Rewrote(t: seq<Expr>, val: Vals, s: Stmt, s': Stmt) {
    !Rejects(t, s, val) && Folded(t, val, s') && FoldsRight(t, val, s, s') && ZeroRules(t, val, s, s')
  }

  lemma RewroteGrows(t: seq<Expr>, t': seq<Expr>, val: Vals, s: Stmt, s': Stmt)
    requires t <= t' && InTable(t, val) && Rewrote(t, val, s, s')
    ensures Rewrote(t', val, s, s')
  {
    hide FoldsTo, Wrote, Folded, FoldsRight, ZeroRules, Rejects;
    EntriesSame(t, t', val);
    RejectsSame(t, t', val, s);
    FoldedSame(t, t', val, s');
    FoldsRightSame(t, t', val, s, s');
    ZeroRulesSame(t, t', val, s, s');
  }

  /** A larger table says of numbers of the smaller what that says. */
  ghost predicate SameEntries(t: seq<Expr>, t': seq<Expr>, val: Vals) {
    forall a :: 0 <= a < N_ATOMS ==> IsConst(t', val[a]) == IsConst(t, val[a]) && forall e :: IsEntry(t', val[a], e) == IsEntry(t, val[a], e)
  }

  lemma EntriesSame(t: seq<Expr>, t': seq<Expr>, val: Vals)
    requires t <= t' && InTable(t, val)
    ensures SameEntries(t, t', val)
  {
  }

  lemma RejectsSame(t: seq<Expr>, t': seq<Expr>, val: Vals, s: Stmt)
    requires t <= t' && InTable(t, val)
    ensures Rejects(t', s, val) == Rejects(t, s, val)
  {
  }

  lemma FoldedSame(t: seq<Expr>, t': seq<Expr>, val: Vals, s: Stmt)
    requires SameEntries(t, t', val)
    ensures Folded(t', val, s) == Folded(t, val, s)
  {
    hide IsConst, IsEntry;
  }

  lemma FoldsRightSame(t: seq<Expr>, t': seq<Expr>, val: Vals, s: Stmt, s': Stmt)
    requires SameEntries(t, t', val)
    ensures FoldsRight(t', val, s, s') == FoldsRight(t, val, s, s')
  {
    hide IsConst, IsEntry, FoldsTo, Wrote;
    assert forall a, x :: ConstOperands(t', val, s, a, x) == ConstOperands(t, val, s, a, x);
    hide ConstOperands;
  }

  lemma ZeroRulesSame(t: seq<Expr>, t': seq<Expr>, val: Vals, s: Stmt, s': Stmt)
    requires SameEntries(t, t', val)
    ensures ZeroRules(t', val, s, s') == ZeroRules(t, val, s, s')
  {
    hide IsConst, IsEntry;
  }

  lemma NamedGrows(t: seq<Expr>, t': seq<Expr>, s: Stmt, val: Vals, v: nat)
    requires t <= t' && s != Nop && Named(t, s, val, v)
    ensures Named(t', s, val, v)
  {
    hide ExprOf;
    if !Moves(s) {
      var w :| IsEntry(t, v, ExprOf(s, val, w)) && (s.AluK? ==> IsEntry(t, w, Imm(s.k)));
      NamedBy(t', s, val, v, w);
    }
  }

  /** v numbers what a statement writes: the register it copies, or the expression it computes from the numbers of its
      operands. */
  ghost predicate Named(t: seq<Expr>, s: Stmt, val: Vals, v: nat)
    requires s != Nop
  {
    if Moves(s) then v == val[MoveSource(s)]
    else exists w :: IsEntry(t, v, ExprOf(s, val, w)) && (s.AluK? ==> IsEntry(t, w, Imm(s.k)))
  }

  lemma NamedBy(t: seq<Expr>, s: Stmt, val: Vals, v: nat, w: nat)
    requires s != Nop && !Moves(s) && IsEntry(t, v, ExprOf(s, val, w)) && (s.AluK? ==> IsEntry(t, w, Imm(s.k)))
    ensures Named(t, s, val, v)
  {
  }

  lemma NamedMove(t: seq<Expr>, s: Stmt, val: Vals)
    requires Moves(s)
    ensures Named(t, s, val, val[MoveSource(s)])
  {
  }

  lemma NamedConst(t: seq<Expr>, s: Stmt, val: Vals, v: nat, c: Word)
    requires (s == LdImm(c) || s == LdxImm(c)) && IsEntry(t, v, Imm(c))
    ensures Named(t, s, val, v)
  {
    NamedBy(t, s, val, v, 0);
  }

  lemma EntryConst(t: seq<Expr>, v: nat, k: Word)
    requires IsEntry(t, v, Imm(k))
    ensures IsConst(t, v)
  {
  }

  lemma ZeroRulesX(t: seq<Expr>, val: Vals, op: AluOp, s': Stmt, a: Word)
    requires IsConst(t, val[A_ATOM]) ==> IsEntry(t, val[A_ATOM], Imm(a))
    requires !IsConst(t, val[X_ATOM]) && IsConst(t, val[A_ATOM]) && a == ZERO ==>
      (ZeroGivesX(op) ==> s' == Txa) && (ZeroGivesZero(op) ==> s' == Nop)
    ensures ZeroRules(t, val, AluX(op), s')
  {
  }

  /** An expression has one number only. */
  lemma OneNumber(t: seq<Expr>, v: nat, w: nat, e: Expr)
    requires Table(t) && IsEntry(t, v, e) && IsEntry(t, w, e)
    ensures v == w
  {
  }

  lemma IdentityDeletes(t: seq<Expr>, val: Vals, op: AluOp)
    requires Table(t) && InTable(t, val) && ZeroIsIdentity(op)
    ensures Sound(t, val, AluK(op, ZERO), t, Nop, val)
  {
    hide Alu, Negate, Indexed, HeaderLength;
    forall p, r: Regs ensures Value(AluK(op, ZERO), p, r) == r[A_ATOM] { ZeroRight(op, r[A_ATOM]); }
    DeleteSound(t, val, AluK(op, ZERO));
  }

  lemma WritesZeroRight(t: seq<Expr>, val: Vals, op: AluOp, v: nat)
    requires Table(t) && InTable(t, val) && ZeroIsZero(op) && IsEntry(t, v, Imm(ZERO))
    ensures Writes(t, val, AluK(op, ZERO), v)
  {
    hide Alu, Negate, Indexed, HeaderLength;
    forall p, r: Regs ensures Value(AluK(op, ZERO), p, r) == ZERO { ZeroRight(op, r[A_ATOM]); }
  }

  lemma WritesZeroLeft(t: seq<Expr>, val: Vals, op: AluOp, v: nat)
    requires Table(t) && InTable(t, val) && IsEntry(t, val[A_ATOM], Imm(ZERO))
    requires (ZeroGivesZero(op) && IsEntry(t, v, Imm(ZERO))) || (ZeroGivesX(op) && v == val[X_ATOM] != VAL_UNKNOWN)
    ensures Writes(t, val, AluX(op), v)
  {
    hide Alu, Negate, Indexed, HeaderLength;
    forall p, r | Consistent(t, val, p, r) ensures Value(AluX(op), p, r) == Den(t, v, p) {
      ZeroLeft(op, r[X_ATOM]);
    }
  }

  // ---------------------------------------------------------------------------------------
  // The table
  // ---------------------------------------------------------------------------------------

  const MODULUS: nat := 213

  /** A hash chain entry. */
  datatype Node = Node(e: Expr, val: nat)

  datatype VmapInfo = VmapInfo(isConst: bool, constVal: Word)

  /** Each entry is in its chain, and chains hold nothing else. */
  ghost predicate Chained(t: seq<Expr>, hashtbl: seq<seq<Node>>, bucket: Expr -> nat) {
    && |hashtbl| == MODULUS
    && (forall i :: 0 <= i < |t| ==> Node(t[i], i + 1) in hashtbl[bucket(t[i]) % MODULUS])
    && (forall h, n :: 0 <= h < MODULUS && n in hashtbl[h] ==> 0 < n.val <= |t| && t[n.val - 1] == n.e)
  }

  lemma ChainedAdd(t: seq<Expr>, hashtbl: seq<seq<Node>>, bucket: Expr -> nat, e: Expr)
    requires Chained(t, hashtbl, bucket)
    ensures var h := bucket(e) % MODULUS;
      |hashtbl| == MODULUS && Chained(t + [e], hashtbl[h := [Node(e, |t| + 1)] + hashtbl[h]], bucket)
  {
    var h := bucket(e) % MODULUS;
    var tbl := hashtbl[h := [Node(e, |t| + 1)] + hashtbl[h]];
    forall i | 0 <= i < |t + [e]| ensures Node((t + [e])[i], i + 1) in tbl[bucket((t + [e])[i]) % MODULUS] {
      if i == |t| { assert tbl[h][0] == Node(e, |t| + 1); }
      else { assert Node(t[i], i + 1) in hashtbl[bucket(t[i]) % MODULUS]; }
    }
  }

  /** The constants the optimizer may look up. */
  ghost predicate Mapped(t: seq<Expr>, vmap: seq<VmapInfo>) {
    && |t| < |vmap|
    && forall v :: 0 <= v < |vmap| ==>
         (vmap[v].isConst <==> IsConst(t, v)) && (vmap[v].isConst ==> vmap[v].constVal == t[v - 1].k)
  }

  lemma TableAdd(t: seq<Expr>, e: Expr)
    requires Table(t) && e !in t && MaxOperand(e) <= |t|
    ensures Table(t + [e])
  {
  }

  lemma MappedAdd(t: seq<Expr>, vmap: seq<VmapInfo>, e: Expr)
    requires Mapped(t, vmap) && |t| + 1 < |vmap|
    ensures Mapped(t + [e], if e.Imm? then vmap[|t| + 1 := VmapInfo(true, e.k)] else vmap)
  {
  }

  class ValueTable {
    const bucket: Expr -> nat
    const vmap: array<VmapInfo>
    var curval: nat
    var hashtbl: seq<seq<Node>>
    ghost var exprs: seq<Expr>

    ghost predicate Valid()
      reads this, vmap
    {
      && Table(exprs) && |exprs| == curval
      && Chained(exprs, hashtbl, bucket) && Mapped(exprs, vmap[..])
    }

    constructor (hash: Expr -> nat, maxval: nat)
      requires maxval > 0
      ensures Valid() && curval == 0 && vmap.Length == maxval && fresh(vmap) && bucket == hash
    {
      bucket := hash;
      vmap := new VmapInfo[maxval](_ => VmapInfo(false, ZERO));
      curval := 0;
      hashtbl := seq(MODULUS, i => []);
      exprs := [];
    }

    /** Forgets every value. */
    method InitVal()
      requires vmap.Length > 0
      modifies this, vmap
      ensures Valid() && curval == 0 && exprs == []
    {
      curval := 0;
      exprs := [];
      hashtbl := seq(MODULUS, i => []);
      forall i | 0 <= i < vmap.Length { vmap[i] := VmapInfo(false, ZERO); }
    }

    /** The number of an expression: its old one if it has one, else a new one. */
    method F(e: Expr) returns (val: nat)
      requires Valid() && MaxOperand(e) <= curval && curval + 1 < vmap.Length
      modifies this, vmap
      ensures Valid() && Table(exprs) && |exprs| == curval <= old(curval) + 1 && old(exprs) <= exprs
      ensures IsEntry(exprs, val, e)
    {
      var hash := bucket(e) % MODULUS;
      for i := 0 to |hashtbl[hash]|
        invariant forall j :: 0 <= j < i ==> hashtbl[hash][j].e != e
      {
        if hashtbl[hash][i].e == e {
          assert hashtbl[hash][i] in hashtbl[hash];
          return hashtbl[hash][i].val;
        }
      }
      assert e !in exprs;
      val := Append(e, hash);
    }

    /** Makes a new entry. */
    method Append(e: Expr, hash: nat) returns (val: nat)
      requires Valid() && MaxOperand(e) <= curval && curval + 1 < vmap.Length
      requires e !in exprs && hash == bucket(e) % MODULUS
      modifies this, vmap
      ensures Valid() && exprs == old(exprs) + [e] && val == curval == old(curval) + 1
    {
      hide Chained, Table, Mapped;
      ChainedAdd(exprs, hashtbl, bucket, e);
      TableAdd(exprs, e);
      MappedAdd(exprs, vmap[..], e);
      ghost var was := vmap[..];
      curval := curval + 1;
      val := curval;
      if e.Imm? { vmap[val] := VmapInfo(true, e.k); }
      hashtbl := hashtbl[hash := [Node(e, val)] + hashtbl[hash]];
      exprs := exprs + [e];
      assert vmap[..] == if e.Imm? then was[val := VmapInfo(true, e.k)] else was;
    }

    /** Whether a value number is a known constant, and which. */
    method Lookup(v: nat) returns (isConst: bool, c: Word)
      requires Valid() && v <= curval
      ensures isConst <==> IsConst(exprs, v)
      ensures isConst ==> IsEntry(exprs, v, Imm(c))
    {
      isConst, c := vmap[v].isConst, vmap[v].constVal;
    }

    lemma ValidShape(val: Vals)
      requires Valid()
      ensures Table(exprs) && |exprs| == curval < vmap.Length
      ensures InTable(exprs, val) ==> forall a :: 0 <= a < N_ATOMS ==> val[a] <= curval
    {
    }

    lemma ValidSize()
      requires Valid()
      ensures |exprs| == curval
    {
    }

    /** What every step of statement rewriting promises. */
    ghost predicate Stepped(t: seq<Expr>, val: Vals, s: Stmt, s': Stmt, val': Vals)
      reads this, vmap
    {
      && Valid() && Table(t) && t <= exprs && InTable(t, val) && InTable(exprs, val') && curval <= |t| + 2
      && (Known(s, val) ==> Sound(t, val, s, exprs, s', val'))
      && Framed(s, val, val')
    }

    /** An indexed load whose index is the constant c becomes an absolute load. */
    method OptIndConst(size: Size, k: Word, c: Word, val: Vals) returns (s': Stmt, val': Vals)
      requires Valid() && InTable(exprs, val) && curval + 2 < vmap.Length && IsEntry(exprs, val[X_ATOM], Imm(c))
      modifies this, vmap
      ensures Stepped(old(exprs), val, LdInd(size, k), s', val')
      ensures s' == Nop || (s'.LdAbs? && val'[A_ATOM] != val[A_ATOM] && Named(exprs, s', val, val'[A_ATOM]))
      ensures s' == Nop ==> val' == val && val[A_ATOM] != VAL_UNKNOWN
    {
      ghost var t := exprs;
      hide Valid, Table, InTable, Sound, Writes, IsEntry, Indexed, Framed;
      ValidShape(val);
      var s1 := LdAbs(size, Indexed(k, c));
      var v := F(Abs(size, Indexed(k, c)));
      TableGrows(t, exprs, val, val[X_ATOM], Imm(c));
      WritesIndConst(exprs, val, size, k, c, v);
      WritesEntry(exprs, val, s1, v, 0);
      EntryInRange(exprs, v, Abs(size, Indexed(k, c)));
      NamedBy(exprs, s1, val, v, 0);
      var pair := VStore(s1, val, A_ATOM, v, true);
      s', val' := pair.0, pair.1;
      FinishStore(t, exprs, val, LdInd(size, k), s1, v, true);
    }

    /** Loads and other statements that compute one expression from their operands. */
    method OptLoad(s: Stmt, val: Vals, alter: bool) returns (s': Stmt, val': Vals)
      requires Valid() && InTable(exprs, val) && curval + 2 < vmap.Length
      requires s.LdAbs? || s.LdInd? || s.LdLen? || s.LdImm? || s.LdxImm? || s.LdxMsh?
      modifies this, vmap
      ensures Stepped(old(exprs), val, s, s', val')
      ensures !alter ==> s' == s
      ensures s' == s || s' == Nop
      ensures alter ==> s' == Nop || val'[Target(s)] != val[Target(s)]
      ensures s' == Nop ==> val' == val && val[Target(s)] != VAL_UNKNOWN
      ensures IsEntry(exprs, val'[Target(s)], ExprOf(s, val, 0)) && Named(exprs, s, val, val'[Target(s)])
    {
      ghost var t := exprs;
      hide Valid, Table, InTable, Sound, Writes, IsEntry, ExprOf, Target, Known, Framed, MaxOperand;
      ValidShape(val);
      var e := ExprOf(s, val, 0);
      OperandsInRange(t, val, s);
      var v := F(e);
      TableGrows(t, exprs, val, 0, Len);
      EntryInRange(exprs, v, e);
      NamedBy(exprs, s, val, v, 0);
      if Known(s, val) { WritesEntry(exprs, val, s, v, 0); }
      var pair := VStore(s, val, Target(s), v, alter);
      s', val' := pair.0, pair.1;
      FinishStore(t, exprs, val, s, s, v, alter);
    }

    /** Moves between registers: the target gets the source's number. */
    method OptMove(s: Stmt, val: Vals, alter: bool) returns (s': Stmt, val': Vals)
      requires Valid() && InTable(exprs, val) && curval + 2 < vmap.Length && Moves(s)
      modifies this, vmap
      ensures Stepped(old(exprs), val, s, s', val')
      ensures !alter ==> s' == s
      ensures Simplified(s, s')
      ensures alter && (s'.LdMem? || s'.LdxMem?) ==> !IsConst(old(exprs), val[s'.m])
      ensures alter ==> s' == Nop || val'[Target(s)] == VAL_UNKNOWN || val'[Target(s)] != val[Target(s)]
      ensures s' == Nop ==> val' == val && val[Target(s)] != VAL_UNKNOWN
      ensures val'[Target(s)] == val[MoveSource(s)] && (!IsConst(old(exprs), val[MoveSource(s)]) ==> s' == s || s' == Nop)
      ensures s' != Nop ==> Named(exprs, s', val, val'[Target(s)])
    {
      hide Valid, Table, Sound, Writes, Framed, Named, InTable, IsEntry, IsConst;
      var v := val[MoveSource(s)];
      ValidShape(val);
      var isConst, c := Lookup(v);
      var s1 := s;
      if alter && isConst && s.LdMem? { s1 := LdImm(c); }
      if alter && isConst && s.LdxMem? { s1 := LdxImm(c); }
      if v != VAL_UNKNOWN { WritesMove(exprs, val, s); }
      if isConst { WritesConst(exprs, val, c, v); }
      if s1 == s { NamedMove(exprs, s, val); } else { NamedConst(exprs, s1, val, v, c); }
      var pair := VStore(s1, val, Target(s), v, alter);
      s', val' := pair.0, pair.1;
      FinishStore(exprs, exprs, val, s, s1, v, alter);
    }

    /** Replaces a statement by a load of the constant k, which it is known to write into A. */
    method SetConst(s: Stmt, k: Word, val: Vals, ghost t: seq<Expr>) returns (s': Stmt, val': Vals)
      requires Valid() && Table(t) && t <= exprs && InTable(t, val) && curval + 1 < vmap.Length && curval <= |t| + 1
      requires Arithmetic(s)
      requires forall t', v :: Table(t') && exprs <= t' && IsEntry(t', v, Imm(k)) && InTable(t', val) ==> Writes(t', val, s, v)
      modifies this, vmap
      ensures Stepped(t, val, s, s', val') && s' == LdImm(k) && Named(exprs, s', val, val'[A_ATOM])
    {
      hide Valid, Table, Sound, Writes, InTable, IsEntry, Framed, Known;
      ValidShape(val);
      ghost var t1 := exprs;
      var v := F(Imm(k));
      TableGrows(t, exprs, val, 0, Len);
      EntryInRange(exprs, v, Imm(k));
      WritesConst(exprs, val, k, v);
      assert Writes(exprs, val, s, v);
      s', val' := LdImm(k), val[A_ATOM := v];
      NamedBy(exprs, s', val, v, 0);
      FinishSet(t, exprs, val, s, s', v);
    }

    /** Folds an operation whose operands are the constants a and x: it becomes a load of the word that the operation
        computes. */
    method FoldConst(s: Stmt, a: Word, x: Word, val: Vals, ghost t: seq<Expr>) returns (s': Stmt, val': Vals)
      requires Valid() && Table(t) && t <= exprs && InTable(t, val) && curval + 1 < vmap.Length && curval <= |t| + 1
      requires Arithmetic(s) && IsEntry(t, val[A_ATOM], Imm(a)) && (s.AluX? ==> IsEntry(t, val[X_ATOM], Imm(x))) && !DividesByZero(s, x)
      modifies this, vmap
      ensures Stepped(t, val, s, s', val') && s'.LdImm? && FoldsTo(s, a, x, s'.k) && Named(exprs, s', val, val'[A_ATOM])
    {
      hide Valid, Table, Sound, Writes, InTable, IsEntry, Alu, Negate, FoldsTo;
      var k := Folding(s, a, x);
      FoldingExact(s, a, x, k);
      forall t', v | Table(t') && exprs <= t' && IsEntry(t', v, Imm(k)) && InTable(t', val)
        ensures Writes(t', val, s, v)
      {
        TableGrows(t, t', val, val[A_ATOM], Imm(a));
        TableGrows(t, t', val, val[X_ATOM], Imm(x));
        WritesFolded(t', val, s, a, x, v);
      }
      s', val' := SetConst(s, k, val, t);
    }

    method OptNeg(val: Vals, alter: bool) returns (s': Stmt, val': Vals)
      requires Valid() && InTable(exprs, val) && curval + 2 < vmap.Length
      modifies this, vmap
      ensures Stepped(old(exprs), val, Neg, s', val')
      ensures !alter ==> s' == Neg
      ensures s'.LdImm? || (s' == Neg && (alter ==> !IsConst(old(exprs), val[A_ATOM])))
      ensures Named(exprs, s', val, val'[A_ATOM])
    {
      ghost var t := exprs;
      hide Valid, Table, Sound, Writes, InTable, IsEntry, Negate, IsConst;
      ValidShape(val);
      var isConst, c := Lookup(val[A_ATOM]);
      if alter && isConst {
        s', val' := FoldConst(Neg, c, ZERO, val, t);
      } else {
        s', val' := Compute(Neg, val, 0, t);
      }
    }

    /** Leaves an operation as it is and numbers its result. w numbers its constant, if any. */
    method Compute(s: Stmt, val: Vals, w: nat, ghost t: seq<Expr>) returns (s': Stmt, val': Vals)
      requires Valid() && Table(t) && t <= exprs && InTable(t, val) && curval + 1 < vmap.Length && curval <= |t| + 1
      requires s.Neg? || s.AluX? || (s.AluK? && IsEntry(exprs, w, Imm(s.k)))
      modifies this, vmap
      ensures Stepped(t, val, s, s', val') && s' == s && Named(exprs, s, val, val'[A_ATOM])
      ensures !IsConst(exprs, val'[A_ATOM])
    {
      ghost var t1 := exprs;
      hide Valid, Table, Sound, Writes, InTable, ExprOf, Known, Framed, MaxOperand;
      ValidShape(val);
      var e := ExprOf(s, val, w);
      TableGrows(t, exprs, val, 0, Len);
      ComputeOperands(exprs, val, s, w);
      var v := F(e);
      TableGrows(t, exprs, val, 0, Len);
      if s.AluK? { TableGrows(t1, exprs, val, w, Imm(s.k)) by { TableGrows(t, t1, val, 0, Len); } }
      if Known(s, val) { WritesEntry(exprs, val, s, v, w); }
      s', val' := s, val[A_ATOM := v];
      NamedBy(exprs, s, val, v, w);
      FinishSet(t, exprs, val, s, s, v);
    }

    /** An operation with the constant zero that does nothing or gives zero. */
    method OptAluZeroK(op: AluOp, val: Vals) returns (s': Stmt, val': Vals)
      requires Valid() && InTable(exprs, val) && curval + 2 < vmap.Length && (ZeroIsIdentity(op) || ZeroIsZero(op))
      modifies this, vmap
      ensures Stepped(old(exprs), val, AluK(op, ZERO), s', val') && s' == (if ZeroIsIdentity(op) then Nop else LdImm(ZERO))
      ensures if s' == Nop then val' == val else Named(exprs, s', val, val'[A_ATOM])
    {
      ghost var t := exprs;
      hide Valid, Table, Sound, Writes, InTable, IsEntry;
      ValidShape(val);
      if ZeroIsIdentity(op) {
        IdentityDeletes(exprs, val, op);
        s', val' := Nop, val;
      } else {
        forall t', v | Table(t') && exprs <= t' && IsEntry(t', v, Imm(ZERO)) && InTable(t', val)
          ensures Writes(t', val, AluK(op, ZERO), v)
        {
          WritesZeroRight(t', val, op, v);
        }
        s', val' := SetConst(AluK(op, ZERO), ZERO, val, t);
      }
    }

    /** An operation with a constant operand. Fails on division or modulus by zero. */
    method OptAluK(op: AluOp, k: Word, val: Vals, alter: bool) returns (s': Stmt, val': Vals, ok: bool)
      requires Valid() && InTable(exprs, val) && curval + 2 < vmap.Length
      modifies this, vmap
      ensures ok <==> !(alter && k == ZERO && (op.Div? || op.Mod?))
      ensures ok ==> Stepped(old(exprs), val, AluK(op, k), s', val')
      ensures !alter ==> s' == AluK(op, k)
      ensures s' == Nop || s'.LdImm? || s' == AluK(op, k)
      ensures ok && s' == Nop ==> val' == val
      ensures ok && alter && s'.AluK? ==> !IsConst(old(exprs), val[A_ATOM])
      ensures ok && s'.AluK? ==> !IsConst(exprs, val'[A_ATOM])
      ensures ok && alter ==> ZeroRules(old(exprs), val, AluK(op, k), s')
      ensures ok && s' != Nop ==> Named(exprs, s', val, val'[A_ATOM])
    {
      ghost var t := exprs;
      hide Valid, Table, Sound, Writes, InTable, IsEntry, IsConst, Alu, Named;
      ValidShape(val);
      var s := AluK(op, k);
      s', val', ok := s, val, true;
      if alter && k == ZERO {
        if ZeroIsIdentity(op) || ZeroIsZero(op) {
          s', val' := OptAluZeroK(op, val);
          return;
        }
        if op.Div? || op.Mod? { ok := false; return; }
      }
      var isConst, a := Lookup(val[A_ATOM]);
      var w := F(Imm(k));
      if alter && isConst {
        s', val' := FoldConst(s, a, ZERO, val, t);
      } else {
        s', val' := Compute(s, val, w, t);
      }
    }

    /** An operation with X, when X is the constant x and A is not constant. */
    method OptAluConstX(op: AluOp, x: Word, val: Vals) returns (s': Stmt, val': Vals)
      requires Valid() && InTable(exprs, val) && curval + 2 < vmap.Length && IsEntry(exprs, val[X_ATOM], Imm(x))
      modifies this, vmap
      ensures Stepped(old(exprs), val, AluX(op), s', val') && s' == AluK(op, x) && Named(exprs, s', val, val'[A_ATOM])
      ensures !IsConst(exprs, val'[A_ATOM])
    {
      ghost var t := exprs;
      hide Valid, Table, Sound, Writes, InTable, IsEntry, Framed, Known;
      ValidShape(val);
      var w := F(Imm(x));
      EntryInRange(exprs, w, Imm(x));
      ghost var t1 := exprs;
      s' := AluK(op, x);
      var v := F(BinK(op, val[A_ATOM], w));
      val' := val[A_ATOM := v];
      TableGrows(t1, exprs, val, w, Imm(x)) by { TableGrows(t, t1, val, 0, Len); }
      NamedBy(exprs, s', val, v, w);
      ConstXStep(t, t1, exprs, val, op, x, v, w);
    }

    /** An operation with X when A is the constant zero and X is not constant. */
    method OptAluZeroA(op: AluOp, val: Vals) returns (s': Stmt, val': Vals)
      requires Valid() && InTable(exprs, val) && curval + 2 < vmap.Length
      requires IsEntry(exprs, val[A_ATOM], Imm(ZERO)) && !IsConst(exprs, val[X_ATOM]) && (ZeroGivesX(op) || ZeroGivesZero(op))
      modifies this, vmap
      ensures Stepped(old(exprs), val, AluX(op), s', val') && s' == (if ZeroGivesX(op) then Txa else Nop)
      ensures if s' == Nop then val' == val else Named(exprs, s', val, val'[A_ATOM])
    {
      hide Valid, Table, Sound, Writes, InTable, IsEntry, Known, Framed, IsConst, Named;
      ghost var t := exprs;
      EntryConst(exprs, val[A_ATOM], ZERO);
      NamedMove(exprs, Txa, val);
      ValidShape(val);
      var s1, v := Txa, val[X_ATOM];
      if ZeroGivesX(op) {
        if Known(AluX(op), val) {
          KnownX(op, val);
          WritesMove(exprs, val, Txa);
          WritesZeroLeft(exprs, val, op, v);
        }
      } else {
        s1 := LdImm(ZERO);
        v := F(Imm(ZERO));
        TableGrows(t, exprs, val, val[A_ATOM], Imm(ZERO));
        EntryInRange(exprs, v, Imm(ZERO));
        WritesConst(exprs, val, ZERO, v);
        WritesZeroLeft(exprs, val, op, v);
        OneNumber(exprs, v, val[A_ATOM], Imm(ZERO));
      }
      var pair := VStore(s1, val, A_ATOM, v, true);
      s', val' := pair.0, pair.1;
      FinishStore(t, exprs, val, AluX(op), s1, v, true);
    }

    /** An operation with X. Fails on folding a division or modulus by zero, and on turning a
        shift into one by a constant above 31. */
    method OptAluX(op: AluOp, val: Vals, alter: bool) returns (s': Stmt, val': Vals, ok: bool)
      requires Valid() && InTable(exprs, val) && curval + 2 < vmap.Length
      modifies this, vmap
      ensures !ok <==> alter && RejectsX(old(exprs), op, val)
      ensures ok ==> Stepped(old(exprs), val, AluX(op), s', val')
      ensures !alter ==> s' == AluX(op)
      ensures ok && alter && s'.AluX? ==> !IsConst(old(exprs), val[X_ATOM])
      ensures ok && alter && s'.AluK? ==> !IsConst(old(exprs), val[A_ATOM])
      ensures ok && (s'.AluK? || s'.AluX?) ==> !IsConst(exprs, val'[A_ATOM])
      ensures Simplified(AluX(op), s')
      ensures ok && s' == Nop ==> val' == val
      ensures ok && alter ==> ZeroRules(old(exprs), val, AluX(op), s')
      ensures ok && s' != Nop ==> Named(exprs, s', val, val'[A_ATOM])
    {
      hide Valid, Table, Sound, Writes, InTable, Alu, Named, ZeroRules, IsEntry, RejectsX, IsConst, WideShift;
      ghost var t := exprs;
      ValidShape(val);
      s', val', ok := AluX(op), val, true;
      var constX, x := Lookup(val[X_ATOM]);
      var constA, a := Lookup(val[A_ATOM]);
      RejectsXIs(exprs, op, val, x);
      if alter && constX {
        if constA {
          if (op.Div? || op.Mod?) && x == ZERO { ok := false; return; }
          s', val' := FoldConst(AluX(op), a, x, val, t);
        } else {
          if WideShift(op, x) { ok := false; return; }
          s', val' := OptAluConstX(op, x, val);
        }
      } else if alter && constA && a == ZERO && (ZeroGivesX(op) || ZeroGivesZero(op)) {
        s', val' := OptAluZeroA(op, val);
      } else {
        s', val' := Compute(AluX(op), val, 0, t);
      }
      if alter { ZeroRulesX(t, val, op, s', a); }
    }

    /** A load or a move. */
    method OptTransfer(s: Stmt, val: Vals, alter: bool) returns (s': Stmt, val': Vals)
      requires Valid() && InTable(exprs, val) && curval + 2 < vmap.Length && s != Nop && !Arithmetic(s)
      modifies this, vmap
      ensures Stepped(old(exprs), val, s, s', val') && Simplified(s, s')
      ensures !alter ==> s' == s
      ensures alter ==> Folded(old(exprs), val, s')
      ensures TransferDone(old(exprs), exprs, s, val, alter, s', val')
      ensures s' != Nop ==> Named(exprs, s', val, val'[Target(s)])
    {
      hide Valid, Table, Sound, Writes, InTable, Known, Framed, ExprOf, IsEntry, IsConst, Target, Named;
      ValidShape(val);
      if s.LdInd? {
        var isConst, c := Lookup(val[X_ATOM]);
        if alter && isConst {
          s', val' := OptIndConst(s.size, s.k, c, val);
          TargetOf(s);
        } else {
          s', val' := OptLoad(s, val, alter);
        }
      } else if Moves(s) {
        s', val' := OptMove(s, val, alter);
      } else {
        s', val' := OptLoad(s, val, alter);
      }
    }

    /** Arithmetic. Fails on what is refused. */
    method OptArith(s: Stmt, val: Vals, alter: bool) returns (s': Stmt, val': Vals, ok: bool)
      requires Valid() && InTable(exprs, val) && curval + 2 < vmap.Length && Arithmetic(s)
      modifies this, vmap
      ensures !ok <==> alter && Rejects(old(exprs), s, val)
      ensures ok ==> Stepped(old(exprs), val, s, s', val')
      ensures (!alter ==> s' == s) && Simplified(s, s')
      ensures ok && alter ==> Folded(old(exprs), val, s') && ZeroRules(old(exprs), val, s, s')
      ensures ok && (s'.AluK? || s'.AluX?) ==> !IsConst(exprs, val'[A_ATOM])
      ensures ok ==> if s' == Nop then val' == val else Named(exprs, s', val, val'[A_ATOM])
    {
      hide Valid, Table, Sound, Writes, InTable, Known, Framed, RejectsX, Named;
      ok := true;
      if s.Neg? {
        s', val' := OptNeg(val, alter);
      } else if s.AluK? {
        s', val', ok := OptAluK(s.op, s.k, val, alter);
      } else {
        s', val', ok := OptAluX(s.op, val, alter);
      }
    }

    /** Computes the value number of what a statement defines and, if alter is set, rewrites the
        statement. */
    method OptStmt(s: Stmt, val: Vals, alter: bool) returns (s': Stmt, val': Vals, ok: bool)
      requires Valid() && InTable(exprs, val) && (s != Nop ==> curval + 2 < vmap.Length)
      modifies this, vmap
      ensures !ok <==> alter && Rejects(old(exprs), s, val)
      ensures ok ==> Stepped(old(exprs), val, s, s', val') && (s == Nop ==> curval == old(curval))
      ensures (!alter ==> s' == s) && Simplified(s, s')
      ensures ok && alter ==> Rewrote(old(exprs), val, s, s')
      ensures ok && s != Nop && !Arithmetic(s) ==> TransferDone(old(exprs), exprs, s, val, alter, s', val')
      ensures ok && (s'.AluK? || s'.AluX?) ==> !IsConst(exprs, val'[A_ATOM])
      ensures ok ==> if s' == Nop then val' == val else Target(s') == Target(s) && Named(exprs, s', val, val'[Target(s)])
    {
      hide Valid, Table, Sound, Writes, InTable, Known, Framed, RejectsX, TransferDone, Folded, FoldsRight, Named;
      ValidShape(val);
      s', val', ok := s, val, true;
      if s == Nop {
        NopSound(exprs, val);
        NothingFolds(exprs, val, s, s');
      } else if Arithmetic(s) {
        s', val', ok := OptArith(s, val, alter);
        if ok && alter {
          ValidShape(val');
          if Known(s, val) { SoundFolds(old(exprs), val, s, exprs, s', val'); } else { NothingFolds(old(exprs), val, s, s'); }
        }
      } else {
        s', val' := OptTransfer(s, val, alter);
        TransferNop(old(exprs), exprs, s, val, alter, s', val');
        NothingFolds(old(exprs), val, s, s');
      }
    }
  }

  /** What a statement can become: a load becomes one of a place or of a constant, an operation one with a constant,
      a move or a constant; and any can be deleted. */
  predicate Simplified(s: Stmt, s': Stmt) {
    || s' == s || s' == Nop
    || match s
       case LdInd(_, _) => s'.LdAbs?
       case LdMem(_) => s'.LdImm?
       case LdxMem(_) => s'.LdxImm?
       case Neg => s'.LdImm?
       case AluK(_, _) => s'.LdImm?
       case AluX(op) => s' == Txa || s'.LdImm? || (s'.AluK? && s'.op == op)
       case _ => false
  }

  lemma TargetOf(s: Stmt)
    requires s.LdInd?
    ensures Target(s) == A_ATOM
  {
  }

  /** What becomes of a load or a move: it is deleted exactly if its register is known to hold what it writes,
      and unless its operand is a known constant, it is left as it is otherwise. */
  ghost predicate TransferDone(t: seq<Expr>, t': seq<Expr>, s: Stmt, val: Vals, alter: bool, s': Stmt, val': Vals)
    requires s != Nop
  {
    && (s' == Nop ==> val' == val && val[Target(s)] != VAL_UNKNOWN)
    && (alter ==> s' == Nop || val'[Target(s)] == VAL_UNKNOWN || val'[Target(s)] != val[Target(s)])
    && (!Foldable(t, s, val) ==> (s' == s || s' == Nop) && Numbers(t', s, val, val'[Target(s)]))
  }

  lemma TransferNop(t: seq<Expr>, t': seq<Expr>, s: Stmt, val: Vals, alter: bool, s': Stmt, val': Vals)
    requires s != Nop && TransferDone(t, t', s, val, alter, s', val')
    ensures s' == Nop ==> val' == val
  {
  }

  /** A load or move whose operand is a known constant. */
  ghost predicate Foldable(t: seq<Expr>, s: Stmt, val: Vals) {
    (s.LdInd? && IsConst(t, val[X_ATOM])) || (Moves(s) && IsConst(t, val[MoveSource(s)]))
  }

  /** v numbers what a load or move writes: the expression it computes, or the register it copies. */
  ghost predicate Numbers(t: seq<Expr>, s: Stmt, val: Vals, v: nat)
    requires s != Nop
  {
    if Moves(s) then v == val[MoveSource(s)] else IsEntry(t, v, ExprOf(s, val, 0))
  }

  predicate Arithmetic(s: Stmt) {
    s.Neg? || s.AluK? || s.AluX?
  }

  /** The statements that are refused. */
  ghost predicate Rejects(t: seq<Expr>, s: Stmt, val: Vals) {
    match s
    case AluK(op, k) => k == ZERO && (op.Div? || op.Mod?)
    case AluX(op) => RejectsX(t, op, val)
    case _ => false
  }

  /** A statement that reads no register known to hold a constant where that could be avoided. */
  ghost predicate Folded(t: seq<Expr>, val: Vals, s: Stmt) {
    match s
    case LdInd(_, _) => !IsConst(t, val[X_ATOM])
    case LdMem(m) => !IsConst(t, val[m])
    case LdxMem(m) => !IsConst(t, val[m])
    case Neg => !IsConst(t, val[A_ATOM])
    case AluK(_, _) => !IsConst(t, val[A_ATOM])
    case AluX(_) => !IsConst(t, val[X_ATOM])
    case _ => true
  }

  lemma NopSound(t: seq<Expr>, val: Vals)
    requires Table(t) && InTable(t, val)
    ensures Sound(t, val, Nop, t, Nop, val) && Framed(Nop, val, val) && Folded(t, val, Nop)
  {
  }

  /** The operations with a constant index register that are refused. */
  ghost predicate RejectsX(t: seq<Expr>, op: AluOp, val: Vals) {
    && IsConst(t, val[X_ATOM])
    && var x := t[val[X_ATOM] - 1].k;
       if IsConst(t, val[A_ATOM]) then (op.Div? || op.Mod?) && x == ZERO else WideShift(op, x)
  }

  /** A shift by more than 31 bits. */
  predicate WideShift(op: AluOp, x: Word) {
    (op.Lsh? || op.Rsh?) && x.bits > 31
  }

  lemma RejectsXIs(t: seq<Expr>, op: AluOp, val: Vals, x: Word)
    requires IsConst(t, val[X_ATOM]) ==> IsEntry(t, val[X_ATOM], Imm(x))
    ensures RejectsX(t, op, val) <==>
      && IsConst(t, val[X_ATOM])
      && if IsConst(t, val[A_ATOM]) then (op.Div? || op.Mod?) && x == ZERO else WideShift(op, x)
  {
    hide WideShift;
  }

  lemma ConstXStep(t: seq<Expr>, t1: seq<Expr>, t2: seq<Expr>, val: Vals, op: AluOp, x: Word, v: nat, w: nat)
    requires Table(t) && Table(t2) && t <= t1 <= t2 && InTable(t, val) && IsEntry(t, val[X_ATOM], Imm(x))
    requires IsEntry(t1, w, Imm(x)) && IsEntry(t2, v, BinK(op, val[A_ATOM], w))
    ensures InTable(t2, val[A_ATOM := v]) && Framed(AluX(op), val, val[A_ATOM := v])
    ensures Known(AluX(op), val) ==> Sound(t, val, AluX(op), t2, AluK(op, x), val[A_ATOM := v])
  {
    hide Table, Sound, Writes;
    TableGrows(t, t2, val, val[X_ATOM], Imm(x));
    if Known(AluX(op), val) {
      WritesConstX(t2, val, op, x, v, w);
      WritesEntry(t2, val, AluK(op, x), v, w);
    }
    FinishSet(t, t2, val, AluX(op), AluK(op, x), v);
  }

  lemma KnownX(op: AluOp, val: Vals)
    requires Known(AluX(op), val)
    ensures val[X_ATOM] != VAL_UNKNOWN
  {
  }

  lemma ComputeOperands(t: seq<Expr>, val: Vals, s: Stmt, w: nat)
    requires InTable(t, val) && (s.Neg? || s.AluX? || (s.AluK? && w <= |t|))
    ensures MaxOperand(ExprOf(s, val, w)) <= |t| && !ExprOf(s, val, w).Imm?
  {
  }

  lemma OperandsInRange(t: seq<Expr>, val: Vals, s: Stmt)
    requires InTable(t, val) && s != Nop
    ensures MaxOperand(ExprOf(s, val, 0)) <= |t|
  {
  }

  lemma EntryInRange(t: seq<Expr>, v: nat, e: Expr)
    requires IsEntry(t, v, e)
    ensures 0 < v <= |t|
  {
  }

  /** Entries and numbers stay when the table grows. */
  lemma TableGrows(t: seq<Expr>, t': seq<Expr>, val: Vals, v: nat, e: Expr)
    requires t <= t' && InTable(t, val)
    ensures InTable(t', val) && (IsEntry(t, v, e) ==> IsEntry(t', v, e))
  {
  }

  /** Concludes a step that ends in a store of value number v. */
  lemma FinishStore(t: seq<Expr>, t': seq<Expr>, val: Vals, s: Stmt, s1: Stmt, v: nat, alter: bool)
    requires Table(t) && Table(t') && t <= t' && InTable(t, val) && InTable(t', val)
    requires s != Nop && s1 != Nop && Target(s1) == Target(s) && v <= |t'|
    requires Known(s, val) ==> if v != VAL_UNKNOWN then Writes(t', val, s, v) && Writes(t', val, s1, v) else s1 == s
    requires Known(s, val) ==> (v == VAL_UNKNOWN <==> Moves(s) && val[MoveSource(s)] == VAL_UNKNOWN)
    ensures var (s', val') := VStore(s1, val, Target(s), v, alter);
      InTable(t', val') && (Known(s, val) ==> Sound(t, val, s, t', s', val')) && Framed(s, val, val')
  {
    var (s', val') := VStore(s1, val, Target(s), v, alter);
    if Known(s, val) {
      StoreSound(t', val, s, s1, v, alter);
      SoundGrows(t, t', val, s, s', val');
    }
  }

  /** Concludes a step that sets the register to value number v outright. */
  lemma FinishSet(t: seq<Expr>, t': seq<Expr>, val: Vals, s: Stmt, s1: Stmt, v: nat)
    requires Table(t) && Table(t') && t <= t' && InTable(t, val) && InTable(t', val)
    requires s != Nop && s1 != Nop && Target(s1) == Target(s) && !Moves(s)
    requires 0 < v <= |t'| && (Known(s, val) ==> Writes(t', val, s, v) && Writes(t', val, s1, v))
    ensures InTable(t', val[Target(s) := v]) && Framed(s, val, val[Target(s) := v])
    ensures Known(s, val) ==> Sound(t, val, s, t', s1, val[Target(s) := v])
  {
    if Known(s, val) {
      SetSound(t', val, s, s1, v);
      SoundGrows(t, t', val, s, s1, val[Target(s) := v]);
    }
  }
}
