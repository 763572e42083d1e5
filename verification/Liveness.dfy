/**
 Which registers a block uses, defines and kills; which are live; and why dead stores can go.
 */
module Liveness {
  import opened Machine
  import opened Flow
  import Analysis

  /** Stands for A and X together in use-def computations. */
  const AX_ATOM: int := 18

  // ---------------------------------------------------------------------------------------
  // Uses and definitions of one statement
  // ---------------------------------------------------------------------------------------

  /** The register a statement uses, AX_ATOM for both A and X, -1 for none. */
  function AtomUse(s: Stmt): (a: int)
    ensures -1 <= a <= AX_ATOM
  {
    match s
    case LdInd(_, _) => X_ATOM
    case LdMem(m) => m
    case LdxMem(m) => m
    case St(_) => A_ATOM
    case Stx(_) => X_ATOM
    case AluK(_, _) => A_ATOM
    case AluX(_) => AX_ATOM
    case Neg => A_ATOM
    case Tax => A_ATOM
    case Txa => X_ATOM
    case _ => -1
  }

  /** The register a statement defines, -1 for none. */
  function AtomDef(s: Stmt): (a: int)
    ensures -1 <= a < N_ATOMS
  {
    if s == Nop then -1 else Target(s)
  }

  function BranchAtomUse(s: Branch): int {
    match s
    case Jmp(_, src, _) => if src == SrcX then AX_ATOM else A_ATOM
    case Ret(_) => -1
  }

  /** The registers an atom number stands for. */
  function Atoms(atom: int): set<nat> {
    if atom == AX_ATOM then {A_ATOM, X_ATOM} else if atom < 0 then {} else {atom as nat}
  }

  function Uses(s: Stmt): set<nat> {
    Atoms(AtomUse(s))
  }

  function BranchUses(s: Branch): set<nat> {
    Atoms(BranchAtomUse(s))
  }

  /** Two states with the same contents in the registers of u. */
  ghost predicate Agree(r: Regs, r': Regs, u: set<nat>) {
    forall a :: a in u && a < N_ATOMS ==> r[a] == r'[a]
  }

  /** What a statement writes depends on the registers it uses only. */
  lemma UsesSuffice(s: Stmt, p: Packet, r: Regs, r': Regs)
    requires s != Nop && Agree(r, r', Uses(s))
    ensures Value(s, p, r) == Value(s, p, r')
  {
    hide Alu, Indexed, HeaderLength, Negate;
    match s
    case AluX(_) => assert A_ATOM in Uses(s) && X_ATOM in Uses(s);
    case LdMem(m) => assert m in Uses(s);
    case LdxMem(m) => assert m in Uses(s);
    case LdInd(_, _) => assert X_ATOM in Uses(s);
    case Stx(_) => assert X_ATOM in Uses(s);
    case Txa => assert X_ATOM in Uses(s);
    case St(_) => assert A_ATOM in Uses(s);
    case AluK(_, _) => assert A_ATOM in Uses(s);
    case Neg => assert A_ATOM in Uses(s);
    case Tax => assert A_ATOM in Uses(s);
    case _ =>
  }

  /** Which way a branch goes depends on the registers it uses only. */
  lemma BranchUsesSuffice(s: Branch, r: Regs, r': Regs)
    requires s.Jmp? && Agree(r, r', BranchUses(s))
    ensures Taken(s, r) == Taken(s, r')
  {
    assert A_ATOM in BranchUses(s) && (s.src == SrcX ==> X_ATOM in BranchUses(s));
  }

  // ---------------------------------------------------------------------------------------
  // What is used matters
  // ---------------------------------------------------------------------------------------

  const ONE: Word := Word(1)
  const TWO: Word := Word(2)

  /** The statement with another constant, if it has one. */
  function WithConstant(s: Stmt, k: Word): (s': Stmt)
    ensures s != Nop ==> s' != Nop && Uses(s') == Uses(s)
  {
    match s
    case LdAbs(size, _) => LdAbs(size, k)
    case LdInd(size, _) => LdInd(size, k)
    case LdImm(_) => LdImm(k)
    case LdxImm(_) => LdxImm(k)
    case LdxMsh(_) => LdxMsh(k)
    case AluK(op, _) => AluK(op, k)
    case _ => s
  }

  /** With constant k, and in state r, it makes a difference to what is written whether register a has word w instead. */
  ghost predicate Matters(s: Stmt, a: nat, k: Word, p: Packet, r: Regs, w: Word)
    requires s != Nop && a < N_ATOMS
  {
    Value(WithConstant(s, k), p, r) != Value(WithConstant(s, k), p, r[a := w])
  }

  /** A constant for which an operation depends on A. */
  function Probe(op: AluOp): Word {
    match op
    case Mul | Div | And => ONE
    case Mod => TWO
    case _ => ZERO
  }

  lemma SmallNumbers()
    ensures Number(ZERO) == 0 && Number(ONE) == 1 && Number(TWO) == 2 && Numeral(0) == ZERO && Numeral(1) == ONE
  {
    assert Number(ZERO) == 0;
    assert Half(ONE) == ZERO && Odd(ONE);
    assert Number(ONE) == 1;
    assert Half(TWO) == ONE && !Odd(TWO);
    assert Number(TWO) == 2;
    assert Numeral(0) == ZERO && Append(ZERO, true) == ONE;
  }

  lemma LeftMatters(op: AluOp)
    ensures Alu(op, ZERO, Probe(op)) != Alu(op, ONE, Probe(op))
  {
    SmallNumbers();
    hide Number, Numeral;
  }

  /** A word for A, and two for X, for which an operation depends on X. */
  function ProbeX(op: AluOp): (Word, Word, Word) {
    match op
    case Or => (ZERO, ZERO, ONE)
    case Div | Mod => (ONE, ONE, TWO)
    case _ => (ONE, ZERO, ONE)
  }

  lemma RightMatters(op: AluOp)
    ensures var (a, x, x') := ProbeX(op); Alu(op, a, x) != Alu(op, a, x')
  {
    SmallNumbers();
    hide Number, Numeral;
  }

  lemma AluMatters(s: Stmt, a: nat) returns (k: Word, p: Packet, r: Regs, w: Word)
    requires (s.AluK? || s.AluX?) && a in Uses(s)
    ensures Matters(s, a, k, p, r, w)
  {
    k, p, r, w := Probe(s.op), Packet(map[], ZERO), seq(18, i => ZERO), ONE;
    LeftMatters(s.op);
    RightMatters(s.op);
    hide Alu, Probe, ProbeX;
    if a == X_ATOM {
      var (a0, x0, x1) := ProbeX(s.op);
      r, w := r[A_ATOM := a0][X_ATOM := x0], x1;
    } else if s.AluX? {
      r := r[X_ATOM := k];
    }
  }

  lemma OtherMatters(s: Stmt, a: nat) returns (k: Word, p: Packet, r: Regs, w: Word)
    requires s != Nop && !s.AluK? && !s.AluX? && a in Uses(s)
    ensures Matters(s, a, k, p, r, w)
  {
    k, p, r, w := ZERO, Packet(map[], ZERO), seq(18, i => ZERO), ONE;
    if s.LdInd? {
      p := Packet(map[(s.size, ONE) := ONE], ZERO);
      assert Indexed(ZERO, k) == ZERO && Indexed(ONE, k) == ONE;
    }
  }

  /** A statement is said to use exactly the registers that, for some constant, some packet and some state, what it writes
      depends on. */
  lemma UsesExact(s: Stmt, a: nat)
    requires s != Nop && a < N_ATOMS
    ensures a in Uses(s) <==> exists k, p, r, w :: Matters(s, a, k, p, r, w)
  {
    hide Value, Uses;
    if a in Uses(s) {
      if s.AluK? || s.AluX? { var k, p, r, w := AluMatters(s, a); } else { var k, p, r, w := OtherMatters(s, a); }
    } else {
      forall k, p, r: Regs, w ensures !Matters(s, a, k, p, r, w) {
        UsesSuffice(WithConstant(s, k), p, r, r[a := w]);
      }
    }
  }

  /** The same of a comparison. */
  ghost predicate Sways(s: Branch, a: nat, k: Word, r: Regs, w: Word)
    requires s.Jmp? && a < N_ATOMS
  {
    Taken(s.(k := k), r) != Taken(s.(k := k), r[a := w])
  }

  lemma CompareMatters(cmp: Cmp)
    ensures var k := if cmp in {Jge, Jset} then ONE else ZERO; Compare(cmp, ZERO, k) != Compare(cmp, ONE, k)
    ensures var k := if cmp in {Jgt, Jset} then ONE else ZERO; Compare(cmp, k, ZERO) != Compare(cmp, k, ONE)
  {
  }

  lemma SwaysSome(s: Branch, a: nat) returns (k: Word, r: Regs, w: Word)
    requires s.Jmp? && a in BranchUses(s)
    ensures Sways(s, a, k, r, w)
  {
    k, r, w := if s.cmp in {Jge, Jset} then ONE else ZERO, seq(18, i => ZERO), ONE;
    CompareMatters(s.cmp);
    hide Compare;
    if a == X_ATOM {
      r := r[A_ATOM := if s.cmp in {Jgt, Jset} then ONE else ZERO];
    } else {
      r := r[X_ATOM := k];
    }
  }

  /** A comparison is said to use exactly the registers that its outcome depends on. */
  lemma BranchUsesExact(s: Branch, a: nat)
    requires s.Jmp? && a < N_ATOMS
    ensures a in BranchUses(s) <==> exists k, r, w :: Sways(s, a, k, r, w)
  {
    hide Compare;
    if a in BranchUses(s) {
      var k, r, w := SwaysSome(s, a);
    } else {
      forall k, r: Regs, w ensures !Sways(s, a, k, r, w) {
        BranchUsesSuffice(s.(k := k), r, r[a := w]);
      }
    }
  }

  // ---------------------------------------------------------------------------------------
  // Use, definition and kill sets of a block
  // ---------------------------------------------------------------------------------------

  /** The registers the first n statements define. */
  ghost function Defs(stmts: seq<Stmt>, n: nat): set<nat>
    requires n <= |stmts|
  {
    if n == 0 then {} else Defs(stmts, n - 1) + Atoms(AtomDef(stmts[n - 1]))
  }

  /** The registers the first n statements use before defining them. */
  ghost function Exposed(stmts: seq<Stmt>, n: nat): set<nat>
    requires n <= |stmts|
  {
    if n == 0 then {} else Exposed(stmts, n - 1) + (Uses(stmts[n - 1]) - Defs(stmts, n - 1))
  }

  /** The registers the first n statements define before using them. */
  ghost function Kills(stmts: seq<Stmt>, n: nat): set<nat>
    requires n <= |stmts|
  {
    if n == 0 then {} else Kills(stmts, n - 1) + (Atoms(AtomDef(stmts[n - 1])) - Exposed(stmts, n))
  }

  /** The registers a block uses before defining them, its branch included. */
  ghost function BlockUses(b: Block): set<nat> {
    Exposed(b.stmts, |b.stmts|) + (BranchUses(b.s) - Defs(b.stmts, |b.stmts|))
  }

  ghost function BlockDefs(b: Block): set<nat> {
    Defs(b.stmts, |b.stmts|)
  }

  ghost function BlockKills(b: Block): set<nat> {
    Kills(b.stmts, |b.stmts|)
  }

  /** Adds the atoms of a use that are not yet defined. */
  function AddUse(use: set<nat>, def: set<nat>, atom: int): (u: set<nat>)
    ensures u == use + (Atoms(atom) - def)
  {
    if atom < 0 then use
    else if atom == AX_ATOM then
      var u := if X_ATOM in def then use else use + {X_ATOM};
      if A_ATOM in def then u else u + {A_ATOM}
    else if atom as nat in def then use else use + {atom as nat}
  }

  /** Computes the sets of registers used, defined and killed by a block. */
  method ComputeLocalUd(b: Block) returns (use: set<nat>, def: set<nat>, kill: set<nat>)
    ensures use == BlockUses(b) && def == BlockDefs(b) && kill == BlockKills(b)
  {
    use, def, kill := {}, {}, {};
    for n := 0 to |b.stmts|
      invariant def == Defs(b.stmts, n) && use == Exposed(b.stmts, n) && kill == Kills(b.stmts, n)
    {
      if b.stmts[n] == Nop { continue; }
      use := AddUse(use, def, AtomUse(b.stmts[n]));
      var atom := AtomDef(b.stmts[n]);
      if atom >= 0 {
        if atom !in use { kill := kill + {atom}; }
        def := def + {atom};
      }
    }
    if b.s.Jmp? { use := AddUse(use, def, BranchAtomUse(b.s)); }
  }

  /** Killed registers are defined, and defined registers are killed unless used first. */
  lemma {:induction false} KillsAndDefs(stmts: seq<Stmt>, n: nat)
    requires n <= |stmts|
    ensures Kills(stmts, n) <= Defs(stmts, n) <= Kills(stmts, n) + Exposed(stmts, n)
  {
    if n > 0 { KillsAndDefs(stmts, n - 1); }
  }

  /** Subtracting killed or defined registers makes no difference to what is live on entry. */
  lemma KillOrDef(b: Block, out: set<nat>)
    ensures BlockUses(b) + (out - BlockKills(b)) == BlockUses(b) + (out - BlockDefs(b))
  {
    KillsAndDefs(b.stmts, |b.stmts|);
  }

  /** States that agree on what a block uses agree, after n statements, on that and on what
      those statements defined. */
  lemma {:induction false} RunAgrees(stmts: seq<Stmt>, n: nat, p: Packet, r: Regs, r': Regs, u: set<nat>)
    requires n <= |stmts| && Agree(r, r', u) && Exposed(stmts, n) <= u
    ensures Agree(Run(stmts, n, p, r), Run(stmts, n, p, r'), u + Defs(stmts, n))
  {
    if n > 0 {
      RunAgrees(stmts, n - 1, p, r, r', u);
      if stmts[n - 1] != Nop {
        UsesSuffice(stmts[n - 1], p, Run(stmts, n - 1, p, r), Run(stmts, n - 1, p, r'));
      }
    }
  }

  // ---------------------------------------------------------------------------------------
  // Liveness over the graph
  // ---------------------------------------------------------------------------------------

  /** What the analysis establishes at block b: live-out covers the successors' live-in, and
      live-in covers what b uses and what it passes on. */
  ghost predicate LiveAt(g: Graph, inUse: seq<set<nat>>, outUse: seq<set<nat>>, b: nat)
    requires WellFormed(g) && b < |g| == |inUse| == |outUse|
  {
    && (!g[b].s.Ret? ==> inUse[g[b].jt] <= outUse[b] && inUse[g[b].jf] <= outUse[b])
    && BlockUses(g[b]) + (outUse[b] - BlockKills(g[b])) <= inUse[b]
  }

  ghost predicate Live(g: Graph, rank: seq<nat>, inUse: seq<set<nat>>, outUse: seq<set<nat>>, b: nat)
    requires Ranked(g, rank) && b < |g| == |inUse| == |outUse|
  {
    forall c :: c in Reach(g, rank, b) ==> LiveAt(g, inUse, outUse, c)
  }

  /** A block chooses alike from states that agree on its live-in, and leaves them agreeing on
      its live-out. */
  lemma BlockAgrees(g: Graph, inUse: seq<set<nat>>, outUse: seq<set<nat>>, b: nat, p: Packet, r: Regs, r': Regs)
    requires WellFormed(g) && b < |g| == |inUse| == |outUse| && LiveAt(g, inUse, outUse, b)
    requires Agree(r, r', inUse[b]) && g[b].s.Jmp?
    ensures Choose(g[b], RunAll(g[b].stmts, p, r)) == Choose(g[b], RunAll(g[b].stmts, p, r'))
    ensures Agree(RunAll(g[b].stmts, p, r), RunAll(g[b].stmts, p, r'), outUse[b])
  {
    var n := |g[b].stmts|;
    RunAgrees(g[b].stmts, n, p, r, r', inUse[b]);
    KillsAndDefs(g[b].stmts, n);
    BranchUsesSuffice(g[b].s, RunAll(g[b].stmts, p, r), RunAll(g[b].stmts, p, r'));
  }

  /** Liveness is sound: registers not live on entry to a block cannot change any result. */
  lemma {:induction false} LivenessSound(g: Graph, rank: seq<nat>, inUse: seq<set<nat>>, outUse: seq<set<nat>>,
                                         b: nat, p: Packet, r: Regs, r': Regs)
    requires Ranked(g, rank) && b < |g| == |inUse| == |outUse| && Live(g, rank, inUse, outUse, b)
    requires Agree(r, r', inUse[b])
    ensures Walk(g, rank, b, p, r) == Walk(g, rank, b, p, r')
    decreases rank[b]
  {
    if !g[b].s.Ret? {
      BlockAgrees(g, inUse, outUse, b, p, r, r');
      var s, s' := RunAll(g[b].stmts, p, r), RunAll(g[b].stmts, p, r');
      var c := Choose(g[b], s);
      assert LiveAt(g, inUse, outUse, b);
      LivenessSound(g, rank, inUse, outUse, c, p, s, s');
    }
  }

  // ---------------------------------------------------------------------------------------
  // Computing liveness
  // ---------------------------------------------------------------------------------------

  /** The liveness equations at block b. */
  ghost predicate LiveExactAt(g: Graph, inUse: seq<set<nat>>, outUse: seq<set<nat>>, b: nat)
    requires WellFormed(g) && b < |g| == |inUse| == |outUse|
  {
    && outUse[b] == (if g[b].s.Ret? then {} else inUse[g[b].jt] + inUse[g[b].jf])
    && inUse[b] == BlockUses(g[b]) + (outUse[b] - BlockKills(g[b]))
  }

  lemma LiveExactSuffices(g: Graph, inUse: seq<set<nat>>, outUse: seq<set<nat>>, b: nat)
    requires WellFormed(g) && b < |g| == |inUse| == |outUse| && LiveExactAt(g, inUse, outUse, b)
    ensures LiveAt(g, inUse, outUse, b)
  {
  }

  /** A position of the bottom-up sweep: element k of level l. */
  ghost predicate Position(levels: seq<seq<nat>>, l: nat, k: nat) {
    (l < |levels| && k <= |levels[l]|) || (l == |levels| && k == 0)
  }

  /** The blocks the sweep has finished at a position. */
  ghost predicate Below(level: seq<nat>, levels: seq<seq<nat>>, l: nat, k: nat, b: nat)
    requires b < |level| && Position(levels, l, k)
  {
    level[b] < l || (l < |levels| && b in levels[l][..k])
  }

  /** Blocks below the sweep satisfy the equations; the others still hold their own uses. */
  ghost predicate Swept(g: Graph, live: set<nat>, level: seq<nat>, levels: seq<seq<nat>>,
                        inUse: seq<set<nat>>, outUse: seq<set<nat>>, l: nat, k: nat)
    requires WellFormed(g) && |level| == |g|
  {
    && |inUse| == |outUse| == |g| && Position(levels, l, k)
    && forall b :: b in live && b < |g| ==>
         if Below(level, levels, l, k, b) then LiveExactAt(g, inUse, outUse, b)
         else inUse[b] == BlockUses(g[b]) && outUse[b] == {}
  }

  lemma SweptUp(g: Graph, live: set<nat>, level: seq<nat>, levels: seq<seq<nat>>,
                inUse: seq<set<nat>>, outUse: seq<set<nat>>, l: nat)
    requires WellFormed(g) && Analysis.Listed(g, level, levels, live) && l < |g|
    requires Swept(g, live, level, levels, inUse, outUse, l, |levels[l]|)
    ensures Swept(g, live, level, levels, inUse, outUse, l + 1, 0)
  {
    assert levels[l][..|levels[l]|] == levels[l];
    forall b | b in live && b < |g|
      ensures Below(level, levels, l, |levels[l]|, b) <==> Below(level, levels, l + 1, 0, b)
    {
      if level[b] == l { assert b in levels[l]; }
    }
  }

  /** A finished block is at most at the level of the sweep, and its successors lie below it. */
  lemma BelowFacts(g: Graph, live: set<nat>, level: seq<nat>, levels: seq<seq<nat>>, l: nat, k: nat, c: nat)
    requires WellFormed(g) && Analysis.Listed(g, level, levels, live) && l < |g| && k < |levels[l]|
    requires c in live && c < |g|
    ensures levels[l][k] < |g| && level[levels[l][k]] == l && !Below(level, levels, l, k, levels[l][k])
    ensures Below(level, levels, l, k + 1, c) <==> Below(level, levels, l, k, c) || c == levels[l][k]
    ensures Below(level, levels, l, k, c) ==> level[c] <= l
    ensures g[c].s.Jmp? ==> level[g[c].jt] < level[c] && level[g[c].jf] < level[c]
  {
    var b := levels[l][k];
    assert levels[l][..k + 1] == levels[l][..k] + [b];
    assert b !in levels[l][..k];
    if c in levels[l][..k] {
      var i :| 0 <= i < k && levels[l][i] == c;
    }
  }

  lemma SweptStepAt(g: Graph, live: set<nat>, level: seq<nat>, levels: seq<seq<nat>>,
                    inUse: seq<set<nat>>, outUse: seq<set<nat>>, l: nat, k: nat, out: set<nat>, use: set<nat>, c: nat)
    requires WellFormed(g) && Analysis.Listed(g, level, levels, live) && 0 < l < |g| && k < |levels[l]|
    requires Swept(g, live, level, levels, inUse, outUse, l, k) && c in live && c < |g|
    requires var b := levels[l][k];
      b < |g| && g[b].s.Jmp? && out == inUse[g[b].jt] + inUse[g[b].jf] && use == BlockUses(g[b]) + (out - BlockKills(g[b]))
    ensures var inUse', outUse' := inUse[levels[l][k] := use], outUse[levels[l][k] := out];
      if Below(level, levels, l, k + 1, c) then LiveExactAt(g, inUse', outUse', c)
      else inUse'[c] == BlockUses(g[c]) && outUse'[c] == {}
  {
    assert |levels| == |level| == |g|;
    hide Analysis.Listed, Below, BlockUses, BlockKills, WellFormed, LiveExactAt;
    BelowFacts(g, live, level, levels, l, k, c);
    WellFormedAt(g, c);
    var b := levels[l][k];
    if c == b || Below(level, levels, l, k, c) {
      LiveExactFrame(g, inUse, outUse, b, out, use, c);
    }
  }

  /** Updating block b keeps the equations of the blocks that are not above it, and solves b's own. */
  lemma LiveExactFrame(g: Graph, inUse: seq<set<nat>>, outUse: seq<set<nat>>, b: nat, out: set<nat>, use: set<nat>, c: nat)
    requires WellFormed(g) && b < |g| && c < |g| == |inUse| == |outUse| && g[b].s.Jmp?
    requires out == inUse[g[b].jt] + inUse[g[b].jf] && use == BlockUses(g[b]) + (out - BlockKills(g[b]))
    requires g[c].s.Jmp? ==> g[c].jt != b && g[c].jf != b
    requires c != b ==> LiveExactAt(g, inUse, outUse, c)
    ensures LiveExactAt(g, inUse[b := use], outUse[b := out], c)
  {
  }

  lemma SweptStep(g: Graph, live: set<nat>, level: seq<nat>, levels: seq<seq<nat>>,
                  inUse: seq<set<nat>>, outUse: seq<set<nat>>, l: nat, k: nat, out: set<nat>, use: set<nat>)
    requires WellFormed(g) && Analysis.Listed(g, level, levels, live) && 0 < l < |g| && k < |levels[l]|
    requires Swept(g, live, level, levels, inUse, outUse, l, k)
    requires var b := levels[l][k];
      b < |g| && g[b].s.Jmp? && out == inUse[g[b].jt] + inUse[g[b].jf] && use == BlockUses(g[b]) + (out - BlockKills(g[b]))
    ensures Swept(g, live, level, levels, inUse[levels[l][k] := use], outUse[levels[l][k] := out], l, k + 1)
  {
    var inUse', outUse' := inUse[levels[l][k] := use], outUse[levels[l][k] := out];
    hide Analysis.Listed, Below, LiveExactAt, BlockUses, BlockKills;
    forall c | c in live && c < |g|
      ensures if Below(level, levels, l, k + 1, c) then LiveExactAt(g, inUse', outUse', c)
              else inUse'[c] == BlockUses(g[c]) && outUse'[c] == {}
    {
      SweptStepAt(g, live, level, levels, inUse, outUse, l, k, out, use, c);
    }
  }

  /** The next block of the sweep still holds its own uses, and is not a leaf above level 0. */
  lemma SweptHead(g: Graph, live: set<nat>, level: seq<nat>, levels: seq<seq<nat>>,
                  inUse: seq<set<nat>>, outUse: seq<set<nat>>, l: nat, k: nat)
    requires WellFormed(g) && Analysis.Listed(g, level, levels, live) && l < |g| && k < |levels[l]|
    requires Swept(g, live, level, levels, inUse, outUse, l, k)
    ensures var b := levels[l][k];
      b < |g| && inUse[b] == BlockUses(g[b]) && outUse[b] == {} && (g[b].s.Ret? <==> l == 0)
  {
    var b := levels[l][k];
    assert b in live && level[b] == l;
    assert b !in levels[l][..k];
  }

  /** Each block's own sets, with nothing live on exit yet. */
  method LocalSets(g: Graph) returns (inUse: seq<set<nat>>, outUse: seq<set<nat>>, kill: seq<set<nat>>)
    ensures |inUse| == |outUse| == |kill| == |g|
    ensures forall b :: 0 <= b < |g| ==> inUse[b] == BlockUses(g[b]) && kill[b] == BlockKills(g[b]) && outUse[b] == {}
  {
    inUse, outUse, kill := [], [], [];
    for b := 0 to |g|
      invariant |inUse| == |outUse| == |kill| == b
      invariant forall c :: 0 <= c < b ==> inUse[c] == BlockUses(g[c]) && kill[c] == BlockKills(g[c]) && outUse[c] == {}
    {
      var use, def, killed := ComputeLocalUd(g[b]);
      inUse, outUse, kill := inUse + [use], outUse + [{}], kill + [killed];
    }
  }

  /** Processes one level of the bottom-up sweep. */
  method UdLevel(g: Graph, level: seq<nat>, levels: seq<seq<nat>>, ghost live: set<nat>, kill: seq<set<nat>>,
                 inUse0: seq<set<nat>>, outUse0: seq<set<nat>>, l: nat)
    returns (inUse: seq<set<nat>>, outUse: seq<set<nat>>)
    requires WellFormed(g) && Analysis.Listed(g, level, levels, live) && 0 < l < |g| == |kill|
    requires forall b :: 0 <= b < |g| ==> kill[b] == BlockKills(g[b])
    requires Swept(g, live, level, levels, inUse0, outUse0, l, 0)
    ensures Swept(g, live, level, levels, inUse, outUse, l + 1, 0)
  {
    inUse, outUse := inUse0, outUse0;
    for k := 0 to |levels[l]|
      invariant Swept(g, live, level, levels, inUse, outUse, l, k)
    {
      var p := levels[l][k];
      SweptHead(g, live, level, levels, inUse, outUse, l, k);
      WellFormedAt(g, p);
      assert |inUse| == |outUse| == |g|;
      var out := outUse[p] + (inUse[g[p].jt] + inUse[g[p].jf]);
      var use := inUse[p] + (out - kill[p]);
      assert out == inUse[g[p].jt] + inUse[g[p].jf];
      SweptStep(g, live, level, levels, inUse, outUse, l, k, out, use);
      outUse := outUse[p := out];
      inUse := inUse[p := use];
    }
    SweptUp(g, live, level, levels, inUse, outUse, l);
  }

  /** At level 0 the equations hold at once. */
  lemma SweptLeaves(g: Graph, live: set<nat>, level: seq<nat>, levels: seq<seq<nat>>,
                    inUse: seq<set<nat>>, outUse: seq<set<nat>>)
    requires WellFormed(g) && Analysis.Listed(g, level, levels, live) && |g| == |inUse| == |outUse|
    requires forall b :: 0 <= b < |g| ==> inUse[b] == BlockUses(g[b]) && outUse[b] == {}
    ensures Position(levels, 1, 0) ==> Swept(g, live, level, levels, inUse, outUse, 1, 0)
  {
    if Position(levels, 1, 0) {
      forall b | b in live && b < |g| && Below(level, levels, 1, 0, b) ensures LiveExactAt(g, inUse, outUse, b) {
        assert level[b] == 0;
      }
    }
  }

  lemma SweptAll(g: Graph, rank: seq<nat>, root: nat, level: seq<nat>, levels: seq<seq<nat>>,
                 inUse: seq<set<nat>>, outUse: seq<set<nat>>)
    requires Ranked(g, rank) && root < |g| && Analysis.Listed(g, level, levels, Reach(g, rank, root))
    requires Swept(g, Reach(g, rank, root), level, levels, inUse, outUse, level[root] + 1, 0)
    ensures forall b :: b in Reach(g, rank, root) ==> LiveExactAt(g, inUse, outUse, b)
    ensures Live(g, rank, inUse, outUse, root)
  {
    forall b | b in Reach(g, rank, root)
      ensures LiveExactAt(g, inUse, outUse, b) && LiveAt(g, inUse, outUse, b)
    {
      Analysis.RootOnTop(g, rank, level, levels, Reach(g, rank, root), root, b);
      LiveExactSuffices(g, inUse, outUse, b);
    }
  }

  /** Solves the liveness equations bottom-up over the leveled graph. */
  method FindUd(g: Graph, level: seq<nat>, levels: seq<seq<nat>>, root: nat, ghost rank: seq<nat>)
    returns (inUse: seq<set<nat>>, outUse: seq<set<nat>>)
    requires Ranked(g, rank) && root < |g| && Analysis.Listed(g, level, levels, Reach(g, rank, root))
    ensures |inUse| == |outUse| == |g|
    ensures forall b :: b in Reach(g, rank, root) ==> LiveExactAt(g, inUse, outUse, b)
    ensures Live(g, rank, inUse, outUse, root)
  {
    ghost var live := Reach(g, rank, root);
    Analysis.SweptStart(g, rank, level, levels, root);
    var kill;
    inUse, outUse, kill := LocalSets(g);
    SweptLeaves(g, live, level, levels, inUse, outUse);
    hide Analysis.Listed, Swept, Reach, LiveExactAt;
    for i := 1 to level[root] + 1
      invariant |inUse| == |outUse| == |g|
      invariant Swept(g, live, level, levels, inUse, outUse, i, 0)
    {
      inUse, outUse := UdLevel(g, level, levels, live, kill, inUse, outUse, i);
    }
    SweptAll(g, rank, root, level, levels, inUse, outUse);
  }
}
