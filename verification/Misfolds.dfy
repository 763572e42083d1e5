/**
 Graphs that branch movement gets wrong: one where a number no longer denotes what a finished block
 compares, and one where an edge no longer stands for the outcome it stood for.
 */
module Misfolds {
  import opened Machine
  import opened Flow
  import opened Liveness
  import opened Values
  import opened ValuePass
  import opened Peephole
  import opened Local
  import opened Dominance
  import opened BranchMove
  import opened SweepFacts
  import opened PeepRules
  import Words

  function Leaf(k: bv32): Block {
    Block([], Ret(Word(k)), NIL, NIL)
  }

  /** All registers unknown but for A. */
  function OnlyA(v: nat): Vals {
    seq(N_ATOMS, i => if i == A_ATOM then v else VAL_UNKNOWN)
  }

  // ---------------------------------------------------------------------------------------
  // A subtraction taken over
  // ---------------------------------------------------------------------------------------

  const ZERO_WORD: Stmt := LdAbs(W, ZERO)

  /** Two blocks subtract 3 from the first word. The first compares the difference with 5, the second, by way of a
      scratch word, with 8. */
  function Subtracting(): Graph {
    [Block([ZERO_WORD, AluK(Sub, Word(3))], Jmp(Jeq, SrcK, Word(5)), 1, 2),
     Block([ZERO_WORD, AluK(Sub, Word(3)), St(0), LdMem(0)], Jmp(Jeq, SrcK, Word(8)), 3, 4),
     Leaf(2), Leaf(3), Leaf(4)]
  }

  /** The first block takes the subtraction over and compares the word with 8. */
  function SubtractingFinished(): Graph {
    Subtracting()[0 := Block([ZERO_WORD, Nop], Jmp(Jeq, SrcK, Word(8)), 1, 2)]
  }

  /** What value numbering gives: in both blocks A is the first word minus 3, and the operand is 8. */
  function SubtractingTable(): seq<Expr> {
    [Abs(W, ZERO), Imm(Word(3)), BinK(Sub, 1, 2), Imm(Word(8))]
  }

  /** The packet whose first word is 8 leaves 5 in A after the subtraction. */
  lemma SubtractingRuns(p: Packet, r: Regs)
    requires p.Load(W, ZERO) == Word(8)
    ensures RunAll(Subtracting()[0].stmts, p, r)[A_ATOM] == Word(5)
    ensures RunAll(SubtractingFinished()[0].stmts, p, r)[A_ATOM] == Word(8)
    ensures RunAll(Subtracting()[1].stmts, p, r)[A_ATOM] == Word(5)
  {
    var s0, s1, f0 := Subtracting()[0].stmts, Subtracting()[1].stmts, SubtractingFinished()[0].stmts;
    assert Alu(Sub, Word(8), Word(3)) == Word(5);
    hide Alu;
    RunNext(s0, 0, p, r);
    RunNext(s0, 1, p, r);
    RunNext(f0, 0, p, r);
    RunNext(f0, 1, p, r);
    RunNext(s1, 0, p, r);
    RunNext(s1, 1, p, r);
    RunNext(s1, 2, p, r);
    RunNext(s1, 3, p, r);
  }

  /** The first block takes the subtraction over, and then its true edge decides that the second goes to block 3: both
      have the same number for A, and the operand 8. */
  lemma SubtractingFolds()
    ensures var g, g', t, rank := Subtracting(), SubtractingFinished(), SubtractingTable(), [2, 1, 0, 0, 0];
      var vals, oval := [OnlyA(3), OnlyA(3), OnlyA(0), OnlyA(0), OnlyA(0)], [4, 4, 0, 0, 0];
      && FoldCompare(g[0], 1, {}, false, ZERO) == g'[0] && FoldCompare(g[1], 3, {}, false, ZERO) == g[1]
      && Table(t) && IsEntry(t, 4, Imm(g'[0].s.k)) && IsEntry(t, 4, Imm(g'[1].s.k))
      && Ranked(g, rank) && Ranked(g', rank) && EdgeTarget(g', 0) == 1 && EdgeDominates(g, 0, 0, 0)
      && FoldEdge(g', vals, oval, 1, 0) == 3
  {
    assert Alu(Add, Word(5), Word(3)) == Word(8);
    hide Alu;
  }

  /** Letting the edge lead there changes the result of the packet whose first word is 8: the number that both blocks
      have for A is not what the first one compares with 8. */
  lemma SubtractingFails(p: Packet, r: Regs)
    requires p.Load(W, ZERO) == Word(8)
    ensures var g, g', rank := Subtracting(), SubtractingFinished(), [2, 1, 0, 0, 0];
      && Ranked(g, rank) && Ranked(g', rank) && Ranked(SetTarget(g', 0, 3), rank)
      && Walk(g, rank, 0, p, r) == Walk(g', rank, 0, p, r) == Word(4)
      && Walk(SetTarget(g', 0, 3), rank, 0, p, r) == Word(3)
  {
    var g, g' := Subtracting(), SubtractingFinished();
    SubtractingRuns(p, r);
    SubtractingRuns(p, RunAll(g[0].stmts, p, r));
    SubtractingRuns(p, RunAll(g'[0].stmts, p, r));
    hide Alu, Run;
    assert Choose(g[0], RunAll(g[0].stmts, p, r)) == 1 && Choose(g'[0], RunAll(g'[0].stmts, p, r)) == 1;
  }

  /** Every block defines what it uses, and nothing else is wrong with the graph. The packets that do not fit are exactly
      those whose first word is 8. */
  lemma SubtractingMisfits(live: set<nat>, p: Packet)
    requires live == {0, 1, 2, 3, 4}
    ensures var vals, oval := [OnlyA(3), OnlyA(3), OnlyA(0), OnlyA(0), OnlyA(0)], [4, 4, 0, 0, 0];
      && Calm(Subtracting(), live)
      && (Fits(Subtracting(), [2, 1, 0, 0, 0], 0, SubtractingFinished(), vals, oval, p) <==> p.Load(W, ZERO) != Word(8))
  {
    hide Fits, BlockLocal, KeepsIndexes, OnlyA;
    SubtractingLocal(live);
    SubtractingFit([OnlyA(3), OnlyA(3), OnlyA(0), OnlyA(0), OnlyA(0)], p);
  }

  lemma SubtractingFit(vals: seq<Vals>, p: Packet)
    requires vals == [OnlyA(3), OnlyA(3), OnlyA(0), OnlyA(0), OnlyA(0)]
    ensures Fits(Subtracting(), [2, 1, 0, 0, 0], 0, SubtractingFinished(), vals, [4, 4, 0, 0, 0], p) <==> p.Load(W, ZERO) != Word(8)
  {
    hide MisjudgedFor, Decide, Visits, Ranked, Swaps;
    var g, g', rank, oval := Subtracting(), SubtractingFinished(), [2, 1, 0, 0, 0], [4, 4, 0, 0, 0];
    SubtractingJudged(p);
    SubtractingWays(p);
    SubtractingVisits(p);
    assert vals[0][A_ATOM] == vals[1][A_ATOM] && g'[2].s.Ret?;
    hide OnlyA;
    if p.Load(W, ZERO) == Word(8) {
      assert Infers(g', vals, 0, 1) && !InfersRight(g', oval, 0, 1, p);
    } else {
      forall b: nat, c: nat | Passes(g, rank, 0, p, b, c) ensures !Infers(g', vals, b, c) { assert b == 0 && c == 2; }
      hide Subtracting, SubtractingFinished, Infers, Passes;
    }
  }

  /** Only a packet whose first word is 8 passes the second block. */
  lemma SubtractingVisits(p: Packet)
    ensures var g, rank := Subtracting(), [2, 1, 0, 0, 0];
      && Ranked(g, rank) && Visits(g, rank, 2, p) == {2}
      && if p.Load(W, ZERO) == Word(8) then Passes(g, rank, 0, p, 0, 1) else Visits(g, rank, 0, p) == {0, 2}
  {
    hide Decide;
    var g, rank := Subtracting(), [2, 1, 0, 0, 0];
    SubtractingWays(p);
    hide Subtracting, SubtractingFinished;
    assert 1 in Visits(g, rank, 1, p);
  }

  /** Which way the two tests go, and that neither is misjudged. */
  lemma SubtractingWays(p: Packet)
    ensures var g, g' := Subtracting(), SubtractingFinished();
      && Decide(g[0], p) == Decide(g'[0], p) == (p.Load(W, ZERO) == Word(8))
      && (p.Load(W, ZERO) == Word(8) ==> !Decide(g'[1], p))
  {
    var a := p.Load(W, ZERO);
    var s0, f0 := Subtracting()[0].stmts, SubtractingFinished()[0].stmts;
    assert Alu(Sub, a, Word(3)) == Word(5) <==> a == Word(8) by { Words.SubtractEquals(a, Word(3), Word(5)); assert Alu(Add, Word(5), Word(3)) == Word(8); }
    hide Alu;
    if a == Word(8) { SubtractingRuns(p, Start()); }
    RunNext(s0, 0, p, Start());
    RunNext(s0, 1, p, Start());
    RunNext(f0, 0, p, Start());
    RunNext(f0, 1, p, Start());
  }

  lemma SubtractingJudged(p: Packet)
    ensures !MisjudgedFor(Subtracting()[0], p) && !MisjudgedFor(Subtracting()[1], p) && !Swaps(Subtracting()[0], {}) && !Swaps(Subtracting()[1], {})
  {
    hide LastSeen, Run;
    SubtractingLast();
  }

  lemma SubtractingLast()
    ensures LastSeen(Subtracting()[0].stmts) == AluK(Sub, Word(3)) && LastSeen(Subtracting()[1].stmts) == LdMem(0)
  {
    var s0, s1 := Subtracting()[0].stmts, Subtracting()[1].stmts;
    assert s0[0] != Nop && s1[0] != Nop;
    LastSeenIs(s0, 1);
    LastSeenIs(s1, 3);
  }

  lemma SubtractingLocal(live: set<nat>)
    requires live == {0, 1, 2, 3, 4}
    ensures BlockLocal(Subtracting(), live) && KeepsIndexes(Subtracting(), live)
  {
    var g := Subtracting();
    SubtractingUses();
    hide BlockUses;
    forall b | b in live && b < |g| ensures BlockUses(g[b]) == {} && KeepsIndex(g[b], {}) {
      assert b == 0 || b == 1 || g[b].stmts == [];
    }
  }

  lemma SubtractingUses()
    ensures forall b :: 0 <= b < 5 ==> BlockUses(Subtracting()[b]) == {}
  {
    var g := Subtracting();
    forall b | 0 <= b < 5 ensures BlockUses(g[b]) == {} { ScopedExposed(g[b].stmts, |g[b].stmts|); }
  }

  // ---------------------------------------------------------------------------------------
  // A mask taken over
  // ---------------------------------------------------------------------------------------

  const NEXT_WORD: Stmt := LdAbs(W, Word(4))

  /** The first block tests that the low bit of the first word is clear, the third, that it is set. */
  function Masking(): Graph {
    [Block([ZERO_WORD, AluK(And, Word(1))], Jmp(Jeq, SrcK, ZERO), 1, 3),
     Block([NEXT_WORD], Jmp(Jeq, SrcK, Word(7)), 2, 3),
     Block([ZERO_WORD, AluK(And, Word(1))], Jmp(Jset, SrcK, Word(1)), 4, 5),
     Leaf(3), Leaf(4), Leaf(5)]
  }

  /** The first block takes the mask over; its two edges are exchanged. */
  function MaskingFinished(): Graph {
    Masking()[0 := Block([ZERO_WORD, Nop], Jmp(Jset, SrcK, Word(1)), 3, 1)]
  }

  lemma MaskingRuns(p: Packet, r: Regs)
    requires p.Load(W, ZERO) == ZERO && p.Load(W, Word(4)) == Word(7)
    ensures RunAll(Masking()[0].stmts, p, r)[A_ATOM] == ZERO && RunAll(MaskingFinished()[0].stmts, p, r)[A_ATOM] == ZERO
    ensures RunAll(Masking()[1].stmts, p, r)[A_ATOM] == Word(7) && RunAll(Masking()[2].stmts, p, r)[A_ATOM] == ZERO
  {
    var s0, s1, s2, f0 := Masking()[0].stmts, Masking()[1].stmts, Masking()[2].stmts, MaskingFinished()[0].stmts;
    assert Alu(And, ZERO, Word(1)) == ZERO;
    hide Alu;
    RunNext(s0, 0, p, r);
    RunNext(s0, 1, p, r);
    RunNext(f0, 0, p, r);
    RunNext(f0, 1, p, r);
    RunNext(s1, 0, p, r);
    RunNext(s2, 0, p, r);
    RunNext(s2, 1, p, r);
  }

  /** The only path to the true edge of the second block is by the true edge of the first. */
  lemma MaskingDominates()
    ensures WellFormed(Masking()) && EdgeDominates(Masking(), 0, 0, 1)
  {
    var g := Masking();
    forall es | EdgePathTo(g, 0, es, 1) ensures 0 in es {
      var n := |es| - 1;
      assert EdgeSource(g, es[n]) == 1 != EdgeSource(g, es[0]);
      assert EdgeTarget(g, es[n - 1]) == 1;
      assert es[n - 1] == 0;
    }
  }

  /** The first block takes the mask over. Its true edge, which dominates the true edge of the second block, then decides
      that the third goes to block 4. */
  lemma MaskingFolds()
    ensures var g, g', rank := Masking(), MaskingFinished(), [3, 2, 1, 0, 0, 0];
      var vals, oval := [OnlyA(2), OnlyA(3), OnlyA(2), OnlyA(0), OnlyA(0), OnlyA(0)], [4, 5, 4, 0, 0, 0];
      && FoldCompare(g[0], 1, {}, false, ZERO) == g'[0] && FoldCompare(g[2], 1, {}, false, ZERO) == g[2]
      && Ranked(g, rank) && Ranked(g', rank) && EdgeTarget(g', 1) == 2 && EdgeDominates(g, 0, 0, 1)
      && FoldEdge(g', vals, oval, 2, 0) == 4
  {
    MaskingDominates();
    hide Alu, EdgeDominates;
  }

  /** Taking the mask over changes nothing yet. */
  lemma MaskingKept(p: Packet, r: Regs)
    requires p.Load(W, ZERO) == ZERO && p.Load(W, Word(4)) == Word(7)
    ensures var g, g', rank := Masking(), MaskingFinished(), [3, 2, 1, 0, 0, 0];
      Ranked(g, rank) && Ranked(g', rank) && Walk(g, rank, 0, p, r) == Walk(g', rank, 0, p, r) == Word(5)
  {
    var g, g' := Masking(), MaskingFinished();
    MaskingRuns(p, r);
    var r1, r1' := RunAll(g[0].stmts, p, r), RunAll(g'[0].stmts, p, r);
    MaskingRuns(p, r1);
    MaskingRuns(p, r1');
    MaskingRuns(p, RunAll(g[1].stmts, p, r1));
    MaskingRuns(p, RunAll(g[1].stmts, p, r1'));
    assert Both(0, 1) == 0;
    hide Alu, Run, Both;
    assert Choose(g[0], r1) == 1 && Choose(g'[0], r1') == 1;
    assert Choose(g[1], RunAll(g[1].stmts, p, r1)) == 2 && Choose(g'[1], RunAll(g'[1].stmts, p, r1')) == 2;
  }

  /** Letting the true edge of the second block lead there changes the result of a packet that comes by the false edge
      of the finished first block. */
  lemma MaskingFails(p: Packet, r: Regs)
    requires p.Load(W, ZERO) == ZERO && p.Load(W, Word(4)) == Word(7)
    ensures var g', rank := MaskingFinished(), [3, 2, 1, 0, 0, 0];
      && Ranked(g', rank) && Ranked(SetTarget(g', 1, 4), rank)
      && Walk(g', rank, 0, p, r) == Word(5) && Walk(SetTarget(g', 1, 4), rank, 0, p, r) == Word(4)
  {
    assert Both(0, 1) == 0;
    hide Alu, Run, Both;
    var h := SetTarget(MaskingFinished(), 1, 4);
    MaskingKept(p, r);
    MaskingRuns(p, r);
    MaskingRuns(p, RunAll(h[0].stmts, p, r));
    assert Choose(h[0], RunAll(h[0].stmts, p, r)) == 1;
  }

  /** The packet does not fit: it passes the first block and then the third, with the same test of the same number, and the
      first has exchanged its edges. */
  lemma MaskingMisfits(p: Packet)
    requires p.Load(W, ZERO) == ZERO && p.Load(W, Word(4)) == Word(7)
    ensures var vals, oval := [OnlyA(2), OnlyA(3), OnlyA(2), OnlyA(0), OnlyA(0), OnlyA(0)], [4, 5, 4, 0, 0, 0];
      !Fits(Masking(), [3, 2, 1, 0, 0, 0], 0, MaskingFinished(), vals, oval, p)
  {
    hide Visits, Ranked, Swaps, MisjudgedFor, Decide;
    var vals := [OnlyA(2), OnlyA(3), OnlyA(2), OnlyA(0), OnlyA(0), OnlyA(0)];
    MaskingVisits(p);
    MaskingSwaps();
    assert Infers(MaskingFinished(), vals, 0, 2);
  }

  lemma MaskingSwaps()
    ensures Swaps(Masking()[0], {})
  {
    var u := Masking()[0].stmts;
    assert u[0] != Nop;
    LastSeenIs(u, 1);
    hide LastSeen;
  }

  lemma MaskingVisits(p: Packet)
    requires p.Load(W, ZERO) == ZERO && p.Load(W, Word(4)) == Word(7)
    ensures Ranked(Masking(), [3, 2, 1, 0, 0, 0]) && Passes(Masking(), [3, 2, 1, 0, 0, 0], 0, p, 0, 2)
  {
    hide Run;
    var g, rank := Masking(), [3, 2, 1, 0, 0, 0];
    MaskingRuns(p, Start());
    assert Decide(g[0], p) && Decide(g[1], p);
    hide Decide, Masking;
    assert 2 in Visits(g, rank, 2, p);
    assert 2 in Visits(g, rank, 1, p);
  }
}
