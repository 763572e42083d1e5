/**
 Two graphs that statement rewriting treats alike: it deletes from the second block what the first
 has computed. One keeps every result; the other does not, for the first block has lost it.
 */
module AlteredGraphs {
  import opened Machine
  import opened Flow
  import opened Liveness
  import opened Values
  import opened PeepRules
  import opened Peephole
  import opened StmtPass
  import opened BlockPass
  import opened Trails
  import opened ValuePass
  import opened Altering
  import Analysis
  import DeadStores
  import Dominance
  import Pass

  function Leaf(k: bv32): Block {
    Block([], Ret(Word(k)), NIL, NIL)
  }

  /** Two tests in a row. */
  function TwoTests(u: seq<Stmt>, s: Branch, v: seq<Stmt>, s': Branch): Graph {
    [Block(u, s, 1, 2), Block(v, s', 3, 2), Leaf(2), Leaf(3)]
  }

  const TWO_RANK: seq<nat> := [2, 1, 0, 0]

  const NOTHING_KNOWN: Vals := seq(18, i => VAL_UNKNOWN)

  lemma TwoRanked(u: seq<Stmt>, s: Branch, v: seq<Stmt>, s': Branch)
    requires s.Jmp? && s'.Jmp?
    ensures var g := TwoTests(u, s, v, s'); Ranked(g, TWO_RANK) && Reach(g, TWO_RANK, 0) == {0, 1, 2, 3}
  {
    var g := TwoTests(u, s, v, s');
    assert Reach(g, TWO_RANK, 2) == {2} && Reach(g, TWO_RANK, 3) == {3};
    assert Reach(g, TWO_RANK, 1) == {1, 2, 3};
  }

  lemma FirstMember(s: seq<nat>)
    ensures s == [] || s[0] in s
  {
  }

  /** Nothing is known on entry to the first test, and on entry to the second what the first leaves. */
  lemma TwoEntries(u: seq<Stmt>, s: Branch, v: seq<Stmt>, s': Branch, inEdges: seq<seq<nat>>, vals: seq<Vals>)
    requires s.Jmp? && s'.Jmp? && Entered(TwoTests(u, s, v, s'), TWO_RANK, 0, inEdges) && |vals| == 4
    ensures EntryVals(TwoTests(u, s, v, s'), vals, inEdges[0]) == NOTHING_KNOWN
    ensures EntryVals(TwoTests(u, s, v, s'), vals, inEdges[1]) == vals[0]
  {
    var g := TwoTests(u, s, v, s');
    TwoRanked(u, s, v, s');
    hide Reach, Ranked;
    assert inEdges[0] == [] by {
      assert forall e: nat :: !Dominance.PredEdge(g, {0, 1, 2, 3}, e, 0);
      FirstMember(inEdges[0]);
    }
    forall e | e in inEdges[1] ensures e == 0 { assert Dominance.PredEdge(g, {0, 1, 2, 3}, e, 1); }
    assert Dominance.PredEdge(g, {0, 1, 2, 3}, 0, 1);
    assert 0 in inEdges[1] && inEdges[1] != [] && inEdges[1][0] in inEdges[1];
    forall i | 0 <= i < |inEdges[1]| ensures inEdges[1][i] == 0 { assert inEdges[1][i] in inEdges[1]; }
    assert forall a :: 0 <= a < N_ATOMS ==> AllAgree(g, vals, inEdges[1], |inEdges[1]|, a);
  }

  /** What becomes of a load or a move whose operand is no known constant. */
  lemma TransferStep(t: seq<Expr>, s: Stmt, val: Vals, s': Stmt, val': Vals)
    requires s != Nop && !Arithmetic(s) && StepDone(t, s, val, true, s', val') && !Foldable(t, s, val)
    ensures val' == val[Target(s) := val'[Target(s)]] && Numbers(t, s, val, val'[Target(s)])
    ensures s' == if val[Target(s)] == val'[Target(s)] != VAL_UNKNOWN then Nop else s
  {
    hide Simplified, Numbers, Foldable, InTable;
  }

  lemma LoadStep(t: seq<Expr>, k: Word, val: Vals, s': Stmt, val': Vals)
    requires StepDone(t, LdAbs(W, k), val, true, s', val')
    ensures val' == val[A_ATOM := val'[A_ATOM]] && IsEntry(t, val'[A_ATOM], Abs(W, k))
    ensures s' == if val[A_ATOM] == val'[A_ATOM] then Nop else LdAbs(W, k)
  {
    hide StepDone;
    TransferStep(t, LdAbs(W, k), val, s', val');
  }

  lemma StoreStep(t: seq<Expr>, m: MemIndex, val: Vals, s': Stmt, val': Vals)
    requires StepDone(t, St(m), val, true, s', val') && !IsConst(t, val[A_ATOM]) && val[A_ATOM] != VAL_UNKNOWN
    ensures val' == val[m := val[A_ATOM]] && s' == if val[m] == val[A_ATOM] then Nop else St(m)
  {
    hide StepDone, IsConst;
    TransferStep(t, St(m), val, s', val');
  }

  lemma IndexStep(t: seq<Expr>, m: MemIndex, val: Vals, s': Stmt, val': Vals)
    requires StepDone(t, LdxMem(m), val, true, s', val') && !IsConst(t, val[m]) && val[m] != VAL_UNKNOWN
    ensures val' == val[X_ATOM := val[m]] && s' == if val[X_ATOM] == val[m] then Nop else LdxMem(m)
  {
    hide StepDone, IsConst;
    TransferStep(t, LdxMem(m), val, s', val');
  }

  /** An expression has one number. */
  lemma SameNumber(t: seq<Expr>, v: nat, w: nat, e: Expr, e': Expr)
    requires Table(t) && IsEntry(t, v, e) && IsEntry(t, w, e')
    ensures v == w <==> e == e'
  {
  }

  lemma RemovedOnce(u: seq<Stmt>, v: seq<Stmt>, w: seq<Stmt>, exit: set<nat>)
    requires DeadStores.DeadRemoved(u, v, exit) && DeadStores.DeadRemoved(u, w, exit)
    ensures v == w
  {
  }

  /** A block in which there is nothing to rewrite only loses its dead stores. */
  lemma OnlyDead(t: seq<Expr>, numbered: Block, mid: Block, blk': Block, entry: Vals, exit: Vals, out: set<nat>, stmts: seq<Stmt>)
    requires Shrunk(t, numbered, mid, blk', entry, exit, out, true) && !Cleared(numbered, out, entry, exit, true) && Settled(t, numbered, exit)
    requires DeadStores.DeadRemoved(numbered.stmts, stmts, out + BranchUses(numbered.s))
    ensures mid == numbered && blk' == numbered.(stmts := stmts)
  {
    hide Cleared, Settled, DeadStores.DeadRemoved, BranchUses;
    RemovedOnce(numbered.stmts, stmts, blk'.stmts, out + BranchUses(numbered.s));
  }

  /** The second test uses nothing that it does not define, so nothing is live out of either. */
  lemma TwoLive(u: seq<Stmt>, s: Branch, v: seq<Stmt>, s': Branch)
    requires s.Jmp? && s'.Jmp? && BlockUses(Block(v, s', 3, 2)) == {}
    ensures Ranked(TwoTests(u, s, v, s'), TWO_RANK)
    ensures LiveOut(TwoTests(u, s, v, s'), TWO_RANK, 0) == {} && LiveOut(TwoTests(u, s, v, s'), TWO_RANK, 1) == {}
  {
    var g := TwoTests(u, s, v, s');
    TwoRanked(u, s, v, s');
    hide Reach;
    assert LiveIn(g, TWO_RANK, 2) == {} && LiveIn(g, TWO_RANK, 3) == {};
    assert LiveIn(g, TWO_RANK, 1) == {};
  }

  /** What the pass says about one block of two tests in a row. */
  ghost predicate BlockPassed(t: seq<Expr>, blk: Block, entry: Vals, numbered: Block, mid: Block, blk': Block, exit: Vals) {
    && Table(t) && SameShape(blk, numbered) && Traced(t, entry, blk.stmts, true, numbered.stmts, exit)
    && Shrunk(t, numbered, mid, blk', entry, exit, {}, true)
  }

  lemma TwoPassed(u: seq<Stmt>, s: Branch, v: seq<Stmt>, s': Branch, inEdges: seq<seq<nat>>, outUse: seq<set<nat>>, t: seq<Expr>,
                  g1: Graph, gm: Graph, g': Graph, vals: seq<Vals>, oval: seq<nat>)
    requires s.Jmp? && s'.Jmp? && BlockUses(Block(v, s', 3, 2)) == {}
    requires Passed(TwoTests(u, s, v, s'), TWO_RANK, 0, inEdges, outUse, true, t, g1, gm, g', vals, oval)
    ensures |g1| == |gm| == |g'| == |vals| == 4 && g'[2] == Leaf(2) && g'[3] == Leaf(3)
    ensures BlockPassed(t, Block(u, s, 1, 2), NOTHING_KNOWN, g1[0], gm[0], g'[0], vals[0])
    ensures BlockPassed(t, Block(v, s', 3, 2), vals[0], g1[1], gm[1], g'[1], vals[1])
  {
    hide BlockUses, Traced, Shrunk, Table, EntryVals, LiveOut, BlockPassed, InTable, TwoTests, Passed, Sized;
    var g := TwoTests(u, s, v, s');
    assert g == [Block(u, s, 1, 2), Block(v, s', 3, 2), Leaf(2), Leaf(3)] by { TwoIs(u, s, v, s'); }
    TwoRanked(u, s, v, s');
    TwoLive(u, s, v, s');
    hide Reach, Ranked;
    PassedShape(g, TWO_RANK, 0, inEdges, outUse, true, t, g1, gm, g', vals, oval);
    PassedLengths(g, inEdges, outUse, g1, gm, g', vals);
    TwoEntries(u, s, v, s', inEdges, vals);
    OnePassed(g, TWO_RANK, 0, inEdges, outUse, t, g1, gm, g', vals, oval, 0);
    OnePassed(g, TWO_RANK, 0, inEdges, outUse, t, g1, gm, g', vals, oval, 1);
    LeafPassed(g, TWO_RANK, 0, inEdges, outUse, t, g1, gm, g', vals, oval, 2);
    LeafPassed(g, TWO_RANK, 0, inEdges, outUse, t, g1, gm, g', vals, oval, 3);
  }

  lemma TwoIs(u: seq<Stmt>, s: Branch, v: seq<Stmt>, s': Branch)
    ensures TwoTests(u, s, v, s') == [Block(u, s, 1, 2), Block(v, s', 3, 2), Leaf(2), Leaf(3)]
  {
  }

  lemma PassedLengths(g: Graph, inEdges: seq<seq<nat>>, outUse: seq<set<nat>>, g1: Graph, gm: Graph, g': Graph, vals: seq<Vals>)
    requires Sized(g, inEdges, outUse, g1, gm, g', vals)
    ensures |inEdges| == |g1| == |gm| == |g'| == |vals| == |g| && forall c :: 0 <= c < |g| ==> InRange(g, inEdges[c])
  {
  }

  lemma OnePassed(g: Graph, rank: seq<nat>, root: nat, inEdges: seq<seq<nat>>, outUse: seq<set<nat>>, t: seq<Expr>,
                  g1: Graph, gm: Graph, g': Graph, vals: seq<Vals>, oval: seq<nat>, c: nat)
    requires Passed(g, rank, root, inEdges, outUse, true, t, g1, gm, g', vals, oval)
    requires Ranked(g, rank) && root < |g| && c in Reach(g, rank, root) && LiveOut(g, rank, c) == {}
    requires |inEdges| == |g1| == |gm| == |g'| == |vals| == |g| && InRange(g, inEdges[c])
    ensures BlockPassed(t, g[c], EntryVals(g, vals, inEdges[c]), g1[c], gm[c], g'[c], vals[c])
  {
    hide Traced, Shrunk, Table, InTable, EntryVals, LiveOut, Reach, FinishedRight, NumberedRight, Contained, OperandNumber;
    PassInvAt(g, rank, root, inEdges, outUse, true, t, g1, gm, g', vals, oval, Reach(g, rank, root), c);
  }

  lemma LeafPassed(g: Graph, rank: seq<nat>, root: nat, inEdges: seq<seq<nat>>, outUse: seq<set<nat>>, t: seq<Expr>,
                   g1: Graph, gm: Graph, g': Graph, vals: seq<Vals>, oval: seq<nat>, c: nat)
    requires Passed(g, rank, root, inEdges, outUse, true, t, g1, gm, g', vals, oval)
    requires Ranked(g, rank) && root < |g| && c in Reach(g, rank, root) && g[c].s.Ret? && |g1| == |g'| == |g|
    ensures g'[c] == g[c].(stmts := [])
  {
    hide Traced, Table, InTable, EntryVals, LiveOut, Reach, FinishedRight, NumberedRight, Contained, OperandNumber, Thinner;
    PassInvAt(g, rank, root, inEdges, outUse, true, t, g1, gm, g', vals, oval, Reach(g, rank, root), c);
  }

  // ---------------------------------------------------------------------------------------
  // A store dead in one block and superfluous in the next
  // ---------------------------------------------------------------------------------------

  const ZERO_WORD: Stmt := LdAbs(W, ZERO)
  const NEXT_WORD: Stmt := LdAbs(W, Word(4))
  const TEST_ONE: Branch := Jmp(Jeq, SrcK, Word(1))
  const TEST_X: Branch := Jmp(Jeq, SrcX, ZERO)

  /** Both blocks keep the first word in M[0]; the second compares the next word with it. */
  function Storing(): Graph {
    TwoTests([ZERO_WORD, St(0)], TEST_ONE, [ZERO_WORD, St(0), NEXT_WORD, LdxMem(0)], TEST_X)
  }

  /** The first block loses its store, which nothing after it needs; the second loses its store, because M[0] already
      has the number of what it stores. */
  function StoringAltered(): Graph {
    TwoTests([ZERO_WORD, Nop], TEST_ONE, [Nop, Nop, NEXT_WORD, LdxMem(0)], TEST_X)
  }

  /** The first block: nothing is deleted by numbering, and A and M[0] get the number of the first word. */
  lemma StoringFirst(t: seq<Expr>, numbered: Block, mid: Block, blk': Block, exit: Vals)
    requires BlockPassed(t, Storing()[0], NOTHING_KNOWN, numbered, mid, blk', exit)
    ensures numbered == Storing()[0] && exit == NOTHING_KNOWN[A_ATOM := exit[A_ATOM]][0 := exit[A_ATOM]]
    ensures IsEntry(t, exit[A_ATOM], Abs(W, ZERO))
  {
    hide Table, Shrunk, StepDone, IsEntry, IsConst;
    var u, w := Storing()[0].stmts, numbered.stmts;
    var vs :| TraceOf(t, NOTHING_KNOWN, u, true, w, exit, vs, 2);
    assert StepDone(t, u[0], vs[0], true, w[0], vs[1]) && StepDone(t, u[1], vs[1], true, w[1], vs[2]);
    LoadStep(t, ZERO, vs[0], w[0], vs[1]);
    NotConstant(t, vs[1][A_ATOM], Abs(W, ZERO));
    StoreStep(t, 0, vs[1], w[1], vs[2]);
    assert w == u;
  }

  lemma NotConstant(t: seq<Expr>, v: nat, e: Expr)
    requires IsEntry(t, v, e) && !e.Imm?
    ensures !IsConst(t, v) && !IsConst(t, VAL_UNKNOWN) && v != VAL_UNKNOWN
  {
  }

  lemma StoringNumbers(t: seq<Expr>, v0: Vals, a: nat, s0: Stmt, v1: Vals, s1: Stmt, v2: Vals, s2: Stmt, v3: Vals, s3: Stmt, v4: Vals)
    requires Table(t) && v0 == NOTHING_KNOWN[A_ATOM := a][0 := a] && IsEntry(t, a, Abs(W, ZERO))
    requires StepDone(t, ZERO_WORD, v0, true, s0, v1) && StepDone(t, St(0), v1, true, s1, v2)
    requires StepDone(t, NEXT_WORD, v2, true, s2, v3) && StepDone(t, LdxMem(0), v3, true, s3, v4)
    ensures s0 == s1 == Nop && s2 == NEXT_WORD && s3 == LdxMem(0)
    ensures v4 == v0[A_ATOM := v4[A_ATOM]][X_ATOM := a] && IsEntry(t, v4[A_ATOM], Abs(W, Word(4))) && v4[A_ATOM] != a
  {
    hide Table, StepDone, IsEntry, IsConst;
    NotConstant(t, a, Abs(W, ZERO));
    LoadStep(t, ZERO, v0, s0, v1);
    SameNumber(t, a, v1[A_ATOM], Abs(W, ZERO), Abs(W, ZERO));
    StoreStep(t, 0, v1, s1, v2);
    LoadStep(t, Word(4), v2, s2, v3);
    SameNumber(t, a, v3[A_ATOM], Abs(W, ZERO), Abs(W, Word(4)));
    IndexStep(t, 0, v3, s3, v4);
  }

  /** The second block: numbering deletes the load and the store that repeat the first block's. */
  lemma StoringSecond(t: seq<Expr>, entry: Vals, a: nat, numbered: Block, mid: Block, blk': Block, exit: Vals)
    requires entry == NOTHING_KNOWN[A_ATOM := a][0 := a] && IsEntry(t, a, Abs(W, ZERO))
    requires BlockPassed(t, Storing()[1], entry, numbered, mid, blk', exit)
    ensures numbered == StoringAltered()[1] && exit == entry[A_ATOM := exit[A_ATOM]][X_ATOM := a]
    ensures IsEntry(t, exit[A_ATOM], Abs(W, Word(4))) && exit[A_ATOM] != a
  {
    hide Table, Shrunk, StepDone, IsEntry, IsConst;
    var u, w := Storing()[1].stmts, numbered.stmts;
    var vs :| TraceOf(t, entry, u, true, w, exit, vs, 4);
    assert StepDone(t, u[0], vs[0], true, w[0], vs[1]) && StepDone(t, u[1], vs[1], true, w[1], vs[2]);
    assert StepDone(t, u[2], vs[2], true, w[2], vs[3]) && StepDone(t, u[3], vs[3], true, w[3], vs[4]);
    StoringNumbers(t, entry, a, w[0], vs[1], w[1], vs[2], w[2], vs[3], w[3], vs[4]);
    assert w == StoringAltered()[1].stmts;
  }

  lemma StoringUses()
    ensures BlockUses(Storing()[1]) == {}
  {
    var v := Storing()[1].stmts;
    UsesOfBranch(TEST_X);
    assert Exposed(v, 1) == {} && Defs(v, 1) == {A_ATOM};
    assert Exposed(v, 2) == {} && Defs(v, 2) == {A_ATOM, 0};
    assert Exposed(v, 3) == {} && Defs(v, 3) == {A_ATOM, 0};
    assert Exposed(v, 4) == {} && Defs(v, 4) == {A_ATOM, 0, X_ATOM};
  }

  /** In the first block, the store is dead; in the second, nothing is. */
  lemma StoringDead()
    ensures DeadStores.DeadRemoved(Storing()[0].stmts, StoringAltered()[0].stmts, {} + BranchUses(TEST_ONE))
    ensures DeadStores.DeadRemoved(StoringAltered()[1].stmts, StoringAltered()[1].stmts, {} + BranchUses(TEST_X))
  {
    var u, v := Storing()[0].stmts, StoringAltered()[1].stmts;
    UsesOfBranch(TEST_ONE);
    UsesOfBranch(TEST_X);
    DeadStores.FateCons(u, 1, 2, A_ATOM);
    assert DeadStores.FateOf(u, 2, 2, 0) == DeadStores.Untouched && DeadStores.FateOf(u, 1, 2, A_ATOM) == DeadStores.Used;
    DeadStores.FateCons(v, 3, 4, A_ATOM);
    assert DeadStores.FateOf(v, 4, 4, X_ATOM) == DeadStores.Untouched && DeadStores.FateOf(v, 3, 4, A_ATOM) == DeadStores.Untouched;
  }

  /** A list without constants to load and without neighbours to join. */
  lemma StoringSettled(t: seq<Expr>, exit: Vals)
    requires !IsConst(t, exit[A_ATOM]) && !IsConst(t, exit[X_ATOM])
    ensures Settled(t, Storing()[0], exit) && Settled(t, StoringAltered()[1], exit)
  {
    hide IsConst;
    var u, v := Storing()[0].stmts, StoringAltered()[1].stmts;
    assert u[0] != Nop && v[2] != Nop;
    LastSeenIs(u, 1);
    LastSeenIs(v, 3);
    hide LastSeen;
    assert Joined(u, 2) && Joined(v, 4);
  }

  /** Whatever the hash function, the pass makes of the graph the one in which both stores are gone. */
  lemma StoringMade(inEdges: seq<seq<nat>>, outUse: seq<set<nat>>, t: seq<Expr>, g1: Graph, gm: Graph, g': Graph, vals: seq<Vals>, oval: seq<nat>)
    requires Passed(Storing(), TWO_RANK, 0, inEdges, outUse, true, t, g1, gm, g', vals, oval)
    ensures g' == StoringAltered() && |g1| == |gm| == |vals| == 4 && g1[0] == gm[0] == Storing()[0]
  {
    hide Passed, BlockUses, BlockPassed, IsEntry, IsConst, Settled, DeadStores.DeadRemoved, Shrunk, Table;
    StoringUses();
    TwoPassed(Storing()[0].stmts, TEST_ONE, Storing()[1].stmts, TEST_X, inEdges, outUse, t, g1, gm, g', vals, oval);
    StoringFirst(t, g1[0], gm[0], g'[0], vals[0]);
    var a := vals[0][A_ATOM];
    StoringSecond(t, vals[0], a, g1[1], gm[1], g'[1], vals[1]);
    NotConstant(t, a, Abs(W, ZERO));
    NotConstant(t, vals[1][A_ATOM], Abs(W, Word(4)));
    StoringSettled(t, vals[0]);
    StoringSettled(t, vals[1]);
    StoringDead();
    PassedShrunk(t, Storing()[0], NOTHING_KNOWN, g1[0], gm[0], g'[0], vals[0]);
    PassedShrunk(t, Storing()[1], vals[0], g1[1], gm[1], g'[1], vals[1]);
    OnlyDead(t, g1[0], gm[0], g'[0], NOTHING_KNOWN, vals[0], {}, StoringAltered()[0].stmts);
    OnlyDead(t, g1[1], gm[1], g'[1], vals[0], vals[1], {}, StoringAltered()[1].stmts);
  }

  lemma PassedShrunk(t: seq<Expr>, blk: Block, entry: Vals, numbered: Block, mid: Block, blk': Block, exit: Vals)
    requires BlockPassed(t, blk, entry, numbered, mid, blk', exit)
    ensures Shrunk(t, numbered, mid, blk', entry, exit, {}, true)
  {
  }

  method RewriteStoring(hash: Expr -> nat) returns (g': Graph)
    ensures g' == StoringAltered()
  {
    hide Passed, AllAccepted, AllKnown, Spared, Followed, Separate, Walk, Ranked, Reach;
    TwoRanked(Storing()[0].stmts, TEST_ONE, Storing()[1].stmts, TEST_X);
    StoringAccepted();
    var ok;
    ghost var inEdges, outUse, t, g1, gm, vals, oval;
    g', ok, inEdges, outUse, t, g1, gm, vals, oval := Pass.RewriteOf(Storing(), 0, hash, TWO_RANK);
    StoringMade(inEdges, outUse, t, g1, gm, g', vals, oval);
  }

  lemma StoringAccepted()
    ensures AllAccepted(Storing(), {0, 1, 2, 3}, true)
  {
  }

  /** That changes the result of a packet whose first two words are 1. */
  lemma StoringFails(p: Packet, r: Regs)
    requires p.Load(W, ZERO) == Word(1) && p.Load(W, Word(4)) == Word(1) && r[0] == ZERO
    ensures var g, g' := Storing(), StoringAltered();
      && Ranked(g, TWO_RANK) && Ranked(g', TWO_RANK)
      && Walk(g, TWO_RANK, 0, p, r) == Word(3) && Walk(g', TWO_RANK, 0, p, r) == Word(2)
  {
    var g, g' := Storing(), StoringAltered();
    var s0, f0 := g[0].stmts, g'[0].stmts;
    var r1, r1' := RunAll(s0, p, r), RunAll(f0, p, r);
    RunNext(s0, 0, p, r);
    RunNext(s0, 1, p, r);
    RunNext(f0, 0, p, r);
    RunNext(f0, 1, p, r);
    StoringRuns(p, r1);
    StoringRuns(p, r1');
    hide Run;
    assert Choose(g[0], r1) == 1 && Choose(g'[0], r1') == 1;
  }

  lemma StoringRuns(p: Packet, r: Regs)
    requires p.Load(W, ZERO) == Word(1) && p.Load(W, Word(4)) == Word(1)
    ensures var q, q' := RunAll(Storing()[1].stmts, p, r), RunAll(StoringAltered()[1].stmts, p, r);
      && q[A_ATOM] == Word(1) && q[X_ATOM] == Word(1) && q'[A_ATOM] == Word(1) && q'[X_ATOM] == r[0]
  {
    var s1, f1 := Storing()[1].stmts, StoringAltered()[1].stmts;
    RunNext(s1, 0, p, r);
    RunNext(s1, 1, p, r);
    RunNext(s1, 2, p, r);
    RunNext(s1, 3, p, r);
    RunNext(f1, 0, p, r);
    RunNext(f1, 1, p, r);
    RunNext(f1, 2, p, r);
    RunNext(f1, 3, p, r);
  }

  /** The blocks do not keep to themselves, and the first does not keep what the finished second uses. */
  lemma StoringUnspared(inEdges: seq<seq<nat>>, outUse: seq<set<nat>>, t: seq<Expr>, g1: Graph, gm: Graph, g': Graph, vals: seq<Vals>,
                        oval: seq<nat>)
    requires Passed(Storing(), TWO_RANK, 0, inEdges, outUse, true, t, g1, gm, g', vals, oval)
    ensures Ranked(Storing(), TWO_RANK) && !Separate(Storing(), TWO_RANK, 0)
    ensures !Spared(Storing(), TWO_RANK, inEdges, outUse, true, t, g1, gm, g', vals, {0, 1, 2, 3})
  {
    hide Passed, LiveIn, LiveOut, BlockUses, EntryVals;
    StoringMade(inEdges, outUse, t, g1, gm, g', vals, oval);
    StoringMixed();
    PassedShape(Storing(), TWO_RANK, 0, inEdges, outUse, true, t, g1, gm, g', vals, oval);
    TwoEntries(Storing()[0].stmts, TEST_ONE, Storing()[1].stmts, TEST_X, inEdges, vals);
    StoringLost();
    StoringOut(inEdges, outUse, t, g1, gm, g', vals, oval);
    hide Separate, Ranked, Reach, PeepSpares, DeadStores.KeepsLast;
    assert !SparedAt(Storing(), TWO_RANK, inEdges, outUse, true, t, g1, gm, g', vals, 0);
    hide SparedAt;
  }

  lemma StoringOut(inEdges: seq<seq<nat>>, outUse: seq<set<nat>>, t: seq<Expr>, g1: Graph, gm: Graph, g': Graph, vals: seq<Vals>, oval: seq<nat>)
    requires Passed(Storing(), TWO_RANK, 0, inEdges, outUse, true, t, g1, gm, g', vals, oval)
    ensures |outUse| == 4 && outUse[0] == {}
  {
    hide BlockUses, LiveOut;
    StoringUses();
    TwoRanked(Storing()[0].stmts, TEST_ONE, Storing()[1].stmts, TEST_X);
    TwoLive(Storing()[0].stmts, TEST_ONE, Storing()[1].stmts, TEST_X);
    hide Reach, Ranked;
  }

  lemma StoringMixed()
    ensures Ranked(Storing(), TWO_RANK) && !Separate(Storing(), TWO_RANK, 0)
  {
    hide Reach, LiveOut, BlockUses, OperandsKnown, PlainEnd, IndexSpent, Discerns, Ranked;
    var g := Storing();
    TwoRanked(g[0].stmts, TEST_ONE, g[1].stmts, TEST_X);
    StoringUses();
    TwoLive(g[0].stmts, TEST_ONE, g[1].stmts, TEST_X);
    assert AtomDef(g[0].stmts[1]) == 0 && AtomDef(g[1].stmts[1]) == 0;
    assert Defines(g[0].stmts, 0) && Touches(g[1], 0);
    assert !Apart(g, TWO_RANK, 0);
  }

  /** The finished second block uses M[0], and the store to it is the first block's last definition of it. */
  lemma StoringLost()
    ensures Ranked(StoringAltered(), TWO_RANK) && 0 in LiveOut(StoringAltered(), TWO_RANK, 0)
    ensures !DeadStores.KeepsLast(Storing()[0].stmts, {} + BranchUses(TEST_ONE), LiveOut(StoringAltered(), TWO_RANK, 0))
  {
    hide LiveIn, BlockUses, Reach, BranchUses;
    var g, u := StoringAltered(), Storing()[0].stmts;
    TwoRanked(g[0].stmts, TEST_ONE, g[1].stmts, TEST_X);
    StoringNeeds();
    LiveUses(g, TWO_RANK, 1);
    UsesOfBranch(TEST_ONE);
    assert u[1] == St(0) && DeadStores.FateOf(u, 2, 2, 0) == DeadStores.Untouched;
  }

  lemma StoringNeeds()
    ensures 0 in BlockUses(StoringAltered()[1])
  {
    var v := StoringAltered()[1].stmts;
    assert Defs(v, 1) == {};
    assert Defs(v, 2) == {};
    assert Defs(v, 3) == {A_ATOM};
    hide Defs;
    assert 0 in Exposed(v, 4);
  }

  lemma LiveUses(g: Graph, rank: seq<nat>, b: nat)
    requires Ranked(g, rank) && b < |g|
    ensures BlockUses(g[b]) <= LiveIn(g, rank, b)
  {
    hide BlockUses;
  }

  // ---------------------------------------------------------------------------------------
  // An index loaded once for two blocks
  // ---------------------------------------------------------------------------------------

  const HEADER: Stmt := LdxMsh(Word(14))
  const SOURCE_PORT: Stmt := LdInd(H, Word(14))
  const TARGET_PORT: Stmt := LdInd(H, Word(16))
  const TEST_PORT: Branch := Jmp(Jeq, SrcK, Word(80))

  /** Both blocks load the length of a header into X and compare a word after the header with 80. */
  function Sharing(): Graph {
    TwoTests([HEADER, SOURCE_PORT], TEST_PORT, [HEADER, TARGET_PORT], TEST_PORT)
  }

  /** The second block relies on the first to have loaded the length. */
  function SharingAltered(): Graph {
    TwoTests([HEADER, SOURCE_PORT], TEST_PORT, [Nop, TARGET_PORT], TEST_PORT)
  }

  lemma HeaderStep(t: seq<Expr>, val: Vals, s': Stmt, val': Vals)
    requires StepDone(t, HEADER, val, true, s', val')
    ensures val' == val[X_ATOM := val'[X_ATOM]] && IsEntry(t, val'[X_ATOM], Msh(Word(14)))
    ensures s' == if val[X_ATOM] == val'[X_ATOM] then Nop else HEADER
  {
    hide StepDone;
    TransferStep(t, HEADER, val, s', val');
  }

  lemma PortStep(t: seq<Expr>, k: Word, val: Vals, s': Stmt, val': Vals)
    requires StepDone(t, LdInd(H, k), val, true, s', val') && !IsConst(t, val[X_ATOM])
    ensures val' == val[A_ATOM := val'[A_ATOM]] && IsEntry(t, val'[A_ATOM], Ind(H, k, val[X_ATOM]))
    ensures s' == if val[A_ATOM] == val'[A_ATOM] then Nop else LdInd(H, k)
  {
    hide StepDone, IsConst;
    TransferStep(t, LdInd(H, k), val, s', val');
  }

  /** The first block: nothing is deleted, and X has the number of the length. */
  lemma SharingFirst(t: seq<Expr>, numbered: Block, mid: Block, blk': Block, exit: Vals)
    requires BlockPassed(t, Sharing()[0], NOTHING_KNOWN, numbered, mid, blk', exit)
    ensures numbered == Sharing()[0] && IsEntry(t, exit[X_ATOM], Msh(Word(14))) && IsEntry(t, exit[A_ATOM], Ind(H, Word(14), exit[X_ATOM]))
  {
    hide Table, Shrunk, StepDone, IsEntry, IsConst;
    var u, w := Sharing()[0].stmts, numbered.stmts;
    var vs :| TraceOf(t, NOTHING_KNOWN, u, true, w, exit, vs, 2);
    assert StepDone(t, u[0], vs[0], true, w[0], vs[1]) && StepDone(t, u[1], vs[1], true, w[1], vs[2]);
    HeaderStep(t, vs[0], w[0], vs[1]);
    NotConstant(t, vs[1][X_ATOM], Msh(Word(14)));
    PortStep(t, Word(14), vs[1], w[1], vs[2]);
    NotConstant(t, vs[2][A_ATOM], Ind(H, Word(14), vs[1][X_ATOM]));
    assert w == u;
  }

  /** The second block: loading the length again is deleted. */
  lemma SharingSecond(t: seq<Expr>, entry: Vals, numbered: Block, mid: Block, blk': Block, exit: Vals)
    requires IsEntry(t, entry[X_ATOM], Msh(Word(14))) && IsEntry(t, entry[A_ATOM], Ind(H, Word(14), entry[X_ATOM]))
    requires BlockPassed(t, Sharing()[1], entry, numbered, mid, blk', exit)
    ensures numbered == SharingAltered()[1] && exit[X_ATOM] == entry[X_ATOM] && exit[A_ATOM] != entry[A_ATOM]
    ensures IsEntry(t, exit[A_ATOM], Ind(H, Word(16), exit[X_ATOM]))
  {
    hide Table, Shrunk, StepDone, IsEntry, IsConst;
    var u, w := Sharing()[1].stmts, numbered.stmts;
    var vs :| TraceOf(t, entry, u, true, w, exit, vs, 2);
    assert StepDone(t, u[0], vs[0], true, w[0], vs[1]) && StepDone(t, u[1], vs[1], true, w[1], vs[2]);
    HeaderStep(t, vs[0], w[0], vs[1]);
    SameNumber(t, vs[0][X_ATOM], vs[1][X_ATOM], Msh(Word(14)), Msh(Word(14)));
    NotConstant(t, vs[1][X_ATOM], Msh(Word(14)));
    PortStep(t, Word(16), vs[1], w[1], vs[2]);
    SameNumber(t, vs[1][A_ATOM], vs[2][A_ATOM], Ind(H, Word(14), vs[1][X_ATOM]), Ind(H, Word(16), vs[1][X_ATOM]));
    assert w == SharingAltered()[1].stmts;
  }

  lemma SharingUses()
    ensures BlockUses(Sharing()[0]) == {} && BlockUses(Sharing()[1]) == {} && BlockUses(SharingAltered()[1]) == {X_ATOM}
  {
    hide Exposed, Defs;
    UsesOfBranch(TEST_PORT);
    TwoExposed(Sharing()[0].stmts);
    TwoExposed(Sharing()[1].stmts);
    TwoExposed(SharingAltered()[1].stmts);
  }

  lemma TwoExposed(u: seq<Stmt>)
    requires |u| == 2
    ensures Exposed(u, 2) == Uses(u[0]) + (Uses(u[1]) - Atoms(AtomDef(u[0]))) && Defs(u, 2) == Atoms(AtomDef(u[0])) + Atoms(AtomDef(u[1]))
  {
    hide Uses, AtomDef, Atoms;
    assert Defs(u, 1) == Atoms(AtomDef(u[0])) && Exposed(u, 1) == Uses(u[0]);
  }

  lemma SharingDead()
    ensures DeadStores.DeadRemoved(Sharing()[0].stmts, Sharing()[0].stmts, {} + BranchUses(TEST_PORT))
    ensures DeadStores.DeadRemoved(SharingAltered()[1].stmts, SharingAltered()[1].stmts, {} + BranchUses(TEST_PORT))
    ensures DeadStores.KeepsLast(Sharing()[0].stmts, {} + BranchUses(TEST_PORT), {X_ATOM})
  {
    var u, v := Sharing()[0].stmts, SharingAltered()[1].stmts;
    UsesOfBranch(TEST_PORT);
    DeadStores.FateCons(u, 1, 2, X_ATOM);
    assert DeadStores.FateOf(u, 1, 2, X_ATOM) == DeadStores.Used && DeadStores.FateOf(u, 2, 2, A_ATOM) == DeadStores.Untouched;
    assert DeadStores.FateOf(v, 2, 2, A_ATOM) == DeadStores.Untouched;
  }

  lemma SharingSettled(t: seq<Expr>, exit: Vals)
    requires !IsConst(t, exit[A_ATOM]) && !IsConst(t, exit[X_ATOM])
    ensures Settled(t, Sharing()[0], exit) && Settled(t, SharingAltered()[1], exit)
  {
    hide IsConst;
    var u, v := Sharing()[0].stmts, SharingAltered()[1].stmts;
    assert u[0] != Nop && FinalOp(u, 1) && FinalOp(v, 1);
    LastSeenIs(u, 1);
    SharingLast();
    hide LastSeen;
    assert Joined(u, 2) && Joined(v, 2);
  }

  lemma SharingLast()
    ensures !Arith(LastSeen(SharingAltered()[1].stmts)) && !Arith(LastSeen(Sharing()[0].stmts))
  {
    var v, u := SharingAltered()[1].stmts, Sharing()[0].stmts;
    assert forall l :: 0 <= l < 2 ==> !Arith(v[l]) && !Arith(u[l]);
  }

  /** Whatever the hash function, the pass deletes the second load of the length, and nothing else. */
  lemma SharingMade(inEdges: seq<seq<nat>>, outUse: seq<set<nat>>, t: seq<Expr>, g1: Graph, gm: Graph, g': Graph, vals: seq<Vals>, oval: seq<nat>)
    requires Passed(Sharing(), TWO_RANK, 0, inEdges, outUse, true, t, g1, gm, g', vals, oval)
    ensures g' == SharingAltered() && |g1| == |gm| == |vals| == 4 && g1[0] == gm[0] == Sharing()[0] && g1[1] == gm[1] == SharingAltered()[1]
    ensures vals[1][A_ATOM] != vals[0][A_ATOM]
  {
    hide Passed, BlockUses, BlockPassed, IsEntry, IsConst, Settled, DeadStores.DeadRemoved, DeadStores.KeepsLast, Shrunk, Table;
    SharingUses();
    TwoPassed(Sharing()[0].stmts, TEST_PORT, Sharing()[1].stmts, TEST_PORT, inEdges, outUse, t, g1, gm, g', vals, oval);
    SharingFirst(t, g1[0], gm[0], g'[0], vals[0]);
    SharingSecond(t, vals[0], g1[1], gm[1], g'[1], vals[1]);
    NotConstant(t, vals[0][X_ATOM], Msh(Word(14)));
    NotConstant(t, vals[0][A_ATOM], Ind(H, Word(14), vals[0][X_ATOM]));
    NotConstant(t, vals[1][A_ATOM], Ind(H, Word(16), vals[1][X_ATOM]));
    SharingSettled(t, vals[0]);
    SharingSettled(t, vals[1]);
    SharingDead();
    PassedShrunk(t, Sharing()[0], NOTHING_KNOWN, g1[0], gm[0], g'[0], vals[0]);
    PassedShrunk(t, Sharing()[1], vals[0], g1[1], gm[1], g'[1], vals[1]);
    OnlyDead(t, g1[0], gm[0], g'[0], NOTHING_KNOWN, vals[0], {}, Sharing()[0].stmts);
    OnlyDead(t, g1[1], gm[1], g'[1], vals[0], vals[1], {}, SharingAltered()[1].stmts);
  }

  lemma SharingLive()
    ensures Ranked(SharingAltered(), TWO_RANK)
    ensures LiveOut(SharingAltered(), TWO_RANK, 0) == {X_ATOM} && LiveOut(SharingAltered(), TWO_RANK, 1) == {}
  {
    hide Reach, BlockUses, BlockKills;
    var g := SharingAltered();
    TwoRanked(g[0].stmts, TEST_PORT, g[1].stmts, TEST_PORT);
    SharingUses();
    LeafUses();
    assert LiveIn(g, TWO_RANK, 2) == {} && LiveIn(g, TWO_RANK, 3) == {};
    assert LiveIn(g, TWO_RANK, 1) == {X_ATOM};
  }

  /** A block without constants to move, and whose branch takes over nothing. */
  lemma NothingMoved(blk: Block, want: set<nat>, constX: bool)
    requires (forall k :: 0 <= k < |blk.stmts| ==> !blk.stmts[k].LdImm?) && !Arith(LastSeen(blk.stmts))
    ensures PeepSpares(blk, {}, want, constX)
  {
    hide LastSeen;
  }

  /** Every block keeps what the finished blocks after it use. */
  lemma SharingSpared(inEdges: seq<seq<nat>>, outUse: seq<set<nat>>, t: seq<Expr>, g1: Graph, gm: Graph, g': Graph, vals: seq<Vals>, oval: seq<nat>)
    requires Passed(Sharing(), TWO_RANK, 0, inEdges, outUse, true, t, g1, gm, g', vals, oval)
    ensures Spared(Sharing(), TWO_RANK, inEdges, outUse, true, t, g1, gm, g', vals, {0, 1, 2, 3})
  {
    hide Passed, LiveIn, LiveOut, BlockUses, EntryVals, PeepSpares, IsConst, DeadStores.DeadRemoved, LastSeen, Arith, Reach;
    SharingMade(inEdges, outUse, t, g1, gm, g', vals, oval);
    SharingOut(inEdges, outUse, t, g1, gm, g', vals, oval);
    PassedShape(Sharing(), TWO_RANK, 0, inEdges, outUse, true, t, g1, gm, g', vals, oval);
    hide Ranked;
    TwoEntries(Sharing()[0].stmts, TEST_PORT, Sharing()[1].stmts, TEST_PORT, inEdges, vals);
    SharingLive();
    SharingDead();
    SharingLast();
    NothingMoved(g1[0], {X_ATOM}, IsConst(t, vals[0][X_ATOM]));
    NothingMoved(g1[1], {}, IsConst(t, vals[1][X_ATOM]));
    assert SparedAt(Sharing(), TWO_RANK, inEdges, outUse, true, t, g1, gm, g', vals, 0) by { hide DeadStores.KeepsLast; }
    assert SparedAt(Sharing(), TWO_RANK, inEdges, outUse, true, t, g1, gm, g', vals, 1);
  }

  lemma SharingOut(inEdges: seq<seq<nat>>, outUse: seq<set<nat>>, t: seq<Expr>, g1: Graph, gm: Graph, g': Graph, vals: seq<Vals>, oval: seq<nat>)
    requires Passed(Sharing(), TWO_RANK, 0, inEdges, outUse, true, t, g1, gm, g', vals, oval)
    ensures |outUse| == 4 && outUse[0] == outUse[1] == {}
  {
    hide BlockUses, LiveOut;
    SharingUses();
    TwoRanked(Sharing()[0].stmts, TEST_PORT, Sharing()[1].stmts, TEST_PORT);
    TwoLive(Sharing()[0].stmts, TEST_PORT, Sharing()[1].stmts, TEST_PORT);
    hide Reach, Ranked;
  }

  /** No packet is misjudged. */
  lemma SharingJudged(inEdges: seq<seq<nat>>, outUse: seq<set<nat>>, g1: Graph, vals: seq<Vals>, p: Packet, r: Regs)
    requires Ranked(Sharing(), TWO_RANK) && |inEdges| == |outUse| == |g1| == |vals| == 4 && forall c :: 0 <= c < 4 ==> InRange(Sharing(), inEdges[c])
    requires g1[0] == Sharing()[0] && g1[1] == SharingAltered()[1]
    ensures WellJudged(Sharing(), TWO_RANK, inEdges, outUse, true, g1, vals, 0, p, r)
  {
    hide LastSeen, Run, Cleared, EntryVals, Compare;
    SharingLast();
    assert forall out, q :: !Misjudged(g1[0], out, p, q) && !Misjudged(g1[1], out, p, q);
    hide Misjudged;
    var g := Sharing();
    var r1 := RunAll(g[0].stmts, p, r);
    var r2 := RunAll(g[1].stmts, p, r1);
    assert WellJudged(g, TWO_RANK, inEdges, outUse, true, g1, vals, 2, p, r1);
    assert WellJudged(g, TWO_RANK, inEdges, outUse, true, g1, vals, 2, p, r2) && WellJudged(g, TWO_RANK, inEdges, outUse, true, g1, vals, 3, p, r2);
    assert WellJudged(g, TWO_RANK, inEdges, outUse, true, g1, vals, 1, p, r1);
  }

  /** Though the blocks do not keep to themselves, no packet's result changes. */
  method RewriteSharing(hash: Expr -> nat) returns (g': Graph)
    ensures g' == SharingAltered() && Ranked(Sharing(), TWO_RANK) && Ranked(g', TWO_RANK) && !Separate(Sharing(), TWO_RANK, 0)
    ensures forall p, r :: Walk(g', TWO_RANK, 0, p, r) == Walk(Sharing(), TWO_RANK, 0, p, r)
  {
    hide Passed, AllAccepted, AllKnown, Spared, Separate, Walk, Ranked, Reach, Sized, WellJudged, Trail, ShapeKept, Entered;
    ghost var g := Sharing();
    TwoRanked(g[0].stmts, TEST_PORT, g[1].stmts, TEST_PORT);
    SharingAccepted();
    SharingMixed();
    var ok;
    ghost var inEdges, outUse, t, g1, gm, vals, oval;
    g', ok, inEdges, outUse, t, g1, gm, vals, oval := Pass.RewriteOf(Sharing(), 0, hash, TWO_RANK);
    SharingMade(inEdges, outUse, t, g1, gm, g', vals, oval);
    SharingSpared(inEdges, outUse, t, g1, gm, g', vals, oval);
    PassedShape(g, TWO_RANK, 0, inEdges, outUse, true, t, g1, gm, g', vals, oval);
    PassedLengths(g, inEdges, outUse, g1, gm, g', vals);
    SharingKnown(inEdges, vals);
    SharingOut(inEdges, outUse, t, g1, gm, g', vals, oval);
    forall p, r ensures Walk(g', TWO_RANK, 0, p, r) == Walk(g, TWO_RANK, 0, p, r) {
      SharingJudged(inEdges, outUse, g1, vals, p, r);
    }
  }

  lemma SharingAccepted()
    ensures AllAccepted(Sharing(), {0, 1, 2, 3}, true)
  {
  }

  lemma SharingKnown(inEdges: seq<seq<nat>>, vals: seq<Vals>)
    requires Entered(Sharing(), TWO_RANK, 0, inEdges) && |vals| == 4
    ensures AllKnown(Sharing(), inEdges, vals, {0, 1, 2, 3})
  {
    hide Reach, Ranked, BlockUses, Entered, AllKnown;
    TwoRanked(Sharing()[0].stmts, TEST_PORT, Sharing()[1].stmts, TEST_PORT);
    SharingUses();
    LeafUses();
    LocalKnown(Sharing(), TWO_RANK, 0, inEdges, vals);
  }

  lemma LeafUses()
    ensures BlockUses(Leaf(2)) == {} && BlockUses(Leaf(3)) == {}
  {
  }

  lemma SharingMixed()
    ensures Ranked(Sharing(), TWO_RANK) && !Separate(Sharing(), TWO_RANK, 0)
  {
    hide Reach, LiveOut, BlockUses, OperandsKnown, PlainEnd, IndexSpent, Discerns, Ranked;
    var g := Sharing();
    TwoRanked(g[0].stmts, TEST_PORT, g[1].stmts, TEST_PORT);
    SharingUses();
    TwoLive(g[0].stmts, TEST_PORT, g[1].stmts, TEST_PORT);
    assert AtomDef(g[0].stmts[0]) == X_ATOM && AtomDef(g[1].stmts[0]) == X_ATOM;
    assert Defines(g[0].stmts, X_ATOM) && Touches(g[1], X_ATOM);
    assert !Apart(g, TWO_RANK, 0);
  }
}
