/**
 The pass that rewrites every block, judged by the graph alone: when it keeps every packet's result.
 */
module Altering {
  import opened Machine
  import opened Flow
  import opened Liveness
  import opened Values
  import opened PeepRules
  import opened Peephole
  import opened StmtPass
  import opened BlockPass
  import opened Trails
  import opened ValuePass
  import Dominance
  import DeadStores

  // ---------------------------------------------------------------------------------------
  // Conditions on one block
  // ---------------------------------------------------------------------------------------

  /** A statement that an equality test with k could take over, as it is or with a constant for X. */
  predicate Absorbable(s: Stmt, k: Word) {
    match s
    case AluX(op) => op == Sub || (op == And && k == ZERO)
    case AluK(op, _) => op == Sub || (op == And && k == ZERO)
    case _ => false
  }

  /** The branch can take over no statement of the block. */
  ghost predicate PlainEnd(blk: Block) {
    blk.s.Jmp? && blk.s.cmp == Jeq && blk.s.src == SrcK ==> forall k :: 0 <= k < |blk.stmts| ==> !Absorbable(blk.stmts[k], blk.s.k)
  }

  /** Statements that could lend an indexed load a constant. */
  ghost predicate Lends(stmts: seq<Stmt>, add: nat, tax: nat, ild: nat) {
    add < tax < ild < |stmts| && stmts[add] == AluX(Add) && stmts[tax] == Tax && stmts[ild].LdInd?
  }

  /** After such statements, the block does not use X. */
  ghost predicate IndexSpent(blk: Block) {
    forall add: nat, tax: nat, ild: nat :: Lends(blk.stmts, add, tax, ild) ==>
      X_ATOM !in BranchUses(blk.s) && forall k :: ild < k < |blk.stmts| ==> X_ATOM !in Uses(blk.stmts[k])
  }

  /** The branch is no test of all bits between two successors. */
  predicate Discerns(blk: Block) {
    blk.s == Jmp(Jset, SrcK, ONES) ==> blk.jt == blk.jf
  }

  /** What the numbered block has in common with the block. */
  ghost predicate Derived(blk: Block, numbered: Block) {
    && SameShape(blk, numbered) && Narrower(blk.stmts, numbered.stmts)
    && forall k :: 0 <= k < |blk.stmts| ==> Simplified(blk.stmts[k], numbered.stmts[k])
  }

  lemma DerivedFrom(t: seq<Expr>, blk: Block, entry: Vals, out: set<nat>, alter: bool, t': seq<Expr>, numbered: Block, mid: Block, blk': Block,
                    exit: Vals)
    requires BlockDone(t, blk, entry, out, alter, t', numbered, mid, blk', exit)
    ensures Derived(blk, numbered) && Thinner(blk, blk') && Shrunk(t', numbered, mid, blk', entry, exit, out, alter)
  {
    hide Traced, Simplified, FinishedRight, NumberedRight, Shrunk, Table, InTable, Narrower, Contained;
    TracedNarrower(t', entry, blk.stmts, alter, numbered.stmts, exit);
    ThinnerStmts(blk, numbered.stmts);
    assert Shrunk(t', numbered, mid, blk', entry, exit, out, alter);
    assert blk.(stmts := numbered.stmts) == numbered;
    hide BlockDone;
    ShrunkThinner(t', numbered, mid, blk', entry, exit, out, alter);
    hide Thinner;
    ThinnerTrans(blk, numbered, blk');
  }

  lemma ShrunkThinner(t: seq<Expr>, blk: Block, mid: Block, blk': Block, entry: Vals, exit: Vals, out: set<nat>, alter: bool)
    requires Shrunk(t, blk, mid, blk', entry, exit, out, alter)
    ensures Thinner(blk, blk')
  {
  }

  /** Nothing of the numbered block is taken over. */
  lemma NothingTaken(blk: Block, numbered: Block, out: set<nat>, constX: bool)
    requires Derived(blk, numbered) && PlainEnd(blk)
    ensures !TakesOver(numbered.s, LastSeen(numbered.stmts), out, constX)
  {
    if l :| 0 <= l < |numbered.stmts| && Seen(numbered.stmts, l) {
      LastSeenIs(numbered.stmts, l);
      hide LastSeen, Seen, Narrower;
      assert Simplified(blk.stmts[l], numbered.stmts[l]);
    } else {
      assert LastSeen(numbered.stmts) == Nop;
    }
  }

  /** So the block is never misjudged. */
  lemma NeverAstray(blk: Block, numbered: Block, out: set<nat>, p: Packet, r: Regs)
    requires Derived(blk, numbered) && PlainEnd(blk) && Discerns(blk)
    ensures !Misjudged(numbered, out, p, r)
  {
    hide Run, LastSeen, TakesOver, Derived;
    NothingTaken(blk, numbered, out, false);
    assert numbered.s == blk.s && numbered.jt == blk.jt && numbered.jf == blk.jf by { DerivedShape(blk, numbered); }
  }

  lemma DerivedShape(blk: Block, numbered: Block)
    requires Derived(blk, numbered)
    ensures numbered.s == blk.s && numbered.jt == blk.jt && numbered.jf == blk.jf && |numbered.stmts| == |blk.stmts|
  {
  }

  /** No X that is wanted is lost after an indexed load. */
  lemma IndexSafe(blk: Block, numbered: Block, out: set<nat>, want: set<nat>)
    requires Derived(blk, numbered) && IndexSpent(blk)
    requires X_ATOM in want && Defines(blk.stmts, X_ATOM) ==> X_ATOM in out
    ensures Safe(numbered.stmts, numbered.s, out, want, 0)
  {
    if X_ATOM !in out {
      var u, exit := numbered.stmts, Exits(numbered.s, want);
      forall i: nat, next: nat, add: nat, tax: nat, ild: nat | Indexing(u, i, next, add, tax, ild) ensures Harmless(u, exit, i, ild) {
        IndexingParts(u, i, next, add, tax, ild);
        LendsBefore(blk, numbered, add, tax, ild);
        assert Lends(blk.stmts, add, tax, ild);
        assert AtomDef(blk.stmts[tax]) == X_ATOM;
        assert X_ATOM !in exit;
        hide Indexing;
        NoLateUse(u, ild + 1, |u|);
      }
    }
  }

  lemma LendsBefore(blk: Block, numbered: Block, add: nat, tax: nat, ild: nat)
    requires Derived(blk, numbered) && IndexSpent(blk)
    requires Lends(numbered.stmts, add, tax, ild)
    ensures Lends(blk.stmts, add, tax, ild) && X_ATOM !in BranchUses(numbered.s)
    ensures forall k :: ild < k < |numbered.stmts| ==> X_ATOM !in Uses(numbered.stmts[k])
  {
    var u, v := blk.stmts, numbered.stmts;
    assert Simplified(u[add], v[add]) && Simplified(u[tax], v[tax]) && Simplified(u[ild], v[ild]);
    assert Lends(u, add, tax, ild);
    forall k | ild < k < |v| ensures X_ATOM !in Uses(v[k]) {
      assert Simplified(u[k], v[k]) && X_ATOM !in Uses(u[k]);
      hide IndexSpent, Derived;
      SimplifiedUses(u[k], v[k]);
    }
  }

  lemma {:induction false} NoLateUse(u: seq<Stmt>, i: nat, n: nat)
    requires n <= |u| && forall k :: i <= k < n ==> X_ATOM !in Uses(u[k])
    ensures DeadStores.FateOf(u, i, n, X_ATOM) != DeadStores.Used
  {
    if i < n { NoLateUse(u, i, n - 1); }
  }

  /** The block keeps the registers of want, if it defines none of them but A that is not known to be live. */
  lemma PlainSpares(t: seq<Expr>, blk: Block, numbered: Block, mid: Block, blk': Block, entry: Vals, exit: Vals, out: set<nat>, alter: bool,
                    constX: bool, want: set<nat>)
    requires Derived(blk, numbered) && Shrunk(t, numbered, mid, blk', entry, exit, out, alter) && blk.s.Jmp? && blk'.s.Jmp?
    requires PlainEnd(blk) && IndexSpent(blk)
    requires forall a :: a in want && Defines(blk.stmts, a) ==> a == A_ATOM || a in out
    ensures Spares(numbered, mid, entry, exit, out, alter, constX, want)
  {
    DerivedShape(blk, numbered);
    forall a | Defines(numbered.stmts, a) ensures Defines(blk.stmts, a) { assert Narrower(blk.stmts, numbered.stmts); }
    if Cleared(numbered, out, entry, exit, alter) {
      assert out == {};
    } else {
      NothingTaken(blk, numbered, out, constX);
      IndexSafe(blk, numbered, out, want);
      hide Derived, PlainEnd, IndexSpent, Safe, TakesOver, LastSeen, DeadStores.FateOf;
      forall i | 0 <= i < |mid.stmts| && mid.stmts[i] != Nop && Target(mid.stmts[i]) in want
        ensures Target(mid.stmts[i]) in out + BranchUses(mid.s)
      {
        assert AtomDef(mid.stmts[i]) == Target(mid.stmts[i]) && Defines(mid.stmts, Target(mid.stmts[i]));
        assert Defines(numbered.stmts, Target(mid.stmts[i]));
        UsesOfBranch(mid.s);
      }
    }
  }

  // ---------------------------------------------------------------------------------------
  // Conditions on the graph
  // ---------------------------------------------------------------------------------------

  /** What block c defines, apart from A, no block after it has to do with, unless it is live out of c. */
  ghost predicate Apart(g: Graph, rank: seq<nat>, c: nat)
    requires Ranked(g, rank) && c < |g|
  {
    forall d, a :: d in Reach(g, rank, c) && d != c && Defines(g[c].stmts, a) && Touches(g[d], a) ==>
      a == A_ATOM || a in LiveOut(g, rank, c)
  }

  /** Block c hands no unknown number to the table, and keeps to itself. */
  ghost predicate KeepsToItself(g: Graph, rank: seq<nat>, c: nat)
    requires Ranked(g, rank) && c < |g|
  {
    && OperandsKnown(g[c].stmts, {})
    && (g[c].s.Jmp? ==> PlainEnd(g[c]) && IndexSpent(g[c]) && Discerns(g[c]) && Apart(g, rank, c))
  }

  /** All blocks that control can reach do so. */
  ghost predicate Separate(g: Graph, rank: seq<nat>, root: nat)
    requires Ranked(g, rank) && root < |g|
  {
    forall c :: c in Reach(g, rank, root) ==> KeepsToItself(g, rank, c)
  }

  lemma SeparateAt(g: Graph, rank: seq<nat>, root: nat, c: nat)
    requires Ranked(g, rank) && root < |g| && Separate(g, rank, root) && c in Reach(g, rank, root)
    ensures KeepsToItself(g, rank, c)
  {
  }

  /** The more is known, the more is known after. */
  lemma {:induction false} KnownMore(stmts: seq<Stmt>, n: nat, known: set<nat>, more: set<nat>)
    requires n <= |stmts| && known <= more
    ensures KnownAfter(stmts, n, known) <= KnownAfter(stmts, n, more)
  {
    if n > 0 { KnownMore(stmts, n - 1, known, more); }
  }

  lemma SeparateKnown(g: Graph, rank: seq<nat>, root: nat, inEdges: seq<seq<nat>>, vals: seq<Vals>)
    requires Entered(g, rank, root, inEdges) && |vals| == |g| && Separate(g, rank, root)
    ensures AllKnown(g, inEdges, vals, Reach(g, rank, root))
  {
    hide KnownAfter, EntryVals, KnownRegs, Separate, Operands, PlainEnd, IndexSpent, Apart, Discerns;
    forall c | c in Reach(g, rank, root) ensures OperandsKnown(g[c].stmts, KnownRegs(EntryVals(g, vals, inEdges[c]))) {
      SeparateAt(g, rank, root, c);
      var stmts, known := g[c].stmts, KnownRegs(EntryVals(g, vals, inEdges[c]));
      forall n | 0 <= n < |stmts| ensures Operands(stmts[n]) <= KnownAfter(stmts, n, known) { KnownMore(stmts, n, {}, known); }
    }
  }

  lemma {:induction false} ExposedTouched(blk: Block, n: nat, a: nat)
    requires n <= |blk.stmts| && a in Exposed(blk.stmts, n)
    ensures Mentions(blk.stmts, a)
  {
    if n > 0 && a in Exposed(blk.stmts, n - 1) { ExposedTouched(blk, n - 1, a); }
  }

  /** What is live on entry to b, some block from there on has to do with. */
  lemma {:induction false} LiveTouched(g: Graph, rank: seq<nat>, b: nat, a: nat) returns (d: nat)
    requires Ranked(g, rank) && b < |g| && a in LiveIn(g, rank, b)
    ensures d in Reach(g, rank, b) && Touches(g[d], a)
    decreases rank[b]
  {
    d := b;
    if a in BlockUses(g[b]) {
      if a in Exposed(g[b].stmts, |g[b].stmts|) { ExposedTouched(g[b], |g[b].stmts|, a); }
    } else {
      hide BlockUses, BlockKills, Touches;
      d := LiveTouched(g, rank, if a in LiveIn(g, rank, g[b].jt) then g[b].jt else g[b].jf, a);
    }
  }

  /** In a graph with fewer edges, less can be reached. */
  lemma {:induction false} ReachKept(g: Graph, g': Graph, rank: seq<nat>, b: nat)
    requires Ranked(g, rank) && Ranked(g', rank) && b < |g| == |g'| && forall c :: 0 <= c < |g| ==> ShapeKept(g[c], g'[c])
    ensures Reach(g', rank, b) <= Reach(g, rank, b)
    decreases rank[b]
  {
    if g'[b].s.Jmp? {
      assert ShapeKept(g[b], g'[b]);
      ReachKept(g, g', rank, g'[b].jt);
      ReachKept(g, g', rank, g'[b].jf);
    }
  }

  /** What is live out of block c in the finished graph, and that c defines, is A or live out of c. */
  lemma LiveApart(g: Graph, g': Graph, rank: seq<nat>, live: set<nat>, c: nat, a: nat)
    requires Ranked(g, rank) && Ranked(g', rank) && c < |g| == |g'| && Reach(g, rank, c) <= live
    requires forall d :: 0 <= d < |g| ==> ShapeKept(g[d], g'[d])
    requires forall d :: d in live && d < |g| ==> Thinner(g[d], g'[d])
    requires Apart(g, rank, c) && a in LiveOut(g', rank, c) && Defines(g[c].stmts, a)
    ensures a == A_ATOM || a in LiveOut(g, rank, c)
  {
    hide ShapeKept, Thinner, Touches, Defines;
    var b := if a in LiveIn(g', rank, g'[c].jt) then g'[c].jt else g'[c].jf;
    RankedAt(g', rank, c);
    var d := LiveTouched(g', rank, b, a);
    ReachKept(g, g', rank, c);
    assert d in Reach(g', rank, c);
    assert Thinner(g[d], g'[d]);
    ThinnerTouches(g[d], g'[d], a);
  }

  lemma ThinnerTouches(blk: Block, blk': Block, a: nat)
    requires Thinner(blk, blk') && Touches(blk', a)
    ensures Touches(blk, a)
  {
  }

  // ---------------------------------------------------------------------------------------
  // What the pass keeps of such a graph
  // ---------------------------------------------------------------------------------------

  /** The pass has treated all blocks, and what it took to be live is what is live. */
  ghost predicate Passed(g: Graph, rank: seq<nat>, root: nat, inEdges: seq<seq<nat>>, outUse: seq<set<nat>>, alter: bool, t: seq<Expr>,
                         g1: Graph, gm: Graph, g': Graph, vals: seq<Vals>, oval: seq<nat>)
  {
    && Entered(g, rank, root, inEdges)
    && PassInv(g, rank, root, inEdges, outUse, alter, t, g1, gm, g', vals, oval, Reach(g, rank, root))
    && forall c :: c in Reach(g, rank, root) ==> outUse[c] == LiveOut(g, rank, c)
  }

  lemma PassedAt(g: Graph, rank: seq<nat>, root: nat, inEdges: seq<seq<nat>>, outUse: seq<set<nat>>, alter: bool, t: seq<Expr>,
                 g1: Graph, gm: Graph, g': Graph, vals: seq<Vals>, oval: seq<nat>, c: nat)
    requires Passed(g, rank, root, inEdges, outUse, alter, t, g1, gm, g', vals, oval) && Ranked(g, rank) && root < |g| && c in Reach(g, rank, root)
    ensures Sized(g, inEdges, outUse, g1, gm, g', vals) && Derived(g[c], g1[c]) && Thinner(g[c], g'[c]) && outUse[c] == LiveOut(g, rank, c)
    ensures Shrunk(t, g1[c], gm[c], g'[c], EntryVals(g, vals, inEdges[c]), vals[c], outUse[c], alter)
  {
    hide BlockDone, EntryVals, Shrunk, Derived, Thinner, OperandNumber, Reach, LiveOut;
    PassInvAt(g, rank, root, inEdges, outUse, alter, t, g1, gm, g', vals, oval, Reach(g, rank, root), c);
    DerivedFrom(t, g[c], EntryVals(g, vals, inEdges[c]), outUse[c], alter, t, g1[c], gm[c], g'[c], vals[c]);
  }

  lemma PassedShape(g: Graph, rank: seq<nat>, root: nat, inEdges: seq<seq<nat>>, outUse: seq<set<nat>>, alter: bool, t: seq<Expr>,
                    g1: Graph, gm: Graph, g': Graph, vals: seq<Vals>, oval: seq<nat>)
    requires Passed(g, rank, root, inEdges, outUse, alter, t, g1, gm, g', vals, oval)
    ensures Entered(g, rank, root, inEdges) && Ranked(g, rank) && root < |g| && Sized(g, inEdges, outUse, g1, gm, g', vals)
    ensures Ranked(g', rank) && forall c :: 0 <= c < |g| ==> ShapeKept(g[c], g'[c])
  {
    assert Sized(g, inEdges, outUse, g1, gm, g', vals);
    TreatedRanked(g, rank, root, inEdges, outUse, alter, t, g1, gm, g', vals, oval);
    hide PassInv, ShapeKept;
    forall c | 0 <= c < |g| ensures ShapeKept(g[c], g'[c]) {
      TreatedShape(g, rank, root, inEdges, outUse, alter, t, g1, gm, g', vals, oval, c);
    }
  }

  /** Every block keeps what is still used after it. */
  lemma SeparateSpared(g: Graph, rank: seq<nat>, root: nat, inEdges: seq<seq<nat>>, outUse: seq<set<nat>>, alter: bool, t: seq<Expr>,
                       g1: Graph, gm: Graph, g': Graph, vals: seq<Vals>, oval: seq<nat>)
    requires Passed(g, rank, root, inEdges, outUse, alter, t, g1, gm, g', vals, oval) && Ranked(g, rank) && root < |g| && Separate(g, rank, root)
    ensures Spared(g, rank, inEdges, outUse, alter, t, g1, gm, g', vals, Reach(g, rank, root))
  {
    hide Passed, Entered, Separate, Sized, Reach, SparedAt;
    PassedShape(g, rank, root, inEdges, outUse, alter, t, g1, gm, g', vals, oval);
    forall c | c in Reach(g, rank, root) ensures SparedAt(g, rank, inEdges, outUse, alter, t, g1, gm, g', vals, c) {
      SeparateSparedAt(g, rank, root, inEdges, outUse, alter, t, g1, gm, g', vals, oval, c);
    }
  }

  lemma SeparateSparedAt(g: Graph, rank: seq<nat>, root: nat, inEdges: seq<seq<nat>>, outUse: seq<set<nat>>, alter: bool, t: seq<Expr>,
                         g1: Graph, gm: Graph, g': Graph, vals: seq<Vals>, oval: seq<nat>, c: nat)
    requires Passed(g, rank, root, inEdges, outUse, alter, t, g1, gm, g', vals, oval) && Ranked(g, rank) && root < |g| && Separate(g, rank, root)
    requires c in Reach(g, rank, root)
    ensures Sized(g, inEdges, outUse, g1, gm, g', vals) && Ranked(g', rank)
    ensures SparedAt(g, rank, inEdges, outUse, alter, t, g1, gm, g', vals, c)
  {
    hide Passed, Entered, Separate, EntryVals, Shrunk, Derived, Thinner, Spares, PlainEnd, IndexSpent, Apart, Defines, OperandsKnown, LiveOut, Reach,
      Discerns, IsConst, ShapeKept, Ranked;
    PassedShape(g, rank, root, inEdges, outUse, alter, t, g1, gm, g', vals, oval);
    PassedAt(g, rank, root, inEdges, outUse, alter, t, g1, gm, g', vals, oval, c);
    SeparateAt(g, rank, root, c);
    if g[c].s.Jmp? {
      ReachTransitive(g, rank, root, c);
      forall d | d in Reach(g, rank, root) && d < |g| ensures Thinner(g[d], g'[d]) {
        PassedAt(g, rank, root, inEdges, outUse, alter, t, g1, gm, g', vals, oval, d);
      }
      var want := LiveOut(g', rank, c);
      forall a | a in want && Defines(g[c].stmts, a) ensures a == A_ATOM || a in outUse[c] {
        LiveApart(g, g', rank, Reach(g, rank, root), c, a);
      }
      KeptJumps(g[c], g'[c]);
      PlainSpares(t, g[c], g1[c], gm[c], g'[c], EntryVals(g, vals, inEdges[c]), vals[c], outUse[c], alter, IsConst(t, vals[c][X_ATOM]), want);
    }
  }

  lemma KeptJumps(blk: Block, blk': Block)
    requires ShapeKept(blk, blk') && blk.s.Jmp?
    ensures blk'.s.Jmp?
  {
  }

  /** No packet comes to a block that goes astray. */
  lemma {:induction false} SeparateJudged(g: Graph, rank: seq<nat>, root: nat, inEdges: seq<seq<nat>>, outUse: seq<set<nat>>, alter: bool,
                                          t: seq<Expr>, g1: Graph, gm: Graph, g': Graph, vals: seq<Vals>, oval: seq<nat>, b: nat, p: Packet, r: Regs)
    requires Passed(g, rank, root, inEdges, outUse, alter, t, g1, gm, g', vals, oval) && Ranked(g, rank) && root < |g| && Separate(g, rank, root)
    requires b in Reach(g, rank, root) && Sized(g, inEdges, outUse, g1, gm, g', vals)
    ensures WellJudged(g, rank, inEdges, outUse, alter, g1, vals, b, p, r)
    decreases rank[b]
  {
    hide Passed, Separate, Derived, Thinner, Shrunk, EntryVals, LiveOut, Misjudged, Cleared, PlainEnd, IndexSpent, Apart, Discerns, OperandsKnown, Run,
      Reach;
    if g[b].s.Jmp? {
      PassedAt(g, rank, root, inEdges, outUse, alter, t, g1, gm, g', vals, oval, b);
      SeparateAt(g, rank, root, b);
      NeverAstray(g[b], g1[b], outUse[b], p, r);
      var r' := RunAll(g[b].stmts, p, r);
      RankedAt(g, rank, b);
      ReachNext(g, rank, root, b, Choose(g[b], r'));
      SeparateJudged(g, rank, root, inEdges, outUse, alter, t, g1, gm, g', vals, oval, Choose(g[b], r'), p, r');
    }
  }

  lemma ReachNext(g: Graph, rank: seq<nat>, root: nat, b: nat, c: nat)
    requires Ranked(g, rank) && root < |g| && b in Reach(g, rank, root) && g[b].s.Jmp? && c in {g[b].jt, g[b].jf}
    ensures c in Reach(g, rank, root)
  {
    ReachTransitive(g, rank, root, b);
    assert c in Reach(g, rank, b);
  }

  /** The pass keeps every packet's result, and the blocks it passes. */
  lemma SeparateKept(g: Graph, rank: seq<nat>, root: nat, inEdges: seq<seq<nat>>, outUse: seq<set<nat>>, alter: bool, t: seq<Expr>,
                     g1: Graph, gm: Graph, g': Graph, vals: seq<Vals>, oval: seq<nat>, p: Packet, r: Regs)
    requires Passed(g, rank, root, inEdges, outUse, alter, t, g1, gm, g', vals, oval) && Ranked(g, rank) && root < |g| && Separate(g, rank, root)
    ensures |g'| == |g| && Ranked(g', rank)
    ensures Trail(g', rank, root, p, r) == Trail(g, rank, root, p, r) && Walk(g', rank, root, p, r) == Walk(g, rank, root, p, r)
  {
    hide Separate, Sized, PassInv, AllKnown, Spared, Trail, Walk, WellJudged, LiveOut;
    PassedShape(g, rank, root, inEdges, outUse, alter, t, g1, gm, g', vals, oval);
    PassedSizes(g, inEdges, outUse, g1, gm, g', vals);
    SeparateKnown(g, rank, root, inEdges, vals);
    SeparateSpared(g, rank, root, inEdges, outUse, alter, t, g1, gm, g', vals, oval);
    SeparateJudged(g, rank, root, inEdges, outUse, alter, t, g1, gm, g', vals, oval, root, p, r);
    FinishedTrail(g, rank, root, inEdges, outUse, alter, t, g1, gm, g', vals, oval, p, r);
  }

  lemma PassedSizes(g: Graph, inEdges: seq<seq<nat>>, outUse: seq<set<nat>>, g1: Graph, gm: Graph, g': Graph, vals: seq<Vals>)
    requires Sized(g, inEdges, outUse, g1, gm, g', vals)
    ensures |g'| == |vals| == |g|
  {
  }
}
