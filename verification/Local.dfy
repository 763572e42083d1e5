/**
 Block-local graphs: every block defines what it uses, so which way it branches depends on the
 packet alone. This is the setting in which the optimizer moves branches.
 */
module Local {
  import opened Machine
  import opened Flow
  import opened Liveness
  import opened Values
  import opened StmtPass
  import opened BlockPass
  import opened ValuePass
  import opened Peephole
  import Dominance
  import PeepRules

  /** A state to enter a block in. */
  ghost function Start(): Regs {
    seq(18, i => ZERO)
  }

  /** The state in which a block branches. */
  ghost function Exit(blk: Block, p: Packet): Regs {
    RunAll(blk.stmts, p, Start())
  }

  /** Which way a block branches on a packet. */
  ghost predicate Decide(blk: Block, p: Packet)
    requires blk.s.Jmp?
  {
    Taken(blk.s, Exit(blk, p))
  }

  /** The successor a packet takes. */
  ghost function NextOf(blk: Block, p: Packet): int
    requires blk.s.Jmp?
  {
    if Decide(blk, p) then blk.jt else blk.jf
  }

  /** A block that defines what it uses leaves in all it defines what does not depend on the state it is
      entered in, and so branches the same way from every state. */
  lemma LocalExit(blk: Block, p: Packet, r: Regs)
    requires BlockUses(blk) == {}
    ensures Agree(RunAll(blk.stmts, p, r), Exit(blk, p), BlockDefs(blk)) && BranchUses(blk.s) <= BlockDefs(blk)
    ensures blk.s.Jmp? ==> A_ATOM in BlockDefs(blk) && Taken(blk.s, RunAll(blk.stmts, p, r)) == Decide(blk, p)
  {
    RunAgrees(blk.stmts, |blk.stmts|, p, r, Start(), {});
    assert {} + Defs(blk.stmts, |blk.stmts|) == BlockDefs(blk);
    assert BranchUses(blk.s) <= BlockDefs(blk);
    if blk.s.Jmp? {
      assert A_ATOM in BranchUses(blk.s);
      BranchUsesSuffice(blk.s, RunAll(blk.stmts, p, r), Exit(blk, p));
    }
  }

  /** The value a packet's route from b ends in. */
  ghost function Route(g: Graph, rank: seq<nat>, b: nat, p: Packet): Word
    requires Ranked(g, rank) && b < |g|
    decreases rank[b]
  {
    if g[b].s.Ret? then g[b].s.k else Route(g, rank, NextOf(g[b], p), p)
  }

  /** The blocks a packet passes from b on. */
  ghost function Visits(g: Graph, rank: seq<nat>, b: nat, p: Packet): (s: set<nat>)
    requires Ranked(g, rank) && b < |g|
    ensures b in s && forall c :: c in s ==> c < |g| && (c == b || rank[c] < rank[b])
    decreases rank[b]
  {
    if g[b].s.Ret? then {b} else {b} + Visits(g, rank, NextOf(g[b], p), p)
  }

  lemma {:induction false} VisitsAnyRank(g: Graph, rank: seq<nat>, rank': seq<nat>, b: nat, p: Packet)
    requires Ranked(g, rank) && Ranked(g, rank') && b < |g|
    ensures Visits(g, rank, b, p) == Visits(g, rank', b, p)
    decreases rank[b]
  {
    if !g[b].s.Ret? { VisitsAnyRank(g, rank, rank', NextOf(g[b], p), p); }
  }

  /** Of two blocks a packet passes, the lower one comes after the other. */
  lemma {:induction false} VisitsChain(g: Graph, rank: seq<nat>, root: nat, b: nat, c: nat, p: Packet)
    requires Ranked(g, rank) && root < |g| && b in Visits(g, rank, root, p) && c in Visits(g, rank, root, p) && rank[c] < rank[b]
    ensures c in Visits(g, rank, b, p)
    decreases rank[root]
  {
    if b != root { VisitsChain(g, rank, NextOf(g[root], p), b, c, p); }
  }

  /** Where a packet goes on from a block it passes, it passes too. */
  lemma {:induction false} VisitsOn(g: Graph, rank: seq<nat>, root: nat, b: nat, p: Packet)
    requires Ranked(g, rank) && root < |g| && b in Visits(g, rank, root, p)
    ensures Visits(g, rank, b, p) <= Visits(g, rank, root, p)
    ensures g[b].s.Jmp? ==> NextOf(g[b], p) in Visits(g, rank, root, p)
    decreases rank[root]
  {
    if b != root { VisitsOn(g, rank, NextOf(g[root], p), b, p); }
    if g[b].s.Jmp? { RankedAt(g, rank, b); }
  }

  /** A packet passes only blocks that control can reach. */
  lemma {:induction false} VisitsReach(g: Graph, rank: seq<nat>, b: nat, p: Packet)
    requires Ranked(g, rank) && b < |g|
    ensures Visits(g, rank, b, p) <= Reach(g, rank, b)
    decreases rank[b]
  {
    if !g[b].s.Ret? { VisitsReach(g, rank, NextOf(g[b], p), p); }
  }

  /** Live blocks lead to live blocks. */
  ghost predicate Closed(g: Graph, live: set<nat>)
    requires WellFormed(g)
  {
    forall b :: b in live && b < |g| && g[b].s.Jmp? ==> g[b].jt in live && g[b].jf in live
  }

  /** Where every block defines what it uses, the result is the end of the packet's route. */
  lemma {:induction false} WalkIsRoute(g: Graph, rank: seq<nat>, live: set<nat>, b: nat, p: Packet, r: Regs)
    requires Ranked(g, rank) && b < |g| && b in live && Closed(g, live) && BlockLocal(g, live)
    ensures Walk(g, rank, b, p, r) == Route(g, rank, b, p)
    decreases rank[b]
  {
    if !g[b].s.Ret? {
      assert BlockUses(g[b]) == {};
      LocalExit(g[b], p, r);
      WalkIsRoute(g, rank, live, NextOf(g[b], p), p, RunAll(g[b].stmts, p, r));
    }
  }

  lemma {:induction false} RouteAnyRank(g: Graph, rank: seq<nat>, rank': seq<nat>, b: nat, p: Packet)
    requires Ranked(g, rank) && Ranked(g, rank') && b < |g|
    ensures Route(g, rank, b, p) == Route(g, rank', b, p)
    decreases rank[b]
  {
    if !g[b].s.Ret? { RouteAnyRank(g, rank, rank', NextOf(g[b], p), p); }
  }

  /** g' has the blocks of g, with edges of its own. */
  ghost predicate SameBlocks(g: Graph, g': Graph) {
    && |g'| == |g|
    && forall b :: 0 <= b < |g| ==> g'[b].s == g[b].s && g'[b].stmts == g[b].stmts
  }

  lemma SameBlocksLocal(g: Graph, g': Graph, live: set<nat>)
    requires SameBlocks(g, g') && BlockLocal(g, live)
    ensures BlockLocal(g', live)
  {
    forall b | b in live && b < |g'| ensures BlockUses(g'[b]) == {} {
      assert BlockUses(g[b]) == {};
    }
  }

  /** What control can reach leads to what control can reach. */
  lemma ReachClosed(g: Graph, rank: seq<nat>, root: nat)
    requires Ranked(g, rank) && root < |g|
    ensures Closed(g, Reach(g, rank, root))
  {
    forall b | b in Reach(g, rank, root) && b < |g| && g[b].s.Jmp?
      ensures g[b].jt in Reach(g, rank, root) && g[b].jf in Reach(g, rank, root)
    {
      RankedAt(g, rank, b);
      ReachTransitive(g, rank, root, b);
      assert g[b].jt in Reach(g, rank, b) && g[b].jf in Reach(g, rank, b);
    }
  }

  // ---------------------------------------------------------------------------------------
  // What value numbers say about how a finished block branches
  // ---------------------------------------------------------------------------------------

  /** The numbers recorded for a block tell how it branches on a packet: as if it compared what aval denotes, plus
      shift, with what oval denotes. */
  ghost predicate ExactFor(blk: Block, t: seq<Expr>, aval: nat, oval: nat, shift: Word, p: Packet)
    requires Table(t) && blk.s.Jmp?
  {
    && 0 < aval <= |t| && 0 < oval <= |t|
    && (blk.s.src == SrcK ==> IsEntry(t, oval, Imm(blk.s.k)))
    && Decide(blk, p) == Compare(blk.s.cmp, Alu(Add, Den(t, aval, p), shift), Den(t, oval, p))
  }

  /** What the branch of a block takes over from the block's last statement, for a packet. */
  ghost function Shift(blk: Block, constX: bool, p: Packet): Word {
    Subtrahend(blk.s, LastSeen(blk.stmts), {}, constX, Exit(blk, p))
  }

  /** A packet that the block lets pass although it tests all bits of a zero. */
  ghost predicate MisjudgedFor(blk: Block, p: Packet) {
    Misjudged(blk, {}, p, Start())
  }

  /** How a finished block branches on a packet, against the block it was made of. */
  ghost predicate FinishedAs(blk: Block, blk': Block, t: seq<Expr>, aval: nat, oval: nat, constX: bool, p: Packet)
    requires Table(t) && blk.s.Jmp?
  {
    && blk'.s.Jmp? && blk'.s.cmp == (if Swaps(blk, {}) then Jset else blk.s.cmp)
    && ExactFor(blk', t, aval, oval, Shift(blk, constX, p), p)
    && Decide(blk', p) == (Decide(blk, p) != Swaps(blk, {})) && Exit(blk, p)[A_ATOM] == Den(t, aval, p)
    && (!MisjudgedFor(blk, p) ==> NextOf(blk', p) == NextOf(blk, p))
  }

  /** A block whose last statement is an operation with X has defined X. */
  lemma LastDefines(blk: Block)
    requires BlockUses(blk) == {} && LastSeen(blk.stmts).AluX?
    ensures X_ATOM in BlockDefs(blk)
  {
    var u := blk.stmts;
    ContainedUses(blk);
    if l :| 0 <= l < |u| && Seen(u, l) {
      LastSeenIs(u, l);
      PeepRules.ScopedAt(u, l);
      ArithUses(u[l]);
      PeepRules.DefsGrow(u, l, |u|);
    }
  }

  /** What a branch compares does not depend on the state the block is entered in. */
  lemma LocalShift(blk: Block, constX: bool, p: Packet, r: Regs)
    requires BlockUses(blk) == {}
    ensures Subtrahend(blk.s, LastSeen(blk.stmts), {}, constX, RunAll(blk.stmts, p, r)) == Shift(blk, constX, p)
  {
    if LastSeen(blk.stmts).AluX? {
      LastDefines(blk);
      LocalExit(blk, p, r);
      hide LastSeen, TakesOver, BlockUses, BlockDefs, Run;
    } else {
      hide LastSeen, TakesOver, BlockUses, BlockDefs, Run;
    }
  }

  /** The same of whether it is misjudged. */
  lemma LocalMisjudged(blk: Block, p: Packet, r: Regs)
    requires BlockUses(blk) == {}
    ensures Misjudged(blk, {}, p, r) <==> MisjudgedFor(blk, p)
  {
    LocalExit(blk, p, r);
    hide MasksAll, BlockUses, BlockDefs;
  }

  /** The numbers denote what the branch of the finished block compares. */
  lemma OperandsDenoted(t: seq<Expr>, blk: Block, s': Branch, exit: Vals, oval: nat, out: set<nat>, constX: bool, p: Packet, r1: Regs, r2: Regs)
    requires Table(t) && InTable(t, exit) && Consistent(t, exit, p, r1) && BlockUses(blk) == {} && blk.s.Jmp? && s'.Jmp?
    requires BlockDefs(blk) <= KnownRegs(exit) && OperandNumber(t, s', exit, oval)
    requires Decides(blk.s, LastSeen(blk.stmts), s', out, constX, r1, r2)
    ensures 0 < exit[A_ATOM] <= |t| && r1[A_ATOM] == Den(t, exit[A_ATOM], p)
    ensures 0 < oval <= |t| && Operand(s', r1) == Den(t, oval, p)
  {
    LocalExit(blk, p, Start());
    assert A_ATOM in KnownRegs(exit);
    if s'.src == SrcX {
      if blk.s.src == SrcX { assert X_ATOM in BranchUses(blk.s); } else { LastDefines(blk); }
      assert X_ATOM in KnownRegs(exit);
    }
    hide Decides, BlockUses, BlockDefs, LastSeen;
  }

  /** How a rewritten block branches, from one state that the numbers describe. */
  lemma RewrittenAs(t: seq<Expr>, blk: Block, blk': Block, exit: Vals, oval: nat, constX: bool, p: Packet, r: Regs)
    requires Table(t) && InTable(t, exit) && Consistent(t, exit, p, RunAll(blk.stmts, p, r)) && blk.s.Jmp?
    requires BlockUses(blk) == {} && BlockUses(blk') == {} && BlockDefs(blk) <= KnownRegs(exit)
    requires Rewritten(blk, blk', {}, {}, constX, p, r) && OperandNumber(t, blk'.s, exit, oval)
    ensures FinishedAs(blk, blk', t, exit[A_ATOM], oval, constX, p)
  {
    var r1, r2 := RunAll(blk.stmts, p, r), RunAll(blk'.stmts, p, r);
    hide BlockUses, BlockDefs, LastSeen, Consistent, Table, InTable, KnownRegs, OperandNumber, Run, TakesMask, Subtrahend, Compare, Alu, Den,
      Misjudged;
    LocalExit(blk, p, r);
    LocalExit(blk', p, r);
    LocalShift(blk, constX, p, r);
    LocalMisjudged(blk, p, r);
    OperandsDenoted(t, blk, blk'.s, exit, oval, {}, constX, p, r1, r2);
    if blk'.s.src == SrcK { NumberOfConst(t, blk'.s, exit, oval); }
    hide Shift, MisjudgedFor, Agree;
  }

  lemma NumberOfConst(t: seq<Expr>, s: Branch, exit: Vals, oval: nat)
    requires OperandNumber(t, s, exit, oval) && s.Jmp? && s.src == SrcK
    ensures IsEntry(t, oval, Imm(s.k))
  {
  }

  /** Finishing a block that defines what it uses leaves one that does. */
  lemma FinishedLocal(g: Graph, rank: seq<nat>, root: nat, inEdges: seq<seq<nat>>, outUse: seq<set<nat>>, t: seq<Expr>,
                      g1: Graph, gm: Graph, g': Graph, vals: seq<Vals>, oval: seq<nat>, b: nat)
    requires AllTreated(g, rank, root, inEdges, outUse, false, t, g1, gm, g', vals, oval) && b in Reach(g, rank, root)
    requires BlockUses(g[b]) == {}
    ensures |g'| == |g| && BlockUses(g'[b]) == {}
  {
    TreatedAt(g, rank, root, inEdges, outUse, false, t, g1, gm, g', vals, oval, b);
    ContainedUses(g[b]);
    ContainedUses(g'[b]);
    hide AllTreated, Contained, BlockUses;
  }

  /** All that a block defines is known when it branches. */
  lemma DefinesKnown(blk: Block, entry: Vals, exit: Vals)
    requires BlockUses(blk) == {} && KnownRegs(exit) == KnownAfter(blk.stmts, |blk.stmts|, KnownRegs(entry))
    ensures BlockDefs(blk) <= KnownRegs(exit)
  {
    ExposedSuffice(blk.stmts, KnownRegs(entry));
  }

  /** What the numbers say about a finished block, in one state that the entry numbers describe. */
  lemma DoneExact(t: seq<Expr>, blk: Block, entry: Vals, numbered: Block, mid: Block, blk': Block, exit: Vals, oval: nat, p: Packet, r: Regs)
    requires BlockDone(t, blk, entry, {}, false, t, numbered, mid, blk', exit) && OperandNumber(t, blk'.s, exit, oval)
    requires BlockUses(blk) == {} && BlockUses(blk') == {} && blk.s.Jmp? && KeepsIndex(blk, {})
    requires OperandsKnown(blk.stmts, KnownRegs(entry)) && Consistent(t, entry, p, r)
    ensures FinishedAs(blk, blk', t, exit[A_ATOM], oval, IsConst(t, exit[X_ATOM]), p)
  {
    hide BlockUses, KeepsIndex, Spares, OperandsKnown, Consistent, KnownRegs, KnownAfter, Table, InTable, Rewritten, FinishedAs, OperandNumber,
      IsConst, BlockDefs, Run, Traced, Shrunk, Described, Cleared;
    assert numbered == blk && FinishedRight(t, blk, mid, blk', entry, exit, {}, false);
    assert KnownRegs(exit) == KnownAfter(blk.stmts, |blk.stmts|, KnownRegs(entry));
    NotCleared(blk, {}, entry, exit);
    SparesLive(blk, mid, entry, exit, {}, false, IsConst(t, exit[X_ATOM]));
    DoneAgrees(t, blk, entry, {}, false, t, numbered, mid, blk', exit, {}, p, r);
    assert Rewritten(blk, blk', {}, {}, IsConst(t, exit[X_ATOM]), p, r);
    DescribedExit(t, blk, entry, exit, p, r);
    hide BlockDone;
    DefinesKnown(blk, entry, exit);
    RewrittenAs(t, blk, blk', exit, oval, IsConst(t, exit[X_ATOM]), p, r);
  }

  lemma DescribedExit(t: seq<Expr>, blk: Block, entry: Vals, exit: Vals, p: Packet, r: Regs)
    requires Table(t) && InTable(t, entry) && InTable(t, exit) && Described(t, blk, entry, exit, p, r)
    ensures Consistent(t, exit, p, RunAll(blk.stmts, p, r))
  {
  }

  /** On a graph whose blocks define what they use, the recorded numbers tell how every finished block branches. */
  lemma NumberingIsExact(g: Graph, rank: seq<nat>, root: nat, inEdges: seq<seq<nat>>, outUse: seq<set<nat>>, t: seq<Expr>,
                         g1: Graph, gm: Graph, g': Graph, vals: seq<Vals>, oval: seq<nat>, b: nat, p: Packet)
    requires AllTreated(g, rank, root, inEdges, outUse, false, t, g1, gm, g', vals, oval) && b in Reach(g, rank, root)
    requires BlockUses(g[b]) == {} && g[b].s.Jmp? && KeepsIndex(g[b], {}) && b < |outUse| && outUse[b] == {}
    ensures |g'| == |vals| == |oval| == |g| && Table(t)
    ensures FinishedAs(g[b], g'[b], t, vals[b][A_ATOM], oval[b], IsConst(t, vals[b][X_ATOM]), p)
  {
    TreatedEntered(g, rank, root, inEdges, outUse, false, t, g1, gm, g', vals, oval);
    TreatedAt(g, rank, root, inEdges, outUse, false, t, g1, gm, g', vals, oval, b);
    FinishedLocal(g, rank, root, inEdges, outUse, t, g1, gm, g', vals, oval, b);
    hide AllTreated, Entered, BlockUses, KeepsIndex, BlockDone, OperandNumber, FinishedAs, OperandsKnown, Consistent, KnownRegs, EntryVals,
      Table, InTable, Reach, PathFromTo, RunPath;
    var path := Dominance.ReachHasPath(g, rank, root, b);
    PathDescribed(g, rank, root, inEdges, outUse, false, t, g1, gm, g', vals, oval, path, b, p, Start());
    PathTables(g, rank, root, inEdges, outUse, false, t, g1, gm, g', vals, oval, path, b);
    DoneExact(t, g[b], EntryVals(g, vals, inEdges[b]), g1[b], gm[b], g'[b], vals[b], oval[b], p, RunPath(g, path[..|path| - 1], p, Start()));
  }
}
