/**
 The treatment of one block: value numbering, then deleting all its statements, or peephole
 rewriting and dead-store removal.
 */
module BlockPass {
  import opened Machine
  import opened Flow
  import opened Liveness
  import opened Rewrite
  import opened Values
  import opened PeepRules
  import opened Peephole
  import opened StmtPass
  import DeadStores

  /** The block returns, or nothing wants what it computes and it leaves A and X as they were. */
  predicate Superfluous(blk: Block, out: set<nat>, entry: Vals, exit: Vals) {
    || blk.s.Ret?
    || (&& out == {}
        && entry[A_ATOM] != VAL_UNKNOWN && exit[A_ATOM] == entry[A_ATOM]
        && entry[X_ATOM] != VAL_UNKNOWN && exit[X_ATOM] == entry[X_ATOM])
  }

  /** The block returns, or defines nothing of want but A and X. */
  ghost predicate ClearSpares(blk: Block, want: set<nat>) {
    blk.s.Ret? || forall a :: a in want && a != A_ATOM && a != X_ATOM ==> !Defines(blk.stmts, a)
  }

  /** The value numbers describe the state on entry and the state the statements leave. */
  ghost predicate Described(t: seq<Expr>, blk: Block, entry: Vals, exit: Vals, p: Packet, r: Regs)
    requires Table(t) && InTable(t, entry) && InTable(t, exit)
  {
    Consistent(t, entry, p, r) && Consistent(t, exit, p, RunAll(blk.stmts, p, r))
  }

  /** A register that no statement defines. */
  lemma {:induction false} RunKeeps(stmts: seq<Stmt>, n: nat, a: nat, p: Packet, r: Regs)
    requires n <= |stmts| && a < N_ATOMS && !Defines(stmts, a)
    ensures Run(stmts, n, p, r)[a] == r[a]
  {
    if n > 0 {
      assert AtomDef(stmts[n - 1]) != a;
      RunKeeps(stmts, n - 1, a, p, r);
    }
  }

  /** Such a block does without its statements, if they define nothing that is wanted but A and X. */
  lemma ClearAgrees(t: seq<Expr>, blk: Block, out: set<nat>, want: set<nat>, entry: Vals, exit: Vals, p: Packet, r: Regs)
    requires Table(t) && InTable(t, entry) && InTable(t, exit) && Superfluous(blk, out, entry, exit)
    requires Described(t, blk, entry, exit, p, r) && ClearSpares(blk, want)
    ensures StepAgrees(blk, blk.(stmts := []), want, p, r)
  {
    if blk.s.Jmp? {
      var r1 := RunAll(blk.stmts, p, r);
      assert r1[A_ATOM] == r[A_ATOM] && r1[X_ATOM] == r[X_ATOM];
      assert Operand(blk.s, r1) == Operand(blk.s, r);
      hide Consistent, Table, Run, Superfluous, Defines;
      forall a | a in want && a < N_ATOMS ensures r1[a] == r[a] {
        if a != A_ATOM && a != X_ATOM { RunKeeps(blk.stmts, |blk.stmts|, a, p, r); }
      }
    }
  }

  // ---------------------------------------------------------------------------------------
  // Removing dead stores from a rewritten block
  // ---------------------------------------------------------------------------------------

  /** A register that is needed keeps its definition. */
  lemma {:induction false} NeededKept(stmts: seq<Stmt>, res: seq<Stmt>, exit: set<nat>, n: nat, a: nat)
    requires DeadStores.DeadRemoved(stmts, res, exit) && n <= |stmts|
    requires DeadStores.Needed(stmts, n, a, exit) && a in Defs(stmts, n)
    ensures a in Defs(res, n)
  {
    if n > 0 {
      var s := stmts[n - 1];
      if AtomDef(s) != a {
        DeadStores.FateCons(stmts, n - 1, |stmts|, a);
        NeededKept(stmts, res, exit, n - 1, a);
      }
    }
  }

  /** Removing dead stores keeps a block to registers it has defined. */
  lemma DeadContained(blk: Block, res: seq<Stmt>, out: set<nat>)
    requires DeadStores.DeadRemoved(blk.stmts, res, out + BranchUses(blk.s)) && Contained(blk)
    ensures Contained(blk.(stmts := res))
  {
    var u, exit := blk.stmts, out + BranchUses(blk.s);
    forall n | 0 <= n < |res| ensures Uses(res[n]) <= Defs(res, n) {
      if res[n] == u[n] {
        forall a | a in Uses(u[n]) ensures a in Defs(res, n) {
          ScopedAt(u, n);
          DeadStores.FateCons(u, n, |u|, a);
          NeededKept(u, res, exit, n, a);
        }
      } else {
        UsesOf(res[n]);
      }
    }
    ScopedAll(res);
    forall a | a in BranchUses(blk.s) ensures a in Defs(res, |res|) {
      NeededKept(u, res, exit, |u|, a);
    }
  }

  /** Removing dead stores afterwards changes nothing about agreement, if it drops nothing that is wanted. */
  lemma RewrittenThrough(a: Block, b: Block, stmts: seq<Stmt>, out: set<nat>, want: set<nat>, constX: bool, p: Packet, r: Regs)
    requires Rewritten(a, b, out, want, constX, p, r) && DeadStores.DeadRemoved(b.stmts, stmts, out + BranchUses(b.s))
    requires DeadStores.KeepsLast(b.stmts, out + BranchUses(b.s), want)
    ensures Rewritten(a, b.(stmts := stmts), out, want, constX, p, r)
  {
    DeadStores.DeadRemovedFor(b.stmts, stmts, out + BranchUses(b.s), want);
    assert out + BranchUses(b.s) + want == (out + want) + BranchUses(b.s);
    DeadStores.DeadRemovedAgrees(b, stmts, out + want, p, r);
    hide DeadStores.DeadRemoved, Misjudged, Taken, TakesMask, Subtrahend, Compare, Alu, BranchUses;
  }

  // ---------------------------------------------------------------------------------------
  // Finishing a block
  // ---------------------------------------------------------------------------------------

  /** The block loses its statements. */
  predicate Cleared(blk: Block, out: set<nat>, entry: Vals, exit: Vals, alter: bool) {
    alter && Superfluous(blk, out, entry, exit)
  }

  /** The treatment keeps the registers of want, though only those of out are known to be live: mid is the numbered
      block blk after peephole rewriting. */
  ghost predicate Spares(blk: Block, mid: Block, entry: Vals, exit: Vals, out: set<nat>, alter: bool, constX: bool, want: set<nat>) {
    if Cleared(blk, out, entry, exit, alter) then ClearSpares(blk, want)
    else PeepSpares(blk, out, want, constX) && DeadStores.KeepsLast(mid.stmts, out + BranchUses(mid.s), want)
  }

  /** What is known to be live is kept. */
  lemma SparesLive(blk: Block, mid: Block, entry: Vals, exit: Vals, out: set<nat>, alter: bool, constX: bool)
    requires KeepsIndex(blk, out)
    ensures Spares(blk, mid, entry, exit, out, alter, constX, out)
  {
    hide PeepSpares, KeepsIndex;
    LiveSpared(blk, out, constX);
  }

  /** How the finished block relates to the numbered one, in every state that the numbers describe: it goes
      where that goes and keeps every set of registers that is spared, exactly unless it is misjudged. */
  ghost predicate FinishedRight(t: seq<Expr>, blk: Block, mid: Block, blk': Block, entry: Vals, exit: Vals, out: set<nat>, alter: bool)
    requires Table(t) && InTable(t, entry) && InTable(t, exit)
  {
    forall want, p, r :: Spares(blk, mid, entry, exit, out, alter, IsConst(t, exit[X_ATOM]), want) && Described(t, blk, entry, exit, p, r) ==>
      if Cleared(blk, out, entry, exit, alter) then StepAgrees(blk, blk', want, p, r)
      else Rewritten(blk, blk', out, want, IsConst(t, exit[X_ATOM]), p, r)
  }

  /** What the finished block is made of. */
  ghost predicate Shrunk(t: seq<Expr>, blk: Block, mid: Block, blk': Block, entry: Vals, exit: Vals, out: set<nat>, alter: bool) {
    && Thinner(blk, blk')
    && if Cleared(blk, out, entry, exit, alter) then blk' == blk.(stmts := [])
       else
         && Thinner(blk, mid) && (Settled(t, blk, exit) ==> mid == blk) && PeepDone(t, blk, mid, exit, out)
         && blk' == mid.(stmts := blk'.stmts) && DeadStores.DeadRemoved(mid.stmts, blk'.stmts, out + BranchUses(mid.s))
  }

  /** Treats a block whose statements have been numbered. mid is the block before dead stores are removed. */
  method FinishBlock(tbl: ValueTable, blk: Block, entry: Vals, exit: Vals, out: set<nat>, alter: bool)
    returns (blk': Block, ok: bool, ghost mid: Block)
    requires tbl.Valid() && Table(tbl.exprs) && InTable(tbl.exprs, entry) && InTable(tbl.exprs, exit)
    requires NoConstAtEnd(tbl.exprs, blk.stmts, exit)
    ensures ok <==> alter || !Aborts(tbl.exprs, blk, exit)
    ensures ok ==> blk'.jt in {blk.jt, blk.jf} && blk'.jf in {blk.jt, blk.jf} && blk'.s.Ret? == blk.s.Ret? && (blk.s.Ret? ==> blk'.s == blk.s)
    ensures ok ==> FinishedRight(tbl.exprs, blk, mid, blk', entry, exit, out, alter)
    ensures ok ==> Shrunk(tbl.exprs, blk, mid, blk', entry, exit, out, alter)
    ensures ok && !Cleared(blk, out, entry, exit, alter) && Contained(blk) ==> Contained(blk')
  {
    hide Superfluous, Contained, RewrittenAll, FinishedRight, DeadStores.DeadRemoved, NoConstAtEnd, BranchUses, IsConst,
      Table, InTable, ValueTable.Valid, Thinner, Settled, Shrunk, PeepDone;
    mid := blk;
    if alter && Superfluous(blk, out, entry, exit) {
      blk', ok := blk.(stmts := []), true;
      ClearedRight(tbl.exprs, blk, mid, entry, exit, out);
      ClearedShrunk(tbl.exprs, blk, mid, entry, exit, out);
    } else {
      ReturnsClear(blk, out, entry, exit);
      var peeped;
      peeped, ok := OptPeep(tbl, blk, exit, out);
      blk' := peeped;
      if !ok { return; }
      mid := peeped;
      var stmts := DeadStores.OptDeadstores(peeped, out);
      blk' := peeped.(stmts := stmts);
      if Contained(peeped) { DeadContained(peeped, stmts, out); }
      PeepedRight(tbl.exprs, blk, peeped, stmts, entry, exit, out, alter);
      PeepedShrunk(tbl.exprs, blk, peeped, stmts, entry, exit, out, alter);
    }
  }

  lemma ReturnsClear(blk: Block, out: set<nat>, entry: Vals, exit: Vals)
    ensures blk.s.Ret? ==> Superfluous(blk, out, entry, exit)
  {
  }

  lemma ClearedRight(t: seq<Expr>, blk: Block, mid: Block, entry: Vals, exit: Vals, out: set<nat>)
    requires Table(t) && InTable(t, entry) && InTable(t, exit) && Superfluous(blk, out, entry, exit)
    ensures FinishedRight(t, blk, mid, blk.(stmts := []), entry, exit, out, true)
  {
    hide Superfluous, Described, StepAgrees, ClearSpares;
    forall want, p, r | ClearSpares(blk, want) && Described(t, blk, entry, exit, p, r) ensures StepAgrees(blk, blk.(stmts := []), want, p, r) {
      ClearAgrees(t, blk, out, want, entry, exit, p, r);
    }
  }

  lemma ClearedShrunk(t: seq<Expr>, blk: Block, mid: Block, entry: Vals, exit: Vals, out: set<nat>)
    requires Superfluous(blk, out, entry, exit)
    ensures Shrunk(t, blk, mid, blk.(stmts := []), entry, exit, out, true)
  {
    hide Superfluous;
    NarrowerBy(blk.stmts, []);
    ThinnerStmts(blk, []);
  }

  lemma PeepedRight(t: seq<Expr>, blk: Block, mid: Block, stmts: seq<Stmt>, entry: Vals, exit: Vals, out: set<nat>, alter: bool)
    requires Table(t) && InTable(t, entry) && InTable(t, exit) && !Cleared(blk, out, entry, exit, alter)
    requires RewrittenAll(t, blk, mid, exit, out) && DeadStores.DeadRemoved(mid.stmts, stmts, out + BranchUses(mid.s))
    ensures FinishedRight(t, blk, mid, mid.(stmts := stmts), entry, exit, out, alter)
  {
    hide Rewritten, DeadStores.DeadRemoved, DeadStores.KeepsLast, Cleared, PeepSpares, BranchUses;
    var constX := IsConst(t, exit[X_ATOM]);
    forall want, p, r | Spares(blk, mid, entry, exit, out, alter, constX, want) && Described(t, blk, entry, exit, p, r)
      ensures Rewritten(blk, mid.(stmts := stmts), out, want, constX, p, r)
    {
      RewrittenThrough(blk, mid, stmts, out, want, constX, p, r);
    }
  }

  lemma PeepedShrunk(t: seq<Expr>, blk: Block, mid: Block, stmts: seq<Stmt>, entry: Vals, exit: Vals, out: set<nat>, alter: bool)
    requires !Cleared(blk, out, entry, exit, alter) && Thinner(blk, mid) && (Settled(t, blk, exit) ==> mid == blk)
    requires PeepDone(t, blk, mid, exit, out)
    requires DeadStores.DeadRemoved(mid.stmts, stmts, out + BranchUses(mid.s))
    ensures Shrunk(t, blk, mid, mid.(stmts := stmts), entry, exit, out, alter)
  {
    hide Cleared, Settled, BranchUses, Thinner, PeepDone;
    ThinnerDeleted(mid, stmts);
    ThinnerTrans(blk, mid, mid.(stmts := stmts));
  }

  // ---------------------------------------------------------------------------------------
  // The whole treatment of a block
  // ---------------------------------------------------------------------------------------

  /** The number a branch compares A with: that of its constant, or that of X. */
  ghost predicate OperandNumber(t: seq<Expr>, s: Branch, val: Vals, oval: nat) {
    if s.Jmp? && s.src == SrcX then oval == val[X_ATOM] else IsEntry(t, oval, Imm(s.k))
  }

  /** A numbered block: same branch, same successors, same number of statement cells. */
  ghost predicate SameShape(b: Block, b': Block) {
    b' == b.(stmts := b'.stmts) && |b'.stmts| == |b.stmts|
  }

  /** The numbered block does what the block does, and the numbers describe the outcome, if no operand is
      unknown. */
  ghost predicate NumberedRight(t: seq<Expr>, blk: Block, entry: Vals, t': seq<Expr>, numbered: Block, exit: Vals)
    requires Table(t) && InTable(t, entry) && Table(t') && InTable(t', exit) && |numbered.stmts| == |blk.stmts|
  {
    OperandsKnown(blk.stmts, KnownRegs(entry)) ==>
      && KnownRegs(exit) == KnownAfter(blk.stmts, |blk.stmts|, KnownRegs(entry))
      && SoundRun(t, entry, blk.stmts, t', numbered.stmts, exit, |blk.stmts|)
  }

  /** What becomes of a block: numbered is the block after value numbering, mid after peephole rewriting, blk' the
      block when all is done. */
  ghost predicate BlockDone(t: seq<Expr>, blk: Block, entry: Vals, out: set<nat>, alter: bool,
                            t': seq<Expr>, numbered: Block, mid: Block, blk': Block, exit: Vals)
  {
    && Table(t) && InTable(t, entry) && Table(t') && t <= t' && InTable(t', entry) && InTable(t', exit)
    && SameShape(blk, numbered) && (!alter ==> numbered == blk)
    && NumberedRight(t, blk, entry, t', numbered, exit) && Traced(t', entry, blk.stmts, alter, numbered.stmts, exit)
    && blk'.jt in {blk.jt, blk.jf} && blk'.jf in {blk.jt, blk.jf} && blk'.s.Ret? == blk.s.Ret? && (blk.s.Ret? ==> blk'.s == blk.s)
    && FinishedRight(t', numbered, mid, blk', entry, exit, out, alter) && Shrunk(t', numbered, mid, blk', entry, exit, out, alter)
    && (!alter && Contained(blk) ==> Contained(blk'))
  }

  lemma FinishedGrows(t: seq<Expr>, t': seq<Expr>, blk: Block, mid: Block, blk': Block, entry: Vals, exit: Vals, out: set<nat>, alter: bool)
    requires Table(t) && Table(t') && t <= t' && InTable(t, entry) && InTable(t, exit) && FinishedRight(t, blk, mid, blk', entry, exit, out, alter)
    ensures InTable(t', entry) && InTable(t', exit) && FinishedRight(t', blk, mid, blk', entry, exit, out, alter)
  {
    assert IsConst(t, exit[X_ATOM]) == IsConst(t', exit[X_ATOM]);
    hide Table, Consistent, Cleared, StepAgrees, Rewritten, IsConst, Spares;
    ConsistentGrows(t, t', entry, Packet(map[], ZERO), seq(18, i => ZERO));
    ConsistentGrows(t, t', exit, Packet(map[], ZERO), seq(18, i => ZERO));
    forall p, r | Described(t', blk, entry, exit, p, r) ensures Described(t, blk, entry, exit, p, r) {
      ConsistentGrows(t, t', entry, p, r);
      ConsistentGrows(t, t', exit, p, RunAll(blk.stmts, p, r));
    }
  }

  lemma ShrunkGrows(t: seq<Expr>, t': seq<Expr>, blk: Block, mid: Block, blk': Block, entry: Vals, exit: Vals, out: set<nat>, alter: bool)
    requires t <= t' && InTable(t, exit) && Shrunk(t, blk, mid, blk', entry, exit, out, alter)
    ensures Shrunk(t', blk, mid, blk', entry, exit, out, alter)
  {
    hide Thinner, Cleared, DeadStores.DeadRemoved, Inert, LastSeen, BranchUses, PeepDone;
    if PeepDone(t, blk, mid, exit, out) { PeepDoneGrows(t, t', blk, mid, exit, out); }
  }

  lemma NumberingGives(t: seq<Expr>, blk: Block, entry: Vals, t': seq<Expr>, stmts: seq<Stmt>, exit: Vals)
    requires |stmts| == |blk.stmts| && Numbering(t, entry, blk.stmts, t', stmts, exit, |blk.stmts|)
    ensures Table(t) && InTable(t, entry) && Table(t') && t <= t' && InTable(t', entry) && InTable(t', exit)
    ensures NumberedRight(t, blk, entry, t', blk.(stmts := stmts), exit) && NoConstAtEnd(t', stmts, exit)
  {
    EndUnfoldedIs(t', stmts, exit);
    hide Table, SoundRun, EndUnfolded;
  }

  lemma DoneGrows(t: seq<Expr>, blk: Block, entry: Vals, out: set<nat>, alter: bool, t1: seq<Expr>, numbered: Block, mid: Block, blk': Block,
                  exit: Vals, t': seq<Expr>)
    requires BlockDone(t, blk, entry, out, alter, t1, numbered, mid, blk', exit) && Table(t') && t1 <= t'
    ensures BlockDone(t, blk, entry, out, alter, t', numbered, mid, blk', exit)
  {
    hide Table, OperandsKnown, FinishedRight, Shrunk, Traced, Contained, SoundRun;
    TableGrows(t1, t', entry, 0, Len);
    TableGrows(t1, t', exit, 0, Len);
    FinishedGrows(t1, t', numbered, mid, blk', entry, exit, out, alter);
    ShrunkGrows(t1, t', numbered, mid, blk', entry, exit, out, alter);
    TracedGrows(t1, t', entry, blk.stmts, alter, numbered.stmts, exit);
    if OperandsKnown(blk.stmts, KnownRegs(entry)) {
      SoundRunGrows(t, entry, blk.stmts, t1, t', numbered.stmts, exit, |blk.stmts|);
    }
  }

  /** Numbers the values of a block, then finishes it. numbered and mid are the block in between. */
  method TreatBlock(tbl: ValueTable, blk: Block, entry: Vals, out: set<nat>, alter: bool)
    returns (blk': Block, exit: Vals, ok: bool, ghost numbered: Block, ghost mid: Block)
    requires tbl.Valid() && InTable(tbl.exprs, entry) && tbl.curval + 2 * |Kept(blk.stmts)| + 1 < tbl.vmap.Length
    modifies tbl, tbl.vmap
    ensures ok ==> tbl.Valid() && tbl.curval <= old(tbl.curval) + 2 * |Kept(blk.stmts)|
    ensures ok ==> BlockDone(old(tbl.exprs), blk, entry, out, alter, tbl.exprs, numbered, mid, blk', exit)
    ensures Accepted(blk, alter) ==> ok
  {
    hide Numbering, Superfluous, Contained, NumberedRight, FinishedRight, NoConstAtEnd, IsConst, Table, InTable, ValueTable.Valid, Cleared,
      Traced, Shrunk;
    ghost var t := tbl.exprs;
    var stmts;
    stmts, exit, ok := OptStmts(tbl, blk.stmts, entry, alter);
    blk' := blk.(stmts := stmts);
    numbered, mid := blk', blk';
    if !ok { return; }
    NumberingGives(t, blk, entry, tbl.exprs, stmts, exit);
    blk', ok, mid := FinishBlock(tbl, blk.(stmts := stmts), entry, exit, out, alter);
    NotCleared(numbered, out, entry, exit);
  }

  /** A block that the treatment does not refuse: with alter set, one that neither divides by a constant zero nor divides or
      shifts by X; otherwise, one that does not return or has no statements. */
  ghost predicate Accepted(blk: Block, alter: bool) {
    if alter then Plain(blk.stmts) else blk.s.Ret? ==> blk.stmts == []
  }

  lemma NotCleared(blk: Block, out: set<nat>, entry: Vals, exit: Vals)
    ensures !Cleared(blk, out, entry, exit, false)
  {
  }

  /** All that is done to a block, and the number of what its branch then compares A with. */
  method OptBlk(tbl: ValueTable, blk: Block, entry: Vals, out: set<nat>, alter: bool)
    returns (blk': Block, exit: Vals, oval: nat, ok: bool, ghost numbered: Block, ghost mid: Block)
    requires tbl.Valid() && InTable(tbl.exprs, entry) && tbl.curval + 2 * |Kept(blk.stmts)| + 1 < tbl.vmap.Length
    modifies tbl, tbl.vmap
    ensures ok ==> tbl.Valid() && tbl.curval <= old(tbl.curval) + 2 * |Kept(blk.stmts)| + 1
    ensures ok ==> BlockDone(old(tbl.exprs), blk, entry, out, alter, tbl.exprs, numbered, mid, blk', exit)
    ensures ok ==> OperandNumber(tbl.exprs, blk'.s, exit, oval)
    ensures Accepted(blk, alter) ==> ok
  {
    ghost var t := tbl.exprs;
    oval := 0;
    blk', exit, ok, numbered, mid := TreatBlock(tbl, blk, entry, out, alter);
    if !ok { return; }
    ghost var t1 := tbl.exprs;
    hide BlockDone, ValueTable.Valid, Table, Kept, IsEntry;
    if blk'.s.Jmp? && blk'.s.src == SrcX {
      oval := exit[X_ATOM];
    } else {
      oval := tbl.F(Imm(blk'.s.k));
      DoneGrows(t, blk, entry, out, alter, t1, numbered, mid, blk', exit, tbl.exprs);
    }
  }

  /** In a state that the entry numbers describe, and with all operands known, the finished block goes where the
      block goes and keeps the registers of want, if those are spared, exactly unless it is misjudged. */
  lemma DoneAgrees(t: seq<Expr>, blk: Block, entry: Vals, out: set<nat>, alter: bool, t': seq<Expr>, numbered: Block, mid: Block, blk': Block,
                    exit: Vals, want: set<nat>, p: Packet, r: Regs)
    requires BlockDone(t, blk, entry, out, alter, t', numbered, mid, blk', exit)
    requires OperandsKnown(blk.stmts, KnownRegs(entry)) && Consistent(t, entry, p, r)
    requires Spares(numbered, mid, entry, exit, out, alter, IsConst(t', exit[X_ATOM]), want)
    ensures Described(t', numbered, entry, exit, p, r) && RunAll(numbered.stmts, p, r) == RunAll(blk.stmts, p, r)
    ensures StepAgrees(blk, blk', want, p, r) <==> Cleared(numbered, out, entry, exit, alter) || !Misjudged(numbered, out, p, r)
    ensures blk.s.Jmp? ==> Agree(RunAll(blk.stmts, p, r), RunAll(blk'.stmts, p, r), want)
  {
    hide Table, OperandsKnown, Spares, Consistent, Contained, Cleared, Misjudged, Decides, Traced, Shrunk, IsConst;
    ConsistentGrows(t, t', entry, p, r);
    assert RunAll(numbered.stmts, p, r) == RunAll(blk.stmts, p, r);
    hide Run;
  }

  /** The packet, entering block c in state r, comes to block b only in states that the numbers describe and
      in which b is not misjudged. */
  ghost predicate ArrivesWell(g: Graph, rank: seq<nat>, t: seq<Expr>, entry: Vals, exit: Vals, out: set<nat>, alter: bool, b: nat,
                              numbered: Block, c: nat, p: Packet, r: Regs)
    requires Ranked(g, rank) && c < |g| && Table(t) && InTable(t, entry)
  {
    Arrive(g, rank, c, p, r, b).At? ==>
      && Consistent(t, entry, p, Arrive(g, rank, c, p, r, b).r)
      && (Cleared(numbered, out, entry, exit, alter) || !Misjudged(numbered, out, p, Arrive(g, rank, c, p, r, b).r))
  }

  /** Treats block b of a graph. No packet's result changes that comes to b in a state that the numbers
      describe, and in which b is not misjudged, if no operand is unknown and no X is lost. */
  method OptBlkOf(tbl: ValueTable, g: Graph, ghost rank: seq<nat>, b: nat, entry: Vals, ghost inUse: seq<set<nat>>, outUse: seq<set<nat>>, alter: bool)
    returns (blk': Block, exit: Vals, ok: bool, ghost numbered: Block, ghost mid: Block)
    requires Ranked(g, rank) && b < |g| == |inUse| == |outUse| && Live(g, rank, inUse, outUse, b)
    requires tbl.Valid() && Table(tbl.exprs) && InTable(tbl.exprs, entry) && tbl.curval + 2 * |Kept(g[b].stmts)| + 1 < tbl.vmap.Length
    modifies tbl, tbl.vmap
    ensures Table(old(tbl.exprs)) && (ok ==> SameShape(g[b], numbered) && Ranked(g[b := blk'], rank))
    ensures ok && OperandsKnown(g[b].stmts, KnownRegs(entry)) && KeepsIndex(numbered, outUse[b]) ==>
      forall c, p, r :: 0 <= c < |g| && ArrivesWell(g, rank, old(tbl.exprs), entry, exit, outUse[b], alter, b, numbered, c, p, r) ==>
        Walk(g[b := blk'], rank, c, p, r) == Walk(g, rank, c, p, r)
  {
    ghost var t := tbl.exprs;
    var oval;
    blk', exit, oval, ok, numbered, mid := OptBlk(tbl, g[b], entry, outUse[b], alter);
    if !ok { return; }
    hide OperandsKnown, KeepsIndex, BlockDone, ArrivesWell, Walk, Table, InTable, Live, Ranked, OperandNumber, SameShape;
    DoneRanked(g, rank, b, t, entry, outUse[b], alter, tbl.exprs, numbered, mid, blk', exit);
    if OperandsKnown(g[b].stmts, KnownRegs(entry)) && KeepsIndex(numbered, outUse[b]) {
      forall c, p, r | 0 <= c < |g| && ArrivesWell(g, rank, t, entry, exit, outUse[b], alter, b, numbered, c, p, r)
        ensures Walk(g[b := blk'], rank, c, p, r) == Walk(g, rank, c, p, r)
      {
        BlockSound(g, rank, inUse, outUse, b, t, entry, alter, tbl.exprs, numbered, mid, blk', exit, c, p, r);
      }
    }
  }

  lemma DoneRanked(g: Graph, rank: seq<nat>, b: nat, t: seq<Expr>, entry: Vals, out: set<nat>, alter: bool, t': seq<Expr>, numbered: Block,
                   mid: Block, blk': Block, exit: Vals)
    requires Ranked(g, rank) && b < |g| && BlockDone(t, g[b], entry, out, alter, t', numbered, mid, blk', exit)
    ensures Ranked(g[b := blk'], rank) && SameShape(g[b], numbered)
  {
  }

  lemma ExitShape(t: seq<Expr>, blk: Block, entry: Vals, out: set<nat>, alter: bool, t': seq<Expr>, numbered: Block, mid: Block, blk': Block,
                  exit: Vals)
    requires BlockDone(t, blk, entry, out, alter, t', numbered, mid, blk', exit)
    ensures Table(t) && InTable(t, entry) && Table(t') && InTable(t', entry) && InTable(t', exit)
  {
  }

  lemma BlockSound(g: Graph, rank: seq<nat>, inUse: seq<set<nat>>, outUse: seq<set<nat>>, b: nat, t: seq<Expr>, entry: Vals, alter: bool,
                   t': seq<Expr>, numbered: Block, mid: Block, blk': Block, exit: Vals, c: nat, p: Packet, r: Regs)
    requires Ranked(g, rank) && b < |g| == |inUse| == |outUse| && c < |g| && Live(g, rank, inUse, outUse, b)
    requires BlockDone(t, g[b], entry, outUse[b], alter, t', numbered, mid, blk', exit) && Ranked(g[b := blk'], rank)
    requires OperandsKnown(g[b].stmts, KnownRegs(entry)) && KeepsIndex(numbered, outUse[b])
    requires ArrivesWell(g, rank, t, entry, exit, outUse[b], alter, b, numbered, c, p, r)
    ensures Walk(g[b := blk'], rank, c, p, r) == Walk(g, rank, c, p, r)
  {
    hide BlockDone, OperandsKnown, KeepsIndex, Spares, Live, Ranked, Misjudged, Cleared, StepAgrees, Walk;
    ExitShape(t, g[b], entry, outUse[b], alter, t', numbered, mid, blk', exit);
    SparesLive(numbered, mid, entry, exit, outUse[b], alter, IsConst(t', exit[X_ATOM]));
    if Arrive(g, rank, c, p, r, b).At? {
      DoneAgrees(t, g[b], entry, outUse[b], alter, t', numbered, mid, blk', exit, outUse[b], p, Arrive(g, rank, c, p, r, b).r);
    }
    ReplaceSound(g, rank, inUse, outUse, b, blk', c, p, r);
  }
}
