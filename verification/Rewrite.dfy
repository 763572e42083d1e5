/**
 Replacing one block of the graph: when that changes no packet's result.
 */
module Rewrite {
  import opened Machine
  import opened Flow
  import opened Liveness

  datatype Arrival = Never | At(r: Regs)

  /** The state in which control, entering block c in state r, comes to block b. */
  ghost function Arrive(g: Graph, rank: seq<nat>, c: nat, p: Packet, r: Regs, b: nat): Arrival
    requires Ranked(g, rank) && c < |g|
    decreases rank[c]
  {
    if c == b then At(r)
    else if g[c].s.Ret? then Never
    else
      var r' := RunAll(g[c].stmts, p, r);
      Arrive(g, rank, Choose(g[c], r'), p, r', b)
  }

  /** From state r, the new block does what the old one does as far as anyone can tell: it returns
      the same value, or goes to the same successor with the same contents in out. */
  ghost predicate StepAgrees(old_: Block, new_: Block, out: set<nat>, p: Packet, r: Regs) {
    if old_.s.Ret? then new_.s == old_.s
    else
      && new_.s.Jmp?
      && var r1, r2 := RunAll(old_.stmts, p, r), RunAll(new_.stmts, p, r);
         Choose(old_, r1) == Choose(new_, r2) && Agree(r1, r2, out)
  }

  lemma {:induction false} WalkElsewhere(g: Graph, g': Graph, rank: seq<nat>, c: nat, p: Packet, r: Regs)
    requires Ranked(g, rank) && Ranked(g', rank) && c < |g| == |g'|
    requires forall d :: d in Reach(g, rank, c) ==> g'[d] == g[d]
    ensures Walk(g', rank, c, p, r) == Walk(g, rank, c, p, r)
    decreases rank[c]
  {
    if !g[c].s.Ret? {
      var r' := RunAll(g[c].stmts, p, r);
      WalkElsewhere(g, g', rank, Choose(g[c], r'), p, r');
    }
  }

  /** At the replaced block itself. */
  lemma ReplaceHere(g: Graph, rank: seq<nat>, inUse: seq<set<nat>>, outUse: seq<set<nat>>,
                    b: nat, blk: Block, p: Packet, r: Regs)
    requires Ranked(g, rank) && b < |g| == |inUse| == |outUse| && Ranked(g[b := blk], rank)
    requires Live(g, rank, inUse, outUse, b) && StepAgrees(g[b], blk, outUse[b], p, r)
    ensures Walk(g[b := blk], rank, b, p, r) == Walk(g, rank, b, p, r)
  {
    if !g[b].s.Ret? {
      var r1, r2 := RunAll(g[b].stmts, p, r), RunAll(blk.stmts, p, r);
      var d := Choose(g[b], r1);
      assert LiveAt(g, inUse, outUse, b);
      assert b !in Reach(g, rank, d);
      WalkElsewhere(g, g[b := blk], rank, d, p, r2);
      LivenessSound(g, rank, inUse, outUse, d, p, r1, r2);
    }
  }

  /** Replacing block b by one that agrees with it, in the state in which control comes to b,
      leaves the result from any start unchanged. */
  lemma {:induction false} ReplaceSound(g: Graph, rank: seq<nat>, inUse: seq<set<nat>>, outUse: seq<set<nat>>,
                                        b: nat, blk: Block, c: nat, p: Packet, r: Regs)
    requires Ranked(g, rank) && b < |g| == |inUse| == |outUse| && Ranked(g[b := blk], rank) && c < |g|
    requires Live(g, rank, inUse, outUse, b)
    requires Arrive(g, rank, c, p, r, b).At? ==>
               StepAgrees(g[b], blk, outUse[b], p, Arrive(g, rank, c, p, r, b).r)
    ensures Walk(g[b := blk], rank, c, p, r) == Walk(g, rank, c, p, r)
    decreases rank[c]
  {
    if c == b {
      ReplaceHere(g, rank, inUse, outUse, b, blk, p, r);
    } else if !g[c].s.Ret? {
      var r' := RunAll(g[c].stmts, p, r);
      ReplaceSound(g, rank, inUse, outUse, b, blk, Choose(g[c], r'), p, r');
    }
  }
}
