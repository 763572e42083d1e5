/**
 The blocks a packet passes, and the registers that can still matter to it.
 */
module Trails {
  import opened Machine
  import opened Flow
  import opened Liveness

  /** The blocks that control passes when it enters block b in state r. */
  ghost function Trail(g: Graph, rank: seq<nat>, b: nat, p: Packet, r: Regs): (t: seq<nat>)
    requires Ranked(g, rank) && b < |g|
    ensures |t| > 0 && t[0] == b
    decreases rank[b]
  {
    if g[b].s.Ret? then [b]
    else
      var r' := RunAll(g[b].stmts, p, r);
      [b] + Trail(g, rank, Choose(g[b], r'), p, r')
  }

  /** The result is that of the last block passed. */
  lemma {:induction false} TrailResult(g: Graph, rank: seq<nat>, b: nat, p: Packet, r: Regs)
    requires Ranked(g, rank) && b < |g|
    ensures var t := Trail(g, rank, b, p, r); var c := t[|t| - 1];
      c < |g| && g[c].s.Ret? && Walk(g, rank, b, p, r) == g[c].s.k
    decreases rank[b]
  {
    if !g[b].s.Ret? {
      var r' := RunAll(g[b].stmts, p, r);
      TrailResult(g, rank, Choose(g[b], r'), p, r');
    }
  }

  /** Registers not live on entry to a block do not change where control goes. */
  lemma {:induction false} TrailLive(g: Graph, rank: seq<nat>, b: nat, p: Packet, r: Regs, r': Regs)
    requires Ranked(g, rank) && b < |g| && Agree(r, r', LiveIn(g, rank, b))
    ensures Trail(g, rank, b, p, r) == Trail(g, rank, b, p, r')
    decreases rank[b]
  {
    if !g[b].s.Ret? {
      var inUse, outUse := LiveSets(g, rank).0, LiveSets(g, rank).1;
      LiveSetsHold(g, rank, b);
      BlockAgrees(g, inUse, outUse, b, p, r, r');
      var s, s' := RunAll(g[b].stmts, p, r), RunAll(g[b].stmts, p, r');
      hide Run, Agree, LiveAt;
      LiveSucc(g, rank, b, Choose(g[b], s), s, s');
      TrailLive(g, rank, Choose(g[b], s), p, s, s');
    }
  }

  lemma LiveSucc(g: Graph, rank: seq<nat>, b: nat, c: nat, s: Regs, s': Regs)
    requires Ranked(g, rank) && b < |g| && g[b].s.Jmp? && c in {g[b].jt, g[b].jf} && Agree(s, s', LiveOut(g, rank, b))
    ensures c < |g| && rank[c] < rank[b] && Agree(s, s', LiveIn(g, rank, c))
  {
    hide LiveIn;
  }

  // ---------------------------------------------------------------------------------------
  // The registers that matter
  // ---------------------------------------------------------------------------------------

  /** The registers a block or one after it may use before it is set. */
  ghost function LiveIn(g: Graph, rank: seq<nat>, b: nat): set<nat>
    requires Ranked(g, rank) && b < |g|
    decreases rank[b], 0
  {
    BlockUses(g[b]) + (if g[b].s.Ret? then {} else LiveIn(g, rank, g[b].jt) + LiveIn(g, rank, g[b].jf) - BlockKills(g[b]))
  }

  ghost function LiveOut(g: Graph, rank: seq<nat>, b: nat): set<nat>
    requires Ranked(g, rank) && b < |g|
  {
    if g[b].s.Ret? then {} else LiveIn(g, rank, g[b].jt) + LiveIn(g, rank, g[b].jf)
  }

  ghost function LiveSets(g: Graph, rank: seq<nat>): (seq<set<nat>>, seq<set<nat>>)
    requires Ranked(g, rank)
  {
    (seq(|g|, (b: nat) requires b < |g| => LiveIn(g, rank, b)), seq(|g|, (b: nat) requires b < |g| => LiveOut(g, rank, b)))
  }

  lemma LiveSetsHold(g: Graph, rank: seq<nat>, b: nat)
    requires Ranked(g, rank) && b < |g|
    ensures var s := LiveSets(g, rank); LiveExactAt(g, s.0, s.1, b) && LiveAt(g, s.0, s.1, b)
  {
    hide BlockUses, BlockKills;
    RankedAt(g, rank, b);
    var s := LiveSets(g, rank);
    assert s.0[b] == LiveIn(g, rank, b) && s.1[b] == LiveOut(g, rank, b);
    if g[b].s.Jmp? {
      assert s.0[g[b].jt] == LiveIn(g, rank, g[b].jt) && s.0[g[b].jf] == LiveIn(g, rank, g[b].jf);
    }
    LiveExactSuffices(g, s.0, s.1, b);
  }

  /** Any solution of the liveness equations below b is this one. */
  lemma {:induction false} LiveExactIs(g: Graph, rank: seq<nat>, inUse: seq<set<nat>>, outUse: seq<set<nat>>, b: nat)
    requires Ranked(g, rank) && b < |g| == |inUse| == |outUse|
    requires forall c :: c in Reach(g, rank, b) ==> LiveExactAt(g, inUse, outUse, c)
    ensures inUse[b] == LiveIn(g, rank, b) && outUse[b] == LiveOut(g, rank, b)
    decreases rank[b]
  {
    hide BlockUses, BlockKills;
    assert LiveExactAt(g, inUse, outUse, b);
    if g[b].s.Jmp? {
      LiveExactIs(g, rank, inUse, outUse, g[b].jt);
      LiveExactIs(g, rank, inUse, outUse, g[b].jf);
    }
  }
}
