/**
 One pass of branch movement from start to end, on any acyclic graph: the analyses, the treatment
 of every block and the sweep.
 */
module Pass {
  import opened Machine
  import opened Flow
  import opened Dominance
  import opened Local
  import opened Altering
  import opened BranchMove
  import opened SweepFacts
  import Analysis
  import BitSets
  import Liveness
  import Pullup
  import Trails
  import Values
  import ValuePass

  /** What is reachable does not depend on the witness of acyclicity. */
  lemma {:induction false} ReachAnyRank(g: Graph, rank: seq<nat>, rank': seq<nat>, b: nat)
    requires Ranked(g, rank) && Ranked(g, rank') && b < |g|
    ensures Reach(g, rank, b) == Reach(g, rank', b)
    decreases rank[b]
  {
    if !g[b].s.Ret? {
      ReachAnyRank(g, rank, rank', g[b].jt);
      ReachAnyRank(g, rank, rank', g[b].jf);
    }
  }

  /** The levels of the reachable blocks, extended to the others so as to rank the whole graph. */
  lemma ExtendLevels(g: Graph, rank: seq<nat>, level: seq<nat>, levels: seq<seq<nat>>, root: nat) returns (lv: seq<nat>)
    requires Ranked(g, rank) && root < |g| && Analysis.Listed(g, level, levels, Reach(g, rank, root))
    ensures Ranked(g, lv) && Reach(g, lv, root) == Reach(g, rank, root)
    ensures lv[root] == level[root] && Analysis.Listed(g, lv, levels, Reach(g, rank, root))
  {
    var live := Reach(g, rank, root);
    lv := seq(|g|, i requires 0 <= i < |g| => if i in live then level[i] else |g| + rank[i]);
    forall b | 0 <= b < |g| && !g[b].s.Ret? ensures lv[g[b].jt] < lv[b] && lv[g[b].jf] < lv[b] {
      RankedAt(g, rank, b);
    }
    ReachAnyRank(g, rank, lv, root);
    ExtendedListed(g, level, lv, levels, live);
  }

  lemma ExtendedListed(g: Graph, level: seq<nat>, lv: seq<nat>, levels: seq<seq<nat>>, live: set<nat>)
    requires WellFormed(g) && Analysis.Listed(g, level, levels, live) && |lv| == |g|
    requires forall b :: b in live && b < |g| ==> lv[b] == level[b]
    ensures Analysis.Listed(g, lv, levels, live)
  {
    forall l, i | 0 <= l < |levels| && 0 <= i < |levels[l]| ensures lv[levels[l][i]] == l {
      assert levels[l][i] in live;
    }
  }

  /** Where every block defines what it uses, nothing is live between blocks. */
  lemma {:induction false} NothingLive(g: Graph, rank: seq<nat>, inUse: seq<set<nat>>, outUse: seq<set<nat>>, live: set<nat>, b: nat)
    requires Ranked(g, rank) && |inUse| == |outUse| == |g| && Closed(g, live) && ValuePass.BlockLocal(g, live)
    requires forall c :: c in live && c < |g| ==> Liveness.LiveExactAt(g, inUse, outUse, c)
    requires b in live && b < |g|
    ensures inUse[b] == {} && outUse[b] == {}
    decreases rank[b]
  {
    assert Liveness.BlockUses(g[b]) == {};
    RankedAt(g, rank, b);
    if g[b].s.Jmp? {
      NothingLive(g, rank, inUse, outUse, live, g[b].jt);
      NothingLive(g, rank, inUse, outUse, live, g[b].jf);
    }
  }

  lemma NothingLiveOut(g: Graph, rank: seq<nat>, inUse: seq<set<nat>>, outUse: seq<set<nat>>, root: nat)
    requires Ranked(g, rank) && root < |g| == |inUse| == |outUse|
    requires forall c :: c in Reach(g, rank, root) ==> Liveness.LiveExactAt(g, inUse, outUse, c)
    ensures ValuePass.BlockLocal(g, Reach(g, rank, root)) ==> forall b :: b in Reach(g, rank, root) ==> outUse[b] == {}
  {
    ReachClosed(g, rank, root);
    if ValuePass.BlockLocal(g, Reach(g, rank, root)) {
      forall b | b in Reach(g, rank, root) ensures outUse[b] == {} {
        NothingLive(g, rank, inUse, outUse, Reach(g, rank, root), b);
      }
    }
  }

  /** What the analysis finds live is what is live. */
  lemma LiveFound(g: Graph, rank: seq<nat>, inUse: seq<set<nat>>, outUse: seq<set<nat>>, root: nat)
    requires Ranked(g, rank) && root < |g| == |inUse| == |outUse|
    requires forall c :: c in Reach(g, rank, root) ==> Liveness.LiveExactAt(g, inUse, outUse, c)
    ensures forall c :: c in Reach(g, rank, root) ==> outUse[c] == Trails.LiveOut(g, rank, c)
  {
    hide Liveness.LiveExactAt, Trails.LiveOut, Trails.LiveIn;
    forall c | c in Reach(g, rank, root) ensures outUse[c] == Trails.LiveOut(g, rank, c) {
      ReachTransitive(g, rank, root, c);
      Trails.LiveExactIs(g, rank, inUse, outUse, c);
    }
  }

  /** Treats every block of a graph, with a table made large enough for it. */
  method NumberAll(flow: Analysis.FlowState, inEdges: seq<seq<nat>>, ghost inUse: seq<set<nat>>, outUse: seq<set<nat>>,
                   hash: Values.Expr -> nat, alter: bool)
    returns (g': Graph, vals: seq<Values.Vals>, oval: seq<nat>, ok: bool, ghost g1: Graph, ghost gm: Graph, ghost t: seq<Values.Expr>)
    requires flow.Valid() && Analysis.Listed(flow.g, flow.level, flow.levels, Reach(flow.g, flow.rank, flow.root))
    requires Analysis.InEdges(flow.g, inEdges, Reach(flow.g, flow.rank, flow.root))
    requires |inUse| == |outUse| == |flow.g|
    requires forall b :: b in Reach(flow.g, flow.rank, flow.root) ==> Liveness.LiveExactAt(flow.g, inUse, outUse, b)
    ensures ok ==> Passed(flow.g, flow.rank, flow.root, inEdges, outUse, alter, t, g1, gm, g', vals, oval)
    ensures ok && ValuePass.AllKnown(flow.g, inEdges, vals, Reach(flow.g, flow.rank, flow.root)) ==>
      (ValuePass.Spared(flow.g, flow.rank, inEdges, outUse, alter, t, g1, gm, g', vals, Reach(flow.g, flow.rank, flow.root)) ==>
        ValuePass.Followed(flow.g, flow.rank, flow.root, inEdges, outUse, alter, g1, gm, g', vals))
    ensures ValuePass.AllAccepted(flow.g, Reach(flow.g, flow.rank, flow.root), alter) ==> ok
  {
    hide ValuePass.PassInv, Reach, Analysis.Listed, Analysis.InEdges, Liveness.LiveExactAt, ValuePass.AllAccepted, Walk, ValuePass.AllKnown,
      ValuePass.Spared, ValuePass.Followed, Trails.LiveOut;
    var n := ValuePass.MaxStmts(flow.g);
    ValuePass.TableSuffices(flow.g, {}, |flow.g|);
    ValuePass.EnteredBy(flow.g, flow.rank, flow.root, inEdges);
    LiveFound(flow.g, flow.rank, inUse, outUse, flow.root);
    var tbl := new Values.ValueTable(hash, 3 * n);
    g1, gm, g', vals, oval, ok :=
      ValuePass.NumberGraph(tbl, flow.g, flow.root, flow.rank, flow.level, flow.levels, inEdges, outUse, alter);
    t := tbl.exprs;
  }

  /** Treats every block without altering statements, as branch movement needs it. */
  method TreatAll(flow: Analysis.FlowState, inEdges: seq<seq<nat>>, ghost inUse: seq<set<nat>>, outUse: seq<set<nat>>, hash: Values.Expr -> nat)
    returns (g': Graph, vals: seq<Values.Vals>, oval: seq<nat>, ok: bool, ghost gm: Graph, ghost t: seq<Values.Expr>)
    requires flow.Valid() && Analysis.Listed(flow.g, flow.level, flow.levels, Reach(flow.g, flow.rank, flow.root))
    requires Analysis.InEdges(flow.g, inEdges, Reach(flow.g, flow.rank, flow.root))
    requires |inUse| == |outUse| == |flow.g|
    requires forall b :: b in Reach(flow.g, flow.rank, flow.root) ==> Liveness.LiveExactAt(flow.g, inUse, outUse, b)
    ensures ok ==> AllFinished(flow.g, flow.rank, flow.root, inEdges, outUse, t, gm, g', vals, oval)
    ensures ValuePass.AllAccepted(flow.g, Reach(flow.g, flow.rank, flow.root), false) ==> ok
  {
    hide Passed, AllFinished, Reach, Analysis.Listed, Analysis.InEdges, Liveness.LiveExactAt, ValuePass.AllAccepted, ValuePass.AllKnown,
      ValuePass.Spared, ValuePass.Followed, ValuePass.BlockLocal;
    NothingLiveOut(flow.g, flow.rank, inUse, outUse, flow.root);
    ghost var g1;
    g', vals, oval, ok, g1, gm, t := NumberAll(flow, inEdges, inUse, outUse, hash, false);
    if ok { PassedFinished(flow.g, flow.rank, flow.root, inEdges, outUse, t, g1, gm, g', vals, oval); }
  }

  lemma PassedFinished(g: Graph, rank: seq<nat>, root: nat, inEdges: seq<seq<nat>>, outUse: seq<set<nat>>, t: seq<Values.Expr>,
                       g1: Graph, gm: Graph, g': Graph, vals: seq<Values.Vals>, oval: seq<nat>)
    requires Passed(g, rank, root, inEdges, outUse, false, t, g1, gm, g', vals, oval) && Ranked(g, rank) && root < |g| == |outUse|
    requires ValuePass.BlockLocal(g, Reach(g, rank, root)) ==> forall b :: b in Reach(g, rank, root) ==> outUse[b] == {}
    ensures AllFinished(g, rank, root, inEdges, outUse, t, gm, g', vals, oval)
  {
    hide ValuePass.PassInv, ValuePass.BlockLocal, Trails.LiveOut, Reach;
    ValuePass.Unaltered(g, rank, root, inEdges, outUse, t, g1, gm, g', vals, oval);
    ValuePass.TreatedRanked(g, rank, root, inEdges, outUse, false, t, g1, gm, g', vals, oval);
  }

  /** One pass of statement rewriting over any acyclic graph: the analyses and the treatment of every block. If no operand is
      unknown and every block keeps what is still used after it, packets go through the new graph as through the old,
      exactly unless they come to a block that goes astray. If the blocks keep to themselves, no packet's result changes. */
  method RewriteOf(graph: Graph, root: nat, hash: Values.Expr -> nat, ghost rank: seq<nat>)
    returns (g': Graph, ok: bool, ghost inEdges: seq<seq<nat>>, ghost outUse: seq<set<nat>>, ghost t: seq<Values.Expr>, ghost g1: Graph,
             ghost gm: Graph, ghost vals: seq<Values.Vals>, ghost oval: seq<nat>)
    requires Ranked(graph, rank) && root < |graph|
    ensures ok ==> |g'| == |graph| && Ranked(g', rank) && Passed(graph, rank, root, inEdges, outUse, true, t, g1, gm, g', vals, oval)
    ensures ok && ValuePass.AllKnown(graph, inEdges, vals, Reach(graph, rank, root)) ==>
      (ValuePass.Spared(graph, rank, inEdges, outUse, true, t, g1, gm, g', vals, Reach(graph, rank, root)) ==>
        ValuePass.Followed(graph, rank, root, inEdges, outUse, true, g1, gm, g', vals))
    ensures ok && Separate(graph, rank, root) ==>
      forall p, r :: Walk(g', rank, root, p, r) == Walk(graph, rank, root, p, r)
    ensures ValuePass.AllAccepted(graph, Reach(graph, rank, root), true) ==> ok
  {
    var flow := new Analysis.FlowState(graph, root, rank);
    flow.FindLevels();
    var inU, outU := Liveness.FindUd(graph, flow.level, flow.levels, root, rank);
    var inE := flow.FindInedges();
    hide Passed, Reach, Ranked, Walk, Separate, Analysis.Listed, Analysis.InEdges, Liveness.LiveExactAt, Liveness.Live, ValuePass.AllAccepted,
      ValuePass.AllKnown, ValuePass.Spared, ValuePass.Followed, ValuePass.ShapeKept;
    var vs, os;
    g', vs, os, ok, g1, gm, t := NumberAll(flow, inE, inU, outU, hash, true);
    inEdges, outUse, vals, oval := inE, outU, vs, os;
    if ok {
      PassedShape(graph, rank, root, inEdges, outUse, true, t, g1, gm, g', vals, oval);
      PassedSizes(graph, inEdges, outUse, g1, gm, g', vals);
      if Separate(graph, rank, root) {
        forall p, r ensures Walk(g', rank, root, p, r) == Walk(graph, rank, root, p, r) {
          SeparateKept(graph, rank, root, inEdges, outUse, true, t, g1, gm, g', vals, oval, p, r);
        }
      }
    }
  }

  // ---------------------------------------------------------------------------------------
  // What the sweep needs of the finished graph
  // ---------------------------------------------------------------------------------------

  /** The levels found for the graph order the finished graph. */
  lemma FinishedOrdered(g: Graph, g': Graph, root: nat, lv: seq<nat>, levels: seq<seq<nat>>)
    requires Ranked(g, lv) && root < |g| == |g'| && Analysis.Listed(g, lv, levels, Reach(g, lv, root))
    requires forall c :: 0 <= c < |g| ==> ValuePass.ShapeKept(g[c], g'[c])
    ensures Ordered(g', root, lv, levels, Reach(g, lv, root))
  {
    assert root in Reach(g, lv, root);
    forall b | b in Reach(g, lv, root) ensures g'[b].s.Ret? == g[b].s.Ret? && lv[b] <= lv[root] {
      assert ValuePass.ShapeKept(g[b], g'[b]);
    }
  }

  lemma FinishedClosed(g: Graph, g': Graph, rank: seq<nat>, root: nat)
    requires Ranked(g, rank) && root < |g| == |g'| && Ranked(g', rank)
    requires forall c :: 0 <= c < |g| ==> ValuePass.ShapeKept(g[c], g'[c])
    ensures ClosedUnder(g', root, Reach(g, rank, root))
  {
    ReachClosed(g, rank, root);
    forall b | b in Reach(g, rank, root) && b < |g'| && g'[b].s.Jmp?
      ensures g'[b].jt in Reach(g, rank, root) && g'[b].jf in Reach(g, rank, root)
    {
      assert ValuePass.ShapeKept(g[b], g'[b]);
    }
  }

  /** An edge that dominates e in the graph is right for the finished graph. */
  lemma FinishedDominator(g: Graph, rank: seq<nat>, lv: seq<nat>, root: nat, inEdges: seq<seq<nat>>, outUse: seq<set<nat>>, t: seq<Values.Expr>,
                          gm: Graph, g': Graph, vals: seq<Values.Vals>, oval: seq<nat>, k: nat, e: nat)
    requires AllFinished(g, rank, root, inEdges, outUse, t, gm, g', vals, oval)
    requires Ranked(g, lv) && root < |g| == |g'| && Ranked(g', lv) && Ranked(g, rank) && Reach(g, lv, root) == Reach(g, rank, root)
    requires ClosedUnder(g', root, Reach(g, rank, root)) && e < 2 * |g| && EdgeSource(g, e) in Reach(g, rank, root)
    requires EdgeDominates(g, root, k, e)
    ensures RowSound(g', lv, root, FactsOf(g, rank, root, g', vals, oval), {k}, e)
  {
    hide AllFinished, FactsOf, Reach, Ranked, EdgeDominates, TravelDominates, TravelPasses, ClosedUnder, WellFormed, Calm, Fits, Swapped, RowSound;
    var f := FactsOf(g, rank, root, g', vals, oval);
    RankedShape(g, rank);
    RankedShape(g', lv);
    FactsAre(g, rank, root, g', vals, oval, Packet(map[], ZERO));
    DominatorAbove(g, lv, root, k, e);
    forall p | p in f.pkts
      ensures TravelPasses(g', root, EdgeSource(g', k), e, p) && (EdgeSource(g', k) !in f.swapped ==> TravelDominates(g', root, k, e, p))
    {
      FitsDominates(g, rank, lv, root, inEdges, outUse, t, gm, g', vals, oval, k, e, p);
    }
    RowSingle(g', lv, root, f, k, e);
  }

  lemma RowSingle(g: Graph, rank: seq<nat>, root: nat, f: Facts, k: nat, e: nat)
    requires Ranked(g, rank) && e < 2 * |g| && k < 2 * |g| && EdgeSource(g, k) in f.live && rank[EdgeSource(g, e)] <= rank[EdgeSource(g, k)]
    requires forall p :: p in f.pkts ==>
      TravelPasses(g, root, EdgeSource(g, k), e, p) && (EdgeSource(g, k) !in f.swapped ==> TravelDominates(g, root, k, e, p))
    ensures RowSound(g, rank, root, f, {k}, e)
  {
    hide TravelDominates, TravelPasses;
  }

  /** All edge dominators that were found are right for the finished graph. */
  lemma FinishedRows(g: Graph, rank: seq<nat>, lv: seq<nat>, root: nat, inEdges: seq<seq<nat>>, outUse: seq<set<nat>>, t: seq<Values.Expr>,
                     gm: Graph, g': Graph, vals: seq<Values.Vals>, oval: seq<nat>, rows: seq<set<nat>>)
    requires AllFinished(g, rank, root, inEdges, outUse, t, gm, g', vals, oval)
    requires Ranked(g, lv) && root < |g| == |g'| && Ranked(g', lv) && Ranked(g, rank) && Reach(g, lv, root) == Reach(g, rank, root)
    requires ClosedUnder(g', root, Reach(g, rank, root)) && |rows| == 2 * |g|
    requires forall e, k :: 0 <= e < |rows| && k in rows[e] ==> EdgeDominates(g, root, k, e)
    ensures forall e :: 0 <= e < |rows| && EdgeSource(g', e) in Reach(g, rank, root) ==>
      RowSound(g', lv, root, FactsOf(g, rank, root, g', vals, oval), rows[e], e)
  {
    hide AllFinished, FactsOf, Reach, Ranked, EdgeDominates, ClosedUnder, RowSound, WellFormed;
    RankedShape(g, rank);
    forall e | 0 <= e < |rows| && EdgeSource(g', e) in Reach(g, rank, root)
      ensures RowSound(g', lv, root, FactsOf(g, rank, root, g', vals, oval), rows[e], e)
    {
      FinishedRow(g, rank, lv, root, inEdges, outUse, t, gm, g', vals, oval, rows[e], e);
    }
  }

  lemma FinishedRow(g: Graph, rank: seq<nat>, lv: seq<nat>, root: nat, inEdges: seq<seq<nat>>, outUse: seq<set<nat>>, t: seq<Values.Expr>,
                    gm: Graph, g': Graph, vals: seq<Values.Vals>, oval: seq<nat>, row: set<nat>, e: nat)
    requires AllFinished(g, rank, root, inEdges, outUse, t, gm, g', vals, oval)
    requires Ranked(g, lv) && root < |g| == |g'| && Ranked(g', lv) && Ranked(g, rank) && Reach(g, lv, root) == Reach(g, rank, root)
    requires ClosedUnder(g', root, Reach(g, rank, root)) && e < 2 * |g| && EdgeSource(g, e) in Reach(g, rank, root)
    requires forall k :: k in row ==> EdgeDominates(g, root, k, e)
    ensures RowSound(g', lv, root, FactsOf(g, rank, root, g', vals, oval), row, e)
  {
    var f := FactsOf(g, rank, root, g', vals, oval);
    hide AllFinished, FactsOf, Reach, Ranked, EdgeDominates, ClosedUnder, RowSound, WellFormed;
    forall k | k in row ensures RowSound(g', lv, root, f, {k}, e) {
      FinishedDominator(g, rank, lv, root, inEdges, outUse, t, gm, g', vals, oval, k, e);
    }
    RowOf(g', lv, root, f, row, e);
  }

  lemma RowOf(g: Graph, rank: seq<nat>, root: nat, f: Facts, row: set<nat>, e: nat)
    requires Ranked(g, rank) && e < 2 * |g| && forall k :: k in row ==> RowSound(g, rank, root, f, {k}, e)
    ensures RowSound(g, rank, root, f, row, e)
  {
    forall k | k in row ensures RowSound(g, rank, root, f, {k}, e) && k in {k} {
    }
  }

  lemma FitsDominates(g: Graph, rank: seq<nat>, lv: seq<nat>, root: nat, inEdges: seq<seq<nat>>, outUse: seq<set<nat>>, t: seq<Values.Expr>,
                      gm: Graph, g': Graph, vals: seq<Values.Vals>, oval: seq<nat>, k: nat, e: nat, p: Packet)
    requires AllFinished(g, rank, root, inEdges, outUse, t, gm, g', vals, oval) && Ranked(g, rank) && root < |g| == |g'| && Ranked(g', lv)
    requires EdgeDominates(g, root, k, e) && k < 2 * |g| && p in FactsOf(g, rank, root, g', vals, oval).pkts
    ensures var f := FactsOf(g, rank, root, g', vals, oval);
      TravelPasses(g', root, EdgeSource(g', k), e, p) && (EdgeSource(g', k) !in f.swapped ==> TravelDominates(g', root, k, e, p))
  {
    hide AllFinished, FactsOf, Reach, Ranked, EdgeDominates, TravelDominates, TravelPasses, Calm, Fits, SameWays, WellFormed, Swapped, Visits,
      ValuePass.ShapeKept;
    FinishedShape(g, rank, root, inEdges, outUse, t, gm, g', vals, oval);
    RankedShape(g, rank);
    FactsAre(g, rank, root, g', vals, oval, p);
    FitsGoes(g, rank, root, inEdges, outUse, t, gm, g', vals, oval, p);
    DominatorTravels(g, g', rank, root, Visits(g, rank, root, p), Swapped(g, Reach(g, rank, root)), k, e, p);
  }

  /** Finishing the blocks does not change the result of a packet that fits. */
  lemma FinishedWalk(g: Graph, rank: seq<nat>, root: nat, inEdges: seq<seq<nat>>, outUse: seq<set<nat>>, t: seq<Values.Expr>,
                     gm: Graph, g': Graph, vals: seq<Values.Vals>, oval: seq<nat>, p: Packet, r: Regs)
    requires AllFinished(g, rank, root, inEdges, outUse, t, gm, g', vals, oval)
    requires |g| == |g'| && Ranked(g, rank) && Ranked(g', rank) && root < |g|
    requires Calm(g, Reach(g, rank, root)) && Fits(g, rank, root, g', vals, oval, p) && ClosedUnder(g', root, Reach(g, rank, root))
    ensures Walk(g', rank, root, p, r) == Walk(g, rank, root, p, r)
  {
    hide AllFinished, Fits, Reach, Ranked, SameWays, Swapped, ValuePass.BlockLocal, Visits;
    var live := Reach(g, rank, root);
    ReachClosed(g, rank, root);
    FitsGoes(g, rank, root, inEdges, outUse, t, gm, g', vals, oval, p);
    WalkIsRoute(g, rank, live, root, p, r);
    WalkIsRoute(g', rank, live, root, p, r);
  }

  /** What edges of the finished graph decide is true of every packet that fits. */
  lemma FinishedConcurs(g: Graph, rank: seq<nat>, lv: seq<nat>, root: nat, inEdges: seq<seq<nat>>, outUse: seq<set<nat>>, t: seq<Values.Expr>,
                        gm: Graph, g': Graph, vals: seq<Values.Vals>, oval: seq<nat>)
    requires AllFinished(g, rank, root, inEdges, outUse, t, gm, g', vals, oval) && Ranked(g, rank) && root < |g| == |g'| && Ranked(g', lv)
    ensures Concurs(g', lv, root, vals, oval, FactsOf(g, rank, root, g', vals, oval))
  {
    FinishedShape(g, rank, root, inEdges, outUse, t, gm, g', vals, oval);
    hide AllFinished, FactsOf, Reach, Ranked, Calm, Fits, SameWays, Swapped, Visits, ConcursFor, ValuePass.ShapeKept;
    var f := FactsOf(g, rank, root, g', vals, oval);
    forall p | p in f.pkts ensures ConcursFor(g', lv, root, vals, oval, f.swapped, p) {
      FactsAre(g, rank, root, g', vals, oval, p);
      FitsGoes(g, rank, root, inEdges, outUse, t, gm, g', vals, oval, p);
      FitsConcurs(g, rank, lv, root, g', vals, oval, Reach(g, rank, root), p);
    }
  }

  // ---------------------------------------------------------------------------------------
  // The pass
  // ---------------------------------------------------------------------------------------

  /** The condition for the pass to keep the result of packet p, where the finished graph is g0: every block defines what it
      uses and does not lose X after an indexed load, and the packet fits. */
  ghost predicate KeptFor(g: Graph, rank: seq<nat>, root: nat, g0: Graph, vals: seq<Values.Vals>, oval: seq<nat>, p: Packet)
    requires Ranked(g, rank) && root < |g|
  {
    Calm(g, Reach(g, rank, root)) && Fits(g, rank, root, g0, vals, oval, p)
  }

  /** A condition on the graph alone that suffices for all packets. */
  ghost predicate KeptAll(g: Graph, rank: seq<nat>, root: nat)
    requires Ranked(g, rank) && root < |g|
  {
    Calm(g, Reach(g, rank, root)) && AllAlike(g, rank, root)
  }

  lemma KeptForAll(g: Graph, rank: seq<nat>, root: nat, inEdges: seq<seq<nat>>, outUse: seq<set<nat>>, t: seq<Values.Expr>,
                   gm: Graph, g0: Graph, vals: seq<Values.Vals>, oval: seq<nat>)
    requires AllFinished(g, rank, root, inEdges, outUse, t, gm, g0, vals, oval) && Ranked(g, rank) && root < |g| && KeptAll(g, rank, root)
    ensures forall p :: KeptFor(g, rank, root, g0, vals, oval, p)
  {
    hide AllFinished, AllAlike, Fits, Reach, Calm;
    forall p ensures KeptFor(g, rank, root, g0, vals, oval, p) {
      AlikeFits(g, rank, root, inEdges, outUse, t, gm, g0, vals, oval, p);
    }
  }

  /** Moves branches of the finished graph. */
  method Sweep(graph: Graph, root: nat, ghost rank: seq<nat>, g0: Graph, vals: seq<Values.Vals>, oval: seq<nat>, outUse: seq<set<nat>>,
               edom: BitSets.Family, levels: seq<seq<nat>>, top: nat, ghost inEdges: seq<seq<nat>>, ghost t: seq<Values.Expr>, ghost gm: Graph,
               ghost lv: seq<nat>)
    returns (g': Graph)
    requires AllFinished(graph, rank, root, inEdges, outUse, t, gm, g0, vals, oval) && Ranked(graph, rank) && root < |graph|
    requires Ranked(graph, lv) && Reach(graph, lv, root) == Reach(graph, rank, root) && top == lv[root]
    requires Analysis.Listed(graph, lv, levels, Reach(graph, rank, root)) && |outUse| == |graph|
    requires edom.words.Length0 == 2 * |graph| <= edom.Capacity()
    requires forall f, e :: 0 <= f < 2 * |graph| && 0 <= e < edom.Capacity() ==> (e in edom.Rows()[f] <==> EdgeDominates(graph, root, e, f))
    ensures Ranked(g', lv) && SameBlocks(g0, g') && root < |g'|
    ensures Careful(g0, g', vals, outUse) && Exhausted(graph, root, g0, g', vals, oval, outUse, Reach(graph, rank, root))
    ensures forall p, r :: KeptFor(graph, rank, root, g0, vals, oval, p) ==> Walk(g', lv, root, p, r) == Walk(graph, rank, root, p, r)
  {
    hide AllFinished, FactsOf, Concurs, Ordered, ClosedUnder, Reach, Ranked, Walk, KeptFor, Analysis.Listed, EdgeDominates, RowSound, SettledAll,
      WellFormed, ValuePass.ShapeKept, Fits, Calm, Swapped, Exhausted, Careful;
    ghost var f := FactsOf(graph, rank, root, g0, vals, oval);
    FinishedShape(graph, rank, root, inEdges, outUse, t, gm, g0, vals, oval);
    ValuePass.KeptRanked(graph, g0, lv);
    FinishedOrdered(graph, g0, root, lv, levels);
    FinishedClosed(graph, g0, lv, root);
    FinishedConcurs(graph, rank, lv, root, inEdges, outUse, t, gm, g0, vals, oval);
    FactsAre(graph, rank, root, g0, vals, oval, Packet(map[], ZERO));
    var mover := new Mover(g0, root, vals, oval, outUse, edom, lv, f);
    FinishedRows(graph, rank, lv, root, inEdges, outUse, t, gm, g0, vals, oval, edom.Rows());
    mover.MoveBranches(levels, top);
    g' := mover.g;
    RankedShape(graph, rank);
    RankedShape(g0, lv);
    AllStuck(graph, root, g0, g', vals, oval, outUse, edom.Rows(), Reach(graph, rank, root));
    forall p, r | KeptFor(graph, rank, root, g0, vals, oval, p) ensures Walk(g', lv, root, p, r) == Walk(graph, rank, root, p, r) {
      SweptWalk(graph, rank, lv, root, inEdges, outUse, t, gm, g0, vals, oval, g', p, r);
    }
  }

  lemma SweptWalk(graph: Graph, rank: seq<nat>, lv: seq<nat>, root: nat, inEdges: seq<seq<nat>>, outUse: seq<set<nat>>, t: seq<Values.Expr>,
                  gm: Graph, g0: Graph, vals: seq<Values.Vals>, oval: seq<nat>, g': Graph, p: Packet, r: Regs)
    requires AllFinished(graph, rank, root, inEdges, outUse, t, gm, g0, vals, oval)
    requires Ranked(graph, rank) && Ranked(g0, lv) && Ranked(g', lv) && root < |graph| == |g0| == |g'|
    requires KeptFor(graph, rank, root, g0, vals, oval, p) && ClosedUnder(g0, root, Reach(graph, rank, root))
    requires var f := FactsOf(graph, rank, root, g0, vals, oval);
      ValuePass.BlockLocal(g0, f.live) ==> forall p, r :: p in f.pkts ==> Walk(g', lv, root, p, r) == Walk(g0, lv, root, p, r)
    ensures Walk(g', lv, root, p, r) == Walk(graph, rank, root, p, r)
  {
    FinishedShape(graph, rank, root, inEdges, outUse, t, gm, g0, vals, oval);
    hide AllFinished, FactsOf, Calm, Fits, Reach, Ranked, Walk, ClosedUnder, SameWays, Swapped, Visits, ValuePass.ShapeKept;
    FactsAre(graph, rank, root, g0, vals, oval, p);
    FitsGoes(graph, rank, root, inEdges, outUse, t, gm, g0, vals, oval, p);
    FinishedWalk(graph, rank, root, inEdges, outUse, t, gm, g0, vals, oval, p, r);
    WalkAnyRank(g0, rank, lv, root, p, r);
  }

  /** One pass of branch movement over any acyclic graph: the analyses, the treatment of every block, and the sweep. No
      result changes of a packet for which the condition holds. */
  method MoveBranchesOf(graph: Graph, root: nat, hash: Values.Expr -> nat, ghost rank: seq<nat>)
    returns (g': Graph, ok: bool, ghost lv: seq<nat>, ghost inEdges: seq<seq<nat>>, ghost outUse: seq<set<nat>>, ghost t: seq<Values.Expr>,
             ghost gm: Graph, ghost g0: Graph, ghost vals: seq<Values.Vals>, ghost oval: seq<nat>)
    requires Ranked(graph, rank) && root < |graph|
    ensures ok ==> Ranked(g', lv) && AllFinished(graph, rank, root, inEdges, outUse, t, gm, g0, vals, oval)
    ensures ok ==> SameBlocks(g0, g') && Careful(g0, g', vals, outUse)
    ensures ok ==> |g'| == |graph| && Exhausted(graph, root, g0, g', vals, oval, outUse, Reach(graph, rank, root))
    ensures ok ==> forall p, r :: KeptFor(graph, rank, root, g0, vals, oval, p) ==> Walk(g', lv, root, p, r) == Walk(graph, rank, root, p, r)
    ensures ok && KeptAll(graph, rank, root) ==>
      forall p, r :: Walk(g', lv, root, p, r) == Walk(graph, rank, root, p, r)
    ensures ValuePass.AllAccepted(graph, Reach(graph, rank, root), false) ==> ok
  {
    hide AllFinished, Reach, Ranked, Walk, KeptFor, KeptAll, Analysis.Listed, Analysis.InEdges, EdgeDominates, Liveness.LiveExactAt, Liveness.Live,
      ValuePass.AllAccepted, ValuePass.ShapeKept, Exhausted, Careful;
    var flow := new Analysis.FlowState(graph, root, rank);
    flow.FindLevels();
    lv := ExtendLevels(graph, rank, flow.level, flow.levels, root);
    var inU, outU := Liveness.FindUd(graph, flow.level, flow.levels, root, rank);
    flow.FindEdom();
    var inE := flow.FindInedges();
    var finished, exit, operands;
    finished, exit, operands, ok, gm, t := TreatAll(flow, inE, inU, outU, hash);
    g', inEdges, outUse, g0, vals, oval := finished, inE, outU, finished, exit, operands;
    if !ok { return; }
    FinishedShape(graph, rank, root, inE, outU, t, gm, finished, exit, operands);
    g' := Sweep(graph, root, rank, finished, exit, operands, outU, flow.edom, flow.levels, flow.level[root], inE, t, gm, lv);
    if KeptAll(graph, rank, root) { KeptForAll(graph, rank, root, inE, outU, t, gm, finished, exit, operands); }
  }

  lemma DomIsExact(g: Graph, rank: seq<nat>, root: nat, dom: BitSets.Family)
    requires Ranked(g, rank) && dom.words.Length0 == |g| <= dom.Capacity()
    requires forall c, a :: 0 <= c < |g| && 0 <= a < dom.Capacity() ==> (a in dom.Rows()[c] <==> Dominates(g, root, a, c))
    ensures Pullup.DomExact(g, root, dom.Rows())
  {
  }

  /** A block that an edge out of a reachable block leads to is reachable. */
  lemma EnteredReach(g: Graph, rank: seq<nat>, root: nat, inEdges: seq<seq<nat>>, b: nat)
    requires Ranked(g, rank) && root < |g| && b < |g| && Analysis.InEdges(g, inEdges, Reach(g, rank, root)) && inEdges[b] != []
    ensures b in Reach(g, rank, root)
  {
    var e := inEdges[b][0];
    assert e in inEdges[b];
    ReachClosed(g, rank, root);
    RankedAt(g, rank, EdgeSource(g, e));
    hide Reach;
  }

  lemma NotEntered(g: Graph, root: nat, live: set<nat>, inEdges: seq<seq<nat>>, vals: seq<Values.Vals>, b: nat, sense: bool)
    requires WellFormed(g) && b < |g| == |vals| && Analysis.InEdges(g, inEdges, live) && inEdges[b] == []
    ensures forall v, f, s :: !Pullup.PullFound(g, root, live, vals, b, sense, v, f, s)
  {
    hide Pullup.ChainTo;
    forall f ensures !PredEdge(g, live, f, b) { assert f !in inEdges[b]; }
  }

  /** Pulls up what can be pulled up to block b of any acyclic graph whose blocks define what they use, whatever numbers
      the blocks have. No packet's result changes. */
  method PullUpTo(graph: Graph, root: nat, b: nat, sense: bool, vals: seq<Values.Vals>, ghost rank: seq<nat>)
    returns (g': Graph, pulled: bool, ghost val: nat, ghost first: seq<nat>, ghost second: seq<nat>, ghost rank': seq<nat>)
    requires Ranked(graph, rank) && root < |graph| == |vals| && b < |graph| && graph[b].s.Jmp?
    ensures Ranked(g', rank') && |g'| == |graph|
    ensures !pulled ==> g' == graph && forall v, f, s :: !Pullup.PullFound(graph, root, Reach(graph, rank, root), vals, b, sense, v, f, s)
    ensures pulled ==>
      && Pullup.PullFound(graph, root, Reach(graph, rank, root), vals, b, sense, val, first, second)
      && Pullup.Pulled(graph, g', Reach(graph, rank, root), sense, first[|first| - 1], second[|second| - 1])
    ensures ValuePass.BlockLocal(graph, Reach(graph, rank, root)) ==>
      forall p, r :: Walk(g', rank', root, p, r) == Walk(graph, rank, root, p, r)
  {
    var flow := new Analysis.FlowState(graph, root, rank);
    flow.FindLevels();
    flow.FindDom();
    var inEdges := flow.FindInedges();
    hide Walk, ValuePass.BlockLocal, Analysis.InEdges, Analysis.Listed, Reach, Dominates, WellFormed, Ranked;
    g', pulled, val, first, second, rank' := graph, false, 0, [], [], rank;
    if inEdges[b] == [] {
      NotEntered(graph, root, Reach(graph, rank, root), inEdges, vals, b, sense);
      return;
    }
    EnteredReach(graph, rank, root, inEdges, b);
    DomIsExact(graph, rank, root, flow.dom);
    var puller := new Pullup.Puller(graph, root, vals, flow.dom, inEdges);
    pulled, val, first, second, rank' := puller.Pull(b, sense, rank);
    g' := puller.g;
  }
}
