/**
 What the sweep that moves branches may rely on, in a graph whose blocks have been numbered and
 finished, and for which packets.

 Numbers and edge dominators describe the graph as it was before its blocks were finished. A
 finished block may compare something else than what its number for A denotes, and may have its
 two edges exchanged.
 */
module SweepFacts {
  import opened Machine
  import opened Flow
  import opened Liveness
  import opened Values
  import opened ValuePass
  import opened Peephole
  import opened Local
  import opened Dominance
  import opened BranchMove
  import Words

  // ---------------------------------------------------------------------------------------
  // The condition
  // ---------------------------------------------------------------------------------------

  /** No block loses an X that it uses after an indexed load. */
  ghost predicate KeepsIndexes(g: Graph, live: set<nat>) {
    forall b :: b in live && b < |g| && g[b].s.Jmp? ==> KeepsIndex(g[b], {})
  }

  ghost predicate Calm(g: Graph, live: set<nat>) {
    BlockLocal(g, live) && KeepsIndexes(g, live)
  }

  /** The packet passes no block of g that is misjudged. And wherever it passes two blocks with the same number and, in the
      finished graph g', the same test, the first has not exchanged its edges, and what its outcome is taken to say about
      the second is true. */
  ghost predicate Fits(g: Graph, rank: seq<nat>, root: nat, g': Graph, vals: seq<Vals>, oval: seq<nat>, p: Packet) {
    && Ranked(g, rank) && root < |g| == |g'| == |vals| == |oval|
    && (forall b :: b in Visits(g, rank, root, p) && g[b].s.Jmp? ==> !MisjudgedFor(g[b], p))
    && (forall b: nat, c: nat :: Passes(g, rank, root, p, b, c) && Infers(g', vals, b, c) ==>
          !Swaps(g[b], {}) && InfersRight(g', oval, b, c, p))
  }

  // ---------------------------------------------------------------------------------------
  // The finished blocks
  // ---------------------------------------------------------------------------------------

  /** The blocks have been numbered and finished, with nothing live on exit from any. */
  ghost predicate AllFinished(g: Graph, rank: seq<nat>, root: nat, inEdges: seq<seq<nat>>, outUse: seq<set<nat>>, t: seq<Expr>,
                           gm: Graph, g': Graph, vals: seq<Vals>, oval: seq<nat>)
  {
    && Entered(g, rank, root, inEdges)
    && PassInv(g, rank, root, inEdges, outUse, false, t, g, gm, g', vals, oval, Reach(g, rank, root))
    && |g'| == |vals| == |g| == |outUse| && Ranked(g', rank)
    && (BlockLocal(g, Reach(g, rank, root)) ==> forall b :: b in Reach(g, rank, root) ==> outUse[b] == {})
  }

  /** How the finished block b branches, for any packet. */
  lemma FinishedBlock(g: Graph, rank: seq<nat>, root: nat, inEdges: seq<seq<nat>>, outUse: seq<set<nat>>, t: seq<Expr>,
                      gm: Graph, g': Graph, vals: seq<Vals>, oval: seq<nat>, b: nat, p: Packet)
    requires AllFinished(g, rank, root, inEdges, outUse, t, gm, g', vals, oval) && Calm(g, Reach(g, rank, root))
    requires b in Reach(g, rank, root)
    ensures |g'| == |vals| == |oval| == |g| && Table(t) && BlockUses(g'[b]) == {}
    ensures g[b].s.Jmp? ==> FinishedAs(g[b], g'[b], t, vals[b][A_ATOM], oval[b], IsConst(t, vals[b][X_ATOM]), p)
  {
    assert BlockUses(g[b]) == {} && outUse[b] == {} && (g[b].s.Jmp? ==> KeepsIndex(g[b], {}));
    LocalKnown(g, rank, root, inEdges, vals);
    assert AllTreated(g, rank, root, inEdges, outUse, false, t, g, gm, g', vals, oval);
    hide *;
    TreatedAt(g, rank, root, inEdges, outUse, false, t, g, gm, g', vals, oval, b);
    FinishedLocal(g, rank, root, inEdges, outUse, t, g, gm, g', vals, oval, b);
    if g[b].s.Jmp? { NumberingIsExact(g, rank, root, inEdges, outUse, t, g, gm, g', vals, oval, b, p); }
  }

  lemma FinishedShape(g: Graph, rank: seq<nat>, root: nat, inEdges: seq<seq<nat>>, outUse: seq<set<nat>>, t: seq<Expr>,
                      gm: Graph, g': Graph, vals: seq<Vals>, oval: seq<nat>)
    requires AllFinished(g, rank, root, inEdges, outUse, t, gm, g', vals, oval)
    ensures Ranked(g, rank) && Ranked(g', rank) && root < |g| == |g'| == |vals| == |oval| && Table(t)
    ensures forall c :: 0 <= c < |g| ==> ShapeKept(g[c], g'[c])
  {
    forall c | 0 <= c < |g| ensures ShapeKept(g[c], g'[c]) {
      TreatedShape(g, rank, root, inEdges, outUse, false, t, g, gm, g', vals, oval, c);
    }
  }

  // ---------------------------------------------------------------------------------------
  // The facts
  // ---------------------------------------------------------------------------------------

  ghost function Swapped(g: Graph, live: set<nat>): set<nat> {
    set b | b in live && b < |g| && Swaps(g[b], {})
  }

  ghost function FactsOf(g: Graph, rank: seq<nat>, root: nat, g': Graph, vals: seq<Vals>, oval: seq<nat>): Facts
    requires Ranked(g, rank) && root < |g|
  {
    var live := Reach(g, rank, root);
    if Calm(g, live) then Facts(live, Swapped(g, live), iset p | Fits(g, rank, root, g', vals, oval, p)) else Facts(live, {}, iset{})
  }

  lemma FactsAre(g: Graph, rank: seq<nat>, root: nat, g': Graph, vals: seq<Vals>, oval: seq<nat>, p: Packet)
    requires Ranked(g, rank) && root < |g|
    ensures var f, live := FactsOf(g, rank, root, g', vals, oval), Reach(g, rank, root);
      && f.live == live && (Calm(g, live) ==> f.swapped == Swapped(g, live))
      && (p in f.pkts <==> Calm(g, live) && Fits(g, rank, root, g', vals, oval, p))
  {
  }

  // ---------------------------------------------------------------------------------------
  // Routes and dominators
  // ---------------------------------------------------------------------------------------

  /** On the packet's way, the finished blocks send it where the blocks did, through the other edge where edges are
      exchanged. */
  ghost predicate SameWays(g: Graph, g': Graph, way: set<nat>, swapped: set<nat>, p: Packet)
    requires |g'| == |g|
  {
    forall b :: b in way && b < |g| ==>
      && g'[b].s.Ret? == g[b].s.Ret? && (g[b].s.Ret? ==> g'[b].s == g[b].s)
      && (g[b].s.Jmp? ==> NextOf(g'[b], p) == NextOf(g[b], p) && Decide(g'[b], p) == (Decide(g[b], p) != (b in swapped)))
  }

  lemma {:induction false} RouteSame(g: Graph, g': Graph, rank: seq<nat>, way: set<nat>, swapped: set<nat>, b: nat, p: Packet)
    requires Ranked(g, rank) && Ranked(g', rank) && |g'| == |g| && b < |g| && Visits(g, rank, b, p) <= way && SameWays(g, g', way, swapped, p)
    ensures Route(g', rank, b, p) == Route(g, rank, b, p) && Visits(g', rank, b, p) == Visits(g, rank, b, p)
    decreases rank[b]
  {
    if !g[b].s.Ret? {
      RankedAt(g, rank, b);
      RouteSame(g, g', rank, way, swapped, NextOf(g[b], p), p);
    }
  }

  /** The edge of the original graph that a packet takes when it takes e in the finished one. */
  ghost function Unswap(g: Graph, swapped: set<nat>, e: nat): nat
    requires e < 2 * |g|
  {
    if EdgeSource(g, e) !in swapped then e else if e < |g| then e + |g| else e - |g|
  }

  lemma UnswapTarget(g: Graph, g': Graph, way: set<nat>, swapped: set<nat>, e: nat, p: Packet)
    requires WellFormed(g) && WellFormed(g') && |g'| == |g| && SameWays(g, g', way, swapped, p) && e < 2 * |g| && EdgeSource(g, e) in way
    requires var q := EdgeSource(g', e); g'[q].s.Jmp? && Decide(g'[q], p) == Sense(g', e)
    ensures Unswap(g, swapped, e) < 2 * |g| && EdgeSource(g, Unswap(g, swapped, e)) == EdgeSource(g, e)
    ensures EdgeTarget(g, Unswap(g, swapped, e)) == EdgeTarget(g', e)
  {
    var q := EdgeSource(g, e);
    assert NextOf(g'[q], p) == NextOf(g[q], p);
    hide Decide;
  }

  /** The packet's way in the original graph, but for the last edge. */
  ghost function UnswapAll(g: Graph, swapped: set<nat>, es: seq<nat>): seq<nat>
    requires |es| > 0 && forall i :: 0 <= i < |es| ==> es[i] < 2 * |g|
  {
    var n := |es| - 1;
    seq(n, (i: nat) requires i < n => Unswap(g, swapped, es[i])) + [es[n]]
  }

  lemma UnswapAt(g: Graph, g': Graph, rank: seq<nat>, root: nat, way: set<nat>, swapped: set<nat>, es: seq<nat>, i: nat, p: Packet)
    requires WellFormed(g) && Ranked(g', rank) && root < |g'| == |g| && Visits(g', rank, root, p) <= way && SameWays(g, g', way, swapped, p)
    requires Travels(g', root, es, p) && i < |es| - 1
    ensures var u := Unswap(g, swapped, es[i]);
      u < 2 * |g| && EdgeSource(g, u) == EdgeSource(g, es[i]) && EdgeTarget(g, u) == EdgeSource(g, es[i + 1])
  {
    hide SameWays, Unswap, Decide, WellFormed, Ranked, Visits;
    RankedShape(g', rank);
    TravelsVisits(g', rank, root, es, i, p);
    UnswapTarget(g, g', way, swapped, es[i], p);
    assert EdgeTarget(g', es[i + 1 - 1]) == EdgeSource(g', es[i + 1]);
  }

  lemma UnswapPath(g: Graph, g': Graph, rank: seq<nat>, root: nat, way: set<nat>, swapped: set<nat>, es: seq<nat>, p: Packet)
    requires WellFormed(g) && Ranked(g', rank) && root < |g'| == |g| && Visits(g', rank, root, p) <= way && SameWays(g, g', way, swapped, p)
    requires Travels(g', root, es, p)
    ensures EdgePathTo(g, root, UnswapAll(g, swapped, es), es[|es| - 1])
  {
    hide SameWays, Unswap, Decide, WellFormed, EdgeTarget, Ranked, Visits;
    var n, us := |es| - 1, UnswapAll(g, swapped, es);
    forall i | 0 <= i < n
      ensures us[i] < 2 * |g| && EdgeSource(g, us[i]) == EdgeSource(g, es[i]) && EdgeTarget(g, us[i]) == EdgeSource(g, es[i + 1])
    {
      UnswapAt(g, g', rank, root, way, swapped, es, i, p);
    }
    forall i | 0 < i < |us| ensures EdgeTarget(g, us[i - 1]) == EdgeSource(g, us[i]) {
      assert EdgeTarget(g, us[i - 1]) == EdgeSource(g, es[i]);
    }
  }

  lemma UnswapSource(g: Graph, swapped: set<nat>, es: seq<nat>, i: nat)
    requires |es| > 0 && (forall j :: 0 <= j < |es| ==> es[j] < 2 * |g|) && i < |es|
    ensures var us := UnswapAll(g, swapped, es);
      |us| == |es| && us[i] < 2 * |g| && EdgeSource(g, us[i]) == EdgeSource(g, es[i]) && (EdgeSource(g, us[i]) !in swapped ==> us[i] == es[i])
  {
  }

  /** The block of an edge that dominates e in the original graph comes before e on the packet's way in the finished graph;
      and so does the edge, unless its block has exchanged edges. */
  lemma DominatorTravels(g: Graph, g': Graph, rank: seq<nat>, root: nat, way: set<nat>, swapped: set<nat>, k: nat, e: nat, p: Packet)
    requires WellFormed(g) && Ranked(g', rank) && root < |g'| == |g| && Visits(g', rank, root, p) <= way && SameWays(g, g', way, swapped, p)
    requires EdgeDominates(g, root, k, e) && k < 2 * |g|
    ensures TravelPasses(g', root, EdgeSource(g, k), e, p)
    ensures EdgeSource(g, k) !in swapped ==> TravelDominates(g', root, k, e, p)
  {
    hide SameWays, WellFormed, Decide, EdgeTarget, Ranked, Visits;
    RankedShape(g', rank);
    forall es | Travels(g', root, es, p) && es[|es| - 1] == e ensures Leaves(g', es, EdgeSource(g, k)) && (EdgeSource(g, k) !in swapped ==> k in es) {
      var us := UnswapAll(g, swapped, es);
      UnswapPath(g, g', rank, root, way, swapped, es, p);
      hide Travels, EdgePathTo;
      assert k in us;
      var i :| 0 <= i < |us| && us[i] == k;
      UnswapSource(g, swapped, es, i);
      assert EdgeSource(g', es[i]) == EdgeSource(g, k);
      assert EdgeSource(g, k) !in swapped ==> es[i] == k;
    }
  }

  /** An edge that dominates a reachable edge is an edge out of a reachable block, not below it. */
  lemma DominatorAbove(g: Graph, rank: seq<nat>, root: nat, k: nat, e: nat)
    requires Ranked(g, rank) && root < |g| && e < 2 * |g| && EdgeSource(g, e) in Reach(g, rank, root) && EdgeDominates(g, root, k, e)
    ensures k < 2 * |g| && EdgeSource(g, k) in Reach(g, rank, root) && rank[EdgeSource(g, e)] <= rank[EdgeSource(g, k)]
  {
    var es := ReachHasEdgePath(g, rank, root, e);
    var i :| 0 <= i < |es| && es[i] == k;
    ReachClosed(g, rank, root);
    EdgePathLive(g, root, Reach(g, rank, root), es, i);
    if i < |es| - 1 { PathDescends(g, rank, root, es, i, |es| - 1); }
  }

  /** A packet that fits goes the same ways. */
  lemma FitsGoes(g: Graph, rank: seq<nat>, root: nat, inEdges: seq<seq<nat>>, outUse: seq<set<nat>>, t: seq<Expr>,
                 gm: Graph, g': Graph, vals: seq<Vals>, oval: seq<nat>, p: Packet)
    requires AllFinished(g, rank, root, inEdges, outUse, t, gm, g', vals, oval)
    requires Ranked(g, rank) && Ranked(g', rank) && root < |g| == |g'| && Calm(g, Reach(g, rank, root)) && Fits(g, rank, root, g', vals, oval, p)
    ensures SameWays(g, g', Visits(g, rank, root, p), Swapped(g, Reach(g, rank, root)), p) && BlockLocal(g', Reach(g, rank, root))
    ensures Route(g', rank, root, p) == Route(g, rank, root, p) && Visits(g', rank, root, p) == Visits(g, rank, root, p)
  {
    var live, way := Reach(g, rank, root), Visits(g, rank, root, p);
    FinishedShape(g, rank, root, inEdges, outUse, t, gm, g', vals, oval);
    VisitsReach(g, rank, root, p);
    hide AllFinished, Calm, ExactFor, Reach, Table, IsConst, Swaps, MisjudgedFor, BlockUses, Ranked, Visits, Infers, InfersRight, Passes;
    forall b | b in live && b < |g|
      ensures BlockUses(g'[b]) == {}
      ensures b in way && g[b].s.Jmp? ==> NextOf(g'[b], p) == NextOf(g[b], p) && Decide(g'[b], p) == (Decide(g[b], p) != Swaps(g[b], {}))
    {
      FinishedBlock(g, rank, root, inEdges, outUse, t, gm, g', vals, oval, b, p);
    }
    hide Fits, ShapeKept;
    assert SameWays(g, g', way, Swapped(g, live), p) by { WaysSame(g, g', way, live, p); }
    hide SameWays;
    RouteSame(g, g', rank, way, Swapped(g, live), root, p);
  }

  lemma WaysSame(g: Graph, g': Graph, way: set<nat>, live: set<nat>, p: Packet)
    requires |g'| == |g| && way <= live && forall c :: 0 <= c < |g| ==> ShapeKept(g[c], g'[c])
    requires forall b :: b in live && b < |g| && b in way && g[b].s.Jmp? ==>
      g'[b].s.Jmp? && NextOf(g'[b], p) == NextOf(g[b], p) && Decide(g'[b], p) == (Decide(g[b], p) != Swaps(g[b], {}))
    ensures SameWays(g, g', way, Swapped(g, live), p)
  {
    hide Swaps, Decide, NextOf;
  }

  /** What edges of the finished graph decide is true of a packet that fits. */
  lemma FitsConcurs(g: Graph, rank: seq<nat>, lv: seq<nat>, root: nat, g': Graph, vals: seq<Vals>, oval: seq<nat>, live: set<nat>, p: Packet)
    requires Ranked(g, rank) && Ranked(g', rank) && Ranked(g', lv) && root < |g| == |g'| && Fits(g, rank, root, g', vals, oval, p)
    requires live == Reach(g, rank, root) && SameWays(g, g', Visits(g, rank, root, p), Swapped(g, live), p)
    ensures ConcursFor(g', lv, root, vals, oval, Swapped(g, live), p)
  {
    hide Ranked, Visits, InfersRight, Swaps, SameWays, MisjudgedFor, Reach;
    var way := Visits(g, rank, root, p);
    RouteSame(g, g', rank, way, Swapped(g, live), root, p);
    VisitsAnyRank(g', rank, lv, root, p);
    forall b: nat, c: nat | Passes(g', lv, root, p, b, c) && Infers(g', vals, b, c) ensures b !in Swapped(g, live) && InfersRight(g', oval, b, c, p) {
      VisitsOn(g, rank, root, b, p);
      RouteSame(g, g', rank, way, Swapped(g, live), b, p);
      VisitsAnyRank(g', rank, lv, b, p);
      assert Passes(g, rank, root, p, b, c);
    }
  }

  // ---------------------------------------------------------------------------------------
  // What it takes for a packet to fit
  // ---------------------------------------------------------------------------------------

  /** What each block's branch takes over. */
  ghost function ShiftOf(g: Graph, t: seq<Expr>, vals: seq<Vals>, b: nat, p: Packet): Word
    requires |vals| == |g|
  {
    if b < |g| then Shift(g[b], IsConst(t, vals[b][X_ATOM]), p) else ZERO
  }

  /** If two blocks with the same number have taken over the same, what one decides about the other is true. */
  lemma AlikeInfers(g': Graph, t: seq<Expr>, vals: seq<Vals>, oval: seq<nat>, shift: Word, b: nat, c: nat, p: Packet)
    requires |vals| == |oval| == |g'| && b < |g'| && c < |g'| && Table(t) && Infers(g', vals, b, c)
    requires ExactFor(g'[b], t, vals[b][A_ATOM], oval[b], shift, p) && ExactFor(g'[c], t, vals[c][A_ATOM], oval[c], shift, p)
    ensures InfersRight(g', oval, b, c, p)
  {
    hide Alu, Decide, Table;
    if oval[b] != oval[c] && g'[c].s.src == SrcK { ConstInjective(t, oval[b], oval[c]); }
  }

  /** Two finished tests for equality, of the same number, with the same operand, agree on a packet exactly if the blocks
      have taken over the same, or the operand is neither what the one nor what the other compares. */
  lemma AgreesExactly(g: Graph, rank: seq<nat>, root: nat, inEdges: seq<seq<nat>>, outUse: seq<set<nat>>, t: seq<Expr>,
                      gm: Graph, g': Graph, vals: seq<Vals>, oval: seq<nat>, b: nat, c: nat, p: Packet)
    requires AllFinished(g, rank, root, inEdges, outUse, t, gm, g', vals, oval) && Ranked(g, rank) && root < |g| && Calm(g, Reach(g, rank, root))
    requires b in Reach(g, rank, root) && c in Reach(g, rank, root) && |g'| == |vals| == |oval| == |g| && g[b].s.Jmp? && g[c].s.Jmp?
    requires g'[b].s.Jmp? && g'[c].s.Jmp? && g'[b].s.cmp == Jeq && Infers(g', vals, b, c) && oval[b] == oval[c]
    ensures Table(t) && 0 < oval[b] <= |t|
    ensures var a, k := Exit(g[b], p)[A_ATOM], Den(t, oval[b], p);
      var left, right := Alu(Add, a, ShiftOf(g, t, vals, b, p)), Alu(Add, a, ShiftOf(g, t, vals, c, p));
      InfersRight(g', oval, b, c, p) <==> ShiftOf(g, t, vals, b, p) == ShiftOf(g, t, vals, c, p) || (k != left && k != right)
  {
    hide AllFinished, Calm, Reach, Ranked, Shift, Swaps, MisjudgedFor, Alu, BlockUses, Table, Decide;
    FinishedBlock(g, rank, root, inEdges, outUse, t, gm, g', vals, oval, b, p);
    FinishedBlock(g, rank, root, inEdges, outUse, t, gm, g', vals, oval, c, p);
    Words.SumInjective(Exit(g[b], p)[A_ATOM], ShiftOf(g, t, vals, b, p), ShiftOf(g, t, vals, c, p));
  }

  /** Both blocks leave the same in A, for every packet. */
  ghost predicate SameA(b: Block, c: Block) {
    forall p :: Exit(b, p)[A_ATOM] == Exit(c, p)[A_ATOM]
  }

  /** The blocks take over the same, whatever is known; and not the one a mask while the other tests bits. */
  ghost predicate Alike(b: Block, c: Block) {
    && (forall p, constX, constX' :: Shift(b, constX, p) == Shift(c, constX', p))
    && (Swaps(b, {}) ==> !Swaps(c, {}) && (c.s.Jmp? ==> c.s.cmp != Jset))
  }

  /** A condition on the graph alone: no block tests all bits of A between two successors, and of two blocks one of which
      comes after the other, and that leave the same in A, both take over the same. */
  ghost predicate AllAlike(g: Graph, rank: seq<nat>, root: nat)
    requires Ranked(g, rank) && root < |g|
  {
    && (forall b :: b in Reach(g, rank, root) && g[b].s.Jmp? ==> MasksAll(g[b], {}) ==> g[b].stmts == [] || g[b].jt == g[b].jf)
    && (forall b, c :: b in Reach(g, rank, root) && c in Reach(g, rank, b) && c != b && g[b].s.Jmp? && g[c].s.Jmp? && SameA(g[b], g[c]) ==>
          Alike(g[b], g[c]))
  }

  /** Then every packet fits. */
  lemma AlikeFits(g: Graph, rank: seq<nat>, root: nat, inEdges: seq<seq<nat>>, outUse: seq<set<nat>>, t: seq<Expr>,
                  gm: Graph, g': Graph, vals: seq<Vals>, oval: seq<nat>, p: Packet)
    requires AllFinished(g, rank, root, inEdges, outUse, t, gm, g', vals, oval) && Ranked(g, rank) && root < |g| && Calm(g, Reach(g, rank, root))
    requires AllAlike(g, rank, root)
    ensures Fits(g, rank, root, g', vals, oval, p)
  {
    FinishedShape(g, rank, root, inEdges, outUse, t, gm, g', vals, oval);
    VisitsReach(g, rank, root, p);
    hide AllFinished, Calm, Reach, Ranked, Visits, InfersRight, AllAlike, Swaps, MisjudgedFor, ShapeKept;
    forall b | b in Visits(g, rank, root, p) && g[b].s.Jmp? ensures !MisjudgedFor(g[b], p) { AlikeJudged(g, rank, root, b, p); }
    forall b: nat, c: nat | Passes(g, rank, root, p, b, c) && Infers(g', vals, b, c) ensures !Swaps(g[b], {}) && InfersRight(g', oval, b, c, p) {
      VisitsOn(g, rank, root, b, p);
      VisitsReach(g, rank, b, p);
      PairFits(g, rank, root, inEdges, outUse, t, gm, g', vals, oval, b, c, p);
    }
  }

  lemma AlikeJudged(g: Graph, rank: seq<nat>, root: nat, b: nat, p: Packet)
    requires Ranked(g, rank) && root < |g| && AllAlike(g, rank, root) && b in Reach(g, rank, root) && g[b].s.Jmp?
    ensures !MisjudgedFor(g[b], p)
  {
    hide Reach, Ranked, MasksAll, Run, SameA, Alike;
  }

  lemma PairFits(g: Graph, rank: seq<nat>, root: nat, inEdges: seq<seq<nat>>, outUse: seq<set<nat>>, t: seq<Expr>,
                 gm: Graph, g': Graph, vals: seq<Vals>, oval: seq<nat>, b: nat, c: nat, p: Packet)
    requires AllFinished(g, rank, root, inEdges, outUse, t, gm, g', vals, oval) && Ranked(g, rank) && root < |g| && Calm(g, Reach(g, rank, root))
    requires AllAlike(g, rank, root) && |g'| == |vals| == |oval| == |g|
    requires b in Reach(g, rank, root) && c in Reach(g, rank, root) && c in Reach(g, rank, b) && c != b && Infers(g', vals, b, c)
    ensures !Swaps(g[b], {}) && InfersRight(g', oval, b, c, p)
  {
    FinishedShape(g, rank, root, inEdges, outUse, t, gm, g', vals, oval);
    assert ShapeKept(g[b], g'[b]) && ShapeKept(g[c], g'[c]);
    hide AllFinished, Calm, Reach, Ranked, Shift, Swaps, MisjudgedFor, ExactFor, MasksAll, Table, BlockUses, InfersRight;
    forall q ensures Exit(g[b], q)[A_ATOM] == Exit(g[c], q)[A_ATOM] {
      FinishedBlock(g, rank, root, inEdges, outUse, t, gm, g', vals, oval, b, q);
      FinishedBlock(g, rank, root, inEdges, outUse, t, gm, g', vals, oval, c, q);
    }
    assert SameA(g[b], g[c]) && Alike(g[b], g[c]);
    FinishedBlock(g, rank, root, inEdges, outUse, t, gm, g', vals, oval, b, p);
    FinishedBlock(g, rank, root, inEdges, outUse, t, gm, g', vals, oval, c, p);
    AlikeInfers(g', t, vals, oval, ShiftOf(g, t, vals, b, p), b, c, p);
  }

  /** A simpler condition: no branch takes over a statement, and none tests all bits of A between two successors. */
  ghost predicate PlainTests(g: Graph, live: set<nat>) {
    forall b :: b in live && b < |g| && g[b].s.Jmp? ==>
      && !TakesOver(g[b].s, LastSeen(g[b].stmts), {}, true)
      && (g[b].s == Jmp(Jset, SrcK, ONES) ==> g[b].stmts == [] || g[b].jt == g[b].jf)
  }

  lemma NothingTakenOver(s: Branch, c: Stmt)
    requires !TakesOver(s, c, {}, true)
    ensures forall constX, r :: Subtrahend(s, c, {}, constX, r) == ZERO
    ensures !TakesMask(s, c, {})
  {
  }

  lemma PlainAlike(g: Graph, rank: seq<nat>, root: nat)
    requires Ranked(g, rank) && root < |g| && PlainTests(g, Reach(g, rank, root))
    ensures AllAlike(g, rank, root)
  {
    hide LastSeen, TakesOver, TakesMask, Subtrahend, Exit, SameA, Ranked;
    forall b | b in Reach(g, rank, root) && g[b].s.Jmp?
      ensures !Swaps(g[b], {}) && forall constX, p :: Shift(g[b], constX, p) == ZERO
    {
      NothingTakenOver(g[b].s, LastSeen(g[b].stmts));
    }
    forall b | b in Reach(g, rank, root) ensures Reach(g, rank, b) <= Reach(g, rank, root) { ReachTransitive(g, rank, root, b); }
    hide Reach, Shift;
  }
}
