/**
 Moving branches: making an edge skip a block whose test is already decided by the edges that
 dominate it.
 */
module BranchMove {
  import opened Machine
  import opened Flow
  import opened Liveness
  import opened Values
  import opened Local
  import opened ValuePass
  import opened Dominance
  import Analysis
  import BitSets

  // ---------------------------------------------------------------------------------------
  // Folding one edge
  // ---------------------------------------------------------------------------------------

  /** A true edge has sense true. */
  predicate Sense(g: Graph, e: nat)
    requires e < 2 * |g|
  {
    e < |g|
  }

  predicate SameTest(a: Branch, b: Branch) {
    a.Jmp? && b.Jmp? && a.cmp == b.cmp && a.src == b.src
  }

  /** The successor of child that edge e decides on, or NIL if e decides nothing about child. */
  function FoldEdge(g: Graph, vals: seq<Vals>, oval: seq<nat>, child: nat, e: nat): (target: int)
    requires WellFormed(g) && child < |g| == |vals| == |oval| && e < 2 * |g|
    ensures target == NIL || (g[child].s.Jmp? && (target == g[child].jt || target == g[child].jf))
  {
    var q := EdgeSource(g, e);
    if !SameTest(g[child].s, g[q].s) then NIL
    else if vals[child][A_ATOM] != vals[q][A_ATOM] then NIL
    else if oval[child] == oval[q] then (if Sense(g, e) then g[child].jt else g[child].jf)
    else if Sense(g, e) && g[child].s.cmp == Jeq && g[child].s.src == SrcK then g[child].jf
    else NIL
  }

  /** What is known about the graph: which blocks are live, which have their edges exchanged, and for which packets
      what edges decide is true. */
  datatype Facts = Facts(live: set<nat>, swapped: set<nat>, pkts: iset<Packet>)

  /** An edge of block b may decide what block c tests: the tests are alike, and of the same number. */
  ghost predicate Infers(g: Graph, vals: seq<Vals>, b: nat, c: nat)
    requires |vals| == |g| && b < |g| && c < |g|
  {
    SameTest(g[c].s, g[b].s) && vals[c][A_ATOM] == vals[b][A_ATOM]
  }

  /** What the outcome of b is then taken to say about c is true of the packet: the same, if the operands have the same
      number; and not both equal, if they are different constants. */
  ghost predicate InfersRight(g: Graph, oval: seq<nat>, b: nat, c: nat, p: Packet)
    requires |oval| == |g| && b < |g| && c < |g| && g[b].s.Jmp? && g[c].s.Jmp?
  {
    if oval[c] == oval[b] then Decide(g[c], p) == Decide(g[b], p)
    else g[c].s.cmp == Jeq && g[c].s.src == SrcK && Decide(g[b], p) ==> !Decide(g[c], p)
  }

  /** The packet passes b, and c after it. */
  ghost predicate Passes(g: Graph, rank: seq<nat>, root: nat, p: Packet, b: nat, c: nat)
    requires Ranked(g, rank) && root < |g|
  {
    b in Visits(g, rank, root, p) && c in Visits(g, rank, b, p) && c != b
  }

  /** Whatever an edge of a block that the packet passes may decide about a later one is true of the packet, and the
      edges of the first are not exchanged. */
  ghost predicate ConcursFor(g: Graph, rank: seq<nat>, root: nat, vals: seq<Vals>, oval: seq<nat>, swapped: set<nat>, p: Packet)
    requires Ranked(g, rank) && root < |g| == |vals| == |oval|
  {
    forall b, c :: Passes(g, rank, root, p, b, c) && Infers(g, vals, b, c) ==> b !in swapped && InfersRight(g, oval, b, c, p)
  }

  ghost predicate Concurs(g: Graph, rank: seq<nat>, root: nat, vals: seq<Vals>, oval: seq<nat>, f: Facts)
    requires Ranked(g, rank)
  {
    root < |g| == |vals| == |oval| && forall p :: p in f.pkts ==> ConcursFor(g, rank, root, vals, oval, f.swapped, p)
  }

  /** An edge decides something about a block only if the tests are alike. */
  lemma FoldInfers(g: Graph, vals: seq<Vals>, oval: seq<nat>, child: nat, e: nat)
    requires WellFormed(g) && child < |g| == |vals| == |oval| && e < 2 * |g| && FoldEdge(g, vals, oval, child, e) != NIL
    ensures Infers(g, vals, EdgeSource(g, e), child) && g[EdgeSource(g, e)].s.Jmp? && g[child].s.Jmp?
  {
  }

  /** A packet that has taken edge e takes, at child, the successor that e decides on. */
  lemma FoldDecides(g: Graph, vals: seq<Vals>, oval: seq<nat>, child: nat, e: nat, p: Packet)
    requires WellFormed(g) && child < |g| == |vals| == |oval| && e < 2 * |g| && FoldEdge(g, vals, oval, child, e) != NIL
    requires var q := EdgeSource(g, e);
      g[q].s.Jmp? && g[child].s.Jmp? && InfersRight(g, oval, q, child, p) && Decide(g[q], p) == Sense(g, e)
    ensures FoldEdge(g, vals, oval, child, e) == NextOf(g[child], p)
  {
    hide Decide;
  }

  /** What holds of the blocks holds of a graph with the same blocks. */
  lemma InfersSame(g0: Graph, g: Graph, vals: seq<Vals>, oval: seq<nat>, b: nat, c: nat, p: Packet)
    requires SameBlocks(g0, g) && |g0| == |vals| == |oval| && b < |g0| && c < |g0|
    ensures |g| == |g0| && Infers(g, vals, b, c) == Infers(g0, vals, b, c)
    ensures g0[b].s.Jmp? && g0[c].s.Jmp? ==> g[b].s.Jmp? && g[c].s.Jmp? && InfersRight(g, oval, b, c, p) == InfersRight(g0, oval, b, c, p)
  {
  }

  /** Whether some register live out of succ has another value there than at the end of b. */
  method UseConflict(vals: seq<Vals>, outUse: seq<set<nat>>, b: nat, succ: nat) returns (conflict: bool)
    requires b < |vals| && succ < |vals| == |outUse|
    ensures conflict <==> Conflict(vals, outUse, b, succ)
  {
    for atom := 0 to N_ATOMS
      invariant forall a :: 0 <= a < atom && a in outUse[succ] ==> vals[b][a] == vals[succ][a]
    {
      if atom in outUse[succ] && vals[b][atom] != vals[succ][atom] { return true; }
    }
    return false;
  }

  ghost predicate Conflict(vals: seq<Vals>, outUse: seq<set<nat>>, b: nat, succ: nat)
    requires b < |vals| && succ < |vals| == |outUse|
  {
    exists a :: 0 <= a < N_ATOMS && a in outUse[succ] && vals[b][a] != vals[succ][a]
  }

  // ---------------------------------------------------------------------------------------
  // Routes and edges
  // ---------------------------------------------------------------------------------------

  /** The graph with edge e leading to c. */
  function SetTarget(g: Graph, e: nat, c: int): Graph
    requires e < 2 * |g|
  {
    if e < |g| then g[e := g[e].(jt := c)] else g[e - |g| := g[e - |g|].(jf := c)]
  }

  /** The edge a packet takes out of a block. */
  ghost function EdgeOut(g: Graph, b: nat, p: Packet): nat
    requires b < |g| && g[b].s.Jmp?
  {
    if Decide(g[b], p) then b else b + |g|
  }

  /** A path of edges from the root that the packet takes. */
  ghost predicate Travels(g: Graph, root: nat, es: seq<nat>, p: Packet)
    requires WellFormed(g)
  {
    && EdgePath(g, root, es)
    && forall i :: 0 <= i < |es| ==>
         var q := EdgeSource(g, es[i]); g[q].s.Jmp? && Decide(g[q], p) == Sense(g, es[i])
  }

  lemma SetTargetRanked(g: Graph, rank: seq<nat>, e: nat, c: nat)
    requires Ranked(g, rank) && e < 2 * |g| && c < |g| && g[EdgeSource(g, e)].s.Jmp?
    requires rank[c] < rank[EdgeSource(g, e)]
    ensures Ranked(SetTarget(g, e, c), rank) && SameBlocks(g, SetTarget(g, e, c))
    ensures EdgeTarget(SetTarget(g, e, c), e) == c
    ensures forall f :: 0 <= f < 2 * |g| && f != e ==> EdgeTarget(SetTarget(g, e, c), f) == EdgeTarget(g, f)
  {
    SetTargetEdges(g, e, c);
    var g' := SetTarget(g, e, c);
    forall b | 0 <= b < |g'| && !g'[b].s.Ret? ensures rank[g'[b].jt] < rank[b] && rank[g'[b].jf] < rank[b] {
      RankedAt(g, rank, b);
    }
  }

  lemma SetTargetEdges(g: Graph, e: nat, c: nat)
    requires WellFormed(g) && e < 2 * |g| && c < |g| && g[EdgeSource(g, e)].s.Jmp?
    ensures WellFormed(SetTarget(g, e, c)) && SameBlocks(g, SetTarget(g, e, c))
    ensures forall f :: 0 <= f < 2 * |g| ==> EdgeTarget(SetTarget(g, e, c), f) == if f == e then c else EdgeTarget(g, f)
  {
  }

  /** Below the edge's source nothing changes. */
  lemma {:induction false} RouteBelow(g: Graph, rank: seq<nat>, e: nat, c: nat, b: nat, p: Packet)
    requires Ranked(g, rank) && e < 2 * |g| && c < |g| && Ranked(SetTarget(g, e, c), rank)
    requires b < |g| && rank[b] < rank[EdgeSource(g, e)]
    ensures Route(SetTarget(g, e, c), rank, b, p) == Route(g, rank, b, p) && Visits(SetTarget(g, e, c), rank, b, p) == Visits(g, rank, b, p)
    decreases rank[b]
  {
    if !g[b].s.Ret? { RouteBelow(g, rank, e, c, NextOf(g[b], p), p); }
  }

  lemma TravelsOn(g: Graph, root: nat, es: seq<nat>, b: nat, p: Packet)
    requires WellFormed(g) && b < |g| && g[b].s.Jmp?
    requires if es == [] then b == root else Travels(g, root, es, p) && EdgeTarget(g, es[|es| - 1]) == b
    ensures var f := EdgeOut(g, b, p);
      EdgeSource(g, f) == b && EdgeTarget(g, f) == NextOf(g[b], p) && Travels(g, root, es + [f], p)
  {
  }

  lemma NextMoved(g: Graph, e: nat, c: nat, b: nat, p: Packet)
    requires WellFormed(g) && e < 2 * |g| && b < |g| && g[b].s.Jmp?
    ensures var blk := SetTarget(g, e, c)[b];
      blk.s == g[b].s && NextOf(blk, p) == if EdgeOut(g, b, p) == e then c else NextOf(g[b], p)
  {
    assert Decide(SetTarget(g, e, c)[b], p) == Decide(g[b], p);
  }

  /** If a packet that takes edge e goes, at e's target, on to c, then letting e lead to c at once
      changes nothing for that packet. es is how the packet got to b. */
  lemma {:induction false} RouteMove(g: Graph, rank: seq<nat>, root: nat, e: nat, c: nat, es: seq<nat>, b: nat, p: Packet)
    requires Ranked(g, rank) && root < |g| && e < 2 * |g| && c < |g| && Ranked(SetTarget(g, e, c), rank)
    requires b < |g| && if es == [] then b == root else Travels(g, root, es, p) && EdgeTarget(g, es[|es| - 1]) == b
    requires forall es' :: Travels(g, root, es', p) && es'[|es'| - 1] == e ==> Skips(g, e, c, p)
    requires rank[c] < rank[EdgeSource(g, e)]
    ensures Route(SetTarget(g, e, c), rank, b, p) == Route(g, rank, b, p)
    ensures Visits(SetTarget(g, e, c), rank, b, p) <= Visits(g, rank, b, p)
    decreases rank[b]
  {
    if !g[b].s.Ret? {
      hide SetTarget, Decide, EdgePath, Skips, WellFormed;
      RankedShape(g, rank);
      RankedAt(g, rank, b);
      var f := EdgeOut(g, b, p);
      TravelsOn(g, root, es, b, p);
      NextMoved(g, e, c, b, p);
      hide EdgeOut;
      var es' := es + [f];
      if f == e {
        assert Travels(g, root, es', p) && es'[|es'| - 1] == e;
        SkipsAt(g, e, c, p);
        RouteBelow(g, rank, e, c, c, p);
      } else {
        RouteMove(g, rank, root, e, c, es', NextOf(g[b], p), p);
      }
    }
  }

  /** At e's target the packet goes on to c. */
  ghost predicate Skips(g: Graph, e: nat, c: nat, p: Packet)
    requires WellFormed(g) && e < 2 * |g|
  {
    var d := EdgeTarget(g, e);
    d != NIL && g[d].s.Jmp? && NextOf(g[d], p) == c
  }

  lemma SkipsAt(g: Graph, e: nat, c: nat, p: Packet)
    requires WellFormed(g) && e < 2 * |g| && Skips(g, e, c, p)
    ensures var d := EdgeTarget(g, e); d != NIL && g[d].s.Jmp? && NextOf(g[d], p) == c
  {
  }

  // ---------------------------------------------------------------------------------------
  // Why a move is sound
  // ---------------------------------------------------------------------------------------

  /** live holds the root and is closed under edges. */
  ghost predicate ClosedUnder(g: Graph, root: nat, live: set<nat>)
    requires WellFormed(g)
  {
    root in live && Closed(g, live)
  }

  lemma {:induction false} EdgePathLive(g: Graph, root: nat, live: set<nat>, es: seq<nat>, i: nat)
    requires WellFormed(g) && ClosedUnder(g, root, live) && EdgePath(g, root, es) && i < |es|
    ensures EdgeSource(g, es[i]) in live
  {
    if i > 0 {
      EdgePathLive(g, root, live, es, i - 1);
      WellFormedAt(g, EdgeSource(g, es[i - 1]));
    }
  }

  /** The packet takes edge e only after it has taken edge k. */
  ghost predicate TravelDominates(g: Graph, root: nat, k: nat, e: nat, p: Packet)
    requires WellFormed(g)
  {
    forall es :: Travels(g, root, es, p) && es[|es| - 1] == e ==> k in es
  }

  /** The packet takes edge e only after it has passed block b. */
  ghost predicate TravelPasses(g: Graph, root: nat, b: nat, e: nat, p: Packet)
    requires WellFormed(g)
  {
    forall es :: Travels(g, root, es, p) && es[|es| - 1] == e ==> Leaves(g, es, b)
  }

  /** One of the edges leads out of block b. */
  ghost predicate Leaves(g: Graph, es: seq<nat>, b: nat)
    requires forall i :: 0 <= i < |es| ==> es[i] < 2 * |g|
  {
    exists i :: 0 <= i < |es| && EdgeSource(g, es[i]) == b
  }

  /** The blocks on a packet's way are those it passes. */
  lemma {:induction false} TravelsVisits(g: Graph, rank: seq<nat>, root: nat, es: seq<nat>, i: nat, p: Packet)
    requires Ranked(g, rank) && root < |g| && Travels(g, root, es, p) && i < |es|
    ensures EdgeSource(g, es[i]) in Visits(g, rank, root, p)
    ensures EdgeTarget(g, es[i]) in Visits(g, rank, root, p)
  {
    hide Visits, Decide, Ranked, WellFormed;
    RankedShape(g, rank);
    if i > 0 { TravelsVisits(g, rank, root, es, i - 1, p); }
    VisitsOn(g, rank, root, EdgeSource(g, es[i]), p);
    assert EdgeTarget(g, es[i]) == NextOf(g[EdgeSource(g, es[i])], p);
  }

  /** The blocks of a path come above where it leads. */
  lemma {:induction false} PathAbove(g: Graph, rank: seq<nat>, root: nat, es: seq<nat>, i: nat)
    requires Ranked(g, rank) && EdgePath(g, root, es) && i < |es| && EdgeTarget(g, es[|es| - 1]) != NIL
    ensures rank[EdgeTarget(g, es[|es| - 1])] < rank[EdgeSource(g, es[i])]
  {
    RankedAt(g, rank, EdgeSource(g, es[|es| - 1]));
    if i < |es| - 1 { PathDescends(g, rank, root, es, i, |es| - 1); }
  }

  /** A packet that takes e has passed the blocks of the edges that dominate e, so it skips as they decide. g0 is the
      graph in which what edges decide is true. */
  lemma FoldSkips(g0: Graph, g: Graph, rank: seq<nat>, root: nat, vals: seq<Vals>, oval: seq<nat>, f: Facts,
                  e: nat, k: nat, es: seq<nat>, p: Packet)
    requires Ranked(g0, rank) && Ranked(g, rank) && SameBlocks(g0, g) && Concurs(g0, rank, root, vals, oval, f) && root < |g|
    requires e < 2 * |g| && k < 2 * |g| && p in f.pkts && Visits(g, rank, root, p) <= Visits(g0, rank, root, p)
    requires TravelPasses(g, root, EdgeSource(g, k), e, p) && (EdgeSource(g, k) !in f.swapped ==> TravelDominates(g, root, k, e, p))
    requires EdgeTarget(g, e) != NIL && |vals| == |oval| == |g| && FoldEdge(g, vals, oval, EdgeTarget(g, e), k) != NIL
    requires Travels(g, root, es, p) && es[|es| - 1] == e
    ensures Skips(g, e, FoldEdge(g, vals, oval, EdgeTarget(g, e), k), p)
  {
    var q, d, n := EdgeSource(g, k), EdgeTarget(g, e), |es| - 1;
    var i :| 0 <= i < |es| && EdgeSource(g, es[i]) == q;
    hide Ranked, FoldEdge, ClosedUnder, TravelPasses, Decide, Visits, InfersRight, WellFormed;
    RankedShape(g, rank);
    TravelsVisits(g, rank, root, es, i, p);
    TravelsVisits(g, rank, root, es, n, p);
    PathAbove(g, rank, root, es, i);
    VisitsChain(g0, rank, root, q, d, p);
    FoldInfers(g, vals, oval, d, k);
    InfersSame(g0, g, vals, oval, q, d, p);
    assert ConcursFor(g0, rank, root, vals, oval, f.swapped, p) && Passes(g0, rank, root, p, q, d);
    hide Concurs;
    var j :| 0 <= j < |es| && es[j] == k;
    FoldDecides(g, vals, oval, d, k, p);
  }

  lemma FoldJmp(g: Graph, vals: seq<Vals>, oval: seq<nat>, child: nat, e: nat)
    requires WellFormed(g) && child < |g| == |vals| == |oval| && e < 2 * |g| && FoldEdge(g, vals, oval, child, e) != NIL
    ensures g[child].s.Jmp? && FoldEdge(g, vals, oval, child, e) in {g[child].jt, g[child].jf}
  {
  }

  /** Where a fold leads. */
  lemma FoldTarget(g: Graph, rank: seq<nat>, root: nat, vals: seq<Vals>, oval: seq<nat>, live: set<nat>, e: nat, k: nat)
    requires Ranked(g, rank) && root < |g| == |vals| == |oval| && Closed(g, live) && e < 2 * |g| && k < 2 * |g|
    requires EdgeSource(g, e) in live && EdgeTarget(g, e) != NIL && FoldEdge(g, vals, oval, EdgeTarget(g, e), k) != NIL
    ensures var c := FoldEdge(g, vals, oval, EdgeTarget(g, e), k);
      && 0 <= c < |g| && c in live && EdgeTarget(g, e) in live && rank[c] < rank[EdgeTarget(g, e)] < rank[EdgeSource(g, e)]
      && Ranked(SetTarget(g, e, c), rank)
  {
    var d := EdgeTarget(g, e);
    RankedAt(g, rank, EdgeSource(g, e));
    FoldJmp(g, vals, oval, d, k);
    hide FoldEdge;
    RankedAt(g, rank, d);
    SetTargetRanked(g, rank, e, FoldEdge(g, vals, oval, d, k));
  }

  /** Moving an edge past a block whose test a dominating edge decides does not change the packet's route, and lets it pass
      no further block. */
  lemma FoldMoveSound(g0: Graph, g: Graph, rank: seq<nat>, root: nat, vals: seq<Vals>, oval: seq<nat>, f: Facts, e: nat, k: nat, p: Packet)
    requires Ranked(g0, rank) && Ranked(g, rank) && SameBlocks(g0, g) && Concurs(g0, rank, root, vals, oval, f) && root < |g|
    requires ClosedUnder(g, root, f.live) && Visits(g, rank, root, p) <= Visits(g0, rank, root, p)
    requires e < 2 * |g| && k < 2 * |g| && p in f.pkts && EdgeSource(g, e) in f.live && |vals| == |oval| == |g|
    requires TravelPasses(g, root, EdgeSource(g, k), e, p) && (EdgeSource(g, k) !in f.swapped ==> TravelDominates(g, root, k, e, p))
    requires EdgeTarget(g, e) != NIL && FoldEdge(g, vals, oval, EdgeTarget(g, e), k) != NIL
    ensures var c := FoldEdge(g, vals, oval, EdgeTarget(g, e), k);
      && 0 <= c < |g| && Ranked(SetTarget(g, e, c), rank) && Route(SetTarget(g, e, c), rank, root, p) == Route(g, rank, root, p)
      && Visits(SetTarget(g, e, c), rank, root, p) <= Visits(g, rank, root, p)
  {
    FoldTarget(g, rank, root, vals, oval, f.live, e, k);
    var c := FoldEdge(g, vals, oval, EdgeTarget(g, e), k);
    hide Travels, FoldEdge, Concurs, ClosedUnder, TravelDominates, TravelPasses, Ranked, Decide, SameBlocks, Visits;
    forall es | Travels(g, root, es, p) && es[|es| - 1] == e ensures Skips(g, e, c, p) {
      FoldSkips(g0, g, rank, root, vals, oval, f, e, k, es, p);
    }
    RouteMove(g, rank, root, e, c, [], root, p);
  }

  /** Moving an edge past a block with equal successors changes no packet's route. */
  lemma SkipMoveSound(g: Graph, rank: seq<nat>, root: nat, e: nat, p: Packet)
    requires Ranked(g, rank) && root < |g| && e < 2 * |g|
    requires var d := EdgeTarget(g, e); d != NIL && g[d].s.Jmp? && g[d].jt == g[d].jf
    ensures var c := g[EdgeTarget(g, e)].jt;
      && 0 <= c < |g| && rank[c] < rank[EdgeTarget(g, e)] < rank[EdgeSource(g, e)]
      && Ranked(SetTarget(g, e, c), rank)
      && Route(SetTarget(g, e, c), rank, root, p) == Route(g, rank, root, p)
      && Visits(SetTarget(g, e, c), rank, root, p) <= Visits(g, rank, root, p)
  {
    var d := EdgeTarget(g, e);
    RankedAt(g, rank, EdgeSource(g, e));
    RankedAt(g, rank, d);
    SetTargetRanked(g, rank, e, g[d].jt);
    hide Travels;
    RouteMove(g, rank, root, e, g[d].jt, [], root, p);
  }

  // ---------------------------------------------------------------------------------------
  // Why the stored edge dominators stay right for the edges not yet visited
  // ---------------------------------------------------------------------------------------

  lemma {:induction false} PathDescends(g: Graph, rank: seq<nat>, root: nat, es: seq<nat>, i: nat, j: nat)
    requires Ranked(g, rank) && EdgePath(g, root, es) && i < j < |es|
    ensures rank[EdgeSource(g, es[j])] < rank[EdgeSource(g, es[i])]
  {
    RankedAt(g, rank, EdgeSource(g, es[j - 1]));
    if i < j - 1 { PathDescends(g, rank, root, es, i, j - 1); }
  }

  /** The blocks ranked above l are the same. */
  ghost predicate SameAbove(g: Graph, g': Graph, rank: seq<nat>, l: nat)
    requires |g| == |g'| == |rank|
  {
    forall b :: 0 <= b < |g| && rank[b] > l ==> g'[b] == g[b]
  }

  /** If the blocks above the source of f are as they were, the packet comes to f as it did. */
  lemma TravelsStay(g: Graph, g': Graph, rank: seq<nat>, root: nat, es: seq<nat>, f: nat, p: Packet)
    requires Ranked(g, rank) && Ranked(g', rank) && SameBlocks(g, g') && f < 2 * |g| && SameAbove(g, g', rank, rank[EdgeSource(g, f)])
    requires Travels(g', root, es, p) && es[|es| - 1] == f
    ensures Travels(g, root, es, p)
  {
    hide SameAbove, Ranked, WellFormed, SameBlocks;
    RankedShape(g, rank);
    RankedShape(g', rank);
    SameSize(g, g');
    forall i | 0 <= i < |es| - 1 ensures EdgeTarget(g', es[i]) == EdgeTarget(g, es[i]) {
      EdgeStays(g, g', rank, root, es, i, f);
    }
    forall i | 0 <= i < |es|
      ensures var q := EdgeSource(g, es[i]); g[q].s.Jmp? && Decide(g[q], p) == Sense(g, es[i])
    {
      DecideStays(g, g', EdgeSource(g, es[i]), p);
    }
  }

  lemma SameSize(g: Graph, g': Graph)
    requires SameBlocks(g, g')
    ensures |g| == |g'|
  {
  }

  lemma DecideStays(g: Graph, g': Graph, b: nat, p: Packet)
    requires SameBlocks(g, g') && b < |g|
    ensures g'[b].s == g[b].s && (g[b].s.Jmp? ==> Decide(g'[b], p) == Decide(g[b], p))
  {
  }

  lemma EdgeStays(g: Graph, g': Graph, rank: seq<nat>, root: nat, es: seq<nat>, i: nat, f: nat)
    requires Ranked(g, rank) && Ranked(g', rank) && f < 2 * |g| && SameAbove(g, g', rank, rank[EdgeSource(g, f)])
    requires EdgePathTo(g', root, es, f) && i < |es| - 1
    ensures EdgeTarget(g', es[i]) == EdgeTarget(g, es[i])
  {
    hide Ranked, WellFormed;
    RankedShape(g, rank);
    RankedShape(g', rank);
    PathDescends(g', rank, root, es, i, |es| - 1);
  }

  /** And so for what comes before f on the packet's way. */
  lemma PrecedingStays(g: Graph, g': Graph, rank: seq<nat>, root: nat, k: nat, f: nat, p: Packet)
    requires Ranked(g, rank) && Ranked(g', rank) && SameBlocks(g, g') && f < 2 * |g| && SameAbove(g, g', rank, rank[EdgeSource(g, f)])
    ensures TravelDominates(g, root, k, f, p) ==> TravelDominates(g', root, k, f, p)
    ensures TravelPasses(g, root, k, f, p) ==> TravelPasses(g', root, k, f, p)
  {
    hide SameAbove, Ranked, WellFormed, SameBlocks, Decide, Leaves;
    RankedShape(g, rank);
    RankedShape(g', rank);
    SameSize(g, g');
    forall es | Travels(g', root, es, p) && es[|es| - 1] == f
      ensures Travels(g, root, es, p) && (TravelPasses(g, root, k, f, p) ==> Leaves(g', es, k))
    {
      TravelsStay(g, g', rank, root, es, f, p);
      LeavesSame(g, g', root, es, k, p);
    }
  }

  lemma LeavesSame(g: Graph, g': Graph, root: nat, es: seq<nat>, b: nat, p: Packet)
    requires WellFormed(g) && WellFormed(g') && |g| == |g'| && Travels(g, root, es, p)
    ensures (forall i :: 0 <= i < |es| ==> es[i] < 2 * |g|) && Leaves(g, es, b) == Leaves(g', es, b)
  {
  }

  lemma PathStays(g: Graph, g': Graph, rank: seq<nat>, root: nat, es: seq<nat>, f: nat)
    requires Ranked(g, rank) && Ranked(g', rank) && |g| == |g'| && f < 2 * |g| && SameAbove(g, g', rank, rank[EdgeSource(g, f)])
    requires EdgePathTo(g', root, es, f)
    ensures EdgePathTo(g, root, es, f)
  {
    hide SameAbove, Ranked, WellFormed;
    RankedShape(g, rank);
    RankedShape(g', rank);
    forall i | 0 <= i < |es| - 1 ensures EdgeTarget(g', es[i]) == EdgeTarget(g, es[i]) { EdgeStays(g, g', rank, root, es, i, f); }
  }

  /** The edge dominators of f are, in both graphs, the same edges; and so are, for every packet, the edges it takes before
      f. */
  lemma DominatorsStay(g: Graph, g': Graph, rank: seq<nat>, root: nat, f: nat)
    requires Ranked(g, rank) && Ranked(g', rank) && SameBlocks(g, g') && f < 2 * |g| && SameAbove(g, g', rank, rank[EdgeSource(g, f)])
    ensures forall e :: EdgeDominates(g, root, e, f) <==> EdgeDominates(g', root, e, f)
    ensures forall e, p :: TravelDominates(g, root, e, f, p) <==> TravelDominates(g', root, e, f, p)
  {
    AboveBack(g, g', rank, f);
    hide SameAbove, Ranked, WellFormed, SameBlocks, EdgePathTo, TravelDominates, TravelPasses;
    RankedShape(g, rank);
    RankedShape(g', rank);
    forall es ensures EdgePathTo(g, root, es, f) <==> EdgePathTo(g', root, es, f) {
      if EdgePathTo(g, root, es, f) { PathStays(g', g, rank, root, es, f); }
      if EdgePathTo(g', root, es, f) { PathStays(g, g', rank, root, es, f); }
    }
    forall e: nat ensures EdgeDominates(g, root, e, f) <==> EdgeDominates(g', root, e, f) {
    }
    hide EdgeDominates;
    forall e: nat, p ensures TravelDominates(g, root, e, f, p) <==> TravelDominates(g', root, e, f, p) {
      PrecedingStays(g, g', rank, root, e, f, p);
      PrecedingStays(g', g, rank, root, e, f, p);
    }
  }

  lemma AboveBack(g: Graph, g': Graph, rank: seq<nat>, f: nat)
    requires Ranked(g, rank) && Ranked(g', rank) && SameBlocks(g, g') && f < 2 * |g| && SameAbove(g, g', rank, rank[EdgeSource(g, f)])
    ensures |g'| == |g| && SameBlocks(g', g) && SameAbove(g', g, rank, rank[EdgeSource(g', f)])
  {
    hide Ranked, WellFormed;
    RankedShape(g, rank);
  }

  /** A reachable edge is reached by a path of edges. */
  lemma ReachHasEdgePath(g: Graph, rank: seq<nat>, root: nat, f: nat) returns (es: seq<nat>)
    requires Ranked(g, rank) && root < |g| && f < 2 * |g| && EdgeSource(g, f) in Reach(g, rank, root)
    ensures EdgePathTo(g, root, es, f)
  {
    hide Ranked, Reach;
    var path := ReachHasPath(g, rank, root, EdgeSource(g, f));
    RankedShape(g, rank);
    es := EdgesAlong(g, path) + [f];
    EdgesLead(g, path);
    hide WellFormed, EdgeTarget, EdgesAlong;
  }

  /** The edges from each block of a path to the next. */
  ghost function EdgesAlong(g: Graph, path: seq<nat>): (es: seq<nat>)
    requires |path| > 0 && forall i :: 0 <= i < |path| ==> path[i] < |g|
    ensures |es| == |path| - 1
  {
    seq(|path| - 1, (i: nat) requires i < |path| - 1 => if g[path[i]].jt == path[i + 1] then path[i] else path[i] + |g|)
  }

  lemma EdgesLead(g: Graph, path: seq<nat>)
    requires WellFormed(g) && IsPath(g, path)
    ensures var es := EdgesAlong(g, path);
      forall i :: 0 <= i < |es| ==> es[i] < 2 * |g| && EdgeSource(g, es[i]) == path[i] && EdgeTarget(g, es[i]) == path[i + 1]
  {
    var es := EdgesAlong(g, path);
    forall i | 0 <= i < |es| ensures es[i] < 2 * |g| && EdgeSource(g, es[i]) == path[i] && EdgeTarget(g, es[i]) == path[i + 1] {
      assert path[i + 1] in Succs(g, path[i]);
      WellFormedAt(g, path[i]);
      hide WellFormed;
    }
  }

  // ---------------------------------------------------------------------------------------
  // The sweep
  // ---------------------------------------------------------------------------------------

  /** Edge e leads to a leaf, or no edge of row decides, without conflict, what its target tests. */
  ghost predicate Unfoldable(g: Graph, vals: seq<Vals>, oval: seq<nat>, outUse: seq<set<nat>>, row: set<nat>, e: nat)
    requires WellFormed(g) && |g| == |vals| == |oval| == |outUse| && e < 2 * |g|
  {
    var d := EdgeTarget(g, e);
    d != NIL && (g[d].s.Jmp? ==> forall k :: k in row && k < 2 * |g| ==> !CanFold(g, vals, oval, outUse, e, k))
  }

  /** If edge e leads where it led in g0, to a block that has come to have one successor only, then to move it there would
      break a live register. */
  ghost predicate Skipped(g0: Graph, g: Graph, vals: seq<Vals>, outUse: seq<set<nat>>, e: nat)
    requires WellFormed(g0) && WellFormed(g) && |g0| == |g| == |vals| == |outUse| && e < 2 * |g|
  {
    var d := EdgeTarget(g, e);
    d != NIL && d == EdgeTarget(g0, e) && g[d].s.Jmp? && g[d].jt == g[d].jf ==> Conflict(vals, outUse, EdgeSource(g, e), g[d].jt)
  }

  /** Nothing more is to be done about edge e. */
  ghost predicate Settled(g0: Graph, g: Graph, vals: seq<Vals>, oval: seq<nat>, outUse: seq<set<nat>>, row: set<nat>, e: nat)
    requires WellFormed(g0) && WellFormed(g) && |g0| == |g| == |vals| == |oval| == |outUse| && e < 2 * |g|
  {
    Unfoldable(g, vals, oval, outUse, row, e) && Skipped(g0, g, vals, outUse, e)
  }

  /** Both edges of a block are settled. */
  ghost predicate SettledBlock(g0: Graph, g: Graph, vals: seq<Vals>, oval: seq<nat>, outUse: seq<set<nat>>, rows: seq<set<nat>>, b: nat)
    requires WellFormed(g0) && WellFormed(g) && |g0| == |g| == |vals| == |oval| == |outUse| && |rows| == 2 * |g|
  {
    b < |g| && g[b].s.Jmp? ==>
      Settled(g0, g, vals, oval, outUse, rows[b], b) && Settled(g0, g, vals, oval, outUse, rows[b + |g|], b + |g|)
  }

  /** Both edges of every block in done are settled. */
  ghost predicate SettledAll(g0: Graph, g: Graph, vals: seq<Vals>, oval: seq<nat>, outUse: seq<set<nat>>, rows: seq<set<nat>>, done: set<nat>)
    requires WellFormed(g0) && WellFormed(g) && |g0| == |g| == |vals| == |oval| == |outUse| && |rows| == 2 * |g|
  {
    forall b :: b in done ==> SettledBlock(g0, g, vals, oval, outUse, rows, b)
  }

  /** Edge k decides what e's target tests, and moving e breaks no live register. */
  ghost predicate CanFold(g: Graph, vals: seq<Vals>, oval: seq<nat>, outUse: seq<set<nat>>, e: nat, k: nat)
    requires WellFormed(g) && |g| == |vals| == |oval| == |outUse| && e < 2 * |g| && k < 2 * |g|
  {
    var d := EdgeTarget(g, e);
    && d != NIL && FoldEdge(g, vals, oval, d, k) != NIL
    && 0 <= FoldEdge(g, vals, oval, d, k) < |g|
    && !Conflict(vals, outUse, EdgeSource(g, e), FoldEdge(g, vals, oval, d, k))
  }

  /** The route of every packet of pkts from the root ends in the same value, and passes no further blocks. */
  ghost predicate SameRoutes(g: Graph, g': Graph, rank: seq<nat>, root: nat, pkts: iset<Packet>)
    requires Ranked(g, rank) && Ranked(g', rank) && root < |g| == |g'|
  {
    forall p :: p in pkts ==>
      Route(g', rank, root, p) == Route(g, rank, root, p) && Visits(g', rank, root, p) <= Visits(g, rank, root, p)
  }

  /** The live blocks are listed by level, the leaves at level 0 and none above the root. */
  ghost predicate Ordered(g: Graph, root: nat, level: seq<nat>, levels: seq<seq<nat>>, live: set<nat>) {
    && |level| == |g| == |levels| && root < |g| && level[root] < |g|
    && (forall b :: b in live ==> b < |g| && level[b] <= level[root] && b in levels[level[b]] && (g[b].s.Ret? <==> level[b] == 0))
    && (forall l, i :: 0 <= l < |levels| && 0 <= i < |levels[l]| ==>
          levels[l][i] in live && levels[l][i] < |g| && level[levels[l][i]] == l)
    && (forall l, i, j :: 0 <= l < |levels| && 0 <= i < j < |levels[l]| ==> levels[l][i] != levels[l][j])
  }

  /** The edges in row come from above e's target. Their blocks come before e on every packet's way, and so do they
      themselves, but for those of blocks with exchanged edges. */
  ghost predicate RowSound(g: Graph, rank: seq<nat>, root: nat, f: Facts, row: set<nat>, e: nat)
    requires Ranked(g, rank) && e < 2 * |g|
  {
    forall k :: k in row ==>
      && k < 2 * |g| && EdgeSource(g, k) in f.live && rank[EdgeSource(g, e)] <= rank[EdgeSource(g, k)]
      && forall p :: p in f.pkts ==>
           TravelPasses(g, root, EdgeSource(g, k), e, p) && (EdgeSource(g, k) !in f.swapped ==> TravelDominates(g, root, k, e, p))
  }

  class Mover {
    var g: Graph
    const root: nat
    const vals: seq<Vals>
    const oval: seq<nat>
    const outUse: seq<set<nat>>
    const edom: BitSets.Family
    ghost const g0: Graph
    ghost const level: seq<nat>
    ghost const facts: Facts

    constructor (graph: Graph, start: nat, exitVals: seq<Vals>, operands: seq<nat>, out: seq<set<nat>>,
                 dominators: BitSets.Family, ghost lv: seq<nat>, ghost f: Facts)
      requires Ranked(graph, lv) && start < |graph| && Concurs(graph, lv, start, exitVals, operands, f)
      requires ClosedUnder(graph, start, f.live)
      requires |out| == |graph| && dominators.words.Length0 == 2 * |graph| <= dominators.Capacity()
      ensures Valid() && g == g0 == graph && root == start && level == lv && edom == dominators && outUse == out && facts == f
      ensures vals == exitVals && oval == operands
    {
      g, root, vals, oval, outUse, edom := graph, start, exitVals, operands, out, dominators;
      g0, level, facts := graph, lv, f;
      new;
      CarefulStart(graph, exitVals, out);
    }

    /** The graph has the blocks it started with, and every packet still ends where it did. */
    ghost predicate Valid()
      reads this
    {
      && Ranked(g0, level) && Ranked(g, level) && SameBlocks(g0, g) && root < |g0|
      && WellFormed(g) && |g| == |g0| == |level|
      && ClosedUnder(g, root, facts.live) && Concurs(g0, level, root, vals, oval, facts)
      && |outUse| == |vals| == |oval| == |g0|
      && edom.words.Length0 == 2 * |g0| <= edom.Capacity()
      && SameRoutes(g0, g, level, root, facts.pkts) && Careful(g0, g, vals, outUse)
    }

    /** The stored edge dominators are right for the graph at the start of the sweep. */
    ghost predicate EdomSound()
      reads edom.words
      requires Ranked(g0, level) && edom.words.Length0 == 2 * |g0|
    {
      forall e :: 0 <= e < 2 * |g0| && EdgeSource(g0, e) in facts.live ==> RowSound(g0, level, root, facts, edom.Rows()[e], e)
    }

    /** The blocks above level l are untouched. */
    ghost predicate UntouchedAbove(l: nat)
      reads this
      requires Valid()
    {
      SameAbove(g0, g, level, l)
    }

    lemma EdomAt(e: nat, k: nat)
      requires Ranked(g0, level) && edom.words.Length0 == 2 * |g0| && EdomSound()
      requires e < 2 * |g0| && EdgeSource(g0, e) in facts.live && k in edom.Rows()[e]
      ensures RowSound(g0, level, root, facts, {k}, e) && k < 2 * |g0|
    {
    }

    /** Edge e, out of a live block, may still be moved. */
    ghost predicate Movable(e: nat)
      reads this
      requires Valid()
    {
      && e < 2 * |g0| && EdgeSource(g, e) in facts.live && g[EdgeSource(g, e)].s.Jmp? && EdgeTarget(g, e) != NIL
      && UntouchedAbove(level[EdgeSource(g, e)])
    }

    /** Lets edge e lead to c. */
    method Retarget(e: nat, c: nat)
      requires Valid() && Movable(e) && MoveOk(g, level, root, facts, e, c)
      requires c < |g0| && !Conflict(vals, outUse, EdgeSource(g, e), c)
      modifies this`g
      ensures Valid() && Movable(e) && EdgeTarget(g, e) == c && level[c] < level[EdgeTarget(old(g), e)]
      ensures OnlyMoved(old(g), g, e)
    {
      hide Careful, Concurs, ClosedUnder, SameRoutes, Ranked, WellFormed, SetTarget, SameBlocks, SameAbove, MoveOk, OnlyMoved;
      MoveMade(g0, g, level, root, facts, e, c);
      RetargetKeeps(g, root, facts.live, e, c);
      CarefulMove(g0, g, SetTarget(g, e, c), vals, outUse, e, c);
      g := SetTarget(g, e, c);
    }

    /** Edge k decides, without conflict, that e may lead to target. */
    ghost predicate Folds(e: nat, k: nat, target: int)
      reads this
      requires Valid() && Movable(e)
    {
      && k < 2 * |g0| && CanFold(g, vals, oval, outUse, e, k)
      && target == FoldEdge(g, vals, oval, EdgeTarget(g, e), k)
    }

    /** The first edge that dominates e, decides what e's target tests and causes no conflict; NIL
        if there is none. The result is the block that edge decides on. */
    method FindFold(e: nat) returns (target: int)
      requires Valid() && EdomSound() && Movable(e)
      ensures EdgeTarget(g, e) != NIL
      ensures target != NIL ==> exists k :: k in edom.Rows()[e] && Folds(e, k, target)
      ensures target == NIL ==> forall k :: k in edom.Rows()[e] && k < 2 * |g0| ==> !CanFold(g, vals, oval, outUse, e, k)
    {
      hide Careful, Concurs, ClosedUnder, SameRoutes, Ranked, WellFormed, Conflict, FoldEdge, EdomSound, SameBlocks, RowSound;
      target := NIL;
      var d := EdgeTarget(g, e);
      WellFormedAt(g, d);
      for i := 0 to edom.Capacity()
        invariant forall k :: k in edom.Rows()[e] && k < 2 * |g0| && k < i ==> !CanFold(g, vals, oval, outUse, e, k)
      {
        var member := edom.Member(e, i);
        if member {
          EdomAt(e, i);
          var candidate := FoldEdge(g, vals, oval, d, i);
          if candidate != NIL {
            var conflict := UseConflict(vals, outUse, EdgeSource(g, e), candidate);
            if !conflict {
              assert Folds(e, i, candidate);
              return candidate;
            }
          }
        }
      }
    }

    /** Promotes edge e to a grandchild, if an edge that dominates it decides that; else target is NIL. */
    method FoldStep(e: nat) returns (target: int)
      requires Valid() && EdomSound() && Movable(e)
      modifies this`g
      ensures Valid() && Movable(e) && |g| == |g0|
      ensures target != NIL ==>
        && 0 <= target < |g| && EdgeTarget(g, e) == target && OnlyMoved(old(g), g, e)
        && EdgeTarget(old(g), e) != NIL && level[target] < level[EdgeTarget(old(g), e)]
      ensures target == NIL ==> g == old(g) && forall k :: k in edom.Rows()[e] && k < 2 * |g0| ==> !CanFold(g, vals, oval, outUse, e, k)
    {
      hide Careful, Concurs, ClosedUnder, SameRoutes, Ranked, WellFormed, EdomSound, MoveOk, CanFold, FoldEdge, RowSound, SameBlocks, SameAbove,
        OnlyMoved;
      target := FindFold(e);
      if target == NIL { return; }
      ghost var k :| k in edom.Rows()[e] && Folds(e, k, target);
      EdomAt(e, k);
      FoldFound(g, vals, oval, outUse, e, k);
      FoldMoveOk(g0, g, level, root, vals, oval, facts, e, k);
      Retarget(e, target);
    }

    /** Promotes edge e to a grandchild until nothing more is decided. */
    method FoldLoop(e: nat)
      requires Valid() && EdomSound() && Movable(e)
      modifies this`g
      ensures Valid() && Movable(e) && OnlyMoved(old(g), g, e) && Lower(old(g), g, level, e)
      ensures Unfoldable(g, vals, oval, outUse, edom.Rows()[e], e)
    {
      MovedNot(g, e);
      hide Careful, Concurs, ClosedUnder, SameRoutes, Ranked, WellFormed, EdomSound, CanFold, SameBlocks, OnlyMoved, SameAbove;
      while true
        invariant Valid() && Movable(e) && OnlyMoved(old(g), g, e) && Lower(old(g), g, level, e)
        decreases level[EdgeTarget(g, e)]
      {
        ghost var g1 := g;
        var target := FoldStep(e);
        if target == NIL { return; }
        MovedTwice(old(g), g1, g, e);
        if g[target].s.Ret? { return; }
      }
    }

    /** Moves edge e as far down as the edges that dominate it allow. */
    method OptJ(e: nat)
      requires Valid() && EdomSound() && Movable(e) && EdgeTarget(g, e) == EdgeTarget(g0, e)
      modifies this`g
      ensures Valid() && Movable(e) && OnlyMoved(old(g), g, e)
      ensures Settled(g0, g, vals, oval, outUse, edom.Rows()[e], e)
    {
      hide Careful, Concurs, ClosedUnder, SameRoutes, Ranked, WellFormed, EdomSound, MoveOk, CanFold, SameBlocks, SameAbove, OnlyMoved, Unfoldable, Conflict;
      var d := EdgeTarget(g, e);
      MovedNot(g, e);
      WellFormedAt(g, d);
      if g[d].s.Ret? {
        LeafUnfoldable(g, vals, oval, outUse, edom.Rows()[e], e);
        return;
      }
      ghost var g1 := g;
      if g[d].jt == g[d].jf {
        var conflict := UseConflict(vals, outUse, EdgeSource(g, e), g[d].jt);
        if !conflict {
          SkipMoveOk(g, level, root, facts, e);
          Retarget(e, g[d].jt);
        }
      }
      ghost var g2 := g;
      FoldLoop(e);
      MovedTwice(g1, g2, g, e);
      RankedShape(g0, level);
      MovedBelow(g0, g1, g2, g, level, vals, outUse, e);
    }

    /** The edges of the live blocks in done are settled. */
    ghost predicate AllSettled(done: set<nat>)
      reads this, edom.words
      requires Valid()
    {
      SettledAll(g0, g, vals, oval, outUse, edom.Rows(), done)
    }

    /** The edges of a live block whose upper blocks are untouched may be moved. */
    lemma EdgesMovable(b: nat)
      requires Valid() && b in facts.live && b < |g0| && g[b].s.Jmp?
      ensures UntouchedAbove(level[b]) <==> Movable(b)
      ensures UntouchedAbove(level[b]) <==> Movable(b + |g0|)
    {
      hide Careful, Concurs, ClosedUnder, SameRoutes, SameBlocks, UntouchedAbove;
    }

    /** Moves both edges of block b; mid is the graph after the first. */
    method MoveEdges(b: nat) returns (ghost mid: Graph)
      requires Valid() && EdomSound() && b in facts.live && b < |g0| && g[b].s.Jmp? && UntouchedAbove(level[b]) && g[b] == g0[b]
      modifies this`g
      ensures Valid() && UntouchedAbove(level[b]) && Ranked(mid, level) && |mid| == |g0|
      ensures OnlyMoved(old(g), mid, b) && OnlyMoved(mid, g, b + |g0|)
      ensures Settled(g0, mid, vals, oval, outUse, edom.Rows()[b], b)
      ensures Settled(g0, g, vals, oval, outUse, edom.Rows()[b + |g0|], b + |g0|)
    {
      hide Careful, Concurs, ClosedUnder, SameRoutes, EdomSound, Settled, WellFormed, UntouchedAbove, OnlyMoved, Ranked, SameBlocks, Movable,
        BitSets.Family.Rows;
      EdgesMovable(b);
      OptJ(b);
      mid := g;
      MovedJmp(old(g), g, b);
      MovedOther(old(g), g, b, b + |g|);
      EdgesMovable(b);
      OptJ(b + |g|);
      MovedJmp(mid, g, b + |g|);
      EdgesMovable(b);
    }

    /** Moves both edges of block b. done holds blocks already moved, none above b's level. */
    method MoveBlock(b: nat, ghost done: set<nat>)
      requires Valid() && EdomSound() && b in facts.live && b < |g0| && g[b].s.Jmp? && UntouchedAbove(level[b])
      requires AllSettled(done) && NotAbove(level, b, done) && OthersSame(g0, g, done)
      modifies this`g
      ensures Valid() && UntouchedAbove(level[b]) && AllSettled(done + {b}) && OthersSame(g0, g, done + {b})
    {
      hide Careful, Concurs, ClosedUnder, SameRoutes, EdomSound, Settled, SettledAll, WellFormed, OnlyMoved, UntouchedAbove, Ranked,
        SameBlocks, Movable, NotAbove;
      RankedShape(g0, level);
      OthersAt(g0, g, level, done, b);
      ghost var mid := MoveEdges(b);
      SettledTwice(g0, old(g), mid, g, level, vals, oval, outUse, edom.Rows(), b, done);
      OthersStep(g0, old(g), mid, g, done, b);
    }

    /** Moves the edges of the blocks of level l. */
    method MoveLevel(levels: seq<seq<nat>>, l: nat)
      requires Valid() && EdomSound() && Ordered(g0, root, level, levels, facts.live) && 0 < l < |g0|
      requires UntouchedAbove(l - 1) && AllSettled(BelowLevel(facts.live, level, l)) && OthersSame(g0, g, BelowLevel(facts.live, level, l))
      modifies this`g
      ensures Valid() && UntouchedAbove(l)
      ensures AllSettled(BelowLevel(facts.live, level, l + 1)) && OthersSame(g0, g, BelowLevel(facts.live, level, l + 1))
    {
      assert |levels| == |g0|;
      hide Careful, Concurs, ClosedUnder, SameRoutes, EdomSound, SettledAll, WellFormed, Ranked, Ordered, BelowLevel,
        NotAbove;
      ghost var below := BelowLevel(facts.live, level, l);
      for k := 0 to |levels[l]|
        invariant Valid() && UntouchedAbove(l)
        invariant AllSettled(below + Elems(levels[l][..k])) && OthersSame(g0, g, below + Elems(levels[l][..k]))
      {
        LevelMember(g0, root, level, levels, facts.live, l, k);
        MoveBlock(levels[l][k], below + Elems(levels[l][..k]));
      }
      LevelComplete(g0, root, level, levels, facts.live, l);
    }

    /** Moves all edges, from the leaves up. On return no packet's result has changed, and no edge
        can be moved on by the edges that dominated it. */
    method MoveBranches(levels: seq<seq<nat>>, top: nat)
      requires Valid() && EdomSound() && Ordered(g0, root, level, levels, facts.live) && g == g0 && top == level[root]
      modifies this`g
      ensures Valid() && AllSettled(facts.live)
      ensures BlockLocal(g0, facts.live) ==>
        forall p, r :: p in facts.pkts ==> Walk(g, level, root, p, r) == Walk(g0, level, root, p, r)
    {
      LeavesBelow(g0, root, level, levels, facts.live);
      hide Careful, Concurs, ClosedUnder, SameRoutes, EdomSound, SettledAll, WellFormed, Ranked, Ordered, BelowLevel;
      SettledLeaves(g0, g, vals, oval, outUse, edom.Rows(), BelowLevel(facts.live, level, 1));
      for l := 1 to top + 1
        invariant Valid() && UntouchedAbove(l - 1) && AllSettled(BelowLevel(facts.live, level, l))
        invariant OthersSame(g0, g, BelowLevel(facts.live, level, l))
      {
        MoveLevel(levels, l);
      }
      ResultsKept(g0, g, level, root, facts);
    }
  }

  /** The live blocks below a level. */
  ghost function BelowLevel(live: set<nat>, level: seq<nat>, l: nat): set<nat> {
    set b | b in live && b < |level| && level[b] < l
  }

  ghost function Elems(bs: seq<nat>): set<nat> {
    set b | b in bs
  }

  lemma LevelMember(g: Graph, root: nat, level: seq<nat>, levels: seq<seq<nat>>, live: set<nat>, l: nat, k: nat)
    requires Ordered(g, root, level, levels, live) && 0 < l < |g| && k < |levels[l]|
    ensures var b := levels[l][k];
      && b in live && b < |g| && g[b].s.Jmp? && level[b] == l
      && NotAbove(level, b, BelowLevel(live, level, l) + Elems(levels[l][..k]))
      && BelowLevel(live, level, l) + Elems(levels[l][..k]) + {b} == BelowLevel(live, level, l) + Elems(levels[l][..k + 1])
  {
    var b := levels[l][k];
    assert levels[l][..k + 1] == levels[l][..k] + [b];
    assert b in live && level[b] == l;
  }

  lemma LevelComplete(g: Graph, root: nat, level: seq<nat>, levels: seq<seq<nat>>, live: set<nat>, l: nat)
    requires Ordered(g, root, level, levels, live) && l < |g|
    ensures BelowLevel(live, level, l) + Elems(levels[l][..|levels[l]|]) == BelowLevel(live, level, l + 1)
    ensures Elems(levels[l][..0]) == {}
  {
    assert levels[l][..|levels[l]|] == levels[l];
  }

  /** Only leaves are below level 1, and all live blocks below that above the root. */
  lemma LeavesBelow(g: Graph, root: nat, level: seq<nat>, levels: seq<seq<nat>>, live: set<nat>)
    requires Ordered(g, root, level, levels, live)
    ensures forall b :: b in BelowLevel(live, level, 1) ==> b < |g| && g[b].s.Ret?
    ensures BelowLevel(live, level, level[root] + 1) == live && level[root] < |g|
  {
  }

  lemma SettledLeaves(g0: Graph, g: Graph, vals: seq<Vals>, oval: seq<nat>, outUse: seq<set<nat>>, rows: seq<set<nat>>, done: set<nat>)
    requires WellFormed(g0) && WellFormed(g) && |g0| == |g| == |vals| == |oval| == |outUse| && |rows| == 2 * |g|
    requires forall b :: b in done ==> b < |g| && g[b].s.Ret?
    ensures SettledAll(g0, g, vals, oval, outUse, rows, done) && OthersSame(g, g, done)
  {
  }

  /** Where every block defines what it uses, keeping routes keeps results. */
  lemma ResultsKept(g: Graph, g': Graph, rank: seq<nat>, root: nat, f: Facts)
    requires Ranked(g, rank) && Ranked(g', rank) && SameBlocks(g, g') && root < |g| && SameRoutes(g, g', rank, root, f.pkts)
    requires ClosedUnder(g, root, f.live) && ClosedUnder(g', root, f.live)
    ensures BlockLocal(g, f.live) ==> forall p, r :: p in f.pkts ==> Walk(g', rank, root, p, r) == Walk(g, rank, root, p, r)
  {
    if BlockLocal(g, f.live) {
      SameBlocksLocal(g, g', f.live);
      forall p, r | p in f.pkts ensures Walk(g', rank, root, p, r) == Walk(g, rank, root, p, r) {
        WalkIsRoute(g, rank, f.live, root, p, r);
        WalkIsRoute(g', rank, f.live, root, p, r);
      }
    }
  }

  /** The blocks outside done are the same. */
  ghost predicate OthersSame(g0: Graph, g: Graph, done: set<nat>) {
    |g| == |g0| && forall b :: 0 <= b < |g0| && b !in done ==> g[b] == g0[b]
  }

  lemma OthersAt(g0: Graph, g: Graph, rank: seq<nat>, done: set<nat>, b: nat)
    requires OthersSame(g0, g, done) && NotAbove(rank, b, done) && b < |g0|
    ensures g[b] == g0[b]
  {
  }

  lemma OthersStep(g0: Graph, g1: Graph, g2: Graph, g3: Graph, done: set<nat>, b: nat)
    requires OthersSame(g0, g1, done) && b < |g0| && OnlyMoved(g1, g2, b) && OnlyMoved(g2, g3, b + |g0|)
    ensures OthersSame(g0, g3, done + {b})
  {
    OnlyEdge(g1, g2, b);
    OnlyEdge(g2, g3, b + |g0|);
  }

  /** Edge e leads where it led, or further down. */
  ghost predicate Lower(g: Graph, g': Graph, rank: seq<nat>, e: nat)
    requires |rank| == |g| == |g'| && WellFormed(g) && WellFormed(g') && e < 2 * |g|
  {
    && EdgeTarget(g, e) != NIL && EdgeTarget(g', e) != NIL
    && (EdgeTarget(g', e) == EdgeTarget(g, e) || rank[EdgeTarget(g', e)] < rank[EdgeTarget(g, e)])
  }

  lemma LeafUnfoldable(g: Graph, vals: seq<Vals>, oval: seq<nat>, outUse: seq<set<nat>>, row: set<nat>, e: nat)
    requires WellFormed(g) && |g| == |vals| == |oval| == |outUse| && e < 2 * |g| && EdgeTarget(g, e) != NIL && g[EdgeTarget(g, e)].s.Ret?
    ensures Unfoldable(g, vals, oval, outUse, row, e)
  {
  }

  /** An edge that has been moved past a block with one successor does not come back to it. */
  lemma MovedBelow(g0: Graph, g1: Graph, g2: Graph, g: Graph, rank: seq<nat>, vals: seq<Vals>, outUse: seq<set<nat>>, e: nat)
    requires WellFormed(g0) && Ranked(g1, rank) && Ranked(g, rank) && WellFormed(g2) && |g0| == |g1| == |g2| == |g| == |vals| == |outUse|
    requires OnlyMoved(g1, g, e) && e < 2 * |g| && Lower(g2, g, rank, e) && EdgeTarget(g1, e) == EdgeTarget(g0, e) != NIL
    requires var d := EdgeTarget(g1, e);
      || (EdgeTarget(g2, e) != NIL && rank[EdgeTarget(g2, e)] < rank[d])
      || g1[d].jt != g1[d].jf
      || (0 <= g1[d].jt < |g| && Conflict(vals, outUse, EdgeSource(g1, e), g1[d].jt))
    ensures Skipped(g0, g, vals, outUse, e)
  {
    hide Conflict;
    OnlyEdge(g1, g, e);
    RankedAt(g1, rank, EdgeSource(g1, e));
  }

  lemma MovedOther(g: Graph, g': Graph, e: nat, f: nat)
    requires OnlyMoved(g, g', e) && f < 2 * |g| && f != e
    ensures EdgeTarget(g', f) == EdgeTarget(g, f)
  {
  }

  // ---------------------------------------------------------------------------------------
  // Where edges end up
  // ---------------------------------------------------------------------------------------

  /** Some register that is live out of block c has another number there than at the end of block b. */
  ghost predicate Broken(vals: seq<Vals>, outUse: seq<set<nat>>, b: nat, c: int) {
    exists a :: 0 <= a < N_ATOMS && b < |vals| && 0 <= c < |vals| == |outUse| && a in outUse[c] && vals[b][a] != vals[c][a]
  }

  /** An edge that leads elsewhere in g than in g0 breaks no register. */
  ghost predicate Careful(g0: Graph, g: Graph, vals: seq<Vals>, outUse: seq<set<nat>>) {
    && WellFormed(g0) && WellFormed(g) && |g0| == |g| == |vals| == |outUse|
    && forall e :: 0 <= e < 2 * |g| && EdgeTarget(g, e) != EdgeTarget(g0, e) ==> !Broken(vals, outUse, EdgeSource(g, e), EdgeTarget(g, e))
  }

  lemma CarefulStart(g: Graph, vals: seq<Vals>, outUse: seq<set<nat>>)
    requires WellFormed(g) && |g| == |vals| == |outUse|
    ensures Careful(g, g, vals, outUse)
  {
  }

  lemma CarefulMove(g0: Graph, g: Graph, g': Graph, vals: seq<Vals>, outUse: seq<set<nat>>, e: nat, c: nat)
    requires Careful(g0, g, vals, outUse) && OnlyMoved(g, g', e) && e < 2 * |g| && EdgeTarget(g', e) == c < |g|
    requires !Conflict(vals, outUse, EdgeSource(g, e), c)
    ensures Careful(g0, g', vals, outUse)
  {
    hide Broken, Conflict, WellFormed;
    ConflictBreaks(vals, outUse, EdgeSource(g, e), c);
    assert |g'| == |g|;
    forall f | 0 <= f < 2 * |g| && EdgeTarget(g', f) != EdgeTarget(g0, f) ensures !Broken(vals, outUse, EdgeSource(g', f), EdgeTarget(g', f)) {
      assert EdgeSource(g', f) == EdgeSource(g, f);
    }
  }

  /** Edge e cannot be moved on by edge k. If it leads to a block that makes the same comparison as the block of k, with the
      same numbers for A and for the operand, then a register is broken that is live out of the successor on the side of k.
      If k is the true edge of a test for equality with a constant, and e leads to such a test with another constant, then
      one is broken that is live out of the false successor. */
  ghost predicate StuckBehind(g: Graph, vals: seq<Vals>, oval: seq<nat>, outUse: seq<set<nat>>, k: nat, e: nat)
    requires WellFormed(g) && |g| == |vals| == |oval| == |outUse| && e < 2 * |g| && k < 2 * |g|
  {
    var b, q, d := EdgeSource(g, e), EdgeSource(g, k), EdgeTarget(g, e);
    d != NIL && g[q].s.Jmp? && g[d].s.Jmp? && g[q].s.cmp == g[d].s.cmp && g[q].s.src == g[d].s.src && vals[q][A_ATOM] == vals[d][A_ATOM] ==>
      && (oval[q] == oval[d] ==> Broken(vals, outUse, b, if k < |g| then g[d].jt else g[d].jf))
      && (oval[q] != oval[d] && k < |g| && g[d].s.cmp == Jeq && g[d].s.src == SrcK ==> Broken(vals, outUse, b, g[d].jf))
  }

  /** Edge e cannot be moved past the block it led to in g0. If it still leads there, and both successors of that block are
      the same, then a register is broken that is live out of that successor. */
  ghost predicate StuckBefore(g0: Graph, g: Graph, vals: seq<Vals>, outUse: seq<set<nat>>, e: nat)
    requires WellFormed(g0) && WellFormed(g) && |g0| == |g| == |vals| == |outUse| && e < 2 * |g|
  {
    var d := EdgeTarget(g, e);
    d != NIL && d == EdgeTarget(g0, e) && g[d].s.Jmp? && g[d].jt == g[d].jf ==> Broken(vals, outUse, EdgeSource(g, e), g[d].jt)
  }

  /** No edge out of a block of live can be moved further: not by an edge that dominates it in graph, nor past the block it
      led to in g0. */
  ghost predicate Exhausted(graph: Graph, root: nat, g0: Graph, g: Graph, vals: seq<Vals>, oval: seq<nat>, outUse: seq<set<nat>>, live: set<nat>) {
    && WellFormed(graph) && WellFormed(g0) && WellFormed(g) && |graph| == |g0| == |g| == |vals| == |oval| == |outUse|
    && forall e :: 0 <= e < 2 * |g| && EdgeSource(g, e) in live && g[EdgeSource(g, e)].s.Jmp? ==>
         && StuckBefore(g0, g, vals, outUse, e)
         && forall k :: 0 <= k < 2 * |g| && EdgeDominates(graph, root, k, e) ==> StuckBehind(g, vals, oval, outUse, k, e)
  }

  lemma SettledStuck(g0: Graph, g: Graph, vals: seq<Vals>, oval: seq<nat>, outUse: seq<set<nat>>, row: set<nat>, e: nat, k: nat)
    requires WellFormed(g0) && WellFormed(g) && |g0| == |g| == |vals| == |oval| == |outUse| && e < 2 * |g| && k < 2 * |g|
    requires Settled(g0, g, vals, oval, outUse, row, e)
    ensures StuckBefore(g0, g, vals, outUse, e) && (k in row ==> StuckBehind(g, vals, oval, outUse, k, e))
  {
    var d := EdgeTarget(g, e);
    WellFormedAt(g, EdgeSource(g, e));
    if d != NIL {
      WellFormedAt(g, d);
      hide WellFormed;
      ConflictBreaks(vals, outUse, EdgeSource(g, e), g[d].jt);
      ConflictBreaks(vals, outUse, EdgeSource(g, e), g[d].jf);
      hide Broken, Conflict;
      if k in row { assert !CanFold(g, vals, oval, outUse, e, k) || g[d].s.Ret?; }
    }
  }

  lemma ConflictBreaks(vals: seq<Vals>, outUse: seq<set<nat>>, b: nat, c: int)
    requires b < |vals| && |vals| == |outUse|
    ensures 0 <= c < |vals| ==> (Conflict(vals, outUse, b, c) <==> Broken(vals, outUse, b, c))
  {
  }

  lemma AllStuck(graph: Graph, root: nat, g0: Graph, g: Graph, vals: seq<Vals>, oval: seq<nat>, outUse: seq<set<nat>>, rows: seq<set<nat>>,
                 live: set<nat>)
    requires WellFormed(graph) && WellFormed(g0) && WellFormed(g) && |graph| == |g0| == |g| == |vals| == |oval| == |outUse| && |rows| == 2 * |g|
    requires forall e, k :: 0 <= e < 2 * |g| && 0 <= k < 2 * |g| && EdgeDominates(graph, root, k, e) ==> k in rows[e]
    requires SettledAll(g0, g, vals, oval, outUse, rows, live)
    ensures Exhausted(graph, root, g0, g, vals, oval, outUse, live)
  {
    hide Settled, StuckBefore, StuckBehind, EdgeDominates, WellFormed;
    forall e | 0 <= e < 2 * |g| && EdgeSource(g, e) in live && g[EdgeSource(g, e)].s.Jmp?
      ensures StuckBefore(g0, g, vals, outUse, e)
      ensures forall k :: 0 <= k < 2 * |g| && EdgeDominates(graph, root, k, e) ==> StuckBehind(g, vals, oval, outUse, k, e)
    {
      var b := EdgeSource(g, e);
      assert SettledBlock(g0, g, vals, oval, outUse, rows, b);
      assert e == b || e == b + |g|;
      SettledStuck(g0, g, vals, oval, outUse, rows[e], e, 0);
      forall k | 0 <= k < 2 * |g| && EdgeDominates(graph, root, k, e) ensures StuckBehind(g, vals, oval, outUse, k, e) {
        SettledStuck(g0, g, vals, oval, outUse, rows[e], e, k);
      }
    }
  }

  /** g' is g but for where edge e leads. */
  ghost predicate OnlyMoved(g: Graph, g': Graph, e: nat) {
    && WellFormed(g) && WellFormed(g') && SameBlocks(g, g') && e < 2 * |g|
    && forall f :: 0 <= f < 2 * |g| && f != e ==> EdgeTarget(g', f) == EdgeTarget(g, f)
  }

  lemma MovedNot(g: Graph, e: nat)
    requires WellFormed(g) && e < 2 * |g|
    ensures OnlyMoved(g, g, e)
  {
  }

  lemma MovedTwice(g: Graph, g1: Graph, g2: Graph, e: nat)
    requires OnlyMoved(g, g1, e) && OnlyMoved(g1, g2, e)
    ensures OnlyMoved(g, g2, e)
  {
  }

  /** When only edge e has moved, only its source has changed. */
  lemma OnlyEdge(g: Graph, g': Graph, e: nat)
    requires WellFormed(g) && WellFormed(g') && e < 2 * |g|
    requires OnlyMoved(g, g', e)
    ensures forall b :: 0 <= b < |g| && b != EdgeSource(g, e) ==> g'[b] == g[b]
  {
    forall b | 0 <= b < |g| && b != EdgeSource(g, e) ensures g'[b] == g[b] {
      assert EdgeTarget(g', b) == EdgeTarget(g, b) && EdgeTarget(g', b + |g|) == EdgeTarget(g, b + |g|);
    }
  }

  lemma MovedJmp(g: Graph, g': Graph, e: nat)
    requires OnlyMoved(g, g', e)
    ensures |g'| == |g| && forall b :: 0 <= b < |g| ==> g'[b].s == g[b].s
  {
  }

  /** Moving edge e does not unsettle an edge whose source is not above e's. */
  lemma SettledStays(g0: Graph, g: Graph, g': Graph, rank: seq<nat>, vals: seq<Vals>, oval: seq<nat>, outUse: seq<set<nat>>,
                     row: set<nat>, e: nat, f: nat)
    requires Ranked(g, rank) && Ranked(g', rank) && OnlyMoved(g, g', e) && WellFormed(g0) && |g0| == |g| == |vals| == |oval| == |outUse|
    requires f < 2 * |g| && e != f && rank[EdgeSource(g, f)] <= rank[EdgeSource(g, e)]
    requires Settled(g0, g, vals, oval, outUse, row, f)
    ensures Settled(g0, g', vals, oval, outUse, row, f)
  {
    RankedAt(g, rank, EdgeSource(g, f));
    OnlyEdge(g, g', e);
    var d := EdgeTarget(g, f);
    assert g'[d] == g[d];
    forall k | k in row && k < 2 * |g| ensures CanFold(g', vals, oval, outUse, f, k) == CanFold(g, vals, oval, outUse, f, k) {
      assert g'[EdgeSource(g, k)].s == g[EdgeSource(g, k)].s;
    }
  }

  /** The blocks in done are others than b, none of them ranked above it. */
  ghost predicate NotAbove(rank: seq<nat>, b: nat, done: set<nat>) {
    b < |rank| && b !in done && forall c :: c in done ==> c < |rank| && rank[c] <= rank[b]
  }

  lemma SettledThrough(g0: Graph, g1: Graph, g2: Graph, g3: Graph, rank: seq<nat>, vals: seq<Vals>, oval: seq<nat>,
                       outUse: seq<set<nat>>, row: set<nat>, b: nat, f: nat)
    requires Ranked(g1, rank) && Ranked(g2, rank) && Ranked(g3, rank) && |g1| == |g2| == |g3|
    requires OnlyMoved(g1, g2, b) && OnlyMoved(g2, g3, b + |g1|)
    requires WellFormed(g0) && |g0| == |g1| == |vals| == |oval| == |outUse| && b < |g1| && f < 2 * |g1| && f != b && f != b + |g1|
    requires rank[EdgeSource(g1, f)] <= rank[b] && Settled(g0, g1, vals, oval, outUse, row, f)
    ensures Settled(g0, g3, vals, oval, outUse, row, f)
  {
    hide Settled, WellFormed, OnlyMoved, Ranked;
    RankedShape(g1, rank);
    SettledStays(g0, g1, g2, rank, vals, oval, outUse, row, b, f);
    SettledStays(g0, g2, g3, rank, vals, oval, outUse, row, b + |g1|, f);
  }

  lemma SettledOther(g0: Graph, g1: Graph, g2: Graph, g3: Graph, rank: seq<nat>, vals: seq<Vals>, oval: seq<nat>,
                     outUse: seq<set<nat>>, rows: seq<set<nat>>, b: nat, c: nat)
    requires Ranked(g1, rank) && Ranked(g2, rank) && Ranked(g3, rank) && |g1| == |g2| == |g3|
    requires OnlyMoved(g1, g2, b) && OnlyMoved(g2, g3, b + |g1|)
    requires WellFormed(g0) && |g0| == |g1| == |vals| == |oval| == |outUse| && |rows| == 2 * |g1| && b < |g1|
    requires c < |g1| && c != b && rank[c] <= rank[b] && SettledBlock(g0, g1, vals, oval, outUse, rows, c)
    ensures SettledBlock(g0, g3, vals, oval, outUse, rows, c)
  {
    hide Settled, WellFormed, OnlyMoved, Ranked;
    var n := |g1|;
    MovedJmp(g1, g2, b);
    MovedJmp(g2, g3, b + n);
    RankedShape(g1, rank);
    RankedShape(g3, rank);
    if g3[c].s.Jmp? {
      SettledThrough(g0, g1, g2, g3, rank, vals, oval, outUse, rows[c], b, c);
      SettledThrough(g0, g1, g2, g3, rank, vals, oval, outUse, rows[c + n], b, c + n);
    }
  }

  lemma SettledTwice(g0: Graph, g1: Graph, g2: Graph, g3: Graph, rank: seq<nat>, vals: seq<Vals>, oval: seq<nat>,
                     outUse: seq<set<nat>>, rows: seq<set<nat>>, b: nat, done: set<nat>)
    requires Ranked(g1, rank) && Ranked(g2, rank) && Ranked(g3, rank) && |g1| == |g2| == |g3|
    requires OnlyMoved(g1, g2, b) && OnlyMoved(g2, g3, b + |g1|)
    requires WellFormed(g0) && |g0| == |g1| == |vals| == |oval| == |outUse| && |rows| == 2 * |g1| && b < |g1|
    requires Settled(g0, g2, vals, oval, outUse, rows[b], b)
    requires Settled(g0, g3, vals, oval, outUse, rows[b + |g1|], b + |g1|)
    requires NotAbove(rank, b, done)
    requires SettledAll(g0, g1, vals, oval, outUse, rows, done)
    ensures SettledAll(g0, g3, vals, oval, outUse, rows, done + {b})
  {
    var n := |g1|;
    MovedJmp(g1, g2, b);
    MovedJmp(g2, g3, b + n);
    RankedShape(g1, rank);
    RankedShape(g3, rank);
    hide Settled, WellFormed, OnlyMoved, Ranked, EdgeTarget;
    SettledStays(g0, g2, g3, rank, vals, oval, outUse, rows[b], b + n, b);
    forall c | c in done + {b} ensures SettledBlock(g0, g3, vals, oval, outUse, rows, c) {
      if c != b { SettledOther(g0, g1, g2, g3, rank, vals, oval, outUse, rows, b, c); }
    }
  }

  /** Letting e lead to c keeps the graph acyclic and every packet's route. */
  ghost predicate MoveOk(g: Graph, rank: seq<nat>, root: nat, f: Facts, e: nat, c: int)
    requires Ranked(g, rank) && root < |g| && e < 2 * |g|
  {
    && 0 <= c < |g| && c in f.live
    && EdgeTarget(g, e) != NIL && rank[c] < rank[EdgeTarget(g, e)] < rank[EdgeSource(g, e)]
    && Ranked(SetTarget(g, e, c), rank) && SameRoutes(g, SetTarget(g, e, c), rank, root, f.pkts)
  }

  lemma MoveMade(g0: Graph, g: Graph, rank: seq<nat>, root: nat, f: Facts, e: nat, c: nat)
    requires Ranked(g, rank) && Ranked(g0, rank) && root < |g| && e < 2 * |g| && MoveOk(g, rank, root, f, e, c)
    requires SameBlocks(g0, g) && SameRoutes(g0, g, rank, root, f.pkts) && g[EdgeSource(g, e)].s.Jmp?
    requires SameAbove(g0, g, rank, rank[EdgeSource(g, e)])
    ensures var g' := SetTarget(g, e, c);
      && WellFormed(g) && c in f.live && c < |g| && EdgeTarget(g, e) != NIL && rank[c] < rank[EdgeTarget(g, e)]
      && Ranked(g', rank) && WellFormed(g') && |g'| == |g0| && SameBlocks(g0, g') && SameRoutes(g0, g', rank, root, f.pkts)
      && EdgeTarget(g', e) == c && OnlyMoved(g, g', e) && g'[EdgeSource(g, e)].s.Jmp?
      && SameAbove(g0, g', rank, rank[EdgeSource(g, e)])
  {
    SetTargetRanked(g, rank, e, c);
    hide Route;
  }

  lemma FoldFound(g: Graph, vals: seq<Vals>, oval: seq<nat>, outUse: seq<set<nat>>, e: nat, k: nat)
    requires WellFormed(g) && |g| == |vals| == |oval| == |outUse| && e < 2 * |g| && k < 2 * |g| && CanFold(g, vals, oval, outUse, e, k)
    ensures EdgeTarget(g, e) != NIL && FoldEdge(g, vals, oval, EdgeTarget(g, e), k) != NIL
    ensures 0 <= FoldEdge(g, vals, oval, EdgeTarget(g, e), k) < |g|
    ensures !Conflict(vals, outUse, EdgeSource(g, e), FoldEdge(g, vals, oval, EdgeTarget(g, e), k))
  {
  }

  lemma RowAt(g: Graph, rank: seq<nat>, root: nat, f: Facts, k: nat, e: nat, p: Packet)
    requires Ranked(g, rank) && e < 2 * |g| && RowSound(g, rank, root, f, {k}, e) && p in f.pkts
    ensures k < 2 * |g| && EdgeSource(g, k) in f.live && rank[EdgeSource(g, e)] <= rank[EdgeSource(g, k)]
    ensures TravelPasses(g, root, EdgeSource(g, k), e, p) && (EdgeSource(g, k) !in f.swapped ==> TravelDominates(g, root, k, e, p))
  {
    assert k in {k};
  }

  /** The edges of a row of dominators, and their blocks, come before e on every packet's way in the graph as it is. */
  lemma RowPrecedes(g0: Graph, g: Graph, rank: seq<nat>, root: nat, f: Facts, e: nat, k: nat, p: Packet)
    requires Ranked(g0, rank) && Ranked(g, rank) && SameBlocks(g0, g) && e < 2 * |g0| && k < 2 * |g| && p in f.pkts
    requires RowSound(g0, rank, root, f, {k}, e) && SameAbove(g0, g, rank, rank[EdgeSource(g0, e)])
    ensures TravelPasses(g, root, EdgeSource(g, k), e, p) && (EdgeSource(g, k) !in f.swapped ==> TravelDominates(g, root, k, e, p))
  {
    hide TravelDominates, TravelPasses, SameAbove, RowSound, Ranked, SameBlocks, WellFormed;
    RankedShape(g, rank);
    RankedShape(g0, rank);
    SameSize(g0, g);
    RowAt(g0, rank, root, f, k, e, p);
    PrecedingStays(g0, g, rank, root, EdgeSource(g, k), e, p);
    PrecedingStays(g0, g, rank, root, k, e, p);
  }

  lemma FoldMoveOk(g0: Graph, g: Graph, rank: seq<nat>, root: nat, vals: seq<Vals>, oval: seq<nat>, f: Facts, e: nat, k: nat)
    requires Ranked(g0, rank) && Ranked(g, rank) && SameBlocks(g0, g) && root < |g| == |g0|
    requires ClosedUnder(g, root, f.live) && Concurs(g0, rank, root, vals, oval, f) && SameRoutes(g0, g, rank, root, f.pkts)
    requires e < 2 * |g0| && k < 2 * |g| && EdgeSource(g, e) in f.live && EdgeTarget(g, e) != NIL
    requires RowSound(g0, rank, root, f, {k}, e) && SameAbove(g0, g, rank, rank[EdgeSource(g0, e)])
    requires |vals| == |oval| == |g| && FoldEdge(g, vals, oval, EdgeTarget(g, e), k) != NIL
    ensures MoveOk(g, rank, root, f, e, FoldEdge(g, vals, oval, EdgeTarget(g, e), k))
  {
    var c := FoldEdge(g, vals, oval, EdgeTarget(g, e), k);
    FoldTarget(g, rank, root, vals, oval, f.live, e, k);
    hide FoldEdge, Concurs, SameAbove, RowSound, Ranked, SameBlocks, Closed, TravelPasses, TravelDominates, Visits;
    forall p | p in f.pkts
      ensures Route(SetTarget(g, e, c), rank, root, p) == Route(g, rank, root, p)
      ensures Visits(SetTarget(g, e, c), rank, root, p) <= Visits(g, rank, root, p)
    {
      RowPrecedes(g0, g, rank, root, f, e, k, p);
      FoldMoveSound(g0, g, rank, root, vals, oval, f, e, k, p);
    }
  }

  lemma SkipMoveOk(g: Graph, rank: seq<nat>, root: nat, f: Facts, e: nat)
    requires Ranked(g, rank) && root < |g| && ClosedUnder(g, root, f.live) && e < 2 * |g| && EdgeSource(g, e) in f.live
    requires var d := EdgeTarget(g, e); d != NIL && g[d].s.Jmp? && g[d].jt == g[d].jf
    ensures MoveOk(g, rank, root, f, e, g[EdgeTarget(g, e)].jt)
  {
    var c := g[EdgeTarget(g, e)].jt;
    RankedAt(g, rank, EdgeSource(g, e));
    SkipMoveSound(g, rank, root, e, Packet(map[], ZERO));
    forall p
      ensures Route(SetTarget(g, e, c), rank, root, p) == Route(g, rank, root, p)
      ensures Visits(SetTarget(g, e, c), rank, root, p) <= Visits(g, rank, root, p)
    {
      SkipMoveSound(g, rank, root, e, p);
    }
  }

  /** Live blocks still lead to live blocks when an edge moves. */
  lemma RetargetKeeps(g: Graph, root: nat, live: set<nat>, e: nat, c: nat)
    requires WellFormed(g) && e < 2 * |g| && WellFormed(SetTarget(g, e, c)) && c in live && ClosedUnder(g, root, live)
    ensures ClosedUnder(SetTarget(g, e, c), root, live)
  {
  }
}
