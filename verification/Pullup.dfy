/**
 Pulling a test up a chain of tests that share one target, next to the tests that compare the
 same value.
 */
module Pullup {
  import opened Machine
  import opened Flow
  import opened Values
  import opened Local
  import opened ValuePass
  import opened Dominance
  import opened BranchMove
  import Analysis
  import BitSets

  /** The true successor of a block, or the false one. */
  function Side(blk: Block, side: bool): int {
    if side then blk.jt else blk.jf
  }

  /** The true edge of a block, or the false one. */
  function EdgeOf(g: Graph, b: nat, side: bool): (e: nat)
    requires b < |g|
    ensures e < 2 * |g| && EdgeSource(g, e) == b
  {
    if side then b else b + |g|
  }

  lemma EdgeOfTarget(g: Graph, b: nat, side: bool)
    requires WellFormed(g) && b < |g|
    ensures EdgeTarget(g, EdgeOf(g, b, side)) == Side(g[b], side)
  {
  }

  // ---------------------------------------------------------------------------------------
  // Chains
  // ---------------------------------------------------------------------------------------

  /** Blocks that share their successor on one side and are linked on the other, all of them
      dominated by b. */
  ghost predicate Chain(g: Graph, root: nat, b: nat, sense: bool, cs: seq<nat>)
    requires WellFormed(g) && b < |g|
  {
    && (forall i :: 0 <= i < |cs| ==> Link(g, root, b, sense, cs[i]))
    && (forall i :: 0 < i < |cs| ==> cs[i] == Side(g[cs[i - 1]], !sense))
  }

  ghost predicate Link(g: Graph, root: nat, b: nat, sense: bool, c: nat)
    requires WellFormed(g) && b < |g|
  {
    c < |g| && g[c].s.Jmp? && Side(g[c], sense) == Side(g[b], sense) && Dominates(g, root, b, c)
  }

  lemma LinkRank(g: Graph, rank: seq<nat>, root: nat, b: nat, sense: bool, c: nat)
    requires Ranked(g, rank) && b < |g| && Link(g, root, b, sense, c)
    ensures 0 <= Side(g[c], sense) < |g| && 0 <= Side(g[c], !sense) < |g|
    ensures rank[Side(g[c], sense)] < rank[c] && rank[Side(g[c], !sense)] < rank[c]
  {
    RankedAt(g, rank, c);
  }

  lemma {:induction false} ChainDescends(g: Graph, rank: seq<nat>, root: nat, b: nat, sense: bool, cs: seq<nat>, i: nat, j: nat)
    requires Ranked(g, rank) && b < |g| && Chain(g, root, b, sense, cs) && i < j < |cs|
    ensures rank[cs[j]] < rank[cs[i]]
    decreases j
  {
    LinkRank(g, rank, root, b, sense, cs[j - 1]);
    if i < j - 1 { ChainDescends(g, rank, root, b, sense, cs, i, j - 1); }
  }

  lemma {:induction false} PathRank(g: Graph, rank: seq<nat>, path: seq<nat>, i: nat)
    requires Ranked(g, rank) && IsPath(g, path) && i < |path|
    ensures rank[path[|path| - 1]] <= rank[path[i]]
    decreases |path| - i
  {
    if i < |path| - 1 {
      RankedAt(g, rank, path[i]);
      assert path[i + 1] in Succs(g, path[i]);
      PathRank(g, rank, path, i + 1);
    }
  }

  /** A path from the head of a chain that ends above cs[i] has not left the chain: whoever
      leaves it gets below all of it. */
  lemma {:induction false} PathFollowsChain(g: Graph, rank: seq<nat>, root: nat, b: nat, sense: bool, cs: seq<nat>, i: nat,
                                            path: seq<nat>, j: nat)
    requires Ranked(g, rank) && b < |g| && Chain(g, root, b, sense, cs) && i < |cs| && cs[0] == b
    requires IsPath(g, path) && path[0] == b && rank[path[|path| - 1]] > rank[cs[i]] && j < |path|
    ensures j < i && path[j] == cs[j]
    decreases j
  {
    PathRank(g, rank, path, j);
    if j > 0 {
      PathFollowsChain(g, rank, root, b, sense, cs, i, path, j - 1);
      assert path[j] in Succs(g, cs[j - 1]);
      LinkRank(g, rank, root, b, sense, cs[i]);
      assert Link(g, root, b, sense, cs[j - 1]);
      assert path[j] == cs[j];
    }
    if i < j { ChainDescends(g, rank, root, b, sense, cs, i, j); }
  }

  /** What b dominates is reached from b. */
  lemma PathFrom(g: Graph, rank: seq<nat>, root: nat, b: nat, y: nat) returns (path: seq<nat>)
    requires Ranked(g, rank) && root < |g| && y in Reach(g, rank, root) && Dominates(g, root, b, y)
    ensures PathFromTo(g, path, b, y)
  {
    var whole := ReachHasPath(g, rank, root, y);
    var k :| 0 <= k < |whole| && whole[k] == b;
    path := whole[k..];
  }

  /** The only way into a block of the chain, but for its head, is from the block before it. */
  lemma OnlyPredecessor(g: Graph, rank: seq<nat>, root: nat, b: nat, sense: bool, cs: seq<nat>, i: nat, f: nat)
    requires Ranked(g, rank) && root < |g| && b < |g| && Chain(g, root, b, sense, cs) && 0 < i < |cs| && cs[0] == b
    requires PredEdge(g, Reach(g, rank, root), f, cs[i])
    ensures f == EdgeOf(g, cs[i - 1], !sense)
  {
    var x, y := cs[i], EdgeSource(g, f);
    RankedAt(g, rank, y);
    ChainDescends(g, rank, root, b, sense, cs, 0, i);
    assert Link(g, root, b, sense, x);
    DominatesPredecessor(g, rank, root, b, y, x);
    var path := PathFrom(g, rank, root, b, y);
    var j := |path| - 1;
    PathFollowsChain(g, rank, root, b, sense, cs, i, path, j);
    LinkRank(g, rank, root, b, sense, x);
    assert Link(g, root, b, sense, cs[j]);
    assert f == EdgeOf(g, y, !sense);
    assert cs[j + 1] == x;
    if j + 1 < i { ChainDescends(g, rank, root, b, sense, cs, j + 1, i); }
  }

  lemma DominatesPredecessor(g: Graph, rank: seq<nat>, root: nat, b: nat, y: nat, x: nat)
    requires Ranked(g, rank) && root < |g| && y in Reach(g, rank, root) && x in Succs(g, y)
    requires Dominates(g, root, b, x) && b != x
    ensures Dominates(g, root, b, y)
  {
    forall path | PathFromTo(g, path, root, y) ensures b in path {
      assert PathFromTo(g, path + [x], root, x);
    }
  }

  // ---------------------------------------------------------------------------------------
  // The graph after a pull-up
  // ---------------------------------------------------------------------------------------

  /** Where edge f leads once s is taken out of the chain and put before d. */
  ghost function NewTarget(g: Graph, live: set<nat>, sense: bool, d: nat, s: nat, f: nat): int
    requires WellFormed(g) && d < |g| && s < |g| && f < 2 * |g|
  {
    if f == EdgeOf(g, s, !sense) then d
    else if PredEdge(g, live, f, d) then s
    else if PredEdge(g, live, f, s) then Side(g[s], !sense)
    else EdgeTarget(g, f)
  }

  ghost predicate Pulled(g: Graph, g': Graph, live: set<nat>, sense: bool, d: nat, s: nat) {
    && WellFormed(g) && WellFormed(g') && SameBlocks(g, g') && d < |g| && s < |g|
    && forall f :: 0 <= f < 2 * |g| ==> EdgeTarget(g', f) == NewTarget(g, live, sense, d, s, f)
  }

  /** A stretch of a chain, each block of which can only be entered from the one before. */
  ghost predicate Stretch(g: Graph, live: set<nat>, sense: bool, ds: seq<nat>, t: int)
    requires WellFormed(g)
  {
    && |ds| >= 2
    && (forall i :: 0 <= i < |ds| ==> ds[i] < |g| && ds[i] in live && g[ds[i]].s.Jmp? && Side(g[ds[i]], sense) == t)
    && (forall i :: 0 < i < |ds| ==> ds[i] == Side(g[ds[i - 1]], !sense))
    && (forall i, f :: 0 < i < |ds| && PredEdge(g, live, f, ds[i]) ==> f == EdgeOf(g, ds[i - 1], !sense))
  }

  lemma StretchAt(g: Graph, rank: seq<nat>, live: set<nat>, sense: bool, ds: seq<nat>, t: int, i: nat)
    requires Ranked(g, rank) && Stretch(g, live, sense, ds, t) && i < |ds|
    ensures ds[i] < |g| && ds[i] in live && g[ds[i]].s.Jmp? && Side(g[ds[i]], sense) == t
    ensures 0 <= t < |g| && 0 <= Side(g[ds[i]], !sense) < |g|
    ensures rank[t] < rank[ds[i]] && rank[Side(g[ds[i]], !sense)] < rank[ds[i]]
    ensures i + 1 < |ds| ==> ds[i + 1] == Side(g[ds[i]], !sense)
  {
    RankedAt(g, rank, ds[i]);
  }

  lemma {:induction false} StretchDescends(g: Graph, rank: seq<nat>, live: set<nat>, sense: bool, ds: seq<nat>, t: int, i: nat, j: nat)
    requires Ranked(g, rank) && Stretch(g, live, sense, ds, t) && i < j < |ds|
    ensures rank[ds[j]] < rank[ds[i]]
    decreases j
  {
    StretchAt(g, rank, live, sense, ds, t, j - 1);
    if i < j - 1 { StretchDescends(g, rank, live, sense, ds, t, i, j - 1); }
  }

  /** Where the edges of the stretch lead after the pull-up. */
  lemma StretchTargets(g: Graph, g': Graph, rank: seq<nat>, live: set<nat>, sense: bool, ds: seq<nat>, t: int, i: nat)
    requires Ranked(g, rank) && Stretch(g, live, sense, ds, t) && Pulled(g, g', live, sense, ds[0], ds[|ds| - 1]) && i < |ds|
    ensures var n := |ds| - 1;
      && Side(g'[ds[i]], sense) == t
      && Side(g'[ds[i]], !sense) == if i == n then ds[0] else if i == n - 1 then Side(g[ds[n]], !sense) else ds[i + 1]
  {
    var n, b := |ds| - 1, ds[i];
    StretchAt(g, rank, live, sense, ds, t, i);
    StretchAt(g, rank, live, sense, ds, t, 0);
    StretchAt(g, rank, live, sense, ds, t, n);
    StretchDescends(g, rank, live, sense, ds, t, 0, n);
    if i < n {
      StretchDescends(g, rank, live, sense, ds, t, i, n);
      StretchDescends(g, rank, live, sense, ds, t, 0, i + 1);
      if i + 1 < n { StretchDescends(g, rank, live, sense, ds, t, i + 1, n); }
    }
    assert EdgeTarget(g, EdgeOf(g, b, sense)) == t && EdgeTarget(g, EdgeOf(g, b, !sense)) == Side(g[b], !sense);
    assert EdgeTarget(g', EdgeOf(g, b, sense)) == NewTarget(g, live, sense, ds[0], ds[n], EdgeOf(g, b, sense));
    assert EdgeTarget(g', EdgeOf(g, b, !sense)) == NewTarget(g, live, sense, ds[0], ds[n], EdgeOf(g, b, !sense));
  }

  /** Ranks for the new graph: s just above d, and dead blocks above whatever they may lead to. */
  ghost function PullRank(rank: seq<nat>, live: set<nat>, d: nat, s: nat): (r: seq<nat>)
    requires d < |rank|
    ensures |r| == |rank|
  {
    seq(|rank|, i requires 0 <= i < |rank| =>
      if i == s then 2 * rank[d] + 1 else if i in live then 2 * rank[i] else 2 * rank[i] + 2 * rank[d] + 2)
  }

  lemma PulledEdgeRank(g: Graph, g': Graph, rank: seq<nat>, live: set<nat>, sense: bool, ds: seq<nat>, t: int, y: nat, side: bool)
    requires Ranked(g, rank) && Closed(g, live) && Stretch(g, live, sense, ds, t)
    requires Pulled(g, g', live, sense, ds[0], ds[|ds| - 1]) && y < |g| && g[y].s.Jmp?
    ensures 0 <= Side(g'[y], side) < |g|
    ensures var r := PullRank(rank, live, ds[0], ds[|ds| - 1]); r[Side(g'[y], side)] < r[y]
  {
    var n, f := |ds| - 1, EdgeOf(g, y, side);
    RankedAt(g, rank, y);
    StretchAt(g, rank, live, sense, ds, t, 0);
    StretchAt(g, rank, live, sense, ds, t, n);
    StretchDescends(g, rank, live, sense, ds, t, 0, n);
    assert EdgeTarget(g', f) == Side(g'[y], side) && EdgeTarget(g, f) == Side(g[y], side);
    assert EdgeTarget(g', f) == NewTarget(g, live, sense, ds[0], ds[n], f);
    assert y in live ==> Side(g[y], side) in live;
    assert Side(g[ds[n]], !sense) in live;
  }

  /** A pull-up makes no cycle. */
  lemma PulledRanked(g: Graph, g': Graph, rank: seq<nat>, live: set<nat>, sense: bool, ds: seq<nat>, t: int)
    requires Ranked(g, rank) && Closed(g, live) && Stretch(g, live, sense, ds, t)
    requires Pulled(g, g', live, sense, ds[0], ds[|ds| - 1])
    ensures Ranked(g', PullRank(rank, live, ds[0], ds[|ds| - 1]))
  {
    var r := PullRank(rank, live, ds[0], ds[|ds| - 1]);
    hide PullRank, Stretch, Closed;
    forall y | 0 <= y < |g'| && !g'[y].s.Ret? ensures r[g'[y].jt] < r[y] && r[g'[y].jf] < r[y] {
      PulledEdgeRank(g, g', rank, live, sense, ds, t, y, true);
      PulledEdgeRank(g, g', rank, live, sense, ds, t, y, false);
    }
  }

  // ---------------------------------------------------------------------------------------
  // Routes through the chain
  // ---------------------------------------------------------------------------------------

  /** Some block among ds[lo..hi] sends the packet out of the chain. */
  ghost predicate Leaves(g: Graph, sense: bool, ds: seq<nat>, lo: nat, hi: nat, p: Packet)
    requires lo <= hi <= |ds| && forall i :: 0 <= i < |ds| ==> ds[i] < |g| && g[ds[i]].s.Jmp?
    decreases hi - lo
  {
    lo < hi && (Decide(g[ds[lo]], p) == sense || Leaves(g, sense, ds, lo + 1, hi, p))
  }

  lemma {:induction false} LeavesLast(g: Graph, sense: bool, ds: seq<nat>, lo: nat, hi: nat, p: Packet)
    requires lo <= hi < |ds| && forall i :: 0 <= i < |ds| ==> ds[i] < |g| && g[ds[i]].s.Jmp?
    ensures Leaves(g, sense, ds, lo, hi + 1, p) <==> Leaves(g, sense, ds, lo, hi, p) || Decide(g[ds[hi]], p) == sense
    decreases hi - lo
  {
    if lo < hi { LeavesLast(g, sense, ds, lo + 1, hi, p); }
  }

  lemma StretchJmps(g: Graph, live: set<nat>, sense: bool, ds: seq<nat>, t: int)
    requires WellFormed(g) && Stretch(g, live, sense, ds, t)
    ensures forall i :: 0 <= i < |ds| ==> ds[i] < |g| && g[ds[i]].s.Jmp?
  {
  }

  /** Through the stretch a packet gets to the shared target, or out at the end. */
  lemma {:induction false} RouteOld(g: Graph, rank: seq<nat>, live: set<nat>, sense: bool, ds: seq<nat>, t: int, i: nat, p: Packet)
    requires Ranked(g, rank) && Stretch(g, live, sense, ds, t) && i < |ds|
    requires forall i :: 0 <= i < |ds| ==> ds[i] < |g| && g[ds[i]].s.Jmp?
    requires 0 <= t < |g| && 0 <= Side(g[ds[|ds| - 1]], !sense) < |g|
    ensures Route(g, rank, ds[i], p) ==
      if Leaves(g, sense, ds, i, |ds|, p) then Route(g, rank, t, p) else Route(g, rank, Side(g[ds[|ds| - 1]], !sense), p)
    decreases |ds| - i
  {
    StretchAt(g, rank, live, sense, ds, t, i);
    hide Stretch, Ranked;
    if i + 1 < |ds| { RouteOld(g, rank, live, sense, ds, t, i + 1, p); }
  }

  lemma {:induction false} RouteNew(g: Graph, g': Graph, rank: seq<nat>, rank': seq<nat>, live: set<nat>, sense: bool, ds: seq<nat>,
                                    t: int, i: nat, p: Packet)
    requires Ranked(g, rank) && Ranked(g', rank') && Stretch(g, live, sense, ds, t)
    requires Pulled(g, g', live, sense, ds[0], ds[|ds| - 1]) && i < |ds| - 1
    requires forall i :: 0 <= i < |ds| ==> ds[i] < |g| && g[ds[i]].s.Jmp?
    requires 0 <= t < |g| && 0 <= Side(g[ds[|ds| - 1]], !sense) < |g|
    ensures Route(g', rank', ds[i], p) ==
      if Leaves(g, sense, ds, i, |ds| - 1, p) then Route(g', rank', t, p)
      else Route(g', rank', Side(g[ds[|ds| - 1]], !sense), p)
    decreases |ds| - i
  {
    StretchTargets(g, g', rank, live, sense, ds, t, i);
    assert Decide(g'[ds[i]], p) == Decide(g[ds[i]], p);
    hide Stretch, Ranked, Pulled;
    if i + 1 < |ds| - 1 { RouteNew(g, g', rank, rank', live, sense, ds, t, i + 1, p); }
  }

  /** What a packet got to from d it now gets to from s. */
  lemma RouteSwapped(g: Graph, g': Graph, rank: seq<nat>, rank': seq<nat>, live: set<nat>, sense: bool, ds: seq<nat>, t: int, p: Packet)
    requires Ranked(g, rank) && Ranked(g', rank') && Stretch(g, live, sense, ds, t)
    requires Pulled(g, g', live, sense, ds[0], ds[|ds| - 1])
    requires var out := Side(g[ds[|ds| - 1]], !sense);
      && 0 <= t < |g| && 0 <= out < |g|
      && Route(g', rank', t, p) == Route(g, rank, t, p) && Route(g', rank', out, p) == Route(g, rank, out, p)
    ensures Route(g', rank', ds[|ds| - 1], p) == Route(g, rank, ds[0], p)
  {
    var n := |ds| - 1;
    StretchJmps(g, live, sense, ds, t);
    RouteOld(g, rank, live, sense, ds, t, 0, p);
    RouteNew(g, g', rank, rank', live, sense, ds, t, 0, p);
    LeavesLast(g, sense, ds, 0, n, p);
    StretchTargets(g, g', rank, live, sense, ds, t, n);
    assert Decide(g'[ds[n]], p) == Decide(g[ds[n]], p);
  }

  /** Outside the stretch every packet gets where it got before. */
  lemma {:induction false} RoutePulled(g: Graph, g': Graph, rank: seq<nat>, rank': seq<nat>, live: set<nat>, sense: bool, ds: seq<nat>,
                                       t: int, y: nat, p: Packet)
    requires Ranked(g, rank) && Ranked(g', rank') && Closed(g, live) && Stretch(g, live, sense, ds, t)
    requires Pulled(g, g', live, sense, ds[0], ds[|ds| - 1]) && y in live && y < |g| && y !in ds
    ensures Route(g', rank', y, p) == Route(g, rank, y, p)
    decreases rank[y]
  {
    if g[y].s.Jmp? {
      var n, f := |ds| - 1, EdgeOf(g, y, Decide(g[y], p));
      var z := NextOf(g[y], p);
      RankedAt(g, rank, y);
      assert Decide(g'[y], p) == Decide(g[y], p);
      assert EdgeTarget(g, f) == z && EdgeTarget(g', f) == NewTarget(g, live, sense, ds[0], ds[n], f) == NextOf(g'[y], p);
      if z == ds[0] {
        StretchEnds(g, rank, live, sense, ds, t);
        RoutePulled(g, g', rank, rank', live, sense, ds, t, t, p);
        RoutePulled(g, g', rank, rank', live, sense, ds, t, Side(g[ds[n]], !sense), p);
        RouteSwapped(g, g', rank, rank', live, sense, ds, t, p);
      } else {
        assert PredEdge(g, live, f, z);
        assert z !in ds;
        RoutePulled(g, g', rank, rank', live, sense, ds, t, z, p);
      }
    }
  }

  /** Both ways out of the stretch lead below it. */
  lemma StretchEnds(g: Graph, rank: seq<nat>, live: set<nat>, sense: bool, ds: seq<nat>, t: int)
    requires Ranked(g, rank) && Closed(g, live) && Stretch(g, live, sense, ds, t)
    ensures var out := Side(g[ds[|ds| - 1]], !sense);
      && 0 <= t < |g| && t in live && t !in ds && rank[t] < rank[ds[0]]
      && 0 <= out < |g| && out in live && out !in ds && rank[out] < rank[ds[0]]
  {
    var n := |ds| - 1;
    forall i | 0 <= i <= n ensures t != ds[i] && Side(g[ds[n]], !sense) != ds[i] {
      StretchAt(g, rank, live, sense, ds, t, i);
      StretchAt(g, rank, live, sense, ds, t, n);
      if i < n { StretchDescends(g, rank, live, sense, ds, t, i, n); }
    }
    StretchAt(g, rank, live, sense, ds, t, 0);
    StretchAt(g, rank, live, sense, ds, t, n);
    StretchDescends(g, rank, live, sense, ds, t, 0, n);
  }

  // ---------------------------------------------------------------------------------------
  // Finding what to pull
  // ---------------------------------------------------------------------------------------

  /** x shares b's successor on one side and is marked as dominated by b. */
  ghost predicate Linked(g: Graph, rows: seq<set<nat>>, b: nat, sense: bool, x: int)
    requires WellFormed(g) && |rows| == |g| && b < |g| && (x == NIL || 0 <= x < |g|)
  {
    x != NIL && Side(g[x], sense) == Side(g[b], sense) && b in rows[x]
  }

  lemma NotNil(g: Graph, rows: seq<set<nat>>, b: nat, sense: bool, x: int)
    requires WellFormed(g) && |rows| == |g| && b < |g| && (x == NIL || 0 <= x < |g|) && Linked(g, rows, b, sense, x)
    ensures 0 <= x < |g|
  {
  }

  /** The blocks from x down to the first whose accumulator has the value number val, or has not;
      none if the chain ends before. */
  ghost function Down(g: Graph, rank: seq<nat>, rows: seq<set<nat>>, vals: seq<Vals>, b: nat, sense: bool, val: nat, same: bool,
                      x: int): seq<nat>
    requires Ranked(g, rank) && |rows| == |vals| == |g| && b < |g| && g[b].s.Jmp? && (x == NIL || 0 <= x < |g|)
    decreases if x == NIL then 0 else rank[x] + 1
  {
    if !Linked(g, rows, b, sense, x) then []
    else if (vals[x][A_ATOM] == val) == same then [x]
    else
      var rest := Down(g, rank, rows, vals, b, sense, val, same, Side(g[x], !sense));
      if rest == [] then [] else [x] + rest
  }

  /** What the descent visits is linked, and only the last block compares as asked for. */
  lemma {:induction false} DownFacts(g: Graph, rank: seq<nat>, rows: seq<set<nat>>, vals: seq<Vals>, b: nat, sense: bool, val: nat,
                                     same: bool, x: int)
    requires Ranked(g, rank) && |rows| == |vals| == |g| && b < |g| && g[b].s.Jmp? && (x == NIL || 0 <= x < |g|)
    ensures var cs := Down(g, rank, rows, vals, b, sense, val, same, x);
      && (|cs| > 0 ==> cs[0] == x)
      && (forall i :: 0 <= i < |cs| ==> cs[i] < |g| && g[cs[i]].s.Jmp? && Linked(g, rows, b, sense, cs[i]))
      && (forall i :: 0 < i < |cs| ==> cs[i] == Side(g[cs[i - 1]], !sense))
      && (forall i :: 0 <= i < |cs| ==> ((vals[cs[i]][A_ATOM] == val) == same <==> i == |cs| - 1))
    decreases if x == NIL then 0 else rank[x] + 1
  {
    if Linked(g, rows, b, sense, x) && (vals[x][A_ATOM] == val) != same {
      DownFacts(g, rank, rows, vals, b, sense, val, same, Side(g[x], !sense));
    }
  }

  /** The edge on which a descent from edge start stands after the blocks seen. */
  ghost predicate EdgeAfter(g: Graph, seen: seq<nat>, sense: bool, start: nat, e: nat, moved: bool) {
    && moved == (seen != [])
    && if seen == [] then e == start
       else seen[|seen| - 1] < |g| && e == EdgeOf(g, seen[|seen| - 1], !sense)
  }

  /** Edge e leads to the last block of cs, from the one before it if there is one. */
  ghost predicate Arrived(g: Graph, cs: seq<nat>, sense: bool, start: nat, e: nat, moved: bool)
    requires WellFormed(g) && e < 2 * |g|
  {
    cs != [] && EdgeTarget(g, e) == cs[|cs| - 1] && EdgeAfter(g, cs[..|cs| - 1], sense, start, e, moved)
  }

  /** A descent that finds cs has seen some blocks and stands on edge e. */
  ghost predicate Descending(g: Graph, rank: seq<nat>, rows: seq<set<nat>>, vals: seq<Vals>, b: nat, sense: bool, val: nat,
                             same: bool, start: nat, cs: seq<nat>, seen: seq<nat>, e: nat, moved: bool)
    requires Ranked(g, rank) && |rows| == |vals| == |g| && b < |g| && g[b].s.Jmp? && e < 2 * |g|
  {
    && EdgeAfter(g, seen, sense, start, e, moved)
    && var rest := Down(g, rank, rows, vals, b, sense, val, same, EdgeTarget(g, e));
       cs == if rest == [] then [] else seen + rest
  }

  lemma DescentStarts(g: Graph, rank: seq<nat>, rows: seq<set<nat>>, vals: seq<Vals>, b: nat, sense: bool, val: nat, same: bool,
                      start: nat)
    requires Ranked(g, rank) && |rows| == |vals| == |g| && b < |g| && g[b].s.Jmp? && start < 2 * |g|
    ensures var cs := Down(g, rank, rows, vals, b, sense, val, same, EdgeTarget(g, start));
      Descending(g, rank, rows, vals, b, sense, val, same, start, cs, [], start, false)
  {
  }

  lemma DescentEnds(g: Graph, rank: seq<nat>, rows: seq<set<nat>>, vals: seq<Vals>, b: nat, sense: bool, val: nat, same: bool,
                    start: nat, cs: seq<nat>, seen: seq<nat>, e: nat, moved: bool)
    requires Ranked(g, rank) && |rows| == |vals| == |g| && b < |g| && g[b].s.Jmp? && e < 2 * |g|
    requires Descending(g, rank, rows, vals, b, sense, val, same, start, cs, seen, e, moved)
    ensures !Linked(g, rows, b, sense, EdgeTarget(g, e)) ==> cs == []
    ensures Linked(g, rows, b, sense, EdgeTarget(g, e)) && (vals[EdgeTarget(g, e)][A_ATOM] == val) == same ==>
      cs != [] && Arrived(g, cs, sense, start, e, moved)
  {
    if Linked(g, rows, b, sense, EdgeTarget(g, e)) && (vals[EdgeTarget(g, e)][A_ATOM] == val) == same {
      assert cs == seen + [EdgeTarget(g, e) as nat];
      assert cs[..|cs| - 1] == seen;
    }
  }

  lemma DescentStep(g: Graph, rank: seq<nat>, rows: seq<set<nat>>, vals: seq<Vals>, b: nat, sense: bool, val: nat, same: bool,
                    start: nat, cs: seq<nat>, seen: seq<nat>, e: nat, moved: bool)
    requires Ranked(g, rank) && |rows| == |vals| == |g| && b < |g| && g[b].s.Jmp? && e < 2 * |g|
    requires Descending(g, rank, rows, vals, b, sense, val, same, start, cs, seen, e, moved)
    requires Linked(g, rows, b, sense, EdgeTarget(g, e)) && (vals[EdgeTarget(g, e)][A_ATOM] == val) != same
    ensures var x: nat := EdgeTarget(g, e);
      var e' := EdgeOf(g, x, !sense);
      && Descending(g, rank, rows, vals, b, sense, val, same, start, cs, seen + [x], e', true)
      && EdgeTarget(g, e') != NIL && rank[EdgeTarget(g, e')] < rank[x]
  {
    var x: nat := EdgeTarget(g, e);
    RankedAt(g, rank, x);
    EdgeOfTarget(g, x, !sense);
    var rest := Down(g, rank, rows, vals, b, sense, val, same, Side(g[x], !sense));
    assert seen + ([x] + rest) == seen + [x] + rest;
  }

  /** All edges that lead to b come from blocks whose accumulator has the same value number. */
  ghost predicate CommonValue(g: Graph, vals: seq<Vals>, es: seq<nat>, val: nat)
    requires |vals| == |g| && Listed(g, es)
  {
    |es| > 0 && forall i :: 0 <= i < |es| ==> vals[EdgeSource(g, es[i])][A_ATOM] == val
  }

  /** What is needed to pull s up to d: both on the chain below b, d the first block that looks at
      another value, s the first below d that looks at b's predecessors' value again. */
  ghost predicate Pullable(g: Graph, rank: seq<nat>, rows: seq<set<nat>>, vals: seq<Vals>, es: seq<nat>, b: nat, sense: bool,
                           first: seq<nat>, second: seq<nat>)
    requires Ranked(g, rank) && |rows| == |vals| == |g| && b < |g| && g[b].s.Jmp?
    requires Listed(g, es)
  {
    && |es| > 0
    && var val := vals[EdgeSource(g, es[0])][A_ATOM];
       && CommonValue(g, vals, es, val)
       && |first| > 0 && first == Down(g, rank, rows, vals, b, sense, val, false, b)
       && first[|first| - 1] < |g|
       && |second| > 0 && second == Down(g, rank, rows, vals, b, sense, val, true, Side(g[first[|first| - 1]], !sense))
  }

  ghost predicate DomExact(g: Graph, root: nat, rows: seq<set<nat>>)
    requires WellFormed(g)
  {
    |rows| == |g| && forall c, a :: 0 <= c < |g| && 0 <= a < |g| ==> (a in rows[c] <==> Dominates(g, root, a, c))
  }

  // ---------------------------------------------------------------------------------------
  // What there is to pull, said of paths and edges
  // ---------------------------------------------------------------------------------------

  /** The chain from x down to the first block whose accumulator has the value number val, or has not. */
  ghost predicate ChainTo(g: Graph, root: nat, vals: seq<Vals>, b: nat, sense: bool, val: nat, same: bool, x: int, cs: seq<nat>)
    requires WellFormed(g) && b < |g| == |vals|
  {
    && |cs| > 0 && cs[0] == x && Chain(g, root, b, sense, cs)
    && forall i :: 0 <= i < |cs| ==> cs[i] < |g| && ((vals[cs[i]][A_ATOM] == val) == same <==> i == |cs| - 1)
  }

  /** There are edges to b from blocks of live, and all of them come from blocks whose accumulator has the value number
      val. */
  ghost predicate EnteredWith(g: Graph, live: set<nat>, vals: seq<Vals>, b: nat, val: nat)
    requires WellFormed(g) && |vals| == |g|
  {
    (exists f :: PredEdge(g, live, f, b)) && forall f :: PredEdge(g, live, f, b) ==> vals[EdgeSource(g, f)][A_ATOM] == val
  }

  /** There is something to pull: b is entered with the value val; on the chain from b, first ends in the first block that
      looks at another value, and second, below that, in the first that looks at val again. */
  ghost predicate PullFound(g: Graph, root: nat, live: set<nat>, vals: seq<Vals>, b: nat, sense: bool, val: nat,
                            first: seq<nat>, second: seq<nat>)
    requires WellFormed(g) && b < |g| == |vals|
  {
    && EnteredWith(g, live, vals, b, val) && ChainTo(g, root, vals, b, sense, val, false, b, first)
    && first[|first| - 1] < |g| && ChainTo(g, root, vals, b, sense, val, true, Side(g[first[|first| - 1]], !sense), second)
  }

  lemma LinkedIsLink(g: Graph, root: nat, rows: seq<set<nat>>, b: nat, sense: bool, x: int)
    requires WellFormed(g) && DomExact(g, root, rows) && b < |g| && g[b].s.Jmp? && (x == NIL || 0 <= x < |g|)
    ensures |rows| == |g| && (Linked(g, rows, b, sense, x) <==> x != NIL && Link(g, root, b, sense, x))
  {
    WellFormedAt(g, b);
  }

  lemma DownIsChain(g: Graph, rank: seq<nat>, root: nat, rows: seq<set<nat>>, vals: seq<Vals>, b: nat, sense: bool, val: nat, same: bool, x: int)
    requires Ranked(g, rank) && DomExact(g, root, rows) && |rows| == |vals| == |g| && b < |g| && g[b].s.Jmp? && (x == NIL || 0 <= x < |g|)
    ensures var cs := Down(g, rank, rows, vals, b, sense, val, same, x); cs != [] ==> ChainTo(g, root, vals, b, sense, val, same, x, cs)
  {
    hide Down, Linked, DomExact, Ranked, WellFormed, Link;
    RankedShape(g, rank);
    var cs := Down(g, rank, rows, vals, b, sense, val, same, x);
    DownFacts(g, rank, rows, vals, b, sense, val, same, x);
    forall i | 0 <= i < |cs| ensures Link(g, root, b, sense, cs[i]) { LinkedIsLink(g, root, rows, b, sense, cs[i]); }
  }

  /** The descent finds the chain if there is one. */
  lemma {:induction false} ChainIsDown(g: Graph, rank: seq<nat>, root: nat, rows: seq<set<nat>>, vals: seq<Vals>, b: nat, sense: bool, val: nat,
                                       same: bool, x: int, cs: seq<nat>)
    requires Ranked(g, rank) && DomExact(g, root, rows) && |rows| == |vals| == |g| && b < |g| && g[b].s.Jmp? && (x == NIL || 0 <= x < |g|)
    requires ChainTo(g, root, vals, b, sense, val, same, x, cs)
    ensures cs == Down(g, rank, rows, vals, b, sense, val, same, x)
    decreases |cs|
  {
    hide DomExact, Ranked, WellFormed, Linked, Link;
    RankedShape(g, rank);
    assert Link(g, root, b, sense, cs[0]);
    LinkedIsLink(g, root, rows, b, sense, x);
    if |cs| > 1 {
      ChainTail(g, root, vals, b, sense, val, same, x, cs);
      LinkRank(g, rank, root, b, sense, cs[0]);
      ChainIsDown(g, rank, root, rows, vals, b, sense, val, same, Side(g[x], !sense), cs[1..]);
      assert cs == [cs[0]] + cs[1..];
    }
  }

  lemma ChainTail(g: Graph, root: nat, vals: seq<Vals>, b: nat, sense: bool, val: nat, same: bool, x: int, cs: seq<nat>)
    requires WellFormed(g) && b < |g| == |vals| && ChainTo(g, root, vals, b, sense, val, same, x, cs) && |cs| > 1
    ensures cs[0] < |g| && cs[0] == x && ChainTo(g, root, vals, b, sense, val, same, Side(g[x], !sense), cs[1..])
  {
    hide Link, WellFormed;
    var ds := cs[1..];
    forall i | 0 <= i < |ds| ensures Link(g, root, b, sense, ds[i]) { assert ds[i] == cs[i + 1]; }
  }

  /** What the searches find is exactly what there is to pull. */
  lemma PullExact(g: Graph, rank: seq<nat>, root: nat, rows: seq<set<nat>>, vals: seq<Vals>, inEdges: seq<seq<nat>>, b: nat, sense: bool,
                  val: nat, first: seq<nat>, second: seq<nat>)
    requires Ranked(g, rank) && root < |g| && DomExact(g, root, rows) && |rows| == |vals| == |g| && b < |g| && g[b].s.Jmp?
    requires Analysis.InEdges(g, inEdges, Reach(g, rank, root)) && Listed(g, inEdges[b])
    ensures PullFound(g, root, Reach(g, rank, root), vals, b, sense, val, first, second) <==>
      && Pullable(g, rank, rows, vals, inEdges[b], b, sense, first, second)
      && inEdges[b] != [] && val == vals[EdgeSource(g, inEdges[b][0])][A_ATOM]
  {
    hide DomExact, Ranked, Reach, Down, ChainTo, Analysis.InEdges, WellFormed, EnteredWith;
    RankedShape(g, rank);
    var live := Reach(g, rank, root);
    EdgesListed(g, inEdges, live, b);
    var es := inEdges[b];
    EnteredIs(g, live, vals, inEdges, b, val);
    if PullFound(g, root, live, vals, b, sense, val, first, second) {
      ChainIsDown(g, rank, root, rows, vals, b, sense, val, false, b, first);
      ChainSide(g, rank, root, vals, b, sense, val, first);
      ChainIsDown(g, rank, root, rows, vals, b, sense, val, true, Side(g[first[|first| - 1]], !sense), second);
      ChainSome(g, root, vals, b, sense, val, true, Side(g[first[|first| - 1]], !sense), second);
    }
    if Pullable(g, rank, rows, vals, es, b, sense, first, second) {
      DownIsChain(g, rank, root, rows, vals, b, sense, vals[EdgeSource(g, es[0])][A_ATOM], false, b);
      ChainSide(g, rank, root, vals, b, sense, vals[EdgeSource(g, es[0])][A_ATOM], first);
      DownIsChain(g, rank, root, rows, vals, b, sense, vals[EdgeSource(g, es[0])][A_ATOM], true, Side(g[first[|first| - 1]], !sense));
    }
  }

  lemma ChainSide(g: Graph, rank: seq<nat>, root: nat, vals: seq<Vals>, b: nat, sense: bool, val: nat, cs: seq<nat>)
    requires Ranked(g, rank) && b < |g| == |vals| && ChainTo(g, root, vals, b, sense, val, false, b, cs)
    ensures |cs| > 0 && cs[|cs| - 1] < |g| && 0 <= Side(g[cs[|cs| - 1]], !sense) < |g|
  {
    assert Link(g, root, b, sense, cs[|cs| - 1]);
    LinkRank(g, rank, root, b, sense, cs[|cs| - 1]);
  }

  lemma ChainSome(g: Graph, root: nat, vals: seq<Vals>, b: nat, sense: bool, val: nat, same: bool, x: int, cs: seq<nat>)
    requires WellFormed(g) && b < |g| == |vals| && ChainTo(g, root, vals, b, sense, val, same, x, cs)
    ensures |cs| > 0
  {
  }

  lemma EnteredIs(g: Graph, live: set<nat>, vals: seq<Vals>, inEdges: seq<seq<nat>>, b: nat, val: nat)
    requires WellFormed(g) && b < |g| == |vals| && Analysis.InEdges(g, inEdges, live) && Listed(g, inEdges[b])
    ensures EnteredWith(g, live, vals, b, val) <==>
      inEdges[b] != [] && CommonValue(g, vals, inEdges[b], val) && val == vals[EdgeSource(g, inEdges[b][0])][A_ATOM]
  {
    var es := inEdges[b];
    if EnteredWith(g, live, vals, b, val) {
      var f :| PredEdge(g, live, f, b);
      assert f in es;
      forall i | 0 <= i < |es| ensures vals[EdgeSource(g, es[i])][A_ATOM] == val { assert es[i] in es && PredEdge(g, live, es[i], b); }
    }
    if es != [] && CommonValue(g, vals, es, val) {
      assert es[0] in es && PredEdge(g, live, es[0], b);
      forall f | PredEdge(g, live, f, b) ensures vals[EdgeSource(g, f)][A_ATOM] == val {
        assert f in es;
        var i :| 0 <= i < |es| && es[i] == f;
      }
    }
  }

  /** The blocks found form one chain. */
  lemma FoundChain(g: Graph, rank: seq<nat>, root: nat, rows: seq<set<nat>>, vals: seq<Vals>, es: seq<nat>, b: nat, sense: bool,
                   first: seq<nat>, second: seq<nat>)
    requires Ranked(g, rank) && DomExact(g, root, rows) && |vals| == |g| && b < |g| && g[b].s.Jmp?
    requires Listed(g, es)
    requires Pullable(g, rank, rows, vals, es, b, sense, first, second)
    ensures Chain(g, root, b, sense, first + second) && (first + second)[0] == b
  {
    var cs := first + second;
    var val := vals[EdgeSource(g, es[0])][A_ATOM];
    DownFacts(g, rank, rows, vals, b, sense, val, false, b);
    DownFacts(g, rank, rows, vals, b, sense, val, true, Side(g[first[|first| - 1]], !sense));
    forall i | 0 <= i < |cs| ensures Link(g, root, b, sense, cs[i]) {
      assert Linked(g, rows, b, sense, cs[i]);
    }
  }

  /** Its lower part is a stretch that can only be entered at the top. */
  lemma FoundStretch(g: Graph, rank: seq<nat>, root: nat, b: nat, sense: bool, cs: seq<nat>, m: nat)
    requires Ranked(g, rank) && root < |g| && b in Reach(g, rank, root) && g[b].s.Jmp?
    requires Chain(g, root, b, sense, cs) && m + 1 < |cs| && cs[0] == b
    ensures Stretch(g, Reach(g, rank, root), sense, cs[m..], Side(g[b], sense))
  {
    var live, ds := Reach(g, rank, root), cs[m..];
    forall i | 0 <= i < |cs| ensures Link(g, root, b, sense, cs[i]) && cs[i] in live {
      ChainLive(g, rank, root, b, sense, cs, i);
    }
    forall i, f | 0 < i < |ds| && PredEdge(g, live, f, ds[i]) ensures f == EdgeOf(g, ds[i - 1], !sense) {
      OnlyPredecessor(g, rank, root, b, sense, cs, m + i, f);
    }
  }

  lemma {:induction false} ChainLive(g: Graph, rank: seq<nat>, root: nat, b: nat, sense: bool, cs: seq<nat>, i: nat)
    requires Ranked(g, rank) && root < |g| && b in Reach(g, rank, root)
    requires Chain(g, root, b, sense, cs) && i < |cs| && cs[0] == b
    ensures cs[i] in Reach(g, rank, root)
    decreases i
  {
    if i > 0 {
      ChainLive(g, rank, root, b, sense, cs, i - 1);
      assert Link(g, root, b, sense, cs[i - 1]);
      ReachClosed(g, rank, root);
    }
  }

  /** The theorem about one pull-up: the new graph has no cycle, and every packet ends as before. */
  lemma PullupSound(g: Graph, g': Graph, rank: seq<nat>, root: nat, b: nat, sense: bool, cs: seq<nat>, m: nat)
    requires Ranked(g, rank) && root < |g| && b in Reach(g, rank, root) && b != root && g[b].s.Jmp?
    requires Chain(g, root, b, sense, cs) && m + 1 < |cs| && cs[0] == b
    requires Pulled(g, g', Reach(g, rank, root), sense, cs[m], cs[|cs| - 1])
    ensures var rank' := PullRank(rank, Reach(g, rank, root), cs[m], cs[|cs| - 1]);
      Ranked(g', rank') && forall p :: Route(g', rank', root, p) == Route(g, rank, root, p)
  {
    var live, ds, t := Reach(g, rank, root), cs[m..], Side(g[b], sense);
    var rank' := PullRank(rank, live, cs[m], cs[|cs| - 1]);
    hide Stretch, Pulled, Chain, Closed, PullRank, Route, Reach, WellFormed;
    FoundStretch(g, rank, root, b, sense, cs, m);
    RootAbove(g, rank, root, b, sense, cs, m);
    ReachClosed(g, rank, root);
    PulledRanked(g, g', rank, live, sense, ds, t);
    forall p ensures Route(g', rank', root, p) == Route(g, rank, root, p) {
      RoutePulled(g, g', rank, rank', live, sense, ds, t, root, p);
    }
  }

  /** The root is not in the chain. */
  lemma RootAbove(g: Graph, rank: seq<nat>, root: nat, b: nat, sense: bool, cs: seq<nat>, m: nat)
    requires Ranked(g, rank) && root < |g| && b in Reach(g, rank, root) && b != root
    requires Chain(g, root, b, sense, cs) && m <= |cs| && |cs| > 0 && cs[0] == b
    ensures root !in cs[m..]
  {
    forall i | m <= i < |cs| ensures cs[i] != root {
      if i > 0 { ChainDescends(g, rank, root, b, sense, cs, 0, i); }
    }
  }

  // ---------------------------------------------------------------------------------------
  // Rewiring
  // ---------------------------------------------------------------------------------------

  /** The other edge of the same block. */
  ghost function Sibling(n: nat, f: nat): int {
    if f < n then f + n else f - n
  }

  /** Edge f is moved once k of the listed edges are processed. Of two edges of one block the true
      one goes first, whichever is listed first. */
  ghost predicate Moved(n: nat, es: seq<nat>, f: nat, k: nat)
    requires k <= |es|
  {
    if Sibling(n, f) !in es then f in es[..k]
    else if f < n then f in es[..k] || Sibling(n, f) in es[..k]
    else f in es[..k] && Sibling(n, f) in es[..k]
  }

  /** After k steps the moved edges lead to pull and the others where they led. */
  ghost predicate RetargetedTo(g: Graph, g': Graph, es: seq<nat>, pull: nat, k: nat)
    requires k <= |es| && WellFormed(g) && WellFormed(g')
  {
    && SameBlocks(g, g')
    && forall f :: 0 <= f < 2 * |g| ==>
         EdgeTarget(g', f) == if f in es && Moved(|g|, es, f, k) then pull else EdgeTarget(g, f)
  }

  /** The edges listed are exactly those of their blocks that lead to b, once each. */
  ghost predicate AllEdgesTo(g: Graph, es: seq<nat>, b: nat)
    requires WellFormed(g)
  {
    && (forall i :: 0 <= i < |es| ==> es[i] < 2 * |g| && g[EdgeSource(g, es[i])].s.Jmp? && EdgeTarget(g, es[i]) == b)
    && (forall i, j :: 0 <= i < j < |es| ==> es[i] != es[j])
    && (forall f :: 0 <= f < 2 * |g| && EdgeTarget(g, f) == b && Sibling(|g|, f) in es ==> f in es)
  }

  /** Moving the edge the code chooses is one more step. */
  lemma MovedStep(n: nat, es: seq<nat>, k: nat, y: nat, first: bool, f: nat)
    requires k < |es| && y < n && f < 2 * n && es[k] !in es[..k]
    requires es[k] == y || es[k] == y + n
    requires first <==> y in es && !Moved(n, es, y, k)
    ensures (f in es && Moved(n, es, f, k + 1)) == (f == (if first then y else y + n) || (f in es && Moved(n, es, f, k)))
  {
    assert es[..k + 1] == es[..k] + [es[k]];
  }

  /** Which edge the code moves for the k-th listed edge. */
  lemma RetargetChoice(g: Graph, g1: Graph, es: seq<nat>, b: nat, pull: nat, k: nat)
    requires WellFormed(g) && WellFormed(g1) && AllEdgesTo(g, es, b) && k < |es| && pull != b
    requires RetargetedTo(g, g1, es, pull, k)
    ensures es[k] < 2 * |g| && es[k] !in es[..k]
    ensures var y := EdgeSource(g, es[k]);
      && y < |g1| && g1[y].s.Jmp? && (es[k] == y || es[k] == y + |g|)
      && (g1[y].jt == b <==> y in es && !Moved(|g|, es, y, k))
  {
    var y := EdgeSource(g, es[k]);
    assert EdgeTarget(g1, y) == g1[y].jt;
  }

  /** What the step does to edge f. */
  lemma RetargetEdge(g: Graph, g1: Graph, es: seq<nat>, b: nat, pull: nat, k: nat, f: nat)
    requires WellFormed(g) && WellFormed(g1) && |g1| == |g| && AllEdgesTo(g, es, b) && k < |es| && pull < |g| && pull != b
    requires RetargetedTo(g, g1, es, pull, k) && es[k] < 2 * |g| && f < 2 * |g|
    ensures var y := EdgeSource(g, es[k]);
      var moved := if g1[y].jt == b then y else y + |g|;
      (if f == moved then pull else EdgeTarget(g1, f)) == if f in es && Moved(|g|, es, f, k + 1) then pull else EdgeTarget(g, f)
  {
    var y := EdgeSource(g, es[k]);
    RetargetChoice(g, g1, es, b, pull, k);
    MovedStep(|g|, es, k, y, g1[y].jt == b, f);
  }

  lemma RetargetStep(g: Graph, g1: Graph, es: seq<nat>, b: nat, pull: nat, k: nat, moved: nat)
    requires WellFormed(g) && WellFormed(g1) && |g1| == |g| && AllEdgesTo(g, es, b) && k < |es| && pull < |g| && pull != b
    requires RetargetedTo(g, g1, es, pull, k) && es[k] < 2 * |g|
    requires var y := EdgeSource(g, es[k]); moved == if g1[y].jt == b then y else y + |g|
    ensures WellFormed(SetTarget(g1, moved, pull)) && RetargetedTo(g, SetTarget(g1, moved, pull), es, pull, k + 1)
  {
    RetargetChoice(g, g1, es, b, pull, k);
    SetTargetEdges(g1, moved, pull);
    var g2 := SetTarget(g1, moved, pull);
    assert SameBlocks(g, g2);
    hide AllEdgesTo, Moved, WellFormed, SetTarget, SameBlocks;
    forall f | 0 <= f < 2 * |g|
      ensures EdgeTarget(g2, f) == if f in es && Moved(|g|, es, f, k + 1) then pull else EdgeTarget(g, f)
    {
      RetargetEdge(g, g1, es, b, pull, k, f);
    }
  }

  lemma EdgesListed(g: Graph, inEdges: seq<seq<nat>>, live: set<nat>, b: nat)
    requires WellFormed(g) && Analysis.InEdges(g, inEdges, live) && b < |g|
    ensures |inEdges| == |g| && Listed(g, inEdges[b])
  {
    var es := inEdges[b];
    forall i | 0 <= i < |es| ensures es[i] < 2 * |g| { assert es[i] in es && PredEdge(g, live, es[i], b); }
  }

  class Puller {
    var g: Graph
    const root: nat
    const vals: seq<Vals>
    const dom: BitSets.Family
    const inEdges: seq<seq<nat>>

    constructor (graph: Graph, start: nat, exitVals: seq<Vals>, dominators: BitSets.Family, edges: seq<seq<nat>>)
      ensures g == graph && root == start && vals == exitVals && dom == dominators && inEdges == edges
    {
      g, root, vals, dom, inEdges := graph, start, exitVals, dominators, edges;
    }

    /** The analyses are exact for the graph as it is. */
    ghost predicate Ready(rank: seq<nat>)
      reads this, dom.words
    {
      && Ranked(g, rank) && root < |g| == |vals| && dom.words.Length0 == |g| <= dom.Capacity()
      && DomExact(g, root, dom.Rows()) && Analysis.InEdges(g, inEdges, Reach(g, rank, root))
    }

    lemma ReadyShape(rank: seq<nat>)
      requires Ready(rank)
      ensures Ranked(g, rank) && WellFormed(g) && root < |g| == |vals| == |rank| && dom.words.Length0 == |g| == |dom.Rows()|
      ensures Analysis.InEdges(g, inEdges, Reach(g, rank, root)) && |inEdges| == |g|
    {
    }

    /** Whether all predecessors of b leave the same value in the accumulator. */
    method PredecessorValue(b: nat, ghost rank: seq<nat>) returns (val: nat, common: bool)
      requires Ready(rank) && b < |g|
      ensures Listed(g, inEdges[b])
      ensures common <==> inEdges[b] != [] && CommonValue(g, vals, inEdges[b], vals[EdgeSource(g, inEdges[b][0])][A_ATOM])
      ensures common ==> val == vals[EdgeSource(g, inEdges[b][0])][A_ATOM]
    {
      var es := inEdges[b];
      EdgesListed(g, inEdges, Reach(g, rank, root), b);
      hide DomExact, Analysis.InEdges, Reach, Ranked, WellFormed;
      if es == [] { return 0, false; }
      val := vals[EdgeSource(g, es[0])][A_ATOM];
      for i := 1 to |es|
        invariant forall j :: 0 <= j < i ==> vals[EdgeSource(g, es[j])][A_ATOM] == val
      {
        if vals[EdgeSource(g, es[i])][A_ATOM] != val { return 0, false; }
      }
      common := true;
    }

    /** Whether x shares b's successor and is dominated by b. */
    method IsLinked(x: int, b: nat, sense: bool, ghost rank: seq<nat>) returns (linked: bool)
      requires Ready(rank) && b < |g| && (x == NIL || 0 <= x < |g|)
      ensures linked <==> Linked(g, dom.Rows(), b, sense, x)
    {
      hide DomExact, Analysis.InEdges, Reach, Ranked, WellFormed, Dominates;
      if x == NIL { return false; }
      if Side(g[x], sense) != Side(g[b], sense) { return false; }
      linked := dom.Member(x, b);
    }

    /** Follows the chain from edge start to the first block whose accumulator has the value number
        val, or has not; e is the edge that leads to it. */
    method Descend(b: nat, sense: bool, val: nat, same: bool, start: nat, ghost rank: seq<nat>)
      returns (e: nat, moved: bool, found: bool)
      requires Ready(rank) && b < |g| && g[b].s.Jmp? && start < 2 * |g|
      ensures e < 2 * |g|
      ensures found <==> Down(g, rank, dom.Rows(), vals, b, sense, val, same, EdgeTarget(g, start)) != []
      ensures found ==> Arrived(g, Down(g, rank, dom.Rows(), vals, b, sense, val, same, EdgeTarget(g, start)), sense, start, e, moved)
    {
      hide Puller.Ready, DomExact, Analysis.InEdges, Reach, Dominates, WellFormed, Ranked, Down, Arrived, Descending, EdgeOf, Linked,
        BitSets.Family.Set, BitSets.Family.Rows;
      ReadyShape(rank);
      ghost var rows := dom.Rows();
      RankedShape(g, rank);
      ghost var cs := Down(g, rank, rows, vals, b, sense, val, same, EdgeTarget(g, start));
      ghost var seen: seq<nat> := [];
      DescentStarts(g, rank, rows, vals, b, sense, val, same, start);
      e, moved := start, false;
      while true
        invariant e < 2 * |g| && Descending(g, rank, rows, vals, b, sense, val, same, start, cs, seen, e, moved)
        decreases if EdgeTarget(g, e) == NIL then 0 else rank[EdgeTarget(g, e)] + 1
      {
        var x := EdgeTarget(g, e);
        DescentEnds(g, rank, rows, vals, b, sense, val, same, start, cs, seen, e, moved);
        var linked := IsLinked(x, b, sense, rank);
        if !linked { return e, moved, false; }
        NotNil(g, rows, b, sense, x);
        if (vals[x][A_ATOM] == val) == same { return e, moved, true; }
        DescentStep(g, rank, rows, vals, b, sense, val, same, start, cs, seen, e, moved);
        seen := seen + [x];
        e, moved := EdgeOf(g, x, !sense), true;
      }
    }

    /** Lets every listed edge lead to pull instead of b. */
    method RetargetAll(es: seq<nat>, b: nat, pull: nat)
      requires WellFormed(g) && AllEdgesTo(g, es, b) && pull < |g| && pull != b
      modifies this`g
      ensures WellFormed(g) && SameBlocks(old(g), g)
      ensures forall f :: 0 <= f < 2 * |g| ==> EdgeTarget(g, f) == if f in es then pull else EdgeTarget(old(g), f)
    {
      ghost var g0 := g;
      for i := 0 to |es|
        invariant |g| == |g0| && WellFormed(g) && RetargetedTo(g0, g, es, pull, i)
      {
        var y := EdgeSource(g, es[i]);
        var moved := if g[y].jt == b then y else y + |g|;
        RetargetStep(g0, g, es, b, pull, i, moved);
        g := SetTarget(g, moved, pull);
      }
      assert es[..|es|] == es;
    }

    /** Takes the block that samep leads to out of the chain and puts it where diffp leads: behind
        every edge that leads to b if the chain starts there, else behind diffp. */
    method Splice(b: nat, sense: bool, diffp: nat, samep: nat, atTop: bool, ghost rank: seq<nat>)
      requires Ready(rank) && b < |g| && Spot(g, rank, Reach(g, rank, root), b, diffp, samep, atTop)
      modifies this`g
      ensures Pulled(old(g), g, Reach(old(g), rank, root), sense, EdgeTarget(old(g), diffp), EdgeTarget(old(g), samep))
    {
      hide Puller.Ready, DomExact, Analysis.InEdges, Reach, Ranked, Spot, SetTarget, SameBlocks, WellFormed, EdgeOf, AllEdgesTo, Pulled,
        Bypassed;
      ReadyShape(rank);
      ghost var live := Reach(g, rank, root);
      ghost var g0 := g;
      SpotFacts(g, rank, live, b, sense, diffp, samep, atTop);
      var pull := EdgeTarget(g, samep);
      SpliceOut(g, rank, live, b, sense, diffp, samep, atTop);
      g := SetTarget(g, samep, Side(g[pull], !sense));
      g := SetTarget(g, EdgeOf(g, pull, !sense), EdgeTarget(g, diffp));
      BypassedShape(g0, g, sense, diffp, samep);
      if atTop {
        TopEdges(g0, g, rank, live, inEdges, b, sense, diffp, samep);
        ghost var g2 := g;
        RetargetAll(inEdges[b], b, pull);
        SpliceTop(g0, g2, g, rank, live, inEdges, b, sense, diffp, samep);
      } else {
        SpliceInner(g0, g, rank, live, b, sense, diffp, samep);
        g := SetTarget(g, diffp, pull);
      }
    }

    /** The two descents: to the first test of another value, and on to the next of the value val. */
    method Search(b: nat, sense: bool, val: nat, start: nat, ghost rank: seq<nat>)
      returns (diffp: nat, moved: bool, samep: nat, deeper: bool, found: bool, ghost first: seq<nat>, ghost second: seq<nat>)
      requires Ready(rank) && b < |g| && g[b].s.Jmp? && start < 2 * |g| && EdgeTarget(g, start) == b
      ensures first == Down(g, rank, dom.Rows(), vals, b, sense, val, false, b)
      ensures first != [] ==>
        && first[|first| - 1] < |g|
        && second == Down(g, rank, dom.Rows(), vals, b, sense, val, true, Side(g[first[|first| - 1]], !sense))
      ensures found <==> first != [] && second != []
      ensures found ==> diffp < 2 * |g| && samep < 2 * |g| && Arrived(g, first, sense, start, diffp, moved)
      ensures found ==> Arrived(g, second, sense, EdgeOf(g, first[|first| - 1], !sense), samep, deeper)
    {
      hide DomExact, Reach, Ranked, WellFormed, Down, Arrived, EdgeOf, Analysis.InEdges;
      RankedShape(g, rank);
      samep, deeper, second := 0, false, [];
      diffp, moved, found := Descend(b, sense, val, false, start, rank);
      first := Down(g, rank, dom.Rows(), vals, b, sense, val, false, b);
      if !found { return; }
      ArrivedTarget(g, first, sense, start, diffp, moved);
      var d := EdgeTarget(g, diffp);
      EdgeOfTarget(g, d, !sense);
      samep, deeper, found := Descend(b, sense, val, true, EdgeOf(g, d, !sense), rank);
      second := Down(g, rank, dom.Rows(), vals, b, sense, val, true, Side(g[d], !sense));
    }

    /** Looks below b for a test of the value b's predecessors test, with tests of other values in
        between, that all share b's successor on the side sense. */
    method FindPull(b: nat, sense: bool, ghost rank: seq<nat>)
      returns (diffp: nat, samep: nat, atTop: bool, found: bool, ghost first: seq<nat>, ghost second: seq<nat>)
      requires Ready(rank) && b in Reach(g, rank, root) && g[b].s.Jmp?
      ensures Listed(g, inEdges[b])
      ensures found ==>
        && Pullable(g, rank, dom.Rows(), vals, inEdges[b], b, sense, first, second)
        && Spot(g, rank, Reach(g, rank, root), b, diffp, samep, atTop)
        && EdgeTarget(g, diffp) == first[|first| - 1] && EdgeTarget(g, samep) == second[|second| - 1]
      ensures !found ==> Unpullable(g, rank, dom.Rows(), vals, inEdges[b], b, sense)
    {
      hide DomExact, Reach, Ranked, WellFormed, Spot, Down, Arrived, CommonValue, EdgeOf, Unpullable, Pullable, Analysis.InEdges, Listed;
      RankedShape(g, rank);
      EdgesListed(g, inEdges, Reach(g, rank, root), b);
      diffp, samep, atTop, found, first, second := 0, 0, true, false, [], [];
      var val, common := PredecessorValue(b, rank);
      NothingToPull(g, rank, dom.Rows(), vals, inEdges[b], b, sense);
      if !common { return; }
      StartEdge(g, rank, root, inEdges, b);
      var p := EdgeSource(g, inEdges[b][0]);
      var start := if g[p].jt == b then p else p + |g|;
      var moved, deeper;
      diffp, moved, samep, deeper, found, first, second := Search(b, sense, val, start, rank);
      if !found { return; }
      atTop := !moved;
      ArrivedTarget(g, first, sense, start, diffp, moved);
      ArrivedTarget(g, second, sense, EdgeOf(g, first[|first| - 1], !sense), samep, deeper);
      IsPullable(g, rank, dom.Rows(), vals, inEdges[b], b, sense, first, second);
      FoundSpot(g, rank, root, dom.Rows(), vals, inEdges[b], b, sense, first, second, start, diffp, moved, samep, deeper);
    }

    /** Pulls up what FindPull finds. With sense true this is the pull-up for alternatives, with sense
        false the one for conjunctions. The result is whether anything was pulled. */
    method Pull(b: nat, sense: bool, ghost rank: seq<nat>)
      returns (pulled: bool, ghost val: nat, ghost first: seq<nat>, ghost second: seq<nat>, ghost rank': seq<nat>)
      requires Ready(rank) && b in Reach(g, rank, root) && g[b].s.Jmp?
      modifies this`g
      ensures pulled ==>
        && PullFound(old(g), root, Reach(old(g), rank, root), vals, b, sense, val, first, second)
        && Pulled(old(g), g, Reach(old(g), rank, root), sense, first[|first| - 1], second[|second| - 1])
      ensures !pulled ==> g == old(g) && forall v, f, s :: !PullFound(g, root, Reach(g, rank, root), vals, b, sense, v, f, s)
      ensures Ranked(g, rank') && |g| == |old(g)|
      ensures forall p :: Route(g, rank', root, p) == Route(old(g), rank, root, p)
      ensures BlockLocal(old(g), Reach(old(g), rank, root)) ==>
        forall p, r :: Walk(g, rank', root, p, r) == Walk(old(g), rank, root, p, r)
    {
      rank', val := rank, 0;
      var diffp, samep, atTop, found;
      diffp, samep, atTop, found, first, second := FindPull(b, sense, rank);
      if !found {
        NothingFound(g, rank, root, dom.Rows(), vals, inEdges, b, sense);
        return false, val, first, second, rank';
      }
      val := PullIs(g, rank, root, dom.Rows(), vals, inEdges, b, sense, first, second);
      ghost var g0 := g;
      Splice(b, sense, diffp, samep, atTop, rank);
      rank' := PullDone(g0, g, rank, root, dom.Rows(), vals, inEdges, b, sense, first, second);
      pulled := true;
    }
  }

  lemma NothingFound(g: Graph, rank: seq<nat>, root: nat, rows: seq<set<nat>>, vals: seq<Vals>, inEdges: seq<seq<nat>>, b: nat, sense: bool)
    requires Ranked(g, rank) && root < |g| && DomExact(g, root, rows) && |rows| == |vals| == |g| && b < |g| && g[b].s.Jmp?
    requires Analysis.InEdges(g, inEdges, Reach(g, rank, root)) && Listed(g, inEdges[b])
    requires Unpullable(g, rank, rows, vals, inEdges[b], b, sense)
    ensures forall v, f, s :: !PullFound(g, root, Reach(g, rank, root), vals, b, sense, v, f, s)
  {
    hide DomExact, Ranked, Reach, Pullable, PullFound, Analysis.InEdges, WellFormed;
    RankedShape(g, rank);
    EdgesListed(g, inEdges, Reach(g, rank, root), b);
    forall v: nat, f, s ensures !PullFound(g, root, Reach(g, rank, root), vals, b, sense, v, f, s) {
      PullExact(g, rank, root, rows, vals, inEdges, b, sense, v, f, s);
    }
  }

  lemma PullIs(g: Graph, rank: seq<nat>, root: nat, rows: seq<set<nat>>, vals: seq<Vals>, inEdges: seq<seq<nat>>, b: nat, sense: bool,
               first: seq<nat>, second: seq<nat>) returns (val: nat)
    requires Ranked(g, rank) && root < |g| && DomExact(g, root, rows) && |rows| == |vals| == |g| && b < |g| && g[b].s.Jmp?
    requires Analysis.InEdges(g, inEdges, Reach(g, rank, root)) && Listed(g, inEdges[b])
    requires Pullable(g, rank, rows, vals, inEdges[b], b, sense, first, second)
    ensures PullFound(g, root, Reach(g, rank, root), vals, b, sense, val, first, second)
  {
    hide DomExact, Ranked, Reach, PullFound, Analysis.InEdges, WellFormed;
    RankedShape(g, rank);
    EdgesListed(g, inEdges, Reach(g, rank, root), b);
    val := vals[EdgeSource(g, inEdges[b][0])][A_ATOM];
    PullExact(g, rank, root, rows, vals, inEdges, b, sense, val, first, second);
  }

  /** No block can be pulled up to or below b. */
  ghost predicate Unpullable(g: Graph, rank: seq<nat>, rows: seq<set<nat>>, vals: seq<Vals>, es: seq<nat>, b: nat, sense: bool)
    requires Ranked(g, rank) && |rows| == |vals| == |g| && b < |g| && g[b].s.Jmp? && Listed(g, es)
  {
    forall first, second :: !Pullable(g, rank, rows, vals, es, b, sense, first, second)
  }

  lemma NothingToPull(g: Graph, rank: seq<nat>, rows: seq<set<nat>>, vals: seq<Vals>, es: seq<nat>, b: nat, sense: bool)
    requires Ranked(g, rank) && |rows| == |vals| == |g| && b < |g| && g[b].s.Jmp? && Listed(g, es)
    ensures es == [] ==> Unpullable(g, rank, rows, vals, es, b, sense)
    ensures es != [] ==>
      var val := vals[EdgeSource(g, es[0])][A_ATOM];
      var first := Down(g, rank, rows, vals, b, sense, val, false, b);
      && (!CommonValue(g, vals, es, val) || first == [] ==> Unpullable(g, rank, rows, vals, es, b, sense))
      && (first != [] && first[|first| - 1] < |g| &&
          Down(g, rank, rows, vals, b, sense, val, true, Side(g[first[|first| - 1]], !sense)) == [] ==>
            Unpullable(g, rank, rows, vals, es, b, sense))
  {
  }

  lemma IsPullable(g: Graph, rank: seq<nat>, rows: seq<set<nat>>, vals: seq<Vals>, es: seq<nat>, b: nat, sense: bool,
                   first: seq<nat>, second: seq<nat>)
    requires Ranked(g, rank) && |rows| == |vals| == |g| && b < |g| && g[b].s.Jmp? && Listed(g, es) && es != []
    requires var val := vals[EdgeSource(g, es[0])][A_ATOM];
      && CommonValue(g, vals, es, val)
      && first == Down(g, rank, rows, vals, b, sense, val, false, b) != [] && first[|first| - 1] < |g|
      && second == Down(g, rank, rows, vals, b, sense, val, true, Side(g[first[|first| - 1]], !sense)) != []
    ensures Pullable(g, rank, rows, vals, es, b, sense, first, second)
  {
  }

  lemma ArrivedTarget(g: Graph, cs: seq<nat>, sense: bool, start: nat, e: nat, moved: bool)
    requires WellFormed(g) && e < 2 * |g| && Arrived(g, cs, sense, start, e, moved)
    ensures cs != [] && EdgeTarget(g, e) == cs[|cs| - 1] < |g|
  {
  }

  /** The code starts at an edge that leads to b. */
  lemma StartEdge(g: Graph, rank: seq<nat>, root: nat, inEdges: seq<seq<nat>>, b: nat)
    requires Ranked(g, rank) && root < |g| && b < |g| && Analysis.InEdges(g, inEdges, Reach(g, rank, root)) && inEdges[b] != []
    ensures inEdges[b][0] < 2 * |g|
    ensures var p := EdgeSource(g, inEdges[b][0]);
      PredEdge(g, Reach(g, rank, root), if g[p].jt == b then p else p + |g|, b)
    ensures b != root
  {
    assert inEdges[b][0] in inEdges[b] && PredEdge(g, Reach(g, rank, root), inEdges[b][0], b);
    RankedAt(g, rank, EdgeSource(g, inEdges[b][0]));
  }

  lemma FoundSpot(g: Graph, rank: seq<nat>, root: nat, rows: seq<set<nat>>, vals: seq<Vals>, es: seq<nat>, b: nat, sense: bool,
                  first: seq<nat>, second: seq<nat>, start: nat, diffp: nat, moved: bool, samep: nat, deeper: bool)
    requires Ranked(g, rank) && root < |g| && DomExact(g, root, rows) && |vals| == |g| && Listed(g, es)
    requires b in Reach(g, rank, root) && g[b].s.Jmp? && PredEdge(g, Reach(g, rank, root), start, b)
    requires Pullable(g, rank, rows, vals, es, b, sense, first, second)
    requires diffp < 2 * |g| && Arrived(g, first, sense, start, diffp, moved)
    requires samep < 2 * |g| && Arrived(g, second, sense, EdgeOf(g, first[|first| - 1], !sense), samep, deeper)
    ensures Spot(g, rank, Reach(g, rank, root), b, diffp, samep, !moved)
  {
    FoundChain(g, rank, root, rows, vals, es, b, sense, first, second);
    var cs, live := first + second, Reach(g, rank, root);
    var m, n := |first| - 1, |cs| - 1;
    FoundEdges(g, root, b, sense, first, second, start, diffp, moved, samep, deeper);
    hide Pullable, DomExact, Arrived, Chain, EdgeOf, WellFormed, Reach;
    FoundAt(g, rank, root, b, sense, cs, n);
    ChainDescends(g, rank, root, b, sense, cs, m, n);
    if moved { FoundAt(g, rank, root, b, sense, cs, m); }
  }

  /** On which edges the two descents have ended. */
  lemma FoundEdges(g: Graph, root: nat, b: nat, sense: bool, first: seq<nat>, second: seq<nat>, start: nat, diffp: nat, moved: bool,
                   samep: nat, deeper: bool)
    requires WellFormed(g) && b < |g| && diffp < 2 * |g| && samep < 2 * |g| && |first| > 0 && |second| > 0
    requires Chain(g, root, b, sense, first + second) && first[0] == b && first[|first| - 1] < |g|
    requires Arrived(g, first, sense, start, diffp, moved)
    requires Arrived(g, second, sense, EdgeOf(g, first[|first| - 1], !sense), samep, deeper)
    ensures var cs, m, n := first + second, |first| - 1, |first| + |second| - 1;
      && cs[n - 1] < |g| && samep == EdgeOf(g, cs[n - 1], !sense) && EdgeTarget(g, samep) == cs[n]
      && EdgeTarget(g, diffp) == cs[m]
      && if moved then m > 0 && cs[m - 1] < |g| && diffp == EdgeOf(g, cs[m - 1], !sense) else m == 0 && diffp == start
  {
    var cs, n := first + second, |first| + |second| - 1;
    assert Link(g, root, b, sense, cs[n - 1]);
    assert second[|second| - 1] == cs[n];
  }

  /** The only edge into a block of the chain. */
  lemma FoundAt(g: Graph, rank: seq<nat>, root: nat, b: nat, sense: bool, cs: seq<nat>, i: nat)
    requires Ranked(g, rank) && root < |g| && b in Reach(g, rank, root)
    requires Chain(g, root, b, sense, cs) && 0 < i < |cs| && cs[0] == b
    ensures cs[i - 1] < |g| && cs[i] < |g| && g[cs[i]].s.Jmp?
    ensures forall f :: PredEdge(g, Reach(g, rank, root), f, cs[i]) <==> f == EdgeOf(g, cs[i - 1], !sense)
  {
    assert Link(g, root, b, sense, cs[i - 1]) && Link(g, root, b, sense, cs[i]);
    ChainLive(g, rank, root, b, sense, cs, i - 1);
    EdgeOfTarget(g, cs[i - 1], !sense);
    forall f | PredEdge(g, Reach(g, rank, root), f, cs[i]) ensures f == EdgeOf(g, cs[i - 1], !sense) {
      OnlyPredecessor(g, rank, root, b, sense, cs, i, f);
    }
  }

  lemma PullDone(g: Graph, g': Graph, rank: seq<nat>, root: nat, rows: seq<set<nat>>, vals: seq<Vals>, inEdges: seq<seq<nat>>,
                 b: nat, sense: bool, first: seq<nat>, second: seq<nat>) returns (rank': seq<nat>)
    requires Ranked(g, rank) && root < |g| && DomExact(g, root, rows) && |vals| == |g|
    requires b in Reach(g, rank, root) && g[b].s.Jmp? && Analysis.InEdges(g, inEdges, Reach(g, rank, root))
    requires Listed(g, inEdges[b]) && Pullable(g, rank, rows, vals, inEdges[b], b, sense, first, second)
    requires Pulled(g, g', Reach(g, rank, root), sense, first[|first| - 1], second[|second| - 1])
    ensures |g'| == |g| && Ranked(g', rank')
    ensures forall p :: Route(g', rank', root, p) == Route(g, rank, root, p)
    ensures BlockLocal(g, Reach(g, rank, root)) ==> forall p, r :: Walk(g', rank', root, p, r) == Walk(g, rank, root, p, r)
  {
    hide Pullable, Pulled, Chain, Reach, Ranked, DomExact, Analysis.InEdges, Listed, Route, Closed, PullRank, WellFormed, Walk, BlockLocal;
    RankedShape(g, rank);
    EdgesListed(g, inEdges, Reach(g, rank, root), b);
    RowsSize(g, root, rows);
    PullableParts(g, rank, rows, vals, inEdges[b], b, sense, first, second);
    FoundChain(g, rank, root, rows, vals, inEdges[b], b, sense, first, second);
    ChainJmp(g, root, b, sense, first + second, |first| - 1);
    ChainJmp(g, root, b, sense, first + second, |first| + |second| - 1);
    PulledShape(g, g', Reach(g, rank, root), sense, first[|first| - 1], second[|second| - 1]);
    StartEdge(g, rank, root, inEdges, b);
    var cs, m := first + second, |first| - 1;
    rank' := PullRank(rank, Reach(g, rank, root), cs[m], cs[|cs| - 1]);
    PullupSound(g, g', rank, root, b, sense, cs, m);
    ChainLive(g, rank, root, b, sense, cs, m);
    ChainLive(g, rank, root, b, sense, cs, |cs| - 1);
    ReachClosed(g, rank, root);
    PulledClosed(g, g', rank, Reach(g, rank, root), sense, cs[m], cs[|cs| - 1]);
    RoutesKept(g, g', rank, rank', root, Reach(g, rank, root));
  }

  lemma RowsSize(g: Graph, root: nat, rows: seq<set<nat>>)
    requires WellFormed(g) && DomExact(g, root, rows)
    ensures |rows| == |g|
  {
  }

  lemma PullableParts(g: Graph, rank: seq<nat>, rows: seq<set<nat>>, vals: seq<Vals>, es: seq<nat>, b: nat, sense: bool,
                      first: seq<nat>, second: seq<nat>)
    requires Ranked(g, rank) && |rows| == |vals| == |g| && b < |g| && g[b].s.Jmp? && Listed(g, es)
    requires Pullable(g, rank, rows, vals, es, b, sense, first, second)
    ensures es != [] && |first| > 0 && |second| > 0 && WellFormed(g)
  {
  }

  lemma ChainJmp(g: Graph, root: nat, b: nat, sense: bool, cs: seq<nat>, i: nat)
    requires WellFormed(g) && b < |g| && Chain(g, root, b, sense, cs) && i < |cs|
    ensures cs[i] < |g| && g[cs[i]].s.Jmp?
  {
    assert Link(g, root, b, sense, cs[i]);
  }

  lemma PulledShape(g: Graph, g': Graph, live: set<nat>, sense: bool, d: nat, s: nat)
    requires Pulled(g, g', live, sense, d, s)
    ensures |g'| == |g| && SameBlocks(g, g')
  {
  }

  /** A pull-up leads to no block that was not live. */
  lemma PulledClosed(g: Graph, g': Graph, rank: seq<nat>, live: set<nat>, sense: bool, d: nat, s: nat)
    requires Ranked(g, rank) && Closed(g, live) && Pulled(g, g', live, sense, d, s) && d in live && s in live && g[s].s.Jmp?
    ensures Closed(g', live)
  {
    forall y | y in live && y < |g'| && g'[y].s.Jmp? ensures g'[y].jt in live && g'[y].jf in live {
      assert EdgeTarget(g', y) == NewTarget(g, live, sense, d, s, y);
      assert EdgeTarget(g', y + |g|) == NewTarget(g, live, sense, d, s, y + |g|);
      assert g[s].jt in live && g[s].jf in live && g[y].jt in live && g[y].jf in live;
    }
  }

  /** Where every block defines what it uses, keeping routes keeps results. */
  lemma RoutesKept(g: Graph, g': Graph, rank: seq<nat>, rank': seq<nat>, root: nat, live: set<nat>)
    requires Ranked(g, rank) && Ranked(g', rank') && SameBlocks(g, g') && root < |g| && root in live && Closed(g, live) && Closed(g', live)
    requires forall p :: Route(g', rank', root, p) == Route(g, rank, root, p)
    ensures BlockLocal(g, live) ==> forall p, r :: Walk(g', rank', root, p, r) == Walk(g, rank, root, p, r)
  {
    if BlockLocal(g, live) {
      SameBlocksLocal(g, g', live);
      forall p, r ensures Walk(g', rank', root, p, r) == Walk(g, rank, root, p, r) {
        WalkIsRoute(g, rank, live, root, p, r);
        WalkIsRoute(g', rank', live, root, p, r);
      }
    }
  }

  ghost predicate Listed(g: Graph, es: seq<nat>) {
    forall i :: 0 <= i < |es| ==> es[i] < 2 * |g|
  }

  /** Where a block can be spliced out and in: samep is the only way to the block it leads to, and
      diffp the only way to d, unless d is b itself. */
  ghost predicate Spot(g: Graph, rank: seq<nat>, live: set<nat>, b: nat, diffp: nat, samep: nat, atTop: bool)
    requires Ranked(g, rank) && b < |g|
  {
    && diffp < 2 * |g| && samep < 2 * |g|
    && var d, s := EdgeTarget(g, diffp), EdgeTarget(g, samep);
       && d != NIL && s != NIL && g[s].s.Jmp? && rank[s] < rank[d]
       && PredEdge(g, live, diffp, d) && PredEdge(g, live, samep, s)
       && (forall f :: PredEdge(g, live, f, s) ==> f == samep)
       && (if atTop then d == b else forall f :: PredEdge(g, live, f, d) ==> f == diffp)
  }

  lemma SpotFacts(g: Graph, rank: seq<nat>, live: set<nat>, b: nat, sense: bool, diffp: nat, samep: nat, atTop: bool)
    requires Ranked(g, rank) && b < |g| && Spot(g, rank, live, b, diffp, samep, atTop)
    ensures diffp < 2 * |g| && samep < 2 * |g| && 0 <= EdgeTarget(g, diffp) < |g| && (atTop ==> EdgeTarget(g, diffp) == b)
    ensures g[EdgeSource(g, samep)].s.Jmp? && g[EdgeSource(g, diffp)].s.Jmp?
    ensures var d, s := EdgeTarget(g, diffp), EdgeTarget(g, samep);
      && d != s && 0 <= s < |g| && g[s].s.Jmp? && 0 <= Side(g[s], !sense) < |g| && Side(g[s], !sense) != d
      && samep != EdgeOf(g, s, !sense) && diffp != samep && diffp != EdgeOf(g, s, !sense)
  {
    RankedAt(g, rank, EdgeTarget(g, samep));
    RankedAt(g, rank, EdgeSource(g, samep));
    RankedAt(g, rank, EdgeSource(g, diffp));
  }

  /** The graph g2 is g with the block that samep leads to bypassed and linked to d. */
  ghost predicate Bypassed(g: Graph, g2: Graph, sense: bool, diffp: nat, samep: nat)
    requires WellFormed(g) && diffp < 2 * |g| && samep < 2 * |g| && 0 <= EdgeTarget(g, samep)
  {
    var s: nat := EdgeTarget(g, samep);
    && WellFormed(g2) && SameBlocks(g, g2)
    && forall f :: 0 <= f < 2 * |g| ==>
         EdgeTarget(g2, f) ==
           if f == EdgeOf(g, s, !sense) then EdgeTarget(g, diffp) else if f == samep then Side(g[s], !sense) else EdgeTarget(g, f)
  }

  lemma BypassedShape(g: Graph, g2: Graph, sense: bool, diffp: nat, samep: nat)
    requires WellFormed(g) && diffp < 2 * |g| && samep < 2 * |g| && 0 <= EdgeTarget(g, samep) && Bypassed(g, g2, sense, diffp, samep)
    ensures WellFormed(g2) && |g2| == |g|
  {
  }

  lemma SpliceOut(g: Graph, rank: seq<nat>, live: set<nat>, b: nat, sense: bool, diffp: nat, samep: nat, atTop: bool)
    requires Ranked(g, rank) && b < |g| && Spot(g, rank, live, b, diffp, samep, atTop)
    ensures var s: nat := EdgeTarget(g, samep);
      var g1 := SetTarget(g, samep, Side(g[s], !sense));
      && WellFormed(g1) && |g1| == |g| && EdgeTarget(g1, diffp) != NIL
      && Bypassed(g, SetTarget(g1, EdgeOf(g1, s, !sense), EdgeTarget(g1, diffp)), sense, diffp, samep)
  {
    SpotFacts(g, rank, live, b, sense, diffp, samep, atTop);
    var s: nat := EdgeTarget(g, samep);
    SetTargetEdges(g, samep, Side(g[s], !sense));
    var g1 := SetTarget(g, samep, Side(g[s], !sense));
    SetTargetEdges(g1, EdgeOf(g1, s, !sense), EdgeTarget(g1, diffp));
  }

  /** The edges listed for b still lead there, and no others of their blocks do. */
  lemma TopEdges(g: Graph, g2: Graph, rank: seq<nat>, live: set<nat>, inEdges: seq<seq<nat>>, b: nat, sense: bool, diffp: nat, samep: nat)
    requires Ranked(g, rank) && b < |g| && Spot(g, rank, live, b, diffp, samep, true)
    requires Analysis.InEdges(g, inEdges, live) && Bypassed(g, g2, sense, diffp, samep)
    ensures AllEdgesTo(g2, inEdges[b], b) && EdgeTarget(g, samep) != b
  {
    var es, s, n := inEdges[b], EdgeTarget(g, samep), |g|;
    SpotFacts(g, rank, live, b, sense, diffp, samep, true);
    forall i | 0 <= i < |es| ensures es[i] < 2 * n && g2[EdgeSource(g2, es[i])].s.Jmp? && EdgeTarget(g2, es[i]) == b {
      assert es[i] in es && PredEdge(g, live, es[i], b);
      RankedAt(g, rank, EdgeSource(g, es[i]));
    }
    forall f | 0 <= f < 2 * n && EdgeTarget(g2, f) == b && Sibling(n, f) in es ensures f in es {
      assert PredEdge(g, live, Sibling(n, f), b);
      RankedAt(g, rank, EdgeSource(g, f));
      assert f != EdgeOf(g, s, !sense);
      assert PredEdge(g, live, f, b);
    }
  }

  lemma SpliceTop(g: Graph, g2: Graph, g3: Graph, rank: seq<nat>, live: set<nat>, inEdges: seq<seq<nat>>, b: nat, sense: bool,
                  diffp: nat, samep: nat)
    requires Ranked(g, rank) && b < |g| && Spot(g, rank, live, b, diffp, samep, true)
    requires Analysis.InEdges(g, inEdges, live) && Bypassed(g, g2, sense, diffp, samep)
    requires WellFormed(g3) && SameBlocks(g2, g3)
    requires forall f :: 0 <= f < 2 * |g| ==>
      EdgeTarget(g3, f) == if f in inEdges[b] then EdgeTarget(g, samep) else EdgeTarget(g2, f)
    ensures Pulled(g, g3, live, sense, b, EdgeTarget(g, samep))
  {
    SpotFacts(g, rank, live, b, sense, diffp, samep, true);
    var s: nat := EdgeTarget(g, samep);
    forall f | 0 <= f < 2 * |g| ensures EdgeTarget(g3, f) == NewTarget(g, live, sense, b, s, f) {
      assert f in inEdges[b] <==> PredEdge(g, live, f, b);
      RankedAt(g, rank, s);
      EdgeOfTarget(g, s, !sense);
    }
  }

  lemma SpliceInner(g: Graph, g2: Graph, rank: seq<nat>, live: set<nat>, b: nat, sense: bool, diffp: nat, samep: nat)
    requires Ranked(g, rank) && b < |g| && Spot(g, rank, live, b, diffp, samep, false)
    requires Bypassed(g, g2, sense, diffp, samep)
    ensures Pulled(g, SetTarget(g2, diffp, EdgeTarget(g, samep)), live, sense, EdgeTarget(g, diffp), EdgeTarget(g, samep))
  {
    SpotFacts(g, rank, live, b, sense, diffp, samep, false);
    var s: nat := EdgeTarget(g, samep);
    SetTargetEdges(g2, diffp, s);
    var g3 := SetTarget(g2, diffp, s);
    forall f | 0 <= f < 2 * |g| ensures EdgeTarget(g3, f) == NewTarget(g, live, sense, EdgeTarget(g, diffp), s, f) {
      EdgeOfTarget(g, s, !sense);
    }
  }
}
