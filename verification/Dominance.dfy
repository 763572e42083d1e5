/**
 What dominators, edge dominators and backward closure mean, said over paths, and the one-step
 equations that a top-down sweep over the graph can compute.
 */
module Dominance {
  import opened Machine
  import opened Flow

  // ---------------------------------------------------------------------------------------
  // Blocks
  // ---------------------------------------------------------------------------------------

  /** Every path from the root to c passes a. */
  ghost predicate Dominates(g: Graph, root: nat, a: nat, c: nat)
    requires WellFormed(g)
  {
    forall path :: PathFromTo(g, path, root, c) ==> a in path
  }

  /** What a path reaches is reachable. */
  lemma {:induction false} PathReaches(g: Graph, rank: seq<nat>, path: seq<nat>, b: nat, c: nat)
    requires Ranked(g, rank) && PathFromTo(g, path, b, c)
    ensures b < |g| && c in Reach(g, rank, b)
    decreases |path|
  {
    if |path| > 1 {
      var d := path[1];
      assert d in Succs(g, b);
      assert PathFromTo(g, path[1..], d, c);
      PathReaches(g, rank, path[1..], d, c);
    }
  }

  /** What is reachable is reached by a path. */
  lemma {:induction false} ReachHasPath(g: Graph, rank: seq<nat>, b: nat, c: nat) returns (path: seq<nat>)
    requires Ranked(g, rank) && b < |g| && c in Reach(g, rank, b)
    ensures PathFromTo(g, path, b, c)
    decreases rank[b]
  {
    if c == b {
      path := [b];
    } else {
      var d := if c in Reach(g, rank, g[b].jt) then g[b].jt else g[b].jf;
      var rest := ReachHasPath(g, rank, d, c);
      path := [b] + rest;
    }
  }

  /** The reachable blocks that have c as a successor. */
  ghost predicate Pred(g: Graph, live: set<nat>, p: nat, c: nat)
    requires WellFormed(g)
  {
    p in live && p < |g| && c in Succs(g, p)
  }

  /** A block other than the root is dominated by itself and by what dominates all its
      reachable predecessors. */
  lemma DominatesStep(g: Graph, rank: seq<nat>, root: nat, a: nat, c: nat)
    requires Ranked(g, rank) && root < |g| && c < |g| && c != root
    ensures Dominates(g, root, a, c) <==>
      a == c || forall p :: Pred(g, Reach(g, rank, root), p, c) ==> Dominates(g, root, a, p)
  {
    var live := Reach(g, rank, root);
    if Dominates(g, root, a, c) && a != c {
      forall p | Pred(g, live, p, c) ensures Dominates(g, root, a, p) {
        forall path | PathFromTo(g, path, root, p) ensures a in path {
          assert PathFromTo(g, path + [c], root, c);
        }
      }
    }
    if forall p :: Pred(g, live, p, c) ==> Dominates(g, root, a, p) {
      forall path | PathFromTo(g, path, root, c) ensures a == c || a in path {
        var n := |path| - 1;
        var p := path[n - 1];
        assert PathFromTo(g, path[..n], root, p);
        PathReaches(g, rank, path[..n], root, p);
        assert Pred(g, live, p, c);
      }
      if a == c { SelfDominates(g, root, c); }
    }
  }

  lemma SelfDominates(g: Graph, root: nat, c: nat)
    requires WellFormed(g)
    ensures Dominates(g, root, c, c)
  {
  }

  /** The root is dominated by itself only. */
  lemma RootDominators(g: Graph, root: nat, a: nat)
    requires WellFormed(g) && root < |g|
    ensures Dominates(g, root, a, root) <==> a == root
  {
    assert PathFromTo(g, [root], root, root);
  }

  /** Every block dominates what is not reachable. */
  lemma UnreachableDominators(g: Graph, rank: seq<nat>, root: nat, a: nat, c: nat)
    requires Ranked(g, rank) && root < |g| && c < |g| && c !in Reach(g, rank, root)
    ensures Dominates(g, root, a, c)
  {
    if path :| PathFromTo(g, path, root, c) {
      PathReaches(g, rank, path, root, c);
      assert false;
    }
  }

  // ---------------------------------------------------------------------------------------
  // Edges
  // ---------------------------------------------------------------------------------------

  /** Edge ids: the true edge of block b is b, the false edge is b plus the number of blocks. */
  function EdgeSource(g: Graph, e: nat): (b: nat)
    requires e < 2 * |g|
    ensures b < |g|
  {
    if e < |g| then e else e - |g|
  }

  /** Where an edge leads; NIL for the two edges of a leaf. */
  function EdgeTarget(g: Graph, e: nat): (c: int)
    requires WellFormed(g) && e < 2 * |g|
    ensures c == NIL || 0 <= c < |g|
  {
    if e < |g| then g[e].jt else g[e - |g|].jf
  }

  /** A path of edges that starts at the root. */
  ghost predicate EdgePath(g: Graph, root: nat, es: seq<nat>)
    requires WellFormed(g)
  {
    && |es| > 0
    && (forall i :: 0 <= i < |es| ==> es[i] < 2 * |g|)
    && EdgeSource(g, es[0]) == root
    && (forall i :: 0 < i < |es| ==> EdgeTarget(g, es[i - 1]) == EdgeSource(g, es[i]))
  }

  ghost predicate EdgePathTo(g: Graph, root: nat, es: seq<nat>, f: nat)
    requires WellFormed(g)
  {
    EdgePath(g, root, es) && es[|es| - 1] == f
  }

  /** Every path of edges that starts at the root and ends with f uses e. */
  ghost predicate EdgeDominates(g: Graph, root: nat, e: nat, f: nat)
    requires WellFormed(g)
  {
    forall es :: EdgePathTo(g, root, es, f) ==> e in es
  }

  lemma {:induction false} EdgePathReaches(g: Graph, rank: seq<nat>, root: nat, es: seq<nat>)
    requires Ranked(g, rank) && root < |g| && EdgePath(g, root, es)
    ensures EdgeSource(g, es[|es| - 1]) in Reach(g, rank, root)
  {
    var n := |es| - 1;
    if n > 0 {
      EdgePathReaches(g, rank, root, es[..n]);
      var b := EdgeSource(g, es[n - 1]);
      ReachTransitive(g, rank, root, b);
      WellFormedAt(g, b);
      assert EdgeSource(g, es[n]) in Reach(g, rank, b);
    }
  }

  /** The edges out of reachable blocks that lead to b. */
  ghost predicate PredEdge(g: Graph, live: set<nat>, h: nat, b: nat)
    requires WellFormed(g)
  {
    h < 2 * |g| && EdgeSource(g, h) in live && EdgeTarget(g, h) == b
  }

  lemma EdgeDominatesPreds(g: Graph, root: nat, e: nat, f: nat, live: set<nat>, h: nat)
    requires WellFormed(g) && f < 2 * |g| && PredEdge(g, live, h, EdgeSource(g, f))
    requires EdgeDominates(g, root, e, f) && e != f
    ensures EdgeDominates(g, root, e, h)
  {
    forall es | EdgePathTo(g, root, es, h) ensures e in es {
      assert EdgePathTo(g, root, es + [f], f);
    }
  }

  /** An edge out of a block other than the root is dominated by itself and by what dominates
      all the edges that lead to that block. */
  lemma EdgeDominatesStep(g: Graph, rank: seq<nat>, root: nat, e: nat, f: nat)
    requires Ranked(g, rank) && root < |g| && f < 2 * |g| && EdgeSource(g, f) != root
    ensures EdgeDominates(g, root, e, f) <==>
      e == f || forall h :: PredEdge(g, Reach(g, rank, root), h, EdgeSource(g, f)) ==> EdgeDominates(g, root, e, h)
  {
    var live, b := Reach(g, rank, root), EdgeSource(g, f);
    if EdgeDominates(g, root, e, f) && e != f {
      forall h | PredEdge(g, live, h, b) ensures EdgeDominates(g, root, e, h) {
        EdgeDominatesPreds(g, root, e, f, live, h);
      }
    }
    if e != f && forall h :: PredEdge(g, live, h, b) ==> EdgeDominates(g, root, e, h) {
      forall es | EdgePathTo(g, root, es, f) ensures e in es {
        var n := |es| - 1;
        var h := es[n - 1];
        assert EdgePathTo(g, root, es[..n], h);
        EdgePathReaches(g, rank, root, es[..n]);
        assert PredEdge(g, live, h, b);
      }
    }
  }

  lemma RootEdgeDominators(g: Graph, root: nat, e: nat, f: nat)
    requires WellFormed(g) && root < |g| && f < 2 * |g| && EdgeSource(g, f) == root
    ensures EdgeDominates(g, root, e, f) <==> e == f
  {
    assert EdgePathTo(g, root, [f], f);
  }

  lemma UnreachableEdgeDominators(g: Graph, rank: seq<nat>, root: nat, e: nat, f: nat)
    requires Ranked(g, rank) && root < |g| && f < 2 * |g| && EdgeSource(g, f) !in Reach(g, rank, root)
    ensures EdgeDominates(g, root, e, f)
  {
    if es :| EdgePathTo(g, root, es, f) {
      EdgePathReaches(g, rank, root, es);
      assert false;
    }
  }

  // ---------------------------------------------------------------------------------------
  // Backward closure
  // ---------------------------------------------------------------------------------------

  /** A block other than b that b reaches has a predecessor that b reaches. */
  lemma {:induction false} ReachPredecessor(g: Graph, rank: seq<nat>, b: nat, c: nat) returns (p: nat)
    requires Ranked(g, rank) && b < |g| && c in Reach(g, rank, b) && c != b
    ensures p in Reach(g, rank, b) && !g[p].s.Ret? && c in Succs(g, p)
    decreases rank[b]
  {
    if g[b].jt == c || g[b].jf == c {
      p := b;
    } else if c in Reach(g, rank, g[b].jt) {
      p := ReachPredecessor(g, rank, g[b].jt, c);
    } else {
      p := ReachPredecessor(g, rank, g[b].jf, c);
    }
  }

  /** b is reachable and reaches c. */
  ghost predicate ReachesFrom(g: Graph, rank: seq<nat>, root: nat, b: nat, c: nat)
    requires Ranked(g, rank) && root < |g|
  {
    b in Reach(g, rank, root) && c in Reach(g, rank, b)
  }

  /** A reachable block is reached from itself and from what its predecessors are reached from. */
  lemma ReachesFromStep(g: Graph, rank: seq<nat>, root: nat, b: nat, c: nat)
    requires Ranked(g, rank) && root < |g| && c in Reach(g, rank, root)
    ensures ReachesFrom(g, rank, root, b, c) <==>
      b == c || exists p :: Pred(g, Reach(g, rank, root), p, c) && ReachesFrom(g, rank, root, b, p)
  {
    if ReachesFrom(g, rank, root, b, c) && b != c {
      var p := ReachPredecessor(g, rank, b, c);
      ReachTransitive(g, rank, root, b);
      assert Pred(g, Reach(g, rank, root), p, c);
    }
    if p :| Pred(g, Reach(g, rank, root), p, c) && ReachesFrom(g, rank, root, b, p) {
      ReachTransitive(g, rank, b, p);
      WellFormedAt(g, p);
      assert c in Reach(g, rank, p);
    }
  }
}
