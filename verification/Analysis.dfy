/**
 Leveling the graph, and the three analyses that sweep it from the root down: dominators, edge
 dominators and backward closure. Each ends with exactly the path-quantified sets.
 */
module Analysis {
  import opened Machine
  import opened Flow
  import opened Dominance
  import BitSets

  // ---------------------------------------------------------------------------------------
  // Level lists
  // ---------------------------------------------------------------------------------------

  /** The blocks in done have their level, and levels[l] lists those of level l once each. */
  ghost predicate Listed(g: Graph, level: seq<nat>, levels: seq<seq<nat>>, done: set<nat>)
    requires WellFormed(g)
  {
    && |level| == |g| == |levels|
    && (forall b :: b in done ==> b < |g| && level[b] < |g| && b in levels[level[b]])
    && (forall b :: b in done && b < |g| ==>
          if g[b].s.Ret? then level[b] == 0
          else g[b].jt in done && g[b].jf in done && level[b] == 1 + Max(level[g[b].jt], level[g[b].jf]))
    && (forall l, i :: 0 <= l < |levels| && 0 <= i < |levels[l]| ==>
          levels[l][i] in done && levels[l][i] < |g| && level[levels[l][i]] == l)
    && (forall l, i, j :: 0 <= l < |levels| && 0 <= i < j < |levels[l]| ==> levels[l][i] != levels[l][j])
  }

  /** Levels strictly decrease along edges between listed blocks. */
  lemma ListedDecreases(g: Graph, level: seq<nat>, levels: seq<seq<nat>>, done: set<nat>, b: nat, c: nat)
    requires WellFormed(g) && Listed(g, level, levels, done) && b in done && b < |g| && c in Succs(g, b)
    ensures c in done && level[c] < level[b]
  {
  }

  /** A block's level is less than the number of blocks it reaches. */
  lemma {:induction false} LevelBound(g: Graph, rank: seq<nat>, level: seq<nat>, levels: seq<seq<nat>>,
                                      done: set<nat>, b: nat)
    requires Ranked(g, rank) && Listed(g, level, levels, done) && b in done && b < |g|
    ensures level[b] < |Reach(g, rank, b)|
    decreases rank[b]
  {
    if g[b].s.Ret? {
      assert Reach(g, rank, b) == {b};
    } else {
      var c := if level[g[b].jt] > level[g[b].jf] then g[b].jt else g[b].jf;
      LevelBound(g, rank, level, levels, done, c);
      var r := Reach(g, rank, c);
      assert b !in r;
      SubsetSize(r + {b}, Reach(g, rank, b));
    }
  }

  lemma SubsetSize(a: set<nat>, b: set<nat>)
    requires a <= b
    ensures |a| <= |b|
  {
    assert b == a + (b - a);
  }

  lemma {:induction false} RangeSize(s: set<nat>, n: nat)
    requires forall x :: x in s ==> x < n
    ensures |s| <= n
  {
    if n == 0 {
      assert s == {};
    } else {
      RangeSize(s - {n - 1}, n - 1);
      SubsetSize(s, (s - {n - 1}) + {n - 1});
    }
  }

  // ---------------------------------------------------------------------------------------
  // The sweep
  // ---------------------------------------------------------------------------------------

  /** The blocks a top-down sweep has processed when it is at position k of level l. */
  ghost function Swept(g: Graph, level: seq<nat>, levels: seq<seq<nat>>, live: set<nat>, l: int, k: nat): set<nat>
    requires |level| == |g| && -1 <= l < |levels| && (l >= 0 ==> k <= |levels[l]|)
  {
    set b | b in live && b < |g| && (level[b] > l || (l >= 0 && b in levels[l][..k]))
  }

  /** What makes b the next block of a sweep that has processed done. */
  ghost predicate Next(g: Graph, live: set<nat>, done: set<nat>, b: nat)
    requires WellFormed(g)
  {
    && done <= live && b in live && b !in done && b < |g|
    && (forall p :: Pred(g, live, p, b) ==> p in done)
    && (forall c :: c in Succs(g, b) ==> c in live && c !in done && c != b)
  }

  lemma SweptNext(g: Graph, level: seq<nat>, levels: seq<seq<nat>>, live: set<nat>, l: nat, k: nat)
    requires WellFormed(g) && Listed(g, level, levels, live) && l < |levels| && k < |levels[l]|
    ensures Next(g, live, Swept(g, level, levels, live, l, k), levels[l][k])
    ensures Swept(g, level, levels, live, l, k + 1) == Swept(g, level, levels, live, l, k) + {levels[l][k]}
  {
    var done, b := Swept(g, level, levels, live, l, k), levels[l][k];
    assert levels[l][..k + 1] == levels[l][..k] + [b];
    forall p | Pred(g, live, p, b) ensures p in done { ListedDecreases(g, level, levels, live, p, b); }
    forall c | c in Succs(g, b) ensures c in live && c !in done && c != b {
      ListedDecreases(g, level, levels, live, b, c);
    }
  }

  lemma SweptLevel(g: Graph, level: seq<nat>, levels: seq<seq<nat>>, live: set<nat>, l: nat)
    requires WellFormed(g) && Listed(g, level, levels, live) && l < |levels|
    ensures Swept(g, level, levels, live, l, |levels[l]|) == Swept(g, level, levels, live, l - 1, 0)
  {
    assert levels[l][..|levels[l]|] == levels[l];
    forall b | b in live && b < |g| ensures level[b] >= l <==> level[b] > l || b in levels[l] {
    }
  }

  lemma {:induction false} RootOnTop(g: Graph, rank: seq<nat>, level: seq<nat>, levels: seq<seq<nat>>,
                                     live: set<nat>, root: nat, b: nat)
    requires Ranked(g, rank) && Listed(g, level, levels, live) && root < |g| && root in live
    requires b in Reach(g, rank, root)
    ensures b in live && (b != root ==> level[b] < level[root])
    decreases rank[root]
  {
    if b != root {
      var c := if b in Reach(g, rank, g[root].jt) then g[root].jt else g[root].jf;
      RootOnTop(g, rank, level, levels, live, c, b);
    }
  }

  lemma SweptStart(g: Graph, rank: seq<nat>, level: seq<nat>, levels: seq<seq<nat>>, root: nat)
    requires Ranked(g, rank) && root < |g| && Listed(g, level, levels, Reach(g, rank, root))
    ensures level[root] < |g|
    ensures Swept(g, level, levels, Reach(g, rank, root), level[root], 0) == {}
    ensures Swept(g, level, levels, Reach(g, rank, root), -1, 0) == Reach(g, rank, root)
  {
    var live := Reach(g, rank, root);
    forall b | b in live ensures level[b] <= level[root] {
      RootOnTop(g, rank, level, levels, live, root, b);
    }
  }

  /** The sweep starts at the root: a block whose predecessors are done is not first. */
  lemma NextIsRoot(g: Graph, rank: seq<nat>, root: nat, done: set<nat>, b: nat)
    requires Ranked(g, rank) && root < |g| && Next(g, Reach(g, rank, root), done, b)
    ensures done == {} ==> b == root
  {
    if b != root {
      var p := ReachPredecessor(g, rank, root, b);
      assert Pred(g, Reach(g, rank, root), p, b);
    }
  }

  lemma NoPreds(g: Graph, rank: seq<nat>, root: nat, c: nat)
    requires Ranked(g, rank) && root < |g| && c !in Reach(g, rank, root)
    ensures forall p :: !Pred(g, Reach(g, rank, root), p, c)
  {
    forall p ensures !Pred(g, Reach(g, rank, root), p, c) {
      if Pred(g, Reach(g, rank, root), p, c) {
        WellFormedAt(g, p);
        ReachTransitive(g, rank, root, p);
        assert false;
      }
    }
  }

  // ---------------------------------------------------------------------------------------
  // Dominators
  // ---------------------------------------------------------------------------------------

  /** The dominators of c below cap. */
  ghost function Dominators(g: Graph, root: nat, cap: nat, c: nat): set<nat>
    requires WellFormed(g)
  {
    set a: nat | a < cap && Dominates(g, root, a, c)
  }

  ghost predicate DominatesPreds(g: Graph, root: nat, done: set<nat>, a: nat, c: nat)
    requires WellFormed(g)
  {
    forall p :: Pred(g, done, p, c) ==> Dominates(g, root, a, p)
  }

  /** Processed rows are exact; the others hold what dominates all processed predecessors. */
  ghost predicate DomRows(g: Graph, root: nat, cap: nat, rows: seq<set<nat>>, done: set<nat>)
    requires WellFormed(g)
  {
    && |rows| == |g|
    && (done == {} || root in done)
    && forall c :: 0 <= c < |g| ==> DomRow(g, root, cap, rows[c], done, c)
  }

  ghost predicate DomRow(g: Graph, root: nat, cap: nat, row: set<nat>, done: set<nat>, c: nat)
    requires WellFormed(g)
  {
    row == if c in done then Dominators(g, root, cap, c)
           else if c == root then {}
           else set a: nat | a < cap && DominatesPreds(g, root, done, a, c)
  }

  /** One step of the sweep on dominator rows. */
  ghost function DomUpdate(g: Graph, rows: seq<set<nat>>, b: nat): seq<set<nat>>
    requires WellFormed(g) && |rows| == |g| && b < |g|
  {
    var r1 := rows[b := rows[b] + {b}];
    if g[b].s.Ret? then r1
    else
      var r2 := r1[g[b].jt := r1[g[b].jt] * r1[b]];
      r2[g[b].jf := r2[g[b].jf] * r2[b]]
  }

  lemma DomRowExact(g: Graph, rank: seq<nat>, root: nat, cap: nat, row: set<nat>, done: set<nat>, b: nat)
    requires Ranked(g, rank) && root < |g| && b < cap && Next(g, Reach(g, rank, root), done, b)
    requires DomRow(g, root, cap, row, done, b)
    ensures row + {b} == Dominators(g, root, cap, b)
  {
    forall a: nat | a < cap ensures a in row + {b} <==> Dominates(g, root, a, b) {
      if b == root {
        RootDominators(g, root, a);
      } else {
        DominatesStep(g, rank, root, a, b);
        assert forall p :: Pred(g, done, p, b) <==> Pred(g, Reach(g, rank, root), p, b);
      }
    }
  }

  lemma DomRowMeet(g: Graph, root: nat, cap: nat, row: set<nat>, done: set<nat>, b: nat, c: nat)
    requires WellFormed(g) && DomRow(g, root, cap, row, done, c) && c !in done && c != root && c != b && b < |g|
    ensures c in Succs(g, b) ==> DomRow(g, root, cap, row * Dominators(g, root, cap, b), done + {b}, c)
    ensures c !in Succs(g, b) ==> DomRow(g, root, cap, row, done + {b}, c)
  {
    forall a: nat ensures DominatesPreds(g, root, done + {b}, a, c) <==>
        DominatesPreds(g, root, done, a, c) && (c in Succs(g, b) ==> Dominates(g, root, a, b))
    {
      assert forall p :: Pred(g, done + {b}, p, c) <==> Pred(g, done, p, c) || (p == b && c in Succs(g, b));
    }
  }

  lemma DomStep(g: Graph, rank: seq<nat>, root: nat, cap: nat, rows: seq<set<nat>>, done: set<nat>, b: nat)
    requires Ranked(g, rank) && root < |g| <= cap && Next(g, Reach(g, rank, root), done, b)
    requires DomRows(g, root, cap, rows, done)
    ensures DomRows(g, root, cap, DomUpdate(g, rows, b), done + {b})
  {
    NextIsRoot(g, rank, root, done, b);
    DomRowExact(g, rank, root, cap, rows[b], done, b);
    var rows' := DomUpdate(g, rows, b);
    WellFormedAt(g, b);
    forall c | 0 <= c < |g| ensures DomRow(g, root, cap, rows'[c], done + {b}, c) {
      assert DomRow(g, root, cap, rows[c], done, c);
      if c !in done && c != b {
        DomRowMeet(g, root, cap, rows[c], done, b, c);
      }
    }
  }

  lemma DomExact(g: Graph, rank: seq<nat>, root: nat, cap: nat, rows: seq<set<nat>>)
    requires Ranked(g, rank) && root < |g| && DomRows(g, root, cap, rows, Reach(g, rank, root))
    ensures forall c :: 0 <= c < |g| ==> rows[c] == Dominators(g, root, cap, c)
  {
    forall c | 0 <= c < |g| ensures rows[c] == Dominators(g, root, cap, c) {
      assert DomRow(g, root, cap, rows[c], Reach(g, rank, root), c);
      if c !in Reach(g, rank, root) {
        NoPreds(g, rank, root, c);
        forall a: nat ensures Dominates(g, root, a, c) { UnreachableDominators(g, rank, root, a, c); }
      }
    }
  }

  // ---------------------------------------------------------------------------------------
  // Backward closure
  // ---------------------------------------------------------------------------------------

  /** The reachable blocks that reach c. */
  ghost function Ancestors(g: Graph, rank: seq<nat>, root: nat, c: nat): set<nat>
    requires Ranked(g, rank) && root < |g|
  {
    set b | b in Reach(g, rank, root) && ReachesFrom(g, rank, root, b, c)
  }

  ghost predicate ReachesPred(g: Graph, rank: seq<nat>, root: nat, done: set<nat>, b: nat, c: nat)
    requires Ranked(g, rank) && root < |g|
  {
    exists p :: Pred(g, done, p, c) && ReachesFrom(g, rank, root, b, p)
  }

  ghost predicate ClosureRow(g: Graph, rank: seq<nat>, root: nat, row: set<nat>, done: set<nat>, c: nat)
    requires Ranked(g, rank) && root < |g|
  {
    row == if c in done then Ancestors(g, rank, root, c)
           else set b | b in Reach(g, rank, root) && ReachesPred(g, rank, root, done, b, c)
  }

  ghost predicate ClosureRows(g: Graph, rank: seq<nat>, root: nat, rows: seq<set<nat>>, done: set<nat>)
    requires Ranked(g, rank) && root < |g|
  {
    |rows| == |g| && forall c :: 0 <= c < |g| ==> ClosureRow(g, rank, root, rows[c], done, c)
  }

  ghost function ClosureUpdate(g: Graph, rows: seq<set<nat>>, b: nat): (rows': seq<set<nat>>)
    requires WellFormed(g) && |rows| == |g| && b < |g|
    ensures |rows'| == |rows|
  {
    var r1 := rows[b := rows[b] + {b}];
    if g[b].s.Ret? then r1
    else
      var r2 := r1[g[b].jt := r1[g[b].jt] + r1[b]];
      r2[g[b].jf := r2[g[b].jf] + r2[b]]
  }

  lemma ClosureRowExact(g: Graph, rank: seq<nat>, root: nat, row: set<nat>, done: set<nat>, c: nat)
    requires Ranked(g, rank) && root < |g| && Next(g, Reach(g, rank, root), done, c)
    requires ClosureRow(g, rank, root, row, done, c)
    ensures row + {c} == Ancestors(g, rank, root, c)
  {
    assert forall p :: Pred(g, done, p, c) <==> Pred(g, Reach(g, rank, root), p, c);
    forall b | b in Reach(g, rank, root) ensures b in row + {c} <==> ReachesFrom(g, rank, root, b, c) {
      ReachesFromStep(g, rank, root, b, c);
    }
  }

  lemma ClosureRowJoin(g: Graph, rank: seq<nat>, root: nat, row: set<nat>, done: set<nat>, b: nat, c: nat)
    requires Ranked(g, rank) && root < |g| && ClosureRow(g, rank, root, row, done, c)
    requires c !in done && c != b && b < |g|
    ensures c in Succs(g, b) ==> ClosureRow(g, rank, root, row + Ancestors(g, rank, root, b), done + {b}, c)
    ensures c !in Succs(g, b) ==> ClosureRow(g, rank, root, row, done + {b}, c)
  {
    assert forall p :: Pred(g, done + {b}, p, c) <==> Pred(g, done, p, c) || (p == b && c in Succs(g, b));
  }

  lemma ClosureStepRow(g: Graph, rank: seq<nat>, root: nat, rows: seq<set<nat>>, done: set<nat>, b: nat, c: nat)
    requires Ranked(g, rank) && root < |g| && b < |g| == |rows| && c < |g|
    requires rows[b] + {b} == Ancestors(g, rank, root, b)
    requires g[b].jt !in done && g[b].jf !in done && g[b].jt != b && g[b].jf != b
    requires ClosureRow(g, rank, root, rows[c], done, c)
    ensures ClosureRow(g, rank, root, ClosureUpdate(g, rows, b)[c], done + {b}, c)
  {
    WellFormedAt(g, b);
    hide Ancestors, Reach, ReachesPred, Ranked;
    var row := ClosureUpdate(g, rows, b)[c];
    if c !in done && c != b {
      ClosureRowJoin(g, rank, root, rows[c], done, b, c);
      assert row == if c in Succs(g, b) then rows[c] + Ancestors(g, rank, root, b) else rows[c];
    }
  }

  lemma ClosureStep(g: Graph, rank: seq<nat>, root: nat, rows: seq<set<nat>>, done: set<nat>, b: nat)
    requires Ranked(g, rank) && root < |g| && Next(g, Reach(g, rank, root), done, b)
    requires ClosureRows(g, rank, root, rows, done)
    ensures ClosureRows(g, rank, root, ClosureUpdate(g, rows, b), done + {b})
  {
    hide ClosureRow, Reach, Ancestors, ClosureUpdate;
    ClosureRowExact(g, rank, root, rows[b], done, b);
    WellFormedAt(g, b);
    assert !g[b].s.Ret? ==> g[b].jt in Succs(g, b) && g[b].jf in Succs(g, b);
    var rows' := ClosureUpdate(g, rows, b);
    forall c | 0 <= c < |g| ensures ClosureRow(g, rank, root, rows'[c], done + {b}, c) {
      ClosureStepRow(g, rank, root, rows, done, b, c);
    }
  }

  lemma ClosureExact(g: Graph, rank: seq<nat>, root: nat, rows: seq<set<nat>>)
    requires Ranked(g, rank) && root < |g| && ClosureRows(g, rank, root, rows, Reach(g, rank, root))
    ensures forall c :: 0 <= c < |g| ==> rows[c] == Ancestors(g, rank, root, c)
  {
    forall c | 0 <= c < |g| ensures rows[c] == Ancestors(g, rank, root, c) {
      assert ClosureRow(g, rank, root, rows[c], Reach(g, rank, root), c);
      if c !in Reach(g, rank, root) {
        NoPreds(g, rank, root, c);
        forall b | b in Reach(g, rank, root) ensures !ReachesFrom(g, rank, root, b, c) {
          ReachTransitive(g, rank, root, b);
        }
      }
    }
  }

  // ---------------------------------------------------------------------------------------
  // Edge dominators
  // ---------------------------------------------------------------------------------------

  /** The edges below cap that dominate f. */
  ghost function EdgeDominators(g: Graph, root: nat, cap: nat, f: nat): set<nat>
    requires WellFormed(g)
  {
    set e: nat | e < cap && EdgeDominates(g, root, e, f)
  }

  ghost predicate EdgeDominatesPredEdges(g: Graph, root: nat, done: set<nat>, e: nat, b: nat)
    requires WellFormed(g)
  {
    forall h :: PredEdge(g, done, h, b) ==> EdgeDominates(g, root, e, h)
  }

  /** Rows of swept blocks are exact; the others hold what dominates all swept edges into the block. */
  ghost predicate EdgeRow(g: Graph, root: nat, cap: nat, row: set<nat>, done: set<nat>, f: nat)
    requires WellFormed(g) && f < 2 * |g|
  {
    row == if EdgeSource(g, f) in done then EdgeDominators(g, root, cap, f)
           else if EdgeSource(g, f) == root then {}
           else set e: nat | e < cap && EdgeDominatesPredEdges(g, root, done, e, EdgeSource(g, f))
  }

  ghost predicate EdgeRows(g: Graph, root: nat, cap: nat, rows: seq<set<nat>>, done: set<nat>)
    requires WellFormed(g)
  {
    && |rows| == 2 * |g|
    && (done == {} || root in done)
    && forall f :: 0 <= f < 2 * |g| ==> EdgeRow(g, root, cap, rows[f], done, f)
  }

  /** Propagating one edge: it dominates itself, and both edges out of its target inherit. */
  ghost function EdgeUpdate(g: Graph, rows: seq<set<nat>>, e: nat): (rows': seq<set<nat>>)
    requires WellFormed(g) && |rows| == 2 * |g| && e < 2 * |g|
    ensures |rows'| == |rows|
  {
    var r1 := rows[e := rows[e] + {e}];
    var c := EdgeTarget(g, e);
    if c == NIL then r1
    else
      var r2 := r1[c := r1[c] * r1[e]];
      r2[c + |g| := r2[c + |g|] * r2[e]]
  }

  lemma EdgeRowExact(g: Graph, rank: seq<nat>, root: nat, cap: nat, row: set<nat>, done: set<nat>, f: nat)
    requires Ranked(g, rank) && root < |g| && f < 2 * |g| <= cap
    requires Next(g, Reach(g, rank, root), done, EdgeSource(g, f))
    requires EdgeRow(g, root, cap, row, done, f)
    ensures row + {f} == EdgeDominators(g, root, cap, f)
  {
    var b := EdgeSource(g, f);
    assert forall h :: PredEdge(g, done, h, b) <==> PredEdge(g, Reach(g, rank, root), h, b) by {
      forall h | PredEdge(g, Reach(g, rank, root), h, b) ensures PredEdge(g, done, h, b) {
        assert Pred(g, Reach(g, rank, root), EdgeSource(g, h), b);
      }
    }
    forall e: nat | e < cap ensures e in row + {f} <==> EdgeDominates(g, root, e, f) {
      if b == root { RootEdgeDominators(g, root, e, f); } else { EdgeDominatesStep(g, rank, root, e, f); }
    }
  }

  /** The row of an edge out of a block not yet swept, after both edges of b were propagated. */
  ghost function EdgeMeet(g: Graph, root: nat, cap: nat, row: set<nat>, b: nat, c: nat): set<nat>
    requires WellFormed(g) && b < |g|
  {
    var r1 := if g[b].jt == c then row * EdgeDominators(g, root, cap, b) else row;
    if g[b].jf == c then r1 * EdgeDominators(g, root, cap, b + |g|) else r1
  }

  lemma EdgeRowMeet(g: Graph, root: nat, cap: nat, row: set<nat>, done: set<nat>, b: nat, f: nat)
    requires WellFormed(g) && f < 2 * |g| && b < |g| && EdgeRow(g, root, cap, row, done, f)
    requires EdgeSource(g, f) !in done && EdgeSource(g, f) != root && EdgeSource(g, f) != b
    ensures EdgeRow(g, root, cap, EdgeMeet(g, root, cap, row, b, EdgeSource(g, f)), done + {b}, f)
  {
    var c := EdgeSource(g, f);
    forall h ensures PredEdge(g, done + {b}, h, c) <==>
        PredEdge(g, done, h, c) || (h == b && g[b].jt == c) || (h == b + |g| && g[b].jf == c)
    {
    }
    forall e: nat ensures EdgeDominatesPredEdges(g, root, done + {b}, e, c) <==>
        && EdgeDominatesPredEdges(g, root, done, e, c)
        && (g[b].jt == c ==> EdgeDominates(g, root, e, b))
        && (g[b].jf == c ==> EdgeDominates(g, root, e, b + |g|))
    {
      if EdgeDominatesPredEdges(g, root, done + {b}, e, c) {
        assert PredEdge(g, done + {b}, b, c) || g[b].jt != c;
        assert PredEdge(g, done + {b}, b + |g|, c) || g[b].jf != c;
      }
    }
  }

  /** What propagating both edges of b does to each row. */
  lemma EdgeUpdateRows(g: Graph, rows: seq<set<nat>>, b: nat, f: nat)
    requires WellFormed(g) && |rows| == 2 * |g| && b < |g| && f < 2 * |g|
    requires g[b].jt != b && g[b].jf != b
    ensures var rows' := EdgeUpdate(g, EdgeUpdate(g, rows, b), b + |g|);
      var c := EdgeSource(g, f);
      if c == b then rows'[f] == rows[f] + {f}
      else
        var r1 := if g[b].jt == c then rows[f] * (rows[b] + {b}) else rows[f];
        rows'[f] == if g[b].jf == c then r1 * (rows[b + |g|] + {b + |g|}) else r1
  {
    WellFormedAt(g, b);
  }

  lemma EdgeStepRow(g: Graph, root: nat, cap: nat, rows: seq<set<nat>>, done: set<nat>, b: nat, f: nat)
    requires WellFormed(g) && |rows| == 2 * |g| && b < |g| && f < 2 * |g| && (root in done || root == b)
    requires rows[b] + {b} == EdgeDominators(g, root, cap, b)
    requires rows[b + |g|] + {b + |g|} == EdgeDominators(g, root, cap, b + |g|)
    requires g[b].jt !in done && g[b].jf !in done && g[b].jt != b && g[b].jf != b
    requires EdgeRow(g, root, cap, rows[f], done, f)
    ensures EdgeRow(g, root, cap, EdgeUpdate(g, EdgeUpdate(g, rows, b), b + |g|)[f], done + {b}, f)
  {
    EdgeUpdateRows(g, rows, b, f);
    hide EdgeUpdate, EdgeDominators, EdgeDominatesPredEdges;
    var row := EdgeUpdate(g, EdgeUpdate(g, rows, b), b + |g|)[f];
    var c := EdgeSource(g, f);
    if c == b {
      assert f == b || f == b + |g|;
      assert row == EdgeDominators(g, root, cap, f);
    } else if c in done {
      assert row == rows[f] == EdgeDominators(g, root, cap, f);
    } else {
      assert row == EdgeMeet(g, root, cap, rows[f], b, c);
      EdgeRowMeet(g, root, cap, rows[f], done, b, f);
    }
  }

  lemma EdgeStep(g: Graph, rank: seq<nat>, root: nat, cap: nat, rows: seq<set<nat>>, done: set<nat>, b: nat)
    requires Ranked(g, rank) && root < |g| && 2 * |g| <= cap && Next(g, Reach(g, rank, root), done, b)
    requires EdgeRows(g, root, cap, rows, done)
    ensures EdgeRows(g, root, cap, EdgeUpdate(g, EdgeUpdate(g, rows, b), b + |g|), done + {b})
  {
    hide EdgeUpdate, EdgeRow, EdgeDominators, Reach;
    NextIsRoot(g, rank, root, done, b);
    EdgeRowExact(g, rank, root, cap, rows[b], done, b);
    EdgeRowExact(g, rank, root, cap, rows[b + |g|], done, b + |g|);
    WellFormedAt(g, b);
    assert !g[b].s.Ret? ==> g[b].jt in Succs(g, b) && g[b].jf in Succs(g, b);
    var rows' := EdgeUpdate(g, EdgeUpdate(g, rows, b), b + |g|);
    forall f | 0 <= f < 2 * |g| ensures EdgeRow(g, root, cap, rows'[f], done + {b}, f) {
      EdgeStepRow(g, root, cap, rows, done, b, f);
    }
  }

  lemma EdgesExact(g: Graph, rank: seq<nat>, root: nat, cap: nat, rows: seq<set<nat>>)
    requires Ranked(g, rank) && root < |g| && EdgeRows(g, root, cap, rows, Reach(g, rank, root))
    ensures forall f :: 0 <= f < 2 * |g| ==> rows[f] == EdgeDominators(g, root, cap, f)
  {
    var live := Reach(g, rank, root);
    forall f | 0 <= f < 2 * |g| ensures rows[f] == EdgeDominators(g, root, cap, f) {
      assert EdgeRow(g, root, cap, rows[f], live, f);
      var c := EdgeSource(g, f);
      if c !in live {
        NoPreds(g, rank, root, c);
        assert forall h :: !PredEdge(g, live, h, c) by {
          if h :| PredEdge(g, live, h, c) { assert Pred(g, live, EdgeSource(g, h), c); }
        }
        forall e: nat ensures EdgeDominates(g, root, e, f) { UnreachableEdgeDominators(g, rank, root, e, f); }
      }
    }
  }

  // ---------------------------------------------------------------------------------------
  // The passes
  // ---------------------------------------------------------------------------------------

  lemma DomRowsStart(g: Graph, root: nat, cap: nat, rows: seq<set<nat>>, full: set<nat>)
    requires WellFormed(g) && |rows| == |g| && root < |g| && forall a: nat :: a in full <==> a < cap
    requires forall c :: 0 <= c < |g| ==> rows[c] == if c == root then {} else full
    ensures DomRows(g, root, cap, rows, {})
  {
  }

  lemma EdgeRowsStart(g: Graph, root: nat, cap: nat, rows: seq<set<nat>>, full: set<nat>)
    requires WellFormed(g) && |rows| == 2 * |g| && root < |g| && forall e: nat :: e in full <==> e < cap
    requires forall f :: 0 <= f < 2 * |g| ==> rows[f] == if f == root || f == root + |g| then {} else full
    ensures EdgeRows(g, root, cap, rows, {})
  {
    forall f | 0 <= f < 2 * |g| ensures EdgeRow(g, root, cap, rows[f], {}, f) {
      assert forall e: nat :: EdgeDominatesPredEdges(g, root, {}, e, EdgeSource(g, f));
    }
  }

  /** Adding a block whose successors are listed, at the head of its level's list. */
  lemma ListedAdd(g: Graph, level: seq<nat>, levels: seq<seq<nat>>, done: set<nat>, b: nat, l: nat)
    requires WellFormed(g) && Listed(g, level, levels, done) && b < |g| && b !in done && l < |g|
    requires if g[b].s.Ret? then l == 0
             else g[b].jt in done && g[b].jf in done && l == 1 + Max(level[g[b].jt], level[g[b].jf])
    ensures Listed(g, level[b := l], levels[l := [b] + levels[l]], done + {b})
  {
    var level', levels' := level[b := l], levels[l := [b] + levels[l]];
    forall c | c in done + {b} ensures c < |g| && level'[c] < |g| && c in levels'[level'[c]] {
      if c == b { assert levels'[l][0] == b; }
      else if level[c] == l {
        var i :| 0 <= i < |levels[l]| && levels[l][i] == c;
        assert levels'[l][i + 1] == c;
      }
    }
  }

  /** Nothing is listed, nothing is done. */
  lemma ListedNone(g: Graph, level: seq<nat>)
    requires WellFormed(g) && |level| == |g|
    ensures Listed(g, level, seq(|g|, i => []), {})
  {
  }

  /** Marked blocks that are not done are ancestors of p. */
  ghost predicate Visiting(g: Graph, rank: seq<nat>, marked: set<nat>, done: set<nat>, p: nat)
    requires |rank| == |g| && p < |g|
  {
    done <= marked && forall q :: q in marked && q < |g| && rank[q] <= rank[p] ==> q in done
  }

  lemma VisitEntry(g: Graph, rank: seq<nat>, marked: set<nat>, done: set<nat>, p: nat)
    requires Ranked(g, rank) && p < |g| && Finished(g, rank, done, p) && Visiting(g, rank, marked, done, p)
    ensures p in marked ==> done + Reach(g, rank, p) == done && marked + Reach(g, rank, p) == marked
    ensures p !in marked ==> p !in done
    ensures g[p].s.Ret? ==> Reach(g, rank, p) == {p}
  {
  }

  /** A depth-first visit of p may descend into one successor, and then into the other. */
  lemma VisitDescend(g: Graph, rank: seq<nat>, marked: set<nat>, done: set<nat>, p: nat)
    requires Ranked(g, rank) && p < |g| && !g[p].s.Ret? && p !in marked
    requires Finished(g, rank, done, p) && Visiting(g, rank, marked, done, p)
    ensures var t, f := Reach(g, rank, g[p].jt), Reach(g, rank, g[p].jf);
      && Finished(g, rank, done, g[p].jt) && Finished(g, rank, done + t, g[p].jf)
      && Visiting(g, rank, marked + {p}, done, g[p].jt)
      && Visiting(g, rank, marked + {p} + t, done + t, g[p].jf)
      && marked + {p} + t + f == marked + Reach(g, rank, p)
      && done + t + f + {p} == done + Reach(g, rank, p)
      && p !in done + t + f && g[p].jt in done + t + f && g[p].jf in done + t + f
  {
    var s := done + Reach(g, rank, g[p].jt);
    forall q | q in s && q < |g| && rank[q] <= rank[g[p].jf] ensures Reach(g, rank, q) <= s {
      if q in Reach(g, rank, g[p].jt) { ReachTransitive(g, rank, g[p].jt, q); }
    }
  }

  lemma ListedIn(g: Graph, level: seq<nat>, levels: seq<seq<nat>>, done: set<nat>, a: nat, b: nat)
    requires WellFormed(g) && Listed(g, level, levels, done) && a in done && b in done
    ensures a < |level| && b < |level|
  {
  }

  class FlowState {
    const g: Graph
    const root: nat
    ghost const rank: seq<nat>
    var marks: Marks
    var level: seq<nat>
    var levels: seq<seq<nat>>
    const dom: BitSets.Family
    const closure: BitSets.Family
    const edom: BitSets.Family

    ghost predicate Valid()
      reads this
    {
      && Ranked(g, rank) && root < |g| && marks.Valid(|g|) && |level| == |g| == |levels|
      && dom.words.Length0 == |g| <= dom.Capacity()
      && closure.words.Length0 == |g| <= closure.Capacity()
      && edom.words.Length0 == 2 * |g| <= edom.Capacity()
    }

    /** Sets one bit per block or edge aside, rounded up to words. */
    constructor (graph: Graph, start: nat, ghost order: seq<nat>)
      requires Ranked(graph, order) && start < |graph|
      ensures Valid() && g == graph && root == start && rank == order
      ensures fresh(dom.words) && fresh(closure.words) && fresh(edom.words)
    {
      g, root, rank := graph, start, order;
      marks := Marks(seq(|graph|, i => 0), 0);
      level := seq(|graph|, i => 0);
      levels := seq(|graph|, i => []);
      dom := new BitSets.Family(|graph|, |graph| / 32 + 1);
      closure := new BitSets.Family(|graph|, |graph| / 32 + 1);
      edom := new BitSets.Family(2 * |graph|, 2 * |graph| / 32 + 1);
    }

    /** Levels what p reaches. done holds the blocks already leveled. */
    method FindLevelsR(p: nat, ghost done: set<nat>)
      requires Valid() && p < |g| && Listed(g, level, levels, done)
      requires Finished(g, rank, done, p) && Visiting(g, rank, marks.Set(), done, p)
      modifies this`marks, this`level, this`levels
      ensures Valid() && marks.Set() == old(marks).Set() + Reach(g, rank, p)
      ensures Listed(g, level, levels, done + Reach(g, rank, p))
      decreases rank[p]
    {
      RankedAt(g, rank, p);
      VisitEntry(g, rank, marks.Set(), done, p);
      hide Reach, Ranked, Finished, Listed, Visiting, WellFormed;
      if marks.Has(p) { return; }
      ghost var before := marks.Set();
      marks := marks.Add(p);
      if g[p].s.Ret? {
        Enlist(p, 0, done);
      } else {
        VisitDescend(g, rank, before, done, p);
        FindLevelsR(g[p].jt, done);
        ghost var mid := done + Reach(g, rank, g[p].jt);
        FindLevelsR(g[p].jf, mid);
        ListedIn(g, level, levels, mid + Reach(g, rank, g[p].jf), g[p].jt, g[p].jf);
        Enlist(p, Max(level[g[p].jt], level[g[p].jf]) + 1, mid + Reach(g, rank, g[p].jf));
      }
    }

    /** Gives p its level and puts it at the head of that level's list. */
    method Enlist(p: nat, l: nat, ghost done: set<nat>)
      requires Valid() && p < |g| && p !in done && Listed(g, level, levels, done)
      requires if g[p].s.Ret? then l == 0
               else g[p].jt in done && g[p].jf in done && l == 1 + Max(level[g[p].jt], level[g[p].jf])
      modifies this`level, this`levels
      ensures Valid() && Listed(g, level, levels, done + {p})
    {
      NewLevel(g, rank, level, levels, done, p, l);
      hide Listed, Ranked;
      level := level[p := l];
      levels := levels[l := [p] + levels[l]];
    }

    /** Levels the graph: levels[l] lists the reachable blocks of level l. */
    method FindLevels()
      requires Valid()
      modifies this`marks, this`level, this`levels
      ensures Valid() && Listed(g, level, levels, Reach(g, rank, root))
    {
      levels := seq(|g|, i => []);
      ListedNone(g, level);
      marks := marks.UnmarkAll();
      FindLevelsR(root, {});
      assert {} + Reach(g, rank, root) == Reach(g, rank, root);
    }

    /** All rows full, but the root's empty. */
    method ResetDom()
      requires Valid()
      modifies dom.words
      ensures DomRows(g, root, dom.Capacity(), dom.Rows(), {})
    {
      dom.Reset(true, {root});
      DomRowsStart(g, root, dom.Capacity(), dom.Rows(), dom.Full());
    }

    /** Processes block b in the dominator sweep. */
    method PropagateDom(b: nat, ghost done: set<nat>)
      requires Valid() && Next(g, Reach(g, rank, root), done, b)
      requires DomRows(g, root, dom.Capacity(), dom.Rows(), done)
      modifies dom.words
      ensures DomRows(g, root, dom.Capacity(), dom.Rows(), done + {b})
    {
      DomStep(g, rank, root, dom.Capacity(), dom.Rows(), done, b);
      RankedAt(g, rank, b);
      hide DomRows, Reach, Ranked;
      dom.Insert(b, b);
      if g[b].jt != NIL {
        dom.Intersect(g[b].jt, b);
        dom.Intersect(g[b].jf, b);
      }
    }

    /** Processes level l of the dominator sweep. */
    method DomLevel(l: nat)
      requires Valid() && Listed(g, level, levels, Reach(g, rank, root)) && l < |g|
      requires DomRows(g, root, dom.Capacity(), dom.Rows(), Swept(g, level, levels, Reach(g, rank, root), l, 0))
      modifies dom.words
      ensures DomRows(g, root, dom.Capacity(), dom.Rows(), Swept(g, level, levels, Reach(g, rank, root), l - 1, 0))
    {
      hide DomRows, Reach, Listed, Swept, WellFormed;
      for k := 0 to |levels[l]|
        invariant DomRows(g, root, dom.Capacity(), dom.Rows(), Swept(g, level, levels, Reach(g, rank, root), l, k))
      {
        SweptNext(g, level, levels, Reach(g, rank, root), l, k);
        PropagateDom(levels[l][k], Swept(g, level, levels, Reach(g, rank, root), l, k));
      }
      SweptLevel(g, level, levels, Reach(g, rank, root), l);
    }

    /** On return, row c holds exactly the blocks that lie on every path from the root to c. */
    method FindDom()
      requires Valid() && Listed(g, level, levels, Reach(g, rank, root))
      modifies dom.words
      ensures forall c, a :: 0 <= c < |g| && 0 <= a < dom.Capacity() ==>
                (a in dom.Rows()[c] <==> Dominates(g, root, a, c))
    {
      hide DomRows, Reach, Listed, Swept, Dominates;
      ResetDom();
      SweptStart(g, rank, level, levels, root);
      var l: int := level[root];
      while l >= 0
        invariant -1 <= l < |g|
        invariant DomRows(g, root, dom.Capacity(), dom.Rows(), Swept(g, level, levels, Reach(g, rank, root), l, 0))
      {
        DomLevel(l);
        l := l - 1;
      }
      DomExact(g, rank, root, dom.Capacity(), dom.Rows());
    }

    /** Processes block b in the closure sweep. */
    method PropagateClosure(b: nat, ghost done: set<nat>)
      requires Valid() && Next(g, Reach(g, rank, root), done, b)
      requires ClosureRows(g, rank, root, closure.Rows(), done)
      modifies closure.words
      ensures ClosureRows(g, rank, root, closure.Rows(), done + {b})
    {
      ClosureStep(g, rank, root, closure.Rows(), done, b);
      RankedAt(g, rank, b);
      hide ClosureRows, Reach, Ranked;
      closure.Insert(b, b);
      if g[b].jt != NIL {
        closure.Union(g[b].jt, b);
        closure.Union(g[b].jf, b);
      }
    }

    /** Processes level l of the closure sweep. */
    method ClosureLevel(l: nat)
      requires Valid() && Listed(g, level, levels, Reach(g, rank, root)) && l < |g|
      requires ClosureRows(g, rank, root, closure.Rows(), Swept(g, level, levels, Reach(g, rank, root), l, 0))
      modifies closure.words
      ensures ClosureRows(g, rank, root, closure.Rows(), Swept(g, level, levels, Reach(g, rank, root), l - 1, 0))
    {
      hide ClosureRows, Reach, Listed, Swept, WellFormed;
      for k := 0 to |levels[l]|
        invariant ClosureRows(g, rank, root, closure.Rows(), Swept(g, level, levels, Reach(g, rank, root), l, k))
      {
        SweptNext(g, level, levels, Reach(g, rank, root), l, k);
        PropagateClosure(levels[l][k], Swept(g, level, levels, Reach(g, rank, root), l, k));
      }
      SweptLevel(g, level, levels, Reach(g, rank, root), l);
    }

    /** On return, row c holds exactly the reachable blocks that reach c. */
    method FindClosure()
      requires Valid() && Listed(g, level, levels, Reach(g, rank, root))
      modifies closure.words
      ensures forall c, b :: 0 <= c < |g| ==>
                (b in closure.Rows()[c] <==> b in Reach(g, rank, root) && c in Reach(g, rank, b))
    {
      closure.Reset(false, {});
      assert ClosureRows(g, rank, root, closure.Rows(), {});
      SweptStart(g, rank, level, levels, root);
      hide ClosureRows, Reach, Listed, Swept;
      var l: int := level[root];
      while l >= 0
        invariant -1 <= l < |g|
        invariant ClosureRows(g, rank, root, closure.Rows(), Swept(g, level, levels, Reach(g, rank, root), l, 0))
      {
        ClosureLevel(l);
        l := l - 1;
      }
      ClosureExact(g, rank, root, closure.Rows());
    }

    /** All rows full, but those of the root's edges empty. */
    method ResetEdom()
      requires Valid()
      modifies edom.words
      ensures EdgeRows(g, root, edom.Capacity(), edom.Rows(), {})
    {
      edom.Reset(true, {root, root + |g|});
      EdgeRowsStart(g, root, edom.Capacity(), edom.Rows(), edom.Full());
    }

    /** Propagates edge e: it dominates itself, and its dominators bound those of the edges out
        of its target. */
    method Propedom(e: nat)
      requires Valid() && e < 2 * |g|
      modifies edom.words
      ensures edom.Rows() == EdgeUpdate(g, old(edom.Rows()), e)
    {
      RankedAt(g, rank, EdgeSource(g, e));
      hide WellFormed;
      edom.Insert(e, e);
      var c := EdgeTarget(g, e);
      if c != NIL {
        edom.Intersect(c, e);
        edom.Intersect(c + |g|, e);
      }
    }

    /** Processes level l of the edge sweep. */
    method EdomLevel(l: nat)
      requires Valid() && Listed(g, level, levels, Reach(g, rank, root)) && l < |g|
      requires EdgeRows(g, root, edom.Capacity(), edom.Rows(), Swept(g, level, levels, Reach(g, rank, root), l, 0))
      modifies edom.words
      ensures EdgeRows(g, root, edom.Capacity(), edom.Rows(), Swept(g, level, levels, Reach(g, rank, root), l - 1, 0))
    {
      hide EdgeRows, EdgeUpdate, Reach, Listed, Swept, WellFormed;
      for k := 0 to |levels[l]|
        invariant EdgeRows(g, root, edom.Capacity(), edom.Rows(), Swept(g, level, levels, Reach(g, rank, root), l, k))
      {
        ghost var done := Swept(g, level, levels, Reach(g, rank, root), l, k);
        var b := levels[l][k];
        SweptNext(g, level, levels, Reach(g, rank, root), l, k);
        EdgeStep(g, rank, root, edom.Capacity(), edom.Rows(), done, b);
        Propedom(b);
        Propedom(b + |g|);
      }
      SweptLevel(g, level, levels, Reach(g, rank, root), l);
    }

    /** On return, row f holds exactly the edges that lie on every path of edges that starts at
        the root and ends with f. */
    method FindEdom()
      requires Valid() && Listed(g, level, levels, Reach(g, rank, root))
      modifies edom.words
      ensures forall f, e :: 0 <= f < 2 * |g| && 0 <= e < edom.Capacity() ==>
                (e in edom.Rows()[f] <==> EdgeDominates(g, root, e, f))
    {
      hide EdgeRows, Reach, Listed, Swept, EdgeDominates;
      ResetEdom();
      SweptStart(g, rank, level, levels, root);
      var l: int := level[root];
      while l >= 0
        invariant -1 <= l < |g|
        invariant EdgeRows(g, root, edom.Capacity(), edom.Rows(), Swept(g, level, levels, Reach(g, rank, root), l, 0))
      {
        EdomLevel(l);
        l := l - 1;
      }
      EdgesExact(g, rank, root, edom.Capacity(), edom.Rows());
    }

    /** Links the two edges of b to their targets' lists. */
    method LinkInedges(inEdges: seq<seq<nat>>, b: nat, ghost done: set<nat>) returns (inEdges': seq<seq<nat>>)
      requires Valid() && b < |g| && g[b].s.Jmp? && InEdges(g, inEdges, done) && b !in done
      ensures InEdges(g, inEdges', done + {b})
    {
      RankedAt(g, rank, b);
      var mid := inEdges[g[b].jt := [b] + inEdges[g[b].jt]];
      inEdges' := mid[g[b].jf := [b + |g|] + mid[g[b].jf]];
      InEdgesStep(g, inEdges, inEdges', done, b);
    }

    /** For every block, lists exactly the edges from reachable blocks that lead to it. */
    method FindInedges() returns (inEdges: seq<seq<nat>>)
      requires Valid() && Listed(g, level, levels, Reach(g, rank, root))
      ensures InEdges(g, inEdges, Reach(g, rank, root))
    {
      inEdges := seq(|g|, i => []);
      SweptStart(g, rank, level, levels, root);
      ghost var live := Reach(g, rank, root);
      assert InEdges(g, inEdges, {});
      hide InEdges, Listed, Swept, Reach;
      var l: nat := level[root];
      while l > 0
        invariant 0 <= l < |g|
        invariant InEdges(g, inEdges, Swept(g, level, levels, live, l, 0))
      {
        for k := 0 to |levels[l]|
          invariant InEdges(g, inEdges, Swept(g, level, levels, live, l, k))
        {
          SweptNext(g, level, levels, live, l, k);
          NotLeaf(g, level, levels, live, l, k);
          inEdges := LinkInedges(inEdges, levels[l][k], Swept(g, level, levels, live, l, k));
        }
        SweptLevel(g, level, levels, live, l);
        l := l - 1;
      }
      InEdgesLeaves(g, rank, root, level, levels, inEdges);
    }
  }

  /** Each block's list holds exactly the edges out of done that lead to it, once each. */
  ghost predicate InEdges(g: Graph, inEdges: seq<seq<nat>>, done: set<nat>)
    requires WellFormed(g)
  {
    && |inEdges| == |g|
    && (forall c, e :: 0 <= c < |g| ==> (e in inEdges[c] <==> PredEdge(g, done, e, c)))
    && (forall c, i, j :: 0 <= c < |g| && 0 <= i < j < |inEdges[c]| ==> inEdges[c][i] != inEdges[c][j])
  }

  lemma InEdgesStep(g: Graph, inEdges: seq<seq<nat>>, inEdges': seq<seq<nat>>, done: set<nat>, b: nat)
    requires WellFormed(g) && InEdges(g, inEdges, done) && b < |g| && b !in done && g[b].s.Jmp?
    requires var mid := inEdges[g[b].jt := [b] + inEdges[g[b].jt]];
      inEdges' == mid[g[b].jf := [b + |g|] + mid[g[b].jf]]
    ensures InEdges(g, inEdges', done + {b})
  {
    forall c, e | 0 <= c < |g| ensures e in inEdges'[c] <==> PredEdge(g, done + {b}, e, c) {
      assert e in inEdges'[c] <==> e in inEdges[c] || (e == b && c == g[b].jt) || (e == b + |g| && c == g[b].jf);
      assert e in inEdges[c] <==> PredEdge(g, done, e, c);
    }
    assert !PredEdge(g, done, b, g[b].jt) && !PredEdge(g, done, b + |g|, g[b].jf);
    assert b !in inEdges[g[b].jt] && b + |g| !in inEdges[g[b].jf];
  }

  lemma NotLeaf(g: Graph, level: seq<nat>, levels: seq<seq<nat>>, live: set<nat>, l: nat, k: nat)
    requires WellFormed(g) && Listed(g, level, levels, live) && 0 < l < |levels| && k < |levels[l]|
    ensures levels[l][k] < |g| && g[levels[l][k]].s.Jmp?
  {
    assert levels[l][k] in live;
  }

  /** Leaves have no edges to link. */
  lemma InEdgesLeaves(g: Graph, rank: seq<nat>, root: nat, level: seq<nat>, levels: seq<seq<nat>>, inEdges: seq<seq<nat>>)
    requires Ranked(g, rank) && root < |g| && Listed(g, level, levels, Reach(g, rank, root))
    requires InEdges(g, inEdges, Swept(g, level, levels, Reach(g, rank, root), 0, 0))
    ensures InEdges(g, inEdges, Reach(g, rank, root))
  {
    var live := Reach(g, rank, root);
    var swept := Swept(g, level, levels, live, 0, 0);
    forall c, e | 0 <= c < |g| ensures PredEdge(g, swept, e, c) <==> PredEdge(g, live, e, c) {
      if PredEdge(g, live, e, c) {
        var b := EdgeSource(g, e);
        assert !g[b].s.Ret?;
      }
    }
  }

  /** The level found for a block is in range, and listing it keeps the lists right. */
  lemma NewLevel(g: Graph, rank: seq<nat>, level: seq<nat>, levels: seq<seq<nat>>, done: set<nat>, p: nat, l: nat)
    requires Ranked(g, rank) && Listed(g, level, levels, done) && p < |g| && p !in done
    requires if g[p].s.Ret? then l == 0
             else g[p].jt in done && g[p].jf in done && l == 1 + Max(level[g[p].jt], level[g[p].jf])
    ensures l < |g| && Listed(g, level[p := l], levels[l := [p] + levels[l]], done + {p})
  {
    if !g[p].s.Ret? {
      var c := if level[g[p].jt] > level[g[p].jf] then g[p].jt else g[p].jf;
      LevelBound(g, rank, level, levels, done, c);
      var r := Reach(g, rank, c) + {p};
      assert p !in Reach(g, rank, c);
      RangeSize(r, |g|);
    }
    ListedAdd(g, level, levels, done, p, l);
  }
}
