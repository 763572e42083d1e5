/**
 The acyclic graph of basic blocks, its meaning, and paths through it.

 Blocks live in one sequence and refer to each other by index; NIL is the null pointer.
 */
module Flow {
  import opened Machine

  const NIL: int := -1

  datatype Block = Block(stmts: seq<Stmt>, s: Branch, jt: int, jf: int)

  type Graph = seq<Block>

  /** A leaf returns and has no successors; every other block has two. */
  predicate WellFormed(g: Graph) {
    forall b :: 0 <= b < |g| ==>
      if g[b].s.Ret? then g[b].jt == NIL && g[b].jf == NIL
      else 0 <= g[b].jt < |g| && 0 <= g[b].jf < |g|
  }

  lemma WellFormedAt(g: Graph, b: nat)
    requires WellFormed(g) && b < |g|
    ensures g[b].s.Ret? ==> g[b].jt == NIL && g[b].jf == NIL
    ensures g[b].s.Jmp? ==> 0 <= g[b].jt < |g| && 0 <= g[b].jf < |g|
  {
  }

  /** A witness that the graph has no cycle: ranks strictly decrease along edges. */
  ghost predicate Ranked(g: Graph, rank: seq<nat>) {
    && WellFormed(g)
    && |rank| == |g|
    && forall b :: 0 <= b < |g| && !g[b].s.Ret? ==> rank[g[b].jt] < rank[b] && rank[g[b].jf] < rank[b]
  }

  function Max(a: nat, b: nat): nat {
    if a > b then a else b
  }

  /** The level of a block: the length of the longest path from it to a leaf. */
  ghost predicate Leveled(g: Graph, level: seq<nat>) {
    && WellFormed(g)
    && |level| == |g|
    && forall b :: 0 <= b < |g| ==>
         level[b] == if g[b].s.Ret? then 0 else 1 + Max(level[g[b].jt], level[g[b].jf])
  }

  lemma LeveledIsRanked(g: Graph, level: seq<nat>)
    requires Leveled(g, level)
    ensures Ranked(g, level)
  {
  }

  lemma RankedShape(g: Graph, rank: seq<nat>)
    requires Ranked(g, rank)
    ensures WellFormed(g) && |rank| == |g|
  {
  }

  lemma RankedAt(g: Graph, rank: seq<nat>, b: nat)
    requires Ranked(g, rank) && b < |g|
    ensures |rank| == |g| && 0 <= rank[b]
    ensures g[b].s.Ret? ==> g[b].jt == NIL && g[b].jf == NIL
    ensures g[b].s.Jmp? ==> 0 <= g[b].jt < |g| && 0 <= g[b].jf < |g|
    ensures g[b].s.Jmp? ==> rank[g[b].jt] < rank[b] && rank[g[b].jf] < rank[b]
  {
  }

  /** The successor a block chooses when its statements leave the state r. */
  function Choose(blk: Block, r: Regs): int
    requires blk.s.Jmp?
  {
    if Taken(blk.s, r) then blk.jt else blk.jf
  }

  /** The value the filter returns when control enters block b in state r. */
  ghost function Walk(g: Graph, rank: seq<nat>, b: nat, p: Packet, r: Regs): Word
    requires Ranked(g, rank) && b < |g|
    decreases rank[b]
  {
    if g[b].s.Ret? then g[b].s.k
    else
      var r' := RunAll(g[b].stmts, p, r);
      Walk(g, rank, Choose(g[b], r'), p, r')
  }

  /** The meaning of a graph does not depend on the witness of its acyclicity. */
  lemma {:induction false} WalkAnyRank(g: Graph, rank: seq<nat>, rank': seq<nat>, b: nat, p: Packet, r: Regs)
    requires Ranked(g, rank) && Ranked(g, rank') && b < |g|
    ensures Walk(g, rank, b, p, r) == Walk(g, rank', b, p, r)
    decreases rank[b]
  {
    if !g[b].s.Ret? {
      var r' := RunAll(g[b].stmts, p, r);
      WalkAnyRank(g, rank, rank', Choose(g[b], r'), p, r');
    }
  }

  /** The blocks control can reach from b. */
  ghost function Reach(g: Graph, rank: seq<nat>, b: nat): (s: set<nat>)
    requires Ranked(g, rank) && b < |g|
    ensures b in s
    ensures forall c :: c in s ==> c < |g| && (c == b || rank[c] < rank[b])
    decreases rank[b]
  {
    if g[b].s.Ret? then {b}
    else {b} + Reach(g, rank, g[b].jt) + Reach(g, rank, g[b].jf)
  }

  lemma {:induction false} ReachTransitive(g: Graph, rank: seq<nat>, b: nat, c: nat)
    requires Ranked(g, rank) && b < |g| && c in Reach(g, rank, b)
    ensures Reach(g, rank, c) <= Reach(g, rank, b)
    decreases rank[b]
  {
    if c != b {
      if c in Reach(g, rank, g[b].jt) { ReachTransitive(g, rank, g[b].jt, c); }
      else { ReachTransitive(g, rank, g[b].jf, c); }
    }
  }

  /** Every visited block ranked at or below b is finished: what it reaches is visited. */
  ghost predicate Finished(g: Graph, rank: seq<nat>, visited: set<nat>, b: nat)
    requires Ranked(g, rank) && b < |g|
  {
    forall q :: q in visited && q < |g| && rank[q] <= rank[b] ==> Reach(g, rank, q) <= visited
  }

  lemma FinishedAt(g: Graph, rank: seq<nat>, visited: set<nat>, b: nat)
    requires Ranked(g, rank) && b < |g| && Finished(g, rank, visited, b)
    ensures b in visited ==> visited + Reach(g, rank, b) == visited
    ensures g[b].s.Ret? ==> Reach(g, rank, b) == {b}
  {
  }

  lemma FinishedNone(g: Graph, rank: seq<nat>, b: nat)
    requires Ranked(g, rank) && b < |g|
    ensures Finished(g, rank, {}, b)
  {
  }

  /** A depth-first visit of b may descend into one successor, and then into the other. */
  lemma FinishedDescend(g: Graph, rank: seq<nat>, visited: set<nat>, b: nat)
    requires Ranked(g, rank) && b < |g| && !g[b].s.Ret? && Finished(g, rank, visited, b)
    ensures Finished(g, rank, visited + {b}, g[b].jt)
    ensures Finished(g, rank, visited + {b}, g[b].jf)
    ensures Finished(g, rank, visited + {b} + Reach(g, rank, g[b].jt), g[b].jf)
    ensures Reach(g, rank, b) == {b} + Reach(g, rank, g[b].jt) + Reach(g, rank, g[b].jf)
  {
    var s := visited + {b} + Reach(g, rank, g[b].jt);
    forall q | q in s && q < |g| && rank[q] <= rank[g[b].jf] ensures Reach(g, rank, q) <= s {
      if q in Reach(g, rank, g[b].jt) { ReachTransitive(g, rank, g[b].jt, q); }
    }
  }

  /** Successors of a block as a set. */
  function Succs(g: Graph, b: nat): (s: set<nat>)
    requires WellFormed(g) && b < |g|
    ensures forall c :: c in s ==> c < |g|
  {
    if g[b].s.Ret? then {} else {g[b].jt as nat, g[b].jf as nat}
  }

  /** A path: nonempty, and each block a successor of the one before. */
  ghost predicate IsPath(g: Graph, path: seq<nat>)
    requires WellFormed(g)
  {
    && |path| > 0
    && (forall i :: 0 <= i < |path| ==> path[i] < |g|)
    && (forall i :: 0 < i < |path| ==> path[i] in Succs(g, path[i - 1]))
  }

  ghost predicate PathFromTo(g: Graph, path: seq<nat>, b: nat, c: nat)
    requires WellFormed(g)
  {
    IsPath(g, path) && path[0] == b && path[|path| - 1] == c
  }

  // ---------------------------------------------------------------------------------------
  // Marks
  // ---------------------------------------------------------------------------------------

  /** The visit marks: a block is marked when its mark equals the current mark, so that
      incrementing the current mark unmarks every block. */
  datatype Marks = Marks(mark: seq<int>, cur: int) {

    ghost predicate Valid(n: nat) {
      |mark| == n && forall b :: 0 <= b < n ==> mark[b] <= cur
    }

    /** The marked blocks. */
    ghost function Set(): set<nat> {
      set b: nat | b < |mark| && mark[b] == cur
    }

    predicate Has(b: nat)
      requires b < |mark|
    {
      mark[b] == cur
    }

    function Add(b: nat): (m: Marks)
      requires Valid(|mark|) && b < |mark|
      ensures m.Valid(|mark|) && m.Set() == Set() + {b} && m.cur == cur
    {
      Marks(mark[b := cur], cur)
    }

    function UnmarkAll(): (m: Marks)
      requires Valid(|mark|)
      ensures m.Valid(|mark|) && m.Set() == {}
    {
      Marks(mark, cur + 1)
    }
  }

  // ---------------------------------------------------------------------------------------
  // Sums over sets of blocks
  // ---------------------------------------------------------------------------------------

  /** The sum of the weights of the elements of s below n. */
  ghost function SumIn(weight: seq<nat>, s: set<nat>, n: nat): nat
    requires n <= |weight|
  {
    if n == 0 then 0 else SumIn(weight, s, n - 1) + (if n - 1 in s then weight[n - 1] else 0)
  }

  lemma {:induction false} SumInAdd(weight: seq<nat>, s: set<nat>, b: nat, n: nat)
    requires n <= |weight| && b < |weight| && b !in s
    ensures SumIn(weight, s + {b}, n) == SumIn(weight, s, n) + (if b < n then weight[b] else 0)
  {
    if n > 0 { SumInAdd(weight, s, b, n - 1); }
  }

  lemma {:induction false} SumInEmpty(weight: seq<nat>, n: nat)
    requires n <= |weight|
    ensures SumIn(weight, {}, n) == 0
  {
    if n > 0 { SumInEmpty(weight, n - 1); }
  }

  /** The sum of the first n weights. */
  ghost function Total(weight: seq<nat>, n: nat): nat
    requires n <= |weight|
  {
    if n == 0 then 0 else Total(weight, n - 1) + weight[n - 1]
  }
}
