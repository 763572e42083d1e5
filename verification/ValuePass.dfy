/**
 Value numbering over the whole graph, from the root down, and the finishing of each block.
 */
module ValuePass {
  import opened Machine
  import opened Flow
  import opened Liveness
  import opened Rewrite
  import opened Values
  import opened StmtPass
  import opened BlockPass
  import opened Trails
  import Dominance
  import Analysis
  import Peephole

  // ---------------------------------------------------------------------------------------
  // Merging the numbers of the predecessors
  // ---------------------------------------------------------------------------------------

  /** All edges lead from blocks of the graph. */
  ghost predicate InRange(g: Graph, edges: seq<nat>) {
    forall i :: 0 <= i < |edges| ==> edges[i] < 2 * |g|
  }

  /** The first n edges come from blocks with the same number for a. */
  ghost predicate AllAgree(g: Graph, vals: seq<Vals>, edges: seq<nat>, n: nat, a: nat)
    requires |vals| == |g| && n <= |edges| && a < N_ATOMS && InRange(g, edges)
  {
    forall i :: 0 <= i < n ==>
      vals[Dominance.EdgeSource(g, edges[i])][a] == vals[Dominance.EdgeSource(g, edges[0])][a]
  }

  /** The numbers on entry to a block: what all the blocks its in-edges come from agree on. */
  ghost function EntryVals(g: Graph, vals: seq<Vals>, edges: seq<nat>): Vals
    requires |vals| == |g| && InRange(g, edges)
  {
    seq(N_ATOMS, (a: nat) requires a < N_ATOMS =>
      if edges != [] && AllAgree(g, vals, edges, |edges|, a) then vals[Dominance.EdgeSource(g, edges[0])][a] else VAL_UNKNOWN)
  }

  /** Keeps what all predecessors agree on. */
  method MergeVals(g: Graph, vals: seq<Vals>, edges: seq<nat>) returns (val: Vals)
    requires |vals| == |g| && InRange(g, edges)
    ensures val == EntryVals(g, vals, edges)
  {
    if edges == [] { return seq(N_ATOMS, i => VAL_UNKNOWN); }
    var first := vals[Dominance.EdgeSource(g, edges[0])];
    val := first;
    for i := 1 to |edges|
      invariant forall a :: 0 <= a < N_ATOMS ==> val[a] == if AllAgree(g, vals, edges, i, a) then first[a] else VAL_UNKNOWN
    {
      var other := vals[Dominance.EdgeSource(g, edges[i])];
      val := seq(N_ATOMS, (a: nat) requires a < N_ATOMS => if val[a] != other[a] then VAL_UNKNOWN else val[a]);
    }
  }

  /** Numbers of other blocks do not matter. */
  lemma EntryElsewhere(g: Graph, vals: seq<Vals>, edges: seq<nat>, b: nat, val: Vals)
    requires |vals| == |g| && InRange(g, edges) && b < |g|
    requires forall i :: 0 <= i < |edges| ==> Dominance.EdgeSource(g, edges[i]) != b
    ensures EntryVals(g, vals[b := val], edges) == EntryVals(g, vals, edges)
  {
    forall a | 0 <= a < N_ATOMS ensures AllAgree(g, vals[b := val], edges, |edges|, a) == AllAgree(g, vals, edges, |edges|, a) {
    }
  }

  lemma EntryInTable(g: Graph, vals: seq<Vals>, edges: seq<nat>, t: seq<Expr>)
    requires |vals| == |g| && InRange(g, edges)
    requires forall i :: 0 <= i < |edges| ==> InTable(t, vals[Dominance.EdgeSource(g, edges[i])])
    ensures InTable(t, EntryVals(g, vals, edges))
  {
  }

  lemma RootHasNoPreds(g: Graph, rank: seq<nat>, root: nat, e: nat)
    requires Ranked(g, rank) && root < |g|
    ensures !Dominance.PredEdge(g, Reach(g, rank, root), e, root)
  {
    if Dominance.PredEdge(g, Reach(g, rank, root), e, root) {
      RankedAt(g, rank, Dominance.EdgeSource(g, e));
      assert false;
    }
  }

  /** A predecessor is the source of a listed edge. */
  lemma PredListed(g: Graph, inEdges: seq<seq<nat>>, live: set<nat>, q: nat, b: nat)
    requires WellFormed(g) && b < |g| && Analysis.InEdges(g, inEdges, live) && Dominance.Pred(g, live, q, b)
    ensures exists i :: 0 <= i < |inEdges[b]| && inEdges[b][i] < 2 * |g| && Dominance.EdgeSource(g, inEdges[b][i]) == q
  {
    var e := if g[q].jt == b then q else q + |g|;
    assert Dominance.PredEdge(g, live, e, b);
    var i :| 0 <= i < |inEdges[b]| && inEdges[b][i] == e;
  }

  lemma EdgesInRange(g: Graph, inEdges: seq<seq<nat>>, live: set<nat>, b: nat)
    requires WellFormed(g) && b < |g| && Analysis.InEdges(g, inEdges, live)
    ensures b < |inEdges| && InRange(g, inEdges[b])
    ensures forall i :: 0 <= i < |inEdges[b]| ==> Dominance.Pred(g, live, Dominance.EdgeSource(g, inEdges[b][i]), b)
  {
    forall i | 0 <= i < |inEdges[b]|
      ensures inEdges[b][i] < 2 * |g| && Dominance.Pred(g, live, Dominance.EdgeSource(g, inEdges[b][i]), b)
    {
      assert inEdges[b][i] in inEdges[b];
      WellFormedAt(g, Dominance.EdgeSource(g, inEdges[b][i]));
    }
  }

  /** What is known on entry to a block is what every predecessor has. */
  lemma EntryAgrees(g: Graph, vals: seq<Vals>, inEdges: seq<seq<nat>>, live: set<nat>, q: nat, b: nat, a: nat)
    requires WellFormed(g) && b < |g| == |vals| && Analysis.InEdges(g, inEdges, live) && Dominance.Pred(g, live, q, b)
    requires InRange(g, inEdges[b]) && a < N_ATOMS && EntryVals(g, vals, inEdges[b])[a] != VAL_UNKNOWN
    ensures EntryVals(g, vals, inEdges[b])[a] == vals[q][a]
  {
    PredListed(g, inEdges, live, q, b);
  }

  // ---------------------------------------------------------------------------------------
  // The pass
  // ---------------------------------------------------------------------------------------

  /** The lists of in-edges are complete, and so have as many entries as there are blocks. */
  ghost predicate Entered(g: Graph, rank: seq<nat>, root: nat, inEdges: seq<seq<nat>>) {
    && Ranked(g, rank) && root < |g| && Analysis.InEdges(g, inEdges, Reach(g, rank, root))
    && |inEdges| == |g| && forall c :: 0 <= c < |g| ==> InRange(g, inEdges[c])
  }

  lemma EnteredBy(g: Graph, rank: seq<nat>, root: nat, inEdges: seq<seq<nat>>)
    requires Ranked(g, rank) && root < |g| && Analysis.InEdges(g, inEdges, Reach(g, rank, root))
    ensures Entered(g, rank, root, inEdges)
  {
    forall c | 0 <= c < |g| ensures InRange(g, inEdges[c]) { EdgesInRange(g, inEdges, Reach(g, rank, root), c); }
  }

  /** Block c has been treated: g1 holds it numbered, gm with its branch and statements rewritten, and g' finished. */
  ghost predicate Treated(g: Graph, inEdges: seq<seq<nat>>, outUse: seq<set<nat>>, alter: bool, t: seq<Expr>, g1: Graph, gm: Graph, g': Graph,
                          vals: seq<Vals>, oval: seq<nat>, c: nat)
    requires c < |g| == |inEdges| == |outUse| == |g1| == |gm| == |g'| == |vals| == |oval| && InRange(g, inEdges[c])
  {
    && BlockDone(t, g[c], EntryVals(g, vals, inEdges[c]), outUse[c], alter, t, g1[c], gm[c], g'[c], vals[c])
    && OperandNumber(t, g'[c].s, vals[c], oval[c])
  }

  /** Predecessors of processed blocks are processed. */
  ghost predicate UpClosed(g: Graph, live: set<nat>, done: set<nat>)
    requires WellFormed(g)
  {
    forall q, c :: c in done && Dominance.Pred(g, live, q, c) ==> q in done
  }

  /** What the pass has established when it has processed the blocks of done. */
  ghost predicate PassInv(g: Graph, rank: seq<nat>, root: nat, inEdges: seq<seq<nat>>, outUse: seq<set<nat>>, alter: bool, t: seq<Expr>,
                          g1: Graph, gm: Graph, g': Graph, vals: seq<Vals>, oval: seq<nat>, done: set<nat>)
    requires Entered(g, rank, root, inEdges)
  {
    && |outUse| == |g1| == |gm| == |g'| == |vals| == |oval| == |g| && Table(t)
    && done <= Reach(g, rank, root) && UpClosed(g, Reach(g, rank, root), done)
    && (forall c :: 0 <= c < |g| && c !in done ==> g1[c] == g[c] && gm[c] == g[c] && g'[c] == g[c])
    && (forall c :: c in done ==> c < |g| && Treated(g, inEdges, outUse, alter, t, g1, gm, g', vals, oval, c))
  }

  lemma PassInvAt(g: Graph, rank: seq<nat>, root: nat, inEdges: seq<seq<nat>>, outUse: seq<set<nat>>, alter: bool, t: seq<Expr>,
                  g1: Graph, gm: Graph, g': Graph, vals: seq<Vals>, oval: seq<nat>, done: set<nat>, c: nat)
    requires Entered(g, rank, root, inEdges) && PassInv(g, rank, root, inEdges, outUse, alter, t, g1, gm, g', vals, oval, done) && c in done
    ensures |inEdges| == |outUse| == |g1| == |gm| == |g'| == |vals| == |oval| == |g| && Table(t) && c < |g| && InRange(g, inEdges[c])
    ensures Treated(g, inEdges, outUse, alter, t, g1, gm, g', vals, oval, c)
  {
  }

  /** What is done to a block stays done when the table grows, and holds of the larger table alone. */
  lemma DoneLater(t: seq<Expr>, blk: Block, entry: Vals, out: set<nat>, alter: bool, t1: seq<Expr>, numbered: Block, mid: Block, blk': Block,
                  exit: Vals, t': seq<Expr>)
    requires BlockDone(t, blk, entry, out, alter, t1, numbered, mid, blk', exit) && Table(t') && t1 <= t'
    ensures BlockDone(t', blk, entry, out, alter, t', numbered, mid, blk', exit)
  {
    DoneGrows(t, blk, entry, out, alter, t1, numbered, mid, blk', exit, t');
    hide Table, OperandsKnown, FinishedRight, Shrunk, Traced, Peephole.Contained, Consistent, KnownRegs, KnownAfter, Run;
    if OperandsKnown(blk.stmts, KnownRegs(entry)) {
      forall p, r | Consistent(t', entry, p, r) ensures Consistent(t, entry, p, r) { ConsistentGrows(t, t', entry, p, r); }
    }
  }

  lemma OperandNumberGrows(t: seq<Expr>, t': seq<Expr>, s: Branch, val: Vals, oval: nat)
    requires t <= t' && OperandNumber(t, s, val, oval)
    ensures OperandNumber(t', s, val, oval)
  {
  }

  lemma PassInvStep(g: Graph, rank: seq<nat>, root: nat, inEdges: seq<seq<nat>>, outUse: seq<set<nat>>, alter: bool, t: seq<Expr>,
                    g1: Graph, gm: Graph, g': Graph, vals: seq<Vals>, oval: seq<nat>, done: set<nat>, b: nat,
                    t': seq<Expr>, numbered: Block, mid: Block, blk: Block, val: Vals, ov: nat)
    requires Entered(g, rank, root, inEdges) && PassInv(g, rank, root, inEdges, outUse, alter, t, g1, gm, g', vals, oval, done)
    requires Analysis.Next(g, Reach(g, rank, root), done, b) && Table(t') && t <= t'
    requires BlockDone(t, g[b], EntryVals(g, vals, inEdges[b]), outUse[b], alter, t', numbered, mid, blk, val)
    requires OperandNumber(t', blk.s, val, ov)
    ensures PassInv(g, rank, root, inEdges, outUse, alter, t', g1[b := numbered], gm[b := mid], g'[b := blk], vals[b := val], oval[b := ov], done + {b})
  {
    hide BlockDone, OperandNumber, Table, Treated, InRange, Analysis.InEdges;
    assert UpClosed(g, Reach(g, rank, root), done + {b});
    forall c | c in done + {b}
      ensures c < |g| && Treated(g, inEdges, outUse, alter, t', g1[b := numbered], gm[b := mid], g'[b := blk], vals[b := val], oval[b := ov], c)
    {
      if c == b {
        TreatedNew(g, rank, root, inEdges, outUse, alter, t, g1, gm, g', vals, oval, done, b, t', numbered, mid, blk, val, ov);
      } else {
        TreatedOld(g, rank, root, inEdges, outUse, alter, t, g1, gm, g', vals, oval, done, b, t', numbered, mid, blk, val, ov, c);
      }
    }
  }

  lemma TreatedNew(g: Graph, rank: seq<nat>, root: nat, inEdges: seq<seq<nat>>, outUse: seq<set<nat>>, alter: bool, t: seq<Expr>,
                   g1: Graph, gm: Graph, g': Graph, vals: seq<Vals>, oval: seq<nat>, done: set<nat>, b: nat,
                   t': seq<Expr>, numbered: Block, mid: Block, blk: Block, val: Vals, ov: nat)
    requires Entered(g, rank, root, inEdges) && UpClosed(g, Reach(g, rank, root), done)
    requires Analysis.Next(g, Reach(g, rank, root), done, b) && Table(t')
    requires |outUse| == |g1| == |gm| == |g'| == |vals| == |oval| == |g|
    requires BlockDone(t, g[b], EntryVals(g, vals, inEdges[b]), outUse[b], alter, t', numbered, mid, blk, val)
    requires OperandNumber(t', blk.s, val, ov)
    ensures Treated(g, inEdges, outUse, alter, t', g1[b := numbered], gm[b := mid], g'[b := blk], vals[b := val], oval[b := ov], b)
  {
    hide BlockDone, OperandNumber, Table, EntryVals, Analysis.InEdges, Reach;
    EntryStays(g, rank, root, inEdges, vals, done, b, val, b);
    DoneLater(t, g[b], EntryVals(g, vals, inEdges[b]), outUse[b], alter, t', numbered, mid, blk, val, t');
  }

  lemma TreatedOld(g: Graph, rank: seq<nat>, root: nat, inEdges: seq<seq<nat>>, outUse: seq<set<nat>>, alter: bool, t: seq<Expr>,
                   g1: Graph, gm: Graph, g': Graph, vals: seq<Vals>, oval: seq<nat>, done: set<nat>, b: nat,
                   t': seq<Expr>, numbered: Block, mid: Block, blk: Block, val: Vals, ov: nat, c: nat)
    requires Entered(g, rank, root, inEdges) && PassInv(g, rank, root, inEdges, outUse, alter, t, g1, gm, g', vals, oval, done)
    requires Analysis.Next(g, Reach(g, rank, root), done, b) && Table(t') && t <= t' && c in done
    ensures c < |g| && Treated(g, inEdges, outUse, alter, t', g1[b := numbered], gm[b := mid], g'[b := blk], vals[b := val], oval[b := ov], c)
  {
    PassInvAt(g, rank, root, inEdges, outUse, alter, t, g1, gm, g', vals, oval, done, c);
    hide BlockDone, OperandNumber, Table, EntryVals, Analysis.InEdges, Reach;
    EntryStays(g, rank, root, inEdges, vals, done, b, val, c);
    DoneLater(t, g[c], EntryVals(g, vals, inEdges[c]), outUse[c], alter, t, g1[c], gm[c], g'[c], vals[c], t');
    OperandNumberGrows(t, t', g'[c].s, vals[c], oval[c]);
  }

  /** Processing b does not change what is known on entry to processed blocks and to b itself. */
  lemma EntryStays(g: Graph, rank: seq<nat>, root: nat, inEdges: seq<seq<nat>>, vals: seq<Vals>, done: set<nat>, b: nat, val: Vals, c: nat)
    requires Entered(g, rank, root, inEdges) && UpClosed(g, Reach(g, rank, root), done) && |vals| == |g|
    requires Analysis.Next(g, Reach(g, rank, root), done, b) && c in done + {b} && c < |g|
    ensures EntryVals(g, vals[b := val], inEdges[c]) == EntryVals(g, vals, inEdges[c])
  {
    EdgesInRange(g, inEdges, Reach(g, rank, root), c);
    EntryElsewhere(g, vals, inEdges[c], b, val);
  }

  /** The entry numbers of the next block are in the table. */
  lemma NextEntry(g: Graph, rank: seq<nat>, root: nat, inEdges: seq<seq<nat>>, outUse: seq<set<nat>>, alter: bool, t: seq<Expr>,
                  g1: Graph, gm: Graph, g': Graph, vals: seq<Vals>, oval: seq<nat>, done: set<nat>, b: nat)
    requires Entered(g, rank, root, inEdges) && PassInv(g, rank, root, inEdges, outUse, alter, t, g1, gm, g', vals, oval, done)
    requires Analysis.Next(g, Reach(g, rank, root), done, b)
    ensures |inEdges| == |outUse| == |g1| == |gm| == |g'| == |vals| == |oval| == |g| && Table(t) && b < |g| && InRange(g, inEdges[b])
    ensures InTable(t, EntryVals(g, vals, inEdges[b])) && g1[b] == g'[b] == g[b]
  {
    EdgesInRange(g, inEdges, Reach(g, rank, root), b);
    forall i | 0 <= i < |inEdges[b]| ensures InTable(t, vals[Dominance.EdgeSource(g, inEdges[b][i])]) {
      PassInvAt(g, rank, root, inEdges, outUse, alter, t, g1, gm, g', vals, oval, done, Dominance.EdgeSource(g, inEdges[b][i]));
    }
    EntryInTable(g, vals, inEdges[b], t);
  }

  lemma PassInvStart(g: Graph, rank: seq<nat>, root: nat, inEdges: seq<seq<nat>>, outUse: seq<set<nat>>, alter: bool,
                     vals: seq<Vals>, oval: seq<nat>)
    requires Entered(g, rank, root, inEdges) && |g| == |outUse| == |vals| == |oval|
    ensures PassInv(g, rank, root, inEdges, outUse, alter, [], g, g, g, vals, oval, {})
  {
  }

  // ---------------------------------------------------------------------------------------
  // Room in the table
  // ---------------------------------------------------------------------------------------

  /** The most value numbers each block can take: two per statement and one for its branch. */
  ghost function Demand(g: Graph): seq<nat> {
    seq(|g|, (b: nat) requires b < |g| => 2 * |Kept(g[b].stmts)| + 1)
  }

  /** The statements of each block, its branch included. */
  ghost function StmtCounts(g: Graph): seq<nat> {
    seq(|g|, (b: nat) requires b < |g| => |Kept(g[b].stmts)| + 1)
  }

  /** Counts the statements of the graph, branches included. */
  method MaxStmts(g: Graph) returns (n: nat)
    ensures n == Total(StmtCounts(g), |g|)
  {
    n := 0;
    for i := 0 to |g|
      invariant n == Total(StmtCounts(g), i)
    {
      var k := Slength(g[i].stmts);
      n := n + k + 1;
    }
  }

  /** Three numbers per statement are more than any set of blocks can take. */
  lemma {:induction false} TableSuffices(g: Graph, s: set<nat>, n: nat)
    requires n <= |g|
    ensures SumIn(Demand(g), s, n) + 2 * n <= 3 * Total(StmtCounts(g), n)
  {
    if n > 0 { TableSuffices(g, s, n - 1); }
  }

  /** Processing block b leaves room for the rest. */
  lemma RoomFor(g: Graph, done: set<nat>, b: nat, maxval: nat)
    requires b < |g| && b !in done && 3 * Total(StmtCounts(g), |g|) <= maxval
    ensures SumIn(Demand(g), done + {b}, |g|) == SumIn(Demand(g), done, |g|) + 2 * |Kept(g[b].stmts)| + 1 < maxval
  {
    SumInAdd(Demand(g), done, b, |g|);
    TableSuffices(g, done + {b}, |g|);
  }

  // ---------------------------------------------------------------------------------------
  // The loops
  // ---------------------------------------------------------------------------------------

  /** Treats one block on top of its predecessors. */
  method ProcessBlock(tbl: ValueTable, g: Graph, root: nat, ghost rank: seq<nat>, inEdges: seq<seq<nat>>, outUse: seq<set<nat>>, alter: bool,
                      ghost g1: Graph, ghost gm: Graph, g0: Graph, vals0: seq<Vals>, oval0: seq<nat>, ghost done: set<nat>, b: nat)
    returns (ghost g1': Graph, ghost gm': Graph, g': Graph, vals: seq<Vals>, oval: seq<nat>, ok: bool)
    requires tbl.Valid() && Entered(g, rank, root, inEdges)
    requires PassInv(g, rank, root, inEdges, outUse, alter, tbl.exprs, g1, gm, g0, vals0, oval0, done)
    requires Analysis.Next(g, Reach(g, rank, root), done, b)
    requires tbl.curval <= SumIn(Demand(g), done, |g|) && 3 * Total(StmtCounts(g), |g|) <= tbl.vmap.Length
    modifies tbl, tbl.vmap
    ensures ok ==> tbl.Valid() && PassInv(g, rank, root, inEdges, outUse, alter, tbl.exprs, g1', gm', g', vals, oval, done + {b})
    ensures ok ==> tbl.curval <= SumIn(Demand(g), done + {b}, |g|)
    ensures Accepted(g[b], alter) ==> ok
  {
    ghost var t := tbl.exprs;
    NextEntry(g, rank, root, inEdges, outUse, alter, t, g1, gm, g0, vals0, oval0, done, b);
    RoomFor(g, done, b, tbl.vmap.Length);
    hide *;
    var entry := MergeVals(g, vals0, inEdges[b]);
    var blk, exit, ov;
    ghost var numbered, mid;
    blk, exit, ov, ok, numbered, mid := OptBlk(tbl, g0[b], entry, outUse[b], alter);
    g1', gm', g', vals, oval := g1, gm, g0, vals0, oval0;
    if !ok { return; }
    DoneTables(t, g[b], entry, outUse[b], alter, tbl.exprs, numbered, mid, blk, exit);
    PassInvStep(g, rank, root, inEdges, outUse, alter, t, g1, gm, g0, vals0, oval0, done, b, tbl.exprs, numbered, mid, blk, exit, ov);
    g1', gm', g', vals, oval := g1[b := numbered], gm[b := mid], g0[b := blk], vals0[b := exit], oval0[b := ov];
  }

  lemma DoneTables(t: seq<Expr>, blk: Block, entry: Vals, out: set<nat>, alter: bool, t': seq<Expr>, numbered: Block, mid: Block, blk': Block, exit: Vals)
    requires BlockDone(t, blk, entry, out, alter, t', numbered, mid, blk', exit)
    ensures Table(t') && t <= t'
  {
  }

  /** The pass is at position k of level l: what it has established, and the room it has used. */
  ghost predicate At(g: Graph, rank: seq<nat>, root: nat, level: seq<nat>, levels: seq<seq<nat>>, inEdges: seq<seq<nat>>,
                     outUse: seq<set<nat>>, alter: bool, t: seq<Expr>, g1: Graph, gm: Graph, g': Graph, vals: seq<Vals>, oval: seq<nat>, l: int, k: nat)
  {
    && Entered(g, rank, root, inEdges) && |level| == |g| && -1 <= l < |levels| && (l >= 0 ==> k <= |levels[l]|)
    && var done := Analysis.Swept(g, level, levels, Reach(g, rank, root), l, k);
       PassInv(g, rank, root, inEdges, outUse, alter, t, g1, gm, g', vals, oval, done) && |t| <= SumIn(Demand(g), done, |g|)
  }

  ghost predicate AllAccepted(g: Graph, live: set<nat>, alter: bool) {
    forall b :: b in live && b < |g| ==> Accepted(g[b], alter)
  }

  /** Treats the blocks of one level. */
  method NumberLevel(tbl: ValueTable, g: Graph, root: nat, ghost rank: seq<nat>, ghost level: seq<nat>,
                     levels: seq<seq<nat>>, inEdges: seq<seq<nat>>, outUse: seq<set<nat>>, alter: bool,
                     ghost g1: Graph, ghost gm: Graph, g0: Graph, vals0: seq<Vals>, oval0: seq<nat>, l: nat)
    returns (ghost g1': Graph, ghost gm': Graph, g': Graph, vals: seq<Vals>, oval: seq<nat>, ok: bool)
    requires tbl.Valid() && Ranked(g, rank) && root < |g|
    requires Analysis.Listed(g, level, levels, Reach(g, rank, root)) && l < |g|
    requires 3 * Total(StmtCounts(g), |g|) <= tbl.vmap.Length
    requires At(g, rank, root, level, levels, inEdges, outUse, alter, tbl.exprs, g1, gm, g0, vals0, oval0, l, 0)
    modifies tbl, tbl.vmap
    ensures ok ==> tbl.Valid()
    ensures ok ==> At(g, rank, root, level, levels, inEdges, outUse, alter, tbl.exprs, g1', gm', g', vals, oval, l - 1, 0)
    ensures AllAccepted(g, Reach(g, rank, root), alter) ==> ok
  {
    hide *;
    LevelSizes(g, rank, root, level, levels);
    ghost var live := Reach(g, rank, root);
    g1', gm', g', vals, oval, ok := g1, gm, g0, vals0, oval0, true;
    for k := 0 to |levels[l]|
      invariant tbl.Valid() && ok
      invariant At(g, rank, root, level, levels, inEdges, outUse, alter, tbl.exprs, g1', gm', g', vals, oval, l, k)
    {
      AtNext(g, rank, level, levels, root, l, k);
      AtOpens(g, rank, root, level, levels, inEdges, outUse, alter, tbl.exprs, g1', gm', g', vals, oval, l, k);
      tbl.ValidSize();
      g1', gm', g', vals, oval, ok := ProcessBlock(tbl, g, root, rank, inEdges, outUse, alter, g1', gm', g', vals, oval,
                                                   Analysis.Swept(g, level, levels, live, l, k), levels[l][k]);
      if !ok { return; }
      tbl.ValidSize();
      AtCloses(g, rank, root, level, levels, inEdges, outUse, alter, tbl.exprs, g1', gm', g', vals, oval, l, k + 1);
    }
    AtBelow(g, rank, root, level, levels, inEdges, outUse, alter, tbl.exprs, g1', gm', g', vals, oval, l);
  }

  lemma AtOpens(g: Graph, rank: seq<nat>, root: nat, level: seq<nat>, levels: seq<seq<nat>>, inEdges: seq<seq<nat>>, outUse: seq<set<nat>>,
                alter: bool, t: seq<Expr>, g1: Graph, gm: Graph, g': Graph, vals: seq<Vals>, oval: seq<nat>, l: nat, k: nat)
    requires At(g, rank, root, level, levels, inEdges, outUse, alter, t, g1, gm, g', vals, oval, l, k)
    ensures Entered(g, rank, root, inEdges) && Ranked(g, rank) && root < |g| && |level| == |g| && l < |levels| && k <= |levels[l]|
    ensures var done := Analysis.Swept(g, level, levels, Reach(g, rank, root), l, k);
      PassInv(g, rank, root, inEdges, outUse, alter, t, g1, gm, g', vals, oval, done) && |t| <= SumIn(Demand(g), done, |g|)
  {
  }

  lemma AtCloses(g: Graph, rank: seq<nat>, root: nat, level: seq<nat>, levels: seq<seq<nat>>, inEdges: seq<seq<nat>>, outUse: seq<set<nat>>,
                 alter: bool, t: seq<Expr>, g1: Graph, gm: Graph, g': Graph, vals: seq<Vals>, oval: seq<nat>, l: nat, k: nat)
    requires Entered(g, rank, root, inEdges) && Ranked(g, rank) && root < |g| && |level| == |g| && l < |levels| && k <= |levels[l]|
    requires var done := Analysis.Swept(g, level, levels, Reach(g, rank, root), l, k);
      PassInv(g, rank, root, inEdges, outUse, alter, t, g1, gm, g', vals, oval, done) && |t| <= SumIn(Demand(g), done, |g|)
    ensures At(g, rank, root, level, levels, inEdges, outUse, alter, t, g1, gm, g', vals, oval, l, k)
  {
  }

  lemma AtBelow(g: Graph, rank: seq<nat>, root: nat, level: seq<nat>, levels: seq<seq<nat>>, inEdges: seq<seq<nat>>, outUse: seq<set<nat>>,
                alter: bool, t: seq<Expr>, g1: Graph, gm: Graph, g': Graph, vals: seq<Vals>, oval: seq<nat>, l: nat)
    requires Ranked(g, rank) && root < |g| && Analysis.Listed(g, level, levels, Reach(g, rank, root)) && l < |levels|
    requires At(g, rank, root, level, levels, inEdges, outUse, alter, t, g1, gm, g', vals, oval, l, |levels[l]|)
    ensures At(g, rank, root, level, levels, inEdges, outUse, alter, t, g1, gm, g', vals, oval, l - 1, 0)
  {
    hide PassInv, Reach, SumIn, Analysis.Swept, Entered, Ranked;
    LevelSizes(g, rank, root, level, levels);
    Analysis.SweptLevel(g, level, levels, Reach(g, rank, root), l);
  }

  lemma AtNext(g: Graph, rank: seq<nat>, level: seq<nat>, levels: seq<seq<nat>>, root: nat, l: nat, k: nat)
    requires Ranked(g, rank) && root < |g| && Analysis.Listed(g, level, levels, Reach(g, rank, root)) && l < |g| && k < |levels[l]|
    ensures WellFormed(g) && var live, done := Reach(g, rank, root), Analysis.Swept(g, level, levels, Reach(g, rank, root), l, k);
      && Analysis.Next(g, live, done, levels[l][k])
      && Analysis.Swept(g, level, levels, live, l, k + 1) == done + {levels[l][k]}
    ensures levels[l][k] < |g|
    ensures forall alter :: AllAccepted(g, Reach(g, rank, root), alter) ==> Accepted(g[levels[l][k]], alter)
  {
    Analysis.SweptNext(g, level, levels, Reach(g, rank, root), l, k);
  }

  lemma LevelSizes(g: Graph, rank: seq<nat>, root: nat, level: seq<nat>, levels: seq<seq<nat>>)
    requires Ranked(g, rank) && root < |g| && Analysis.Listed(g, level, levels, Reach(g, rank, root))
    ensures |levels| == |level| == |g| && WellFormed(g)
  {
  }

  /** Treats the levels from l down to the leaves. */
  method NumberLevels(tbl: ValueTable, g: Graph, root: nat, ghost rank: seq<nat>, ghost level: seq<nat>,
                      levels: seq<seq<nat>>, inEdges: seq<seq<nat>>, outUse: seq<set<nat>>, alter: bool,
                      ghost g1: Graph, ghost gm: Graph, g0: Graph, vals0: seq<Vals>, oval0: seq<nat>, l: int)
    returns (ghost g1': Graph, ghost gm': Graph, g': Graph, vals: seq<Vals>, oval: seq<nat>, ok: bool)
    requires tbl.Valid() && Ranked(g, rank) && root < |g|
    requires Analysis.Listed(g, level, levels, Reach(g, rank, root)) && -1 <= l < |g|
    requires 3 * Total(StmtCounts(g), |g|) <= tbl.vmap.Length
    requires At(g, rank, root, level, levels, inEdges, outUse, alter, tbl.exprs, g1, gm, g0, vals0, oval0, l, 0)
    modifies tbl, tbl.vmap
    ensures ok ==> tbl.Valid()
    ensures ok ==> At(g, rank, root, level, levels, inEdges, outUse, alter, tbl.exprs, g1', gm', g', vals, oval, -1, 0)
    ensures AllAccepted(g, Reach(g, rank, root), alter) ==> ok
  {
    hide *;
    LevelSizes(g, rank, root, level, levels);
    g1', gm', g', vals, oval, ok := g1, gm, g0, vals0, oval0, true;
    var i := l;
    while i >= 0
      invariant -1 <= i <= l && tbl.Valid() && ok
      invariant At(g, rank, root, level, levels, inEdges, outUse, alter, tbl.exprs, g1', gm', g', vals, oval, i, 0)
    {
      g1', gm', g', vals, oval, ok := NumberLevel(tbl, g, root, rank, level, levels, inEdges, outUse, alter, g1', gm', g', vals, oval, i);
      if !ok { return; }
      i := i - 1;
    }
  }

  /** Numbers the values of the graph from the root down, and finishes each block. g1 is the graph with all blocks
      numbered and none finished: it gives every packet's result, if no operand is unknown. If also every block keeps
      what is still used after it, packets go through the finished graph as through the graph, exactly unless they
      come to a block that goes astray. */
  method NumberGraph(tbl: ValueTable, g: Graph, root: nat, ghost rank: seq<nat>, level: seq<nat>, levels: seq<seq<nat>>,
                     inEdges: seq<seq<nat>>, outUse: seq<set<nat>>, alter: bool)
    returns (ghost g1: Graph, ghost gm: Graph, g': Graph, vals: seq<Vals>, oval: seq<nat>, ok: bool)
    requires Entered(g, rank, root, inEdges) && Analysis.Listed(g, level, levels, Reach(g, rank, root)) && |outUse| == |g|
    requires 0 < 3 * Total(StmtCounts(g), |g|) <= tbl.vmap.Length
    modifies tbl, tbl.vmap
    ensures ok ==> tbl.Valid() && PassInv(g, rank, root, inEdges, outUse, alter, tbl.exprs, g1, gm, g', vals, oval, Reach(g, rank, root))
    ensures ok ==> Ranked(g1, rank) && Ranked(g', rank) && |g1| == |gm| == |g'| == |vals| == |g|
    ensures ok && AllKnown(g, inEdges, vals, Reach(g, rank, root)) ==>
      forall p, r :: Walk(g1, rank, root, p, r) == Walk(g, rank, root, p, r)
    ensures ok && AllKnown(g, inEdges, vals, Reach(g, rank, root)) ==>
      (Spared(g, rank, inEdges, outUse, alter, tbl.exprs, g1, gm, g', vals, Reach(g, rank, root)) ==>
        Followed(g, rank, root, inEdges, outUse, alter, g1, gm, g', vals))
    ensures AllAccepted(g, Reach(g, rank, root), alter) ==> ok
  {
    assert |level| == |g|;
    hide PassInv, Reach, SumIn, Total, Analysis.Listed, Analysis.Swept, Analysis.InEdges, Walk, WellFormed, AllKnown, Ranked, AllAccepted,
      Spared, Followed;
    tbl.InitVal();
    Analysis.SweptStart(g, rank, level, levels, root);
    vals, oval := seq(|g|, i => seq(N_ATOMS, j => VAL_UNKNOWN)), seq(|g|, i => 0);
    PassInvStart(g, rank, root, inEdges, outUse, alter, vals, oval);
    SumInEmpty(Demand(g), |g|);
    g1, gm, g', vals, oval, ok := NumberLevels(tbl, g, root, rank, level, levels, inEdges, outUse, alter, g, g, g, vals, oval, level[root]);
    if ok {
      TreatedRanked(g, rank, root, inEdges, outUse, alter, tbl.exprs, g1, gm, g', vals, oval);
      NumberedWalkAll(g, rank, root, inEdges, outUse, alter, tbl.exprs, g1, gm, g', vals, oval);
      FinishedFollowed(g, rank, root, inEdges, outUse, alter, tbl.exprs, g1, gm, g', vals, oval);
    }
  }

  // ---------------------------------------------------------------------------------------
  // What the pass keeps
  // ---------------------------------------------------------------------------------------

  /** No block of live hands an unknown number to the table. */
  ghost predicate AllKnown(g: Graph, inEdges: seq<seq<nat>>, vals: seq<Vals>, live: set<nat>)
  {
    && |inEdges| == |vals| == |g| && (forall c :: 0 <= c < |g| ==> InRange(g, inEdges[c]))
    && forall c :: c in live && c < |g| ==> OperandsKnown(g[c].stmts, KnownRegs(EntryVals(g, vals, inEdges[c])))
  }

  /** No block uses a register that it has not defined. */
  ghost predicate BlockLocal(g: Graph, live: set<nat>) {
    forall b :: b in live && b < |g| ==> BlockUses(g[b]) == {}
  }

  /** Where every block defines what it uses, nothing unknown is handed to the table. */
  lemma LocalKnown(g: Graph, rank: seq<nat>, root: nat, inEdges: seq<seq<nat>>, vals: seq<Vals>)
    requires Entered(g, rank, root, inEdges) && |vals| == |g| && BlockLocal(g, Reach(g, rank, root))
    ensures AllKnown(g, inEdges, vals, Reach(g, rank, root))
  {
    forall c | c in Reach(g, rank, root) ensures OperandsKnown(g[c].stmts, KnownRegs(EntryVals(g, vals, inEdges[c]))) {
      assert BlockUses(g[c]) == {};
      ExposedSuffice(g[c].stmts, KnownRegs(EntryVals(g, vals, inEdges[c])));
    }
  }

  /** The state after executing the blocks of a path. */
  ghost function RunPath(g: Graph, path: seq<nat>, p: Packet, r: Regs): Regs
    requires forall i :: 0 <= i < |path| ==> path[i] < |g|
  {
    if path == [] then r
    else
      var n := |path| - 1;
      RunAll(g[path[n]].stmts, p, RunPath(g, path[..n], p, r))
  }

  /** All blocks that control can reach have been treated, and no unknown number was handed to the table. */
  ghost predicate AllTreated(g: Graph, rank: seq<nat>, root: nat, inEdges: seq<seq<nat>>, outUse: seq<set<nat>>, alter: bool, t: seq<Expr>,
                             g1: Graph, gm: Graph, g': Graph, vals: seq<Vals>, oval: seq<nat>)
  {
    && Entered(g, rank, root, inEdges)
    && PassInv(g, rank, root, inEdges, outUse, alter, t, g1, gm, g', vals, oval, Reach(g, rank, root))
    && AllKnown(g, inEdges, vals, Reach(g, rank, root))
  }

  lemma TreatedAt(g: Graph, rank: seq<nat>, root: nat, inEdges: seq<seq<nat>>, outUse: seq<set<nat>>, alter: bool, t: seq<Expr>,
                  g1: Graph, gm: Graph, g': Graph, vals: seq<Vals>, oval: seq<nat>, b: nat)
    requires AllTreated(g, rank, root, inEdges, outUse, alter, t, g1, gm, g', vals, oval) && b in Reach(g, rank, root)
    ensures |inEdges| == |outUse| == |g1| == |gm| == |g'| == |vals| == |oval| == |g| && Table(t) && b < |g| && InRange(g, inEdges[b])
    ensures Treated(g, inEdges, outUse, alter, t, g1, gm, g', vals, oval, b)
    ensures InTable(t, vals[b]) && InTable(t, EntryVals(g, vals, inEdges[b]))
    ensures OperandsKnown(g[b].stmts, KnownRegs(EntryVals(g, vals, inEdges[b])))
  {
    PassInvAt(g, rank, root, inEdges, outUse, alter, t, g1, gm, g', vals, oval, Reach(g, rank, root), b);
  }

  lemma PathTables(g: Graph, rank: seq<nat>, root: nat, inEdges: seq<seq<nat>>, outUse: seq<set<nat>>, alter: bool, t: seq<Expr>,
                   g1: Graph, gm: Graph, g': Graph, vals: seq<Vals>, oval: seq<nat>, path: seq<nat>, b: nat)
    requires AllTreated(g, rank, root, inEdges, outUse, alter, t, g1, gm, g', vals, oval) && PathFromTo(g, path, root, b)
    ensures b in Reach(g, rank, root) && |inEdges| == |g1| == |vals| == |g| && b < |g|
    ensures Table(t) && InTable(t, vals[b]) && InRange(g, inEdges[b]) && InTable(t, EntryVals(g, vals, inEdges[b]))
    ensures forall i :: 0 <= i < |path| ==> path[i] < |g|
  {
    Dominance.PathReaches(g, rank, path, root, b);
    TreatedAt(g, rank, root, inEdges, outUse, alter, t, g1, gm, g', vals, oval, b);
  }

  /** Along every path from the root to b, the numbered graph computes the state the graph computes, the entry numbers
      describe the state on entry to b, and the exit numbers the state b leaves. */
  lemma {:induction false} PathDescribed(g: Graph, rank: seq<nat>, root: nat, inEdges: seq<seq<nat>>, outUse: seq<set<nat>>, alter: bool,
                                         t: seq<Expr>, g1: Graph, gm: Graph, g': Graph, vals: seq<Vals>, oval: seq<nat>, path: seq<nat>, b: nat,
                                         p: Packet, r: Regs)
    requires AllTreated(g, rank, root, inEdges, outUse, alter, t, g1, gm, g', vals, oval) && PathFromTo(g, path, root, b)
    ensures b in Reach(g, rank, root) && |inEdges| == |g1| == |vals| == |g| && b < |g|
    ensures Table(t) && InTable(t, vals[b]) && InRange(g, inEdges[b]) && InTable(t, EntryVals(g, vals, inEdges[b]))
    ensures RunPath(g1, path, p, r) == RunPath(g, path, p, r)
    ensures Consistent(t, EntryVals(g, vals, inEdges[b]), p, RunPath(g, path[..|path| - 1], p, r))
    ensures Consistent(t, vals[b], p, RunPath(g, path, p, r))
    decreases |path|
  {
    var n := |path| - 1;
    hide AllTreated, PathFromTo, Consistent, EntryVals, RunPath, Table, InTable, Treated, OperandsKnown, KnownRegs, Entered, Reach, Run, Den;
    PathTables(g, rank, root, inEdges, outUse, alter, t, g1, gm, g', vals, oval, path, b);
    TreatedAt(g, rank, root, inEdges, outUse, alter, t, g1, gm, g', vals, oval, b);
    TreatedEntered(g, rank, root, inEdges, outUse, alter, t, g1, gm, g', vals, oval);
    PathPrefix(g, path, root, b);
    var q := RunPath(g, path[..n], p, r);
    if n > 0 {
      var d := path[n - 1];
      PathDescribed(g, rank, root, inEdges, outUse, alter, t, g1, gm, g', vals, oval, path[..n], d, p, r);
      EntryDescribed(g, rank, root, inEdges, t, vals, d, b, p, q);
    } else {
      RootDescribed(g, rank, root, inEdges, t, vals, p, q);
      EmptyPath(g, g1, p, r);
    }
    StepDescribed(g, inEdges, outUse, alter, t, g1, gm, g', vals, oval, b, p, q);
    RunPathLast(g, path, p, r);
    RunPathLast(g1, path, p, r);
  }

  lemma PathPrefix(g: Graph, path: seq<nat>, root: nat, b: nat)
    requires WellFormed(g) && PathFromTo(g, path, root, b)
    ensures |path| > 0 && path[|path| - 1] == b
    ensures if |path| == 1 then b == root && path[..0] == []
            else var n := |path| - 1; PathFromTo(g, path[..n], root, path[n - 1]) && path[n - 1] < |g| && b in Succs(g, path[n - 1])
  {
  }

  lemma TreatedEntered(g: Graph, rank: seq<nat>, root: nat, inEdges: seq<seq<nat>>, outUse: seq<set<nat>>, alter: bool, t: seq<Expr>,
                       g1: Graph, gm: Graph, g': Graph, vals: seq<Vals>, oval: seq<nat>)
    requires AllTreated(g, rank, root, inEdges, outUse, alter, t, g1, gm, g', vals, oval)
    ensures Entered(g, rank, root, inEdges) && Ranked(g, rank) && root < |g|
  {
  }

  lemma RunPathLast(g: Graph, path: seq<nat>, p: Packet, r: Regs)
    requires path != [] && forall i :: 0 <= i < |path| ==> path[i] < |g|
    ensures var n := |path| - 1; RunPath(g, path, p, r) == RunAll(g[path[n]].stmts, p, RunPath(g, path[..n], p, r))
  {
  }

  /** Nothing is known on entry to the root. */
  lemma RootDescribed(g: Graph, rank: seq<nat>, root: nat, inEdges: seq<seq<nat>>, t: seq<Expr>, vals: seq<Vals>, p: Packet, q: Regs)
    requires Entered(g, rank, root, inEdges) && |vals| == |g| && Table(t) && InTable(t, EntryVals(g, vals, inEdges[root]))
    ensures Consistent(t, EntryVals(g, vals, inEdges[root]), p, q)
  {
    if inEdges[root] != [] {
      assert inEdges[root][0] in inEdges[root];
      RootHasNoPreds(g, rank, root, inEdges[root][0]);
      assert false;
    }
  }

  /** The state a predecessor leaves is described by the entry numbers. */
  lemma EntryDescribed(g: Graph, rank: seq<nat>, root: nat, inEdges: seq<seq<nat>>, t: seq<Expr>, vals: seq<Vals>, d: nat, b: nat,
                       p: Packet, q: Regs)
    requires Entered(g, rank, root, inEdges) && |vals| == |g| && Table(t) && b < |g| && d in Reach(g, rank, root) && b in Succs(g, d)
    requires InTable(t, vals[d]) && InTable(t, EntryVals(g, vals, inEdges[b])) && Consistent(t, vals[d], p, q)
    ensures Consistent(t, EntryVals(g, vals, inEdges[b]), p, q)
  {
    var entry := EntryVals(g, vals, inEdges[b]);
    hide EntryVals, Table, Den, Analysis.InEdges;
    forall a | 0 <= a < N_ATOMS && entry[a] != VAL_UNKNOWN ensures q[a] == Den(t, entry[a], p) {
      EntryAgrees(g, vals, inEdges, Reach(g, rank, root), d, b, a);
    }
  }

  /** A treated block takes a state the entry numbers describe to one the exit numbers describe. */
  lemma StepDescribed(g: Graph, inEdges: seq<seq<nat>>, outUse: seq<set<nat>>, alter: bool, t: seq<Expr>, g1: Graph, gm: Graph, g': Graph,
                      vals: seq<Vals>, oval: seq<nat>, b: nat, p: Packet, q: Regs)
    requires b < |g| == |inEdges| == |outUse| == |g1| == |gm| == |g'| == |vals| == |oval| && InRange(g, inEdges[b])
    requires Treated(g, inEdges, outUse, alter, t, g1, gm, g', vals, oval, b)
    requires OperandsKnown(g[b].stmts, KnownRegs(EntryVals(g, vals, inEdges[b])))
    requires Table(t) && InTable(t, EntryVals(g, vals, inEdges[b])) && Consistent(t, EntryVals(g, vals, inEdges[b]), p, q)
    ensures InTable(t, vals[b]) && RunAll(g1[b].stmts, p, q) == RunAll(g[b].stmts, p, q)
    ensures Consistent(t, vals[b], p, RunAll(g[b].stmts, p, q))
  {
    hide Table, Consistent, EntryVals, KnownRegs, OperandsKnown, Run;
  }

  lemma TreatedRanked(g: Graph, rank: seq<nat>, root: nat, inEdges: seq<seq<nat>>, outUse: seq<set<nat>>, alter: bool, t: seq<Expr>,
                      g1: Graph, gm: Graph, g': Graph, vals: seq<Vals>, oval: seq<nat>)
    requires Entered(g, rank, root, inEdges)
    requires PassInv(g, rank, root, inEdges, outUse, alter, t, g1, gm, g', vals, oval, Reach(g, rank, root))
    ensures |g1| == |gm| == |g'| == |vals| == |g| && Ranked(g1, rank) && Ranked(g', rank)
    ensures forall c :: 0 <= c < |g| ==> SameShape(g[c], g1[c])
  {
    assert |g1| == |gm| == |g'| == |vals| == |g|;
    hide PassInv;
    forall c | 0 <= c < |g| ensures SameShape(g[c], g1[c]) && ShapeKept(g[c], g'[c]) {
      TreatedShape(g, rank, root, inEdges, outUse, alter, t, g1, gm, g', vals, oval, c);
    }
    hide Entered;
    KeptRanked(g, g', rank);
    SameShapeRanked(g, g1, rank);
  }

  /** A finished block goes nowhere the block does not go. */
  ghost predicate ShapeKept(b: Block, b': Block) {
    b'.jt in {b.jt, b.jf} && b'.jf in {b.jt, b.jf} && b'.s.Ret? == b.s.Ret? && (b.s.Ret? ==> b'.s == b.s)
  }

  lemma TreatedShape(g: Graph, rank: seq<nat>, root: nat, inEdges: seq<seq<nat>>, outUse: seq<set<nat>>, alter: bool, t: seq<Expr>,
                     g1: Graph, gm: Graph, g': Graph, vals: seq<Vals>, oval: seq<nat>, c: nat)
    requires Entered(g, rank, root, inEdges) && c < |g| == |g1| == |gm| == |g'|
    requires PassInv(g, rank, root, inEdges, outUse, alter, t, g1, gm, g', vals, oval, Reach(g, rank, root))
    ensures SameShape(g[c], g1[c]) && ShapeKept(g[c], g'[c]) && (!alter ==> g1[c] == g[c])
  {
    if c in Reach(g, rank, root) {
      PassInvAt(g, rank, root, inEdges, outUse, alter, t, g1, gm, g', vals, oval, Reach(g, rank, root), c);
    }
  }

  lemma KeptRanked(g: Graph, g': Graph, rank: seq<nat>)
    requires Ranked(g, rank) && |g'| == |g| && forall c :: 0 <= c < |g| ==> ShapeKept(g[c], g'[c])
    ensures Ranked(g', rank)
  {
    forall c | 0 <= c < |g|
      ensures if g'[c].s.Ret? then g'[c].jt == NIL && g'[c].jf == NIL
              else 0 <= g'[c].jt < |g| && 0 <= g'[c].jf < |g| && rank[g'[c].jt] < rank[c] && rank[g'[c].jf] < rank[c]
    {
      RankedAt(g, rank, c);
      assert ShapeKept(g[c], g'[c]);
    }
  }

  lemma SameShapeRanked(g: Graph, g': Graph, rank: seq<nat>)
    requires Ranked(g, rank) && |g'| == |g| && forall c :: 0 <= c < |g| ==> SameShape(g[c], g'[c])
    ensures Ranked(g', rank)
  {
  }

  /** Graphs that agree along every path from the root give the same results. */
  lemma {:induction false} WalkAlong(g: Graph, g': Graph, rank: seq<nat>, root: nat, path: seq<nat>, b: nat, p: Packet, r: Regs)
    requires Ranked(g, rank) && Ranked(g', rank) && root < |g| == |g'| && b < |g|
    requires forall c :: 0 <= c < |g| ==> SameShape(g[c], g'[c])
    requires PathFromTo(g, path, root, b)
    requires forall path, c: nat :: PathFromTo(g, path, root, c) ==> RunPath(g', path, p, r) == RunPath(g, path, p, r)
    requires RunPath(g', path[..|path| - 1], p, r) == RunPath(g, path[..|path| - 1], p, r)
    ensures Walk(g', rank, b, p, RunPath(g', path[..|path| - 1], p, r)) ==
            Walk(g, rank, b, p, RunPath(g, path[..|path| - 1], p, r))
    decreases rank[b]
  {
    if !g[b].s.Ret? {
      var r1 := RunPath(g, path, p, r);
      assert RunPath(g', path, p, r) == r1;
      var c := Choose(g[b], r1);
      var path' := path + [c];
      RankedAt(g, rank, b);
      assert PathFromTo(g, path', root, c);
      assert path'[..|path'| - 1] == path;
      WalkAlong(g, g', rank, root, path', c, p, r);
    }
  }

  /** Numbering preserves the result for every packet and start state. */
  lemma NumberedWalk(g: Graph, rank: seq<nat>, root: nat, inEdges: seq<seq<nat>>, outUse: seq<set<nat>>, alter: bool, t: seq<Expr>,
                     g1: Graph, gm: Graph, g': Graph, vals: seq<Vals>, oval: seq<nat>, p: Packet, r: Regs)
    requires AllTreated(g, rank, root, inEdges, outUse, alter, t, g1, gm, g', vals, oval)
    ensures Ranked(g1, rank) && |g1| == |g| && Walk(g1, rank, root, p, r) == Walk(g, rank, root, p, r)
  {
    hide AllTreated, RunPath, Consistent, Reach, EntryVals, Table, InTable, SameShape, Ranked, Walk, Entered, ShapeKept;
    TreatedEntered(g, rank, root, inEdges, outUse, alter, t, g1, gm, g', vals, oval);
    AllTreatedShape(g, rank, root, inEdges, outUse, alter, t, g1, gm, g', vals, oval);
    forall path, c: nat | PathFromTo(g, path, root, c) ensures RunPath(g1, path, p, r) == RunPath(g, path, p, r) {
      PathDescribed(g, rank, root, inEdges, outUse, alter, t, g1, gm, g', vals, oval, path, c, p, r);
    }
    var path := [root];
    assert path[..0] == [] && PathFromTo(g, path, root, root);
    EmptyPath(g, g1, p, r);
    WalkAlong(g, g1, rank, root, path, root, p, r);
  }

  lemma AllTreatedShape(g: Graph, rank: seq<nat>, root: nat, inEdges: seq<seq<nat>>, outUse: seq<set<nat>>, alter: bool, t: seq<Expr>,
                        g1: Graph, gm: Graph, g': Graph, vals: seq<Vals>, oval: seq<nat>)
    requires AllTreated(g, rank, root, inEdges, outUse, alter, t, g1, gm, g', vals, oval)
    ensures |g1| == |g| && Ranked(g1, rank) && forall c :: 0 <= c < |g| ==> SameShape(g[c], g1[c])
  {
    TreatedRanked(g, rank, root, inEdges, outUse, alter, t, g1, gm, g', vals, oval);
  }

  lemma EmptyPath(g: Graph, g': Graph, p: Packet, r: Regs)
    ensures RunPath(g, [], p, r) == RunPath(g', [], p, r) == r
  {
  }

  lemma NumberedWalkAll(g: Graph, rank: seq<nat>, root: nat, inEdges: seq<seq<nat>>, outUse: seq<set<nat>>, alter: bool, t: seq<Expr>,
                        g1: Graph, gm: Graph, g': Graph, vals: seq<Vals>, oval: seq<nat>)
    requires Entered(g, rank, root, inEdges) && Ranked(g1, rank) && |g1| == |g|
    requires PassInv(g, rank, root, inEdges, outUse, alter, t, g1, gm, g', vals, oval, Reach(g, rank, root))
    ensures AllKnown(g, inEdges, vals, Reach(g, rank, root)) ==>
      forall p, r :: Walk(g1, rank, root, p, r) == Walk(g, rank, root, p, r)
  {
    hide PassInv, AllKnown, Reach;
    if AllKnown(g, inEdges, vals, Reach(g, rank, root)) {
      forall p, r ensures Walk(g1, rank, root, p, r) == Walk(g, rank, root, p, r) {
        NumberedWalk(g, rank, root, inEdges, outUse, alter, t, g1, gm, g', vals, oval, p, r);
      }
    }
  }

  // ---------------------------------------------------------------------------------------
  // What the finished graph does
  // ---------------------------------------------------------------------------------------

  /** One entry per block. */
  ghost predicate Sized(g: Graph, inEdges: seq<seq<nat>>, outUse: seq<set<nat>>, g1: Graph, gm: Graph, g': Graph, vals: seq<Vals>) {
    && |inEdges| == |outUse| == |g1| == |gm| == |g'| == |vals| == |g| && forall c :: 0 <= c < |g| ==> InRange(g, inEdges[c])
  }

  /** Block c keeps what the blocks after it still use in the finished graph, though only outUse[c] was taken to be
      live. */
  ghost predicate SparedAt(g: Graph, rank: seq<nat>, inEdges: seq<seq<nat>>, outUse: seq<set<nat>>, alter: bool, t: seq<Expr>,
                           g1: Graph, gm: Graph, g': Graph, vals: seq<Vals>, c: nat)
    requires Sized(g, inEdges, outUse, g1, gm, g', vals) && Ranked(g', rank) && c < |g|
  {
    g[c].s.Ret? || Spares(g1[c], gm[c], EntryVals(g, vals, inEdges[c]), vals[c], outUse[c], alter, IsConst(t, vals[c][X_ATOM]), LiveOut(g', rank, c))
  }

  ghost predicate Spared(g: Graph, rank: seq<nat>, inEdges: seq<seq<nat>>, outUse: seq<set<nat>>, alter: bool, t: seq<Expr>,
                         g1: Graph, gm: Graph, g': Graph, vals: seq<Vals>, live: set<nat>)
  {
    && Sized(g, inEdges, outUse, g1, gm, g', vals) && Ranked(g', rank)
    && forall c :: c in live && c < |g| ==> SparedAt(g, rank, inEdges, outUse, alter, t, g1, gm, g', vals, c)
  }

  /** Block b is one whose rewritten branch goes astray in state r. */
  ghost predicate Astray(g: Graph, inEdges: seq<seq<nat>>, outUse: seq<set<nat>>, alter: bool, g1: Graph, vals: seq<Vals>, b: nat,
                         p: Packet, r: Regs)
    requires b < |g| == |inEdges| == |outUse| == |g1| == |vals| && InRange(g, inEdges[b])
  {
    && !Cleared(g1[b], outUse[b], EntryVals(g, vals, inEdges[b]), vals[b], alter)
    && Peephole.Misjudged(g1[b], outUse[b], p, r)
  }

  /** Control, entering block b in state r, passes no block in a state in which it goes astray. */
  ghost predicate WellJudged(g: Graph, rank: seq<nat>, inEdges: seq<seq<nat>>, outUse: seq<set<nat>>, alter: bool, g1: Graph,
                             vals: seq<Vals>, b: nat, p: Packet, r: Regs)
    requires Ranked(g, rank) && b < |g| == |inEdges| == |outUse| == |g1| == |vals| && forall c :: 0 <= c < |g| ==> InRange(g, inEdges[c])
    decreases rank[b]
  {
    g[b].s.Ret? ||
    (&& !Astray(g, inEdges, outUse, alter, g1, vals, b, p, r)
     && var r' := RunAll(g[b].stmts, p, r); WellJudged(g, rank, inEdges, outUse, alter, g1, vals, Choose(g[b], r'), p, r'))
  }

  /** Where a block keeps what is still used, it goes the same way exactly unless it goes astray. */
  lemma SparedStep(g: Graph, rank: seq<nat>, root: nat, inEdges: seq<seq<nat>>, outUse: seq<set<nat>>, alter: bool, t: seq<Expr>,
                   g1: Graph, gm: Graph, g': Graph, vals: seq<Vals>, oval: seq<nat>, b: nat, p: Packet, q: Regs)
    requires AllTreated(g, rank, root, inEdges, outUse, alter, t, g1, gm, g', vals, oval) && b in Reach(g, rank, root)
    requires Spared(g, rank, inEdges, outUse, alter, t, g1, gm, g', vals, Reach(g, rank, root)) && g[b].s.Jmp? && g'[b].s.Jmp?
    requires Table(t) && InTable(t, EntryVals(g, vals, inEdges[b])) && Consistent(t, EntryVals(g, vals, inEdges[b]), p, q)
    ensures var r1, r2 := RunAll(g[b].stmts, p, q), RunAll(g'[b].stmts, p, q);
      && (Choose(g'[b], r2) == Choose(g[b], r1) <==> !Astray(g, inEdges, outUse, alter, g1, vals, b, p, q))
      && Agree(r1, r2, LiveOut(g', rank, b))
  {
    hide AllTreated, EntryVals, Consistent, Table, InTable, OperandsKnown, KnownRegs, Spares, Reach, BlockDone, OperandNumber, IsConst, LiveOut,
      Run, Agree, Ranked;
    TreatedAt(g, rank, root, inEdges, outUse, alter, t, g1, gm, g', vals, oval, b);
    assert SparedAt(g, rank, inEdges, outUse, alter, t, g1, gm, g', vals, b);
    hide Spared;
    DoneAgrees(t, g[b], EntryVals(g, vals, inEdges[b]), outUse[b], alter, t, g1[b], gm[b], g'[b], vals[b], LiveOut(g', rank, b), p, q);
  }

  /** From every state in which control comes to b on some path, the packet passes the same blocks in both graphs exactly
      if it passes none that goes astray. */
  lemma {:induction false} TrailAlong(g: Graph, rank: seq<nat>, root: nat, inEdges: seq<seq<nat>>, outUse: seq<set<nat>>, alter: bool, t: seq<Expr>,
                                      g1: Graph, gm: Graph, g': Graph, vals: seq<Vals>, oval: seq<nat>, path: seq<nat>, b: nat, p: Packet, r: Regs)
    requires AllTreated(g, rank, root, inEdges, outUse, alter, t, g1, gm, g', vals, oval) && PathFromTo(g, path, root, b)
    requires Ranked(g, rank) && b < |g| && |path| > 0 && forall i :: 0 <= i < |path| ==> path[i] < |g|
    requires Spared(g, rank, inEdges, outUse, alter, t, g1, gm, g', vals, Reach(g, rank, root))
    ensures var q := RunPath(g, path[..|path| - 1], p, r);
      Trail(g', rank, b, p, q) == Trail(g, rank, b, p, q) <==> WellJudged(g, rank, inEdges, outUse, alter, g1, vals, b, p, q)
    decreases rank[b]
  {
    hide AllTreated, RunPath, Consistent, EntryVals, Table, InTable, Entered, Reach, Run, Agree, Spared, Astray, LiveOut, LiveIn, ShapeKept;
    PathDescribed(g, rank, root, inEdges, outUse, alter, t, g1, gm, g', vals, oval, path, b, p, r);
    SparedSizes(g, rank, inEdges, outUse, alter, t, g1, gm, g', vals, Reach(g, rank, root));
    KindKept(g, rank, root, inEdges, outUse, alter, t, g1, gm, g', vals, oval, b);
    var q := RunPath(g, path[..|path| - 1], p, r);
    if g[b].s.Jmp? {
      var r1, r2 := RunAll(g[b].stmts, p, q), RunAll(g'[b].stmts, p, q);
      SparedStep(g, rank, root, inEdges, outUse, alter, t, g1, gm, g', vals, oval, b, p, q);
      var c := Choose(g[b], r1);
      RankedAt(g, rank, b);
      TrailNext(g, rank, b, p, q);
      TrailNext(g', rank, b, p, q);
      if Choose(g'[b], r2) == c {
        LiveSucc(g', rank, b, c, r1, r2);
        TrailLive(g', rank, c, p, r1, r2);
        PathExtends(g, rank, path, root, b, c, p, r);
        TrailAlong(g, rank, root, inEdges, outUse, alter, t, g1, gm, g', vals, oval, path + [c], c, p, r);
      }
    }
  }

  lemma TrailNext(g: Graph, rank: seq<nat>, b: nat, p: Packet, q: Regs)
    requires Ranked(g, rank) && b < |g| && g[b].s.Jmp?
    ensures var r1 := RunAll(g[b].stmts, p, q); var c := Choose(g[b], r1);
      c < |g| && Trail(g, rank, b, p, q) == [b] + Trail(g, rank, c, p, r1) && Trail(g, rank, c, p, r1)[0] == c && Trail(g, rank, b, p, q)[1] == c
    ensures var r1 := RunAll(g[b].stmts, p, q); Trail(g, rank, b, p, q)[1..] == Trail(g, rank, Choose(g[b], r1), p, r1)
  {
    RankedAt(g, rank, b);
  }

  lemma PathExtends(g: Graph, rank: seq<nat>, path: seq<nat>, root: nat, b: nat, c: nat, p: Packet, r: Regs)
    requires Ranked(g, rank) && b < |g| && PathFromTo(g, path, root, b) && c in Succs(g, b)
    requires |path| > 0 && forall i :: 0 <= i < |path| ==> path[i] < |g|
    ensures var path' := path + [c];
      && PathFromTo(g, path', root, c) && c < |g| && (forall i :: 0 <= i < |path'| ==> path'[i] < |g|)
      && path'[..|path'| - 1] == path && RunPath(g, path, p, r) == RunAll(g[b].stmts, p, RunPath(g, path[..|path| - 1], p, r))
  {
    RankedAt(g, rank, b);
  }

  lemma SparedSizes(g: Graph, rank: seq<nat>, inEdges: seq<seq<nat>>, outUse: seq<set<nat>>, alter: bool, t: seq<Expr>,
                    g1: Graph, gm: Graph, g': Graph, vals: seq<Vals>, live: set<nat>)
    requires Spared(g, rank, inEdges, outUse, alter, t, g1, gm, g', vals, live)
    ensures Sized(g, inEdges, outUse, g1, gm, g', vals) && Ranked(g', rank)
  {
  }

  lemma KindKept(g: Graph, rank: seq<nat>, root: nat, inEdges: seq<seq<nat>>, outUse: seq<set<nat>>, alter: bool, t: seq<Expr>,
                 g1: Graph, gm: Graph, g': Graph, vals: seq<Vals>, oval: seq<nat>, b: nat)
    requires AllTreated(g, rank, root, inEdges, outUse, alter, t, g1, gm, g', vals, oval) && b < |g| == |g'| == |g1|
    ensures g'[b].s.Ret? == g[b].s.Ret? && (g[b].s.Ret? ==> g'[b].s == g[b].s)
  {
    TreatedShape(g, rank, root, inEdges, outUse, alter, t, g1, gm, g', vals, oval, b);
  }

  /** If every block keeps what is still used, a packet passes the same blocks in the finished graph exactly if it passes
      none that goes astray; and then it has the same result. */
  lemma FinishedTrail(g: Graph, rank: seq<nat>, root: nat, inEdges: seq<seq<nat>>, outUse: seq<set<nat>>, alter: bool, t: seq<Expr>,
                      g1: Graph, gm: Graph, g': Graph, vals: seq<Vals>, oval: seq<nat>, p: Packet, r: Regs)
    requires AllTreated(g, rank, root, inEdges, outUse, alter, t, g1, gm, g', vals, oval) && Ranked(g, rank) && root < |g|
    requires Spared(g, rank, inEdges, outUse, alter, t, g1, gm, g', vals, Reach(g, rank, root))
    ensures Sized(g, inEdges, outUse, g1, gm, g', vals) && Ranked(g', rank)
    ensures Trail(g', rank, root, p, r) == Trail(g, rank, root, p, r) <==>
      WellJudged(g, rank, inEdges, outUse, alter, g1, vals, root, p, r)
    ensures WellJudged(g, rank, inEdges, outUse, alter, g1, vals, root, p, r) ==>
      Walk(g', rank, root, p, r) == Walk(g, rank, root, p, r)
  {
    hide AllTreated, Spared, Trail, WellJudged, Walk, Reach;
    SparedSizes(g, rank, inEdges, outUse, alter, t, g1, gm, g', vals, Reach(g, rank, root));
    var path := [root];
    assert path[..0] == [] && PathFromTo(g, path, root, root);
    EmptyPath(g, g1, p, r);
    TrailAlong(g, rank, root, inEdges, outUse, alter, t, g1, gm, g', vals, oval, path, root, p, r);
    TrailResult(g, rank, root, p, r);
    TrailResult(g', rank, root, p, r);
    var trail := Trail(g, rank, root, p, r);
    KindKept(g, rank, root, inEdges, outUse, alter, t, g1, gm, g', vals, oval, trail[|trail| - 1]);
  }

  /** Every packet passes the same blocks in both graphs exactly if it passes none that goes astray, and then has the same
      result. */
  ghost predicate Followed(g: Graph, rank: seq<nat>, root: nat, inEdges: seq<seq<nat>>, outUse: seq<set<nat>>, alter: bool,
                           g1: Graph, gm: Graph, g': Graph, vals: seq<Vals>)
  {
    && Sized(g, inEdges, outUse, g1, gm, g', vals) && Ranked(g, rank) && Ranked(g', rank) && root < |g|
    && forall p, r ::
         && (Trail(g', rank, root, p, r) == Trail(g, rank, root, p, r) <==>
             WellJudged(g, rank, inEdges, outUse, alter, g1, vals, root, p, r))
         && (WellJudged(g, rank, inEdges, outUse, alter, g1, vals, root, p, r) ==>
             Walk(g', rank, root, p, r) == Walk(g, rank, root, p, r))
  }

  lemma FinishedFollowed(g: Graph, rank: seq<nat>, root: nat, inEdges: seq<seq<nat>>, outUse: seq<set<nat>>, alter: bool, t: seq<Expr>,
                         g1: Graph, gm: Graph, g': Graph, vals: seq<Vals>, oval: seq<nat>)
    requires Entered(g, rank, root, inEdges)
    requires PassInv(g, rank, root, inEdges, outUse, alter, t, g1, gm, g', vals, oval, Reach(g, rank, root))
    ensures AllKnown(g, inEdges, vals, Reach(g, rank, root)) && Spared(g, rank, inEdges, outUse, alter, t, g1, gm, g', vals, Reach(g, rank, root)) ==>
      Followed(g, rank, root, inEdges, outUse, alter, g1, gm, g', vals)
  {
    hide PassInv, AllKnown, Reach, Spared, Trail, Walk, WellJudged;
    if AllKnown(g, inEdges, vals, Reach(g, rank, root)) && Spared(g, rank, inEdges, outUse, alter, t, g1, gm, g', vals, Reach(g, rank, root)) {
      SparedSizes(g, rank, inEdges, outUse, alter, t, g1, gm, g', vals, Reach(g, rank, root));
      forall p, r
        ensures Trail(g', rank, root, p, r) == Trail(g, rank, root, p, r) <==> WellJudged(g, rank, inEdges, outUse, alter, g1, vals, root, p, r)
        ensures WellJudged(g, rank, inEdges, outUse, alter, g1, vals, root, p, r) ==> Walk(g', rank, root, p, r) == Walk(g, rank, root, p, r)
      {
        FinishedTrail(g, rank, root, inEdges, outUse, alter, t, g1, gm, g', vals, oval, p, r);
      }
    }
  }

  /** Where nothing may be altered, numbering changes nothing. */
  lemma Unaltered(g: Graph, rank: seq<nat>, root: nat, inEdges: seq<seq<nat>>, outUse: seq<set<nat>>, t: seq<Expr>,
                  g1: Graph, gm: Graph, g': Graph, vals: seq<Vals>, oval: seq<nat>)
    requires Entered(g, rank, root, inEdges)
    requires PassInv(g, rank, root, inEdges, outUse, false, t, g1, gm, g', vals, oval, Reach(g, rank, root))
    ensures g1 == g
  {
    assert |g1| == |g'| == |g|;
    hide PassInv, Entered, Reach;
    forall c | 0 <= c < |g| ensures g1[c] == g[c] {
      TreatedShape(g, rank, root, inEdges, outUse, false, t, g1, gm, g', vals, oval, c);
    }
  }
}
