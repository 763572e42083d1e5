/**
 Merging equal blocks: the last step of the optimizer.
 */
module Intern {
  import opened Machine
  import opened Flow
  import Dominance

  /** Two blocks that branch alike, to the same successors, and keep the same statements. */
  ghost predicate Same(a: Block, b: Block) {
    a.s == b.s && a.jt == b.jt && a.jf == b.jf && Kept(a.stmts) == Kept(b.stmts)
  }

  /** Whether two lists keep the same statements, skipping deleted ones on both sides. */
  method EqSlist(x: seq<Stmt>, y: seq<Stmt>) returns (eq: bool)
    ensures eq <==> Kept(x) == Kept(y)
  {
    var i, j := 0, 0;
    while true
      invariant 0 <= i <= |x| && 0 <= j <= |y|
      invariant Kept(x[..i]) == Kept(y[..j])
      decreases |x| - i
    {
      i := SkipNops(x, i);
      j := SkipNops(y, j);
      KeptPrefix(x, i);
      KeptPrefix(y, j);
      assert x[..|x|] == x && y[..|y|] == y;
      if i < |x| { KeptNext(x, i); }
      if j < |y| { KeptNext(y, j); }
      if i == |x| { return j == |y|; }
      if j == |y| { return false; }
      if x[i] != y[j] {
        assert Kept(x)[|Kept(x[..i])|] == x[i] && Kept(y)[|Kept(x[..i])|] == y[j];
        return false;
      }
      i, j := i + 1, j + 1;
    }
  }

  method SkipNops(x: seq<Stmt>, start: nat) returns (i: nat)
    requires start <= |x|
    ensures start <= i <= |x| && (i < |x| ==> x[i] != Nop)
    ensures Kept(x[..i]) == Kept(x[..start])
  {
    i := start;
    while i < |x| && x[i] == Nop
      invariant start <= i <= |x| && Kept(x[..i]) == Kept(x[..start])
    {
      assert x[..i + 1][..i] == x[..i];
      i := i + 1;
    }
  }

  lemma KeptNext(x: seq<Stmt>, i: nat)
    requires i < |x| && x[i] != Nop
    ensures Kept(x[..i + 1]) == Kept(x[..i]) + [x[i]] <= Kept(x)
  {
    KeptPrefix(x, i + 1);
    assert x[..i + 1][..i] == x[..i];
  }

  method EqBlk(a: Block, b: Block) returns (eq: bool)
    ensures eq <==> Same(a, b)
  {
    if a.s == b.s && a.jt == b.jt && a.jf == b.jf {
      eq := EqSlist(a.stmts, b.stmts);
    } else {
      eq := false;
    }
  }

  // ---------------------------------------------------------------------------------------
  // Why redirecting edges to equal blocks preserves meaning
  // ---------------------------------------------------------------------------------------

  /** g' is g with some edges redirected to blocks equal to their old successors. */
  ghost predicate Redirected(g: Graph, g': Graph)
    requires WellFormed(g)
  {
    && |g'| == |g|
    && forall b :: 0 <= b < |g| ==>
         && g'[b].s == g[b].s && g'[b].stmts == g[b].stmts
         && if g[b].s.Ret? then g'[b] == g[b]
            else Stands(g, g[b].jt, g'[b].jt) && Stands(g, g[b].jf, g'[b].jf)
  }

  /** c' can stand for c. */
  ghost predicate Stands(g: Graph, c: int, c': int)
    requires 0 <= c < |g|
  {
    0 <= c' < |g| && (c' == c || Same(g[c], g[c']))
  }

  /** Equal blocks mean the same. */
  lemma SameWalk(g: Graph, level: seq<nat>, c: nat, c': nat, p: Packet, r: Regs)
    requires Leveled(g, level) && Ranked(g, level) && c < |g| && Stands(g, c, c')
    ensures level[c] == level[c'] && Walk(g, level, c, p, r) == Walk(g, level, c', p, r)
  {
    RunKept(g[c].stmts, p, r);
    RunKept(g[c'].stmts, p, r);
  }

  /** Redirecting keeps levels, hence acyclicity. */
  lemma RedirectedLeveled(g: Graph, g': Graph, level: seq<nat>)
    requires Leveled(g, level) && Redirected(g, g')
    ensures Leveled(g', level)
  {
  }

  /** Redirecting edges to equal blocks changes no packet's result, from any block. */
  lemma {:induction false} RedirectedWalk(g: Graph, g': Graph, level: seq<nat>, b: nat, p: Packet, r: Regs)
    requires Leveled(g, level) && Redirected(g, g') && b < |g|
    requires Ranked(g, level) && Ranked(g', level)
    ensures Walk(g', level, b, p, r) == Walk(g, level, b, p, r)
    decreases level[b]
  {
    if !g[b].s.Ret? {
      var r' := RunAll(g[b].stmts, p, r);
      var c, c' := Choose(g[b], r'), Choose(g'[b], r');
      RedirectedWalk(g, g', level, c', p, r');
      SameWalk(g, level, c, c', p, r');
    }
  }

  // ---------------------------------------------------------------------------------------
  // Why merging ends
  // ---------------------------------------------------------------------------------------

  /** The sum of all successor indices of the first n blocks. */
  ghost function SuccSum(g: Graph, n: nat): nat
    requires WellFormed(g) && n <= |g|
  {
    if n == 0 then 0
    else SuccSum(g, n - 1) + (if g[n - 1].s.Ret? then 0 else g[n - 1].jt + g[n - 1].jf)
  }

  lemma {:induction false} SuccSumBound(g: Graph, n: nat)
    requires WellFormed(g) && n <= |g|
    ensures SuccSum(g, n) <= n * (2 * |g|)
  {
    if n > 0 {
      SuccSumBound(g, n - 1);
      assert n * (2 * |g|) == (n - 1) * (2 * |g|) + 2 * |g|;
    }
  }

  /** Redirecting only ever raises successor indices. */
  ghost predicate Raised(g: Graph, g': Graph) {
    && |g| == |g'|
    && forall b :: 0 <= b < |g| ==> g'[b].s == g[b].s && g[b].jt <= g'[b].jt && g[b].jf <= g'[b].jf
  }

  lemma {:induction false} SuccSumRaised(g: Graph, g': Graph, n: nat)
    requires WellFormed(g) && WellFormed(g') && Raised(g, g') && n <= |g|
    ensures SuccSum(g, n) <= SuccSum(g', n)
    ensures (exists b :: 0 <= b < n && (g[b].jt != g'[b].jt || g[b].jf != g'[b].jf)) ==> SuccSum(g, n) < SuccSum(g', n)
  {
    if n > 0 { SuccSumRaised(g, g', n - 1); }
  }

  // ---------------------------------------------------------------------------------------
  // Why nothing is left to merge
  // ---------------------------------------------------------------------------------------

  /** No block reachable from the root equals the root: it would be its own descendant. */
  lemma RootIsUnique(g: Graph, rank: seq<nat>, root: nat, c: nat)
    requires Ranked(g, rank) && root < |g| && c in Reach(g, rank, root) && c != root
    ensures !Same(g[root], g[c])
  {
    assert c in Reach(g, rank, g[root].jt) || c in Reach(g, rank, g[root].jf);
  }

  /** Every link leads to an equal block further on. */
  ghost predicate LinksSound(g: Graph, link: seq<int>) {
    && |link| == |g|
    && forall i :: 0 <= i < |g| && link[i] != NIL ==> i < link[i] < |g| && Same(g[i], g[link[i]])
  }

  /** Links lead from live blocks to live blocks. */
  ghost predicate LinksLive(link: seq<int>, live: set<nat>) {
    forall i :: 0 <= i < |link| && link[i] != NIL ==> i in live && link[i] >= 0 && link[i] in live
  }

  /** From index from on, a live block that equals a later live block has a link. */
  ghost predicate LinksComplete(g: Graph, link: seq<int>, live: set<nat>, from: nat)
    requires |link| == |g|
  {
    forall i, j :: from <= i < j < |g| && i in live && j in live && Same(g[i], g[j]) ==> link[i] != NIL
  }

  ghost predicate Links(g: Graph, link: seq<int>, live: set<nat>, from: nat) {
    LinksSound(g, link) && LinksComplete(g, link, live, from)
  }

  lemma NoLinks(g: Graph, link: seq<int>, live: set<nat>)
    requires |g| > 0 && link == seq(|g|, i => NIL)
    ensures Links(g, link, live, |g| - 1) && LinksLive(link, live)
  {
  }

  lemma LinksDown(g: Graph, link: seq<int>, live: set<nat>, i: nat)
    requires Links(g, link, live, i + 1) && i !in live
    ensures Links(g, link, live, i)
  {
  }

  /** No edge leads to a block with a link. */
  ghost predicate Settled(g: Graph, link: seq<int>)
    requires WellFormed(g) && |link| == |g|
  {
    forall b :: 0 <= b < |g| && !g[b].s.Ret? ==> link[g[b].jt] == NIL && link[g[b].jf] == NIL
  }

  /** Once no edge leads to a linked block, the reachable blocks are pairwise different. */
  lemma SettledIsUnique(g: Graph, rank: seq<nat>, root: nat, link: seq<int>, i: nat, j: nat)
    requires Ranked(g, rank) && root < |g| && |link| == |g|
    requires Links(g, link, Reach(g, rank, root), 0) && Settled(g, link)
    requires i < j && i in Reach(g, rank, root) && j in Reach(g, rank, root)
    ensures !Same(g[i], g[j])
  {
    if i == root {
      RootIsUnique(g, rank, root, j);
    } else if j == root {
      RootIsUnique(g, rank, root, i);
    } else {
      var b := Dominance.ReachPredecessor(g, rank, root, i);
    }
  }

  lemma AllUnique(g: Graph, rank: seq<nat>, root: nat, link: seq<int>)
    requires Ranked(g, rank) && root < |g| && |link| == |g|
    requires Links(g, link, Reach(g, rank, root), 0) && Settled(g, link)
    ensures forall i, j :: i in Reach(g, rank, root) && j in Reach(g, rank, root) && i != j ==> !Same(g[i], g[j])
  {
    forall i, j | i in Reach(g, rank, root) && j in Reach(g, rank, root) && i != j
      ensures !Same(g[i], g[j])
    {
      if i < j { SettledIsUnique(g, rank, root, link, i, j); }
      else { SettledIsUnique(g, rank, root, link, j, i); }
    }
  }

  /** A block with each successor replaced by its link. */
  ghost function Follow(b: Block, link: seq<int>): Block
    requires b.s.Ret? || (0 <= b.jt < |link| && 0 <= b.jf < |link|)
  {
    if b.s.Ret? then b
    else b.(jt := if link[b.jt] != NIL then link[b.jt] else b.jt,
            jf := if link[b.jf] != NIL then link[b.jf] else b.jf)
  }

  /** f is block b with its edges redirected to equal blocks further on, or b itself exactly if no edge leads to a linked
      block. */
  ghost predicate Followed(g: Graph, link: seq<int>, b: nat, f: Block)
    requires WellFormed(g) && LinksSound(g, link) && b < |g|
  {
    && f.s == g[b].s && f.stmts == g[b].stmts && g[b].jt <= f.jt && g[b].jf <= f.jf
    && (g[b].s.Ret? ==> f == g[b])
    && (g[b].s.Jmp? ==> Stands(g, g[b].jt, f.jt) && Stands(g, g[b].jf, f.jf))
    && (g[b].s.Jmp? ==> (f == g[b] <==> link[g[b].jt] == NIL && link[g[b].jf] == NIL))
    && (f != g[b] ==> f.jt != g[b].jt || f.jf != g[b].jf)
  }

  lemma FollowOne(g: Graph, link: seq<int>, b: nat)
    requires WellFormed(g) && LinksSound(g, link) && b < |g|
    ensures Followed(g, link, b, Follow(g[b], link))
  {
    hide Same;
  }

  /** Following links redirects edges to equal blocks further on. */
  lemma FollowRedirects(g: Graph, g': Graph, link: seq<int>)
    requires WellFormed(g) && LinksSound(g, link) && |g'| == |g|
    requires forall b :: 0 <= b < |g| ==> g'[b] == Follow(g[b], link)
    ensures Redirected(g, g') && Raised(g, g')
    ensures Settled(g, link) <==> g' == g
    ensures g' != g ==> exists b :: 0 <= b < |g| && (g'[b].jt != g[b].jt || g'[b].jf != g[b].jf)
  {
    hide LinksSound, Stands, Follow, Followed;
    forall b | 0 <= b < |g| ensures Followed(g, link, b, g'[b]) { FollowOne(g, link, b); }
    FollowedAll(g, g', link);
    FollowedSettles(g, g', link);
  }

  lemma FollowedAll(g: Graph, g': Graph, link: seq<int>)
    requires WellFormed(g) && LinksSound(g, link) && |g'| == |g|
    requires forall b :: 0 <= b < |g| ==> Followed(g, link, b, g'[b])
    ensures Redirected(g, g') && Raised(g, g')
  {
    hide Stands, LinksSound;
    forall b | 0 <= b < |g| ensures Followed(g, link, b, g'[b]) {
    }
  }

  lemma FollowedSettles(g: Graph, g': Graph, link: seq<int>)
    requires WellFormed(g) && LinksSound(g, link) && |g'| == |g|
    requires forall b :: 0 <= b < |g| ==> Followed(g, link, b, g'[b])
    ensures |link| == |g| && (Settled(g, link) <==> g' == g)
    ensures g' != g ==> exists b :: 0 <= b < |g| && (g'[b].jt != g[b].jt || g'[b].jf != g[b].jf)
  {
    LinksSize(g, link);
    hide Stands, LinksSound;
    if Settled(g, link) {
      forall b | 0 <= b < |g| ensures g'[b] == g[b] { assert Followed(g, link, b, g'[b]); }
    }
    forall b | 0 <= b < |g| && g'[b] == g[b] && !g[b].s.Ret? ensures link[g[b].jt] == NIL && link[g[b].jf] == NIL {
      assert Followed(g, link, b, g'[b]);
    }
    if g' != g {
      var b :| 0 <= b < |g| && g'[b] != g[b];
      assert Followed(g, link, b, g'[b]);
    }
  }

  lemma LinksSize(g: Graph, link: seq<int>)
    requires LinksSound(g, link)
    ensures |link| == |g|
  {
  }

  class Interner {
    var blocks: Graph
    var link: seq<int>
    var marks: Marks
    const root: nat
    ghost const level: seq<nat>

    ghost predicate Valid()
      reads this
    {
      && Leveled(blocks, level) && Ranked(blocks, level)
      && |link| == |blocks| && marks.Valid(|blocks|) && root < |blocks|
    }

    constructor (graph: Graph, start: nat, ghost lv: seq<nat>)
      requires Leveled(graph, lv) && start < |graph|
      ensures Valid() && blocks == graph && root == start && level == lv
    {
      blocks, root, level := graph, start, lv;
      link := seq(|graph|, i => NIL);
      marks := Marks(seq(|graph|, i => 0), 0);
    }

    /** Marks what p reaches. */
    method MakeMarks(p: nat)
      requires Valid() && p < |blocks|
      requires Finished(blocks, level, marks.Set(), p)
      modifies this`marks
      ensures Valid() && marks.Set() == old(marks).Set() + Reach(blocks, level, p)
      decreases level[p]
    {
      hide Reach, Leveled, Ranked, Finished;
      ghost var before := marks.Set();
      FinishedAt(blocks, level, before, p);
      RankedAt(blocks, level, p);
      if !marks.Has(p) {
        marks := marks.Add(p);
        if !blocks[p].s.Ret? {
          FinishedDescend(blocks, level, before, p);
          MakeMarks(blocks[p].jt);
          MakeMarks(blocks[p].jf);
        }
      }
    }

    /** Links each live block to an equal live block further on, if there is one. */
    method FindLinks()
      requires Valid()
      modifies this`link
      ensures Valid() && Links(blocks, link, marks.Set(), 0) && LinksLive(link, marks.Set())
    {
      hide Leveled, Ranked, Links, LinksLive, Same;
      link := seq(|blocks|, i => NIL);
      NoLinks(blocks, link, marks.Set());
      var i := |blocks| - 1;
      while i != 0
        invariant 0 <= i < |blocks| && Valid()
        invariant Links(blocks, link, marks.Set(), i) && LinksLive(link, marks.Set())
        invariant forall k :: 0 <= k < i ==> link[k] == NIL
      {
        i := i - 1;
        if marks.Has(i) { LinkOne(i); } else { LinksDown(blocks, link, marks.Set(), i); }
      }
    }

    /** Finds the first live block after i that equals it, and the end of that block's link. */
    method LinkOne(i: nat)
      requires Valid() && i < |blocks| && i in marks.Set()
      requires Links(blocks, link, marks.Set(), i + 1) && LinksLive(link, marks.Set()) && link[i] == NIL
      modifies this`link
      ensures Valid() && Links(blocks, link, marks.Set(), i) && LinksLive(link, marks.Set())
      ensures forall k :: 0 <= k < |link| && k != i ==> link[k] == old(link)[k]
    {
      hide Leveled, Ranked;
      var j := i + 1;
      while j < |blocks|
        invariant i < j <= |blocks| && link == old(link)
        invariant forall k :: i < k < j && k in marks.Set() ==> !Same(blocks[i], blocks[k])
      {
        if marks.Has(j) {
          var eq := EqBlk(blocks[i], blocks[j]);
          if eq {
            link := link[i := if link[j] != NIL then link[j] else j];
            break;
          }
        }
        j := j + 1;
      }
    }

    /** Redirects the edges of block i that lead to a linked block. */
    method RedirectOne(i: nat) returns (moved: bool)
      requires i < |blocks|
      requires blocks[i].s.Ret? || (0 <= blocks[i].jt < |link| && 0 <= blocks[i].jf < |link|)
      modifies this`blocks
      ensures blocks == old(blocks)[i := Follow(old(blocks)[i], link)]
      ensures !moved <==> old(blocks)[i].s.Ret? || (link[old(blocks)[i].jt] == NIL && link[old(blocks)[i].jf] == NIL)
    {
      moved := false;
      var b := blocks[i];
      if b.s.Ret? { return; }
      if link[b.jt] != NIL {
        moved := true;
        blocks := blocks[i := blocks[i].(jt := link[b.jt])];
      }
      if link[b.jf] != NIL {
        moved := true;
        blocks := blocks[i := blocks[i].(jf := link[b.jf])];
      }
    }

    /** Redirects every edge that leads to a linked block. */
    method Redirect() returns (done: bool)
      requires Valid() && Links(blocks, link, marks.Set(), 0)
      modifies this`blocks
      ensures |blocks| == |old(blocks)| && Redirected(old(blocks), blocks) && Raised(old(blocks), blocks)
      ensures done ==> blocks == old(blocks) && Settled(blocks, link)
      ensures !done ==>
        exists b :: 0 <= b < |blocks| && (blocks[b].jt != old(blocks)[b].jt || blocks[b].jf != old(blocks)[b].jf)
    {
      done := true;
      ghost var g := blocks;
      assert WellFormed(g);
      hide LinksSound, LinksComplete, Leveled, Ranked, Redirected, Raised, Follow;
      for i := 0 to |blocks|
        invariant |blocks| == |g|
        invariant forall b :: i <= b < |g| ==> blocks[b] == g[b]
        invariant forall b :: 0 <= b < i ==> blocks[b] == Follow(g[b], link)
        invariant done == forall b :: 0 <= b < i && !g[b].s.Ret? ==> link[g[b].jt] == NIL && link[g[b].jf] == NIL
      {
        WellFormedAt(g, i);
        var moved := RedirectOne(i);
        if moved { done := false; }
      }
      assert done == Settled(g, link);
      FollowRedirects(g, blocks, link);
    }

    /** One round: links equal live blocks and redirects edges to them. */
    method Round() returns (done: bool)
      requires Valid()
      modifies this
      ensures Valid() && |blocks| == |old(blocks)|
      ensures forall b, p, r :: 0 <= b < |blocks| ==>
                Walk(blocks, level, b, p, r) == Walk(old(blocks), level, b, p, r)
      ensures done ==> Links(blocks, link, Reach(blocks, level, root), 0) && Settled(blocks, link)
      ensures !done ==> SuccSum(old(blocks), |old(blocks)|) < SuccSum(blocks, |blocks|) <= |blocks| * (2 * |blocks|)
    {
      hide Reach, Leveled, Links, Settled, Raised, Redirected, Walk, SuccSum, Finished;
      marks := marks.UnmarkAll();
      FinishedNone(blocks, level, root);
      MakeMarks(root);
      assert marks.Set() == Reach(blocks, level, root);
      FindLinks();
      ghost var g := blocks;
      done := Redirect();
      if !done { RoundFacts(g, blocks, level); }
    }

    /** Merges equal blocks until none are left. No packet's result changes, from any block, and
        on return any two distinct reachable blocks differ. */
    method InternBlocks()
      requires Valid()
      modifies this
      ensures Valid() && |blocks| == |old(blocks)|
      ensures forall b, p, r :: 0 <= b < |blocks| ==>
                Walk(blocks, level, b, p, r) == Walk(old(blocks), level, b, p, r)
      ensures forall i, j :: i in Reach(blocks, level, root) && j in Reach(blocks, level, root) && i != j ==>
                !Same(blocks[i], blocks[j])
    {
      hide Reach, Leveled, Links, Settled, Walk, SuccSum;
      while true
        invariant Valid() && |blocks| == |old(blocks)|
        invariant forall b, p, r :: 0 <= b < |blocks| ==>
                    Walk(blocks, level, b, p, r) == Walk(old(blocks), level, b, p, r)
        decreases |blocks| * (2 * |blocks|) - SuccSum(blocks, |blocks|)
      {
        var done := Round();
        if done {
          AllUnique(blocks, level, root, link);
          return;
        }
      }
    }
  }

  /** What one round keeps, and that it makes progress. */
  lemma RoundFacts(g: Graph, g': Graph, level: seq<nat>)
    requires Leveled(g, level) && Redirected(g, g') && Raised(g, g')
    requires exists b :: 0 <= b < |g| && (g'[b].jt != g[b].jt || g'[b].jf != g[b].jf)
    ensures Leveled(g', level) && Ranked(g', level) && Ranked(g, level)
    ensures forall b, p, r :: 0 <= b < |g| ==> Walk(g', level, b, p, r) == Walk(g, level, b, p, r)
    ensures SuccSum(g, |g|) < SuccSum(g', |g'|) <= |g| * (2 * |g|)
  {
    LeveledIsRanked(g, level);
    RedirectedLeveled(g, g', level);
    LeveledIsRanked(g', level);
    SuccSumRaised(g, g', |g|);
    SuccSumBound(g', |g'|);
    forall b, p, r | 0 <= b < |g| ensures Walk(g', level, b, p, r) == Walk(g, level, b, p, r) {
      RedirectedWalk(g, g', level, b, p, r);
    }
  }

  // ---------------------------------------------------------------------------------------
  // Any acyclic graph
  // ---------------------------------------------------------------------------------------

  /** The length of the longest path from b to a leaf. */
  ghost function Height(g: Graph, rank: seq<nat>, b: nat): nat
    requires Ranked(g, rank) && b < |g|
    decreases rank[b]
  {
    if g[b].s.Ret? then 0 else 1 + Max(Height(g, rank, g[b].jt), Height(g, rank, g[b].jf))
  }

  /** Every acyclic graph has levels. */
  lemma LevelsExist(g: Graph, rank: seq<nat>) returns (level: seq<nat>)
    requires Ranked(g, rank)
    ensures Leveled(g, level)
  {
    level := seq(|g|, (b: nat) requires b < |g| => Height(g, rank, b));
    forall b | 0 <= b < |g|
      ensures level[b] == if g[b].s.Ret? then 0 else 1 + Max(level[g[b].jt], level[g[b].jf])
    {
      RankedAt(g, rank, b);
    }
  }

  /** Merges the equal blocks of any acyclic graph. No packet's result changes, from any block, and any two distinct
      blocks that control can then reach differ. */
  method MergeEqual(graph: Graph, root: nat, ghost rank: seq<nat>) returns (g': Graph, ghost level: seq<nat>)
    requires Ranked(graph, rank) && root < |graph|
    ensures |g'| == |graph| && Ranked(g', level)
    ensures forall b, p, r :: 0 <= b < |g'| ==> Walk(g', level, b, p, r) == Walk(graph, rank, b, p, r)
    ensures forall i, j :: i in Reach(g', level, root) && j in Reach(g', level, root) && i != j ==> !Same(g'[i], g'[j])
  {
    level := LevelsExist(graph, rank);
    LeveledIsRanked(graph, level);
    hide Reach, Leveled, Ranked, Walk, Same;
    var interner := new Interner(graph, root, level);
    interner.InternBlocks();
    g' := interner.blocks;
    forall b, p, r | 0 <= b < |g'| ensures Walk(g', level, b, p, r) == Walk(graph, rank, b, p, r) {
      WalkAnyRank(graph, level, rank, b, p, r);
    }
  }
}
