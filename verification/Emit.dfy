/**
 Flattening the block graph into the instruction array, and why running the array is walking
 the graph.
 */
module Emit {
  import opened Machine
  import opened Flow

  type Offset8 = n: nat | n < 256

  /** One instruction of the array. Jump fields are distances from the next instruction. */
  datatype Insn =
    | Plain(s: Stmt)
    | Cond(cmp: Cmp, src: Src, k: Word, jt: Offset8, jf: Offset8)
    | Ja(dist: nat)
    | Return(k: Word)

  /** What a zeroed array cell decodes to. */
  const BLANK: Insn := Plain(LdImm(ZERO))

  datatype Outcome = FellOff | Returned(value: Word)

  /** Running the array from index pc. Every jump goes forward, so every run ends. */
  ghost function ExecFrom(prog: seq<Insn>, pc: nat, p: Packet, r: Regs): Outcome
    decreases |prog| - pc
  {
    if pc >= |prog| then FellOff
    else
      match prog[pc]
      case Plain(s) => ExecFrom(prog, pc + 1, p, Exec(s, p, r))
      case Cond(cmp, src, k, jt, jf) =>
        ExecFrom(prog, pc + 1 + (if Taken(Jmp(cmp, src, k), r) then jt else jf), p, r)
      case Ja(d) => ExecFrom(prog, pc + 1 + d, p, r)
      case Return(k) => Returned(k)
  }

  /** The array cells a block occupies: its statements, its branch, its inserted jumps. */
  ghost function Cells(g: Graph, longjt: seq<nat>, longjf: seq<nat>, b: nat): nat
    requires b < |g| == |longjt| == |longjf|
  {
    |Kept(g[b].stmts)| + 1 + longjt[b] + longjf[b]
  }

  // ---------------------------------------------------------------------------------------
  // Emission order
  // ---------------------------------------------------------------------------------------

  ghost predicate InRange(g: Graph, order: seq<nat>) {
    forall i :: 0 <= i < |order| ==> order[i] < |g|
  }

  /** The order in which blocks are emitted, last cell first: false side, true side, block. */
  ghost function PostOrder(g: Graph, rank: seq<nat>, b: nat, done: seq<nat>): (order: seq<nat>)
    requires Ranked(g, rank) && b < |g|
    ensures done <= order
    decreases rank[b]
  {
    if b in done then done
    else if g[b].s.Ret? then done + [b]
    else
      var f := PostOrder(g, rank, g[b].jf, done);
      PostOrder(g, rank, g[b].jt, f) + [b]
  }

  /** Successors come earlier in the order. */
  ghost predicate Closed(g: Graph, order: seq<nat>)
    requires WellFormed(g)
  {
    && InRange(g, order)
    && (forall i, j :: 0 <= i < j < |order| ==> order[i] != order[j])
    && (forall i :: 0 <= i < |order| && !g[order[i]].s.Ret? ==>
          g[order[i]].jt in order[..i] && g[order[i]].jf in order[..i])
  }

  lemma ClosedSnoc(g: Graph, order: seq<nat>, b: nat)
    requires WellFormed(g) && Closed(g, order) && b < |g| && b !in order
    requires !g[b].s.Ret? ==> g[b].jt in order && g[b].jf in order
    ensures Closed(g, order + [b])
  {
    var o := order + [b];
    forall i | 0 <= i < |o| && !g[o[i]].s.Ret?
      ensures g[o[i]].jt in o[..i] && g[o[i]].jf in o[..i]
    {
      assert o[..i] == order[..i];
      assert order[..|order|] == order;
    }
  }

  lemma ClosedAt(g: Graph, order: seq<nat>, i: nat)
    requires WellFormed(g) && Closed(g, order) && i < |order|
    ensures !g[order[i]].s.Ret? ==> g[order[i]].jt in order[..i] && g[order[i]].jf in order[..i]
  {
  }

  /** A later block of the order is neither an earlier one nor a successor of an earlier one. */
  lemma ClosedApart(g: Graph, order: seq<nat>, i: nat, m: nat)
    requires WellFormed(g) && Closed(g, order) && i < m < |order|
    ensures order[m] != order[i]
    ensures !g[order[i]].s.Ret? ==> g[order[i]].jt != order[m] && g[order[i]].jf != order[m]
  {
    ClosedAt(g, order, i);
    assert order[m] !in order[..i] by {
      assert forall j :: 0 <= j < i ==> order[j] != order[m];
    }
  }

  /** The order is a duplicate-free topological order of what was there and what b reaches. */
  lemma {:induction false} PostOrderClosed(g: Graph, rank: seq<nat>, b: nat, done: seq<nat>)
    requires Ranked(g, rank) && b < |g| && Closed(g, done)
    ensures Closed(g, PostOrder(g, rank, b, done))
    ensures forall c :: c in PostOrder(g, rank, b, done) <==> c in done || c in Reach(g, rank, b)
    decreases rank[b]
  {
    if b in done {
      ReachInClosed(g, rank, b, done);
    } else if g[b].s.Ret? {
      ClosedSnoc(g, done, b);
    } else {
      var f := PostOrder(g, rank, g[b].jf, done);
      PostOrderClosed(g, rank, g[b].jf, done);
      var t := PostOrder(g, rank, g[b].jt, f);
      PostOrderClosed(g, rank, g[b].jt, f);
      ClosedSnoc(g, t, b);
    }
  }

  lemma {:induction false} ReachInClosed(g: Graph, rank: seq<nat>, b: nat, done: seq<nat>)
    requires Ranked(g, rank) && b < |g| && Closed(g, done) && b in done
    ensures forall c :: c in Reach(g, rank, b) ==> c in done
    decreases rank[b]
  {
    if !g[b].s.Ret? {
      var i :| 0 <= i < |done| && done[i] == b;
      assert g[b].jt in done[..i] && g[b].jf in done[..i];
      ReachInClosed(g, rank, g[b].jt, done);
      ReachInClosed(g, rank, g[b].jf, done);
    }
  }

  // ---------------------------------------------------------------------------------------
  // Layout: where each block of the order lies
  // ---------------------------------------------------------------------------------------

  /** Cells taken by the first m blocks of the order. */
  ghost function Tail(g: Graph, longjt: seq<nat>, longjf: seq<nat>, order: seq<nat>, m: nat): nat
    requires |g| == |longjt| == |longjf| && InRange(g, order) && m <= |order|
  {
    if m == 0 then 0
    else Tail(g, longjt, longjf, order, m - 1) + Cells(g, longjt, longjf, order[m - 1])
  }

  lemma {:induction false} TailMonotone(g: Graph, lt: seq<nat>, lf: seq<nat>, order: seq<nat>, i: nat, m: nat)
    requires |g| == |lt| == |lf| && InRange(g, order) && i <= m <= |order|
    ensures Tail(g, lt, lf, order, i) <= Tail(g, lt, lf, order, m)
  {
    if i < m { TailMonotone(g, lt, lf, order, i, m - 1); }
  }

  /** Distance from the branch of the block at position i to the block at position j < i. */
  ghost function Dist(g: Graph, lt: seq<nat>, lf: seq<nat>, order: seq<nat>, i: nat, j: nat): int
    requires |g| == |lt| == |lf| && InRange(g, order) && j < i < |order|
  {
    Tail(g, lt, lf, order, i + 1) - Tail(g, lt, lf, order, j + 1) - |Kept(g[order[i]].stmts)| - 1
  }

  ghost predicate FlagsGrow(lt: seq<nat>, lf: seq<nat>, lt': seq<nat>, lf': seq<nat>) {
    && |lt| == |lf| == |lt'| == |lf'|
    && forall b :: 0 <= b < |lt| ==> lt[b] <= lt'[b] && lf[b] <= lf'[b]
  }

  lemma {:induction false} SpanMonotone(g: Graph, lt: seq<nat>, lf: seq<nat>, lt': seq<nat>, lf': seq<nat>,
                                        order: seq<nat>, i: nat, j: nat)
    requires |g| == |lt| && FlagsGrow(lt, lf, lt', lf') && InRange(g, order) && j <= i <= |order|
    ensures Tail(g, lt, lf, order, i) - Tail(g, lt, lf, order, j)
         <= Tail(g, lt', lf', order, i) - Tail(g, lt', lf', order, j)
  {
    if j < i { SpanMonotone(g, lt, lf, lt', lf', order, i - 1, j); }
  }

  /** A jump that was once too long stays too long: inserting jumps never shortens a distance. */
  lemma DistMonotone(g: Graph, lt: seq<nat>, lf: seq<nat>, lt': seq<nat>, lf': seq<nat>,
                     order: seq<nat>, i: nat, j: nat)
    requires |g| == |lt| && FlagsGrow(lt, lf, lt', lf') && InRange(g, order) && j < i < |order|
    ensures Dist(g, lt, lf, order, i, j) <= Dist(g, lt', lf', order, i, j)
  {
    SpanMonotone(g, lt, lf, lt', lf', order, i + 1, j + 1);
  }

  /** An inserted jump is only ever reserved for a branch whose distance needs it. */
  ghost predicate Justified(g: Graph, lt: seq<nat>, lf: seq<nat>, order: seq<nat>) {
    && |g| == |lt| == |lf| && InRange(g, order)
    && (forall b :: 0 <= b < |g| ==> lt[b] <= 1 && lf[b] <= 1)
    && (forall b :: 0 <= b < |g| && lt[b] == 1 ==> Needed(g, lt, lf, order, b, g[b].jt))
    && (forall b :: 0 <= b < |g| && lf[b] == 1 ==> Needed(g, lt, lf, order, b, g[b].jf))
  }

  ghost predicate Needed(g: Graph, lt: seq<nat>, lf: seq<nat>, order: seq<nat>, b: nat, c: int)
    requires |g| == |lt| == |lf| && InRange(g, order)
  {
    exists i, j :: 0 <= j < i < |order| && order[i] == b && order[j] == c && Dist(g, lt, lf, order, i, j) >= 256
  }

  lemma NeededMonotone(g: Graph, lt: seq<nat>, lf: seq<nat>, lt': seq<nat>, lf': seq<nat>,
                       order: seq<nat>, b: nat, c: int)
    requires |g| == |lt| && FlagsGrow(lt, lf, lt', lf') && InRange(g, order)
    requires Needed(g, lt, lf, order, b, c)
    ensures Needed(g, lt', lf', order, b, c)
  {
    var i, j :| 0 <= j < i < |order| && order[i] == b && order[j] == c && Dist(g, lt, lf, order, i, j) >= 256;
    DistMonotone(g, lt, lf, lt', lf', order, i, j);
  }

  // ---------------------------------------------------------------------------------------
  // Code of one block
  // ---------------------------------------------------------------------------------------

  /** Control arriving at index i ends up at index t, directly or over one inserted jump. */
  ghost predicate LandsAt(prog: seq<Insn>, i: nat, t: nat) {
    i == t || (i < |prog| && prog[i].Ja? && i + 1 + prog[i].dist == t)
  }

  ghost predicate StmtsAt(prog: seq<Insn>, at: nat, stmts: seq<Stmt>) {
    && at + |Kept(stmts)| <= |prog|
    && forall i :: at <= i < at + |Kept(stmts)| ==> prog[i] == Plain(Kept(stmts)[i - at])
  }

  /** The branch of block b lies at index br and lands on b's successors. */
  ghost predicate BranchAt(g: Graph, prog: seq<Insn>, offset: seq<nat>, b: nat, br: nat)
    requires WellFormed(g) && b < |g| == |offset|
  {
    && br < |prog|
    && match g[b].s
       case Ret(k) => prog[br] == Return(k)
       case Jmp(cmp, src, k) =>
         && prog[br].Cond?
         && prog[br].cmp == cmp && prog[br].src == src && prog[br].k == k
         && LandsAt(prog, br + 1 + prog[br].jt, offset[g[b].jt])
         && LandsAt(prog, br + 1 + prog[br].jf, offset[g[b].jf])
  }

  /** Block b's code lies at offset[b]: statements, then the branch. */
  ghost predicate CodeAt(g: Graph, prog: seq<Insn>, offset: seq<nat>, b: nat)
    requires WellFormed(g) && b < |g| == |offset|
  {
    && StmtsAt(prog, offset[b], g[b].stmts)
    && BranchAt(g, prog, offset, b, offset[b] + |Kept(g[b].stmts)|)
  }

  lemma StmtsAtFrame(prog: seq<Insn>, prog': seq<Insn>, at: nat, stmts: seq<Stmt>)
    requires StmtsAt(prog, at, stmts) && |prog'| == |prog|
    requires forall i :: 0 <= i < at + |Kept(stmts)| ==> prog'[i] == prog[i]
    ensures StmtsAt(prog', at, stmts)
  {
  }

  lemma CodeAtFrame(g: Graph, prog: seq<Insn>, offset: seq<nat>, prog': seq<Insn>, offset': seq<nat>, b: nat)
    requires WellFormed(g) && b < |g| == |offset| == |offset'| && CodeAt(g, prog, offset, b)
    requires |prog| == |prog'| && forall i :: offset[b] <= i < |prog| ==> prog[i] == prog'[i]
    requires offset[b] == offset'[b]
    requires !g[b].s.Ret? ==> offset[g[b].jt] == offset'[g[b].jt] && offset[g[b].jf] == offset'[g[b].jf]
    ensures CodeAt(g, prog', offset', b)
  {
  }

  /** Running the emitted statements of a block is running the block's list. */
  lemma {:induction false} ExecKept(prog: seq<Insn>, at: nat, stmts: seq<Stmt>, n: nat, p: Packet, r: Regs)
    requires n <= |stmts| && StmtsAt(prog, at, stmts[..n])
    ensures ExecFrom(prog, at, p, r) == ExecFrom(prog, at + |Kept(stmts[..n])|, p, Run(stmts, n, p, r))
  {
    if n > 0 {
      assert stmts[..n][..n - 1] == stmts[..n - 1];
      assert StmtsAt(prog, at, stmts[..n - 1]);
      ExecKept(prog, at, stmts, n - 1, p, r);
      if stmts[n - 1] != Nop {
        var last := at + |Kept(stmts[..n])| - 1;
        assert prog[last] == Plain(stmts[n - 1]);
      }
    }
  }

  lemma Landing(prog: seq<Insn>, i: nat, t: nat, p: Packet, r: Regs)
    requires LandsAt(prog, i, t)
    ensures ExecFrom(prog, i, p, r) == ExecFrom(prog, t, p, r)
  {
  }

  /** One block's code runs its statements and arrives at the successor the block chooses. */
  lemma BlockStep(g: Graph, prog: seq<Insn>, offset: seq<nat>, b: nat, p: Packet, r: Regs)
    requires WellFormed(g) && b < |g| == |offset| && CodeAt(g, prog, offset, b)
    ensures g[b].s.Ret? ==> ExecFrom(prog, offset[b], p, r) == Returned(g[b].s.k)
    ensures g[b].s.Jmp? ==>
      var r' := RunAll(g[b].stmts, p, r);
      ExecFrom(prog, offset[b], p, r) == ExecFrom(prog, offset[Choose(g[b], r')], p, r')
  {
    hide Kept, Compare, Run;
    var stmts := g[b].stmts;
    assert stmts[..|stmts|] == stmts;
    ExecKept(prog, offset[b], stmts, |stmts|, p, r);
    if g[b].s.Jmp? {
      var r' := RunAll(stmts, p, r);
      var br := offset[b] + |Kept(stmts)|;
      Landing(prog, br + 1 + prog[br].jt, offset[g[b].jt], p, r');
      Landing(prog, br + 1 + prog[br].jf, offset[g[b].jf], p, r');
    }
  }

  /** Flattening preserves meaning: entering a block's code gives what walking the graph gives. */
  lemma {:induction false} CodeMeansWalk(g: Graph, rank: seq<nat>, prog: seq<Insn>, offset: seq<nat>,
                                         b: nat, p: Packet, r: Regs)
    requires Ranked(g, rank) && b < |g| == |offset|
    requires forall c :: c in Reach(g, rank, b) ==> CodeAt(g, prog, offset, c)
    ensures ExecFrom(prog, offset[b], p, r) == Returned(Walk(g, rank, b, p, r))
    decreases rank[b]
  {
    BlockStep(g, prog, offset, b, p, r);
    if !g[b].s.Ret? {
      var r' := RunAll(g[b].stmts, p, r);
      CodeMeansWalk(g, rank, prog, offset, Choose(g[b], r'), p, r');
    }
  }

  // ---------------------------------------------------------------------------------------
  // The converter
  // ---------------------------------------------------------------------------------------

  ghost function AllCells(g: Graph, lt: seq<nat>, lf: seq<nat>): seq<nat>
    requires |g| == |lt| == |lf|
  {
    seq(|g|, (b: nat) requires b < |g| == |lt| == |lf| => Cells(g, lt, lf, b))
  }

  /** The cells needed by the blocks in s. */
  ghost function SizeSum(g: Graph, lt: seq<nat>, lf: seq<nat>, s: set<nat>): nat
    requires |g| == |lt| == |lf|
  {
    SumIn(AllCells(g, lt, lf), s, |g|)
  }

  lemma SizeSumAdd(g: Graph, lt: seq<nat>, lf: seq<nat>, s: set<nat>, b: nat)
    requires |g| == |lt| == |lf| && b < |g| && b !in s
    ensures SizeSum(g, lt, lf, s + {b}) == SizeSum(g, lt, lf, s) + Cells(g, lt, lf, b)
  {
    SumInAdd(AllCells(g, lt, lf), s, b, |g|);
  }

  ghost function Elems(order: seq<nat>): set<nat> {
    set b | b in order
  }

  lemma ElemsSnoc(order: seq<nat>, m: nat)
    requires m < |order|
    ensures Elems(order[..m + 1]) == Elems(order[..m]) + {order[m]}
  {
  }

  /** Laying the blocks of an order end to end takes the sum of their sizes. */
  lemma {:induction false} TailIsSizeSum(g: Graph, lt: seq<nat>, lf: seq<nat>, order: seq<nat>, m: nat)
    requires |g| == |lt| == |lf| && InRange(g, order) && m <= |order|
    requires forall i, j :: 0 <= i < j < |order| ==> order[i] != order[j]
    ensures Tail(g, lt, lf, order, m) == SizeSum(g, lt, lf, Elems(order[..m]))
  {
    if m == 0 {
      SumInEmpty(AllCells(g, lt, lf), |g|);
      assert Elems(order[..0]) == {};
    } else {
      TailIsSizeSum(g, lt, lf, order, m - 1);
      ElemsSnoc(order, m - 1);
      SizeSumAdd(g, lt, lf, Elems(order[..m - 1]), order[m - 1]);
    }
  }

  /** How many long-jump flags are still clear. */
  ghost function Clear(flags: seq<nat>): nat {
    if flags == [] then 0
    else Clear(flags[..|flags| - 1]) + (if flags[|flags| - 1] == 0 then 1 else 0)
  }

  lemma {:induction false} ClearRaise(flags: seq<nat>, b: nat)
    requires b < |flags| && flags[b] == 0
    ensures Clear(flags[b := 1]) == Clear(flags) - 1
  {
    var n := |flags| - 1;
    if b == n {
      assert flags[b := 1][..n] == flags[..n];
    } else {
      assert flags[b := 1][..n] == flags[..n][b := 1];
      ClearRaise(flags[..n], b);
    }
  }

  /** Exactly one clear flag was raised, and its branch is too long for a one-byte distance. */
  ghost predicate RaisedOne(g: Graph, lt: seq<nat>, lf: seq<nat>, lt': seq<nat>, lf': seq<nat>, order: seq<nat>)
    requires |g| == |lt| == |lf| && InRange(g, order)
  {
    exists b: nat ::
      && b < |g|
      && ((lt[b] == 0 && lt' == lt[b := 1] && lf' == lf && Needed(g, lt, lf, order, b, g[b].jt)) ||
          (lf[b] == 0 && lf' == lf[b := 1] && lt' == lt && Needed(g, lt, lf, order, b, g[b].jf)))
  }

  lemma RaiseKeepsJustified(g: Graph, lt: seq<nat>, lf: seq<nat>, lt': seq<nat>, lf': seq<nat>, order: seq<nat>)
    requires |g| == |lt| == |lf| && InRange(g, order) && RaisedOne(g, lt, lf, lt', lf', order)
    requires Justified(g, lt, lf, order)
    ensures |lt'| == |lf'| == |g| && Justified(g, lt', lf', order)
  {
    assert FlagsGrow(lt, lf, lt', lf');
    forall b | 0 <= b < |g| && lt'[b] == 1 ensures Needed(g, lt', lf', order, b, g[b].jt) {
      NeededMonotone(g, lt, lf, lt', lf', order, b, g[b].jt);
    }
    forall b | 0 <= b < |g| && lf'[b] == 1 ensures Needed(g, lt', lf', order, b, g[b].jf) {
      NeededMonotone(g, lt, lf, lt', lf', order, b, g[b].jf);
    }
  }

  /** The first m blocks of the order lie end to end at the end of the array, with their code. */
  ghost predicate Laid(g: Graph, lt: seq<nat>, lf: seq<nat>, offset: seq<nat>, prog: seq<Insn>,
                       order: seq<nat>, m: nat)
  {
    && WellFormed(g) && |g| == |lt| == |lf| == |offset| && InRange(g, order) && m <= |order|
    && |prog| == Tail(g, lt, lf, order, |order|)
    && (forall i :: 0 <= i < m ==> offset[order[i]] + Tail(g, lt, lf, order, i + 1) == |prog|)
    && Coded(g, offset, prog, order, m)
  }

  ghost predicate Coded(g: Graph, offset: seq<nat>, prog: seq<Insn>, order: seq<nat>, m: nat)
    requires WellFormed(g) && |g| == |offset| && InRange(g, order) && m <= |order|
  {
    forall i :: 0 <= i < m ==> CodeAt(g, prog, offset, order[i])
  }

  lemma LaidNone(g: Graph, lt: seq<nat>, lf: seq<nat>, offset: seq<nat>, prog: seq<Insn>, order: seq<nat>)
    requires WellFormed(g) && |g| == |lt| == |lf| == |offset| && InRange(g, order)
    requires |prog| == Tail(g, lt, lf, order, |order|)
    ensures Laid(g, lt, lf, offset, prog, order, 0) && Tail(g, lt, lf, order, 0) == 0
  {
  }

  lemma LaidAt(g: Graph, lt: seq<nat>, lf: seq<nat>, offset: seq<nat>, prog: seq<Insn>, order: seq<nat>, m: nat, i: nat)
    requires Laid(g, lt, lf, offset, prog, order, m) && i < m
    ensures WellFormed(g) && |g| == |lt| == |lf| == |offset| && InRange(g, order) && m <= |order| && order[i] < |g|
    ensures offset[order[i]] + Tail(g, lt, lf, order, i + 1) == |prog| && CodeAt(g, prog, offset, order[i])
    ensures m < |order| ==> order[m] < |g|
  {
  }

  lemma LaidTail(g: Graph, lt: seq<nat>, lf: seq<nat>, offset: seq<nat>, prog: seq<Insn>, order: seq<nat>, m: nat)
    requires Laid(g, lt, lf, offset, prog, order, |order|) && m <= |order|
    ensures |g| == |lt| == |lf| == |offset| && InRange(g, order) && Tail(g, lt, lf, order, 0) == 0
    ensures forall i :: 0 <= i < m ==> order[i] < |g|
    ensures m > 0 ==> offset[order[m - 1]] + Tail(g, lt, lf, order, m) == |prog|
    ensures m > 0 ==> Tail(g, lt, lf, order, m) == Tail(g, lt, lf, order, m - 1) + Cells(g, lt, lf, order[m - 1])
  {
  }

  /** Blocks laid end to end tile the array: every cell belongs to a block. */
  lemma {:induction false} LaidCovers(g: Graph, lt: seq<nat>, lf: seq<nat>, offset: seq<nat>, prog: seq<Insn>,
                                      order: seq<nat>, m: nat, cell: nat) returns (i: nat)
    requires Laid(g, lt, lf, offset, prog, order, |order|) && m <= |order|
    requires |prog| - Tail(g, lt, lf, order, m) <= cell < |prog|
    ensures i < m && offset[order[i]] <= cell < offset[order[i]] + Cells(g, lt, lf, order[i])
  {
    hide Laid, Cells;
    LaidTail(g, lt, lf, offset, prog, order, m);
    i := m - 1;
    if |prog| - Tail(g, lt, lf, order, m - 1) <= cell {
      hide Tail;
      i := LaidCovers(g, lt, lf, offset, prog, order, m - 1, cell);
    }
  }

  /** And to no other: blocks do not overlap. */
  lemma LaidDisjoint(g: Graph, lt: seq<nat>, lf: seq<nat>, offset: seq<nat>, prog: seq<Insn>, order: seq<nat>, i: nat, j: nat)
    requires Laid(g, lt, lf, offset, prog, order, |order|) && i < j < |order|
    ensures offset[order[j]] + Cells(g, lt, lf, order[j]) <= offset[order[i]]
  {
    hide Laid, CodeAt, Cells;
    LaidAt(g, lt, lf, offset, prog, order, |order|, i);
    LaidAt(g, lt, lf, offset, prog, order, |order|, j);
    TailMonotone(g, lt, lf, order, i + 1, j);
  }

  /** A laid successor lies past the block's own cells, at the distance the layout predicts. */
  lemma SuccessorDistance(g: Graph, lt: seq<nat>, lf: seq<nat>, offset: seq<nat>, prog: seq<Insn>,
                          order: seq<nat>, m: nat, c: int, at: nat) returns (j: nat)
    requires Laid(g, lt, lf, offset, prog, order, m) && m < |order| && c in order[..m]
    requires at + Tail(g, lt, lf, order, m + 1) == |prog|
    ensures j < m && order[j] == c
    ensures at + Cells(g, lt, lf, order[m]) <= offset[c]
    ensures offset[c] - (at + |Kept(g[order[m]].stmts)|) - 1 == Dist(g, lt, lf, order, m, j)
  {
    j :| 0 <= j < m && order[j] == c;
    TailMonotone(g, lt, lf, order, j + 1, m);
  }

  /** There is room for the next block. */
  lemma NextFits(g: Graph, lt: seq<nat>, lf: seq<nat>, offset: seq<nat>, prog: seq<Insn>, order: seq<nat>, m: nat)
    requires Laid(g, lt, lf, offset, prog, order, m) && m < |order|
    ensures InRange(g, order)
    ensures Tail(g, lt, lf, order, m + 1) <= |prog| == Tail(g, lt, lf, order, |order|)
    ensures Tail(g, lt, lf, order, m + 1) == Tail(g, lt, lf, order, m) + Cells(g, lt, lf, order[m])
  {
    TailMonotone(g, lt, lf, order, m + 1, |order|);
  }

  /** Code written below a laid block, or at another block's offset, does not disturb it. */
  lemma LaidFrame(g: Graph, lt: seq<nat>, lf: seq<nat>, offset: seq<nat>, prog: seq<Insn>,
                  order: seq<nat>, m: nat, at: nat, prog': seq<Insn>, i: nat)
    requires Laid(g, lt, lf, offset, prog, order, m) && Closed(g, order) && i < m < |order|
    requires at + Tail(g, lt, lf, order, m + 1) == |prog| == |prog'|
    requires forall i :: at + Cells(g, lt, lf, order[m]) <= i < |prog| ==> prog'[i] == prog[i]
    ensures CodeAt(g, prog', offset[order[m] := at], order[i])
  {
    hide CodeAt, Kept, Closed, Laid, Cells;
    LaidAt(g, lt, lf, offset, prog, order, m, i);
    ClosedApart(g, order, i, m);
    TailMonotone(g, lt, lf, order, i + 1, m);
    CodeAtFrame(g, prog, offset, prog', offset[order[m] := at], order[i]);
  }

  /** Putting one more block's code below the laid ones lays one more block. */
  lemma LaidExtend(g: Graph, lt: seq<nat>, lf: seq<nat>, offset: seq<nat>, prog: seq<Insn>,
                   order: seq<nat>, m: nat, at: nat, prog': seq<Insn>)
    requires Laid(g, lt, lf, offset, prog, order, m) && Closed(g, order) && m < |order|
    requires at + Tail(g, lt, lf, order, m + 1) == |prog| == |prog'|
    requires forall i :: at + Cells(g, lt, lf, order[m]) <= i < |prog| ==> prog'[i] == prog[i]
    requires CodeAt(g, prog', offset[order[m] := at], order[m])
    ensures Laid(g, lt, lf, offset[order[m] := at], prog', order, m + 1)
  {
    hide CodeAt, Kept, Closed;
    var offset' := offset[order[m] := at];
    forall i | 0 <= i < m ensures CodeAt(g, prog', offset', order[i]) && order[i] != order[m] {
      LaidFrame(g, lt, lf, offset, prog, order, m, at, prog', i);
      ClosedApart(g, order, i, m);
    }
    assert Coded(g, offset', prog', order, m + 1);
  }

  lemma PostOrderDone(g: Graph, rank: seq<nat>, p: nat, done: seq<nat>)
    requires Ranked(g, rank) && p < |g| && p in Elems(done)
    ensures PostOrder(g, rank, p, done) == done
  {
  }

  /** How the emission order of a block splits into its false side, its true side and itself. */
  lemma PostOrderSplit(g: Graph, rank: seq<nat>, p: nat, order: seq<nat>, m: nat) returns (f: nat, t: nat)
    requires Ranked(g, rank) && p < |g| && m <= |order| && p !in Elems(order[..m])
    requires PostOrder(g, rank, p, order[..m]) <= order
    ensures m <= f <= t < |order| && order[t] == p
    ensures order[..t + 1] == PostOrder(g, rank, p, order[..m])
    ensures Elems(order[..m]) <= Elems(order[..f]) <= Elems(order[..t])
    ensures g[p].s.Ret? ==> t == f == m
    ensures g[p].s.Jmp? ==> order[..f] == PostOrder(g, rank, g[p].jf, order[..m])
    ensures g[p].s.Jmp? ==> order[..t] == PostOrder(g, rank, g[p].jt, order[..f])
  {
    if g[p].s.Ret? {
      f, t := m, m;
    } else {
      f := |PostOrder(g, rank, g[p].jf, order[..m])|;
      t := |PostOrder(g, rank, g[p].jt, PostOrder(g, rank, g[p].jf, order[..m]))|;
      assert order[..t] == PostOrder(g, rank, g[p].jt, PostOrder(g, rank, g[p].jf, order[..m]));
      assert order[..f] == order[..t][..f];
    }
  }

  ghost predicate NoFlags(flags: seq<nat>) {
    forall b :: 0 <= b < |flags| ==> flags[b] == 0
  }

  /** Where no jump is reserved, none is without need. */
  lemma NoFlagsJustified(g: Graph, lt: seq<nat>, lf: seq<nat>, order: seq<nat>)
    requires |lt| == |lf| == |g| && NoFlags(lt) && NoFlags(lf) && InRange(g, order)
    ensures Justified(g, lt, lf, order)
  {
  }

  class Converter {
    const g: Graph
    ghost const rank: seq<nat>
    var marks: Marks
    var longjt: seq<nat>
    var longjf: seq<nat>
    var offset: seq<nat>
    var fstart: array<Insn>
    var ftail: nat

    ghost predicate Valid()
      reads this
    {
      && Ranked(g, rank)
      && marks.Valid(|g|)
      && |longjt| == |longjf| == |offset| == |g|
      && (forall b :: 0 <= b < |g| ==> longjt[b] <= 1 && longjf[b] <= 1)
    }

    /** No jump is reserved yet. */
    constructor (graph: Graph, ghost order: seq<nat>)
      requires Ranked(graph, order)
      ensures Valid() && g == graph && rank == order && NoFlags(longjt) && NoFlags(longjf)
    {
      g, rank := graph, order;
      marks := Marks(seq(|graph|, i => 0), 0);
      longjt, longjf, offset := seq(|graph|, i => 0), seq(|graph|, i => 0), seq(|graph|, i => 0);
      fstart, ftail := new Insn[0](_ => BLANK), 0;
    }

    method Allocate(n: nat)
      requires Valid()
      modifies this`fstart, this`ftail
      ensures Valid() && fresh(fstart) && fstart.Length == ftail == n
    {
      fstart := new Insn[n](_ => BLANK);
      ftail := n;
    }

    /** Counts the array cells needed by the blocks that p reaches and that are not yet marked. */
    method CountStmts(p: int) returns (n: nat)
      requires Valid() && (p == NIL || 0 <= p < |g|)
      requires p != NIL ==> Finished(g, rank, marks.Set(), p)
      modifies this`marks
      ensures Valid()
      ensures marks.Set() == old(marks).Set() + (if p == NIL then {} else Reach(g, rank, p))
      ensures n + SizeSum(g, longjt, longjf, old(marks).Set()) == SizeSum(g, longjt, longjf, marks.Set())
      decreases if p == NIL then 0 else rank[p] + 1
    {
      if p == NIL || marks.Has(p) { return 0; }
      ghost var before := marks.Set();
      marks := marks.Add(p);
      SizeSumAdd(g, longjt, longjf, before, p);
      RankedAt(g, rank, p);
      if !g[p].s.Ret? { FinishedDescend(g, rank, before, p); }
      hide Ranked, Finished;
      var t := CountStmts(g[p].jt);
      var f := CountStmts(g[p].jf);
      var slen := Slength(g[p].stmts);
      n := slen + t + f + 1 + longjt[p] + longjf[p];
    }

    /** Writes a block's statements from index at on, leaving out the deleted ones. */
    method EmitStmts(stmts: seq<Stmt>, at: nat) returns (dst: nat)
      requires at + |Kept(stmts)| <= fstart.Length
      modifies fstart
      ensures dst == at + |Kept(stmts)|
      ensures StmtsAt(fstart[..], at, stmts)
      ensures forall i :: 0 <= i < fstart.Length && !(at <= i < dst) ==> fstart[i] == old(fstart[i])
    {
      dst := at;
      for n := 0 to |stmts|
        invariant dst == at + |Kept(stmts[..n])|
        invariant |Kept(stmts[..n])| <= |Kept(stmts)|
        invariant forall i :: at <= i < dst ==> fstart[i] == Plain(Kept(stmts[..n])[i - at])
        invariant forall i :: 0 <= i < fstart.Length && !(at <= i < dst) ==> fstart[i] == old(fstart[i])
      {
        KeptPrefix(stmts, n + 1);
        assert stmts[..n + 1][..n] == stmts[..n];
        if stmts[n] != Nop {
          fstart[dst] := Plain(stmts[n]);
          dst := dst + 1;
        }
      }
      assert stmts[..|stmts|] == stmts;
    }

    /** Writes the branch of block p at index br, with the jumps it needs after it. Fails after
        raising a flag when a distance does not fit and no jump was reserved for it. */
    method EmitBranch(p: nat, br: nat) returns (ok: bool)
      requires Valid() && p < |g| && br + longjt[p] + longjf[p] < fstart.Length
      requires g[p].s.Jmp? ==>
        br + longjt[p] + longjf[p] < offset[g[p].jt] && br + longjt[p] + longjf[p] < offset[g[p].jf]
      modifies this`longjt, this`longjf, fstart
      ensures Valid()
      ensures forall i :: 0 <= i < fstart.Length && !(br <= i <= br + old(longjt[p]) + old(longjf[p]))
                ==> fstart[i] == old(fstart[i])
      ensures ok ==> longjt == old(longjt) && longjf == old(longjf)
      ensures ok ==> BranchAt(g, fstart[..], offset, p, br)
      ensures !ok ==> g[p].s.Jmp?
      ensures !ok ==>
        ((old(longjt[p]) == 0 && longjt == old(longjt)[p := 1] && longjf == old(longjf)
          && offset[g[p].jt] - br - 1 >= 256) ||
         (old(longjf[p]) == 0 && longjf == old(longjf)[p := 1] && longjt == old(longjt)
          && offset[g[p].jf] - br - 1 >= 256))
    {
      if g[p].s.Ret? {
        fstart[br] := Return(g[p].s.k);
        return true;
      }
      var jt: Offset8, jf: Offset8 := 0, 0;
      var extrajmps := 0;
      var off := offset[g[p].jt] - br - 1;
      if off >= 256 {
        if longjt[p] == 0 {
          longjt := longjt[p := 1];
          return false;
        }
        jt := extrajmps;
        extrajmps := extrajmps + 1;
        fstart[br + extrajmps] := Ja(off - extrajmps);
      } else {
        jt := off;
      }
      off := offset[g[p].jf] - br - 1;
      if off >= 256 {
        if longjf[p] == 0 {
          longjf := longjf[p := 1];
          return false;
        }
        jf := extrajmps;
        extrajmps := extrajmps + 1;
        fstart[br + extrajmps] := Ja(off - extrajmps);
      } else {
        jf := off;
      }
      fstart[br] := Cond(g[p].s.cmp, g[p].s.src, g[p].s.k, jt, jf);
      return true;
    }

    ghost predicate LaidOut(order: seq<nat>, m: nat)
      reads this`longjt, this`longjf, this`offset, this`fstart, this`ftail, fstart
    {
      && Laid(g, longjt, longjf, offset, fstart[..], order, m)
      && ftail + Tail(g, longjt, longjf, order, m) == fstart.Length
    }

    /** Emits block p, the block at position m of the order, below the m blocks already laid. */
    method EmitBlock(p: nat, ghost order: seq<nat>, ghost m: nat) returns (ok: bool)
      requires Valid() && p < |g| && Closed(g, order) && m < |order| && order[m] == p && LaidOut(order, m)
      modifies this`ftail, this`offset, this`longjt, this`longjf, fstart
      ensures Valid()
      ensures ok ==> longjt == old(longjt) && longjf == old(longjf) && LaidOut(order, m + 1)
      ensures !ok ==> RaisedOne(g, old(longjt), old(longjf), longjt, longjf, order)
    {
      hide Kept, BranchAt, StmtsAt, Closed, Laid, Tail, InRange;
      ghost var prog, lt, lf, offs := fstart[..], longjt, longjf, offset;
      NextFits(g, lt, lf, offs, prog, order, m);
      var slen := Slength(g[p].stmts);
      ftail := ftail - (slen + 1 + longjt[p] + longjf[p]);
      ghost var at := ftail;
      assert at + Tail(g, lt, lf, order, m + 1) == |prog|;
      ghost var t, f := 0, 0;
      if !g[p].s.Ret? {
        ClosedAt(g, order, m);
        t := SuccessorDistance(g, lt, lf, offs, prog, order, m, g[p].jt, at);
        f := SuccessorDistance(g, lt, lf, offs, prog, order, m, g[p].jf, at);
      }
      offset := offset[p := ftail];
      var br := EmitStmts(g[p].stmts, ftail);
      ghost var prog1 := fstart[..];
      ok := EmitBranch(p, br);
      if ok {
        StmtsAtFrame(prog1, fstart[..], at, g[p].stmts);
        LaidExtend(g, lt, lf, offs, prog, order, m, at, fstart[..]);
      } else if longjt != lt {
        assert Dist(g, lt, lf, order, m, t) >= 256;
        assert Needed(g, lt, lf, order, p, g[p].jt);
      } else {
        assert Dist(g, lt, lf, order, m, f) >= 256;
        assert Needed(g, lt, lf, order, p, g[p].jf);
      }
    }

    /** Emits the blocks that p reaches and that are not yet laid, in post-order. */
    method ConvertCodeR(p: int, ghost order: seq<nat>, ghost m: nat) returns (ok: bool, ghost m': nat)
      requires Valid() && (p == NIL || 0 <= p < |g|)
      requires Closed(g, order) && m <= |order| && LaidOut(order, m)
      requires p != NIL ==> PostOrder(g, rank, p, order[..m]) <= order
      requires Elems(order[..m]) <= marks.Set()
      requires p != NIL ==> forall q :: q in marks.Set() && rank[q] <= rank[p] ==> q in Elems(order[..m])
      modifies this, fstart
      ensures Valid() && fstart == old(fstart) && marks.cur == old(marks).cur
      ensures ok ==> longjt == old(longjt) && longjf == old(longjf)
      ensures ok ==> m <= m' <= |order| && LaidOut(order, m')
      ensures ok ==> order[..m'] == if p == NIL then order[..m] else PostOrder(g, rank, p, order[..m])
      ensures old(marks).Set() <= marks.Set()
      ensures ok ==> Elems(order[..m']) <= marks.Set() <= old(marks).Set() + Elems(order[..m'])
      ensures !ok ==> RaisedOne(g, old(longjt), old(longjf), longjt, longjf, order)
      decreases if p == NIL then 0 else rank[p] + 1
    {
      hide RaisedOne, Coded, Tail, PostOrder, Laid, LaidOut, Closed, Elems, Ranked, WellFormed, Reach;
      if p == NIL { return true, m; }
      ghost var before := marks.Set();
      if marks.Has(p) {
        PostOrderDone(g, rank, p, order[..m]);
        return true, m;
      }
      marks := marks.Add(p);
      RankedAt(g, rank, p);
      ghost var f, t := PostOrderSplit(g, rank, p, order, m);
      ok, m' := ConvertCodeR(g[p].jf, order, m);
      if !ok { return; }
      assert m' == f;
      ok, m' := ConvertCodeR(g[p].jt, order, m');
      if !ok { return; }
      assert m' == t;
      ElemsSnoc(order, m');
      ok := EmitBlock(p, order, m');
      m' := m' + 1;
    }

    /** Sizes the array for the current flags. */
    method Prepare(root: nat) returns (len: nat)
      requires Valid() && root < |g|
      modifies this`marks, this`fstart, this`ftail
      ensures Valid() && fresh(fstart) && fstart.Length == ftail == len && marks.Set() == {}
      ensures len == SizeSum(g, longjt, longjf, Reach(g, rank, root))
    {
      FinishedNone(g, rank, root);
      hide Reach, SizeSum, Ranked, Finished;
      marks := marks.UnmarkAll();
      len := CountStmts(root);
      NoneMarked(g, longjt, longjf);
      assert marks.Set() == Reach(g, rank, root);
      Allocate(len);
      marks := marks.UnmarkAll();
    }

    /** One try: sizes the array for the current flags and fills it, or raises a flag. */
    method TryConvert(root: nat, ghost order: seq<nat>) returns (ok: bool, len: nat)
      requires Valid() && root < |g| && order == PostOrder(g, rank, root, [])
      modifies this
      ensures Valid() && fresh(fstart) && fstart.Length == len
      ensures ok ==> longjt == old(longjt) && longjf == old(longjf) && LaidOut(order, |order|)
      ensures ok ==> len == SizeSum(g, longjt, longjf, Reach(g, rank, root))
      ensures InRange(g, order)
      ensures !ok ==> RaisedOne(g, old(longjt), old(longjf), longjt, longjf, order)
    {
      OrderFacts(g, longjt, longjf, rank, root);
      hide Reach, PostOrder, RaisedOne, Tail, SizeSum, Laid, Ranked, WellFormed, Elems, InRange;
      len := Prepare(root);
      assert order[..0] == [];
      LaidNone(g, longjt, longjf, offset, fstart[..], order);
      ghost var m';
      ok, m' := ConvertCodeR(root, order, 0);
      assert ok ==> m' == |order|;
    }

    /** Flattens the graph from root. On return the array means what the graph means, its blocks
        tile it, and every reserved jump is needed. */
    method IcodeToFcode(root: nat) returns (fp: array<Insn>, len: nat)
      requires Valid() && root < |g|
      modifies this
      ensures Valid() && fp == fstart && fresh(fp) && fp.Length == len && offset[root] == 0
      ensures len == SizeSum(g, longjt, longjf, Reach(g, rank, root))
      ensures Laid(g, longjt, longjf, offset, fp[..], PostOrder(g, rank, root, []), |PostOrder(g, rank, root, [])|)
      ensures FlagsGrow(old(longjt), old(longjf), longjt, longjf)
      ensures old(Justified(g, longjt, longjf, PostOrder(g, rank, root, []))) ==>
                Justified(g, longjt, longjf, PostOrder(g, rank, root, []))
      ensures forall p, r :: ExecFrom(fp[..], 0, p, r) == Returned(Walk(g, rank, root, p, r))
    {
      hide Justified, Laid, RaisedOne, PostOrder, Reach, ExecFrom, Walk;
      ghost var order := PostOrder(g, rank, root, []);
      while true
        invariant Valid()
        invariant FlagsGrow(old(longjt), old(longjf), longjt, longjf)
        invariant old(Justified(g, longjt, longjf, order)) ==> Justified(g, longjt, longjf, order)
        decreases Clear(longjt) + Clear(longjf)
      {
        ghost var lt, lf := longjt, longjf;
        var ok;
        ok, len := TryConvert(root, order);
        if ok {
          fp := fstart;
          Meaning(root, order);
          return;
        }
        FlagsShrink(g, lt, lf, longjt, longjf, order);
      }
    }

    lemma Meaning(root: nat, order: seq<nat>)
      requires Valid() && root < |g| && order == PostOrder(g, rank, root, [])
      requires LaidOut(order, |order|)
      ensures offset[root] == 0
      ensures forall p, r :: ExecFrom(fstart[..], 0, p, r) == Returned(Walk(g, rank, root, p, r))
    {
      PostOrderClosed(g, rank, root, []);
      assert order[|order| - 1] == root;
      var prog := fstart[..];
      forall c | c in Reach(g, rank, root) ensures CodeAt(g, prog, offset, c) {
        assert c in order;
        assert Coded(g, offset, prog, order, |order|);
      }
      forall p, r ensures ExecFrom(prog, 0, p, r) == Returned(Walk(g, rank, root, p, r)) {
        CodeMeansWalk(g, rank, prog, offset, root, p, r);
      }
    }
  }

  lemma NoneMarked(g: Graph, lt: seq<nat>, lf: seq<nat>)
    requires |g| == |lt| == |lf|
    ensures SizeSum(g, lt, lf, {}) == 0
  {
    SumInEmpty(AllCells(g, lt, lf), |g|);
  }

  /** The whole emission order takes the cells counted for the reachable blocks. */
  lemma OrderFacts(g: Graph, lt: seq<nat>, lf: seq<nat>, rank: seq<nat>, root: nat)
    requires Ranked(g, rank) && root < |g| == |lt| == |lf|
    ensures var order := PostOrder(g, rank, root, []);
      && Closed(g, order) && Elems(order[..0]) == {}
      && Tail(g, lt, lf, order, |order|) == SizeSum(g, lt, lf, Reach(g, rank, root))
  {
    var order := PostOrder(g, rank, root, []);
    PostOrderClosed(g, rank, root, []);
    assert Elems(order[..|order|]) == Reach(g, rank, root);
    TailIsSizeSum(g, lt, lf, order, |order|);
  }

  /** A failed try raises a flag, so tries end; raised flags keep every reserved jump needed. */
  lemma FlagsShrink(g: Graph, lt: seq<nat>, lf: seq<nat>, lt': seq<nat>, lf': seq<nat>, order: seq<nat>)
    requires |g| == |lt| == |lf| && InRange(g, order) && RaisedOne(g, lt, lf, lt', lf', order)
    ensures FlagsGrow(lt, lf, lt', lf')
    ensures Clear(lt') + Clear(lf') < Clear(lt) + Clear(lf)
    ensures Justified(g, lt, lf, order) ==> Justified(g, lt', lf', order)
  {
    var b: nat :| b < |g|
      && ((lt[b] == 0 && lt' == lt[b := 1] && lf' == lf && Needed(g, lt, lf, order, b, g[b].jt)) ||
          (lf[b] == 0 && lf' == lf[b := 1] && lt' == lt && Needed(g, lt, lf, order, b, g[b].jf)));
    if lt != lt' { ClearRaise(lt, b); } else { ClearRaise(lf, b); }
    if Justified(g, lt, lf, order) { RaiseKeepsJustified(g, lt, lf, lt', lf', order); }
  }

  /** Flattens any acyclic graph from its root. The array means what the graph means; the blocks tile it, those of order
      from the end on, with the cells that the flags say; and every reserved jump is needed. */
  method Flatten(graph: Graph, root: nat, ghost rank: seq<nat>)
    returns (fp: array<Insn>, len: nat, ghost lt: seq<nat>, ghost lf: seq<nat>, ghost offset: seq<nat>, ghost order: seq<nat>)
    requires Ranked(graph, rank) && root < |graph|
    ensures fresh(fp) && fp.Length == len && order == PostOrder(graph, rank, root, [])
    ensures Laid(graph, lt, lf, offset, fp[..], order, |order|) && Justified(graph, lt, lf, order)
    ensures |lt| == |lf| == |graph| && len == SizeSum(graph, lt, lf, Reach(graph, rank, root))
    ensures forall p, r :: ExecFrom(fp[..], 0, p, r) == Returned(Walk(graph, rank, root, p, r))
  {
    order := PostOrder(graph, rank, root, []);
    OrderFacts(graph, seq(|graph|, i => 0), seq(|graph|, i => 0), rank, root);
    hide Justified, Laid, PostOrder, Reach, ExecFrom, Walk, SizeSum, Tail, Elems;
    var conv := new Converter(graph, rank);
    NoFlagsJustified(graph, conv.longjt, conv.longjf, order);
    fp, len := conv.IcodeToFcode(root);
    lt, lf, offset := conv.longjt, conv.longjf, conv.offset;
  }
}
