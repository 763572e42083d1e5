/**
 Removing stores that nothing reads.
 */
module DeadStores {
  import opened Machine
  import opened Flow
  import opened Liveness
  import opened Rewrite

  /** What happens first to a register in a stretch of statements. */
  datatype Fate = Untouched | Used | Redefined

  /** What happens first to register a among statements i to n. A statement uses before it defines. */
  ghost function FateOf(stmts: seq<Stmt>, i: nat, n: nat, a: nat): Fate
    requires n <= |stmts|
  {
    if n <= i then Untouched
    else
      var f := FateOf(stmts, i, n - 1, a);
      if f != Untouched then f
      else if a in Uses(stmts[n - 1]) then Used
      else if AtomDef(stmts[n - 1]) == a then Redefined
      else Untouched
  }

  /** Whether the contents of a before statement i matter, when the registers of exit matter at
      the end. */
  ghost predicate Needed(stmts: seq<Stmt>, i: nat, a: nat, exit: set<nat>) {
    var f := FateOf(stmts, i, |stmts|, a);
    f == Used || (f == Untouched && a in exit)
  }

  /** A statement is dead if what it defines is not needed after it. */
  ghost predicate Dead(stmts: seq<Stmt>, i: nat, exit: set<nat>)
    requires i < |stmts|
  {
    stmts[i] != Nop && !Needed(stmts, i + 1, Target(stmts[i]), exit)
  }

  lemma {:induction false} FateCons(stmts: seq<Stmt>, i: nat, n: nat, a: nat)
    requires i < n <= |stmts|
    ensures FateOf(stmts, i, n, a) ==
      if a in Uses(stmts[i]) then Used
      else if AtomDef(stmts[i]) == a then Redefined
      else FateOf(stmts, i + 1, n, a)
  {
    if i + 1 < n { FateCons(stmts, i, n - 1, a); }
  }

  /** res is stmts with exactly the dead statements deleted. */
  ghost predicate DeadRemoved(stmts: seq<Stmt>, res: seq<Stmt>, exit: set<nat>) {
    && |res| == |stmts|
    && forall i :: 0 <= i < |stmts| ==> res[i] == if Dead(stmts, i, exit) then Nop else stmts[i]
  }

  /** The last definition of a register of want, if nothing uses it any more, is one of a register of exit. */
  ghost predicate KeepsLast(stmts: seq<Stmt>, exit: set<nat>, want: set<nat>) {
    forall i :: 0 <= i < |stmts| && stmts[i] != Nop && Target(stmts[i]) in want && FateOf(stmts, i + 1, |stmts|, Target(stmts[i])) == Untouched ==>
      Target(stmts[i]) in exit
  }

  /** Then deleting what is dead if exit matters at the end deletes nothing more than if want mattered too. */
  lemma DeadRemovedFor(stmts: seq<Stmt>, res: seq<Stmt>, exit: set<nat>, want: set<nat>)
    requires DeadRemoved(stmts, res, exit) && KeepsLast(stmts, exit, want)
    ensures DeadRemoved(stmts, res, exit + want)
  {
    hide FateOf;
    forall i | 0 <= i < |stmts| ensures Dead(stmts, i, exit) == Dead(stmts, i, exit + want) {
    }
  }

  /** Deleting dead statements keeps, after every statement, the registers needed from there on. */
  lemma {:induction false} DeadRemovedRun(stmts: seq<Stmt>, res: seq<Stmt>, exit: set<nat>, n: nat, p: Packet, r: Regs)
    requires DeadRemoved(stmts, res, exit) && n <= |stmts|
    ensures forall a :: 0 <= a < N_ATOMS && Needed(stmts, n, a, exit) ==> Run(stmts, n, p, r)[a] == Run(res, n, p, r)[a]
  {
    if n > 0 {
      DeadRemovedRun(stmts, res, exit, n - 1, p, r);
      var r1, r2, s := Run(stmts, n - 1, p, r), Run(res, n - 1, p, r), stmts[n - 1];
      forall a | 0 <= a < N_ATOMS && Needed(stmts, n, a, exit)
        ensures Run(stmts, n, p, r)[a] == Run(res, n, p, r)[a]
      {
        if s != Nop && !Dead(stmts, n - 1, exit) {
          forall u | u in Uses(s) && u < N_ATOMS ensures r1[u] == r2[u] { FateCons(stmts, n - 1, |stmts|, u); }
          UsesSuffice(s, p, r1, r2);
        }
        if AtomDef(s) != a { FateCons(stmts, n - 1, |stmts|, a); }
      }
    }
  }

  /** Deleting dead statements changes neither the branch nor any register live on exit. */
  lemma DeadRemovedAgrees(b: Block, res: seq<Stmt>, out: set<nat>, p: Packet, r: Regs)
    requires DeadRemoved(b.stmts, res, out + BranchUses(b.s))
    ensures StepAgrees(b, b.(stmts := res), out, p, r)
    ensures b.s.Jmp? ==> Taken(b.s, RunAll(res, p, r)) == Taken(b.s, RunAll(b.stmts, p, r))
    ensures b.s.Jmp? ==> Operand(b.s, RunAll(res, p, r)) == Operand(b.s, RunAll(b.stmts, p, r))
  {
    var exit := out + BranchUses(b.s);
    var n := |b.stmts|;
    DeadRemovedRun(b.stmts, res, exit, n, p, r);
    var r1, r2 := RunAll(b.stmts, p, r), RunAll(res, p, r);
    forall a | a in exit && a < N_ATOMS ensures r1[a] == r2[a] { assert Needed(b.stmts, n, a, exit); }
    if b.s.Jmp? {
      BranchUsesSuffice(b.s, r1, r2);
      assert b.s.src == SrcX ==> X_ATOM in exit;
    }
  }

  /** The table of the last definition of each register that nothing has used since. */
  ghost predicate LastOk(stmts: seq<Stmt>, last: seq<int>, n: nat)
    requires n <= |stmts|
  {
    && |last| == N_ATOMS
    && (forall a :: 0 <= a < N_ATOMS && last[a] >= 0 ==> last[a] < n && AtomDef(stmts[last[a]]) == a)
    && (forall i :: 0 <= i < n && stmts[i] != Nop ==>
          (FateOf(stmts, i + 1, n, Target(stmts[i])) == Untouched <==> last[Target(stmts[i])] == i))
  }

  /** res has deleted exactly the statements whose register was redefined before any use. */
  ghost predicate Overwritten(stmts: seq<Stmt>, res: seq<Stmt>, n: nat)
    requires n <= |stmts|
  {
    && |res| == |stmts|
    && (forall i :: n <= i < |stmts| ==> res[i] == stmts[i])
    && (forall i :: 0 <= i < n ==>
          res[i] == if stmts[i] != Nop && FateOf(stmts, i + 1, n, Target(stmts[i])) == Redefined then Nop else stmts[i])
  }

  /** Forgets the pending definitions of the registers an atom stands for. */
  function Forget(last: seq<int>, atom: int): (l: seq<int>)
    requires |last| == N_ATOMS && -1 <= atom <= AX_ATOM
    ensures |l| == N_ATOMS
    ensures forall a :: 0 <= a < N_ATOMS ==> l[a] == if a in Atoms(atom) then -1 else last[a]
  {
    if atom < 0 then last
    else if atom == AX_ATOM then last[X_ATOM := -1][A_ATOM := -1]
    else last[atom := -1]
  }

  /** One statement of the scan. */
  method DeadStmt(stmts: seq<Stmt>, n: nat, last: seq<int>, res: seq<Stmt>) returns (last': seq<int>, res': seq<Stmt>)
    requires n < |stmts| && LastOk(stmts, last, n) && Overwritten(stmts, res, n)
    ensures LastOk(stmts, last', n + 1) && Overwritten(stmts, res', n + 1)
  {
    var s := stmts[n];
    last', res' := Forget(last, AtomUse(s)), res;
    var atom := AtomDef(s);
    if atom >= 0 {
      if last'[atom] >= 0 { res' := res'[last'[atom] := Nop]; }
      last' := last'[atom := n];
    }
  }

  /** Deletes the pending definitions of registers that are not live on exit. */
  method DropPending(stmts: seq<Stmt>, last: seq<int>, scanned: seq<Stmt>, out: set<nat>) returns (res: seq<Stmt>)
    requires |last| == N_ATOMS && |scanned| == |stmts|
    requires forall a :: 0 <= a < N_ATOMS && last[a] >= 0 ==> last[a] < |stmts| && AtomDef(stmts[last[a]]) == a
    ensures |res| == |stmts|
    ensures forall i :: 0 <= i < |stmts| ==>
      res[i] == if stmts[i] != Nop && last[Target(stmts[i])] == i && Target(stmts[i]) !in out then Nop else scanned[i]
  {
    res := scanned;
    for atom := 0 to N_ATOMS
      invariant |res| == |stmts|
      invariant forall i :: 0 <= i < |stmts| ==>
        res[i] == if stmts[i] != Nop && Target(stmts[i]) < atom && last[Target(stmts[i])] == i && Target(stmts[i]) !in out
                  then Nop else scanned[i]
    {
      if last[atom] >= 0 && atom !in out { res := res[last[atom] := Nop]; }
    }
  }

  /** Deletes from a block exactly the statements whose result is not needed, in the block or by
      the registers live on exit. */
  method OptDeadstores(b: Block, out: set<nat>) returns (res: seq<Stmt>)
    ensures DeadRemoved(b.stmts, res, out + BranchUses(b.s))
  {
    var last: seq<int> := seq(N_ATOMS, i => -1);
    res := b.stmts;
    ScanStarts(b.stmts, last);
    hide LastOk, Overwritten, DeadRemoved, Forget;
    for n := 0 to |b.stmts|
      invariant LastOk(b.stmts, last, n) && Overwritten(b.stmts, res, n)
    {
      last, res := DeadStmt(b.stmts, n, last, res);
    }
    ghost var scanned := res;
    ScanEnds(b, last, scanned);
    res := DropPending(b.stmts, Forget(last, BranchAtomUse(b.s)), res, out);
    PendingDropped(b, last, scanned, out, res);
  }

  lemma ScanStarts(stmts: seq<Stmt>, last: seq<int>)
    requires last == seq(N_ATOMS, i => -1)
    ensures LastOk(stmts, last, 0) && Overwritten(stmts, stmts, 0)
  {
  }

  lemma ScanEnds(b: Block, last: seq<int>, scanned: seq<Stmt>)
    requires LastOk(b.stmts, last, |b.stmts|) && Overwritten(b.stmts, scanned, |b.stmts|)
    ensures |last| == N_ATOMS && |scanned| == |b.stmts| && |Forget(last, BranchAtomUse(b.s))| == N_ATOMS
    ensures var l := Forget(last, BranchAtomUse(b.s));
      forall a :: 0 <= a < N_ATOMS && l[a] >= 0 ==> l[a] < |b.stmts| && AtomDef(b.stmts[l[a]]) == a
  {
  }

  /** Without the overwritten definitions and the pending ones that are not live, exactly the dead statements are gone. */
  lemma PendingDropped(b: Block, last: seq<int>, scanned: seq<Stmt>, out: set<nat>, res: seq<Stmt>)
    requires LastOk(b.stmts, last, |b.stmts|) && Overwritten(b.stmts, scanned, |b.stmts|) && |last| == N_ATOMS
    requires var l := Forget(last, BranchAtomUse(b.s));
      && |res| == |b.stmts| == |scanned|
      && forall i :: 0 <= i < |b.stmts| ==>
           res[i] == if b.stmts[i] != Nop && l[Target(b.stmts[i])] == i && Target(b.stmts[i]) !in out then Nop else scanned[i]
    ensures DeadRemoved(b.stmts, res, out + BranchUses(b.s))
  {
  }

  /** Removing the dead stores of any block leaves every packet's result unchanged, from every
      start block and state. */
  lemma DeadStoresSound(g: Graph, rank: seq<nat>, inUse: seq<set<nat>>, outUse: seq<set<nat>>,
                        b: nat, res: seq<Stmt>, c: nat, p: Packet, r: Regs)
    requires Ranked(g, rank) && b < |g| == |inUse| == |outUse| && c < |g|
    requires Live(g, rank, inUse, outUse, b)
    requires DeadRemoved(g[b].stmts, res, outUse[b] + BranchUses(g[b].s))
    ensures Ranked(g[b := g[b].(stmts := res)], rank)
    ensures Walk(g[b := g[b].(stmts := res)], rank, c, p, r) == Walk(g, rank, c, p, r)
  {
    var blk := g[b].(stmts := res);
    if Arrive(g, rank, c, p, r, b).At? {
      DeadRemovedAgrees(g[b], res, outUse[b], p, Arrive(g, rank, c, p, r, b).r);
    }
    ReplaceSound(g, rank, inUse, outUse, b, blk, c, p, r);
  }
}
