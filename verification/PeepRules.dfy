/**
 The rules by which neighbouring statements are joined, and what each of them keeps.
 */
module PeepRules {
  import opened Machine
  import opened Flow
  import opened Liveness
  import opened Words
  import DeadStores

  // ---------------------------------------------------------------------------------------
  // Lists that differ in a few statements
  // ---------------------------------------------------------------------------------------

  /** j is the first statement from i on that is not deleted, or the end of the list. */
  ghost predicate IsOp(stmts: seq<Stmt>, i: nat, j: nat) {
    && i <= j <= |stmts|
    && (forall k :: i <= k < j ==> stmts[k] == Nop)
    && (j < |stmts| ==> stmts[j] != Nop)
  }

  method ThisOp(stmts: seq<Stmt>, i: nat) returns (j: nat)
    requires i <= |stmts|
    ensures IsOp(stmts, i, j)
  {
    j := i;
    while j < |stmts| && stmts[j] == Nop
      invariant i <= j <= |stmts|
      invariant forall k :: i <= k < j ==> stmts[k] == Nop
    {
      j := j + 1;
    }
  }

  /** The states agree on all registers but X. */
  ghost predicate ButX(r: Regs, r': Regs) {
    forall a :: 0 <= a < N_ATOMS && a != X_ATOM ==> r[a] == r'[a]
  }

  /** Lists that agree from m to n take the same state to the same state. */
  lemma {:induction false} RunSuffix(u: seq<Stmt>, v: seq<Stmt>, m: nat, n: nat, p: Packet, r: Regs)
    requires m <= n <= |u| == |v| && u[m..n] == v[m..n] && Run(u, m, p, r) == Run(v, m, p, r)
    ensures Run(u, n, p, r) == Run(v, n, p, r)
    decreases n
  {
    if n > m {
      assert u[m..n - 1] == u[m..n][..n - 1 - m] && v[m..n - 1] == v[m..n][..n - 1 - m];
      assert u[n - 1] == u[m..n][n - 1 - m] && v[n - 1] == v[m..n][n - 1 - m];
      RunSuffix(u, v, m, n - 1, p, r);
    }
  }

  /** Deleted statements do nothing. */
  lemma {:induction false} RunNops(u: seq<Stmt>, i: nat, j: nat, p: Packet, r: Regs)
    requires i <= j <= |u| && forall k :: i <= k < j ==> u[k] == Nop
    ensures Run(u, j, p, r) == Run(u, i, p, r)
    decreases j
  {
    if j > i { RunNops(u, i, j - 1, p, r); }
  }

  /** A statement and the deleted ones after it. */
  lemma RunOp(u: seq<Stmt>, j: nat, k: nat, p: Packet, r: Regs)
    requires j < k <= |u| && IsOp(u, j + 1, k)
    ensures Run(u, k, p, r) == Exec(u[j], p, Run(u, j, p, r))
  {
    RunNops(u, j + 1, k, p, r);
  }

  /** X is not used before it is set again, nor wanted at the end. */
  ghost predicate XDead(stmts: seq<Stmt>, exit: set<nat>, i: nat) {
    !DeadStores.Needed(stmts, i, X_ATOM, exit)
  }

  /** What is wanted at the end of a block: what its branch uses, and what is wanted after it. */
  ghost function Exits(s: Branch, want: set<nat>): set<nat> {
    BranchUses(s) + want
  }

  /** When X is dead, states that differ in X only run to states that differ in X only; and X is
      the same again, or still dead. */
  lemma {:induction false} RunButX(u: seq<Stmt>, v: seq<Stmt>, exit: set<nat>, m: nat, n: nat, p: Packet, r: Regs)
    requires m <= n <= |u| == |v| && u[m..] == v[m..] && XDead(v, exit, m)
    requires ButX(Run(u, m, p, r), Run(v, m, p, r))
    ensures ButX(Run(u, n, p, r), Run(v, n, p, r))
    ensures Run(u, n, p, r)[X_ATOM] == Run(v, n, p, r)[X_ATOM] || XDead(v, exit, n)
    decreases n
  {
    if n > m {
      RunButX(u, v, exit, m, n - 1, p, r);
      var c := v[n - 1];
      assert u[n - 1] == u[m..][n - 1 - m] == c;
      var r1, r2 := Run(u, n - 1, p, r), Run(v, n - 1, p, r);
      DeadStores.FateCons(v, n - 1, |v|, X_ATOM);
      if c != Nop { UsesSuffice(c, p, r1, r2); }
    }
  }

  // ---------------------------------------------------------------------------------------
  // What the rewriting of statements keeps
  // ---------------------------------------------------------------------------------------

  /** The last statement that is not deleted is an operation with X. */
  ghost predicate EndsWithAluX(stmts: seq<Stmt>) {
    exists l :: 0 <= l < |stmts| && stmts[l].AluX? && forall i :: l < i < |stmts| ==> stmts[i] == Nop
  }

  /** X matters at the end of the block. */
  ghost predicate XMatters(stmts: seq<Stmt>, s: Branch, out: set<nat>) {
    X_ATOM in out || X_ATOM in BranchUses(s) || EndsWithAluX(stmts)
  }

  /** From every state, v leaves what u leaves, except in X if that does not matter. */
  ghost predicate SameEffect(u: seq<Stmt>, v: seq<Stmt>, s: Branch, out: set<nat>) {
    && |u| == |v| && (XMatters(v, s, out) ==> XMatters(u, s, out))
    && forall p, r ::
         && ButX(RunAll(u, p, r), RunAll(v, p, r))
         && (XMatters(v, s, out) ==> RunAll(u, p, r)[X_ATOM] == RunAll(v, p, r)[X_ATOM])
  }

  lemma SameEffectTrans(u: seq<Stmt>, v: seq<Stmt>, w: seq<Stmt>, s: Branch, out: set<nat>)
    requires SameEffect(u, v, s, out) && SameEffect(v, w, s, out)
    ensures SameEffect(u, w, s, out)
  {
    hide XMatters;
    forall p, r
      ensures ButX(RunAll(u, p, r), RunAll(w, p, r))
      ensures XMatters(w, s, out) ==> RunAll(u, p, r)[X_ATOM] == RunAll(w, p, r)[X_ATOM]
    {
      assert ButX(RunAll(u, p, r), RunAll(v, p, r)) && ButX(RunAll(v, p, r), RunAll(w, p, r));
    }
  }

  lemma {:induction false} FateSame(u: seq<Stmt>, v: seq<Stmt>, i: nat, n: nat)
    requires n <= |u| == |v| && forall k :: i <= k < n ==> u[k] == v[k]
    ensures DeadStores.FateOf(u, i, n, X_ATOM) == DeadStores.FateOf(v, i, n, X_ATOM)
  {
    if i < n { FateSame(u, v, i, n - 1); }
  }

  /** The lists agree after j, and v has a statement at j that is no operation with X. */
  lemma EndsAlike(u: seq<Stmt>, v: seq<Stmt>, j: nat)
    requires j < |u| == |v| && v[j] != Nop && !v[j].AluX? && forall i :: j < i < |u| ==> u[i] == v[i]
    ensures EndsWithAluX(v) ==> EndsWithAluX(u)
  {
    if l :| 0 <= l < |v| && v[l].AluX? && forall i :: l < i < |v| ==> v[i] == Nop {
      assert l > j;
      assert u[l].AluX? && forall i :: l < i < |u| ==> u[i] == Nop;
    }
  }

  /** From every state, the first m statements of v do what those of u do. */
  ghost predicate SameRun(u: seq<Stmt>, v: seq<Stmt>, m: nat)
    requires m <= |u| == |v|
  {
    forall p, r :: Run(u, m, p, r) == Run(v, m, p, r)
  }

  lemma EqualEffect(u: seq<Stmt>, v: seq<Stmt>, s: Branch, out: set<nat>, j: nat)
    requires j < |u| == |v| && v[j] != Nop && !v[j].AluX? && (forall i :: j < i < |u| ==> u[i] == v[i])
    requires SameRun(u, v, j + 1)
    ensures SameEffect(u, v, s, out)
  {
    EndsAlike(u, v, j);
    forall p, r ensures RunAll(u, p, r) == RunAll(v, p, r) { RunSuffix(u, v, j + 1, |u|, p, r); }
  }

  /** st M[k], ldx M[k] becomes st M[k], tax. */
  lemma StoreLoad(u: seq<Stmt>, s: Branch, out: set<nat>, i: nat, j: nat)
    requires i < j < |u| && IsOp(u, i + 1, j) && u[i].St? && u[j] == LdxMem(u[i].m)
    ensures SameEffect(u, u[j := Tax], s, out)
  {
    var v, m := u[j := Tax], j + 1;
    forall p, r ensures Run(u, m, p, r) == Run(v, m, p, r) {
      RunPrefix(u, v, j, p, r);
      RunNops(u, i + 1, j, p, r);
    }
    EqualEffect(u, v, s, out, j);
  }

  /** ld #k, tax becomes ldx #k, txa. */
  lemma ImmTax(u: seq<Stmt>, s: Branch, out: set<nat>, i: nat, j: nat)
    requires i < j < |u| && IsOp(u, i + 1, j) && u[i].LdImm? && u[j] == Tax
    ensures SameEffect(u, u[i := LdxImm(u[i].k)][j := Txa], s, out)
  {
    var v, m := u[i := LdxImm(u[i].k)][j := Txa], j + 1;
    forall p, r ensures Run(u, m, p, r) == Run(v, m, p, r) {
      RunPrefix(u, v, i, p, r);
      RunNops(u, i + 1, j, p, r);
      RunNops(v, i + 1, j, p, r);
    }
    EqualEffect(u, v, s, out, j);
  }

  /** ld #k at i, optionally ldxb at next, add x, tax and an indexed load, with only deleted
      statements in between. */
  ghost predicate Indexing(u: seq<Stmt>, i: nat, next: nat, add: nat, tax: nat, ild: nat) {
    && i < next <= add < tax < ild < |u|
    && u[i].LdImm? && IsOp(u, i + 1, next)
    && (next == add || (u[next].LdxMsh? && IsOp(u, next + 1, add)))
    && u[add] == AluX(Add) && IsOp(u, add + 1, tax) && u[tax] == Tax && IsOp(u, tax + 1, ild) && u[ild].LdInd?
  }

  /** The same with the constant moved into the indexed load. */
  function Collapsed(u: seq<Stmt>, i: nat, add: nat, tax: nat, ild: nat): seq<Stmt>
    requires i < add < tax < ild < |u| && u[i].LdImm? && u[ild].LdInd?
  {
    u[ild := LdInd(u[ild].size, Indexed(u[ild].k, u[i].k))][i := Nop][add := Nop][tax := Nop]
  }

  lemma IndexingParts(u: seq<Stmt>, i: nat, next: nat, add: nat, tax: nat, ild: nat)
    requires Indexing(u, i, next, add, tax, ild)
    ensures i < next <= add < tax < ild < |u| && u[i].LdImm? && u[add] == AluX(Add) && u[tax] == Tax && u[ild].LdInd?
    ensures IsOp(u, i + 1, next) && IsOp(u, add + 1, tax) && IsOp(u, tax + 1, ild)
    ensures next < add ==> u[next].LdxMsh? && IsOp(u, next + 1, add)
  {
  }

  /** What the rule leaves of the statements. */
  lemma CollapsedParts(u: seq<Stmt>, i: nat, next: nat, add: nat, tax: nat, ild: nat)
    requires Indexing(u, i, next, add, tax, ild)
    ensures var v := Collapsed(u, i, add, tax, ild);
      && |v| == |u| && v[ild] == LdInd(u[ild].size, Indexed(u[ild].k, u[i].k)) && u[..i] == v[..i]
      && (forall k :: i <= k < next ==> v[k] == Nop) && (forall k :: add <= k < ild ==> v[k] == Nop)
      && (next < add ==> v[next] == u[next] && IsOp(v, next + 1, ild))
  {
    hide Indexed;
  }

  lemma CollapsedNext(u: seq<Stmt>, i: nat, next: nat, add: nat, tax: nat, ild: nat, p: Packet, r: Regs)
    requires Indexing(u, i, next, add, tax, ild)
    ensures Run(u, next, p, r) == Run(u, i, p, r)[A_ATOM := u[i].k]
    ensures Run(Collapsed(u, i, add, tax, ild), next, p, r) == Run(u, i, p, r)
  {
    var v := Collapsed(u, i, add, tax, ild);
    hide Indexing, Collapsed, IsOp, Run;
    IndexingParts(u, i, next, add, tax, ild);
    CollapsedParts(u, i, next, add, tax, ild);
    RunPrefix(u, v, i, p, r);
    RunOp(u, i, next, p, r);
    RunNops(v, i, next, p, r);
  }

  /** Up to the indexed load the lists differ in what the addition and the move to X leave. */
  lemma CollapsedUpTo(u: seq<Stmt>, i: nat, next: nat, add: nat, tax: nat, ild: nat, p: Packet, r: Regs)
    requires Indexing(u, i, next, add, tax, ild)
    ensures var q := Run(u, add, p, r);
      q[A_ATOM] == u[i].k && Run(Collapsed(u, i, add, tax, ild), ild, p, r) == q[A_ATOM := Run(u, i, p, r)[A_ATOM]]
  {
    var v, q := Collapsed(u, i, add, tax, ild), Run(u, i, p, r);
    hide Indexing, Collapsed, IsOp, Run, HeaderLength;
    IndexingParts(u, i, next, add, tax, ild);
    CollapsedParts(u, i, next, add, tax, ild);
    CollapsedNext(u, i, next, add, tax, ild, p, r);
    if next < add {
      RunOp(u, next, add, p, r);
      RunOp(v, next, ild, p, r);
    } else {
      RunNops(v, next, ild, p, r);
    }
  }

  /** The addition and the move to X. */
  lemma AddressRun(u: seq<Stmt>, i: nat, next: nat, add: nat, tax: nat, ild: nat, p: Packet, r: Regs)
    requires Indexing(u, i, next, add, tax, ild) && Run(u, add, p, r)[A_ATOM] == u[i].k
    ensures var q := Run(u, add, p, r);
      var sum := Alu(Add, u[i].k, q[X_ATOM]);
      Run(u, ild, p, r) == q[A_ATOM := sum][X_ATOM := sum]
  {
    hide Alu, Indexing, IsOp, Run;
    IndexingParts(u, i, next, add, tax, ild);
    RunOp(u, add, tax, p, r);
    RunOp(u, tax, ild, p, r);
  }

  /** The two loads read the same. */
  lemma LoadsSame(q: Regs, a: Word, k: Word, s: Stmt, p: Packet)
    requires s.LdInd?
    ensures var sum := Alu(Add, k, q[X_ATOM]);
      ButX(Exec(s, p, q[A_ATOM := sum][X_ATOM := sum]), Exec(LdInd(s.size, Indexed(s.k, k)), p, q[A_ATOM := a]))
  {
    OffsetMoves(k, q[X_ATOM], s.k);
    hide Alu, Indexed;
  }

  lemma CollapsedRun(u: seq<Stmt>, i: nat, next: nat, add: nat, tax: nat, ild: nat, p: Packet, r: Regs)
    requires Indexing(u, i, next, add, tax, ild)
    ensures ButX(Run(u, ild + 1, p, r), Run(Collapsed(u, i, add, tax, ild), ild + 1, p, r))
  {
    var v := Collapsed(u, i, add, tax, ild);
    hide Alu, Indexed, IsOp, Value, ButX, Indexing, Collapsed, Run;
    IndexingParts(u, i, next, add, tax, ild);
    CollapsedParts(u, i, next, add, tax, ild);
    CollapsedUpTo(u, i, next, add, tax, ild, p, r);
    AddressRun(u, i, next, add, tax, ild, p, r);
    RunNext(u, ild, p, r);
    RunNext(v, ild, p, r);
    LoadsSame(Run(u, add, p, r), Run(u, i, p, r)[A_ATOM], u[i].k, u[ild], p);
  }

  /** Moving the constant k into the load that ends at ild is harmless: X is not needed after the load,
      or k is zero. */
  ghost predicate Harmless(u: seq<Stmt>, exit: set<nat>, i: nat, ild: nat)
    requires i < |u| && u[i].LdImm?
  {
    XDead(u, exit, ild + 1) || u[i].k == ZERO
  }

  /** Moving the constant into the load changes X only, and X only where that does not matter. */
  lemma CollapseSame(u: seq<Stmt>, s: Branch, want: set<nat>, i: nat, next: nat, add: nat, tax: nat, ild: nat)
    requires Indexing(u, i, next, add, tax, ild) && Harmless(u, Exits(s, want), i, ild)
    ensures SameEffect(u, Collapsed(u, i, add, tax, ild), s, want)
  {
    var v, m, exit := Collapsed(u, i, add, tax, ild), ild + 1, Exits(s, want);
    FateTail(u, v, m);
    EndsAlike(u, v, ild);
    assert u[m..] == v[m..] && u[m..|u|] == v[m..|u|];
    forall p, r
      ensures ButX(RunAll(u, p, r), RunAll(v, p, r))
      ensures XMatters(v, s, want) ==> RunAll(u, p, r)[X_ATOM] == RunAll(v, p, r)[X_ATOM]
    {
      CollapsedRun(u, i, next, add, tax, ild, p, r);
      if XDead(u, exit, m) {
        RunButX(u, v, exit, m, |u|, p, r);
        if XMatters(v, s, want) && !RunsSameX(u, v, |u|, p, r) { XMattersLate(u, v, s, want, ild, p, r); }
      } else {
        CollapsedX(u, i, next, add, tax, ild, p, r);
        AddChanges(u[i].k, Run(v, m, p, r)[X_ATOM]);
        assert Run(u, m, p, r) == Run(v, m, p, r);
        RunSuffix(u, v, m, |u|, p, r);
      }
    }
  }

  /** Both lists leave the same in every register that is needed after statement l. */
  ghost predicate KeepsNeeded(u: seq<Stmt>, v: seq<Stmt>, exit: set<nat>, l: nat, p: Packet, r: Regs)
    requires l < |u| == |v|
  {
    var r1, r2 := Run(u, l + 1, p, r), Run(v, l + 1, p, r);
    forall a :: 0 <= a < N_ATOMS && DeadStores.Needed(u, l + 1, a, exit) ==> r1[a] == r2[a]
  }

  /** What the rule leaves in X: the index, where there was the index plus the constant. */
  lemma CollapsedX(u: seq<Stmt>, i: nat, next: nat, add: nat, tax: nat, ild: nat, p: Packet, r: Regs)
    requires Indexing(u, i, next, add, tax, ild)
    ensures var x := Run(Collapsed(u, i, add, tax, ild), ild + 1, p, r)[X_ATOM];
      Run(u, ild + 1, p, r)[X_ATOM] == Alu(Add, u[i].k, x)
  {
    var v := Collapsed(u, i, add, tax, ild);
    hide Alu, Indexed, IsOp, Indexing, Collapsed, Run;
    IndexingParts(u, i, next, add, tax, ild);
    CollapsedParts(u, i, next, add, tax, ild);
    CollapsedUpTo(u, i, next, add, tax, ild, p, r);
    AddressRun(u, i, next, add, tax, ild, p, r);
    RunNext(u, ild, p, r);
    RunNext(v, ild, p, r);
  }

  /** Moving the constant into the load keeps, for every packet and state, every register needed after
      the load, exactly if X is not needed there or the constant is zero. */
  lemma CollapseExact(u: seq<Stmt>, exit: set<nat>, i: nat, next: nat, add: nat, tax: nat, ild: nat)
    requires Indexing(u, i, next, add, tax, ild)
    ensures (forall p, r :: KeepsNeeded(u, Collapsed(u, i, add, tax, ild), exit, ild, p, r)) <==> Harmless(u, exit, i, ild)
  {
    var v, m := Collapsed(u, i, add, tax, ild), ild + 1;
    if Harmless(u, exit, i, ild) {
      forall p, r ensures KeepsNeeded(u, v, exit, ild, p, r) { HarmlessKeeps(u, exit, i, next, add, tax, ild, p, r); }
    } else {
      var p, r: Regs := Packet(map[], ZERO), seq(18, i => ZERO);
      hide Indexing, Collapsed, DeadStores.Needed, Alu, IsOp, Run;
      CollapsedX(u, i, next, add, tax, ild, p, r);
      AddChanges(u[i].k, Run(v, m, p, r)[X_ATOM]);
      assert !KeepsNeeded(u, v, exit, ild, p, r);
    }
  }

  lemma HarmlessKeeps(u: seq<Stmt>, exit: set<nat>, i: nat, next: nat, add: nat, tax: nat, ild: nat, p: Packet, r: Regs)
    requires Indexing(u, i, next, add, tax, ild) && Harmless(u, exit, i, ild)
    ensures KeepsNeeded(u, Collapsed(u, i, add, tax, ild), exit, ild, p, r)
  {
    hide Indexing, Collapsed, DeadStores.Needed, Alu, IsOp, Run;
    IndexingParts(u, i, next, add, tax, ild);
    CollapsedParts(u, i, next, add, tax, ild);
    CollapsedRun(u, i, next, add, tax, ild, p, r);
    CollapsedX(u, i, next, add, tax, ild, p, r);
    AddChanges(u[i].k, Run(Collapsed(u, i, add, tax, ild), ild + 1, p, r)[X_ATOM]);
  }

  ghost predicate RunsSameX(u: seq<Stmt>, v: seq<Stmt>, n: nat, p: Packet, r: Regs)
    requires n <= |u| == |v|
  {
    Run(u, n, p, r)[X_ATOM] == Run(v, n, p, r)[X_ATOM]
  }

  lemma FateTail(u: seq<Stmt>, v: seq<Stmt>, m: nat)
    requires m <= |u| == |v| && forall k :: m <= k < |u| ==> u[k] == v[k]
    ensures forall i, exit :: m <= i <= |u| ==> (XDead(u, exit, i) <==> XDead(v, exit, i))
  {
    forall i | m <= i <= |u| ensures DeadStores.FateOf(u, i, |u|, X_ATOM) == DeadStores.FateOf(v, i, |u|, X_ATOM) {
      FateSame(u, v, i, |u|);
    }
  }

  /** If X matters at the end of v and is dead after the load, then it is the same again. */
  lemma XMattersLate(u: seq<Stmt>, v: seq<Stmt>, s: Branch, want: set<nat>, ild: nat, p: Packet, r: Regs)
    requires ild < |u| == |v| && u[ild + 1..] == v[ild + 1..] && XDead(v, Exits(s, want), ild + 1) && v[ild].LdInd?
    requires ButX(Run(u, ild + 1, p, r), Run(v, ild + 1, p, r)) && XMatters(v, s, want)
    ensures RunsSameX(u, v, |u|, p, r)
  {
    RunButX(u, v, Exits(s, want), ild + 1, |u|, p, r);
    if EndsWithAluX(v) {
      var l :| 0 <= l < |v| && v[l].AluX? && forall i :: l < i < |v| ==> v[i] == Nop;
      assert l > ild;
      LastUsesX(u, v, Exits(s, want), ild + 1, l, p, r);
    }
  }

  lemma LastUsesX(u: seq<Stmt>, v: seq<Stmt>, exit: set<nat>, m: nat, l: nat, p: Packet, r: Regs)
    requires m <= l < |u| == |v| && u[m..] == v[m..] && XDead(v, exit, m) && ButX(Run(u, m, p, r), Run(v, m, p, r))
    requires v[l].AluX? && forall i :: l < i < |v| ==> v[i] == Nop
    ensures RunsSameX(u, v, |u|, p, r)
  {
    RunButX(u, v, exit, m, l, p, r);
    DeadStores.FateCons(v, l, |v|, X_ATOM);
    forall k | l <= k < |u| ensures u[k] == v[k] { assert u[k] == u[m..][k - m] && v[k] == v[m..][k - m]; }
    hide DeadStores.Needed, Alu;
    RunNops(u, l + 1, |u|, p, r);
    RunNops(v, l + 1, |u|, p, r);
  }

  // ---------------------------------------------------------------------------------------
  // Where the constant may be moved
  // ---------------------------------------------------------------------------------------

  /** From statement n on, wherever a constant can be moved into an indexed load, that is harmless. */
  ghost predicate AllHarmless(u: seq<Stmt>, exit: set<nat>, n: nat) {
    forall i, next, add, tax, ild :: n <= i && Indexing(u, i, next, add, tax, ild) ==> Harmless(u, exit, i, ild)
  }

  lemma HarmlessLater(u: seq<Stmt>, exit: set<nat>, m: nat, n: nat)
    requires m <= n && AllHarmless(u, exit, m)
    ensures AllHarmless(u, exit, n)
  {
  }

  /** Changing what comes before statement m, and leaving no load of a constant between n and m, leaves
      only what was harmless. */
  lemma HarmlessTail(u: seq<Stmt>, v: seq<Stmt>, exit: set<nat>, n: nat, m: nat)
    requires n <= m <= |u| == |v| && AllHarmless(u, exit, n)
    requires forall k :: m <= k < |u| ==> u[k] == v[k]
    requires forall k :: n <= k < m ==> !v[k].LdImm?
    ensures AllHarmless(v, exit, n)
  {
    FateTail(u, v, m);
    forall i, next, add, tax, ild | n <= i && Indexing(v, i, next, add, tax, ild) ensures Harmless(v, exit, i, ild) {
      assert Indexing(u, i, next, add, tax, ild);
      assert Harmless(u, exit, i, ild);
    }
  }

  // ---------------------------------------------------------------------------------------
  // Blocks that define what they use
  // ---------------------------------------------------------------------------------------

  /** Every statement uses only registers defined before it. */
  ghost predicate Scoped(u: seq<Stmt>) {
    forall n :: 0 <= n < |u| ==> Uses(u[n]) <= Defs(u, n)
  }

  ghost predicate ScopedTo(u: seq<Stmt>, n: nat)
    requires n <= |u|
  {
    forall k :: 0 <= k < n ==> Uses(u[k]) <= Defs(u, k)
  }

  lemma {:induction false} ScopedExposed(u: seq<Stmt>, n: nat)
    requires n <= |u|
    ensures Exposed(u, n) == {} <==> ScopedTo(u, n)
  {
    hide Exposed, Uses, Defs, ScopedTo;
    if n == 0 {
      ScopedNone(u);
    } else {
      ScopedExposed(u, n - 1);
      ExposedNext(u, n - 1);
      ScopedNext(u, n - 1);
    }
  }

  lemma ScopedNone(u: seq<Stmt>)
    ensures Exposed(u, 0) == {} && ScopedTo(u, 0)
  {
  }

  lemma ScopedNext(u: seq<Stmt>, n: nat)
    requires n < |u|
    ensures ScopedTo(u, n + 1) <==> ScopedTo(u, n) && Uses(u[n]) <= Defs(u, n)
  {
    hide Uses, Defs;
  }

  lemma ExposedNext(u: seq<Stmt>, n: nat)
    requires n < |u|
    ensures Exposed(u, n + 1) == {} <==> Exposed(u, n) == {} && Uses(u[n]) <= Defs(u, n)
  {
    hide Uses, Defs;
  }

  lemma {:induction false} DefsGrow(u: seq<Stmt>, m: nat, n: nat)
    requires m <= n <= |u|
    ensures Defs(u, m) <= Defs(u, n)
  {
    if m < n { DefsGrow(u, m, n - 1); }
  }

  lemma {:induction false} DefsNops(u: seq<Stmt>, m: nat, n: nat)
    requires m <= n <= |u| && forall k :: m <= k < n ==> u[k] == Nop
    ensures Defs(u, n) == Defs(u, m)
  {
    if m < n { DefsNops(u, m, n - 1); }
  }

  /** What a statement and the deleted ones after it define. */
  lemma DefsOp(u: seq<Stmt>, j: nat, k: nat)
    requires j < k <= |u| && IsOp(u, j + 1, k) && u[j] != Nop
    ensures Defs(u, k) == Defs(u, j) + {Target(u[j])}
  {
    hide Defs;
    DefsNext(u, j);
    DefsNops(u, j + 1, k);
  }

  lemma {:induction false} DefsSame(u: seq<Stmt>, v: seq<Stmt>, m: nat, n: nat)
    requires m <= n <= |u| == |v| && Defs(u, m) == Defs(v, m) && forall k :: m <= k < n ==> u[k] == v[k]
    ensures Defs(u, n) == Defs(v, n)
  {
    if m < n { DefsSame(u, v, m, n - 1); }
  }

  /** v defines what it uses, and has defined all that u has. */
  ghost predicate KeepsScope(u: seq<Stmt>, v: seq<Stmt>) {
    |v| == |u| && (Scoped(u) ==> Scoped(v) && Defs(v, |v|) == Defs(u, |u|))
  }

  lemma ScopedAt(u: seq<Stmt>, n: nat)
    requires Scoped(u) && n < |u|
    ensures Uses(u[n]) <= Defs(u, n)
  {
  }

  lemma DefsNext(u: seq<Stmt>, n: nat)
    requires n < |u|
    ensures Defs(u, n + 1) == if u[n] == Nop then Defs(u, n) else Defs(u, n) + {Target(u[n])}
  {
  }

  lemma UsesOf(s: Stmt)
    ensures s.St? ==> Uses(s) == {A_ATOM}
    ensures s == Tax ==> Uses(s) == {A_ATOM}
    ensures s == Txa || s.LdInd? ==> Uses(s) == {X_ATOM}
    ensures s.AluX? ==> Uses(s) == {A_ATOM, X_ATOM}
    ensures s == Nop || s.LdxImm? || s.LdxMsh? ==> Uses(s) == {}
  {
  }

  ghost predicate SameOutside(u: seq<Stmt>, v: seq<Stmt>, a: nat, m: nat)
    requires |u| == |v|
  {
    forall k :: 0 <= k < |u| && (k < a || m < k) ==> u[k] == v[k]
  }

  ghost predicate UseNothing(v: seq<Stmt>, a: nat, m: nat)
    requires m <= |v|
  {
    forall k :: a <= k < m ==> Uses(v[k]) == {}
  }

  /** It suffices to look at the statements that changed, a to m, of which only the last uses anything. */
  lemma ScopeKept(u: seq<Stmt>, v: seq<Stmt>, a: nat, m: nat)
    requires a <= m < |u| == |v| && Scoped(u)
    requires SameOutside(u, v, a, m) && UseNothing(v, a, m)
    requires Uses(v[m]) <= Defs(v, m) && Defs(v, m + 1) == Defs(u, m + 1)
    ensures KeepsScope(u, v)
  {
    hide Scoped, Defs, Uses;
    DefsSame(u, v, m + 1, |u|);
    forall n | 0 <= n < |v| ensures Uses(v[n]) <= Defs(v, n) {
      ScopeKeptAt(u, v, a, m, n);
    }
    ScopedAll(v);
  }

  lemma ScopedAll(v: seq<Stmt>)
    requires forall n :: 0 <= n < |v| ==> Uses(v[n]) <= Defs(v, n)
    ensures Scoped(v)
  {
  }

  lemma ScopeKeptAt(u: seq<Stmt>, v: seq<Stmt>, a: nat, m: nat, n: nat)
    requires a <= m < |u| == |v| && Scoped(u) && n < |v|
    requires SameOutside(u, v, a, m) && UseNothing(v, a, m)
    requires Uses(v[m]) <= Defs(v, m) && Defs(v, m + 1) == Defs(u, m + 1)
    ensures Uses(v[n]) <= Defs(v, n)
  {
    hide Scoped, Defs, Uses;
    ScopedAt(u, n);
    if n < a {
      DefsNone(u, v);
      DefsSame(u, v, 0, n);
    } else if m < n {
      DefsSame(u, v, m + 1, n);
    }
  }

  lemma StoreLoadScope(u: seq<Stmt>, i: nat, j: nat)
    requires i < j < |u| && u[i].St? && u[j].LdxMem?
    ensures KeepsScope(u, u[j := Tax])
  {
    if Scoped(u) {
      hide Scoped, Defs, Uses;
      var v := u[j := Tax];
      DefsNone(u, v);
      DefsSame(u, v, 0, j);
      DefsGrow(u, i, j);
      ScopedAt(u, i);
      UsesOf(u[i]);
      UsesOf(v[j]);
      DefsNext(u, j);
      DefsNext(v, j);
      ScopeKept(u, v, j, j);
    }
  }

  lemma DefsNone(u: seq<Stmt>, v: seq<Stmt>)
    ensures Defs(u, 0) == Defs(v, 0) == {}
  {
  }

  lemma ImmTaxScope(u: seq<Stmt>, i: nat, j: nat)
    requires i < j < |u| && IsOp(u, i + 1, j) && u[i].LdImm? && u[j] == Tax
    ensures KeepsScope(u, u[i := LdxImm(u[i].k)][j := Txa])
  {
    if Scoped(u) {
      hide Scoped, Defs, Uses, SameOutside, UseNothing, IsOp;
      ImmTaxDefs(u, i, j);
      ScopeKept(u, u[i := LdxImm(u[i].k)][j := Txa], i, j);
    }
  }

  lemma ImmTaxDefs(u: seq<Stmt>, i: nat, j: nat)
    requires i < j < |u| && IsOp(u, i + 1, j) && u[i].LdImm? && u[j] == Tax
    ensures var v := u[i := LdxImm(u[i].k)][j := Txa];
      && SameOutside(u, v, i, j) && UseNothing(v, i, j)
      && Uses(v[j]) <= Defs(v, j) && Defs(v, j + 1) == Defs(u, j + 1)
  {
    var v := u[i := LdxImm(u[i].k)][j := Txa];
    hide Defs, Uses;
    forall k | i <= k < j ensures Uses(v[k]) == {} { UsesOf(v[k]); }
    UsesOf(v[j]);
    DefsNone(u, v);
    DefsSame(u, v, 0, i);
    DefsNext(u, i);
    DefsNext(v, i);
    DefsNops(u, i + 1, j);
    DefsNops(v, i + 1, j);
    DefsNext(u, j);
    DefsNext(v, j);
    assert Defs(u, i) + {X_ATOM} + {A_ATOM} == Defs(u, i) + {A_ATOM} + {X_ATOM};
  }

  /** What the old list has defined after the indexed load. */
  lemma IndexingDefs(u: seq<Stmt>, i: nat, next: nat, add: nat, tax: nat, ild: nat)
    requires Indexing(u, i, next, add, tax, ild) && Scoped(u)
    ensures Defs(u, ild + 1) == Defs(u, i) + {A_ATOM, X_ATOM}
    ensures next == add ==> X_ATOM in Defs(u, i)
  {
    hide Scoped, Defs, Uses, Indexing, IsOp;
    IndexingParts(u, i, next, add, tax, ild);
    ScopedAt(u, add);
    UsesOf(u[add]);
    DefsOp(u, i, next);
    if next < add { DefsOp(u, next, add); }
    DefsOp(u, add, tax);
    DefsOp(u, tax, ild);
    DefsNext(u, ild);
  }

  /** What the new list has defined before the indexed load. */
  lemma CollapsedDefs(u: seq<Stmt>, i: nat, next: nat, add: nat, tax: nat, ild: nat)
    requires Indexing(u, i, next, add, tax, ild) && (next == add ==> X_ATOM in Defs(u, i))
    ensures Defs(Collapsed(u, i, add, tax, ild), ild) == Defs(u, i) + {X_ATOM}
    ensures SameOutside(u, Collapsed(u, i, add, tax, ild), i, ild) && UseNothing(Collapsed(u, i, add, tax, ild), i, ild)
  {
    var v := Collapsed(u, i, add, tax, ild);
    CollapsedUses(u, i, next, add, tax, ild);
    hide Defs, Uses, Indexing, Collapsed, IsOp;
    IndexingParts(u, i, next, add, tax, ild);
    CollapsedParts(u, i, next, add, tax, ild);
    DefsNone(u, v);
    DefsSame(u, v, 0, i) by { assert forall k :: 0 <= k < i ==> u[k] == u[..i][k] && v[k] == v[..i][k]; }
    DefsNops(v, i, next);
    if next < add { DefsOp(v, next, ild); } else { DefsNops(v, next, ild); }
  }

  lemma CollapsedUses(u: seq<Stmt>, i: nat, next: nat, add: nat, tax: nat, ild: nat)
    requires Indexing(u, i, next, add, tax, ild)
    ensures SameOutside(u, Collapsed(u, i, add, tax, ild), i, ild) && UseNothing(Collapsed(u, i, add, tax, ild), i, ild)
  {
    var v := Collapsed(u, i, add, tax, ild);
    hide Uses, Indexed;
    forall k | i <= k < ild ensures Uses(v[k]) == {} { UsesOf(v[k]); }
  }

  lemma CollapseScope(u: seq<Stmt>, i: nat, next: nat, add: nat, tax: nat, ild: nat)
    requires Indexing(u, i, next, add, tax, ild)
    ensures KeepsScope(u, Collapsed(u, i, add, tax, ild))
  {
    if Scoped(u) {
      var v := Collapsed(u, i, add, tax, ild);
      assert v[ild].LdInd?;
      hide Scoped, Defs, IsOp, Uses, SameOutside, UseNothing, Collapsed;
      UsesOf(v[ild]);
      IndexingDefs(u, i, next, add, tax, ild);
      CollapsedDefs(u, i, next, add, tax, ild);
      DefsNext(v, ild);
      assert Defs(u, i) + {X_ATOM} + {A_ATOM} == Defs(u, i) + {A_ATOM, X_ATOM};
      ScopeKept(u, v, i, ild);
    }
  }

  // ---------------------------------------------------------------------------------------
  // The registers a list has to do with
  // ---------------------------------------------------------------------------------------

  ghost predicate Defines(stmts: seq<Stmt>, a: nat) {
    exists k :: 0 <= k < |stmts| && AtomDef(stmts[k]) == a
  }

  ghost predicate Mentions(stmts: seq<Stmt>, a: nat) {
    exists k :: 0 <= k < |stmts| && (AtomDef(stmts[k]) == a || a in Uses(stmts[k]))
  }

  /** v defines and mentions only what u does. */
  ghost predicate Narrower(u: seq<Stmt>, v: seq<Stmt>) {
    && (forall a :: Defines(v, a) ==> Defines(u, a))
    && (forall a :: Mentions(v, a) ==> Mentions(u, a))
  }

  lemma NarrowerRefl(u: seq<Stmt>)
    ensures Narrower(u, u)
  {
  }

  lemma NarrowerTrans(u: seq<Stmt>, v: seq<Stmt>, w: seq<Stmt>)
    requires Narrower(u, v) && Narrower(v, w)
    ensures Narrower(u, w)
  {
  }

  /** A statement that defines and uses only what u does. */
  ghost predicate Within(u: seq<Stmt>, s: Stmt) {
    (s != Nop ==> Defines(u, Target(s))) && forall a :: a in Uses(s) ==> Mentions(u, a)
  }

  lemma WithinItself(u: seq<Stmt>, k: nat)
    requires k < |u|
    ensures Within(u, u[k])
  {
  }

  lemma NarrowerBy(u: seq<Stmt>, v: seq<Stmt>)
    requires forall k :: 0 <= k < |v| ==> Within(u, v[k])
    ensures Narrower(u, v)
  {
    forall a | Defines(v, a) ensures Defines(u, a) {
      var k :| 0 <= k < |v| && AtomDef(v[k]) == a;
      assert Within(u, v[k]);
    }
    forall a | Mentions(v, a) ensures Mentions(u, a) {
      var k :| 0 <= k < |v| && (AtomDef(v[k]) == a || a in Uses(v[k]));
      assert Within(u, v[k]);
      if AtomDef(v[k]) == a { var l :| 0 <= l < |u| && AtomDef(u[l]) == a; }
    }
  }

  lemma StoreLoadNarrower(u: seq<Stmt>, i: nat, j: nat)
    requires i < j < |u| && u[i].St? && u[j] == LdxMem(u[i].m)
    ensures Narrower(u, u[j := Tax])
  {
    var v := u[j := Tax];
    forall k | 0 <= k < |u| ensures Within(u, v[k]) {
      WithinItself(u, k);
      WithinItself(u, i);
    }
    NarrowerBy(u, v);
  }

  lemma ImmTaxNarrower(u: seq<Stmt>, i: nat, j: nat)
    requires i < j < |u| && u[i].LdImm? && u[j] == Tax
    ensures Narrower(u, u[i := LdxImm(u[i].k)][j := Txa])
  {
    var v := u[i := LdxImm(u[i].k)][j := Txa];
    forall k | 0 <= k < |u| ensures Within(u, v[k]) {
      WithinItself(u, k);
      WithinItself(u, i);
      WithinItself(u, j);
    }
    NarrowerBy(u, v);
  }

  lemma CollapseNarrower(u: seq<Stmt>, i: nat, next: nat, add: nat, tax: nat, ild: nat)
    requires Indexing(u, i, next, add, tax, ild)
    ensures Narrower(u, Collapsed(u, i, add, tax, ild))
  {
    var v := Collapsed(u, i, add, tax, ild);
    forall k | 0 <= k < |u| ensures Within(u, v[k]) {
      WithinItself(u, k);
      if k == ild { assert Uses(v[k]) == Uses(u[k]) && Target(v[k]) == Target(u[k]); }
    }
    NarrowerBy(u, v);
  }
}
