/**
 Value numbering over a list of statements.
 */
module StmtPass {
  import opened Machine
  import opened Liveness
  import opened Values
  import opened PeepRules
  import opened Peephole

  // ---------------------------------------------------------------------------------------
  // Which registers are known
  // ---------------------------------------------------------------------------------------

  /** The registers whose value is known. */
  ghost function KnownRegs(val: Vals): set<nat> {
    set a: nat | a < N_ATOMS && val[a] != VAL_UNKNOWN
  }

  /** The registers whose numbers a statement hands to the table. */
  function Operands(s: Stmt): set<nat> {
    match s
    case LdInd(_, _) => {X_ATOM}
    case Neg => {A_ATOM}
    case AluK(_, _) => {A_ATOM}
    case AluX(_) => {A_ATOM, X_ATOM}
    case _ => {}
  }

  /** The registers known after a statement with known operands. A copy of an unknown register is unknown. */
  function KnownStep(s: Stmt, known: set<nat>): set<nat> {
    if s == Nop then known
    else if Moves(s) && MoveSource(s) !in known then known - {Target(s)}
    else known + {Target(s)}
  }

  /** The registers known after the first n statements. */
  ghost function KnownAfter(stmts: seq<Stmt>, n: nat, known: set<nat>): set<nat>
    requires n <= |stmts|
  {
    if n == 0 then known else KnownStep(stmts[n - 1], KnownAfter(stmts, n - 1, known))
  }

  /** Every number the list hands to the table is known. */
  ghost predicate OperandsKnown(stmts: seq<Stmt>, known: set<nat>) {
    forall n :: 0 <= n < |stmts| ==> Operands(stmts[n]) <= KnownAfter(stmts, n, known)
  }

  lemma OperandsKnownAt(stmts: seq<Stmt>, known: set<nat>, n: nat)
    requires OperandsKnown(stmts, known) && n < |stmts|
    ensures Operands(stmts[n]) <= KnownAfter(stmts, n, known)
    ensures KnownAfter(stmts, n + 1, known) == KnownStep(stmts[n], KnownAfter(stmts, n, known))
  {
  }

  lemma KnownOperands(s: Stmt, val: Vals)
    ensures Known(s, val) <==> Operands(s) <= KnownRegs(val)
  {
    if Operands(s) <= KnownRegs(val) {
      assert s.LdInd? || s.AluX? ==> X_ATOM in Operands(s);
      assert s.Neg? || s.AluK? || s.AluX? ==> A_ATOM in Operands(s);
    }
  }

  lemma KnownStepped(s: Stmt, val: Vals, val': Vals)
    requires Known(s, val) && Framed(s, val, val')
    ensures KnownRegs(val') == KnownStep(s, KnownRegs(val))
  {
  }

  lemma {:induction false} ExposedMonotone(stmts: seq<Stmt>, m: nat, n: nat)
    requires m <= n <= |stmts|
    ensures Exposed(stmts, m) <= Exposed(stmts, n)
  {
    if m < n { ExposedMonotone(stmts, m, n - 1); }
  }

  lemma OperandsAreUses(s: Stmt)
    ensures Operands(s) <= Uses(s) && (Moves(s) ==> MoveSource(s) in Uses(s))
    ensures Atoms(AtomDef(s)) == if s == Nop then {} else {Target(s)}
  {
  }

  lemma {:induction false} DefinedKnown(stmts: seq<Stmt>, n: nat, known: set<nat>)
    requires n <= |stmts| && Exposed(stmts, n) <= known
    ensures known + Defs(stmts, n) <= KnownAfter(stmts, n, known)
  {
    if n > 0 {
      OperandsAreUses(stmts[n - 1]);
      DefinedKnown(stmts, n - 1, known);
    }
  }

  /** If what a list uses before defining it is known, every number it hands to the table is known, and it
      leaves everything it defines known. */
  lemma ExposedSuffice(stmts: seq<Stmt>, known: set<nat>)
    requires Exposed(stmts, |stmts|) <= known
    ensures OperandsKnown(stmts, known) && known + Defs(stmts, |stmts|) <= KnownAfter(stmts, |stmts|, known)
  {
    hide Operands, Exposed, Defs, KnownAfter, Uses;
    forall n | 0 <= n < |stmts| ensures Operands(stmts[n]) <= KnownAfter(stmts, n, known) {
      OperandsAreUses(stmts[n]);
      ExposedMonotone(stmts, n, |stmts|);
      ExposedMonotone(stmts, n + 1, |stmts|);
      DefinedKnown(stmts, n, known);
      ExposedUses(stmts, n);
    }
    DefinedKnown(stmts, |stmts|, known);
  }

  lemma ExposedUses(stmts: seq<Stmt>, n: nat)
    requires n < |stmts|
    ensures Uses(stmts[n]) <= Exposed(stmts, n + 1) + Defs(stmts, n)
  {
    hide Uses, Defs;
  }

  // ---------------------------------------------------------------------------------------
  // What the numbering keeps
  // ---------------------------------------------------------------------------------------

  /** In every state that val describes, the first n statements of out do what those of stmts do,
      and val' describes the outcome. */
  ghost predicate SoundRun(t: seq<Expr>, val: Vals, stmts: seq<Stmt>, t': seq<Expr>, out: seq<Stmt>, val': Vals, n: nat)
    requires Table(t) && InTable(t, val) && Table(t') && InTable(t', val') && n <= |stmts| && n <= |out|
  {
    forall p, r :: Consistent(t, val, p, r) ==>
      Run(out, n, p, r) == Run(stmts, n, p, r) && Consistent(t', val', p, Run(stmts, n, p, r))
  }

  lemma SoundRunStep(t0: seq<Expr>, val0: Vals, stmts: seq<Stmt>, t: seq<Expr>, out: seq<Stmt>, val: Vals,
                     s': Stmt, t': seq<Expr>, val': Vals)
    requires Table(t0) && InTable(t0, val0) && Table(t) && InTable(t, val) && Table(t') && InTable(t', val')
    requires |out| < |stmts| && SoundRun(t0, val0, stmts, t, out, val, |out|)
    requires Sound(t, val, stmts[|out|], t', s', val')
    ensures SoundRun(t0, val0, stmts, t', out + [s'], val', |out| + 1)
  {
    hide Exec, Table, Consistent;
    var n := |out|;
    forall p, r | Consistent(t0, val0, p, r)
      ensures Run(out + [s'], n + 1, p, r) == Run(stmts, n + 1, p, r)
      ensures Consistent(t', val', p, Run(stmts, n + 1, p, r))
    {
      RunPrefix(out + [s'], out, n, p, r);
    }
  }

  lemma SoundRunGrows(t: seq<Expr>, val: Vals, stmts: seq<Stmt>, t1: seq<Expr>, t2: seq<Expr>, out: seq<Stmt>, val': Vals, n: nat)
    requires Table(t) && InTable(t, val) && Table(t1) && Table(t2) && t1 <= t2 && InTable(t1, val') && InTable(t2, val')
    requires n <= |stmts| && n <= |out| && SoundRun(t, val, stmts, t1, out, val', n)
    ensures SoundRun(t, val, stmts, t2, out, val', n)
  {
    hide Table, Consistent, Run;
    forall p, r | Consistent(t, val, p, r) ensures Consistent(t2, val', p, Run(stmts, n, p, r)) {
      ConsistentGrows(t1, t2, val', p, Run(stmts, n, p, r));
    }
  }

  /** If the last statement is arithmetic, A is no known constant after it. */
  ghost predicate EndUnfolded(t: seq<Expr>, stmts: seq<Stmt>, val: Vals) {
    forall l :: 0 <= l < |stmts| && FinalOp(stmts, l) && Arith(stmts[l]) ==> !IsConst(t, val[A_ATOM])
  }

  lemma EndStep(t: seq<Expr>, out: seq<Stmt>, val: Vals, s': Stmt, t': seq<Expr>, val': Vals)
    requires EndUnfolded(t, out, val) && t <= t' && InTable(t, val)
    requires s' == Nop ==> val' == val
    requires Arith(s') ==> !IsConst(t', val'[A_ATOM])
    ensures EndUnfolded(t', out + [s'], val')
  {
    var u := out + [s'];
    forall l | 0 <= l < |u| && FinalOp(u, l) && Arith(u[l]) ensures !IsConst(t', val'[A_ATOM]) {
      if s' == Nop {
        assert forall i :: l < i < |out| ==> u[i] == out[i];
        assert FinalOp(out, l);
      } else {
        assert u[|out|] == s';
        assert l == |out|;
      }
    }
  }

  lemma EndUnfoldedIs(t: seq<Expr>, stmts: seq<Stmt>, val: Vals)
    requires EndUnfolded(t, stmts, val)
    ensures NoConstAtEnd(t, stmts, val)
  {
  }

  // ---------------------------------------------------------------------------------------
  // What becomes of each statement
  // ---------------------------------------------------------------------------------------

  /** What numbering makes of one statement, and of the numbers before it. */
  ghost predicate StepDone(t: seq<Expr>, s: Stmt, val: Vals, alter: bool, s': Stmt, val': Vals) {
    && InTable(t, val) && InTable(t, val') && Framed(s, val, val') && Simplified(s, s') && (s' == Nop ==> val' == val)
    && (s != Nop && !Arithmetic(s) ==> TransferDone(t, t, s, val, alter, s', val'))
    && (alter ==> Rewrote(t, val, s, s')) && (s' != Nop ==> Named(t, s', val, val'[Target(s')]))
  }

  /** vs holds the numbers before and after each of the first n statements. */
  ghost predicate TraceOf(t: seq<Expr>, val: Vals, stmts: seq<Stmt>, alter: bool, out: seq<Stmt>, val': Vals, vs: seq<Vals>, n: nat)
    requires n <= |stmts|
  {
    && |out| == n && |vs| == n + 1 && vs[0] == val && vs[n] == val'
    && forall k :: 0 <= k < n ==> StepDone(t, stmts[k], vs[k], alter, out[k], vs[k + 1])
  }

  ghost predicate Traced(t: seq<Expr>, val: Vals, stmts: seq<Stmt>, alter: bool, out: seq<Stmt>, val': Vals) {
    exists vs :: TraceOf(t, val, stmts, alter, out, val', vs, |stmts|)
  }

  /** What was done with a table holds of every larger one. */
  lemma StepDoneGrows(t: seq<Expr>, t': seq<Expr>, s: Stmt, val: Vals, alter: bool, s': Stmt, val': Vals)
    requires t <= t' && StepDone(t, s, val, alter, s', val')
    ensures StepDone(t', s, val, alter, s', val')
  {
    hide Framed, Simplified, ExprOf, Rewrote, Named;
    if s != Nop && !Arithmetic(s) { TransferGrows(t, t, t', s, val, alter, s', val'); }
    if alter { RewroteGrows(t, t', val, s, s'); }
    if s' != Nop { NamedGrows(t, t', s', val, val'[Target(s')]); }
    hide TransferDone;
  }

  lemma TransferGrows(t: seq<Expr>, t1: seq<Expr>, t': seq<Expr>, s: Stmt, val: Vals, alter: bool, s': Stmt, val': Vals)
    requires t <= t1 <= t' && InTable(t, val) && s != Nop && TransferDone(t, t1, s, val, alter, s', val')
    ensures TransferDone(t', t', s, val, alter, s', val')
  {
    hide ExprOf;
    assert Foldable(t, s, val) == Foldable(t', s, val);
    hide Foldable;
  }

  lemma TraceGrows(t: seq<Expr>, t': seq<Expr>, val: Vals, stmts: seq<Stmt>, alter: bool, out: seq<Stmt>, val': Vals, vs: seq<Vals>, n: nat)
    requires t <= t' && n <= |stmts| && TraceOf(t, val, stmts, alter, out, val', vs, n)
    ensures TraceOf(t', val, stmts, alter, out, val', vs, n)
  {
    hide StepDone;
    forall k | 0 <= k < n ensures StepDone(t', stmts[k], vs[k], alter, out[k], vs[k + 1]) {
      StepDoneGrows(t, t', stmts[k], vs[k], alter, out[k], vs[k + 1]);
    }
  }

  lemma TracedGrows(t: seq<Expr>, t': seq<Expr>, val: Vals, stmts: seq<Stmt>, alter: bool, out: seq<Stmt>, val': Vals)
    requires t <= t' && Traced(t, val, stmts, alter, out, val')
    ensures Traced(t', val, stmts, alter, out, val')
  {
    hide TraceOf;
    var vs :| TraceOf(t, val, stmts, alter, out, val', vs, |stmts|);
    TraceGrows(t, t', val, stmts, alter, out, val', vs, |stmts|);
  }

  lemma TraceStart(t: seq<Expr>, val: Vals, stmts: seq<Stmt>, alter: bool)
    ensures TraceOf(t, val, stmts, alter, [], val, [val], 0) && Kept(stmts[..0]) == []
  {
  }

  lemma TraceStep(t: seq<Expr>, val: Vals, stmts: seq<Stmt>, alter: bool, out: seq<Stmt>, v1: Vals, vs: seq<Vals>,
                  s': Stmt, t': seq<Expr>, val': Vals)
    requires |out| < |stmts| && t <= t' && TraceOf(t, val, stmts, alter, out, v1, vs, |out|)
    requires StepDone(t', stmts[|out|], v1, alter, s', val')
    ensures TraceOf(t', val, stmts, alter, out + [s'], val', vs + [val'], |out| + 1)
  {
    hide StepDone;
    TraceGrows(t, t', val, stmts, alter, out, v1, vs, |out|);
  }

  /** The numbered list defines and uses only what the list does. */
  lemma TracedNarrower(t: seq<Expr>, val: Vals, stmts: seq<Stmt>, alter: bool, out: seq<Stmt>, val': Vals)
    requires Traced(t, val, stmts, alter, out, val')
    ensures |out| == |stmts| && Narrower(stmts, out) && forall k :: 0 <= k < |out| ==> Simplified(stmts[k], out[k])
  {
    hide Simplified, TransferDone, Framed, InTable, Rewrote, Named;
    var vs :| TraceOf(t, val, stmts, alter, out, val', vs, |stmts|);
    forall k | 0 <= k < |out| ensures Within(stmts, out[k]) && Simplified(stmts[k], out[k]) {
      assert StepDone(t, stmts[k], vs[k], alter, out[k], vs[k + 1]);
      WithinItself(stmts, k);
      SimplifiedUses(stmts[k], out[k]);
    }
    NarrowerBy(stmts, out);
  }

  lemma SimplifiedUses(s: Stmt, s': Stmt)
    requires Simplified(s, s')
    ensures Uses(s') <= Uses(s) && (s' != Nop ==> s != Nop && Target(s') == Target(s))
  {
  }

  // ---------------------------------------------------------------------------------------
  // The numbering
  // ---------------------------------------------------------------------------------------

  /** What numbering the first n statements has established. */
  ghost predicate Numbering(t: seq<Expr>, val: Vals, stmts: seq<Stmt>, t': seq<Expr>, out: seq<Stmt>, val': Vals, n: nat)
    requires n <= |stmts|
  {
    && Table(t) && InTable(t, val) && Table(t') && t <= t' && InTable(t', val') && |out| == n && EndUnfolded(t', out, val')
    && (OperandsKnown(stmts, KnownRegs(val)) ==>
          KnownRegs(val') == KnownAfter(stmts, n, KnownRegs(val)) && SoundRun(t, val, stmts, t', out, val', n))
  }

  /** A statement that may be refused: it divides by the constant zero, or divides or shifts by X. */
  predicate Refusable(s: Stmt) {
    match s
    case AluK(op, k) => k == ZERO && (op.Div? || op.Mod?)
    case AluX(op) => op.Div? || op.Mod? || op.Lsh? || op.Rsh?
    case _ => false
  }

  /** No statement can be refused. */
  ghost predicate Plain(stmts: seq<Stmt>) {
    forall k :: 0 <= k < |stmts| ==> !Refusable(stmts[k])
  }

  /** Statement n is refused, after those before it have been rewritten. */
  ghost predicate RefusedAt(t: seq<Expr>, val: Vals, stmts: seq<Stmt>, out: seq<Stmt>, vs: seq<Vals>, n: nat) {
    n < |stmts| && |vs| == n + 1 && TraceOf(t, val, stmts, true, out, vs[n], vs, n) && Rejects(t, stmts[n], vs[n])
  }

  /** Some statement is refused. */
  ghost predicate Refused(val: Vals, stmts: seq<Stmt>) {
    exists t, out, vs, n :: Table(t) && RefusedAt(t, val, stmts, out, vs, n)
  }

  lemma PlainAccepted(stmts: seq<Stmt>, n: nat, t: seq<Expr>, val: Vals)
    requires Plain(stmts) && n < |stmts|
    ensures !Rejects(t, stmts[n], val)
  {
    assert !Refusable(stmts[n]);
  }

  lemma NumberingStart(t: seq<Expr>, val: Vals, stmts: seq<Stmt>)
    requires Table(t) && InTable(t, val)
    ensures Numbering(t, val, stmts, t, [], val, 0)
  {
  }

  lemma NumberingStep(t: seq<Expr>, val: Vals, stmts: seq<Stmt>, t1: seq<Expr>, out: seq<Stmt>, v1: Vals,
                      s': Stmt, t': seq<Expr>, val': Vals)
    requires |out| < |stmts| && Numbering(t, val, stmts, t1, out, v1, |out|)
    requires Table(t') && t1 <= t' && InTable(t', val') && InTable(t1, v1) && Framed(stmts[|out|], v1, val')
    requires Known(stmts[|out|], v1) ==> Sound(t1, v1, stmts[|out|], t', s', val')
    requires s' == Nop ==> val' == v1
    requires Arith(s') ==> !IsConst(t', val'[A_ATOM])
    ensures Numbering(t, val, stmts, t', out + [s'], val', |out| + 1)
  {
    hide Sound, SoundRun, Framed, Known, Table, InTable, KnownRegs, OperandsKnown, EndUnfolded, Operands, KnownStep, IsConst;
    var n, known := |out|, KnownRegs(val);
    EndStep(t1, out, v1, s', t', val');
    if OperandsKnown(stmts, known) {
      OperandsKnownAt(stmts, known, n);
      KnownOperands(stmts[n], v1);
      KnownStepped(stmts[n], v1, val');
      SoundRunStep(t, val, stmts, t1, out, v1, s', t', val');
    }
  }

  /** Numbers the values a statement list computes and, if alter is set, rewrites the list. If every
      number it hands to the table is known, the new list does what the old one does. */
  method OptStmts(tbl: ValueTable, stmts: seq<Stmt>, val: Vals, alter: bool)
    returns (out: seq<Stmt>, val': Vals, ok: bool)
    requires tbl.Valid() && InTable(tbl.exprs, val) && tbl.curval + 2 * |Kept(stmts)| < tbl.vmap.Length
    modifies tbl, tbl.vmap
    ensures |out| == |stmts| && (!alter ==> ok && out == stmts) && (Plain(stmts) ==> ok) && (!ok ==> Refused(val, stmts))
    ensures ok ==> tbl.Valid() && tbl.curval <= old(tbl.curval) + 2 * |Kept(stmts)|
    ensures ok ==> Numbering(old(tbl.exprs), val, stmts, tbl.exprs, out, val', |stmts|)
    ensures ok ==> Traced(tbl.exprs, val, stmts, alter, out, val')
  {
    hide Numbering, Sound, Framed, Known, Rejects, Plain, Folded, TransferDone, Kept, TraceOf, StepDone, Simplified, ValueTable.Valid, InTable, Table,
      IsConst, Rewrote, Named, Refused;
    ghost var t := tbl.exprs;
    tbl.ValidShape(val);
    NumberingStart(t, val, stmts);
    out, val', ok := [], val, true;
    ghost var vs := [val];
    TraceStart(t, val, stmts, alter);
    for n := 0 to |stmts|
      invariant tbl.Valid() && InTable(tbl.exprs, val') && |out| == n && (!alter ==> out == stmts[..n])
      invariant tbl.curval <= |t| + 2 * |Kept(stmts[..n])|
      invariant Numbering(t, val, stmts, tbl.exprs, out, val', n) && TraceOf(tbl.exprs, val, stmts, alter, out, val', vs, n)
    {
      KeptNext(stmts, n);
      tbl.ValidShape(val');
      if Plain(stmts) { PlainAccepted(stmts, n, tbl.exprs, val'); }
      ghost var t1, v1 := tbl.exprs, val';
      var s';
      s', val', ok := tbl.OptStmt(stmts[n], val', alter);
      if !ok {
        RefusedBy(t1, val, stmts, out, v1, vs);
        return stmts, val', false;
      }
      tbl.ValidShape(val');
      NumberingStep(t, val, stmts, t1, out, v1, s', tbl.exprs, val');
      StepIsDone(t1, tbl.exprs, stmts[n], v1, alter, s', val');
      TraceStep(t1, val, stmts, alter, out, v1, vs, s', tbl.exprs, val');
      out, vs := out + [s'], vs + [val'];
    }
    assert stmts[..|stmts|] == stmts;
  }

  lemma RefusedBy(t: seq<Expr>, val: Vals, stmts: seq<Stmt>, out: seq<Stmt>, v1: Vals, vs: seq<Vals>)
    requires Table(t) && |out| < |stmts| && TraceOf(t, val, stmts, true, out, v1, vs, |out|) && Rejects(t, stmts[|out|], v1)
    ensures Refused(val, stmts)
  {
    hide Rejects, StepDone, Table;
    assert RefusedAt(t, val, stmts, out, vs, |out|);
  }

  lemma StepIsDone(t: seq<Expr>, t': seq<Expr>, s: Stmt, val: Vals, alter: bool, s': Stmt, val': Vals)
    requires t <= t' && InTable(t, val) && InTable(t', val') && Framed(s, val, val') && Simplified(s, s') && (s' == Nop ==> val' == val)
    requires s != Nop && !Arithmetic(s) ==> TransferDone(t, t', s, val, alter, s', val')
    requires (alter ==> Rewrote(t, val, s, s')) && (s' != Nop ==> Named(t', s', val, val'[Target(s')]))
    ensures StepDone(t', s, val, alter, s', val')
  {
    hide Framed, Simplified, TransferDone, Rewrote, Named;
    if s != Nop && !Arithmetic(s) { TransferGrows(t, t', t', s, val, alter, s', val'); }
    if alter { RewroteGrows(t, t', val, s, s'); }
  }

  lemma KeptNext(stmts: seq<Stmt>, n: nat)
    requires n < |stmts|
    ensures |Kept(stmts[..n + 1])| == |Kept(stmts[..n])| + (if stmts[n] == Nop then 0 else 1)
    ensures |Kept(stmts[..n + 1])| <= |Kept(stmts)|
  {
    assert stmts[..n + 1][..n] == stmts[..n];
    KeptPrefix(stmts, n + 1);
  }

  // ---------------------------------------------------------------------------------------
  // Unknown operands
  // ---------------------------------------------------------------------------------------

  /** Two loads, indexed by two scratch words. */
  function TwoLoads(): seq<Stmt> {
    [LdxMem(0), LdInd(W, ZERO), LdxMem(1), LdInd(W, ZERO)]
  }

  /** A load or move is deleted exactly if its register is known to hold what it writes. */
  method Transfer(tbl: ValueTable, s: Stmt, val: Vals) returns (s': Stmt, val': Vals)
    requires tbl.Valid() && InTable(tbl.exprs, val) && tbl.curval + 2 < tbl.vmap.Length
    requires s != Nop && !Arithmetic(s) && !Foldable(tbl.exprs, s, val)
    modifies tbl, tbl.vmap
    ensures tbl.Valid() && Table(tbl.exprs) && old(tbl.exprs) <= tbl.exprs && tbl.curval <= old(tbl.curval) + 2 && InTable(tbl.exprs, val')
    ensures val' == val[Target(s) := val'[Target(s)]] && Numbers(tbl.exprs, s, val, val'[Target(s)])
    ensures s' == if val[Target(s)] == val'[Target(s)] != VAL_UNKNOWN then Nop else s
  {
    var ok;
    s', val', ok := tbl.OptStmt(s, val, true);
    hide Sound, Folded, Known, Table, InTable;
  }

  /** A load indexed by an unknown scratch word. */
  method LoadUnknown(tbl: ValueTable, m: MemIndex, val: Vals) returns (s0: Stmt, s1: Stmt, val': Vals)
    requires tbl.Valid() && InTable(tbl.exprs, val) && tbl.curval + 4 < tbl.vmap.Length && val[m] == VAL_UNKNOWN
    modifies tbl, tbl.vmap
    ensures tbl.Valid() && Table(tbl.exprs) && old(tbl.exprs) <= tbl.exprs && tbl.curval <= old(tbl.curval) + 4 && InTable(tbl.exprs, val')
    ensures val' == val[X_ATOM := VAL_UNKNOWN][A_ATOM := val'[A_ATOM]] && IsEntry(tbl.exprs, val'[A_ATOM], Ind(W, ZERO, VAL_UNKNOWN))
    ensures s0 == LdxMem(m) && s1 == if val[A_ATOM] == val'[A_ATOM] != VAL_UNKNOWN then Nop else LdInd(W, ZERO)
  {
    hide ValueTable.Valid, InTable, Table, IsEntry, IsConst;
    NotConst(tbl.exprs);
    s0, val' := Transfer(tbl, LdxMem(m), val);
    NotConst(tbl.exprs);
    s1, val' := Transfer(tbl, LdInd(W, ZERO), val');
  }

  /** If the scratch words are unknown, the two loads get the same number and the second is deleted. */
  method UnknownIndex(tbl: ValueTable) returns (out: seq<Stmt>)
    requires tbl.vmap.Length > 8
    modifies tbl, tbl.vmap
    ensures out == TwoLoads()[3 := Nop] && !OperandsKnown(TwoLoads(), {})
  {
    tbl.InitVal();
    assert KnownAfter(TwoLoads(), 1, {}) == {};
    assert X_ATOM in Operands(TwoLoads()[1]);
    var val: Vals := seq(N_ATOMS, i => VAL_UNKNOWN);
    var s0, s1, s2, s3;
    hide ValueTable.Valid, InTable, KnownAfter, OperandsKnown, Operands, Table, IsEntry;
    s0, s1, val := LoadUnknown(tbl, 0, val);
    ghost var t, v := tbl.exprs, val[A_ATOM];
    s2, s3, val := LoadUnknown(tbl, 1, val);
    SameEntry(t, tbl.exprs, v, val[A_ATOM], Ind(W, ZERO, VAL_UNKNOWN));
    EntryInRange(t, v, Ind(W, ZERO, VAL_UNKNOWN));
    out := [s0, s1, s2, s3];
  }

  lemma NotConst(t: seq<Expr>)
    ensures !IsConst(t, VAL_UNKNOWN)
  {
  }

  /** An expression keeps its number. */
  lemma SameEntry(t: seq<Expr>, t': seq<Expr>, v: nat, w: nat, e: Expr)
    requires t <= t' && Table(t') && IsEntry(t, v, e) && IsEntry(t', w, e)
    ensures v == w != VAL_UNKNOWN
  {
  }

  /** That loses the second load. */
  lemma UnknownIndexFails()
    ensures exists p, r :: RunAll(TwoLoads()[3 := Nop], p, r)[A_ATOM] != RunAll(TwoLoads(), p, r)[A_ATOM]
  {
    var u := TwoLoads();
    var v := u[3 := Nop];
    var p := Packet(map[(W, Word(4)) := Word(1)], ZERO);
    var r: Regs := seq(18, i => if i == 1 then Word(4) else ZERO);
    assert Indexed(ZERO, ZERO) == ZERO && Indexed(Word(4), ZERO) == Word(4);
    hide Indexed;
    RunNext(u, 0, p, r);
    RunNext(u, 1, p, r);
    RunNext(u, 2, p, r);
    RunNext(u, 3, p, r);
    RunNext(v, 0, p, r);
    RunNext(v, 1, p, r);
    RunNext(v, 2, p, r);
    RunNext(v, 3, p, r);
    assert Run(u, 0, p, r) == r && Run(v, 0, p, r) == r;
    hide Run;
    assert RunAll(v, p, r)[A_ATOM] != RunAll(u, p, r)[A_ATOM];
  }
}
