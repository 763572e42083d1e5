/**
 Peephole rewriting: neighbouring statements that can be joined, and the comparison at the end of
 a block.
 */
module Peephole {
  import opened Machine
  import opened Flow
  import opened Liveness
  import opened Rewrite
  import opened Values
  import opened Words
  import opened PeepRules
  import DeadStores
  import Numerals

  // ---------------------------------------------------------------------------------------
  // What the scan leaves alone, and what it leaves behind
  // ---------------------------------------------------------------------------------------

  predicate Arith(s: Stmt) {
    s.AluK? || s.AluX?
  }

  /** The scan deletes only what an indexed load makes superfluous, and rewrites no arithmetic. */
  ghost predicate Scanned(u: seq<Stmt>, v: seq<Stmt>) {
    && |v| == |u|
    && (forall k :: 0 <= k < |u| ==>
          && (u[k] == Nop ==> v[k] == Nop) && (u[k].LdInd? ==> v[k].LdInd?)
          && (Arith(v[k]) ==> u[k] == v[k]) && (Arith(u[k]) ==> v[k] == u[k] || v[k] == Nop))
    && (forall k :: 0 <= k < |u| && u[k] != Nop && v[k] == Nop ==> LoadAfter(v, k))
  }

  ghost predicate LoadAfter(v: seq<Stmt>, k: nat) {
    exists j :: k < j < |v| && v[j].LdInd?
  }

  lemma ScannedTrans(u: seq<Stmt>, v: seq<Stmt>, w: seq<Stmt>)
    requires Scanned(u, v) && Scanned(v, w)
    ensures Scanned(u, w)
  {
    forall k | 0 <= k < |u| && u[k] != Nop && w[k] == Nop ensures LoadAfter(w, k) {
      if v[k] == Nop {
        assert LoadAfter(v, k);
        var j :| k < j < |v| && v[j].LdInd?;
        assert w[j].LdInd?;
      }
    }
  }

  /** l is the last statement that is not deleted. */
  ghost predicate FinalOp(stmts: seq<Stmt>, l: nat) {
    l < |stmts| && stmts[l] != Nop && forall i :: l < i < |stmts| ==> stmts[i] == Nop
  }

  ghost predicate OpBefore(stmts: seq<Stmt>, l: nat)
    requires l <= |stmts|
  {
    exists i :: 0 <= i < l && stmts[i] != Nop
  }

  /** l is the last statement, and the scan finds it: it is the first in the list, or comes after
      another. */
  ghost predicate Seen(stmts: seq<Stmt>, l: nat) {
    FinalOp(stmts, l) && (l == 0 || OpBefore(stmts, l))
  }

  lemma FinalOpKept(u: seq<Stmt>, v: seq<Stmt>, l: nat)
    requires Scanned(u, v) && l < |u|
    ensures FinalOp(v, l) ==> FinalOp(u, l)
    ensures FinalOp(u, l) && Arith(u[l]) ==> FinalOp(v, l) && v[l] == u[l]
  {
    if FinalOp(v, l) {
      forall k | l < k < |u| ensures u[k] == Nop {
        assert u[k] != Nop ==> LoadAfter(v, k);
      }
    }
    if FinalOp(u, l) && Arith(u[l]) {
      assert v[l] == Nop ==> LoadAfter(v, l);
    }
  }

  /** Two neighbours that the scan joins. */
  ghost predicate Joinable(s: Stmt, next: Stmt) {
    (s.St? && next == LdxMem(s.m)) || (s.LdImm? && next == Tax)
  }

  /** No statement before n can be joined with the next. */
  ghost predicate Joined(stmts: seq<Stmt>, n: nat) {
    forall i, j :: 0 <= i < n && i < j < |stmts| && stmts[i] != Nop && IsOp(stmts, i + 1, j) ==> !Joinable(stmts[i], stmts[j])
  }

  /** What one step does to the statement it is at. */
  ghost predicate Stepped(u: seq<Stmt>, v: seq<Stmt>, i: nat, next: nat)
    requires i < next < |u| == |v|
  {
    && (forall k :: 0 <= k < i ==> u[k] == v[k]) && (forall k :: i < k < next ==> v[k] == Nop)
    && if v[i] == Nop then exists j :: i < j < |v| && IsOp(v, i, j) && (v[j].LdxMsh? || v[j].LdInd?)
       else (v[i] == u[i] || v[i].LdxImm?) && IsOp(v, i + 1, next) && !Joinable(v[i], v[next])
  }

  lemma JoinedStep(u: seq<Stmt>, v: seq<Stmt>, i: nat, next: nat)
    requires i < next < |u| == |v| && u[i] != Nop && IsOp(u, i + 1, next) && Joined(u, i) && Stepped(u, v, i, next)
    ensures Joined(v, next)
  {
    forall k, j | 0 <= k < next && k < j < |v| && v[k] != Nop && IsOp(v, k + 1, j) ensures !Joinable(v[k], v[j]) {
      if k < i {
        if j < i {
          assert IsOp(u, k + 1, j);
        } else if v[i] != Nop {
          assert j == i && IsOp(u, k + 1, i);
        } else {
          var j' :| i < j' < |v| && IsOp(v, i, j') && (v[j'].LdxMsh? || v[j'].LdInd?);
          assert j == j';
        }
      } else if v[i] != Nop {
        assert k == i && j == next;
      }
    }
  }

  // ---------------------------------------------------------------------------------------
  // Where the rules have been applied
  // ---------------------------------------------------------------------------------------

  /** A statement that a rule starts from. */
  predicate Opens(s: Stmt) {
    s.St? || s.LdImm?
  }

  /** A constant load, an addition and a move to X are deleted, and the indexed load after them has the constant added to
      its offset. */
  ghost predicate Moved(u: seq<Stmt>, v: seq<Stmt>, i: nat, add: nat, tax: nat, ild: nat)
    requires i < add < tax < ild < |u| == |v| && u[i].LdImm? && u[ild].LdInd?
  {
    && v[i] == Nop && v[add] == Nop && v[tax] == Nop && v[ild].LdInd? && v[ild].size == u[ild].size
    && Number(v[ild].k) == (Number(u[ild].k) + Number(u[i].k)) % Numerals.WORDS
  }

  /** The rules for the statement of u at i, and the next one, have been applied in v. */
  ghost predicate Applied(u: seq<Stmt>, v: seq<Stmt>, out: set<nat>, i: nat, next: nat)
    requires i < next < |u| == |v|
  {
    && (u[i].St? && u[next] == LdxMem(u[i].m) ==> v[next] == Tax)
    && (u[i].LdImm? && u[next] == Tax ==> v[i] == LdxImm(u[i].k) && v[next] == Txa)
    && (X_ATOM !in out ==> forall add, tax, ild :: Indexing(u, i, next, add, tax, ild) ==> Moved(u, v, i, add, tax, ild))
  }

  /** One of these rules rewrites statement k. */
  ghost predicate Touched(u: seq<Stmt>, out: set<nat>, i: nat, next: nat, k: nat)
    requires i < next < |u|
  {
    || (Joinable(u[i], u[next]) && (k == next || (k == i && u[i].LdImm?)))
    || (X_ATOM !in out && exists add, tax, ild :: Indexing(u, i, next, add, tax, ild) && k in {i, add, tax, ild})
  }

  /** v is u with the rules for the statement at i, and the next one, applied; and nothing else is rewritten. */
  ghost predicate Ruled(u: seq<Stmt>, v: seq<Stmt>, out: set<nat>, i: nat, next: nat)
    requires i < next < |u|
  {
    |v| == |u| && Applied(u, v, out, i, next) && forall k :: 0 <= k < |u| && !Touched(u, out, i, next, k) ==> v[k] == u[k]
  }

  /** Some rule for a statement before n rewrites statement k. */
  ghost predicate TouchedBefore(u: seq<Stmt>, out: set<nat>, n: nat, k: nat) {
    exists i, next :: 0 <= i < n && i < next < |u| && IsOp(u, i + 1, next) && Touched(u, out, i, next, k)
  }

  /** v is u with the rules for all statements before n applied; and nothing else is rewritten. */
  ghost predicate RuledTo(u: seq<Stmt>, v: seq<Stmt>, out: set<nat>, n: nat) {
    && |v| == |u|
    && (forall i, next :: 0 <= i < n && i < next < |u| && IsOp(u, i + 1, next) ==> Applied(u, v, out, i, next))
    && (forall k :: 0 <= k < |u| && !TouchedBefore(u, out, n, k) ==> v[k] == u[k])
  }

  ghost predicate SameFrom(u: seq<Stmt>, v: seq<Stmt>, i: nat)
    requires |u| == |v|
  {
    forall k :: i <= k < |u| ==> u[k] == v[k]
  }

  /** From n on, nothing has been rewritten at or after a statement that a rule starts from. */
  ghost predicate Fresh(u: seq<Stmt>, v: seq<Stmt>, n: nat) {
    |u| == |v| && forall i :: n <= i < |u| && (Opens(u[i]) || Opens(v[i])) ==> SameFrom(u, v, i)
  }

  lemma IndexingOnce(u: seq<Stmt>, i: nat, next: nat, add: nat, tax: nat, ild: nat, add': nat, tax': nat, ild': nat)
    requires Indexing(u, i, next, add, tax, ild) && Indexing(u, i, next, add', tax', ild')
    ensures add == add' && tax == tax' && ild == ild'
  {
  }

  lemma CollapseRuled(u: seq<Stmt>, out: set<nat>, i: nat, next: nat, add: nat, tax: nat, ild: nat)
    requires Indexing(u, i, next, add, tax, ild) && X_ATOM !in out
    ensures next < |u| && Ruled(u, Collapsed(u, i, add, tax, ild), out, i, next)
  {
    var v := Collapsed(u, i, add, tax, ild);
    Numerals.NumberIndexed(u[ild].k, u[i].k);
    hide Indexed, IsOp, Number;
    assert Moved(u, v, i, add, tax, ild);
    assert !Joinable(u[i], u[next]);
    hide Moved;
    forall add', tax', ild' | Indexing(u, i, next, add', tax', ild') ensures Moved(u, v, i, add', tax', ild') {
      IndexingOnce(u, i, next, add, tax, ild, add', tax', ild');
    }
    forall k | 0 <= k < |u| && !Touched(u, out, i, next, k) ensures v[k] == u[k] {
      assert k !in {i, add, tax, ild};
    }
  }

  /** The statements of an indexing sequence come before any other statement that a rule starts from. */
  lemma SequencePast(u: seq<Stmt>, i: nat, next: nat, add: nat, tax: nat, ild: nat, j: nat)
    requires Indexing(u, i, next, add, tax, ild) && i < j < |u| && Opens(u[j])
    ensures ild < j
  {
  }

  lemma NextPast(u: seq<Stmt>, i: nat, next: nat, j: nat)
    requires i < next < |u| && IsOp(u, i + 1, next) && i < j < |u| && u[j] != Nop
    ensures next <= j
  {
  }

  /** Lists that agree from i on have the same sequences there. */
  lemma IndexingSame(u: seq<Stmt>, v: seq<Stmt>, i: nat, next: nat, add: nat, tax: nat, ild: nat)
    requires |u| == |v| && SameFrom(u, v, i)
    ensures Indexing(u, i, next, add, tax, ild) <==> Indexing(v, i, next, add, tax, ild)
  {
  }

  /** What a rule for an earlier statement rewrites comes before any later statement that a rule starts from. */
  lemma TouchedPast(u: seq<Stmt>, out: set<nat>, i: nat, next: nat, k: nat, j: nat)
    requires i < next < |u| && IsOp(u, i + 1, next) && Touched(u, out, i, next, k) && i < j < |u| && Opens(u[j])
    ensures k < j
  {
    NextPast(u, i, next, j);
    if X_ATOM !in out {
      if add, tax, ild :| Indexing(u, i, next, add, tax, ild) && k in {i, add, tax, ild} { SequencePast(u, i, next, add, tax, ild, j); }
    }
  }

  /** A rule still is applied when only statements from j on are rewritten, where a later rule starts. */
  lemma AppliedStays(u: seq<Stmt>, v: seq<Stmt>, w: seq<Stmt>, out: set<nat>, i: nat, next: nat, j: nat)
    requires i < next < |u| == |v| == |w| && IsOp(u, i + 1, next) && Applied(u, v, out, i, next) && i < j < |u| && Opens(u[j])
    requires forall k :: 0 <= k < j ==> w[k] == v[k]
    ensures Applied(u, w, out, i, next)
  {
    NextPast(u, i, next, j);
    forall add, tax, ild | Indexing(u, i, next, add, tax, ild) && X_ATOM !in out ensures Moved(u, w, i, add, tax, ild) {
      SequencePast(u, i, next, add, tax, ild, j);
      assert Moved(u, v, i, add, tax, ild);
      hide IsOp, Number;
    }
  }

  /** The same rules apply to lists that agree from i on. */
  lemma AppliedSame(u: seq<Stmt>, v: seq<Stmt>, w: seq<Stmt>, out: set<nat>, i: nat, next: nat)
    requires i < next < |u| == |v| == |w| && SameFrom(u, v, i) && Applied(v, w, out, i, next)
    ensures Applied(u, w, out, i, next)
    ensures forall k :: Touched(u, out, i, next, k) == Touched(v, out, i, next, k)
  {
    forall add, tax, ild ensures Indexing(u, i, next, add, tax, ild) <==> Indexing(v, i, next, add, tax, ild) {
      IndexingSame(u, v, i, next, add, tax, ild);
    }
    assert u[i] == v[i] && u[next] == v[next];
    hide IsOp, Number;
    forall add, tax, ild | Indexing(u, i, next, add, tax, ild) && X_ATOM !in out ensures Moved(u, w, i, add, tax, ild) {
      assert Moved(v, w, i, add, tax, ild);
    }
  }

  /** A rule that does not start at a statement that opens one does nothing. */
  lemma AppliedNone(u: seq<Stmt>, v: seq<Stmt>, out: set<nat>, i: nat, next: nat)
    requires i < next < |u| == |v| && !Opens(u[i])
    ensures Applied(u, v, out, i, next) && forall k :: !Touched(u, out, i, next, k)
  {
  }

  /** A rule rewrites no statement that opens one but its own first. */
  lemma TouchedKinds(u: seq<Stmt>, out: set<nat>, i: nat, next: nat, k: nat)
    requires i < next < |u| && Touched(u, out, i, next, k)
    ensures i <= k < |u| && Opens(u[i]) && (k != i ==> !Opens(u[k]))
  {
  }

  lemma RuledAfter(u: seq<Stmt>, v: seq<Stmt>, w: seq<Stmt>, out: set<nat>, last: nat, i: nat, next: nat, j: nat, m: nat)
    requires RuledTo(u, v, out, last) && Fresh(u, v, last) && last <= i < next < |v| && IsOp(v, last, i) && IsOp(v, i + 1, next)
    requires Ruled(v, w, out, i, next) && (!Opens(v[i]) ==> w == v)
    requires 0 <= j < next && j < m < |u| && IsOp(u, j + 1, m)
    ensures Applied(u, w, out, j, m)
  {
    hide Applied, Touched, Number;
    if j < last {
      if Opens(v[i]) {
        assert SameFrom(u, v, i);
        forall k | 0 <= k < i ensures w[k] == v[k] {
          if Touched(v, out, i, next, k) { TouchedKinds(v, out, i, next, k); }
        }
        AppliedStays(u, v, w, out, j, m, i);
      }
    } else if Opens(u[j]) {
      assert SameFrom(u, v, j) && v[j] != Nop;
      assert j == i && m == next;
      AppliedSame(u, v, w, out, i, next);
    } else {
      AppliedNone(u, w, out, j, m);
    }
  }

  lemma RuledElse(u: seq<Stmt>, v: seq<Stmt>, w: seq<Stmt>, out: set<nat>, last: nat, i: nat, next: nat, k: nat)
    requires RuledTo(u, v, out, last) && Fresh(u, v, last) && last <= i < next < |v| && IsOp(v, i + 1, next)
    requires Ruled(v, w, out, i, next) && (!Opens(v[i]) ==> w == v)
    requires k < |u| && !TouchedBefore(u, out, next, k)
    ensures w[k] == u[k]
  {
    hide Applied, Touched, Number;
    assert !TouchedBefore(u, out, last, k);
    if Opens(v[i]) {
      assert SameFrom(u, v, i);
      AppliedSame(u, v, w, out, i, next);
      assert IsOp(u, i + 1, next);
    }
  }

  /** One step of the scan. */
  lemma RuledStep(u: seq<Stmt>, v: seq<Stmt>, w: seq<Stmt>, out: set<nat>, last: nat, i: nat, next: nat)
    requires RuledTo(u, v, out, last) && Fresh(u, v, last) && last <= i < next < |v| && IsOp(v, last, i) && IsOp(v, i + 1, next)
    requires Ruled(v, w, out, i, next)
    ensures RuledTo(u, w, out, next) && Fresh(u, w, next)
  {
    hide Applied, Touched, IsOp, TouchedBefore;
    if !Opens(v[i]) {
      AppliedNone(v, w, out, i, next);
      assert w == v;
    }
    forall j, m | 0 <= j < next && j < m < |u| && IsOp(u, j + 1, m) ensures Applied(u, w, out, j, m) {
      RuledAfter(u, v, w, out, last, i, next, j, m);
    }
    forall k | 0 <= k < |u| && !TouchedBefore(u, out, next, k) ensures w[k] == u[k] {
      RuledElse(u, v, w, out, last, i, next, k);
    }
    forall j | next <= j < |u| && (Opens(u[j]) || Opens(w[j])) ensures SameFrom(u, w, j) {
      FreshStep(u, v, w, out, last, i, next, j);
    }
  }

  lemma FreshStep(u: seq<Stmt>, v: seq<Stmt>, w: seq<Stmt>, out: set<nat>, last: nat, i: nat, next: nat, j: nat)
    requires Fresh(u, v, last) && last <= i < next < |v| && IsOp(v, i + 1, next) && Ruled(v, w, out, i, next) && (!Opens(v[i]) ==> w == v)
    requires next <= j < |u| && (Opens(u[j]) || Opens(w[j]))
    ensures SameFrom(u, w, j)
  {
    hide IsOp;
    RuledOpens(v, w, out, i, next, j);
    hide Applied, Touched;
    if Opens(v[j]) {
      assert SameFrom(u, v, j);
      forall k | j <= k < |u| ensures w[k] == u[k] {
        if Opens(v[i]) && Touched(v, out, i, next, k) { TouchedPast(v, out, i, next, k, j); }
      }
    }
  }

  /** A rule leaves no statement that opens one where there was none. */
  lemma RuledOpens(v: seq<Stmt>, w: seq<Stmt>, out: set<nat>, i: nat, next: nat, j: nat)
    requires i < next < |v| && Ruled(v, w, out, i, next) && i < j < |v| && Opens(w[j])
    ensures Opens(v[j])
  {
    hide IsOp, Number;
  }

  /** The scan ends where no rule starts from anything that is left. */
  lemma RuledDone(u: seq<Stmt>, v: seq<Stmt>, out: set<nat>, last: nat, i: nat)
    requires RuledTo(u, v, out, last) && Fresh(u, v, last) && last <= i <= |v| && IsOp(v, last, i) && (i < |v| ==> IsOp(v, i + 1, |v|))
    ensures RuledTo(u, v, out, |u|)
  {
    hide Applied, Touched;
    forall j, m | 0 <= j < |u| && j < m < |u| && IsOp(u, j + 1, m) ensures Applied(u, v, out, j, m) {
      if j >= last {
        AppliedNone(u, v, out, j, m);
      }
    }
    forall k | 0 <= k < |u| && !TouchedBefore(u, out, |u|, k) ensures v[k] == u[k] {
      assert !TouchedBefore(u, out, last, k);
    }
  }

  // ---------------------------------------------------------------------------------------
  // The scan over the statements
  // ---------------------------------------------------------------------------------------

  /** The scan may go on at i: it never touches what an indexed load uses, or that is harmless when the branch and
      the registers of want are all that matters in the end. */
  ghost predicate Safe(stmts: seq<Stmt>, s: Branch, out: set<nat>, want: set<nat>, i: nat) {
    X_ATOM in out || AllHarmless(stmts, Exits(s, want), i)
  }

  /** A step from u to v keeps whatever may be wanted in the end. */
  ghost predicate StepKeeps(u: seq<Stmt>, v: seq<Stmt>, s: Branch, out: set<nat>, i: nat, next: nat) {
    forall want :: Safe(u, s, out, want, i) ==> SameEffect(u, v, s, want) && Safe(v, s, out, want, next)
  }

  /** Rewrites the statement at i and the one after it, at next. */
  method PeepPair(stmts: seq<Stmt>, s: Branch, out: set<nat>, i: nat, next: nat) returns (res: seq<Stmt>)
    requires i < next < |stmts| && stmts[i] != Nop && IsOp(stmts, i + 1, next)
    ensures |res| == |stmts| && Scanned(stmts, res) && Stepped(stmts, res, i, next) && KeepsScope(stmts, res) && Narrower(stmts, res)
    ensures StepKeeps(stmts, res, s, out, i, next) && Ruled(stmts, res, out, i, next)
    ensures !stmts[i].LdImm? && !Joinable(stmts[i], stmts[next]) ==> res == stmts
  {
    hide SameEffect, AllHarmless, KeepsScope, StepKeeps, Narrower, Moved;
    KeepsAll(stmts, s, out, i, next);
    NarrowerRefl(stmts);
    EffectRefl(stmts, s, out);
    res := stmts;
    if res[i].St? && res[next].LdxMem? && res[i].m == res[next].m {
      StoreLoadKeeps(res, s, out, i, next);
      StoreLoadScope(res, i, next);
      StoreLoadNarrower(res, i, next);
      res := res[next := Tax];
    } else if res[i].LdImm? && res[next] == Tax {
      ImmTaxKeeps(res, s, out, i, next);
      ImmTaxScope(res, i, next);
      ImmTaxNarrower(res, i, next);
      res := res[i := LdxImm(res[i].k)][next := Txa];
    } else if res[i].LdImm? && X_ATOM !in out {
      res := PeepIndexed(res, s, out, i, next);
    }
  }

  lemma EffectRefl(u: seq<Stmt>, s: Branch, want: set<nat>)
    ensures SameEffect(u, u, s, want) && KeepsScope(u, u)
  {
  }

  lemma SafeLater(u: seq<Stmt>, s: Branch, out: set<nat>, want: set<nat>, m: nat, n: nat)
    requires m <= n && Safe(u, s, out, want, m)
    ensures Safe(u, s, out, want, n)
  {
    hide AllHarmless;
    if X_ATOM !in out { HarmlessLater(u, Exits(s, want), m, n); }
  }

  lemma KeepsAll(u: seq<Stmt>, s: Branch, out: set<nat>, i: nat, next: nat)
    requires i <= next
    ensures StepKeeps(u, u, s, out, i, next)
  {
    hide Safe, SameEffect;
    forall want | Safe(u, s, out, want, i) ensures SameEffect(u, u, s, want) && Safe(u, s, out, want, next) {
      EffectRefl(u, s, want);
      SafeLater(u, s, out, want, i, next);
    }
  }

  lemma StoreLoadKeeps(u: seq<Stmt>, s: Branch, out: set<nat>, i: nat, next: nat)
    requires i < next < |u| && IsOp(u, i + 1, next) && u[i].St? && u[next] == LdxMem(u[i].m)
    ensures StepKeeps(u, u[next := Tax], s, out, i, next)
  {
    hide SameEffect, AllHarmless;
    forall want | Safe(u, s, out, want, i) ensures SameEffect(u, u[next := Tax], s, want) && Safe(u[next := Tax], s, out, want, next) {
      StoreLoad(u, s, want, i, next);
      SafeLater(u, s, out, want, i, next);
      if X_ATOM !in out { HarmlessTail(u, u[next := Tax], Exits(s, want), next, next + 1); }
    }
  }

  lemma ImmTaxKeeps(u: seq<Stmt>, s: Branch, out: set<nat>, i: nat, next: nat)
    requires i < next < |u| && IsOp(u, i + 1, next) && u[i].LdImm? && u[next] == Tax
    ensures StepKeeps(u, u[i := LdxImm(u[i].k)][next := Txa], s, out, i, next)
  {
    hide SameEffect, AllHarmless;
    var v := u[i := LdxImm(u[i].k)][next := Txa];
    forall want | Safe(u, s, out, want, i) ensures SameEffect(u, v, s, want) && Safe(v, s, out, want, next) {
      ImmTax(u, s, want, i, next);
      SafeLater(u, s, out, want, i, next);
      if X_ATOM !in out { HarmlessTail(u, v, Exits(s, want), next, next + 1); }
    }
  }

  /** Looks for the sequence that ends in an indexed load. */
  method FindIndexing(stmts: seq<Stmt>, i: nat, next: nat) returns (found: bool, add: nat, tax: nat, ild: nat)
    requires i < next < |stmts| && stmts[i].LdImm? && IsOp(stmts, i + 1, next)
    ensures found ==> Indexing(stmts, i, next, add, tax, ild)
    ensures !found ==> forall add, tax, ild :: !Indexing(stmts, i, next, add, tax, ild)
  {
    found, add, tax, ild := false, next, next, next;
    if stmts[next].LdxMsh? { add := ThisOp(stmts, next + 1); }
    if add == |stmts| || stmts[add] != AluX(Add) { return; }
    tax := ThisOp(stmts, add + 1);
    if tax == |stmts| || stmts[tax] != Tax { return; }
    ild := ThisOp(stmts, tax + 1);
    found := ild < |stmts| && stmts[ild].LdInd?;
  }

  /** Moves a constant that only serves as an offset into the indexed load. */
  method PeepIndexed(stmts: seq<Stmt>, s: Branch, out: set<nat>, i: nat, next: nat) returns (res: seq<Stmt>)
    requires i < next < |stmts| && stmts[i].LdImm? && IsOp(stmts, i + 1, next) && stmts[next] != Tax && X_ATOM !in out
    ensures |res| == |stmts| && Scanned(stmts, res) && Stepped(stmts, res, i, next) && KeepsScope(stmts, res) && Narrower(stmts, res)
    ensures StepKeeps(stmts, res, s, out, i, next) && Ruled(stmts, res, out, i, next)
  {
    hide SameEffect, StepKeeps, Scanned, Stepped, KeepsScope, Narrower, Moved;
    EffectRefl(stmts, s, out);
    NarrowerRefl(stmts);
    KeepsAll(stmts, s, out, i, next);
    StepNone(stmts, i, next);
    res := stmts;
    var found, add, tax, ild := FindIndexing(stmts, i, next);
    if found {
      res := Collapsed(stmts, i, add, tax, ild);
      CollapseScanned(stmts, i, next, add, tax, ild);
      CollapseScope(stmts, i, next, add, tax, ild);
      CollapseNarrower(stmts, i, next, add, tax, ild);
      CollapseKeeps(stmts, s, out, i, next, add, tax, ild);
      CollapseRuled(stmts, out, i, next, add, tax, ild);
      hide Collapsed, Indexing, Ruled;
      CollapsedParts(stmts, i, next, add, tax, ild);
    }
  }

  /** Doing nothing, where the two statements cannot be joined. */
  lemma StepNone(u: seq<Stmt>, i: nat, next: nat)
    requires i < next < |u| && u[i] != Nop && IsOp(u, i + 1, next) && !Joinable(u[i], u[next])
    ensures Scanned(u, u) && Stepped(u, u, i, next)
  {
  }

  lemma CollapseKeeps(u: seq<Stmt>, s: Branch, out: set<nat>, i: nat, next: nat, add: nat, tax: nat, ild: nat)
    requires Indexing(u, i, next, add, tax, ild) && X_ATOM !in out
    ensures StepKeeps(u, Collapsed(u, i, add, tax, ild), s, out, i, next)
  {
    hide SameEffect, AllHarmless;
    var v := Collapsed(u, i, add, tax, ild);
    forall want | Safe(u, s, out, want, i) ensures SameEffect(u, v, s, want) && Safe(v, s, out, want, next) {
      HarmlessAt(u, Exits(s, want), i, next, add, tax, ild);
      CollapseSame(u, s, want, i, next, add, tax, ild);
      SafeLater(u, s, out, want, i, next);
      HarmlessTail(u, v, Exits(s, want), next, ild + 1);
    }
  }

  lemma HarmlessAt(u: seq<Stmt>, exit: set<nat>, i: nat, next: nat, add: nat, tax: nat, ild: nat)
    requires Indexing(u, i, next, add, tax, ild) && AllHarmless(u, exit, i)
    ensures Harmless(u, exit, i, ild)
  {
  }

  lemma CollapseScanned(u: seq<Stmt>, i: nat, next: nat, add: nat, tax: nat, ild: nat)
    requires Indexing(u, i, next, add, tax, ild)
    ensures Scanned(u, Collapsed(u, i, add, tax, ild)) && Stepped(u, Collapsed(u, i, add, tax, ild), i, next)
  {
    var v := Collapsed(u, i, add, tax, ild);
    if next == add { assert IsOp(v, i, ild); } else { assert IsOp(v, i, next); }
    forall k | 0 <= k < |u| && u[k] != Nop && v[k] == Nop ensures LoadAfter(v, k) { assert k < ild && v[ild].LdInd?; }
  }

  /** cur is what the scan has made of stmts, and last where it stopped: at the last statement, if that is
      arithmetic and the scan has found it; else at a deleted one, or no arithmetic. */
  ghost predicate ScanEnd(stmts: seq<Stmt>, cur: seq<Stmt>, last: nat) {
    && |cur| == |stmts| && last < |cur| && Scanned(stmts, cur) && (cur[last] == Nop || FinalOp(cur, last))
    && forall l :: 0 <= l < |cur| ==> (Seen(stmts, l) && Arith(stmts[l]) <==> l == last && Arith(cur[l]) && FinalOp(cur, l))
  }

  /** The scan joins all neighbours that can be joined. */
  method PeepStmts(stmts: seq<Stmt>, s: Branch, out: set<nat>) returns (res: seq<Stmt>, last: nat)
    requires stmts != []
    ensures StepKeeps(stmts, res, s, out, 0, last)
    ensures |res| == |stmts| && last < |res| && ScanEnd(stmts, res, last) && Joined(res, |res|)
    ensures KeepsScope(stmts, res) && Narrower(stmts, res) && RuledTo(stmts, res, out, |stmts|)
    ensures Inert(stmts) ==> res == stmts
  {
    hide StepKeeps, Joined, Scanned, KeepsScope, SameEffect, Narrower, Inert, RuledTo, Fresh, Ruled;
    ScanStart(stmts);
    RuledStart(stmts, out);
    NarrowerRefl(stmts);
    res, last := stmts, 0;
    EffectRefl(stmts, s, out);
    KeepsAll(stmts, s, out, 0, 0);
    while true
      invariant |res| == |stmts| && last < |res| && Joined(res, last) && Scanned(stmts, res) && KeepsScope(stmts, res)
      invariant Narrower(stmts, res) && (Inert(stmts) ==> res == stmts) && RuledTo(stmts, res, out, last) && Fresh(stmts, res, last)
      invariant StepKeeps(stmts, res, s, out, 0, last)
      invariant last == 0 ==> res == stmts
      invariant last > 0 ==> stmts[last] != Nop && OpBefore(stmts, last)
      decreases |stmts| - last
    {
      var i := ThisOp(res, last);
      var next := i;
      if i < |res| { next := ThisOp(res, i + 1); }
      if next == |res| {
        ScanDone(stmts, res, last, i);
        RuledDone(stmts, res, out, last, i);
        return;
      }
      JoinedSkip(res, last, i);
      var res' := PeepPair(res, s, out, i, next);
      KeepsTrans(stmts, res, res', s, out, last, i, next);
      ScopeTrans(stmts, res, res');
      NarrowerTrans(stmts, res, res');
      if Inert(res) { InertAt(res, i, next); }
      JoinedStep(res, res', i, next);
      RuledStep(stmts, res, res', out, last, i, next);
      OpsWere(stmts, res, i, next);
      ScannedTrans(stmts, res, res');
      res, last := res', next;
    }
  }

  lemma KeepsTrans(u: seq<Stmt>, v: seq<Stmt>, w: seq<Stmt>, s: Branch, out: set<nat>, m: nat, i: nat, next: nat)
    requires StepKeeps(u, v, s, out, 0, m) && m <= i && StepKeeps(v, w, s, out, i, next)
    ensures StepKeeps(u, w, s, out, 0, next)
  {
    hide Safe, SameEffect;
    forall want | Safe(u, s, out, want, 0) ensures SameEffect(u, w, s, want) && Safe(w, s, out, want, next) {
      SafeLater(v, s, out, want, m, i);
      SameEffectTrans(u, v, w, s, want);
    }
  }

  /** There is nothing to join and no constant to move. */
  ghost predicate Inert(stmts: seq<Stmt>) {
    Joined(stmts, |stmts|) && forall k :: 0 <= k < |stmts| ==> !stmts[k].LdImm?
  }

  lemma InertAt(stmts: seq<Stmt>, i: nat, next: nat)
    requires Inert(stmts) && i < next < |stmts| && stmts[i] != Nop && IsOp(stmts, i + 1, next)
    ensures !stmts[i].LdImm? && !Joinable(stmts[i], stmts[next])
  {
  }

  lemma RuledStart(u: seq<Stmt>, out: set<nat>)
    ensures RuledTo(u, u, out, 0) && Fresh(u, u, 0)
  {
  }

  lemma ScanStart(stmts: seq<Stmt>)
    ensures Joined(stmts, 0) && Scanned(stmts, stmts)
  {
  }

  lemma ScopeTrans(u: seq<Stmt>, v: seq<Stmt>, w: seq<Stmt>)
    requires KeepsScope(u, v) && KeepsScope(v, w)
    ensures KeepsScope(u, w)
  {
    hide Scoped, Defs;
  }

  lemma JoinedSkip(u: seq<Stmt>, n: nat, i: nat)
    requires Joined(u, n) && n <= i <= |u| && IsOp(u, n, i)
    ensures Joined(u, i)
  {
  }

  lemma OpsWere(u: seq<Stmt>, v: seq<Stmt>, i: nat, next: nat)
    requires Scanned(u, v) && i < next < |v| && v[i] != Nop && v[next] != Nop
    ensures u[next] != Nop && OpBefore(u, next)
  {
    assert u[i] != Nop;
  }

  lemma ScanDone(u: seq<Stmt>, v: seq<Stmt>, last: nat, i: nat)
    requires Scanned(u, v) && last < |u| && Joined(v, last) && IsOp(v, last, i) && (i < |v| ==> IsOp(v, i + 1, |v|))
    requires (last == 0 ==> v == u) && (last > 0 ==> u[last] != Nop && OpBefore(u, last))
    ensures Joined(v, |v|) && ScanEnd(u, v, last)
  {
    forall l | 0 <= l < |u| ensures Seen(u, l) && Arith(u[l]) <==> l == last && Arith(v[l]) && FinalOp(v, l) {
      ScanFound(u, v, last, i, l);
    }
  }

  lemma ScanFound(u: seq<Stmt>, v: seq<Stmt>, last: nat, i: nat, l: nat)
    requires Scanned(u, v) && last < |u| && IsOp(v, last, i) && (i < |v| ==> IsOp(v, i + 1, |v|)) && l < |u|
    requires (last == 0 ==> v == u) && (last > 0 ==> u[last] != Nop && OpBefore(u, last))
    ensures Seen(u, l) && Arith(u[l]) <==> l == last && Arith(v[l]) && FinalOp(v, l)
  {
    FinalOpKept(u, v, l);
    assert u[last] != Nop && v[last] == Nop ==> LoadAfter(v, last);
    if FinalOp(u, l) && Arith(u[l]) {
      assert last <= l;
      assert i == l;
    }
  }

  // ---------------------------------------------------------------------------------------
  // The comparison at the end of the block
  // ---------------------------------------------------------------------------------------

  const ONES: Word := Word(0xffff_ffff)

  /** If the last statement only prepares an equality test, and nothing else wants A, the test takes
      it over. isConst and x say whether X is known at the end of the block. */
  function FoldCompare(blk: Block, last: nat, out: set<nat>, isConst: bool, x: Word): Block
    requires last < |blk.stmts|
  {
    var c := blk.stmts[last];
    if !(blk.s.Jmp? && blk.s.cmp == Jeq && blk.s.src == SrcK) || A_ATOM in out then blk
    else if c == AluX(Sub) then
      if isConst then Block(blk.stmts[last := Nop], Jmp(Jeq, SrcK, Alu(Add, blk.s.k, x)), blk.jt, blk.jf)
      else if blk.s.k == ZERO then Block(blk.stmts[last := Nop], Jmp(Jeq, SrcX, blk.s.k), blk.jt, blk.jf)
      else blk
    else if c.AluK? && c.op == Sub then
      Block(blk.stmts[last := Nop], Jmp(Jeq, SrcK, Alu(Add, blk.s.k, c.k)), blk.jt, blk.jf)
    else if c.AluK? && c.op == And && blk.s.k == ZERO then
      Block(blk.stmts[last := Nop], Jmp(Jset, SrcK, c.k), blk.jf, blk.jt)
    else blk
  }

  /** Testing no bits never succeeds; testing all bits is taken to succeed always. */
  function FoldMask(blk: Block): Block {
    if blk.s.Jmp? && blk.s.cmp == Jset && blk.s.src == SrcK then
      if blk.s.k == ZERO then blk.(jt := blk.jf)
      else if blk.s.k == ONES then blk.(jf := blk.jt)
      else blk
    else blk
  }

  /** A known index register is compared with as a constant. */
  function FoldIndex(blk: Block, isConst: bool, x: Word): Block {
    if isConst && blk.s.Jmp? && blk.s.src == SrcX then blk.(s := Jmp(blk.s.cmp, SrcK, x)) else blk
  }

  /** A known accumulator decides the comparison. */
  function FoldKnown(blk: Block, isConst: bool, a: Word): Block {
    if isConst && blk.s.Jmp? && blk.s.src == SrcK then
      if Compare(blk.s.cmp, a, blk.s.k) then blk.(jf := blk.jt) else blk.(jt := blk.jf)
    else blk
  }

  /** The state before the last statement. */
  lemma RunLast(stmts: seq<Stmt>, l: nat, p: Packet, r: Regs)
    requires FinalOp(stmts, l)
    ensures RunAll(stmts, p, r) == Exec(stmts[l], p, Run(stmts, l, p, r))
    ensures RunAll(stmts[l := Nop], p, r) == Run(stmts, l, p, r)
  {
    var v := stmts[l := Nop];
    RunNops(stmts, l + 1, |stmts|, p, r);
    RunNops(v, l, |v|, p, r);
    RunPrefix(stmts, v, l, p, r);
  }

  ghost predicate ButA(r: Regs, r': Regs) {
    forall a :: 0 <= a < N_ATOMS && a != A_ATOM ==> r[a] == r'[a]
  }

  /** A branch takes statement c over: it tests for equality with a constant, nothing else wants A, and c
      subtracts, or masks before a comparison with zero. */
  ghost predicate TakesOver(s: Branch, c: Stmt, out: set<nat>, constX: bool) {
    && s.Jmp? && s.cmp == Jeq && s.src == SrcK && A_ATOM !in out
    && match c
       case AluX(op) => op == Sub && (constX || s.k == ZERO)
       case AluK(op, _) => op == Sub || (op == And && s.k == ZERO)
       case _ => false
  }

  /** What a statement taken over has subtracted from A, in the state it leaves. */
  ghost function Subtrahend(s: Branch, c: Stmt, out: set<nat>, constX: bool, r: Regs): Word {
    if !TakesOver(s, c, out, constX) then ZERO
    else if c.AluX? then r[X_ATOM]
    else if c.op == Sub then c.k
    else ZERO
  }

  /** The branch takes over a mask: the test becomes one for bits, with the successors exchanged. */
  ghost predicate TakesMask(s: Branch, c: Stmt, out: set<nat>) {
    c.AluK? && c.op == And && TakesOver(s, c, out, false)
  }

  /** How the new branch decides, in the state r2 the new statements leave, against the old one and the
      state r1 the old statements leave: the other way if it takes over a mask; and as if it compared what
      the old statements leave in A, plus the subtrahend. */
  ghost predicate Decides(s: Branch, c: Stmt, s': Branch, out: set<nat>, constX: bool, r1: Regs, r2: Regs)
    requires s.Jmp? && s'.Jmp?
  {
    && s'.cmp == (if TakesMask(s, c, out) then Jset else s.cmp) && (s'.src == SrcX ==> s.src == SrcX || c.AluX?)
    && Taken(s', r2) == (Taken(s, r1) != TakesMask(s, c, out))
    && Taken(s', r2) == Compare(s'.cmp, Alu(Add, r1[A_ATOM], Subtrahend(s, c, out, constX, r1)), Operand(s', r1))
  }

  /** Taking the last statement into the test changes neither where control goes nor any register
      but A; r1 and r2 are the states the old and the new statements leave. */
  ghost predicate FoldsRight(blk: Block, c: Stmt, blk': Block, out: set<nat>, isConst: bool, r1: Regs, r2: Regs)
    requires blk.s.Jmp?
  {
    && blk'.s.Jmp? && ButA(r1, r2) && Choose(blk', r2) == Choose(blk, r1)
    && Decides(blk.s, c, blk'.s, out, isConst, r1, r2)
    && (blk'.s == Jmp(Jset, SrcK, ONES) ==> r2[A_ATOM] == r1[A_ATOM])
  }

  lemma FoldCompareKeeps(blk: Block, last: nat, out: set<nat>, isConst: bool, x: Word, p: Packet, r: Regs)
    requires blk.s.Jmp? && last < |blk.stmts| && (blk.stmts[last] == Nop || FinalOp(blk.stmts, last))
    requires isConst && blk.stmts[last].AluX? ==> RunAll(blk.stmts, p, r)[X_ATOM] == x
    ensures var blk' := FoldCompare(blk, last, out, isConst, x);
      FoldsRight(blk, blk.stmts[last], blk', out, isConst, RunAll(blk.stmts, p, r), RunAll(blk'.stmts, p, r))
  {
    var c := blk.stmts[last];
    if TakesOver(blk.s, c, out, isConst) {
      RunLast(blk.stmts, last, p, r);
      FoldTaken(blk, last, out, isConst, x, p, Run(blk.stmts, last, p, r));
    } else {
      NotTakenOver(blk, last, out, isConst, x);
      FoldSame(blk, c, out, isConst, RunAll(blk.stmts, p, r));
    }
    hide FoldsRight, TakesOver;
  }

  /** A statement that is taken over, from the state q before it. */
  lemma FoldTaken(blk: Block, last: nat, out: set<nat>, isConst: bool, x: Word, p: Packet, q: Regs)
    requires last < |blk.stmts| && TakesOver(blk.s, blk.stmts[last], out, isConst)
    requires isConst && blk.stmts[last].AluX? ==> q[X_ATOM] == x
    ensures var c, blk' := blk.stmts[last], FoldCompare(blk, last, out, isConst, x);
      blk'.stmts == blk.stmts[last := Nop] && FoldsRight(blk, c, blk', out, isConst, Exec(c, p, q), q)
  {
    var c := blk.stmts[last];
    if c.AluX? {
      FoldSubX(blk, last, out, isConst, x, p, q);
    } else if c.op == Sub {
      FoldSubK(blk, last, out, isConst, x, p, q);
    } else {
      FoldAndK(blk, last, out, isConst, x, p, q);
    }
    hide FoldsRight, Alu;
  }

  lemma SubXShape(blk: Block, last: nat, out: set<nat>, isConst: bool, x: Word, p: Packet, q: Regs)
    requires last < |blk.stmts| && TakesOver(blk.s, blk.stmts[last], out, isConst) && blk.stmts[last].AluX? && (isConst ==> q[X_ATOM] == x)
    ensures var c, blk' := blk.stmts[last], FoldCompare(blk, last, out, isConst, x);
      var r1 := Exec(c, p, q);
      && r1 == q[A_ATOM := Alu(Sub, q[A_ATOM], q[X_ATOM])]
      && Subtrahend(blk.s, c, out, isConst, r1) == q[X_ATOM] && !TakesMask(blk.s, c, out)
      && blk'.s.Jmp? && blk'.s.cmp == Jeq && blk'.jt == blk.jt && blk'.jf == blk.jf
      && Operand(blk'.s, q) == Operand(blk'.s, r1) == (if isConst then Alu(Add, blk.s.k, q[X_ATOM]) else q[X_ATOM])
      && (!isConst ==> blk.s.k == ZERO)
  {
    hide Alu;
  }

  lemma FoldSubX(blk: Block, last: nat, out: set<nat>, isConst: bool, x: Word, p: Packet, q: Regs)
    requires last < |blk.stmts| && TakesOver(blk.s, blk.stmts[last], out, isConst) && blk.stmts[last].AluX? && (isConst ==> q[X_ATOM] == x)
    ensures FoldsRight(blk, blk.stmts[last], FoldCompare(blk, last, out, isConst, x), out, isConst, Exec(blk.stmts[last], p, q), q)
  {
    hide Alu, Exec, FoldCompare, TakesMask, Subtrahend, Operand;
    SubXShape(blk, last, out, isConst, x, p, q);
    AddBack(q[A_ATOM], q[X_ATOM]);
    if isConst { SubtractEquals(q[A_ATOM], q[X_ATOM], blk.s.k); } else { SubtractZero(q[A_ATOM], q[X_ATOM]); }
    OperandK(blk.s, Exec(blk.stmts[last], p, q));
  }

  lemma OperandK(s: Branch, r: Regs)
    requires s.Jmp? && s.src == SrcK
    ensures Operand(s, r) == s.k
  {
  }

  lemma FoldSubK(blk: Block, last: nat, out: set<nat>, isConst: bool, x: Word, p: Packet, q: Regs)
    requires last < |blk.stmts| && TakesOver(blk.s, blk.stmts[last], out, isConst) && blk.stmts[last].AluK? && blk.stmts[last].op == Sub
    ensures FoldsRight(blk, blk.stmts[last], FoldCompare(blk, last, out, isConst, x), out, isConst, Exec(blk.stmts[last], p, q), q)
  {
    SubtractEquals(q[A_ATOM], blk.stmts[last].k, blk.s.k);
    AddBack(q[A_ATOM], blk.stmts[last].k);
    hide Alu;
  }

  lemma FoldAndK(blk: Block, last: nat, out: set<nat>, isConst: bool, x: Word, p: Packet, q: Regs)
    requires last < |blk.stmts| && TakesOver(blk.s, blk.stmts[last], out, isConst) && blk.stmts[last].AluK? && blk.stmts[last].op == And
    ensures FoldsRight(blk, blk.stmts[last], FoldCompare(blk, last, out, isConst, x), out, isConst, Exec(blk.stmts[last], p, q), q)
  {
    var k := blk.stmts[last].k;
    MaskedWord(q[A_ATOM], k);
    SumZero(Alu(And, q[A_ATOM], k));
    hide Alu, Both;
  }

  lemma MaskedWord(a: Word, k: Word)
    ensures Alu(And, a, k) == ZERO <==> Both(a.bits, k.bits) == 0
    ensures Both(Alu(And, a, k).bits, k.bits) == Both(a.bits, k.bits)
    ensures k == ONES ==> Alu(And, a, k) == a
  {
    MaskTwice(a.bits, k.bits);
    OnesMask(a.bits);
    hide Both;
  }

  lemma FoldSame(blk: Block, c: Stmt, out: set<nat>, isConst: bool, r: Regs)
    requires blk.s.Jmp? && !TakesOver(blk.s, c, out, isConst)
    ensures FoldsRight(blk, c, blk, out, isConst, r, r)
  {
    SumZero(r[A_ATOM]);
    hide Alu, Compare;
  }

  lemma NotTakenOver(blk: Block, last: nat, out: set<nat>, isConst: bool, x: Word)
    requires last < |blk.stmts| && !TakesOver(blk.s, blk.stmts[last], out, isConst)
    ensures FoldCompare(blk, last, out, isConst, x) == blk
  {
    hide Alu;
  }

  /** What taking over a statement leaves as it was. */
  lemma FoldCompareShape(blk: Block, last: nat, out: set<nat>, isConst: bool, x: Word)
    requires blk.s.Jmp? && last < |blk.stmts|
    ensures var blk' := FoldCompare(blk, last, out, isConst, x);
      && blk'.s.Jmp? && (A_ATOM in out || !Arith(blk.stmts[last]) ==> blk' == blk)
      && (blk'.s.src == SrcX ==> blk.s.src == SrcX || (!isConst && blk.stmts[last].AluX?))
      && (blk'.jt == blk'.jf <==> blk.jt == blk.jf)
  {
    hide Alu;
  }

  /** The mask rule is right but for one case: all bits are tested, A is zero, and it matters. */
  lemma FoldMaskKeeps(blk: Block, r: Regs)
    requires blk.s.Jmp?
    ensures Choose(FoldMask(blk), r) == Choose(blk, r) <==>
      !(blk.s == Jmp(Jset, SrcK, ONES) && blk.jt != blk.jf && r[A_ATOM] == ZERO)
  {
    OnesMask(r[A_ATOM].bits);
    hide Both;
  }

  /** All four steps. */
  function FoldBranch(blk: Block, last: nat, out: set<nat>, constX: bool, x: Word, constA: bool, a: Word): Block
    requires last < |blk.stmts|
  {
    FoldKnown(FoldIndex(FoldMask(FoldCompare(blk, last, out, constX, x)), constX, x), constA, a)
  }

  /** The last two steps are right if what they take X and A for is what X and A hold. */
  lemma FoldConstKeeps(blk: Block, constX: bool, x: Word, constA: bool, a: Word, r: Regs)
    requires blk.s.Jmp? && (constX && blk.s.src == SrcX ==> r[X_ATOM] == x) && (constA ==> r[A_ATOM] == a)
    ensures var blk' := FoldKnown(FoldIndex(blk, constX, x), constA, a);
      blk'.s.Jmp? && blk'.stmts == blk.stmts && Choose(blk', r) == Choose(blk, r)
  {
    hide Compare;
  }

  /** After a test of all bits has been decided, nothing decides it otherwise. */
  lemma FoldConstSame(blk: Block, constX: bool, x: Word, constA: bool, a: Word, r: Regs)
    requires blk.s.Jmp? && blk.jt == blk.jf
    ensures var blk' := FoldKnown(FoldIndex(blk, constX, x), constA, a);
      blk'.s.Jmp? && blk'.stmts == blk.stmts && Choose(blk', r) == blk.jt
  {
    hide Compare;
  }

  /** The block tests all bits of A after the rewriting, and its two successors differ. */
  ghost predicate Misjudges(blk: Block, last: nat, out: set<nat>, constX: bool, x: Word)
    requires last < |blk.stmts|
  {
    blk.jt != blk.jf && FoldCompare(blk, last, out, constX, x).s == Jmp(Jset, SrcK, ONES)
  }

  /** What is known about the block and the list the scan has made of it, in one state. */
  ghost predicate Before(blk: Block, cur: seq<Stmt>, last: nat, want: set<nat>, constX: bool, x: Word, constA: bool, a: Word,
                         p: Packet, r: Regs)
  {
    && SameEffect(blk.stmts, cur, blk.s, want) && last < |cur| && (cur[last] == Nop || FinalOp(cur, last))
    && (Arith(cur[last]) ==> !constA)
    && var r1 := RunAll(blk.stmts, p, r); (constX ==> r1[X_ATOM] == x) && (constA ==> r1[A_ATOM] == a)
  }

  /** The branch does not take over a statement that computes an A that is wanted. */
  ghost predicate LeavesA(s: Branch, c: Stmt, out: set<nat>, want: set<nat>, constX: bool) {
    A_ATOM in want ==> !TakesOver(s, c, out, constX)
  }

  /** The rewritten block does what the block does, exactly unless it tests all bits of a zero. */
  lemma FoldBranchKeeps(blk: Block, cur: seq<Stmt>, last: nat, out: set<nat>, want: set<nat>, constX: bool, x: Word, constA: bool, a: Word,
                        p: Packet, r: Regs)
    requires blk.s.Jmp? && Before(blk, cur, last, want, constX, x, constA, a, p, r) && LeavesA(blk.s, cur[last], out, want, constX)
    ensures var blk' := FoldBranch(blk.(stmts := cur), last, out, constX, x, constA, a);
      && (StepAgrees(blk, blk', want, p, r) <==>
          !(Misjudges(blk.(stmts := cur), last, out, constX, x) && RunAll(blk.stmts, p, r)[A_ATOM] == ZERO))
      && blk'.s.Jmp? && Decides(blk.s, cur[last], blk'.s, out, constX, RunAll(blk.stmts, p, r), RunAll(blk'.stmts, p, r))
      && Agree(RunAll(blk.stmts, p, r), RunAll(blk'.stmts, p, r), want)
  {
    var blk1 := FoldCompare(blk.(stmts := cur), last, out, constX, x);
    var r1, r3 := RunAll(blk.stmts, p, r), RunAll(blk1.stmts, p, r);
    FoldFirst(blk, cur, last, out, want, constX, x, constA, a, p, r);
    hide Before, LeavesA, Choose, FoldCompare, Agree, Run, Decides;
    FoldRest(blk1, constX, x, constA, a, r3);
    FoldRestDecides(blk.s, cur[last], blk1, out, constX, x, constA, a, r1, r3);
    hide FoldMask, FoldIndex, FoldKnown;
  }

  /** The first step: control goes where it went, and what the later steps rely on holds. */
  lemma FoldFirst(blk: Block, cur: seq<Stmt>, last: nat, out: set<nat>, want: set<nat>, constX: bool, x: Word, constA: bool, a: Word,
                  p: Packet, r: Regs)
    requires blk.s.Jmp? && Before(blk, cur, last, want, constX, x, constA, a, p, r) && LeavesA(blk.s, cur[last], out, want, constX)
    ensures last < |cur|
    ensures var blk1 := FoldCompare(blk.(stmts := cur), last, out, constX, x);
      var r1, r3 := RunAll(blk.stmts, p, r), RunAll(blk1.stmts, p, r);
      && blk1.s.Jmp? && Choose(blk1, r3) == Choose(blk, r1) && Agree(r1, r3, want) && (blk1.jt == blk1.jf <==> blk.jt == blk.jf)
      && (constX && blk1.s.src == SrcX ==> r3[X_ATOM] == r1[X_ATOM] == x) && (constA ==> r3[A_ATOM] == a)
      && (blk1.s == Jmp(Jset, SrcK, ONES) ==> r3[A_ATOM] == r1[A_ATOM])
      && Decides(blk.s, cur[last], blk1.s, out, constX, r1, r3)
  {
    var blk0, blk1 := blk.(stmts := cur), FoldCompare(blk.(stmts := cur), last, out, constX, x);
    var r1, r2, r3 := RunAll(blk.stmts, p, r), RunAll(cur, p, r), RunAll(blk1.stmts, p, r);
    BeforeStates(blk, cur, last, want, constX, x, constA, a, p, r);
    if A_ATOM in want { NotTakenOver(blk0, last, out, constX, x); }
    assert cur[last] == Nop || FinalOp(cur, last);
    assert (Arith(cur[last]) ==> !constA) && (constX ==> r1[X_ATOM] == x) && (constA ==> r1[A_ATOM] == a);
    hide Before, FinalOp, Compare, Run, Arith;
    FoldCompareKeeps(blk0, last, out, constX, x, p, r);
    FoldCompareShape(blk0, last, out, constX, x);
    hide FoldCompare;
    DecidesFrom(blk.s, cur[last], blk1.s, out, constX, r1, r2, r3);
    hide Decides, ButX;
  }

  /** The states the block and the scanned list leave. */
  lemma BeforeStates(blk: Block, cur: seq<Stmt>, last: nat, want: set<nat>, constX: bool, x: Word, constA: bool, a: Word,
                     p: Packet, r: Regs)
    requires blk.s.Jmp? && Before(blk, cur, last, want, constX, x, constA, a, p, r)
    ensures last < |cur|
    ensures var r1, r2 := RunAll(blk.stmts, p, r), RunAll(cur, p, r);
      && ButX(r1, r2) && r1[A_ATOM] == r2[A_ATOM] && Agree(r1, r2, want)
      && (blk.s.src == SrcX || cur[last].AluX? ==> r1[X_ATOM] == r2[X_ATOM])
      && (Taken(blk.s, r1) == Taken(blk.s, r2))
  {
    var r1, r2 := RunAll(blk.stmts, p, r), RunAll(cur, p, r);
    assert ButX(r1, r2) && (XMatters(cur, blk.s, want) ==> r1[X_ATOM] == r2[X_ATOM]);
    assert cur[last].AluX? ==> EndsWithAluX(cur);
    assert blk.s.src == SrcX ==> X_ATOM in BranchUses(blk.s);
    hide SameEffect, EndsWithAluX, FinalOp, Compare, BranchUses, Run;
  }

  /** How a branch decides does not depend on what it does not look at. */
  lemma DecidesFrom(s: Branch, c: Stmt, s': Branch, out: set<nat>, constX: bool, r1: Regs, r2: Regs, r3: Regs)
    requires s.Jmp? && s'.Jmp? && Decides(s, c, s', out, constX, r2, r3) && r1[A_ATOM] == r2[A_ATOM] && Taken(s, r1) == Taken(s, r2)
    requires s.src == SrcX || c.AluX? ==> r1[X_ATOM] == r2[X_ATOM]
    ensures Decides(s, c, s', out, constX, r1, r3)
  {
    hide Compare, Alu, Taken, TakesMask;
  }

  lemma FoldRest(blk: Block, constX: bool, x: Word, constA: bool, a: Word, r: Regs)
    requires blk.s.Jmp? && (constX && blk.s.src == SrcX ==> r[X_ATOM] == x) && (constA ==> r[A_ATOM] == a)
    ensures var blk' := FoldKnown(FoldIndex(FoldMask(blk), constX, x), constA, a);
      && blk'.s.Jmp? && blk'.stmts == blk.stmts
      && (Choose(blk', r) == Choose(blk, r) <==>
          !(blk.s == Jmp(Jset, SrcK, ONES) && blk.jt != blk.jf && r[A_ATOM] == ZERO))
  {
    FoldMaskKeeps(blk, r);
    if blk.s == Jmp(Jset, SrcK, ONES) && blk.jt != blk.jf && r[A_ATOM] == ZERO {
      FoldConstSame(FoldMask(blk), constX, x, constA, a, r);
    } else {
      FoldConstKeeps(FoldMask(blk), constX, x, constA, a, r);
    }
    hide Compare, FoldIndex, FoldKnown;
  }

  /** The later steps change how the branch decides no more. */
  lemma FoldRestDecides(s: Branch, c: Stmt, blk: Block, out: set<nat>, constX: bool, x: Word, constA: bool, a: Word, r1: Regs, r2: Regs)
    requires s.Jmp? && blk.s.Jmp? && Decides(s, c, blk.s, out, constX, r1, r2)
    requires constX && blk.s.src == SrcX ==> r2[X_ATOM] == r1[X_ATOM] == x
    ensures var blk' := FoldKnown(FoldIndex(FoldMask(blk), constX, x), constA, a);
      blk'.s.Jmp? && Decides(s, c, blk'.s, out, constX, r1, r2)
  {
    hide Compare, Alu, TakesOver, TakesMask, Subtrahend;
    var blk' := FoldKnown(FoldIndex(FoldMask(blk), constX, x), constA, a);
    assert blk'.s.cmp == blk.s.cmp && Operand(blk'.s, r2) == Operand(blk.s, r2) && Operand(blk'.s, r1) == Operand(blk.s, r1);
  }

  // ---------------------------------------------------------------------------------------
  // The whole pass over a block
  // ---------------------------------------------------------------------------------------

  /** The last statement of a list, if the scan finds it. */
  ghost function LastSeen(stmts: seq<Stmt>): Stmt {
    if l :| 0 <= l < |stmts| && Seen(stmts, l) then stmts[l] else Nop
  }

  lemma LastSeenIs(stmts: seq<Stmt>, l: nat)
    requires Seen(stmts, l)
    ensures LastSeen(stmts) == stmts[l]
  {
  }

  /** The block takes over a mask. */
  ghost predicate Swaps(blk: Block, out: set<nat>) {
    TakesMask(blk.s, LastSeen(blk.stmts), out)
  }

  /** The block tests all bits of A: outright, or by masking with all bits and comparing with zero. */
  ghost predicate MasksAll(blk: Block, out: set<nat>) {
    blk.s == Jmp(Jset, SrcK, ONES) || (Swaps(blk, out) && LastSeen(blk.stmts) == AluK(And, ONES))
  }

  /** The one case the pass gets wrong: a test of all bits, of a zero, between two successors. */
  ghost predicate Misjudged(blk: Block, out: set<nat>, p: Packet, r: Regs) {
    && blk.s.Jmp? && blk.stmts != [] && blk.jt != blk.jf && MasksAll(blk, out)
    && RunAll(blk.stmts, p, r)[A_ATOM] == ZERO
  }

  /** What the pass makes of a block, from state r: it agrees in the registers of want unless misjudged, and how it
      decides. */
  ghost predicate Rewritten(blk: Block, blk': Block, out: set<nat>, want: set<nat>, constX: bool, p: Packet, r: Regs) {
    && (StepAgrees(blk, blk', want, p, r) <==> !Misjudged(blk, out, p, r))
    && blk.s.Jmp? == blk'.s.Jmp?
    && (blk.s.Jmp? ==>
          && Agree(RunAll(blk.stmts, p, r), RunAll(blk'.stmts, p, r), want)
          && Decides(blk.s, LastSeen(blk.stmts), blk'.s, out, constX, RunAll(blk.stmts, p, r), RunAll(blk'.stmts, p, r)))
  }

  /** The statement at the end of the scan is the last statement of the block, if either is arithmetic. */
  lemma EndIsLast(stmts: seq<Stmt>, cur: seq<Stmt>, last: nat)
    requires ScanEnd(stmts, cur, last)
    ensures Arith(cur[last]) || Arith(LastSeen(stmts)) ==> cur[last] == LastSeen(stmts)
  {
    if l :| 0 <= l < |stmts| && Seen(stmts, l) { LastSeenIs(stmts, l); }
    hide LastSeen;
  }

  /** So the two are taken over alike. */
  lemma EndAlike(s: Branch, c: Stmt, d: Stmt, out: set<nat>)
    requires Arith(c) || Arith(d) ==> c == d
    ensures forall constX :: TakesOver(s, c, out, constX) == TakesOver(s, d, out, constX)
    ensures TakesMask(s, c, out) == TakesMask(s, d, out)
    ensures forall constX, r :: Subtrahend(s, c, out, constX, r) == Subtrahend(s, d, out, constX, r)
  {
  }

  lemma MaskSeen(blk: Block, cur: seq<Stmt>, last: nat, out: set<nat>, constX: bool, x: Word)
    requires ScanEnd(blk.stmts, cur, last)
    ensures FoldCompare(blk.(stmts := cur), last, out, constX, x).s == Jmp(Jset, SrcK, ONES) <==> MasksAll(blk, out)
  {
    EndIsLast(blk.stmts, cur, last);
    hide ScanEnd, LastSeen, Alu;
  }

  /** Statement l is the last, the scan finds it, and the branch takes it over. */
  ghost predicate TakenOverAt(blk: Block, out: set<nat>, constX: bool, l: nat) {
    Seen(blk.stmts, l) && TakesOver(blk.s, blk.stmts[l], out, constX)
  }

  /** The block tests no bits of A: outright, or by masking with none and comparing with zero. */
  ghost predicate MasksNone(blk: Block, out: set<nat>) {
    blk.s == Jmp(Jset, SrcK, ZERO) || (Swaps(blk, out) && LastSeen(blk.stmts) == AluK(And, ZERO))
  }

  /** A test of no bits, or of all, leads to one block only. */
  lemma MaskDecides(blk: Block, cur: seq<Stmt>, last: nat, out: set<nat>, constX: bool, x: Word, constA: bool, a: Word)
    requires ScanEnd(blk.stmts, cur, last) && (MasksAll(blk, out) || MasksNone(blk, out))
    ensures var blk' := FoldBranch(blk.(stmts := cur), last, out, constX, x, constA, a); blk'.jt == blk'.jf
  {
    EndIsLast(blk.stmts, cur, last);
    hide ScanEnd, LastSeen, Alu, Compare;
    var blk1 := FoldCompare(blk.(stmts := cur), last, out, constX, x);
    assert blk1.s == Jmp(Jset, SrcK, ONES) || blk1.s == Jmp(Jset, SrcK, ZERO);
    hide FoldCompare, MasksAll, MasksNone;
  }

  /** What the pass makes of the statements: the rules are applied to all of them, the statement that the branch takes over
      is deleted, and nothing else is rewritten. */
  ghost predicate Peeped(blk: Block, blk': Block, out: set<nat>, constX: bool) {
    && |blk'.stmts| == |blk.stmts|
    && (forall i, next :: 0 <= i < next < |blk.stmts| && IsOp(blk.stmts, i + 1, next) ==> Applied(blk.stmts, blk'.stmts, out, i, next))
    && (forall l :: 0 <= l < |blk.stmts| && TakenOverAt(blk, out, constX, l) ==> blk'.stmts[l] == Nop)
    && (forall k :: 0 <= k < |blk.stmts| && !TouchedBefore(blk.stmts, out, |blk.stmts|, k) && !TakenOverAt(blk, out, constX, k) ==>
          blk'.stmts[k] == blk.stmts[k])
  }

  /** No rule has to do with arithmetic at the end of a list. */
  lemma AppliedLast(u: seq<Stmt>, v: seq<Stmt>, out: set<nat>, i: nat, next: nat, l: nat)
    requires i < next < |u| == |v| && IsOp(u, i + 1, next) && Applied(u, v, out, i, next) && FinalOp(u, l) && Arith(u[l])
    ensures Applied(u, v[l := Nop], out, i, next)
  {
    forall add, tax, ild | Indexing(u, i, next, add, tax, ild) && X_ATOM !in out ensures Moved(u, v[l := Nop], i, add, tax, ild) {
      assert Moved(u, v, i, add, tax, ild) && l !in {i, add, tax, ild};
      hide IsOp, Number;
    }
  }

  /** The branch takes over at most the statement the scan ends at. */
  lemma TakenAtEnd(blk: Block, cur: seq<Stmt>, last: nat, out: set<nat>, constX: bool)
    requires ScanEnd(blk.stmts, cur, last)
    ensures TakesOver(blk.s, cur[last], out, constX) <==> TakenOverAt(blk, out, constX, last)
    ensures TakesOver(blk.s, cur[last], out, constX) ==> FinalOp(blk.stmts, last) && Arith(blk.stmts[last])
    ensures forall l :: 0 <= l < |cur| && TakenOverAt(blk, out, constX, l) ==> l == last
  {
    assert Arith(cur[last]) ==> blk.stmts[last] == cur[last];
    hide Scanned;
    assert forall l :: 0 <= l < |cur| ==> (Seen(blk.stmts, l) && Arith(blk.stmts[l]) ==> l == last && Arith(cur[l]));
    hide ScanEnd, FinalOp, Seen;
  }

  lemma FoldedStmts(blk: Block, cur: seq<Stmt>, last: nat, out: set<nat>, constX: bool, x: Word, constA: bool, a: Word)
    requires last < |cur|
    ensures var blk' := FoldBranch(blk.(stmts := cur), last, out, constX, x, constA, a);
      blk'.stmts == if TakesOver(blk.s, cur[last], out, constX) then cur[last := Nop] else cur
  {
    hide Alu, Compare;
  }

  lemma PeepedAll(blk: Block, cur: seq<Stmt>, last: nat, out: set<nat>, constX: bool, x: Word, constA: bool, a: Word)
    requires ScanEnd(blk.stmts, cur, last) && RuledTo(blk.stmts, cur, out, |blk.stmts|)
    ensures Peeped(blk, FoldBranch(blk.(stmts := cur), last, out, constX, x, constA, a), out, constX)
  {
    hide FoldBranch, Applied, TouchedBefore, FinalOp, TakesOver;
    TakenAtEnd(blk, cur, last, out, constX);
    FoldedStmts(blk, cur, last, out, constX, x, constA, a);
    assert |cur| == |blk.stmts| && last < |cur|;
    hide ScanEnd, TakenOverAt;
    if TakenOverAt(blk, out, constX, last) {
      var cur' := cur[last := Nop];
      forall i, next | 0 <= i < next < |blk.stmts| && IsOp(blk.stmts, i + 1, next) ensures Applied(blk.stmts, cur', out, i, next) {
        AppliedLast(blk.stmts, cur, out, i, next, last);
      }
    }
  }

  lemma {:induction false} DefsUpdated(u: seq<Stmt>, l: nat, n: nat)
    requires l < n <= |u| && Scoped(u) && Arith(u[l])
    ensures Defs(u[l := Nop], n) == Defs(u, n)
  {
    hide Scoped, Defs, Uses;
    var v := u[l := Nop];
    if n == l + 1 {
      DefsNone(u, v);
      DefsSame(u, v, 0, l);
      DefsNext(u, l);
      DefsNext(v, l);
      ScopedAt(u, l);
      ArithUses(u[l]);
    } else {
      DefsUpdated(u, l, n - 1);
      DefsSame(u, v, n - 1, n);
    }
  }

  lemma ArithUses(s: Stmt)
    requires Arith(s)
    ensures A_ATOM in Uses(s) && (s.AluX? ==> X_ATOM in Uses(s)) && Target(s) == A_ATOM
  {
  }

  /** A block whose statements and branch use only what the block has defined. */
  ghost predicate Contained(blk: Block) {
    Scoped(blk.stmts) && BranchUses(blk.s) <= Defs(blk.stmts, |blk.stmts|)
  }

  lemma ContainedUses(blk: Block)
    ensures Contained(blk) <==> BlockUses(blk) == {}
  {
    ScopedExposed(blk.stmts, |blk.stmts|);
  }

  /** Deleting the last statement, which computes A from A, leaves all registers defined. */
  lemma DropLast(u: seq<Stmt>, l: nat)
    requires Scoped(u) && FinalOp(u, l) && Arith(u[l])
    ensures Scoped(u[l := Nop]) && Defs(u[l := Nop], |u|) == Defs(u, |u|)
    ensures A_ATOM in Defs(u, |u|) && (u[l].AluX? ==> X_ATOM in Defs(u, |u|))
  {
    var v := u[l := Nop];
    hide Scoped, Defs, Uses;
    DefsUpdated(u, l, |u|);
    DefsNone(u, v);
    DefsGrow(u, l, |u|);
    ScopedAt(u, l);
    ArithUses(u[l]);
    forall n | 0 <= n < |v| ensures Uses(v[n]) <= Defs(v, n) {
      if n < l {
        DefsSame(u, v, 0, n);
        ScopedAt(u, n);
      } else {
        UsesOf(v[n]);
      }
    }
    ScopedAll(v);
  }

  lemma UsesOfBranch(s: Branch)
    ensures BranchUses(s) == if s.Ret? then {} else if s.src == SrcX then {A_ATOM, X_ATOM} else {A_ATOM}
  {
  }

  /** Taking over a statement keeps the block to registers it has defined. */
  lemma FoldCompareContained(blk: Block, last: nat, out: set<nat>, isConst: bool, x: Word)
    requires last < |blk.stmts| && (blk.stmts[last] == Nop || FinalOp(blk.stmts, last)) && Contained(blk)
    ensures Contained(FoldCompare(blk, last, out, isConst, x))
  {
    var c := blk.stmts[last];
    if TakesOver(blk.s, c, out, isConst) {
      var blk' := FoldCompare(blk, last, out, isConst, x);
      DropLast(blk.stmts, last);
      UsesOfBranch(blk'.s);
      hide Scoped, Defs, BranchUses, Alu, FinalOp;
      assert blk'.stmts == blk.stmts[last := Nop] && blk'.s.Jmp? && (blk'.s.src == SrcX ==> c.AluX?);
      hide FoldCompare;
    } else {
      NotTakenOver(blk, last, out, isConst, x);
      hide *;
    }
  }

  /** The whole rewriting of the branch keeps the block to registers it has defined. */
  lemma FoldBranchContained(blk: Block, last: nat, out: set<nat>, constX: bool, x: Word, constA: bool, a: Word)
    requires last < |blk.stmts| && (blk.stmts[last] == Nop || FinalOp(blk.stmts, last)) && Contained(blk)
    ensures Contained(FoldBranch(blk, last, out, constX, x, constA, a))
  {
    var blk1, blk' := FoldCompare(blk, last, out, constX, x), FoldBranch(blk, last, out, constX, x, constA, a);
    FoldCompareContained(blk, last, out, constX, x);
    hide Scoped, Defs, BranchUses, Alu, Compare, FinalOp, FoldCompare;
    UsesOfBranch(blk1.s);
    UsesOfBranch(blk'.s);
    assert blk'.stmts == blk1.stmts && BranchUses(blk'.s) <= BranchUses(blk1.s);
  }

  /** Scanning a list and folding its branch keeps the block to registers it has defined. */
  lemma PeepContained(blk: Block, cur: seq<Stmt>, last: nat, out: set<nat>, constX: bool, x: Word, constA: bool, a: Word)
    requires ScanEnd(blk.stmts, cur, last) && KeepsScope(blk.stmts, cur) && Contained(blk)
    ensures Contained(FoldBranch(blk.(stmts := cur), last, out, constX, x, constA, a))
  {
    hide Scoped, Defs, BranchUses, Scanned, FinalOp, FoldBranch;
    FoldBranchContained(blk.(stmts := cur), last, out, constX, x, constA, a);
  }

  /** The block defines, uses or compares with a register. */
  ghost predicate Touches(blk: Block, a: nat) {
    Mentions(blk.stmts, a) || a in BranchUses(blk.s)
  }

  /** blk' defines only what blk defines, and has to do with no other registers. */
  ghost predicate Thinner(blk: Block, blk': Block) {
    && (forall a :: Defines(blk'.stmts, a) ==> Defines(blk.stmts, a))
    && (forall a :: Touches(blk', a) ==> Touches(blk, a))
  }

  lemma ThinnerTrans(a: Block, b: Block, c: Block)
    requires Thinner(a, b) && Thinner(b, c)
    ensures Thinner(a, c)
  {
  }

  lemma ThinnerStmts(blk: Block, stmts: seq<Stmt>)
    requires Narrower(blk.stmts, stmts)
    ensures Thinner(blk, blk.(stmts := stmts))
  {
    hide Defines, Mentions, BranchUses;
  }

  /** Deleting statements. */
  lemma ThinnerDeleted(blk: Block, stmts: seq<Stmt>)
    requires |stmts| == |blk.stmts| && forall k :: 0 <= k < |stmts| ==> stmts[k] == blk.stmts[k] || stmts[k] == Nop
    ensures Thinner(blk, blk.(stmts := stmts))
  {
    forall k | 0 <= k < |stmts| ensures Within(blk.stmts, stmts[k]) { WithinItself(blk.stmts, k); }
    NarrowerBy(blk.stmts, stmts);
    ThinnerStmts(blk, stmts);
  }

  lemma FoldThinner(blk: Block, last: nat, out: set<nat>, constX: bool, x: Word, constA: bool, a: Word)
    requires last < |blk.stmts|
    ensures Thinner(blk, FoldBranch(blk, last, out, constX, x, constA, a))
  {
    hide Defines, Compare, Alu, Uses, Thinner;
    var c, blk' := blk.stmts[last], FoldBranch(blk, last, out, constX, x, constA, a);
    assert blk'.stmts == blk.stmts || blk'.stmts == blk.stmts[last := Nop];
    assert blk'.s.Ret? == blk.s.Ret? && (blk'.s.Jmp? && blk'.s.src == SrcX ==> blk.s.src == SrcX || c.AluX?);
    hide FoldBranch;
    ThinnerDeleted(blk, blk'.stmts);
    ThinnerBranch(blk.(stmts := blk'.stmts), blk', blk, c, last);
  }

  /** A branch that compares with X, where the block has to do with X. */
  lemma ThinnerBranch(b1: Block, b2: Block, blk: Block, c: Stmt, last: nat)
    requires Thinner(blk, b1) && b2.stmts == b1.stmts && last < |blk.stmts| && c == blk.stmts[last]
    requires b2.s.Ret? == blk.s.Ret? && (b2.s.Jmp? && b2.s.src == SrcX ==> blk.s.src == SrcX || c.AluX?)
    requires b1.s == blk.s
    ensures Thinner(blk, b2)
  {
    UsesOfBranch(b2.s);
    UsesOfBranch(blk.s);
    assert c.AluX? ==> X_ATOM in Uses(c);
    forall a | Touches(b2, a) ensures Touches(blk, a) {
      assert Mentions(b2.stmts, a) ==> Touches(b1, a);
    }
  }

  /** There is nothing to rewrite in the block: neither statements to join, nor a test of bits, nor one that is known
      to end one way. */
  ghost predicate Settled(t: seq<Expr>, blk: Block, val: Vals) {
    && Inert(blk.stmts) && !Arith(LastSeen(blk.stmts)) && blk.s.Jmp? && blk.s.cmp != Jset
    && !IsConst(t, val[A_ATOM]) && !IsConst(t, val[X_ATOM])
  }

  lemma FoldSettled(t: seq<Expr>, blk: Block, last: nat, out: set<nat>, val: Vals, x: Word, a: Word)
    requires last < |blk.stmts| && Settled(t, blk, val) && ScanEnd(blk.stmts, blk.stmts, last)
    ensures FoldBranch(blk, last, out, false, x, false, a) == blk
  {
    EndIsLast(blk.stmts, blk.stmts, last);
    hide LastSeen, ScanEnd, Inert, Alu, Compare, IsConst;
  }

  /** The pass gives up on a block that returns, but has statements that leave a constant in A. */
  ghost predicate Aborts(t: seq<Expr>, blk: Block, val: Vals) {
    blk.s.Ret? && blk.stmts != [] && IsConst(t, val[A_ATOM])
  }

  /** The block does not lose an X that it uses after an indexed load, or that is live on exit. */
  ghost predicate KeepsIndex(blk: Block, out: set<nat>) {
    Safe(blk.stmts, blk.s, out, out, 0)
  }

  /** The pass keeps the registers of want, though it only knows that those of out are live: the block loses no X that
      it uses after an indexed load, or that is wanted, and the branch takes over no statement that computes an A that
      is wanted. */
  ghost predicate PeepSpares(blk: Block, out: set<nat>, want: set<nat>, constX: bool) {
    Safe(blk.stmts, blk.s, out, want, 0) && LeavesA(blk.s, LastSeen(blk.stmts), out, want, constX)
  }

  lemma LiveSpared(blk: Block, out: set<nat>, constX: bool)
    requires KeepsIndex(blk, out)
    ensures PeepSpares(blk, out, out, constX)
  {
  }

  /** Arithmetic at the end of the list leaves no constant in A. */
  ghost predicate NoConstAtEnd(t: seq<Expr>, stmts: seq<Stmt>, val: Vals) {
    forall l :: 0 <= l < |stmts| && Seen(stmts, l) && Arith(stmts[l]) ==> !IsConst(t, val[A_ATOM])
  }

  /** In every state whose outcome the numbers describe, the pass keeps where control goes and every set of registers
      that it spares, exactly unless the block is misjudged. */
  ghost predicate RewrittenAll(t: seq<Expr>, blk: Block, blk': Block, val: Vals, out: set<nat>)
    requires Table(t) && InTable(t, val)
  {
    forall want, p, r :: PeepSpares(blk, out, want, IsConst(t, val[X_ATOM])) && Consistent(t, val, p, RunAll(blk.stmts, p, r)) ==>
      Rewritten(blk, blk', out, want, IsConst(t, val[X_ATOM]), p, r)
  }

  /** What the pass does to a block that has statements: it applies the rules to all of them; a test of no bits, or of all,
      and a test of a known A, lead to one block only; and no test is with a known X. */
  ghost predicate PeepDone(t: seq<Expr>, blk: Block, blk': Block, val: Vals, out: set<nat>) {
    blk.stmts != [] ==>
      && Peeped(blk, blk', out, IsConst(t, val[X_ATOM]))
      && (MasksAll(blk, out) || MasksNone(blk, out) ==> blk'.jt == blk'.jf)
      && (blk'.s.Jmp? && blk'.s.src == SrcX ==> !IsConst(t, val[X_ATOM]))
      && (blk'.s.Jmp? && blk'.s.src == SrcK && IsConst(t, val[A_ATOM]) ==> blk'.jt == blk'.jf)
  }

  lemma PeepDoneGrows(t: seq<Expr>, t': seq<Expr>, blk: Block, blk': Block, val: Vals, out: set<nat>)
    requires t <= t' && InTable(t, val) && PeepDone(t, blk, blk', val, out)
    ensures PeepDone(t', blk, blk', val, out)
  {
    hide Peeped, MasksAll, MasksNone;
    assert IsConst(t', val[X_ATOM]) == IsConst(t, val[X_ATOM]) && IsConst(t', val[A_ATOM]) == IsConst(t, val[A_ATOM]);
  }

  method OptPeep(tbl: ValueTable, blk: Block, val: Vals, out: set<nat>) returns (blk': Block, ok: bool)
    requires tbl.Valid() && Table(tbl.exprs) && InTable(tbl.exprs, val) && NoConstAtEnd(tbl.exprs, blk.stmts, val)
    ensures ok <==> !Aborts(tbl.exprs, blk, val)
    ensures ok ==> blk'.jt in {blk.jt, blk.jf} && blk'.jf in {blk.jt, blk.jf} && blk'.s.Ret? == blk.s.Ret? && (blk.s.Ret? ==> blk'.s == blk.s)
    ensures ok ==> |blk'.stmts| == |blk.stmts| && (Contained(blk) ==> Contained(blk'))
    ensures ok ==> RewrittenAll(tbl.exprs, blk, blk', val, out)
    ensures ok ==> Thinner(blk, blk') && (Settled(tbl.exprs, blk, val) ==> blk' == blk)
    ensures ok ==> PeepDone(tbl.exprs, blk, blk', val, out)
  {
    assert tbl.curval < tbl.vmap.Length && val[X_ATOM] <= tbl.curval && val[A_ATOM] <= tbl.curval;
    hide StepKeeps, Seen, FinalOp, Scanned, Joined, MasksAll, MasksNone, TakenOverAt, RuledTo, Peeped, RewrittenAll, FoldBranch, KeepsScope, Thinner, Narrower, Settled,
      Contained, ScanEnd, NoConstAtEnd, Table, InTable, ValueTable.Valid, IsConst;
    blk', ok := blk, true;
    if blk.stmts == [] {
      ThinnerDeleted(blk, []);
      EmptyRewritten(tbl.exprs, blk, val, out);
      return;
    }
    var cur, last := PeepStmts(blk.stmts, blk.s, out);
    var constX, x := tbl.Lookup(val[X_ATOM]);
    var constA, a := tbl.Lookup(val[A_ATOM]);
    if constA && blk.s.Ret? { ok := false; return; }
    blk' := FoldBranch(blk.(stmts := cur), last, out, constX, x, constA, a);
    FoldBranchShape(blk.(stmts := cur), last, out, constX, x, constA, a);
    PeepThinner(blk, cur, last, out, constX, x, constA, a);
    if Settled(tbl.exprs, blk, val) { PeepSettled(tbl.exprs, blk, cur, last, out, val, x, a); }
    if Contained(blk) { PeepContained(blk, cur, last, out, constX, x, constA, a); }
    PeepedAll(blk, cur, last, out, constX, x, constA, a);
    if MasksAll(blk, out) || MasksNone(blk, out) { MaskDecides(blk, cur, last, out, constX, x, constA, a); }
    PeepMeansAll(tbl.exprs, blk, cur, last, out, val, x, a);
  }

  lemma PeepThinner(blk: Block, cur: seq<Stmt>, last: nat, out: set<nat>, constX: bool, x: Word, constA: bool, a: Word)
    requires last < |cur| && Narrower(blk.stmts, cur)
    ensures Thinner(blk, FoldBranch(blk.(stmts := cur), last, out, constX, x, constA, a))
  {
    hide FoldBranch, Thinner;
    ThinnerStmts(blk, cur);
    FoldThinner(blk.(stmts := cur), last, out, constX, x, constA, a);
    ThinnerTrans(blk, blk.(stmts := cur), FoldBranch(blk.(stmts := cur), last, out, constX, x, constA, a));
  }

  lemma PeepSettled(t: seq<Expr>, blk: Block, cur: seq<Stmt>, last: nat, out: set<nat>, val: Vals, x: Word, a: Word)
    requires last < |cur| && ScanEnd(blk.stmts, cur, last) && Settled(t, blk, val) && (Inert(blk.stmts) ==> cur == blk.stmts)
    ensures FoldBranch(blk.(stmts := cur), last, out, IsConst(t, val[X_ATOM]), x, IsConst(t, val[A_ATOM]), a) == blk
  {
    hide ScanEnd, FoldBranch, LastSeen;
    FoldSettled(t, blk, last, out, val, x, a);
  }

  lemma PeepMeansAll(t: seq<Expr>, blk: Block, cur: seq<Stmt>, last: nat, out: set<nat>, val: Vals, x: Word, a: Word)
    requires Table(t) && InTable(t, val) && NoConstAtEnd(t, blk.stmts, val) && !Aborts(t, blk, val)
    requires ScanEnd(blk.stmts, cur, last) && last < |cur| && StepKeeps(blk.stmts, cur, blk.s, out, 0, last)
    requires IsConst(t, val[X_ATOM]) ==> IsEntry(t, val[X_ATOM], Imm(x))
    requires IsConst(t, val[A_ATOM]) ==> IsEntry(t, val[A_ATOM], Imm(a))
    ensures RewrittenAll(t, blk, FoldBranch(blk.(stmts := cur), last, out, IsConst(t, val[X_ATOM]), x, IsConst(t, val[A_ATOM]), a), val, out)
  {
    var constX, constA := IsConst(t, val[X_ATOM]), IsConst(t, val[A_ATOM]);
    assert Arith(cur[last]) ==> !constA;
    hide Scanned, SameEffect, FoldBranch, Seen;
    assert cur[last] == Nop || FinalOp(cur, last);
    hide ScanEnd, FinalOp, Rewritten, Safe, LeavesA, LastSeen;
    forall want, p, r | PeepSpares(blk, out, want, constX) && Consistent(t, val, p, RunAll(blk.stmts, p, r))
      ensures Rewritten(blk, FoldBranch(blk.(stmts := cur), last, out, constX, x, constA, a), out, want, constX, p, r)
    {
      PeepMeans(blk, cur, last, out, want, constX, x, constA, a, p, r);
    }
  }

  lemma EmptyRewritten(t: seq<Expr>, blk: Block, val: Vals, out: set<nat>)
    requires Table(t) && InTable(t, val) && blk.stmts == []
    ensures RewrittenAll(t, blk, blk, val, out)
  {
    forall want, p, r ensures Rewritten(blk, blk, out, want, IsConst(t, val[X_ATOM]), p, r) {
      EmptyKeeps(blk, out, want, IsConst(t, val[X_ATOM]), p, r);
    }
  }

  lemma EmptyKeeps(blk: Block, out: set<nat>, want: set<nat>, constX: bool, p: Packet, r: Regs)
    requires blk.stmts == []
    ensures Rewritten(blk, blk, out, want, constX, p, r)
  {
    assert LastSeen(blk.stmts) == Nop;
    SumZero(r[A_ATOM]);
    hide Compare, Alu;
  }

  lemma FoldBranchShape(blk: Block, last: nat, out: set<nat>, constX: bool, x: Word, constA: bool, a: Word)
    requires last < |blk.stmts|
    ensures var blk' := FoldBranch(blk, last, out, constX, x, constA, a);
      && blk'.jt in {blk.jt, blk.jf} && blk'.jf in {blk.jt, blk.jf} && blk'.s.Ret? == blk.s.Ret? && (blk.s.Ret? ==> blk'.s == blk.s)
      && blk'.stmts == FoldCompare(blk, last, out, constX, x).stmts && |blk'.stmts| == |blk.stmts|
      && (blk'.s.Jmp? ==> (blk'.s.src == SrcX ==> !constX) && (blk'.s.src == SrcK && constA ==> blk'.jt == blk'.jf))
  {
    hide Compare, Alu;
  }

  lemma PeepMeans(blk: Block, cur: seq<Stmt>, last: nat, out: set<nat>, want: set<nat>, constX: bool, x: Word, constA: bool, a: Word,
                  p: Packet, r: Regs)
    requires ScanEnd(blk.stmts, cur, last) && Before(blk, cur, last, want, constX, x, constA, a, p, r)
    requires (blk.s.Ret? ==> !constA) && LeavesA(blk.s, LastSeen(blk.stmts), out, want, constX)
    ensures Rewritten(blk, FoldBranch(blk.(stmts := cur), last, out, constX, x, constA, a), out, want, constX, p, r)
  {
    if blk.s.Jmp? {
      EndIsLast(blk.stmts, cur, last);
      EndAlike(blk.s, cur[last], LastSeen(blk.stmts), out);
      FoldBranchKeeps(blk, cur, last, out, want, constX, x, constA, a, p, r);
      MaskSeen(blk, cur, last, out, constX, x);
      hide FoldBranch, FoldCompare, StepAgrees, MasksAll, ScanEnd, Before, TakesOver, TakesMask, Subtrahend, LastSeen, Compare, Alu;
    }
  }

  /** A packet whose first word is zero fails a test of all its bits, and the mask rule lets it pass. */
  lemma AllOnesFails(g: Graph)
    requires g == [Block([LdAbs(W, ZERO)], Jmp(Jset, SrcK, ONES), 1, 2), Block([], Ret(Word(1)), NIL, NIL), Block([], Ret(ZERO), NIL, NIL)]
    ensures var p, r, rank := Packet(map[], ZERO), seq(18, i => ZERO), [1, 0, 0];
      && Ranked(g, rank) && Walk(g, rank, 0, p, r) == ZERO
      && Ranked(g[0 := FoldMask(g[0])], rank) && Walk(g[0 := FoldMask(g[0])], rank, 0, p, r) == Word(1)
      && Misjudged(g[0], {}, p, r)
  {
    var p, r: Regs := Packet(map[], ZERO), seq(18, i => ZERO);
    var stmts := g[0].stmts;
    assert Run(stmts, 1, p, r) == Exec(stmts[0], p, Run(stmts, 0, p, r));
    OnesMask(0);
  }

  /** Statements that use X after an indexed load. */
  function LateUse(): seq<Stmt> {
    [LdImm(Word(2)), AluX(Add), Tax, LdInd(W, ZERO), Txa]
  }

  lemma LateUseRun(p: Packet, r: Regs)
    requires p == Packet(map[], ZERO) && r == seq(18, i => ZERO)
    ensures RunAll(LateUse(), p, r)[A_ATOM] == Word(2)
  {
    var u := LateUse();
    SumZero(Word(2));
    hide Alu, Indexed;
    assert Run(u, 0, p, r) == r;
    assert Run(u, 1, p, r) == Exec(u[0], p, r);
    assert Run(u, 2, p, r)[A_ATOM] == Word(2);
    assert Run(u, 3, p, r)[X_ATOM] == Word(2);
    assert Run(u, 4, p, r)[X_ATOM] == Word(2);
    assert Run(u, 5, p, r)[A_ATOM] == Word(2) && |u| == 5;
  }

  /** Where X is used after the indexed load, moving the constant into the load changes the outcome. */
  lemma LateUseFails(p: Packet, r: Regs)
    requires p == Packet(map[], ZERO) && r == seq(18, i => ZERO)
    ensures Indexing(LateUse(), 0, 1, 1, 2, 3) && !Harmless(LateUse(), {A_ATOM}, 0, 3)
    ensures RunAll(LateUse(), p, r)[A_ATOM] != RunAll(Collapsed(LateUse(), 0, 1, 2, 3), p, r)[A_ATOM]
  {
    var u, v := LateUse(), Collapsed(LateUse(), 0, 1, 2, 3);
    LateUseRun(p, r);
    DeadStores.FateCons(u, 4, 5, X_ATOM);
    assert u[3].LdInd? && !XDead(u, {A_ATOM}, 4);
    RunNops(v, 0, 3, p, r);
    hide Alu, Indexed;
    assert Run(v, 4, p, r)[X_ATOM] == ZERO;
    assert Run(v, 5, p, r)[A_ATOM] == ZERO && |v| == 5;
  }
}
