/**
 Loading the AirPcap library once, whatever threads ask for it: a state machine with one step per
 atomic operation, over any number of threads and any order of their steps.
 */
module AirpcapLoader {

  /** How many functions the library has to have. */
  const FUNCTIONS: nat := 15

  datatype Status = Unloaded | Loaded | CannotLoad | Loading

  /** Where a thread is. Holding is after an atomic read of the status that returned cur. */
  datatype PC =
    | Start
    | Holding(cur: Status)
    | LoadLibrary
    | Find(k: nat)
    | CheckAll
    | FreeLibrary
    | Publish(result: Status)
    | Done(answer: Status)

  /** What the system has: the library, and each of the functions in it. */
  datatype System = System(library: bool, functions: seq<bool>)

  /** There is a library, and it has every function. */
  ghost predicate Complete(sys: System) {
    sys.library && |sys.functions| == FUNCTIONS && forall k :: 0 <= k < FUNCTIONS ==> sys.functions[k]
  }

  /** The status word, the library handle and function pointers (null or not), and the threads. */
  datatype State = State(status: Status, lib: bool, funcs: seq<bool>, pcs: map<nat, PC>)

  /** The library and all its functions are there to be called. */
  ghost predicate AllFound(s: State) {
    s.lib && |s.funcs| == FUNCTIONS && forall k :: 0 <= k < FUNCTIONS ==> s.funcs[k]
  }

  ghost predicate Init(s: State) {
    s.status == Unloaded && !s.lib && |s.funcs| == FUNCTIONS && forall t :: t in s.pcs ==> s.pcs[t] == Start
  }

  function LibraryLoaded(s: State, t: nat, found: bool): State {
    s.(lib := found, pcs := s.pcs[t := if found then Find(0) else Publish(CannotLoad)])
  }

  function FunctionFound(s: State, t: nat, k: nat, found: bool): State
    requires k < |s.funcs|
  {
    s.(funcs := s.funcs[k := found], pcs := s.pcs[t := if k + 1 < FUNCTIONS then Find(k + 1) else CheckAll])
  }

  /** Thread t takes a step. What the system answers is any System; as nothing is asked twice, it may as well be given in
      advance. */
  ghost predicate Step(sys: System, s: State, s': State, t: nat) {
    && t in s.pcs && |sys.functions| == FUNCTIONS
    && match s.pcs[t]
       case Start =>
         s' == s.(status := if s.status == Unloaded then Loading else s.status, pcs := s.pcs[t := Holding(s.status)])
       case Holding(Loading) => s' == s.(pcs := s.pcs[t := Holding(s.status)])
       case Holding(Unloaded) => s' == s.(pcs := s.pcs[t := LoadLibrary])
       case Holding(final) => s' == s.(pcs := s.pcs[t := Done(final)])
       case LoadLibrary => s' == LibraryLoaded(s, t, sys.library)
       case Find(k) => k < FUNCTIONS && k < |s.funcs| && s' == FunctionFound(s, t, k, sys.functions[k])
       case CheckAll =>
         s' == s.(pcs := s.pcs[t := if forall k :: 0 <= k < |s.funcs| ==> s.funcs[k] then Publish(Loaded) else FreeLibrary])
       case FreeLibrary => s' == s.(lib := false, pcs := s.pcs[t := Publish(CannotLoad)])
       case Publish(result) => s' == s.(status := result, pcs := s.pcs[t := Done(result)])
       case Done(_) => false
  }

  ghost predicate Next(sys: System, s: State, s': State) {
    exists t :: Step(sys, s, s', t)
  }

  /** A run from the start. */
  ghost predicate Run(sys: System, states: seq<State>) {
    |sys.functions| == FUNCTIONS && |states| > 0 && Init(states[0]) && forall i :: 0 < i < |states| ==> Next(sys, states[i - 1], states[i])
  }

  // ---------------------------------------------------------------------------------------
  // What every state of every run satisfies
  // ---------------------------------------------------------------------------------------

  /** The thread is in the section that loads the library. */
  predicate InSection(pc: PC) {
    pc == Holding(Unloaded) || pc.LoadLibrary? || pc.Find? || pc.CheckAll? || pc.FreeLibrary? || pc.Publish?
  }

  predicate Final(status: Status) {
    status == Loaded || status == CannotLoad
  }

  /** The first n functions have been looked up. */
  ghost predicate LookedUp(sys: System, s: State, n: nat) {
    sys.library && s.lib && |s.funcs| == |sys.functions| && forall k :: 0 <= k < n && k < |s.funcs| ==> s.funcs[k] == sys.functions[k]
  }

  /** The result is what the system has: Loaded if all of it is there; and if not, the library is not kept. */
  ghost predicate Right(sys: System, s: State, result: Status) {
    && Final(result) && (result == Loaded <==> Complete(sys))
    && (result == Loaded ==> AllFound(s)) && (result == CannotLoad ==> !s.lib)
  }

  /** What is true of a thread, given the shared state. */
  ghost predicate ThreadOk(sys: System, s: State, pc: PC) {
    && (InSection(pc) ==> s.status == Loading)
    && (pc.Holding? && Final(pc.cur) ==> s.status == pc.cur)
    && (pc.Done? ==> Final(pc.answer) && s.status == pc.answer)
    && (pc.Find? ==> pc.k < FUNCTIONS && LookedUp(sys, s, pc.k))
    && (pc.CheckAll? ==> LookedUp(sys, s, FUNCTIONS))
    && (pc.FreeLibrary? ==> !Complete(sys))
    && (pc.Publish? ==> Right(sys, s, pc.result))
  }

  ghost predicate OneInSection(s: State) {
    forall t, u :: t in s.pcs && u in s.pcs && InSection(s.pcs[t]) && InSection(s.pcs[u]) ==> t == u
  }

  ghost predicate Inv(sys: System, s: State) {
    && |s.funcs| == |sys.functions| == FUNCTIONS && OneInSection(s)
    && (forall t :: t in s.pcs ==> ThreadOk(sys, s, s.pcs[t]))
    && (s.status == Unloaded ==> forall t :: t in s.pcs ==> s.pcs[t] == Start)
    && (s.status == Loading ==> exists t :: t in s.pcs && InSection(s.pcs[t]))
    && (Final(s.status) ==> Right(sys, s, s.status))
  }

  lemma InitInv(sys: System, s: State)
    requires Init(s) && |sys.functions| == FUNCTIONS
    ensures Inv(sys, s)
  {
  }

  /** The status only moves from unloaded to loading to one final value. */
  ghost predicate Advances(a: Status, b: Status) {
    a == b || a == Unloaded || (a == Loading && Final(b))
  }

  /** What is said of the library and the functions stays true when they stay as they are. */
  lemma RightStays(sys: System, s: State, s': State)
    requires s'.lib == s.lib && s'.funcs == s.funcs
    ensures forall result :: Right(sys, s', result) == Right(sys, s, result)
    ensures forall n :: LookedUp(sys, s', n) == LookedUp(sys, s, n)
  {
  }

  /** A step by a thread outside the section changes at most the status, from unloaded to loading,
      and then the thread is the one in the section. */
  lemma OutsideStep(sys: System, s: State, s': State, t: nat)
    requires Inv(sys, s) && Step(sys, s, s', t) && !InSection(s.pcs[t])
    ensures Inv(sys, s') && Advances(s.status, s'.status)
  {
    var pc' := s'.pcs[t];
    assert s'.pcs == s.pcs[t := pc'] && s'.lib == s.lib && s'.funcs == s.funcs;
    RightStays(sys, s, s');
    hide Right, LookedUp, Complete;
    if s.status == Unloaded {
      assert InSection(s'.pcs[t]);
    } else {
      assert s'.status == s.status;
      if s.status == Loading {
        var u :| u in s.pcs && InSection(s.pcs[u]);
        assert u != t && InSection(s'.pcs[u]);
      }
    }
  }

  /** While one thread is in the section the others only wait. */
  lemma OthersWait(sys: System, s: State, t: nat, u: nat)
    requires Inv(sys, s) && t in s.pcs && u in s.pcs && t != u && InSection(s.pcs[t])
    ensures s.pcs[u] == Start || s.pcs[u] == Holding(Loading)
  {
    assert ThreadOk(sys, s, s.pcs[t]) && ThreadOk(sys, s, s.pcs[u]);
  }

  lemma InsideStep(sys: System, s: State, s': State, t: nat)
    requires Inv(sys, s) && Step(sys, s, s', t) && InSection(s.pcs[t])
    ensures Inv(sys, s') && Advances(s.status, s'.status)
  {
    hide Step;
    SectionStep(sys, s, s', t);
    forall u | u in s'.pcs && u != t
      ensures s'.pcs[u] == s.pcs[u] && (s.pcs[u] == Start || s.pcs[u] == Holding(Loading))
    {
      OthersWait(sys, s, t, u);
    }
    hide AllFound;
  }

  /** What a step in the section does to its thread: it stays there, or it is done and the status is final. */
  lemma SectionStep(sys: System, s: State, s': State, t: nat)
    requires Inv(sys, s) && Step(sys, s, s', t) && InSection(s.pcs[t])
    ensures s.status == Loading && t in s.pcs && t in s'.pcs && s'.pcs == s.pcs[t := s'.pcs[t]] && |s'.funcs| == FUNCTIONS
    ensures ThreadOk(sys, s', s'.pcs[t]) && (Final(s'.status) ==> Right(sys, s', s'.status))
    ensures if InSection(s'.pcs[t]) then s'.status == Loading else s'.pcs[t].Done? && Final(s'.status)
  {
    assert ThreadOk(sys, s, s.pcs[t]);
  }

  lemma NextInv(sys: System, s: State, s': State)
    requires Inv(sys, s) && Next(sys, s, s')
    ensures Inv(sys, s') && Advances(s.status, s'.status)
  {
    var t :| Step(sys, s, s', t);
    if InSection(s.pcs[t]) { InsideStep(sys, s, s', t); } else { OutsideStep(sys, s, s', t); }
  }

  lemma {:induction false} RunInv(sys: System, states: seq<State>, i: nat)
    requires Run(sys, states) && i < |states|
    ensures Inv(sys, states[i])
  {
    if i == 0 {
      InitInv(sys, states[0]);
    } else {
      RunInv(sys, states, i - 1);
      NextInv(sys, states[i - 1], states[i]);
    }
  }

  // ---------------------------------------------------------------------------------------
  // What this means for whole runs
  // ---------------------------------------------------------------------------------------

  lemma {:induction false} StatusAdvances(sys: System, states: seq<State>, i: nat, j: nat)
    requires Run(sys, states) && i <= j < |states|
    ensures Advances(states[i].status, states[j].status)
    decreases j
  {
    hide Inv, Next, Init;
    if i < j {
      StatusAdvances(sys, states, i, j - 1);
      RunInv(sys, states, j - 1);
      NextInv(sys, states[j - 1], states[j]);
    }
  }

  /** All threads that return, at whatever time, return the same answer. It is Loaded exactly if the system has the library and
      every function, and then all have been found, and stay so; if not, the library has been released. */
  lemma SameAnswer(sys: System, states: seq<State>, i: nat, t: nat, j: nat, u: nat)
    requires Run(sys, states) && i <= j < |states| && t in states[i].pcs && u in states[j].pcs
    requires states[i].pcs[t].Done? && states[j].pcs[u].Done?
    ensures states[i].pcs[t].answer == states[j].pcs[u].answer == states[j].status
    ensures states[i].pcs[t].answer == Loaded <==> Complete(sys)
    ensures states[i].pcs[t].answer == Loaded ==> AllFound(states[i]) && AllFound(states[j])
    ensures states[i].pcs[t].answer == CannotLoad ==> !states[i].lib && !states[j].lib
  {
    RunInv(sys, states, i);
    RunInv(sys, states, j);
    StatusAdvances(sys, states, i, j);
    assert ThreadOk(sys, states[i], states[i].pcs[t]) && ThreadOk(sys, states[j], states[j].pcs[u]);
  }

  /** Thread t alone has ever been in the section. */
  ghost predicate OnlyLoader(states: seq<State>, n: nat, t: nat)
    requires n <= |states|
  {
    forall i, u :: 0 <= i < n && u in states[i].pcs && InSection(states[i].pcs[u]) ==> u == t
  }

  /** Nobody enters the section once the status has changed. */
  lemma NoEntry(sys: System, s: State, s': State, t: nat)
    requires Inv(sys, s) && Next(sys, s, s') && s.status != Unloaded && t in s'.pcs && InSection(s'.pcs[t])
    ensures t in s.pcs && InSection(s.pcs[t])
  {
    var u :| Step(sys, s, s', u);
    assert ThreadOk(sys, s, s.pcs[u]);
  }

  /** Whoever is in the section is thread t. */
  ghost predicate Only(s: State, t: nat) {
    forall u :: u in s.pcs && InSection(s.pcs[u]) ==> u == t
  }

  lemma OnlyNow(sys: System, s: State) returns (t: nat)
    requires Inv(sys, s)
    ensures Only(s, t)
    ensures s.status == Unloaded ==> forall u :: Only(s, u)
  {
    hide ThreadOk, Right;
    t := 0;
    if u :| u in s.pcs && InSection(s.pcs[u]) { t := u; }
  }

  lemma OnlyStays(sys: System, s: State, s': State, t: nat)
    requires Inv(sys, s) && Next(sys, s, s') && s.status != Unloaded && Only(s, t)
    ensures Only(s', t)
  {
    hide Inv, Next, InSection;
    forall u | u in s'.pcs && InSection(s'.pcs[u]) ensures u == t { NoEntry(sys, s, s', u); }
  }

  /** In any run at most one thread ever enters the section. */
  lemma {:induction false} OneLoaderEver(sys: System, states: seq<State>, n: nat) returns (t: nat)
    requires Run(sys, states) && n <= |states|
    ensures OnlyLoader(states, n, t)
    ensures n > 0 && states[n - 1].status == Unloaded ==> forall u :: OnlyLoader(states, n, u)
  {
    hide Inv, InSection, Next, Only;
    t := 0;
    if n > 0 {
      t := OneLoaderEver(sys, states, n - 1);
      RunInv(sys, states, n - 1);
      var s := states[n - 1];
      var now := OnlyNow(sys, s);
      if n > 1 {
        RunInv(sys, states, n - 2);
        StatusAdvances(sys, states, n - 2, n - 1);
        if states[n - 2].status == Unloaded {
          t := now;
        } else {
          OnlyLast(states, n - 1, t);
          OnlyStays(sys, states[n - 2], s, t);
        }
      } else {
        t := now;
      }
      hide Run;
      OnlyMore(states, n, t);
      if s.status == Unloaded {
        forall u ensures OnlyLoader(states, n, u) { OnlyMore(states, n, u); }
      }
    }
  }

  lemma OnlyLast(states: seq<State>, n: nat, t: nat)
    requires 0 < n <= |states| && OnlyLoader(states, n, t)
    ensures Only(states[n - 1], t)
  {
    hide InSection;
  }

  lemma OnlyMore(states: seq<State>, n: nat, t: nat)
    requires 0 < n <= |states|
    ensures OnlyLoader(states, n - 1, t) && Only(states[n - 1], t) ==> OnlyLoader(states, n, t)
  {
    hide InSection;
  }

  /** Steps the loading thread has still to take. */
  function Remaining(pc: PC): nat {
    match pc
    case Holding(_) => FUNCTIONS + 5
    case LoadLibrary => FUNCTIONS + 4
    case Find(k) => if k <= FUNCTIONS then FUNCTIONS - k + 3 else 3
    case CheckAll => 3
    case FreeLibrary => 2
    case Publish(_) => 1
    case _ => 0
  }

  /** Nobody waits forever for nobody: while the status is loading there is a thread in the section,
      it can always take a step, and each takes it closer to publishing the result. */
  lemma LoaderProceeds(sys: System, s: State) returns (t: nat, s': State)
    requires Inv(sys, s) && s.status == Loading
    ensures t in s.pcs && InSection(s.pcs[t]) && Step(sys, s, s', t)
    ensures forall s1 :: Step(sys, s, s1, t) ==> Remaining(s1.pcs[t]) < Remaining(s.pcs[t])
  {
    t :| t in s.pcs && InSection(s.pcs[t]);
    assert ThreadOk(sys, s, s.pcs[t]);
    s' := s;
    match s.pcs[t]
    case Holding(_) => s' := s.(pcs := s.pcs[t := LoadLibrary]);
    case LoadLibrary => s' := LibraryLoaded(s, t, sys.library);
    case Find(k) => s' := FunctionFound(s, t, k, sys.functions[k]);
    case CheckAll =>
      s' := s.(pcs := s.pcs[t := if forall k :: 0 <= k < |s.funcs| ==> s.funcs[k] then Publish(Loaded) else FreeLibrary]);
    case FreeLibrary => s' := s.(lib := false, pcs := s.pcs[t := Publish(CannotLoad)]);
    case Publish(result) => s' := s.(status := result, pcs := s.pcs[t := Done(result)]);
    case _ =>
  }
}
