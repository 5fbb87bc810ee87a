/** Dataflow safety on every run: a uop issues only on data that is visible and stays visible. */
module Dataflow {
  import opened Wrappers
  import opened Model
  import opened Select
  import opened Lsu
  import opened Frontend
  import opened Recovery
  import opened Commit
  import opened Timing
  import opened WellFormed
  import opened Runs

  /** The back half of a cycle up to the issue point. */
  function BeforeI2(cycle: nat, opts: Options, code: seq<Uop>, s: State): State {
    ArbitrateAndAdvance(cycle, code,
        AdvanceI1ToI2(AdvanceLiq(cycle, code, AdvanceL1d(cycle, AdvanceExecute(cycle, opts, code, s)))))
  }

  lemma ToI2Settled(cycle: nat, opts: Options, code: seq<Uop>, s: State)
    requires AllTimeMid(cycle, opts, code, s.ex.e4, s.dyn) && Loads(code, s.ex.e4)
    ensures var e := BeforeI2(cycle, opts, code, s);
      Settled(cycle, s.dyn, e.dyn) && AllTimeOk(cycle + 1, opts, code, e.dyn)
  {
    var a := AdvanceExecute(cycle, opts, code, s);
    ExecuteTime(cycle, opts, code, s);
    ExecuteSettled(cycle, opts, code, s);
    var b := AdvanceL1d(cycle, a);
    var c := AdvanceLiq(cycle, code, b);
    LiqTimeOk(cycle, opts, code, b);
    SettledTrans(cycle, s.dyn, a.dyn, c.dyn);
  }

  lemma FromI2Settled(cycle: nat, opts: Options, input: Input, code: seq<Uop>, s: State)
    requires AllTimeOk(cycle + 1, opts, code, BeforeI2(cycle, opts, code, s).dyn)
    ensures Settled(cycle, BeforeI2(cycle, opts, code, s).dyn, BackHalf(cycle, opts, input, code, s).dyn)
  {
    var e := BeforeI2(cycle, opts, code, s);
    var g := PickFromIq(cycle, code, AdvanceI2(cycle, code, e));
    DispatchTimeOk(cycle, opts, input, code, g);
    assert BackHalf(cycle, opts, input, code, s) == AdvanceFrontend(Dispatch(cycle, input, code, g));
  }

  lemma FrontSettled(cycle: nat, opts: Options, input: Input, code: seq<Uop>, s: State)
    requires RunInv(cycle, opts, code, s)
    ensures var c := Committed(cycle, input, code, s);
      c.dyn == AfterRetire(cycle, input, code, s).dyn && Settled(cycle, s.dyn, c.dyn)
  {
    var t := FillFetch(cycle, code, ApplyPendingFlush(cycle, code, s));
    RestartPipe(cycle, opts, code, s);
    TagSame(cycle, opts, code, t, TagAll(cycle, code, t.ex, t.dyn));
  }

  lemma MidAtCommit(cycle: nat, opts: Options, input: Input, code: seq<Uop>, s: State)
    requires WellFormedCode(code) && RunInv(cycle, opts, code, s)
    ensures MidInv(cycle, opts, code, Committed(cycle, input, code, s))
  {
    var a := FrontHalf(cycle, input, code, s);
    FrontHalfInv(cycle, opts, input, code, s);
    RetireInv(cycle, opts, code, a);
    ScheduleInv(cycle, opts, input, code, RetireReady(cycle, code, a));
  }

  lemma BackSettled(cycle: nat, opts: Options, input: Input, code: seq<Uop>, s: State, c: State)
    requires MidInv(cycle, opts, code, c) && Settled(cycle, s.dyn, c.dyn)
    ensures Settled(cycle, s.dyn, BackHalf(cycle, opts, input, code, c).dyn)
  {
    var e := BeforeI2(cycle, opts, code, c);
    var r := BackHalf(cycle, opts, input, code, c);
    ToI2Settled(cycle, opts, code, c);
    FromI2Settled(cycle, opts, input, code, c);
    SettledTrans(cycle, c.dyn, e.dyn, r.dyn);
    SettledTrans(cycle, s.dyn, c.dyn, r.dyn);
  }

  /** Over a whole cycle, data visible by it is final. */
  lemma StepSettled(cycle: nat, opts: Options, input: Input, code: seq<Uop>, s: State)
    requires WellFormedCode(code) && RunInv(cycle, opts, code, s) && !s.rt.halted
    ensures Settled(cycle, s.dyn, Step(cycle, opts, input, code, s).dyn)
  {
    FrontSettled(cycle, opts, input, code, s);
    StepCases(cycle, opts, input, code, s);
    var b, c := AfterRetire(cycle, input, code, s), Committed(cycle, input, code, s);
    if !b.rt.halted && |c.rt.committed| != opts.targetCommits {
      MidAtCommit(cycle, opts, input, code, s);
      BackSettled(cycle, opts, input, code, s, c);
    }
  }

  lemma StepAtSettled(j: nat, k: nat, run: seq<State>, opts: Options, inputs: nat -> Input, code: seq<Uop>, p: nat)
    requires WellFormedCode(code) && StepAt(j, run, opts, inputs, code) && k == j + 1
    requires !run[j].rt.halted ==> RunInv(j, opts, code, run[j])
    ensures AtOrBefore(DynAt(run[j].dyn, p).dataVisible, j) ==>
      DynAt(run[k].dyn, p).dataVisible == DynAt(run[j].dyn, p).dataVisible
  {
    if run[j].rt.halted { StepAtHalted(j, run, opts, inputs, code); } else {
      StepSettled(j, opts, inputs(j), code, run[j]);
    }
  }

  /** Visible data is never withdrawn: once a uop's data is visible by cycle `i`, its visibility
      cycle is the same in every later state. */
  lemma {:induction false} DataIsFinal(i: nat, k: nat, run: seq<State>, opts: Options, inputs: nat -> Input,
                                       code: seq<Uop>, p: nat)
    requires WellFormedCode(code) && IsRun(run, opts, inputs, code) && i <= k < |run|
    requires AtOrBefore(DynAt(run[i].dyn, p).dataVisible, i)
    ensures DynAt(run[k].dyn, p).dataVisible == DynAt(run[i].dyn, p).dataVisible
    decreases k - i
  {
    if i < k {
      var j: nat := k - 1;
      DataIsFinal(i, j, run, opts, inputs, code, p);
      assert StepAt(j, run, opts, inputs, code);
      if !run[j].rt.halted { RunSatisfies(j, run, opts, inputs, code); }
      StepAtSettled(j, k, run, opts, inputs, code, p);
    }
  }

  lemma {:induction false} LeavesReady(pending: seq<nat>, cycle: nat, code: seq<Uop>, dyn: seq<Dyn>, a: Issuer, x: nat)
    requires x in pending && x !in IssueLoop(pending, cycle, code, dyn, a).i2
    ensures I2Ready(UopAt(code, x), cycle, dyn)
  {
    var b := IssueOne(pending[0], cycle, code, dyn, a);
    if pending[0] == x {
      if !Issues(x, cycle, code, dyn, a) { StaysInI2(pending[1..], cycle, code, dyn, b, x); }
    } else {
      LeavesReady(pending[1..], cycle, code, dyn, b, x);
    }
  }

  lemma {:induction false} StaysInI2(pending: seq<nat>, cycle: nat, code: seq<Uop>, dyn: seq<Dyn>, a: Issuer, x: nat)
    requires x in a.i2
    ensures x in IssueLoop(pending, cycle, code, dyn, a).i2
  {
    if pending != [] { StaysInI2(pending[1..], cycle, code, dyn, IssueOne(pending[0], cycle, code, dyn, a), x); }
  }

  /** Uop `x` leaves I2 in this cycle. */
  predicate IssuesIn(cycle: nat, opts: Options, input: Input, code: seq<Uop>, s: State, x: nat) {
    && !s.rt.halted && !AfterRetire(cycle, input, code, s).rt.halted
    && var c := Committed(cycle, input, code, s);
       && |c.rt.committed| != opts.targetCommits
       && x in BeforeI2(cycle, opts, code, c).sel.i2
       && x !in AdvanceI2(cycle, code, BeforeI2(cycle, opts, code, c)).sel.i2
  }

  lemma IssueData(cycle: nat, opts: Options, input: Input, code: seq<Uop>, s: State, x: nat, idx: nat)
    requires WellFormedCode(code) && RunInv(cycle, opts, code, s) && IssuesIn(cycle, opts, input, code, s, x) && idx < 2
    ensures var dep := UopAt(code, x).src.At(idx).dep;
      dep.Some? ==> AtOrBefore(DynAt(Step(cycle, opts, input, code, s).dyn, dep.value).dataVisible, cycle)
  {
    var c := Committed(cycle, input, code, s);
    StepCases(cycle, opts, input, code, s);
    MidAtCommit(cycle, opts, input, code, s);
    IssueReady(cycle, opts, input, code, c, x, idx);
  }

  lemma IssueReady(cycle: nat, opts: Options, input: Input, code: seq<Uop>, c: State, x: nat, idx: nat)
    requires MidInv(cycle, opts, code, c) && idx < 2
    requires x in BeforeI2(cycle, opts, code, c).sel.i2
      && x !in AdvanceI2(cycle, code, BeforeI2(cycle, opts, code, c)).sel.i2
    ensures var dep := UopAt(code, x).src.At(idx).dep;
      dep.Some? ==> AtOrBefore(DynAt(BackHalf(cycle, opts, input, code, c).dyn, dep.value).dataVisible, cycle)
  {
    var e := BeforeI2(cycle, opts, code, c);
    ToI2Settled(cycle, opts, code, c);
    FromI2Settled(cycle, opts, input, code, c);
    LeavesReady(e.sel.i2, cycle, code, e.dyn, Issuer([], e.ex.e1, e.mem), x);
    var dep := UopAt(code, x).src.At(idx).dep;
    if dep.Some? { assert AtOrBefore(DynAt(e.dyn, dep.value).dataVisible, cycle); }
  }

  lemma IssueDataAt(i: nat, k: nat, run: seq<State>, opts: Options, inputs: nat -> Input, code: seq<Uop>, x: nat,
                    idx: nat)
    requires WellFormedCode(code) && StepAt(i, run, opts, inputs, code) && k == i + 1
    requires RunInv(i, opts, code, run[i]) && IssuesIn(i, opts, inputs(i), code, run[i], x) && idx < 2
    ensures var dep := UopAt(code, x).src.At(idx).dep;
      dep.Some? ==> AtOrBefore(DynAt(run[k].dyn, dep.value).dataVisible, i)
  {
    IssueData(i, opts, inputs(i), code, run[i], x, idx);
  }

  /** A uop leaves I2 in cycle `i` only if every producer's data is visible by cycle `i`, and in
      every later state of the run that is still so, with the same visibility cycle. */
  lemma IssueIsSafe(i: nat, j: nat, k: nat, run: seq<State>, opts: Options, inputs: nat -> Input, code: seq<Uop>,
                    x: nat, idx: nat)
    requires WellFormedCode(code) && IsRun(run, opts, inputs, code) && i < j <= k < |run| && idx < 2
    requires IssuesIn(i, opts, inputs(i), code, run[i], x) && UopAt(code, x).src.At(idx).dep.Some?
    ensures var p := UopAt(code, x).src.At(idx).dep.value;
      AtOrBefore(DynAt(run[j].dyn, p).dataVisible, i)
        && DynAt(run[k].dyn, p).dataVisible == DynAt(run[j].dyn, p).dataVisible
  {
    var p, n := UopAt(code, x).src.At(idx).dep.value, i + 1;
    assert StepAt(i, run, opts, inputs, code);
    RunSatisfies(i, run, opts, inputs, code);
    IssueDataAt(i, n, run, opts, inputs, code, x, idx);
    DataIsFinal(n, j, run, opts, inputs, code, p);
    DataIsFinal(n, k, run, opts, inputs, code, p);
  }

  /** A load still due for an injected miss shows no data between cycles: its reset comes in the
      very cycle that stamped E4. */
  lemma MissIsHidden(k: nat, run: seq<State>, opts: Options, inputs: nat -> Input, code: seq<Uop>, x: nat)
    requires WellFormedCode(code) && IsRun(run, opts, inputs, code) && k < |run| && !run[k].rt.halted
    requires ShouldInjectMiss(opts, UopAt(code, x), DynAt(run[k].dyn, x))
    ensures DynAt(run[k].dyn, x).dataVisible.None? && DynAt(run[k].dyn, x).done.None?
  {
    RunSatisfies(k, run, opts, inputs, code);
    assert TimeOk(k, opts, UopAt(code, x), DynAt(run[k].dyn, x));
  }
}
