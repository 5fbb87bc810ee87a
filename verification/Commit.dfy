/** Timing tags, in-order retirement, and one whole cycle of the engine. */
module Commit {
  import opened Wrappers
  import opened Model
  import opened Queues
  import opened Lsu
  import opened Select
  import opened Frontend
  import opened Recovery

  function TagE1(cycle: nat, u: Uop, d: Dyn): Dyn {
    if d.e1.Some? then d else d.(e1 := Some(cycle), pickVisible := if u.isLoad then Some(cycle + 1) else d.pickVisible)
  }

  function TagE4(cycle: nat, d: Dyn): Dyn {
    if d.e4.Some? then d else d.(e4 := Some(cycle), dataVisible := Some(cycle + 1))
  }

  function TagW1(cycle: nat, u: Uop, d: Dyn): Dyn {
    if d.w1.Some? then d
    else if u.isLoad then d.(w1 := Some(cycle))
    else d.(w1 := Some(cycle), pickVisible := Some(cycle + 1), dataVisible := Some(cycle + 1))
  }

  function TagW2(cycle: nat, d: Dyn): Dyn { if d.done.Some? then d else d.(done := Some(cycle)) }

  /** The timing fields of uop `x` after the tagging pass over the four stage queues. */
  function Tagged(x: nat, cycle: nat, code: seq<Uop>, ex: Exec, d0: Dyn): Dyn {
    var u := UopAt(code, x);
    var d1 := if x in ex.e1 then TagE1(cycle, u, d0) else d0;
    var d2 := if x in ex.e4 then TagE4(cycle, d1) else d1;
    var d3 := if x in ex.w1 then TagW1(cycle, u, d2) else d2;
    if x in ex.w2 then TagW2(cycle, d3) else d3
  }

  function TagAll(cycle: nat, code: seq<Uop>, ex: Exec, dyn: seq<Dyn>): (r: seq<Dyn>)
    ensures |r| == |dyn| && forall x :: 0 <= x < |dyn| ==> r[x] == Tagged(x, cycle, code, ex, dyn[x])
  {
    seq(|dyn|, x requires 0 <= x < |dyn| => Tagged(x, cycle, code, ex, dyn[x]))
  }

  function TagStageCycles(cycle: nat, code: seq<Uop>, s: State): State { s.(dyn := TagAll(cycle, code, s.ex, s.dyn)) }

  datatype Retirer = Retirer(rt: Retire, ready: ReadyTables, stq: seq<nat>, scb: seq<ScbEntry>)

  predicate Traps(x: nat, rt: Retire) { rt.pendingTrap.Some? && rt.pendingTrap.value.seqNo == x }

  function CommitOf(x: nat, cycle: nat, code: seq<Uop>, rt: Retire): CommitRecord {
    var c := UopAt(code, x).commit.(cycle := cycle);
    if Traps(x, rt) then c.(trapValid := true, trapCause := rt.pendingTrap.value.cause,
        trapArg0 := rt.pendingTrap.value.arg0) else c
  }

  /** Retire the head of the reorder buffer. A trap it carries halts the run. */
  function RetireOne(cycle: nat, code: seq<Uop>, a: Retirer): Retirer
    requires a.rt.rob != []
  {
    var x := a.rt.rob[0];
    var u := UopAt(code, x);
    Retirer(Retire(a.rt.rob[1..], a.rt.retired + [x], a.rt.committed + [CommitOf(x, cycle, code, a.rt)],
                   if Traps(x, a.rt) then None else a.rt.pendingTrap, a.rt.halted || Traps(x, a.rt)),
            if u.dstTag.Some? then a.ready.Insert(u.dstTag.value) else a.ready,
            if u.isStore then Without(a.stq, x) else a.stq,
            if u.isStore then a.scb + [ScbEntry(x, cycle)] else a.scb)
  }

  /** Retire from the head while it is done and fewer than `limit` uops have retired in all. */
  function RetireLoop(limit: nat, cycle: nat, code: seq<Uop>, dyn: seq<Dyn>, a: Retirer): Retirer
    decreases limit - |a.rt.retired|
  {
    if |a.rt.retired| >= limit || a.rt.rob == [] || DynAt(dyn, a.rt.rob[0]).done.None? then a
    else RetireLoop(limit, cycle, code, dyn, RetireOne(cycle, code, a))
  }

  function RetireReady(cycle: nat, code: seq<Uop>, s: State): State {
    var a := RetireLoop(|s.rt.retired| + COMMIT_WIDTH, cycle, code, s.dyn,
        Retirer(s.rt, s.q.ready, s.mem.stq, s.mem.scb));
    s.(rt := a.rt, q := s.q.(ready := a.ready), mem := s.mem.(stq := a.stq, scb := a.scb))
  }

  /** From the start of the cycle up to retirement. */
  function FrontHalf(cycle: nat, input: Input, code: seq<Uop>, s: State): State {
    var s1 := FillFetch(cycle, code, ApplyPendingFlush(cycle, code, s));
    var s2 := PublishFaults(input.faults, TagStageCycles(cycle, code, s1));
    AdvanceScb(cycle, code, UpdateIq(cycle, code, s2))
  }

  /** Execute, issue, dispatch and the frontend. */
  function BackHalf(cycle: nat, opts: Options, input: Input, code: seq<Uop>, s: State): State {
    var s1 := AdvanceLiq(cycle, code, AdvanceL1d(cycle, AdvanceExecute(cycle, opts, code, s)));
    var s2 := ArbitrateAndAdvance(cycle, code, AdvanceI1ToI2(s1));
    var s3 := PickFromIq(cycle, code, AdvanceI2(cycle, code, s2));
    AdvanceFrontend(Dispatch(cycle, input, code, s3))
  }

  /** One cycle. The run halts after a retired trap or once every commit is out. */
  function Step(cycle: nat, opts: Options, input: Input, code: seq<Uop>, s: State): State {
    if s.rt.halted then s
    else
      var r := RetireReady(cycle, code, FrontHalf(cycle, input, code, s));
      if r.rt.halted then r
      else
        var t := ScheduleRedirect(cycle, input, code, r);
        if |t.rt.committed| == opts.targetCommits then t.(rt := t.rt.(halted := true))
        else BackHalf(cycle, opts, input, code, t)
  }

  predicate StepAt(i: nat, run: seq<State>, opts: Options, inputs: nat -> Input, code: seq<Uop>) {
    i + 1 < |run| && run[i + 1] == Step(i, opts, inputs(i), code, run[i])
  }

  /** `run[i]` is the state before cycle `i`. */
  predicate IsRun(run: seq<State>, opts: Options, inputs: nat -> Input, code: seq<Uop>) {
    && run != [] && run[0] == Initial(code)
    && forall i: nat {:trigger StepAt(i, run, opts, inputs, code)} ::
         i + 1 < |run| ==> StepAt(i, run, opts, inputs, code)
  }
}
