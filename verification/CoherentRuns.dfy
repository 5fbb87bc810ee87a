/** The invariant of every coherent run. */
module CoherentRuns {
  import opened Wrappers
  import opened Seqs
  import opened Model
  import opened Queues
  import opened Select
  import opened Lsu
  import opened Frontend
  import opened Recovery
  import opened Commit
  import opened Residency
  import opened Alive
  import opened StageSteps
  import opened WellFormed
  import opened Runs
  import opened Conserve
  import opened CommitOrder
  import opened MemoryOrder
  import opened MemorySteps
  import opened MemoryRestart
  import opened Tracking

  ghost predicate CoherentInv(cycle: nat, opts: Options, code: seq<Uop>, s: State) {
    && RunInv(cycle, opts, code, s) && ConserveInv(cycle, code, s) && FlushDue(s.fe) && CommitInv(code, s)
    && MemInv(code, s)
    && TagsTracked(s.q.iqTags, code, s.dyn)
  }

  ghost predicate CoherentMid(cycle: nat, opts: Options, code: seq<Uop>, s: State) {
    && MidInv(cycle, opts, code, s) && ConserveMid(cycle, code, s) && CommitInv(code, s) && MemInv(code, s)
    && TagsTracked(s.q.iqTags, code, s.dyn)
  }

  /** Between execution and the end of cycle `cycle`. */
  ghost predicate CoherentBack(cycle: nat, opts: Options, code: seq<Uop>, s: State) {
    && PipeInv(cycle + 1, opts, code, s) && NetInv(cycle + 1, code, s)
    && ConserveInv(cycle + 1, code, s) && CommitInv(code, s) && MemInv(code, s) && TagsTracked(s.q.iqTags, code, s.dyn)
  }

  // -- Front half ---------------------------------------------------------------------------------

  lemma MiddleCommit(cycle: nat, input: Input, code: seq<Uop>, s: State)
    requires CommitInv(code, s)
    ensures CommitInv(code, Middle(cycle, input, code, s))
  {
    var r := Middle(cycle, input, code, s);
    forall x: nat | DynAt(s.dyn, x).done.Some? ensures DynAt(r.dyn, x).done.Some? {
      TaggedStamps(x, cycle, code, s.ex, s.dyn[x]);
    }
    CommitFrame(code, s, r);
  }

  lemma MiddleMemory(cycle: nat, input: Input, code: seq<Uop>, s: State)
    requires MemoryIds(code) && MemInv(code, s)
    ensures MemInv(code, Middle(cycle, input, code, s))
  {
    var t := UpdateIq(cycle, code, PublishFaults(input.faults, TagStageCycles(cycle, code, s)));
    UpdateIqFacts(cycle, code, s.q, TagStageCycles(cycle, code, s).dyn, 0);
    ResidentFrame(code, s, t);
    DrainMemory(cycle, code, t);
  }

  lemma FrontHalfTracking(cycle: nat, opts: Options, input: Input, code: seq<Uop>, s: State, t: State)
    requires RunInv(cycle, opts, code, s) && TagsTracked(s.q.iqTags, code, s.dyn)
      && t == FillFetch(cycle, code, ApplyPendingFlush(cycle, code, s))
    requires PipeInv(cycle, opts, code, t)
    ensures var r := Middle(cycle, input, code, t); TagsTracked(r.q.iqTags, code, r.dyn)
  {
    var dyn := TagAll(cycle, code, t.ex, t.dyn);
    if s.fe.pendingFlush.Some? { FlushTags(s.fe.pendingFlush.value, code, s); }
    TagSame(cycle, opts, code, t, dyn);
    assert t.dyn == s.dyn;
    TrackedFrame(s.q.iqTags, t.q.iqTags, code, s.dyn, dyn);
  }

  lemma FrontHalfCoherent(cycle: nat, opts: Options, input: Input, code: seq<Uop>, s: State)
    requires WellFormedCode(code) && CoherentInv(cycle, opts, code, s)
    ensures var r := FrontHalf(cycle, input, code, s);
      CoherentMid(cycle, opts, code, r) && r.fe.pendingFlush.None? && r.fe.redirect.None?
  {
    var t := FillFetch(cycle, code, ApplyPendingFlush(cycle, code, s));
    FrontHalfInv(cycle, opts, input, code, s);
    RestartPipe(cycle, opts, code, s);
    RestartConserve(cycle, opts, code, s);
    RestartCommit(cycle, code, s);
    RestartMemory(cycle, opts, code, s);
    MiddleConserve(cycle, opts, input, code, t);
    MiddleCommit(cycle, input, code, t);
    MiddleMemory(cycle, input, code, t);
    FrontHalfTracking(cycle, opts, input, code, s, t);
    assert FrontHalf(cycle, input, code, s) == Middle(cycle, input, code, t);
  }

  lemma RetireCoherent(cycle: nat, opts: Options, code: seq<Uop>, s: State)
    requires WellFormedCode(code) && CoherentMid(cycle, opts, code, s)
    ensures var r := RetireReady(cycle, code, s);
      CoherentMid(cycle, opts, code, r) && r.fe == s.fe
        && |s.rt.retired| <= |r.rt.retired| <= |s.rt.retired| + COMMIT_WIDTH
  {
    RetireInv(cycle, opts, code, s);
    RetireConserve(cycle, code, s);
    RetireCommit(cycle, code, s);
    RetireMemory(cycle, code, s);
  }

  lemma ScheduleCoherent(cycle: nat, opts: Options, input: Input, code: seq<Uop>, s: State)
    requires WellFormedCode(code) && CoherentMid(cycle, opts, code, s) && CoherentAt(cycle, input, code, s)
    requires s.fe.pendingFlush.None? && s.fe.redirect.None?
    ensures var r := ScheduleRedirect(cycle, input, code, s);
      && CoherentMid(cycle, opts, code, r) && FlushDue(r.fe) && RedirectOk(cycle + 1, code, r.fe) && r.rt == s.rt
  {
    var r := ScheduleRedirect(cycle, input, code, s);
    ScheduleInv(cycle, opts, input, code, s);
    ScheduleAlive(cycle, input, code, s);
    ScheduleConserve(cycle, input, code, s);
    CommitFrame(code, s, r);
    ResidentFrame(code, s, r);
  }

  // -- Back half ----------------------------------------------------------------------------------

  lemma ExecuteCoherent(cycle: nat, opts: Options, code: seq<Uop>, s: State)
    requires WellFormedCode(code) && CoherentMid(cycle, opts, code, s)
    ensures CoherentBack(cycle, opts, code, AdvanceExecute(cycle, opts, code, s))
  {
    var r := AdvanceExecute(cycle, opts, code, s);
    ExecuteInv(cycle, opts, code, s);
    ExecuteConserve(cycle, opts, code, s);
    forall x: nat | DynAt(s.dyn, x).done.Some? ensures DynAt(r.dyn, x).done.Some? { E4Timing(cycle, opts, code, s, x); }
    CommitFrame(code, s, r);
    ExecuteMemory(cycle, opts, code, s);
    ExecuteCaptures(cycle, opts, code, s);
    TrackedFrame(s.q.iqTags, r.q.iqTags, code, s.dyn, r.dyn);
  }

  lemma L1dCoherent(cycle: nat, opts: Options, code: seq<Uop>, s: State)
    requires CoherentBack(cycle, opts, code, s)
    ensures CoherentBack(cycle, opts, code, AdvanceL1d(cycle, s))
  {
    L1dInv(cycle, opts, code, s);
    L1dConserve(cycle, code, s);
    CommitFrame(code, s, AdvanceL1d(cycle, s));
    L1dMemory(cycle, code, s);
  }

  lemma LiqCoherent(cycle: nat, opts: Options, code: seq<Uop>, s: State)
    requires CoherentBack(cycle, opts, code, s)
    ensures CoherentBack(cycle, opts, code, AdvanceLiq(cycle, code, s))
  {
    LiqInv(cycle, opts, code, s);
    LiqConserve(cycle, code, s);
    LiqCommit(cycle, code, s);
    LiqMemory(cycle, code, s);
  }

  lemma LiqCommit(cycle: nat, code: seq<Uop>, s: State)
    requires CommitInv(code, s) && TagsTracked(s.q.iqTags, code, s.dyn)
    ensures var r := AdvanceLiq(cycle, code, s); CommitInv(code, r) && TagsTracked(r.q.iqTags, code, r.dyn)
  {
    CommitFrame(code, s, AdvanceLiq(cycle, code, s));
    LiqCaptures(cycle, code, s);
    TrackedFrame(s.q.iqTags, s.q.iqTags, code, s.dyn, AdvanceLiq(cycle, code, s).dyn);
  }

  lemma I1ToI2Coherent(cycle: nat, opts: Options, code: seq<Uop>, s: State)
    requires WellFormedCode(code) && CoherentBack(cycle, opts, code, s)
    ensures CoherentBack(cycle, opts, code, AdvanceI1ToI2(s))
  {
    var r := AdvanceI1ToI2(s);
    I1ToI2Inv(cycle + 1, opts, code, s);
    UniqueFromLive(s.fe.nextFetch, s);
    I1ToI2Facts(s);
    forall x: nat ensures Copies(r, x) == Copies(s, x) {
      assert QueueN(r.q.iq, x) + N(r.sel.i2, x) == QueueN(s.q.iq, x) + N(s.sel.i2, x);
    }
    IssueConserve(cycle + 1, code, s, r);
    CommitFrame(code, s, r);
    I1ToI2Memory(code, s);
    TrackedFrame(s.q.iqTags, r.q.iqTags, code, s.dyn, s.dyn);
  }

  lemma ArbitrateCoherent(cycle: nat, opts: Options, code: seq<Uop>, s: State)
    requires WellFormedCode(code) && CoherentBack(cycle, opts, code, s)
    ensures CoherentBack(cycle, opts, code, ArbitrateAndAdvance(cycle, code, s))
  {
    var r := ArbitrateAndAdvance(cycle, code, s);
    ArbitrateInv(cycle, opts, code, s);
    UniqueFromLive(s.fe.nextFetch, s);
    ArbitrateFacts(cycle, code, s);
    forall x: nat ensures Copies(r, x) == Copies(s, x) {}
    IssueConserve(cycle + 1, code, s, r);
    CommitFrame(code, s, r);
    ResidentFrame(code, s, r);
  }

  lemma I2Coherent(cycle: nat, opts: Options, code: seq<Uop>, s: State)
    requires WellFormedCode(code) && CoherentBack(cycle, opts, code, s)
    ensures CoherentBack(cycle, opts, code, AdvanceI2(cycle, code, s))
  {
    var r := AdvanceI2(cycle, code, s);
    I2Inv(cycle, opts, code, s);
    forall x: nat ensures Copies(r, x) == Copies(s, x) { I2Copies(cycle, code, s, x); }
    IssueConserve(cycle + 1, code, s, r);
    CommitFrame(code, s, r);
    I2Memory(cycle, code, s);
  }

  lemma PickCoherent(cycle: nat, opts: Options, code: seq<Uop>, s: State)
    requires WellFormedCode(code) && CoherentBack(cycle, opts, code, s)
    ensures CoherentBack(cycle, opts, code, PickFromIq(cycle, code, s))
  {
    var r := PickFromIq(cycle, code, s);
    PickInvStep(cycle, opts, code, s);
    UniqueFromLive(s.fe.nextFetch, s);
    PickFacts(cycle, code, s);
    forall x: nat ensures Copies(r, x) == Copies(s, x) {}
    IssueConserve(cycle + 1, code, s, r);
    CommitFrame(code, s, r);
    ResidentFrame(code, s, r);
  }

  lemma DispatchCoherent(cycle: nat, opts: Options, input: Input, code: seq<Uop>, s: State)
    requires WellFormedCode(code) && CoherentBack(cycle, opts, code, s)
    ensures CoherentBack(cycle, opts, code, Dispatch(cycle, input, code, s))
  {
    var r := Dispatch(cycle, input, code, s);
    DispatchInv(cycle, opts, input, code, s);
    DispatchConserve(cycle, input, code, s);
    forall x: nat | DynAt(s.dyn, x).done.Some? ensures DynAt(r.dyn, x).done.Some? {
      DispatchKeeps(cycle, input, code, s, x);
    }
    CommitFrame(code, s, r);
    DispatchMemory(cycle, input, code, s);
    DispatchTracking(cycle, opts, input, code, s);
  }

  lemma DispatchTracking(cycle: nat, opts: Options, input: Input, code: seq<Uop>, s: State)
    requires WellFormedCode(code) && PipeInv(cycle + 1, opts, code, s) && NetInv(cycle + 1, code, s) && FrontUntagged(s)
    requires TagsTracked(s.q.iqTags, code, s.dyn)
    ensures var r := Dispatch(cycle, input, code, s); TagsTracked(r.q.iqTags, code, r.dyn)
  {
    var d := Dispatcher([], s.ex.w2, s.q, s.dyn, map[]);
    forall x | x in s.fe.front[10] ensures x in InFront(s.fe.front) && x < |s.dyn| && DynAt(s.dyn, x).dstQtag.None? {
      InFrontLive(code, s, 10, x);
    }
    forall y: nat ensures N(s.fe.front[10], y) + QueueN(s.q.iq, y) <= 1 {
      assert Copies(s, y) <= 1;
      assert FrontN(s.fe.front, y) == StageCount(s.fe.front, 10, y) + N(s.fe.front[10], y);
    }
    DispatchLoopTracked(s.fe.front[10], cycle, input, InFront(s.fe.front), code, d);
  }

  lemma FrontendCoherent(cycle: nat, opts: Options, code: seq<Uop>, s: State)
    requires WellFormedCode(code) && CoherentBack(cycle, opts, code, s)
    ensures CoherentBack(cycle, opts, code, AdvanceFrontend(s))
  {
    FrontendInv(cycle + 1, opts, code, s);
    FrontendConserve(cycle + 1, code, s);
    FrontendCommit(code, s);
    FrontendMemory(code, s);
  }

  lemma BeforeArbitrateCoherent(cycle: nat, opts: Options, code: seq<Uop>, s: State)
    requires WellFormedCode(code) && CoherentMid(cycle, opts, code, s)
    ensures CoherentBack(cycle, opts, code, BeforeArbitrate(cycle, opts, code, s))
  {
    var a := AdvanceExecute(cycle, opts, code, s);
    ExecuteCoherent(cycle, opts, code, s);
    var b := AdvanceL1d(cycle, a);
    L1dCoherent(cycle, opts, code, a);
    LiqCoherent(cycle, opts, code, b);
    I1ToI2Coherent(cycle, opts, code, AdvanceLiq(cycle, code, b));
  }

  lemma BeforePickCoherent(cycle: nat, opts: Options, code: seq<Uop>, s: State)
    requires WellFormedCode(code) && CoherentMid(cycle, opts, code, s)
    ensures CoherentBack(cycle, opts, code, BeforePick(cycle, opts, code, s))
  {
    var d := BeforeArbitrate(cycle, opts, code, s);
    BeforeArbitrateCoherent(cycle, opts, code, s);
    ArbitrateCoherent(cycle, opts, code, d);
    I2Coherent(cycle, opts, code, ArbitrateAndAdvance(cycle, code, d));
  }

  lemma BackHalfCoherent(cycle: nat, opts: Options, input: Input, code: seq<Uop>, s: State)
    requires WellFormedCode(code) && CoherentMid(cycle, opts, code, s)
    ensures CoherentBack(cycle, opts, code, BackHalf(cycle, opts, input, code, s))
  {
    var f := BeforePick(cycle, opts, code, s);
    BeforePickCoherent(cycle, opts, code, s);
    var g := PickFromIq(cycle, code, f);
    PickCoherent(cycle, opts, code, f);
    var h := Dispatch(cycle, input, code, g);
    DispatchCoherent(cycle, opts, input, code, g);
    FrontendCoherent(cycle, opts, code, h);
  }

  // -- Whole runs ---------------------------------------------------------------------------------

  lemma FirstHalfCoherent(cycle: nat, opts: Options, input: Input, code: seq<Uop>, s: State)
    requires WellFormedCode(code) && CoherentInv(cycle, opts, code, s)
      && CoherentAt(cycle, input, code, AfterRetire(cycle, input, code, s))
    ensures CoherentMid(cycle, opts, code, AfterRetire(cycle, input, code, s))
    ensures var r := Committed(cycle, input, code, s);
      CoherentMid(cycle, opts, code, r) && FlushDue(r.fe) && RedirectOk(cycle + 1, code, r.fe)
        && r.rt == AfterRetire(cycle, input, code, s).rt
  {
    var a := FrontHalf(cycle, input, code, s);
    FrontHalfCoherent(cycle, opts, input, code, s);
    RetireCoherent(cycle, opts, code, a);
    ScheduleCoherent(cycle, opts, input, code, RetireReady(cycle, code, a));
  }

  /** What holds before cycle `cycle`; once the run has halted, its commit and memory parts. */
  ghost predicate CoherentState(cycle: nat, opts: Options, code: seq<Uop>, s: State) {
    (!s.rt.halted ==> CoherentInv(cycle, opts, code, s)) && CommitInv(code, s) && MemInv(code, s)
  }

  lemma BackCoherent(cycle: nat, opts: Options, input: Input, code: seq<Uop>, s: State)
    requires WellFormedCode(code) && CoherentMid(cycle, opts, code, s) && FlushDue(s.fe)
      && RedirectOk(cycle + 1, code, s.fe)
    ensures CoherentState(cycle + 1, opts, code, BackHalf(cycle, opts, input, code, s))
  {
    var r := BackHalf(cycle, opts, input, code, s);
    BackHalfCoherent(cycle, opts, input, code, s);
    BackHalfFetch(cycle, opts, input, code, s);
    assert RedirectOk(cycle + 1, code, r.fe) && FlushDue(r.fe);
  }

  lemma StepCoherent(cycle: nat, opts: Options, input: Input, code: seq<Uop>, s: State)
    requires WellFormedCode(code) && CoherentInv(cycle, opts, code, s)
      && CoherentAt(cycle, input, code, AfterRetire(cycle, input, code, s))
    requires !s.rt.halted
    ensures CoherentState(cycle + 1, opts, code, Step(cycle, opts, input, code, s))
  {
    FirstHalfCoherent(cycle, opts, input, code, s);
    StepCases(cycle, opts, input, code, s);
    var b, c := AfterRetire(cycle, input, code, s), Committed(cycle, input, code, s);
    if b.rt.halted {
    } else if |c.rt.committed| == opts.targetCommits {
      HaltCoherent(code, c);
    } else {
      BackCoherent(cycle, opts, input, code, c);
    }
  }

  lemma HaltCoherent(code: seq<Uop>, s: State)
    requires CommitInv(code, s) && MemInv(code, s)
    ensures var r := s.(rt := s.rt.(halted := true)); CommitInv(code, r) && MemInv(code, r)
  {
    var r := s.(rt := s.rt.(halted := true));
    forall x: nat ensures HasIssued(r, x) <==> HasIssued(s, x) {}
    forall x: nat ensures HasStarted(code, r, x) <==> HasStarted(code, s, x) {}
  }

  lemma InitialCoherent(opts: Options, code: seq<Uop>)
    ensures CoherentInv(0, opts, code, Initial(code))
  {
    var s := Initial(code);
    InitialInv(opts, code);
    InitialConserve(code, s, 0);
    InitialOrder(code, s);
  }

  lemma InitialConserve(code: seq<Uop>, s: State, cycle: nat)
    requires s == Initial(code)
    ensures ConserveInv(cycle, code, s) && FlushDue(s.fe)
  {
    forall x: nat ensures Copies(s, x) == 0 && DynAt(s.dyn, x) == FRESH { NoStages(STAGES, x); }
  }

  lemma InitialOrder(code: seq<Uop>, s: State)
    requires s == Initial(code)
    ensures CommitInv(code, s) && MemInv(code, s) && TagsTracked(s.q.iqTags, code, s.dyn)
  {
    EmptyFifo(ThroughD1(s.fe.front));
  }

  lemma {:induction false} EmptyFifo(n: nat)
    requires n <= STAGES
    ensures Fifo(NO_STAGES, n) == []
  {
    if n > 0 { EmptyFifo(n - 1); }
  }

  /** Cycle `i` schedules no redirect other than a coherent one. */
  ghost predicate CoherentCycle(i: nat, run: seq<State>, inputs: nat -> Input, code: seq<Uop>) {
    i < |run| && (!run[i].rt.halted ==> CoherentAt(i, inputs(i), code, AfterRetire(i, inputs(i), code, run[i])))
  }

  ghost predicate IsCoherent(run: seq<State>, inputs: nat -> Input, code: seq<Uop>) {
    forall i: nat {:trigger CoherentCycle(i, run, inputs, code)} :: i < |run| ==> CoherentCycle(i, run, inputs, code)
  }

  lemma StepAtCoherent(j: nat, k: nat, run: seq<State>, opts: Options, inputs: nat -> Input, code: seq<Uop>)
    requires WellFormedCode(code) && StepAt(j, run, opts, inputs, code) && k == j + 1
      && CoherentCycle(j, run, inputs, code)
    requires CoherentState(j, opts, code, run[j])
    ensures CoherentState(k, opts, code, run[k])
  {
    if run[j].rt.halted {
      StepAtHalted(j, run, opts, inputs, code);
    } else {
      StepCoherent(j, opts, inputs(j), code, run[j]);
    }
  }

  lemma StartCoherent(s: State, opts: Options, code: seq<Uop>)
    requires s == Initial(code)
    ensures CoherentState(0, opts, code, s)
  {
    InitialCoherent(opts, code);
  }

  /** Every state of every coherent run satisfies the invariant; after a halt the commit and memory
      parts still hold. */
  lemma {:induction false} CoherentRunSatisfies(k: nat, run: seq<State>, opts: Options, inputs: nat -> Input,
                                                code: seq<Uop>)
    requires WellFormedCode(code) && IsRun(run, opts, inputs, code) && IsCoherent(run, inputs, code) && k < |run|
    ensures CoherentState(k, opts, code, run[k])
  {
    if k == 0 {
      StartCoherent(run[0], opts, code);
    } else {
      var j: nat := k - 1;
      assert StepAt(j, run, opts, inputs, code);
      assert CoherentCycle(j, run, inputs, code);
      CoherentRunSatisfies(j, run, opts, inputs, code);
      StepAtCoherent(j, k, run, opts, inputs, code);
    }
  }
}
