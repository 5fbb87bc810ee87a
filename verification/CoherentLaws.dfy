/** What every coherent run guarantees: conservation, in-order commit, memory order and exact
    readiness of every captured source. */
module CoherentLaws {
  import opened Wrappers
  import opened Seqs
  import opened Model
  import opened Queues
  import opened Select
  import opened Lsu
  import opened Frontend
  import opened Commit
  import opened Residency
  import opened Alive
  import opened WellFormed
  import opened Wakeup
  import opened Runs
  import opened Conserve
  import opened CommitOrder
  import opened MemoryOrder
  import opened MemoryRestart
  import opened Tracking
  import opened CoherentRuns

  ghost predicate CoherentRun(run: seq<State>, opts: Options, inputs: nat -> Input, code: seq<Uop>) {
    WellFormedCode(code) && IsRun(run, opts, inputs, code) && IsCoherent(run, inputs, code)
  }

  // -- Conservation -------------------------------------------------------------------------------

  /** A uop is in flight when fetched, unretired and not done. */
  predicate InFlight(s: State, x: nat) { |s.rt.retired| <= x < s.fe.nextFetch && DynAt(s.dyn, x).done.None? }

  /** In exactly one place while in flight, otherwise in none; done but unretired uops wait in the
      reorder buffer; P1 and I1 hold exactly the entries in flight; the owner queues mirror the
      stages they track. */
  ghost predicate Conserved(code: seq<Uop>, s: State) {
    && (forall x: nat :: Copies(s, x) == if InFlight(s, x) then 1 else 0)
    && (forall x: nat :: |s.rt.retired| <= x < s.fe.nextFetch && DynAt(s.dyn, x).done.Some? ==> x in s.rt.rob)
    && (forall x: nat :: N(s.sel.p1, x) + N(s.sel.i1, x) == Flight(s.q.iq, x))
    && (forall x: nat :: N(s.mem.lhq, x) == if UopAt(code, x).isLoad then LoadHomes(s.ex, s.mem, x) else 0)
    && s.mem.mdb == s.mem.liq
    && (forall x: nat ::
          N(s.mem.stq, x)
            == if UopAt(code, x).isStore && |s.rt.retired| <= x < s.fe.nextFetch && Waiting(s, x) == 0 then 1 else 0)
  }

  lemma DoneInRob(code: seq<Uop>, s: State, x: nat)
    requires AliveState(code, s) && Exact(s) && CommitInv(code, s) && |s.rt.retired| <= x < s.fe.nextFetch
      && FrontN(s.fe.front, x) == 0
    ensures x in s.rt.rob
  {
    var t := Fifo(s.fe.front, ThroughD1(s.fe.front));
    if x < |s.rt.retired| + |s.rt.rob| {
      assert s.rt.rob[x - |s.rt.retired|] == x;
    } else {
      var f := s.fe.nextFetch - |t|;
      assert t[x - f] == x;
      FifoMember(s.fe.front, ThroughD1(s.fe.front), x);
      StageCountMember(s.fe.front, STAGES, x);
    }
  }

  lemma ConservedFrom(code: seq<Uop>, s: State)
    requires AliveState(code, s) && Exact(s) && CommitInv(code, s) && MemInv(code, s)
    ensures Conserved(code, s)
  {
    forall x: nat
      ensures Copies(s, x) == if InFlight(s, x) then 1 else 0
      ensures |s.rt.retired| <= x < s.fe.nextFetch && DynAt(s.dyn, x).done.Some? ==> x in s.rt.rob
    {
      assert Copies(s, x) == Pend(s.fe.nextFetch, s.dyn, x);
      if |s.rt.retired| <= x < s.fe.nextFetch && DynAt(s.dyn, x).done.Some? { DoneInRob(code, s, x); }
    }
    forall x: nat ensures N(s.mem.stq, x) == if UopAt(code, x).isStore && |s.rt.retired| <= x < s.fe.nextFetch
      && Waiting(s, x) == 0 then 1 else 0 {
      assert N(s.mem.stq, x) == if InStq(code, s, x) then 1 else 0;
    }
  }

  /** Conservation in every state of every coherent run. */
  lemma Conservation(k: nat, run: seq<State>, opts: Options, inputs: nat -> Input, code: seq<Uop>)
    requires CoherentRun(run, opts, inputs, code) && k < |run| && !run[k].rt.halted
    ensures Conserved(code, run[k])
  {
    CoherentRunSatisfies(k, run, opts, inputs, code);
    ConservedFrom(code, run[k]);
  }

  // -- Commit -------------------------------------------------------------------------------------

  /** The retired uops are 0, 1, ..., n - 1 and the committed records are the first n of the stream up
      to cycle and trap; the reorder buffer continues from n without a gap, at most 128 long. */
  predicate CommitsPrefix(code: seq<Uop>, rt: Retire) {
    && |rt.retired| <= |code| && rt.retired == Range(0, |rt.retired|)
    && |rt.committed| == |rt.retired|
    && (forall i :: 0 <= i < |rt.retired| ==> SameCommit(rt.committed[i], code[i].commit))
    && rt.rob == Range(|rt.retired|, |rt.retired| + |rt.rob|) && |rt.rob| <= ROB_CAPACITY
  }

  lemma StateOfRun(k: nat, run: seq<State>, opts: Options, inputs: nat -> Input, code: seq<Uop>)
    requires CoherentRun(run, opts, inputs, code) && k < |run|
    ensures CommitInv(code, run[k]) && MemInv(code, run[k]) && run[k].fe.nextFetch <= |code|
  {
    CoherentRunSatisfies(k, run, opts, inputs, code);
    FetchBounded(k, run, opts, inputs, code);
  }

  /** Later in a cycle than retirement nothing commits and nothing is fetched. */
  lemma BackHalfKeeps(cycle: nat, opts: Options, input: Input, code: seq<Uop>, s: State)
    ensures var r := BackHalf(cycle, opts, input, code, s);
      r.rt.retired == s.rt.retired && r.fe.nextFetch == s.fe.nextFetch
  {
  }

  lemma CommittedKeeps(cycle: nat, input: Input, code: seq<Uop>, s: State)
    ensures var b, c := AfterRetire(cycle, input, code, s), Committed(cycle, input, code, s);
      c.rt == b.rt && c.fe.nextFetch == b.fe.nextFetch
  {
  }

  lemma StepKeeps(cycle: nat, opts: Options, input: Input, code: seq<Uop>, s: State)
    requires !s.rt.halted
    ensures var b, r := AfterRetire(cycle, input, code, s), Step(cycle, opts, input, code, s);
      r.rt.retired == b.rt.retired && r.fe.nextFetch == b.fe.nextFetch
  {
    StepCases(cycle, opts, input, code, s);
    CommittedKeeps(cycle, input, code, s);
    BackHalfKeeps(cycle, opts, input, code, Committed(cycle, input, code, s));
  }

  lemma FetchAfterRetire(cycle: nat, opts: Options, input: Input, code: seq<Uop>, s: State)
    requires WellFormedCode(code) && RunInv(cycle, opts, code, s)
    ensures AfterRetire(cycle, input, code, s).fe.nextFetch <= |code|
  {
    FrontHalfInv(cycle, opts, input, code, s);
    RetireAlive(cycle, code, FrontHalf(cycle, input, code, s));
  }

  lemma StepFetch(cycle: nat, opts: Options, input: Input, code: seq<Uop>, s: State)
    requires WellFormedCode(code) && RunInv(cycle, opts, code, s) && !s.rt.halted
    ensures Step(cycle, opts, input, code, s).fe.nextFetch <= |code|
  {
    FetchAfterRetire(cycle, opts, input, code, s);
    StepKeeps(cycle, opts, input, code, s);
  }

  lemma {:induction false} FetchBounded(k: nat, run: seq<State>, opts: Options, inputs: nat -> Input, code: seq<Uop>)
    requires WellFormedCode(code) && IsRun(run, opts, inputs, code) && k < |run|
    ensures run[k].fe.nextFetch <= |code|
  {
    if k > 0 {
      var j: nat := k - 1;
      assert StepAt(j, run, opts, inputs, code);
      FetchBounded(j, run, opts, inputs, code);
      FetchBoundedStep(j, k, run, opts, inputs, code);
    }
  }

  lemma FetchBoundedStep(j: nat, k: nat, run: seq<State>, opts: Options, inputs: nat -> Input, code: seq<Uop>)
    requires WellFormedCode(code) && IsRun(run, opts, inputs, code) && StepAt(j, run, opts, inputs, code) && k == j + 1
    requires run[j].fe.nextFetch <= |code|
    ensures run[k].fe.nextFetch <= |code|
  {
    if run[j].rt.halted {
      StepAtHalted(j, run, opts, inputs, code);
    } else {
      RunSatisfies(j, run, opts, inputs, code);
      StepFetch(j, opts, inputs(j), code, run[j]);
    }
  }

  lemma PrefixFrom(code: seq<Uop>, s: State)
    requires CommitInv(code, s) && s.fe.nextFetch <= |code|
    ensures CommitsPrefix(code, s.rt)
  {
    RobBelow(code, s);
    forall i | 0 <= i < |s.rt.retired| ensures SameCommit(s.rt.committed[i], code[i].commit) {
      assert SameCommit(s.rt.committed[i], UopAt(code, i).commit);
    }
  }

  /** Commit refines the functional stream in every state of every coherent run, halted or not. */
  lemma CommitRefinement(k: nat, run: seq<State>, opts: Options, inputs: nat -> Input, code: seq<Uop>)
    requires CoherentRun(run, opts, inputs, code) && k < |run|
    ensures CommitsPrefix(code, run[k].rt)
  {
    StateOfRun(k, run, opts, inputs, code);
    PrefixFrom(code, run[k]);
  }

  lemma FlushRetires(cycle: nat, input: Input, code: seq<Uop>, s: State)
    ensures FrontHalf(cycle, input, code, s).rt.retired == s.rt.retired
  {
  }

  lemma RetireCommits(cycle: nat, opts: Options, input: Input, code: seq<Uop>, s: State)
    requires WellFormedCode(code) && CoherentInv(cycle, opts, code, s)
    ensures var r := AfterRetire(cycle, input, code, s);
      |s.rt.retired| <= |r.rt.retired| <= |s.rt.retired| + COMMIT_WIDTH
  {
    FrontHalfCoherent(cycle, opts, input, code, s);
    FlushRetires(cycle, input, code, s);
    RetireCommit(cycle, code, FrontHalf(cycle, input, code, s));
  }

  lemma StepCommits(cycle: nat, opts: Options, input: Input, code: seq<Uop>, s: State)
    requires WellFormedCode(code) && CoherentInv(cycle, opts, code, s) && !s.rt.halted
    ensures var r := Step(cycle, opts, input, code, s);
      |s.rt.retired| <= |r.rt.retired| <= |s.rt.retired| + COMMIT_WIDTH
  {
    RetireCommits(cycle, opts, input, code, s);
    StepKeeps(cycle, opts, input, code, s);
  }

  /** At most four uops retire per cycle, and none is ever taken back. */
  lemma CommitWidth(j: nat, k: nat, run: seq<State>, opts: Options, inputs: nat -> Input, code: seq<Uop>)
    requires CoherentRun(run, opts, inputs, code) && k == j + 1 && k < |run|
    ensures |run[j].rt.retired| <= |run[k].rt.retired| <= |run[j].rt.retired| + COMMIT_WIDTH
  {
    assert StepAt(j, run, opts, inputs, code);
    CoherentRunSatisfies(j, run, opts, inputs, code);
    if run[j].rt.halted {
      StepAtHalted(j, run, opts, inputs, code);
    } else {
      StepCommits(j, opts, inputs(j), code, run[j]);
    }
  }

  /** Everything past D1 has its slot in the reorder buffer. */
  lemma PastD1InRob(k: nat, run: seq<State>, opts: Options, inputs: nat -> Input, code: seq<Uop>, x: nat)
    requires CoherentRun(run, opts, inputs, code) && k < |run| && !run[k].rt.halted
    requires Copies(run[k], x) > 0 && StageCount(run[k].fe.front, ThroughD1(run[k].fe.front), x) == 0
    ensures x in run[k].rt.rob
  {
    CoherentRunSatisfies(k, run, opts, inputs, code);
    LiveNotRetired(code, run[k], x);
    PastInRob(code, run[k], x);
  }

  lemma PastInRob(code: seq<Uop>, s: State, x: nat)
    requires CommitInv(code, s) && |s.rt.retired| <= x < s.fe.nextFetch
      && StageCount(s.fe.front, ThroughD1(s.fe.front), x) == 0
    ensures x in s.rt.rob
  {
    var n := ThroughD1(s.fe.front);
    var t := Fifo(s.fe.front, n);
    if x < |s.rt.retired| + |s.rt.rob| {
      assert s.rt.rob[x - |s.rt.retired|] == x;
    } else {
      var f := s.fe.nextFetch - |t|;
      assert t[x - f] == x;
      FifoMember(s.fe.front, n, x);
      StageCountMember(s.fe.front, n, x);
    }
  }

  // -- Memory order -------------------------------------------------------------------------------

  /** The ids of the memory uops that left I2, and of the L1D transactions started, are 0, 1, 2, ...
      in that order and once each; at most one transaction is open; and the logs and pointers say
      exactly which uops have issued and started. */
  ghost predicate InMemoryOrder(code: seq<Uop>, s: State) {
    && s.mem.issueLog == Range(0, |s.mem.issueLog|) && s.mem.l1dLog == Range(0, |s.mem.l1dLog|) && |s.mem.l1d| <= 1
    && s.mem.issuePtr <= |s.mem.issueLog| && s.mem.cachePtr + |s.mem.l1d| <= |s.mem.l1dLog|
    && (forall x: nat :: UopAt(code, x).lsid.Some? ==>
          && (HasIssued(s, x) <==> UopAt(code, x).lsid.value < |s.mem.issueLog|)
          && (HasStarted(code, s, x) <==> UopAt(code, x).lsid.value < |s.mem.l1dLog|))
  }

  /** Memory order in every state of every coherent run, through misses and rebases. */
  lemma MemoryOrderOnRuns(k: nat, run: seq<State>, opts: Options, inputs: nat -> Input, code: seq<Uop>)
    requires CoherentRun(run, opts, inputs, code) && k < |run|
    ensures InMemoryOrder(code, run[k])
  {
    StateOfRun(k, run, opts, inputs, code);
  }

  lemma OlderStoreDrained(code: seq<Uop>, s: State, x: nat, y: nat)
    requires MemoryIds(code) && MemInv(code, s) && x in L1dSeqs(s.mem.l1d, LoadHit) && y < x && UopAt(code, y).isStore
    ensures y < |s.rt.retired| && y !in ScbSeqs(s.mem.scb) && y !in L1dSeqs(s.mem.l1d, StoreDrain) && y !in s.mem.stq
  {
    var e := s.mem.l1d[0];
    assert s.mem.l1d[1..] == [];
    assert e.kind == LoadHit && e.seqNo == x;
    LsidOrder(code, y, x);
    assert HasStarted(code, s, y);
    CountMember(ScbSeqs(s.mem.scb), y);
    CountMember(s.mem.stq, y);
    assert N(s.mem.stq, y) == if InStq(code, s, y) then 1 else 0;
  }

  /** No load accesses the L1D before every older store has retired and left both the store buffer
      and the L1D. */
  lemma LoadsWaitForStores(k: nat, run: seq<State>, opts: Options, inputs: nat -> Input, code: seq<Uop>, x: nat, y: nat)
    requires CoherentRun(run, opts, inputs, code) && k < |run|
    requires x in L1dSeqs(run[k].mem.l1d, LoadHit) && y < x && UopAt(code, y).isStore
    ensures y < |run[k].rt.retired| && y !in ScbSeqs(run[k].mem.scb) && y !in L1dSeqs(run[k].mem.l1d, StoreDrain)
      && y !in run[k].mem.stq
  {
    StateOfRun(k, run, opts, inputs, code);
    OlderStoreDrained(code, run[k], x, y);
  }

  // -- Readiness ----------------------------------------------------------------------------------

  /** Every valid source that is no queue source, or captured a QTag. */
  predicate Listens(x: nat, idx: nat, code: seq<Uop>, dyn: seq<Dyn>) {
    UopAt(code, x).src.At(idx).valid
      && (UopAt(code, x).src.At(idx).queueKind.None? || DynAt(dyn, x).srcQtags.At(idx).Some?)
  }

  ghost predicate ReadinessExact(cycle: nat, code: seq<Uop>, s: State) {
    forall i, idx {:trigger s.q.iq[i].src.At(idx)} ::
      0 <= i < |s.q.iq| && 0 <= idx < 2 && Listens(s.q.iq[i].seqNo, idx, code, s.dyn) ==>
        var b, x := s.q.iq[i].src.At(idx), s.q.iq[i].seqNo;
        && (b.nonspec <==> DataReady(x, idx, cycle, s.q.ready, code, s.dyn))
        && (b.spec <==> !b.nonspec && PickReady(x, idx, cycle, code, s.dyn))
  }

  lemma ReadinessFrom(cycle: nat, opts: Options, code: seq<Uop>, s: State)
    requires MidInv(cycle, opts, code, s) && TagsTracked(s.q.iqTags, code, s.dyn)
      && BitsExact(cycle, s.q.ready, code, s.q.iq, s.dyn)
    ensures ReadinessExact(cycle, code, s)
  {
    forall i, idx | 0 <= i < |s.q.iq| && 0 <= idx < 2 && Listens(s.q.iq[i].seqNo, idx, code, s.dyn)
      ensures var b, x := s.q.iq[i].src.At(idx), s.q.iq[i].seqNo;
        && (b.nonspec <==> DataReady(x, idx, cycle, s.q.ready, code, s.dyn))
        && (b.spec <==> !b.nonspec && PickReady(x, idx, cycle, code, s.dyn))
    {
      CapturedIsTracked(s.q.iq[i].seqNo, idx, InFront(s.fe.front), s.q, code, s.dyn);
      assert SourceBits(s.q.iq[i].src.At(idx), s.q.iq[i].seqNo, idx, cycle + 1, code, s.dyn);
      assert ExactBits(s.q.iq[i].src.At(idx), s.q.iq[i].seqNo, idx, cycle, s.q.ready, code, s.dyn);
    }
  }

  /** Cached readiness is exact after the update of every cycle of every coherent run: no wake-up is
      lost and none is false. */
  lemma ReadinessOnCoherentRuns(k: nat, run: seq<State>, opts: Options, inputs: nat -> Input, code: seq<Uop>)
    requires CoherentRun(run, opts, inputs, code) && k < |run| && !run[k].rt.halted
    ensures ReadinessExact(k, code, FrontHalf(k, inputs(k), code, run[k]))
  {
    CoherentRunSatisfies(k, run, opts, inputs, code);
    FrontHalfCoherent(k, opts, inputs(k), code, run[k]);
    FrontHalfInv(k, opts, inputs(k), code, run[k]);
    ReadinessFrom(k, opts, code, FrontHalf(k, inputs(k), code, run[k]));
  }
}
