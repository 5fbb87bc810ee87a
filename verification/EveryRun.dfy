/** What every run guarantees, coherent or not: issue-queue allocation, the wake-up network, exact
    readiness and the redirect protocol. */
module EveryRun {
  import opened Wrappers
  import opened Seqs
  import opened Model
  import opened Queues
  import opened Select
  import opened Lsu
  import opened Frontend
  import opened Recovery
  import opened Commit
  import opened Residency
  import opened Alive
  import opened Tags
  import opened TagSteps
  import opened WellFormed
  import opened Wakeup
  import opened Runs
  import opened Dataflow

  // -- Issue-queue allocation ---------------------------------------------------------------------

  /** Tags and entries correspond one to one, the owner table is the inverse, and no queue overflows. */
  ghost predicate AllocationOk(q: Queue) {
    && (forall x: nat :: x in q.iqTags <==> x in SeqNos(q.iq))
    && TagsInjective(q.iqTags)
    && (forall i :: 0 <= i < |q.iq| ==> q.iq[i].seqNo in q.iqTags && q.iqTags[q.iq[i].seqNo].physIq == q.iq[i].physIq)
    && (forall t, i: nat :: t in q.owner && q.owner[t] == i <==> i < |q.iq| && q.iqTags[q.iq[i].seqNo] == t)
    && (forall p :: Occupancy(q.iq, p) <= IQ_CAPACITY)
  }

  lemma AllocationFromTags(q: Queue, dyn: seq<Dyn>)
    requires TagsOk(q, dyn) && OwnerExact(q.iq, q.iqTags, q.owner)
    ensures AllocationOk(q)
  {
    forall x: nat ensures x in q.iqTags <==> x in SeqNos(q.iq) {
      CountMember(SeqNos(q.iq), x);
      if x in SeqNos(q.iq) {
        var i :| 0 <= i < |q.iq| && SeqNos(q.iq)[i] == x;
        assert q.iq[i].seqNo == x;
      }
    }
    forall p ensures Occupancy(q.iq, p) <= IQ_CAPACITY { OccupancyBound(q.iq, q.iqTags, p, IQ_CAPACITY); }
  }

  /** Before every cycle of every run the tags, the entries and the owner table agree. */
  lemma IqAllocation(k: nat, run: seq<State>, opts: Options, inputs: nat -> Input, code: seq<Uop>)
    requires WellFormedCode(code) && IsRun(run, opts, inputs, code) && k < |run| && !run[k].rt.halted
    ensures AllocationOk(run[k].q)
  {
    RunSatisfies(k, run, opts, inputs, code);
    AllocationFromTags(run[k].q, run[k].dyn);
  }

  /** While a cycle dispatches, a uop stays behind only for want of a queue with a free port and a
      free slot: once it is routed, a tag is free. */
  lemma {:induction false} RoutedIsAllocated(pending: seq<nat>, n: nat, cycle: nat, input: Input, code: seq<Uop>,
                                             d: Dispatcher)
    requires DispatchTags(pending, d) && n < |pending|
    ensures var e := DispatchLoop(pending[..n], cycle, input, code, d);
      var p := RoutePhysIq(UopAt(code, pending[n]), e.q.iq, e.ports);
      p.Some? ==> AllocateQTag(e.q.iqTags, p.value).Some?
    decreases n
  {
    if n == 0 {
      var p := RoutePhysIq(UopAt(code, pending[0]), d.q.iq, d.ports);
      if p.Some? { AllocateSucceeds(d.q.iq, d.q.iqTags, p.value); }
    } else {
      DispatchOneTags(pending, cycle, input, code, d);
      assert pending[..n][1..] == pending[1..][..n - 1];
      RoutedIsAllocated(pending[1..], n - 1, cycle, input, code, DispatchOne(pending[0], cycle, input, code, d));
    }
  }

  lemma DispatchStart(code: seq<Uop>, s: State)
    requires AliveState(code, s) && TagsOk(s.q, s.dyn)
    ensures DispatchTags(s.fe.front[10], Dispatcher([], s.ex.w2, s.q, s.dyn, map[]))
  {
    forall y: nat ensures N(s.fe.front[10], y) + QueueN(s.q.iq, y) <= 1 {
      assert Copies(s, y) <= 1;
      assert FrontN(s.fe.front, y) == StageCount(s.fe.front, 10, y) + N(s.fe.front[10], y);
    }
  }

  /** In every cycle of every run, for every uop waiting in S2 that reaches routing: a queue that can
      take it has a free tag for it. */
  lemma AllocationOnRuns(k: nat, n: nat, run: seq<State>, opts: Options, inputs: nat -> Input, code: seq<Uop>, s: State)
    requires WellFormedCode(code) && IsRun(run, opts, inputs, code) && k < |run| && !run[k].rt.halted
    requires s == BeforeDispatch(k, opts, code, Committed(k, inputs(k), code, run[k])) && n < |s.fe.front[10]|
    ensures var e := DispatchLoop(s.fe.front[10][..n], k, inputs(k), code, Dispatcher([], s.ex.w2, s.q, s.dyn, map[]));
      var p := RoutePhysIq(UopAt(code, s.fe.front[10][n]), e.q.iq, e.ports);
      p.Some? ==> AllocateQTag(e.q.iqTags, p.value).Some?
  {
    RunSatisfies(k, run, opts, inputs, code);
    MidAtCommit(k, opts, inputs(k), code, run[k]);
    BeforeDispatchInv(k, opts, code, Committed(k, inputs(k), code, run[k]));
    DispatchStart(code, s);
    RoutedIsAllocated(s.fe.front[10], n, k, inputs(k), code, Dispatcher([], s.ex.w2, s.q, s.dyn, map[]));
  }

  // -- Wake-up ------------------------------------------------------------------------------------

  /** The state of cycle `cycle` in which the issue queue is updated. */
  function AtUpdate(cycle: nat, input: Input, code: seq<Uop>, s: State): State {
    PublishFaults(input.faults, TagStageCycles(cycle, code, FillFetch(cycle, code, ApplyPendingFlush(cycle, code, s))))
  }

  lemma UpdateTagsOk(cycle: nat, opts: Options, input: Input, code: seq<Uop>, s: State)
    requires WellFormedCode(code) && RunInv(cycle, opts, code, s)
    ensures var u := AtUpdate(cycle, input, code, s); TagsOk(u.q, u.dyn) && OwnerExact(u.q.iq, u.q.iqTags, u.q.owner)
  {
    var t := FillFetch(cycle, code, ApplyPendingFlush(cycle, code, s));
    RestartPipe(cycle, opts, code, s);
    RestartNet(cycle, opts, code, s);
    var dyn := TagAll(cycle, code, t.ex, t.dyn);
    TagSame(cycle, opts, code, t, dyn);
    CaptureFrame(t.q, t.dyn, dyn);
  }

  /** In every cycle of every run, delivery through crossbar and owner table leaves every entry as a
      broadcast of each wake event to all entries and sources would. */
  lemma DeliveryOnRuns(k: nat, run: seq<State>, opts: Options, inputs: nat -> Input, code: seq<Uop>)
    requires WellFormedCode(code) && IsRun(run, opts, inputs, code) && k < |run| && !run[k].rt.halted
    ensures var u := AtUpdate(k, inputs(k), code, run[k]);
      UpdateQueue(k, code, u.dyn, u.q).iq
          == BroadcastFrom(k, 0, UpdateEntries(k, u.q.iq, u.q.ready, code, u.dyn), code, u.dyn)
  {
    RunSatisfies(k, run, opts, inputs, code);
    UpdateTagsOk(k, opts, inputs(k), code, run[k]);
    var u := AtUpdate(k, inputs(k), code, run[k]);
    UpdateIsBroadcast(k, code, u.q, u.dyn);
  }

  /** In every cycle of every run, after the update the readiness bits of every tracked source are
      exact. */
  lemma ReadinessOnRuns(k: nat, run: seq<State>, opts: Options, inputs: nat -> Input, code: seq<Uop>)
    requires WellFormedCode(code) && IsRun(run, opts, inputs, code) && k < |run| && !run[k].rt.halted
    ensures var r := FrontHalf(k, inputs(k), code, run[k]); BitsExact(k, r.q.ready, code, r.q.iq, r.dyn)
  {
    RunSatisfies(k, run, opts, inputs, code);
    FrontHalfInv(k, opts, inputs(k), code, run[k]);
  }

  // -- Redirects ----------------------------------------------------------------------------------

  predicate HeldFront(fe: Fetch, x: nat) { exists i :: 0 <= i < STAGES && x in fe.front[i] }

  predicate HeldIssue(s: State, x: nat) {
    x in SeqNos(s.q.iq) || x in s.q.iqTags || x in s.sel.p1 || x in s.sel.i1 || x in s.sel.i2 || x in s.rt.rob
  }

  predicate HeldExec(ex: Exec, x: nat) {
    x in ex.e1 || x in ex.e2 || x in ex.e3 || x in ex.e4 || x in ex.w1 || x in ex.w2
  }

  predicate HeldMem(mem: Mem, x: nat) {
    || x in RefillSeqs(mem.liq) || x in mem.lhq || x in RefillSeqs(mem.mdb) || x in mem.stq
    || x in ScbSeqs(mem.scb) || x in L1dSeqs(mem.l1d, LoadHit) || x in L1dSeqs(mem.l1d, StoreDrain)
  }

  /** Some stage queue, issue-queue entry, reorder-buffer slot or load/store queue holds `x`. */
  ghost predicate Held(s: State, x: nat) {
    HeldFront(s.fe, x) || HeldIssue(s, x) || HeldExec(s.ex, x) || HeldMem(s.mem, x)
  }

  lemma {:induction false} ScbRetained(q: seq<ScbEntry>, f: nat, x: nat)
    requires x in ScbSeqs(Retain(q, (e: ScbEntry) => e.seqNo <= f))
    ensures x <= f
  {
    var r := Retain(q, (e: ScbEntry) => e.seqNo <= f);
    var i :| 0 <= i < |r| && ScbSeqs(r)[i] == x;
    RetainMember(q, (e: ScbEntry) => e.seqNo <= f, r[i]);
  }

  lemma MemRetained(f: nat, mem: Mem, x: nat)
    requires HeldMem(PruneMem(f, mem), x)
    ensures x <= f
  {
    UpToMember(mem.stq, f, x);
    UpToMember(mem.lhq, f, x);
    RetainRefills(mem.liq, y => y <= f, (r: Refill) => r.seqNo <= f, x);
    RetainRefills(mem.mdb, y => y <= f, (r: Refill) => r.seqNo <= f, x);
    var r := PruneMem(f, mem);
    CountMember(RefillSeqs(r.liq), x);
    CountMember(RefillSeqs(r.mdb), x);
    RetainL1d(mem.l1d, LoadHit, f, x);
    RetainL1d(mem.l1d, StoreDrain, f, x);
    CountMember(L1dSeqs(r.l1d, LoadHit), x);
    CountMember(L1dSeqs(r.l1d, StoreDrain), x);
    if x in ScbSeqs(r.scb) { ScbRetained(mem.scb, f, x); }
  }

  lemma ExecRetained(f: nat, ex: Exec, x: nat)
    requires HeldExec(PruneExec(f, ex), x)
    ensures x <= f
  {
    UpToMember(ex.e1, f, x);
    UpToMember(ex.e2, f, x);
    UpToMember(ex.e3, f, x);
    UpToMember(ex.e4, f, x);
    UpToMember(ex.w1, f, x);
    UpToMember(ex.w2, f, x);
  }

  lemma IssueRetained(f: nat, s: State, x: nat)
    requires HeldIssue(Prune(f, s), x)
    ensures x <= f
  {
    UpToMember(s.sel.p1, f, x);
    UpToMember(s.sel.i1, f, x);
    UpToMember(s.sel.i2, f, x);
    UpToMember(s.rt.rob, f, x);
    RetainEntries(s.q.iq, y => y <= f, (e: IqEntry) => e.seqNo <= f, x);
    CountMember(SeqNos(Prune(f, s).q.iq), x);
  }

  lemma FrontRetained(f: nat, s: State, x: nat)
    requires HeldFront(Prune(f, s).fe, x)
    ensures x <= f
  {
    var i :| 0 <= i < STAGES && x in Prune(f, s).fe.front[i];
    UpToMember(s.fe.front[i], f, x);
  }

  /** After the flush nothing holds a sequence number above the flush point. */
  lemma FlushClears(flush: Flush, code: seq<Uop>, s: State, x: nat)
    requires Held(ApplyFlush(flush, code, s), x)
    ensures x <= flush.flushSeq
  {
    var f, t := flush.flushSeq, s.(q := RestoreReady(flush.checkpoint, s.q));
    var r := ApplyFlush(flush, code, s);
    if HeldFront(r.fe, x) {
      FrontRetained(f, t, x);
    } else if HeldIssue(r, x) {
      IssueRetained(f, t, x);
    } else if HeldExec(r.ex, x) {
      ExecRetained(f, s.ex, x);
    } else {
      MemRetained(f, s.mem, x);
    }
  }

  /** The redirect protocol on every run: flush and restart are both empty when a redirect may be
      scheduled, are set together for the next cycle, and fetch restarts strictly above the flush
      point, which the flush leaves as the youngest uop anywhere. So no uop is ever held twice. */
  lemma RedirectProtocol(k: nat, run: seq<State>, opts: Options, inputs: nat -> Input, code: seq<Uop>)
    requires WellFormedCode(code) && IsRun(run, opts, inputs, code) && k < |run| && !run[k].rt.halted
    ensures var b := AfterRetire(k, inputs(k), code, run[k]); b.fe.pendingFlush.None? && b.fe.redirect.None?
    ensures RedirectOk(k, code, run[k].fe) && RedirectOk(k + 1, code, Committed(k, inputs(k), code, run[k]).fe)
    ensures forall x: nat :: Copies(run[k], x) <= 1
    ensures run[k].fe.pendingFlush.Some? ==>
      var flush, r := run[k].fe.pendingFlush.value, ApplyPendingFlush(k, code, run[k]);
      && (forall x: nat :: Held(r, x) ==> x <= flush.flushSeq)
      && r.fe.redirect.Some? && TakeRestart(r.fe).nextFetch > flush.flushSeq
  {
    RunSatisfies(k, run, opts, inputs, code);
    ProtocolFrom(k, opts, inputs(k), code, run[k]);
  }

  lemma ProtocolFrom(cycle: nat, opts: Options, input: Input, code: seq<Uop>, s: State)
    requires WellFormedCode(code) && RunInv(cycle, opts, code, s)
    ensures var b := AfterRetire(cycle, input, code, s); b.fe.pendingFlush.None? && b.fe.redirect.None?
    ensures RedirectOk(cycle, code, s.fe) && RedirectOk(cycle + 1, code, Committed(cycle, input, code, s).fe)
    ensures forall x: nat :: Copies(s, x) <= 1
    ensures s.fe.pendingFlush.Some? ==>
      var flush, r := s.fe.pendingFlush.value, ApplyPendingFlush(cycle, code, s);
      && (forall x: nat :: Held(r, x) ==> x <= flush.flushSeq)
      && r.fe.redirect.Some? && TakeRestart(r.fe).nextFetch > flush.flushSeq
  {
    var a := FrontHalf(cycle, input, code, s);
    FrontHalfInv(cycle, opts, input, code, s);
    RetireInv(cycle, opts, code, a);
    ScheduleInv(cycle, opts, input, code, RetireReady(cycle, code, a));
    if s.fe.pendingFlush.Some? {
      var flush := s.fe.pendingFlush.value;
      FlushFacts(flush, code, s);
      forall x: nat | Held(ApplyFlush(flush, code, s), x) ensures x <= flush.flushSeq {
        FlushClears(flush, code, s, x);
      }
    }
  }
}
