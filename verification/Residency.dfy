/** How many places hold a sequence number, and what each step of a cycle does to that count. */
module Residency {
  import opened Wrappers
  import opened Seqs
  import opened Model
  import opened Select
  import opened Lsu
  import opened Frontend
  import opened Recovery
  import opened Commit

  function StageCount(front: seq<seq<nat>>, n: nat, x: nat): nat
    requires n <= |front|
  {
    if n == 0 then 0 else StageCount(front, n - 1, x) + N(front[n - 1], x)
  }

  function FrontN(front: Front, x: nat): nat { StageCount(front, STAGES, x) }

  function QueueN(iq: seq<IqEntry>, x: nat): nat { N(SeqNos(iq), x) }

  function ExecN(ex: Exec, x: nat): nat {
    N(ex.e1, x) + N(ex.e2, x) + N(ex.e3, x) + N(ex.e4, x) + N(ex.w1, x) + N(ex.w2, x)
  }

  /** Loads held by the load/store unit: refill queue and L1D. */
  function MemN(mem: Mem, x: nat): nat { N(RefillSeqs(mem.liq), x) + N(L1dSeqs(mem.l1d, LoadHit), x) }

  /** Places before the issue point: the frontend, the issue queue and I2. */
  function Waiting(s: State, x: nat): nat { FrontN(s.fe.front, x) + QueueN(s.q.iq, x) + N(s.sel.i2, x) }

  /** Occurrences of `x` over all the places a fetched uop can occupy. P1 and I1 hold uops that
      are still in the issue queue, so they are not places of their own. */
  function Copies(s: State, x: nat): nat { Waiting(s, x) + ExecN(s.ex, x) + MemN(s.mem, x) }

  lemma {:induction false} StageCountUpdate(front: seq<seq<nat>>, i: nat, q: seq<nat>, n: nat, x: nat)
    requires i < |front| && n <= |front|
    ensures StageCount(front[i := q], n, x) == StageCount(front, n, x) + (if i < n then N(q, x) - N(front[i], x) else 0)
  {
    if n > 0 { StageCountUpdate(front, i, q, n - 1, x); }
  }

  lemma {:induction false} StageCountMember(front: seq<seq<nat>>, n: nat, x: nat)
    requires n <= |front|
    ensures StageCount(front, n, x) > 0 <==> exists i :: 0 <= i < n && x in front[i]
  {
    if n > 0 {
      StageCountMember(front, n - 1, x);
      CountMember(front[n - 1], x);
      if x in front[n - 1] { assert 0 <= n - 1 < n; }
    }
  }

  // -- Flush --------------------------------------------------------------------------------------

  lemma UpToCount(q: seq<nat>, f: nat, x: nat)
    ensures N(UpTo(q, f), x) == if x <= f then N(q, x) else 0
  {
    RetainCount(q, y => y <= f, x);
  }

  lemma {:induction false} StageCountRetain(front: Front, f: nat, n: nat, x: nat)
    requires n <= STAGES
    ensures StageCount(RetainFront(front, f), n, x) == if x <= f then StageCount(front, n, x) else 0
  {
    if n > 0 {
      StageCountRetain(front, f, n - 1, x);
      UpToCount(front[n - 1], f, x);
    }
  }

  lemma {:induction false} RetainEntries(iq: seq<IqEntry>, keep: nat -> bool, keepEntry: IqEntry -> bool, x: nat)
    requires forall e :: keepEntry(e) == keep(e.seqNo)
    ensures QueueN(Retain(iq, keepEntry), x) == if keep(x) then QueueN(iq, x) else 0
  {
    if iq != [] {
      RetainEntries(iq[1..], keep, keepEntry, x);
      assert SeqNos(iq)[1..] == SeqNos(iq[1..]);
      var tail := Retain(iq[1..], keepEntry);
      assert SeqNos([iq[0]] + tail)[1..] == SeqNos(tail);
      assert [] + tail == tail;
    }
  }

  lemma {:induction false} RetainRefills(q: seq<Refill>, keep: nat -> bool, keepEntry: Refill -> bool, x: nat)
    requires forall e :: keepEntry(e) == keep(e.seqNo)
    ensures N(RefillSeqs(Retain(q, keepEntry)), x) == if keep(x) then N(RefillSeqs(q), x) else 0
  {
    if q != [] {
      RetainRefills(q[1..], keep, keepEntry, x);
      assert RefillSeqs(q)[1..] == RefillSeqs(q[1..]);
      var tail := Retain(q[1..], keepEntry);
      assert RefillSeqs([q[0]] + tail)[1..] == RefillSeqs(tail);
      assert [] + tail == tail;
    }
  }

  /** Occurrences of `x` among the L1D entries of one kind, counted entry by entry. */
  lemma L1dSeqsHead(q: seq<L1dEntry>, kind: L1dKind, x: nat)
    requires q != []
    ensures N(L1dSeqs(q, kind), x)
        == N(L1dSeqs(q[1..], kind), x) + (if q[0].kind == kind && q[0].seqNo == x then 1 else 0)
  {
    CountSplit(if q[0].kind == kind then [q[0].seqNo] else [], L1dSeqs(q[1..], kind), x);
  }

  lemma {:induction false} RetainL1d(q: seq<L1dEntry>, kind: L1dKind, f: nat, x: nat)
    ensures N(L1dSeqs(Retain(q, (e: L1dEntry) => e.seqNo <= f), kind), x) == if x <= f then N(L1dSeqs(q, kind), x)
        else 0
  {
    if q != [] {
      RetainL1d(q[1..], kind, f, x);
      L1dSeqsHead(q, kind, x);
      var tail := Retain(q[1..], (e: L1dEntry) => e.seqNo <= f);
      assert ([q[0]] + tail)[1..] == tail;
      L1dSeqsHead([q[0]] + tail, kind, x);
      assert [] + tail == tail;
    }
  }

  lemma PruneExecCopies(f: nat, ex: Exec, x: nat)
    ensures ExecN(PruneExec(f, ex), x) == if x <= f then ExecN(ex, x) else 0
  {
    UpToCount(ex.e1, f, x);
    UpToCount(ex.e2, f, x);
    UpToCount(ex.e3, f, x);
    UpToCount(ex.e4, f, x);
    UpToCount(ex.w1, f, x);
    UpToCount(ex.w2, f, x);
  }

  lemma PruneCopies(f: nat, s: State, x: nat)
    ensures Copies(Prune(f, s), x) == if x <= f then Copies(s, x) else 0
    ensures Waiting(Prune(f, s), x) == if x <= f then Waiting(s, x) else 0
  {
    StageCountRetain(s.fe.front, f, STAGES, x);
    RetainEntries(s.q.iq, y => y <= f, (e: IqEntry) => e.seqNo <= f, x);
    UpToCount(s.sel.i2, f, x);
    PruneExecCopies(f, s.ex, x);
    RetainRefills(s.mem.liq, y => y <= f, (r: Refill) => r.seqNo <= f, x);
    RetainL1d(s.mem.l1d, LoadHit, f, x);
  }

  // -- Fetch --------------------------------------------------------------------------------------

  lemma {:induction false} FetchCopies(code: seq<Uop>, dyn: seq<Dyn>, fe: Fetch, x: nat)
    requires fe.nextFetch <= |code|
    ensures var r := FetchLoop(code, dyn, fe);
      && fe.nextFetch <= r.nextFetch <= |code|
      && FrontN(r.front, x) == FrontN(fe.front, x) + (if fe.nextFetch <= x < r.nextFetch then 1 else 0)
      && r == fe.(front := r.front, nextFetch := r.nextFetch)
    decreases |code| - fe.nextFetch
  {
    if |fe.front[0]| >= FETCH_WIDTH || fe.nextFetch >= |code| || FetchBarrier(fe.nextFetch, code, dyn) {
    } else {
      var fe' := fe.(front := fe.front[0 := fe.front[0] + [fe.nextFetch]], nextFetch := fe.nextFetch + 1);
      StageCountUpdate(fe.front, 0, fe.front[0] + [fe.nextFetch], STAGES, x);
      CountSnoc(fe.front[0], fe.nextFetch, x);
      if code[fe.nextFetch].redirectTarget.None? { FetchCopies(code, dyn, fe', x); }
    }
  }

  // -- Execute and L1D ----------------------------------------------------------------------------

  lemma {:induction false} L1dSeqsAppend(q: seq<L1dEntry>, e: L1dEntry, kind: L1dKind, x: nat)
    ensures N(L1dSeqs(q + [e], kind), x) == N(L1dSeqs(q, kind), x) + (if e.kind == kind && e.seqNo == x then 1 else 0)
  {
    if q == [] {
      assert q + [e] == [e];
      assert [e][1..] == [];
    } else {
      L1dSeqsAppend(q[1..], e, kind, x);
      assert (q + [e])[1..] == q[1..] + [e];
      L1dSeqsHead(q, kind, x);
      L1dSeqsHead(q + [e], kind, x);
    }
  }

  lemma RefillSeqsAppend(q: seq<Refill>, r: Refill, x: nat)
    ensures N(RefillSeqs(q + [r]), x) == N(RefillSeqs(q), x) + (if r.seqNo == x then 1 else 0)
  {
    assert RefillSeqs(q + [r]) == RefillSeqs(q) + [r.seqNo];
    CountSnoc(RefillSeqs(q), r.seqNo, x);
  }

  lemma E4OneCopies(y: nat, cycle: nat, opts: Options, code: seq<Uop>, a: E4Stage, x: nat)
    ensures var r := E4One(y, cycle, opts, code, a);
      N(r.e4, x) + MemN(r.mem, x) == N(a.e4, x) + MemN(a.mem, x) + (if x == y then 1 else 0)
  {
    if ShouldInjectMiss(opts, UopAt(code, y), DynAt(a.dyn, y)) {
      RefillSeqsAppend(a.mem.liq, Refill(y, RestartCycle(cycle, opts)), x);
    } else if CacheReady(UopAt(code, y), a.mem.cachePtr) && CanAcceptL1d(a.mem.l1d) {
      L1dSeqsAppend(a.mem.l1d, L1dEntry(y, LoadHit, SatAdd(cycle, 1)), LoadHit, x);
    } else {
      CountSnoc(a.e4, y, x);
    }
  }

  lemma {:induction false} E4LoopCopies(pending: seq<nat>, cycle: nat, opts: Options, code: seq<Uop>, a: E4Stage,
                                        x: nat)
    ensures var r := E4Loop(pending, cycle, opts, code, a);
      N(r.e4, x) + MemN(r.mem, x) == N(a.e4, x) + MemN(a.mem, x) + N(pending, x)
  {
    if pending != [] {
      E4OneCopies(pending[0], cycle, opts, code, a, x);
      E4LoopCopies(pending[1..], cycle, opts, code, E4One(pending[0], cycle, opts, code, a), x);
    }
  }

  lemma E1OneCopies(y: nat, code: seq<Uop>, ex: Exec, x: nat)
    ensures ExecN(E1One(y, code, ex), x) == ExecN(ex, x) + (if x == y then 1 else 0)
  {
    if UopAt(code, y).isLoad && |ex.e2| < LSU_WIDTH {
      CountSnoc(ex.e2, y, x);
    } else if !UopAt(code, y).isLoad && |ex.w1| < ISSUE_WIDTH {
      CountSnoc(ex.w1, y, x);
    } else {
      CountSnoc(ex.e1, y, x);
    }
  }

  lemma {:induction false} E1LoopCopies(pending: seq<nat>, code: seq<Uop>, ex: Exec, x: nat)
    ensures ExecN(E1Loop(pending, code, ex), x) == ExecN(ex, x) + N(pending, x)
  {
    if pending != [] {
      E1OneCopies(pending[0], code, ex, x);
      E1LoopCopies(pending[1..], code, E1One(pending[0], code, ex), x);
    }
  }

  lemma W1Copies(ex: Exec, e4: seq<nat>, x: nat)
    ensures ExecN(W1ToW2(ex).(e4 := e4), x) == ExecN(ex, x) - N(ex.w2, x) - N(ex.e4, x) + N(e4, x)
  {
    var n := MoveCount([], ex.w1, ISSUE_WIDTH);
    CountSplit(ex.w1[..n], ex.w1[n..], x);
    assert ex.w1 == ex.w1[..n] + ex.w1[n..];
  }

  lemma E3Copies(ex: Exec, x: nat)
    ensures ExecN(E3ToE4(ex), x) == ExecN(ex, x)
  {
    CountMove(ex.e4, ex.e3, MoveCount(ex.e4, ex.e3, LSU_WIDTH), x);
  }

  lemma E2Copies(ex: Exec, x: nat)
    ensures ExecN(E2ToE3(ex), x) == ExecN(ex, x)
  {
    CountMove(ex.e3, ex.e2, MoveCount(ex.e3, ex.e2, LSU_WIDTH), x);
  }

  /** The stage moves keep every occupant except those of W2, which have completed. */
  lemma MovesCopies(ex: Exec, code: seq<Uop>, e4: seq<nat>, x: nat)
    ensures ExecN(AdvanceE1(code, E2ToE3(E3ToE4(W1ToW2(ex).(e4 := e4)))), x)
         == ExecN(ex, x) - N(ex.w2, x) - N(ex.e4, x) + N(e4, x)
  {
    var a := W1ToW2(ex).(e4 := e4);
    W1Copies(ex, e4, x);
    var b := E3ToE4(a);
    E3Copies(a, x);
    var c := E2ToE3(b);
    E2Copies(b, x);
    E1LoopCopies(c.e1, code, c.(e1 := []), x);
  }

  lemma ExecuteCopies(cycle: nat, opts: Options, code: seq<Uop>, s: State, x: nat)
    ensures Copies(AdvanceExecute(cycle, opts, code, s), x) + N(s.ex.w2, x) == Copies(s, x)
    ensures Waiting(AdvanceExecute(cycle, opts, code, s), x) == Waiting(s, x)
  {
    var a := AdvanceE4(cycle, opts, code, s);
    E4LoopCopies(s.ex.e4, cycle, opts, code, E4Stage([], s.mem, s.dyn), x);
    MovesCopies(s.ex, code, a.e4, x);
  }

  lemma L1dOneCopies(e: L1dEntry, cycle: nat, a: L1dStage, x: nat)
    ensures var r := L1dOne(e, cycle, a);
      N(r.w1, x) + MemN(r.mem, x) == N(a.w1, x) + MemN(a.mem, x) + (if e.kind == LoadHit && x == e.seqNo then 1 else 0)
  {
    if e.readyCycle > cycle || (e.kind == LoadHit && |a.w1| >= ISSUE_WIDTH) {
      L1dSeqsAppend(a.mem.l1d, e, LoadHit, x);
    } else {
      CountSnoc(a.w1, e.seqNo, x);
    }
  }

  lemma {:induction false} L1dLoopCopies(pending: seq<L1dEntry>, cycle: nat, a: L1dStage, x: nat)
    ensures var r := L1dLoop(pending, cycle, a);
      N(r.w1, x) + MemN(r.mem, x) == N(a.w1, x) + MemN(a.mem, x) + N(L1dSeqs(pending, LoadHit), x)
  {
    if pending != [] {
      L1dOneCopies(pending[0], cycle, a, x);
      L1dSeqsHead(pending, LoadHit, x);
      L1dLoopCopies(pending[1..], cycle, L1dOne(pending[0], cycle, a), x);
    }
  }

  lemma L1dCopies(cycle: nat, s: State, x: nat)
    ensures Copies(AdvanceL1d(cycle, s), x) == Copies(s, x)
    ensures Waiting(AdvanceL1d(cycle, s), x) == Waiting(s, x)
  {
    L1dLoopCopies(s.mem.l1d, cycle, L1dStage(s.ex.w1, s.mem.(l1d := [])), x);
  }

  lemma LiqCopies(cycle: nat, code: seq<Uop>, s: State, x: nat)
    ensures Copies(AdvanceLiq(cycle, code, s), x) == Copies(s, x)
    ensures Waiting(AdvanceLiq(cycle, code, s), x) == Waiting(s, x)
  {
    var i := RefillChoice(cycle, code, s);
    if i.Some? {
      var q := RefillSeqs(s.mem.liq);
      assert RefillSeqs(RemoveAt(s.mem.liq, i.value)) == RemoveAt(q, i.value);
      CountRemoveAt(q, i.value, x);
      CountSnoc(s.ex.e1, q[i.value], x);
    }
  }

  lemma ScbCopies(cycle: nat, code: seq<Uop>, mem: Mem, x: nat)
    ensures MemN(DrainStore(cycle, code, mem), x) == MemN(mem, x)
  {
    var i := DrainChoice(cycle, code, mem);
    if i.Some? {
      L1dSeqsAppend(mem.l1d, L1dEntry(mem.scb[i.value].seqNo, StoreDrain, SatAdd(cycle, 1)), LoadHit, x);
    }
  }

  // -- Issue --------------------------------------------------------------------------------------

  lemma IssueMemFrame(x: nat, u: Uop, mem: Mem)
    ensures var r := IssueMem(x, u, mem);
      r == mem.(lhq := r.lhq, stq := r.stq, issuePtr := r.issuePtr, completePtr := r.completePtr,
          issueLog := r.issueLog)
  {
  }

  lemma IssueOneCopies(y: nat, cycle: nat, code: seq<Uop>, dyn: seq<Dyn>, a: Issuer, x: nat)
    ensures var r := IssueOne(y, cycle, code, dyn, a);
      && N(r.i2, x) + N(r.e1, x) == N(a.i2, x) + N(a.e1, x) + (if x == y then 1 else 0)
      && MemN(r.mem, x) == MemN(a.mem, x)
  {
    if Issues(y, cycle, code, dyn, a) {
      CountSnoc(a.e1, y, x);
      IssueMemFrame(y, UopAt(code, y), a.mem);
    } else {
      CountSnoc(a.i2, y, x);
    }
  }

  lemma {:induction false} IssueLoopCopies(pending: seq<nat>, cycle: nat, code: seq<Uop>, dyn: seq<Dyn>, a: Issuer,
                                           x: nat)
    ensures var r := IssueLoop(pending, cycle, code, dyn, a);
      && N(r.i2, x) + N(r.e1, x) == N(a.i2, x) + N(a.e1, x) + N(pending, x)
      && MemN(r.mem, x) == MemN(a.mem, x)
  {
    if pending != [] {
      IssueOneCopies(pending[0], cycle, code, dyn, a, x);
      IssueLoopCopies(pending[1..], cycle, code, dyn, IssueOne(pending[0], cycle, code, dyn, a), x);
    }
  }

  lemma I2Copies(cycle: nat, code: seq<Uop>, s: State, x: nat)
    ensures Copies(AdvanceI2(cycle, code, s), x) == Copies(s, x)
  {
    IssueLoopCopies(s.sel.i2, cycle, code, s.dyn, Issuer([], s.ex.e1, s.mem), x);
  }

  // -- Frontend -----------------------------------------------------------------------------------

  lemma MoveStageCopies(idx: nat, front: Front, x: nat)
    requires 1 <= idx < STAGES
    ensures FrontN(MoveStage(idx, front), x) == FrontN(front, x)
  {
    var n := MoveCount(front[idx], front[idx - 1], DISPATCH_WIDTH);
    var mid := front[idx := front[idx] + front[idx - 1][..n]];
    StageCountUpdate(front, idx, front[idx] + front[idx - 1][..n], STAGES, x);
    StageCountUpdate(mid, idx - 1, front[idx - 1][n..], STAGES, x);
    CountMove(front[idx], front[idx - 1], n, x);
  }

  lemma {:induction false} FrontendCopies(idx: nat, a: Stages, x: nat)
    requires idx < STAGES
    ensures FrontN(AdvanceStages(idx, a).front, x) == FrontN(a.front, x)
    decreases idx
  {
    if idx > 0 {
      MoveStageCopies(idx, a.front, x);
      FrontendCopies(idx - 1, AdvanceStage(idx, a), x);
    }
  }

  // -- Dispatch -----------------------------------------------------------------------------------

  function DispatcherN(d: Dispatcher, x: nat): nat { N(d.stay, x) + N(d.w2, x) + QueueN(d.q.iq, x) }

  lemma DispatchToIqCopies(y: nat, cycle: nat, code: seq<Uop>, d: Dispatcher, x: nat)
    ensures DispatcherN(DispatchToIq(y, cycle, code, d), x) == DispatcherN(d, x) + (if x == y then 1 else 0)
  {
    var r := DispatchToIq(y, cycle, code, d);
    CountSnoc(d.stay, y, x);
    if |r.q.iq| > |d.q.iq| {
      assert SeqNos(r.q.iq) == SeqNos(d.q.iq) + [y];
      CountSnoc(SeqNos(d.q.iq), y, x);
    }
  }

  lemma DispatchOneCopies(y: nat, cycle: nat, input: Input, code: seq<Uop>, d: Dispatcher, x: nat)
    ensures DispatcherN(DispatchOne(y, cycle, input, code, d), x) == DispatcherN(d, x) + (if x == y then 1 else 0)
  {
    var d' := d.(q := Snapshot(y, input, code, d.q));
    assert d'.q.iq == d.q.iq;
    if UopAt(code, y).bypass {
      CountSnoc(d.stay, y, x);
      CountSnoc(d.w2, y, x);
    } else {
      DispatchToIqCopies(y, cycle, code, d', x);
    }
  }

  lemma {:induction false} DispatchLoopCopies(pending: seq<nat>, cycle: nat, input: Input, code: seq<Uop>,
                                              d: Dispatcher, x: nat)
    ensures DispatcherN(DispatchLoop(pending, cycle, input, code, d), x) == DispatcherN(d, x) + N(pending, x)
  {
    if pending != [] {
      DispatchOneCopies(pending[0], cycle, input, code, d, x);
      DispatchLoopCopies(pending[1..], cycle, input, code, DispatchOne(pending[0], cycle, input, code, d), x);
    }
  }

  lemma DispatchCopies(cycle: nat, input: Input, code: seq<Uop>, s: State, x: nat)
    ensures Copies(Dispatch(cycle, input, code, s), x) == Copies(s, x)
  {
    var d := DispatchLoop(s.fe.front[10], cycle, input, code, Dispatcher([], s.ex.w2, s.q, s.dyn, map[]));
    DispatchLoopCopies(s.fe.front[10], cycle, input, code, Dispatcher([], s.ex.w2, s.q, s.dyn, map[]), x);
    StageCountUpdate(s.fe.front, 10, d.stay, STAGES, x);
  }
}
