/** Every step keeps the kinds of uops in each stage and the stamps their stage implies. */
module StageSteps {
  import opened Seqs
  import opened Model
  import opened Select
  import opened Lsu
  import opened Frontend
  import opened Recovery
  import opened Commit
  import opened Residency
  import opened Alive
  import opened Timing

  // -- Membership through the loops ---------------------------------------------------------------

  lemma RefillAppendMember(q: seq<Refill>, r: Refill, x: nat)
    ensures x in RefillSeqs(q + [r]) <==> x in RefillSeqs(q) || x == r.seqNo
  {
    assert RefillSeqs(q + [r]) == RefillSeqs(q) + [r.seqNo];
  }

  lemma L1dAppendMember(q: seq<L1dEntry>, e: L1dEntry, kind: L1dKind, x: nat)
    ensures x in L1dSeqs(q + [e], kind) <==> x in L1dSeqs(q, kind) || (e.kind == kind && x == e.seqNo)
  {
    L1dSeqsAppend(q, e, kind, x);
    CountMember(L1dSeqs(q + [e], kind), x);
    CountMember(L1dSeqs(q, kind), x);
  }

  lemma E4OneMembers(y: nat, cycle: nat, opts: Options, code: seq<Uop>, a: E4Stage, x: nat)
    ensures var r := E4One(y, cycle, opts, code, a);
      && (x in r.e4 ==> x in a.e4 || x == y)
      && (x in RefillSeqs(r.mem.liq) ==> x in RefillSeqs(a.mem.liq) || x == y)
      && (x in L1dSeqs(r.mem.l1d, LoadHit) ==>
            x in L1dSeqs(a.mem.l1d, LoadHit) || (x == y && !ShouldInjectMiss(opts, UopAt(code, x), DynAt(a.dyn, x))))
      && (x != y ==> DynAt(r.dyn, x) == DynAt(a.dyn, x))
  {
    if ShouldInjectMiss(opts, UopAt(code, y), DynAt(a.dyn, y)) {
      RefillAppendMember(a.mem.liq, Refill(y, RestartCycle(cycle, opts)), x);
    } else if CacheReady(UopAt(code, y), a.mem.cachePtr) && CanAcceptL1d(a.mem.l1d) {
      L1dAppendMember(a.mem.l1d, L1dEntry(y, LoadHit, SatAdd(cycle, 1)), LoadHit, x);
    }
  }

  lemma {:induction false} E4LoopMembers(pending: seq<nat>, cycle: nat, opts: Options, code: seq<Uop>, a: E4Stage,
                                         x: nat)
    requires N(pending, x) <= 1
    ensures var r := E4Loop(pending, cycle, opts, code, a);
      && (x in r.e4 ==> x in a.e4 || x in pending)
      && (x in RefillSeqs(r.mem.liq) ==> x in RefillSeqs(a.mem.liq) || x in pending)
      && (x in L1dSeqs(r.mem.l1d, LoadHit) ==>
            x in L1dSeqs(a.mem.l1d, LoadHit)
              || (x in pending && !ShouldInjectMiss(opts, UopAt(code, x), DynAt(a.dyn, x))))
  {
    if pending != [] {
      E4OneMembers(pending[0], cycle, opts, code, a, x);
      E4LoopMembers(pending[1..], cycle, opts, code, E4One(pending[0], cycle, opts, code, a), x);
      CountMember(pending[1..], x);
    }
  }

  lemma {:induction false} E1LoopKinds(pending: seq<nat>, code: seq<Uop>, ex: Exec)
    requires ExecKinds(code, ex) && NoBypass(code, pending)
    ensures var r := E1Loop(pending, code, ex);
      && ExecKinds(code, r) && r.w2 == ex.w2
      && (forall x :: x in r.w1 ==> x in ex.w1 || !UopAt(code, x).isLoad)
  {
    if pending != [] {
      E1LoopKinds(pending[1..], code, E1One(pending[0], code, ex));
    }
  }

  lemma MovesKinds(code: seq<Uop>, ex: Exec, e4: seq<nat>)
    requires ExecKinds(code, ex) && Loads(code, e4)
    ensures var r := AdvanceE1(code, E2ToE3(E3ToE4(W1ToW2(ex).(e4 := e4))));
      && ExecKinds(code, r)
      && (forall x :: x in r.w1 ==> x in ex.w1 || !UopAt(code, x).isLoad)
      && (forall x :: x in r.w2 ==> x in ex.w1)
  {
    var a := W1ToW2(ex).(e4 := e4);
    var b := E3ToE4(a);
    var c := E2ToE3(b);
    assert ExecKinds(code, a);
    assert ExecKinds(code, b);
    assert ExecKinds(code, c.(e1 := []));
    E1LoopKinds(c.e1, code, c.(e1 := []));
  }

  /** After tagging, the occupants of E4 and W1 carry their stamp. */
  ghost predicate Tagged1(code: seq<Uop>, s: State) {
    && (forall x :: x in s.ex.e4 ==> DynAt(s.dyn, x).e4.Some?)
    && (forall x :: x in s.ex.w1 ==> DynAt(s.dyn, x).w1.Some?)
  }

  lemma ExecuteStages(cycle: nat, opts: Options, code: seq<Uop>, s: State)
    requires AliveState(code, s) && StagesOk(cycle, code, s) && Tagged1(code, s)
    requires AllTimeMid(cycle, opts, code, s.ex.e4, s.dyn)
    ensures StagesOk(cycle + 1, code, AdvanceExecute(cycle, opts, code, s))
  {
    var a := AdvanceE4(cycle, opts, code, s);
    var r := AdvanceExecute(cycle, opts, code, s);
    var start := E4Stage([], s.mem, s.dyn);
    E4LoopLength(s.ex.e4, cycle, opts, code, start);
    forall x: nat
      ensures x in a.e4 || x in RefillSeqs(a.mem.liq) || x in L1dSeqs(a.mem.l1d, LoadHit) ==>
        UopAt(code, x).isLoad && !UopAt(code, x).bypass
      ensures x in L1dSeqs(a.mem.l1d, LoadHit) ==> DynAt(a.dyn, x).e4.Some?
      ensures x in s.ex.w1 ==> DynAt(a.dyn, x) == DynAt(s.dyn, x)
    {
      E4Resident(cycle, opts, code, s, x);
    }
    MovesKinds(code, s.ex, a.e4);
    forall x | x in r.ex.w2 ensures AtOrBefore(DynAt(r.dyn, x).dataVisible, cycle + 1) {
      assert x in s.ex.w1;
      assert TimeMid(cycle, opts, UopAt(code, x), DynAt(s.dyn, x), x in s.ex.e4);
    }
  }

  lemma E4Resident(cycle: nat, opts: Options, code: seq<Uop>, s: State, x: nat)
    requires AliveState(code, s) && StagesOk(cycle, code, s) && Tagged1(code, s)
    ensures var a := AdvanceE4(cycle, opts, code, s);
      && (x in a.e4 || x in RefillSeqs(a.mem.liq) || x in L1dSeqs(a.mem.l1d, LoadHit) ==>
            UopAt(code, x).isLoad && !UopAt(code, x).bypass)
      && (x in L1dSeqs(a.mem.l1d, LoadHit) ==> DynAt(a.dyn, x).e4.Some?)
      && (x in s.ex.w1 ==> DynAt(a.dyn, x) == DynAt(s.dyn, x))
  {
    var start := E4Stage([], s.mem, s.dyn);
    assert Copies(s, x) <= 1 && (Copies(s, x) > 0 ==> x < s.fe.nextFetch);
    CountMember(s.ex.e4, x);
    CountMember(s.ex.w1, x);
    CountMember(L1dSeqs(s.mem.l1d, LoadHit), x);
    E4LoopMembers(s.ex.e4, cycle, opts, code, start, x);
    if x < |s.dyn| { E4LoopTime(s.ex.e4, cycle, opts, code, start, x); }
  }

  // -- L1D, refill --------------------------------------------------------------------------------

  lemma {:induction false} L1dLoopMembers(pending: seq<L1dEntry>, cycle: nat, a: L1dStage, x: nat)
    ensures var r := L1dLoop(pending, cycle, a);
      && (x in r.w1 ==> x in a.w1 || x in L1dSeqs(pending, LoadHit))
      && (x in L1dSeqs(r.mem.l1d, LoadHit) ==> x in L1dSeqs(a.mem.l1d, LoadHit) || x in L1dSeqs(pending, LoadHit))
      && r.mem.liq == a.mem.liq
  {
    if pending != [] {
      L1dAppendMember(a.mem.l1d, pending[0], LoadHit, x);
      L1dLoopMembers(pending[1..], cycle, L1dOne(pending[0], cycle, a), x);
    }
  }

  lemma L1dStages(cycle: nat, code: seq<Uop>, s: State)
    requires StagesOk(cycle + 1, code, s)
    ensures StagesOk(cycle + 1, code, AdvanceL1d(cycle, s))
  {
    var r := AdvanceL1d(cycle, s);
    forall x
      ensures x in r.ex.w1 ==> x in s.ex.w1 || x in L1dSeqs(s.mem.l1d, LoadHit)
      ensures x in L1dSeqs(r.mem.l1d, LoadHit) ==> x in L1dSeqs(s.mem.l1d, LoadHit)
    {
      L1dLoopMembers(s.mem.l1d, cycle, L1dStage(s.ex.w1, s.mem.(l1d := [])), x);
    }
    L1dLoopMembers(s.mem.l1d, cycle, L1dStage(s.ex.w1, s.mem.(l1d := [])), 0);
  }

  lemma LiqStages(cycle: nat, code: seq<Uop>, s: State)
    requires StagesOk(cycle + 1, code, s)
    ensures StagesOk(cycle + 1, code, AdvanceLiq(cycle, code, s))
  {
    var r := AdvanceLiq(cycle, code, s);
    var i := RefillChoice(cycle, code, s);
    if i.Some? {
      var q := RefillSeqs(s.mem.liq);
      assert RefillSeqs(r.mem.liq) == RemoveAt(q, i.value);
      assert q[i.value] in q;
    }
  }

  lemma ScbStages(cycle: nat, code: seq<Uop>, s: State)
    requires StagesOk(cycle, code, s)
    ensures StagesOk(cycle, code, AdvanceScb(cycle, code, s))
  {
    var i := DrainChoice(cycle, code, s.mem);
    if i.Some? {
      var r := AdvanceScb(cycle, code, s);
      forall x ensures x in L1dSeqs(r.mem.l1d, LoadHit) ==> x in L1dSeqs(s.mem.l1d, LoadHit) {
        L1dAppendMember(s.mem.l1d, L1dEntry(s.mem.scb[i.value].seqNo, StoreDrain, SatAdd(cycle, 1)), LoadHit, x);
      }
    }
  }

  // -- Issue and dispatch -------------------------------------------------------------------------

  lemma {:induction false} IssueLoopMembers(pending: seq<nat>, cycle: nat, code: seq<Uop>, dyn: seq<Dyn>, a: Issuer,
                                            x: nat)
    ensures var r := IssueLoop(pending, cycle, code, dyn, a);
      && (x in r.i2 ==> x in a.i2 || x in pending)
      && (x in r.e1 ==> x in a.e1 || x in pending)
      && r.mem.liq == a.mem.liq && r.mem.l1d == a.mem.l1d
  {
    if pending != [] {
      IssueLoopMembers(pending[1..], cycle, code, dyn, IssueOne(pending[0], cycle, code, dyn, a), x);
    }
  }

  lemma I2Stages(cycle: nat, code: seq<Uop>, s: State)
    requires StagesOk(cycle + 1, code, s)
    ensures StagesOk(cycle + 1, code, AdvanceI2(cycle, code, s))
  {
    var r := AdvanceI2(cycle, code, s);
    forall x ensures x in r.sel.i2 || x in r.ex.e1 ==> x in s.sel.i2 || x in s.ex.e1 {
      IssueLoopMembers(s.sel.i2, cycle, code, s.dyn, Issuer([], s.ex.e1, s.mem), x);
    }
    IssueLoopMembers(s.sel.i2, cycle, code, s.dyn, Issuer([], s.ex.e1, s.mem), 0);
  }

  lemma I1ToI2Stages(cycle: nat, code: seq<Uop>, s: State)
    requires AliveState(code, s) && StagesOk(cycle, code, s)
    ensures StagesOk(cycle, code, AdvanceI1ToI2(s))
  {
    var r := AdvanceI1ToI2(s);
    UniqueFromLive(s.fe.nextFetch, s);
    I1ToI2Facts(s);
    forall x: nat ensures x in SeqNos(r.q.iq) || x in r.sel.i2 ==> x in SeqNos(s.q.iq) || x in s.sel.i2 {
      CountMember(SeqNos(r.q.iq), x);
      CountMember(r.sel.i2, x);
      CountMember(SeqNos(s.q.iq), x);
      CountMember(s.sel.i2, x);
      assert QueueN(r.q.iq, x) + N(r.sel.i2, x) == QueueN(s.q.iq, x) + N(s.sel.i2, x);
    }
  }

  ghost predicate DispatchStages(cycle: nat, code: seq<Uop>, d: Dispatcher) {
    NoBypass(code, SeqNos(d.q.iq)) && DataBy(cycle + 1, d.dyn, d.w2)
  }

  lemma DispatchOneStages(x: nat, cycle: nat, opts: Options, input: Input, code: seq<Uop>, d: Dispatcher)
    requires DispatchStages(cycle, code, d) && AllTimeOk(cycle + 1, opts, code, d.dyn) && x < |d.dyn|
    ensures var r := DispatchOne(x, cycle, input, code, d);
      DispatchStages(cycle, code, r) && AllTimeOk(cycle + 1, opts, code, r.dyn) && |r.dyn| == |d.dyn|
  {
    var r := DispatchOne(x, cycle, input, code, d);
    var d' := d.(q := Snapshot(x, input, code, d.q));
    forall y: nat
      ensures TimeOk(cycle + 1, opts, UopAt(code, y), DynAt(r.dyn, y))
      ensures AtOrBefore(DynAt(d.dyn, y).dataVisible, cycle + 1) ==> AtOrBefore(DynAt(r.dyn, y).dataVisible, cycle + 1)
    {
      assert TimeOk(cycle + 1, opts, UopAt(code, y), DynAt(d.dyn, y));
      DispatchTime([x], cycle, input, code, d, y);
      assert [x][1..] == [];
    }
    if UopAt(code, x).bypass {
      assert AtOrBefore(DynAt(r.dyn, x).dataVisible, cycle + 1);
    } else {
      ToIqSeqNos(x, cycle, code, d');
    }
  }

  lemma ToIqSeqNos(x: nat, cycle: nat, code: seq<Uop>, d: Dispatcher)
    ensures var r := DispatchToIq(x, cycle, code, d);
      r.w2 == d.w2 && (SeqNos(r.q.iq) == SeqNos(d.q.iq) || SeqNos(r.q.iq) == SeqNos(d.q.iq) + [x])
  {
    var r := DispatchToIq(x, cycle, code, d);
    if |r.q.iq| > |d.q.iq| { assert SeqNos(r.q.iq) == SeqNos(d.q.iq) + [x]; }
  }

  lemma {:induction false} DispatchLoopStages(pending: seq<nat>, cycle: nat, opts: Options, input: Input,
                                              code: seq<Uop>, d: Dispatcher)
    requires DispatchStages(cycle, code, d) && AllTimeOk(cycle + 1, opts, code, d.dyn)
    requires forall x :: x in pending ==> x < |d.dyn|
    ensures DispatchStages(cycle, code, DispatchLoop(pending, cycle, input, code, d))
  {
    if pending != [] {
      assert pending[0] in pending;
      DispatchOneStages(pending[0], cycle, opts, input, code, d);
      forall x | x in pending[1..] ensures x < |d.dyn| { assert x in pending; }
      DispatchLoopStages(pending[1..], cycle, opts, input, code, DispatchOne(pending[0], cycle, input, code, d));
    }
  }

  lemma InFrontLive(code: seq<Uop>, s: State, i: nat, x: nat)
    requires AliveState(code, s) && i < STAGES && x in s.fe.front[i]
    ensures x < s.fe.nextFetch && FrontN(s.fe.front, x) == 1
  {
    StageCountMember(s.fe.front, STAGES, x);
    assert Copies(s, x) <= 1 && (Copies(s, x) > 0 ==> x < s.fe.nextFetch);
  }

  lemma DispatchKeepsStages(cycle: nat, opts: Options, input: Input, code: seq<Uop>, s: State)
    requires AliveState(code, s) && StagesOk(cycle + 1, code, s) && AllTimeOk(cycle + 1, opts, code, s.dyn)
    ensures StagesOk(cycle + 1, code, Dispatch(cycle, input, code, s))
  {
    var d := Dispatcher([], s.ex.w2, s.q, s.dyn, map[]);
    var r := Dispatch(cycle, input, code, s);
    forall x | x in s.fe.front[10] ensures x < |s.dyn| { InFrontLive(code, s, 10, x); }
    DispatchLoopStages(s.fe.front[10], cycle, opts, input, code, d);
    forall x: nat ensures DynAt(r.dyn, x).e4 == DynAt(s.dyn, x).e4 {
      DispatchTime(s.fe.front[10], cycle, input, code, d, x);
    }
  }

  // -- Flush and tagging --------------------------------------------------------------------------

  lemma RetainEntryMember(iq: seq<IqEntry>, f: nat, x: nat)
    ensures x in SeqNos(Retain(iq, (e: IqEntry) => e.seqNo <= f)) ==> x in SeqNos(iq)
  {
    RetainEntries(iq, y => y <= f, (e: IqEntry) => e.seqNo <= f, x);
    CountMember(SeqNos(iq), x);
    CountMember(SeqNos(Retain(iq, (e: IqEntry) => e.seqNo <= f)), x);
  }

  lemma PruneMembers(f: nat, s: State, x: nat)
    ensures var r := Prune(f, s);
      && (x in SeqNos(r.q.iq) ==> x in SeqNos(s.q.iq))
      && (x in RefillSeqs(r.mem.liq) ==> x in RefillSeqs(s.mem.liq))
      && (x in L1dSeqs(r.mem.l1d, LoadHit) ==> x in L1dSeqs(s.mem.l1d, LoadHit))
      && (x in r.sel.i2 ==> x in s.sel.i2)
  {
    RetainEntryMember(s.q.iq, f, x);
    RetainRefills(s.mem.liq, y => y <= f, (r: Refill) => r.seqNo <= f, x);
    CountMember(RefillSeqs(s.mem.liq), x);
    CountMember(RefillSeqs(Retain(s.mem.liq, (r: Refill) => r.seqNo <= f)), x);
    RetainL1d(s.mem.l1d, LoadHit, f, x);
    CountMember(L1dSeqs(s.mem.l1d, LoadHit), x);
    CountMember(L1dSeqs(Retain(s.mem.l1d, (e: L1dEntry) => e.seqNo <= f), LoadHit), x);
    UpToMember(s.sel.i2, f, x);
  }

  lemma PruneExecMembers(f: nat, ex: Exec, x: nat)
    ensures var r := PruneExec(f, ex);
      && (x in r.e1 ==> x in ex.e1) && (x in r.e2 ==> x in ex.e2) && (x in r.e3 ==> x in ex.e3)
      && (x in r.e4 ==> x in ex.e4) && (x in r.w1 ==> x in ex.w1) && (x in r.w2 ==> x in ex.w2)
  {
    UpToMember(ex.e1, f, x);
    UpToMember(ex.e2, f, x);
    UpToMember(ex.e3, f, x);
    UpToMember(ex.e4, f, x);
    UpToMember(ex.w1, f, x);
    UpToMember(ex.w2, f, x);
  }

  lemma FlushStages(flush: Flush, cycle: nat, code: seq<Uop>, s: State)
    requires StagesOk(cycle, code, s)
    ensures StagesOk(cycle, code, ApplyFlush(flush, code, s))
  {
    var f := flush.flushSeq;
    var t := s.(q := RestoreReady(flush.checkpoint, s.q));
    var p := Prune(f, t);
    forall x: nat
      ensures (x in SeqNos(p.q.iq) ==> x in SeqNos(s.q.iq))
        && (x in RefillSeqs(p.mem.liq) ==> x in RefillSeqs(s.mem.liq))
           && (x in L1dSeqs(p.mem.l1d, LoadHit) ==> x in L1dSeqs(s.mem.l1d, LoadHit))
           && (x in p.sel.i2 ==> x in s.sel.i2)
    {
      PruneMembers(f, t, x);
    }
    FlushExec(f, cycle, code, s.ex, s.dyn);
  }

  lemma FlushExec(f: nat, cycle: nat, code: seq<Uop>, ex: Exec, dyn: seq<Dyn>)
    requires ExecKinds(code, ex) && LoadsStamped(code, dyn, ex.w1) && DataBy(cycle, dyn, ex.w2)
    ensures var r := PruneExec(f, ex); ExecKinds(code, r) && LoadsStamped(code, dyn, r.w1) && DataBy(cycle, dyn, r.w2)
  {
    var r := PruneExec(f, ex);
    forall x: nat
      ensures && (x in r.e1 ==> x in ex.e1) && (x in r.e2 ==> x in ex.e2) && (x in r.e3 ==> x in ex.e3)
              && (x in r.e4 ==> x in ex.e4) && (x in r.w1 ==> x in ex.w1) && (x in r.w2 ==> x in ex.w2)
    {
      PruneExecMembers(f, ex, x);
    }
  }

  lemma TagStages(cycle: nat, opts: Options, code: seq<Uop>, s: State)
    requires AliveState(code, s) && StagesOk(cycle, code, s) && AllTimeOk(cycle, opts, code, s.dyn)
    ensures var r := TagStageCycles(cycle, code, s); StagesOk(cycle, code, r) && Tagged1(code, r)
  {
    var r := TagStageCycles(cycle, code, s);
    forall x: nat
      ensures DynAt(s.dyn, x).e4.Some? ==> DynAt(r.dyn, x).e4.Some?
      ensures AtOrBefore(DynAt(s.dyn, x).dataVisible, cycle) ==> AtOrBefore(DynAt(r.dyn, x).dataVisible, cycle)
      ensures x in s.ex.e4 ==> DynAt(r.dyn, x).e4.Some?
      ensures x in s.ex.w1 ==> DynAt(r.dyn, x).w1.Some?
    {
      assert TimeOk(cycle, opts, UopAt(code, x), DynAt(s.dyn, x));
      assert Copies(s, x) > 0 ==> x < s.fe.nextFetch;
      CountMember(s.ex.e4, x);
      CountMember(s.ex.w1, x);
      if x < |s.dyn| { TaggedData(cycle, opts, code, s.ex, x, s.dyn[x]); }
    }
  }
}
