/** Execution, L1D, refill, drain, retirement and flush keep the memory-order invariant. */
module MemorySteps {
  import opened Wrappers
  import opened Seqs
  import opened Model
  import opened Select
  import opened Lsu
  import opened Frontend
  import opened Commit
  import opened Residency
  import opened Alive
  import opened Timing
  import opened WellFormed
  import opened CommitOrder
  import opened MemoryOrder

  // -- E4 -----------------------------------------------------------------------------------------

  function Earlier3(ex: Exec, x: nat): nat { N(ex.e1, x) + N(ex.e2, x) + N(ex.e3, x) }

  /** `HasStarted` while E4 is being worked through. */
  ghost predicate E4Started(code: seq<Uop>, s: State, pending: seq<nat>, a: E4Stage, x: nat) {
    if UopAt(code, x).isLoad then
      HasIssued(s, x) && Earlier3(s.ex, x) + N(a.e4, x) + N(pending, x) + N(RefillSeqs(a.mem.liq), x) == 0
    else x < |s.rt.retired| && N(ScbSeqs(a.mem.scb), x) == 0
  }

  ghost predicate E4Order(code: seq<Uop>, s: State, pending: seq<nat>, a: E4Stage) {
    && a.mem.l1dLog == Range(0, |a.mem.l1dLog|) && L1dSlot(code, a.mem)
    && (forall x: nat :: UopAt(code, x).lsid.Some? ==>
          (E4Started(code, s, pending, a, x) <==> UopAt(code, x).lsid.value < |a.mem.l1dLog|))
    && (forall x :: x in pending ==> UopAt(code, x).isLoad && UopAt(code, x).lsid.Some? && HasIssued(s, x))
    && (forall x: nat :: E4Homes(s, pending, a, x) <= 1)
  }

  function E4Homes(s: State, pending: seq<nat>, a: E4Stage, x: nat): nat {
    Earlier3(s.ex, x) + N(a.e4, x) + N(pending, x) + N(RefillSeqs(a.mem.liq), x) + N(L1dSeqs(a.mem.l1d, LoadHit), x)
  }

  /** The load that starts its L1D access carries the next id. */
  lemma E4StepOrder(pending: seq<nat>, cycle: nat, opts: Options, code: seq<Uop>, s: State, a: E4Stage)
    requires MemoryIds(code) && pending != [] && E4Order(code, s, pending, a)
    ensures E4Order(code, s, pending[1..], E4One(pending[0], cycle, opts, code, a))
  {
    var y := pending[0];
    var r := E4One(y, cycle, opts, code, a);
    assert y in pending;
    forall x: nat ensures E4Homes(s, pending[1..], r, x) <= 1 {
      assert E4Homes(s, pending, a, x) <= 1;
      E4OneCopies(y, cycle, opts, code, a, x);
    }
    if !ShouldInjectMiss(opts, UopAt(code, y), DynAt(a.dyn, y)) && CacheReady(UopAt(code, y), a.mem.cachePtr)
      && CanAcceptL1d(a.mem.l1d) {
      assert N(pending, y) > 0;
      assert !E4Started(code, s, pending, a, y);
      assert UopAt(code, y).lsid.value == |a.mem.l1dLog|;
      assert r.mem.l1dLog == Range(0, |a.mem.l1dLog| + 1);
    }
    forall x: nat | UopAt(code, x).lsid.Some?
      ensures E4Started(code, s, pending[1..], r, x) <==> UopAt(code, x).lsid.value < |r.mem.l1dLog|
    {
      assert E4Started(code, s, pending, a, x) <==> UopAt(code, x).lsid.value < |a.mem.l1dLog|;
      E4StartedStep(pending, cycle, opts, code, s, a, x);
      LsidOrder(code, x, y);
      LsidOrder(code, y, x);
    }
  }

  /** One step of the E4 loop changes the status of the load that starts its access, no other. */
  lemma E4StartedStep(pending: seq<nat>, cycle: nat, opts: Options, code: seq<Uop>, s: State, a: E4Stage, x: nat)
    requires pending != [] && E4Order(code, s, pending, a)
    ensures var y, r := pending[0], E4One(pending[0], cycle, opts, code, a);
      E4Started(code, s, pending[1..], r, x) <==>
        E4Started(code, s, pending, a, x) || (x == y && |r.mem.l1dLog| > |a.mem.l1dLog|)
  {
    var y := pending[0];
    assert y in pending;
    assert E4Homes(s, pending, a, x) <= 1;
    if ShouldInjectMiss(opts, UopAt(code, y), DynAt(a.dyn, y)) {
      RefillSeqsAppend(a.mem.liq, Refill(y, RestartCycle(cycle, opts)), x);
    } else if CacheReady(UopAt(code, y), a.mem.cachePtr) && CanAcceptL1d(a.mem.l1d) {
    } else {
      CountSnoc(a.e4, y, x);
    }
  }

  lemma {:induction false} E4LoopOrder(pending: seq<nat>, cycle: nat, opts: Options, code: seq<Uop>, s: State,
                                       a: E4Stage)
    requires MemoryIds(code) && E4Order(code, s, pending, a)
    ensures E4Order(code, s, [], E4Loop(pending, cycle, opts, code, a))
    decreases |pending|
  {
    if pending != [] {
      E4StepOrder(pending, cycle, opts, code, s, a);
      E4LoopOrder(pending[1..], cycle, opts, code, s, E4One(pending[0], cycle, opts, code, a));
    }
  }

  lemma WithoutCount(q: seq<nat>, x: nat, y: nat)
    ensures N(Without(q, x), y) == if y == x then 0 else N(q, y)
  {
    RetainCount(q, (z: nat) => z != x, y);
    assert Without(q, x) == Retain(q, (z: nat) => z != x);
  }

  /** LHQ and MDB while E4 is being worked through. */
  ghost predicate E4Owners(code: seq<Uop>, s: State, pending: seq<nat>, a: E4Stage) {
    && a.mem.mdb == a.mem.liq
    && (forall x: nat :: N(a.mem.lhq, x)
          == if UopAt(code, x).isLoad
              then Earlier3(s.ex, x) + N(a.e4, x) + N(pending, x) + N(L1dSeqs(a.mem.l1d, LoadHit), x) else 0)
    && (forall x :: x in pending ==> UopAt(code, x).isLoad)
    && (forall x: nat :: E4Homes(s, pending, a, x) <= 1)
  }

  lemma E4OwnersAt(pending: seq<nat>, cycle: nat, opts: Options, code: seq<Uop>, s: State, a: E4Stage, x: nat)
    requires pending != [] && E4Owners(code, s, pending, a)
    ensures var r := E4One(pending[0], cycle, opts, code, a);
      && N(r.mem.lhq, x) == (if UopAt(code, x).isLoad
           then Earlier3(s.ex, x) + N(r.e4, x) + N(pending[1..], x) + N(L1dSeqs(r.mem.l1d, LoadHit), x) else 0)
      && E4Homes(s, pending[1..], r, x) <= 1
  {
    var y := pending[0];
    assert y in pending;
    assert E4Homes(s, pending, a, x) <= 1;
    E4OneCopies(y, cycle, opts, code, a, x);
    if ShouldInjectMiss(opts, UopAt(code, y), DynAt(a.dyn, y)) {
      WithoutCount(a.mem.lhq, y, x);
      RefillSeqsAppend(a.mem.liq, Refill(y, RestartCycle(cycle, opts)), x);
    } else if CacheReady(UopAt(code, y), a.mem.cachePtr) && CanAcceptL1d(a.mem.l1d) {
      L1dSeqsAppend(a.mem.l1d, L1dEntry(y, LoadHit, SatAdd(cycle, 1)), LoadHit, x);
    } else {
      CountSnoc(a.e4, y, x);
    }
  }

  lemma {:induction false} E4LoopOwners(pending: seq<nat>, cycle: nat, opts: Options, code: seq<Uop>, s: State,
                                        a: E4Stage)
    requires E4Owners(code, s, pending, a)
    ensures E4Owners(code, s, [], E4Loop(pending, cycle, opts, code, a))
    decreases |pending|
  {
    if pending != [] {
      var r := E4One(pending[0], cycle, opts, code, a);
      forall x: nat
        ensures && N(r.mem.lhq, x) == (if UopAt(code, x).isLoad
                   then Earlier3(s.ex, x) + N(r.e4, x) + N(pending[1..], x) + N(L1dSeqs(r.mem.l1d, LoadHit), x)
                   else 0)
                && E4Homes(s, pending[1..], r, x) <= 1
      {
        E4OwnersAt(pending, cycle, opts, code, s, a, x);
      }
      E4LoopOwners(pending[1..], cycle, opts, code, s, r);
    }
  }

  lemma {:induction false} L1dOthers(q: seq<L1dEntry>, e: L1dEntry, kind: L1dKind)
    requires e.kind != kind
    ensures L1dSeqs(q + [e], kind) == L1dSeqs(q, kind)
  {
    if q == [] {
      assert q + [e] == [e] && [e][1..] == [];
    } else {
      L1dOthers(q[1..], e, kind);
      assert (q + [e])[1..] == q[1..] + [e];
    }
  }

  lemma E4OneMem(y: nat, cycle: nat, opts: Options, code: seq<Uop>, a: E4Stage)
    ensures var r := E4One(y, cycle, opts, code, a);
      && r.mem == a.mem.(liq := r.mem.liq, mdb := r.mem.mdb, lhq := r.mem.lhq, l1d := r.mem.l1d, l1dLog := r.mem.l1dLog)
      && L1dSeqs(r.mem.l1d, StoreDrain) == L1dSeqs(a.mem.l1d, StoreDrain)
  {
    if ShouldInjectMiss(opts, UopAt(code, y), DynAt(a.dyn, y)) {
    } else if CacheReady(UopAt(code, y), a.mem.cachePtr) && CanAcceptL1d(a.mem.l1d) {
      L1dOthers(a.mem.l1d, L1dEntry(y, LoadHit, SatAdd(cycle, 1)), StoreDrain);
    } else {
    }
  }

  lemma {:induction false} E4LoopMem(pending: seq<nat>, cycle: nat, opts: Options, code: seq<Uop>, a: E4Stage)
    ensures var r := E4Loop(pending, cycle, opts, code, a);
      && r.mem == a.mem.(liq := r.mem.liq, mdb := r.mem.mdb, lhq := r.mem.lhq, l1d := r.mem.l1d, l1dLog := r.mem.l1dLog)
      && L1dSeqs(r.mem.l1d, StoreDrain) == L1dSeqs(a.mem.l1d, StoreDrain)
  {
    if pending != [] {
      E4OneMem(pending[0], cycle, opts, code, a);
      E4LoopMem(pending[1..], cycle, opts, code, E4One(pending[0], cycle, opts, code, a));
    }
  }

  // -- Stage moves --------------------------------------------------------------------------------

  function LoadStages(ex: Exec, x: nat): nat { N(ex.e1, x) + N(ex.e2, x) + N(ex.e3, x) + N(ex.e4, x) }

  lemma E1OneLoads(y: nat, code: seq<Uop>, ex: Exec, x: nat)
    requires UopAt(code, x).isLoad
    ensures LoadStages(E1One(y, code, ex), x) == LoadStages(ex, x) + (if x == y then 1 else 0)
  {
    if UopAt(code, y).isLoad && |ex.e2| < LSU_WIDTH {
      CountSnoc(ex.e2, y, x);
    } else if !UopAt(code, y).isLoad && |ex.w1| < ISSUE_WIDTH {
    } else {
      CountSnoc(ex.e1, y, x);
    }
  }

  lemma {:induction false} E1LoopLoads(pending: seq<nat>, code: seq<Uop>, ex: Exec, x: nat)
    requires UopAt(code, x).isLoad
    ensures LoadStages(E1Loop(pending, code, ex), x) == LoadStages(ex, x) + N(pending, x)
  {
    if pending != [] {
      E1OneLoads(pending[0], code, ex, x);
      E1LoopLoads(pending[1..], code, E1One(pending[0], code, ex), x);
    }
  }

  /** The moves keep every load in E1-E4. */
  lemma MovesLoads(ex: Exec, code: seq<Uop>, e4: seq<nat>, x: nat)
    requires UopAt(code, x).isLoad
    ensures LoadStages(AdvanceE1(code, E2ToE3(E3ToE4(W1ToW2(ex).(e4 := e4)))), x) == Earlier3(ex, x) + N(e4, x)
  {
    var a := W1ToW2(ex).(e4 := e4);
    var b := E3ToE4(a);
    CountMove(a.e4, a.e3, MoveCount(a.e4, a.e3, LSU_WIDTH), x);
    var c := E2ToE3(b);
    CountMove(b.e3, b.e2, MoveCount(b.e3, b.e2, LSU_WIDTH), x);
    E1LoopLoads(c.e1, code, c.(e1 := []), x);
  }

  lemma E4Setup(code: seq<Uop>, s: State, x: nat)
    requires MemoryIds(code) && AliveState(code, s) && Loads(code, s.ex.e4)
    ensures E4Homes(s, s.ex.e4, E4Stage([], s.mem, s.dyn), x) <= 1
    ensures x in s.ex.e4 ==> UopAt(code, x).isLoad && UopAt(code, x).lsid.Some? && HasIssued(s, x)
    ensures HasStarted(code, s, x) <==> E4Started(code, s, s.ex.e4, E4Stage([], s.mem, s.dyn), x)
  {
    assert Copies(s, x) <= 1 && (Copies(s, x) > 0 ==> x < s.fe.nextFetch);
    CountMember(s.ex.e4, x);
  }

  lemma ExecuteL1dOrder(cycle: nat, opts: Options, code: seq<Uop>, s: State)
    requires MemoryIds(code) && AliveState(code, s) && Loads(code, s.ex.e4) && L1dOrder(code, s)
    ensures L1dOrder(code, AdvanceExecute(cycle, opts, code, s))
  {
    var start := E4Stage([], s.mem, s.dyn);
    var a := AdvanceE4(cycle, opts, code, s);
    var r := AdvanceExecute(cycle, opts, code, s);
    forall x: nat
      ensures E4Homes(s, s.ex.e4, start, x) <= 1
      ensures x in s.ex.e4 ==> UopAt(code, x).isLoad && UopAt(code, x).lsid.Some? && HasIssued(s, x)
      ensures HasStarted(code, s, x) <==> E4Started(code, s, s.ex.e4, start, x)
    {
      E4Setup(code, s, x);
    }
    assert E4Order(code, s, s.ex.e4, start);
    E4LoopOrder(s.ex.e4, cycle, opts, code, s, start);
    forall x: nat ensures HasStarted(code, r, x) <==> E4Started(code, s, [], a, x) {
      if UopAt(code, x).isLoad { MovesLoads(s.ex, code, a.e4, x); }
    }
  }

  lemma ExecuteLoadQueues(cycle: nat, opts: Options, code: seq<Uop>, s: State)
    requires MemoryIds(code) && AliveState(code, s) && Loads(code, s.ex.e4) && LoadQueues(code, s.ex, s.mem)
    ensures var r := AdvanceExecute(cycle, opts, code, s); LoadQueues(code, r.ex, r.mem)
  {
    var start := E4Stage([], s.mem, s.dyn);
    var a := AdvanceE4(cycle, opts, code, s);
    var r := AdvanceExecute(cycle, opts, code, s);
    forall x: nat ensures E4Homes(s, s.ex.e4, start, x) <= 1 { E4Setup(code, s, x); }
    assert E4Owners(code, s, s.ex.e4, start);
    E4LoopOwners(s.ex.e4, cycle, opts, code, s, start);
    forall x: nat ensures N(r.mem.lhq, x) == if UopAt(code, x).isLoad then LoadHomes(r.ex, r.mem, x) else 0 {
      if UopAt(code, x).isLoad { MovesLoads(s.ex, code, a.e4, x); }
    }
  }

  lemma ExecuteRest(cycle: nat, opts: Options, code: seq<Uop>, s: State)
    requires IssueOrder(code, s) && StoreQueues(code, s)
    ensures var r := AdvanceExecute(cycle, opts, code, s); IssueOrder(code, r) && StoreQueues(code, r)
  {
    var start := E4Stage([], s.mem, s.dyn);
    var r := AdvanceExecute(cycle, opts, code, s);
    E4LoopMem(s.ex.e4, cycle, opts, code, start);
    forall x: nat ensures HasIssued(r, x) <==> HasIssued(s, x) {}
    forall x: nat ensures N(r.mem.stq, x) == if InStq(code, r, x) then 1 else 0 {
      assert N(s.mem.stq, x) == if InStq(code, s, x) then 1 else 0;
    }
  }

  lemma ExecuteMemory(cycle: nat, opts: Options, code: seq<Uop>, s: State)
    requires MemoryIds(code) && AliveState(code, s) && Loads(code, s.ex.e4) && MemInv(code, s)
    ensures MemInv(code, AdvanceExecute(cycle, opts, code, s))
  {
    ExecuteL1dOrder(cycle, opts, code, s);
    ExecuteLoadQueues(cycle, opts, code, s);
    ExecuteRest(cycle, opts, code, s);
  }

  // -- L1D completion -----------------------------------------------------------------------------

  /** The slot holds at most one transaction, so the loop completes it or leaves everything alone. */
  lemma L1dAlone(cycle: nat, s: State)
    requires |s.mem.l1d| <= 1
    ensures var r := AdvanceL1d(cycle, s);
      s.mem.l1d == [] || r == s
      || (var e := s.mem.l1d[0];
          r.mem == s.mem.(l1d := [], cachePtr := s.mem.cachePtr + 1,
              lhq := if e.kind == LoadHit then Without(s.mem.lhq, e.seqNo) else s.mem.lhq)
          && r.ex == s.ex.(w1 := if e.kind == LoadHit then s.ex.w1 + [e.seqNo] else s.ex.w1)
          && r == s.(mem := r.mem, ex := r.ex))
    ensures s.mem.l1d == [] ==> AdvanceL1d(cycle, s) == s
  {
    if |s.mem.l1d| == 1 {
      var e := s.mem.l1d[0];
      var a := L1dStage(s.ex.w1, s.mem.(l1d := []));
      assert s.mem.l1d[1..] == [];
      assert L1dLoop(s.mem.l1d, cycle, a) == L1dOne(e, cycle, a);
      if e.readyCycle > cycle || (e.kind == LoadHit && |a.w1| >= ISSUE_WIDTH) {
        assert a.mem.l1d + [e] == s.mem.l1d;
        assert L1dOne(e, cycle, a) == L1dStage(s.ex.w1, s.mem);
      }
    }
  }

  lemma L1dMemory(cycle: nat, code: seq<Uop>, s: State)
    requires AliveState(code, s) && MemInv(code, s) && MemKinds(code, s.mem)
    ensures MemInv(code, AdvanceL1d(cycle, s))
  {
    var r := AdvanceL1d(cycle, s);
    L1dAlone(cycle, s);
    if r != s {
      var e := s.mem.l1d[0];
      forall x: nat ensures N(L1dSeqs(s.mem.l1d, LoadHit), x) == if e.kind == LoadHit && x == e.seqNo then 1 else 0 {
        L1dSeqsHead(s.mem.l1d, LoadHit, x);
      }
      L1dCompletes(code, s, r, e);
    }
  }

  lemma L1dCompletes(code: seq<Uop>, s: State, r: State, e: L1dEntry)
    requires AliveState(code, s) && MemInv(code, s) && MemKinds(code, s.mem) && s.mem.l1d == [e]
    requires forall x: nat :: N(L1dSeqs(s.mem.l1d, LoadHit), x) == if e.kind == LoadHit && x == e.seqNo then 1 else 0
    requires r.mem == s.mem.(l1d := [], cachePtr := s.mem.cachePtr + 1,
        lhq := if e.kind == LoadHit then Without(s.mem.lhq, e.seqNo) else s.mem.lhq)
    requires r.ex == s.ex.(w1 := r.ex.w1) && r == s.(mem := r.mem, ex := r.ex)
    ensures MemInv(code, r)
  {
    forall x: nat
      ensures HasIssued(r, x) <==> HasIssued(s, x)
      ensures HasStarted(code, r, x) <==> HasStarted(code, s, x)
      ensures N(r.mem.stq, x) == if InStq(code, r, x) then 1 else 0
    {
      assert N(s.mem.stq, x) == if InStq(code, s, x) then 1 else 0;
    }
    forall x: nat ensures N(r.mem.lhq, x) == if UopAt(code, x).isLoad then LoadHomes(r.ex, r.mem, x) else 0 {
      assert N(s.mem.lhq, x) == if UopAt(code, x).isLoad then LoadHomes(s.ex, s.mem, x) else 0;
      assert Copies(s, x) <= 1;
      WithoutCount(s.mem.lhq, e.seqNo, x);
    }
  }

  // -- Refill -------------------------------------------------------------------------------------

  lemma {:induction false} RetainIsRemove(q: seq<Refill>, i: nat)
    requires i < |q| && forall j :: 0 <= j < |q| && j != i ==> q[j].seqNo != q[i].seqNo
    ensures Retain(q, (r: Refill) => r.seqNo != q[i].seqNo) == RemoveAt(q, i)
  {
    var x := q[i].seqNo;
    if i == 0 {
      RetainAll(q[1..], (r: Refill) => r.seqNo != x);
    } else {
      assert q[1..][i - 1] == q[i];
      RetainIsRemove(q[1..], i - 1);
      assert RemoveAt(q, i) == [q[0]] + RemoveAt(q[1..], i - 1);
    }
  }

  lemma LiqDistinct(code: seq<Uop>, s: State, i: nat, j: nat)
    requires AliveState(code, s) && i < |s.mem.liq| && j < |s.mem.liq| && i != j
    ensures s.mem.liq[i].seqNo != s.mem.liq[j].seqNo
  {
    var q := RefillSeqs(s.mem.liq);
    assert Copies(s, q[i]) <= 1;
    if q[i] == q[j] { CountTwo(q, if i < j then i else j, if i < j then j else i); }
  }

  lemma LiqLoads(code: seq<Uop>, s: State, i: nat, x: nat)
    requires AliveState(code, s) && LoadQueues(code, s.ex, s.mem) && MemKinds(code, s.mem) && i < |s.mem.liq|
    ensures var y, ex := s.mem.liq[i].seqNo, s.ex.(e1 := s.ex.e1 + [s.mem.liq[i].seqNo]);
      && N(InsertOnce(s.mem.lhq, y), x) == (if UopAt(code, x).isLoad then LoadHomes(ex, s.mem, x) else 0)
      && BeforeL1d(ex, s.mem.(liq := RemoveAt(s.mem.liq, i)), x) == BeforeL1d(s.ex, s.mem, x)
  {
    var q, y := RefillSeqs(s.mem.liq), s.mem.liq[i].seqNo;
    assert q[i] in q;
    CountMember(q, y);
    assert Copies(s, y) <= 1;
    assert N(s.mem.lhq, x) == if UopAt(code, x).isLoad then LoadHomes(s.ex, s.mem, x) else 0;
    assert N(s.mem.lhq, y) == if UopAt(code, y).isLoad then LoadHomes(s.ex, s.mem, y) else 0;
    InsertOnceCount(s.mem.lhq, y, x);
    CountSnoc(s.ex.e1, y, x);
    assert RefillSeqs(RemoveAt(s.mem.liq, i)) == RemoveAt(q, i);
    CountRemoveAt(q, i, x);
  }

  lemma LiqMemory(cycle: nat, code: seq<Uop>, s: State)
    requires AliveState(code, s) && MemInv(code, s) && MemKinds(code, s.mem)
    ensures MemInv(code, AdvanceLiq(cycle, code, s))
  {
    var i := RefillChoice(cycle, code, s);
    if i.Some? {
      forall j | 0 <= j < |s.mem.liq| && j != i.value ensures s.mem.liq[j].seqNo != s.mem.liq[i.value].seqNo {
        LiqDistinct(code, s, i.value, j);
      }
      RetainIsRemove(s.mem.liq, i.value);
      LiqMoves(code, s, AdvanceLiq(cycle, code, s), i.value);
    }
  }

  lemma LiqMoves(code: seq<Uop>, s: State, r: State, i: nat)
    requires AliveState(code, s) && MemInv(code, s) && MemKinds(code, s.mem) && i < |s.mem.liq|
    requires r.mem == s.mem.(liq := RemoveAt(s.mem.liq, i), mdb := RemoveAt(s.mem.mdb, i),
        lhq := InsertOnce(s.mem.lhq, s.mem.liq[i].seqNo))
    requires r == s.(mem := r.mem, ex := s.ex.(e1 := s.ex.e1 + [s.mem.liq[i].seqNo]), dyn := r.dyn)
    ensures MemInv(code, r)
  {
    forall x: nat
      ensures HasIssued(r, x) <==> HasIssued(s, x)
      ensures HasStarted(code, r, x) <==> HasStarted(code, s, x)
      ensures N(r.mem.lhq, x) == if UopAt(code, x).isLoad then LoadHomes(r.ex, r.mem, x) else 0
      ensures N(r.mem.stq, x) == if InStq(code, r, x) then 1 else 0
    {
      LiqLoads(code, s, i, x);
      assert N(s.mem.stq, x) == if InStq(code, s, x) then 1 else 0;
    }
  }

  // -- Store drain --------------------------------------------------------------------------------

  /** The store that starts draining carries the next id. */
  lemma DrainMemory(cycle: nat, code: seq<Uop>, s: State)
    requires MemoryIds(code) && MemInv(code, s)
    ensures MemInv(code, AdvanceScb(cycle, code, s))
  {
    var i := DrainChoice(cycle, code, s.mem);
    if i.Some? {
      var x := s.mem.scb[i.value].seqNo;
      assert ScbSeqs(s.mem.scb)[i.value] == x && x in ScbSeqs(s.mem.scb);
      CountMember(ScbSeqs(s.mem.scb), x);
      assert UopAt(code, x).isStore && UopAt(code, x).lsid.Some?;
      assert !HasStarted(code, s, x);
      assert UopAt(code, x).lsid.value == |s.mem.l1dLog|;
      DrainStarts(cycle, code, s, AdvanceScb(cycle, code, s), i.value, x);
    }
  }

  lemma DrainCounts(s: State, i: nat, e: L1dEntry, y: nat)
    requires i < |s.mem.scb| && e.seqNo == s.mem.scb[i].seqNo && e.kind == StoreDrain
      && N(ScbSeqs(s.mem.scb), e.seqNo) <= 1
    ensures N(ScbSeqs(RemoveAt(s.mem.scb, i)), y) == if y == e.seqNo then 0 else N(ScbSeqs(s.mem.scb), y)
    ensures L1dSeqs(s.mem.l1d + [e], LoadHit) == L1dSeqs(s.mem.l1d, LoadHit)
    ensures N(L1dSeqs(s.mem.l1d + [e], StoreDrain), y)
        == N(L1dSeqs(s.mem.l1d, StoreDrain), y) + (if y == e.seqNo then 1 else 0)
  {
    var q := ScbSeqs(s.mem.scb);
    assert ScbSeqs(RemoveAt(s.mem.scb, i)) == RemoveAt(q, i);
    CountRemoveAt(q, i, y);
    CountRemoveAt(q, i, q[i]);
    L1dOthers(s.mem.l1d, e, LoadHit);
    L1dSeqsAppend(s.mem.l1d, e, StoreDrain, y);
  }

  lemma DrainStarts(cycle: nat, code: seq<Uop>, s: State, r: State, i: nat, x: nat)
    requires MemoryIds(code) && MemInv(code, s) && i < |s.mem.scb| && s.mem.l1d == [] && x == s.mem.scb[i].seqNo
    requires x < |s.rt.retired| && UopAt(code, x).isStore && UopAt(code, x).lsid == Some(|s.mem.l1dLog|)
      && s.mem.cachePtr == |s.mem.l1dLog|
    requires r == s.(mem := s.mem.(scb := RemoveAt(s.mem.scb, i),
                                   l1d := s.mem.l1d + [L1dEntry(x, StoreDrain, SatAdd(cycle, 1))],
                                   l1dLog := s.mem.l1dLog + [UopAt(code, x).lsid.value]))
    ensures MemInv(code, r)
  {
    var e := L1dEntry(x, StoreDrain, SatAdd(cycle, 1));
    assert N(ScbSeqs(s.mem.scb), x) <= 1;
    assert r.mem.l1dLog == Range(0, |s.mem.l1dLog| + 1);
    forall y: nat
      ensures HasIssued(r, y) <==> HasIssued(s, y)
      ensures UopAt(code, y).lsid.Some? ==> (HasStarted(code, r, y) <==> UopAt(code, y).lsid.value < |r.mem.l1dLog|)
      ensures N(ScbSeqs(r.mem.scb), y) <= 1
      ensures N(r.mem.stq, y) == if InStq(code, r, y) then 1 else 0
      ensures y in ScbSeqs(r.mem.scb) || y in L1dSeqs(r.mem.l1d, StoreDrain) ==>
        UopAt(code, y).isStore && y < |r.rt.retired|
    {
      DrainCounts(s, i, e, y);
      DrainAt(code, s, r, x, y);
    }
    L1dOthers(s.mem.l1d, e, LoadHit);
  }

  lemma DrainAt(code: seq<Uop>, s: State, r: State, x: nat, y: nat)
    requires MemoryIds(code) && MemInv(code, s) && x < |s.rt.retired| && UopAt(code, x).isStore
      && UopAt(code, x).lsid == Some(|s.mem.l1dLog|)
    requires r == s.(mem := s.mem.(scb := r.mem.scb, l1d := r.mem.l1d, l1dLog := r.mem.l1dLog))
      && |r.mem.l1dLog| == |s.mem.l1dLog| + 1
    requires N(ScbSeqs(r.mem.scb), y) == if y == x then 0 else N(ScbSeqs(s.mem.scb), y)
    requires N(L1dSeqs(r.mem.l1d, StoreDrain), y) == N(L1dSeqs(s.mem.l1d, StoreDrain), y) + (if y == x then 1 else 0)
    ensures HasIssued(r, y) <==> HasIssued(s, y)
    ensures UopAt(code, y).lsid.Some? ==> (HasStarted(code, r, y) <==> UopAt(code, y).lsid.value < |r.mem.l1dLog|)
    ensures N(ScbSeqs(r.mem.scb), y) <= 1
    ensures N(r.mem.stq, y) == if InStq(code, r, y) then 1 else 0
    ensures y in ScbSeqs(r.mem.scb) || y in L1dSeqs(r.mem.l1d, StoreDrain) ==>
      UopAt(code, y).isStore && y < |r.rt.retired|
  {
    assert N(ScbSeqs(s.mem.scb), y) <= 1;
    assert N(s.mem.stq, y) == if InStq(code, s, y) then 1 else 0;
    assert UopAt(code, y).lsid.Some? ==> (HasStarted(code, s, y) <==> UopAt(code, y).lsid.value < |s.mem.l1dLog|);
    if UopAt(code, y).lsid.Some? { LsidOrder(code, x, y); LsidOrder(code, y, x); }
    CountMember(ScbSeqs(r.mem.scb), y);
    CountMember(ScbSeqs(s.mem.scb), y);
    CountMember(L1dSeqs(r.mem.l1d, StoreDrain), y);
    CountMember(L1dSeqs(s.mem.l1d, StoreDrain), y);
  }

  // -- Retirement ---------------------------------------------------------------------------------

  /** The state while the retire loop is at `a`. */
  function Retiring(s: State, a: Retirer): State {
    s.(rt := a.rt, q := s.q.(ready := a.ready), mem := s.mem.(stq := a.stq, scb := a.scb))
  }

  lemma RetireOneAt(cycle: nat, code: seq<Uop>, s: State, a: Retirer, y: nat)
    requires MemoryIds(code) && MemInv(code, Retiring(s, a)) && a.rt.rob != [] && a.rt.rob[0] == |a.rt.retired|
    ensures var t, r := Retiring(s, a), Retiring(s, RetireOne(cycle, code, a));
      && (HasIssued(r, y) <==> HasIssued(t, y))
      && (UopAt(code, y).lsid.Some? ==> (HasStarted(code, r, y) <==> HasStarted(code, t, y)))
      && N(r.mem.stq, y) == (if InStq(code, r, y) then 1 else 0)
      && N(ScbSeqs(r.mem.scb), y) <= 1
      && (y in ScbSeqs(r.mem.scb) || y in L1dSeqs(r.mem.l1d, StoreDrain) ==>
            UopAt(code, y).isStore && y < |r.rt.retired|)
  {
    var x, t := a.rt.rob[0], Retiring(s, a);
    assert N(t.mem.stq, y) == if InStq(code, t, y) then 1 else 0;
    assert N(ScbSeqs(t.mem.scb), y) <= 1;
    CountMember(ScbSeqs(t.mem.scb), y);
    assert ScbSeqs(a.scb + [ScbEntry(x, cycle)]) == ScbSeqs(a.scb) + [x];
    CountSnoc(ScbSeqs(a.scb), x, y);
    WithoutCount(a.stq, x, y);
  }

  lemma {:induction false} RetireLoopMemory(limit: nat, cycle: nat, code: seq<Uop>, dyn: seq<Dyn>, s: State, a: Retirer)
    requires MemoryIds(code) && MemInv(code, Retiring(s, a)) && Retired(code, dyn, a.rt)
    ensures MemInv(code, Retiring(s, RetireLoop(limit, cycle, code, dyn, a)))
    decreases limit - |a.rt.retired|
  {
    if |a.rt.retired| >= limit || a.rt.rob == [] || DynAt(dyn, a.rt.rob[0]).done.None? {
    } else {
      var b := RetireOne(cycle, code, a);
      RetireOneFacts(cycle, code, dyn, a);
      RetireOneMemory(cycle, code, s, a);
      RetireLoopMemory(limit, cycle, code, dyn, s, b);
    }
  }

  lemma RetireOneMemory(cycle: nat, code: seq<Uop>, s: State, a: Retirer)
    requires MemoryIds(code) && MemInv(code, Retiring(s, a)) && a.rt.rob != [] && a.rt.rob[0] == |a.rt.retired|
    ensures MemInv(code, Retiring(s, RetireOne(cycle, code, a)))
  {
    var t, r := Retiring(s, a), Retiring(s, RetireOne(cycle, code, a));
    forall y: nat
      ensures HasIssued(r, y) <==> HasIssued(t, y)
      ensures UopAt(code, y).lsid.Some? ==> (HasStarted(code, r, y) <==> UopAt(code, y).lsid.value < |r.mem.l1dLog|)
      ensures N(r.mem.stq, y) == if InStq(code, r, y) then 1 else 0
      ensures N(ScbSeqs(r.mem.scb), y) <= 1
      ensures y in ScbSeqs(r.mem.scb) || y in L1dSeqs(r.mem.l1d, StoreDrain) ==>
        UopAt(code, y).isStore && y < |r.rt.retired|
    {
      RetireOneAt(cycle, code, s, a, y);
      assert UopAt(code, y).lsid.Some? ==> (HasStarted(code, t, y) <==> UopAt(code, y).lsid.value < |t.mem.l1dLog|);
    }
  }

  lemma RetireMemory(cycle: nat, code: seq<Uop>, s: State)
    requires MemoryIds(code) && MemInv(code, s) && CommitInv(code, s)
    ensures MemInv(code, RetireReady(cycle, code, s))
  {
    var a := Retirer(s.rt, s.q.ready, s.mem.stq, s.mem.scb);
    assert Retiring(s, a) == s;
    RetireLoopMemory(|s.rt.retired| + COMMIT_WIDTH, cycle, code, s.dyn, s, a);
  }
}
