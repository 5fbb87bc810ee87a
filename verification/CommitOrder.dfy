/** In-order commit on coherent runs: the reorder buffer is a window of consecutive sequence
    numbers and the retired uops are exactly the stream up to it. */
module CommitOrder {
  import opened Wrappers
  import opened Seqs
  import opened Model
  import opened Select
  import opened Lsu
  import opened Frontend
  import opened Recovery
  import opened Commit
  import opened Residency
  import opened Alive
  import opened StageSteps
  import opened Conserve

  const D1: nat := 6

  /** F0 to D1 are the first seven of the eleven frontend stages. */
  function ThroughD1(front: Front): nat { |front| - 4 }

  /** The first `n` frontend stages, oldest uop first. */
  function Fifo(front: seq<seq<nat>>, n: nat): seq<nat>
    requires n <= |front|
  {
    if n == 0 then [] else front[n - 1] + Fifo(front, n - 1)
  }

  /** Equal up to the cycle and trap fields that retirement fills in. */
  predicate SameCommit(a: CommitRecord, b: CommitRecord) {
    a == b.(cycle := a.cycle, trapValid := a.trapValid, trapCause := a.trapCause, trapArg0 := a.trapArg0)
  }

  ghost predicate Retired(code: seq<Uop>, dyn: seq<Dyn>, rt: Retire) {
    && rt.retired == Range(0, |rt.retired|)
    && |rt.committed| == |rt.retired|
    && (forall i :: 0 <= i < |rt.retired| ==> SameCommit(rt.committed[i], UopAt(code, i).commit))
    && (forall x: nat :: x < |rt.retired| ==> DynAt(dyn, x).done.Some?)
    && rt.rob == Range(|rt.retired|, |rt.retired| + |rt.rob|)
  }

  /** Fetch up to D1 is a queue of consecutive uops ending at the last one fetched, and the reorder
      buffer ends somewhere in D1. */
  predicate Window(fe: Fetch, rt: Retire) {
    var t := Fifo(fe.front, ThroughD1(fe.front));
    var robEnd := |rt.retired| + |rt.rob|;
    && |t| <= fe.nextFetch && t == Range(fe.nextFetch - |t|, fe.nextFetch)
    && fe.nextFetch - |t| <= robEnd <= fe.nextFetch - |t| + |fe.front[D1]|
    && |rt.rob| <= ROB_CAPACITY
  }

  ghost predicate CommitInv(code: seq<Uop>, s: State) { Retired(code, s.dyn, s.rt) && Window(s.fe, s.rt) }

  // -- Frontend -----------------------------------------------------------------------------------

  lemma {:induction false} FifoUpdateAbove(front: seq<seq<nat>>, i: nat, q: seq<nat>, n: nat)
    requires n <= i < |front|
    ensures Fifo(front[i := q], n) == Fifo(front, n)
  {
    if n > 0 { FifoUpdateAbove(front, i, q, n - 1); }
  }

  lemma Regroup(a: seq<nat>, q: seq<nat>, c: nat, z: seq<nat>)
    requires c <= |q|
    ensures (a + q[..c]) + (q[c..] + z) == a + (q + z)
  {
  }

  lemma FifoMoveBase(idx: nat, front: Front, n: nat)
    requires 1 <= idx < STAGES && n == idx + 1
    ensures Fifo(MoveStage(idx, front), n) == Fifo(front, n)
  {
    var q, below: nat := front[idx - 1], idx - 1;
    var c := MoveCount(front[idx], q, DISPATCH_WIDTH);
    var mid := front[idx := front[idx] + q[..c]];
    var r := MoveStage(idx, front);
    FifoUpdateAbove(front, idx, front[idx] + q[..c], below);
    FifoUpdateAbove(mid, below, q[c..], below);
    assert r[idx] == front[idx] + q[..c] && r[below] == q[c..];
    assert Fifo(r, n) == r[idx] + Fifo(r, idx) && Fifo(r, idx) == r[below] + Fifo(r, below);
    assert Fifo(front, n) == front[idx] + Fifo(front, idx) && Fifo(front, idx) == q + Fifo(front, below);
    Regroup(front[idx], q, c, Fifo(front, below));
  }

  lemma {:induction false} FifoMoveWithin(idx: nat, front: Front, n: nat)
    requires 1 <= idx < n <= STAGES
    ensures Fifo(MoveStage(idx, front), n) == Fifo(front, n)
    decreases n
  {
    if n > idx + 1 {
      FifoMoveWithin(idx, front, n - 1);
      assert MoveStage(idx, front)[n - 1] == front[n - 1];
    } else {
      FifoMoveBase(idx, front, n);
    }
  }

  lemma FifoMoveOut(idx: nat, front: Front)
    requires 1 <= idx < STAGES
    ensures var c := MoveCount(front[idx], front[idx - 1], DISPATCH_WIDTH);
      Fifo(MoveStage(idx, front), idx) == Fifo(front, idx)[c..]
  {
    var c := MoveCount(front[idx], front[idx - 1], DISPATCH_WIDTH);
    var mid := front[idx := front[idx] + front[idx - 1][..c]];
    FifoUpdateAbove(front, idx, front[idx] + front[idx - 1][..c], idx - 1);
    FifoUpdateAbove(mid, idx - 1, front[idx - 1][c..], idx - 1);
  }

  lemma FifoMoveAbove(idx: nat, front: Front, n: nat)
    requires 1 <= idx < STAGES && n < idx
    ensures Fifo(MoveStage(idx, front), n) == Fifo(front, n) && (n > 0 ==> MoveStage(idx, front)[n - 1] == front[n - 1])
  {
    var c := MoveCount(front[idx], front[idx - 1], DISPATCH_WIDTH);
    var mid := front[idx := front[idx] + front[idx - 1][..c]];
    FifoUpdateAbove(front, idx, front[idx] + front[idx - 1][..c], n);
    FifoUpdateAbove(mid, idx - 1, front[idx - 1][c..], n);
  }

  /** Allocating consecutive uops extends the window up to their end. */
  lemma {:induction false} AllocateWindow(f: nat, e: nat, k: nat, m: nat, q: seq<nat>, rob: seq<nat>)
    requires k <= f <= m <= e && q == Range(f, e) && rob == Range(k, m)
    ensures AllocateRob(q, rob) == Range(k, e)
    decreases e - f
  {
    if f < e {
      assert q[1..] == Range(f + 1, e);
      if f < m {
        assert rob[f - k] == f;
        AllocateWindow(f + 1, e, k, m, q[1..], rob);
      } else {
        assert rob + [f] == Range(k, m + 1);
        AllocateWindow(f + 1, e, k, m + 1, q[1..], rob + [f]);
      }
    }
  }

  /** Only the part past the window needs slots. */
  lemma {:induction false} NewSlots(f: nat, e: nat, k: nat, m: nat, q: seq<nat>, rob: seq<nat>)
    requires k <= f && m <= e && f <= e && q == Range(f, e) && rob == Range(k, m)
    ensures |NotInRob(q, rob)| == if f <= m then e - m else e - f
    decreases e - f
  {
    if f < e {
      assert q[1..] == Range(f + 1, e);
      if f < m { assert rob[f - k] == f; }
      NewSlots(f + 1, e, k, m, q[1..], rob);
    }
  }

  /** `t` holds the uops fetched last, `d1` of them in D1, and `rob` continues from `k` into D1. */
  predicate WindowOf(nextFetch: nat, k: nat, t: seq<nat>, d1: nat, rob: seq<nat>) {
    && |t| <= nextFetch && t == Range(nextFetch - |t|, nextFetch) && k <= nextFetch - |t|
    && rob == Range(k, k + |rob|)
    && nextFetch - |t| <= k + |rob| <= nextFetch - |t| + d1
    && |rob| <= ROB_CAPACITY
  }

  predicate StagesWindow(nextFetch: nat, k: nat, a: Stages) {
    WindowOf(nextFetch, k, Fifo(a.front, ThroughD1(a.front)), |a.front[D1]|, a.rob)
  }

  lemma D1Window(nextFetch: nat, k: nat, a: Stages, f: nat)
    requires StagesWindow(nextFetch, k, a) && f == nextFetch - |Fifo(a.front, ThroughD1(a.front))|
    ensures a.front[D1] == Range(f, f + |a.front[D1]|)
  {
    var n := ThroughD1(a.front);
    var t := Fifo(a.front, n);
    assert t == a.front[n - 1] + Fifo(a.front, n - 1);
    assert a.front[D1] == t[..|a.front[D1]|];
  }

  /** `c` uops leave D1 once all of D1 is in the buffer. */
  lemma MovedWindow(nextFetch: nat, k: nat, t: seq<nat>, d1: nat, rob: seq<nat>, c: nat, next: seq<nat>)
    requires WindowOf(nextFetch, k, t, d1, rob) && c <= d1 <= |t|
    requires next == Range(k, nextFetch - |t| + d1) && |next| <= ROB_CAPACITY
    ensures WindowOf(nextFetch, k, t[c..], d1 - c, next)
  {
    DropRange(nextFetch - |t|, nextFetch, c);
  }

  lemma LeaveD1(nextFetch: nat, k: nat, a: Stages)
    requires StagesWindow(nextFetch, k, a)
    ensures StagesWindow(nextFetch, k, AdvanceStage(7, a))
  {
    var n := ThroughD1(a.front);
    var f, q := nextFetch - |Fifo(a.front, n)|, a.front[D1];
    D1Window(nextFetch, k, a, f);
    AllocateWindow(f, f + |q|, k, k + |a.rob|, q, a.rob);
    NewSlots(f, f + |q|, k, k + |a.rob|, q, a.rob);
    if |a.rob| + |NotInRob(q, a.rob)| <= ROB_CAPACITY {
      FifoMoveOut(n, a.front);
      D1Prefix(a.front);
      var c := MoveCount(a.front[n], q, DISPATCH_WIDTH);
      MovedWindow(nextFetch, k, Fifo(a.front, n), |q|, a.rob, c, AllocateRob(q, a.rob));
    }
  }

  lemma D1Prefix(front: Front)
    ensures |front[D1]| <= |Fifo(front, ThroughD1(front))|
  {
    var n := ThroughD1(front);
    assert Fifo(front, n) == front[n - 1] + Fifo(front, n - 1);
  }

  lemma DropRange(lo: nat, hi: nat, c: nat)
    requires c <= |Range(lo, hi)|
    ensures Range(lo, hi)[c..] == Range(lo + c, hi)
  {
  }

  lemma OtherStage(idx: nat, nextFetch: nat, k: nat, a: Stages)
    requires 1 <= idx < STAGES && idx != 7 && StagesWindow(nextFetch, k, a)
    ensures StagesWindow(nextFetch, k, AdvanceStage(idx, a))
  {
    if idx > 7 { FifoMoveAbove(idx, a.front, ThroughD1(a.front)); } else {
      FifoMoveWithin(idx, a.front, ThroughD1(a.front));
    }
  }

  lemma {:induction false} StagesKeepWindow(idx: nat, nextFetch: nat, k: nat, a: Stages)
    requires idx < STAGES && StagesWindow(nextFetch, k, a)
    ensures StagesWindow(nextFetch, k, AdvanceStages(idx, a))
    decreases idx
  {
    if idx > 0 {
      if idx == 7 { LeaveD1(nextFetch, k, a); } else { OtherStage(idx, nextFetch, k, a); }
      StagesKeepWindow(idx - 1, nextFetch, k, AdvanceStage(idx, a));
    }
  }

  /** No retired uop is left in the frontend. */
  lemma RetiredBeforeFront(code: seq<Uop>, s: State)
    requires AliveState(code, s) && Exact(s) && CommitInv(code, s)
    ensures |s.rt.retired| <= s.fe.nextFetch - |Fifo(s.fe.front, ThroughD1(s.fe.front))|
  {
    var t := Fifo(s.fe.front, ThroughD1(s.fe.front));
    var f: nat := s.fe.nextFetch - |t|;
    assert t == s.fe.front[D1] + Fifo(s.fe.front, ThroughD1(s.fe.front) - 1);
    if |t| > 0 {
      assert t[0] == f;
      FifoMember(s.fe.front, ThroughD1(s.fe.front), f);
      StageCountMember(s.fe.front, STAGES, f);
      FrontNotRetired(code, s, f);
    }
  }

  lemma FrontNotRetired(code: seq<Uop>, s: State, x: nat)
    requires Exact(s) && CommitInv(code, s) && FrontN(s.fe.front, x) > 0
    ensures x >= |s.rt.retired|
  {
    assert Copies(s, x) == Pend(s.fe.nextFetch, s.dyn, x);
  }

  lemma {:induction false} FifoMember(front: seq<seq<nat>>, n: nat, x: nat)
    requires n <= |front| && x in Fifo(front, n)
    ensures exists i :: 0 <= i < n && x in front[i]
  {
    if x in front[n - 1] {
      assert 0 <= n - 1 < n;
    } else {
      FifoMember(front, n - 1, x);
      var i :| 0 <= i < n - 1 && x in front[i];
    }
  }

  lemma WindowBefore(code: seq<Uop>, s: State)
    requires AliveState(code, s) && Exact(s) && CommitInv(code, s)
    ensures StagesWindow(s.fe.nextFetch, |s.rt.retired|, Stages(s.fe.front, s.rt.rob))
  {
    RetiredBeforeFront(code, s);
  }

  lemma WindowAfter(code: seq<Uop>, s: State, a: Stages)
    requires Retired(code, s.dyn, s.rt) && StagesWindow(s.fe.nextFetch, |s.rt.retired|, a)
    ensures CommitInv(code, s.(fe := s.fe.(front := a.front), rt := s.rt.(rob := a.rob)))
  {
  }

  lemma FrontendCommit(code: seq<Uop>, s: State)
    requires AliveState(code, s) && Exact(s) && CommitInv(code, s)
    ensures CommitInv(code, AdvanceFrontend(s))
  {
    var top, a := |s.fe.front| - 1, Stages(s.fe.front, s.rt.rob);
    WindowBefore(code, s);
    StagesKeepWindow(top, s.fe.nextFetch, |s.rt.retired|, a);
    WindowAfter(code, s, AdvanceStages(top, a));
  }

  // -- Fetch and flush ----------------------------------------------------------------------------

  lemma FifoFetch(front: Front, x: nat, n: nat)
    requires 1 <= n <= STAGES
    ensures Fifo(front[0 := front[0] + [x]], n) == Fifo(front, n) + [x]
    decreases n
  {
    if n == 1 {
      assert Fifo(front, 0) == [] && Fifo(front[0 := front[0] + [x]], 0) == [];
    } else {
      FifoFetch(front, x, n - 1);
    }
  }

  function Fetched(fe: Fetch): Fetch {
    fe.(front := fe.front[0 := fe.front[0] + [fe.nextFetch]], nextFetch := fe.nextFetch + 1)
  }

  lemma FetchedWindow(fe: Fetch, rt: Retire)
    requires Window(fe, rt)
    ensures Window(Fetched(fe), rt)
  {
    var n := ThroughD1(fe.front);
    var t := Fifo(fe.front, n);
    FifoFetch(fe.front, fe.nextFetch, n);
    assert t + [fe.nextFetch] == Range(fe.nextFetch - |t|, fe.nextFetch + 1);
  }

  lemma {:induction false} FetchCommit(code: seq<Uop>, dyn: seq<Dyn>, fe: Fetch, rt: Retire)
    requires Window(fe, rt)
    ensures Window(FetchLoop(code, dyn, fe), rt)
    decreases |code| - fe.nextFetch
  {
    if |fe.front[0]| < FETCH_WIDTH && fe.nextFetch < |code| && !FetchBarrier(fe.nextFetch, code, dyn) {
      FetchedWindow(fe, rt);
      if code[fe.nextFetch].redirectTarget.None? { FetchCommit(code, dyn, Fetched(fe), rt); }
    }
  }

  lemma UpToAll(q: seq<nat>, f: nat)
    requires forall x :: x in q ==> x <= f
    ensures UpTo(q, f) == q
  {
    RetainAll(q, x => x <= f);
  }

  /** A flush that finds nothing younger leaves the frontend and the reorder buffer as they are. */
  lemma FlushKeepsFront(flush: Flush, code: seq<Uop>, s: State)
    requires AliveState(code, s) && CommitInv(code, s) && s.fe.nextFetch == flush.flushSeq + 1
    ensures var r := ApplyFlush(flush, code, s); r.fe.front == s.fe.front && r.rt == s.rt
  {
    var r := ApplyFlush(flush, code, s);
    forall i | 0 <= i < STAGES ensures r.fe.front[i] == s.fe.front[i] {
      forall x | x in s.fe.front[i] ensures x <= flush.flushSeq { InFrontLive(code, s, i, x); }
      UpToAll(s.fe.front[i], flush.flushSeq);
    }
    UpToAll(s.rt.rob, flush.flushSeq);
  }

  lemma FetchKeepsCommit(code: seq<Uop>, s: State, fe: Fetch)
    requires CommitInv(code, s) && fe.front == s.fe.front && fe.nextFetch == s.fe.nextFetch
    ensures CommitInv(code, s.(fe := FetchLoop(code, s.dyn, fe)))
  {
    FetchCommit(code, s.dyn, fe, s.rt);
  }

  lemma FlushCommit(flush: Flush, code: seq<Uop>, s: State)
    requires AliveState(code, s) && CommitInv(code, s) && s.fe.nextFetch == flush.flushSeq + 1
    ensures var r := ApplyFlush(flush, code, s); CommitInv(code, r) && r.fe == s.fe.(pendingFlush := None)
  {
    var r := ApplyFlush(flush, code, s);
    FlushFacts(flush, code, s);
    FlushKeepsFront(flush, code, s);
    CommitFrame(code, s, r);
  }

  lemma RestartCommit(cycle: nat, code: seq<Uop>, s: State)
    requires AliveState(code, s) && CommitInv(code, s) && RedirectOk(cycle, code, s.fe) && FlushDue(s.fe)
    ensures CommitInv(code, FillFetch(cycle, code, ApplyPendingFlush(cycle, code, s)))
  {
    if s.fe.pendingFlush.None? {
      FetchKeepsCommit(code, s, s.fe);
    } else {
      FlushCommit(s.fe.pendingFlush.value, code, s);
      var t := ApplyFlush(s.fe.pendingFlush.value, code, s);
      FetchKeepsCommit(code, t, TakeRestart(t.fe));
    }
  }

  // -- Retirement ---------------------------------------------------------------------------------

  lemma RetireOneFacts(cycle: nat, code: seq<Uop>, dyn: seq<Dyn>, a: Retirer)
    requires Retired(code, dyn, a.rt) && a.rt.rob != [] && DynAt(dyn, a.rt.rob[0]).done.Some?
    ensures var r := RetireOne(cycle, code, a);
      Retired(code, dyn, r.rt) && |r.rt.retired| + |r.rt.rob| == |a.rt.retired| + |a.rt.rob|
  {
    var r := RetireOne(cycle, code, a);
    var k := |a.rt.retired|;
    assert a.rt.rob[0] == k;
    assert r.rt.retired == Range(0, k + 1);
    assert r.rt.rob == Range(k + 1, k + 1 + |r.rt.rob|);
    forall i | 0 <= i < |r.rt.retired| ensures SameCommit(r.rt.committed[i], UopAt(code, i).commit) {
      if i < k { assert SameCommit(a.rt.committed[i], UopAt(code, i).commit); }
    }
  }

  /** Each cycle retires the next uops of the stream, at most four. */
  lemma {:induction false} RetireLoopFacts(limit: nat, cycle: nat, code: seq<Uop>, dyn: seq<Dyn>, a: Retirer)
    requires Retired(code, dyn, a.rt) && |a.rt.retired| <= limit
    ensures var r := RetireLoop(limit, cycle, code, dyn, a);
      && Retired(code, dyn, r.rt) && |r.rt.retired| + |r.rt.rob| == |a.rt.retired| + |a.rt.rob|
      && |a.rt.retired| <= |r.rt.retired| <= limit
    decreases limit - |a.rt.retired|
  {
    if |a.rt.retired| >= limit || a.rt.rob == [] || DynAt(dyn, a.rt.rob[0]).done.None? {
    } else {
      RetireOneFacts(cycle, code, dyn, a);
      RetireLoopFacts(limit, cycle, code, dyn, RetireOne(cycle, code, a));
    }
  }

  lemma RetireCommit(cycle: nat, code: seq<Uop>, s: State)
    requires CommitInv(code, s)
    ensures var r := RetireReady(cycle, code, s);
      CommitInv(code, r) && |s.rt.retired| <= |r.rt.retired| <= |s.rt.retired| + COMMIT_WIDTH
  {
    RetireLoopFacts(|s.rt.retired| + COMMIT_WIDTH, cycle, code, s.dyn, Retirer(s.rt, s.q.ready, s.mem.stq, s.mem.scb));
  }

  // -- Frames -------------------------------------------------------------------------------------

  /** Steps that leave retirement and the stages up to D1 alone and forget no completion. */
  lemma CommitFrame(code: seq<Uop>, s: State, r: State)
    requires CommitInv(code, s) && r.rt == s.rt.(pendingTrap := r.rt.pendingTrap, halted := r.rt.halted)
    requires r.fe.nextFetch == s.fe.nextFetch && r.fe.front[..D1 + 1] == s.fe.front[..D1 + 1]
    requires forall x: nat :: DynAt(s.dyn, x).done.Some? ==> DynAt(r.dyn, x).done.Some?
    ensures CommitInv(code, r)
  {
    FifoPrefix(s.fe.front, r.fe.front, ThroughD1(s.fe.front));
    assert r.fe.front[D1] == r.fe.front[..D1 + 1][D1] == s.fe.front[D1];
  }

  lemma {:induction false} FifoPrefix(a: seq<seq<nat>>, b: seq<seq<nat>>, n: nat)
    requires n <= |a| && n <= |b| && a[..n] == b[..n]
    ensures Fifo(a, n) == Fifo(b, n)
  {
    if n > 0 {
      assert a[n - 1] == a[..n][n - 1] == b[n - 1];
      assert a[..n - 1] == a[..n][..n - 1] && b[..n - 1] == b[..n][..n - 1];
      FifoPrefix(a, b, n - 1);
    }
  }
}
