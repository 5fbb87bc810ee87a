/** A coherent flush prunes nothing, its pointer rebase stays safe, and the remaining steps of a
    cycle neither issue nor touch the load/store unit. */
module MemoryRestart {
  import opened Wrappers
  import opened Seqs
  import opened Model
  import opened Select
  import opened Lsu
  import opened Frontend
  import opened Recovery
  import opened Commit
  import opened Residency
  import opened Alive
  import opened StageSteps
  import opened WellFormed
  import opened Runs
  import opened Conserve
  import opened CommitOrder
  import opened MemoryOrder

  // -- Nothing to prune ---------------------------------------------------------------------------

  lemma CountedBelow(code: seq<Uop>, s: State, q: seq<nat>)
    requires AliveState(code, s) && forall x: nat :: N(q, x) <= Copies(s, x)
    ensures forall x :: x in q ==> x < s.fe.nextFetch
  {
    forall x | x in q ensures x < s.fe.nextFetch {
      CountMember(q, x);
      assert N(q, x) <= Copies(s, x) && (Copies(s, x) > 0 ==> x < s.fe.nextFetch);
    }
  }

  lemma ExecBelow(code: seq<Uop>, s: State)
    requires AliveState(code, s)
    ensures forall x ::
      x in s.ex.e1 || x in s.ex.e2 || x in s.ex.e3 || x in s.ex.e4 || x in s.ex.w1 || x in s.ex.w2 ==>
        x < s.fe.nextFetch
    ensures forall x ::
      x in s.sel.i2 || x in SeqNos(s.q.iq) || x in RefillSeqs(s.mem.liq) || x in L1dSeqs(s.mem.l1d, LoadHit) ==>
        x < s.fe.nextFetch
  {
    CountedBelow(code, s, s.ex.e1);
    CountedBelow(code, s, s.ex.e2);
    CountedBelow(code, s, s.ex.e3);
    CountedBelow(code, s, s.ex.e4);
    CountedBelow(code, s, s.ex.w1);
    CountedBelow(code, s, s.ex.w2);
    CountedBelow(code, s, s.sel.i2);
    CountedBelow(code, s, SeqNos(s.q.iq));
    CountedBelow(code, s, RefillSeqs(s.mem.liq));
    CountedBelow(code, s, L1dSeqs(s.mem.l1d, LoadHit));
  }

  lemma PickedBelow(code: seq<Uop>, s: State, x: nat)
    requires AliveState(code, s) && (x in s.sel.p1 || x in s.sel.i1)
    ensures x < s.fe.nextFetch && QueueN(s.q.iq, x) > 0
  {
    CountMember(s.sel.p1, x);
    CountMember(s.sel.i1, x);
    assert N(s.sel.p1, x) + N(s.sel.i1, x) == Flight(s.q.iq, x);
    FindEntryCount(s.q.iq, x);
    assert Copies(s, x) > 0 ==> x < s.fe.nextFetch;
  }

  lemma RobBelow(code: seq<Uop>, s: State)
    requires CommitInv(code, s)
    ensures |s.rt.retired| + |s.rt.rob| <= s.fe.nextFetch && forall x :: x in s.rt.rob ==> x < s.fe.nextFetch
  {
    D1Prefix(s.fe.front);
  }

  lemma OwnersBelow(code: seq<Uop>, s: State, x: nat)
    requires AliveState(code, s) && CommitInv(code, s) && MemInv(code, s)
    ensures x in s.mem.lhq || x in s.mem.stq || x in ScbSeqs(s.mem.scb) || x in L1dSeqs(s.mem.l1d, StoreDrain) ==>
      x < s.fe.nextFetch
  {
    CountMember(s.mem.lhq, x);
    CountMember(s.mem.stq, x);
    assert N(s.mem.lhq, x) == if UopAt(code, x).isLoad then LoadHomes(s.ex, s.mem, x) else 0;
    assert N(s.mem.stq, x) == if InStq(code, s, x) then 1 else 0;
    assert Copies(s, x) > 0 ==> x < s.fe.nextFetch;
    RobBelow(code, s);
  }

  lemma {:induction false} L1dMember(q: seq<L1dEntry>, e: L1dEntry)
    requires e in q
    ensures e.seqNo in L1dSeqs(q, e.kind)
  {
    if q[0] != e { L1dMember(q[1..], e); }
  }

  lemma PruneMemNothing(f: nat, code: seq<Uop>, s: State)
    requires AliveState(code, s) && CommitInv(code, s) && MemInv(code, s) && s.fe.nextFetch == f + 1
    ensures PruneMem(f, s.mem) == s.mem
  {
    ExecBelow(code, s);
    forall x: nat
      ensures x in s.mem.lhq || x in s.mem.stq || x in ScbSeqs(s.mem.scb) || x in L1dSeqs(s.mem.l1d, StoreDrain) ==>
                x <= f
    {
      OwnersBelow(code, s, x);
    }
    UpToAll(s.mem.stq, f);
    UpToAll(s.mem.lhq, f);
    forall r | r in s.mem.liq ensures r.seqNo <= f {
      var i :| 0 <= i < |s.mem.liq| && s.mem.liq[i] == r;
      assert RefillSeqs(s.mem.liq)[i] in RefillSeqs(s.mem.liq);
    }
    RetainAll(s.mem.liq, (r: Refill) => r.seqNo <= f);
    forall e | e in s.mem.scb ensures e.seqNo <= f {
      var i :| 0 <= i < |s.mem.scb| && s.mem.scb[i] == e;
      assert ScbSeqs(s.mem.scb)[i] in ScbSeqs(s.mem.scb);
    }
    RetainAll(s.mem.scb, (e: ScbEntry) => e.seqNo <= f);
    forall e | e in s.mem.l1d ensures e.seqNo <= f { L1dMember(s.mem.l1d, e); }
    RetainAll(s.mem.l1d, (e: L1dEntry) => e.seqNo <= f);
  }

  lemma PruneExecNothing(f: nat, code: seq<Uop>, s: State)
    requires AliveState(code, s) && s.fe.nextFetch == f + 1
    ensures PruneExec(f, s.ex) == s.ex
  {
    ExecBelow(code, s);
    UpToAll(s.ex.e1, f);
    UpToAll(s.ex.e2, f);
    UpToAll(s.ex.e3, f);
    UpToAll(s.ex.e4, f);
    UpToAll(s.ex.w1, f);
    UpToAll(s.ex.w2, f);
  }

  lemma PruneIssueNothing(f: nat, code: seq<Uop>, s: State)
    requires AliveState(code, s) && s.fe.nextFetch == f + 1
    ensures Retain(s.q.iq, (e: IqEntry) => e.seqNo <= f) == s.q.iq
    ensures UpTo(s.sel.p1, f) == s.sel.p1 && UpTo(s.sel.i1, f) == s.sel.i1 && UpTo(s.sel.i2, f) == s.sel.i2
  {
    ExecBelow(code, s);
    forall x | x in s.sel.p1 || x in s.sel.i1 ensures x <= f { PickedBelow(code, s, x); }
    UpToAll(s.sel.p1, f);
    UpToAll(s.sel.i1, f);
    UpToAll(s.sel.i2, f);
    forall e | e in s.q.iq ensures e.seqNo <= f {
      var i :| 0 <= i < |s.q.iq| && s.q.iq[i] == e;
      assert SeqNos(s.q.iq)[i] in SeqNos(s.q.iq);
    }
    RetainAll(s.q.iq, (e: IqEntry) => e.seqNo <= f);
  }

  /** On a coherent run the flush finds nothing younger: it removes no uop from any place. */
  lemma FlushPrunesNothing(flush: Flush, code: seq<Uop>, s: State)
    requires AliveState(code, s) && CommitInv(code, s) && MemInv(code, s) && s.fe.nextFetch == flush.flushSeq + 1
    ensures var r := ApplyFlush(flush, code, s);
      && r.fe == s.fe.(pendingFlush := None) && r.q.iq == s.q.iq && r.sel == s.sel && r.ex == s.ex && r.rt == s.rt
      && r.dyn == s.dyn
      && r.mem == s.mem.(issuePtr := r.mem.issuePtr, completePtr := r.mem.completePtr, cachePtr := r.mem.cachePtr)
  {
    FlushKeepsFront(flush, code, s);
    PruneMemNothing(flush.flushSeq, code, s);
    PruneExecNothing(flush.flushSeq, code, s);
    PruneIssueNothing(flush.flushSeq, code, s);
  }

  // -- Rebasing the pointers ----------------------------------------------------------------------

  lemma QueuedBelow(code: seq<Uop>, s: State, x: nat)
    requires AliveState(code, s) && CommitInv(code, s) && x in QueuedSeqs(s)
    ensures x < s.fe.nextFetch
  {
    ExecBelow(code, s);
    RobBelow(code, s);
    if x in s.sel.p1 || x in s.sel.i1 { PickedBelow(code, s, x); }
    if x in FrontSeqs(s.fe.front) {
      var i :| 0 <= i < STAGES && x in s.fe.front[i];
      InFrontLive(code, s, i, x);
    }
  }

  predicate InExec(ex: Exec, x: nat) {
    x in ex.e1 || x in ex.e2 || x in ex.e3 || x in ex.e4 || x in ex.w1 || x in ex.w2
  }

  predicate InOwners(mem: Mem, x: nat) {
    x in mem.lhq || x in mem.stq || x in ScbSeqs(mem.scb) || x in L1dSeqs(mem.l1d, StoreDrain)
  }

  lemma IssuedPlaces(s: State, x: nat)
    requires x in IssuedSeqs(s)
    ensures InExec(s.ex, x) || InOwners(s.mem, x) || x in RefillSeqs(s.mem.liq) || x in RefillSeqs(s.mem.mdb)
      || x in L1dSeqs(s.mem.l1d, LoadHit)
  {
  }

  lemma IssuedBelow(code: seq<Uop>, s: State, x: nat)
    requires AliveState(code, s) && CommitInv(code, s) && MemInv(code, s) && x in IssuedSeqs(s)
    ensures x < s.fe.nextFetch
  {
    IssuedPlaces(s, x);
    if InOwners(s.mem, x) {
      OwnersBelow(code, s, x);
    } else {
      ExecBelow(code, s);
    }
  }

  lemma WaitingQueued(s: State, x: nat)
    ensures Waiting(s, x) > 0 ==> x in QueuedSeqs(s)
  {
    CountMember(SeqNos(s.q.iq), x);
    CountMember(s.sel.i2, x);
    StageCountMember(s.fe.front, STAGES, x);
  }

  /** A fetched memory uop still before the issue point is among the unissued ones. */
  lemma UnissuedSeen(code: seq<Uop>, s: State, x: nat)
    requires AliveState(code, s) && Exact(s) && CommitInv(code, s) && MemInv(code, s) && x < s.fe.nextFetch
      && Waiting(s, x) > 0
    ensures x in QueuedSeqs(s) - IssuedSeqs(s)
  {
    WaitingQueued(s, x);
    assert Copies(s, x) <= 1;
    LiveNotRetired(code, s, x);
    CountMember(s.ex.e1, x);
    CountMember(s.ex.e2, x);
    CountMember(s.ex.e3, x);
    CountMember(s.ex.e4, x);
    CountMember(s.ex.w1, x);
    CountMember(s.ex.w2, x);
    CountMember(RefillSeqs(s.mem.liq), x);
    CountMember(L1dSeqs(s.mem.l1d, LoadHit), x);
    CountMember(s.mem.lhq, x);
    CountMember(s.mem.stq, x);
    assert N(s.mem.lhq, x) == if UopAt(code, x).isLoad then LoadHomes(s.ex, s.mem, x) else 0;
    assert N(s.mem.stq, x) == if InStq(code, s, x) then 1 else 0;
  }

  lemma LsidMember(seqs: set<nat>, code: seq<Uop>, x: nat)
    requires x in seqs && UopAt(code, x).lsid.Some?
    ensures UopAt(code, x).lsid.value in Lsids(seqs, code)
  {
  }

  /** The least unissued id is at most the number of memory uops issued. */
  lemma RebaseIssue(code: seq<Uop>, s: State, m: nat)
    requires MemoryIds(code) && AliveState(code, s) && Exact(s) && CommitInv(code, s) && MemInv(code, s)
    requires var u := Lsids(QueuedSeqs(s) - IssuedSeqs(s), code); u != {} && m == SetMin(u)
    ensures m <= |s.mem.issueLog|
  {
    var y: nat :| y in QueuedSeqs(s) - IssuedSeqs(s) && UopAt(code, y).lsid == Some(m);
    QueuedBelow(code, s, y);
    if m > |s.mem.issueLog| {
      var z := LsidBelow(code, y, |s.mem.issueLog|);
      assert !HasIssued(s, z);
      UnissuedSeen(code, s, z);
      LsidMember(QueuedSeqs(s) - IssuedSeqs(s), code, z);
    }
  }

  lemma WindowSeen(code: seq<Uop>, s: State, x: nat)
    requires CommitInv(code, s) && |s.rt.retired| <= x < s.fe.nextFetch
    ensures x in QueuedSeqs(s)
  {
    var t := Fifo(s.fe.front, ThroughD1(s.fe.front));
    var robEnd := |s.rt.retired| + |s.rt.rob|;
    if x < robEnd {
      assert s.rt.rob[x - |s.rt.retired|] == x;
    } else {
      var f := s.fe.nextFetch - |t|;
      assert t[x - f] == x;
      FifoMember(s.fe.front, ThroughD1(s.fe.front), x);
    }
  }

  /** A fetched memory uop that has not started its L1D transaction is active. */
  lemma ActiveSeen(code: seq<Uop>, s: State, x: nat)
    requires CommitInv(code, s) && x < s.fe.nextFetch && !HasStarted(code, s, x)
    ensures x in QueuedSeqs(s) + IssuedSeqs(s)
  {
    if UopAt(code, x).isLoad {
      WaitingQueued(s, x);
      CountMember(s.ex.e1, x);
      CountMember(s.ex.e2, x);
      CountMember(s.ex.e3, x);
      CountMember(s.ex.e4, x);
      CountMember(RefillSeqs(s.mem.liq), x);
    } else if x < |s.rt.retired| {
      CountMember(ScbSeqs(s.mem.scb), x);
    } else {
      WindowSeen(code, s, x);
    }
  }

  /** The least active id is at most the number of transactions completed. */
  lemma RebaseCache(code: seq<Uop>, s: State, m: nat)
    requires MemoryIds(code) && AliveState(code, s) && CommitInv(code, s) && MemInv(code, s)
    requires var u := Lsids(QueuedSeqs(s) + IssuedSeqs(s), code); u != {} && m == SetMin(u)
    ensures m + |s.mem.l1d| <= |s.mem.l1dLog|
  {
    var seqs := QueuedSeqs(s) + IssuedSeqs(s);
    if |s.mem.l1d| == 1 {
      var e := s.mem.l1d[0];
      L1dMember(s.mem.l1d, e);
      assert e.seqNo in seqs;
      LsidMember(seqs, code, e.seqNo);
    } else if m > |s.mem.l1dLog| {
      var y: nat :| y in seqs && UopAt(code, y).lsid == Some(m);
      if y in QueuedSeqs(s) { QueuedBelow(code, s, y); } else { IssuedBelow(code, s, y); }
      var z := LsidBelow(code, y, |s.mem.l1dLog|);
      ActiveSeen(code, s, z);
      LsidMember(seqs, code, z);
    }
  }

  lemma RebaseSafe(code: seq<Uop>, s: State)
    requires MemoryIds(code) && AliveState(code, s) && Exact(s) && CommitInv(code, s) && MemInv(code, s)
    ensures var r := RebaseLsid(code, s);
      && r == s.mem.(issuePtr := r.issuePtr, completePtr := r.completePtr, cachePtr := r.cachePtr)
      && r.issuePtr <= |s.mem.issueLog| && r.cachePtr + |s.mem.l1d| <= |s.mem.l1dLog|
  {
    var unissued := Lsids(QueuedSeqs(s) - IssuedSeqs(s), code);
    var active := Lsids(QueuedSeqs(s) + IssuedSeqs(s), code);
    if unissued != {} { RebaseIssue(code, s, SetMin(unissued)); }
    if active != {} { RebaseCache(code, s, SetMin(active)); }
  }

  /** Pointers may fall back as long as they stay at or below the logs. */
  lemma PointersFrame(code: seq<Uop>, s: State, r: State)
    requires MemoryIds(code) && MemInv(code, s) && SameExecution(r.ex, s.ex) && |r.rt.retired| == |s.rt.retired|
    requires r.mem == s.mem.(issuePtr := r.mem.issuePtr, completePtr := r.mem.completePtr, cachePtr := r.mem.cachePtr)
    requires r.mem.issuePtr <= |s.mem.issueLog| && r.mem.cachePtr + |s.mem.l1d| <= |s.mem.l1dLog|
    requires forall x: nat :: HasIssued(r, x) <==> HasIssued(s, x)
    ensures MemInv(code, r)
  {
    forall x: nat
      ensures HasStarted(code, r, x) <==> HasStarted(code, s, x)
      ensures InStq(code, r, x) <==> InStq(code, s, x)
    {
      assert HasIssued(r, x) <==> HasIssued(s, x);
    }
  }

  lemma SameResidents(s: State, r: State, x: nat)
    requires r.fe.front == s.fe.front && SeqNos(r.q.iq) == SeqNos(s.q.iq) && r.sel.i2 == s.sel.i2
      && r.fe.nextFetch == s.fe.nextFetch
    ensures HasIssued(r, x) <==> HasIssued(s, x)
  {
  }

  lemma RebasedOnPruned(flush: Flush, code: seq<Uop>, s: State, t: State)
    requires MemoryIds(code) && AliveState(code, s) && Exact(s) && CommitInv(code, s) && MemInv(code, s)
    requires t == Prune(flush.flushSeq, s.(q := RestoreReady(flush.checkpoint, s.q)))
    requires t.fe == s.fe && t.q.iq == s.q.iq && t.sel == s.sel && t.ex == s.ex && t.rt == s.rt && t.mem == s.mem
    ensures RebaseLsid(code, t) == RebaseLsid(code, s)
  {
    assert QueuedSeqs(t) == QueuedSeqs(s) && IssuedSeqs(t) == IssuedSeqs(s);
  }

  lemma FlushMemory(flush: Flush, code: seq<Uop>, s: State)
    requires MemoryIds(code) && AliveState(code, s) && Exact(s) && CommitInv(code, s) && MemInv(code, s)
      && s.fe.nextFetch == flush.flushSeq + 1
    ensures MemInv(code, ApplyFlush(flush, code, s))
  {
    var t := Prune(flush.flushSeq, s.(q := RestoreReady(flush.checkpoint, s.q)));
    var r := ApplyFlush(flush, code, s);
    FlushPrunesNothing(flush, code, s);
    PruneMemNothing(flush.flushSeq, code, s);
    RebasedOnPruned(flush, code, s, t);
    RebaseSafe(code, s);
    forall x: nat ensures HasIssued(r, x) <==> HasIssued(s, x) { SameResidents(s, r, x); }
    PointersFrame(code, s, r);
  }

  // -- Steps that neither issue nor touch the unit ------------------------------------------------

  lemma FetchMemory(code: seq<Uop>, s: State, fe: Fetch)
    requires MemoryIds(code) && AliveState(code, s) && MemInv(code, s) && fe.front == s.fe.front
      && fe.nextFetch == s.fe.nextFetch
    ensures MemInv(code, s.(fe := FetchLoop(code, s.dyn, fe)))
  {
    var r := s.(fe := FetchLoop(code, s.dyn, fe));
    forall x: nat ensures HasIssued(r, x) <==> HasIssued(s, x) { FetchCopies(code, s.dyn, fe, x); }
    MemFrame(code, s, r);
  }

  lemma RestartMemory(cycle: nat, opts: Options, code: seq<Uop>, s: State)
    requires MemoryIds(code) && RunInv(cycle, opts, code, s) && ConserveInv(cycle, code, s) && CommitInv(code, s)
      && MemInv(code, s) && FlushDue(s.fe)
    ensures MemInv(code, FillFetch(cycle, code, ApplyPendingFlush(cycle, code, s)))
  {
    if s.fe.pendingFlush.None? {
      FetchMemory(code, s, s.fe);
    } else {
      var flush := s.fe.pendingFlush.value;
      var t := ApplyFlush(flush, code, s);
      FlushMemory(flush, code, s);
      FlushPrunesNothing(flush, code, s);
      FlushConserve(flush, cycle, code, s);
      FlushFacts(flush, code, s);
      assert AliveState(code, t);
      FetchMemory(code, t, TakeRestart(t.fe));
    }
  }

  /** Steps that only rewrite issue-queue entries in place. */
  lemma ResidentFrame(code: seq<Uop>, s: State, r: State)
    requires MemoryIds(code) && MemInv(code, s) && r.mem == s.mem && SameExecution(r.ex, s.ex)
      && |r.rt.retired| == |s.rt.retired|
    requires r.fe.front == s.fe.front && SeqNos(r.q.iq) == SeqNos(s.q.iq) && r.sel.i2 == s.sel.i2
      && r.fe.nextFetch == s.fe.nextFetch
    ensures MemInv(code, r)
  {
    forall x: nat ensures HasIssued(r, x) <==> HasIssued(s, x) { SameResidents(s, r, x); }
    MemFrame(code, s, r);
  }

  lemma I1ToI2Memory(code: seq<Uop>, s: State)
    requires MemoryIds(code) && AliveState(code, s) && MemInv(code, s)
    ensures MemInv(code, AdvanceI1ToI2(s))
  {
    var r := AdvanceI1ToI2(s);
    UniqueFromLive(s.fe.nextFetch, s);
    I1ToI2Facts(s);
    forall x: nat ensures HasIssued(r, x) <==> HasIssued(s, x) {
      assert QueueN(r.q.iq, x) + N(r.sel.i2, x) == QueueN(s.q.iq, x) + N(s.sel.i2, x);
    }
    MemFrame(code, s, r);
  }

  /** Only bypassing uops go straight to W2. */
  lemma {:induction false} DispatchW2(pending: seq<nat>, cycle: nat, input: Input, code: seq<Uop>, d: Dispatcher,
                                      x: nat)
    requires !UopAt(code, x).bypass
    ensures N(DispatchLoop(pending, cycle, input, code, d).w2, x) == N(d.w2, x)
  {
    if pending != [] {
      var y := pending[0];
      CountSnoc(d.w2, y, x);
      DispatchOneW2(y, cycle, input, code, d, x);
      DispatchW2(pending[1..], cycle, input, code, DispatchOne(y, cycle, input, code, d), x);
    }
  }

  lemma DispatchOneW2(y: nat, cycle: nat, input: Input, code: seq<Uop>, d: Dispatcher, x: nat)
    requires !UopAt(code, x).bypass
    ensures N(DispatchOne(y, cycle, input, code, d).w2, x) == N(d.w2, x)
  {
    var d' := d.(q := Snapshot(y, input, code, d.q));
    if UopAt(code, y).bypass { CountSnoc(d.w2, y, x); } else { ToIqTagging(y, cycle, code, d', x); }
  }

  lemma DispatchMemory(cycle: nat, input: Input, code: seq<Uop>, s: State)
    requires MemoryIds(code) && BypassNoMemory(code) && MemInv(code, s)
    ensures MemInv(code, Dispatch(cycle, input, code, s))
  {
    var r := Dispatch(cycle, input, code, s);
    forall x: nat | UopAt(code, x).lsid.Some? ensures HasIssued(r, x) <==> HasIssued(s, x) {
      DispatchCopies(cycle, input, code, s, x);
      DispatchW2(s.fe.front[10], cycle, input, code, Dispatcher([], s.ex.w2, s.q, s.dyn, map[]), x);
    }
    MemFrame(code, s, r);
  }

  lemma FrontendMemory(code: seq<Uop>, s: State)
    requires MemoryIds(code) && MemInv(code, s)
    ensures MemInv(code, AdvanceFrontend(s))
  {
    var r := AdvanceFrontend(s);
    forall x: nat ensures HasIssued(r, x) <==> HasIssued(s, x) {
      FrontendCopies(|s.fe.front| - 1, Stages(s.fe.front, s.rt.rob), x);
    }
    MemFrame(code, s, r);
  }
}
