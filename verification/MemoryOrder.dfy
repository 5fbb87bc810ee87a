/** Memory order on coherent runs: memory uops leave I2, and L1D transactions start, in exact
    load/store-id order; the load and store owner queues mirror the stages. */
module MemoryOrder {
  import opened Wrappers
  import opened Seqs
  import opened Model
  import opened Select
  import opened Lsu
  import opened Frontend
  import opened Commit
  import opened Residency
  import opened Alive
  import opened WellFormed
  import opened Conserve
  import opened CommitOrder

  // -- Load/store ids -----------------------------------------------------------------------------

  lemma {:induction false} MemCountMonotone(code: seq<Uop>, a: nat, b: nat)
    requires a <= b <= |code|
    ensures MemCount(code, a) <= MemCount(code, b)
  {
    if a < b { MemCountMonotone(code, a, b - 1); }
  }

  /** Ids grow with the sequence number. */
  lemma LsidOrder(code: seq<Uop>, x: nat, y: nat)
    requires MemoryIds(code) && UopAt(code, x).lsid.Some? && UopAt(code, y).lsid.Some?
    ensures x < y <==> UopAt(code, x).lsid.value < UopAt(code, y).lsid.value
  {
    if x < y { MemCountMonotone(code, x + 1, y); } else if y < x { MemCountMonotone(code, y + 1, x); }
  }

  lemma {:induction false} MemCountReached(code: seq<Uop>, n: nat, j: nat)
    requires MemoryIds(code) && n <= |code| && j < MemCount(code, n)
    ensures exists y :: 0 <= y < n && code[y].lsid == Some(j)
  {
    if j < MemCount(code, n - 1) {
      MemCountReached(code, n - 1, j);
      var y :| 0 <= y < n - 1 && code[y].lsid == Some(j);
    } else {
      assert code[n - 1].lsid == Some(j);
    }
  }

  /** No id is skipped: below a uop with a larger id lies the uop with id `j`. */
  lemma LsidBelow(code: seq<Uop>, x: nat, j: nat) returns (y: nat)
    requires MemoryIds(code) && UopAt(code, x).lsid.Some? && j < UopAt(code, x).lsid.value
    ensures y < x && UopAt(code, y).lsid == Some(j)
  {
    MemCountReached(code, x, j);
    y :| 0 <= y < x && code[y].lsid == Some(j);
  }

  // -- The invariant ------------------------------------------------------------------------------

  /** `x` has left I2. */
  ghost predicate HasIssued(s: State, x: nat) { x < s.fe.nextFetch && Waiting(s, x) == 0 }

  function BeforeL1d(ex: Exec, mem: Mem, x: nat): nat {
    N(ex.e1, x) + N(ex.e2, x) + N(ex.e3, x) + N(ex.e4, x) + N(RefillSeqs(mem.liq), x)
  }

  /** `x` has started its L1D transaction: a load past E4, a store retired and out of the SCB. */
  ghost predicate HasStarted(code: seq<Uop>, s: State, x: nat) {
    if UopAt(code, x).isLoad then HasIssued(s, x) && BeforeL1d(s.ex, s.mem, x) == 0
    else x < |s.rt.retired| && N(ScbSeqs(s.mem.scb), x) == 0
  }

  ghost predicate IssueOrder(code: seq<Uop>, s: State) {
    && s.mem.issueLog == Range(0, |s.mem.issueLog|) && s.mem.issuePtr <= |s.mem.issueLog|
    && forall x: nat ::
         UopAt(code, x).lsid.Some? ==> (HasIssued(s, x) <==> UopAt(code, x).lsid.value < |s.mem.issueLog|)
  }

  /** At most one transaction, the last one started; the cache pointer is not past it. */
  predicate L1dSlot(code: seq<Uop>, mem: Mem) {
    && |mem.l1d| <= 1 && mem.cachePtr + |mem.l1d| <= |mem.l1dLog|
    && (|mem.l1d| == 1 ==> UopAt(code, mem.l1d[0].seqNo).lsid == Some(|mem.l1dLog| - 1))
  }

  ghost predicate L1dOrder(code: seq<Uop>, s: State) {
    && s.mem.l1dLog == Range(0, |s.mem.l1dLog|) && L1dSlot(code, s.mem)
    && forall x: nat ::
         UopAt(code, x).lsid.Some? ==> (HasStarted(code, s, x) <==> UopAt(code, x).lsid.value < |s.mem.l1dLog|)
  }

  function LoadHomes(ex: Exec, mem: Mem, x: nat): nat {
    N(ex.e1, x) + N(ex.e2, x) + N(ex.e3, x) + N(ex.e4, x) + N(L1dSeqs(mem.l1d, LoadHit), x)
  }

  /** LHQ holds exactly the loads in E1-E4 and L1D, and MDB mirrors LIQ. */
  ghost predicate LoadQueues(code: seq<Uop>, ex: Exec, mem: Mem) {
    && mem.mdb == mem.liq
    && forall x: nat :: N(mem.lhq, x) == if UopAt(code, x).isLoad then LoadHomes(ex, mem, x) else 0
  }

  ghost predicate InStq(code: seq<Uop>, s: State, x: nat) {
    UopAt(code, x).isStore && |s.rt.retired| <= x && HasIssued(s, x)
  }

  /** STQ holds exactly the issued, unretired stores; the SCB and the drain hold retired ones. */
  ghost predicate StoreQueues(code: seq<Uop>, s: State) {
    && (forall x: nat :: N(s.mem.stq, x) == if InStq(code, s, x) then 1 else 0)
    && (forall x: nat :: N(ScbSeqs(s.mem.scb), x) <= 1)
    && (forall x :: x in ScbSeqs(s.mem.scb) || x in L1dSeqs(s.mem.l1d, StoreDrain) ==>
          UopAt(code, x).isStore && x < |s.rt.retired|)
  }

  ghost predicate MemInv(code: seq<Uop>, s: State) {
    IssueOrder(code, s) && L1dOrder(code, s) && LoadQueues(code, s.ex, s.mem) && StoreQueues(code, s)
  }

  // -- Frames -------------------------------------------------------------------------------------

  ghost predicate SameExecution(a: Exec, b: Exec) { a.e1 == b.e1 && a.e2 == b.e2 && a.e3 == b.e3 && a.e4 == b.e4 }

  /** Steps that neither issue nor touch the load/store unit. */
  lemma MemFrame(code: seq<Uop>, s: State, r: State)
    requires MemInv(code, s) && r.mem == s.mem && SameExecution(r.ex, s.ex) && |r.rt.retired| == |s.rt.retired|
    requires forall x: nat :: UopAt(code, x).lsid.Some? ==> (HasIssued(r, x) <==> HasIssued(s, x))
    requires MemoryIds(code)
    ensures MemInv(code, r)
  {
    forall x: nat | UopAt(code, x).lsid.Some?
      ensures HasIssued(r, x) <==> UopAt(code, x).lsid.value < |r.mem.issueLog|
      ensures HasStarted(code, r, x) <==> UopAt(code, x).lsid.value < |r.mem.l1dLog|
    {
      assert HasIssued(r, x) <==> HasIssued(s, x);
      assert HasIssued(s, x) <==> UopAt(code, x).lsid.value < |s.mem.issueLog|;
      assert HasStarted(code, s, x) <==> UopAt(code, x).lsid.value < |s.mem.l1dLog|;
    }
    forall x: nat ensures N(r.mem.stq, x) == if InStq(code, r, x) then 1 else 0 {
      assert N(s.mem.stq, x) == if InStq(code, s, x) then 1 else 0;
      assert UopAt(code, x).isStore ==> UopAt(code, x).lsid.Some?;
    }
  }

  // -- Leaving I2 ---------------------------------------------------------------------------------

  /** Issue loop: `base` counts the frontend and the issue queue. */
  ghost predicate IssueLoopInv(code: seq<Uop>, nextFetch: nat, base: nat -> nat, pending: seq<nat>, a: Issuer) {
    && a.mem.issueLog == Range(0, |a.mem.issueLog|) && a.mem.issuePtr <= |a.mem.issueLog|
    && (forall x: nat :: UopAt(code, x).lsid.Some? ==>
          (LoopIssued(nextFetch, base, pending, a, x) <==> UopAt(code, x).lsid.value < |a.mem.issueLog|))
    && (forall x: nat :: base(x) + N(a.i2, x) + N(pending, x) <= 1 && (x in pending ==> x < nextFetch))
  }

  ghost predicate LoopIssued(nextFetch: nat, base: nat -> nat, pending: seq<nat>, a: Issuer, x: nat) {
    x < nextFetch && base(x) + N(a.i2, x) + N(pending, x) == 0
  }

  /** The memory uop that leaves I2 carries the next id: the pointer never runs ahead of it. */
  lemma IssueStep(code: seq<Uop>, nextFetch: nat, base: nat -> nat, pending: seq<nat>, cycle: nat, dyn: seq<Dyn>,
                  a: Issuer)
    requires MemoryIds(code) && pending != [] && IssueLoopInv(code, nextFetch, base, pending, a)
    ensures IssueLoopInv(code, nextFetch, base, pending[1..], IssueOne(pending[0], cycle, code, dyn, a))
  {
    var x, r := pending[0], IssueOne(pending[0], cycle, code, dyn, a);
    assert x in pending && base(x) + N(a.i2, x) + N(pending, x) <= 1;
    forall y: nat
      ensures base(y) + N(r.i2, y) + N(pending[1..], y) <= 1 && (y in pending[1..] ==> y < nextFetch)
      ensures y != x ==>
        (LoopIssued(nextFetch, base, pending[1..], r, y) <==> LoopIssued(nextFetch, base, pending, a, y))
    {
      assert base(y) + N(a.i2, y) + N(pending, y) <= 1;
      CountSnoc(a.i2, x, y);
      CountMember(pending[1..], y);
      CountMember(pending, y);
    }
    if Issues(x, cycle, code, dyn, a) && UopAt(code, x).lsid.Some? {
      assert !LoopIssued(nextFetch, base, pending, a, x);
      assert UopAt(code, x).lsid.value == |a.mem.issueLog|;
      assert r.mem.issueLog == Range(0, |a.mem.issueLog| + 1);
    }
    forall y: nat | UopAt(code, y).lsid.Some?
      ensures LoopIssued(nextFetch, base, pending[1..], r, y) <==> UopAt(code, y).lsid.value < |r.mem.issueLog|
    {
      assert LoopIssued(nextFetch, base, pending, a, y) <==> UopAt(code, y).lsid.value < |a.mem.issueLog|;
      if UopAt(code, x).lsid.Some? { LsidOrder(code, x, y); LsidOrder(code, y, x); }
      CountSnoc(a.i2, x, y);
    }
  }

  lemma {:induction false} IssueLoopOrder(code: seq<Uop>, nextFetch: nat, base: nat -> nat, pending: seq<nat>,
                                          cycle: nat, dyn: seq<Dyn>, a: Issuer)
    requires MemoryIds(code) && IssueLoopInv(code, nextFetch, base, pending, a)
    ensures IssueLoopInv(code, nextFetch, base, [], IssueLoop(pending, cycle, code, dyn, a))
    decreases |pending|
  {
    if pending != [] {
      IssueStep(code, nextFetch, base, pending, cycle, dyn, a);
      IssueLoopOrder(code, nextFetch, base, pending[1..], cycle, dyn, IssueOne(pending[0], cycle, code, dyn, a));
    }
  }

  lemma InsertOnceCount(q: seq<nat>, x: nat, y: nat)
    ensures N(InsertOnce(q, x), y) == N(q, y) + (if y == x && N(q, x) == 0 then 1 else 0)
  {
    CountMember(q, x);
    CountSnoc(q, x, y);
  }

  /** Owner queues during the issue loop: `rest` counts E2-E4 and the L1D loads. */
  ghost predicate IssueOwners(code: seq<Uop>, retired: nat, nextFetch: nat, base: nat -> nat, rest: nat -> nat,
                              pending: seq<nat>, a: Issuer) {
    && (forall x: nat :: N(a.mem.lhq, x) == if UopAt(code, x).isLoad then N(a.e1, x) + rest(x) else 0)
    && (forall x: nat :: N(a.mem.stq, x)
          == if UopAt(code, x).isStore && retired <= x && LoopIssued(nextFetch, base, pending, a, x) then 1 else 0)
    && (forall x :: x in pending ==> retired <= x < nextFetch && N(a.e1, x) + rest(x) == 0)
    && (forall x: nat :: base(x) + N(a.i2, x) + N(pending, x) <= 1)
  }

  lemma IssueOwnersAt(code: seq<Uop>, retired: nat, nextFetch: nat, base: nat -> nat, rest: nat -> nat,
                      pending: seq<nat>, cycle: nat, dyn: seq<Dyn>, a: Issuer, y: nat)
    requires MemoryIds(code) && pending != [] && IssueOwners(code, retired, nextFetch, base, rest, pending, a)
    ensures var r := IssueOne(pending[0], cycle, code, dyn, a);
      && N(r.mem.lhq, y) == (if UopAt(code, y).isLoad then N(r.e1, y) + rest(y) else 0)
      && N(r.mem.stq, y)
         == (if UopAt(code, y).isStore && retired <= y && LoopIssued(nextFetch, base, pending[1..], r, y) then 1 else 0)
      && (y in pending[1..] ==> retired <= y < nextFetch && N(r.e1, y) + rest(y) == 0)
      && base(y) + N(r.i2, y) + N(pending[1..], y) <= 1
  {
    var x := pending[0];
    assert x in pending;
    CountMember(pending[1..], y);
    CountMember(pending, y);
    assert base(y) + N(a.i2, y) + N(pending, y) <= 1;
    assert base(x) + N(a.i2, x) + N(pending, x) <= 1;
    if Issues(x, cycle, code, dyn, a) {
      CountSnoc(a.e1, x, y);
      InsertOnceCount(a.mem.lhq, x, y);
      InsertOnceCount(a.mem.stq, x, y);
    } else {
      CountSnoc(a.i2, x, y);
    }
  }

  lemma {:induction false} IssueLoopOwners(code: seq<Uop>, retired: nat, nextFetch: nat, base: nat -> nat,
                                           rest: nat -> nat, pending: seq<nat>, cycle: nat, dyn: seq<Dyn>, a: Issuer)
    requires MemoryIds(code) && IssueOwners(code, retired, nextFetch, base, rest, pending, a)
    ensures IssueOwners(code, retired, nextFetch, base, rest, [], IssueLoop(pending, cycle, code, dyn, a))
    decreases |pending|
  {
    if pending != [] {
      var r := IssueOne(pending[0], cycle, code, dyn, a);
      forall y: nat
        ensures && N(r.mem.lhq, y) == (if UopAt(code, y).isLoad then N(r.e1, y) + rest(y) else 0)
                && N(r.mem.stq, y)
         == (if UopAt(code, y).isStore && retired <= y && LoopIssued(nextFetch, base, pending[1..], r, y) then 1 else 0)
                && (y in pending[1..] ==> retired <= y < nextFetch && N(r.e1, y) + rest(y) == 0)
                && base(y) + N(r.i2, y) + N(pending[1..], y) <= 1
      {
        IssueOwnersAt(code, retired, nextFetch, base, rest, pending, cycle, dyn, a, y);
      }
      IssueLoopOwners(code, retired, nextFetch, base, rest, pending[1..], cycle, dyn, r);
    }
  }

  lemma {:induction false} IssueLoopMem(pending: seq<nat>, cycle: nat, code: seq<Uop>, dyn: seq<Dyn>, a: Issuer, x: nat)
    ensures var r := IssueLoop(pending, cycle, code, dyn, a);
      && r.mem == a.mem.(lhq := r.mem.lhq, stq := r.mem.stq, issuePtr := r.mem.issuePtr,
          completePtr := r.mem.completePtr, issueLog := r.mem.issueLog)
      && N(r.i2, x) <= N(a.i2, x) + N(pending, x)
  {
    if pending != [] {
      IssueMemFrame(pending[0], UopAt(code, pending[0]), a.mem);
      CountSnoc(a.i2, pending[0], x);
      IssueLoopMem(pending[1..], cycle, code, dyn, IssueOne(pending[0], cycle, code, dyn, a), x);
    }
  }

  /** A uop still on its way has not retired. */
  lemma LiveNotRetired(code: seq<Uop>, s: State, x: nat)
    requires Exact(s) && Retired(code, s.dyn, s.rt) && Copies(s, x) > 0
    ensures |s.rt.retired| <= x < s.fe.nextFetch
  {
    assert Copies(s, x) == Pend(s.fe.nextFetch, s.dyn, x);
  }

  function BaseOf(s: State): nat -> nat { x => FrontN(s.fe.front, x) + QueueN(s.q.iq, x) }

  function RestOf(s: State): nat -> nat {
    x => N(s.ex.e2, x) + N(s.ex.e3, x) + N(s.ex.e4, x) + N(L1dSeqs(s.mem.l1d, LoadHit), x)
  }

  lemma I2Setup(code: seq<Uop>, s: State, x: nat)
    requires AliveState(code, s) && Exact(s) && Retired(code, s.dyn, s.rt)
    ensures BaseOf(s)(x) + N([], x) + N(s.sel.i2, x) <= 1
    ensures x in s.sel.i2 ==> |s.rt.retired| <= x < s.fe.nextFetch && N(s.ex.e1, x) + RestOf(s)(x) == 0
    ensures HasIssued(s, x) <==> LoopIssued(s.fe.nextFetch, BaseOf(s), s.sel.i2, Issuer([], s.ex.e1, s.mem), x)
  {
    assert Copies(s, x) <= 1;
    CountMember(s.sel.i2, x);
    if x in s.sel.i2 { LiveNotRetired(code, s, x); }
  }

  lemma I2Order(cycle: nat, code: seq<Uop>, s: State)
    requires MemoryIds(code) && AliveState(code, s) && Exact(s) && Retired(code, s.dyn, s.rt) && IssueOrder(code, s)
    ensures IssueOrder(code, AdvanceI2(cycle, code, s))
  {
    var r := AdvanceI2(cycle, code, s);
    var a := Issuer([], s.ex.e1, s.mem);
    forall x: nat
      ensures BaseOf(s)(x) + N(a.i2, x) + N(s.sel.i2, x) <= 1 && (x in s.sel.i2 ==> x < s.fe.nextFetch)
      ensures HasIssued(s, x) <==> LoopIssued(s.fe.nextFetch, BaseOf(s), s.sel.i2, a, x)
    {
      I2Setup(code, s, x);
    }
    assert IssueLoopInv(code, s.fe.nextFetch, BaseOf(s), s.sel.i2, a);
    IssueLoopOrder(code, s.fe.nextFetch, BaseOf(s), s.sel.i2, cycle, s.dyn, a);
    forall x: nat ensures HasIssued(r, x) <==>
      LoopIssued(s.fe.nextFetch, BaseOf(s), [], IssueLoop(s.sel.i2, cycle, code, s.dyn, a), x) {}
  }

  lemma I2Owners(cycle: nat, code: seq<Uop>, s: State)
    requires MemoryIds(code) && AliveState(code, s) && Exact(s) && Retired(code, s.dyn, s.rt)
    requires LoadQueues(code, s.ex, s.mem) && StoreQueues(code, s)
    ensures var r := AdvanceI2(cycle, code, s);
      && LoadQueues(code, r.ex, r.mem) && (forall x: nat :: N(r.mem.stq, x) == if InStq(code, r, x) then 1 else 0)
  {
    var r := AdvanceI2(cycle, code, s);
    var a := Issuer([], s.ex.e1, s.mem);
    var e := IssueLoop(s.sel.i2, cycle, code, s.dyn, a);
    forall x: nat
      ensures BaseOf(s)(x) + N(a.i2, x) + N(s.sel.i2, x) <= 1
      ensures x in s.sel.i2 ==> |s.rt.retired| <= x < s.fe.nextFetch && N(a.e1, x) + RestOf(s)(x) == 0
      ensures HasIssued(s, x) <==> LoopIssued(s.fe.nextFetch, BaseOf(s), s.sel.i2, a, x)
    {
      I2Setup(code, s, x);
    }
    assert IssueOwners(code, |s.rt.retired|, s.fe.nextFetch, BaseOf(s), RestOf(s), s.sel.i2, a);
    IssueLoopOwners(code, |s.rt.retired|, s.fe.nextFetch, BaseOf(s), RestOf(s), s.sel.i2, cycle, s.dyn, a);
    IssueLoopMem(s.sel.i2, cycle, code, s.dyn, a, 0);
    forall x: nat ensures HasIssued(r, x) <==> LoopIssued(s.fe.nextFetch, BaseOf(s), [], e, x) {}
  }

  lemma I2Started(cycle: nat, code: seq<Uop>, s: State, x: nat)
    requires AliveState(code, s) && UopAt(code, x).lsid.Some?
    ensures HasStarted(code, AdvanceI2(cycle, code, s), x) <==> HasStarted(code, s, x)
  {
    var a := Issuer([], s.ex.e1, s.mem);
    IssueLoopCopies(s.sel.i2, cycle, code, s.dyn, a, x);
    IssueLoopMem(s.sel.i2, cycle, code, s.dyn, a, x);
    assert Copies(s, x) <= 1;
  }

  lemma I2L1d(cycle: nat, code: seq<Uop>, s: State)
    requires AliveState(code, s) && L1dOrder(code, s)
    ensures L1dOrder(code, AdvanceI2(cycle, code, s))
  {
    var r := AdvanceI2(cycle, code, s);
    IssueLoopMem(s.sel.i2, cycle, code, s.dyn, Issuer([], s.ex.e1, s.mem), 0);
    forall x: nat | UopAt(code, x).lsid.Some? ensures HasStarted(code, r, x) <==>
      UopAt(code, x).lsid.value < |r.mem.l1dLog| {
      I2Started(cycle, code, s, x);
      assert HasStarted(code, s, x) <==> UopAt(code, x).lsid.value < |s.mem.l1dLog|;
    }
  }

  lemma I2Memory(cycle: nat, code: seq<Uop>, s: State)
    requires MemoryIds(code) && AliveState(code, s) && Exact(s) && Retired(code, s.dyn, s.rt) && MemInv(code, s)
    ensures MemInv(code, AdvanceI2(cycle, code, s))
  {
    I2Order(cycle, code, s);
    I2Owners(cycle, code, s);
    I2L1d(cycle, code, s);
    I2Stores(cycle, code, s);
  }

  lemma I2Stores(cycle: nat, code: seq<Uop>, s: State)
    requires StoreQueues(code, s)
    requires var r := AdvanceI2(cycle, code, s); forall x: nat :: N(r.mem.stq, x) == if InStq(code, r, x) then 1 else 0
    ensures StoreQueues(code, AdvanceI2(cycle, code, s))
  {
    IssueLoopMem(s.sel.i2, cycle, code, s.dyn, Issuer([], s.ex.e1, s.mem), 0);
  }
}
