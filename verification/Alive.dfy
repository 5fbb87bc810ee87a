/** Invariants of every run: no sequence number is ever held in two places, everything held was
    fetched, and P1 and I1 hold exactly the issue-queue entries marked in flight. */
module Alive {
  import opened Wrappers
  import opened Seqs
  import opened Model
  import opened Queues
  import opened Select
  import opened SelectFacts
  import opened Lsu
  import opened Frontend
  import opened Recovery
  import opened Commit
  import opened Residency

  /** Every sequence number lives in at most one place, and only those below `bound` live at all. */
  ghost predicate LiveBelow(bound: nat, s: State) {
    forall x: nat :: Copies(s, x) <= 1 && (Copies(s, x) > 0 ==> x < bound)
  }

  /** 1 when `x` is an issue-queue entry in flight. */
  function Flight(iq: seq<IqEntry>, x: nat): nat {
    var i := FindEntry(iq, x);
    if i.Some? && iq[i.value].inflight then 1 else 0
  }

  ghost predicate FlightOk(iq: seq<IqEntry>, p1: seq<nat>, i1: seq<nat>) {
    forall x :: N(p1, x) + N(i1, x) == Flight(iq, x)
  }

  ghost predicate UniqueEntries(iq: seq<IqEntry>) {
    forall x :: QueueN(iq, x) <= 1
  }

  lemma {:induction false} CountTwo(q: seq<nat>, i: nat, j: nat)
    requires i < j < |q| && q[i] == q[j]
    ensures N(q, q[i]) >= 2
  {
    if i == 0 {
      assert q[1..][j - 1] == q[j];
      CountMember(q[1..], q[j]);
    } else {
      assert q[1..][i - 1] == q[i] && q[1..][j - 1] == q[j];
      CountTwo(q[1..], i - 1, j - 1);
    }
  }

  lemma EntryAt(iq: seq<IqEntry>, i: nat)
    requires UniqueEntries(iq) && i < |iq|
    ensures FindEntry(iq, iq[i].seqNo) == Some(i)
  {
    var j := FindEntry(iq, iq[i].seqNo);
    assert QueueN(iq, iq[i].seqNo) <= 1;
    if j.value < i { CountTwo(SeqNos(iq), j.value, i); }
  }

  lemma FindEntryCount(iq: seq<IqEntry>, x: nat)
    ensures FindEntry(iq, x).Some? <==> QueueN(iq, x) > 0
  {
    CountMember(SeqNos(iq), x);
    if FindEntry(iq, x).Some? {
      assert SeqNos(iq)[FindEntry(iq, x).value] == x;
    }
  }

  lemma {:induction false} PositionFromSeqNos(a: seq<IqEntry>, b: seq<IqEntry>, x: nat)
    requires SeqNos(a) == SeqNos(b)
    ensures FindEntry(a, x) == FindEntry(b, x)
  {
    var i, j := FindEntry(a, x), FindEntry(b, x);
    assert |a| == |SeqNos(a)| == |SeqNos(b)| == |b|;
    assert forall k :: 0 <= k < |a| ==> a[k].seqNo == SeqNos(a)[k] == b[k].seqNo;
  }

  /** Marking the entry of `y` changes the flight count of `y` only. */
  lemma SetInflightFlight(iq: seq<IqEntry>, i: nat, v: bool, x: nat)
    requires i < |iq| && FindEntry(iq, iq[i].seqNo) == Some(i)
    ensures var r := SetInflight(iq, i, v);
      SeqNos(r) == SeqNos(iq) && Flight(r, x) == (if x == iq[i].seqNo then (if v then 1 else 0) else Flight(iq, x))
  {
    var r := SetInflight(iq, i, v);
    assert SeqNos(r) == SeqNos(iq);
    PositionFromSeqNos(r, iq, x);
  }

  // -- Pick ---------------------------------------------------------------------------------------

  ghost predicate PickInv(cands: seq<Keyed>, a: Picker, i1: seq<nat>) {
    && UniqueEntries(a.iq) && FlightOk(a.iq, a.p1, i1)
    && (forall k :: k in cands ==> StandsFor(k, a.iq) && !a.iq[k.index].inflight)
    && (forall x :: KN(cands, x) <= 1)
  }

  lemma {:induction false} KnMember(q: seq<Keyed>, k: Keyed)
    requires k in q
    ensures KN(q, k.seqNo) > 0
  {
    if q[0] != k { KnMember(q[1..], k); }
  }

  lemma PickStep(cands: seq<Keyed>, a: Picker, i1: seq<nat>)
    requires cands != [] && PickInv(cands, a, i1)
    ensures PickInv(cands[1..], Picker(SetInflight(a.iq, cands[0].index, true), a.p1 + [cands[0].seqNo]), i1)
    ensures SeqNos(SetInflight(a.iq, cands[0].index, true)) == SeqNos(a.iq)
  {
    var k := cands[0];
    var iq := SetInflight(a.iq, k.index, true);
    EntryAt(a.iq, k.index);
    SetInflightFlight(a.iq, k.index, true, k.seqNo);
    forall x ensures N(a.p1 + [k.seqNo], x) + N(i1, x) == Flight(iq, x) {
      SetInflightFlight(a.iq, k.index, true, x);
      CountSnoc(a.p1, k.seqNo, x);
    }
    forall x ensures KN(cands[1..], x) <= 1 { assert KN(cands, x) <= 1; }
    forall c | c in cands[1..] ensures StandsFor(c, iq) && !iq[c.index].inflight {
      KnMember(cands[1..], c);
      assert KN(cands, c.seqNo) <= 1;
    }
    forall x ensures QueueN(iq, x) <= 1 { assert QueueN(a.iq, x) <= 1; }
  }

  lemma {:induction false} PickLoopFacts(cands: seq<Keyed>, a: Picker, i1: seq<nat>)
    requires PickInv(cands, a, i1)
    ensures var r := PickLoop(cands, a);
      FlightOk(r.iq, r.p1, i1) && SeqNos(r.iq) == SeqNos(a.iq)
    decreases |cands|
  {
    if cands != [] && |a.p1| < ISSUE_WIDTH {
      PickStep(cands, a, i1);
      PickLoopFacts(cands[1..], Picker(SetInflight(a.iq, cands[0].index, true), a.p1 + [cands[0].seqNo]), i1);
    }
  }

  lemma PickFacts(cycle: nat, code: seq<Uop>, s: State)
    requires UniqueEntries(s.q.iq) && FlightOk(s.q.iq, s.sel.p1, s.sel.i1)
    ensures var r := PickFromIq(cycle, code, s);
      && FlightOk(r.q.iq, r.sel.p1, r.sel.i1) && SeqNos(r.q.iq) == SeqNos(s.q.iq)
      && r == s.(q := s.q.(iq := r.q.iq), sel := s.sel.(p1 := r.sel.p1))
  {
    CandidateFacts(cycle, s.mem.issuePtr, s.q.iq, code, s.dyn, s.rt.rob);
    var cands := Candidates(cycle, s.mem.issuePtr, s.q.iq, code, s.dyn, s.rt.rob);
    forall x ensures KN(cands, x) <= 1 { assert QueueN(s.q.iq, x) <= 1; }
    PickLoopFacts(cands, Picker(s.q.iq, s.sel.p1), s.sel.i1);
  }

  // -- Arbitration --------------------------------------------------------------------------------

  ghost predicate ArbInv(attempts: seq<Keyed>, a: Arbiter, i1: seq<nat>) {
    UniqueEntries(a.iq) && forall x :: N(a.admitted, x) + KN(attempts, x) + N(i1, x) == Flight(a.iq, x)
  }

  lemma ArbStep(attempts: seq<Keyed>, cycle: nat, a: Arbiter, code: seq<Uop>, dyn: seq<Dyn>, i1: seq<nat>)
    requires attempts != [] && ArbInv(attempts, a, i1)
    ensures var r := ArbitrateOne(attempts[0].seqNo, cycle, a, code, dyn);
      ArbInv(attempts[1..], r, i1) && SeqNos(r.iq) == SeqNos(a.iq)
  {
    var y := attempts[0].seqNo;
    var r := ArbitrateOne(y, cycle, a, code, dyn);
    assert KN(attempts, y) > 0;
    assert Flight(a.iq, y) == 1;
    var i := FindEntry(a.iq, y).value;
    forall x
      ensures N(r.admitted, x) + KN(attempts[1..], x) + N(i1, x) == Flight(r.iq, x)
    {
      assert N(a.admitted, x) + KN(attempts, x) + N(i1, x) == Flight(a.iq, x);
      SetInflightFlight(a.iq, i, false, x);
      CountSnoc(a.admitted, y, x);
    }
    SetInflightFlight(a.iq, i, false, y);
    forall x ensures QueueN(r.iq, x) <= 1 { assert QueueN(a.iq, x) <= 1; }
  }

  lemma {:induction false} ArbLoopFacts(attempts: seq<Keyed>, cycle: nat, a: Arbiter, code: seq<Uop>, dyn: seq<Dyn>,
                                        i1: seq<nat>)
    requires ArbInv(attempts, a, i1)
    ensures var r := ArbitrateLoop(attempts, cycle, a, code, dyn);
      ArbInv([], r, i1) && SeqNos(r.iq) == SeqNos(a.iq)
    decreases |attempts|
  {
    if attempts != [] {
      ArbStep(attempts, cycle, a, code, dyn, i1);
      ArbLoopFacts(attempts[1..], cycle, ArbitrateOne(attempts[0].seqNo, cycle, a, code, dyn), code, dyn, i1);
    }
  }

  lemma {:induction false} AttemptsCount(p1: seq<nat>, rob: seq<nat>, q: seq<Keyed>, x: nat)
    requires |q| == |p1| && forall i :: 0 <= i < |p1| ==> q[i].seqNo == p1[i]
    ensures KN(q, x) == N(p1, x)
  {
    if p1 != [] { AttemptsCount(p1[1..], rob, q[1..], x); }
  }

  lemma ArbitrateFacts(cycle: nat, code: seq<Uop>, s: State)
    requires UniqueEntries(s.q.iq) && FlightOk(s.q.iq, s.sel.p1, s.sel.i1)
    ensures var r := ArbitrateAndAdvance(cycle, code, s);
      && FlightOk(r.q.iq, r.sel.p1, r.sel.i1) && SeqNos(r.q.iq) == SeqNos(s.q.iq)
      && r == s.(q := s.q.(iq := r.q.iq), sel := s.sel.(p1 := r.sel.p1, i1 := r.sel.i1))
  {
    var q := Attempts(s.sel.p1, s.rt.rob);
    SortFacts(q);
    var start := Arbiter(s.q.iq, [], 0, {});
    forall x ensures N([], x) + KN(SortKeyed(q), x) + N(s.sel.i1, x) == Flight(s.q.iq, x) {
      AttemptsCount(s.sel.p1, s.rt.rob, q, x);
    }
    ArbLoopFacts(SortKeyed(q), cycle, start, code, s.dyn, s.sel.i1);
    var a := Arbitrate(cycle, code, s.sel.p1, s.q.iq, s.dyn, s.rt.rob);
    var n := MoveCount(s.sel.i1, a.admitted, ISSUE_WIDTH);
    forall x ensures N(a.admitted[n..], x) + N(s.sel.i1 + a.admitted[..n], x) == Flight(a.iq, x) {
      CountMove(s.sel.i1, a.admitted, n, x);
      assert N(a.admitted, x) + KN([], x) + N(s.sel.i1, x) == Flight(a.iq, x);
    }
  }

  // -- I1 to I2 -----------------------------------------------------------------------------------

  lemma MoveOneFacts(y: nat, m: Mover, iq: seq<IqEntry>, x: nat)
    requires FindEntry(iq, y).Some?
    ensures var r := MoveOne(y, m, iq);
      && N(r.i1, x) + N(r.moved, x) == N(m.i1, x) + N(m.moved, x) + (if x == y then 1 else 0)
      && N(r.i2, x) - N(r.moved, x) == N(m.i2, x) - N(m.moved, x)
  {
    if |m.i2| >= ISSUE_WIDTH || iq[FindEntry(iq, y).value].physIq in m.usedQueues {
      CountSnoc(m.i1, y, x);
    } else {
      CountSnoc(m.i2, y, x);
      CountSnoc(m.moved, y, x);
    }
  }

  lemma {:induction false} MoveLoopFacts(pending: seq<nat>, m: Mover, iq: seq<IqEntry>, x: nat)
    requires forall y :: y in pending ==> FindEntry(iq, y).Some?
    ensures var r := MoveLoop(pending, m, iq);
      && N(r.i1, x) + N(r.moved, x) == N(m.i1, x) + N(m.moved, x) + N(pending, x)
      && N(r.i2, x) - N(r.moved, x) == N(m.i2, x) - N(m.moved, x)
  {
    if pending != [] {
      MoveOneFacts(pending[0], m, iq, x);
      MoveLoopFacts(pending[1..], MoveOne(pending[0], m, iq), iq, x);
    }
  }

  lemma {:induction false} RetainFind(iq: seq<IqEntry>, keep: nat -> bool, keepEntry: IqEntry -> bool, x: nat)
    requires forall e :: keepEntry(e) == keep(e.seqNo)
    ensures Flight(Retain(iq, keepEntry), x) == if keep(x) then Flight(iq, x) else 0
  {
    var r := Retain(iq, keepEntry);
    if iq != [] {
      RetainFind(iq[1..], keep, keepEntry, x);
      FlightHead(iq, x);
      var tail := Retain(iq[1..], keepEntry);
      assert [] + tail == tail;
      assert ([iq[0]] + tail)[1..] == tail;
      FlightHead([iq[0]] + tail, x);
    }
  }

  lemma FlightHead(iq: seq<IqEntry>, x: nat)
    requires iq != []
    ensures Flight(iq, x) == if iq[0].seqNo == x then (if iq[0].inflight then 1 else 0) else Flight(iq[1..], x)
  {
    var i, j := FindEntry(iq, x), FindEntry(iq[1..], x);
    if iq[0].seqNo != x {
      assert forall k :: 0 < k < |iq| ==> iq[k] == iq[1..][k - 1];
      if i.Some? { assert iq[1..][i.value - 1].seqNo == x; }
    }
  }

  lemma I1ToI2Facts(s: State)
    requires UniqueEntries(s.q.iq) && FlightOk(s.q.iq, s.sel.p1, s.sel.i1)
    ensures var r := AdvanceI1ToI2(s);
      && FlightOk(r.q.iq, r.sel.p1, r.sel.i1)
      && (forall x :: QueueN(r.q.iq, x) + N(r.sel.i2, x) == QueueN(s.q.iq, x) + N(s.sel.i2, x))
      && UniqueEntries(r.q.iq)
  {
    var m := MoveLoop(s.sel.i1, Mover([], s.sel.i2, [], {}), s.q.iq);
    var iq := Retain(s.q.iq, (e: IqEntry) => e.seqNo !in m.moved);
    forall y | y in s.sel.i1 ensures FindEntry(s.q.iq, y).Some? {
      CountMember(s.sel.i1, y);
      assert N(s.sel.p1, y) + N(s.sel.i1, y) == Flight(s.q.iq, y);
    }
    forall x
      ensures N(s.sel.p1, x) + N(m.i1, x) == Flight(iq, x)
      ensures QueueN(iq, x) + N(m.i2, x) == QueueN(s.q.iq, x) + N(s.sel.i2, x)
      ensures QueueN(iq, x) <= 1
    {
      MoveLoopFacts(s.sel.i1, Mover([], s.sel.i2, [], {}), s.q.iq, x);
      assert N(s.sel.p1, x) + N(s.sel.i1, x) == Flight(s.q.iq, x) && QueueN(s.q.iq, x) <= 1;
      RetainFind(s.q.iq, y => y !in m.moved, (e: IqEntry) => e.seqNo !in m.moved, x);
      RetainEntries(s.q.iq, y => y !in m.moved, (e: IqEntry) => e.seqNo !in m.moved, x);
      CountMember(m.moved, x);
      FindEntryCount(s.q.iq, x);
    }
  }

  // -- The invariant over whole cycles ------------------------------------------------------------

  ghost predicate AliveState(code: seq<Uop>, s: State) {
    && |s.dyn| == |code| && s.fe.nextFetch <= |code|
    && LiveBelow(s.fe.nextFetch, s)
    && FlightOk(s.q.iq, s.sel.p1, s.sel.i1)
  }

  /** The redirect protocol between cycles: a pending flush and the fetch restart come together,
      are due in this very cycle, and the restart lies past the flush point. */
  predicate RedirectOk(cycle: nat, code: seq<Uop>, fe: Fetch) {
    && (fe.pendingFlush.Some? <==> fe.redirect.Some?)
    && (fe.pendingFlush.Some? ==>
          && fe.pendingFlush.value.applyCycle == cycle && fe.redirect.value.resumeCycle == cycle
          && fe.pendingFlush.value.flushSeq == fe.redirect.value.sourceSeq
          && fe.redirect.value.sourceSeq < fe.redirect.value.restartSeq <= |code|)
  }

  lemma UniqueFromLive(bound: nat, s: State)
    requires LiveBelow(bound, s)
    ensures UniqueEntries(s.q.iq)
  {
    forall x ensures QueueN(s.q.iq, x) <= 1 { assert Copies(s, x) <= 1; }
  }

  lemma UpToMember(q: seq<nat>, f: nat, x: nat)
    ensures x in UpTo(q, f) <==> x in q && x <= f
  {
    RetainMember(q, y => y <= f, x);
  }

  lemma FlushCopies(flush: Flush, code: seq<Uop>, s: State, x: nat)
    ensures Copies(ApplyFlush(flush, code, s), x) == if x <= flush.flushSeq then Copies(s, x) else 0
  {
    PruneCopies(flush.flushSeq, s.(q := RestoreReady(flush.checkpoint, s.q)), x);
  }

  lemma FlushFlight(flush: Flush, code: seq<Uop>, s: State, x: nat)
    requires FlightOk(s.q.iq, s.sel.p1, s.sel.i1)
    ensures var r := ApplyFlush(flush, code, s); N(r.sel.p1, x) + N(r.sel.i1, x) == Flight(r.q.iq, x)
  {
    var f := flush.flushSeq;
    UpToCount(s.sel.p1, f, x);
    UpToCount(s.sel.i1, f, x);
    RetainFind(s.q.iq, y => y <= f, (e: IqEntry) => e.seqNo <= f, x);
    assert N(s.sel.p1, x) + N(s.sel.i1, x) == Flight(s.q.iq, x);
  }

  /** After the flush nothing younger than the flush point is left in any place. */
  lemma FlushFacts(flush: Flush, code: seq<Uop>, s: State)
    requires AliveState(code, s)
    ensures var r := ApplyFlush(flush, code, s);
      && LiveBelow(flush.flushSeq + 1, r) && FlightOk(r.q.iq, r.sel.p1, r.sel.i1)
      && r.fe == s.fe.(front := r.fe.front, pendingFlush := None) && r.dyn == s.dyn
  {
    var r := ApplyFlush(flush, code, s);
    forall x: nat ensures Copies(r, x) <= 1 && (Copies(r, x) > 0 ==> x < flush.flushSeq + 1) {
      FlushCopies(flush, code, s, x);
      assert Copies(s, x) <= 1;
    }
    forall x ensures N(r.sel.p1, x) + N(r.sel.i1, x) == Flight(r.q.iq, x) { FlushFlight(flush, code, s, x); }
  }

  lemma FetchFacts(code: seq<Uop>, s: State, fe: Fetch)
    requires fe.nextFetch <= |code| && fe.front == s.fe.front && LiveBelow(fe.nextFetch, s)
    ensures var r := s.(fe := FetchLoop(code, s.dyn, fe));
      && r.fe == fe.(front := r.fe.front, nextFetch := r.fe.nextFetch)
      && fe.nextFetch <= r.fe.nextFetch <= |code| && LiveBelow(r.fe.nextFetch, r)
      && (forall x: nat :: Copies(r, x) == Copies(s, x) + (if fe.nextFetch <= x < r.fe.nextFetch then 1 else 0))
  {
    var r := s.(fe := FetchLoop(code, s.dyn, fe));
    FetchCopies(code, s.dyn, fe, 0);
    forall x: nat
      ensures Copies(r, x) == Copies(s, x) + (if fe.nextFetch <= x < r.fe.nextFetch then 1 else 0)
      ensures Copies(r, x) <= 1 && (Copies(r, x) > 0 ==> x < r.fe.nextFetch)
    {
      FetchCopies(code, s.dyn, fe, x);
      assert Copies(s, x) <= 1 && (Copies(s, x) > 0 ==> x < fe.nextFetch);
    }
  }

  /** Flush and restart fire together, at the start of the cycle they are due. */
  lemma RestartFacts(cycle: nat, code: seq<Uop>, s: State)
    requires AliveState(code, s) && RedirectOk(cycle, code, s.fe)
    ensures var r := FillFetch(cycle, code, ApplyPendingFlush(cycle, code, s));
      AliveState(code, r) && r.fe.pendingFlush.None? && r.fe.redirect.None?
  {
    if s.fe.pendingFlush.None? {
      FetchFacts(code, s, s.fe);
    } else {
      var t := ApplyFlush(s.fe.pendingFlush.value, code, s);
      FlushFacts(s.fe.pendingFlush.value, code, s);
      forall x: nat ensures Copies(t, x) <= 1 && (Copies(t, x) > 0 ==> x < t.fe.redirect.value.restartSeq) {
        assert Copies(t, x) <= 1 && (Copies(t, x) > 0 ==> x < s.fe.pendingFlush.value.flushSeq + 1);
      }
      FetchFacts(code, t, TakeRestart(t.fe));
    }
  }

  /** Same residents, same flight marks: `AliveState` carries over. */
  lemma AliveCarries(code: seq<Uop>, s: State, r: State)
    requires AliveState(code, s)
    requires forall x: nat :: Copies(r, x) <= Copies(s, x)
    requires FlightOk(r.q.iq, r.sel.p1, r.sel.i1)
    requires r.fe.nextFetch == s.fe.nextFetch && |r.dyn| == |s.dyn|
    ensures AliveState(code, r)
  {
    forall x: nat ensures Copies(r, x) <= 1 && (Copies(r, x) > 0 ==> x < r.fe.nextFetch) {
      assert Copies(s, x) <= 1 && (Copies(s, x) > 0 ==> x < s.fe.nextFetch);
    }
  }

  lemma UpdateIqFacts(cycle: nat, code: seq<Uop>, q: Queue, dyn: seq<Dyn>, x: nat)
    ensures var r := UpdateQueue(cycle, code, dyn, q);
      && SeqNos(r.iq) == SeqNos(q.iq) && Flight(r.iq, x) == Flight(q.iq, x) && r == q.(iq := r.iq)
      && (forall i :: 0 <= i < |q.iq| ==> OnlySources(r.iq[i], q.iq[i]))
  {
    var a := UpdateEntries(cycle, q.iq, q.ready, code, dyn);
    var b := PublishFrom(cycle, 0, a, q, code, dyn);
    assert forall i :: 0 <= i < |q.iq| ==> OnlySources(a[i], q.iq[i]) && OnlySources(b[i], a[i]);
    assert SeqNos(b) == SeqNos(q.iq);
    PositionFromSeqNos(b, q.iq, x);
  }

  /** The steps between restart and retirement move no uop. */
  lemma MiddleAlive(cycle: nat, input: Input, code: seq<Uop>, s: State)
    requires AliveState(code, s)
    ensures var r := AdvanceScb(cycle, code,
        UpdateIq(cycle, code, PublishFaults(input.faults, TagStageCycles(cycle, code, s))));
      AliveState(code, r) && r.fe == s.fe && r.ex == s.ex && r.sel == s.sel
  {
    var t := PublishFaults(input.faults, TagStageCycles(cycle, code, s));
    var r := AdvanceScb(cycle, code, UpdateIq(cycle, code, t));
    forall x: nat ensures Copies(r, x) == Copies(s, x) && Flight(r.q.iq, x) == Flight(s.q.iq, x) {
      UpdateIqFacts(cycle, code, s.q, t.dyn, x);
      ScbCopies(cycle, code, s.mem, x);
    }
    AliveCarries(code, s, r);
  }

  lemma RetireAlive(cycle: nat, code: seq<Uop>, s: State)
    requires AliveState(code, s)
    ensures var r := RetireReady(cycle, code, s);
      AliveState(code, r) && r.fe == s.fe && r.ex == s.ex && r.sel == s.sel && r.dyn == s.dyn
        && r.q == s.q.(ready := r.q.ready)
  {
    var r := RetireReady(cycle, code, s);
    forall x: nat ensures Copies(r, x) <= Copies(s, x) {}
    AliveCarries(code, s, r);
  }

  lemma ScheduleAlive(cycle: nat, input: Input, code: seq<Uop>, s: State)
    requires AliveState(code, s) && s.fe.pendingFlush.None? && s.fe.redirect.None?
    ensures var r := ScheduleRedirect(cycle, input, code, s);
      AliveState(code, r) && RedirectOk(cycle + 1, code, r.fe)
        && r == s.(fe := s.fe.(pendingFlush := r.fe.pendingFlush, redirect := r.fe.redirect))
  {
    var r := ScheduleRedirect(cycle, input, code, s);
    forall x: nat ensures Copies(r, x) <= Copies(s, x) {}
    AliveCarries(code, s, r);
  }

  lemma {:induction false} E4LoopLength(pending: seq<nat>, cycle: nat, opts: Options, code: seq<Uop>, a: E4Stage)
    ensures |E4Loop(pending, cycle, opts, code, a).dyn| == |a.dyn|
  {
    if pending != [] { E4LoopLength(pending[1..], cycle, opts, code, E4One(pending[0], cycle, opts, code, a)); }
  }

  lemma {:induction false} DispatchLoopLength(pending: seq<nat>, cycle: nat, input: Input, code: seq<Uop>,
                                              d: Dispatcher)
    ensures |DispatchLoop(pending, cycle, input, code, d).dyn| == |d.dyn|
  {
    if pending != [] {
      DispatchLoopLength(pending[1..], cycle, input, code, DispatchOne(pending[0], cycle, input, code, d));
    }
  }

  lemma I1ToI2Alive(code: seq<Uop>, s: State)
    requires AliveState(code, s)
    ensures AliveState(code, AdvanceI1ToI2(s))
  {
    var r := AdvanceI1ToI2(s);
    UniqueFromLive(s.fe.nextFetch, s);
    I1ToI2Facts(s);
    forall x: nat ensures Copies(r, x) <= Copies(s, x) {
      assert QueueN(r.q.iq, x) + N(r.sel.i2, x) == QueueN(s.q.iq, x) + N(s.sel.i2, x);
    }
    AliveCarries(code, s, r);
  }

  lemma ArbitrateAlive(cycle: nat, code: seq<Uop>, s: State)
    requires AliveState(code, s)
    ensures AliveState(code, ArbitrateAndAdvance(cycle, code, s))
  {
    var r := ArbitrateAndAdvance(cycle, code, s);
    UniqueFromLive(s.fe.nextFetch, s);
    ArbitrateFacts(cycle, code, s);
    forall x: nat ensures Copies(r, x) <= Copies(s, x) {}
    AliveCarries(code, s, r);
  }

  lemma PickAlive(cycle: nat, code: seq<Uop>, s: State)
    requires AliveState(code, s)
    ensures AliveState(code, PickFromIq(cycle, code, s))
  {
    var r := PickFromIq(cycle, code, s);
    UniqueFromLive(s.fe.nextFetch, s);
    PickFacts(cycle, code, s);
    forall x: nat ensures Copies(r, x) <= Copies(s, x) {}
    AliveCarries(code, s, r);
  }

  lemma I2Alive(cycle: nat, code: seq<Uop>, s: State)
    requires AliveState(code, s)
    ensures AliveState(code, AdvanceI2(cycle, code, s))
  {
    var r := AdvanceI2(cycle, code, s);
    forall x: nat ensures Copies(r, x) <= Copies(s, x) { I2Copies(cycle, code, s, x); }
    AliveCarries(code, s, r);
  }

  // -- Dispatch: the entry it adds is not in flight -----------------------------------------------

  lemma FlightAppend(iq: seq<IqEntry>, e: IqEntry, x: nat)
    requires QueueN(iq, e.seqNo) == 0 && !e.inflight
    ensures Flight(iq + [e], x) == Flight(iq, x)
  {
    FindEntryCount(iq, e.seqNo);
    var i, j := FindEntry(iq, x), FindEntry(iq + [e], x);
    if x == e.seqNo {
      assert (iq + [e])[|iq|].seqNo == x;
    } else {
      assert forall k :: 0 <= k < |iq| ==> (iq + [e])[k] == iq[k];
      if i.Some? { assert (iq + [e])[i.value].seqNo == x; }
      if j.Some? { assert j.value < |iq|; }
    }
  }

  lemma {:induction false} DispatchLoopFlight(pending: seq<nat>, cycle: nat, input: Input, code: seq<Uop>,
                                              d: Dispatcher, x: nat)
    requires forall y: nat :: N(pending, y) + QueueN(d.q.iq, y) <= 1
    ensures Flight(DispatchLoop(pending, cycle, input, code, d).q.iq, x) == Flight(d.q.iq, x)
  {
    if pending != [] {
      var y := pending[0];
      var d' := DispatchOne(y, cycle, input, code, d);
      assert N(pending, y) + QueueN(d.q.iq, y) <= 1;
      if d'.q.iq != d.q.iq {
        var e := d'.q.iq[|d.q.iq|];
        assert d'.q.iq == d.q.iq + [e] && e.seqNo == y;
        assert SeqNos(d'.q.iq) == SeqNos(d.q.iq) + [y];
        FlightAppend(d.q.iq, e, x);
      }
      forall z: nat ensures N(pending[1..], z) + QueueN(d'.q.iq, z) <= 1 {
        assert N(pending, z) + QueueN(d.q.iq, z) <= 1;
        CountSnoc(SeqNos(d.q.iq), y, z);
      }
      DispatchLoopFlight(pending[1..], cycle, input, code, d', x);
    }
  }

  lemma DispatchAlive(cycle: nat, input: Input, code: seq<Uop>, s: State)
    requires AliveState(code, s)
    ensures AliveState(code, Dispatch(cycle, input, code, s))
  {
    var r := Dispatch(cycle, input, code, s);
    var d := Dispatcher([], s.ex.w2, s.q, s.dyn, map[]);
    DispatchLoopLength(s.fe.front[10], cycle, input, code, d);
    forall x: nat ensures Copies(r, x) <= Copies(s, x) { DispatchCopies(cycle, input, code, s, x); }
    forall y: nat ensures N(s.fe.front[10], y) + QueueN(s.q.iq, y) <= 1 {
      assert Copies(s, y) <= 1;
      assert FrontN(s.fe.front, y) == StageCount(s.fe.front, 10, y) + N(s.fe.front[10], y);
    }
    forall x ensures N(r.sel.p1, x) + N(r.sel.i1, x) == Flight(r.q.iq, x) {
      DispatchLoopFlight(s.fe.front[10], cycle, input, code, d, x);
      assert N(s.sel.p1, x) + N(s.sel.i1, x) == Flight(s.q.iq, x);
    }
    AliveCarries(code, s, r);
  }

  lemma FrontendAlive(code: seq<Uop>, s: State)
    requires AliveState(code, s)
    ensures AliveState(code, AdvanceFrontend(s))
  {
    var r := AdvanceFrontend(s);
    forall x: nat ensures Copies(r, x) <= Copies(s, x) {
      FrontendCopies(|s.fe.front| - 1, Stages(s.fe.front, s.rt.rob), x);
    }
    AliveCarries(code, s, r);
  }
}
