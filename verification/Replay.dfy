/** Following a run by hand: what the steps of a cycle do while few uops, and no memory uops, are in
    flight. */
module Replay {
  import opened Wrappers
  import opened Seqs
  import opened Model
  import opened Queues
  import opened Select
  import opened SelectFacts
  import opened Lsu
  import opened Frontend
  import opened Recovery
  import opened Commit
  import Runs

  const NO_MEM: Mem := Mem([], [], [], [], [], [], 0, 0, 0, [], [])

  /** No uop accesses memory or is known to redirect. */
  ghost predicate PlainCode(code: seq<Uop>) {
    forall x :: 0 <= x < |code| ==>
      && !code[x].isLoad && !code[x].isStore && code[x].lsid.None? && code[x].redirectTarget.None?
  }

  // -- Execution ----------------------------------------------------------------------------------

  lemma {:induction false} E1Plain(pending: seq<nat>, code: seq<Uop>, ex: Exec)
    requires PlainCode(code) && |ex.w1| + |pending| <= ISSUE_WIDTH
    ensures E1Loop(pending, code, ex) == ex.(w1 := ex.w1 + pending)
  {
    if pending == [] {
      assert ex.w1 + pending == ex.w1;
    } else {
      E1Plain(pending[1..], code, ex.(w1 := ex.w1 + [pending[0]]));
      assert (ex.w1 + [pending[0]]) + pending[1..] == ex.w1 + pending;
    }
  }

  lemma MovesPlain(ex: Exec)
    requires ex.e2 == [] && ex.e3 == [] && ex.e4 == [] && |ex.w1| <= ISSUE_WIDTH
    ensures E2ToE3(E3ToE4(W1ToW2(ex).(e4 := []))) == Exec(ex.e1, [], [], [], [], ex.w1)
  {
    var n := MoveCount([], ex.w1, ISSUE_WIDTH);
    assert ex.w1[..n] == ex.w1 && ex.w1[n..] == [];
  }

  lemma AdvanceE1Plain(code: seq<Uop>, ex: Exec)
    requires PlainCode(code) && ex.w1 == [] && |ex.e1| <= ISSUE_WIDTH
    ensures AdvanceE1(code, ex) == ex.(e1 := [], w1 := ex.e1)
  {
    E1Plain(ex.e1, code, ex.(e1 := []));
    assert ex.w1 + ex.e1 == ex.e1;
  }

  /** E1 goes to writeback, W1 to W2. */
  lemma ExecutePlain(cycle: nat, opts: Options, code: seq<Uop>, s: State)
    requires PlainCode(code) && s.ex.e2 == [] && s.ex.e3 == [] && s.ex.e4 == [] && |s.ex.e1| <= ISSUE_WIDTH
      && |s.ex.w1| <= ISSUE_WIDTH
    ensures AdvanceExecute(cycle, opts, code, s) == s.(ex := Exec([], [], [], [], s.ex.e1, s.ex.w1))
  {
    MovesPlain(s.ex);
    AdvanceE1Plain(code, E2ToE3(E3ToE4(W1ToW2(s.ex).(e4 := []))));
  }

  lemma IdleMemory(cycle: nat, code: seq<Uop>, s: State)
    requires s.mem == NO_MEM
    ensures AdvanceScb(cycle, code, s) == s && AdvanceL1d(cycle, s) == s && AdvanceLiq(cycle, code, s) == s
  {
  }

  // -- A cycle without memory uops ----------------------------------------------------------------

  /** From execution on. */
  function Rest(cycle: nat, input: Input, code: seq<Uop>, s: State): State {
    AdvanceFrontend(Dispatch(cycle, input, code,
      PickFromIq(cycle, code, AdvanceI2(cycle, code, ArbitrateAndAdvance(cycle, code, AdvanceI1ToI2(s))))))
  }

  function Tagged0(cycle: nat, code: seq<Uop>, s: State): State {
    TagStageCycles(cycle, code, FillFetch(cycle, code, ApplyPendingFlush(cycle, code, s)))
  }

  lemma FrontPlain(cycle: nat, input: Input, code: seq<Uop>, s: State)
    requires input.faults == [] && Tagged0(cycle, code, s).mem == NO_MEM
    requires var b := Tagged0(cycle, code, s); UpdateQueue(cycle, code, b.dyn, b.q) == b.q
    ensures FrontHalf(cycle, input, code, s) == Tagged0(cycle, code, s)
  {
    var b := Tagged0(cycle, code, s);
    assert PublishFaults(input.faults, b) == b;
    assert UpdateIq(cycle, code, b) == b;
    IdleMemory(cycle, code, b);
  }

  lemma BackPlain(cycle: nat, opts: Options, input: Input, code: seq<Uop>, s: State)
    requires PlainCode(code) && s.mem == NO_MEM
    requires s.ex.e2 == [] && s.ex.e3 == [] && s.ex.e4 == [] && |s.ex.e1| <= ISSUE_WIDTH && |s.ex.w1| <= ISSUE_WIDTH
    ensures BackHalf(cycle, opts, input, code, s)
        == Rest(cycle, input, code, s.(ex := Exec([], [], [], [], s.ex.e1, s.ex.w1)))
  {
    ExecutePlain(cycle, opts, code, s);
    IdleMemory(cycle, code, s.(ex := Exec([], [], [], [], s.ex.e1, s.ex.w1)));
  }

  /** The cycle as a whole: `b` after tagging, `c` after retirement, `d` after redirect scheduling. */
  lemma StepPlain(cycle: nat, opts: Options, input: Input, code: seq<Uop>, s: State, b: State, c: State, d: State)
    requires PlainCode(code) && input.faults == [] && !s.rt.halted
    requires b == Tagged0(cycle, code, s) && b.mem == NO_MEM && UpdateQueue(cycle, code, b.dyn, b.q) == b.q
    requires c == RetireReady(cycle, code, b) && !c.rt.halted && d == ScheduleRedirect(cycle, input, code, c)
    requires |d.rt.committed| != opts.targetCommits && d.mem == NO_MEM
    requires d.ex.e2 == [] && d.ex.e3 == [] && d.ex.e4 == [] && |d.ex.e1| <= ISSUE_WIDTH && |d.ex.w1| <= ISSUE_WIDTH
    ensures Step(cycle, opts, input, code, s)
        == Rest(cycle, input, code, d.(ex := Exec([], [], [], [], d.ex.e1, d.ex.w1)))
  {
    FrontPlain(cycle, input, code, s);
    BackPlain(cycle, opts, input, code, d);
  }

  // -- Fetch --------------------------------------------------------------------------------------

  function FetchEnd(code: seq<Uop>, fe: Fetch): nat {
    if fe.nextFetch >= |code| || |fe.front[0]| >= FETCH_WIDTH then fe.nextFetch
    else if |code| - fe.nextFetch <= FETCH_WIDTH - |fe.front[0]| then |code|
    else fe.nextFetch + FETCH_WIDTH - |fe.front[0]|
  }

  /** Without redirects fetch fills F0. */
  lemma {:induction false} FetchFills(code: seq<Uop>, dyn: seq<Dyn>, fe: Fetch)
    requires PlainCode(code) && fe.nextFetch <= |code|
    ensures FetchLoop(code, dyn, fe)
         == fe.(front := fe.front[0 := fe.front[0] + Range(fe.nextFetch, FetchEnd(code, fe))],
             nextFetch := FetchEnd(code, fe))
    decreases |code| - fe.nextFetch
  {
    assert !FetchBarrier(fe.nextFetch, code, dyn);
    if |fe.front[0]| >= FETCH_WIDTH || fe.nextFetch >= |code| {
      assert fe.front[0] + Range(fe.nextFetch, FetchEnd(code, fe)) == fe.front[0];
      assert fe.front[0 := fe.front[0]] == fe.front;
    } else {
      var fe' := fe.(front := fe.front[0 := fe.front[0] + [fe.nextFetch]], nextFetch := fe.nextFetch + 1);
      FetchFills(code, dyn, fe');
      var n := FetchEnd(code, fe);
      assert FetchEnd(code, fe') == n;
      assert (fe.front[0] + [fe.nextFetch]) + Range(fe.nextFetch + 1, n) == fe.front[0] + Range(fe.nextFetch, n);
      assert fe'.front[0 := fe.front[0] + Range(fe.nextFetch, n)]
          == fe.front[0 := fe.front[0] + Range(fe.nextFetch, n)];
    }
  }

  // -- The frontend -------------------------------------------------------------------------------

  /** Every stage takes the contents of the one before it. */
  function Shifted(front: Front): Front { ([[]] + front[..9]) + [front[10] + front[9]] }

  lemma ShiftedAt(front: Front)
    ensures forall i :: 0 <= i < STAGES ==>
      Shifted(front)[i] == if i == 0 then [] else if i == 10 then front[10] + front[9] else front[i - 1]
  {
  }

  function PartlyAt(front: Front, idx: nat, i: nat): seq<nat>
    requires i < STAGES
  {
    if i < idx then front[i] else if i == idx then [] else if i == 10 then front[10] + front[9] else front[i - 1]
  }

  /** The stages after those from `idx` on have moved. */
  function Partly(front: Front, idx: nat): Front
    requires idx < STAGES
  {
    if idx == 10 then front else seq(STAGES, i requires 0 <= i < STAGES => PartlyAt(front, idx, i))
  }

  function Slots(front: Front, rob: seq<nat>, idx: nat): seq<nat> {
    if idx < 7 then AllocateRob(front[6], rob) else rob
  }

  ghost predicate RoomToShift(front: Front, rob: seq<nat>) {
    && (forall i :: 0 <= i < STAGES ==> |front[i]| <= DISPATCH_WIDTH) && |front[10]| + |front[9]| <= DISPATCH_WIDTH
    && |rob| + |NotInRob(front[6], rob)| <= ROB_CAPACITY
  }

  lemma ShiftOne(idx: nat, front: Front, rob: seq<nat>)
    requires 1 <= idx < STAGES && RoomToShift(front, rob)
    ensures AdvanceStage(idx, Stages(Partly(front, idx), Slots(front, rob, idx)))
        == Stages(Partly(front, idx - 1), Slots(front, rob, idx - 1))
  {
    var f := Partly(front, idx);
    var n := MoveCount(f[idx], f[idx - 1], DISPATCH_WIDTH);
    assert f[idx - 1] == front[idx - 1];
    assert n == |f[idx - 1]|;
    assert f[idx - 1][..n] == f[idx - 1] && f[idx - 1][n..] == [];
    assert f[idx] + f[idx - 1] == if idx == 10 then front[10] + front[9] else front[idx - 1];
    assert MoveStage(idx, f) == Partly(front, idx - 1);
  }

  lemma {:induction false} ShiftFrom(idx: nat, front: Front, rob: seq<nat>)
    requires idx < STAGES && RoomToShift(front, rob)
    ensures AdvanceStages(idx, Stages(Partly(front, idx), Slots(front, rob, idx)))
        == Stages(Partly(front, 0), Slots(front, rob, 0))
    decreases idx
  {
    if idx > 0 {
      ShiftOne(idx, front, rob);
      ShiftFrom(idx - 1, front, rob);
    }
  }

  lemma FrontendShifts(s: State)
    requires RoomToShift(s.fe.front, s.rt.rob)
    ensures AdvanceFrontend(s) == s.(fe := s.fe.(front := Shifted(s.fe.front)),
        rt := s.rt.(rob := AllocateRob(s.fe.front[6], s.rt.rob)))
  {
    var top := |s.fe.front| - 1;
    ShiftFrom(top, s.fe.front, s.rt.rob);
    assert Partly(s.fe.front, 0) == Shifted(s.fe.front);
  }

  // -- Issue queue to E1 --------------------------------------------------------------------------

  lemma {:induction false} WaitersKept(ws: seq<(nat, nat)>, keep: nat -> bool)
    requires forall w :: w in ws ==> keep(w.0)
    ensures Retain(ws, (w: (nat, nat)) => keep(w.0)) == ws
  {
    if ws != [] { WaitersKept(ws[1..], keep); }
  }

  lemma CrossbarKept(crossbar: map<QTag, seq<(nat, nat)>>, keep: nat -> bool)
    requires forall t, w :: t in crossbar && w in crossbar[t] ==> keep(w.0)
    ensures RetainWaiters(crossbar, keep) == crossbar
  {
    forall t | t in crossbar ensures Retain(crossbar[t], (w: (nat, nat)) => keep(w.0)) == crossbar[t] {
      WaitersKept(crossbar[t], keep);
    }
  }

  function Rebuilt(q: Queue): Queue { q.(owner := RebuildOwner(q.iq, q.iqTags)) }

  /** Nothing in I1: only the owner table is rebuilt. */
  lemma I1Empty(s: State)
    requires s.sel.i1 == []
    ensures AdvanceI1ToI2(s) == s.(q := Rebuilt(s.q))
  {
    RetainAll(s.q.iq, (e: IqEntry) => e.seqNo !in []);
    CrossbarKept(s.q.crossbar, x => x !in []);
    assert RetainTags(s.q.iqTags, x => x !in []) == s.q.iqTags;
  }

  lemma {:induction false} RetainOthers(iq: seq<IqEntry>, i: nat, x: nat)
    requires i < |iq| && iq[i].seqNo == x && forall j :: 0 <= j < |iq| && j != i ==> iq[j].seqNo != x
    ensures Retain(iq, (e: IqEntry) => e.seqNo !in [x]) == RemoveAt(iq, i)
  {
    if i == 0 {
      RetainAll(iq[1..], (e: IqEntry) => e.seqNo !in [x]);
    } else {
      assert iq[1..][i - 1] == iq[i];
      RetainOthers(iq[1..], i - 1, x);
      assert RemoveAt(iq, i) == [iq[0]] + RemoveAt(iq[1..], i - 1);
    }
  }

  /** The one occupant of I1 leaves the issue queue for I2. */
  lemma I1One(s: State, x: nat, i: nat)
    requires s.sel.i1 == [x] && s.sel.i2 == [] && i < |s.q.iq| && s.q.iq[i].seqNo == x
    requires forall j :: 0 <= j < |s.q.iq| && j != i ==> s.q.iq[j].seqNo != x
    requires forall t, w :: t in s.q.crossbar && w in s.q.crossbar[t] ==> w.0 != x
    ensures AdvanceI1ToI2(s)
         == s.(sel := s.sel.(i1 := [], i2 := [x]),
             q := Rebuilt(s.q.(iq := RemoveAt(s.q.iq, i), iqTags := s.q.iqTags - {x})))
  {
    var m := Mover([], [], [], {});
    assert [x][1..] == [];
    assert MoveLoop([x], m, s.q.iq) == MoveOne(x, m, s.q.iq);
    assert MoveOne(x, m, s.q.iq) == Mover([], [x], [x], {s.q.iq[FindEntry(s.q.iq, x).value].physIq}) by {
      assert FindEntry(s.q.iq, x).Some?;
      assert [] + [x] == [x];
    }
    RetainOthers(s.q.iq, i, x);
    CrossbarKept(s.q.crossbar, y => y !in [x]);
    assert RetainTags(s.q.iqTags, y => y !in [x]) == s.q.iqTags - {x};
  }

  lemma ArbEmpty(cycle: nat, code: seq<Uop>, s: State)
    requires s.sel.p1 == []
    ensures ArbitrateAndAdvance(cycle, code, s) == s
  {
    assert Attempts([], s.rt.rob) == [];
    assert s.sel.i1 + [] == s.sel.i1;
  }

  /** The one occupant of P1 always gets its ports. */
  lemma ArbOne(cycle: nat, code: seq<Uop>, s: State, x: nat, i: nat)
    requires s.sel.p1 == [x] && s.sel.i1 == [] && i < |s.q.iq| && s.q.iq[i].seqNo == x
    ensures ArbitrateAndAdvance(cycle, code, s) == s.(sel := s.sel.(p1 := [], i1 := [x]))
  {
    var q := Attempts([x], s.rt.rob);
    var k := q[0];
    assert q == [k] && [k][1..] == [] && SortKeyed([]) == [];
    assert SortKeyed([k]) == InsertKeyed(k, []) == [k];
    var a := Arbiter(s.q.iq, [], 0, {});
    var b := ArbitrateOne(x, cycle, a, code, s.dyn);
    assert FindEntry(s.q.iq, x).Some?;
    assert b.iq == s.q.iq && b.admitted == [x];
    assert ArbitrateLoop([k], cycle, a, code, s.dyn) == b;
    assert [x][..1] == [x] && [x][1..] == [] && [] + [x] == [x];
  }

  lemma I2Empty(cycle: nat, code: seq<Uop>, s: State)
    requires s.sel.i2 == []
    ensures AdvanceI2(cycle, code, s) == s
  {
  }

  /** A uop without producers issues at once. */
  lemma I2One(cycle: nat, code: seq<Uop>, s: State, x: nat)
    requires PlainCode(code) && s.sel.i2 == [x] && s.ex.e1 == []
    requires UopAt(code, x).src.fst.dep.None? && UopAt(code, x).src.snd.dep.None?
    ensures AdvanceI2(cycle, code, s) == s.(sel := s.sel.(i2 := []), ex := s.ex.(e1 := [x]))
  {
    var a := Issuer([], [], s.mem);
    assert Issues(x, cycle, code, s.dyn, a);
    assert IssueOne(x, cycle, code, s.dyn, a) == Issuer([], [x], s.mem);
    assert [x][1..] == [];
    assert IssueLoop([x], cycle, code, s.dyn, a) == Issuer([], [x], s.mem);
  }

  // -- Pick ---------------------------------------------------------------------------------------

  ghost predicate NonePickable(cycle: nat, code: seq<Uop>, s: State) {
    forall j: nat :: !Pickable(j, cycle, s.mem.issuePtr, s.q.iq, code, s.dyn)
  }

  lemma HeadIn<T>(q: seq<T>)
    ensures q == [] || q[0] in q
  {
  }

  lemma TwoDiffer(w: seq<Keyed>)
    requires OnePerQueue(w)
    ensures |w| <= 1 || w[0].physIq != w[1].physIq
  {
  }

  lemma PickNone(cycle: nat, code: seq<Uop>, s: State)
    requires NonePickable(cycle, code, s)
    ensures PickFromIq(cycle, code, s) == s
  {
    var cands := Candidates(cycle, s.mem.issuePtr, s.q.iq, code, s.dyn, s.rt.rob);
    CandidateFacts(cycle, s.mem.issuePtr, s.q.iq, code, s.dyn, s.rt.rob);
    HeadIn(cands);
  }

  /** All ready entries sit in one queue: the oldest is picked. */
  lemma PickOldest(cycle: nat, code: seq<Uop>, s: State, i: nat)
    requires Pickable(i, cycle, s.mem.issuePtr, s.q.iq, code, s.dyn) && s.sel.p1 == []
    requires forall j: nat :: Pickable(j, cycle, s.mem.issuePtr, s.q.iq, code, s.dyn) && j != i ==>
      s.q.iq[j].physIq == s.q.iq[i].physIq && RobRank(s.q.iq[i].seqNo, s.rt.rob) < RobRank(s.q.iq[j].seqNo, s.rt.rob)
    ensures PickFromIq(cycle, code, s)
         == s.(q := s.q.(iq := s.q.iq[i := s.q.iq[i].(inflight := true)]), sel := s.sel.(p1 := [s.q.iq[i].seqNo]))
  {
    var w := ReadyWinners(cycle, s.mem.issuePtr, s.q.iq, code, s.dyn, s.rt.rob);
    OneWinner(cycle, code, s, i);
    var k := Candidate(i, s.q.iq, s.rt.rob).(major := 0);
    assert ByAge(w) == [k] && [k][1..] == [];
    assert SortKeyed([k]) == InsertKeyed(k, SortKeyed([])) == [k];
    assert PickLoop([k], Picker(s.q.iq, [])) == Picker(SetInflight(s.q.iq, i, true), [] + [k.seqNo]);
  }

  lemma OneWinner(cycle: nat, code: seq<Uop>, s: State, i: nat)
    requires Pickable(i, cycle, s.mem.issuePtr, s.q.iq, code, s.dyn)
    requires forall j: nat :: Pickable(j, cycle, s.mem.issuePtr, s.q.iq, code, s.dyn) && j != i ==>
      s.q.iq[j].physIq == s.q.iq[i].physIq && RobRank(s.q.iq[i].seqNo, s.rt.rob) < RobRank(s.q.iq[j].seqNo, s.rt.rob)
    ensures ReadyWinners(cycle, s.mem.issuePtr, s.q.iq, code, s.dyn, s.rt.rob) == [Candidate(i, s.q.iq, s.rt.rob)]
  {
    var w := ReadyWinners(cycle, s.mem.issuePtr, s.q.iq, code, s.dyn, s.rt.rob);
    WinnersAreOldest(cycle, s.mem.issuePtr, s.q.iq, code, s.dyn, s.rt.rob);
    var o :| o in w && o.physIq == s.q.iq[i].physIq && KeyLe(o, Candidate(i, s.q.iq, s.rt.rob));
    assert o == Candidate(i, s.q.iq, s.rt.rob);
    forall j | 0 <= j < |w| ensures w[j].physIq == s.q.iq[i].physIq { assert w[j] in w; }
    TwoDiffer(w);
  }

  // -- Update -------------------------------------------------------------------------------------

  /** No event of this cycle concerns the source. */
  ghost predicate Deaf(x: nat, idx: nat, cycle: nat, code: seq<Uop>, dyn: seq<Dyn>) {
    forall p: nat :: WakeEventOf(cycle, p, code, dyn).Some? ==>
      !MatchesWakeEvent(x, idx, WakeEventOf(cycle, p, code, dyn).value, code, dyn)
  }

  lemma DeafEntry(e: IqEntry, p: nat, cycle: nat, code: seq<Uop>, dyn: seq<Dyn>)
    requires Deaf(e.seqNo, 0, cycle, code, dyn) && Deaf(e.seqNo, 1, cycle, code, dyn)
      && WakeEventOf(cycle, p, code, dyn).Some?
    ensures var event := WakeEventOf(cycle, p, code, dyn).value;
      && PublishEntrySource(e, 0, event, code, dyn) == e && PublishEntrySource(e, 1, event, code, dyn) == e
      && PublishEntry(e, event, code, dyn) == e && PublishNonqueueEntry(e, event, code, dyn) == e
  {
  }

  lemma {:induction false} DeafWaiters(ws: seq<(nat, nat)>, p: nat, cycle: nat, iq: seq<IqEntry>, q: Queue,
                                       code: seq<Uop>, dyn: seq<Dyn>)
    requires WakeEventOf(cycle, p, code, dyn).Some? && (forall w :: w in ws ==> w.1 < 2)
    requires forall e :: e in iq ==> Deaf(e.seqNo, 0, cycle, code, dyn) && Deaf(e.seqNo, 1, cycle, code, dyn)
    ensures WakeWaiters(ws, WakeEventOf(cycle, p, code, dyn).value, iq, q.owner, q.iqTags, code, dyn) == iq
  {
    if ws != [] {
      var i := OwnerIndex(ws[0].0, iq, q.owner, q.iqTags);
      assert ws[0] in ws;
      if i.Some? {
        assert iq[i.value] in iq;
        DeafEntry(iq[i.value], p, cycle, code, dyn);
        assert iq[i.value := iq[i.value]] == iq;
      }
      DeafWaiters(ws[1..], p, cycle, iq, q, code, dyn);
    }
  }

  ghost predicate Waits2(crossbar: map<QTag, seq<(nat, nat)>>) {
    forall t, w :: t in crossbar && w in crossbar[t] ==> w.1 < 2
  }

  lemma DeafEvent(p: nat, cycle: nat, iq: seq<IqEntry>, q: Queue, code: seq<Uop>, dyn: seq<Dyn>)
    requires WakeEventOf(cycle, p, code, dyn).Some? && Waits2(q.crossbar)
    requires forall e :: e in iq ==> Deaf(e.seqNo, 0, cycle, code, dyn) && Deaf(e.seqNo, 1, cycle, code, dyn)
    ensures PublishWakeEvent(WakeEventOf(cycle, p, code, dyn).value, iq, q.owner, q.iqTags, q.crossbar, code, dyn) == iq
  {
    var event := WakeEventOf(cycle, p, code, dyn).value;
    forall i | 0 <= i < |iq| ensures PublishEntry(iq[i], event, code, dyn) == iq[i]
      && PublishNonqueueEntry(iq[i], event, code, dyn) == iq[i] {
      assert iq[i] in iq;
      DeafEntry(iq[i], p, cycle, code, dyn);
    }
    assert Broadcast(iq, event, code, dyn) == iq && PublishAllNonqueue(iq, event, code, dyn) == iq;
    if event.qtag.Some? { DeafWaiters(Waiters(q.crossbar, event.qtag.value), p, cycle, iq, q, code, dyn); }
  }

  lemma {:induction false} DeafEvents(cycle: nat, from: nat, iq: seq<IqEntry>, q: Queue, code: seq<Uop>, dyn: seq<Dyn>)
    requires Waits2(q.crossbar)
    requires forall e :: e in iq ==> Deaf(e.seqNo, 0, cycle, code, dyn) && Deaf(e.seqNo, 1, cycle, code, dyn)
    ensures PublishFrom(cycle, from, iq, q, code, dyn) == iq
    decreases |code| - from
  {
    if from < |code| {
      if WakeEventOf(cycle, from, code, dyn).Some? { DeafEvent(from, cycle, iq, q, code, dyn); }
      DeafEvents(cycle, from + 1, iq, q, code, dyn);
    }
  }

  /** When no event concerns an entry and the passes over it change nothing, the update does nothing. */
  lemma UpdateQuiet(cycle: nat, code: seq<Uop>, q: Queue, dyn: seq<Dyn>)
    requires Waits2(q.crossbar) && forall e :: e in q.iq ==> UpdateEntry(cycle, e, q.ready, code, dyn) == e
    requires forall e :: e in q.iq ==> Deaf(e.seqNo, 0, cycle, code, dyn) && Deaf(e.seqNo, 1, cycle, code, dyn)
    ensures UpdateQueue(cycle, code, dyn, q) == q
  {
    forall i | 0 <= i < |q.iq| ensures UpdateEntry(cycle, q.iq[i], q.ready, code, dyn) == q.iq[i] {
      assert q.iq[i] in q.iq;
    }
    assert UpdateEntries(cycle, q.iq, q.ready, code, dyn) == q.iq;
    DeafEvents(cycle, 0, q.iq, q, code, dyn);
  }

  // -- Dispatch -----------------------------------------------------------------------------------

  lemma DispatchNone(cycle: nat, input: Input, code: seq<Uop>, s: State)
    requires s.fe.front[10] == []
    ensures Dispatch(cycle, input, code, s) == s.(q := Rebuilt(s.q))
  {
    assert s.fe.front[10 := []] == s.fe.front;
  }

  lemma {:induction false} OccupancyLength(iq: seq<IqEntry>, p: PhysIq)
    ensures Occupancy(iq, p) <= |iq|
  {
    if iq != [] { OccupancyLength(iq[1..], p); }
  }

  lemma {:induction false} FreeAt(iqTags: map<nat, QTag>, p: PhysIq, id: nat, n: EntryId)
    requires id <= n && (forall j: EntryId :: id <= j < n ==> QTag(p, j) in iqTags.Values)
      && QTag(p, n) !in iqTags.Values
    ensures FreeEntry(iqTags, p, id) == Some(QTag(p, n))
    decreases n - id
  {
    if id < n {
      assert QTag(p, id) in iqTags.Values;
      FreeAt(iqTags, p, id + 1, n);
    }
  }

  /** The uop takes the first free entry of its first queue. */
  lemma Dispatches(x: nat, p: PhysIq, n: EntryId, cycle: nat, input: Input, code: seq<Uop>, d: Dispatcher)
    requires x < |code| && !code[x].startMarker && !code[x].bypass && IssueQueueCandidates(code[x])[0] == p
    requires PortsUsed(d.ports, p) < IQ_ENQUEUE_PORTS && |d.q.iq| < IQ_CAPACITY
    requires (forall j: EntryId :: j < n ==> QTag(p, j) in d.q.iqTags.Values) && QTag(p, n) !in d.q.iqTags.Values
    ensures DispatchOne(x, cycle, input, code, d) == Enqueue(x, p, QTag(p, n), cycle, code, d)
  {
    OccupancyLength(d.q.iq, p);
    FreeAt(d.q.iqTags, p, 0, n);
    assert RoutePhysIq(code[x], d.q.iq, d.ports) == Some(p);
  }

  /** Both ports of its only queue are taken: the uop stays in S2. */
  lemma Stays(x: nat, p: PhysIq, cycle: nat, input: Input, code: seq<Uop>, d: Dispatcher)
    requires x < |code| && !code[x].startMarker && !code[x].bypass && IssueQueueCandidates(code[x]) == [p]
    requires PortsUsed(d.ports, p) >= IQ_ENQUEUE_PORTS
    ensures DispatchOne(x, cycle, input, code, d) == d.(stay := d.stay + [x])
  {
    assert RoutePhysIq(code[x], d.q.iq, d.ports).None?;
  }

  const IDLE: SrcState := SrcState(false, true, false, false)

  /** No source has a producer. */
  predicate Free(u: Uop) {
    u.src.fst.dep.None? && u.src.fst.queueKind.None? && u.src.snd.dep.None? && u.src.snd.queueKind.None?
  }

  function FreeEntryOf(x: nat, p: PhysIq, inflight: bool, u: Uop): IqEntry {
    IqEntry(x, p, inflight, Two(IDLE.(valid := u.src.fst.valid), IDLE.(valid := u.src.snd.valid)))
  }

  /** A uop without producers: its entry is ready and it waits for nobody. */
  lemma EnqueueReady(x: nat, p: PhysIq, qtag: QTag, cycle: nat, code: seq<Uop>, d: Dispatcher)
    requires x < |code| && x < |d.dyn| && Free(code[x])
    ensures Enqueue(x, p, qtag, cycle, code, d)
         == Dispatcher(d.stay, d.w2,
                       d.q.(iqTags := d.q.iqTags[x := qtag], iq := d.q.iq + [FreeEntryOf(x, p, false, code[x])]),
                       d.dyn[x := d.dyn[x].(physIq := Some(p), dstQtag := Some(qtag), srcQtags := Two(None, None))],
                       d.ports[p := PortsUsed(d.ports, p) + 1])
  {
  }

  // -- Cycles with little to do -------------------------------------------------------------------

  const NO_EXEC: Exec := Exec([], [], [], [], [], [])

  ghost predicate NoneRetires(s: State) { s.rt.rob == [] || DynAt(s.dyn, s.rt.rob[0]).done.None? }

  lemma RetireNone(cycle: nat, code: seq<Uop>, s: State)
    requires NoneRetires(s)
    ensures RetireReady(cycle, code, s) == s
  {
  }

  /** A branch or boundary retires from the head. */
  lemma RetireHead(limit: nat, cycle: nat, code: seq<Uop>, dyn: seq<Dyn>, a: Retirer, b: Retirer)
    requires PlainCode(code) && |a.rt.retired| < limit && a.rt.rob != [] && DynAt(dyn, a.rt.rob[0]).done.Some?
    requires a.rt.pendingTrap.None? && UopAt(code, a.rt.rob[0]).dstTag.None?
    requires b == a.(rt := a.rt.(rob := a.rt.rob[1..], retired := a.rt.retired + [a.rt.rob[0]],
                                 committed := a.rt.committed + [UopAt(code, a.rt.rob[0]).commit.(cycle := cycle)]))
    ensures RetireLoop(limit, cycle, code, dyn, a) == RetireLoop(limit, cycle, code, dyn, b)
  {
  }

  lemma TagNone(cycle: nat, code: seq<Uop>, dyn: seq<Dyn>)
    ensures TagAll(cycle, code, NO_EXEC, dyn) == dyn
  {
  }

  /** Nothing past D3 and nothing in flight: the frontend moves on. */
  lemma RestQuiet(cycle: nat, input: Input, code: seq<Uop>, s: State)
    requires s.q.iq == [] && s.sel == Issue([], [], []) && s.fe.front[10] == [] && RoomToShift(s.fe.front, s.rt.rob)
    ensures Rest(cycle, input, code, s)
         == s.(fe := s.fe.(front := Shifted(s.fe.front)), q := Rebuilt(s.q),
             rt := s.rt.(rob := AllocateRob(s.fe.front[6], s.rt.rob)))
  {
    var a := s.(q := Rebuilt(s.q));
    I1Empty(s);
    ArbEmpty(cycle, code, a);
    I2Empty(cycle, code, a);
    PickNone(cycle, code, a);
    DispatchNone(cycle, input, code, a);
    FrontendShifts(a);
  }

  /** A cycle in which only fetch and the frontend do anything. */
  lemma StepQuiet(cycle: nat, opts: Options, input: Input, code: seq<Uop>, s: State, fe: Fetch)
    requires PlainCode(code) && input.faults == [] && input.target.None? && !s.rt.halted
      && |s.rt.committed| != opts.targetCommits
    requires s.fe.pendingFlush.None? && s.fe.redirect.None? && s.mem == NO_MEM && s.ex == NO_EXEC && NoneRetires(s)
    requires s.q.iq == [] && s.sel == Issue([], [], []) && Waits2(s.q.crossbar) && fe == FetchLoop(code, s.dyn, s.fe)
    requires fe.front[10] == [] && RoomToShift(fe.front, s.rt.rob)
    ensures Step(cycle, opts, input, code, s)
         == s.(fe := fe.(front := Shifted(fe.front)), q := Rebuilt(s.q),
             rt := s.rt.(rob := AllocateRob(fe.front[6], s.rt.rob)))
  {
    var b := s.(fe := fe);
    TagNone(cycle, code, s.dyn);
    UpdateQuiet(cycle, code, s.q, s.dyn);
    RetireNone(cycle, code, b);
    StepPlain(cycle, opts, input, code, s, b, b, b);
    RestQuiet(cycle, input, code, b);
  }

  // -- Issue, in one piece ------------------------------------------------------------------------

  /** Entry `i`, if any, moves from I1 to I2. */
  function AfterI1(s: State, i: Option<nat>): State
    requires i.Some? ==> i.value < |s.q.iq|
  {
    if i.None? then s.(q := Rebuilt(s.q))
    else
      var x := s.q.iq[i.value].seqNo;
      s.(sel := s.sel.(i1 := [], i2 := [x]),
          q := Rebuilt(s.q.(iq := RemoveAt(s.q.iq, i.value), iqTags := s.q.iqTags - {x})))
  }

  /** P1 moves to I1, I2 to E1. */
  function AfterMoves(s: State): State { s.(sel := Issue([], s.sel.p1, []), ex := s.ex.(e1 := s.sel.i2)) }

  /** Entry `m`, if any, is picked. */
  function AfterPick(s: State, m: Option<nat>): State
    requires m.Some? ==> m.value < |s.q.iq|
  {
    if m.None? then s
    else s.(q := s.q.(iq := s.q.iq[m.value := s.q.iq[m.value].(inflight := true)]),
        sel := s.sel.(p1 := [s.q.iq[m.value].seqNo]))
  }

  ghost predicate I1Ok(code: seq<Uop>, s: State, i: Option<nat>) {
    && s.sel.i2 == []
    && (i.None? ==> s.sel.i1 == [])
    && (i.Some? ==>
          && i.value < |s.q.iq| && s.sel.i1 == [s.q.iq[i.value].seqNo]
          && (forall j :: 0 <= j < |s.q.iq| && j != i.value ==> s.q.iq[j].seqNo != s.q.iq[i.value].seqNo)
          && (forall t, w :: t in s.q.crossbar && w in s.q.crossbar[t] ==> w.0 != s.q.iq[i.value].seqNo)
          && Free(UopAt(code, s.q.iq[i.value].seqNo)))
  }

  ghost predicate P1Ok(s: State) { s.sel.p1 == [] || exists j :: 0 <= j < |s.q.iq| && s.sel.p1 == [s.q.iq[j].seqNo] }

  ghost predicate PickOk(cycle: nat, code: seq<Uop>, s: State, m: Option<nat>) {
    && (m.None? ==> NonePickable(cycle, code, s))
    && (m.Some? ==>
          && Pickable(m.value, cycle, s.mem.issuePtr, s.q.iq, code, s.dyn)
          && forall j: nat :: Pickable(j, cycle, s.mem.issuePtr, s.q.iq, code, s.dyn) && j != m.value ==>
               && s.q.iq[j].physIq == s.q.iq[m.value].physIq
               && RobRank(s.q.iq[m.value].seqNo, s.rt.rob) < RobRank(s.q.iq[j].seqNo, s.rt.rob))
  }

  lemma MovesFlow(cycle: nat, code: seq<Uop>, s: State)
    requires PlainCode(code) && s.ex.e1 == [] && s.sel.i1 == [] && P1Ok(s)
    requires s.sel.i2 == [] || (|s.sel.i2| == 1 && Free(UopAt(code, s.sel.i2[0])))
    ensures AdvanceI2(cycle, code, ArbitrateAndAdvance(cycle, code, s)) == AfterMoves(s)
  {
    var a := s.(sel := s.sel.(p1 := [], i1 := s.sel.p1));
    if s.sel.p1 == [] {
      ArbEmpty(cycle, code, s);
    } else {
      var j :| 0 <= j < |s.q.iq| && s.sel.p1 == [s.q.iq[j].seqNo];
      ArbOne(cycle, code, s, s.q.iq[j].seqNo, j);
    }
    assert ArbitrateAndAdvance(cycle, code, s) == a;
    if s.sel.i2 == [] {
      I2Empty(cycle, code, a);
    } else {
      assert s.sel.i2 == [s.sel.i2[0]];
      I2One(cycle, code, a, s.sel.i2[0]);
    }
  }

  ghost predicate IssueOk(cycle: nat, code: seq<Uop>, s: State, i: Option<nat>, m: Option<nat>) {
    I1Ok(code, s, i) && s.ex.e1 == [] && P1Ok(AfterI1(s, i)) && PickOk(cycle, code, AfterMoves(AfterI1(s, i)), m)
  }

  function Issued0(s: State, i: Option<nat>, m: Option<nat>): State
    requires (i.Some? ==> i.value < |s.q.iq|) && (m.Some? ==> m.value < |AfterI1(s, i).q.iq|)
  {
    AfterPick(AfterMoves(AfterI1(s, i)), m)
  }

  lemma IssueFlow(cycle: nat, code: seq<Uop>, s: State, i: Option<nat>, m: Option<nat>)
    requires PlainCode(code) && IssueOk(cycle, code, s, i, m)
    ensures PickFromIq(cycle, code, AdvanceI2(cycle, code, ArbitrateAndAdvance(cycle, code, AdvanceI1ToI2(s))))
        == Issued0(s, i, m)
  {
    var a := AfterI1(s, i);
    if i.None? { I1Empty(s); } else { I1One(s, s.q.iq[i.value].seqNo, i.value); }
    MovesFlow(cycle, code, a);
    var b := AfterMoves(a);
    if m.None? { PickNone(cycle, code, b); } else { PickOldest(cycle, code, b, m.value); }
  }

  // -- Growing a run ------------------------------------------------------------------------------

  /** A cycle in which only fetch, which leads to `fe`, and the frontend do anything. */
  ghost predicate QuietOk(cycle: nat, opts: Options, input: Input, code: seq<Uop>, s: State, fe: Fetch, t: State) {
    && PlainCode(code) && input.faults == [] && input.target.None? && !s.rt.halted
    && |s.rt.committed| != opts.targetCommits
    && s.fe.pendingFlush.None? && s.fe.redirect.None? && s.mem == NO_MEM && s.ex == NO_EXEC && NoneRetires(s)
    && s.q.iq == [] && s.sel == Issue([], [], []) && Waits2(s.q.crossbar) && fe == FetchLoop(code, s.dyn, s.fe)
    && fe.front[10] == [] && RoomToShift(fe.front, s.rt.rob)
    && t == s.(fe := fe.(front := Shifted(fe.front)), q := Rebuilt(s.q),
        rt := s.rt.(rob := AllocateRob(fe.front[6], s.rt.rob)))
  }

  lemma GrowQuiet(run: seq<State>, opts: Options, inputs: nat -> Input, code: seq<Uop>, k: nat, s: State, fe: Fetch,
                  t: State)
    requires IsRun(run, opts, inputs, code) && |run| == k + 1 && run[k] == s
      && QuietOk(k, opts, inputs(k), code, s, fe, t)
    ensures IsRun(run + [t], opts, inputs, code)
  {
    StepQuiet(k, opts, inputs(k), code, s, fe);
    Runs.Grow(run, opts, inputs, code, s, t, k);
  }

  /** The state after dispatch has turned `s` into `r`, and the frontend has moved. */
  function Dispatched(s: State, r: Dispatcher): State {
    s.(fe := s.fe.(front := Shifted(s.fe.front[10 := r.stay])), ex := s.ex.(w2 := r.w2), q := Rebuilt(r.q),
        dyn := r.dyn,
       rt := s.rt.(rob := AllocateRob(s.fe.front[6], s.rt.rob)))
  }

  ghost predicate DispatchOk(cycle: nat, input: Input, code: seq<Uop>, s: State, r: Dispatcher) {
    && r == DispatchLoop(s.fe.front[10], cycle, input, code, Dispatcher([], s.ex.w2, s.q, s.dyn, map[]))
    && RoomToShift(s.fe.front[10 := r.stay], s.rt.rob)
  }

  lemma RestFlow(cycle: nat, input: Input, code: seq<Uop>, s: State, i: Option<nat>, m: Option<nat>, e: State,
                 r: Dispatcher)
    requires PlainCode(code) && IssueOk(cycle, code, s, i, m) && e == Issued0(s, i, m)
      && DispatchOk(cycle, input, code, e, r)
    ensures Rest(cycle, input, code, s) == Dispatched(e, r)
  {
    IssueFlow(cycle, code, s, i, m);
    var f := Dispatch(cycle, input, code, e);
    FrontendShifts(f);
  }

  function Executed(s: State, dyn: seq<Dyn>): State { s.(dyn := dyn, ex := Exec([], [], [], [], s.ex.e1, s.ex.w1)) }

  /** A cycle with flush, retirement or redirect: `b`, `c` and `d` are the states after tagging,
      retirement and redirect scheduling. */
  ghost predicate PlainOk(cycle: nat, opts: Options, input: Input, code: seq<Uop>, s: State, b: State, c: State,
                          d: State) {
    && PlainCode(code) && input.faults == [] && !s.rt.halted
    && b == Tagged0(cycle, code, s) && b.mem == NO_MEM && UpdateQueue(cycle, code, b.dyn, b.q) == b.q
    && c == RetireReady(cycle, code, b) && !c.rt.halted && d == ScheduleRedirect(cycle, input, code, c)
    && |d.rt.committed| != opts.targetCommits && d.mem == NO_MEM
    && d.ex.e2 == [] && d.ex.e3 == [] && d.ex.e4 == [] && |d.ex.e1| <= ISSUE_WIDTH && |d.ex.w1| <= ISSUE_WIDTH
  }

  /** The states of one cycle after tagging, retirement and redirect scheduling, the entries that
      leave I1 and are picked, the state before dispatch and the outcome of dispatch. */
  datatype Passage = Passage(b: State, c: State, d: State, i: Option<nat>, m: Option<nat>, e: State, r: Dispatcher)

  ghost predicate Passes(cycle: nat, opts: Options, input: Input, code: seq<Uop>, s: State, a: Passage, t: State) {
    && PlainOk(cycle, opts, input, code, s, a.b, a.c, a.d)
    && IssueOk(cycle, code, Executed(a.d, a.d.dyn), a.i, a.m) && a.e == Issued0(Executed(a.d, a.d.dyn), a.i, a.m)
    && DispatchOk(cycle, input, code, a.e, a.r) && t == Dispatched(a.e, a.r)
  }

  lemma GrowPlain(run: seq<State>, opts: Options, inputs: nat -> Input, code: seq<Uop>, k: nat, s: State, a: Passage,
                  t: State)
    requires IsRun(run, opts, inputs, code) && |run| == k + 1 && run[k] == s
      && Passes(k, opts, inputs(k), code, s, a, t)
    ensures IsRun(run + [t], opts, inputs, code)
  {
    StepPlain(k, opts, inputs(k), code, s, a.b, a.c, a.d);
    RestFlow(k, inputs(k), code, Executed(a.d, a.d.dyn), a.i, a.m, a.e, a.r);
    Runs.Grow(run, opts, inputs, code, s, t, k);
  }

  /** With S2 empty dispatch does nothing. */
  lemma NothingToDispatch(cycle: nat, input: Input, code: seq<Uop>, e: State)
    requires e.fe.front[10] == [] && RoomToShift(e.fe.front, e.rt.rob)
    ensures DispatchOk(cycle, input, code, e, Dispatcher([], e.ex.w2, e.q, e.dyn, map[]))
  {
    assert e.fe.front[10 := []] == e.fe.front;
  }

  lemma DispatchHead(pending: seq<nat>, cycle: nat, input: Input, code: seq<Uop>, d: Dispatcher)
    requires pending != []
    ensures DispatchLoop(pending, cycle, input, code, d)
         == DispatchLoop(pending[1..], cycle, input, code, DispatchOne(pending[0], cycle, input, code, d))
  {
  }

  /** Without a flush, and with everything fetched, the cycle starts with tagging. */
  lemma TaggedPlain(cycle: nat, code: seq<Uop>, s: State)
    requires s.fe.pendingFlush.None? && s.fe.redirect.None? && s.fe.nextFetch == |code|
    ensures Tagged0(cycle, code, s) == s.(dyn := TagAll(cycle, code, s.ex, s.dyn))
  {
  }

  lemma ScheduleNone(cycle: nat, input: Input, code: seq<Uop>, s: State)
    requires input.target.None?
    ensures ScheduleRedirect(cycle, input, code, s) == s
  {
  }
}
