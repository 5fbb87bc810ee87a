/** The invariant of every run, coherent or not, and what follows from it. */
module Runs {
  import opened Wrappers
  import opened Seqs
  import opened Model
  import opened Queues
  import opened Select
  import opened Lsu
  import opened Frontend
  import opened Recovery
  import opened Commit
  import opened Residency
  import opened Alive
  import opened Tags
  import opened TagSteps
  import opened Timing
  import opened StageSteps
  import opened WellFormed
  import opened Wakeup
  import opened WakeSteps

  ghost function InFront(front: Front): iset<nat> { iset x: nat | FrontN(front, x) > 0 }

  /** Stage contents and timing, before cycle `cycle`. */
  ghost predicate PipeInv(cycle: nat, opts: Options, code: seq<Uop>, s: State) {
    AliveState(code, s) && AllTimeOk(cycle, opts, code, s.dyn) && StagesOk(cycle, code, s)
  }

  /** Tags, wake-up network and readiness, before cycle `cycle`. */
  ghost predicate NetInv(cycle: nat, code: seq<Uop>, s: State) {
    && TagsOk(s.q, s.dyn) && OwnerExact(s.q.iq, s.q.iqTags, s.q.owner)
    && BitsOk(cycle, code, s.q.iq, s.dyn) && CapturesOk(InFront(s.fe.front), s.q, code, s.dyn)
    && TablesOk(cycle, code, s.q, s.dyn)
  }

  ghost predicate RunInv(cycle: nat, opts: Options, code: seq<Uop>, s: State) {
    && PipeInv(cycle, opts, code, s) && NetInv(cycle, code, s) && RedirectOk(cycle, code, s.fe)
    && (cycle == 0 ==> s.ex == Exec([], [], [], [], [], []))
  }

  // -- Start of the cycle -------------------------------------------------------------------------

  lemma InIqLive(code: seq<Uop>, s: State, x: nat)
    requires AliveState(code, s) && QueueN(s.q.iq, x) > 0
    ensures x < s.fe.nextFetch
  {
    assert Copies(s, x) > 0 ==> x < s.fe.nextFetch;
  }

  lemma FlushTags(flush: Flush, code: seq<Uop>, s: State)
    requires TagsOk(s.q, s.dyn)
    ensures var r := ApplyFlush(flush, code, s);
      && TagsOk(r.q, r.dyn) && OwnerExact(r.q.iq, r.q.iqTags, r.q.owner)
      && r.q.iq == Retain(s.q.iq, (e: IqEntry) => e.seqNo <= flush.flushSeq)
      && r.q.iqTags == RetainTags(s.q.iqTags, x => x <= flush.flushSeq)
      && r.q.checkpoints == s.q.checkpoints && r.dyn == s.dyn
      && (r.q.ready == s.q.ready
          || (flush.checkpoint in s.q.checkpoints && r.q.ready == s.q.checkpoints[flush.checkpoint]))
      && r.fe.front == RetainFront(s.fe.front, flush.flushSeq)
  {
    PruneTags(flush.flushSeq, RestoreReady(flush.checkpoint, s.q), s.dyn);
  }

  lemma FlushCaptures(flush: Flush, code: seq<Uop>, s: State, r: State)
    requires CapturesOk(InFront(s.fe.front), s.q, code, s.dyn) && r == ApplyFlush(flush, code, s)
    requires AliveState(code, s)
    requires r.q.iqTags == RetainTags(s.q.iqTags, x => x <= flush.flushSeq)
      && r.fe.front == RetainFront(s.fe.front, flush.flushSeq)
    ensures CapturesOk(InFront(r.fe.front), r.q, code, r.dyn)
  {
    forall x | x in InFront(r.fe.front) ensures x in InFront(s.fe.front) && QueueN(s.q.iq, x) == 0 {
      StageCountRetain(s.fe.front, flush.flushSeq, STAGES, x);
      assert Copies(s, x) <= 1;
    }
    CapturesShrink(InFront(s.fe.front), s.q, InFront(r.fe.front), r.q, code, s.dyn);
  }

  lemma FlushNet(flush: Flush, cycle: nat, code: seq<Uop>, s: State)
    requires NetInv(cycle, code, s) && AliveState(code, s)
    ensures NetInv(cycle, code, ApplyFlush(flush, code, s))
  {
    var r := ApplyFlush(flush, code, s);
    FlushTags(flush, code, s);
    forall e | e in r.q.iq ensures e in s.q.iq && e.src == e.src {
      RetainMember(s.q.iq, (o: IqEntry) => o.seqNo <= flush.flushSeq, e);
    }
    BitsSubset(cycle, code, s.q.iq, r.q.iq, s.dyn);
    FlushCaptures(flush, code, s, r);
  }

  lemma FetchNet(cycle: nat, code: seq<Uop>, s: State, fe: Fetch)
    requires WellFormedCode(code) && NetInv(cycle, code, s)
    requires fe.nextFetch <= |code| && fe.front == s.fe.front && LiveBelow(fe.nextFetch, s)
    ensures NetInv(cycle, code, s.(fe := FetchLoop(code, s.dyn, fe)))
  {
    var r := s.(fe := FetchLoop(code, s.dyn, fe));
    forall x | x in InFront(r.fe.front)
      ensures x in InFront(s.fe.front)
           || (forall y, idx :: y in s.q.iqTags && 0 <= idx < 2 ==> UopAt(code, y).src.At(idx).dep != Some(x))
    {
      FetchCopies(code, s.dyn, fe, x);
      forall y, idx | y in s.q.iqTags && 0 <= idx < 2
        && x >= fe.nextFetch ensures UopAt(code, y).src.At(idx).dep != Some(x) {
        DepEarlier(code, y, idx);
        assert QueueN(s.q.iq, y) > 0;
        assert Copies(s, y) > 0 ==> y < fe.nextFetch;
      }
    }
    CapturesShrink(InFront(s.fe.front), s.q, InFront(r.fe.front), s.q, code, s.dyn);
  }

  lemma RestartNet(cycle: nat, opts: Options, code: seq<Uop>, s: State)
    requires WellFormedCode(code) && RunInv(cycle, opts, code, s)
    ensures NetInv(cycle, code, FillFetch(cycle, code, ApplyPendingFlush(cycle, code, s)))
  {
    if s.fe.pendingFlush.None? {
      FetchNet(cycle, code, s, s.fe);
    } else {
      var flush := s.fe.pendingFlush.value;
      var t := ApplyFlush(flush, code, s);
      FlushNet(flush, cycle, code, s);
      FlushFacts(flush, code, s);
      forall x: nat ensures Copies(t, x) <= 1 && (Copies(t, x) > 0 ==> x < t.fe.redirect.value.restartSeq) {
        assert Copies(t, x) <= 1 && (Copies(t, x) > 0 ==> x < flush.flushSeq + 1);
      }
      FetchNet(cycle, code, t, TakeRestart(t.fe));
    }
  }

  lemma RestartPipe(cycle: nat, opts: Options, code: seq<Uop>, s: State)
    requires RunInv(cycle, opts, code, s)
    ensures var r := FillFetch(cycle, code, ApplyPendingFlush(cycle, code, s));
      && PipeInv(cycle, opts, code, r) && r.fe.pendingFlush.None? && r.fe.redirect.None?
      && (cycle == 0 ==> r.ex == Exec([], [], [], [], [], []))
  {
    RestartFacts(cycle, code, s);
    if s.fe.pendingFlush.Some? { FlushStages(s.fe.pendingFlush.value, cycle, code, s); }
  }

  // -- Tag, update and drain ----------------------------------------------------------------------

  function Middle(cycle: nat, input: Input, code: seq<Uop>, s: State): State {
    AdvanceScb(cycle, code, UpdateIq(cycle, code, PublishFaults(input.faults, TagStageCycles(cycle, code, s))))
  }

  /** Within cycle `cycle`, between the queue update and execution. */
  ghost predicate MidInv(cycle: nat, opts: Options, code: seq<Uop>, s: State) {
    && AliveState(code, s) && AllTimeMid(cycle, opts, code, s.ex.e4, s.dyn) && StagesOk(cycle, code, s)
    && Tagged1(code, s)
    && NetInv(cycle + 1, code, s)
  }

  lemma TagSame(cycle: nat, opts: Options, code: seq<Uop>, s: State, dyn: seq<Dyn>)
    requires PipeInv(cycle, opts, code, s) && dyn == TagAll(cycle, code, s.ex, s.dyn)
    ensures SameCaptures(s.dyn, dyn) && SameEarlier(cycle, s.dyn, dyn) && Settled(cycle, s.dyn, dyn)
  {
    forall x: nat
      ensures TagKeeps(cycle, DynAt(s.dyn, x), DynAt(dyn, x))
    {
      assert TimeOk(cycle, opts, UopAt(code, x), DynAt(s.dyn, x));
      if x < |s.dyn| { TaggedData(cycle, opts, code, s.ex, x, s.dyn[x]); }
    }
    TagKeepsAll(cycle, s.dyn, dyn);
  }

  predicate TagKeeps(cycle: nat, d: Dyn, r: Dyn) {
    && (AtOrBefore(r.dataVisible, cycle) <==> AtOrBefore(d.dataVisible, cycle))
    && (AtOrBefore(d.dataVisible, cycle) ==> r.dataVisible == d.dataVisible)
    && (AtOrBefore(r.pickVisible, cycle) <==> AtOrBefore(d.pickVisible, cycle))
    && (AtOrBefore(d.pickVisible, cycle) ==> r.pickVisible == d.pickVisible)
    && r.srcQtags == d.srcQtags && r.dstQtag == d.dstQtag
  }

  lemma TagKeepsAll(cycle: nat, a: seq<Dyn>, b: seq<Dyn>)
    requires forall x: nat :: TagKeeps(cycle, DynAt(a, x), DynAt(b, x))
    ensures SameCaptures(a, b) && SameEarlier(cycle, a, b) && Settled(cycle, a, b)
  {
    forall x: nat
      ensures DynAt(a, x).srcQtags == DynAt(b, x).srcQtags && DynAt(a, x).dstQtag == DynAt(b, x).dstQtag
      ensures Timing.Earlier(DynAt(a, x).dataVisible, cycle) <==> Timing.Earlier(DynAt(b, x).dataVisible, cycle)
      ensures Timing.Earlier(DynAt(a, x).pickVisible, cycle) <==> Timing.Earlier(DynAt(b, x).pickVisible, cycle)
      ensures AtOrBefore(DynAt(a, x).dataVisible, cycle) ==> DynAt(b, x).dataVisible == DynAt(a, x).dataVisible
      ensures AtOrBefore(DynAt(b, x).dataVisible, cycle) ==> AtOrBefore(DynAt(a, x).dataVisible, cycle)
      ensures AtOrBefore(DynAt(b, x).pickVisible, cycle) ==> AtOrBefore(DynAt(a, x).pickVisible, cycle)
    {
      assert TagKeeps(cycle, DynAt(a, x), DynAt(b, x));
    }
  }

  lemma TablesLater(cycle: nat, code: seq<Uop>, q: Queue, dyn: seq<Dyn>)
    requires TablesOk(cycle, code, q, dyn)
    ensures TablesOk(cycle + 1, code, q, dyn)
  {
    TableLater(cycle, code, q.ready, dyn);
    forall k | k in q.checkpoints ensures ReadyOk(cycle + 1, code, q.checkpoints[k], dyn) {
      TableLater(cycle, code, q.checkpoints[k], dyn);
    }
  }

  lemma TableLater(cycle: nat, code: seq<Uop>, ready: ReadyTables, dyn: seq<Dyn>)
    requires ReadyOk(cycle, code, ready, dyn)
    ensures ReadyOk(cycle + 1, code, ready, dyn)
  {
    forall p: nat | UopAt(code, p).dstTag.Some? && ready.Has(UopAt(code, p).dstTag.value)
      ensures Timing.Earlier(DynAt(dyn, p).dataVisible, cycle + 1)
    {
      assert Timing.Earlier(DynAt(dyn, p).dataVisible, cycle);
    }
  }

  lemma TableSame(cycle: nat, code: seq<Uop>, ready: ReadyTables, a: seq<Dyn>, b: seq<Dyn>)
    requires ReadyOk(cycle, code, ready, a) && SameEarlier(cycle, a, b)
    ensures ReadyOk(cycle, code, ready, b)
  {
    forall p: nat | UopAt(code, p).dstTag.Some? && ready.Has(UopAt(code, p).dstTag.value)
      ensures Timing.Earlier(DynAt(b, p).dataVisible, cycle)
    {
      assert Timing.Earlier(DynAt(a, p).dataVisible, cycle);
      assert Timing.Earlier(DynAt(a, p).dataVisible, cycle) <==> Timing.Earlier(DynAt(b, p).dataVisible, cycle);
    }
  }

  lemma UpdateNet(cycle: nat, opts: Options, code: seq<Uop>, s: State, dyn: seq<Dyn>)
    requires WellFormedCode(code) && PipeInv(cycle, opts, code, s) && NetInv(cycle, code, s)
      && dyn == TagAll(cycle, code, s.ex, s.dyn)
    requires AllTimeMid(cycle, opts, code, s.ex.e4, dyn)
    ensures var q := UpdateQueue(cycle, code, dyn, s.q);
      && TagsOk(q, dyn) && OwnerExact(q.iq, q.iqTags, q.owner) && BitsOk(cycle + 1, code, q.iq, dyn)
      && BitsExact(cycle, q.ready, code, q.iq, dyn)
  {
    TagSame(cycle, opts, code, s, dyn);
    CaptureFrame(s.q, s.dyn, dyn);
    TableSame(cycle, code, s.q.ready, s.dyn, dyn);
    forall i | 0 <= i < |s.q.iq| ensures s.q.iq[i].seqNo < |code| {
      assert SeqNos(s.q.iq)[i] in SeqNos(s.q.iq);
      CountMember(SeqNos(s.q.iq), s.q.iq[i].seqNo);
      InIqLive(code, s, s.q.iq[i].seqNo);
    }
    UpdateCarries(cycle, opts, code, s.q, s.dyn, dyn, s.ex.e4);
    UpdateExact(cycle, opts, code, s.q, s.dyn, dyn, s.ex.e4);
    UpdateIqFacts(cycle, code, s.q, dyn, 0);
    EntryFrame(s.q, dyn, UpdateQueue(cycle, code, dyn, s.q).iq);
  }

  lemma UpdateTables(cycle: nat, opts: Options, code: seq<Uop>, s: State, dyn: seq<Dyn>)
    requires PipeInv(cycle, opts, code, s) && NetInv(cycle, code, s) && dyn == TagAll(cycle, code, s.ex, s.dyn)
    ensures TablesOk(cycle + 1, code, s.q, dyn) && CapturesOk(InFront(s.fe.front), s.q, code, dyn)
  {
    TagSame(cycle, opts, code, s, dyn);
    TablesLater(cycle, code, s.q, s.dyn);
    TablesSettle(cycle, code, s.q, s.dyn, dyn);
    CapturesFrame(InFront(s.fe.front), s.q, code, s.dyn, dyn);
  }

  lemma CapturesSameSeqs(held: iset<nat>, q: Queue, iq: seq<IqEntry>, code: seq<Uop>, dyn: seq<Dyn>)
    requires CapturesOk(held, q, code, dyn) && SeqNos(iq) == SeqNos(q.iq)
    ensures CapturesOk(held, q.(iq := iq), code, dyn)
  {
    CapturesShrink(held, q, held, q.(iq := iq), code, dyn);
  }

  /** Tagging, queue update and store drain. The readiness bits are exact at this point. */
  lemma MiddleInv(cycle: nat, opts: Options, input: Input, code: seq<Uop>, s: State)
    requires WellFormedCode(code) && PipeInv(cycle, opts, code, s) && NetInv(cycle, code, s)
    requires cycle == 0 ==> s.ex == Exec([], [], [], [], [], [])
    ensures var r := Middle(cycle, input, code, s);
      && MidInv(cycle, opts, code, r) && r.fe == s.fe && BitsExact(cycle, r.q.ready, code, r.q.iq, r.dyn)
  {
    var dyn := TagAll(cycle, code, s.ex, s.dyn);
    var t := UpdateIq(cycle, code, PublishFaults(input.faults, TagStageCycles(cycle, code, s)));
    TagFacts(cycle, opts, code, s);
    TagStages(cycle, opts, code, s);
    UpdateNet(cycle, opts, code, s, dyn);
    UpdateTables(cycle, opts, code, s, dyn);
    UpdateIqFacts(cycle, code, s.q, dyn, 0);
    CapturesSameSeqs(InFront(s.fe.front), s.q, t.q.iq, code, dyn);
    MiddleAlive(cycle, input, code, s);
    ScbStages(cycle, code, t);
  }

  // -- Retire and schedule ------------------------------------------------------------------------

  lemma {:induction false} RetireTables(limit: nat, cycle: nat, opts: Options, code: seq<Uop>, e4: seq<nat>,
                                        dyn: seq<Dyn>, a: Retirer)
    requires TagsUnique(code) && AllTimeMid(cycle, opts, code, e4, dyn) && ReadyOk(cycle + 1, code, a.ready, dyn)
    ensures ReadyOk(cycle + 1, code, RetireLoop(limit, cycle, code, dyn, a).ready, dyn)
    decreases limit - |a.rt.retired|
  {
    if |a.rt.retired| >= limit || a.rt.rob == [] || DynAt(dyn, a.rt.rob[0]).done.None? {
    } else {
      var x := a.rt.rob[0];
      var r := RetireOne(cycle, code, a);
      assert TimeMid(cycle, opts, UopAt(code, x), DynAt(dyn, x), x in e4);
      forall p: nat | UopAt(code, p).dstTag.Some? && r.ready.Has(UopAt(code, p).dstTag.value)
        ensures Timing.Earlier(DynAt(dyn, p).dataVisible, cycle + 1)
      {
        if !a.ready.Has(UopAt(code, p).dstTag.value) { assert UopAt(code, p).dstTag == UopAt(code, x).dstTag; }
      }
      RetireTables(limit, cycle, opts, code, e4, dyn, r);
    }
  }

  lemma RetireInv(cycle: nat, opts: Options, code: seq<Uop>, s: State)
    requires WellFormedCode(code) && MidInv(cycle, opts, code, s)
    ensures var r := RetireReady(cycle, code, s); MidInv(cycle, opts, code, r) && r.fe == s.fe
  {
    RetireAlive(cycle, code, s);
    RetireTables(|s.rt.retired| + COMMIT_WIDTH, cycle, opts, code, s.ex.e4, s.dyn,
        Retirer(s.rt, s.q.ready, s.mem.stq, s.mem.scb));
    var r := RetireReady(cycle, code, s);
    CapturesShrink(InFront(s.fe.front), s.q, InFront(r.fe.front), r.q, code, s.dyn);
  }

  lemma ScheduleInv(cycle: nat, opts: Options, input: Input, code: seq<Uop>, s: State)
    requires MidInv(cycle, opts, code, s) && s.fe.pendingFlush.None? && s.fe.redirect.None?
    ensures var r := ScheduleRedirect(cycle, input, code, s);
      MidInv(cycle, opts, code, r) && RedirectOk(cycle + 1, code, r.fe)
  {
    ScheduleAlive(cycle, input, code, s);
  }

  // -- Back half ----------------------------------------------------------------------------------

  /** The network seen by steps that move no issue-queue entry. */
  lemma NetSettle(cycle: nat, code: seq<Uop>, s: State, r: State)
    requires NetInv(cycle + 1, code, s) && r.q == s.q && r.fe.front == s.fe.front
    requires Settled(cycle, s.dyn, r.dyn) && SameCaptures(s.dyn, r.dyn)
    ensures NetInv(cycle + 1, code, r)
  {
    CaptureFrame(s.q, s.dyn, r.dyn);
    BitsSettle(cycle, code, s.q.iq, s.dyn, r.dyn);
    CapturesFrame(InFront(s.fe.front), s.q, code, s.dyn, r.dyn);
    TablesSettle(cycle, code, s.q, s.dyn, r.dyn);
  }

  lemma ExecuteCaptures(cycle: nat, opts: Options, code: seq<Uop>, s: State)
    ensures SameCaptures(s.dyn, AdvanceE4(cycle, opts, code, s).dyn)
  {
    var start := E4Stage([], s.mem, s.dyn);
    E4LoopLength(s.ex.e4, cycle, opts, code, start);
    forall x: nat
      ensures var a, b := DynAt(s.dyn, x), DynAt(AdvanceE4(cycle, opts, code, s).dyn, x);
        a.srcQtags == b.srcQtags && a.dstQtag == b.dstQtag
    {
      if x < |s.dyn| { E4LoopTime(s.ex.e4, cycle, opts, code, start, x); }
    }
  }

  lemma ExecuteInv(cycle: nat, opts: Options, code: seq<Uop>, s: State)
    requires MidInv(cycle, opts, code, s)
    ensures var r := AdvanceExecute(cycle, opts, code, s);
      PipeInv(cycle + 1, opts, code, r) && NetInv(cycle + 1, code, r)
  {
    var r := AdvanceExecute(cycle, opts, code, s);
    ExecuteTime(cycle, opts, code, s);
    ExecuteSettled(cycle, opts, code, s);
    ExecuteCaptures(cycle, opts, code, s);
    NetSettle(cycle, code, s, r);
    ExecuteStages(cycle, opts, code, s);
    ExecuteAlive(cycle, opts, code, s);
  }

  lemma ExecuteAlive(cycle: nat, opts: Options, code: seq<Uop>, s: State)
    requires AliveState(code, s)
    ensures AliveState(code, AdvanceExecute(cycle, opts, code, s))
  {
    var r := AdvanceExecute(cycle, opts, code, s);
    E4LoopLength(s.ex.e4, cycle, opts, code, E4Stage([], s.mem, s.dyn));
    forall x: nat ensures Copies(r, x) <= Copies(s, x) { ExecuteCopies(cycle, opts, code, s, x); }
    AliveCarries(code, s, r);
  }

  lemma L1dInv(cycle: nat, opts: Options, code: seq<Uop>, s: State)
    requires PipeInv(cycle + 1, opts, code, s) && NetInv(cycle + 1, code, s)
    ensures var r := AdvanceL1d(cycle, s); PipeInv(cycle + 1, opts, code, r) && NetInv(cycle + 1, code, r)
  {
    var r := AdvanceL1d(cycle, s);
    L1dStages(cycle, code, s);
    forall x: nat ensures Copies(r, x) <= Copies(s, x) { L1dCopies(cycle, s, x); }
    AliveCarries(code, s, r);
  }

  lemma LiqInv(cycle: nat, opts: Options, code: seq<Uop>, s: State)
    requires PipeInv(cycle + 1, opts, code, s) && NetInv(cycle + 1, code, s)
    ensures var r := AdvanceLiq(cycle, code, s); PipeInv(cycle + 1, opts, code, r) && NetInv(cycle + 1, code, r)
  {
    var r := AdvanceLiq(cycle, code, s);
    LiqStages(cycle, code, s);
    LiqTimeOk(cycle, opts, code, s);
    forall x: nat ensures Copies(r, x) <= Copies(s, x) { LiqCopies(cycle, code, s, x); }
    AliveCarries(code, s, r);
    LiqCaptures(cycle, code, s);
    NetSettle(cycle, code, s, r);
  }

  lemma LiqCaptures(cycle: nat, code: seq<Uop>, s: State)
    ensures SameCaptures(s.dyn, AdvanceLiq(cycle, code, s).dyn)
  {
  }

  lemma I1ToI2Inv(cycle: nat, opts: Options, code: seq<Uop>, s: State)
    requires PipeInv(cycle, opts, code, s) && NetInv(cycle, code, s)
    ensures var r := AdvanceI1ToI2(s); PipeInv(cycle, opts, code, r) && NetInv(cycle, code, r)
  {
    var r := AdvanceI1ToI2(s);
    I1ToI2Alive(code, s);
    I1ToI2Stages(cycle, code, s);
    DequeueNet(cycle, code, s, MoveLoop(s.sel.i1, Mover([], s.sel.i2, [], {}), s.q.iq).moved);
  }

  lemma DequeueNet(cycle: nat, code: seq<Uop>, s: State, moved: seq<nat>)
    requires NetInv(cycle, code, s) && AliveState(code, s)
    ensures NetInv(cycle, code, s.(q := Dequeue(moved, s.q)))
  {
    var q := Dequeue(moved, s.q);
    DequeueTags(moved, s.q, s.dyn);
    forall e | e in q.iq ensures e in s.q.iq && e.src == e.src {
      RetainMember(s.q.iq, (o: IqEntry) => o.seqNo !in moved, e);
    }
    BitsSubset(cycle, code, s.q.iq, q.iq, s.dyn);
    forall x | x in InFront(s.fe.front) ensures QueueN(s.q.iq, x) == 0 { assert Copies(s, x) <= 1; }
    CapturesShrink(InFront(s.fe.front), s.q, InFront(s.fe.front), q, code, s.dyn);
  }

  /** Steps that only mark entries in flight or not. */
  lemma MarkNet(cycle: nat, code: seq<Uop>, s: State, r: State)
    requires NetInv(cycle, code, s) && r.q == s.q.(iq := r.q.iq) && r.fe.front == s.fe.front && r.dyn == s.dyn
    requires |r.q.iq| == |s.q.iq| && forall i ::
      0 <= i < |s.q.iq| ==> r.q.iq[i] == s.q.iq[i].(inflight := r.q.iq[i].inflight)
    ensures NetInv(cycle, code, r)
  {
    EntryFrame(s.q, s.dyn, r.q.iq);
    forall e | e in r.q.iq ensures exists o :: o in s.q.iq && o.seqNo == e.seqNo && o.src == e.src {
      var i :| 0 <= i < |r.q.iq| && r.q.iq[i] == e;
      assert s.q.iq[i] in s.q.iq;
    }
    BitsSubset(cycle, code, s.q.iq, r.q.iq, s.dyn);
    SameSeqNosKeep(s.q.iq, r.q.iq, s.q.iqTags, s.q.owner);
    CapturesSameSeqs(InFront(s.fe.front), s.q, r.q.iq, code, s.dyn);
  }

  ghost predicate OnlyMarks(a: seq<IqEntry>, b: seq<IqEntry>) {
    |a| == |b| && forall i :: 0 <= i < |a| ==> b[i] == a[i].(inflight := b[i].inflight)
  }

  lemma {:induction false} PickMarks(cands: seq<Keyed>, a: Picker)
    ensures OnlyMarks(a.iq, PickLoop(cands, a).iq)
    decreases |cands|
  {
    if cands != [] && |a.p1| < ISSUE_WIDTH {
      PickMarks(cands[1..], Picker(SetInflight(a.iq, cands[0].index, true), a.p1 + [cands[0].seqNo]));
    }
  }

  lemma {:induction false} ArbitrateMarks(attempts: seq<Keyed>, cycle: nat, a: Arbiter, code: seq<Uop>, dyn: seq<Dyn>)
    ensures OnlyMarks(a.iq, ArbitrateLoop(attempts, cycle, a, code, dyn).iq)
    decreases |attempts|
  {
    if attempts != [] {
      ArbitrateMarks(attempts[1..], cycle, ArbitrateOne(attempts[0].seqNo, cycle, a, code, dyn), code, dyn);
    }
  }

  lemma ArbitrateInv(cycle: nat, opts: Options, code: seq<Uop>, s: State)
    requires PipeInv(cycle + 1, opts, code, s) && NetInv(cycle + 1, code, s)
    ensures var r := ArbitrateAndAdvance(cycle, code, s);
      PipeInv(cycle + 1, opts, code, r) && NetInv(cycle + 1, code, r)
  {
    var r := ArbitrateAndAdvance(cycle, code, s);
    ArbitrateAlive(cycle, code, s);
    UniqueFromLive(s.fe.nextFetch, s);
    ArbitrateFacts(cycle, code, s);
    ArbitrateMarks(SortKeyed(Attempts(s.sel.p1, s.rt.rob)), cycle, Arbiter(s.q.iq, [], 0, {}), code, s.dyn);
    MarkNet(cycle + 1, code, s, r);
  }

  lemma PickInvStep(cycle: nat, opts: Options, code: seq<Uop>, s: State)
    requires PipeInv(cycle + 1, opts, code, s) && NetInv(cycle + 1, code, s)
    ensures var r := PickFromIq(cycle, code, s); PipeInv(cycle + 1, opts, code, r) && NetInv(cycle + 1, code, r)
  {
    var r := PickFromIq(cycle, code, s);
    PickAlive(cycle, code, s);
    UniqueFromLive(s.fe.nextFetch, s);
    PickFacts(cycle, code, s);
    PickMarks(Candidates(cycle, s.mem.issuePtr, s.q.iq, code, s.dyn, s.rt.rob), Picker(s.q.iq, s.sel.p1));
    MarkNet(cycle + 1, code, s, r);
  }

  lemma I2Inv(cycle: nat, opts: Options, code: seq<Uop>, s: State)
    requires PipeInv(cycle + 1, opts, code, s) && NetInv(cycle + 1, code, s)
    ensures var r := AdvanceI2(cycle, code, s); PipeInv(cycle + 1, opts, code, r) && NetInv(cycle + 1, code, r)
  {
    I2Alive(cycle, code, s);
    I2Stages(cycle, code, s);
  }

  lemma DispatchNet(cycle: nat, opts: Options, input: Input, code: seq<Uop>, s: State)
    requires WellFormedCode(code) && PipeInv(cycle + 1, opts, code, s) && NetInv(cycle + 1, code, s)
    ensures NetInv(cycle + 1, code, Dispatch(cycle, input, code, s))
  {
    var held := InFront(s.fe.front);
    var d := Dispatcher([], s.ex.w2, s.q, s.dyn, map[]);
    var e := DispatchLoop(s.fe.front[10], cycle, input, code, d);
    var r := Dispatch(cycle, input, code, s);
    DispatchKeepsTags(cycle, input, code, s);
    forall x | x in s.fe.front[10] ensures x in held && x < |s.dyn| { InFrontLive(code, s, 10, x); }
    forall y: nat ensures N(s.fe.front[10], y) + QueueN(s.q.iq, y) <= 1 {
      assert Copies(s, y) <= 1;
      assert FrontN(s.fe.front, y) == StageCount(s.fe.front, 10, y) + N(s.fe.front[10], y);
    }
    DispatchLoopWake(s.fe.front[10], cycle, input, held, code, d);
    forall x | x in InFront(r.fe.front) ensures x in held { DispatchHeld(cycle, input, code, s, x); }
    CapturesShrink(held, e.q, InFront(r.fe.front), r.q, code, r.dyn);
  }

  lemma DispatchHeld(cycle: nat, input: Input, code: seq<Uop>, s: State, x: nat)
    ensures FrontN(Dispatch(cycle, input, code, s).fe.front, x) <= FrontN(s.fe.front, x)
  {
    var d := Dispatcher([], s.ex.w2, s.q, s.dyn, map[]);
    var e := DispatchLoop(s.fe.front[10], cycle, input, code, d);
    StageCountUpdate(s.fe.front, 10, e.stay, STAGES, x);
    StayCount(s.fe.front[10], cycle, input, code, d, x);
  }

  lemma {:induction false} StayCount(pending: seq<nat>, cycle: nat, input: Input, code: seq<Uop>, d: Dispatcher, x: nat)
    ensures N(DispatchLoop(pending, cycle, input, code, d).stay, x) <= N(d.stay, x) + N(pending, x)
  {
    if pending != [] {
      var y := pending[0];
      StayOne(y, cycle, input, code, d, x);
      StayCount(pending[1..], cycle, input, code, DispatchOne(y, cycle, input, code, d), x);
    }
  }

  lemma StayOne(y: nat, cycle: nat, input: Input, code: seq<Uop>, d: Dispatcher, x: nat)
    ensures var r := DispatchOne(y, cycle, input, code, d).stay; r == d.stay || r == d.stay + [y]
    ensures N(DispatchOne(y, cycle, input, code, d).stay, x) <= N(d.stay, x) + (if x == y then 1 else 0)
  {
    CountSnoc(d.stay, y, x);
  }

  lemma DispatchInv(cycle: nat, opts: Options, input: Input, code: seq<Uop>, s: State)
    requires WellFormedCode(code) && PipeInv(cycle + 1, opts, code, s) && NetInv(cycle + 1, code, s)
    ensures var r := Dispatch(cycle, input, code, s); PipeInv(cycle + 1, opts, code, r) && NetInv(cycle + 1, code, r)
  {
    DispatchAlive(cycle, input, code, s);
    DispatchTimeOk(cycle, opts, input, code, s);
    DispatchKeepsStages(cycle, opts, input, code, s);
    DispatchNet(cycle, opts, input, code, s);
  }

  lemma FrontendInv(cycle: nat, opts: Options, code: seq<Uop>, s: State)
    requires PipeInv(cycle, opts, code, s) && NetInv(cycle, code, s)
    ensures var r := AdvanceFrontend(s); PipeInv(cycle, opts, code, r) && NetInv(cycle, code, r)
  {
    var r := AdvanceFrontend(s);
    FrontendAlive(code, s);
    forall x: nat ensures FrontN(r.fe.front, x) == FrontN(s.fe.front, x) {
      FrontendCopies(|s.fe.front| - 1, Stages(s.fe.front, s.rt.rob), x);
    }
    CapturesShrink(InFront(s.fe.front), s.q, InFront(r.fe.front), s.q, code, s.dyn);
  }

  /** The state whose P1 occupants cycle `cycle` arbitrates. */
  function BeforeArbitrate(cycle: nat, opts: Options, code: seq<Uop>, s: State): State {
    AdvanceI1ToI2(AdvanceLiq(cycle, code, AdvanceL1d(cycle, AdvanceExecute(cycle, opts, code, s))))
  }

  /** The state from which cycle `cycle` picks. */
  function BeforePick(cycle: nat, opts: Options, code: seq<Uop>, s: State): State {
    AdvanceI2(cycle, code, ArbitrateAndAdvance(cycle, code, BeforeArbitrate(cycle, opts, code, s)))
  }

  /** The back half of a cycle up to dispatch. */
  function BeforeDispatch(cycle: nat, opts: Options, code: seq<Uop>, s: State): State {
    PickFromIq(cycle, code, BeforePick(cycle, opts, code, s))
  }

  lemma BeforeArbitrateInv(cycle: nat, opts: Options, code: seq<Uop>, s: State)
    requires WellFormedCode(code) && MidInv(cycle, opts, code, s)
    ensures var r := BeforeArbitrate(cycle, opts, code, s);
      PipeInv(cycle + 1, opts, code, r) && NetInv(cycle + 1, code, r)
  {
    var a := AdvanceExecute(cycle, opts, code, s);
    ExecuteInv(cycle, opts, code, s);
    var b := AdvanceL1d(cycle, a);
    L1dInv(cycle, opts, code, a);
    LiqInv(cycle, opts, code, b);
    I1ToI2Inv(cycle + 1, opts, code, AdvanceLiq(cycle, code, b));
  }

  lemma BeforeDispatchInv(cycle: nat, opts: Options, code: seq<Uop>, s: State)
    requires WellFormedCode(code) && MidInv(cycle, opts, code, s)
    ensures var r := BeforeDispatch(cycle, opts, code, s);
      PipeInv(cycle + 1, opts, code, r) && NetInv(cycle + 1, code, r)
  {
    var d := BeforeArbitrate(cycle, opts, code, s);
    BeforeArbitrateInv(cycle, opts, code, s);
    var e := ArbitrateAndAdvance(cycle, code, d);
    ArbitrateInv(cycle, opts, code, d);
    I2Inv(cycle, opts, code, e);
    PickInvStep(cycle, opts, code, AdvanceI2(cycle, code, e));
  }

  lemma BackHalfInv(cycle: nat, opts: Options, input: Input, code: seq<Uop>, s: State)
    requires WellFormedCode(code) && MidInv(cycle, opts, code, s)
    ensures var r := BackHalf(cycle, opts, input, code, s);
      PipeInv(cycle + 1, opts, code, r) && NetInv(cycle + 1, code, r)
  {
    var g := BeforeDispatch(cycle, opts, code, s);
    BeforeDispatchInv(cycle, opts, code, s);
    DispatchInv(cycle, opts, input, code, g);
    FrontendInv(cycle + 1, opts, code, Dispatch(cycle, input, code, g));
  }

  /** The fetch-control fields change only at the start of a cycle and when a redirect is scheduled. */
  lemma BackHalfFetch(cycle: nat, opts: Options, input: Input, code: seq<Uop>, s: State)
    ensures var r := BackHalf(cycle, opts, input, code, s); r.fe == s.fe.(front := r.fe.front)
  {
  }

  // -- Whole runs ---------------------------------------------------------------------------------

  /** The state in cycle `cycle` right after retirement, before a redirect is scheduled. */
  function AfterRetire(cycle: nat, input: Input, code: seq<Uop>, s: State): State {
    RetireReady(cycle, code, FrontHalf(cycle, input, code, s))
  }

  /** The state after the commit part of a cycle, before execution. */
  function Committed(cycle: nat, input: Input, code: seq<Uop>, s: State): State {
    ScheduleRedirect(cycle, input, code, AfterRetire(cycle, input, code, s))
  }

  lemma StepCases(cycle: nat, opts: Options, input: Input, code: seq<Uop>, s: State)
    requires !s.rt.halted
    ensures var b, c, r := AfterRetire(cycle, input, code, s), Committed(cycle, input, code, s),
        Step(cycle, opts, input, code, s);
      r == if b.rt.halted then b
           else if |c.rt.committed| == opts.targetCommits then c.(rt := c.rt.(halted := true))
           else BackHalf(cycle, opts, input, code, c)
  {
  }

  lemma FrontHalfInv(cycle: nat, opts: Options, input: Input, code: seq<Uop>, s: State)
    requires WellFormedCode(code) && RunInv(cycle, opts, code, s)
    ensures var r := FrontHalf(cycle, input, code, s);
      && MidInv(cycle, opts, code, r) && BitsExact(cycle, r.q.ready, code, r.q.iq, r.dyn)
      && r.fe.pendingFlush.None? && r.fe.redirect.None?
  {
    RestartPipe(cycle, opts, code, s);
    RestartNet(cycle, opts, code, s);
    MiddleInv(cycle, opts, input, code, FillFetch(cycle, code, ApplyPendingFlush(cycle, code, s)));
  }

  lemma StepInv(cycle: nat, opts: Options, input: Input, code: seq<Uop>, s: State)
    requires WellFormedCode(code) && RunInv(cycle, opts, code, s) && !s.rt.halted
    ensures var r := Step(cycle, opts, input, code, s); !r.rt.halted ==> RunInv(cycle + 1, opts, code, r)
  {
    FrontHalfInv(cycle, opts, input, code, s);
    var a := FrontHalf(cycle, input, code, s);
    RetireInv(cycle, opts, code, a);
    var b := RetireReady(cycle, code, a);
    ScheduleInv(cycle, opts, input, code, b);
    var c := ScheduleRedirect(cycle, input, code, b);
    if !b.rt.halted && |c.rt.committed| != opts.targetCommits {
      BackHalfInv(cycle, opts, input, code, c);
      BackHalfFetch(cycle, opts, input, code, c);
    }
  }

  lemma InitialInv(opts: Options, code: seq<Uop>)
    ensures RunInv(0, opts, code, Initial(code))
  {
    var s := Initial(code);
    forall x: nat ensures Copies(s, x) == 0 && Flight(s.q.iq, x) == 0 { NoStages(STAGES, x); }
    forall x: nat ensures DynAt(s.dyn, x) == FRESH {}
  }

  lemma {:induction false} NoStages(n: nat, x: nat)
    requires n <= STAGES
    ensures StageCount(NO_STAGES, n, x) == 0
  {
    if n > 0 { NoStages(n - 1, x); }
  }

  lemma HaltedStays(cycle: nat, opts: Options, input: Input, code: seq<Uop>, s: State)
    requires s.rt.halted
    ensures Step(cycle, opts, input, code, s) == s
  {
  }

  lemma StepAtInv(j: nat, k: nat, run: seq<State>, opts: Options, inputs: nat -> Input, code: seq<Uop>)
    requires WellFormedCode(code) && StepAt(j, run, opts, inputs, code) && k == j + 1 && !run[j].rt.halted
      && !run[k].rt.halted
    requires RunInv(j, opts, code, run[j])
    ensures RunInv(k, opts, code, run[k])
  {
    StepInv(j, opts, inputs(j), code, run[j]);
  }

  lemma StepAtHalted(k: nat, run: seq<State>, opts: Options, inputs: nat -> Input, code: seq<Uop>)
    requires StepAt(k, run, opts, inputs, code)
    ensures run[k].rt.halted ==> run[k + 1] == run[k]
  {
    if run[k].rt.halted { HaltedStays(k, opts, inputs(k), code, run[k]); }
  }

  lemma StartInv(s: State, opts: Options, code: seq<Uop>)
    requires s == Initial(code)
    ensures RunInv(0, opts, code, s)
  {
    InitialInv(opts, code);
  }

  /** Every state of every run that has not halted satisfies the invariant. */
  lemma {:induction false} RunSatisfies(k: nat, run: seq<State>, opts: Options, inputs: nat -> Input, code: seq<Uop>)
    requires WellFormedCode(code) && IsRun(run, opts, inputs, code) && k < |run| && !run[k].rt.halted
    ensures RunInv(k, opts, code, run[k])
  {
    if k == 0 {
      StartInv(run[0], opts, code);
    } else {
      var j: nat := k - 1;
      assert StepAt(j, run, opts, inputs, code);
      StepAtHalted(j, run, opts, inputs, code);
      RunSatisfies(j, run, opts, inputs, code);
      StepAtInv(j, k, run, opts, inputs, code);
    }
  }

  /** A run followed by the next state is a run. */
  lemma Grow(run: seq<State>, opts: Options, inputs: nat -> Input, code: seq<Uop>, s: State, t: State, k: nat)
    requires IsRun(run, opts, inputs, code) && |run| == k + 1 && run[k] == s && t == Step(k, opts, inputs(k), code, s)
    ensures IsRun(run + [t], opts, inputs, code)
  {
    var next := run + [t];
    forall i: nat | i + 1 < |next| ensures StepAt(i, next, opts, inputs, code) {
      if i < k { assert StepAt(i, run, opts, inputs, code); }
    }
  }
}
