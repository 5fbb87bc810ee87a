/** Every step keeps the readiness, capture and ready-table invariants. */
module WakeSteps {
  import opened Wrappers
  import opened Seqs
  import opened Model
  import opened Queues
  import opened Select
  import opened Lsu
  import opened Frontend
  import opened Commit
  import opened Residency
  import opened Alive
  import opened Tags
  import opened TagSteps
  import opened Timing
  import opened WellFormed
  import opened Wakeup

  // -- Through the update -------------------------------------------------------------------------

  lemma UpdateSourceShape(b: SrcState, x: nat, idx: nat, cycle: nat, ready: ReadyTables, code: seq<Uop>, dyn: seq<Dyn>)
    requires !(b.nonspec && b.spec) && (UopAt(code, x).src.At(idx).dep.None? ==> b.nonspec)
    ensures var r := UpdateSource(cycle, x, idx, b, ready, code, dyn);
      r.valid == b.valid && !(r.nonspec && r.spec) && (UopAt(code, x).src.At(idx).dep.None? ==> r.nonspec)
  {
  }

  lemma AfterEventsShape(b: SrcState, x: nat, idx: nat, cycle: nat, code: seq<Uop>, dyn: seq<Dyn>)
    requires !(b.nonspec && b.spec) && (UopAt(code, x).src.At(idx).dep.None? ==> b.nonspec)
    ensures var r := AfterEvents(b, x, idx, cycle, code, dyn);
      r.valid == b.valid && !(r.nonspec && r.spec) && (UopAt(code, x).src.At(idx).dep.None? ==> r.nonspec)
  {
  }

  /** Exact bits as of this cycle are what the next cycle starts from. */
  lemma ExactCarries(b: SrcState, x: nat, idx: nat, cycle: nat, ready: ReadyTables, code: seq<Uop>, dyn: seq<Dyn>)
    requires WellFormedCode(code) && idx < 2 && ReadyOk(cycle, code, ready, dyn)
    requires ExactBits(b, x, idx, cycle, ready, code, dyn)
    requires b.valid == UopAt(code, x).src.At(idx).valid && !(b.nonspec && b.spec)
      && (UopAt(code, x).src.At(idx).dep.None? ==> b.nonspec)
    ensures SourceBits(b, x, idx, cycle + 1, code, dyn)
  {
    if LogicalReady(x, idx, ready, code) { LogicalImpliesData(cycle, code, ready, dyn, x, idx); }
  }

  lemma EntryCarries(i: nat, idx: nat, cycle: nat, opts: Options, code: seq<Uop>, q: Queue, dyn: seq<Dyn>, e4: seq<nat>)
    requires WellFormedCode(code) && ReadyOk(cycle, code, q.ready, dyn) && AllTimeMid(cycle, opts, code, e4, dyn)
    requires i < |q.iq| && idx < 2 && q.iq[i].seqNo < |code|
      && SourceBits(q.iq[i].src.At(idx), q.iq[i].seqNo, idx, cycle, code, dyn)
    ensures var updated := UpdateEntries(cycle, q.iq, q.ready, code, dyn);
      SourceBits(BroadcastFrom(cycle, 0, updated, code, dyn)[i].src.At(idx), q.iq[i].seqNo, idx, cycle + 1, code, dyn)
  {
    var updated := UpdateEntries(cycle, q.iq, q.ready, code, dyn);
    var x := q.iq[i].seqNo;
    EntryExact(i, idx, cycle, opts, code, q, dyn, e4);
    BroadcastFromAt(cycle, 0, updated, code, dyn, i, idx);
    UpdateSourceShape(q.iq[i].src.At(idx), x, idx, cycle, q.ready, code, dyn);
    AfterEventsShape(updated[i].src.At(idx), x, idx, cycle, code, dyn);
    ExactCarries(BroadcastFrom(cycle, 0, updated, code, dyn)[i].src.At(idx), x, idx, cycle, q.ready, code, dyn);
  }

  lemma UpdateCarries(cycle: nat, opts: Options, code: seq<Uop>, q: Queue, before: seq<Dyn>, dyn: seq<Dyn>,
                      e4: seq<nat>)
    requires WellFormedCode(code) && TagsOk(q, dyn) && OwnerExact(q.iq, q.iqTags, q.owner)
    requires BitsOk(cycle, code, q.iq, before) && ReadyOk(cycle, code, q.ready, dyn)
      && AllTimeMid(cycle, opts, code, e4, dyn)
    requires SameEarlier(cycle, before, dyn)
    requires forall i :: 0 <= i < |q.iq| ==> q.iq[i].seqNo < |code|
    ensures BitsOk(cycle + 1, code, UpdateQueue(cycle, code, dyn, q).iq, dyn)
  {
    var r := UpdateQueue(cycle, code, dyn, q).iq;
    UpdateIsBroadcast(cycle, code, q, dyn);
    UpdateIqFacts(cycle, code, q, dyn, 0);
    forall i, idx | 0 <= i < |r| && 0 <= idx < 2
      ensures SourceBits(r[i].src.At(idx), r[i].seqNo, idx, cycle + 1, code, dyn)
    {
      SourceBitsFrame(q.iq[i].src.At(idx), q.iq[i].seqNo, idx, cycle, code, before, dyn);
      EntryCarries(i, idx, cycle, opts, code, q, dyn, e4);
    }
  }

  // -- Frames -------------------------------------------------------------------------------------

  lemma BitsSettle(cycle: nat, code: seq<Uop>, iq: seq<IqEntry>, a: seq<Dyn>, b: seq<Dyn>)
    requires BitsOk(cycle + 1, code, iq, a) && Settled(cycle, a, b) && SameCaptures(a, b)
    ensures BitsOk(cycle + 1, code, iq, b)
  {
    forall i, idx | 0 <= i < |iq| && 0 <= idx < 2
      ensures SourceBits(iq[i].src.At(idx), iq[i].seqNo, idx, cycle + 1, code, b)
    {
      SourceSettles(iq[i].src.At(idx), iq[i].seqNo, idx, cycle, code, a, b);
    }
  }

  lemma SourceSettles(s: SrcState, x: nat, idx: nat, cycle: nat, code: seq<Uop>, a: seq<Dyn>, b: seq<Dyn>)
    requires SourceBits(s, x, idx, cycle + 1, code, a) && Settled(cycle, a, b)
    requires Tracked(x, idx, code, b) ==> Tracked(x, idx, code, a)
    ensures SourceBits(s, x, idx, cycle + 1, code, b)
  {
    var dep := UopAt(code, x).src.At(idx).dep;
    if dep.Some? {
      assert AtOrBefore(DynAt(a, dep.value).dataVisible, cycle) ==>
        DynAt(b, dep.value).dataVisible == DynAt(a, dep.value).dataVisible;
      assert AtOrBefore(DynAt(b, dep.value).pickVisible, cycle) ==> AtOrBefore(DynAt(a, dep.value).pickVisible, cycle);
    }
  }

  /** Entries that are copies of old ones, up to the in-flight mark, keep their bits. */
  lemma BitsSubset(cycle: nat, code: seq<Uop>, iq: seq<IqEntry>, r: seq<IqEntry>, dyn: seq<Dyn>)
    requires BitsOk(cycle, code, iq, dyn)
    requires forall e :: e in r ==> exists o :: o in iq && o.seqNo == e.seqNo && o.src == e.src
    ensures BitsOk(cycle, code, r, dyn)
  {
    forall i, idx | 0 <= i < |r| && 0 <= idx < 2
      ensures SourceBits(r[i].src.At(idx), r[i].seqNo, idx, cycle, code, dyn)
    {
      assert r[i] in r;
      var o :| o in iq && o.seqNo == r[i].seqNo && o.src == r[i].src;
      var j :| 0 <= j < |iq| && iq[j] == o;
      assert SourceBits(iq[j].src.At(idx), iq[j].seqNo, idx, cycle, code, dyn);
    }
  }

  // -- Captured tags ------------------------------------------------------------------------------

  /** Every captured tag belongs to the matching producer; while that producer is still (or again)
      to be dispatched, the tag is the one it holds. */
  ghost predicate CapturesOk(held: iset<nat>, q: Queue, code: seq<Uop>, dyn: seq<Dyn>) {
    && (forall x :: x in q.iqTags ==> DynAt(dyn, x).dstQtag == Some(q.iqTags[x]))
    && (forall x, idx {:trigger DynAt(dyn, x).srcQtags.At(idx)} ::
          x in q.iqTags && 0 <= idx < 2 && DynAt(dyn, x).srcQtags.At(idx).Some? ==>
            CaptureOk(x, idx, held, q, code, dyn))
  }

  ghost predicate CaptureOk(x: nat, idx: nat, held: iset<nat>, q: Queue, code: seq<Uop>, dyn: seq<Dyn>) {
    && UsesQTagWakeup(x, idx, code, dyn)
    && var p := UopAt(code, x).src.At(idx).dep.value;
       p in held && QueueN(q.iq, p) == 0 ==> DynAt(dyn, p).dstQtag == DynAt(dyn, x).srcQtags.At(idx)
  }

  lemma CapturesFrame(held: iset<nat>, q: Queue, code: seq<Uop>, a: seq<Dyn>, b: seq<Dyn>)
    requires CapturesOk(held, q, code, a) && SameCaptures(a, b)
    ensures CapturesOk(held, q, code, b)
  {
    forall x | x in q.iqTags ensures DynAt(b, x).dstQtag == Some(q.iqTags[x]) {
      assert DynAt(a, x).dstQtag == Some(q.iqTags[x]);
    }
    forall x, idx | x in q.iqTags && 0 <= idx < 2 && DynAt(b, x).srcQtags.At(idx).Some?
      ensures CaptureOk(x, idx, held, q, code, b)
    {
      assert DynAt(a, x).srcQtags == DynAt(b, x).srcQtags;
      assert CaptureOk(x, idx, held, q, code, a);
    }
  }

  /** Fewer live entries, fewer uops still to dispatch. */
  lemma CapturesShrink(held: iset<nat>, q: Queue, held': iset<nat>, q': Queue, code: seq<Uop>, dyn: seq<Dyn>)
    requires CapturesOk(held, q, code, dyn)
    requires forall x :: x in q'.iqTags ==> x in q.iqTags && q'.iqTags[x] == q.iqTags[x]
    requires forall x :: x in held' && QueueN(q'.iq, x) == 0 ==>
      (x in held && QueueN(q.iq, x) == 0)
        || (forall y, idx :: y in q'.iqTags && 0 <= idx < 2 ==> UopAt(code, y).src.At(idx).dep != Some(x))
    ensures CapturesOk(held', q', code, dyn)
  {
    forall x | x in q'.iqTags ensures DynAt(dyn, x).dstQtag == Some(q'.iqTags[x]) {
      assert DynAt(dyn, x).dstQtag == Some(q.iqTags[x]);
    }
    forall x, idx | x in q'.iqTags && 0 <= idx < 2 && DynAt(dyn, x).srcQtags.At(idx).Some?
      ensures CaptureOk(x, idx, held', q', code, dyn)
    {
      assert CaptureOk(x, idx, held, q, code, dyn);
      var p := UopAt(code, x).src.At(idx).dep.value;
      assert UopAt(code, x).src.At(idx).dep == Some(p);
    }
  }

  // -- Dispatch -----------------------------------------------------------------------------------

  ghost predicate DispatchWake(cycle: nat, held: iset<nat>, code: seq<Uop>, d: Dispatcher) {
    && BitsOk(cycle + 1, code, d.q.iq, d.dyn) && CapturesOk(held, d.q, code, d.dyn)
    && TablesOk(cycle + 1, code, d.q, d.dyn)
  }

  lemma SeedBits(x: nat, idx: nat, cycle: nat, ready: ReadyTables, code: seq<Uop>, dyn: seq<Dyn>)
    requires WellFormedCode(code) && idx < 2 && ReadyOk(cycle + 1, code, ready, dyn)
    ensures SourceBits(SeedSource(cycle, x, idx, ready, code, dyn), x, idx, cycle + 1, code, dyn)
  {
    if LogicalReady(x, idx, ready, code) { LogicalImpliesData(cycle + 1, code, ready, dyn, x, idx); }
  }

  lemma EntryBits(e: IqEntry, cycle: nat, ready: ReadyTables, code: seq<Uop>, dyn: seq<Dyn>, idx: nat)
    requires WellFormedCode(code) && idx < 2 && ReadyOk(cycle + 1, code, ready, dyn)
    requires e == MakeIqEntry(cycle, e.seqNo, e.physIq, ready, code, dyn)
    ensures SourceBits(e.src.At(idx), e.seqNo, idx, cycle + 1, code, dyn)
  {
    SeedBits(e.seqNo, idx, cycle, ready, code, dyn);
  }

  /** `b` differs from `a` only in the tags of `x`. */
  ghost predicate OnlyTagsOf(x: nat, a: seq<Dyn>, b: seq<Dyn>) {
    && |a| == |b|
    && (forall y: nat :: y != x ==> DynAt(b, y) == DynAt(a, y))
    && (forall y: nat :: SameTiming(DynAt(a, y), DynAt(b, y)))
  }

  /** What source `idx` of `x` captures once `x` itself has its tag. */
  ghost function CapturedAfter(x: nat, idx: nat, p: PhysIq, qtag: QTag, code: seq<Uop>, d: Dispatcher): Option<QTag> {
    var named := DynPut(d.dyn, x, DynAt(d.dyn, x).(physIq := Some(p), dstQtag := Some(qtag)));
    CapturedQTag(x, idx, d.q.iqTags[x := qtag], d.q.ready, code, named)
  }

  lemma EnqueueFrame(x: nat, p: PhysIq, qtag: QTag, cycle: nat, code: seq<Uop>, d: Dispatcher)
    requires x < |d.dyn|
    ensures var r := Enqueue(x, p, qtag, cycle, code, d);
      && OnlyTagsOf(x, d.dyn, r.dyn) && DynAt(r.dyn, x).dstQtag == Some(qtag)
      && (forall idx :: 0 <= idx < 2 ==> DynAt(r.dyn, x).srcQtags.At(idx) == CapturedAfter(x, idx, p, qtag, code, d))
      && r.q.ready == d.q.ready && r.q.checkpoints == d.q.checkpoints && r.q.iqTags == d.q.iqTags[x := qtag]
      && r.q.iq == d.q.iq + [MakeIqEntry(cycle, x, p, d.q.ready, code, r.dyn)]
  {
  }

  lemma OnlyTagsSettled(cycle: nat, x: nat, a: seq<Dyn>, b: seq<Dyn>)
    requires OnlyTagsOf(x, a, b)
    ensures Settled(cycle, a, b)
  {
    forall y: nat
      ensures && (AtOrBefore(DynAt(a, y).dataVisible, cycle) ==> DynAt(b, y).dataVisible == DynAt(a, y).dataVisible)
              && (AtOrBefore(DynAt(b, y).dataVisible, cycle) ==> AtOrBefore(DynAt(a, y).dataVisible, cycle))
              && (AtOrBefore(DynAt(b, y).pickVisible, cycle) ==> AtOrBefore(DynAt(a, y).pickVisible, cycle))
    {
      assert SameTiming(DynAt(a, y), DynAt(b, y));
    }
  }

  lemma TablesSettle(cycle: nat, code: seq<Uop>, q: Queue, a: seq<Dyn>, b: seq<Dyn>)
    requires TablesOk(cycle + 1, code, q, a) && Settled(cycle, a, b)
    ensures TablesOk(cycle + 1, code, q, b)
  {
    TableSettles(cycle, code, q.ready, a, b);
    forall k | k in q.checkpoints ensures ReadyOk(cycle + 1, code, q.checkpoints[k], b) {
      TableSettles(cycle, code, q.checkpoints[k], a, b);
    }
  }

  lemma TableSettles(cycle: nat, code: seq<Uop>, ready: ReadyTables, a: seq<Dyn>, b: seq<Dyn>)
    requires ReadyOk(cycle + 1, code, ready, a) && Settled(cycle, a, b)
    ensures ReadyOk(cycle + 1, code, ready, b)
  {
    forall p: nat | UopAt(code, p).dstTag.Some? && ready.Has(UopAt(code, p).dstTag.value)
      ensures Timing.Earlier(DynAt(b, p).dataVisible, cycle + 1)
    {
      assert Timing.Earlier(DynAt(a, p).dataVisible, cycle + 1);
      assert AtOrBefore(DynAt(a, p).dataVisible, cycle) ==> DynAt(b, p).dataVisible == DynAt(a, p).dataVisible;
    }
  }

  /** Giving `x` its tag cannot make an untracked source tracked. */
  lemma TrackedBefore(x: nat, s: nat, idx: nat, held: iset<nat>, q: Queue, code: seq<Uop>, a: seq<Dyn>, b: seq<Dyn>)
    requires CapturesOk(held, q, code, a) && OnlyTagsOf(x, a, b) && x in held && QueueN(q.iq, x) == 0
    requires s in q.iqTags && s != x && idx < 2 && Tracked(s, idx, code, b)
    ensures Tracked(s, idx, code, a)
  {
    assert DynAt(b, s) == DynAt(a, s);
    var source := UopAt(code, s).src.At(idx);
    if source.queueKind.Some? {
      assert CaptureOk(s, idx, held, q, code, a);
      if source.dep.value != x { assert DynAt(b, source.dep.value) == DynAt(a, source.dep.value); }
    }
  }

  lemma EnqueueBits(x: nat, p: PhysIq, qtag: QTag, cycle: nat, held: iset<nat>, code: seq<Uop>, d: Dispatcher)
    requires WellFormedCode(code) && DispatchWake(cycle, held, code, d) && TagsOk(d.q, d.dyn)
    requires x < |d.dyn| && x in held && QueueN(d.q.iq, x) == 0
    ensures var r := Enqueue(x, p, qtag, cycle, code, d);
      BitsOk(cycle + 1, code, r.q.iq, r.dyn) && TablesOk(cycle + 1, code, r.q, r.dyn)
  {
    var r := Enqueue(x, p, qtag, cycle, code, d);
    EnqueueFrame(x, p, qtag, cycle, code, d);
    OnlyTagsSettled(cycle, x, d.dyn, r.dyn);
    TablesSettle(cycle, code, d.q, d.dyn, r.dyn);
    FindEntryCount(d.q.iq, x);
    forall i, idx | 0 <= i < |r.q.iq| && 0 <= idx < 2
      ensures SourceBits(r.q.iq[i].src.At(idx), r.q.iq[i].seqNo, idx, cycle + 1, code, r.dyn)
    {
      if i < |d.q.iq| {
        var s := d.q.iq[i].seqNo;
        assert SourceBits(d.q.iq[i].src.At(idx), s, idx, cycle + 1, code, d.dyn);
        if Tracked(s, idx, code, r.dyn) { TrackedBefore(x, s, idx, held, d.q, code, d.dyn, r.dyn); }
        SourceSettles(d.q.iq[i].src.At(idx), s, idx, cycle, code, d.dyn, r.dyn);
      } else {
        EntryBits(r.q.iq[i], cycle, d.q.ready, code, r.dyn, idx);
      }
    }
  }

  lemma EnqueueCaptures(x: nat, p: PhysIq, qtag: QTag, cycle: nat, held: iset<nat>, code: seq<Uop>, d: Dispatcher)
    requires WellFormedCode(code) && CapturesOk(held, d.q, code, d.dyn) && TagsOk(d.q, d.dyn)
    requires x < |d.dyn| && x in held && QueueN(d.q.iq, x) == 0
    ensures var r := Enqueue(x, p, qtag, cycle, code, d); CapturesOk(held, r.q, code, r.dyn)
  {
    var r := Enqueue(x, p, qtag, cycle, code, d);
    EnqueueFrame(x, p, qtag, cycle, code, d);
    assert SeqNos(r.q.iq) == SeqNos(d.q.iq) + [x];
    assert x !in d.q.iqTags;
    forall y | y in r.q.iqTags ensures DynAt(r.dyn, y).dstQtag == Some(r.q.iqTags[y]) {
      if y != x { assert DynAt(r.dyn, y) == DynAt(d.dyn, y); }
    }
    forall y, idx | y in r.q.iqTags && 0 <= idx < 2 && DynAt(r.dyn, y).srcQtags.At(idx).Some?
      ensures CaptureOk(y, idx, held, r.q, code, r.dyn)
    {
      if y == x {
        FreshCapture(x, idx, p, qtag, held, code, d, r.q, r.dyn);
      } else {
        OldCapture(x, y, idx, held, code, d.q, d.dyn, r.q, r.dyn);
      }
    }
  }

  lemma OldCapture(x: nat, y: nat, idx: nat, held: iset<nat>, code: seq<Uop>, q: Queue, a: seq<Dyn>, q': Queue,
                   b: seq<Dyn>)
    requires CapturesOk(held, q, code, a) && OnlyTagsOf(x, a, b) && y in q.iqTags && y != x && idx < 2
    requires DynAt(b, y).srcQtags.At(idx).Some? && SeqNos(q'.iq) == SeqNos(q.iq) + [x]
    ensures CaptureOk(y, idx, held, q', code, b)
  {
    assert DynAt(b, y) == DynAt(a, y);
    assert CaptureOk(y, idx, held, q, code, a);
    var p := UopAt(code, y).src.At(idx).dep.value;
    CountSnoc(SeqNos(q.iq), x, p);
    if p != x { assert DynAt(b, p) == DynAt(a, p); }
  }

  lemma FreshCapture(x: nat, idx: nat, p: PhysIq, qtag: QTag, held: iset<nat>, code: seq<Uop>, d: Dispatcher,
                     q': Queue, b: seq<Dyn>)
    requires WellFormedCode(code) && CapturesOk(held, d.q, code, d.dyn) && TagsOk(d.q, d.dyn)
    requires x < |d.dyn| && idx < 2 && OnlyTagsOf(x, d.dyn, b) && SeqNos(q'.iq) == SeqNos(d.q.iq) + [x]
    requires DynAt(b, x).srcQtags.At(idx).Some?
    requires DynAt(b, x).srcQtags.At(idx) == CapturedAfter(x, idx, p, qtag, code, d)
    ensures CaptureOk(x, idx, held, q', code, b)
  {
    var y := UopAt(code, x).src.At(idx).dep.value;
    DepEarlier(code, x, idx);
    assert DynAt(b, y) == DynAt(d.dyn, y);
    CountSnoc(SeqNos(d.q.iq), x, y);
  }

  lemma BypassWake(x: nat, cycle: nat, held: iset<nat>, code: seq<Uop>, d: Dispatcher)
    requires DispatchWake(cycle, held, code, d)
    ensures DispatchWake(cycle, held, code, DispatchBypass(x, cycle, d))
  {
    var r := DispatchBypass(x, cycle, d);
    assert Settled(cycle, d.dyn, r.dyn);
    assert SameCaptures(d.dyn, r.dyn);
    BitsSettle(cycle, code, d.q.iq, d.dyn, r.dyn);
    CapturesFrame(held, d.q, code, d.dyn, r.dyn);
    TablesSettle(cycle, code, d.q, d.dyn, r.dyn);
  }

  lemma ToIqWake(x: nat, cycle: nat, held: iset<nat>, code: seq<Uop>, d: Dispatcher)
    requires WellFormedCode(code) && DispatchWake(cycle, held, code, d) && TagsOk(d.q, d.dyn)
    requires x < |d.dyn| && x in held && QueueN(d.q.iq, x) == 0
    ensures DispatchWake(cycle, held, code, DispatchToIq(x, cycle, code, d))
  {
    var p := RoutePhysIq(UopAt(code, x), d.q.iq, d.ports);
    if p.Some? {
      var qtag := AllocateQTag(d.q.iqTags, p.value);
      if qtag.Some? {
        EnqueueBits(x, p.value, qtag.value, cycle, held, code, d);
        EnqueueCaptures(x, p.value, qtag.value, cycle, held, code, d);
      }
    }
  }

  lemma SnapshotWake(x: nat, cycle: nat, input: Input, held: iset<nat>, code: seq<Uop>, d: Dispatcher)
    requires DispatchWake(cycle, held, code, d)
    ensures DispatchWake(cycle, held, code, d.(q := Snapshot(x, input, code, d.q)))
  {
    var r := Snapshot(x, input, code, d.q);
    CapturesShrink(held, d.q, held, r, code, d.dyn);
  }

  lemma {:induction false} DispatchLoopWake(pending: seq<nat>, cycle: nat, input: Input, held: iset<nat>,
                                            code: seq<Uop>, d: Dispatcher)
    requires WellFormedCode(code) && DispatchWake(cycle, held, code, d) && DispatchTags(pending, d)
    requires forall x :: x in pending ==> x in held && x < |d.dyn|
    ensures DispatchWake(cycle, held, code, DispatchLoop(pending, cycle, input, code, d))
    decreases |pending|
  {
    if pending != [] {
      var x := pending[0];
      assert x in pending;
      var d' := d.(q := Snapshot(x, input, code, d.q));
      SnapshotWake(x, cycle, input, held, code, d);
      SnapshotTags(x, input, code, d.q, d.dyn);
      assert N(pending, x) + QueueN(d.q.iq, x) <= 1;
      if UopAt(code, x).bypass { BypassWake(x, cycle, held, code, d'); } else { ToIqWake(x, cycle, held, code, d'); }
      DispatchOneTags(pending, cycle, input, code, d);
      forall y | y in pending[1..] ensures y in held && y < |d.dyn| { assert y in pending; }
      DispatchLoopWake(pending[1..], cycle, input, held, code, DispatchOne(x, cycle, input, code, d));
    }
  }
}
