/** Every step of a cycle keeps the tag, owner-table and crossbar invariants. */
module TagSteps {
  import opened Wrappers
  import opened Seqs
  import opened Model
  import opened Queues
  import opened Select
  import opened Frontend
  import opened Recovery
  import opened Residency
  import opened Alive
  import opened Tags

  // -- Removing entries ---------------------------------------------------------------------------

  lemma RetainWaitersMember(crossbar: map<QTag, seq<(nat, nat)>>, keep: nat -> bool, t: QTag, x: nat, i: nat)
    ensures (x, i) in Waiters(RetainWaiters(crossbar, keep), t) <==> (x, i) in Waiters(crossbar, t) && keep(x)
  {
    if t in crossbar { RetainMember(crossbar[t], (w: (nat, nat)) => keep(w.0), (x, i)); }
  }

  lemma RetainCrossbar(crossbar: map<QTag, seq<(nat, nat)>>, iqTags: map<nat, QTag>, dyn: seq<Dyn>, keep: nat -> bool)
    requires CrossbarExact(crossbar, iqTags, dyn)
    ensures CrossbarExact(RetainWaiters(crossbar, keep), RetainTags(iqTags, keep), dyn)
  {
    var r, tags := RetainWaiters(crossbar, keep), RetainTags(iqTags, keep);
    forall t: QTag, x: nat, i: nat
      ensures (x, i) in Waiters(r, t) <==> WaitsFor(x, i, t, tags, dyn)
    {
      RetainWaitersMember(crossbar, keep, t, x, i);
      assert (x, i) in Waiters(crossbar, t) <==> WaitsFor(x, i, t, iqTags, dyn);
    }
  }

  lemma RetainQueueOk(q: Queue, dyn: seq<Dyn>, keep: nat -> bool, keepEntry: IqEntry -> bool, iq: seq<IqEntry>)
    requires TagsOk(q, dyn) && iq == Retain(q.iq, keepEntry)
    requires forall e :: keepEntry(e) == keep(e.seqNo)
    ensures var r := q.(iq := iq, iqTags := RetainTags(q.iqTags, keep), crossbar := RetainWaiters(q.crossbar, keep));
      TagsOk(r, dyn) && OwnerExact(r.iq, r.iqTags, RebuildOwner(r.iq, r.iqTags))
  {
    var tags := RetainTags(q.iqTags, keep);
    forall x ensures QueueN(iq, x) == if keep(x) then QueueN(q.iq, x) else 0 {
      RetainEntries(q.iq, keep, keepEntry, x);
    }
    forall x ensures QueueN(iq, x) <= 1 { assert QueueN(q.iq, x) <= 1; }
    forall i | 0 <= i < |iq| ensures iq[i].seqNo in tags && tags[iq[i].seqNo].physIq == iq[i].physIq {
      assert iq[i] in iq;
      RetainMember(q.iq, keepEntry, iq[i]);
      var j :| 0 <= j < |q.iq| && q.iq[j] == iq[i];
    }
    RetainCrossbar(q.crossbar, q.iqTags, dyn, keep);
    assert TagsMatch(iq, tags);
    RebuildExact(iq, tags);
  }

  lemma PruneTags(f: nat, q: Queue, dyn: seq<Dyn>)
    requires TagsOk(q, dyn)
    ensures var r := PruneQueue(f, q); TagsOk(r, dyn) && OwnerExact(r.iq, r.iqTags, r.owner)
  {
    RetainQueueOk(q, dyn, x => x <= f, (e: IqEntry) => e.seqNo <= f, Retain(q.iq, (e: IqEntry) => e.seqNo <= f));
  }

  lemma DequeueTags(moved: seq<nat>, q: Queue, dyn: seq<Dyn>)
    requires TagsOk(q, dyn)
    ensures var r := Dequeue(moved, q); TagsOk(r, dyn) && OwnerExact(r.iq, r.iqTags, r.owner)
  {
    RetainQueueOk(q, dyn, x => x !in moved, (e: IqEntry) => e.seqNo !in moved,
        Retain(q.iq, (e: IqEntry) => e.seqNo !in moved));
  }

  // -- Frames -------------------------------------------------------------------------------------

  /** The uops captured the same source tags. */
  ghost predicate SameCaptures(a: seq<Dyn>, b: seq<Dyn>) {
    forall x: nat :: DynAt(a, x).srcQtags == DynAt(b, x).srcQtags && DynAt(a, x).dstQtag == DynAt(b, x).dstQtag
  }

  lemma CaptureFrame(q: Queue, a: seq<Dyn>, b: seq<Dyn>)
    requires TagsOk(q, a) && SameCaptures(a, b)
    ensures TagsOk(q, b)
  {
    forall t: QTag, x: nat, i: nat
      ensures (x, i) in Waiters(q.crossbar, t) <==> WaitsFor(x, i, t, q.iqTags, b)
    {
      assert (x, i) in Waiters(q.crossbar, t) <==> WaitsFor(x, i, t, q.iqTags, a);
    }
  }

  /** Entries change only their marks and source states. */
  lemma EntryFrame(q: Queue, dyn: seq<Dyn>, iq: seq<IqEntry>)
    requires TagsOk(q, dyn)
    requires |iq| == |q.iq| && forall i ::
      0 <= i < |iq| ==> iq[i].seqNo == q.iq[i].seqNo && iq[i].physIq == q.iq[i].physIq
    ensures TagsOk(q.(iq := iq), dyn)
    ensures OwnerExact(q.iq, q.iqTags, q.owner) ==> OwnerExact(iq, q.iqTags, q.owner)
  {
    SameSeqNosKeep(q.iq, iq, q.iqTags, q.owner);
  }

  // -- Adding an entry ----------------------------------------------------------------------------

  lemma RegisterSourceMember(crossbar: map<QTag, seq<(nat, nat)>>, x: nat, idx: nat, qtag: Option<QTag>, t: QTag,
                             y: nat, i: nat)
    ensures (y, i) in Waiters(RegisterSource(crossbar, x, idx, qtag), t)
       <==> (y, i) in Waiters(crossbar, t) || (y == x && i == idx && qtag == Some(t))
  {
  }

  lemma RegisterCrossbar(crossbar: map<QTag, seq<(nat, nat)>>, iqTags: map<nat, QTag>, a: seq<Dyn>, x: nat, qtag: QTag,
                         b: seq<Dyn>)
    requires CrossbarExact(crossbar, iqTags, a) && x !in iqTags
    requires forall y: nat :: y != x ==> DynAt(a, y).srcQtags == DynAt(b, y).srcQtags
    ensures CrossbarExact(RegisterWaiter(crossbar, x, DynAt(b, x)), iqTags[x := qtag], b)
  {
    var d := DynAt(b, x);
    var c := RegisterSource(crossbar, x, 0, d.srcQtags.fst);
    var r := RegisterWaiter(crossbar, x, d);
    forall t: QTag, y: nat, i: nat
      ensures (y, i) in Waiters(r, t) <==> WaitsFor(y, i, t, iqTags[x := qtag], b)
    {
      RegisterSourceMember(crossbar, x, 0, d.srcQtags.fst, t, y, i);
      RegisterSourceMember(c, x, 1, d.srcQtags.snd, t, y, i);
      assert (y, i) in Waiters(crossbar, t) <==> WaitsFor(y, i, t, iqTags, a);
    }
  }

  lemma AppendTags(iq: seq<IqEntry>, iqTags: map<nat, QTag>, e: IqEntry, qtag: QTag)
    requires UniqueEntries(iq) && TagsInjective(iqTags) && TagsMatch(iq, iqTags)
    requires QueueN(iq, e.seqNo) == 0 && qtag !in iqTags.Values && qtag.physIq == e.physIq
    ensures UniqueEntries(iq + [e]) && TagsInjective(iqTags[e.seqNo := qtag])
      && TagsMatch(iq + [e], iqTags[e.seqNo := qtag])
    ensures e.seqNo !in iqTags
  {
    var r, tags := iq + [e], iqTags[e.seqNo := qtag];
    assert SeqNos(r) == SeqNos(iq) + [e.seqNo];
    forall x ensures QueueN(r, x) == QueueN(iq, x) + (if x == e.seqNo then 1 else 0) {
      CountSnoc(SeqNos(iq), e.seqNo, x);
    }
    forall x ensures QueueN(r, x) <= 1 { assert QueueN(iq, x) <= 1; }
    forall x | x in iqTags ensures iqTags[x] != qtag { assert iqTags[x] in iqTags.Values; }
    forall i | 0 <= i < |iq| ensures iq[i].seqNo != e.seqNo {
      FindEntryCount(iq, e.seqNo);
    }
    forall x | x in tags ensures QueueN(r, x) > 0 {
      if x != e.seqNo { assert QueueN(iq, x) > 0; }
    }
  }

  lemma EnqueueTags(x: nat, p: PhysIq, qtag: QTag, cycle: nat, code: seq<Uop>, d: Dispatcher)
    requires TagsOk(d.q, d.dyn) && QueueN(d.q.iq, x) == 0 && qtag !in d.q.iqTags.Values && qtag.physIq == p
    ensures var r := Enqueue(x, p, qtag, cycle, code, d); TagsOk(r.q, r.dyn)
  {
    var r := Enqueue(x, p, qtag, cycle, code, d);
    var e := MakeIqEntry(cycle, x, p, d.q.ready, code, r.dyn);
    AppendTags(d.q.iq, d.q.iqTags, e, qtag);
    RegisterCrossbar(d.q.crossbar, d.q.iqTags, d.dyn, x, qtag, r.dyn);
  }

  /** Dispatch state: what is still to dispatch is not in the queue yet. */
  ghost predicate DispatchTags(pending: seq<nat>, d: Dispatcher) {
    TagsOk(d.q, d.dyn) && forall y: nat :: N(pending, y) + QueueN(d.q.iq, y) <= 1
  }

  lemma SnapshotTags(x: nat, input: Input, code: seq<Uop>, q: Queue, dyn: seq<Dyn>)
    requires TagsOk(q, dyn)
    ensures var r := Snapshot(x, input, code, q); TagsOk(r, dyn) && r == q.(checkpoints := r.checkpoints)
  {
  }

  lemma BypassTags(x: nat, cycle: nat, d: Dispatcher)
    requires TagsOk(d.q, d.dyn)
    ensures TagsOk(DispatchBypass(x, cycle, d).q, DispatchBypass(x, cycle, d).dyn)
  {
    CaptureFrame(d.q, d.dyn, DispatchBypass(x, cycle, d).dyn);
  }

  lemma ToIqTags(x: nat, cycle: nat, code: seq<Uop>, d: Dispatcher)
    requires TagsOk(d.q, d.dyn) && QueueN(d.q.iq, x) == 0
    ensures TagsOk(DispatchToIq(x, cycle, code, d).q, DispatchToIq(x, cycle, code, d).dyn)
  {
    var p := RoutePhysIq(UopAt(code, x), d.q.iq, d.ports);
    if p.Some? {
      var qtag := AllocateQTag(d.q.iqTags, p.value);
      if qtag.Some? { EnqueueTags(x, p.value, qtag.value, cycle, code, d); }
    }
  }

  lemma DispatchOneTags(pending: seq<nat>, cycle: nat, input: Input, code: seq<Uop>, d: Dispatcher)
    requires pending != [] && DispatchTags(pending, d)
    ensures DispatchTags(pending[1..], DispatchOne(pending[0], cycle, input, code, d))
  {
    var x := pending[0];
    var d' := d.(q := Snapshot(x, input, code, d.q));
    SnapshotTags(x, input, code, d.q, d.dyn);
    assert N(pending, x) + QueueN(d.q.iq, x) <= 1;
    if UopAt(code, x).bypass { BypassTags(x, cycle, d'); } else { ToIqTags(x, cycle, code, d'); }
    var r := DispatchOne(x, cycle, input, code, d);
    forall y: nat ensures N(pending[1..], y) + QueueN(r.q.iq, y) <= 1 {
      assert N(pending, y) + QueueN(d.q.iq, y) <= 1;
      if r.q.iq != d.q.iq {
        assert SeqNos(r.q.iq) == SeqNos(d.q.iq) + [x];
        CountSnoc(SeqNos(d.q.iq), x, y);
      }
    }
  }

  lemma {:induction false} DispatchLoopTags(pending: seq<nat>, cycle: nat, input: Input, code: seq<Uop>, d: Dispatcher)
    requires DispatchTags(pending, d)
    ensures DispatchTags([], DispatchLoop(pending, cycle, input, code, d))
    decreases |pending|
  {
    if pending != [] {
      DispatchOneTags(pending, cycle, input, code, d);
      DispatchLoopTags(pending[1..], cycle, input, code, DispatchOne(pending[0], cycle, input, code, d));
    }
  }

  lemma DispatchKeepsTags(cycle: nat, input: Input, code: seq<Uop>, s: State)
    requires AliveState(code, s) && TagsOk(s.q, s.dyn)
    ensures var r := Dispatch(cycle, input, code, s); TagsOk(r.q, r.dyn) && OwnerExact(r.q.iq, r.q.iqTags, r.q.owner)
  {
    var d := Dispatcher([], s.ex.w2, s.q, s.dyn, map[]);
    forall y: nat ensures N(s.fe.front[10], y) + QueueN(s.q.iq, y) <= 1 {
      assert Copies(s, y) <= 1;
      assert FrontN(s.fe.front, y) == StageCount(s.fe.front, 10, y) + N(s.fe.front[10], y);
    }
    DispatchLoopTags(s.fe.front[10], cycle, input, code, d);
    var r := DispatchLoop(s.fe.front[10], cycle, input, code, d);
    RebuildExact(r.q.iq, r.q.iqTags);
  }

  // -- Enqueue ports ------------------------------------------------------------------------------

  lemma {:induction false} OccupancyAppend(iq: seq<IqEntry>, e: IqEntry, p: PhysIq)
    ensures Occupancy(iq + [e], p) == Occupancy(iq, p) + (if e.physIq == p then 1 else 0)
  {
    if iq == [] {
      assert iq + [e] == [e];
    } else {
      OccupancyAppend(iq[1..], e, p);
      assert (iq + [e])[1..] == iq[1..] + [e];
    }
  }

  lemma EnqueuePorts(x: nat, to: PhysIq, qtag: QTag, cycle: nat, code: seq<Uop>, d: Dispatcher, p: PhysIq)
    ensures var r := Enqueue(x, to, qtag, cycle, code, d);
      && PortsUsed(r.ports, p) == PortsUsed(d.ports, p) + (if p == to then 1 else 0)
      && Occupancy(r.q.iq, p) == Occupancy(d.q.iq, p) + (if p == to then 1 else 0)
  {
    var r := Enqueue(x, to, qtag, cycle, code, d);
    OccupancyAppend(d.q.iq, MakeIqEntry(cycle, x, to, d.q.ready, code, r.dyn), p);
  }

  lemma ToIqPorts(x: nat, cycle: nat, code: seq<Uop>, d: Dispatcher, p: PhysIq)
    requires PortsUsed(d.ports, p) <= IQ_ENQUEUE_PORTS
    ensures var r := DispatchToIq(x, cycle, code, d);
      && PortsUsed(r.ports, p) <= IQ_ENQUEUE_PORTS
      && Occupancy(r.q.iq, p) == Occupancy(d.q.iq, p) + PortsUsed(r.ports, p) - PortsUsed(d.ports, p)
  {
    var to := RoutePhysIq(UopAt(code, x), d.q.iq, d.ports);
    if to.Some? {
      var qtag := AllocateQTag(d.q.iqTags, to.value);
      if qtag.Some? { EnqueuePorts(x, to.value, qtag.value, cycle, code, d, p); }
    }
  }

  lemma DispatchOnePorts(x: nat, cycle: nat, input: Input, code: seq<Uop>, d: Dispatcher, p: PhysIq)
    requires PortsUsed(d.ports, p) <= IQ_ENQUEUE_PORTS
    ensures var r := DispatchOne(x, cycle, input, code, d);
      && PortsUsed(r.ports, p) <= IQ_ENQUEUE_PORTS
      && Occupancy(r.q.iq, p) == Occupancy(d.q.iq, p) + PortsUsed(r.ports, p) - PortsUsed(d.ports, p)
  {
    var d' := d.(q := Snapshot(x, input, code, d.q));
    if !UopAt(code, x).bypass { ToIqPorts(x, cycle, code, d', p); }
  }

  /** Within one cycle a physical queue grows by the ports it used, never more than two. */
  lemma {:induction false} DispatchPorts(pending: seq<nat>, cycle: nat, input: Input, code: seq<Uop>, d: Dispatcher,
                                         p: PhysIq)
    requires PortsUsed(d.ports, p) <= IQ_ENQUEUE_PORTS
    ensures var r := DispatchLoop(pending, cycle, input, code, d);
      && PortsUsed(r.ports, p) <= IQ_ENQUEUE_PORTS
      && Occupancy(r.q.iq, p) == Occupancy(d.q.iq, p) + PortsUsed(r.ports, p) - PortsUsed(d.ports, p)
  {
    if pending != [] {
      DispatchOnePorts(pending[0], cycle, input, code, d, p);
      DispatchPorts(pending[1..], cycle, input, code, DispatchOne(pending[0], cycle, input, code, d), p);
    }
  }

  /** Two enqueue ports per physical queue and cycle, whatever is waiting in S2. */
  lemma EnqueueLimit(cycle: nat, input: Input, code: seq<Uop>, s: State, p: PhysIq)
    ensures var r := Dispatch(cycle, input, code, s);
      Occupancy(s.q.iq, p) <= Occupancy(r.q.iq, p) <= Occupancy(s.q.iq, p) + IQ_ENQUEUE_PORTS
  {
    DispatchPorts(s.fe.front[10], cycle, input, code, Dispatcher([], s.ex.w2, s.q, s.dyn, map[]), p);
  }
}
