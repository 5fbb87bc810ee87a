/** Issue queues: routing, QTag allocation, source annotation, the wake-up network with its owner
    table and wait crossbar, and the cached readiness bits. */
module Queues {
  import opened Wrappers
  import opened Seqs
  import opened Model

  function IssueQueueCandidates(u: Uop): seq<PhysIq> {
    match u.group
    case Alu => [AluIq0, SharedIq1]
    case Bru => [BruIq]
    case Lda => [AguIq0, AguIq1]
    case Sta => [StdIq0, StdIq1]
    case Cmd => [CmdIq]
    case Bbd => [CmdIq]
    case _ => [SharedIq1]
  }

  function Occupancy(iq: seq<IqEntry>, p: PhysIq): nat {
    if iq == [] then 0 else (if iq[0].physIq == p then 1 else 0) + Occupancy(iq[1..], p)
  }

  /** Enqueue ports used so far in the cycle, absent meaning none. */
  function PortsUsed(ports: map<PhysIq, nat>, p: PhysIq): nat { if p in ports then ports[p] else 0 }

  function RoutePhysIq(u: Uop, iq: seq<IqEntry>, ports: map<PhysIq, nat>): (r: Option<PhysIq>)
    ensures r.Some? ==> PortsUsed(ports, r.value) < IQ_ENQUEUE_PORTS && Occupancy(iq, r.value) < IQ_CAPACITY
  {
    var candidates := IssueQueueCandidates(u);
    var i := Position(candidates, p => PortsUsed(ports, p) < IQ_ENQUEUE_PORTS && Occupancy(iq, p) < IQ_CAPACITY);
    if i.None? then None else Some(candidates[i.value])
  }

  /** First entry id of `p`, from `id` upwards, that no live tag uses. */
  function FreeEntry(iqTags: map<nat, QTag>, p: PhysIq, id: nat): (r: Option<QTag>)
    requires id <= IQ_CAPACITY
    ensures r.Some? ==> r.value.physIq == p && r.value !in iqTags.Values
    ensures r.None? ==> forall k: EntryId :: id <= k ==> QTag(p, k) in iqTags.Values
    decreases IQ_CAPACITY - id
  {
    if id == IQ_CAPACITY then None
    else if QTag(p, id) in iqTags.Values then FreeEntry(iqTags, p, id + 1)
    else Some(QTag(p, id))
  }

  function AllocateQTag(iqTags: map<nat, QTag>, p: PhysIq): (r: Option<QTag>)
    ensures r.Some? ==> r.value.physIq == p && r.value !in iqTags.Values
    ensures r.None? ==> forall k: EntryId :: QTag(p, k) in iqTags.Values
  {
    FreeEntry(iqTags, p, 0)
  }

  /** The QTag that source `idx` of `x` captures at dispatch. */
  function CapturedQTag(x: nat, idx: nat, iqTags: map<nat, QTag>, ready: ReadyTables, code: seq<Uop>,
                        dyn: seq<Dyn>): Option<QTag> {
    var source := UopAt(code, x).src.At(idx);
    if source.queueKind.None? || source.logicalTag.None? || ready.Has(source.logicalTag.value)
      || source.dep.None? then None
    else
      var producer := source.dep.value;
      if UopAt(code, producer).dstKind != source.queueKind
        || UopAt(code, producer).dstTag != source.logicalTag then None
      else if DynAt(dyn, producer).dstQtag.Some? then DynAt(dyn, producer).dstQtag
      else if producer in iqTags then Some(iqTags[producer])
      else None
  }

  function AnnotateQTagSources(x: nat, iqTags: map<nat, QTag>, ready: ReadyTables, code: seq<Uop>,
                               dyn: seq<Dyn>): (r: seq<Dyn>)
    ensures |r| == |dyn|
  {
    DynPut(dyn, x, DynAt(dyn, x).(srcQtags := Two(CapturedQTag(x, 0, iqTags, ready, code, dyn),
                                                  CapturedQTag(x, 1, iqTags, ready, code, dyn))))
  }

  predicate UsesQTagWakeup(x: nat, idx: nat, code: seq<Uop>, dyn: seq<Dyn>) {
    var source := UopAt(code, x).src.At(idx);
    && source.queueKind.Some? && source.dep.Some?
    && DynAt(dyn, x).srcQtags.At(idx).Some?
    && UopAt(code, source.dep.value).dstKind == source.queueKind
    && UopAt(code, source.dep.value).dstTag == source.logicalTag
  }

  predicate LogicalReady(x: nat, idx: nat, ready: ReadyTables, code: seq<Uop>) {
    var tag := UopAt(code, x).src.At(idx).logicalTag;
    tag.Some? && ready.Has(tag.value)
  }

  /** Readiness of one source when its entry is made. */
  function SeedSource(cycle: nat, x: nat, idx: nat, ready: ReadyTables, code: seq<Uop>, dyn: seq<Dyn>): SrcState {
    var source := UopAt(code, x).src.At(idx);
    var idle := SrcState(source.valid, false, false, false);
    if source.dep.None? then idle.(nonspec := true)
    else
      var d := DynAt(dyn, source.dep.value);
      if LogicalReady(x, idx, ready, code) || AtOrBefore(d.dataVisible, cycle) then idle.(nonspec := true)
      else if AtOrBefore(d.pickVisible, cycle) then idle.(spec := true)
      else idle.(waitQtag := UsesQTagWakeup(x, idx, code, dyn))
  }

  function MakeIqEntry(cycle: nat, x: nat, p: PhysIq, ready: ReadyTables, code: seq<Uop>, dyn: seq<Dyn>): IqEntry {
    IqEntry(x, p, false, Two(SeedSource(cycle, x, 0, ready, code, dyn), SeedSource(cycle, x, 1, ready, code, dyn)))
  }

  function RevokeSource(cycle: nat, x: nat, idx: nat, b: SrcState, ready: ReadyTables, code: seq<Uop>,
                        dyn: seq<Dyn>): SrcState {
    var source := UopAt(code, x).src.At(idx);
    if source.dep.None? then b.(nonspec := true, spec := false, waitQtag := false)
    else
      var d := DynAt(dyn, source.dep.value);
      var nonspec := b.nonspec && (LogicalReady(x, idx, ready, code) || AtOrBefore(d.dataVisible, cycle));
      var spec := b.spec && AtOrBefore(d.pickVisible, cycle);
      b.(nonspec := nonspec, spec := spec,
         waitQtag := if nonspec || spec then b.waitQtag else UsesQTagWakeup(x, idx, code, dyn))
  }

  function ReadyTableSource(x: nat, idx: nat, b: SrcState, ready: ReadyTables, code: seq<Uop>): SrcState {
    if !b.nonspec && LogicalReady(x, idx, ready, code) then b.(nonspec := true, spec := false, waitQtag := false) else b
  }

  function UpdateSource(cycle: nat, x: nat, idx: nat, b: SrcState, ready: ReadyTables, code: seq<Uop>,
                        dyn: seq<Dyn>): SrcState {
    if !b.valid then b
    else ReadyTableSource(x, idx, RevokeSource(cycle, x, idx, b, ready, code, dyn), ready, code)
  }

  function UpdateEntry(cycle: nat, e: IqEntry, ready: ReadyTables, code: seq<Uop>, dyn: seq<Dyn>): IqEntry {
    e.(src := Two(UpdateSource(cycle, e.seqNo, 0, e.src.fst, ready, code, dyn),
                  UpdateSource(cycle, e.seqNo, 1, e.src.snd, ready, code, dyn)))
  }

  datatype WakeKind = Spec | Nonspec

  datatype WakeEvent = WakeEvent(
    producer: nat, kind: WakeKind, queueKind: Option<QueueKind>, logicalTag: Option<LogicalTag>, qtag: Option<QTag>)

  function Before(cycle: nat): nat { if cycle == 0 then 0 else cycle - 1 }

  predicate PublishesNonspec(cycle: nat, u: Uop, d: Dyn) {
    || (if u.isLoad then d.e4 == Some(Before(cycle)) else d.w1 == Some(Before(cycle)))
    || d.dataVisible == Some(cycle)
  }

  predicate PublishesSpec(cycle: nat, u: Uop, d: Dyn) {
    u.isLoad && (d.e1 == Some(Before(cycle)) || d.pickVisible == Some(cycle))
  }

  function WakeEventOf(cycle: nat, producer: nat, code: seq<Uop>, dyn: seq<Dyn>): Option<WakeEvent> {
    var u, d := UopAt(code, producer), DynAt(dyn, producer);
    if PublishesNonspec(cycle, u, d) then Some(WakeEvent(producer, Nonspec, u.dstKind, u.dstTag, d.dstQtag))
    else if PublishesSpec(cycle, u, d) then Some(WakeEvent(producer, Spec, u.dstKind, u.dstTag, d.dstQtag))
    else None
  }

  predicate MatchesWakeEvent(x: nat, idx: nat, event: WakeEvent, code: seq<Uop>, dyn: seq<Dyn>) {
    var source := UopAt(code, x).src.At(idx);
    && source.valid && source.dep == Some(event.producer)
    && (source.queueKind.Some? ==>
          && source.queueKind == event.queueKind
          && source.logicalTag == event.logicalTag
          && DynAt(dyn, x).srcQtags.At(idx).Some?
          && DynAt(dyn, x).srcQtags.At(idx) == event.qtag)
  }

  function PublishSource(x: nat, idx: nat, b: SrcState, event: WakeEvent, code: seq<Uop>, dyn: seq<Dyn>): SrcState {
    if !MatchesWakeEvent(x, idx, event, code, dyn) then b
    else match event.kind
      case Nonspec => b.(nonspec := true, spec := false, waitQtag := false)
      case Spec => if b.nonspec then b else b.(spec := true, waitQtag := false)
  }

  function PublishEntrySource(e: IqEntry, idx: nat, event: WakeEvent, code: seq<Uop>, dyn: seq<Dyn>): IqEntry {
    e.(src := e.src.Put(idx, PublishSource(e.seqNo, idx, e.src.At(idx), event, code, dyn)))
  }

  function PublishEntry(e: IqEntry, event: WakeEvent, code: seq<Uop>, dyn: seq<Dyn>): IqEntry {
    PublishEntrySource(PublishEntrySource(e, 0, event, code, dyn), 1, event, code, dyn)
  }

  function PublishNonqueueSource(e: IqEntry, idx: nat, event: WakeEvent, code: seq<Uop>, dyn: seq<Dyn>): IqEntry {
    if UopAt(code, e.seqNo).src.At(idx).queueKind.None? then PublishEntrySource(e, idx, event, code, dyn) else e
  }

  function PublishNonqueueEntry(e: IqEntry, event: WakeEvent, code: seq<Uop>, dyn: seq<Dyn>): IqEntry {
    PublishNonqueueSource(PublishNonqueueSource(e, 0, event, code, dyn), 1, event, code, dyn)
  }

  /** `iq_owner_entry_mut`: the position of `x` in the IQ as the owner table has it. */
  function OwnerIndex(x: nat, iq: seq<IqEntry>, owner: map<QTag, nat>, iqTags: map<nat, QTag>): (r: Option<nat>)
    ensures r.Some? ==> r.value < |iq| && iq[r.value].seqNo == x
  {
    if x in iqTags && iqTags[x] in owner && owner[iqTags[x]] < |iq| && iq[owner[iqTags[x]]].seqNo == x
    then Some(owner[iqTags[x]]) else None
  }

  /** `a` and `b` are the same entry up to the state of its sources. */
  predicate OnlySources(a: IqEntry, b: IqEntry) { a == b.(src := a.src) }

  /** Deliver `event` to one crossbar waiter. */
  function WakeWaiter(w: (nat, nat), event: WakeEvent, iq: seq<IqEntry>, owner: map<QTag, nat>, iqTags: map<nat, QTag>,
                      code: seq<Uop>, dyn: seq<Dyn>): (r: seq<IqEntry>)
    ensures |r| == |iq| && forall i :: 0 <= i < |iq| ==> OnlySources(r[i], iq[i])
  {
    var i := OwnerIndex(w.0, iq, owner, iqTags);
    if i.None? then iq else iq[i.value := PublishEntrySource(iq[i.value], w.1, event, code, dyn)]
  }

  function WakeWaiters(ws: seq<(nat, nat)>, event: WakeEvent, iq: seq<IqEntry>, owner: map<QTag, nat>,
                       iqTags: map<nat, QTag>,
                       code: seq<Uop>, dyn: seq<Dyn>): (r: seq<IqEntry>)
    ensures |r| == |iq| && forall i :: 0 <= i < |iq| ==> OnlySources(r[i], iq[i])
  {
    if ws == [] then iq
    else WakeWaiters(ws[1..], event, WakeWaiter(ws[0], event, iq, owner, iqTags, code, dyn), owner, iqTags, code, dyn)
  }

  function PublishAllNonqueue(iq: seq<IqEntry>, event: WakeEvent, code: seq<Uop>, dyn: seq<Dyn>): (r: seq<IqEntry>)
    ensures |r| == |iq| && forall i :: 0 <= i < |iq| ==> r[i] == PublishNonqueueEntry(iq[i], event, code, dyn)
  {
    seq(|iq|, i requires 0 <= i < |iq| => PublishNonqueueEntry(iq[i], event, code, dyn))
  }

  /** The simple definition of a wake-up: every entry and every source looks at the event. */
  function Broadcast(iq: seq<IqEntry>, event: WakeEvent, code: seq<Uop>, dyn: seq<Dyn>): (r: seq<IqEntry>)
    ensures |r| == |iq| && forall i :: 0 <= i < |iq| ==> r[i] == PublishEntry(iq[i], event, code, dyn)
  {
    seq(|iq|, i requires 0 <= i < |iq| => PublishEntry(iq[i], event, code, dyn))
  }

  function PublishWakeEvent(event: WakeEvent, iq: seq<IqEntry>, owner: map<QTag, nat>, iqTags: map<nat, QTag>,
                            crossbar: map<QTag, seq<(nat, nat)>>, code: seq<Uop>, dyn: seq<Dyn>): (r: seq<IqEntry>)
    ensures |r| == |iq| && forall i :: 0 <= i < |iq| ==> OnlySources(r[i], iq[i])
  {
    if event.queueKind.Some? && event.logicalTag.Some? && event.qtag.Some? then
      PublishAllNonqueue(WakeWaiters(Waiters(crossbar, event.qtag.value), event, iq, owner, iqTags, code, dyn), event,
          code, dyn)
    else
      Broadcast(iq, event, code, dyn)
  }

  /** Events of producers `from`, `from + 1`, ... delivered in that order. */
  function PublishFrom(cycle: nat, from: nat, iq: seq<IqEntry>, q: Queue, code: seq<Uop>,
                       dyn: seq<Dyn>): (r: seq<IqEntry>)
    ensures |r| == |iq| && forall i :: 0 <= i < |iq| ==> OnlySources(r[i], iq[i])
    decreases |code| - from
  {
    if from >= |code| then iq
    else
      var event := WakeEventOf(cycle, from, code, dyn);
      var iq' := if event.None? then iq
          else PublishWakeEvent(event.value, iq, q.owner, q.iqTags, q.crossbar, code, dyn);
      PublishFrom(cycle, from + 1, iq', q, code, dyn)
  }

  function UpdateEntries(cycle: nat, iq: seq<IqEntry>, ready: ReadyTables, code: seq<Uop>,
                         dyn: seq<Dyn>): (r: seq<IqEntry>)
    ensures |r| == |iq| && forall i :: 0 <= i < |iq| ==> r[i] == UpdateEntry(cycle, iq[i], ready, code, dyn)
  {
    seq(|iq|, i requires 0 <= i < |iq| => UpdateEntry(cycle, iq[i], ready, code, dyn))
  }

  function UpdateQueue(cycle: nat, code: seq<Uop>, dyn: seq<Dyn>, q: Queue): Queue {
    q.(iq := PublishFrom(cycle, 0, UpdateEntries(cycle, q.iq, q.ready, code, dyn), q, code, dyn))
  }

  function UpdateIq(cycle: nat, code: seq<Uop>, s: State): State { s.(q := UpdateQueue(cycle, code, s.dyn, s.q)) }

  /** `rebuild_iq_owner_table` for the entries from position `i` on. */
  function RebuildFrom(i: nat, owner: map<QTag, nat>, iq: seq<IqEntry>, iqTags: map<nat, QTag>): map<QTag, nat>
    decreases |iq| - i
  {
    if i >= |iq| then owner
    else RebuildFrom(i + 1, if iq[i].seqNo in iqTags then owner[iqTags[iq[i].seqNo] := i] else owner, iq, iqTags)
  }

  function RebuildOwner(iq: seq<IqEntry>, iqTags: map<nat, QTag>): map<QTag, nat> {
    RebuildFrom(0, map[], iq, iqTags)
  }

  function RegisterSource(crossbar: map<QTag, seq<(nat, nat)>>, x: nat, idx: nat,
                          qtag: Option<QTag>): map<QTag, seq<(nat, nat)>> {
    if qtag.None? || (x, idx) in Waiters(crossbar, qtag.value) then crossbar
    else crossbar[qtag.value := Waiters(crossbar, qtag.value) + [(x, idx)]]
  }

  function RegisterWaiter(crossbar: map<QTag, seq<(nat, nat)>>, x: nat, d: Dyn): map<QTag, seq<(nat, nat)>> {
    RegisterSource(RegisterSource(crossbar, x, 0, d.srcQtags.fst), x, 1, d.srcQtags.snd)
  }

  function RetainWaiters(crossbar: map<QTag, seq<(nat, nat)>>, keep: nat -> bool): (r: map<QTag, seq<(nat, nat)>>)
    ensures r.Keys == crossbar.Keys
  {
    map q | q in crossbar :: Retain(crossbar[q], (w: (nat, nat)) => keep(w.0))
  }

  function RetainTags(iqTags: map<nat, QTag>, keep: nat -> bool): (r: map<nat, QTag>)
    ensures forall x :: x in r <==> x in iqTags && keep(x)
    ensures forall x :: x in r ==> r[x] == iqTags[x]
  {
    map x | x in iqTags && keep(x) :: iqTags[x]
  }
}
