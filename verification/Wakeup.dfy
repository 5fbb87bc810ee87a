/** Cached readiness on every run: after each cycle's update the two readiness bits of a tracked
    source say exactly whether its producer's data, or pick wake-up, is visible. */
module Wakeup {
  import opened Wrappers
  import opened Model
  import opened Queues
  import opened Select
  import opened Lsu
  import opened Frontend
  import opened Commit
  import opened Alive
  import opened Tags
  import opened Timing
  import opened WellFormed

  /** A source whose producer's wake events reach it: an ordinary source, or a queue source whose
      captured QTag is the one its producer holds. */
  predicate Tracked(x: nat, idx: nat, code: seq<Uop>, dyn: seq<Dyn>) {
    var source := UopAt(code, x).src.At(idx);
    source.queueKind.Some? ==>
      UsesQTagWakeup(x, idx, code, dyn) && DynAt(dyn, x).srcQtags.At(idx) == DynAt(dyn, source.dep.value).dstQtag
  }

  /** The simple definition of readiness. */
  predicate DataReady(x: nat, idx: nat, cycle: nat, ready: ReadyTables, code: seq<Uop>, dyn: seq<Dyn>) {
    var dep := UopAt(code, x).src.At(idx).dep;
    dep.None? || LogicalReady(x, idx, ready, code) || AtOrBefore(DynAt(dyn, dep.value).dataVisible, cycle)
  }

  predicate PickReady(x: nat, idx: nat, cycle: nat, code: seq<Uop>, dyn: seq<Dyn>) {
    var dep := UopAt(code, x).src.At(idx).dep;
    dep.Some? && AtOrBefore(DynAt(dyn, dep.value).pickVisible, cycle)
  }

  predicate ExactBits(b: SrcState, x: nat, idx: nat, cycle: nat, ready: ReadyTables, code: seq<Uop>, dyn: seq<Dyn>) {
    b.valid && Tracked(x, idx, code, dyn) ==>
      && (b.nonspec <==> DataReady(x, idx, cycle, ready, code, dyn))
      && (b.spec <==> !b.nonspec && PickReady(x, idx, cycle, code, dyn))
  }

  /** Between cycles: exact as of the last cycle, except that a reset load may still be marked. */
  predicate SourceBits(b: SrcState, x: nat, idx: nat, cycle: nat, code: seq<Uop>, dyn: seq<Dyn>) {
    var source := UopAt(code, x).src.At(idx);
    && b.valid == source.valid && !(b.nonspec && b.spec)
    && (source.dep.None? ==> b.nonspec)
    && (b.valid && Tracked(x, idx, code, dyn) && source.dep.Some? ==>
          && (b.nonspec <==> Timing.Earlier(DynAt(dyn, source.dep.value).dataVisible, cycle))
          && (!b.nonspec && Timing.Earlier(DynAt(dyn, source.dep.value).pickVisible, cycle) ==> b.spec))
  }

  ghost predicate BitsOk(cycle: nat, code: seq<Uop>, iq: seq<IqEntry>, dyn: seq<Dyn>) {
    forall i, idx {:trigger iq[i].src.At(idx)} :: 0 <= i < |iq| && 0 <= idx < 2 ==>
      SourceBits(iq[i].src.At(idx), iq[i].seqNo, idx, cycle, code, dyn)
  }

  ghost predicate BitsExact(cycle: nat, ready: ReadyTables, code: seq<Uop>, iq: seq<IqEntry>, dyn: seq<Dyn>) {
    forall i, idx {:trigger iq[i].src.At(idx)} :: 0 <= i < |iq| && 0 <= idx < 2 ==>
      ExactBits(iq[i].src.At(idx), iq[i].seqNo, idx, cycle, ready, code, dyn)
  }

  // -- Ready tables -------------------------------------------------------------------------------

  /** Every tag in the table belongs to uops whose data was visible before this cycle. */
  ghost predicate ReadyOk(cycle: nat, code: seq<Uop>, ready: ReadyTables, dyn: seq<Dyn>) {
    forall p: nat :: UopAt(code, p).dstTag.Some? && ready.Has(UopAt(code, p).dstTag.value) ==>
      Timing.Earlier(DynAt(dyn, p).dataVisible, cycle)
  }

  ghost predicate TablesOk(cycle: nat, code: seq<Uop>, q: Queue, dyn: seq<Dyn>) {
    ReadyOk(cycle, code, q.ready, dyn) && forall k :: k in q.checkpoints ==> ReadyOk(cycle, code, q.checkpoints[k], dyn)
  }

  lemma LogicalImpliesData(cycle: nat, code: seq<Uop>, ready: ReadyTables, dyn: seq<Dyn>, x: nat, idx: nat)
    requires WellFormedCode(code) && ReadyOk(cycle, code, ready, dyn) && idx < 2 && LogicalReady(x, idx, ready, code)
    ensures var dep := UopAt(code, x).src.At(idx).dep;
      dep.Some? && Timing.Earlier(DynAt(dyn, dep.value).dataVisible, cycle)
  {
    assert x < |code|;
    assert UopAt(code, x).src.At(idx).logicalTag.Some?;
  }

  // -- One cycle's update -------------------------------------------------------------------------

  /** The event of its producer, if any, is the only one a source reacts to. */
  function AfterEvents(b: SrcState, x: nat, idx: nat, cycle: nat, code: seq<Uop>, dyn: seq<Dyn>): SrcState {
    var dep := UopAt(code, x).src.At(idx).dep;
    if dep.None? || dep.value >= |code| then b
    else
      var event := WakeEventOf(cycle, dep.value, code, dyn);
      if event.None? then b else PublishSource(x, idx, b, event.value, code, dyn)
  }

  lemma BroadcastAt(iq: seq<IqEntry>, event: WakeEvent, code: seq<Uop>, dyn: seq<Dyn>, i: nat, idx: nat)
    requires i < |iq| && idx < 2
    ensures Broadcast(iq, event, code, dyn)[i].src.At(idx)
        == PublishSource(iq[i].seqNo, idx, iq[i].src.At(idx), event, code, dyn)
  {
  }

  /** The wake-up pass by its simple definition: every event goes to every entry. */
  function BroadcastFrom(cycle: nat, from: nat, iq: seq<IqEntry>, code: seq<Uop>, dyn: seq<Dyn>): (r: seq<IqEntry>)
    ensures |r| == |iq|
    decreases |code| - from
  {
    if from >= |code| then iq
    else
      var event := WakeEventOf(cycle, from, code, dyn);
      BroadcastFrom(cycle, from + 1, if event.None? then iq else Broadcast(iq, event.value, code, dyn), code, dyn)
  }

  lemma DeliveryStep(event: WakeEvent, iq: seq<IqEntry>, q: Queue, code: seq<Uop>, dyn: seq<Dyn>)
    requires TagsOk(q.(iq := iq), dyn) && OwnerExact(iq, q.iqTags, q.owner)
    ensures var r := PublishWakeEvent(event, iq, q.owner, q.iqTags, q.crossbar, code, dyn);
      r == Broadcast(iq, event, code, dyn) && TagsOk(q.(iq := r), dyn) && OwnerExact(r, q.iqTags, q.owner)
  {
    DeliveryIsBroadcast(event, q.(iq := iq), code, dyn);
    SameSeqNosKeep(iq, PublishWakeEvent(event, iq, q.owner, q.iqTags, q.crossbar, code, dyn), q.iqTags, q.owner);
  }

  /** All the events of a cycle, delivered through the network, amount to plain broadcasts. */
  lemma {:induction false} NetworkIsBroadcast(cycle: nat, from: nat, iq: seq<IqEntry>, q: Queue, code: seq<Uop>,
                                              dyn: seq<Dyn>)
    requires TagsOk(q.(iq := iq), dyn) && OwnerExact(iq, q.iqTags, q.owner)
    ensures PublishFrom(cycle, from, iq, q, code, dyn) == BroadcastFrom(cycle, from, iq, code, dyn)
    decreases |code| - from
  {
    if from < |code| {
      var event := WakeEventOf(cycle, from, code, dyn);
      if event.Some? {
        DeliveryStep(event.value, iq, q, code, dyn);
        NetworkIsBroadcast(cycle, from + 1, Broadcast(iq, event.value, code, dyn), q, code, dyn);
      } else {
        NetworkIsBroadcast(cycle, from + 1, iq, q, code, dyn);
      }
    }
  }

  lemma {:induction false} BroadcastFromAt(cycle: nat, from: nat, iq: seq<IqEntry>, code: seq<Uop>, dyn: seq<Dyn>,
                                           i: nat, idx: nat)
    requires i < |iq| && idx < 2
    ensures var dep := UopAt(code, iq[i].seqNo).src.At(idx).dep;
      BroadcastFrom(cycle, from, iq, code, dyn)[i].src.At(idx)
        == if dep.Some?
          && from <= dep.value then AfterEvents(iq[i].src.At(idx), iq[i].seqNo, idx, cycle, code, dyn)
              else iq[i].src.At(idx)
    decreases |code| - from
  {
    if from < |code| {
      var event := WakeEventOf(cycle, from, code, dyn);
      if event.Some? {
        BroadcastAt(iq, event.value, code, dyn, i, idx);
        BroadcastFromAt(cycle, from + 1, Broadcast(iq, event.value, code, dyn), code, dyn, i, idx);
      } else {
        BroadcastFromAt(cycle, from + 1, iq, code, dyn, i, idx);
      }
    }
  }

  /** Which event a producer publishes follows from its visibility fields. */
  lemma EventMeaning(cycle: nat, opts: Options, code: seq<Uop>, p: nat, dyn: seq<Dyn>, inE4: bool)
    requires TimeMid(cycle, opts, UopAt(code, p), DynAt(dyn, p), inE4)
    ensures var d, event := DynAt(dyn, p), WakeEventOf(cycle, p, code, dyn);
      && (event.Some? && event.value.kind == Nonspec <==> d.dataVisible == Some(cycle))
      && (event.Some? && event.value.kind == Spec ==> d.pickVisible == Some(cycle))
      && (d.pickVisible == Some(cycle) && d.dataVisible != Some(cycle) ==> event.Some? && event.value.kind == Spec)
      && (event.Some? ==>
            event.value == WakeEvent(p, event.value.kind, UopAt(code, p).dstKind, UopAt(code, p).dstTag, d.dstQtag))
  {
  }

  /** Nothing became, or stopped being, visible before `cycle`, and the captured tags are the same. */
  ghost predicate SameEarlier(cycle: nat, a: seq<Dyn>, b: seq<Dyn>) {
    forall x: nat ::
      && DynAt(a, x).srcQtags == DynAt(b, x).srcQtags && DynAt(a, x).dstQtag == DynAt(b, x).dstQtag
      && (Timing.Earlier(DynAt(a, x).dataVisible, cycle) <==> Timing.Earlier(DynAt(b, x).dataVisible, cycle))
      && (Timing.Earlier(DynAt(a, x).pickVisible, cycle) <==> Timing.Earlier(DynAt(b, x).pickVisible, cycle))
  }

  lemma SourceBitsFrame(b: SrcState, x: nat, idx: nat, cycle: nat, code: seq<Uop>, before: seq<Dyn>, dyn: seq<Dyn>)
    requires SourceBits(b, x, idx, cycle, code, before) && SameEarlier(cycle, before, dyn)
    ensures SourceBits(b, x, idx, cycle, code, dyn)
  {
    var dep := UopAt(code, x).src.At(idx).dep;
    assert DynAt(before, x).srcQtags == DynAt(dyn, x).srcQtags;
    if dep.Some? { assert DynAt(before, dep.value).dstQtag == DynAt(dyn, dep.value).dstQtag; }
  }

  /** One source through the revoke, ready-table and event passes. */
  lemma SourceExact(b: SrcState, x: nat, idx: nat, cycle: nat, opts: Options, code: seq<Uop>, ready: ReadyTables,
                    dyn: seq<Dyn>, e4: seq<nat>)
    requires WellFormedCode(code) && idx < 2 && x < |code|
    requires SourceBits(b, x, idx, cycle, code, dyn) && ReadyOk(cycle, code, ready, dyn)
      && AllTimeMid(cycle, opts, code, e4, dyn)
    ensures ExactBits(AfterEvents(UpdateSource(cycle, x, idx, b, ready, code, dyn), x, idx, cycle, code, dyn), x, idx,
        cycle, ready, code, dyn)
  {
    var dep := UopAt(code, x).src.At(idx).dep;
    if b.valid && Tracked(x, idx, code, dyn) && dep.Some? {
      if LogicalReady(x, idx, ready, code) { LogicalImpliesData(cycle, code, ready, dyn, x, idx); }
      assert TimeMid(cycle, opts, UopAt(code, dep.value), DynAt(dyn, dep.value), dep.value in e4);
      EventMeaning(cycle, opts, code, dep.value, dyn, dep.value in e4);
      DepEarlier(code, x, idx);
      TrackedMatches(x, idx, cycle, code, dyn);
    }
  }

  /** A tracked source matches every event of its producer. */
  lemma TrackedMatches(x: nat, idx: nat, cycle: nat, code: seq<Uop>, dyn: seq<Dyn>)
    requires idx < 2 && UopAt(code, x).src.At(idx).valid && UopAt(code, x).src.At(idx).dep.Some?
    requires Tracked(x, idx, code, dyn)
    ensures var p := UopAt(code, x).src.At(idx).dep.value;
      var event := WakeEventOf(cycle, p, code, dyn); event.Some? ==> MatchesWakeEvent(x, idx, event.value, code, dyn)
  {
  }

  /** A queue source that captured a tag other than the one its producer now holds misses every
      event of that producer: tracking is exactly what delivery needs. */
  lemma StaleTagMisses(x: nat, idx: nat, cycle: nat, code: seq<Uop>, dyn: seq<Dyn>)
    requires idx < 2 && UopAt(code, x).src.At(idx).dep.Some? && !Tracked(x, idx, code, dyn)
    ensures var p := UopAt(code, x).src.At(idx).dep.value;
      var event := WakeEventOf(cycle, p, code, dyn); event.Some? ==> !MatchesWakeEvent(x, idx, event.value, code, dyn)
  {
  }

  /** The exact condition: a source that is still waiting when its producer's data becomes visible is
      marked ready by that cycle's update iff it is tracked. */
  lemma WakesIffTracked(b: SrcState, x: nat, idx: nat, cycle: nat, opts: Options, code: seq<Uop>, ready: ReadyTables,
                        dyn: seq<Dyn>, inE4: bool)
    requires idx < 2 && b.valid && UopAt(code, x).src.At(idx).valid && !b.nonspec && !LogicalReady(x, idx, ready, code)
    requires UopAt(code, x).src.At(idx).dep.Some? && UopAt(code, x).src.At(idx).dep.value < |code|
    requires var p := UopAt(code, x).src.At(idx).dep.value;
      DynAt(dyn, p).dataVisible == Some(cycle) && TimeMid(cycle, opts, UopAt(code, p), DynAt(dyn, p), inE4)
    ensures DataReady(x, idx, cycle, ready, code, dyn)
    ensures AfterEvents(UpdateSource(cycle, x, idx, b, ready, code, dyn), x, idx, cycle, code, dyn).nonspec <==>
      Tracked(x, idx, code, dyn)
  {
    var p := UopAt(code, x).src.At(idx).dep.value;
    EventMeaning(cycle, opts, code, p, dyn, inE4);
    if Tracked(x, idx, code, dyn) { TrackedMatches(x, idx, cycle, code, dyn); } else {
      StaleTagMisses(x, idx, cycle, code, dyn);
    }
  }

  lemma EntryExact(i: nat, idx: nat, cycle: nat, opts: Options, code: seq<Uop>, q: Queue, dyn: seq<Dyn>, e4: seq<nat>)
    requires WellFormedCode(code) && ReadyOk(cycle, code, q.ready, dyn) && AllTimeMid(cycle, opts, code, e4, dyn)
    requires i < |q.iq| && idx < 2 && q.iq[i].seqNo < |code|
      && SourceBits(q.iq[i].src.At(idx), q.iq[i].seqNo, idx, cycle, code, dyn)
    ensures var updated := UpdateEntries(cycle, q.iq, q.ready, code, dyn);
      ExactBits(BroadcastFrom(cycle, 0, updated, code, dyn)[i].src.At(idx), q.iq[i].seqNo, idx, cycle, q.ready, code,
          dyn)
  {
    var updated := UpdateEntries(cycle, q.iq, q.ready, code, dyn);
    BroadcastFromAt(cycle, 0, updated, code, dyn, i, idx);
    SourceExact(q.iq[i].src.At(idx), q.iq[i].seqNo, idx, cycle, opts, code, q.ready, dyn, e4);
  }

  lemma UpdateIsBroadcast(cycle: nat, code: seq<Uop>, q: Queue, dyn: seq<Dyn>)
    requires TagsOk(q, dyn) && OwnerExact(q.iq, q.iqTags, q.owner)
    ensures UpdateQueue(cycle, code, dyn, q).iq
        == BroadcastFrom(cycle, 0, UpdateEntries(cycle, q.iq, q.ready, code, dyn), code, dyn)
  {
    var updated := UpdateEntries(cycle, q.iq, q.ready, code, dyn);
    SameSeqNosKeep(q.iq, updated, q.iqTags, q.owner);
    NetworkIsBroadcast(cycle, 0, updated, q, code, dyn);
  }

  /** Exact readiness after the update of cycle `cycle`: no wake-up is lost and none is false. */
  lemma UpdateExact(cycle: nat, opts: Options, code: seq<Uop>, q: Queue, before: seq<Dyn>, dyn: seq<Dyn>, e4: seq<nat>)
    requires WellFormedCode(code) && TagsOk(q, dyn) && OwnerExact(q.iq, q.iqTags, q.owner)
    requires BitsOk(cycle, code, q.iq, before) && ReadyOk(cycle, code, q.ready, dyn)
      && AllTimeMid(cycle, opts, code, e4, dyn)
    requires SameEarlier(cycle, before, dyn)
    requires forall i :: 0 <= i < |q.iq| ==> q.iq[i].seqNo < |code|
    ensures BitsExact(cycle, q.ready, code, UpdateQueue(cycle, code, dyn, q).iq, dyn)
  {
    var r := UpdateQueue(cycle, code, dyn, q).iq;
    UpdateIsBroadcast(cycle, code, q, dyn);
    forall i, idx | 0 <= i < |r| && 0 <= idx < 2
      ensures ExactBits(r[i].src.At(idx), r[i].seqNo, idx, cycle, q.ready, code, dyn)
    {
      UpdateIqFacts(cycle, code, q, dyn, 0);
      SourceBitsFrame(q.iq[i].src.At(idx), q.iq[i].seqNo, idx, cycle, code, before, dyn);
      EntryExact(i, idx, cycle, opts, code, q, dyn, e4);
    }
  }
}
