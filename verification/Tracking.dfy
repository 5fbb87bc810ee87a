/** On coherent runs a captured QTag is always the one its producer holds: a uop that has received
    a tag is never dispatched again. */
module Tracking {
  import opened Wrappers
  import opened Seqs
  import opened Model
  import opened Queues
  import opened Select
  import opened Frontend
  import opened Residency
  import opened TagSteps
  import opened WellFormed
  import opened Wakeup
  import opened WakeSteps
  import opened Conserve

  predicate TrackedTag(x: nat, idx: nat, code: seq<Uop>, dyn: seq<Dyn>) {
    var dep := UopAt(code, x).src.At(idx).dep;
    DynAt(dyn, x).srcQtags.At(idx).Some? ==>
      dep.Some? && DynAt(dyn, dep.value).dstQtag == DynAt(dyn, x).srcQtags.At(idx)
  }

  ghost predicate TagsTracked(iqTags: map<nat, QTag>, code: seq<Uop>, dyn: seq<Dyn>) {
    forall x: nat, idx: nat {:trigger TrackedTag(x, idx, code, dyn)} :: x in iqTags && idx < 2 ==>
      TrackedTag(x, idx, code, dyn)
  }

  lemma TrackedFrame(a: map<nat, QTag>, b: map<nat, QTag>, code: seq<Uop>, before: seq<Dyn>, dyn: seq<Dyn>)
    requires TagsTracked(a, code, before) && SameCaptures(before, dyn) && b.Keys <= a.Keys
    ensures TagsTracked(b, code, dyn)
  {
    forall x: nat, idx: nat | x in b && idx < 2 ensures TrackedTag(x, idx, code, dyn) {
      assert x in a && TrackedTag(x, idx, code, before);
      assert DynAt(before, x).srcQtags == DynAt(dyn, x).srcQtags;
      var dep := UopAt(code, x).src.At(idx).dep;
      if dep.Some? { assert DynAt(before, dep.value).dstQtag == DynAt(dyn, dep.value).dstQtag; }
    }
  }

  /** A tracked capture is a tracked source. */
  lemma CapturedIsTracked(x: nat, idx: nat, held: iset<nat>, q: Queue, code: seq<Uop>, dyn: seq<Dyn>)
    requires TagsTracked(q.iqTags, code, dyn) && CapturesOk(held, q, code, dyn) && x in q.iqTags && idx < 2
    ensures Tracked(x, idx, code, dyn) <==>
      UopAt(code, x).src.At(idx).queueKind.None? || DynAt(dyn, x).srcQtags.At(idx).Some?
  {
    assert TrackedTag(x, idx, code, dyn);
    if DynAt(dyn, x).srcQtags.At(idx).Some? { assert CaptureOk(x, idx, held, q, code, dyn); }
  }

  // -- Dispatch -----------------------------------------------------------------------------------

  ghost predicate DispatchTracked(pending: seq<nat>, held: iset<nat>, code: seq<Uop>, d: Dispatcher) {
    && TagsTracked(d.q.iqTags, code, d.dyn) && CapturesOk(held, d.q, code, d.dyn)
    && forall y :: y in pending ==> DynAt(d.dyn, y).dstQtag.None?
  }

  lemma EnqueueTracked(x: nat, p: PhysIq, qtag: QTag, cycle: nat, held: iset<nat>, code: seq<Uop>, d: Dispatcher)
    requires WellFormedCode(code) && TagsTracked(d.q.iqTags, code, d.dyn) && CapturesOk(held, d.q, code, d.dyn)
    requires x < |d.dyn| && DynAt(d.dyn, x).dstQtag.None?
    ensures var r := Enqueue(x, p, qtag, cycle, code, d); TagsTracked(r.q.iqTags, code, r.dyn)
  {
    var r := Enqueue(x, p, qtag, cycle, code, d);
    EnqueueFrame(x, p, qtag, cycle, code, d);
    forall y: nat, idx: nat | y in r.q.iqTags && idx < 2 ensures TrackedTag(y, idx, code, r.dyn) {
      DepEarlier(code, y, idx);
      if y == x {
        FreshTracked(x, idx, p, qtag, held, code, d, r.dyn);
      } else {
        assert TrackedTag(y, idx, code, d.dyn);
        var dep := UopAt(code, y).src.At(idx).dep;
        if dep.Some? && dep.value != x { assert DynAt(r.dyn, dep.value) == DynAt(d.dyn, dep.value); }
      }
    }
  }

  lemma FreshTracked(x: nat, idx: nat, p: PhysIq, qtag: QTag, held: iset<nat>, code: seq<Uop>, d: Dispatcher,
                     b: seq<Dyn>)
    requires WellFormedCode(code) && CapturesOk(held, d.q, code, d.dyn) && x < |d.dyn| && idx < 2
      && OnlyTagsOf(x, d.dyn, b)
    requires DynAt(b, x).srcQtags.At(idx) == CapturedAfter(x, idx, p, qtag, code, d)
    ensures TrackedTag(x, idx, code, b)
  {
    DepEarlier(code, x, idx);
    var dep := UopAt(code, x).src.At(idx).dep;
    if dep.Some? { assert DynAt(b, dep.value) == DynAt(d.dyn, dep.value); }
  }

  lemma DispatchOneTracked(pending: seq<nat>, cycle: nat, input: Input, held: iset<nat>, code: seq<Uop>, d: Dispatcher)
    requires WellFormedCode(code) && pending != [] && DispatchTracked(pending, held, code, d) && pending[0] < |d.dyn|
    ensures TagsTracked(DispatchOne(pending[0], cycle, input, code, d).q.iqTags, code,
        DispatchOne(pending[0], cycle, input, code, d).dyn)
  {
    var x := pending[0];
    var d' := d.(q := Snapshot(x, input, code, d.q));
    assert x in pending;
    CapturesShrink(held, d.q, held, d'.q, code, d.dyn);
    if UopAt(code, x).bypass {
      var r := DispatchBypass(x, cycle, d');
      assert SameCaptures(d.dyn, r.dyn);
      TrackedFrame(d.q.iqTags, r.q.iqTags, code, d.dyn, r.dyn);
    } else {
      ToIqTracked(x, cycle, held, code, d');
    }
  }

  lemma ToIqTracked(x: nat, cycle: nat, held: iset<nat>, code: seq<Uop>, d: Dispatcher)
    requires WellFormedCode(code) && TagsTracked(d.q.iqTags, code, d.dyn) && CapturesOk(held, d.q, code, d.dyn)
    requires x < |d.dyn| && DynAt(d.dyn, x).dstQtag.None?
    ensures var r := DispatchToIq(x, cycle, code, d); TagsTracked(r.q.iqTags, code, r.dyn)
  {
    var p := RoutePhysIq(UopAt(code, x), d.q.iq, d.ports);
    if p.Some? {
      var qtag := AllocateQTag(d.q.iqTags, p.value);
      if qtag.Some? { EnqueueTracked(x, p.value, qtag.value, cycle, held, code, d); }
    }
  }

  lemma {:induction false} DispatchLoopTracked(pending: seq<nat>, cycle: nat, input: Input, held: iset<nat>,
                                               code: seq<Uop>, d: Dispatcher)
    requires WellFormedCode(code) && DispatchTags(pending, d) && DispatchWake(cycle, held, code, d)
      && DispatchTracked(pending, held, code, d)
    requires forall x :: x in pending ==> x in held && x < |d.dyn|
    ensures var r := DispatchLoop(pending, cycle, input, code, d); TagsTracked(r.q.iqTags, code, r.dyn)
    decreases |pending|
  {
    if pending != [] {
      var x, r := pending[0], DispatchOne(pending[0], cycle, input, code, d);
      assert x in pending;
      assert [x] + pending[1..] == pending;
      DispatchOneTags(pending, cycle, input, code, d);
      OneWake(x, cycle, input, held, code, d, pending);
      DispatchOneTracked(pending, cycle, input, held, code, d);
      forall y | y in pending[1..] ensures y in held && y < |r.dyn| && DynAt(r.dyn, y).dstQtag.None? {
        assert y in pending && N(pending, y) + QueueN(d.q.iq, y) <= 1;
        CountMember(pending[1..], y);
        DispatchOneTagging(x, cycle, input, code, d, y);
      }
      DispatchLoopTracked(pending[1..], cycle, input, held, code, r);
    }
  }

  lemma OneWake(x: nat, cycle: nat, input: Input, held: iset<nat>, code: seq<Uop>, d: Dispatcher, pending: seq<nat>)
    requires WellFormedCode(code) && DispatchTags(pending, d) && DispatchWake(cycle, held, code, d)
    requires pending != [] && x == pending[0] && x in held && x < |d.dyn|
    ensures var r := DispatchOne(x, cycle, input, code, d); DispatchWake(cycle, held, code, r) && |r.dyn| == |d.dyn|
  {
    var d' := d.(q := Snapshot(x, input, code, d.q));
    SnapshotWake(x, cycle, input, held, code, d);
    SnapshotTags(x, input, code, d.q, d.dyn);
    assert N(pending, x) + QueueN(d.q.iq, x) <= 1;
    if UopAt(code, x).bypass { BypassWake(x, cycle, held, code, d'); } else { ToIqWake(x, cycle, held, code, d'); }
  }
}
