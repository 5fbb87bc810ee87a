/** QTag allocation, the owner table and the wait crossbar on every run, and the equivalence of
    crossbar delivery with a plain broadcast. */
module Tags {
  import opened Wrappers
  import opened Model
  import opened Queues
  import opened Select
  import opened Frontend
  import opened Residency
  import opened Alive

  ghost predicate TagsInjective(iqTags: map<nat, QTag>) {
    forall x, y :: x in iqTags && y in iqTags && iqTags[x] == iqTags[y] ==> x == y
  }

  /** Live tags belong exactly to the issue-queue entries, each in its entry's own queue. */
  ghost predicate TagsMatch(iq: seq<IqEntry>, iqTags: map<nat, QTag>) {
    && (forall x :: x in iqTags ==> QueueN(iq, x) > 0)
    && (forall i :: 0 <= i < |iq| ==> iq[i].seqNo in iqTags && iqTags[iq[i].seqNo].physIq == iq[i].physIq)
  }

  /** The owner table is the exact inverse of the tags. */
  ghost predicate OwnerExact(iq: seq<IqEntry>, iqTags: map<nat, QTag>, owner: map<QTag, nat>) {
    && (forall i :: 0 <= i < |iq| && iq[i].seqNo in iqTags ==>
          iqTags[iq[i].seqNo] in owner && owner[iqTags[iq[i].seqNo]] == i)
    && (forall t :: t in owner ==> owner[t] < |iq| && iq[owner[t]].seqNo in iqTags && iqTags[iq[owner[t]].seqNo] == t)
  }

  ghost predicate WaitsFor(x: nat, i: nat, t: QTag, iqTags: map<nat, QTag>, dyn: seq<Dyn>) {
    x in iqTags && i < 2 && DynAt(dyn, x).srcQtags.At(i) == Some(t)
  }

  /** A crossbar cell holds exactly the live sources that captured its tag. */
  ghost predicate CrossbarExact(crossbar: map<QTag, seq<(nat, nat)>>, iqTags: map<nat, QTag>, dyn: seq<Dyn>) {
    forall t: QTag, x: nat, i: nat {:trigger (x, i) in Waiters(crossbar, t)} :: (x, i) in Waiters(crossbar, t) <==>
      WaitsFor(x, i, t, iqTags, dyn)
  }

  ghost predicate TagsOk(q: Queue, dyn: seq<Dyn>) {
    && UniqueEntries(q.iq) && TagsInjective(q.iqTags) && TagsMatch(q.iq, q.iqTags)
    && CrossbarExact(q.crossbar, q.iqTags, dyn)
  }

  // -- Owner table --------------------------------------------------------------------------------

  lemma {:induction false} RebuildFacts(i: nat, owner: map<QTag, nat>, iq: seq<IqEntry>, iqTags: map<nat, QTag>)
    requires i <= |iq| && UniqueEntries(iq) && TagsInjective(iqTags)
    requires forall k ::
      0 <= k < i && iq[k].seqNo in iqTags ==> iqTags[iq[k].seqNo] in owner && owner[iqTags[iq[k].seqNo]] == k
    requires forall t :: t in owner ==> owner[t] < i && iq[owner[t]].seqNo in iqTags && iqTags[iq[owner[t]].seqNo] == t
    ensures OwnerExact(iq, iqTags, RebuildFrom(i, owner, iq, iqTags))
    decreases |iq| - i
  {
    if i < |iq| {
      EntryAt(iq, i);
      forall k | 0 <= k < i ensures iq[k].seqNo != iq[i].seqNo { EntryAt(iq, k); }
      RebuildFacts(i + 1, if iq[i].seqNo in iqTags then owner[iqTags[iq[i].seqNo] := i] else owner, iq, iqTags);
    }
  }

  lemma RebuildExact(iq: seq<IqEntry>, iqTags: map<nat, QTag>)
    requires UniqueEntries(iq) && TagsInjective(iqTags)
    ensures OwnerExact(iq, iqTags, RebuildOwner(iq, iqTags))
  {
    RebuildFacts(0, map[], iq, iqTags);
  }

  // -- Pigeonhole: a routed uop always gets a tag -------------------------------------------------

  ghost function UsedTags(iq: seq<IqEntry>, iqTags: map<nat, QTag>, p: PhysIq): set<QTag> {
    if iq == [] then {}
    else UsedTags(iq[1..], iqTags,
        p) + (if iq[0].physIq == p && iq[0].seqNo in iqTags then {iqTags[iq[0].seqNo]} else {})
  }

  lemma {:induction false} UsedMember(iq: seq<IqEntry>, iqTags: map<nat, QTag>, p: PhysIq, t: QTag)
    ensures t in UsedTags(iq, iqTags, p) <==>
              exists i :: 0 <= i < |iq| && iq[i].physIq == p && iq[i].seqNo in iqTags && iqTags[iq[i].seqNo] == t
  {
    if iq != [] {
      UsedMember(iq[1..], iqTags, p, t);
      assert forall i :: 0 < i < |iq| ==> iq[i] == iq[1..][i - 1];
      var later := iq[1..];
      if i :| 0 <= i < |later| && later[i].physIq == p && later[i].seqNo in iqTags && iqTags[later[i].seqNo] == t {
        assert iq[i + 1] == iq[1..][i];
      }
    }
  }

  lemma HeadTagFresh(iq: seq<IqEntry>, iqTags: map<nat, QTag>, p: PhysIq)
    requires iq != [] && UniqueEntries(iq) && TagsInjective(iqTags) && iq[0].seqNo in iqTags
    ensures iqTags[iq[0].seqNo] !in UsedTags(iq[1..], iqTags, p)
  {
    var t := iqTags[iq[0].seqNo];
    UsedMember(iq[1..], iqTags, p, t);
    var later := iq[1..];
    if i :| 0 <= i < |later| && later[i].physIq == p && later[i].seqNo in iqTags && iqTags[later[i].seqNo] == t {
      assert QueueN(iq, iq[0].seqNo) <= 1;
      CountTwo(SeqNos(iq), 0, i + 1);
    }
  }

  lemma UniqueTail(iq: seq<IqEntry>)
    requires iq != [] && UniqueEntries(iq)
    ensures UniqueEntries(iq[1..])
  {
    forall x ensures QueueN(iq[1..], x) <= 1 {
      assert QueueN(iq, x) <= 1;
      assert SeqNos(iq)[1..] == SeqNos(iq[1..]);
    }
  }

  lemma {:induction false} UsedCount(iq: seq<IqEntry>, iqTags: map<nat, QTag>, p: PhysIq)
    requires UniqueEntries(iq) && TagsInjective(iqTags)
    requires forall i :: 0 <= i < |iq| ==> iq[i].seqNo in iqTags
    ensures |UsedTags(iq, iqTags, p)| == Occupancy(iq, p)
  {
    if iq != [] {
      UniqueTail(iq);
      HeadTagFresh(iq, iqTags, p);
      UsedCount(iq[1..], iqTags, p);
    }
  }

  ghost function TagsBelow(p: PhysIq, n: nat): set<QTag>
    requires n <= IQ_CAPACITY
  {
    set k: nat | k < n :: QTag(p, k)
  }

  lemma {:induction false} TagsBelowCard(p: PhysIq, n: nat)
    requires n <= IQ_CAPACITY
    ensures |TagsBelow(p, n)| == n
  {
    if n > 0 {
      TagsBelowCard(p, n - 1);
      assert TagsBelow(p, n) == TagsBelow(p, n - 1) + {QTag(p, n - 1)};
    }
  }

  lemma SubsetCard<T>(a: set<T>, b: set<T>)
    requires a <= b
    ensures |a| <= |b| && (|a| == |b| ==> a == b)
  {
    var c := b - a;
    assert b == a + c && a !! c;
    if |a| == |b| { assert c == {}; }
  }

  /** No physical queue ever holds more entries than it has entry ids. */
  lemma OccupancyBound(iq: seq<IqEntry>, iqTags: map<nat, QTag>, p: PhysIq, n: nat)
    requires UniqueEntries(iq) && TagsInjective(iqTags) && TagsMatch(iq, iqTags) && n == IQ_CAPACITY
    ensures Occupancy(iq, p) <= n
  {
    UsedCount(iq, iqTags, p);
    forall t | t in UsedTags(iq, iqTags, p) ensures t in TagsBelow(p, n) { UsedMember(iq, iqTags, p, t); }
    TagsBelowCard(p, n);
    SubsetCard(UsedTags(iq, iqTags, p), TagsBelow(p, n));
  }

  lemma TagUsed(iq: seq<IqEntry>, iqTags: map<nat, QTag>, t: QTag)
    requires TagsMatch(iq, iqTags) && t in iqTags.Values
    ensures t in UsedTags(iq, iqTags, t.physIq)
  {
    var x :| x in iqTags && iqTags[x] == t;
    assert QueueN(iq, x) > 0;
    FindEntryCount(iq, x);
    assert iq[FindEntry(iq, x).value].seqNo == x;
    UsedMember(iq, iqTags, t.physIq, t);
  }

  lemma AllUsed(iq: seq<IqEntry>, iqTags: map<nat, QTag>, p: PhysIq, n: nat)
    requires UniqueEntries(iq) && TagsInjective(iqTags) && TagsMatch(iq, iqTags) && n == IQ_CAPACITY
    requires forall k: EntryId :: QTag(p, k) in iqTags.Values
    ensures n <= Occupancy(iq, p)
  {
    UsedCount(iq, iqTags, p);
    forall t | t in TagsBelow(p, n) ensures t in UsedTags(iq, iqTags, p) {
      assert QTag(p, t.entryId) in iqTags.Values;
      TagUsed(iq, iqTags, t);
    }
    TagsBelowCard(p, n);
    SubsetCard(TagsBelow(p, n), UsedTags(iq, iqTags, p));
  }

  /** Once a queue has room, one of its entry ids is free. */
  lemma AllocateSucceeds(iq: seq<IqEntry>, iqTags: map<nat, QTag>, p: PhysIq)
    requires UniqueEntries(iq) && TagsInjective(iqTags) && TagsMatch(iq, iqTags) && Occupancy(iq, p) < IQ_CAPACITY
    ensures AllocateQTag(iqTags, p).Some?
  {
    if AllocateQTag(iqTags, p).None? { AllUsed(iq, iqTags, p, IQ_CAPACITY); }
  }

  // -- Delivery through the crossbar is a broadcast -----------------------------------------------

  /** Deliver `event` to the sources of `e` selected by `pick`. */
  ghost function PublishWhere(e: IqEntry, event: WakeEvent, code: seq<Uop>, dyn: seq<Dyn>, first: bool,
                              second: bool): IqEntry {
    var e' := if first then PublishEntrySource(e, 0, event, code, dyn) else e;
    if second then PublishEntrySource(e', 1, event, code, dyn) else e'
  }

  lemma WakeWaiterAt(w: (nat, nat), event: WakeEvent, iq: seq<IqEntry>, owner: map<QTag, nat>, iqTags: map<nat, QTag>,
                     code: seq<Uop>, dyn: seq<Dyn>, j: nat)
    requires j < |iq| && UniqueEntries(iq) && TagsMatch(iq, iqTags) && OwnerExact(iq, iqTags, owner) && w.1 < 2
    ensures WakeWaiter(w, event, iq, owner, iqTags, code, dyn)[j]
         == PublishWhere(iq[j], event, code, dyn, w == (iq[j].seqNo, 0), w == (iq[j].seqNo, 1))
  {
    var i := OwnerIndex(w.0, iq, owner, iqTags);
    EntryAt(iq, j);
    if w.0 == iq[j].seqNo {
      assert i == Some(j);
    }
  }

  lemma WakeWaiterKeeps(w: (nat, nat), event: WakeEvent, iq: seq<IqEntry>, owner: map<QTag, nat>,
                        iqTags: map<nat, QTag>,
                        code: seq<Uop>, dyn: seq<Dyn>)
    requires UniqueEntries(iq) && TagsMatch(iq, iqTags) && OwnerExact(iq, iqTags, owner)
    ensures var r := WakeWaiter(w, event, iq, owner, iqTags, code, dyn);
      UniqueEntries(r) && TagsMatch(r, iqTags) && OwnerExact(r, iqTags, owner)
  {
    SameSeqNosKeep(iq, WakeWaiter(w, event, iq, owner, iqTags, code, dyn), iqTags, owner);
  }

  /** Entries that agree up to their sources have the same tags and owners. */
  lemma SameSeqNosKeep(iq: seq<IqEntry>, r: seq<IqEntry>, iqTags: map<nat, QTag>, owner: map<QTag, nat>)
    requires |r| == |iq| && forall i :: 0 <= i < |iq| ==> r[i].seqNo == iq[i].seqNo && r[i].physIq == iq[i].physIq
    ensures SeqNos(r) == SeqNos(iq)
    ensures UniqueEntries(iq) ==> UniqueEntries(r)
    ensures TagsMatch(iq, iqTags) ==> TagsMatch(r, iqTags)
    ensures OwnerExact(iq, iqTags, owner) ==> OwnerExact(r, iqTags, owner)
  {
    assert SeqNos(r) == SeqNos(iq);
    if UniqueEntries(iq) {
      forall x ensures QueueN(r, x) <= 1 { assert QueueN(iq, x) <= 1; }
    }
    if TagsMatch(iq, iqTags) {
      forall x | x in iqTags ensures QueueN(r, x) > 0 { assert QueueN(iq, x) > 0; }
    }
  }

  /** Delivering the same event twice is delivering it once to all the sources meant. */
  lemma PublishTwice(e: IqEntry, event: WakeEvent, code: seq<Uop>, dyn: seq<Dyn>, a: Two<bool>, b: Two<bool>)
    ensures PublishWhere(PublishWhere(e, event, code, dyn, a.fst, a.snd), event, code, dyn, b.fst, b.snd)
         == PublishWhere(e, event, code, dyn, a.fst || b.fst, a.snd || b.snd)
  {
  }

  lemma {:induction false} WakeWaitersAt(ws: seq<(nat, nat)>, event: WakeEvent, iq: seq<IqEntry>, owner: map<QTag, nat>,
                                         iqTags: map<nat, QTag>, code: seq<Uop>, dyn: seq<Dyn>, j: nat)
    requires j < |iq| && UniqueEntries(iq) && TagsMatch(iq, iqTags) && OwnerExact(iq, iqTags, owner)
    requires forall w :: w in ws ==> w.1 < 2
    ensures WakeWaiters(ws, event, iq, owner, iqTags, code, dyn)[j]
         == PublishWhere(iq[j], event, code, dyn, (iq[j].seqNo, 0) in ws, (iq[j].seqNo, 1) in ws)
  {
    if ws != [] {
      var iq' := WakeWaiter(ws[0], event, iq, owner, iqTags, code, dyn);
      WakeWaiterAt(ws[0], event, iq, owner, iqTags, code, dyn, j);
      WakeWaiterKeeps(ws[0], event, iq, owner, iqTags, code, dyn);
      WakeWaitersAt(ws[1..], event, iq', owner, iqTags, code, dyn, j);
      var x := iq[j].seqNo;
      PublishTwice(iq[j], event, code, dyn, Two(ws[0] == (x, 0), ws[0] == (x, 1)),
          Two((x, 0) in ws[1..], (x, 1) in ws[1..]));
    }
  }

  /** The crossbar, the owner table and the non-queue broadcast together deliver a wake event to
      exactly the sources that a scan of every entry and source would reach, although QTags are
      recycled. */
  lemma DeliveryIsBroadcast(event: WakeEvent, q: Queue, code: seq<Uop>, dyn: seq<Dyn>)
    requires TagsOk(q, dyn) && OwnerExact(q.iq, q.iqTags, q.owner)
    ensures PublishWakeEvent(event, q.iq, q.owner, q.iqTags, q.crossbar, code, dyn) == Broadcast(q.iq, event, code, dyn)
  {
    if event.queueKind.Some? && event.logicalTag.Some? && event.qtag.Some? {
      var ws := Waiters(q.crossbar, event.qtag.value);
      var woken := WakeWaiters(ws, event, q.iq, q.owner, q.iqTags, code, dyn);
      forall w | w in ws ensures w.1 < 2 {
        assert (w.0, w.1) in Waiters(q.crossbar, event.qtag.value);
      }
      forall j | 0 <= j < |q.iq|
        ensures PublishNonqueueEntry(woken[j], event, code, dyn) == PublishEntry(q.iq[j], event, code, dyn)
      {
        var x := q.iq[j].seqNo;
        WakeWaitersAt(ws, event, q.iq, q.owner, q.iqTags, code, dyn, j);
        assert (x, 0) in Waiters(q.crossbar, event.qtag.value) <==> WaitsFor(x, 0, event.qtag.value, q.iqTags, dyn);
        assert (x, 1) in Waiters(q.crossbar, event.qtag.value) <==> WaitsFor(x, 1, event.qtag.value, q.iqTags, dyn);
        SourcesReached(q.iq[j], event, code, dyn, (x, 0) in ws, (x, 1) in ws);
      }
    }
  }

  lemma SourcesReached(e: IqEntry, event: WakeEvent, code: seq<Uop>, dyn: seq<Dyn>, first: bool, second: bool)
    requires event.qtag.Some?
    requires first <==> DynAt(dyn, e.seqNo).srcQtags.fst == event.qtag
    requires second <==> DynAt(dyn, e.seqNo).srcQtags.snd == event.qtag
    ensures PublishNonqueueEntry(PublishWhere(e, event, code, dyn, first, second), event, code, dyn)
        == PublishEntry(e, event, code, dyn)
  {
    SourceReached(e, 0, event, code, dyn, first);
    SourceReached(e, 1, event, code, dyn, second);
  }

  /** One source: the tagged delivery and the non-queue delivery amount to one delivery. */
  lemma SourceReached(e: IqEntry, idx: nat, event: WakeEvent, code: seq<Uop>, dyn: seq<Dyn>, tagged: bool)
    requires idx < 2 && event.qtag.Some? && (tagged <==> DynAt(dyn, e.seqNo).srcQtags.At(idx) == event.qtag)
    ensures var b := e.src.At(idx);
      var b1 := if tagged then PublishSource(e.seqNo, idx, b, event, code, dyn) else b;
      var b2 := if UopAt(code, e.seqNo).src.At(idx).queueKind.None?
          then PublishSource(e.seqNo, idx, b1, event, code, dyn) else b1;
      b2 == PublishSource(e.seqNo, idx, b, event, code, dyn)
  {
  }
}
