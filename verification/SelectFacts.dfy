/** What issue selection guarantees: one winner per physical queue, always its oldest ready entry;
    the oldest winners go first; port arbitration admits in age order within its limits. */
module SelectFacts {
  import opened Seqs
  import opened Model
  import opened Select

  /** Occurrences of sequence number `x` among candidates. */
  function KN(q: seq<Keyed>, x: nat): nat {
    if q == [] then 0 else (if q[0].seqNo == x then 1 else 0) + KN(q[1..], x)
  }

  predicate Sorted(q: seq<Keyed>) { forall i, j :: 0 <= i < j < |q| ==> KeyLe(q[i], q[j]) }

  lemma {:induction false} InsertFacts(k: Keyed, q: seq<Keyed>)
    requires Sorted(q)
    ensures Sorted(InsertKeyed(k, q))
    ensures forall e :: e in InsertKeyed(k, q) <==> e == k || e in q
    ensures forall x :: KN(InsertKeyed(k, q), x) == KN(q, x) + (if k.seqNo == x then 1 else 0)
  {
    if q == [] {
      assert [k][1..] == [];
    } else if KeyLe(k, q[0]) {
      assert ([k] + q)[1..] == q;
    } else {
      InsertFacts(k, q[1..]);
      var r := InsertKeyed(k, q[1..]);
      assert ([q[0]] + r)[1..] == r;
      forall j | 0 <= j < |r| ensures KeyLe(q[0], r[j]) {
        assert r[j] in r;
        if r[j] != k {
          var i :| 0 <= i < |q[1..]| && q[1..][i] == r[j];
          assert q[1..][i] == q[i + 1];
        }
      }
    }
  }

  lemma {:induction false} SortFacts(q: seq<Keyed>)
    ensures Sorted(SortKeyed(q))
    ensures forall e :: e in SortKeyed(q) <==> e in q
    ensures forall x :: KN(SortKeyed(q), x) == KN(q, x)
  {
    if q != [] {
      SortFacts(q[1..]);
      InsertFacts(q[0], SortKeyed(q[1..]));
      assert q == [q[0]] + q[1..];
    }
  }

  /** Sorted by queue first, and queue index determined by the queue. */
  predicate QueueSorted(q: seq<Keyed>) { Sorted(q) && forall i :: 0 <= i < |q| ==> q[i].major == q[i].physIq.Index() }

  lemma IndexInjective(a: PhysIq, b: PhysIq)
    ensures a.Index() == b.Index() ==> a == b
  {
  }

  predicate OnePerQueue(r: seq<Keyed>) { forall i, j :: 0 <= i < j < |r| ==> r[i].physIq != r[j].physIq }

  /** `r` holds an element of the queue of `e` that does not come after `e`. */
  predicate Covered(r: seq<Keyed>, e: Keyed) { exists w :: w in r && w.physIq == e.physIq && KeyLe(w, e) }

  lemma QueueSortedTail(q: seq<Keyed>)
    requires |q| > 1 && QueueSorted(q)
    ensures QueueSorted(q[1..]) && QueueSorted([q[0]] + q[2..])
  {
    var q' := [q[0]] + q[2..];
    assert forall i :: 0 < i < |q'| ==> q'[i] == q[i + 1];
  }

  lemma {:induction false} DedupSubset(q: seq<Keyed>, e: Keyed)
    requires e in DedupQueues(q)
    ensures e in q
    decreases |q|
  {
    if |q| > 1 {
      if q[0].physIq == q[1].physIq { DedupSubset([q[0]] + q[2..], e); }
      else if e != q[0] { DedupSubset(q[1..], e); }
    }
  }

  lemma {:induction false} DedupCount(q: seq<Keyed>, x: nat)
    ensures KN(DedupQueues(q), x) <= KN(q, x)
    decreases |q|
  {
    if |q| > 1 {
      var q' := [q[0]] + q[2..];
      assert q'[1..] == q[2..] && q[1..][1..] == q[2..];
      if q[0].physIq == q[1].physIq {
        DedupCount(q', x);
      } else {
        DedupCount(q[1..], x);
        assert ([q[0]] + DedupQueues(q[1..]))[1..] == DedupQueues(q[1..]);
      }
    }
  }

  lemma {:induction false} DedupCovers(q: seq<Keyed>, e: Keyed)
    requires QueueSorted(q) && e in q
    ensures Covered(DedupQueues(q), e)
    decreases |q|
  {
    if |q| <= 1 {
      assert e in DedupQueues(q) && KeyLe(e, e);
    } else {
      QueueSortedTail(q);
      if q[0].physIq == q[1].physIq {
        var older := if e == q[1] then q[0] else e;
        DedupCovers([q[0]] + q[2..], older);
      } else if e == q[0] {
        assert e in DedupQueues(q) && KeyLe(e, e);
      } else {
        DedupCovers(q[1..], e);
        var w :| w in DedupQueues(q[1..]) && w.physIq == e.physIq && KeyLe(w, e);
        assert w in DedupQueues(q);
      }
    }
  }

  lemma {:induction false} DedupOnePerQueue(q: seq<Keyed>)
    requires QueueSorted(q)
    ensures OnePerQueue(DedupQueues(q))
    decreases |q|
  {
    if |q| > 1 {
      QueueSortedTail(q);
      if q[0].physIq == q[1].physIq {
        DedupOnePerQueue([q[0]] + q[2..]);
      } else {
        DedupOnePerQueue(q[1..]);
        var rest := DedupQueues(q[1..]);
        forall j | 0 <= j < |rest| ensures rest[j].physIq != q[0].physIq {
          DedupSubset(q[1..], rest[j]);
          LaterQueue(q, rest[j]);
        }
      }
    }
  }

  lemma LaterQueue(q: seq<Keyed>, e: Keyed)
    requires |q| > 1 && QueueSorted(q) && q[0].physIq != q[1].physIq && e in q[1..]
    ensures e.physIq != q[0].physIq
  {
    var i :| 0 <= i < |q[1..]| && q[1..][i] == e;
    IndexInjective(q[0].physIq, q[1].physIq);
    assert KeyLe(q[0], q[1]);
    if i > 0 { assert KeyLe(q[1], q[i + 1]); }
  }

  /** A candidate that stands for IQ position `k.index`. */
  predicate StandsFor(k: Keyed, iq: seq<IqEntry>) {
    k.index < |iq| && iq[k.index].seqNo == k.seqNo && iq[k.index].physIq == k.physIq
  }

  predicate Pickable(i: nat, cycle: nat, issuePtr: nat, iq: seq<IqEntry>, code: seq<Uop>, dyn: seq<Dyn>) {
    i < |iq| && !iq[i].inflight && EntryReady(iq[i], cycle, issuePtr, code, dyn)
  }

  function Candidate(i: nat, iq: seq<IqEntry>, rob: seq<nat>): Keyed
    requires i < |iq|
  {
    Keyed(iq[i].physIq.Index(), RobRank(iq[i].seqNo, rob), i, iq[i].seqNo, iq[i].physIq)
  }

  lemma {:induction false} ReadyEntriesFacts(i: nat, cycle: nat, issuePtr: nat, iq: seq<IqEntry>, code: seq<Uop>,
                                             dyn: seq<Dyn>, rob: seq<nat>)
    requires i <= |iq|
    ensures var r := ReadyEntries(i, cycle, issuePtr, iq, code, dyn, rob);
      && (forall k :: k in r ==>
            i <= k.index && Pickable(k.index, cycle, issuePtr, iq, code, dyn) && k == Candidate(k.index, iq, rob))
      && (forall j: nat :: i <= j && Pickable(j, cycle, issuePtr, iq, code, dyn) ==> Candidate(j, iq, rob) in r)
      && (forall x :: KN(r, x) <= N(SeqNos(iq[i..]), x))
    decreases |iq| - i
  {
    if i < |iq| {
      ReadyEntriesFacts(i + 1, cycle, issuePtr, iq, code, dyn, rob);
      var rest := ReadyEntries(i + 1, cycle, issuePtr, iq, code, dyn, rob);
      assert ([Candidate(i, iq, rob)] + rest)[1..] == rest;
      assert SeqNos(iq[i..])[1..] == SeqNos(iq[i + 1..]);
    }
  }

  /** Winners: at most one per physical queue, each the oldest pickable entry of its queue, and
      every queue with a pickable entry has one. */
  lemma WinnersAreOldest(cycle: nat, issuePtr: nat, iq: seq<IqEntry>, code: seq<Uop>, dyn: seq<Dyn>, rob: seq<nat>)
    ensures var r := ReadyWinners(cycle, issuePtr, iq, code, dyn, rob);
      && (forall k :: k in r ==> Pickable(k.index, cycle, issuePtr, iq, code, dyn) && k == Candidate(k.index, iq, rob))
      && OnePerQueue(r)
      && (forall j: nat :: Pickable(j, cycle, issuePtr, iq, code, dyn) ==> Covered(r, Candidate(j, iq, rob)))
      && (forall x :: KN(r, x) <= N(SeqNos(iq), x))
  {
    var ready := ReadyEntries(0, cycle, issuePtr, iq, code, dyn, rob);
    ReadyEntriesFacts(0, cycle, issuePtr, iq, code, dyn, rob);
    assert iq[0..] == iq;
    var sorted := SortKeyed(ready);
    SortFacts(ready);
    assert QueueSorted(sorted) by {
      forall i | 0 <= i < |sorted| ensures sorted[i].major == sorted[i].physIq.Index() { assert sorted[i] in sorted; }
    }
    DedupOnePerQueue(sorted);
    forall k | k in DedupQueues(sorted) ensures k in ready { DedupSubset(sorted, k); }
    forall j: nat | Pickable(j, cycle, issuePtr, iq, code, dyn) ensures Covered(DedupQueues(sorted),
        Candidate(j, iq, rob)) {
      DedupCovers(sorted, Candidate(j, iq, rob));
    }
    forall x ensures KN(DedupQueues(sorted), x) <= N(SeqNos(iq), x) { DedupCount(sorted, x); }
  }

  lemma {:induction false} ByAgeCount(q: seq<Keyed>, x: nat)
    ensures KN(ByAge(q), x) == KN(q, x)
  {
    if q != [] {
      ByAgeCount(q[1..], x);
      assert ByAge(q)[1..] == ByAge(q[1..]);
    }
  }

  lemma ByAgeMember(q: seq<Keyed>, e: Keyed)
    requires e in ByAge(q)
    ensures exists k :: k in q && e == k.(major := 0)
  {
    var i :| 0 <= i < |q| && ByAge(q)[i] == e;
    assert q[i] in q;
  }

  /** What is picked: winners in age order. */
  lemma CandidateFacts(cycle: nat, issuePtr: nat, iq: seq<IqEntry>, code: seq<Uop>, dyn: seq<Dyn>, rob: seq<nat>)
    ensures var r := Candidates(cycle, issuePtr, iq, code, dyn, rob);
      && (forall k :: k in r ==>
            && Pickable(k.index, cycle, issuePtr, iq, code, dyn) && StandsFor(k, iq)
            && k.minor == RobRank(k.seqNo, rob) && k.major == 0)
      && (forall i, j :: 0 <= i < j < |r| ==> r[i].minor <= r[j].minor)
      && (forall x :: KN(r, x) <= N(SeqNos(iq), x))
  {
    var w := ReadyWinners(cycle, issuePtr, iq, code, dyn, rob);
    WinnersAreOldest(cycle, issuePtr, iq, code, dyn, rob);
    SortFacts(ByAge(w));
    var r := SortKeyed(ByAge(w));
    forall k | k in r
      ensures Pickable(k.index, cycle, issuePtr, iq, code, dyn) && StandsFor(k, iq)
        && k.minor == RobRank(k.seqNo, rob) && k.major == 0
    {
      ByAgeMember(w, k);
    }
    forall i, j | 0 <= i < j < |r| ensures r[i].minor <= r[j].minor {
      assert r[i] in r && r[j] in r;
      assert KeyLe(r[i], r[j]);
    }
    forall x ensures KN(r, x) <= N(SeqNos(iq), x) { ByAgeCount(w, x); }
  }
}
