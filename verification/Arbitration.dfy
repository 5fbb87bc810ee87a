/** Issue selection as a whole: which entries a cycle picks, and which P1 occupants the read-port
    arbitration admits to I1. */
module Arbitration {
  import opened Wrappers
  import opened Seqs
  import opened Model
  import opened Select
  import opened SelectFacts
  import opened Alive
  import opened Runs

  // -- Pick ---------------------------------------------------------------------------------------

  /** How many candidates fit into P1. */
  function Taken(cands: seq<Keyed>, p1: seq<nat>): (n: nat)
    ensures n <= |cands|
  {
    if |p1| >= ISSUE_WIDTH then 0 else if |cands| <= ISSUE_WIDTH - |p1| then |cands| else ISSUE_WIDTH - |p1|
  }

  predicate Marked(cands: seq<Keyed>, n: nat, i: nat)
    requires n <= |cands|
  {
    exists k :: 0 <= k < n && cands[k].index == i
  }

  /** The pick loop marks exactly the entries of the leading candidates that fit. */
  lemma {:induction false} PickLoopMarks(cands: seq<Keyed>, a: Picker, i: nat)
    requires i < |a.iq|
    ensures var r := PickLoop(cands, a);
      && |r.iq| == |a.iq| && (r.iq[i].inflight <==> a.iq[i].inflight || Marked(cands, Taken(cands, a.p1), i))
      && |r.p1| == |a.p1| + Taken(cands, a.p1)
    decreases |cands|
  {
    if cands != [] && |a.p1| < ISSUE_WIDTH {
      var b := Picker(SetInflight(a.iq, cands[0].index, true), a.p1 + [cands[0].seqNo]);
      PickLoopMarks(cands[1..], b, i);
      var n := Taken(cands, a.p1);
      assert Taken(cands[1..], b.p1) == n - 1;
      if Marked(cands[1..], n - 1, i) {
        var k :| 0 <= k < n - 1 && cands[1..][k].index == i;
        assert cands[k + 1].index == i;
      }
      if Marked(cands, n, i) && cands[0].index != i {
        var k :| 0 <= k < n && cands[k].index == i;
        assert cands[1..][k - 1].index == i;
      }
    }
  }

  /** Entry `i` is picked in this cycle. */
  predicate Picked(i: nat, cycle: nat, code: seq<Uop>, s: State) {
    var r := PickFromIq(cycle, code, s);
    i < |s.q.iq| && i < |r.q.iq| && !s.q.iq[i].inflight && r.q.iq[i].inflight
  }

  function Age(i: nat, s: State): nat
    requires i < |s.q.iq|
  {
    RobRank(s.q.iq[i].seqNo, s.rt.rob)
  }

  predicate Ready(i: nat, cycle: nat, code: seq<Uop>, s: State) {
    Pickable(i, cycle, s.mem.issuePtr, s.q.iq, code, s.dyn)
  }

  lemma PickedIsCandidate(i: nat, cycle: nat, code: seq<Uop>, s: State)
    requires i < |s.q.iq|
    ensures var cands := Candidates(cycle, s.mem.issuePtr, s.q.iq, code, s.dyn, s.rt.rob);
      Picked(i, cycle, code, s) <==> !s.q.iq[i].inflight && Marked(cands, Taken(cands, s.sel.p1), i)
  {
    var cands := Candidates(cycle, s.mem.issuePtr, s.q.iq, code, s.dyn, s.rt.rob);
    PickLoopMarks(cands, Picker(s.q.iq, s.sel.p1), i);
  }

  /** Candidates are the queue winners, up to the sort key. */
  lemma CandidateIsWinner(cycle: nat, code: seq<Uop>, s: State, k: nat)
    requires k < |Candidates(cycle, s.mem.issuePtr, s.q.iq, code, s.dyn, s.rt.rob)|
    ensures var c := Candidates(cycle, s.mem.issuePtr, s.q.iq, code, s.dyn, s.rt.rob)[k];
      && Ready(c.index, cycle, code, s) && c == Candidate(c.index, s.q.iq, s.rt.rob).(major := 0)
      && Candidate(c.index, s.q.iq, s.rt.rob) in ReadyWinners(cycle, s.mem.issuePtr, s.q.iq, code, s.dyn, s.rt.rob)
  {
    var w := ReadyWinners(cycle, s.mem.issuePtr, s.q.iq, code, s.dyn, s.rt.rob);
    WinnersAreOldest(cycle, s.mem.issuePtr, s.q.iq, code, s.dyn, s.rt.rob);
    SortFacts(ByAge(w));
    var r := SortKeyed(ByAge(w));
    assert r[k] in r;
    ByAgeMember(w, r[k]);
  }

  /** At most one entry per physical queue is picked, and it is the oldest ready one there. */
  lemma PickedIsOldest(a: nat, b: nat, cycle: nat, code: seq<Uop>, s: State)
    requires Picked(a, cycle, code, s) && Ready(b, cycle, code, s) && s.q.iq[a].physIq == s.q.iq[b].physIq
    ensures Ready(a, cycle, code, s) && Age(a, s) <= Age(b, s)
    ensures Picked(b, cycle, code, s) ==> a == b
  {
    var cands := Candidates(cycle, s.mem.issuePtr, s.q.iq, code, s.dyn, s.rt.rob);
    var w := ReadyWinners(cycle, s.mem.issuePtr, s.q.iq, code, s.dyn, s.rt.rob);
    WinnersAreOldest(cycle, s.mem.issuePtr, s.q.iq, code, s.dyn, s.rt.rob);
    var x := WinnerOf(a, cycle, code, s);
    var o :| o in w && o.physIq == s.q.iq[b].physIq && KeyLe(o, Candidate(b, s.q.iq, s.rt.rob));
    SameWinner(w, x, o);
    if Picked(b, cycle, code, s) {
      var y := WinnerOf(b, cycle, code, s);
      SameWinner(w, x, y);
    }
  }

  lemma WinnerOf(i: nat, cycle: nat, code: seq<Uop>, s: State) returns (x: Keyed)
    requires Picked(i, cycle, code, s)
    ensures x in ReadyWinners(cycle, s.mem.issuePtr, s.q.iq, code, s.dyn, s.rt.rob)
      && x == Candidate(i, s.q.iq, s.rt.rob) && Ready(i, cycle, code, s)
  {
    var cands := Candidates(cycle, s.mem.issuePtr, s.q.iq, code, s.dyn, s.rt.rob);
    PickedIsCandidate(i, cycle, code, s);
    var k :| 0 <= k < Taken(cands, s.sel.p1) && cands[k].index == i;
    CandidateIsWinner(cycle, code, s, k);
    x := Candidate(i, s.q.iq, s.rt.rob);
  }

  lemma SameWinner(w: seq<Keyed>, x: Keyed, y: Keyed)
    requires OnePerQueue(w) && x in w && y in w && x.physIq == y.physIq
    ensures x == y
  {
    var i :| 0 <= i < |w| && w[i] == x;
    var j :| 0 <= j < |w| && w[j] == y;
  }

  lemma {:induction false} ByAgeHas(q: seq<Keyed>, k: Keyed)
    requires k in q
    ensures k.(major := 0) in ByAge(q)
  {
    var i :| 0 <= i < |q| && q[i] == k;
    assert ByAge(q)[i] == k.(major := 0);
  }

  /** A ready entry is passed over only for an older entry of its own queue, or because P1 is full
      with entries that are all older. */
  lemma PassedOverForOlder(b: nat, cycle: nat, code: seq<Uop>, s: State)
    requires Ready(b, cycle, code, s) && !Picked(b, cycle, code, s)
    ensures (exists c: nat ::
               Picked(c, cycle, code, s) && s.q.iq[c].physIq == s.q.iq[b].physIq && Age(c, s) <= Age(b, s))
         || (|PickFromIq(cycle, code, s).sel.p1| >= ISSUE_WIDTH
             && forall c: nat :: Picked(c, cycle, code, s) ==> Age(c, s) <= Age(b, s))
  {
    var cands := Candidates(cycle, s.mem.issuePtr, s.q.iq, code, s.dyn, s.rt.rob);
    var n := Taken(cands, s.sel.p1);
    var k := WinningPosition(b, cycle, code, s);
    if k < n {
      PickedIsCandidate(cands[k].index, cycle, code, s);
      assert Picked(cands[k].index, cycle, code, s);
    } else {
      PickLoopMarks(cands, Picker(s.q.iq, s.sel.p1), b);
      forall c: nat | Picked(c, cycle, code, s) ensures Age(c, s) <= Age(b, s) { PickedBefore(c, k, cycle, code, s); }
    }
  }

  lemma PickedBefore(c: nat, k: nat, cycle: nat, code: seq<Uop>, s: State)
    requires Picked(c, cycle, code, s)
    requires var cands := Candidates(cycle, s.mem.issuePtr, s.q.iq, code, s.dyn, s.rt.rob);
      Taken(cands, s.sel.p1) <= k < |cands|
    ensures Age(c, s) <= Candidates(cycle, s.mem.issuePtr, s.q.iq, code, s.dyn, s.rt.rob)[k].minor
  {
    var cands := Candidates(cycle, s.mem.issuePtr, s.q.iq, code, s.dyn, s.rt.rob);
    CandidateFacts(cycle, s.mem.issuePtr, s.q.iq, code, s.dyn, s.rt.rob);
    PickedIsCandidate(c, cycle, code, s);
    var j :| 0 <= j < Taken(cands, s.sel.p1) && cands[j].index == c;
    CandidateIsWinner(cycle, code, s, j);
  }

  /** The candidate that represents the queue of ready entry `b`. */
  lemma WinningPosition(b: nat, cycle: nat, code: seq<Uop>, s: State) returns (k: nat)
    requires Ready(b, cycle, code, s)
    ensures var cands := Candidates(cycle, s.mem.issuePtr, s.q.iq, code, s.dyn, s.rt.rob);
      && k < |cands| && Ready(cands[k].index, cycle, code, s) && s.q.iq[cands[k].index].physIq == s.q.iq[b].physIq
      && cands[k].minor == Age(cands[k].index, s) && cands[k].minor <= Age(b, s)
  {
    var w := ReadyWinners(cycle, s.mem.issuePtr, s.q.iq, code, s.dyn, s.rt.rob);
    WinnersAreOldest(cycle, s.mem.issuePtr, s.q.iq, code, s.dyn, s.rt.rob);
    assert Covered(w, Candidate(b, s.q.iq, s.rt.rob));
    var o :| o in w && o.physIq == s.q.iq[b].physIq && KeyLe(o, Candidate(b, s.q.iq, s.rt.rob));
    ByAgeHas(w, o);
    SortFacts(ByAge(w));
    var cands := Candidates(cycle, s.mem.issuePtr, s.q.iq, code, s.dyn, s.rt.rob);
    k :| 0 <= k < |cands| && cands[k] == o.(major := 0);
    CandidateIsWinner(cycle, code, s, k);
  }

  // -- Read-port arbitration ----------------------------------------------------------------------

  function EntryOf(x: nat, iq: seq<IqEntry>): (e: Option<IqEntry>)
    ensures e.Some? ==> e.value.seqNo == x
  {
    var i := FindEntry(iq, x);
    if i.Some? then Some(iq[i.value]) else None
  }

  function PortsOf(q: seq<nat>, cycle: nat, iq: seq<IqEntry>, code: seq<Uop>, dyn: seq<Dyn>): nat {
    if q == [] then 0
    else
      var e := EntryOf(q[|q| - 1], iq);
      PortsOf(q[..|q| - 1], cycle, iq, code, dyn) + (if e.Some? then PortsNeeded(e.value, cycle, code, dyn) else 0)
  }

  /** The queues that the uops in `q` come from. */
  function QueuesOf(q: seq<nat>, iq: seq<IqEntry>): set<PhysIq> {
    set x | x in q && EntryOf(x, iq).Some? :: EntryOf(x, iq).value.physIq
  }

  /** Entries found by sequence number keep everything but the in-flight mark. */
  lemma MarksKeep(a: seq<IqEntry>, b: seq<IqEntry>, x: nat, cycle: nat, code: seq<Uop>, dyn: seq<Dyn>)
    requires OnlyMarks(a, b)
    ensures EntryOf(x, a).Some? <==> EntryOf(x, b).Some?
    ensures EntryOf(x, a).Some? ==> var e, f := EntryOf(x, a).value, EntryOf(x, b).value;
      e.physIq == f.physIq && PortsNeeded(e, cycle, code, dyn) == PortsNeeded(f, cycle, code, dyn)
  {
    assert SeqNos(a) == SeqNos(b);
    PositionFromSeqNos(a, b, x);
  }

  /** What the arbiter has used is what it has admitted. */
  ghost predicate Accounted(a: Arbiter, cycle: nat, iq: seq<IqEntry>, code: seq<Uop>, dyn: seq<Dyn>) {
    && OnlyMarks(iq, a.iq) && a.usedPorts <= READ_PORTS
    && a.usedPorts == PortsOf(a.admitted, cycle, iq, code, dyn) && a.usedQueues == QueuesOf(a.admitted, iq)
    && (forall i :: 0 <= i < |a.admitted| ==> EntryOf(a.admitted[i], iq).Some?)
    && (forall i, j :: 0 <= i < j < |a.admitted| ==>
          EntryOf(a.admitted[i], iq).value.physIq != EntryOf(a.admitted[j], iq).value.physIq)
  }

  /** The uops in `q` leave the queue of `x` and the ports it needs. */
  ghost predicate Admissible(x: nat, q: seq<nat>, cycle: nat, iq: seq<IqEntry>, code: seq<Uop>, dyn: seq<Dyn>) {
    var e := EntryOf(x, iq);
    && e.Some? && e.value.physIq !in QueuesOf(q, iq)
    && PortsOf(q, cycle, iq, code, dyn) + PortsNeeded(e.value, cycle, code, dyn) <= READ_PORTS
  }

  /** One attempt: admitted exactly when the older admitted ones leave its queue and enough ports;
      otherwise returned to the issue queue. */
  lemma AttemptRule(x: nat, cycle: nat, a: Arbiter, iq: seq<IqEntry>, code: seq<Uop>, dyn: seq<Dyn>)
    requires Accounted(a, cycle, iq, code, dyn)
    ensures var r := ArbitrateOne(x, cycle, a, code, dyn);
      && (if Admissible(x, a.admitted, cycle, iq, code, dyn) then r.admitted == a.admitted + [x] && r.iq == a.iq
          else r.admitted == a.admitted && r.usedPorts == a.usedPorts && r.usedQueues == a.usedQueues
               && (EntryOf(x, r.iq).Some? ==> !EntryOf(x, r.iq).value.inflight))
      && OnlyMarks(a.iq, r.iq)
  {
    var r := ArbitrateOne(x, cycle, a, code, dyn);
    MarksKeep(iq, a.iq, x, cycle, code, dyn);
    if !Admissible(x, a.admitted, cycle, iq, code, dyn) && EntryOf(x, a.iq).Some? {
      assert SeqNos(r.iq) == SeqNos(a.iq);
      PositionFromSeqNos(a.iq, r.iq, x);
    }
  }

  lemma AttemptAccounted(x: nat, cycle: nat, a: Arbiter, iq: seq<IqEntry>, code: seq<Uop>, dyn: seq<Dyn>)
    requires Accounted(a, cycle, iq, code, dyn)
    ensures Accounted(ArbitrateOne(x, cycle, a, code, dyn), cycle, iq, code, dyn)
  {
    AttemptRule(x, cycle, a, iq, code, dyn);
    if Admissible(x, a.admitted, cycle, iq, code, dyn) {
      MarksKeep(iq, a.iq, x, cycle, code, dyn);
      AdmitOne(x, a.admitted, cycle, iq, code, dyn);
    }
  }

  lemma AdmitOne(x: nat, q: seq<nat>, cycle: nat, iq: seq<IqEntry>, code: seq<Uop>, dyn: seq<Dyn>)
    requires EntryOf(x, iq).Some? && EntryOf(x, iq).value.physIq !in QueuesOf(q, iq)
    requires forall i :: 0 <= i < |q| ==> EntryOf(q[i], iq).Some?
    ensures PortsOf(q + [x], cycle, iq, code, dyn)
        == PortsOf(q, cycle, iq, code, dyn) + PortsNeeded(EntryOf(x, iq).value, cycle, code, dyn)
    ensures QueuesOf(q + [x], iq) == QueuesOf(q, iq) + {EntryOf(x, iq).value.physIq}
    ensures forall i :: 0 <= i < |q| ==> EntryOf(q[i], iq).value.physIq != EntryOf(x, iq).value.physIq
  {
    assert (q + [x])[..|q|] == q;
    forall i | 0 <= i < |q| ensures EntryOf(q[i], iq).value.physIq in QueuesOf(q, iq) { assert q[i] in q; }
  }

  predicate Distinct(q: seq<Keyed>) { forall i, j :: 0 <= i < j < |q| ==> q[i].seqNo != q[j].seqNo }

  /** All in all at most three read ports are used and at most one uop per queue is admitted. */
  lemma {:induction false} LoopAccounted(attempts: seq<Keyed>, cycle: nat, a: Arbiter, iq: seq<IqEntry>,
                                         code: seq<Uop>, dyn: seq<Dyn>)
    requires Accounted(a, cycle, iq, code, dyn)
    ensures Accounted(ArbitrateLoop(attempts, cycle, a, code, dyn), cycle, iq, code, dyn)
    decreases |attempts|
  {
    if attempts != [] {
      AttemptAccounted(attempts[0].seqNo, cycle, a, iq, code, dyn);
      LoopAccounted(attempts[1..], cycle, ArbitrateOne(attempts[0].seqNo, cycle, a, code, dyn), iq, code, dyn);
    }
  }

  lemma OtherMark(y: nat, cycle: nat, a: Arbiter, code: seq<Uop>, dyn: seq<Dyn>, x: nat)
    requires x != y
    ensures var r := ArbitrateOne(y, cycle, a, code, dyn);
      EntryOf(x, r.iq) == EntryOf(x, a.iq) && (x in r.admitted <==> x in a.admitted)
  {
    var r := ArbitrateOne(y, cycle, a, code, dyn);
    assert SeqNos(r.iq) == SeqNos(a.iq);
    PositionFromSeqNos(a.iq, r.iq, x);
  }

  /** Attempts neither admit nor mark a uop that is not among them. */
  lemma {:induction false} LoopOthers(attempts: seq<Keyed>, cycle: nat, a: Arbiter, code: seq<Uop>, dyn: seq<Dyn>,
                                      x: nat)
    requires forall j :: 0 <= j < |attempts| ==> attempts[j].seqNo != x
    ensures var r := ArbitrateLoop(attempts, cycle, a, code, dyn);
      EntryOf(x, r.iq) == EntryOf(x, a.iq) && (x in r.admitted <==> x in a.admitted)
    decreases |attempts|
  {
    if attempts != [] {
      OtherMark(attempts[0].seqNo, cycle, a, code, dyn, x);
      LoopOthers(attempts[1..], cycle, ArbitrateOne(attempts[0].seqNo, cycle, a, code, dyn), code, dyn, x);
    }
  }

  lemma {:induction false} LoopSplits(attempts: seq<Keyed>, k: nat, cycle: nat, a: Arbiter, code: seq<Uop>,
                                      dyn: seq<Dyn>)
    requires k <= |attempts|
    ensures ArbitrateLoop(attempts, cycle, a, code, dyn)
         == ArbitrateLoop(attempts[k..], cycle, ArbitrateLoop(attempts[..k], cycle, a, code, dyn), code, dyn)
    decreases k
  {
    if k > 0 {
      assert attempts[..k][1..] == attempts[1..][..k - 1] && attempts[k..] == attempts[1..][k - 1..];
      LoopSplits(attempts[1..], k - 1, cycle, ArbitrateOne(attempts[0].seqNo, cycle, a, code, dyn), code, dyn);
    }
  }

  /** Arbitration as a rule over the attempts in age order: the `k`-th is admitted iff the older
      admitted ones took neither its queue nor the ports it needs, and is otherwise returned to the
      issue queue. */
  lemma ArbitrationRule(attempts: seq<Keyed>, cycle: nat, iq: seq<IqEntry>, code: seq<Uop>, dyn: seq<Dyn>, k: nat)
    requires k < |attempts| && Distinct(attempts)
    ensures var start := Arbiter(iq, [], 0, {});
      var before, r, x := ArbitrateLoop(attempts[..k], cycle, start, code, dyn),
          ArbitrateLoop(attempts, cycle, start, code, dyn), attempts[k].seqNo;
      && (x in r.admitted <==> Admissible(x, before.admitted, cycle, iq, code, dyn))
      && (x !in r.admitted && EntryOf(x, r.iq).Some? ==> !EntryOf(x, r.iq).value.inflight)
  {
    var start := Arbiter(iq, [], 0, {});
    var before, x := ArbitrateLoop(attempts[..k], cycle, start, code, dyn), attempts[k].seqNo;
    LoopSplits(attempts, k, cycle, start, code, dyn);
    LoopAccounted(attempts[..k], cycle, start, iq, code, dyn);
    LoopOthers(attempts[..k], cycle, start, code, dyn, x);
    AttemptRule(x, cycle, before, iq, code, dyn);
    assert attempts[k..][0] == attempts[k] && attempts[k..][1..] == attempts[k + 1..];
    LoopOthers(attempts[k + 1..], cycle, ArbitrateOne(x, cycle, before, code, dyn), code, dyn, x);
  }

  lemma {:induction false} KnTwo(q: seq<Keyed>, i: nat, j: nat)
    requires i < j < |q| && q[i].seqNo == q[j].seqNo
    ensures KN(q, q[i].seqNo) >= 2
  {
    if i == 0 {
      assert q[1..][j - 1] == q[j];
      KnMember(q[1..], q[j]);
    } else {
      assert q[1..][i - 1] == q[i] && q[1..][j - 1] == q[j];
      KnTwo(q[1..], i - 1, j - 1);
    }
  }

  /** The attempts of a cycle are the occupants of P1, each once and in the issue queue, oldest
      first. */
  lemma AttemptsByAge(code: seq<Uop>, s: State)
    requires AliveState(code, s)
    ensures var q := SortKeyed(Attempts(s.sel.p1, s.rt.rob));
      && Distinct(q) && (forall x: nat :: KN(q, x) == N(s.sel.p1, x))
      && (forall i, j :: 0 <= i < j < |q| ==> RobRank(q[i].seqNo, s.rt.rob) <= RobRank(q[j].seqNo, s.rt.rob))
      && (forall i :: 0 <= i < |q| ==> EntryOf(q[i].seqNo, s.q.iq).Some?)
  {
    var raw := Attempts(s.sel.p1, s.rt.rob);
    var q := SortKeyed(raw);
    SortFacts(raw);
    forall x: nat ensures KN(q, x) == N(s.sel.p1, x) && KN(q, x) <= Flight(s.q.iq, x) {
      AttemptsCount(s.sel.p1, s.rt.rob, raw, x);
      assert N(s.sel.p1, x) + N(s.sel.i1, x) == Flight(s.q.iq, x);
    }
    forall i, j | 0 <= i < j < |q| ensures q[i].seqNo != q[j].seqNo {
      if q[i].seqNo == q[j].seqNo { KnTwo(q, i, j); }
    }
    forall i | 0 <= i < |q| ensures q[i] in raw && EntryOf(q[i].seqNo, s.q.iq).Some? {
      assert q[i] in q;
      KnMember(q, q[i]);
    }
    forall i, j | 0 <= i < j < |q| ensures RobRank(q[i].seqNo, s.rt.rob) <= RobRank(q[j].seqNo, s.rt.rob) {
      assert KeyLe(q[i], q[j]) && q[i] in raw && q[j] in raw;
    }
  }

  /** The oldest attempt is always admitted: it finds every queue and all three ports free. */
  lemma OldestIsAdmitted(attempts: seq<Keyed>, cycle: nat, iq: seq<IqEntry>, code: seq<Uop>, dyn: seq<Dyn>)
    requires attempts != [] && Distinct(attempts) && EntryOf(attempts[0].seqNo, iq).Some?
    ensures var r := ArbitrateLoop(attempts, cycle, Arbiter(iq, [], 0, {}), code, dyn);
      attempts[0].seqNo in r.admitted && r.usedPorts <= READ_PORTS
  {
    var a := Arbiter(iq, [], 0, {});
    ArbitrationRule(attempts, cycle, iq, code, dyn, 0);
    LoopAccounted(attempts, cycle, a, iq, code, dyn);
    assert attempts[..0] == [];
  }
}
