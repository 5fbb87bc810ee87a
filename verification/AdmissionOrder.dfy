/** Read-port arbitration over whole runs: which occupants of P1 each cycle admits to I1, said without
    the loop that decides it. */
module AdmissionOrder {
  import opened Wrappers
  import opened Seqs
  import opened Model
  import opened Select
  import opened SelectFacts
  import opened Commit
  import opened Alive
  import opened WellFormed
  import opened Runs
  import opened Dataflow
  import opened Conserve
  import opened CommitOrder
  import opened CoherentRuns
  import opened Arbitration
  import opened PickOrder

  // -- The loop admits in the order of the attempts -----------------------------------------------

  lemma {:induction false} LoopAppends(attempts: seq<Keyed>, cycle: nat, a: Arbiter, code: seq<Uop>, dyn: seq<Dyn>)
      returns (d: seq<nat>)
    ensures ArbitrateLoop(attempts, cycle, a, code, dyn).admitted == a.admitted + d
    ensures forall i :: 0 <= i < |d| ==> exists j :: 0 <= j < |attempts| && attempts[j].seqNo == d[i]
    decreases |attempts|
  {
    if attempts == [] {
      d := [];
    } else {
      var x := attempts[0].seqNo;
      var b := ArbitrateOne(x, cycle, a, code, dyn);
      var rest := LoopAppends(attempts[1..], cycle, b, code, dyn);
      d := b.admitted[|a.admitted|..] + rest;
      forall i | 0 <= i < |d| ensures exists j :: 0 <= j < |attempts| && attempts[j].seqNo == d[i] {
        if i < |d| - |rest| {
          assert attempts[0].seqNo == d[i];
        } else {
          var j :| 0 <= j < |attempts[1..]| && attempts[1..][j].seqNo == rest[i - (|d| - |rest|)];
          assert attempts[j + 1].seqNo == d[i];
        }
      }
    }
  }

  lemma {:induction false} RetainConcat<T>(a: seq<T>, b: seq<T>, keep: T -> bool)
    ensures Retain(a + b, keep) == Retain(a, keep) + Retain(b, keep)
  {
    if a == [] {
      assert a + b == b;
    } else {
      var both := a + b;
      assert both[0] == a[0] && both[1..] == a[1..] + b;
      RetainConcat(a[1..], b, keep);
      var head, mid, last := if keep(a[0]) then [a[0]] else [], Retain(a[1..], keep), Retain(b, keep);
      assert Retain(a, keep) == head + mid;
      assert head + (mid + last) == (head + mid) + last;
    }
  }

  /** What the first `k` attempts admit is what all of them admit, cut down to those `k`. */
  lemma AdmittedOfFirst(attempts: seq<Keyed>, cycle: nat, a: Arbiter, code: seq<Uop>, dyn: seq<Dyn>, k: nat,
                        first: nat -> bool)
    requires k <= |attempts| && a.admitted == []
    requires forall j :: 0 <= j < |attempts| ==> (first(attempts[j].seqNo) <==> j < k)
    ensures ArbitrateLoop(attempts[..k], cycle, a, code, dyn).admitted
         == Retain(ArbitrateLoop(attempts, cycle, a, code, dyn).admitted, first)
  {
    var b := ArbitrateLoop(attempts[..k], cycle, a, code, dyn);
    var early := LoopAppends(attempts[..k], cycle, a, code, dyn);
    LoopSplits(attempts, k, cycle, a, code, dyn);
    var late := LoopAppends(attempts[k..], cycle, b, code, dyn);
    forall i | 0 <= i < |early| ensures first(early[i]) {
      var j :| 0 <= j < |attempts[..k]| && attempts[..k][j].seqNo == early[i];
      assert attempts[j].seqNo == early[i];
    }
    forall i | 0 <= i < |late| ensures !first(late[i]) {
      var j :| 0 <= j < |attempts[k..]| && attempts[k..][j].seqNo == late[i];
      assert attempts[k + j].seqNo == late[i];
    }
    RetainConcat(early, late, first);
    RetainAll(early, first);
    RetainNone(late, first);
    assert early + [] == early && [] + early == early;
  }

  // -- Every run ----------------------------------------------------------------------------------

  /** The state whose P1 occupants cycle `k` of a run arbitrates. */
  ghost predicate ArbitratesFrom(k: nat, run: seq<State>, opts: Options, inputs: nat -> Input, code: seq<Uop>,
                                 s: State) {
    && WellFormedCode(code) && IsRun(run, opts, inputs, code) && k < |run| && !run[k].rt.halted
    && s == BeforeArbitrate(k, opts, code, Committed(k, inputs(k), code, run[k]))
  }

  function Outcome(k: nat, code: seq<Uop>, s: State): Arbiter {
    Arbitrate(k, code, s.sel.p1, s.q.iq, s.dyn, s.rt.rob)
  }

  function Order(s: State): seq<Keyed> { SortKeyed(Attempts(s.sel.p1, s.rt.rob)) }

  /** The uops attempted before attempt number `i`. */
  function Earlier(q: seq<Keyed>, i: nat): nat -> bool
    requires i <= |q|
  {
    y => exists j :: 0 <= j < i && q[j].seqNo == y
  }

  /** Uop `x` is admitted iff the admitted ones among `earlier` leave its queue and the ports it needs;
      otherwise it goes back to the issue queue. */
  ghost predicate Decided(x: nat, earlier: nat -> bool, k: nat, code: seq<Uop>, s: State) {
    var a := Outcome(k, code, s);
    && (x in a.admitted <==> Admissible(x, Retain(a.admitted, earlier), k, s.q.iq, code, s.dyn))
    && (x !in a.admitted && EntryOf(x, a.iq).Some? ==> !EntryOf(x, a.iq).value.inflight)
  }

  /** The attempts are the occupants of P1, each once, by age; what is admitted uses at most three ports
      and each queue once; the first attempt is admitted, and each of them iff the admitted earlier ones
      leave its queue and the ports it needs. */
  ghost predicate Arbitrated(k: nat, code: seq<Uop>, s: State) {
    && Distinct(Order(s)) && (forall x: nat :: KN(Order(s), x) == N(s.sel.p1, x))
    && (forall i, j :: 0 <= i < j < |Order(s)| ==>
          RobRank(Order(s)[i].seqNo, s.rt.rob) <= RobRank(Order(s)[j].seqNo, s.rt.rob))
    && Accounted(Outcome(k, code, s), k, s.q.iq, code, s.dyn)
    && (Order(s) != [] ==> Order(s)[0].seqNo in Outcome(k, code, s).admitted)
    && (forall i :: 0 <= i < |Order(s)| ==> Decided(Order(s)[i].seqNo, Earlier(Order(s), i), k, code, s))
  }

  lemma ArbitrateState(k: nat, run: seq<State>, opts: Options, inputs: nat -> Input, code: seq<Uop>, s: State)
    requires ArbitratesFrom(k, run, opts, inputs, code, s)
    ensures AliveState(code, s)
  {
    RunSatisfies(k, run, opts, inputs, code);
    MidAtCommit(k, opts, inputs(k), code, run[k]);
    BeforeArbitrateInv(k, opts, code, Committed(k, inputs(k), code, run[k]));
  }

  lemma EarlierExact(q: seq<Keyed>, i: nat)
    requires Distinct(q) && i <= |q|
    ensures forall j :: 0 <= j < |q| ==> (Earlier(q, i)(q[j].seqNo) <==> j < i)
  {
  }

  lemma ArbitratedFrom(k: nat, code: seq<Uop>, s: State)
    requires AliveState(code, s)
    ensures Arbitrated(k, code, s)
  {
    AttemptsByAge(code, s);
    LoopAccounted(Order(s), k, Arbiter(s.q.iq, [], 0, {}), s.q.iq, code, s.dyn);
    if Order(s) != [] { OldestIsAdmitted(Order(s), k, s.q.iq, code, s.dyn); }
    forall i | 0 <= i < |Order(s)| ensures Decided(Order(s)[i].seqNo, Earlier(Order(s), i), k, code, s) {
      EarlierExact(Order(s), i);
      DecidedFrom(k, code, s, i, Earlier(Order(s), i));
    }
  }

  lemma DecidedFrom(k: nat, code: seq<Uop>, s: State, i: nat, earlier: nat -> bool)
    requires AliveState(code, s) && i < |Order(s)|
    requires forall j :: 0 <= j < |Order(s)| ==> (earlier(Order(s)[j].seqNo) <==> j < i)
    ensures Decided(Order(s)[i].seqNo, earlier, k, code, s)
  {
    AttemptsByAge(code, s);
    ArbitrationRule(Order(s), k, s.q.iq, code, s.dyn, i);
    AdmittedOfFirst(Order(s), k, Arbiter(s.q.iq, [], 0, {}), code, s.dyn, i, earlier);
  }

  /** In every cycle of every run. */
  lemma ArbitrationOnRuns(k: nat, run: seq<State>, opts: Options, inputs: nat -> Input, code: seq<Uop>, s: State)
    requires ArbitratesFrom(k, run, opts, inputs, code, s)
    ensures Arbitrated(k, code, s)
  {
    ArbitrateState(k, run, opts, inputs, code, s);
    ArbitratedFrom(k, code, s);
  }

  // -- Every coherent run -------------------------------------------------------------------------

  lemma OrderIsProgramOrder(code: seq<Uop>, s: State, i: nat, j: nat)
    requires AliveState(code, s) && Exact(s) && CommitInv(code, s) && i < j < |Order(s)|
    ensures Order(s)[i].seqNo < Order(s)[j].seqNo
  {
    AttemptsByAge(code, s);
    RankIsOrder(code, s, Order(s)[i].seqNo);
    RankIsOrder(code, s, Order(s)[j].seqNo);
  }

  lemma RankIsOrder(code: seq<Uop>, s: State, x: nat)
    requires AliveState(code, s) && Exact(s) && CommitInv(code, s) && EntryOf(x, s.q.iq).Some?
    ensures |s.rt.retired| <= x && RobRank(x, s.rt.rob) == x - |s.rt.retired|
  {
    var i := FindEntry(s.q.iq, x).value;
    AgeIsOrder(code, s, i);
  }

  /** In every cycle of every coherent run an occupant of P1 is admitted iff the admitted ones with
      smaller sequence numbers leave its queue and the ports it needs. */
  lemma AdmittedInOrder(k: nat, run: seq<State>, opts: Options, inputs: nat -> Input, code: seq<Uop>, s: State,
                        x: nat)
    requires ArbitratesFrom(k, run, opts, inputs, code, s) && IsCoherent(run, inputs, code) && x in s.sel.p1
    ensures Decided(x, y => y < x, k, code, s)
  {
    CommittedState(k, run, opts, inputs, code, Committed(k, inputs(k), code, run[k]));
    BeforeArbitrateCoherent(k, opts, code, Committed(k, inputs(k), code, run[k]));
    DecidedInOrder(k, code, s, x);
  }

  lemma DecidedInOrder(k: nat, code: seq<Uop>, s: State, x: nat)
    requires AliveState(code, s) && Exact(s) && CommitInv(code, s) && x in s.sel.p1
    ensures Decided(x, y => y < x, k, code, s)
  {
    AttemptsByAge(code, s);
    CountMember(s.sel.p1, x);
    var i := KeyedPosition(Order(s), x);
    forall j | 0 <= j < |Order(s)| ensures Order(s)[j].seqNo < x <==> j < i {
      if j < i { OrderIsProgramOrder(code, s, j, i); }
      if i < j { OrderIsProgramOrder(code, s, i, j); }
    }
    DecidedFrom(k, code, s, i, y => y < x);
  }

  lemma {:induction false} KeyedPosition(q: seq<Keyed>, x: nat) returns (i: nat)
    requires KN(q, x) > 0
    ensures i < |q| && q[i].seqNo == x
  {
    if q[0].seqNo == x {
      i := 0;
    } else {
      var j := KeyedPosition(q[1..], x);
      i := j + 1;
    }
  }
}
