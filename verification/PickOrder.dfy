/** On coherent runs the age that selection compares is program order: every queue picks the ready
    entry with the least sequence number. */
module PickOrder {
  import opened Seqs
  import opened Model
  import opened Select
  import opened Commit
  import opened Residency
  import opened Alive
  import opened Runs
  import opened Conserve
  import opened CommitOrder
  import opened CoherentRuns
  import opened CoherentLaws
  import opened Arbitration

  /** The state from which cycle `k` of a coherent run picks. */
  ghost predicate PicksFrom(k: nat, run: seq<State>, opts: Options, inputs: nat -> Input, code: seq<Uop>, s: State) {
    && CoherentRun(run, opts, inputs, code) && k < |run| && !run[k].rt.halted
    && s == BeforePick(k, opts, code, Committed(k, inputs(k), code, run[k]))
  }

  lemma PickState(k: nat, run: seq<State>, opts: Options, inputs: nat -> Input, code: seq<Uop>, s: State)
    requires PicksFrom(k, run, opts, inputs, code, s)
    ensures AliveState(code, s) && Exact(s) && CommitInv(code, s)
  {
    var c := Committed(k, inputs(k), code, run[k]);
    CommittedState(k, run, opts, inputs, code, c);
    BeforePickCoherent(k, opts, code, c);
  }

  lemma CommittedState(k: nat, run: seq<State>, opts: Options, inputs: nat -> Input, code: seq<Uop>, c: State)
    requires CoherentRun(run, opts, inputs, code) && k < |run| && !run[k].rt.halted
      && c == Committed(k, inputs(k), code, run[k])
    ensures CoherentMid(k, opts, code, c)
  {
    CoherentRunSatisfies(k, run, opts, inputs, code);
    assert CoherentCycle(k, run, inputs, code);
    FirstHalfCoherent(k, opts, inputs(k), code, run[k]);
  }

  /** A queued uop is in the reorder buffer, and its age is its distance from the oldest unretired. */
  lemma AgeIsOrder(code: seq<Uop>, s: State, i: nat)
    requires AliveState(code, s) && Exact(s) && CommitInv(code, s) && i < |s.q.iq|
    ensures |s.rt.retired| <= s.q.iq[i].seqNo && Age(i, s) == s.q.iq[i].seqNo - |s.rt.retired|
  {
    var x := s.q.iq[i].seqNo;
    CountMember(SeqNos(s.q.iq), x);
    assert SeqNos(s.q.iq)[i] == x;
    assert Copies(s, x) == Pend(s.fe.nextFetch, s.dyn, x);
    assert |s.rt.retired| <= x;
    DoneInRob(code, s, x);
  }

  lemma OneEntryEach(code: seq<Uop>, s: State, a: nat, b: nat)
    requires Exact(s) && a < |s.q.iq| && b < |s.q.iq| && s.q.iq[a].seqNo == s.q.iq[b].seqNo
    ensures a == b
  {
    var x := s.q.iq[a].seqNo;
    assert Copies(s, x) == Pend(s.fe.nextFetch, s.dyn, x);
    if a < b { CountTwo(SeqNos(s.q.iq), a, b); }
    if b < a { CountTwo(SeqNos(s.q.iq), b, a); }
  }

  /** The picked entry is the first of its queue in program order among the ready ones. */
  lemma PickedIsFirst(k: nat, run: seq<State>, opts: Options, inputs: nat -> Input, code: seq<Uop>, s: State, a: nat,
                      b: nat)
    requires PicksFrom(k, run, opts, inputs, code, s)
    requires Picked(a, k, code, s) && Ready(b, k, code, s) && s.q.iq[a].physIq == s.q.iq[b].physIq && a != b
    ensures s.q.iq[a].seqNo < s.q.iq[b].seqNo
  {
    PickState(k, run, opts, inputs, code, s);
    PickedIsOldest(a, b, k, code, s);
    Ordered(code, s, a, b);
  }

  lemma Ordered(code: seq<Uop>, s: State, a: nat, b: nat)
    requires AliveState(code, s) && Exact(s) && CommitInv(code, s) && a < |s.q.iq| && b < |s.q.iq| && a != b
      && Age(a, s) <= Age(b, s)
    ensures s.q.iq[a].seqNo < s.q.iq[b].seqNo
  {
    AgeIsOrder(code, s, a);
    AgeIsOrder(code, s, b);
    if s.q.iq[a].seqNo == s.q.iq[b].seqNo { OneEntryEach(code, s, a, b); }
  }

  /** A ready entry is passed over only for an earlier uop of its own queue, or because P1 is full and
      everything picked is earlier. */
  lemma PassedOverForEarlier(k: nat, run: seq<State>, opts: Options, inputs: nat -> Input, code: seq<Uop>, s: State,
                             b: nat)
    requires PicksFrom(k, run, opts, inputs, code, s) && Ready(b, k, code, s) && !Picked(b, k, code, s)
    ensures (exists c: nat ::
               Picked(c, k, code, s) && s.q.iq[c].physIq == s.q.iq[b].physIq && s.q.iq[c].seqNo < s.q.iq[b].seqNo)
         || (|PickFromIq(k, code, s).sel.p1| >= ISSUE_WIDTH
             && forall c: nat :: Picked(c, k, code, s) ==> s.q.iq[c].seqNo < s.q.iq[b].seqNo)
  {
    PickState(k, run, opts, inputs, code, s);
    PassedOverForOlder(b, k, code, s);
    forall c: nat | Picked(c, k, code, s) && Age(c, s) <= Age(b, s) ensures s.q.iq[c].seqNo < s.q.iq[b].seqNo {
      Ordered(code, s, c, b);
    }
  }
}
