/** Conservation on coherent runs: every fetched, unretired uop is in exactly one place or done. */
module Conserve {
  import opened Wrappers
  import opened Seqs
  import opened Model
  import opened Select
  import opened Lsu
  import opened Frontend
  import opened Recovery
  import opened Commit
  import opened Residency
  import opened Alive
  import opened Timing
  import opened StageSteps
  import opened Runs

  /** 1 when `x` has been fetched and has not completed. */
  function Pend(nextFetch: nat, dyn: seq<Dyn>, x: nat): nat {
    if x < nextFetch && DynAt(dyn, x).done.None? then 1 else 0
  }

  /** Every fetched uop that has not completed is in exactly one place; all others are in none. */
  ghost predicate Exact(s: State) { forall x: nat :: Copies(s, x) == Pend(s.fe.nextFetch, s.dyn, x) }

  /** The same after tagging, when the occupants of W2 are already marked done. */
  ghost predicate ExactMid(s: State) { forall x: nat :: Copies(s, x) == Pend(s.fe.nextFetch, s.dyn, x) + N(s.ex.w2, x) }

  ghost predicate Untouched(s: State) { forall x: nat :: x >= s.fe.nextFetch ==> DynAt(s.dyn, x) == FRESH }

  /** A W1 stamp belongs to a uop in writeback or done. */
  ghost predicate WrittenBack(s: State) {
    forall x: nat :: DynAt(s.dyn, x).w1.Some? ==> DynAt(s.dyn, x).done.Some? || N(s.ex.w1, x) + N(s.ex.w2, x) > 0
  }

  ghost predicate FrontUntagged(s: State) {
    forall x: nat :: FrontN(s.fe.front, x) > 0 ==> DynAt(s.dyn, x).dstQtag.None?
  }

  predicate NotBefore(cycle: nat, d: Dyn) { !Timing.Earlier(d.w1, cycle) && !Timing.Earlier(d.done, cycle) }

  /** A redirecting uop not resolved before this cycle is the youngest one fetched. */
  ghost predicate Barrier(cycle: nat, code: seq<Uop>, s: State) {
    forall b: nat :: b < s.fe.nextFetch && UopAt(code, b).redirectTarget.Some? && NotBefore(cycle, DynAt(s.dyn, b)) ==>
      b + 1 == s.fe.nextFetch
  }

  /** A pending flush finds nothing younger, and fetch restarts where it stopped. */
  predicate FlushDue(fe: Fetch) {
    fe.pendingFlush.Some? && fe.redirect.Some? ==>
      fe.nextFetch == fe.pendingFlush.value.flushSeq + 1 && fe.redirect.value.restartSeq == fe.nextFetch
  }

  ghost predicate ConserveInv(cycle: nat, code: seq<Uop>, s: State) {
    Exact(s) && Untouched(s) && WrittenBack(s) && FrontUntagged(s) && Barrier(cycle, code, s)
  }

  /** A W1 stamp of this very cycle belongs to an occupant of W1. */
  ghost predicate StampedNow(cycle: nat, s: State) {
    forall x: nat :: DynAt(s.dyn, x).w1 == Some(cycle) ==> N(s.ex.w1, x) > 0
  }

  ghost predicate ConserveMid(cycle: nat, code: seq<Uop>, s: State) {
    ExactMid(s) && Untouched(s) && WrittenBack(s) && FrontUntagged(s) && Barrier(cycle, code, s) && StampedNow(cycle, s)
  }

  // -- Restart ------------------------------------------------------------------------------------

  lemma FlushConserve(flush: Flush, cycle: nat, code: seq<Uop>, s: State)
    requires AliveState(code, s) && ConserveInv(cycle, code, s) && s.fe.nextFetch == flush.flushSeq + 1
    ensures var r := ApplyFlush(flush, code, s);
      ConserveInv(cycle, code, r) && r.fe.nextFetch == s.fe.nextFetch && r.dyn == s.dyn
  {
    var r := ApplyFlush(flush, code, s);
    forall x: nat
      ensures Copies(r, x) == Copies(s, x) && FrontN(r.fe.front, x) <= FrontN(s.fe.front, x)
      ensures x < s.fe.nextFetch ==> N(r.ex.w1, x) == N(s.ex.w1, x) && N(r.ex.w2, x) == N(s.ex.w2, x)
    {
      FlushCopies(flush, code, s, x);
      assert Copies(s, x) > 0 ==> x < s.fe.nextFetch;
      StageCountRetain(s.fe.front, flush.flushSeq, STAGES, x);
      UpToCount(s.ex.w1, flush.flushSeq, x);
      UpToCount(s.ex.w2, flush.flushSeq, x);
    }
    forall x: nat ensures Copies(r, x) == Pend(r.fe.nextFetch, r.dyn, x) {
      assert Copies(s, x) == Pend(s.fe.nextFetch, s.dyn, x);
    }
    forall x: nat | DynAt(r.dyn, x).w1.Some? ensures DynAt(r.dyn, x).done.Some? || N(r.ex.w1, x) + N(r.ex.w2, x) > 0 {
      assert x >= s.fe.nextFetch ==> DynAt(s.dyn, x) == FRESH;
    }
  }

  lemma {:induction false} FetchBarrierKept(cycle: nat, code: seq<Uop>, dyn: seq<Dyn>, fe: Fetch, b: nat)
    requires fe.nextFetch <= |code|
    requires forall x: nat :: x >= fe.nextFetch ==> DynAt(dyn, x) == FRESH
    requires forall x: nat :: x < fe.nextFetch && Unresolved(UopAt(code, x), DynAt(dyn, x)) ==> x + 1 == fe.nextFetch
    ensures var r := FetchLoop(code, dyn, fe);
      b < r.nextFetch && Unresolved(UopAt(code, b), DynAt(dyn, b)) ==> b + 1 == r.nextFetch
    decreases |code| - fe.nextFetch
  {
    if |fe.front[0]| >= FETCH_WIDTH || fe.nextFetch >= |code| || FetchBarrier(fe.nextFetch, code, dyn) {
    } else if code[fe.nextFetch].redirectTarget.None? {
      FetchBarrierKept(cycle, code, dyn,
          fe.(front := fe.front[0 := fe.front[0] + [fe.nextFetch]], nextFetch := fe.nextFetch + 1), b);
    }
  }

  lemma UnresolvedNotBefore(cycle: nat, opts: Options, u: Uop, d: Dyn)
    requires TimeOk(cycle, opts, u, d)
    ensures NotBefore(cycle, d) <==> d.w1.None? && d.done.None?
  {
  }

  lemma FetchConserve(cycle: nat, opts: Options, code: seq<Uop>, s: State, fe: Fetch)
    requires fe.front == s.fe.front && fe.nextFetch == s.fe.nextFetch <= |code| && AllTimeOk(cycle, opts, code, s.dyn)
    requires ConserveInv(cycle, code, s)
    ensures ConserveInv(cycle, code, s.(fe := FetchLoop(code, s.dyn, fe)))
  {
    var r := s.(fe := FetchLoop(code, s.dyn, fe));
    forall x: nat
      ensures Copies(r, x) == Pend(r.fe.nextFetch, r.dyn, x)
      ensures FrontN(r.fe.front, x) > 0 ==> DynAt(r.dyn, x).dstQtag.None?
      ensures x >= r.fe.nextFetch ==> DynAt(r.dyn, x) == FRESH
    {
      FetchCopies(code, s.dyn, fe, x);
      assert Copies(s, x) == Pend(s.fe.nextFetch, s.dyn, x);
      assert x >= s.fe.nextFetch ==> DynAt(s.dyn, x) == FRESH;
      assert FrontN(s.fe.front, x) > 0 ==> DynAt(s.dyn, x).dstQtag.None?;
    }
    forall x: nat ensures NotBefore(cycle, DynAt(s.dyn, x)) <==>
      DynAt(s.dyn, x).w1.None? && DynAt(s.dyn, x).done.None? {
      assert TimeOk(cycle, opts, UopAt(code, x), DynAt(s.dyn, x));
      UnresolvedNotBefore(cycle, opts, UopAt(code, x), DynAt(s.dyn, x));
    }
    forall b: nat | b < r.fe.nextFetch && UopAt(code, b).redirectTarget.Some?
      && NotBefore(cycle, DynAt(r.dyn, b)) ensures b + 1 == r.fe.nextFetch {
      FetchBarrierKept(cycle, code, s.dyn, fe, b);
    }
  }

  lemma RestartConserve(cycle: nat, opts: Options, code: seq<Uop>, s: State)
    requires RunInv(cycle, opts, code, s) && ConserveInv(cycle, code, s) && FlushDue(s.fe)
    ensures ConserveInv(cycle, code, FillFetch(cycle, code, ApplyPendingFlush(cycle, code, s)))
  {
    if s.fe.pendingFlush.None? {
      FetchConserve(cycle, opts, code, s, s.fe);
    } else {
      var flush := s.fe.pendingFlush.value;
      FlushConserve(flush, cycle, code, s);
      var t := ApplyFlush(flush, code, s);
      FetchConserve(cycle, opts, code, t, TakeRestart(t.fe));
    }
  }

  // -- Tagging ------------------------------------------------------------------------------------

  lemma TaggedStamps(x: nat, cycle: nat, code: seq<Uop>, ex: Exec, d: Dyn)
    ensures var r := Tagged(x, cycle, code, ex, d);
      && r.dstQtag == d.dstQtag
      && (r.w1 == d.w1 || (d.w1.None? && r.w1 == Some(cycle) && x in ex.w1))
      && (r.done == d.done || (d.done.None? && r.done == Some(cycle) && x in ex.w2))
      && (x in ex.w2 ==> r.done.Some?) && (x in ex.w1 ==> r.w1.Some?)
      && (x !in ex.e1 && x !in ex.e4 && x !in ex.w1 && x !in ex.w2 ==> r == d)
  {
  }

  lemma TagConserve(cycle: nat, opts: Options, code: seq<Uop>, s: State)
    requires AliveState(code, s) && ConserveInv(cycle, code, s) && AllTimeOk(cycle, opts, code, s.dyn)
    ensures ConserveMid(cycle, code, TagStageCycles(cycle, code, s))
  {
    var r := TagStageCycles(cycle, code, s);
    forall x: nat
      ensures Copies(r, x) == Pend(r.fe.nextFetch, r.dyn, x) + N(r.ex.w2, x)
      ensures x >= r.fe.nextFetch ==> DynAt(r.dyn, x) == FRESH
      ensures DynAt(r.dyn, x).w1.Some? ==> DynAt(r.dyn, x).done.Some? || N(r.ex.w1, x) + N(r.ex.w2, x) > 0
      ensures FrontN(r.fe.front, x) > 0 ==> DynAt(r.dyn, x).dstQtag.None?
      ensures DynAt(r.dyn, x).w1 == Some(cycle) ==> N(r.ex.w1, x) > 0
    {
      TagConserveAt(cycle, code, s, x);
      assert TimeOk(cycle, opts, UopAt(code, x), DynAt(s.dyn, x));
      CountMember(s.ex.w1, x);
      if x < |s.dyn| { TaggedStamps(x, cycle, code, s.ex, s.dyn[x]); }
    }
    forall b: nat | b < r.fe.nextFetch && UopAt(code, b).redirectTarget.Some?
      && NotBefore(cycle, DynAt(r.dyn, b)) ensures b + 1 == r.fe.nextFetch {
      if b < |s.dyn| { TaggedStamps(b, cycle, code, s.ex, s.dyn[b]); }
      assert NotBefore(cycle, DynAt(s.dyn, b));
    }
  }

  lemma TagConserveAt(cycle: nat, code: seq<Uop>, s: State, x: nat)
    requires AliveState(code, s) && ConserveInv(cycle, code, s)
    ensures var r := TagStageCycles(cycle, code, s);
      && Copies(r, x) == Pend(r.fe.nextFetch, r.dyn, x) + N(r.ex.w2, x)
      && (x >= r.fe.nextFetch ==> DynAt(r.dyn, x) == FRESH)
      && (DynAt(r.dyn, x).w1.Some? ==> DynAt(r.dyn, x).done.Some? || N(r.ex.w1, x) + N(r.ex.w2, x) > 0)
      && (FrontN(r.fe.front, x) > 0 ==> DynAt(r.dyn, x).dstQtag.None?)
  {
    assert Copies(s, x) == Pend(s.fe.nextFetch, s.dyn, x);
    assert x >= s.fe.nextFetch ==> DynAt(s.dyn, x) == FRESH;
    assert DynAt(s.dyn, x).w1.Some? ==> DynAt(s.dyn, x).done.Some? || N(s.ex.w1, x) + N(s.ex.w2, x) > 0;
    assert FrontN(s.fe.front, x) > 0 ==> DynAt(s.dyn, x).dstQtag.None?;
    CountMember(s.ex.e1, x);
    CountMember(s.ex.e4, x);
    CountMember(s.ex.w1, x);
    CountMember(s.ex.w2, x);
    if x < |s.dyn| { TaggedStamps(x, cycle, code, s.ex, s.dyn[x]); }
  }

  /** Steps that move no uop and touch no uop field. */
  lemma ConserveFrame(cycle: nat, code: seq<Uop>, s: State, r: State)
    requires ConserveMid(cycle, code, s) && r.dyn == s.dyn && r.fe.front == s.fe.front
      && r.fe.nextFetch == s.fe.nextFetch && r.ex == s.ex
    requires forall x: nat :: Copies(r, x) == Copies(s, x)
    ensures ConserveMid(cycle, code, r)
  {
    forall x: nat ensures Copies(r, x) == Pend(r.fe.nextFetch, r.dyn, x) + N(r.ex.w2, x) {
      assert Copies(s, x) == Pend(s.fe.nextFetch, s.dyn, x) + N(s.ex.w2, x);
    }
  }

  lemma MiddleConserve(cycle: nat, opts: Options, input: Input, code: seq<Uop>, s: State)
    requires AliveState(code, s) && ConserveInv(cycle, code, s) && AllTimeOk(cycle, opts, code, s.dyn)
    ensures ConserveMid(cycle, code, Middle(cycle, input, code, s))
  {
    var t := TagStageCycles(cycle, code, s);
    var r := Middle(cycle, input, code, s);
    TagConserve(cycle, opts, code, s);
    forall x: nat ensures Copies(r, x) == Copies(t, x) {
      UpdateIqFacts(cycle, code, t.q, t.dyn, x);
      ScbCopies(cycle, code, t.mem, x);
    }
    ConserveFrame(cycle, code, t, r);
  }

  lemma RetireConserve(cycle: nat, code: seq<Uop>, s: State)
    requires ConserveMid(cycle, code, s)
    ensures ConserveMid(cycle, code, RetireReady(cycle, code, s))
  {
    var r := RetireReady(cycle, code, s);
    forall x: nat ensures Copies(r, x) == Copies(s, x) {}
    ConserveFrame(cycle, code, s, r);
  }

  // -- Redirects ----------------------------------------------------------------------------------

  /** A coherent redirect: from a uop known to redirect, to the next uop of the stream. */
  predicate CoherentAt(cycle: nat, input: Input, code: seq<Uop>, s: State) {
    var next := ScheduledRedirect(cycle, input, code, s);
    next.Some? ==>
      UopAt(code, next.value.sourceSeq).redirectTarget.Some? && next.value.restartSeq == next.value.sourceSeq + 1
  }

  /** The source of a coherent redirect is the youngest uop fetched. */
  lemma ScheduleConserve(cycle: nat, input: Input, code: seq<Uop>, s: State)
    requires ConserveMid(cycle, code, s) && CoherentAt(cycle, input, code, s) && s.fe.pendingFlush.None?
      && s.fe.redirect.None?
    ensures var r := ScheduleRedirect(cycle, input, code, s); ConserveMid(cycle, code, r) && FlushDue(r.fe)
  {
    var r := ScheduleRedirect(cycle, input, code, s);
    var next := ScheduledRedirect(cycle, input, code, s);
    if next.Some? {
      var b := next.value.sourceSeq;
      assert b >= s.fe.nextFetch ==> DynAt(s.dyn, b) == FRESH;
      assert Copies(s, b) == Pend(s.fe.nextFetch, s.dyn, b) + N(s.ex.w2, b);
      ResolvedNow(cycle, code, s, b);
    }
    forall x: nat ensures Copies(r, x) == Copies(s, x) {}
    ConserveFrame(cycle, code, s, r);
  }

  lemma ResolvedNow(cycle: nat, code: seq<Uop>, s: State, b: nat)
    requires ConserveMid(cycle, code, s) && b < |code| && ResolveCycle(code[b], DynAt(s.dyn, b)) == Some(cycle)
    requires UopAt(code, b).redirectTarget.Some?
    ensures b + 1 == s.fe.nextFetch
  {
    assert b >= s.fe.nextFetch ==> DynAt(s.dyn, b) == FRESH;
    assert Copies(s, b) == Pend(s.fe.nextFetch, s.dyn, b) + N(s.ex.w2, b);
    assert DynAt(s.dyn, b).w1 == Some(cycle) ==> N(s.ex.w1, b) > 0;
  }

  // -- Back half ----------------------------------------------------------------------------------

  lemma ExecuteConserve(cycle: nat, opts: Options, code: seq<Uop>, s: State)
    requires AliveState(code, s) && ConserveMid(cycle, code, s) && Tagged1(code, s)
    ensures ConserveInv(cycle + 1, code, AdvanceExecute(cycle, opts, code, s))
  {
    var r := AdvanceExecute(cycle, opts, code, s);
    forall x: nat
      ensures Copies(r, x) == Pend(r.fe.nextFetch, r.dyn, x)
      ensures x >= r.fe.nextFetch ==> DynAt(r.dyn, x) == FRESH
      ensures DynAt(r.dyn, x).w1.Some? ==> DynAt(r.dyn, x).done.Some? || N(r.ex.w1, x) + N(r.ex.w2, x) > 0
      ensures FrontN(r.fe.front, x) > 0 ==> DynAt(r.dyn, x).dstQtag.None?
      ensures NotBefore(cycle + 1, DynAt(r.dyn, x)) ==> NotBefore(cycle, DynAt(s.dyn, x))
    {
      ExecuteConserveAt(cycle, opts, code, s, x);
    }
    forall b: nat | b < r.fe.nextFetch && UopAt(code, b).redirectTarget.Some?
      && NotBefore(cycle + 1, DynAt(r.dyn, b)) ensures b + 1 == r.fe.nextFetch {
      assert NotBefore(cycle, DynAt(s.dyn, b));
    }
  }

  lemma ExecuteConserveAt(cycle: nat, opts: Options, code: seq<Uop>, s: State, x: nat)
    requires AliveState(code, s) && ConserveMid(cycle, code, s) && Tagged1(code, s)
    ensures var r := AdvanceExecute(cycle, opts, code, s);
      && Copies(r, x) == Pend(r.fe.nextFetch, r.dyn, x)
      && (x >= r.fe.nextFetch ==> DynAt(r.dyn, x) == FRESH)
      && (DynAt(r.dyn, x).w1.Some? ==> DynAt(r.dyn, x).done.Some? || N(r.ex.w1, x) + N(r.ex.w2, x) > 0)
      && (FrontN(r.fe.front, x) > 0 ==> DynAt(r.dyn, x).dstQtag.None?)
      && (NotBefore(cycle + 1, DynAt(r.dyn, x)) ==> NotBefore(cycle, DynAt(s.dyn, x)))
  {
    ExecuteCopies(cycle, opts, code, s, x);
    assert Copies(s, x) == Pend(s.fe.nextFetch, s.dyn, x) + N(s.ex.w2, x);
    assert x >= s.fe.nextFetch ==> DynAt(s.dyn, x) == FRESH;
    assert DynAt(s.dyn, x).w1.Some? ==> DynAt(s.dyn, x).done.Some? || N(s.ex.w1, x) + N(s.ex.w2, x) > 0;
    assert FrontN(s.fe.front, x) > 0 ==> DynAt(s.dyn, x).dstQtag.None?;
    E4Timing(cycle, opts, code, s, x);
    WritebackMoves(cycle, opts, code, s, x);
  }

  /** Execution changes the stamps of E4 occupants only, which have no W1 or done stamp to lose. */
  lemma E4Timing(cycle: nat, opts: Options, code: seq<Uop>, s: State, x: nat)
    requires AliveState(code, s) && ConserveMid(cycle, code, s)
    ensures var d, r := DynAt(s.dyn, x), DynAt(AdvanceE4(cycle, opts, code, s).dyn, x);
      r.w1 == d.w1 && r.done == d.done && r.dstQtag == d.dstQtag && (N(s.ex.e4, x) == 0 ==> r == d)
  {
    var start := E4Stage([], s.mem, s.dyn);
    E4LoopLength(s.ex.e4, cycle, opts, code, start);
    CountMember(s.ex.e4, x);
    assert Copies(s, x) == Pend(s.fe.nextFetch, s.dyn, x) + N(s.ex.w2, x);
    assert DynAt(s.dyn, x).w1.Some? ==> DynAt(s.dyn, x).done.Some? || N(s.ex.w1, x) + N(s.ex.w2, x) > 0;
    if x < |s.dyn| { E4LoopTime(s.ex.e4, cycle, opts, code, start, x); }
  }

  lemma {:induction false} E1LoopKeepsW2(pending: seq<nat>, code: seq<Uop>, ex: Exec, x: nat)
    ensures var r := E1Loop(pending, code, ex); r.w2 == ex.w2 && N(r.w1, x) >= N(ex.w1, x)
  {
    if pending != [] {
      CountSnoc(ex.w1, pending[0], x);
      E1LoopKeepsW2(pending[1..], code, E1One(pending[0], code, ex), x);
    }
  }

  lemma WritebackMoves(cycle: nat, opts: Options, code: seq<Uop>, s: State, x: nat)
    ensures var r := AdvanceExecute(cycle, opts, code, s); N(r.ex.w1, x) + N(r.ex.w2, x) >= N(s.ex.w1, x)
  {
    var a := AdvanceE4(cycle, opts, code, s);
    var b := E2ToE3(E3ToE4(W1ToW2(s.ex).(e4 := a.e4)));
    var n := MoveCount([], s.ex.w1, ISSUE_WIDTH);
    CountSplit(s.ex.w1[..n], s.ex.w1[n..], x);
    assert s.ex.w1 == s.ex.w1[..n] + s.ex.w1[n..];
    E1LoopKeepsW2(b.e1, code, b.(e1 := []), x);
  }

  /** Steps after execution: every uop stays somewhere, W1 and W2 only gain, fields of uops keep
      their stamps. */
  lemma BackFrame(cycle: nat, code: seq<Uop>, s: State, r: State)
    requires ConserveInv(cycle, code, s) && r.fe.nextFetch == s.fe.nextFetch
    requires forall x: nat :: BackKeeps(s, r, x)
    ensures ConserveInv(cycle, code, r)
  {
    forall x: nat
      ensures Copies(r, x) == Pend(r.fe.nextFetch, r.dyn, x)
      ensures x >= r.fe.nextFetch ==> DynAt(r.dyn, x) == FRESH
      ensures DynAt(r.dyn, x).w1.Some? ==> DynAt(r.dyn, x).done.Some? || N(r.ex.w1, x) + N(r.ex.w2, x) > 0
      ensures FrontN(r.fe.front, x) > 0 ==> DynAt(r.dyn, x).dstQtag.None?
    {
      assert BackKeeps(s, r, x);
      assert Copies(s, x) == Pend(s.fe.nextFetch, s.dyn, x);
      assert x >= s.fe.nextFetch ==> DynAt(s.dyn, x) == FRESH;
      assert DynAt(s.dyn, x).w1.Some? ==> DynAt(s.dyn, x).done.Some? || N(s.ex.w1, x) + N(s.ex.w2, x) > 0;
      assert FrontN(s.fe.front, x) > 0 ==> DynAt(s.dyn, x).dstQtag.None?;
    }
    forall b: nat | b < r.fe.nextFetch && UopAt(code, b).redirectTarget.Some?
      && NotBefore(cycle, DynAt(r.dyn, b)) ensures b + 1 == r.fe.nextFetch {
      assert BackKeeps(s, r, b);
      assert NotBefore(cycle, DynAt(s.dyn, b));
    }
  }

  ghost predicate BackKeeps(s: State, r: State, x: nat) {
    && Copies(r, x) == Copies(s, x)
    && N(r.ex.w1, x) + N(r.ex.w2, x) >= N(s.ex.w1, x) + N(s.ex.w2, x)
    && DynAt(r.dyn, x).w1 == DynAt(s.dyn, x).w1 && DynAt(r.dyn, x).done == DynAt(s.dyn, x).done
    && (Copies(s, x) == 0 ==> DynAt(r.dyn, x) == DynAt(s.dyn, x))
    && (FrontN(r.fe.front, x) > 0 ==> FrontN(s.fe.front, x) > 0 && DynAt(r.dyn, x).dstQtag == DynAt(s.dyn, x).dstQtag)
  }

  lemma {:induction false} L1dLoopW1(pending: seq<L1dEntry>, cycle: nat, a: L1dStage, x: nat)
    ensures N(L1dLoop(pending, cycle, a).w1, x) >= N(a.w1, x)
  {
    if pending != [] {
      CountSnoc(a.w1, pending[0].seqNo, x);
      L1dLoopW1(pending[1..], cycle, L1dOne(pending[0], cycle, a), x);
    }
  }

  lemma L1dConserve(cycle: nat, code: seq<Uop>, s: State)
    requires ConserveInv(cycle + 1, code, s)
    ensures ConserveInv(cycle + 1, code, AdvanceL1d(cycle, s))
  {
    var r := AdvanceL1d(cycle, s);
    forall x: nat ensures BackKeeps(s, r, x) {
      L1dCopies(cycle, s, x);
      L1dLoopW1(s.mem.l1d, cycle, L1dStage(s.ex.w1, s.mem.(l1d := [])), x);
    }
    BackFrame(cycle + 1, code, s, r);
  }

  lemma LiqConserve(cycle: nat, code: seq<Uop>, s: State)
    requires ConserveInv(cycle + 1, code, s)
    ensures ConserveInv(cycle + 1, code, AdvanceLiq(cycle, code, s))
  {
    var r := AdvanceLiq(cycle, code, s);
    forall x: nat ensures BackKeeps(s, r, x) {
      LiqCopies(cycle, code, s, x);
      var i := RefillChoice(cycle, code, s);
      if i.Some? {
        assert RefillSeqs(s.mem.liq)[i.value] in RefillSeqs(s.mem.liq);
        CountMember(RefillSeqs(s.mem.liq), s.mem.liq[i.value].seqNo);
      }
    }
    BackFrame(cycle + 1, code, s, r);
  }

  lemma IssueConserve(cycle: nat, code: seq<Uop>, s: State, r: State)
    requires ConserveInv(cycle, code, s) && r.fe == s.fe && r.dyn == s.dyn && r.ex.w1 == s.ex.w1 && r.ex.w2 == s.ex.w2
    requires forall x: nat :: Copies(r, x) == Copies(s, x)
    ensures ConserveInv(cycle, code, r)
  {
    forall x: nat ensures BackKeeps(s, r, x) {}
    BackFrame(cycle, code, s, r);
  }

  lemma {:induction false} DispatchLoopTagging(pending: seq<nat>, cycle: nat, input: Input, code: seq<Uop>,
                                               d: Dispatcher, x: nat)
    ensures var e := DispatchLoop(pending, cycle, input, code, d);
      && (N(pending, x) == 0 ==> DynAt(e.dyn, x) == DynAt(d.dyn, x))
      && N(e.w2, x) >= N(d.w2, x)
      && (N(pending, x) <= 1 && N(e.stay, x) > N(d.stay, x) ==> DynAt(e.dyn, x).dstQtag == DynAt(d.dyn, x).dstQtag)
      && (N(pending, x) == 0 ==> N(e.stay, x) == N(d.stay, x))
  {
    if pending != [] {
      var y := pending[0];
      DispatchOneTagging(y, cycle, input, code, d, x);
      DispatchLoopTagging(pending[1..], cycle, input, code, DispatchOne(y, cycle, input, code, d), x);
    }
  }

  lemma DispatchOneTagging(y: nat, cycle: nat, input: Input, code: seq<Uop>, d: Dispatcher, x: nat)
    ensures var e := DispatchOne(y, cycle, input, code, d);
      && (x != y ==> DynAt(e.dyn, x) == DynAt(d.dyn, x) && N(e.stay, x) == N(d.stay, x))
      && N(e.w2, x) >= N(d.w2, x)
      && (N(e.stay, x) > N(d.stay, x) ==> DynAt(e.dyn, x).dstQtag == DynAt(d.dyn, x).dstQtag)
  {
    var d' := d.(q := Snapshot(y, input, code, d.q));
    CountSnoc(d.stay, y, x);
    CountSnoc(d.w2, y, x);
    if !UopAt(code, y).bypass { ToIqTagging(y, cycle, code, d', x); }
  }

  lemma ToIqTagging(y: nat, cycle: nat, code: seq<Uop>, d: Dispatcher, x: nat)
    ensures var e := DispatchToIq(y, cycle, code, d);
      && e.w2 == d.w2 && (x != y ==> DynAt(e.dyn, x) == DynAt(d.dyn, x))
      && (e.stay == d.stay || (e.stay == d.stay + [y] && e.dyn == d.dyn))
  {
  }

  lemma DispatchConserve(cycle: nat, input: Input, code: seq<Uop>, s: State)
    requires AliveState(code, s) && ConserveInv(cycle + 1, code, s)
    ensures ConserveInv(cycle + 1, code, Dispatch(cycle, input, code, s))
  {
    var r := Dispatch(cycle, input, code, s);
    forall x: nat ensures BackKeeps(s, r, x) { DispatchKeeps(cycle, input, code, s, x); }
    BackFrame(cycle + 1, code, s, r);
  }

  lemma DispatchKeeps(cycle: nat, input: Input, code: seq<Uop>, s: State, x: nat)
    requires AliveState(code, s)
    ensures BackKeeps(s, Dispatch(cycle, input, code, s), x)
  {
    var d := Dispatcher([], s.ex.w2, s.q, s.dyn, map[]);
    var e := DispatchLoop(s.fe.front[10], cycle, input, code, d);
    DispatchCopies(cycle, input, code, s, x);
    DispatchTime(s.fe.front[10], cycle, input, code, d, x);
    DispatchLoopTagging(s.fe.front[10], cycle, input, code, d, x);
    StageCountUpdate(s.fe.front, 10, e.stay, STAGES, x);
    StayCount(s.fe.front[10], cycle, input, code, d, x);
    assert Copies(s, x) <= 1;
    assert FrontN(s.fe.front, x) == StageCount(s.fe.front, 10, x) + N(s.fe.front[10], x);
  }

  lemma FrontendConserve(cycle: nat, code: seq<Uop>, s: State)
    requires ConserveInv(cycle, code, s)
    ensures ConserveInv(cycle, code, AdvanceFrontend(s))
  {
    var r := AdvanceFrontend(s);
    forall x: nat ensures BackKeeps(s, r, x) { FrontendCopies(|s.fe.front| - 1, Stages(s.fe.front, s.rt.rob), x); }
    BackFrame(cycle, code, s, r);
  }
}
