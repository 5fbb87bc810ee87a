/** Timing fields on every run: what each stamp implies, that visible data is never withdrawn, and
    that a ready-table tag implies visible data. */
module Timing {
  import opened Wrappers
  import opened Seqs
  import opened Model
  import opened Select
  import opened Lsu
  import opened Frontend
  import opened Commit
  import opened Residency
  import opened Alive

  function Next(o: Option<nat>): Option<nat> { if o.None? then None else Some(o.value + 1) }

  predicate Earlier(o: Option<nat>, cycle: nat) { o.Some? && o.value < cycle }

  predicate Stamp(o: Option<nat>, cycle: nat) { o.Some? ==> 1 <= o.value < cycle }

  /** Timing fields of one uop between cycles, before cycle `cycle`. */
  predicate TimeOk(cycle: nat, opts: Options, u: Uop, d: Dyn) {
    && Stamp(d.e1, cycle) && Stamp(d.e4, cycle) && Stamp(d.w1, cycle) && Stamp(d.done, cycle)
    && (d.done.Some? ==> AtOrBefore(d.dataVisible, d.done.value))
    && (if u.bypass then
          d.e1.None? && d.e4.None? && d.w1.None? && d.pickVisible == d.dataVisible
            && (d.dataVisible.Some? ==> d.dataVisible.value <= cycle)
        else if u.isLoad then
          d.dataVisible == Next(d.e4) && d.pickVisible == Next(d.e1) && (d.e4.Some? ==> !ShouldInjectMiss(opts, u, d))
        else
          d.e4.None? && d.dataVisible == Next(d.w1) && d.pickVisible == Next(d.w1))
  }

  /** The same within cycle `cycle`, after tagging: a load due for an injected miss may carry an E4
      stamp, but only of this very cycle and only while it sits in E4. */
  predicate TimeMid(cycle: nat, opts: Options, u: Uop, d: Dyn, inE4: bool) {
    && Stamp(d.e1, cycle + 1) && Stamp(d.e4, cycle + 1) && Stamp(d.w1, cycle + 1) && Stamp(d.done, cycle + 1)
    && (d.done.Some? ==> AtOrBefore(d.dataVisible, d.done.value))
    && (if u.bypass then
          d.e1.None? && d.e4.None? && d.w1.None? && d.pickVisible == d.dataVisible
            && (d.dataVisible.Some? ==> d.dataVisible.value <= cycle)
        else if u.isLoad then
          && d.dataVisible == Next(d.e4) && d.pickVisible == Next(d.e1)
          && (d.e4.Some? && ShouldInjectMiss(opts, u, d) ==> d.e4 == Some(cycle) && inE4)
        else
          d.e4.None? && d.dataVisible == Next(d.w1) && d.pickVisible == Next(d.w1))
  }

  ghost predicate AllTimeOk(cycle: nat, opts: Options, code: seq<Uop>, dyn: seq<Dyn>) {
    forall x: nat :: TimeOk(cycle, opts, UopAt(code, x), DynAt(dyn, x))
  }

  ghost predicate AllTimeMid(cycle: nat, opts: Options, code: seq<Uop>, e4: seq<nat>, dyn: seq<Dyn>) {
    forall x: nat :: TimeMid(cycle, opts, UopAt(code, x), DynAt(dyn, x), x in e4)
  }

  // -- What kind of uop each stage may hold -------------------------------------------------------

  ghost predicate NoBypass(code: seq<Uop>, q: seq<nat>) { forall x :: x in q ==> !UopAt(code, x).bypass }

  ghost predicate Loads(code: seq<Uop>, q: seq<nat>) {
    forall x :: x in q ==> UopAt(code, x).isLoad && !UopAt(code, x).bypass
  }

  /** Loads in writeback have been through E4. */
  ghost predicate LoadsStamped(code: seq<Uop>, dyn: seq<Dyn>, q: seq<nat>) {
    forall x :: x in q && UopAt(code, x).isLoad ==> DynAt(dyn, x).e4.Some?
  }

  ghost predicate DataBy(cycle: nat, dyn: seq<Dyn>, q: seq<nat>) {
    forall x :: x in q ==> AtOrBefore(DynAt(dyn, x).dataVisible, cycle)
  }

  ghost predicate ExecKinds(code: seq<Uop>, ex: Exec) {
    NoBypass(code, ex.e1) && Loads(code, ex.e2) && Loads(code, ex.e3) && Loads(code, ex.e4) && NoBypass(code, ex.w1)
  }

  ghost predicate MemKinds(code: seq<Uop>, mem: Mem) {
    Loads(code, RefillSeqs(mem.liq)) && Loads(code, L1dSeqs(mem.l1d, LoadHit))
  }

  ghost predicate StagesOk(cycle: nat, code: seq<Uop>, s: State) {
    && ExecKinds(code, s.ex) && MemKinds(code, s.mem)
    && NoBypass(code, SeqNos(s.q.iq)) && NoBypass(code, s.sel.i2)
    && LoadsStamped(code, s.dyn, s.ex.w1) && LoadsStamped(code, s.dyn, L1dSeqs(s.mem.l1d, LoadHit))
    && DataBy(cycle, s.dyn, s.ex.w2)
  }

  // -- Tagging ------------------------------------------------------------------------------------

  lemma TaggedTime(cycle: nat, opts: Options, code: seq<Uop>, ex: Exec, x: nat, d: Dyn)
    requires TimeOk(cycle, opts, UopAt(code, x), d) && cycle >= 1
    requires x in ex.e1 || x in ex.w1 ==> !UopAt(code, x).bypass
    requires x in ex.e4 ==> UopAt(code, x).isLoad && !UopAt(code, x).bypass
    requires x in ex.w2 ==> AtOrBefore(d.dataVisible, cycle)
    requires N(ex.e1, x) + N(ex.e4, x) + N(ex.w1, x) + N(ex.w2, x) <= 1
    ensures TimeMid(cycle, opts, UopAt(code, x), Tagged(x, cycle, code, ex, d), x in ex.e4)
  {
    CountMember(ex.e1, x);
    CountMember(ex.e4, x);
    CountMember(ex.w1, x);
    CountMember(ex.w2, x);
  }

  /** Data visible by this cycle is the same before and after tagging. */
  lemma TaggedData(cycle: nat, opts: Options, code: seq<Uop>, ex: Exec, x: nat, d: Dyn)
    requires TimeOk(cycle, opts, UopAt(code, x), d)
    requires x in ex.e1 || x in ex.w1 ==> !UopAt(code, x).bypass
    requires x in ex.e4 ==> UopAt(code, x).isLoad && !UopAt(code, x).bypass
    ensures var r := Tagged(x, cycle, code, ex, d);
      && (AtOrBefore(r.dataVisible, cycle) <==> AtOrBefore(d.dataVisible, cycle))
      && (AtOrBefore(d.dataVisible, cycle) ==> r.dataVisible == d.dataVisible)
      && (AtOrBefore(r.pickVisible, cycle) <==> AtOrBefore(d.pickVisible, cycle))
      && (AtOrBefore(d.pickVisible, cycle) ==> r.pickVisible == d.pickVisible)
      && r.srcQtags == d.srcQtags && r.dstQtag == d.dstQtag
      && (d.e4.Some? ==> r.e4 == d.e4) && (d.done.Some? ==> r.done == d.done)
  {
  }

  lemma TagFacts(cycle: nat, opts: Options, code: seq<Uop>, s: State)
    requires AliveState(code, s) && AllTimeOk(cycle, opts, code, s.dyn) && StagesOk(cycle, code, s)
    requires cycle == 0 ==> s.ex == Exec([], [], [], [], [], [])
    ensures AllTimeMid(cycle, opts, code, s.ex.e4, TagAll(cycle, code, s.ex, s.dyn))
  {
    var dyn := TagAll(cycle, code, s.ex, s.dyn);
    forall x: nat ensures TimeMid(cycle, opts, UopAt(code, x), DynAt(dyn, x), x in s.ex.e4) {
      assert TimeOk(cycle, opts, UopAt(code, x), DynAt(s.dyn, x));
      assert Copies(s, x) <= 1;
      if x < |s.dyn| && cycle >= 1 {
        TaggedTime(cycle, opts, code, s.ex, x, s.dyn[x]);
      }
    }
  }

  // -- Injected misses ----------------------------------------------------------------------------

  /** E4 loop: an injected miss hits only occupants of E4; the rest keep their timing. */
  lemma {:induction false} E4LoopTime(pending: seq<nat>, cycle: nat, opts: Options, code: seq<Uop>, a: E4Stage, x: nat)
    requires x < |a.dyn|
    ensures var d, r := DynAt(a.dyn, x), DynAt(E4Loop(pending, cycle, opts, code, a).dyn, x);
      && (x !in pending ==> r == d)
      && (x in pending && ShouldInjectMiss(opts, UopAt(code, x), d) ==>
            r == MissReset(d, RestartCycle(cycle, opts)).(missPendingUntil := r.missPendingUntil))
      && (x in pending && !ShouldInjectMiss(opts, UopAt(code, x), d) ==>
            r == d.(missPendingUntil := r.missPendingUntil))
  {
    if pending != [] {
      var y := pending[0];
      E4LoopTime(pending[1..], cycle, opts, code, E4One(y, cycle, opts, code, a), x);
    }
  }

  lemma ExecuteTime(cycle: nat, opts: Options, code: seq<Uop>, s: State)
    requires AllTimeMid(cycle, opts, code, s.ex.e4, s.dyn)
    ensures AllTimeOk(cycle + 1, opts, code, AdvanceE4(cycle, opts, code, s).dyn)
  {
    var dyn := AdvanceE4(cycle, opts, code, s).dyn;
    E4LoopLength(s.ex.e4, cycle, opts, code, E4Stage([], s.mem, s.dyn));
    forall x: nat ensures TimeOk(cycle + 1, opts, UopAt(code, x), DynAt(dyn, x)) {
      assert TimeMid(cycle, opts, UopAt(code, x), DynAt(s.dyn, x), x in s.ex.e4);
      if x < |s.dyn| { E4LoopTime(s.ex.e4, cycle, opts, code, E4Stage([], s.mem, s.dyn), x); }
    }
  }

  /** How the timing of every uop may change after the queue update of cycle `cycle`: data visible
      by now is final, and nothing becomes visible by now any more. */
  ghost predicate Settled(cycle: nat, a: seq<Dyn>, b: seq<Dyn>) {
    forall x: nat ::
      && (AtOrBefore(DynAt(a, x).dataVisible, cycle) ==> DynAt(b, x).dataVisible == DynAt(a, x).dataVisible)
      && (AtOrBefore(DynAt(b, x).dataVisible, cycle) ==> AtOrBefore(DynAt(a, x).dataVisible, cycle))
      && (AtOrBefore(DynAt(b, x).pickVisible, cycle) ==> AtOrBefore(DynAt(a, x).pickVisible, cycle))
  }

  lemma SettledTrans(cycle: nat, a: seq<Dyn>, b: seq<Dyn>, c: seq<Dyn>)
    requires Settled(cycle, a, b) && Settled(cycle, b, c)
    ensures Settled(cycle, a, c)
  {
    forall x: nat
      ensures && (AtOrBefore(DynAt(a, x).dataVisible, cycle) ==> DynAt(c, x).dataVisible == DynAt(a, x).dataVisible)
              && (AtOrBefore(DynAt(c, x).dataVisible, cycle) ==> AtOrBefore(DynAt(a, x).dataVisible, cycle))
              && (AtOrBefore(DynAt(c, x).pickVisible, cycle) ==> AtOrBefore(DynAt(a, x).pickVisible, cycle))
    {
      assert AtOrBefore(DynAt(a, x).dataVisible, cycle) ==> DynAt(b, x).dataVisible == DynAt(a, x).dataVisible;
      assert AtOrBefore(DynAt(c, x).dataVisible, cycle) ==> AtOrBefore(DynAt(b, x).dataVisible, cycle);
    }
  }

  /** A load that misses is reset in the cycle of its E4 stamp, when its data is not visible yet. */
  lemma ExecuteSettled(cycle: nat, opts: Options, code: seq<Uop>, s: State)
    requires AllTimeMid(cycle, opts, code, s.ex.e4, s.dyn) && Loads(code, s.ex.e4)
    ensures Settled(cycle, s.dyn, AdvanceE4(cycle, opts, code, s).dyn)
  {
    var dyn := AdvanceE4(cycle, opts, code, s).dyn;
    E4LoopLength(s.ex.e4, cycle, opts, code, E4Stage([], s.mem, s.dyn));
    forall x: nat
      ensures && (AtOrBefore(DynAt(s.dyn, x).dataVisible, cycle) ==>
                    DynAt(dyn, x).dataVisible == DynAt(s.dyn, x).dataVisible)
              && (AtOrBefore(DynAt(dyn, x).dataVisible, cycle) ==> AtOrBefore(DynAt(s.dyn, x).dataVisible, cycle))
              && (AtOrBefore(DynAt(dyn, x).pickVisible, cycle) ==> AtOrBefore(DynAt(s.dyn, x).pickVisible, cycle))
    {
      assert TimeMid(cycle, opts, UopAt(code, x), DynAt(s.dyn, x), x in s.ex.e4);
      if x < |s.dyn| { E4LoopTime(s.ex.e4, cycle, opts, code, E4Stage([], s.mem, s.dyn), x); }
    }
  }

  /** Same timing fields, possibly different annotations. */
  ghost predicate SameTiming(a: Dyn, b: Dyn) {
    && a.pickVisible == b.pickVisible && a.dataVisible == b.dataVisible && a.missInjected == b.missInjected
    && a.e1 == b.e1 && a.e4 == b.e4 && a.w1 == b.w1 && a.done == b.done
  }

  // -- Dispatch -----------------------------------------------------------------------------------

  lemma EnqueueTiming(y: nat, cycle: nat, code: seq<Uop>, d: Dispatcher, x: nat)
    ensures SameTiming(DynAt(DispatchToIq(y, cycle, code, d).dyn, x), DynAt(d.dyn, x))
  {
  }

  lemma {:induction false} DispatchTime(pending: seq<nat>, cycle: nat, input: Input, code: seq<Uop>, d: Dispatcher,
                                        x: nat)
    ensures var a, r := DynAt(d.dyn, x), DynAt(DispatchLoop(pending, cycle, input, code, d).dyn, x);
      && r.missInjected == a.missInjected && r.e1 == a.e1 && r.e4 == a.e4 && r.w1 == a.w1 && r.done == a.done
      && (r.dataVisible == a.dataVisible
          || (a.dataVisible.None? && r.dataVisible == Some(cycle + 1) && UopAt(code, x).bypass))
      && (r.pickVisible == a.pickVisible
          || (a.pickVisible.None? && r.pickVisible == Some(cycle + 1) && UopAt(code, x).bypass))
      && (a.pickVisible == a.dataVisible ==> r.pickVisible == r.dataVisible)
  {
    if pending != [] {
      var y := pending[0];
      var d' := d.(q := Snapshot(y, input, code, d.q));
      if !UopAt(code, y).bypass { EnqueueTiming(y, cycle, code, d', x); }
      DispatchTime(pending[1..], cycle, input, code, DispatchOne(y, cycle, input, code, d), x);
    }
  }

  lemma DispatchTimeOk(cycle: nat, opts: Options, input: Input, code: seq<Uop>, s: State)
    requires AllTimeOk(cycle + 1, opts, code, s.dyn)
    ensures var r := Dispatch(cycle, input, code, s);
      AllTimeOk(cycle + 1, opts, code, r.dyn) && Settled(cycle, s.dyn, r.dyn)
  {
    var r := Dispatch(cycle, input, code, s);
    var d := Dispatcher([], s.ex.w2, s.q, s.dyn, map[]);
    forall x: nat
      ensures TimeOk(cycle + 1, opts, UopAt(code, x), DynAt(r.dyn, x))
      ensures && (AtOrBefore(DynAt(s.dyn, x).dataVisible, cycle) ==>
                    DynAt(r.dyn, x).dataVisible == DynAt(s.dyn, x).dataVisible)
              && (AtOrBefore(DynAt(r.dyn, x).dataVisible, cycle) ==> AtOrBefore(DynAt(s.dyn, x).dataVisible, cycle))
              && (AtOrBefore(DynAt(r.dyn, x).pickVisible, cycle) ==> AtOrBefore(DynAt(s.dyn, x).pickVisible, cycle))
    {
      assert TimeOk(cycle + 1, opts, UopAt(code, x), DynAt(s.dyn, x));
      DispatchTime(s.fe.front[10], cycle, input, code, d, x);
    }
  }

  lemma LiqTimeOk(cycle: nat, opts: Options, code: seq<Uop>, s: State)
    requires AllTimeOk(cycle + 1, opts, code, s.dyn)
    ensures var r := AdvanceLiq(cycle, code, s); AllTimeOk(cycle + 1, opts, code, r.dyn) && Settled(cycle, s.dyn, r.dyn)
  {
    var r := AdvanceLiq(cycle, code, s);
    forall x: nat ensures SameTiming(DynAt(r.dyn, x), DynAt(s.dyn, x)) {}
    forall x: nat ensures TimeOk(cycle + 1, opts, UopAt(code, x), DynAt(r.dyn, x)) {
      assert TimeOk(cycle + 1, opts, UopAt(code, x), DynAt(s.dyn, x));
    }
  }
}
