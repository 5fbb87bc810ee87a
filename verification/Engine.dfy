/** The engine in its own form: an object whose steps update the stage queues and the uops in place,
    in loops. Each step is proved to compute the function that specifies it, so that every theorem
    about runs holds of the loop over cycles. */
module Engine {
  import opened Wrappers
  import opened Seqs
  import opened Model
  import opened Queues
  import opened Select
  import opened Lsu
  import Frontend
  import Recovery
  import Commit
  import CommitOrder
  import Runs
  import CoherentLaws

  /** `advance_simple`: move from the front of one queue to the back of another. */
  method AdvanceSimple(dst: seq<nat>, src: seq<nat>, capacity: nat) returns (d: seq<nat>, s: seq<nat>)
    ensures d == dst + src[..MoveCount(dst, src, capacity)] && s == src[MoveCount(dst, src, capacity)..]
  {
    d, s := dst, src;
    ghost var n := 0;
    while |d| < capacity && s != []
      invariant n <= |src| && d == dst + src[..n] && s == src[n..] && n <= MoveCount(dst, src, capacity)
      decreases |s|
    {
      assert src[..n + 1] == src[..n] + [src[n]];
      d, s := d + [s[0]], s[1..];
      n := n + 1;
    }
  }

  /** `rebuild_iq_owner_table`. */
  method RebuildOwnerTable(iq: seq<IqEntry>, iqTags: map<nat, QTag>) returns (owner: map<QTag, nat>)
    ensures owner == RebuildOwner(iq, iqTags)
  {
    owner := map[];
    var i := 0;
    while i < |iq|
      invariant i <= |iq| && RebuildFrom(i, owner, iq, iqTags) == RebuildFrom(0, map[], iq, iqTags)
    {
      if iq[i].seqNo in iqTags { owner := owner[iqTags[iq[i].seqNo] := i]; }
      i := i + 1;
    }
  }

  datatype TagStage = InE1 | InE4 | InW1 | InW2

  function TagIn(stage: TagStage, cycle: nat, u: Uop, d: Dyn): Dyn {
    match stage
    case InE1 => Commit.TagE1(cycle, u, d)
    case InE4 => Commit.TagE4(cycle, d)
    case InW1 => Commit.TagW1(cycle, u, d)
    case InW2 => Commit.TagW2(cycle, d)
  }

  class CycleEngine {
    const code: seq<Uop>
    const opts: Options
    const uops: array<Dyn>
    var fe: Fetch
    var q: Queue
    var sel: Issue
    var ex: Exec
    var mem: Mem
    var rt: Retire

    function Now(): State
      reads this, uops
    {
      State(fe, q, sel, ex, mem, rt, uops[..])
    }

    constructor (code: seq<Uop>, opts: Options)
      ensures Now() == Initial(code) && this.code == code && this.opts == opts && fresh(uops)
    {
      this.code := code;
      this.opts := opts;
      uops := new Dyn[|code|](_ => FRESH);
      fe, q := Initial([]).fe, Initial([]).q;
      sel, ex := Initial([]).sel, Initial([]).ex;
      mem, rt := Initial([]).mem, Initial([]).rt;
      new;
      assert uops[..] == Initial(code).dyn;
    }

    method Put(x: nat, d: Dyn)
      modifies uops
      ensures uops[..] == DynPut(old(uops[..]), x, d)
    {
      if x < uops.Length { uops[x] := d; }
    }

    // -- Fetch ------------------------------------------------------------------------------------

    /** `unresolved_redirect_barrier`. */
    method UnresolvedBarrier(n: nat) returns (found: bool)
      ensures found == Frontend.FetchBarrier(n, code, uops[..])
    {
      var x := 0;
      while x < n
        invariant x <= n && forall y :: 0 <= y < x ==> !Frontend.Unresolved(UopAt(code, y), DynAt(uops[..], y))
      {
        if Frontend.Unresolved(UopAt(code, x), DynAt(uops[..], x)) { return true; }
        x := x + 1;
      }
      return false;
    }

    method FillFetch(cycle: nat)
      modifies this`fe
      ensures Now() == Frontend.FillFetch(cycle, code, old(Now()))
    {
      if fe.redirect.Some? && cycle < fe.redirect.value.resumeCycle { return; }
      var f := fe;
      if f.redirect.Some? { f := f.(nextFetch := f.redirect.value.restartSeq, redirect := None); }
      ghost var dyn, start := uops[..], f;
      var open := true;
      while open && |f.front[0]| < FETCH_WIDTH && f.nextFetch < |code|
        invariant (if open then Frontend.FetchLoop(code, dyn, f) else f) == Frontend.FetchLoop(code, dyn, start)
        decreases |code| - f.nextFetch, open
      {
        var blocked := UnresolvedBarrier(f.nextFetch);
        if blocked {
          open := false;
        } else {
          open := code[f.nextFetch].redirectTarget.None?;
          f := f.(front := f.front[0 := f.front[0] + [f.nextFetch]], nextFetch := f.nextFetch + 1);
        }
      }
      fe := f;
    }

    // -- Timing tags and faults -------------------------------------------------------------------

    /** Tag the occupants of one stage queue; each field is set once. */
    method TagQueue(stage: TagStage, queue: seq<nat>, cycle: nat)
      modifies uops
      ensures forall x :: 0 <= x < uops.Length ==>
        uops[x] == if x in queue then TagIn(stage, cycle, UopAt(code, x), old(uops[x])) else old(uops[x])
    {
      var i := 0;
      while i < |queue|
        modifies uops
        invariant i <= |queue|
        invariant forall x :: 0 <= x < uops.Length ==>
          uops[x] == if x in queue[..i] then TagIn(stage, cycle, UopAt(code, x), old(uops[x])) else old(uops[x])
      {
        assert queue[..i + 1] == queue[..i] + [queue[i]];
        var x := queue[i];
        if x < uops.Length { uops[x] := TagIn(stage, cycle, UopAt(code, x), uops[x]); }
        i := i + 1;
      }
      assert queue[..i] == queue;
    }

    method TagStageCycles(cycle: nat)
      modifies uops
      ensures Now() == Commit.TagStageCycles(cycle, code, old(Now()))
    {
      TagQueue(InE1, ex.e1, cycle);
      TagQueue(InE4, ex.e4, cycle);
      TagQueue(InW1, ex.w1, cycle);
      TagQueue(InW2, ex.w2, cycle);
      assert uops[..] == Commit.TagAll(cycle, code, ex, old(uops[..]));
    }

    method PublishFaults(faults: seq<Trap>)
      modifies this`rt
      ensures Now() == Recovery.PublishFaults(faults, old(Now()))
    {
      var trap, i := rt.pendingTrap, 0;
      while i < |faults|
        invariant i <= |faults|
          && Recovery.MergeFaults(faults[i..], trap) == Recovery.MergeFaults(faults, rt.pendingTrap)
      {
        if trap.None? || faults[i].seqNo <= trap.value.seqNo { trap := Some(faults[i]); }
        i := i + 1;
      }
      rt := rt.(pendingTrap := trap);
    }

    // -- Issue-queue update -----------------------------------------------------------------------

    /** Deliver one event: through the crossbar and owner table to queue sources, by broadcast to
        the others. */
    method Publish(event: WakeEvent, entries: seq<IqEntry>) returns (iq: seq<IqEntry>)
      ensures iq == PublishWakeEvent(event, entries, q.owner, q.iqTags, q.crossbar, code, uops[..])
    {
      var dyn := uops[..];
      iq := entries;
      if event.queueKind.Some? && event.logicalTag.Some? && event.qtag.Some? {
        var ws, k := Waiters(q.crossbar, event.qtag.value), 0;
        while k < |ws|
          invariant k <= |ws|
          invariant WakeWaiters(ws[k..], event, iq, q.owner, q.iqTags, code, dyn)
              == WakeWaiters(ws, event, entries, q.owner, q.iqTags, code, dyn)
        {
          var i := OwnerIndex(ws[k].0, iq, q.owner, q.iqTags);
          if i.Some? { iq := iq[i.value := PublishEntrySource(iq[i.value], ws[k].1, event, code, dyn)]; }
          k := k + 1;
        }
        ghost var woken := iq;
        var j := 0;
        while j < |iq|
          invariant j <= |iq| == |woken|
          invariant forall i ::
            0 <= i < |iq| ==> iq[i] == if i < j then PublishNonqueueEntry(woken[i], event, code, dyn) else woken[i]
        {
          iq := iq[j := PublishNonqueueEntry(iq[j], event, code, dyn)];
          j := j + 1;
        }
        assert iq == PublishAllNonqueue(woken, event, code, dyn);
      } else {
        var j := 0;
        while j < |iq|
          invariant j <= |iq| == |entries|
          invariant forall i ::
            0 <= i < |iq| ==> iq[i] == if i < j then PublishEntry(entries[i], event, code, dyn) else entries[i]
        {
          iq := iq[j := PublishEntry(iq[j], event, code, dyn)];
          j := j + 1;
        }
        assert iq == Broadcast(entries, event, code, dyn);
      }
    }

    /** The revoke and ready-table passes. */
    method RefreshEntries(cycle: nat) returns (iq: seq<IqEntry>)
      ensures iq == UpdateEntries(cycle, q.iq, q.ready, code, uops[..])
    {
      var dyn, i := uops[..], 0;
      iq := q.iq;
      while i < |iq|
        invariant i <= |iq| == |q.iq|
        invariant forall j ::
          0 <= j < |iq| ==> iq[j] == if j < i then UpdateEntry(cycle, q.iq[j], q.ready, code, dyn) else q.iq[j]
      {
        iq := iq[i := UpdateEntry(cycle, iq[i], q.ready, code, dyn)];
        i := i + 1;
      }
    }

    /** Every producer that wakes somebody in this cycle publishes its event. */
    method PublishEvents(cycle: nat, entries: seq<IqEntry>) returns (iq: seq<IqEntry>)
      ensures iq == PublishFrom(cycle, 0, entries, q, code, uops[..])
    {
      var dyn, p := uops[..], 0;
      iq := entries;
      while p < |code|
        invariant p <= |code| && PublishFrom(cycle, p, iq, q, code, dyn) == PublishFrom(cycle, 0, entries, q, code, dyn)
      {
        var event := WakeEventOf(cycle, p, code, dyn);
        if event.Some? { iq := Publish(event.value, iq); }
        p := p + 1;
      }
    }

    method UpdateIqEntries(cycle: nat)
      modifies this`q
      ensures Now() == UpdateIq(cycle, code, old(Now()))
    {
      var refreshed := RefreshEntries(cycle);
      var iq := PublishEvents(cycle, refreshed);
      q := q.(iq := iq);
    }

    // -- Store drain and retirement ---------------------------------------------------------------

    /** The drain loop: the store it starts fills the one-wide L1D. */
    method AdvanceScb(cycle: nat)
      modifies this`mem
      ensures Now() == Lsu.AdvanceScb(cycle, code, old(Now()))
    {
      var m, stuck := mem, false;
      while !stuck && CanAcceptL1d(m.l1d)
        invariant (!stuck && CanAcceptL1d(m.l1d) ==> m == mem)
          && (stuck || !CanAcceptL1d(m.l1d) ==> m == DrainStore(cycle, code, mem))
        decreases !stuck, L1D_WIDTH - |m.l1d|
      {
        var i := DrainChoice(cycle, code, m);
        if i.None? {
          stuck := true;
        } else {
          var x := m.scb[i.value].seqNo;
          m := m.(scb := RemoveAt(m.scb, i.value), l1d := m.l1d + [L1dEntry(x, StoreDrain, SatAdd(cycle, 1))],
                  l1dLog := LogLsid(m.l1dLog, UopAt(code, x)));
        }
      }
      mem := m;
    }

    /** Pop done uops from the head of the reorder buffer, at most four. */
    method RetireReady(cycle: nat)
      modifies this`rt, this`q, this`mem
      ensures Now() == Commit.RetireReady(cycle, code, old(Now()))
    {
      ghost var limit, start := |rt.retired| + COMMIT_WIDTH, Commit.Retirer(rt, q.ready, mem.stq, mem.scb);
      ghost var dyn := uops[..];
      var r, ready, stq, scb, n, stuck := rt, q.ready, mem.stq, mem.scb, 0, false;
      while n < COMMIT_WIDTH && !stuck
        invariant n <= COMMIT_WIDTH && |r.retired| == |rt.retired| + n
        invariant (if stuck then Commit.Retirer(r, ready, stq, scb)
                   else Commit.RetireLoop(limit, cycle, code, dyn, Commit.Retirer(r, ready, stq, scb)))
               == Commit.RetireLoop(limit, cycle, code, dyn, start)
        decreases COMMIT_WIDTH - n, !stuck
      {
        if r.rob == [] || DynAt(uops[..], r.rob[0]).done.None? {
          stuck := true;
        } else {
          var x := r.rob[0];
          var u, trap := UopAt(code, x), Commit.Traps(x, r);
          r := Retire(r.rob[1..], r.retired + [x], r.committed + [Commit.CommitOf(x, cycle, code, r)],
                      if trap then None else r.pendingTrap, r.halted || trap);
          if u.dstTag.Some? { ready := ready.Insert(u.dstTag.value); }
          if u.isStore { stq, scb := Without(stq, x), scb + [ScbEntry(x, cycle)]; }
          n := n + 1;
        }
      }
      rt := r;
      q := q.(ready := ready);
      mem := mem.(stq := stq, scb := scb);
    }

    // -- Redirects --------------------------------------------------------------------------------

    method ResolvedBoundary(cycle: nat) returns (r: Option<nat>)
      ensures r == Recovery.ResolvedBoundary(cycle, code, uops[..], 0)
    {
      var x := 0;
      while x < |code|
        invariant x <= |code|
          && Recovery.ResolvedBoundary(cycle, code, uops[..], x) == Recovery.ResolvedBoundary(cycle, code, uops[..], 0)
      {
        if Recovery.ResolveCycle(code[x], DynAt(uops[..], x)) == Some(cycle) { return Some(x); }
        x := x + 1;
      }
      return None;
    }

    /** `legal_redirect_restart_seq`. */
    method LegalRestart(source: nat, pc: nat) returns (r: Option<nat>)
      ensures r == Recovery.LegalRestart(source + 1, pc, code)
    {
      var x := source + 1;
      while x < |code|
        invariant source + 1 <= x && Recovery.LegalRestart(x, pc, code) == Recovery.LegalRestart(source + 1, pc, code)
      {
        if code[x].commit.pc == pc && code[x].startMarker { return Some(x); }
        x := x + 1;
      }
      return None;
    }

    method ScheduleRedirect(cycle: nat, input: Input)
      modifies this`fe
      ensures Now() == Recovery.ScheduleRedirect(cycle, input, code, old(Now()))
    {
      var source := ResolvedBoundary(cycle);
      if source.None? || input.target.None? || (rt.pendingTrap.Some? && rt.pendingTrap.value.seqNo == source.value) {
        return;
      }
      var legal := LegalRestart(source.value, input.target.value.pc);
      var next := Redirect(source.value, if legal.Some? then legal.value else source.value + 1, cycle + RESTART_DELAY);
      var f := fe;
      if !(f.redirect.Some? && f.redirect.value.resumeCycle >= next.resumeCycle) { fe := fe.(redirect := Some(next)); }
      if !(f.pendingFlush.Some? && f.pendingFlush.value.applyCycle <= cycle + RESTART_DELAY) {
        fe := fe.(pendingFlush := Some(Flush(next.sourceSeq, input.target.value.checkpoint, cycle + RESTART_DELAY)));
      }
    }

    method ApplyPendingFlush(cycle: nat)
      modifies this
      ensures Now() == Recovery.ApplyPendingFlush(cycle, code, old(Now()))
    {
      if fe.pendingFlush.None? || fe.pendingFlush.value.applyCycle > cycle { return; }
      var f := fe.pendingFlush.value.flushSeq;
      q := Recovery.RestoreReady(fe.pendingFlush.value.checkpoint, q);
      sel := Issue(Recovery.UpTo(sel.p1, f), Recovery.UpTo(sel.i1, f), Recovery.UpTo(sel.i2, f));
      ex := Recovery.PruneExec(f, ex);
      mem := Recovery.PruneMem(f, mem);
      rt := rt.(rob := Recovery.UpTo(rt.rob, f));
      fe := fe.(front := Recovery.RetainFront(fe.front, f));
      var iq := Retain(q.iq, (e: IqEntry) => e.seqNo <= f);
      var iqTags := RetainTags(q.iqTags, x => x <= f);
      var owner := RebuildOwnerTable(iq, iqTags);
      q := q.(iqTags := iqTags, crossbar := RetainWaiters(q.crossbar, x => x <= f), iq := iq, owner := owner);
      mem := Recovery.RebaseLsid(code, Now());
      fe := fe.(pendingFlush := None);
    }

    // -- Execute and the load/store unit ----------------------------------------------------------

    /** Empty E4: each occupant takes an injected miss, starts its L1D access or stays. */
    method AdvanceE4(cycle: nat) returns (stay: seq<nat>)
      modifies this`mem, uops
      ensures E4Stage(stay, mem, uops[..]) == E4Loop(ex.e4, cycle, opts, code, E4Stage([], old(mem), old(uops[..])))
    {
      stay := [];
      ghost var goal := E4Loop(ex.e4, cycle, opts, code, E4Stage([], mem, uops[..]));
      var pending := ex.e4;
      while pending != []
        modifies this`mem, uops
        invariant E4Loop(pending, cycle, opts, code, E4Stage(stay, mem, uops[..])) == goal
        decreases |pending|
      {
        var x := pending[0];
        var u, d := UopAt(code, x), DynAt(uops[..], x);
        if ShouldInjectMiss(opts, u, d) {
          var r := Refill(x, RestartCycle(cycle, opts));
          mem := mem.(liq := mem.liq + [r], mdb := mem.mdb + [r], lhq := Without(mem.lhq, x));
          Put(x, MissReset(d, r.readyCycle));
        } else if CacheReady(u, mem.cachePtr) && CanAcceptL1d(mem.l1d) {
          mem := mem.(l1d := mem.l1d + [L1dEntry(x, LoadHit, SatAdd(cycle, 1))], l1dLog := LogLsid(mem.l1dLog, u));
          Put(x, d.(missPendingUntil := None));
        } else {
          stay := stay + [x];
        }
        pending := pending[1..];
      }
    }

    /** Loads go from E1 to E2, everything else to writeback, as far as there is room. */
    method LeaveE1(before: Exec) returns (after: Exec)
      ensures after == AdvanceE1(code, before)
    {
      after := before.(e1 := []);
      var pending := before.e1;
      while pending != []
        invariant E1Loop(pending, code, after) == AdvanceE1(code, before)
        decreases |pending|
      {
        var x := pending[0];
        if UopAt(code, x).isLoad {
          if |after.e2| < LSU_WIDTH { after := after.(e2 := after.e2 + [x]); } else {
            after := after.(e1 := after.e1 + [x]);
          }
        } else if |after.w1| < ISSUE_WIDTH {
          after := after.(w1 := after.w1 + [x]);
        } else {
          after := after.(e1 := after.e1 + [x]);
        }
        pending := pending[1..];
      }
    }

    method AdvanceExecute(cycle: nat)
      modifies this`mem, this`ex, uops
      ensures Now() == Lsu.AdvanceExecute(cycle, opts, code, old(Now()))
    {
      var w2, w1 := AdvanceSimple([], ex.w1, ISSUE_WIDTH);
      var stay := AdvanceE4(cycle);
      var e4, e3 := AdvanceSimple(stay, ex.e3, LSU_WIDTH);
      var e3', e2 := AdvanceSimple(e3, ex.e2, LSU_WIDTH);
      assert Exec(ex.e1, e2, e3', e4, w1, w2) == E2ToE3(E3ToE4(W1ToW2(ex).(e4 := stay)));
      var moved := LeaveE1(Exec(ex.e1, e2, e3', e4, w1, w2));
      ex := moved;
    }

    method AdvanceL1d(cycle: nat)
      modifies this`mem, this`ex
      ensures Now() == Lsu.AdvanceL1d(cycle, old(Now()))
    {
      var pending, w1, m := mem.l1d, ex.w1, mem.(l1d := []);
      ghost var goal := L1dLoop(mem.l1d, cycle, L1dStage(ex.w1, mem.(l1d := [])));
      while pending != []
        invariant L1dLoop(pending, cycle, L1dStage(w1, m)) == goal
        decreases |pending|
      {
        var e := pending[0];
        if e.readyCycle > cycle {
          m := m.(l1d := m.l1d + [e]);
        } else {
          match e.kind
          case LoadHit =>
            if |w1| < ISSUE_WIDTH {
              w1, m := w1 + [e.seqNo], m.(lhq := Without(m.lhq, e.seqNo), cachePtr := m.cachePtr + 1);
            } else {
              m := m.(l1d := m.l1d + [e]);
            }
          case StoreDrain => m := m.(cachePtr := m.cachePtr + 1);
        }
        pending := pending[1..];
      }
      mem := m;
      ex := ex.(w1 := w1);
    }

    method AdvanceLiq(cycle: nat)
      modifies this`mem, this`ex, uops
      ensures Now() == Lsu.AdvanceLiq(cycle, code, old(Now()))
    {
      if !LoadSlotAvailable(ex.e1, code) { return; }
      var i := LiqPick(mem.liq, cycle, code, mem.cachePtr, rt.rob);
      if i.None? { return; }
      var x := mem.liq[i.value].seqNo;
      Put(x, DynAt(uops[..], x).(missPendingUntil := None));
      mem := mem.(liq := RemoveAt(mem.liq, i.value), lhq := InsertOnce(mem.lhq, x),
          mdb := Retain(mem.mdb, (r: Refill) => r.seqNo != x));
      ex := ex.(e1 := ex.e1 + [x]);
    }

    // -- Select and issue -------------------------------------------------------------------------

    method AdvanceI1ToI2()
      modifies this`sel, this`q
      ensures Now() == Select.AdvanceI1ToI2(old(Now()))
    {
      var pending, stay, i2, moved, used := sel.i1, [], sel.i2, [], {};
      ghost var goal := MoveLoop(sel.i1, Mover([], sel.i2, [], {}), q.iq);
      while pending != []
        invariant MoveLoop(pending, Mover(stay, i2, moved, used), q.iq) == goal
        decreases |pending|
      {
        var x := pending[0];
        var i := FindEntry(q.iq, x);
        if |i2| >= ISSUE_WIDTH {
          stay := stay + [x];
        } else if i.Some? {
          var p := q.iq[i.value].physIq;
          if p in used { stay := stay + [x]; } else { i2, moved, used := i2 + [x], moved + [x], used + {p}; }
        }
        pending := pending[1..];
      }
      var iq := Retain(q.iq, (e: IqEntry) => e.seqNo !in moved);
      var iqTags := RetainTags(q.iqTags, x => x !in moved);
      var owner := RebuildOwnerTable(iq, iqTags);
      q := q.(iq := iq, iqTags := iqTags, crossbar := RetainWaiters(q.crossbar, x => x !in moved), owner := owner);
      sel := sel.(i1 := stay, i2 := i2);
    }

    /** One attempt: a grant when its queue and the ports allow, else back to the issue queue. */
    method Attempt(x: nat, cycle: nat, a: Arbiter) returns (r: Arbiter)
      ensures r == ArbitrateOne(x, cycle, a, code, uops[..])
    {
      r := a;
      var i := FindEntry(a.iq, x);
      if i.Some? {
        var e := a.iq[i.value];
        var needed := PortsNeeded(e, cycle, code, uops[..]);
        if e.physIq !in a.usedQueues && a.usedPorts + needed <= READ_PORTS {
          r := Arbiter(a.iq, a.admitted + [x], a.usedPorts + needed, a.usedQueues + {e.physIq});
        } else {
          r := a.(iq := a.iq[i.value := e.(inflight := false)]);
        }
      }
    }

    /** `arbitrate_i1`: oldest first, one grant per queue, three read ports; the others go back. */
    method ArbitrateI1(cycle: nat) returns (admitted: seq<nat>)
      modifies this`q
      ensures var a := Arbitrate(cycle, code, sel.p1, old(q.iq), uops[..], rt.rob);
        admitted == a.admitted && q == old(q).(iq := a.iq)
    {
      var attempts, a := SortKeyed(Attempts(sel.p1, rt.rob)), Arbiter(q.iq, [], 0, {});
      ghost var goal, dyn := Arbitrate(cycle, code, sel.p1, q.iq, uops[..], rt.rob), uops[..];
      while attempts != []
        invariant ArbitrateLoop(attempts, cycle, a, code, dyn) == goal && q == old(q)
        decreases |attempts|
      {
        a := Attempt(attempts[0].seqNo, cycle, a);
        attempts := attempts[1..];
      }
      assert a == goal;
      q := q.(iq := a.iq);
      admitted := a.admitted;
      assert uops[..] == dyn;
    }

    method ArbitrateAndAdvance(cycle: nat)
      modifies this`sel, this`q
      ensures Now() == Select.ArbitrateAndAdvance(cycle, code, old(Now()))
    {
      var admitted := ArbitrateI1(cycle);
      var i1, p1 := AdvanceSimple(sel.i1, admitted, ISSUE_WIDTH);
      sel := sel.(i1 := i1, p1 := p1);
    }

    method AdvanceI2(cycle: nat)
      modifies this`sel, this`ex, this`mem
      ensures Now() == Select.AdvanceI2(cycle, code, old(Now()))
    {
      var dyn, pending, stay, e1, m := uops[..], sel.i2, [], ex.e1, mem;
      ghost var goal := IssueLoop(sel.i2, cycle, code, dyn, Issuer([], ex.e1, mem));
      while pending != []
        invariant IssueLoop(pending, cycle, code, dyn, Issuer(stay, e1, m)) == goal
        decreases |pending|
      {
        var x := pending[0];
        var u := UopAt(code, x);
        if I2Ready(u, cycle, dyn) && LsidIssueReady(u, m.issuePtr) && E1CanAccept(u, e1, code) {
          e1, m := e1 + [x], IssueMem(x, u, m);
        } else {
          stay := stay + [x];
        }
        pending := pending[1..];
      }
      sel := sel.(i2 := stay);
      ex := ex.(e1 := e1);
      mem := m;
    }

    method PickFromIq(cycle: nat)
      modifies this`sel, this`q
      ensures Now() == Select.PickFromIq(cycle, code, old(Now()))
    {
      var cands := Candidates(cycle, mem.issuePtr, q.iq, code, uops[..], rt.rob);
      var iq, p1 := q.iq, sel.p1;
      ghost var goal := PickLoop(cands, Picker(q.iq, sel.p1));
      while cands != [] && |p1| < ISSUE_WIDTH
        invariant PickLoop(cands, Picker(iq, p1)) == goal
        decreases |cands|
      {
        iq, p1 := SetInflight(iq, cands[0].index, true), p1 + [cands[0].seqNo];
        cands := cands[1..];
      }
      q := q.(iq := iq);
      sel := sel.(p1 := p1);
    }

    // -- Dispatch and the frontend ----------------------------------------------------------------

    method Dispatch(cycle: nat, input: Input)
      modifies this`fe, this`q, this`ex, uops
      ensures Now() == Frontend.Dispatch(cycle, input, code, old(Now()))
    {
      ghost var goal := Frontend.DispatchLoop(fe.front[10], cycle, input, code,
          Frontend.Dispatcher([], ex.w2, q, uops[..], map[]));
      var pending, stay, w2, ports := fe.front[10], [], ex.w2, map[];
      var queue := q;
      while pending != []
        modifies uops
        invariant Frontend.DispatchLoop(pending, cycle, input, code,
            Frontend.Dispatcher(stay, w2, queue, uops[..], ports)) == goal
        decreases |pending|
      {
        var x := pending[0];
        queue := Frontend.Snapshot(x, input, code, queue);
        if UopAt(code, x).bypass {
          Put(x, Frontend.BypassDyn(DynAt(uops[..], x), cycle));
          if |w2| < ISSUE_WIDTH { w2 := w2 + [x]; } else { stay := stay + [x]; }
        } else {
          stay, queue, ports := DispatchToIq(x, cycle, stay, w2, queue, ports);
        }
        pending := pending[1..];
      }
      fe := fe.(front := fe.front[10 := stay]);
      ex := ex.(w2 := w2);
      var owner := RebuildOwnerTable(queue.iq, queue.iqTags);
      q := queue.(owner := owner);
    }

    /** Route, allocate, annotate, register, append; or leave `x` in S2. */
    method DispatchToIq(x: nat, cycle: nat, stay: seq<nat>, ghost w2: seq<nat>, queue: Queue, ports: map<PhysIq, nat>)
      returns (stay': seq<nat>, queue': Queue, ports': map<PhysIq, nat>)
      modifies uops
      ensures Frontend.Dispatcher(stay', w2, queue', uops[..], ports')
           == Frontend.DispatchToIq(x, cycle, code, Frontend.Dispatcher(stay, w2, queue, old(uops[..]), ports))
    {
      stay', queue', ports' := stay, queue, ports;
      var p := RoutePhysIq(UopAt(code, x), queue.iq, ports);
      if p.None? {
        stay' := stay + [x];
        return;
      }
      var qtag := AllocateQTag(queue.iqTags, p.value);
      if qtag.None? {
        stay' := stay + [x];
        return;
      }
      var iqTags := queue.iqTags[x := qtag.value];
      Put(x, DynAt(uops[..], x).(physIq := Some(p.value), dstQtag := Some(qtag.value)));
      var dyn := AnnotateQTagSources(x, iqTags, queue.ready, code, uops[..]);
      Put(x, DynAt(dyn, x));
      assert uops[..] == dyn;
      queue' := queue.(iqTags := iqTags, crossbar := RegisterWaiter(queue.crossbar, x, DynAt(dyn, x)),
                       iq := queue.iq + [MakeIqEntry(cycle, x, p.value, queue.ready, code, dyn)]);
      ports' := ports[p.value := PortsUsed(ports, p.value) + 1];
    }

    /** Allocate reorder-buffer slots for the occupants of D1 that have none. */
    method AllocateSlots(d1: seq<nat>) returns (rob: seq<nat>)
      ensures rob == Frontend.AllocateRob(d1, rt.rob)
    {
      rob := rt.rob;
      var pending := d1;
      while pending != []
        invariant Frontend.AllocateRob(pending, rob) == Frontend.AllocateRob(d1, rt.rob)
        decreases |pending|
      {
        if pending[0] !in rob { rob := rob + [pending[0]]; }
        pending := pending[1..];
      }
    }

    /** Move each stage into the next, last stage first. */
    method AdvanceFrontend()
      modifies this`fe, this`rt
      ensures Now() == Frontend.AdvanceFrontend(old(Now()))
    {
      ghost var goal := Frontend.AdvanceStages(|fe.front| - 1, Frontend.Stages(fe.front, rt.rob));
      var idx := |fe.front| - 1;
      while idx > 0
        modifies this`fe, this`rt
        invariant 0 <= idx < STAGES && Frontend.AdvanceStages(idx, Frontend.Stages(fe.front, rt.rob)) == goal
        invariant fe == old(fe).(front := fe.front) && rt == old(rt).(rob := rt.rob)
      {
        AdvanceOneStage(idx);
        idx := idx - 1;
      }
    }

    method AdvanceOneStage(idx: nat)
      requires 1 <= idx < STAGES
      modifies this`fe, this`rt
      ensures Frontend.Stages(fe.front, rt.rob)
          == Frontend.AdvanceStage(idx, Frontend.Stages(old(fe.front), old(rt.rob)))
      ensures fe == old(fe).(front := fe.front) && rt == old(rt).(rob := rt.rob)
    {
      if idx == 7 {
        if |rt.rob| + |Frontend.NotInRob(fe.front[6], rt.rob)| > ROB_CAPACITY { return; }
        var rob := AllocateSlots(fe.front[6]);
        rt := rt.(rob := rob);
      }
      var dst, src := AdvanceSimple(fe.front[idx], fe.front[idx - 1], DISPATCH_WIDTH);
      fe := fe.(front := fe.front[idx := dst][idx - 1 := src]);
    }

    // -- Cycles -----------------------------------------------------------------------------------

    method FirstHalf(cycle: nat, input: Input)
      modifies this, uops
      ensures Now() == Commit.FrontHalf(cycle, input, code, old(Now()))
    {
      ApplyPendingFlush(cycle);
      FillFetch(cycle);
      TagStageCycles(cycle);
      PublishFaults(input.faults);
      UpdateIqEntries(cycle);
      AdvanceScb(cycle);
    }

    method SecondHalf(cycle: nat, input: Input)
      modifies this, uops
      ensures Now() == Commit.BackHalf(cycle, opts, input, code, old(Now()))
    {
      AdvanceExecute(cycle);
      AdvanceL1d(cycle);
      AdvanceLiq(cycle);
      AdvanceI1ToI2();
      ArbitrateAndAdvance(cycle);
      AdvanceI2(cycle);
      PickFromIq(cycle);
      Dispatch(cycle, input);
      AdvanceFrontend();
    }

    method Cycle(cycle: nat, input: Input)
      modifies this, uops
      ensures Now() == Commit.Step(cycle, opts, input, code, old(Now()))
    {
      if rt.halted { return; }
      FirstHalf(cycle, input);
      RetireReady(cycle);
      if rt.halted { return; }
      ScheduleRedirect(cycle, input);
      if |rt.committed| == opts.targetCommits {
        rt := rt.(halted := true);
        return;
      }
      SecondHalf(cycle, input);
    }

    /** The loop over cycles performs a run of the step function; so on a coherent run it returns a
        prefix of the functional commit stream. */
    method Run(inputs: nat -> Input, maxCycles: nat) returns (commits: seq<CommitRecord>, ghost run: seq<State>)
      requires Now() == Initial(code)
      modifies this, uops
      ensures Commit.IsRun(run, opts, inputs, code) && |run| <= maxCycles + 1 && run[|run| - 1] == Now()
      ensures |run| == maxCycles + 1 || rt.halted
      ensures commits == rt.committed
      ensures CoherentLaws.CoherentRun(run, opts, inputs, code) ==>
        |commits| <= |code| && forall i :: 0 <= i < |commits| ==> CommitOrder.SameCommit(commits[i], code[i].commit)
    {
      run := [Now()];
      var cycle := 0;
      while cycle < maxCycles && !rt.halted
        invariant cycle <= maxCycles && |run| == cycle + 1 && run[cycle] == Now()
          && Commit.IsRun(run, opts, inputs, code)
      {
        ghost var before := run;
        Cycle(cycle, inputs(cycle));
        run := run + [Now()];
        Runs.Grow(before, opts, inputs, code, before[cycle], Now(), cycle);
        cycle := cycle + 1;
      }
      commits := rt.committed;
      if CoherentLaws.CoherentRun(run, opts, inputs, code) {
        CoherentLaws.CommitRefinement(cycle, run, opts, inputs, code);
      }
    }
  }
}
