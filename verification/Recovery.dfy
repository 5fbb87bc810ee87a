/** Redirect scheduling and the delayed flush. */
module Recovery {
  import opened Wrappers
  import opened Seqs
  import opened Model
  import opened Queues

  function ResolveCycle(u: Uop, d: Dyn): Option<nat> {
    if !u.boundary then None else if d.w1.Some? then d.w1 else d.done
  }

  /** Oldest boundary uop that resolves in this cycle. */
  function ResolvedBoundary(cycle: nat, code: seq<Uop>, dyn: seq<Dyn>, from: nat): (r: Option<nat>)
    ensures r.Some? ==> from <= r.value < |code| && ResolveCycle(code[r.value], DynAt(dyn, r.value)) == Some(cycle)
    decreases |code| - from
  {
    if from >= |code| then None
    else if ResolveCycle(code[from], DynAt(dyn, from)) == Some(cycle) then Some(from)
    else ResolvedBoundary(cycle, code, dyn, from + 1)
  }

  /** First legal restart point after `source` whose pc is `pc`. */
  function LegalRestart(from: nat, pc: nat, code: seq<Uop>): (r: Option<nat>)
    ensures r.Some? ==> from <= r.value < |code| && code[r.value].commit.pc == pc && code[r.value].startMarker
    decreases |code| - from
  {
    if from >= |code| then None
    else if code[from].commit.pc == pc && code[from].startMarker then Some(from)
    else LegalRestart(from + 1, pc, code)
  }

  /** The redirect scheduled in this cycle. A pending trap on the source suppresses it. */
  function ScheduledRedirect(cycle: nat, input: Input, code: seq<Uop>, s: State): (r: Option<Redirect>)
    ensures r.Some? ==> r.value.sourceSeq < r.value.restartSeq <= |code| && r.value.resumeCycle == cycle + RESTART_DELAY
  {
    var source := ResolvedBoundary(cycle, code, s.dyn, 0);
    if source.None? || input.target.None?
      || (s.rt.pendingTrap.Some? && s.rt.pendingTrap.value.seqNo == source.value) then None
    else
      var legal := LegalRestart(source.value + 1, input.target.value.pc, code);
      Some(Redirect(source.value, if legal.Some? then legal.value else source.value + 1, cycle + RESTART_DELAY))
  }

  function ScheduleFetch(next: Redirect, checkpoint: nat, cycle: nat, fe: Fetch): Fetch {
    fe.(redirect := if fe.redirect.Some? && fe.redirect.value.resumeCycle >= next.resumeCycle then fe.redirect
                    else Some(next),
        pendingFlush := if fe.pendingFlush.Some?
          && fe.pendingFlush.value.applyCycle <= cycle + RESTART_DELAY then fe.pendingFlush
                        else Some(Flush(next.sourceSeq, checkpoint, cycle + RESTART_DELAY)))
  }

  function ScheduleRedirect(cycle: nat, input: Input, code: seq<Uop>, s: State): State {
    var next := ScheduledRedirect(cycle, input, code, s);
    if next.None? then s else s.(fe := ScheduleFetch(next.value, input.target.value.checkpoint, cycle, s.fe))
  }

  /** The older of the active trap and each newly published one survives. */
  function MergeFaults(faults: seq<Trap>, trap: Option<Trap>): Option<Trap> {
    if faults == [] then trap
    else MergeFaults(faults[1..], if trap.Some? && trap.value.seqNo < faults[0].seqNo then trap else Some(faults[0]))
  }

  function PublishFaults(faults: seq<Trap>, s: State): State {
    s.(rt := s.rt.(pendingTrap := MergeFaults(faults, s.rt.pendingTrap)))
  }

  function FrontSeqs(front: Front): set<nat> { set i, x | 0 <= i < STAGES && x in front[i] :: x }

  function IssuedSeqs(s: State): set<nat> {
    Elements(s.ex.e1) + Elements(s.ex.e2) + Elements(s.ex.e3) + Elements(s.ex.e4)
    + Elements(s.ex.w1) + Elements(s.ex.w2)
    + Elements(RefillSeqs(s.mem.liq)) + Elements(s.mem.lhq) + Elements(RefillSeqs(s.mem.mdb)) + Elements(s.mem.stq)
    + Elements(ScbSeqs(s.mem.scb)) + Elements(L1dSeqs(s.mem.l1d, LoadHit)) + Elements(L1dSeqs(s.mem.l1d, StoreDrain))
  }

  function QueuedSeqs(s: State): set<nat> {
    Elements(s.rt.rob) + Elements(SeqNos(s.q.iq)) + FrontSeqs(s.fe.front)
    + Elements(s.sel.p1) + Elements(s.sel.i1) + Elements(s.sel.i2)
  }

  function Lsids(seqs: set<nat>, code: seq<Uop>): set<nat> {
    set x | x in seqs && UopAt(code, x).lsid.Some? :: UopAt(code, x).lsid.value
  }

  /** Pointers fall back to the least id still unissued, or still active. */
  function RebaseLsid(code: seq<Uop>, s: State): Mem {
    var unissued := Lsids(QueuedSeqs(s) - IssuedSeqs(s), code);
    var active := Lsids(QueuedSeqs(s) + IssuedSeqs(s), code);
    s.mem.(issuePtr := if unissued == {} then s.mem.issuePtr else SetMin(unissued),
           completePtr := if unissued == {} then s.mem.completePtr else SetMin(unissued),
           cachePtr := if active == {} then s.mem.cachePtr else SetMin(active))
  }

  function RetainFront(front: Front, f: nat): (r: Front)
    ensures forall i :: 0 <= i < STAGES ==> r[i] == UpTo(front[i], f)
  {
    seq(STAGES, i requires 0 <= i < STAGES => UpTo(front[i], f))
  }

  function UpTo(q: seq<nat>, f: nat): seq<nat> { Retain(q, x => x <= f) }

  function PruneExec(f: nat, ex: Exec): Exec {
    Exec(UpTo(ex.e1, f), UpTo(ex.e2, f), UpTo(ex.e3, f), UpTo(ex.e4, f), UpTo(ex.w1, f), UpTo(ex.w2, f))
  }

  function PruneQueue(f: nat, q: Queue): Queue {
    var iq := Retain(q.iq, (e: IqEntry) => e.seqNo <= f);
    var iqTags := RetainTags(q.iqTags, x => x <= f);
    q.(iqTags := iqTags, crossbar := RetainWaiters(q.crossbar, x => x <= f), iq := iq,
        owner := RebuildOwner(iq, iqTags))
  }

  function PruneMem(f: nat, mem: Mem): Mem {
    mem.(stq := UpTo(mem.stq, f), lhq := UpTo(mem.lhq, f),
         liq := Retain(mem.liq, (r: Refill) => r.seqNo <= f), mdb := Retain(mem.mdb, (r: Refill) => r.seqNo <= f),
         scb := Retain(mem.scb, (e: ScbEntry) => e.seqNo <= f), l1d := Retain(mem.l1d, (e: L1dEntry) => e.seqNo <= f))
  }

  /** Drop everything younger than `f`. */
  function Prune(f: nat, s: State): State {
    State(s.fe.(front := RetainFront(s.fe.front, f)), PruneQueue(f, s.q),
          Issue(UpTo(s.sel.p1, f), UpTo(s.sel.i1, f), UpTo(s.sel.i2, f)),
          PruneExec(f, s.ex), PruneMem(f, s.mem), s.rt.(rob := UpTo(s.rt.rob, f)), s.dyn)
  }

  function RestoreReady(checkpoint: nat, q: Queue): Queue {
    if checkpoint in q.checkpoints then q.(ready := q.checkpoints[checkpoint]) else q
  }

  function ApplyFlush(flush: Flush, code: seq<Uop>, s: State): State {
    var pruned := Prune(flush.flushSeq, s.(q := RestoreReady(flush.checkpoint, s.q)));
    pruned.(mem := RebaseLsid(code, pruned), fe := pruned.fe.(pendingFlush := None))
  }

  function ApplyPendingFlush(cycle: nat, code: seq<Uop>, s: State): State {
    if s.fe.pendingFlush.None? || s.fe.pendingFlush.value.applyCycle > cycle then s
    else ApplyFlush(s.fe.pendingFlush.value, code, s)
  }
}
