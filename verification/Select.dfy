/** Pick, register-port arbitration, and the P1, I1 and I2 stages. */
module Select {
  import opened Wrappers
  import opened Seqs
  import opened Model
  import opened Queues
  import LoadGen

  const USIZE_MAX: nat := U64_MAX

  /** Position in the reorder buffer, the age that selection compares. */
  function RobRank(x: nat, rob: seq<nat>): (r: nat)
    ensures x in rob ==> r < |rob| && rob[r] == x
  {
    var i := Position(rob, y => y == x);
    if i.None? then USIZE_MAX else i.value
  }

  /** Stable insertion sort of candidates by a two-part key. */
  datatype Keyed = Keyed(major: nat, minor: nat, index: nat, seqNo: nat, physIq: PhysIq)

  predicate KeyLe(a: Keyed, b: Keyed) {
    a.major < b.major || (a.major == b.major && a.minor <= b.minor)
  }

  function InsertKeyed(k: Keyed, q: seq<Keyed>): (r: seq<Keyed>)
  {
    if q == [] then [k] else if KeyLe(k, q[0]) then [k] + q else [q[0]] + InsertKeyed(k, q[1..])
  }

  function SortKeyed(q: seq<Keyed>): seq<Keyed> {
    if q == [] then [] else InsertKeyed(q[0], SortKeyed(q[1..]))
  }

  /** `dedup_by_key` on the physical queue: keep the first of each run. */
  function DedupQueues(q: seq<Keyed>): seq<Keyed>
    decreases |q|
  {
    if |q| <= 1 then q
    else if q[0].physIq == q[1].physIq then DedupQueues([q[0]] + q[2..])
    else [q[0]] + DedupQueues(q[1..])
  }

  predicate LsidIssueReady(u: Uop, issuePtr: nat) { u.lsid.Some? ==> u.lsid.value == issuePtr }

  predicate SourceBlocked(b: SrcState) { b.valid && !(b.nonspec || b.spec) }

  predicate MissBlocked(cycle: nat, dep: Option<nat>, code: seq<Uop>, dyn: seq<Dyn>) {
    dep.Some? && LoadGen.MissPendingActive(code, dyn) && LoadGen.HasE4(LoadGen.DepLoadGen(dep.value, cycle, code, dyn))
  }

  predicate EntryReady(e: IqEntry, cycle: nat, issuePtr: nat, code: seq<Uop>, dyn: seq<Dyn>) {
    var u := UopAt(code, e.seqNo);
    && LsidIssueReady(u, issuePtr)
    && !MissBlocked(cycle, u.src.fst.dep, code, dyn) && !SourceBlocked(e.src.fst)
    && !MissBlocked(cycle, u.src.snd.dep, code, dyn) && !SourceBlocked(e.src.snd)
  }

  /** Ready, not yet picked entries from position `i` on, keyed by physical queue and age. */
  function ReadyEntries(i: nat, cycle: nat, issuePtr: nat, iq: seq<IqEntry>, code: seq<Uop>, dyn: seq<Dyn>,
                        rob: seq<nat>): seq<Keyed>
    decreases |iq| - i
  {
    if i >= |iq| then []
    else
      var e := iq[i];
      var rest := ReadyEntries(i + 1, cycle, issuePtr, iq, code, dyn, rob);
      if !e.inflight && EntryReady(e, cycle, issuePtr, code, dyn)
      then [Keyed(e.physIq.Index(), RobRank(e.seqNo, rob), i, e.seqNo, e.physIq)] + rest
      else rest
  }

  function ReadyWinners(cycle: nat, issuePtr: nat, iq: seq<IqEntry>, code: seq<Uop>, dyn: seq<Dyn>,
                        rob: seq<nat>): seq<Keyed> {
    DedupQueues(SortKeyed(ReadyEntries(0, cycle, issuePtr, iq, code, dyn, rob)))
  }

  /** Re-key by age alone, for the final oldest-first order. */
  function ByAge(q: seq<Keyed>): (r: seq<Keyed>)
    ensures |r| == |q| && forall i :: 0 <= i < |q| ==> r[i] == q[i].(major := 0)
  {
    seq(|q|, i requires 0 <= i < |q| => q[i].(major := 0))
  }

  function SetInflight(iq: seq<IqEntry>, i: nat, v: bool): (r: seq<IqEntry>)
    ensures |r| == |iq|
  {
    if i < |iq| then iq[i := iq[i].(inflight := v)] else iq
  }

  datatype Picker = Picker(iq: seq<IqEntry>, p1: seq<nat>)

  function PickLoop(cands: seq<Keyed>, a: Picker): Picker {
    if cands == [] || |a.p1| >= ISSUE_WIDTH then a
    else PickLoop(cands[1..], Picker(SetInflight(a.iq, cands[0].index, true), a.p1 + [cands[0].seqNo]))
  }

  /** Queue winners, oldest first. */
  function Candidates(cycle: nat, issuePtr: nat, iq: seq<IqEntry>, code: seq<Uop>, dyn: seq<Dyn>,
                      rob: seq<nat>): seq<Keyed> {
    SortKeyed(ByAge(ReadyWinners(cycle, issuePtr, iq, code, dyn, rob)))
  }

  function PickFromIq(cycle: nat, code: seq<Uop>, s: State): State {
    var a := PickLoop(Candidates(cycle, s.mem.issuePtr, s.q.iq, code, s.dyn, s.rt.rob), Picker(s.q.iq, s.sel.p1));
    s.(q := s.q.(iq := a.iq), sel := s.sel.(p1 := a.p1))
  }

  function FindEntry(iq: seq<IqEntry>, x: nat): (r: Option<nat>)
    ensures r.Some? ==> r.value < |iq| && iq[r.value].seqNo == x
    ensures r.None? ==> forall i :: 0 <= i < |iq| ==> iq[i].seqNo != x
  {
    Position(iq, (e: IqEntry) => e.seqNo == x)
  }

  predicate NeedsPort(e: IqEntry, idx: nat, cycle: nat, code: seq<Uop>, dyn: seq<Dyn>) {
    var source := UopAt(code, e.seqNo).src.At(idx);
    && source.valid
    && !UsesQTagWakeup(e.seqNo, idx, code, dyn)
    && !e.src.At(idx).spec
    && (source.dep.Some? ==>
          var d := DynAt(dyn, source.dep.value);
          AtOrBefore(d.dataVisible, cycle)
          || !(UopAt(code, source.dep.value).isLoad && AtOrBefore(d.pickVisible, cycle)))
  }

  function PortsNeeded(e: IqEntry, cycle: nat, code: seq<Uop>, dyn: seq<Dyn>): (n: nat)
    ensures n <= 2
  {
    (if NeedsPort(e, 0, cycle, code, dyn) then 1 else 0) + (if NeedsPort(e, 1, cycle, code, dyn) then 1 else 0)
  }

  datatype Arbiter = Arbiter(iq: seq<IqEntry>, admitted: seq<nat>, usedPorts: nat, usedQueues: set<PhysIq>)

  function ArbitrateOne(x: nat, cycle: nat, a: Arbiter, code: seq<Uop>, dyn: seq<Dyn>): Arbiter {
    var i := FindEntry(a.iq, x);
    if i.None? then a
    else
      var e := a.iq[i.value];
      var needed := PortsNeeded(e, cycle, code, dyn);
      if e.physIq !in a.usedQueues && a.usedPorts + needed <= READ_PORTS
      then Arbiter(a.iq, a.admitted + [x], a.usedPorts + needed, a.usedQueues + {e.physIq})
      else a.(iq := SetInflight(a.iq, i.value, false))
  }

  function ArbitrateLoop(attempts: seq<Keyed>, cycle: nat, a: Arbiter, code: seq<Uop>, dyn: seq<Dyn>): Arbiter {
    if attempts == [] then a
    else ArbitrateLoop(attempts[1..], cycle, ArbitrateOne(attempts[0].seqNo, cycle, a, code, dyn), code, dyn)
  }

  /** P1 occupants keyed by age. */
  function Attempts(p1: seq<nat>, rob: seq<nat>): (r: seq<Keyed>)
    ensures |r| == |p1| && forall i :: 0 <= i < |p1| ==> r[i] == Keyed(0, RobRank(p1[i], rob), i, p1[i], AluIq0)
  {
    seq(|p1|, i requires 0 <= i < |p1| => Keyed(0, RobRank(p1[i], rob), i, p1[i], AluIq0))
  }

  function Arbitrate(cycle: nat, code: seq<Uop>, p1: seq<nat>, iq: seq<IqEntry>, dyn: seq<Dyn>,
                     rob: seq<nat>): Arbiter {
    ArbitrateLoop(SortKeyed(Attempts(p1, rob)), cycle, Arbiter(iq, [], 0, {}), code, dyn)
  }

  /** `arbitrate_i1` followed by `advance_p1_to_i1`. */
  function ArbitrateAndAdvance(cycle: nat, code: seq<Uop>, s: State): State {
    var a := Arbitrate(cycle, code, s.sel.p1, s.q.iq, s.dyn, s.rt.rob);
    var n := MoveCount(s.sel.i1, a.admitted, ISSUE_WIDTH);
    s.(q := s.q.(iq := a.iq), sel := s.sel.(i1 := s.sel.i1 + a.admitted[..n], p1 := a.admitted[n..]))
  }

  datatype Mover = Mover(i1: seq<nat>, i2: seq<nat>, moved: seq<nat>, usedQueues: set<PhysIq>)

  function MoveOne(x: nat, m: Mover, iq: seq<IqEntry>): Mover {
    if |m.i2| >= ISSUE_WIDTH then m.(i1 := m.i1 + [x])
    else
      var i := FindEntry(iq, x);
      if i.None? then m
      else if iq[i.value].physIq in m.usedQueues then m.(i1 := m.i1 + [x])
      else Mover(m.i1, m.i2 + [x], m.moved + [x], m.usedQueues + {iq[i.value].physIq})
  }

  function MoveLoop(pending: seq<nat>, m: Mover, iq: seq<IqEntry>): Mover {
    if pending == [] then m else MoveLoop(pending[1..], MoveOne(pending[0], m, iq), iq)
  }

  /** Take the issue-queue entries, tags and waits of `moved` away. */
  function Dequeue(moved: seq<nat>, q: Queue): Queue {
    var iq := Retain(q.iq, (e: IqEntry) => e.seqNo !in moved);
    var iqTags := RetainTags(q.iqTags, x => x !in moved);
    q.(iq := iq, iqTags := iqTags, crossbar := RetainWaiters(q.crossbar, x => x !in moved),
       owner := RebuildOwner(iq, iqTags))
  }

  function AdvanceI1ToI2(s: State): State {
    var m := MoveLoop(s.sel.i1, Mover([], s.sel.i2, [], {}), s.q.iq);
    s.(sel := s.sel.(i1 := m.i1, i2 := m.i2), q := Dequeue(m.moved, s.q))
  }

  predicate I2Ready(u: Uop, cycle: nat, dyn: seq<Dyn>) {
    && (u.src.fst.dep.Some? ==> AtOrBefore(DynAt(dyn, u.src.fst.dep.value).dataVisible, cycle))
    && (u.src.snd.dep.Some? ==> AtOrBefore(DynAt(dyn, u.src.snd.dep.value).dataVisible, cycle))
  }

  function LoadCount(q: seq<nat>, code: seq<Uop>): nat {
    if q == [] then 0 else (if UopAt(code, q[0]).isLoad then 1 else 0) + LoadCount(q[1..], code)
  }

  predicate LoadSlotAvailable(q: seq<nat>, code: seq<Uop>) { LoadCount(q, code) < LSU_WIDTH }

  predicate E1CanAccept(u: Uop, e1: seq<nat>, code: seq<Uop>) {
    |e1| < ISSUE_WIDTH && (u.isLoad ==> LoadSlotAvailable(e1, code))
  }

  function InsertOnce(q: seq<nat>, x: nat): seq<nat> { if x in q then q else q + [x] }

  datatype Issuer = Issuer(i2: seq<nat>, e1: seq<nat>, mem: Mem)

  predicate Issues(x: nat, cycle: nat, code: seq<Uop>, dyn: seq<Dyn>, a: Issuer) {
    var u := UopAt(code, x);
    I2Ready(u, cycle, dyn) && LsidIssueReady(u, a.mem.issuePtr) && E1CanAccept(u, a.e1, code)
  }

  /** Bookkeeping for `x` leaving I2: the owner queue it joins and the issue pointers. */
  function IssueMem(x: nat, u: Uop, mem: Mem): Mem {
    var owned := if u.isLoad then mem.(lhq := InsertOnce(mem.lhq, x))
                 else if u.isStore then mem.(stq := InsertOnce(mem.stq, x))
                 else mem;
    if u.lsid.None? then owned
    else owned.(issuePtr := mem.issuePtr + 1, completePtr := mem.completePtr + 1,
        issueLog := mem.issueLog + [u.lsid.value])
  }

  function IssueOne(x: nat, cycle: nat, code: seq<Uop>, dyn: seq<Dyn>, a: Issuer): Issuer {
    if Issues(x, cycle, code, dyn, a) then Issuer(a.i2, a.e1 + [x], IssueMem(x, UopAt(code, x), a.mem))
    else a.(i2 := a.i2 + [x])
  }

  function IssueLoop(pending: seq<nat>, cycle: nat, code: seq<Uop>, dyn: seq<Dyn>, a: Issuer): Issuer {
    if pending == [] then a else IssueLoop(pending[1..], cycle, code, dyn, IssueOne(pending[0], cycle, code, dyn, a))
  }

  function AdvanceI2(cycle: nat, code: seq<Uop>, s: State): State {
    var a := IssueLoop(s.sel.i2, cycle, code, s.dyn, Issuer([], s.ex.e1, s.mem));
    s.(sel := s.sel.(i2 := a.i2), ex := s.ex.(e1 := a.e1), mem := a.mem)
  }
}
