/** Execute stages E1-E4, writeback, load-miss replay, the L1D and the store drain. */
module Lsu {
  import opened Wrappers
  import opened Seqs
  import opened Model
  import opened Select

  predicate ShouldInjectMiss(opts: Options, u: Uop, d: Dyn) {
    && opts.missEvery.Some? && opts.missEvery.value != 0
    && u.isLoad && !d.missInjected
    && u.loadOrdinal.Some? && (u.loadOrdinal.value + 1) % opts.missEvery.value == 0
  }

  predicate CacheReady(u: Uop, cachePtr: nat) { u.lsid.Some? ==> u.lsid.value == cachePtr }

  predicate CanAcceptL1d(l1d: seq<L1dEntry>) { |l1d| < L1D_WIDTH }

  function Without(q: seq<nat>, x: nat): seq<nat> { Retain(q, y => y != x) }

  function MissReset(d: Dyn, restart: nat): Dyn {
    d.(missInjected := true, missPendingUntil := Some(restart), pickVisible := None, dataVisible := None,
       e1 := None, e4 := None, w1 := None, done := None)
  }

  function RestartCycle(cycle: nat, opts: Options): nat {
    SatAdd(cycle, if opts.missPenalty < 1 then 1 else opts.missPenalty)
  }

  function LogLsid(log: seq<nat>, u: Uop): seq<nat> { if u.lsid.Some? then log + [u.lsid.value] else log }

  datatype E4Stage = E4Stage(e4: seq<nat>, mem: Mem, dyn: seq<Dyn>)

  /** One occupant of E4: take an injected miss, start its L1D access, or stay. */
  function E4One(x: nat, cycle: nat, opts: Options, code: seq<Uop>, a: E4Stage): E4Stage {
    var u, d := UopAt(code, x), DynAt(a.dyn, x);
    if ShouldInjectMiss(opts, u, d) then
      var r := Refill(x, RestartCycle(cycle, opts));
      E4Stage(a.e4, a.mem.(liq := a.mem.liq + [r], mdb := a.mem.mdb + [r], lhq := Without(a.mem.lhq, x)),
              DynPut(a.dyn, x, MissReset(d, r.readyCycle)))
    else if CacheReady(u, a.mem.cachePtr) && CanAcceptL1d(a.mem.l1d) then
      E4Stage(a.e4,
              a.mem.(l1d := a.mem.l1d + [L1dEntry(x, LoadHit, SatAdd(cycle, 1))], l1dLog := LogLsid(a.mem.l1dLog, u)),
              DynPut(a.dyn, x, d.(missPendingUntil := None)))
    else a.(e4 := a.e4 + [x])
  }

  function E4Loop(pending: seq<nat>, cycle: nat, opts: Options, code: seq<Uop>, a: E4Stage): E4Stage {
    if pending == [] then a else E4Loop(pending[1..], cycle, opts, code, E4One(pending[0], cycle, opts, code, a))
  }

  function E1One(x: nat, code: seq<Uop>, ex: Exec): Exec {
    if UopAt(code, x).isLoad then
      if |ex.e2| < LSU_WIDTH then ex.(e2 := ex.e2 + [x]) else ex.(e1 := ex.e1 + [x])
    else if |ex.w1| < ISSUE_WIDTH then ex.(w1 := ex.w1 + [x])
    else ex.(e1 := ex.e1 + [x])
  }

  function E1Loop(pending: seq<nat>, code: seq<Uop>, ex: Exec): Exec {
    if pending == [] then ex else E1Loop(pending[1..], code, E1One(pending[0], code, ex))
  }

  function W1ToW2(ex: Exec): Exec {
    var n := MoveCount([], ex.w1, ISSUE_WIDTH);
    ex.(w2 := ex.w1[..n], w1 := ex.w1[n..])
  }

  function E3ToE4(ex: Exec): Exec {
    var n := MoveCount(ex.e4, ex.e3, LSU_WIDTH);
    ex.(e4 := ex.e4 + ex.e3[..n], e3 := ex.e3[n..])
  }

  function E2ToE3(ex: Exec): Exec {
    var n := MoveCount(ex.e3, ex.e2, LSU_WIDTH);
    ex.(e3 := ex.e3 + ex.e2[..n], e2 := ex.e2[n..])
  }

  function AdvanceE1(code: seq<Uop>, ex: Exec): Exec { E1Loop(ex.e1, code, ex.(e1 := [])) }

  function AdvanceE4(cycle: nat, opts: Options, code: seq<Uop>, s: State): E4Stage {
    E4Loop(s.ex.e4, cycle, opts, code, E4Stage([], s.mem, s.dyn))
  }

  function AdvanceExecute(cycle: nat, opts: Options, code: seq<Uop>, s: State): State {
    var a := AdvanceE4(cycle, opts, code, s);
    s.(ex := AdvanceE1(code, E2ToE3(E3ToE4(W1ToW2(s.ex).(e4 := a.e4)))), mem := a.mem, dyn := a.dyn)
  }

  datatype L1dStage = L1dStage(w1: seq<nat>, mem: Mem)

  function L1dOne(e: L1dEntry, cycle: nat, a: L1dStage): L1dStage {
    if e.readyCycle > cycle
      || (e.kind == LoadHit && |a.w1| >= ISSUE_WIDTH) then a.(mem := a.mem.(l1d := a.mem.l1d + [e]))
    else match e.kind
      case LoadHit => L1dStage(a.w1 + [e.seqNo],
          a.mem.(lhq := Without(a.mem.lhq, e.seqNo), cachePtr := a.mem.cachePtr + 1))
      case StoreDrain => a.(mem := a.mem.(cachePtr := a.mem.cachePtr + 1))
  }

  function L1dLoop(pending: seq<L1dEntry>, cycle: nat, a: L1dStage): L1dStage {
    if pending == [] then a else L1dLoop(pending[1..], cycle, L1dOne(pending[0], cycle, a))
  }

  function AdvanceL1d(cycle: nat, s: State): State {
    var a := L1dLoop(s.mem.l1d, cycle, L1dStage(s.ex.w1, s.mem.(l1d := [])));
    s.(ex := s.ex.(w1 := a.w1), mem := a.mem)
  }

  predicate RefillEligible(r: Refill, cycle: nat, code: seq<Uop>, cachePtr: nat) {
    r.readyCycle <= cycle && CacheReady(UopAt(code, r.seqNo), cachePtr)
  }

  /** Position of the oldest eligible refill, the first among equals. */
  function LiqPick(liq: seq<Refill>, cycle: nat, code: seq<Uop>, cachePtr: nat, rob: seq<nat>): (r: Option<nat>)
    ensures r.Some? ==> r.value < |liq| && RefillEligible(liq[r.value], cycle, code, cachePtr)
    ensures r.Some? ==> forall j :: 0 <= j < |liq| && RefillEligible(liq[j], cycle, code, cachePtr) ==>
                          RobRank(liq[r.value].seqNo, rob) <= RobRank(liq[j].seqNo, rob)
    ensures r.None? ==> forall j :: 0 <= j < |liq| ==> !RefillEligible(liq[j], cycle, code, cachePtr)
  {
    if liq == [] then None
    else
      var rest := LiqPick(liq[1..], cycle, code, cachePtr, rob);
      assert forall j :: 0 < j < |liq| ==> liq[j] == liq[1..][j - 1];
      if RefillEligible(liq[0], cycle, code, cachePtr)
         && (rest.None? || RobRank(liq[0].seqNo, rob) <= RobRank(liq[rest.value + 1].seqNo, rob)) then Some(0)
      else if rest.None? then None
      else Some(rest.value + 1)
  }

  function RefillChoice(cycle: nat, code: seq<Uop>, s: State): (r: Option<nat>)
    ensures r.Some? ==> r.value < |s.mem.liq| && RefillEligible(s.mem.liq[r.value], cycle, code, s.mem.cachePtr)
  {
    if LoadSlotAvailable(s.ex.e1, code) then LiqPick(s.mem.liq, cycle, code, s.mem.cachePtr, s.rt.rob) else None
  }

  function AdvanceLiq(cycle: nat, code: seq<Uop>, s: State): State {
    var i := RefillChoice(cycle, code, s);
    if i.None? then s
    else
      var x := s.mem.liq[i.value].seqNo;
      s.(mem := s.mem.(liq := RemoveAt(s.mem.liq, i.value), lhq := InsertOnce(s.mem.lhq, x),
                       mdb := Retain(s.mem.mdb, (r: Refill) => r.seqNo != x)),
         dyn := DynPut(s.dyn, x, DynAt(s.dyn, x).(missPendingUntil := None)),
         ex := s.ex.(e1 := s.ex.e1 + [x]))
  }

  predicate DrainReady(e: ScbEntry, cycle: nat, code: seq<Uop>, cachePtr: nat) {
    e.enqueueCycle < cycle && CacheReady(UopAt(code, e.seqNo), cachePtr)
  }

  function DrainChoice(cycle: nat, code: seq<Uop>, mem: Mem): (r: Option<nat>)
    ensures r.Some? ==>
      r.value < |mem.scb| && DrainReady(mem.scb[r.value], cycle, code, mem.cachePtr) && CanAcceptL1d(mem.l1d)
  {
    if CanAcceptL1d(mem.l1d) then Position(mem.scb, (e: ScbEntry) => DrainReady(e, cycle, code, mem.cachePtr)) else None
  }

  /** The drain loop runs at most once: the entry it starts fills the one-wide L1D. */
  function DrainStore(cycle: nat, code: seq<Uop>, mem: Mem): Mem {
    var i := DrainChoice(cycle, code, mem);
    if i.None? then mem
    else
      var x := mem.scb[i.value].seqNo;
      mem.(scb := RemoveAt(mem.scb, i.value), l1d := mem.l1d + [L1dEntry(x, StoreDrain, SatAdd(cycle, 1))],
           l1dLog := LogLsid(mem.l1dLog, UopAt(code, x)))
  }

  function AdvanceScb(cycle: nat, code: seq<Uop>, s: State): State { s.(mem := DrainStore(cycle, code, s.mem)) }
}
