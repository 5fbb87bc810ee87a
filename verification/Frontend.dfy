/** Fetch, the eleven frontend stages and dispatch into the issue queues. */
module Frontend {
  import opened Wrappers
  import opened Seqs
  import opened Model
  import opened Queues

  predicate Unresolved(u: Uop, d: Dyn) { u.redirectTarget.Some? && d.w1.None? && d.done.None? }

  /** Some uop already fetched is an unresolved redirect. */
  predicate FetchBarrier(nextFetch: nat, code: seq<Uop>, dyn: seq<Dyn>) {
    exists x :: 0 <= x < nextFetch && Unresolved(UopAt(code, x), DynAt(dyn, x))
  }

  function FetchLoop(code: seq<Uop>, dyn: seq<Dyn>, fe: Fetch): Fetch
    decreases |code| - fe.nextFetch
  {
    if |fe.front[0]| >= FETCH_WIDTH || fe.nextFetch >= |code| || FetchBarrier(fe.nextFetch, code, dyn) then fe
    else
      var fe' := fe.(front := fe.front[0 := fe.front[0] + [fe.nextFetch]], nextFetch := fe.nextFetch + 1);
      if code[fe.nextFetch].redirectTarget.Some? then fe' else FetchLoop(code, dyn, fe')
  }

  function TakeRestart(fe: Fetch): Fetch {
    if fe.redirect.None? then fe else fe.(nextFetch := fe.redirect.value.restartSeq, redirect := None)
  }

  function FillFetch(cycle: nat, code: seq<Uop>, s: State): State {
    if s.fe.redirect.Some? && cycle < s.fe.redirect.value.resumeCycle then s
    else s.(fe := FetchLoop(code, s.dyn, TakeRestart(s.fe)))
  }

  function BypassDyn(d: Dyn, cycle: nat): Dyn {
    d.(pickVisible := if d.pickVisible.Some? then d.pickVisible else Some(cycle + 1),
       dataVisible := if d.dataVisible.Some? then d.dataVisible else Some(cycle + 1),
       physIq := Some(CmdIq))
  }

  /** Dispatch in progress: uops held back in S2, W2, the queue, the uops and the ports used. */
  datatype Dispatcher = Dispatcher(stay: seq<nat>, w2: seq<nat>, q: Queue, dyn: seq<Dyn>, ports: map<PhysIq, nat>)

  /** Allocate `qtag` to `x`, capture its source tags, register its waits and make its entry. */
  function Enqueue(x: nat, p: PhysIq, qtag: QTag, cycle: nat, code: seq<Uop>, d: Dispatcher): Dispatcher {
    var iqTags := d.q.iqTags[x := qtag];
    var named := DynPut(d.dyn, x, DynAt(d.dyn, x).(physIq := Some(p), dstQtag := Some(qtag)));
    var dyn := AnnotateQTagSources(x, iqTags, d.q.ready, code, named);
    Dispatcher(d.stay, d.w2,
               d.q.(iqTags := iqTags, crossbar := RegisterWaiter(d.q.crossbar, x, DynAt(dyn, x)),
                    iq := d.q.iq + [MakeIqEntry(cycle, x, p, d.q.ready, code, dyn)]),
               dyn, d.ports[p := PortsUsed(d.ports, p) + 1])
  }

  function Snapshot(x: nat, input: Input, code: seq<Uop>, q: Queue): Queue {
    if UopAt(code, x).startMarker && x in input.snapshots
    then q.(checkpoints := q.checkpoints[input.snapshots[x] := q.ready]) else q
  }

  function DispatchBypass(x: nat, cycle: nat, d: Dispatcher): Dispatcher {
    var dyn := DynPut(d.dyn, x, BypassDyn(DynAt(d.dyn, x), cycle));
    if |d.w2| < ISSUE_WIDTH then d.(w2 := d.w2 + [x], dyn := dyn) else d.(stay := d.stay + [x], dyn := dyn)
  }

  function DispatchToIq(x: nat, cycle: nat, code: seq<Uop>, d: Dispatcher): Dispatcher {
    var p := RoutePhysIq(UopAt(code, x), d.q.iq, d.ports);
    if p.None? then d.(stay := d.stay + [x])
    else
      var qtag := AllocateQTag(d.q.iqTags, p.value);
      if qtag.None? then d.(stay := d.stay + [x]) else Enqueue(x, p.value, qtag.value, cycle, code, d)
  }

  function DispatchOne(x: nat, cycle: nat, input: Input, code: seq<Uop>, d: Dispatcher): Dispatcher {
    var d' := d.(q := Snapshot(x, input, code, d.q));
    if UopAt(code, x).bypass then DispatchBypass(x, cycle, d') else DispatchToIq(x, cycle, code, d')
  }

  function DispatchLoop(pending: seq<nat>, cycle: nat, input: Input, code: seq<Uop>, d: Dispatcher): Dispatcher {
    if pending == [] then d
    else DispatchLoop(pending[1..], cycle, input, code, DispatchOne(pending[0], cycle, input, code, d))
  }

  function Dispatch(cycle: nat, input: Input, code: seq<Uop>, s: State): State {
    var d := DispatchLoop(s.fe.front[10], cycle, input, code, Dispatcher([], s.ex.w2, s.q, s.dyn, map[]));
    s.(fe := s.fe.(front := s.fe.front[10 := d.stay]), ex := s.ex.(w2 := d.w2),
       q := d.q.(owner := RebuildOwner(d.q.iq, d.q.iqTags)), dyn := d.dyn)
  }

  function NotInRob(q: seq<nat>, rob: seq<nat>): seq<nat> { Retain(q, x => x !in rob) }

  /** Append the elements of `q` that the reorder buffer does not hold yet. */
  function AllocateRob(q: seq<nat>, rob: seq<nat>): seq<nat> {
    if q == [] then rob else AllocateRob(q[1..], if q[0] in rob then rob else rob + [q[0]])
  }

  datatype Stages = Stages(front: Front, rob: seq<nat>)

  function MoveStage(idx: nat, front: Front): Front
    requires 1 <= idx < STAGES
  {
    var n := MoveCount(front[idx], front[idx - 1], DISPATCH_WIDTH);
    front[idx := front[idx] + front[idx - 1][..n]][idx - 1 := front[idx - 1][n..]]
  }

  /** One stage move; leaving D1 (`idx == 7`) first allocates reorder-buffer slots. */
  function AdvanceStage(idx: nat, a: Stages): Stages
    requires 1 <= idx < STAGES
  {
    if idx != 7 then a.(front := MoveStage(idx, a.front))
    else if |a.rob| + |NotInRob(a.front[6], a.rob)| > ROB_CAPACITY then a
    else Stages(MoveStage(7, a.front), AllocateRob(a.front[6], a.rob))
  }

  function AdvanceStages(idx: nat, a: Stages): Stages
    requires idx < STAGES
    decreases idx
  {
    if idx == 0 then a else AdvanceStages(idx - 1, AdvanceStage(idx, a))
  }

  function AdvanceFrontend(s: State): State {
    var a := AdvanceStages(|s.fe.front| - 1, Stages(s.fe.front, s.rt.rob));
    s.(fe := s.fe.(front := a.front), rt := s.rt.(rob := a.rob))
  }
}
