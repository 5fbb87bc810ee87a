/** FENTRY, FEXIT and FRET: saving a register range to the stack and restoring it. */
module Frames {
  import opened Wrappers
  import opened GuestMemory
  import opened Bytes

  const REG_SP: nat := 1
  const REG_RA: nat := 10
  const REG_COUNT: nat := 32

  // -- The register range -------------------------------------------------------------------------

  function NextReg(r: nat): nat { if r + 1 > 23 then 2 else r + 1 }

  function After(r: nat, n: nat): nat
    decreases n
  {
    if n == 0 then r else After(NextReg(r), n - 1)
  }

  /** The range loop stops. */
  predicate Stops(begin: nat, end: nat) { begin == end || 2 <= end <= 23 || (begin == 0 && end == 1) }

  /** Steps from `cur` to `end`. */
  function Distance(cur: nat, end: nat): nat
    requires Stops(cur, end)
  {
    if cur <= end then end - cur else if cur <= 23 then 24 - cur + end - 2 else end - 1
  }

  function RegSeq(cur: nat, end: nat): seq<nat>
    requires Stops(cur, end)
    decreases Distance(cur, end)
  {
    [cur] + if cur == end then [] else RegSeq(NextReg(cur), end)
  }

  lemma {:induction false} NeverStops(begin: nat, end: nat, n: nat)
    requires !Stops(begin, end)
    ensures After(begin, n) != end
    decreases n
  {
    if n > 0 { NeverStops(NextReg(begin), end, n - 1); }
  }

  lemma {:induction false} ReachesEnd(begin: nat, end: nat)
    requires Stops(begin, end)
    ensures After(begin, Distance(begin, end)) == end
    decreases Distance(begin, end)
  {
    if begin != end { ReachesEnd(NextReg(begin), end); }
  }

  /** The loop of `wrapped_reg_sequence` ever meets its end register exactly when begin equals end,
      end is one of 2..23, or the range is 0..1. */
  lemma StopsExactly(begin: nat, end: nat)
    ensures Stops(begin, end) <==> exists n: nat :: After(begin, n) == end
  {
    if Stops(begin, end) {
      ReachesEnd(begin, end);
    } else {
      forall n: nat ensures After(begin, n) != end { NeverStops(begin, end, n); }
    }
  }

  lemma {:induction false} RegSeqDistance(cur: nat, end: nat, i: nat)
    requires Stops(cur, end) && i < |RegSeq(cur, end)|
    ensures var r := RegSeq(cur, end)[i]; Stops(r, end) && Distance(r, end) + i == Distance(cur, end)
    decreases i
  {
    if i > 0 { RegSeqDistance(NextReg(cur), end, i - 1); }
  }

  /** No register occurs twice. */
  lemma RegSeqDistinct(cur: nat, end: nat, i: nat, j: nat)
    requires Stops(cur, end) && i < j < |RegSeq(cur, end)|
    ensures RegSeq(cur, end)[i] != RegSeq(cur, end)[j]
  {
    RegSeqDistance(cur, end, i);
    RegSeqDistance(cur, end, j);
  }

  predicate RegList(q: seq<nat>) { forall k :: 0 <= k < |q| ==> q[k] < REG_COUNT }

  predicate NoRepeat(q: seq<nat>) { forall j, k :: 0 <= j < k < |q| ==> q[j] != q[k] }

  lemma RegSeqNoRepeat(cur: nat, end: nat)
    requires Stops(cur, end)
    ensures NoRepeat(RegSeq(cur, end))
  {
    var q := RegSeq(cur, end);
    forall i, j | 0 <= i < j < |q| ensures q[i] != q[j] { RegSeqDistinct(cur, end, i, j); }
  }

  lemma {:induction false} RegSeqBounds(cur: nat, end: nat)
    requires Stops(cur, end) && cur < REG_COUNT && end < REG_COUNT
    ensures RegList(RegSeq(cur, end))
    decreases Distance(cur, end)
  {
    if cur != end { RegSeqBounds(NextReg(cur), end); }
  }

  /** What the loop still has to push after `cur`. */
  function RestOf(cur: nat, end: nat): seq<nat>
    requires Stops(cur, end)
  {
    if cur == end then [] else RegSeq(NextReg(cur), end)
  }

  lemma PushNext(regs: seq<nat>, cur: nat, end: nat)
    requires Stops(cur, end) && cur != end
    ensures Stops(NextReg(cur), end) && (regs + [NextReg(cur)]) + RestOf(NextReg(cur), end) == regs + RestOf(cur, end)
  {
    var next := NextReg(cur);
    assert RegSeq(next, end) == [next] + RestOf(next, end);
    assert (regs + [next]) + RestOf(next, end) == regs + ([next] + RestOf(next, end));
  }

  method WrappedRegSequence(begin: nat, end: nat) returns (regs: seq<nat>)
    requires Stops(begin, end)
    ensures regs == RegSeq(begin, end)
  {
    var current := begin;
    regs := [current];
    ghost var goal := RegSeq(begin, end);
    while current != end
      invariant Stops(current, end) && regs + RestOf(current, end) == goal
      decreases Distance(current, end)
    {
      PushNext(regs, current, end);
      current := current + 1;
      if current > 23 { current := 2; }
      regs := regs + [current];
    }
  }

  // -- Saving -------------------------------------------------------------------------------------

  /** Where the `i`-th register of a range goes, counted down from the old stack pointer. */
  function SlotAt(top: nat, i: nat): int { top - 8 * (i + 1) }

  /** Save registers `i`, `i + 1`, ... of the range; x0 has no slot. Fails when a slot lies outside the
      frame or outside memory. */
  function SaveFrom(rs: seq<Region>, regs: seq<nat>, q: seq<nat>, i: nat, top: nat, size: nat): Option<seq<Region>>
    requires Valid(rs) && |regs| == REG_COUNT && RegList(q) && size <= top
    decreases |q| - i
  {
    if i >= |q| then Some(rs)
    else if q[i] == 0 then SaveFrom(rs, regs, q, i + 1, top, size)
    else if size < 8 * (i + 1) then None
    else
      var ws := WriteBytes(rs, SlotAt(top, i), Le(regs[q[i]], 8), {});
      if ws.None? then None
      else
        WriteAgrees(rs, SlotAt(top, i), Le(regs[q[i]], 8), {});
        SaveFrom(ws.value, regs, q, i + 1, top, size)
  }

  /** The saved registers stand in their slots, from the `from`-th on. */
  ghost predicate FrameHolds(rs: seq<Region>, regs: seq<nat>, q: seq<nat>, n: nat, top: nat, size: nat) {
    && |regs| == REG_COUNT && n <= |q|
    && forall i: nat ::
         i < n && q[i] != 0 ==>
           q[i] < REG_COUNT && 8 * (i + 1) <= size && size <= top && WordAt(rs, SlotAt(top, i), regs[q[i]])
  }

  lemma WordKept(rs: seq<Region>, ws: seq<Region>, at: nat, v: nat, lo: nat, hi: nat)
    requires WordAt(rs, at, v) && Kept(rs, ws, lo, hi) && (at + 8 <= lo || hi <= at)
    ensures WordAt(ws, at, v)
  {
    var b :| |b| == 8 && FromLe(b) == v && Stored(rs, at, b);
    assert Stored(ws, at, b);
  }

  lemma SlotFilled(rs: seq<Region>, ws: seq<Region>, regs: seq<nat>, q: seq<nat>, i: nat, top: nat, size: nat, at: nat)
    requires FrameHolds(rs, regs, q, i, top, size) && i < |q| && q[i] < REG_COUNT && size <= top
      && 8 * (i + 1) <= size && at == SlotAt(top, i)
    requires Kept(rs, ws, at, at + 8) && WordAt(ws, at, regs[q[i]])
    ensures FrameHolds(ws, regs, q, i + 1, top, size)
  {
    forall j: nat | j < i + 1 && q[j] != 0
      ensures q[j] < REG_COUNT && 8 * (j + 1) <= size && WordAt(ws, SlotAt(top, j), regs[q[j]])
    {
      if j < i { WordKept(rs, ws, SlotAt(top, j), regs[q[j]], at, at + 8); }
    }
  }

  lemma WordWritten(rs: seq<Region>, at: nat, v: nat)
    requires Valid(rs) && v <= ADDRESS_MAX && WriteBytes(rs, at, Le(v, 8), {}).Some?
    ensures var ws := WriteBytes(rs, at, Le(v, 8), {}).value; Valid(ws) && Kept(rs, ws, at, at + 8) && WordAt(ws, at, v)
  {
    WriteAgrees(rs, at, Le(v, 8), {});
    WriteKept(rs, at, Le(v, 8), {});
    BlockIsWord(WriteBytes(rs, at, Le(v, 8), {}).value, at, v);
  }

  ghost predicate RegsOk(regs: seq<nat>) {
    |regs| == REG_COUNT && regs[0] == 0 && forall i :: 0 <= i < REG_COUNT ==> regs[i] <= ADDRESS_MAX
  }

  /** A successful save leaves every register of the range in its own slot. */
  lemma {:induction false} SaveHolds(rs: seq<Region>, regs: seq<nat>, q: seq<nat>, i: nat, top: nat, size: nat)
    requires Valid(rs) && RegsOk(regs) && RegList(q) && size <= top && i <= |q|
    requires FrameHolds(rs, regs, q, i, top, size) && SaveFrom(rs, regs, q, i, top, size).Some?
    ensures var ws := SaveFrom(rs, regs, q, i, top, size).value; Valid(ws) && FrameHolds(ws, regs, q, |q|, top, size)
    decreases |q| - i
  {
    if i < |q| {
      if q[i] == 0 {
        SaveHolds(rs, regs, q, i + 1, top, size);
      } else {
        var at: nat := SlotAt(top, i);
        var ws := WriteBytes(rs, at, Le(regs[q[i]], 8), {}).value;
        WordWritten(rs, at, regs[q[i]]);
        SlotFilled(rs, ws, regs, q, i, top, size, at);
        SaveHolds(ws, regs, q, i + 1, top, size);
      }
    }
  }

  // -- Restoring ----------------------------------------------------------------------------------

  function WriteReg(regs: seq<nat>, r: nat, v: nat): (s: seq<nat>)
    requires r < |regs| && 0 < |regs|
    ensures |s| == |regs|
  {
    if r != 0 then regs[r := v][0 := 0] else regs[0 := 0]
  }

  /** Load registers `i`, `i + 1`, ... of the range from their slots. Fails when a slot is not readable. */
  function RestoreFrom(rs: seq<Region>, regs: seq<nat>, q: seq<nat>, i: nat, top: nat): (r: Option<seq<nat>>)
    requires (forall x :: x in rs ==> x.Ok()) && |regs| == REG_COUNT && RegList(q)
    ensures r.Some? ==> |r.value| == REG_COUNT
    decreases |q| - i
  {
    if i >= |q| then Some(regs)
    else if q[i] == 0 then RestoreFrom(rs, regs, q, i + 1, top)
    else if top < 8 * (i + 1) then None
    else
      var v := ReadWord(rs, SlotAt(top, i), {});
      if v.None? then None else RestoreFrom(rs, WriteReg(regs, q[i], v.value), q, i + 1, top)
  }

  /** From a frame that holds `saved`, the loop restores exactly the registers of the range. */
  lemma {:induction false} RestoreHolds(rs: seq<Region>, saved: seq<nat>, regs: seq<nat>, q: seq<nat>, i: nat,
                                        top: nat, size: nat, x: nat)
    requires Valid(rs) && FrameHolds(rs, saved, q, |q|, top, size) && |regs| == REG_COUNT && regs[0] == 0
      && x < REG_COUNT && i <= |q|
    requires RegList(q) && NoRepeat(q)
    ensures var r := RestoreFrom(rs, regs, q, i, top);
      r.Some? && r.value[0] == 0 && (x != 0 ==> r.value[x] == if x in q[i..] then saved[x] else regs[x])
    decreases |q| - i
  {
    if i < |q| {
      assert q[i..] == [q[i]] + q[i + 1..];
      if q[i] == 0 {
        RestoreHolds(rs, saved, regs, q, i + 1, top, size, x);
      } else {
        var at: nat := SlotAt(top, i);
        WordReads(rs, at, saved[q[i]]);
        RestoreHolds(rs, saved, WriteReg(regs, q[i], saved[q[i]]), q, i + 1, top, size, x);
        forall k | i + 1 <= k < |q| ensures q[k] != q[i] {}
        assert q[i] !in q[i + 1..];
      }
    }
  }

  lemma RestoreRange(rs: seq<Region>, saved: seq<nat>, regs: seq<nat>, q: seq<nat>, top: nat, size: nat, x: nat)
    requires Valid(rs) && FrameHolds(rs, saved, q, |q|, top, size) && |regs| == REG_COUNT && regs[0] == 0
      && x < REG_COUNT && RegList(q) && NoRepeat(q)
    ensures var r := RestoreFrom(rs, regs, q, 0, top);
      r.Some? && r.value[0] == 0 && (x != 0 ==> r.value[x] == if x in q then saved[x] else regs[x])
  {
    RestoreHolds(rs, saved, regs, q, 0, top, size, x);
    assert q[0..] == q;
  }

  // -- The instructions ---------------------------------------------------------------------------

  datatype Cpu = Cpu(regs: seq<nat>, memory: seq<Region>)

  function Wrap(v: nat): nat { v % (ADDRESS_MAX + 1) }

  /** The whole range saved below `top`. */
  function Saved(rs: seq<Region>, regs: seq<nat>, q: seq<nat>, top: nat, size: nat): Option<seq<Region>>
    requires Valid(rs) && |regs| == REG_COUNT && RegList(q) && size <= top
  {
    SaveFrom(rs, regs, q, 0, top, size)
  }

  /** `apply_fentry`. */
  function Fentry(c: Cpu, begin: nat, end: nat, size: nat): Option<Cpu>
    requires RegsOk(c.regs) && Valid(c.memory) && Stops(begin, end) && begin < REG_COUNT && end < REG_COUNT
  {
    var top := c.regs[REG_SP];
    if top < size then None
    else
      RegSeqBounds(begin, end);
      var ws := Saved(c.memory, c.regs, RegSeq(begin, end), top, size);
      if ws.None? then None else Some(Cpu(c.regs[REG_SP := top - size], ws.value))
  }

  /** Restore the range and set the stack pointer. */
  function Leave(c: Cpu, q: seq<nat>, top: nat): (r: Option<Cpu>)
    requires |c.regs| == REG_COUNT && Valid(c.memory) && RegList(q)
    ensures r.Some? ==> |r.value.regs| == REG_COUNT
  {
    var regs := RestoreFrom(c.memory, c.regs, q, 0, top);
    if regs.None? then None else Some(Cpu(regs.value[REG_SP := top], c.memory))
  }

  lemma WrapSmall(v: nat)
    requires v <= ADDRESS_MAX
    ensures Wrap(v) == v
  {
  }

  /** Leaving a frame that holds `saved`. */
  lemma LeaveRestores(c: Cpu, saved: seq<nat>, q: seq<nat>, top: nat, size: nat, x: nat)
    requires |c.regs| == REG_COUNT && c.regs[0] == 0 && Valid(c.memory) && RegList(q) && NoRepeat(q) && x < REG_COUNT
    requires FrameHolds(c.memory, saved, q, |q|, top, size)
    ensures var r := Leave(c, q, top);
      && r.Some? && r.value.memory == c.memory && r.value.regs[REG_SP] == top && r.value.regs[0] == 0
      && (x != 0 && x != REG_SP ==> r.value.regs[x] == if x in q then saved[x] else c.regs[x])
  {
    RestoreRange(c.memory, saved, c.regs, q, top, size, x);
  }

  /** `apply_fexit`. The stack pointer wraps at 64 bits. */
  function Fexit(c: Cpu, begin: nat, end: nat, size: nat): (r: Option<Cpu>)
    requires RegsOk(c.regs) && Valid(c.memory) && Stops(begin, end) && begin < REG_COUNT && end < REG_COUNT
    ensures r.Some? ==> |r.value.regs| == REG_COUNT
  {
    RegSeqBounds(begin, end);
    Leave(c, RegSeq(begin, end), Wrap(c.regs[REG_SP] + size))
  }

  /** `apply_fret_stk`: restore, then jump to the restored RA. */
  function FretStk(c: Cpu, begin: nat, end: nat, size: nat): Option<(Cpu, nat)>
    requires RegsOk(c.regs) && Valid(c.memory) && Stops(begin, end) && begin < REG_COUNT && end < REG_COUNT
  {
    var r := Fexit(c, begin, end, size);
    if r.None? then None else Some((r.value, r.value.regs[REG_RA]))
  }

  /** `apply_fret_ra`: jump to RA as it was before the restore. */
  function FretRa(c: Cpu, begin: nat, end: nat, size: nat): Option<(Cpu, nat)>
    requires RegsOk(c.regs) && Valid(c.memory) && Stops(begin, end) && begin < REG_COUNT && end < REG_COUNT
  {
    var r := Fexit(c, begin, end, size);
    if r.None? then None else Some((r.value, c.regs[REG_RA]))
  }

  lemma FrameSaved(c: Cpu, begin: nat, end: nat, size: nat)
    requires RegsOk(c.regs) && Valid(c.memory) && Stops(begin, end) && begin < REG_COUNT && end < REG_COUNT
      && Fentry(c, begin, end, size).Some?
    ensures var d := Fentry(c, begin, end, size).value;
      && RegsOk(d.regs) && Valid(d.memory) && d.regs == c.regs[REG_SP := c.regs[REG_SP] - size]
      && FrameHolds(d.memory, c.regs, RegSeq(begin, end), |RegSeq(begin, end)|, c.regs[REG_SP], size)
  {
    RegSeqBounds(begin, end);
    SaveHolds(c.memory, c.regs, RegSeq(begin, end), 0, c.regs[REG_SP], size);
  }

  /** The bytes of the frame [low, high) are still where they were. */
  ghost predicate FrameBytesKept(rs: seq<Region>, ws: seq<Region>, low: nat, high: nat) {
    forall at: nat, bytes: seq<Byte> :: low <= at && at + |bytes| <= high && Stored(rs, at, bytes) ==>
      Stored(ws, at, bytes)
  }

  lemma FrameStays(rs: seq<Region>, ws: seq<Region>, regs: seq<nat>, q: seq<nat>, top: nat, size: nat)
    requires FrameHolds(rs, regs, q, |q|, top, size) && size <= top && FrameBytesKept(rs, ws, top - size, top)
    ensures FrameHolds(ws, regs, q, |q|, top, size)
  {
    forall i: nat | i < |q| && q[i] != 0 ensures WordAt(ws, SlotAt(top, i), regs[q[i]]) {
      var at: nat := SlotAt(top, i);
      assert WordAt(rs, at, regs[q[i]]);
      var b :| |b| == 8 && FromLe(b) == regs[q[i]] && Stored(rs, at, b);
      assert Stored(ws, at, b);
    }
  }

  /** FEXIT from a frame that holds `saved`. */
  lemma ExitRestores(c: Cpu, saved: seq<nat>, begin: nat, end: nat, size: nat, top: nat, x: nat)
    requires RegsOk(c.regs) && Valid(c.memory) && Stops(begin, end) && begin < REG_COUNT && end < REG_COUNT
      && x < REG_COUNT
    requires FrameHolds(c.memory, saved, RegSeq(begin, end), |RegSeq(begin, end)|, top, size)
      && c.regs[REG_SP] + size == top <= ADDRESS_MAX
    ensures var r := Fexit(c, begin, end, size);
      && r.Some? && r.value.memory == c.memory && r.value.regs[REG_SP] == top && r.value.regs[0] == 0
      && (x != 0 && x != REG_SP ==> r.value.regs[x] == if x in RegSeq(begin, end) then saved[x] else c.regs[x])
  {
    RegSeqBounds(begin, end);
    RegSeqNoRepeat(begin, end);
    WrapSmall(c.regs[REG_SP] + size);
    LeaveRestores(c, saved, RegSeq(begin, end), top, size, x);
  }

  /** Frame round trip: after a successful FENTRY, whatever happens that leaves SP and the bytes of the
      frame alone, FEXIT with the same operands succeeds, restores SP and every saved register, and
      touches no other. */
  lemma FrameRoundTrip(c: Cpu, begin: nat, end: nat, size: nat, later: Cpu, x: nat)
    requires RegsOk(c.regs) && Valid(c.memory) && Stops(begin, end) && begin < REG_COUNT && end < REG_COUNT
      && Fentry(c, begin, end, size).Some?
    requires RegsOk(later.regs) && Valid(later.memory) && x < REG_COUNT
    requires var d := Fentry(c, begin, end, size).value;
      later.regs[REG_SP] == d.regs[REG_SP] && FrameBytesKept(d.memory, later.memory, d.regs[REG_SP], c.regs[REG_SP])
    ensures var r := Fexit(later, begin, end, size);
      && r.Some? && r.value.memory == later.memory && r.value.regs[REG_SP] == c.regs[REG_SP] && r.value.regs[0] == 0
      && (x != 0 && x != REG_SP ==> r.value.regs[x] == if x in RegSeq(begin, end) then c.regs[x] else later.regs[x])
  {
    var d, q, top := Fentry(c, begin, end, size).value, RegSeq(begin, end), c.regs[REG_SP];
    FrameSaved(c, begin, end, size);
    FrameStays(d.memory, later.memory, c.regs, q, top, size);
    ExitRestores(later, c.regs, begin, end, size, top, x);
  }

  /** FRET.STK then returns to the address RA held at FENTRY, when RA is in the range. */
  lemma ReturnsToCaller(c: Cpu, begin: nat, end: nat, size: nat, later: Cpu)
    requires RegsOk(c.regs) && Valid(c.memory) && Stops(begin, end) && begin < REG_COUNT && end < REG_COUNT
      && Fentry(c, begin, end, size).Some?
    requires RegsOk(later.regs) && Valid(later.memory)
    requires var d := Fentry(c, begin, end, size).value;
      later.regs[REG_SP] == d.regs[REG_SP] && FrameBytesKept(d.memory, later.memory, d.regs[REG_SP], c.regs[REG_SP])
    ensures var r := FretStk(later, begin, end, size);
      r.Some? && r.value.1 == if REG_RA in RegSeq(begin, end) then c.regs[REG_RA] else later.regs[REG_RA]
    ensures FretRa(later, begin, end, size).Some? && FretRa(later, begin, end, size).value.1 == later.regs[REG_RA]
  {
    FrameRoundTrip(c, begin, end, size, later, REG_RA);
  }

  /** The executing machine: registers and memory updated in place. */
  class Machine {
    var regs: seq<nat>
    const memory: Memory

    ghost predicate Ok()
      reads this, memory
    {
      RegsOk(regs) && Valid(memory.regions)
    }

    function State(): Cpu
      reads this, memory
    {
      Cpu(regs, memory.regions)
    }

    constructor (regs: seq<nat>, memory: Memory)
      ensures this.regs == regs && this.memory == memory
    {
      this.regs := regs;
      this.memory := memory;
    }

    method SaveRegs(q: seq<nat>, top: nat, size: nat) returns (ok: bool)
      requires |regs| == REG_COUNT && Valid(memory.regions) && RegList(q) && size <= top
      modifies memory
      ensures Valid(memory.regions)
      ensures var ws := Saved(old(memory.regions), regs, q, top, size);
        ok == ws.Some? && (ok ==> memory.regions == ws.value)
    {
      ghost var goal := SaveFrom(memory.regions, regs, q, 0, top, size);
      var i := 0;
      while i < |q|
        modifies memory
        invariant i <= |q| && Valid(memory.regions) && SaveFrom(memory.regions, regs, q, i, top, size) == goal
      {
        if q[i] != 0 {
          if size < 8 * (i + 1) { return false; }
          ok := memory.Write(SlotAt(top, i), Le(regs[q[i]], 8), {});
          if !ok { return; }
        }
        i := i + 1;
      }
      ok := true;
    }

    method EnterFrame(begin: nat, end: nat, size: nat) returns (ok: bool)
      requires Ok() && Stops(begin, end) && begin < REG_COUNT && end < REG_COUNT
      modifies this, memory
      ensures ok == Fentry(old(State()), begin, end, size).Some?
        && (ok ==> State() == Fentry(old(State()), begin, end, size).value)
      ensures Valid(memory.regions) && (!ok ==> regs == old(regs))
    {
      var top := regs[REG_SP];
      if top < size { return false; }
      var q := WrappedRegSequence(begin, end);
      RegSeqBounds(begin, end);
      ok := SaveRegs(q, top, size);
      if ok { regs := regs[REG_SP := top - size]; }
    }

    method RestoreRegs(q: seq<nat>, top: nat) returns (ok: bool)
      requires |regs| == REG_COUNT && Valid(memory.regions) && RegList(q)
      modifies this
      ensures var r := RestoreFrom(memory.regions, old(regs), q, 0, top); ok == r.Some? && (ok ==> regs == r.value)
    {
      ghost var goal := RestoreFrom(memory.regions, regs, q, 0, top);
      var i := 0;
      while i < |q|
        modifies this
        invariant i <= |q| && |regs| == REG_COUNT && RestoreFrom(memory.regions, regs, q, i, top) == goal
      {
        if q[i] != 0 {
          if top < 8 * (i + 1) { return false; }
          var v := ReadWord(memory.regions, SlotAt(top, i), {});
          if v.None? { return false; }
          regs := WriteReg(regs, q[i], v.value);
        }
        i := i + 1;
      }
      ok := true;
    }

    method LeaveFrame(begin: nat, end: nat, size: nat) returns (ok: bool)
      requires Ok() && Stops(begin, end) && begin < REG_COUNT && end < REG_COUNT
      modifies this
      ensures ok == Fexit(old(State()), begin, end, size).Some?
        && (ok ==> State() == Fexit(old(State()), begin, end, size).value)
    {
      var top := Wrap(regs[REG_SP] + size);
      var q := WrappedRegSequence(begin, end);
      RegSeqBounds(begin, end);
      ok := RestoreRegs(q, top);
      if ok { regs := regs[REG_SP := top]; }
    }
  }
}
