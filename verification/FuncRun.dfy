/** The run loop of the functional engine: it terminates although closing a block costs no step, and
    its commit stream follows the control flow. */
module FuncRun {
  import opened Wrappers

  datatype BlockKind = Fall | Direct | Cond | Call | Ind | ICall | Ret

  datatype Block = Block(kind: BlockKind, target: Option<nat>, returnTarget: Option<nat>)

  /** The part of the machine the loop itself reads or writes: `stepReg` is the system register that
      counts steps, and `rest` stands for all other state. */
  datatype Machine<!S> = Machine(pc: nat, block: Option<Block>, cond: bool, carg: bool, target: nat, ra: nat,
                                 stepReg: nat, rest: S)

  datatype Exit = GuestExit(code: int) | Breakpoint | Fault

  /** The machine after a step, where control goes, and whether the guest stops. A step that fails
      stays at its pc and exits with a fault. */
  datatype Outcome<!S> = Outcome(machine: Machine<S>, nextPc: nat, exit: Option<Exit>)

  /** Fetch, decode and execute, as the guest's memory and the decoder give them. */
  datatype Guest<!S, !I> = Guest(fetch: Machine<S> -> Option<nat>, decode: nat -> Option<I>, opensBlock: I -> bool,
                                 execute: (Machine<S>, I) -> Outcome<S>)

  datatype Commit = Commit(cycle: nat, pc: nat, nextPc: nat)

  datatype Reason = StepLimit | DecodeFault | Stopped(exit: Exit)

  /** `machines[i]` is the machine after the `i`-th commit. */
  datatype Result<!S, !I> = Run(commits: seq<Commit>, decoded: seq<I>, machines: seq<Machine<S>>,
                                reason: Reason) | FetchError

  /** `resolve_block_end`: close the open block and find where it leads. */
  function BlockEnd<S>(m: Machine<S>): (r: (Machine<S>, nat))
    ensures r.0.block.None? && r.0.pc == m.pc && !r.0.cond && !r.0.carg && r.0.target == 0 && r.0.stepReg == m.stepReg
  {
    var closed := m.(block := None, cond := false, carg := false, target := 0);
    if m.block.None? then (closed, m.pc)
    else
      var b := m.block.value;
      var direct := if b.target.Some? then b.target.value else m.pc;
      var calling := if b.returnTarget.None? then closed.(ra := m.pc) else closed;
      match b.kind
      case Fall => (closed, m.pc)
      case Direct => (closed, direct)
      case Cond => (closed, if m.cond then direct else m.pc)
      case Call => (calling, direct)
      case Ind => (closed, m.target)
      case ICall => (calling, m.target)
      case Ret => (closed, if m.target != 0 then m.target else m.ra)
  }

  /** The machine goes on elsewhere because the instruction at its pc would open a new block while
      one is still open, and closing that one leads away. */
  predicate LeavesBlock<S, I>(g: Guest<S, I>, m: Machine<S>, insn: I) {
    m.block.Some? && g.opensBlock(insn) && BlockEnd(m).1 != m.pc
  }

  /** The machine that executes `insn`: a block that leads right here is closed first. */
  function AtExecution<S, I>(g: Guest<S, I>, m: Machine<S>, insn: I): Machine<S> {
    if m.block.Some? && g.opensBlock(insn) then BlockEnd(m).0 else m
  }

  function Cons<S, I>(c: Commit, insn: I, m: Machine<S>, r: Result<S, I>): Result<S, I> {
    match r
    case FetchError => FetchError
    case Run(commits, decoded, machines, reason) => Run([c] + commits, [insn] + decoded, [m] + machines, reason)
  }

  /** The machine with the step written to its step register, as every pass of the loop begins. */
  function Counted<S>(m: Machine<S>, step: nat): Machine<S> { m.(stepReg := step) }

  /** The run loop from `m` with `step` steps taken. It terminates by the number of steps left and
      then by whether a block is open. */
  function RunFrom<S, I>(g: Guest<S, I>, start: Machine<S>, step: nat, max: nat): Result<S, I>
    decreases max - step, if start.block.Some? then 1 else 0
  {
    if step >= max then Run([], [], [], StepLimit)
    else
      var m := Counted(start, step);
      var bundle := g.fetch(m);
      if bundle.None? then FetchError
      else
        var insn := g.decode(bundle.value);
        if insn.None? then Run([Commit(step, m.pc, m.pc)], [], [m], DecodeFault)
        else if LeavesBlock(g, m, insn.value) then RunFrom(g, BlockEnd(m).0.(pc := BlockEnd(m).1), step, max)
        else
          var o := g.execute(AtExecution(g, m, insn.value), insn.value);
          var next := o.machine.(pc := o.nextPc);
          var c := Commit(step, m.pc, o.nextPc);
          if o.exit.Some? then Run([c], [insn.value], [next], Stopped(o.exit.value))
          else Cons(c, insn.value, next, RunFrom(g, next, step + 1, max))
  }

  /** At most `max` commits; as many decoded instructions, except that a final decode fault commits
      without one. */
  lemma {:induction false} RunCounts<S, I>(g: Guest<S, I>, start: Machine<S>, step: nat, max: nat)
    requires step <= max
    ensures var r := RunFrom(g, start, step, max); r.Run? ==>
      && |r.commits| <= max - step && |r.machines| == |r.commits|
      && |r.commits| == |r.decoded| + (if r.reason == DecodeFault then 1 else 0)
      && (r.reason == StepLimit ==> |r.commits| == max - step)
    decreases max - step, if start.block.Some? then 1 else 0
  {
    var m := Counted(start, step);
    if step < max && g.fetch(m).Some? && g.decode(g.fetch(m).value).Some? {
      var insn := g.decode(g.fetch(m).value).value;
      if LeavesBlock(g, m, insn) {
        RunCounts(g, BlockEnd(m).0.(pc := BlockEnd(m).1), step, max);
      } else {
        var o := g.execute(AtExecution(g, m, insn), insn);
        if o.exit.None? { RunCounts(g, o.machine.(pc := o.nextPc), step + 1, max); }
      }
    }
  }

  /** Where commit number `step` happens when the machine before it is `start`: at its pc, or at the
      target of the block closed there. */
  predicate Follows<S, I>(g: Guest<S, I>, start: Machine<S>, step: nat, pc: nat) {
    var m := Counted(start, step);
    var bundle := g.fetch(m);
    && bundle.Some?
    && var insn := g.decode(bundle.value);
       pc == if insn.Some? && LeavesBlock(g, m, insn.value) then BlockEnd(m).1 else m.pc
  }

  predicate FollowsAt<S, I>(g: Guest<S, I>, commits: seq<Commit>, machines: seq<Machine<S>>, i: nat)
    requires 1 <= i < |commits| && |machines| == |commits|
  {
    Follows(g, machines[i - 1], commits[i].cycle, commits[i].pc)
  }

  /** The commits are numbered from `step` on and each follows from the machine the one before left. */
  ghost predicate Chained<S, I>(g: Guest<S, I>, step: nat, commits: seq<Commit>, machines: seq<Machine<S>>) {
    && |machines| == |commits|
    && (forall i :: 0 <= i < |commits| ==> commits[i].cycle == step + i && machines[i].pc == commits[i].nextPc)
    && (forall i :: 1 <= i < |commits| ==> FollowsAt(g, commits, machines, i))
  }

  lemma ChainCons<S, I>(g: Guest<S, I>, step: nat, c: Commit, m: Machine<S>, commits: seq<Commit>,
                        machines: seq<Machine<S>>)
    requires Chained(g, step + 1, commits, machines) && c.cycle == step && m.pc == c.nextPc
    requires commits != [] ==> Follows(g, m, step + 1, commits[0].pc)
    ensures Chained(g, step, [c] + commits, [m] + machines)
  {
    var cs, ms := [c] + commits, [m] + machines;
    forall i | 1 <= i < |cs| ensures FollowsAt(g, cs, ms, i) {
      var j := i - 1;
      assert cs[i] == commits[j];
      if j > 0 {
        assert FollowsAt(g, commits, machines, j);
        assert ms[j] == machines[j - 1];
      }
    }
  }

  /** Every commit carries its step number and its pc is the previous one's next pc, or the target of
      the block that was closed there; and the machine is where the last commit says. */
  lemma {:induction false} RunChained<S, I>(g: Guest<S, I>, start: Machine<S>, step: nat, max: nat)
    ensures var r := RunFrom(g, start, step, max); r.Run? ==>
      Chained(g, step, r.commits, r.machines) && (r.commits != [] ==> Follows(g, start, step, r.commits[0].pc))
    decreases max - step, if start.block.Some? then 1 else 0
  {
    var m := Counted(start, step);
    if step < max && g.fetch(m).Some? && g.decode(g.fetch(m).value).Some? {
      var insn := g.decode(g.fetch(m).value).value;
      if LeavesBlock(g, m, insn) {
        RunChained(g, BlockEnd(m).0.(pc := BlockEnd(m).1), step, max);
      } else {
        var o := g.execute(AtExecution(g, m, insn), insn);
        var next := o.machine.(pc := o.nextPc);
        if o.exit.None? {
          RunChained(g, next, step + 1, max);
          var r := RunFrom(g, next, step + 1, max);
          if r.Run? { ChainCons(g, step, Commit(step, m.pc, o.nextPc), next, r.commits, r.machines); }
        }
      }
    }
  }

  function Prepend<S, I>(commits: seq<Commit>, decoded: seq<I>, machines: seq<Machine<S>>,
                         r: Result<S, I>): Result<S, I> {
    match r
    case FetchError => FetchError
    case Run(cs, ds, ms, reason) => Run(commits + cs, decoded + ds, machines + ms, reason)
  }

  lemma PrependCons<S, I>(commits: seq<Commit>, decoded: seq<I>, machines: seq<Machine<S>>, c: Commit, insn: I,
                          m: Machine<S>, r: Result<S, I>)
    ensures Prepend(commits, decoded, machines, Cons(c, insn, m, r))
        == Prepend(commits + [c], decoded + [insn], machines + [m], r)
  {
    if r.Run? {
      assert commits + ([c] + r.commits) == (commits + [c]) + r.commits;
      assert decoded + ([insn] + r.decoded) == (decoded + [insn]) + r.decoded;
      assert machines + ([m] + r.machines) == (machines + [m]) + r.machines;
    }
  }

  /** `FuncEngine::run`. */
  method RunLoop<S, I>(g: Guest<S, I>, start: Machine<S>, max: nat) returns (r: Result<S, I>)
    ensures r == RunFrom(g, start, 0, max)
    ensures r.Run? ==> |r.commits| <= max && Chained(g, 0, r.commits, r.machines)
  {
    RunCounts(g, start, 0, max);
    RunChained(g, start, 0, max);
    var m, step := start, 0;
    var commits: seq<Commit>, decoded: seq<I>, machines: seq<Machine<S>> := [], [], [];
    ghost var goal := RunFrom(g, start, 0, max);
    while step < max
      invariant step <= max && Prepend(commits, decoded, machines, RunFrom(g, m, step, max)) == goal
      decreases max - step, if m.block.Some? then 1 else 0
    {
      m := Counted(m, step);
      var bundle := g.fetch(m);
      if bundle.None? { return FetchError; }
      var insn := g.decode(bundle.value);
      if insn.None? { return Run(commits + [Commit(step, m.pc, m.pc)], decoded + [], machines + [m], DecodeFault); }
      var here := m;
      if m.block.Some? && g.opensBlock(insn.value) {
        var (closed, nextPc) := BlockEnd(m);
        if nextPc != m.pc {
          m := closed.(pc := nextPc);
          continue;
        }
        here := closed;
      }
      var o := g.execute(here, insn.value);
      ghost var next, c := o.machine.(pc := o.nextPc), Commit(step, m.pc, o.nextPc);
      PrependCons(commits, decoded, machines, c, insn.value, next, RunFrom(g, next, step + 1, max));
      commits, decoded, machines := commits + [Commit(step, m.pc, o.nextPc)], decoded + [insn.value],
          machines + [o.machine.(pc := o.nextPc)];
      if o.exit.Some? { return Run(commits, decoded, machines, Stopped(o.exit.value)); }
      m, step := o.machine.(pc := o.nextPc), step + 1;
    }
    r := Run(commits + [], decoded + [], machines + [], StepLimit);
  }
}
