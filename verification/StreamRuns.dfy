/** Coherence without a hypothesis about the run: when every redirecting uop of the list is followed by
    a block start at its target, and each cycle redirects, if at all, to the target of the boundary
    that resolves in it, the run is coherent. */
module StreamRuns {
  import opened Wrappers
  import opened Model
  import opened Frontend
  import opened Recovery
  import opened Commit
  import opened WellFormed
  import opened Runs
  import opened Conserve
  import opened CoherentRuns
  import opened CoherentLaws

  predicate ContinuesAt(code: seq<Uop>, x: nat)
    requires x + 1 < |code|
  {
    code[x].redirectTarget.Some? ==>
      code[x + 1].startMarker && code[x + 1].commit.pc == code[x].redirectTarget.value
  }

  /** A redirecting uop is followed by a legal restart point at its target. */
  predicate Continues(code: seq<Uop>) { forall x: nat :: x + 1 < |code| ==> ContinuesAt(code, x) }

  /** The input redirects, if at all, to the target of the boundary that resolves in this cycle. */
  predicate Follows(cycle: nat, input: Input, code: seq<Uop>, s: State) {
    var x := ResolvedBoundary(cycle, code, AfterRetire(cycle, input, code, s).dyn, 0);
    input.target.Some? && x.Some? ==> code[x.value].redirectTarget == Some(input.target.value.pc)
  }

  lemma RestartIsNext(x: nat, code: seq<Uop>)
    requires Continues(code) && x < |code| && code[x].redirectTarget.Some?
    ensures var legal := LegalRestart(x + 1, code[x].redirectTarget.value, code); legal.Some? ==> legal.value == x + 1
  {
    if x + 1 < |code| { assert ContinuesAt(code, x); }
  }

  lemma FollowingIsCoherent(cycle: nat, input: Input, code: seq<Uop>, s: State)
    requires Continues(code) && Follows(cycle, input, code, s)
    ensures CoherentAt(cycle, input, code, AfterRetire(cycle, input, code, s))
  {
    var r := AfterRetire(cycle, input, code, s);
    var x := ResolvedBoundary(cycle, code, r.dyn, 0);
    if ScheduledRedirect(cycle, input, code, r).Some? { RestartIsNext(x.value, code); }
  }

  ghost predicate FollowsAt(i: nat, run: seq<State>, inputs: nat -> Input, code: seq<Uop>) {
    i < |run| && Follows(i, inputs(i), code, run[i])
  }

  /** The condition on list and inputs implies coherence of the run. */
  lemma FollowingRunsAreCoherent(run: seq<State>, inputs: nat -> Input, code: seq<Uop>)
    requires Continues(code) && forall i: nat :: i < |run| ==> FollowsAt(i, run, inputs, code)
    ensures IsCoherent(run, inputs, code)
  {
    forall i: nat | i < |run| ensures CoherentCycle(i, run, inputs, code) {
      assert FollowsAt(i, run, inputs, code);
      FollowingIsCoherent(i, inputs(i), code, run[i]);
    }
  }

  // -- Runs given by choices ----------------------------------------------------------------------

  /** What is left open in a cycle: the faults published, whether the boundary that resolves redirects,
      the checkpoint it restores and the checkpoints taken. */
  datatype Choice = Choice(faults: seq<Trap>, redirects: bool, checkpoint: nat, snapshots: map<nat, nat>)

  /** The input a choice stands for: the target is that of the uop that resolves. */
  function InputFor(choice: Choice, cycle: nat, code: seq<Uop>, s: State): (r: Input)
    ensures Follows(cycle, r, code, s)
  {
    var quiet := Input(choice.faults, None, choice.snapshots);
    var x := ResolvedBoundary(cycle, code, AfterRetire(cycle, quiet, code, s).dyn, 0);
    var target := if x.None? then None else code[x.value].redirectTarget;
    quiet.(target := if choice.redirects && target.Some? then Some(Target(target.value, choice.checkpoint)) else None)
  }

  /** The state before cycle `i`. */
  function StateAt(choices: nat -> Choice, opts: Options, code: seq<Uop>, i: nat): State {
    if i == 0 then Initial(code)
    else
      var s := StateAt(choices, opts, code, i - 1);
      Step(i - 1, opts, InputFor(choices(i - 1), i - 1, code, s), code, s)
  }

  function InputsFor(choices: nat -> Choice, opts: Options, code: seq<Uop>): nat -> Input {
    (i: nat) => InputFor(choices(i), i, code, StateAt(choices, opts, code, i))
  }

  lemma NextState(choices: nat -> Choice, opts: Options, code: seq<Uop>, k: nat, n: nat)
    requires n == k + 1
    ensures StateAt(choices, opts, code, n)
         == Step(k, opts, InputsFor(choices, opts, code)(k), code, StateAt(choices, opts, code, k))
  {
  }

  lemma StateAfter(choices: nat -> Choice, run: seq<State>, opts: Options, inputs: nat -> Input, code: seq<Uop>, j: nat,
                   k: nat)
    requires inputs == InputsFor(choices, opts, code) && StepAt(j, run, opts, inputs, code) && k == j + 1
    requires run[j] == StateAt(choices, opts, code, j)
    ensures run[k] == StateAt(choices, opts, code, k)
  {
    NextState(choices, opts, code, j, k);
  }

  lemma {:induction false} StatesOfRun(choices: nat -> Choice, run: seq<State>, opts: Options, code: seq<Uop>, k: nat)
    requires IsRun(run, opts, InputsFor(choices, opts, code), code) && k < |run|
    ensures run[k] == StateAt(choices, opts, code, k)
  {
    if k > 0 {
      var j: nat := k - 1;
      var inputs := InputsFor(choices, opts, code);
      assert StepAt(j, run, opts, inputs, code);
      StatesOfRun(choices, run, opts, code, j);
      StateAfter(choices, run, opts, inputs, code, j, k);
    }
  }

  /** Every run given by choices over a list that continues is coherent, so that all the laws of
      coherent runs hold of it. */
  lemma ChosenRunsAreCoherent(choices: nat -> Choice, run: seq<State>, opts: Options, code: seq<Uop>)
    requires WellFormedCode(code) && Continues(code) && IsRun(run, opts, InputsFor(choices, opts, code), code)
    ensures CoherentRun(run, opts, InputsFor(choices, opts, code), code)
  {
    var inputs := InputsFor(choices, opts, code);
    forall i: nat | i < |run| ensures FollowsAt(i, run, inputs, code) { StatesOfRun(choices, run, opts, code, i); }
    FollowingRunsAreCoherent(run, inputs, code);
  }

  /** Such a run exists for all choices and every length. */
  lemma {:induction false} ChosenRun(choices: nat -> Choice, opts: Options, code: seq<Uop>, n: nat)
      returns (run: seq<State>)
    ensures IsRun(run, opts, InputsFor(choices, opts, code), code) && |run| == n + 1
  {
    if n == 0 {
      run := [Initial(code)];
    } else {
      var k: nat := n - 1;
      var prior := ChosenRun(choices, opts, code, k);
      StatesOfRun(choices, prior, opts, code, k);
      NextState(choices, opts, code, k, n);
      run := prior + [StateAt(choices, opts, code, n)];
      Grow(prior, opts, InputsFor(choices, opts, code), code, prior[k], StateAt(choices, opts, code, n), k);
    }
  }
}
