/** `CycleEngine::run` from the functional commit stream to the committed records: building the uop
    list and running the pipeline over it, composed. */
module Program {
  import opened Wrappers
  import opened Model
  import opened Decode
  import opened StreamRuns
  import Commit
  import CommitOrder
  import CoherentRuns
  import CoherentLaws
  import Engine

  /** No memory instruction bypasses the issue queues. */
  ghost predicate MemoryIsQueued(commits: seq<CommitRecord>, decoded: seq<Decoded>) {
    forall x :: 0 <= x < |commits| && x < |decoded| && decoded[x].bypass ==> !commits[x].memValid
  }

  ghost predicate PrefixOf(out: seq<CommitRecord>, commits: seq<CommitRecord>) {
    |out| <= |commits| && forall i :: 0 <= i < |out| ==> CommitOrder.SameCommit(out[i], commits[i])
  }

  /** In every state of every coherent run over a built list, the committed records are a prefix of the
      stream the list was built from, up to cycle and trap fields. */
  lemma CommitsStream(commits: seq<CommitRecord>, decoded: seq<Decoded>, uops: seq<Uop>, k: nat, run: seq<State>,
                      opts: Options, inputs: nat -> Input)
    requires AllRight(commits, decoded, uops) && MemoryIsQueued(commits, decoded)
    requires Commit.IsRun(run, opts, inputs, uops) && CoherentRuns.IsCoherent(run, inputs, uops) && k < |run|
    ensures PrefixOf(run[k].rt.committed, commits)
  {
    BuiltIsWellFormed(commits, decoded, uops);
    CoherentLaws.CommitRefinement(k, run, opts, inputs, uops);
    CopiesCommits(commits, decoded, uops);
    Transfer(run[k].rt.committed, uops, commits);
  }

  lemma CopiesCommits(commits: seq<CommitRecord>, decoded: seq<Decoded>, uops: seq<Uop>)
    requires AllRight(commits, decoded, uops)
    ensures forall i :: 0 <= i < |uops| ==> uops[i].commit == commits[i]
  {
    forall i | 0 <= i < |uops| ensures uops[i].commit == commits[i] { assert UopRight(commits, decoded, i, uops[i]); }
  }

  lemma Transfer(out: seq<CommitRecord>, uops: seq<Uop>, commits: seq<CommitRecord>)
    requires |out| <= |uops| <= |commits| && (forall i :: 0 <= i < |uops| ==> uops[i].commit == commits[i])
    requires forall i :: 0 <= i < |out| ==> CommitOrder.SameCommit(out[i], uops[i].commit)
    ensures PrefixOf(out, commits)
  {
  }

  lemma Outcome(commits: seq<CommitRecord>, decoded: seq<Decoded>, uops: seq<Uop>, opts: Options,
                inputs: nat -> Input, run: seq<State>)
    requires AllRight(commits, decoded, uops) && Commit.IsRun(run, opts, inputs, uops)
    ensures MemoryIsQueued(commits, decoded) && CoherentRuns.IsCoherent(run, inputs, uops) ==>
              PrefixOf(run[|run| - 1].rt.committed, commits)
  {
    if MemoryIsQueued(commits, decoded) && CoherentRuns.IsCoherent(run, inputs, uops) {
      CommitsStream(commits, decoded, uops, |run| - 1, run, opts, inputs);
    }
  }

  /** Build the list, run it for at most `maxCycles` cycles and return what was committed. */
  method RunProgram(commits: seq<CommitRecord>, decoded: seq<Decoded>, missEvery: Option<nat>, missPenalty: nat,
                    inputs: nat -> Input, maxCycles: nat)
      returns (out: seq<CommitRecord>, ghost uops: seq<Uop>, ghost run: seq<State>)
    requires RegistersOk(commits)
    ensures AllRight(commits, decoded, uops)
      && Commit.IsRun(run, Options(missEvery, missPenalty, |commits|), inputs, uops) && |run| <= maxCycles + 1
    ensures out == run[|run| - 1].rt.committed
    ensures MemoryIsQueued(commits, decoded) && CoherentRuns.IsCoherent(run, inputs, uops) ==> PrefixOf(out, commits)
  {
    var code := BuildUops(commits, decoded);
    var opts := Options(missEvery, missPenalty, |commits|);
    uops := code;
    if code == [] {
      run := [Initial(code)];
      return [], uops, run;
    }
    var engine := new Engine.CycleEngine(code, opts);
    out, run := engine.Run(inputs, maxCycles);
    Outcome(commits, decoded, uops, opts, inputs, run);
  }

  // -- Without a hypothesis about the run ---------------------------------------------------------

  predicate BlockFollows(commits: seq<CommitRecord>, decoded: seq<Decoded>, x: nat)
    requires x + 1 < |commits| && x + 1 < |decoded|
  {
    RedirectTargetOf(commits[x], decoded[x]).Some? ==>
      (decoded[x + 1].bstart || decoded[x + 1].macro) && commits[x + 1].pc == commits[x].nextPc
  }

  /** After a redirecting commit the stream goes on with a block start at its next pc. */
  predicate StreamContinues(commits: seq<CommitRecord>, decoded: seq<Decoded>) {
    forall x: nat :: x + 1 < |commits| && x + 1 < |decoded| ==> BlockFollows(commits, decoded, x)
  }

  lemma BuiltContinues(commits: seq<CommitRecord>, decoded: seq<Decoded>, uops: seq<Uop>)
    requires AllRight(commits, decoded, uops) && StreamContinues(commits, decoded)
    ensures Continues(uops)
  {
    forall x: nat | x + 1 < |uops| ensures ContinuesAt(uops, x) {
      assert UopRight(commits, decoded, x, uops[x]) && UopRight(commits, decoded, x + 1, uops[x + 1]);
      assert BlockFollows(commits, decoded, x);
    }
  }

  /** Whatever is chosen in each cycle, in every state of the run the committed records are a prefix of
      the stream, up to cycle and trap fields. */
  lemma ChosenCommits(commits: seq<CommitRecord>, decoded: seq<Decoded>, uops: seq<Uop>, choices: nat -> Choice,
                      opts: Options, inputs: nat -> Input, run: seq<State>, k: nat)
    requires AllRight(commits, decoded, uops) && MemoryIsQueued(commits, decoded) && StreamContinues(commits, decoded)
    requires inputs == InputsFor(choices, opts, uops) && Commit.IsRun(run, opts, inputs, uops) && k < |run|
    ensures PrefixOf(run[k].rt.committed, commits)
  {
    BuiltIsWellFormed(commits, decoded, uops);
    BuiltContinues(commits, decoded, uops);
    ChosenRunsAreCoherent(choices, run, opts, uops);
    CommitsStream(commits, decoded, uops, k, run, opts, inputs);
  }

  lemma ChosenOutcome(commits: seq<CommitRecord>, decoded: seq<Decoded>, uops: seq<Uop>, choices: nat -> Choice,
                      opts: Options, inputs: nat -> Input, run: seq<State>)
    requires AllRight(commits, decoded, uops) && inputs == InputsFor(choices, opts, uops)
      && Commit.IsRun(run, opts, inputs, uops)
    ensures MemoryIsQueued(commits, decoded) && StreamContinues(commits, decoded) ==>
              PrefixOf(run[|run| - 1].rt.committed, commits)
  {
    if MemoryIsQueued(commits, decoded) && StreamContinues(commits, decoded) {
      ChosenCommits(commits, decoded, uops, choices, opts, inputs, run, |run| - 1);
    }
  }

  /** `RunProgram` with the redirects taken from the stream itself. */
  method RunStream(commits: seq<CommitRecord>, decoded: seq<Decoded>, missEvery: Option<nat>, missPenalty: nat,
                   choices: nat -> Choice, maxCycles: nat)
      returns (out: seq<CommitRecord>)
    requires RegistersOk(commits)
    ensures MemoryIsQueued(commits, decoded) && StreamContinues(commits, decoded) ==> PrefixOf(out, commits)
  {
    var code := BuildUops(commits, decoded);
    var opts := Options(missEvery, missPenalty, |commits|);
    var inputs := InputsFor(choices, opts, code);
    var engine := new Engine.CycleEngine(code, opts);
    ghost var run;
    out, run := engine.Run(inputs, maxCycles);
    ChosenOutcome(commits, decoded, code, choices, opts, inputs, run);
  }
}
