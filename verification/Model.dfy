/** Data model of the cycle-level pipeline: the uops built from a functional commit stream, the
    fields the pipeline updates per uop, the issue-queue entries and the stage queues. */
module Model {
  import opened Wrappers

  const FETCH_WIDTH: nat := 4
  const DISPATCH_WIDTH: nat := 4
  const ISSUE_WIDTH: nat := 4
  const COMMIT_WIDTH: nat := 4
  const READ_PORTS: nat := 3
  const ROB_CAPACITY: nat := 128
  const IQ_CAPACITY: nat := 32
  const IQ_ENQUEUE_PORTS: nat := 2
  const LSU_WIDTH: nat := 1
  const L1D_WIDTH: nat := 1
  const RESTART_DELAY: nat := 1
  const STAGES: nat := 11
  const U64_MAX: nat := 0xFFFF_FFFF_FFFF_FFFF

  /** A pair indexed by source operand. */
  datatype Two<T> = Two(fst: T, snd: T) {
    function At(i: nat): T { if i == 0 then fst else snd }
    function Put(i: nat, v: T): Two<T> { if i == 0 then Two(v, snd) else Two(fst, v) }
  }

  datatype QueueKind = T | U

  datatype PhysIq = AluIq0 | SharedIq1 | BruIq | AguIq0 | AguIq1 | StdIq0 | StdIq1 | CmdIq {
    function Index(): nat {
      match this
      case AluIq0 => 0 case SharedIq1 => 1 case BruIq => 2 case AguIq0 => 3
      case AguIq1 => 4 case StdIq0 => 5 case StdIq1 => 6 case CmdIq => 7
    }
  }

  type EntryId = n: nat | n < IQ_CAPACITY

  datatype QTag = QTag(physIq: PhysIq, entryId: EntryId)

  datatype LogicalTag = LogicalTag(kind: QueueKind, tag: nat)

  datatype CommitRecord = CommitRecord(
    cycle: nat, pc: nat, len: nat, nextPc: nat,
    src0Valid: bool, src0Reg: nat, src1Valid: bool, src1Reg: nat,
    wbValid: bool, wbRd: nat,
    memValid: bool, memIsStore: bool, memAddr: nat, memSize: nat,
    trapValid: bool, trapCause: nat, trapArg0: nat)

  datatype UopGroup = Alu | Bru | Lda | Sta | Fsu | Sys | Cmd | Bbd | OtherGroup

  /** One source operand as `build_uops` resolves it. */
  datatype Source = Source(valid: bool, dep: Option<nat>, queueKind: Option<QueueKind>, logicalTag: Option<LogicalTag>)

  /** The part of a `CycleUop` that is fixed when the uop list is built. */
  datatype Uop = Uop(
    commit: CommitRecord, group: UopGroup,
    boundary: bool,        // may own a redirect: block start, block stop or macro boundary
    startMarker: bool,     // legal restart point: block start or macro boundary
    src: Two<Source>,
    dstKind: Option<QueueKind>, dstTag: Option<LogicalTag>,
    bypass: bool, isLoad: bool, isStore: bool,
    loadOrdinal: Option<nat>, lsid: Option<nat>,
    redirectTarget: Option<nat>)

  /** The part of a `CycleUop` that the pipeline updates. */
  datatype Dyn = Dyn(
    srcQtags: Two<Option<QTag>>, dstQtag: Option<QTag>, physIq: Option<PhysIq>,
    missInjected: bool,
    pickVisible: Option<nat>, dataVisible: Option<nat>, missPendingUntil: Option<nat>,
    e1: Option<nat>, e4: Option<nat>, w1: Option<nat>, done: Option<nat>)

  const FRESH: Dyn :=
    Dyn(Two(None, None), None, None, false, None, None, None, None, None, None, None)

  datatype SrcState = SrcState(valid: bool, nonspec: bool, spec: bool, waitQtag: bool)

  datatype IqEntry = IqEntry(seqNo: nat, physIq: PhysIq, inflight: bool, src: Two<SrcState>)

  datatype Refill = Refill(seqNo: nat, readyCycle: nat)

  datatype ScbEntry = ScbEntry(seqNo: nat, enqueueCycle: nat)

  datatype L1dKind = LoadHit | StoreDrain

  datatype L1dEntry = L1dEntry(seqNo: nat, kind: L1dKind, readyCycle: nat)

  datatype Redirect = Redirect(sourceSeq: nat, restartSeq: nat, resumeCycle: nat)

  datatype Flush = Flush(flushSeq: nat, checkpoint: nat, applyCycle: nat)

  datatype Trap = Trap(seqNo: nat, cause: nat, arg0: nat)

  datatype ReadyTables = ReadyTables(t: set<nat>, u: set<nat>) {
    predicate Has(tag: LogicalTag) {
      match tag.kind case T => tag.tag in t case U => tag.tag in u
    }
    function Insert(tag: LogicalTag): ReadyTables {
      match tag.kind case T => ReadyTables(t + {tag.tag}, u) case U => ReadyTables(t, u + {tag.tag})
    }
  }

  type Front = f: seq<seq<nat>> | |f| == STAGES witness [[], [], [], [], [], [], [], [], [], [], []]

  datatype Fetch = Fetch(front: Front, redirect: Option<Redirect>, pendingFlush: Option<Flush>, nextFetch: nat)

  datatype Queue = Queue(
    iq: seq<IqEntry>, iqTags: map<nat, QTag>, owner: map<QTag, nat>, crossbar: map<QTag, seq<(nat, nat)>>,
    ready: ReadyTables, checkpoints: map<nat, ReadyTables>)

  datatype Issue = Issue(p1: seq<nat>, i1: seq<nat>, i2: seq<nat>)

  datatype Exec = Exec(e1: seq<nat>, e2: seq<nat>, e3: seq<nat>, e4: seq<nat>, w1: seq<nat>, w2: seq<nat>)

  /** Load/store unit. `issueLog` and `l1dLog` only observe: the load/store ids in the order in
      which memory uops left I2 and in which L1D transactions started. */
  datatype Mem = Mem(
    liq: seq<Refill>, lhq: seq<nat>, mdb: seq<Refill>, stq: seq<nat>, scb: seq<ScbEntry>, l1d: seq<L1dEntry>,
    issuePtr: nat, completePtr: nat, cachePtr: nat,
    issueLog: seq<nat>, l1dLog: seq<nat>)

  datatype Retire = Retire(
    rob: seq<nat>, retired: seq<nat>, committed: seq<CommitRecord>, pendingTrap: Option<Trap>, halted: bool)

  /** `StageQueues`, the issue queue, the reorder buffer and the engine's own variables. */
  datatype State = State(fe: Fetch, q: Queue, sel: Issue, ex: Exec, mem: Mem, rt: Retire, dyn: seq<Dyn>)

  datatype Options = Options(missEvery: Option<nat>, missPenalty: nat, targetCommits: nat)

  /** Where a resolved boundary sends fetch, and the ready-table checkpoint it restores. */
  datatype Target = Target(pc: nat, checkpoint: nat)

  /** What the branch-context logic decides in one cycle: faults published, the target of the
      boundary that resolves (if it redirects) and the checkpoint ids snapshotted at dispatch. */
  datatype Input = Input(faults: seq<Trap>, target: Option<Target>, snapshots: map<nat, nat>)

  const NO_UOP: Uop :=
    Uop(CommitRecord(0, 0, 0, 0, false, 0, false, 0, false, 0, false, false, 0, 0, false, 0, 0), OtherGroup,
        false, false, Two(Source(false, None, None, None), Source(false, None, None, None)), None, None,
        false, false, false, None, None, None)

  /** Indexing that is total; the run invariants show that only indices in range occur. */
  function UopAt(code: seq<Uop>, i: nat): Uop { if i < |code| then code[i] else NO_UOP }

  function DynAt(dyn: seq<Dyn>, i: nat): Dyn { if i < |dyn| then dyn[i] else FRESH }

  function DynPut(dyn: seq<Dyn>, i: nat, d: Dyn): (r: seq<Dyn>)
    ensures |r| == |dyn|
  {
    if i < |dyn| then dyn[i := d] else dyn
  }

  predicate AtOrBefore(o: Option<nat>, cycle: nat) { o.Some? && o.value <= cycle }

  function SatAdd(a: nat, b: nat): nat { if a + b > U64_MAX then U64_MAX else a + b }

  function Waiters(x: map<QTag, seq<(nat, nat)>>, q: QTag): seq<(nat, nat)> { if q in x then x[q] else [] }

  function SeqNos(iq: seq<IqEntry>): (r: seq<nat>)
    ensures |r| == |iq| && forall i :: 0 <= i < |iq| ==> r[i] == iq[i].seqNo
  {
    seq(|iq|, i requires 0 <= i < |iq| => iq[i].seqNo)
  }

  function RefillSeqs(q: seq<Refill>): (r: seq<nat>)
    ensures |r| == |q| && forall i :: 0 <= i < |q| ==> r[i] == q[i].seqNo
  {
    seq(|q|, i requires 0 <= i < |q| => q[i].seqNo)
  }

  function ScbSeqs(q: seq<ScbEntry>): (r: seq<nat>)
    ensures |r| == |q| && forall i :: 0 <= i < |q| ==> r[i] == q[i].seqNo
  {
    seq(|q|, i requires 0 <= i < |q| => q[i].seqNo)
  }

  function L1dSeqs(q: seq<L1dEntry>, kind: L1dKind): (r: seq<nat>) {
    if q == [] then [] else (if q[0].kind == kind then [q[0].seqNo] else []) + L1dSeqs(q[1..], kind)
  }

  const NO_STAGES: Front := [[], [], [], [], [], [], [], [], [], [], []]

  function Initial(code: seq<Uop>): State {
    State(Fetch(NO_STAGES, None, None, 0),
          Queue([], map[], map[], map[], ReadyTables({}, {}), map[]),
          Issue([], [], []),
          Exec([], [], [], [], [], []),
          Mem([], [], [], [], [], [], 0, 0, 0, [], []),
          Retire([], [], [], None, false),
          seq(|code|, _ => FRESH))
  }
}
