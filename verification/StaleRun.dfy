/** A run on which a captured QTag goes stale and its wake-up is lost.

    The stream: 0 a block start (C.BSTART.STD FALL), 1 a block start with indirect exit (IND), 2 SETC.TGT
    with the pc of uop 4, 3 another system instruction, 4 the block start at that pc, 5 and 6 system
    instructions, 7 C.SSRGET pushing T, 8 C.SLLI reading t#1. Block starts of this form bypass the issue
    queues and resolve one cycle after dispatch. In cycle 12 uop 4 resolves and redirects to the target it
    finds in the branch context of the block before it, its own pc; no later block starts there, so fetch
    restarts at uop 5 although no uop is known to redirect. The flush takes uops 5 to 8 out of the issue
    queue after they were dispatched, and on their second way uop 8 is dispatched past its producer,
    uop 7, and captures the tag uop 7 held before the flush. */
module StaleRun {
  import opened Wrappers
  import opened Seqs
  import opened Model
  import opened Queues
  import opened Select
  import opened SelectFacts
  import opened Lsu
  import opened Frontend
  import opened Recovery
  import opened Commit
  import opened WellFormed
  import opened Decode
  import opened Wakeup
  import opened Replay
  import opened BranchTargets

  const TAG: LogicalTag := LogicalTag(T, 0)
  const NO_SOURCE: Source := Source(false, None, None, None)
  const OPTS: Options := Options(None, 0, 100)
  const EMPTY: ReadyTables := ReadyTables({}, {})

  /** Instructions of four bytes from address 4 on. */
  function RecordOf(i: nat): CommitRecord { NO_UOP.commit.(pc := 4 * i + 4, len := 4, nextPc := 4 * i + 8) }

  function Plain(i: nat): Uop { NO_UOP.(commit := RecordOf(i), group := Sys) }

  function Header(i: nat): Uop {
    NO_UOP.(commit := RecordOf(i), group := Bbd, bypass := true, boundary := true, startMarker := true)
  }

  const SETUP: Uop :=
    Plain(2).(commit := RecordOf(2).(src0Valid := true, src0Reg := 2), src := Two(NO_SOURCE.(valid := true), NO_SOURCE))

  const PRODUCER: Uop :=
    Plain(7).(commit := RecordOf(7).(wbValid := true, wbRd := REG_T1), dstKind := Some(T), dstTag := Some(TAG))

  const CONSUMER: Uop :=
    Plain(8).(commit := RecordOf(8).(src0Valid := true, src0Reg := REG_T1, wbValid := true, wbRd := REG_T1),
              group := Alu, src := Two(Source(true, Some(7), Some(T), Some(TAG)), NO_SOURCE),
              dstKind := Some(T), dstTag := Some(LogicalTag(T, 1)))

  const NINE: seq<Uop> :=
    [Header(0), Header(1), SETUP, Plain(3), Header(4), Plain(5), Plain(6), PRODUCER, CONSUMER]

  ghost predicate Nine(code: seq<Uop>) {
    && |code| == 9 && code[0] == Header(0) && code[1] == Header(1) && code[2] == SETUP && code[3] == Plain(3)
    && code[4] == Header(4) && code[5] == Plain(5) && code[6] == Plain(6) && code[7] == PRODUCER && code[8] == CONSUMER
    && PlainCode(code)
  }

  /** Uop 4 redirects in cycle 12; block starts take ready-table checkpoints. */
  function InputAt(i: nat): Input {
    Input([], if i == 12 then Some(Target(20, 5)) else None,
          if i == 10 then map[0 := 1, 1 := 2] else if i == 11 then map[4 := 5] else map[])
  }

  // -- The stream they are built from -------------------------------------------------------------

  function Commits(code: seq<Uop>): (r: seq<CommitRecord>)
    ensures |r| == |code| && forall i :: 0 <= i < |code| ==> r[i] == code[i].commit
  {
    seq(|code|, i requires 0 <= i < |code| => code[i].commit)
  }

  const SYSTEM: Decoded := Decoded(Sys, false, false, false, false, false, None, false, None, false, false)
  const START: Decoded := SYSTEM.(group := Bbd, bstart := true, bypass := true)

  const DECODED: seq<Decoded> :=
    [START, START, SYSTEM, SYSTEM, START, SYSTEM, SYSTEM, SYSTEM.(writesT := true),
     SYSTEM.(group := Alu, readsT := true, relT := Some(1), writesT := true)]

  lemma {:induction false} PushesBefore(commits: seq<CommitRecord>, decoded: seq<Decoded>, code: seq<Uop>, from: nat,
                                        to: nat)
    requires Nine(code) && commits == Commits(code) && decoded == DECODED && from <= 7 && from <= to <= 8
    ensures PushCount(commits, decoded, from, to, T) == if to <= 7 then 0 else 1
  {
    if from < to { PushesBefore(commits, decoded, code, from, to - 1); }
  }

  lemma {:induction false} NothingBefore(commits: seq<CommitRecord>, code: seq<Uop>, x: nat)
    requires Nine(code) && commits == Commits(code) && x <= 9
    ensures MemBefore(commits, x) == 0 && LoadsBefore(commits, x) == 0 && MemCount(code, x) == 0
  {
    if x > 0 { NothingBefore(commits, code, x - 1); }
  }

  lemma ConsumerIsBuilt(commits: seq<CommitRecord>, decoded: seq<Decoded>, code: seq<Uop>)
    requires Nine(code) && commits == Commits(code) && decoded == DECODED
    ensures UopRight(commits, decoded, 8, code[8])
  {
    PushesBefore(commits, decoded, code, 0, 8);
    NothingBefore(commits, code, 8);
    PushesBefore(commits, decoded, code, 7, 8);
    PushesBefore(commits, decoded, code, 0, 7);
  }

  lemma HeaderIsBuilt(commits: seq<CommitRecord>, decoded: seq<Decoded>, code: seq<Uop>, x: nat)
    requires Nine(code) && commits == Commits(code) && decoded == DECODED && (x == 0 || x == 1 || x == 4)
    ensures UopRight(commits, decoded, x, code[x])
  {
    PushesBefore(commits, decoded, code, 0, x);
    NothingBefore(commits, code, x);
  }

  lemma SystemIsBuilt(commits: seq<CommitRecord>, decoded: seq<Decoded>, code: seq<Uop>, x: nat)
    requires Nine(code) && commits == Commits(code) && decoded == DECODED && (x == 3 || x == 5 || x == 6)
    ensures UopRight(commits, decoded, x, code[x])
  {
    PushesBefore(commits, decoded, code, 0, x);
    NothingBefore(commits, code, x);
  }

  lemma SetupIsBuilt(commits: seq<CommitRecord>, decoded: seq<Decoded>, code: seq<Uop>, x: nat)
    requires Nine(code) && commits == Commits(code) && decoded == DECODED && x == 2
    ensures UopRight(commits, decoded, x, code[x])
  {
    PushesBefore(commits, decoded, code, 0, x);
    NothingBefore(commits, code, x);
  }

  lemma ProducerIsBuilt(commits: seq<CommitRecord>, decoded: seq<Decoded>, code: seq<Uop>, x: nat)
    requires Nine(code) && commits == Commits(code) && decoded == DECODED && x == 7
    ensures UopRight(commits, decoded, x, code[x])
  {
    PushesBefore(commits, decoded, code, 0, x);
    NothingBefore(commits, code, x);
  }

  /** The builder makes exactly these uops of their stream. */
  lemma NineIsBuilt(commits: seq<CommitRecord>, decoded: seq<Decoded>, code: seq<Uop>)
    requires Nine(code) && commits == Commits(code) && decoded == DECODED
    ensures AllRight(commits, decoded, code) && WellFormedCode(code)
  {
    forall x | 0 <= x < |code| ensures UopRight(commits, decoded, x, code[x]) {
      if (x == 0 || x == 1 || x == 4) { HeaderIsBuilt(commits, decoded, code, x); }
      if (x == 3 || x == 5 || x == 6) { SystemIsBuilt(commits, decoded, code, x); }
      if x == 2 { SetupIsBuilt(commits, decoded, code, x); }
      if x == 7 { ProducerIsBuilt(commits, decoded, code, x); }
      if x == 8 { ConsumerIsBuilt(commits, decoded, code); }
    }
    BuiltIsWellFormed(commits, decoded, code);
  }

  // -- States -------------------------------------------------------------------------------------

  function Tag(n: EntryId): QTag { QTag(SharedIq1, n) }

  function Named(n: EntryId): Dyn { FRESH.(physIq := Some(SharedIq1), dstQtag := Some(Tag(n))) }

  function InE1(n: EntryId, c: nat): Dyn { Named(n).(e1 := Some(c)) }

  function InW1(n: EntryId, c: nat): Dyn {
    InE1(n, c).(w1 := Some(c + 1), pickVisible := Some(c + 2), dataVisible := Some(c + 2))
  }

  function Done(n: EntryId, c: nat): Dyn { InW1(n, c).(done := Some(c + 2)) }

  /** A block start that bypasses the queues in the cycle before `c`, and after it is done. */
  function Bypassing(c: nat): Dyn { FRESH.(physIq := Some(CmdIq), pickVisible := Some(c), dataVisible := Some(c)) }

  function Bypassed(c: nat): Dyn { Bypassing(c).(done := Some(c)) }

  /** Uop 8 with the tag it captured. */
  const CAPTURED: Dyn :=
    FRESH.(physIq := Some(AluIq0), dstQtag := Some(QTag(AluIq0, 0)), srcQtags := Two(Some(Tag(4)), None))

  /** The fields of the uops that use the queue, once uop 8 has captured a tag. */
  function Uops(d2: Dyn, d3: Dyn, d5: Dyn, d6: Dyn, d7: Dyn): seq<Dyn> {
    [Bypassed(11), Bypassed(11), d2, d3, Bypassed(12), d5, d6, d7, CAPTURED]
  }

  function Early(d2: Dyn, d3: Dyn): seq<Dyn> { Uops(d2, d3, Named(2), Named(3), Named(4)) }

  function Late(d5: Dyn, d6: Dyn, d7: Dyn): seq<Dyn> { Uops(Done(0, 14), Done(1, 15), d5, d6, d7) }

  function Packet(i: nat, q: seq<nat>): Front { seq(STAGES, j requires 0 <= j < STAGES => if j == i then q else []) }

  /** All ready tables, and their checkpoints, are empty. */
  function Queued(iq: seq<IqEntry>, iqTags: map<nat, QTag>, crossbar: map<QTag, seq<(nat, nat)>>,
                  checkpoints: map<nat, ReadyTables>): Queue {
    Rebuilt(Queue(iq, iqTags, map[], crossbar, EMPTY, checkpoints))
  }

  const TWO_CHECKPOINTS: map<nat, ReadyTables> := map[1 := EMPTY, 2 := EMPTY]
  const CHECKPOINTS: map<nat, ReadyTables> := map[1 := EMPTY, 2 := EMPTY, 5 := EMPTY]

  function Held(iq: seq<IqEntry>, iqTags: map<nat, QTag>, crossbar: map<QTag, seq<(nat, nat)>>): Queue {
    Queued(iq, iqTags, crossbar, CHECKPOINTS)
  }

  function Pipe(front: Front, q: Queue, sel: Issue, ex: Exec, rt: Retire, dyn: seq<Dyn>): State {
    State(Fetch(front, None, None, 9), q, sel, ex, NO_MEM, rt, dyn)
  }

  const NO_ISSUE: Issue := Issue([], [], [])
  const NO_QUEUE: Queue := Queued([], map[], map[], map[])
  const NO_DYN: seq<Dyn> := [FRESH, FRESH, FRESH, FRESH, FRESH, FRESH, FRESH, FRESH, FRESH]
  const ALL: seq<nat> := [0, 1, 2, 3, 4, 5, 6, 7, 8]
  const LATER: seq<nat> := [5, 6, 7, 8]

  /** The run so far ends, before cycle `k`, in `s`. */
  ghost predicate Reaches(run: seq<State>, inputs: nat -> Input, code: seq<Uop>, k: nat, s: State) {
    && Nine(code) && (forall i: nat :: inputs(i) == InputAt(i))
    && IsRun(run, OPTS, inputs, code) && |run| == k + 1 && run[k] == s
  }

  lemma QueuedIs(q: Queue, iq: seq<IqEntry>, iqTags: map<nat, QTag>, crossbar: map<QTag, seq<(nat, nat)>>,
                 checkpoints: map<nat, ReadyTables>)
    requires q.iq == iq && q.iqTags == iqTags && q.crossbar == crossbar && q.ready == EMPTY
      && q.checkpoints == checkpoints
    ensures Rebuilt(q) == Queued(iq, iqTags, crossbar, checkpoints)
  {
  }

  // -- Fetch to S2, the first time ----------------------------------------------------------------

  function Packets(k: nat): Front {
    seq(STAGES, j requires 0 <= j < STAGES =>
      if j == k then [0, 1, 2, 3] else if j + 1 == k then [4, 5, 6, 7] else if j + 2 == k then [8] else [])
  }

  function FirstRob(k: nat): seq<nat> {
    if k <= 6 then [] else if k == 7 then [0, 1, 2, 3] else if k == 8 then [0, 1, 2, 3, 4, 5, 6, 7] else ALL
  }

  function Fetching(front: Front, next: nat): State {
    State(Fetch(front, None, None, next), NO_QUEUE, NO_ISSUE, NO_EXEC, NO_MEM, Retire([], [], [], None, false), NO_DYN)
  }

  function State1(): State { Fetching(Packet(1, [0, 1, 2, 3]), 4) }

  function State2(): State { Fetching(Packets(2)[0 := []], 8) }

  /** The state before cycle `k`, for `k` from 3 to 10. */
  function First(k: nat): State {
    Pipe(Packets(k), NO_QUEUE, NO_ISSUE, NO_EXEC, Retire(FirstRob(k), [], [], None, false), NO_DYN)
  }

  lemma ShiftPacket(i: nat, q: seq<nat>)
    requires i < 10
    ensures Shifted(Packet(i, q)) == Packet(i + 1, q)
  {
    ShiftedAt(Packet(i, q));
    assert [] + q == q && q + [] == q;
    assert forall j :: 0 <= j < STAGES ==> Shifted(Packet(i, q))[j] == Packet(i + 1, q)[j];
  }

  lemma ShiftPackets(front: Front, k: nat)
    requires 2 <= k <= 10 && front == Packets(k)[10 := if k == 10 then [] else Packets(k)[10]]
    ensures Shifted(front) == Packets(k + 1)
  {
    ShiftedAt(front);
    assert front[10] == [] && [] + front[9] == front[9];
    assert forall j :: 0 <= j < STAGES ==> Shifted(front)[j] == Packets(k + 1)[j];
  }

  lemma FetchNext(code: seq<Uop>, s: State, n: nat, q: seq<nat>)
    requires Nine(code) && s.fe.front[0] == [] && s.fe.nextFetch <= n <= 9 && q == Range(s.fe.nextFetch, n)
    requires n == 9 || n == s.fe.nextFetch + 4
    requires |q| <= 4
    ensures FetchLoop(code, s.dyn, s.fe) == s.fe.(front := s.fe.front[0 := q], nextFetch := n)
  {
    FetchFills(code, s.dyn, s.fe);
    assert [] + q == q;
  }

  lemma Quiet0(code: seq<Uop>, s: State)
    requires Nine(code) && s == Initial(code)
    ensures QuietOk(0, OPTS, InputAt(0), code, s, Fetch(Packet(0, [0, 1, 2, 3]), None, None, 4), State1())
  {
    FetchNext(code, s, 4, [0, 1, 2, 3]);
    assert NO_STAGES[0 := [0, 1, 2, 3]] == Packet(0, [0, 1, 2, 3]);
    ShiftPacket(0, [0, 1, 2, 3]);
    assert s.dyn == NO_DYN;
  }

  lemma Quiet1(code: seq<Uop>, s: State)
    requires Nine(code) && s == State1()
    ensures QuietOk(1, OPTS, InputAt(1), code, s, Fetch(Packets(1), None, None, 8), State2())
  {
    FetchNext(code, s, 8, [4, 5, 6, 7]);
    assert s.fe.front[0 := [4, 5, 6, 7]] == Packets(1);
    ShiftedAt(Packets(1));
    assert [] + Packets(1)[9] == [];
    assert forall j :: 0 <= j < STAGES ==> Shifted(Packets(1))[j] == Packets(2)[0 := []][j];
  }

  lemma Quiet2(code: seq<Uop>, s: State)
    requires Nine(code) && s == State2()
    ensures QuietOk(2, OPTS, InputAt(2), code, s, Fetch(Packets(2), None, None, 9), First(3))
  {
    FetchNext(code, s, 9, [8]);
    assert Packets(2)[0 := []][0 := [8]] == Packets(2);
    ShiftPackets(Packets(2), 2);
  }

  lemma {:induction false} AllocateAll(q: seq<nat>, rob: seq<nat>)
    requires forall i, j :: 0 <= i < j < |q| ==> q[i] != q[j]
    requires forall x :: x in q ==> x !in rob
    ensures AllocateRob(q, rob) == rob + q
  {
    if q == [] {
      assert rob + q == rob;
    } else {
      assert q[0] in q;
      AllocateAll(q[1..], rob + [q[0]]);
      assert (rob + [q[0]]) + q[1..] == rob + q;
    }
  }

  lemma FirstSlots(k: nat)
    requires 3 <= k <= 10
    ensures AllocateRob(Packets(k)[6], FirstRob(k)) == FirstRob(k + 1) && |NotInRob(Packets(k)[6], FirstRob(k))| <= 4
  {
    AllocateAll(Packets(k)[6], FirstRob(k));
  }

  lemma QuietFirst(code: seq<Uop>, k: nat, s: State)
    requires Nine(code) && 3 <= k < 10 && s == First(k)
    ensures QuietOk(k, OPTS, InputAt(k), code, s, s.fe, First(k + 1))
  {
    FirstSlots(k);
    ShiftPackets(s.fe.front, k);
  }

  // -- What the entries do ------------------------------------------------------------------------

  /** The entry of a uop without producers. */
  function Slot(x: nat, inflight: bool): IqEntry {
    IqEntry(x, SharedIq1, inflight, Two(IDLE.(valid := x == 2), IDLE))
  }

  /** The entry of uop 8, waiting for the tag it captured. */
  const EIGHT: IqEntry := IqEntry(8, AluIq0, false, Two(SrcState(true, false, false, true), IDLE))

  predicate IsSlot(x: nat) { x == 2 || x == 3 || 5 <= x <= 7 }

  ghost predicate Usual(e: IqEntry) { e == EIGHT || (IsSlot(e.seqNo) && e == Slot(e.seqNo, e.inflight)) }

  /** Only such entries wait, and uop 7 publishes no event under the tag that uop 8 captured. */
  ghost predicate Unheard(q: Queue, dyn: seq<Dyn>) {
    && |dyn| == 9 && q.ready == EMPTY && Waits2(q.crossbar)
    && (forall i :: 0 <= i < |q.iq| ==> Usual(q.iq[i]))
    && (EIGHT in q.iq ==> dyn[8] == CAPTURED && Silent(dyn[7]))
  }

  ghost predicate Silent(d: Dyn) { (d.dataVisible.None? && d.w1.None?) || d.dstQtag == Some(Tag(2)) }

  lemma UpdateEight(cycle: nat, code: seq<Uop>, ready: ReadyTables, dyn: seq<Dyn>)
    requires Nine(code) && |dyn| == 9 && ready == EMPTY && dyn[8] == CAPTURED && Silent(dyn[7])
    ensures UpdateEntry(cycle, EIGHT, ready, code, dyn) == EIGHT && Deaf(8, 0, cycle, code, dyn)
      && Deaf(8, 1, cycle, code, dyn)
  {
  }

  lemma UpdateSlot(e: IqEntry, cycle: nat, code: seq<Uop>, ready: ReadyTables, dyn: seq<Dyn>)
    requires Nine(code) && Usual(e) && e != EIGHT
    ensures UpdateEntry(cycle, e, ready, code, dyn) == e && Deaf(e.seqNo, 0, cycle, code, dyn)
      && Deaf(e.seqNo, 1, cycle, code, dyn)
  {
  }

  /** The update of any cycle then changes nothing. */
  lemma UnheardUpdate(cycle: nat, code: seq<Uop>, q: Queue, dyn: seq<Dyn>)
    requires Nine(code) && Unheard(q, dyn)
    ensures UpdateQueue(cycle, code, dyn, q) == q
  {
    forall e | e in q.iq
      ensures UpdateEntry(cycle, e, q.ready, code, dyn) == e && Deaf(e.seqNo, 0, cycle, code, dyn)
        && Deaf(e.seqNo, 1, cycle, code, dyn)
    {
      if e == EIGHT { UpdateEight(cycle, code, q.ready, dyn); } else { UpdateSlot(e, cycle, code, q.ready, dyn); }
    }
    UpdateQuiet(cycle, code, q, dyn);
  }

  /** Exactly the entries other than that of uop 8 that are not yet picked can be picked. */
  lemma UsualPickable(j: nat, cycle: nat, issuePtr: nat, iq: seq<IqEntry>, code: seq<Uop>, dyn: seq<Dyn>)
    requires Nine(code) && forall i :: 0 <= i < |iq| ==> Usual(iq[i])
    ensures Pickable(j, cycle, issuePtr, iq, code, dyn) <==> j < |iq| && iq[j] != EIGHT && !iq[j].inflight
  {
  }

  /** Entry `m` is the oldest of them, or there is none. */
  ghost predicate Picks(iq: seq<IqEntry>, rob: seq<nat>, m: Option<nat>) {
    && (forall i :: 0 <= i < |iq| ==> Usual(iq[i]) && iq[i].seqNo in rob)
    && (forall j, k :: 0 <= j < k < |rob| ==> rob[j] < rob[k])
    && (m.None? ==> forall j :: 0 <= j < |iq| ==> iq[j] == EIGHT || iq[j].inflight)
    && (m.Some? ==>
          && m.value < |iq| && iq[m.value] != EIGHT && !iq[m.value].inflight
          && forall j ::
               0 <= j < |iq| && j != m.value ==> iq[j] == EIGHT || iq[j].inflight || iq[m.value].seqNo < iq[j].seqNo)
  }

  lemma UsualPick(cycle: nat, code: seq<Uop>, s: State, m: Option<nat>)
    requires Nine(code) && Picks(s.q.iq, s.rt.rob, m)
    ensures PickOk(cycle, code, s, m)
  {
    forall j: nat
      ensures Pickable(j, cycle, s.mem.issuePtr, s.q.iq, code, s.dyn) ==>
        j < |s.q.iq| && s.q.iq[j] != EIGHT && !s.q.iq[j].inflight
    {
      UsualPickable(j, cycle, s.mem.issuePtr, s.q.iq, code, s.dyn);
    }
    if m.Some? {
      UsualPickable(m.value, cycle, s.mem.issuePtr, s.q.iq, code, s.dyn);
      forall j: nat | Pickable(j, cycle, s.mem.issuePtr, s.q.iq, code, s.dyn) && j != m.value
        ensures s.q.iq[j].physIq == s.q.iq[m.value].physIq
        ensures RobRank(s.q.iq[m.value].seqNo, s.rt.rob) < RobRank(s.q.iq[j].seqNo, s.rt.rob)
      {
        YoungerRank(s.rt.rob, s.q.iq[m.value].seqNo, s.q.iq[j].seqNo);
      }
    }
  }

  lemma YoungerRank(rob: seq<nat>, x: nat, y: nat)
    requires x in rob && y in rob && x < y && forall j, k :: 0 <= j < k < |rob| ==> rob[j] < rob[k]
    ensures RobRank(x, rob) < RobRank(y, rob)
  {
  }

  function Left(iq: seq<IqEntry>, i: Option<nat>): seq<IqEntry>
    requires i.Some? ==> i.value < |iq|
  {
    if i.None? then iq else RemoveAt(iq, i.value)
  }

  /** Nobody but uop 8 waits for a tag. */
  ghost predicate OnlyEight(crossbar: map<QTag, seq<(nat, nat)>>) {
    forall q, w :: q in crossbar && w in crossbar[q] ==> w.0 == 8
  }

  /** Entry `i` leaves I1 and entry `m` of the rest is picked. */
  ghost predicate Selects(s: State, i: Option<nat>, m: Option<nat>) {
    && s.sel.i2 == [] && s.ex.e1 == [] && (i.None? ==> s.sel.i1 == [])
    && (i.Some? ==>
          && i.value < |s.q.iq| && s.sel.i1 == [s.q.iq[i.value].seqNo] && Usual(s.q.iq[i.value])
          && s.q.iq[i.value] != EIGHT
          && (forall j :: 0 <= j < |s.q.iq| && j != i.value ==> s.q.iq[j].seqNo != s.q.iq[i.value].seqNo)
          && OnlyEight(s.q.crossbar))
    && (s.sel.p1 == [] || exists j :: 0 <= j < |Left(s.q.iq, i)| && s.sel.p1 == [Left(s.q.iq, i)[j].seqNo])
    && Picks(Left(s.q.iq, i), s.rt.rob, m)
  }

  lemma SelectsOk(cycle: nat, code: seq<Uop>, s: State, i: Option<nat>, m: Option<nat>)
    requires Nine(code) && Selects(s, i, m)
    ensures IssueOk(cycle, code, s, i, m)
  {
    UsualPick(cycle, code, AfterMoves(AfterI1(s, i)), m);
  }

  // -- Dispatch -----------------------------------------------------------------------------------

  /** `d` after uop `x` took entry `n` of its queue. */
  function WithSlot(x: nat, n: EntryId, d: Dispatcher): Dispatcher
    requires x < |d.dyn|
  {
    Dispatcher(d.stay, d.w2, d.q.(iqTags := d.q.iqTags[x := Tag(n)], iq := d.q.iq + [Slot(x, false)]),
               d.dyn[x := d.dyn[x].(physIq := Some(SharedIq1), dstQtag := Some(Tag(n)), srcQtags := Two(None, None))],
               d.ports[SharedIq1 := PortsUsed(d.ports, SharedIq1) + 1])
  }

  /** The tags of that queue in use are those below `n`. */
  ghost predicate Ladder(iqTags: map<nat, QTag>, n: nat) { forall j: EntryId :: Tag(j) in iqTags.Values <==> j < n }

  lemma LadderAdd(iqTags: map<nat, QTag>, n: EntryId, x: nat, qtag: QTag)
    requires Ladder(iqTags, n) && x !in iqTags && (qtag == Tag(n) || qtag.physIq != SharedIq1)
    ensures Ladder(iqTags[x := qtag], if qtag == Tag(n) then n + 1 else n)
  {
    var next := iqTags[x := qtag];
    assert next[x] == qtag;
    forall j: EntryId ensures Tag(j) in next.Values <==> Tag(j) in iqTags.Values || Tag(j) == qtag {
      if Tag(j) in iqTags.Values {
        var y :| y in iqTags && iqTags[y] == Tag(j);
        assert next[y] == Tag(j);
      }
    }
  }

  lemma SlotUop(x: nat, code: seq<Uop>)
    requires Nine(code) && IsSlot(x)
    ensures x < |code| && IssueQueueCandidates(code[x]) == [SharedIq1] && Free(code[x]) && !code[x].bypass
      && !code[x].startMarker && FreeEntryOf(x, SharedIq1, false, code[x]) == Slot(x, false)
  {
  }

  lemma DispatchSlot(x: nat, n: EntryId, cycle: nat, input: Input, code: seq<Uop>, d: Dispatcher)
    requires Nine(code) && IsSlot(x) && |d.dyn| == 9
    requires PortsUsed(d.ports, SharedIq1) < 2 && |d.q.iq| < IQ_CAPACITY && Ladder(d.q.iqTags, n) && x !in d.q.iqTags
    ensures DispatchOne(x, cycle, input, code, d) == WithSlot(x, n, d) && Ladder(d.q.iqTags[x := Tag(n)], n + 1)
  {
    LadderAdd(d.q.iqTags, n, x, Tag(n));
    SlotUop(x, code);
    forall j: EntryId | j < n ensures QTag(SharedIq1, j) in d.q.iqTags.Values { assert Tag(j) in d.q.iqTags.Values; }
    assert QTag(SharedIq1, n) == Tag(n);
    Dispatches(x, SharedIq1, n, cycle, input, code, d);
    EnqueueReady(x, SharedIq1, Tag(n), cycle, code, d);
  }

  /** Two uops take the two ports. */
  lemma TwoSlots(x: nat, y: nat, n: nat, cycle: nat, input: Input, code: seq<Uop>, d: Dispatcher, d0: Dispatcher,
                 d1: Dispatcher)
    requires Nine(code) && IsSlot(x) && IsSlot(y) && x != y && |d.dyn| == 9
      && n + 1 < IQ_CAPACITY
    requires d.ports == map[] && |d.q.iq| + 1 < IQ_CAPACITY && Ladder(d.q.iqTags, n) && x !in d.q.iqTags
      && y !in d.q.iqTags
    requires d0 == WithSlot(x, n, d) && d1 == WithSlot(y, n + 1, d0)
    ensures d0 == DispatchOne(x, cycle, input, code, d) && d1 == DispatchOne(y, cycle, input, code, d0)
    ensures PortsUsed(d1.ports, SharedIq1) == 2 && Ladder(d1.q.iqTags, n + 2)
  {
    DispatchSlot(x, n, cycle, input, code, d);
    DispatchSlot(y, n + 1, cycle, input, code, d0);
  }

  /** `d` after block start `x` went straight to W2 and took checkpoint `id`. */
  function WithHeader(x: nat, id: nat, cycle: nat, d: Dispatcher): Dispatcher
    requires x < |d.dyn|
  {
    d.(w2 := d.w2 + [x], q := d.q.(checkpoints := d.q.checkpoints[id := EMPTY]),
       dyn := d.dyn[x := Bypassing(cycle + 1)])
  }

  lemma DispatchHeader(x: nat, id: nat, cycle: nat, input: Input, code: seq<Uop>, d: Dispatcher)
    requires Nine(code) && (x == 0 || x == 1 || x == 4) && |d.dyn| == 9 && d.dyn[x] == FRESH && |d.w2| < 4
      && d.q.ready == EMPTY
    requires x in input.snapshots && input.snapshots[x] == id
    ensures DispatchOne(x, cycle, input, code, d) == WithHeader(x, id, cycle, d)
  {
  }

  /** `d` after uop 8 was dispatched while uop 7 carries tag 4. */
  function WithEight(d: Dispatcher): Dispatcher
    requires |d.dyn| == 9
  {
    Dispatcher(d.stay, d.w2,
               d.q.(iqTags := d.q.iqTags[8 := QTag(AluIq0, 0)], iq := d.q.iq + [EIGHT],
                    crossbar := d.q.crossbar[Tag(4) := [(8, 0)]]),
               d.dyn[8 := CAPTURED], d.ports[AluIq0 := PortsUsed(d.ports, AluIq0) + 1])
  }

  /** Uop 8 captures the tag that uop 7 carries, whether or not uop 7 is in the queue. */
  lemma EnqueueEight(cycle: nat, code: seq<Uop>, d: Dispatcher)
    requires Nine(code) && |d.dyn| == 9 && d.q.ready == EMPTY && Waiters(d.q.crossbar, Tag(4)) == []
    requires d.dyn[7] == Named(4) && (d.dyn[8] == FRESH || d.dyn[8] == CAPTURED)
    ensures Enqueue(8, AluIq0, QTag(AluIq0, 0), cycle, code, d) == WithEight(d)
  {
    var qtag := QTag(AluIq0, 0);
    var iqTags := d.q.iqTags[8 := qtag];
    var named := DynPut(d.dyn, 8, DynAt(d.dyn, 8).(physIq := Some(AluIq0), dstQtag := Some(qtag)));
    assert CapturedQTag(8, 0, iqTags, d.q.ready, code, named) == Some(Tag(4));
    assert CapturedQTag(8, 1, iqTags, d.q.ready, code, named) == None;
    var dyn := AnnotateQTagSources(8, iqTags, d.q.ready, code, named);
    assert dyn == d.dyn[8 := CAPTURED];
    assert [] + [(8, 0)] == [(8, 0)];
    assert RegisterSource(d.q.crossbar, 8, 0, Some(Tag(4))) == d.q.crossbar[Tag(4) := [(8, 0)]];
    assert RegisterWaiter(d.q.crossbar, 8, CAPTURED) == d.q.crossbar[Tag(4) := [(8, 0)]];
    assert MakeIqEntry(cycle, 8, AluIq0, d.q.ready, code, dyn) == EIGHT;
  }

  lemma DispatchEight(cycle: nat, input: Input, code: seq<Uop>, d: Dispatcher)
    requires Nine(code) && |d.dyn| == 9 && PortsUsed(d.ports, AluIq0) < 2 && |d.q.iq| < IQ_CAPACITY
    requires QTag(AluIq0, 0) !in d.q.iqTags.Values && d.q.ready == EMPTY && Waiters(d.q.crossbar, Tag(4)) == []
    requires d.dyn[7] == Named(4) && (d.dyn[8] == FRESH || d.dyn[8] == CAPTURED)
    ensures DispatchOne(8, cycle, input, code, d) == WithEight(d)
  {
    Dispatches(8, AluIq0, 0, cycle, input, code, d);
    EnqueueEight(cycle, code, d);
  }

  lemma Loop2(pending: seq<nat>, cycle: nat, input: Input, code: seq<Uop>, d: Dispatcher, d0: Dispatcher,
              d1: Dispatcher)
    requires |pending| == 2 && d0 == DispatchOne(pending[0], cycle, input, code, d)
    requires d1 == DispatchOne(pending[1], cycle, input, code, d0)
    ensures DispatchLoop(pending, cycle, input, code, d) == d1
  {
    assert pending[1..] == [pending[1]];
    DispatchHead(pending, cycle, input, code, d);
    DispatchHead([pending[1]], cycle, input, code, d0);
  }

  lemma Loop4(pending: seq<nat>, cycle: nat, input: Input, code: seq<Uop>, d: Dispatcher, d0: Dispatcher,
              d1: Dispatcher, d2: Dispatcher, d3: Dispatcher)
    requires |pending| == 4 && d0 == DispatchOne(pending[0], cycle, input, code, d)
      && d1 == DispatchOne(pending[1], cycle, input, code, d0)
    requires d2 == DispatchOne(pending[2], cycle, input, code, d1)
      && d3 == DispatchOne(pending[3], cycle, input, code, d2)
    ensures DispatchLoop(pending, cycle, input, code, d) == d3
  {
    var tail := pending[1..];
    assert tail[0] == pending[1] && tail[1..] == pending[2..] && pending[2..][0] == pending[2];
    assert pending[2..][1..] == [pending[3]];
    DispatchHead(pending, cycle, input, code, d);
    DispatchHead(tail, cycle, input, code, d0);
    DispatchHead(pending[2..], cycle, input, code, d1);
    DispatchHead([pending[3]], cycle, input, code, d2);
  }

  // -- One cycle ----------------------------------------------------------------------------------

  /** Everything is fetched, no restart is pending and execution holds little. */
  ghost predicate Running(s: State) {
    && s.fe.pendingFlush.None? && s.fe.redirect.None? && s.fe.nextFetch == 9 && s.mem == NO_MEM
    && !s.rt.halted && |s.rt.committed| < 100
    && s.ex.e2 == [] && s.ex.e3 == [] && s.ex.e4 == [] && |s.ex.e1| <= 1 && |s.ex.w1| <= 1
  }

  /** A cycle without flush and redirect: tagging makes `dyn`, retirement `c`. */
  ghost predicate Readies(cycle: nat, code: seq<Uop>, s: State, dyn: seq<Dyn>, c: State) {
    && cycle != 12 && Running(s) && dyn == TagAll(cycle, code, s.ex, s.dyn) && Unheard(s.q, dyn)
    && c == RetireReady(cycle, code, s.(dyn := dyn)) && Running(c)
  }

  lemma CarryPlain(cycle: nat, code: seq<Uop>, s: State, dyn: seq<Dyn>, c: State)
    requires Nine(code) && Readies(cycle, code, s, dyn, c)
    ensures PlainOk(cycle, OPTS, InputAt(cycle), code, s, s.(dyn := dyn), c, c)
  {
    TaggedPlain(cycle, code, s);
    UnheardUpdate(cycle, code, s.q, dyn);
    ScheduleNone(cycle, InputAt(cycle), code, c);
  }

  lemma Carry(cycle: nat, code: seq<Uop>, s: State, dyn: seq<Dyn>, c: State, i: Option<nat>, m: Option<nat>, e: State,
              r: Dispatcher)
    requires Nine(code) && Readies(cycle, code, s, dyn, c) && Selects(Executed(c, c.dyn), i, m)
      && e == Issued0(Executed(c, c.dyn), i, m)
    requires DispatchOk(cycle, InputAt(cycle), code, e, r)
    ensures Passes(cycle, OPTS, InputAt(cycle), code, s, Passage(s.(dyn := dyn), c, c, i, m, e, r),
                   Dispatched(e, r))
  {
    CarryPlain(cycle, code, s, dyn, c);
    SelectsOk(cycle, code, Executed(c, c.dyn), i, m);
  }

  lemma NextQuiet(run: seq<State>, inputs: nat -> Input, code: seq<Uop>, k: nat, s: State, fe: Fetch, t: State)
    requires Reaches(run, inputs, code, k, s) && QuietOk(k, OPTS, InputAt(k), code, s, fe, t)
    ensures Reaches(run + [t], inputs, code, k + 1, t)
  {
    assert inputs(k) == InputAt(k);
    GrowQuiet(run, OPTS, inputs, code, k, s, fe, t);
  }

  lemma NextPlain(run: seq<State>, inputs: nat -> Input, code: seq<Uop>, k: nat, s: State, a: Passage, t: State)
    requires Reaches(run, inputs, code, k, s) && Passes(k, OPTS, InputAt(k), code, s, a, t)
    ensures Reaches(run + [t], inputs, code, k + 1, t)
  {
    assert inputs(k) == InputAt(k);
    GrowPlain(run, OPTS, inputs, code, k, s, a, t);
  }

  lemma NextBusy(run: seq<State>, inputs: nat -> Input, code: seq<Uop>, k: nat, s: State, dyn: seq<Dyn>, c: State,
                 i: Option<nat>, m: Option<nat>, e: State, r: Dispatcher, t: State)
    requires Reaches(run, inputs, code, k, s)
    requires Readies(k, code, s, dyn, c) && Selects(Executed(c, c.dyn), i, m) && e == Issued0(Executed(c, c.dyn), i, m)
    requires DispatchOk(k, InputAt(k), code, e, r) && t == Dispatched(e, r)
    ensures Reaches(run + [t], inputs, code, k + 1, t)
  {
    Carry(k, code, s, dyn, c, i, m, e, r);
    NextPlain(run, inputs, code, k, s, Passage(s.(dyn := dyn), c, c, i, m, e, r), t);
  }

  /** Dispatch with S2 empty. */
  function NoDispatch(e: State): Dispatcher { Dispatcher([], e.ex.w2, e.q, e.dyn, map[]) }

  /** From execution to the end of a cycle whose S2 is empty. */
  function Carried(c: State, i: Option<nat>, m: Option<nat>): State
    requires (i.Some? ==> i.value < |c.q.iq|) && (m.Some? ==> m.value < |Left(c.q.iq, i)|)
  {
    var e := Issued0(Executed(c, c.dyn), i, m);
    Dispatched(e, NoDispatch(e))
  }

  lemma NextIdle(run: seq<State>, inputs: nat -> Input, code: seq<Uop>, k: nat, s: State, dyn: seq<Dyn>, c: State,
                 i: Option<nat>, m: Option<nat>, t: State)
    requires Reaches(run, inputs, code, k, s) && Readies(k, code, s, dyn, c) && Selects(Executed(c, c.dyn), i, m)
    requires t == Carried(c, i, m) && c.fe.front[10] == [] && RoomToShift(c.fe.front, c.rt.rob)
    ensures Reaches(run + [t], inputs, code, k + 1, t)
  {
    var e := Issued0(Executed(c, c.dyn), i, m);
    NothingToDispatch(k, InputAt(k), code, e);
    NextBusy(run, inputs, code, k, s, dyn, c, i, m, e, NoDispatch(e), t);
  }

  lemma NextFlushed(run: seq<State>, inputs: nat -> Input, code: seq<Uop>, k: nat, s: State, b: State,
                    i: Option<nat>, m: Option<nat>, t: State)
    requires Reaches(run, inputs, code, k, s) && PlainOk(k, OPTS, InputAt(k), code, s, b, b, b)
    requires Selects(Executed(b, b.dyn), i, m)
    requires t == Carried(b, i, m) && b.fe.front[10] == [] && RoomToShift(b.fe.front, b.rt.rob)
    ensures Reaches(run + [t], inputs, code, k + 1, t)
  {
    var e := Issued0(Executed(b, b.dyn), i, m);
    SelectsOk(k, code, Executed(b, b.dyn), i, m);
    NothingToDispatch(k, InputAt(k), code, e);
    NextPlain(run, inputs, code, k, s, Passage(b, b, b, i, m, e, NoDispatch(e)), t);
  }

  lemma RoomForPacket(i: nat, q: seq<nat>, rob: seq<nat>)
    requires i < 10 && |q| <= 4 && |rob| <= 9
    ensures RoomToShift(Packet(i, q), rob) && Shifted(Packet(i, q)) == Packet(i + 1, q) && Packet(i, q)[10] == []
    ensures i != 6 ==> AllocateRob(Packet(i, q)[6], rob) == rob
    ensures Packet(i, q)[10 := []] == Packet(i, q)
  {
    ShiftPacket(i, q);
  }

  lemma RoomAtEnd(q: seq<nat>, rob: seq<nat>, front: Front)
    requires |q| <= 4 && |rob| <= 9 && front == Packet(10, q)
    ensures RoomToShift(front, rob) && Shifted(front) == front && AllocateRob(front[6], rob) == rob
    ensures front[10] == q
  {
    ShiftedAt(front);
    assert q + [] == q;
    assert forall j :: 0 <= j < STAGES ==> Shifted(front)[j] == front[j];
  }

  lemma WaitsOnlyEight(crossbar: map<QTag, seq<(nat, nat)>>)
    requires crossbar == WAITED || crossbar == UNWAITED
    ensures OnlyEight(crossbar)
  {
  }

  lemma SelectsNone(s: State)
    requires s.q.iq == [] && s.sel == NO_ISSUE && s.ex.e1 == []
      && forall j, k :: 0 <= j < k < |s.rt.rob| ==> s.rt.rob[j] < s.rt.rob[k]
    ensures Selects(s, None, None)
  {
  }

  /** Once uop 8 was flushed its wait slot is empty. */
  const UNWAITED: map<QTag, seq<(nat, nat)>> := map[Tag(4) := []]
  const WAITED: map<QTag, seq<(nat, nat)>> := map[Tag(4) := [(8, 0)]]

  function Rec(u: Uop, c: nat): CommitRecord { u.commit.(cycle := c) }

  const R0: Retire := Retire(ALL, [], [], None, false)
  const R1: Retire := Retire([2, 3, 4, 5, 6, 7, 8], [0, 1], [Rec(Header(0), 11), Rec(Header(1), 11)], None, false)
  const R2: Retire := Retire([2, 3, 4], [0, 1], [Rec(Header(0), 11), Rec(Header(1), 11)], None, false)
  const R3: Retire :=
    Retire([3, 4], [0, 1, 2], [Rec(Header(0), 11), Rec(Header(1), 11), Rec(SETUP, 16)], None, false)
  const FIVE_RECORDS: seq<CommitRecord> :=
    [Rec(Header(0), 11), Rec(Header(1), 11), Rec(SETUP, 16), Rec(Plain(3), 17), Rec(Header(4), 17)]
  const R4: Retire := Retire([], [0, 1, 2, 3, 4], FIVE_RECORDS, None, false)
  const R5: Retire := Retire(LATER, [0, 1, 2, 3, 4], FIVE_RECORDS, None, false)
  const R6: Retire := Retire([6, 7, 8], [0, 1, 2, 3, 4, 5], FIVE_RECORDS + [Rec(Plain(5), 29)], None, false)
  const R7: Retire :=
    Retire([7, 8], [0, 1, 2, 3, 4, 5, 6], FIVE_RECORDS + [Rec(Plain(5), 29)] + [Rec(Plain(6), 30)], None, false)

  // -- Cycle 10: uops 0 to 3 are dispatched -------------------------------------------------------

  const TAGS_10: map<nat, QTag> := map[2 := Tag(0), 3 := Tag(1)]
  const DYN_10: seq<Dyn> :=
    [Bypassing(11), Bypassing(11), Named(0), Named(1), FRESH, FRESH, FRESH, FRESH, FRESH]

  function State11(): State {
    Pipe(Packets(11), Queued([Slot(2, false), Slot(3, false)], TAGS_10, map[], TWO_CHECKPOINTS), NO_ISSUE,
         NO_EXEC.(w2 := [0, 1]), R0, DYN_10)
  }

  lemma Readies10(code: seq<Uop>, s: State, k: nat)
    requires Nine(code) && k == 10 && s == First(k)
    ensures Readies(k, code, s, s.dyn, s)
  {
    TagNone(k, code, s.dyn);
    RetireNone(k, code, s);
  }

  lemma LadderNone()
    ensures Ladder(map[], 0)
  {
  }

  lemma Loop10(pending: seq<nat>, cycle: nat, input: Input, code: seq<Uop>, d: Dispatcher, d0: Dispatcher,
               d1: Dispatcher, d2: Dispatcher, d3: Dispatcher)
    requires Nine(code) && pending == [0, 1, 2, 3] && |d.dyn| == 9 && d.dyn[0] == FRESH && d.dyn[1] == FRESH
    requires input.snapshots == map[0 := 1, 1 := 2] && d.q.ready == EMPTY
    requires d.w2 == [] && d.q.iq == [] && d.q.iqTags == map[] && d.ports == map[]
    requires d0 == WithHeader(0, 1, cycle, d) && d1 == WithHeader(1, 2, cycle, d0) && d2 == WithSlot(2, 0, d1)
      && d3 == WithSlot(3, 1, d2)
    ensures DispatchLoop(pending, cycle, input, code, d) == d3
  {
    DispatchHeader(pending[0], 1, cycle, input, code, d);
    DispatchHeader(pending[1], 2, cycle, input, code, d0);
    LadderNone();
    TwoSlots(pending[2], pending[3], 0, cycle, input, code, d1, d2, d3);
    Loop4(pending, cycle, input, code, d, d0, d1, d2, d3);
  }

  lemma Result10(d: Dispatcher, d0: Dispatcher, d1: Dispatcher, d2: Dispatcher, d3: Dispatcher, k: nat)
    requires d == Dispatcher([], [], NO_QUEUE, NO_DYN, map[]) && k == 10
    requires d0 == WithHeader(0, 1, k, d) && d1 == WithHeader(1, 2, k, d0) && d2 == WithSlot(2, 0, d1)
      && d3 == WithSlot(3, 1, d2)
    ensures d3.stay == [] && d3.w2 == [0, 1] && d3.dyn == DYN_10
      && Rebuilt(d3.q) == Queued([Slot(2, false), Slot(3, false)], TAGS_10, map[], TWO_CHECKPOINTS)
  {
    QueuedIs(d3.q, [Slot(2, false), Slot(3, false)], TAGS_10, map[], TWO_CHECKPOINTS);
  }

  lemma Out10(input: Input, code: seq<Uop>, s: State, k: nat, e: State) returns (r: Dispatcher)
    requires Nine(code) && k == 10 && s == First(k) && e == Issued0(s, None, None)
    requires input.snapshots == map[0 := 1, 1 := 2]
    ensures DispatchOk(k, input, code, e, r) && State11() == Dispatched(e, r)
  {
    var d := Dispatcher([], e.ex.w2, e.q, e.dyn, map[]);
    QueuedIs(s.q, [], map[], map[], map[]);
    var d0 := WithHeader(0, 1, k, d);
    var d1 := WithHeader(1, 2, k, d0);
    var d2 := WithSlot(2, 0, d1);
    r := WithSlot(3, 1, d2);
    Loop10(e.fe.front[10], k, input, code, d, d0, d1, d2, r);
    Result10(d, d0, d1, d2, r, k);
    FirstSlots(k);
    ShiftPackets(e.fe.front[10 := []], k);
  }

  lemma Cycle10(run: seq<State>, inputs: nat -> Input, code: seq<Uop>, k: nat, s: State)
    requires Reaches(run, inputs, code, k, s) && k == 10 && s == First(k)
    ensures Reaches(run + [State11()], inputs, code, 11, State11())
  {
    Readies10(code, s, k);
    SelectsNone(s);
    var e := Issued0(s, None, None);
    var r := Out10(InputAt(k), code, s, k, e);
    NextBusy(run, inputs, code, k, s, s.dyn, s, None, None, e, r, State11());
  }

  // -- Cycle 11: uops 4 to 6 are dispatched, uop 7 finds no port ----------------------------------

  const DYN_11: seq<Dyn> := [Bypassed(11), Bypassed(11), Named(0), Named(1), FRESH, FRESH, FRESH, FRESH, FRESH]
  const TAGS_11: map<nat, QTag> := TAGS_10[5 := Tag(2)][6 := Tag(3)]
  const DYN_12: seq<Dyn> :=
    [Bypassed(11), Bypassed(11), Named(0), Named(1), Bypassing(12), Named(2), Named(3), FRESH, FRESH]

  function State12(): State {
    Pipe(Packet(10, [7, 8]), Held([Slot(2, true), Slot(3, false), Slot(5, false), Slot(6, false)], TAGS_11, map[]),
         Issue([2], [], []), NO_EXEC.(w2 := [4]), R1, DYN_12)
  }

  lemma Retire11(code: seq<Uop>, s: State, dyn: seq<Dyn>)
    requires Nine(code) && s.rt == R0 && dyn == DYN_11
    ensures RetireReady(11, code, s.(dyn := dyn)) == s.(dyn := dyn, rt := R1)
  {
    var a := Retirer(s.rt, s.q.ready, s.mem.stq, s.mem.scb);
    var b := a.(rt := Retire([1, 2, 3, 4, 5, 6, 7, 8], [0], [Rec(Header(0), 11)], None, false));
    RetireHead(4, 11, code, dyn, a, b);
    RetireHead(4, 11, code, dyn, b, a.(rt := R1));
  }

  lemma Readies11(code: seq<Uop>, s: State, dyn: seq<Dyn>)
    requires Nine(code) && s == State11() && dyn == DYN_11
    ensures Readies(11, code, s, dyn, s.(dyn := dyn, rt := R1))
  {
    assert TagAll(11, code, s.ex, s.dyn) == dyn;
    Retire11(code, s, dyn);
  }

  lemma Selects11(s: State)
    requires s.q.iq == [Slot(2, false), Slot(3, false)] && s.sel == NO_ISSUE && s.ex.e1 == [] && s.rt == R1
    ensures Selects(s, None, Some(0))
  {
  }

  lemma Ladder10()
    ensures Ladder(TAGS_10, 2)
  {
    LadderNone();
    LadderAdd(map[], 0, 2, Tag(0));
    LadderAdd(map[2 := Tag(0)], 1, 3, Tag(1));
  }

  /** Uop 7 finds both ports taken. */
  lemma NoPort(x: nat, cycle: nat, input: Input, code: seq<Uop>, d: Dispatcher)
    requires Nine(code) && x == 7 && PortsUsed(d.ports, SharedIq1) == 2 && d.stay == []
    ensures DispatchOne(x, cycle, input, code, d) == d.(stay := [x])
  {
    SlotUop(x, code);
    Stays(x, SharedIq1, cycle, input, code, d);
    assert [] + [x] == [x];
  }

  lemma Steps11(pending: seq<nat>, cycle: nat, input: Input, code: seq<Uop>, d: Dispatcher, d0: Dispatcher,
                d1: Dispatcher, d2: Dispatcher)
    requires Nine(code) && pending == [4, 5, 6, 7] && |d.dyn| == 9 && d.dyn[4] == FRESH
    requires input.snapshots == map[4 := 5] && d.q.ready == EMPTY
    requires d.w2 == [] && |d.q.iq| == 2 && d.q.iqTags == TAGS_10 && d.ports == map[]
    requires d0 == WithHeader(4, 5, cycle, d) && d1 == WithSlot(5, 2, d0) && d2 == WithSlot(6, 3, d1)
    ensures d0 == DispatchOne(pending[0], cycle, input, code, d)
      && d1 == DispatchOne(pending[1], cycle, input, code, d0)
    ensures d2 == DispatchOne(pending[2], cycle, input, code, d1) && PortsUsed(d2.ports, SharedIq1) == 2
  {
    DispatchHeader(pending[0], 5, cycle, input, code, d);
    Ladder10();
    assert 5 !in TAGS_10 && 6 !in TAGS_10;
    TwoSlots(pending[1], pending[2], 2, cycle, input, code, d0, d1, d2);
  }

  lemma Loop11(pending: seq<nat>, cycle: nat, input: Input, code: seq<Uop>, d: Dispatcher, d0: Dispatcher,
               d1: Dispatcher, d2: Dispatcher)
    requires Nine(code) && pending == [4, 5, 6, 7] && |d.dyn| == 9 && d.dyn[4] == FRESH
    requires input.snapshots == map[4 := 5] && d.q.ready == EMPTY && d.stay == []
    requires d.w2 == [] && |d.q.iq| == 2 && d.q.iqTags == TAGS_10 && d.ports == map[]
    requires d0 == WithHeader(4, 5, cycle, d) && d1 == WithSlot(5, 2, d0) && d2 == WithSlot(6, 3, d1)
    ensures DispatchLoop(pending, cycle, input, code, d) == d2.(stay := [7])
  {
    Steps11(pending, cycle, input, code, d, d0, d1, d2);
    NoPort(pending[3], cycle, input, code, d2);
    Loop4(pending, cycle, input, code, d, d0, d1, d2, d2.(stay := [pending[3]]));
  }

  lemma Result11(d: Dispatcher, d0: Dispatcher, d1: Dispatcher, d2: Dispatcher, k: nat)
    requires d.dyn == DYN_11 && d.w2 == [] && k == 11
    requires Rebuilt(d.q) == Queued([Slot(2, true), Slot(3, false)], TAGS_10, map[], TWO_CHECKPOINTS)
    requires d0 == WithHeader(4, 5, k, d) && d1 == WithSlot(5, 2, d0) && d2 == WithSlot(6, 3, d1)
    ensures d2.w2 == [4] && d2.dyn == DYN_12
      && Rebuilt(d2.q) == Held([Slot(2, true), Slot(3, false), Slot(5, false), Slot(6, false)], TAGS_11, map[])
  {
    QueuedIs(d2.q, [Slot(2, true), Slot(3, false), Slot(5, false), Slot(6, false)], TAGS_11, map[], CHECKPOINTS);
  }

  lemma Front11(front: Front)
    requires front == Packets(11)[10 := [7]]
    ensures RoomToShift(front, R1.rob) && Shifted(front) == Packet(10, [7, 8])
    ensures Packets(11)[10] == [4, 5, 6, 7] && AllocateRob(Packets(11)[6], R1.rob) == R1.rob
  {
    ShiftedAt(front);
    assert [7] + [8] == [7, 8];
    assert forall j :: 0 <= j < STAGES ==> Shifted(front)[j] == Packet(10, [7, 8])[j];
  }

  lemma Picked11(s: State, e: State)
    requires s == State11().(dyn := DYN_11, rt := R1) && e == Issued0(Executed(s, s.dyn), None, Some(0))
    ensures Rebuilt(e.q) == Queued([Slot(2, true), Slot(3, false)], TAGS_10, map[], TWO_CHECKPOINTS)
      && e == s.(q := e.q, ex := NO_EXEC, sel := Issue([2], [], []))
  {
    QueuedIs(e.q, [Slot(2, true), Slot(3, false)], TAGS_10, map[], TWO_CHECKPOINTS);
  }

  lemma Out11(input: Input, code: seq<Uop>, s: State, k: nat, e: State) returns (r: Dispatcher)
    requires Nine(code) && k == 11 && input.snapshots == map[4 := 5] && s == State11().(dyn := DYN_11, rt := R1)
    requires Rebuilt(e.q) == Queued([Slot(2, true), Slot(3, false)], TAGS_10, map[], TWO_CHECKPOINTS)
      && e == s.(q := e.q, ex := NO_EXEC, sel := Issue([2], [], []))
    ensures DispatchOk(k, input, code, e, r) && State12() == Dispatched(e, r)
  {
    var d := Dispatcher([], e.ex.w2, e.q, e.dyn, map[]);
    var d0 := WithHeader(4, 5, k, d);
    var d1 := WithSlot(5, 2, d0);
    var d2 := WithSlot(6, 3, d1);
    Front11(e.fe.front[10 := [7]]);
    Loop11(e.fe.front[10], k, input, code, d, d0, d1, d2);
    Result11(d, d0, d1, d2, k);
    r := d2.(stay := [7]);
  }

  lemma Cycle11(run: seq<State>, inputs: nat -> Input, code: seq<Uop>, k: nat, s: State)
    requires Reaches(run, inputs, code, k, s) && k == 11 && s == State11()
    ensures Reaches(run + [State12()], inputs, code, 12, State12())
  {
    var dyn := DYN_11;
    var c := s.(dyn := dyn, rt := R1);
    Readies11(code, s, dyn);
    Selects11(Executed(c, dyn));
    var e := Issued0(Executed(c, dyn), None, Some(0));
    Picked11(c, e);
    var r := Out11(InputAt(k), code, c, k, e);
    NextBusy(run, inputs, code, k, s, dyn, c, None, Some(0), e, r, State12());
  }

  // -- Cycle 12: the redirect; uops 7 and 8 are dispatched ----------------------------------------

  const REDIRECT: Redirect := Redirect(4, 5, 13)
  const FLUSH: Flush := Flush(4, 5, 13)
  const RESOLVED: seq<Dyn> := DYN_12[4 := Bypassed(12)]
  const TAGS_12: map<nat, QTag> := TAGS_11[7 := Tag(4)][8 := QTag(AluIq0, 0)]
  const IQ_12: seq<IqEntry> :=
    [Slot(2, true), Slot(3, true), Slot(5, false), Slot(6, false), Slot(7, false), EIGHT]

  /** The redirect of uop 4 is scheduled; uop 8 has captured the tag of uop 7. */
  function State13(): State {
    State(Fetch(Packet(10, []), Some(REDIRECT), Some(FLUSH), 9), Held(IQ_12, TAGS_12, WAITED),
          Issue([3], [2], []), NO_EXEC, NO_MEM, R1, Early(Named(0), Named(1)))
  }

  function Resolved(): State { State12().(dyn := RESOLVED) }

  function Redirected(): State { Resolved().(fe := Fetch(Packet(10, [7, 8]), Some(REDIRECT), Some(FLUSH), 9)) }

  lemma {:induction false} ResolvesAt(k: nat, code: seq<Uop>, dyn: seq<Dyn>, from: nat)
    requires Nine(code) && k == 12 && dyn == RESOLVED && from <= 4
    ensures ResolvedBoundary(k, code, dyn, from) == Some(4)
    decreases 4 - from
  {
    if from < 4 {
      assert ResolveCycle(code[from], DynAt(dyn, from)) != Some(k);
      ResolvesAt(k, code, dyn, from + 1);
    }
  }

  lemma {:induction false} NoRestart(from: nat, pc: nat, code: seq<Uop>)
    requires Nine(code) && from > 4
    ensures LegalRestart(from, pc, code).None?
    decreases |code| - from
  {
    if from < |code| { NoRestart(from + 1, pc, code); }
  }

  lemma Schedule12(input: Input, code: seq<Uop>, s: State, k: nat)
    requires Nine(code) && k == 12 && input == InputAt(k) && s.dyn == RESOLVED && s.rt.pendingTrap.None?
    requires s.fe.redirect.None? && s.fe.pendingFlush.None?
    ensures ScheduleRedirect(k, input, code, s)
        == s.(fe := s.fe.(redirect := Some(REDIRECT), pendingFlush := Some(FLUSH)))
  {
    ResolvesAt(k, code, s.dyn, 0);
    NoRestart(5, 20, code);
  }

  lemma Tagged12(code: seq<Uop>, s: State, k: nat, b: State)
    requires Nine(code) && k == 12 && s == State12() && b == Resolved()
    ensures Tagged0(k, code, s) == b
  {
    TaggedPlain(k, code, s);
    assert TagAll(k, code, s.ex, s.dyn) == RESOLVED;
  }

  lemma Update12(code: seq<Uop>, k: nat, b: State)
    requires Nine(code) && b == Resolved()
    ensures UpdateQueue(k, code, b.dyn, b.q) == b.q
  {
    UnheardUpdate(k, code, b.q, b.dyn);
  }

  lemma Retire12(code: seq<Uop>, k: nat, b: State)
    requires b == Resolved()
    ensures RetireReady(k, code, b) == b && Running(b)
  {
    RetireNone(k, code, b);
  }

  lemma Plain12(input: Input, code: seq<Uop>, s: State, k: nat, b: State, d: State)
    requires Nine(code) && k == 12 && input == InputAt(k) && s == State12() && b == Resolved() && d == Redirected()
    ensures PlainOk(k, OPTS, input, code, s, b, b, d)
  {
    Tagged12(code, s, k, b);
    Update12(code, k, b);
    Retire12(code, k, b);
    Schedule12(input, code, b, k);
  }

  lemma Selects12(s: State)
    requires s.q.iq == [Slot(2, true), Slot(3, false), Slot(5, false), Slot(6, false)] && s.sel == Issue([2], [], [])
      && s.ex.e1 == [] && s.rt == R1
    ensures Selects(s, None, Some(1))
  {
    assert Left(s.q.iq, None)[0].seqNo == 2;
    Picks12(s.q.iq, s.rt.rob);
  }

  lemma Picks12(iq: seq<IqEntry>, rob: seq<nat>)
    requires iq == [Slot(2, true), Slot(3, false), Slot(5, false), Slot(6, false)] && rob == R1.rob
    ensures Picks(iq, rob, Some(1))
  {
  }

  lemma Ladder11()
    ensures Ladder(TAGS_11, 4)
  {
    Ladder10();
    LadderAdd(TAGS_10, 2, 5, Tag(2));
    LadderAdd(TAGS_10[5 := Tag(2)], 3, 6, Tag(3));
  }

  lemma Loop12(pending: seq<nat>, cycle: nat, input: Input, code: seq<Uop>, d: Dispatcher, d0: Dispatcher)
    requires Nine(code) && pending == [7, 8] && |d.dyn| == 9 && d.dyn[7] == FRESH && d.dyn[8] == FRESH
    requires d.q.ready == EMPTY && d.q.crossbar == map[] && |d.q.iq| == 4 && d.q.iqTags == TAGS_11 && d.ports == map[]
    requires d0 == WithSlot(7, 4, d)
    ensures DispatchLoop(pending, cycle, input, code, d) == WithEight(d0)
  {
    Ladder11();
    DispatchSlot(7, 4, cycle, input, code, d);
    DispatchEight(cycle, input, code, d0);
    Loop2(pending, cycle, input, code, d, d0, WithEight(d0));
  }

  lemma Result12(d: Dispatcher, d0: Dispatcher)
    requires d.dyn == RESOLVED && d0 == WithSlot(7, 4, d)
    requires Rebuilt(d.q) == Held([Slot(2, true), Slot(3, true), Slot(5, false), Slot(6, false)], TAGS_11, map[])
    ensures WithEight(d0).dyn == Early(Named(0), Named(1)) && Rebuilt(WithEight(d0).q) == Held(IQ_12, TAGS_12, WAITED)
  {
    QueuedIs(WithEight(d0).q, IQ_12, TAGS_12, WAITED, CHECKPOINTS);
  }

  lemma Picked12(s: State, e: State)
    requires s == Redirected() && e == Issued0(Executed(s, s.dyn), None, Some(1))
    ensures Rebuilt(e.q) == Held([Slot(2, true), Slot(3, true), Slot(5, false), Slot(6, false)], TAGS_11, map[])
      && e == s.(q := e.q, ex := NO_EXEC, sel := Issue([3], [2], []))
  {
    QueuedIs(e.q, [Slot(2, true), Slot(3, true), Slot(5, false), Slot(6, false)], TAGS_11, map[], CHECKPOINTS);
  }

  lemma Out12(input: Input, code: seq<Uop>, s: State, k: nat, e: State) returns (r: Dispatcher)
    requires Nine(code) && s == Redirected()
    requires Rebuilt(e.q) == Held([Slot(2, true), Slot(3, true), Slot(5, false), Slot(6, false)], TAGS_11, map[])
      && e == s.(q := e.q, ex := NO_EXEC, sel := Issue([3], [2], []))
    ensures DispatchOk(k, input, code, e, r) && State13() == Dispatched(e, r)
  {
    var d := Dispatcher([], e.ex.w2, e.q, e.dyn, map[]);
    var d0 := WithSlot(7, 4, d);
    Loop12(e.fe.front[10], k, input, code, d, d0);
    Result12(d, d0);
    RoomAtEnd([], R1.rob, e.fe.front[10 := []]);
    r := WithEight(d0);
  }

  lemma Cycle12(run: seq<State>, inputs: nat -> Input, code: seq<Uop>, k: nat, s: State)
    requires Reaches(run, inputs, code, k, s) && k == 12 && s == State12()
    ensures Reaches(run + [State13()], inputs, code, 13, State13())
  {
    var b, d := Resolved(), Redirected();
    Plain12(InputAt(k), code, s, k, b, d);
    Selects12(Executed(d, d.dyn));
    SelectsOk(k, code, Executed(d, d.dyn), None, Some(1));
    var e := Issued0(Executed(d, d.dyn), None, Some(1));
    Picked12(d, e);
    var r := Out12(InputAt(k), code, d, k, e);
    NextPlain(run, inputs, code, k, s, Passage(b, b, d, None, Some(1), e, r), State13());
  }

  // -- Cycle 13: the flush ------------------------------------------------------------------------

  const KEPT: seq<IqEntry> := [Slot(2, true), Slot(3, true)]

  /** What the flush leaves. */
  function Pruned(): State {
    State(Fetch(Packet(10, []), Some(REDIRECT), Some(FLUSH), 9), Held(KEPT, TAGS_10, UNWAITED),
          Issue([3], [2], []), NO_EXEC, NO_MEM, R2, Early(Named(0), Named(1)))
  }

  function Flushed(): State {
    Pipe(Packet(0, LATER), Held(KEPT, TAGS_10, UNWAITED), Issue([3], [2], []), NO_EXEC, R2, Early(Named(0), Named(1)))
  }

  lemma PruneIq(iq: seq<IqEntry>, keep: IqEntry -> bool)
    requires iq == IQ_12 && forall e :: keep(e) <==> e.seqNo <= 4
    ensures Retain(iq, keep) == KEPT
  {
    var young := iq[2..];
    RetainNone(young, keep);
    assert iq[1..][1..] == young;
    assert Retain(iq[1..], keep) == [iq[1]] + Retain(young, keep);
  }

  lemma PruneWaits(crossbar: map<QTag, seq<(nat, nat)>>)
    requires crossbar == WAITED
    ensures RetainWaiters(crossbar, x => x <= 4) == UNWAITED
  {
    RetainNone(crossbar[Tag(4)], (w: (nat, nat)) => (x => x <= 4)(w.0));
  }

  lemma PruneTags(iqTags: map<nat, QTag>)
    requires iqTags == TAGS_12
    ensures RetainTags(iqTags, x => x <= 4) == TAGS_10
  {
  }

  lemma PruneQueue13(q: Queue)
    requires q.iq == IQ_12 && q.iqTags == TAGS_12 && q.crossbar == WAITED && q.ready == EMPTY
      && q.checkpoints == CHECKPOINTS
    ensures PruneQueue(4, q) == Held(KEPT, TAGS_10, UNWAITED)
  {
    PruneIq(q.iq, (e: IqEntry) => e.seqNo <= 4);
    PruneWaits(q.crossbar);
    PruneTags(q.iqTags);
  }

  lemma UpToHead(q: seq<nat>, f: nat)
    requires q != []
    ensures UpTo(q, f) == (if q[0] <= f then [q[0]] else []) + UpTo(q[1..], f)
  {
  }

  lemma {:induction false} UpToNone(q: seq<nat>, f: nat)
    requires forall i :: 0 <= i < |q| ==> q[i] > f
    ensures UpTo(q, f) == []
  {
    if q != [] {
      UpToHead(q, f);
      UpToNone(q[1..], f);
    }
  }

  lemma PruneRob(rob: seq<nat>)
    requires rob == [2, 3, 4, 5, 6, 7, 8]
    ensures UpTo(rob, 4) == [2, 3, 4]
  {
    var a, b, young := rob[1..], rob[2..], rob[3..];
    assert a[1..] == b && b[1..] == young;
    UpToHead(rob, 4);
    UpToHead(a, 4);
    UpToHead(b, 4);
    UpToNone(young, 4);
  }

  lemma PruneRest(s: State)
    requires s.fe.front == Packet(10, []) && s.sel == Issue([3], [2], []) && s.ex == NO_EXEC && s.mem == NO_MEM
    ensures RetainFront(s.fe.front, 4) == s.fe.front && PruneExec(4, s.ex) == s.ex && PruneMem(4, s.mem) == s.mem
    ensures Issue(UpTo(s.sel.p1, 4), UpTo(s.sel.i1, 4), UpTo(s.sel.i2, 4)) == s.sel
  {
    assert RetainFront(s.fe.front, 4) == s.fe.front;
    RetainAll([3], x => x <= 4);
    RetainAll([2], x => x <= 4);
  }

  lemma Prune13(s: State)
    requires s == State13()
    ensures Prune(4, s) == Pruned()
  {
    PruneQueue13(s.q);
    PruneRob(s.rt.rob);
    PruneRest(s);
  }

  lemma Flush13(code: seq<Uop>, s: State, p: State)
    requires Nine(code) && s == State13() && p == Pruned()
    ensures ApplyFlush(FLUSH, code, s) == p.(fe := p.fe.(pendingFlush := None))
  {
    Prune13(s);
    assert RestoreReady(5, s.q) == s.q;
    NoLsids(code, p);
  }

  lemma NoLsids(code: seq<Uop>, s: State)
    requires PlainCode(code)
    ensures RebaseLsid(code, s) == s.mem
  {
    assert Lsids(QueuedSeqs(s) - IssuedSeqs(s), code) == {} && Lsids(QueuedSeqs(s) + IssuedSeqs(s), code) == {};
  }

  lemma Fetch13(code: seq<Uop>, s: State)
    requires Nine(code) && s.fe == Fetch(Packet(10, []), None, None, 5)
    ensures FetchLoop(code, s.dyn, s.fe) == Fetch(Packet(0, LATER), None, None, 9)
  {
    FetchNext(code, s, 9, LATER);
    assert s.fe.front[0 := LATER] == Packet(0, LATER);
  }

  lemma Tagged13(code: seq<Uop>, s: State, k: nat, b: State)
    requires Nine(code) && k == 13 && s == State13() && b == Flushed()
    ensures Tagged0(k, code, s) == b
  {
    var p := Pruned();
    Flush13(code, s, p);
    var f := p.(fe := p.fe.(pendingFlush := None));
    assert ApplyPendingFlush(k, code, s) == f;
    Fetch13(code, f.(fe := TakeRestart(f.fe)));
    assert FillFetch(k, code, f) == b;
    TagNone(k, code, b.dyn);
  }

  lemma Plain13(input: Input, code: seq<Uop>, s: State, k: nat, b: State)
    requires Nine(code) && k == 13 && input == InputAt(k) && s == State13() && b == Flushed()
    ensures PlainOk(k, OPTS, input, code, s, b, b, b)
  {
    Tagged13(code, s, k, b);
    Update13(code, b, k);
    Retire13(code, b, k);
    ScheduleNone(k, input, code, b);
  }

  lemma Retire13(code: seq<Uop>, b: State, k: nat)
    requires b == Flushed()
    ensures RetireReady(k, code, b) == b && Running(b)
  {
    RetireNone(k, code, b);
  }

  lemma Update13(code: seq<Uop>, b: State, k: nat)
    requires Nine(code) && b == Flushed()
    ensures UpdateQueue(k, code, b.dyn, b.q) == b.q
  {
    UnheardUpdate(k, code, b.q, b.dyn);
  }

  function State14(): State {
    Pipe(Packet(1, LATER), Held([Slot(3, true)], map[3 := Tag(1)], UNWAITED), Issue([], [3], []),
         NO_EXEC.(e1 := [2]), R2, Early(Named(0), Named(1)))
  }

  lemma Selects13(s: State)
    requires s.q.iq == KEPT && s.q.crossbar == UNWAITED && s.sel == Issue([3], [2], []) && s.ex.e1 == [] && s.rt == R2
    ensures Selects(s, Some(0), None)
  {
    WaitsOnlyEight(s.q.crossbar);
    assert Left(s.q.iq, Some(0)) == [Slot(3, true)];
    assert Left(s.q.iq, Some(0))[0].seqNo == 3;
  }

  lemma Out13(c: State)
    requires c == Flushed()
    ensures State14() == Carried(c, Some(0), None) && RoomToShift(c.fe.front, c.rt.rob) && c.fe.front[10] == []
  {
    RoomForPacket(0, LATER, R2.rob);
    assert RemoveAt(c.q.iq, 0) == [Slot(3, true)];
    QueuedIs(Issued0(c, Some(0), None).q, [Slot(3, true)], map[3 := Tag(1)], UNWAITED, CHECKPOINTS);
  }

  lemma Cycle13(run: seq<State>, inputs: nat -> Input, code: seq<Uop>, k: nat, s: State)
    requires Reaches(run, inputs, code, k, s) && k == 13 && s == State13()
    ensures Reaches(run + [State14()], inputs, code, 14, State14())
  {
    var b := Flushed();
    Plain13(InputAt(k), code, s, k, b);
    Selects13(b);
    Out13(b);
    NextFlushed(run, inputs, code, k, s, b, Some(0), None, State14());
  }

  // -- Cycles 14 to 22: uops 2 to 4 finish, the rest comes again ----------------------------------

  function State15(): State {
    Pipe(Packet(2, LATER), Held([], map[], UNWAITED), NO_ISSUE,
         Exec([3], [], [], [], [2], []), R2, Early(InE1(0, 14), Named(1)))
  }

  lemma Readies14(code: seq<Uop>, s: State, dyn: seq<Dyn>)
    requires Nine(code) && s == State14() && dyn == Early(InE1(0, 14), Named(1))
    ensures Readies(14, code, s, dyn, s.(dyn := dyn))
  {
    assert TagAll(14, code, s.ex, s.dyn) == dyn;
    RetireNone(14, code, s.(dyn := dyn));
  }

  lemma Selects14(s: State)
    requires s.q.iq == [Slot(3, true)] && s.q.crossbar == UNWAITED && s.sel == Issue([], [3], []) && s.ex.e1 == []
      && s.rt == R2
    ensures Selects(s, Some(0), None)
  {
    WaitsOnlyEight(s.q.crossbar);
    assert Left(s.q.iq, Some(0)) == [];
  }

  lemma Out14(c: State)
    requires c == State14().(dyn := Early(InE1(0, 14), Named(1)))
    ensures State15() == Carried(c, Some(0), None) && RoomToShift(c.fe.front, c.rt.rob) && c.fe.front[10] == []
  {
    RoomForPacket(1, LATER, R2.rob);
    assert RemoveAt(c.q.iq, 0) == [];
    assert c.q.iqTags - {3} == map[];
    QueuedIs(Issued0(Executed(c, c.dyn), Some(0), None).q, [], map[], UNWAITED,
             CHECKPOINTS);
  }

  lemma Cycle14(run: seq<State>, inputs: nat -> Input, code: seq<Uop>, k: nat, s: State)
    requires Reaches(run, inputs, code, k, s) && k == 14 && s == State14()
    ensures Reaches(run + [State15()], inputs, code, 15, State15())
  {
    var dyn := Early(InE1(0, 14), Named(1));
    var c := s.(dyn := dyn);
    Readies14(code, s, dyn);
    Selects14(Executed(c, dyn));
    Out14(c);
    NextIdle(run, inputs, code, k, s, dyn, c, Some(0), None, State15());
  }

  function State16(): State {
    Pipe(Packet(3, LATER), Held([], map[], UNWAITED), NO_ISSUE,
         Exec([], [], [], [], [3], [2]), R2, Early(InW1(0, 14), InE1(1, 15)))
  }

  lemma Readies15(code: seq<Uop>, s: State, dyn: seq<Dyn>)
    requires Nine(code) && s == State15() && dyn == Early(InW1(0, 14), InE1(1, 15))
    ensures Readies(15, code, s, dyn, s.(dyn := dyn))
  {
    assert TagAll(15, code, s.ex, s.dyn) == dyn;
    RetireNone(15, code, s.(dyn := dyn));
  }

  lemma Out15(c: State)
    requires c == State15().(dyn := Early(InW1(0, 14), InE1(1, 15)))
    ensures State16() == Carried(c, None, None) && RoomToShift(c.fe.front, c.rt.rob) && c.fe.front[10] == []
  {
    RoomForPacket(2, LATER, R2.rob);
    QueuedIs(Issued0(Executed(c, c.dyn), None, None).q, [], map[], UNWAITED,
             CHECKPOINTS);
  }

  lemma Cycle15(run: seq<State>, inputs: nat -> Input, code: seq<Uop>, k: nat, s: State)
    requires Reaches(run, inputs, code, k, s) && k == 15 && s == State15()
    ensures Reaches(run + [State16()], inputs, code, 16, State16())
  {
    var dyn := Early(InW1(0, 14), InE1(1, 15));
    var c := s.(dyn := dyn);
    Readies15(code, s, dyn);
    SelectsNone(Executed(c, dyn));
    Out15(c);
    NextIdle(run, inputs, code, k, s, dyn, c, None, None, State16());
  }

  lemma RetireNext(limit: nat, cycle: nat, code: seq<Uop>, s: State, dyn: seq<Dyn>, x: nat, rt: Retire)
    requires Nine(code) && limit == |s.rt.retired| + COMMIT_WIDTH && s.rt.rob != [] && x == s.rt.rob[0] && x < 7
    requires |dyn| == 9 && dyn[x].done.Some? && (|s.rt.rob| == 1 || DynAt(dyn, s.rt.rob[1]).done.None?)
    requires s.rt.pendingTrap.None? && rt == s.rt.(rob := s.rt.rob[1..], retired := s.rt.retired + [x],
                                                   committed := s.rt.committed + [Rec(code[x], cycle)])
    ensures RetireReady(cycle, code, s.(dyn := dyn)) == s.(dyn := dyn, rt := rt)
  {
    var a := Retirer(s.rt, s.q.ready, s.mem.stq, s.mem.scb);
    RetireHead(limit, cycle, code, dyn, a, a.(rt := rt));
  }

  function State17(): State {
    Pipe(Packet(4, LATER), Held([], map[], UNWAITED), NO_ISSUE,
         NO_EXEC.(w2 := [3]), R3, Early(Done(0, 14), InW1(1, 15)))
  }

  lemma Readies16(code: seq<Uop>, s: State, dyn: seq<Dyn>)
    requires Nine(code) && s == State16() && dyn == Early(Done(0, 14), InW1(1, 15))
    ensures Readies(16, code, s, dyn, s.(dyn := dyn, rt := R3))
  {
    assert TagAll(16, code, s.ex, s.dyn) == dyn;
    RetireNext(6, 16, code, s, dyn, 2, R3);
  }

  lemma Out16(c: State)
    requires c == State16().(dyn := Early(Done(0, 14), InW1(1, 15)), rt := R3)
    ensures State17() == Carried(c, None, None) && RoomToShift(c.fe.front, c.rt.rob) && c.fe.front[10] == []
  {
    RoomForPacket(3, LATER, R3.rob);
    QueuedIs(Issued0(Executed(c, c.dyn), None, None).q, [], map[], UNWAITED,
             CHECKPOINTS);
  }

  lemma Cycle16(run: seq<State>, inputs: nat -> Input, code: seq<Uop>, k: nat, s: State)
    requires Reaches(run, inputs, code, k, s) && k == 16 && s == State16()
    ensures Reaches(run + [State17()], inputs, code, 17, State17())
  {
    var dyn := Early(Done(0, 14), InW1(1, 15));
    var c := s.(dyn := dyn, rt := R3);
    Readies16(code, s, dyn);
    SelectsNone(Executed(c, dyn));
    Out16(c);
    NextIdle(run, inputs, code, k, s, dyn, c, None, None, State17());
  }

  lemma Retire17(code: seq<Uop>, s: State, dyn: seq<Dyn>)
    requires Nine(code) && s.rt == R3 && dyn == Early(Done(0, 14), Done(1, 15))
    ensures RetireReady(17, code, s.(dyn := dyn)) == s.(dyn := dyn, rt := R4)
  {
    var a := Retirer(s.rt, s.q.ready, s.mem.stq, s.mem.scb);
    var records := [Rec(Header(0), 11), Rec(Header(1), 11), Rec(SETUP, 16), Rec(Plain(3), 17)];
    var b := a.(rt := Retire([4], [0, 1, 2, 3], records, None, false));
    RetireHead(7, 17, code, dyn, a, b);
    RetireHead(7, 17, code, dyn, b, a.(rt := R4));
  }

  lemma Readies17(code: seq<Uop>, s: State, dyn: seq<Dyn>)
    requires Nine(code) && s == State17() && dyn == Early(Done(0, 14), Done(1, 15))
    ensures Readies(17, code, s, dyn, s.(dyn := dyn, rt := R4))
  {
    assert TagAll(17, code, s.ex, s.dyn) == dyn;
    Retire17(code, s, dyn);
  }

  /** From cycle 18 the second packet moves on alone. */
  function Second(k: nat): State
    requires 18 <= k <= 23
  {
    Pipe(Packet(k - 13, LATER), Held([], map[], UNWAITED), NO_ISSUE, NO_EXEC,
         if k < 20 then R4 else R5, Early(Done(0, 14), Done(1, 15)))
  }

  lemma Out17(c: State, k: nat)
    requires k == 18 && c == State17().(dyn := Early(Done(0, 14), Done(1, 15)), rt := R4)
    ensures Second(k) == Carried(c, None, None) && RoomToShift(c.fe.front, c.rt.rob) && c.fe.front[10] == []
  {
    RoomForPacket(4, LATER, R4.rob);
    QueuedIs(Issued0(Executed(c, c.dyn), None, None).q, [], map[], UNWAITED,
             CHECKPOINTS);
  }

  lemma Cycle17(run: seq<State>, inputs: nat -> Input, code: seq<Uop>, k: nat, s: State)
    requires Reaches(run, inputs, code, k, s) && k == 17 && s == State17()
    ensures Reaches(run + [Second(18)], inputs, code, 18, Second(18))
  {
    var dyn := Early(Done(0, 14), Done(1, 15));
    var c := s.(dyn := dyn, rt := R4);
    Readies17(code, s, dyn);
    SelectsNone(Executed(c, dyn));
    Out17(c, k + 1);
    NextIdle(run, inputs, code, k, s, dyn, c, None, None, Second(18));
  }

  lemma QuietSecond(code: seq<Uop>, k: nat, s: State)
    requires Nine(code) && 18 <= k < 23 && s == Second(k)
    ensures QuietOk(k, OPTS, InputAt(k), code, s, s.fe, Second(k + 1))
  {
    RoomForPacket(k - 13, LATER, s.rt.rob);
    if k == 19 { AllocateAll(LATER, []); }
    QueuedIs(s.q, [], map[], UNWAITED, CHECKPOINTS);
  }

  // -- Cycles 23 and 24: the second dispatch ------------------------------------------------------

  const TAGS_23: map<nat, QTag> := map[5 := Tag(0), 6 := Tag(1), 8 := QTag(AluIq0, 0)]
  const IQ_23: seq<IqEntry> := [Slot(5, false), Slot(6, false), EIGHT]

  /** Uop 8 is dispatched past uop 7 and captures the tag of uop 7's first dispatch. */
  function State24(): State {
    Pipe(Packet(10, [7]), Held(IQ_23, TAGS_23, WAITED), NO_ISSUE, NO_EXEC, R5, Late(Named(0), Named(1), Named(4)))
  }

  lemma Readies23(code: seq<Uop>, s: State, k: nat)
    requires Nine(code) && k == 23 && s == Second(k)
    ensures Readies(k, code, s, s.dyn, s)
  {
    TagNone(k, code, s.dyn);
    RetireNone(k, code, s);
  }

  /** Uops 5 and 6 take entries, uop 7 finds no port and uop 8 is dispatched. */
  lemma Steps23(pending: seq<nat>, cycle: nat, input: Input, code: seq<Uop>, d1: Dispatcher, d2: Dispatcher)
    requires Nine(code) && pending == LATER && |d1.dyn| == 9 && d1.dyn[7] == Named(4) && d1.dyn[8] == CAPTURED
    requires PortsUsed(d1.ports, SharedIq1) == 2 && PortsUsed(d1.ports, AluIq0) == 0 && d1.stay == [] && |d1.q.iq| == 2
    requires d1.q.ready == EMPTY && d1.q.crossbar == UNWAITED && QTag(AluIq0, 0) !in d1.q.iqTags.Values
    requires d2 == d1.(stay := [7])
    ensures DispatchOne(pending[2], cycle, input, code, d1) == d2
    ensures DispatchOne(pending[3], cycle, input, code, d2) == WithEight(d2)
  {
    NoPort(pending[2], cycle, input, code, d1);
    DispatchEight(cycle, input, code, d2);
  }

  lemma Between23(d: Dispatcher, d0: Dispatcher, d1: Dispatcher)
    requires |d.dyn| == 9 && d.q.iq == [] && d.q.iqTags == map[] && d.ports == map[]
    requires d0 == WithSlot(5, 0, d) && d1 == WithSlot(6, 1, d0)
    ensures |d1.dyn| == 9 && d1.dyn[7] == d.dyn[7] && d1.dyn[8] == d.dyn[8] && d1.stay == d.stay && |d1.q.iq| == 2
    ensures PortsUsed(d1.ports, AluIq0) == 0 && QTag(AluIq0, 0) !in d1.q.iqTags.Values
    ensures d1.q.ready == d.q.ready && d1.q.crossbar == d.q.crossbar
  {
  }

  lemma Loop23(pending: seq<nat>, cycle: nat, input: Input, code: seq<Uop>, d: Dispatcher, d0: Dispatcher,
               d1: Dispatcher, d2: Dispatcher)
    requires Nine(code) && pending == LATER && |d.dyn| == 9 && d.dyn[7] == Named(4) && d.dyn[8] == CAPTURED
    requires d.stay == [] && d.q.iq == [] && d.q.iqTags == map[] && d.ports == map[]
    requires d.q.ready == EMPTY && d.q.crossbar == UNWAITED
    requires d0 == WithSlot(5, 0, d) && d1 == WithSlot(6, 1, d0) && d2 == d1.(stay := [7])
    ensures DispatchLoop(pending, cycle, input, code, d) == WithEight(d2)
  {
    LadderNone();
    TwoSlots(pending[0], pending[1], 0, cycle, input, code, d, d0, d1);
    Between23(d, d0, d1);
    Steps23(pending, cycle, input, code, d1, d2);
    Loop4(pending, cycle, input, code, d, d0, d1, d2, WithEight(d2));
  }

  lemma Result23(d: Dispatcher, d0: Dispatcher, d1: Dispatcher, d2: Dispatcher)
    requires d.w2 == [] && d.q == Held([], map[], UNWAITED) && d.dyn == Late(Named(2), Named(3), Named(4))
    requires d0 == WithSlot(5, 0, d) && d1 == WithSlot(6, 1, d0) && d2 == d1.(stay := [7])
    ensures WithEight(d2).w2 == [] && WithEight(d2).dyn == Late(Named(0), Named(1), Named(4))
      && Rebuilt(WithEight(d2).q) == Held(IQ_23, TAGS_23, WAITED)
  {
    QueuedIs(WithEight(d2).q, IQ_23, TAGS_23, WAITED, CHECKPOINTS);
  }

  lemma Out23(input: Input, code: seq<Uop>, s: State, k: nat, e: State) returns (r: Dispatcher)
    requires Nine(code) && k == 23 && s == Second(k) && e == Issued0(Executed(s, s.dyn), None, None)
    ensures DispatchOk(k, input, code, e, r) && State24() == Dispatched(e, r)
  {
    var d := Dispatcher([], e.ex.w2, e.q, e.dyn, map[]);
    QueuedIs(s.q, [], map[], UNWAITED, CHECKPOINTS);
    var d0 := WithSlot(5, 0, d);
    var d1 := WithSlot(6, 1, d0);
    r := WithEight(d1.(stay := [7]));
    Loop23(e.fe.front[10], k, input, code, d, d0, d1, d1.(stay := [7]));
    Result23(d, d0, d1, d1.(stay := [7]));
    RoomAtEnd([7], LATER, s.fe.front[10 := [7]]);
  }

  lemma Cycle23(run: seq<State>, inputs: nat -> Input, code: seq<Uop>, k: nat, s: State)
    requires Reaches(run, inputs, code, k, s) && k == 23 && s == Second(k)
    ensures Reaches(run + [State24()], inputs, code, 24, State24())
  {
    Readies23(code, s, k);
    SelectsNone(s);
    var e := Issued0(s, None, None);
    var r := Out23(InputAt(k), code, s, k, e);
    NextBusy(run, inputs, code, k, s, s.dyn, s, None, None, e, r, State24());
  }

  const TAGS_24: map<nat, QTag> := TAGS_23[7 := Tag(2)]
  const IQ_24: seq<IqEntry> := [Slot(5, true), Slot(6, false), EIGHT, Slot(7, false)]

  /** Uop 7 now holds entry 2; uop 8 keeps waiting for entry 4. */
  function State25(): State {
    Pipe(Packet(10, []), Held(IQ_24, TAGS_24, WAITED), Issue([5], [], []), NO_EXEC, R5,
         Late(Named(0), Named(1), Named(2)))
  }

  lemma Readies24(code: seq<Uop>, s: State)
    requires Nine(code) && s == State24()
    ensures Readies(24, code, s, s.dyn, s)
  {
    TagNone(24, code, s.dyn);
    RetireNone(24, code, s);
  }

  lemma Selects24(s: State)
    requires s.q.iq == IQ_23 && s.sel == NO_ISSUE && s.ex.e1 == [] && s.rt.rob == LATER
    ensures Selects(s, None, Some(0))
  {
  }

  lemma Ladder23()
    ensures Ladder(TAGS_23, 2)
  {
    LadderNone();
    LadderAdd(map[], 0, 5, Tag(0));
    LadderAdd(map[5 := Tag(0)], 1, 6, Tag(1));
    LadderAdd(map[5 := Tag(0), 6 := Tag(1)], 2, 8, QTag(AluIq0, 0));
  }

  lemma Loop24(pending: seq<nat>, cycle: nat, input: Input, code: seq<Uop>, d: Dispatcher)
    requires Nine(code) && |d.dyn| == 9 && pending == [7] && |d.q.iq| == 3 && d.ports == map[] && d.q.iqTags == TAGS_23
    ensures DispatchLoop(pending, cycle, input, code, d) == WithSlot(7, 2, d)
  {
    Ladder23();
    DispatchSlot(pending[0], 2, cycle, input, code, d);
    DispatchHead(pending, cycle, input, code, d);
  }

  lemma Result24(s: State, e: State, d: Dispatcher)
    requires s == State24() && e == Issued0(s, None, Some(0)) && d == Dispatcher([], [], e.q, s.dyn, map[])
    ensures WithSlot(7, 2, d).dyn == Late(Named(0), Named(1), Named(2))
      && Rebuilt(WithSlot(7, 2, d).q) == Held(IQ_24, TAGS_24, WAITED)
  {
    QueuedIs(WithSlot(7, 2, d).q, IQ_24, TAGS_24, WAITED, CHECKPOINTS);
  }

  lemma Out24(input: Input, code: seq<Uop>, s: State, k: nat, e: State, d: Dispatcher)
    requires Nine(code) && s == State24() && e == Issued0(s, None, Some(0))
      && d == Dispatcher([], e.ex.w2, e.q, e.dyn, map[])
    ensures DispatchOk(k, input, code, e, WithSlot(7, 2, d)) && State25() == Dispatched(e, WithSlot(7, 2, d))
  {
    Loop24(e.fe.front[10], k, input, code, d);
    RoomAtEnd([], LATER, s.fe.front[10 := []]);
    Result24(s, e, d);
  }

  lemma Cycle24(run: seq<State>, inputs: nat -> Input, code: seq<Uop>, k: nat, s: State)
    requires Reaches(run, inputs, code, k, s) && k == 24 && s == State24()
    ensures Reaches(run + [State25()], inputs, code, 25, State25())
  {
    Readies24(code, s);
    Selects24(s);
    var e := Issued0(s, None, Some(0));
    var d := NoDispatch(e);
    Out24(InputAt(k), code, s, k, e, d);
    NextBusy(run, inputs, code, k, s, s.dyn, s, None, Some(0), e, WithSlot(7, 2, d), State25());
  }

  // -- Cycles 25 to 30: uops 5 to 7 issue ---------------------------------------------------------

  const IQ_25: seq<IqEntry> := [Slot(5, true), Slot(6, true), EIGHT, Slot(7, false)]

  function State26(): State {
    Pipe(Packet(10, []), Held(IQ_25, TAGS_24, WAITED), Issue([6], [5], []),
         NO_EXEC, R5, Late(Named(0), Named(1), Named(2)))
  }

  lemma Readies25(code: seq<Uop>, s: State)
    requires Nine(code) && s == State25()
    ensures Readies(25, code, s, s.dyn, s)
  {
    TagNone(25, code, s.dyn);
    RetireNone(25, code, s);
  }

  lemma Selects25(s: State)
    requires s.q.iq == IQ_24 && s.sel == Issue([5], [], []) && s.ex.e1 == [] && s.rt.rob == LATER
    ensures Selects(s, None, Some(1))
  {
    assert Left(s.q.iq, None)[0].seqNo == 5;
    Picks25(s.q.iq);
  }

  lemma Picks25(iq: seq<IqEntry>)
    requires iq == IQ_24
    ensures Picks(iq, LATER, Some(1))
  {
  }

  lemma Out25(c: State)
    requires c == State25()
    ensures State26() == Carried(c, None, Some(1)) && RoomToShift(c.fe.front, c.rt.rob) && c.fe.front[10] == []
  {
    RoomAtEnd([], R5.rob, c.fe.front);
    assert c.fe.front[10 := []] == c.fe.front;
    QueuedIs(Issued0(Executed(c, c.dyn), None, Some(1)).q, IQ_25, TAGS_24, WAITED,
             CHECKPOINTS);
  }

  lemma Cycle25(run: seq<State>, inputs: nat -> Input, code: seq<Uop>, k: nat, s: State)
    requires Reaches(run, inputs, code, k, s) && k == 25 && s == State25()
    ensures Reaches(run + [State26()], inputs, code, 26, State26())
  {
    Readies25(code, s);
    Selects25(s);
    Out25(s);
    NextIdle(run, inputs, code, k, s, s.dyn, s, None, Some(1), State26());
  }

  const TAGS_26: map<nat, QTag> := TAGS_24 - {5}

  function State27(): State {
    Pipe(Packet(10, []), Held([Slot(6, true), EIGHT, Slot(7, true)], TAGS_26, WAITED), Issue([7], [6], []),
         NO_EXEC.(e1 := [5]), R5, Late(Named(0), Named(1), Named(2)))
  }

  lemma Readies26(code: seq<Uop>, s: State)
    requires Nine(code) && s == State26()
    ensures Readies(26, code, s, s.dyn, s)
  {
    TagNone(26, code, s.dyn);
    RetireNone(26, code, s);
  }

  lemma Left26(iq: seq<IqEntry>, rest: seq<IqEntry>)
    requires iq == IQ_25 && rest == Left(iq, Some(0))
    ensures |rest| == 3 && rest[0].seqNo == 6 && Picks(rest, LATER, Some(2))
  {
    assert rest == [Slot(6, true), EIGHT, Slot(7, false)];
    Picks26(rest);
  }

  lemma Picks26(iq: seq<IqEntry>)
    requires iq == [Slot(6, true), EIGHT, Slot(7, false)]
    ensures Picks(iq, LATER, Some(2))
  {
  }

  lemma Selects26(s: State)
    requires s.q.iq == IQ_25 && s.q.crossbar == WAITED && s.sel == Issue([6], [5], []) && s.ex.e1 == []
      && s.rt.rob == LATER
    ensures Selects(s, Some(0), Some(2))
  {
    WaitsOnlyEight(s.q.crossbar);
    var rest := Left(s.q.iq, Some(0));
    Left26(s.q.iq, rest);
    assert rest[0].seqNo == 6;
  }

  lemma Queue26(c: State, q: Queue)
    requires c == State26() && q == Issued0(Executed(c, c.dyn), Some(0), Some(2)).q
    ensures q.iq == [Slot(6, true), EIGHT, Slot(7, true)] && q.iqTags == TAGS_26 && q.crossbar == WAITED
      && q.ready == EMPTY && q.checkpoints == CHECKPOINTS
  {
    assert RemoveAt(c.q.iq, 0) == [Slot(6, true), EIGHT, Slot(7, false)];
  }

  lemma Out26(c: State)
    requires c == State26()
    ensures State27() == Carried(c, Some(0), Some(2)) && RoomToShift(c.fe.front, c.rt.rob) && c.fe.front[10] == []
  {
    RoomAtEnd([], R5.rob, c.fe.front);
    assert c.fe.front[10 := []] == c.fe.front;
    var q := Issued0(Executed(c, c.dyn), Some(0), Some(2)).q;
    Queue26(c, q);
    QueuedIs(q, [Slot(6, true), EIGHT, Slot(7, true)], TAGS_26, WAITED, CHECKPOINTS);
  }

  lemma Cycle26(run: seq<State>, inputs: nat -> Input, code: seq<Uop>, k: nat, s: State)
    requires Reaches(run, inputs, code, k, s) && k == 26 && s == State26()
    ensures Reaches(run + [State27()], inputs, code, 27, State27())
  {
    Readies26(code, s);
    Selects26(s);
    Out26(s);
    NextIdle(run, inputs, code, k, s, s.dyn, s, Some(0), Some(2), State27());
  }

  const TAGS_27: map<nat, QTag> := TAGS_26 - {6}

  function State28(): State {
    Pipe(Packet(10, []), Held([EIGHT, Slot(7, true)], TAGS_27, WAITED), Issue([], [7], []),
         Exec([6], [], [], [], [5], []), R5, Late(InE1(0, 27), Named(1), Named(2)))
  }

  lemma Readies27(code: seq<Uop>, s: State, dyn: seq<Dyn>)
    requires Nine(code) && s == State27() && dyn == Late(InE1(0, 27), Named(1), Named(2))
    ensures Readies(27, code, s, dyn, s.(dyn := dyn))
  {
    assert TagAll(27, code, s.ex, s.dyn) == dyn;
    RetireNone(27, code, s.(dyn := dyn));
  }

  lemma Picks27(iq: seq<IqEntry>)
    requires iq == [EIGHT, Slot(7, true)]
    ensures Picks(iq, LATER, None)
  {
  }

  lemma Selects27(s: State)
    requires s.q.iq == [Slot(6, true), EIGHT, Slot(7, true)] && s.q.crossbar == WAITED
    requires s.sel == Issue([7], [6], []) && s.ex.e1 == [] && s.rt.rob == LATER
    ensures Selects(s, Some(0), None)
  {
    WaitsOnlyEight(s.q.crossbar);
    assert Left(s.q.iq, Some(0)) == [EIGHT, Slot(7, true)];
    assert Left(s.q.iq, Some(0))[1].seqNo == 7;
    Picks27(Left(s.q.iq, Some(0)));
  }

  lemma Out27(c: State)
    requires c == State27().(dyn := Late(InE1(0, 27), Named(1), Named(2)))
    ensures State28() == Carried(c, Some(0), None) && RoomToShift(c.fe.front, c.rt.rob) && c.fe.front[10] == []
  {
    RoomAtEnd([], R5.rob, c.fe.front);
    assert c.fe.front[10 := []] == c.fe.front;
    assert RemoveAt(c.q.iq, 0) == [EIGHT, Slot(7, true)];
    QueuedIs(Issued0(Executed(c, c.dyn), Some(0), None).q, [EIGHT, Slot(7, true)], TAGS_27, WAITED,
             CHECKPOINTS);
  }

  lemma Cycle27(run: seq<State>, inputs: nat -> Input, code: seq<Uop>, k: nat, s: State)
    requires Reaches(run, inputs, code, k, s) && k == 27 && s == State27()
    ensures Reaches(run + [State28()], inputs, code, 28, State28())
  {
    var dyn := Late(InE1(0, 27), Named(1), Named(2));
    var c := s.(dyn := dyn);
    Readies27(code, s, dyn);
    Selects27(Executed(c, dyn));
    Out27(c);
    NextIdle(run, inputs, code, k, s, dyn, c, Some(0), None, State28());
  }

  const LAST_TAGS: map<nat, QTag> := TAGS_27 - {7}

  function State29(): State {
    Pipe(Packet(10, []), Held([EIGHT], LAST_TAGS, WAITED), NO_ISSUE,
         Exec([7], [], [], [], [6], [5]), R5, Late(InW1(0, 27), InE1(1, 28), Named(2)))
  }

  lemma Readies28(code: seq<Uop>, s: State, dyn: seq<Dyn>)
    requires Nine(code) && s == State28() && dyn == Late(InW1(0, 27), InE1(1, 28), Named(2))
    ensures Readies(28, code, s, dyn, s.(dyn := dyn))
  {
    assert TagAll(28, code, s.ex, s.dyn) == dyn;
    RetireNone(28, code, s.(dyn := dyn));
  }

  lemma Selects28(s: State)
    requires s.q.iq == [EIGHT, Slot(7, true)] && s.q.crossbar == WAITED && s.sel == Issue([], [7], [])
      && s.ex.e1 == [] && s.rt.rob == LATER
    ensures Selects(s, Some(1), None)
  {
    WaitsOnlyEight(s.q.crossbar);
    assert Left(s.q.iq, Some(1)) == [EIGHT];
  }

  lemma Out28(c: State)
    requires c == State28().(dyn := Late(InW1(0, 27), InE1(1, 28), Named(2)))
    ensures State29() == Carried(c, Some(1), None) && RoomToShift(c.fe.front, c.rt.rob) && c.fe.front[10] == []
  {
    RoomAtEnd([], R5.rob, c.fe.front);
    assert c.fe.front[10 := []] == c.fe.front;
    assert RemoveAt(c.q.iq, 1) == [EIGHT];
    QueuedIs(Issued0(Executed(c, c.dyn), Some(1), None).q, [EIGHT], LAST_TAGS, WAITED,
             CHECKPOINTS);
  }

  lemma Cycle28(run: seq<State>, inputs: nat -> Input, code: seq<Uop>, k: nat, s: State)
    requires Reaches(run, inputs, code, k, s) && k == 28 && s == State28()
    ensures Reaches(run + [State29()], inputs, code, 29, State29())
  {
    var dyn := Late(InW1(0, 27), InE1(1, 28), Named(2));
    var c := s.(dyn := dyn);
    Readies28(code, s, dyn);
    Selects28(Executed(c, dyn));
    Out28(c);
    NextIdle(run, inputs, code, k, s, dyn, c, Some(1), None, State29());
  }

  lemma SelectsLast(s: State)
    requires s.q.iq == [EIGHT] && s.sel == NO_ISSUE && s.ex.e1 == [] && (s.rt.rob == [6, 7, 8] || s.rt.rob == [7, 8])
    ensures Selects(s, None, None)
  {
  }

  function State30(): State {
    Pipe(Packet(10, []), Held([EIGHT], LAST_TAGS, WAITED), NO_ISSUE,
         Exec([], [], [], [], [7], [6]), R6, Late(Done(0, 27), InW1(1, 28), InE1(2, 29)))
  }

  lemma Readies29(code: seq<Uop>, s: State, dyn: seq<Dyn>)
    requires Nine(code) && s == State29() && dyn == Late(Done(0, 27), InW1(1, 28), InE1(2, 29))
    ensures Readies(29, code, s, dyn, s.(dyn := dyn, rt := R6))
  {
    assert TagAll(29, code, s.ex, s.dyn) == dyn;
    RetireNext(9, 29, code, s, dyn, 5, R6);
  }

  lemma Out29(c: State)
    requires c == State29().(dyn := Late(Done(0, 27), InW1(1, 28), InE1(2, 29)), rt := R6)
    ensures State30() == Carried(c, None, None) && RoomToShift(c.fe.front, c.rt.rob) && c.fe.front[10] == []
  {
    RoomAtEnd([], R6.rob, c.fe.front);
    assert c.fe.front[10 := []] == c.fe.front;
    QueuedIs(Issued0(Executed(c, c.dyn), None, None).q, [EIGHT], LAST_TAGS, WAITED,
             CHECKPOINTS);
  }

  lemma Cycle29(run: seq<State>, inputs: nat -> Input, code: seq<Uop>, k: nat, s: State)
    requires Reaches(run, inputs, code, k, s) && k == 29 && s == State29()
    ensures Reaches(run + [State30()], inputs, code, 30, State30())
  {
    var dyn := Late(Done(0, 27), InW1(1, 28), InE1(2, 29));
    var c := s.(dyn := dyn, rt := R6);
    Readies29(code, s, dyn);
    SelectsLast(Executed(c, dyn));
    Out29(c);
    NextIdle(run, inputs, code, k, s, dyn, c, None, None, State30());
  }

  /** The data of uop 7 becomes visible in the coming cycle. */
  function State31(): State {
    Pipe(Packet(10, []), Held([EIGHT], LAST_TAGS, WAITED), NO_ISSUE,
         NO_EXEC.(w2 := [7]), R7, Late(Done(0, 27), Done(1, 28), InW1(2, 29)))
  }

  lemma Readies30(code: seq<Uop>, s: State, dyn: seq<Dyn>)
    requires Nine(code) && s == State30() && dyn == Late(Done(0, 27), Done(1, 28), InW1(2, 29))
    ensures Readies(30, code, s, dyn, s.(dyn := dyn, rt := R7))
  {
    assert TagAll(30, code, s.ex, s.dyn) == dyn;
    RetireNext(10, 30, code, s, dyn, 6, R7);
  }

  lemma Out30(c: State)
    requires c == State30().(dyn := Late(Done(0, 27), Done(1, 28), InW1(2, 29)), rt := R7)
    ensures State31() == Carried(c, None, None) && RoomToShift(c.fe.front, c.rt.rob) && c.fe.front[10] == []
  {
    RoomAtEnd([], R7.rob, c.fe.front);
    assert c.fe.front[10 := []] == c.fe.front;
    QueuedIs(Issued0(Executed(c, c.dyn), None, None).q, [EIGHT], LAST_TAGS, WAITED,
             CHECKPOINTS);
  }

  lemma Cycle30(run: seq<State>, inputs: nat -> Input, code: seq<Uop>, k: nat, s: State)
    requires Reaches(run, inputs, code, k, s) && k == 30 && s == State30()
    ensures Reaches(run + [State31()], inputs, code, 31, State31())
  {
    var dyn := Late(Done(0, 27), Done(1, 28), InW1(2, 29));
    var c := s.(dyn := dyn, rt := R7);
    Readies30(code, s, dyn);
    SelectsLast(Executed(c, dyn));
    Out30(c);
    NextIdle(run, inputs, code, k, s, dyn, c, None, None, State31());
  }

  // -- The run ------------------------------------------------------------------------------------

  lemma ToTwo(inputs: nat -> Input, code: seq<Uop>, s: State) returns (run: seq<State>)
    requires Nine(code) && (forall i: nat :: inputs(i) == InputAt(i)) && s == Initial(code)
    ensures Reaches(run, inputs, code, 2, State2())
  {
    Quiet0(code, s);
    NextQuiet([s], inputs, code, 0, s, Fetch(Packet(0, [0, 1, 2, 3]), None, None, 4), State1());
    run := [s] + [State1()];
    Quiet1(code, State1());
    NextQuiet(run, inputs, code, 1, State1(), Fetch(Packets(1), None, None, 8), State2());
    run := run + [State2()];
  }

  lemma {:induction false} ToFirst(inputs: nat -> Input, code: seq<Uop>, k: nat) returns (run: seq<State>)
    requires Nine(code) && (forall i: nat :: inputs(i) == InputAt(i)) && 3 <= k <= 10
    ensures Reaches(run, inputs, code, k, First(k))
  {
    if k == 3 {
      run := ToTwo(inputs, code, Initial(code));
      Quiet2(code, State2());
      NextQuiet(run, inputs, code, 2, State2(), Fetch(Packets(2), None, None, 9), First(k));
    } else {
      var j := k - 1;
      run := ToFirst(inputs, code, j);
      QuietFirst(code, j, First(j));
      NextQuiet(run, inputs, code, j, First(j), First(j).fe, First(k));
    }
    run := run + [First(k)];
  }

  ghost predicate Began(run: seq<State>) {
    |run| > 13 && run[10] == First(10) && run[11] == State11() && run[12] == State12() && run[13] == State13()
  }

  lemma ToRestart(inputs: nat -> Input, code: seq<Uop>) returns (run: seq<State>)
    requires Nine(code) && (forall i: nat :: inputs(i) == InputAt(i))
    ensures Reaches(run, inputs, code, 14, State14()) && Began(run)
  {
    run := ToFirst(inputs, code, 10);
    Cycle10(run, inputs, code, 10, First(10));
    run := run + [State11()];
    Cycle11(run, inputs, code, 11, State11());
    run := run + [State12()];
    Cycle12(run, inputs, code, 12, State12());
    run := run + [State13()];
    Cycle13(run, inputs, code, 13, State13());
    run := run + [State14()];
  }

  lemma ToQuiet(inputs: nat -> Input, code: seq<Uop>) returns (run: seq<State>)
    requires Nine(code) && (forall i: nat :: inputs(i) == InputAt(i))
    ensures Reaches(run, inputs, code, 18, Second(18)) && Began(run)
  {
    run := ToRestart(inputs, code);
    Cycle14(run, inputs, code, 14, State14());
    run := run + [State15()];
    Cycle15(run, inputs, code, 15, State15());
    run := run + [State16()];
    Cycle16(run, inputs, code, 16, State16());
    run := run + [State17()];
    Cycle17(run, inputs, code, 17, State17());
    run := run + [Second(18)];
  }

  lemma {:induction false} ToSecondDispatch(start: seq<State>, inputs: nat -> Input, code: seq<Uop>, k: nat)
      returns (run: seq<State>)
    requires Reaches(start, inputs, code, 18, Second(18)) && 18 <= k <= 23
    ensures Reaches(run, inputs, code, k, Second(k)) && run[..19] == start
  {
    if k == 18 {
      run := start;
    } else {
      var j := k - 1;
      var prior := ToSecondDispatch(start, inputs, code, j);
      QuietSecond(code, j, Second(j));
      NextQuiet(prior, inputs, code, j, Second(j), Second(j).fe, Second(k));
      run := prior + [Second(k)];
      assert run[..19] == prior[..19];
    }
  }

  lemma BeganPrefix(start: seq<State>, run: seq<State>)
    requires Began(start) && |start| == 19 && |run| >= 19 && run[..19] == start
    ensures Began(run)
  {
    assert forall i :: 0 <= i < 19 ==> run[i] == run[..19][i];
  }

  ghost predicate Stations(run: seq<State>) {
    Began(run) && |run| > 25 && run[24] == State24() && run[25] == State25()
  }

  lemma ToIssue(inputs: nat -> Input, code: seq<Uop>) returns (run: seq<State>)
    requires Nine(code) && (forall i: nat :: inputs(i) == InputAt(i))
    ensures Reaches(run, inputs, code, 26, State26()) && Stations(run)
  {
    var start := ToQuiet(inputs, code);
    run := ToSecondDispatch(start, inputs, code, 23);
    BeganPrefix(start, run);
    Cycle23(run, inputs, code, 23, Second(23));
    run := run + [State24()];
    Cycle24(run, inputs, code, 24, State24());
    run := run + [State25()];
    Cycle25(run, inputs, code, 25, State25());
    run := run + [State26()];
  }

  lemma ToExecution(inputs: nat -> Input, code: seq<Uop>) returns (run: seq<State>)
    requires Nine(code) && (forall i: nat :: inputs(i) == InputAt(i))
    ensures Reaches(run, inputs, code, 29, State29()) && Stations(run)
  {
    run := ToIssue(inputs, code);
    Cycle26(run, inputs, code, 26, State26());
    run := run + [State27()];
    Cycle27(run, inputs, code, 27, State27());
    run := run + [State28()];
    Cycle28(run, inputs, code, 28, State28());
    run := run + [State29()];
  }

  lemma ToLoss(inputs: nat -> Input, code: seq<Uop>) returns (run: seq<State>)
    requires Nine(code) && (forall i: nat :: inputs(i) == InputAt(i))
    ensures Reaches(run, inputs, code, 31, State31()) && Stations(run)
  {
    run := ToExecution(inputs, code);
    Cycle29(run, inputs, code, 29, State29());
    run := run + [State30()];
    Cycle30(run, inputs, code, 30, State30());
    run := run + [State31()];
  }

  lemma TagsIn31(code: seq<Uop>, s: State, k: nat, u: State)
    requires Nine(code) && k == 31 && s == State31() && u == s.(dyn := TagAll(k, code, s.ex, s.dyn))
    ensures u.q.iq == [EIGHT] && Unheard(u.q, u.dyn) && DataReady(8, 0, k, u.q.ready, code, u.dyn)
  {
    assert u.dyn == Late(Done(0, 27), Done(1, 28), Done(2, 29));
  }

  lemma LostIn31(code: seq<Uop>, s: State, k: nat, u: State)
    requires Nine(code) && k == 31 && s == State31() && u == FrontHalf(k, InputAt(k), code, s)
    ensures u.q.iq == [EIGHT] && DataReady(8, 0, k, u.q.ready, code, u.dyn)
  {
    var b := s.(dyn := TagAll(k, code, s.ex, s.dyn));
    TagsIn31(code, s, k, b);
    UnheardUpdate(k, code, b.q, b.dyn);
    TaggedPlain(k, code, s);
    FrontPlain(k, InputAt(k), code, s);
  }

  // -- Where the redirect comes from --------------------------------------------------------------

  /** What the nine instructions are to the branch logic. */
  const ROLES: seq<Role> :=
    [Starts(OwnerKind.Fall), Starts(OwnerKind.Ind), Sets(Some(20)), Other, Starts(OwnerKind.Fall), Other, Other, Other,
     Other]

  /** In cycle `k` the input redirects exactly to what the branch logic decides. */
  ghost predicate Given(k: nat, input: Input, code: seq<Uop>, s: State, b: Branches) {
    Decides(k, ROLES, code, TagAll(k, code, s.ex, s.dyn), b)
      == if input.target.None? then None else Some(input.target.value.pc)
  }

  /** The branch logic has seen what dispatch took from S2 in cycles 10 and 11. It gives the blocks that
      resolve in cycle 11 no target and uop 4, in cycle 12, the one of the input; and it faults none. */
  ghost predicate Derived(run: seq<State>, inputs: nat -> Input, code: seq<Uop>)
    requires |run| > 12
  {
    var b := RecordedAll(run[10].fe.front[10], ROLES, code, NO_BRANCHES);
    var c := RecordedAll(run[11].fe.front[10], ROLES, code, b);
    && Given(11, inputs(11), code, run[11], b) && !Faults(0, ROLES[0], code, b) && !Faults(1, ROLES[1], code, b)
    && Given(12, inputs(12), code, run[12], c) && !Faults(4, ROLES[4], code, c)
  }

  const AFTER_10: Branches :=
    Branches(Context(OwnerKind.Ind, 20), Some(20), Some(2), 2,
             map[0 := Context(NoOwner, 0), 1 := Context(OwnerKind.Fall, 0), 2 := Context(OwnerKind.Ind, 0),
                 3 := Context(OwnerKind.Ind, 20)],
             map[0 := 0, 1 := 1, 2 := 2, 3 := 2], map[2 := 20], map[], map[])

  lemma Branch4(pending: seq<nat>, code: seq<Uop>, b: Branches, b0: Branches, b1: Branches, b2: Branches, b3: Branches)
    requires Nine(code) && |pending| == 4 && forall i :: 0 <= i < 4 ==> pending[i] < 9
    requires b0 == Recorded(pending[0], ROLES[pending[0]], None, b)
      && b1 == Recorded(pending[1], ROLES[pending[1]], None, b0)
    requires b2 == Recorded(pending[2], ROLES[pending[2]], None, b1)
      && b3 == Recorded(pending[3], ROLES[pending[3]], None, b2)
    ensures RecordedAll(pending, ROLES, code, b) == b3
  {
    var tail := pending[1..];
    assert tail[0] == pending[1] && tail[1..] == pending[2..] && pending[2..][0] == pending[2];
    assert pending[2..][1..] == [pending[3]] && [pending[3]][1..] == [];
    assert RecordedAll([pending[3]], ROLES, code, b2) == b3;
    assert RecordedAll(pending[2..], ROLES, code, b1) == b3;
    assert RecordedAll(tail, ROLES, code, b0) == b3;
  }

  const AFTER_1: Branches :=
    Branches(Context(OwnerKind.Ind, 0), None, None, 2, map[0 := Context(NoOwner, 0), 1 := Context(OwnerKind.Fall, 0)],
             map[0 := 0, 1 := 1], map[], map[], map[])

  lemma BranchesTo1(b0: Branches)
    requires b0 == Recorded(0, ROLES[0], None, NO_BRANCHES)
    ensures Recorded(1, ROLES[1], None, b0) == AFTER_1
  {
  }

  lemma BranchesTo3(b2: Branches)
    requires b2 == Recorded(2, ROLES[2], None, AFTER_1)
    ensures Recorded(3, ROLES[3], None, b2) == AFTER_10
  {
  }

  lemma BranchesIn10(pending: seq<nat>, code: seq<Uop>)
    requires Nine(code) && pending == [0, 1, 2, 3]
    ensures RecordedAll(pending, ROLES, code, NO_BRANCHES) == AFTER_10
  {
    var b0 := Recorded(pending[0], ROLES[pending[0]], None, NO_BRANCHES);
    var b2 := Recorded(pending[2], ROLES[pending[2]], None, AFTER_1);
    BranchesTo1(b0);
    BranchesTo3(b2);
    Branch4(pending, code, NO_BRANCHES, b0, AFTER_1, b2, AFTER_10);
  }

  lemma BranchesIn11(pending: seq<nat>, code: seq<Uop>) returns (c: Branches)
    requires Nine(code) && pending == [4, 5, 6, 7]
    ensures c == RecordedAll(pending, ROLES, code, AFTER_10) && 4 in c.contexts
      && c.contexts[4] == Context(OwnerKind.Ind, 20)
  {
    var b0 := Recorded(4, ROLES[4], None, AFTER_10);
    var b1 := Recorded(5, ROLES[5], None, b0);
    var b2 := Recorded(6, ROLES[6], None, b1);
    c := Recorded(7, ROLES[7], None, b2);
    Branch4(pending, code, AFTER_10, b0, b1, b2, c);
  }

  lemma {:induction false} RestartAtFour(from: nat, code: seq<Uop>)
    requires Nine(code) && 2 <= from <= 4
    ensures LegalRestart(from, 20, code) == Some(4)
    decreases 4 - from
  {
    if from < 4 { RestartAtFour(from + 1, code); }
  }

  lemma GivenIn11(k: nat, input: Input, code: seq<Uop>, s: State, b: Branches, from: nat)
    requires Nine(code) && s == State11() && k == 11 && input == InputAt(k) && b == AFTER_10 && from == 0
    ensures Given(k, input, code, s, b)
  {
    assert TagAll(k, code, s.ex, s.dyn) == DYN_11;
    assert ResolveCycle(code[from], DynAt(DYN_11, from)) == Some(k);
    assert ResolvedBoundary(k, code, DYN_11, from) == Some(0);
  }

  lemma NoFaultIn11(code: seq<Uop>, b: Branches)
    requires Nine(code) && b == AFTER_10
    ensures !Faults(0, ROLES[0], code, b) && !Faults(1, ROLES[1], code, b)
  {
    RestartAtFour(2, code);
  }

  lemma GivenIn12(k: nat, input: Input, code: seq<Uop>, s: State, c: Branches)
    requires Nine(code) && s == State12() && k == 12 && input == InputAt(k)
    requires 4 in c.contexts && c.contexts[4] == Context(OwnerKind.Ind, 20)
    ensures Given(k, input, code, s, c) && !Faults(4, ROLES[4], code, c)
  {
    assert TagAll(k, code, s.ex, s.dyn) == RESOLVED;
    ResolvesAt(k, code, RESOLVED, 0);
  }

  lemma IsDerived(run: seq<State>, inputs: nat -> Input, code: seq<Uop>)
    requires Nine(code) && (forall i: nat :: inputs(i) == InputAt(i)) && Began(run)
    ensures Derived(run, inputs, code)
  {
    FrontsOf(run[10].fe.front, run[11].fe.front);
    BranchesIn10(run[10].fe.front[10], code);
    var c := BranchesIn11(run[11].fe.front[10], code);
    GivenIn11(11, inputs(11), code, run[11], AFTER_10, 0);
    NoFaultIn11(code, AFTER_10);
    GivenIn12(12, inputs(12), code, run[12], c);
  }

  lemma FrontsOf(a: Front, b: Front)
    requires a == Packets(10) && b == Packets(11)
    ensures a[10] == [0, 1, 2, 3] && b[10] == [4, 5, 6, 7]
  {
  }

  // -- The result ---------------------------------------------------------------------------------

  lemma AtStations(run: seq<State>)
    requires Stations(run)
    ensures 7 in run[13].q.iqTags && run[13].q.iqTags[7] == Tag(4)
    ensures 7 !in run[24].q.iqTags && 8 in run[24].q.iqTags && run[24].dyn[8].srcQtags.fst == Some(Tag(4))
    ensures 7 in run[25].q.iqTags && run[25].q.iqTags[7] == Tag(2)
  {
  }

  /** After the update of cycle `k` only uop 8 waits, for its first source, whose data is visible. */
  ghost predicate Loses(k: nat, input: Input, code: seq<Uop>, s: State) {
    var u := FrontHalf(k, input, code, s);
    && DataReady(8, 0, k, u.q.ready, code, u.dyn)
    && u.q.iq == [IqEntry(8, AluIq0, false, Two(SrcState(true, false, false, true), IDLE))]
  }

  /** Uop 7 before the flush, uop 8 past uop 7, uop 7 again, and the loss. */
  ghost predicate Shows(run: seq<State>, inputs: nat -> Input, code: seq<Uop>) {
    && |run| == 32 && IsRun(run, OPTS, inputs, code) && Derived(run, inputs, code)
    && 7 in run[13].q.iqTags && run[13].q.iqTags[7] == Tag(4)
    && 7 !in run[24].q.iqTags && 8 in run[24].q.iqTags && DynAt(run[24].dyn, 8).srcQtags.fst == Some(Tag(4))
    && 7 in run[25].q.iqTags && run[25].q.iqTags[7] == Tag(2)
    && Loses(31, inputs(31), code, run[31])
  }

  lemma LosesAt(k: nat, run: seq<State>, inputs: nat -> Input, code: seq<Uop>)
    requires Reaches(run, inputs, code, k, State31()) && k == 31
    ensures Loses(k, inputs(k), code, run[k])
  {
    LostIn31(code, run[k], k, FrontHalf(k, InputAt(k), code, run[k]));
  }

  lemma Shown(inputs: nat -> Input, code: seq<Uop>) returns (run: seq<State>)
    requires Nine(code) && (forall i: nat :: inputs(i) == InputAt(i))
    ensures Shows(run, inputs, code)
  {
    run := ToLoss(inputs, code);
    LosesAt(31, run, inputs, code);
    IsDerived(run, inputs, code);
    AtStations(run);
  }

  lemma NineIsPlain(code: seq<Uop>)
    requires code == NINE
    ensures Nine(code)
  {
  }

  /** A lost wake-up on a run from reset, over a list the builder makes and with the redirect the branch
      logic gives. Before cycle 13 uop 7 holds entry 4 of its queue; the flush of cycle 13 takes it out.
      In cycle 23 uop 8 is dispatched while uop 7 is held back for want of a port, and captures the tag
      that uop 7 held before the flush. In cycle 24 uop 7 is given entry 2. In cycle 31 its data is
      visible, and the update leaves uop 8 waiting. */
  lemma StaleCaptureIsLost() returns (code: seq<Uop>, inputs: nat -> Input, run: seq<State>)
    ensures AllRight(Commits(code), DECODED, code) && WellFormedCode(code)
    ensures |code| == 9 && code[8].src.fst == Source(true, Some(7), Some(T), Some(TAG)) && code[7].dstTag == Some(TAG)
    ensures Shows(run, inputs, code)
  {
    code := NINE;
    inputs := (i: nat) => InputAt(i);
    NineIsPlain(code);
    NineIsBuilt(Commits(code), DECODED, code);
    run := Shown(inputs, code);
  }
}
