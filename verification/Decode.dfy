/** The dependence builder: from the functional commit stream to the uop list, with register
    producers, logical T/U queue tags and load/store ids. */
module Decode {
  import opened Wrappers
  import opened Seqs
  import opened Model
  import opened LoadGen
  import opened WellFormed

  const REG_T1: nat := 24
  const REG_U1: nat := 28
  const REGISTERS: nat := 32

  /** What the decoder says about one instruction: its class, the kind of boundary it is, and the
      queue operands its assembly text names. */
  datatype Decoded = Decoded(
    group: UopGroup, bstart: bool, bstop: bool, macro: bool, bypass: bool,
    readsT: bool, relT: Option<nat>, readsU: bool, relU: Option<nat>, writesT: bool, writesU: bool)

  function SrcValid(c: CommitRecord, idx: nat): bool { if idx == 0 then c.src0Valid else c.src1Valid }

  function SrcReg(c: CommitRecord, idx: nat): nat { if idx == 0 then c.src0Reg else c.src1Reg }

  function QueueSrcKind(c: CommitRecord, d: Decoded, idx: nat): Option<QueueKind> {
    if !SrcValid(c, idx) then None
    else if SrcReg(c, idx) == REG_T1 && d.readsT then Some(T)
    else if SrcReg(c, idx) == REG_U1 && d.readsU then Some(U)
    else None
  }

  function QueueSrcRel(c: CommitRecord, d: Decoded, idx: nat): Option<nat> {
    match QueueSrcKind(c, d, idx)
    case None => None
    case Some(T) => d.relT
    case Some(U) => d.relU
  }

  function QueueDstKind(c: CommitRecord, d: Decoded): Option<QueueKind> {
    if !c.wbValid then None
    else if c.wbRd == REG_T1 && d.writesT then Some(T)
    else if c.wbRd == REG_U1 && d.writesU then Some(U)
    else None
  }

  predicate IsLoad(c: CommitRecord) { c.memValid && !c.memIsStore }

  predicate IsStore(c: CommitRecord) { c.memValid && c.memIsStore }

  predicate RedirectOwner(d: Decoded) { d.bstart || d.bstop || d.macro }

  function RedirectTargetOf(c: CommitRecord, d: Decoded): Option<nat> {
    if !c.trapValid && c.nextPc != SatAdd(c.pc, c.len) && RedirectOwner(d) then Some(c.nextPc) else None
  }

  /** Register numbers index a table of 32. */
  ghost predicate RegistersOk(commits: seq<CommitRecord>) {
    forall x :: 0 <= x < |commits| ==>
      && (commits[x].src0Valid ==> commits[x].src0Reg < REGISTERS)
      && (commits[x].src1Valid ==> commits[x].src1Reg < REGISTERS)
      && (commits[x].wbValid ==> commits[x].wbRd < REGISTERS)
  }

  // -- What the builder should find ---------------------------------------------------------------

  predicate Writes(commits: seq<CommitRecord>, y: nat, reg: nat) {
    y < |commits| && commits[y].wbValid && commits[y].wbRd != 0 && commits[y].wbRd == reg
  }

  /** `y` is the latest writer of `reg` before `x`. */
  ghost predicate IsLatestWriter(commits: seq<CommitRecord>, x: nat, reg: nat, y: nat) {
    y < x && Writes(commits, y, reg) && forall z :: y < z < x ==> !Writes(commits, z, reg)
  }

  predicate Pushes(commits: seq<CommitRecord>, decoded: seq<Decoded>, y: nat, kind: QueueKind) {
    y < |commits| && y < |decoded| && QueueDstKind(commits[y], decoded[y]) == Some(kind)
  }

  /** Pushes of `kind` among uops `from`, ..., `to - 1`. */
  function PushCount(commits: seq<CommitRecord>, decoded: seq<Decoded>, from: nat, to: nat, kind: QueueKind): nat
    decreases to
  {
    if to <= from then 0
    else PushCount(commits, decoded, from, to - 1, kind) + (if Pushes(commits, decoded, to - 1, kind) then 1 else 0)
  }

  /** `y` is the `k`-th most recent push of `kind` before `x`. */
  ghost predicate IsKthPush(commits: seq<CommitRecord>, decoded: seq<Decoded>, x: nat, kind: QueueKind, k: nat,
                            y: nat) {
    y < x && Pushes(commits, decoded, y, kind) && PushCount(commits, decoded, y, x, kind) == k
  }

  function TagOf(commits: seq<CommitRecord>, decoded: seq<Decoded>, y: nat, kind: QueueKind): LogicalTag {
    LogicalTag(kind, PushCount(commits, decoded, 0, y, kind))
  }

  /** A queue operand that some earlier push answers. */
  ghost predicate Resolves(commits: seq<CommitRecord>, decoded: seq<Decoded>, x: nat, idx: nat)
    requires x < |commits| && x < |decoded|
  {
    var kind, rel := QueueSrcKind(commits[x], decoded[x], idx), QueueSrcRel(commits[x], decoded[x], idx);
    kind.Some? && rel.Some? && 1 <= rel.value <= PushCount(commits, decoded, 0, x, kind.value)
  }

  /** A source as it should be: a resolved t#k or u#k depends on the k-th most recent push through
      that push's own tag; any other source on the latest earlier writer of its register. */
  ghost predicate SourceRight(commits: seq<CommitRecord>, decoded: seq<Decoded>, x: nat, idx: nat, s: Source)
    requires x < |commits| && x < |decoded|
  {
    var c := commits[x];
    var kind := QueueSrcKind(c, decoded[x], idx);
    && s.valid == SrcValid(c, idx) && s.queueKind == kind
    && (if Resolves(commits, decoded, x, idx) then
          && s.dep.Some?
          && IsKthPush(commits, decoded, x, kind.value, QueueSrcRel(c, decoded[x], idx).value, s.dep.value)
          && s.logicalTag == Some(TagOf(commits, decoded, s.dep.value, kind.value))
        else
          && s.logicalTag.None?
          && (s.dep.Some? ==> s.valid && IsLatestWriter(commits, x, SrcReg(c, idx), s.dep.value))
          && (s.dep.None? ==>
                !s.valid || SrcReg(c, idx) == 0 || forall y :: 0 <= y < x ==> !Writes(commits, y, SrcReg(c, idx))))
  }

  function MemBefore(commits: seq<CommitRecord>, x: nat): nat
    requires x <= |commits|
  {
    if x == 0 then 0 else MemBefore(commits, x - 1) + (if commits[x - 1].memValid then 1 else 0)
  }

  function LoadsBefore(commits: seq<CommitRecord>, x: nat): nat
    requires x <= |commits|
  {
    if x == 0 then 0 else LoadsBefore(commits, x - 1) + (if IsLoad(commits[x - 1]) then 1 else 0)
  }

  /** The whole uop as it should be. */
  ghost predicate UopRight(commits: seq<CommitRecord>, decoded: seq<Decoded>, x: nat, u: Uop)
    requires x < |commits| && x < |decoded|
  {
    var c, d := commits[x], decoded[x];
    && u.commit == c && u.group == d.group && u.boundary == RedirectOwner(d)
    && u.startMarker == (d.bstart || d.macro) && u.bypass == d.bypass
    && SourceRight(commits, decoded, x, 0, u.src.fst) && SourceRight(commits, decoded, x, 1, u.src.snd)
    && u.dstKind == QueueDstKind(c, d)
    && u.dstTag == (if u.dstKind.Some? then Some(TagOf(commits, decoded, x, u.dstKind.value)) else None)
    && u.isLoad == IsLoad(c) && u.isStore == IsStore(c)
    && u.loadOrdinal == (if IsLoad(c) then Some(LoadsBefore(commits, x)) else None)
    && u.lsid == (if c.memValid then Some(MemBefore(commits, x)) else None)
    && u.redirectTarget == RedirectTargetOf(c, d)
  }

  // -- Push histories -----------------------------------------------------------------------------

  /** The history of one queue before `x`: the pushes in order, each with its own tag. */
  ghost predicate HistoryOk(commits: seq<CommitRecord>, decoded: seq<Decoded>, x: nat, kind: QueueKind,
                            h: seq<(nat, LogicalTag)>) {
    && |h| == PushCount(commits, decoded, 0, x, kind)
    && forall i :: 0 <= i < |h| ==>
         && h[i].0 < x && Pushes(commits, decoded, h[i].0, kind)
         && PushCount(commits, decoded, 0, h[i].0, kind) == i && h[i].1 == LogicalTag(kind, i)
  }

  lemma {:induction false} PushCountSplit(commits: seq<CommitRecord>, decoded: seq<Decoded>, a: nat, b: nat, c: nat,
                                          kind: QueueKind)
    requires a <= b <= c
    ensures PushCount(commits, decoded, a, c, kind)
        == PushCount(commits, decoded, a, b, kind) + PushCount(commits, decoded, b, c, kind)
    decreases c
  {
    if b < c { PushCountSplit(commits, decoded, a, b, c - 1, kind); }
  }

  /** Indexing the history from its end finds the k-th most recent push. */
  lemma HistoryFromEnd(commits: seq<CommitRecord>, decoded: seq<Decoded>, x: nat, kind: QueueKind,
                       h: seq<(nat, LogicalTag)>, k: nat)
    requires HistoryOk(commits, decoded, x, kind, h) && 1 <= k <= |h|
    ensures var e := h[|h| - k];
      IsKthPush(commits, decoded, x, kind, k, e.0) && e.1 == TagOf(commits, decoded, e.0, kind)
  {
    var e := h[|h| - k];
    PushCountSplit(commits, decoded, 0, e.0, x, kind);
  }

  /** Two pushes with the same tag are the same push. */
  lemma {:induction false} TagDeterminesPush(commits: seq<CommitRecord>, decoded: seq<Decoded>, x: nat, y: nat,
                                             kind: QueueKind)
    requires Pushes(commits, decoded, x, kind) && Pushes(commits, decoded, y, kind)
    requires PushCount(commits, decoded, 0, x, kind) == PushCount(commits, decoded, 0, y, kind)
    ensures x == y
  {
    if x < y {
      PushCountSplit(commits, decoded, 0, x + 1, y, kind);
    } else if y < x {
      PushCountSplit(commits, decoded, 0, y + 1, x, kind);
    }
  }

  // -- The builder --------------------------------------------------------------------------------

  /** `resolve_logical_queue_src`: the entry `rel` places from the end. */
  function ResolveQueueSrc(rel: nat, history: seq<(nat, LogicalTag)>): Option<(nat, LogicalTag)> {
    if 1 <= rel <= |history| then Some(history[|history| - rel]) else None
  }

  /** `logical_tag_producer`: the first history entry with this tag. */
  function TagProducer(tag: LogicalTag, history: seq<(nat, LogicalTag)>): Option<nat> {
    var i := Position(history, (e: (nat, LogicalTag)) => e.1 == tag);
    if i.None? then None else Some(history[i.value].0)
  }

  /** Looking the resolved tag up again gives the resolved entry. */
  lemma ProducerOfResolved(commits: seq<CommitRecord>, decoded: seq<Decoded>, x: nat, kind: QueueKind,
                           h: seq<(nat, LogicalTag)>, rel: nat)
    requires HistoryOk(commits, decoded, x, kind, h) && 1 <= rel <= |h|
    ensures TagProducer(h[|h| - rel].1, h) == Some(h[|h| - rel].0)
  {
    var i := Position(h, (e: (nat, LogicalTag)) => e.1 == h[|h| - rel].1);
    assert h[|h| - rel].1 == LogicalTag(kind, |h| - rel);
    assert h[i.value].1 == LogicalTag(kind, i.value);
  }

  ghost predicate WritersOk(commits: seq<CommitRecord>, x: nat, lastWriter: seq<Option<nat>>) {
    && |lastWriter| == REGISTERS
    && forall r :: 0 <= r < REGISTERS ==>
         if lastWriter[r].Some? then IsLatestWriter(commits, x, r, lastWriter[r].value)
         else forall y :: 0 <= y < x ==> !Writes(commits, y, r)
  }

  /** The producer through the queue history, if the operand resolves. */
  method QueueProducer(commits: seq<CommitRecord>, decoded: seq<Decoded>, x: nat, kind: QueueKind, rel: nat,
                       history: seq<(nat, LogicalTag)>)
    returns (dep: Option<nat>, tag: Option<LogicalTag>)
    requires HistoryOk(commits, decoded, x, kind, history)
    ensures dep.Some? == tag.Some? == (1 <= rel <= PushCount(commits, decoded, 0, x, kind))
    ensures dep.Some? ==>
      IsKthPush(commits, decoded, x, kind, rel, dep.value) && tag == Some(TagOf(commits, decoded, dep.value, kind))
  {
    var found := ResolveQueueSrc(rel, history);
    if found.None? { return None, None; }
    HistoryFromEnd(commits, decoded, x, kind, history, rel);
    ProducerOfResolved(commits, decoded, x, kind, history, rel);
    return TagProducer(found.value.1, history), Some(found.value.1);
  }

  method RegisterProducer(commits: seq<CommitRecord>, x: nat, valid: bool, reg: nat,
                          lastWriter: array<Option<nat>>) returns (dep: Option<nat>)
    requires WritersOk(commits, x, lastWriter[..]) && (valid ==> reg < REGISTERS)
    ensures dep.Some? ==> valid && IsLatestWriter(commits, x, reg, dep.value)
    ensures dep.None? ==> !valid || reg == 0 || forall y :: 0 <= y < x ==> !Writes(commits, y, reg)
  {
    if !valid || reg == 0 { return None; }
    dep := lastWriter[..][reg];
  }

  method BuildSource(commits: seq<CommitRecord>, decoded: seq<Decoded>, x: nat, idx: nat,
                     lastWriter: array<Option<nat>>,
                     tHistory: seq<(nat, LogicalTag)>, uHistory: seq<(nat, LogicalTag)>) returns (s: Source)
    requires x < |commits| && x < |decoded| && idx < 2 && RegistersOk(commits) && WritersOk(commits, x, lastWriter[..])
    requires HistoryOk(commits, decoded, x, T, tHistory) && HistoryOk(commits, decoded, x, U, uHistory)
    ensures SourceRight(commits, decoded, x, idx, s)
  {
    var c := commits[x];
    var kind, rel := QueueSrcKind(c, decoded[x], idx), QueueSrcRel(c, decoded[x], idx);
    if kind.Some? && rel.Some? {
      var dep, tag := QueueProducer(commits, decoded, x, kind.value, rel.value,
          if kind.value == T then tHistory else uHistory);
      if dep.Some? { return Source(SrcValid(c, idx), dep, kind, tag); }
    }
    var dep := RegisterProducer(commits, x, SrcValid(c, idx), SrcReg(c, idx), lastWriter);
    s := Source(SrcValid(c, idx), dep, kind, None);
  }

  lemma PushHistory(commits: seq<CommitRecord>, decoded: seq<Decoded>, x: nat, kind: QueueKind,
                    h: seq<(nat, LogicalTag)>)
    requires HistoryOk(commits, decoded, x, kind, h)
    ensures HistoryOk(commits, decoded, x + 1, kind,
        if Pushes(commits, decoded, x, kind) then h + [(x, LogicalTag(kind, |h|))] else h)
  {
  }

  lemma WriteOne(commits: seq<CommitRecord>, x: nat, before: seq<Option<nat>>)
    requires WritersOk(commits, x, before) && x < |commits| && RegistersOk(commits)
    ensures WritersOk(commits, x + 1,
        if commits[x].wbValid && commits[x].wbRd != 0 then before[commits[x].wbRd := Some(x)] else before)
  {
    var after := if commits[x].wbValid && commits[x].wbRd != 0 then before[commits[x].wbRd := Some(x)] else before;
    forall r | 0 <= r < REGISTERS
      ensures if after[r].Some? then IsLatestWriter(commits, x + 1, r, after[r].value) else forall y ::
        0 <= y < x + 1 ==> !Writes(commits, y, r)
    {
      assert if before[r].Some? then IsLatestWriter(commits, x, r, before[r].value) else forall y :: 0 <= y < x ==>
        !Writes(commits, y, r);
    }
  }

  method BuildOne(commits: seq<CommitRecord>, decoded: seq<Decoded>, x: nat, lastWriter: array<Option<nat>>,
                  tHistory: seq<(nat, LogicalTag)>, uHistory: seq<(nat, LogicalTag)>, loads: nat,
                      mems: nat) returns (u: Uop)
    requires x < |commits| && x < |decoded| && RegistersOk(commits) && WritersOk(commits, x, lastWriter[..])
    requires HistoryOk(commits, decoded, x, T, tHistory) && HistoryOk(commits, decoded, x, U, uHistory)
    requires loads == LoadsBefore(commits, x) && mems == MemBefore(commits, x)
    ensures UopRight(commits, decoded, x, u)
  {
    var c, d := commits[x], decoded[x];
    var src0 := BuildSource(commits, decoded, x, 0, lastWriter, tHistory, uHistory);
    var src1 := BuildSource(commits, decoded, x, 1, lastWriter, tHistory, uHistory);
    var dst := QueueDstKind(c, d);
    var tag := if dst.None? then None
        else Some(LogicalTag(dst.value, if dst.value == T then |tHistory| else |uHistory|));
    u := Uop(c, d.group, RedirectOwner(d), d.bstart || d.macro, Two(src0, src1), dst, tag, d.bypass, IsLoad(c),
        IsStore(c),
             if IsLoad(c) then Some(loads) else None, if c.memValid then Some(mems) else None, RedirectTargetOf(c, d));
  }

  method RecordWriter(commits: seq<CommitRecord>, x: nat, lastWriter: array<Option<nat>>)
    requires x < |commits| && RegistersOk(commits) && WritersOk(commits, x, lastWriter[..])
    modifies lastWriter
    ensures WritersOk(commits, x + 1, lastWriter[..])
  {
    var before := lastWriter[..];
    WriteOne(commits, x, before);
    if commits[x].wbValid && commits[x].wbRd != 0 {
      lastWriter[commits[x].wbRd] := Some(x);
      assert lastWriter[..] == before[commits[x].wbRd := Some(x)];
    }
  }

  method RecordPush(commits: seq<CommitRecord>, decoded: seq<Decoded>, x: nat, kind: QueueKind,
                    h: seq<(nat, LogicalTag)>) returns (r: seq<(nat, LogicalTag)>)
    requires x < |commits| && x < |decoded| && HistoryOk(commits, decoded, x, kind, h)
    ensures HistoryOk(commits, decoded, x + 1, kind, r)
  {
    PushHistory(commits, decoded, x, kind, h);
    r := if QueueDstKind(commits[x], decoded[x]) == Some(kind) then h + [(x, LogicalTag(kind, |h|))] else h;
  }

  /** `build_uops`. The list ends with the shorter of the two input lists. */
  method BuildUops(commits: seq<CommitRecord>, decoded: seq<Decoded>) returns (uops: seq<Uop>)
    requires RegistersOk(commits)
    ensures |uops| == if |decoded| < |commits| then |decoded| else |commits|
    ensures forall x :: 0 <= x < |uops| ==> UopRight(commits, decoded, x, uops[x])
  {
    uops := [];
    var lastWriter := new Option<nat>[REGISTERS](_ => None);
    var tHistory: seq<(nat, LogicalTag)>, uHistory: seq<(nat, LogicalTag)> := [], [];
    var loads, mems, x := 0, 0, 0;
    while x < |commits| && x < |decoded|
      invariant x <= |commits| && x <= |decoded| && |uops| == x
      invariant WritersOk(commits, x, lastWriter[..])
      invariant HistoryOk(commits, decoded, x, T, tHistory) && HistoryOk(commits, decoded, x, U, uHistory)
      invariant loads == LoadsBefore(commits, x) && mems == MemBefore(commits, x)
      invariant forall y :: 0 <= y < x ==> UopRight(commits, decoded, y, uops[y])
    {
      var u := BuildOne(commits, decoded, x, lastWriter, tHistory, uHistory, loads, mems);
      uops := uops + [u];
      RecordWriter(commits, x, lastWriter);
      tHistory := RecordPush(commits, decoded, x, T, tHistory);
      uHistory := RecordPush(commits, decoded, x, U, uHistory);
      if IsLoad(commits[x]) { loads := loads + 1; }
      if commits[x].memValid { mems := mems + 1; }
      x := x + 1;
    }
  }

  // -- What the pipeline needs of the list --------------------------------------------------------

  ghost predicate AllRight(commits: seq<CommitRecord>, decoded: seq<Decoded>, uops: seq<Uop>) {
    && |uops| <= |commits| && |uops| <= |decoded|
    && forall x :: 0 <= x < |uops| ==> UopRight(commits, decoded, x, uops[x])
  }

  /** Producers are unique: at most one uop answers a register or a queue operand. */
  lemma SourceUnique(commits: seq<CommitRecord>, decoded: seq<Decoded>, x: nat, idx: nat, a: Source, b: Source)
    requires x < |commits| && x < |decoded| && idx < 2 && SourceRight(commits, decoded, x, idx, a)
      && SourceRight(commits, decoded, x, idx, b)
    ensures a == b
  {
    if Resolves(commits, decoded, x, idx) {
      var kind := QueueSrcKind(commits[x], decoded[x], idx).value;
      PushCountSplit(commits, decoded, 0, a.dep.value, x, kind);
      PushCountSplit(commits, decoded, 0, b.dep.value, x, kind);
      TagDeterminesPush(commits, decoded, a.dep.value, b.dep.value, kind);
    } else {
      RegisterUnique(commits, x, SrcReg(commits[x], idx), a.dep, b.dep, a.valid);
    }
  }

  lemma RegisterUnique(commits: seq<CommitRecord>, x: nat, reg: nat, a: Option<nat>, b: Option<nat>, valid: bool)
    requires a.Some? ==> valid && IsLatestWriter(commits, x, reg, a.value)
    requires b.Some? ==> valid && IsLatestWriter(commits, x, reg, b.value)
    requires a.None? ==> !valid || reg == 0 || forall y :: 0 <= y < x ==> !Writes(commits, y, reg)
    requires b.None? ==> !valid || reg == 0 || forall y :: 0 <= y < x ==> !Writes(commits, y, reg)
    ensures a == b
  {
    if a.Some? { assert Writes(commits, a.value, reg); }
    if b.Some? { assert Writes(commits, b.value, reg); }
  }

  lemma {:induction false} MemCountIsBefore(commits: seq<CommitRecord>, decoded: seq<Decoded>, uops: seq<Uop>, x: nat)
    requires AllRight(commits, decoded, uops) && x <= |uops|
    ensures MemCount(uops, x) == MemBefore(commits, x)
  {
    if x > 0 {
      MemCountIsBefore(commits, decoded, uops, x - 1);
      assert UopRight(commits, decoded, x - 1, uops[x - 1]);
    }
  }

  lemma DepsBackward(commits: seq<CommitRecord>, decoded: seq<Decoded>, uops: seq<Uop>)
    requires AllRight(commits, decoded, uops)
    ensures BackwardDeps(uops)
  {
    forall x, i | 0 <= x < |uops| && 0 <= i < 2 && uops[x].src.At(i).dep.Some? ensures uops[x].src.At(i).dep.value < x {
      assert UopRight(commits, decoded, x, uops[x]);
    }
  }

  lemma TagsResolved(commits: seq<CommitRecord>, decoded: seq<Decoded>, uops: seq<Uop>)
    requires AllRight(commits, decoded, uops)
    ensures TagsResolve(uops)
  {
    forall x, i | 0 <= x < |uops| && 0 <= i < 2 && UopAt(uops, x).src.At(i).logicalTag.Some?
      ensures UopAt(uops, x).src.At(i).dep.Some?
           && UopAt(uops, UopAt(uops, x).src.At(i).dep.value).dstTag == UopAt(uops, x).src.At(i).logicalTag
    {
      assert UopRight(commits, decoded, x, uops[x]) && SourceRight(commits, decoded, x, i, uops[x].src.At(i));
      var y := uops[x].src.At(i).dep.value;
      assert UopRight(commits, decoded, y, uops[y]);
    }
  }

  lemma TagsAreUnique(commits: seq<CommitRecord>, decoded: seq<Decoded>, uops: seq<Uop>)
    requires AllRight(commits, decoded, uops)
    ensures TagsUnique(uops)
  {
    forall x, y | 0 <= x < |uops| && 0 <= y < |uops| && uops[x].dstTag.Some?
      && uops[x].dstTag == uops[y].dstTag ensures x == y {
      assert UopRight(commits, decoded, x, uops[x]) && UopRight(commits, decoded, y, uops[y]);
      TagDeterminesPush(commits, decoded, x, y, uops[x].dstTag.value.kind);
    }
  }

  /** Every list the builder makes has what the pipeline theorems assume, provided the decoder lets
      no memory instruction bypass the issue queues. */
  lemma BuiltIsWellFormed(commits: seq<CommitRecord>, decoded: seq<Decoded>, uops: seq<Uop>)
    requires AllRight(commits, decoded, uops)
    requires forall x :: 0 <= x < |uops| && decoded[x].bypass ==> !commits[x].memValid
    ensures WellFormedCode(uops)
  {
    DepsBackward(commits, decoded, uops);
    TagsResolved(commits, decoded, uops);
    TagsAreUnique(commits, decoded, uops);
    forall x | 0 <= x < |uops|
      ensures !(uops[x].isLoad && uops[x].isStore)
      ensures uops[x].lsid == if uops[x].isLoad || uops[x].isStore then Some(MemCount(uops, x)) else None
      ensures uops[x].bypass ==> !uops[x].isLoad && !uops[x].isStore
      ensures uops[x].redirectTarget.Some? ==> uops[x].boundary
    {
      assert UopRight(commits, decoded, x, uops[x]);
      MemCountIsBefore(commits, decoded, uops, x);
    }
  }
}
