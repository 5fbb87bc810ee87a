/** Where a resolved boundary sends fetch: the branch bookkeeping of dispatch and the target and fault
    it decides, for streams without BRU uops, which never publish a correction. */
module BranchTargets {
  import opened Wrappers
  import opened Model
  import opened Recovery

  datatype OwnerKind = NoOwner | Fall | Cond | Call | Ret | Direct | Ind | ICall {
    predicate Dynamic() { Ret? || Ind? || ICall? }
  }

  /** What an instruction is to the branch logic: a block start with its kind of exit, a block stop, a
      frame return, another macro boundary, SETC.TGT with its operand, or anything else. */
  datatype Role = Starts(kind: OwnerKind) | Stops | Returns | Frames | Sets(operand: Option<nat>) | Other {
    predicate Owns() { Starts? || Stops? || Returns? || Frames? }
    function Kind(): OwnerKind { if Returns? then OwnerKind.Ret else if Starts? then kind else NoOwner }
  }

  /** A branch context; target 0 means none. */
  datatype Context = Context(kind: OwnerKind, target: nat)

  /** The active context, dynamic target, its epoch and the epoch counter; then, per uop, the context and
      epoch at dispatch, the dynamic target, and the boundary target with the epoch that set it up. */
  datatype Branches = Branches(
    active: Context, dynamic: Option<nat>, setup: Option<nat>, epoch: nat,
    contexts: map<nat, Context>, epochs: map<nat, nat>, dynamicPcs: map<nat, nat>,
    boundaryPcs: map<nat, nat>, setupEpochs: map<nat, nat>)

  const NO_BRANCHES: Branches := Branches(Context(NoOwner, 0), None, None, 0, map[], map[], map[], map[], map[])

  function Lookup<V>(m: map<nat, V>, x: nat): Option<V> { if x in m then Some(m[x]) else None }

  function OrElse<V>(a: Option<V>, b: Option<V>): Option<V> { if a.Some? then a else b }

  function PutSome<V>(m: map<nat, V>, x: nat, v: Option<V>): map<nat, V> { if v.Some? then m[x := v.value] else m }

  function NonZero(pc: nat): Option<nat> { if pc == 0 then None else Some(pc) }

  /** `boundary_target_pc`. */
  function OwnTarget(x: nat, role: Role, redirect: Option<nat>, b: Branches): Option<nat> {
    if role.Kind().NoOwner? then None
    else if !role.Kind().Dynamic() then redirect
    else OrElse(Lookup(b.boundaryPcs, x), OrElse(Lookup(b.dynamicPcs, x), OrElse(b.dynamic, redirect)))
  }

  /** `boundary_context_from_uop`. */
  function OwnContext(x: nat, role: Role, redirect: Option<nat>, b: Branches): Context {
    var t := OwnTarget(x, role, redirect, b);
    Context(role.Kind(), if t.Some? then t.value else 0)
  }

  /** `update_dynamic_target_owner`: SETC.TGT sets the target up, a boundary with dynamic exit takes it. */
  function SetTargets(x: nat, role: Role, redirect: Option<nat>, b: Branches): Branches {
    var t :=
      if role.Sets? then role.operand else if role.Returns? then redirect
      else if role.Stops? then b.dynamic else None;
    var s := b.(dynamicPcs := PutSome(b.dynamicPcs, x, t));
    if role.Sets? then
      s.(dynamic := t, setup := if t.Some? then Some(b.epoch) else None,
         active := if s.active.kind.Dynamic() then s.active.(target := if t.Some? then t.value else 0) else s.active)
    else if role.Returns? then
      if t.None? then s
      else s.(boundaryPcs := s.boundaryPcs[x := t.value], setupEpochs := s.setupEpochs[x := b.epoch])
    else if (role.Stops? && s.active.kind.Dynamic()) || role.Kind().Dynamic() then
      if s.dynamic.None? || s.setup.None? then s
      else s.(boundaryPcs := s.boundaryPcs[x := s.dynamic.value], setupEpochs := s.setupEpochs[x := s.setup.value])
    else s
  }

  /** What dispatch records when it takes `x` from S2, whether or not `x` then finds a queue. */
  function Recorded(x: nat, role: Role, redirect: Option<nat>, b: Branches): Branches {
    var entered := b.(contexts := b.contexts[x := b.active], epochs := b.epochs[x := b.epoch]);
    var s := SetTargets(x, role, redirect, entered);
    if !role.Owns() then s
    else s.(epoch := s.epoch + 1, active := OwnContext(x, role, redirect, s), dynamic := None, setup := None)
  }

  function RoleAt(roles: seq<Role>, x: nat): Role { if x < |roles| then roles[x] else Other }

  function RecordedAll(pending: seq<nat>, roles: seq<Role>, code: seq<Uop>, b: Branches): Branches
  {
    if pending == [] then b
    else
      var x := pending[0];
      RecordedAll(pending[1..], roles, code, Recorded(x, RoleAt(roles, x), UopAt(code, x).redirectTarget, b))
  }

  /** `live_boundary_target_for_seq` of a boundary. */
  function LiveTarget(x: nat, role: Role, redirect: Option<nat>, b: Branches): Option<nat> {
    OrElse(NonZero(OwnContext(x, role, redirect, b).target),
           OrElse(if x in b.contexts then NonZero(b.contexts[x].target) else None, redirect))
  }

  /** `live_branch_kind_for_seq` of a boundary. */
  function LiveKind(x: nat, role: Role, b: Branches): OwnerKind {
    if !role.Kind().NoOwner? then role.Kind() else if x in b.contexts then b.contexts[x].kind else NoOwner
  }

  /** `dynamic_boundary_target_fault` of a boundary that resolves: the target is missing, was set up in
      another epoch, or no block starts there. */
  predicate Faults(x: nat, role: Role, code: seq<Uop>, b: Branches) {
    var t := LiveTarget(x, role, UopAt(code, x).redirectTarget, b);
    && LiveKind(x, role, b).Dynamic()
    && (|| t.None?
        || (x in b.setupEpochs && x in b.epochs && b.setupEpochs[x] != b.epochs[x])
        || LegalRestart(x + 1, t.value, code).None?)
  }

  /** The target that the branch logic gives the oldest boundary resolving in this cycle. */
  function Decides(cycle: nat, roles: seq<Role>, code: seq<Uop>, dyn: seq<Dyn>, b: Branches): Option<nat>
  {
    var x := ResolvedBoundary(cycle, code, dyn, 0);
    if x.None? then None else LiveTarget(x.value, RoleAt(roles, x.value), code[x.value].redirectTarget, b)
  }
}
