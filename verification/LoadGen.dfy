/** Load-generation masks over the dependence closure, memoised as in the pick logic. */
module LoadGen {
  import opened Wrappers
  import opened Model

  /** The `LD_GEN_*` bits as a set of stages. */
  datatype LoadStage = GenE1 | GenE2 | GenE3 | GenE4

  predicate HasE4(m: set<LoadStage>) { GenE4 in m }

  function CurrentLoadStage(x: nat, cycle: nat, code: seq<Uop>, dyn: seq<Dyn>): set<LoadStage> {
    var d := DynAt(dyn, x);
    if !UopAt(code, x).isLoad then {}
    else if d.missPendingUntil.Some? then {GenE4}
    else if d.e4 == Some(cycle) then {GenE4}
    else if AtOrBefore(d.e1, cycle) then
      var age := cycle - d.e1.value;
      if age == 0 then {GenE1} else if age == 1 then {GenE2} else if age == 2 then {GenE3} else {}
    else {}
  }

  predicate BackwardDeps(code: seq<Uop>) {
    forall x, i {:trigger code[x].src.At(i)} :: 0 <= x < |code| && 0 <= i < 2 ==>
      code[x].src.At(i).dep.Some? ==> code[x].src.At(i).dep.value < x
  }

  /** `dep` if it really points backwards, which is all that `BackwardDeps` lists contain. */
  function Earlier(dep: Option<nat>, x: nat): (r: Option<nat>)
    ensures r.Some? ==> r.value < x
  {
    if dep.Some? && dep.value < x then dep else None
  }

  /** Union of the stage masks of `x` and of everything it depends on, directly or not. */
  function DepLoadGen(x: nat, cycle: nat, code: seq<Uop>, dyn: seq<Dyn>): set<LoadStage>
    decreases x
  {
    var a := Earlier(UopAt(code, x).src.fst.dep, x);
    var b := Earlier(UopAt(code, x).src.snd.dep, x);
    CurrentLoadStage(x, cycle, code, dyn)
    + (if a.Some? then DepLoadGen(a.value, cycle, code, dyn) else {})
    + (if b.Some? then DepLoadGen(b.value, cycle, code, dyn) else {})
  }

  // -- The closure it stands for ------------------------------------------------------------------

  predicate DependsOn(code: seq<Uop>, x: nat, y: nat) {
    UopAt(code, x).src.fst.dep == Some(y) || UopAt(code, x).src.snd.dep == Some(y)
  }

  /** A chain of direct dependences from `x` to `y`, possibly empty. */
  predicate IsChain(code: seq<Uop>, chain: seq<nat>, x: nat, y: nat) {
    && chain != [] && chain[0] == x && chain[|chain| - 1] == y
    && forall i :: 0 <= i < |chain| - 1 ==> DependsOn(code, chain[i], chain[i + 1])
  }

  ghost predicate Reaches(code: seq<Uop>, x: nat, y: nat) { exists chain :: IsChain(code, chain, x, y) }

  lemma DepBelow(code: seq<Uop>, x: nat, y: nat)
    requires BackwardDeps(code) && DependsOn(code, x, y)
    ensures y < x
      && (Earlier(UopAt(code, x).src.fst.dep, x) == Some(y) || Earlier(UopAt(code, x).src.snd.dep, x) == Some(y))
  {
    assert x < |code|;
    assert code[x].src.At(0).dep.Some? ==> code[x].src.At(0).dep.value < x;
    assert code[x].src.At(1).dep.Some? ==> code[x].src.At(1).dep.value < x;
  }

  lemma ReachesStep(code: seq<Uop>, x: nat, d: nat, y: nat)
    requires DependsOn(code, x, d) && Reaches(code, d, y)
    ensures Reaches(code, x, y)
  {
    var chain :| IsChain(code, chain, d, y);
    assert IsChain(code, [x] + chain, x, y);
  }

  lemma {:induction false} MaskHasSource(x: nat, cycle: nat, code: seq<Uop>, dyn: seq<Dyn>,
                                         g: LoadStage) returns (y: nat)
    requires g in DepLoadGen(x, cycle, code, dyn)
    ensures Reaches(code, x, y) && g in CurrentLoadStage(y, cycle, code, dyn)
    decreases x
  {
    var a := Earlier(UopAt(code, x).src.fst.dep, x);
    var b := Earlier(UopAt(code, x).src.snd.dep, x);
    if g in CurrentLoadStage(x, cycle, code, dyn) {
      assert IsChain(code, [x], x, x);
      y := x;
    } else if a.Some? && g in DepLoadGen(a.value, cycle, code, dyn) {
      y := MaskHasSource(a.value, cycle, code, dyn, g);
      ReachesStep(code, x, a.value, y);
    } else {
      y := MaskHasSource(b.value, cycle, code, dyn, g);
      ReachesStep(code, x, b.value, y);
    }
  }

  lemma {:induction false} ChainInMask(chain: seq<nat>, x: nat, y: nat, cycle: nat, code: seq<Uop>, dyn: seq<Dyn>)
    requires BackwardDeps(code) && IsChain(code, chain, x, y)
    ensures CurrentLoadStage(y, cycle, code, dyn) <= DepLoadGen(x, cycle, code, dyn)
    decreases |chain|
  {
    if |chain| > 1 {
      assert DependsOn(code, chain[0], chain[1]);
      DepBelow(code, x, chain[1]);
      forall i | 0 <= i < |chain[1..]| - 1 ensures DependsOn(code, chain[1..][i], chain[1..][i + 1]) {
        assert chain[1..][i] == chain[i + 1] && chain[1..][i + 1] == chain[i + 2];
      }
      ChainInMask(chain[1..], chain[1], y, cycle, code, dyn);
    }
  }

  /** The mask is the union of the load stages over the transitive dependence closure. */
  lemma MaskIsClosure(x: nat, cycle: nat, code: seq<Uop>, dyn: seq<Dyn>, g: LoadStage)
    requires BackwardDeps(code)
    ensures g in DepLoadGen(x, cycle, code, dyn) <==> exists y ::
      Reaches(code, x, y) && g in CurrentLoadStage(y, cycle, code, dyn)
  {
    if g in DepLoadGen(x, cycle, code, dyn) { var y := MaskHasSource(x, cycle, code, dyn, g); }
    if y :| Reaches(code, x, y) && g in CurrentLoadStage(y, cycle, code, dyn) {
      var chain :| IsChain(code, chain, x, y);
      ChainInMask(chain, x, y, cycle, code, dyn);
    }
  }

  // -- The memoised computation -------------------------------------------------------------------

  ghost predicate MemoOk(memo: seq<Option<set<LoadStage>>>, cycle: nat, code: seq<Uop>, dyn: seq<Dyn>) {
    |memo| == |code| && forall i :: 0 <= i < |memo| && memo[i].Some? ==>
      memo[i].value == DepLoadGen(i, cycle, code, dyn)
  }

  /** `dep_load_gen_vec_inner`: terminates because dependences point backwards, and fills the memo
      with final masks only. */
  method DepLoadGenInner(x: nat, cycle: nat, code: seq<Uop>, dyn: seq<Dyn>,
                         memo: array<Option<set<LoadStage>>>) returns (mask: set<LoadStage>)
    requires BackwardDeps(code) && x < |code| && MemoOk(memo[..], cycle, code, dyn)
    modifies memo
    ensures mask == DepLoadGen(x, cycle, code, dyn) && MemoOk(memo[..], cycle, code, dyn)
    decreases x
  {
    if memo[x].Some? {
      mask := memo[..][x].value;
      return;
    }
    mask := CurrentLoadStage(x, cycle, code, dyn);
    assert code[x].src.At(0).dep.Some? ==> code[x].src.At(0).dep.value < x;
    assert code[x].src.At(1).dep.Some? ==> code[x].src.At(1).dep.value < x;
    if code[x].src.fst.dep.Some? {
      var first := DepLoadGenInner(code[x].src.fst.dep.value, cycle, code, dyn, memo);
      mask := mask + first;
    }
    if code[x].src.snd.dep.Some? {
      var second := DepLoadGenInner(code[x].src.snd.dep.value, cycle, code, dyn, memo);
      mask := mask + second;
    }
    ghost var before := memo[..];
    memo[x] := Some(mask);
    assert memo[..] == before[x := Some(mask)];
  }

  method DepLoadGenVec(x: nat, cycle: nat, code: seq<Uop>, dyn: seq<Dyn>) returns (mask: set<LoadStage>)
    requires BackwardDeps(code) && x < |code|
    ensures mask == DepLoadGen(x, cycle, code, dyn)
    ensures forall g :: g in mask <==> exists y :: Reaches(code, x, y) && g in CurrentLoadStage(y, cycle, code, dyn)
  {
    var memo := new Option<set<LoadStage>>[|code|](_ => None);
    mask := DepLoadGenInner(x, cycle, code, dyn, memo);
    forall g ensures g in mask <==> exists y :: Reaches(code, x, y) && g in CurrentLoadStage(y, cycle, code, dyn) {
      MaskIsClosure(x, cycle, code, dyn, g);
    }
  }

  predicate MissPendingActive(code: seq<Uop>, dyn: seq<Dyn>) {
    exists x :: 0 <= x < |code| && code[x].isLoad && DynAt(dyn, x).missInjected && DynAt(dyn, x).done.None?
      && (DynAt(dyn, x).missPendingUntil.Some? || DynAt(dyn, x).e1.Some?
          || DynAt(dyn, x).e4.Some? || DynAt(dyn, x).w1.Some?)
  }
}
