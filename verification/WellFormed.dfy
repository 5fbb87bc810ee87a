/** What the dependence builder guarantees about every uop list. */
module WellFormed {
  import opened Wrappers
  import opened Model
  import opened LoadGen

  /** Memory uops among the first `n`: the load/store id of the next one. */
  function MemCount(code: seq<Uop>, n: nat): nat
    requires n <= |code|
  {
    if n == 0 then 0 else MemCount(code, n - 1) + (if code[n - 1].isLoad || code[n - 1].isStore then 1 else 0)
  }

  /** A resolved queue source depends on the one uop that pushes its logical tag. */
  ghost predicate TagsResolve(code: seq<Uop>) {
    forall x, i {:trigger UopAt(code, x).src.At(i)} ::
      0 <= x < |code| && 0 <= i < 2 && UopAt(code, x).src.At(i).logicalTag.Some? ==>
        && UopAt(code, x).src.At(i).dep.Some?
        && UopAt(code, UopAt(code, x).src.At(i).dep.value).dstTag == UopAt(code, x).src.At(i).logicalTag
  }

  ghost predicate TagsUnique(code: seq<Uop>) {
    forall x, y :: 0 <= x < |code| && 0 <= y < |code| && code[x].dstTag.Some? && code[x].dstTag == code[y].dstTag ==>
      x == y
  }

  ghost predicate MemoryIds(code: seq<Uop>) {
    forall x :: 0 <= x < |code| ==>
      && !(code[x].isLoad && code[x].isStore)
      && code[x].lsid == (if code[x].isLoad || code[x].isStore then Some(MemCount(code, x)) else None)
  }

  /** Uops that skip the issue queues do not access memory. */
  ghost predicate BypassNoMemory(code: seq<Uop>) {
    forall x :: 0 <= x < |code| && code[x].bypass ==> !code[x].isLoad && !code[x].isStore
  }

  ghost predicate RedirectsAreBoundaries(code: seq<Uop>) {
    forall x :: 0 <= x < |code| && code[x].redirectTarget.Some? ==> code[x].boundary
  }

  ghost predicate WellFormedCode(code: seq<Uop>) {
    BackwardDeps(code) && TagsResolve(code) && TagsUnique(code) && MemoryIds(code) && BypassNoMemory(code)
      && RedirectsAreBoundaries(code)
  }

  lemma DepEarlier(code: seq<Uop>, x: nat, i: nat)
    requires BackwardDeps(code) && i < 2
    ensures UopAt(code, x).src.At(i).dep.Some? ==> UopAt(code, x).src.At(i).dep.value < x
  {
    if x < |code| { assert code[x].src.At(i).dep.Some? ==> code[x].src.At(i).dep.value < x; }
  }
}
