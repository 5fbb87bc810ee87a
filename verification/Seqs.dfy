/** Sequence operations behind the `VecDeque` calls of the cycle model, and the facts about them
    that the invariants use. */
module Seqs {
  import opened Wrappers

  /** Number of occurrences of `x` in `q`. */
  function N(q: seq<nat>, x: nat): nat {
    if q == [] then 0 else (if q[0] == x then 1 else 0) + N(q[1..], x)
  }

  /** `VecDeque::retain`. */
  function Retain<T>(q: seq<T>, keep: T -> bool): (r: seq<T>)
    ensures |r| <= |q|
  {
    if q == [] then [] else (if keep(q[0]) then [q[0]] else []) + Retain(q[1..], keep)
  }

  /** `advance_simple`: fill `dst` from the front of `src` up to `capacity`. */
  function MoveCount(dst: seq<nat>, src: seq<nat>, capacity: nat): (n: nat)
    ensures n <= |src|
  {
    if |dst| >= capacity then 0 else if |src| <= capacity - |dst| then |src| else capacity - |dst|
  }

  /** Index of the first element satisfying `p`, as `Iterator::position`. */
  function Position<T>(q: seq<T>, p: T -> bool): (r: Option<nat>)
    ensures r.Some? ==> r.value < |q| && p(q[r.value])
    ensures r.Some? ==> forall i :: 0 <= i < r.value ==> !p(q[i])
    ensures r.None? ==> forall i :: 0 <= i < |q| ==> !p(q[i])
  {
    if q == [] then None
    else if p(q[0]) then Some(0)
    else
      var r := Position(q[1..], p);
      assert forall i :: 0 < i < |q| ==> q[i] == q[1..][i - 1];
      if r.None? then None else Some(r.value + 1)
  }

  function RemoveAt<T>(q: seq<T>, i: nat): seq<T>
    requires i < |q|
  {
    q[..i] + q[i + 1..]
  }

  /** The consecutive numbers `lo, lo + 1, ..., hi - 1`. */
  function Range(lo: nat, hi: nat): (r: seq<nat>)
    ensures |r| == if lo <= hi then hi - lo else 0
    ensures forall i :: 0 <= i < |r| ==> r[i] == lo + i
  {
    if lo <= hi then seq(hi - lo, i requires 0 <= i => lo + i) else []
  }

  lemma {:induction false} CountSplit(a: seq<nat>, b: seq<nat>, x: nat)
    ensures N(a + b, x) == N(a, x) + N(b, x)
  {
    if a == [] {
      assert a + b == b;
    } else {
      CountSplit(a[1..], b, x);
      assert (a + b)[1..] == a[1..] + b;
    }
  }

  lemma CountSnoc(q: seq<nat>, y: nat, x: nat)
    ensures N(q + [y], x) == N(q, x) + (if x == y then 1 else 0)
  {
    CountSplit(q, [y], x);
  }

  lemma {:induction false} CountMember(q: seq<nat>, x: nat)
    ensures N(q, x) > 0 <==> x in q
  {
    if q != [] { CountMember(q[1..], x); }
  }

  lemma CountMove(dst: seq<nat>, src: seq<nat>, n: nat, x: nat)
    requires n <= |src|
    ensures N(dst + src[..n], x) + N(src[n..], x) == N(dst, x) + N(src, x)
  {
    CountSplit(dst, src[..n], x);
    CountSplit(src[..n], src[n..], x);
    assert src == src[..n] + src[n..];
  }

  lemma CountRemoveAt(q: seq<nat>, i: nat, x: nat)
    requires i < |q|
    ensures N(RemoveAt(q, i), x) == N(q, x) - (if q[i] == x then 1 else 0)
  {
    CountSplit(q[..i], q[i + 1..], x);
    CountSplit(q[..i], q[i..], x);
    assert q == q[..i] + q[i..] && q[i..][1..] == q[i + 1..];
  }

  lemma {:induction false} CountRange(lo: nat, hi: nat, x: nat)
    ensures N(Range(lo, hi), x) == if lo <= x < hi then 1 else 0
    decreases hi - lo
  {
    if lo < hi {
      CountRange(lo + 1, hi, x);
      assert Range(lo, hi)[1..] == Range(lo + 1, hi);
    }
  }

  lemma {:induction false} RetainMember<T>(q: seq<T>, keep: T -> bool, e: T)
    ensures e in Retain(q, keep) <==> e in q && keep(e)
  {
    if q != [] {
      RetainMember(q[1..], keep, e);
      assert q == [q[0]] + q[1..];
    }
  }

  lemma {:induction false} RetainCount(q: seq<nat>, keep: nat -> bool, x: nat)
    ensures N(Retain(q, keep), x) == if keep(x) then N(q, x) else 0
  {
    if q != [] {
      RetainCount(q[1..], keep, x);
      CountSplit(if keep(q[0]) then [q[0]] else [], Retain(q[1..], keep), x);
    }
  }

  lemma {:induction false} RetainNone<T>(q: seq<T>, keep: T -> bool)
    requires forall i :: 0 <= i < |q| ==> !keep(q[i])
    ensures Retain(q, keep) == []
  {
    if q != [] { RetainNone(q[1..], keep); }
  }

  lemma {:induction false} RetainAll<T>(q: seq<T>, keep: T -> bool)
    requires forall e :: e in q ==> keep(e)
    ensures Retain(q, keep) == q
  {
    if q != [] {
      RetainAll(q[1..], keep);
    }
  }

  /** Smallest element of a nonempty set. */
  function SetMin(s: set<nat>): (m: nat)
    requires s != {}
    ensures m in s && forall y :: y in s ==> m <= y
  {
    SetMinExists(s);
    var m :| m in s && forall y :: y in s ==> m <= y;
    m
  }

  lemma SetMinExists(s: set<nat>)
    requires s != {}
    ensures exists m :: m in s && forall y :: y in s ==> m <= y
  {
    var x :| x in s;
    SetMinBelow(s, x);
  }

  lemma SetMinBelow(s: set<nat>, x: nat)
    requires x in s
    ensures exists m :: m in s && forall y :: y in s ==> m <= y
    decreases x
  {
    if y :| y in s && y < x { SetMinBelow(s, y); }
  }

  function Elements<T(==)>(q: seq<T>): set<T> {
    set e | e in q
  }
}
