/** Little-endian words and the region-level facts about reads after writes. */
module Bytes {
  import opened Wrappers
  import opened GuestMemory

  function Pow256(n: nat): nat { if n == 0 then 1 else 256 * Pow256(n - 1) }

  function Le(v: nat, n: nat): (r: seq<Byte>)
    ensures |r| == n
    decreases n
  {
    if n == 0 then [] else [v % 256] + Le(v / 256, n - 1)
  }

  function FromLe(b: seq<Byte>): nat { if b == [] then 0 else b[0] + 256 * FromLe(b[1..]) }

  /** A value that fits in `n` bytes survives `to_le_bytes` and `from_le_bytes`. */
  lemma {:induction false} LeRoundTrip(v: nat, n: nat)
    requires v < Pow256(n)
    ensures FromLe(Le(v, n)) == v
    decreases n
  {
    if n > 0 {
      LeRoundTrip(v / 256, n - 1);
      assert Le(v, n)[1..] == Le(v / 256, n - 1);
    }
  }

  lemma WordRange()
    ensures Pow256(8) == ADDRESS_MAX + 1
  {
    assert Pow256(1) == 256 * Pow256(0);
    assert Pow256(2) == 256 * Pow256(1);
    assert Pow256(3) == 256 * Pow256(2);
    assert Pow256(4) == 256 * Pow256(3);
    assert Pow256(5) == 256 * Pow256(4);
    assert Pow256(6) == 256 * Pow256(5);
    assert Pow256(7) == 256 * Pow256(6);
    assert Pow256(8) == 256 * Pow256(7);
  }

  function ReadWord(rs: seq<Region>, addr: nat, required: set<Perm>): Option<nat>
    requires forall r :: r in rs ==> r.Ok()
  {
    var b := ReadBytes(rs, addr, 8, required);
    if b.None? then None else Some(FromLe(b.value))
  }

  predicate StoredIn(q: Region, at: nat, bytes: seq<Byte>) {
    q.Ok() && q.Contains(at, |bytes|) && q.data[at - q.base..at - q.base + |bytes|] == bytes
  }

  /** Some region has these bytes at this address. */
  ghost predicate Stored(rs: seq<Region>, at: nat, bytes: seq<Byte>) { exists q :: q in rs && StoredIn(q, at, bytes) }

  /** Stored bytes are what a read returns and what the flat map shows. */
  lemma StoredReads(rs: seq<Region>, at: nat, bytes: seq<Byte>)
    requires Valid(rs) && Stored(rs, at, bytes) && bytes != []
    ensures ReadBytes(rs, at, |bytes|, {}) == Some(bytes) && Holds(rs, at, bytes)
  {
    var q :| q in rs && StoredIn(q, at, bytes);
    ReadAgrees(rs, at, |bytes|, {});
    assert q.Contains(at, |bytes|) && {} <= q.flags;
    var i := FindRegion(rs, at, |bytes|).value;
    assert rs[i] in rs;
    OnlyOneHolds(rs, q, rs[i], at);
  }

  /** Whatever was stored outside [lo, hi) still is. */
  ghost predicate Kept(rs: seq<Region>, ws: seq<Region>, lo: nat, hi: nat) {
    forall at: nat, bytes: seq<Byte> :: (at + |bytes| <= lo || hi <= at) && Stored(rs, at, bytes) ==>
      Stored(ws, at, bytes)
  }

  lemma OverwriteStores(r: Region, addr: nat, bytes: seq<Byte>, at: nat, b: seq<Byte>)
    requires r.Ok() && r.Contains(addr, |bytes|)
    ensures StoredIn(Overwrite(r, addr, bytes), addr, bytes)
    ensures StoredIn(r, at, b) && (at + |b| <= addr || addr + |bytes| <= at) ==>
      StoredIn(Overwrite(r, addr, bytes), at, b)
  {
    var w, o := Overwrite(r, addr, bytes), addr - r.base;
    assert w.data[o..o + |bytes|] == bytes;
    if StoredIn(r, at, b) {
      var p := at - r.base;
      if at + |b| <= addr {
        assert w.data[p..p + |b|] == r.data[p..p + |b|];
      } else if addr + |bytes| <= at {
        assert w.data[p..p + |b|] == r.data[p..p + |b|];
      }
    }
  }

  lemma WriteKept(rs: seq<Region>, addr: nat, bytes: seq<Byte>, required: set<Perm>)
    requires Valid(rs) && WriteBytes(rs, addr, bytes, required).Some?
    ensures var ws := WriteBytes(rs, addr, bytes, required).value;
      Stored(ws, addr, bytes) && Kept(rs, ws, addr, addr + |bytes|)
  {
    var i := FindRegion(rs, addr, |bytes|).value;
    assert rs[i] in rs && rs[i].Ok();
    var ws := rs[i := Overwrite(rs[i], addr, bytes)];
    OverwriteStores(rs[i], addr, bytes, addr, bytes);
    assert ws[i] in ws;
    forall at: nat, b: seq<Byte> | (at + |b| <= addr || addr + |bytes| <= at)
      && Stored(rs, at, b) ensures Stored(ws, at, b) {
      var q :| q in rs && StoredIn(q, at, b);
      var j :| 0 <= j < |rs| && rs[j] == q;
      OverwriteStores(rs[i], addr, bytes, at, b);
      assert ws[j] in ws && StoredIn(ws[j], at, b);
    }
  }

  lemma KeptDown(a: seq<Region>, b: seq<Region>, c: seq<Region>, lo: nat, mid: nat, hi: nat)
    requires lo <= mid <= hi && Kept(a, b, mid, hi) && Kept(b, c, lo, mid)
    ensures Kept(a, c, lo, hi)
  {
  }

  lemma KeptUp(a: seq<Region>, b: seq<Region>, c: seq<Region>, lo: nat, mid: nat, hi: nat)
    requires lo <= mid <= hi && Kept(a, b, lo, mid) && Kept(b, c, mid, hi)
    ensures Kept(a, c, lo, hi)
  {
  }

  lemma KeptWider(rs: seq<Region>, ws: seq<Region>, lo: nat, hi: nat, wider: nat)
    requires Kept(rs, ws, lo, hi) && hi <= wider
    ensures Kept(rs, ws, lo, wider)
  {
  }

  /** The eight bytes at `at` are the word `v`. */
  ghost predicate WordAt(rs: seq<Region>, at: nat, v: nat) {
    exists b :: |b| == 8 && FromLe(b) == v && Stored(rs, at, b)
  }

  /** What `read_u64` then returns. */
  lemma WordReads(rs: seq<Region>, at: nat, v: nat)
    requires Valid(rs) && WordAt(rs, at, v)
    ensures ReadWord(rs, at, {}) == Some(v)
  {
    var b :| |b| == 8 && FromLe(b) == v && Stored(rs, at, b);
    StoredReads(rs, at, b);
  }

  lemma BlockIsWord(rs: seq<Region>, at: nat, v: nat)
    requires v <= ADDRESS_MAX && Stored(rs, at, Le(v, 8))
    ensures WordAt(rs, at, v)
  {
    WordRange();
    LeRoundTrip(v, 8);
  }

  function ByteAt(rs: seq<Region>, a: nat): Option<Byte> {
    var c := Flat(rs, a); if c.None? then None else Some(c.value.byte)
  }

  /** `read_u8` reads the flat map. */
  lemma ReadByte(rs: seq<Region>, a: nat)
    requires Valid(rs)
    ensures var b := ReadBytes(rs, a, 1, {}); if ByteAt(rs, a).Some? then b == Some([ByteAt(rs, a).value]) else b.None?
  {
    ReadAgrees(rs, a, 1, {});
    FlatNone(rs, a);
    var b := ReadBytes(rs, a, 1, {});
    if q :| q in rs && q.Covers(a) { assert q.Contains(a, 1); }
    if b.Some? { assert b.value == [b.value[0]] && Flat(rs, a).value.byte == b.value[a - a]; }
  }

  /** `read_c_string` on bytes: up to the first NUL, which must come within `max` bytes. */
  function CString(rs: seq<Region>, a: nat, max: nat): Option<seq<Byte>>
    decreases max
  {
    if max == 0 then None
    else
      var b := ByteAt(rs, a);
      if b.None? then None
      else if b.value == 0 then Some([])
      else
        var rest := CString(rs, a + 1, max - 1);
        if rest.None? then None else Some([b.value] + rest.value)
  }

  /** `bytes` is a string with its NUL. */
  predicate Terminated(bytes: seq<Byte>) {
    bytes != [] && bytes[|bytes| - 1] == 0 && forall i :: 0 <= i < |bytes| - 1 ==> bytes[i] != 0
  }

  /** A stored NUL-free string reads back whole. */
  lemma {:induction false} CStringReads(rs: seq<Region>, addr: nat, bytes: seq<Byte>, k: nat, max: nat)
    requires Terminated(bytes) && Holds(rs, addr, bytes) && k < |bytes| <= k + max
    ensures CString(rs, addr + k, max) == Some(bytes[k..|bytes| - 1])
    decreases |bytes| - k
  {
    var n := |bytes| - 1;
    assert ByteAt(rs, addr + k) == Some(bytes[addr + k - addr]);
    if k < n {
      CStringReads(rs, addr, bytes, k + 1, max - 1);
      assert addr + k + 1 == addr + (k + 1);
      assert [bytes[k]] + bytes[k + 1..n] == bytes[k..n];
    } else {
      assert bytes[k..n] == [];
    }
  }
}
