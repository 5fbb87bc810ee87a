/** The memory system calls of a running guest: mmap without a hint, munmap, mprotect and brk keep
    the regions disjoint. */
module AddressSpace {
  import opened Wrappers
  import opened Seqs
  import opened GuestMemory

  const PAGE: nat := 4096

  function AlignUp(v: nat): (r: nat)
    ensures v <= r < v + PAGE && r % PAGE == 0
  {
    (v + PAGE - 1) / PAGE * PAGE
  }

  lemma NextPage(a: nat, b: nat)
    requires a % PAGE == 0 && b % PAGE == 0 && a < b
    ensures a + PAGE <= b
  {
  }

  lemma AlignedSum(a: nat, b: nat)
    requires a % PAGE == 0 && b % PAGE == 0
    ensures (a + b) % PAGE == 0
  {
  }

  ghost predicate NonEmpty(rs: seq<Region>) { forall r :: r in rs ==> r.size > 0 }

  // -- brk ----------------------------------------------------------------------------------------

  function Resize(data: seq<Byte>, size: nat): (r: seq<Byte>)
    ensures |r| == size && forall i :: 0 <= i < size ==> r[i] == if i < |data| then data[i] else 0
  {
    if |data| >= size then data[..size] else data + seq(size - |data|, _ => 0)
  }

  function Zeroed(base: nat, size: nat, flags: set<Perm>): (r: Region)
    ensures r.base == base && r.size == size && r.flags == flags && |r.data| == size && forall a: nat ::
      r.Covers(a) ==> CellAt(r, a) == Cell(0, flags)
  {
    Region(base, size, flags, seq(size, _ => 0))
  }

  /** The region that starts at the heap base, or none. */
  function HeapAt(rs: seq<Region>, base: nat): (r: Option<nat>)
    ensures r.Some? ==> r.value < |rs| && rs[r.value].base == base
    ensures r.None? ==> forall q :: q in rs ==> q.base != base
  {
    Position(rs, (q: Region) => q.base == base)
  }

  function Occupied(rs: seq<Region>): seq<Region> { Retain(rs, (r: Region) => r.size != 0) }

  function NewHeap(rs: seq<Region>, base: nat, size: nat): (h: Region)
    ensures h.base == base && h.size == size && |h.data| == size
  {
    var i := HeapAt(rs, base);
    if i.Some? then rs[i.value].(size := size, data := Resize(rs[i.value].data, size))
        else Zeroed(base, size, {CanRead, CanWrite})
  }

  /** `grow_brk` on the region list: resize the heap region, or append one, then drop empty ones. */
  function Grow(rs: seq<Region>, base: nat, size: nat): seq<Region> {
    var i := HeapAt(rs, base);
    Occupied(if i.Some? then rs[i.value := NewHeap(rs, base, size)]
             else if size != 0 then rs + [NewHeap(rs, base, size)] else rs)
  }

  lemma {:induction false} OccupiedFacts(rs: seq<Region>, a: nat)
    ensures Flat(Occupied(rs), a) == Flat(rs, a)
    ensures NonEmpty(Occupied(rs)) && forall r :: r in Occupied(rs) <==> r in rs && r.size != 0
  {
    if rs != [] {
      OccupiedFacts(rs[1..], a);
      var tail := Occupied(rs[1..]);
      assert ([rs[0]] + tail)[1..] == tail && [] + tail == tail;
      assert rs == [rs[0]] + rs[1..];
    }
  }

  lemma {:induction false} OccupiedDisjoint(rs: seq<Region>)
    ensures Disjoint(Occupied(rs)) <==> Disjoint(rs)
  {
    if rs != [] {
      OccupiedDisjoint(rs[1..]);
      OccupiedFacts(rs[1..], 0);
      var tail := Occupied(rs[1..]);
      assert ([rs[0]] + tail)[1..] == tail && [] + tail == tail;
    }
  }

  /** Resizing one region of a disjoint list keeps it disjoint iff the new extent meets no other. */
  lemma {:induction false} ResizeDisjoint(rs: seq<Region>, i: nat, w: Region)
    requires Disjoint(rs) && NonEmpty(rs) && i < |rs| && w.base == rs[i].base
    ensures Disjoint(rs[i := w]) <==> forall q :: q in rs && q.base != w.base ==> Apart(w, q)
  {
    var qs := rs[i := w];
    assert rs == [rs[0]] + rs[1..];
    if i == 0 {
      assert qs[1..] == rs[1..];
      forall q | q in rs[1..] ensures q.base != w.base { assert Apart(rs[0], q) && q in rs && rs[0] in rs; }
    } else {
      assert qs[1..] == rs[1..][i - 1 := w] && qs[0] == rs[0] && rs[1..][i - 1] == rs[i];
      assert rs[i] in rs[1..] && rs[i] in rs && rs[0] in rs;
      ResizeDisjoint(rs[1..], i - 1, w);
      assert qs[1..][i - 1] == w && w in qs[1..];
      forall q | q in qs[1..] ensures q == w || q in rs[1..] {
        var j :| 0 <= j < |qs[1..]| && qs[1..][j] == q;
        if j != i - 1 { assert rs[1..][j] in rs[1..]; }
      }
      assert Apart(rs[0], rs[i]);
      assert (forall q :: q in rs && q.base != w.base ==> Apart(w, q)) <==>
             Apart(w, rs[0]) && forall q :: q in rs[1..] && q.base != w.base ==> Apart(w, q);
      assert ApartFrom(qs[0], qs[1..]) ==> Apart(rs[0], w);
    }
  }

  /** brk keeps the regions disjoint exactly when the heap's new extent meets no other region. */
  lemma GrowDisjoint(rs: seq<Region>, base: nat, size: nat)
    requires Valid(rs) && NonEmpty(rs)
    ensures Disjoint(Grow(rs, base, size)) <==> forall q ::
      q in rs && q.base != base ==> Apart(NewHeap(rs, base, size), q)
  {
    var i, h := HeapAt(rs, base), NewHeap(rs, base, size);
    if i.Some? {
      ResizeDisjoint(rs, i.value, h);
      OccupiedDisjoint(rs[i.value := h]);
    } else if size != 0 {
      DisjointAppend(rs, [h]);
      DisjointOne(h);
      OccupiedDisjoint(rs + [h]);
      assert (forall q :: q in rs && q.base != base ==> Apart(h, q)) ==> Across(rs, [h]);
      assert h in [h];
    } else {
      OccupiedDisjoint(rs);
    }
  }

  lemma GrowMembers(rs: seq<Region>, base: nat, size: nat)
    requires Valid(rs) && NonEmpty(rs) && base + size <= ADDRESS_MAX
    ensures NonEmpty(Grow(rs, base, size))
    ensures forall r :: r in Grow(rs, base, size) ==> r.Ok() && (r == NewHeap(rs, base, size) || r in rs)
  {
    var i, h := HeapAt(rs, base), NewHeap(rs, base, size);
    var next := if i.Some? then rs[i.value := h] else if size != 0 then rs + [h] else rs;
    OccupiedFacts(next, 0);
    forall r | r in next ensures r == h || r in rs {
      var j :| 0 <= j < |next| && next[j] == r;
    }
  }

  /** What brk does to the flat map: inside the new heap, old heap bytes stay and new ones are zero;
      outside it and the old heap nothing changes; what the heap gives up is gone. */
  lemma GrowFlat(rs: seq<Region>, base: nat, size: nat, a: nat)
    requires Valid(rs) && NonEmpty(rs) && (forall q :: q in rs && q.base != base ==> Apart(NewHeap(rs, base, size), q))
    ensures var h, i := NewHeap(rs, base, size), HeapAt(rs, base);
      Flat(Grow(rs, base, size), a)
        == if h.Covers(a) then Some(CellAt(h, a)) else if i.Some? && rs[i.value].Covers(a) then None else Flat(rs, a)
  {
    var i, h := HeapAt(rs, base), NewHeap(rs, base, size);
    var next := if i.Some? then rs[i.value := h] else if size != 0 then rs + [h] else rs;
    GrowDisjoint(rs, base, size);
    OccupiedDisjoint(next);
    OccupiedFacts(next, a);
    if h.Covers(a) {
      assert i.Some? ==> next[i.value] == h;
      assert i.None? ==> next[|rs|] == h;
      FlatMember(next, h, a);
    } else if i.Some? {
      ResizeFlat(rs, i.value, h, a);
    } else if size != 0 {
      FlatAppend(rs, [h], a);
      FlatOne(h, a);
    }
  }

  lemma {:induction false} ResizeFlat(rs: seq<Region>, i: nat, w: Region, a: nat)
    requires Disjoint(rs) && i < |rs| && !w.Covers(a)
    ensures Flat(rs[i := w], a) == if rs[i].Covers(a) then None else Flat(rs, a)
  {
    var qs := rs[i := w];
    if i == 0 {
      assert qs[1..] == rs[1..];
      if rs[0].Covers(a) {
        FlatNone(rs[1..], a);
        forall q | q in rs[1..] ensures !q.Covers(a) { assert Apart(rs[0], q); }
      }
    } else {
      assert qs[1..] == rs[1..][i - 1 := w] && qs[0] == rs[0] && rs[1..][i - 1] == rs[i];
      ResizeFlat(rs[1..], i - 1, w, a);
      assert rs[i] in rs[1..];
      assert Apart(rs[0], rs[i]);
    }
  }

  // -- The layout ---------------------------------------------------------------------------------

  /** Below the heap, the one-page heap itself, or between the heap page and the mmap cursor. */
  predicate Placed(r: Region, brkBase: nat, cursor: nat) {
    r.End() <= brkBase || (r.base == brkBase && r.size <= PAGE) || (brkBase + PAGE <= r.base && r.End() <= cursor)
  }

  ghost predicate LayoutOk(rs: seq<Region>, brkBase: nat, cursor: nat) {
    && Valid(rs) && NonEmpty(rs) && brkBase % PAGE == 0 && brkBase + PAGE <= cursor <= ADDRESS_MAX
    && forall r :: r in rs ==> Placed(r, brkBase, cursor)
  }

  /** A page-aligned cut takes the one-page heap whole or leaves it. */
  lemma PiecePlaced(r: Region, q: Region, addr: nat, end: nat, flags: Option<set<Perm>>, brkBase: nat, cursor: nat)
    requires r.Ok() && r.size > 0 && Placed(r, brkBase, cursor) && q in Pieces(r, addr, end, flags)
    requires brkBase % PAGE == 0 && addr % PAGE == 0 && (end % PAGE == 0 || end == ADDRESS_MAX)
    ensures Placed(q, brkBase, cursor) && q.size > 0
  {
    var from, to := Max(r.base, addr), Min(r.End(), end);
    if from < to && r.base == brkBase && r.size <= PAGE {
      if addr > brkBase { NextPage(brkBase, addr); }
      if end % PAGE == 0 && end > brkBase { NextPage(brkBase, end); }
    }
  }

  lemma {:induction false} PiecesPlaced(rs: seq<Region>, q: Region, addr: nat, end: nat, flags: Option<set<Perm>>,
                                        brkBase: nat, cursor: nat)
    requires (forall r :: r in rs ==> r.Ok() && r.size > 0 && Placed(r, brkBase, cursor))
      && q in AllPieces(rs, addr, end, flags)
    requires brkBase % PAGE == 0 && addr % PAGE == 0 && (end % PAGE == 0 || end == ADDRESS_MAX)
    ensures Placed(q, brkBase, cursor) && q.size > 0
  {
    if q in Pieces(rs[0], addr, end, flags) {
      PiecePlaced(rs[0], q, addr, end, flags, brkBase, cursor);
    } else {
      PiecesPlaced(rs[1..], q, addr, end, flags, brkBase, cursor);
    }
  }

  lemma RemapLayout(rs: seq<Region>, addr: nat, size: nat, flags: Option<set<Perm>>, brkBase: nat, cursor: nat)
    requires LayoutOk(rs, brkBase, cursor) && addr % PAGE == 0 && size % PAGE == 0
    ensures LayoutOk(Remap(rs, addr, size, flags), brkBase, cursor)
  {
    var end := Min(addr + size, ADDRESS_MAX);
    var pieces := AllPieces(rs, addr, end, flags);
    RemapAgrees(rs, addr, size, flags);
    SortByBaseFacts(pieces);
    AlignedSum(addr, size);
    forall q | q in Remap(rs, addr, size, flags) ensures Placed(q, brkBase, cursor) && q.size > 0 {
      PiecesPlaced(rs, q, addr, end, flags, brkBase, cursor);
    }
  }

  lemma AppendAbove(rs: seq<Region>, r: Region, brkBase: nat, cursor: nat, cursor': nat)
    requires LayoutOk(rs, brkBase, cursor) && cursor <= r.base && r.End() <= cursor' <= ADDRESS_MAX && r.Ok()
      && r.size > 0
    ensures LayoutOk(rs + [r], brkBase, cursor')
    ensures forall a: nat :: Flat(rs + [r], a) == if r.Covers(a) then Some(CellAt(r, a)) else Flat(rs, a)
    ensures forall a: nat :: r.Covers(a) ==> Flat(rs, a).None?
  {
    DisjointOne(r);
    DisjointAppend(rs, [r]);
    forall a: nat
      ensures Flat(rs + [r], a) == if r.Covers(a) then Some(CellAt(r, a)) else Flat(rs, a)
      ensures r.Covers(a) ==> Flat(rs, a).None?
    {
      FlatAppend(rs, [r], a);
      FlatOne(r, a);
      FlatNone(rs, a);
    }
  }

  lemma GrowLayout(rs: seq<Region>, size: nat, brkBase: nat, cursor: nat)
    requires LayoutOk(rs, brkBase, cursor) && size <= PAGE
    ensures LayoutOk(Grow(rs, brkBase, size), brkBase, cursor)
    ensures forall q :: q in rs && q.base != brkBase ==> Apart(NewHeap(rs, brkBase, size), q)
  {
    forall q | q in rs && q.base != brkBase ensures Apart(NewHeap(rs, brkBase, size), q) {
      assert Placed(q, brkBase, cursor);
    }
    GrowDisjoint(rs, brkBase, size);
    GrowMembers(rs, brkBase, size);
  }

  /** The heap grown to two pages meets a mapping that starts one page above its base. */
  lemma GrowMeetsMapping(rs: seq<Region>, base: nat, r: Region)
    requires Valid(rs) && NonEmpty(rs) && r in rs && r.base == base + PAGE
    ensures !Disjoint(Grow(rs, base, 2 * PAGE))
  {
    assert !Apart(NewHeap(rs, base, 2 * PAGE), r);
    GrowDisjoint(rs, base, 2 * PAGE);
  }

  /** From every initial layout: one page of mmap, then brk two pages up, and two regions overlap. */
  method BrkMeetsMmap(rs: seq<Region>, top: nat, flags: set<Perm>) returns (s: Space)
    requires Valid(rs) && NonEmpty(rs) && (forall r :: r in rs ==> r.End() <= top)
      && AlignUp(top) + 2 * PAGE <= ADDRESS_MAX
    ensures s.brkCurrent == s.brkBase + 2 * PAGE && !Disjoint(s.memory.regions)
  {
    s := new Space(rs, top);
    AlignedFix(s.cursor);
    var addr := s.Mmap(PAGE, flags);
    GrowMeetsMapping(s.memory.regions, s.brkBase, s.memory.regions[|rs|]);
    AlignedFix(s.brkBase + 2 * PAGE);
    s.GrowBrk(s.brkBase + 2 * PAGE);
  }

  lemma AlignedFix(v: nat)
    requires v % PAGE == 0
    ensures AlignUp(v) == v
  {
  }

  class Space {
    const memory: Memory
    const brkBase: nat
    var brkCurrent: nat
    var cursor: nat

    ghost predicate Ok()
      reads this, memory
    {
      LayoutOk(memory.regions, brkBase, cursor)
    }

    /** The heap starts at the first page boundary above everything mapped, mmap one page later. */
    constructor (rs: seq<Region>, top: nat)
      requires Valid(rs) && NonEmpty(rs) && (forall r :: r in rs ==> r.End() <= top)
        && AlignUp(top) + PAGE <= ADDRESS_MAX
      ensures Ok() && memory.regions == rs && fresh(memory) && brkBase == AlignUp(top) && brkCurrent == brkBase
        && cursor == brkBase + PAGE
    {
      memory := new Memory(rs);
      brkBase, brkCurrent := AlignUp(top), AlignUp(top);
      cursor := AlignUp(top) + PAGE;
    }

    /** mmap without a hint: fresh zeroed pages that nothing occupied before. */
    method Mmap(size: nat, flags: set<Perm>) returns (addr: Option<nat>)
      requires Ok() && AlignUp(cursor) + AlignUp(size) <= ADDRESS_MAX
      modifies this`cursor, memory
      ensures Ok() && (addr.None? <==> size == 0) && (addr.None? ==> memory.regions == old(memory.regions))
      ensures addr.Some? ==>
        addr.value == AlignUp(old(cursor))
        && memory.regions == old(memory.regions) + [Zeroed(addr.value, AlignUp(size), flags)]
      ensures addr.Some? ==>
        && addr.value % PAGE == 0 && AlignUp(size) >= size
        && forall a: nat ::
             addr.value <= a < addr.value + AlignUp(size) ==>
               Flat(old(memory.regions), a).None? && Flat(memory.regions, a) == Some(Cell(0, flags))
      ensures addr.Some? ==> forall a: nat ::
        !(addr.value <= a < addr.value + AlignUp(size)) ==> Flat(memory.regions, a) == Flat(old(memory.regions), a)
    {
      if size == 0 { return None; }
      var base := AlignUp(cursor);
      var rounded := AlignUp(if size < PAGE then PAGE else size);
      assert rounded == AlignUp(size);
      var r := Zeroed(base, rounded, flags);
      AppendAbove(memory.regions, r, brkBase, cursor, base + rounded);
      cursor := base + AlignUp(size);
      memory.regions := memory.regions + [r];
      addr := Some(base);
    }

    method Munmap(addr: nat, length: nat) returns (ok: bool)
      requires Ok()
      modifies memory
      ensures Ok() && (ok <==> length > 0 && addr % PAGE == 0) && (!ok ==> memory.regions == old(memory.regions))
      ensures ok ==> forall a: nat ::
        Flat(memory.regions, a) == if addr <= a < addr + AlignUp(length) then None else Flat(old(memory.regions), a)
    {
      var size := AlignUp(length);
      ok := size != 0 && addr % PAGE == 0;
      if ok {
        RemapLayout(memory.regions, addr, size, None, brkBase, cursor);
        memory.UnmapRange(addr, size);
      }
    }

    method Mprotect(addr: nat, length: nat, flags: set<Perm>) returns (ok: bool)
      requires Ok()
      modifies memory
      ensures Ok() && (ok <==> addr % PAGE == 0 && RangeMapped(old(memory.regions), addr, AlignUp(length)))
        && (!ok ==> memory.regions == old(memory.regions))
      ensures ok ==> forall a: nat ::
        Flat(memory.regions, a)
          == Remapped(Flat(old(memory.regions), a), addr <= a < addr + AlignUp(length), Some(flags))
    {
      var size := AlignUp(length);
      if size == 0 || addr % PAGE != 0 { return false; }
      RemapLayout(memory.regions, addr, size, Some(flags), brkBase, cursor);
      ok := memory.ProtectRange(addr, size, flags);
    }

    /** brk: while the heap stays within its one page the layout is kept. */
    method GrowBrk(target: nat)
      requires Ok()
      modifies this`brkCurrent, memory
      ensures brkCurrent == AlignUp(Max(target, brkBase))
        && memory.regions == Grow(old(memory.regions), brkBase, brkCurrent - brkBase)
      ensures brkCurrent <= brkBase + PAGE ==> Ok()
    {
      var next := AlignUp(Max(target, brkBase));
      if next <= brkBase + PAGE { GrowLayout(memory.regions, next - brkBase, brkBase, cursor); }
      memory.regions := Grow(memory.regions, brkBase, next - brkBase);
      brkCurrent := next;
    }
  }
}
