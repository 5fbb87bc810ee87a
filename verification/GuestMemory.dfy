/** Guest memory: a list of regions that refines a flat map from addresses to a byte and its
    permissions. */
module GuestMemory {
  import opened Wrappers
  import opened Seqs

  const ADDRESS_MAX: nat := 0xFFFF_FFFF_FFFF_FFFF

  type Byte = n: nat | n < 256

  datatype Perm = CanExec | CanWrite | CanRead

  datatype Region = Region(base: nat, size: nat, flags: set<Perm>, data: seq<Byte>) {
    function End(): nat { base + size }

    predicate Covers(a: nat) { base <= a < End() }

    /** As many bytes as addresses, and an end that is an address. */
    predicate Ok() { |data| == size && End() <= ADDRESS_MAX }

    predicate Contains(addr: nat, count: nat) { base <= addr && addr + count <= End() }
  }

  datatype Cell = Cell(byte: Byte, flags: set<Perm>)

  function CellAt(r: Region, a: nat): Cell {
    Cell(if r.base <= a < r.base + |r.data| then r.data[a - r.base] else 0, r.flags)
  }

  /** The flat map. */
  function Flat(rs: seq<Region>, a: nat): Option<Cell> {
    if rs == [] then None else if rs[0].Covers(a) then Some(CellAt(rs[0], a)) else Flat(rs[1..], a)
  }

  predicate Apart(r: Region, q: Region) { r.size == 0 || q.size == 0 || r.End() <= q.base || q.End() <= r.base }

  ghost predicate ApartFrom(r: Region, rs: seq<Region>) { forall q :: q in rs ==> Apart(r, q) }

  ghost predicate Disjoint(rs: seq<Region>) { rs == [] || (ApartFrom(rs[0], rs[1..]) && Disjoint(rs[1..])) }

  ghost predicate Valid(rs: seq<Region>) { Disjoint(rs) && forall r :: r in rs ==> r.Ok() }

  // -- The flat map -------------------------------------------------------------------------------

  lemma {:induction false} FlatNone(rs: seq<Region>, a: nat)
    ensures Flat(rs, a).None? <==> forall r :: r in rs ==> !r.Covers(a)
  {
    if rs != [] {
      FlatNone(rs[1..], a);
      assert rs == [rs[0]] + rs[1..];
    }
  }

  /** Whichever region covers an address, it is the one the map reads. */
  lemma {:induction false} FlatMember(rs: seq<Region>, r: Region, a: nat)
    requires Disjoint(rs) && r in rs && r.Covers(a)
    ensures Flat(rs, a) == Some(CellAt(r, a))
  {
    if r != rs[0] {
      assert r in rs[1..];
      FlatMember(rs[1..], r, a);
    }
  }

  lemma FlatSame(rs: seq<Region>, qs: seq<Region>, a: nat)
    requires Disjoint(rs) && Disjoint(qs) && forall r :: r in rs <==> r in qs
    ensures Flat(rs, a) == Flat(qs, a)
  {
    FlatNone(rs, a);
    FlatNone(qs, a);
    if r :| r in rs && r.Covers(a) {
      FlatMember(rs, r, a);
      FlatMember(qs, r, a);
    }
  }

  lemma {:induction false} FlatAppend(rs: seq<Region>, qs: seq<Region>, a: nat)
    ensures Flat(rs + qs, a) == if Flat(rs, a).Some? then Flat(rs, a) else Flat(qs, a)
  {
    if rs == [] {
      assert rs + qs == qs;
    } else {
      FlatAppend(rs[1..], qs, a);
      assert (rs + qs)[1..] == rs[1..] + qs;
    }
  }

  ghost predicate Across(rs: seq<Region>, qs: seq<Region>) { forall r, q :: r in rs && q in qs ==> Apart(r, q) }

  lemma {:induction false} DisjointAppend(rs: seq<Region>, qs: seq<Region>)
    ensures Disjoint(rs + qs) <==> Disjoint(rs) && Disjoint(qs) && Across(rs, qs)
  {
    if rs == [] {
      assert rs + qs == qs;
    } else {
      DisjointAppend(rs[1..], qs);
      assert (rs + qs)[1..] == rs[1..] + qs;
      assert rs == [rs[0]] + rs[1..];
    }
  }

  // -- Reads and writes ---------------------------------------------------------------------------

  /** `region_containing`: the first region that holds the whole range. */
  function FindRegion(rs: seq<Region>, addr: nat, count: nat): (r: Option<nat>)
    ensures r.Some? ==> r.value < |rs| && rs[r.value].Contains(addr, count)
    ensures r.None? && addr + count <= ADDRESS_MAX ==> forall q :: q in rs ==> !q.Contains(addr, count)
  {
    if addr + count > ADDRESS_MAX then None else Position(rs, (q: Region) => q.Contains(addr, count))
  }

  /** `read_bytes`, and with `required == {CanRead}` `read_bytes_checked`. */
  function ReadBytes(rs: seq<Region>, addr: nat, count: nat, required: set<Perm>): Option<seq<Byte>>
    requires forall r :: r in rs ==> r.Ok()
  {
    var i := FindRegion(rs, addr, count);
    if i.None? || !(required <= rs[i.value].flags) then None
    else
      var q := rs[i.value];
      assert q in rs && q.Ok();
      Some(q.data[addr - q.base..addr - q.base + count])
  }

  /** The flat map has these bytes from `addr` on. */
  ghost predicate Holds(rs: seq<Region>, addr: nat, bytes: seq<Byte>) {
    forall a: nat :: addr <= a < addr + |bytes| ==> Flat(rs, a).Some? && Flat(rs, a).value.byte == bytes[a - addr]
  }

  ghost predicate Allows(rs: seq<Region>, addr: nat, count: nat, required: set<Perm>) {
    forall a: nat :: addr <= a < addr + count ==> Flat(rs, a).Some? && required <= Flat(rs, a).value.flags
  }

  /** Every successful read agrees with the flat map, byte and permissions; and a nonempty range can
      be read exactly when one region holds it with the permissions required. */
  lemma ReadAgrees(rs: seq<Region>, addr: nat, count: nat, required: set<Perm>)
    requires Valid(rs)
    ensures var r := ReadBytes(rs, addr, count, required);
      && (r.Some? ==> |r.value| == count && Holds(rs, addr, r.value) && Allows(rs, addr, count, required))
      && (count > 0 ==> (r.Some? <==> exists q :: q in rs && q.Contains(addr, count) && required <= q.flags))
  {
    var i := FindRegion(rs, addr, count);
    if i.Some? {
      var q := rs[i.value];
      assert q in rs;
      forall a: nat | addr <= a < addr + count ensures Flat(rs, a) == Some(CellAt(q, a)) { FlatMember(rs, q, a); }
      forall p | p in rs && p.Contains(addr, count) && count > 0 ensures p == q { OnlyOneHolds(rs, p, q, addr); }
    } else {
      forall p | p in rs ensures !p.Contains(addr, count) { assert p.Ok(); }
    }
  }

  lemma {:induction false} OnlyOneHolds(rs: seq<Region>, p: Region, q: Region, a: nat)
    requires Disjoint(rs) && p in rs && q in rs && p.Covers(a) && q.Covers(a)
    ensures p == q
  {
    assert rs == [rs[0]] + rs[1..];
    if p in rs[1..] && q in rs[1..] {
      OnlyOneHolds(rs[1..], p, q, a);
    }
  }

  function Overwrite(r: Region, addr: nat, bytes: seq<Byte>): (w: Region)
    requires r.Ok() && r.Contains(addr, |bytes|)
    ensures w.base == r.base && w.size == r.size && w.flags == r.flags && w.Ok()
    ensures forall a: nat ::
      r.Covers(a) ==>
        CellAt(w, a) == if addr <= a < addr + |bytes| then Cell(bytes[a - addr], r.flags) else CellAt(r, a)
  {
    r.(data := r.data[..addr - r.base] + bytes + r.data[addr - r.base + |bytes|..])
  }

  /** `write_bytes`, and with `required == {CanWrite}` `write_bytes_checked`. */
  function WriteBytes(rs: seq<Region>, addr: nat, bytes: seq<Byte>, required: set<Perm>): Option<seq<Region>>
    requires forall r :: r in rs ==> r.Ok()
  {
    var i := FindRegion(rs, addr, |bytes|);
    if i.None? || !(required <= rs[i.value].flags) then None
    else
      assert rs[i.value] in rs;
      Some(rs[i.value := Overwrite(rs[i.value], addr, bytes)])
  }

  /** Same place, same size: replacing a region keeps the list disjoint. */
  lemma {:induction false} ReplaceValid(rs: seq<Region>, i: nat, w: Region)
    requires Valid(rs) && i < |rs| && w.base == rs[i].base && w.size == rs[i].size && w.Ok()
    ensures Valid(rs[i := w])
  {
    var qs := rs[i := w];
    if i == 0 {
      assert qs[1..] == rs[1..];
      assert rs[0] in rs;
    } else {
      assert qs[1..] == rs[1..][i - 1 := w] && qs[0] == rs[0];
      assert rs == [rs[0]] + rs[1..];
      ReplaceValid(rs[1..], i - 1, w);
      forall q | q in qs[1..] ensures Apart(qs[0], q) {
        assert rs[1..][i - 1] in rs[1..];
        var j :| 0 <= j < |qs[1..]| && qs[1..][j] == q;
        if j != i - 1 { assert rs[1..][j] in rs[1..]; }
      }
    }
    assert forall q :: q in qs ==> q == w || q in rs;
  }

  lemma {:induction false} ReplaceFlat(rs: seq<Region>, i: nat, w: Region, a: nat)
    requires Disjoint(rs) && i < |rs| && w.base == rs[i].base && w.size == rs[i].size
    ensures Flat(rs[i := w], a) == if rs[i].Covers(a) then Some(CellAt(w, a)) else Flat(rs, a)
  {
    var qs := rs[i := w];
    if i == 0 {
      assert qs[1..] == rs[1..];
    } else {
      assert qs[1..] == rs[1..][i - 1 := w] && qs[0] == rs[0] && rs[1..][i - 1] == rs[i];
      ReplaceFlat(rs[1..], i - 1, w, a);
      assert rs[i] in rs[1..];
    }
  }

  function Written(c: Option<Cell>, b: Byte): Option<Cell> { if c.None? then None else Some(c.value.(byte := b)) }

  /** A successful write changes exactly the bytes of its range, no permission and nothing else. */
  lemma WriteAgrees(rs: seq<Region>, addr: nat, bytes: seq<Byte>, required: set<Perm>)
    requires Valid(rs) && WriteBytes(rs, addr, bytes, required).Some?
    ensures var ws := WriteBytes(rs, addr, bytes, required).value;
      && Valid(ws) && |ws| == |rs| && (forall i :: 0 <= i < |rs| ==> ws[i] == rs[i].(data := ws[i].data))
      && (forall a: nat ::
            Flat(ws, a) == if addr <= a < addr + |bytes| then Written(Flat(rs, a), bytes[a - addr]) else Flat(rs, a))
    ensures Allows(rs, addr, |bytes|, required)
  {
    var i := FindRegion(rs, addr, |bytes|).value;
    var r := rs[i];
    assert r in rs;
    var w := Overwrite(r, addr, bytes);
    ReplaceValid(rs, i, w);
    forall a: nat | r.Covers(a) ensures Flat(rs, a) == Some(CellAt(r, a)) { FlatMember(rs, r, a); }
    forall a: nat ensures Flat(rs[i := w], a) == if r.Covers(a) then Some(CellAt(w, a)) else Flat(rs, a) {
      ReplaceFlat(rs, i, w, a);
    }
  }

  // -- Remapping ----------------------------------------------------------------------------------

  function Slice(r: Region, from: nat, to: nat, flags: set<Perm>): (s: Region)
    requires r.Ok() && r.base <= from <= to <= r.End()
    ensures s.Ok() && s.base == from && s.End() == to && s.flags == flags
    ensures forall a :: from <= a < to ==> CellAt(s, a) == CellAt(r, a).(flags := flags)
  {
    Region(from, to - from, flags, r.data[from - r.base..to - r.base])
  }

  function Max(a: nat, b: nat): nat { if a < b then b else a }

  function Min(a: nat, b: nat): nat { if a < b then a else b }

  /** What becomes of one region: the part before the range, the part in it with its new
      permissions (gone when unmapping), the part after it. */
  function Pieces(r: Region, addr: nat, end: nat, flags: Option<set<Perm>>): seq<Region>
    requires r.Ok()
  {
    var from, to := Max(r.base, addr), Min(r.End(), end);
    if from >= to then [r]
    else
      (if from > r.base then [Slice(r, r.base, from, r.flags)] else [])
      + (if flags.Some? then [Slice(r, from, to, flags.value)] else [])
      + (if to < r.End() then [Slice(r, to, r.End(), r.flags)] else [])
  }

  function Remapped(c: Option<Cell>, inside: bool, flags: Option<set<Perm>>): Option<Cell> {
    if !inside || c.None? then c else if flags.None? then None else Some(c.value.(flags := flags.value))
  }

  lemma FlatOne(r: Region, a: nat)
    ensures Flat([r], a) == if r.Covers(a) then Some(CellAt(r, a)) else None
  {
    assert [r][1..] == [];
  }

  lemma PiecesFlat(r: Region, addr: nat, end: nat, flags: Option<set<Perm>>, a: nat)
    requires r.Ok()
    ensures Flat(Pieces(r, addr, end, flags), a) == Remapped(Flat([r], a), addr <= a < end, flags)
  {
    var from, to := Max(r.base, addr), Min(r.End(), end);
    FlatOne(r, a);
    if from < to {
      var x := if from > r.base then [Slice(r, r.base, from, r.flags)] else [];
      var y := if flags.Some? then [Slice(r, from, to, flags.value)] else [];
      var z := if to < r.End() then [Slice(r, to, r.End(), r.flags)] else [];
      if x != [] { FlatOne(x[0], a); }
      if y != [] { FlatOne(y[0], a); }
      if z != [] { FlatOne(z[0], a); }
      FlatAppend(x, y, a);
      FlatAppend(x + y, z, a);
    }
  }

  predicate Within(q: Region, r: Region) { q.Ok() && r.base <= q.base && q.End() <= r.End() }

  lemma DisjointOne(r: Region)
    ensures Disjoint([r])
  {
    assert [r][1..] == [];
  }

  lemma PiecesOk(r: Region, addr: nat, end: nat, flags: Option<set<Perm>>)
    requires r.Ok()
    ensures Disjoint(Pieces(r, addr, end, flags)) && forall q :: q in Pieces(r, addr, end, flags) ==> Within(q, r)
  {
    var from, to := Max(r.base, addr), Min(r.End(), end);
    DisjointOne(r);
    if from < to {
      var x := if from > r.base then [Slice(r, r.base, from, r.flags)] else [];
      var y := if flags.Some? then [Slice(r, from, to, flags.value)] else [];
      var z := if to < r.End() then [Slice(r, to, r.End(), r.flags)] else [];
      if x != [] { DisjointOne(x[0]); }
      if y != [] { DisjointOne(y[0]); }
      if z != [] { DisjointOne(z[0]); }
      DisjointAppend(x, y);
      DisjointAppend(x + y, z);
    }
  }

  function AllPieces(rs: seq<Region>, addr: nat, end: nat, flags: Option<set<Perm>>): seq<Region>
    requires forall r :: r in rs ==> r.Ok()
  {
    if rs == [] then [] else Pieces(rs[0], addr, end, flags) + AllPieces(rs[1..], addr, end, flags)
  }

  lemma {:induction false} AllPiecesWithin(rs: seq<Region>, addr: nat, end: nat, flags: Option<set<Perm>>, q: Region)
    requires (forall r :: r in rs ==> r.Ok()) && q in AllPieces(rs, addr, end, flags)
    ensures exists r :: r in rs && Within(q, r)
  {
    PiecesOk(rs[0], addr, end, flags);
    if q !in Pieces(rs[0], addr, end, flags) {
      AllPiecesWithin(rs[1..], addr, end, flags, q);
      var r :| r in rs[1..] && Within(q, r);
      assert r in rs;
    } else {
      assert rs[0] in rs;
    }
  }

  lemma {:induction false} AllPiecesValid(rs: seq<Region>, addr: nat, end: nat, flags: Option<set<Perm>>)
    requires Valid(rs)
    ensures Valid(AllPieces(rs, addr, end, flags))
  {
    if rs != [] {
      var head, tail := Pieces(rs[0], addr, end, flags), AllPieces(rs[1..], addr, end, flags);
      AllPiecesValid(rs[1..], addr, end, flags);
      PiecesOk(rs[0], addr, end, flags);
      forall p, q | p in head && q in tail ensures Apart(p, q) {
        AllPiecesWithin(rs[1..], addr, end, flags, q);
        var r :| r in rs[1..] && Within(q, r);
        assert Apart(rs[0], r);
      }
      DisjointAppend(head, tail);
    }
  }

  lemma {:induction false} AllPiecesFlat(rs: seq<Region>, addr: nat, end: nat, flags: Option<set<Perm>>, a: nat)
    requires Valid(rs)
    ensures Flat(AllPieces(rs, addr, end, flags), a) == Remapped(Flat(rs, a), addr <= a < end, flags)
  {
    if rs != [] {
      AllPiecesFlat(rs[1..], addr, end, flags, a);
      PiecesFlat(rs[0], addr, end, flags, a);
      FlatOne(rs[0], a);
      FlatAppend(Pieces(rs[0], addr, end, flags), AllPieces(rs[1..], addr, end, flags), a);
      if rs[0].Covers(a) {
        FlatNone(rs[1..], a);
        forall r | r in rs[1..] ensures !r.Covers(a) { assert Apart(rs[0], r); }
      }
    }
  }

  // -- Sorting by base ----------------------------------------------------------------------------

  function InsertByBase(r: Region, rs: seq<Region>): seq<Region> {
    if rs == [] then [r] else if r.base <= rs[0].base then [r] + rs else [rs[0]] + InsertByBase(r, rs[1..])
  }

  function SortByBase(rs: seq<Region>): seq<Region> {
    if rs == [] then [] else InsertByBase(rs[0], SortByBase(rs[1..]))
  }

  ghost predicate Ordered(rs: seq<Region>) {
    rs == [] || ((forall q :: q in rs[1..] ==> rs[0].base <= q.base) && Ordered(rs[1..]))
  }

  lemma {:induction false} InsertFacts(r: Region, rs: seq<Region>)
    requires Ordered(rs)
    ensures Ordered(InsertByBase(r, rs)) && forall q :: q in InsertByBase(r, rs) <==> q == r || q in rs
  {
    if rs == [] {
      assert [r][1..] == [];
    } else if r.base <= rs[0].base {
      assert ([r] + rs)[1..] == rs;
      assert rs == [rs[0]] + rs[1..];
    } else {
      InsertFacts(r, rs[1..]);
      var tail := InsertByBase(r, rs[1..]);
      assert ([rs[0]] + tail)[1..] == tail;
      assert rs == [rs[0]] + rs[1..];
    }
  }

  lemma {:induction false} InsertDisjoint(r: Region, rs: seq<Region>)
    requires Ordered(rs) && Disjoint(rs) && ApartFrom(r, rs)
    ensures Disjoint(InsertByBase(r, rs))
  {
    if rs == [] {
      DisjointOne(r);
    } else if r.base <= rs[0].base {
      assert ([r] + rs)[1..] == rs;
    } else {
      var tail := InsertByBase(r, rs[1..]);
      assert rs == [rs[0]] + rs[1..];
      assert ([rs[0]] + tail)[1..] == tail;
      InsertDisjoint(r, rs[1..]);
      InsertFacts(r, rs[1..]);
      assert Apart(r, rs[0]);
    }
  }

  lemma {:induction false} SortByBaseFacts(rs: seq<Region>)
    ensures Ordered(SortByBase(rs)) && forall q :: q in SortByBase(rs) <==> q in rs
    ensures Disjoint(rs) ==> Disjoint(SortByBase(rs))
  {
    if rs != [] {
      SortByBaseFacts(rs[1..]);
      InsertFacts(rs[0], SortByBase(rs[1..]));
      assert rs == [rs[0]] + rs[1..];
      if Disjoint(rs) { InsertDisjoint(rs[0], SortByBase(rs[1..])); }
    }
  }

  /** `remap_range`. */
  function Remap(rs: seq<Region>, addr: nat, size: nat, flags: Option<set<Perm>>): seq<Region>
    requires forall r :: r in rs ==> r.Ok()
  {
    SortByBase(AllPieces(rs, addr, Min(addr + size, ADDRESS_MAX), flags))
  }

  lemma MappedBelowMax(rs: seq<Region>, a: nat)
    requires Valid(rs) && Flat(rs, a).Some?
    ensures a < ADDRESS_MAX
  {
    FlatNone(rs, a);
  }

  /** Remapping changes the permissions of exactly the mapped bytes in the range, or removes exactly
      those, and keeps the regions disjoint and filled. */
  lemma RemapAgrees(rs: seq<Region>, addr: nat, size: nat, flags: Option<set<Perm>>)
    requires Valid(rs)
    ensures var ws := Remap(rs, addr, size, flags);
      Valid(ws) && forall a: nat :: Flat(ws, a) == Remapped(Flat(rs, a), addr <= a < addr + size, flags)
  {
    var end := Min(addr + size, ADDRESS_MAX);
    var pieces := AllPieces(rs, addr, end, flags);
    AllPiecesValid(rs, addr, end, flags);
    SortByBaseFacts(pieces);
    forall a: nat ensures Flat(SortByBase(pieces), a) == Remapped(Flat(rs, a), addr <= a < addr + size, flags) {
      FlatSame(SortByBase(pieces), pieces, a);
      AllPiecesFlat(rs, addr, end, flags, a);
      if Flat(rs, a).Some? { MappedBelowMax(rs, a); }
    }
  }

  /** Every byte of a nonempty range of addresses is mapped. */
  ghost predicate RangeMapped(rs: seq<Region>, addr: nat, size: nat) {
    size > 0 && addr + size <= ADDRESS_MAX && forall a :: addr <= a < addr + size ==> Flat(rs, a).Some?
  }

  lemma {:induction false} OrderedFrom(rs: seq<Region>, i: nat, j: nat)
    requires Ordered(rs) && i <= j < |rs|
    ensures rs[i].base <= rs[j].base
  {
    if i == 0 {
      if j > 0 { assert rs[j] == rs[1..][j - 1] && rs[1..][j - 1] in rs[1..]; }
    } else {
      OrderedFrom(rs[1..], i - 1, j - 1);
      assert rs[i] == rs[1..][i - 1] && rs[j] == rs[1..][j - 1];
    }
  }

  lemma MappedTo(regions: seq<Region>, r: Region, from: nat)
    requires Valid(regions) && r in regions && r.base <= from
    ensures forall a :: from <= a < r.End() ==> Flat(regions, a).Some?
  {
    forall a | from <= a < r.End() ensures Flat(regions, a).Some? { FlatMember(regions, r, a); }
  }

  /** The regions before `i` end at or below `cursor` and the others start above it. */
  lemma GapAt(regions: seq<Region>, rs: seq<Region>, i: nat, cursor: nat)
    requires Ordered(rs) && (forall r :: r in regions ==> r in rs) && i <= |rs|
    requires (forall j :: 0 <= j < i ==> rs[j].End() <= cursor) && (i < |rs| ==> rs[i].base > cursor)
    ensures Flat(regions, cursor).None?
  {
    forall r | r in regions ensures !r.Covers(cursor) {
      var j :| 0 <= j < |rs| && rs[j] == r;
      if i <= j { OrderedFrom(rs, i, j); }
    }
    FlatNone(regions, cursor);
  }

  /** True iff every byte of the nonempty range is covered: one pass over the regions by base. */
  method IsRangeMapped(regions: seq<Region>, addr: nat, size: nat) returns (mapped: bool)
    requires Valid(regions)
    ensures mapped <==> RangeMapped(regions, addr, size)
  {
    if addr + size > ADDRESS_MAX || size == 0 { return false; }
    var end, cursor, i := addr + size, addr, 0;
    var rs := SortByBase(regions);
    SortByBaseFacts(regions);
    while i < |rs|
      invariant i <= |rs| && addr <= cursor < end
      invariant forall a :: addr <= a < cursor ==> Flat(regions, a).Some?
      invariant forall j :: 0 <= j < i ==> rs[j].End() <= cursor
    {
      if rs[i].base > cursor { break; }
      if rs[i].End() > cursor {
        assert rs[i] in rs;
        MappedTo(regions, rs[i], cursor);
        if rs[i].End() >= end { return true; }
        cursor := rs[i].End();
      }
      i := i + 1;
    }
    GapAt(regions, rs, i, cursor);
    return false;
  }

  lemma CutStep(next: seq<Region>, rest: seq<Region>, addr: nat, end: nat, flags: Option<set<Perm>>)
    requires rest != [] && forall r :: r in rest ==> r.Ok()
    ensures (next + Pieces(rest[0], addr, end, flags)) + AllPieces(rest[1..], addr, end, flags)
        == next + AllPieces(rest, addr, end, flags)
  {
    var cut, later := Pieces(rest[0], addr, end, flags), AllPieces(rest[1..], addr, end, flags);
    Associates(next, cut, later);
  }

  lemma Associates<T>(a: seq<T>, b: seq<T>, c: seq<T>)
    ensures (a + b) + c == a + (b + c)
  {
  }

  /** Cut every region at the range. */
  method CutAll(rs: seq<Region>, addr: nat, end: nat, flags: Option<set<Perm>>) returns (next: seq<Region>)
    requires forall r :: r in rs ==> r.Ok()
    ensures next == AllPieces(rs, addr, end, flags)
  {
    var rest := rs;
    next := [];
    while rest != []
      invariant (forall r :: r in rest ==> r.Ok())
        && next + AllPieces(rest, addr, end, flags) == AllPieces(rs, addr, end, flags)
      decreases |rest|
    {
      CutStep(next, rest, addr, end, flags);
      next := next + Pieces(rest[0], addr, end, flags);
      rest := rest[1..];
    }
  }

  /** The region list of a running guest. */
  class Memory {
    var regions: seq<Region>

    constructor (rs: seq<Region>)
      ensures regions == rs
    {
      regions := rs;
    }

    method Write(addr: nat, bytes: seq<Byte>, required: set<Perm>) returns (ok: bool)
      requires Valid(regions)
      modifies this
      ensures Valid(regions) && ok == WriteBytes(old(regions), addr, bytes, required).Some?
      ensures regions == if ok then WriteBytes(old(regions), addr, bytes, required).value else old(regions)
      ensures ok ==> Holds(regions, addr, bytes) && Allows(regions, addr, |bytes|, required)
      ensures ok ==>
        forall a: nat :: Flat(regions, a) == if addr <= a < addr + |bytes|
            then Written(Flat(old(regions), a), bytes[a - addr]) else Flat(old(regions), a)
    {
      var ws := WriteBytes(regions, addr, bytes, required);
      ok := ws.Some?;
      if ok {
        WriteAgrees(regions, addr, bytes, required);
        regions := ws.value;
      }
    }

    /** `remap_range`: cut every region at the range, then sort. */
    method RemapRange(addr: nat, size: nat, flags: Option<set<Perm>>)
      requires Valid(regions)
      modifies this
      ensures regions == Remap(old(regions), addr, size, flags)
      ensures Valid(regions) && forall a: nat ::
        Flat(regions, a) == Remapped(Flat(old(regions), a), addr <= a < addr + size, flags)
    {
      var next := CutAll(regions, addr, Min(addr + size, ADDRESS_MAX), flags);
      RemapAgrees(regions, addr, size, flags);
      regions := SortByBase(next);
    }

    /** Fails without effect unless the whole range is mapped; then changes only permissions. */
    method ProtectRange(addr: nat, size: nat, flags: set<Perm>) returns (ok: bool)
      requires Valid(regions)
      modifies this
      ensures Valid(regions) && (ok <==> RangeMapped(old(regions), addr, size)) && (!ok ==> regions == old(regions))
      ensures ok ==> regions == Remap(old(regions), addr, size, Some(flags))
      ensures ok ==> forall a: nat ::
        Flat(regions, a) == Remapped(Flat(old(regions), a), addr <= a < addr + size, Some(flags))
    {
      ok := IsRangeMapped(regions, addr, size);
      if ok { RemapRange(addr, size, Some(flags)); }
    }

    /** Removes exactly the bytes of the range. */
    method UnmapRange(addr: nat, size: nat)
      requires Valid(regions)
      modifies this
      ensures regions == Remap(old(regions), addr, size, None)
      ensures Valid(regions) && forall a: nat ::
        Flat(regions, a) == if addr <= a < addr + size then None else Flat(old(regions), a)
    {
      RemapRange(addr, size, None);
    }
  }
}
