/** The initial user stack: what `initialize_user_stack` writes, a walk from the stack pointer reads
    back. */
module BootStack {
  import opened Wrappers
  import opened GuestMemory
  import opened Bytes

  const LINX64: seq<Byte> := [108, 105, 110, 120, 54, 52]
  const RANDOM: seq<Byte> := [0xA5, 0xA5, 0xA5, 0xA5, 0xA5, 0xA5, 0xA5, 0xA5, 0xA5, 0xA5, 0xA5, 0xA5, 0xA5, 0xA5, 0xA5,
      0xA5]

  method PushBytes(memory: Memory, sp: nat, bytes: seq<Byte>) returns (next: Option<nat>)
    requires Valid(memory.regions)
    modifies memory
    ensures Valid(memory.regions)
    ensures next.Some? ==>
      next.value + |bytes| == sp && Stored(memory.regions, next.value, bytes)
        && Kept(old(memory.regions), memory.regions, next.value, sp)
  {
    if |bytes| > sp { return None; }
    var at := sp - |bytes|;
    ghost var before := memory.regions;
    var ok := memory.Write(at, bytes, {});
    if !ok { return None; }
    WriteKept(before, at, bytes, {});
    return Some(at);
  }

  // -- Strings ------------------------------------------------------------------------------------

  /** The strings lie one behind the other from `lo` to `hi`, each with its NUL. */
  predicate Packed(ptrs: seq<nat>, items: seq<seq<Byte>>, lo: nat, hi: nat) {
    if items == [] then ptrs == [] && lo == hi
    else ptrs != [] && ptrs[0] == lo && Packed(ptrs[1..], items[1..], lo + |items[0]| + 1, hi)
  }

  ghost predicate StringsAt(rs: seq<Region>, ptrs: seq<nat>, items: seq<seq<Byte>>) {
    |ptrs| == |items| && forall k :: 0 <= k < |items| ==> Stored(rs, ptrs[k], items[k] + [0])
  }

  lemma {:induction false} PackedBounds(ptrs: seq<nat>, items: seq<seq<Byte>>, lo: nat, hi: nat, k: nat)
    requires Packed(ptrs, items, lo, hi)
    ensures |ptrs| == |items| && lo <= hi && (k < |items| ==> lo <= ptrs[k] && ptrs[k] + |items[k]| + 1 <= hi)
  {
    if items != [] {
      PackedBounds(ptrs[1..], items[1..], lo + |items[0]| + 1, hi, if k == 0 then 0 else k - 1);
    }
  }

  lemma PackedCons(item: seq<Byte>, at: nat, ptrs: seq<nat>, items: seq<seq<Byte>>, lo: nat, hi: nat)
    requires Packed(ptrs, items, lo, hi) && at + |item| + 1 == lo
    ensures Packed([at] + ptrs, [item] + items, at, hi)
  {
    assert ([at] + ptrs)[1..] == ptrs && ([item] + items)[1..] == items;
  }

  lemma StringsKept(rs: seq<Region>, ws: seq<Region>, ptrs: seq<nat>, items: seq<seq<Byte>>, from: nat, lo: nat,
                    hi: nat, top: nat)
    requires StringsAt(rs, ptrs, items) && Packed(ptrs, items, hi, top) && Kept(rs, ws, lo, from) && from <= hi
    ensures StringsAt(ws, ptrs, items)
  {
    forall k | 0 <= k < |items| ensures Stored(ws, ptrs[k], items[k] + [0]) { PackedBounds(ptrs, items, hi, top, k); }
  }

  lemma StringsCons(rs: seq<Region>, ws: seq<Region>, item: seq<Byte>, at: nat, ptrs: seq<nat>, items: seq<seq<Byte>>,
                    lo: nat, hi: nat)
    requires StringsAt(rs, ptrs, items) && Packed(ptrs, items, lo, hi) && Kept(rs, ws, at, lo)
      && Stored(ws, at, item + [0])
    ensures StringsAt(ws, [at] + ptrs, [item] + items)
  {
    StringsKept(rs, ws, ptrs, items, lo, at, lo, hi);
    forall k | 0 <= k < |items| + 1 ensures Stored(ws, ([at] + ptrs)[k], ([item] + items)[k] + [0]) {
      if k > 0 { assert ([at] + ptrs)[k] == ptrs[k - 1] && ([item] + items)[k] == items[k - 1]; }
    }
  }

  /** Push the strings, the last one first. */
  method PushStrings(memory: Memory, sp: nat, items: seq<seq<Byte>>) returns (next: Option<nat>, ptrs: seq<nat>)
    requires Valid(memory.regions)
    modifies memory
    ensures Valid(memory.regions)
    ensures next.Some? ==>
      && StringsAt(memory.regions, ptrs, items) && Packed(ptrs, items, next.value, sp)
      && next.value <= sp && Kept(old(memory.regions), memory.regions, next.value, sp)
  {
    var i: nat, cur: nat := |items|, sp;
    ptrs := [];
    assert items[i..] == [];
    while i > 0
      invariant 0 <= i <= |items| && Valid(memory.regions)
      invariant StringsAt(memory.regions, ptrs, items[i..]) && Packed(ptrs, items[i..], cur, sp)
      invariant cur <= sp && Kept(old(memory.regions), memory.regions, cur, sp)
    {
      var item := items[i - 1];
      ghost var before, rest, tail := memory.regions, ptrs, items[i..];
      var at := PushBytes(memory, cur, item + [0]);
      if at.None? { return None, []; }
      PackedCons(item, at.value, rest, tail, cur, sp);
      StringsCons(before, memory.regions, item, at.value, rest, tail, cur, sp);
      KeptDown(old(memory.regions), before, memory.regions, at.value, cur, sp);
      assert [item] + tail == items[i - 1..];
      ptrs, cur, i := [at.value] + ptrs, at.value, i - 1;
    }
    assert items[0..] == items;
    next := Some(cur);
  }

  // -- Words --------------------------------------------------------------------------------------

  /** The words as their eight bytes each. */
  function Blocks(words: seq<nat>): (r: seq<seq<Byte>>)
    ensures |r| == |words| && forall i :: 0 <= i < |words| ==> r[i] == Le(words[i], 8)
  {
    seq(|words|, i requires 0 <= i < |words| => Le(words[i], 8))
  }

  ghost predicate BlocksAt(rs: seq<Region>, at: nat, blocks: seq<seq<Byte>>, n: nat) {
    n <= |blocks| && forall j: nat :: j < n ==> Stored(rs, at + 8 * j, blocks[j])
  }

  lemma BlockWritten(rs: seq<Region>, ws: seq<Region>, at: nat, blocks: seq<seq<Byte>>, i: nat)
    requires i < |blocks| && BlocksAt(rs, at, blocks, i) && Kept(rs, ws, at + 8 * i, at + 8 * i + 8)
      && Stored(ws, at + 8 * i, blocks[i])
    requires forall j :: 0 <= j < |blocks| ==> |blocks[j]| == 8
    ensures BlocksAt(ws, at, blocks, i + 1)
  {
    forall j: nat | j < i + 1 ensures Stored(ws, at + 8 * j, blocks[j]) {
      if j < i { assert Stored(rs, at + 8 * j, blocks[j]); }
    }
  }

  method WriteBlocks(memory: Memory, at: nat, blocks: seq<seq<Byte>>) returns (ok: bool)
    requires Valid(memory.regions) && forall j :: 0 <= j < |blocks| ==> |blocks[j]| == 8
    modifies memory
    ensures Valid(memory.regions)
    ensures ok ==>
      BlocksAt(memory.regions, at, blocks, |blocks|) && Kept(old(memory.regions), memory.regions, at, at + 8 * |blocks|)
  {
    var i := 0;
    while i < |blocks|
      invariant i <= |blocks| && Valid(memory.regions)
      invariant BlocksAt(memory.regions, at, blocks, i) && Kept(old(memory.regions), memory.regions, at, at + 8 * i)
    {
      ghost var before := memory.regions;
      ok := memory.Write(at + 8 * i, blocks[i], {});
      if !ok { return; }
      WriteKept(before, at + 8 * i, blocks[i], {});
      BlockWritten(before, memory.regions, at, blocks, i);
      KeptUp(old(memory.regions), before, memory.regions, at, at + 8 * i, at + 8 * i + 8);
      i := i + 1;
    }
    ok := true;
  }

  /** The auxiliary vector. */
  function Auxv(entry: nat, platform: nat, random: nat, execfn: nat): (r: seq<(nat, nat)>)
    ensures |r| == 17 && r[6] == (15, platform) && r[9] == (25, random) && r[13] == (31, execfn)
    ensures entry <= ADDRESS_MAX && platform <= ADDRESS_MAX && random <= ADDRESS_MAX && execfn <= ADDRESS_MAX ==>
      PairsFit(r)
  {
    [(6, 4096), (9, entry), (11, 0), (12, 0), (13, 0), (14, 0), (15, platform), (16, 0), (17, 100), (25, random),
        (26, 0), (29, 0), (30, 0),
     (31, execfn), (33, 0), (51, 2048), (0, 0)]
  }

  predicate PairsFit(a: seq<(nat, nat)>) { forall i :: 0 <= i < |a| ==> a[i].0 <= ADDRESS_MAX && a[i].1 <= ADDRESS_MAX }

  function Pairs(a: seq<(nat, nat)>): (r: seq<nat>)
    ensures |r| == 2 * |a|
  {
    if a == [] then [] else [a[0].0, a[0].1] + Pairs(a[1..])
  }

  lemma {:induction false} PairsAt(a: seq<(nat, nat)>, k: nat)
    requires k < |a|
    ensures Pairs(a)[2 * k] == a[k].0 && Pairs(a)[2 * k + 1] == a[k].1
  {
    if k > 0 { PairsAt(a[1..], k - 1); }
  }

  lemma {:induction false} PairsBound(a: seq<(nat, nat)>, j: nat)
    requires PairsFit(a) && j < |Pairs(a)|
    ensures Pairs(a)[j] <= ADDRESS_MAX
  {
    if j >= 2 {
      assert forall i :: 0 <= i < |a[1..]| ==> a[1..][i] == a[i + 1];
      PairsBound(a[1..], j - 2);
    }
  }

  /** The frame: argc, argv, NULL, envp, NULL, auxv. */
  function Frame(argv: seq<nat>, env: seq<nat>, aux: seq<(nat, nat)>): seq<nat> {
    [|argv|] + argv + [0] + env + [0] + Pairs(aux)
  }

  /** Where everything went. */
  datatype Layout = Layout(execfn: nat, platform: nat, random: nat, env: seq<nat>, argv: seq<nat>,
                           aux: seq<(nat, nat)>, words: seq<nat>)

  function FirstArg(argv: seq<seq<Byte>>): seq<Byte> { if argv == [] then [] else argv[0] }

  /** The finished stack: the frame at an aligned pointer inside the stack, then the argument and
      environment strings, the random bytes, the platform and the program name, in this order and
      without overlap. */
  ghost predicate StackRight(rs: seq<Region>, sp: nat, base: nat, top: nat, argv: seq<seq<Byte>>, envp: seq<seq<Byte>>,
                             entry: nat, l: Layout) {
    && Valid(rs) && base <= sp && sp % 16 == 0 && l.aux == Auxv(entry, l.platform, l.random, l.execfn)
    && Laid(l.words, l.argv, l.env, l.aux) && WordsAt(rs, sp, l.words)
    && TextsRight(rs, Slot(sp, |l.words|), argv, envp, l)
    && FixedRight(rs, top, FirstArg(argv), l.execfn, l.platform, l.random)
  }

  ghost predicate TextsRight(rs: seq<Region>, low: nat, argv: seq<seq<Byte>>, envp: seq<seq<Byte>>, l: Layout) {
    && StringsAt(rs, l.argv, argv) && StringsAt(rs, l.env, envp)
    && exists lo: nat, mid: nat :: low <= lo && Packed(l.argv, argv, lo, mid) && Packed(l.env, envp, mid, l.random)
  }

  ghost predicate FixedRight(rs: seq<Region>, top: nat, name: seq<Byte>, execfn: nat, platform: nat, random: nat) {
    && Stored(rs, execfn, name + [0]) && Stored(rs, platform, LINX64 + [0]) && Stored(rs, random, RANDOM)
    && random + 16 == platform && platform + 7 == execfn && execfn + |name| + 1 == top
  }

  lemma FixedKept(rs: seq<Region>, ws: seq<Region>, top: nat, name: seq<Byte>, execfn: nat, platform: nat, random: nat,
                  lo: nat)
    requires FixedRight(rs, top, name, execfn, platform, random) && Kept(rs, ws, lo, random)
    ensures FixedRight(ws, top, name, execfn, platform, random)
  {
  }

  /** What stands where in a frame. */
  predicate Laid(w: seq<nat>, args: seq<nat>, env: seq<nat>, aux: seq<(nat, nat)>) {
    var n, m := |args|, |env|;
    && |w| == 3 + n + m + 2 * |aux| && w[0] == n && w[1 + n] == 0 && w[2 + n + m] == 0
    && (forall i :: 0 <= i < n ==> w[1 + i] == args[i]) && (forall i :: 0 <= i < m ==> w[2 + n + i] == env[i])
    && (forall k :: 0 <= k < |aux| ==> w[3 + n + m + 2 * k] == aux[k].0 && w[4 + n + m + 2 * k] == aux[k].1)
  }

  /** Address of the `i`-th word of a frame. */
  function Slot(sp: nat, i: nat): nat { sp + 8 * i }

  ghost predicate WordsAt(rs: seq<Region>, sp: nat, w: seq<nat>) {
    forall i: nat {:trigger WordAt(rs, Slot(sp, i), w[i])} :: i < |w| ==> WordAt(rs, Slot(sp, i), w[i])
  }

  /** The three fixed objects at the top of the stack. */
  method PushFixed(memory: Memory, top: nat, name: seq<Byte>) returns (r: Option<(nat, nat, nat)>)
    requires Valid(memory.regions)
    modifies memory
    ensures Valid(memory.regions)
    ensures r.Some? ==>
      var (execfn, platform, random) := r.value; FixedRight(memory.regions, top, name, execfn, platform, random)
  {
    var execfn := PushBytes(memory, top, name + [0]);
    if execfn.None? { return None; }
    var platform := PushBytes(memory, execfn.value, LINX64 + [0]);
    if platform.None? { return None; }
    var random := PushBytes(memory, platform.value, RANDOM);
    if random.None? { return None; }
    return Some((execfn.value, platform.value, random.value));
  }

  /** The environment strings, then the argument strings below them. */
  method PushBoth(memory: Memory, sp: nat, argv: seq<seq<Byte>>,
                  envp: seq<seq<Byte>>) returns (next: Option<nat>, args: seq<nat>, env: seq<nat>, ghost mid: nat)
    requires Valid(memory.regions)
    modifies memory
    ensures Valid(memory.regions)
    ensures next.Some? ==>
      && StringsAt(memory.regions, args, argv) && StringsAt(memory.regions, env, envp)
      && Packed(args, argv, next.value, mid) && Packed(env, envp, mid, sp)
      && next.value <= mid <= sp && Kept(old(memory.regions), memory.regions, next.value, sp)
  {
    args, mid := [], 0;
    var afterEnv;
    afterEnv, env := PushStrings(memory, sp, envp);
    if afterEnv.None? { return None, [], [], 0; }
    ghost var between := memory.regions;
    mid := afterEnv.value;
    next, args := PushStrings(memory, afterEnv.value, argv);
    if next.Some? {
      StringsKept(between, memory.regions, env, envp, mid, next.value, mid, sp);
      KeptDown(old(memory.regions), between, memory.regions, next.value, mid, sp);
    }
  }

  ghost predicate Fits(w: seq<nat>) { forall i :: 0 <= i < |w| ==> w[i] <= ADDRESS_MAX }

  lemma BlocksAreWords(rs: seq<Region>, sp: nat, w: seq<nat>, blocks: seq<seq<Byte>>)
    requires BlocksAt(rs, sp, blocks, |w|) && |blocks| == |w| && Fits(w) && forall i ::
      0 <= i < |w| ==> blocks[i] == Le(w[i], 8)
    ensures WordsAt(rs, sp, w)
  {
    forall i: nat | i < |w| ensures WordAt(rs, Slot(sp, i), w[i]) {
      assert Stored(rs, sp + 8 * i, blocks[i]);
      BlockIsWord(rs, sp + 8 * i, w[i]);
    }
  }

  /** Reserve and fill the frame below `sp`, aligned down to 16. */
  method WriteFrame(memory: Memory, sp: nat, base: nat, words: seq<nat>) returns (low: Option<nat>)
    requires Valid(memory.regions) && Fits(words)
    modifies memory
    ensures Valid(memory.regions)
    ensures low.Some? ==>
      && base <= low.value && low.value % 16 == 0 && Slot(low.value, |words|) <= sp
      && WordsAt(memory.regions, low.value, words) && Kept(old(memory.regions), memory.regions, low.value, sp)
  {
    if sp < 8 * |words| { return None; }
    var at := (sp - 8 * |words|) / 16 * 16;
    if at < base { return None; }
    ghost var before := memory.regions;
    var blocks := Blocks(words);
    var ok := WriteBlocks(memory, at, blocks);
    if !ok { return None; }
    KeptWider(before, memory.regions, at, at + 8 * |words|, sp);
    BlocksAreWords(memory.regions, at, words, blocks);
    return Some(at);
  }

  lemma FitsFrame(args: seq<nat>, env: seq<nat>, aux: seq<(nat, nat)>)
    requires |args| <= ADDRESS_MAX && PairsFit(aux) && Fits(args) && Fits(env)
    ensures Fits(Frame(args, env, aux))
  {
    var head := [|args|] + args + [0] + env + [0];
    forall i | 0 <= i < |Frame(args, env, aux)| ensures Frame(args, env, aux)[i] <= ADDRESS_MAX {
      if i >= |head| { PairsBound(aux, i - |head|); }
    }
  }

  lemma PackedFits(ptrs: seq<nat>, items: seq<seq<Byte>>, lo: nat, hi: nat)
    requires Packed(ptrs, items, lo, hi) && hi <= ADDRESS_MAX
    ensures Fits(ptrs) && |ptrs| == |items|
  {
    PackedBounds(ptrs, items, lo, hi, 0);
    forall i | 0 <= i < |ptrs| ensures ptrs[i] <= ADDRESS_MAX { PackedBounds(ptrs, items, lo, hi, i); }
  }

  method InitializeUserStack(memory: Memory, base: nat, top: nat, argv: seq<seq<Byte>>, envp: seq<seq<Byte>>,
                             entry: nat)
    returns (sp: Option<nat>, ghost l: Layout)
    requires Valid(memory.regions) && top <= ADDRESS_MAX && entry <= ADDRESS_MAX && |argv| <= ADDRESS_MAX
    modifies memory
    ensures Valid(memory.regions)
    ensures sp.Some? ==> StackRight(memory.regions, sp.value, base, top, argv, envp, entry, l)
  {
    l := Layout(0, 0, 0, [], [], [], []);
    var fixed := PushFixed(memory, top, FirstArg(argv));
    if fixed.None? { return None, l; }
    var (execfn, platform, random) := fixed.value;
    ghost var r0 := memory.regions;
    var next, args, env, mid := PushBoth(memory, random, argv, envp);
    if next.None? { return None, l; }
    ghost var r1 := memory.regions;
    var aux := Auxv(entry, platform, random, execfn);
    PackedFits(args, argv, next.value, mid);
    PackedFits(env, envp, mid, random);
    FitsFrame(args, env, aux);
    var words := Frame(args, env, aux);
    sp := WriteFrame(memory, next.value, base, words);
    if sp.Some? {
      ghost var r2 := memory.regions;
      StringsKept(r1, r2, args, argv, next.value, sp.value, next.value, mid);
      StringsKept(r1, r2, env, envp, next.value, sp.value, mid, random);
      KeptDown(r0, r1, r2, sp.value, next.value, random);
      FixedKept(r0, r2, top, FirstArg(argv), execfn, platform, random, sp.value);
      FrameLaid(args, env, aux);
      l := Layout(execfn, platform, random, env, args, aux, words);
    }
  }

  // -- The walk -----------------------------------------------------------------------------------

  /** The NUL-terminated string at `at`, as `read_c_string` finds it. */
  lemma StringReads(rs: seq<Region>, at: nat, text: seq<Byte>, max: nat)
    requires Valid(rs) && Stored(rs, at, text + [0]) && 0 !in text && |text| < max
    ensures CString(rs, at, max) == Some(text)
  {
    var bytes := text + [0];
    StoredReads(rs, at, bytes);
    forall i | 0 <= i < |bytes| - 1 ensures bytes[i] != 0 { assert bytes[i] == text[i] && text[i] in text; }
    CStringReads(rs, at, bytes, 0, max);
    assert bytes[0..|bytes| - 1] == text;
  }

  lemma FrameLaid(args: seq<nat>, env: seq<nat>, aux: seq<(nat, nat)>)
    ensures Laid(Frame(args, env, aux), args, env, aux)
  {
    var w, n, m := Frame(args, env, aux), |args|, |env|;
    forall k | 0 <= k < |aux| ensures w[3 + n + m + 2 * k] == aux[k].0 && w[4 + n + m + 2 * k] == aux[k].1 {
      FramePair(args, env, aux, k);
    }
  }

  lemma FramePair(args: seq<nat>, env: seq<nat>, aux: seq<(nat, nat)>, k: nat)
    requires k < |aux|
    ensures var w, at := Frame(args, env, aux), 3 + |args| + |env| + 2 * k;
      at + 1 < |w| && w[at] == aux[k].0 && w[at + 1] == aux[k].1
  {
    var head := [|args|] + args + [0] + env + [0];
    PairsAt(aux, k);
    assert Frame(args, env, aux) == head + Pairs(aux);
    assert (head + Pairs(aux))[|head| + 2 * k] == Pairs(aux)[2 * k];
    assert (head + Pairs(aux))[|head| + (2 * k + 1)] == Pairs(aux)[2 * k + 1];
  }

  /** The word at `at` points to `text`. */
  ghost predicate TextAt(rs: seq<Region>, at: nat, text: seq<Byte>, max: nat) {
    exists p: nat :: WordAt(rs, at, p) && CString(rs, p, max) == Some(text)
  }

  ghost predicate PairAt(rs: seq<Region>, at: nat, pair: (nat, nat)) {
    WordAt(rs, at, pair.0) && WordAt(rs, at + 8, pair.1)
  }

  lemma TextReads(rs: seq<Region>, sp: nat, w: seq<nat>, i: nat, text: seq<Byte>, max: nat)
    requires Valid(rs) && WordsAt(rs, sp, w) && i < |w| && Stored(rs, w[i], text + [0]) && 0 !in text && |text| < max
    ensures TextAt(rs, Slot(sp, i), text, max)
  {
    StringReads(rs, w[i], text, max);
    assert WordAt(rs, Slot(sp, i), w[i]);
  }

  lemma PairReads(rs: seq<Region>, sp: nat, w: seq<nat>, i: nat, pair: (nat, nat))
    requires WordsAt(rs, sp, w) && i + 1 < |w| && w[i] == pair.0 && w[i + 1] == pair.1
    ensures PairAt(rs, Slot(sp, i), pair)
  {
    assert WordAt(rs, Slot(sp, i), w[i]) && WordAt(rs, Slot(sp, i + 1), w[i + 1]);
  }

  ghost predicate Readable(texts: seq<seq<Byte>>, max: nat) {
    forall i :: 0 <= i < |texts| ==> 0 !in texts[i] && |texts[i]| < max
  }

  /** Words `from`, `from + 1`, ... point to the texts. */
  ghost predicate TextsAt(rs: seq<Region>, sp: nat, from: nat, texts: seq<seq<Byte>>, max: nat) {
    forall i: nat :: i < |texts| ==> TextAt(rs, Slot(sp, from + i), texts[i], max)
  }

  /** The words from `from` on are the pairs. */
  ghost predicate PairsAreAt(rs: seq<Region>, sp: nat, from: nat, aux: seq<(nat, nat)>) {
    forall k: nat :: k < |aux| ==> PairAt(rs, Slot(sp, from + 2 * k), aux[k])
  }

  lemma TextsRead(rs: seq<Region>, sp: nat, w: seq<nat>, from: nat, ptrs: seq<nat>, texts: seq<seq<Byte>>, max: nat)
    requires Valid(rs) && WordsAt(rs, sp, w) && from + |ptrs| <= |w| && StringsAt(rs, ptrs, texts)
      && Readable(texts, max)
    requires forall i :: 0 <= i < |ptrs| ==> w[from + i] == ptrs[i]
    ensures TextsAt(rs, sp, from, texts, max)
  {
    forall i: nat | i < |texts| ensures TextAt(rs, Slot(sp, from + i), texts[i], max) {
      assert w[from + i] == ptrs[i];
      TextReads(rs, sp, w, from + i, texts[i], max);
    }
  }

  lemma PairsRead(rs: seq<Region>, sp: nat, w: seq<nat>, args: seq<nat>, env: seq<nat>, aux: seq<(nat, nat)>, from: nat)
    requires WordsAt(rs, sp, w) && Laid(w, args, env, aux) && from == 3 + |args| + |env|
    ensures PairsAreAt(rs, sp, from, aux)
  {
    forall k: nat | k < |aux| ensures PairAt(rs, Slot(sp, from + 2 * k), aux[k]) {
      PairReads(rs, sp, w, from + 2 * k, aux[k]);
    }
  }

  /** argc, and the two NULL words behind argv and envp. */
  ghost predicate CountersAt(rs: seq<Region>, sp: nat, n: nat, m: nat) {
    WordAt(rs, sp, n) && WordAt(rs, Slot(sp, 1 + n), 0) && WordAt(rs, Slot(sp, 2 + n + m), 0)
  }

  lemma CountersRead(rs: seq<Region>, sp: nat, w: seq<nat>, args: seq<nat>, env: seq<nat>, aux: seq<(nat, nat)>,
                     n: nat, m: nat)
    requires WordsAt(rs, sp, w) && Laid(w, args, env, aux) && n == |args| && m == |env|
    ensures CountersAt(rs, sp, n, m)
  {
    assert WordAt(rs, Slot(sp, 0), w[0]);
    assert WordAt(rs, Slot(sp, 1 + n), w[1 + n]);
    assert WordAt(rs, Slot(sp, 2 + n + m), w[2 + n + m]);
  }

  lemma ArgumentsRead(rs: seq<Region>, sp: nat, w: seq<nat>, args: seq<nat>, env: seq<nat>, aux: seq<(nat, nat)>,
                      argv: seq<seq<Byte>>, max: nat)
    requires Valid(rs) && Laid(w, args, env, aux) && WordsAt(rs, sp, w) && StringsAt(rs, args, argv)
      && Readable(argv, max)
    ensures TextsAt(rs, sp, 1, argv, max)
  {
    TextsRead(rs, sp, w, 1, args, argv, max);
  }

  lemma EnvironmentRead(rs: seq<Region>, sp: nat, w: seq<nat>, args: seq<nat>, env: seq<nat>, aux: seq<(nat, nat)>,
                        envp: seq<seq<Byte>>, max: nat, from: nat)
    requires Valid(rs) && Laid(w, args, env, aux) && WordsAt(rs, sp, w) && StringsAt(rs, env, envp)
      && Readable(envp, max) && from == 2 + |args|
    ensures TextsAt(rs, sp, from, envp, max)
  {
    TextsRead(rs, sp, w, from, env, envp, max);
  }

  /** The walk from the stack pointer, part one: argc, and the two NULL words behind argv and envp. */
  lemma WalkCounters(rs: seq<Region>, sp: nat, base: nat, top: nat, argv: seq<seq<Byte>>, envp: seq<seq<Byte>>,
                     entry: nat, l: Layout)
    requires StackRight(rs, sp, base, top, argv, envp, entry, l)
    ensures CountersAt(rs, sp, |argv|, |envp|)
  {
    CountersRead(rs, sp, l.words, l.argv, l.env, l.aux, |argv|, |envp|);
  }

  /** Part two: every argument, through its pointer. */
  lemma WalkArguments(rs: seq<Region>, sp: nat, base: nat, top: nat, argv: seq<seq<Byte>>, envp: seq<seq<Byte>>,
                      entry: nat, l: Layout, max: nat)
    requires StackRight(rs, sp, base, top, argv, envp, entry, l) && Readable(argv, max)
    ensures TextsAt(rs, sp, 1, argv, max)
  {
    ArgumentsRead(rs, sp, l.words, l.argv, l.env, l.aux, argv, max);
  }

  /** Part three: every environment string. */
  lemma WalkEnvironment(rs: seq<Region>, sp: nat, base: nat, top: nat, argv: seq<seq<Byte>>, envp: seq<seq<Byte>>,
                        entry: nat, l: Layout, max: nat, from: nat)
    requires StackRight(rs, sp, base, top, argv, envp, entry, l) && Readable(envp, max) && from == 2 + |argv|
    ensures TextsAt(rs, sp, from, envp, max)
  {
    EnvironmentRead(rs, sp, l.words, l.argv, l.env, l.aux, envp, max, from);
  }

  /** Part four: every auxiliary pair. */
  lemma WalkAuxv(rs: seq<Region>, sp: nat, base: nat, top: nat, argv: seq<seq<Byte>>, envp: seq<seq<Byte>>, entry: nat,
                 l: Layout, from: nat)
    requires StackRight(rs, sp, base, top, argv, envp, entry, l) && from == 3 + |argv| + |envp|
    ensures PairsAreAt(rs, sp, from, l.aux)
  {
    PairsRead(rs, sp, l.words, l.argv, l.env, l.aux, from);
  }

  /** The pointers among the auxiliary pairs lead to the platform name, the 16 random bytes and the
      program name. */
  lemma AuxObjects(rs: seq<Region>, sp: nat, base: nat, top: nat, argv: seq<seq<Byte>>, envp: seq<seq<Byte>>,
                   entry: nat, l: Layout, max: nat)
    requires StackRight(rs, sp, base, top, argv, envp, entry, l) && 0 !in FirstArg(argv) && |FirstArg(argv)| < max
      && |LINX64| < max
    ensures l.aux[6] == (15, l.platform) && CString(rs, l.platform, max) == Some(LINX64)
    ensures l.aux[9] == (25, l.random) && ReadBytes(rs, l.random, |RANDOM|, {}) == Some(RANDOM)
    ensures l.aux[13] == (31, l.execfn) && CString(rs, l.execfn, max) == Some(FirstArg(argv))
  {
    StringReads(rs, l.platform, LINX64, max);
    StringReads(rs, l.execfn, FirstArg(argv), max);
    StoredReads(rs, l.random, RANDOM);
  }
}
