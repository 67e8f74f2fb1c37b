/**
 * The bump-pointer arena over its linked chain of blocks. Addresses are numbers; the system allocator is a
 * parameter that names a region disjoint from every region it handed out before.
 */
module Arena {
  import opened Bits

  // ---------------------------------------------------------------- what the arena is, as a value

  datatype Chunk = Chunk(addr: nat, size: nat, used: nat)

  /** What allocate handed out: an interval, the alignment asked for, and the place of its chunk. */
  datatype Grant = Grant(addr: nat, size: nat, alignment: nat, chunk: nat)

  /** The reachable chunks, the one being filled, the grants since the last reset, and chunks pushed off the chain. */
  datatype Model = Model(chunks: seq<Chunk>, at: nat, current: nat, granted: seq<Grant>, lost: seq<Chunk>)

  predicate Apart(a: nat, m: nat, b: nat, n: nat) {
    a + m <= b || b + n <= a
  }

  predicate AllApart(chunks: seq<Chunk>) {
    forall i, j :: 0 <= i < j < |chunks| ==> Apart(chunks[i].addr, chunks[i].size, chunks[j].addr, chunks[j].size)
  }

  function Granted(grants: seq<Grant>): nat {
    if grants == [] then 0 else Granted(grants[..|grants| - 1]) + grants[|grants| - 1].size
  }

  function Sizes(chunks: seq<Chunk>): nat {
    if chunks == [] then 0 else Sizes(chunks[..|chunks| - 1]) + chunks[|chunks| - 1].size
  }

  function Used(chunks: seq<Chunk>): nat {
    if chunks == [] then 0 else Used(chunks[..|chunks| - 1]) + chunks[|chunks| - 1].used
  }

  /** The end of what has been handed out in a chunk. */
  function Mark(m: Model, i: nat): nat
    requires i < |m.chunks|
  {
    if i == m.at then m.current else m.chunks[i].addr + m.chunks[i].used
  }

  predicate GrantOk(m: Model, g: Grant) {
    && PowerOfTwo(g.alignment) && g.addr % g.alignment == 0
    && g.chunk <= m.at && g.chunk < |m.chunks|
    && m.chunks[g.chunk].addr <= g.addr && g.addr + g.size <= Mark(m, g.chunk)
  }

  ghost predicate ChunksOk(m: Model) {
    && AllApart(m.chunks + m.lost)
    && (forall c :: c in m.chunks || c in m.lost ==> c.size > 0)
    && if m.chunks == [] then m.at == 0 && m.current == 0 && m.granted == []
       else
         && m.at < |m.chunks|
         && m.chunks[m.at].addr <= m.current <= m.chunks[m.at].addr + m.chunks[m.at].size
         && (forall i :: 0 <= i < m.at ==> m.chunks[i].used <= m.chunks[i].size)
         && (forall i :: m.at < i < |m.chunks| ==> m.chunks[i].used == 0)
  }

  predicate GrantsOk(m: Model) {
    && (forall g :: g in m.granted ==> GrantOk(m, g))
    && (forall i, j :: 0 <= i < j < |m.granted| ==>
          Apart(m.granted[i].addr, m.granted[i].size, m.granted[j].addr, m.granted[j].size))
  }

  ghost predicate Ok(m: Model) {
    ChunksOk(m) && GrantsOk(m) && Granted(m.granted) <= Bytes(m)
  }

  /** What bytes_allocated is to return. */
  ghost function Bytes(m: Model): nat
    requires ChunksOk(m)
  {
    if m.chunks == [] then 0 else Used(m.chunks[..m.at]) + (m.current - m.chunks[m.at].addr)
  }

  function Total(m: Model): nat {
    Sizes(m.chunks) + Sizes(m.lost)
  }

  // ---------------------------------------------------------------- the operations on values

  /** A grant in the current chunk. */
  function Bump(m: Model, addr: nat, size: nat, alignment: nat): Model {
    m.(current := addr + size,
       granted := if m.chunks == [] then m.granted else m.granted + [Grant(addr, size, alignment, m.at)])
  }

  /** The chunks once the current one has its mark recorded. */
  function Frozen(m: Model): (r: seq<Chunk>)
    requires m.chunks != [] ==> m.at < |m.chunks| && m.current >= m.chunks[m.at].addr
    ensures |r| == |m.chunks|
  {
    if m.chunks == [] then [] else m.chunks[m.at := m.chunks[m.at].(used := m.current - m.chunks[m.at].addr)]
  }

  /** A new chunk after the current one, whatever came after it before is lost. */
  function Extend(m: Model, region: nat, size: nat): Model
    requires m.chunks != [] ==> m.at < |m.chunks| && m.current >= m.chunks[m.at].addr
  {
    if m.chunks == [] then m.(chunks := [Chunk(region, size, 0)], at := 0, current := region)
    else
      m.(chunks := Frozen(m)[..m.at + 1] + [Chunk(region, size, 0)],
         at := m.at + 1, current := region, lost := m.lost + m.chunks[m.at + 1..])
  }

  function End(m: Model): nat
    requires m.chunks != [] ==> m.at < |m.chunks|
  {
    if m.chunks == [] then 0 else m.chunks[m.at].addr + m.chunks[m.at].size
  }

  function NewSize(size: nat, alignment: nat, blockSize: nat): nat {
    if blockSize >= size + alignment then blockSize else size + alignment
  }

  /** What allocate is to do: in the current chunk if the aligned request fits, else in a new one. */
  function Allocated(m: Model, size: nat, alignment: nat, region: nat, blockSize: nat): Model
    requires m.chunks != [] ==> m.at < |m.chunks| && m.current >= m.chunks[m.at].addr
    requires PowerOfTwo(alignment) && m.current + alignment < WORD && region + alignment < WORD
  {
    if AlignUp(m.current, alignment) + size <= End(m) then Bump(m, AlignUp(m.current, alignment), size, alignment)
    else Bump(Extend(m, region, NewSize(size, alignment, blockSize)), AlignUp(region, alignment), size, alignment)
  }

  function Emptied(chunks: seq<Chunk>): (r: seq<Chunk>)
    ensures |r| == |chunks|
  {
    seq(|chunks|, i requires 0 <= i < |chunks| => chunks[i].(used := 0))
  }

  function Rewind(m: Model): Model {
    if m.chunks == [] then m.(granted := [])
    else m.(chunks := Emptied(m.chunks), at := 0, current := m.chunks[0].addr, granted := [])
  }

  ghost predicate RegionFree(m: Model, region: nat, size: nat) {
    forall c :: c in m.chunks || c in m.lost ==> Apart(c.addr, c.size, region, size)
  }

  // ---------------------------------------------------------------- they keep the invariant

  lemma GrantedLast(grants: seq<Grant>, g: Grant)
    ensures Granted(grants + [g]) == Granted(grants) + g.size
  {
    assert (grants + [g])[..|grants|] == grants;
  }

  lemma {:induction false} SizesAppend(a: seq<Chunk>, b: seq<Chunk>)
    ensures Sizes(a + b) == Sizes(a) + Sizes(b)
    ensures Used(a + b) == Used(a) + Used(b)
  {
    if b == [] {
      assert a + b == a;
    } else {
      assert (a + b)[..|a + b| - 1] == a + b[..|b| - 1];
      SizesAppend(a, b[..|b| - 1]);
    }
  }

  lemma SizesOne(c: Chunk)
    ensures Sizes([c]) == c.size && Used([c]) == c.used
  {
    assert [c][..0] == [];
  }

  lemma {:induction false} UsedWithinSizes(chunks: seq<Chunk>)
    requires forall c :: c in chunks ==> c.used <= c.size
    ensures Used(chunks) <= Sizes(chunks)
  {
    if chunks != [] {
      UsedWithinSizes(chunks[..|chunks| - 1]);
    }
  }

  lemma {:induction false} PositiveSizes(chunks: seq<Chunk>)
    requires forall c :: c in chunks ==> c.size > 0
    ensures Sizes(chunks) == 0 <==> chunks == []
  {
  }

  predicate Untouched(m: Model) {
    |m.chunks| == |m.lost| == |m.granted| == m.at == m.current == 0
  }

  function NothingYet(): (m: Model)
    ensures Untouched(m)
  {
    Model([], 0, 0, [], [])
  }

  lemma EmptyOk(m: Model)
    requires Untouched(m)
    ensures Ok(m) && Total(m) == 0 && Granted(m.granted) == Bytes(m) == 0
  {
  }

  /** What a grant in the current chunk needs: an aligned interval between the mark and the end. */
  ghost predicate Fits(m: Model, addr: nat, size: nat, alignment: nat)
    requires ChunksOk(m)
  {
    && PowerOfTwo(alignment) && addr % alignment == 0 && m.current <= addr
    && if m.chunks == [] then addr + size == 0 else addr + size <= m.chunks[m.at].addr + m.chunks[m.at].size
  }

  lemma {:induction false} BumpKeeps(m: Model, addr: nat, size: nat, alignment: nat)
    requires Ok(m) && Fits(m, addr, size, alignment)
    ensures Ok(Bump(m, addr, size, alignment))
    ensures Bytes(Bump(m, addr, size, alignment)) >= Bytes(m) + size
           && Total(Bump(m, addr, size, alignment)) == Total(m)
  {
    hide GrantsOk, ChunksOk, Fits, Granted, Bytes, Total;
    BumpKeepsGrants(m, addr, size, alignment);
    BumpKeepsChunks(m, addr, size, alignment);
  }

  lemma {:induction false} BumpKeepsChunks(m: Model, addr: nat, size: nat, alignment: nat)
    requires ChunksOk(m) && Fits(m, addr, size, alignment)
    ensures ChunksOk(Bump(m, addr, size, alignment)) && Total(Bump(m, addr, size, alignment)) == Total(m)
    ensures Bytes(Bump(m, addr, size, alignment)) >= Bytes(m) + size
    ensures Granted(Bump(m, addr, size, alignment).granted) <= Granted(m.granted) + size
  {
    hide AllApart, PowerOfTwo;
    if m.chunks != [] {
      GrantedLast(m.granted, Grant(addr, size, alignment, m.at));
    }
  }

  lemma {:induction false} BumpKeepsGrants(m: Model, addr: nat, size: nat, alignment: nat)
    requires ChunksOk(m) && GrantsOk(m) && Fits(m, addr, size, alignment)
    ensures GrantsOk(Bump(m, addr, size, alignment))
  {
    hide PowerOfTwo;
    var m' := Bump(m, addr, size, alignment);
    forall o | o in m.granted
      ensures GrantOk(m', o) && Apart(o.addr, o.size, addr, size)
    {
      assert GrantOk(m, o);
      ChunksApart(m, o.chunk);
    }
  }

  lemma {:induction false} ChunksApart(m: Model, i: nat)
    requires ChunksOk(m) && i <= m.at < |m.chunks|
    ensures i < m.at ==> Apart(m.chunks[i].addr, m.chunks[i].size, m.chunks[m.at].addr, m.chunks[m.at].size)
  {
    if i < m.at {
      var all := m.chunks + m.lost;
      assert all[i] == m.chunks[i] && all[m.at] == m.chunks[m.at];
    }
  }

  predicate SamePlaces(a: seq<Chunk>, b: seq<Chunk>) {
    |a| == |b| && forall i :: 0 <= i < |a| ==> a[i].addr == b[i].addr && a[i].size == b[i].size
  }

  lemma {:induction false} SwapTails(a: seq<Chunk>, b: seq<Chunk>, c: seq<Chunk>, x: Chunk, a': seq<Chunk>)
    requires AllApart(a + b + c) && SamePlaces(a, a')
    requires forall y :: y in a || y in b || y in c ==> Apart(y.addr, y.size, x.addr, x.size)
    ensures AllApart(a' + [x] + (c + b))
  {
    var all, all' := a + b + c, a' + [x] + (c + b);
    forall i, j | 0 <= i < j < |all'|
      ensures Apart(all'[i].addr, all'[i].size, all'[j].addr, all'[j].size)
    {
      var p, q := Origin(i, |a|, |b|, |c|), Origin(j, |a|, |b|, |c|);
      if i != |a| {
        assert all[p].addr == all'[i].addr && all[p].size == all'[i].size;
        assert all[p] in a || all[p] in b || all[p] in c;
      }
      if j != |a| {
        assert all[q].addr == all'[j].addr && all[q].size == all'[j].size;
        assert all[q] in a || all[q] in b || all[q] in c;
      }
    }
  }

  /** Where position j of a + [x] + (c + b) comes from in a + b + c. */
  function Origin(j: nat, a: nat, b: nat, c: nat): int {
    if j <= a then j else if j <= a + c then j - 1 + b else j - 1 - c
  }

  lemma {:induction false} ExtendKeepsApart(m: Model, region: nat, size: nat)
    requires m.chunks != [] ==> m.at < |m.chunks| && m.current >= m.chunks[m.at].addr
    requires AllApart(m.chunks + m.lost) && RegionFree(m, region, size)
    ensures AllApart(Extend(m, region, size).chunks + Extend(m, region, size).lost)
  {
    var m' := Extend(m, region, size);
    var x := Chunk(region, size, 0);
    hide AllApart, Apart;
    if m.chunks == [] {
      assert m.chunks + m.lost == [] + [] + m.lost;
      SwapTails([], [], m.lost, x, []);
      assert m'.chunks + m'.lost == [] + [x] + (m.lost + []);
    } else {
      var a, b, a' := m.chunks[..m.at + 1], m.chunks[m.at + 1..], m'.chunks[..m.at + 1];
      assert m.chunks + m.lost == a + b + m.lost;
      SwapTails(a, b, m.lost, x, a');
      assert m'.chunks + m'.lost == a' + [x] + (m.lost + b);
    }
  }

  lemma {:induction false} ExtendKeepsChunks(m: Model, region: nat, size: nat)
    requires Ok(m) && size > 0 && RegionFree(m, region, size)
    ensures ChunksOk(Extend(m, region, size))
  {
    hide AllApart, GrantsOk, Granted, Bytes;
    ExtendKeepsApart(m, region, size);
    var m' := Extend(m, region, size);
    assert m.chunks != [] ==> forall i :: 0 <= i < m.at ==> m'.chunks[i] == m.chunks[i];
  }

  lemma {:induction false} SplicedSums(before: seq<Chunk>, c: Chunk, frozen: Chunk, rest: seq<Chunk>, x: Chunk,
                                       lost: seq<Chunk>)
    requires frozen.size == c.size
    ensures Sizes(before + [frozen] + [x]) + Sizes(lost + rest) == Sizes(before + [c] + rest) + Sizes(lost) + x.size
    ensures Used(before + [frozen]) == Used(before) + frozen.used
  {
    SizesOne(c);
    SizesOne(frozen);
    SizesOne(x);
    SizesAppend(before, [frozen]);
    SizesAppend(before + [frozen], [x]);
    SizesAppend(before, [c]);
    SizesAppend(before + [c], rest);
    SizesAppend(lost, rest);
  }

  lemma {:induction false} ExtendKeepsSums(m: Model, region: nat, size: nat)
    requires ChunksOk(m) && ChunksOk(Extend(m, region, size))
    ensures Bytes(Extend(m, region, size)) == Bytes(m)
    ensures Total(Extend(m, region, size)) == Total(m) + size
  {
    var m' := Extend(m, region, size);
    var x := Chunk(region, size, 0);
    if m.chunks == [] {
      SizesOne(x);
      assert m'.chunks[..0] == [];
    } else {
      var before, c, rest := m.chunks[..m.at], m.chunks[m.at], m.chunks[m.at + 1..];
      var frozen := c.(used := m.current - c.addr);
      assert Frozen(m)[..m.at + 1] == before + [frozen];
      assert m.chunks == before + [c] + rest;
      assert m'.chunks[..m'.at] == before + [frozen];
      hide Sizes, Used, ChunksOk;
      SplicedSums(before, c, frozen, rest, x, m.lost);
    }
  }

  lemma {:induction false} ExtendKeeps(m: Model, region: nat, size: nat)
    requires Ok(m) && size > 0 && RegionFree(m, region, size)
    ensures Ok(Extend(m, region, size)) && Bytes(Extend(m, region, size)) == Bytes(m)
    ensures Total(Extend(m, region, size)) == Total(m) + size
  {
    ExtendKeepsChunks(m, region, size);
    ExtendKeepsSums(m, region, size);
    ExtendKeepsGrants(m, region, size);
    hide Bytes, Total;
  }

  lemma {:induction false} ExtendKeepsGrants(m: Model, region: nat, size: nat)
    requires Ok(m)
    ensures GrantsOk(Extend(m, region, size))
  {
    var m' := Extend(m, region, size);
    assert forall g :: g in m.granted ==> GrantOk(m, g) && GrantOk(m', g);
  }

  /** The slow path: a new chunk with room for any alignment, then a grant in it. */
  lemma {:induction false} SlowKeeps(m: Model, region: nat, chunkSize: nat, size: nat, alignment: nat)
    requires Ok(m) && PowerOfTwo(alignment) && RegionFree(m, region, chunkSize)
    requires size + alignment <= chunkSize && region + chunkSize < WORD
    ensures ChunksOk(m) && (m.chunks != [] ==> m.at < |m.chunks| && m.current >= m.chunks[m.at].addr)
    ensures var m' := Bump(Extend(m, region, chunkSize), AlignUp(region, alignment), size, alignment);
      && Ok(m') && Bytes(m') >= Bytes(m) + size && Total(m') == Total(m) + chunkSize
      && m'.at == |m'.chunks| - 1 && m'.chunks == Extend(m, region, chunkSize).chunks
      && m'.granted == m.granted + [Grant(AlignUp(region, alignment), size, alignment, m'.at)]
  {
    ExtendKeeps(m, region, chunkSize);
    BumpKeeps(Extend(m, region, chunkSize), AlignUp(region, alignment), size, alignment);
    hide Ok, Bytes, Total;
  }

  lemma {:induction false} RewindKeeps(m: Model)
    requires Ok(m)
    ensures Ok(Rewind(m)) && Bytes(Rewind(m)) == 0 && Rewind(m).granted == []
    ensures Total(Rewind(m)) == Total(m)
  {
    var m' := Rewind(m);
    var all, all' := m.chunks + m.lost, m'.chunks + m'.lost;
    assert forall i :: 0 <= i < |all| ==> all'[i].addr == all[i].addr && all'[i].size == all[i].size;
    assert forall c :: c in m'.chunks ==> exists i :: 0 <= i < |m.chunks| && c == m.chunks[i].(used := 0);
    EmptiedSizes(m.chunks);
    if m.chunks != [] {
      assert m'.chunks[..0] == [];
    }
  }

  lemma {:induction false} EmptiedSizes(chunks: seq<Chunk>)
    ensures Sizes(Emptied(chunks)) == Sizes(chunks)
  {
    if chunks != [] {
      assert Emptied(chunks)[..|chunks| - 1] == Emptied(chunks[..|chunks| - 1]);
      EmptiedSizes(chunks[..|chunks| - 1]);
    }
  }

  // ---------------------------------------------------------------- what the invariant gives

  /** An interval granted since the last reset is aligned and lies in one chunk. */
  lemma {:induction false} GrantIsSafe(m: Model, g: Grant)
    requires Ok(m) && g in m.granted
    ensures g.alignment > 0 && g.addr % g.alignment == 0
    ensures exists c :: c in m.chunks && c.addr <= g.addr && g.addr + g.size <= c.addr + c.size
  {
    assert GrantOk(m, g);
    assert m.chunks[g.chunk] in m.chunks;
  }

  /** bytes_allocated covers the sizes granted and never exceeds the memory obtained: bytes_wasted cannot underflow. */
  lemma {:induction false} BytesWithinTotal(m: Model)
    requires Ok(m)
    ensures Granted(m.granted) <= Bytes(m) <= Sizes(m.chunks) <= Total(m)
  {
    if m.chunks != [] {
      var before, c := m.chunks[..m.at], m.chunks[m.at];
      assert forall i :: 0 <= i < m.at ==> before[i] == m.chunks[i];
      UsedWithinSizes(before);
      assert m.chunks == before + [c] + m.chunks[m.at + 1..];
      SizesAppend(before + [c], m.chunks[m.at + 1..]);
      SizesAppend(before, [c]);
      SizesOne(c);
    }
  }

  /** Chaining a block drops the blocks behind the current one: none is dropped exactly when it is the last. */
  lemma {:induction false} ExtendLoses(m: Model, region: nat, size: nat)
    requires ChunksOk(m)
    ensures Extend(m, region, size).lost == m.lost <==> m.chunks == [] || m.at == |m.chunks| - 1
  {
    if m.chunks != [] {
      assert |Extend(m, region, size).lost| == |m.lost| + (|m.chunks| - m.at - 1);
    }
  }

  /** So after a reset of several blocks, the next block leaves memory that the destructor never reaches. */
  lemma {:induction false} ResetThenGrowLeaks(m: Model, region: nat, size: nat)
    requires Ok(m) && size > 0 && RegionFree(m, region, size) && |m.chunks| > 1
    ensures ChunksOk(Rewind(m)) && Sizes(Extend(Rewind(m), region, size).chunks) < Total(m) + size
  {
    RewindKeeps(m);
    var r := Rewind(m);
    forall c | c in r.chunks || c in r.lost
      ensures Apart(c.addr, c.size, region, size)
    {
      assert c in r.lost || exists i :: 0 <= i < |m.chunks| && c == m.chunks[i].(used := 0);
    }
    hide Ok, ChunksOk, Emptied, Rewind, Sizes, RegionFree;
    LeakHelper(r, region, size);
  }

  lemma {:induction false} LeakHelper(m: Model, region: nat, size: nat)
    requires Ok(m) && size > 0 && RegionFree(m, region, size) && m.chunks != [] && m.at < |m.chunks| - 1
    ensures Sizes(Extend(m, region, size).chunks) < Total(m) + size
  {
    ExtendKeeps(m, region, size);
    ExtendLoses(m, region, size);
    PositiveSizes(Extend(m, region, size).lost);
  }

  // ---------------------------------------------------------------- every run

  datatype Op = Take(size: nat, alignment: nat, region: nat) | Reset

  /** What the source asks of the caller, and of malloc. */
  ghost predicate Legal(m: Model, op: Op, blockSize: nat) {
    op.Take? ==>
      && PowerOfTwo(op.alignment)
      && m.current + op.alignment + op.size < WORD && op.region + NewSize(op.size, op.alignment, blockSize) < WORD
      && RegionFree(m, op.region, NewSize(op.size, op.alignment, blockSize))
  }

  ghost function Do(m: Model, op: Op, blockSize: nat): Model
    requires Ok(m) && Legal(m, op, blockSize)
  {
    match op
    case Reset => Rewind(m)
    case Take(size, alignment, region) => Allocated(m, size, alignment, region, blockSize)
  }

  lemma OkShape(m: Model)
    requires ChunksOk(m)
    ensures m.chunks != [] ==> m.at < |m.chunks| && m.current >= m.chunks[m.at].addr
    ensures m.chunks == [] ==> m.current == 0
  {
  }

  /**
   * allocate keeps the invariant, never shrinks bytes_allocated, and records the interval it returns; 0 bytes of no
   * block is null.
   */
  lemma {:induction false} TakeKeeps(m: Model, size: nat, alignment: nat, region: nat, blockSize: nat)
    requires Ok(m) && Legal(m, Take(size, alignment, region), blockSize)
    ensures ChunksOk(m) && (m.chunks != [] ==> m.at < |m.chunks| && m.current >= m.chunks[m.at].addr)
    ensures var m' := Allocated(m, size, alignment, region, blockSize);
      && Ok(m') && Bytes(m') >= Bytes(m) + size && Total(m') >= Total(m)
      && if m.chunks == [] && size == 0 then m' == m
         else m'.granted == m.granted + [Grant(m'.current - size, size, alignment, m'.at)]
  {
    hide Ok, ChunksOk, GrantsOk, Granted, Bytes, Total, RegionFree, PowerOfTwo, AlignUp;
    OkGivesChunks(m);
    OkShape(m);
    AlignUpZero(alignment);
    if AlignUp(m.current, alignment) + size <= End(m) {
      FastKeeps(m, size, alignment);
    } else {
      SlowKeeps(m, region, NewSize(size, alignment, blockSize), size, alignment);
    }
  }

  lemma OkGivesChunks(m: Model)
    requires Ok(m)
    ensures ChunksOk(m)
  {
  }

  /** The fast path: a grant in the current block; without one, only a request of 0 bytes gets here. */
  lemma {:induction false} FastKeeps(m: Model, size: nat, alignment: nat)
    requires Ok(m) && PowerOfTwo(alignment) && m.current + alignment < WORD
    requires m.chunks != [] ==> m.at < |m.chunks|
    requires AlignUp(m.current, alignment) + size <= End(m)
    ensures var m' := Bump(m, AlignUp(m.current, alignment), size, alignment);
      && Ok(m') && Bytes(m') >= Bytes(m) + size && Total(m') == Total(m)
      && (m.chunks == [] ==> m' == m && size == 0)
  {
    hide GrantsOk, Granted, Bytes, Total, PowerOfTwo, AlignUp;
    BumpKeeps(m, AlignUp(m.current, alignment), size, alignment);
  }

  /** The interval starts at the least aligned place from the mark on, in a new block exactly when it does not fit. */
  lemma {:induction false} TakesFirstFit(m: Model, size: nat, alignment: nat, region: nat, blockSize: nat)
    requires Ok(m) && Legal(m, Take(size, alignment, region), blockSize)
    ensures ChunksOk(m) && (m.chunks != [] ==> m.at < |m.chunks| && m.current >= m.chunks[m.at].addr)
    ensures var m' := Allocated(m, size, alignment, region, blockSize);
      var fits := AlignUp(m.current, alignment) + size <= End(m);
      && (fits ==> m'.chunks == m.chunks && m'.current == AlignUp(m.current, alignment) + size)
      && (!fits ==> m'.chunks != [] && m'.chunks[|m'.chunks| - 1].addr == region
                    && m'.chunks[|m'.chunks| - 1].size == NewSize(size, alignment, blockSize)
                    && m'.current == AlignUp(region, alignment) + size)
      && (Total(m') == Total(m) <==> fits)
  {
    hide Ok, ChunksOk, GrantsOk, Granted, Bytes, Total, RegionFree, PowerOfTwo, AlignUp;
    OkGivesChunks(m);
    OkShape(m);
    AlignUpZero(alignment);
    if AlignUp(m.current, alignment) + size <= End(m) {
      FastKeeps(m, size, alignment);
    } else {
      SlowKeeps(m, region, NewSize(size, alignment, blockSize), size, alignment);
    }
  }

  /** A run from an arena that holds nothing; a call the contract forbids is not made. */
  ghost function Run(ops: seq<Op>, blockSize: nat): Model {
    if ops == [] then NothingYet()
    else
      var m := Run(ops[..|ops| - 1], blockSize);
      var op := ops[|ops| - 1];
      if Ok(m) && Legal(m, op, blockSize) then Do(m, op, blockSize) else m
  }

  lemma {:induction false} RunKeeps(ops: seq<Op>, blockSize: nat)
    ensures Ok(Run(ops, blockSize))
  {
    hide Ok, Legal, Do;
    if ops == [] {
      EmptyOk(NothingYet());
    } else {
      var m, op := Run(ops[..|ops| - 1], blockSize), ops[|ops| - 1];
      RunKeeps(ops[..|ops| - 1], blockSize);
      if Legal(m, op, blockSize) {
        DoKeeps(m, op, blockSize);
      }
    }
  }

  lemma {:induction false} DoKeeps(m: Model, op: Op, blockSize: nat)
    requires Ok(m) && Legal(m, op, blockSize)
    ensures Ok(Do(m, op, blockSize))
  {
    if op.Reset? {
      RewindKeeps(m);
    } else {
      TakeKeeps(m, op.size, op.alignment, op.region, blockSize);
    }
    hide Ok, Bytes, Total;
  }

  /** Over every run of allocate and reset: aligned, inside one chunk, pairwise disjoint, and accounted for. */
  lemma {:induction false} EveryRunIsSafe(ops: seq<Op>, blockSize: nat)
    ensures var m := Run(ops, blockSize);
      && (forall i, j :: 0 <= i < j < |m.granted| ==>
            Apart(m.granted[i].addr, m.granted[i].size, m.granted[j].addr, m.granted[j].size))
      && (forall g :: g in m.granted ==>
            && g.alignment > 0 && g.addr % g.alignment == 0
            && exists c :: c in m.chunks && c.addr <= g.addr && g.addr + g.size <= c.addr + c.size)
      && ChunksOk(m) && Granted(m.granted) <= Bytes(m) <= Total(m)
  {
    var m := Run(ops, blockSize);
    RunKeeps(ops, blockSize);
    BytesWithinTotal(m);
    forall g | g in m.granted
      ensures g.alignment > 0 && g.addr % g.alignment == 0
      ensures exists c :: c in m.chunks && c.addr <= g.addr && g.addr + g.size <= c.addr + c.size
    {
      GrantIsSafe(m, g);
    }
    hide Ok, Bytes, Total, Granted, Sizes, Run;
    assert GrantsOk(m);
  }

  // ---------------------------------------------------------------- what a run loses

  /** An allocation that takes the slow path while the current block is not the last of its chain. */
  ghost predicate Drops(m: Model, op: Op, blockSize: nat) {
    && Ok(m) && op.Take? && Legal(m, op, blockSize)
    && m.chunks != [] && m.at < |m.chunks| - 1 && AlignUp(m.current, op.alignment) + op.size > End(m)
  }

  ghost predicate NeverDrops(ops: seq<Op>, blockSize: nat) {
    ops == []
    || (NeverDrops(ops[..|ops| - 1], blockSize) && !Drops(Run(ops[..|ops| - 1], blockSize), ops[|ops| - 1], blockSize))
  }

  lemma {:induction false} DoLoses(m: Model, op: Op, blockSize: nat)
    requires Ok(m) && Legal(m, op, blockSize)
    ensures m.lost <= Do(m, op, blockSize).lost
    ensures Do(m, op, blockSize).lost == m.lost <==> !Drops(m, op, blockSize)
  {
    if op.Take? {
      ExtendLoses(m, op.region, NewSize(op.size, op.alignment, blockSize));
    }
  }

  /** Over any run, every block stays reachable exactly when no allocation drops one. */
  lemma {:induction false} RunLoses(ops: seq<Op>, blockSize: nat)
    ensures Run(ops, blockSize).lost == [] <==> NeverDrops(ops, blockSize)
  {
    hide Ok, Legal, Do;
    if ops != [] {
      var before, op := ops[..|ops| - 1], ops[|ops| - 1];
      RunLoses(before, blockSize);
      RunKeeps(before, blockSize);
      if Legal(Run(before, blockSize), op, blockSize) {
        DoLoses(Run(before, blockSize), op, blockSize);
      }
    }
  }

  // ---------------------------------------------------------------- a run that leaks

  lemma RunMore(ops: seq<Op>, op: Op, blockSize: nat)
    requires Ok(Run(ops, blockSize)) && Legal(Run(ops, blockSize), op, blockSize)
    ensures Run(ops + [op], blockSize) == Do(Run(ops, blockSize), op, blockSize)
  {
    assert (ops + [op])[..|ops|] == ops;
  }

  /** A legal allocation that does not fit the current chunk of m, at a region that is aligned already. */
  lemma {:induction false} RunGrows(ops: seq<Op>, blockSize: nat, size: nat, alignment: nat, region: nat)
    requires var m := Run(ops, blockSize);
      && Ok(m) && Legal(m, Take(size, alignment, region), blockSize)
      && (m.chunks != [] ==> m.at < |m.chunks| && m.current >= m.chunks[m.at].addr)
      && m.current + size > End(m) && region % alignment == 0
    ensures Run(ops + [Take(size, alignment, region)], blockSize)
         == Bump(Extend(Run(ops, blockSize), region, NewSize(size, alignment, blockSize)), region, size, alignment)
  {
    RunMore(ops, Take(size, alignment, region), blockSize);
    hide Run, Ok, ChunksOk, PowerOfTwo, RegionFree;
    AlignUpFixes(region, alignment);
  }

  lemma EightIsPowerOfTwo()
    ensures PowerOfTwo(8)
  {
  }

  /** After two allocations of 40 with blocks of 64: the first block frozen, the second being filled. */
  function TwoBlocks(): Model {
    Model([Chunk(1000, 64, 40), Chunk(2000, 64, 0)], 1, 2040, [Grant(1000, 40, 8, 0), Grant(2000, 40, 8, 1)], [])
  }

  lemma {:induction false} ReachesTwoBlocks() returns (ops: seq<Op>)
    ensures Run(ops, 64) == TwoBlocks()
  {
    hide Ok, PowerOfTwo;
    EightIsPowerOfTwo();
    ops := [];
    RunKeeps(ops, 64);
    RunGrows(ops, 64, 40, 8, 1000);
    ops := ops + [Take(40, 8, 1000)];
    assert Run(ops, 64) == Model([Chunk(1000, 64, 0)], 0, 1040, [Grant(1000, 40, 8, 0)], []);
    RunKeeps(ops, 64);
    RunGrows(ops, 64, 40, 8, 2000);
    ops := ops + [Take(40, 8, 2000)];
  }

  lemma SizesOfThree(c: Chunk, d: Chunk, e: Chunk)
    ensures Sizes([c, d]) == c.size + d.size
    ensures forall m: Model :: m.chunks == [c, d] && m.lost == [e] ==> Total(m) == c.size + d.size + e.size
  {
    SizesOne(c);
    SizesOne(d);
    SizesOne(e);
    SizesAppend([c], [d]);
    assert [c, d] == [c] + [d];
  }

  function Leaked(): Model {
    Model([Chunk(1000, 64, 0), Chunk(3000, 108, 0)], 1, 3100, [Grant(3000, 100, 8, 1)], [Chunk(2000, 64, 0)])
  }

  lemma {:induction false} ReachesLeaked() returns (ops: seq<Op>)
    ensures Run(ops, 64) == Leaked()
  {
    hide Ok, PowerOfTwo;
    EightIsPowerOfTwo();
    ops := ReachesTwoBlocks();
    RunKeeps(ops, 64);
    RunMore(ops, Reset, 64);
    ops := ops + [Reset];
    assert Run(ops, 64) == Model([Chunk(1000, 64, 0), Chunk(2000, 64, 0)], 0, 1000, [], []);
    RunKeeps(ops, 64);
    RunGrows(ops, 64, 100, 8, 3000);
    ops := ops + [Take(100, 8, 3000)];
  }

  /** Two blocks, a reset, then an allocation too big for the first block: the second is no longer reachable. */
  lemma {:induction false} FourCallsLeak() returns (ops: seq<Op>)
    ensures var m := Run(ops, 64); m.lost == [Chunk(2000, 64, 0)] && Sizes(m.chunks) == 172 && Total(m) == 236
  {
    hide Run, Sizes, Total;
    ops := ReachesLeaked();
    SizesOfThree(Chunk(1000, 64, 0), Chunk(3000, 108, 0), Chunk(2000, 64, 0));
  }

  // ---------------------------------------------------------------- the class

  class Block {
    const addr: nat  // of the data bytes
    const size: nat
    var used: nat
    var next: Block?

    constructor (addr: nat, size: nat)
      ensures this.addr == addr && this.size == size && used == 0 && next == null
    {
      this.addr, this.size, used, next := addr, size, 0, null;
    }
  }

  predicate Distinct(chain: seq<Block>) {
    forall i, j :: 0 <= i < j < |chain| ==> chain[i] != chain[j]
  }

  predicate Linked(chain: seq<Block>)
    reads chain
  {
    forall i {:trigger chain[i].next} :: 0 <= i < |chain| ==>
              chain[i].next == if i + 1 < |chain| then chain[i + 1] else null
  }

  predicate Mirrors(chain: seq<Block>, chunks: seq<Chunk>)
    reads chain
  {
    && |chain| == |chunks|
    && forall i :: 0 <= i < |chain| ==>
         chain[i].addr == chunks[i].addr && chain[i].size == chunks[i].size && chain[i].used == chunks[i].used
  }

  class Allocator {
    var current: nat
    var end: nat
    var head: Block?
    var first: Block?
    const blockSize: nat
    var totalAllocated: nat

    ghost var model: Model
    ghost var chain: seq<Block>  // the blocks reachable from first

    /** Every field says what the model says. */
    ghost predicate Fields()
      reads this
    {
      && current == model.current
      && totalAllocated == Total(model)
      && if chain == [] then first == null && head == null && end == 0
         else model.at < |chain| && first == chain[0] && head == chain[model.at] && end == head.addr + head.size
    }

    /** The fields and the links say what the model says. */
    ghost predicate Represents()
      reads this, chain
    {
      Distinct(chain) && Linked(chain) && Mirrors(chain, model.chunks) && Fields()
    }

    ghost predicate Valid()
      reads this, chain
    {
      Represents() && Ok(model)
    }

    constructor (blockSize: nat)
      ensures Valid() && Untouched(model) && this.blockSize == blockSize && chain == []
    {
      hide Ok, ChunksOk, GrantsOk, Total, Sizes, Used, Granted, NothingYet;
      this.blockSize := blockSize;
      current, end, head, first, totalAllocated := 0, 0, null, null, 0;
      model, chain := NothingYet(), [];
      new;
      EmptyOk(model);
    }

    /** region is where the system allocator would place the next block. */
    method Allocate(size: nat, alignment: nat, region: nat) returns (addr: nat)
      requires Valid() && Legal(model, Take(size, alignment, region), blockSize)
      modifies this, chain
      ensures Valid() && forall b :: b in chain ==> b in old(chain) || fresh(b)
      ensures model == Allocated(old(model), size, alignment, region, blockSize)
      ensures if old(chain) == [] && size == 0 then addr == 0 && model == old(model)
              else model.granted == old(model.granted) + [Grant(addr, size, alignment, model.at)]
      ensures Bytes(model) >= old(Bytes(model)) + size
    {
      hide Ok, ChunksOk, GrantsOk, RegionFree, Bytes, Sizes, Linked, Distinct;
      TakeKeeps(model, size, alignment, region, blockSize);
      var aligned := AlignUp(current, alignment);
      var next := aligned + size;
      if next <= end {
        current := next;
        model := Bump(model, aligned, size, alignment);
        addr := aligned;
      } else {
        addr := AllocateSlow(size, alignment, region);
      }
    }

    method AllocateSlow(size: nat, alignment: nat, region: nat) returns (addr: nat)
      requires Valid() && PowerOfTwo(alignment)
      requires region + NewSize(size, alignment, blockSize) < WORD
      requires RegionFree(model, region, NewSize(size, alignment, blockSize))
      modifies this, chain
      ensures Valid() && forall b :: b in chain ==> b in old(chain) || fresh(b)
      ensures addr == AlignUp(region, alignment)
      ensures model == Bump(Extend(old(model), region, NewSize(size, alignment, blockSize)), addr, size, alignment)
      ensures Bytes(model) >= old(Bytes(model)) + size
    {
      hide Ok, ChunksOk, GrantsOk, RegionFree, Bytes, Total, Sizes, Used, Granted, Extend, PowerOfTwo, AllApart;
      hide Frozen, Linked, Distinct, Mirrors;
      SlowKeeps(model, region, NewSize(size, alignment, blockSize), size, alignment);
      ghost var extended := Extend(model, region, NewSize(size, alignment, blockSize));
      RecordMark();
      var block := AllocateBlock(size + alignment, region);
      addr := AlignUp(block.addr, alignment);
      current := addr + size;
      end := block.addr + block.size;
      model := Bump(extended, addr, size, alignment);
      assert Fields();
    }

    /** The mark of the block about to be left. */
    method RecordMark()
      requires Valid()
      modifies chain`used
      ensures Linked(chain) && Mirrors(chain, Frozen(model))
    {
      if head != null {
        head.used := current - head.addr;
      }
    }

    /** Obtains a block and links it in after head, overwriting head's link. */
    method AllocateBlock(minSize: nat, region: nat) returns (block: Block)
      requires model.chunks != [] ==> model.at < |model.chunks| && model.current >= model.chunks[model.at].addr
      requires head == null <==> chain == []
      requires head != null ==> model.at < |chain| && head == chain[model.at]
      requires first == if chain == [] then null else chain[0]
      requires |chain| == |model.chunks| && Distinct(chain) && Linked(chain) && Mirrors(chain, Frozen(model))
      modifies this`head, this`first, this`totalAllocated, this`chain, this`model
      modifies if head == null then {} else {head}
      ensures head == block && fresh(block)
      ensures block.addr == region && block.size == (if blockSize >= minSize then blockSize else minSize)
      ensures block.used == 0 && block.next == null
      ensures model == Extend(old(model), region, block.size)
      ensures chain == old(chain[..if chain == [] then 0 else model.at + 1]) + [block]
      ensures first == chain[0] && model.at == |chain| - 1
      ensures Distinct(chain) && Linked(chain) && Mirrors(chain, model.chunks)
      ensures totalAllocated == old(totalAllocated) + block.size
    {
      var size := if blockSize >= minSize then blockSize else minSize;
      block := new Block(region, size);
      if first == null {
        first := block;
        chain := [block];
      } else {
        head.next := block;
        chain := chain[..model.at + 1] + [block];
      }
      head := block;
      totalAllocated := totalAllocated + size;
      model := Extend(model, region, size);
    }

    method Reset()
      requires Valid()
      modifies this, chain
      ensures Valid() && model == Rewind(old(model)) && chain == old(chain)
    {
      hide Ok, ChunksOk, GrantsOk, Total, Sizes, Used, Granted, Linked, Distinct, Emptied;
      RewindKeeps(model);
      if first != null {
        ClearMarks();
        head := first;
        current := head.addr;
        end := head.addr + head.size;
      }
      model := Rewind(model);
      assert Fields();
    }

    method ClearMarks()
      requires Distinct(chain) && Linked(chain) && Mirrors(chain, model.chunks)
      requires first == if chain == [] then null else chain[0]
      modifies chain`used
      ensures Linked(chain) && Mirrors(chain, Emptied(model.chunks))
    {
      var curr := first;
      ghost var i := 0;
      while curr != null
        modifies chain`used
        invariant Linked(chain)
        invariant i <= |chain| && curr == if i < |chain| then chain[i] else null
        invariant forall k :: 0 <= k < i ==> chain[k].used == 0
        decreases |chain| - i
      {
        curr.used := 0;
        curr := curr.next;
        assert curr == if i + 1 < |chain| then chain[i + 1] else null;
        i := i + 1;
      }
    }

    method BytesAllocated() returns (total: nat)
      requires Valid()
      ensures total == Bytes(model)
    {
      total := 0;
      var curr := first;
      ghost var i := 0;
      while curr != null
        invariant i <= |chain| && curr == if i < |chain| then chain[i] else null
        invariant total == if i <= model.at then Used(model.chunks[..i]) else Bytes(model)
        decreases |chain| - i
      {
        assert model.chunks[..i + 1][..i] == model.chunks[..i];
        if curr == head {
          total := total + (current - curr.addr);
        } else {
          total := total + curr.used;
        }
        curr := curr.next;
        i := i + 1;
      }
    }

    method BytesWasted() returns (n: nat)
      requires Valid()
      ensures n == totalAllocated - Bytes(model)
    {
      BytesWithinTotal(model);
      var b := BytesAllocated();
      n := totalAllocated - b;
    }

    /** The destructor: it frees every byte ever obtained exactly when no block was pushed off the chain. */
    method Destroy() returns (freed: seq<Block>, ghost bytes: nat)
      requires Valid()
      ensures freed == chain && bytes == Sizes(model.chunks)
      ensures bytes == totalAllocated <==> model.lost == []
    {
      freed := [];
      var curr := first;
      while curr != null
        invariant |freed| <= |chain| && freed == chain[..|freed|]
        invariant curr == if |freed| < |chain| then chain[|freed|] else null
        decreases |chain| - |freed|
      {
        var next := curr.next;
        assert next == if |freed| + 1 < |chain| then chain[|freed| + 1] else null;
        freed := freed + [curr];
        assert next == if |freed| < |chain| then chain[|freed|] else null;
        curr := next;
      }
      bytes := Sizes(model.chunks);
      PositiveSizes(model.lost);
    }
  }
}
