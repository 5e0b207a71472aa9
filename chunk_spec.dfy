/**
 * Chunk headers of the heap and the header writes done by the bookkeeping
 * primitives of libc/src/stdlib/malloc-util.c, as functions over a map from
 * byte address to header.  `h` stands for sizeof(Chunk), which depends on the
 * target's pointer width and is kept abstract (0 < h <= PageSize).
 */
module ChunkSpec {
  import opened Wrappers

  /** PAGESIZE of the x86 targets. */
  const PageSize: nat := 4096

  /** The MAGIC_* tags a header can carry. */
  datatype Magic = BigChunk | FreeChunk | UsedChunk | EndChunk

  /** One `Chunk` header: tag, size and the two links (NULL is None). */
  datatype Header = Header(magic: Magic, size: nat, prev: Option<nat>, next: Option<nat>)

  /** The header stored at each address that has one. */
  type Memory = map<nat, Header>

  /** A chunk that holds payload (as opposed to a region header or an END sentinel). */
  predicate IsPayload(m: Magic) {
    m == FreeChunk || m == UsedChunk
  }

  // ---------------------------------------------------------------------------
  // Region sizing

  /** alignUp(x, PAGESIZE): the least multiple of the page size that is at least `x`. */
  function AlignUp(x: nat): (r: nat)
    ensures r % PageSize == 0
    ensures x <= r < x + PageSize
  {
    if x % PageSize == 0 then x else x + (PageSize - x % PageSize)
  }

  /** The size `__allocateBigChunk` gives a new region for a request of `request` bytes. */
  function RegionSize(request: nat, h: nat): (r: nat)
    ensures r % PageSize == 0
    ensures r >= 4 * PageSize && r >= request + 2 * h
    ensures r == 4 * PageSize || r < request + 2 * h + PageSize
  {
    var aligned := AlignUp(request + 2 * h);
    if aligned < 4 * PageSize then 4 * PageSize else aligned
  }

  /** No smaller page multiple meets both lower bounds. */
  lemma RegionSizeIsLeast(request: nat, h: nat, m: nat)
    requires m % PageSize == 0 && m >= 4 * PageSize && m >= request + 2 * h
    ensures RegionSize(request, h) <= m
  {
  }

  // ---------------------------------------------------------------------------
  // The static registry head

  /** `emptyBigChunk`: a BIG header of size 2*sizeof(Chunk) followed by an END chunk, both unlinked. */
  function InitialMemory(base: nat, h: nat): (r: Memory)
    requires h > 0
    ensures r.Keys == {base, base + h}
    ensures r[base] == Header(BigChunk, 2 * h, None, None)
    ensures r[base + h] == Header(EndChunk, 0, None, None)
    ensures base + r[base].size == base + h + h
  {
    map[base := Header(BigChunk, 2 * h, None, None), base + h := Header(EndChunk, 0, None, None)]
  }

  // ---------------------------------------------------------------------------
  // The three header-writing primitives

  /**
   * Memory after `__allocateBigChunk(last, ...)` has sized the region to
   * `size` bytes and `mapPages` returned `base`: the writes to the new BIG
   * header, to `last->next`, to the FREE chunk and to the END chunk, in the
   * source's order.
   */
  function StampRegion(mem: Memory, last: nat, base: nat, size: nat, h: nat): (r: Memory)
    requires 0 < h && 3 * h <= size
    requires last in mem
    ensures var end := base + size - h;
            last != base && last != base + h && last != end ==>
            && r.Keys == mem.Keys + {base, base + h, end}
            && r[base] == Header(BigChunk, size, Some(last), None)
            && r[last] == mem[last].(next := Some(base))
            && r[base + h] == Header(FreeChunk, size - 3 * h, None, Some(end))
            && r[end] == Header(EndChunk, 0, Some(base + h), None)
            && (forall a {:trigger r[a]} :: a in mem && a != last && a != base && a != base + h && a != end ==> r[a] == mem[a])
  {
    var end := base + size - h;
    var m1 := mem[base := Header(BigChunk, size, Some(last), None)];
    var m2 := m1[last := m1[last].(next := Some(base))];
    var m3 := m2[base + h := Header(FreeChunk, size - 3 * h, None, Some(end))];
    m3[end := Header(EndChunk, 0, Some(base + h), None)]
  }

  /**
   * A region sized for `request` is tiled exactly by its BIG header, the FREE
   * chunk (header and payload) and the END chunk; it is a whole number of
   * pages, and its FREE payload is only guaranteed to be the request minus
   * one header.
   */
  lemma AllocatedRegionTiles(mem: Memory, last: nat, request: nat, base: nat, h: nat)
    requires 0 < h <= PageSize
    requires last in mem
    requires last < base || base + RegionSize(request, h) <= last
    ensures var r := StampRegion(mem, last, base, RegionSize(request, h), h);
            var free := r[base + h];
            && base in r && base + h in r && free.next.Some? && free.next.value in r
            && base + h + (h + free.size) == free.next.value
            && free.next.value + h == base + r[base].size
            && free.size + h >= request
            && r[base].size % PageSize == 0 && r[base].size >= 4 * PageSize
  {
  }

  /**
   * Memory after `__splitChunk(chunk, size)`: a FREE chunk is written at
   * `chunk + sizeof(Chunk) + size`, `chunk` shrinks to `size`, and the links
   * become chunk <-> new <-> old next.
   */
  function AfterSplit(mem: Memory, chunk: nat, size: nat, h: nat): (r: Memory)
    requires h > 0
    requires chunk in mem && mem[chunk].size >= h + size
    requires mem[chunk].next.Some? && mem[chunk].next.value in mem
    ensures var n := chunk + h + size;
            var oldNext := mem[chunk].next.value;
            oldNext != n && oldNext != chunk ==>
            && r.Keys == mem.Keys + {n}
            && r[n] == Header(FreeChunk, mem[chunk].size - h - size, Some(chunk), Some(oldNext))
            && r[chunk] == mem[chunk].(size := size, next := Some(n))
            && r[oldNext] == mem[oldNext].(prev := Some(n))
            && (forall a {:trigger r[a]} :: a in mem && a != chunk && a != n && a != oldNext ==> r[a] == mem[a])
    // the two pieces, headers included, occupy exactly the bytes the old chunk did
    ensures var n := chunk + h + size;
            n in r && chunk in r && (h + r[chunk].size) + (h + r[n].size) == h + mem[chunk].size
    // a chunk that ended where its next began still does, and so does the new one
    ensures var n := chunk + h + size;
            mem[chunk].next == Some(chunk + h + mem[chunk].size) ==>
            n in r && chunk in r
            && r[chunk].next == Some(chunk + h + r[chunk].size)
            && r[n].next == Some(n + h + r[n].size)
  {
    var n := chunk + h + size;
    var m1 := mem[n := Header(FreeChunk, mem[chunk].size - h - size, Some(chunk), mem[chunk].next)];
    var m2 := m1[chunk := m1[chunk].(size := size)];
    var oldNext := m2[chunk].next.value;
    var m3 := m2[oldNext := m2[oldNext].(prev := Some(n))];
    m3[chunk := m3[chunk].(next := Some(n))]
  }

  /**
   * Memory after `__unifyChunks(first, second)`: `first` takes over
   * `second`'s header and payload and its `next`, and that next points back
   * at `first`.  The bytes of `second`'s header are not erased.
   */
  function AfterUnify(mem: Memory, first: nat, second: nat, h: nat): (r: Memory)
    requires first in mem && second in mem
    requires mem[second].next.Some? && mem[second].next.value in mem
    ensures var newNext := mem[second].next.value;
            first != second && newNext != first ==>
            && r.Keys == mem.Keys
            && r[first] == mem[first].(size := mem[first].size + h + mem[second].size, next := Some(newNext))
            && r[newNext] == mem[newNext].(prev := Some(first))
            && (forall a {:trigger r[a]} :: a in mem && a != first && a != newNext ==> r[a] == mem[a])
    // two chunks that were back to back become one that ends where the second ended
    ensures first != second && mem[first].next == Some(second)
            && second == first + h + mem[first].size
            && mem[second].next == Some(second + h + mem[second].size) ==>
            first in r && r[first].next == Some(first + h + r[first].size)
  {
    var m1 := mem[first := mem[first].(next := mem[second].next)];
    var m2 := m1[first := m1[first].(size := m1[first].size + h + m1[second].size)];
    var newNext := m2[second].next.value;
    m2[newNext := m2[newNext].(prev := Some(first))]
  }

  /**
   * Splitting a chunk and unifying the two pieces again restores the chunk's
   * size and `next`, points the old next back at the chunk, and leaves every
   * other header as it was; only the dead header of the piece stays in memory.
   */
  lemma SplitThenUnifyRestores(mem: Memory, chunk: nat, size: nat, h: nat)
    requires h > 0
    requires chunk in mem && mem[chunk].size >= h + size
    requires mem[chunk].next.Some? && mem[chunk].next.value in mem
    requires mem[chunk].next.value != chunk && mem[chunk].next.value != chunk + h + size
    ensures var split := AfterSplit(mem, chunk, size, h);
            var n := chunk + h + size;
            chunk in split && n in split && split[n].next.Some? && split[n].next.value in split &&
            var r := AfterUnify(split, chunk, n, h);
            var oldNext := mem[chunk].next.value;
            && r.Keys == mem.Keys + {n}
            && r[chunk] == mem[chunk]
            && r[oldNext] == mem[oldNext].(prev := Some(chunk))
            && forall a {:trigger r[a]} :: a in mem && a != n && a != oldNext ==> r[a] == mem[a]
  {
    var split := AfterSplit(mem, chunk, size, h);
    var n := chunk + h + size;
    var oldNext := mem[chunk].next.value;
    var r := AfterUnify(split, chunk, n, h);
    assert r[chunk] == mem[chunk];
  }
}
