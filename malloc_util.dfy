/**
 * The heap state of libc/src/stdlib/malloc-util.c: the chunk headers in
 * memory and the region registry `firstBigChunk`, changed in place by
 * `__allocateBigChunk`, `__splitChunk` and `__unifyChunks`.
 */
module MallocUtil {
  import opened Wrappers
  import opened ChunkSpec
  import opened ChunkChain
  import opened ChunkRegion

  class Heap {
    /** sizeof(Chunk) on the target. */
    const h: nat
    /** SIZE_MAX on the target. */
    const sizeMax: nat
    /** The chunk header stored at each address that has one. */
    var mem: Memory
    /** The headers that are part of a region's chain; the others are stale bytes. */
    ghost var live: set<nat>
    /** The region each live chunk lies in, by the address of its BIG header. */
    ghost var owner: map<nat, nat>
    /** Head of the region registry. */
    var firstBigChunk: nat

    ghost predicate Valid()
      reads this
    {
      && 0 < h <= PageSize
      && WellFormed(mem, live, owner, h)
      && firstBigChunk in live && mem[firstBigChunk].magic == BigChunk
    }

    /** The heap before any growth: the static `emptyBigChunk` pair, and `firstBigChunk` pointing at it. */
    constructor (chunkSize: nat, maxSize: nat, emptyBigChunk: nat)
      requires 0 < chunkSize <= PageSize
      ensures Valid()
      ensures h == chunkSize && sizeMax == maxSize
      ensures mem == InitialMemory(emptyBigChunk, h) && live == mem.Keys
      ensures owner == map[emptyBigChunk + h := emptyBigChunk]
      ensures firstBigChunk == emptyBigChunk
    {
      h := chunkSize;
      sizeMax := maxSize;
      mem := map[emptyBigChunk := Header(BigChunk, 2 * chunkSize, None, None),
                 emptyBigChunk + chunkSize := Header(EndChunk, 0, None, None)];
      live := {emptyBigChunk, emptyBigChunk + chunkSize};
      owner := map[emptyBigChunk + chunkSize := emptyBigChunk];
      firstBigChunk := emptyBigChunk;
      InitialWellFormed(emptyBigChunk, chunkSize);
    }

    /**
     * `__allocateBigChunk(lastBigChunk, size)`.  `pages` is the address
     * `mapPages` returned: page aligned, and owned by no live header.
     */
    method AllocateBigChunk(lastBigChunk: nat, size: nat, pages: nat) returns (bigChunk: nat)
      requires Valid()
      requires lastBigChunk in live && mem[lastBigChunk].magic == BigChunk && mem[lastBigChunk].next == None
      requires AlignUp(size + 2 * h) <= sizeMax
      requires pages % PageSize == 0
      requires Unowned(mem, live, h, pages, pages + RegionSize(size, h))
      modifies this`mem, this`live, this`owner
      ensures Valid()
      ensures bigChunk == pages
      ensures mem == StampRegion(old(mem), lastBigChunk, bigChunk, RegionSize(size, h), h)
      ensures live == old(live) + {bigChunk, bigChunk + h, bigChunk + RegionSize(size, h) - h}
      ensures owner == old(owner)[bigChunk + h := bigChunk][bigChunk + RegionSize(size, h) - h := bigChunk]
      ensures mem[bigChunk] == Header(BigChunk, RegionSize(size, h), Some(lastBigChunk), None)
      ensures mem[lastBigChunk] == old(mem[lastBigChunk]).(next := Some(bigChunk))
    {
      var regionSize := RegionSize(size, h);
      bigChunk := pages;
      var chunk := bigChunk + h;
      var endChunk: nat := bigChunk + regionSize - h;

      // the header writes, made on a copy of memory that is stored back at the end
      var m := mem;
      m := m[bigChunk := Header(BigChunk, regionSize, Some(lastBigChunk), None)];
      m := m[lastBigChunk := m[lastBigChunk].(next := Some(bigChunk))];
      m := m[chunk := Header(FreeChunk, regionSize - 3 * h, None, Some(endChunk))];
      m := m[endChunk := Header(EndChunk, 0, Some(chunk), None)];

      ghost var mem1 := StampRegion(mem, lastBigChunk, bigChunk, RegionSize(size, h), h);
      ghost var live1: set<nat> := live + {bigChunk, bigChunk + h, bigChunk + RegionSize(size, h) - h};
      assert m == mem1;
      StampPreservesWellFormed(mem, live, owner, h, lastBigChunk, bigChunk, RegionSize(size, h));
      assert mem1[firstBigChunk].magic == BigChunk;
      mem := m;
      live := live1;
      owner := owner[chunk := bigChunk][endChunk := bigChunk];
    }

    /** `__splitChunk(chunk, size)`: keep `size` payload bytes and carve a FREE chunk from the rest. */
    method SplitChunk(chunk: nat, size: nat)
      requires Valid()
      requires chunk in live && IsPayload(mem[chunk].magic) && mem[chunk].size >= h + size
      requires mem[chunk].next.Some? && mem[chunk].next.value in mem
      modifies this`mem, this`live, this`owner
      ensures Valid()
      ensures mem == AfterSplit(old(mem), chunk, size, h)
      ensures live == old(live) + {chunk + h + size}
      ensures chunk in old(owner) && owner == old(owner)[chunk + h + size := old(owner)[chunk]]
    {
      SplitPreservesWellFormed(mem, live, owner, h, chunk, size);
      var newChunk := chunk + h + size;
      mem := mem[newChunk := Header(FreeChunk, mem[chunk].size - h - size, Some(chunk), mem[chunk].next)];
      mem := mem[chunk := mem[chunk].(size := size)];
      var next := mem[chunk].next.value;
      mem := mem[next := mem[next].(prev := Some(newChunk))];
      mem := mem[chunk := mem[chunk].(next := Some(newChunk))];
      live := live + {newChunk};
      owner := owner[newChunk := owner[chunk]];
    }

    /** `__unifyChunks(first, second)`: `first` absorbs the chunk that follows it and is returned. */
    method UnifyChunks(first: nat, second: nat) returns (unified: nat)
      requires Valid()
      requires first in live && IsPayload(mem[first].magic) && mem[first].next == Some(second)
      requires second in live && IsPayload(mem[second].magic)
      requires mem[second].next.Some? && mem[second].next.value in mem
      modifies this`mem, this`live
      ensures Valid()
      ensures unified == first
      ensures mem == AfterUnify(old(mem), first, second, h)
      ensures live == old(live) - {second}
    {
      UnifyPreservesWellFormed(mem, live, owner, h, first, second);
      mem := mem[first := mem[first].(next := mem[second].next)];
      mem := mem[first := mem[first].(size := mem[first].size + h + mem[second].size)];
      var next := mem[second].next.value;
      mem := mem[next := mem[next].(prev := Some(first))];
      live := live - {second};
      unified := first;
    }
  }
}
