/**
 * The link shape of the heap between calls: every live header is part of
 * an address-ordered, exactly contiguous, doubly linked chain, and the live
 * headers' extents never overlap.  `live` names the headers that are part
 * of a chain; memory may also hold dead headers left behind by a unify.
 * Which region each chunk belongs to is the subject of ChunkRegion.
 */
module ChunkChain {
  import opened Wrappers
  import opened ChunkSpec

  /** Bytes a live header owns: a region header owns only itself, a chunk its header and payload. */
  function Extent(x: Header, h: nat): nat {
    if x.magic == BigChunk then h else h + x.size
  }

  /** A live header's `prev`, when set, names a live payload chunk whose `next` points back. */
  ghost predicate PrevLinked(mem: Memory, live: set<nat>, a: nat)
    requires live <= mem.Keys && a in live
  {
    mem[a].prev.Some? ==>
      var p := mem[a].prev.value;
      p in live && IsPayload(mem[p].magic) && mem[p].next == Some(a)
  }

  /** The local shape of one live header. */
  ghost predicate ChunkOk(mem: Memory, live: set<nat>, h: nat, a: nat)
    requires live <= mem.Keys && a in live
  {
    var x := mem[a];
    match x.magic
    case FreeChunk | UsedChunk =>
      // the next chunk starts right after this one's payload and points back
      && x.next == Some(a + h + x.size)
      && a + h + x.size in live
      && mem[a + h + x.size].magic != BigChunk
      && mem[a + h + x.size].prev == Some(a)
      && PrevLinked(mem, live, a)
    case EndChunk =>
      && x.size == 0 && x.next == None
      && PrevLinked(mem, live, a)
    case BigChunk =>
      // the registry links are mutual
      && (x.next.Some? ==> x.next.value in live && mem[x.next.value].magic == BigChunk
                           && mem[x.next.value].prev == Some(a))
      && (x.prev.Some? ==> x.prev.value in live && mem[x.prev.value].magic == BigChunk
                           && mem[x.prev.value].next == Some(a))
      // the region's chain starts right after the header and its END chunk closes the region
      && a + h in live && mem[a + h].magic != BigChunk && mem[a + h].prev == None
      && x.size >= 2 * h
      && a + x.size - h in live && mem[a + x.size - h].magic == EndChunk
  }

  /** The live header at `a`, with everything it owns, lies below `b`. */
  ghost predicate Below(mem: Memory, h: nat, a: nat, b: nat) {
    a in mem && a + Extent(mem[a], h) <= b
  }

  /** No two live headers' extents overlap. */
  ghost predicate Disjoint(mem: Memory, live: set<nat>, h: nat)
    requires live <= mem.Keys
  {
    forall a, b {:trigger Below(mem, h, a, b)} :: a in live && b in live && a < b ==> Below(mem, h, a, b)
  }

  /** No live header owns any byte of [lo, hi). */
  ghost predicate Unowned(mem: Memory, live: set<nat>, h: nat, lo: nat, hi: nat)
    requires live <= mem.Keys
  {
    forall a {:trigger Below(mem, h, a, lo)} :: a in live ==> Below(mem, h, a, lo) || hi <= a
  }

  /** Every live header is linked as it should be, and no two overlap. */
  ghost predicate Chained(mem: Memory, live: set<nat>, h: nat) {
    && h > 0
    && live <= mem.Keys
    && Disjoint(mem, live, h)
    && forall a {:trigger ChunkOk(mem, live, h, a)} :: a in live ==> ChunkOk(mem, live, h, a)
  }

  /** The shape of one live header of a chained heap. */
  lemma LiveOk(mem: Memory, live: set<nat>, h: nat, a: nat)
    requires Chained(mem, live, h) && a in live
    ensures ChunkOk(mem, live, h, a)
  {
  }

  /** `t` is live in the new heap and its tag is unchanged. */
  ghost predicate SameTag(mem: Memory, r: Memory, live': set<nat>, t: nat) {
    t in mem && t in r && t in live' && r[t].magic == mem[t].magic
  }

  /** `t` keeps its tag and its `prev`. */
  ghost predicate SameBackLink(mem: Memory, r: Memory, live': set<nat>, t: nat) {
    SameTag(mem, r, live', t) && r[t].prev == mem[t].prev
  }

  /** `t` keeps its tag and its `next`. */
  ghost predicate SameForwardLink(mem: Memory, r: Memory, live': set<nat>, t: nat) {
    SameTag(mem, r, live', t) && r[t].next == mem[t].next
  }

  /**
   * The shape of a live header depends only on its own fields and on the
   * tags and back (or forward) links of the headers it links to, so it
   * survives any change that leaves those alone.
   */
  lemma ChunkOkFrame(mem: Memory, live: set<nat>, r: Memory, live': set<nat>, h: nat, a: nat)
    requires live <= mem.Keys && live' <= r.Keys && a in live && a in live'
    requires ChunkOk(mem, live, h, a) && r[a] == mem[a]
    requires mem[a].prev.Some? ==> SameForwardLink(mem, r, live', mem[a].prev.value)
    requires IsPayload(mem[a].magic) ==> SameBackLink(mem, r, live', a + h + mem[a].size)
    requires mem[a].magic == BigChunk ==>
               && SameBackLink(mem, r, live', a + h)
               && SameTag(mem, r, live', a + mem[a].size - h)
               && (mem[a].next.Some? ==> SameBackLink(mem, r, live', mem[a].next.value))
    ensures ChunkOk(r, live', h, a)
  {
  }

  /** The static registry head is chained. */
  lemma InitialChained(base: nat, h: nat)
    requires h > 0
    ensures Chained(InitialMemory(base, h), {base, base + h}, h)
  {
    var mem := InitialMemory(base, h);
    var live := {base, base + h};
    forall a | a in live ensures ChunkOk(mem, live, h, a) {
    }
  }

  // ---------------------------------------------------------------------------
  // The header writes of each primitive, as facts about the memory after it

  /** `r` is `mem` after `__splitChunk(chunk, size)` on a chunk whose next follows it. */
  ghost predicate Split(mem: Memory, r: Memory, chunk: nat, size: nat, h: nat) {
    && chunk in mem && mem[chunk].size >= h + size
    && var n := chunk + h + size;
       var oldNext := chunk + h + mem[chunk].size;
       && oldNext in mem
       && r.Keys == mem.Keys + {n}
       && r[n] == Header(FreeChunk, mem[chunk].size - h - size, Some(chunk), Some(oldNext))
       && r[chunk] == mem[chunk].(size := size, next := Some(n))
       && r[oldNext] == mem[oldNext].(prev := Some(n))
       && forall a {:trigger r[a]} :: a in mem && a != chunk && a != n && a != oldNext ==> r[a] == mem[a]
  }

  /** `r` is `mem` after `__unifyChunks(first, second)` on two back-to-back chunks. */
  ghost predicate Unified(mem: Memory, r: Memory, first: nat, second: nat, h: nat) {
    && first in mem && second in mem
    && var nx := second + h + mem[second].size;
       && nx in mem
       && r.Keys == mem.Keys
       && r[first] == mem[first].(size := mem[first].size + h + mem[second].size, next := Some(nx))
       && r[nx] == mem[nx].(prev := Some(first))
       && forall a {:trigger r[a]} :: a in mem && a != first && a != nx ==> r[a] == mem[a]
  }

  /** `r` is `mem` after a region of `size` bytes at `base` is linked after `last`. */
  ghost predicate Stamped(mem: Memory, r: Memory, last: nat, base: nat, size: nat, h: nat) {
    && 3 * h <= size && last in mem
    && var end := base + size - h;
       && r.Keys == mem.Keys + {base, base + h, end}
       && r[base] == Header(BigChunk, size, Some(last), None)
       && r[last] == mem[last].(next := Some(base))
       && r[base + h] == Header(FreeChunk, size - 3 * h, None, Some(end))
       && r[end] == Header(EndChunk, 0, Some(base + h), None)
       && forall a {:trigger r[a]} :: a in mem && a != last && a != base && a != base + h && a != end ==> r[a] == mem[a]
  }

  // ---------------------------------------------------------------------------
  // Split

  /** The link argument for a split, over any memory with the split's headers. */
  lemma SplitKeepsChained(mem: Memory, live: set<nat>, h: nat, chunk: nat, size: nat, r: Memory)
    requires Chained(mem, live, h)
    requires chunk in live && IsPayload(mem[chunk].magic)
    requires chunk + h + size !in live
    requires Split(mem, r, chunk, size, h)
    ensures Chained(r, live + {chunk + h + size}, h)
  {
    LiveOk(mem, live, h, chunk);
    var n := chunk + h + size;
    var oldNext := chunk + h + mem[chunk].size;
    var live' := live + {n};
    LiveOk(mem, live, h, oldNext);
    SplitDisjoint(mem, live, h, chunk, size, r);
    forall a: nat | a in live' ensures ChunkOk(r, live', h, a) {
      if a == n {
      } else if a == chunk {
        if mem[chunk].prev.Some? {
          var p := mem[chunk].prev.value;
          LiveOk(mem, live, h, p);
        }
      } else if a == oldNext {
        if IsPayload(mem[a].magic) {
          var t := a + h + mem[a].size;
          assert r[t] == mem[t];
        }
      } else {
        SplitKeepsOther(mem, live, h, chunk, size, r, a);
      }
    }
  }

  /** The two pieces of a split own disjoint bytes, and none that another live header owns. */
  lemma SplitDisjoint(mem: Memory, live: set<nat>, h: nat, chunk: nat, size: nat, r: Memory)
    requires Chained(mem, live, h)
    requires chunk in live && IsPayload(mem[chunk].magic)
    requires chunk + h + size !in live
    requires Split(mem, r, chunk, size, h)
    ensures Disjoint(r, live + {chunk + h + size}, h)
  {
    var n := chunk + h + size;
    var live' := live + {n};
    LiveOk(mem, live, h, chunk);
    // the magic of every live header is unchanged
    assert forall a :: a in live ==> r[a].magic == mem[a].magic;
    forall a: nat, b: nat | a in live' && b in live' && a < b
      ensures Below(r, h, a, b)
    {
      if a == n {
        assert Below(mem, h, chunk, b);
      } else if b == n {
        assert chunk < a ==> Below(mem, h, chunk, a);
        if a < chunk {
          assert Below(mem, h, a, chunk);
        }
      } else {
        assert Below(mem, h, a, b);
      }
    }
  }

  /** After a split a live header keeps its tag, and its links unless the split rewrote them. */
  lemma SplitNeighbour(mem: Memory, live: set<nat>, h: nat, chunk: nat, size: nat, r: Memory, t: nat)
    requires live <= mem.Keys && chunk + h + size !in live
    requires Split(mem, r, chunk, size, h)
    requires t in live
    ensures SameTag(mem, r, live + {chunk + h + size}, t)
    ensures t != chunk + h + mem[chunk].size ==> r[t].prev == mem[t].prev
    ensures t != chunk ==> r[t].next == mem[t].next
  {
  }

  /** A live header other than the split chunk, its old next and the new piece keeps its shape. */
  lemma SplitKeepsOther(mem: Memory, live: set<nat>, h: nat, chunk: nat, size: nat, r: Memory, a: nat)
    requires Chained(mem, live, h)
    requires chunk in live && IsPayload(mem[chunk].magic)
    requires chunk + h + size !in live
    requires Split(mem, r, chunk, size, h)
    requires a in live && a != chunk && a != chunk + h + mem[chunk].size
    ensures ChunkOk(r, live + {chunk + h + size}, h, a)
  {
    LiveOk(mem, live, h, chunk);
    LiveOk(mem, live, h, a);
    SplitNeighbour(mem, live, h, chunk, size, r, a);
    var x := mem[a];
    if x.prev.Some? {
      LiveOk(mem, live, h, x.prev.value);
      SplitNeighbour(mem, live, h, chunk, size, r, x.prev.value);
    }
    if IsPayload(x.magic) {
      SplitNeighbour(mem, live, h, chunk, size, r, a + h + x.size);
    }
    if x.magic == BigChunk {
      LiveOk(mem, live, h, a + h);
      SplitNeighbour(mem, live, h, chunk, size, r, a + h);
      SplitNeighbour(mem, live, h, chunk, size, r, a + x.size - h);
      if x.next.Some? {
        SplitNeighbour(mem, live, h, chunk, size, r, x.next.value);
      }
    }
    ChunkOkFrame(mem, live, r, live + {chunk + h + size}, h, a);
  }

  // ---------------------------------------------------------------------------
  // Unify

  /** The link argument for a unify, over any memory with the unify's headers. */
  lemma UnifyKeepsChained(mem: Memory, live: set<nat>, h: nat, first: nat, second: nat, r: Memory)
    requires Chained(mem, live, h)
    requires first in live && IsPayload(mem[first].magic) && mem[first].next == Some(second)
    requires second in live && IsPayload(mem[second].magic)
    requires Unified(mem, r, first, second, h)
    ensures Chained(r, live - {second}, h)
    ensures forall a :: a in live - {second} ==> r[a].next != Some(second) && r[a].prev != Some(second)
  {
    LiveOk(mem, live, h, first);
    LiveOk(mem, live, h, second);
    var nx := second + h + mem[second].size;
    LiveOk(mem, live, h, nx);
    var live' := live - {second};
    forall a: nat, b: nat | a in live' && b in live' && a < b
      ensures Below(r, h, a, b)
    {
      if a == first {
        assert Below(mem, h, first, b);
        assert Below(mem, h, second, b);
      } else {
        assert Below(mem, h, a, b);
      }
    }
    forall a: nat | a in live' ensures ChunkOk(r, live', h, a) {
      if a == first {
        if mem[first].prev.Some? {
          var p := mem[first].prev.value;
          LiveOk(mem, live, h, p);
        }
      } else if a == nx {
        if IsPayload(mem[a].magic) {
          var t := a + h + mem[a].size;
          assert r[t] == mem[t];
        }
      } else {
        UnifyKeepsOther(mem, live, h, first, second, r, a);
      }
    }
    forall a: nat | a in live' ensures r[a].next != Some(second) && r[a].prev != Some(second) {
      assert ChunkOk(r, live', h, a);
    }
  }

  /** After a unify a live header other than the absorbed one keeps its tag, and its links unless the unify rewrote them. */
  lemma UnifyNeighbour(mem: Memory, live: set<nat>, h: nat, first: nat, second: nat, r: Memory, t: nat)
    requires live <= mem.Keys
    requires Unified(mem, r, first, second, h)
    requires t in live && t != second
    ensures SameTag(mem, r, live - {second}, t)
    ensures t != second + h + mem[second].size ==> r[t].prev == mem[t].prev
    ensures t != first ==> r[t].next == mem[t].next
  {
  }

  /** A live header other than the two unified ones and the new next keeps its shape. */
  lemma UnifyKeepsOther(mem: Memory, live: set<nat>, h: nat, first: nat, second: nat, r: Memory, a: nat)
    requires Chained(mem, live, h)
    requires first in live && IsPayload(mem[first].magic) && mem[first].next == Some(second)
    requires second in live && IsPayload(mem[second].magic)
    requires Unified(mem, r, first, second, h)
    requires a in live && a != first && a != second && a != second + h + mem[second].size
    ensures ChunkOk(r, live - {second}, h, a)
  {
    LiveOk(mem, live, h, first);
    LiveOk(mem, live, h, second);
    LiveOk(mem, live, h, a);
    UnifyNeighbour(mem, live, h, first, second, r, a);
    var x := mem[a];
    if x.prev.Some? {
      LiveOk(mem, live, h, x.prev.value);
      UnifyNeighbour(mem, live, h, first, second, r, x.prev.value);
    }
    if IsPayload(x.magic) {
      UnifyNeighbour(mem, live, h, first, second, r, a + h + x.size);
    }
    if x.magic == BigChunk {
      LiveOk(mem, live, h, a + h);
      UnifyNeighbour(mem, live, h, first, second, r, a + h);
      UnifyNeighbour(mem, live, h, first, second, r, a + x.size - h);
      if x.next.Some? {
        UnifyNeighbour(mem, live, h, first, second, r, x.next.value);
      }
    }
    ChunkOkFrame(mem, live, r, live - {second}, h, a);
  }

  // ---------------------------------------------------------------------------
  // Allocate

  /** The link argument for a new region, over any memory with the region's headers. */
  lemma StampKeepsChained(mem: Memory, live: set<nat>, h: nat, last: nat, base: nat, size: nat, r: Memory)
    requires Chained(mem, live, h)
    requires last in live && mem[last].magic == BigChunk && mem[last].next == None
    requires Unowned(mem, live, h, base, base + size)
    requires Stamped(mem, r, last, base, size, h)
    ensures Chained(r, live + {base, base + h, base + size - h}, h)
  {
    var live' := live + {base, base + h, base + size - h};
    StampDisjoint(mem, live, h, last, base, size, r);
    forall a: nat | a in live' ensures ChunkOk(r, live', h, a) {
      if a == last {
        StampTailOk(mem, live, h, last, base, size, r);
      } else if a in live {
        StampKeepsOther(mem, live, h, last, base, size, r, a);
      } else {
        StampNewHeadersOk(mem, live, h, last, base, size, r, a);
      }
    }
  }

  /** The three new headers have the shape of a chained heap. */
  lemma StampNewHeadersOk(mem: Memory, live: set<nat>, h: nat, last: nat, base: nat, size: nat, r: Memory, a: nat)
    requires Chained(mem, live, h)
    requires last in live && mem[last].magic == BigChunk && mem[last].next == None
    requires Unowned(mem, live, h, base, base + size)
    requires Stamped(mem, r, last, base, size, h)
    requires a == base || a == base + h || a == base + size - h
    ensures ChunkOk(r, live + {base, base + h, base + size - h}, h, a)
  {
    var end := base + size - h;
    assert !Below(mem, h, base, base) && !Below(mem, h, base + h, base) && !Below(mem, h, end, base);
    assert Below(mem, h, last, base) || base + size <= last;
    var live' := live + {base, base + h, end};
    if a == base {
      assert ChunkOk(r, live', h, base);
    } else if a == base + h {
      assert ChunkOk(r, live', h, base + h);
    } else {
      assert ChunkOk(r, live', h, end);
    }
  }

  /** The old tail, now linked forward to the new region, keeps its shape. */
  lemma StampTailOk(mem: Memory, live: set<nat>, h: nat, last: nat, base: nat, size: nat, r: Memory)
    requires Chained(mem, live, h)
    requires last in live && mem[last].magic == BigChunk && mem[last].next == None
    requires Unowned(mem, live, h, base, base + size)
    requires Stamped(mem, r, last, base, size, h)
    ensures ChunkOk(r, live + {base, base + h, base + size - h}, h, last)
  {
    var end := base + size - h;
    LiveOk(mem, live, h, last);
    assert !Below(mem, h, base, base) && !Below(mem, h, base + h, base) && !Below(mem, h, end, base);
    assert Below(mem, h, last, base) || base + size <= last;
    var live' := live + {base, base + h, end};
    if mem[last].prev.Some? {
      var p := mem[last].prev.value;
      LiveOk(mem, live, h, p);
      assert Below(mem, h, p, base) || base + size <= p;
    }
    LiveOk(mem, live, h, last + h);
    assert Below(mem, h, last + h, base) || base + size <= last + h;
    var e := last + mem[last].size - h;
    LiveOk(mem, live, h, e);
    assert Below(mem, h, e, base) || base + size <= e;
  }

  /** A live header other than the tail keeps its shape when a region is linked after the tail. */
  lemma StampKeepsOther(mem: Memory, live: set<nat>, h: nat, last: nat, base: nat, size: nat, r: Memory, a: nat)
    requires Chained(mem, live, h)
    requires last in live && mem[last].magic == BigChunk && mem[last].next == None
    requires Unowned(mem, live, h, base, base + size)
    requires Stamped(mem, r, last, base, size, h)
    requires a in live && a != last
    ensures ChunkOk(r, live + {base, base + h, base + size - h}, h, a)
  {
    var end := base + size - h;
    LiveOk(mem, live, h, a);
    assert !Below(mem, h, base, base) && !Below(mem, h, base + h, base) && !Below(mem, h, end, base);
    assert Below(mem, h, last, base) || base + size <= last;
    ChunkOkFrame(mem, live, r, live + {base, base + h, end}, h, a);
  }

  /** The new region's three headers own disjoint bytes, and none that a live header owns. */
  lemma StampDisjoint(mem: Memory, live: set<nat>, h: nat, last: nat, base: nat, size: nat, r: Memory)
    requires Chained(mem, live, h)
    requires last in live && mem[last].magic == BigChunk && mem[last].next == None
    requires Unowned(mem, live, h, base, base + size)
    requires Stamped(mem, r, last, base, size, h)
    ensures var live' := live + {base, base + h, base + size - h};
            live' <= r.Keys && Disjoint(r, live', h)
  {
    var end := base + size - h;
    var live' := live + {base, base + h, end};
    assert !Below(mem, h, base, base) && !Below(mem, h, base + h, base) && !Below(mem, h, end, base);
    assert base !in live && base + h !in live && end !in live;
    assert Below(mem, h, last, base) || base + size <= last;
    forall a: nat, b: nat | a in live' && b in live' && a < b
      ensures Below(r, h, a, b)
    {
      if a in live && b in live {
        assert Below(mem, h, a, b);
      } else if a in live {
        assert Below(mem, h, a, base) || base + size <= a;
      } else if b in live {
        assert Below(mem, h, b, base) || base + size <= b;
      }
    }
  }
}
