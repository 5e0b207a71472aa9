/**
 * The region shape of the heap: every live chunk lies inside one live
 * region, the chunks a region's chain visits stay in that region, and the
 * only END chunk of a region is the one at its last header slot.  With the
 * link shape of ChunkChain this makes each region's chain run from the
 * chunk after its BIG header to its own END chunk, tiling the region, so
 * pages owned by no live header lie outside every live region.
 *
 * `owner` maps each live chunk to the address of its region's BIG header.
 */
module ChunkRegion {
  import opened Wrappers
  import opened ChunkSpec
  import opened ChunkChain

  /** The region facts of one live header. */
  ghost predicate RegionOk(mem: Memory, live: set<nat>, owner: map<nat, nat>, h: nat, a: nat)
    requires live <= mem.Keys && a in live
  {
    var x := mem[a];
    if x.magic == BigChunk then
      // the region's chain starts in the region
      a + h in owner && owner[a + h] == a
    else
      && a in owner
      && var b := owner[a];
         && b in live && mem[b].magic == BigChunk
         // the chunk, with everything it owns, lies after the BIG header and inside the region
         && b + h <= a && a + Extent(x, h) <= b + mem[b].size
         // an END chunk closes its own region only
         && (x.magic == EndChunk ==> a == b + mem[b].size - h)
         // the next chunk is in the same region
         && (IsPayload(x.magic) ==> a + h + x.size in owner && owner[a + h + x.size] == b)
  }

  ghost predicate Regioned(mem: Memory, live: set<nat>, owner: map<nat, nat>, h: nat) {
    && live <= mem.Keys
    && forall a {:trigger RegionOk(mem, live, owner, h, a)} :: a in live ==> RegionOk(mem, live, owner, h, a)
  }

  /** The shape the heap keeps between calls. */
  ghost predicate WellFormed(mem: Memory, live: set<nat>, owner: map<nat, nat>, h: nat) {
    Chained(mem, live, h) && Regioned(mem, live, owner, h)
  }

  lemma RegionLiveOk(mem: Memory, live: set<nat>, owner: map<nat, nat>, h: nat, a: nat)
    requires Regioned(mem, live, owner, h) && a in live
    ensures RegionOk(mem, live, owner, h, a)
  {
  }

  // ---------------------------------------------------------------------------
  // What the region shape gives

  /** The live header at `a` owns byte `x`. */
  ghost predicate Owns(mem: Memory, h: nat, a: nat, x: nat) {
    a in mem && a <= x < a + Extent(mem[a], h)
  }

  /** From a chunk of region `b` on, the chain owns every byte up to the region's end. */
  lemma ChainCovers(mem: Memory, live: set<nat>, owner: map<nat, nat>, h: nat, b: nat, c: nat, x: nat)
    requires WellFormed(mem, live, owner, h)
    requires b in live && mem[b].magic == BigChunk
    requires c in live && mem[c].magic != BigChunk && c in owner && owner[c] == b
    requires c <= x < b + mem[b].size
    ensures exists a {:trigger Owns(mem, h, a, x)} :: a in live && Owns(mem, h, a, x)
    decreases b + mem[b].size - c
  {
    LiveOk(mem, live, h, c);
    RegionLiveOk(mem, live, owner, h, c);
    var next := c + h + mem[c].size;
    if x < next || mem[c].magic == EndChunk {
      assert Owns(mem, h, c, x);
    } else {
      ChainCovers(mem, live, owner, h, b, next, x);
    }
  }

  /** Every byte of a live region is owned by some live header. */
  lemma RegionCovered(mem: Memory, live: set<nat>, owner: map<nat, nat>, h: nat, b: nat, x: nat)
    requires WellFormed(mem, live, owner, h)
    requires b in live && mem[b].magic == BigChunk
    requires b <= x < b + mem[b].size
    ensures exists a {:trigger Owns(mem, h, a, x)} :: a in live && Owns(mem, h, a, x)
  {
    if x < b + h {
      assert Owns(mem, h, b, x);
    } else {
      LiveOk(mem, live, h, b);
      RegionLiveOk(mem, live, owner, h, b);
      ChainCovers(mem, live, owner, h, b, b + h, x);
    }
  }

  /** A byte of a live region is not among bytes owned by no live header. */
  lemma UnownedMissesByte(mem: Memory, live: set<nat>, owner: map<nat, nat>, h: nat, lo: nat, hi: nat, b: nat, x: nat)
    requires WellFormed(mem, live, owner, h)
    requires Unowned(mem, live, h, lo, hi)
    requires b in live && mem[b].magic == BigChunk
    ensures b <= x < b + mem[b].size ==> x < lo || hi <= x
  {
    if b <= x < b + mem[b].size {
      RegionCovered(mem, live, owner, h, b, x);
      var a :| a in live && Owns(mem, h, a, x);
      assert Below(mem, h, a, lo) || hi <= a;
    }
  }

  /** Bytes owned by no live header lie outside every live region. */
  lemma UnownedMissesRegions(mem: Memory, live: set<nat>, owner: map<nat, nat>, h: nat, lo: nat, hi: nat, b: nat)
    requires WellFormed(mem, live, owner, h)
    requires Unowned(mem, live, h, lo, hi) && lo < hi
    requires b in live && mem[b].magic == BigChunk
    ensures b + mem[b].size <= lo || hi <= b
  {
    LiveOk(mem, live, h, b);
    UnownedMissesByte(mem, live, owner, h, lo, hi, b, if b < lo then lo else b);
  }

  // ---------------------------------------------------------------------------
  // Framing

  /** `t` has a header in both memories, with the same tag and size. */
  ghost predicate SameShape(mem: Memory, r: Memory, t: nat) {
    t in mem && t in r && r[t].magic == mem[t].magic && r[t].size == mem[t].size
  }

  /** `owner'` agrees with `owner` on `k`. */
  ghost predicate SameOwner(owner: map<nat, nat>, owner': map<nat, nat>, k: nat) {
    k in owner ==> k in owner' && owner'[k] == owner[k]
  }

  /**
   * The region facts of a header depend only on its tag and size, on the
   * owners of it and of the chunks it links to, and on its region header's
   * tag and size.
   */
  lemma RegionOkFrame(mem: Memory, live: set<nat>, owner: map<nat, nat>, r: Memory, live': set<nat>,
                      owner': map<nat, nat>, h: nat, a: nat)
    requires live <= mem.Keys && live' <= r.Keys && a in live && a in live'
    requires RegionOk(mem, live, owner, h, a) && SameShape(mem, r, a)
    requires mem[a].magic == BigChunk ==> SameOwner(owner, owner', a + h)
    requires mem[a].magic != BigChunk ==>
               SameOwner(owner, owner', a) && owner[a] in live' && SameShape(mem, r, owner[a])
    requires IsPayload(mem[a].magic) ==> SameOwner(owner, owner', a + h + mem[a].size)
    ensures RegionOk(r, live', owner', h, a)
  {
  }

  /** The static registry head has its region shape. */
  lemma InitialRegioned(base: nat, h: nat)
    requires h > 0
    ensures Regioned(InitialMemory(base, h), {base, base + h}, map[base + h := base], h)
  {
    var mem := InitialMemory(base, h);
    var live := {base, base + h};
    forall a | a in live ensures RegionOk(mem, live, map[base + h := base], h, a) {
    }
  }

  // ---------------------------------------------------------------------------
  // Split

  /** The region argument for a split: the new piece belongs to the split chunk's region. */
  lemma SplitKeepsRegioned(mem: Memory, live: set<nat>, owner: map<nat, nat>, h: nat, chunk: nat, size: nat, r: Memory)
    requires WellFormed(mem, live, owner, h)
    requires chunk in live && IsPayload(mem[chunk].magic)
    requires chunk + h + size !in live
    requires Split(mem, r, chunk, size, h)
    ensures chunk in owner
    ensures Regioned(r, live + {chunk + h + size}, owner[chunk + h + size := owner[chunk]], h)
  {
    var n := chunk + h + size;
    var live' := live + {n};
    LiveOk(mem, live, h, chunk);
    RegionLiveOk(mem, live, owner, h, chunk);
    var b := owner[chunk];
    var owner' := owner[n := b];
    var oldNext := chunk + h + mem[chunk].size;
    RegionLiveOk(mem, live, owner, h, oldNext);
    forall a: nat | a in live' ensures RegionOk(r, live', owner', h, a) {
      if a == n || a == chunk {
        assert r[b] == mem[b];
      } else {
        SplitKeepsRegionOf(mem, live, owner, h, chunk, size, r, a);
      }
    }
  }

  /** A live header other than the split chunk keeps its region facts. */
  lemma SplitKeepsRegionOf(mem: Memory, live: set<nat>, owner: map<nat, nat>, h: nat, chunk: nat, size: nat, r: Memory, a: nat)
    requires WellFormed(mem, live, owner, h)
    requires chunk in live && IsPayload(mem[chunk].magic)
    requires chunk + h + size !in live
    requires Split(mem, r, chunk, size, h)
    requires a in live && a != chunk
    requires chunk in owner
    ensures RegionOk(r, live + {chunk + h + size}, owner[chunk + h + size := owner[chunk]], h, a)
  {
    LiveOk(mem, live, h, chunk);
    LiveOk(mem, live, h, a);
    RegionLiveOk(mem, live, owner, h, a);
    if mem[a].magic != BigChunk {
      LiveOk(mem, live, h, owner[a]);
    }
    RegionOkFrame(mem, live, owner, r, live + {chunk + h + size}, owner[chunk + h + size := owner[chunk]], h, a);
  }

  /**
   * Splitting a live payload chunk keeps the heap well formed; the new piece
   * becomes live, owns exactly the bytes the chunk gave up, and belongs to
   * the chunk's region.
   */
  lemma SplitPreservesWellFormed(mem: Memory, live: set<nat>, owner: map<nat, nat>, h: nat, chunk: nat, size: nat)
    requires WellFormed(mem, live, owner, h)
    requires chunk in live && IsPayload(mem[chunk].magic) && mem[chunk].size >= h + size
    ensures mem[chunk].next.Some? && mem[chunk].next.value in mem
    ensures chunk + h + size !in live && chunk in owner
    ensures WellFormed(AfterSplit(mem, chunk, size, h), live + {chunk + h + size},
                       owner[chunk + h + size := owner[chunk]], h)
  {
    LiveOk(mem, live, h, chunk);
    var n := chunk + h + size;
    assert !Below(mem, h, chunk, n);
    var r := AfterSplit(mem, chunk, size, h);
    assert Split(mem, r, chunk, size, h);
    SplitKeepsChained(mem, live, h, chunk, size, r);
    SplitKeepsRegioned(mem, live, owner, h, chunk, size, r);
  }

  // ---------------------------------------------------------------------------
  // Unify

  /** The region argument for a unify: the grown chunk still ends inside its region. */
  lemma UnifyKeepsRegioned(mem: Memory, live: set<nat>, owner: map<nat, nat>, h: nat, first: nat, second: nat, r: Memory)
    requires WellFormed(mem, live, owner, h)
    requires first in live && IsPayload(mem[first].magic) && mem[first].next == Some(second)
    requires second in live && IsPayload(mem[second].magic)
    requires Unified(mem, r, first, second, h)
    ensures Regioned(r, live - {second}, owner, h)
  {
    var live' := live - {second};
    LiveOk(mem, live, h, first);
    LiveOk(mem, live, h, second);
    RegionLiveOk(mem, live, owner, h, first);
    RegionLiveOk(mem, live, owner, h, second);
    var b := owner[first];
    forall a: nat | a in live' ensures RegionOk(r, live', owner, h, a) {
      if a == first {
        assert r[b] == mem[b];
      } else {
        UnifyKeepsRegionOf(mem, live, owner, h, first, second, r, a);
      }
    }
  }

  /** A live header other than the two unified ones keeps its region facts. */
  lemma UnifyKeepsRegionOf(mem: Memory, live: set<nat>, owner: map<nat, nat>, h: nat, first: nat, second: nat, r: Memory, a: nat)
    requires WellFormed(mem, live, owner, h)
    requires first in live && IsPayload(mem[first].magic) && mem[first].next == Some(second)
    requires second in live && IsPayload(mem[second].magic)
    requires Unified(mem, r, first, second, h)
    requires a in live && a != first && a != second
    ensures RegionOk(r, live - {second}, owner, h, a)
  {
    LiveOk(mem, live, h, first);
    LiveOk(mem, live, h, second);
    LiveOk(mem, live, h, a);
    RegionLiveOk(mem, live, owner, h, a);
    if mem[a].magic != BigChunk {
      LiveOk(mem, live, h, owner[a]);
    }
    RegionOkFrame(mem, live, owner, r, live - {second}, owner, h, a);
  }

  /**
   * Unifying a live payload chunk with the payload chunk that follows it
   * keeps the heap well formed once the absorbed header is dropped from the
   * chain, and no live header links to the absorbed one any more.
   */
  lemma UnifyPreservesWellFormed(mem: Memory, live: set<nat>, owner: map<nat, nat>, h: nat, first: nat, second: nat)
    requires WellFormed(mem, live, owner, h)
    requires first in live && IsPayload(mem[first].magic) && mem[first].next == Some(second)
    requires second in live && IsPayload(mem[second].magic)
    ensures first in mem && mem[second].next.Some? && mem[second].next.value in mem
    ensures WellFormed(AfterUnify(mem, first, second, h), live - {second}, owner, h)
    ensures forall a :: a in live - {second} ==>
              AfterUnify(mem, first, second, h)[a].next != Some(second)
              && AfterUnify(mem, first, second, h)[a].prev != Some(second)
  {
    LiveOk(mem, live, h, first);
    LiveOk(mem, live, h, second);
    var r := AfterUnify(mem, first, second, h);
    assert Unified(mem, r, first, second, h);
    UnifyKeepsChained(mem, live, h, first, second, r);
    UnifyKeepsRegioned(mem, live, owner, h, first, second, r);
  }

  // ---------------------------------------------------------------------------
  // Allocate

  /** The region argument for a new region: its FREE and END chunks belong to it. */
  lemma StampKeepsRegioned(mem: Memory, live: set<nat>, owner: map<nat, nat>, h: nat, last: nat, base: nat, size: nat, r: Memory)
    requires WellFormed(mem, live, owner, h)
    requires last in live && mem[last].magic == BigChunk && mem[last].next == None
    requires Unowned(mem, live, h, base, base + size)
    requires Stamped(mem, r, last, base, size, h)
    ensures Regioned(r, live + {base, base + h, base + size - h}, owner[base + h := base][base + size - h := base], h)
  {
    var end := base + size - h;
    var live' := live + {base, base + h, end};
    var owner' := owner[base + h := base][end := base];
    assert !Below(mem, h, base, base) && !Below(mem, h, base + h, base) && !Below(mem, h, end, base);
    assert base !in live && base + h !in live && end !in live;
    forall a: nat | a in live' ensures RegionOk(r, live', owner', h, a) {
      if a in live {
        StampKeepsRegionOf(mem, live, owner, h, last, base, size, r, a);
      }
    }
  }

  /** A live header keeps its region facts when a region is linked after the tail. */
  lemma StampKeepsRegionOf(mem: Memory, live: set<nat>, owner: map<nat, nat>, h: nat, last: nat, base: nat, size: nat, r: Memory, a: nat)
    requires WellFormed(mem, live, owner, h)
    requires last in live && mem[last].magic == BigChunk && mem[last].next == None
    requires Unowned(mem, live, h, base, base + size)
    requires Stamped(mem, r, last, base, size, h)
    requires a in live
    ensures RegionOk(r, live + {base, base + h, base + size - h}, owner[base + h := base][base + size - h := base], h, a)
  {
    var end := base + size - h;
    assert !Below(mem, h, base, base) && !Below(mem, h, base + h, base) && !Below(mem, h, end, base);
    assert base !in live && base + h !in live && end !in live;
    LiveOk(mem, live, h, a);
    RegionLiveOk(mem, live, owner, h, a);
    RegionOkFrame(mem, live, owner, r, live + {base, base + h, end}, owner[base + h := base][end := base], h, a);
  }

  /**
   * Linking a new region of `size` bytes after the registry's tail keeps the
   * heap well formed, provided the pages are not owned by any live header;
   * the new region's FREE and END chunks belong to it.
   */
  lemma StampPreservesWellFormed(mem: Memory, live: set<nat>, owner: map<nat, nat>, h: nat, last: nat, base: nat, size: nat)
    requires WellFormed(mem, live, owner, h) && 3 * h <= size
    requires last in live && mem[last].magic == BigChunk && mem[last].next == None
    requires Unowned(mem, live, h, base, base + size)
    ensures WellFormed(StampRegion(mem, last, base, size, h), live + {base, base + h, base + size - h},
                       owner[base + h := base][base + size - h := base], h)
    ensures var r := StampRegion(mem, last, base, size, h);
            && r[base] == Header(BigChunk, size, Some(last), None)
            && r[last] == mem[last].(next := Some(base))
            && forall a {:trigger r[a]} :: a in live ==> a in r && r[a].magic == mem[a].magic
  {
    assert Below(mem, h, last, base) || base + size <= last;
    var r := StampRegion(mem, last, base, size, h);
    assert Stamped(mem, r, last, base, size, h);
    StampKeepsChained(mem, live, h, last, base, size, r);
    StampKeepsRegioned(mem, live, owner, h, last, base, size, r);
    forall a | a in live ensures a in r && r[a].magic == mem[a].magic {
      assert Below(mem, h, a, base) || base + size <= a;
    }
  }

  /** The static registry head is a well-formed heap. */
  lemma InitialWellFormed(base: nat, h: nat)
    requires h > 0
    ensures WellFormed(InitialMemory(base, h), {base, base + h}, map[base + h := base], h)
  {
    InitialChained(base, h);
    InitialRegioned(base, h);
  }
}
