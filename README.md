# Dennix heap bookkeeping and text editor input, in Dafny

This project models two small pieces of the Dennix operating system and
proves properties of the models.

**The chunk bookkeeping of the C library's allocator**
(`libc/src/stdlib/malloc-util.c`). The heap is a list of regions, each
obtained from `mapPages`. Each region starts with a BIG header and the
region headers form a doubly linked registry that begins at the static
`emptyBigChunk`. Inside a region, FREE and USED chunks follow one another
back to back and are closed by an END chunk. Every chunk carries a header
(`Chunk`: magic, size, prev, next).

- `ChunkSpec` models memory as a map from byte address to header.
  `StampRegion`, `AfterSplit` and `AfterUnify` are the header writes of
  `__allocateBigChunk`, `__splitChunk` and `__unifyChunks`, in the order
  the C code makes them.
- `ChunkChain` defines the link shape of the heap:
  - every live header is well linked;
  - chunks are exactly contiguous;
  - the registry links are mutual;
  - no two live headers own overlapping bytes.
- `ChunkRegion` adds the region shape. A ghost map records the region
  each live chunk belongs to. Every live chunk lies inside its region,
  a chunk's next belongs to the same region, and the only END chunk of a
  region is the one at the region's last header slot. So each region's
  chain runs from the chunk after its BIG header to its own END chunk and
  tiles the region. Pages that no live header owns therefore lie outside
  every live region. `WellFormed` is the link shape and the region shape
  together, and each primitive is proved to preserve it.
- `MallocUtil.Heap` is the mutable heap: the header map, the registry
  head `firstBigChunk`, a ghost set of live headers and the ghost region
  map. Its three methods make the same writes in place. Each method is
  proved against the function that specifies it, and each keeps the heap
  well formed.

**The input handling of the text editor** (`utils/editor.c`).

- `EditorSpec` describes, as functions, the three-state escape decoder of
  `getInput` and `handleKey`. It also describes the cursor and window
  movement of `handleSequence` over a table of line lengths shaped as
  `readFile` leaves it. It proves that every input keeps the cursor on
  the screen and inside the text.
- `Editor.Editor` is the editor's global state as a class. Its methods
  change that state in place, as the C functions do.

## Model

| member | source | states |
|---|---|---|
| ChunkSpec.AlignUp | libc/src/stdlib/malloc-util.c:31 | the result is a multiple of PAGESIZE, at least the input and less than one page above it |
| ChunkSpec.RegionSize | libc/src/stdlib/malloc-util.c:30-35 | the region size is page aligned, at least four pages, and at least the request plus two headers; it exceeds that by less than a page unless the four-page floor applies |
| ChunkSpec.RegionSizeIsLeast | libc/src/stdlib/malloc-util.c:30-35 | no smaller page multiple meets both lower bounds |
| ChunkSpec.InitialMemory | libc/src/stdlib/malloc-util.c:22-25 | `emptyBigChunk` is an unlinked BIG header whose size spans itself and the END header that follows it |
| ChunkSpec.StampRegion | libc/src/stdlib/malloc-util.c:37-56 | after the writes, the new BIG header links back to the old tail and the tail links forward to it; one FREE chunk with no prev runs to the END chunk, which links back to it; every other header is unchanged |
| ChunkSpec.AllocatedRegionTiles | libc/src/stdlib/malloc-util.c:29-58 | a new region is tiled exactly by its BIG header, the FREE chunk and the END chunk; the FREE payload plus one header covers the request |
| ChunkSpec.AfterSplit | libc/src/stdlib/malloc-util.c:61-71 | the chunk keeps `size` bytes, the new FREE chunk sits between it and the old next with mutual links, the two pieces cover exactly the old chunk's bytes, and contiguity is kept |
| ChunkSpec.AfterUnify | libc/src/stdlib/malloc-util.c:73-79 | `first` absorbs `second`'s header and payload and takes over its next, which now links back to `first`; two back-to-back chunks become one that ends where the second ended |
| ChunkSpec.SplitThenUnifyRestores | libc/src/stdlib/malloc-util.c:61-79 | a split followed by unifying the two pieces restores the chunk's header; only the dead header of the piece stays in memory |
| ChunkRegion.InitialWellFormed | libc/src/stdlib/malloc-util.c:22-27 | the static registry head is a well-formed heap: linked, and its END chunk lies in its region at the last header slot |
| ChunkRegion.RegionCovered | libc/src/stdlib/malloc-util.c:29-79 | in a well-formed heap every byte of a live region is owned by a live header, so each region's chain runs from its first chunk to its own END chunk |
| ChunkRegion.UnownedMissesRegions | libc/src/stdlib/malloc-util.c:37 | pages that no live header owns lie wholly outside every live region |
| ChunkRegion.StampPreservesWellFormed | libc/src/stdlib/malloc-util.c:29-59 | linking a new region after the registry tail keeps the heap well formed, provided no live header owns the mapped pages; the new region's three headers become live, and its FREE and END chunks belong to it |
| ChunkRegion.SplitPreservesWellFormed | libc/src/stdlib/malloc-util.c:61-71 | splitting a live FREE or USED chunk keeps the heap well formed; the new piece becomes live and belongs to the chunk's region |
| ChunkRegion.UnifyPreservesWellFormed | libc/src/stdlib/malloc-util.c:73-79 | unifying a live payload chunk with the payload chunk after it keeps the heap well formed without the absorbed header; the grown chunk stays inside its region, and no live header links to the absorbed header any more |
| MallocUtil.Heap.constructor | libc/src/stdlib/malloc-util.c:22-27 | the heap starts as the `emptyBigChunk` pair with `firstBigChunk` pointing at it, and it is well formed |
| MallocUtil.Heap.AllocateBigChunk | libc/src/stdlib/malloc-util.c:29-59 | returns the mapped address and writes the headers of `StampRegion`; the heap stays well formed, the three new headers become live, and the new FREE and END chunks belong to the new region |
| MallocUtil.Heap.SplitChunk | libc/src/stdlib/malloc-util.c:61-71 | memory becomes `AfterSplit` of the old memory, the new piece becomes live in the chunk's region, and the heap stays well formed |
| MallocUtil.Heap.UnifyChunks | libc/src/stdlib/malloc-util.c:73-79 | returns `first`; memory becomes `AfterUnify` of the old memory, `second` leaves the chain, and the heap stays well formed |
| EditorSpec.Ctrl | utils/editor.c:33 | CTRL(c) is a control character congruent to `c` modulo 32 |
| EditorSpec.KeyNext | utils/editor.c:128-137 | ESC enters ESCAPED, CTRL('Q') exits, and no other key changes anything; the cursor never moves |
| EditorSpec.InputNext | utils/editor.c:109-126 | with no byte nothing changes; the editor exits exactly on CTRL('Q') read outside a sequence; only the byte after `ESC [` moves the cursor, and then the state returns to NORMAL; ESCAPED is entered only by ESC from NORMAL and SEQUENCE only by `[` right after ESC |
| EditorSpec.LinesOk | utils/editor.c:186-243 | the line table `readFile` leaves: the lines read, then one more entry of length 0 at index `linesUsed`; established by `Editor.Editor.constructor` |
| EditorSpec.Moved | utils/editor.c:140-173 | the `switch` of `handleSequence`; its properties are stated by `EditorSpec.MovedSteps` |
| EditorSpec.Clamped | utils/editor.c:175-182 | the clamp at the end of `handleSequence`; its properties are stated by `EditorSpec.ClampedFits` |
| EditorSpec.SequenceNext | utils/editor.c:139-184 | `handleSequence` as a whole; its properties are stated by `EditorSpec.SequenceKeepsBounds`, `EditorSpec.SequenceColumn` and `EditorSpec.VerticalMoves` |
| EditorSpec.InputKeepsValid | utils/editor.c:109-126 | every input keeps the cursor and window bounds |
| EditorSpec.MovedSteps | utils/editor.c:139-173 | the arrow keys move the text row by one up or down, within the text and the screen, and keep the row for left and right; all other bytes move nothing |
| EditorSpec.ClampedFits | utils/editor.c:175-182 | the clamp keeps the row, cuts the text column to the line length, never scrolls right, and changes nothing when the cursor already fits |
| EditorSpec.SequenceKeepsBounds | utils/editor.c:139-184 | after any sequence byte the cursor is on the screen, on a line of the text, at most one past the line's end, and the window has not scrolled past a non-empty line |
| EditorSpec.SequenceColumn | utils/editor.c:157-182 | the text column goes one right for `C` and one left for `D` (unless already 0), then is cut to the length of the current line |
| EditorSpec.VerticalMoves | utils/editor.c:141-156 | `A` and `B` move the cursor and scroll the window only from the top or bottom screen row; `B` stops at the last line of the text |
| Editor.Editor.constructor | utils/editor.c:186-243 | after `readFile` the line table holds the file's lines plus one of length 0, the cursor and window are at the origin, and the bounds hold |
| Editor.Editor.HandleKey | utils/editor.c:128-137 | changes the state as `KeyNext` says |
| Editor.Editor.HandleSequence | utils/editor.c:139-184 | moves the cursor and window as `SequenceNext` says and keeps the bounds |
| Editor.Editor.FitToLine | utils/editor.c:175-182 | the cursor and window become `Clamped` of the old position for the current line's length |
| Editor.Editor.GetInput | utils/editor.c:109-126 | changes the state as `InputNext` says and keeps the bounds |

## Left out

- `__lockHeap` and `__unlockHeap` are empty in this file, and concurrency is not modelled.
- `mapPages` is not modelled. `AllocateBigChunk` takes the address it returns as a parameter: page aligned, and not owned by any live header.
- `malloc`, `free` and the rest of the allocator are not part of this model. The chunk sizes they choose and the USED tag they write are taken as given.
- PAGESIZE is 4096. sizeof(Chunk) and SIZE_MAX are constructor parameters. Headers are entries of a map, so the model does not capture two headers overlapping in bytes or a header overwriting a payload. Only the live headers are proved not to overlap.
- MallocUtil.Heap.AllocateBigChunk: the C code lets `size + 2 * sizeof(Chunk)` and its page rounding wrap around in `size_t`. The model instead requires that the rounded size fits in SIZE_MAX. It also requires a well-formed heap and a live tail region with no next: the model assumes the caller passes the registry tail.
- MallocUtil.Heap.SplitChunk: the C code does not check that the chunk has room for the new header. The model requires it, since otherwise `chunk->size - sizeof(Chunk) - size` wraps. It also requires a well-formed heap and a live payload chunk.
- MallocUtil.Heap.UnifyChunks: the C code trusts its callers that `second` follows `first`. The model requires `first->next == second`, both chunks live payload chunks, and a well-formed heap.
- ChunkRegion.WellFormed does not state that every live region is reachable from `firstBigChunk` through the registry links; it states the shape of each live region and of the links between them.
- The editor's terminal output (`drawLines`, `updateCursorPosition`), the termios setup in `main` and `restoreTermios` write only to the terminal and are not modelled.
- `read` becomes an optional byte passed to `GetInput`. `exit(0)` becomes the `halted` flag, after which no input is handled.
- `readFile`'s file reading, `getline` and buffer growth are not modelled. The constructor takes the lengths of the lines read. Only line lengths are kept, never their text, because only lengths affect the cursor.
- Editor.Editor.GetInput, Editor.Editor.HandleSequence: they require the bounds that the constructor establishes and every input keeps. The C code relies on these bounds when it indexes `lines`.
