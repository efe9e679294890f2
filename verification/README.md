# The symmetric heap, the queue lock and the collectives of OSHMPI, in Dafny

OSHMPI implements OpenSHMEM on top of MPI-3. This project models the parts of it that keep state with an invariant
behind it, and proves those invariants and what callers may conclude from them.

**The allocator** of the symmetric heap (`src/dlmalloc.c`, the `mspace_*` routines with 64-bit words, 16-byte alignment,
no footers and no locks). Memory is one map from byte addresses to words. Every routine reads and writes that memory:
heads, feet, bin links, trie nodes, segment records and fenceposts are words in it, and a client's payload is the rest.
The class `Mspaces.Mspace` has the fields of `malloc_state` and one method per routine or macro; its ghost fields say
which chunks there are, which of them are binned, and how the bins are laid out, and `Valid()` ties them to memory:
chunks tile every segment, no two free chunks are neighbours, every tag and foot agrees, each free chunk is in exactly
one of `dv`, `top` or the bin of its size, both maps mark exactly the bins in use, and the segment records and their
fenceposts are in memory. `Growth` adds `sys_alloc`, `Requests` realloc and memalign, `Runs` whole client programs.
What the system says to each call is an input, a sequence of answers that the mspace uses up one by one; so each
contract can say in terms of the state before when the system is asked, and what follows from its answer.

| files | what is in them |
|---|---|
| `Words`, `Bytes`, `Bitwise`, `BinMap`, `TreeIndex` | words, bytes, masks, bin maps, the index of a tree bin |
| `Rings`, `Tries`, `TrieMemory`, `Bins`, `SmallBins`, `TreeBins`, `TreeUnlink`, `Search` | bins as rings and tries, on values and in memory; insertion, removal, best-fit search |
| `Heap`, `HeapMemory`, `HeapEdits`, `Freeing`, `Clients` | the layout of chunks, its tags in memory, and replacing a stretch of chunks by one or two others |
| `Regions`, `Records`, `Growing`, `Shrinking`, `Start` | segments and their records, memory that comes and goes, the initial state |
| `Effects` | what each operation does to the chunks and regions, and what it asks of the system |
| `Mspace`, `Growth`, `Requests`, `Runs` | the routines themselves, and programs that call them |
| `McsLock`, `McsProgress`, `McsEpisodes`, `Picks` | the distributed queue lock (`src/oshmpi-mcs-lock.c`), as atomic steps of any number of PEs |
| `CommCache` | the communicator cache, broadcast and collect (`src/shmem-internals.c`) |
| `CountingPut` | the counting put (`src/shmemx-counting-put.c`) |
| `Tickets` | the ticket loop of `tests/stream.c` |
| `BigCount` | datatypes of more than `INT_MAX` elements (`src/type_contiguous_x.h`) |

Five properties do not hold of the code without a condition, and the condition is proved to be exact. The queue lock
excludes only while acquisitions are limited: the tail is never reset, the next words are never cleared and the message
is probed, not received (`McsEpisodes`). The tree index is cut to 32 bits (`TreeIndex.IndexInBinExactly`). A counted put
is visible only where overlapping puts agree (`CountingPut.WaitSeesAll`). The number of chunks of a large datatype is
cast to `int` (`BigCount.ContiguousXIsContiguous`). Collect sums displacements in `int`, and lets every PE choose the
unit of its own length (`CommCache.DisplacementsExact`, `CommCache.CollectsExactly`).

Flush and type-map semantics are those of sections 11.5.4 and 4.1 of MPI 3.0. Signed overflow is taken to wrap around.

## Model

| member | source | states |
|---|---|---|
| `Runs.Execute` | src/dlmalloc.c:5495-5877 | any sequence of malloc, memalign, realloc, free and trim calls and client writes of single bytes, on a new mspace, with any answers of the system: every command does to the heap, to the regions and to the two counters exactly what its routine should, asks the system only when it should, and is answered with null exactly when it must be; the chunks in use are exactly the blocks the client holds, each large enough, aligned as it was asked for, disjoint from the others, and with every byte as last written; when the client holds none and the first region is again the only one, as it is when the system was never asked, the state is the initial one |
| `Runs.ZeroIffRefused` | src/dlmalloc.c:5495-5816 | a call for memory is answered with null if and only if its request is out of range, or nothing that is free is large enough, nor can the block grow in place, and the size to ask for wraps around or the system refuses |
| `Runs.ByteLasts` | src/dlmalloc.c:5730-5773 | a byte written into a block is found there, wherever realloc has moved the block since, until the block is freed, the byte is cut off, or it is written again |
| `Runs.LastWritten` | src/dlmalloc.c:5730-5773 | the same of the bookkeeping alone: replaying the calls gives the value of the last write that no free, shrinking realloc or other write of that byte has followed |
| `Mspaces.Mspace.Malloc` | src/dlmalloc.c:5495-5597 | all of `mspace_malloc` before the call of `sys_alloc`; null stands for reaching it: keeps the heap, bin and segment invariants and every word of every live payload; null, with nothing changed, exactly when no free chunk is large enough; else says which free chunk serves (a best fit of the bins, unless a small request finds no exact fit there and `dv` is large enough, or a large one no fit tighter than `dv`; `top` only when nothing else is large enough), how much of it the client gets, and what becomes of `dv` and `top` |
| `Mspaces.Mspace.Free` | src/dlmalloc.c:5609-5708 | exactly the freed chunk leaves the set of chunks in use; it is merged with its free neighbours, `dv` and `top` included; when `top` exceeds the trim threshold it is trimmed, and when a large chunk is binned for the last time before a check, unused segments are offered to the system; nothing else happens; all other payloads are kept, and null changes nothing |
| `Requests.Realloc` | src/dlmalloc.c:5730-5773 | keeps min(old usable size, new request) bytes of the block and all other payloads; null with nothing changed exactly when the request is too large, or it can neither grow in place nor be allocated elsewhere, the system refusing included; stays in place whenever it can, with the size and `dv` that follow; otherwise allocates as malloc does and frees as free does |
| `Requests.MoveChunk` | src/dlmalloc.c:5762-5770 | the last resort of realloc: a new chunk, from the system if need be, with the bytes kept, and the old one freed |
| `Mspaces.Mspace.CopyAndFree` | src/dlmalloc.c:5764-5768 | copies exactly the bytes that fit both, and frees the old chunk; all other payloads are kept |
| `Mspaces.Mspace.TryRealloc` | src/dlmalloc.c:4806-4883 | succeeds exactly when the chunk, with the free chunk, `dv` or `top` behind it, is large enough; then the chunk has the requested size, up to what is too small to split off, keeps its words, and what is left of `dv` is `dv`; else nothing has changed |
| `Requests.Memalign` | src/dlmalloc.c:5807-5816 | a block at a multiple of a power of two no smaller than the alignment, with room for the request and at most 32 bytes more than its padded size; null, with nothing changed, exactly when, for an alignment of at most 16, malloc fails, and for a larger one the enlarged request is out of range or malloc fails for it |
| `Requests.InternalMemalign` | src/dlmalloc.c:4885-4957 | the address is a multiple of the alignment rounded up to a power of two, the chunk has the padded size and at most 32 bytes more; fails exactly when the enlarged request is out of range, or nothing that is free is large enough for it and the system refuses or its size wraps around |
| `Mspaces.Mspace.FitAligned` | src/dlmalloc.c:4905-4950 | of a chunk with room, the middle starts at the front when that is aligned, else at the first aligned place that leaves a whole chunk before it, and stays in use; leader and trailer go back to the heap, and all other payloads are kept |
| `Mspaces.Mspace.DisposeChunk` | src/dlmalloc.c:4358-4424 | gives a chunk back, merged with its free neighbours on both sides: exactly that chunk leaves the chunks in use, and no segment changes |
| `Mspaces.Mspace.constructor` | src/dlmalloc.c:5394-5448 | a new mspace is valid whatever memory held before: the state in one chunk of its own, every small bin header linked to itself, all the rest in `top`, nothing in use |
| `Mspaces.Mspace.InitUserMstate` | src/dlmalloc.c:5394-5415 | the heads of the state, of `top` and of its foot, all small bin headers linked to themselves, and all tree bins null |
| `Mspaces.Mspace.AllFreed` | src/dlmalloc.c:5609-5708 | when nothing is in use and the region the mspace was made in is its only one, whatever others it had in between, it is in its initial state: one `top` at its first address and of its first size, no `dv`, both maps zero |
| `Start.FreeIffGap` | src/dlmalloc.c:3418-3446 | the free chunks are exactly the maximal gaps between chunks in use within a segment |
| `Start.Canonical` | src/dlmalloc.c:3418-3446 | two valid layouts with the same chunks in use are the same layout with the same `top` |
| `Mspaces.Mspace.InsertSmallChunk` | src/dlmalloc.c:3565-3581 | the bins hold exactly one chunk more, the given one, first in its bin, and no other word of memory changes; the map bit is set |
| `Mspaces.Mspace.UnlinkSmallChunk` | src/dlmalloc.c:3584-3607 | the bins hold exactly one chunk less, the given one; the map bit is cleared when the bin has become empty; the run-time address checks hold |
| `Mspaces.Mspace.UnlinkFirstSmallChunk` | src/dlmalloc.c:3610-3625 | the same of the first chunk of a small bin |
| `Mspaces.Mspace.InsertLargeChunk` | src/dlmalloc.c:3643-3692 | the bins, among them the trie of the size, hold exactly one chunk more; the walk ends within the size bits of the bin |
| `Mspaces.Mspace.UnlinkLargeChunk` | src/dlmalloc.c:3711-3780 | the bins hold exactly one chunk less: ring, promotion of a ring member, and replacement by a leaf, also a child of the chunk itself; trie order, parent and child links and map bit included; the run-time address checks hold |
| `Tries.UnlinkedOk` | src/dlmalloc.c:3711-3750 | what replaces the node is a trie over the same size range, with no size and no chunk the old one had not |
| `Tries.DropLeafOk` | src/dlmalloc.c:3727-3736 | taking away the leaf the search arrives at leaves a trie of all other sizes |
| `Rings.Delete` | src/dlmalloc.c:3598-3599 | the two link writes alone turn a ring into the ring without the chunk |
| `Mspaces.Mspace.ReplaceDv` | src/dlmalloc.c:3629-3638 | the old `dv` goes to its small bin and the chunk becomes `dv`; nothing in use changes |
| `Mspaces.Mspace.InsertChunk` | src/dlmalloc.c:3784-3786 | a free chunk outside the bins goes to the bin of its size |
| `Mspaces.Mspace.UnlinkChunk` | src/dlmalloc.c:3788-3790 | a free chunk leaves the bin of its size |
| `Mspaces.Mspace.FindLarge` | src/dlmalloc.c:4429-4474 | over all 32 tries, a chunk of least size among those large enough, with its remainder, or null exactly when there is none; unsigned wrap-around of the remainders included |
| `Mspaces.Mspace.TmallocLarge` | src/dlmalloc.c:4429-4497 | serves the request from such a best fit when it is tighter than `dv`, and otherwise changes nothing |
| `Mspaces.Mspace.FindSmallest` | src/dlmalloc.c:4500-4516 | a smallest chunk of all tries |
| `Mspaces.Mspace.TmallocSmall` | src/dlmalloc.c:4500-4535 | serves a small request from it |
| `Mspaces.Mspace.MallocSmall` | src/dlmalloc.c:5504-5555 | of the small bins and the tries, the bitmap search takes a best fit, an exact one when `dv` is large enough too, and fails only when `dv` should serve or nothing binned is large enough |
| `BinMap.LeastBitIsLowest` | src/dlmalloc.c:2925 | `x & -x` is the lowest set bit of `x` |
| `BinMap.LeftBitsAbove` | src/dlmalloc.c:2928 | for any `x` but zero, `left_bits` has exactly the bits above the lowest set bit of `x` |
| `BinMap.ComputeBit2Idx` | src/dlmalloc.c:2936-2941 | the position of the lowest set bit |
| `TreeIndex.IndexInBinExactly` | src/dlmalloc.c:2833-2844 | the index is that of the bin whose range, by `minsize_for_tree_index`, has the size, if and only if the size is below 2^40 or its bits 8 to 39 are at least 0xC000: beyond, the cut to 32 bits loses bits |
| `TreeIndex.BinsOrdered` | src/dlmalloc.c:2905-2907 | every size of a lower bin is below every size of a higher one |
| `TreeIndex.FirstKey` | src/dlmalloc.c:2900-2902 | the shift puts the first undecided size bit of a bin at the sign bit |
| `Words.PackingIsLossless` | src/dlmalloc.c:2254-2262 | size, `cinuse` and `pinuse` are recovered from the bits of a head word, so heads may be modelled as records |
| `Words.PinuseBits` | src/dlmalloc.c:2255 | the `pinuse` bit is bit 0 of the word, and setting it changes no other |
| `Words.Request2SizeIsLeast` | src/dlmalloc.c:2226-2231 | the padded request is the least legal chunk size with room for the request |
| `Clients.ClientWrote` | src/dlmalloc.c:2069-2087 | a client that writes only inside its payload, up to and including the next chunk's first word, breaks no invariant and changes no other payload |
| `Bytes.CopiedByWords` | src/dlmalloc.c:5764-5766 | copying whole words and the low bytes of the last one copies exactly that many bytes |
| `Growth.Malloc` | src/dlmalloc.c:5495-5607 | serves from what is free whenever that is possible, and only otherwise asks the system, once; fails, with nothing changed, exactly when the system refuses then or the size to ask for wraps around |
| `Growth.SysAlloc` | src/dlmalloc.c:4032-4240 | asks for the padded size exactly when that does not wrap around, and fails, with nothing changed, exactly when it does or the system refuses; with a region, wherever it lies, the request succeeds, all invariants and payloads are kept, and the regions grow by exactly the size asked for |
| `Growth.UseRegion` | src/dlmalloc.c:4192-4229 | a region that continues the unpinned one of `top` enlarges it and the block is at the old `top`; otherwise one that ends where an unpinned one starts is put in front of the first such and the block is at its start; otherwise it becomes a segment of its own, first in the list, and the block is at its start |
| `Growth.Append` | src/dlmalloc.c:4190-4199 | a region that continues the segment of `top` enlarges `top` |
| `Growth.PrependAlloc` | src/dlmalloc.c:3935-3974 | a region in front of a segment: the request at its start, the rest merged into `top`, `dv` or a free first chunk, or binned |
| `Growth.AddSegment` | src/dlmalloc.c:3977-4027 | a segment of its own: the old one is closed by its record and at least two fenceposts, what is left of the old `top` is binned, the new region becomes `top` |
| `Growth.InsertFenceposts` | src/dlmalloc.c:4006-4015 | at least two fenceposts, up to the end of the segment |
| `Records.TwoFenceposts` | src/dlmalloc.c:4006-4015 | the invariant of all operations gives them: behind the record of every closed segment stand at least two fenceposts, inside its region |
| `Mspaces.Mspace.SegmentHolding` | src/dlmalloc.c:2696-2704 | walks the records in memory and finds the first segment that holds the address, or null when none does |
| `Mspaces.Mspace.HasSegmentLink` | src/dlmalloc.c:2707-2715 | whether some record lies in the segment |
| `Mspaces.Mspace.ReleaseUnusedSegments` | src/dlmalloc.c:4243-4288 | each segment but the first that is one free chunk is offered to the system, in the order of the list, and goes exactly when the system takes it; no other does; `dv` is forgotten exactly when it was offered; all invariants and payloads are kept, and the returned count is exactly the number of bytes the regions have lost |
| `Mspaces.Mspace.TryRelease` | src/dlmalloc.c:4251-4277 | the system is asked exactly when the first chunk is free and reaches the foot; the segment goes exactly when the system takes it, and else the chunk is binned |
| `Mspaces.Mspace.SysTrim` | src/dlmalloc.c:4290-4353 | for every padding: the end of `top`, then unused segments are offered; keeps all invariants and payloads; reports a success exactly when the regions have shrunk; turns trimming off when nothing could be given back and `top` exceeds the threshold |
| `Mspaces.Mspace.TrimEnd` | src/dlmalloc.c:4296-4343 | the whole units beyond the padding, but one, are offered exactly when the segment of `top` is not pinned, has them and holds no record; exactly they go when the system takes them, and nothing else changes; the returned count is what its region has lost |
| `McsLock.MutualExclusion` | src/oshmpi-mcs-lock.c:43-115 | in every run of any number of PEs in which each acquires at most once, by `oshmpi_lock` or `oshmpi_trylock`, at most one is inside, and the right to enter is never duplicated |
| `McsLock.OneFindsNoTail` | src/oshmpi-mcs-lock.c:48-53 | at most one step of a run ever swaps, or compares and swaps, out -1 |
| `McsLock.FirstComeFirstServed` | src/oshmpi-mcs-lock.c:47-66 | with `oshmpi_lock` only, those that have entered are at every point a prefix of the order of tail swaps |
| `McsLock.WaiterIsServed` | src/oshmpi-mcs-lock.c:56-79 | a waiter whose link has landed before its predecessor's unlock read it has, at all later points, entered, a pending message, or an unfinished predecessor |
| `McsProgress.CanGoOn` | src/oshmpi-mcs-lock.c:43-115 | in every reachable state each PE that neither has finished nor waits for a message that is not there has a step, with either routine |
| `McsProgress.PlainRunsFinish` | src/oshmpi-mcs-lock.c:43-85 | with `oshmpi_lock` only and one acquisition each, every run goes on until no PE has a step, after at most seven steps per PE (`PlainRunsEnd`) |
| `McsProgress.AllServedIff` | src/oshmpi-mcs-lock.c:43-85 | then all have had the lock, if and only if no unlock has read an empty next word with another PE swapping itself in behind it, before or since; the tail still names a PE that has left |
| `McsEpisodes.ExclusiveIffOneRepeats` | src/oshmpi-mcs-lock.c:43-85 | with `oshmpi_lock` only, mutual exclusion holds of all runs if and only if at most one PE may acquire the lock more than once |
| `McsEpisodes.ExclusiveIffFewRepeat` | src/oshmpi-mcs-lock.c:43-115 | with `oshmpi_trylock` too, for any number of PEs, if and only if no PE may, or there is at most one PE, or there are two of which at most one may |
| `McsEpisodes.OneOfTwoMayRepeat` | src/oshmpi-mcs-lock.c:43-115 | of two PEs one may acquire again and again, with either routine |
| `McsEpisodes.ReacquisitionFails` | src/oshmpi-mcs-lock.c:43-85 | a run of two PEs with two acquisitions each that ends with both inside |
| `McsEpisodes.TryingFails` | src/oshmpi-mcs-lock.c:43-115 | a run of three PEs, one of which acquires twice and one of which tries, that ends with two inside |
| `CommCache.Table.Acquire` | src/shmem-internals.c:982-1048 | the communicator has the ordered group `start + i * 2^logs`, the root is its position there; for an active set that is cached it is the cached one and nothing changes; otherwise it is new, the first empty slot holds it when there is one, and no other slot changes |
| `CommCache.Table.Release` | src/shmem-internals.c:1050-1069 | the world and cached communicators stay, any other one is freed, and nothing else changes |
| `CommCache.Table.Collective` | src/shmem-internals.c:1075-1079 | the acquisition of a collective, with its release (1136): a new communicator exists afterwards exactly when the cache had room for it, and nothing else changes |
| `CommCache.Table.Collectives` | src/shmem-internals.c:982-1069 | any sequence of collectives: once a communicator is in the cache all later ones on the same active set use it; when all active sets fit into the cache each of them has one that stays; and of the new communicators exactly those in the cache remain |
| `CommCache.RankOfMember` | src/shmem-internals.c:960-977 | the translated root of member `i` of a strided group is `i` |
| `CommCache.BroadcastDelivers` | src/shmem-internals.c:1096-1104 | afterwards every other PE's target holds the root's source, and the root's own target is as it was |
| `CommCache.Displacements` | src/shmem-internals.c:1110-1116 | in `int` arithmetic, every displacement is the sum of the counts before, wrapped to 32 bits |
| `CommCache.DisplacementsExact` | src/shmem-internals.c:1110-1116 | all displacements are the sums themselves if and only if the sum of all counts but the last is an `int` |
| `CommCache.ThreeLargeOverflow` | src/shmem-internals.c:1113-1116 | with three PEs of 2^30 elements each the last displacement is negative |
| `CommCache.CollectsExactly` | src/shmem-internals.c:1081-1121 | with the choice of count and type that every PE makes for its own length: on every PE every contribution ends up where the concatenation has it if and only if all lengths are below INT32_MAX and those that are not empty start within an `int`, or all lengths are the same and not below it |
| `CommCache.MixedLengths` | src/shmem-internals.c:1081-1121 | lengths 2^31 and 1 give counts 1 and 1, and the second PE expects one element of the first |
| `CommCache.CollectDelivers` | src/shmem-internals.c:1108-1121 | for those lengths, what every PE has at the place of a contribution is that contribution |
| `CommCache.CollectConcatenates` | src/shmem-internals.c:1108-1121 | in the concatenation every contribution starts at the sum of the lengths before it |
| `CountingPut.CounterBehindData` | src/shmemx-counting-put.c:54-59 | in every interleaving, with the bytes of a put landing one by one in any order, the counter never exceeds its start by more than the number of calls whose data is complete |
| `CountingPut.WaitSeesAll` | src/shmemx-counting-put.c:49-59 | from when the count of all calls is read, all payloads are in memory, if and only if overlapping calls put the same bytes |
| `CountingPut.OverlapLosesData` | src/shmemx-counting-put.c:49-59 | a run in which two calls that disagree are both counted and one payload is lost |
| `CountingPut.RunsFinish` | src/shmemx-counting-put.c:49-59 | every run can be continued until all calls are counted, and then the counter is at its start plus their number |
| `Tickets.EachBlockOnce` | tests/stream.c:263-406 | in every interleaving no block is executed twice, and when all PEs are done every block has been |
| `Tickets.CanGoOn` | tests/stream.c:263-406 | from every reachable state each PE that has not finished has a step |
| `Tickets.RunsFinish` | tests/stream.c:263-406 | every run can be continued until all PEs have finished, and then every block has been executed exactly once; no run has more than `n * (2 * blocks + 1)` steps (`RunsEnd`) |
| `Tickets.BlockNumbers` | tests/stream.c:263-406 | the blocks of all phases have different numbers in one sequence |
| `BigCount.ContiguousXIsContiguous` | src/type_contiguous_x.h:28-52 | the result has the type map of `count` contiguous elements exactly when the number of whole chunks is an `int` (for a type that is not empty) |
| `BigCount.ExtentIsContiguous` | src/type_contiguous_x.h:39-46 | and its extent is theirs |
| `BigCount.ElementAt` | src/type_contiguous_x.h:28-52 | element `k` comes after the `k` before it, at `k` extents |

## Left out

- Growth.SysAlloc: leaves out chunks mapped directly (4041-4046), the footprint limit and the `MORECORE` paths; a granted region is a multiple of the granularity, apart from all others, and together with any of them below 2^40 bytes.
- Growth.Malloc: the same, since it is the only caller.
- Mspaces.Mspace.constructor: base and capacity are multiples of 16 and the capacity is below 2^40, so that all sizes are in the range where the tree index is right; the granularity is the default of 64K, and the page size does not exceed it.
- Requests.Memalign: alignments above 2^63, for which the rounding loop does not end.
- Mspaces.Mspace.TrimEnd: `mremap` and the `munmap` that is tried after it are one call with one answer.
- Mspaces.Mspace.Malloc: of several tree chunks of the best size any may serve; of a small bin the newest chunk does (`TakeFirst`).
- Mspaces.Mspace.Valid: the scalar fields of `malloc_state`, apart from the bins, are fields of the class and not words of memory; the chunk that holds the state is in use and nothing else writes to it.
- Words.PackingIsLossless: head words are records of size and flags in memory; the lemma is the link to their bits. Words that start at different addresses do not overlap in the model; the routines only use aligned ones.
- CommCache.Table.Acquire: `MPI_Group_incl`, `MPI_Comm_create_group` and `MPI_Group_translate_ranks` by what they return; agreement of the caches of different PEs is not decided by this code.
- McsEpisodes.ReacquisitionFails: and the other failing runs let `MPI_Send` complete without a receive that matches it, as a short message does; no safety result depends on that.
- CommCache.CollectsExactly: lengths for which the large datatype itself is wrong, from 2^62 - 2^31 on, which no memory holds; contributions of a size that the receiver does not expect are erroneous in MPI, and only their places are compared here.
- CommCache.Table.Collective: the switch between acquisition and release does not touch the cache; its broadcast and collect arms are modelled on their own, the others are one MPI call each.
- CountingPut.WaitSeesAll: one waiting PE, no `shmemx_ct_set` after the start, and no put onto the counter itself.
- BigCount.ContiguousXIsContiguous: lower bounds other than 0, and displacements beyond the range of `MPI_Aint`.
- Tickets.EachBlockOnce: the arithmetic on the arrays, the reductions and the timing.
- McsProgress.AllServedIff: the condition names what happened in the run; no schedule is assumed fair, and the code provides no liveness beyond it. The return value of `oshmpi_trylock` is not modelled.
- The `dl*` entry points, `calloc`, `independent_*`, `bulk_free`, `realloc_in_place`, `mallopt`, statistics and inspection.
- Locks, footers and magic numbers, corruption and usage error actions: the run-time checks are assertions here, and hold.
- Shared-memory shortcuts, reductions, strided transfers, wait macros and the initialisation of MPI.
