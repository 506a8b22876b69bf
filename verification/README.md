# Mushroom, modelled and proved in Dafny

Mushroom runs a Linux program inside a confidential virtual machine: a small kernel, a
supervisor for SEV-SNP or TDX below it, and a host that loads the input and collects the
output. This project models the parts of it where many things happen at once, or where one
byte string has to survive several programs, and proves what they promise.

Concurrent parts are state machines: one action is one atomic access or one lock section,
any number of CPUs or threads take actions in any order, and a theorem about a `Reachable`
state is a theorem about every run. Fields called history record what happened for the
proofs and do not steer the machine, except that callers return only frames they hold.
Sequential parts are classes and methods with loops, proved against functions on values.
Memory is sequentially consistent throughout.

| files | what they model |
|---|---|
| `FrameWord`, `FrameAllocator`, `FrameView`, `FrameProof`, `FrameTheorems`, `FrameUnplug` | the physical frame allocator with per-CPU private groups and hot-plug |
| `PageTables`, `PageTablesProof`, `PageTablesTheorems` | reference-counted page tables under concurrent mapping and unmapping |
| `RangeWalk` | unmapping a range of user pages by four nested, clamped loops |
| `Executor`, `ExecutorProof`, `ExecutorTheorems` | task states, run queue, vCPU scheduler, launches and wake-ups |
| `TlbShootdown` | the TDX supervisor's TLB flush |
| `RwLock` | the fetch-add reader/writer lock |
| `CommandRing`, `Output` | the command ring between kernel and supervisor, and the output path to the host |
| `SlotAllocator`, `SlotLedger` | 2 MiB memory slots: the supervisor's bitmap and every other place that names a slot |
| `InputChain`, `InputLoad` | the hashed chain of inputs: loader, offline hash, verification, kernel reader |
| `PagedBuffer` | file contents kept in pages; the kernel reader of `InputLoad` writes into it |
| `TmpFs`, `FilePath`, `PathLookup` | the directory tree, path segments, printing and looking up a path |
| `Notify`, `StreamBuffer`, `StreamLink` | notifications, pipes, and writers that wait for room |
| `Basics` | definitions the others share |

Properties that turned out not to hold of the code are stated with the exact condition under
which they do, and with a run or an input on which they fail:

- Hot-unplug of an unused chunk always panics when it is reached, because the workspace
  enables overflow checks (`FrameTheorems.UnplugExactly`); a run of two CPUs reaches it
  (`FrameUnplug.UnplugPanics`). A slot is given back only by a CPU that then panics
  (`FrameTheorems.SlotsReturnOnlyByPanic`).
- A page table can be freed under another thread's guard. Of all steps, exactly the drops
  that find the count at zero while some thread has made a child present and not counted it
  yet do so (`PageTablesTheorems.StepExact`, `FreedRightly`); a run of two threads comes to
  one (`WrongfulReachable`). The other page-table theorems hold in every run up to the first
  such drop, and there is none if no page is unmapped before it is counted
  (`DisciplineSuffices`).
- Unmapping a range that lies entirely above the user half unmaps the last user page
  (`RangeWalk.RangeExact`).
- The search for a free slot can end at slot 32767, whose number the index type refuses
  (`SlotAllocator.PanicsExactly`, `SlotLedger.PanicsOnlyOnLastSlot`). It does so for an
  allocator that is asked for slots 32768 times (`SlotAllocator.LastSlotPanics`,
  `SlotLedger.LastSlotStops`).
- Inputs that need more pages than are reserved are cut off and then rejected
  (`InputChain.LoadedPassesExactly`).
- Renaming a directory over the directory that contains it locks that directory twice
  (`TmpFs.FileSystem.Rename`, `TmpFs.DeadlockExample`).
- A directory's printed path leads back to it exactly while it and its ancestors are linked
  (`PathLookup.LookupFindsPrinted`); deleted directories keep their old location
  (`PathLookup.DeletedExample`).

Where code and comment disagree, the code is modelled: the lock's `reload` resets the word
while it is at or below its limit, although the comment says it does so once the word is no
longer low enough (tee/kernel/src/spin/rwlock.rs:33-47).

## Model

| member | source | states |
|---|---|---|
| FrameWord.PackRoundTrip | tee/kernel/src/memory/frame.rs:271-288 | the three fields of the packed level-2 word can be read back, for every word that fits |
| FrameWord.FetchAddCarry | tee/kernel/src/memory/frame.rs:342-346 | the unmasked addition changes only the free field exactly when that field is below its limit |
| FrameWord.ClearFreeField | tee/kernel/src/memory/frame.rs:483-505 | masking empties the free field and keeps owner and plugged bits |
| FrameWord.MaskRoundTrip | tee/kernel/src/memory/frame.rs:398-421 | the bitmask of plugged chunks survives encoding |
| FrameWord.LocationRoundTrip | tee/kernel/src/memory/frame.rs:609-626 | a packed (group, chunk) location decodes to itself |
| FrameTheorems.StepKeeps | tee/kernel/src/memory/frame.rs:56-146 | every action of every CPU keeps the allocator's invariant |
| FrameTheorems.NeverHandedOutTwice | tee/kernel/src/memory/frame.rs:56-146 | in every run an action hands out one frame that is not in use, takes one back, or leaves the frames in use alone |
| FrameTheorems.ChunkLedgerHolds | tee/kernel/src/memory/frame.rs:173-196 | private count, shared count and frees between bit and counter add up to the clear bits of a plugged chunk |
| FrameTheorems.GroupLedgerHolds | tee/kernel/src/memory/frame.rs:342-346 | the same sum for the level-2 word over a whole group, and the word's free field never reaches its limit |
| FrameTheorems.FindFreeNeverFails | tee/kernel/src/memory/frame.rs:173-186 | the scan for a clear bit never runs off its last word, although it loads and sets in two steps |
| FrameTheorems.PackedWordRefines | tee/kernel/src/memory/frame.rs:309-346 | in every reachable state the arithmetic on the packed word does to its fields what the machine does; no carry into the owner bit |
| FrameTheorems.ReverseMapExact | tee/kernel/src/memory/frame.rs:113-124 | for every frame in use the reverse map names a chunk backed by the frame's slot, the only one, within the range the packed form can hold, and the frame's bit is set there |
| FrameTheorems.FreeClearsOwnBit | tee/kernel/src/memory/frame.rs:113-146 | a deallocation clears the bit its allocation set, whatever was plugged or claimed in between |
| FrameTheorems.AtMostOneOwner | tee/kernel/src/memory/frame.rs:309-339 | a group has at most one private copy, and then its owner bit is set |
| FrameTheorems.SlotsNotShared | tee/kernel/src/memory/frame.rs:89-96 | no slot backs two chunks and none in use is in the pool |
| FrameTheorems.UnplugExactly | tee/kernel/src/memory/frame.rs:507-534 | the unplug branch panics exactly when a chunk is unused and the free count is below one chunk, which takes an overlapping free |
| FrameUnplug.UnplugPanics | tee/kernel/src/memory/frame.rs:507-534 | and it does panic: one CPU gives up its group while another has returned a frame's bit and its level-1 count, but not yet its level-2 count |
| FrameTheorems.SlotsReturnOnlyByPanic | tee/kernel/src/memory/frame.rs:507-558 | no action gives a slot back without panicking |
| PageTablesTheorems.StepExact | tee/kernel/src/memory/pagetable.rs:795-1028 | a step keeps the counts balanced if and only if it is not a drop that finds the count at zero while an increment is owed |
| PageTablesTheorems.CountExact | tee/kernel/src/memory/pagetable.rs:795-1028 | in every run up to the first such drop, stored count plus one equals guards plus present children, adjusted for operations in flight; an absent table has neither |
| PageTablesProof.CountParts | tee/kernel/src/memory/pagetable.rs:924-1028 | the count is made up of the guards whose holders owe no increment, the children and the decrements under way |
| PageTablesTheorems.FreedExactly | tee/kernel/src/memory/pagetable.rs:1181-1207 | a table is freed if and only if the only guard whose holder owes it no increment is dropped, with no child present and no decrement to come |
| PageTablesTheorems.FreedRightly | tee/kernel/src/memory/pagetable.rs:1181-1207 | the guards left behind by a free are those of threads that owe an increment, none exactly if there is no such thread, and each of their counts then fails |
| PageTablesTheorems.DisciplineSuffices | tee/kernel/src/memory/pagetable.rs:1096-1129 | runs in which no page is unmapped before it is counted have no wrongful drop |
| PageTablesTheorems.FreedOnlyWhenUnused | tee/kernel/src/memory/pagetable.rs:1181-1207 | in such runs a table is freed only by dropping its last guard, with no child present and nothing in flight |
| PageTablesTheorems.NeverFails | tee/kernel/src/memory/pagetable.rs:1121-1157 | no "frame is None" assertion of `try_unmap` or of releasing a parent fails, nor does the count-up of `set_page` (lines 1096-1105) |
| PageTablesTheorems.CountFitsTenBits | tee/kernel/src/memory/pagetable.rs:924-969 | with at most 32 CPUs the count never overflows its ten bits |
| PageTablesTheorems.WrongfulReachable | tee/kernel/src/memory/pagetable.rs:1096-1129 | a run of two threads comes to a wrongful drop |
| RangeWalk.FlatHolds | tee/kernel/src/memory/pagetable.rs:465-585 | the flat loop visits exactly the mapped pages of the range |
| RangeWalk.FlatAscends | tee/kernel/src/memory/pagetable.rs:465-585 | and each of them once, in ascending order |
| RangeWalk.AddressSpace.UnmapPages | tee/kernel/src/memory/pagetable.rs:571-576 | the innermost loop equals the flat loop on its pages |
| RangeWalk.AddressSpace.UnmapTables | tee/kernel/src/memory/pagetable.rs:546-577 | so does the loop over page tables with its clamped bounds |
| RangeWalk.AddressSpace.UnmapDirectories | tee/kernel/src/memory/pagetable.rs:521-578 | so does the loop over directories |
| RangeWalk.AddressSpace.UnmapAll | tee/kernel/src/memory/pagetable.rs:496-579 | so does the level-4 loop: same pages removed, same order of removal |
| RangeWalk.AddressSpace.TryUnmapUserPages | tee/kernel/src/memory/pagetable.rs:465-585 | the whole call removes exactly the named user pages, outside the one exception |
| RangeWalk.RangeExact | tee/kernel/src/memory/pagetable.rs:465-492 | the clamped bounds name the caller's range if and only if it does not lie entirely above the user half |
| ExecutorTheorems.StepKeeps | tee/kernel/src/rt.rs:30-115 | every step of every vCPU and of the supervisor keeps the invariant |
| ExecutorTheorems.OneCarrier | tee/kernel/src/rt.rs:54-115 | a task is queued at most once, has at most one poller, never both, and the update after a poll always applies |
| ExecutorTheorems.NoLostWake | tee/kernel/src/rt.rs:94-115 | after a wake on an unfinished task, however the run continues, a poll that starts after the wake is still to come until it happens |
| ExecutorTheorems.PendingIsToCome | tee/kernel/src/rt.rs:54-91 | a task with an unanswered wake is queued, being pushed, popped, about to be polled, or marked for another poll |
| ExecutorTheorems.QueueIsServed | tee/kernel/src/user.rs:7-34 | a non-empty queue always has a running vCPU that will look at it before halting |
| ExecutorTheorems.TimeAdvancesOnlyWhenIdle | tee/kernel/src/supervisor.rs:235-245 | time is skipped only when the queue is empty, every task is waiting or done, no wake is unanswered and no other vCPU holds a task, and this stays so until the skipping vCPU wakes one |
| ExecutorTheorems.BitsAreHonest | tee/kernel/src/supervisor.rs:177-280 | running vCPUs have their bit set; each set bit stands for a vCPU that runs or whose kick or launch is on its way; the bitmap is never zero |
| ExecutorTheorems.LaunchIndices | tee/kernel/src/supervisor.rs:216-257 | a launched vCPU gets the index its bit was set for, the launch assertion holds, and at most 32 are launched |
| ExecutorTheorems.RefusedIsQuiet | tee/kernel/src/supervisor.rs:235-245 | a refused halt means that nothing else can run |
| ExecutorProof.PickIndex | tee/kernel/src/supervisor.rs:216-233 | the lowest clear bit is a launched vCPU or exactly the next one to launch |
| TlbShootdown.StepKeeps | tee/supervisor-tdx/src/tlb.rs:18-46 | every step of entries, flushes and handlers keeps the bookkeeping |
| TlbShootdown.FlushedEverywhere | tee/supervisor-tdx/src/tlb.rs:23-36 | when a flush returns, every vCPU that may hold an older translation is outside the guest and will invalidate before entering |
| TlbShootdown.NeverStaleInGuest | tee/supervisor-tdx/src/vcpu.rs:161-170 | from then on, in every continuation, no vCPU is in the guest with a translation from before the flush |
| RwLock.StepKeeps | tee/kernel/src/spin/rwlock.rs:33-81 | every step keeps word, readers and writers consistent |
| RwLock.Exclusion | tee/kernel/src/spin/rwlock.rs:33-81 | a non-negative word is the number of readers with no writer; a negative one means one writer and no reader |
| RwLock.WriteLockedStaysLow | tee/kernel/src/spin/rwlock.rs:58-81 | with fewer than 2^62 threads, failed reads and racing reloads never lift a write-locked word above the reload limit |
| RwLock.GrantsExactly | tee/kernel/src/spin/rwlock.rs:113-118 | a read is granted exactly without a writer, a write exactly without any guard |
| CommandRing.DecodeEncode | common/supervisor-services/src/command_buffer.rs:155-245 | every command decodes from its bytes |
| CommandRing.PushExact | common/supervisor-services/src/command_buffer.rs:50-66 | a push is refused exactly when the command does not fit beside the unread bytes |
| CommandRing.StepKeeps | common/supervisor-services/src/command_buffer.rs:50-141 | every byte-level step of writer and reader keeps the ring consistent |
| CommandRing.DispatchedInOrder | common/supervisor-services/src/command_buffer.rs:98-141 | the reader never meets an unknown command, and the dispatched commands are a prefix of the pushed ones |
| CommandRing.UnreadIsWholeCommands | common/supervisor-services/src/command_buffer.rs:50-141 | the unread part of the ring is the encodings of the commands not yet completed, byte by byte |
| CommandRing.FramesAreEncodings | common/supervisor-services/src/command_buffer.rs:68-75 | those recorded encodings are the encodings of the pushed commands |
| CommandRing.UnreadNeverOverwritten | common/supervisor-services/src/command_buffer.rs:59-75 | no store of the writer touches a byte the reader has not released |
| Output.Output | tee/kernel/src/supervisor.rs:282-286 | the commands pushed for an output carry exactly its bytes, in non-empty chunks of at most a page |
| Output.UpdateValueRoundTrip | host/mushroom/src/snp.rs:348-351 | the host decodes page and length from the register value the supervisor writes |
| Output.OutputChannel.Update | tee/supervisor-snp/src/output.rs:39-62 | hash input, length and the host's record all grow by exactly the given bytes |
| Output.OutputChannel.Finish | tee/supervisor-snp/src/output.rs:65-75 | the report covers exactly what was hashed and its length |
| Output.OutputChannel.HandleAll | tee/supervisor-snp/src/services.rs:76-87 | handling any list of commands hashes and forwards the output before the first one that finishes or fails, and reports or discards it accordingly |
| Output.Supervise | tee/supervisor-snp/src/services.rs:23-30 | for every run of the ring, the host's record is the output pushed before the first finish or fail; a report exists exactly after a finish and covers exactly that record |
| Output.OutputInOrder | common/supervisor-services/src/command_buffer.rs:206-221 | in every run the output handed over is a prefix of the output pushed |
| Output.FinishSeesAllOutput | tee/kernel/src/supervisor.rs:289-296 | when the finish command is dispatched, all output pushed before it has been handed over |
| SlotAllocator.HostAllocator.AllocateSlot | tee/supervisor-snp/src/dynamic.rs:39-58 | the wrap-around search fails exactly when every bit is set, otherwise sets the first clear bit in search order and no other |
| SlotAllocator.HostAllocator.DeallocateSlot | tee/supervisor-snp/src/dynamic.rs:60-66 | clears exactly the named bit, or reports the failed assertion |
| SlotAllocator.PanicsExactly | tee/supervisor-snp/src/dynamic.rs:39-58 | when the search ends at the slot number that panics |
| SlotAllocator.LastSlotPanics | tee/supervisor-snp/src/dynamic.rs:39-58 | a new allocator that is only asked for slots panics on its 32768th |
| SlotLedger.StepKeeps | tee/kernel/src/supervisor.rs:93-173 | every step of kernel CPUs and supervisor keeps the ledger balanced |
| SlotLedger.OnePlace | common/supervisor-services/src/allocation_buffer.rs:30-56 | every slot is clear in the bitmap or named exactly once by buffer, supervisor, kernel, cache or a queued deallocation |
| SlotLedger.NoDoubleFree | tee/supervisor-snp/src/dynamic.rs:60-66 | the assertion against double frees never fails |
| SlotLedger.EntryNotOverwritten | tee/supervisor-snp/src/services.rs:63-70 | a refill never overwrites an entry the kernel has yet to take |
| SlotLedger.PanicsOnlyOnLastSlot | common/supervisor-services/src/allocation_buffer.rs:66-69 | the supervisor stops exactly when it takes the slot at the index limit |
| SlotLedger.LastSlotStops | tee/supervisor-snp/src/services.rs:63-70 | a run of one request, in which the lowest slot is served first and the kernel takes each slot as it comes, gets there |
| InputChain.HeaderRoundTrip | common/io/src/input.rs:6-13 | a header decodes from its bytes |
| InputChain.VerifiedHash | tee/supervisor-snp/src/input.rs:19-68 | whatever passes verification against a hash carries inputs with exactly that chain hash |
| InputChain.ChainInjective | common/io/src/input.rs:15-50 | equal chain hashes mean equal lists of inputs, unless two of the strings hashed for them collide |
| InputChain.SameHashSameInputs | tee/supervisor-snp/src/input.rs:19-68 | any two page layouts that pass against one hash carry the same inputs, under the same proviso |
| InputChain.LoaderPasses | common/loader/src/input.rs:17-51 | the loader's pages pass and carry its inputs |
| InputChain.LoaderCutFails | common/loader/src/input.rs:53-61 | the loader's pages, cut short anywhere, do not pass |
| InputChain.LoadedPassesExactly | common/loader/src/input.rs:53-68 | what the loader loads passes if and only if it fits the reserved frames |
| InputLoad.LoadInput | common/loader/src/input.rs:17-68 | the reversed pass and the page layout compute the chain's pages and hash |
| InputLoad.InputHash | host/mushroom-verify/src/lib.rs:175-191 | the offline hash, computed from hashed inputs alone, equals the loader's |
| InputLoad.ReadInput | tee/supervisor-snp/src/input.rs:41-59 | reading whole pages and a zero-padded rest yields the input or fails exactly when it should |
| InputLoad.VerifyAndLoad | tee/supervisor-snp/src/input.rs:19-68 | the loop accepts exactly the layouts that carry a verified chain |
| InputLoad.CopyInput | tee/kernel/src/fs.rs:75-94 | after the truncate and the page-sized writes, one input sits behind what the file held before it and nothing follows it |
| InputLoad.CopyTo | tee/kernel/src/fs.rs:42-98 | on every verified layout the file ends up as the concatenated inputs, or untouched if there are none |
| InputLoad.VerifiedCarried | tee/kernel/src/fs.rs:61-73 | the kernel, which looks only at lengths, sees the inputs the supervisor verified |
| PagedBuffer.Buffer.Reserve | tee/kernel/src/memory/page/buffer.rs:33-47 | new pages are zero and old pages stay |
| PagedBuffer.Buffer.ReserveZeroed | tee/kernel/src/memory/page/buffer.rs:50-68 | afterwards every byte past the length is zero, and the content is unchanged |
| PagedBuffer.Buffer.Write | tee/kernel/src/memory/page/buffer.rs:167-224 | a write splices into the flat string, with zeros in a gap |
| PagedBuffer.Buffer.Truncate | tee/kernel/src/memory/page/buffer.rs:287-294 | truncation cuts or zero-extends the flat string |
| PagedBuffer.Buffer.Read | tee/kernel/src/memory/page/buffer.rs:70-115 | a read copies exactly the flat bytes and touches nothing else |
| PagedBuffer.Buffer.GetPage | tee/kernel/src/memory/page/buffer.rs:296-313 | a page is the flat content padded with zeros; refused exactly past the stored pages |
| PagedBuffer.RunAll | tee/kernel/src/memory/page/buffer.rs:33-313 | over any sequence of writes, truncations, reads and page requests the pages behave as the flat string, and every result a caller sees is the one it gives |
| PagedBuffer.WrittenAt | tee/kernel/src/memory/page/buffer.rs:167-224 | every byte of the spliced string |
| PagedBuffer.RegrownIsZero | tee/kernel/src/memory/page/buffer.rs:50-68 | a region given up by shrinking comes back as zeros |
| TmpFs.FileSystem.CreateDir | tee/kernel/src/fs/node/tmpfs.rs:214-232 | adds one directory that remembers its place, or reports that the name exists; the tree is kept |
| TmpFs.FileSystem.CreateNonDir | tee/kernel/src/fs/node/tmpfs.rs:245-292 | adding another entry, even over a directory, keeps the tree |
| TmpFs.FileSystem.Delete | tee/kernel/src/fs/node/tmpfs.rs:381-402 | removes exactly an empty directory or a non-directory, with the matching errors; the tree is kept |
| TmpFs.FileSystem.Drop | tee/kernel/src/fs/node/directory.rs:246-268 | once the last reference to an unlinked directory is gone it can no longer be found as a parent; the tree is kept |
| TmpFs.FileSystem.CheckAncestors | tee/kernel/src/fs/node/tmpfs.rs:514-525 | the ancestor loop ends, and goes on exactly when the entry is not above the target and every ancestor is there |
| TmpFs.FileSystem.Rename | tee/kernel/src/fs/node/tmpfs.rs:404-558 | moves exactly when the move is allowed, keeps the tree, gives each error only for its reason, and never returns exactly when a directory is moved over the one that contains it |
| TmpFs.DeadlockExample | tee/kernel/src/fs/node/tmpfs.rs:454-457 | that case occurs |
| TmpFs.MovedKeeps | tee/kernel/src/fs/node/tmpfs.rs:538-554 | a move below a directory that is not a descendant keeps the tree |
| TmpFs.NoCycle | tee/kernel/src/fs/node/tmpfs.rs:514-525 | no directory is its own ancestor |
| TmpFs.OneChain | tee/kernel/src/fs/node/directory.rs:261-268 | the chain of remembered parents is unique |
| FilePath.CollectSegments | tee/kernel/src/fs/path.rs:24-58 | the stateful iterator yields the segments |
| FilePath.SegmentsRoundTrip | tee/kernel/src/fs/path.rs:24-58 | the segments of any path, joined by slashes again, are the path |
| FilePath.SegmentsOfJoined | tee/kernel/src/fs/path.rs:72-82 | the segments of a joined path are those of the path, without the empty one behind a trailing slash, then the name |
| FilePath.JoinSegment | tee/kernel/src/fs/path.rs:72-82 | joining fails exactly when the result would reach the path limit, and otherwise puts the name behind the path with one slash between them |
| PathLookup.Lookup | tee/kernel/src/fs/node.rs:381-425 | the loop over segments computes the fold |
| PathLookup.PrintedSegments | tee/kernel/src/fs/node/directory.rs:140-147 | cutting a printed path into segments gives back the names along the chain |
| PathLookup.LookupFindsPrinted | tee/kernel/src/fs/node.rs:391-425 | looking up a directory's printed path finds that directory if and only if its chain is linked and searchable |
| PathLookup.DeletedExample | tee/kernel/src/fs/node/directory.rs:140-147 | a deleted directory still prints its path, and looking that up does not find it |
| Notify.NotifyList.Begin | tee/kernel/src/rt/notify.rs:106-115 | a wait notes the generation at once |
| Notify.NotifyList.Poll | tee/kernel/src/rt/notify.rs:69-92 | ready exactly when a notification came after the wait; otherwise the polling task is the one registered, and the removal never fails |
| Notify.NotifyList.DropWait | tee/kernel/src/rt/notify.rs:95-104 | dropping a wait removes its own registration and never fails |
| Notify.NotifyList.NotifyAll | tee/kernel/src/rt/notify.rs:129-135 | every task registered for a wait of this generation is woken |
| StreamBuffer.Stream.Read | tee/kernel/src/fs/fd/stream_buffer.rs:39-69 | bytes leave in the order they came; a notification is sent exactly when the stream was nearly full |
| StreamBuffer.Stream.Write | tee/kernel/src/fs/fd/stream_buffer.rs:153-179 | an atomic write goes in whole and contiguous or not at all; capacity is never exceeded |
| StreamBuffer.NextReadNotifies | tee/kernel/src/fs/fd/stream_buffer.rs:250-273 | a blocked writer is notified by the next read |
| StreamBuffer.SleepsOnlyWithoutRoom | tee/kernel/src/fs/fd/stream_buffer.rs:250-273 | a registered writer has no room, and the reader is open or about to notify |
| StreamBuffer.NoRoomIsFull | tee/kernel/src/fs/fd/stream_buffer.rs:56-66 | whoever has no room waits on a stream that readers consider full |
| StreamLink.ReadStep | tee/kernel/src/fs/fd/stream_buffer.rs:39-69 | a read on the stream and the notification list does what the waiting machine's read does, to length, generation and every waiter |
| StreamLink.WriteStep | tee/kernel/src/fs/fd/stream_buffer.rs:153-179 | so does a write, and it owes as many notifications |
| StreamLink.NotifyWaiters | tee/kernel/src/rt/notify.rs:129-135 | so does a notification, which wakes every waiter that sleeps |
| StreamLink.StartStep | tee/kernel/src/rt/notify.rs:106-115 | so does starting to wait |
| StreamLink.CheckStep | tee/kernel/src/fs/fd/stream_buffer.rs:253-266 | so does the check for room, with the future dropped on the way out |
| StreamLink.AwaitStep | tee/kernel/src/rt/notify.rs:69-92 | so does a poll of the wait, which starts over when it is ready |

## Left out

- Weak memory: every step is sequentially consistent, whatever ordering the source names.
- Liveness and scheduling: spinning ends, supervisors and hosts run, reads happen only if someone makes them happen; the theorems say that a wake-up or notification is on its way.
- Cryptography: hash functions are parameters, and collisions among the strings at hand are excluded by hypothesis.
- Page conversion, validation, register and interrupt instructions: reads of pages, kicks and invalidations are taken to do what they are asked.
- TlbShootdown.FlushedEverywhere: assumes that an entry which is turned away by a pending interrupt has still carried out the invalidation it asked for.
- PageTablesTheorems.CountExact: says nothing after a wrongful drop, when a guarded table is gone and its memory may be anything.
- PageTables: `map` and `unmap` are not actions of their own; on a page that is not mapped, or is, they do what `set_page` and `try_unmap` do, and their panics otherwise are their callers' fault.
- RangeWalk.AddressSpace.TryUnmapUserPages: the walk alone, without the guards and table frees that `PageTables` models and without other threads.
- FrameAllocator: `claim` may take any group that is neither owned nor completely used, not the nearest one; allocation of slots is one action.
- Executor: futures are opaque; the timer heap and the choice of the next timeout are not part of this model.
- CommandRing: the kernel's retry loop around a full ring is left to the caller; the lock around the writer makes it single.
- SlotLedger: entries of the allocation buffer may be scanned in any order, which includes the source's, and filling may also stop while entries are empty; the run of `LastSlotStops` does not use that.
- PagedBuffer.Buffer.Write: allocation never fails, so partial writes after a failed allocation do not occur; sharing pages and copying them on write, and the variants that copy to and from user memory, are not modelled.
- InputLoad.CopyTo: errors of the destination file are not modelled.
- TmpFs: `exchange`, which rewrites one of two locations, hard links, mounts and other file systems; concurrent renames, since each operation is atomic here.
- PathLookup.Lookup: symbolic links are not followed; a link in the middle of a path ends the lookup as a non-directory would.
- Notify and StreamBuffer: the generation counter does not wrap; copying to and from user memory, with its rollback, is not repeated.
- StreamBuffer.Stream.Write: the check for a closed reader happens together with the write, not just before it.
- The heap, procfs, character devices, file locks, timestamps, system calls, the host's command line, certificate and quote checks: easy or foreign to the parts above.
