# Weenix kernel: memory, threads, processes and paths, in Dafny

This project models the hard core of the Weenix teaching kernel and proves what it promises its processes.

* **Copy-on-write virtual memory** (`Areas`, `Objects`, `Overlay`, `Kernel`, `Removal`, `Creation`, `Forking`,
  `Access`, `Breaks`, `Regrowth`, `Tables`, `Bytes`). Address-space maps are sorted lists of areas. An area shows an
  object: an anonymous or file object at the bottom, under a chain of shadow objects for private areas. Counts of objects
  include one for every resident page. The steps are map, unmap, fork, fault, kernel read and write, loads and stores of
  the process, brk and exit.
* **The specification of that memory** (`Flat`): each process has a plain map from pages to entries and a map of regions. A
  shared entry names a page of a common object; a private one names a page of its area's region, where a cell is either a
  copy of its own or names a page of a common object. What an area shows is kept in its region even while a shrunk break
  hides it. `Representation` says how a kernel state represents a flat one, `Runs` proves that every run of the kernel is
  a run of the flat memory, and `Theorems` and `Interference` draw the conclusions: isolation, fork as a snapshot, exact
  counts, no leaks. `Effects` says of each call when it succeeds and what every process has mapped and sees afterwards.
* **The same code as it runs** (`Machine`): a class whose fields are changed in place, with the kernel's loops over
  lists, chains, pages and bytes. Each method is proved to compute the step function of `Kernel`.
* **The page-frame cache** (`Pframes`): a class with hash chains, allocated and pinned lists, object lists and counters,
  fills, writes, the pageout loop and sync, with what every file page reads as the law they keep; and its **busy/wait
  protocol** (`Busy`) under all interleavings at blocking points, fills inside fills included, with what every page shows
  meanwhile and what the dirty flag promises (`Contents`, `Races`, `Saving`).
* **Threads and hand-off mutexes** (`Sched`), as a state machine over runs and as a class, the order of their queues
  (`Queueing`), and what callers of a lock may rely on (`Exclusion`).
* **The process table** (`Procs`): pids, parents and children, zombies and reaping, over runs and as a class; and who
  sleeps in a wait and is woken (`Waits`).
* **Paths** (`Namev`): the index loops of path walking against a fold of lookup over components, and reference counts.

A run is any sequence of operations from boot; an operation whose precondition in the code does not hold at its point is
skipped. These expected properties are false of the code as written; for each there is an input and an exact condition:

| expected | input | holds exactly |
|---|---|---|
| loads see the memory map after a kernel write | `Tables.StaleExample` | `Tables.StepCoherent` |
| range_perm decides permission | `UserRange.Refuted`, `UserRange.WrapAccepted` | `UserRange.RangePermExact` |
| what is written is read back | `Bytes.AliasExample` | `Bytes.RoundTripExact` |
| pages a growing break brings in are zeros | `Regrowth.RegrowthExample` | `Regrowth.GrownZeros` |
| a successful brk leaves a heap area for the next | `Regrowth.HeapVanishes` | `Breaks.BrkKeepsHeap` |
| only writes change what a page shows | `Races.EarlyCopyExample`, `Races.WriteUnderExample` | `Contents.StepShown`, `Contents.StepSettledExactly` |
| a write survives pageout | `Pframes.LoseWrite` | `Pframes.Cache.WriteOut` |
| who sleeps in a wait has no child to reap | `Waits.MissedExample` | `Waits.MissedExactly` |
| threads run in the order in which they became runnable | `Queueing.RequeueExample` | `Queueing.OrderStep` |
| a thread cancelled in a lock does not hold it (`kernel/proc/kmutex.c:55-58`) | `Exclusion.InterruptedHolder` | `Sched.LockReturns` |

Modelling choices:

* Objects and frames are numbered and numbers are never used again, so an object only ever shadows an older one.
* The headers of the memory manager, the lists and the directory entries are not part of the repository. Page size 4096,
  user memory from page 0x400 to page 0xC0000 and names of 28 characters are the usual values; the proofs use only
  their order. List iteration is taken to fetch the next link before the body runs.
* Fields touched after an object is freed (`kernel/vm/anon.c:114-117`, `kernel/mm/pframe.c:605-608`) are modelled in logical
  order, before the free. A destroyed shadow object leaves the heap before what it shadows is put, where
  `kernel/vm/shadow.c:132-138` frees its memory afterwards; its count is zero by then and nothing reaches it.
* Object operations are atomic in the memory model; where they block is the subject of `Busy`.
* Contents of newly allocated frames, the outcome of a fill, clean or create operation, and the choice of the next thread
  to act are parameters, so the theorems hold for all of them.
* Processes in `Procs` carry a number that tells apart processes with the same pid at different times, and the table keeps
  the history of exits and waits. Both exist for the statements only.

## Model

| member | source | states |
|---|---|---|
| Runs.RunRefines | kernel/proc/fork.c:131-171 | every run of map, unmap, fork, fault, read, write, store, brk and exit shows every process exactly what the matching run of a flat memory shows it, where every area has a region of cells of its own that survives shrinking: no chains, no counts, and no flat step is told what a page holds, only which bytes are written |
| Theorems.PrivateWriteIsolated | kernel/vm/shadow.c:153-282 | copy-on-write isolation in every reachable state: a write through a private page changes that page of that process to the spliced contents, and no page of any process besides |
| Theorems.SharedWriteSeen | kernel/vm/vmmap.c:699-744 | a write through a shared page is seen by exactly the pages, of any process, that show the same page of the same object |
| Interference.NonInterference | kernel/vm/shadow.c:153-282 | after any run, any further run of the others, and of the process itself as long as it does not write the page, unmap it, map over it, cut it off by brk or end, leaves a private page that no file stands behind as it was |
| Theorems.ForkSnapshot | kernel/proc/fork.c:131-171 | right after fork the child sees what the parent saw and has its start of the break and its break, everyone else including the parent sees what they saw and has the breaks they had, shared pages stay on one common object, and parent and child start with empty page tables |
| Effects.FaultServed | kernel/vm/pagefault.c:52-106 | in every reachable state a fault resumes the process, with its areas, its break and its other entries as before and an entry through which it loads what its map shows, if and only if the page is mapped, can be brought in, may be written for a write, executed for an execution and read for a plain load; otherwise the process ends with no areas; nobody else sees anything change |
| Effects.ForkBreaks | kernel/proc/fork.c:165-166 | right after fork brk does for parent and child what it would have done for the parent before: it may be called with the same addresses, succeeds on the same, and leaves the same pages mapped alike and showing the same |
| Theorems.CountsAreExact | kernel/vm/shadow.c:88-141 | in every reachable state the count of every object is the number of areas on it, shadows over it, shadows with it as bottom, its resident pages, and the references of the file system |
| Theorems.LiveIffMapped | kernel/vm/shadow.c:107-141 | in every reachable state an anonymous or shadow object is allocated if and only if some area of some process reaches it: no leak, no dangling chain |
| Tables.WritableEntries | kernel/vm/pagefault.c:84-104 | in every run a writable page-table entry lies in a mapped page that may be written and names the frame resident in the object of the area itself, never one further down the chain |
| Tables.StepCoherent | kernel/vm/vmmap.c:699-744 | from a state where every entry names the frame a read ends at, a step keeps that if and only if it is not a kernel write to a private page whose entry still names a frame below the top |
| Tables.LoadsSeeMemory | kernel/vm/pagefault.c:52-106 | in every run without such a write, loads through the page table see what the memory map shows |
| Tables.StaleWrite | kernel/vm/vmmap.c:722-735 | after such a write the process goes on loading the old page while the map shows the new one |
| Tables.StaleExample | kernel/vm/vmmap.c:699-744 | such a write can happen: map a private page, read it, and let the kernel write to it |
| Bytes.RoundTripExact | kernel/vm/vmmap.c:646-744 | in every reachable state, for every readable range: everything written comes back when read, across page and area boundaries, if and only if no two addresses of the range are the same byte of a shared object |
| Bytes.AliasExample | kernel/vm/vmmap.c:699-744 | the other case happens: one page of a file mapped shared at two neighbouring pages |
| Runs.RunInv | kernel/vm/vmmap.c:383-602 | in every run: areas non-empty, sorted, disjoint and in user memory, exact counts, tops of chains owned by one process and shadowed by nobody, sound writable entries |
| Areas.Find | kernel/vm/vmmap.c:292-315 | the first area that covers a page, or none exactly when no area covers it |
| Areas.AtIs | kernel/vm/vmmap.c:292-315 | in a sorted list the area that covers a page is unique, so the order of the scan does not matter |
| Areas.InsertSorted | kernel/vm/vmmap.c:169-199 | inserting an area that overlaps none keeps the list sorted and disjoint |
| Areas.InsertDenotes | kernel/vm/vmmap.c:169-199 | as a map from pages, insertion adds the pages of the new area and changes no other |
| Areas.EmptyMeansDisjoint | kernel/vm/vmmap.c:608-636 | a range in which no page is mapped overlaps no area |
| Areas.CutDenotes | kernel/vm/vmmap.c:530-590 | the four cases on one area: what is left maps exactly the old pages outside the range, each to the same object page |
| Areas.CutAllSorted | kernel/vm/vmmap.c:523-602 | what removal leaves is sorted, disjoint and inside user memory |
| Areas.CutAllDenotes | kernel/vm/vmmap.c:523-602 | removal is domain restriction: the pages of the range are gone, every other page keeps object, object page, protection and sharing |
| Areas.CutAllEmpties | kernel/vm/vmmap.c:523-602 | after removal the range is empty |
| Areas.FindBelowIsHighest | kernel/vm/vmmap.c:208-287 | the backward scan finds the highest start of a free range of that size, and nothing exactly if there is none |
| Objects.RefKeeps | kernel/vm/shadow.c:88-96 | a new reference keeps every count exact |
| Objects.DropOne | kernel/vm/shadow.c:107-117 | dropping a reference that is not the last keeps every count exact |
| Objects.FreeOne | kernel/vm/shadow.c:117-141 | when only its resident pages still refer to an object, nothing points at it: freeing it leaves no dangling link, and the references it held become references to drop |
| Objects.PutKeeps | kernel/vm/shadow.c:107-141 | a put keeps every count exact however far the release cascades, and changes neither pages nor links of what survives |
| Reachability.PutFreesUnreachable | kernel/vm/shadow.c:107-141 | a put frees exactly the objects that the remaining references no longer reach |
| Reachability.LiveIsHeld | kernel/vm/shadow.c:107-141 | exact counts leave no garbage: a live object is on the chain of some outside reference |
| Reachability.HeldIsLive | kernel/vm/shadow.c:107-141 | an object on the chain of an outside reference is live, so a bottom outlives every shadow above it |
| Overlay.SourceIs | kernel/vm/shadow.c:159-211 | a read through a chain ends at the topmost shadow with the page resident, or else at the recorded bottom object |
| Overlay.LookupReadKeeps | kernel/vm/shadow.c:153-218 | a lookup for reading returns a frame exactly when the page can be shown, with the contents shown, keeps counts exact and changes nothing that is visible |
| Overlay.LookupWriteKeeps | kernel/vm/shadow.c:153-218 | a lookup for writing returns a frame of the object itself, filled with what a read would have returned, keeps counts exact and changes nothing that is visible |
| Overlay.FillShows | kernel/vm/anon.c:133-146 | making a page of a bottom object resident moves no read and changes no contents |
| Overlay.CopyUpShows | kernel/vm/shadow.c:232-282 | copying a page up to a shadow changes nothing that any object shows |
| Overlay.StoreShows | kernel/vm/vmmap.c:722-735 | a store into a resident page is seen through exactly the objects whose read ends there |
| Overlay.TopIsPrivate | kernel/vm/shadow.c:153-218 | pages of an object that nothing shadows are seen through no other object |
| Overlay.ShrunkShows | kernel/vm/shadow.c:107-141 | objects that survive a release show what they showed, from the same place |
| Overlay.AddPageValid | kernel/mm/pframe.c:229-260 | a new resident page comes with one reference on its object |
| Overlay.FillKeeps | kernel/mm/pframe.c:343-416 | getting a page of a bottom object keeps counts exact, makes the page resident and changes nothing that is visible |
| Removal.CutEffectKeeps | kernel/vm/vmmap.c:530-595 | splitting an area takes a reference, dropping one releases it, trimming does neither: counts stay exact |
| Removal.CutHeapKeeps | kernel/vm/vmmap.c:523-602 | the whole pass keeps every count exact |
| Removal.PutAllKeeps | kernel/vm/vmmap.c:130-163 | destroying a map releases the references of all its areas, exactly |
| Removal.UnmapAt | kernel/vm/vmmap.c:523-602 | removal takes the range from the map of that process and nothing from anyone else |
| Effects.UnmapShows | kernel/vm/vmmap.c:523-602 | removal takes the pages and the entries of the range from that process and changes nothing else that anybody has mapped or sees |
| Removal.UnmapInv | kernel/vm/vmmap.c:523-602 | removal keeps the state invariant, page tables included |
| Removal.ExitInv | kernel/vm/vmmap.c:130-163 | exit keeps the state invariant |
| Creation.AppendAnon | kernel/vm/anon.c:54-69 | a new anonymous object starts with one exact reference |
| Creation.AppendShadow | kernel/vm/shadow.c:67-80 | a new shadow takes over a reference on what it shadows and one on the bottom |
| Creation.MakeObjKeeps | kernel/vm/vmmap.c:440-477 | the objects behind a new area have exact counts, and old objects keep pages and links |
| Creation.MakeObjFresh | kernel/vm/vmmap.c:440-477 | the object of a new area is not the top of another area, and shadows nothing that is |
| Creation.MmapInv | kernel/vm/vmmap.c:383-492 | a mapping keeps the state invariant |
| Creation.MmapAt | kernel/vm/vmmap.c:383-492 | with an address exactly that range is overridden; without one the map is only extended |
| Effects.MmapShows | kernel/vm/vmmap.c:383-492 | a mapping shows the pages of the file from the given one on, or zeros, with the protection and sharing asked for, in place of what the range held, and changes nothing else that anybody has mapped or sees |
| Effects.MmapEntries | kernel/vm/vmmap.c:383-492 | a mapping takes away the page-table entries of its range and leaves all others |
| Creation.MmapPlace | kernel/vm/vmmap.c:399-416 | without an address the highest free range is taken, and the call fails exactly if there is none |
| Forking.ForkPrivateKeeps | kernel/proc/fork.c:60-82 | two new shadows over the object of a private area, with the three references taken, leave every count exact |
| Forking.ForkAllKeeps | kernel/proc/fork.c:138-148 | the area loop of fork leaves every count exact |
| Forking.ForkAllAreas | kernel/proc/fork.c:138-148 | every private area of parent and child gets a new empty top of its own over the old object; shared areas are the same in both |
| Forking.NewTopsDiffer | kernel/proc/fork.c:138-148 | no two areas after fork have the same new top |
| Forking.ForkInv | kernel/proc/fork.c:131-171 | fork keeps the state invariant; parent and child start with empty page tables |
| Access.FaultInv | kernel/vm/pagefault.c:52-106 | a page fault, served or fatal, keeps the state invariant |
| Access.KernelReadInv | kernel/vm/vmmap.c:646-689 | a kernel read keeps the state invariant |
| Access.KernelWriteInv | kernel/vm/vmmap.c:699-744 | a kernel write keeps the state invariant |
| Access.GrowAreas | kernel/vm/brk.c:67-76 | extending an area over an empty range keeps the list sorted and adds exactly those pages |
| Access.BrkInv | kernel/vm/brk.c:78-117 | moving the break keeps the state invariant |
| Breaks.BrkMovesEnd | kernel/vm/brk.c:78-117 | a successful brk makes the heap area end at the page-rounded break and touches no other area or process; only an aligned start of the break lets the area vanish |
| Effects.BrkSucceeds | kernel/vm/brk.c:57-76 | brk succeeds if and only if it asks for the break with address 0, or the address lies between the start of the break and the end of user memory and no page between the old end of the heap and the address is mapped |
| Effects.BrkShows | kernel/vm/brk.c:78-117 | after a successful brk the break is the address, the pages between the old end and it show the pages that follow in the object of the heap, the pages of the heap behind it are gone with their entries, and nothing else anybody has mapped or sees changed |
| Regrowth.BreakKept | kernel/vm/brk.c:78-117 | no other step of the process or of anyone else moves the break of a process, loading a program and ending it apart |
| Breaks.BrkKeepsHeap | kernel/vm/brk.c:92-116 | after a successful brk the heap area that the next brk looks up is still there if and only if the new break is not a page-aligned start of the break |
| Regrowth.HeapVanishes | kernel/vm/brk.c:92-116 | from boot: a brk back to an aligned start of the break succeeds and leaves no heap area for the next brk to look up |
| Regrowth.GrownShows | kernel/vm/brk.c:67-76 | a page that a growing break brings in was not mapped and shows what the chain of the heap object holds there |
| Regrowth.GrownZeros | kernel/vm/brk.c:67-76 | over an anonymous bottom such a page shows zeros if and only if the first object of the chain that has it resident holds zeros, or no object of the chain has it |
| Regrowth.BrkGivesBack | kernel/vm/brk.c:78-117 | over whole runs: a page given up by brk and taken again later shows what it showed before, whatever other processes and the process itself did in between, own faults, mappings, removals, breaks, forks and writes elsewhere included, as long as the page of the start of the break stayed mapped, no other program was loaded and the page itself was not written |
| Regrowth.SpareStep | kernel/vm/brk.c:78-117 | one such step keeps the heap start on the same page of its object and what the object holds for a page that is not mapped |
| Regrowth.RegrowthExample | kernel/vm/brk.c:78-117 | from boot: map a heap, write its last page, brk down and up; the old byte is seen, not zeros |
| Representation.SimView | kernel/vm/shadow.c:153-218 | what a process sees through chains is what its flat cell holds |
| Representation.OnePlace | kernel/proc/fork.c:60-89 | each page of a top object is shown at one address of one process |
| Representation.LookupWriteCells | kernel/vm/shadow.c:153-218 | a lookup for writing on a top gives that one page its own cell and moves no other |
| Representation.UnmapSim | kernel/vm/vmmap.c:523-602 | removal is removal of pages from one flat map; a region an area keeps is kept |
| Representation.ExitSim | kernel/vm/vmmap.c:130-163 | exit empties one flat map |
| Representation.AttachSim | kernel/vm/vmmap.c:426-477 | a mapping adds flat pages that name the pages of one object |
| Representation.TouchSim | kernel/vm/shadow.c:153-218 | a lookup for writing gives a private cell a copy of its own contents |
| Representation.KernelWriteSim | kernel/vm/vmmap.c:699-744 | a write through chains is a write to one cell, or to one page of a common object |
| Representation.UserStoreIsWrite | kernel/vm/pagefault.c:84-104 | through a writable entry, a store of the process and a kernel write do the same |
| Representation.ForkPage | kernel/proc/fork.c:131-171 | fork moves and changes no cell of anyone; the child gets the cells of the parent |
| Representation.ForkSim | kernel/proc/fork.c:131-171 | fork is a copy of one flat map, with a region of its own for every private area of parent and child |
| Representation.GrowSim | kernel/vm/brk.c:67-76 | a growing break adds pages whose cells are read off the region of the heap area in the flat state |
| Runs.MmapSim | kernel/vm/vmmap.c:383-492 | a mapping is a removal, where needed, and an addition of flat pages |
| Runs.FaultSim | kernel/vm/pagefault.c:52-106 | a fault is an exit, a copy of one private cell, or nothing |
| Runs.BrkSim | kernel/vm/brk.c:78-117 | moving the break is growing one flat area up to a page, removing pages, or nothing |
| Runs.StepSim | kernel/vm/vmmap.c:383-744 | every kernel step is matched by flat steps that name processes, page ranges, protections and bytes written, never the contents of a page |
| Runs.StepInv | kernel/vm/vmmap.c:383-744 | every kernel step keeps the state invariant |
| Theorems.WriteSeen | kernel/vm/vmmap.c:699-744 | where a kernel write is seen, and where it is not, for every page of every process |
| Interference.RunApart | kernel/vm/vmmap.c:440-477 | in every run an object that is both the bottom of a private area and shown by a shared area belongs to a file |
| Interference.QuietStep | kernel/vm/shadow.c:153-282 | one such step, its own served faults, mappings, removals, breaks, forks and writes elsewhere included, leaves the contents of the page and leaves it safe for the next |
| Tables.FaultEntry | kernel/vm/pagefault.c:84-104 | the entry a fault installs names the resident frame a read of the page now ends at, writable only for a write |
| Effects.FaultOutcome | kernel/vm/pagefault.c:52-106 | the same decision of every state that satisfies the invariant |
| Tables.RunCoherent | kernel/vm/vmmap.c:699-744 | page tables stay coherent over every run without a stale write |
| Bytes.ReadIsMemory | kernel/vm/vmmap.c:646-689 | a kernel read returns exactly the bytes the process sees, across pages and areas |
| Bytes.WriteIsSeen | kernel/vm/vmmap.c:699-744 | after a kernel write the range holds the bytes written, and every byte of every process outside it that is no alias is as before |
| Bytes.RoundTrip | kernel/vm/vmmap.c:646-744 | write then read returns the same bytes when no two addresses of the range are the same byte |
| Bytes.AliasLoses | kernel/vm/vmmap.c:646-744 | two addresses that are the same byte cannot keep different values |
| Scans.Lookup | kernel/vm/vmmap.c:292-315 | the loop that goes on after a hit returns the first area that covers the page |
| Scans.IsRangeEmpty | kernel/vm/vmmap.c:608-636 | true exactly when no page of the range is mapped |
| Scans.InsertArea | kernel/vm/vmmap.c:169-199 | the loop inserts before the first area at or after the end of the new one |
| Scans.FindGap | kernel/vm/vmmap.c:208-287 | the backward loop computes the highest free range |
| Scans.Clone | kernel/vm/vmmap.c:321-356 | the copy has the same areas without objects |
| UserRange.AddrPerm | kernel/api/access.c:123-139 | true exactly when the page is mapped and permits at least what is asked |
| UserRange.RangePerm | kernel/api/access.c:150-170 | true exactly when every page from the first to that of addr + len, modulo 2^32, permits it |
| UserRange.CheckedIs | kernel/api/access.c:150-170 | where the end does not wrap round, the check asks for the range and for the page of the byte behind it |
| UserRange.MayReadAll | kernel/api/access.c:23-29 | what copy_from_user checks, byte by byte: mapped and readable |
| UserRange.MayWriteAll | kernel/api/access.c:31-37 | what copy_to_user checks, byte by byte: mapped and writable |
| UserRange.WrappedIs | kernel/api/access.c:150-170 | where the end wraps round at 2^32, nothing is permitted, while the check asks for the first page if the end falls back into it and for nothing otherwise |
| UserRange.RangePermExact | kernel/api/access.c:150-170 | for all 32-bit addresses and lengths: the check decides permission, whatever the map, if and only if the range does not wrap round, is not empty and does not end on a page boundary in user memory, or it wraps round into its own first page outside user memory |
| UserRange.Refuted | kernel/api/access.c:150-170 | for every other range a map on which the check is wrong |
| UserRange.WrapAccepted | kernel/api/access.c:150-170 | with nothing mapped at all, a range that wraps round passes the check |
| UserRange.TightRefused | kernel/api/access.c:150-170 | a map with exactly the pages of the range is refused when the range is empty or ends on a page boundary |
| Machine.Vm.PutObj | kernel/vm/shadow.c:107-141 | the cascade of puts, pages first, computes the release function and terminates; a page freed on the way never starts a second destruction |
| Machine.Vm.PframeFree | kernel/mm/pframe.c:583-614 | one resident page and its reference go; the object stays |
| Machine.Vm.GetBottom | kernel/mm/pframe.c:343-416 | allocate, fill, and free again on a failed fill: the page becomes resident, or the heap is as before |
| Machine.Vm.LookupForRead | kernel/vm/shadow.c:153-218 | the walk down the chain refines the recursive overlay lookup |
| Machine.Vm.FillShadow | kernel/vm/shadow.c:232-282 | the fill finds what a read below the object shows |
| Machine.Vm.LookupForWrite | kernel/vm/shadow.c:153-218 | allocate then fill refines the lookup for writing, a failed fill included |
| Machine.Vm.CutArea | kernel/vm/vmmap.c:530-595 | one turn of the removal loop, with the split half inserted while the area it comes from still overlaps it |
| Machine.Vm.CutLoop | kernel/vm/vmmap.c:523-595 | the loop over the changing list computes the cut of every area, and the counts |
| Machine.Vm.Remove | kernel/vm/vmmap.c:523-602 | vmmap_remove computes the unmap step |
| Machine.Vm.Destroy | kernel/vm/vmmap.c:130-163 | vmmap_destroy computes the exit step |
| Machine.Vm.NewObject | kernel/vm/vmmap.c:440-477 | the object part of vmmap_map |
| Machine.Vm.MapRange | kernel/vm/vmmap.c:383-492 | vmmap_map computes the mmap step, and fails exactly when no range is found |
| Machine.Vm.MakeRoom | kernel/vm/vmmap.c:397-424 | finds the highest free range, or clears the range asked for |
| Machine.Vm.ForkArea | kernel/proc/fork.c:60-89 | handle_memory_object: two shadows over a private object, or one more reference on a shared one |
| Machine.Vm.ForkLoop | kernel/proc/fork.c:138-148 | the loop that finds the counterpart of every area by address, while earlier tops are replaced already, forks every area |
| Machine.Vm.ForkProcess | kernel/proc/fork.c:131-171 | do_fork computes the fork step; parent and child have the start of the break and the break the parent had |
| Machine.Vm.HandleFault | kernel/vm/pagefault.c:52-106 | handle_pagefault computes the fault step; the process is resumed if and only if the page is mapped, can be brought in and has the permission for each kind of access asked for, a plain load asking for read, and has no areas left otherwise |
| Machine.Vm.ReadMem | kernel/vm/vmmap.c:646-689 | vmmap_read, chunk by chunk, reads what the specification reads, and nothing from a range whose end wraps round at 2^32 |
| Machine.Vm.WriteMem | kernel/vm/vmmap.c:699-744 | vmmap_write, chunk by chunk, writes what the specification writes, and nothing to a range whose end wraps round |
| Machine.Vm.DoBrk | kernel/vm/brk.c:57-117 | do_brk computes the break step; it fails exactly if the address lies below the start of the break or beyond user memory, or a page between the old end of the heap and the address is mapped; otherwise it hands back the new break, or the old one for address 0 |
| Machine.Vm.CopyFromUser | kernel/api/access.c:23-29 | succeeds exactly if every byte of the range and the one behind it lies in a mapped page that may be read; then these are exactly the bytes the process sees; a range that wraps round copies none |
| Machine.Vm.CopyToUser | kernel/api/access.c:31-37 | succeeds exactly if every byte of the range and the one behind it lies in a mapped page that may be written; then the process sees the bytes; otherwise, and when the range wraps round, nothing changes |
| Pframes.Cache.constructor | kernel/mm/pframe.c:120-142 | an empty cache over a given disk, with the pages all free |
| Pframes.Cache.GetResident | kernel/mm/pframe.c:188-213 | the search of one hash chain agrees with a plain map from identities to frames; a frame that is found and not pinned becomes the most recently requested |
| Pframes.Cache.AllocFrame | kernel/mm/pframe.c:229-260 | the new frame is in its chain, its object list and the allocated list, and all counters follow |
| Pframes.Cache.PinFrame | kernel/mm/pframe.c:430-460 | the first pin moves the frame from the allocated to the pinned list; nothing reclaimable becomes unsaved |
| Pframes.Cache.UnpinFrame | kernel/mm/pframe.c:472-502 | the last unpin moves the frame to the back of the allocated list; everything stays recoverable exactly if the page is of a file or still pinned |
| Pframes.Cache.FreeFrame | kernel/mm/pframe.c:583-614 | the frame leaves every list it was on, and all counters follow |
| Pframes.Cache.FillFrame | kernel/mm/pframe.c:308-320 | a file page comes in exactly if the operation succeeds and the disk has it, as on disk and unpinned; an anonymous page always, as zeros; a shadow page exactly if the operation succeeds, as what is below; the last two pinned once, all of them clean; a failed fill changes nothing |
| Pframes.Cache.GetFrame | kernel/mm/pframe.c:343-416 | the resident frame, or a new one, which holds the disk page, zeros or what is below by the kind of its object and is pinned once unless it is of a file, or none exactly if the page is not resident and the fill fails; no file page reads differently |
| Pframes.Cache.LoadFrame | kernel/mm/pframe.c:385-413 | the same for a page that is not resident; a frame whose fill fails is freed again |
| Pframes.Cache.DirtyFrame | kernel/mm/pframe.c:516-532 | the frame is dirty afterwards if it was or the operation succeeds; no page reads differently |
| Pframes.Cache.WriteFrame | kernel/vm/vmmap.c:719-735 | one page of vmmap_write: the page reads as written and no other differently; the cache invariant, that what may be reclaimed is saved, is kept if and only if the frame is dirty now, of no file, or already like this on disk |
| Pframes.Cache.EvictFrame | kernel/mm/pframe.c:742-751 | what pageoutd does to a frame: cleaned if dirty, and freed |
| Pframes.Cache.WriteOut | kernel/vm/vmmap.c:719-735 | a file page is written and its frame then reclaimed: the page reads as written if and only if the frame was dirty, or pframe_dirty succeeded, or the page was like this on disk; otherwise it reads as before the write |
| Pframes.WriteSurvives | kernel/vm/vmmap.c:719-735 | the same of any cache contents: what the page reads after its frame was cleaned if dirty, and freed |
| Pframes.LoseWrite | kernel/vm/vmmap.c:731-735 | a file page read in by the cache, written while pframe_dirty fails, and reclaimed: the cache is empty and the disk has the old page |
| Pframes.Cache.UncacheObject | kernel/vm/anon.c:100-113 | the pages of an unused anonymous or shadow object are unpinned and freed, all of them and no others, and no file page reads differently |
| Pframes.Cache.CleanFrame | kernel/mm/pframe.c:543-573 | on success the data is on disk and the dirty bit gone, on failure the frame is dirty as before; no file page reads differently |
| Pframes.Cache.Pageout | kernel/mm/pframe.c:726-752 | from any cache the operations build and for any results of cleaning: no file page reads differently, a prefix of the list ordered by last request is reclaimed, none of it dirty or pinned and each page on disk, and with as many successes as dirty frames the loop ends, with the target met or the list empty |
| Pframes.Cache.CleanAll | kernel/mm/pframe.c:620-654 | with as many successes as dirty frames it ends, and only with every page of the allocated list clean and on disk; no file page reads differently |
| Pframes.WriteAndReclaim | kernel/mm/pframe.c:726-752 | a file page read in, written and reclaimed: the cache is empty again and the write is on disk |
| Pframes.FreedFiles | kernel/mm/pframe.c:583-614 | freeing a frame leaves every file page as it reads if and only if the frame is of no file or on disk as it is |
| Pframes.CleanedOk | kernel/mm/pframe.c:543-573 | cleaning puts on disk exactly what the page reads, and keeps every reclaimable page saved |
| Pframes.BroughtOk | kernel/mm/pframe.c:343-416 | a page that was filled reads as before, from a frame now, and is saved or pinned |
| Pframes.AllocOk | kernel/mm/pframe.c:229-260 | chains, object lists, the two frame lists and all counters agree after an allocation |
| Pframes.FreeOk | kernel/mm/pframe.c:583-614 | and after a frame is freed |
| Pframes.PinOk | kernel/mm/pframe.c:430-460 | and after a pin |
| Pframes.UnpinOk | kernel/mm/pframe.c:472-502 | and after an unpin, with the order by last request kept |
| Pframes.BackOk | kernel/mm/pframe.c:201-206 | a requested frame at the back keeps the list in order of last request |
| Pframes.ReclaimFree | kernel/mm/pframe.c:745-750 | a frame reclaimed from the front is on disk, and the rest keeps its data |
| Busy.RunInv | kernel/mm/pframe.c:308-416 | under all interleavings at blocking points, calls of pframe_get inside the fill of a shadow page included: one frame per identity, one worker per busy frame, sleepers only on busy frames, frames not busy are filled, inner calls only for the bottom page |
| Busy.StepInv | kernel/mm/pframe.c:308-614 | every step of the protocol keeps this |
| Busy.GetReturnsGoodFrame | kernel/mm/pframe.c:343-416 | pframe_get, called from outside or inside a fill, returns only a resident, filled frame that is not busy, the only one of the identity, and nobody else acts before the caller blocks |
| Busy.GetKeepsKey | kernel/mm/pframe.c:343-416 | a get that blocks does so on, or fills, a frame of the identity asked for |
| Busy.SleeperIsSafe | kernel/mm/pframe.c:583-614 | a sleeping thread is on the wait queue of a frame that is there and busy, exactly one thread is at work on it, and however that thread ends its operation, by Finish, or as a shadow fill that found its page in the chain or got it from the bottom object, the sleeper wakes: no frame is freed under a sleeper |
| Busy.FinishInv | kernel/mm/pframe.c:309-320 | the end of a fill, dirty or clean operation, failed or not, inside another fill or not, keeps the protocol invariant |
| Busy.NoWaitCycle | kernel/vm/shadow.c:232-282 | in every run, when a sleeper waits for a thread that sleeps itself, the three threads involved differ and the last one is at work and waits for nobody |
| Busy.BottomWorker | kernel/vm/shadow.c:232-282 | the thread at work on a frame of a bottom object is inside no other pframe_get |
| Busy.SleepingWorker | kernel/vm/shadow.c:268-282 | a worker that sleeps is filling a shadow page and sleeps on a frame of a bottom object |
| Busy.SleepEnds | kernel/mm/pframe.c:343-416 | no deadlock: in every run, when a thread sleeps and the processor is free, the thread it waits for, or the one that thread waits for, can make the next step of the code; a shadow fill fails only after its inner pframe_get did |
| Busy.WorkerMoves | kernel/vm/shadow.c:245-282 | a worker that is awake can end its operation, look for the page below, or go on with its inner pframe_get |
| Contents.StepShown | kernel/vm/shadow.c:232-282 | a step that is no write leaves what every page of every object shows, the first filled frame of its chain or else the disk, if and only if it neither copies a frame that is still being filled and holds something else, nor frees a frame that alone holds its page |
| Contents.StepSettledExactly | kernel/vm/shadow.c:232-282 | the invariant of fills inside fills: while a shadow fill gets the bottom page, every frame that appears between holds what the bottom page shows; a step that copies and frees nothing wrongly keeps it if and only if it does not write that bottom page while an object between holds another page |
| Contents.ReturnShown | kernel/vm/shadow.c:268-276 | what an inner pframe_get returns is what the shadow page shows, although other frames of the chain may have been filled meanwhile |
| Contents.ScanShown | kernel/vm/shadow.c:245-262 | what the loop over the chain copies is what the shadow page shows if and only if it is no such early copy |
| Contents.WriteShown | kernel/vm/vmmap.c:719-735 | a write changes what is shown exactly where the frame written is the first that the chain holds |
| Contents.RunShown | kernel/mm/pframe.c:308-614 | over every run of proper steps, what a page shows changes only by writes to its chain, whatever is filled, copied, cleaned or freed |
| Contents.GetReturnsContents | kernel/mm/pframe.c:343-416 | over every such run, the frame pframe_get returns holds what the page showed at any earlier point since the last write to its chain |
| Contents.BringsShown | kernel/mm/pframe.c:308-320 | a page that comes to be held changes nothing that any object shows if and only if it is held as what it showed |
| Saving.UnsavedExactly | kernel/mm/pframe.c:516-573 | which clean frames of file pages the disk does not have after a step: exactly one that was written while it did not count as dirty, and one that was like this before, unless pframe_dirty just succeeded on it; fills and cleaning, failed or not, leave none behind |
| Saving.CleanedExactly | kernel/mm/pframe.c:543-573 | over every run, when a clean operation ends the frame is dirty again if and only if it failed, and otherwise the disk has what the frame of a file page holds |
| Saving.ReleaseLoses | kernel/mm/pframe.c:742-751 | freeing a clean frame of a file page loses what the page shows if and only if it is such a frame |
| Races.EarlyCopyExample | kernel/vm/shadow.c:245-262 | from the start: one thread fills a bottom page while another fills the shadow page over it, copies what is not there yet, and pframe_get hands it out |
| Races.WriteUnderExample | kernel/vm/shadow.c:264-276 | from the start: a shared write to the bottom page while a shadow fill gets it and the object between holds the old page; the fill then copies the new page over it, which changes what the shadow page shows |
| Sched.NoThreadLost | kernel/proc/sched.c:31-77 | in every run a started, unexited thread runs or stands exactly once in exactly one queue, the one its kt_wchan names, and every tq_size is exact |
| Sched.RunInv | kernel/proc/sched.c:31-232 | in every run also: the holder of a mutex is not queued on it, and nobody waits for a free mutex |
| Sched.StepInv | kernel/proc/sched.c:101-232 | every step keeps queues, threads and mutexes consistent |
| Sched.HolderStays | kernel/proc/kmutex.c:36-113 | a mutex changes hands only when its holder unlocks it |
| Sched.WaiterLeavesAsOwner | kernel/proc/kmutex.c:96-113 | a thread leaves the queue of a mutex only as its new owner, being the one that waited longest, or cancelled in a cancellable wait |
| Sched.LockReturns | kernel/proc/kmutex.c:59-81 | a waiter that runs again holds the mutex if and only if it was handed over while it was the oldest; a return of 0 from a cancellable lock goes only to a holder, -EINTR to a holder exactly if the hand-over came first |
| Sched.CancelRace | kernel/proc/sched.c:101-144 | both orders of a cancellation and a hand-over: cancelled first the waiter does not get the mutex, handed over first it keeps it although cancelled |
| Sched.NoOvertaking | kernel/proc/sched.c:31-62 | waiters of a mutex never overtake each other |
| Sched.MutexQueueMoves | kernel/proc/sched.c:31-77 | a step leaves the queue of a mutex, adds one thread at the back, or takes one out |
| Sched.CancelInv | kernel/proc/sched.c:131-144 | a cancellation, of a cancellable sleeper or of any other thread, keeps queues, threads and mutexes consistent |
| Sched.CancelMoves | kernel/proc/sched.c:131-144 | a cancelled thread has its flag set; if it sleeps cancellably, on any queue, it moves behind all threads of the run queue while the others keep their places; otherwise every queue is as before and nothing but the flag changes |
| Queueing.StepMoves | kernel/proc/sched.c:101-232 | what every call does to queues, threads, the running thread and holders: sleepers join at the back with their state, a wakeup takes the thread at the front to the back of the run queue, a taken mutex puts the caller to sleep, a free one goes to it, an unlock hands over to the front |
| Queueing.BroadcastMoves | kernel/proc/sched_helper.c:53-67 | a broadcast moves the whole queue, in its order, behind the threads of the run queue |
| Queueing.RunsInTurn | kernel/proc/sched.c:183-204 | first come, first served: a thread of the run queue with n threads before it runs by the time sched_switch has handed out n + 1 threads, whatever happens meanwhile, unless it was woken by a cancel and is cancelled again |
| Queueing.RunsInOrder | kernel/proc/sched.c:183-232 | over every such run, whoever stands behind a thread on the run queue does not run before it |
| Queueing.OrderStep | kernel/proc/sched.c:131-232 | a step that does not run the one before keeps the order of two threads on the run queue if and only if it does not cancel the one before while that still counts as a cancellable sleeper |
| Queueing.RequeueExample | kernel/proc/sched.c:131-144 | from the start: a thread woken by a cancel stands before another on the run queue, is cancelled again and stands behind it |
| Queueing.UncancellableStep | kernel/proc/sched_helper.c:23-31 | a thread in sched_sleep_on leaves its queue only by a wakeup or broadcast of that queue, however often it is cancelled |
| Sched.DrainInv | kernel/proc/sched_helper.c:53-67 | a broadcast empties the queue, keeps the invariant, so that nobody is lost, and leaves mutexes and the running thread alone |
| Sched.UnlockInv | kernel/proc/kmutex.c:96-113 | unlock, with or without waiters, keeps queues, threads and mutexes consistent |
| Exclusion.MutualExclusion | kernel/proc/kmutex.c:36-113 | over every run at most one thread is between a successful return of a lock of a mutex and its unlock, and it is the holder, so that its unlock is in order |
| Exclusion.LockWaits | kernel/proc/kmutex.c:36-53 | a thread that waits in kmutex_lock, cancelled or not, goes on waiting until it is the owner, and runs on only as the owner |
| Exclusion.CallReturns | kernel/proc/kmutex.c:36-81 | when a waiting call returns its thread owns the mutex, unless the call was cancellable and the thread was cancelled |
| Exclusion.TraceRuns | kernel/proc/kmutex.c:36-113 | the history of calls and sections goes with the states of the run |
| Exclusion.InterruptedHolder | kernel/proc/kmutex.c:55-81 | a run from the start in which kmutex_lock_cancellable returns -EINTR to a thread that holds the mutex |
| SchedMachine.Scheduler.PopThread | kernel/proc/sched.c:46-62 | takes the oldest thread off |
| SchedMachine.Scheduler.RemoveThread | kernel/proc/sched.c:71-77 | takes that thread off |
| SchedMachine.Scheduler.Wakeup | kernel/proc/sched_helper.c:34-50 | the thread at the front moves to the back of the run queue and is running, or nothing happens |
| SchedMachine.Scheduler.Broadcast | kernel/proc/sched_helper.c:53-67 | the loop moves all waiters behind the run queue, in their order |
| SchedMachine.Scheduler.SleepHere | kernel/proc/sched_helper.c:23-31 | the running thread joins the queue at the back, with the given state, and stops running |
| SchedMachine.Scheduler.CancelOther | kernel/proc/sched.c:131-144 | the flag is set; a cancellable sleeper on any other queue leaves it to the others in their order and stands on the run queue behind all that were there; for any other thread nothing but the flag changes |
| SchedMachine.Scheduler.MutexLock | kernel/proc/kmutex.c:36-53 | a free mutex goes to the caller and nothing else changes; for a taken one the caller sleeps at the back of its queue |
| SchedMachine.Scheduler.MutexLockCancellable | kernel/proc/kmutex.c:59-81 | a free mutex goes to the caller; -EINTR at once, with nothing changed, exactly if it is taken and the caller cancelled already; otherwise the caller sleeps cancellably at the back of the queue |
| SchedMachine.Scheduler.MutexUnlock | kernel/proc/kmutex.c:96-113 | without waiters the mutex is free; otherwise the thread at the front owns it and stands at the back of the run queue |
| SchedMachine.Scheduler.Switch | kernel/proc/sched.c:183-204 | the thread at the front of the run queue runs |
| Procs.ReapedOnce | kernel/proc/proc.c:490-590 | in every run from boot no process exits twice, and every wait returns the status of an earlier exit of a process nobody waited for before |
| Procs.FamilyTree | kernel/proc/proc.c:343-365 | in every run every process but idle is listed exactly once, by its parent, the parent is alive, and the ancestors lead to idle |
| Procs.ChildStays | kernel/proc/proc.c:503-587 | however long a process sleeps in do_waitpid, its child stays its child, alive or as a zombie, and once the child has exited, and only then, the wait can end, with the status of that exit |
| Waits.OnlyAdoptedMissed | kernel/proc/proc.c:351-391 | in every run a process asleep in do_waitpid has a dead child that it waits for only if it is init, waits for any child, and the child was dead when init got it |
| Waits.WokenReaps | kernel/proc/proc.c:550-586 | in every run a process that was woken in a wait for any child finds one, and its call returns |
| Waits.MissedExactly | kernel/proc/proc.c:354-391 | a step after which somebody sleeps who has a child to reap, while nobody did before, is exactly the exit of a process that is no child of init and leaves it a zombie while it sleeps for any child |
| Waits.MissedExample | kernel/proc/proc.c:354-391 | from boot: init sleeps in a wait for any child and has a zombie |
| Waits.DoOk | kernel/proc/proc.c:343-590 | create, exit and the steps of a wait keep this, and the table invariant |
| Procs.RunInv | kernel/proc/proc.c:233-365 | the table invariant over every run |
| Procs.StepInv | kernel/proc/proc.c:233-590 | create, exit and wait keep the table invariant |
| Procs.GetId | kernel/proc/proc.c:197-222 | the first free pid counting up from next_pid and around, and -1 exactly when every pid is taken |
| ProcMachine.ProcTable.constructor | kernel/proc/proc.c:234-317 | the table with idle alone |
| ProcMachine.ProcTable.CreateProc | kernel/proc/proc.c:234-317 | the new process has the first free pid, is alive and childless, and is the last child of its creator; nothing else changes |
| ProcMachine.ProcTable.CleanupProc | kernel/proc/proc.c:343-365 | the loop that relinks one child after the other leaves a childless zombie with the status, all children under init, behind its own, and nothing else changed |
| ProcMachine.ProcTable.WaitPid | kernel/proc/proc.c:490-590 | -ECHILD exactly without such a child; otherwise a dead child, for -1 the first one in the list, is unlinked and its status returned, or the caller sleeps exactly if no child asked for is dead |
| Paths.SplitJoin | kernel/fs/namev.c:128-178 | the components of a path that joins components are those components |
| Paths.JoinSplit | kernel/fs/namev.c:128-178 | every path has the components of its normal form, with one slash in front of each |
| Paths.ComponentsSplit | kernel/fs/namev.c:128-178 | a slash separates: components of two parts are the components of each |
| Paths.DirAndName | kernel/fs/namev.c:91-123 | the part before the last slash and the name behind it have together exactly the components of the path |
| Paths.ResolveKept | kernel/fs/namev.c:252-261 | a new entry under a missing name changes no path that could be resolved |
| Namev.OpenResolves | kernel/fs/namev.c:65-272 | opening is looking up all components of the whole path in turn, with the same errors; a name that is too long is refused, a trailing slash asks for a directory |
| Namev.ParentExactly | kernel/fs/namev.c:65-199 | dir_namev finds a directory and a name if and only if the path ends in that name behind its last slash, the name is not too long, and looking up what comes before leads there, to a directory unless nothing came before |
| Namev.SlashesDoNotMatter | kernel/fs/namev.c:128-178 | repeated slashes make no difference |
| Namev.CreatedIsFound | kernel/fs/namev.c:252-261 | a file that was created is found under the same path |
| Namev.EntryAdded | kernel/fs/namev.c:252-261 | of all names in all directories, creating a file makes exactly the one refer to it |
| Namev.CreateKeepsOthers | kernel/fs/namev.c:252-261 | creating a file changes no other path that led somewhere |
| Namev.Vfs.FindLimit | kernel/fs/namev.c:91-97 | the position of the last slash, or -1 |
| Namev.Vfs.DirNamev | kernel/fs/namev.c:65-199 | finds the parent of the path from the root for a leading slash, whatever base and working directory are, from the base if there is one otherwise, and from the working directory if there is none; one reference more on the result and none on anything else, on success and on every failure |
| Namev.Vfs.Walk | kernel/fs/namev.c:125-198 | the index loops refine the fold of lookup over the components before the last slash, letting go of every directory on the way |
| Namev.Vfs.OpenNamev | kernel/fs/namev.c:213-272 | what is found by looking up all components from the root for a leading slash, else from the base, else from the working directory; what is missing is created there if asked for and if its directory exists, and nothing else; exactly one net reference, on the result, on success, none on failure |

## Left out

- kernel/api/syscall.c, kernel/fs/vfs_syscall.c, kernel/fs/open.c, kernel/vm/mmap.c: argument copying, flag checks and error mapping around the modelled functions.
- kernel/fs/vn_special.c, kernel/main/kmain.c, drivers, exec and program loading: device pass-through and boot wiring; loading a program appears only as setting the break.
- File-backed objects and concrete file systems: a file object is a fixed store of pages, some of which may be missing, over which written pages lie; writing pages back appears only in `Pframes`.
- Allocation failure, since the code has its failure branches commented out.
- Hardware page-table formats, the TLB, interrupt levels, context switching and stack setup; a page table is a map from pages to frames.
- pframe_migrate, pframe_remove_from_pts and the list of areas an object keeps: that list is incomplete after a split area is made.
- Clearing page-table entries when the pageout daemon frees a frame; the memory model does not page out, and the cache model has no page tables.
- proc_kill_all, user_strdup, user_vecdup, several threads per process, mounting and getcwd.
- Liveness: nothing says that a running thread ever gives way; a runnable thread runs within as many switches as its place, nothing a sleeper waits for forgets it, and some thread can always end the wait.
- Scans.FindGap: for a non-empty map and downwards only, because the code reads the first area when it finds no gap and ignores the direction.
- Machine.Vm.MapRange: a search for room needs a non-empty map, for the same reason.
- Machine.Vm.ReadMem: every page copied from must be mapped and fillable, because the code uses the area and the frame without checking.
- Machine.Vm.WriteMem: the same conditions as for reading; marking the page dirty is not modelled here.
- Machine.Vm.CopyFromUser: with no missing file page behind a mapped page, because vmmap_read does not look at the result of the lookup.
- Machine.Vm.CopyToUser: the same condition as for copying in; the bytes are promised for ranges without aliases, and Bytes.RoundTripExact shows that the condition is exact.
- Machine.Vm.DoBrk: for an address that is neither 0 nor refused the page of the start of the break must be mapped, because the code uses its area without checking; Breaks.BrkKeepsHeap says when a brk leaves it so.
- Interference.NonInterference: for private pages that no file stands behind; a private page over a file that was never written shows later shared writes to that file.
- Tables.LoadsSeeMemory: for runs without a stale kernel write; StepCoherent shows that the condition is exact.
- Pframes.Cache.Pageout: run alone, with nothing busy; with fewer successful cleanings than dirty frames it may still be at work.
- Pframes.Cache.CleanAll: run alone in the same way.
- Pframes.Cache.GetFrame: run alone, with a free page left, because the code does not look whether the allocation failed; what a shadow fill finds below is a parameter.
- Pframes.Cache.UncacheObject: pages pinned once, by their fill, because pframe_free asserts that one unpin was enough.
- Busy.StepInv: cleaning starts on frames that are not busy, which the code leaves to its callers; the choice of when pageout runs is free; the lookups of kernel/vm/shadow.c that return a resident frame without calling pframe_get are not steps of the protocol; the chains of objects do not change, so a fork happens before the run.
- Pframes.Cache.EvictFrame: with a clean operation that succeeds, as for a frame that pageoutd gets to free.
- ProcMachine.ProcTable.CreateProc: needs a free pid, because the code goes on with pid -1 when there is none.
- ProcMachine.ProcTable.CleanupProc: relinking is a move; init is alive when a process with children exits and exits itself without children; the wake-up of the parent is in Waits.
- ProcMachine.ProcTable.WaitPid: one pass between two sleeps; going on after a wake-up is another pass, and Procs.ChildStays, Waits.WokenReaps and Waits.MissedExactly say what it finds.
- Namev.Vfs.DirNamev: every node searched on the way has a lookup operation, because the code calls it without checking; only the directory found last is checked.
- Namev.Vfs.OpenNamev: nodes that have a lookup operation also have a create operation.
