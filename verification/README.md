# procfast, verified

procfast keeps kernel statistics in BPF maps. Scheduler tracepoints, function hooks and timers update
the maps in place; user space reads them through shared memory or in batches, without asking the kernel
to format anything. This project models the parts of procfast whose correctness does not show in any one
function: the sequence lock between timers and memory-mapped readers, the CPU collector behind it, the
process tracker, the batch readers, the disk and file-descriptor trackers, and two computations of the
command-line tool.

| file | what it is about |
|---|---|
| `Machine.dfy` | 32- and 64-bit words, packed keys, BPF hash-map updates |
| `Seqlock.dfy` | writer and readers as single-word steps, every interleaving |
| `MappedValue.dfy` | the same in place: the mapped words, the retry loop |
| `CpuCollector.dfy` | the CPU timer's write section and the invariant of its data |
| `Timestamps.dfy` | what a monotone clock at the timers means for readers |
| `ProcTracker.dfy` | the scheduler hooks and the reaping timer, in place and as functions |
| `Sums.dfy`, `Ledger.dfy`, `LedgerProofs.dfy`, `Incarnations.dfy` | whole runs of the tracker against the threads it watches, and what every step keeps |
| `RunHistory.dfy`, `Coverage.dfy`, `Conservation.dfy` | what a run says by itself, who loses what, and the conservation of run time |
| `Provenance.dfy` | what each part of a process entry shows: the word of the latest event that has to write it |
| `Lifecycle.dfy` | when an entry of the process map may vanish, and when it must |
| `ProcHeader.dfy` | the process header, its readers, and the buffer sized by them |
| `BatchReader.dfy`, `ProcReaders.dfy` | the cursor loops and the maps rebuilt from them |
| `DiskTracker.dfy`, `DiskHistory.dfy` | the slot allocator, and whole runs of it against plain history |
| `FdTracker.dfy` | the merge of live hooks and a one-time scan, and its readers |
| `CgroupPaths.dfy`, `CgroupMemory.dfy` | the bounded path walk and the per-cgroup memory sums |

Code that updates maps or buffers in place is a class or a method with loops here, each proved against a
specification function; what those functions mean over whole runs is proved by lemmas. A run is any
sequence of events in any order: an event that is not possible in a state changes nothing.

## How the hard parts are modelled

*Sequence lock.* Memory is a sequence of 64-bit words, word 0 being the counter, which wraps. One timer
writes, one word at a time; any number of readers load word 0, copy the words in any order, and load word
0 again. Memory is sequentially consistent. A count of the increments of word 0, which does not wrap, lets
the statements say "fewer than 2^64 increments between the two loads"; `AcceptsExactly` shows that this
is the exact reach of the check.

*Run-time accounting.* A world holds the threads with their true run time, the two maps, and the switch
hooks under way on each CPU, whose map accesses interleave with everything else. Beside each tracked
process stands a book that only the proofs see. The theorems speak of what can be read off a run instead:
the time threads ran (`RanBy`), the advances of stored baselines taken while the entry existed
(`Recorded`), and, for each thread exit, the slice from the baseline its exit hook deleted to the next
reading recorded for it (`ExitSlices`); all three are functions of the events and of the maps before and
after them. A process is *covered* (`Coverage.dfy`) when each of its threads has a baseline or is past its
exit hook and awaits its next switch-out, and no hook that looked before its entry was made is under way.

Taken from the kernel as given: a thread's `sum_exec_runtime` starts at 0 at its fork and only grows; an id
passes to a new thread only by a fork after its last owner has exited, been switched out, and not run
since; id 0 (the idle tasks) is not a thread; a thread is switched out by one CPU at a time; the run starts
with all four tracepoints attached; the timer finds tasks by their own pid (needed in `Provenance.dfy`
only). One switch hook is five steps (both lookups, the baseline, the atomic add, the state, the incoming
task); every other hook, and the reaping pass, is one step. A write through a pointer to an entry that was
removed meanwhile has no effect.

*Where code and comments differ.* The exit hook's comment (procfast-bpf/src/proc.bpf.c:369-370) says that
entries go when they have been dead for more than two intervals. The code compares the last switch-in,
not the exit: `DeadLongEnoughExactly` gives the exact condition and `LongRunGoesAtOnce` an entry that goes
with the very next pass. Before the clock has passed two intervals the deadline wraps: `GraceExactly`,
`EarlyPassBreaksGrace`.

## Model

| member | source | states |
|---|---|---|
| Seqlock.NoTornRead | procfast/src/collector.rs:53-78 | in every interleaving of the timer and any readers, whatever a reader returned is word for word, counter included, the version published at half its counter; that version was current from its first to its second load; one reader's versions never go back |
| Seqlock.AcceptsExactly | procfast/src/collector.rs:72-76 | the comparison of the two loads succeeds if and only if the increments between them are a multiple of 2^64 |
| Seqlock.OddExactlyWhileOpen | procfast-bpf/src/procfast.h:233-237 | the counter is odd exactly while a write section is open, also after it has wrapped |
| Seqlock.SnapshotsSatisfy | procfast-native/procfast_client.h:247-261 | what the initial memory satisfies and every section establishes holds of every snapshot any reader returns |
| Seqlock.PublishedChain | procfast-bpf/src/procfast.h:233-237 | consecutive published versions are related as the timer's sections relate memories, although sections are performed word by word among readers' accesses |
| MappedValue.SharedValue.Snapshot | procfast/src/collector.rs:53-78 | the retry loop in place: it ends, returns a version published between entry and exit, and every failed copy is paid for by a distinct section begun during it |
| MappedValue.SharedValue.CopyWords | procfast/src/collector.rs:67-69 | a copy whose words are loaded at different moments equals the memory at its start if the counter never moved |
| Timestamps.ReadersSeeTimeAdvance | procfast/src/collector.rs:53-78 | if the timers' clock is monotone, no reader's timestamp ever goes back |
| Timestamps.CollectStamped | procfast-bpf/src/cpu.bpf.c:93-111 | a CPU section leaves its own callback's time in the timestamp, whatever was there |
| Timestamps.CpuTimeAdvances | procfast/src/collector.rs:53-78 | end to end for the CPU value: when the passes read a monotone clock, one reader's snapshots never go back in time |
| CpuCollector.Collect | procfast-bpf/src/cpu.bpf.c:82-119 | the callback, loop by loop and store by store, performs exactly one section, the one the other lemmas are about |
| CpuCollector.AddStats | procfast-bpf/src/cpu.bpf.c:67-80 | ten additions to the totals, of the slot as it stands in the map |
| CpuCollector.RefillSlot | procfast-bpf/src/cpu.bpf.c:47-65 | a slot is cleared and then holds the kernel's counters, or zeros for a CPU the kernel does not have |
| CpuCollector.Highest | procfast-bpf/src/cpu.bpf.c:98-109 | `nr_cpus` is one past the last active CPU: it is active, and none after it is |
| CpuCollector.CollectMeaning | procfast-bpf/src/cpu.bpf.c:93-111 | from any memory, a pass leaves exactly its own reading: time, slots, sums and count, with nothing of an earlier pass |
| CpuCollector.CapturedIsConsistent | procfast-bpf/src/cpu.bpf.c:95-111 | each total is the sum mod 2^64 over the active slots; for user, system and idle over all slots; slots from `nr_cpus` on are inactive |
| CpuCollector.CollectIsSection | procfast-bpf/src/cpu.bpf.c:93-111 | a pass is one BEGIN, stores inside the value, one END |
| CpuCollector.ConsistentWords | procfast-bpf/src/procfast.h:20-40 | the same invariant on the raw words of the layout: words 3 to 12 add up the ten words of every CPU whose user, system or idle word is nonzero, and word 2 counts up to the last such CPU |
| CpuCollector.EverySnapshotConsistent | procfast/src/collector.rs:53-78 | every CPU snapshot any reader ever returns, in any interleaving, is the empty map or one pass's reading, and satisfies the summation invariant |
| ProcTracker.Tracker.SchedSwitch | procfast-bpf/src/proc.bpf.c:251-309 | the hook in place does to both maps what its specification does (whose effect on states and stamps is `Provenance.StepField`, on counters `RunHistory.TakenIsRecorded`); the shortcut for a zero delta makes no difference |
| ProcTracker.Tracker.SchedProcessFork | procfast-bpf/src/proc.bpf.c:315-339 | baseline 0 for every child, a fresh entry for leaders, each only where its map has room |
| ProcTracker.Tracker.SchedProcessExec | procfast-bpf/src/proc.bpf.c:345-365 | name and size of a tracked process follow the new image; nothing else changes |
| ProcTracker.Tracker.SchedProcessExit | procfast-bpf/src/proc.bpf.c:372-404 | the baseline goes; a leader's entry becomes a zombie with final times and keeps its stamp |
| ProcTracker.Tracker.DumpTask | procfast-bpf/src/proc.bpf.c:533-560 | the iterator fills in what is absent and never overwrites; what it fills in is `Provenance.StepField` |
| ProcTracker.Tracker.ReapDeadProc | procfast-bpf/src/proc.bpf.c:420-457 | an entry is deleted exactly if it is dead and older than the deadline, otherwise refreshed from its task |
| ProcTracker.Tracker.ReapPass | procfast-bpf/src/proc.bpf.c:483 | deleting while iterating, in any order the kernel visits, leaves exactly the old map without the reapable entries, survivors refreshed; the counters give its size |
| ProcTracker.Tracker.TimerCallback | procfast-bpf/src/proc.bpf.c:459-496 | the published count is the size of the map the pass leaves, at most 8192, and its subtraction cannot underflow; the header is written as one section |
| ProcTracker.ForkedEntries | procfast-bpf/src/proc.bpf.c:326-335 | after a fork only the child's own entry differs, and it is a fresh one |
| LedgerProofs.StructureKept | procfast-bpf/src/proc.bpf.c:251-560 | every step of every hook keeps: both maps within capacity, each entry under its own pid, each baseline of a live thread at most its run time and equal to it while it is switched out, handlers in step with their threads |
| LedgerProofs.BalanceKept | procfast-bpf/src/proc.bpf.c:263-277 | every step keeps each book balanced: credited + lost + in flight + pending = opening + run |
| RunHistory.TakenIsRecorded | procfast-bpf/src/proc.bpf.c:267-272 | at every moment of every run, what was credited to an entry and what is on its way to it are exactly the baseline advances recorded since the entry was made |
| RunHistory.LossesAreSlices | procfast-bpf/src/proc.bpf.c:273-277 | while an incarnation lasts, the time booked as lost at exits is the sum of the slices from a deleted baseline to the next recorded reading |
| Coverage.OtherLossesExactly | procfast-bpf/src/proc.bpf.c:263-277 | time is lost other than at exits if and only if the step is a first reading of a live thread, a reading by a hook that did not find the present entry, or the release of a thread whose last reading found no room |
| Coverage.CoveredLosesNothing | procfast-bpf/src/proc.bpf.c:263-277 | none of those steps can happen to a covered process |
| Coverage.StaysCovered | procfast-bpf/src/proc.bpf.c:263-379 | a covered process that stays tracked and whose forks and switch-outs find room stays covered and loses nothing but its exit slices, over any run |
| Coverage.OneSlicePerExit | procfast-bpf/src/proc.bpf.c:273-379 | slices closed and slices open together count the exits: no exit has two, and no thread goes with its slice open |
| Coverage.SwitchOutClosesSlice | procfast-bpf/src/proc.bpf.c:273-277 | the first switch-out after the exit hook re-creates the baseline at the present reading and closes the slice there |
| Coverage.ForkCovers | procfast-bpf/src/proc.bpf.c:322-335 | a process forked with room in both maps is covered, with nothing counted and nothing open |
| Coverage.ScanCovers | procfast-bpf/src/proc.bpf.c:545-557 | a process alive at load is covered once all its threads have baselines and the hooks that looked earlier are through |
| Conservation.RuntimeConserved | procfast-bpf/src/proc.bpf.c:263-277 | over every run, with switch hooks interleaving on all CPUs, for every tracked process: the counter and what is on its way to it are the advances recorded since its entry was made (mod 2^64, exactly while it has run less), at most what the group has run since load; the rest is lost or unread |
| Conservation.CoveredLosesSlices | procfast-bpf/src/proc.bpf.c:263-379 | between two looks at a covered process, forked or scanned: counted, on its way, unread and exit slices add up to what was there at the first look plus all that was run since |
| Conservation.UnreadBeyondBaseline | procfast-bpf/src/proc.bpf.c:266-270 | what is unread of a covered thread is what it ran beyond the baseline in the map, or beyond the one its exit hook deleted |
| Conservation.NoUnderflow | procfast-bpf/src/proc.bpf.c:266-270 | in every reachable state each baseline is at most its owner's run time and each delta under way is the true difference, tid reuse and stale baselines included |
| Conservation.ForkResets | procfast-bpf/src/proc.bpf.c:322-324 | after a fork the child's id has baseline 0, or none if the map was full: a stale one never survives |
| Conservation.OnlyExitsLose | procfast-bpf/src/proc.bpf.c:273-379 | for a process forked after load with room in both maps: all its threads have run is counted, on its way or unread, but for one slice per thread exit, from the last value recorded before the exit hook to the one re-recorded at the next switch-out |
| Incarnations.BookGrows | procfast-bpf/src/proc.bpf.c:271-272 | between two looks at one incarnation nothing credited or lost is taken back |
| Conservation.CounterGrows | procfast-cli/src/main.rs:712-718 | the counter of one incarnation never decreases between two looks, whatever happened in between |
| Conservation.TopDeltasTelescope | procfast-cli/src/main.rs:712-724 | the saturating subtraction never clips for one incarnation: over any number of refreshes the deltas add up to the total change |
| Conservation.WholeSwitchIsSwitched | procfast-bpf/src/proc.bpf.c:251-309 | the interleaved steps of one switch hook, undisturbed, come to what the hook in place does |
| Lifecycle.GraceExactly | procfast-bpf/src/proc.bpf.c:476-481 | a pass spares everything seen in the last two intervals if and only if the clock has passed two intervals, or the wrapped deadline is 0 |
| Lifecycle.EarlyPassBreaksGrace | procfast-bpf/src/proc.bpf.c:478 | half a second after boot, with the default interval, an entry that exited this nanosecond is removed |
| Lifecycle.DeadLongEnoughExactly | procfast-bpf/src/proc.bpf.c:368-391 | "dead for more than two intervals" holds if and only if the entry was stamped no earlier than its exit (or the 64-bit clock ends first) |
| Lifecycle.LongRunGoesAtOnce | procfast-bpf/src/proc.bpf.c:368-391 | a process that computed for nine seconds on one switch-in and exited is removed by the very next pass |
| Lifecycle.LifeStep | procfast-bpf/src/proc.bpf.c:251-560 | presence, state and stamp of one entry follow one small automaton over all hooks and the reaper |
| Lifecycle.TickDecides | procfast-bpf/src/proc.bpf.c:427-431 | once the clock has passed two intervals a tick removes an entry if and only if it is dead and unseen for more than two intervals |
| Lifecycle.GracePeriod | procfast-bpf/src/proc.bpf.c:427-431 | over any run, an entry removed by a tick was last switched in, forked or inserted more than two intervals before, at every earlier moment of the run |
| Lifecycle.OnlyTicksRemove | procfast-bpf/src/proc.bpf.c:427-428 | no hook but the timer removes an entry, and only from a dead state |
| Lifecycle.LiveEntriesSurvive | procfast-bpf/src/proc.bpf.c:284-306 | a process whose leader has not exited and whose threads are switched out only runnable, sleeping, in disk sleep or stopped stays through any number of ticks |
| Lifecycle.DeadStaysDead | procfast-bpf/src/proc.bpf.c:382-391 | with no switch or fork, and no iterator visit after its removal, a dead entry stays dead with its stamp until a tick removes it, and an absent one stays absent |
| Lifecycle.EventuallyReaped | procfast-bpf/src/proc.bpf.c:472-483 | an entry left dead, with no further switch or fork, is gone after the first tick later than its stamp plus two intervals and stays gone, whatever other processes do; iterator visits to it before the tick change nothing |
| Lifecycle.DeadAfterSwitchOut | procfast-bpf/src/proc.bpf.c:284-296 | a switch-out with some bit of the state set but none of 1, 2 and 4 leaves the entry dead, at its old stamp |
| Lifecycle.DeadTaskReaped | procfast-bpf/src/proc.bpf.c:284-296 | after such a last switch-out, with no further switch or fork, the entry is gone after the first tick later than its stamp plus two intervals, and stays gone |
| Lifecycle.ScannedSurvives | procfast-bpf/src/proc.bpf.c:148-172 | a process the iterator inserts with neither the zombie nor the dead bit stays, from its scan on, while its leader does not exit and its threads are switched out only runnable, sleeping, in disk sleep or stopped |
| Lifecycle.ForkedSurvives | procfast-bpf/src/proc.bpf.c:326-335 | so does a forked process, from its fork on |
| Lifecycle.TickRefreshes | procfast-bpf/src/proc.bpf.c:433-456 | a pass gives every survivor whose task exists that task's times, context switches and, if it has memory, resident and shared sizes, and changes nothing else |
| Provenance.StepField | procfast-bpf/src/proc.bpf.c:136-560 | across any event each part of an entry (state by the literal bits of the task, stamp and CPU, own times, context switches, children's times, resident and shared memory, virtual size, name, cgroup) becomes what the event has to write there, and is untouched where the event has nothing to write |
| Provenance.EveryFieldLatest | procfast-bpf/src/proc.bpf.c:136-560 | in every run, each part of each entry is what the latest event that has to write it said |
| Provenance.LatestWriteShows | procfast-bpf/src/proc.bpf.c:136-560 | whichever event is the latest to have to write a part, the entry shows its word and no staler one |
| Provenance.EveryFieldSourced | procfast-bpf/src/proc.bpf.c:136-227 | in every run, each part of each entry (own times, context switches, children's times, resident and shared memory, virtual size, name, cgroup) is one unmixed reading of a task of that process which a hook, the iterator or the timer met during the run; children's times are such a reading or still zero |
| Provenance.SharedWithinResident | procfast-bpf/src/proc.bpf.c:444-451 | no entry ever shows more shared than resident memory, if no reading does |
| Provenance.EveryStampSourced | procfast-bpf/src/proc.bpf.c:299-306 | the stamp and CPU of an entry are those of one switch-in, fork or iterator insertion of that very process |
| ProcHeader.HeaderIsSection | procfast-bpf/src/proc.bpf.c:486-489 | the header is written as one write section |
| ProcHeader.HeaderCountsMap | procfast-bpf/src/proc.bpf.c:483-489 | over any run of the tracker and any interleaving with its timer: every header snapshot any reader returns is unwritten, or has the time of one tick and the size of the map that tick left |
| ProcHeader.HeaderTimeAdvances | procfast-bpf/src/proc.bpf.c:470-489 | one reader's header snapshots never go back in time, over any run of the tracker |
| ProcHeader.HeaderCountBounded | procfast-bpf/src/proc.bpf.c:486-489 | every header snapshot any reader returns over a run of the tracker, the never-written one included, has a count of at most 8192 |
| ProcHeader.CapacityPositiveExactly | procfast-native/procfast_client.h:388 | the 32-bit sum wraps to an empty buffer for exactly one count |
| ProcHeader.InitialCapacityPositive | procfast-native/procfast_client.h:385-390 | that count is never published: over any run of the tracker the buffer starts with room for the counted entries and 64 more, or for 1024 where nothing was counted |
| BatchReader.MapHandle.LookupBatch | procfast/src/proc.rs:67-77 | the kernel's cursor contract: the next batch in the first `count` places, the rest of the buffer untouched, ENOENT with the last batch |
| BatchReader.SnapshotAll | procfast/src/proc.rs:38-98 | for every division into batches the loop ends and the vector is their concatenation |
| BatchReader.ReadAll | procfast-native/procfast_client.h:414-448 | the C loop returns the concatenation in a buffer of the doubled capacity, and fails if and only if the allocator cannot serve that capacity |
| BatchReader.AppendBatch | procfast-native/procfast_client.h:431-439 | nothing is written out of bounds and every earlier entry survives each doubling |
| BatchReader.Grown | procfast-native/procfast_client.h:432-437 | doubling makes room and stays below twice what is needed |
| BatchReader.BuildMap | procfast-lsof/src/main.rs:108-115 | collecting the values into a map by pid, a later duplicate winning |
| BatchReader.LastWins | procfast-lsof/src/main.rs:113-114 | of several values with one key the last is kept |
| BatchReader.RebuildExactly | procfast-lsof/src/main.rs:108-115 | re-keying the values of a map gives the map back if and only if every value carries its own key |
| ProcReaders.SnapshotIsMap | procfast/src/proc.rs:38-110 | in every state the tracker reaches and for every division into batches: the snapshot re-keyed by pid is the kernel's map, single lookup agrees with it, and its length is the map's size |
| ProcReaders.PidCache.RefreshPids | procfast/src/proc.rs:164-174 | listed pids that exist are replaced, everything else stays, and the count is the number found |
| ProcReaders.FoundDistinct | procfast/src/proc.rs:166-173 | with no pid listed twice the count is the number of listed pids that are tracked |
| ProcReaders.RefreshSuffices | procfast/src/proc.rs:164-174 | a refreshed cache equals the kernel's map if and only if it held no vanished pid and every pid not listed was up to date |
| DiskTracker.Collector.DiskstatsShow | procfast-bpf/src/disk.bpf.c:54-118 | the hook in place: a slot for a new device while there is one, its label, the count, the time |
| DiskTracker.RequestCounted | procfast-bpf/src/disk.bpf.c:173-183 | for a device holding a slot, an even flag word adds 1 and the whole 512-byte sectors to the two read words, an odd one to the two write words, and the other two stay |
| DiskTracker.Collector.BlockRqComplete | procfast-bpf/src/disk.bpf.c:124-187 | the hook in place: the same allocation, and one request added to the reads or the writes |
| DiskHistory.ArrayMirrorsHistory | procfast-bpf/src/disk.bpf.c:69-183 | over any sequence of the two hooks the array tells, slot by slot, the history of the first 64 distinct devices in order of appearance: key halves, latest name, counters folded from their completions mod 2^64; other slots are empty; `nr_disks` is their number and the timestamp that of the latest event about one of them |
| DiskHistory.SlotsNeverMove | procfast-bpf/src/disk.bpf.c:73-87 | once assigned, a device keeps its slot for ever |
| DiskHistory.SlotsBijective | procfast-bpf/src/disk.bpf.c:140-167 | the index is a bijection between the devices it holds and the slots [0, next) |
| DiskHistory.ShowsKeepCounters | procfast-bpf/src/disk.bpf.c:92-115 | showing the statistics never disturbs a counter of any slot |
| DiskHistory.IoConserved | procfast-bpf/src/disk.bpf.c:173-183 | reads plus writes over the whole array, in operations or sectors, equal mod 2^64 what the devices holding a slot have completed since load |
| Machine.PackRoundTrip | procfast-bpf/src/fd.bpf.c:63 | packing two 32-bit halves into a key and splitting it are inverse, both ways |
| FdTracker.Tracker.FexitOpenat2 | procfast-bpf/src/fd.bpf.c:51-97 | a successful open is recorded under its packed key, overwriting, if there is room |
| FdTracker.Tracker.FentryCloseFd | procfast-bpf/src/fd.bpf.c:105-115 | a close removes exactly its own key |
| FdTracker.Tracker.DumpTaskFile | procfast-bpf/src/fd.bpf.c:125-167 | the iterator adds leaders' files where the key is absent and never overwrites |
| FdTracker.ScanTakesLeaders | procfast-bpf/src/fd.bpf.c:132-164 | the iterator records a leader's file where the key is absent and the map has room, with its inode, flags and path and open time 0; a file met through another thread, or no file, leaves the map |
| FdTracker.ValuesDecodeKeys | procfast-bpf/src/fd.bpf.c:59-67 | in every run each value's pid and fd are the halves of its key, and the map stays within its capacity |
| FdTracker.LatestOpenWins | procfast-bpf/src/fd.bpf.c:94-112 | a key whose latest hook event is an open holds that open's record exactly when the open found room, whatever the iterator does before or after |
| FdTracker.IteratorFillsGaps | procfast-bpf/src/fd.bpf.c:142-164 | with no open since load or the last close, a key holds the record of the first iterator call about it, exactly when that call found room, else nothing |
| FdTracker.LookupAgrees | procfast/src/fd.rs:83-93 | in every run: the snapshot re-keyed is the map, and looking a pid and fd up finds exactly the snapshot's entry with that pid and fd |
| FdTracker.ListPidExact | procfast/src/fd.rs:99-102 | the list of a pid is the entries whose key has the pid in its high half: all, nothing else, none twice |
| CgroupPaths.CollectMaps | procfast-cli/src/main.rs:419-424 | the two maps are collected in one order from the same list |
| CgroupPaths.LastListed | procfast-cli/src/main.rs:419-424 | name and parent of an id are those of the last cgroup listed with it |
| CgroupPaths.AncestorsLongest | procfast-cli/src/main.rs:426-442 | for arbitrary, possibly cyclic maps the walk visits the longest chain of at most ten known, named, linked ids: every other such chain is a prefix of it |
| CgroupPaths.BuildPath | procfast-cli/src/main.rs:426-445 | the loop ends within ten rounds and yields the walk's names, outermost first, or "/" |
| CgroupPaths.ComponentAt | procfast-cli/src/main.rs:432-443 | the k-th component is the name of the k-th id from the top of the walk |
| CgroupPaths.ChildPathExactly | procfast-cli/src/main.rs:429-443 | a child's components are its parent's followed by its own name if and only if the parent's path has fewer components than the walk has steps |
| CgroupPaths.SlashBeforeEach | procfast-cli/src/main.rs:444 | the printed path is a slash before each component, and "/" alone if there are none |
| CgroupPaths.ChildPathPrinted | procfast-cli/src/main.rs:444 | the printed path of a child is its parent's, a slash and its name, if the parent's path has components and fewer than the walk has steps |
| CgroupPaths.CycleBreaksChildPath | procfast-cli/src/main.rs:426-442 | two cgroups naming each other as parent: the walk uses all its steps and the rule for children fails |
| CgroupMemory.AggregateRss | procfast-cli/src/main.rs:450-461 | the map has exactly the populated cgroups, each with its own processes' sums of resident and shared bytes mod 2^64 |
| CgroupMemory.UsageOfFields | procfast-cli/src/main.rs:453-458 | a cgroup is in the map if and only if some process is in it and its id is not 0, and then with the sum of its processes' resident sizes first and of their shared sizes second, mod 2^64 |
| CgroupMemory.UsageAnyOrder | procfast-cli/src/main.rs:453-459 | the map depends on which processes there are, not on the order of the snapshot |
| CgroupMemory.TotalsConserved | procfast-cli/src/main.rs:450-461 | totals over all cgroups, walked in any order, equal mod 2^64 the totals over the processes that are in a cgroup |

## Left out

- Seqlock.NoTornRead: memory is sequentially consistent; the fences of the readers and real memory ordering are not modelled. The equality is claimed when fewer than 2^64 increments separate the two loads, and only for the values written by a timer whose END precedes its rearm (`cpu_data`, `proc_header`).
- Conservation.RuntimeConserved: exec by a non-leader thread, which hands a tid over without a fork, and the window in which the tracepoints are attached one after another are outside the runs; so is the reuse of a removed map element under a stale pointer. The switch hook's two lookups are one step, and so are its clock reading and its update of the incoming task.
- Lifecycle.OnlyTicksRemove: the reaping pass is one step. In the code it tests an entry and then deletes by key while hooks run on other CPUs, so a fork between the two could lose its fresh entry; that is outside the runs.
- Lifecycle.GracePeriod: the same, for a switch-in between the test and the deletion.
- Conservation.CoveredLosesSlices: for processes that stay tracked and whose forks and switch-outs find room in `thread_runtime`; what a full map costs is told step by step by `Coverage.OtherLossesExactly`.
- Conservation.CounterGrows: for groups that have run less than 2^64 ns since load.
- BatchReader.SnapshotAll: the map is quiescent while the batches are read, and the kernel's batch lookup is known by its cursor contract alone; errors other than the end of the map are not modelled.
- BatchReader.ReadAll: failure of the two small scratch allocations is not modelled, nor the width of the C reader's `int total`, which the map's capacity bounds.
- DiskHistory.ArrayMirrorsHistory: each run of a disk hook is atomic; the counters no hook writes (times and ticks) are not part of a slot.
- FdTracker.LatestOpenWins: says what the map holds, not what is open: dup, process exit and close-on-exec have no hook, and the close hook fires before the close.
- CgroupPaths.BuildPath: names are given as strings; their decoding from NUL-terminated bytes and the cut of long paths for display are not modelled.
- CgroupMemory.AggregateRss: an overflowing sum wraps, as in a release build; a debug build would stop.
- Process entries are modelled without the fields that are only copied at creation (parent, owner, thread count, priorities, I/O bytes, start time) and with memory sizes already in bytes; the bits of `__state` that no branch looks at are one flag.
- `drain_events` and the ring buffer of process events: they depend on raw file-descriptor behaviour that the repository does not show.
- The memory, network, disk and thermal values are not claimed to be read untorn: their hooks do not open and close write sections around all their stores.
- The null checks of one-element array maps, the rearming of timers and the loading, pinning and configuration of programs.
- The network and thermal collectors (the same allocator as the disk collector), the socket and interrupt collectors, and the second copies of the readers in the client crate.
- The daemon, the HTTP exporter, argument parsing, printing, sorting and percentages.
