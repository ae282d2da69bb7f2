/** The process tracker: what each scheduler hook does to the two hash maps, and the hooks in place. */
module ProcTracker {
  import opened Machine
  import opened Seqlock
  import opened MappedValue

  const MAX_PROCS: nat := 8192
  const MAX_THREADS: nat := 16384

  // ---- Entities ----

  /** `mm_struct` sizes, in bytes. */
  datatype Mm = Mm(vsize: u64, rss: u64, shared: u64)

  /** The bits of `__state` that the tracker tests, and whether any other bit is set. */
  datatype TaskState = TaskState(
    interruptible: bool,      // 1
    uninterruptible: bool,    // 2
    stopped: bool,            // 4
    zombie: bool,             // 0x10
    dead: bool,               // 0x20
    noload: bool,             // 0x400
    other: bool)
  {
    predicate IsZero() {
      !interruptible && !uninterruptible && !stopped && !zombie && !dead && !noload && !other
    }
  }

  /** `struct task_struct`, as far as the hooks read it. */
  datatype Task = Task(
    pid: u32, tgid: u32, state: TaskState, onRq: bool, runtime: u64, comm: string,
    utime: u64, stime: u64, nvcsw: u64, nivcsw: u64,
    childTimes: Option<(u64, u64)>, mm: Option<Mm>, cgroupId: u64)

  /** Accumulated times and context switches. */
  datatype Times = Times(utime: u64, stime: u64, cutime: u64, cstime: u64, nvcsw: u64, nivcsw: u64)

  /** `struct procfast_proc_stats`, without the fields that are only ever copied at creation. */
  datatype ProcStats = ProcStats(
    pid: u32, tgid: u32, state: nat, comm: string, times: Times, mem: Mm,
    lastCpu: u32, lastSeenNs: u64, cpuRuntimeNs: u64, cgroupId: u64)

  datatype Maps = Maps(procs: map<u32, ProcStats>, threads: map<u32, u64>)

  const RUNNING: TaskState := TaskState(false, false, false, false, false, false, false)

  // ---- Decoding ----

  /** The state decoding of `read_task_stats`. */
  function IteratorState(task: Task): nat {
    if task.state.IsZero() then (if task.onRq then 0 else 1)
    else if task.state.zombie then 4
    else if task.state.dead then 5
    else if task.state.stopped then 3
    else if task.state.uninterruptible then (if task.state.noload then 1 else 2)
    else 1
  }

  /** The state decoding of the switch hook. */
  function SwitchState(state: TaskState): nat {
    if state.IsZero() then 0
    else if state.interruptible then 1
    else if state.uninterruptible then 2
    else if state.stopped then 3
    else if state.zombie then 4
    else 5
  }

  function ReadTaskStats(task: Task): ProcStats {
    ProcStats(task.pid, task.tgid, IteratorState(task), task.comm,
              Times(task.utime, task.stime, 0, 0, task.nvcsw, task.nivcsw),
              if task.mm.Some? then task.mm.value else Mm(0, 0, 0),
              0, 0, 0, task.cgroupId)
  }

  // ---- sched_switch, one map access at a time ----

  /** The baseline becomes the current reading, unless it is absent and the map full
      (procfast-bpf/src/proc.bpf.c:267-277). */
  function Rebase(m: Maps, tid: u32, runtime: u64): Maps {
    m.(threads := UpdateAny(m.threads, MAX_THREADS, tid, runtime))
  }

  /** A first sighting credits nothing (procfast-bpf/src/proc.bpf.c:268-269). */
  function Delta(baseline: Option<u64>, runtime: u64): u64 {
    if baseline.Some? then Wrap64(runtime - baseline.value) else 0
  }

  /** The atomic add (procfast-bpf/src/proc.bpf.c:271-272). */
  function AddRuntime(m: Maps, tgid: u32, delta: u64): Maps {
    if tgid in m.procs
    then m.(procs := m.procs[tgid := m.procs[tgid].(cpuRuntimeNs := Wrap64(m.procs[tgid].cpuRuntimeNs + delta))])
    else m
  }

  /** The state of the task switched out (procfast-bpf/src/proc.bpf.c:279-297). */
  function MarkOut(m: Maps, tgid: u32, state: TaskState): Maps {
    if tgid in m.procs then m.(procs := m.procs[tgid := m.procs[tgid].(state := SwitchState(state))]) else m
  }

  /** The task switched in (procfast-bpf/src/proc.bpf.c:300-306). */
  function MarkIn(m: Maps, tgid: u32, now: u64, cpu: u32): Maps {
    if tgid in m.procs
    then m.(procs := m.procs[tgid := m.procs[tgid].(lastSeenNs := now, lastCpu := cpu, state := 0)])
    else m
  }

  function Switched(m: Maps, now: u64, cpu: u32, prev: Task, next: Task): Maps {
    var delta := Delta(Lookup(m.threads, prev.pid), prev.runtime);
    var m1 := Rebase(m, prev.pid, prev.runtime);
    MarkIn(MarkOut(AddRuntime(m1, prev.tgid, delta), prev.tgid, prev.state), next.tgid, now, cpu)
  }

  // ---- The other hooks ----

  function NewStats(child: Task, now: u64): ProcStats {
    ReadTaskStats(child).(lastSeenNs := now, state := 0)
  }

  function Forked(m: Maps, now: u64, child: Task): Maps {
    var m1 := Rebase(m, child.pid, 0);
    if child.pid != child.tgid then m1
    else m1.(procs := UpdateAny(m1.procs, MAX_PROCS, child.tgid, NewStats(child, now)))
  }

  function Execed(m: Maps, task: Task): Maps {
    if task.tgid !in m.procs then m
    else
      var s := m.procs[task.tgid].(comm := task.comm);
      m.(procs := m.procs[task.tgid := if task.mm.Some? then s.(mem := s.mem.(vsize := task.mm.value.vsize)) else s])
  }

  function ExitStats(s: ProcStats, task: Task): ProcStats {
    var t := s.times.(utime := task.utime, stime := task.stime);
    s.(state := 4,
       times := if task.childTimes.Some?
                then t.(cutime := task.childTimes.value.0, cstime := task.childTimes.value.1)
                else t)
  }

  function Exited(m: Maps, task: Task): Maps {
    var m1 := m.(threads := m.threads - {task.pid});
    if task.pid != task.tgid || task.tgid !in m.procs then m1
    else m1.(procs := m.procs[task.tgid := ExitStats(m.procs[task.tgid], task)])
  }

  function Dumped(m: Maps, now: u64, task: Task): Maps {
    var m1 := m.(threads := UpdateNoExist(m.threads, MAX_THREADS, task.pid, task.runtime));
    if task.pid != task.tgid then m1
    else m1.(procs := UpdateNoExist(m1.procs, MAX_PROCS, task.tgid, ReadTaskStats(task).(lastSeenNs := now)))
  }

  // ---- What every hook keeps ----

  /** Both maps within their capacity; each entry under its own pid; nothing seen in the future. */
  ghost predicate MapsOk(m: Maps, clock: u64) {
    && |m.procs| <= MAX_PROCS && |m.threads| <= MAX_THREADS
    && (forall g | g in m.procs :: EntryOk(m.procs[g], g, clock))
  }

  ghost predicate EntryOk(s: ProcStats, g: u32, clock: u64) {
    s.pid == g && s.tgid == g && s.lastSeenNs <= clock
  }

  lemma RebaseKeeps(m: Maps, clock: u64, tid: u32, runtime: u64)
    requires MapsOk(m, clock)
    ensures MapsOk(Rebase(m, tid, runtime), clock)
  {
    CapacityKept(m.threads, MAX_THREADS, tid, runtime);
  }

  /** Rewriting a present entry, or inserting one where there is room. */
  lemma EntryKeeps(m: Maps, before: u64, clock: u64, g: u32, s: ProcStats)
    requires MapsOk(m, before) && before <= clock && EntryOk(s, g, clock)
    ensures g in m.procs ==> MapsOk(m.(procs := m.procs[g := s]), clock)
    ensures MapsOk(m.(procs := UpdateAny(m.procs, MAX_PROCS, g, s)), clock)
    ensures MapsOk(m.(procs := UpdateNoExist(m.procs, MAX_PROCS, g, s)), clock)
  {
    CapacityKept(m.procs, MAX_PROCS, g, s);
  }

  lemma SwitchStepsKeep(m: Maps, clock: u64, tgid: u32, delta: u64, state: TaskState, now: u64, cpu: u32)
    requires MapsOk(m, clock) && clock <= now
    ensures MapsOk(AddRuntime(m, tgid, delta), clock)
    ensures MapsOk(MarkOut(m, tgid, state), clock)
    ensures MapsOk(MarkIn(m, tgid, now, cpu), now)
  {
    if tgid in m.procs {
      var s := m.procs[tgid];
      EntryKeeps(m, clock, clock, tgid, s.(cpuRuntimeNs := Wrap64(s.cpuRuntimeNs + delta)));
      EntryKeeps(m, clock, clock, tgid, s.(state := SwitchState(state)));
      EntryKeeps(m, clock, now, tgid, s.(lastSeenNs := now, lastCpu := cpu, state := 0));
    }
  }

  lemma ForkedKeeps(m: Maps, clock: u64, now: u64, child: Task)
    requires MapsOk(m, clock) && clock <= now
    ensures MapsOk(Forked(m, now, child), now)
  {
    RebaseKeeps(m, clock, child.pid, 0);
    if child.pid == child.tgid {
      EntryKeeps(Rebase(m, child.pid, 0), clock, now, child.tgid, NewStats(child, now));
    }
  }

  lemma ExecedKeeps(m: Maps, clock: u64, task: Task)
    requires MapsOk(m, clock)
    ensures MapsOk(Execed(m, task), clock)
  {
    if task.tgid in m.procs {
      EntryKeeps(m, clock, clock, task.tgid, Execed(m, task).procs[task.tgid]);
    }
  }

  lemma ExitedKeeps(m: Maps, clock: u64, task: Task)
    requires MapsOk(m, clock)
    ensures MapsOk(Exited(m, task), clock)
  {
    CapacityKept(m.threads, MAX_THREADS, task.pid, 0);
    if task.pid == task.tgid && task.tgid in m.procs {
      EntryKeeps(m.(threads := m.threads - {task.pid}), clock, clock, task.tgid,
                 ExitStats(m.procs[task.tgid], task));
    }
  }

  lemma DumpedKeeps(m: Maps, clock: u64, now: u64, task: Task)
    requires MapsOk(m, clock) && clock <= now
    ensures MapsOk(Dumped(m, now, task), now)
  {
    CapacityKept(m.threads, MAX_THREADS, task.pid, task.runtime);
    if task.pid == task.tgid {
      EntryKeeps(m.(threads := UpdateNoExist(m.threads, MAX_THREADS, task.pid, task.runtime)),
                 clock, now, task.tgid, ReadTaskStats(task).(lastSeenNs := now));
    }
  }

  lemma ReapedKeeps(m: Maps, clock: u64, now: u64, deadline: u64, live: map<u32, Task>)
    requires MapsOk(m, clock) && clock <= now
    ensures MapsOk(Reaped(m, deadline, live), now)
  {
    SubmapSize(Reaped(m, deadline, live).procs, m.procs);
    forall g | g in m.procs ensures EntryOk(Refreshed(m.procs[g], Lookup(live, g)), g, now) {
      assert EntryOk(m.procs[g], g, clock);
    }
  }

  // What each hook does to the baselines and to the set of tracked pids.

  ghost predicate SameOrPlus(keys: set<u32>, keys': set<u32>, task: Task) {
    keys' == keys || (keys' == keys + {task.tgid} && task.pid == task.tgid)
  }

  lemma ForkedFrame(m: Maps, now: u64, child: Task)
    ensures Forked(m, now, child).threads == UpdateAny(m.threads, MAX_THREADS, child.pid, 0)
    ensures SameOrPlus(m.procs.Keys, Forked(m, now, child).procs.Keys, child)
  {
  }

  lemma ForkedEntries(m: Maps, now: u64, child: Task, g: u32)
    requires g in Forked(m, now, child).procs
    ensures if g == child.tgid == child.pid then Forked(m, now, child).procs[g] == NewStats(child, now)
            else g in m.procs && Forked(m, now, child).procs[g] == m.procs[g]
  {
  }

  lemma DumpedFrame(m: Maps, now: u64, task: Task)
    ensures Dumped(m, now, task).threads == UpdateNoExist(m.threads, MAX_THREADS, task.pid, task.runtime)
    ensures SameOrPlus(m.procs.Keys, Dumped(m, now, task).procs.Keys, task)
  {
  }

  lemma ExitedFrame(m: Maps, task: Task)
    ensures Exited(m, task).threads == m.threads - {task.pid}
    ensures Exited(m, task).procs.Keys == m.procs.Keys
  {
  }

  lemma ExecedFrame(m: Maps, task: Task)
    ensures Execed(m, task).threads == m.threads
    ensures Execed(m, task).procs.Keys == m.procs.Keys
  {
  }

  lemma SwitchFrames(m: Maps, tgid: u32, delta: u64, state: TaskState, now: u64, cpu: u32)
    ensures var a := AddRuntime(m, tgid, delta); a.threads == m.threads && a.procs.Keys == m.procs.Keys
    ensures var a := MarkOut(m, tgid, state); a.threads == m.threads && a.procs.Keys == m.procs.Keys
    ensures var a := MarkIn(m, tgid, now, cpu); a.threads == m.threads && a.procs.Keys == m.procs.Keys
  {
  }

  // ---- The timer ----

  /** `now - (2 * interval_ns)` in 64 bits. */
  function Deadline(now: u64, interval: u64): u64 { Wrap64(now - 2 * interval) }

  predicate Reapable(s: ProcStats, deadline: u64) { s.state >= 4 && s.lastSeenNs < deadline }

  /** The tick-based refresh of a surviving entry whose task still exists. */
  function Refreshed(s: ProcStats, live: Option<Task>): ProcStats {
    if live.None? then s
    else
      var t := live.value;
      s.(times := s.times.(utime := t.utime, stime := t.stime, nvcsw := t.nvcsw, nivcsw := t.nivcsw),
         mem := if t.mm.Some? then s.mem.(rss := t.mm.value.rss, shared := t.mm.value.shared) else s.mem)
  }

  /** The map a pass leaves: the old one without the reapable entries, survivors refreshed. */
  function Reaped(m: Maps, deadline: u64, live: map<u32, Task>): Maps {
    m.(procs := map g | g in m.procs && !Reapable(m.procs[g], deadline) ::
                  Refreshed(m.procs[g], Lookup(live, g)))
  }

  /** The timer's write section on `proc_header`. */
  function HeaderOps(now: u64, nrProcs: u32): seq<Op> {
    [Begin, Store(1, now), Store(2, nrProcs), End]
  }

  /** The map when the pass has visited the keys in `seen`. */
  function PartlyReaped(procs: map<u32, ProcStats>, seen: set<u32>, deadline: u64, live: map<u32, Task>)
    : map<u32, ProcStats>
  {
    map g | g in procs && !(g in seen && Reapable(procs[g], deadline)) ::
      if g in seen then Refreshed(procs[g], Lookup(live, g)) else procs[g]
  }

  lemma PassBounds(procs: map<u32, ProcStats>, deadline: u64, live: map<u32, Task>)
    ensures PartlyReaped(procs, {}, deadline, live) == procs
    ensures forall threads :: Reaped(Maps(procs, threads), deadline, live)
                              == Maps(PartlyReaped(procs, procs.Keys, deadline, live), threads)
  {
  }

  lemma PassAdvances(procs: map<u32, ProcStats>, seen: set<u32>, g: u32, deadline: u64, live: map<u32, Task>)
    requires g in procs && g !in seen
    ensures var now, next := PartlyReaped(procs, seen, deadline, live), PartlyReaped(procs, seen + {g}, deadline, live);
            && g in now && now[g] == procs[g]
            && next == if Reapable(procs[g], deadline) then now - {g}
                       else now[g := Refreshed(procs[g], Lookup(live, g))]
  {
  }

  function Visited(order: seq<u32>, n: nat): set<u32>
    requires n <= |order|
  {
    set k | 0 <= k < n :: order[k]
  }

  lemma VisitNext(order: seq<u32>, keys: set<u32>, i: nat)
    requires VisitsEach(order, keys) && i < |order|
    ensures Visited(order, 0) == {}
    ensures order[i] in keys && order[i] !in Visited(order, i)
    ensures Visited(order, i + 1) == Visited(order, i) + {order[i]}
  {
    assert order[i] in order;
  }

  lemma VisitAll(order: seq<u32>, keys: set<u32>)
    requires VisitsEach(order, keys)
    ensures Visited(order, |order|) == keys && |order| == |keys|
  {
    OrderSize(order, keys);
    forall g | g in keys ensures g in Visited(order, |order|) {
      assert g in order;
    }
  }

  // ---- The hooks in place ----

  class Tracker {
    var procStats: map<u32, ProcStats>
    var threadRuntime: map<u32, u64>
    const header: TimerValue

    constructor (header: TimerValue)
      ensures View() == Maps(map[], map[]) && this.header == header
    {
      procStats, threadRuntime := map[], map[];
      this.header := header;
    }

    ghost function View(): Maps
      reads this
    {
      Maps(procStats, threadRuntime)
    }

    method SchedSwitch(now: u64, cpu: u32, prev: Task, next: Task)
      modifies this
      ensures View() == Switched(old(View()), now, cpu, prev, next)
    {
      var tracked := prev.tgid in procStats;
      if prev.pid in threadRuntime {
        var delta := Wrap64(prev.runtime - threadRuntime[prev.pid]);
        threadRuntime := threadRuntime[prev.pid := prev.runtime];
        if tracked && delta > 0 {
          var s := procStats[prev.tgid];
          procStats := procStats[prev.tgid := s.(cpuRuntimeNs := Wrap64(s.cpuRuntimeNs + delta))];
        }
      } else {
        threadRuntime := UpdateAny(threadRuntime, MAX_THREADS, prev.pid, prev.runtime);
      }
      AddNothing(Maps(procStats, threadRuntime), prev.tgid);
      if tracked {
        var s := procStats[prev.tgid];
        procStats := procStats[prev.tgid := s.(state := SwitchState(prev.state))];
      }
      if next.tgid in procStats {
        var s := procStats[next.tgid];
        procStats := procStats[next.tgid := s.(lastSeenNs := now, lastCpu := cpu, state := 0)];
      }
    }

    method SchedProcessFork(now: u64, child: Task)
      modifies this
      ensures View() == Forked(old(View()), now, child)
    {
      threadRuntime := UpdateAny(threadRuntime, MAX_THREADS, child.pid, 0);
      if child.pid != child.tgid {
        return;
      }
      var stats := ReadTaskStats(child);
      stats := stats.(lastSeenNs := now);
      stats := stats.(state := 0);
      procStats := UpdateAny(procStats, MAX_PROCS, child.tgid, stats);
    }

    method SchedProcessExec(task: Task)
      modifies this
      ensures View() == Execed(old(View()), task)
    {
      if task.tgid in procStats {
        var stats := procStats[task.tgid].(comm := task.comm);
        if task.mm.Some? {
          stats := stats.(mem := stats.mem.(vsize := task.mm.value.vsize));
        }
        procStats := procStats[task.tgid := stats];
      }
    }

    method SchedProcessExit(task: Task)
      modifies this
      ensures View() == Exited(old(View()), task)
    {
      threadRuntime := threadRuntime - {task.pid};
      if task.pid != task.tgid {
        return;
      }
      if task.tgid in procStats {
        var stats := procStats[task.tgid];
        stats := stats.(times := stats.times.(utime := task.utime, stime := task.stime));
        stats := stats.(state := 4);
        if task.childTimes.Some? {
          stats := stats.(times := stats.times.(cutime := task.childTimes.value.0, cstime := task.childTimes.value.1));
        }
        procStats := procStats[task.tgid := stats];
      }
    }

    method DumpTask(now: u64, task: Option<Task>)
      modifies this
      ensures View() == if task.None? then old(View()) else Dumped(old(View()), now, task.value)
    {
      if task.None? {
        return;
      }
      var t := task.value;
      threadRuntime := UpdateNoExist(threadRuntime, MAX_THREADS, t.pid, t.runtime);
      if t.pid != t.tgid {
        return;
      }
      var stats := ReadTaskStats(t);
      stats := stats.(lastSeenNs := now);
      procStats := UpdateNoExist(procStats, MAX_PROCS, t.tgid, stats);
    }

    /** The callback of `bpf_for_each_map_elem`: delete or refresh one entry. */
    method ReapDeadProc(g: u32, deadline: u64, live: map<u32, Task>) returns (reaped: bool)
      requires g in procStats
      modifies this`procStats
      ensures reaped == Reapable(old(procStats[g]), deadline)
      ensures |procStats| + (if reaped then 1 else 0) == |old(procStats)|
      ensures procStats == if reaped then old(procStats) - {g}
                           else old(procStats)[g := Refreshed(old(procStats[g]), Lookup(live, g))]
    {
      RemovalSize(procStats, g);
      InsertSize(procStats, g, Refreshed(procStats[g], Lookup(live, g)));
      var stats := procStats[g];
      if stats.state >= 4 && stats.lastSeenNs < deadline {
        procStats := procStats - {g};
        return true;
      }
      reaped := false;
      if g in live {
        var t := live[g];
        stats := stats.(times := stats.times.(utime := t.utime, stime := t.stime,
                                              nvcsw := t.nvcsw, nivcsw := t.nivcsw));
        if t.mm.Some? {
          stats := stats.(mem := stats.mem.(rss := t.mm.value.rss, shared := t.mm.value.shared));
        }
      }
      procStats := procStats[g := stats];
    }

    /** `proc_timer_callback`: the pass, in whatever order the kernel visits, then the header.  The
        published count is the size of the map the pass leaves; the subtraction cannot underflow. */
    method TimerCallback(now: u64, interval: u64, order: seq<u32>, live: map<u32, Task>)
      requires VisitsEach(order, procStats.Keys) && |procStats| <= MAX_PROCS
      requires header.words.Length == 3
      modifies this`procStats, header, header.words
      ensures View() == Reaped(old(View()), Deadline(now, interval), live)
      ensures |procStats| <= MAX_PROCS
      ensures header.trace == old(header.trace) + HeaderOps(now, |procStats|)
      ensures header.words[..] == ApplyAll(old(header.words[..]), HeaderOps(now, |procStats|))
    {
      var count, reaped := ReapPass(Wrap64(now - 2 * interval), order, live);
      PublishHeader(now, count - reaped);
    }

    /** `bpf_for_each_map_elem`, deleting while it goes. */
    method ReapPass(deadline: u64, order: seq<u32>, live: map<u32, Task>) returns (count: nat, reaped: nat)
      requires VisitsEach(order, procStats.Keys)
      modifies this`procStats
      ensures View() == Reaped(old(View()), deadline, live)
      ensures count == |old(procStats)| && |procStats| == count - reaped
    {
      ghost var before := procStats;
      count, reaped := 0, 0;
      PassBounds(before, deadline, live);
      for i := 0 to |order|
        invariant count == i && |procStats| + reaped == |before|
        invariant procStats == PartlyReaped(before, Visited(order, i), deadline, live)
      {
        VisitNext(order, before.Keys, i);
        PassAdvances(before, Visited(order, i), order[i], deadline, live);
        var gone := ReapDeadProc(order[i], deadline, live);
        count := count + 1;
        reaped := reaped + if gone then 1 else 0;
      }
      VisitAll(order, before.Keys);
    }

    method PublishHeader(now: u64, nrProcs: u32)
      requires header.words.Length == 3
      modifies header, header.words
      ensures header.trace == old(header.trace) + HeaderOps(now, nrProcs)
      ensures header.words[..] == ApplyAll(old(header.words[..]), HeaderOps(now, nrProcs))
    {
      HeaderApplied(header.words[..], now, nrProcs);
      header.Do(Begin);
      header.Do(Store(1, now));
      header.Do(Store(2, nrProcs));
      header.Do(End);
    }
  }

  /** Skipping the atomic add for a zero delta is the same as adding zero. */
  lemma AddNothing(m: Maps, tgid: u32)
    ensures AddRuntime(m, tgid, 0) == m
  {
    if tgid in m.procs {
      assert m.procs[tgid := m.procs[tgid]] == m.procs;
    }
  }

  lemma RemovalSize<V>(m: map<u32, V>, g: u32)
    requires g in m
    ensures |m - {g}| == |m| - 1
  {
    var m' := m - {g};
    assert m'.Keys == m.Keys - {g};
    assert |m'| == |m'.Keys| && |m| == |m.Keys|;
  }

  lemma {:induction false} OrderSize(order: seq<u32>, keys: set<u32>)
    requires VisitsEach(order, keys)
    ensures |order| == |keys|
    decreases |order|
  {
    if order == [] {
      assert keys == {};
    } else {
      var g := order[|order| - 1];
      var rest := order[..|order| - 1];
      assert order == rest + [g];
      assert g in order;
      OrderSize(rest, keys - {g});
    }
  }

  lemma HeaderApplied(m: seq<u64>, now: u64, nrProcs: u32)
    requires |m| == 3
    ensures ApplyAll(m, HeaderOps(now, nrProcs))
            == Apply(Apply(Apply(Apply(m, Begin), Store(1, now)), Store(2, nrProcs)), End)
  {
    ApplySnoc(m, [], Begin);
    ApplySnoc(m, [Begin], Store(1, now));
    ApplySnoc(m, [Begin, Store(1, now)], Store(2, nrProcs));
    ApplySnoc(m, [Begin, Store(1, now), Store(2, nrProcs)], End);
    assert HeaderOps(now, nrProcs) == [Begin, Store(1, now), Store(2, nrProcs)] + [End];
  }
}
