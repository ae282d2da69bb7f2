/**
 Where the contents of a process entry come from, in every run of the hooks: each part of it is what
 the latest event that has to write it said.  What has to write what, and what is then to be read,
 is told here from the events and the literal bits of the tasks, not through the hooks' own functions.
 */
module Provenance {
  import opened Machine
  import opened ProcTracker
  import opened Ledger

  /** The parts of an entry that are always written together. */
  datatype Field = State | Seen | CpuTimes | Switches | ChildTimes | Resident | Virtual | Command | Group

  // ---- Who writes what ----

  /** The event has to write the field of entry g. */
  ghost predicate Writes(f: Field, w: World, e: Event, g: u32) {
    && Enabled(w, e)
    && match e
       case Fork(_, child) => child.pid == g && child.tgid == g
       case Iterate(_, task) => task.pid == g && task.tgid == g && g !in w.maps.procs
       case SwitchOut(cpu, _) => w.handlers[cpu].tgid == g && Fits(w, w.handlers[cpu]) && f.State?
       case SwitchIn(tgid, _, _) => tgid == g && (f.State? || f.Seen?)
       case Exec(task) => task.tgid == g && (f.Command? || (f.Virtual? && task.mm.Some?))
       case Exit(task) =>
         task.pid == g && task.tgid == g
         && (f.State? || f.CpuTimes? || (f.ChildTimes? && task.childTimes.Some?))
       case Tick(_, _, live) => g in live && (f.CpuTimes? || f.Switches? || (f.Resident? && live[g].mm.Some?))
       case _ => false
  }

  predicate NoBit(s: TaskState) {
    !(s.interruptible || s.uninterruptible || s.stopped || s.zombie || s.dead || s.noload || s.other)
  }

  predicate Sleeps(s: TaskState) { s.interruptible || s.uninterruptible || s.stopped }

  /** The state of a task switched out, by its bits: 1, 2, 4 and 0x10 in this order. */
  predicate OutState(n: nat, s: TaskState) {
    && (NoBit(s) ==> n == 0)
    && (s.interruptible ==> n == 1)
    && (s.uninterruptible && !s.interruptible ==> n == 2)
    && (s.stopped && !s.uninterruptible && !s.interruptible ==> n == 3)
    && (s.zombie && !Sleeps(s) ==> n == 4)
    && (!s.zombie && !Sleeps(s) && !NoBit(s) ==> n == 5)
  }

  /** The state of a scanned task, by its bits: 0x10, 0x20, 4, and 2 with or without 0x400. */
  predicate ScannedState(n: nat, t: Task) {
    var s := t.state;
    && (NoBit(s) ==> n == if t.onRq then 0 else 1)
    && (s.zombie ==> n == 4)
    && (s.dead && !s.zombie ==> n == 5)
    && (s.stopped && !s.zombie && !s.dead ==> n == 3)
    && (s.uninterruptible && !s.noload && !s.stopped && !s.zombie && !s.dead ==> n == 2)
    && (s.uninterruptible && s.noload && !s.stopped && !s.zombie && !s.dead ==> n == 1)
    && (!NoBit(s) && !s.uninterruptible && !s.stopped && !s.zombie && !s.dead ==> n == 1)
  }

  function MmOf(t: Task): Mm { if t.mm.Some? then t.mm.value else Mm(0, 0, 0) }

  /** The field is what the task says. */
  predicate Reads(f: Field, s: ProcStats, t: Task) {
    match f
    case CpuTimes => s.times.utime == t.utime && s.times.stime == t.stime
    case Switches => s.times.nvcsw == t.nvcsw && s.times.nivcsw == t.nivcsw
    case ChildTimes => t.childTimes == Some((s.times.cutime, s.times.cstime))
    case Resident => s.mem.rss == MmOf(t).rss && s.mem.shared == MmOf(t).shared
    case Virtual => s.mem.vsize == MmOf(t).vsize
    case Command => s.comm == t.comm
    case Group => s.cgroupId == t.cgroupId
    case _ => false
  }

  /** A new entry is filled from its task, with children's times and CPU still zero. */
  predicate Filled(f: Field, s: ProcStats, t: Task, now: u64) {
    match f
    case Seen => s.lastSeenNs == now && s.lastCpu == 0
    case ChildTimes => s.times.cutime == s.times.cstime == 0
    case _ => Reads(f, s, t)
  }

  /** The field holds what the event, having to write it, said. */
  predicate Says(f: Field, s: ProcStats, e: Event, g: u32) {
    match e
    case Fork(now, child) => if f.State? then s.state == 0 else Filled(f, s, child, now)
    case Iterate(now, task) => if f.State? then ScannedState(s.state, task) else Filled(f, s, task, now)
    case SwitchOut(_, state) => OutState(s.state, state)
    case SwitchIn(_, now, cpu) => if f.State? then s.state == 0 else s.lastSeenNs == now && s.lastCpu == cpu
    case Exec(task) => Reads(f, s, task)
    case Exit(task) => if f.State? then s.state == 4 else Reads(f, s, task)
    case Tick(_, _, live) => g in live && Reads(f, s, live[g])
    case _ => false
  }

  predicate Same(f: Field, s: ProcStats, s': ProcStats) {
    match f
    case State => s'.state == s.state
    case Seen => s'.lastSeenNs == s.lastSeenNs && s'.lastCpu == s.lastCpu
    case CpuTimes => s'.times.utime == s.times.utime && s'.times.stime == s.times.stime
    case Switches => s'.times.nvcsw == s.times.nvcsw && s'.times.nivcsw == s.times.nivcsw
    case ChildTimes => s'.times.cutime == s.times.cutime && s'.times.cstime == s.times.cstime
    case Resident => s'.mem.rss == s.mem.rss && s'.mem.shared == s.mem.shared
    case Virtual => s'.mem.vsize == s.mem.vsize
    case Command => s'.comm == s.comm
    case Group => s'.cgroupId == s.cgroupId
  }

  lemma SameSays(f: Field, s: ProcStats, s': ProcStats, e: Event, g: u32)
    requires Same(f, s, s') && Says(f, s, e, g)
    requires e.SwitchOut? ==> f.State?
    requires e.SwitchIn? ==> f.State? || f.Seen?
    ensures Says(f, s', e, g)
  {
  }

  // ---- One event ----

  /** Across one event a field of an entry is written as the event says, or stays; which of the two is
      not left open. */
  ghost predicate FieldStep(f: Field, m: Maps, m': Maps, g: u32, e: Event, writes: bool) {
    g in m'.procs ==>
      if writes then Says(f, m'.procs[g], e, g) else g in m.procs && Same(f, m.procs[g], m'.procs[g])
  }

  lemma ForkField(f: Field, m: Maps, now: u64, child: Task, g: u32)
    ensures FieldStep(f, m, Forked(m, now, child), g, Fork(now, child), child.pid == g && child.tgid == g)
  {
  }

  lemma IterateField(f: Field, m: Maps, now: u64, task: Task, g: u32)
    ensures FieldStep(f, m, Dumped(m, now, task), g, Iterate(now, task),
                      task.pid == g && task.tgid == g && g !in m.procs)
  {
  }

  lemma ExecField(f: Field, m: Maps, task: Task, g: u32)
    ensures FieldStep(f, m, Execed(m, task), g, Exec(task),
                      task.tgid == g && (f.Command? || (f.Virtual? && task.mm.Some?)))
  {
  }

  lemma ExitField(f: Field, m: Maps, task: Task, g: u32)
    ensures FieldStep(f, m, Exited(m, task), g, Exit(task),
                      task.pid == g && task.tgid == g
                      && (f.State? || f.CpuTimes? || (f.ChildTimes? && task.childTimes.Some?)))
  {
  }

  lemma TickField(f: Field, m: Maps, now: u64, interval: u64, live: map<u32, Task>, g: u32)
    ensures FieldStep(f, m, Reaped(m, Deadline(now, interval), live), g, Tick(now, interval, live),
                      g in live && (f.CpuTimes? || f.Switches? || (f.Resident? && live[g].mm.Some?)))
  {
  }

  lemma SwitchField(f: Field, m: Maps, tgid: u32, delta: u64, cpu: u32, state: TaskState, now: u64, g: u32)
    ensures FieldStep(f, m, AddRuntime(m, tgid, delta), g, Credit(cpu), false)
    ensures FieldStep(f, m, MarkOut(m, tgid, state), g, SwitchOut(cpu, state), tgid == g && f.State?)
    ensures FieldStep(f, m, MarkIn(m, tgid, now, cpu), g, SwitchIn(tgid, now, cpu), tgid == g && (f.State? || f.Seen?))
  {
  }

  lemma StepField(f: Field, w: World, e: Event, g: u32)
    ensures FieldStep(f, w.maps, Step(w, e).maps, g, e, Writes(f, w, e, g))
  {
    if !Enabled(w, e) {
    } else if e.Fork? {
      ForkField(f, w.maps, e.now, e.child, g);
      assert ForkStep(w, e.now, e.child).maps == Forked(w.maps, e.now, e.child);
    } else if e.Iterate? {
      IterateField(f, w.maps, e.now, e.task, g);
      assert IterateStep(w, e.now, e.task).maps == Dumped(w.maps, e.now, e.task);
    } else if e.Tick? {
      TickField(f, w.maps, e.now, e.interval, e.live, g);
    } else if e.Exec? {
      ExecField(f, w.maps, e.task, g);
    } else if e.Exit? {
      ExitField(f, w.maps, e.task, g);
    } else {
      StepFieldSwitch(f, w, e, g);
    }
  }

  lemma StepFieldSwitch(f: Field, w: World, e: Event, g: u32)
    requires Enabled(w, e) && !e.Fork? && !e.Iterate? && !e.Tick? && !e.Exec? && !e.Exit?
    ensures FieldStep(f, w.maps, Step(w, e).maps, g, e, Writes(f, w, e, g))
  {
    if e.Credit? {
      var h := w.handlers[e.cpu];
      SwitchField(f, w.maps, h.tgid, Delta(h.baseline, h.runtime), e.cpu, RUNNING, 0, g);
    } else if e.SwitchOut? {
      SwitchField(f, w.maps, w.handlers[e.cpu].tgid, 0, e.cpu, e.state, 0, g);
    } else if e.SwitchIn? {
      SwitchField(f, w.maps, e.tgid, 0, e.cpu, RUNNING, e.now, g);
    } else {
      assert Step(w, e).maps.procs == w.maps.procs;
    }
  }

  // ---- Whole runs ----

  /** Event i is the latest of the run that has to write the field. */
  ghost predicate Latest(f: Field, w: World, events: seq<Event>, g: u32, i: nat) {
    && i < |events| && Writes(f, After(w, events[..i]), events[i], g)
    && forall j | i < j < |events| :: !Writes(f, After(w, events[..j]), events[j], g)
  }

  /** In every run, each part of each entry is what the latest event that has to write it said. */
  lemma {:induction false} EveryFieldLatest(boot: World, events: seq<Event>, f: Field, g: u32) returns (i: nat)
    requires Boot(boot) && g in After(boot, events).maps.procs
    ensures Latest(f, boot, events, g, i) && Says(f, After(boot, events).maps.procs[g], events[i], g)
    decreases |events|
  {
    var n := |events| - 1;
    var before, e := events[..n], events[n];
    StepField(f, After(boot, before), e, g);
    if Writes(f, After(boot, before), e, g) {
      i := n;
    } else {
      i := EveryFieldLatest(boot, before, f, g);
      SameSays(f, After(boot, before).maps.procs[g], After(boot, events).maps.procs[g], events[i], g);
      LatestStill(f, boot, events, g, i);
    }
  }

  lemma LatestStill(f: Field, w: World, events: seq<Event>, g: u32, i: nat)
    requires events != [] && Latest(f, w, events[..|events| - 1], g, i)
    requires !Writes(f, After(w, events[..|events| - 1]), events[|events| - 1], g)
    ensures Latest(f, w, events, g, i)
  {
    var n := |events| - 1;
    assert events[..n][..i] == events[..i];
    forall j | i < j < |events| ensures !Writes(f, After(w, events[..j]), events[j], g) {
      assert j < n ==> events[..n][..j] == events[..j] && events[..n][j] == events[j];
    }
  }

  /** Whichever event is the latest to have to write a field, its word is what the entry shows. */
  lemma {:induction false} LatestWriteShows(boot: World, events: seq<Event>, f: Field, g: u32, i: nat)
    requires Boot(boot) && g in After(boot, events).maps.procs && Latest(f, boot, events, g, i)
    ensures Says(f, After(boot, events).maps.procs[g], events[i], g)
  {
    var k := EveryFieldLatest(boot, events, f, g);
    assert k == i;
  }

  // ---- One reading, unmixed ----

  /** The event reads task t.  The timer finds tasks by pid. */
  predicate Shows(e: Event, t: Task) {
    match e
    case Fork(_, child) => t == child
    case Exec(task) => t == task
    case Exit(task) => t == task
    case Iterate(_, task) => t == task
    case Tick(_, _, live) => t.pid in live && live[t.pid] == t
    case _ => false
  }

  /** Times and memory come from the leader itself, the name and the virtual size from any thread of
      the group (an exec may run in one); children's times may still be zero. */
  predicate Gives(f: Field, s: ProcStats, g: u32, t: Task) {
    match f
    case Virtual => t.tgid == g && Reads(f, s, t)
    case Command => t.tgid == g && Reads(f, s, t)
    case ChildTimes => t.pid == g && (Reads(f, s, t) || s.times.cutime == s.times.cstime == 0)
    case _ => t.pid == g && Reads(f, s, t)
  }

  /** `bpf_task_from_pid` returns a task of that pid. */
  predicate Honest(e: Event) { e.Tick? ==> forall p | p in e.live :: e.live[p].pid == p }

  ghost predicate AllHonest(events: seq<Event>) { forall i | 0 <= i < |events| :: Honest(events[i]) }

  ghost predicate Read(events: seq<Event>, t: Task) { exists i :: 0 <= i < |events| && Shows(events[i], t) }

  /** Some task read during the run says what the field holds. */
  ghost predicate Sourced(f: Field, s: ProcStats, g: u32, events: seq<Event>) {
    exists t :: Read(events, t) && Gives(f, s, g, t)
  }

  function TaskOf(e: Event, g: u32): Option<Task> {
    match e
    case Fork(_, child) => Some(child)
    case Exec(task) => Some(task)
    case Exit(task) => Some(task)
    case Iterate(_, task) => Some(task)
    case Tick(_, _, live) => Lookup(live, g)
    case _ => None
  }

  lemma WordOfTask(f: Field, w: World, e: Event, g: u32, s: ProcStats)
    requires Writes(f, w, e, g) && Says(f, s, e, g) && Honest(e) && !f.State? && !f.Seen?
    ensures TaskOf(e, g).Some? && Shows(e, TaskOf(e, g).value) && Gives(f, s, g, TaskOf(e, g).value)
  {
  }

  /** In every run, each part of each entry that tasks tell is one reading, unmixed, of a task of that
      process that one of the hooks, the iterator or the timer met during the run. */
  lemma {:induction false} EveryFieldSourced(boot: World, events: seq<Event>, f: Field, g: u32)
    requires Boot(boot) && AllHonest(events) && g in After(boot, events).maps.procs && !f.State? && !f.Seen?
    ensures Sourced(f, After(boot, events).maps.procs[g], g, events)
  {
    var i := EveryFieldLatest(boot, events, f, g);
    WordOfTask(f, After(boot, events[..i]), events[i], g, After(boot, events).maps.procs[g]);
    assert Read(events, TaskOf(events[i], g).value);
  }

  /** Since file-backed pages are part of the resident ones, no entry ever shows more shared than
      resident memory, though the two are refreshed at different events than the rest. */
  lemma {:induction false} SharedWithinResident(boot: World, events: seq<Event>, g: u32)
    requires Boot(boot) && AllHonest(events) && g in After(boot, events).maps.procs
    requires forall t | Read(events, t) :: MmOf(t).shared <= MmOf(t).rss
    ensures After(boot, events).maps.procs[g].mem.shared <= After(boot, events).maps.procs[g].mem.rss
  {
    EveryFieldSourced(boot, events, Resident, g);
    var t :| Read(events, t) && Gives(Resident, After(boot, events).maps.procs[g], g, t);
  }

  // ---- The stamp ----

  /** The event puts its own time, and CPU if it has one, on entry g. */
  predicate Stamps(e: Event, s: ProcStats, g: u32) {
    match e
    case SwitchIn(tgid, now, cpu) => tgid == g && s.lastSeenNs == now && s.lastCpu == cpu
    case Fork(now, child) => child.pid == child.tgid == g && s.lastSeenNs == now && s.lastCpu == 0
    case Iterate(now, task) => task.pid == task.tgid == g && s.lastSeenNs == now && s.lastCpu == 0
    case _ => false
  }

  /** The stamp and CPU of an entry are those of one switch-in, fork or iterator insertion of that very
      process; exits and ticks never touch them. */
  lemma {:induction false} EveryStampSourced(boot: World, events: seq<Event>, g: u32)
    requires Boot(boot) && g in After(boot, events).maps.procs
    ensures exists i :: 0 <= i < |events| && Stamps(events[i], After(boot, events).maps.procs[g], g)
  {
    var i := EveryFieldLatest(boot, events, Seen, g);
    assert Stamps(events[i], After(boot, events).maps.procs[g], g);
  }
}
