/** When an entry of the process map may vanish, and when it must. */
module Lifecycle {
  import opened Machine
  import opened ProcTracker
  import opened Ledger
  import opened LedgerProofs
  import opened Incarnations
  import Provenance

  // ---- The grace period of one pass ----

  /** Nothing that was seen within the last two intervals is reaped. */
  ghost predicate GraceKept(now: u64, interval: u64) {
    forall s: ProcStats :: Reapable(s, Deadline(now, interval)) ==> s.lastSeenNs + 2 * interval < now
  }

  /** The promise of two intervals holds exactly when the clock has passed two intervals, or the
      wrapped deadline happens to be 0; early in the clock's life the deadline wraps. */
  lemma GraceExactly(now: u64, interval: u64)
    ensures GraceKept(now, interval) <==> now >= 2 * interval || Deadline(now, interval) == 0
  {
    if now >= 2 * interval {
      WrapSmall(now - 2 * interval);
    } else if Deadline(now, interval) != 0 {
      var s := ProcStats(1, 1, 4, "", Times(0, 0, 0, 0, 0, 0), Mm(0, 0, 0), 0, 0, 0, 0);
      assert Reapable(s, Deadline(now, interval));
    }
  }

  /** A concrete early pass: half a second after boot, with the default interval of one second, an
      entry that exited this very nanosecond is removed. */
  lemma EarlyPassBreaksGrace(s: ProcStats)
    requires s.state >= 4 && s.lastSeenNs == 500_000_000
    ensures Reapable(s, Deadline(500_000_000, 1_000_000_000))
    ensures !(s.lastSeenNs + 2 * 1_000_000_000 < 500_000_000)
  {
    assert Deadline(500_000_000, 1_000_000_000) == TWO64 - 1_500_000_000;
  }

  /** The promise in the exit hook's own words: an entry goes only when it has been dead for more than
      two intervals.  `exited` is the time of the exit. */
  ghost predicate DeadLongEnough(s: ProcStats, exited: u64, interval: u64) {
    forall now: u64 | exited <= now && 2 * interval <= now ::
      Reapable(s, Deadline(now, interval)) ==> exited + 2 * interval < now
  }

  /** The exit hook does not stamp the entry, so that promise holds exactly when the entry was stamped
      no earlier than the exit (or so late that the 64-bit clock ends first). */
  lemma DeadLongEnoughExactly(m: Maps, task: Task, exited: u64, interval: u64)
    requires task.pid == task.tgid && task.tgid in m.procs
    ensures DeadLongEnough(Exited(m, task).procs[task.tgid], exited, interval)
            <==> || exited <= m.procs[task.tgid].lastSeenNs
                 || m.procs[task.tgid].lastSeenNs + 2 * interval + 1 >= TWO64
  {
    var s := Exited(m, task).procs[task.tgid];
    assert s.lastSeenNs == m.procs[task.tgid].lastSeenNs && s.state == 4;
    forall now: u64 | 2 * interval <= now ensures Deadline(now, interval) == now - 2 * interval {
      WrapSmall(now - 2 * interval);
    }
    var first := s.lastSeenNs + 2 * interval + 1;
    if s.lastSeenNs < exited && first < TWO64 {
      var now: u64 := if first < exited then exited else first;
      assert Reapable(s, Deadline(now, interval));
    }
  }

  /** A process that computed for nine seconds on one switch-in and then exited goes with the very
      next pass, under the default interval of one second. */
  lemma LongRunGoesAtOnce(m: Maps, task: Task)
    requires task.pid == task.tgid && task.tgid in m.procs
    requires m.procs[task.tgid].lastSeenNs == 1_000_000_000
    ensures Reapable(Exited(m, task).procs[task.tgid], Deadline(10_000_000_000, 1_000_000_000))
    ensures !DeadLongEnough(Exited(m, task).procs[task.tgid], 10_000_000_000, 1_000_000_000)
  {
    DeadLongEnoughExactly(m, task, 10_000_000_000, 1_000_000_000);
  }

  // ---- The life of one entry ----

  /** What decides an entry's fate: whether it is there, its state and its last-seen stamp. */
  datatype Life = Absent | Present(state: nat, stamp: u64)

  function LifeAt(m: Maps, g: u32): Life {
    if g in m.procs then Present(m.procs[g].state, m.procs[g].lastSeenNs) else Absent
  }

  predicate HasRoom(m: Maps) { |m.procs| < MAX_PROCS }

  function ForkLife(m: Maps, now: u64, child: Task, g: u32): Life {
    if child.pid == child.tgid == g && (g in m.procs || HasRoom(m)) then Present(0, now) else LifeAt(m, g)
  }

  function ExitLife(l: Life, task: Task, g: u32): Life {
    if task.pid == task.tgid == g && l.Present? then Present(4, l.stamp) else l
  }

  function IterateLife(m: Maps, now: u64, task: Task, g: u32): Life {
    if task.pid == task.tgid == g && g !in m.procs && HasRoom(m) then Present(IteratorState(task), now)
    else LifeAt(m, g)
  }

  function TickLife(l: Life, now: u64, interval: u64): Life {
    if l.Present? && l.state >= 4 && l.stamp < Deadline(now, interval) then Absent else l
  }

  function InLife(l: Life, now: u64): Life { if l.Present? then Present(0, now) else l }

  function OutLife(l: Life, state: TaskState): Life {
    if l.Present? then Present(SwitchState(state), l.stamp) else l
  }

  /** The automaton of one entry, over the events of the world. */
  ghost function NextLife(w: World, e: Event, g: u32): Life {
    var l := LifeAt(w.maps, g);
    if !Enabled(w, e) then l
    else match e
      case SwitchOut(cpu, state) =>
        if w.handlers[cpu].tgid == g && Fits(w, w.handlers[cpu]) then OutLife(l, state) else l
      case SwitchIn(tgid, now, _) => if tgid == g then InLife(l, now) else l
      case Fork(now, child) => ForkLife(w.maps, now, child, g)
      case Exit(task) => ExitLife(l, task, g)
      case Iterate(now, task) => IterateLife(w.maps, now, task, g)
      case Tick(now, interval, _) => TickLife(l, now, interval)
      case _ => l
  }

  lemma SwitchLife(m: Maps, tgid: u32, delta: u64, state: TaskState, now: u64, cpu: u32, g: u32)
    ensures LifeAt(AddRuntime(m, tgid, delta), g) == LifeAt(m, g)
    ensures LifeAt(MarkOut(m, tgid, state), g) == if tgid == g then OutLife(LifeAt(m, g), state) else LifeAt(m, g)
    ensures LifeAt(MarkIn(m, tgid, now, cpu), g) == if tgid == g then InLife(LifeAt(m, g), now) else LifeAt(m, g)
  {
  }

  lemma ForkedLife(m: Maps, now: u64, child: Task, g: u32)
    ensures LifeAt(Forked(m, now, child), g) == ForkLife(m, now, child, g)
  {
  }

  lemma ExecExitLife(m: Maps, task: Task, g: u32)
    ensures LifeAt(Execed(m, task), g) == LifeAt(m, g)
    ensures LifeAt(Exited(m, task), g) == ExitLife(LifeAt(m, g), task, g)
  {
  }

  lemma DumpedLife(m: Maps, now: u64, task: Task, g: u32)
    ensures LifeAt(Dumped(m, now, task), g) == IterateLife(m, now, task, g)
  {
  }

  lemma ReapedLife(m: Maps, now: u64, interval: u64, live: map<u32, Task>, g: u32)
    ensures LifeAt(Reaped(m, Deadline(now, interval), live), g) == TickLife(LifeAt(m, g), now, interval)
  {
  }

  /** The hooks and the reaper, on either map representation, move an entry as the automaton says. */
  lemma {:induction false} LifeStep(w: World, e: Event, g: u32)
    ensures LifeAt(Step(w, e).maps, g) == NextLife(w, e, g)
  {
    if !Enabled(w, e) {
    } else if e.Fork? {
      ForkedLife(w.maps, e.now, e.child, g);
    } else if e.Iterate? {
      DumpedLife(w.maps, e.now, e.task, g);
    } else if e.Tick? {
      ReapedLife(w.maps, e.now, e.interval, e.live, g);
    } else if e.Exec? || e.Exit? {
      ExecExitLife(w.maps, e.task, g);
    } else {
      LifeSwitch(w, e, g);
    }
  }

  lemma LifeSwitch(w: World, e: Event, g: u32)
    requires Enabled(w, e) && !e.Fork? && !e.Iterate? && !e.Tick? && !e.Exec? && !e.Exit?
    ensures LifeAt(Step(w, e).maps, g) == NextLife(w, e, g)
  {
    if e.Credit? {
      var h := w.handlers[e.cpu];
      SwitchLife(w.maps, h.tgid, Delta(h.baseline, h.runtime), RUNNING, 0, 0, g);
    } else if e.SwitchOut? {
      SwitchLife(w.maps, w.handlers[e.cpu].tgid, 0, e.state, 0, 0, g);
    } else if e.SwitchIn? {
      SwitchLife(w.maps, e.tgid, 0, RUNNING, e.now, e.cpu, g);
    } else {
      assert Step(w, e).maps.procs == w.maps.procs;
    }
  }

  // ---- Grace ----

  lemma ClockStep(w: World, e: Event)
    ensures w.clock <= Step(w, e).clock
  {
    if !Enabled(w, e) {
    } else if e.Fork? {
      assert ForkStep(w, e.now, e.child).clock == e.now;
    } else if e.Iterate? {
      assert IterateStep(w, e.now, e.task).clock == e.now;
    }
  }

  lemma {:induction false} ClockRises(w: World, events: seq<Event>)
    ensures w.clock <= After(w, events).clock
    decreases |events|
  {
    if events != [] {
      ClockRises(w, events[..|events| - 1]);
      ClockStep(After(w, events[..|events| - 1]), events[|events| - 1]);
    }
  }

  lemma StampKnown(w: World, g: u32)
    requires Structure(w)
    ensures LifeAt(w.maps, g).Present? ==> LifeAt(w.maps, g).stamp <= w.clock
  {
    if g in w.maps.procs {
      assert EntryOk(w.maps.procs[g], g, w.clock);
    }
  }

  /** No event sets a stamp before the clock. */
  lemma StampStep(w: World, e: Event, g: u32, stamp: u64)
    requires stamp <= w.clock
    requires LifeAt(w.maps, g).Present? ==> stamp <= LifeAt(w.maps, g).stamp
    ensures NextLife(w, e, g).Present? ==> stamp <= NextLife(w, e, g).stamp
  {
  }

  /** Whatever happens to entry g, if it is there later its stamp has not gone back. */
  lemma {:induction false} StampRises(w: World, events: seq<Event>, g: u32)
    requires Accounts(w) && LifeAt(w.maps, g).Present?
    ensures var later := LifeAt(After(w, events).maps, g);
            later.Present? ==> LifeAt(w.maps, g).stamp <= later.stamp
    decreases |events|
  {
    if events != [] {
      var before, e := events[..|events| - 1], events[|events| - 1];
      StampRises(w, before, g);
      StampKnown(w, g);
      ClockRises(w, before);
      StampStep(After(w, before), e, g, LifeAt(w.maps, g).stamp);
      LifeStep(After(w, before), e, g);
    }
  }

  /** One tick, once the clock has passed two intervals: exactly the dead entries not seen for two
      intervals go. */
  lemma TickDecides(w: World, now: u64, interval: u64, live: map<u32, Task>, g: u32)
    requires w.clock <= now && now >= 2 * interval
    ensures var l := LifeAt(w.maps, g);
            LifeAt(Step(w, Tick(now, interval, live)).maps, g)
            == if l.Present? && l.state >= 4 && l.stamp + 2 * interval < now then Absent else l
  {
    LifeStep(w, Tick(now, interval, live), g);
    WrapSmall(now - 2 * interval);
  }

  /** Grace period, over runs: an entry is not removed within two intervals of any earlier switch-in,
      fork or iterator insertion (each of which stamps it with the time), once the clock has passed
      two intervals; and only entries in a dead state are removed. */
  lemma {:induction false} GracePeriod(w: World, events: seq<Event>, now: u64, interval: u64,
                                       live: map<u32, Task>, g: u32)
    requires Accounts(w) && LifeAt(w.maps, g).Present?
    requires LifeAt(After(w, events).maps, g).Present? && After(w, events).clock <= now && now >= 2 * interval
    requires LifeAt(Step(After(w, events), Tick(now, interval, live)).maps, g).Absent?
    ensures LifeAt(w.maps, g).stamp + 2 * interval < now
    ensures LifeAt(After(w, events).maps, g).state >= 4
  {
    StampRises(w, events, g);
    TickDecides(After(w, events), now, interval, live, g);
  }

  /** Only the timer removes entries. */
  lemma {:induction false} OnlyTicksRemove(w: World, e: Event, g: u32)
    requires LifeAt(w.maps, g).Present? && LifeAt(Step(w, e).maps, g).Absent?
    ensures e.Tick? && LifeAt(w.maps, g).state >= 4
  {
    LifeStep(w, e, g);
  }

  // ---- Live entries stay ----

  /** The leader of g does not exit, and g's threads are switched out in resumable states. */
  ghost predicate Gentle(w: World, e: Event, g: u32) {
    match e
    case Exit(task) => !(task.pid == task.tgid == g)
    case SwitchOut(cpu, state) => cpu in w.handlers && w.handlers[cpu].tgid == g ==>
        Provenance.NoBit(state) || Provenance.Sleeps(state)
    case _ => true
  }

  ghost predicate AllGentle(w: World, events: seq<Event>, g: u32)
    decreases |events|
  {
    events == [] ||
    (AllGentle(w, events[..|events| - 1], g)
     && Gentle(After(w, events[..|events| - 1]), events[|events| - 1], g))
  }

  lemma GentleStep(w: World, e: Event, g: u32)
    requires Gentle(w, e, g) && LifeAt(w.maps, g).Present? && LifeAt(w.maps, g).state < 4
    ensures NextLife(w, e, g).Present? && NextLife(w, e, g).state < 4
  {
  }

  /** A process whose leader has not exited and whose threads are only switched out running, sleeping,
      in disk sleep or stopped stays in the map through any number of ticks. */
  lemma {:induction false} LiveEntriesSurvive(w: World, events: seq<Event>, g: u32)
    requires LifeAt(w.maps, g).Present? && LifeAt(w.maps, g).state < 4 && AllGentle(w, events, g)
    ensures LifeAt(After(w, events).maps, g).Present? && LifeAt(After(w, events).maps, g).state < 4
    decreases |events|
  {
    if events != [] {
      var before, e := events[..|events| - 1], events[|events| - 1];
      LiveEntriesSurvive(w, before, g);
      GentleStep(After(w, before), e, g);
      LifeStep(After(w, before), e, g);
    }
  }

  // ---- Dead entries go ----

  /** Nothing switches g's threads or forks g, and the task iterator meets g's leader only while the
      entry is there. */
  ghost predicate Quiet(w: World, e: Event, g: u32) {
    match e
    case SwitchIn(tgid, _, _) => tgid != g
    case SwitchOut(cpu, _) => cpu in w.handlers ==> w.handlers[cpu].tgid != g
    case Fork(_, child) => !(child.pid == child.tgid == g)
    case Iterate(_, task) => task.pid == task.tgid == g ==> g in w.maps.procs
    case _ => true
  }

  ghost predicate AllQuiet(w: World, events: seq<Event>, g: u32)
    decreases |events|
  {
    events == [] ||
    (AllQuiet(w, events[..|events| - 1], g)
     && Quiet(After(w, events[..|events| - 1]), events[|events| - 1], g))
  }

  /** Dead and last seen at `stamp`, or already gone. */
  predicate DeadSince(l: Life, stamp: u64) { l.Present? ==> l.state >= 4 && l.stamp == stamp }

  lemma QuietStep(w: World, e: Event, g: u32, stamp: u64)
    requires Quiet(w, e, g) && DeadSince(LifeAt(w.maps, g), stamp)
    ensures DeadSince(NextLife(w, e, g), stamp)
    ensures LifeAt(w.maps, g).Absent? ==> NextLife(w, e, g).Absent?
  {
  }

  /** In a quiet stretch a dead state stays dead until the reaper comes, and an absent entry absent. */
  lemma {:induction false} DeadStaysDead(w: World, events: seq<Event>, g: u32, stamp: u64)
    requires DeadSince(LifeAt(w.maps, g), stamp) && AllQuiet(w, events, g)
    ensures DeadSince(LifeAt(After(w, events).maps, g), stamp)
    ensures LifeAt(w.maps, g).Absent? ==> LifeAt(After(w, events).maps, g).Absent?
    decreases |events|
  {
    if events != [] {
      var before, e := events[..|events| - 1], events[|events| - 1];
      DeadStaysDead(w, before, g, stamp);
      QuietStep(After(w, before), e, g, stamp);
      LifeStep(After(w, before), e, g);
    }
  }

  /** An entry left dead with no further switch or fork is gone after the first tick later than its
      stamp plus two intervals, and stays gone. */
  lemma {:induction false} EventuallyReaped(w: World, before: seq<Event>, now: u64, interval: u64, live: map<u32, Task>,
                         rest: seq<Event>, g: u32, stamp: u64)
    requires DeadSince(LifeAt(w.maps, g), stamp) && AllQuiet(w, before, g)
    requires After(w, before).clock <= now && stamp + 2 * interval < now
    requires AllQuiet(Step(After(w, before), Tick(now, interval, live)), rest, g)
    ensures LifeAt(After(Step(After(w, before), Tick(now, interval, live)), rest).maps, g).Absent?
  {
    DeadStaysDead(w, before, g, stamp);
    TickDecides(After(w, before), now, interval, live, g);
    DeadStaysDead(Step(After(w, before), Tick(now, interval, live)), rest, g, stamp);
  }

  // ---- From the bits of a task to its entry's fate ----

  lemma StateSaid(w: World, e: Event, g: u32)
    requires g in Step(w, e).maps.procs && Provenance.Writes(Provenance.State, w, e, g)
    ensures Provenance.Says(Provenance.State, Step(w, e).maps.procs[g], e, g)
  {
    Provenance.StepField(Provenance.State, w, e, g);
  }

  /** The last switch-out of a dead task: some bit of its state is set, but none of 1, 2 and 4. */
  ghost predicate LeavesDead(w: World, cpu: u32, state: TaskState, g: u32) {
    && InPhase(w, cpu, Credited) && w.handlers[cpu].tgid == g && Fits(w, w.handlers[cpu]) && g in w.maps.procs
    && !Provenance.NoBit(state)
    && !state.interruptible && !state.uninterruptible && !state.stopped
  }

  lemma DeadAfterSwitchOut(w: World, cpu: u32, state: TaskState, g: u32)
    requires LeavesDead(w, cpu, state, g)
    ensures var l := LifeAt(Step(w, SwitchOut(cpu, state)).maps, g);
            l.Present? && l.state >= 4 && l.stamp == w.maps.procs[g].lastSeenNs
  {
    LifeStep(w, SwitchOut(cpu, state), g);
    StateSaid(w, SwitchOut(cpu, state), g);
  }

  /** After its last switch-out in such a state, with no further switch or fork, the entry is gone after
      the first tick later than its stamp plus two intervals, and stays gone. */
  lemma DeadTaskReaped(w: World, cpu: u32, state: TaskState, before: seq<Event>, now: u64, interval: u64,
                       live: map<u32, Task>, rest: seq<Event>, g: u32)
    requires LeavesDead(w, cpu, state, g)
    requires var w1 := Step(w, SwitchOut(cpu, state));
             && AllQuiet(w1, before, g) && After(w1, before).clock <= now
             && w.maps.procs[g].lastSeenNs + 2 * interval < now
             && AllQuiet(Step(After(w1, before), Tick(now, interval, live)), rest, g)
    ensures var w2 := After(Step(w, SwitchOut(cpu, state)), before);
            LifeAt(After(Step(w2, Tick(now, interval, live)), rest).maps, g).Absent?
  {
    DeadAfterSwitchOut(w, cpu, state, g);
    EventuallyReaped(Step(w, SwitchOut(cpu, state)), before, now, interval, live, rest, g, w.maps.procs[g].lastSeenNs);
  }

  /** A scanned process that is neither a zombie nor dead survives, from its scan on, as long as its
      leader does not exit and its threads are switched out only runnable, sleeping or stopped. */
  lemma ScannedSurvives(w: World, now: u64, task: Task, events: seq<Event>)
    requires CanIterate(w, now, task) && task.pid == task.tgid
    requires task.tgid !in w.maps.procs && |w.maps.procs| < 8192
    requires !task.state.zombie && !task.state.dead
    requires AllGentle(Step(w, Iterate(now, task)), events, task.tgid)
    ensures var l := LifeAt(After(Step(w, Iterate(now, task)), events).maps, task.tgid); l.Present? && l.state < 4
  {
    LifeStep(w, Iterate(now, task), task.tgid);
    StateSaid(w, Iterate(now, task), task.tgid);
    LiveEntriesSurvive(Step(w, Iterate(now, task)), events, task.tgid);
  }

  /** So does a forked one, from its fork on. */
  lemma ForkedSurvives(w: World, now: u64, child: Task, events: seq<Event>)
    requires CanFork(w, now, child) && child.pid == child.tgid
    requires child.tgid in w.maps.procs || |w.maps.procs| < 8192
    requires AllGentle(Step(w, Fork(now, child)), events, child.tgid)
    ensures var l := LifeAt(After(Step(w, Fork(now, child)), events).maps, child.tgid); l.Present? && l.state < 4
  {
    LifeStep(w, Fork(now, child), child.tgid);
    StateSaid(w, Fork(now, child), child.tgid);
    LiveEntriesSurvive(Step(w, Fork(now, child)), events, child.tgid);
  }

  /** A pass refreshes every survivor whose task exists, and changes nothing else about it. */
  lemma TickRefreshes(w: World, now: u64, interval: u64, live: map<u32, Task>, g: u32)
    requires w.clock <= now && g in live && g in Step(w, Tick(now, interval, live)).maps.procs
    ensures g in w.maps.procs
    ensures var s, s', t := w.maps.procs[g], Step(w, Tick(now, interval, live)).maps.procs[g], live[g];
            && s'.times == Times(t.utime, t.stime, s.times.cutime, s.times.cstime, t.nvcsw, t.nivcsw)
            && s'.mem == (if t.mm.None? then s.mem else Mm(s.mem.vsize, t.mm.value.rss, t.mm.value.shared))
            && s' == s.(times := s'.times, mem := s'.mem)
  {
  }
}
