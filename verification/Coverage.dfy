/**
 Which processes lose nothing but their exit slices: those whose live threads all have a baseline and
 whose exited threads all await their next switch-out.  A process forked after load is one from its
 fork on, one found by the task iterator is one as soon as its threads have been visited.
 */
module Coverage {
  import opened Machine
  import opened ProcTracker
  import opened Sums
  import opened Ledger
  import opened LedgerProofs
  import opened Incarnations
  import opened RunHistory

  predicate ThreadCovered(t: Thread, recorded: bool) { recorded || (t.cut.Some? && !t.away) }

  ghost predicate ThreadsCovered(threads: map<u32, Thread>, base: map<u32, u64>, g: u32) {
    forall t | t in threads && threads[t].tgid == g :: ThreadCovered(threads[t], t in base)
  }

  /** A hook that has looked up the entry and the baseline found this incarnation, and a baseline if
      there was any time to account for. */
  ghost predicate HandlerCovered(h: Handler, threads: map<u32, Thread>, birth: nat) {
    h.phase.Looked? ==>
      && h.entry == Some(birth)
      && (h.baseline.None? ==> h.tid in threads && (threads[h.tid].cut.Some? || Gap(threads[h.tid]) == 0))
  }

  ghost predicate HandlersCovered(hs: map<u32, Handler>, threads: map<u32, Thread>, birth: nat, g: u32) {
    forall c | c in hs && hs[c].tgid == g :: HandlerCovered(hs[c], threads, birth)
  }

  ghost predicate Covered(w: World, g: u32) {
    && g in w.books && g in w.born
    && ThreadsCovered(w.threads, w.maps.threads, g)
    && HandlersCovered(w.handlers, w.threads, w.born[g], g)
  }

  /** A thread forked into g, or one of g's switched out, finds room for its baseline. */
  ghost predicate FindsRoom(w: World, e: Event, g: u32) {
    Enabled(w, e) ==>
      match e
      case Fork(_, child) => child.tgid == g ==> Roomy(w.maps, child.pid)
      case MoveBaseline(cpu) => w.handlers[cpu].tgid == g ==> Roomy(w.maps, w.handlers[cpu].tid)
      case _ => true
  }

  ghost predicate AlwaysRoom(w: World, events: seq<Event>, g: u32)
    decreases |events|
  {
    events == [] ||
    (AlwaysRoom(w, events[..|events| - 1], g)
     && FindsRoom(After(w, events[..|events| - 1]), events[|events| - 1], g))
  }

  // ---- Cover is kept ----

  /** One thread of the group changes, and with it at most its own baseline. */
  lemma ThreadChanges(threads: map<u32, Thread>, base: map<u32, u64>, tid: u32, t: Thread, base': map<u32, u64>, g: u32)
    requires ThreadsCovered(threads, base, g)
    requires t.tgid == g ==> ThreadCovered(t, tid in base')
    requires forall u | u != tid && u in base :: u in base'
    ensures ThreadsCovered(threads[tid := t], base', g)
  {
    forall u | u in threads[tid := t] && threads[tid := t][u].tgid == g
      ensures ThreadCovered(threads[tid := t][u], u in base')
    {
      assert u != tid ==> ThreadCovered(threads[u], u in base);
    }
  }

  /** A thread that no hook is switching out, or that is accounted up to its present, changes. */
  lemma HandlersKeep(hs: map<u32, Handler>, threads: map<u32, Thread>, birth: nat, g: u32, tid: u32, t: Thread)
    requires HandlersCovered(hs, threads, birth, g)
    requires Gap(t) == 0 || t.cut.Some? || (forall c | c in hs :: hs[c].tid != tid)
    ensures HandlersCovered(hs, threads[tid := t], birth, g)
  {
    forall c | c in hs && hs[c].tgid == g ensures HandlerCovered(hs[c], threads[tid := t], birth) {
      assert HandlerCovered(hs[c], threads, birth);
    }
  }

  lemma RunCovered(w: World, tid: u32, ns: nat, g: u32)
    requires Structure(w) && Covered(w, g) && CanRun(w, tid, ns)
    ensures Covered(RunStep(w, tid, ns), g)
  {
    var t := RunStep(w, tid, ns).threads[tid];
    assert w.threads[tid].tgid == g ==> ThreadCovered(w.threads[tid], tid in w.maps.threads);
    ThreadChanges(w.threads, w.maps.threads, tid, t, w.maps.threads, g);
    HandlersKeep(w.handlers, w.threads, w.born[g], g, tid, t);
  }

  lemma LookCovered(w: World, cpu: u32, tid: u32, g: u32)
    requires Covered(w, g) && CanLook(w, cpu, tid)
    ensures Covered(LookStep(w, cpu, tid), g)
  {
    var t := w.threads[tid];
    assert t.tgid == g ==> ThreadCovered(t, tid in w.maps.threads);
    forall c | c in LookStep(w, cpu, tid).handlers && LookStep(w, cpu, tid).handlers[c].tgid == g
      ensures HandlerCovered(LookStep(w, cpu, tid).handlers[c], w.threads, w.born[g])
    {
      assert c != cpu ==> HandlerCovered(w.handlers[c], w.threads, w.born[g]);
    }
  }

  lemma MoveCovered(w: World, cpu: u32, g: u32)
    requires Structure(w) && Covered(w, g) && InPhase(w, cpu, Looked) && FindsRoom(w, MoveBaseline(cpu), g)
    ensures Covered(MoveBaselineStep(w, cpu), g)
  {
    var h := w.handlers[cpu];
    var t := MovedThread(w.threads[h.tid], Roomy(w.maps, h.tid));
    var base := UpdateAny(w.maps.threads, MAX_THREADS, h.tid, h.runtime);
    assert HandlerOk(h, w.threads, w.maps.threads, w.births);
    ThreadChanges(w.threads, w.maps.threads, h.tid, t, base, g);
    forall c | c in MoveBaselineStep(w, cpu).handlers && MoveBaselineStep(w, cpu).handlers[c].tgid == g
      ensures HandlerCovered(MoveBaselineStep(w, cpu).handlers[c], w.threads[h.tid := t], w.born[g])
    {
      assert HandlerOk(w.handlers[c], w.threads, w.maps.threads, w.births);
      assert HandlerCovered(w.handlers[c], w.threads, w.born[g]);
    }
  }

  lemma SwitchCovered(w: World, e: Event, g: u32)
    requires Covered(w, g) && Enabled(w, e) && (e.Credit? || e.SwitchOut? || e.SwitchIn? || e.Exec?)
    ensures Covered(Step(w, e), g)
  {
    if e.SwitchIn? {
      SwitchFrames(w.maps, e.tgid, 0, RUNNING, e.now, e.cpu);
    } else if e.Exec? {
      ExecedFrame(w.maps, e.task);
    } else {
      var h := w.handlers[e.cpu];
      SwitchFrames(w.maps, h.tgid, Delta(h.baseline, h.runtime), if e.SwitchOut? then e.state else RUNNING, 0, 0);
      assert forall c | c in Step(w, e).handlers && c != e.cpu :: Step(w, e).handlers[c] == w.handlers[c];
    }
  }

  lemma ForkCovered(w: World, now: u64, child: Task, g: u32)
    requires Structure(w) && Covered(w, g) && CanFork(w, now, child) && FindsRoom(w, Fork(now, child), g)
    requires Stays(w, ForkStep(w, now, child), g)
    ensures Covered(ForkStep(w, now, child), g)
  {
    ForkedFrame(w.maps, now, child);
    SameIncarnationFork(w, now, child, g);
    ThreadChanges(w.threads, w.maps.threads, child.pid, Newborn(child.tgid),
                  UpdateAny(w.maps.threads, MAX_THREADS, child.pid, 0), g);
    HandlersKeep(w.handlers, w.threads, w.born[g], g, child.pid, Newborn(child.tgid));
  }

  lemma ExitCovered(w: World, task: Task, g: u32)
    requires Structure(w) && Covered(w, g) && CanExit(w, task)
    ensures Covered(ExitStep(w, task), g)
  {
    var t := ExitStep(w, task).threads[task.pid];
    ExitedFrame(w.maps, task);
    assert ThreadOk(w.threads, w.maps.threads, task.pid);
    assert task.tgid == g ==> ThreadCovered(w.threads[task.pid], task.pid in w.maps.threads);
    ThreadChanges(w.threads, w.maps.threads, task.pid, t, w.maps.threads - {task.pid}, g);
    HandlersKeep(w.handlers, w.threads, w.born[g], g, task.pid, t);
  }

  lemma ReleaseCovered(w: World, tid: u32, g: u32)
    requires Covered(w, g) && CanRelease(w, tid)
    ensures Covered(ReleaseStep(w, tid), g)
  {
    var w' := ReleaseStep(w, tid);
    forall u | u in w'.threads && w'.threads[u].tgid == g ensures ThreadCovered(w'.threads[u], u in w.maps.threads) {
      assert ThreadCovered(w.threads[u], u in w.maps.threads);
    }
    forall c | c in w.handlers && w.handlers[c].tgid == g ensures HandlerCovered(w.handlers[c], w'.threads, w.born[g]) {
      assert HandlerCovered(w.handlers[c], w.threads, w.born[g]);
    }
  }

  lemma IterateCovered(w: World, now: u64, task: Task, g: u32)
    requires Structure(w) && Covered(w, g) && CanIterate(w, now, task)
    requires Stays(w, IterateStep(w, now, task), g)
    ensures Covered(IterateStep(w, now, task), g)
  {
    DumpedFrame(w.maps, now, task);
    SameIncarnationIterate(w, now, task, g);
    var base := UpdateNoExist(w.maps.threads, MAX_THREADS, task.pid, task.runtime);
    if FirstBaseline(w.maps, task.pid) {
      var t := Settled(w.threads[task.pid]);
      ThreadChanges(w.threads, w.maps.threads, task.pid, t, base, g);
      HandlersKeep(w.handlers, w.threads, w.born[g], g, task.pid, t);
    }
  }

  lemma TickCovered(w: World, now: u64, interval: u64, live: map<u32, Task>, g: u32)
    requires Structure(w) && Covered(w, g) && Stays(w, TickStep(w, now, interval, live), g)
    ensures Covered(TickStep(w, now, interval, live), g)
  {
  }

  lemma CoveredStep(w: World, e: Event, g: u32)
    requires Structure(w) && Covered(w, g) && Enabled(w, e) && FindsRoom(w, e, g) && Stays(w, Step(w, e), g)
    ensures Covered(Step(w, e), g)
  {
    if e.Fork? || e.Iterate? || e.Tick? {
      CoveredEntryEvents(w, e, g);
    } else if e.Run? || e.Exit? || e.Release? {
      CoveredThreadEvents(w, e, g);
    } else {
      CoveredSwitchEvents(w, e, g);
    }
  }

  lemma CoveredEntryEvents(w: World, e: Event, g: u32)
    requires Structure(w) && Covered(w, g) && Enabled(w, e) && FindsRoom(w, e, g) && Stays(w, Step(w, e), g)
    requires e.Fork? || e.Iterate? || e.Tick?
    ensures Covered(Step(w, e), g)
  {
    if e.Fork? {
      ForkCovered(w, e.now, e.child, g);
    } else if e.Iterate? {
      IterateCovered(w, e.now, e.task, g);
    } else {
      TickCovered(w, e.now, e.interval, e.live, g);
    }
  }

  lemma CoveredThreadEvents(w: World, e: Event, g: u32)
    requires Structure(w) && Covered(w, g) && Enabled(w, e) && (e.Run? || e.Exit? || e.Release?)
    ensures Covered(Step(w, e), g)
  {
    if e.Run? {
      RunCovered(w, e.tid, e.ns, g);
    } else if e.Exit? {
      ExitCovered(w, e.task, g);
    } else {
      ReleaseCovered(w, e.tid, g);
    }
  }

  lemma CoveredSwitchEvents(w: World, e: Event, g: u32)
    requires Structure(w) && Covered(w, g) && Enabled(w, e) && FindsRoom(w, e, g)
    requires e.Look? || e.MoveBaseline? || e.Credit? || e.SwitchOut? || e.SwitchIn? || e.Exec?
    ensures Covered(Step(w, e), g)
  {
    if e.Look? {
      LookCovered(w, e.cpu, e.tid, g);
    } else if e.MoveBaseline? {
      MoveCovered(w, e.cpu, g);
    } else {
      SwitchCovered(w, e, g);
    }
  }

  // ---- What can be lost otherwise ----

  /** The event loses time of g that no exit explains: a first reading of a live thread, a reading
      taken by a hook that did not find the present entry, or a thread that goes without its last
      reading recorded. */
  ghost predicate LosesOtherwise(w: World, e: Event, g: u32) {
    && Enabled(w, e)
    && match e
       case MoveBaseline(cpu) =>
         var h, t := w.handlers[cpu], w.threads[w.handlers[cpu].tid];
         t.tgid == g && Gap(t) > 0 && t.cut.None? && Roomy(w.maps, h.tid) && !(h.baseline.Some? && Fits(w, h))
       case Iterate(_, task) =>
         var t := w.threads[task.pid];
         t.tgid == g && Gap(t) > 0 && t.cut.None? && FirstBaseline(w.maps, task.pid)
       case Release(tid) => w.threads[tid].tgid == g && Gap(w.threads[tid]) > 0
       case _ => false
  }

  /** Exactly those events let the other losses grow. */
  lemma OtherLossesExactly(w: World, e: Event, g: u32)
    requires Structure(w) && Stays(w, Step(w, e), g)
    ensures g in w.books && g in Step(w, e).books
    ensures Step(w, e).books[g].lostOtherwise > w.books[g].lostOtherwise <==> LosesOtherwise(w, e, g)
  {
    SameIncarnation(w, e, g);
    if Enabled(w, e) {
      BookStep(w, e, g);
      OtherLossesAt(w, e, g);
    }
  }

  lemma OtherLossesAt(w: World, e: Event, g: u32)
    requires Structure(w) && Enabled(w, e) && g in w.books
    ensures BookAt(w, e, g).lostOtherwise > w.books[g].lostOtherwise <==> LosesOtherwise(w, e, g)
  {
    if e.MoveBaseline? {
      OtherLossesMoving(w, e.cpu, g);
    } else if e.Credit? {
      assert CreditStep(w, e.cpu).books[g].lostOtherwise == w.books[g].lostOtherwise;
    } else {
      OtherLossesElsewhere(w, e, g);
    }
  }

  lemma OtherLossesMoving(w: World, cpu: u32, g: u32)
    requires InPhase(w, cpu, Looked) && g in w.books
    ensures MovedBooks(w, w.handlers[cpu])[g].lostOtherwise > w.books[g].lostOtherwise
            <==> LosesOtherwise(w, MoveBaseline(cpu), g)
  {
  }

  lemma OtherLossesElsewhere(w: World, e: Event, g: u32)
    requires Enabled(w, e) && g in w.books && !e.MoveBaseline? && !e.Credit?
    ensures BookAt(w, e, g).lostOtherwise > w.books[g].lostOtherwise <==> LosesOtherwise(w, e, g)
  {
  }

  /** None of them can happen to a covered process. */
  lemma CoveredLosesNothing(w: World, e: Event, g: u32)
    requires Structure(w) && Covered(w, g)
    ensures !LosesOtherwise(w, e, g)
  {
    if Enabled(w, e) {
      if e.MoveBaseline? {
        var h := w.handlers[e.cpu];
        assert HandlerOk(h, w.threads, w.maps.threads, w.births);
        assert h.tgid == g ==> HandlerCovered(h, w.threads, w.born[g]);
      } else if e.Iterate? {
        assert e.task.tgid == g ==> ThreadCovered(w.threads[e.task.pid], e.task.pid in w.maps.threads);
      } else if e.Release? {
        assert ThreadOk(w.threads, w.maps.threads, e.tid);
        assert w.threads[e.tid].tgid == g ==> ThreadCovered(w.threads[e.tid], e.tid in w.maps.threads);
      }
    }
  }

  lemma CoveredOnward(w: World, e: Event, g: u32)
    requires Structure(w) && Covered(w, g) && FindsRoom(w, e, g) && Stays(w, Step(w, e), g)
    ensures Covered(Step(w, e), g) && Step(w, e).books[g].lostOtherwise == w.books[g].lostOtherwise
  {
    if Enabled(w, e) {
      CoveredStep(w, e, g);
      SameIncarnation(w, e, g);
      OtherLossesExactly(w, e, g);
      CoveredLosesNothing(w, e, g);
    }
  }

  /** While the process stays tracked and finds room, it stays covered and loses nothing but slices. */
  lemma {:induction false} StaysCovered(w: World, events: seq<Event>, g: u32)
    requires Accounts(w) && Covered(w, g) && AlwaysRoom(w, events, g) && Stays(w, After(w, events), g)
    ensures Covered(After(w, events), g)
    ensures After(w, events).books[g].lostOtherwise == w.books[g].lostOtherwise
    decreases |events|
  {
    if events != [] {
      var before, e := events[..|events| - 1], events[|events| - 1];
      StaysBefore(w, events, g);
      StaysCovered(w, before, g);
      CoveredOnward(After(w, before), e, g);
    }
  }

  // ---- One slice per exit ----

  function CutOf(g: u32): Thread -> nat { (t: Thread) => if t.tgid == g && t.cut.Some? then 1 else 0 }

  /** Threads past their exit hook whose next reading is still to be recorded. */
  ghost function OpenCuts(threads: map<u32, Thread>, g: u32): nat { SumBy(threads, CutOf(g)) }

  lemma CutsSet(threads: map<u32, Thread>, tid: u32, t: Thread, g: u32)
    ensures OpenCuts(threads[tid := t], g)
            == OpenCuts(threads, g) - (if tid in threads then CutOf(g)(threads[tid]) else 0) + CutOf(g)(t)
  {
    SumSet(threads, CutOf(g), tid, t);
  }

  lemma CutsStep(w: World, e: Event, g: u32)
    requires Structure(w) && Covered(w, g) && FindsRoom(w, e, g)
    ensures OpenCuts(Step(w, e).threads, g) + |SliceAt(w, e, g)| == OpenCuts(w.threads, g) + ExitAt(w, e, g)
  {
    if !Enabled(w, e) {
    } else if e.MoveBaseline? || e.Iterate? {
      CutsReading(w, e, g);
    } else if e.Exit? {
      CutsExiting(w, e.task, g);
      assert Step(w, e) == ExitStep(w, e.task) && SliceAt(w, e, g) == [];
    } else {
      CutsOthers(w, e, g);
      assert SliceAt(w, e, g) == [] && ExitAt(w, e, g) == 0;
    }
  }

  lemma CutsReading(w: World, e: Event, g: u32)
    requires Structure(w) && Enabled(w, e) && FindsRoom(w, e, g) && (e.MoveBaseline? || e.Iterate?)
    ensures OpenCuts(Step(w, e).threads, g) + |SliceAt(w, e, g)| == OpenCuts(w.threads, g) + ExitAt(w, e, g)
  {
    if e.MoveBaseline? {
      CutsMoving(w, e.cpu, g);
    } else {
      CutsIterating(w, e.now, e.task, g);
    }
  }

  lemma CutsMoving(w: World, cpu: u32, g: u32)
    requires Structure(w) && InPhase(w, cpu, Looked) && FindsRoom(w, MoveBaseline(cpu), g)
    ensures OpenCuts(MoveBaselineStep(w, cpu).threads, g) + |SliceAt(w, MoveBaseline(cpu), g)|
            == OpenCuts(w.threads, g)
  {
    var h := w.handlers[cpu];
    assert HandlerOk(h, w.threads, w.maps.threads, w.births);
    CutsSet(w.threads, h.tid, MovedThread(w.threads[h.tid], Roomy(w.maps, h.tid)), g);
  }

  lemma CutsIterating(w: World, now: u64, task: Task, g: u32)
    requires Structure(w) && CanIterate(w, now, task)
    ensures OpenCuts(IterateStep(w, now, task).threads, g) + |SliceAt(w, Iterate(now, task), g)|
            == OpenCuts(w.threads, g)
  {
    SliceIterating(w, now, task, g);
    CutsSet(w.threads, task.pid, Settled(w.threads[task.pid]), g);
  }

  lemma CutsExiting(w: World, task: Task, g: u32)
    requires Structure(w) && CanExit(w, task)
    ensures OpenCuts(ExitStep(w, task).threads, g) == OpenCuts(w.threads, g) + ExitAt(w, Exit(task), g)
  {
    assert ThreadOk(w.threads, w.maps.threads, task.pid);
    CutsSet(w.threads, task.pid, ExitStep(w, task).threads[task.pid], g);
  }

  lemma CutsOthers(w: World, e: Event, g: u32)
    requires Structure(w) && Covered(w, g) && Enabled(w, e) && !e.MoveBaseline? && !e.Iterate? && !e.Exit?
    ensures OpenCuts(Step(w, e).threads, g) == OpenCuts(w.threads, g)
  {
    if e.Run? {
      CutsSet(w.threads, e.tid, RunStep(w, e.tid, e.ns).threads[e.tid], g);
    } else if e.Fork? {
      CutsForking(w, e.now, e.child, g);
    } else if e.Release? {
      CutsReleasing(w, e.tid, g);
    } else {
      ThreadsLeft(w, e);
    }
  }

  lemma CutsForking(w: World, now: u64, child: Task, g: u32)
    requires CanFork(w, now, child)
    ensures OpenCuts(ForkStep(w, now, child).threads, g) == OpenCuts(w.threads, g)
  {
    CutsSet(w.threads, child.pid, Newborn(child.tgid), g);
  }

  lemma ThreadsLeft(w: World, e: Event)
    requires Enabled(w, e) && !e.Run? && !e.Fork? && !e.Exit? && !e.Release? && !e.MoveBaseline? && !e.Iterate?
    ensures Step(w, e).threads == w.threads
  {
  }

  lemma CutsReleasing(w: World, tid: u32, g: u32)
    requires Structure(w) && Covered(w, g) && CanRelease(w, tid)
    ensures OpenCuts(w.threads - {tid}, g) == OpenCuts(w.threads, g)
  {
    assert ThreadOk(w.threads, w.maps.threads, tid);
    assert w.threads[tid].tgid == g ==> ThreadCovered(w.threads[tid], tid in w.maps.threads);
    SumRemove(w.threads, CutOf(g), tid);
  }

  /** Every exit opens one slice, and every slice closes one: no exit has two, and no thread goes with
      its slice open. */
  lemma {:induction false} OneSlicePerExit(w: World, events: seq<Event>, g: u32)
    requires Accounts(w) && Covered(w, g) && AlwaysRoom(w, events, g) && Stays(w, After(w, events), g)
    ensures OpenCuts(After(w, events).threads, g) + |ExitSlices(w, events, g)|
            == OpenCuts(w.threads, g) + Exits(w, events, g)
    decreases |events|
  {
    if events != [] {
      var before, e := events[..|events| - 1], events[|events| - 1];
      StaysBefore(w, events, g);
      StaysCovered(w, before, g);
      OneSlicePerExit(w, before, g);
      CutsStep(After(w, before), e, g);
    }
  }

  /** The next switch-out after the exit hook closes the slice, at the thread's present reading, and
      re-creates the baseline there. */
  lemma {:induction false} SwitchOutClosesSlice(w: World, cpu: u32)
    requires Structure(w) && InPhase(w, cpu, Looked) && Roomy(w.maps, w.handlers[cpu].tid)
    requires w.threads[w.handlers[cpu].tid].cut.Some?
    ensures var tid, w' := w.handlers[cpu].tid, Step(w, MoveBaseline(cpu));
            var t := w.threads[tid];
            && SliceAt(w, MoveBaseline(cpu), t.tgid) == [Slice(tid, t.cut.value, t.ran)]
            && tid in w'.maps.threads && w'.maps.threads[tid] == t.ran >= t.cut.value
            && tid in w'.threads && w'.threads[tid].cut.None?
  {
    assert HandlerOk(w.handlers[cpu], w.threads, w.maps.threads, w.births);
    assert ThreadOk(w.threads, w.maps.threads, w.handlers[cpu].tid);
  }

  // ---- Where cover comes from ----

  /** The group is empty when its leader is forked: no thread of it, and no handler, is about. */
  lemma EmptyGroup(threads: map<u32, Thread>, hs: map<u32, Handler>, base: map<u32, u64>, births: nat,
                   tid: u32, t: Thread)
    requires HandlersOk(hs, threads, base, births)
    requires forall u | u in threads :: threads[u].tgid != t.tgid
    requires Gap(t) == 0 && t.cut.None?
    ensures Pending(threads[tid := t], t.tgid) == OpenCuts(threads[tid := t], t.tgid) == 0
    ensures forall c | c in hs :: hs[c].tgid != t.tgid
  {
    var threads' := threads[tid := t];
    forall u | u in threads' ensures ShareOf(t.tgid)(threads'[u]) == CutOf(t.tgid)(threads'[u]) == 0 {}
    SumZero(threads', ShareOf(t.tgid));
    SumZero(threads', CutOf(t.tgid));
    forall c | c in hs ensures hs[c].tgid != t.tgid {
      assert HandlerOk(hs[c], threads, base, births);
    }
  }

  ghost predicate RoomFor(m: Maps, child: Task) {
    && Roomy(m, child.pid)
    && (child.tgid in m.procs || |m.procs| < MAX_PROCS)
  }

  /** Covered, with nothing counted, nothing open and nothing on its way. */
  ghost predicate Fresh(w: World, g: u32) {
    && Covered(w, g) && g in w.maps.procs
    && w.books[g] == Book(0, 0, 0, 0, 0) && w.maps.procs[g].cpuRuntimeNs == 0
    && Pending(w.threads, g) == OpenCuts(w.threads, g) == InFlight(w.handlers, g, w.born[g]) == 0
  }

  /** A process forked with room in both maps. */
  lemma ForkCovers(w: World, now: u64, child: Task)
    requires Structure(w) && CanFork(w, now, child) && child.pid == child.tgid && RoomFor(w.maps, child)
    ensures Fresh(Step(w, Fork(now, child)), child.tgid)
  {
    ForkedFrame(w.maps, now, child);
    EmptyGroup(w.threads, w.handlers, w.maps.threads, w.births, child.pid, Newborn(child.tgid));
    NoFlightYet(w.handlers, w.threads, w.maps.threads, w.births, child.tgid);
    assert Step(w, Fork(now, child)) == ForkStep(w, now, child);
  }

  /** A tracked process all of whose threads have a baseline, the iterator's or a hook's, is covered
      once the switch hooks that looked before its entry was made are through. */
  lemma ScanCovers(w: World, g: u32)
    requires Structure(w) && g in w.maps.procs
    requires forall t | t in w.threads && w.threads[t].tgid == g :: t in w.maps.threads
    requires forall c | c in w.handlers && w.handlers[c].tgid == g && w.handlers[c].phase.Looked? ::
               w.handlers[c].entry == Some(w.born[g]) && w.handlers[c].baseline.Some?
    ensures Covered(w, g)
  {
  }
}
