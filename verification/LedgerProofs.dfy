/** What every step of the world keeps, and the conservation of run time over whole runs. */
module LedgerProofs {
  import opened Machine
  import opened ProcTracker
  import opened Sums
  import opened Ledger

  // ---- Structure ----

  /** Handlers only depend on the threads they are switching out. */
  lemma HandlersFrame(hs: map<u32, Handler>, threads: map<u32, Thread>, base: map<u32, u64>, births: nat,
                      threads': map<u32, Thread>, base': map<u32, u64>, births': nat)
    requires HandlersOk(hs, threads, base, births) && births <= births'
    requires forall c | c in hs && hs[c].tid in threads ::
               hs[c].tid in threads' && threads'[hs[c].tid] == threads[hs[c].tid]
    requires forall c | c in hs && hs[c].tid in base :: hs[c].tid in base'
    ensures HandlersOk(hs, threads', base', births')
  {
    forall c | c in hs ensures HandlerOk(hs[c], threads', base', births') {
      assert HandlerOk(hs[c], threads, base, births);
    }
  }

  lemma ThreadChanged(threads: map<u32, Thread>, base: map<u32, u64>, tid: u32, t: Thread, base': map<u32, u64>)
    requires ThreadsOk(threads, base)
    requires ThreadOk(map[tid := t], base', tid)
    requires forall u | u != tid && u in base' :: u in base && base'[u] == base[u]
    ensures ThreadsOk(threads[tid := t], base')
  {
    var threads' := threads[tid := t];
    forall u | u in threads' ensures ThreadOk(threads', base', u) {
      assert ThreadOk(map[tid := t], base', tid);
      assert u != tid ==> ThreadOk(threads, base, u);
    }
  }

  lemma RunStructure(w: World, tid: u32, ns: nat)
    requires Structure(w) && CanRun(w, tid, ns)
    ensures Structure(RunStep(w, tid, ns))
  {
    var t := w.threads[tid].(ran := w.threads[tid].ran + ns, away := false);
    assert ThreadOk(w.threads, w.maps.threads, tid);
    ThreadChanged(w.threads, w.maps.threads, tid, t, w.maps.threads);
    HandlersFrame(w.handlers, w.threads, w.maps.threads, w.births,
                  w.threads[tid := t], w.maps.threads, w.births);
  }

  lemma LookStructure(w: World, cpu: u32, tid: u32)
    requires Structure(w) && CanLook(w, cpu, tid)
    ensures Structure(LookStep(w, cpu, tid))
  {
    assert ThreadOk(w.threads, w.maps.threads, tid);
  }

  lemma MoveBaselineThreads(w: World, cpu: u32)
    requires ThreadsOk(w.threads, w.maps.threads) && InPhase(w, cpu, Looked)
    requires HandlerOk(w.handlers[cpu], w.threads, w.maps.threads, w.births)
    ensures var w' := MoveBaselineStep(w, cpu); ThreadsOk(w'.threads, w'.maps.threads)
  {
    var h := w.handlers[cpu];
    assert ThreadOk(w.threads, w.maps.threads, h.tid);
    ThreadChanged(w.threads, w.maps.threads, h.tid, MovedThread(w.threads[h.tid], Roomy(w.maps, h.tid)),
                  UpdateAny(w.maps.threads, MAX_THREADS, h.tid, h.runtime));
  }

  /** The thread after accounting up to its present, or as it was. */
  ghost predicate SameReading(t: Thread, t': Thread) {
    t'.tgid == t.tgid && t'.ran == t.ran && t'.exited == t.exited
  }

  lemma RebasedHandlers(hs: map<u32, Handler>, threads: map<u32, Thread>, base: map<u32, u64>, births: nat,
                        cpu: u32, t: Thread, base': map<u32, u64>)
    requires HandlersOk(hs, threads, base, births) && cpu in hs && hs[cpu].tid in threads
    requires SameReading(threads[hs[cpu].tid], t) && base.Keys <= base'.Keys
    ensures HandlersOk(hs[cpu := hs[cpu].(phase := Rebased)], threads[hs[cpu].tid := t], base', births)
  {
    var hs' := hs[cpu := hs[cpu].(phase := Rebased)];
    forall c | c in hs' ensures HandlerOk(hs'[c], threads[hs[cpu].tid := t], base', births) {
      assert HandlerOk(hs[c], threads, base, births);
    }
  }

  lemma MoveBaselineStructure(w: World, cpu: u32)
    requires Structure(w) && InPhase(w, cpu, Looked)
    ensures Structure(MoveBaselineStep(w, cpu))
  {
    var h := w.handlers[cpu];
    RebaseKeeps(w.maps, w.clock, h.tid, h.runtime);
    assert HandlerOk(h, w.threads, w.maps.threads, w.births);
    MoveBaselineThreads(w, cpu);
    RebasedHandlers(w.handlers, w.threads, w.maps.threads, w.births, cpu,
                    MovedThread(w.threads[h.tid], Roomy(w.maps, h.tid)),
                    UpdateAny(w.maps.threads, MAX_THREADS, h.tid, h.runtime));
    assert MovedBooks(w, h).Keys == w.books.Keys;
  }

  lemma CreditHandlers(w: World, cpu: u32)
    requires Structure(w) && InPhase(w, cpu, Rebased)
    ensures HandlersOk(CreditStep(w, cpu).handlers, w.threads, w.maps.threads, w.births)
  {
    assert HandlerOk(w.handlers[cpu], w.threads, w.maps.threads, w.births);
    HandlerMoves(w.handlers, w.threads, w.maps.threads, w.births, cpu, w.handlers[cpu].(phase := Credited));
  }

  lemma AddRuntimeMaps(m: Maps, clock: u64, books: map<u32, Book>, g: u32, delta: u64)
    requires MapsOk(m, clock)
    ensures MapsOk(AddRuntime(m, g, delta), clock)
    ensures AddRuntime(m, g, delta).threads == m.threads
    ensures AddRuntime(m, g, delta).procs.Keys == m.procs.Keys
    ensures Earn(books, g, delta).Keys == books.Keys
  {
    SwitchStepsKeep(m, clock, g, delta, RUNNING, clock, 0);
    SwitchFrames(m, g, delta, RUNNING, clock, 0);
  }

  lemma CreditStructure(w: World, cpu: u32)
    requires Structure(w) && InPhase(w, cpu, Rebased)
    ensures Structure(CreditStep(w, cpu))
  {
    var h := w.handlers[cpu];
    CreditHandlers(w, cpu);
    AddRuntimeMaps(w.maps, w.clock, w.books, h.tgid, Delta(h.baseline, h.runtime));
  }

  lemma HandlerMoves(hs: map<u32, Handler>, threads: map<u32, Thread>, base: map<u32, u64>, births: nat,
                     cpu: u32, h: Handler)
    requires HandlersOk(hs, threads, base, births)
    requires cpu in hs && h.tid == hs[cpu].tid && HandlerOk(h, threads, base, births)
    ensures HandlersOk(hs[cpu := h], threads, base, births)
    ensures HandlersOk(hs - {cpu}, threads, base, births)
  {
  }

  lemma SwitchOutStructure(w: World, cpu: u32, state: TaskState)
    requires Structure(w) && InPhase(w, cpu, Credited)
    ensures Structure(SwitchOutStep(w, cpu, state))
  {
    SwitchStepsKeep(w.maps, w.clock, w.handlers[cpu].tgid, 0, state, w.clock, 0);
    SwitchFrames(w.maps, w.handlers[cpu].tgid, 0, state, w.clock, 0);
    HandlerMoves(w.handlers, w.threads, w.maps.threads, w.births, cpu, w.handlers[cpu]);
  }

  lemma SwitchInStructure(w: World, tgid: u32, now: u64, cpu: u32)
    requires Structure(w) && w.clock <= now
    ensures Structure(w.(maps := MarkIn(w.maps, tgid, now, cpu), clock := now))
  {
    SwitchStepsKeep(w.maps, w.clock, tgid, 0, RUNNING, now, cpu);
    SwitchFrames(w.maps, tgid, 0, RUNNING, now, cpu);
  }

  lemma ForkThreads(w: World, now: u64, child: Task)
    requires Structure(w) && CanFork(w, now, child)
    ensures var w' := ForkStep(w, now, child);
            ThreadsOk(w'.threads, w'.maps.threads) && HandlersOk(w'.handlers, w'.threads, w'.maps.threads, w'.births)
  {
    var w' := ForkStep(w, now, child);
    var base := UpdateAny(w.maps.threads, MAX_THREADS, child.pid, 0);
    ForkedFrame(w.maps, now, child);
    ThreadChanged(w.threads, w.maps.threads, child.pid, Newborn(child.tgid), base);
    HandlersFrame(w.handlers, w.threads, w.maps.threads, w.births, w'.threads, base, w'.births);
  }

  lemma RegisterOne(born: map<u32, nat>, books: map<u32, Book>, keys: set<u32>, births: nat, g: u32, book: Book)
    requires Registered(born, books, keys, births)
    ensures Registered(born[g := births], books[g := book], keys + {g}, births + 1)
  {
    assert born[g := births].Keys == born.Keys + {g};
    assert books[g := book].Keys == books.Keys + {g};
  }

  lemma ForkRegistered(w: World, now: u64, child: Task)
    requires Registered(w.born, w.books, w.maps.procs.Keys, w.births)
    ensures var w' := ForkStep(w, now, child); Registered(w'.born, w'.books, w'.maps.procs.Keys, w'.births)
  {
    var keys := Forked(w.maps, now, child).procs.Keys;
    ForkedFrame(w.maps, now, child);
    if child.pid == child.tgid && child.tgid in keys {
      RegisterOne(w.born, w.books, w.maps.procs.Keys, w.births, child.tgid, ForkStep(w, now, child).books[child.tgid]);
      assert keys == w.maps.procs.Keys + {child.tgid};
    }
  }

  lemma ForkStructure(w: World, now: u64, child: Task)
    requires Structure(w) && CanFork(w, now, child)
    ensures Structure(ForkStep(w, now, child))
  {
    ForkedKeeps(w.maps, w.clock, now, child);
    ForkThreads(w, now, child);
    ForkRegistered(w, now, child);
  }

  lemma ExecStructure(w: World, task: Task)
    requires Structure(w)
    ensures Structure(w.(maps := Execed(w.maps, task)))
  {
    ExecedKeeps(w.maps, w.clock, task);
    ExecedFrame(w.maps, task);
  }

  lemma ExitStructure(w: World, task: Task)
    requires Structure(w) && CanExit(w, task)
    ensures Structure(ExitStep(w, task))
  {
    var w' := ExitStep(w, task);
    ExitedKeeps(w.maps, w.clock, task);
    ExitedFrame(w.maps, task);
    assert ThreadOk(w.threads, w.maps.threads, task.pid);
    ThreadChanged(w.threads, w.maps.threads, task.pid, w'.threads[task.pid], w'.maps.threads);
    assert forall c | c in w.handlers :: w.handlers[c].tid != task.pid;
    HandlersFrame(w.handlers, w.threads, w.maps.threads, w.births, w'.threads, w'.maps.threads, w'.births);
  }

  lemma ReleaseStructure(w: World, tid: u32)
    requires Structure(w) && CanRelease(w, tid)
    ensures Structure(ReleaseStep(w, tid))
  {
    HandlersFrame(w.handlers, w.threads, w.maps.threads, w.births, w.threads - {tid}, w.maps.threads, w.births);
    forall t | t in w.threads - {tid} ensures ThreadOk(w.threads - {tid}, w.maps.threads, t) {
      assert ThreadOk(w.threads, w.maps.threads, t);
    }
  }

  lemma IterateThreadsOk(w: World, now: u64, task: Task)
    requires ThreadsOk(w.threads, w.maps.threads) && CanIterate(w, now, task)
    ensures ThreadsOk(IteratedThreads(w, task.pid), Dumped(w.maps, now, task).threads)
  {
    DumpedFrame(w.maps, now, task);
    assert ThreadOk(w.threads, w.maps.threads, task.pid);
    if FirstBaseline(w.maps, task.pid) {
      ThreadChanged(w.threads, w.maps.threads, task.pid, Settled(w.threads[task.pid]),
                    w.maps.threads[task.pid := task.runtime]);
    }
  }

  lemma IterateHandlers(w: World, now: u64, task: Task)
    requires HandlersOk(w.handlers, w.threads, w.maps.threads, w.births) && CanIterate(w, now, task)
    ensures HandlersOk(w.handlers, IteratedThreads(w, task.pid), Dumped(w.maps, now, task).threads, w.births)
    ensures HandlersOk(w.handlers, IteratedThreads(w, task.pid), Dumped(w.maps, now, task).threads, w.births + 1)
  {
    DumpedFrame(w.maps, now, task);
    forall c, births | c in w.handlers && births >= w.births
      ensures HandlerOk(w.handlers[c], IteratedThreads(w, task.pid), Dumped(w.maps, now, task).threads, births)
    {
      assert HandlerOk(w.handlers[c], w.threads, w.maps.threads, w.births);
    }
  }

  lemma IterateRegistered(w: World, now: u64, task: Task)
    requires Registered(w.born, w.books, w.maps.procs.Keys, w.births) && CanIterate(w, now, task)
    ensures var w' := IterateStep(w, now, task); Registered(w'.born, w'.books, w'.maps.procs.Keys, w'.births)
  {
    var keys := Dumped(w.maps, now, task).procs.Keys;
    DumpedFrame(w.maps, now, task);
    assert IteratedBooks(w, task.pid).Keys == w.books.Keys;
    if task.tgid !in w.maps.procs && task.tgid in keys {
      assert keys == w.maps.procs.Keys + {task.tgid};
      RegisterOne(w.born, IteratedBooks(w, task.pid), w.maps.procs.Keys, w.births, task.tgid,
                  Book(Pending(IteratedThreads(w, task.pid), task.tgid), 0, 0, 0, 0));
    } else {
      assert keys == w.maps.procs.Keys;
    }
  }

  lemma IterateStructure(w: World, now: u64, task: Task)
    requires Structure(w) && CanIterate(w, now, task)
    ensures Structure(IterateStep(w, now, task))
  {
    DumpedKeeps(w.maps, w.clock, now, task);
    IterateThreadsOk(w, now, task);
    IterateHandlers(w, now, task);
    IterateRegistered(w, now, task);
  }

  lemma TickStructure(w: World, now: u64, interval: u64, live: map<u32, Task>)
    requires Structure(w) && w.clock <= now
    ensures Structure(TickStep(w, now, interval, live))
  {
    ReapedKeeps(w.maps, w.clock, now, Deadline(now, interval), live);
  }

  lemma {:induction false} StructureKept(w: World, e: Event)
    requires Structure(w)
    ensures Structure(Step(w, e))
  {
    if !Enabled(w, e) {
      return;
    }
    match e
    case Run(tid, ns) => RunStructure(w, tid, ns);
    case Look(cpu, tid) => LookStructure(w, cpu, tid);
    case MoveBaseline(cpu) => MoveBaselineStructure(w, cpu);
    case Credit(cpu) => CreditStructure(w, cpu);
    case SwitchOut(cpu, state) => SwitchOutStructure(w, cpu, state);
    case SwitchIn(tgid, now, cpu) => SwitchInStructure(w, tgid, now, cpu);
    case Fork(now, child) => ForkStructure(w, now, child);
    case Exec(task) => ExecStructure(w, task);
    case Exit(task) => ExitStructure(w, task);
    case Release(tid) => ReleaseStructure(w, tid);
    case Iterate(now, task) => IterateStructure(w, now, task);
    case Tick(now, interval, live) => TickStructure(w, now, interval, live);
  }

  // ---- The balance of a book ----

  lemma PendingSet(threads: map<u32, Thread>, tid: u32, t: Thread, g: u32)
    ensures Pending(threads[tid := t], g)
            == Pending(threads, g) - (if tid in threads && threads[tid].tgid == g then Gap(threads[tid]) else 0)
               + (if t.tgid == g then Gap(t) else 0)
  {
    SumSet(threads, ShareOf(g), tid, t);
  }

  lemma PendingRelease(threads: map<u32, Thread>, tid: u32, g: u32)
    requires tid in threads
    ensures Pending(threads, g)
            == Pending(threads - {tid}, g) + if threads[tid].tgid == g then Gap(threads[tid]) else 0
  {
    SumRemove(threads, ShareOf(g), tid);
  }

  lemma FlightSet(hs: map<u32, Handler>, cpu: u32, h: Handler, g: u32, b: nat)
    ensures InFlight(hs[cpu := h], g, b)
            == InFlight(hs, g, b) - (if cpu in hs then FlightOf(g, b)(hs[cpu]) else 0) + FlightOf(g, b)(h)
  {
    SumSet(hs, FlightOf(g, b), cpu, h);
  }

  lemma FlightRemove(hs: map<u32, Handler>, cpu: u32, g: u32, b: nat)
    requires cpu in hs
    ensures InFlight(hs, g, b) == FlightOf(g, b)(hs[cpu]) + InFlight(hs - {cpu}, g, b)
  {
    SumRemove(hs, FlightOf(g, b), cpu);
  }

  /** Nothing is in flight towards an incarnation that is just being made. */
  lemma NoFlightYet(hs: map<u32, Handler>, threads: map<u32, Thread>, base: map<u32, u64>, births: nat, g: u32)
    requires HandlersOk(hs, threads, base, births)
    ensures InFlight(hs, g, births) == 0
  {
    forall c | c in hs ensures FlightOf(g, births)(hs[c]) == 0 {
      assert HandlerOk(hs[c], threads, base, births);
    }
    SumZero(hs, FlightOf(g, births));
  }

  /** Credited, lost, in flight and pending time add up to all there was to account for. */
  ghost predicate Balanced(b: Book, inFlight: nat, pending: nat) {
    b.credit + b.lostAtExit + b.lostOtherwise + inFlight + pending == b.opening + b.ran
  }

  ghost predicate Balances(books: map<u32, Book>, born: map<u32, nat>, hs: map<u32, Handler>,
                           threads: map<u32, Thread>)
  {
    && books.Keys <= born.Keys
    && forall g | g in books :: Balanced(books[g], InFlight(hs, g, born[g]), Pending(threads, g))
  }

  ghost predicate Balance(w: World) { Balances(w.books, w.born, w.handlers, w.threads) }

  lemma RunBalance(w: World, tid: u32, ns: nat)
    requires Structure(w) && Balance(w) && CanRun(w, tid, ns)
    ensures Balance(RunStep(w, tid, ns))
  {
    var w' := RunStep(w, tid, ns);
    assert ThreadOk(w.threads, w.maps.threads, tid);
    forall g | g in w'.books
      ensures Balanced(w'.books[g], InFlight(w'.handlers, g, w'.born[g]), Pending(w'.threads, g))
    {
      PendingSet(w.threads, tid, w'.threads[tid], g);
    }
  }

  lemma LookBalance(w: World, cpu: u32, tid: u32)
    requires Balance(w) && CanLook(w, cpu, tid)
    ensures Balance(LookStep(w, cpu, tid))
  {
    var w' := LookStep(w, cpu, tid);
    forall g | g in w'.books
      ensures Balanced(w'.books[g], InFlight(w'.handlers, g, w'.born[g]), Pending(w'.threads, g))
    {
      FlightSet(w.handlers, cpu, w'.handlers[cpu], g, w.born[g]);
    }
  }

  /** Accounting a thread's gap as lost. */
  lemma SettleBalance(books: map<u32, Book>, born: map<u32, nat>, hs: map<u32, Handler>,
                      threads: map<u32, Thread>, tid: u32, t: Thread, atExit: bool)
    requires Balances(books, born, hs, threads) && tid in threads
    requires t.tgid == threads[tid].tgid && Gap(t) == 0
    ensures Balances(Lose(books, t.tgid, Gap(threads[tid]), atExit), born, hs, threads[tid := t])
  {
    forall g | g in books
      ensures Balanced(Lose(books, t.tgid, Gap(threads[tid]), atExit)[g], InFlight(hs, g, born[g]),
                       Pending(threads[tid := t], g))
    {
      assert Balanced(books[g], InFlight(hs, g, born[g]), Pending(threads, g));
      PendingSet(threads, tid, t, g);
    }
  }

  lemma SameGapBalance(books: map<u32, Book>, born: map<u32, nat>, hs: map<u32, Handler>,
                       threads: map<u32, Thread>, tid: u32, t: Thread)
    requires Balances(books, born, hs, threads) && tid in threads
    requires t.tgid == threads[tid].tgid && Gap(t) == Gap(threads[tid])
    ensures Balances(books, born, hs, threads[tid := t])
  {
    forall g | g in books
      ensures Balanced(books[g], InFlight(hs, g, born[g]), Pending(threads[tid := t], g))
    {
      PendingSet(threads, tid, t, g);
    }
  }

  /** The gap of the thread switched out goes in flight, or is lost, or stays pending. */
  lemma MoveBaselineBalance(w: World, cpu: u32)
    requires Structure(w) && Balance(w) && InPhase(w, cpu, Looked)
    ensures Balance(MoveBaselineStep(w, cpu))
  {
    var h := w.handlers[cpu];
    var t := w.threads[h.tid];
    var hs := w.handlers[cpu := h.(phase := Rebased)];
    assert HandlerOk(h, w.threads, w.maps.threads, w.births);
    if h.baseline.Some? && Fits(w, h) {
      TakeOffBalance(w, cpu);
    } else {
      IdleFlight(w, cpu);
      if Roomy(w.maps, h.tid) {
        SettleBalance(w.books, w.born, hs, w.threads, h.tid, MovedThread(t, true), t.cut.Some?);
      } else {
        SameGapBalance(w.books, w.born, hs, w.threads, h.tid, MovedThread(t, false));
      }
    }
  }

  lemma IdleFlight(w: World, cpu: u32)
    requires Balance(w) && InPhase(w, cpu, Looked)
    requires w.handlers[cpu].baseline.None? || !Fits(w, w.handlers[cpu])
    ensures Balances(w.books, w.born, w.handlers[cpu := w.handlers[cpu].(phase := Rebased)], w.threads)
  {
    var hs := w.handlers[cpu := w.handlers[cpu].(phase := Rebased)];
    forall g | g in w.books
      ensures Balanced(w.books[g], InFlight(hs, g, w.born[g]), Pending(w.threads, g))
    {
      FlightSet(w.handlers, cpu, hs[cpu], g, w.born[g]);
    }
  }

  lemma TakeOffBalance(w: World, cpu: u32)
    requires Balance(w) && InPhase(w, cpu, Looked)
    requires var h := w.handlers[cpu];
             && h.baseline.Some? && Fits(w, h)
             && HandlerOk(h, w.threads, w.maps.threads, w.births)
    ensures Balance(MoveBaselineStep(w, cpu))
  {
    var h := w.handlers[cpu];
    var t := MovedThread(w.threads[h.tid], true);
    assert Delta(h.baseline, h.runtime) == Gap(w.threads[h.tid]);
    forall g | g in w.books
      ensures Balanced(w.books[g], InFlight(w.handlers[cpu := h.(phase := Rebased)], g, w.born[g]),
                       Pending(w.threads[h.tid := t], g))
    {
      FlightSet(w.handlers, cpu, h.(phase := Rebased), g, w.born[g]);
      PendingSet(w.threads, h.tid, t, g);
    }
  }

  lemma CreditBalance(w: World, cpu: u32)
    requires Balance(w) && InPhase(w, cpu, Rebased)
    ensures Balance(CreditStep(w, cpu))
  {
    var h := w.handlers[cpu];
    var w' := CreditStep(w, cpu);
    forall g | g in w'.books
      ensures Balanced(w'.books[g], InFlight(w'.handlers, g, w'.born[g]), Pending(w'.threads, g))
    {
      FlightSet(w.handlers, cpu, h.(phase := Credited), g, w.born[g]);
    }
  }

  lemma SwitchOutBalance(w: World, cpu: u32, state: TaskState)
    requires Balance(w) && InPhase(w, cpu, Credited)
    ensures Balance(SwitchOutStep(w, cpu, state))
  {
    forall g | g in w.books
      ensures Balanced(w.books[g], InFlight(w.handlers - {cpu}, g, w.born[g]), Pending(w.threads, g))
    {
      FlightRemove(w.handlers, cpu, g, w.born[g]);
    }
  }

  /** Registering an incarnation opens a balanced book and leaves the others alone. */
  lemma OpenBalance(books: map<u32, Book>, born: map<u32, nat>, hs: map<u32, Handler>, threads: map<u32, Thread>,
                    births: nat, g: u32)
    requires Balances(books, born, hs, threads) && InFlight(hs, g, births) == 0
    ensures Balances(Opened(books, threads, g), born[g := births], hs, threads)
  {
    forall k | k in books && k != g
      ensures Balanced(books[k], InFlight(hs, k, born[k]), Pending(threads, k))
    {
    }
  }

  lemma ForkBalance(w: World, now: u64, child: Task)
    requires Structure(w) && Balance(w) && CanFork(w, now, child)
    ensures Balance(ForkStep(w, now, child))
  {
    var threads := w.threads[child.pid := Newborn(child.tgid)];
    forall g | g in w.books
      ensures Balanced(w.books[g], InFlight(w.handlers, g, w.born[g]), Pending(threads, g))
    {
      PendingSet(w.threads, child.pid, Newborn(child.tgid), g);
    }
    NoFlightYet(w.handlers, w.threads, w.maps.threads, w.births, child.tgid);
    OpenBalance(w.books, w.born, w.handlers, threads, w.births, child.tgid);
  }

  lemma ExitBalance(w: World, task: Task)
    requires Balance(w) && CanExit(w, task)
    ensures Balance(ExitStep(w, task))
  {
    SameGapBalance(w.books, w.born, w.handlers, w.threads, task.pid, ExitStep(w, task).threads[task.pid]);
  }

  lemma ReleaseBalance(w: World, tid: u32)
    requires Balance(w) && CanRelease(w, tid)
    ensures Balance(ReleaseStep(w, tid))
  {
    var w' := ReleaseStep(w, tid);
    forall g | g in w'.books
      ensures Balanced(w'.books[g], InFlight(w'.handlers, g, w'.born[g]), Pending(w'.threads, g))
    {
      PendingRelease(w.threads, tid, g);
      assert Balanced(w.books[g], InFlight(w.handlers, g, w.born[g]), Pending(w.threads, g));
    }
  }

  lemma IterateBalance(w: World, now: u64, task: Task)
    requires Structure(w) && Balance(w) && CanIterate(w, now, task)
    ensures Balance(IterateStep(w, now, task))
  {
    var t := w.threads[task.pid];
    var threads := IteratedThreads(w, task.pid);
    if FirstBaseline(w.maps, task.pid) {
      SettleBalance(w.books, w.born, w.handlers, w.threads, task.pid, Settled(t), t.cut.Some?);
    }
    assert Balances(IteratedBooks(w, task.pid), w.born, w.handlers, threads);
    NoFlightYet(w.handlers, w.threads, w.maps.threads, w.births, task.tgid);
    OpenBalance(IteratedBooks(w, task.pid), w.born, w.handlers, threads, w.births, task.tgid);
  }

  lemma TickBalance(w: World, now: u64, interval: u64, live: map<u32, Task>)
    requires Structure(w) && Balance(w)
    ensures Balance(TickStep(w, now, interval, live))
  {
  }

  lemma {:induction false} BalanceKept(w: World, e: Event)
    requires Structure(w) && Balance(w)
    ensures Balance(Step(w, e))
  {
    if !Enabled(w, e) {
      return;
    }
    match e
    case Run(tid, ns) => RunBalance(w, tid, ns);
    case Look(cpu, tid) => LookBalance(w, cpu, tid);
    case MoveBaseline(cpu) => MoveBaselineBalance(w, cpu);
    case Credit(cpu) => CreditBalance(w, cpu);
    case SwitchOut(cpu, state) => SwitchOutBalance(w, cpu, state);
    case SwitchIn(_, _, _) =>
    case Fork(now, child) => ForkBalance(w, now, child);
    case Exec(_) =>
    case Exit(task) => ExitBalance(w, task);
    case Release(tid) => ReleaseBalance(w, tid);
    case Iterate(now, task) => IterateBalance(w, now, task);
    case Tick(now, interval, live) => TickBalance(w, now, interval, live);
  }

  // ---- The published counter ----

  /** The counter readers see is the credit, in 64 bits. */
  ghost predicate Metered(procs: map<u32, ProcStats>, books: map<u32, Book>) {
    forall g | g in books && g in procs :: procs[g].cpuRuntimeNs == Wrap64(books[g].credit)
  }

  /** Every hook but the atomic add leaves the counters alone, or starts a new one at 0. */
  ghost predicate CountersFramed(procs: map<u32, ProcStats>, procs': map<u32, ProcStats>) {
    forall g | g in procs' ::
      procs'[g].cpuRuntimeNs == if g in procs then procs[g].cpuRuntimeNs else 0
  }

  ghost predicate CreditsFramed(books: map<u32, Book>, books': map<u32, Book>) {
    forall g | g in books' :: books'[g].credit == if g in books then books[g].credit else 0
  }

  lemma MeterFrame(procs: map<u32, ProcStats>, books: map<u32, Book>,
                   procs': map<u32, ProcStats>, books': map<u32, Book>)
    requires Metered(procs, books) && procs.Keys == books.Keys
    requires CountersFramed(procs, procs') && CreditsFramed(books, books')
    ensures Metered(procs', books')
  {
  }

  lemma LoseCredits(books: map<u32, Book>, g: u32, ns: nat, atExit: bool)
    ensures CreditsFramed(books, Lose(books, g, ns, atExit)) && CreditsFramed(books, Ran(books, g, ns))
    ensures Lose(books, g, ns, atExit).Keys == Ran(books, g, ns).Keys == books.Keys
  {
  }

  lemma SwitchCounters(m: Maps, tgid: u32, state: TaskState, now: u64, cpu: u32)
    ensures CountersFramed(m.procs, MarkOut(m, tgid, state).procs)
    ensures CountersFramed(m.procs, MarkIn(m, tgid, now, cpu).procs)
  {
  }

  lemma ExecExitCounters(m: Maps, task: Task)
    ensures CountersFramed(m.procs, Execed(m, task).procs)
    ensures CountersFramed(m.procs, Exited(m, task).procs)
  {
  }

  lemma DumpedCounters(m: Maps, now: u64, task: Task)
    ensures CountersFramed(m.procs, Dumped(m, now, task).procs)
  {
  }

  lemma ForkMeter(w: World, now: u64, child: Task)
    requires Registered(w.born, w.books, w.maps.procs.Keys, w.births) && Metered(w.maps.procs, w.books)
    ensures var w' := ForkStep(w, now, child); Metered(w'.maps.procs, w'.books)
  {
    forall g | g in Forked(w.maps, now, child).procs && g in ForkStep(w, now, child).books
      ensures Forked(w.maps, now, child).procs[g].cpuRuntimeNs == Wrap64(ForkStep(w, now, child).books[g].credit)
    {
      ForkedEntries(w.maps, now, child, g);
      ForkedBook(w, now, child, g);
    }
  }

  lemma ForkedBook(w: World, now: u64, child: Task, g: u32)
    requires g in ForkStep(w, now, child).books && g in Forked(w.maps, now, child).procs
    ensures var b := ForkStep(w, now, child).books[g];
            if g == child.tgid == child.pid then b.credit == 0 else g in w.books && b == w.books[g]
  {
  }

  lemma CreditMeter(w: World, cpu: u32)
    requires Metered(w.maps.procs, w.books) && InPhase(w, cpu, Rebased)
    ensures var w' := CreditStep(w, cpu); Metered(w'.maps.procs, w'.books)
  {
    var h := w.handlers[cpu];
    if Fits(w, h) && h.tgid in w.books {
      WrapAdd(w.books[h.tgid].credit, Delta(h.baseline, h.runtime));
    }
  }

  lemma IterateCredits(w: World, now: u64, task: Task)
    requires Registered(w.born, w.books, w.maps.procs.Keys, w.births) && CanIterate(w, now, task)
    ensures CreditsFramed(w.books, IterateStep(w, now, task).books)
  {
    var t := w.threads[task.pid];
    LoseCredits(w.books, t.tgid, Gap(t), t.cut.Some?);
  }

  lemma TickMeter(w: World, now: u64, interval: u64, live: map<u32, Task>)
    requires Metered(w.maps.procs, w.books)
    ensures var w' := TickStep(w, now, interval, live); Metered(w'.maps.procs, w'.books)
  {
  }

  lemma MoveBaselineCredits(w: World, cpu: u32)
    requires InPhase(w, cpu, Looked)
    ensures CreditsFramed(w.books, MoveBaselineStep(w, cpu).books)
  {
    var h := w.handlers[cpu];
    var t := w.threads[h.tid];
    LoseCredits(w.books, t.tgid, Gap(t), t.cut.Some?);
  }

  lemma MeterKept(w: World, e: Event)
    requires Registered(w.born, w.books, w.maps.procs.Keys, w.births) && Metered(w.maps.procs, w.books)
    ensures Metered(Step(w, e).maps.procs, Step(w, e).books)
  {
    if !Enabled(w, e) {
    } else if e.Fork? {
      ForkMeter(w, e.now, e.child);
    } else if e.Credit? {
      CreditMeter(w, e.cpu);
    } else if e.Tick? {
      TickMeter(w, e.now, e.interval, e.live);
    } else {
      CountersQuiet(w, e);
      CreditsQuiet(w, e);
      MeterFrame(w.maps.procs, w.books, Step(w, e).maps.procs, Step(w, e).books);
    }
  }

  lemma CountersQuiet(w: World, e: Event)
    requires Enabled(w, e) && !e.Fork? && !e.Credit? && !e.Tick?
    ensures CountersFramed(w.maps.procs, Step(w, e).maps.procs)
  {
    match e
    case SwitchOut(cpu, state) => SwitchCounters(w.maps, w.handlers[cpu].tgid, state, 0, 0);
    case SwitchIn(tgid, now, cpu) => SwitchCounters(w.maps, tgid, RUNNING, now, cpu);
    case Exec(task) => ExecExitCounters(w.maps, task);
    case Exit(task) => ExecExitCounters(w.maps, task);
    case Iterate(now, task) => DumpedCounters(w.maps, now, task);
    case _ =>
  }

  lemma CreditsQuiet(w: World, e: Event)
    requires Registered(w.born, w.books, w.maps.procs.Keys, w.births)
    requires Enabled(w, e) && !e.Fork? && !e.Credit? && !e.Tick?
    ensures CreditsFramed(w.books, Step(w, e).books)
  {
    match e
    case Run(tid, ns) => LoseCredits(w.books, w.threads[tid].tgid, ns, false);
    case MoveBaseline(cpu) => MoveBaselineCredits(w, cpu);
    case Release(tid) => LoseCredits(w.books, w.threads[tid].tgid, Gap(w.threads[tid]), false);
    case Iterate(now, task) => IterateCredits(w, now, task);
    case _ =>
  }

  // ---- Never more than was run ----

  /** A group's unaccounted time has been run by the group since load. */
  ghost predicate LivedThreads(threads: map<u32, Thread>, life: map<u32, nat>) {
    forall g: u32 :: Pending(threads, g) <= LifeOf(life, g)
  }

  /** So has everything a book has to account for. */
  ghost predicate LivedBooks(books: map<u32, Book>, life: map<u32, nat>) {
    forall g | g in books :: books[g].opening + books[g].ran <= LifeOf(life, g)
  }

  lemma ThreadLived(threads: map<u32, Thread>, life: map<u32, nat>, tid: u32, t: Thread, ns: nat)
    requires LivedThreads(threads, life)
    requires Gap(t) <= ns + if tid in threads && threads[tid].tgid == t.tgid then Gap(threads[tid]) else 0
    ensures LivedThreads(threads[tid := t], life[t.tgid := LifeOf(life, t.tgid) + ns])
    ensures ns == 0 ==> LivedThreads(threads[tid := t], life)
  {
    var life' := life[t.tgid := LifeOf(life, t.tgid) + ns];
    forall g: u32
      ensures Pending(threads[tid := t], g) <= LifeOf(life', g)
      ensures ns == 0 ==> Pending(threads[tid := t], g) <= LifeOf(life, g)
    {
      PendingSet(threads, tid, t, g);
    }
  }

  lemma ReleaseLived(threads: map<u32, Thread>, life: map<u32, nat>, tid: u32)
    requires LivedThreads(threads, life) && tid in threads
    ensures LivedThreads(threads - {tid}, life)
  {
    forall g: u32 ensures Pending(threads - {tid}, g) <= LifeOf(life, g) {
      PendingRelease(threads, tid, g);
    }
  }

  lemma RunLived(w: World, tid: u32, ns: nat)
    requires ThreadsOk(w.threads, w.maps.threads) && LivedThreads(w.threads, w.life) && CanRun(w, tid, ns)
    ensures LivedThreads(RunStep(w, tid, ns).threads, RunStep(w, tid, ns).life)
  {
    var t := w.threads[tid];
    assert ThreadOk(w.threads, w.maps.threads, tid);
    ThreadLived(w.threads, w.life, tid, t.(ran := t.ran + ns, away := false), ns);
  }

  lemma MoveBaselineLived(w: World, cpu: u32)
    requires HandlersOk(w.handlers, w.threads, w.maps.threads, w.births)
    requires LivedThreads(w.threads, w.life) && InPhase(w, cpu, Looked)
    ensures LivedThreads(MoveBaselineStep(w, cpu).threads, w.life)
  {
    var h := w.handlers[cpu];
    assert HandlerOk(h, w.threads, w.maps.threads, w.births);
    ThreadLived(w.threads, w.life, h.tid, MovedThread(w.threads[h.tid], Roomy(w.maps, h.tid)), 0);
  }

  lemma IterateLived(w: World, now: u64, task: Task)
    requires LivedThreads(w.threads, w.life) && CanIterate(w, now, task)
    ensures LivedThreads(IterateStep(w, now, task).threads, w.life)
  {
    ThreadLived(w.threads, w.life, task.pid, Settled(w.threads[task.pid]), 0);
  }

  lemma LivedThreadsKept(w: World, e: Event)
    requires ThreadsOk(w.threads, w.maps.threads)
    requires HandlersOk(w.handlers, w.threads, w.maps.threads, w.births)
    requires LivedThreads(w.threads, w.life)
    ensures LivedThreads(Step(w, e).threads, Step(w, e).life)
  {
    if !Enabled(w, e) {
    } else if e.Run? {
      RunLived(w, e.tid, e.ns);
    } else if e.MoveBaseline? {
      MoveBaselineLived(w, e.cpu);
    } else if e.Iterate? {
      IterateLived(w, e.now, e.task);
    } else {
      LivedThreadsOthers(w, e);
    }
  }

  lemma LivedThreadsOthers(w: World, e: Event)
    requires LivedThreads(w.threads, w.life) && Enabled(w, e)
    requires !e.Run? && !e.MoveBaseline? && !e.Iterate?
    ensures LivedThreads(Step(w, e).threads, Step(w, e).life)
  {
    if e.Fork? {
      ThreadLived(w.threads, w.life, e.child.pid, Newborn(e.child.tgid), 0);
    } else if e.Exit? {
      ThreadLived(w.threads, w.life, e.task.pid, ExitStep(w, e.task).threads[e.task.pid], 0);
    } else if e.Release? {
      ReleaseLived(w.threads, w.life, e.tid);
    } else {
      assert Step(w, e).threads == w.threads && Step(w, e).life == w.life;
    }
  }

  // Books only grow by what is run, and open with what is pending.

  lemma LivedBooksRun(w: World, tid: u32, ns: nat)
    requires LivedBooks(w.books, w.life) && CanRun(w, tid, ns)
    ensures LivedBooks(RunStep(w, tid, ns).books, RunStep(w, tid, ns).life)
  {
  }

  lemma LivedBooksCharge(books: map<u32, Book>, life: map<u32, nat>, g: u32, ns: nat, atExit: bool)
    requires LivedBooks(books, life)
    ensures LivedBooks(Lose(books, g, ns, atExit), life) && LivedBooks(Earn(books, g, ns), life)
  {
  }

  lemma LivedBooksOpen(books: map<u32, Book>, threads: map<u32, Thread>, life: map<u32, nat>, g: u32)
    requires LivedBooks(books, life) && LivedThreads(threads, life)
    ensures LivedBooks(Opened(books, threads, g), life)
  {
  }

  lemma LivedBooksIterate(w: World, now: u64, task: Task)
    requires LivedBooks(w.books, w.life) && CanIterate(w, now, task)
    requires LivedThreads(IterateStep(w, now, task).threads, w.life)
    ensures LivedBooks(IterateStep(w, now, task).books, w.life)
  {
    var t := w.threads[task.pid];
    LivedBooksCharge(w.books, w.life, t.tgid, Gap(t), t.cut.Some?);
    LivedBooksOpen(IteratedBooks(w, task.pid), IteratedThreads(w, task.pid), w.life, task.tgid);
  }

  lemma LivedBooksFork(w: World, now: u64, child: Task)
    requires LivedBooks(w.books, w.life) && LivedThreads(ForkStep(w, now, child).threads, w.life)
    ensures LivedBooks(ForkStep(w, now, child).books, w.life)
  {
    LivedBooksOpen(w.books, ForkStep(w, now, child).threads, w.life, child.tgid);
  }

  lemma LivedBooksMove(w: World, cpu: u32)
    requires LivedBooks(w.books, w.life) && InPhase(w, cpu, Looked)
    ensures LivedBooks(MoveBaselineStep(w, cpu).books, w.life)
  {
    var h := w.handlers[cpu];
    var t := w.threads[h.tid];
    LivedBooksCharge(w.books, w.life, t.tgid, Gap(t), t.cut.Some?);
  }

  lemma LivedBooksKept(w: World, e: Event)
    requires LivedBooks(w.books, w.life) && LivedThreads(Step(w, e).threads, Step(w, e).life)
    ensures LivedBooks(Step(w, e).books, Step(w, e).life)
  {
    if !Enabled(w, e) {
    } else if e.Fork? || e.Iterate? {
      LivedBooksOpened(w, e);
    } else {
      LivedBooksCharged(w, e);
    }
  }

  lemma LivedBooksOpened(w: World, e: Event)
    requires LivedBooks(w.books, w.life) && Enabled(w, e) && (e.Fork? || e.Iterate?)
    requires LivedThreads(Step(w, e).threads, Step(w, e).life)
    ensures LivedBooks(Step(w, e).books, Step(w, e).life)
  {
    if e.Fork? {
      LivedBooksFork(w, e.now, e.child);
    } else {
      LivedBooksIterate(w, e.now, e.task);
    }
  }

  lemma LivedBooksCharged(w: World, e: Event)
    requires LivedBooks(w.books, w.life) && Enabled(w, e) && !e.Fork? && !e.Iterate?
    ensures LivedBooks(Step(w, e).books, Step(w, e).life)
  {
    if e.Run? {
      LivedBooksRun(w, e.tid, e.ns);
    } else if e.MoveBaseline? {
      LivedBooksMove(w, e.cpu);
    } else if e.Credit? {
      var h := w.handlers[e.cpu];
      LivedBooksCharge(w.books, w.life, h.tgid, Delta(h.baseline, h.runtime), false);
    } else if e.Release? {
      LivedBooksCharge(w.books, w.life, w.threads[e.tid].tgid, Gap(w.threads[e.tid]), false);
    } else {
      LivedBooksIdle(w, e);
    }
  }

  lemma LivedBooksIdle(w: World, e: Event)
    requires LivedBooks(w.books, w.life) && Enabled(w, e)
    requires e.Look? || e.SwitchOut? || e.SwitchIn? || e.Exec? || e.Exit? || e.Tick?
    ensures LivedBooks(Step(w, e).books, Step(w, e).life)
  {
  }
}
