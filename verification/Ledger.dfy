/**
 Whole runs of the tracker against the threads it watches.

 The kernel's threads run, switch, fork, exit and give their ids back; the hooks see them go by.
 `sched_switch` runs on every CPU at once and is taken apart into its map accesses (look up, move
 the baseline, add atomically, write the state); the other hooks are one step each.  Beside the two
 maps the world carries what no hook can see: how long every thread has really run, up to which
 reading that has been accounted for, and one book per tracked process.

 What is taken from the kernel is in `Enabled`: a thread's runtime starts at 0 and only grows, an
 id passes to a new thread only by a fork after its last owner is released, id 0 is not a thread,
 and a thread is switched out by one CPU at a time.
 */
module Ledger {
  import opened Machine
  import opened ProcTracker
  import opened Sums

  /** `ran` is `sum_exec_runtime`; what happened before `point` has been accounted for.  `away` means
      switched out since it last ran or passed its exit hook; `cut` is the baseline its exit hook
      deleted, until a reading is recorded again. */
  datatype Thread = Thread(tgid: u32, ran: u64, point: u64, exited: bool, away: bool, cut: Option<u64>)

  datatype Phase = Looked | Rebased | Credited

  /** A switch hook under way: the entry (by birth number) and the baseline it looked up. */
  datatype Handler = Handler(
    tid: u32, tgid: u32, entry: Option<nat>, baseline: Option<u64>, runtime: u64, phase: Phase)

  /** One incarnation of an entry: the group's unaccounted time when it was made, the time run since,
      the part credited, and the part lost in the slice after a thread's exit hook or otherwise. */
  datatype Book = Book(opening: nat, ran: nat, credit: nat, lostAtExit: nat, lostOtherwise: nat)

  datatype World = World(
    maps: Maps,
    threads: map<u32, Thread>,
    handlers: map<u32, Handler>,      // by CPU
    born: map<u32, nat>, births: nat, // birth numbers of the tracked entries
    books: map<u32, Book>,
    life: map<u32, nat>,              // time run by each group since load
    clock: u64)

  datatype Event =
    | Run(tid: u32, ns: nat)
    | Look(cpu: u32, tid: u32)
    | MoveBaseline(cpu: u32)
    | Credit(cpu: u32)
    | SwitchOut(cpu: u32, state: TaskState)
    | SwitchIn(tgid: u32, now: u64, cpu: u32)
    | Fork(now: u64, child: Task)
    | Exec(task: Task)
    | Exit(task: Task)
    | Release(tid: u32)
    | Iterate(now: u64, task: Task)
    | Tick(now: u64, interval: u64, live: map<u32, Task>)

  // ---- Sums over threads and handlers ----

  function Gap(t: Thread): nat { if t.point <= t.ran then t.ran - t.point else 0 }

  function ShareOf(g: u32): Thread -> nat { (t: Thread) => if t.tgid == g then Gap(t) else 0 }

  /** Time the group's threads have run beyond their accounting points. */
  ghost function Pending(threads: map<u32, Thread>, g: u32): nat { SumBy(threads, ShareOf(g)) }

  function FlightOf(g: u32, birth: nat): Handler -> nat {
    (h: Handler) =>
      if h.phase.Rebased? && h.tgid == g && h.entry == Some(birth) then Delta(h.baseline, h.runtime) else 0
  }

  /** Deltas taken from a baseline and not yet added to this incarnation of the entry. */
  ghost function InFlight(handlers: map<u32, Handler>, g: u32, birth: nat): nat {
    SumBy(handlers, FlightOf(g, birth))
  }

  // ---- Bookkeeping ----

  function Ran(books: map<u32, Book>, g: u32, ns: nat): map<u32, Book> {
    if g in books then books[g := books[g].(ran := books[g].ran + ns)] else books
  }

  function Earn(books: map<u32, Book>, g: u32, ns: nat): map<u32, Book> {
    if g in books then books[g := books[g].(credit := books[g].credit + ns)] else books
  }

  function Lose(books: map<u32, Book>, g: u32, ns: nat, atExit: bool): map<u32, Book> {
    if g !in books then books
    else if atExit then books[g := books[g].(lostAtExit := books[g].lostAtExit + ns)]
    else books[g := books[g].(lostOtherwise := books[g].lostOtherwise + ns)]
  }

  function LifeOf(life: map<u32, nat>, g: u32): nat { if g in life then life[g] else 0 }

  /** The guard of an update of `thread_runtime`. */
  predicate Roomy(m: Maps, tid: u32) { tid in m.threads || |m.threads| < MAX_THREADS }

  /** The thread once its present reading is recorded. */
  function Settled(t: Thread): Thread { t.(point := t.ran, cut := None) }

  /** A thread just forked. */
  function Newborn(tgid: u32): Thread { Thread(tgid, 0, 0, false, true, None) }

  /** The entry the handler looked up is still the one in the map. */
  predicate Fits(w: World, h: Handler) { h.entry.Some? && Lookup(w.born, h.tgid) == h.entry }

  ghost predicate Busy(w: World, tid: u32) {
    exists cpu :: cpu in w.handlers && w.handlers[cpu].tid == tid
  }

  // ---- Steps ----

  ghost predicate CanRun(w: World, tid: u32, ns: nat) {
    tid in w.threads && !Busy(w, tid) && w.threads[tid].ran + ns < TWO64
  }

  ghost predicate CanLook(w: World, cpu: u32, tid: u32) {
    cpu !in w.handlers && tid in w.threads && !Busy(w, tid)
  }

  predicate InPhase(w: World, cpu: u32, phase: Phase) {
    cpu in w.handlers && w.handlers[cpu].phase == phase && w.handlers[cpu].tid in w.threads
  }

  ghost predicate CanFork(w: World, now: u64, child: Task) {
    && w.clock <= now
    && child.pid != 0 && child.pid !in w.threads && child.runtime == 0
    && (child.pid == child.tgid ==> forall t | t in w.threads :: w.threads[t].tgid != child.tgid)
  }

  ghost predicate CanExit(w: World, task: Task) {
    && task.pid in w.threads && w.threads[task.pid].tgid == task.tgid
    && !w.threads[task.pid].exited && !Busy(w, task.pid)
  }

  /** Exited and switched out for good. */
  ghost predicate CanRelease(w: World, tid: u32) {
    tid in w.threads && w.threads[tid].exited && w.threads[tid].away && !Busy(w, tid)
  }

  predicate CanIterate(w: World, now: u64, task: Task) {
    && w.clock <= now
    && task.pid in w.threads && w.threads[task.pid].tgid == task.tgid
    && w.threads[task.pid].ran == task.runtime
  }

  ghost predicate Enabled(w: World, e: Event) {
    match e
    case Run(tid, ns) => CanRun(w, tid, ns)
    case Look(cpu, tid) => CanLook(w, cpu, tid)
    case MoveBaseline(cpu) => InPhase(w, cpu, Looked)
    case Credit(cpu) => InPhase(w, cpu, Rebased)
    case SwitchOut(cpu, _) => InPhase(w, cpu, Credited)
    case SwitchIn(_, now, _) => w.clock <= now
    case Fork(now, child) => CanFork(w, now, child)
    case Exec(_) => true
    case Exit(task) => CanExit(w, task)
    case Release(tid) => CanRelease(w, tid)
    case Iterate(now, task) => CanIterate(w, now, task)
    case Tick(now, _, _) => w.clock <= now
  }

  function RunStep(w: World, tid: u32, ns: nat): World
    requires tid in w.threads && w.threads[tid].ran + ns < TWO64
  {
    var t := w.threads[tid];
    w.(threads := w.threads[tid := t.(ran := t.ran + ns, away := false)],
       books := Ran(w.books, t.tgid, ns),
       life := w.life[t.tgid := LifeOf(w.life, t.tgid) + ns])
  }

  function LookStep(w: World, cpu: u32, tid: u32): World
    requires tid in w.threads
  {
    var t := w.threads[tid];
    w.(handlers := w.handlers[cpu := Handler(tid, t.tgid, Lookup(w.born, t.tgid),
                                             Lookup(w.maps.threads, tid), t.ran, Looked)])
  }

  function MovedThread(t: Thread, recorded: bool): Thread {
    (if recorded then Settled(t) else t).(away := true)
  }

  /** What the baseline advanced by is on its way to the entry the handler looked up, if that entry is
      still there; it is lost if there was no baseline to subtract, or no entry to credit. */
  function MovedBooks(w: World, h: Handler): map<u32, Book>
    requires h.tid in w.threads
  {
    var t := w.threads[h.tid];
    if !Roomy(w.maps, h.tid) || (h.baseline.Some? && Fits(w, h)) then w.books
    else Lose(w.books, t.tgid, Gap(t), t.cut.Some?)
  }

  /** The baseline becomes the handler's reading. */
  function MoveBaselineStep(w: World, cpu: u32): World
    requires cpu in w.handlers && w.handlers[cpu].tid in w.threads
  {
    var h := w.handlers[cpu];
    w.(maps := Rebase(w.maps, h.tid, h.runtime),
       handlers := w.handlers[cpu := h.(phase := Rebased)],
       threads := w.threads[h.tid := MovedThread(w.threads[h.tid], Roomy(w.maps, h.tid))],
       books := MovedBooks(w, h))
  }

  function CreditStep(w: World, cpu: u32): World
    requires cpu in w.handlers
  {
    var h := w.handlers[cpu];
    var w1 := w.(handlers := w.handlers[cpu := h.(phase := Credited)]);
    if !Fits(w, h) then w1
    else w1.(maps := AddRuntime(w.maps, h.tgid, Delta(h.baseline, h.runtime)),
             books := Earn(w.books, h.tgid, Delta(h.baseline, h.runtime)))
  }

  function SwitchOutStep(w: World, cpu: u32, state: TaskState): World
    requires cpu in w.handlers
  {
    var h := w.handlers[cpu];
    w.(maps := if Fits(w, h) then MarkOut(w.maps, h.tgid, state) else w.maps,
       handlers := w.handlers - {cpu})
  }

  /** A new incarnation's book is opened with whatever its threads have pending. */
  ghost function Opened(books: map<u32, Book>, threads: map<u32, Thread>, g: u32): map<u32, Book> {
    books[g := Book(Pending(threads, g), 0, 0, 0, 0)]
  }

  ghost function ForkStep(w: World, now: u64, child: Task): World {
    var maps := Forked(w.maps, now, child);
    var threads := w.threads[child.pid := Newborn(child.tgid)];
    var created := child.pid == child.tgid && child.tgid in maps.procs;
    w.(maps := maps, clock := now, threads := threads,
       born := if created then w.born[child.tgid := w.births] else w.born,
       births := if created then w.births + 1 else w.births,
       books := if created then Opened(w.books, threads, child.tgid) else w.books)
  }

  /** The baseline the exit hook deletes is remembered with the thread. */
  function ExitStep(w: World, task: Task): World
    requires task.pid in w.threads
  {
    var t := w.threads[task.pid];
    w.(maps := Exited(w.maps, task),
       threads := w.threads[task.pid := t.(exited := true, away := false,
                                           cut := Lookup(w.maps.threads, task.pid))])
  }

  function ReleaseStep(w: World, tid: u32): World
    requires tid in w.threads
  {
    w.(threads := w.threads - {tid},
       books := Lose(w.books, w.threads[tid].tgid, Gap(w.threads[tid]), false))
  }

  /** The iterator's first baseline for the thread; the time before it is lost. */
  predicate FirstBaseline(m: Maps, tid: u32) { tid !in m.threads && |m.threads| < MAX_THREADS }

  function IteratedThreads(w: World, tid: u32): map<u32, Thread>
    requires tid in w.threads
  {
    if FirstBaseline(w.maps, tid) then w.threads[tid := Settled(w.threads[tid])] else w.threads
  }

  function IteratedBooks(w: World, tid: u32): map<u32, Book>
    requires tid in w.threads
  {
    var t := w.threads[tid];
    if FirstBaseline(w.maps, tid) then Lose(w.books, t.tgid, Gap(t), t.cut.Some?) else w.books
  }

  ghost function IterateStep(w: World, now: u64, task: Task): World
    requires task.pid in w.threads
  {
    var maps := Dumped(w.maps, now, task);
    var threads := IteratedThreads(w, task.pid);
    var created := task.tgid !in w.maps.procs && task.tgid in maps.procs;
    w.(maps := maps, clock := now, threads := threads,
       born := if created then w.born[task.tgid := w.births] else w.born,
       births := if created then w.births + 1 else w.births,
       books := if created then Opened(IteratedBooks(w, task.pid), threads, task.tgid) else IteratedBooks(w, task.pid))
  }

  function Restrict<V>(m: map<u32, V>, keys: set<u32>): map<u32, V> { map g | g in m && g in keys :: m[g] }

  function TickStep(w: World, now: u64, interval: u64, live: map<u32, Task>): World {
    var maps := Reaped(w.maps, Deadline(now, interval), live);
    w.(maps := maps, clock := now,
       born := Restrict(w.born, maps.procs.Keys),
       books := Restrict(w.books, maps.procs.Keys))
  }

  /** An event that is not enabled does not happen. */
  ghost function Step(w: World, e: Event): World {
    if !Enabled(w, e) then w
    else match e
      case Run(tid, ns) => RunStep(w, tid, ns)
      case Look(cpu, tid) => LookStep(w, cpu, tid)
      case MoveBaseline(cpu) => MoveBaselineStep(w, cpu)
      case Credit(cpu) => CreditStep(w, cpu)
      case SwitchOut(cpu, state) => SwitchOutStep(w, cpu, state)
      case SwitchIn(tgid, now, cpu) => w.(maps := MarkIn(w.maps, tgid, now, cpu), clock := now)
      case Fork(now, child) => ForkStep(w, now, child)
      case Exec(task) => w.(maps := Execed(w.maps, task))
      case Exit(task) => ExitStep(w, task)
      case Release(tid) => ReleaseStep(w, tid)
      case Iterate(now, task) => IterateStep(w, now, task)
      case Tick(now, interval, live) => TickStep(w, now, interval, live)
  }

  ghost function After(w: World, events: seq<Event>): World
    decreases |events|
  {
    if events == [] then w
    else Step(After(w, events[..|events| - 1]), events[|events| - 1])
  }

  /** When the four hooks have just been attached: threads exist, nothing is recorded. */
  ghost predicate Boot(w: World) {
    && w.maps == Maps(map[], map[]) && w.handlers == map[] && w.born == map[] && w.books == map[]
    && 0 !in w.threads
    && (forall t | t in w.threads :: w.threads[t].point == w.threads[t].ran && w.threads[t].cut.None?)
  }

  // ---- Structure ----

  ghost predicate ThreadOk(threads: map<u32, Thread>, base: map<u32, u64>, tid: u32)
    requires tid in threads
  {
    && tid != 0
    && threads[tid].point <= threads[tid].ran
    && (tid in base ==> base[tid] == threads[tid].point && threads[tid].cut.None?)
    && (tid in base && threads[tid].away ==> threads[tid].point == threads[tid].ran)
    && (threads[tid].cut.Some? ==> threads[tid].exited && threads[tid].cut.value == threads[tid].point)
  }

  /** Every recorded baseline of a live thread is the reading accounted for, and not in its future; it
      is the present reading while the thread is switched out.  So is, after the exit hook, the
      baseline it deleted.  (Ids without an owner may keep stale baselines.) */
  ghost predicate ThreadsOk(threads: map<u32, Thread>, base: map<u32, u64>) {
    forall t | t in threads :: ThreadOk(threads, base, t)
  }

  ghost predicate HandlerOk(h: Handler, threads: map<u32, Thread>, base: map<u32, u64>, births: nat) {
    && h.tid in threads
    && threads[h.tid].tgid == h.tgid
    && threads[h.tid].ran == h.runtime
    && (h.entry.Some? ==> h.entry.value < births)
    && (h.baseline.Some? ==> h.baseline.value <= h.runtime)
    && (h.phase.Looked? && h.baseline.Some? ==>
          h.tid in base && h.baseline.value == threads[h.tid].point)
  }

  ghost predicate HandlersOk(hs: map<u32, Handler>, threads: map<u32, Thread>, base: map<u32, u64>, births: nat) {
    && (forall c | c in hs :: HandlerOk(hs[c], threads, base, births))
    && (forall c, d | c in hs && d in hs && c != d :: hs[c].tid != hs[d].tid)
  }

  /** Births, books and entries go together. */
  ghost predicate Registered(born: map<u32, nat>, books: map<u32, Book>, keys: set<u32>, births: nat) {
    && born.Keys == books.Keys == keys
    && (forall g | g in born :: born[g] < births)
  }

  ghost predicate Structure(w: World) {
    && MapsOk(w.maps, w.clock)
    && Registered(w.born, w.books, w.maps.procs.Keys, w.births)
    && ThreadsOk(w.threads, w.maps.threads)
    && HandlersOk(w.handlers, w.threads, w.maps.threads, w.births)
  }
}
