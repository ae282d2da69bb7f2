/**
 What a run says by itself: the time threads ran, the advances of baselines, and the slices between a
 baseline deleted at an exit and the next reading recorded.  All are read off the events and the maps
 before and after them, not off the books, and the books are then shown to agree.
 */
module RunHistory {
  import opened Machine
  import opened ProcTracker
  import opened Sums
  import opened Ledger
  import opened LedgerProofs
  import opened Incarnations

  // ---- Time run ----

  ghost function RanAt(w: World, e: Event, g: u32): nat {
    if e.Run? && Enabled(w, e) && w.threads[e.tid].tgid == g then e.ns else 0
  }

  ghost function RanBy(w: World, events: seq<Event>, g: u32): nat
    decreases |events|
  {
    if events == [] then 0
    else
      var before := events[..|events| - 1];
      RanBy(w, before, g) + RanAt(After(w, before), events[|events| - 1], g)
  }

  // ---- Recorded advances ----

  /** By how much a switch hook moves a stored baseline of a thread of g, if the entry the hook found
      is still there. */
  ghost function AdvanceAt(w: World, e: Event, g: u32): int {
    if !e.MoveBaseline? || !Enabled(w, e) then 0
    else
      var h := w.handlers[e.cpu];
      if h.tgid == g && h.baseline.Some? && Fits(w, h) && h.tid in w.maps.threads
      then Step(w, e).maps.threads[h.tid] as int - w.maps.threads[h.tid]
      else 0
  }

  /** The advances taken since the present entry of g was made. */
  ghost function Recorded(w: World, events: seq<Event>, g: u32): int
    decreases |events|
  {
    if events == [] then 0
    else
      var before := events[..|events| - 1];
      if Stays(After(w, before), After(w, events), g)
      then Recorded(w, before, g) + AdvanceAt(After(w, before), events[|events| - 1], g)
      else 0
  }

  // ---- Slices at exits ----

  /** From the baseline that a thread's exit hook deleted to the next reading recorded for it. */
  datatype Slice = Slice(tid: u32, deleted: u64, recorded: u64)

  ghost function Length(slices: seq<Slice>): int {
    if slices == [] then 0
    else
      var s := slices[|slices| - 1];
      Length(slices[..|slices| - 1]) + (s.recorded as int - s.deleted)
  }

  /** The event records a reading of this thread, if it finds room. */
  function Reads(w: World, e: Event): Option<u32> {
    match e
    case MoveBaseline(cpu) => if cpu in w.handlers then Some(w.handlers[cpu].tid) else None
    case Iterate(_, task) => Some(task.pid)
    case _ => None
  }

  ghost function SliceAt(w: World, e: Event, g: u32): seq<Slice> {
    if !Enabled(w, e) || Reads(w, e).None? then []
    else
      var tid := Reads(w, e).value;
      if tid in w.threads && w.threads[tid].tgid == g && w.threads[tid].cut.Some? && tid in Step(w, e).maps.threads
      then [Slice(tid, w.threads[tid].cut.value, Step(w, e).maps.threads[tid])]
      else []
  }

  ghost function ExitSlices(w: World, events: seq<Event>, g: u32): seq<Slice>
    decreases |events|
  {
    if events == [] then []
    else
      var before := events[..|events| - 1];
      ExitSlices(w, before, g) + SliceAt(After(w, before), events[|events| - 1], g)
  }

  /** How many exit hooks of g's threads found a baseline to delete. */
  ghost function ExitAt(w: World, e: Event, g: u32): nat {
    if e.Exit? && Enabled(w, e) && e.task.tgid == g && e.task.pid in w.maps.threads then 1 else 0
  }

  ghost function Exits(w: World, events: seq<Event>, g: u32): nat
    decreases |events|
  {
    if events == [] then 0
    else
      var before := events[..|events| - 1];
      Exits(w, before, g) + ExitAt(After(w, before), events[|events| - 1], g)
  }

  // ---- What one event does to one book ----

  ghost function BookAt(w: World, e: Event, g: u32): Book
    requires Enabled(w, e) && g in w.books
  {
    match e
    case Run(tid, ns) => Ran(w.books, w.threads[tid].tgid, ns)[g]
    case MoveBaseline(cpu) => MovedBooks(w, w.handlers[cpu])[g]
    case Credit(cpu) => CreditStep(w, cpu).books[g]
    case Release(tid) => Lose(w.books, w.threads[tid].tgid, Gap(w.threads[tid]), false)[g]
    case Iterate(_, task) => IteratedBooks(w, task.pid)[g]
    case _ => w.books[g]
  }

  lemma BookStep(w: World, e: Event, g: u32)
    requires Registered(w.born, w.books, w.maps.procs.Keys, w.births)
    requires Enabled(w, e) && Stays(w, Step(w, e), g)
    ensures g in w.books && g in Step(w, e).books && Step(w, e).books[g] == BookAt(w, e, g)
  {
    SameIncarnation(w, e, g);
    if e.Fork? {
      SameIncarnationFork(w, e.now, e.child, g);
    } else if e.Iterate? {
      SameIncarnationIterate(w, e.now, e.task, g);
    } else if e.Tick? {
      assert TickStep(w, e.now, e.interval, e.live).books[g] == w.books[g];
    } else {
      BookStepOthers(w, e, g);
    }
  }

  lemma BookStepOthers(w: World, e: Event, g: u32)
    requires Enabled(w, e) && g in w.books && !e.Fork? && !e.Iterate? && !e.Tick?
    ensures g in Step(w, e).books && Step(w, e).books[g] == BookAt(w, e, g)
  {
  }

  lemma RanStep(w: World, e: Event, g: u32)
    requires Registered(w.born, w.books, w.maps.procs.Keys, w.births)
    requires Stays(w, Step(w, e), g)
    ensures g in w.books && g in Step(w, e).books
    ensures Step(w, e).books[g].ran == w.books[g].ran + RanAt(w, e, g)
  {
    if Enabled(w, e) {
      BookStep(w, e, g);
      RanBook(w, e, g);
    }
  }

  lemma RanBook(w: World, e: Event, g: u32)
    requires Enabled(w, e) && g in w.books
    ensures BookAt(w, e, g).ran == w.books[g].ran + RanAt(w, e, g)
  {
    if e.MoveBaseline? {
      assert MovedBooks(w, w.handlers[e.cpu])[g].ran == w.books[g].ran;
    } else if e.Credit? {
      assert CreditStep(w, e.cpu).books[g].ran == w.books[g].ran;
    }
  }

  // ---- Credits are the recorded advances ----

  /** What was taken from baselines for this incarnation: credited, or on its way. */
  ghost function Taken(w: World, g: u32): nat
    requires g in w.books && g in w.born
  {
    w.books[g].credit + InFlight(w.handlers, g, w.born[g])
  }

  /** What one event does to the deltas under way. */
  ghost function FlightAt(w: World, e: Event, g: u32, birth: nat): int
    requires Enabled(w, e)
  {
    match e
    case MoveBaseline(cpu) => FlightOf(g, birth)(w.handlers[cpu].(phase := Rebased))
    case Credit(cpu) => 0 - FlightOf(g, birth)(w.handlers[cpu]) as int
    case _ => 0
  }

  lemma FlightStep(w: World, e: Event, g: u32, birth: nat)
    requires Enabled(w, e)
    ensures InFlight(Step(w, e).handlers, g, birth) == InFlight(w.handlers, g, birth) + FlightAt(w, e, g, birth)
  {
    match e
    case Look(cpu, tid) => FlightSet(w.handlers, cpu, LookStep(w, cpu, tid).handlers[cpu], g, birth);
    case MoveBaseline(cpu) => FlightSet(w.handlers, cpu, w.handlers[cpu].(phase := Rebased), g, birth);
    case Credit(cpu) => FlightSet(w.handlers, cpu, w.handlers[cpu].(phase := Credited), g, birth);
    case SwitchOut(cpu, _) => FlightRemove(w.handlers, cpu, g, birth);
    case Fork(now, child) => assert Step(w, e).handlers == w.handlers;
    case Iterate(now, task) => assert Step(w, e).handlers == w.handlers;
    case _ =>
  }

  lemma TakenStep(w: World, e: Event, g: u32)
    requires Structure(w) && Stays(w, Step(w, e), g)
    ensures g in w.books && g in Step(w, e).books
    ensures Taken(Step(w, e), g) == Taken(w, g) + AdvanceAt(w, e, g)
  {
    if Enabled(w, e) {
      BookStep(w, e, g);
      FlightStep(w, e, g, w.born[g]);
      TakenAt(w, e, g);
    }
  }

  lemma TakenAt(w: World, e: Event, g: u32)
    requires Structure(w) && Enabled(w, e) && g in w.books && g in w.born
    ensures BookAt(w, e, g).credit + FlightAt(w, e, g, w.born[g]) == w.books[g].credit + AdvanceAt(w, e, g)
  {
    if e.MoveBaseline? {
      TakenMoving(w, e.cpu, g);
    } else if e.Credit? {
      TakenCrediting(w, e.cpu, g);
    } else {
      NothingTaken(w, e, g);
    }
  }

  lemma NothingTaken(w: World, e: Event, g: u32)
    requires Enabled(w, e) && g in w.books && !e.MoveBaseline? && !e.Credit?
    ensures BookAt(w, e, g).credit == w.books[g].credit && AdvanceAt(w, e, g) == 0
  {
  }

  lemma TakenCrediting(w: World, cpu: u32, g: u32)
    requires InPhase(w, cpu, Rebased) && g in w.books && g in w.born
    ensures CreditStep(w, cpu).books[g].credit == w.books[g].credit + FlightOf(g, w.born[g])(w.handlers[cpu])
  {
  }

  lemma TakenMoving(w: World, cpu: u32, g: u32)
    requires Structure(w) && InPhase(w, cpu, Looked) && g in w.books && g in w.born
    ensures MovedBooks(w, w.handlers[cpu])[g].credit == w.books[g].credit
    ensures FlightOf(g, w.born[g])(w.handlers[cpu].(phase := Rebased)) == AdvanceAt(w, MoveBaseline(cpu), g)
  {
    assert HandlerOk(w.handlers[cpu], w.threads, w.maps.threads, w.births);
    assert ThreadOk(w.threads, w.maps.threads, w.handlers[cpu].tid);
  }

  lemma TakenNew(w: World, e: Event, g: u32)
    requires Structure(w) && g in Step(w, e).born && !Stays(w, Step(w, e), g)
    ensures g in Step(w, e).books && Taken(Step(w, e), g) == 0
  {
    SameOrNew(w, e, g);
    NoFlightYet(w.handlers, w.threads, w.maps.threads, w.births, g);
    if e.Fork? {
      assert Step(w, e) == ForkStep(w, e.now, e.child);
    } else {
      NewIterated(w, e, g);
    }
  }

  lemma NewIterated(w: World, e: Event, g: u32)
    requires g in Step(w, e).born && !Stays(w, Step(w, e), g) && !e.Fork?
    ensures e.Iterate? && Enabled(w, e) && g in Step(w, e).books
    ensures Step(w, e).handlers == w.handlers && Step(w, e).books[g].credit == 0
  {
    if Enabled(w, e) && e.Iterate? {
      assert Step(w, e) == IterateStep(w, e.now, e.task);
    } else {
      NothingNew(w, e, g);
    }
  }

  lemma NothingNew(w: World, e: Event, g: u32)
    requires g in Step(w, e).born && !(Enabled(w, e) && (e.Fork? || e.Iterate?))
    ensures Stays(w, Step(w, e), g)
  {
  }

  /** For every tracked process, at every moment of every run: credited and on its way together are
      the advances recorded since the entry was made. */
  lemma {:induction false} TakenIsRecorded(w: World, events: seq<Event>, g: u32)
    requires Accounts(w) && w.born == map[] && g in After(w, events).born
    ensures g in After(w, events).books && Taken(After(w, events), g) == Recorded(w, events, g)
    decreases |events|
  {
    if events != [] {
      var before, e := events[..|events| - 1], events[|events| - 1];
      AlwaysAccounted(w, before);
      if Stays(After(w, before), After(w, events), g) {
        TakenIsRecorded(w, before, g);
        TakenStep(After(w, before), e, g);
      } else {
        TakenNew(After(w, before), e, g);
      }
    }
  }

  // ---- Losses at exits are the slices ----

  lemma LossStep(w: World, e: Event, g: u32)
    requires Structure(w) && Stays(w, Step(w, e), g)
    ensures g in w.books && g in Step(w, e).books
    ensures Step(w, e).books[g].lostAtExit == w.books[g].lostAtExit + Length(SliceAt(w, e, g))
  {
    if Enabled(w, e) {
      BookStep(w, e, g);
      LossAt(w, e, g);
    }
  }

  lemma LossAt(w: World, e: Event, g: u32)
    requires Structure(w) && Enabled(w, e) && g in w.books
    ensures BookAt(w, e, g).lostAtExit == w.books[g].lostAtExit + Length(SliceAt(w, e, g))
  {
    if e.MoveBaseline? {
      LossMoving(w, e.cpu, g);
    } else if e.Iterate? {
      LossIterating(w, e.now, e.task, g);
    } else {
      LossElsewhere(w, e, g);
    }
  }

  lemma LossElsewhere(w: World, e: Event, g: u32)
    requires Enabled(w, e) && g in w.books && !e.MoveBaseline? && !e.Iterate?
    ensures BookAt(w, e, g).lostAtExit == w.books[g].lostAtExit && SliceAt(w, e, g) == []
  {
    if e.Credit? {
      assert CreditStep(w, e.cpu).books[g].lostAtExit == w.books[g].lostAtExit;
    }
  }

  lemma LossMoving(w: World, cpu: u32, g: u32)
    requires Structure(w) && InPhase(w, cpu, Looked) && g in w.books
    ensures MovedBooks(w, w.handlers[cpu])[g].lostAtExit
            == w.books[g].lostAtExit + Length(SliceAt(w, MoveBaseline(cpu), g))
  {
    var h := w.handlers[cpu];
    assert HandlerOk(h, w.threads, w.maps.threads, w.births);
    assert ThreadOk(w.threads, w.maps.threads, h.tid);
    if SliceAt(w, MoveBaseline(cpu), g) != [] {
      OneSlice(SliceAt(w, MoveBaseline(cpu), g)[0]);
    }
  }

  lemma SliceIterating(w: World, now: u64, task: Task, g: u32)
    requires Structure(w) && CanIterate(w, now, task)
    ensures var t := w.threads[task.pid];
            SliceAt(w, Iterate(now, task), g)
            == if FirstBaseline(w.maps, task.pid) && t.tgid == g && t.cut.Some?
               then [Slice(task.pid, t.cut.value, t.ran)] else []
  {
    DumpedFrame(w.maps, now, task);
    assert ThreadOk(w.threads, w.maps.threads, task.pid);
    assert Step(w, Iterate(now, task)).maps == Dumped(w.maps, now, task);
  }

  lemma LossIterating(w: World, now: u64, task: Task, g: u32)
    requires Structure(w) && CanIterate(w, now, task) && g in w.books
    ensures IteratedBooks(w, task.pid)[g].lostAtExit
            == w.books[g].lostAtExit + Length(SliceAt(w, Iterate(now, task), g))
  {
    var t := w.threads[task.pid];
    SliceIterating(w, now, task, g);
    assert ThreadOk(w.threads, w.maps.threads, task.pid);
    if t.cut.Some? {
      OneSlice(Slice(task.pid, t.cut.value, t.ran));
    }
  }

  lemma OneSlice(s: Slice)
    ensures Length([s]) == s.recorded as int - s.deleted
  {
    assert [s][..0] == [];
  }

  lemma LengthConcat(a: seq<Slice>, b: seq<Slice>)
    requires |b| <= 1
    ensures Length(a + b) == Length(a) + Length(b)
  {
    if b == [] {
      assert a + b == a;
    } else {
      assert (a + b)[..|a|] == a;
      OneSlice(b[0]);
      assert b == [b[0]];
    }
  }

  /** While an incarnation lasts, the time its book lost at exits is the sum of its exit slices. */
  lemma {:induction false} LossesAreSlices(w: World, events: seq<Event>, g: u32)
    requires Accounts(w) && Stays(w, After(w, events), g)
    ensures g in w.books && g in After(w, events).books
    ensures After(w, events).books[g].lostAtExit == w.books[g].lostAtExit + Length(ExitSlices(w, events, g))
    ensures After(w, events).books[g].ran == w.books[g].ran + RanBy(w, events, g)
    decreases |events|
  {
    if events != [] {
      var before, e := events[..|events| - 1], events[|events| - 1];
      StaysBefore(w, events, g);
      LossesAreSlices(w, before, g);
      LossStep(After(w, before), e, g);
      RanStep(After(w, before), e, g);
      LengthConcat(ExitSlices(w, before, g), SliceAt(After(w, before), e, g));
    }
  }
}
