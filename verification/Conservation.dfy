/** The run-time accounting of the tracker over every run that starts with the hooks attached. */
module Conservation {
  import opened Machine
  import opened ProcTracker
  import opened Sums
  import opened Ledger
  import opened LedgerProofs
  import opened Incarnations
  import opened RunHistory
  import opened Coverage

  // ---- Every tracked process ----

  /** The counter readers see is what has been taken from baselines, less what is on its way, in 64
      bits, and exactly so while the group has run less than 2^64 ns since load. */
  ghost predicate Shown(w: World, taken: int, g: u32) {
    && g in w.born && g in w.maps.procs
    && var inFlight := InFlight(w.handlers, g, w.born[g]);
    && inFlight <= taken <= LifeOf(w.life, g)
    && w.maps.procs[g].cpuRuntimeNs == Wrap64(taken - inFlight)
    && (LifeOf(w.life, g) < TWO64 ==> w.maps.procs[g].cpuRuntimeNs + inFlight == taken)
  }

  lemma CounterShown(w: World, g: u32)
    requires Accounts(w) && g in w.maps.procs
    ensures g in w.books && g in w.born && Shown(w, Taken(w, g), g)
  {
    assert Balanced(w.books[g], InFlight(w.handlers, g, w.born[g]), Pending(w.threads, g));
    CreditBounded(w, g);
    CreditShown(w.maps.procs[g].cpuRuntimeNs, w.books[g].credit, InFlight(w.handlers, g, w.born[g]), LifeOf(w.life, g));
  }

  lemma CreditBounded(w: World, g: u32)
    requires Accounts(w) && g in w.maps.procs
    ensures g in w.books && g in w.born && Taken(w, g) <= LifeOf(w.life, g)
    ensures w.maps.procs[g].cpuRuntimeNs == Wrap64(w.books[g].credit)
  {
    assert Balanced(w.books[g], InFlight(w.handlers, g, w.born[g]), Pending(w.threads, g));
  }

  lemma CreditShown(counter: u64, credit: nat, inFlight: nat, life: nat)
    requires counter == Wrap64(credit) && credit + inFlight <= life
    ensures counter == Wrap64(credit + inFlight - inFlight)
    ensures life < TWO64 ==> counter + inFlight == credit + inFlight
  {
    WrapSmall(credit);
  }

  /** For one tracked process, with the advances of its threads' baselines recorded while its entry
      existed: they are the counter readers see and what is on its way to it, and at most what the
      group has run since load.  Whatever else the threads have run since the entry was made (and what
      was unread then) has been lost or is unread. */
  ghost predicate Conserved(w: World, recorded: int, g: u32) {
    && Shown(w, recorded, g)
    && g in w.books
    && var b := w.books[g];
       recorded + b.lostAtExit + b.lostOtherwise + Pending(w.threads, g) == b.opening + b.ran
  }

  /** Conservation, in every run and every interleaving of switch hooks. */
  lemma {:induction false} RuntimeConserved(boot: World, events: seq<Event>, g: u32)
    requires Boot(boot) && g in After(boot, events).maps.procs
    ensures Conserved(After(boot, events), Recorded(boot, events, g), g)
  {
    BootAccounts(boot);
    AlwaysAccounted(boot, events);
    CounterShown(After(boot, events), g);
    TakenIsRecorded(boot, events, g);
    assert Balanced(After(boot, events).books[g],
                    InFlight(After(boot, events).handlers, g, After(boot, events).born[g]),
                    Pending(After(boot, events).threads, g));
  }

  /** Every live thread's baseline is at most its runtime, whatever stale baselines earlier owners of
      its id have left, and the delta of every hook under way is the true difference. */
  ghost predicate NothingUnderflows(w: World) {
    && (forall t | t in w.threads && t in w.maps.threads :: w.maps.threads[t] <= w.threads[t].ran)
    && (forall c | c in w.handlers && w.handlers[c].baseline.Some? :: TrueDelta(w.handlers[c]))
  }

  ghost predicate TrueDelta(h: Handler)
    requires h.baseline.Some?
  {
    h.baseline.value <= h.runtime && Delta(h.baseline, h.runtime) == h.runtime - h.baseline.value
  }

  lemma StructureNoUnderflow(w: World)
    requires Structure(w)
    ensures NothingUnderflows(w)
  {
    forall t | t in w.threads && t in w.maps.threads ensures w.maps.threads[t] <= w.threads[t].ran {
      assert ThreadOk(w.threads, w.maps.threads, t);
    }
    forall c | c in w.handlers && w.handlers[c].baseline.Some? ensures TrueDelta(w.handlers[c]) {
      assert HandlerOk(w.handlers[c], w.threads, w.maps.threads, w.births);
    }
  }

  /** No delta underflow, ever. */
  lemma {:induction false} NoUnderflow(boot: World, events: seq<Event>)
    requires Boot(boot)
    ensures NothingUnderflows(After(boot, events))
  {
    BootAccounts(boot);
    AlwaysAccounted(boot, events);
    StructureNoUnderflow(After(boot, events));
  }

  /** Only the absence of a key drops credit: a present baseline is overwritten by a fork even when
      the map is full, so a reused id starts at 0 or without a baseline. */
  lemma ForkResets(m: Maps, now: u64, child: Task)
    ensures var base := Forked(m, now, child).threads;
            if child.pid in m.threads || |m.threads| < 16384
            then child.pid in base && base[child.pid] == 0
            else child.pid !in base
  {
    ForkedFrame(m, now, child);
  }

  // ---- Processes that lose only their exit slices ----

  /** Between two looks at one incarnation: what is in the counter or on its way to it, what is still
      to be read, and the exit slices closed in between, came from the first look or were run since. */
  ghost predicate OnlySlicesLost(w: World, w': World, ran: nat, slices: seq<Slice>, g: u32) {
    && g in w.books && g in w.born && g in w'.books && g in w'.born
    && Taken(w', g) + Pending(w'.threads, g) + Length(slices) == Taken(w, g) + Pending(w.threads, g) + ran
  }

  /** A covered process that stays tracked and finds room loses, per exit of a thread, the one slice
      from the baseline deleted at the exit to the next reading recorded, and nothing else: not at
      release, not to a full map, not to a hook that came too early. */
  lemma {:induction false} CoveredLosesSlices(w: World, events: seq<Event>, g: u32)
    requires Accounts(w) && Covered(w, g) && AlwaysRoom(w, events, g) && Stays(w, After(w, events), g)
    ensures OnlySlicesLost(w, After(w, events), RanBy(w, events, g), ExitSlices(w, events, g), g)
    ensures OpenCuts(After(w, events).threads, g) + |ExitSlices(w, events, g)|
            == OpenCuts(w.threads, g) + Exits(w, events, g)
    ensures Covered(After(w, events), g) && Shown(After(w, events), Taken(After(w, events), g), g)
  {
    AlwaysAccounted(w, events);
    BookGrows(w, events, g);
    LossesAreSlices(w, events, g);
    StaysCovered(w, events, g);
    OneSlicePerExit(w, events, g);
    CounterShown(After(w, events), g);
    SlicesAccount(w, After(w, events), RanBy(w, events, g), ExitSlices(w, events, g), g);
  }

  /** Two balances with no other loss between them. */
  lemma SlicesAccount(w: World, w': World, ran: nat, slices: seq<Slice>, g: u32)
    requires Balance(w) && Balance(w') && g in w.books && g in w'.books
    requires w'.books[g].opening == w.books[g].opening && w'.books[g].ran == w.books[g].ran + ran
    requires w'.books[g].lostAtExit == w.books[g].lostAtExit + Length(slices)
    requires w'.books[g].lostOtherwise == w.books[g].lostOtherwise
    ensures OnlySlicesLost(w, w', ran, slices, g)
  {
    assert Balanced(w.books[g], InFlight(w.handlers, g, w.born[g]), Pending(w.threads, g));
    assert Balanced(w'.books[g], InFlight(w'.handlers, g, w'.born[g]), Pending(w'.threads, g));
  }

  /** What is unread of a covered thread's time is what it ran beyond the baseline in the map, or
      beyond the one its exit hook deleted. */
  lemma UnreadBeyondBaseline(w: World, g: u32, tid: u32)
    requires Structure(w) && Covered(w, g) && tid in w.threads && w.threads[tid].tgid == g
    ensures tid in w.maps.threads || w.threads[tid].cut.Some?
    ensures Gap(w.threads[tid])
            == w.threads[tid].ran as int
               - (if tid in w.maps.threads then w.maps.threads[tid] else w.threads[tid].cut.value)
  {
    assert ThreadOk(w.threads, w.maps.threads, tid);
    assert ThreadCovered(w.threads[tid], tid in w.maps.threads);
  }

  /** All the process's threads have run is in the counter, on its way to it or still unread, but for
      one slice per thread exit. */
  ghost predicate AllButSlices(w: World, ran: nat, slices: seq<Slice>, exits: nat, g: u32) {
    && g in w.books && g in w.born
    && Taken(w, g) + Pending(w.threads, g) + Length(slices) == ran
    && OpenCuts(w.threads, g) + |slices| == exits
    && Shown(w, Taken(w, g), g)
  }

  lemma FreshLosesSlices(w: World, events: seq<Event>, g: u32)
    requires Accounts(w) && Fresh(w, g) && AlwaysRoom(w, events, g) && Stays(w, After(w, events), g)
    ensures AllButSlices(After(w, events), RanBy(w, events, g), ExitSlices(w, events, g), Exits(w, events, g), g)
  {
    CoveredLosesSlices(w, events, g);
  }

  /** A process forked after load, with room in both maps, loses only its exit slices. */
  lemma {:induction false} OnlyExitsLose(boot: World, prefix: seq<Event>, now: u64, child: Task, events: seq<Event>)
    requires Boot(boot) && child.pid == child.tgid
    requires CanFork(After(boot, prefix), now, child) && RoomFor(After(boot, prefix).maps, child)
    requires var w := Step(After(boot, prefix), Fork(now, child));
             AlwaysRoom(w, events, child.tgid) && Stays(w, After(w, events), child.tgid)
    ensures var w, g := Step(After(boot, prefix), Fork(now, child)), child.tgid;
            AllButSlices(After(w, events), RanBy(w, events, g), ExitSlices(w, events, g), Exits(w, events, g), g)
  {
    BootAccounts(boot);
    AlwaysAccounted(boot, prefix);
    ForkCovers(After(boot, prefix), now, child);
    AccountsKept(After(boot, prefix), Fork(now, child));
    FreshLosesSlices(Step(After(boot, prefix), Fork(now, child)), events, child.tgid);
  }

  // ---- Two looks at the same counter ----

  ghost function CounterOf(w: World, g: u32): u64 {
    if g in w.maps.procs then w.maps.procs[g].cpuRuntimeNs else 0
  }

  /** g is tracked, as the incarnation born under `birth`, and has run less than 2^64 ns since load. */
  ghost predicate Seen(w: World, g: u32, birth: nat) {
    g in w.born && w.born[g] == birth && LifeOf(w.life, g) < TWO64
  }

  /** One incarnation's counter never goes back between two looks. */
  lemma {:induction false} CounterGrows(w: World, events: seq<Event>, g: u32, birth: nat)
    requires Accounts(w) && Seen(w, g, birth) && Seen(After(w, events), g, birth)
    ensures CounterOf(w, g) <= CounterOf(After(w, events), g)
  {
    AlwaysAccounted(w, events);
    BookGrows(w, events, g);
    CounterShown(w, g);
    CounterShown(After(w, events), g);
  }

  function SaturatingSub(a: u64, b: u64): u64 { if a < b then 0 else a - b }

  /** The deltas a top view computes at successive refreshes, added up. */
  ghost function TotalDelta(w: World, rounds: seq<seq<Event>>, g: u32): nat
    decreases |rounds|
  {
    if rounds == [] then 0
    else SaturatingSub(CounterOf(After(w, rounds[0]), g), CounterOf(w, g))
         + TotalDelta(After(w, rounds[0]), rounds[1..], g)
  }

  ghost function AfterAll(w: World, rounds: seq<seq<Event>>): World
    decreases |rounds|
  {
    if rounds == [] then w else AfterAll(After(w, rounds[0]), rounds[1..])
  }

  ghost predicate SeenEachTime(w: World, rounds: seq<seq<Event>>, g: u32, birth: nat)
    decreases |rounds|
  {
    Seen(w, g, birth) && (rounds != [] ==> SeenEachTime(After(w, rounds[0]), rounds[1..], g, birth))
  }

  /** The saturating subtraction never clips for one incarnation: over any number of refreshes its
      deltas add up to the whole change of the counter. */
  lemma {:induction false} TopDeltasTelescope(w: World, rounds: seq<seq<Event>>, g: u32, birth: nat)
    requires Accounts(w) && SeenEachTime(w, rounds, g, birth)
    ensures CounterOf(w, g) + TotalDelta(w, rounds, g) == CounterOf(AfterAll(w, rounds), g)
    decreases |rounds|
  {
    if rounds != [] {
      CounterGrows(w, rounds[0], g, birth);
      AlwaysAccounted(w, rounds[0]);
      TopDeltasTelescope(After(w, rounds[0]), rounds[1..], g, birth);
    }
  }

  // ---- The switch hook as one piece ----

  /** One switch hook's accesses with nothing in between. */
  ghost function WholeSwitch(w: World, cpu: u32, prev: Task, next: Task, now: u64): World {
    Step(HandlerRun(w, cpu, prev), SwitchIn(next.tgid, now, cpu))
  }

  ghost function HandlerRun(w: World, cpu: u32, prev: Task): World {
    Step(Step(Step(Step(w, Look(cpu, prev.pid)), MoveBaseline(cpu)), Credit(cpu)), SwitchOut(cpu, prev.state))
  }

  ghost predicate SwitchingOut(w: World, cpu: u32, prev: Task) {
    && CanLook(w, cpu, prev.pid)
    && w.threads[prev.pid].tgid == prev.tgid && w.threads[prev.pid].ran == prev.runtime
  }

  lemma LookSummary(w: World, cpu: u32, prev: Task)
    requires SwitchingOut(w, cpu, prev)
    ensures var w1 := Step(w, Look(cpu, prev.pid));
            && InPhase(w1, cpu, Looked) && w1.born == w.born && w1.clock == w.clock && w1.maps == w.maps
            && w1.handlers[cpu] == Handler(prev.pid, prev.tgid, Lookup(w.born, prev.tgid),
                                           Lookup(w.maps.threads, prev.pid), prev.runtime, Looked)
  {
    assert Step(w, Look(cpu, prev.pid)) == LookStep(w, cpu, prev.pid);
  }

  lemma MoveSummary(w: World, cpu: u32)
    requires InPhase(w, cpu, Looked)
    ensures var w1, h := Step(w, MoveBaseline(cpu)), w.handlers[cpu];
            && InPhase(w1, cpu, Rebased) && w1.born == w.born && w1.clock == w.clock
            && w1.handlers[cpu] == h.(phase := Rebased) && w1.maps == Rebase(w.maps, h.tid, h.runtime)
  {
    assert Step(w, MoveBaseline(cpu)) == MoveBaselineStep(w, cpu);
  }

  lemma CreditSummary(w: World, cpu: u32)
    requires InPhase(w, cpu, Rebased)
    ensures var w1, h := Step(w, Credit(cpu)), w.handlers[cpu];
            && InPhase(w1, cpu, Credited) && w1.born == w.born && w1.clock == w.clock
            && w1.handlers[cpu] == h.(phase := Credited)
            && w1.maps == if Fits(w, h) then AddRuntime(w.maps, h.tgid, Delta(h.baseline, h.runtime)) else w.maps
  {
    assert Step(w, Credit(cpu)) == CreditStep(w, cpu);
  }

  lemma OutSummary(w: World, cpu: u32, state: TaskState)
    requires InPhase(w, cpu, Credited)
    ensures var w1, h := Step(w, SwitchOut(cpu, state)), w.handlers[cpu];
            && w1.clock == w.clock
            && w1.maps == if Fits(w, h) then MarkOut(w.maps, h.tgid, state) else w.maps
  {
    assert Step(w, SwitchOut(cpu, state)) == SwitchOutStep(w, cpu, state);
  }

  /** Undisturbed, the interleaved hook does to the maps what the method `SchedSwitch` does. */
  lemma {:induction false} WholeSwitchIsSwitched(w: World, cpu: u32, prev: Task, next: Task, now: u64)
    requires Structure(w) && SwitchingOut(w, cpu, prev) && w.clock <= now
    ensures WholeSwitch(w, cpu, prev, next, now).maps == Switched(w.maps, now, cpu, prev, next)
  {
    var w1 := Step(w, Look(cpu, prev.pid));
    var w2 := Step(w1, MoveBaseline(cpu));
    var w3 := Step(w2, Credit(cpu));
    LookSummary(w, cpu, prev);
    MoveSummary(w1, cpu);
    CreditSummary(w2, cpu);
    OutSummary(w3, cpu, prev.state);
  }
}
