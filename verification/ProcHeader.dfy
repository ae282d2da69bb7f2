/** The readers of the process header: what its snapshots say, and the buffer sized by them. */
module ProcHeader {
  import opened Machine
  import opened Seqlock
  import opened ProcTracker
  import Ledger
  import Incarnations
  import Lifecycle
  import Timestamps

  const SIZE: nat := 3
  const NR_PROCS: nat := 2

  lemma HeaderEffect(m: seq<u64>, now: u64, n: u32)
    requires |m| == SIZE
    ensures var m' := ApplyAll(m, HeaderOps(now, n)); m'[1] == now && m'[NR_PROCS] == n
  {
    HeaderApplied(m, now, n);
    var stored := Apply(Apply(Apply(m, Begin), Store(1, now)), Store(2, n));
    assert stored[1] == now && stored[NR_PROCS] == n;
  }

  lemma HeaderIsSection(now: u64, n: u32)
    ensures IsSection(HeaderOps(now, n), SIZE)
  {
    assert HeaderOps(now, n)[1..] == [Store(1, now), Store(2, n), End];
    assert [Store(1, now), Store(2, n), End][1..] == [Store(2, n), End];
    assert [Store(2, n), End][1..] == [End];
    assert [End][1..] == [];
    assert Disciplined([End], SIZE, true);
    assert Disciplined([Store(2, n), End], SIZE, true);
    assert Disciplined([Store(1, now), Store(2, n), End], SIZE, true);
  }

  /** It is stamped with the time the callback read. */
  lemma HeaderStamped(now: u64, n: u32)
    ensures Timestamps.Stamped(HeaderOps(now, n), SIZE, now)
  {
    forall m: seq<u64> | |m| == SIZE ensures ApplyAll(m, HeaderOps(now, n))[1] == now {
      HeaderEffect(m, now, n);
    }
  }

  // ---- The sections of a run of the tracker ----

  /** `ctx.count - ctx.reaped`, as `Tracker.ReapPass` has it. */
  function CountOf(m: Maps): u32 { Wrap32(|m.procs|) }

  ghost function SectionAt(w: Ledger.World, e: Ledger.Event): seq<seq<Op>> {
    if e.Tick? && Ledger.Enabled(w, e) then [HeaderOps(e.now, CountOf(Ledger.Step(w, e).maps))] else []
  }

  /** The header sections that the ticks of the run write, in order. */
  ghost function Sections(boot: Ledger.World, run: seq<Ledger.Event>): seq<seq<Op>>
    decreases |run|
  {
    if run == [] then []
    else
      var before := run[..|run| - 1];
      Sections(boot, before) + SectionAt(Ledger.After(boot, before), run[|run| - 1])
  }

  /** The header holds what the tick at k wrote: its time, and the size of the map it left. */
  ghost predicate WrittenBy(m: seq<u64>, boot: Ledger.World, run: seq<Ledger.Event>, k: nat) {
    && |m| == SIZE && k < |run| && run[k].Tick?
    && m[1] == run[k].now
    && m[NR_PROCS] == |Ledger.After(boot, run[..k + 1]).maps.procs| <= MAX_PROCS
  }

  ghost predicate Genuine(m: seq<u64>, boot: Ledger.World, run: seq<Ledger.Event>) {
    |m| == SIZE && (m[1] == m[NR_PROCS] == 0 || exists k: nat :: WrittenBy(m, boot, run, k))
  }

  lemma CountIsSize(boot: Ledger.World, run: seq<Ledger.Event>)
    requires Ledger.Boot(boot)
    ensures CountOf(Ledger.After(boot, run).maps) == |Ledger.After(boot, run).maps.procs| <= MAX_PROCS
  {
    Incarnations.BootAccounts(boot);
    Incarnations.AlwaysAccounted(boot, run);
    CountInRange(Ledger.After(boot, run).maps, Ledger.After(boot, run).clock);
  }

  lemma CountInRange(m: Maps, clock: u64)
    requires MapsOk(m, clock)
    ensures CountOf(m) == |m.procs| <= MAX_PROCS
  {
  }

  /** Section s of the run comes from some tick k of it. */
  lemma {:induction false} SectionOfTick(boot: Ledger.World, run: seq<Ledger.Event>, s: nat) returns (k: nat)
    requires Ledger.Boot(boot) && s < |Sections(boot, run)|
    ensures k < |run| && run[k].Tick?
    ensures Sections(boot, run)[s] == HeaderOps(run[k].now, CountOf(Ledger.After(boot, run[..k + 1]).maps))
    decreases |run|
  {
    var n := |run| - 1;
    if s < |Sections(boot, run[..n])| {
      k := SectionOfTick(boot, run[..n], s);
      assert run[..n][..k + 1] == run[..k + 1];
    } else {
      k := n;
      assert run[..n + 1] == run;
    }
  }

  lemma SectionGenuine(boot: Ledger.World, run: seq<Ledger.Event>, s: nat, m: seq<u64>)
    requires Ledger.Boot(boot) && s < |Sections(boot, run)| && |m| == SIZE
    ensures Genuine(ApplyAll(m, Sections(boot, run)[s]), boot, run)
  {
    var k := SectionOfTick(boot, run, s);
    HeaderEffect(m, run[k].now, CountOf(Ledger.After(boot, run[..k + 1]).maps));
    CountIsSize(boot, run[..k + 1]);
    assert WrittenBy(ApplyAll(m, Sections(boot, run)[s]), boot, run, k);
  }

  // ---- What readers see ----

  ghost function FromRun(boot: Ledger.World, run: seq<Ledger.Event>): seq<u64> -> bool {
    m => Genuine(m, boot, run)
  }

  lemma {:induction false} HeadersRespect(mem: seq<u64>, events: seq<Event>, boot: Ledger.World, run: seq<Ledger.Event>)
    requires |mem| == SIZE && Ledger.Boot(boot) && Timestamps.Fired(events) <= Sections(boot, run)
    ensures FiresRespect(mem, events, Establishes(FromRun(boot, run)))
    decreases |events|
  {
    if events != [] {
      var before, e := events[..|events| - 1], events[|events| - 1];
      HeadersRespect(mem, before, boot, run);
      if e.Fire? {
        assert Timestamps.Fired(events)[|Timestamps.Fired(before)|] == e.section;
        SectionGenuine(boot, run, |Timestamps.Fired(before)|, Run(mem, before).w.mem);
        assert FromRun(boot, run)(ApplyAll(Run(mem, before).w.mem, e.section));
      }
    }
  }

  /** Every header snapshot any reader returns, in any interleaving with the timer, is still unwritten
      or what one tick of the tracker's run wrote: its count is the size of the map that tick left. */
  lemma {:induction false} HeaderCountsMap(events: seq<Event>, i: nat, boot: Ledger.World, run: seq<Ledger.Event>)
    requires Ledger.Boot(boot) && Timestamps.Fired(events) <= Sections(boot, run)
    requires i < |Run([0, 0, 0], events).returned|
    requires var s := Run([0, 0, 0], events).returned[i]; s.last < s.first + TWO64
    ensures Genuine(Run([0, 0, 0], events).returned[i].data, boot, run)
  {
    HeadersRespect([0, 0, 0], events, boot, run);
    assert FromRun(boot, run)([0, 0, 0]);
    SnapshotsSatisfy([0, 0, 0], events, FromRun(boot, run), i);
  }

  /** Hence no reader ever sees a count above the map's capacity. */
  predicate Bounded(m: seq<u64>) { |m| == 3 && m[2] <= 8192 }

  lemma HeaderCountBounded(events: seq<Event>, i: nat, boot: Ledger.World, run: seq<Ledger.Event>)
    requires Ledger.Boot(boot) && Timestamps.Fired(events) <= Sections(boot, run)
    requires i < |Run([0, 0, 0], events).returned|
    requires var s := Run([0, 0, 0], events).returned[i]; s.last < s.first + TWO64
    ensures Bounded(Run([0, 0, 0], events).returned[i].data)
  {
    HeaderCountsMap(events, i, boot, run);
  }

  // ---- The header's clock ----

  lemma {:induction false} SectionTimes(boot: Ledger.World, run: seq<Ledger.Event>) returns (times: seq<u64>)
    ensures Timestamps.Timed(Sections(boot, run), times, SIZE, Ledger.After(boot, run).clock)
    decreases |run|
  {
    if run == [] {
      times := [];
    } else {
      var w, e := Ledger.After(boot, run[..|run| - 1]), run[|run| - 1];
      times := SectionTimes(boot, run[..|run| - 1]);
      times := TimesAfter(w, e, Sections(boot, run[..|run| - 1]), times);
    }
  }

  lemma TimesAfter(w: Ledger.World, e: Ledger.Event, sections: seq<seq<Op>>, before: seq<u64>) returns (times: seq<u64>)
    requires Timestamps.Timed(sections, before, SIZE, w.clock)
    ensures Timestamps.Timed(sections + SectionAt(w, e), times, SIZE, Ledger.Step(w, e).clock)
  {
    Lifecycle.ClockStep(w, e);
    times := before;
    if SectionAt(w, e) != [] {
      times := before + [e.now];
      HeaderStamped(e.now, CountOf(Ledger.Step(w, e).maps));
      TimedLater(sections, before, w.clock, SectionAt(w, e)[0], e.now);
    } else {
      assert sections + SectionAt(w, e) == sections;
    }
  }

  lemma TimedLater(sections: seq<seq<Op>>, times: seq<u64>, clock: u64, section: seq<Op>, now: u64)
    requires Timestamps.Timed(sections, times, SIZE, clock) && clock <= now
    requires Timestamps.Stamped(section, SIZE, now)
    ensures Timestamps.Timed(sections + [section], times + [now], SIZE, now)
  {
  }

  lemma HeaderOnClock(events: seq<Event>, boot: Ledger.World, run: seq<Ledger.Event>) returns (now: u64)
    requires Timestamps.Fired(events) <= Sections(boot, run)
    ensures Timestamps.OnClock(events, SIZE, now)
  {
    var times := SectionTimes(boot, run);
    var sections, n := Sections(boot, run), |Timestamps.Fired(events)|;
    now := if n < |sections| then times[n] else Ledger.After(boot, run).clock;
    Timestamps.TimedFirst(sections, times, SIZE, Ledger.After(boot, run).clock, n, now);
    assert sections[..n] == Timestamps.Fired(events);
  }

  /** One reader's header snapshots never go back in time, over any run of the tracker. */
  lemma HeaderTimeAdvances(events: seq<Event>, i: nat, j: nat, boot: Ledger.World, run: seq<Ledger.Event>)
    requires Timestamps.Fired(events) <= Sections(boot, run)
    requires i < j < |Run([0, 0, 0], events).returned|
    requires var r := Run([0, 0, 0], events).returned;
             && r[i].reader == r[j].reader
             && r[i].last < r[i].first + TWO64 && r[j].last < r[j].first + TWO64
    ensures var r := Run([0, 0, 0], events).returned;
            |r[i].data| == |r[j].data| == SIZE && r[i].data[1] <= r[j].data[1]
  {
    var now := HeaderOnClock(events, boot, run);
    Timestamps.ReadersSeeTimeAdvance([0, 0, 0], events, now, i, j);
  }

  // ---- The buffer sized by the header ----

  /** `hdr.nr_procs > 0 ? hdr.nr_procs + 64 : 1024`, where the sum is one of 32-bit words. */
  function InitialCapacity(nrProcs: u32): nat {
    if nrProcs > 0 then Wrap32(nrProcs as int + 64) else 1024
  }

  /** The one count that would leave a buffer that doubling can never grow. */
  lemma CapacityPositiveExactly(nrProcs: u32)
    ensures InitialCapacity(nrProcs) > 0 <==> nrProcs != 0xFFFF_FFC0
  {
    assert nrProcs as int + 64 < TWO32 + 64;
  }

  lemma CapacityUnwrapped(nrProcs: u32)
    requires nrProcs <= 8192
    ensures InitialCapacity(nrProcs) == if nrProcs == 0 then 1024 else nrProcs + 64
  {
  }

  /** It is never published, so the reader's buffer starts with room for the counted entries and 64 more, or for
      1024 where nothing was counted. */
  lemma InitialCapacityPositive(events: seq<Event>, i: nat, boot: Ledger.World, run: seq<Ledger.Event>)
    requires Ledger.Boot(boot) && Timestamps.Fired(events) <= Sections(boot, run)
    requires i < |Run([0, 0, 0], events).returned|
    requires var s := Run([0, 0, 0], events).returned[i]; s.last < s.first + TWO64
    ensures Bounded(Run([0, 0, 0], events).returned[i].data)
    ensures var nr := Run([0, 0, 0], events).returned[i].data[NR_PROCS];
            InitialCapacity(nr) == (if nr == 0 then 1024 else nr + 64)
  {
    HeaderCountBounded(events, i, boot, run);
    CapacityUnwrapped(Run([0, 0, 0], events).returned[i].data[NR_PROCS]);
  }
}
