/** What a monotone clock at the timers means for the timestamps their readers see. */
module Timestamps {
  import opened Machine
  import opened Seqlock
  import CpuCollector

  /** The section leaves `now` in word 1, whatever it finds in memory. */
  ghost predicate Stamped(section: seq<Op>, size: nat, now: u64) {
    forall m: seq<u64> | |m| == size > 1 :: ApplyAll(m, section)[1] == now
  }

  /** Section k carries time k; the times do not go back and do not pass `clock`. */
  ghost predicate Timed(sections: seq<seq<Op>>, times: seq<u64>, size: nat, clock: u64) {
    && |sections| == |times|
    && (forall k | 0 <= k < |times| :: Stamped(sections[k], size, times[k]) && times[k] <= clock)
    && (forall j, k | 0 <= j < k < |times| :: times[j] <= times[k])
  }

  /** The sections a timer fires in a run, in order. */
  function Fired(events: seq<Event>): seq<seq<Op>> {
    if events == [] then []
    else
      var e := events[|events| - 1];
      Fired(events[..|events| - 1]) + (if e.Fire? then [e.section] else [])
  }

  /** Every section fired carries a time at or after those fired before it, up to `clock`. */
  ghost predicate OnClock(events: seq<Event>, size: nat, clock: u64) {
    exists times :: Timed(Fired(events), times, size, clock)
  }

  lemma LastFire(events: seq<Event>, size: nat, clock: u64) returns (now: u64)
    requires events != [] && events[|events| - 1].Fire? && OnClock(events, size, clock)
    ensures now <= clock && Stamped(events[|events| - 1].section, size, now)
    ensures OnClock(events[..|events| - 1], size, now)
  {
    var before, section := Fired(events[..|events| - 1]), events[|events| - 1].section;
    var times :| Timed(Fired(events), times, size, clock);
    assert Fired(events) == before + [section];
    now := times[|before|];
    assert Stamped(Fired(events)[|before|], size, now);
    TimedFirst(Fired(events), times, size, clock, |before|, now);
    assert Fired(events)[..|before|] == before;
  }

  /** A first part of timed sections is timed, up to any time that its own times do not pass. */
  lemma TimedFirst(sections: seq<seq<Op>>, times: seq<u64>, size: nat, clock: u64, n: nat, now: u64)
    requires Timed(sections, times, size, clock) && n <= |sections|
    requires n < |sections| ==> now == times[n]
    requires n == |sections| ==> now == clock
    ensures Timed(sections[..n], times[..n], size, now)
  {
    forall k | 0 <= k < n ensures Stamped(sections[..n][k], size, times[..n][k]) {
      assert Stamped(sections[k], size, times[k]);
    }
  }

  lemma NoFire(events: seq<Event>, size: nat, clock: u64)
    requires events != [] && !events[|events| - 1].Fire? && OnClock(events, size, clock)
    ensures OnClock(events[..|events| - 1], size, clock)
  {
    assert Fired(events) == Fired(events[..|events| - 1]);
  }

  /** The timestamp in memory once the open section, if any, is finished. */
  function Finished(w: Writer): u64
    requires |w.mem| > 1
  {
    ApplyAll(w.mem, w.todo)[1]
  }

  lemma FinishedKept(s: System, e: Event)
    requires |s.w.mem| > 1
    requires !(e.Fire? && Enabled(s, e))
    ensures Finished(Step(s, e).w) == Finished(s.w)
  {
  }

  lemma {:induction false} ClockRespected(mem: seq<u64>, events: seq<Event>, clock: u64)
    requires |mem| > 1 && mem[1] == 0 && OnClock(events, |mem|, clock)
    ensures FiresRespect(mem, events, ClockForward())
    ensures Finished(Run(mem, events).w) <= clock
    decreases |events|
  {
    if events != [] {
      var before, e := events[..|events| - 1], events[|events| - 1];
      if e.Fire? {
        var now := LastFire(events, |mem|, clock);
        ClockRespected(mem, before, now);
        FireRespects(Run(mem, before), e, now);
      } else {
        NoFire(events, |mem|, clock);
        ClockRespected(mem, before, clock);
        FinishedKept(Run(mem, before), e);
      }
    }
  }

  lemma FireRespects(s: System, e: Event, now: u64)
    requires |s.w.mem| > 1 && e.Fire? && Finished(s.w) <= now && Stamped(e.section, |s.w.mem|, now)
    ensures Finished(Step(s, e).w) <= now
    ensures Enabled(s, e) ==> ClockForward()(s.w.mem, ApplyAll(s.w.mem, e.section))
  {
    assert ApplyAll(s.w.mem, e.section)[1] == now;
    if !Enabled(s, e) {
      FinishedKept(s, e);
    }
  }

  /** With a monotone clock, one reader's snapshots never go back in time. */
  lemma ReadersSeeTimeAdvance(mem: seq<u64>, events: seq<Event>, clock: u64, i: nat, j: nat)
    requires |mem| > 1 && mem[0] == mem[1] == 0 && OnClock(events, |mem|, clock)
    requires i < j < |Run(mem, events).returned|
    requires var r := Run(mem, events).returned;
             && r[i].reader == r[j].reader
             && r[i].last < r[i].first + TWO64 && r[j].last < r[j].first + TWO64
    ensures var r := Run(mem, events).returned;
            |r[i].data| == |r[j].data| == |mem| && r[i].data[1] <= r[j].data[1]
  {
    ClockRespected(mem, events, clock);
    TimestampsNeverGoBack(mem, events, i, j);
  }

  /** The CPU collector's section is stamped with the time its callback read. */
  lemma CollectStamped(now: u64, cpus: CpuCollector.Samples)
    ensures Stamped(CpuCollector.CollectOps(now, cpus), CpuCollector.SIZE, now)
  {
    forall m: seq<u64> | |m| == CpuCollector.SIZE
      ensures ApplyAll(m, CpuCollector.CollectOps(now, cpus))[1] == now
    {
      CpuCollector.CollectMeaning(m, now, cpus);
    }
  }

  ghost predicate PassAt(section: seq<Op>, now: u64) { exists cpus :: section == CpuCollector.CollectOps(now, cpus) }

  /** The timer's sections are CPU passes that read a monotone clock. */
  ghost predicate TimedPasses(sections: seq<seq<Op>>, times: seq<u64>) {
    && |sections| == |times|
    && (forall k | 0 <= k < |sections| :: PassAt(sections[k], times[k]))
    && (forall j, k | 0 <= j < k < |times| :: times[j] <= times[k])
  }

  lemma PassesTimed(sections: seq<seq<Op>>, times: seq<u64>)
    requires TimedPasses(sections, times)
    ensures Timed(sections, times, CpuCollector.SIZE, if times == [] then 0 else times[|times| - 1])
  {
    forall k | 0 <= k < |times| ensures Stamped(sections[k], CpuCollector.SIZE, times[k]) {
      assert PassAt(sections[k], times[k]);
      var cpus :| sections[k] == CpuCollector.CollectOps(times[k], cpus);
      CollectStamped(times[k], cpus);
    }
  }

  /** End to end for the CPU collector: the timer's passes read a monotone clock, so no reader's
      snapshots ever go back in time. */
  lemma CpuTimeAdvances(events: seq<Event>, times: seq<u64>, i: nat, j: nat)
    requires TimedPasses(Fired(events), times)
    requires i < j < |Run(CpuCollector.Zeroed(), events).returned|
    requires var r := Run(CpuCollector.Zeroed(), events).returned;
             && r[i].reader == r[j].reader
             && r[i].last < r[i].first + TWO64 && r[j].last < r[j].first + TWO64
    ensures var r := Run(CpuCollector.Zeroed(), events).returned;
            |r[i].data| == |r[j].data| == CpuCollector.SIZE && r[i].data[1] <= r[j].data[1]
  {
    PassesTimed(Fired(events), times);
    ReadersSeeTimeAdvance(CpuCollector.Zeroed(), events, if times == [] then 0 else times[|times| - 1], i, j);
  }
}
