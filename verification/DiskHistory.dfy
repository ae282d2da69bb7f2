/** Whole runs of the disk hooks against the plain history of devices seen and requests completed. */
module DiskHistory {
  import opened Machine
  import opened DiskTracker

  datatype Event = Show(now: u64, gd: Option<Gendisk>) | Complete(now: u64, rq: Request)

  function Step(s: Disks, e: Event): (s': Disks)
    requires Sound(s)
  {
    match e
    case Show(now, gd) => Shown(s, now, gd)
    case Complete(now, rq) => Completed(s, now, rq)
  }

  // ---- The history, with no slots and no words ----

  function DiskOf(e: Event): Option<Gendisk> {
    match e
    case Show(_, gd) => gd
    case Complete(_, rq) => rq.disk
  }

  predicate Concerns(e: Event, key: u64) { DiskOf(e).Some? && KeyOf(DiskOf(e).value) == key }

  /** Devices in the order they were first seen, by either hook. */
  function FirstSeen(events: seq<Event>): seq<u64> {
    if events == [] then []
    else
      var seen, d := FirstSeen(events[..|events| - 1]), DiskOf(events[|events| - 1]);
      if d.None? || KeyOf(d.value) in seen then seen else seen + [KeyOf(d.value)]
  }

  /** The devices that got a slot: the first 64. */
  function Holders(events: seq<Event>): seq<u64> {
    var seen := FirstSeen(events);
    if |seen| <= 64 then seen else seen[..64]
  }

  /** What a device has completed, in unbounded numbers. */
  datatype Io = Io(readIos: nat, readSectors: nat, writeIos: nat, writeSectors: nat)

  /** Odd flags are a write, even ones a read; a sector is 512 bytes. */
  function Tally(io: Io, rq: Request): Io {
    if rq.cmdFlags % 2 == 0
    then io.(readIos := io.readIos + 1, readSectors := io.readSectors + rq.nrBytes / 512)
    else io.(writeIos := io.writeIos + 1, writeSectors := io.writeSectors + rq.nrBytes / 512)
  }

  function History(events: seq<Event>, key: u64): Io {
    if events == [] then Io(0, 0, 0, 0)
    else
      var io, e := History(events[..|events| - 1], key), events[|events| - 1];
      if e.Complete? && Concerns(e, key) then Tally(io, e.rq) else io
  }

  /** A device's name as its first event or its latest diskstats_show gave it. */
  function NameOf(events: seq<Event>, key: u64): string {
    if events == [] then ""
    else
      var before, e := events[..|events| - 1], events[|events| - 1];
      if Concerns(e, key) && (e.Show? || key !in FirstSeen(before)) then DiskOf(e).value.name
      else NameOf(before, key)
  }

  function Words(io: Io): IoWords {
    IoWords(Wrap64(io.readIos), Wrap64(io.readSectors), Wrap64(io.writeIos), Wrap64(io.writeSectors))
  }

  lemma WordsTally(io: Io, rq: Request)
    ensures AddIo(Words(io), IsWrite(rq), Sectors(rq)) == Words(Tally(io, rq))
  {
    WrapAdd(io.writeIos, 1);
    WrapAdd(io.writeSectors, Sectors(rq));
    WrapAdd(io.readIos, 1);
    WrapAdd(io.readSectors, Sectors(rq));
  }

  /** What a holder's slot has to say. */
  function Account(events: seq<Event>, key: u64): DiskStats {
    DiskStats(NameOf(events, key), HighHalf(key), LowHalf(key), Words(History(events, key)))
  }

  /** When a device holding a slot was last seen. */
  function LastTime(events: seq<Event>): u64 {
    if events == [] then 0
    else
      var e := events[|events| - 1];
      if DiskOf(e).Some? && KeyOf(DiskOf(e).value) in Holders(events) then e.now
      else LastTime(events[..|events| - 1])
  }

  // ---- The array is the history, restricted to the holders ----

  ghost predicate Mirrors(s: Disks, events: seq<Event>) {
    var holders := Holders(events);
    && Sound(s)
    && s.next == s.nrDisks == |holders| <= 64
    && s.timestampNs == LastTime(events)
    && (forall k :: k in s.slots <==> k in holders)
    && (forall i | 0 <= i < |holders| :: SlotTells(s, events, holders[i], i))
    && (forall i | |holders| <= i < MAX_DISKS :: s.disks[i] == EMPTY)
  }

  ghost predicate SlotTells(s: Disks, events: seq<Event>, key: u64, i: nat)
    requires |s.disks| == MAX_DISKS
  {
    i < MAX_DISKS && key in s.slots && s.slots[key] == i && s.disks[i] == Account(events, key)
  }

  lemma {:induction false} FirstSeenOnce(events: seq<Event>)
    ensures forall i, j | 0 <= i < j < |FirstSeen(events)| :: FirstSeen(events)[i] != FirstSeen(events)[j]
  {
    if events != [] {
      FirstSeenOnce(events[..|events| - 1]);
    }
  }

  /** An event about no device, or about one without a slot while none is left, leaves everything. */
  lemma {:induction false} IgnoredKeeps(s: Disks, events: seq<Event>, e: Event)
    requires Mirrors(s, events)
    requires DiskOf(e).None? || (KeyOf(DiskOf(e).value) !in Holders(events) && |Holders(events)| == MAX_DISKS)
    ensures Step(s, e) == s && Mirrors(s, events + [e])
  {
    var events' := events + [e];
    assert events'[..|events'| - 1] == events;
    assert Holders(events') == Holders(events);
    forall i | 0 <= i < |Holders(events)| ensures SlotTells(s, events', Holders(events)[i], i) {
      assert SlotTells(s, events, Holders(events)[i], i);
      AccountUnconcerned(events, e, Holders(events)[i]);
    }
  }

  lemma AccountUnconcerned(events: seq<Event>, e: Event, key: u64)
    requires !Concerns(e, key)
    ensures Account(events + [e], key) == Account(events, key)
  {
    assert (events + [e])[..|events + [e]| - 1] == events;
  }

  /** What one event does to the account of the device it concerns. */
  function Told(account: DiskStats, e: Event, isNew: bool): DiskStats
    requires DiskOf(e).Some?
  {
    match e
    case Show(_, _) => account.(name := DiskOf(e).value.name)
    case Complete(_, rq) =>
      (if isNew then account.(name := DiskOf(e).value.name) else account)
      .(io := AddIo(account.io, IsWrite(rq), Sectors(rq)))
  }

  lemma AccountConcerned(events: seq<Event>, e: Event, key: u64)
    requires Concerns(e, key)
    ensures Account(events + [e], key) == Told(Account(events, key), e, key !in FirstSeen(events))
  {
    assert (events + [e])[..|events + [e]| - 1] == events;
    if e.Complete? {
      WordsTally(History(events, key), e.rq);
    }
  }

  lemma {:induction false} AccountUnseen(events: seq<Event>, key: u64)
    requires key !in FirstSeen(events)
    ensures Account(events, key) == DiskStats("", HighHalf(key), LowHalf(key), IoWords(0, 0, 0, 0))
  {
    if events != [] {
      AccountUnseen(events[..|events| - 1], key);
      assert !Concerns(events[|events| - 1], key);
    }
  }

  lemma {:induction false} KnownKeeps(s: Disks, events: seq<Event>, e: Event)
    requires Mirrors(s, events)
    requires DiskOf(e).Some? && KeyOf(DiskOf(e).value) in Holders(events)
    ensures Mirrors(Step(s, e), events + [e])
  {
    var events' := events + [e];
    var d := DiskOf(e).value;
    var s' := Step(s, e);
    var holders := Holders(events);
    assert events'[..|events'| - 1] == events;
    assert Holders(events') == holders;
    var at :| 0 <= at < |holders| && holders[at] == KeyOf(d);
    PackRoundTrip(d.major, d.minor, KeyOf(d));
    AccountConcerned(events, e, KeyOf(d));
    assert SlotTells(s, events, holders[at], at);
    forall i | 0 <= i < |holders| ensures SlotTells(s', events', holders[i], i) {
      assert SlotTells(s, events, holders[i], i);
      if i != at {
        AccountUnconcerned(events, e, holders[i]);
      }
    }
  }

  lemma StepSound(s: Disks, e: Event)
    requires Sound(s)
    ensures Sound(Step(s, e))
  {
    if DiskOf(e).Some? {
      AssignSound(s, DiskOf(e).value);
    }
  }

  predicate IsNew(events: seq<Event>, e: Event) {
    DiskOf(e).Some? && KeyOf(DiskOf(e).value) !in Holders(events) && |Holders(events)| < MAX_DISKS
  }

  lemma NewHolder(events: seq<Event>, e: Event)
    requires IsNew(events, e)
    ensures Holders(events + [e]) == Holders(events) + [KeyOf(DiskOf(e).value)]
  {
    assert (events + [e])[..|events + [e]| - 1] == events;
  }

  lemma NewSlotTells(s: Disks, events: seq<Event>, e: Event)
    requires Mirrors(s, events) && IsNew(events, e)
    ensures SlotTells(Step(s, e), events + [e], KeyOf(DiskOf(e).value), |Holders(events)|)
  {
    var d := DiskOf(e).value;
    PackRoundTrip(d.major, d.minor, KeyOf(d));
    AccountConcerned(events, e, KeyOf(d));
    AccountUnseen(events, KeyOf(d));
    assert s.disks[s.next] == EMPTY;
  }

  lemma OldSlotTells(s: Disks, events: seq<Event>, e: Event, i: nat)
    requires Mirrors(s, events) && IsNew(events, e) && i < |Holders(events)|
    ensures SlotTells(Step(s, e), events + [e], Holders(events)[i], i)
  {
    assert SlotTells(s, events, Holders(events)[i], i);
    AccountUnconcerned(events, e, Holders(events)[i]);
  }

  lemma {:induction false} NewKeeps(s: Disks, events: seq<Event>, e: Event)
    requires Mirrors(s, events) && IsNew(events, e)
    ensures Mirrors(Step(s, e), events + [e])
  {
    var holders, holders' := Holders(events), Holders(events + [e]);
    NewHolder(events, e);
    StepSound(s, e);
    NewSlotTells(s, events, e);
    forall i | 0 <= i < |holders'| ensures SlotTells(Step(s, e), events + [e], holders'[i], i) {
      if i < |holders| {
        OldSlotTells(s, events, e, i);
      }
    }
  }

  lemma StepMirrors(s: Disks, events: seq<Event>, e: Event)
    requires Mirrors(s, events)
    ensures Mirrors(Step(s, e), events + [e])
  {
    if IsNew(events, e) {
      NewKeeps(s, events, e);
    } else if DiskOf(e).Some? && KeyOf(DiskOf(e).value) in Holders(events) {
      KnownKeeps(s, events, e);
    } else {
      IgnoredKeeps(s, events, e);
    }
  }

  function Run(events: seq<Event>): (s: Disks)
    ensures Sound(s)
  {
    if events == [] then Start()
    else
      var s, e := Run(events[..|events| - 1]), events[|events| - 1];
      StepSound(s, e);
      Step(s, e)
  }

  /** In every run of the two hooks the array tells, slot by slot, the history of the first 64
      devices seen, in the order they were seen, and nothing else; `nr_disks` is their number. */
  lemma {:induction false} ArrayMirrorsHistory(events: seq<Event>)
    ensures Mirrors(Run(events), events)
  {
    if events == [] {
      StartMirrors();
    } else {
      var before, e := events[..|events| - 1], events[|events| - 1];
      ArrayMirrorsHistory(before);
      assert before + [e] == events && Run(events) == Step(Run(before), e);
      StepMirrors(Run(before), before, e);
    }
  }

  lemma StartMirrors()
    ensures Mirrors(Start(), [])
  {
    assert Holders([]) == [];
  }

  // ---- What follows for every run ----

  /** Each device keeps its slot: later events only ever append holders. */
  lemma {:induction false} SlotsNeverMove(events: seq<Event>, more: seq<Event>)
    ensures Holders(events) <= Holders(events + more)
    ensures Run(events).slots.Keys <= Run(events + more).slots.Keys
    ensures forall k | k in Run(events).slots :: Run(events + more).slots[k] == Run(events).slots[k]
  {
    HoldersGrow(events, more);
    ArrayMirrorsHistory(events);
    ArrayMirrorsHistory(events + more);
    var before, after := Holders(events), Holders(events + more);
    forall k | k in Run(events).slots
      ensures k in Run(events + more).slots && Run(events + more).slots[k] == Run(events).slots[k]
    {
      var i :| 0 <= i < |before| && before[i] == k;
      assert SlotTells(Run(events), events, before[i], i);
      assert SlotTells(Run(events + more), events + more, after[i], i);
    }
  }

  lemma {:induction false} HoldersGrow(events: seq<Event>, more: seq<Event>)
    ensures FirstSeen(events) <= FirstSeen(events + more)
    ensures Holders(events) <= Holders(events + more)
    decreases |more|
  {
    if more == [] {
      assert events + more == events;
    } else {
      HoldersGrow(events, more[..|more| - 1]);
      assert (events + more)[..|events + more| - 1] == events + more[..|more| - 1];
    }
  }

  ghost predicate Occupied(slots: map<u64, u32>, i: u32) { exists k :: k in slots && slots[k] == i }

  /** The index is a bijection between the devices it holds and the slots [0, next). */
  lemma {:induction false} SlotsBijective(events: seq<Event>)
    ensures var slots := Run(events).slots;
            && (forall j, k | j in slots && k in slots && slots[j] == slots[k] :: j == k)
            && (forall i: u32 :: Occupied(slots, i) <==> i < Run(events).next)
    ensures Run(events).next == Run(events).nrDisks <= MAX_DISKS
  {
    ArrayMirrorsHistory(events);
    var s, holders := Run(events), Holders(events);
    forall k | k in s.slots ensures s.slots[k] < s.next && holders[s.slots[k]] == k {
      var i :| 0 <= i < |holders| && holders[i] == k;
      assert SlotTells(s, events, holders[i], i);
    }
    forall i: u32 | i < s.next ensures Occupied(s.slots, i) {
      assert SlotTells(s, events, holders[i], i);
    }
  }

  /** Showing the statistics never disturbs a counter. */
  lemma ShowsKeepCounters(s: Disks, now: u64, gd: Option<Gendisk>, i: nat)
    requires Sound(s) && i < MAX_DISKS
    ensures Sound(Shown(s, now, gd)) && Shown(s, now, gd).disks[i].io == s.disks[i].io
  {
    if gd.Some? {
      AssignSound(s, gd.value);
    }
  }

  // ---- Conservation ----

  datatype Measure = Operations | SectorsMoved

  function Amount(of: Measure, rq: Request): nat { if of.Operations? then 1 else rq.nrBytes / 512 }

  function Total(of: Measure, io: Io): nat {
    if of.Operations? then io.readIos + io.writeIos else io.readSectors + io.writeSectors
  }

  function SlotTotal(of: Measure, io: IoWords): nat {
    if of.Operations? then io.readIos + io.writeIos else io.readSectors + io.writeSectors
  }

  /** The completions of the devices in `keys`, counted over the history alone. */
  function Served(of: Measure, events: seq<Event>, keys: seq<u64>): nat {
    if events == [] then 0
    else
      var e := events[|events| - 1];
      Served(of, events[..|events| - 1], keys)
      + (if e.Complete? && DiskOf(e).Some? && KeyOf(DiskOf(e).value) in keys then Amount(of, e.rq) else 0)
  }

  lemma {:induction false} ServedNext(of: Measure, events: seq<Event>, keys: seq<u64>, k: u64)
    requires k !in keys
    ensures Served(of, events, keys + [k]) == Served(of, events, keys) + Total(of, History(events, k))
  {
    if events != [] {
      ServedNext(of, events[..|events| - 1], keys, k);
    }
  }

  lemma {:induction false} ServedNone(of: Measure, events: seq<Event>)
    ensures Served(of, events, []) == 0
  {
    if events != [] {
      ServedNone(of, events[..|events| - 1]);
    }
  }

  /** The first n slots of the array added up. */
  function SlotSum(of: Measure, disks: seq<DiskStats>, n: nat): nat
    requires n <= |disks|
  {
    if n == 0 then 0 else SlotSum(of, disks, n - 1) + SlotTotal(of, disks[n - 1].io)
  }

  /** The slot at i has, mod 2^64, what the history has for the i-th key. */
  ghost predicate SlotAgrees(of: Measure, disks: seq<DiskStats>, events: seq<Event>, keys: seq<u64>, i: nat) {
    i < |disks| && i < |keys|
    && Wrap64(SlotTotal(of, disks[i].io)) == Wrap64(Total(of, History(events, keys[i])))
  }

  lemma {:induction false} SlotServed(of: Measure, s: Disks, events: seq<Event>, i: nat)
    requires Mirrors(s, events) && i < |Holders(events)|
    ensures SlotAgrees(of, s.disks, events, Holders(events), i)
  {
    assert SlotTells(s, events, Holders(events)[i], i);
    SlotTotalWraps(of, History(events, Holders(events)[i]));
  }

  lemma {:induction false} SlotSumServed(of: Measure, disks: seq<DiskStats>, events: seq<Event>,
                                         keys: seq<u64>, n: nat)
    requires n <= |keys| && n <= |disks|
    requires forall i, j | 0 <= i < j < |keys| :: keys[i] != keys[j]
    requires forall i | 0 <= i < n :: SlotAgrees(of, disks, events, keys, i)
    ensures Wrap64(SlotSum(of, disks, n)) == Wrap64(Served(of, events, keys[..n]))
  {
    if n == 0 {
      ServedNone(of, events);
    } else {
      SlotSumServed(of, disks, events, keys, n - 1);
      assert SlotAgrees(of, disks, events, keys, n - 1);
      assert keys[..n] == keys[..n - 1] + [keys[n - 1]];
      ServedNext(of, events, keys[..n - 1], keys[n - 1]);
      SlotSumStep(of, disks, n - 1, Served(of, events, keys[..n - 1]), Total(of, History(events, keys[n - 1])));
    }
  }

  lemma SlotSumStep(of: Measure, disks: seq<DiskStats>, i: nat, served: nat, total: nat)
    requires i < |disks|
    requires Wrap64(SlotSum(of, disks, i)) == Wrap64(served)
    requires Wrap64(SlotTotal(of, disks[i].io)) == Wrap64(total)
    ensures Wrap64(SlotSum(of, disks, i + 1)) == Wrap64(served + total)
  {
    WrapSum(SlotSum(of, disks, i), SlotTotal(of, disks[i].io), served, total);
  }

  lemma SlotTotalWraps(of: Measure, io: Io)
    ensures Wrap64(SlotTotal(of, Words(io))) == Wrap64(Total(of, io))
  {
    if of.Operations? {
      WrapSum(Wrap64(io.readIos), Wrap64(io.writeIos), io.readIos, io.writeIos);
    } else {
      WrapSum(Wrap64(io.readSectors), Wrap64(io.writeSectors), io.readSectors, io.writeSectors);
    }
  }

  lemma WrapSum(a: int, b: int, c: int, d: int)
    requires Wrap64(a) == Wrap64(c) && Wrap64(b) == Wrap64(d)
    ensures Wrap64(a + b) == Wrap64(c + d)
  {
    WrapAdd(a, b);
    WrapAdd(c, d);
    WrapAdd(a, d);
    WrapAdd(c, b);
  }

  lemma {:induction false} EmptySlotsAddNothing(of: Measure, disks: seq<DiskStats>, n: nat, all: nat)
    requires n <= all <= |disks| && (forall i | n <= i < all :: disks[i] == EMPTY)
    ensures SlotSum(of, disks, all) == SlotSum(of, disks, n)
  {
    if n < all {
      EmptySlotsAddNothing(of, disks, n, all - 1);
    }
  }

  /** Reads plus writes over the whole array, in operations or in sectors, are what the devices
      holding a slot have completed since load: nothing of theirs is missed and nothing else counted. */
  lemma {:induction false} IoConserved(of: Measure, events: seq<Event>)
    ensures Wrap64(SlotSum(of, Run(events).disks, MAX_DISKS))
            == Wrap64(Served(of, events, Holders(events)))
  {
    ArrayMirrorsHistory(events);
    var holders := Holders(events);
    FirstSeenOnce(events);
    forall i | 0 <= i < |holders| ensures SlotAgrees(of, Run(events).disks, events, holders, i) {
      SlotServed(of, Run(events), events, i);
    }
    SlotSumServed(of, Run(events).disks, events, holders, |holders|);
    assert holders[..|holders|] == holders;
    EmptySlotsAddNothing(of, Run(events).disks, |holders|, MAX_DISKS);
  }
}
