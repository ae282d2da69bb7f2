/**
 The CPU collector: one write section that clears and refills 256 slots of ten counters and a
 running total, in the mapped words its readers copy.
 */
module CpuCollector {
  import opened Machine
  import opened Seqlock
  import opened MappedValue

  // ---- Layout of struct procfast_cpu_data in 64-bit words ----

  const MAX_CPUS: nat := 256
  const FIELDS: nat := 10
  const USER: nat := 0
  const SYSTEM: nat := 2
  const IDLE: nat := 3

  const TIMESTAMP: nat := 1
  const NR_CPUS: nat := 2
  const TOTAL: nat := 3
  const SIZE: nat := 2573

  function SlotAt(cpu: nat): nat { 13 + FIELDS * cpu }

  /** Ten counters in the order of `struct procfast_cpu_stats`. */
  type Counters = c: seq<u64> | |c| == 10 witness [0, 0, 0, 0, 0, 0, 0, 0, 0, 0]

  const ZERO: Counters := [0, 0, 0, 0, 0, 0, 0, 0, 0, 0]

  /** The guard of the accumulation: user, system or idle time is nonzero. */
  predicate Active(c: Counters) { c[USER] != 0 || c[SYSTEM] != 0 || c[IDLE] != 0 }

  function Slot(m: seq<u64>, cpu: nat): Counters
    requires |m| == SIZE && cpu < MAX_CPUS
  {
    m[SlotAt(cpu)..SlotAt(cpu) + FIELDS]
  }

  function Totals(m: seq<u64>): Counters
    requires |m| == SIZE
  {
    m[TOTAL..TOTAL + FIELDS]
  }

  lemma SlotWords(m: seq<u64>, cpu: nat)
    requires |m| == SIZE && cpu < MAX_CPUS
    ensures forall k | 0 <= k < FIELDS :: Slot(m, cpu)[k] == m[SlotAt(cpu) + k]
  {
  }

  /** What a slot holds after a pass: the kernel's counters, or zeros for a CPU it does not have. */
  function Sampled(cpu: Option<Counters>): Counters {
    if cpu.Some? then cpu.value else ZERO
  }

  // ---- The accesses of one pass ----

  function StoreBlock(at: nat, words: seq<u64>): seq<Op> {
    seq(|words|, k requires 0 <= k < |words| => Store(at + k, words[k]))
  }

  function AddBlock(at: nat, words: seq<u64>): seq<Op> {
    seq(|words|, k requires 0 <= k < |words| => Add(at + k, words[k]))
  }

  /** Clear a slot, then overwrite it if the kernel has this CPU. */
  function RefillOps(i: nat, cpu: Option<Counters>): seq<Op> {
    StoreBlock(SlotAt(i), ZERO) + (if cpu.Some? then StoreBlock(SlotAt(i), cpu.value) else [])
  }

  function SlotOps(i: nat, cpu: Option<Counters>): seq<Op> {
    RefillOps(i, cpu)
    + (if Active(Sampled(cpu)) then AddBlock(TOTAL, Sampled(cpu)) else [])
  }

  /** The kernel's per-CPU counters as the pass finds them. */
  type Samples = s: seq<Option<Counters>> | |s| == 256 witness seq(256, i => None)

  function SlotsOps(cpus: Samples, n: nat): seq<Op>
    requires n <= MAX_CPUS
  {
    if n == 0 then [] else SlotsOps(cpus, n - 1) + SlotOps(n - 1, cpus[n - 1])
  }

  /** One past the last active CPU among the first n. */
  function Highest(cpus: Samples, n: nat): (nr: nat)
    requires n <= MAX_CPUS
    ensures nr <= n
    ensures forall c | nr <= c < n :: !Active(Sampled(cpus[c]))
    ensures nr > 0 ==> Active(Sampled(cpus[nr - 1]))
  {
    if n == 0 then 0 else if Active(Sampled(cpus[n - 1])) then n else Highest(cpus, n - 1)
  }

  function Opening(now: u64): seq<Op> { [Begin, Store(TIMESTAMP, now)] + StoreBlock(TOTAL, ZERO) }

  function CollectOps(now: u64, cpus: Samples): seq<Op> {
    Opening(now) + SlotsOps(cpus, MAX_CPUS) + [Store(NR_CPUS, Highest(cpus, MAX_CPUS)), End]
  }

  // ---- The collector, in place ----

  /** Ten adjacent stores: a `memset` when `words` is ZERO, else `read_one_cpu`'s assignments. */
  method StoreWords(v: TimerValue, at: nat, words: Counters)
    requires at + FIELDS <= v.words.Length
    modifies v, v.words
    ensures v.trace == old(v.trace) + StoreBlock(at, words)
    ensures v.words[..] == ApplyAll(old(v.words[..]), StoreBlock(at, words))
  {
    var ops := StoreBlock(at, words);
    for k := 0 to FIELDS
      invariant v.trace == old(v.trace) + ops[..k]
      invariant v.words[..] == ApplyAll(old(v.words[..]), ops[..k])
    {
      ApplyNext(old(v.words[..]), ops, k);
      v.Do(Store(at + k, words[k]));
    }
    assert ops[..FIELDS] == ops;
  }

  lemma ApplyNext(m: seq<u64>, ops: seq<Op>, k: nat)
    requires |m| > 0 && k < |ops|
    ensures ops[..k + 1] == ops[..k] + [ops[k]]
    ensures ApplyAll(m, ops[..k + 1]) == Apply(ApplyAll(m, ops[..k]), ops[k])
  {
    assert ops[..k + 1] == ops[..k] + [ops[k]];
    ApplySnoc(m, ops[..k], ops[k]);
  }

  /** `add_stats`: each total field grows by the slot's field, read back from the map. */
  method AddStats(v: TimerValue, cpu: nat)
    requires v.words.Length == SIZE && cpu < MAX_CPUS
    modifies v, v.words
    ensures v.trace == old(v.trace) + AddBlock(TOTAL, Slot(old(v.words[..]), cpu))
    ensures v.words[..] == ApplyAll(old(v.words[..]), AddBlock(TOTAL, Slot(old(v.words[..]), cpu)))
  {
    ghost var m := v.words[..];
    ghost var slot := Slot(m, cpu);
    ghost var ops := AddBlock(TOTAL, slot);
    for k := 0 to FIELDS
      invariant v.trace == old(v.trace) + ops[..k]
      invariant v.words[..] == ApplyAll(m, ops[..k])
      invariant Slot(v.words[..], cpu) == slot
    {
      ApplyNext(m, ops, k);
      assert v.words[SlotAt(cpu) + k] == Slot(v.words[..], cpu)[k];
      v.Do(Add(TOTAL + k, v.words[SlotAt(cpu) + k]));
    }
    assert ops[..FIELDS] == ops;
  }

  /** `collect_cpu_stats`.  Its effect is the section `CollectOps`, access by access. */
  method Collect(v: TimerValue, now: u64, cpus: Samples)
    requires v.words.Length == SIZE
    modifies v, v.words
    ensures v.trace == old(v.trace) + CollectOps(now, cpus)
    ensures v.words[..] == ApplyAll(old(v.words[..]), CollectOps(now, cpus))
  {
    ghost var m, t := v.words[..], v.trace;
    OpenSection(v, now);
    var nr := CollectSlots(v, cpus);
    DidBoth(v, m, t, Opening(now), SlotsOps(cpus, MAX_CPUS));
    CloseSection(v, nr);
    DidBoth(v, m, t, Opening(now) + SlotsOps(cpus, MAX_CPUS), [Store(NR_CPUS, nr), End]);
  }

  method OpenSection(v: TimerValue, now: u64)
    requires v.words.Length == SIZE
    modifies v, v.words
    ensures Did(v, old(v.words[..]), old(v.trace), Opening(now))
  {
    OpeningApplied(v.words[..], now);
    v.Do(Begin);
    v.Do(Store(TIMESTAMP, now));
    StoreWords(v, TOTAL, ZERO);
  }

  method CloseSection(v: TimerValue, nr: u32)
    requires v.words.Length == SIZE
    modifies v, v.words
    ensures Did(v, old(v.words[..]), old(v.trace), [Store(NR_CPUS, nr), End])
  {
    ClosingApplied(v.words[..], [], nr);
    assert [] + [Store(NR_CPUS, nr), End] == [Store(NR_CPUS, nr), End];
    v.Do(Store(NR_CPUS, nr));
    v.Do(End);
  }

  method CollectSlots(v: TimerValue, cpus: Samples) returns (nr: u32)
    requires v.words.Length == SIZE
    modifies v, v.words
    ensures Did(v, old(v.words[..]), old(v.trace), SlotsOps(cpus, MAX_CPUS))
    ensures nr == Highest(cpus, MAX_CPUS)
  {
    ghost var m, t := v.words[..], v.trace;
    nr := 0;
    for i := 0 to MAX_CPUS
      invariant Did(v, m, t, SlotsOps(cpus, i))
      invariant nr == Highest(cpus, i)
    {
      var active := CollectSlot(v, i, cpus[i]);
      DidBoth(v, m, t, SlotsOps(cpus, i), SlotOps(i, cpus[i]));
      if active {
        nr := i + 1;
      }
    }
  }

  /** One round of the loop over the CPUs; the guard reads the slot back from the map. */
  method CollectSlot(v: TimerValue, i: nat, cpu: Option<Counters>) returns (active: bool)
    requires v.words.Length == SIZE && i < MAX_CPUS
    modifies v, v.words
    ensures Did(v, old(v.words[..]), old(v.trace), SlotOps(i, cpu))
    ensures active == Active(Sampled(cpu))
  {
    ghost var m, t := v.words[..], v.trace;
    RefillSlot(v, i, cpu);
    active := SlotActive(v, i);
    SlotOpsSplit(m, i, cpu);
    if active {
      AddStats(v, i);
      DidBoth(v, m, t, RefillOps(i, cpu), AddBlock(TOTAL, Sampled(cpu)));
    }
  }

  lemma SlotOpsSplit(m: seq<u64>, i: nat, cpu: Option<Counters>)
    requires |m| == SIZE && i < MAX_CPUS
    ensures var refilled := ApplyAll(m, RefillOps(i, cpu));
            if Active(Sampled(cpu))
            then && SlotOps(i, cpu) == RefillOps(i, cpu) + AddBlock(TOTAL, Sampled(cpu))
                 && ApplyAll(m, SlotOps(i, cpu)) == ApplyAll(refilled, AddBlock(TOTAL, Sampled(cpu)))
            else SlotOps(i, cpu) == RefillOps(i, cpu)
  {
    if Active(Sampled(cpu)) {
      ApplyConcat(m, RefillOps(i, cpu), AddBlock(TOTAL, Sampled(cpu)));
    } else {
      assert SlotOps(i, cpu) == RefillOps(i, cpu);
    }
  }

  method SlotActive(v: TimerValue, i: nat) returns (active: bool)
    requires v.words.Length == SIZE && i < MAX_CPUS
    ensures active == Active(Slot(v.words[..], i))
  {
    SlotWords(v.words[..], i);
    active := v.words[SlotAt(i) + USER] != 0 || v.words[SlotAt(i) + SYSTEM] != 0
              || v.words[SlotAt(i) + IDLE] != 0;
  }

  method RefillSlot(v: TimerValue, i: nat, cpu: Option<Counters>)
    requires v.words.Length == SIZE && i < MAX_CPUS
    modifies v, v.words
    ensures Did(v, old(v.words[..]), old(v.trace), RefillOps(i, cpu))
    ensures Slot(v.words[..], i) == Sampled(cpu)
  {
    ghost var m, t := v.words[..], v.trace;
    RefillEffect(m, i, cpu);
    StoreWords(v, SlotAt(i), ZERO);
    if cpu.Some? {
      StoreWords(v, SlotAt(i), cpu.value);
      DidBoth(v, m, t, StoreBlock(SlotAt(i), ZERO), StoreBlock(SlotAt(i), cpu.value));
    } else {
      assert RefillOps(i, cpu) == StoreBlock(SlotAt(i), ZERO);
    }
  }

  lemma OpeningApplied(m: seq<u64>, now: u64)
    requires |m| == SIZE
    ensures ApplyAll(m, Opening(now))
            == ApplyAll(Apply(Apply(m, Begin), Store(TIMESTAMP, now)), StoreBlock(TOTAL, ZERO))
  {
    var first := [Begin, Store(TIMESTAMP, now)];
    assert first[1..] == [Store(TIMESTAMP, now)] && first[1..][1..] == [];
    ApplyConcat(m, first, StoreBlock(TOTAL, ZERO));
  }

  lemma ClosingApplied(m: seq<u64>, ops: seq<Op>, nr: u64)
    requires |m| == SIZE
    ensures ApplyAll(m, ops + [Store(NR_CPUS, nr), End])
            == Apply(Apply(ApplyAll(m, ops), Store(NR_CPUS, nr)), End)
  {
    var last := [Store(NR_CPUS, nr), End];
    assert last[1..] == [End] && last[1..][1..] == [];
    ApplyConcat(m, ops, last);
  }

  // ---- What blocks of accesses do to memory ----

  lemma StoreBlockEffect(m: seq<u64>, at: nat, words: seq<u64>)
    requires at + |words| <= |m| && |m| > 0
    ensures ApplyAll(m, StoreBlock(at, words)) == m[..at] + words + m[at + |words|..]
  {
    assert StoreBlock(at, words)[..|words|] == StoreBlock(at, words);
    assert words[..|words|] == words;
    StorePrefix(m, at, words, |words|);
  }

  lemma {:induction false} StorePrefix(m: seq<u64>, at: nat, words: seq<u64>, k: nat)
    requires at + |words| <= |m| && |m| > 0 && k <= |words|
    ensures ApplyAll(m, StoreBlock(at, words)[..k]) == m[..at] + words[..k] + m[at + k..]
  {
    if k > 0 {
      StorePrefix(m, at, words, k - 1);
      ApplyNext(m, StoreBlock(at, words), k - 1);
    }
  }

  function Plus(a: Counters, b: Counters): Counters {
    seq(FIELDS, k requires 0 <= k < FIELDS => Wrap64(a[k] as int + b[k]))
  }

  lemma AddBlockEffect(m: seq<u64>, c: Counters)
    requires |m| == SIZE
    ensures ApplyAll(m, AddBlock(TOTAL, c)) == m[..TOTAL] + Plus(Totals(m), c) + m[SlotAt(0)..]
  {
    assert AddBlock(TOTAL, c)[..FIELDS] == AddBlock(TOTAL, c);
    assert Plus(Totals(m), c)[..FIELDS] == Plus(Totals(m), c);
    AddPrefix(m, c, FIELDS);
  }

  lemma {:induction false} AddPrefix(m: seq<u64>, c: Counters, k: nat)
    requires |m| == SIZE && k <= FIELDS
    ensures ApplyAll(m, AddBlock(TOTAL, c)[..k])
            == m[..TOTAL] + Plus(Totals(m), c)[..k] + m[TOTAL + k..]
  {
    if k > 0 {
      AddPrefix(m, c, k - 1);
      ApplyNext(m, AddBlock(TOTAL, c), k - 1);
    }
  }

  lemma RefillEffect(m: seq<u64>, i: nat, cpu: Option<Counters>)
    requires |m| == SIZE && i < MAX_CPUS
    ensures ApplyAll(m, RefillOps(i, cpu))
            == m[..SlotAt(i)] + Sampled(cpu) + m[SlotAt(i) + FIELDS..]
  {
    StoreBlockEffect(m, SlotAt(i), ZERO);
    var cleared := ApplyAll(m, StoreBlock(SlotAt(i), ZERO));
    if cpu.Some? {
      ApplyConcat(m, StoreBlock(SlotAt(i), ZERO), StoreBlock(SlotAt(i), cpu.value));
      StoreBlockEffect(cleared, SlotAt(i), cpu.value);
      assert cleared[..SlotAt(i)] == m[..SlotAt(i)];
      assert cleared[SlotAt(i) + FIELDS..] == m[SlotAt(i) + FIELDS..];
    } else {
      assert RefillOps(i, cpu) == StoreBlock(SlotAt(i), ZERO);
    }
  }

  // ---- What a pass leaves in memory ----

  /** The k-th counters of the first n CPUs that pass the guard, added up without wrapping. */
  function ActiveSum(cpus: Samples, n: nat, k: nat): nat
    requires n <= MAX_CPUS && k < FIELDS
  {
    if n == 0 then 0
    else ActiveSum(cpus, n - 1, k)
         + (if Active(Sampled(cpus[n - 1])) then Sampled(cpus[n - 1])[k] else 0)
  }

  function Counted(cpu: Option<Counters>): Counters {
    if Active(Sampled(cpu)) then Sampled(cpu) else ZERO
  }

  lemma SpliceParts(m: seq<u64>, at: nat, c: Counters)
    requires |m| == SIZE && SlotAt(0) <= at <= SIZE - FIELDS
    ensures var r := m[..at] + c + m[at + FIELDS..];
            && r[..TOTAL] == m[..TOTAL] && Totals(r) == Totals(m)
            && r[SlotAt(0)..] == m[SlotAt(0)..at] + c + m[at + FIELDS..]
  {
  }

  lemma Whole(m: seq<u64>)
    requires |m| == SIZE
    ensures m == m[..TOTAL] + Totals(m) + m[SlotAt(0)..]
    ensures Plus(Totals(m), ZERO) == Totals(m)
  {
  }

  /** One slot's accesses: that slot is the sample, the total has grown by it if it is active, and
      nothing else has changed. */
  lemma SlotEffect(m: seq<u64>, i: nat, cpu: Option<Counters>)
    requires |m| == SIZE && i < MAX_CPUS
    ensures ApplyAll(m, SlotOps(i, cpu))
            == m[..TOTAL] + Plus(Totals(m), Counted(cpu))
               + (m[SlotAt(0)..SlotAt(i)] + Sampled(cpu) + m[SlotAt(i) + FIELDS..])
  {
    RefillEffect(m, i, cpu);
    var refilled := ApplyAll(m, RefillOps(i, cpu));
    SpliceParts(m, SlotAt(i), Sampled(cpu));
    SlotOpsSplit(m, i, cpu);
    if Active(Sampled(cpu)) {
      AddBlockEffect(refilled, Sampled(cpu));
    } else {
      Whole(refilled);
    }
  }

  /** What the loop has established after n rounds. */
  ghost predicate Filled(m: seq<u64>, m': seq<u64>, cpus: Samples, n: nat)
    requires |m| == |m'| == SIZE && n <= MAX_CPUS
  {
    && m'[TIMESTAMP] == m[TIMESTAMP]
    && Tallied(Totals(m), Totals(m'), cpus, n)
    && (forall c | 0 <= c < n :: Slot(m', c) == Sampled(cpus[c]))
  }

  lemma {:induction false} SlotsEffect(m: seq<u64>, cpus: Samples, n: nat)
    requires |m| == SIZE && n <= MAX_CPUS
    ensures Filled(m, ApplyAll(m, SlotsOps(cpus, n)), cpus, n)
  {
    if n > 0 {
      SlotsEffect(m, cpus, n - 1);
      ApplyConcat(m, SlotsOps(cpus, n - 1), SlotOps(n - 1, cpus[n - 1]));
      FilledStep(m, ApplyAll(m, SlotsOps(cpus, n - 1)), cpus, n - 1);
    }
  }

  lemma FilledStep(m: seq<u64>, before: seq<u64>, cpus: Samples, i: nat)
    requires |m| == |before| == SIZE && i < MAX_CPUS && Filled(m, before, cpus, i)
    ensures Filled(m, ApplyAll(before, SlotOps(i, cpus[i])), cpus, i + 1)
  {
    SlotStep(before, i, cpus[i]);
    FilledNext(m, before, ApplyAll(before, SlotOps(i, cpus[i])), cpus, i);
  }

  lemma FilledNext(m: seq<u64>, before: seq<u64>, after: seq<u64>, cpus: Samples, i: nat)
    requires |m| == |before| == |after| == SIZE && i < MAX_CPUS
    requires Filled(m, before, cpus, i)
    requires after[TIMESTAMP] == before[TIMESTAMP]
    requires Totals(after) == Plus(Totals(before), Counted(cpus[i]))
    requires forall c | 0 <= c <= i :: Slot(after, c) == if c == i then Sampled(cpus[i]) else Slot(before, c)
    ensures Filled(m, after, cpus, i + 1)
  {
    TotalsNext(Totals(m), Totals(before), Totals(after), cpus, i);
  }

  /** The running totals after n rounds, starting from `start`. */
  ghost predicate Tallied(start: Counters, totals: Counters, cpus: Samples, n: nat)
    requires n <= MAX_CPUS
  {
    forall k | 0 <= k < FIELDS :: totals[k] == Wrap64(start[k] as int + ActiveSum(cpus, n, k))
  }

  lemma TotalsNext(start: Counters, before: Counters, after: Counters, cpus: Samples, i: nat)
    requires i < MAX_CPUS && Tallied(start, before, cpus, i)
    requires after == Plus(before, Counted(cpus[i]))
    ensures Tallied(start, after, cpus, i + 1)
  {
    forall k | 0 <= k < FIELDS
      ensures after[k] == Wrap64(start[k] as int + ActiveSum(cpus, i + 1, k))
    {
      WrapAdd(start[k] as int + ActiveSum(cpus, i, k), Counted(cpus[i])[k]);
    }
  }

  lemma SlotStep(m: seq<u64>, i: nat, cpu: Option<Counters>)
    requires |m| == SIZE && i < MAX_CPUS
    ensures var m' := ApplyAll(m, SlotOps(i, cpu));
            && m'[TIMESTAMP] == m[TIMESTAMP] && Totals(m') == Plus(Totals(m), Counted(cpu))
            && (forall c | 0 <= c <= i :: Slot(m', c) == if c == i then Sampled(cpu) else Slot(m, c))
  {
    SlotEffect(m, i, cpu);
    ThreeParts(ApplyAll(m, SlotOps(i, cpu)), m, Plus(Totals(m), Counted(cpu)), i, Sampled(cpu));
  }

  lemma ThreeParts(after: seq<u64>, before: seq<u64>, totals: Counters, i: nat, sample: Counters)
    requires |before| == |after| == SIZE && i < MAX_CPUS
    requires after == before[..TOTAL] + totals
             + (before[SlotAt(0)..SlotAt(i)] + sample + before[SlotAt(i) + FIELDS..])
    ensures after[TIMESTAMP] == before[TIMESTAMP] && Totals(after) == totals
    ensures forall c | 0 <= c <= i :: Slot(after, c) == if c == i then sample else Slot(before, c)
  {
    forall c | 0 <= c <= i ensures Slot(after, c) == if c == i then sample else Slot(before, c) {
      SlotOfParts(after, before, totals, i, sample, c);
    }
  }

  lemma SlotOfParts(after: seq<u64>, before: seq<u64>, totals: Counters, i: nat, sample: Counters, c: nat)
    requires |before| == |after| == SIZE && c <= i < MAX_CPUS
    requires after == before[..TOTAL] + totals
             + (before[SlotAt(0)..SlotAt(i)] + sample + before[SlotAt(i) + FIELDS..])
    ensures Slot(after, c) == if c == i then sample else Slot(before, c)
  {
    var rest := before[SlotAt(0)..SlotAt(i)] + sample + before[SlotAt(i) + FIELDS..];
    forall k | 0 <= k < FIELDS
      ensures Slot(after, c)[k] == if c == i then sample[k] else Slot(before, c)[k]
    {
      assert after[SlotAt(c) + k] == rest[FIELDS * c + k];
    }
  }

  /** The memory is exactly one pass's reading of the kernel: no slot, total, count or timestamp is
      left over from another pass. */
  ghost predicate Captures(m: seq<u64>, now: u64, cpus: Samples) {
    && |m| == SIZE
    && m[TIMESTAMP] == now
    && m[NR_CPUS] == Highest(cpus, MAX_CPUS)
    && Tallied(ZERO, Totals(m), cpus, MAX_CPUS)
    && (forall c | 0 <= c < MAX_CPUS :: Slot(m, c) == Sampled(cpus[c]))
  }

  /** Whatever was in memory before, a pass leaves exactly its own reading. */
  lemma {:induction false} CollectMeaning(m: seq<u64>, now: u64, cpus: Samples)
    requires |m| == SIZE
    ensures Captures(ApplyAll(m, CollectOps(now, cpus)), now, cpus)
  {
    var begun := ApplyAll(m, Opening(now));
    var filled := ApplyAll(begun, SlotsOps(cpus, MAX_CPUS));
    ApplyConcat(m, Opening(now), SlotsOps(cpus, MAX_CPUS));
    ClosingApplied(m, Opening(now) + SlotsOps(cpus, MAX_CPUS), Highest(cpus, MAX_CPUS));
    OpeningEffect(m, now);
    SlotsEffect(begun, cpus, MAX_CPUS);
    ClosingEffect(begun, filled, now, cpus);
  }

  lemma OpeningEffect(m: seq<u64>, now: u64)
    requires |m| == SIZE
    ensures var m' := ApplyAll(m, Opening(now)); m'[TIMESTAMP] == now && Totals(m') == ZERO
  {
    OpeningApplied(m, now);
    StoreBlockEffect(Apply(Apply(m, Begin), Store(TIMESTAMP, now)), TOTAL, ZERO);
  }

  lemma ClosingEffect(begun: seq<u64>, filled: seq<u64>, now: u64, cpus: Samples)
    requires |begun| == |filled| == SIZE && Filled(begun, filled, cpus, MAX_CPUS)
    requires begun[TIMESTAMP] == now && Totals(begun) == ZERO
    ensures Captures(Apply(Apply(filled, Store(NR_CPUS, Highest(cpus, MAX_CPUS))), End), now, cpus)
  {
    var closed := Apply(Apply(filled, Store(NR_CPUS, Highest(cpus, MAX_CPUS))), End);
    assert Totals(closed) == Totals(filled);
    forall c | 0 <= c < MAX_CPUS ensures Slot(closed, c) == Sampled(cpus[c]) {
      assert Slot(closed, c) == Slot(filled, c);
    }
  }

  // ---- The collector's data invariant ----

  /** The k-th counters of the first n slots, over the slots that pass the guard or over all. */
  function SlotSum(m: seq<u64>, n: nat, k: nat, all: bool): nat
    requires |m| == SIZE && n <= MAX_CPUS && k < FIELDS
  {
    if n == 0 then 0
    else SlotSum(m, n - 1, k, all) + (if all || Active(Slot(m, n - 1)) then Slot(m, n - 1)[k] else 0)
  }

  ghost predicate Consistent(m: seq<u64>) {
    && |m| == SIZE
    && m[NR_CPUS] <= MAX_CPUS
    && (forall k | 0 <= k < FIELDS :: Totals(m)[k] == Wrap64(SlotSum(m, MAX_CPUS, k, false)))
    && (forall k | k == USER || k == SYSTEM || k == IDLE ::
          Totals(m)[k] == Wrap64(SlotSum(m, MAX_CPUS, k, true)))
    && (forall c | m[NR_CPUS] <= c < MAX_CPUS :: !Active(Slot(m, c)))
    && (m[NR_CPUS] > 0 ==> Active(Slot(m, m[NR_CPUS] - 1)))
  }

  lemma {:induction false} SumOfSamples(m: seq<u64>, cpus: Samples, n: nat, k: nat)
    requires |m| == SIZE && n <= MAX_CPUS && k < FIELDS
    requires forall c | 0 <= c < n :: Slot(m, c) == Sampled(cpus[c])
    ensures SlotSum(m, n, k, false) == ActiveSum(cpus, n, k)
  {
    if n > 0 {
      SumOfSamples(m, cpus, n - 1, k);
      var slot: Counters := Slot(m, n - 1);
      assert slot == Sampled(cpus[n - 1]);
    }
  }

  /** An inactive slot contributes nothing to the three guarded counters. */
  lemma {:induction false} GuardedSum(m: seq<u64>, n: nat, k: nat)
    requires |m| == SIZE && n <= MAX_CPUS && (k == USER || k == SYSTEM || k == IDLE)
    ensures SlotSum(m, n, k, true) == SlotSum(m, n, k, false)
  {
    if n > 0 {
      GuardedSum(m, n - 1, k);
    }
  }

  lemma CapturedIsConsistent(m: seq<u64>, now: u64, cpus: Samples)
    requires Captures(m, now, cpus)
    ensures Consistent(m)
  {
    forall k | 0 <= k < FIELDS
      ensures Totals(m)[k] == Wrap64(SlotSum(m, MAX_CPUS, k, false))
    {
      assert Totals(m)[k] == Wrap64(ZERO[k] as int + ActiveSum(cpus, MAX_CPUS, k));
      SumOfSamples(m, cpus, MAX_CPUS, k);
    }
    GuardedSum(m, MAX_CPUS, USER);
    GuardedSum(m, MAX_CPUS, SYSTEM);
    GuardedSum(m, MAX_CPUS, IDLE);
  }

  function Zeroed(): seq<u64> { seq(SIZE, i => 0) }

  lemma {:induction false} ZeroedSum(n: nat, k: nat, all: bool)
    requires n <= MAX_CPUS && k < FIELDS
    ensures SlotSum(Zeroed(), n, k, all) == 0
  {
    if n > 0 {
      ZeroedSum(n - 1, k, all);
    }
  }

  lemma ZeroedIsConsistent()
    ensures Consistent(Zeroed())
  {
    forall k, all | 0 <= k < FIELDS ensures SlotSum(Zeroed(), MAX_CPUS, k, all) == 0 {
      ZeroedSum(MAX_CPUS, k, all);
    }
  }

  // ---- The same, word by word ----

  /** User, system or idle time of CPU c: words 0, 2 and 3 of its ten. */
  predicate Ticking(m: seq<u64>, c: nat)
    requires |m| == 2573 && c < 256
  {
    m[13 + 10 * c] != 0 || m[15 + 10 * c] != 0 || m[16 + 10 * c] != 0
  }

  function WordSum(m: seq<u64>, n: nat, k: nat): nat
    requires |m| == 2573 && n <= 256 && k < 10
  {
    if n == 0 then 0 else WordSum(m, n - 1, k) + (if Ticking(m, n - 1) then m[13 + 10 * (n - 1) + k] else 0)
  }

  /** Word 2 counts up to the last ticking CPU, and words 3 to 12 add up the ticking ones. */
  ghost predicate WordsConsistent(m: seq<u64>) {
    && |m| == 2573
    && m[2] <= 256
    && (forall k | 0 <= k < 10 :: m[3 + k] == Wrap64(WordSum(m, 256, k)))
    && (forall c | m[2] <= c < 256 :: !Ticking(m, c))
    && (m[2] > 0 ==> Ticking(m, m[2] - 1))
  }

  lemma SlotTicks(m: seq<u64>, c: nat)
    requires |m| == SIZE && c < MAX_CPUS
    ensures Active(Slot(m, c)) <==> Ticking(m, c)
  {
    SlotWords(m, c);
  }

  lemma {:induction false} SumsOfWords(m: seq<u64>, n: nat, k: nat)
    requires |m| == SIZE && n <= MAX_CPUS && k < FIELDS
    ensures SlotSum(m, n, k, false) == WordSum(m, n, k)
  {
    if n > 0 {
      SumsOfWords(m, n - 1, k);
      SlotTicks(m, n - 1);
      SlotWords(m, n - 1);
    }
  }

  lemma ConsistentWords(m: seq<u64>)
    requires Consistent(m)
    ensures WordsConsistent(m)
  {
    forall k | 0 <= k < 10 ensures m[3 + k] == Wrap64(WordSum(m, 256, k)) {
      SumsOfWords(m, MAX_CPUS, k);
      assert Totals(m)[k] == m[TOTAL + k];
    }
    forall c | m[2] <= c < 256 ensures !Ticking(m, c) {
      SlotTicks(m, c);
    }
    if m[2] > 0 {
      SlotTicks(m, m[2] - 1);
    }
  }

  // ---- What readers see ----

  /** Stores and adds inside the value: what a write section is made of. */
  predicate Inner(ops: seq<Op>) {
    forall i | 0 <= i < |ops| :: (ops[i].Store? || ops[i].Add?) && 1 <= ops[i].at < SIZE
  }

  lemma {:induction false} InnerDisciplined(ops: seq<Op>, rest: seq<Op>)
    requires Inner(ops) && Disciplined(rest, SIZE, true)
    ensures Disciplined(ops + rest, SIZE, true)
    decreases |ops|
  {
    if ops == [] {
      assert ops + rest == rest;
    } else {
      assert (ops + rest)[1..] == ops[1..] + rest;
      InnerDisciplined(ops[1..], rest);
    }
  }

  lemma {:induction false} SlotsInner(cpus: Samples, n: nat)
    requires n <= MAX_CPUS
    ensures Inner(SlotsOps(cpus, n))
  {
    if n > 0 {
      SlotsInner(cpus, n - 1);
      assert Inner(SlotOps(n - 1, cpus[n - 1]));
    }
  }

  /** A pass is one write section: BEGIN, stores inside the value, END. */
  lemma CollectIsSection(now: u64, cpus: Samples)
    ensures IsSection(CollectOps(now, cpus), SIZE)
  {
    var inner := [Store(TIMESTAMP, now)] + StoreBlock(TOTAL, ZERO) + SlotsOps(cpus, MAX_CPUS)
                 + [Store(NR_CPUS, Highest(cpus, MAX_CPUS))];
    SlotsInner(cpus, MAX_CPUS);
    assert Inner(inner);
    assert [End][1..] == [];
    InnerDisciplined(inner, [End]);
    assert CollectOps(now, cpus) == [Begin] + (inner + [End]);
    assert CollectOps(now, cpus)[1..] == inner + [End];
  }

  /** The timer only ever runs `collect_cpu_stats`. */
  ghost predicate OnlyCollects(events: seq<Event>) {
    forall i | 0 <= i < |events| && events[i].Fire? ::
      exists now, cpus :: events[i].section == CollectOps(now, cpus)
  }

  /** The value is still as the map was created, or it is one pass's reading and nothing else. */
  ghost predicate OnePass(m: seq<u64>) {
    m == Zeroed() || exists now, cpus :: Captures(m, now, cpus)
  }

  lemma CollectEstablishes(m: seq<u64>, section: seq<Op>)
    requires |m| == SIZE && exists now, cpus :: section == CollectOps(now, cpus)
    ensures Establishes(OnePass)(m, ApplyAll(m, section))
  {
    var now, cpus :| section == CollectOps(now, cpus);
    CollectMeaning(m, now, cpus);
    assert OnePass(ApplyAll(m, section));
  }

  lemma {:induction false} CollectsRespect(events: seq<Event>)
    requires OnlyCollects(events)
    ensures FiresRespect(Zeroed(), events, Establishes(OnePass))
    decreases |events|
  {
    if events != [] {
      var before, e := events[..|events| - 1], events[|events| - 1];
      assert forall i | 0 <= i < |before| :: before[i] == events[i];
      CollectsRespect(before);
      if e.Fire? {
        assert e == events[|events| - 1];
        CollectEstablishes(Run(Zeroed(), before).w.mem, e.section);
      }
    }
  }

  /** End to end: every CPU snapshot any reader ever returns, in any interleaving with the timer, is
      one pass's reading (or the empty map), hence satisfies the collector's summation invariant. */
  lemma {:induction false} EverySnapshotConsistent(events: seq<Event>, i: nat)
    requires OnlyCollects(events)
    requires i < |Run(Zeroed(), events).returned|
    requires var s := Run(Zeroed(), events).returned[i]; s.last < s.first + TWO64
    ensures OnePass(Run(Zeroed(), events).returned[i].data)
    ensures Consistent(Run(Zeroed(), events).returned[i].data)
    ensures WordsConsistent(Run(Zeroed(), events).returned[i].data)
  {
    CollectsRespect(events);
    SnapshotsSatisfy(Zeroed(), events, OnePass, i);
    var data := Run(Zeroed(), events).returned[i].data;
    if data == Zeroed() {
      ZeroedIsConsistent();
    } else {
      var now, cpus :| Captures(data, now, cpus);
      CapturedIsConsistent(data, now, cpus);
    }
    ConsistentWords(data);
  }
}
