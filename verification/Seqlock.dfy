/**
 The sequence lock of the memory-mapped collectors, at the grain of single memory words.

 One timer callback writes: it bumps word 0, stores into the other words, and bumps word 0 again.
 Any number of readers load word 0, copy every word, and load word 0 once more.  Their accesses
 interleave freely.  Word 0 is a real 64-bit word and wraps; `bumps` counts its increments without
 wrapping, so "fewer than 2^64 bumps between the two loads" can be said.
 */
module Seqlock {
  import opened Machine

  // ---- What the writer does to memory ----

  datatype Op = Begin | Store(at: nat, word: u64) | Add(at: nat, word: u64) | End

  predicate IsBump(op: Op) { op.Begin? || op.End? }

  function Apply(m: seq<u64>, op: Op): (m': seq<u64>)
    requires |m| > 0
    ensures |m'| == |m|
  {
    match op
    case Begin => m[0 := Wrap64(m[0] as int + 1)]
    case End => m[0 := Wrap64(m[0] as int + 1)]
    case Store(at, word) => if at < |m| then m[at := word] else m
    case Add(at, word) => if at < |m| then m[at := Wrap64(m[at] + word)] else m
  }

  function ApplyAll(m: seq<u64>, ops: seq<Op>): (m': seq<u64>)
    requires |m| > 0
    ensures |m'| == |m|
    decreases |ops|
  {
    if ops == [] then m else ApplyAll(Apply(m, ops[0]), ops[1..])
  }

  lemma {:induction false} ApplyConcat(m: seq<u64>, a: seq<Op>, b: seq<Op>)
    requires |m| > 0
    ensures ApplyAll(m, a + b) == ApplyAll(ApplyAll(m, a), b)
    decreases |a|
  {
    if a == [] {
      assert a + b == b;
    } else {
      assert (a + b)[1..] == a[1..] + b;
      ApplyConcat(Apply(m, a[0]), a[1..], b);
    }
  }

  lemma ApplySnoc(m: seq<u64>, ops: seq<Op>, op: Op)
    requires |m| > 0
    ensures ApplyAll(m, ops + [op]) == Apply(ApplyAll(m, ops), op)
  {
    ApplyConcat(m, ops, [op]);
  }

  /** The remaining operations of a timer that never leaves a section open and never opens two. */
  predicate Disciplined(ops: seq<Op>, size: nat, open: bool) {
    if ops == [] then !open
    else match ops[0]
      case Begin => !open && Disciplined(ops[1..], size, true)
      case End => open && Disciplined(ops[1..], size, false)
      case Store(at, _) => open && 1 <= at < size && Disciplined(ops[1..], size, open)
      case Add(at, _) => open && 1 <= at < size && Disciplined(ops[1..], size, open)
  }

  /** One timer callback's writes: one BEGIN, then stores, then one END. */
  predicate IsSection(ops: seq<Op>, size: nat) {
    && Disciplined(ops, size, false)
    && OnlyLastEnds(ops)
  }

  predicate OnlyLastEnds(ops: seq<Op>) {
    forall i | 0 <= i < |ops| - 1 :: !ops[i].End?
  }

  /** How many times `ops` increments word 0. */
  function Bumps(ops: seq<Op>): nat {
    if ops == [] then 0 else (if IsBump(ops[0]) then 1 else 0) + Bumps(ops[1..])
  }

  // ---- The writer ----

  /** `published[v]` is the memory as it stood when word 0 had been bumped 2 * v times. */
  datatype Writer = Writer(mem: seq<u64>, todo: seq<Op>, bumps: nat, published: seq<seq<u64>>)

  function StartWriter(mem: seq<u64>): Writer { Writer(mem, [], 0, [mem]) }

  function WriteWord(w: Writer): Writer
    requires |w.mem| > 0 && w.todo != []
  {
    var op := w.todo[0];
    var mem := Apply(w.mem, op);
    Writer(mem, w.todo[1..],
           w.bumps + (if IsBump(op) then 1 else 0),
           if op.End? then w.published + [mem] else w.published)
  }

  ghost predicate WriterInv(w: Writer) {
    && |w.mem| > 0
    && w.mem[0] == Wrap64(w.bumps)
    && |w.published| == w.bumps / 2 + 1
    && (w.bumps % 2 == 0 ==> w.mem == w.published[w.bumps / 2])
    && Disciplined(w.todo, |w.mem|, w.bumps % 2 == 1)
    && (forall v | 0 <= v < |w.published| :: |w.published[v]| == |w.mem|)
  }

  /** What any amount of writing preserves: published versions are never revised, and memory is
      untouched as long as word 0 is untouched and no section is open. */
  ghost predicate Later(w: Writer, w': Writer) {
    && |w'.mem| == |w.mem|
    && |w'.todo| <= |w.todo|
    && w.bumps <= w'.bumps
    && w.bumps + Bumps(w.todo) == w'.bumps + Bumps(w'.todo)
    && w.published <= w'.published
    && (w.bumps == w'.bumps && w.bumps % 2 == 0 ==> w'.mem == w.mem)
    && (w.bumps < w'.bumps ==> |w'.todo| < |w.todo|)
  }

  lemma LaterTransitive(a: Writer, b: Writer, c: Writer)
    requires Later(a, b) && Later(b, c)
    ensures Later(a, c)
  {
  }

  lemma {:induction false} WriteWordKeeps(w: Writer)
    requires WriterInv(w) && w.todo != []
    ensures WriterInv(WriteWord(w)) && Later(w, WriteWord(w))
    ensures |WriteWord(w).todo| < |w.todo|
  {
    var w' := WriteWord(w);
    if IsBump(w.todo[0]) {
      WrapAdd(w.bumps, 1);
    }
    assert |w'.published| == w'.bumps / 2 + 1;
  }

  /** Word 0 is odd exactly while a write section is open, even after it has wrapped. */
  lemma OddExactlyWhileOpen(w: Writer)
    requires WriterInv(w)
    ensures w.mem[0] % 2 == 1 <==> w.todo != [] && !w.todo[0].Begin?
  {
    WrapParity(w.bumps);
  }

  lemma WrapParity(x: nat)
    ensures Wrap64(x) % 2 == x % 2
  {
    assert x == x / TWO64 * TWO64 + Wrap64(x);
  }

  /** Two bump counts less than 2^64 apart with the same word 0 are the same count. */
  lemma SameWordSameCount(first: nat, last: nat)
    requires first <= last < first + TWO64
    requires Wrap64(first) == Wrap64(last)
    ensures first == last
  {
    assert first == first / TWO64 * TWO64 + Wrap64(first);
    assert last == last / TWO64 * TWO64 + Wrap64(last);
    assert last - first == (last / TWO64 - first / TWO64) * TWO64;
  }

  // ---- Readers ----

  /** A reader between its two loads of word 0; `copied` are the words copied so far. */
  datatype Reader = Reader(first: nat, seq1: u64, buf: seq<u64>, copied: set<nat>)

  /** A value a reader returned, with the bump counts at its two loads of word 0. */
  datatype Snapshot = Snapshot(reader: nat, data: seq<u64>, first: nat, last: nat)

  function StartCopy(w: Writer): Reader
    requires |w.mem| > 0
  {
    Reader(w.bumps, w.mem[0], seq(|w.mem|, i => 0), {})
  }

  function CopyWord(r: Reader, mem: seq<u64>, at: nat): Reader
    requires at < |mem| == |r.buf|
  {
    r.(buf := r.buf[at := mem[at]], copied := r.copied + {at})
  }

  predicate Complete(r: Reader) {
    forall i: nat | i < |r.buf| :: i in r.copied
  }

  ghost predicate CopyInv(w: Writer, r: Reader) {
    && r.first <= w.bumps
    && r.first % 2 == 0
    && r.first / 2 < |w.published|
    && r.seq1 == Wrap64(r.first)
    && |r.buf| == |w.mem|
    && (w.bumps == r.first ==> forall i: nat | i < |w.mem| && i in r.copied :: r.buf[i] == w.mem[i])
  }

  lemma StartCopyInv(w: Writer)
    requires WriterInv(w) && w.mem[0] % 2 == 0
    ensures CopyInv(w, StartCopy(w))
  {
    WrapParity(w.bumps);
  }

  lemma CopyInvLater(w: Writer, w': Writer, r: Reader)
    requires CopyInv(w, r) && Later(w, w')
    ensures CopyInv(w', r)
  {
  }

  /** The exact reach of the check: it accepts when the bumps since the first load number a
      multiple of 2^64, none at all or a full turn of word 0. */
  lemma AcceptsExactly(w: Writer, r: Reader)
    requires WriterInv(w) && CopyInv(w, r)
    ensures w.mem[0] == r.seq1 <==> (w.bumps - r.first) % TWO64 == 0
  {
    assert r.first == r.first / TWO64 * TWO64 + Wrap64(r.first);
    assert w.bumps == w.bumps / TWO64 * TWO64 + Wrap64(w.bumps);
    WrapShift(Wrap64(w.bumps) - Wrap64(r.first), w.bumps / TWO64 - r.first / TWO64);
  }

  /** The second load of word 0 decides: equal and less than 2^64 bumps apart means untorn. */
  lemma CopyComplete(w: Writer, r: Reader)
    requires WriterInv(w) && CopyInv(w, r) && Complete(r)
    requires w.mem[0] == r.seq1 && w.bumps < r.first + TWO64
    ensures r.first == w.bumps && r.buf == w.mem == w.published[r.first / 2]
  {
    SameWordSameCount(r.first, w.bumps);
  }

  // ---- Every interleaving ----

  datatype System = System(w: Writer, readers: map<nat, Reader>, returned: seq<Snapshot>)

  datatype Event =
    | Fire(section: seq<Op>)            // the timer callback starts
    | Write                             // its next access to the mapped words
    | LoadSeq(reader: nat)              // first load of word 0 (spins while odd)
    | Copy(reader: nat, at: nat)        // one word of the copy, in any order
    | ReloadSeq(reader: nat)            // second load: return or start over

  predicate Enabled(s: System, e: Event) {
    match e
    case Fire(section) => s.w.todo == [] && IsSection(section, |s.w.mem|)
    case Write => s.w.todo != []
    case LoadSeq(r) => r !in s.readers
    case Copy(r, at) => r in s.readers && at < |s.w.mem| == |s.readers[r].buf|
    case ReloadSeq(r) => r in s.readers && Complete(s.readers[r])
  }

  ghost predicate SystemInv(s: System) {
    && WriterInv(s.w)
    && (forall r | r in s.readers :: CopyInv(s.w, s.readers[r]))
    && (forall i | 0 <= i < |s.returned| :: Genuine(s.w, s.returned[i]))
    && (forall i | 0 <= i < |s.returned| && s.returned[i].reader in s.readers ::
          s.returned[i].last <= s.readers[s.returned[i].reader].first)
    && (forall i, j | 0 <= i < j < |s.returned| && s.returned[i].reader == s.returned[j].reader ::
          s.returned[i].last <= s.returned[j].first)
  }

  /** A returned value is, word for word and including word 0, the version that was current during
      the whole stretch from its first to its second load of word 0. */
  ghost predicate Genuine(w: Writer, s: Snapshot) {
    && s.first <= s.last <= w.bumps
    && s.first % 2 == 0
    && (s.last < s.first + TWO64 ==>
          && s.first == s.last
          && s.first / 2 < |w.published|
          && s.data == w.published[s.first / 2])
  }

  /** An event that is not enabled does not happen. */
  function Step(s: System, e: Event): (s': System)
    requires |s.w.mem| > 0
    ensures |s'.w.mem| == |s.w.mem|
  {
    if !Enabled(s, e) then s
    else match e
      case Fire(section) => s.(w := s.w.(todo := section))
      case Write => s.(w := WriteWord(s.w))
      case LoadSeq(r) =>
        if s.w.mem[0] % 2 != 0 then s else s.(readers := s.readers[r := StartCopy(s.w)])
      case Copy(r, at) => s.(readers := s.readers[r := CopyWord(s.readers[r], s.w.mem, at)])
      case ReloadSeq(r) =>
        var c := s.readers[r];
        if s.w.mem[0] == c.seq1
        then System(s.w, s.readers - {r}, s.returned + [Snapshot(r, c.buf, c.first, s.w.bumps)])
        else s.(readers := s.readers - {r})
  }

  function StartSystem(mem: seq<u64>): System { System(StartWriter(mem), map[], []) }

  /** The system after the events, whoever issues them and in whatever order. */
  function Run(mem: seq<u64>, events: seq<Event>): (s: System)
    requires |mem| > 0
    ensures |s.w.mem| == |mem|
    decreases |events|
  {
    if events == [] then StartSystem(mem)
    else Step(Run(mem, events[..|events| - 1]), events[|events| - 1])
  }

  lemma {:induction false} StepKeeps(s: System, e: Event)
    requires SystemInv(s)
    ensures SystemInv(Step(s, e))
    ensures s.w.bumps <= Step(s, e).w.bumps && s.w.published <= Step(s, e).w.published
    ensures s.returned <= Step(s, e).returned
  {
    if !Enabled(s, e) {
      return;
    }
    match e
    case Fire(_) =>
    case Write => StepWriteKeeps(s);
    case LoadSeq(_) => if s.w.mem[0] % 2 == 0 { StartCopyInv(s.w); }
    case Copy(_, _) =>
    case ReloadSeq(r) => StepReloadKeeps(s, r);
  }

  lemma StepWriteKeeps(s: System)
    requires SystemInv(s) && s.w.todo != []
    ensures SystemInv(s.(w := WriteWord(s.w)))
  {
    WriteWordKeeps(s.w);
    forall r | r in s.readers ensures CopyInv(WriteWord(s.w), s.readers[r]) {
      CopyInvLater(s.w, WriteWord(s.w), s.readers[r]);
    }
  }

  lemma StepReloadKeeps(s: System, r: nat)
    requires SystemInv(s) && Enabled(s, ReloadSeq(r))
    ensures SystemInv(Step(s, ReloadSeq(r)))
  {
    var c := s.readers[r];
    if s.w.mem[0] == c.seq1 && s.w.bumps < c.first + TWO64 {
      CopyComplete(s.w, c);
    }
  }

  /** No torn read, in every interleaving: whatever any reader has returned is a published version,
      it was current between that reader's two loads, and a reader's versions never go back. */
  lemma {:induction false} NoTornRead(mem: seq<u64>, events: seq<Event>)
    requires |mem| > 0 && mem[0] == 0
    ensures var s := Run(mem, events);
            && SystemInv(s)
            && (forall i | 0 <= i < |s.returned| :: Genuine(s.w, s.returned[i]))
            && (forall i, j | 0 <= i < j < |s.returned| && s.returned[i].reader == s.returned[j].reader ::
                  s.returned[i].last <= s.returned[j].first)
    decreases |events|
  {
    if events != [] {
      NoTornRead(mem, events[..|events| - 1]);
      StepKeeps(Run(mem, events[..|events| - 1]), events[|events| - 1]);
    }
  }

  // ---- Facts about sections become facts about snapshots ----

  /** Every section fired in the run takes the memory it finds to one related to it by `rel`. */
  ghost predicate FiresRespect(mem: seq<u64>, events: seq<Event>, rel: (seq<u64>, seq<u64>) -> bool)
    requires |mem| > 0
    decreases |events|
  {
    events == [] ||
    (var before, e := events[..|events| - 1], events[|events| - 1];
     var w := Run(mem, before).w;
     && FiresRespect(mem, before, rel)
     && (e.Fire? && Enabled(Run(mem, before), e) ==> rel(w.mem, ApplyAll(w.mem, e.section))))
  }

  ghost predicate Chained(w: Writer, rel: (seq<u64>, seq<u64>) -> bool)
    requires |w.mem| > 0
  {
    && (forall v | 0 < v < |w.published| :: rel(w.published[v - 1], w.published[v]))
    && OnlyLastEnds(w.todo)
    && (w.todo != [] && w.published != [] ==>
          rel(w.published[|w.published| - 1], ApplyAll(w.mem, w.todo)))
  }

  lemma ChainedWrite(w: Writer, rel: (seq<u64>, seq<u64>) -> bool)
    requires WriterInv(w) && w.todo != [] && Chained(w, rel)
    ensures Chained(WriteWord(w), rel)
  {
    var w' := WriteWord(w);
    assert forall i | 0 <= i < |w'.todo| :: w'.todo[i] == w.todo[i + 1];
    assert ApplyAll(w'.mem, w'.todo) == ApplyAll(w.mem, w.todo);
    if w.todo[0].End? {
      assert w'.todo == [];
      assert w'.published[|w.published|] == ApplyAll(w.mem, w.todo);
    }
  }

  lemma ChainedFire(w: Writer, section: seq<Op>, rel: (seq<u64>, seq<u64>) -> bool)
    requires WriterInv(w) && Chained(w, rel) && w.todo == []
    requires IsSection(section, |w.mem|) && rel(w.mem, ApplyAll(w.mem, section))
    ensures Chained(w.(todo := section), rel)
  {
    assert w.mem == w.published[|w.published| - 1];
  }

  lemma ChainedStep(s: System, e: Event, rel: (seq<u64>, seq<u64>) -> bool)
    requires WriterInv(s.w) && Chained(s.w, rel)
    requires e.Fire? && Enabled(s, e) ==> rel(s.w.mem, ApplyAll(s.w.mem, e.section))
    ensures Chained(Step(s, e).w, rel)
  {
    if !Enabled(s, e) {
    } else if e.Write? {
      ChainedWrite(s.w, rel);
    } else if e.Fire? {
      ChainedFire(s.w, e.section, rel);
    } else {
      assert Step(s, e).w == s.w;
    }
  }

  /** Consecutive published versions are related the way the sections relate memories. */
  lemma {:induction false} PublishedChain(mem: seq<u64>, events: seq<Event>,
                                          rel: (seq<u64>, seq<u64>) -> bool)
    requires |mem| > 0 && mem[0] == 0
    requires FiresRespect(mem, events, rel)
    ensures Chained(Run(mem, events).w, rel)
    ensures var w := Run(mem, events).w; |w.published| > 0 && w.published[0] == mem
    decreases |events|
  {
    if events != [] {
      var before, e := events[..|events| - 1], events[|events| - 1];
      PublishedChain(mem, before, rel);
      NoTornRead(mem, before);
      ChainedStep(Run(mem, before), e, rel);
      StepKeeps(Run(mem, before), e);
    }
  }

  /** A snapshot is the published version numbered by half its first bump count. */
  lemma SnapshotIsVersion(mem: seq<u64>, events: seq<Event>, i: nat)
    requires |mem| > 0 && mem[0] == 0
    requires i < |Run(mem, events).returned|
    requires var s := Run(mem, events).returned[i]; s.last < s.first + TWO64
    ensures var s, w := Run(mem, events).returned[i], Run(mem, events).w;
            && s.first == s.last && s.first / 2 < |w.published|
            && s.data == w.published[s.first / 2] && |s.data| == |mem|
  {
    NoTornRead(mem, events);
    assert Genuine(Run(mem, events).w, Run(mem, events).returned[i]);
  }

  function Establishes(good: seq<u64> -> bool): (seq<u64>, seq<u64>) -> bool {
    (m, m') => good(m')
  }

  /** What the initial memory satisfies and every section establishes, every snapshot satisfies. */
  lemma SnapshotsSatisfy(mem: seq<u64>, events: seq<Event>, good: seq<u64> -> bool, i: nat)
    requires |mem| > 0 && mem[0] == 0 && good(mem)
    requires FiresRespect(mem, events, Establishes(good))
    requires i < |Run(mem, events).returned|
    requires var s := Run(mem, events).returned[i]; s.last < s.first + TWO64
    ensures good(Run(mem, events).returned[i].data)
  {
    SnapshotIsVersion(mem, events, i);
    PublishedChain(mem, events, Establishes(good));
    VersionsGood(Run(mem, events).w, good, Run(mem, events).returned[i].first / 2);
  }

  lemma VersionsGood(w: Writer, good: seq<u64> -> bool, v: nat)
    requires |w.mem| > 0 && v < |w.published| && good(w.published[0])
    requires Chained(w, Establishes(good))
    ensures good(w.published[v])
  {
    if v > 0 {
      assert Establishes(good)(w.published[v - 1], w.published[v]);
    }
  }

  function ClockForward(): (seq<u64>, seq<u64>) -> bool {
    (m, m') => |m| > 1 && |m'| > 1 && m[1] <= m'[1]
  }

  /** Word 1, the timestamp, never goes back between two snapshots of one reader. */
  lemma TimestampsNeverGoBack(mem: seq<u64>, events: seq<Event>, i: nat, j: nat)
    requires |mem| > 1 && mem[0] == 0
    requires FiresRespect(mem, events, ClockForward())
    requires i < j < |Run(mem, events).returned|
    requires var r := Run(mem, events).returned;
             && r[i].reader == r[j].reader
             && r[i].last < r[i].first + TWO64 && r[j].last < r[j].first + TWO64
    ensures var r := Run(mem, events).returned;
            |r[i].data| == |r[j].data| == |mem| && r[i].data[1] <= r[j].data[1]
  {
    var s := Run(mem, events);
    SnapshotIsVersion(mem, events, i);
    SnapshotIsVersion(mem, events, j);
    NoTornRead(mem, events);
    PublishedChain(mem, events, ClockForward());
    VersionsOrdered(s.w, s.returned[i].first / 2, s.returned[j].first / 2);
  }

  lemma {:induction false} VersionsOrdered(w: Writer, a: nat, b: nat)
    requires WriterInv(w) && |w.mem| > 1 && Chained(w, ClockForward())
    requires a <= b < |w.published|
    ensures w.published[a][1] <= w.published[b][1]
  {
    if a < b {
      VersionsOrdered(w, a, b - 1);
      assert ClockForward()(w.published[b - 1], w.published[b]);
    }
  }
}
