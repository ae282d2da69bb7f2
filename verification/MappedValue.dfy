/** A memory-mapped BPF array value, updated in place by its timer and read by the retry loop. */
module MappedValue {
  import opened Machine
  import opened Seqlock

  /** One access of the timer callback to the mapped words. */
  method Perform(words: array<u64>, op: Op)
    requires words.Length > 0
    modifies words
    ensures words[..] == Apply(old(words[..]), op)
  {
    match op
    case Begin => words[0] := Wrap64(words[0] as int + 1);
    case End => words[0] := Wrap64(words[0] as int + 1);
    case Store(at, word) => if at < words.Length { words[at] := word; }
    case Add(at, word) => if at < words.Length { words[at] := Wrap64(words[at] + word); }
  }

  /** The number of write sections begun by the time word 0 has been bumped `bumps` times. */
  function Begun(bumps: nat): nat { (bumps + 1) / 2 }

  /** The BPF side: the words, and the accesses made to them so far. */
  class TimerValue {
    const words: array<u64>
    ghost var trace: seq<Op>

    constructor (size: nat)
      requires size > 0
      ensures fresh(words) && words.Length == size && trace == []
      ensures words[..] == seq(size, i => 0)
    {
      words := new u64[size](i => 0);
      trace := [];
    }

    method Do(op: Op)
      requires words.Length > 0
      modifies this, words
      ensures words[..] == Apply(old(words[..]), op)
      ensures trace == old(trace) + [op]
    {
      Perform(words, op);
      trace := trace + [op];
    }
  }

  /** From memory `m` and trace `t` on, `v` has made exactly the accesses `ops`. */
  ghost predicate Did(v: TimerValue, m: seq<u64>, t: seq<Op>, ops: seq<Op>)
    requires |m| > 0
    reads v, v.words
  {
    v.trace == t + ops && v.words[..] == ApplyAll(m, ops)
  }

  lemma DidBoth(v: TimerValue, m: seq<u64>, t: seq<Op>, a: seq<Op>, b: seq<Op>)
    requires |m| > 0 && Did(v, ApplyAll(m, a), t + a, b)
    ensures Did(v, m, t, a + b)
  {
    ApplyConcat(m, a, b);
    Regroup(t, a, b);
  }

  lemma Regroup(t: seq<Op>, a: seq<Op>, b: seq<Op>)
    ensures t + a + b == t + (a + b)
  {
  }

  /** The reader's side: the same words while the timer, whose accesses still to come are `todo`,
      may run between any two of the reader's loads. */
  class SharedValue {
    const words: array<u64>
    var todo: seq<Op>
    ghost var bumps: nat
    ghost var published: seq<seq<u64>>

    constructor (words: array<u64>, todo: seq<Op>)
      requires words.Length > 0 && words[0] == 0 && Disciplined(todo, words.Length, false)
      ensures this.words == words && View() == StartWriter(words[..]).(todo := todo)
      ensures WriterInv(View())
    {
      this.words, this.todo := words, todo;
      bumps, published := 0, [words[..]];
    }

    ghost function View(): Writer
      reads this, words
    {
      Writer(words[..], todo, bumps, published)
    }

    method TimerAccess()
      requires WriterInv(View()) && todo != []
      modifies this, words
      ensures View() == WriteWord(old(View()))
    {
      var op := todo[0];
      Perform(words, op);
      todo := todo[1..];
      bumps := bumps + if IsBump(op) then 1 else 0;
      published := if op.End? then published + [words[..]] else published;
    }

    /** Whatever the timer does while the reader is not looking: `least` accesses or more. */
    method Elapse(least: nat)
      requires WriterInv(View()) && least <= |todo|
      modifies this, words
      ensures WriterInv(View()) && Later(old(View()), View())
      ensures |todo| + least <= |old(todo)|
    {
      var steps: nat :| least <= steps <= |todo|;
      ghost var start := View();
      for i := 0 to steps
        invariant WriterInv(View()) && Later(start, View())
        invariant |todo| == |old(todo)| - i
      {
        WriteWordKeeps(View());
        TimerAccess();
      }
    }

    method Load(at: nat) returns (word: u64)
      requires WriterInv(View()) && at < words.Length
      modifies this, words
      ensures WriterInv(View()) && Later(old(View()), View())
      ensures word == words[at]
    {
      Elapse(0);
      word := words[at];
    }

    /** The retry loop.  Fewer than 2^64 bumps are still to come, and the timer is never stuck inside
        a section (`Disciplined`, in `WriterInv`).  Every failed copy is paid for by a section begun
        during it. */
    method Snapshot() returns (data: array<u64>, ghost version: nat, ghost failures: nat)
      requires WriterInv(View()) && Bumps(todo) < TWO64
      modifies this, words
      ensures WriterInv(View()) && Later(old(View()), View())
      ensures fresh(data) && version < |published| && data[..] == published[version]
      ensures old(bumps) <= 2 * version <= bumps
      ensures failures <= Begun(bumps) - Begun(old(bumps))
    {
      ghost var start := View();
      failures := 0;
      while true
        invariant WriterInv(View()) && Later(start, View())
        invariant failures <= Begun(bumps) - Begun(start.bumps)
        decreases |todo|
      {
        ghost var before := View();
        var done;
        ghost var failed;
        done, data, failed := Round();
        LaterTransitive(start, before, View());
        if done {
          version := bumps / 2;
          return;
        }
        failures := failures + if failed then 1 else 0;
      }
    }

    /** Once around the loop.  Finding word 0 odd lets the timer move (`spin_loop`, `pause`). */
    method Round() returns (done: bool, data: array<u64>, ghost failed: bool)
      requires WriterInv(View()) && Bumps(todo) < TWO64
      modifies this, words
      ensures WriterInv(View()) && Later(old(View()), View())
      ensures done ==> fresh(data) && bumps % 2 == 0 && data[..] == published[bumps / 2]
      ensures !done ==> |todo| < |old(todo)|
      ensures failed ==> Begun(bumps) > Begun(old(bumps))
    {
      var seq1 := Load(0);
      ghost var first := View();
      OddExactlyWhileOpen(first);
      WrapParity(bumps);
      if seq1 % 2 != 0 {
        Elapse(1);
        return false, words, false;
      }
      var seq2;
      data, seq2 := Attempt();
      LaterTransitive(old(View()), first, View());
      done, failed := seq1 == seq2, seq1 != seq2;
    }

    /** Copy everything and load word 0 again: an unchanged word 0 means an untouched memory, a
        changed one that the timer has begun a section meanwhile. */
    method Attempt() returns (data: array<u64>, seq2: u64)
      requires WriterInv(View()) && Bumps(todo) < TWO64 && bumps % 2 == 0
      modifies this, words
      ensures WriterInv(View()) && Later(old(View()), View())
      ensures fresh(data)
      ensures seq2 == old(words[0]) ==>
                bumps == old(bumps) && data[..] == published[bumps / 2]
      ensures seq2 != old(words[0]) ==> bumps > old(bumps)
    {
      data := new u64[words.Length](i => 0);
      CopyWords(data, View());
      seq2 := Load(0);
      if seq2 == old(words[0]) {
        SameWordSameCount(old(bumps), bumps);
      }
    }

    /** `copy_from_slice` / `memcpy`: each word is loaded at a moment of its own. */
    method CopyWords(data: array<u64>, ghost first: Writer)
      requires data != words && data.Length == words.Length
      requires WriterInv(View()) && View() == first && first.bumps % 2 == 0
      modifies this, words, data
      ensures WriterInv(View()) && Later(first, View())
      ensures bumps == first.bumps ==> data[..] == first.mem
    {
      for i := 0 to data.Length
        invariant WriterInv(View()) && Later(first, View())
        invariant bumps == first.bumps ==> data[..i] == first.mem[..i]
      {
        data[i] := Load(i);
      }
    }
  }
}
