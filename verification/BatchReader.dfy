/**
 The batch readers: cursor loops over a BPF hash map that keep the values and drop the keys, and the
 maps that user space rebuilds from them.
 */
module BatchReader {
  import opened Machine

  // ---- The kernel's side ----

  const ENOENT: int := 2

  /** How the kernel may hand out a map: whole batches that fit the caller's buffers. */
  predicate Division<V>(batches: seq<seq<V>>, limit: nat) {
    |batches| > 0 && forall b | 0 <= b < |batches| :: |batches[b]| <= limit
  }

  function Flatten<V>(batches: seq<seq<V>>): seq<V> {
    if batches == [] then [] else Flatten(batches[..|batches| - 1]) + batches[|batches| - 1]
  }

  lemma FlattenNext<V>(batches: seq<seq<V>>, b: nat)
    requires b < |batches|
    ensures Flatten(batches[..b + 1]) == Flatten(batches[..b]) + batches[b]
    ensures Flatten(batches[..|batches|]) == Flatten(batches)
  {
    assert batches[..b + 1][..b] == batches[..b];
    assert batches[..|batches|] == batches;
  }

  lemma {:induction false} FlattenMonotone<V>(batches: seq<seq<V>>, b: nat)
    requires b <= |batches|
    ensures Flatten(batches[..b]) <= Flatten(batches)
    decreases |batches| - b
  {
    if b < |batches| {
      FlattenNext(batches, b);
      FlattenMonotone(batches, b + 1);
    } else {
      assert batches[..b] == batches;
    }
  }

  /** `values` lists the values of `m`, each entry once, in the order of `order`. */
  ghost predicate Enumerates<K(!new), V>(values: seq<V>, m: map<K, V>, order: seq<K>) {
    && VisitsEach(order, m.Keys)
    && |values| == |order|
    && (forall i | 0 <= i < |order| :: order[i] in m && values[i] == m[order[i]])
  }

  /** A quiescent map as `BPF_MAP_LOOKUP_BATCH` sees it: the cursor is the number of the next batch. */
  class MapHandle<V(0)> {
    const batches: seq<seq<V>>
    const limit: nat

    constructor (batches: seq<seq<V>>, limit: nat)
      requires Division(batches, limit)
      ensures this.batches == batches && this.limit == limit
    {
      this.batches, this.limit := batches, limit;
    }

    function At(input: Option<nat>): nat { if input.Some? then input.value else 0 }

    /** A null `in_batch` starts over.  Only the first `count` values are written; the call that
        reaches the end reports ENOENT and still hands out what it found. */
    method LookupBatch(input: Option<nat>, values: array<V>) returns (ret: int, next: nat, count: nat)
      requires Division(batches, limit) && limit <= values.Length && At(input) < |batches|
      modifies values
      ensures next == At(input) + 1 && count == |batches[At(input)]|
      ensures values[..count] == batches[At(input)] && values[count..] == old(values[count..])
      ensures ret == if next == |batches| then -ENOENT else 0
    {
      var batch := batches[At(input)];
      count := 0;
      while count < |batch|
        invariant count <= |batch|
        invariant values[..count] == batch[..count] && values[|batch|..] == old(values[|batch|..])
      {
        values[count] := batch[count];
        count := count + 1;
      }
      next := At(input) + 1;
      ret := if next == |batches| then -ENOENT else 0;
    }
  }

  // ---- The Rust loop: a growing vector ----

  const BATCH_SIZE: nat := 1024

  /** `snapshot_all`: the vector is the concatenation of the batches, whatever the division. */
  method SnapshotAll<V(0)>(stats: MapHandle<V>) returns (procs: seq<V>)
    requires Division(stats.batches, stats.limit) && stats.limit <= BATCH_SIZE
    ensures procs == Flatten(stats.batches)
  {
    var values := new V[BATCH_SIZE];
    procs := [];
    var inBatch := 0;
    var first := true;
    while true
      invariant first ==> inBatch == 0
      invariant inBatch < |stats.batches| && procs == Flatten(stats.batches[..inBatch])
      decreases |stats.batches| - inBatch
    {
      FlattenNext(stats.batches, inBatch);
      var ret, next, count := stats.LookupBatch(if first then None else Some(inBatch), values);
      first := false;
      procs := PushAll(procs, values, count);
      inBatch := next;
      if ret != 0 {
        return;
      }
    }
  }

  method PushAll<V>(start: seq<V>, values: array<V>, count: nat) returns (procs: seq<V>)
    requires count <= values.Length
    ensures procs == start + values[..count]
  {
    procs := start;
    for i := 0 to count
      invariant procs == start + values[..i]
    {
      procs := procs + [values[i]];
    }
  }

  // ---- The C loop: a buffer that doubles ----

  /** What doubling makes of a capacity that must hold `n` entries. */
  function Grown(capacity: nat, n: nat): (c: nat)
    requires capacity > 0
    ensures capacity <= c && n <= c
    ensures n <= capacity ==> c == capacity
    ensures n > capacity ==> c < 2 * n
    decreases n - capacity
  {
    if n <= capacity then capacity else Grown(capacity * 2, n)
  }

  lemma {:induction false} GrownStep(capacity: nat, n: nat)
    requires capacity > 0
    ensures Grown(capacity, n + 1) == if Grown(capacity, n) == n then 2 * n else Grown(capacity, n)
    ensures forall k: nat | n <= k :: Grown(capacity, n) <= Grown(capacity, k)
    decreases n - capacity
  {
    if n > capacity {
      GrownStep(capacity * 2, n);
    }
  }

  /** An allocator that serves requests of up to `limit` entries. */
  method Realloc<V(0)>(old_: array<V>, used: nat, capacity: nat, limit: nat) returns (grown: Option<array<V>>)
    requires used <= old_.Length <= capacity
    ensures grown.Some? <==> capacity <= limit
    ensures grown.Some? ==> fresh(grown.value) && grown.value.Length == capacity
                            && grown.value[..used] == old_[..used]
  {
    if capacity > limit {
      return None;
    }
    var a := new V[capacity];
    for i := 0 to used
      invariant a[..i] == old_[..i]
    {
      a[i] := old_[i];
    }
    grown := Some(a);
  }

  const C_BATCH_SIZE: nat := 512

  /** The buffer holds exactly these entries, in a capacity that doubling came to. */
  ghost predicate Holds<V>(buffer: array<V>, entries: seq<V>, start: nat, limit: nat)
    requires start > 0
    reads buffer
  {
    && |entries| <= buffer.Length == Grown(start, |entries|) <= limit
    && buffer[..|entries|] == entries
  }

  lemma NeverFits<V>(batches: seq<seq<V>>, b: nat, start: nat, limit: nat)
    requires start > 0 && b <= |batches| && Grown(start, |Flatten(batches[..b])|) > limit
    ensures Grown(start, |Flatten(batches)|) > limit
  {
    FlattenMonotone(batches, b);
    GrownStep(start, |Flatten(batches[..b])|);
  }

  /** The loop of `procfast_read_procs` and `procfast_read_fds`.  It fails exactly when the allocator
      cannot serve the capacity that doubling comes to; otherwise the buffer holds the concatenation
      of the batches.  A start of 0 is what the header's bound rules out. */
  method ReadAll<V(0)>(stats: MapHandle<V>, start: nat, limit: nat)
    returns (entries: Option<array<V>>, total: nat)
    requires Division(stats.batches, stats.limit) && stats.limit <= C_BATCH_SIZE
    requires start > 0
    ensures entries.Some? <==> Grown(start, |Flatten(stats.batches)|) <= limit
    ensures entries.Some? ==> fresh(entries.value) && Holds(entries.value, Flatten(stats.batches), start, limit)
    ensures entries.Some? ==> total == |Flatten(stats.batches)|
  {
    total := 0;
    if start > limit {
      NeverFits(stats.batches, 0, start, limit);
      return None, total;
    }
    var procs := new V[start];
    var vals := new V[C_BATCH_SIZE];
    var inBatch := 0;
    var first := true;
    while true
      invariant first ==> inBatch == 0
      invariant inBatch < |stats.batches| && total == |Flatten(stats.batches[..inBatch])|
      invariant fresh(procs) && fresh(vals) && procs != vals && vals.Length == C_BATCH_SIZE
      invariant Holds(procs, Flatten(stats.batches[..inBatch]), start, limit)
      decreases |stats.batches| - inBatch
    {
      FlattenNext(stats.batches, inBatch);
      var grown, ret, outBatch, count :=
        ReadBatch(stats, if first then None else Some(inBatch), procs, total, start, vals, limit);
      first := false;
      if grown.None? {
        NeverFits(stats.batches, outBatch, start, limit);
        return None, total;
      }
      procs, total := grown.value, total + count;
      inBatch := outBatch;
      if ret != 0 {
        return Some(procs), total;
      }
    }
  }

  /** One call to the kernel and the copy of what it gave. */
  method ReadBatch<V(0)>(stats: MapHandle<V>, input: Option<nat>, procs: array<V>, total: nat, start: nat,
                         vals: array<V>, limit: nat)
    returns (grown: Option<array<V>>, ret: int, next: nat, count: nat)
    requires Division(stats.batches, stats.limit) && stats.limit <= vals.Length && procs != vals
    requires start > 0 && stats.At(input) < |stats.batches|
    requires var entries := Flatten(stats.batches[..stats.At(input)]);
             total == |entries| && Holds(procs, entries, start, limit)
    modifies procs, vals
    ensures next == stats.At(input) + 1 && count == |stats.batches[stats.At(input)]|
    ensures ret == if next == |stats.batches| then -ENOENT else 0
    ensures grown.Some? <==> Grown(start, |Flatten(stats.batches[..next])|) <= limit
    ensures grown.Some? ==>
              && (grown.value == procs || fresh(grown.value))
              && Holds(grown.value, Flatten(stats.batches[..next]), start, limit)
  {
    FlattenNext(stats.batches, stats.At(input));
    ret, next, count := stats.LookupBatch(input, vals);
    grown := AppendBatch(procs, total, start, vals, count, limit);
  }

  /** The inner loop: one entry at a time, doubling when the buffer is full.  Nothing is written out
      of bounds and every earlier entry survives each doubling. */
  method AppendBatch<V(0)>(procs: array<V>, used: nat, start: nat, vals: array<V>, count: nat, limit: nat)
    returns (grown: Option<array<V>>)
    requires start > 0 && count <= vals.Length && procs != vals
    requires used <= procs.Length == Grown(start, used) <= limit
    modifies procs
    ensures grown.Some? <==> Grown(start, used + count) <= limit
    ensures grown.Some? ==>
              && (grown.value == procs || fresh(grown.value))
              && grown.value.Length == Grown(start, used + count)
              && grown.value[..used + count] == old(procs[..used]) + vals[..count]
  {
    var buffer := procs;
    for i := 0 to count
      invariant buffer == procs || fresh(buffer)
      invariant buffer != vals && used + i <= buffer.Length == Grown(start, used + i) <= limit
      invariant buffer[..used + i] == old(procs[..used]) + vals[..i]
    {
      GrownStep(start, used + i + 1);
      var larger := PushEntry(buffer, used + i, start, vals[i], limit);
      if larger.None? {
        return None;
      }
      buffer := larger.value;
    }
    grown := Some(buffer);
  }

  method PushEntry<V(0)>(buffer: array<V>, total: nat, start: nat, v: V, limit: nat)
    returns (grown: Option<array<V>>)
    requires start > 0 && total <= buffer.Length == Grown(start, total) <= limit
    modifies buffer
    ensures grown.Some? <==> Grown(start, total + 1) <= limit
    ensures grown.Some? ==>
              && (grown.value == buffer || fresh(grown.value))
              && grown.value.Length == Grown(start, total + 1)
              && grown.value[..total + 1] == old(buffer[..total]) + [v]
  {
    GrownStep(start, total);
    var roomy := buffer;
    if total >= buffer.Length {
      var larger := Realloc(buffer, total, buffer.Length * 2, limit);
      if larger.None? {
        return None;
      }
      roomy := larger.value;
    }
    roomy[total] := v;
    grown := Some(roomy);
  }

  // ---- Keys thrown away and put back ----

  /** Collecting the values into a map by a key computed from each; a later duplicate wins. */
  function Rekey<K(==), V>(values: seq<V>, keyOf: V -> K): map<K, V> {
    if values == [] then map[]
    else
      var last := values[|values| - 1];
      Rekey(values[..|values| - 1], keyOf)[keyOf(last) := last]
  }

  /** `into_iter().map(|p| (p.pid, p)).collect()`, as `build_proc_map` does it. */
  method BuildMap<K(==), V>(values: seq<V>, keyOf: V -> K) returns (m: map<K, V>)
    ensures m == Rekey(values, keyOf)
  {
    m := map[];
    for i := 0 to |values|
      invariant m == Rekey(values[..i], keyOf)
    {
      assert values[..i + 1][..i] == values[..i];
      m := m[keyOf(values[i]) := values[i]];
    }
    assert values[..|values|] == values;
  }

  /** Everything in the rebuilt map is some value under its own key, and no value goes missing. */
  lemma {:induction false} RekeyContents<K, V>(values: seq<V>, keyOf: V -> K)
    ensures forall k | k in Rekey(values, keyOf) ::
              Rekey(values, keyOf)[k] in values && keyOf(Rekey(values, keyOf)[k]) == k
    ensures forall v | v in values :: keyOf(v) in Rekey(values, keyOf)
  {
    if values != [] {
      RekeyContents(values[..|values| - 1], keyOf);
      assert values == values[..|values| - 1] + [values[|values| - 1]];
    }
  }

  /** The last value with a key is the one kept. */
  lemma {:induction false} LastWins<K, V>(values: seq<V>, keyOf: V -> K, i: nat)
    requires i < |values| && forall j | i < j < |values| :: keyOf(values[j]) != keyOf(values[i])
    ensures keyOf(values[i]) in Rekey(values, keyOf) && Rekey(values, keyOf)[keyOf(values[i])] == values[i]
    decreases |values|
  {
    if i < |values| - 1 {
      LastWins(values[..|values| - 1], keyOf, i);
    }
  }

  /** Batch reading rebuilds the map exactly when every value carries its own key. */
  lemma RebuildExactly<K(!new), V>(values: seq<V>, m: map<K, V>, order: seq<K>, keyOf: V -> K)
    requires Enumerates(values, m, order)
    ensures Rekey(values, keyOf) == m <==> forall k | k in m :: keyOf(m[k]) == k
  {
    var r := Rekey(values, keyOf);
    RekeyContents(values, keyOf);
    if forall k | k in m :: keyOf(m[k]) == k {
      forall k | k in m ensures k in r && r[k] == m[k] {
        assert k in order;
        var i :| 0 <= i < |order| && order[i] == k;
        assert values[i] in values;
        SameKeySameValue(values, m, order, keyOf, r[k], k);
      }
      forall k | k in r ensures k in m {
        SameKeySameValue(values, m, order, keyOf, r[k], k);
      }
    }
  }

  lemma SameKeySameValue<K(!new), V>(values: seq<V>, m: map<K, V>, order: seq<K>, keyOf: V -> K, v: V, k: K)
    requires Enumerates(values, m, order) && (forall j | j in m :: keyOf(m[j]) == j)
    requires v in values && keyOf(v) == k
    ensures k in m && m[k] == v
  {
    var i :| 0 <= i < |values| && values[i] == v;
    assert order[i] in m;
  }
}
