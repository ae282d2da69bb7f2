/** Per-cgroup memory, aggregated from the process snapshot. */
module CgroupMemory {
  import opened Machine
  import opened ProcTracker

  /** Which of the two sums. */
  datatype Part = Rss | Shared

  function Bytes(of: Part, p: ProcStats): u64 { if of.Rss? then p.mem.rss else p.mem.shared }

  type Usage = map<u64, (u64, u64)>

  function Half(of: Part, pair: (u64, u64)): u64 { if of.Rss? then pair.0 else pair.1 }

  /** The processes of the given cgroups added up, in unbounded numbers. */
  function SumIn(of: Part, procs: seq<ProcStats>, cgroups: set<u64>): nat {
    if procs == [] then 0
    else
      var p := procs[|procs| - 1];
      SumIn(of, procs[..|procs| - 1], cgroups) + (if p.cgroupId in cgroups then Bytes(of, p) else 0)
  }

  /** The cgroups some process is in; id 0 is none. */
  function Populated(procs: seq<ProcStats>): set<u64> {
    set i | 0 <= i < |procs| && procs[i].cgroupId > 0 :: procs[i].cgroupId
  }

  /** Each populated cgroup with its own sums in 64 bits, and no other cgroup. */
  ghost predicate IsUsage(usage: Usage, procs: seq<ProcStats>) {
    && usage.Keys == Populated(procs)
    && (forall of: Part, c | c in usage :: Half(of, usage[c]) == Wrap64(SumIn(of, procs, {c})))
  }

  // The same for one cgroup, in the source's own fields.

  function RssOf(procs: seq<ProcStats>, c: u64): nat {
    if procs == [] then 0
    else
      var p := procs[|procs| - 1];
      RssOf(procs[..|procs| - 1], c) + (if p.cgroupId == c then p.mem.rss else 0)
  }

  function SharedOf(procs: seq<ProcStats>, c: u64): nat {
    if procs == [] then 0
    else
      var p := procs[|procs| - 1];
      SharedOf(procs[..|procs| - 1], c) + (if p.cgroupId == c then p.mem.shared else 0)
  }

  lemma {:induction false} SumsOfFields(procs: seq<ProcStats>, c: u64)
    ensures SumIn(Rss, procs, {c}) == RssOf(procs, c) && SumIn(Shared, procs, {c}) == SharedOf(procs, c)
  {
    if procs != [] {
      SumsOfFields(procs[..|procs| - 1], c);
    }
  }

  /** Total resident and file-backed memory of each populated cgroup. */
  lemma UsageOfFields(usage: Usage, procs: seq<ProcStats>, c: u64)
    requires IsUsage(usage, procs)
    ensures c in usage <==> exists i :: 0 <= i < |procs| && procs[i].cgroupId == c > 0
    ensures c in usage ==> usage[c] == (Wrap64(RssOf(procs, c)), Wrap64(SharedOf(procs, c)))
  {
    assert c in usage <==> c in Populated(procs);
    if c in usage {
      SumsOfFields(procs, c);
      assert Half(Rss, usage[c]) == Wrap64(SumIn(Rss, procs, {c}));
      assert Half(Shared, usage[c]) == Wrap64(SumIn(Shared, procs, {c}));
    }
  }

  /** The loop of `cmd_cgroup` over the snapshot: `entry().or_insert((0, 0))`, then two additions. */
  method AggregateRss(procs: seq<ProcStats>) returns (usage: Usage)
    ensures IsUsage(usage, procs)
  {
    usage := map[];
    for i := 0 to |procs|
      invariant IsUsage(usage, procs[..i])
    {
      ghost var before := usage;
      var p := procs[i];
      if p.cgroupId > 0 {
        var entry := if p.cgroupId in usage then usage[p.cgroupId] else (0, 0);
        entry := (Wrap64(entry.0 as int + p.mem.rss), entry.1);
        entry := (entry.0, Wrap64(entry.1 as int + p.mem.shared));
        usage := usage[p.cgroupId := entry];
      }
      UsageNext(before, usage, procs, i);
    }
    assert procs[..|procs|] == procs;
  }

  function Charged(entry: (u64, u64), p: ProcStats): (u64, u64) {
    (Wrap64(entry.0 as int + p.mem.rss), Wrap64(entry.1 as int + p.mem.shared))
  }

  lemma ChargedSum(of: Part, entry: (u64, u64), p: ProcStats, sum: nat)
    requires Half(of, entry) == Wrap64(sum)
    ensures Half(of, Charged(entry, p)) == Wrap64(sum + Bytes(of, p))
  {
    WrapAdd(sum, Bytes(of, p));
  }

  lemma UsageNext(before: Usage, usage: Usage, procs: seq<ProcStats>, i: nat)
    requires i < |procs| && IsUsage(before, procs[..i])
    requires var c := procs[i].cgroupId;
             usage == if c == 0 then before
                      else before[c := Charged(if c in before then before[c] else (0, 0), procs[i])]
    ensures IsUsage(usage, procs[..i + 1])
  {
    PopulatedNext(procs, i);
    forall of: Part, c | c in usage ensures Half(of, usage[c]) == Wrap64(SumIn(of, procs[..i + 1], {c})) {
      SumNext(of, procs, i, {c});
      if c == procs[i].cgroupId {
        if c !in before {
          SumAbsent(of, procs[..i], c);
        }
        ChargedSum(of, if c in before then before[c] else (0, 0), procs[i], SumIn(of, procs[..i], {c}));
      }
    }
  }

  lemma PopulatedNext(procs: seq<ProcStats>, i: nat)
    requires i < |procs|
    ensures Populated(procs[..i + 1])
            == Populated(procs[..i]) + (if procs[i].cgroupId > 0 then {procs[i].cgroupId} else {})
  {
    assert procs[..i + 1] == procs[..i] + [procs[i]];
    forall c | c in Populated(procs[..i]) ensures c in Populated(procs[..i + 1]) {
      var j :| 0 <= j < i && procs[..i][j].cgroupId == c;
      assert procs[..i + 1][j].cgroupId == c;
    }
    assert procs[..i + 1][i] == procs[i];
  }

  lemma SumNext(of: Part, procs: seq<ProcStats>, i: nat, cgroups: set<u64>)
    requires i < |procs|
    ensures SumIn(of, procs[..i + 1], cgroups)
            == SumIn(of, procs[..i], cgroups) + (if procs[i].cgroupId in cgroups then Bytes(of, procs[i]) else 0)
  {
    assert procs[..i + 1][..i] == procs[..i];
  }

  lemma {:induction false} SumAbsent(of: Part, procs: seq<ProcStats>, c: u64)
    requires c > 0 && c !in Populated(procs)
    ensures SumIn(of, procs, {c}) == 0
  {
    if procs != [] {
      var n := |procs| - 1;
      assert procs[..n + 1] == procs;
      PopulatedNext(procs, n);
      SumAbsent(of, procs[..n], c);
    }
  }

  // ---- Order ----

  lemma SumSnoc(of: Part, procs: seq<ProcStats>, p: ProcStats, cgroups: set<u64>)
    ensures SumIn(of, procs + [p], cgroups)
            == SumIn(of, procs, cgroups) + (if p.cgroupId in cgroups then Bytes(of, p) else 0)
  {
    assert (procs + [p])[..|procs|] == procs;
  }

  lemma OutOfFront<T>(s: seq<T>, i: nat)
    requires i < |s| - 1
    ensures s[..i] + s[i + 1..] == s[..|s| - 1][..i] + s[..|s| - 1][i + 1..] + [s[|s| - 1]]
  {
  }

  /** Taking the process at i out takes its bytes out. */
  lemma {:induction false} SumWithout(of: Part, procs: seq<ProcStats>, i: nat, cgroups: set<u64>)
    requires i < |procs|
    ensures SumIn(of, procs, cgroups)
            == SumIn(of, procs[..i] + procs[i + 1..], cgroups)
               + (if procs[i].cgroupId in cgroups then Bytes(of, procs[i]) else 0)
  {
    var n := |procs| - 1;
    var front := procs[..n];
    if i < n {
      SumWithout(of, front, i, cgroups);
      OutOfFront(procs, i);
      SumSnoc(of, front[..i] + front[i + 1..], procs[n], cgroups);
    } else {
      assert procs[..i] + procs[i + 1..] == front;
    }
  }

  /** The sums depend on which processes there are, not on the order of the snapshot. */
  lemma {:induction false} SumAnyOrder(of: Part, a: seq<ProcStats>, b: seq<ProcStats>, cgroups: set<u64>)
    requires multiset(a) == multiset(b)
    ensures SumIn(of, a, cgroups) == SumIn(of, b, cgroups)
    decreases |a|
  {
    assert |a| == |multiset(a)| == |multiset(b)| == |b|;
    if a != [] {
      var n := |a| - 1;
      assert a[n] in multiset(b);
      var i :| 0 <= i < |b| && b[i] == a[n];
      SameWithout(a, b, i);
      SumWithout(of, b, i, cgroups);
      SumAnyOrder(of, a[..n], b[..i] + b[i + 1..], cgroups);
    }
  }

  lemma TakenOut<T>(s: seq<T>, i: nat)
    requires i < |s|
    ensures multiset(s[..i] + s[i + 1..]) == multiset(s) - multiset{s[i]}
  {
    assert s == s[..i] + ([s[i]] + s[i + 1..]);
  }

  lemma SameWithout<T>(a: seq<T>, b: seq<T>, i: nat)
    requires multiset(a) == multiset(b) && a != [] && i < |b| && b[i] == a[|a| - 1]
    ensures multiset(a[..|a| - 1]) == multiset(b[..i] + b[i + 1..])
  {
    var n := |a| - 1;
    TakenOut(a, n);
    TakenOut(b, i);
    assert a[..n] + a[n + 1..] == a[..n];
  }

  /** So does the whole map. */
  lemma UsageAnyOrder(u: Usage, v: Usage, a: seq<ProcStats>, b: seq<ProcStats>)
    requires multiset(a) == multiset(b) && IsUsage(u, a) && IsUsage(v, b)
    ensures u == v
  {
    SamePopulation(a, b);
    SamePopulation(b, a);
    forall c | c in u ensures c in v && u[c] == v[c] {
      SumAnyOrder(Rss, a, b, {c});
      SumAnyOrder(Shared, a, b, {c});
      assert Half(Rss, u[c]) == Half(Rss, v[c]) && Half(Shared, u[c]) == Half(Shared, v[c]);
    }
  }

  lemma SamePopulation(a: seq<ProcStats>, b: seq<ProcStats>)
    requires multiset(a) == multiset(b)
    ensures Populated(a) <= Populated(b)
  {
    forall c | c in Populated(a) ensures c in Populated(b) {
      var i :| 0 <= i < |a| && a[i].cgroupId == c;
      assert a[i] in multiset(b);
      var j :| 0 <= j < |b| && b[j] == a[i];
      assert b[j].cgroupId == c;
    }
  }

  // ---- Totals ----

  /** The values of the map added up, in whatever order it is walked. */
  function TotalOver(of: Part, usage: Usage, order: seq<u64>): nat
    requires forall i | 0 <= i < |order| :: order[i] in usage
  {
    if order == [] then 0
    else TotalOver(of, usage, order[..|order| - 1]) + Half(of, usage[order[|order| - 1]])
  }

  function Ids(order: seq<u64>): set<u64> { set c | c in order }

  lemma {:induction false} SumDisjoint(of: Part, procs: seq<ProcStats>, cgroups: set<u64>, c: u64)
    requires c !in cgroups
    ensures SumIn(of, procs, cgroups + {c}) == SumIn(of, procs, cgroups) + SumIn(of, procs, {c})
  {
    if procs != [] {
      SumDisjoint(of, procs[..|procs| - 1], cgroups, c);
    }
  }

  lemma {:induction false} SumNowhere(of: Part, procs: seq<ProcStats>)
    ensures SumIn(of, procs, {}) == 0
  {
    if procs != [] {
      SumNowhere(of, procs[..|procs| - 1]);
    }
  }

  lemma WrapSums(a: int, b: int, x: int, y: int)
    requires Wrap64(a) == Wrap64(x) && b == Wrap64(y)
    ensures Wrap64(a + b) == Wrap64(x + y)
  {
    WrapAdd(a, b);
    WrapAdd(x, b);
    WrapAdd(x, y);
  }

  lemma {:induction false} TotalOfOrder(of: Part, usage: Usage, procs: seq<ProcStats>, order: seq<u64>)
    requires IsUsage(usage, procs)
    requires forall i | 0 <= i < |order| :: order[i] in usage
    requires forall i, j | 0 <= i < j < |order| :: order[i] != order[j]
    ensures Wrap64(TotalOver(of, usage, order)) == Wrap64(SumIn(of, procs, Ids(order)))
    decreases |order|
  {
    if order == [] {
      assert Ids(order) == {};
      SumNowhere(of, procs);
    } else {
      var n := |order| - 1;
      TotalOfOrder(of, usage, procs, order[..n]);
      assert order == order[..n] + [order[n]];
      assert Ids(order) == Ids(order[..n]) + {order[n]};
      SumDisjoint(of, procs, Ids(order[..n]), order[n]);
      WrapSums(TotalOver(of, usage, order[..n]), Half(of, usage[order[n]]),
               SumIn(of, procs, Ids(order[..n])), SumIn(of, procs, {order[n]}));
    }
  }

  /** All processes that are in a cgroup at all. */
  function Grouped(of: Part, procs: seq<ProcStats>): nat {
    if procs == [] then 0
    else
      var p := procs[|procs| - 1];
      Grouped(of, procs[..|procs| - 1]) + (if p.cgroupId > 0 then Bytes(of, p) else 0)
  }

  lemma {:induction false} GroupedIsPopulated(of: Part, procs: seq<ProcStats>, cgroups: set<u64>)
    requires Populated(procs) <= cgroups && 0 !in cgroups
    ensures SumIn(of, procs, cgroups) == Grouped(of, procs)
  {
    if procs != [] {
      var n := |procs| - 1;
      assert procs[..n + 1] == procs;
      PopulatedNext(procs, n);
      GroupedIsPopulated(of, procs[..n], cgroups);
    }
  }

  /** Nothing is lost and nothing counted twice: the cgroups' totals, walked in any order, come to the
      processes' own total, mod 2^64. */
  lemma TotalsConserved(of: Part, usage: Usage, procs: seq<ProcStats>, order: seq<u64>)
    requires IsUsage(usage, procs) && VisitsEach(order, usage.Keys)
    ensures forall i | 0 <= i < |order| :: order[i] in usage
    ensures Wrap64(TotalOver(of, usage, order)) == Wrap64(Grouped(of, procs))
  {
    forall i | 0 <= i < |order| ensures order[i] in usage {
      assert order[i] in order;
    }
    TotalOfOrder(of, usage, procs, order);
    assert Ids(order) == Populated(procs);
    GroupedIsPopulated(of, procs, Populated(procs));
  }
}
