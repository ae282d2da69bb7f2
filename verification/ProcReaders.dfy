/** What user space gets from the process map: a whole snapshot, one entry, or a refreshed cache. */
module ProcReaders {
  import opened Machine
  import opened ProcTracker
  import opened BatchReader
  import Ledger
  import Incarnations

  function PidOf(): ProcStats -> u32 { (s: ProcStats) => s.pid }

  // ---- Snapshot and lookup ----

  /** In every state any run of the hooks reaches, however the kernel divides the map: re-keying a
      batch snapshot by pid gives back the kernel's map, so looking one pid up finds exactly the
      entry of that pid in the snapshot; and the snapshot is no longer than the map's capacity. */
  lemma {:induction false} SnapshotIsMap(boot: Ledger.World, events: seq<Ledger.Event>, batches: seq<seq<ProcStats>>,
                      order: seq<u32>, pid: u32, v: ProcStats)
    requires Ledger.Boot(boot)
    requires Enumerates(Flatten(batches), Ledger.After(boot, events).maps.procs, order)
    ensures var m, all := Ledger.After(boot, events).maps.procs, Flatten(batches);
            && Rekey(all, PidOf()) == m
            && (Lookup(m, pid) == Some(v) <==> v in all && v.pid == pid)
            && |all| == |m| <= MAX_PROCS
  {
    Incarnations.BootAccounts(boot);
    Incarnations.AlwaysAccounted(boot, events);
    KeyedSnapshot(Ledger.After(boot, events).maps, Ledger.After(boot, events).clock,
                  Flatten(batches), order, pid, v);
  }

  lemma KeyedSnapshot(m: Maps, clock: u64, all: seq<ProcStats>, order: seq<u32>, pid: u32, v: ProcStats)
    requires MapsOk(m, clock) && Enumerates(all, m.procs, order)
    ensures Rekey(all, PidOf()) == m.procs
    ensures Lookup(m.procs, pid) == Some(v) <==> v in all && v.pid == pid
    ensures |all| == |m.procs| <= MAX_PROCS
  {
    forall g | g in m.procs ensures PidOf()(m.procs[g]) == g {
      assert EntryOk(m.procs[g], g, clock);
    }
    RebuildExactly(all, m.procs, order, PidOf());
    RekeyContents(all, PidOf());
    OrderSize(order, m.procs.Keys);
    if v in all && v.pid == pid {
      SameKeySameValue(all, m.procs, order, PidOf(), v, pid);
    }
  }

  // ---- The cache ----

  /** How many of the pids are in the map, repetitions counted. */
  function Found<V>(stats: map<u32, V>, pids: seq<u32>): nat {
    if pids == [] then 0
    else Found(stats, pids[..|pids| - 1]) + (if pids[|pids| - 1] in stats then 1 else 0)
  }

  function Tracked<V>(stats: map<u32, V>, pids: seq<u32>): set<u32> {
    set p | p in pids && p in stats
  }

  lemma TrackedNext<V>(stats: map<u32, V>, front: seq<u32>, p: u32)
    requires p !in front
    ensures |Tracked(stats, front + [p])| == |Tracked(stats, front)| + (if p in stats then 1 else 0)
  {
    assert Tracked(stats, front + [p]) == Tracked(stats, front) + (if p in stats then {p} else {});
  }

  /** With no pid listed twice, that is how many of the listed pids are tracked. */
  lemma {:induction false} FoundDistinct<V>(stats: map<u32, V>, pids: seq<u32>)
    requires forall i, j | 0 <= i < j < |pids| :: pids[i] != pids[j]
    ensures Found(stats, pids) == |Tracked(stats, pids)|
  {
    if pids != [] {
      var front, p := pids[..|pids| - 1], pids[|pids| - 1];
      assert pids == front + [p];
      FoundDistinct(stats, front);
      TrackedNext(stats, front, p);
    }
  }

  /** Entries of the listed pids that exist are replaced; everything else stays, dead pids included. */
  function Refresh<V>(cache: map<u32, V>, stats: map<u32, V>, pids: seq<u32>): map<u32, V> {
    map p | p in cache.Keys + stats.Keys && (p in cache || p in pids) ::
      if p in pids && p in stats then stats[p] else cache[p]
  }

  class PidCache {
    var entries: map<u32, ProcStats>

    /** `refresh_pids`. */
    method RefreshPids(stats: map<u32, ProcStats>, pids: seq<u32>) returns (count: nat)
      modifies this
      ensures entries == Refresh(old(entries), stats, pids)
      ensures count == Found(stats, pids)
    {
      count := 0;
      for i := 0 to |pids|
        invariant entries == Refresh(old(entries), stats, pids[..i])
        invariant count == Found(stats, pids[..i])
      {
        assert pids[..i + 1] == pids[..i] + [pids[i]];
        if pids[i] in stats {
          entries := entries[pids[i] := stats[pids[i]]];
          count := count + 1;
        }
      }
      assert pids[..|pids|] == pids;
    }
  }

  /** A refreshed cache equals the kernel's map exactly when it held no vanished pid and every pid
      not listed was already up to date. */
  lemma RefreshSuffices<V>(cache: map<u32, V>, stats: map<u32, V>, pids: seq<u32>)
    ensures Refresh(cache, stats, pids) == stats <==>
              && cache.Keys <= stats.Keys
              && forall p | p in stats && p !in pids :: p in cache && cache[p] == stats[p]
  {
    var r := Refresh(cache, stats, pids);
    if r == stats {
      assert forall p | p in cache :: p in r;
      assert forall p | p in stats && p !in pids :: p in r && r[p] == cache[p];
    }
  }
}
