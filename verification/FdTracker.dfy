/**
 The file-descriptor tracker: one hash map merged from the live open and close hooks and a one-time
 iterator scan, in any interleaving of the three, and its readers.
 */
module FdTracker {
  import opened Machine
  import opened BatchReader

  const MAX_FDS: nat := 65536

  /** `struct procfast_fd_info`. */
  datatype FdInfo = FdInfo(pid: u32, fd: u32, openTimeNs: u64, inode: u64, flags: u32, path: string)

  /** What a hook can read of the file itself. */
  datatype FileDetails = FileDetails(inode: u64, flags: u32, path: string)

  /** The two hooks and the iterator callback; `ret` is the signed result of the open. */
  datatype Event =
    | Open(now: u64, tgid: u32, ret: int, details: FileDetails)
    | Close(tgid: u32, fd: u32)
    | Dump(task: Option<(u32, u32)>, file: Option<FileDetails>, fd: u32)  // task: (pid, tgid)

  function OpenKey(e: Event): u64
    requires e.Open?
  {
    Pack(e.tgid, Wrap32(e.ret))
  }

  function OpenRecord(e: Event): FdInfo
    requires e.Open?
  {
    FdInfo(e.tgid, Wrap32(e.ret), e.now, e.details.inode, e.details.flags, e.details.path)
  }

  /** The iterator only takes files of thread-group leaders. */
  predicate Taken(e: Event) {
    e.Dump? && e.task.Some? && e.file.Some? && e.task.value.0 == e.task.value.1
  }

  function DumpKey(e: Event): u64
    requires Taken(e)
  {
    Pack(e.task.value.1, e.fd)
  }

  function DumpRecord(e: Event): FdInfo
    requires Taken(e)
  {
    FdInfo(e.task.value.1, e.fd, 0, e.file.value.inode, e.file.value.flags, e.file.value.path)
  }

  function Step(m: map<u64, FdInfo>, e: Event): map<u64, FdInfo> {
    match e
    case Open(_, _, ret, _) => if ret < 0 then m else UpdateAny(m, MAX_FDS, OpenKey(e), OpenRecord(e))
    case Close(tgid, fd) => m - {Pack(tgid, fd)}
    case Dump(_, _, _) => if Taken(e) then UpdateNoExist(m, MAX_FDS, DumpKey(e), DumpRecord(e)) else m
  }

  // ---- The hooks in place ----

  class Tracker {
    var fdEntries: map<u64, FdInfo>

    constructor ()
      ensures fdEntries == map[]
    {
      fdEntries := map[];
    }

    /** `procfast_fexit_openat2`. */
    method FexitOpenat2(now: u64, tgid: u32, ret: int, file: FileDetails)
      modifies this
      ensures fdEntries == Step(old(fdEntries), Open(now, tgid, ret, file))
    {
      if ret < 0 {
        return;
      }
      var fd := Wrap32(ret);
      var info := FdInfo(tgid, fd, now, file.inode, file.flags, file.path);
      fdEntries := UpdateAny(fdEntries, MAX_FDS, Pack(tgid, fd), info);
    }

    /** `procfast_fentry_close_fd`. */
    method FentryCloseFd(tgid: u32, fd: u32)
      modifies this
      ensures fdEntries == Step(old(fdEntries), Close(tgid, fd))
    {
      fdEntries := fdEntries - {Pack(tgid, fd)};
    }

    /** `procfast_fd_dump_task_file`. */
    method DumpTaskFile(task: Option<(u32, u32)>, file: Option<FileDetails>, fd: u32)
      modifies this
      ensures fdEntries == Step(old(fdEntries), Dump(task, file, fd))
    {
      if task.None? || file.None? {
        return;
      }
      var (pid, tgid) := task.value;
      if pid != tgid {
        return;
      }
      var info := FdInfo(tgid, fd, 0, file.value.inode, file.value.flags, file.value.path);
      fdEntries := UpdateNoExist(fdEntries, MAX_FDS, Pack(tgid, fd), info);
    }
  }

  // ---- Whole runs ----

  function Run(events: seq<Event>): map<u64, FdInfo> {
    if events == [] then map[] else Step(Run(events[..|events| - 1]), events[|events| - 1])
  }

  lemma RunNext(events: seq<Event>, i: nat)
    requires i < |events|
    ensures Run(events[..i + 1]) == Step(Run(events[..i]), events[i])
  {
    assert events[..i + 1][..i] == events[..i];
  }

  function KeyOf(): FdInfo -> u64 { (v: FdInfo) => Pack(v.pid, v.fd) }

  ghost predicate Keyed(m: map<u64, FdInfo>) {
    forall k | k in m :: m[k].pid == HighHalf(k) && m[k].fd == LowHalf(k)
  }

  /** Inserting a record under the key packed from its own pid and fd. */
  lemma InsertKeyed(m: map<u64, FdInfo>, v: FdInfo, key: u64)
    requires Keyed(m) && |m| <= MAX_FDS && v.pid == HighHalf(key) && v.fd == LowHalf(key)
    ensures Keyed(UpdateAny(m, MAX_FDS, key, v)) && |UpdateAny(m, MAX_FDS, key, v)| <= MAX_FDS
    ensures Keyed(UpdateNoExist(m, MAX_FDS, key, v)) && |UpdateNoExist(m, MAX_FDS, key, v)| <= MAX_FDS
  {
    CapacityKept(m, MAX_FDS, key, v);
  }

  lemma RemoveKeyed(m: map<u64, FdInfo>, key: u64)
    requires Keyed(m) && |m| <= MAX_FDS
    ensures Keyed(m - {key}) && |m - {key}| <= MAX_FDS
  {
    SubmapSize(m - {key}, m);
  }

  lemma RecordsKeyed(e: Event)
    ensures e.Open? ==> OpenRecord(e).pid == HighHalf(OpenKey(e)) && OpenRecord(e).fd == LowHalf(OpenKey(e))
    ensures Taken(e) ==> DumpRecord(e).pid == HighHalf(DumpKey(e)) && DumpRecord(e).fd == LowHalf(DumpKey(e))
  {
    if e.Open? {
      PackRoundTrip(e.tgid, Wrap32(e.ret), 0);
    } else if Taken(e) {
      PackRoundTrip(e.task.value.1, e.fd, 0);
    }
  }

  lemma StepKeyed(m: map<u64, FdInfo>, e: Event)
    requires Keyed(m) && |m| <= MAX_FDS
    ensures Keyed(Step(m, e)) && |Step(m, e)| <= MAX_FDS
  {
    RecordsKeyed(e);
    match e
    case Open(_, _, ret, _) => if ret >= 0 { InsertKeyed(m, OpenRecord(e), OpenKey(e)); }
    case Close(tgid, fd) => RemoveKeyed(m, Pack(tgid, fd));
    case Dump(_, _, _) => if Taken(e) { InsertKeyed(m, DumpRecord(e), DumpKey(e)); }
  }

  /** In every run every value's pid and fd are the two halves of its key, whichever of the hooks and
      the iterator put it there, and the map stays within its capacity. */
  lemma {:induction false} ValuesDecodeKeys(events: seq<Event>)
    ensures Keyed(Run(events)) && |Run(events)| <= MAX_FDS
  {
    if events != [] {
      ValuesDecodeKeys(events[..|events| - 1]);
      StepKeyed(Run(events[..|events| - 1]), events[|events| - 1]);
    }
  }

  /** The scan takes a leader's file where the key is absent and the map has room, as the file's
      details say and with open time 0; a file met through another thread, or no file, leaves the map. */
  lemma ScanTakesLeaders(m: map<u64, FdInfo>, pid: u32, tgid: u32, file: Option<FileDetails>, fd: u32)
    ensures Step(m, Dump(None, file, fd)) == m && Step(m, Dump(Some((pid, tgid)), None, fd)) == m
    ensures pid != tgid ==> Step(m, Dump(Some((pid, tgid)), file, fd)) == m
    ensures pid == tgid && file.Some? ==>
              Step(m, Dump(Some((pid, tgid)), file, fd))
              == (if Pack(tgid, fd) in m || |m| >= 65536 then m
                  else m[Pack(tgid, fd) := FdInfo(tgid, fd, 0, file.value.inode, file.value.flags, file.value.path)])
  {
  }

  // ---- Who decides what a key holds ----

  /** A successful open of the process and descriptor in the key's halves. */
  predicate Opens(e: Event, key: u64) { e.Open? && e.ret >= 0 && key == Pack(e.tgid, Wrap32(e.ret)) }

  predicate Closes(e: Event, key: u64) { e.Close? && Pack(e.tgid, e.fd) == key }

  /** The scan meets a file of a thread-group leader. */
  predicate Dumps(e: Event, key: u64) {
    match e
    case Dump(Some((pid, tgid)), Some(_), fd) => pid == tgid && key == Pack(tgid, fd)
    case _ => false
  }

  /** The record tells what the event saw; the scan cannot tell when the file was opened. */
  predicate Tells(v: FdInfo, e: Event) {
    match e
    case Open(now, tgid, ret, file) => v == FdInfo(tgid, Wrap32(ret), now, file.inode, file.flags, file.path)
    case Dump(Some((_, tgid)), Some(file), fd) => v == FdInfo(tgid, fd, 0, file.inode, file.flags, file.path)
    case _ => false
  }

  predicate Holds(m: map<u64, FdInfo>, key: u64, e: Event) { key in m && Tells(m[key], e) }

  /** No hook touches the key from event `from` on. */
  predicate HooksQuiet(events: seq<Event>, from: nat, key: u64) {
    forall i | from <= i < |events| :: !Opens(events[i], key) && !Closes(events[i], key)
  }

  predicate IteratorQuiet(events: seq<Event>, from: nat, to: nat, key: u64)
    requires to <= |events|
  {
    forall i | from <= i < to :: !Dumps(events[i], key)
  }

  /** The guard of `bpf_map_update_elem` for the event at i. */
  predicate RoomAt(events: seq<Event>, i: nat, key: u64)
    requires i <= |events|
  {
    key in Run(events[..i]) || |Run(events[..i])| < 65536
  }

  lemma StepQuiet(m: map<u64, FdInfo>, e: Event, key: u64)
    requires !Opens(e, key) && !Closes(e, key)
    ensures key in m ==> Lookup(Step(m, e), key) == Lookup(m, key)
    ensures !Dumps(e, key) ==> Lookup(Step(m, e), key) == Lookup(m, key)
  {
  }

  /** What a key holds survives everything but its own hooks; the iterator never overwrites it. */
  lemma {:induction false} HeldThrough(events: seq<Event>, from: nat, key: u64)
    requires from <= |events| && HooksQuiet(events, from, key)
    requires key in Run(events[..from])
    ensures Lookup(Run(events), key) == Lookup(Run(events[..from]), key)
  {
    if from == |events| {
      assert events[..from] == events;
    } else {
      var before := events[..|events| - 1];
      assert before[..from] == events[..from];
      assert forall i | from <= i < |before| :: before[i] == events[i];
      HeldThrough(before, from, key);
      StepQuiet(Run(before), events[|before|], key);
    }
  }

  /** An absent key stays absent until a hook or the iterator brings it. */
  lemma {:induction false} AbsentThrough(events: seq<Event>, from: nat, to: nat, key: u64)
    requires from <= to <= |events| && HooksQuiet(events, from, key) && IteratorQuiet(events, from, to, key)
    requires key !in Run(events[..from])
    ensures key !in Run(events[..to])
  {
    if from < to {
      AbsentThrough(events, from, to - 1, key);
      RunNext(events, to - 1);
      StepQuiet(Run(events[..to - 1]), events[to - 1], key);
    }
  }

  /** A key whose latest hook event is an open holds that open's record, exactly when the open found
      room; otherwise it holds nothing, unless the iterator brings it later. */
  lemma LatestOpenWins(events: seq<Event>, i: nat, key: u64)
    requires i < |events| && Opens(events[i], key) && HooksQuiet(events, i + 1, key)
    ensures RoomAt(events, i, key) ==> Holds(Run(events), key, events[i])
    ensures !RoomAt(events, i, key) && IteratorQuiet(events, i + 1, |events|, key) ==> key !in Run(events)
  {
    RunNext(events, i);
    if RoomAt(events, i, key) {
      HeldThrough(events, i + 1, key);
    } else if IteratorQuiet(events, i + 1, |events|, key) {
      AbsentThrough(events, i + 1, |events|, key);
      assert events[..|events|] == events;
    }
  }

  /** From load or from a close on, with no open since: the key holds the record of the first
      iterator call about it, exactly when that call found room; with no such call it holds nothing. */
  lemma {:induction false} IteratorFillsGaps(events: seq<Event>, from: nat, key: u64)
    requires from <= |events| && HooksQuiet(events, from, key)
    requires from == 0 || Closes(events[from - 1], key)
    ensures IteratorQuiet(events, from, |events|, key) ==> key !in Run(events)
    ensures forall j | from <= j < |events| && Dumps(events[j], key) && IteratorQuiet(events, from, j, key)
                       && RoomAt(events, j, key) :: Holds(Run(events), key, events[j])
    ensures forall j | from <= j < |events| && Dumps(events[j], key) && IteratorQuiet(events, from, j, key)
                       && !RoomAt(events, j, key) && IteratorQuiet(events, j + 1, |events|, key) :: key !in Run(events)
  {
    if from > 0 {
      RunNext(events, from - 1);
    }
    if IteratorQuiet(events, from, |events|, key) {
      AbsentThrough(events, from, |events|, key);
      assert events[..|events|] == events;
    }
    forall j | from <= j < |events| && Dumps(events[j], key) && IteratorQuiet(events, from, j, key)
      ensures RoomAt(events, j, key) ==> Holds(Run(events), key, events[j])
      ensures !RoomAt(events, j, key) && IteratorQuiet(events, j + 1, |events|, key) ==> key !in Run(events)
    {
      AbsentThrough(events, from, j, key);
      FirstDump(events, j, key);
    }
  }

  lemma FirstDump(events: seq<Event>, j: nat, key: u64)
    requires j < |events| && HooksQuiet(events, j, key) && Dumps(events[j], key)
    requires key !in Run(events[..j])
    ensures RoomAt(events, j, key) ==> Holds(Run(events), key, events[j])
    ensures !RoomAt(events, j, key) && IteratorQuiet(events, j + 1, |events|, key) ==> key !in Run(events)
  {
    RunNext(events, j);
    if RoomAt(events, j, key) {
      HeldThrough(events, j + 1, key);
    } else if IteratorQuiet(events, j + 1, |events|, key) {
      AbsentThrough(events, j + 1, |events|, key);
      assert events[..|events|] == events;
    }
  }

  // ---- The readers ----

  /** `lookup(pid, fd)` and `procfast_read_fd`: one packed key. */
  function LookupFd(m: map<u64, FdInfo>, pid: u32, fd: u32): Option<FdInfo> { Lookup(m, Pack(pid, fd)) }

  /** `list_pid`: a snapshot, filtered by the pid in the values. */
  function ListPid(all: seq<FdInfo>, pid: u32): seq<FdInfo> {
    if all == [] then []
    else
      var v := all[|all| - 1];
      ListPid(all[..|all| - 1], pid) + (if v.pid == pid then [v] else [])
  }

  /** In every run and for every division into batches: the snapshot re-keyed is the map, and looking
      a pid and fd up finds exactly the snapshot's entry with that pid and fd. */
  lemma {:induction false} LookupAgrees(events: seq<Event>, batches: seq<seq<FdInfo>>, order: seq<u64>,
                                        pid: u32, fd: u32, v: FdInfo)
    requires Enumerates(Flatten(batches), Run(events), order)
    ensures Rekey(Flatten(batches), KeyOf()) == Run(events)
    ensures LookupFd(Run(events), pid, fd) == Some(v)
            <==> v in Flatten(batches) && v.pid == pid && v.fd == fd
  {
    var m, all := Run(events), Flatten(batches);
    KeysComeBack(events);
    RebuildExactly(all, m, order, KeyOf());
    RekeyContents(all, KeyOf());
    PackRoundTrip(pid, fd, 0);
    if v in all && v.pid == pid && v.fd == fd {
      SameKeySameValue(all, m, order, KeyOf(), v, Pack(pid, fd));
    }
  }

  lemma KeysComeBack(events: seq<Event>)
    ensures forall k | k in Run(events) :: KeyOf()(Run(events)[k]) == k
  {
    ValuesDecodeKeys(events);
    forall k | k in Run(events) ensures KeyOf()(Run(events)[k]) == k {
      PackRoundTrip(0, 0, k);
    }
  }

  function KeysOfPid(m: map<u64, FdInfo>, pid: u32): set<u64> { set k | k in m && HighHalf(k) == pid }

  /** `list_pid` returns the entries whose key has the pid in its high half: all of them, nothing
      else, and none twice. */
  lemma {:induction false} ListPidExact(events: seq<Event>, batches: seq<seq<FdInfo>>, order: seq<u64>, pid: u32)
    requires Enumerates(Flatten(batches), Run(events), order)
    ensures var m, list := Run(events), ListPid(Flatten(batches), pid);
            && (forall v :: v in list <==> exists k :: k in KeysOfPid(m, pid) && m[k] == v)
            && |list| == |KeysOfPid(m, pid)|
  {
    var m, all := Run(events), Flatten(batches);
    ValuesDecodeKeys(events);
    ListPidMembers(all, pid);
    forall v | v in all && v.pid == pid ensures exists k :: k in KeysOfPid(m, pid) && m[k] == v {
      var i :| 0 <= i < |all| && all[i] == v;
      assert order[i] in KeysOfPid(m, pid);
    }
    forall k | k in KeysOfPid(m, pid) ensures m[k] in all && m[k].pid == pid {
      assert k in order;
    }
    ListPidSize(all, m, order, pid, |order|);
    assert all[..|order|] == all;
    assert KeysOfPid(m, pid) == Listed(order[..|order|], pid);
  }

  lemma {:induction false} ListPidMembers(all: seq<FdInfo>, pid: u32)
    ensures forall v :: v in ListPid(all, pid) <==> v in all && v.pid == pid
  {
    if all != [] {
      ListPidMembers(all[..|all| - 1], pid);
      assert all == all[..|all| - 1] + [all[|all| - 1]];
    }
  }

  function Listed(order: seq<u64>, pid: u32): set<u64> { set k | k in order && HighHalf(k) == pid }

  lemma ListedNext(order: seq<u64>, n: nat, pid: u32)
    requires n < |order| && (forall i, j | 0 <= i < j < |order| :: order[i] != order[j])
    ensures |Listed(order[..n + 1], pid)|
            == |Listed(order[..n], pid)| + (if HighHalf(order[n]) == pid then 1 else 0)
  {
    assert order[..n + 1] == order[..n] + [order[n]];
    assert Listed(order[..n + 1], pid)
           == Listed(order[..n], pid) + (if HighHalf(order[n]) == pid then {order[n]} else {});
  }

  lemma {:induction false} ListPidSize(all: seq<FdInfo>, m: map<u64, FdInfo>, order: seq<u64>, pid: u32, n: nat)
    requires Enumerates(all, m, order) && Keyed(m) && n <= |order|
    ensures |ListPid(all[..n], pid)| == |Listed(order[..n], pid)|
  {
    if n == 0 {
      assert Listed(order[..n], pid) == {};
    } else {
      ListPidSize(all, m, order, pid, n - 1);
      assert all[..n][..n - 1] == all[..n - 1];
      ListedNext(order, n - 1, pid);
    }
  }
}
