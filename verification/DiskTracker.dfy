/**
 The disk collector: a device-to-slot index over a fixed array, filled from two independent hooks.
 Whole runs are compared with the plain account of what happened: which devices were seen, in which
 order, and what each of them completed.
 */
module DiskTracker {
  import opened Machine

  const MAX_DISKS: nat := 64

  /** `struct gendisk`, as far as the hooks read it. */
  datatype Gendisk = Gendisk(major: u32, minor: u32, name: string)

  function KeyOf(d: Gendisk): u64 { Pack(d.major, d.minor) }

  datatype IoWords = IoWords(readIos: u64, readSectors: u64, writeIos: u64, writeSectors: u64)

  /** `struct procfast_disk_stats`, without the fields no hook writes. */
  datatype DiskStats = DiskStats(name: string, major: u32, minor: u32, io: IoWords)

  const EMPTY: DiskStats := DiskStats("", 0, 0, IoWords(0, 0, 0, 0))

  /** The values of the three maps. */
  datatype Disks = Disks(
    disks: seq<DiskStats>, nrDisks: u32, timestampNs: u64, slots: map<u64, u32>, next: u32)

  /** A request that completed: bit 0 of its flags tells writes from the rest. */
  datatype Request = Request(disk: Option<Gendisk>, cmdFlags: u32, nrBytes: u32)

  predicate IsWrite(rq: Request) { rq.cmdFlags % 2 == 1 }

  function Sectors(rq: Request): u32 { rq.nrBytes / 512 }

  // ---- The two hooks, as functions of the maps ----

  function AddIo(io: IoWords, write: bool, sectors: u32): IoWords {
    if write
    then io.(writeIos := Wrap64(io.writeIos as int + 1), writeSectors := Wrap64(io.writeSectors as int + sectors))
    else io.(readIos := Wrap64(io.readIos as int + 1), readSectors := Wrap64(io.readSectors as int + sectors))
  }

  /** Give the device the next slot and label it, if there is one left. */
  function Assign(s: Disks, d: Gendisk): Disks
    requires |s.disks| == MAX_DISKS
  {
    if KeyOf(d) in s.slots || s.next >= MAX_DISKS then s
    else s.(next := s.next + 1,
            slots := s.slots[KeyOf(d) := s.next],
            disks := s.disks[s.next := s.disks[s.next].(name := d.name, major := d.major, minor := d.minor)],
            nrDisks := if s.next + 1 > s.nrDisks then s.next + 1 else s.nrDisks)
  }

  function Shown(s: Disks, now: u64, disk: Option<Gendisk>): Disks
    requires Sound(s)
  {
    if disk.None? then s
    else
      var d := disk.value;
      var s1 := Assign(s, d);
      if KeyOf(d) !in s1.slots then s1
      else
        var at := s1.slots[KeyOf(d)];
        s1.(disks := s1.disks[at := s1.disks[at].(name := d.name, major := d.major, minor := d.minor)],
            nrDisks := if s1.next > s1.nrDisks then s1.next else s1.nrDisks,
            timestampNs := now)
  }

  function Completed(s: Disks, now: u64, rq: Request): Disks
    requires Sound(s)
  {
    if rq.disk.None? then s
    else
      var d := rq.disk.value;
      var s1 := Assign(s, d);
      if KeyOf(d) !in s1.slots then s1
      else
        var at := s1.slots[KeyOf(d)];
        s1.(disks := s1.disks[at := s1.disks[at].(io := AddIo(s1.disks[at].io, IsWrite(rq), Sectors(rq)))],
            timestampNs := now)
  }

  /** What the hooks rely on and keep: as many devices in the index as slots handed out. */
  predicate Sound(s: Disks) {
    && |s.disks| == MAX_DISKS
    && |s.slots| == s.next <= MAX_DISKS
    && (forall k | k in s.slots :: s.slots[k] < s.next)
  }

  lemma AssignSound(s: Disks, d: Gendisk)
    requires Sound(s)
    ensures Sound(Assign(s, d))
  {
    InsertSize(s.slots, KeyOf(d), s.next);
  }

  /** A completion of a device that holds a slot: an even flag word counts one operation and the whole
      512-byte sectors among the reads, an odd one among the writes, and the other two words stay. */
  lemma RequestCounted(s: Disks, now: u64, rq: Request)
    requires Sound(s) && rq.disk.Some? && KeyOf(rq.disk.value) in s.slots
    ensures var at := s.slots[KeyOf(rq.disk.value)];
            var io, io', sectors := s.disks[at].io, Completed(s, now, rq).disks[at].io, rq.nrBytes / 512;
            if rq.cmdFlags % 2 == 0
            then && io'.readIos == Wrap64(io.readIos as int + 1)
                 && io'.readSectors == Wrap64(io.readSectors as int + sectors)
                 && io'.writeIos == io.writeIos && io'.writeSectors == io.writeSectors
            else && io'.writeIos == Wrap64(io.writeIos as int + 1)
                 && io'.writeSectors == Wrap64(io.writeSectors as int + sectors)
                 && io'.readIos == io.readIos && io'.readSectors == io.readSectors
  {
  }

  // ---- The hooks in place ----

  class Collector {
    const disks: array<DiskStats>
    var nrDisks: u32
    var timestampNs: u64
    var devSlots: map<u64, u32>
    var nextSlot: u32

    constructor ()
      ensures View() == Start() && Sound(View()) && fresh(disks)
    {
      disks := new DiskStats[MAX_DISKS](i => EMPTY);
      nrDisks, timestampNs, devSlots, nextSlot := 0, 0, map[], 0;
    }

    ghost function View(): Disks
      reads this, disks
    {
      Disks(disks[..], nrDisks, timestampNs, devSlots, nextSlot)
    }

    /** `fentry_diskstats_show`. */
    method DiskstatsShow(now: u64, gd: Option<Gendisk>)
      requires Sound(View())
      modifies this, disks
      ensures View() == Shown(old(View()), now, gd) && Sound(View())
    {
      if gd.None? {
        return;
      }
      AssignSound(View(), gd.value);
      var key := KeyOf(gd.value);
      var slot: u32;
      if key in devSlots {
        slot := devSlots[key];
      } else {
        slot := nextSlot;
        if slot >= MAX_DISKS {
          return;
        }
        nextSlot := nextSlot + 1;
        devSlots := UpdateAny(devSlots, MAX_DISKS, key, slot);
      }
      disks[slot] := disks[slot].(name := gd.value.name, major := gd.value.major, minor := gd.value.minor);
      if nextSlot > nrDisks {
        nrDisks := nextSlot;
      }
      timestampNs := now;
    }

    /** `block_rq_complete`. */
    method BlockRqComplete(now: u64, rq: Request)
      requires Sound(View())
      modifies this, disks
      ensures View() == Completed(old(View()), now, rq) && Sound(View())
    {
      if rq.disk.None? {
        return;
      }
      var d := rq.disk.value;
      AssignSound(View(), d);
      var key := KeyOf(d);
      if key !in devSlots {
        var slot := nextSlot;
        if slot >= MAX_DISKS {
          return;
        }
        nextSlot := nextSlot + 1;
        devSlots := UpdateAny(devSlots, MAX_DISKS, key, slot);
        if key !in devSlots {
          return;
        }
        disks[slot] := disks[slot].(name := d.name, major := d.major, minor := d.minor);
        if slot + 1 > nrDisks {
          nrDisks := slot + 1;
        }
      }
      var idx := devSlots[key];
      disks[idx] := disks[idx].(io := AddIo(disks[idx].io, IsWrite(rq), Sectors(rq)));
      timestampNs := now;
    }
  }

  function Start(): Disks {
    Disks(seq(MAX_DISKS, i => EMPTY), 0, 0, map[], 0)
  }
}
