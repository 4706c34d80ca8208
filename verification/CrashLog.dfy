/**
 Crash consistency of the flight log: the logger may stop between any two file calls and be
 started again, any number of times.
 */
module CrashLog {
  import opened Records
  import opened FlightLog

  // Where the logger stands between two file calls.
  datatype Phase =
    | Stopped
    | Creating                               // fdr_open() found an empty file
    | Ready
    | Counted(report: Report, count: nat)    // fdr_write_entry() has read the count
    | Appended(count: nat)                   // and has appended its entry

  datatype Disk = Disk(bytes: seq<byte>, phase: Phase)

  datatype Call = Open | WriteHeader | ReadCount(report: Report) | WriteEntry | WriteCount | Stop

  ghost predicate Possible(d: Disk, c: Call) {
    match c
    case Open => d.phase.Stopped?
    case WriteHeader => d.phase.Creating?
    case ReadCount(r) => d.phase.Ready? && r.Valid() && |d.bytes| >= HEADER_SIZE
    case WriteEntry => d.phase.Counted? && d.phase.report.Valid() && d.phase.count < 0x7fff_ffff
    case WriteCount => d.phase.Appended? && d.phase.count < 0x8000_0000 && |d.bytes| >= HEADER_SIZE
    case Stop => true
  }

  function After(d: Disk, c: Call): Disk
    requires Possible(d, c)
  {
    match c
    case Open => d.(phase := if d.bytes == [] then Creating else Ready)
    case WriteHeader => Disk(Overwritten(d.bytes, 0, Header(0)), Ready)
    case ReadCount(r) => d.(phase := Counted(r, CountOf(d.bytes)))
    case WriteEntry =>
      Disk(Overwritten(d.bytes, |d.bytes|, Entry(d.phase.count + 1, d.phase.report)), Appended(d.phase.count + 1))
    case WriteCount => Disk(Overwritten(d.bytes, COUNT_OFFSET, Int32(d.phase.count)), Ready)
    case Stop => d.(phase := Stopped)
  }

  // fdr_write_entry(), not interrupted, is its three calls: see FlightRecorder.WriteEntry.
  lemma ThreeCallsAppend(d: Disk, r: Report)
    requires Possible(d, ReadCount(r)) && CountOf(d.bytes) < 0x7fff_ffff
    ensures var counted := After(d, ReadCount(r));
            Possible(counted, WriteEntry) && Possible(After(counted, WriteEntry), WriteCount)
            && After(After(counted, WriteEntry), WriteCount)
               == Disk(WithEntry(d.bytes, CountOf(d.bytes), r), Ready)
  {
    WriteAtEnd(d.bytes, Entry(CountOf(d.bytes) + 1, r));
    assert Successor(CountOf(d.bytes)) == CountOf(d.bytes) + 1;
  }

  // A history of the log from an empty disk.
  ghost predicate History(disks: seq<Disk>, calls: seq<Call>) {
    && |disks| == |calls| + 1
    && disks[0] == Disk([], Stopped)
    && forall k | 0 <= k < |calls| :: Possible(disks[k], calls[k]) && disks[k + 1] == After(disks[k], calls[k])
  }

  // Appends cut off between the entry and the count.
  function Interrupted(disks: seq<Disk>, calls: seq<Call>, n: nat): nat
    requires n <= |calls| < |disks|
  {
    if n == 0 then 0
    else Interrupted(disks, calls, n - 1) + (if calls[n - 1].Stop? && disks[n - 1].phase.Appended? then 1 else 0)
  }

  // The reports whose entries were written by the first n calls, one for each call of write() that
  // appended an entry.
  function ReportsWritten(disks: seq<Disk>, calls: seq<Call>, n: nat): seq<Report>
    requires n <= |calls| < |disks|
  {
    if n == 0 then []
    else
      ReportsWritten(disks, calls, n - 1)
      + (if calls[n - 1].WriteEntry? && disks[n - 1].phase.Counted? then [disks[n - 1].phase.report] else [])
  }

  // ----- the invariant -----

  function ReportsOf(items: seq<Item>): seq<Report> {
    seq(|items|, k requires 0 <= k < |items| => items[k].report)
  }

  function IdsOf(items: seq<Item>): seq<nat> {
    seq(|items|, k requires 0 <= k < |items| => items[k].id)
  }

  function LastOf(ids: seq<nat>): nat {
    if ids == [] then 0 else ids[|ids| - 1]
  }

  // Ids start at 1 and go up by 0 or 1.
  ghost predicate Climb(ids: seq<nat>) {
    && (ids != [] ==> ids[0] == 1)
    && forall k | 0 < k < |ids| :: ids[k - 1] <= ids[k] <= ids[k - 1] + 1
  }

  ghost predicate LogInv(d: Disk, count: nat, items: seq<Item>, interrupted: nat) {
    && count < 0x8000_0000 && Storable(items) && Climb(IdsOf(items))
    && (if d.bytes == [] then count == 0 && items == [] && (d.phase.Stopped? || d.phase.Creating?)
        else d.bytes == Render(count, items) && !d.phase.Creating?)
    && (d.phase.Counted? ==> d.phase.report.Valid() && d.phase.count == count)
    && (if d.phase.Appended? then
          LastOf(IdsOf(items)) == d.phase.count == count + 1 && |items| == count + interrupted + 1
        else count <= LastOf(IdsOf(items)) <= count + 1 && |items| == count + interrupted)
  }

  lemma IdAppended(items: seq<Item>, item: Item)
    requires Climb(IdsOf(items)) && LastOf(IdsOf(items)) <= item.id <= LastOf(IdsOf(items)) + 1 && item.id > 0
    ensures Climb(IdsOf(items + [item])) && LastOf(IdsOf(items + [item])) == item.id
  {
    assert IdsOf(items + [item]) == IdsOf(items) + [item.id];
  }

  lemma AppendKeepsInv(d: Disk, count: nat, items: seq<Item>, interrupted: nat) returns (items': seq<Item>)
    requires LogInv(d, count, items, interrupted) && Possible(d, WriteEntry)
    ensures LogInv(After(d, WriteEntry), count, items', interrupted)
    ensures ReportsOf(items') == ReportsOf(items) + [d.phase.report]
  {
    var item := Item(count + 1, d.phase.report);
    items' := items + [item];
    IdAppended(items, item);
    AppendRendered(count, items, item);
  }

  lemma PatchKeepsInv(d: Disk, count: nat, items: seq<Item>, interrupted: nat)
    requires LogInv(d, count, items, interrupted) && Possible(d, WriteCount)
    ensures LogInv(After(d, WriteCount), count + 1, items, interrupted)
  {
    PatchRendered(count, items, count + 1);
  }

  lemma CreateKeepsInv(d: Disk, count: nat, items: seq<Item>, interrupted: nat)
    requires LogInv(d, count, items, interrupted) && Possible(d, WriteHeader)
    ensures LogInv(After(d, WriteHeader), count, items, interrupted)
  {
    assert Overwritten([], 0, Header(0)) == Render(0, []);
  }

  lemma LogInvStep(d: Disk, c: Call, count: nat, items: seq<Item>, interrupted: nat)
    returns (count': nat, items': seq<Item>)
    requires LogInv(d, count, items, interrupted) && Possible(d, c)
    ensures LogInv(After(d, c), count', items', interrupted + (if c.Stop? && d.phase.Appended? then 1 else 0))
    ensures ReportsOf(items') == ReportsOf(items) + (if c.WriteEntry? then [d.phase.report] else [])
  {
    count', items' := count, items;
    match c {
      case WriteHeader => CreateKeepsInv(d, count, items, interrupted);
      case ReadCount(_) => CountOfRendered(count, items);
      case WriteEntry => items' := AppendKeepsInv(d, count, items, interrupted);
      case WriteCount =>
        count' := count + 1;
        PatchKeepsInv(d, count, items, interrupted);
      case _ =>
    }
  }

  lemma {:induction false} InvAt(disks: seq<Disk>, calls: seq<Call>, n: nat) returns (count: nat, items: seq<Item>)
    requires History(disks, calls) && n <= |calls|
    ensures LogInv(disks[n], count, items, Interrupted(disks, calls, n))
    ensures ReportsOf(items) == ReportsWritten(disks, calls, n)
  {
    if n == 0 {
      count, items := 0, [];
    } else {
      count, items := InvAt(disks, calls, n - 1);
      count, items := LogInvStep(disks[n - 1], calls[n - 1], count, items, Interrupted(disks, calls, n - 1));
    }
  }

  // ----- what every later reader finds -----

  function EntriesIn(file: seq<byte>): nat
    requires |file| >= HEADER_SIZE
  {
    (|file| - HEADER_SIZE) / ENTRY_SIZE
  }

  // The ids of the entries of a file.
  function IdsIn(file: seq<byte>): seq<nat>
    requires |file| >= HEADER_SIZE
  {
    seq(EntriesIn(file), k requires 0 <= k < EntriesIn(file) => EntryAt(file, k).id)
  }

  lemma RenderedReads(count: nat, items: seq<Item>)
    requires count < 0x8000_0000 && Storable(items)
    ensures var file := Render(count, items);
            && |file| == HEADER_SIZE + ENTRY_SIZE * |items| && (|file| - HEADER_SIZE) % ENTRY_SIZE == 0
            && CountOf(file) == count && EntriesIn(file) == |items| && IdsIn(file) == IdsOf(items)
  {
    CountOfRendered(count, items);
    var file := Render(count, items);
    forall k: nat | k < |items| ensures IdsIn(file)[k] == items[k].id {
      EntryOfRendered(count, items, k);
    }
  }

  lemma {:induction false} EveryIdPresent(ids: seq<nat>, id: nat)
    requires Climb(ids) && 1 <= id <= LastOf(ids)
    ensures id in ids
  {
    var n := |ids| - 1;
    if ids[n] != id {
      EveryIdPresent(ids[..n], id);
    }
  }

  // The file holds whole entries, as many as its count says plus `more`.
  predicate HoldsEntries(file: seq<byte>, more: nat) {
    |file| >= HEADER_SIZE && (|file| - HEADER_SIZE) % ENTRY_SIZE == 0 && EntriesIn(file) == CountOf(file) + more
  }

  lemma EntriesCounted(d: Disk, count: nat, items: seq<Item>, interrupted: nat)
    requires LogInv(d, count, items, interrupted) && d.bytes != []
    ensures count < 0x8000_0000 && Storable(items) && d.bytes == Render(count, items)
    ensures |items| == count + interrupted + (if d.phase.Appended? then 1 else 0)
    ensures Climb(IdsOf(items)) && count <= LastOf(IdsOf(items))
  {
  }

  lemma InvCounts(d: Disk, count: nat, items: seq<Item>, interrupted: nat)
    requires LogInv(d, count, items, interrupted) && d.bytes != []
    ensures HoldsEntries(d.bytes, interrupted + (if d.phase.Appended? then 1 else 0))
  {
    EntriesCounted(d, count, items, interrupted);
    RenderedReads(count, items);
  }

  // Whatever calls were made and wherever the logger stopped, a file with a header holds whole
  // entries, as many as its count says plus one for each interrupted append ...
  lemma CountIsConsistent(disks: seq<Disk>, calls: seq<Call>, n: nat)
    requires History(disks, calls) && n <= |calls| && disks[n].bytes != []
    ensures HoldsEntries(disks[n].bytes, Interrupted(disks, calls, n) + (if disks[n].phase.Appended? then 1 else 0))
  {
    var count, items := InvAt(disks, calls, n);
    InvCounts(disks[n], count, items, Interrupted(disks, calls, n));
  }

  // ... the ids along the file start at 1 and go up by 0 or 1, and every id from 1 to the count is there.
  lemma IdsAreConsistent(disks: seq<Disk>, calls: seq<Call>, n: nat)
    requires History(disks, calls) && n <= |calls| && disks[n].bytes != []
    ensures |disks[n].bytes| >= HEADER_SIZE
    ensures Climb(IdsIn(disks[n].bytes))
    ensures forall id | 1 <= id <= CountOf(disks[n].bytes) :: id in IdsIn(disks[n].bytes)
  {
    var count, items := InvAt(disks, calls, n);
    EntriesCounted(disks[n], count, items, Interrupted(disks, calls, n));
    RenderedReads(count, items);
    forall id | 1 <= id <= count ensures id in IdsOf(items) {
      EveryIdPresent(IdsOf(items), id);
    }
  }

  lemma RenderedTells(count: nat, items: seq<Item>, k: nat)
    requires count < 0x8000_0000 && Storable(items) && k < |items|
    ensures |Render(count, items)| >= HEADER_SIZE + ENTRY_SIZE * (k + 1)
    ensures Tells(EntryAt(Render(count, items), k), items[k].id, ReportsOf(items)[k])
  {
    EntryOfRendered(count, items, k);
  }

  // No report is lost, moved or damaged, by whatever stops: the file holds one entry for each append that
  // was made, and the k-th entry decodes to the report of the k-th append.
  lemma EntriesAreReports(disks: seq<Disk>, calls: seq<Call>, n: nat, k: nat)
    requires History(disks, calls) && n <= |calls| && k < |ReportsWritten(disks, calls, n)|
    ensures var file, reports := disks[n].bytes, ReportsWritten(disks, calls, n);
            && |file| == HEADER_SIZE + ENTRY_SIZE * |reports| && |file| >= HEADER_SIZE + ENTRY_SIZE * (k + 1)
            && Tells(EntryAt(file, k), EntryAt(file, k).id, reports[k])
  {
    var count, items := InvAt(disks, calls, n);
    assert |items| == |ReportsOf(items)|;
    EntriesCounted(disks[n], count, items, Interrupted(disks, calls, n));
    CountOfRendered(count, items);
    RenderedTells(count, items, k);
  }
}
