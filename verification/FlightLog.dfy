/** The flight recorder file: logger/file_io.c, byte by byte and file call by file call. */
module FlightLog {
  import opened Records

  // "FDRLOG" and "APEX-SAT-01".
  const MAGIC: seq<byte> := [70, 68, 82, 76, 79, 71]
  const MISSION: seq<byte> := [65, 80, 69, 88, 45, 83, 65, 84, 45, 48, 49]

  // fdr_header_t: the creation time is never filled in.
  function Header(count: nat): (h: seq<byte>)
    requires count < 0x1_0000_0000
    ensures |h| == HEADER_SIZE
  {
    (Field(MAGIC, 8) + Field(MISSION, 16) + Int32(1)) + Int32(count) + (Zeros(32) + Zeros(52))
  }

  function CountOf(file: seq<byte>): nat
    requires |file| >= HEADER_SIZE
  {
    FromInt32(file[COUNT_OFFSET..COUNT_OFFSET + 4])
  }

  // What write() does at a position inside or at the end of the file.
  function Overwritten(file: seq<byte>, pos: nat, data: seq<byte>): (r: seq<byte>)
    requires pos <= |file|
  {
    file[..pos] + data + if pos + |data| <= |file| then file[pos + |data|..] else []
  }

  // An entry as the file holds it.
  datatype Item = Item(id: nat, report: Report)

  ghost predicate Storable(items: seq<Item>) {
    forall i | 0 <= i < |items| :: items[i].id < 0x1_0000_0000 && items[i].report.Valid()
  }

  ghost predicate Blocks(blocks: seq<seq<byte>>) {
    forall i | 0 <= i < |blocks| :: |blocks[i]| == ENTRY_SIZE
  }

  function Flat(blocks: seq<seq<byte>>): (b: seq<byte>)
    requires Blocks(blocks)
    ensures |b| == ENTRY_SIZE * |blocks|
  {
    if blocks == [] then [] else Flat(blocks[..|blocks| - 1]) + blocks[|blocks| - 1]
  }

  function Entries(items: seq<Item>): (b: seq<seq<byte>>)
    requires Storable(items)
    ensures Blocks(b)
  {
    seq(|items|, i requires 0 <= i < |items| => Entry(items[i].id, items[i].report))
  }

  function Body(items: seq<Item>): (b: seq<byte>)
    requires Storable(items)
    ensures |b| == ENTRY_SIZE * |items|
  {
    Flat(Entries(items))
  }

  // A whole file. The count need not be the number of entries: a crash may have come between.
  function Render(count: nat, items: seq<Item>): (file: seq<byte>)
    requires count < 0x1_0000_0000 && Storable(items)
    ensures |file| >= HEADER_SIZE
  {
    Header(count) + Body(items)
  }

  // ----- what the file says -----

  lemma CountOfRendered(count: nat, items: seq<Item>)
    requires count < 0x1_0000_0000 && Storable(items)
    ensures |Render(count, items)| == HEADER_SIZE + ENTRY_SIZE * |items|
    ensures CountOf(Render(count, items)) == count
  {
    assert Render(count, items)[28..32] == Int32(count);
    Int32RoundTrip(count);
  }

  // The k-th entry of a file.
  function EntryAt(file: seq<byte>, k: nat): Decoded
    requires |file| >= HEADER_SIZE + ENTRY_SIZE * (k + 1)
  {
    Decode(file[HEADER_SIZE + ENTRY_SIZE * k..HEADER_SIZE + ENTRY_SIZE * (k + 1)])
  }

  // The k-th stretch of 136 bytes.
  predicate HasEntry(body: seq<byte>, k: nat, e: seq<byte>) {
    |body| >= ENTRY_SIZE * (k + 1) && body[ENTRY_SIZE * k..ENTRY_SIZE * (k + 1)] == e
  }

  lemma MoreEntries(a: seq<byte>, b: seq<byte>, k: nat, e: seq<byte>)
    requires HasEntry(a, k, e)
    ensures HasEntry(a + b, k, e)
  {
    assert (a + b)[ENTRY_SIZE * k..ENTRY_SIZE * (k + 1)] == a[ENTRY_SIZE * k..ENTRY_SIZE * (k + 1)];
  }

  lemma LastEntry(a: seq<byte>, e: seq<byte>, n: nat)
    requires |a| == ENTRY_SIZE * n && |e| == ENTRY_SIZE
    ensures HasEntry(a + e, n, e)
  {
    assert (a + e)[|a|..|a| + |e|] == e;
  }

  lemma {:induction false} FlatSlice(blocks: seq<seq<byte>>, k: nat)
    requires Blocks(blocks) && k < |blocks|
    ensures HasEntry(Flat(blocks), k, blocks[k])
  {
    var n := |blocks| - 1;
    if k < n {
      FlatSlice(blocks[..n], k);
      MoreEntries(Flat(blocks[..n]), blocks[n], k, blocks[k]);
    } else {
      LastEntry(Flat(blocks[..n]), blocks[n], n);
    }
  }

  lemma SliceOfSlice(file: seq<byte>)
    requires |file| >= HEADER_SIZE
    ensures CountOf(file[..HEADER_SIZE]) == CountOf(file)
  {
    assert file[..HEADER_SIZE][COUNT_OFFSET..COUNT_OFFSET + 4] == file[COUNT_OFFSET..COUNT_OFFSET + 4];
  }

  lemma EntryOfRendered(count: nat, items: seq<Item>, k: nat)
    requires count < 0x1_0000_0000 && Storable(items) && k < |items|
    ensures |Render(count, items)| >= HEADER_SIZE + ENTRY_SIZE * (k + 1)
    ensures var r := items[k].report;
            EntryAt(Render(count, items), k)
            == Decoded(items[k].id, Text(r.subsystem), Text(r.severity), r.value, r.threshold, Text(r.description),
                       Text(r.timestamp))
  {
    FlatSlice(Entries(items), k);
    var file := Render(count, items);
    assert file[HEADER_SIZE + ENTRY_SIZE * k..HEADER_SIZE + ENTRY_SIZE * (k + 1)]
        == Body(items)[ENTRY_SIZE * k..ENTRY_SIZE * (k + 1)];
    EntryDecodes(items[k].id, items[k].report);
  }

  // ----- the two writes of fdr_write_entry() -----

  lemma BodyAppend(items: seq<Item>, item: Item)
    requires Storable(items) && item.id < 0x1_0000_0000 && item.report.Valid()
    ensures Storable(items + [item])
    ensures Body(items + [item]) == Body(items) + Entry(item.id, item.report)
  {
    var e := Entry(item.id, item.report);
    assert Entries(items + [item]) == Entries(items) + [e];
    assert (Entries(items) + [e])[..|items|] == Entries(items);
  }

  lemma AppendRendered(count: nat, items: seq<Item>, item: Item)
    requires count < 0x1_0000_0000 && Storable(items) && item.id < 0x1_0000_0000 && item.report.Valid()
    ensures Storable(items + [item])
    ensures var file := Render(count, items);
            Overwritten(file, |file|, Entry(item.id, item.report)) == Render(count, items + [item])
  {
    var e := Entry(item.id, item.report);
    BodyAppend(items, item);
    WriteAtEnd(Render(count, items), e);
  }

  lemma PatchMiddle(front: seq<byte>, was: seq<byte>, now: seq<byte>, back: seq<byte>)
    requires |front| == COUNT_OFFSET && |was| == |now| == 4
    ensures Overwritten(front + was + back, COUNT_OFFSET, now) == front + now + back
  {
  }

  // Patching the count changes those four bytes and no other.
  lemma PatchRendered(count: nat, items: seq<Item>, newCount: nat)
    requires count < 0x1_0000_0000 && newCount < 0x1_0000_0000 && Storable(items)
    ensures Overwritten(Render(count, items), COUNT_OFFSET, Int32(newCount)) == Render(newCount, items)
  {
    var body := Body(items);
    var front := Field(MAGIC, 8) + Field(MISSION, 16) + Int32(1);
    var back := Zeros(32) + Zeros(52) + body;
    assert Render(count, items) == front + Int32(count) + back;
    assert Render(newCount, items) == front + Int32(newCount) + back;
    PatchMiddle(front, Int32(count), Int32(newCount), back);
  }

  // ----- the log that uninterrupted opens and appends build -----

  function Numbered(reports: seq<Report>): (items: seq<Item>)
    ensures |items| == |reports|
    ensures forall i | 0 <= i < |items| :: items[i] == Item(i + 1, reports[i])
  {
    if reports == [] then []
    else Numbered(reports[..|reports| - 1]) + [Item(|reports|, reports[|reports| - 1])]
  }

  ghost predicate Loggable(reports: seq<Report>) {
    |reports| < 0x8000_0000 && forall i | 0 <= i < |reports| :: reports[i].Valid()
  }

  function LogOf(reports: seq<Report>): (file: seq<byte>)
    requires Loggable(reports)
    ensures |file| >= HEADER_SIZE
  {
    Render(|reports|, Numbered(reports))
  }

  ghost predicate IsLogOf(file: seq<byte>, reports: seq<Report>) {
    Loggable(reports) && file == LogOf(reports)
  }

  // The entry has this id and the strings and floats of this report.
  predicate Tells(e: Decoded, id: nat, r: Report) {
    e == Decoded(id, Text(r.subsystem), Text(r.severity), r.value, r.threshold, Text(r.description), Text(r.timestamp))
  }

  lemma MagicIsSpelled()
    ensures MAGIC == Ascii("FDRLOG") && MISSION == Ascii("APEX-SAT-01")
  {
  }

  lemma HeaderFields(a: seq<byte>, b: seq<byte>, c: seq<byte>, d: seq<byte>, e: seq<byte>)
    requires |a| == 8 && |b| == 16 && |c| == 4 && |d| == 4 && |e| == 84
    ensures var h := (a + b + c) + d + e;
            h[0..8] == a && h[8..24] == b && h[24..28] == c && h[28..32] == d && h[32..116] == e
  {
  }

  lemma NamesInHeader(count: nat)
    requires count < 0x1_0000_0000
    ensures var h := Header(count);
            && h[0..8] == Ascii("FDRLOG") + [0, 0] && h[8..24] == Ascii("APEX-SAT-01") + [0, 0, 0, 0, 0]
            && h[24..28] == Int32(1) && h[28..32] == Int32(count) && h[32..116] == Zeros(84)
  {
    MagicIsSpelled();
    HeaderFields(Field(MAGIC, 8), Field(MISSION, 16), Int32(1), Int32(count), Zeros(32) + Zeros(52));
    assert Field(MAGIC, 8) == MAGIC + [0, 0] && Field(MISSION, 16) == MISSION + [0, 0, 0, 0, 0];
    assert Zeros(32) + Zeros(52) == Zeros(84);
  }

  lemma FrontOfFile(count: nat, items: seq<Item>)
    requires count < 0x1_0000_0000 && Storable(items)
    ensures |Render(count, items)| == 116 + 136 * |items| && Render(count, items)[..116] == Header(count)
  {
  }

  // The header of every log of n reports, byte by byte: magic, mission, version 1, the count, and zeros; the
  // entries, 136 bytes each, follow.
  lemma LogBytes(reports: seq<Report>)
    requires Loggable(reports)
    ensures |LogOf(reports)| == 116 + 136 * |reports|
    ensures LogOf(reports)[..116][0..8] == Ascii("FDRLOG") + [0, 0]
    ensures LogOf(reports)[..116][8..24] == Ascii("APEX-SAT-01") + [0, 0, 0, 0, 0]
    ensures LogOf(reports)[..116][24..28] == [1, 0, 0, 0]
    ensures var n := |reports|;
            LogOf(reports)[..116][28..32] == [n % 256, n / 0x100 % 256, n / 0x1_0000 % 256, n / 0x100_0000 % 256]
    ensures LogOf(reports)[..116][32..116] == Zeros(84)
  {
    FrontOfFile(|reports|, Numbered(reports));
    NamesInHeader(|reports|);
  }

  // A log of n reports is 116 + 136 n bytes long, counts n, and its k-th entry has id k and reads
  // back as the k-th report.
  lemma LogReadsBack(reports: seq<Report>, k: nat)
    requires Loggable(reports) && k < |reports|
    ensures |LogOf(reports)| == HEADER_SIZE + ENTRY_SIZE * |reports| && CountOf(LogOf(reports)) == |reports|
    ensures |LogOf(reports)| >= HEADER_SIZE + ENTRY_SIZE * (k + 1)
    ensures Tells(EntryAt(LogOf(reports), k), k + 1, reports[k])
  {
    CountOfRendered(|reports|, Numbered(reports));
    EntryOfRendered(|reports|, Numbered(reports), k);
  }

  lemma FileReadsBack(file: seq<byte>, reports: seq<Report>, k: nat)
    requires IsLogOf(file, reports) && k < |reports|
    ensures |file| == HEADER_SIZE + ENTRY_SIZE * |reports| && CountOf(file) == |reports|
    ensures |file| >= HEADER_SIZE + ENTRY_SIZE * (k + 1)
    ensures Tells(EntryAt(file, k), k + 1, reports[k])
  {
    LogReadsBack(reports, k);
  }

  // What read() leaves of the header's memory: as much of the file as there is, then what the stack held.
  function HeaderRead(file: seq<byte>, stack: seq<byte>): (header: seq<byte>)
    requires |stack| == HEADER_SIZE
    ensures |header| == HEADER_SIZE
    ensures |file| >= HEADER_SIZE ==> header == file[..HEADER_SIZE]
  {
    if |file| >= HEADER_SIZE then file[..HEADER_SIZE] else file + stack[|file|..]
  }

  // One more, on the 32 bits of an int.
  function Successor(count: nat): (next: nat)
    ensures next < 0x1_0000_0000
  {
    (count + 1) % 0x1_0000_0000
  }

  // The file once fdr_write_entry() has read `count` from its header.
  function WithEntry(file: seq<byte>, count: nat, report: Report): seq<byte>
    requires report.Valid()
  {
    Overwritten(file + Entry(Successor(count), report), COUNT_OFFSET, Int32(Successor(count)))
  }

  class FlightRecorder {
    // The file and the position of its descriptor. `open` is g_log_fd >= 0.
    var bytes: seq<byte>
    var pos: nat
    var isOpen: bool

    constructor OnDisk(contents: seq<byte>)
      ensures bytes == contents && !isOpen
    {
      bytes, pos, isOpen := contents, 0, false;
    }

    method SeekSet(to: nat)
      modifies this`pos
      ensures pos == to
    {
      pos := to;
    }

    method SeekEnd() returns (size: nat)
      modifies this`pos
      ensures pos == size == |bytes|
    {
      pos := |bytes|;
      size := pos;
    }

    method Read(n: nat) returns (data: seq<byte>)
      requires pos <= |bytes|
      modifies this`pos
      ensures pos == if old(pos) + n <= |bytes| then old(pos) + n else |bytes|
      ensures data == bytes[old(pos)..pos]
    {
      var end := if pos + n <= |bytes| then pos + n else |bytes|;
      data := bytes[pos..end];
      pos := end;
    }

    method Write(data: seq<byte>)
      requires pos <= |bytes|
      modifies this`bytes, this`pos
      ensures bytes == Overwritten(old(bytes), old(pos), data)
      ensures pos == old(pos) + |data|
    {
      bytes := Overwritten(bytes, pos, data);
      pos := pos + |data|;
    }

    // fdr_open(): an empty file becomes the log of no reports; any other is left as it is.
    method Open()
      modifies this
      ensures isOpen
      ensures bytes == if old(bytes) == [] then LogOf([]) else old(bytes)
    {
      isOpen := true;
      var size := SeekEnd();
      if size == 0 {
        SeekSet(0);
        Write(Header(0));
      }
    }

    // fdr_read_header(), into memory that holds `stack`. `ok` is false for the -1 returned when nothing
    // can be read.
    method ReadHeader(stack: seq<byte>) returns (ok: bool, header: seq<byte>)
      requires |stack| == HEADER_SIZE
      modifies this`pos
      ensures ok <==> bytes != []
      ensures header == HeaderRead(bytes, stack)
    {
      SeekSet(0);
      var data := Read(HEADER_SIZE);
      header := data + stack[|data|..];
      ok := |data| > 0;
    }

    // fdr_write_entry(): appends one entry and patches the count; an empty file is left alone. A file
    // shorter than a header leaves part of the count to what is on the stack.
    method WriteEntry(report: Report, stack: seq<byte>) returns (ok: bool)
      requires isOpen && report.Valid() && |stack| == HEADER_SIZE
      requires bytes != [] ==> CountOf(HeaderRead(bytes, stack)) != 0x7fff_ffff
      modifies this`bytes, this`pos
      ensures ok <==> old(bytes) != []
      ensures ok ==> bytes == WithEntry(old(bytes), CountOf(HeaderRead(old(bytes), stack)), report)
      ensures !ok ==> bytes == old(bytes)
    {
      var header;
      ok, header := ReadHeader(stack);
      if !ok {
        return;
      }
      var count := CountOf(header);
      var entry := Entry(Successor(count), report);
      var size := SeekEnd();
      WriteAtEnd(bytes, entry);
      Write(entry);
      count := Successor(count);
      SeekSet(COUNT_OFFSET);
      Write(Int32(count));
    }

    // Appending to the log of some reports gives the log of those and one more.
    method Append(report: Report, ghost reports: seq<Report>)
      requires isOpen && report.Valid() && |reports| + 1 < 0x8000_0000 && IsLogOf(bytes, reports)
      modifies this`bytes, this`pos
      ensures IsLogOf(bytes, reports + [report])
    {
      SliceOfSlice(bytes);
      LogWithEntry(bytes, reports, report);
      var ok := WriteEntry(report, Zeros(HEADER_SIZE));  // a log is longer than a header: the stack is not seen
    }
  }

  lemma NumberedGrows(reports: seq<Report>, report: Report)
    ensures Numbered(reports + [report]) == Numbered(reports) + [Item(|reports| + 1, report)]
  {
    assert (reports + [report])[..|reports|] == reports;
  }

  lemma WriteAtEnd(file: seq<byte>, data: seq<byte>)
    ensures Overwritten(file, |file|, data) == file + data
  {
  }

  lemma WithEntryRendered(count: nat, items: seq<Item>, report: Report)
    requires count + 1 < 0x1_0000_0000 && Storable(items) && report.Valid()
    ensures Storable(items + [Item(count + 1, report)])
    ensures WithEntry(Render(count, items), count, report) == Render(count + 1, items + [Item(count + 1, report)])
  {
    var item := Item(count + 1, report);
    assert Successor(count) == count + 1;
    AppendRendered(count, items, item);
    WriteAtEnd(Render(count, items), Entry(count + 1, report));
    PatchRendered(count, items + [item], count + 1);
  }

  lemma AppendToLog(reports: seq<Report>, report: Report)
    requires Loggable(reports) && Loggable(reports + [report]) && report.Valid()
    ensures WithEntry(LogOf(reports), |reports|, report) == LogOf(reports + [report])
  {
    NumberedGrows(reports, report);
    WithEntryRendered(|reports|, Numbered(reports), report);
  }

  lemma LogWithEntry(file: seq<byte>, reports: seq<Report>, report: Report)
    requires IsLogOf(file, reports) && |reports| + 1 < 0x8000_0000 && report.Valid()
    ensures |file| >= HEADER_SIZE && CountOf(file) == |reports|
    ensures IsLogOf(WithEntry(file, CountOf(file), report), reports + [report])
  {
    CountOfRendered(|reports|, Numbered(reports));
    AppendToLog(reports, report);
  }
}
